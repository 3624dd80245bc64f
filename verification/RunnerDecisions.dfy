/**
 What the Runner decides, spelled out in what its rows hold: which run starts, what becomes of a lost
 attempt, what a cancel and a suspension find, and which events it takes.
 */
module RunnerDecisions {
  import opened Wrappers
  import opened Protocol
  import opened Runner
  import opened RunnerLifecycle
  import RunnerOutcomes
  import RunnerDatabase

  // ---------------------------------------------------------------------------------------------
  // Scheduling

  /** A run that waits to be started, with room for one more run in all and of its user's. */
  predicate MayStart(db: Db, limits: Limits, r: Uuid) {
    && r in db.runs && (db.runs[r].state == Accepted || db.runs[r].state == Scheduled)
    && db.runs[r].activeAttemptId == None
    && |set q | q in db.runs && (db.runs[q].state == Starting || db.runs[q].state == Running
                                 || db.runs[q].state == Suspending || db.runs[q].state == Cancelling)|
       < limits.globalRuns
    && |set q | q in db.runs && db.runs[q].binding.userId == db.runs[r].binding.userId
                && (db.runs[q].state == Starting || db.runs[q].state == Running
                    || db.runs[q].state == Suspending || db.runs[q].state == Cancelling)|
       < limits.perUserRuns
  }

  /**
   A run is given an attempt, and starts, if and only if it waits and there is room: in all, and for its
   user. Otherwise nothing changes.
   */
  lemma StartsIffThereIsRoom(db: Db, limits: Limits, r: Uuid, a: Uuid, number: nat)
    requires a !in db.attempts
    ensures var (db', outcome) := Schedule(db, limits, r, a, number);
            && (outcome == Err("run_not_found") <==> r !in db.runs) && (r in db.runs ==> outcome.Ok?)
            && (outcome == Ok(Some(a)) <==> MayStart(db, limits, r))
            && (outcome != Ok(Some(a)) ==> db' == db && (r in db.runs ==> outcome == Ok(None)))
            && (outcome == Ok(Some(a)) ==>
                  var run := db.runs[r]; var epoch := run.leaseEpoch + 1;
                  && db'.runs == db.runs[r := RunRow(run.binding, Starting, Some(a), epoch, run.terminalCode)]
                  && db'.attempts
                     == db.attempts[a := AttemptRow(r, number, epoch, AttemptStarting, false, None, false, None)]
                  && db' == db.(runs := db'.runs, attempts := db'.attempts))
  {
    if r in db.runs {
      var user := db.runs[r].binding.userId;
      assert GlobalActive(db) == set q | q in db.runs && (db.runs[q].state == Starting || db.runs[q].state == Running
                                           || db.runs[q].state == Suspending || db.runs[q].state == Cancelling);
      assert UserActive(db, user) == set q | q in db.runs && db.runs[q].binding.userId == user
                                       && (db.runs[q].state == Starting || db.runs[q].state == Running
                                           || db.runs[q].state == Suspending || db.runs[q].state == Cancelling);
    }
  }

  // ---------------------------------------------------------------------------------------------
  // Lost attempts

  /** Whether a lost attempt may be followed by another, going by the row that was read of it. */
  predicate IsRetried(lost: LossRow, deadlinePassed: bool, maxAttempts: nat) {
    !lost.visibleOutput && lost.attemptNumber < maxAttempts && !deadlinePassed
  }

  /**
   A lost attempt that is still the active one has its run scheduled again if and only if it has shown
   no output, there are attempts left and the deadline has not passed. Otherwise the run fails, says
   why, and the attempt's message is interrupted, if it has one.
   */
  lemma LossDecides(db: Db, lost: LossRow, deadlinePassed: bool, maxAttempts: nat)
    requires lost.runId in db.runs && db.runs[lost.runId].activeAttemptId == Some(lost.attemptId)
    requires IsAttemptOf(db, lost.attemptId, lost.runId)
    ensures var db' := HandleAttemptLoss(db, lost, deadlinePassed, maxAttempts);
            var r, a, run := lost.runId, lost.attemptId, db.runs[lost.runId];
            var code := if lost.visibleOutput then "attempt_lost_after_output" else "attempt_retry_exhausted";
            && db' == db.(runs := db'.runs, attempts := db'.attempts, outbox := db'.outbox)
            && db'.attempts == db.attempts[a := db.attempts[a].(state := AttemptFailed)]
            && if IsRetried(lost, deadlinePassed, maxAttempts) then
                 db'.runs == db.runs[r := run.(state := Scheduled, activeAttemptId := None)]
                 && db'.outbox == db.outbox
               else
                 && db'.runs == db.runs[r := RunRow(run.binding, Failed, None, run.leaseEpoch, Some(code))]
                 && db'.outbox == db.outbox
                    + if lost.activeMessageId.None? then []
                      else [MessageInterruption(r, a, lost.activeMessageId.value, "attempt_lost")]
  {
  }

  /** A loss that comes when its attempt is not the active one any more leaves every run alone. */
  lemma StaleLossKeepsRuns(db: Db, lost: LossRow, deadlinePassed: bool, maxAttempts: nat)
    requires lost.runId in db.runs ==> db.runs[lost.runId].activeAttemptId != Some(lost.attemptId)
    ensures HandleAttemptLoss(db, lost, deadlinePassed, maxAttempts).runs == db.runs
  {
  }

  /** The row that a reconciliation reads of a run's active attempt. */
  predicate IsLossRow(db: Db, lost: LossRow) {
    && lost.runId in db.runs && IsAttemptOf(db, lost.attemptId, lost.runId)
    && db.runs[lost.runId].activeAttemptId == Some(lost.attemptId)
    && (db.runs[lost.runId].state == Starting || db.runs[lost.runId].state == Running
        || db.runs[lost.runId].state == Cancelling)
    && db.attempts[lost.attemptId].attemptNumber == lost.attemptNumber
    && db.attempts[lost.attemptId].visibleOutput == lost.visibleOutput
    && db.attempts[lost.attemptId].activeMessageId == lost.activeMessageId
  }

  /** An event that says that the attempt has started a message, and that the Runner takes. */
  predicate TakesStarted(db: Db, step: Step, a: Uuid) {
    step.ConsumeEvent? && step.event.body.MessageStarted?
    && var event, r := step.event, step.event.runId;
       && event.eventId !in db.inbox && r in db.runs && event.binding == db.runs[r].binding
       && event.body.startedBy == a && db.runs[r].activeAttemptId == Some(a)
       && event.body.startedEpoch == db.runs[r].leaseEpoch
  }

  /** The message of the last such event of a run's steps. */
  ghost function LastStarted(config: Config, db: Db, steps: seq<Step>, a: Uuid, before: Option<Uuid>): Option<Uuid>
    decreases |steps|
  {
    if steps == [] then before
    else
      var step := steps[0];
      LastStarted(config, if Enabled(db, step) then Apply(config, db, step) else db, steps[1..], a,
                  if TakesStarted(db, step, a) then Some(step.event.body.messageId) else before)
  }

  ghost predicate ShowsStarted(db: Db, a: Uuid, started: Option<Uuid>) {
    if a in db.attempts
    then db.attempts[a].visibleOutput == started.Some? && db.attempts[a].activeMessageId == started
    else started == None
  }

  lemma StartedShows(db: Db, event: RunEvent, a: Uuid)
    requires event.runId in db.runs && event.body.MessageStarted? && Handle(db, event).Ok? && a in db.attempts
    ensures var db' := Handle(db, event).value;
            && a in db'.attempts
            && var now, was := db'.attempts[a], db.attempts[a];
               if event.body.startedBy == a
               then now.visibleOutput && now.activeMessageId == Some(event.body.messageId)
               else now.visibleOutput == was.visibleOutput && now.activeMessageId == was.activeMessageId
  {
    hide Propose, ConfirmMessages, ConfirmCheckpoint;
  }

  lemma OtherEventsShowNothing(db: Db, event: RunEvent, a: Uuid)
    requires event.runId in db.runs && !event.body.MessageStarted? && Handle(db, event).Ok?
    ensures Handle(db, event).value.attempts == db.attempts
  {
    hide Dedup, SameProposal, Elements;
  }

  lemma ConvergeShowsNothing(db: Db, r: Uuid, a: Uuid)
    ensures var db' := Converge(db, r);
            && (a in db'.attempts <==> a in db.attempts)
            && (a in db.attempts ==>
                  && db'.attempts[a].visibleOutput == db.attempts[a].visibleOutput
                  && db'.attempts[a].activeMessageId == db.attempts[a].activeMessageId)
  {
    hide Flagged, IsReady;
  }

  lemma EventShowsStarted(config: Config, db: Db, event: RunEvent, a: Uuid, started: Option<Uuid>)
    requires Inv(config, db) && ShowsStarted(db, a, started)
    ensures ShowsStarted(Consume(db, event).0, a,
                         if TakesStarted(db, ConsumeEvent(event), a) then Some(event.body.messageId) else started)
  {
    var r := event.runId;
    if event.eventId !in db.inbox && r in db.runs {
      assert RunOk(db, config.maxAttempts, r);
      var db1 := db.(inbox := db.inbox + {event.eventId});
      hide Inv, RunOk, Converge, Handle;
      if event.body.MessageStarted? {
        StartedIsTakenIff(db1, event);
        if Handle(db1, event).Ok? {
          if a in db.attempts {
            StartedShows(db1, event, a);
          } else {
            HandleAddsNoAttempt(db1, event);
          }
        }
      } else if Handle(db1, event).Ok? {
        OtherEventsShowNothing(db1, event, a);
        ConvergeShowsNothing(Handle(db1, event).value, r, a);
      }
    }
  }

  lemma StartedIsTakenIff(db: Db, event: RunEvent)
    requires event.runId in db.runs && event.body.MessageStarted?
    ensures Handle(db, event).Ok? <==>
            && db.runs[event.runId].activeAttemptId == Some(event.body.startedBy)
            && db.runs[event.runId].leaseEpoch == event.body.startedEpoch
  {
  }

  lemma HandleAddsNoAttempt(db: Db, event: RunEvent)
    requires event.runId in db.runs && Handle(db, event).Ok?
    ensures Handle(db, event).value.attempts.Keys == db.attempts.Keys
  {
    hide Dedup, SameProposal, Elements;
  }

  lemma DirectStepShowsStarted(config: Config, db: Db, step: Step, a: Uuid, started: Option<Uuid>)
    requires Enabled(db, step) && !step.ConsumeEvent? && ShowsStarted(db, a, started)
    ensures ShowsStarted(Apply(config, db, step), a, started)
  {
    if step.LoseAttempt? {
      hide Apply, Enabled;
      LossShowsNothing(config, db, step, a);
    } else {
      StatesShowNothing(a);
      hide SetAttemptState, HandleAttemptLoss, Consume, HasCapacity, IsNextNumber, CancelEvents;
    }
  }

  lemma StatesShowNothing(a: Uuid)
    ensures forall db, b, state ::
              var db' := SetAttemptState(db, b, state);
              && (a in db'.attempts <==> a in db.attempts)
              && (a in db.attempts ==>
                    && db'.attempts[a].visibleOutput == db.attempts[a].visibleOutput
                    && db'.attempts[a].activeMessageId == db.attempts[a].activeMessageId)
  {
  }

  lemma LossShowsNothing(config: Config, db: Db, step: Step, a: Uuid)
    requires step.LoseAttempt?
    ensures var db' := Apply(config, db, step);
            && (a in db'.attempts <==> a in db.attempts)
            && (a in db.attempts ==>
                  && db'.attempts[a].visibleOutput == db.attempts[a].visibleOutput
                  && db'.attempts[a].activeMessageId == db.attempts[a].activeMessageId)
  {
    hide HandleAttemptLoss;
    LossMarksAttempt(db, step.lost, step.deadlinePassed, config.maxAttempts);
  }

  lemma LossMarksAttempt(db: Db, lost: LossRow, deadlinePassed: bool, maxAttempts: nat)
    ensures HandleAttemptLoss(db, lost, deadlinePassed, maxAttempts).attempts
         == SetAttemptState(db, lost.attemptId, AttemptFailed).attempts
  {
    hide SetAttemptState, LossEvents, RetryAllowed;
  }

  lemma {:induction false} RunShowsStarted(config: Config, db: Db, steps: seq<Step>, a: Uuid, started: Option<Uuid>)
    requires Inv(config, db) && ShowsStarted(db, a, started)
    ensures ShowsStarted(Run(config, db, steps), a, LastStarted(config, db, steps, a, started))
    decreases |steps|
  {
    hide Inv, Enabled, Apply, ShowsStarted;
    if steps != [] {
      var step := steps[0];
      if Enabled(db, step) {
        if step.ConsumeEvent? {
          EventShowsStarted(config, db, step.event, a, started);
          assert Apply(config, db, step) == Consume(db, step.event).0 by { ConsumeIs(config, db, step); }
        } else {
          DirectStepShowsStarted(config, db, step, a, started);
        }
        StepKeepsInv(config, db, step);
        RunShowsStarted(config, Apply(config, db, step), steps[1..], a,
          if TakesStarted(db, step, a) then Some(step.event.body.messageId) else started);
      } else {
        assert !step.ConsumeEvent? by { EventsAreEnabled(db, step); }
        RunShowsStarted(config, db, steps[1..], a, started);
      }
    }
  }

  lemma ConsumeIs(config: Config, db: Db, step: Step)
    requires step.ConsumeEvent?
    ensures Apply(config, db, step) == Consume(db, step.event).0
  {
  }

  lemma EventsAreEnabled(db: Db, step: Step)
    ensures step.ConsumeEvent? ==> Enabled(db, step)
  {
  }

  /**
   An attempt has visible output if and only if the Runner has taken an event that it has started a
   message, while it was the active attempt; and its message is that of the last one.
   */
  lemma OutputIsStarted(config: Config, steps: seq<Step>, a: Uuid)
    requires a in Run(config, EMPTY, steps).attempts
    ensures var attempt := Run(config, EMPTY, steps).attempts[a];
            var started := LastStarted(config, EMPTY, steps, a, None);
            attempt.visibleOutput == started.Some? && attempt.activeMessageId == started
  {
    hide Run, LastStarted;
    EmptyInv(config);
    RunShowsStarted(config, EMPTY, steps, a, None);
  }

  /**
   A run whose active attempt was read with visible output, and lost while it still was the active one,
   has failed for good: it gets no further attempt, whatever happens.
   */
  lemma LostOutputIsFinal(
    config: Config, before: seq<Step>, between: seq<Step>, after: seq<Step>, lost: LossRow, deadlinePassed: bool)
    requires IsLossRow(Run(config, EMPTY, before), lost)
    requires LastStarted(config, EMPTY, before, lost.attemptId, None).Some?
    requires var db := Run(config, Run(config, EMPTY, before), between);
             && lost.runId in db.runs && db.runs[lost.runId].activeAttemptId == Some(lost.attemptId)
             && IsAttemptOf(db, lost.attemptId, lost.runId)
    ensures var db := Run(config, Run(config, EMPTY, before), between); var r := lost.runId;
            var gone := HandleAttemptLoss(db, lost, deadlinePassed, config.maxAttempts);
            var later := Run(config, gone, after);
            && r in later.runs && later.runs[r].state == Failed
            && later.runs[r].terminalCode == Some("attempt_lost_after_output")
            && (forall a | IsAttemptOf(later, a, r) :: IsAttemptOf(db, a, r))
  {
    hide Run, LastStarted, Inv, HandleAttemptLoss;
    var db0 := Run(config, EMPTY, before);
    OutputIsStarted(config, before, lost.attemptId);
    var db := Run(config, db0, between);
    EmptyInv(config);
    RunKeepsInv(config, EMPTY, before);
    RunKeepsInv(config, db0, between);
    LossDecides(db, lost, deadlinePassed, config.maxAttempts);
    var gone := HandleAttemptLoss(db, lost, deadlinePassed, config.maxAttempts);
    LossKeepsInv(config, db0, db, lost, deadlinePassed, between);
    RunnerOutcomes.TerminalForever(config, gone, after, lost.runId);
    RunAddsNoAttempt(config, gone, after, lost.runId);
  }

  lemma LossKeepsInv(config: Config, db0: Db, db: Db, lost: LossRow, deadlinePassed: bool, between: seq<Step>)
    requires Inv(config, db0) && Inv(config, db) && IsAttemptOf(db, lost.attemptId, lost.runId)
    requires lost.attemptId in db0.attempts && db0.attempts[lost.attemptId].attemptNumber == lost.attemptNumber
    requires db == Run(config, db0, between)
    ensures Inv(config, HandleAttemptLoss(db, lost, deadlinePassed, config.maxAttempts))
  {
    hide Inv, HandleAttemptLoss, Run;
    RunKeepsNumber(config, db0, between, lost.attemptId);
    StepKeepsInv(config, db, LoseAttempt(lost, deadlinePassed));
  }

  /** An attempt's number is its epoch, which does not change. */
  lemma {:induction false} RunKeepsNumber(config: Config, db: Db, steps: seq<Step>, a: Uuid)
    requires Inv(config, db) && a in db.attempts
    ensures var db' := Run(config, db, steps);
            a in db'.attempts && db'.attempts[a].attemptNumber == db.attempts[a].attemptNumber
    decreases |steps|
  {
    hide Inv, Enabled, Apply;
    if steps != [] {
      if Enabled(db, steps[0]) {
        var next := Apply(config, db, steps[0]);
        StepKeepsAttempt(config, db, steps[0], a);
        StepKeepsInv(config, db, steps[0]);
        NumberIsEpoch(config, db, a);
        NumberIsEpoch(config, next, a);
        RunKeepsNumber(config, next, steps[1..], a);
      } else {
        RunKeepsNumber(config, db, steps[1..], a);
      }
    }
  }

  lemma NumberIsEpoch(config: Config, db: Db, a: Uuid)
    requires Inv(config, db) && a in db.attempts
    ensures db.attempts[a].attemptNumber == db.attempts[a].leaseEpoch
  {
    assert AttemptOk(db, a);
  }

  /** A terminal run gets no attempt. */
  lemma {:induction false} RunAddsNoAttempt(config: Config, db: Db, steps: seq<Step>, r: Uuid)
    requires Inv(config, db) && r in db.runs && IsTerminal(db.runs[r].state)
    ensures forall a | IsAttemptOf(Run(config, db, steps), a, r) :: IsAttemptOf(db, a, r)
    decreases |steps|
  {
    hide Inv, Enabled, Apply;
    if steps != [] {
      if Enabled(db, steps[0]) {
        var next := Apply(config, db, steps[0]);
        StepAddsNoAttempt(config, db, steps[0], r);
        RunnerOutcomes.StepKeepsTerminal(config, db, steps[0], r);
        StepKeepsInv(config, db, steps[0]);
        RunAddsNoAttempt(config, next, steps[1..], r);
      } else {
        RunAddsNoAttempt(config, db, steps[1..], r);
      }
    }
  }

  lemma StepAddsNoAttempt(config: Config, db: Db, step: Step, r: Uuid)
    requires Enabled(db, step) && r in db.runs && IsTerminal(db.runs[r].state)
    ensures forall a | IsAttemptOf(Apply(config, db, step), a, r) :: IsAttemptOf(db, a, r)
  {
    if step.ScheduleRun? {
      hide HasCapacity, IsNextNumber;
    } else {
      hide Apply;
      OnlySchedulingAdds(config, db, step);
      forall a | IsAttemptOf(Apply(config, db, step), a, r) ensures IsAttemptOf(db, a, r) {
        StepKeepsAttempt(config, db, step, a);
      }
    }
  }

  lemma OnlySchedulingAdds(config: Config, db: Db, step: Step)
    requires Enabled(db, step) && !step.ScheduleRun?
    ensures Apply(config, db, step).attempts.Keys == db.attempts.Keys
  {
    if step.ConsumeEvent? {
      hide Consume, Enabled;
      EventsAddNoAttempt(db, step.event);
    } else {
      StatesAddNoAttempt();
      hide SetAttemptState, Schedule, Consume, CancelEvents, LossEvents, RetryAllowed;
    }
  }

  lemma StatesAddNoAttempt()
    ensures forall db, a, state :: SetAttemptState(db, a, state).attempts.Keys == db.attempts.Keys
  {
  }

  lemma EventsAddNoAttempt(db: Db, event: RunEvent)
    ensures Consume(db, event).0.attempts.Keys == db.attempts.Keys
  {
    hide Handle, Converge;
    var db1 := db.(inbox := db.inbox + {event.eventId});
    if event.runId in db.runs && Handle(db1, event).Ok? {
      HandleAddsNoAttempt(db1, event);
      ConvergeAddsNoAttempt(Handle(db1, event).value, event.runId);
    }
  }

  lemma ConvergeAddsNoAttempt(db: Db, r: Uuid)
    ensures Converge(db, r).attempts.Keys == db.attempts.Keys
  {
    hide Flagged, IsReady;
  }

  /** Rows of different runs, each still the row of its run's active attempt. */
  ghost predicate AreActive(db: Db, rows: seq<LossRow>) {
    && (forall i | 0 <= i < |rows| ::
          && rows[i].runId in db.runs && db.runs[rows[i].runId].activeAttemptId == Some(rows[i].attemptId)
          && IsAttemptOf(db, rows[i].attemptId, rows[i].runId))
    && (forall i, j | 0 <= i < j < |rows| :: rows[i].runId != rows[j].runId)
  }

  /**
   A reconciliation leaves a run alone whose container is running; any other is scheduled again or
   failed, as its row says.
   */
  lemma {:induction false} ReconcileDecides(
    db: Db, rows: seq<LossRow>, running: seq<bool>, deadlinePassed: seq<bool>, maxAttempts: nat, i: nat)
    requires |running| == |rows| && |deadlinePassed| == |rows| && AreActive(db, rows) && i < |rows|
    ensures var db' := RunnerDatabase.Reconcile(db, rows, running, deadlinePassed, maxAttempts);
            var r, run := rows[i].runId, db.runs[rows[i].runId];
            && r in db'.runs
            && db'.runs[r] ==
               if running[i] then run
               else if IsRetried(rows[i], deadlinePassed[i], maxAttempts)
               then run.(state := Scheduled, activeAttemptId := None)
               else run.(state := Failed, activeAttemptId := None, terminalCode := Some(
                           if rows[i].visibleOutput then "attempt_lost_after_output" else "attempt_retry_exhausted"))
    decreases |rows|
  {
    hide HandleAttemptLoss;
    var n := |rows| - 1;
    assert AreActive(db, rows[..n]);
    var before := RunnerDatabase.Reconcile(db, rows[..n], running[..n], deadlinePassed[..n], maxAttempts);
    if i < n {
      ReconcileDecides(db, rows[..n], running[..n], deadlinePassed[..n], maxAttempts, i);
      LossKeepsOthers(before, rows[n], deadlinePassed[n], maxAttempts, rows[i].runId);
    } else {
      ReconcileKeepsOthers(db, rows[..n], running[..n], deadlinePassed[..n], maxAttempts, rows[n].runId,
                           rows[n].attemptId);
      LossDecides(before, rows[n], deadlinePassed[n], maxAttempts);
    }
  }

  lemma LossKeepsOthers(db: Db, lost: LossRow, deadlinePassed: bool, maxAttempts: nat, r: Uuid)
    requires lost.runId != r && r in db.runs
    ensures var db' := HandleAttemptLoss(db, lost, deadlinePassed, maxAttempts);
            r in db'.runs && db'.runs[r] == db.runs[r]
  {
    hide HandleAttemptLoss, LossEvents;
    LossFrame(db, lost, deadlinePassed, maxAttempts);
  }

  lemma {:induction false} ReconcileKeepsOthers(
    db: Db, rows: seq<LossRow>, running: seq<bool>, deadlinePassed: seq<bool>, maxAttempts: nat, r: Uuid, a: Uuid)
    requires |running| == |rows| && |deadlinePassed| == |rows| && r in db.runs && IsAttemptOf(db, a, r)
    requires forall i | 0 <= i < |rows| :: rows[i].runId != r
    ensures var db' := RunnerDatabase.Reconcile(db, rows, running, deadlinePassed, maxAttempts);
            r in db'.runs && db'.runs[r] == db.runs[r] && IsAttemptOf(db', a, r)
    decreases |rows|
  {
    hide HandleAttemptLoss;
    if rows != [] {
      var n := |rows| - 1;
      ReconcileKeepsOthers(db, rows[..n], running[..n], deadlinePassed[..n], maxAttempts, r, a);
      var before := RunnerDatabase.Reconcile(db, rows[..n], running[..n], deadlinePassed[..n], maxAttempts);
      LossKeepsOthers(before, rows[n], deadlinePassed[n], maxAttempts, r);
      LossKeepsAttempt(before, rows[n], deadlinePassed[n], maxAttempts, a);
    }
  }

  // ---------------------------------------------------------------------------------------------
  // Admission, starts and cancellation

  /** A new run is accepted, and its scheduling is requested; a known one is refused. */
  lemma AdmissionDecides(db: Db, r: Uuid, binding: Binding)
    ensures var (db', outcome) := Admit(db, r, binding);
            && (outcome == Ok(()) <==> r !in db.runs) && (r in db.runs ==> outcome == Err("run_conflict") && db' == db)
            && (r !in db.runs ==>
                  && db'.runs == db.runs[r := RunRow(binding, Accepted, None, 0, None)]
                  && db'.outbox == db.outbox + [ScheduleCommand(r)]
                  && db' == db.(runs := db'.runs, outbox := db'.outbox))
  {
  }

  /**
   A container is recorded with its attempt. A start that commits sets its attempt running, and its run as
   well if the attempt is the active one.
   */
  lemma StartDecides(db: Db, r: Uuid, a: Uuid, containerId: string)
    requires r in db.runs && IsAttemptOf(db, a, r)
    ensures ContainerCreated(db, a, containerId)
         == db.(attempts := db.attempts[a := db.attempts[a].(containerId := Some(containerId))])
    ensures StartCommitted(db, r, a)
         == db.(attempts := db.attempts[a := db.attempts[a].(state := AttemptRunning, started := true)],
                runs := if db.runs[r].activeAttemptId == Some(a)
                        then db.runs[r := db.runs[r].(state := Running)] else db.runs)
  {
  }

  /** A start that fails marks its attempt, and fails its run if it still is the active one. */
  lemma FailedStartDecides(db: Db, r: Uuid, a: Uuid)
    requires r in db.runs && IsAttemptOf(db, a, r)
    ensures var db' := StartFailed(db, r, a); var run := db.runs[r];
            && db'.attempts == db.attempts[a := db.attempts[a].(state := AttemptFailed)]
            && db'.runs == (if run.activeAttemptId == Some(a)
                            then db.runs[r := RunRow(run.binding, Failed, None, run.leaseEpoch,
                                                     Some("attempt_start_failed"))]
                            else db.runs)
            && db' == db.(runs := db'.runs, attempts := db'.attempts)
  {
  }

  predicate IsOver(state: RunState) {
    state == Completed || state == Failed || state == Cancelled
  }

  /** A cancel begins for a run that is not over: the run is cancelling, and its active attempt is to stop. */
  lemma CancelBeginsUnlessOver(db: Db, r: Uuid)
    requires r in db.runs && db.runs[r].activeAttemptId.Some? ==> IsAttemptOf(db, db.runs[r].activeAttemptId.value, r)
    ensures var (db', outcome) := CancelBegin(db, r);
            && (outcome == Err("run_not_found") <==> r !in db.runs) && (r in db.runs ==> outcome.Ok?)
            && (r in db.runs && IsOver(db.runs[r].state) <==> outcome == Ok(None))
            && (outcome.Err? || outcome == Ok(None) ==> db' == db)
            && (r in db.runs && !IsOver(db.runs[r].state) ==>
                  var run := db.runs[r];
                  && outcome == Ok(Some(CancelTicket(r,
                                  if run.activeAttemptId.None? then None
                                  else Some((run.activeAttemptId.value, db.attempts[run.activeAttemptId.value])))))
                  && db'.runs == db.runs[r := run.(state := Cancelling)]
                  && db'.attempts == (if run.activeAttemptId.None? then db.attempts
                                      else var a := run.activeAttemptId.value;
                                           db.attempts[a := db.attempts[a].(state := AttemptStopping)])
                  && db' == db.(runs := db'.runs, attempts := db'.attempts))
  {
  }

  /**
   Its second half ends the attempt and cancels a run that still is cancelling; in any case it interrupts
   the message that the attempt had when the cancel began, and announces the cancellation.
   */
  lemma CancelEnds(db: Db, ticket: CancelTicket)
    requires ticket.runId in db.runs
    requires ticket.attempt.Some? ==> IsAttemptOf(db, ticket.attempt.value.0, ticket.runId)
    ensures var db' := CancelFinish(db, ticket); var r, run := ticket.runId, db.runs[ticket.runId];
            && db'.runs == (if run.state == Cancelling
                            then db.runs[r := RunRow(run.binding, Cancelled, None, run.leaseEpoch, Some("cancelled"))]
                            else db.runs)
            && (match ticket.attempt
                case None => db'.attempts == db.attempts && db'.outbox == db.outbox + [RunCancelled(r, None)]
                case Some((a, row)) =>
                  && db'.attempts == db.attempts[a := db.attempts[a].(state := AttemptExited)]
                  && db'.outbox == db.outbox
                     + (match row.activeMessageId
                        case None => []
                        case Some(m) => [MessageInterruption(r, a, m, "cancelled")])
                     + [RunCancelled(r, Some(a))])
            && db' == db.(runs := db'.runs, attempts := db'.attempts, outbox := db'.outbox)
  {
    assert db.outbox + [] == db.outbox;
  }

  // ---------------------------------------------------------------------------------------------
  // Suspension

  /**
   A suspension is a finished redelivery exactly if it was taken before and its run waits for input. It is
   taken exactly if it is of the active attempt, in the run's epoch, and the run is running or suspending;
   then the run is suspending, the attempt is to stop, and the event is remembered. It is stale otherwise.
   */
  lemma SuspensionIsTakenIff(db: Db, event: Suspension)
    requires event.runId in db.runs && db.runs[event.runId].activeAttemptId == Some(event.attemptId) ==>
               IsAttemptOf(db, event.attemptId, event.runId)
    ensures var (db', outcome) := SuspendBegin(db, event); var r, a := event.runId, event.attemptId;
            var finished := event.eventId in db.inbox && r in db.runs && db.runs[r].state == WaitingForInput;
            var taken := r in db.runs && db.runs[r].activeAttemptId == Some(a)
                         && db.runs[r].leaseEpoch == event.leaseEpoch
                         && (db.runs[r].state == Running || db.runs[r].state == Suspending);
            && (outcome == Ok(false) <==> finished) && (outcome == Ok(true) <==> taken)
            && (!finished && !taken ==> outcome == Err("suspension_stale"))
            && db' == if !taken then db
                      else db.(runs := db.runs[r := db.runs[r].(state := Suspending)],
                               attempts := db.attempts[a := db.attempts[a].(state := AttemptStopping)],
                               inbox := db.inbox + {event.eventId})
  {
  }

  /** Its second half ends the attempt, and a run that is suspending waits for input. */
  lemma SuspensionEnds(db: Db, r: Uuid, a: Uuid)
    requires r in db.runs && IsAttemptOf(db, a, r)
    ensures var db' := SuspendFinish(db, r, a);
            && db'.attempts == db.attempts[a := db.attempts[a].(state := AttemptExited)]
            && db'.runs == (if db.runs[r].state == Suspending
                            then db.runs[r := db.runs[r].(state := WaitingForInput, activeAttemptId := None)]
                            else db.runs)
            && db' == db.(runs := db'.runs, attempts := db'.attempts)
  {
  }

  // ---------------------------------------------------------------------------------------------
  // Events

  predicate SameIds(x: seq<Uuid>, y: seq<Uuid>) {
    (forall id | id in x :: id in y) && (forall id | id in y :: id in x)
  }

  /** Of the run's active attempt, and asking for the confirmations of what it lists. */
  predicate IsProper(run: RunRow, p: RunEventBody)
    requires p.ResultProposal?
  {
    && run.activeAttemptId == Some(p.attemptId) && run.leaseEpoch == p.leaseEpoch
    && (Messages in p.required <==> p.finalMessageIds != [])
    && (Checkpoint in p.required <==> p.finalCheckpointId.Some?)
  }

  /** The stored proposal says the same, with repetitions among the confirmations left out. */
  predicate SaysTheSame(row: CompletionRow, p: RunEventBody)
    requires p.ResultProposal?
  {
    && row.attemptId == p.attemptId && row.leaseEpoch == p.leaseEpoch && row.finalMessageIds == p.finalMessageIds
    && row.finalCheckpointId == p.finalCheckpointId && row.required == Dedup(p.required)
  }

  /** Whether the handler of an event's kind accepts it. */
  predicate IsAcceptable(db: Db, event: RunEvent)
    requires event.runId in db.runs
  {
    var r, run := event.runId, db.runs[event.runId];
    match event.body
    case ResultProposal(_, _, _, _, _) =>
      IsProper(run, event.body) && (r in db.completions ==> SaysTheSame(db.completions[r], event.body))
    case MessagesCommitted(ids) => r in db.completions ==> SameIds(ids, db.completions[r].finalMessageIds)
    case CheckpointCommitted(id) => r in db.completions ==> db.completions[r].finalCheckpointId == Some(id)
    case MessageStarted(a, epoch, _) => run.activeAttemptId == Some(a) && run.leaseEpoch == epoch
    case OtherEvent => false
  }

  function WhyNot(db: Db, event: RunEvent): string
    requires event.runId in db.runs
  {
    var run := db.runs[event.runId];
    match event.body
    case ResultProposal(a, epoch, _, _, _) =>
      if run.activeAttemptId != Some(a) || run.leaseEpoch != epoch then "stale_epoch"
      else if !IsProper(run, event.body) then "confirmation_invalid"
      else "proposal_conflict"
    case MessagesCommitted(_) => "confirmation_mismatch"
    case CheckpointCommitted(_) => "confirmation_mismatch"
    case MessageStarted(_, _, _) => "stale_epoch"
    case OtherEvent => "event_unsupported"
  }

  /**
   An event is consumed if and only if it is new, its run is known, it is bound to that run and
   acceptable. An event consumed before is none the wiser; any other is refused, and changes nothing.
   */
  lemma ConsumedIff(db: Db, event: RunEvent)
    ensures var (db', outcome) := Consume(db, event); var r := event.runId;
            && (outcome == Ok(false) <==> event.eventId in db.inbox)
            && (outcome == Ok(true) <==>
                  event.eventId !in db.inbox && r in db.runs && event.binding == db.runs[r].binding
                  && IsAcceptable(db, event))
            && (event.eventId !in db.inbox ==>
                  && (r !in db.runs ==> outcome == Err("run_not_found"))
                  && (r in db.runs && event.binding != db.runs[r].binding ==> outcome == Err("event_invalid"))
                  && (r in db.runs && event.binding == db.runs[r].binding && !IsAcceptable(db, event) ==>
                        outcome == Err(WhyNot(db, event))))
            && (outcome != Ok(true) ==> db' == db)
  {
    if event.eventId !in db.inbox && event.runId in db.runs {
      HandledIff(db.(inbox := db.inbox + {event.eventId}), event);
      hide Handle, Converge;
    }
  }

  lemma HandledIff(db: Db, event: RunEvent)
    requires event.runId in db.runs
    ensures if IsAcceptable(db, event) then Handle(db, event).Ok? else Handle(db, event) == Err(WhyNot(db, event))
  {
    match event.body {
      case ResultProposal(_, _, _, _, required) =>
        hide Handle;
        HandlesProposal(db, event);
        DedupMembers(required);
        hide Dedup;
      case MessagesCommitted(ids) =>
        if event.runId in db.completions {
          SameElements(ids, db.completions[event.runId].finalMessageIds);
        }
        hide Elements, Propose;
      case _ => hide Propose, ConfirmMessages;
    }
  }

  lemma SameElements(x: seq<Uuid>, y: seq<Uuid>)
    ensures Elements(x) == Elements(y) <==> SameIds(x, y)
  {
    if Elements(x) == Elements(y) {
      forall id ensures id in x <==> id in y {
        assert id in Elements(x) <==> id in Elements(y);
      }
    }
  }

  // ---------------------------------------------------------------------------------------------
  // What an event that is taken leaves behind

  /** Each kind once, in the order in which the kinds come first. */
  lemma {:induction false} DedupIs(kinds: seq<Confirmation>)
    ensures var once := Dedup(kinds);
            && Distinct(once) && (forall k :: k in once <==> k in kinds)
            && (kinds == [] <==> once == []) && (kinds != [] ==> once[0] == kinds[0])
  {
    if kinds != [] {
      var n := |kinds| - 1;
      DedupIs(kinds[..n]);
      assert kinds == kinds[..n] + [kinds[n]];
    }
  }

  /** An attempt that has started a message shows output, and the message. */
  lemma StartedIsStored(db: Db, event: RunEvent)
    requires event.body.MessageStarted? && Consume(db, event).1 == Ok(true)
    ensures var a := event.body.startedBy;
            Consume(db, event).0
            == db.(inbox := db.inbox + {event.eventId},
                   attempts := if a !in db.attempts then db.attempts
                               else db.attempts[a := db.attempts[a].(
                                      visibleOutput := true, activeMessageId := Some(event.body.messageId))])
  {
  }

  /** The ids that a run's messages are confirmed with, and the checkpoint, once the event is stored. */
  function MessagesAfter(db: Db, event: RunEvent): map<Uuid, seq<Uuid>> {
    if event.body.MessagesCommitted? then db.messagesPayload[event.runId := event.body.messageIds]
    else db.messagesPayload
  }

  function CheckpointAfter(db: Db, event: RunEvent): map<Uuid, Uuid> {
    if event.body.CheckpointCommitted? then db.checkpointPayload[event.runId := event.body.checkpointId]
    else db.checkpointPayload
  }

  /** The proposal that a run has, once the event is stored. */
  function ProposalAfter(db: Db, event: RunEvent): Option<CompletionRow> {
    var r, p := event.runId, event.body;
    if r in db.completions then Some(db.completions[r])
    else if !p.ResultProposal? then None
    else Some(CompletionRow(event.eventId, p.attemptId, p.leaseEpoch, p.finalMessageIds, p.finalCheckpointId,
                            Dedup(p.required), false, false))
  }

  predicate AreMessagesDone(db: Db, event: RunEvent, row: CompletionRow) {
    row.messagesConfirmed
    || (event.runId in MessagesAfter(db, event) && SameIds(MessagesAfter(db, event)[event.runId], row.finalMessageIds))
  }

  predicate IsCheckpointDone(db: Db, event: RunEvent, row: CompletionRow) {
    row.checkpointConfirmed
    || (event.runId in CheckpointAfter(db, event)
        && row.finalCheckpointId == Some(CheckpointAfter(db, event)[event.runId]))
  }

  /** The first proposal of a run that is not over has it reconcile. */
  predicate Begins(db: Db, event: RunEvent)
    requires event.runId in db.runs
  {
    event.body.ResultProposal? && event.runId !in db.completions && !IsOver(db.runs[event.runId].state)
  }

  /** What the handler of an event's kind does before convergence. */
  lemma HandledStores(db: Db, event: RunEvent)
    requires event.runId in db.runs && !event.body.MessageStarted? && Handle(db, event).Ok?
    ensures var r, db1, proposal := event.runId, Handle(db, event).value, ProposalAfter(db, event);
            && db1 == db.(runs := db1.runs, completions := db1.completions, messagesPayload := MessagesAfter(db, event),
                          checkpointPayload := CheckpointAfter(db, event))
            && db1.runs == (if Begins(db, event)
                            then db.runs[r := db.runs[r].(state := CompletionReconciling)] else db.runs)
            && db1.completions
               == if proposal.None? then db.completions
                  else db.completions[r := proposal.value.(
                         messagesConfirmed := proposal.value.messagesConfirmed || event.body.MessagesCommitted?,
                         checkpointConfirmed := proposal.value.checkpointConfirmed || event.body.CheckpointCommitted?)]
  {
    hide Dedup, Elements, SameProposal;
  }

  lemma FlaggedIs(db: Db, event: RunEvent)
    requires event.runId in db.runs && !event.body.MessageStarted? && Handle(db, event).Ok?
    requires ProposalAfter(db, event).Some?
    ensures var row, db1 := ProposalAfter(db, event).value, Handle(db, event).value;
            event.runId in db1.completions
            && Flagged(db1, event.runId) == row.(messagesConfirmed := AreMessagesDone(db, event, row),
                                                 checkpointConfirmed := IsCheckpointDone(db, event, row))
  {
    HandledStores(db, event);
    var r, row := event.runId, ProposalAfter(db, event).value;
    if r in MessagesAfter(db, event) {
      SameElements(MessagesAfter(db, event)[r], row.finalMessageIds);
    }
    if r in db.completions {
      ConfirmationFits(db, event);
    }
    hide Handle, Dedup, Elements, SameIds, Begins;
  }

  lemma ConfirmationFits(db: Db, event: RunEvent)
    requires event.runId in db.runs && Handle(db, event).Ok? && event.runId in db.completions
    ensures var row := db.completions[event.runId];
            && (event.body.MessagesCommitted? ==> SameIds(event.body.messageIds, row.finalMessageIds))
            && (event.body.CheckpointCommitted? ==> row.finalCheckpointId == Some(event.body.checkpointId))
  {
    if event.body.MessagesCommitted? {
      SameElements(event.body.messageIds, db.completions[event.runId].finalMessageIds);
    }
    hide Elements, SameIds, Propose;
  }

  /** What a run is after an event, given the proposal it has by then. */
  ghost predicate IsConverged(db: Db, event: RunEvent, row: CompletionRow, db': Db)
    requires event.runId in db.runs
  {
    var r, run := event.runId, db.runs[event.runId];
    var messages, checkpoint := AreMessagesDone(db, event, row), IsCheckpointDone(db, event, row);
    var ready := (Messages in row.required ==> messages) && (Checkpoint in row.required ==> checkpoint);
    && db'.completions == db.completions[r := row.(messagesConfirmed := messages, checkpointConfirmed := checkpoint)]
    && if !ready || IsOver(run.state) then
         && db'.attempts == db.attempts && db'.outbox == db.outbox
         && db'.runs == if Begins(db, event) then db.runs[r := run.(state := CompletionReconciling)] else db.runs
       else
         && db'.attempts == (if row.attemptId !in db.attempts then db.attempts
                             else db.attempts[row.attemptId := db.attempts[row.attemptId].(state := AttemptExited)])
         && if Begins(db, event) || run.state == CompletionReconciling then
              && db'.runs == db.runs[r := RunRow(run.binding, Completed, None, run.leaseEpoch, None)]
              && db'.outbox == db.outbox + [RunCompleted(r, row.attemptId, row.leaseEpoch, row.proposalEventId)]
            else db'.runs == db.runs && db'.outbox == db.outbox
  }

  lemma UpdatedTwice<K, V>(m: map<K, V>, key: K, first: V, second: V)
    ensures m[key := first][key := second] == m[key := second]
  {
  }

  lemma ConvergesTo(db: Db, r: Uuid)
    requires r in db.completions && r in db.runs
    ensures var row, run := Flagged(db, r), db.runs[r];
            var db1 := db.(completions := db.completions[r := row]);
            var db2 := db1.(attempts := if row.attemptId !in db.attempts then db.attempts
                                        else db.attempts[row.attemptId := db.attempts[row.attemptId].(
                                               state := AttemptExited)]);
            Converge(db, r)
            == if IsOver(run.state) || !((Messages in row.required ==> row.messagesConfirmed)
                                         && (Checkpoint in row.required ==> row.checkpointConfirmed)) then db1
               else if run.state != CompletionReconciling then db2
               else db2.(runs := db.runs[r := RunRow(run.binding, Completed, None, run.leaseEpoch, None)],
                         outbox := db.outbox + [RunCompleted(r, row.attemptId, row.leaseEpoch, row.proposalEventId)])
  {
    hide Flagged;
  }

  /** What convergence does after the handler, whose database is handled. */
  lemma ConvergedIs(db: Db, event: RunEvent, row: CompletionRow, handled: Db)
    requires event.runId in db.runs && event.runId in handled.completions
    requires handled.attempts == db.attempts && handled.outbox == db.outbox
    requires handled.runs == if Begins(db, event)
                             then db.runs[event.runId := db.runs[event.runId].(state := CompletionReconciling)]
                             else db.runs
    requires handled.completions == db.completions[event.runId := handled.completions[event.runId]]
    requires Flagged(handled, event.runId) == row.(messagesConfirmed := AreMessagesDone(db, event, row),
                                                   checkpointConfirmed := IsCheckpointDone(db, event, row))
    ensures var db' := Converge(handled, event.runId);
            && IsConverged(db, event, row, db')
            && db' == handled.(runs := db'.runs, attempts := db'.attempts, completions := db'.completions,
                               outbox := db'.outbox)
  {
    hide Flagged, AreMessagesDone, IsCheckpointDone, Converge;
    var r := event.runId;
    ConvergesTo(handled, r);
    UpdatedTwice(db.completions, r, handled.completions[r], Flagged(handled, r));
    if Begins(db, event) {
      var run := db.runs[r];
      UpdatedTwice(db.runs, r, handled.runs[r], RunRow(run.binding, Completed, None, run.leaseEpoch, None));
    }
  }

  lemma InboxIsIrrelevant(db: Db, event: RunEvent, row: CompletionRow, db': Db)
    requires event.runId in db.runs && IsConverged(db.(inbox := db.inbox + {event.eventId}), event, row, db')
    ensures IsConverged(db, event, row, db')
  {
    hide SameIds;
  }

  lemma NothingToConverge(db: Db, event: RunEvent)
    requires event.runId in db.runs && !event.body.MessageStarted? && Handle(db, event).Ok?
    requires ProposalAfter(db, event).None?
    ensures Converge(Handle(db, event).value, event.runId) == Handle(db, event).value
    ensures !Begins(db, event)
  {
    HandledStores(db, event);
    hide Handle, Flagged;
  }

  /**
   A proposal or confirmation is stored; every confirmation that matches the proposal counts for it,
   whichever came first. Once all that are required count, the attempt ends, and a run that is reconciling
   completes and says so.
   */
  lemma CompletionIsStored(db: Db, event: RunEvent)
    requires !event.body.MessageStarted? && Consume(db, event).1 == Ok(true)
    ensures event.runId in db.runs
    ensures var db', proposal := Consume(db, event).0, ProposalAfter(db, event);
            && db' == db.(runs := db'.runs, attempts := db'.attempts, completions := db'.completions,
                          messagesPayload := MessagesAfter(db, event), checkpointPayload := CheckpointAfter(db, event),
                          inbox := db.inbox + {event.eventId}, outbox := db'.outbox)
            && if proposal.Some? then IsConverged(db, event, proposal.value, db')
               else
                 && db'.runs == db.runs && db'.attempts == db.attempts && db'.completions == db.completions
                 && db'.outbox == db.outbox
  {
    var db1 := db.(inbox := db.inbox + {event.eventId});
    hide Handle, Converge, Begins, IsConverged;
    HandledStores(db1, event);
    if ProposalAfter(db1, event).Some? {
      var row := ProposalAfter(db1, event).value;
      FlaggedIs(db1, event);
      ConvergedIs(db1, event, row, Handle(db1, event).value);
      InboxIsIrrelevant(db, event, row, Consume(db, event).0);
    } else {
      NothingToConverge(db1, event);
    }
  }
}
