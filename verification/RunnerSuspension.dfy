/**
 Suspending a run: two transactions with a container removal, and possibly a crash, in between, while
 the Runner goes on with whatever else it does, to this run too.
 */
module RunnerSuspension {
  import opened Wrappers
  import opened Protocol
  import opened Runner
  import opened RunnerLifecycle
  import RunnerOutcomes

  /** One delivery without a crash; the container is gone before the second transaction. */
  function Deliver(db: Db, event: Suspension): Db {
    var (db1, outcome) := SuspendBegin(db, event);
    if outcome == Ok(true) then SuspendFinish(db1, event.runId, event.attemptId) else db1
  }

  predicate IsFor(event: Suspension, r: Uuid, a: Uuid, epoch: nat) {
    event.runId == r && event.attemptId == a && event.leaseEpoch == epoch
  }

  predicate IsSuspendable(state: RunState) {
    state == Running || state == Suspending
  }

  predicate IsRunningAttempt(db: Db, r: Uuid, a: Uuid) {
    r in db.runs && db.runs[r].state == Running && db.runs[r].activeAttemptId == Some(a)
  }

  /** The run waits for input, as it was otherwise and with no active attempt. */
  predicate IsWaiting(run: RunRow, db: Db, r: Uuid) {
    r in db.runs && db.runs[r] == run.(state := WaitingForInput, activeAttemptId := None)
  }

  // ---------------------------------------------------------------------------------------------
  // An attempt starts once

  /** A run that is running or suspending has an active attempt, whose start has committed. */
  ghost predicate HasStarted(db: Db, r: Uuid) {
    r in db.runs && IsSuspendable(db.runs[r].state) ==>
      && db.runs[r].activeAttemptId.Some? && IsAttemptOf(db, db.runs[r].activeAttemptId.value, r)
      && db.attempts[db.runs[r].activeAttemptId.value].started
  }

  lemma StepKeepsStarted(config: Config, db: Db, step: Step, r: Uuid)
    requires Enabled(db, step) && HasStarted(db, r)
    ensures HasStarted(Apply(config, db, step), r)
  {
    hide KeepsAttempt, Apply, Enabled;
    var db' := Apply(config, db, step);
    if r in db.runs && IsSuspendable(db.runs[r].state) {
      StepKeepsAttempt(config, db, step, db.runs[r].activeAttemptId.value);
      KeptAttempt(db, db', db.runs[r].activeAttemptId.value, r);
    }
    if step.ConsumeEvent? || step.LoseAttempt? {
      EventIsNoStart(config, db, step, r);
    } else {
      DirectStepIsStart(config, db, step, r);
    }
  }

  lemma EventIsNoStart(config: Config, db: Db, step: Step, r: Uuid)
    requires step.ConsumeEvent? || step.LoseAttempt?
    ensures var db' := Apply(config, db, step);
            r in db'.runs && IsSuspendable(db'.runs[r].state) ==> r in db.runs && db'.runs[r] == db.runs[r]
  {
    hide Consume, HandleAttemptLoss;
    if step.ConsumeEvent? {
      RunnerOutcomes.ConsumeFrame(db, step.event);
    } else {
      LossFrame(db, step.lost, step.deadlinePassed, config.maxAttempts);
    }
  }

  /** Only the commit of a start makes a run running, and a running one is suspended with its attempt. */
  lemma DirectStepIsStart(config: Config, db: Db, step: Step, r: Uuid)
    requires Enabled(db, step) && !step.ConsumeEvent? && !step.LoseAttempt?
    requires r in db.runs && IsSuspendable(db.runs[r].state) ==> db.runs[r].activeAttemptId.Some?
    ensures var db' := Apply(config, db, step);
            r in db'.runs && IsSuspendable(db'.runs[r].state) ==>
              && r in db.runs && db'.runs[r].activeAttemptId == db.runs[r].activeAttemptId
              && db.runs[r].activeAttemptId.Some?
              && var a := db.runs[r].activeAttemptId.value;
                 IsSuspendable(db.runs[r].state)
                 || (IsAttemptOf(db, a, r) && IsAttemptOf(db', a, r) && db'.attempts[a].started)
  {
    if !step.CommitStart? {
      hide Apply, Enabled;
      NoOtherStarts(config, db, step, r);
    }
  }

  lemma NoOtherStarts(config: Config, db: Db, step: Step, r: Uuid)
    requires Enabled(db, step) && !step.ConsumeEvent? && !step.LoseAttempt? && !step.CommitStart?
    ensures var db' := Apply(config, db, step);
            r in db'.runs && IsSuspendable(db'.runs[r].state) ==>
              && r in db.runs && db'.runs[r].activeAttemptId == db.runs[r].activeAttemptId
              && IsSuspendable(db.runs[r].state)
  {
    hide SetAttemptState, HasCapacity, IsNextNumber, CancelEvents, StartCommitted;
    AttemptStatesKeepRuns();
  }

  lemma {:induction false} RunKeepsStarted(config: Config, db: Db, steps: seq<Step>, r: Uuid)
    requires HasStarted(db, r)
    ensures HasStarted(Run(config, db, steps), r)
    decreases |steps|
  {
    hide HasStarted, Enabled, Apply;
    if steps != [] {
      if Enabled(db, steps[0]) {
        StepKeepsStarted(config, db, steps[0], r);
      }
      RunKeepsStarted(config, if Enabled(db, steps[0]) then Apply(config, db, steps[0]) else db, steps[1..], r);
    }
  }

  // ---------------------------------------------------------------------------------------------
  // What becomes of a run between a suspension and its next delivery

  /** A proposal that is stored as its run's first. */
  predicate IsFirstProposal(db: Db, event: RunEvent) {
    event.body.ResultProposal? && event.runId !in db.completions && Consume(db, event).1 == Ok(true)
  }

  /** A step that takes the run from its attempt, or from waiting for input. */
  predicate Takes(db: Db, step: Step, r: Uuid, a: Uuid)
    requires r in db.runs
  {
    match step
    case BeginCancel(q) => q == r
    case AbortStart(q, b) => q == r && b == a && db.runs[r].activeAttemptId == Some(a)
    case LoseAttempt(lost, _) => lost.runId == r && lost.attemptId == a && db.runs[r].activeAttemptId == Some(a)
    case ConsumeEvent(event) => event.runId == r && IsFirstProposal(db, event)
    case _ => false
  }

  /** No step takes the run, when its turn comes. */
  ghost predicate NeverTaken(config: Config, db: Db, steps: seq<Step>, r: Uuid, a: Uuid)
    decreases |steps|
  {
    steps != [] ==>
      var step := steps[0];
      && (r in db.runs && Enabled(db, step) ==> !Takes(db, step, r, a))
      && NeverTaken(config, if Enabled(db, step) then Apply(config, db, step) else db, steps[1..], r, a)
  }

  ghost predicate IsStarted(run: RunRow, db: Db, r: Uuid, a: Uuid) {
    r in db.runs && IsAttemptOf(db, a, r) && db.attempts[a].started && db.attempts[a].leaseEpoch == run.leaseEpoch
  }

  /** The run is with its attempt still, or waits without one. */
  ghost predicate IsHeld(run: RunRow, db: Db, r: Uuid, a: Uuid) {
    && IsStarted(run, db, r, a)
    && (db.runs[r] == run.(state := Running) || db.runs[r] == run.(state := Suspending) || IsWaiting(run, db, r))
  }

  /** The run is past the attempt, in its epoch or in a later one. */
  ghost predicate IsTaken(run: RunRow, db: Db, r: Uuid, a: Uuid) {
    && IsStarted(run, db, r, a) && db.runs[r].leaseEpoch >= run.leaseEpoch
    && (db.runs[r].leaseEpoch == run.leaseEpoch ==>
          !IsSuspendable(db.runs[r].state) && db.runs[r].state != WaitingForInput)
  }

  lemma StepKeepsIsStarted(config: Config, run: RunRow, db: Db, step: Step, r: Uuid, a: Uuid)
    requires Enabled(db, step) && IsStarted(run, db, r, a)
    ensures r in Apply(config, db, step).runs ==> IsStarted(run, Apply(config, db, step), r, a)
  {
    hide Enabled, Apply, KeepsAttempt;
    StepKeepsAttempt(config, db, step, a);
    KeptAttempt(db, Apply(config, db, step), a, r);
  }

  lemma HandleMovesRun(db: Db, event: RunEvent)
    requires event.runId in db.runs && Handle(db, event).Ok?
    ensures Handle(db, event).value.runs
         == if event.body.ResultProposal? && event.runId !in db.completions && !IsTerminal(db.runs[event.runId].state)
            then db.runs[event.runId := db.runs[event.runId].(state := CompletionReconciling)] else db.runs
  {
    hide Dedup, SameProposal, Elements;
    if event.body.ResultProposal? {
      hide ConfirmMessages, ConfirmCheckpoint, StartMessage;
    } else {
      hide Propose;
    }
  }

  lemma ConvergeMovesRun(db: Db, r: Uuid)
    ensures var c := Converge(db, r);
            || c.runs == db.runs
            || (r in db.runs && db.runs[r].state == CompletionReconciling
                && c.runs == db.runs[r := db.runs[r].(state := Completed, terminalCode := None,
                                                      activeAttemptId := None)])
  {
    hide Flagged, IsReady;
  }

  /** An event moves its own run at most, and only one that is reconciling or that it makes reconcile. */
  lemma ConsumeMovesRun(db: Db, event: RunEvent, r: Uuid)
    requires r in db.runs
    ensures var db' := Consume(db, event).0;
            && r in db'.runs && db'.runs[r].leaseEpoch == db.runs[r].leaseEpoch
            && (db'.runs[r] == db.runs[r] || db'.runs[r].state == CompletionReconciling
                || db'.runs[r].state == Completed)
            && (IsSuspendable(db.runs[r].state) || db.runs[r].state == WaitingForInput ==>
                  (db'.runs[r] != db.runs[r] <==> event.runId == r && IsFirstProposal(db, event)))
  {
    hide Handle, Converge;
    var db1 := db.(inbox := db.inbox + {event.eventId});
    if event.eventId !in db.inbox && event.runId in db.runs && Handle(db1, event).Ok? {
      HandleMovesRun(db1, event);
      ConvergeMovesRun(Handle(db1, event).value, event.runId);
    }
  }

  lemma ActiveIsHeld(config: Config, run: RunRow, db: Db, r: Uuid, a: Uuid)
    requires Inv(config, db) && IsStarted(run, db, r, a) && db.runs[r].leaseEpoch == run.leaseEpoch
    ensures db.runs[r].activeAttemptId.Some? ==> db.runs[r].activeAttemptId == Some(a)
  {
    hide CompletedEvents, ProposalOk;
    assert RunOk(db, config.maxAttempts, r);
  }

  lemma LossMovesRun(db: Db, lost: LossRow, deadlinePassed: bool, maxAttempts: nat, r: Uuid)
    requires r in db.runs
    ensures var db' := HandleAttemptLoss(db, lost, deadlinePassed, maxAttempts);
            && r in db'.runs && db'.runs[r].leaseEpoch == db.runs[r].leaseEpoch
            && if lost.runId == r && db.runs[r].activeAttemptId == Some(lost.attemptId)
               then db'.runs[r].state == Scheduled || db'.runs[r].state == Failed
               else db'.runs[r] == db.runs[r]
  {
    hide LossEvents, RetryAllowed, SetAttemptState;
    AttemptStatesKeepRuns();
  }

  /** A held run is taken by the steps that take it, and held after every other. */
  lemma HeldStep(config: Config, run: RunRow, db: Db, step: Step, r: Uuid, a: Uuid)
    requires Enabled(db, step) && run.activeAttemptId == Some(a) && IsHeld(run, db, r, a)
    ensures var db' := Apply(config, db, step);
            if Takes(db, step, r, a) then IsTaken(run, db', r, a) else IsHeld(run, db', r, a)
  {
    StepKeepsIsStarted(config, run, db, step, r, a);
    if step.ConsumeEvent? {
      hide Consume, IsFirstProposal, IsStarted;
      ConsumeMovesRun(db, step.event, r);
    } else if step.LoseAttempt? {
      hide HandleAttemptLoss, IsStarted;
      LossMovesRun(db, step.lost, step.deadlinePassed, config.maxAttempts, r);
    } else if step.BeginCancel? || step.EndCancel? || step.BeginSuspend? || step.EndSuspend? {
      hide Apply;
      HeldHalfStep(config, run, db, step, r, a);
    } else {
      hide Apply;
      HeldStartStep(config, run, db, step, r, a);
    }
  }

  lemma HeldHalfStep(config: Config, run: RunRow, db: Db, step: Step, r: Uuid, a: Uuid)
    requires run.activeAttemptId == Some(a) && IsHeld(run, db, r, a)
    requires step.BeginCancel? || step.EndCancel? || step.BeginSuspend? || step.EndSuspend?
    ensures var runs := Apply(config, db, step).runs;
            && r in runs && runs[r].leaseEpoch == run.leaseEpoch
            && if step == BeginCancel(r) then runs[r].state == Cancelling
               else runs[r] == run.(state := Running) || runs[r] == run.(state := Suspending)
                    || runs[r] == run.(state := WaitingForInput, activeAttemptId := None)
  {
    AttemptStatesKeepRuns();
    if step.BeginCancel? || step.EndCancel? {
      hide SetAttemptState, CancelEvents, SuspendBegin, SuspendFinish;
    } else {
      hide SetAttemptState, CancelBegin, CancelFinish;
    }
  }

  lemma HeldStartStep(config: Config, run: RunRow, db: Db, step: Step, r: Uuid, a: Uuid)
    requires Enabled(db, step) && run.activeAttemptId == Some(a) && IsHeld(run, db, r, a)
    requires step.AdmitRun? || step.ScheduleRun? || step.CreateContainer? || step.CommitStart? || step.AbortStart?
    ensures var runs := Apply(config, db, step).runs;
            && r in runs && runs[r].leaseEpoch == run.leaseEpoch
            && if Takes(db, step, r, a) then runs[r].state == Failed
               else runs[r] == run.(state := Running) || runs[r] == run.(state := Suspending)
                    || runs[r] == run.(state := WaitingForInput, activeAttemptId := None)
  {
    hide SetAttemptState, HasCapacity, IsNextNumber;
    AttemptStatesKeepRuns();
  }

  /** A taken run is never given back. */
  lemma TakenStep(config: Config, run: RunRow, db: Db, step: Step, r: Uuid, a: Uuid)
    requires Inv(config, db) && Enabled(db, step) && IsTaken(run, db, r, a)
    ensures IsTaken(run, Apply(config, db, step), r, a)
  {
    hide Inv;
    StepKeepsIsStarted(config, run, db, step, r, a);
    if step.ConsumeEvent? {
      hide Consume, IsStarted;
      ConsumeMovesRun(db, step.event, r);
    } else if step.LoseAttempt? {
      hide HandleAttemptLoss, IsStarted;
      LossMovesRun(db, step.lost, step.deadlinePassed, config.maxAttempts, r);
    } else {
      hide Apply;
      if db.runs[r].leaseEpoch == run.leaseEpoch {
        ActiveIsHeld(config, run, db, r, a);
      }
      TakenDirectStep(config, run, db, step, r, a);
    }
  }

  lemma TakenDirectStep(config: Config, run: RunRow, db: Db, step: Step, r: Uuid, a: Uuid)
    requires Enabled(db, step) && IsTaken(run, db, r, a) && !step.ConsumeEvent? && !step.LoseAttempt?
    requires db.runs[r].leaseEpoch == run.leaseEpoch && db.runs[r].activeAttemptId.Some? ==>
               db.runs[r].activeAttemptId == Some(a)
    ensures var runs := Apply(config, db, step).runs;
            && r in runs && runs[r].leaseEpoch >= run.leaseEpoch
            && (runs[r].leaseEpoch == run.leaseEpoch ==>
                  !IsSuspendable(runs[r].state) && runs[r].state != WaitingForInput)
  {
    hide SetAttemptState, HasCapacity, IsNextNumber, CancelEvents;
    AttemptStatesKeepRuns();
  }

  lemma {:induction false} RunTakesIff(config: Config, run: RunRow, db: Db, steps: seq<Step>, r: Uuid, a: Uuid)
    requires Inv(config, db) && run.activeAttemptId == Some(a) && IsHeld(run, db, r, a)
    ensures var found := Run(config, db, steps);
            if NeverTaken(config, db, steps, r, a) then IsHeld(run, found, r, a) else IsTaken(run, found, r, a)
    decreases |steps|
  {
    hide Inv, Enabled, Apply, IsHeld, IsTaken, Takes;
    assert r in db.runs by { HeldIs(run, db, r, a); }
    if steps != [] {
      var step := steps[0];
      if Enabled(db, step) {
        var next := Apply(config, db, step);
        HeldStep(config, run, db, step, r, a);
        StepKeepsInv(config, db, step);
        if Takes(db, step, r, a) {
          RunKeepsTaken(config, run, next, steps[1..], r, a);
        } else {
          RunTakesIff(config, run, next, steps[1..], r, a);
        }
      } else {
        RunTakesIff(config, run, db, steps[1..], r, a);
      }
    }
  }

  lemma HeldIs(run: RunRow, db: Db, r: Uuid, a: Uuid)
    requires IsHeld(run, db, r, a)
    ensures r in db.runs && a in db.attempts
  {
  }

  lemma {:induction false} RunKeepsTaken(config: Config, run: RunRow, db: Db, steps: seq<Step>, r: Uuid, a: Uuid)
    requires Inv(config, db) && IsTaken(run, db, r, a)
    ensures IsTaken(run, Run(config, db, steps), r, a)
    decreases |steps|
  {
    hide Inv, Enabled, Apply, IsTaken;
    if steps != [] {
      if Enabled(db, steps[0]) {
        TakenStep(config, run, db, steps[0], r, a);
        StepKeepsInv(config, db, steps[0]);
      }
      RunKeepsTaken(config, run, if Enabled(db, steps[0]) then Apply(config, db, steps[0]) else db, steps[1..], r, a);
    }
  }

  // ---------------------------------------------------------------------------------------------
  // What becomes of the attempt

  /** Not a stale loss or failure of the attempt, and not the late end of another attempt's suspension. */
  predicate IsUndisturbing(step: Step, r: Uuid, a: Uuid) {
    match step
    case AbortStart(_, b) => b != a
    case LoseAttempt(lost, _) => lost.attemptId != a
    case EndSuspend(q, b) => q == r ==> b == a
    case _ => true
  }

  ghost predicate IsSettled(db: Db, r: Uuid, a: Uuid) {
    r in db.runs && db.runs[r].state == WaitingForInput ==> a in db.attempts && db.attempts[a].state == AttemptExited
  }

  lemma SettledStep(config: Config, run: RunRow, db: Db, step: Step, r: Uuid, a: Uuid)
    requires Inv(config, db) && Enabled(db, step) && run.activeAttemptId == Some(a) && IsHeld(run, db, r, a)
    requires IsSettled(db, r, a) && IsUndisturbing(step, r, a) && !Takes(db, step, r, a)
    ensures IsSettled(Apply(config, db, step), r, a)
  {
    if step.ConsumeEvent? {
      hide Inv, Consume, IsFirstProposal;
      ConsumeMovesRun(db, step.event, r);
      ConsumeKeepsAttempt(db, step.event, a);
    } else if step.LoseAttempt? {
      hide Inv, HandleAttemptLoss;
      LossMovesRun(db, step.lost, step.deadlinePassed, config.maxAttempts, r);
      LossKeepsAttempt(db, step.lost, step.deadlinePassed, config.maxAttempts, a);
    } else if (step.BeginCancel? && step.r != r) || (step.BeginSuspend? && step.suspension.runId != r) {
      hide Apply;
      OtherIsStopped(config, db, step, r, a);
    } else {
      hide Inv, Apply;
      SettledDirectStep(config, run, db, step, r, a);
    }
  }

  /** A cancel or a suspension of another run stops an attempt of that run. */
  lemma OtherIsStopped(config: Config, db: Db, step: Step, r: Uuid, a: Uuid)
    requires Inv(config, db) && r in db.runs && IsAttemptOf(db, a, r)
    requires (step.BeginCancel? && step.r != r) || (step.BeginSuspend? && step.suspension.runId != r)
    ensures var db' := Apply(config, db, step);
            && r in db'.runs && db'.runs[r] == db.runs[r]
            && a in db'.attempts && db'.attempts[a].state == db.attempts[a].state
  {
    hide CompletedEvents, AttemptsOk, ProposalOk;
    var q := if step.BeginCancel? then step.r else step.suspension.runId;
    if q in db.runs {
      assert RunOk(db, config.maxAttempts, q);
    }
  }

  lemma SettledDirectStep(config: Config, run: RunRow, db: Db, step: Step, r: Uuid, a: Uuid)
    requires Enabled(db, step) && run.activeAttemptId == Some(a) && IsHeld(run, db, r, a)
    requires IsSettled(db, r, a) && IsUndisturbing(step, r, a) && step != BeginCancel(r)
    requires !step.ConsumeEvent? && !step.LoseAttempt? && !step.BeginCancel?
    requires step.BeginSuspend? ==> step.suspension.runId == r
    ensures IsSettled(Apply(config, db, step), r, a)
  {
    if step.EndCancel? || step.BeginSuspend? || step.EndSuspend? {
      hide Apply;
      SettledHalfStep(config, run, db, step, r, a);
    } else {
      hide HasCapacity, IsNextNumber;
    }
  }

  lemma SettledHalfStep(config: Config, run: RunRow, db: Db, step: Step, r: Uuid, a: Uuid)
    requires Enabled(db, step) && run.activeAttemptId == Some(a) && IsHeld(run, db, r, a)
    requires IsSettled(db, r, a) && IsUndisturbing(step, r, a)
    requires step.EndCancel? || (step.BeginSuspend? && step.suspension.runId == r) || step.EndSuspend?
    ensures IsSettled(Apply(config, db, step), r, a)
  {
    if step.EndCancel? {
      hide Apply;
      SettledEndCancel(config, run, db, step, r, a);
    } else {
      hide CancelEvents;
    }
  }

  lemma SettledEndCancel(config: Config, run: RunRow, db: Db, step: Step, r: Uuid, a: Uuid)
    requires step.EndCancel? && IsHeld(run, db, r, a) && IsSettled(db, r, a)
    ensures IsSettled(Apply(config, db, step), r, a)
  {
    hide CancelEvents;
    assert db.runs[r].state != Cancelling;
  }

  lemma {:induction false} RunSettles(config: Config, run: RunRow, db: Db, steps: seq<Step>, r: Uuid, a: Uuid)
    requires Inv(config, db) && run.activeAttemptId == Some(a) && IsHeld(run, db, r, a) && IsSettled(db, r, a)
    requires NeverTaken(config, db, steps, r, a) && forall i | 0 <= i < |steps| :: IsUndisturbing(steps[i], r, a)
    ensures IsSettled(Run(config, db, steps), r, a)
    decreases |steps|
  {
    hide Inv, Enabled, Apply, IsHeld, IsTaken, IsSettled, Takes, IsUndisturbing;
    assert r in db.runs by { HeldIs(run, db, r, a); }
    if steps != [] {
      var step := steps[0];
      if Enabled(db, step) {
        HeldStep(config, run, db, step, r, a);
        SettledStep(config, run, db, step, r, a);
        StepKeepsInv(config, db, step);
        RunSettles(config, run, Apply(config, db, step), steps[1..], r, a);
      } else {
        RunSettles(config, run, db, steps[1..], r, a);
      }
    }
  }

  // ---------------------------------------------------------------------------------------------
  // The theorems

  lemma DeliveryEnds(run: RunRow, found: Db, event: Suspension)
    requires run.activeAttemptId == Some(event.attemptId) && run.leaseEpoch == event.leaseEpoch
    requires IsHeld(run, found, event.runId, event.attemptId)
    ensures var r, a := event.runId, event.attemptId; var done := Deliver(found, event);
            && done.runs == found.runs[r := run.(state := WaitingForInput, activeAttemptId := None)]
            && a in done.attempts && done.outbox == found.outbox
            && (done.attempts[a].state == AttemptExited
                <==> found.runs[r].state != WaitingForInput || found.attempts[a].state == AttemptExited)
  {
    if IsSuspendable(found.runs[event.runId].state) {
      SuspendableIsEnded(run, found, event);
    }
  }

  lemma SuspendableIsEnded(run: RunRow, found: Db, event: Suspension)
    requires run.activeAttemptId == Some(event.attemptId) && run.leaseEpoch == event.leaseEpoch
    requires IsStarted(run, found, event.runId, event.attemptId) && IsSuspendable(found.runs[event.runId].state)
    requires found.runs[event.runId] == run.(state := found.runs[event.runId].state)
    ensures var r, a := event.runId, event.attemptId; var done := Deliver(found, event);
            && done.runs == found.runs[r := run.(state := WaitingForInput, activeAttemptId := None)]
            && a in done.attempts && done.attempts[a].state == AttemptExited && done.outbox == found.outbox
  {
    var begun := SuspendBegin(found, event);
    assert begun.1 == Ok(true) && begun.0.runs[event.runId] == run.(state := Suspending);
    assert begun.0.runs == found.runs[event.runId := run.(state := Suspending)];
  }

  lemma DeliveryIsStale(run: RunRow, found: Db, event: Suspension)
    requires run.leaseEpoch == event.leaseEpoch && IsTaken(run, found, event.runId, event.attemptId)
    ensures Deliver(found, event) == found && SuspendBegin(found, event).1 != Ok(true)
    ensures !IsWaiting(run, found, event.runId)
  {
  }

  lemma EmptyHasStarted(r: Uuid)
    ensures HasStarted(EMPTY, r)
  {
  }

  lemma SettledExits(found: Db, r: Uuid, a: Uuid)
    requires IsSettled(found, r, a) && r in found.runs && a in found.attempts
    ensures found.runs[r].state != WaitingForInput || found.attempts[a].state == AttemptExited
  {
  }

  lemma RunningIsHeld(config: Config, db: Db, r: Uuid, a: Uuid)
    requires Inv(config, db) && HasStarted(db, r) && IsRunningAttempt(db, r, a)
    ensures IsHeld(db.runs[r], db, r, a) && IsSettled(db, r, a)
  {
    assert RunOk(db, config.maxAttempts, r);
  }

  /**
   From the moment an attempt is running, whatever happens, crashes between the two transactions and
   redeliveries included: the next full delivery of the attempt's suspension leaves the run waiting
   for input with no active attempt, and nothing else changed about it, if and only if no cancel, no
   loss and no failure of the attempt and no first proposal has taken the run; otherwise it changes
   nothing. And the attempt has exited then, unless it was marked otherwise while the run was waiting,
   for which there is a stale loss or failure of it or the late end of another attempt's suspension.
   */
  lemma SuspensionSurvivesCrashes(
    config: Config, before: seq<Step>, after: seq<Step>, r: Uuid, a: Uuid, event: Suspension)
    requires IsRunningAttempt(Run(config, EMPTY, before), r, a)
    requires IsFor(event, r, a, Run(config, EMPTY, before).runs[r].leaseEpoch)
    ensures var db := Run(config, EMPTY, before); var found := Run(config, db, after);
            var done := Deliver(found, event);
            && (IsWaiting(db.runs[r], done, r) <==> NeverTaken(config, db, after, r, a))
            && if !NeverTaken(config, db, after, r, a) then done == found
               else
                 && done.runs == found.runs[r := db.runs[r].(state := WaitingForInput, activeAttemptId := None)]
                 && r in found.runs && a in found.attempts && a in done.attempts && done.outbox == found.outbox
                 && (done.attempts[a].state == AttemptExited
                     <==> found.runs[r].state != WaitingForInput || found.attempts[a].state == AttemptExited)
                 && ((forall i | 0 <= i < |after| :: IsUndisturbing(after[i], r, a)) ==>
                       done.attempts[a].state == AttemptExited)
  {
    hide Run, Inv, HasStarted, IsHeld, IsTaken, IsSettled, Deliver, NeverTaken, IsUndisturbing;
    var db := Run(config, EMPTY, before);
    var run, found := db.runs[r], Run(config, db, after);
    EmptyInv(config);
    RunKeepsInv(config, EMPTY, before);
    EmptyHasStarted(r);
    RunKeepsStarted(config, EMPTY, before, r);
    RunningIsHeld(config, db, r, a);
    RunTakesIff(config, run, db, after, r, a);
    if NeverTaken(config, db, after, r, a) {
      DeliveryEnds(run, found, event);
      HeldIs(run, found, r, a);
      if forall i | 0 <= i < |after| :: IsUndisturbing(after[i], r, a) {
        RunSettles(config, run, db, after, r, a);
        SettledExits(found, r, a);
      }
    } else {
      DeliveryIsStale(run, found, event);
    }
  }

  // ---------------------------------------------------------------------------------------------
  // Runs in which a delivery comes too late

  const SUSPENSION := Suspension(80, 1, 10, 1)
  const PROPOSAL := RunEvent(90, 1, RunnerOutcomes.FIRST_USER, ResultProposal(10, 1, [5], None, [Messages]))

  /** A run whose one attempt is running, and whose suspension has begun. */
  lemma BegunSuspension(rest: seq<Step>) returns (steps: seq<Step>, db: Db)
    ensures Run(RunnerOutcomes.ONE_RUN, EMPTY, steps + rest) == Run(RunnerOutcomes.ONE_RUN, db, rest)
    ensures db.runs == map[1 := RunRow(RunnerOutcomes.FIRST_USER, Suspending, Some(10), 1, None)]
    ensures db.attempts == map[10 := RunnerOutcomes.FIRST_ATTEMPT.(state := AttemptStopping, started := true)]
    ensures db.completions == map[] && db.messagesPayload == map[] && db.checkpointPayload == map[]
    ensures db.inbox == {SUSPENSION.eventId}
  {
    var config := RunnerOutcomes.ONE_RUN;
    var s1, s2 := CommitStart(1, 10), BeginSuspend(SUSPENSION);
    var start, d := RunnerOutcomes.FirstAttempt([s1] + ([s2] + rest));
    steps := start + [s1, s2];
    assert steps + rest == start + ([s1] + ([s2] + rest));
    RunnerOutcomes.TakeStep(config, d, s1, [s2] + rest);
    var d1 := Apply(config, d, s1);
    RunnerOutcomes.TakeStep(config, d1, s2, rest);
    db := Apply(config, d1, s2);
  }

  lemma ProposalReconciles(db: Db)
    requires db.runs == map[1 := RunRow(RunnerOutcomes.FIRST_USER, Suspending, Some(10), 1, None)]
    requires db.completions == map[] && db.messagesPayload == map[] && db.checkpointPayload == map[]
    requires db.inbox == {SUSPENSION.eventId}
    ensures var db' := Consume(db, PROPOSAL).0;
            && db'.runs == map[1 := RunRow(RunnerOutcomes.FIRST_USER, CompletionReconciling, Some(10), 1, None)]
            && db'.attempts == db.attempts
  {
    DedupMembers([Messages]);
  }

  /**
   A proposal of the attempt that is being suspended takes its run: the suspension has begun, but no
   redelivery of it finishes it any more.
   */
  lemma ProposalEndsSuspension() returns (steps: seq<Step>)
    ensures var found := Run(RunnerOutcomes.ONE_RUN, EMPTY, steps);
            && 1 in found.runs && found.runs[1].state == CompletionReconciling
            && 10 in found.attempts && found.attempts[10].state == AttemptStopping
            && Deliver(found, SUSPENSION) == found
            && SuspendBegin(found, SUSPENSION).1 == Err("suspension_stale")
  {
    hide Consume;
    var step := ConsumeEvent(PROPOSAL);
    var begun, db := BegunSuspension([step] + []);
    steps := begun + ([step] + []);
    ProposalReconciles(db);
    RunnerOutcomes.TakeStep(RunnerOutcomes.ONE_RUN, db, step, []);
  }

  /**
   A reconciliation that has read the attempt's row while it was running finds its container gone and
   marks the attempt failed, although its suspension has ended; no redelivery changes that.
   */
  lemma StaleLossMarksAttempt() returns (steps: seq<Step>)
    ensures var found := Run(RunnerOutcomes.ONE_RUN, EMPTY, steps);
            && 1 in found.runs && found.runs[1].state == WaitingForInput
            && 10 in found.attempts && found.attempts[10].state == AttemptFailed
            && Deliver(found, SUSPENSION) == found
  {
    var s1, s2 := EndSuspend(1, 10), LoseAttempt(LossRow(1, 10, 1, false, None), false);
    var begun, db := BegunSuspension([s1] + ([s2] + []));
    steps := begun + ([s1] + ([s2] + []));
    RunnerOutcomes.TakeStep(RunnerOutcomes.ONE_RUN, db, s1, [s2] + []);
    var d1 := Apply(RunnerOutcomes.ONE_RUN, db, s1);
    RunnerOutcomes.TakeStep(RunnerOutcomes.ONE_RUN, d1, s2, []);
  }

  /** A suspension of a stale attempt or epoch changes nothing. */
  lemma StaleSuspensionIsHarmless(db: Db, event: Suspension)
    requires event.runId in db.runs
    requires db.runs[event.runId].activeAttemptId != Some(event.attemptId)
             || db.runs[event.runId].leaseEpoch != event.leaseEpoch
    ensures Deliver(db, event) == db && SuspendBegin(db, event).1 != Ok(true)
  {
  }
}
