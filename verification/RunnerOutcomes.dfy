/** What holds of a run's outcome, its attempts and its cancellation over every interleaving. */
module RunnerOutcomes {
  import opened Wrappers
  import opened Protocol
  import opened Runner
  import opened RunnerLifecycle

  // ---------------------------------------------------------------------------------------------
  // Completion

  /** The run's last attempt proposed the result, and every part of it was confirmed as proposed. */
  ghost predicate CompletionEarned(db: Db, r: Uuid)
    requires r in db.runs
  {
    && r in db.completions
    && var row := db.completions[r];
       && IsAttemptOf(db, row.attemptId, r) && db.attempts[row.attemptId].leaseEpoch == row.leaseEpoch
       && row.leaseEpoch == db.runs[r].leaseEpoch
       && (forall a | IsAttemptOf(db, a, r) :: db.attempts[a].leaseEpoch <= row.leaseEpoch)
       && (row.finalMessageIds != [] ==>
             r in db.messagesPayload && Elements(db.messagesPayload[r]) == Elements(row.finalMessageIds))
       && (row.finalCheckpointId.Some? ==>
             r in db.checkpointPayload && row.finalCheckpointId == Some(db.checkpointPayload[r]))
       && CompletedEvents(db.outbox, r) == [CompletionEvent(r, row)]
  }

  /**
   A run is completed only through a proposal of its last attempt with every required confirmation
   received for exactly the proposed ids, and the outbox holds one run.completed event, for that
   proposal, if and only if the run is completed.
   */
  lemma CompletedIffAnnounced(config: Config, steps: seq<Step>, r: Uuid)
    requires r in Run(config, EMPTY, steps).runs
    ensures var db := Run(config, EMPTY, steps);
            && (db.runs[r].state == Completed ==> CompletionEarned(db, r))
            && (db.runs[r].state != Completed ==> CompletedEvents(db.outbox, r) == [])
  {
    hide Run, CompletedEvents;
    EmptyInv(config);
    RunKeepsInv(config, EMPTY, steps);
    var db := Run(config, EMPTY, steps);
    assert RunOk(db, config.maxAttempts, r);
    if db.runs[r].state == Completed {
      assert ProposalOk(db, r);
      forall a | IsAttemptOf(db, a, r) ensures db.attempts[a].leaseEpoch <= db.runs[r].leaseEpoch {
        assert AttemptOk(db, a);
      }
    }
  }

  // ---------------------------------------------------------------------------------------------
  // Terminal runs and attempts

  lemma DirectStepKeepsTerminal(config: Config, db: Db, step: Step, r: Uuid)
    requires r in db.runs && IsTerminal(db.runs[r].state) && db.runs[r].activeAttemptId == None
    requires Enabled(db, step) && !step.ConsumeEvent? && !step.LoseAttempt?
    ensures var db' := Apply(config, db, step); r in db'.runs && db'.runs[r] == db.runs[r]
  {
    hide HasCapacity, IsNextNumber, CancelEvents, SetAttemptState;
    AttemptStatesKeepRuns();
  }

  lemma StepKeepsTerminal(config: Config, db: Db, step: Step, r: Uuid)
    requires Inv(config, db) && Enabled(db, step) && r in db.runs && IsTerminal(db.runs[r].state)
    ensures var db' := Apply(config, db, step); r in db'.runs && db'.runs[r] == db.runs[r]
  {
    hide CompletedEvents, AttemptsOk, ProposalOk, Consume, HandleAttemptLoss, SameAttempts, IsReady;
    assert RunOk(db, config.maxAttempts, r);
    if step.ConsumeEvent? {
      ConsumeFrame(db, step.event);
    } else if step.LoseAttempt? {
      LossFrame(db, step.lost, step.deadlinePassed, config.maxAttempts);
    } else {
      hide Apply, Enabled;
      DirectStepKeepsTerminal(config, db, step, r);
    }
  }

  /** Handling an event announces nothing, and moves its run at most to reconciling. */
  lemma HandleFrame(db: Db, event: RunEvent)
    requires event.runId in db.runs && Handle(db, event).Ok?
    ensures var h := Handle(db, event).value; var r := event.runId;
            && h.outbox == db.outbox && r in h.runs && h.runs == db.runs[r := h.runs[r]]
            && h.runs[r].binding == db.runs[r].binding
            && (h.runs[r] != db.runs[r] ==> !IsTerminal(db.runs[r].state) && h.runs[r].state == CompletionReconciling)
  {
    hide Dedup, SameProposal, Elements;
  }

  lemma ConvergeFrame(db: Db, r: Uuid)
    requires r in db.runs
    ensures var c := Converge(db, r);
            && r in c.runs && c.runs == db.runs[r := c.runs[r]] && c.runs[r].binding == db.runs[r].binding
            && (c.runs[r] != db.runs[r] ==> !IsTerminal(db.runs[r].state) && c.runs[r].state == Completed)
            && (c.outbox == db.outbox
               || (r in c.completions && c.outbox == db.outbox + [CompletionEvent(r, c.completions[r])]))
  {
    hide Flagged, IsReady;
  }

  lemma ConsumeFrame(db: Db, event: RunEvent)
    ensures var db' := Consume(db, event).0; var r := event.runId;
            && db'.runs.Keys == db.runs.Keys && (forall q | q in db.runs :: db'.runs[q].binding == db.runs[q].binding)
            && (forall q | q in db.runs :: db'.runs[q] == db.runs[q]
                  || (q == r && !IsTerminal(db.runs[q].state)
                      && (db'.runs[q].state == CompletionReconciling || db'.runs[q].state == Completed)))
            && (db'.outbox == db.outbox
               || (r in db'.completions && db'.outbox == db.outbox + [CompletionEvent(r, db'.completions[r])]))
  {
    hide Handle, Converge;
    var r := event.runId;
    if event.eventId !in db.inbox && r in db.runs {
      var db1 := db.(inbox := db.inbox + {event.eventId});
      if Handle(db1, event).Ok? {
        HandleFrame(db1, event);
        ConvergeFrame(Handle(db1, event).value, r);
      }
    }
  }

  /** completed, failed and cancelled are never left, and keep their terminal code. */
  lemma {:induction false} TerminalForever(config: Config, db: Db, steps: seq<Step>, r: Uuid)
    requires Inv(config, db) && r in db.runs && IsTerminal(db.runs[r].state)
    ensures var db' := Run(config, db, steps); r in db'.runs && db'.runs[r] == db.runs[r]
    decreases |steps|
  {
    hide Inv, Enabled, Apply;
    if steps != [] {
      if Enabled(db, steps[0]) {
        StepKeepsInv(config, db, steps[0]);
        StepKeepsTerminal(config, db, steps[0], r);
        TerminalForever(config, Apply(config, db, steps[0]), steps[1..], r);
      } else {
        TerminalForever(config, db, steps[1..], r);
      }
    }
  }

  lemma TerminalIsFinal(config: Config, before: seq<Step>, after: seq<Step>, r: Uuid)
    requires r in Run(config, EMPTY, before).runs && IsTerminal(Run(config, EMPTY, before).runs[r].state)
    ensures var db := Run(config, EMPTY, before); var db' := Run(config, db, after);
            r in db'.runs && db'.runs[r] == db.runs[r] && CodeOk(db.runs[r])
  {
    hide Run, Inv;
    EmptyInv(config);
    RunKeepsInv(config, EMPTY, before);
    var db := Run(config, EMPTY, before);
    TerminalForever(config, db, after, r);
    assert CodeOk(db.runs[r]) by { RunHasCode(config, db, r); }
  }

  lemma RunHasCode(config: Config, db: Db, r: Uuid)
    requires Inv(config, db) && r in db.runs
    ensures CodeOk(db.runs[r])
  {
    assert RunOk(db, config.maxAttempts, r);
  }

  function AttemptsOf(db: Db, r: Uuid): set<Uuid> {
    set a | a in db.attempts && db.attempts[a].runId == r
  }

  function AttemptsUpTo(db: Db, r: Uuid, epoch: nat): set<Uuid> {
    set a | a in db.attempts && db.attempts[a].runId == r && db.attempts[a].leaseEpoch <= epoch
  }

  lemma NextAttempt(db: Db, r: Uuid, epoch: nat) returns (a: Uuid)
    requires AttemptsOk(db) && r in db.runs && 1 <= epoch <= db.runs[r].leaseEpoch
    ensures a !in AttemptsUpTo(db, r, epoch - 1) && AttemptsUpTo(db, r, epoch) == AttemptsUpTo(db, r, epoch - 1) + {a}
  {
    assert HasEpoch(db, r, epoch);
    a :| IsAttemptOf(db, a, r) && db.attempts[a].leaseEpoch == epoch;
    assert AttemptsUpTo(db, r, epoch) == AttemptsUpTo(db, r, epoch - 1) + {a};
  }

  lemma {:induction false} OneAttemptPerEpoch(db: Db, r: Uuid, epoch: nat)
    requires AttemptsOk(db) && r in db.runs && epoch <= db.runs[r].leaseEpoch
    ensures |AttemptsUpTo(db, r, epoch)| == epoch
    decreases epoch
  {
    if epoch == 0 {
      forall a | a in db.attempts ensures db.attempts[a].leaseEpoch >= 1 {
        assert AttemptOk(db, a);
      }
      assert AttemptsUpTo(db, r, 0) == {};
    } else {
      OneAttemptPerEpoch(db, r, epoch - 1);
      var a := NextAttempt(db, r, epoch);
      hide AttemptsOk, AttemptsUpTo;
      assert a !in AttemptsUpTo(db, r, epoch - 1);
    }
  }

  /**
   A run's attempts are numbered 1..lease_epoch, one for each epoch; there are at most
   max(1, max_attempts) of them; and a run has an active attempt only while it is being started,
   run, suspended, reconciled or cancelled, and then it is the newest one.
   */
  lemma AttemptsAreEpochs(config: Config, steps: seq<Step>, r: Uuid)
    requires r in Run(config, EMPTY, steps).runs
    ensures var db := Run(config, EMPTY, steps); var run := db.runs[r];
            && |AttemptsOf(db, r)| == run.leaseEpoch <= Max(1, config.maxAttempts)
            && (forall a | IsAttemptOf(db, a, r) ::
                  db.attempts[a].attemptNumber == db.attempts[a].leaseEpoch
                  && 1 <= db.attempts[a].leaseEpoch <= run.leaseEpoch)
            && (forall a, b | IsAttemptOf(db, a, r) && IsAttemptOf(db, b, r) ::
                  db.attempts[a].leaseEpoch == db.attempts[b].leaseEpoch ==> a == b)
            && (run.activeAttemptId.Some? ==>
                  && MayHaveAttempt(run.state) && IsAttemptOf(db, run.activeAttemptId.value, r)
                  && db.attempts[run.activeAttemptId.value].leaseEpoch == run.leaseEpoch)
  {
    hide Run, CompletedEvents;
    EmptyInv(config);
    RunKeepsInv(config, EMPTY, steps);
    var db := Run(config, EMPTY, steps);
    assert RunOk(db, config.maxAttempts, r);
    OneAttemptPerEpoch(db, r, db.runs[r].leaseEpoch);
    forall a | IsAttemptOf(db, a, r)
      ensures db.attempts[a].attemptNumber == db.attempts[a].leaseEpoch
               && 1 <= db.attempts[a].leaseEpoch <= db.runs[r].leaseEpoch
    {
      assert AttemptOk(db, a);
    }
    assert AttemptsOf(db, r) == AttemptsUpTo(db, r, db.runs[r].leaseEpoch);
  }

  // ---------------------------------------------------------------------------------------------
  // Cancellation announces more than it does

  /** The run.cancelled events of a run. */
  function CancelledEvents(outbox: seq<OutEvent>, r: Uuid): nat {
    if outbox == [] then 0
    else
      CancelledEvents(outbox[..|outbox| - 1], r) +
      if outbox[|outbox| - 1].RunCancelled? && outbox[|outbox| - 1].runId == r then 1 else 0
  }

  /** One run.cancelled event for a cancelled run, none for any other. */
  predicate CancelTold(db: Db, r: Uuid) {
    CancelledEvents(db.outbox, r) == if r in db.runs && db.runs[r].state == Cancelled then 1 else 0
  }

  lemma {:induction false} CancelledAppend(outbox: seq<OutEvent>, more: seq<OutEvent>, r: Uuid)
    ensures CancelledEvents(outbox + more, r) == CancelledEvents(outbox, r) + CancelledEvents(more, r)
    decreases |more|
  {
    if more == [] {
      assert outbox + more == outbox;
    } else {
      assert (outbox + more)[..|outbox + more| - 1] == outbox + more[..|more| - 1];
      CancelledAppend(outbox, more[..|more| - 1], r);
    }
  }

  /** How many more run.cancelled events there are than the run's state accounts for. */
  function Excess(db: Db, r: Uuid): int {
    CancelledEvents(db.outbox, r) - if r in db.runs && db.runs[r].state == Cancelled then 1 else 0
  }

  /** The second transaction of cancel finds the run still cancelling. */
  predicate EndsInTime(db: Db, step: Step, r: Uuid) {
    step.EndCancel? && step.ticket.runId == r ==> r in db.runs && db.runs[r].state == Cancelling
  }

  lemma CancelEventsCount(ticket: CancelTicket)
    ensures CancelledEvents(CancelEvents(ticket), ticket.runId) == 1
  {
    var events := CancelEvents(ticket);
    var cancelled := events[|events| - 1];
    if ticket.attempt.Some? && ticket.attempt.value.1.activeMessageId.Some? {
      var interruption := events[0];
      assert events == [interruption, cancelled];
      assert events[..1] == [interruption] && [interruption][..0] == [];
      assert CancelledEvents([interruption], ticket.runId) == 0;
    } else {
      assert events == [cancelled] && events[..0] == [];
    }
  }

  lemma CancelExcess(db: Db, ticket: CancelTicket)
    ensures Excess(CancelFinish(db, ticket), ticket.runId)
         == Excess(db, ticket.runId) + if EndsInTime(db, EndCancel(ticket), ticket.runId) then 0 else 1
  {
    CancelEventsCount(ticket);
    CancelledAppend(db.outbox, CancelEvents(ticket), ticket.runId);
    hide CancelledEvents, CancelEvents;
  }

  /**
   The second transaction of cancel tells the truth exactly when it finds the run still cancelling;
   otherwise a loss, a late start or a completed cancel has overtaken it.
   */
  lemma CancelTruthfulIff(db: Db, ticket: CancelTicket)
    requires ticket.runId in db.runs && CancelTold(db, ticket.runId)
    ensures CancelTold(CancelFinish(db, ticket), ticket.runId) <==> db.runs[ticket.runId].state == Cancelling
  {
    CancelExcess(db, ticket);
    hide CancelledEvents, CancelFinish;
  }

  /** Every other step keeps announcement and state together. */
  lemma OthersKeepExcess(config: Config, db: Db, step: Step, r: Uuid)
    requires Inv(config, db) && Enabled(db, step)
    requires step.EndCancel? ==> step.ticket.runId != r
    ensures Excess(Apply(config, db, step), r) == Excess(db, r)
  {
    hide Inv, Enabled, Apply, CancelledEvents;
    if r in db.runs && IsTerminal(db.runs[r].state) {
      StepKeepsTerminal(config, db, step, r);
    }
    StepOutbox(config, db, step);
    var db' := Apply(config, db, step);
    var more := db'.outbox[|db.outbox|..];
    assert db'.outbox == db.outbox + more;
    CancelledAppend(db.outbox, more, r);
    NotCancelled(more, r);
    NotCancelledBefore(config, db, step, r);
  }

  lemma NotCancelled(events: seq<OutEvent>, r: Uuid)
    requires forall i | 0 <= i < |events| :: events[i].RunCancelled? ==> events[i].runId != r
    ensures CancelledEvents(events, r) == 0
  {
  }

  /** What a step adds to the outbox cancels no run but the one whose cancellation it ends. */
  lemma StepOutbox(config: Config, db: Db, step: Step)
    ensures var db' := Apply(config, db, step);
            && db.outbox <= db'.outbox
            && forall i | |db.outbox| <= i < |db'.outbox| && db'.outbox[i].RunCancelled? ::
                 step.EndCancel? && step.ticket.runId == db'.outbox[i].runId
  {
    hide HasCapacity, Consume, HandleAttemptLoss;
    if step.ConsumeEvent? {
      ConsumeFrame(db, step.event);
    } else if step.LoseAttempt? {
      LossFrame(db, step.lost, step.deadlinePassed, config.maxAttempts);
    }
  }

  lemma NotCancelledBefore(config: Config, db: Db, step: Step, r: Uuid)
    requires step.EndCancel? ==> step.ticket.runId != r
    ensures var db' := Apply(config, db, step);
            r in db'.runs && db'.runs[r].state == Cancelled ==> r in db.runs && db.runs[r].state == Cancelled
  {
    hide HasCapacity, Consume, HandleAttemptLoss, CancelEvents, SetAttemptState;
    AttemptStatesKeepRuns();
    if step.ConsumeEvent? {
      ConsumeFrame(db, step.event);
    } else if step.LoseAttempt? {
      LossFrame(db, step.lost, step.deadlinePassed, config.maxAttempts);
    }
  }

  /** Whether every cancellation of r that ends in these steps finds r still cancelling. */
  ghost predicate CancelsInTime(config: Config, db: Db, steps: seq<Step>, r: Uuid)
    decreases |steps|
  {
    steps != [] ==>
      var step := steps[0];
      && (Enabled(db, step) ==> EndsInTime(db, step, r))
      && CancelsInTime(config, if Enabled(db, step) then Apply(config, db, step) else db, steps[1..], r)
  }

  lemma StepExcess(config: Config, db: Db, step: Step, r: Uuid)
    requires Inv(config, db) && Enabled(db, step)
    ensures Excess(Apply(config, db, step), r) == Excess(db, r) + if EndsInTime(db, step, r) then 0 else 1
  {
    hide Inv, Enabled, Apply, Excess;
    if step.EndCancel? && step.ticket.runId == r {
      assert Apply(config, db, step) == CancelFinish(db, step.ticket) by { EndCancelIs(config, db, step.ticket); }
      CancelExcess(db, step.ticket);
    } else {
      OthersKeepExcess(config, db, step, r);
    }
  }

  lemma {:induction false} RunExcess(config: Config, db: Db, steps: seq<Step>, r: Uuid)
    requires Inv(config, db)
    ensures Excess(Run(config, db, steps), r) >= Excess(db, r)
    ensures Excess(Run(config, db, steps), r) == Excess(db, r) <==> CancelsInTime(config, db, steps, r)
    decreases |steps|
  {
    hide Inv, Enabled, Apply, Excess, EndsInTime;
    if steps != [] {
      if Enabled(db, steps[0]) {
        StepKeepsInv(config, db, steps[0]);
        StepExcess(config, db, steps[0], r);
        RunExcess(config, Apply(config, db, steps[0]), steps[1..], r);
      } else {
        RunExcess(config, db, steps[1..], r);
      }
    }
  }

  lemma EndCancelIs(config: Config, db: Db, ticket: CancelTicket)
    ensures Apply(config, db, EndCancel(ticket)) == CancelFinish(db, ticket)
  {
  }

  /**
   The outbox tells a run's one outcome, with one run.completed event if it is completed and one
   run.cancelled event if it is cancelled, if and only if every cancellation has ended in time.
   */
  lemma OneTerminalOutcome(config: Config, steps: seq<Step>, r: Uuid)
    requires r in Run(config, EMPTY, steps).runs
    ensures var db := Run(config, EMPTY, steps); var state := db.runs[r].state;
            && |CompletedEvents(db.outbox, r)| == (if state == Completed then 1 else 0)
            && (CancelledEvents(db.outbox, r) == (if state == Cancelled then 1 else 0)
                <==> CancelsInTime(config, EMPTY, steps, r))
  {
    EmptyExcess(r);
    hide Run, Inv, CancelsInTime, CompletedEvents, CancelledEvents;
    EmptyInv(config);
    RunExcess(config, EMPTY, steps, r);
    CompletedIffAnnounced(config, steps, r);
  }

  lemma EmptyExcess(r: Uuid)
    ensures Excess(EMPTY, r) == 0
  {
  }

  lemma TakeStep(config: Config, db: Db, step: Step, rest: seq<Step>)
    requires Enabled(db, step)
    ensures Run(config, db, [step] + rest) == Run(config, Apply(config, db, step), rest)
  {
    assert ([step] + rest)[1..] == rest;
  }

  const FIRST_USER := Binding(7, 70, 700, 7000)
  const SECOND_USER := Binding(8, 80, 800, 8000)

  const ONE_RUN := Config(Limits(1, 1), 2)

  const FIRST_ATTEMPT := AttemptRow(1, 1, 1, AttemptStarting, false, None, false, None)

  lemma FirstAttempt(rest: seq<Step>) returns (steps: seq<Step>, db: Db)
    ensures Run(ONE_RUN, EMPTY, steps + rest) == Run(ONE_RUN, db, rest)
    ensures db == Db(map[1 := RunRow(FIRST_USER, Starting, Some(10), 1, None)], map[10 := FIRST_ATTEMPT],
                     map[], map[], map[], {}, [ScheduleCommand(1)])
  {
    var s1, s2 := AdmitRun(1, FIRST_USER), ScheduleRun(1, 10, 1);
    steps := [s1, s2];
    assert steps + rest == [s1] + ([s2] + rest);
    var d1 := Db(map[1 := RunRow(FIRST_USER, Accepted, None, 0, None)], map[], map[], map[], map[], {},
        [ScheduleCommand(1)]);
    TakeStep(ONE_RUN, EMPTY, s1, [s2] + rest);
    assert Apply(ONE_RUN, EMPTY, s1) == d1;
    assert GlobalActive(d1) == {} && UserActive(d1, FIRST_USER.userId) == {};
    TakeStep(ONE_RUN, d1, s2, rest);
    db := Apply(ONE_RUN, d1, s2);
  }

  /** A lost container is rescheduled between the two halves of a cancel. */
  lemma OvertakenCancel(rest: seq<Step>) returns (steps: seq<Step>, db: Db)
    ensures Run(ONE_RUN, EMPTY, steps + rest) == Run(ONE_RUN, db, rest)
    ensures db == Db(map[1 := RunRow(FIRST_USER, Scheduled, None, 1, None)],
             map[10 := FIRST_ATTEMPT.(state := AttemptExited)],
                     map[], map[], map[], {}, [ScheduleCommand(1), RunCancelled(1, Some(10))])
  {
    hide Run, Consume, Schedule, IsNextNumber, Admit, StartCommitted, StartFailed, SuspendBegin, SuspendFinish;
    var s3, s4 := BeginCancel(1), LoseAttempt(LossRow(1, 10, 1, false, None), false);
    var s5 := EndCancel(CancelTicket(1, Some((10, FIRST_ATTEMPT))));
    var start, d2 := FirstAttempt([s3] + ([s4] + ([s5] + rest)));
    steps := start + [s3, s4, s5];
    assert steps + rest == start + ([s3] + ([s4] + ([s5] + rest)));
    TakeStep(ONE_RUN, d2, s3, [s4] + ([s5] + rest));
    var d3 := Apply(ONE_RUN, d2, s3);
    assert d3 == d2.(runs := map[1 := RunRow(FIRST_USER, Cancelling, Some(10), 1, None)],
                     attempts := map[10 := FIRST_ATTEMPT.(state := AttemptStopping)]);
    TakeStep(ONE_RUN, d3, s4, [s5] + rest);
    var d4 := Apply(ONE_RUN, d3, s4);
    assert d4 == d2.(runs := map[1 := RunRow(FIRST_USER, Scheduled, None, 1, None)],
                     attempts := map[10 := FIRST_ATTEMPT.(state := AttemptFailed)]);
    TakeStep(ONE_RUN, d4, s5, rest);
    db := Apply(ONE_RUN, d4, s5);
  }

  /** A proposal that requires no confirmation completes its run at once. */
  lemma BareProposalCompletes(db: Db, event: RunEvent)
    requires event.runId in db.runs && event.eventId !in db.inbox && event.runId !in db.completions
    requires event.body.ResultProposal? && event.body.required == [] && event.body.finalMessageIds == []
    requires event.body.finalCheckpointId == None && !IsTerminal(db.runs[event.runId].state)
    requires db.runs[event.runId].activeAttemptId == Some(event.body.attemptId)
    requires db.runs[event.runId].leaseEpoch == event.body.leaseEpoch && event.binding == db.runs[event.runId].binding
    ensures var db' := Consume(db, event).0;
            && event.runId in db'.runs && db'.runs[event.runId].state == Completed
            && db'.outbox == db.outbox
               + [RunCompleted(event.runId, event.body.attemptId, event.body.leaseEpoch, event.eventId)]
  {
  }

  lemma SecondAttempt(db: Db)
    requires db.runs == map[1 := RunRow(FIRST_USER, Scheduled, None, 1, None)]
    requires db.attempts == map[10 := FIRST_ATTEMPT.(state := AttemptExited)]
    ensures IsNextNumber(db, 1, 2)
    ensures var db' := Schedule(db, ONE_RUN.limits, 1, 11, 2).0;
            && db'.runs == map[1 := RunRow(FIRST_USER, Starting, Some(11), 2, None)]
            && db'.completions == db.completions && db'.inbox == db.inbox && db'.outbox == db.outbox
  {
    assert GlobalActive(db) == {} && UserActive(db, FIRST_USER.userId) == {};
    assert db.attempts[10].attemptNumber == 1;
  }

  lemma CancelledThenCompleted()
    ensures var outbox := [ScheduleCommand(1), RunCancelled(1, Some(10)), RunCompleted(1, 11, 2, 90)];
            CancelledEvents(outbox, 1) == 1 && |CompletedEvents(outbox, 1)| == 1
  {
    var outbox := [ScheduleCommand(1), RunCancelled(1, Some(10)), RunCompleted(1, 11, 2, 90)];
    assert outbox[..2] == [ScheduleCommand(1), RunCancelled(1, Some(10))];
    assert outbox[..2][..1] == [ScheduleCommand(1)] && [ScheduleCommand(1)][..0] == [];
  }

  /**
   Without that, it fails: the overtaken cancel has announced run.cancelled all the same, and the
   run's second attempt goes on to complete it.
   */
  lemma CancelOvertaken() returns (config: Config, steps: seq<Step>)
    ensures var db := Run(config, EMPTY, steps);
            && 1 in db.runs && db.runs[1].state == Completed
            && CancelledEvents(db.outbox, 1) == 1 && |CompletedEvents(db.outbox, 1)| == 1
  {
    hide CancelledEvents, CompletedEvents, Consume, Schedule, IsNextNumber;
    config := ONE_RUN;
    var s1, s2 := ScheduleRun(1, 11, 2), ConsumeEvent(RunEvent(90, 1, FIRST_USER, ResultProposal(11, 2, [], None, [])));
    var cancel, d := OvertakenCancel([s1] + [s2]);
    steps := cancel + ([s1] + [s2]);
    SecondAttempt(d);
    TakeStep(config, d, s1, [s2]);
    var d1 := Apply(config, d, s1);
    TakeStep(config, d1, s2, []);
    assert [s2] + [] == [s2];
    BareProposalCompletes(d1, s2.event);
    assert Apply(config, d1, s2).outbox == [ScheduleCommand(1), RunCancelled(1, Some(10)), RunCompleted(1, 11, 2, 90)];
    CancelledThenCompleted();
  }
}
