/**
 Every interleaving of the Runner's transactions. A step's arguments may be as old as the source
 lets them be: the second half of a cancel or a suspension, the end of a start, and the row a
 reconciliation has read, are only required to name an attempt of the run. An attempt is started once,
 when it is scheduled, so its start commits at most once.
 */
module RunnerLifecycle {
  import opened Wrappers
  import opened Protocol
  import opened Runner

  datatype Config = Config(limits: Limits, maxAttempts: nat)

  datatype Step =
    | AdmitRun(r: Uuid, binding: Binding)
    | ScheduleRun(r: Uuid, a: Uuid, number: nat)
    | CreateContainer(a: Uuid, containerId: string)
    | CommitStart(r: Uuid, a: Uuid)
    | AbortStart(r: Uuid, a: Uuid)
    | BeginCancel(r: Uuid)
    | EndCancel(ticket: CancelTicket)
    | BeginSuspend(suspension: Suspension)
    | EndSuspend(r: Uuid, a: Uuid)
    | LoseAttempt(lost: LossRow, deadlinePassed: bool)
    | ConsumeEvent(event: RunEvent)

  const EMPTY := Db(map[], map[], map[], map[], map[], {}, [])

  predicate IsAttemptOf(db: Db, a: Uuid, r: Uuid) {
    a in db.attempts && db.attempts[a].runId == r
  }

  ghost predicate Enabled(db: Db, step: Step) {
    match step
    case ScheduleRun(r, a, number) => a !in db.attempts && IsNextNumber(db, r, number)
    case CommitStart(r, a) => IsAttemptOf(db, a, r) && !db.attempts[a].started
    case AbortStart(r, a) => IsAttemptOf(db, a, r)
    case EndSuspend(r, a) => IsAttemptOf(db, a, r)
    case EndCancel(ticket) => ticket.attempt.Some? ==> IsAttemptOf(db, ticket.attempt.value.0, ticket.runId)
    case LoseAttempt(lost, _) =>
      IsAttemptOf(db, lost.attemptId, lost.runId) && db.attempts[lost.attemptId].attemptNumber == lost.attemptNumber
    case _ => true
  }

  function Apply(config: Config, db: Db, step: Step): Db {
    match step
    case AdmitRun(r, binding) => Admit(db, r, binding).0
    case ScheduleRun(r, a, number) => Schedule(db, config.limits, r, a, number).0
    case CreateContainer(a, id) => ContainerCreated(db, a, id)
    case CommitStart(r, a) => StartCommitted(db, r, a)
    case AbortStart(r, a) => StartFailed(db, r, a)
    case BeginCancel(r) => CancelBegin(db, r).0
    case EndCancel(ticket) => CancelFinish(db, ticket)
    case BeginSuspend(suspension) => SuspendBegin(db, suspension).0
    case EndSuspend(r, a) => SuspendFinish(db, r, a)
    case LoseAttempt(lost, deadlinePassed) => HandleAttemptLoss(db, lost, deadlinePassed, config.maxAttempts)
    case ConsumeEvent(event) => Consume(db, event).0
  }

  ghost function Run(config: Config, db: Db, steps: seq<Step>): Db
    decreases |steps|
  {
    if steps == [] then db
    else Run(config, if Enabled(db, steps[0]) then Apply(config, db, steps[0]) else db, steps[1..])
  }

  // ---------------------------------------------------------------------------------------------
  // The invariant

  function Max(a: nat, b: nat): nat {
    if a >= b then a else b
  }

  predicate MayHaveAttempt(state: RunState) {
    state == Starting || state == Running || state == Suspending || state == CompletionReconciling
        || state == Cancelling
  }

  predicate CodeOk(run: RunRow) {
    match run.state
    case Failed =>
      || run.terminalCode == Some("attempt_start_failed") || run.terminalCode == Some("attempt_lost_after_output")
      || run.terminalCode == Some("attempt_retry_exhausted")
    case Cancelled => run.terminalCode == Some("cancelled")
    case _ => run.terminalCode == None
  }

  /** The run.completed events of a run, in the order they were enqueued. */
  function CompletedEvents(outbox: seq<OutEvent>, r: Uuid): seq<OutEvent> {
    if outbox == [] then []
    else
      var last := outbox[|outbox| - 1];
      var before := CompletedEvents(outbox[..|outbox| - 1], r);
      if last.RunCompleted? && last.runId == r then before + [last] else before
  }

  function CompletionEvent(r: Uuid, row: CompletionRow): OutEvent {
    RunCompleted(r, row.attemptId, row.leaseEpoch, row.proposalEventId)
  }

  ghost predicate AttemptOk(db: Db, a: Uuid)
    requires a in db.attempts
  {
    var attempt := db.attempts[a];
    && attempt.runId in db.runs && 1 <= attempt.leaseEpoch <= db.runs[attempt.runId].leaseEpoch
    && attempt.attemptNumber == attempt.leaseEpoch
  }

  ghost predicate HasEpoch(db: Db, r: Uuid, epoch: nat) {
    exists a :: IsAttemptOf(db, a, r) && db.attempts[a].leaseEpoch == epoch
  }

  /** Attempts of a run are numbered 1..lease_epoch, one for each epoch. */
  ghost predicate AttemptsOk(db: Db) {
    && (forall a | a in db.attempts :: AttemptOk(db, a))
    && (forall a, b | a in db.attempts && b in db.attempts && db.attempts[a].runId == db.attempts[b].runId
                      && db.attempts[a].leaseEpoch == db.attempts[b].leaseEpoch :: a == b)
    && (forall r, epoch | r in db.runs && 1 <= epoch <= db.runs[r].leaseEpoch :: HasEpoch(db, r, epoch))
  }

  /** A stored proposal came from an attempt of the run, and a flag stands for a matching payload. */
  ghost predicate ProposalOk(db: Db, r: Uuid)
    requires r in db.completions
  {
    var row := db.completions[r];
    && r in db.runs && IsAttemptOf(db, row.attemptId, r) && db.attempts[row.attemptId].leaseEpoch == row.leaseEpoch
    && (Messages in row.required <==> row.finalMessageIds != [])
    && (Checkpoint in row.required <==> row.finalCheckpointId.Some?)
    && (row.messagesConfirmed ==>
          r in db.messagesPayload && Elements(db.messagesPayload[r]) == Elements(row.finalMessageIds))
    && (row.checkpointConfirmed ==>
          r in db.checkpointPayload && row.finalCheckpointId == Some(db.checkpointPayload[r]))
  }

  ghost predicate RunOk(db: Db, maxAttempts: nat, r: Uuid)
    requires r in db.runs
  {
    var run := db.runs[r];
    && (run.activeAttemptId.Some? ==>
          && MayHaveAttempt(run.state) && IsAttemptOf(db, run.activeAttemptId.value, r)
          && db.attempts[run.activeAttemptId.value].leaseEpoch == run.leaseEpoch)
    && (run.state == Accepted ==> run.leaseEpoch == 0)
    && (run.state == Scheduled ==> run.leaseEpoch < maxAttempts)
    && run.leaseEpoch <= Max(1, maxAttempts)
    && (run.state == CompletionReconciling || run.state == Completed ==>
          r in db.completions && db.completions[r].leaseEpoch == run.leaseEpoch)
    && (run.state == Completed ==> IsReady(db.completions[r]))
    && CodeOk(run)
    && CompletedEvents(db.outbox, r) == (if run.state == Completed then [CompletionEvent(r, db.completions[r])] else [])
  }

  ghost predicate Inv(config: Config, db: Db) {
    && AttemptsOk(db)
    && (forall r | r in db.completions :: ProposalOk(db, r))
    && (forall r | r in db.runs :: RunOk(db, config.maxAttempts, r))
    && (forall r | r !in db.runs :: CompletedEvents(db.outbox, r) == [])
  }

  // ---------------------------------------------------------------------------------------------
  // Steps that touch one run

  /** What never changes about an attempt. */
  ghost predicate SameAttempts(db: Db, db': Db) {
    && db'.attempts.Keys == db.attempts.Keys
    && forall a | a in db.attempts ::
         && db'.attempts[a].runId == db.attempts[a].runId && db'.attempts[a].leaseEpoch == db.attempts[a].leaseEpoch
         && db'.attempts[a].attemptNumber == db.attempts[a].attemptNumber
  }

  /** A step that leaves every run but r, and every run's epoch, alone. */
  ghost predicate OnlyRun(db: Db, db': Db, r: Uuid) {
    && SameAttempts(db, db') && db'.runs.Keys == db.runs.Keys
    && (forall q | q in db.runs ::
          db'.runs[q].leaseEpoch == db.runs[q].leaseEpoch && (q == r || db'.runs[q] == db.runs[q]))
    && (forall q | q != r :: (q in db'.completions <==> q in db.completions)
                             && (q in db.completions ==> db'.completions[q] == db.completions[q]))
    && (forall q | q != r :: (q in db'.messagesPayload <==> q in db.messagesPayload)
                             && (q in db.messagesPayload ==> db'.messagesPayload[q] == db.messagesPayload[q]))
    && (forall q | q != r :: (q in db'.checkpointPayload <==> q in db.checkpointPayload)
                             && (q in db.checkpointPayload ==> db'.checkpointPayload[q] == db.checkpointPayload[q]))
    && (forall q | q != r :: CompletedEvents(db'.outbox, q) == CompletedEvents(db.outbox, q))
  }

  lemma SameAttemptsOk(db: Db, db': Db, r: Uuid)
    requires AttemptsOk(db) && OnlyRun(db, db', r)
    ensures AttemptsOk(db')
  {
    forall a | a in db'.attempts ensures AttemptOk(db', a) {
      assert AttemptOk(db, a);
    }
    forall q, epoch | q in db'.runs && 1 <= epoch <= db'.runs[q].leaseEpoch ensures HasEpoch(db', q, epoch) {
      assert HasEpoch(db, q, epoch);
      var a :| IsAttemptOf(db, a, q) && db.attempts[a].leaseEpoch == epoch;
      assert IsAttemptOf(db', a, q);
    }
  }

  lemma OtherRunOk(db: Db, db': Db, maxAttempts: nat, r: Uuid, q: Uuid)
    requires OnlyRun(db, db', r) && q != r && q in db.runs && RunOk(db, maxAttempts, q)
    ensures RunOk(db', maxAttempts, q)
  {
  }

  lemma OtherProposalOk(db: Db, db': Db, r: Uuid, q: Uuid)
    requires OnlyRun(db, db', r) && q != r && q in db.completions && ProposalOk(db, q)
    ensures q in db'.completions && ProposalOk(db', q)
  {
  }

  lemma OneRunKeepsInv(config: Config, db: Db, db': Db, r: Uuid)
    requires Inv(config, db) && OnlyRun(db, db', r) && r in db.runs
    requires RunOk(db', config.maxAttempts, r)
    requires r in db'.completions ==> ProposalOk(db', r)
    ensures Inv(config, db')
  {
    hide AttemptsOk, RunOk, ProposalOk;
    SameAttemptsOk(db, db', r);
    forall q | q in db'.completions ensures ProposalOk(db', q) {
      if q != r {
        OtherProposalOk(db, db', r, q);
      }
    }
    forall q | q in db'.runs ensures RunOk(db', config.maxAttempts, q) {
      if q != r {
        OtherRunOk(db, db', config.maxAttempts, r, q);
      }
    }
  }

  lemma NotCompleted(outbox: seq<OutEvent>, more: seq<OutEvent>, r: Uuid)
    requires forall i | 0 <= i < |more| :: !(more[i].RunCompleted? && more[i].runId == r)
    ensures CompletedEvents(outbox + more, r) == CompletedEvents(outbox, r)
    decreases |more|
  {
    if more == [] {
      assert outbox + more == outbox;
    } else {
      assert (outbox + more)[..|outbox + more| - 1] == outbox + more[..|more| - 1];
      NotCompleted(outbox, more[..|more| - 1], r);
    }
  }

  lemma NoneCompleted(outbox: seq<OutEvent>, more: seq<OutEvent>)
    requires forall i | 0 <= i < |more| :: !more[i].RunCompleted?
    ensures forall r :: CompletedEvents(outbox + more, r) == CompletedEvents(outbox, r)
  {
    forall r ensures CompletedEvents(outbox + more, r) == CompletedEvents(outbox, r) {
      NotCompleted(outbox, more, r);
    }
  }

  /** Moving a run to another state keeps what is known of it, if the new state allows it. */
  predicate MayMove(run: RunRow, run': RunRow, maxAttempts: nat) {
    && run'.leaseEpoch == run.leaseEpoch && run'.binding == run.binding && CodeOk(run')
    && run'.state != Accepted && run'.state != Completed && run.state != Completed
    && (run'.state == CompletionReconciling ==> run.state == CompletionReconciling)
    && (run'.state == Scheduled ==> run.leaseEpoch < maxAttempts)
    && (run'.activeAttemptId == None || (run'.activeAttemptId == run.activeAttemptId && MayHaveAttempt(run'.state)))
  }

  /** A step that moves r, if there is such a run, and is otherwise invisible to the invariant. */
  ghost predicate IsMove(db: Db, db': Db, r: Uuid, maxAttempts: nat) {
    && OnlyRun(db, db', r)
    && db'.completions == db.completions
    && db'.messagesPayload == db.messagesPayload && db'.checkpointPayload == db.checkpointPayload
    && (forall q :: CompletedEvents(db'.outbox, q) == CompletedEvents(db.outbox, q))
    && (r in db.runs ==> db'.runs[r] == db.runs[r] || MayMove(db.runs[r], db'.runs[r], maxAttempts))
  }

  lemma MoveKeepsRun(db: Db, db': Db, r: Uuid, maxAttempts: nat)
    requires IsMove(db, db', r, maxAttempts) && r in db.runs && RunOk(db, maxAttempts, r)
    ensures RunOk(db', maxAttempts, r)
  {
  }

  lemma MoveKeepsProposal(db: Db, db': Db, r: Uuid, maxAttempts: nat)
    requires IsMove(db, db', r, maxAttempts) && r in db.completions && ProposalOk(db, r)
    ensures ProposalOk(db', r)
  {
  }

  lemma MoveKeepsInv(config: Config, db: Db, db': Db, r: Uuid)
    requires Inv(config, db) && IsMove(db, db', r, config.maxAttempts)
    ensures Inv(config, db')
  {
    hide AttemptsOk, RunOk, ProposalOk, OnlyRun;
    if r in db.runs {
      MoveKeepsRun(db, db', r, config.maxAttempts);
      if r in db.completions {
        MoveKeepsProposal(db, db', r, config.maxAttempts);
      }
      OneRunKeepsInv(config, db, db', r);
    } else {
      SameAttemptsOk(db, db', r);
      forall q | q in db.completions ensures ProposalOk(db', q) {
        assert q != r by { ProposalHasRun(db, q); }
        OtherProposalOk(db, db', r, q);
      }
      assert db'.runs.Keys == db.runs.Keys by { OnlyRunKeys(db, db', r); }
      forall q | q in db.runs ensures RunOk(db', config.maxAttempts, q) {
        OtherRunOk(db, db', config.maxAttempts, r, q);
      }
    }
  }

  lemma ProposalHasRun(db: Db, q: Uuid)
    requires q in db.completions && ProposalOk(db, q)
    ensures q in db.runs
  {
  }

  lemma OnlyRunKeys(db: Db, db': Db, r: Uuid)
    requires OnlyRun(db, db', r)
    ensures db'.runs.Keys == db.runs.Keys
  {
  }

  /** Changing attempts' states, then moving a run if it exists, then announcing it, is a move. */
  lemma ComposedMove(db: Db, db': Db, r: Uuid, maxAttempts: nat, more: seq<OutEvent>)
    requires SameAttempts(db, db') && db'.completions == db.completions
    requires db'.messagesPayload == db.messagesPayload && db'.checkpointPayload == db.checkpointPayload
    requires db'.runs == db.runs || (r in db.runs && r in db'.runs && db'.runs == db.runs[r := db'.runs[r]]
                                     && MayMove(db.runs[r], db'.runs[r], maxAttempts))
    requires db'.outbox == db.outbox + more && forall i | 0 <= i < |more| :: !more[i].RunCompleted?
    ensures IsMove(db, db', r, maxAttempts)
  {
    NoneCompleted(db.outbox, more);
    hide CompletedEvents;
  }

  lemma CreateContainerMoves(db: Db, a: Uuid, containerId: string, maxAttempts: nat)
    ensures IsMove(db, ContainerCreated(db, a, containerId), 0, maxAttempts)
  {
    hide IsMove;
    ComposedMove(db, ContainerCreated(db, a, containerId), 0, maxAttempts, []);
  }

  lemma CommitStartMoves(db: Db, r: Uuid, a: Uuid, maxAttempts: nat)
    requires r in db.runs ==> RunOk(db, maxAttempts, r)
    ensures IsMove(db, StartCommitted(db, r, a), r, maxAttempts)
  {
    hide IsMove, CompletedEvents;
    ComposedMove(db, StartCommitted(db, r, a), r, maxAttempts, []);
  }

  lemma AbortStartMoves(db: Db, r: Uuid, a: Uuid, maxAttempts: nat)
    requires r in db.runs ==> RunOk(db, maxAttempts, r)
    ensures IsMove(db, StartFailed(db, r, a), r, maxAttempts)
  {
    hide IsMove, CompletedEvents, SetAttemptState;
    SetAttemptStateKeeps(db, a, AttemptFailed);
    ComposedMove(db, StartFailed(db, r, a), r, maxAttempts, []);
  }

  lemma BeginCancelMoves(db: Db, r: Uuid, maxAttempts: nat)
    requires r in db.runs ==> RunOk(db, maxAttempts, r)
    ensures IsMove(db, CancelBegin(db, r).0, r, maxAttempts)
  {
    hide IsMove, CompletedEvents;
    ComposedMove(db, CancelBegin(db, r).0, r, maxAttempts, []);
  }

  lemma EndCancelMoves(db: Db, ticket: CancelTicket, maxAttempts: nat)
    ensures IsMove(db, CancelFinish(db, ticket), ticket.runId, maxAttempts)
  {
    hide IsMove, SetAttemptState, CompletedEvents;
    if ticket.attempt.Some? {
      SetAttemptStateKeeps(db, ticket.attempt.value.0, AttemptExited);
    }
    ComposedMove(db, CancelFinish(db, ticket), ticket.runId, maxAttempts, CancelEvents(ticket));
  }

  lemma BeginSuspendMoves(db: Db, event: Suspension, maxAttempts: nat)
    requires event.runId in db.runs ==> RunOk(db, maxAttempts, event.runId)
    ensures IsMove(db, SuspendBegin(db, event).0, event.runId, maxAttempts)
  {
    hide IsMove, CompletedEvents;
    ComposedMove(db, SuspendBegin(db, event).0, event.runId, maxAttempts, []);
  }

  lemma EndSuspendMoves(db: Db, r: Uuid, a: Uuid, maxAttempts: nat)
    requires r in db.runs ==> RunOk(db, maxAttempts, r)
    ensures IsMove(db, SuspendFinish(db, r, a), r, maxAttempts)
  {
    hide IsMove, CompletedEvents;
    ComposedMove(db, SuspendFinish(db, r, a), r, maxAttempts, []);
  }

  lemma SetAttemptStateKeeps(db: Db, a: Uuid, state: AttemptState)
    ensures SameAttempts(db, SetAttemptState(db, a, state))
    ensures SetAttemptState(db, a, state) == db.(attempts := SetAttemptState(db, a, state).attempts)
  {
  }

  lemma AttemptStatesKeepRuns()
    ensures forall db, a, state :: SetAttemptState(db, a, state).runs == db.runs
  {
  }

  /** What a loss does to the run it was active in: it reschedules or fails it. */
  predicate LossMoves(run: RunRow, run': RunRow, lost: LossRow, maxAttempts: nat) {
    || (lost.attemptNumber < maxAttempts && run' == run.(state := Scheduled, activeAttemptId := None))
    || run' == run.(state := Failed, activeAttemptId := None, terminalCode :=
                      Some(if lost.visibleOutput then "attempt_lost_after_output" else "attempt_retry_exhausted"))
  }

  /** A loss moves the run it was active in, and no other; the rest is an attempt's state. */
  lemma LossFrame(db: Db, lost: LossRow, deadlinePassed: bool, maxAttempts: nat)
    ensures var db' := HandleAttemptLoss(db, lost, deadlinePassed, maxAttempts); var r := lost.runId;
            && SameAttempts(db, db')
            && db' == db.(attempts := db'.attempts, runs := db'.runs, outbox := db'.outbox)
            && (db'.outbox == db.outbox || db'.outbox == db.outbox + LossEvents(lost))
            && (db'.runs == db.runs
                || (r in db.runs && db.runs[r].activeAttemptId == Some(lost.attemptId)
                    && r in db'.runs && db'.runs == db.runs[r := db'.runs[r]]
                    && LossMoves(db.runs[r], db'.runs[r], lost, maxAttempts)))
  {
    SetAttemptStateKeeps(db, lost.attemptId, AttemptFailed);
    hide LossEvents, SetAttemptState;
  }

  lemma LoseAttemptMoves(db: Db, lost: LossRow, deadlinePassed: bool, maxAttempts: nat)
    requires lost.runId in db.runs ==> RunOk(db, maxAttempts, lost.runId)
    requires IsAttemptOf(db, lost.attemptId, lost.runId) && AttemptOk(db, lost.attemptId)
    requires db.attempts[lost.attemptId].attemptNumber == lost.attemptNumber
    ensures IsMove(db, HandleAttemptLoss(db, lost, deadlinePassed, maxAttempts), lost.runId, maxAttempts)
  {
    hide IsMove, CompletedEvents;
    hide HandleAttemptLoss;
    var db' := HandleAttemptLoss(db, lost, deadlinePassed, maxAttempts);
    LossFrame(db, lost, deadlinePassed, maxAttempts);
    ComposedMove(db, db', lost.runId, maxAttempts, if db'.outbox == db.outbox then [] else LossEvents(lost));
  }

  lemma MovesKeepInv(config: Config, db: Db, step: Step)
    requires Inv(config, db) && Enabled(db, step)
    requires !step.AdmitRun? && !step.ScheduleRun? && !step.ConsumeEvent?
    ensures Inv(config, Apply(config, db, step))
  {
    hide IsMove, RunOk, ProposalOk, AttemptOk, StartCommitted, StartFailed, CancelBegin, CancelFinish, SuspendBegin,
      SuspendFinish, HandleAttemptLoss, ContainerCreated, Consume, Schedule, Admit, IsNextNumber, CompletedEvents;
    var n := config.maxAttempts;
    var db' := Apply(config, db, step);
    match step {
      case CreateContainer(a, id) => CreateContainerMoves(db, a, id, n); MoveKeepsInv(config, db, db', 0);
      case CommitStart(r, a) => CommitStartMoves(db, r, a, n); MoveKeepsInv(config, db, db', r);
      case AbortStart(r, a) => AbortStartMoves(db, r, a, n); MoveKeepsInv(config, db, db', r);
      case BeginCancel(r) => BeginCancelMoves(db, r, n); MoveKeepsInv(config, db, db', r);
      case EndCancel(ticket) => EndCancelMoves(db, ticket, n); MoveKeepsInv(config, db, db', ticket.runId);
      case BeginSuspend(event) => BeginSuspendMoves(db, event, n); MoveKeepsInv(config, db, db', event.runId);
      case EndSuspend(r, a) => EndSuspendMoves(db, r, a, n); MoveKeepsInv(config, db, db', r);
      case LoseAttempt(lost, late) => LoseAttemptMoves(db, lost, late, n); MoveKeepsInv(config, db, db', lost.runId);
    }
  }

  // ---------------------------------------------------------------------------------------------
  // Admission, scheduling and completion events

  lemma AdmitKeepsAttempts(db: Db, db': Db, r: Uuid)
    requires AttemptsOk(db) && r !in db.runs && db'.attempts == db.attempts
    requires r in db'.runs && db'.runs[r].leaseEpoch == 0 && db'.runs == db.runs[r := db'.runs[r]]
    ensures AttemptsOk(db')
  {
    forall a | a in db'.attempts ensures AttemptOk(db', a) {
      assert AttemptOk(db, a);
    }
    forall q, epoch | q in db'.runs && 1 <= epoch <= db'.runs[q].leaseEpoch ensures HasEpoch(db', q, epoch) {
      assert HasEpoch(db, q, epoch);
      var a :| IsAttemptOf(db, a, q) && db.attempts[a].leaseEpoch == epoch;
      assert IsAttemptOf(db', a, q);
    }
  }

  lemma AdmitKeepsInv(config: Config, db: Db, r: Uuid, binding: Binding)
    requires Inv(config, db) && r !in db.runs
    ensures Inv(config, Admit(db, r, binding).0)
  {
    var db' := Admit(db, r, binding).0;
    NoneCompleted(db.outbox, [ScheduleCommand(r)]);
    hide CompletedEvents, AttemptsOk;
    AdmitKeepsAttempts(db, db', r);
    hide ProposalOk, RunOk;
    forall q | q in db'.completions ensures ProposalOk(db', q) {
      AdmitKeepsProposal(db, db', r, q);
    }
    forall q | q in db'.runs ensures RunOk(db', config.maxAttempts, q) {
      AdmitKeepsRun(db, db', config.maxAttempts, r, q);
    }
  }

  lemma AdmitKeepsProposal(db: Db, db': Db, r: Uuid, q: Uuid)
    requires q in db.completions && ProposalOk(db, q) && db' == db.(runs := db'.runs, outbox := db'.outbox)
    requires r in db'.runs && db'.runs == db.runs[r := db'.runs[r]]
    ensures ProposalOk(db', q)
  {
  }

  lemma AdmitKeepsRun(db: Db, db': Db, maxAttempts: nat, r: Uuid, q: Uuid)
    requires r !in db.runs && q in db'.runs && db' == db.(runs := db'.runs, outbox := db'.outbox)
    requires r in db'.runs && db'.runs == db.runs[r := RunRow(db'.runs[r].binding, Accepted, None, 0, None)]
    requires CompletedEvents(db'.outbox, q) == CompletedEvents(db.outbox, q)
    requires q == r ==> CompletedEvents(db.outbox, r) == []
    requires q != r ==> q in db.runs && RunOk(db, maxAttempts, q)
    ensures RunOk(db', maxAttempts, q)
  {
    hide CompletedEvents;
  }

  /** The largest attempt number of a run is its lease epoch, so the next of both is the same. */
  lemma NextNumberIsNextEpoch(db: Db, r: Uuid, number: nat)
    requires AttemptsOk(db) && r in db.runs && IsNextNumber(db, r, number)
    ensures number == db.runs[r].leaseEpoch + 1
  {
    var epoch := db.runs[r].leaseEpoch;
    if epoch >= 1 {
      assert HasEpoch(db, r, epoch);
      var a :| IsAttemptOf(db, a, r) && db.attempts[a].leaseEpoch == epoch;
      assert AttemptOk(db, a);
    }
    if number > 1 {
      var a :| a in db.attempts && db.attempts[a].runId == r && db.attempts[a].attemptNumber == number - 1;
      assert AttemptOk(db, a);
    }
  }

  lemma ScheduleKeepsAttempts(db: Db, db': Db, r: Uuid, a: Uuid, attempt: AttemptRow)
    requires AttemptsOk(db) && r in db.runs && a !in db.attempts
    requires db'.attempts == db.attempts[a := attempt]
    requires r in db'.runs && db'.runs == db.runs[r := db'.runs[r]]
    requires db'.runs[r].leaseEpoch == db.runs[r].leaseEpoch + 1 == attempt.leaseEpoch == attempt.attemptNumber
    requires attempt.runId == r
    ensures AttemptsOk(db')
  {
    forall b | b in db'.attempts ensures AttemptOk(db', b) {
      if b != a {
        assert AttemptOk(db, b);
      }
    }
    forall b | b in db.attempts && db.attempts[b].runId == r ensures db.attempts[b].leaseEpoch < attempt.leaseEpoch {
      assert AttemptOk(db, b);
    }
    forall q, epoch | q in db'.runs && 1 <= epoch <= db'.runs[q].leaseEpoch ensures HasEpoch(db', q, epoch) {
      if q == r && epoch == attempt.leaseEpoch {
        assert IsAttemptOf(db', a, q);
      } else {
        assert HasEpoch(db, q, epoch);
        var b :| IsAttemptOf(db, b, q) && db.attempts[b].leaseEpoch == epoch;
        assert IsAttemptOf(db', b, q);
      }
    }
  }

  lemma ScheduleKeepsInv(config: Config, db: Db, r: Uuid, a: Uuid, number: nat)
    requires Inv(config, db) && a !in db.attempts && IsNextNumber(db, r, number)
    ensures Inv(config, Schedule(db, config.limits, r, a, number).0)
  {
    hide RunOk, ProposalOk, CompletedEvents, HasCapacity, IsNextNumber, AttemptsOk;
    var db' := Schedule(db, config.limits, r, a, number).0;
    if db' != db {
      NextNumberIsNextEpoch(db, r, number);
      ScheduleKeepsAttempts(db, db', r, a, db'.attempts[a]);
      ScheduledRunOk(db, db', config.maxAttempts, r, a);
      forall q | q in db'.completions ensures ProposalOk(db', q) {
        ScheduleKeepsProposal(db, db', r, a, q);
      }
      forall q | q in db'.runs ensures RunOk(db', config.maxAttempts, q) {
        if q != r {
          ScheduleKeepsOther(db, db', config.maxAttempts, r, a, q);
        }
      }
    }
  }

  lemma ScheduledRunOk(db: Db, db': Db, maxAttempts: nat, r: Uuid, a: Uuid)
    requires r in db.runs && RunOk(db, maxAttempts, r)
             && (db.runs[r].state == Accepted || db.runs[r].state == Scheduled)
    requires db'.outbox == db.outbox && db'.completions == db.completions
    requires r in db'.runs && IsAttemptOf(db', a, r) && db'.attempts[a].leaseEpoch == db.runs[r].leaseEpoch + 1
    requires db'.runs[r] == db.runs[r].(state := Starting, activeAttemptId := Some(a),
             leaseEpoch := db.runs[r].leaseEpoch + 1)
    ensures RunOk(db', maxAttempts, r)
  {
  }

  lemma ScheduleKeepsProposal(db: Db, db': Db, r: Uuid, a: Uuid, q: Uuid)
    requires q in db.completions && ProposalOk(db, q) && a !in db.attempts
    requires db' == db.(runs := db'.runs, attempts := db'.attempts)
    requires r in db.runs && r in db'.runs && db'.runs == db.runs[r := db'.runs[r]]
    requires a in db'.attempts && db'.attempts == db.attempts[a := db'.attempts[a]]
    ensures ProposalOk(db', q)
  {
  }

  lemma ScheduleKeepsOther(db: Db, db': Db, maxAttempts: nat, r: Uuid, a: Uuid, q: Uuid)
    requires q in db.runs && q != r && RunOk(db, maxAttempts, q) && a !in db.attempts
    requires db'.outbox == db.outbox && db'.completions == db.completions
    requires r in db'.runs && db'.runs == db.runs[r := db'.runs[r]]
    requires a in db'.attempts && db'.attempts == db.attempts[a := db'.attempts[a]]
    ensures RunOk(db', maxAttempts, q)
  {
  }

  /** A state of r's rows that the invariant allows. */
  ghost predicate LocalOk(db: Db, maxAttempts: nat, r: Uuid) {
    && r in db.runs && RunOk(db, maxAttempts, r)
    && (r in db.completions ==> ProposalOk(db, r))
  }

  lemma {:induction false} DedupMembers(kinds: seq<Confirmation>)
    ensures forall k :: k in Dedup(kinds) <==> k in kinds
  {
    if kinds != [] {
      DedupMembers(kinds[..|kinds| - 1]);
      assert kinds == kinds[..|kinds| - 1] + [kinds[|kinds| - 1]];
    }
  }

  lemma ProposeKeepsLocal(db: Db, event: RunEvent, maxAttempts: nat)
    requires LocalOk(db, maxAttempts, event.runId) && event.body.ResultProposal? && Propose(db, event).Ok?
    ensures LocalOk(Propose(db, event).value, maxAttempts, event.runId)
    ensures OnlyRun(db, Propose(db, event).value, event.runId)
  {
    hide CompletedEvents, Dedup;
  }

  lemma ConfirmKeepsLocal(db: Db, event: RunEvent, maxAttempts: nat)
    requires LocalOk(db, maxAttempts, event.runId) && Handle(db, event).Ok?
    requires event.body.MessagesCommitted? || event.body.CheckpointCommitted?
    ensures LocalOk(Handle(db, event).value, maxAttempts, event.runId)
    ensures OnlyRun(db, Handle(db, event).value, event.runId)
  {
    if event.body.MessagesCommitted? {
      hide LocalOk, OnlyRun, ConfirmMessages;
      ConfirmMessagesKeepsLocal(db, event.runId, event.body.messageIds, maxAttempts);
    } else {
      hide LocalOk, OnlyRun, ConfirmCheckpoint;
      ConfirmCheckpointKeepsLocal(db, event.runId, event.body.checkpointId, maxAttempts);
    }
  }

  lemma ConfirmMessagesKeepsLocal(db: Db, r: Uuid, ids: seq<Uuid>, maxAttempts: nat)
    requires LocalOk(db, maxAttempts, r) && ConfirmMessages(db, r, ids).Ok?
    ensures LocalOk(ConfirmMessages(db, r, ids).value, maxAttempts, r)
    ensures OnlyRun(db, ConfirmMessages(db, r, ids).value, r)
  {
    hide CompletedEvents, Elements;
  }

  lemma ConfirmCheckpointKeepsLocal(db: Db, r: Uuid, id: Uuid, maxAttempts: nat)
    requires LocalOk(db, maxAttempts, r) && ConfirmCheckpoint(db, r, id).Ok?
    ensures LocalOk(ConfirmCheckpoint(db, r, id).value, maxAttempts, r)
    ensures OnlyRun(db, ConfirmCheckpoint(db, r, id).value, r)
  {
    hide CompletedEvents, Elements;
  }

  lemma StartMessageKeepsLocal(db: Db, event: RunEvent, maxAttempts: nat)
    requires LocalOk(db, maxAttempts, event.runId) && event.body.MessageStarted? && Handle(db, event).Ok?
    ensures LocalOk(Handle(db, event).value, maxAttempts, event.runId)
    ensures OnlyRun(db, Handle(db, event).value, event.runId)
  {
    hide CompletedEvents, Propose, ConfirmMessages, ConfirmCheckpoint;
  }

  lemma FlagsKeepLocal(db: Db, r: Uuid, maxAttempts: nat)
    requires LocalOk(db, maxAttempts, r) && r in db.completions
    ensures var db1 := db.(completions := db.completions[r := Flagged(db, r)]);
            LocalOk(db1, maxAttempts, r) && OnlyRun(db, db1, r)
  {
    hide CompletedEvents;
  }

  lemma CompletionIsLocal(db: Db, a: Uuid, r: Uuid, run: RunRow, done: OutEvent)
    requires r in db.runs && run.leaseEpoch == db.runs[r].leaseEpoch && done.RunCompleted? && done.runId == r
    ensures var db' := SetRun(SetAttemptState(db, a, AttemptExited), r, run).(outbox := db.outbox + [done]);
            OnlyRun(db, db', r) && CompletedEvents(db'.outbox, r) == CompletedEvents(db.outbox, r) + [done]
  {
    assert (db.outbox + [done])[..|db.outbox|] == db.outbox;
    forall q | q != r ensures CompletedEvents(db.outbox + [done], q) == CompletedEvents(db.outbox, q) {
      NotCompleted(db.outbox, [done], q);
    }
    hide CompletedEvents;
  }

  lemma ConvergeKeepsLocal(db: Db, r: Uuid, maxAttempts: nat)
    requires LocalOk(db, maxAttempts, r)
    ensures LocalOk(Converge(db, r), maxAttempts, r)
    ensures OnlyRun(db, Converge(db, r), r)
  {
    hide CompletedEvents, OnlyRun;
    if r in db.completions {
      FlagsKeepLocal(db, r, maxAttempts);
      var row := Flagged(db, r);
      var db1 := db.(completions := db.completions[r := row]);
      var db' := Converge(db, r);
      hide Flagged;
      if db' != db1 {
        var run := db.runs[r].(state := Completed, terminalCode := None, activeAttemptId := None);
        if db.runs[r].state == CompletionReconciling {
          CompletionIsLocal(db1, row.attemptId, r, run,
              RunCompleted(r, row.attemptId, row.leaseEpoch, row.proposalEventId));
        } else {
          ExitIsLocal(db1, row.attemptId, r);
        }
        OnlyRunTransitive(db, db1, db', r);
      }
    } else {
      ExitIsLocal(db, 0, r);
    }
  }

  lemma ExitIsLocal(db: Db, a: Uuid, r: Uuid)
    ensures OnlyRun(db, SetAttemptState(db, a, AttemptExited), r) && OnlyRun(db, db, r)
  {
    hide CompletedEvents;
  }

  lemma OnlyRunTransitive(x: Db, y: Db, z: Db, r: Uuid)
    requires OnlyRun(x, y, r) && OnlyRun(y, z, r)
    ensures OnlyRun(x, z, r)
  {
  }

  lemma ConsumeKeepsInv(config: Config, db: Db, event: RunEvent)
    requires Inv(config, db)
    ensures Inv(config, Consume(db, event).0)
  {
    var r, n := event.runId, config.maxAttempts;
    if r in db.runs && event.eventId !in db.inbox {
      var db1 := db.(inbox := db.inbox + {event.eventId});
      InboxIsIrrelevant(db, event, n);
      if Handle(db1, event).Ok? {
        hide RunOk, ProposalOk, OnlyRun, Handle, Converge, AttemptsOk;
        var handled := Handle(db1, event).value;
        if event.body.ResultProposal? {
          assert Handle(db1, event) == Propose(db1, event) by { HandlesProposal(db1, event); }
          ProposeKeepsLocal(db1, event, n);
        } else if event.body.MessageStarted? {
          StartMessageKeepsLocal(db1, event, n);
        } else {
          assert !event.body.OtherEvent? by { HandlesNothingElse(db1, event); }
          ConfirmKeepsLocal(db1, event, n);
        }
        OnlyRunTransitive(db, db1, handled, r);
        ConvergeKeepsLocal(handled, r, n);
        OnlyRunTransitive(db, handled, Converge(handled, r), r);
        OneRunKeepsInv(config, db, if event.body.MessageStarted? then handled else Converge(handled, r), r);
      }
    }
  }

  lemma HandlesProposal(db: Db, event: RunEvent)
    requires event.runId in db.runs && event.body.ResultProposal?
    ensures Handle(db, event) == Propose(db, event)
  {
  }

  lemma HandlesNothingElse(db: Db, event: RunEvent)
    requires event.runId in db.runs && Handle(db, event).Ok?
    ensures !event.body.OtherEvent?
  {
  }

  lemma InboxIsIrrelevant(db: Db, event: RunEvent, maxAttempts: nat)
    requires event.runId in db.runs && RunOk(db, maxAttempts, event.runId)
    requires event.runId in db.completions ==> ProposalOk(db, event.runId)
    ensures var db1 := db.(inbox := db.inbox + {event.eventId});
            LocalOk(db1, maxAttempts, event.runId) && OnlyRun(db, db1, event.runId)
  {
    hide CompletedEvents;
  }

  lemma StepKeepsInv(config: Config, db: Db, step: Step)
    requires Inv(config, db) && Enabled(db, step)
    ensures Inv(config, Apply(config, db, step))
  {
    hide Inv, Consume, Schedule, IsNextNumber, StartCommitted, StartFailed, CancelBegin, CancelFinish, SuspendBegin,
      SuspendFinish, HandleAttemptLoss, ContainerCreated;
    match step {
      case AdmitRun(r, binding) =>
        if r !in db.runs {
          AdmitKeepsInv(config, db, r, binding);
        }
      case ScheduleRun(r, a, number) => ScheduleKeepsInv(config, db, r, a, number);
      case ConsumeEvent(event) => ConsumeKeepsInv(config, db, event);
      case _ => MovesKeepInv(config, db, step);
    }
  }

  lemma {:induction false} RunKeepsInv(config: Config, db: Db, steps: seq<Step>)
    requires Inv(config, db)
    ensures Inv(config, Run(config, db, steps))
    decreases |steps|
  {
    hide Inv, Enabled, Apply;
    if steps != [] {
      if Enabled(db, steps[0]) {
        StepKeepsInv(config, db, steps[0]);
        RunKeepsInv(config, Apply(config, db, steps[0]), steps[1..]);
      } else {
        RunKeepsInv(config, db, steps[1..]);
      }
    }
  }

  lemma EmptyInv(config: Config)
    ensures Inv(config, EMPTY)
  {
  }

  // ---------------------------------------------------------------------------------------------
  // Attempts

  /** What no step takes back about an attempt. */
  ghost predicate KeepsAttempt(db: Db, db': Db, a: Uuid) {
    a in db.attempts ==>
      && a in db'.attempts && db'.attempts[a].runId == db.attempts[a].runId
      && db'.attempts[a].leaseEpoch == db.attempts[a].leaseEpoch
      && (db.attempts[a].started ==> db'.attempts[a].started)
  }

  lemma HandleKeepsAttempt(db: Db, event: RunEvent, a: Uuid)
    requires event.runId in db.runs && Handle(db, event).Ok?
    ensures var db' := Handle(db, event).value;
            KeepsAttempt(db, db', a) && (a in db.attempts ==> db'.attempts[a].state == db.attempts[a].state)
  {
    if event.body.MessageStarted? {
      hide Propose, ConfirmMessages, ConfirmCheckpoint;
    } else {
      hide Dedup, Elements, SameProposal, StartMessage;
    }
  }

  lemma ConvergeKeepsAttempt(db: Db, r: Uuid, a: Uuid)
    ensures var db' := Converge(db, r);
            && KeepsAttempt(db, db', a)
            && (a in db.attempts ==>
                  db'.attempts[a].state == db.attempts[a].state || db'.attempts[a].state == AttemptExited)
  {
    hide Flagged, IsReady;
  }

  /** An event leaves an attempt's state, unless it completes what the attempt has proposed. */
  lemma ConsumeKeepsAttempt(db: Db, event: RunEvent, a: Uuid)
    ensures var db' := Consume(db, event).0;
            && KeepsAttempt(db, db', a)
            && (a in db.attempts ==>
                  db'.attempts[a].state == db.attempts[a].state || db'.attempts[a].state == AttemptExited)
  {
    hide Handle, Converge;
    var db1 := db.(inbox := db.inbox + {event.eventId});
    if event.eventId !in db.inbox && event.runId in db.runs && Handle(db1, event).Ok? {
      HandleKeepsAttempt(db1, event, a);
      ConvergeKeepsAttempt(Handle(db1, event).value, event.runId, a);
    }
  }

  lemma LossKeepsAttempt(db: Db, lost: LossRow, deadlinePassed: bool, maxAttempts: nat, a: Uuid)
    ensures var db' := HandleAttemptLoss(db, lost, deadlinePassed, maxAttempts);
            KeepsAttempt(db, db', a)
            && (a in db.attempts && a != lost.attemptId ==> db'.attempts[a].state == db.attempts[a].state)
  {
    hide LossEvents, RetryAllowed;
  }

  lemma StepKeepsAttempt(config: Config, db: Db, step: Step, a: Uuid)
    requires Enabled(db, step)
    ensures KeepsAttempt(db, Apply(config, db, step), a)
  {
    hide Consume, HandleAttemptLoss, HasCapacity, IsNextNumber, CancelEvents;
    if step.ConsumeEvent? {
      ConsumeKeepsAttempt(db, step.event, a);
    } else if step.LoseAttempt? {
      LossKeepsAttempt(db, step.lost, step.deadlinePassed, config.maxAttempts, a);
    }
  }

  lemma KeptAttempt(db: Db, db': Db, a: Uuid, r: Uuid)
    requires KeepsAttempt(db, db', a) && IsAttemptOf(db, a, r)
    ensures IsAttemptOf(db', a, r) && db'.attempts[a].leaseEpoch == db.attempts[a].leaseEpoch
    ensures db.attempts[a].started ==> db'.attempts[a].started
  {
  }
}
