/**
 The Runner's database and its transactions: admission, scheduling, starting, cancelling,
 suspending, losing attempts and converging on completion. Each transaction is a function from
 one database to the next, and a method of RunnerDatabase that updates the tables as the source's
 statements do, putting back what it changed when it raises.
 */
module Runner {
  import opened Wrappers
  import opened Protocol

  datatype RunState =
    | Accepted | Scheduled | Starting | Running | Suspending | WaitingForInput
    | CompletionReconciling | Cancelling | Completed | Failed | Cancelled

  datatype AttemptState = AttemptStarting | AttemptRunning | AttemptStopping | AttemptExited | AttemptFailed

  /** Whose run it is, and where: what an event must name to be the run's. */
  datatype Binding = Binding(userId: Uuid, conversationId: Uuid, threadId: Uuid, traceId: Uuid)

  datatype RunRow = RunRow(
    binding: Binding, state: RunState, activeAttemptId: Option<Uuid>, leaseEpoch: nat, terminalCode: Option<string>)

  /** started says whether started_at is set, as the commit of the attempt's one start does. */
  datatype AttemptRow = AttemptRow(
    runId: Uuid, attemptNumber: nat, leaseEpoch: nat, state: AttemptState, started: bool,
    containerId: Option<string>, visibleOutput: bool, activeMessageId: Option<Uuid>)

  datatype CompletionRow = CompletionRow(
    proposalEventId: Uuid, attemptId: Uuid, leaseEpoch: nat, finalMessageIds: seq<Uuid>,
    finalCheckpointId: Option<Uuid>, required: seq<Confirmation>, messagesConfirmed: bool, checkpointConfirmed: bool)

  datatype OutEvent =
    | ScheduleCommand(runId: Uuid)
    | RunCompleted(runId: Uuid, attemptId: Uuid, leaseEpoch: nat, proposalEventId: Uuid)
    | RunCancelled(runId: Uuid, cancelledAttempt: Option<Uuid>)
    | MessageInterruption(runId: Uuid, attemptId: Uuid, messageId: Uuid, code: string)

  /** run_confirmations keeps the latest payload of either kind. */
  datatype Db = Db(
    runs: map<Uuid, RunRow>, attempts: map<Uuid, AttemptRow>, completions: map<Uuid, CompletionRow>,
    messagesPayload: map<Uuid, seq<Uuid>>, checkpointPayload: map<Uuid, Uuid>,
    inbox: set<Uuid>, outbox: seq<OutEvent>)

  datatype Limits = Limits(globalRuns: nat, perUserRuns: nat)

  /** CapacityLimits refuses limits that admit nothing or that contradict each other. */
  predicate ValidLimits(limits: Limits) {
    1 <= limits.perUserRuns <= limits.globalRuns
  }

  predicate IsTerminal(state: RunState) {
    state == Completed || state == Failed || state == Cancelled
  }

  function Elements(ids: seq<Uuid>): set<Uuid> {
    set id | id in ids
  }

  function SetAttemptState(db: Db, a: Uuid, state: AttemptState): Db {
    if a in db.attempts then db.(attempts := db.attempts[a := db.attempts[a].(state := state)]) else db
  }

  function SetRun(db: Db, r: Uuid, run: RunRow): Db {
    db.(runs := db.runs[r := run])
  }

  // ---------------------------------------------------------------------------------------------
  // Admission and scheduling

  function Admit(db: Db, r: Uuid, binding: Binding): (Db, Result<(), string>) {
    if r in db.runs then (db, Err("run_conflict"))
    else (SetRun(db, r, RunRow(binding, Accepted, None, 0, None)).(outbox := db.outbox + [ScheduleCommand(r)]), Ok(()))
  }

  predicate TakesCapacity(state: RunState) {
    state == Starting || state == Running || state == Suspending || state == Cancelling
  }

  function GlobalActive(db: Db): set<Uuid> {
    set r | r in db.runs && TakesCapacity(db.runs[r].state)
  }

  function UserActive(db: Db, userId: Uuid): set<Uuid> {
    set r | r in db.runs && db.runs[r].binding.userId == userId && TakesCapacity(db.runs[r].state)
  }

  predicate HasCapacity(db: Db, userId: Uuid, limits: Limits) {
    |GlobalActive(db)| < limits.globalRuns && |UserActive(db, userId)| < limits.perUserRuns
  }

  /** One more than the largest attempt number of the run, or 1. */
  ghost predicate IsNextNumber(db: Db, r: Uuid, number: nat) {
    && number >= 1
    && (forall a | a in db.attempts && db.attempts[a].runId == r :: db.attempts[a].attemptNumber < number)
    && (number == 1
        || exists a :: a in db.attempts && db.attempts[a].runId == r && db.attempts[a].attemptNumber == number - 1)
  }

  function Schedule(db: Db, limits: Limits, r: Uuid, freshAttempt: Uuid, number: nat)
      : (Db, Result<Option<Uuid>, string>)
  {
    if r !in db.runs then (db, Err("run_not_found"))
    else
      var run := db.runs[r];
      if (run.state != Accepted && run.state != Scheduled) || run.activeAttemptId.Some? then (db, Ok(None))
      else if !HasCapacity(db, run.binding.userId, limits) then (db, Ok(None))
      else
        var epoch := run.leaseEpoch + 1;
        var attempt := AttemptRow(r, number, epoch, AttemptStarting, false, None, false, None);
        (SetRun(db, r, run.(state := Starting, activeAttemptId := Some(freshAttempt), leaseEpoch := epoch))
           .(attempts := db.attempts[freshAttempt := attempt]), Ok(Some(freshAttempt)))
  }

  function ContainerCreated(db: Db, a: Uuid, containerId: string): Db {
    if a in db.attempts then db.(attempts := db.attempts[a := db.attempts[a].(containerId := Some(containerId))])
        else db
  }

  /** The last update of a start matches on the active attempt, not on the state. */
  function StartCommitted(db: Db, r: Uuid, a: Uuid): Db {
    var db1 := if a in db.attempts
               then db.(attempts := db.attempts[a := db.attempts[a].(state := AttemptRunning, started := true)])
               else db;
    if r in db.runs && db.runs[r].activeAttemptId == Some(a) then SetRun(db1, r, db.runs[r].(state := Running)) else db1
  }

  function Fail(db: Db, r: Uuid, a: Uuid, code: string): Db {
    if r in db.runs && db.runs[r].activeAttemptId == Some(a)
    then SetRun(db, r, db.runs[r].(state := Failed, terminalCode := Some(code), activeAttemptId := None)) else db
  }

  function StartFailed(db: Db, r: Uuid, a: Uuid): Db {
    Fail(SetAttemptState(db, a, AttemptFailed), r, a, "attempt_start_failed")
  }

  // ---------------------------------------------------------------------------------------------
  // Cancellation

  /** What cancel remembers between its two transactions. */
  datatype CancelTicket = CancelTicket(runId: Uuid, attempt: Option<(Uuid, AttemptRow)>)

  /** Ok(None) for a run that is terminal already. */
  function CancelBegin(db: Db, r: Uuid): (Db, Result<Option<CancelTicket>, string>) {
    if r !in db.runs then (db, Err("run_not_found"))
    else if IsTerminal(db.runs[r].state) then (db, Ok(None))
    else
      var run := db.runs[r];
      var attempt := if run.activeAttemptId.Some? && run.activeAttemptId.value in db.attempts
                     then Some((run.activeAttemptId.value, db.attempts[run.activeAttemptId.value])) else None;
      var db1 := if run.activeAttemptId.Some? then SetAttemptState(db, run.activeAttemptId.value, AttemptStopping)
          else db;
      (SetRun(db1, r, run.(state := Cancelling)), Ok(Some(CancelTicket(r, attempt))))
  }

  /** What the second transaction enqueues, whatever has become of the run in between. */
  function CancelEvents(ticket: CancelTicket): seq<OutEvent> {
    (match ticket.attempt
     case Some((a, row)) =>
       if row.activeMessageId.Some?
       then [MessageInterruption(ticket.runId, a, row.activeMessageId.value, "cancelled")] else []
     case None => []) +
    [RunCancelled(ticket.runId, if ticket.attempt.Some? then Some(ticket.attempt.value.0) else None)]
  }

  function CancelFinish(db: Db, ticket: CancelTicket): Db {
    var r := ticket.runId;
    var db1 := if ticket.attempt.Some? then SetAttemptState(db, ticket.attempt.value.0, AttemptExited) else db;
    var db2 := if r in db.runs && db.runs[r].state == Cancelling
               then SetRun(db1, r, db.runs[r].(state := Cancelled, terminalCode := Some("cancelled"),
                   activeAttemptId := None))
               else db1;
    db2.(outbox := db.outbox + CancelEvents(ticket))
  }

  // ---------------------------------------------------------------------------------------------
  // Suspension

  datatype Suspension = Suspension(eventId: Uuid, runId: Uuid, attemptId: Uuid, leaseEpoch: nat)

  /** Ok(true) sends suspend on to remove the container; Ok(false) is a finished redelivery. */
  function SuspendBegin(db: Db, event: Suspension): (Db, Result<bool, string>) {
    var r := event.runId;
    if event.eventId in db.inbox && r in db.runs && db.runs[r].state == WaitingForInput then (db, Ok(false))
    else if r !in db.runs || db.runs[r].activeAttemptId != Some(event.attemptId)
         || db.runs[r].leaseEpoch != event.leaseEpoch
         || (db.runs[r].state != Running && db.runs[r].state != Suspending) then (db, Err("suspension_stale"))
    else
      (SetAttemptState(
         SetRun(db, r, db.runs[r].(state := Suspending)).(inbox := db.inbox + {event.eventId}),
         event.attemptId, AttemptStopping), Ok(true))
  }

  function SuspendFinish(db: Db, r: Uuid, a: Uuid): Db {
    var db1 := SetAttemptState(db, a, AttemptExited);
    if r in db.runs && db.runs[r].state == Suspending
    then SetRun(db1, r, db.runs[r].(state := WaitingForInput, activeAttemptId := None)) else db1
  }

  // ---------------------------------------------------------------------------------------------
  // Lost attempts

  /** The row reconcile has read, possibly long before it acts on it. */
  datatype LossRow = LossRow(
    runId: Uuid, attemptId: Uuid, attemptNumber: nat, visibleOutput: bool, activeMessageId: Option<Uuid>)

  predicate RetryAllowed(attemptNumber: nat, deadlinePassed: bool, maxAttempts: nat) {
    attemptNumber < maxAttempts && !deadlinePassed
  }

  function LossEvents(lost: LossRow): seq<OutEvent> {
    if lost.activeMessageId.Some?
    then [MessageInterruption(lost.runId, lost.attemptId, lost.activeMessageId.value, "attempt_lost")] else []
  }

  function HandleAttemptLoss(db: Db, lost: LossRow, deadlinePassed: bool, maxAttempts: nat): Db {
    var db1 := SetAttemptState(db, lost.attemptId, AttemptFailed);
    var r := lost.runId;
    if !lost.visibleOutput && RetryAllowed(lost.attemptNumber, deadlinePassed, maxAttempts) then
      if r in db.runs && db.runs[r].activeAttemptId == Some(lost.attemptId)
      then SetRun(db1, r, db.runs[r].(state := Scheduled, activeAttemptId := None)) else db1
    else
      var db2 := Fail(db1, r, lost.attemptId,
                      if lost.visibleOutput then "attempt_lost_after_output" else "attempt_retry_exhausted");
      db2.(outbox := db2.outbox + LossEvents(lost))
  }

  // ---------------------------------------------------------------------------------------------
  // Completion events

  datatype RunEventBody =
    | ResultProposal(attemptId: Uuid, leaseEpoch: nat, finalMessageIds: seq<Uuid>,
                     finalCheckpointId: Option<Uuid>, required: seq<Confirmation>)
    | MessagesCommitted(messageIds: seq<Uuid>)
    | CheckpointCommitted(checkpointId: Uuid)
    | MessageStarted(startedBy: Uuid, startedEpoch: nat, messageId: Uuid)
    | OtherEvent

  datatype RunEvent = RunEvent(eventId: Uuid, runId: Uuid, binding: Binding, body: RunEventBody)

  /** The first occurrence of every kind, in order. */
  function Dedup(kinds: seq<Confirmation>): seq<Confirmation> {
    if kinds == [] then []
    else
      var before := Dedup(kinds[..|kinds| - 1]);
      if kinds[|kinds| - 1] in kinds[..|kinds| - 1] then before else before + [kinds[|kinds| - 1]]
  }

  function ProposalRow(event: RunEvent): CompletionRow
    requires event.body.ResultProposal?
  {
    var p := event.body;
    CompletionRow(event.eventId, p.attemptId, p.leaseEpoch, p.finalMessageIds, p.finalCheckpointId, Dedup(p.required),
                  false, false)
  }

  predicate SameProposal(x: CompletionRow, y: CompletionRow) {
    && x.attemptId == y.attemptId && x.leaseEpoch == y.leaseEpoch && x.finalMessageIds == y.finalMessageIds
    && x.finalCheckpointId == y.finalCheckpointId && x.required == y.required
  }

  function Propose(db: Db, event: RunEvent): Result<Db, string>
    requires event.runId in db.runs && event.body.ResultProposal?
  {
    var r, run := event.runId, db.runs[event.runId];
    var row := ProposalRow(event);
    if run.activeAttemptId != Some(row.attemptId) || run.leaseEpoch != row.leaseEpoch then Err("stale_epoch")
    else if (Messages in row.required) != (row.finalMessageIds != []) then Err("confirmation_invalid")
    else if (Checkpoint in row.required) != row.finalCheckpointId.Some? then Err("confirmation_invalid")
    else if r in db.completions then
      if SameProposal(db.completions[r], row) then Ok(db) else Err("proposal_conflict")
    else
      var db1 := db.(completions := db.completions[r := row]);
      Ok(if IsTerminal(run.state) then db1 else SetRun(db1, r, run.(state := CompletionReconciling)))
  }

  function ConfirmMessages(db: Db, r: Uuid, ids: seq<Uuid>): Result<Db, string> {
    var db1 := db.(messagesPayload := db.messagesPayload[r := ids]);
    if r !in db.completions then Ok(db1)
    else if Elements(ids) != Elements(db.completions[r].finalMessageIds) then Err("confirmation_mismatch")
    else Ok(db1.(completions := db.completions[r := db.completions[r].(messagesConfirmed := true)]))
  }

  function ConfirmCheckpoint(db: Db, r: Uuid, id: Uuid): Result<Db, string> {
    var db1 := db.(checkpointPayload := db.checkpointPayload[r := id]);
    if r !in db.completions then Ok(db1)
    else if db.completions[r].finalCheckpointId != Some(id) then Err("confirmation_mismatch")
    else Ok(db1.(completions := db.completions[r := db.completions[r].(checkpointConfirmed := true)]))
  }

  function StartMessage(db: Db, event: RunEvent): Result<Db, string>
    requires event.runId in db.runs && event.body.MessageStarted?
  {
    var run, m := db.runs[event.runId], event.body;
    if run.activeAttemptId != Some(m.startedBy) || run.leaseEpoch != m.startedEpoch then Err("stale_epoch")
    else if m.startedBy !in db.attempts then Ok(db)
    else Ok(db.(attempts := db.attempts[m.startedBy :=
                db.attempts[m.startedBy].(visibleOutput := true, activeMessageId := Some(m.messageId))]))
  }

  /** A completion row with a flag set for every stored payload that matches it. */
  function Flagged(db: Db, r: Uuid): CompletionRow
    requires r in db.completions
  {
    var row := db.completions[r];
    row.(messagesConfirmed := row.messagesConfirmed
           || (r in db.messagesPayload && Elements(db.messagesPayload[r]) == Elements(row.finalMessageIds)),
         checkpointConfirmed := row.checkpointConfirmed
           || (r in db.checkpointPayload && row.finalCheckpointId == Some(db.checkpointPayload[r])))
  }

  predicate IsReady(row: CompletionRow) {
    (Messages in row.required ==> row.messagesConfirmed) && (Checkpoint in row.required ==> row.checkpointConfirmed)
  }

  function Converge(db: Db, r: Uuid): Db {
    if r !in db.completions then db
    else
      var row := Flagged(db, r);
      var db1 := db.(completions := db.completions[r := row]);
      if r !in db.runs || IsTerminal(db.runs[r].state) || !IsReady(row) then db1
      else
        var db2 := SetAttemptState(db1, row.attemptId, AttemptExited);
        if db.runs[r].state != CompletionReconciling then db2
        else SetRun(db2, r, db.runs[r].(state := Completed, terminalCode := None, activeAttemptId := None))
               .(outbox := db.outbox + [RunCompleted(r, row.attemptId, row.leaseEpoch, row.proposalEventId)])
  }

  /** The handler of an event's kind, before convergence. */
  function Handle(db: Db, event: RunEvent): Result<Db, string>
    requires event.runId in db.runs
  {
    match event.body
    case ResultProposal(_, _, _, _, _) => Propose(db, event)
    case MessagesCommitted(ids) => ConfirmMessages(db, event.runId, ids)
    case CheckpointCommitted(id) => ConfirmCheckpoint(db, event.runId, id)
    case MessageStarted(_, _, _) => StartMessage(db, event)
    case OtherEvent => Err("event_unsupported")
  }

  /** Ok(false) for an event that has been consumed already; an error changes nothing. */
  function Consume(db: Db, event: RunEvent): (Db, Result<bool, string>) {
    if event.eventId in db.inbox then (db, Ok(false))
    else if event.runId !in db.runs then (db, Err("run_not_found"))
    else if event.binding != db.runs[event.runId].binding then (db, Err("event_invalid"))
    else
      match Handle(db.(inbox := db.inbox + {event.eventId}), event)
      case Err(code) => (db, Err(code))
      case Ok(handled) => (if event.body.MessageStarted? then handled else Converge(handled, event.runId), Ok(true))
  }
}
