/** The Runner's tables as mutable state: one method per transaction of the source. */
module RunnerDatabase {
  import opened Wrappers
  import opened Protocol
  import opened Runner

  class Database {
    var runs: map<Uuid, RunRow>
    var attempts: map<Uuid, AttemptRow>
    var completions: map<Uuid, CompletionRow>
    var messagesPayload: map<Uuid, seq<Uuid>>
    var checkpointPayload: map<Uuid, Uuid>
    var inbox: set<Uuid>
    var outbox: seq<OutEvent>
    const limits: Limits
    const maxAttempts: nat

    function State(): Db
      reads this
    {
      Db(runs, attempts, completions, messagesPayload, checkpointPayload, inbox, outbox)
    }

    constructor (limits: Limits, maxAttempts: nat)
      requires ValidLimits(limits)
      ensures State() == Db(map[], map[], map[], map[], map[], {}, [])
      ensures this.limits == limits && this.maxAttempts == maxAttempts
    {
      this.limits, this.maxAttempts := limits, maxAttempts;
      runs, attempts, completions := map[], map[], map[];
      messagesPayload, checkpointPayload, inbox, outbox := map[], map[], {}, [];
    }

    method MarkAttempt(a: Uuid, state: AttemptState)
      modifies `attempts
      ensures State() == SetAttemptState(old(State()), a, state)
    {
      if a in attempts {
        attempts := attempts[a := attempts[a].(state := state)];
      }
    }

    method DoAdmit(r: Uuid, binding: Binding) returns (outcome: Result<(), string>)
      modifies this
      ensures (State(), outcome) == Admit(old(State()), r, binding)
    {
      if r in runs {
        return Err("run_conflict");
      }
      runs := runs[r := RunRow(binding, Accepted, None, 0, None)];
      outbox := outbox + [ScheduleCommand(r)];
      return Ok(());
    }

    /** coalesce(max(attempt_number),0)+1 over the attempts of a run. */
    method NextNumber(r: Uuid) returns (number: nat)
      ensures IsNextNumber(State(), r, number)
    {
      var highest: nat := 0;
      var rest := attempts.Keys;
      while rest != {}
        invariant rest <= attempts.Keys
        invariant forall a | a in attempts && attempts[a].runId == r ::
                    a in rest || attempts[a].attemptNumber <= highest
        invariant highest == 0
               || exists a :: a in attempts && attempts[a].runId == r && attempts[a].attemptNumber == highest
        decreases rest
      {
        var a :| a in rest;
        if attempts[a].runId == r && attempts[a].attemptNumber > highest {
          highest := attempts[a].attemptNumber;
        }
        rest := rest - {a};
      }
      return highest + 1;
    }

    method DoSchedule(r: Uuid, freshAttempt: Uuid) returns (outcome: Result<Option<Uuid>, string>, ghost number: nat)
      requires freshAttempt !in attempts
      modifies this
      ensures IsNextNumber(old(State()), r, number)
      ensures (State(), outcome) == Schedule(old(State()), limits, r, freshAttempt, number)
    {
      var next := NextNumber(r);
      number := next;
      if r !in runs {
        outcome := Err("run_not_found");
        return;
      }
      var run := runs[r];
      if (run.state != Accepted && run.state != Scheduled) || run.activeAttemptId.Some? {
        outcome := Ok(None);
        return;
      }
      if !HasCapacity(State(), run.binding.userId, limits) {
        outcome := Ok(None);
        return;
      }
      var epoch := run.leaseEpoch + 1;
      attempts := attempts[freshAttempt := AttemptRow(r, next, epoch, AttemptStarting, false, None, false, None)];
      runs := runs[r := run.(state := Starting, activeAttemptId := Some(freshAttempt), leaseEpoch := epoch)];
      outcome := Ok(Some(freshAttempt));
    }

    method DoContainerCreated(a: Uuid, containerId: string)
      modifies this
      ensures State() == ContainerCreated(old(State()), a, containerId)
    {
      if a in attempts {
        attempts := attempts[a := attempts[a].(containerId := Some(containerId))];
      }
    }

    method DoStartCommitted(r: Uuid, a: Uuid)
      modifies this
      ensures State() == StartCommitted(old(State()), r, a)
    {
      if a in attempts {
        attempts := attempts[a := attempts[a].(state := AttemptRunning, started := true)];
      }
      if r in runs && runs[r].activeAttemptId == Some(a) {
        runs := runs[r := runs[r].(state := Running)];
      }
    }

    method DoFail(r: Uuid, a: Uuid, code: string)
      modifies `runs
      ensures State() == Fail(old(State()), r, a, code)
    {
      if r in runs && runs[r].activeAttemptId == Some(a) {
        runs := runs[r := runs[r].(state := Failed, terminalCode := Some(code), activeAttemptId := None)];
      }
    }

    method DoStartFailed(r: Uuid, a: Uuid)
      modifies this
      ensures State() == StartFailed(old(State()), r, a)
    {
      MarkAttempt(a, AttemptFailed);
      DoFail(r, a, "attempt_start_failed");
    }

    method DoCancelBegin(r: Uuid) returns (outcome: Result<Option<CancelTicket>, string>)
      modifies this
      ensures (State(), outcome) == CancelBegin(old(State()), r)
    {
      if r !in runs {
        return Err("run_not_found");
      }
      var run := runs[r];
      if IsTerminal(run.state) {
        return Ok(None);
      }
      var attempt := None;
      if run.activeAttemptId.Some? {
        var a := run.activeAttemptId.value;
        if a in attempts {
          attempt := Some((a, attempts[a]));
        }
        MarkAttempt(a, AttemptStopping);
      }
      runs := runs[r := run.(state := Cancelling)];
      return Ok(Some(CancelTicket(r, attempt)));
    }

    method DoCancelFinish(ticket: CancelTicket)
      modifies this
      ensures State() == CancelFinish(old(State()), ticket)
    {
      var r := ticket.runId;
      if ticket.attempt.Some? {
        MarkAttempt(ticket.attempt.value.0, AttemptExited);
      }
      if r in runs && runs[r].state == Cancelling {
        runs := runs[r := runs[r].(state := Cancelled, terminalCode := Some("cancelled"), activeAttemptId := None)];
      }
      var interruption := [];
      if ticket.attempt.Some? && ticket.attempt.value.1.activeMessageId.Some? {
        var (a, row) := ticket.attempt.value;
        interruption := [MessageInterruption(r, a, row.activeMessageId.value, "cancelled")];
      }
      assert CancelEvents(ticket)[..|interruption|] == interruption;
      outbox := outbox + interruption;
      outbox := outbox + [RunCancelled(r, if ticket.attempt.Some? then Some(ticket.attempt.value.0) else None)];
      assert outbox == old(outbox) + CancelEvents(ticket);
    }

    method DoSuspendBegin(event: Suspension) returns (outcome: Result<bool, string>)
      modifies this
      ensures (State(), outcome) == SuspendBegin(old(State()), event)
    {
      var inboxBefore := inbox;
      var inserted := event.eventId !in inbox;
      inbox := inbox + {event.eventId};
      var r := event.runId;
      if !inserted && r in runs && runs[r].state == WaitingForInput {
        assert inbox == inboxBefore;
        return Ok(false);
      }
      if r !in runs || runs[r].activeAttemptId != Some(event.attemptId) || runs[r].leaseEpoch != event.leaseEpoch
         || (runs[r].state != Running && runs[r].state != Suspending) {
        inbox := inboxBefore;
        return Err("suspension_stale");
      }
      if runs[r].state == Running {
        runs := runs[r := runs[r].(state := Suspending)];
      }
      assert runs == old(runs)[r := old(runs)[r].(state := Suspending)];
      MarkAttempt(event.attemptId, AttemptStopping);
      return Ok(true);
    }

    method DoSuspendFinish(r: Uuid, a: Uuid)
      modifies this
      ensures State() == SuspendFinish(old(State()), r, a)
    {
      MarkAttempt(a, AttemptExited);
      if r in runs && runs[r].state == Suspending {
        runs := runs[r := runs[r].(state := WaitingForInput, activeAttemptId := None)];
      }
    }

    method DoHandleAttemptLoss(lost: LossRow, deadlinePassed: bool)
      modifies this
      ensures State() == HandleAttemptLoss(old(State()), lost, deadlinePassed, maxAttempts)
    {
      MarkAttempt(lost.attemptId, AttemptFailed);
      var r := lost.runId;
      if !lost.visibleOutput && RetryAllowed(lost.attemptNumber, deadlinePassed, maxAttempts) {
        if r in runs && runs[r].activeAttemptId == Some(lost.attemptId) {
          runs := runs[r := runs[r].(state := Scheduled, activeAttemptId := None)];
        }
        return;
      }
      DoFail(r, lost.attemptId, if lost.visibleOutput then "attempt_lost_after_output" else "attempt_retry_exhausted");
      if lost.activeMessageId.Some? {
        outbox := outbox + [MessageInterruption(r, lost.attemptId, lost.activeMessageId.value, "attempt_lost")];
      }
      assert outbox == old(outbox) + LossEvents(lost);
    }

    /** Acts on every row it was given whose container is not running, and counts what it repaired. */
    method DoReconcile(rows: seq<LossRow>, running: seq<bool>, deadlinePassed: seq<bool>) returns (repaired: nat)
      requires |running| == |rows| && |deadlinePassed| == |rows|
      modifies this
      ensures State() == Reconcile(old(State()), rows, running, deadlinePassed, maxAttempts)
      ensures repaired == |set i | 0 <= i < |rows| && !running[i]|
    {
      hide HandleAttemptLoss;
      repaired := 0;
      ghost var handled: set<int> := {};
      for i := 0 to |rows|
        invariant State() == Reconcile(old(State()), rows[..i], running[..i], deadlinePassed[..i], maxAttempts)
        invariant handled == (set j | 0 <= j < i && !running[j]) && repaired == |handled|
      {
        assert rows[..i + 1][..i] == rows[..i] && running[..i + 1][..i] == running[..i];
        assert deadlinePassed[..i + 1][..i] == deadlinePassed[..i];
        if !running[i] {
          DoHandleAttemptLoss(rows[i], deadlinePassed[i]);
          repaired := repaired + 1;
          handled := handled + {i};
        }
      }
      assert rows[..|rows|] == rows && running[..|rows|] == running && deadlinePassed[..|rows|] == deadlinePassed;
    }

    method DoPropose(event: RunEvent) returns (outcome: Result<(), string>)
      requires event.runId in runs && event.body.ResultProposal?
      modifies this
      ensures outcome.Ok? ==> Propose(old(State()), event) == Ok(State())
      ensures outcome.Err? ==> Propose(old(State()), event) == Err(outcome.error) && State() == old(State())
    {
      var r, run := event.runId, runs[event.runId];
      var row := ProposalRow(event);
      if run.activeAttemptId != Some(row.attemptId) || run.leaseEpoch != row.leaseEpoch {
        return Err("stale_epoch");
      }
      if (Messages in row.required) != (row.finalMessageIds != []) {
        return Err("confirmation_invalid");
      }
      if (Checkpoint in row.required) != row.finalCheckpointId.Some? {
        return Err("confirmation_invalid");
      }
      if r in completions {
        if !SameProposal(completions[r], row) {
          return Err("proposal_conflict");
        }
        return Ok(());
      }
      completions := completions[r := row];
      if !IsTerminal(run.state) {
        runs := runs[r := run.(state := CompletionReconciling)];
      }
      return Ok(());
    }

    method DoConfirm(event: RunEvent) returns (outcome: Result<(), string>)
      requires event.runId in runs && (event.body.MessagesCommitted? || event.body.CheckpointCommitted?)
      modifies this
      ensures outcome.Ok? ==> Handle(old(State()), event) == Ok(State())
      ensures outcome.Err? ==> Handle(old(State()), event) == Err(outcome.error)
      ensures runs == old(runs) && attempts == old(attempts) && inbox == old(inbox) && outbox == old(outbox)
    {
      var r := event.runId;
      if event.body.MessagesCommitted? {
        var ids := event.body.messageIds;
        messagesPayload := messagesPayload[r := ids];
        if r in completions {
          if Elements(ids) != Elements(completions[r].finalMessageIds) {
            return Err("confirmation_mismatch");
          }
          completions := completions[r := completions[r].(messagesConfirmed := true)];
        }
      } else {
        var id := event.body.checkpointId;
        checkpointPayload := checkpointPayload[r := id];
        if r in completions {
          if completions[r].finalCheckpointId != Some(id) {
            return Err("confirmation_mismatch");
          }
          completions := completions[r := completions[r].(checkpointConfirmed := true)];
        }
      }
      return Ok(());
    }

    method DoConverge(r: Uuid)
      modifies this
      ensures State() == Converge(old(State()), r)
    {
      if r !in completions {
        return;
      }
      var kinds := [Messages, Checkpoint];
      for i := 0 to 2
        invariant r in completions
        invariant State() == old(State()).(completions := old(completions)[r := completions[r]])
        invariant completions[r] == old(completions)[r].(
          messagesConfirmed := if i == 0 then old(completions)[r].messagesConfirmed
                               else Flagged(old(State()), r).messagesConfirmed,
          checkpointConfirmed := if i <= 1 then old(completions)[r].checkpointConfirmed
                                 else Flagged(old(State()), r).checkpointConfirmed)
      {
        if kinds[i] == Messages {
          if r in messagesPayload && Elements(messagesPayload[r]) == Elements(completions[r].finalMessageIds) {
            completions := completions[r := completions[r].(messagesConfirmed := true)];
          }
        } else if r in checkpointPayload && completions[r].finalCheckpointId == Some(checkpointPayload[r]) {
          completions := completions[r := completions[r].(checkpointConfirmed := true)];
        }
      }
      if r !in runs || IsTerminal(runs[r].state) || !IsReady(completions[r]) {
        return;
      }
      var row := completions[r];
      MarkAttempt(row.attemptId, AttemptExited);
      if runs[r].state == CompletionReconciling {
        runs := runs[r := runs[r].(state := Completed, terminalCode := None, activeAttemptId := None)];
        outbox := outbox + [RunCompleted(r, row.attemptId, row.leaseEpoch, row.proposalEventId)];
      }
    }

    /** One event in one transaction; a raised error restores the tables it had changed. */
    method ConsumeRunEvent(event: RunEvent) returns (outcome: Result<bool, string>)
      modifies this
      ensures (State(), outcome) == Consume(old(State()), event)
    {
      if event.eventId in inbox {
        return Ok(false);
      }
      var saved := State();
      inbox := inbox + {event.eventId};
      if event.runId !in runs {
        inbox := saved.inbox;
        return Err("run_not_found");
      }
      if event.binding != runs[event.runId].binding {
        inbox := saved.inbox;
        return Err("event_invalid");
      }
      var handled: Result<(), string>;
      match event.body {
        case ResultProposal(_, _, _, _, _) => handled := DoPropose(event);
        case MessagesCommitted(_) => handled := DoConfirm(event);
        case CheckpointCommitted(_) => handled := DoConfirm(event);
        case MessageStarted(a, epoch, message) =>
          if runs[event.runId].activeAttemptId != Some(a) || runs[event.runId].leaseEpoch != epoch {
            handled := Err("stale_epoch");
          } else {
            if a in attempts {
              attempts := attempts[a := attempts[a].(visibleOutput := true, activeMessageId := Some(message))];
            }
            handled := Ok(());
          }
        case OtherEvent => handled := Err("event_unsupported");
      }
      if handled.Err? {
        Restore(saved);
        return Err(handled.error);
      }
      if !event.body.MessageStarted? {
        DoConverge(event.runId);
      }
      return Ok(true);
    }

    method Restore(saved: Db)
      modifies this
      ensures State() == saved
    {
      runs, attempts, completions := saved.runs, saved.attempts, saved.completions;
      messagesPayload, checkpointPayload := saved.messagesPayload, saved.checkpointPayload;
      inbox, outbox := saved.inbox, saved.outbox;
    }
  }

  /** The losses handled for the rows whose container was found not running, in order. */
  function Reconcile(db: Db, rows: seq<LossRow>, running: seq<bool>, deadlinePassed: seq<bool>, maxAttempts: nat): Db
    requires |running| == |rows| && |deadlinePassed| == |rows|
  {
    if rows == [] then db
    else
      var n := |rows| - 1;
      var before := Reconcile(db, rows[..n], running[..n], deadlinePassed[..n], maxAttempts);
      if running[n] then before else HandleAttemptLoss(before, rows[n], deadlinePassed[n], maxAttempts)
  }
}
