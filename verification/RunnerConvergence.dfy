/**
 Convergence on completion: a proposal and its confirmations may arrive in any order and any number
 of times, among other events, and the one thing that can stop them is a start that commits between
 the two.
 */
module RunnerConvergence {
  import opened Wrappers
  import opened Protocol
  import opened Runner
  import opened Lifecycle = RunnerLifecycle
  import RunnerOutcomes

  /** The events delivered so far, one transaction each. */
  function DeliverAll(db: Db, events: seq<RunEvent>): Db {
    if events == [] then db
    else Consume(DeliverAll(db, events[..|events| - 1]), events[|events| - 1]).0
  }

  /** A proposal of the run's active attempt that asks for what its ids need confirmed. */
  predicate IsValidProposal(db: Db, p: RunEvent) {
    && p.body.ResultProposal? && p.runId in db.runs && db.runs[p.runId].binding == p.binding
    && db.runs[p.runId].activeAttemptId == Some(p.body.attemptId) && db.runs[p.runId].leaseEpoch == p.body.leaseEpoch
    && (Messages in Dedup(p.body.required) <==> p.body.finalMessageIds != [])
    && (Checkpoint in Dedup(p.body.required) <==> p.body.finalCheckpointId.Some?)
  }

  predicate ConfirmsMessages(p: RunEvent, event: RunEvent)
    requires p.body.ResultProposal?
  {
    && event.runId == p.runId && event.binding == p.binding && event.body.MessagesCommitted?
    && p.body.finalMessageIds != [] && Elements(event.body.messageIds) == Elements(p.body.finalMessageIds)
  }

  predicate ConfirmsCheckpoint(p: RunEvent, event: RunEvent)
    requires p.body.ResultProposal?
  {
    && event.runId == p.runId && event.binding == p.binding && event.body.CheckpointCommitted?
    && p.body.finalCheckpointId == Some(event.body.checkpointId)
  }

  predicate IsPart(p: RunEvent, event: RunEvent)
    requires p.body.ResultProposal?
  {
    event == p || ConfirmsMessages(p, event) || ConfirmsCheckpoint(p, event)
  }

  /** Events that are not about the run's completion: of other runs, not bound to this one, or started messages. */
  predicate IsAside(p: RunEvent, event: RunEvent) {
    event.runId != p.runId || event.binding != p.binding || event.body.MessageStarted? || event.body.OtherEvent?
  }

  predicate HasMessages(p: RunEvent, events: seq<RunEvent>)
    requires p.body.ResultProposal?
  {
    exists i | 0 <= i < |events| :: ConfirmsMessages(p, events[i])
  }

  predicate HasCheckpoint(p: RunEvent, events: seq<RunEvent>)
    requires p.body.ResultProposal?
  {
    exists i | 0 <= i < |events| :: ConfirmsCheckpoint(p, events[i])
  }

  /** New events that are the proposal or confirm it, among others, each under its own event id. */
  ghost predicate AreParts(db: Db, p: RunEvent, events: seq<RunEvent>)
    requires p.body.ResultProposal?
  {
    && (forall i | 0 <= i < |events| ::
          IsAside(p, events[i]) || (IsPart(p, events[i]) && events[i].eventId !in db.inbox))
    && (forall i, j | 0 <= i < |events| && 0 <= j < |events| && events[i].eventId == events[j].eventId ::
          events[i] == events[j])
  }

  predicate IsEverything(p: RunEvent, events: seq<RunEvent>)
    requires p.body.ResultProposal?
  {
    && p in events
    && (p.body.finalMessageIds != [] ==> HasMessages(p, events))
    && (p.body.finalCheckpointId.Some? ==> HasCheckpoint(p, events))
  }

  /** A run of which nothing has been reported yet, and which is not over. */
  predicate IsFresh(db: Db, p: RunEvent) {
    && IsValidProposal(db, p) && p.runId !in db.completions && !IsTerminal(db.runs[p.runId].state)
    && p.runId !in db.messagesPayload && p.runId !in db.checkpointPayload
  }

  /** The completion record that every order of delivery ends with. */
  function FinalRow(p: RunEvent): CompletionRow
    requires p.body.ResultProposal?
  {
    ProposalRow(p).(messagesConfirmed := p.body.finalMessageIds != [],
        checkpointConfirmed := p.body.finalCheckpointId.Some?)
  }

  function RowOf(p: RunEvent, m: bool, c: bool): CompletionRow
    requires p.body.ResultProposal?
  {
    ProposalRow(p).(messagesConfirmed := m, checkpointConfirmed := c)
  }

  /** The run is completed, and that was announced once. */
  ghost predicate IsCompleted(db0: Db, db: Db, p: RunEvent)
    requires p.body.ResultProposal? && p.runId in db0.runs
  {
    var r := p.runId;
    && r in db.runs
    && db.runs[r] == db0.runs[r].(state := Completed, terminalCode := None, activeAttemptId := None)
    && CompletedEvents(db.outbox, r)
       == CompletedEvents(db0.outbox, r) + [RunCompleted(r, p.body.attemptId, p.body.leaseEpoch, p.eventId)]
  }

  /** The run is in a state, otherwise as it was, and nothing was announced. */
  ghost predicate IsWaiting(db0: Db, db: Db, r: Uuid, state: RunState)
    requires r in db0.runs
  {
    && r in db.runs && db.runs[r] == db0.runs[r].(state := state)
    && CompletedEvents(db.outbox, r) == CompletedEvents(db0.outbox, r)
  }

  /** The payloads stored for the run are those that have been delivered. */
  ghost predicate HasPayloads(db: Db, p: RunEvent, m: bool, c: bool)
    requires p.body.ResultProposal?
  {
    var r := p.runId;
    && (r in db.messagesPayload <==> m)
    && (m ==> p.body.finalMessageIds != [] && Elements(db.messagesPayload[r]) == Elements(p.body.finalMessageIds))
    && (r in db.checkpointPayload <==> c)
    && (c ==> p.body.finalCheckpointId == Some(db.checkpointPayload[r]))
  }

  /** The run's rows, given which of the proposal and its confirmations have been consumed. */
  ghost predicate Shape(db0: Db, db: Db, p: RunEvent, proposed: bool, m: bool, c: bool)
    requires IsFresh(db0, p)
  {
    var r := p.runId;
    && HasPayloads(db, p, m, c)
    && if !proposed then r !in db.completions && IsWaiting(db0, db, r, db0.runs[r].state)
       else
         && r in db.completions && db.completions[r] == RowOf(p, m, c)
         && if IsReady(RowOf(p, m, c)) then IsCompleted(db0, db, p) else IsWaiting(db0, db, r, CompletionReconciling)
  }

  // ---------------------------------------------------------------------------------------------
  // One event

  /** The rows of a run, before convergence sets the flags of the payloads that are there. */
  ghost predicate IsUnflagged(db0: Db, db: Db, p: RunEvent, m: bool, c: bool)
    requires IsFresh(db0, p)
  {
    var r := p.runId;
    && HasPayloads(db, p, m, c) && r in db.completions
    && var row := db.completions[r];
       && row == RowOf(p, row.messagesConfirmed, row.checkpointConfirmed)
       && (row.messagesConfirmed ==> m) && (row.checkpointConfirmed ==> c)
       && (IsWaiting(db0, db, r, CompletionReconciling) || (IsReady(row) && IsCompleted(db0, db, p)))
  }

  lemma OneMoreCompleted(outbox: seq<OutEvent>, done: OutEvent)
    requires done.RunCompleted?
    ensures CompletedEvents(outbox + [done], done.runId) == CompletedEvents(outbox, done.runId) + [done]
  {
    assert (outbox + [done])[..|outbox|] == outbox;
  }

  lemma UnflaggedConverges(db0: Db, db: Db, p: RunEvent, m: bool, c: bool)
    requires IsFresh(db0, p) && IsUnflagged(db0, db, p, m, c)
    ensures Shape(db0, Converge(db, p.runId), p, true, m, c) && Converge(db, p.runId).inbox == db.inbox
  {
    hide Dedup, Elements, CompletedEvents;
    assert Flagged(db, p.runId) == RowOf(p, m, c);
    OneMoreCompleted(db.outbox, RunCompleted(p.runId, p.body.attemptId, p.body.leaseEpoch, p.eventId));
  }

  lemma ProposalPart(db0: Db, db: Db, p: RunEvent, m: bool, c: bool)
    requires IsFresh(db0, p) && Shape(db0, db, p, false, m, c) && p.eventId !in db.inbox
    ensures Shape(db0, Consume(db, p).0, p, true, m, c) && Consume(db, p).0.inbox == db.inbox + {p.eventId}
  {
    hide Dedup, Elements, CompletedEvents, Converge;
    var db1 := db.(inbox := db.inbox + {p.eventId});
    var stored := Handle(db1, p).value;
    hide Handle;
    UnflaggedConverges(db0, stored, p, m, c);
    hide Shape;
  }

  lemma ConfirmationPart(db0: Db, db: Db, p: RunEvent, event: RunEvent, proposed: bool, m: bool, c: bool)
    requires IsFresh(db0, p) && Shape(db0, db, p, proposed, m, c) && event.eventId !in db.inbox
    requires ConfirmsMessages(p, event) || ConfirmsCheckpoint(p, event)
    ensures Shape(db0, Consume(db, event).0, p, proposed, m || ConfirmsMessages(p, event),
              c || ConfirmsCheckpoint(p, event))
    ensures Consume(db, event).0.inbox == db.inbox + {event.eventId}
  {
    hide Dedup, Elements, CompletedEvents, Converge;
    var db1 := db.(inbox := db.inbox + {event.eventId});
    assert Handle(db1, event).Ok?;
    var handled := Handle(db1, event).value;
    if proposed {
      assert IsUnflagged(db0, handled, p, m || ConfirmsMessages(p, event), c || ConfirmsCheckpoint(p, event));
      hide Handle;
      UnflaggedConverges(db0, handled, p, m || ConfirmsMessages(p, event), c || ConfirmsCheckpoint(p, event));
      hide Shape;
    } else {
      NothingConverges(handled, p.runId);
    }
  }

  lemma NothingConverges(db: Db, r: Uuid)
    requires r !in db.completions
    ensures Converge(db, r) == db
  {
  }

  /** What is known of a run is in its own rows. */
  ghost predicate SameRun(db: Db, db': Db, r: Uuid) {
    && (r in db.runs <==> r in db'.runs) && (r in db.runs ==> db'.runs[r] == db.runs[r])
    && (r in db.completions <==> r in db'.completions)
    && (r in db.completions ==> db'.completions[r] == db.completions[r])
    && (r in db.messagesPayload <==> r in db'.messagesPayload)
    && (r in db.messagesPayload ==> db'.messagesPayload[r] == db.messagesPayload[r])
    && (r in db.checkpointPayload <==> r in db'.checkpointPayload)
    && (r in db.checkpointPayload ==> db'.checkpointPayload[r] == db.checkpointPayload[r])
    && CompletedEvents(db'.outbox, r) == CompletedEvents(db.outbox, r)
  }

  lemma SameRunShape(db0: Db, db: Db, db': Db, p: RunEvent, proposed: bool, m: bool, c: bool)
    requires IsFresh(db0, p) && Shape(db0, db, p, proposed, m, c) && SameRun(db, db', p.runId)
    ensures Shape(db0, db', p, proposed, m, c)
  {
    hide Dedup, Elements, CompletedEvents;
  }

  lemma OthersHandled(db: Db, event: RunEvent, r: Uuid)
    requires event.runId in db.runs && event.runId != r && Handle(db, event).Ok?
    ensures SameRun(db, Handle(db, event).value, r)
  {
    if event.body.ResultProposal? {
      hide Handle;
      HandlesProposal(db, event);
      OthersPropose(db, event, r);
    } else {
      hide Handle;
      OthersConfirm(db, event, r);
    }
  }

  lemma OthersConfirm(db: Db, event: RunEvent, r: Uuid)
    requires event.runId in db.runs && event.runId != r && !event.body.ResultProposal? && Handle(db, event).Ok?
    ensures SameRun(db, Handle(db, event).value, r)
  {
    hide Elements, Propose, CompletedEvents;
  }

  lemma OthersPropose(db: Db, event: RunEvent, r: Uuid)
    requires event.runId in db.runs && event.runId != r && event.body.ResultProposal? && Propose(db, event).Ok?
    ensures SameRun(db, Propose(db, event).value, r)
  {
    hide Dedup, Elements, SameProposal, CompletedEvents;
  }

  lemma AttemptStatesKeepTables()
    ensures forall db, a, state :: var db' := SetAttemptState(db, a, state); db' == db.(attempts := db'.attempts)
  {
  }

  lemma OthersConverge(db: Db, q: Uuid, r: Uuid)
    requires q != r
    ensures SameRun(db, Converge(db, q), r)
  {
    hide IsReady, Flagged, CompletedEvents, SetAttemptState;
    AttemptStatesKeepTables();
    var db' := Converge(db, q);
    if db'.outbox != db.outbox {
      assert db'.outbox == db.outbox + [db'.outbox[|db.outbox|]];
      NotCompleted(db.outbox, [db'.outbox[|db.outbox|]], r);
    }
  }

  lemma SameRunTransitive(x: Db, y: Db, z: Db, r: Uuid)
    requires SameRun(x, y, r) && SameRun(y, z, r)
    ensures SameRun(x, z, r)
  {
  }

  /** An event aside leaves the run's rows alone; its own id may join the inbox. */
  lemma AsideKeepsRun(db: Db, p: RunEvent, event: RunEvent)
    requires p.runId in db.runs && db.runs[p.runId].binding == p.binding && IsAside(p, event)
    ensures var db' := Consume(db, event).0;
            SameRun(db, db', p.runId) && (db'.inbox == db.inbox || db'.inbox == db.inbox + {event.eventId})
  {
    hide Converge, SameRun;
    var r := p.runId;
    var db1 := db.(inbox := db.inbox + {event.eventId});
    assert SameRun(db, db, r) && SameRun(db, db1, r) by { SameTables(db, db1, r); }
    if event.eventId !in db.inbox && event.runId in db.runs && event.binding == db.runs[event.runId].binding
       && Handle(db1, event).Ok? {
      if event.runId != r {
        OthersHandled(db1, event, r);
        var handled := Handle(db1, event).value;
        OthersConverge(handled, event.runId, r);
        SameRunTransitive(db, db1, handled, r);
        SameRunTransitive(db, handled, Converge(handled, event.runId), r);
        ConvergeInbox(handled, event.runId);
        HandleInbox(db1, event);
      } else {
        SameTables(db, Handle(db1, event).value, r);
      }
    }
  }

  lemma SameTables(db: Db, db': Db, r: Uuid)
    requires db' == db.(inbox := db'.inbox, attempts := db'.attempts)
    ensures SameRun(db, db, r) && SameRun(db, db', r)
  {
  }

  lemma HandleInbox(db: Db, event: RunEvent)
    requires event.runId in db.runs && Handle(db, event).Ok?
    ensures Handle(db, event).value.inbox == db.inbox
  {
    hide Dedup, Elements, SameProposal;
  }

  lemma ConvergeInbox(db: Db, r: Uuid)
    ensures Converge(db, r).inbox == db.inbox
  {
    hide Flagged, IsReady;
  }

  // ---------------------------------------------------------------------------------------------
  // All events

  function Ids(events: seq<RunEvent>): set<Uuid> {
    set i | 0 <= i < |events| :: events[i].eventId
  }

  /** What has been consumed is what has been delivered. */
  ghost predicate Progress(db0: Db, db: Db, p: RunEvent, events: seq<RunEvent>)
    requires IsFresh(db0, p)
  {
    && Shape(db0, db, p, p in events, HasMessages(p, events), HasCheckpoint(p, events))
    && db.inbox <= db0.inbox + Ids(events)
    && forall i | 0 <= i < |events| && IsPart(p, events[i]) :: events[i].eventId in db.inbox
  }

  lemma SeenAppend(p: RunEvent, events: seq<RunEvent>, event: RunEvent)
    requires p.body.ResultProposal?
    ensures (p in events + [event]) == (p in events || event == p)
    ensures HasMessages(p, events + [event]) == (HasMessages(p, events) || ConfirmsMessages(p, event))
    ensures HasCheckpoint(p, events + [event]) == (HasCheckpoint(p, events) || ConfirmsCheckpoint(p, event))
    ensures Ids(events + [event]) == Ids(events) + {event.eventId}
    ensures forall i | 0 <= i < |events + [event]| ::
              (events + [event])[i] == event || (i < |events| && (events + [event])[i] == events[i])
  {
    var all := events + [event];
    assert all[|events|] == event && forall i | 0 <= i < |events| :: all[i] == events[i];
    hide Elements;
    if HasMessages(p, events) {
      var i :| 0 <= i < |events| && ConfirmsMessages(p, events[i]);
      assert ConfirmsMessages(p, all[i]);
    }
    if HasCheckpoint(p, events) {
      var i :| 0 <= i < |events| && ConfirmsCheckpoint(p, events[i]);
      assert ConfirmsCheckpoint(p, all[i]);
    }
    forall id | id in Ids(events) ensures id in Ids(all) {
      var i :| 0 <= i < |events| && events[i].eventId == id;
      assert all[i].eventId == id;
    }
  }

  /** A part that has been consumed before was delivered before. */
  lemma ConsumedBefore(db0: Db, db: Db, p: RunEvent, events: seq<RunEvent>, event: RunEvent)
    requires IsFresh(db0, p) && AreParts(db0, p, events + [event]) && IsPart(p, event) && !IsAside(p, event)
    requires db.inbox <= db0.inbox + Ids(events) && event.eventId in db.inbox
    ensures event in events
  {
    var all := events + [event];
    assert all[|events|] == event;
    assert event.eventId !in db0.inbox;
    var i :| 0 <= i < |events| && events[i].eventId == event.eventId;
    assert all[i] == events[i];
  }

  lemma PartIsNotAside(db: Db, p: RunEvent, event: RunEvent)
    requires p.body.ResultProposal? && IsPart(p, event)
    ensures !IsAside(p, event)
  {
  }

  /** Delivering one more event keeps the shape in step with what was delivered. */
  lemma DeliveredShape(db0: Db, db: Db, p: RunEvent, events: seq<RunEvent>, event: RunEvent)
    requires IsFresh(db0, p) && AreParts(db0, p, events + [event]) && Progress(db0, db, p, events)
    ensures var db' := Consume(db, event).0;
            && Shape(db0, db', p, p in events || event == p, HasMessages(p, events) || ConfirmsMessages(p, event),
                     HasCheckpoint(p, events) || ConfirmsCheckpoint(p, event))
            && (db'.inbox == db.inbox || db'.inbox == db.inbox + {event.eventId})
            && (IsPart(p, event) ==> event.eventId in db'.inbox)
  {
    assert (events + [event])[|events|] == event;
    hide Consume, Shape, Elements;
    var proposed, m, c := p in events, HasMessages(p, events), HasCheckpoint(p, events);
    if IsPart(p, event) {
      PartIsNotAside(db, p, event);
      if event.eventId in db.inbox {
        ConsumedBefore(db0, db, p, events, event);
        Repeated(db, event);
        var i :| 0 <= i < |events| && events[i] == event;
      } else if event == p {
        assert !proposed;
        ProposalPart(db0, db, p, m, c);
      } else {
        ConfirmationPart(db0, db, p, event, proposed, m, c);
      }
    } else {
      ShapeHasRun(db0, db, p, proposed, m, c);
      AsideKeepsRun(db, p, event);
      SameRunShape(db0, db, Consume(db, event).0, p, proposed, m, c);
    }
  }

  lemma Repeated(db: Db, event: RunEvent)
    requires event.eventId in db.inbox
    ensures Consume(db, event).0 == db
  {
  }

  lemma ShapeHasRun(db0: Db, db: Db, p: RunEvent, proposed: bool, m: bool, c: bool)
    requires IsFresh(db0, p) && Shape(db0, db, p, proposed, m, c)
    ensures p.runId in db.runs && db.runs[p.runId].binding == p.binding
  {
  }

  lemma DeliveredPart(db0: Db, db: Db, p: RunEvent, events: seq<RunEvent>, event: RunEvent)
    requires IsFresh(db0, p) && AreParts(db0, p, events + [event]) && Progress(db0, db, p, events)
    ensures Progress(db0, Consume(db, event).0, p, events + [event])
  {
    DeliveredShape(db0, db, p, events, event);
    SeenAppend(p, events, event);
    hide Consume, Shape, HasMessages, HasCheckpoint, IsPart, Ids, ConfirmsMessages, ConfirmsCheckpoint;
  }

  lemma {:induction false} DeliveredParts(db0: Db, p: RunEvent, events: seq<RunEvent>)
    requires IsFresh(db0, p) && AreParts(db0, p, events)
    ensures Progress(db0, DeliverAll(db0, events), p, events)
  {
    hide Consume;
    if events != [] {
      var before, last := events[..|events| - 1], events[|events| - 1];
      assert events == before + [last];
      PrefixParts(db0, p, before, [last]);
      DeliveredParts(db0, p, before);
      DeliveredPart(db0, DeliverAll(db0, before), p, before, last);
    }
  }

  /**
   With no cancel, no loss and no start in between, a proposal and its confirmations, delivered in
   any order and any number of times and among any events of other runs and started messages, always
   complete the run with the same completion record and announce it once more.
   */
  lemma Confluence(db: Db, p: RunEvent, events: seq<RunEvent>)
    requires IsFresh(db, p) && AreParts(db, p, events) && IsEverything(p, events)
    ensures var db' := DeliverAll(db, events);
            && IsCompleted(db, db', p)
            && p.runId in db'.completions && db'.completions[p.runId] == FinalRow(p)
  {
    DeliveredParts(db, p, events);
    hide Dedup, CompletedEvents;
  }

  /** Nothing short of everything completes it. */
  lemma CompletedIffEverything(db: Db, p: RunEvent, events: seq<RunEvent>)
    requires IsFresh(db, p) && AreParts(db, p, events)
    ensures var db' := DeliverAll(db, events);
            p.runId in db'.runs && (db'.runs[p.runId].state == Completed <==> IsEverything(p, events))
  {
    DeliveredParts(db, p, events);
    hide Dedup, CompletedEvents;
  }

  // ---------------------------------------------------------------------------------------------
  // A start that commits late

  /** A proposal is stored, but the run has left the state that completion starts from. */
  ghost predicate IsStranded(db: Db, r: Uuid) {
    r in db.runs && r in db.completions && db.runs[r].state == Running && db.runs[r].activeAttemptId.Some?
  }

  lemma StrandedHandle(db: Db, event: RunEvent, r: Uuid)
    requires IsStranded(db, r) && event.runId in db.runs && Handle(db, event).Ok?
    ensures var h := Handle(db, event).value; IsStranded(h, r) && h.runs[r] == db.runs[r]
  {
    hide Dedup, Elements, SameProposal;
  }

  lemma StrandedStep(db: Db, event: RunEvent, r: Uuid)
    requires IsStranded(db, r)
    ensures var db' := Consume(db, event).0; IsStranded(db', r) && db'.runs[r] == db.runs[r]
  {
    hide Handle, Flagged, IsReady;
    var db1 := db.(inbox := db.inbox + {event.eventId});
    if event.runId in db.runs && Handle(db1, event).Ok? {
      StrandedHandle(db1, event, r);
    }
  }

  /** No event whatever moves a stranded run again. */
  lemma {:induction false} StrandedForever(db: Db, events: seq<RunEvent>, r: Uuid)
    requires IsStranded(db, r)
    ensures var db' := DeliverAll(db, events); IsStranded(db', r) && db'.runs[r] == db.runs[r]
  {
    hide Consume;
    if events != [] {
      StrandedForever(db, events[..|events| - 1], r);
      StrandedStep(DeliverAll(db, events[..|events| - 1]), events[|events| - 1], r);
    }
  }

  lemma StartBeforeProposal(db0: Db, db: Db, p: RunEvent, events: seq<RunEvent>)
    requires IsFresh(db0, p) && Progress(db0, db, p, events) && p !in events
    ensures var a := p.body.attemptId;
            && IsFresh(StartCommitted(db0, p.runId, a), p)
            && Progress(StartCommitted(db0, p.runId, a), StartCommitted(db, p.runId, a), p, events)
  {
    hide Dedup, Elements, HasMessages, HasCheckpoint, CompletedEvents;
  }

  lemma {:induction false} DeliverFrom(db0: Db, db: Db, p: RunEvent, before: seq<RunEvent>, after: seq<RunEvent>)
    requires IsFresh(db0, p) && AreParts(db0, p, before + after) && Progress(db0, db, p, before)
    ensures Progress(db0, DeliverAll(db, after), p, before + after)
    decreases |after|
  {
    hide Consume, Progress;
    if after == [] {
      assert before + after == before;
    } else {
      var init, last := after[..|after| - 1], after[|after| - 1];
      assert before + after == (before + init) + [last];
      PrefixParts(db0, p, before + init, [last]);
      DeliverFrom(db0, db, p, before, init);
      DeliveredPart(db0, DeliverAll(db, init), p, before + init, last);
    }
  }

  /**
   The last update of a start matches on the active attempt alone. When it commits while the same
   attempt's proposal is already reconciling, the run is set back to running and stays there: all
   the parts complete the run if and only if the start did not find its proposal reconciling.
   */
  lemma CompletesIffStartNotLate(db: Db, p: RunEvent, before: seq<RunEvent>, after: seq<RunEvent>)
    requires IsFresh(db, p) && AreParts(db, p, before + after) && IsEverything(p, before + after)
    ensures var r, a := p.runId, p.body.attemptId;
            var found := DeliverAll(db, before);
            var db' := DeliverAll(StartCommitted(found, r, a), after);
            && r in found.runs && r in db'.runs
            && (db'.runs[r].state == Completed
                <==> !(r in found.completions && found.runs[r].state == CompletionReconciling))
  {
    hide Dedup, Consume, HasMessages, HasCheckpoint, CompletedEvents, Elements;
    var r, a := p.runId, p.body.attemptId;
    var found := DeliverAll(db, before);
    assert AreParts(db, p, before) by { PrefixParts(db, p, before, after); }
    DeliveredParts(db, p, before);
    var started := StartCommitted(found, r, a);
    if p !in before {
      StartBeforeProposal(db, found, p, before);
      SameInbox(db, p, before + after, r, a);
      DeliverFrom(StartCommitted(db, r, a), started, p, before, after);
    } else if found.runs[r].state == Completed {
      CompletedStays(started, after, r);
    } else {
      StrandedForever(started, after, r);
    }
  }

  lemma PrefixParts(db: Db, p: RunEvent, before: seq<RunEvent>, after: seq<RunEvent>)
    requires p.body.ResultProposal? && AreParts(db, p, before + after)
    ensures AreParts(db, p, before)
  {
    assert forall i | 0 <= i < |before| :: (before + after)[i] == before[i];
  }

  lemma SameInbox(db: Db, p: RunEvent, events: seq<RunEvent>, r: Uuid, a: Uuid)
    requires p.body.ResultProposal? && AreParts(db, p, events)
    ensures AreParts(StartCommitted(db, r, a), p, events)
  {
  }

  lemma {:induction false} CompletedStays(db: Db, events: seq<RunEvent>, r: Uuid)
    requires r in db.runs && db.runs[r].state == Completed
    ensures var db' := DeliverAll(db, events); r in db'.runs && db'.runs[r] == db.runs[r]
  {
    hide Consume;
    if events != [] {
      CompletedStays(db, events[..|events| - 1], r);
      RunnerOutcomes.ConsumeFrame(DeliverAll(db, events[..|events| - 1]), events[|events| - 1]);
    }
  }

  // ---------------------------------------------------------------------------------------------
  // A run that a late start strands

  const EARLY_PROPOSAL := RunEvent(90, 1, RunnerOutcomes.FIRST_USER, ResultProposal(10, 1, [5], None, [Messages]))

  lemma EarlyProposalIsStored(db: Db)
    requires db.runs == map[1 := RunRow(RunnerOutcomes.FIRST_USER, Starting, Some(10), 1, None)] && db.inbox == {}
    requires db.completions == map[] && db.messagesPayload == map[] && db.checkpointPayload == map[]
    ensures var db' := Consume(db, EARLY_PROPOSAL).0;
            && db'.runs == map[1 := RunRow(RunnerOutcomes.FIRST_USER, CompletionReconciling, Some(10), 1, None)]
            && 1 in db'.completions && db'.attempts == db.attempts && db'.inbox == {90}
  {
    DedupMembers([Messages]);
  }

  /** From nothing: a run whose proposal overtakes the commit of its start is stranded. */
  lemma LateStartStrands() returns (steps: seq<Lifecycle.Step>)
    ensures IsStranded(Run(RunnerOutcomes.ONE_RUN, EMPTY, steps), 1)
  {
    hide Consume, Schedule, IsNextNumber;
    var config := RunnerOutcomes.ONE_RUN;
    var s1, s2 := ConsumeEvent(EARLY_PROPOSAL), CommitStart(1, 10);
    var start, db := RunnerOutcomes.FirstAttempt([s1] + ([s2] + []));
    steps := start + ([s1] + ([s2] + []));
    EarlyProposalIsStored(db);
    RunnerOutcomes.TakeStep(config, db, s1, [s2] + []);
    var db1 := Lifecycle.Apply(config, db, s1);
    RunnerOutcomes.TakeStep(config, db1, s2, []);
  }
}
