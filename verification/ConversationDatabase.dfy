/**
 The conversation service's tables as mutable state: one method per transaction of the source, which
 updates the tables statement by statement and puts them back when it raises.
 */
module ConversationDatabase {
  import opened Wrappers
  import opened Utf8
  import opened Protocol
  import AgentSdk
  import opened ConversationStore
  import opened Presentation

  /** How the handler of an event's kind ends: it has raised, or it has done what the change says. */
  ghost predicate Performs(r: Result<Change, string>, s': Store, outcome: Result<Option<nat>, string>)
    requires r.Ok? ==> r.value.Showing? ==> r.value.conv in r.value.store.conversations
  {
    match r
    case Err(code) => outcome == Err(code)
    case Ok(c) => outcome == Ok(Number(c)) && s' == Finish(c)
  }

  class PostgresStore {
    var conversations: map<Uuid, ConversationRow>
    var messages: map<Uuid, MessageRow>
    var chunks: map<Uuid, map<nat, string>>
    var inputs: map<Uuid, InputRow>
    var commitments: map<Uuid, Commitment>
    var proposals: map<Uuid, ProposalRow>
    var events: map<Uuid, seq<PresentationEvent>>
    var idempotency: map<IdempotencyKey, IdempotencyRow>
    var inbox: set<Uuid>
    var outbox: seq<OutEvent>
    const sha: seq<Byte> -> Digest

    function State(): Store
      reads this
    {
      Store(conversations, messages, chunks, inputs, commitments, proposals, events, idempotency, inbox, outbox)
    }

    constructor (sha: seq<Byte> -> Digest)
      ensures State() == EMPTY && this.sha == sha
    {
      this.sha := sha;
      conversations, messages, chunks, inputs, commitments := map[], map[], map[], map[], map[];
      proposals, events, idempotency, inbox, outbox := map[], map[], map[], {}, [];
    }

    method Restore(saved: Store)
      modifies this
      ensures State() == saved
    {
      conversations, messages, chunks, inputs := saved.conversations, saved.messages, saved.chunks, saved.inputs;
      commitments, proposals, events := saved.commitments, saved.proposals, saved.events;
      idempotency, inbox, outbox := saved.idempotency, saved.inbox, saved.outbox;
    }

    // -------------------------------------------------------------------------------------------
    // Parts of transactions

    method DoPresent(conv: Uuid, shown: Shown) returns (sequence: nat)
      requires conv in conversations
      modifies `conversations, `events
      ensures State() == Present(old(State()), conv, shown) && sequence == Next(old(State()), conv)
    {
      sequence := conversations[conv].lastSequence + 1;
      conversations := conversations[conv := conversations[conv].(lastSequence := sequence)];
      events := events[conv := EventsOf(State(), conv) + [PresentationEvent(sequence, shown)]];
    }

    method RequireStreaming(m: Uuid, conv: Uuid) returns (problem: Option<string>)
      ensures problem == StreamingProblem(State(), m, conv)
    {
      if m !in messages || messages[m].conversationId != conv {
        return Some("message_not_started");
      }
      if messages[m].status != Streaming {
        return Some("message_terminal");
      }
      return None;
    }

    /** The rows of messages that are completed, of the run, listed, and of the conversation if one is given. */
    method CountDone(run: Uuid, conv: Option<Uuid>, ids: seq<Uuid>) returns (count: nat)
      ensures count == |DoneAmong(State(), run, conv, ids)|
    {
      ghost var done := DoneAmong(State(), run, conv, ids);
      ghost var counted: set<Uuid> := {};
      count := 0;
      var rest := messages.Keys;
      while rest != {}
        invariant rest <= messages.Keys && counted !! rest && counted <= done
        invariant count == |counted| && done == DoneAmong(State(), run, conv, ids)
        invariant forall m | m in done :: m in counted || m in rest
        decreases rest
      {
        var m :| m in rest;
        rest := rest - {m};
        var row := messages[m];
        if m in ids && row.runId == run && row.status == Completed
            && (conv.Some? ==> row.conversationId == conv.value) {
          count := count + 1;
          counted := counted + {m};
        }
      }
      assert counted == done;
    }

    method DoConfirm(run: Uuid, ids: seq<Uuid>)
      requires Refs(State()) && run in proposals
      modifies `proposals, `outbox
      ensures State() == Confirm(old(State()), run, ids)
    {
      var proposal := proposals[run];
      if proposal.confirmed {
        return;
      }
      var last := |EventsOf(State(), proposal.conversationId)|;
      outbox := outbox + [MessagesCommitted(run, proposal.conversationId, ids, if last >= 1 then last else 1)];
      proposals := proposals[run := proposal.(confirmed := true)];
    }

    method DoReconcile(k: Uuid) returns (outcome: Result<Option<nat>, string>)
      requires Refs(State())
      modifies `inputs, `conversations, `events
      ensures Performs(Reconcile(old(State()), k), State(), outcome)
    {
      if k !in inputs || k !in commitments {
        return Ok(None);
      }
      var request := inputs[k];
      if !Agree(k, request, commitments[k]) {
        return Err("suspension_conflict");
      }
      if request.state != Reserved {
        return Ok(None);
      }
      inputs := inputs[k := request.(state := Pending)];
      var sequence := DoPresent(request.conversationId, RequestCreated(k, request.checkpointId, request.prompt));
      return Ok(Some(sequence));
    }

    // -------------------------------------------------------------------------------------------
    // The kinds of runtime event

    method DoProposal(e: Envelope) returns (outcome: Result<Option<nat>, string>)
      requires Refs(State()) && e.conversationId in conversations && e.data.ProposedEvent?
      modifies this
      ensures Performs(Ok(ProjectProposal(old(State()), e)), State(), outcome)
    {
      var run, ids := e.key.runId, e.data.finalMessageIds;
      if ids == [] || Messages !in e.data.required {
        return Ok(None);
      }
      var count := CountDone(run, Some(e.conversationId), ids);
      if run !in proposals {
        proposals := proposals[run := ProposalRow(e.id, e.conversationId, ids, false)];
      }
      assert State() == StoreProposal(old(State()), e);
      hide DoneAmong, Confirm, StoreProposal;
      if count == |ids| {
        DoConfirm(run, ids);
      }
      var sequence := DoPresent(e.conversationId, RuntimeEvent(e.data));
      return Ok(Some(sequence));
    }

    method DoSuspension(e: Envelope) returns (outcome: Result<Option<nat>, string>)
      requires Refs(State()) && e.conversationId in conversations && e.data.SuspendedEvent?
      modifies this
      ensures Performs(ProjectSuspension(old(State()), e), State(), outcome)
    {
      var k := e.data.suspensionId;
      if k !in commitments {
        commitments := commitments[k := CommitmentOf(e)];
      }
      if commitments[k] != CommitmentOf(e) {
        return Err("suspension_conflict");
      }
      assert State() == old(State()).(commitments := old(commitments)[k := CommitmentOf(e)]);
      hide Reconcile;
      outcome := DoReconcile(k);
    }

    method DoRequest(e: Envelope) returns (outcome: Result<Option<nat>, string>)
      requires Refs(State()) && e.conversationId in conversations && e.data.InputProposedEvent?
      modifies this
      ensures Performs(ProjectRequest(old(State()), e), State(), outcome)
    {
      var k := e.data.suspensionId;
      if e.data.prompt.None? {
        return Err("key_error");
      }
      if k !in inputs {
        inputs := inputs[k := RequestOf(e)];
      }
      hide Reconcile;
      outcome := DoReconcile(k);
    }

    method DoStarted(e: Envelope) returns (outcome: Result<Option<nat>, string>)
      requires Refs(State()) && e.conversationId in conversations && e.data.StartedEvent?
      modifies this
      ensures Performs(Ok(ProjectStarted(old(State()), e)), State(), outcome)
    {
      var m := e.data.messageId;
      if m !in messages {
        messages := messages[m := MessageRow(e.conversationId, e.key.runId, Assistant, Streaming, "")];
      }
      var sequence := DoPresent(e.conversationId, RuntimeEvent(e.data));
      return Ok(Some(sequence));
    }

    method DoDelta(e: Envelope) returns (outcome: Result<Option<nat>, string>)
      requires Refs(State()) && e.conversationId in conversations && e.data.DeltaEvent?
      modifies this
      ensures Performs(ProjectDelta(old(State()), e), State(), outcome)
    {
      var m, n, content := e.data.messageId, e.data.chunkSequence, e.data.content;
      var problem := RequireStreaming(m, e.conversationId);
      if problem.Some? {
        return Err(problem.value);
      }
      if n < 1 || content == "" || |Encode(content)| > MAX_DELTA_BYTES {
        return Err("delta_invalid");
      }
      var stored := ChunksOf(State(), m);
      if n in stored && stored[n] != content {
        return Err("delta_conflict");
      }
      chunks := chunks[m := stored[n := content]];
      hide Encode;
      var sequence := DoPresent(e.conversationId, RuntimeEvent(e.data));
      return Ok(Some(sequence));
    }

    /** validate_completion on the stored chunks. */
    method Validate(data: EventData, stored: map<nat, string>) returns (problem: Option<string>)
      requires data.CompletedEvent?
      ensures problem == CompletionProblem(sha, data, stored)
    {
      if data.chunkCount.None? || data.contentBytes.None? {
        return Some("completion_invalid");
      }
      var encoded, count := Encode(data.content), data.chunkCount.value;
      if |encoded| > MAX_MESSAGE_BYTES || count > MAX_CHUNKS {
        return Some("completion_invalid");
      }
      if |encoded| != data.contentBytes.value || sha(encoded) != data.contentSha256 {
        return Some("completion_invalid");
      }
      if !AreNumbered(stored, count) {
        return Some("completion_incomplete");
      }
      var text := "";
      for n := 0 to count
        invariant text == TextUpTo(stored, n)
      {
        text := text + stored[n + 1];
      }
      if text != data.content {
        return Some("completion_mismatch");
      }
      return None;
    }

    method DoCompleted(e: Envelope) returns (outcome: Result<Option<nat>, string>)
      requires Refs(State()) && e.conversationId in conversations && e.data.CompletedEvent?
      modifies this
      ensures Performs(ProjectCompleted(sha, old(State()), e), State(), outcome)
    {
      var m, run := e.data.messageId, e.key.runId;
      var problem := RequireStreaming(m, e.conversationId);
      if problem.Some? {
        return Err(problem.value);
      }
      var invalid := Validate(e.data, ChunksOf(State(), m));
      if invalid.Some? {
        return Err(invalid.value);
      }
      messages := messages[m := messages[m].(status := Completed, content := e.data.content)];
      assert State() == EndMessage(old(State()), m, Completed, e.data.content);
      hide CompletionProblem, DoneAmong, Confirm;
      if run in proposals {
        var ids := proposals[run].finalMessageIds;
        var completed := CountDone(run, None, ids);
        if completed == |ids| {
          DoConfirm(run, ids);
        }
      }
      assert State() == ConfirmIfDone(EndMessage(old(State()), m, Completed, e.data.content), run);
      hide ConfirmIfDone, EndMessage;
      var sequence := DoPresent(e.conversationId, RuntimeEvent(e.data));
      return Ok(Some(sequence));
    }

    /** The stored chunks in the order of their numbers, joined. */
    method JoinChunks(stored: map<nat, string>) returns (text: string)
      ensures text == Text(stored)
    {
      text := "";
      ghost var last := 0;
      var rest := stored.Keys;
      while rest != {}
        invariant rest <= stored.Keys && text == TextUpTo(stored, last)
        invariant forall n | n in stored :: n in rest <==> n > last || (n == 0 && n in rest)
        decreases rest
      {
        var n := AgentSdk.Smallest(rest);
        if n > 0 {
          GapAddsNothing(stored, last, n - 1);
          text := text + stored[n];
          last := n;
        }
        rest := rest - {n};
      }
      TextIs(stored, last);
    }

    method DoEnded(e: Envelope) returns (outcome: Result<Option<nat>, string>)
      requires Refs(State()) && e.conversationId in conversations && (e.data.InterruptedEvent? || e.data.FailedEvent?)
      modifies this
      ensures Performs(ProjectEnded(old(State()), e), State(), outcome)
    {
      var m := e.data.messageId;
      var problem := RequireStreaming(m, e.conversationId);
      if problem.Some? {
        return Err(problem.value);
      }
      var content := JoinChunks(ChunksOf(State(), m));
      var status := if e.data.InterruptedEvent? then Interrupted else Failed;
      messages := messages[m := messages[m].(status := status, content := content)];
      hide Text;
      var sequence := DoPresent(e.conversationId, RuntimeEvent(e.data));
      return Ok(Some(sequence));
    }

    method DoKind(e: Envelope) returns (outcome: Result<Option<nat>, string>)
      requires Refs(State()) && e.conversationId in conversations
      modifies this
      ensures Performs(ProjectData(sha, old(State()), e), State(), outcome)
    {
      hide ProjectProposal, ProjectSuspension, ProjectStarted, ProjectDelta, ProjectCompleted, ProjectEnded,
        ProjectRequest;
      match e.data {
        case ProposedEvent(_, _, _) => outcome := DoProposal(e);
        case SuspendedEvent(_, _, _) => outcome := DoSuspension(e);
        case StartedEvent(_) => outcome := DoStarted(e);
        case DeltaEvent(_, _, _) => outcome := DoDelta(e);
        case CompletedEvent(_, _, _, _, _) => outcome := DoCompleted(e);
        case InterruptedEvent(_, _) => outcome := DoEnded(e);
        case FailedEvent(_, _) => outcome := DoEnded(e);
        case InputProposedEvent(_, _, _) => outcome := DoRequest(e);
        case OtherEvent => outcome := Err("event_unsupported");
      }
    }

    // -------------------------------------------------------------------------------------------
    // The transactions

    method DoProject(e: Envelope) returns (outcome: Result<Option<nat>, string>)
      requires Refs(State())
      modifies this
      ensures (State(), outcome) == Project(sha, old(State()), e)
    {
      hide ProjectData, Finish, Number;
      if e.id in inbox {
        return Ok(None);
      }
      if !Owned(State(), e.userId, e.conversationId) {
        return Err("conversation_not_found");
      }
      if e.threadId != conversations[e.conversationId].threadId {
        return Err("event_invalid");
      }
      var saved := State();
      outcome := DoKind(e);
      if outcome.Err? {
        Restore(saved);
        return;
      }
      FinishTables(ProjectData(sha, saved, e).value);
      inbox := inbox + {e.id};
    }

    method DoOpen(conv: Uuid, ownerId: Uuid, threadId: Uuid) returns (outcome: Result<(), string>)
      modifies this
      ensures (State(), outcome) == Open(old(State()), conv, ownerId, threadId)
    {
      if conv in conversations || exists c | c in conversations :: conversations[c].threadId == threadId {
        return Err("unique_violation");
      }
      conversations := conversations[conv := ConversationRow(ownerId, threadId, 0)];
      return Ok(());
    }

    method DoPost(ownerId: Uuid, conv: Uuid, key: string, request: Request) returns (outcome: Result<nat, string>)
      requires request.NewMessage?
      modifies this
      ensures (State(), outcome) == Post(old(State()), ownerId, conv, key, request)
    {
      var m := request.messageId;
      var idempotencyKey := IdempotencyKey(ownerId, PostTo(conv), key);
      if !Owned(State(), ownerId, conv) {
        return Err("conversation_not_found");
      }
      if idempotencyKey in idempotency {
        if idempotency[idempotencyKey].request != request {
          return Err("idempotency_conflict");
        }
        return Ok(idempotency[idempotencyKey].conversationSequence);
      }
      if m in messages {
        return Err("message_exists");
      }
      messages := messages[m := MessageRow(conv, request.runId, User, Completed, request.content)];
      var sequence := DoPresent(conv, UserMessage(m, request.content));
      outbox := outbox + [RunRequested(ownerId, conv, conversations[conv].threadId, request.runId,
          ByMessage(m, request.content))];
      idempotency := idempotency[idempotencyKey := IdempotencyRow(request, sequence)];
      return Ok(sequence);
    }

    method DoAnswer(ownerId: Uuid, requestId: RequestId, key: string, answer: Answer)
      returns (outcome: Result<nat, string>)
      requires Refs(State())
      modifies this
      ensures (State(), outcome) == AnswerInput(old(State()), ownerId, requestId, key, answer)
    {
      var idempotencyKey := IdempotencyKey(ownerId, AnswerTo(requestId), key);
      if !requestId.OfSuspension? || requestId.suspensionId !in inputs
         || !Owned(State(), ownerId, inputs[requestId.suspensionId].conversationId) {
        return Err("input_request_not_found");
      }
      if idempotencyKey in idempotency {
        if idempotency[idempotencyKey].request != NewAnswer(answer) {
          return Err("idempotency_conflict");
        }
        return Ok(idempotency[idempotencyKey].conversationSequence);
      }
      var k := requestId.suspensionId;
      var row := inputs[k];
      if row.state != Pending {
        return Err("input_already_answered");
      }
      inputs := inputs[k := row.(state := Answered, answer := Some(answer))];
      var conv := row.conversationId;
      var sequence := DoPresent(conv, ResponseAccepted(requestId));
      outbox := outbox + [RunRequested(ownerId, conv, conversations[conv].threadId, answer.runId,
                                       ByResponse(requestId, answer.response, row.checkpointId))];
      idempotency := idempotency[idempotencyKey := IdempotencyRow(NewAnswer(answer), sequence)];
      return Ok(sequence);
    }

    // -------------------------------------------------------------------------------------------
    // Reading

    method DoReplay(ownerId: Uuid, conv: Uuid, cursor: nat, limit: nat)
      returns (page: Result<seq<PresentationEvent>, string>)
      ensures page == Replay(State(), ownerId, conv, cursor, limit)
    {
      if !Owned(State(), ownerId, conv) {
        return Err("conversation_not_found");
      }
      var all := EventsOf(State(), conv);
      var rows: seq<PresentationEvent> := [];
      assert all[0..] == all && [] + After(all, cursor) == After(all, cursor);
      for i := 0 to |all|
        invariant rows + After(all[i..], cursor) == After(all, cursor)
      {
        assert all[i..][0] == all[i] && all[i..][1..] == all[i + 1..];
        if all[i].sequence > cursor {
          assert rows + ([all[i]] + After(all[i + 1..], cursor)) == rows + [all[i]] + After(all[i + 1..], cursor);
          rows := rows + [all[i]];
        }
      }
      assert all[|all|..] == [] && rows + [] == rows;
      return Ok(Limited(rows, limit));
    }

    /**
     The stream of events to a reader, up to the first empty page: exactly the events that the reader
     has missed, whatever cursor it starts from and however long the pages are.
     */
    method ReadMissing(ownerId: Uuid, conv: Uuid, lastEventId: nat, limit: nat)
      returns (missed: Result<seq<PresentationEvent>, string>)
      requires Numbered(State(), conv) && limit >= 1
      ensures missed.Err? <==> !Owned(State(), ownerId, conv)
      ensures missed.Ok? ==> missed.value == From(EventsOf(State(), conv), lastEventId)
    {
      var pending := DoReplay(ownerId, conv, lastEventId, limit);
      if pending.Err? {
        return pending;
      }
      ghost var all := EventsOf(State(), conv);
      ghost var s := State();
      var cursor, read := lastEventId, [];
      hide Numbered, Replay, EventsOf, Owned;
      while pending.value != []
        invariant s == State() && pending == Replay(s, ownerId, conv, cursor, limit) && pending.Ok?
        invariant cursor == lastEventId + |read|
        invariant read != [] ==> cursor <= |all| && read == all[lastEventId..cursor]
        decreases |all| - cursor
      {
        ghost var page := NextPage(s, ownerId, conv, cursor, limit);
        PageAndRest(all, all, lastEventId, read, page);
        read := read + pending.value;
        cursor := Cursor(cursor, pending.value);
        pending := DoReplay(ownerId, conv, cursor, limit);
      }
      ReplayIsExact(s, ownerId, conv, cursor, limit);
      return Ok(read);
    }
  }
}
