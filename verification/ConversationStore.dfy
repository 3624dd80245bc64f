/**
 The conversation service's tables and its transactions: projecting a runtime event, posting a
 user message, answering an input request and replaying presentation events. Each transaction is a
 function from one store to the next that changes nothing when it raises.
 */
module ConversationStore {
  import opened Wrappers
  import opened Utf8
  import opened Protocol

  const MAX_MESSAGE_BYTES: nat := 256 * 1024
  const MAX_CHUNKS: nat := 65536
  const MAX_DELTA_BYTES: nat := 4096

  datatype Role = User | Assistant

  datatype Status = Streaming | Completed | Interrupted | Failed

  datatype InputState = Reserved | Pending | Answered

  datatype ConversationRow = ConversationRow(ownerId: Uuid, threadId: Uuid, lastSequence: nat)

  datatype MessageRow = MessageRow(conversationId: Uuid, runId: Uuid, role: Role, status: Status, content: string)

  datatype Answer = Answer(runId: Uuid, response: string)

  /** A row of input_requests, whose id derives from the suspension it is unique on. */
  datatype InputRow = InputRow(
    conversationId: Uuid, runId: Uuid, checkpointId: Uuid, prompt: string, state: InputState, answer: Option<Answer>)

  datatype Commitment = Commitment(runId: Uuid, checkpointId: Uuid, inputRequestId: RequestId)

  datatype ProposalRow = ProposalRow(
    eventId: Uuid, conversationId: Uuid, finalMessageIds: seq<Uuid>, confirmed: bool)

  /** What a presentation event shows. */
  datatype Shown =
    | RuntimeEvent(data: EventData)
    | UserMessage(messageId: Uuid, content: string)
    | RequestCreated(suspensionId: Uuid, checkpointId: Uuid, prompt: string)
    | ResponseAccepted(requestId: RequestId)

  datatype PresentationEvent = PresentationEvent(sequence: nat, shown: Shown)

  datatype Trigger =
    | ByMessage(messageId: Uuid, content: string)
    | ByResponse(requestId: RequestId, response: string, startingCheckpointId: Uuid)

  datatype OutEvent =
    | RunRequested(ownerId: Uuid, conversationId: Uuid, threadId: Uuid, runId: Uuid, trigger: Trigger)
    | MessagesCommitted(runId: Uuid, conversationId: Uuid, messageIds: seq<Uuid>, conversationSequence: nat)

  /** What an idempotency key was used for, and with which request; the digest of a request stands for it. */
  datatype Operation = PostTo(conversationId: Uuid) | AnswerTo(requestId: RequestId)

  datatype Request = NewMessage(messageId: Uuid, runId: Uuid, content: string) | NewAnswer(answer: Answer)

  datatype IdempotencyKey = IdempotencyKey(ownerId: Uuid, operation: Operation, key: string)

  datatype IdempotencyRow = IdempotencyRow(request: Request, conversationSequence: nat)

  datatype Store = Store(
    conversations: map<Uuid, ConversationRow>, messages: map<Uuid, MessageRow>, chunks: map<Uuid, map<nat, string>>,
    inputs: map<Uuid, InputRow>, commitments: map<Uuid, Commitment>, proposals: map<Uuid, ProposalRow>,
    events: map<Uuid, seq<PresentationEvent>>, idempotency: map<IdempotencyKey, IdempotencyRow>,
    inbox: set<Uuid>, outbox: seq<OutEvent>)

  const EMPTY := Store(map[], map[], map[], map[], map[], map[], map[], map[], {}, [])

  /** The foreign keys that lead to a conversation. */
  ghost predicate Refs(s: Store) {
    && (forall k | k in s.inputs :: s.inputs[k].conversationId in s.conversations)
    && (forall r | r in s.proposals :: s.proposals[r].conversationId in s.conversations)
  }

  function EventsOf(s: Store, conv: Uuid): seq<PresentationEvent> {
    if conv in s.events then s.events[conv] else []
  }

  function ChunksOf(s: Store, m: Uuid): map<nat, string> {
    if m in s.chunks then s.chunks[m] else map[]
  }

  predicate Owned(s: Store, ownerId: Uuid, conv: Uuid) {
    conv in s.conversations && s.conversations[conv].ownerId == ownerId
  }

  // ---------------------------------------------------------------------------------------------
  // Parts of transactions

  /** The next presentation event of a conversation; its number is the new last_sequence. */
  function Present(s: Store, conv: Uuid, shown: Shown): Store
    requires conv in s.conversations
  {
    var sequence := s.conversations[conv].lastSequence + 1;
    s.(conversations := s.conversations[conv := s.conversations[conv].(lastSequence := sequence)],
       events := s.events[conv := EventsOf(s, conv) + [PresentationEvent(sequence, shown)]])
  }

  /** The number Present gives. */
  function Next(s: Store, conv: Uuid): nat
    requires conv in s.conversations
  {
    s.conversations[conv].lastSequence + 1
  }

  function StreamingProblem(s: Store, m: Uuid, conv: Uuid): Option<string> {
    if m !in s.messages || s.messages[m].conversationId != conv then Some("message_not_started")
    else if s.messages[m].status != Streaming then Some("message_terminal")
    else None
  }

  /** The chunks numbered 1..n that there are, in ascending order, joined. */
  function TextUpTo(chunks: map<nat, string>, n: nat): string {
    if n == 0 then "" else TextUpTo(chunks, n - 1) + if n in chunks then chunks[n] else ""
  }

  ghost predicate IsBound(chunks: map<nat, string>, n: nat) {
    forall i | i in chunks :: i <= n
  }

  lemma {:induction false} HasBound(chunks: map<nat, string>) returns (n: nat)
    ensures IsBound(chunks, n)
  {
    if chunks == map[] {
      n := 0;
    } else {
      var i :| i in chunks;
      n := HasBound(chunks - {i});
      n := if i > n then i else n;
      assert forall j | j in chunks :: j == i || j in chunks - {i};
    }
  }

  /** All chunks in ascending order, joined. */
  ghost function Text(chunks: map<nat, string>): string {
    assert exists n :: IsBound(chunks, n) by {
      var n := HasBound(chunks);
    }
    var n :| IsBound(chunks, n);
    TextUpTo(chunks, n)
  }

  /** Numbers without a chunk add nothing. */
  lemma {:induction false} GapAddsNothing(chunks: map<nat, string>, n: nat, m: nat)
    requires n <= m && forall i | i in chunks :: i <= n || m < i
    ensures TextUpTo(chunks, m) == TextUpTo(chunks, n)
    decreases m
  {
    if n < m {
      GapAddsNothing(chunks, n, m - 1);
      assert TextUpTo(chunks, m - 1) + "" == TextUpTo(chunks, m - 1);
    }
  }

  lemma TextIs(chunks: map<nat, string>, n: nat)
    requires IsBound(chunks, n)
    ensures Text(chunks) == TextUpTo(chunks, n)
  {
    var m :| IsBound(chunks, m) && Text(chunks) == TextUpTo(chunks, m);
    if n <= m {
      GapAddsNothing(chunks, n, m);
    } else {
      GapAddsNothing(chunks, m, n);
    }
  }

  /** Whether the chunks are numbered exactly 1..n. */
  predicate AreNumbered(chunks: map<nat, string>, n: nat) {
    && (forall i | 1 <= i <= n :: i in chunks)
    && (forall i | i in chunks :: 1 <= i <= n)
  }

  /** The problem validate_completion raises; without one, the content is the event's. */
  function CompletionProblem(sha: seq<Byte> -> Digest, data: EventData, chunks: map<nat, string>): Option<string>
    requires data.CompletedEvent?
  {
    var encoded := Encode(data.content);
    if data.chunkCount.None? || data.contentBytes.None? then Some("completion_invalid")
    else if |encoded| > MAX_MESSAGE_BYTES || data.chunkCount.value > MAX_CHUNKS then Some("completion_invalid")
    else if |encoded| != data.contentBytes.value || sha(encoded) != data.contentSha256 then Some("completion_invalid")
    else if !AreNumbered(chunks, data.chunkCount.value) then Some("completion_incomplete")
    else if TextUpTo(chunks, data.chunkCount.value) != data.content then Some("completion_mismatch")
    else None
  }

  predicate IsDone(s: Store, run: Uuid, m: Uuid) {
    m in s.messages && s.messages[m].runId == run && s.messages[m].status == Completed
  }

  /** The completed messages of a run among ids; a result proposal also asks for its conversation. */
  function DoneAmong(s: Store, run: Uuid, conv: Option<Uuid>, ids: seq<Uuid>): set<Uuid> {
    set m | m in ids && IsDone(s, run, m) && (conv.Some? ==> s.messages[m].conversationId == conv.value)
  }

  /** A run's messages are confirmed once; the event lists the ids it is given. */
  function Confirm(s: Store, run: Uuid, ids: seq<Uuid>): (s': Store)
    requires Refs(s) && run in s.proposals
    ensures Refs(s') && s' == s.(proposals := s'.proposals, outbox := s'.outbox)
  {
    var proposal := s.proposals[run];
    if proposal.confirmed then s
    else
      var last := |EventsOf(s, proposal.conversationId)|;
      s.(outbox := s.outbox + [MessagesCommitted(run, proposal.conversationId, ids, if last >= 1 then last else 1)],
         proposals := s.proposals[run := proposal.(confirmed := true)])
  }

  function ConfirmIf(done: bool, s: Store, run: Uuid, ids: seq<Uuid>): (s': Store)
    requires Refs(s) && run in s.proposals
    ensures Refs(s') && s' == s.(proposals := s'.proposals, outbox := s'.outbox)
  {
    if done then Confirm(s, run, ids) else s
  }

  // ---------------------------------------------------------------------------------------------
  // The kinds of runtime event

  /** What a transaction does before it shows an event, if it shows one. */
  datatype Change = Silent(store: Store) | Showing(store: Store, conv: Uuid, shown: Shown)

  /** A change touches neither the conversations nor their events; showing them is left to Present. */
  ghost predicate IsChange(s: Store, c: Change) {
    && c.store.conversations == s.conversations && c.store.events == s.events && c.store.inbox == s.inbox
    && c.store.idempotency == s.idempotency && Refs(c.store) && (c.Showing? ==> c.conv in s.conversations)
  }

  function Finish(c: Change): Store
    requires c.Showing? ==> c.conv in c.store.conversations
  {
    if c.Showing? then Present(c.store, c.conv, c.shown) else c.store
  }

  function Number(c: Change): Option<nat>
    requires c.Showing? ==> c.conv in c.store.conversations
  {
    if c.Showing? then Some(Next(c.store, c.conv)) else None
  }

  function StoreProposal(s: Store, e: Envelope): (s': Store)
    requires Refs(s) && e.conversationId in s.conversations && e.data.ProposedEvent?
    ensures Refs(s') && s' == s.(proposals := s'.proposals) && e.key.runId in s'.proposals
  {
    var run := e.key.runId;
    if run in s.proposals then s
    else s.(proposals := s.proposals[run := ProposalRow(e.id, e.conversationId, e.data.finalMessageIds, false)])
  }

  function ProjectProposal(s: Store, e: Envelope): (c: Change)
    requires Refs(s) && e.conversationId in s.conversations && e.data.ProposedEvent?
    ensures IsChange(s, c)
  {
    var run, ids := e.key.runId, e.data.finalMessageIds;
    if ids == [] || Messages !in e.data.required then Silent(s)
    else
      var s1 := StoreProposal(s, e);
      var s2 := ConfirmIf(|DoneAmong(s, run, Some(e.conversationId), ids)| == |ids|, s1, run, ids);
      Showing(s2, e.conversationId, RuntimeEvent(e.data))
  }

  predicate Agree(k: Uuid, request: InputRow, commitment: Commitment) {
    && commitment.inputRequestId == OfSuspension(k) && commitment.checkpointId == request.checkpointId
    && commitment.runId == request.runId
  }

  /** Both halves of a suspension make a reserved request pending and visible. */
  function Reconcile(s: Store, k: Uuid): (r: Result<Change, string>)
    requires Refs(s)
    ensures r.Ok? ==> IsChange(s, r.value)
  {
    if k !in s.inputs || k !in s.commitments then Ok(Silent(s))
    else
      var request := s.inputs[k];
      if !Agree(k, request, s.commitments[k]) then Err("suspension_conflict")
      else if request.state != Reserved then Ok(Silent(s))
      else Ok(Showing(s.(inputs := s.inputs[k := request.(state := Pending)]), request.conversationId,
                      RequestCreated(k, request.checkpointId, request.prompt)))
  }

  function CommitmentOf(e: Envelope): Commitment
    requires e.data.SuspendedEvent?
  {
    Commitment(e.key.runId, e.data.checkpointId, e.data.inputRequestId)
  }

  function RequestOf(e: Envelope): InputRow
    requires e.data.InputProposedEvent? && e.data.prompt.Some?
  {
    InputRow(e.conversationId, e.key.runId, e.data.checkpointId, e.data.prompt.value, Reserved, None)
  }

  function ProjectSuspension(s: Store, e: Envelope): (r: Result<Change, string>)
    requires Refs(s) && e.data.SuspendedEvent?
    ensures r.Ok? ==> IsChange(s, r.value)
  {
    var k := e.data.suspensionId;
    if k in s.commitments && s.commitments[k] != CommitmentOf(e) then Err("suspension_conflict")
    else Reconcile(s.(commitments := s.commitments[k := CommitmentOf(e)]), k)
  }

  function ProjectRequest(s: Store, e: Envelope): (r: Result<Change, string>)
    requires Refs(s) && e.conversationId in s.conversations && e.data.InputProposedEvent?
    ensures r.Ok? ==> IsChange(s, r.value)
  {
    var k := e.data.suspensionId;
    if e.data.prompt.None? then Err("key_error")
    else Reconcile(if k in s.inputs then s else s.(inputs := s.inputs[k := RequestOf(e)]), k)
  }

  function ProjectStarted(s: Store, e: Envelope): (c: Change)
    requires Refs(s) && e.conversationId in s.conversations && e.data.StartedEvent?
    ensures IsChange(s, c)
  {
    var m := e.data.messageId;
    var row := MessageRow(e.conversationId, e.key.runId, Assistant, Streaming, "");
    Showing(if m in s.messages then s else s.(messages := s.messages[m := row]), e.conversationId, RuntimeEvent(e.data))
  }

  function ProjectDelta(s: Store, e: Envelope): (r: Result<Change, string>)
    requires Refs(s) && e.conversationId in s.conversations && e.data.DeltaEvent?
    ensures r.Ok? ==> IsChange(s, r.value)
  {
    var m, n, content := e.data.messageId, e.data.chunkSequence, e.data.content;
    var problem := StreamingProblem(s, m, e.conversationId);
    var chunks := ChunksOf(s, m);
    if problem.Some? then Err(problem.value)
    else if n < 1 || content == "" || Size(content) > MAX_DELTA_BYTES then Err("delta_invalid")
    else if n in chunks && chunks[n] != content then Err("delta_conflict")
    else Ok(Showing(s.(chunks := s.chunks[m := chunks[n := content]]), e.conversationId, RuntimeEvent(e.data)))
  }

  function EndMessage(s: Store, m: Uuid, status: Status, content: string): (s': Store)
    requires m in s.messages
    ensures Refs(s) ==> Refs(s')
  {
    s.(messages := s.messages[m := s.messages[m].(status := status, content := content)])
  }

  /** A completion may be the last one a stored proposal of the event's run has waited for. */
  function ConfirmIfDone(s: Store, run: Uuid): (s': Store)
    requires Refs(s)
    ensures Refs(s') && s' == s.(proposals := s'.proposals, outbox := s'.outbox)
  {
    if run !in s.proposals then s
    else
      var ids := s.proposals[run].finalMessageIds;
      ConfirmIf(|DoneAmong(s, run, None, ids)| == |ids|, s, run, ids)
  }

  function ProjectCompleted(sha: seq<Byte> -> Digest, s: Store, e: Envelope): (r: Result<Change, string>)
    requires Refs(s) && e.conversationId in s.conversations && e.data.CompletedEvent?
    ensures r.Ok? ==> IsChange(s, r.value)
  {
    var m := e.data.messageId;
    var problem := StreamingProblem(s, m, e.conversationId);
    if problem.Some? then Err(problem.value)
    else
      var invalid := CompletionProblem(sha, e.data, ChunksOf(s, m));
      if invalid.Some? then Err(invalid.value)
      else Ok(Showing(ConfirmIfDone(EndMessage(s, m, Completed, e.data.content), e.key.runId), e.conversationId,
                      RuntimeEvent(e.data)))
  }

  ghost function ProjectEnded(s: Store, e: Envelope): (r: Result<Change, string>)
    requires Refs(s) && e.conversationId in s.conversations && (e.data.InterruptedEvent? || e.data.FailedEvent?)
    ensures r.Ok? ==> IsChange(s, r.value)
  {
    var m := e.data.messageId;
    var problem := StreamingProblem(s, m, e.conversationId);
    if problem.Some? then Err(problem.value)
    else
      var status := if e.data.InterruptedEvent? then Interrupted else Failed;
      Ok(Showing(EndMessage(s, m, status, Text(ChunksOf(s, m))), e.conversationId, RuntimeEvent(e.data)))
  }

  ghost function ProjectData(sha: seq<Byte> -> Digest, s: Store, e: Envelope): (r: Result<Change, string>)
    requires Refs(s) && e.conversationId in s.conversations
    ensures r.Ok? ==> IsChange(s, r.value)
  {
    match e.data
    case ProposedEvent(_, _, _) => Ok(ProjectProposal(s, e))
    case SuspendedEvent(_, _, _) => ProjectSuspension(s, e)
    case StartedEvent(_) => Ok(ProjectStarted(s, e))
    case DeltaEvent(_, _, _) => ProjectDelta(s, e)
    case CompletedEvent(_, _, _, _, _) => ProjectCompleted(sha, s, e)
    case InterruptedEvent(_, _) => ProjectEnded(s, e)
    case FailedEvent(_, _) => ProjectEnded(s, e)
    case InputProposedEvent(_, _, _) => ProjectRequest(s, e)
    case OtherEvent => Err("event_unsupported")
  }

  // ---------------------------------------------------------------------------------------------
  // The transactions

  /** Ok(None) for an event that has been projected already, or that shows nothing. */
  ghost function Project(sha: seq<Byte> -> Digest, s: Store, e: Envelope): (Store, Result<Option<nat>, string>)
    requires Refs(s)
  {
    if e.id in s.inbox then (s, Ok(None))
    else if !Owned(s, e.userId, e.conversationId) then (s, Err("conversation_not_found"))
    else if e.threadId != s.conversations[e.conversationId].threadId then (s, Err("event_invalid"))
    else
      match ProjectData(sha, s, e)
      case Err(code) => (s, Err(code))
      case Ok(c) => (Finish(c).(inbox := s.inbox + {e.id}), Ok(Number(c)))
  }

  /** thread_id is unique over all conversations. */
  function Open(s: Store, conv: Uuid, ownerId: Uuid, threadId: Uuid): (Store, Result<(), string>) {
    if conv in s.conversations || exists c | c in s.conversations :: s.conversations[c].threadId == threadId
    then (s, Err("unique_violation"))
    else (s.(conversations := s.conversations[conv := ConversationRow(ownerId, threadId, 0)]), Ok(()))
  }

  function PostChange(s: Store, ownerId: Uuid, conv: Uuid, key: string, request: Request): Change
    requires request.NewMessage? && conv in s.conversations
  {
    var m := request.messageId;
    var event := RunRequested(ownerId, conv, s.conversations[conv].threadId, request.runId,
        ByMessage(m, request.content));
    Showing(s.(messages := s.messages[m := MessageRow(conv, request.runId, User, Completed, request.content)],
               outbox := s.outbox + [event],
               idempotency := s.idempotency[
                   IdempotencyKey(ownerId, PostTo(conv), key) := IdempotencyRow(request, Next(s, conv))]),
            conv, UserMessage(m, request.content))
  }

  /** The message it reports is the row of request.messageId. */
  function Post(s: Store, ownerId: Uuid, conv: Uuid, key: string, request: Request): (Store, Result<nat, string>)
    requires request.NewMessage?
  {
    var idempotencyKey := IdempotencyKey(ownerId, PostTo(conv), key);
    if !Owned(s, ownerId, conv) then (s, Err("conversation_not_found"))
    else if idempotencyKey in s.idempotency then
      if s.idempotency[idempotencyKey].request != request then (s, Err("idempotency_conflict"))
      else (s, Ok(s.idempotency[idempotencyKey].conversationSequence))
    else if request.messageId in s.messages then (s, Err("message_exists"))
    else (Finish(PostChange(s, ownerId, conv, key, request)), Ok(Next(s, conv)))
  }

  function AnswerChange(s: Store, ownerId: Uuid, k: Uuid, key: string, answer: Answer): Change
    requires Refs(s) && k in s.inputs
  {
    var row := s.inputs[k];
    var conv := row.conversationId;
    var event := RunRequested(ownerId, conv, s.conversations[conv].threadId, answer.runId,
                              ByResponse(OfSuspension(k), answer.response, row.checkpointId));
    Showing(s.(inputs := s.inputs[k := row.(state := Answered, answer := Some(answer))],
               outbox := s.outbox + [event],
               idempotency := s.idempotency[IdempotencyKey(ownerId, AnswerTo(OfSuspension(k)), key) :=
                 IdempotencyRow(NewAnswer(answer), Next(s, conv))]),
            conv, ResponseAccepted(OfSuspension(k)))
  }

  function AnswerInput(s: Store, ownerId: Uuid, requestId: RequestId, key: string, answer: Answer)
    : (Store, Result<nat, string>)
    requires Refs(s)
  {
    var idempotencyKey := IdempotencyKey(ownerId, AnswerTo(requestId), key);
    if !requestId.OfSuspension? || requestId.suspensionId !in s.inputs
       || !Owned(s, ownerId, s.inputs[requestId.suspensionId].conversationId) then (s, Err("input_request_not_found"))
    else if idempotencyKey in s.idempotency then
      if s.idempotency[idempotencyKey].request != NewAnswer(answer) then (s, Err("idempotency_conflict"))
      else (s, Ok(s.idempotency[idempotencyKey].conversationSequence))
    else if s.inputs[requestId.suspensionId].state != Pending then (s, Err("input_already_answered"))
    else
      (Finish(AnswerChange(s, ownerId, requestId.suspensionId, key, answer)),
       Ok(Next(s, s.inputs[requestId.suspensionId].conversationId)))
  }

  // ---------------------------------------------------------------------------------------------
  // Replay

  /** The events after a cursor, in order. */
  function After(events: seq<PresentationEvent>, cursor: nat): seq<PresentationEvent> {
    if events == [] then []
    else (if events[0].sequence > cursor then [events[0]] else []) + After(events[1..], cursor)
  }

  function Limited(events: seq<PresentationEvent>, limit: nat): seq<PresentationEvent> {
    if |events| <= limit then events else events[..limit]
  }

  function Replay(s: Store, ownerId: Uuid, conv: Uuid, cursor: nat, limit: nat): Result<seq<PresentationEvent>, string>
  {
    if !Owned(s, ownerId, conv) then Err("conversation_not_found")
    else Ok(Limited(After(EventsOf(s, conv), cursor), limit))
  }

  // ---------------------------------------------------------------------------------------------
  // Runs

  datatype Step =
    | OpenConversation(conv: Uuid, ownerId: Uuid, threadId: Uuid)
    | PostMessage(ownerId: Uuid, conv: Uuid, key: string, messageId: Uuid, runId: Uuid, content: string)
    | AnswerRequest(ownerId: Uuid, requestId: RequestId, key: string, answer: Answer)
    | ProjectEvent(event: Envelope)

  ghost function Apply(sha: seq<Byte> -> Digest, s: Store, step: Step): Store
    requires Refs(s)
  {
    match step
    case OpenConversation(conv, ownerId, threadId) => Open(s, conv, ownerId, threadId).0
    case PostMessage(ownerId, conv, key, m, run, content) => Post(s, ownerId, conv, key, NewMessage(m, run, content)).0
    case AnswerRequest(ownerId, requestId, key, answer) => AnswerInput(s, ownerId, requestId, key, answer).0
    case ProjectEvent(e) => Project(sha, s, e).0
  }

  lemma PresentKeepsRefs(s: Store, conv: Uuid, shown: Shown)
    requires Refs(s) && conv in s.conversations
    ensures Refs(Present(s, conv, shown))
  {
  }

  lemma StepKeepsRefs(sha: seq<Byte> -> Digest, s: Store, step: Step)
    requires Refs(s)
    ensures Refs(Apply(sha, s, step))
  {
    hide ProjectData, Present, Next;
    if step.ProjectEvent? {
      var e := step.event;
      if Owned(s, e.userId, e.conversationId) && ProjectData(sha, s, e).Ok? {
        var c := ProjectData(sha, s, e).value;
        if c.Showing? {
          PresentKeepsRefs(c.store, c.conv, c.shown);
        }
      }
    } else if step.PostMessage? {
      if step.conv in s.conversations {
        var c := PostChange(s, step.ownerId, step.conv, step.key, NewMessage(step.messageId, step.runId, step.content));
        PresentKeepsRefs(c.store, c.conv, c.shown);
      }
    } else if step.AnswerRequest? && step.requestId.OfSuspension? && step.requestId.suspensionId in s.inputs {
      var c := AnswerChange(s, step.ownerId, step.requestId.suspensionId, step.key, step.answer);
      PresentKeepsRefs(c.store, c.conv, c.shown);
    }
  }

  ghost function Run(sha: seq<Byte> -> Digest, s: Store, steps: seq<Step>): (s': Store)
    requires Refs(s)
    ensures Refs(s')
    decreases |steps|
  {
    if steps == [] then s
    else
      StepKeepsRefs(sha, s, steps[0]);
      Run(sha, Apply(sha, s, steps[0]), steps[1..])
  }

  // ---------------------------------------------------------------------------------------------
  // What a step can touch

  /** The change behind a step: what it does to the tables before it shows an event. */
  lemma StepShape(sha: seq<Byte> -> Digest, s: Store, step: Step) returns (c: Change)
    requires Refs(s) && !step.OpenConversation?
    ensures c.store.conversations == s.conversations && c.store.events == s.events
    ensures c.Showing? ==> c.conv in s.conversations
    ensures var s' := Apply(sha, s, step);
            && s' == Finish(c).(inbox := s'.inbox)
            && ((c == Silent(s) && s' == s)
                || (step.ProjectEvent? && Owned(s, step.event.userId, step.event.conversationId)
                    && step.event.threadId == s.conversations[step.event.conversationId].threadId
                    && step.event.id !in s.inbox && ProjectData(sha, s, step.event) == Ok(c)
                    && s'.inbox == s.inbox + {step.event.id})
                || (step.PostMessage? && step.conv in s.conversations && step.messageId !in s.messages
                    && s'.inbox == s.inbox
                    && Owned(s, step.ownerId, step.conv)
                    && c == PostChange(s, step.ownerId, step.conv, step.key,
                                       NewMessage(step.messageId, step.runId, step.content)))
                || (step.AnswerRequest? && step.requestId.OfSuspension? && step.requestId.suspensionId in s.inputs
                    && s'.inbox == s.inbox && s.inputs[step.requestId.suspensionId].state == Pending
                    && Owned(s, step.ownerId, s.inputs[step.requestId.suspensionId].conversationId)
                    && c == AnswerChange(s, step.ownerId, step.requestId.suspensionId, step.key, step.answer)))
  {
    hide ProjectData, Present, Next, Number;
    c := Silent(s);
    if step.ProjectEvent? {
      var e := step.event;
      if e.id !in s.inbox && Owned(s, e.userId, e.conversationId) && ProjectData(sha, s, e).Ok?
         && e.threadId == s.conversations[e.conversationId].threadId {
        c := ProjectData(sha, s, e).value;
        FinishTables(c);
      }
    } else if step.PostMessage? {
      var request := NewMessage(step.messageId, step.runId, step.content);
      if Owned(s, step.ownerId, step.conv) && step.messageId !in s.messages
         && IdempotencyKey(step.ownerId, PostTo(step.conv), step.key) !in s.idempotency {
        c := PostChange(s, step.ownerId, step.conv, step.key, request);
        FinishTables(c);
      }
    } else if step.requestId.OfSuspension? && step.requestId.suspensionId in s.inputs {
      var row := s.inputs[step.requestId.suspensionId];
      if Owned(s, step.ownerId, row.conversationId) && row.state == Pending
         && IdempotencyKey(step.ownerId, AnswerTo(step.requestId), step.key) !in s.idempotency {
        c := AnswerChange(s, step.ownerId, step.requestId.suspensionId, step.key, step.answer);
        FinishTables(c);
      }
    }
  }

  /** Showing an event touches no other table. */
  lemma FinishTables(c: Change)
    requires c.Showing? ==> c.conv in c.store.conversations
    ensures Finish(c) == c.store.(conversations := Finish(c).conversations, events := Finish(c).events)
  {
  }

  /** What a result proposal can touch. */
  lemma ProposalFrame(sha: seq<Byte> -> Digest, s: Store, e: Envelope)
    requires Refs(s) && e.conversationId in s.conversations && e.data.ProposedEvent?
    ensures ProjectData(sha, s, e).Ok?
    ensures var c := ProjectData(sha, s, e).value;
            && c.store == s.(proposals := c.store.proposals, outbox := c.store.outbox)
            && (c.Showing? ==> c.shown.RuntimeEvent?)
  {
    hide DoneAmong, ConfirmIf;
  }

  /** What the halves of a suspension can touch. */
  lemma SagaFrame(sha: seq<Byte> -> Digest, s: Store, e: Envelope)
    requires Refs(s) && e.conversationId in s.conversations && ProjectData(sha, s, e).Ok?
    requires e.data.SuspendedEvent? || e.data.InputProposedEvent?
    ensures var c := ProjectData(sha, s, e).value; var k := e.data.suspensionId;
            && c.store == s.(inputs := c.store.inputs, commitments := c.store.commitments)
            && (c.store.inputs == s.inputs
               || (k in c.store.inputs && c.store.inputs == s.inputs[k := c.store.inputs[k]]))
            && (c.store.commitments == s.commitments
                || (k in c.store.commitments && c.store.commitments == s.commitments[k := c.store.commitments[k]]))
            && (c.Showing? ==> c.shown.RequestCreated? && c.shown.suspensionId == k)
  {
    if e.data.SuspendedEvent? {
      hide ProjectRequest;
    } else {
      hide ProjectSuspension;
    }
  }

  /** A message's row before and after an event about it. */
  ghost predicate MayChange(row: MessageRow, row': MessageRow) {
    && row'.conversationId == row.conversationId && row'.runId == row.runId && row'.role == row.role
    && (row' == row || row.status == Streaming)
  }

  lemma StartedFrame(sha: seq<Byte> -> Digest, s: Store, e: Envelope)
    requires Refs(s) && e.conversationId in s.conversations && e.data.StartedEvent?
    ensures var m := e.data.messageId; var row := MessageRow(e.conversationId, e.key.runId, Assistant, Streaming, "");
            ProjectData(sha, s, e)
            == Ok(Showing(if m in s.messages then s else s.(messages := s.messages[m := row]), e.conversationId,
                RuntimeEvent(e.data)))
  {
  }

  lemma DeltaFrame(sha: seq<Byte> -> Digest, s: Store, e: Envelope)
    requires Refs(s) && e.conversationId in s.conversations && e.data.DeltaEvent? && ProjectData(sha, s, e).Ok?
    ensures var m := e.data.messageId;
            && m in s.messages && s.messages[m].status == Streaming
            && ProjectData(sha, s, e).value
               == Showing(s.(chunks := s.chunks[m := ChunksOf(s, m)[e.data.chunkSequence := e.data.content]]),
                          e.conversationId, RuntimeEvent(e.data))
  {
    hide Encode;
  }

  lemma CompletedFrame(sha: seq<Byte> -> Digest, s: Store, e: Envelope)
    requires Refs(s) && e.conversationId in s.conversations && e.data.CompletedEvent? && ProjectData(sha, s, e).Ok?
    ensures var c := ProjectData(sha, s, e).value; var s', m := c.store, e.data.messageId;
            && c == Showing(s', e.conversationId, RuntimeEvent(e.data))
            && s' == s.(messages := s'.messages, proposals := s'.proposals, outbox := s'.outbox)
            && m in s.messages && s.messages[m].status == Streaming
            && s'.messages == s.messages[m := s.messages[m].(status := Completed, content := e.data.content)]
            && CompletionProblem(sha, e.data, ChunksOf(s, m)) == None
  {
    hide CompletionProblem, ConfirmIfDone, Refs, IsChange;
  }

  lemma EndedFrame(sha: seq<Byte> -> Digest, s: Store, e: Envelope)
    requires Refs(s) && e.conversationId in s.conversations && ProjectData(sha, s, e).Ok?
    requires e.data.InterruptedEvent? || e.data.FailedEvent?
    ensures var c := ProjectData(sha, s, e).value; var s', m := c.store, e.data.messageId;
            && c == Showing(s', e.conversationId, RuntimeEvent(e.data))
            && s' == s.(messages := s'.messages)
            && m in s.messages && s.messages[m].status == Streaming
            && s'.messages == s.messages[m :=
               s.messages[m].(status := if e.data.InterruptedEvent? then Interrupted else Failed,
                                                             content := Text(ChunksOf(s, m)))]
  {
    hide Text, Refs, IsChange;
  }

  /** What an event about a message can touch. */
  lemma MessageFrame(sha: seq<Byte> -> Digest, s: Store, e: Envelope)
    requires Refs(s) && e.conversationId in s.conversations && ProjectData(sha, s, e).Ok?
    requires !e.data.ProposedEvent? && !e.data.SuspendedEvent? && !e.data.InputProposedEvent?
    ensures !e.data.OtherEvent?
    ensures var c := ProjectData(sha, s, e).value; var s', m := c.store, e.data.messageId;
            && c == Showing(s', e.conversationId, RuntimeEvent(e.data))
            && s' == s.(messages := s'.messages, chunks := s'.chunks, proposals := s'.proposals, outbox := s'.outbox)
            && m in s'.messages && s'.messages == s.messages[m := s'.messages[m]]
            && (m in s.messages ==> MayChange(s.messages[m], s'.messages[m]))
            && (e.data.DeltaEvent? || s'.chunks == s.chunks)
            && (!e.data.CompletedEvent? && s'.messages[m].status == Completed ==>
                  m in s.messages && s.messages[m].status == Completed)
            && (e.data.CompletedEvent? || (s'.proposals == s.proposals && s'.outbox == s.outbox))
  {
    hide CompletionProblem, Text, ConfirmIfDone, Refs, IsChange;
    if e.data.CompletedEvent? {
      hide ProjectData;
      CompletedFrame(sha, s, e);
    } else if e.data.InterruptedEvent? || e.data.FailedEvent? {
      hide ProjectData;
      EndedFrame(sha, s, e);
    } else if e.data.DeltaEvent? {
      hide ProjectData;
      DeltaFrame(sha, s, e);
    } else {
      hide ProjectCompleted, ProjectEnded, ProjectDelta;
    }
  }
}
