/**
 What the conversation service decides, spelled out in what events, requests and rows hold: which
 events are projected and what they leave behind, and how commands are answered.
 */
module ConversationDecisions {
  import opened Wrappers
  import opened Utf8
  import opened Protocol
  import opened ConversationStore
  import opened MessageConfirmation

  // ---------------------------------------------------------------------------------------------
  // Which events are projected

  predicate IsOwner(s: Store, ownerId: Uuid, conv: Uuid) {
    conv in s.conversations && s.conversations[conv].ownerId == ownerId
  }

  function WhyNotStreaming(s: Store, conv: Uuid, m: Uuid): Option<string> {
    if m !in s.messages then Some("message_not_started")
    else if s.messages[m].conversationId != conv then Some("message_not_started")
    else if s.messages[m].status == Streaming then None
    else Some("message_terminal")
  }

  /** Some number is a chunk's and not among 1..n, or the other way round. */
  ghost predicate IsIncomplete(chunks: map<nat, string>, n: nat) {
    exists i: nat :: (i in chunks) != (1 <= i <= n)
  }

  /** Why a completion of a streaming message is refused, if it is. */
  ghost function WhyNotComplete(sha: seq<Byte> -> Digest, chunks: map<nat, string>, data: EventData): Option<string>
    requires data.CompletedEvent?
  {
    var bytes := Encode(data.content);
    if data.chunkCount == None || data.contentBytes == None then Some("completion_invalid")
    else if |bytes| > 262144 || data.chunkCount.value > 65536 then Some("completion_invalid")
    else if data.contentBytes.value != |bytes| || data.contentSha256 != sha(bytes) then Some("completion_invalid")
    else if IsIncomplete(chunks, data.chunkCount.value) then Some("completion_incomplete")
    else if TextUpTo(chunks, data.chunkCount.value) != data.content then Some("completion_mismatch")
    else None
  }

  /** The commitment that is stored for a suspension, or else the one that the event makes. */
  function CommitmentAfter(s: Store, e: Envelope): Option<Commitment>
    requires e.data.InputProposedEvent? || e.data.SuspendedEvent?
  {
    var k := e.data.suspensionId;
    if k in s.commitments then Some(s.commitments[k])
    else if e.data.SuspendedEvent? then Some(Commitment(e.key.runId, e.data.checkpointId, e.data.inputRequestId))
    else None
  }

  /** The request that is stored for a suspension, or else the one that the event makes. */
  function RequestAfter(s: Store, e: Envelope): Option<InputRow>
    requires e.data.InputProposedEvent? || e.data.SuspendedEvent?
  {
    var k := e.data.suspensionId;
    if k in s.inputs then Some(s.inputs[k])
    else if e.data.InputProposedEvent? && e.data.prompt.Some? then
      Some(InputRow(e.conversationId, e.key.runId, e.data.checkpointId, e.data.prompt.value, Reserved, None))
    else None
  }

  /** Why a half of a suspension is refused, if it is. */
  function WhyNotHalf(s: Store, e: Envelope): Option<string>
    requires e.data.InputProposedEvent? || e.data.SuspendedEvent?
  {
    var k, request, commitment := e.data.suspensionId, RequestAfter(s, e), CommitmentAfter(s, e);
    if e.data.InputProposedEvent? && e.data.prompt == None then Some("key_error")
    else if e.data.SuspendedEvent?
            && (commitment.value.runId != e.key.runId || commitment.value.checkpointId != e.data.checkpointId
                || commitment.value.inputRequestId != e.data.inputRequestId) then Some("suspension_conflict")
    else if request.Some? && commitment.Some?
            && (commitment.value.runId != request.value.runId
                || commitment.value.checkpointId != request.value.checkpointId
                || commitment.value.inputRequestId != OfSuspension(k)) then Some("suspension_conflict")
    else None
  }

  /** Why an event of its conversation is refused, if it is. */
  ghost function WhyNot(sha: seq<Byte> -> Digest, s: Store, e: Envelope): Option<string> {
    match e.data
    case ProposedEvent(_, _, _) => None
    case StartedEvent(_) => None
    case OtherEvent => Some("event_unsupported")
    case InterruptedEvent(m, _) => WhyNotStreaming(s, e.conversationId, m)
    case FailedEvent(m, _) => WhyNotStreaming(s, e.conversationId, m)
    case DeltaEvent(m, n, content) =>
      if WhyNotStreaming(s, e.conversationId, m).Some? then WhyNotStreaming(s, e.conversationId, m)
      else if n == 0 || content == "" || |Encode(content)| > 4096 then Some("delta_invalid")
      else if m in s.chunks && n in s.chunks[m] && s.chunks[m][n] != content then Some("delta_conflict")
      else None
    case CompletedEvent(m, _, _, _, _) =>
      if WhyNotStreaming(s, e.conversationId, m).Some? then WhyNotStreaming(s, e.conversationId, m)
      else WhyNotComplete(sha, if m in s.chunks then s.chunks[m] else map[], e.data)
    case InputProposedEvent(_, _, _) => WhyNotHalf(s, e)
    case SuspendedEvent(_, _, _) => WhyNotHalf(s, e)
  }

  lemma CompleteIff(sha: seq<Byte> -> Digest, chunks: map<nat, string>, data: EventData)
    requires data.CompletedEvent?
    ensures CompletionProblem(sha, data, chunks) == WhyNotComplete(sha, chunks, data)
  {
    hide Encode, TextUpTo;
    if data.chunkCount.Some? {
      var n := data.chunkCount.value;
      if !AreNumbered(chunks, n) {
        var i: nat :| (i in chunks) != (1 <= i <= n);
      }
    }
  }

  lemma HalfIff(s: Store, e: Envelope)
    requires Refs(s) && e.conversationId in s.conversations && (e.data.InputProposedEvent? || e.data.SuspendedEvent?)
    ensures var why := if e.data.SuspendedEvent? then ProjectSuspension(s, e) else ProjectRequest(s, e);
            if WhyNotHalf(s, e).None? then why.Ok? else why == Err(WhyNotHalf(s, e).value)
  {
    hide IsChange;
  }

  lemma HandledIff(sha: seq<Byte> -> Digest, s: Store, e: Envelope)
    requires Refs(s) && e.conversationId in s.conversations
    ensures var why := WhyNot(sha, s, e);
            if why.None? then ProjectData(sha, s, e).Ok? else ProjectData(sha, s, e) == Err(why.value)
  {
    hide Encode, IsChange, CompletionProblem, WhyNotComplete, TextUpTo, Text, WhyNotHalf, ConfirmIfDone, EndMessage;
    match e.data {
      case CompletedEvent(m, _, _, _, _) => CompleteIff(sha, ChunksOf(s, m), e.data);
      case SuspendedEvent(_, _, _) => hide ProjectSuspension; HalfIff(s, e);
      case InputProposedEvent(_, _, _) => hide ProjectRequest; HalfIff(s, e);
      case _ =>
    }
  }

  /**
   An event is projected if and only if it is new, of a conversation of its user and thread, and not
   refused for what it says. An event projected before is none the wiser; any other is refused, and
   changes nothing.
   */
  lemma ProjectedIff(sha: seq<Byte> -> Digest, s: Store, e: Envelope)
    requires Refs(s)
    ensures var (s', outcome) := Project(sha, s, e); var conv := e.conversationId;
            && (e.id in s.inbox ==> s' == s && outcome == Ok(None))
            && (e.id !in s.inbox ==>
                  && (!IsOwner(s, e.userId, conv) ==> outcome == Err("conversation_not_found"))
                  && (IsOwner(s, e.userId, conv) && e.threadId != s.conversations[conv].threadId ==>
                        outcome == Err("event_invalid"))
                  && (IsOwner(s, e.userId, conv) && e.threadId == s.conversations[conv].threadId ==>
                        if WhyNot(sha, s, e).None? then outcome.Ok? && s'.inbox == s.inbox + {e.id}
                        else outcome == Err(WhyNot(sha, s, e).value))
                  && (outcome.Err? ==> s' == s))
  {
    hide ProjectData, WhyNot, IsChange;
    if Owned(s, e.userId, e.conversationId) {
      HandledIff(sha, s, e);
    }
  }

  // ---------------------------------------------------------------------------------------------
  // What a projected event leaves behind

  ghost predicate IsTaken(sha: seq<Byte> -> Digest, s: Store, e: Envelope) {
    && Refs(s) && e.id !in s.inbox && IsOwner(s, e.userId, e.conversationId)
    && e.threadId == s.conversations[e.conversationId].threadId && WhyNot(sha, s, e).None?
  }

  /** The conversation has one event more, with the next number, which is the outcome. */
  ghost predicate IsShownIn(s: Store, s': Store, conv: Uuid, shown: Shown, number: nat)
    requires conv in s.conversations
  {
    var row := s.conversations[conv];
    && number == row.lastSequence + 1
    && s'.conversations == s.conversations[conv := ConversationRow(row.ownerId, row.threadId, number)]
    && s'.events == s.events[conv := (if conv in s.events then s.events[conv] else [])
                                     + [PresentationEvent(number, shown)]]
  }

  /** The tables that a command or an event shares with others are as said, and the rest as before. */
  ghost predicate OnlyShows(sha: seq<Byte> -> Digest, s: Store, e: Envelope, s1: Store)
    requires Refs(s) && e.conversationId in s.conversations
  {
    var (s', outcome) := Project(sha, s, e);
    && outcome.Ok? && outcome.value.Some?
    && IsShownIn(s, s', e.conversationId, RuntimeEvent(e.data), outcome.value.value)
    && s' == s1.(conversations := s'.conversations, events := s'.events, inbox := s.inbox + {e.id})
  }

  lemma ShowingOnlyShows(sha: seq<Byte> -> Digest, s: Store, e: Envelope, s1: Store)
    requires IsTaken(sha, s, e) && ProjectData(sha, s, e) == Ok(Showing(s1, e.conversationId, RuntimeEvent(e.data)))
    ensures OnlyShows(sha, s, e, s1)
  {
    hide ProjectData, WhyNot;
  }

  /** A started message is streaming and empty; one that is there already stays as it is. */
  lemma StartedIsProjected(sha: seq<Byte> -> Digest, s: Store, e: Envelope)
    requires IsTaken(sha, s, e) && e.data.StartedEvent?
    ensures var m := e.data.messageId;
            OnlyShows(sha, s, e, if m in s.messages then s
                                 else s.(messages := s.messages[m :=
                                           MessageRow(e.conversationId, e.key.runId, Assistant, Streaming, "")]))
  {
    hide OnlyShows, WhyNot;
    StartedFrame(sha, s, e);
    ShowingOnlyShows(sha, s, e, ProjectData(sha, s, e).value.store);
  }

  /** A delta is the chunk of its number. */
  lemma DeltaIsProjected(sha: seq<Byte> -> Digest, s: Store, e: Envelope)
    requires IsTaken(sha, s, e) && e.data.DeltaEvent?
    ensures var m := e.data.messageId; var chunks := if m in s.chunks then s.chunks[m] else map[];
            OnlyShows(sha, s, e, s.(chunks := s.chunks[m := chunks[e.data.chunkSequence := e.data.content]]))
  {
    hide OnlyShows, WhyNot, ProjectData;
    HandledIff(sha, s, e);
    DeltaFrame(sha, s, e);
    ShowingOnlyShows(sha, s, e, ProjectData(sha, s, e).value.store);
  }

  /** An interrupted or failed message has the text of the chunks that there are. */
  lemma EndedIsProjected(sha: seq<Byte> -> Digest, s: Store, e: Envelope)
    requires IsTaken(sha, s, e) && (e.data.InterruptedEvent? || e.data.FailedEvent?)
    ensures var m := e.data.messageId; var chunks := if m in s.chunks then s.chunks[m] else map[];
            m in s.messages
            && var row := s.messages[m];
               OnlyShows(sha, s, e, s.(messages := s.messages[m :=
                 MessageRow(row.conversationId, row.runId, row.role,
                            if e.data.InterruptedEvent? then Interrupted else Failed, Text(chunks))]))
  {
    hide OnlyShows, WhyNot, ProjectData;
    HandledIff(sha, s, e);
    EndedFrame(sha, s, e);
    ShowingOnlyShows(sha, s, e, ProjectData(sha, s, e).value.store);
  }

  /** The ids are different, and all of completed messages of the run. */
  predicate AreCompleted(messages: map<Uuid, MessageRow>, run: Uuid, ids: seq<Uuid>) {
    && (forall i, j | 0 <= i < j < |ids| :: ids[i] != ids[j])
    && forall m | m in ids :: m in messages && messages[m].runId == run && messages[m].status == Completed
  }

  /** What the confirmation of a run's messages says; it counts the events shown so far, but at least one. */
  function ConfirmationOf(s: Store, run: Uuid, conv: Uuid, ids: seq<Uuid>): OutEvent {
    var shown := if conv in s.events then |s.events[conv]| else 0;
    MessagesCommitted(run, conv, ids, if shown == 0 then 1 else shown)
  }

  /**
   A completed message has the event's text. If it is the last one that a stored proposal of the event's
   run has waited for, the proposal is confirmed.
   */
  lemma CompletionIsProjected(sha: seq<Byte> -> Digest, s: Store, e: Envelope)
    requires IsTaken(sha, s, e) && e.data.CompletedEvent?
    ensures var m, run := e.data.messageId, e.key.runId;
            m in s.messages
            && var row := s.messages[m];
               var messages := s.messages[m := MessageRow(row.conversationId, row.runId, row.role, Completed,
                                                          e.data.content)];
               if run in s.proposals && !s.proposals[run].confirmed
                  && AreCompleted(messages, run, s.proposals[run].finalMessageIds)
               then
                 var p := s.proposals[run];
                 OnlyShows(sha, s, e, s.(
                   messages := messages,
                   proposals := s.proposals[run := ProposalRow(p.eventId, p.conversationId, p.finalMessageIds, true)],
                   outbox := s.outbox + [ConfirmationOf(s, run, p.conversationId, p.finalMessageIds)]))
               else OnlyShows(sha, s, e, s.(messages := messages))
  {
    hide OnlyShows, WhyNot;
    HandledIff(sha, s, e);
    CompletedFrame(sha, s, e);
    var m, run := e.data.messageId, e.key.runId;
    var s1 := EndMessage(s, m, Completed, e.data.content);
    assert ProjectData(sha, s, e).value.store == ConfirmIfDone(s1, run);
    ShowingOnlyShows(sha, s, e, ConfirmIfDone(s1, run));
    if run in s.proposals {
      DoneIsAll(s1, run, None, s.proposals[run].finalMessageIds);
    }
    hide ProjectData, DoneAmong, Refs;
  }

  predicate AreIn(messages: map<Uuid, MessageRow>, conv: Uuid, ids: seq<Uuid>) {
    forall m | m in ids :: m in messages && messages[m].conversationId == conv
  }

  lemma CountIsFullIff(s: Store, run: Uuid, conv: Uuid, ids: seq<Uuid>)
    ensures |DoneAmong(s, run, Some(conv), ids)| == |ids|
       <==> AreCompleted(s.messages, run, ids) && AreIn(s.messages, conv, ids)
  {
    DoneIsAll(s, run, Some(conv), ids);
    hide DoneAmong;
  }

  /** The proposal that a run has, once the event's is stored. */
  function ProposalAfter(s: Store, e: Envelope): ProposalRow
    requires e.data.ProposedEvent?
  {
    if e.key.runId in s.proposals then s.proposals[e.key.runId]
    else ProposalRow(e.id, e.conversationId, e.data.finalMessageIds, false)
  }

  lemma StoredIs(s: Store, e: Envelope)
    requires Refs(s) && e.conversationId in s.conversations && e.data.ProposedEvent?
    ensures StoreProposal(s, e) == s.(proposals := s.proposals[e.key.runId := ProposalAfter(s, e)])
  {
  }

  lemma ConfirmIs(s: Store, s1: Store, run: Uuid, p: ProposalRow, ids: seq<Uuid>)
    requires s1 == s.(proposals := s.proposals[run := p]) && Refs(s1)
    ensures Confirm(s1, run, ids)
         == if p.confirmed then s1
            else s.(proposals := s.proposals[run := ProposalRow(p.eventId, p.conversationId, p.finalMessageIds, true)],
                    outbox := s.outbox + [ConfirmationOf(s, run, p.conversationId, ids)])
  {
  }

  lemma ProposalChanges(s: Store, e: Envelope)
    requires Refs(s) && e.conversationId in s.conversations && e.data.ProposedEvent?
    ensures var run, ids, conv, c := e.key.runId, e.data.finalMessageIds, e.conversationId, ProjectProposal(s, e);
            var p := ProposalAfter(s, e);
            if ids == [] || Messages !in e.data.required then c == Silent(s)
            else
              && c.Showing? && c.conv == conv && c.shown == RuntimeEvent(e.data)
              && c.store == if !p.confirmed && AreCompleted(s.messages, run, ids) && AreIn(s.messages, conv, ids)
                            then s.(proposals := s.proposals[run := ProposalRow(p.eventId, p.conversationId,
                                                                                p.finalMessageIds, true)],
                                    outbox := s.outbox + [ConfirmationOf(s, run, p.conversationId, ids)])
                            else s.(proposals := s.proposals[run := p])
  {
    hide DoneAmong, IsChange, Confirm, Refs, AreCompleted, AreIn;
    var run, ids := e.key.runId, e.data.finalMessageIds;
    CountIsFullIff(s, run, e.conversationId, ids);
    StoredIs(s, e);
    ConfirmIs(s, StoreProposal(s, e), run, ProposalAfter(s, e), ids);
    hide StoreProposal, ProposalAfter, ConfirmationOf;
  }

  /**
   A result proposal that does not ask for messages is not even shown. Any other is stored unless its run
   has one, shown, and confirmed if its own ids are those of completed messages of its run and
   conversation, and its run is not confirmed yet.
   */
  lemma ProposalIsProjected(sha: seq<Byte> -> Digest, s: Store, e: Envelope)
    requires IsTaken(sha, s, e) && e.data.ProposedEvent?
    ensures var run, ids, conv := e.key.runId, e.data.finalMessageIds, e.conversationId;
            var p := ProposalAfter(s, e);
            if ids == [] || Messages !in e.data.required then
              Project(sha, s, e) == (s.(inbox := s.inbox + {e.id}), Ok(None))
            else if !p.confirmed && AreCompleted(s.messages, run, ids) && AreIn(s.messages, conv, ids) then
                 OnlyShows(sha, s, e, s.(
                   proposals := s.proposals[run := ProposalRow(p.eventId, p.conversationId, p.finalMessageIds, true)],
                   outbox := s.outbox + [ConfirmationOf(s, run, p.conversationId, ids)]))
            else OnlyShows(sha, s, e, s.(proposals := s.proposals[run := p]))
  {
    hide OnlyShows, WhyNot, AreCompleted, AreIn, ConfirmationOf, ProjectProposal, ProposalAfter;
    ProposalChanges(s, e);
    var c := ProjectProposal(s, e);
    if c.Showing? {
      ShowingOnlyShows(sha, s, e, c.store);
    }
  }

  /** The store with both halves in it, as far as they are known. */
  function WithHalf(s: Store, e: Envelope): Store
    requires e.data.InputProposedEvent? || e.data.SuspendedEvent?
  {
    var k, request, commitment := e.data.suspensionId, RequestAfter(s, e), CommitmentAfter(s, e);
    s.(inputs := if request.None? then s.inputs else s.inputs[k := request.value],
       commitments := if commitment.None? then s.commitments else s.commitments[k := commitment.value])
  }

  lemma WithHalfIs(s: Store, e: Envelope)
    requires e.data.InputProposedEvent? || e.data.SuspendedEvent?
    ensures var s1, k := WithHalf(s, e), e.data.suspensionId;
            var request, commitment := RequestAfter(s, e), CommitmentAfter(s, e);
            && s1 == s.(inputs := s1.inputs, commitments := s1.commitments)
            && s1.inputs == (if request.None? then s.inputs else s.inputs[k := request.value])
            && s1.commitments == (if commitment.None? then s.commitments else s.commitments[k := commitment.value])
            && (k in s1.inputs <==> request.Some?) && (k in s1.commitments <==> commitment.Some?)
            && (request.Some? ==> s1.inputs[k] == request.value)
  {
  }

  lemma HalfIsReconciled(sha: seq<Byte> -> Digest, s: Store, e: Envelope)
    requires Refs(s) && e.conversationId in s.conversations && (e.data.InputProposedEvent? || e.data.SuspendedEvent?)
    requires ProjectData(sha, s, e).Ok?
    ensures Refs(WithHalf(s, e)) && ProjectData(sha, s, e) == Reconcile(WithHalf(s, e), e.data.suspensionId)
  {
    hide Reconcile, IsChange;
    var k := e.data.suspensionId;
    assert k in s.inputs ==> s.inputs[k := s.inputs[k]] == s.inputs;
    assert k in s.commitments ==> s.commitments[k := s.commitments[k]] == s.commitments;
  }

  lemma ReconciledIs(s: Store, k: Uuid)
    requires Refs(s) && Reconcile(s, k).Ok?
    ensures var c := Reconcile(s, k).value;
            if k in s.inputs && k in s.commitments && s.inputs[k].state == Reserved then
              var row := s.inputs[k];
              var pending := InputRow(row.conversationId, row.runId, row.checkpointId, row.prompt, Pending, row.answer);
              row.conversationId in s.conversations
              && c == Showing(s.(inputs := s.inputs[k := pending]), row.conversationId,
                           RequestCreated(k, row.checkpointId, row.prompt))
            else c == Silent(s)
  {
  }

  /**
   Each half of a suspension is stored unless it is there already. With both halves there, a request that
   has been reserved becomes pending and is shown, in its own conversation; nothing is shown otherwise.
   */
  lemma HalfIsProjected(sha: seq<Byte> -> Digest, s: Store, e: Envelope)
    requires IsTaken(sha, s, e) && (e.data.InputProposedEvent? || e.data.SuspendedEvent?)
    ensures var (s', outcome) := Project(sha, s, e); var k := e.data.suspensionId;
            var request, commitment := RequestAfter(s, e), CommitmentAfter(s, e);
            && s' == s.(inputs := s'.inputs, commitments := s'.commitments, conversations := s'.conversations,
                        events := s'.events, inbox := s.inbox + {e.id})
            && s'.commitments == (if commitment.None? then s.commitments else s.commitments[k := commitment.value])
            && if request.Some? && commitment.Some? && request.value.state == Reserved then
                 var row := request.value;
                 && row.conversationId in s.conversations
                 && s'.inputs == s.inputs[k := InputRow(row.conversationId, row.runId, row.checkpointId, row.prompt,
                                                        Pending, row.answer)]
                 && outcome.Ok? && outcome.value.Some?
                 && IsShownIn(s, s', row.conversationId, RequestCreated(k, row.checkpointId, row.prompt),
                              outcome.value.value)
               else
                 && s'.inputs == (if request.None? then s.inputs else s.inputs[k := request.value])
                 && outcome == Ok(None) && s'.conversations == s.conversations && s'.events == s.events
  {
    hide WhyNot, ProjectData, Reconcile, WithHalf, RequestAfter, CommitmentAfter, Refs, IsChange;
    HandledIff(sha, s, e);
    HalfIsReconciled(sha, s, e);
    WithHalfIs(s, e);
    ReconciledIs(WithHalf(s, e), e.data.suspensionId);
  }

  // ---------------------------------------------------------------------------------------------
  // Commands

  /** A conversation is opened unless its id or its thread is taken. */
  lemma OpenedIff(s: Store, conv: Uuid, ownerId: Uuid, threadId: Uuid)
    ensures var (s', outcome) := Open(s, conv, ownerId, threadId);
            if conv in s.conversations || exists c :: c in s.conversations && s.conversations[c].threadId == threadId
            then s' == s && outcome == Err("unique_violation")
            else
              && outcome == Ok(())
              && s' == s.(conversations := s.conversations[conv := ConversationRow(ownerId, threadId, 0)])
  {
  }

  /**
   A message is posted to the owner's conversation unless its id is taken; then its run is requested,
   with its text, and it is shown. A key that was used gives its number again for the same request.
   */
  lemma PostDecides(s: Store, ownerId: Uuid, conv: Uuid, key: string, m: Uuid, run: Uuid, content: string)
    ensures var request := NewMessage(m, run, content); var used := IdempotencyKey(ownerId, PostTo(conv), key);
            var (s', outcome) := Post(s, ownerId, conv, key, request);
            if !IsOwner(s, ownerId, conv) then s' == s && outcome == Err("conversation_not_found")
            else if used in s.idempotency then
              s' == s && outcome == if s.idempotency[used].request == request
                                    then Ok(s.idempotency[used].conversationSequence) else Err("idempotency_conflict")
            else if m in s.messages then s' == s && outcome == Err("message_exists")
            else
              && outcome.Ok? && IsShownIn(s, s', conv, UserMessage(m, content), outcome.value)
              && s' == s.(conversations := s'.conversations, events := s'.events,
                          messages := s.messages[m := MessageRow(conv, run, User, Completed, content)],
                          outbox := s.outbox + [RunRequested(ownerId, conv, s.conversations[conv].threadId, run,
                                                             ByMessage(m, content))],
                          idempotency := s.idempotency[used := IdempotencyRow(request, outcome.value)])
  {
  }

  /**
   A pending request of the owner's conversation is answered; then a run is requested with the answer,
   from the request's checkpoint, and the acceptance is shown. A key that was used gives its number again
   for the same answer.
   */
  lemma AnswerDecides(s: Store, ownerId: Uuid, requestId: RequestId, key: string, answer: Answer)
    requires Refs(s)
    ensures var used := IdempotencyKey(ownerId, AnswerTo(requestId), key);
            var (s', outcome) := AnswerInput(s, ownerId, requestId, key, answer);
            if requestId.Claimed? || requestId.suspensionId !in s.inputs
               || !IsOwner(s, ownerId, s.inputs[requestId.suspensionId].conversationId)
            then s' == s && outcome == Err("input_request_not_found")
            else if used in s.idempotency then
              s' == s && outcome == if s.idempotency[used].request == NewAnswer(answer)
                                    then Ok(s.idempotency[used].conversationSequence) else Err("idempotency_conflict")
            else
              var k := requestId.suspensionId; var row := s.inputs[k]; var conv := row.conversationId;
              if row.state != Pending then s' == s && outcome == Err("input_already_answered")
              else
                && outcome.Ok? && IsShownIn(s, s', conv, ResponseAccepted(requestId), outcome.value)
                && s' == s.(conversations := s'.conversations, events := s'.events,
                            inputs := s.inputs[k := InputRow(conv, row.runId, row.checkpointId, row.prompt, Answered,
                                                             Some(answer))],
                            outbox := s.outbox + [RunRequested(
                              ownerId, conv, s.conversations[conv].threadId, answer.runId,
                              ByResponse(requestId, answer.response, row.checkpointId))],
                            idempotency := s.idempotency[used := IdempotencyRow(NewAnswer(answer), outcome.value)])
  {
  }

  /** Only the owner of a conversation is shown its events. */
  lemma ReplayedIff(s: Store, ownerId: Uuid, conv: Uuid, cursor: nat, limit: nat)
    ensures var page := Replay(s, ownerId, conv, cursor, limit);
            if IsOwner(s, ownerId, conv) then page.Ok? else page == Err("conversation_not_found")
  {
  }
}
