/**
 What the Runtime API decides, spelled out in what frames, capabilities and rows hold: what is refused
 and why, what a call is answered, and what the events it publishes carry.
 */
module RuntimeDecisions {
  import opened Wrappers
  import opened Utf8
  import opened Protocol
  import opened RuntimeApi
  import opened AgentStream
  import Runner
  import Convergence = RunnerConvergence
  import Lifecycle = RunnerLifecycle

  // ---------------------------------------------------------------------------------------------
  // Payloads

  /** Bytes that are the encoding of a text. */
  ghost predicate IsText(bytes: seq<Byte>) {
    exists text :: Encode(text) == bytes
  }

  lemma DecodesIffText(bytes: seq<Byte>)
    ensures Decode(bytes).Some? <==> IsText(bytes)
    ensures Decode(bytes).Some? ==> Encode(Decode(bytes).value) == bytes
  {
    hide Encode, Decode;
    if Decode(bytes).Some? {
      DecodedIsEncoded(bytes);
    }
    if IsText(bytes) {
      var text :| Encode(text) == bytes;
      DecodeInvertsEncode(text);
    }
  }

  /** Why a payload is refused, if it is. */
  ghost function Reason(sha: seq<Byte> -> Digest, payload: Payload): Option<string> {
    match payload
    case MessageDelta(_, _, bytes) =>
      if !IsText(bytes) then Some("invalid_utf8")
      else if |bytes| == 0 || |bytes| > 4096 then Some("chunk_size_invalid")
      else None
    case MessageCompleted(_, bytes, chunkCount, contentBytes, digest) =>
      if |bytes| != contentBytes || digest != sha(bytes) || chunkCount > 65536 then Some("completion_hash_invalid")
      else if !IsText(bytes) then Some("unicode_decode_error")
      else if |bytes| > 262144 then Some("message_too_large")
      else None
    case ResultProposed(ids, _) =>
      if |ids| > 64 || exists i, j :: 0 <= i < j < |ids| && ids[i] == ids[j] then Some("result_proposal_invalid")
      else None
    case _ => None
  }

  /** A delta is refused unless it is 1 to 4096 bytes of text, and so on for the other kinds. */
  lemma RefusedFor(sha: seq<Byte> -> Digest, payload: Payload)
    ensures Refusal(sha, payload) == Reason(sha, payload)
  {
    match payload {
      case MessageDelta(_, _, bytes) => DecodesIffText(bytes);
      case MessageCompleted(_, bytes, _, _, _) => DecodesIffText(bytes);
      case _ =>
    }
    hide Encode, Decode;
  }

  // ---------------------------------------------------------------------------------------------
  // Activation and acceptance

  /** The attempt is of the run's epoch or a newer one, and no other attempt has its epoch. */
  predicate MayActivate(t: Tables, cap: Capability) {
    cap.key.runId in t.attempts ==>
      var row := t.attempts[cap.key.runId];
      row.leaseEpoch < cap.key.leaseEpoch
      || (row.leaseEpoch == cap.key.leaseEpoch && row.attemptId == cap.key.attemptId)
  }

  /** Whether the run's row is of the attempt's epoch already. */
  predicate IsResumed(t: Tables, cap: Capability) {
    cap.key.runId in t.attempts && t.attempts[cap.key.runId].leaseEpoch == cap.key.leaseEpoch
  }

  /**
   Activation goes on where the epoch has stopped, or begins a new epoch at 0 and in the capability's
   name. It fails for an older epoch, and for another attempt of the same.
   */
  lemma ActivatedIff(t: Tables, cap: Capability)
    ensures var (t', resume) := Activate(t, cap); var run := cap.key.runId;
            && (resume.Ok? <==> MayActivate(t, cap))
            && (resume.Err? ==>
                  t' == t && resume == Err(if t.attempts[run].leaseEpoch > cap.key.leaseEpoch then "stale_epoch"
                                           else "attempt_mismatch"))
            && (resume.Ok? && IsResumed(t, cap) ==> t' == t && resume == Ok(t.attempts[run].lastSequence))
            && (resume.Ok? && !IsResumed(t, cap) ==>
                  && resume == Ok(0) && t'.accepted == t.accepted && t'.outbox == t.outbox
                  && t'.attempts == t.attempts[run := AttemptRow(cap.key.attemptId, cap.key.leaseEpoch, cap.userId,
                                                                 cap.conversationId, cap.threadId, 0)])
  {
  }

  /** The kinds of frame that are published as events. */
  predicate IsPublished(payload: Payload) {
    match payload
    case MessageStarted(_) => true
    case MessageDelta(_, _, _) => true
    case MessageCompleted(_, _, _, _, _) => true
    case MessageInterrupted(_, _) => true
    case InputRequestProposed(_, _, _) => true
    case SuspensionCommitted(_, _, _) => true
    case ResultProposed(_, _) => true
    case _ => false
  }

  predicate IsStored(t: Tables, cap: Capability, frame: Frame) {
    RowKey(cap.key, frame.idempotencyKey) in t.accepted
  }

  /** Why a frame is not accepted, unless it is or has been. */
  ghost function WhyNotAccepted(sha: seq<Byte> -> Digest, t: Tables, cap: Capability, frame: Frame): Option<string> {
    if frame.payload.Unset? || frame.payload.Hello? then Some("invalid_frame")
    else if !IsResumed(t, cap) then Some("stale_epoch")
    else if IsStored(t, cap, frame) then
      if t.accepted[RowKey(cap.key, frame.idempotencyKey)].frame.sequence == frame.sequence then None
      else Some("idempotency_conflict")
    else if frame.sequence != t.attempts[cap.key.runId].lastSequence + 1 then Some("sequence_out_of_order")
    else Reason(sha, frame.payload)
  }

  /**
   A frame is accepted if and only if it says something, its attempt's epoch is current, and it is the
   next one and not refused; a frame under a known key with the same number is answered as before. Then
   the row, the number and, for the kinds that are published, one event are recorded together.
   */
  lemma AcceptedIff(sha: seq<Byte> -> Digest, t: Tables, cap: Capability, frame: Frame, eventId: Uuid)
    ensures var (t', event) := Accept(sha, t, cap, frame, eventId); var why := WhyNotAccepted(sha, t, cap, frame);
            var row := RowKey(cap.key, frame.idempotencyKey);
            && (if why.None? then event.Ok? else event == Err(why.value))
            && (why.Some? || IsStored(t, cap, frame) ==> t' == t)
            && (why.None? && IsStored(t, cap, frame) ==> event == Ok(t.accepted[row].durableEventId))
            && (why.None? && !IsStored(t, cap, frame) ==>
                  && event == Ok(if IsPublished(frame.payload) then Some(eventId) else None)
                  && t'.attempts == t.attempts[cap.key.runId :=
                                      t.attempts[cap.key.runId].(lastSequence := frame.sequence)]
                  && t'.accepted == t.accepted[row := AcceptedFrame(frame, event.value)]
                  && (if IsPublished(frame.payload)
                      then |t'.outbox| == |t.outbox| + 1 && t'.outbox[..|t.outbox|] == t.outbox
                           && IsEventFor(t'.outbox[|t.outbox|], cap, frame, eventId)
                      else t'.outbox == t.outbox))
  {
    RefusedFor(sha, frame.payload);
    hide Refusal, Reason, DataOf, IsEventFor;
    if IsPublished(frame.payload) && Refusal(sha, frame.payload).None? {
      EventCarries(sha, cap, frame, eventId);
    }
  }

  // ---------------------------------------------------------------------------------------------
  // Answers

  /** A frame of more than 16 KiB, its text included. */
  predicate IsTooLarge(frame: Frame) {
    var text := match frame.payload
                case MessageDelta(_, _, bytes) => |bytes|
                case MessageCompleted(_, bytes, _, _, _) => |bytes|
                case _ => 0;
    frame.otherBytes + text > 16384
  }

  /** A hello that shows a capability for the attempt it names, which may be activated. */
  predicate IsWelcome(t: Tables, frame: Frame) {
    && frame.payload.Hello? && frame.payload.capability.Some? && frame.key == frame.payload.capability.value.key
    && MayActivate(t, frame.payload.capability.value)
  }

  /** The first frame of a call is answered as a hello that shows a capability, or the call ends. */
  lemma FirstIsAnswered(sha: seq<Byte> -> Digest, t: Tables, frame: Frame, eventId: Uuid, gateway: Gateway)
    ensures var served := Serve(sha, t, None, frame, eventId, gateway);
            if IsTooLarge(frame) then served == Served(t, None, [ProtocolError("frame_too_large")], true)
            else if !frame.payload.Hello? then served == Served(t, None, [ProtocolError("hello_required")], false)
            else if !IsWelcome(t, frame) then
              served == Served(t, None, [ProtocolError("capability_invalid")], false)
            else
              var cap := frame.payload.capability.value;
              && served.capability == Some(cap) && served.open && served.tables == Activate(t, cap).0
              && served.replies
                 == [HelloAccepted(if IsResumed(t, cap) then t.attempts[cap.key.runId].lastSequence else 0)]
  {
  }

  /** Why a later frame of a call is answered with an error, unless it is not. */
  ghost function WhyNotAnswered(sha: seq<Byte> -> Digest, t: Tables, cap: Capability, frame: Frame, gateway: Gateway)
    : Option<string>
  {
    if IsTooLarge(frame) then Some("frame_too_large")
    else if frame.key != cap.key then Some("identity_mismatch")
    else if frame.sequence < 1 then Some("sequence_out_of_order")
    else if (frame.payload.ModelCall? || frame.payload.ToolCall?) && gateway.Raised? then Some(gateway.code)
    else WhyNotAccepted(sha, t, cap, frame)
  }

  /**
   Any later frame is accepted and answered with its result, if it asked for one, and its
   acknowledgement; or it is answered with one error and changes nothing, and the call ends if the
   attempt is not the call's or not the current one.
   */
  lemma LaterIsAnswered(sha: seq<Byte> -> Digest, t: Tables, cap: Capability, frame: Frame, eventId: Uuid,
                        gateway: Gateway)
    ensures var served := Serve(sha, t, Some(cap), frame, eventId, gateway);
            var why := WhyNotAnswered(sha, t, cap, frame, gateway);
            && served.capability == Some(cap)
            && (why.Some? ==>
                  && served.tables == t && served.replies == [ProtocolError(why.value)]
                  && served.open == (why.value != "stale_epoch" && why.value != "identity_mismatch"))
            && (why.None? ==>
                  && served.open && served.tables == Accept(sha, t, cap, frame, eventId).0
                  && Accept(sha, t, cap, frame, eventId).1.Ok?
                  && var ack := Acknowledgement(frame.sequence, Accept(sha, t, cap, frame, eventId).1.value);
                     served.replies == match frame.payload
                                       case ModelCall(id) => [ModelResult(id), ack]
                                       case ToolCall(id, _, _, _) =>
                                         if gateway.Returned? && gateway.presentable then [ToolResult(id), ack]
                                         else [ProtocolError("tool_response_invalid")]
                                       case _ => [ack])
  {
    AcceptedIff(sha, t, cap, frame, eventId);
    hide Refusal, Reason, Accept, WhyNotAccepted, IsEventFor;
  }

  // ---------------------------------------------------------------------------------------------
  // Events

  /** What an event's data says of the payload that it was made of. */
  predicate Carries(data: EventData, payload: Payload) {
    match payload
    case MessageStarted(m) => data == StartedEvent(m)
    case MessageDelta(m, n, bytes) =>
      data.DeltaEvent? && data.messageId == m && data.chunkSequence == n && Encode(data.content) == bytes
    case MessageCompleted(m, bytes, count, size, digest) =>
      && data.CompletedEvent? && data.messageId == m && Encode(data.content) == bytes
      && data.chunkCount == (if count == 0 then None else Some(count))
      && data.contentBytes == (if size == 0 then None else Some(size)) && data.contentSha256 == digest
    case MessageInterrupted(m, code) => data == InterruptedEvent(m, code)
    case InputRequestProposed(suspension, checkpoint, prompt) =>
      data == InputProposedEvent(suspension, checkpoint, if prompt == "" then None else Some(prompt))
    case SuspensionCommitted(suspension, checkpoint, request) => data == SuspendedEvent(suspension, checkpoint, request)
    case ResultProposed(ids, checkpoint) =>
      && data.ProposedEvent? && data.finalMessageIds == ids && data.finalCheckpointId == checkpoint
      && (Messages in data.required <==> ids != []) && (Checkpoint in data.required <==> checkpoint.Some?)
      && Distinct(data.required)
    case _ => false
  }

  /** An event in the name of a capability, for a frame, and with what the frame says. */
  predicate IsEventFor(e: Envelope, cap: Capability, frame: Frame, eventId: Uuid) {
    && e.id == eventId && e.userId == cap.userId && e.conversationId == cap.conversationId && e.threadId == cap.threadId
    && e.key == cap.key && e.aggregateSequence == frame.sequence && Carries(e.data, frame.payload)
  }

  lemma EventCarries(sha: seq<Byte> -> Digest, cap: Capability, frame: Frame, eventId: Uuid)
    requires IsPublished(frame.payload) && Refusal(sha, frame.payload).None?
    ensures IsEvent(frame.payload) && IsEventFor(EventOf(sha, cap, frame, eventId), cap, frame, eventId)
  {
    match frame.payload {
      case MessageDelta(_, _, bytes) => DecodesIffText(bytes);
      case MessageCompleted(_, bytes, _, _, _) => DecodesIffText(bytes);
      case _ =>
    }
    hide Encode, Decode;
  }

  /** An accepted frame of an agent, whose event this is. */
  ghost predicate IsOfRow(s: System, e: Envelope, r: RowKey) {
    && r in s.tables.accepted && r.attempt in s.agents && s.tables.accepted[r].durableEventId == Some(e.id)
    && IsEventFor(e, s.agents[r.attempt].cap, s.tables.accepted[r].frame, e.id)
  }

  ghost predicate EventsAreOfRows(s: System) {
    forall e | e in s.tables.outbox :: exists r :: IsOfRow(s, e, r)
  }

  lemma StillOfRow(s: System, s': System, e: Envelope, r: RowKey)
    requires IsOfRow(s, e, r) && r in s'.tables.accepted && s'.tables.accepted[r] == s.tables.accepted[r]
    requires r.attempt in s'.agents && s'.agents[r.attempt].cap == s.agents[r.attempt].cap
    ensures IsOfRow(s', e, r)
  {
  }

  lemma StepKeepsCapability(sha: seq<Byte> -> Digest, s: System, step: Step, k: AttemptKey)
    requires Enabled(s, step) && k in s.agents
    ensures k in Apply(sha, s, step).agents && Apply(sha, s, step).agents[k].cap == s.agents[k].cap
  {
    hide Serve;
  }

  lemma ExtensionIsOfRows(sha: seq<Byte> -> Digest, s: System, s': System, k: AttemptKey, frame: Frame, eventId: Uuid)
    requires EventsAreOfRows(s) && Extends(sha, s, s', k, frame, eventId)
    ensures EventsAreOfRows(s')
  {
    hide Refusal, EventOf, Carries;
    forall e | e in s'.tables.outbox ensures exists r :: IsOfRow(s', e, r) {
      if e in s.tables.outbox {
        var r :| IsOfRow(s, e, r);
        StillOfRow(s, s', e, r);
      } else {
        assert IsEvent(frame.payload) <==> IsPublished(frame.payload);
        EventCarries(sha, s.agents[k].cap, frame, eventId);
        assert e == EventOf(sha, s.agents[k].cap, frame, eventId);
        assert IsOfRow(s', e, RowKey(k, frame.idempotencyKey));
      }
    }
  }

  lemma SameRowsKeep(s: System, s': System)
    requires EventsAreOfRows(s) && s'.tables.accepted == s.tables.accepted && s'.tables.outbox == s.tables.outbox
    requires forall k | k in s.agents :: k in s'.agents && s'.agents[k].cap == s.agents[k].cap
    ensures EventsAreOfRows(s')
  {
    hide IsEventFor;
    forall e | e in s'.tables.outbox ensures exists r :: IsOfRow(s', e, r) {
      var r :| IsOfRow(s, e, r);
      StillOfRow(s, s', e, r);
    }
  }

  lemma StepKeepsEvents(sha: seq<Byte> -> Digest, s: System, step: Step)
    requires Inv(sha, s) && Enabled(s, step) && EventsAreOfRows(s)
    ensures EventsAreOfRows(Apply(sha, s, step))
  {
    hide Inv, EventsAreOfRows, IsOtherDelivery, Extends, Serve;
    var s' := Apply(sha, s, step);
    forall k | k in s.agents ensures k in s'.agents && s'.agents[k].cap == s.agents[k].cap {
      StepKeepsCapability(sha, s, step, k);
    }
    if step.Deliver? && IsAcceptance(sha, s, step) {
      AcceptanceExtends(sha, s, step);
      ExtensionIsOfRows(sha, s, s', step.frame.key, step.frame, step.eventId);
    } else {
      if step.Deliver? {
        OtherDelivery(sha, s, step);
        OtherKeepsRows(sha, s, step);
      }
      SameRowsKeep(s, s');
    }
  }

  lemma OtherKeepsRows(sha: seq<Byte> -> Digest, s: System, step: Step)
    requires step.Deliver? && step.call in s.calls && step.frame.key in s.agents
    requires IsOtherDelivery(s, step.frame.key, step.call, ServedBy(sha, s, step))
    ensures ServedBy(sha, s, step).tables.accepted == s.tables.accepted
    ensures ServedBy(sha, s, step).tables.outbox == s.tables.outbox
  {
    hide Serve;
  }

  lemma {:induction false} RunKeepsEvents(sha: seq<Byte> -> Digest, s: System, steps: seq<Step>)
    requires Inv(sha, s) && EventsAreOfRows(s)
    ensures EventsAreOfRows(Run(sha, s, steps))
    decreases |steps|
  {
    hide Inv, Enabled, Apply, EventsAreOfRows;
    if steps != [] {
      if Enabled(s, steps[0]) {
        StepKeepsEvents(sha, s, steps[0]);
        StepKeepsInv(sha, s, steps[0]);
        RunKeepsEvents(sha, Apply(sha, s, steps[0]), steps[1..]);
      } else {
        RunKeepsEvents(sha, s, steps[1..]);
      }
    }
  }

  /**
   Every event that is published, in every run, is that of an accepted frame of its attempt: it is in the
   capability's name and says what the frame says, field by field.
   */
  lemma PublishedIsAccepted(sha: seq<Byte> -> Digest, steps: seq<Step>, e: Envelope)
    requires e in Run(sha, INITIAL, steps).tables.outbox
    ensures exists r :: IsOfRow(Run(sha, INITIAL, steps), e, r)
  {
    hide Run, IsOfRow;
    InitialInv(sha);
    assert EventsAreOfRows(INITIAL);
    RunKeepsEvents(sha, INITIAL, steps);
  }

  /** A published result proposal as the Runner receives it, for a run's trace. */
  function AsRunEvent(e: Envelope, traceId: Uuid): Runner.RunEvent
    requires e.data.ProposedEvent?
  {
    Runner.RunEvent(e.id, e.key.runId, Runner.Binding(e.userId, e.conversationId, e.threadId, traceId),
                    Runner.ResultProposal(e.key.attemptId, e.key.leaseEpoch, e.data.finalMessageIds,
                                          e.data.finalCheckpointId, e.data.required))
  }

  /**
   Every published result proposal is a valid one for the Runner, and taken by it unless another is
   stored, while its attempt is the run's active one and the run is bound as the event says.
   */
  lemma PublishedProposalIsValid(sha: seq<Byte> -> Digest, steps: seq<Step>, e: Envelope, db: Runner.Db, traceId: Uuid)
    requires e in Run(sha, INITIAL, steps).tables.outbox && e.data.ProposedEvent? && e.key.runId in db.runs
    requires db.runs[e.key.runId].binding == Runner.Binding(e.userId, e.conversationId, e.threadId, traceId)
    requires db.runs[e.key.runId].activeAttemptId == Some(e.key.attemptId)
    requires db.runs[e.key.runId].leaseEpoch == e.key.leaseEpoch
    ensures Convergence.IsValidProposal(db, AsRunEvent(e, traceId))
    ensures e.key.runId !in db.completions && e.id !in db.inbox ==>
              Runner.Consume(db, AsRunEvent(e, traceId)).1 == Ok(true)
  {
    hide Run;
    PublishedIsAccepted(sha, steps, e);
    var r :| IsOfRow(Run(sha, INITIAL, steps), e, r);
    Lifecycle.DedupMembers(e.data.required);
    hide Runner.Dedup, Runner.Converge;
  }
}
