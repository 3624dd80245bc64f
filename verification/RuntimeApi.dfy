/**
 The Runtime API's durable state and its two transactions: activating a lease epoch and
 accepting a frame. Each is a function from one state to the next, and a method of
 RuntimeService that changes the tables step by step.
 */
module RuntimeApi {
  import opened Wrappers
  import opened Utf8
  import opened Protocol

  const MAX_DELTA_BYTES: nat := 4096
  const MAX_MESSAGE_BYTES: nat := 256 * 1024
  const MAX_CHUNKS: nat := 65536
  const MAX_FINAL_MESSAGES: nat := 64

  datatype AttemptRow = AttemptRow(
    attemptId: Uuid, leaseEpoch: nat, userId: Uuid, conversationId: Uuid, threadId: Uuid, lastSequence: nat)

  /** accepted_frames is unique on attempt and idempotency key. */
  datatype RowKey = RowKey(attempt: AttemptKey, idempotencyKey: string)

  datatype AcceptedFrame = AcceptedFrame(frame: Frame, durableEventId: Option<Uuid>)

  datatype Tables = Tables(
    attempts: map<Uuid, AttemptRow>, accepted: map<RowKey, AcceptedFrame>, outbox: seq<Envelope>)

  /** What connect writes back. */
  datatype Reply =
    | HelloAccepted(resumeAfterSequence: nat)
    | ModelResult(requestId: Uuid)
    | ToolResult(invocationId: Option<Uuid>)
    | Acknowledgement(acceptedSequence: nat, durableEventId: Option<Uuid>)
    | ProtocolError(code: string)

  /**
   How a model or tool call ends, before its frame is looked at: an error of its own checks, of what is
   stored about it or of its gateway; or a result, and not every tool result fits its frame.
   */
  datatype Gateway = Raised(code: string) | Returned(presentable: bool)

  // ---------------------------------------------------------------------------------------------
  // Frames and the events they produce

  /** The kinds of frame that produce an event for other services. */
  predicate IsEvent(payload: Payload) {
    payload.MessageStarted? || payload.MessageDelta? || payload.MessageCompleted? || payload.MessageInterrupted?
    || payload.InputRequestProposed? || payload.SuspensionCommitted? || payload.ResultProposed?
  }

  function RequiredConfirmations(messageIds: seq<Uuid>, checkpointId: Option<Uuid>): seq<Confirmation> {
    (if messageIds != [] then [Messages] else []) + (if checkpointId.Some? then [Checkpoint] else [])
  }

  /** The reason a payload is refused, if there is one. */
  function Refusal(sha: seq<Byte> -> Digest, payload: Payload): Option<string> {
    match payload
    case MessageDelta(_, _, bytes) =>
      (match Decode(bytes)
       case None => Some("invalid_utf8")
       case Some(content) =>
         if content == "" || |bytes| > MAX_DELTA_BYTES then Some("chunk_size_invalid") else None)
    case MessageCompleted(_, bytes, chunkCount, contentBytes, digest) =>
      if |bytes| != contentBytes || sha(bytes) != digest || chunkCount > MAX_CHUNKS then Some("completion_hash_invalid")
      else if Decode(bytes).None? then Some("unicode_decode_error")
      else if |bytes| > MAX_MESSAGE_BYTES then Some("message_too_large")
      else None
    case ResultProposed(ids, _) =>
      if |ids| > MAX_FINAL_MESSAGES || !Distinct(ids) then Some("result_proposal_invalid") else None
    case _ => None
  }

  /** The JSON form of a message leaves out fields that hold zero or the empty string. */
  function IfNonzero(n: nat): Option<nat> {
    if n == 0 then None else Some(n)
  }

  function IfNonempty(s: string): Option<string> {
    if s == "" then None else Some(s)
  }

  function DataOf(sha: seq<Byte> -> Digest, payload: Payload): EventData
    requires IsEvent(payload) && Refusal(sha, payload).None?
  {
    match payload
    case MessageStarted(id) => StartedEvent(id)
    case MessageDelta(id, n, bytes) => DeltaEvent(id, n, Decode(bytes).value)
    case MessageCompleted(id, bytes, count, size, digest) =>
      CompletedEvent(id, Decode(bytes).value, IfNonzero(count), IfNonzero(size), digest)
    case MessageInterrupted(id, code) => InterruptedEvent(id, code)
    case InputRequestProposed(s, c, prompt) => InputProposedEvent(s, c, IfNonempty(prompt))
    case SuspensionCommitted(s, c, r) => SuspendedEvent(s, c, r)
    case ResultProposed(ids, c) => ProposedEvent(ids, c, RequiredConfirmations(ids, c))
  }

  function EventOf(sha: seq<Byte> -> Digest, cap: Capability, frame: Frame, eventId: Uuid): Envelope
    requires IsEvent(frame.payload) && Refusal(sha, frame.payload).None?
  {
    Envelope(eventId, cap.userId, cap.conversationId, cap.threadId, cap.key, frame.sequence, DataOf(sha, frame.payload))
  }

  // ---------------------------------------------------------------------------------------------
  // The transactions

  function Activate(t: Tables, cap: Capability): (Tables, Result<nat, string>) {
    var run := cap.key.runId;
    if run in t.attempts && t.attempts[run].leaseEpoch > cap.key.leaseEpoch then (t, Err("stale_epoch"))
    else if run in t.attempts && t.attempts[run].leaseEpoch == cap.key.leaseEpoch then
      if t.attempts[run].attemptId != cap.key.attemptId then (t, Err("attempt_mismatch"))
      else (t, Ok(t.attempts[run].lastSequence))
    else
      var row := AttemptRow(cap.key.attemptId, cap.key.leaseEpoch, cap.userId, cap.conversationId, cap.threadId, 0);
      (t.(attempts := t.attempts[run := row]), Ok(0))
  }

  /** What a new row of accepted_frames records, and what it adds to the outbox. */
  function Record(sha: seq<Byte> -> Digest, t: Tables, cap: Capability, frame: Frame, eventId: Uuid): Tables
    requires cap.key.runId in t.attempts && Refusal(sha, frame.payload).None?
  {
    var run := cap.key.runId;
    var published := IsEvent(frame.payload);
    Tables(
      t.attempts[run := t.attempts[run].(lastSequence := frame.sequence)],
      t.accepted[RowKey(cap.key, frame.idempotencyKey) :=
        AcceptedFrame(frame, if published then Some(eventId) else None)],
      if published then t.outbox + [EventOf(sha, cap, frame, eventId)] else t.outbox)
  }

  function Accept(sha: seq<Byte> -> Digest, t: Tables, cap: Capability, frame: Frame, eventId: Uuid)
    : (Tables, Result<Option<Uuid>, string>)
  {
    var run := cap.key.runId;
    var row := RowKey(cap.key, frame.idempotencyKey);
    if frame.payload.Unset? || frame.payload.Hello? then (t, Err("invalid_frame"))
    else if run !in t.attempts || t.attempts[run].leaseEpoch != cap.key.leaseEpoch then (t, Err("stale_epoch"))
    else if row in t.accepted then
      if t.accepted[row].frame.sequence != frame.sequence then (t, Err("idempotency_conflict"))
      else (t, Ok(t.accepted[row].durableEventId))
    else if frame.sequence != t.attempts[run].lastSequence + 1 then (t, Err("sequence_out_of_order"))
    else if Refusal(sha, frame.payload).Some? then (t, Err(Refusal(sha, frame.payload).value))
    else (Record(sha, t, cap, frame, eventId), Ok(if IsEvent(frame.payload) then Some(eventId) else None))
  }

  /** One frame of a call: the capability the call has shown so far, and whether the call goes on. */
  datatype Served = Served(tables: Tables, capability: Option<Capability>, replies: seq<Reply>, open: bool)

  predicate IsGatewayCall(payload: Payload) {
    payload.ModelCall? || payload.ToolCall?
  }

  /** Whether connect makes the frame's model or tool call; it does so before it looks at the epoch. */
  predicate MakesCall(shown: Option<Capability>, frame: Frame) {
    Fits(frame) && shown.Some? && frame.key == shown.value.key && frame.sequence >= 1 && IsGatewayCall(frame.payload)
  }

  /** What an accepted frame is answered with: a result if it asked for one, and the acknowledgement. */
  function Answers(frame: Frame, id: Option<Uuid>, gateway: Gateway): seq<Reply> {
    var acknowledgement := Acknowledgement(frame.sequence, id);
    match frame.payload
    case ModelCall(requestId) => [ModelResult(requestId), acknowledgement]
    case ToolCall(invocationId, _, _, _) =>
      if gateway == Returned(false) then [ProtocolError("tool_response_invalid")]
      else [ToolResult(invocationId), acknowledgement]
    case _ => [acknowledgement]
  }

  /**
   What connect does with one frame. The outcome of its model or tool call is an input; an error
   there keeps the frame from being accepted.
   */
  function Serve(sha: seq<Byte> -> Digest, t: Tables, shown: Option<Capability>, frame: Frame, eventId: Uuid,
                 gateway: Gateway): Served
  {
    if !Fits(frame) then Served(t, shown, [ProtocolError("frame_too_large")], true)
    else
      match shown
      case None =>
        (match frame.payload
         case Hello(Some(cap)) =>
           if frame.key != cap.key then Served(t, None, [ProtocolError("capability_invalid")], false)
           else
             (match Activate(t, cap)
              case (t', Ok(resume)) => Served(t', Some(cap), [HelloAccepted(resume)], true)
              case (t', Err(_)) => Served(t', None, [ProtocolError("capability_invalid")], false))
         case Hello(None) => Served(t, None, [ProtocolError("capability_invalid")], false)
         case _ => Served(t, None, [ProtocolError("hello_required")], false))
      case Some(cap) =>
        if frame.key != cap.key then Served(t, shown, [ProtocolError("identity_mismatch")], false)
        else if frame.sequence < 1 then Served(t, shown, [ProtocolError("sequence_out_of_order")], true)
        else if IsGatewayCall(frame.payload) && gateway.Raised? then
          Served(t, shown, [ProtocolError(gateway.code)],
                 gateway.code != "stale_epoch" && gateway.code != "identity_mismatch")
        else
          match Accept(sha, t, cap, frame, eventId)
          case (t', Ok(id)) => Served(t', shown, Answers(frame, id, gateway), true)
          case (t', Err(code)) =>
            Served(t', shown, [ProtocolError(code)], code != "stale_epoch" && code != "identity_mismatch")
  }

  /** A whole call: frames in order, each with the event id and gateway outcome that go with it. */
  datatype Arrival = Arrival(frame: Frame, eventId: Uuid, gateway: Gateway)

  function ServeAll(sha: seq<Byte> -> Digest, t: Tables, shown: Option<Capability>, arrivals: seq<Arrival>)
    : (Tables, seq<Reply>)
    decreases arrivals
  {
    if arrivals == [] then (t, [])
    else
      var first := Serve(sha, t, shown, arrivals[0].frame, arrivals[0].eventId, arrivals[0].gateway);
      if !first.open then (first.tables, first.replies)
      else
        var rest := ServeAll(sha, first.tables, first.capability, arrivals[1..]);
        (rest.0, first.replies + rest.1)
  }

  /** Replies that come after others. */
  function After(served: (Tables, seq<Reply>), earlier: seq<Reply>): (Tables, seq<Reply>) {
    (served.0, earlier + served.1)
  }

  lemma ServeNext(sha: seq<Byte> -> Digest, t: Tables, shown: Option<Capability>, arrivals: seq<Arrival>, i: nat,
                  earlier: seq<Reply>)
    requires i < |arrivals|
    ensures var next := arrivals[i]; var first := Serve(sha, t, shown, next.frame, next.eventId, next.gateway);
            After(ServeAll(sha, t, shown, arrivals[i..]), earlier)
            == if !first.open then (first.tables, earlier + first.replies)
               else After(ServeAll(sha, first.tables, first.capability, arrivals[i + 1..]), earlier + first.replies)
  {
    hide Serve;
    var next := arrivals[i];
    var first := Serve(sha, t, shown, next.frame, next.eventId, next.gateway);
    assert arrivals[i..][0] == next && arrivals[i..][1..] == arrivals[i + 1..];
    var rest := ServeAll(sha, first.tables, first.capability, arrivals[i + 1..]).1;
    assert earlier + (first.replies + rest) == (earlier + first.replies) + rest;
  }

  lemma ServeNone(sha: seq<Byte> -> Digest, t: Tables, shown: Option<Capability>, earlier: seq<Reply>)
    ensures After(ServeAll(sha, t, shown, []), earlier) == (t, earlier)
  {
    assert earlier + [] == earlier;
  }

  // ---------------------------------------------------------------------------------------------
  // What acceptance guarantees on its own

  /** Re-delivering an accepted frame changes nothing and returns the event id it was given. */
  lemma RedeliveryIsIdempotent(
    sha: seq<Byte> -> Digest, t: Tables, cap: Capability, frame: Frame, eventId: Uuid, laterId: Uuid)
    requires Accept(sha, t, cap, frame, eventId).1.Ok?
    ensures var (t', first) := Accept(sha, t, cap, frame, eventId);
            Accept(sha, t', cap, frame, laterId) == (t', first)
  {
  }

  /** A frame of an open call that adds no row changes nothing, and is acknowledged only if its row is there. */
  lemma ServeWithoutAcceptance(sha: seq<Byte> -> Digest, t: Tables, cap: Capability, frame: Frame, eventId: Uuid,
                               gateway: Gateway)
    ensures var served := Serve(sha, t, Some(cap), frame, eventId, gateway);
            var row := RowKey(cap.key, frame.idempotencyKey);
            row in t.accepted || row !in served.tables.accepted ==>
              && served.tables == t && served.capability == Some(cap)
              && forall reply | reply in served.replies :: !reply.HelloAccepted?
                   && (reply.Acknowledgement? ==>
                         frame.key == cap.key && row in t.accepted && t.accepted[row].frame.sequence == frame.sequence
                         && reply.acceptedSequence == frame.sequence)
  {
    hide Refusal, EventOf;
  }

  /**
   The next frame of a current attempt, if nothing else is wrong with a frame of its kind that fits, is
   accepted and acknowledged if and only if it fits.
   */
  lemma NextIsAcceptedIffItFits(sha: seq<Byte> -> Digest, t: Tables, cap: Capability, frame: Frame, eventId: Uuid,
                                gateway: Gateway)
    requires frame.key == cap.key && !IsGatewayCall(frame.payload) && !frame.payload.Hello? && !frame.payload.Unset?
    requires cap.key.runId in t.attempts && t.attempts[cap.key.runId].leaseEpoch == cap.key.leaseEpoch
    requires frame.sequence == t.attempts[cap.key.runId].lastSequence + 1
    requires RowKey(cap.key, frame.idempotencyKey) !in t.accepted
    requires Fits(frame) ==> Refusal(sha, frame.payload).None?
    ensures var served := Serve(sha, t, Some(cap), frame, eventId, gateway);
            var row := RowKey(cap.key, frame.idempotencyKey);
            && (row in served.tables.accepted <==> Fits(frame))
            && ((exists id :: served.replies == [Acknowledgement(frame.sequence, id)]) <==> Fits(frame))
            && (!Fits(frame) ==> served == Served(t, Some(cap), [ProtocolError("frame_too_large")], true))
  {
    if Fits(frame) {
      var served := Serve(sha, t, Some(cap), frame, eventId, gateway);
      assert served.replies == [Acknowledgement(frame.sequence, served.replies[0].durableEventId)];
    }
  }

  /** The tables RuntimeService owns; every method is one transaction over them. */
  class RuntimeService {
    var attempts: map<Uuid, AttemptRow>
    var accepted: map<RowKey, AcceptedFrame>
    var outbox: seq<Envelope>
    const sha: seq<Byte> -> Digest

    ghost function State(): Tables
      reads this
    {
      Tables(attempts, accepted, outbox)
    }

    constructor (sha: seq<Byte> -> Digest)
      ensures State() == Tables(map[], map[], []) && this.sha == sha
    {
      this.sha := sha;
      attempts, accepted, outbox := map[], map[], [];
    }

    method DoActivate(cap: Capability) returns (resume: Result<nat, string>)
      modifies this
      ensures (State(), resume) == Activate(old(State()), cap)
    {
      var run := cap.key.runId;
      if run in attempts {
        var row := attempts[run];
        if row.leaseEpoch > cap.key.leaseEpoch {
          return Err("stale_epoch");
        }
        if row.leaseEpoch == cap.key.leaseEpoch && row.attemptId != cap.key.attemptId {
          return Err("attempt_mismatch");
        }
      }
      if run !in attempts || attempts[run].leaseEpoch < cap.key.leaseEpoch {
        attempts := attempts[run := AttemptRow(
          cap.key.attemptId, cap.key.leaseEpoch, cap.userId, cap.conversationId, cap.threadId, 0)];
        return Ok(0);
      }
      return Ok(attempts[run].lastSequence);
    }

    method DoAccept(cap: Capability, frame: Frame, freshId: Uuid) returns (event: Result<Option<Uuid>, string>)
      modifies this
      ensures (State(), event) == Accept(sha, old(State()), cap, frame, freshId)
    {
      if frame.payload.Unset? || frame.payload.Hello? {
        return Err("invalid_frame");
      }
      var eventId := if IsEvent(frame.payload) then Some(freshId) else None;
      var run := cap.key.runId;
      if run !in attempts || attempts[run].leaseEpoch != cap.key.leaseEpoch {
        return Err("stale_epoch");
      }
      var row := RowKey(cap.key, frame.idempotencyKey);
      if row in accepted {
        if accepted[row].frame.sequence != frame.sequence {
          return Err("idempotency_conflict");
        }
        return Ok(accepted[row].durableEventId);
      }
      if frame.sequence != attempts[run].lastSequence + 1 {
        return Err("sequence_out_of_order");
      }
      var refusal := Refusal(sha, frame.payload);
      if refusal.Some? {
        return Err(refusal.value);
      }
      if IsEvent(frame.payload) {
        outbox := outbox + [EventOf(sha, cap, frame, freshId)];
      }
      accepted := accepted[row := AcceptedFrame(frame, eventId)];
      attempts := attempts[run := attempts[run].(lastSequence := frame.sequence)];
      return Ok(eventId);
    }

    /** What connect does with the next frame of a call. */
    method DoServe(shown: Option<Capability>, arrival: Arrival)
      returns (capability: Option<Capability>, replies: seq<Reply>, open: bool)
      modifies this
      ensures Served(State(), capability, replies, open)
           == Serve(sha, old(State()), shown, arrival.frame, arrival.eventId, arrival.gateway)
    {
      var frame := arrival.frame;
      capability, open := shown, true;
      if frame.otherBytes + TextBytes(frame.payload) > MAX_FRAME_BYTES {
        return shown, [ProtocolError("frame_too_large")], true;
      }
      if shown == None {
        if !frame.payload.Hello? {
          return None, [ProtocolError("hello_required")], false;
        }
        if frame.payload.capability.None? || frame.key != frame.payload.capability.value.key {
          return None, [ProtocolError("capability_invalid")], false;
        }
        var resume := DoActivate(frame.payload.capability.value);
        if resume.Err? {
          return None, [ProtocolError("capability_invalid")], false;
        }
        return frame.payload.capability, [HelloAccepted(resume.value)], true;
      }
      var event: Result<Option<Uuid>, string>;
      if frame.key != shown.value.key {
        event := Err("identity_mismatch");
      } else if frame.sequence < 1 {
        event := Err("sequence_out_of_order");
      } else if IsGatewayCall(frame.payload) && arrival.gateway.Raised? {
        event := Err(arrival.gateway.code);
      } else {
        event := DoAccept(shown.value, frame, arrival.eventId);
      }
      if event.Err? {
        open := event.error != "stale_epoch" && event.error != "identity_mismatch";
        return shown, [ProtocolError(event.error)], open;
      }
      replies := [];
      if frame.payload.ModelCall? {
        replies := replies + [ModelResult(frame.payload.requestId)];
      }
      if frame.payload.ToolCall? {
        if arrival.gateway == Returned(false) {
          return shown, [ProtocolError("tool_response_invalid")], true;
        }
        replies := replies + [ToolResult(frame.payload.invocationId)];
      }
      replies := replies + [Acknowledgement(frame.sequence, event.value)];
    }

    /** One call of the Connect stream: reads its frames one after the other and answers each. */
    method Connect(arrivals: seq<Arrival>) returns (replies: seq<Reply>)
      modifies this
      ensures (State(), replies) == ServeAll(sha, old(State()), None, arrivals)
    {
      hide Serve, ServeAll;
      replies := [];
      var capability: Option<Capability> := None;
      ghost var all := ServeAll(sha, State(), None, arrivals);
      assert arrivals[0..] == arrivals && [] + all.1 == all.1;
      for i := 0 to |arrivals|
        invariant all
               == After(ServeAll(sha, State(), capability, arrivals[i..]), replies)
      {
        ServeNext(sha, State(), capability, arrivals, i, replies);
        var more, open;
        capability, more, open := DoServe(capability, arrivals[i]);
        replies := replies + more;
        if !open {
          return;
        }
      }
      assert arrivals[|arrivals|..] == [];
      ServeNone(sha, State(), capability, replies);
    }
  }
}
