/**
 The agent's side of the Runtime stream: the retransmission buffer of RuntimeClient and the
 message deltas of MessageStream.
 */
module AgentSdk {
  import opened Wrappers
  import opened Utf8
  import opened Protocol

  const MAX_DELTA_BYTES: nat := 4096
  const MAX_MESSAGE_BYTES: nat := 256 * 1024

  datatype Buffer = Buffer(lastAck: nat, pending: map<nat, Frame>)

  /** sequence is one more than the largest of the acknowledged and the pending ones. */
  ghost predicate IsNext(b: Buffer, sequence: nat) {
    && sequence > b.lastAck
    && (forall n | n in b.pending :: n < sequence)
    && (sequence - 1 == b.lastAck || sequence - 1 in b.pending)
  }

  function Enqueued(b: Buffer, frame: Frame): Buffer {
    b.(pending := b.pending[frame.sequence := frame])
  }

  function Resumed(b: Buffer, resumeAfter: nat): Buffer {
    b.(lastAck := resumeAfter)
  }

  function Acknowledged(b: Buffer, accepted: nat): Buffer {
    Buffer(if accepted > b.lastAck then accepted else b.lastAck,
           map n | n in b.pending && n > accepted :: b.pending[n])
  }

  /** The frames a connection is given again, in ascending order of their pending numbers. */
  ghost predicate IsRewrite(b: Buffer, numbers: seq<nat>, frames: seq<Frame>) {
    && |numbers| == |frames|
    && (forall i, j | 0 <= i < j < |numbers| :: numbers[i] < numbers[j])
    && (forall n :: n in numbers <==> n in b.pending && n > b.lastAck)
    && (forall i | 0 <= i < |numbers| :: numbers[i] in b.pending && frames[i] == b.pending[numbers[i]])
  }

  /** The same, while the numbers in rest have not been looked at. */
  ghost predicate IsRewriting(b: Buffer, rest: set<nat>, numbers: seq<nat>, frames: seq<Frame>) {
    && rest <= b.pending.Keys && |numbers| == |frames|
    && (forall i, j | 0 <= i < j < |numbers| :: numbers[i] < numbers[j])
    && (forall n :: n in numbers <==> n in b.pending && n !in rest && n > b.lastAck)
    && (forall n, m | n in numbers && m in rest :: n < m)
    && (forall i | 0 <= i < |numbers| :: numbers[i] in b.pending && frames[i] == b.pending[numbers[i]])
  }

  lemma RewriteOne(b: Buffer, rest: set<nat>, numbers: seq<nat>, frames: seq<Frame>, least: nat)
    requires IsRewriting(b, rest, numbers, frames) && least in rest && forall n | n in rest :: least <= n
    ensures least in b.pending
    ensures if least > b.lastAck
            then IsRewriting(b, rest - {least}, numbers + [least], frames + [b.pending[least]])
            else IsRewriting(b, rest - {least}, numbers, frames)
  {
    assert forall i | 0 <= i < |numbers| :: numbers[i] in numbers && numbers[i] < least;
  }

  lemma RewriteAll(b: Buffer, numbers: seq<nat>, frames: seq<Frame>)
    requires IsRewriting(b, {}, numbers, frames)
    ensures IsRewrite(b, numbers, frames)
  {
  }

  /** What send reads while it waits: the answer to a reconnect, or an acknowledgement, which ends the wait. */
  datatype Received = ResumedAfter(number: nat) | AcknowledgedUpTo(number: nat)

  /** The buffer after the responses up to the first acknowledgement, and that acknowledgement's number. */
  function Receive(b: Buffer, received: seq<Received>): (Buffer, Option<nat>)
    decreases |received|
  {
    if received == [] then (b, None)
    else if received[0].AcknowledgedUpTo? then (Acknowledged(b, received[0].number), Some(received[0].number))
    else Receive(Resumed(b, received[0].number), received[1..])
  }

  /** A buffered frame leaves the buffer exactly if the acknowledgement that is read covers it. */
  lemma {:induction false} CoveredIffGone(b: Buffer, received: seq<Received>, sequence: nat)
    requires sequence in b.pending
    ensures var (b', acked) := Receive(b, received);
            sequence !in b'.pending <==> acked.Some? && sequence <= acked.value
    decreases |received|
  {
    if received != [] && received[0].ResumedAfter? {
      CoveredIffGone(Resumed(b, received[0].number), received[1..], sequence);
    }
  }

  class RuntimeClient {
    const key: AttemptKey
    var lastAck: nat
    var pending: map<nat, Frame>
    /** Every frame the client has ever created, in order. */
    ghost var created: seq<Frame>

    ghost function State(): Buffer
      reads this
    {
      Buffer(lastAck, pending)
    }

    constructor (key: AttemptKey)
      ensures this.key == key && State() == Buffer(0, map[]) && created == []
    {
      this.key := key;
      lastAck, pending, created := 0, map[], [];
    }

    method NextSequence() returns (sequence: nat)
      ensures IsNext(State(), sequence)
    {
      var highest := lastAck;
      var rest := pending.Keys;
      while rest != {}
        invariant rest <= pending.Keys
        invariant highest >= lastAck && (highest == lastAck || highest in pending)
        invariant forall n | n in pending :: n in rest || n <= highest
        decreases rest
      {
        var n :| n in rest;
        highest, rest := if n > highest then n else highest, rest - {n};
      }
      return highest + 1;
    }

    /** The part of send that numbers a frame and buffers it before it is written. */
    method Enqueue(idempotencyKey: string, otherBytes: nat, payload: Payload) returns (frame: Frame)
      modifies this
      ensures IsNext(old(State()), frame.sequence)
      ensures frame == Frame(key, frame.sequence, idempotencyKey, otherBytes, payload)
      ensures State() == Enqueued(old(State()), frame) && created == old(created) + [frame]
    {
      var sequence := NextSequence();
      frame := Frame(key, sequence, idempotencyKey, otherBytes, payload);
      pending := pending[sequence := frame];
      created := created + [frame];
    }

    /** The part of connect after the server's answer: which buffered frames to write again. */
    method OnHelloAccepted(resumeAfterSequence: nat) returns (ghost numbers: seq<nat>, written: seq<Frame>)
      modifies this
      ensures State() == Resumed(old(State()), resumeAfterSequence) && created == old(created)
      ensures IsRewrite(State(), numbers, written)
    {
      lastAck := resumeAfterSequence;
      numbers, written := [], [];
      var rest := pending.Keys;
      while rest != {}
        invariant State() == Resumed(old(State()), resumeAfterSequence) && created == old(created)
        invariant IsRewriting(State(), rest, numbers, written)
        decreases rest
      {
        hide IsRewriting;
        var sequence := Smallest(rest);
        RewriteOne(State(), rest, numbers, written, sequence);
        if sequence > lastAck {
          numbers, written := numbers + [sequence], written + [pending[sequence]];
        }
        rest := rest - {sequence};
      }
      RewriteAll(State(), numbers, written);
    }

    method OnAcknowledgement(accepted: nat)
      modifies this
      ensures State() == Acknowledged(old(State()), accepted) && created == old(created)
    {
      lastAck := if accepted > lastAck then accepted else lastAck;
      var sent := set n | n in pending && n <= accepted;
      ghost var before := pending;
      while sent != {}
        invariant lastAck == Acknowledged(old(State()), accepted).lastAck && created == old(created)
        invariant before == old(pending)
        invariant pending == map n | n in before && (n > accepted || n in sent) :: before[n]
        invariant forall n | n in sent :: n in before && n <= accepted
        decreases sent
      {
        var n :| n in sent;
        pending := pending - {n};
        sent := sent - {n};
      }
    }

    /**
     A whole send, given what it reads: it returns on the first acknowledgement, whichever frame that
     is for, and raises if none comes.
     */
    method Send(idempotencyKey: string, otherBytes: nat, payload: Payload, received: seq<Received>)
      returns (frame: Frame, acked: Option<nat>)
      modifies this
      ensures IsNext(old(State()), frame.sequence)
      ensures frame == Frame(key, frame.sequence, idempotencyKey, otherBytes, payload)
      ensures (State(), acked) == Receive(Enqueued(old(State()), frame), received) && created == old(created) + [frame]
      ensures frame.sequence !in pending <==> acked.Some? && frame.sequence <= acked.value
    {
      frame := Enqueue(idempotencyKey, otherBytes, payload);
      CoveredIffGone(State(), received, frame.sequence);
      acked := None;
      assert received[0..] == received;
      for i := 0 to |received|
        invariant created == old(created) + [frame]
        invariant Receive(State(), received[i..]) == Receive(Enqueued(old(State()), frame), received)
      {
        assert received[i..][0] == received[i] && received[i..][1..] == received[i + 1..];
        if received[i].AcknowledgedUpTo? {
          OnAcknowledgement(received[i].number);
          acked := Some(received[i].number);
          return;
        }
        ghost var numbers, written := OnHelloAccepted(received[i].number);
      }
      assert received[|received|..] == [];
    }
  }

  method Smallest(numbers: set<nat>) returns (least: nat)
    requires numbers != {}
    ensures least in numbers && forall n | n in numbers :: least <= n
  {
    least :| least in numbers;
    var rest := numbers - {least};
    while rest != {}
      invariant rest <= numbers && least in numbers
      invariant forall n | n in numbers :: n in rest || least <= n
      decreases rest
    {
      var n :| n in rest;
      least, rest := if n < least then n else least, rest - {n};
    }
  }

  // ---------------------------------------------------------------------------------------------
  // Message streams

  function Join(chunks: seq<seq<Byte>>): seq<Byte> {
    if chunks == [] then [] else chunks[0] + Join(chunks[1..])
  }

  function EncodeAll(texts: seq<string>): seq<seq<Byte>> {
    if texts == [] then [] else [Encode(texts[0])] + EncodeAll(texts[1..])
  }

  lemma {:induction false} JoinEncodes(texts: seq<string>)
    ensures Join(EncodeAll(texts)) == Encode(Concat(texts))
  {
    if texts != [] {
      JoinEncodes(texts[1..]);
      EncodeConcat(texts[0], Concat(texts[1..]));
    }
  }

  lemma {:induction false} EncodeAllAppend(texts: seq<string>, text: string)
    ensures EncodeAll(texts + [text]) == EncodeAll(texts) + [Encode(text)]
  {
    if texts == [] {
      assert [text][1..] == [];
    } else {
      assert (texts + [text])[1..] == texts[1..] + [text];
      EncodeAllAppend(texts[1..], text);
    }
  }

  /** The completion that covers the first count texts. */
  function CompletionOf(sha: seq<Byte> -> Digest, messageId: Uuid, texts: seq<string>): Payload {
    var content := Encode(Concat(texts));
    MessageCompleted(messageId, content, |texts|, |content|, sha(content))
  }

  /** The payloads a message stream whose texts so far are these may have sent. */
  predicate IsFromStream(sha: seq<Byte> -> Digest, messageId: Uuid, texts: seq<string>, payload: Payload) {
    match payload
    case MessageStarted(id) => id == messageId
    case MessageDelta(id, n, bytes) => id == messageId && 1 <= n <= |texts| && bytes == Encode(texts[n - 1])
    case MessageCompleted(id, _, n, _, _) =>
      id == messageId && n <= |texts| && payload == CompletionOf(sha, messageId, texts[..n])
    case MessageInterrupted(id, _) => id == messageId
    case _ => false
  }

  /** Texts that `delta` takes. */
  predicate Sendable(texts: seq<string>) {
    forall i | 0 <= i < |texts| :: texts[i] != "" && Size(texts[i]) <= MAX_DELTA_BYTES
  }

  /** No text is empty, so there are at most as many as bytes. */
  lemma {:induction false} CountAtMostSize(texts: seq<string>)
    requires forall i | 0 <= i < |texts| :: texts[i] != ""
    ensures |texts| <= Size(Concat(texts))
  {
    if texts != [] {
      CountAtMostSize(texts[1..]);
      EncodeConcat(texts[0], Concat(texts[1..]));
    }
  }

  class MessageStream {
    const client: RuntimeClient
    const messageId: Uuid
    const sha: seq<Byte> -> Digest
    var active: bool
    var chunks: seq<seq<Byte>>
    var terminal: bool
    /** The texts passed to Delta so far, and the frames the stream has had created. */
    ghost var texts: seq<string>
    ghost var frames: seq<Frame>

    ghost predicate Valid()
      reads this
    {
      && chunks == EncodeAll(texts) && |chunks| == |texts| && Sendable(texts)
      && forall i | 0 <= i < |frames| :: IsFromStream(sha, messageId, texts, frames[i].payload)
    }

    constructor (client: RuntimeClient, messageId: Uuid, sha: seq<Byte> -> Digest)
      ensures Valid() && this.client == client && this.messageId == messageId && this.sha == sha
      ensures !active && !terminal && texts == [] && frames == []
    {
      this.client, this.messageId, this.sha := client, messageId, sha;
      active, terminal, chunks, texts, frames := false, false, [], [], [];
    }

    method Enter(idempotencyKey: string, otherBytes: nat, received: seq<Received>)
      requires Valid()
      modifies this, client
      ensures Valid() && active && texts == [] && terminal == old(terminal)
      ensures |frames| == 1 && client.created == old(client.created) + frames
      ensures frames[0].payload == MessageStarted(messageId)
    {
      active, chunks, texts := true, [], [];
      var frame, _ := client.Send(idempotencyKey, otherBytes, MessageStarted(messageId), received);
      frames := [frame];
    }

    /** A text is refused, or it becomes the next chunk; a failing send leaves the chunk recorded. */
    method Delta(content: string, idempotencyKey: string, otherBytes: nat, received: seq<Received>)
      returns (outcome: Result<Frame, string>)
      requires Valid()
      modifies this, client
      ensures Valid() && active == old(active) && terminal == old(terminal)
      ensures outcome.Ok? <==> old(active) && !old(terminal) && 1 <= |Encode(content)| <= 4096
      ensures outcome.Err? ==> texts == old(texts) && frames == old(frames) && client.created == old(client.created)
      ensures outcome.Ok? ==>
                && texts == old(texts) + [content]
                && outcome.value.payload == MessageDelta(messageId, |texts|, Encode(content))
                && frames == old(frames) + [outcome.value] && client.created == old(client.created) + [outcome.value]
    {
      if terminal || !active {
        return Err("message stream is not active");
      }
      var encoded := Encode(content);
      if encoded == [] || |encoded| > MAX_DELTA_BYTES {
        return Err("message delta must contain 1 to 4096 UTF-8 bytes");
      }
      EncodeAllAppend(texts, content);
      chunks := chunks + [encoded];
      var frame, _ := client.Send(idempotencyKey, otherBytes, MessageDelta(messageId, |chunks|, encoded), received);
      ghost var before := texts;
      texts := texts + [content];
      frames := frames + [frame];
      forall i | 0 <= i < |frames| ensures IsFromStream(sha, messageId, texts, frames[i].payload) {
        if i < |frames| - 1 && frames[i].payload.MessageCompleted? {
          var n := frames[i].payload.chunkCount;
          assert before[..n] == texts[..n];
        }
      }
      return Ok(frame);
    }

    /**
     The completion covers the texts passed so far. The stream is terminal once its send has returned,
     and the completion is then still unacknowledged exactly if send returned on an earlier frame's
     acknowledgement.
     */
    method Complete(idempotencyKey: string, otherBytes: nat, received: seq<Received>)
      returns (outcome: Result<Frame, string>, acked: Option<nat>)
      requires Valid()
      modifies this, client
      ensures Valid() && active == old(active) && texts == old(texts)
      ensures outcome.Ok? <==> old(active) && !old(terminal) && |Encode(Concat(texts))| <= 262144
      ensures outcome.Err? ==>
                terminal == old(terminal) && frames == old(frames) && client.created == old(client.created)
      ensures outcome.Ok? ==>
                && outcome.value.payload == CompletionOf(sha, messageId, texts)
                && outcome.value.payload
                   == MessageCompleted(messageId, Encode(Concat(texts)), |texts|, |Encode(Concat(texts))|,
                                       sha(Encode(Concat(texts))))
                && frames == old(frames) + [outcome.value] && client.created == old(client.created) + [outcome.value]
                && (client.State(), acked) == Receive(Enqueued(old(client.State()), outcome.value), received)
                && terminal == acked.Some?
                && (outcome.value.sequence in client.pending <==> !terminal || acked.value < outcome.value.sequence)
    {
      acked := None;
      if terminal || !active {
        return Err("message stream is not active"), None;
      }
      var content := Join(chunks);
      JoinEncodes(texts);
      if |content| > MAX_MESSAGE_BYTES {
        return Err("canonical message exceeds 256 KiB"), None;
      }
      var frame;
      frame, acked := client.Send(idempotencyKey, otherBytes,
        MessageCompleted(messageId, content, |chunks|, |content|, sha(content)), received);
      frames := frames + [frame];
      assert texts[..|texts|] == texts;
      terminal := acked.Some?;
      outcome := Ok(frame);
    }

    method Interrupt(code: string, idempotencyKey: string, otherBytes: nat, received: seq<Received>)
      requires Valid()
      modifies this, client
      ensures Valid() && active == old(active) && texts == old(texts)
      ensures old(terminal) ==> terminal && frames == old(frames) && client.created == old(client.created)
      ensures !old(terminal) ==>
                && |frames| == |old(frames)| + 1 && frames[..|old(frames)|] == old(frames)
                && client.created == old(client.created) + frames[|old(frames)|..]
                && frames[|old(frames)|].payload == MessageInterrupted(messageId, code)
                && terminal == Receive(Enqueued(old(client.State()), frames[|old(frames)|]), received).1.Some?
    {
      if !terminal {
        var frame, acked := client.Send(idempotencyKey, otherBytes, MessageInterrupted(messageId, code), received);
        frames := frames + [frame];
        terminal := acked.Some?;
      }
    }
  }
}
