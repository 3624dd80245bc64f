/** What the limit on the size of a frame means for the messages an agent can stream. */
module StreamLimits {
  import opened Wrappers
  import opened Utf8
  import opened Protocol
  import opened RuntimeApi
  import Sdk = AgentSdk

  /** Nothing but the size of its frame stands against what a message stream sends. */
  lemma FittingIsNotRefused(sha: seq<Byte> -> Digest, m: Uuid, texts: seq<string>, frame: Frame)
    requires Sdk.IsFromStream(sha, m, texts, frame.payload) && Sdk.Sendable(texts) && Fits(frame)
    ensures Refusal(sha, frame.payload).None?
  {
    match frame.payload {
      case MessageDelta(_, n, _) => DecodeInvertsEncode(texts[n - 1]);
      case MessageCompleted(_, _, n, _, _) =>
        DecodeInvertsEncode(Concat(texts[..n]));
        Sdk.CountAtMostSize(texts[..n]);
      case _ =>
    }
  }

  /** A frame that is next in turn: on an open call of the current attempt, with the next number and a new key. */
  predicate IsNextInTurn(t: Tables, cap: Capability, frame: Frame) {
    && frame.key == cap.key && cap.key.runId in t.attempts && t.attempts[cap.key.runId].leaseEpoch == cap.key.leaseEpoch
    && frame.sequence == t.attempts[cap.key.runId].lastSequence + 1
    && RowKey(cap.key, frame.idempotencyKey) !in t.accepted
  }

  /**
   A started, delta, completed or interrupted frame of a message stream, when it is next in turn, is
   accepted and acknowledged if and only if it fits; so a completion is, exactly if its whole text and
   the rest of its frame are together within 16 KiB.
   */
  lemma StreamIsAcceptedIffItFits(sha: seq<Byte> -> Digest, m: Uuid, texts: seq<string>, t: Tables, cap: Capability,
                                  frame: Frame, eventId: Uuid, gateway: Gateway)
    requires Sdk.IsFromStream(sha, m, texts, frame.payload) && Sdk.Sendable(texts) && IsNextInTurn(t, cap, frame)
    ensures var served := Serve(sha, t, Some(cap), frame, eventId, gateway);
            && (RowKey(cap.key, frame.idempotencyKey) in served.tables.accepted <==> Fits(frame))
            && (served.replies == [Acknowledgement(frame.sequence, Some(eventId))] <==> Fits(frame))
            && (!Fits(frame) ==> served == Served(t, Some(cap), [ProtocolError("frame_too_large")], true))
  {
    if Fits(frame) {
      FittingIsNotRefused(sha, m, texts, frame);
    }
    NextIsAcceptedIffItFits(sha, t, cap, frame, eventId, gateway);
  }

  // ---------------------------------------------------------------------------------------------
  // Five full deltas

  const KEY := AttemptKey(1, 10, 1)
  const CAP := Capability(KEY, 7, 1, 3, {})

  function Line(n: nat): string {
    if n == 0 then "" else ['a'] + Line(n - 1)
  }

  lemma {:induction false} LineSize(n: nat)
    ensures Size(Line(n)) == n
  {
    if n > 0 {
      LineSize(n - 1);
      assert Line(n)[1..] == Line(n - 1);
    }
  }

  function FiveTexts(): seq<string> {
    seq(5, i => Line(4096))
  }

  lemma FiveTextsSize()
    ensures Sdk.Sendable(FiveTexts()) && Size(Concat(FiveTexts())) == 20480
  {
    hide Line, Encode, Concat;
    LineSize(4096);
    var texts := FiveTexts();
    SameTextsSize(texts, Line(4096));
    assert texts[0] != "" by { assert Size(texts[0]) == 4096; EmptySize(); }
  }

  lemma EmptySize()
    ensures Size("") == 0
  {
  }

  lemma OneMore(n: nat, k: nat)
    ensures (n + 1) * k == k + n * k
  {
  }

  lemma {:induction false} SameTextsSize(texts: seq<string>, text: string)
    requires forall i | 0 <= i < |texts| :: texts[i] == text
    ensures Size(Concat(texts)) == |texts| * Size(text)
  {
    hide Encode;
    if texts == [] {
      EmptySize();
    } else {
      SameTextsSize(texts[1..], text);
      EncodeConcat(texts[0], Concat(texts[1..]));
      OneMore(|texts| - 1, Size(text));
    }
  }

  /** What the message stream sends: a started frame, five deltas and the completion. */
  function PayloadAt(sha: seq<Byte> -> Digest, i: nat): Payload
    requires 1 <= i <= 7
  {
    if i == 1 then MessageStarted(5)
    else if i == 7 then Sdk.CompletionOf(sha, 5, FiveTexts())
    else MessageDelta(5, i - 1, Encode(FiveTexts()[i - 2]))
  }

  function ArrivalAt(sha: seq<Byte> -> Digest, otherBytes: nat, i: nat): Arrival
    requires 1 <= i <= 7
  {
    Arrival(Frame(KEY, i, Line(i), otherBytes, PayloadAt(sha, i)), 100 + i, Returned(true))
  }

  /** The frames from the i-th on, and what they are answered with. */
  function ArrivalsFrom(sha: seq<Byte> -> Digest, otherBytes: nat, i: nat): seq<Arrival>
    requires 1 <= i <= 8
    decreases 8 - i
  {
    if i == 8 then [] else [ArrivalAt(sha, otherBytes, i)] + ArrivalsFrom(sha, otherBytes, i + 1)
  }

  function RepliesFrom(i: nat): seq<Reply>
    requires 1 <= i <= 7
    decreases 7 - i
  {
    if i == 7 then [ProtocolError("frame_too_large")] else [Acknowledgement(i, Some(100 + i))] + RepliesFrom(i + 1)
  }

  /** The first i - 1 frames are accepted. */
  ghost predicate IsAt(t: Tables, i: nat) {
    && 1 in t.attempts && t.attempts[1].leaseEpoch == 1 && t.attempts[1].lastSequence == i - 1
    && forall r | r in t.accepted :: |r.idempotencyKey| < i
  }

  lemma {:induction false} LineLength(n: nat)
    ensures |Line(n)| == n
  {
    if n > 0 {
      LineLength(n - 1);
    }
  }

  lemma FromStream(sha: seq<Byte> -> Digest, i: nat)
    requires 1 <= i <= 7
    ensures Sdk.IsFromStream(sha, 5, FiveTexts(), PayloadAt(sha, i))
    ensures TextBytes(PayloadAt(sha, i)) == if i == 1 then 0 else if i == 7 then 20480 else 4096
  {
    hide Line, Encode, Concat;
    FiveTextsSize();
    LineSize(4096);
    assert FiveTexts()[..5] == FiveTexts();
  }

  lemma OneIsServed(sha: seq<Byte> -> Digest, otherBytes: nat, t: Tables, i: nat)
    requires IsAt(t, i) && 1 <= i <= 7 && otherBytes <= 12288
    ensures var a := ArrivalAt(sha, otherBytes, i);
            var served := Serve(sha, t, Some(CAP), a.frame, a.eventId, a.gateway);
            && served.capability == Some(CAP) && served.open
            && (if i == 7 then served.tables == t && served.replies == [ProtocolError("frame_too_large")]
                else IsAt(served.tables, i + 1) && served.replies == [Acknowledgement(i, Some(100 + i))])
  {
    hide PayloadAt, Sdk.IsFromStream, Line, Encode;
    var a := ArrivalAt(sha, otherBytes, i);
    FromStream(sha, i);
    FiveTextsSize();
    LineLength(i);
    StreamIsAcceptedIffItFits(sha, 5, FiveTexts(), t, CAP, a.frame, a.eventId, a.gateway);
    hide FiveTexts, Refusal, EventOf, DataOf;
  }

  lemma {:induction false} RestIsServed(sha: seq<Byte> -> Digest, otherBytes: nat, t: Tables, i: nat)
    requires IsAt(t, i) && 1 <= i <= 7 && otherBytes <= 12288
    ensures ServeAll(sha, t, Some(CAP), ArrivalsFrom(sha, otherBytes, i)).1 == RepliesFrom(i)
    decreases 7 - i
  {
    hide Serve, ArrivalAt, IsAt;
    OneIsServed(sha, otherBytes, t, i);
    var arrivals := ArrivalsFrom(sha, otherBytes, i);
    assert arrivals[1..] == ArrivalsFrom(sha, otherBytes, i + 1);
    if i < 7 {
      var a := ArrivalAt(sha, otherBytes, i);
      RestIsServed(sha, otherBytes, Serve(sha, t, Some(CAP), a.frame, a.eventId, a.gateway).tables, i + 1);
    }
  }

  /**
   Every delta of 4096 bytes is accepted, and after five of them the completion that the SDK allows is
   refused, whatever it is retried.
   */
  lemma CompletionTooLarge(sha: seq<Byte> -> Digest, otherBytes: nat)
    requires otherBytes <= 12288
    ensures var hello := Arrival(Frame(KEY, 0, "hello", 0, Hello(Some(CAP))), 100, Returned(true));
            ServeAll(sha, Tables(map[], map[], []), None, [hello] + ArrivalsFrom(sha, otherBytes, 1)).1
            == [HelloAccepted(0)] + RepliesFrom(1)
    ensures Size(Concat(FiveTexts())) <= Sdk.MAX_MESSAGE_BYTES
  {
    hide ArrivalsFrom, RepliesFrom, FiveTexts, Encode, Concat;
    FiveTextsSize();
    var hello := Arrival(Frame(KEY, 0, "hello", 0, Hello(Some(CAP))), 100, Returned(true));
    var all := [hello] + ArrivalsFrom(sha, otherBytes, 1);
    assert all[0] == hello && all[1..] == ArrivalsFrom(sha, otherBytes, 1);
    var t := Activate(Tables(map[], map[], []), CAP).0;
    assert Serve(sha, Tables(map[], map[], []), None, hello.frame, 100, hello.gateway)
        == Served(t, Some(CAP), [HelloAccepted(0)], true);
    hide Serve;
    RestIsServed(sha, otherBytes, t, 1);
  }
}
