/**
 What becomes of a tool call, spelled out in what its frame, the capability it comes with and the ledger
 hold: which calls reach the gateway, and how every call is answered.
 */
module ToolDecisions {
  import opened Wrappers
  import opened Utf8
  import opened Protocol
  import opened RuntimeApi
  import opened ToolCalls
  import Ledger = ToolLedger
  import Decisions = RuntimeDecisions

  // ---------------------------------------------------------------------------------------------
  // Requests

  /** Quotes stand behind a backslash only. */
  predicate QuotesAreEscaped(s: string) {
    forall i | 0 <= i < |s| && s[i] == '"' :: i > 0 && s[i - 1] == '\\'
  }

  lemma CharEscapesQuotes(c: char)
    ensures QuotesAreEscaped(JsonChar(c))
  {
  }

  lemma JoinEscapesQuotes(s: string, t: string)
    requires QuotesAreEscaped(s) && QuotesAreEscaped(t)
    ensures QuotesAreEscaped(s + t)
  {
  }

  lemma {:induction false} CharsEscapeQuotes(text: string)
    ensures QuotesAreEscaped(JsonChars(text))
  {
    if text != "" {
      CharsEscapeQuotes(text[1..]);
      CharEscapesQuotes(text[0]);
      hide JsonChar, QuotesAreEscaped;
      JoinEscapesQuotes(JsonChar(text[0]), JsonChars(text[1..]));
    }
  }

  /** No character's form begins with another's. */
  lemma CharIsRead(c: char, d: char, s: string, t: string)
    requires JsonChar(c) + s == JsonChar(d) + t
    ensures c == d && s == t
  {
    var left, right := JsonChar(c) + s, JsonChar(d) + t;
    assert left[0] == right[0];
    if |JsonChar(c)| > 1 && |JsonChar(d)| > 1 {
      assert left[1] == right[1];
      if left[1] == 'u' {
        assert left[4] == right[4] && left[5] == right[5];
        HexDigits(c as int, d as int);
      }
    }
    assert c == d;
    assert s == left[|JsonChar(c)|..] && t == right[|JsonChar(c)|..];
  }

  lemma HexDigits(n: nat, m: nat)
    requires n < 0x20 && m < 0x20
    requires "0123456789abcdef"[n / 16] == "0123456789abcdef"[m / 16]
    requires "0123456789abcdef"[n % 16] == "0123456789abcdef"[m % 16]
    ensures n == m
  {
    var digits := "0123456789abcdef";
    assert forall i | 0 <= i < 10 :: digits[i] as int == 48 + i;
    assert forall i | 10 <= i < 16 :: digits[i] as int == 87 + i;
  }

  lemma {:induction false} CharsAreRead(s: string, t: string)
    requires JsonChars(s) == JsonChars(t)
    ensures s == t
  {
    hide JsonChar;
    if s != "" && t != "" {
      CharIsRead(s[0], t[0], JsonChars(s[1..]), JsonChars(t[1..]));
      CharsAreRead(s[1..], t[1..]);
      assert s == [s[0]] + s[1..] && t == [t[0]] + t[1..];
    } else {
      SomeChars(s);
      SomeChars(t);
    }
  }

  lemma SomeChars(s: string)
    ensures s != "" ==> JsonChars(s) != ""
  {
  }

  /** The last unescaped quotes of a request's text are those of its tool. */
  lemma ToolIsRead(a: string, b: string, x: string, y: string)
    requires a + ",\"tool\":\"" + x + "\"}" == b + ",\"tool\":\"" + y + "\"}"
    requires QuotesAreEscaped(x) && QuotesAreEscaped(y) && |x| <= |y|
    ensures a == b && x == y
  {
    var mark, end := ",\"tool\":\"", "\"}";
    var s, t := a + mark + x + end, b + mark + y + end;
    assert s[|a| + 7] == ':' && s[|a| + 8] == '"';
    assert forall i | 0 <= i < |y| :: t[|b| + 9 + i] == y[i];
    if |x| < |y| {
      assert false;
    }
    assert a == s[..|a|] && b == t[..|a|];
    assert x == s[|a| + 9..|a| + 9 + |x|] && y == t[|a| + 9..|a| + 9 + |x|];
  }

  /** Two calls have the same text if and only if they are of the same tool with the same arguments. */
  lemma SameTextIff(x: Payload, y: Payload)
    requires x.ToolCall? && y.ToolCall?
    ensures RequestText(x) == RequestText(y) <==> x.tool == y.tool && x.arguments == y.arguments
  {
    if RequestText(x) == RequestText(y) {
      var tx, ty := JsonChars(x.tool), JsonChars(y.tool);
      CharsEscapeQuotes(x.tool);
      CharsEscapeQuotes(y.tool);
      RequestTail(x);
      RequestTail(y);
      hide RequestText, JsonChars, QuotesAreEscaped;
      if |tx| <= |ty| {
        ToolIsRead(x.arguments, y.arguments, tx, ty);
      } else {
        ToolIsRead(y.arguments, x.arguments, ty, tx);
      }
      CharsAreRead(x.tool, y.tool);
    }
  }

  lemma RequestTail(call: Payload)
    requires call.ToolCall?
    ensures |RequestText(call)| >= 13
    ensures RequestText(call)[13..] == call.arguments + ",\"tool\":\"" + JsonChars(call.tool) + "\"}"
  {
    var head, tail := "{\"arguments\":", call.arguments + ",\"tool\":\"" + JsonChars(call.tool) + "\"}";
    assert RequestText(call) == head + tail;
  }

  /** Unless sha collides, calls have the same digest if and only if they ask for the same. */
  lemma SameRequestIff(sha: seq<Byte> -> Digest, x: Payload, y: Payload)
    requires x.ToolCall? && y.ToolCall?
    requires forall bytes, other :: sha(bytes) == sha(other) ==> bytes == other
    ensures RequestDigest(sha, x) == RequestDigest(sha, y) <==> x.tool == y.tool && x.arguments == y.arguments
  {
    hide RequestText, Encode, Decode;
    SameTextIff(x, y);
    DecodeInvertsEncode(RequestText(x));
    DecodeInvertsEncode(RequestText(y));
  }

  // ---------------------------------------------------------------------------------------------
  // How a call is answered when it arrives

  /** What a call that may not reach the gateway is answered with. */
  function WhyNotReserved(delegation: bool, cap: Capability, frame: Frame): string
    requires frame.payload.ToolCall?
  {
    if frame.otherBytes > 16384 then "frame_too_large"
    else if frame.key != cap.key then "identity_mismatch"
    else if frame.sequence < 1 then "sequence_out_of_order"
    else if frame.payload.tool !in cap.tools then "tool_forbidden"
    else if
      || frame.payload.invocationId.None?
      || |frame.payload.tool| == 0 || |frame.payload.tool| > 128 || frame.payload.argumentBytes > 8192
    then "tool_request_invalid"
    else "tool_delegation_unavailable"
  }

  /** The world in which a call has been answered with an error, and nothing is stored about it. */
  function RefusedWith(w: World, handling: Handling, code: string): World {
    w.(answers := w.answers + [Answered(handling, [ProtocolError(code)])])
  }

  lemma EndedWithError(sha: seq<Byte> -> Digest, w: World, h: nat, handling: Handling, eventId: Uuid, gateway: Gateway)
    requires handling.frame.payload.ToolCall?
    ensures var why := Decisions.WhyNotAnswered(sha, w.tables, handling.cap, handling.frame, gateway);
            why.Some? ==>
              Ended(sha, w, h, handling, eventId, gateway)
              == RefusedWith(w.(handlings := w.handlings - {h}), handling, why.value)
  {
    hide Decisions.WhyNotAnswered;
    Decisions.LaterIsAnswered(sha, w.tables, handling.cap, handling.frame, eventId, gateway);
  }

  lemma EndedByCall(sha: seq<Byte> -> Digest, delegation: bool, w: World, h: nat, handling: Handling, code: string)
    requires MayReachGateway(delegation, handling.cap, handling.frame)
    ensures Ended(sha, w, h, handling, 0, Raised(code))
         == RefusedWith(w.(handlings := w.handlings - {h}), handling, code)
  {
    hide Decisions.WhyNotAccepted, Ended;
    EndedWithError(sha, w, h, handling, 0, Raised(code));
  }

  /** A call that may not reach the gateway is answered with its error and leaves the rest as it is. */
  lemma OtherIsRefused(sha: seq<Byte> -> Digest, delegation: bool, w: World, h: nat, cap: Capability, frame: Frame)
    requires Enabled(w, Arrive(h, cap, frame)) && !MayReachGateway(delegation, cap, frame)
    ensures Apply(sha, delegation, w, Arrive(h, cap, frame))
         == RefusedWith(w, Handling(cap, frame, None), WhyNotReserved(delegation, cap, frame))
  {
    var handling := Handling(cap, frame, None);
    EndedWithError(sha, w, h, handling, 0, Returned(true));
    EndedWithError(sha, w, h, handling, 0, Raised(WhyNotReserved(delegation, cap, frame)));
    assert w.handlings - {h} == w.handlings;
    hide Serve, RequestDigest, Decisions.WhyNotAccepted, Ended;
  }

  function InvocationOf(cap: Capability, frame: Frame): Ledger.InvocationId
    requires frame.payload.ToolCall? && frame.payload.invocationId.Some?
  {
    Ledger.InvocationId(cap.key.runId, frame.payload.invocationId.value)
  }

  /**
   A call whose id is known has the result that is stored for it, if it is the same request and that one
   has been completed; otherwise it is answered with an error. The ledger stays as it is.
   */
  lemma KnownIsDecided(sha: seq<Byte> -> Digest, delegation: bool, w: World, h: nat, cap: Capability, frame: Frame)
    requires Inv(sha, w) && Enabled(w, Arrive(h, cap, frame)) && MayReachGateway(delegation, cap, frame)
    requires InvocationOf(cap, frame) in w.tools.ledger
    ensures var w' := Apply(sha, delegation, w, Arrive(h, cap, frame)); var handling := Handling(cap, frame, None);
            var row := w.tools.ledger[InvocationOf(cap, frame)];
            if row.requestSha256 != RequestDigest(sha, frame.payload) then
              w' == RefusedWith(w, handling, "tool_idempotency_conflict")
            else if row.outcome.None? then
              w' == RefusedWith(w, handling, "tool_outcome_ambiguous")
            else
              && w' == w.(tools := w'.tools, handlings := w.handlings[h := handling.(result := row.outcome)])
              && w'.tools.ledger == w.tools.ledger && w'.tools.gateway == w.tools.gateway
              && w'.tools.callers == w.tools.callers
  {
    var handling, digest := Handling(cap, frame, None), RequestDigest(sha, frame.payload);
    AdmittedIff(delegation, cap, frame);
    KnownInLedger(w.tools, h, InvocationOf(cap, frame), digest);
    EndedByCall(sha, delegation, w, h, handling, "tool_idempotency_conflict");
    EndedByCall(sha, delegation, w, h, handling, "tool_outcome_ambiguous");
    assert w.handlings - {h} == w.handlings;
    assert h !in w.tools.callers;
    hide RequestDigest, Ended, IsAdmitted, Inv, Ledger.Apply, Ledger.Reserve;
  }

  lemma KnownInLedger(s: Ledger.System, h: nat, id: Ledger.InvocationId, digest: Digest)
    requires h !in s.callers && id in s.ledger
    ensures Ledger.Reserve(s.ledger, id, digest).1
         == if s.ledger[id].requestSha256 != digest then Err("tool_idempotency_conflict")
            else if s.ledger[id].outcome.None? then Err("tool_outcome_ambiguous")
            else Ok(s.ledger[id].outcome)
    ensures var s' := Ledger.Apply(s, Ledger.Call(h, id, digest));
            && s'.ledger == s.ledger && s'.callers == s.callers && s'.gateway == s.gateway
            && (Ledger.Reserve(s.ledger, id, digest).1.Err? ==> s' == s)
  {
  }

  /** A call whose id is not known gets a row without an outcome, and is under way. */
  lemma UnknownIsReserved(sha: seq<Byte> -> Digest, delegation: bool, w: World, h: nat, cap: Capability, frame: Frame)
    requires Inv(sha, w) && Enabled(w, Arrive(h, cap, frame)) && MayReachGateway(delegation, cap, frame)
    requires InvocationOf(cap, frame) !in w.tools.ledger
    ensures var w' := Apply(sha, delegation, w, Arrive(h, cap, frame)); var id := InvocationOf(cap, frame);
            var digest := RequestDigest(sha, frame.payload);
            && w' == w.(tools := w'.tools, handlings := w.handlings[h := Handling(cap, frame, None)])
            && w'.tools == w.tools.(ledger := w.tools.ledger[id := Ledger.ToolRow(digest, None)],
                                    callers := w.tools.callers[h := Ledger.Reserved(id, digest)])
  {
    AdmittedIff(delegation, cap, frame);
    hide Serve, RequestDigest, RequestText, Ended, Ledger.Inv, HandlingOk;
  }

  // ---------------------------------------------------------------------------------------------
  // How a call is answered in the end

  /** Every call that is under way was one that may reach the gateway, with a capability that was shown. */
  ghost predicate AllMayReach(delegation: bool, w: World) {
    forall h | h in w.handlings ::
      MayReachGateway(delegation, w.handlings[h].cap, w.handlings[h].frame) && w.handlings[h].cap in w.shown
  }

  lemma StepKeepsReach(sha: seq<Byte> -> Digest, delegation: bool, w: World, step: Step)
    requires AllMayReach(delegation, w) && Enabled(w, step)
    ensures AllMayReach(delegation, Apply(sha, delegation, w, step))
  {
    if step.Arrive? {
      AdmittedIff(delegation, step.cap, step.frame);
    }
    hide Serve, RequestDigest, RequestText, Ledger.Apply, MayReachGateway, Ledger.Reserve, Ledger.Record;
  }

  lemma {:induction false} RunKeepsReach(sha: seq<Byte> -> Digest, delegation: bool, w: World, steps: seq<Step>)
    requires AllMayReach(delegation, w)
    ensures AllMayReach(delegation, Run(sha, delegation, w, steps))
    decreases |steps|
  {
    hide Enabled, Apply, AllMayReach;
    if steps != [] {
      if Enabled(w, steps[0]) {
        StepKeepsReach(sha, delegation, w, steps[0]);
        RunKeepsReach(sha, delegation, Apply(sha, delegation, w, steps[0]), steps[1..]);
      } else {
        RunKeepsReach(sha, delegation, w, steps[1..]);
      }
    }
  }

  /** The world in which a handler and its caller are gone, and nothing else has changed. */
  function Without(w: World, h: nat): World {
    w.(tools := w.tools.(callers := w.tools.callers - {h}), handlings := w.handlings - {h})
  }

  /** A call whose gateway fails is answered with its error; the row keeps no outcome. */
  lemma FailureIsAnswered(sha: seq<Byte> -> Digest, delegation: bool, w: World, h: nat, code: string)
    requires AllMayReach(delegation, w) && IsInvoked(w, h)
    ensures Apply(sha, delegation, w, Raise(h, code)) == RefusedWith(Without(w, h), w.handlings[h], code)
  {
    EndedByCall(sha, delegation, w.(tools := Ledger.Apply(w.tools, Ledger.Crash(h))), h, w.handlings[h], code);
    hide RequestDigest, Ended, MayReachGateway;
  }

  /** What the second transaction does for a caller that has invoked the gateway. */
  lemma InvokedIsRecorded(s: Ledger.System, h: nat)
    requires Ledger.Inv(s) && h in s.callers && s.callers[h].Invoked?
    ensures var call := s.callers[h]; var s' := Ledger.Apply(s, Ledger.Finish(h, false));
            && Ledger.Record(s.ledger, call.id, call.execution).1 == Ok(call.execution)
            && s'.ledger == s.ledger[call.id := Ledger.ToolRow(call.digest, Some(call.execution))]
            && s'.callers == s.callers - {h} && s'.gateway == s.gateway
  {
    assert Ledger.CallerOk(s, h);
  }

  /** A result that is too large is not stored, and its call is answered with an error. */
  lemma TooLargeIsRefused(sha: seq<Byte> -> Digest, delegation: bool, w: World, h: nat)
    requires AllMayReach(delegation, w) && IsInvoked(w, h)
    ensures Apply(sha, delegation, w, Finish(h, true))
         == RefusedWith(Without(w, h), w.handlings[h], "tool_response_invalid")
  {
    var w1 := w.(tools := Ledger.Apply(w.tools, Ledger.Finish(h, true)));
    EndedByCall(sha, delegation, w1, h, w.handlings[h], "tool_response_invalid");
    hide RequestDigest, Ended, MayReachGateway, Ledger.Record;
  }

  /** The result of an invocation is stored once, and is the call's. */
  lemma ResultIsStored(sha: seq<Byte> -> Digest, delegation: bool, w: World, h: nat)
    requires Inv(sha, w) && IsInvoked(w, h)
    ensures var w' := Apply(sha, delegation, w, Finish(h, false)); var call := w.tools.callers[h];
            && w'.tools.ledger == w.tools.ledger[call.id := Ledger.ToolRow(call.digest, Some(call.execution))]
            && w'.tools.callers == w.tools.callers - {h} && w'.tools.gateway == w.tools.gateway
            && w' == w.(tools := w'.tools,
                        handlings := w.handlings[h := w.handlings[h].(result := Some(call.execution))])
  {
    InvokedIsRecorded(w.tools, h);
    hide Serve, RequestDigest, RequestText, Ended, HandlingOk, Ledger.Apply, Ledger.Record, Ledger.Inv;
  }

  /**
   A call that has its result is answered with it and acknowledged if its frame is accepted, and with an
   error if it is not, or if the result does not fit its frame.
   */
  lemma ResultIsAnswered(sha: seq<Byte> -> Digest, delegation: bool, w: World, h: nat, eventId: Uuid, presentable: bool)
    requires AllMayReach(delegation, w) && h in w.handlings && w.handlings[h].result.Some?
    ensures var w' := Apply(sha, delegation, w, Answer(h, eventId, presentable));
            var cap, frame := w.handlings[h].cap, w.handlings[h].frame;
            var why := Decisions.WhyNotAccepted(sha, w.tables, cap, frame);
            && w' == w.(tables := Accept(sha, w.tables, cap, frame, eventId).0, handlings := w.handlings - {h},
                        answers := w'.answers)
            && |w'.answers| == |w.answers| + 1 && w'.answers[..|w.answers|] == w.answers
            && w'.answers[|w.answers|].handling == w.handlings[h]
            && var replies := w'.answers[|w.answers|].replies;
               if why.Some? then replies == [ProtocolError(why.value)]
               else if !presentable then replies == [ProtocolError("tool_response_invalid")]
               else
                 && |replies| == 2 && replies[0] == ToolResult(frame.payload.invocationId)
                 && replies[1].Acknowledgement? && replies[1].acceptedSequence == frame.sequence
  {
    var handling := w.handlings[h];
    Decisions.LaterIsAnswered(sha, w.tables, handling.cap, handling.frame, eventId, Returned(presentable));
    Decisions.AcceptedIff(sha, w.tables, handling.cap, handling.frame, eventId);
    hide Serve, RequestDigest, RequestText, Accept, Decisions.WhyNotAccepted, Decisions.IsEventFor;
  }

  // ---------------------------------------------------------------------------------------------
  // Over whole runs, the gateway is invoked for calls that may reach it

  /**
   The step is a call with the invocation id: it is taken, it comes with a capability that has been
   shown, and it may reach the gateway.
   */
  predicate IsCallWith(delegation: bool, w: World, step: Step, id: Ledger.InvocationId) {
    && Enabled(w, step) && step.Arrive? && step.cap in w.shown && MayReachGateway(delegation, step.cap, step.frame)
    && step.cap.key.runId == id.runId && step.frame.payload.invocationId == Some(id.invocationId)
  }

  /** The step is such a call, and there was no row for the id. */
  ghost predicate IsFirstCall(sha: seq<Byte> -> Digest, delegation: bool, steps: seq<Step>, i: nat,
                              id: Ledger.InvocationId)
  {
    && i < |steps|
    && var w := Run(sha, delegation, START, steps[..i]);
       IsCallWith(delegation, w, steps[i], id) && id !in w.tools.ledger
  }

  ghost predicate HasFirstCall(sha: seq<Byte> -> Digest, delegation: bool, steps: seq<Step>, id: Ledger.InvocationId) {
    exists i :: IsFirstCall(sha, delegation, steps, i, id)
  }

  function TakenFrom(sha: seq<Byte> -> Digest, delegation: bool, w: World, step: Step): World {
    if Enabled(w, step) then Apply(sha, delegation, w, step) else w
  }

  lemma {:induction false} RunThenStep(sha: seq<Byte> -> Digest, delegation: bool, w: World, steps: seq<Step>,
                                       last: Step)
    ensures Run(sha, delegation, w, steps + [last])
         == TakenFrom(sha, delegation, Run(sha, delegation, w, steps), last)
    decreases |steps|
  {
    hide Enabled, Apply;
    if steps == [] {
      assert [last][1..] == [] && [] + [last] == [last];
    } else {
      assert (steps + [last])[1..] == steps[1..] + [last];
      RunThenStep(sha, delegation, TakenFrom(sha, delegation, w, steps[0]), steps[1..], last);
    }
  }

  lemma LedgerRows(s: Ledger.System, step: Ledger.Step, id: Ledger.InvocationId)
    ensures id in Ledger.Apply(s, step).ledger
       <==> id in s.ledger || (step.Call? && step.caller !in s.callers && step.id == id)
  {
  }

  /** A step adds the row of its own call at most, if that may reach the gateway, and removes none. */
  lemma RowsAreOfCalls(sha: seq<Byte> -> Digest, delegation: bool, w: World, step: Step, id: Ledger.InvocationId)
    requires Inv(sha, w)
    ensures id in TakenFrom(sha, delegation, w, step).tools.ledger
       <==> id in w.tools.ledger || IsCallWith(delegation, w, step, id)
  {
    hide Apply, RequestDigest, IsAdmitted, HandlingOk, Ledger.Inv, Ledger.Apply;
    if Enabled(w, step) {
      StepDrivesLedger(sha, delegation, w, step);
      var inner := LedgerStep(sha, delegation, w, step);
      if inner.Some? {
        LedgerRows(w.tools, inner.value, id);
      }
      if step.Arrive? {
        AdmittedIff(delegation, step.cap, step.frame);
      }
    }
  }

  lemma {:induction false} RowIffFirstCall(sha: seq<Byte> -> Digest, delegation: bool, steps: seq<Step>,
                                           id: Ledger.InvocationId)
    ensures id in Run(sha, delegation, START, steps).tools.ledger <==> HasFirstCall(sha, delegation, steps, id)
    decreases |steps|
  {
    hide IsCallWith, TakenFrom, Run, Inv;
    if steps == [] {
      RunOfNone(sha, delegation);
    } else {
      var n := |steps| - 1;
      var init, last := steps[..n], steps[n];
      assert steps == init + [last] && steps[..n] == init;
      var w := Run(sha, delegation, START, init);
      RunThenStep(sha, delegation, START, init, last);
      StartInv(sha);
      RunKeepsInv(sha, delegation, START, init);
      RowsAreOfCalls(sha, delegation, w, last, id);
      RowIffFirstCall(sha, delegation, init, id);
      FirstCallOfLonger(sha, delegation, init, last, id);
    }
  }

  lemma RunOfNone(sha: seq<Byte> -> Digest, delegation: bool)
    ensures Run(sha, delegation, START, []) == START
  {
  }

  /** The first call of a longer run is that of the shorter one or its last step. */
  lemma FirstCallOfLonger(sha: seq<Byte> -> Digest, delegation: bool, init: seq<Step>, last: Step,
                          id: Ledger.InvocationId)
    ensures HasFirstCall(sha, delegation, init + [last], id)
       <==> HasFirstCall(sha, delegation, init, id) || IsFirstCall(sha, delegation, init + [last], |init|, id)
  {
    hide IsCallWith, Run;
    var steps := init + [last];
    forall i: nat | i < |init|
      ensures IsFirstCall(sha, delegation, steps, i, id) <==> IsFirstCall(sha, delegation, init, i, id)
    {
      assert steps[..i] == init[..i] && steps[i] == init[i];
    }
  }

  /**
   In every run, an id has a row if and only if a call with it has come that may reach the gateway. So
   the gateway is only ever invoked for ids of calls of the attempts that named them, within all limits
   and for tools that their capabilities list.
   */
  lemma GatewayIsForCalls(sha: seq<Byte> -> Digest, delegation: bool, steps: seq<Step>)
    ensures var w := Run(sha, delegation, START, steps);
            && (forall id :: id in w.tools.ledger <==> HasFirstCall(sha, delegation, steps, id))
            && (forall i | 0 <= i < |w.tools.gateway| :: HasFirstCall(sha, delegation, steps, w.tools.gateway[i].0))
  {
    hide Run, HasFirstCall, HandlingOk;
    StartInv(sha);
    RunKeepsInv(sha, delegation, START, steps);
    forall id
      ensures id in Run(sha, delegation, START, steps).tools.ledger <==> HasFirstCall(sha, delegation, steps, id)
    {
      RowIffFirstCall(sha, delegation, steps, id);
    }
  }
}
