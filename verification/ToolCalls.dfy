/**
 Tool calls through the stream: the tables of the Runtime API and its ledger of tool invocations
 together. A tool call is looked up or reserved, invoked, recorded, and only then is its frame
 accepted; in between, anything else may happen, also that a newer attempt takes the run over.
 */
module ToolCalls {
  import opened Wrappers
  import opened Utf8
  import opened Protocol
  import opened RuntimeApi
  import Ledger = ToolLedger
  import Stream = AgentStream

  const MAX_TOOL_NAME: nat := 128
  const MAX_ARGUMENT_BYTES: nat := 8 * 1024

  /** The checks of a call before anything is stored; delegation is whether there is a tool gateway. */
  function CallRefusal(delegation: bool, cap: Capability, call: Payload): Option<string>
    requires call.ToolCall?
  {
    if call.tool !in cap.tools then Some("tool_forbidden")
    else if call.invocationId.None? then Some("tool_request_invalid")
    else if call.tool == "" || |call.tool| > MAX_TOOL_NAME || call.argumentBytes > MAX_ARGUMENT_BYTES then
      Some("tool_request_invalid")
    else if !delegation then Some("tool_delegation_unavailable")
    else None
  }

  /** How a character is written between the quotes of a JSON string. */
  function JsonChar(c: char): string {
    var n := c as int;
    if c == '"' then "\\\""
    else if c == '\\' then "\\\\"
    else if n == 8 then "\\b"
    else if n == 9 then "\\t"
    else if n == 10 then "\\n"
    else if n == 12 then "\\f"
    else if n == 13 then "\\r"
    else if n < 0x20 then "\\u00" + ["0123456789abcdef"[n / 16], "0123456789abcdef"[n % 16]]
    else [c]
  }

  function JsonChars(text: string): string {
    if text == "" then "" else JsonChar(text[0]) + JsonChars(text[1..])
  }

  /** The canonical JSON text of a call: its arguments and its tool, in the order of their names. */
  function RequestText(call: Payload): string
    requires call.ToolCall?
  {
    "{\"arguments\":" + call.arguments + ",\"tool\":\"" + JsonChars(call.tool) + "\"}"
  }

  /** Two calls are the same request if they have the same canonical JSON text. */
  function RequestDigest(sha: seq<Byte> -> Digest, call: Payload): Digest
    requires call.ToolCall?
  {
    sha(Encode(RequestText(call)))
  }

  function IdOf(cap: Capability, frame: Frame): Ledger.InvocationId
    requires frame.payload.ToolCall? && frame.payload.invocationId.Some?
  {
    Ledger.InvocationId(cap.key.runId, frame.payload.invocationId.value)
  }

  /** Whether the frame's call comes as far as the ledger. */
  predicate IsAdmitted(delegation: bool, cap: Capability, frame: Frame) {
    MakesCall(Some(cap), frame) && frame.payload.ToolCall? && CallRefusal(delegation, cap, frame.payload).None?
  }

  /** A call that is under way; it has its result once that is stored. */
  datatype Handling = Handling(cap: Capability, frame: Frame, result: Option<Ledger.ToolExecution>)

  /** What a tool call was answered with, and the result that it had by then. */
  datatype Answered = Answered(handling: Handling, replies: seq<Reply>)

  /** shown are the capabilities that some call has shown. */
  datatype World = World(
    tables: Tables, shown: set<Capability>, tools: Ledger.System, handlings: map<nat, Handling>,
    answers: seq<Answered>)

  datatype Step =
    | Arrive(handler: nat, cap: Capability, frame: Frame)
    | Invoke(handler: nat, execution: Ledger.ToolExecution)
    | Raise(handler: nat, code: string)
    | Finish(handler: nat, tooLarge: bool)
    | Answer(handler: nat, eventId: Uuid, presentable: bool)
    | Abandon(handler: nat)
    | ServeOther(shown: Option<Capability>, frame: Frame, eventId: Uuid, gateway: Gateway)

  const START := World(Tables(map[], map[], []), {}, Ledger.INITIAL, map[], [])

  /** A handler is one execution of connect's body; a call shows its capability before anything else. */
  predicate Enabled(w: World, step: Step) {
    match step
    case Arrive(h, cap, frame) => h !in w.handlings && cap in w.shown && frame.payload.ToolCall?
    case ServeOther(shown, frame, _, _) => !frame.payload.ToolCall? && (shown.Some? ==> shown.value in w.shown)
    case _ => true
  }

  /** The end of a handler: what connect does with the frame, given how its call has ended. */
  function Ended(sha: seq<Byte> -> Digest, w: World, h: nat, handling: Handling, eventId: Uuid, gateway: Gateway): World
  {
    var served := Serve(sha, w.tables, Some(handling.cap), handling.frame, eventId, gateway);
    w.(tables := served.tables, handlings := w.handlings - {h},
       answers := w.answers + [Answered(handling, served.replies)])
  }

  function Arrived(sha: seq<Byte> -> Digest, delegation: bool, w: World, h: nat, cap: Capability, frame: Frame): World
    requires frame.payload.ToolCall?
  {
    var handling := Handling(cap, frame, None);
    if !MakesCall(Some(cap), frame) then Ended(sha, w, h, handling, 0, Returned(true))
    else if CallRefusal(delegation, cap, frame.payload).Some? then
      Ended(sha, w, h, handling, 0, Raised(CallRefusal(delegation, cap, frame.payload).value))
    else
      var id, digest := IdOf(cap, frame), RequestDigest(sha, frame.payload);
      var w1 := w.(tools := Ledger.Apply(w.tools, Ledger.Call(h, id, digest)));
      match Ledger.Reserve(w.tools.ledger, id, digest).1
      case Ok(stored) => w1.(handlings := w.handlings[h := handling.(result := stored)])
      case Err(code) => Ended(sha, w1, h, handling, 0, Raised(code))
  }

  predicate IsInvoked(w: World, h: nat) {
    h in w.handlings && h in w.tools.callers && w.tools.callers[h].Invoked?
  }

  function Finished(sha: seq<Byte> -> Digest, w: World, h: nat, tooLarge: bool): World
    requires IsInvoked(w, h)
  {
    var handling, call := w.handlings[h], w.tools.callers[h];
    var w1 := w.(tools := Ledger.Apply(w.tools, Ledger.Finish(h, tooLarge)));
    if tooLarge then Ended(sha, w1, h, handling, 0, Raised("tool_response_invalid"))
    else
      match Ledger.Record(w.tools.ledger, call.id, call.execution).1
      case Ok(result) => w1.(handlings := w.handlings[h := handling.(result := Some(result))])
      case Err(code) => Ended(sha, w1, h, handling, 0, Raised(code))
  }

  function Apply(sha: seq<Byte> -> Digest, delegation: bool, w: World, step: Step): World
    requires Enabled(w, step)
  {
    match step
    case Arrive(h, cap, frame) => Arrived(sha, delegation, w, h, cap, frame)
    case Invoke(h, execution) =>
      if h in w.handlings then w.(tools := Ledger.Apply(w.tools, Ledger.Invoke(h, execution))) else w
    case Raise(h, code) =>
      if IsInvoked(w, h)
      then Ended(sha, w.(tools := Ledger.Apply(w.tools, Ledger.Crash(h))), h, w.handlings[h], 0, Raised(code)) else w
    case Finish(h, tooLarge) => if IsInvoked(w, h) then Finished(sha, w, h, tooLarge) else w
    case Answer(h, eventId, presentable) =>
      if h in w.handlings && w.handlings[h].result.Some?
      then Ended(sha, w, h, w.handlings[h], eventId, Returned(presentable)) else w
    case Abandon(h) =>
      w.(tools := Ledger.Apply(w.tools, Ledger.Crash(h)), handlings := w.handlings - {h})
    case ServeOther(shown, frame, eventId, gateway) =>
      var served := Serve(sha, w.tables, shown, frame, eventId, gateway);
      w.(tables := served.tables,
         shown := if served.capability.Some? then w.shown + {served.capability.value} else w.shown)
  }

  function Run(sha: seq<Byte> -> Digest, delegation: bool, w: World, steps: seq<Step>): World
    decreases |steps|
  {
    if steps == [] then w
    else Run(sha, delegation, if Enabled(w, steps[0]) then Apply(sha, delegation, w, steps[0]) else w, steps[1..])
  }

  // ---------------------------------------------------------------------------------------------
  // The ledger's own system is what tool calls drive

  /** What a step does to the ledger and its callers, if anything. */
  function LedgerStep(sha: seq<Byte> -> Digest, delegation: bool, w: World, step: Step): Option<Ledger.Step>
    requires Enabled(w, step)
  {
    match step
    case Arrive(h, cap, frame) =>
      if IsAdmitted(delegation, cap, frame)
      then Some(Ledger.Call(h, IdOf(cap, frame), RequestDigest(sha, frame.payload))) else None
    case Invoke(h, execution) => if h in w.handlings then Some(Ledger.Invoke(h, execution)) else None
    case Raise(h, _) => if IsInvoked(w, h) then Some(Ledger.Crash(h)) else None
    case Finish(h, tooLarge) => if IsInvoked(w, h) then Some(Ledger.Finish(h, tooLarge)) else None
    case Answer(_, _, _) => None
    case Abandon(h) => Some(Ledger.Crash(h))
    case ServeOther(_, _, _, _) => None
  }

  lemma StepDrivesLedger(sha: seq<Byte> -> Digest, delegation: bool, w: World, step: Step)
    requires Enabled(w, step)
    ensures var inner := LedgerStep(sha, delegation, w, step);
            Apply(sha, delegation, w, step).tools == if inner.Some? then Ledger.Apply(w.tools, inner.value) else w.tools
  {
    hide Serve, Ledger.Apply, Ledger.Reserve, Ledger.Record, Encode;
  }

  /** Whatever happens around them, the ledger and its callers take steps of their own system. */
  lemma {:induction false} RunDrivesLedger(sha: seq<Byte> -> Digest, delegation: bool, w: World, steps: seq<Step>)
    returns (inner: seq<Ledger.Step>)
    ensures Run(sha, delegation, w, steps).tools == Ledger.Run(w.tools, inner)
    decreases |steps|
  {
    hide Enabled, Apply, Ledger.Apply, LedgerStep;
    if steps == [] {
      inner := [];
    } else if Enabled(w, steps[0]) {
      StepDrivesLedger(sha, delegation, w, steps[0]);
      inner := RunDrivesLedger(sha, delegation, Apply(sha, delegation, w, steps[0]), steps[1..]);
      var step := LedgerStep(sha, delegation, w, steps[0]);
      if step.Some? {
        inner := [step.value] + inner;
      }
    } else {
      inner := RunDrivesLedger(sha, delegation, w, steps[1..]);
    }
  }

  // ---------------------------------------------------------------------------------------------
  // One invocation for an id, and one result for every answer

  /** The handling has the result that the ledger has given for its invocation. */
  ghost predicate HasResult(sha: seq<Byte> -> Digest, w: World, handling: Handling, result: Ledger.ToolExecution) {
    && handling.frame.payload.ToolCall? && handling.frame.payload.invocationId.Some?
    && Ledger.Answer(IdOf(handling.cap, handling.frame), RequestDigest(sha, handling.frame.payload), result)
       in w.tools.results
  }

  ghost predicate HandlingOk(sha: seq<Byte> -> Digest, w: World, h: nat)
    requires h in w.handlings
  {
    var handling := w.handlings[h];
    && handling.frame.payload.ToolCall? && handling.frame.payload.invocationId.Some?
    && (h in w.tools.callers <==> handling.result.None?)
    && match handling.result
       case None =>
         && w.tools.callers[h].id == IdOf(handling.cap, handling.frame)
         && w.tools.callers[h].digest == RequestDigest(sha, handling.frame.payload)
       case Some(result) => HasResult(sha, w, handling, result)
  }

  ghost predicate Inv(sha: seq<Byte> -> Digest, w: World) {
    && Ledger.Inv(w.tools)
    && (forall h | h in w.tools.callers :: h in w.handlings)
    && (forall h | h in w.handlings :: HandlingOk(sha, w, h))
    && (forall i | 0 <= i < |w.answers| && w.answers[i].handling.result.Some? ::
          HasResult(sha, w, w.answers[i].handling, w.answers[i].handling.result.value))
  }

  /** What a step of the ledger's system leaves of its callers and its results. */
  lemma LedgerFrame(s: Ledger.System, step: Ledger.Step)
    ensures var s' := Ledger.Apply(s, step);
            && (forall r | r in s.results :: r in s'.results)
            && (forall c | c != step.caller :: c in s'.callers <==> c in s.callers)
            && (forall c | c != step.caller && c in s.callers :: s'.callers[c] == s.callers[c])
            && (step.Crash? ==> step.caller !in s'.callers)
            && (step.Invoke? && step.caller in s.callers ==>
                  step.caller in s'.callers && s'.callers[step.caller].id == s.callers[step.caller].id
                  && s'.callers[step.caller].digest == s.callers[step.caller].digest)
            && (step.Invoke? && step.caller !in s.callers ==> step.caller !in s'.callers)
  {
  }

  lemma OtherHandlingsOk(sha: seq<Byte> -> Digest, w: World, w': World, h: nat)
    requires Inv(sha, w)
    requires forall r | r in w.tools.results :: r in w'.tools.results
    requires forall c | c != h :: c in w'.tools.callers <==> c in w.tools.callers
    requires forall c | c != h && c in w.tools.callers :: w'.tools.callers[c] == w.tools.callers[c]
    requires forall c | c != h :: c in w'.handlings <==> c in w.handlings
    requires forall c | c != h && c in w.handlings :: w'.handlings[c] == w.handlings[c]
    ensures forall c | c != h && c in w'.tools.callers :: c in w'.handlings
    ensures forall c | c != h && c in w'.handlings :: HandlingOk(sha, w', c)
    ensures forall i | 0 <= i < |w.answers| && w.answers[i].handling.result.Some? ::
              HasResult(sha, w', w.answers[i].handling, w.answers[i].handling.result.value)
  {
    hide Ledger.Inv, RequestDigest;
    forall c | c != h && c in w'.handlings ensures HandlingOk(sha, w', c) {
      assert HandlingOk(sha, w, c);
    }
  }

  /** What a step must show about its own handler. */
  ghost predicate OwnOk(sha: seq<Byte> -> Digest, w: World, w': World, h: nat) {
    && (h in w'.tools.callers ==> h in w'.handlings)
    && (h in w'.handlings ==> HandlingOk(sha, w', h))
    && (w'.answers == w.answers
        || (|w'.answers| == |w.answers| + 1 && w'.answers[..|w.answers|] == w.answers
            && var last := w'.answers[|w.answers|].handling;
               last.result.Some? ==> HasResult(sha, w', last, last.result.value)))
    && (forall c | c != h :: c in w'.handlings <==> c in w.handlings)
    && (forall c | c != h && c in w.handlings :: w'.handlings[c] == w.handlings[c])
  }

  lemma ArriveIsOwn(sha: seq<Byte> -> Digest, delegation: bool, w: World, h: nat, cap: Capability, frame: Frame)
    requires Inv(sha, w) && h !in w.handlings && frame.payload.ToolCall?
    ensures OwnOk(sha, w, Arrived(sha, delegation, w, h, cap, frame), h)
  {
    hide Serve, RequestDigest, Ledger.Inv;
  }

  lemma InvokeIsOwn(sha: seq<Byte> -> Digest, delegation: bool, w: World, h: nat, execution: Ledger.ToolExecution)
    requires Inv(sha, w)
    ensures OwnOk(sha, w, Apply(sha, delegation, w, Invoke(h, execution)), h)
  {
    hide Serve, RequestDigest, Ledger.Inv;
    if h in w.handlings {
      assert HandlingOk(sha, w, h);
    }
  }

  lemma FinishIsOwn(sha: seq<Byte> -> Digest, w: World, h: nat, tooLarge: bool)
    requires Inv(sha, w) && IsInvoked(w, h)
    ensures OwnOk(sha, w, Finished(sha, w, h, tooLarge), h)
  {
    hide Serve, RequestDigest, Ledger.Inv;
    assert HandlingOk(sha, w, h);
  }

  lemma EndIsOwn(sha: seq<Byte> -> Digest, delegation: bool, w: World, step: Step)
    requires Inv(sha, w) && (step.Raise? || step.Answer? || step.Abandon?)
    ensures OwnOk(sha, w, Apply(sha, delegation, w, step), step.handler)
  {
    hide Serve, RequestDigest, Ledger.Inv;
    if step.handler in w.handlings {
      assert HandlingOk(sha, w, step.handler);
    }
  }

  lemma OwnKeepsInv(sha: seq<Byte> -> Digest, w: World, w': World, h: nat)
    requires Inv(sha, w) && Ledger.Inv(w'.tools) && OwnOk(sha, w, w', h)
    requires forall r | r in w.tools.results :: r in w'.tools.results
    requires forall c | c != h :: c in w'.tools.callers <==> c in w.tools.callers
    requires forall c | c != h && c in w.tools.callers :: w'.tools.callers[c] == w.tools.callers[c]
    ensures Inv(sha, w')
  {
    hide Ledger.Inv, HandlingOk, HasResult;
    OtherHandlingsOk(sha, w, w', h);
    forall i | 0 <= i < |w'.answers| && w'.answers[i].handling.result.Some?
      ensures HasResult(sha, w', w'.answers[i].handling, w'.answers[i].handling.result.value)
    {
      if i < |w.answers| {
        assert w'.answers[i] == w.answers[i];
      }
    }
  }

  lemma StepKeepsInv(sha: seq<Byte> -> Digest, delegation: bool, w: World, step: Step)
    requires Inv(sha, w) && Enabled(w, step)
    ensures Inv(sha, Apply(sha, delegation, w, step))
  {
    hide Ledger.Inv, Ledger.Apply, HandlingOk, HasResult, OwnOk, RequestDigest, Serve;
    var w' := Apply(sha, delegation, w, step);
    var inner := LedgerStep(sha, delegation, w, step);
    StepDrivesLedger(sha, delegation, w, step);
    if inner.Some? {
      Ledger.StepKeepsInv(w.tools, inner.value);
      LedgerFrame(w.tools, inner.value);
    }
    match step {
      case Arrive(h, cap, frame) => ArriveIsOwn(sha, delegation, w, h, cap, frame); OwnKeepsInv(sha, w, w', h);
      case Invoke(h, execution) => InvokeIsOwn(sha, delegation, w, h, execution); OwnKeepsInv(sha, w, w', h);
      case Finish(h, tooLarge) =>
        if IsInvoked(w, h) {
          FinishIsOwn(sha, w, h, tooLarge);
          OwnKeepsInv(sha, w, w', h);
        }
      case ServeOther(_, _, _, _) => OtherKeepsInv(sha, w, w');
      case _ => EndIsOwn(sha, delegation, w, step); OwnKeepsInv(sha, w, w', step.handler);
    }
  }

  lemma OtherKeepsInv(sha: seq<Byte> -> Digest, w: World, w': World)
    requires Inv(sha, w) && w'.tools == w.tools && w'.handlings == w.handlings && w'.answers == w.answers
    ensures Inv(sha, w')
  {
    hide Ledger.Inv, RequestDigest;
    forall h | h in w'.handlings ensures HandlingOk(sha, w', h) {
      assert HandlingOk(sha, w, h);
    }
  }

  lemma {:induction false} RunKeepsInv(sha: seq<Byte> -> Digest, delegation: bool, w: World, steps: seq<Step>)
    requires Inv(sha, w)
    ensures Inv(sha, Run(sha, delegation, w, steps))
    decreases |steps|
  {
    hide Inv, Enabled, Apply;
    if steps != [] {
      if Enabled(w, steps[0]) {
        StepKeepsInv(sha, delegation, w, steps[0]);
        RunKeepsInv(sha, delegation, Apply(sha, delegation, w, steps[0]), steps[1..]);
      } else {
        RunKeepsInv(sha, delegation, w, steps[1..]);
      }
    }
  }

  /**
   Whatever attempts, epochs, crashes and reconnections there are: the gateway is invoked at most once
   for an invocation id of a run, and all tool calls with that id that have come to a result, of
   whichever attempt, are the same request and have the very result of that one invocation.
   */
  lemma OneInvocationForAll(sha: seq<Byte> -> Digest, delegation: bool, steps: seq<Step>)
    ensures var w := Run(sha, delegation, START, steps);
            && (forall i, j | 0 <= i < |w.tools.gateway| && 0 <= j < |w.tools.gateway|
                              && w.tools.gateway[i].0 == w.tools.gateway[j].0 :: i == j)
            && (forall x, y | x in w.answers && y in w.answers && IsOfOneId(x.handling, y.handling) ::
                  && x.handling.result == y.handling.result
                  && RequestDigest(sha, x.handling.frame.payload) == RequestDigest(sha, y.handling.frame.payload))
            && (forall x | x in w.answers && x.handling.result.Some? ::
                  && x.handling.frame.payload.ToolCall? && x.handling.frame.payload.invocationId.Some?
                  && (IdOf(x.handling.cap, x.handling.frame), x.handling.result.value) in w.tools.gateway)
  {
    hide Run, RequestDigest;
    StartInv(sha);
    RunKeepsInv(sha, delegation, START, steps);
    var inner := RunDrivesLedger(sha, delegation, START, steps);
    Ledger.ToolCallsAtMostOnce(inner);
    AnswersAgree(sha, Run(sha, delegation, START, steps));
  }

  /** Two tool calls of one run, by whichever attempts, with one invocation id, that have come to results. */
  predicate IsOfOneId(x: Handling, y: Handling) {
    && x.frame.payload.ToolCall? && x.frame.payload.invocationId.Some?
    && y.frame.payload.ToolCall? && y.frame.payload.invocationId.Some?
    && IdOf(x.cap, x.frame) == IdOf(y.cap, y.frame) && x.result.Some? && y.result.Some?
  }

  lemma StartInv(sha: seq<Byte> -> Digest)
    ensures Inv(sha, START)
  {
  }

  lemma AnswersAgree(sha: seq<Byte> -> Digest, w: World)
    requires Inv(sha, w)
    requires forall r, r' | r in w.tools.results && r' in w.tools.results && r.id == r'.id :: r == r'
    requires forall r | r in w.tools.results :: (r.id, r.execution) in w.tools.gateway
    ensures forall x, y | x in w.answers && y in w.answers && IsOfOneId(x.handling, y.handling) ::
              && x.handling.result == y.handling.result
              && RequestDigest(sha, x.handling.frame.payload) == RequestDigest(sha, y.handling.frame.payload)
    ensures forall x | x in w.answers && x.handling.result.Some? ::
              && x.handling.frame.payload.ToolCall? && x.handling.frame.payload.invocationId.Some?
              && (IdOf(x.handling.cap, x.handling.frame), x.handling.result.value) in w.tools.gateway
  {
    hide Ledger.Inv, RequestDigest, HandlingOk;
    forall x | x in w.answers && x.handling.result.Some?
      ensures HasResult(sha, w, x.handling, x.handling.result.value)
    {
      var i :| 0 <= i < |w.answers| && w.answers[i] == x;
    }
  }

  // ---------------------------------------------------------------------------------------------
  // When the gateway is invoked, and what a superseded attempt gets

  lemma TakeStep(sha: seq<Byte> -> Digest, delegation: bool, w: World, step: Step, rest: seq<Step>)
    requires Enabled(w, step)
    ensures Run(sha, delegation, w, [step] + rest) == Run(sha, delegation, Apply(sha, delegation, w, step), rest)
  {
    hide Apply, Enabled;
    assert ([step] + rest)[1..] == rest;
  }

  /** A call within all limits, of a tool that the capability lists, while there is a gateway. */
  predicate MayReachGateway(delegation: bool, cap: Capability, frame: Frame) {
    && frame.payload.ToolCall? && frame.key == cap.key && frame.sequence >= 1 && frame.otherBytes <= 16384
    && frame.payload.tool in cap.tools && frame.payload.invocationId.Some?
    && 1 <= |frame.payload.tool| <= 128 && frame.payload.argumentBytes <= 8192
    && delegation
  }

  lemma AdmittedIff(delegation: bool, cap: Capability, frame: Frame)
    ensures IsAdmitted(delegation, cap, frame) <==> MayReachGateway(delegation, cap, frame)
  {
  }

  /**
   A tool call invokes the gateway if and only if it is of the call's attempt, within all limits and of a
   tool that the capability lists, there is a gateway, and its invocation id is not in the ledger. The
   epoch plays no part.
   */
  lemma InvokesIffUnknown(
    sha: seq<Byte> -> Digest, delegation: bool, w: World, h: nat, cap: Capability, frame: Frame,
    execution: Ledger.ToolExecution)
    requires Inv(sha, w) && Enabled(w, Arrive(h, cap, frame))
    ensures var w' := Run(sha, delegation, w, [Arrive(h, cap, frame), Invoke(h, execution)]);
            if MayReachGateway(delegation, cap, frame)
               && Ledger.InvocationId(cap.key.runId, frame.payload.invocationId.value) !in w.tools.ledger
            then w'.tools.gateway == w.tools.gateway
                   + [(Ledger.InvocationId(cap.key.runId, frame.payload.invocationId.value), execution)]
            else w'.tools.gateway == w.tools.gateway
  {
    AdmittedIff(delegation, cap, frame);
    hide Serve, RequestDigest, Ledger.Inv, MayReachGateway;
    var arrive, invoke := Arrive(h, cap, frame), Invoke(h, execution);
    assert [arrive, invoke] == [arrive] + ([invoke] + []);
    TakeStep(sha, delegation, w, arrive, [invoke] + []);
    TakeStep(sha, delegation, Apply(sha, delegation, w, arrive), invoke, []);
  }

  predicate OnlyErrors(replies: seq<Reply>) {
    forall i | 0 <= i < |replies| :: replies[i].ProtocolError?
  }

  lemma SupersededServe(sha: seq<Byte> -> Digest, t: Tables, shown: Option<Capability>, frame: Frame, eventId: Uuid,
                        gateway: Gateway, k: AttemptKey)
    requires Stream.Superseded(t, k)
    ensures var served := Serve(sha, t, shown, frame, eventId, gateway);
            && Stream.Superseded(served.tables, k)
            && (shown.Some? && shown.value.key == k ==> served.tables == t && OnlyErrors(served.replies))
  {
    hide Refusal, EventOf;
  }

  /** Since w, the attempt has only been refused. */
  ghost predicate OnlyRefused(w: World, w': World, k: AttemptKey) {
    && Stream.Superseded(w'.tables, k) && w.answers <= w'.answers
    && forall i | |w.answers| <= i < |w'.answers| && w'.answers[i].handling.cap.key == k ::
         OnlyErrors(w'.answers[i].replies)
  }

  lemma EndedIsRefused(sha: seq<Byte> -> Digest, w: World, h: nat, handling: Handling, eventId: Uuid,
                       gateway: Gateway, k: AttemptKey)
    requires Stream.Superseded(w.tables, k)
    ensures OnlyRefused(w, Ended(sha, w, h, handling, eventId, gateway), k)
  {
    hide Serve, OnlyErrors;
    SupersededServe(sha, w.tables, Some(handling.cap), handling.frame, eventId, gateway, k);
  }

  lemma StepRefuses(sha: seq<Byte> -> Digest, delegation: bool, w: World, step: Step, k: AttemptKey)
    requires Enabled(w, step) && Stream.Superseded(w.tables, k)
    ensures OnlyRefused(w, Apply(sha, delegation, w, step), k)
  {
    forall w1: World, h, handling, eventId, gateway | w1.tables == w.tables && w1.answers == w.answers
      ensures OnlyRefused(w, Ended(sha, w1, h, handling, eventId, gateway), k)
    {
      EndedIsRefused(sha, w1, h, handling, eventId, gateway, k);
    }
    if step.ServeOther? {
      SupersededServe(sha, w.tables, step.shown, step.frame, step.eventId, step.gateway, k);
    }
    hide Serve, OnlyErrors, Ended, RequestDigest, Ledger.Apply, Ledger.Reserve, Ledger.Record;
  }

  /**
   Once a newer epoch is active, the tool calls of an older one are answered with errors only, whether
   they arrive later or were under way, and whatever their results are.
   */
  lemma {:induction false} StaleCallsAreRefused(
    sha: seq<Byte> -> Digest, delegation: bool, w: World, steps: seq<Step>, k: AttemptKey)
    requires Stream.Superseded(w.tables, k)
    ensures OnlyRefused(w, Run(sha, delegation, w, steps), k)
    decreases |steps|
  {
    hide Enabled, Apply, Stream.Superseded, OnlyErrors;
    if steps != [] {
      var next := if Enabled(w, steps[0]) then Apply(sha, delegation, w, steps[0]) else w;
      if Enabled(w, steps[0]) {
        StepRefuses(sha, delegation, w, steps[0], k);
      }
      StaleCallsAreRefused(sha, delegation, next, steps[1..], k);
    }
  }

  // ---------------------------------------------------------------------------------------------
  // A run in which a superseded attempt's call is invoked

  const OLD := Capability(AttemptKey(1, 10, 1), 7, 1, 3, {"search"})
  const NEW := Capability(AttemptKey(1, 11, 2), 7, 1, 3, {"search"})
  const CALL := ToolCall(Some(50), "search", "{}", 2)
  const OLD_CALL := Frame(OLD.key, 1, "call", 0, CALL)
  const NEW_CALL := Frame(NEW.key, 1, "call", 0, CALL)
  const INVOCATION := Ledger.InvocationId(1, 50)

  /** Both attempts have shown their capabilities, the newer one after the older. */
  predicate HaveBothShown(w: World) {
    && OLD in w.shown && NEW in w.shown && w.handlings == map[] && w.tools == Ledger.INITIAL && w.answers == []
    && w.tables == Tables(map[1 := AttemptRow(11, 2, 7, 1, 3, 0)], map[], [])
  }

  lemma BothShow(sha: seq<Byte> -> Digest, rest: seq<Step>) returns (steps: seq<Step>, w: World)
    ensures Run(sha, true, START, steps + rest) == Run(sha, true, w, rest) && HaveBothShown(w)
  {
    var s1 := ServeOther(None, Stream.HelloFrame(OLD, 0), 0, Returned(true));
    var s2 := ServeOther(None, Stream.HelloFrame(NEW, 0), 0, Returned(true));
    steps := [s1, s2];
    assert steps + rest == [s1] + ([s2] + rest);
    TakeStep(sha, true, START, s1, [s2] + rest);
    var w1 := Apply(sha, true, START, s1);
    TakeStep(sha, true, w1, s2, rest);
    w := Apply(sha, true, w1, s2);
  }

  /** What the ledger has after the older attempt's invocation. */
  ghost predicate IsRecorded(sha: seq<Byte> -> Digest, w: World, result: Ledger.ToolExecution) {
    && w.tools.ledger == map[INVOCATION := Ledger.ToolRow(RequestDigest(sha, CALL), Some(result))]
    && w.tools.callers == map[] && w.tools.gateway == [(INVOCATION, result)]
  }

  lemma OldIsInvoked(sha: seq<Byte> -> Digest, w: World, result: Ledger.ToolExecution)
    requires HaveBothShown(w)
    ensures var w1 := Apply(sha, true, w, Arrive(0, OLD, OLD_CALL));
            var w2 := Apply(sha, true, w1, Invoke(0, result)); var w3 := Apply(sha, true, w2, Finish(0, false));
            && IsRecorded(sha, w3, result) && w3.handlings == map[0 := Handling(OLD, OLD_CALL, Some(result))]
            && w3.tables == w.tables && w3.answers == [] && w3.shown == w.shown
  {
    hide RequestDigest, Serve;
  }

  lemma OldIsRefused(sha: seq<Byte> -> Digest, w: World, result: Ledger.ToolExecution)
    requires w.handlings == map[0 := Handling(OLD, OLD_CALL, Some(result))] && w.answers == []
    requires w.tables == Tables(map[1 := AttemptRow(11, 2, 7, 1, 3, 0)], map[], [])
    ensures Apply(sha, true, w, Answer(0, 0, true))
         == w.(handlings := map[],
               answers := [Answered(Handling(OLD, OLD_CALL, Some(result)), [ProtocolError("stale_epoch")])])
  {
  }

  lemma NewIsAnswered(sha: seq<Byte> -> Digest, w: World, result: Ledger.ToolExecution)
    requires IsRecorded(sha, w, result) && NEW in w.shown && w.handlings == map[]
    requires w.tables == Tables(map[1 := AttemptRow(11, 2, 7, 1, 3, 0)], map[], [])
    ensures var w1 := Apply(sha, true, w, Arrive(1, NEW, NEW_CALL)); var w2 := Apply(sha, true, w1, Answer(1, 0, true));
            && w2.tools.gateway == w.tools.gateway
            && Stream.Superseded(w2.tables, OLD.key)
            && w2.answers == w.answers
               + [Answered(Handling(NEW, NEW_CALL, Some(result)), [ToolResult(Some(50)), Acknowledgement(1, None)])]
  {
    hide RequestDigest;
    var w1 := Apply(sha, true, w, Arrive(1, NEW, NEW_CALL));
    assert w1.handlings[1] == Handling(NEW, NEW_CALL, Some(result));
  }

  /**
   The older attempt's call arrives after the newer attempt has taken over. The gateway is invoked for
   it, it is answered with stale_epoch, and the newer attempt is given its result without another
   invocation.
   */
  lemma StaleCallIsInvoked(sha: seq<Byte> -> Digest, result: Ledger.ToolExecution) returns (steps: seq<Step>)
    ensures var w := Run(sha, true, START, steps);
            && Stream.Superseded(w.tables, OLD.key) && w.tools.gateway == [(INVOCATION, result)]
            && w.answers == [
                 Answered(Handling(OLD, OLD_CALL, Some(result)), [ProtocolError("stale_epoch")]),
                 Answered(Handling(NEW, NEW_CALL, Some(result)), [ToolResult(Some(50)), Acknowledgement(1, None)])]
  {
    hide RequestDigest, Run, Apply, IsRecorded;
    var arrive, invoke, finish := Arrive(0, OLD, OLD_CALL), Invoke(0, result), Finish(0, false);
    var answer := Answer(0, 0, true);
    var again, done := Arrive(1, NEW, NEW_CALL), Answer(1, 0, true);
    var rest := [arrive] + ([invoke] + ([finish] + ([answer] + ([again] + ([done] + [])))));
    var both, w := BothShow(sha, rest);
    steps := both + rest;
    OldIsInvoked(sha, w, result);
    TakeStep(sha, true, w, arrive, [invoke] + ([finish] + ([answer] + ([again] + ([done] + [])))));
    var w1 := Apply(sha, true, w, arrive);
    TakeStep(sha, true, w1, invoke, [finish] + ([answer] + ([again] + ([done] + []))));
    var w2 := Apply(sha, true, w1, invoke);
    TakeStep(sha, true, w2, finish, [answer] + ([again] + ([done] + [])));
    var w3 := Apply(sha, true, w2, finish);
    OldIsRefused(sha, w3, result);
    TakeStep(sha, true, w3, answer, [again] + ([done] + []));
    var w4 := Apply(sha, true, w3, answer);
    assert IsRecorded(sha, w4, result) by { StillRecorded(sha, w3, w4, result); }
    NewIsAnswered(sha, w4, result);
    TakeStep(sha, true, w4, again, [done] + []);
    var w5 := Apply(sha, true, w4, again);
    TakeStep(sha, true, w5, done, []);
    RunNone(sha, Apply(sha, true, w5, done));
    assert w4.tools.gateway == [(INVOCATION, result)] by { RecordedIs(sha, w4, result); }
  }

  lemma StillRecorded(sha: seq<Byte> -> Digest, w: World, w': World, result: Ledger.ToolExecution)
    requires IsRecorded(sha, w, result) && w'.tools == w.tools
    ensures IsRecorded(sha, w', result)
  {
  }

  lemma RecordedIs(sha: seq<Byte> -> Digest, w: World, result: Ledger.ToolExecution)
    requires IsRecorded(sha, w, result)
    ensures w.tools.gateway == [(INVOCATION, result)]
  {
  }

  lemma RunNone(sha: seq<Byte> -> Digest, w: World)
    ensures Run(sha, true, w, []) == w
  {
  }
}
