/**
 The stream over calls that keep their order: what an agent writes to a call reaches the server once
 and in that order, what the server answers is read once and in that order, and a call may be cut at
 any point. Here a send that returns tells whether its frame is durable.
 */
module OrderedStream {
  import opened Wrappers
  import opened Utf8
  import opened Protocol
  import opened RuntimeApi
  import opened AgentSdk
  import Stream = AgentStream

  /** What is on its way on a call, in either direction. */
  datatype Line = Line(toServer: seq<Frame>, toAgent: seq<Reply>)

  datatype World = World(stream: Stream.System, lines: map<nat, Line>)

  /** An agent reads acknowledgements and accepted hellos as such, and other replies past them. */
  datatype Step = StreamStep(step: Stream.Step) | ReadOther(agent: AttemptKey)

  const START := World(Stream.INITIAL, map[])

  /** The line of the agent's open call. */
  function LineOf(w: World, k: AttemptKey): Line
    requires HasLine(w, k)
  {
    w.lines[w.stream.agents[k].call.value]
  }

  predicate HasLine(w: World, k: AttemptKey) {
    k in w.stream.agents && w.stream.agents[k].call.Some? && w.stream.agents[k].call.value in w.lines
  }

  /** The next thing to be read by the agent. */
  predicate Reads(w: World, k: AttemptKey, reply: Reply) {
    HasLine(w, k) && LineOf(w, k).toAgent != [] && LineOf(w, k).toAgent[0] == reply
  }

  ghost predicate Enabled(w: World, step: Step) {
    match step
    case ReadOther(k) =>
      HasLine(w, k) && LineOf(w, k).toAgent != []
      && !LineOf(w, k).toAgent[0].Acknowledgement? && !LineOf(w, k).toAgent[0].HelloAccepted?
    case StreamStep(inner) =>
      Stream.Enabled(w.stream, inner)
      && match inner
         case Deliver(call, frame, _, _) =>
           call in w.lines && w.lines[call].toServer != [] && w.lines[call].toServer[0] == frame
         case ReceiveHello(k, n) => Reads(w, k, HelloAccepted(n))
         case ReceiveAck(k, n, id) => Reads(w, k, Acknowledgement(n, id)) && !w.stream.agents[k].awaitingHello
         case Send(k, _, _, _, _) => HasLine(w, k) && !w.stream.agents[k].awaitingHello
         case _ => true
  }

  function Read(w: World, k: AttemptKey, written: seq<Frame>): map<nat, Line>
    requires HasLine(w, k) && LineOf(w, k).toAgent != []
  {
    var line := LineOf(w, k);
    w.lines[w.stream.agents[k].call.value := Line(line.toServer + written, line.toAgent[1..])]
  }

  /** After an accepted hello, every frame above its number is written again, in ascending order. */
  ghost function Lines(sha: seq<Byte> -> Digest, w: World, step: Step): map<nat, Line>
    requires Enabled(w, step)
  {
    match step
    case ReadOther(k) => Read(w, k, [])
    case StreamStep(inner) =>
      match inner
      case Dial(k, call, otherBytes) =>
        w.lines[call := Line([Stream.HelloFrame(w.stream.agents[k].cap, otherBytes)], [])]
      case Deliver(call, _, _, _) =>
        var line := w.lines[call];
        w.lines[call := Line(line.toServer[1..], line.toAgent + Stream.ServedBy(sha, w.stream, inner).replies)]
      case ReceiveHello(k, n) =>
        var created := w.stream.agents[k].created;
        Read(w, k, if n <= |created| then created[n..] else [])
      case ReceiveAck(k, _, _) => Read(w, k, [])
      case Send(k, sequence, idempotencyKey, otherBytes, payload) =>
        var line := LineOf(w, k);
        w.lines[w.stream.agents[k].call.value :=
                line.(toServer := line.toServer + [Frame(k, sequence, idempotencyKey, otherBytes, payload)])]
      case _ => w.lines
  }

  ghost function Apply(sha: seq<Byte> -> Digest, w: World, step: Step): World
    requires Enabled(w, step)
  {
    World(if step.StreamStep? then Stream.Apply(sha, w.stream, step.step) else w.stream, Lines(sha, w, step))
  }

  ghost function Run(sha: seq<Byte> -> Digest, w: World, steps: seq<Step>): World
    decreases |steps|
  {
    if steps == [] then w
    else Run(sha, if Enabled(w, steps[0]) then Apply(sha, w, steps[0]) else w, steps[1..])
  }

  // ---------------------------------------------------------------------------------------------
  // What is on an open call

  /** Before the hello is accepted nothing else is on the call. */
  predicate IsOpening(line: Line) {
    || (|line.toServer| == 1 && line.toServer[0].payload.Hello? && line.toAgent == [])
    || (line.toServer == [] && forall i | 0 <= i < |line.toAgent| :: !line.toAgent[i].Acknowledgement?)
  }

  /** Unread acknowledgements and unserved frames ascend, from above what the agent has read. */
  predicate IsAscending(line: Line, lastAck: nat, created: nat) {
    && (forall i | 0 <= i < |line.toAgent| && line.toAgent[i].Acknowledgement? ::
          lastAck < line.toAgent[i].acceptedSequence <= created)
    && (forall i, j | 0 <= i < j < |line.toAgent| && line.toAgent[i].Acknowledgement?
                      && line.toAgent[j].Acknowledgement? ::
          line.toAgent[i].acceptedSequence < line.toAgent[j].acceptedSequence)
    && (forall i, j | 0 <= i < |line.toAgent| && line.toAgent[i].Acknowledgement? && 0 <= j < |line.toServer| ::
          line.toAgent[i].acceptedSequence < line.toServer[j].sequence)
    && (forall j | 0 <= j < |line.toServer| :: lastAck < line.toServer[j].sequence <= created)
    && (forall i, j | 0 <= i < j < |line.toServer| :: line.toServer[i].sequence < line.toServer[j].sequence)
  }

  ghost predicate LineOk(w: World, k: AttemptKey)
    requires k in w.stream.agents
  {
    var agent := w.stream.agents[k];
    agent.call.Some? ==>
      && agent.call.value in w.lines
      && if agent.awaitingHello then IsOpening(LineOf(w, k))
         else IsAscending(LineOf(w, k), agent.buffer.lastAck, |agent.created|)
  }

  ghost predicate Inv(sha: seq<Byte> -> Digest, w: World) {
    Stream.Inv(sha, w.stream) && forall k | k in w.stream.agents :: LineOk(w, k)
  }

  /** A frame is acknowledged at most once, last, and under its own number; a hello never is. */
  lemma ServeReplies(sha: seq<Byte> -> Digest, t: Tables, shown: Option<Capability>, frame: Frame, eventId: Uuid,
                     gateway: Gateway)
    ensures var replies := Serve(sha, t, shown, frame, eventId, gateway).replies;
            forall i | 0 <= i < |replies| && replies[i].Acknowledgement? ::
              replies[i].acceptedSequence == frame.sequence && i == |replies| - 1 && !frame.payload.Hello?
  {
    hide Refusal, EventOf, Record;
  }

  lemma DeliverKeepsAscending(line: Line, replies: seq<Reply>, lastAck: nat, created: nat)
    requires IsAscending(line, lastAck, created) && line.toServer != []
    requires forall i | 0 <= i < |replies| && replies[i].Acknowledgement? ::
               replies[i].acceptedSequence == line.toServer[0].sequence && i == |replies| - 1
    ensures IsAscending(Line(line.toServer[1..], line.toAgent + replies), lastAck, created)
  {
  }

  lemma SendKeepsAscending(line: Line, lastAck: nat, created: nat, frame: Frame)
    requires IsAscending(line, lastAck, created) && frame.sequence == created + 1 && lastAck <= created
    ensures IsAscending(line.(toServer := line.toServer + [frame]), lastAck, created + 1)
  {
  }

  /** What is left after reading is above what has been read. */
  lemma ReadKeepsAscending(line: Line, lastAck: nat, created: nat)
    requires IsAscending(line, lastAck, created) && line.toAgent != []
    ensures var rest := line.(toAgent := line.toAgent[1..]);
            IsAscending(rest, if line.toAgent[0].Acknowledgement? then line.toAgent[0].acceptedSequence else lastAck,
                        created)
  {
  }

  lemma RewriteAscends(toAgent: seq<Reply>, created: seq<Frame>, resume: nat)
    requires resume <= |created| && forall i | 0 <= i < |created| :: created[i].sequence == i + 1
    requires forall i | 0 <= i < |toAgent| :: !toAgent[i].Acknowledgement?
    ensures IsAscending(Line(created[resume..], toAgent), resume, |created|)
  {
    forall j | 0 <= j < |created[resume..]| ensures created[resume..][j].sequence == resume + j + 1 {
      assert created[resume..][j] == created[resume + j];
    }
  }

  lemma AgentFacts(sha: seq<Byte> -> Digest, w: World, k: AttemptKey)
    requires Inv(sha, w) && k in w.stream.agents
    ensures var agent := w.stream.agents[k];
            && LineOk(w, k)
            && (agent.call.Some? ==>
                  agent.call.value in w.stream.calls && w.stream.calls[agent.call.value].owner == k)
            && agent.buffer.lastAck <= |agent.created|
            && forall i | 0 <= i < |agent.created| :: agent.created[i].sequence == i + 1
  {
    hide LineOk, Stream.RowsOk, Stream.WireOk, Stream.OutboxOk, Stream.EpochsOk, Stream.RepliesOk;
    assert Stream.AgentAt(w.stream, k);
  }

  /** An accepted hello names at most what was created, and at least what was acknowledged. */
  lemma HelloFacts(sha: seq<Byte> -> Digest, w: World, k: AttemptKey, n: nat)
    requires Inv(sha, w) && Enabled(w, StreamStep(Stream.ReceiveHello(k, n)))
    ensures var agent := w.stream.agents[k]; agent.buffer.lastAck <= n <= |agent.created|
  {
    hide LineOk, Stream.RowsOk, Stream.WireOk, Stream.OutboxOk, Stream.EpochsOk;
    assert Stream.AgentAt(w.stream, k);
    assert Stream.ReplyAt(w.stream, w.stream.agents[k].call.value, HelloAccepted(n));
  }

  /** What a step does to an agent other than through its line. */
  lemma OtherKeepsLine(w: World, w': World, k: AttemptKey)
    requires k in w.stream.agents && LineOk(w, k) && k in w'.stream.agents
    requires w'.stream.agents[k] == w.stream.agents[k] || w'.stream.agents[k].call == None
    requires HasLine(w, k) ==>
               var c := w.stream.agents[k].call.value; c in w'.lines && w'.lines[c] == w.lines[c]
    ensures LineOk(w', k)
  {
  }

  lemma OwnReadKeepsLine(sha: seq<Byte> -> Digest, w: World, step: Step, k: AttemptKey)
    requires Inv(sha, w) && Enabled(w, step)
    requires step == ReadOther(k) || (step.StreamStep? && step.step.ReceiveAck? && step.step.agent == k)
             || (step.StreamStep? && step.step.ReceiveHello? && step.step.agent == k)
    ensures LineOk(Apply(sha, w, step), k)
  {
    AgentFacts(sha, w, k);
    if step.StreamStep? && step.step.ReceiveHello? {
      HelloFacts(sha, w, k, step.step.resume);
      hide Inv, Apply, Enabled;
      HelloReadKeepsLine(sha, w, step, k);
    } else {
      hide Inv, Apply, Enabled;
      OtherReadKeepsLine(sha, w, step, k);
    }
  }

  lemma HelloReadKeepsLine(sha: seq<Byte> -> Digest, w: World, step: Step, k: AttemptKey)
    requires Enabled(w, step) && step.StreamStep? && step.step.ReceiveHello? && step.step.agent == k && LineOk(w, k)
    requires step.step.resume <= |w.stream.agents[k].created|
    requires var created := w.stream.agents[k].created; forall i | 0 <= i < |created| :: created[i].sequence == i + 1
    ensures LineOk(Apply(sha, w, step), k)
  {
    var line, created := LineOf(w, k), w.stream.agents[k].created;
    assert IsOpening(line) && line.toServer == [];
    RewriteAscends(line.toAgent[1..], created, step.step.resume);
    assert [] + created[step.step.resume..] == created[step.step.resume..];
    hide IsAscending;
  }

  lemma OtherReadKeepsLine(sha: seq<Byte> -> Digest, w: World, step: Step, k: AttemptKey)
    requires Enabled(w, step) && k in w.stream.agents && LineOk(w, k)
    requires step == ReadOther(k) || (step.StreamStep? && step.step.ReceiveAck? && step.step.agent == k)
    ensures LineOk(Apply(sha, w, step), k)
  {
    hide IsAscending;
    var line, agent := LineOf(w, k), w.stream.agents[k];
    assert line.toServer + [] == line.toServer;
    if !agent.awaitingHello {
      FirstIsAbove(line, agent.buffer.lastAck, |agent.created|);
      ReadKeepsAscending(line, agent.buffer.lastAck, |agent.created|);
    }
  }

  lemma FirstIsAbove(line: Line, lastAck: nat, created: nat)
    requires IsAscending(line, lastAck, created) && line.toAgent != []
    ensures line.toAgent[0].Acknowledgement? ==> lastAck < line.toAgent[0].acceptedSequence <= created
  {
  }

  lemma OwnWriteKeepsLine(sha: seq<Byte> -> Digest, w: World, step: Step, k: AttemptKey)
    requires Inv(sha, w) && Enabled(w, step) && step.StreamStep?
    requires (step.step.Send? && step.step.agent == k) || (step.step.Dial? && step.step.agent == k)
    ensures LineOk(Apply(sha, w, step), k)
  {
    AgentFacts(sha, w, k);
    if step.step.Send? {
      SendIsNext(sha, w, k, step.step.sequence);
      hide Inv, Apply, Enabled;
      OwnSendKeepsLine(sha, w, step, k);
    } else {
      hide Inv, Apply, Enabled, LineOk;
      OwnDialKeepsLine(sha, w, step, k);
    }
  }

  lemma OwnDialKeepsLine(sha: seq<Byte> -> Digest, w: World, step: Step, k: AttemptKey)
    requires Enabled(w, step) && step.StreamStep? && step.step.Dial? && step.step.agent == k
    ensures LineOk(Apply(sha, w, step), k)
  {
    hide IsAscending;
  }

  lemma OwnSendKeepsLine(sha: seq<Byte> -> Digest, w: World, step: Step, k: AttemptKey)
    requires Enabled(w, step) && step.StreamStep? && step.step.Send? && step.step.agent == k && LineOk(w, k)
    requires step.step.sequence == |w.stream.agents[k].created| + 1
    requires w.stream.agents[k].buffer.lastAck <= |w.stream.agents[k].created|
    ensures LineOk(Apply(sha, w, step), k)
  {
    hide IsAscending, IsNext;
    SendKeepsAscending(LineOf(w, k), w.stream.agents[k].buffer.lastAck, |w.stream.agents[k].created|,
      Frame(k, step.step.sequence, step.step.idempotencyKey, step.step.otherBytes, step.step.payload));
  }

  lemma SendIsNext(sha: seq<Byte> -> Digest, w: World, k: AttemptKey, sequence: nat)
    requires Inv(sha, w) && k in w.stream.agents && IsNext(w.stream.agents[k].buffer, sequence)
    ensures sequence == |w.stream.agents[k].created| + 1
  {
    hide LineOk, Stream.RowsOk, Stream.WireOk, Stream.OutboxOk, Stream.EpochsOk, Stream.RepliesOk;
    assert Stream.AgentAt(w.stream, k);
    var agent := w.stream.agents[k];
    Stream.NextIsNew(k, agent.created, agent.buffer, sequence);
  }

  lemma DeliverKeepsLine(sha: seq<Byte> -> Digest, w: World, step: Step, k: AttemptKey)
    requires Inv(sha, w) && Enabled(w, step) && step.StreamStep? && step.step.Deliver? && k in w.stream.agents
    ensures k in Apply(sha, w, step).stream.agents && LineOk(Apply(sha, w, step), k)
  {
    AgentFacts(sha, w, k);
    hide Inv, IsAscending, Serve, Stream.Enabled;
    var agent, inner := w.stream.agents[k], step.step;
    ServeReplies(sha, w.stream.tables, w.stream.calls[inner.call].capability, inner.frame, inner.eventId,
      inner.gateway);
    var w' := Apply(sha, w, step);
    assert w'.stream.agents == w.stream.agents;
    if agent.call == Some(inner.call) {
      var line := LineOf(w, k);
      assert LineOf(w', k) == Line(line.toServer[1..], line.toAgent + Stream.ServedBy(sha, w.stream, inner).replies);
      hide Apply;
      if !agent.awaitingHello {
        DeliverKeepsAscending(line, Stream.ServedBy(sha, w.stream, inner).replies, agent.buffer.lastAck,
                              |agent.created|);
      }
    } else {
      OtherKeepsLine(w, w', k);
    }
  }

  lemma StepKeepsLine(sha: seq<Byte> -> Digest, w: World, step: Step, k: AttemptKey)
    requires Inv(sha, w) && Enabled(w, step) && k in Apply(sha, w, step).stream.agents
    ensures LineOk(Apply(sha, w, step), k)
  {
    if step.StreamStep? && step.step.Deliver? {
      hide Inv, Apply, Enabled, LineOk;
      DeliverHasAgent(sha, w, step, k);
      DeliverKeepsLine(sha, w, step, k);
    } else if ActorOf(step) == Some(k) {
      hide Inv, Apply, Enabled, LineOk;
      if step.StreamStep? && (step.step.Send? || step.step.Dial?) {
        OwnWriteKeepsLine(sha, w, step, k);
      } else {
        OwnReadKeepsLine(sha, w, step, k);
      }
    } else if ActorOf(step).Some? {
      hide Inv, Apply, Enabled, LineOk;
      ActorHasAgent(sha, w, step, k);
      ActorKeepsLine(sha, w, step, k);
    } else {
      hide Inv, Apply, Enabled, LineOk;
      AsideKeepsLine(sha, w, step, k);
    }
  }

  lemma ActorHasAgent(sha: seq<Byte> -> Digest, w: World, step: Step, k: AttemptKey)
    requires Enabled(w, step) && ActorOf(step).Some? && k in Apply(sha, w, step).stream.agents
    ensures k in w.stream.agents
  {
    hide IsNext, Lines;
  }

  lemma DeliverHasAgent(sha: seq<Byte> -> Digest, w: World, step: Step, k: AttemptKey)
    requires Enabled(w, step) && step.StreamStep? && step.step.Deliver? && k in Apply(sha, w, step).stream.agents
    ensures k in w.stream.agents
  {
    hide Serve;
  }

  /** The agent whose line a step reads or writes, other than by a delivery. */
  function ActorOf(step: Step): Option<AttemptKey> {
    match step
    case ReadOther(k) => Some(k)
    case StreamStep(inner) =>
      match inner
      case Dial(k, _, _) => Some(k)
      case ReceiveHello(k, _) => Some(k)
      case ReceiveAck(k, _, _) => Some(k)
      case Send(k, _, _, _, _) => Some(k)
      case _ => None
  }

  /** An agent's step changes its own line, or one it dials, and no other agent. */
  lemma ActorFrame(sha: seq<Byte> -> Digest, w: World, step: Step, c: nat, k: AttemptKey)
    requires Enabled(w, step) && ActorOf(step).Some? && ActorOf(step) != Some(k) && k in w.stream.agents
    requires c in w.lines && c in w.stream.calls
    requires HasLine(w, ActorOf(step).value) ==> w.stream.agents[ActorOf(step).value].call != Some(c)
    ensures var w' := Apply(sha, w, step);
            && k in w'.stream.agents && w'.stream.agents[k] == w.stream.agents[k]
            && c in w'.lines && w'.lines[c] == w.lines[c]
  {
    hide IsNext;
  }

  lemma ActorKeepsAgent(sha: seq<Byte> -> Digest, w: World, step: Step, k: AttemptKey)
    requires Enabled(w, step) && ActorOf(step).Some? && ActorOf(step) != Some(k) && k in w.stream.agents
    ensures var w' := Apply(sha, w, step); k in w'.stream.agents && w'.stream.agents[k] == w.stream.agents[k]
  {
    hide IsNext, Lines;
  }

  lemma ActorKeepsLine(sha: seq<Byte> -> Digest, w: World, step: Step, k: AttemptKey)
    requires Inv(sha, w) && Enabled(w, step) && k in w.stream.agents
    requires ActorOf(step).Some? && ActorOf(step) != Some(k)
    ensures k in Apply(sha, w, step).stream.agents && LineOk(Apply(sha, w, step), k)
  {
    AgentFacts(sha, w, k);
    if HasLine(w, ActorOf(step).value) {
      AgentFacts(sha, w, ActorOf(step).value);
    }
    hide Inv, Apply, Enabled;
    ActorKeepsAgent(sha, w, step, k);
    if w.stream.agents[k].call.Some? {
      ActorFrame(sha, w, step, w.stream.agents[k].call.value, k);
    }
    OtherKeepsLine(w, Apply(sha, w, step), k);
  }

  lemma AsideKeepsLine(sha: seq<Byte> -> Digest, w: World, step: Step, k: AttemptKey)
    requires Inv(sha, w) && Enabled(w, step) && k in Apply(sha, w, step).stream.agents
    requires ActorOf(step) == None && !step.step.Deliver?
    ensures LineOk(Apply(sha, w, step), k)
  {
    hide Inv;
    if k in w.stream.agents {
      AgentFacts(sha, w, k);
      hide LineOk;
      AsideFrame(sha, w, step, k);
      OtherKeepsLine(w, Apply(sha, w, step), k);
    } else {
      hide Lines;
    }
  }

  lemma AsideFrame(sha: seq<Byte> -> Digest, w: World, step: Step, k: AttemptKey)
    requires Enabled(w, step) && ActorOf(step) == None && !step.step.Deliver? && k in w.stream.agents
    ensures var w' := Apply(sha, w, step);
            && k in w'.stream.agents && w'.lines == w.lines
            && (w'.stream.agents[k] == w.stream.agents[k] || w'.stream.agents[k].call == None)
  {
  }

  lemma StepKeepsInv(sha: seq<Byte> -> Digest, w: World, step: Step)
    requires Inv(sha, w) && Enabled(w, step)
    ensures Inv(sha, Apply(sha, w, step))
  {
    hide Stream.Inv, LineOk;
    if step.StreamStep? {
      Stream.StepKeepsInv(sha, w.stream, step.step);
    }
    forall k | k in Apply(sha, w, step).stream.agents ensures LineOk(Apply(sha, w, step), k) {
      StepKeepsLine(sha, w, step, k);
    }
  }

  lemma {:induction false} RunKeepsInv(sha: seq<Byte> -> Digest, w: World, steps: seq<Step>)
    requires Inv(sha, w)
    ensures Inv(sha, Run(sha, w, steps))
    decreases |steps|
  {
    hide Inv, Enabled, Apply;
    if steps != [] {
      if Enabled(w, steps[0]) {
        StepKeepsInv(sha, w, steps[0]);
        RunKeepsInv(sha, Apply(sha, w, steps[0]), steps[1..]);
      } else {
        RunKeepsInv(sha, w, steps[1..]);
      }
    }
  }

  // ---------------------------------------------------------------------------------------------
  // What a returning send says

  lemma StartInv(sha: seq<Byte> -> Digest)
    ensures Inv(sha, START)
  {
    Stream.InitialInv(sha);
  }

  predicate IsSendOf(step: Step, k: AttemptKey) {
    step.StreamStep? && step.step.Send? && step.step.agent == k
  }

  /** A step that ends no send of the agent and begins none. */
  predicate IsWaited(step: Step, k: AttemptKey) {
    !IsSendOf(step, k) && !(step.StreamStep? && step.step.ReceiveAck? && step.step.agent == k)
  }

  ghost function Until(sha: seq<Byte> -> Digest, before: seq<Step>, send: Step, after: seq<Step>): World {
    Run(sha, Run(sha, Run(sha, START, before), [send]), after)
  }

  /**
   In this run a send of the agent, the one that creates its q-th frame, has begun when the agent had
   read acknowledgements up to lastAck on its open call, and may return now, on acknowledgement n.
   */
  ghost predicate MayReturnOn(
    sha: seq<Byte> -> Digest, before: seq<Step>, send: Step, after: seq<Step>, k: AttemptKey, lastAck: nat, q: nat,
    n: nat, id: Option<Uuid>)
  {
    var w := Run(sha, START, before);
    && IsSendOf(send, k) && Enabled(w, send) && k in w.stream.agents
    && w.stream.agents[k].buffer.lastAck == lastAck && |w.stream.agents[k].created| + 1 == q
    && (forall i | 0 <= i < |after| :: IsWaited(after[i], k))
    && Enabled(Until(sha, before, send, after), StreamStep(Stream.ReceiveAck(k, n, id)))
  }

  /** While a send waits, nothing is created, and what was acknowledged stays so. */
  lemma WaitedStep(sha: seq<Byte> -> Digest, w: World, step: Step, k: AttemptKey)
    requires Inv(sha, w) && Enabled(w, step) && k in w.stream.agents && IsWaited(step, k)
    ensures var w' := Apply(sha, w, step);
            && k in w'.stream.agents && w'.stream.agents[k].created == w.stream.agents[k].created
            && w'.stream.agents[k].buffer.lastAck >= w.stream.agents[k].buffer.lastAck
  {
    hide Inv, Apply;
    if step.StreamStep? && step.step.ReceiveHello? && step.step.agent == k {
      HelloFacts(sha, w, k, step.step.resume);
    }
    WaitedFrame(sha, w, step, k);
  }

  lemma WaitedFrame(sha: seq<Byte> -> Digest, w: World, step: Step, k: AttemptKey)
    requires Enabled(w, step) && k in w.stream.agents && IsWaited(step, k)
    requires step.StreamStep? && step.step.ReceiveHello? && step.step.agent == k ==>
               step.step.resume >= w.stream.agents[k].buffer.lastAck
    ensures var w' := Apply(sha, w, step);
            && k in w'.stream.agents && w'.stream.agents[k].created == w.stream.agents[k].created
            && w'.stream.agents[k].buffer.lastAck >= w.stream.agents[k].buffer.lastAck
  {
    hide Lines, IsNext, Serve;
  }

  lemma {:induction false} WaitedRun(sha: seq<Byte> -> Digest, w: World, steps: seq<Step>, k: AttemptKey)
    requires Inv(sha, w) && k in w.stream.agents && forall i | 0 <= i < |steps| :: IsWaited(steps[i], k)
    ensures var w' := Run(sha, w, steps);
            && k in w'.stream.agents && w'.stream.agents[k].created == w.stream.agents[k].created
            && w'.stream.agents[k].buffer.lastAck >= w.stream.agents[k].buffer.lastAck
    decreases |steps|
  {
    hide Inv, Enabled, Apply, IsWaited;
    if steps != [] {
      if Enabled(w, steps[0]) {
        WaitedStep(sha, w, steps[0], k);
        StepKeepsInv(sha, w, steps[0]);
        WaitedRun(sha, Apply(sha, w, steps[0]), steps[1..], k);
      } else {
        WaitedRun(sha, w, steps[1..], k);
      }
    }
  }

  lemma SendCreates(sha: seq<Byte> -> Digest, w: World, send: Step, k: AttemptKey)
    requires IsSendOf(send, k) && Enabled(w, send) && k in w.stream.agents
    ensures Run(sha, w, [send]) == Apply(sha, w, send)
    ensures var w' := Apply(sha, w, send);
            && k in w'.stream.agents && |w'.stream.agents[k].created| == |w.stream.agents[k].created| + 1
            && w'.stream.agents[k].buffer.lastAck == w.stream.agents[k].buffer.lastAck
  {
    hide IsNext, Lines;
    assert [send][1..] == [];
  }

  /** The acknowledgement on which a send returns is above all that was acknowledged when it began. */
  lemma ReturnIsAbove(
    sha: seq<Byte> -> Digest, before: seq<Step>, send: Step, after: seq<Step>, k: AttemptKey, lastAck: nat, q: nat,
    n: nat, id: Option<Uuid>)
    requires MayReturnOn(sha, before, send, after, k, lastAck, q, n, id)
    ensures lastAck < n <= q && Inv(sha, Until(sha, before, send, after))
  {
    hide Inv, Run, IsAscending, IsWaited;
    StartInv(sha);
    RunKeepsInv(sha, START, before);
    var w := Run(sha, START, before);
    SendCreates(sha, w, send, k);
    StepKeepsInv(sha, w, send);
    WaitedRun(sha, Apply(sha, w, send), after, k);
    RunKeepsInv(sha, Apply(sha, w, send), after);
    var w' := Until(sha, before, send, after);
    AgentFacts(sha, w', k);
    FirstIsAbove(LineOf(w', k), w'.stream.agents[k].buffer.lastAck, |w'.stream.agents[k].created|);
  }

  lemma CoveredIsDurable(
    sha: seq<Byte> -> Digest, before: seq<Step>, send: Step, after: seq<Step>, k: AttemptKey, lastAck: nat, q: nat,
    n: nat, id: Option<Uuid>)
    requires MayReturnOn(sha, before, send, after, k, lastAck, q, n, id) && 1 <= q <= n
    ensures k in Until(sha, before, send, after).stream.agents
    ensures Stream.IsDurable(Until(sha, before, send, after).stream, k, q)
  {
    ReturnIsAbove(sha, before, send, after, k, lastAck, q, n, id);
    hide Stream.Inv, Until, LineOk, Stream.IsDurable;
    Stream.AcknowledgedAt(sha, Until(sha, before, send, after).stream, k, n, id, q);
  }

  // ---------------------------------------------------------------------------------------------
  // An agent that sends heartbeats

  const KEY := AttemptKey(1, 10, 1)
  const CAP := Capability(KEY, 7, 1, 3, {})
  const HELLO := Stream.HelloFrame(CAP, 0)

  function Key(n: nat): string {
    seq(n, _ => 'k')
  }

  function Beat(n: nat): Frame {
    Frame(KEY, n, Key(n), 0, Heartbeat)
  }

  /** Its frames above the first. */
  function Beats(first: nat, last: nat): seq<Frame>
    requires first <= last
  {
    seq(last - first, i requires 0 <= i => Beat(first + i + 1))
  }

  function SendBeat(n: nat): Step {
    StreamStep(Stream.Send(KEY, n, Key(n), 0, Heartbeat))
  }

  lemma {:induction false} Then(sha: seq<Byte> -> Digest, w: World, steps: seq<Step>, step: Step)
    ensures Run(sha, w, steps + [step]) == Run(sha, Run(sha, w, steps), [step])
    decreases |steps|
  {
    hide Enabled, Apply;
    if steps == [] {
      assert [] + [step] == [step];
    } else {
      assert (steps + [step])[1..] == steps[1..] + [step];
      Then(sha, if Enabled(w, steps[0]) then Apply(sha, w, steps[0]) else w, steps[1..], step);
    }
  }

  lemma One(sha: seq<Byte> -> Digest, w: World, step: Step)
    requires Enabled(w, step)
    ensures Run(sha, w, [step]) == Apply(sha, w, step)
  {
    hide Enabled, Apply;
    assert [step][1..] == [];
  }

  ghost predicate IsAgentAt(agent: Stream.Agent, c: nat, l: nat, q: nat) {
    && agent.cap == CAP && agent.call == Some(c) && !agent.awaitingHello && agent.created == Beats(0, q)
    && IsBufferAt(agent.buffer, l, q)
  }

  ghost predicate IsBufferAt(b: Buffer, l: nat, q: nat) {
    b.lastAck == l && (forall n :: n in b.pending <==> l < n <= q) && forall n | l < n <= q :: b.pending[n] == Beat(n)
  }

  /** It has created q frames, and has read the acknowledgements of the first l; on call c all others are written. */
  ghost predicate IsAt(w: World, c: nat, l: nat, q: nat) {
    && l <= q && KEY in w.stream.agents && IsAgentAt(w.stream.agents[KEY], c, l, q)
    && c in w.lines && w.lines[c] == Line(Beats(l, q), [])
    && c in w.stream.calls && w.stream.calls[c] == Stream.Call(KEY, Some(CAP), true)
    && (forall d | d in w.stream.calls :: d <= c)
    && (forall n | l < n <= q :: (c, Beat(n)) in w.stream.wire)
    && IsServedUpTo(w, l)
  }

  ghost predicate IsServedUpTo(w: World, l: nat) {
    var t := w.stream.tables;
    && 1 in t.attempts && t.attempts[1].leaseEpoch == 1 && t.attempts[1].attemptId == 10
    && t.attempts[1].lastSequence == l && t.outbox == []
    && forall r | r in t.accepted :: |r.idempotencyKey| <= l
  }

  lemma SendsNext(sha: seq<Byte> -> Digest, w: World, c: nat, l: nat, q: nat)
    requires IsAt(w, c, l, q)
    ensures Enabled(w, SendBeat(q + 1)) && IsAt(Apply(sha, w, SendBeat(q + 1)), c, l, q + 1)
  {
    assert IsNext(w.stream.agents[KEY].buffer, q + 1);
    assert Beats(0, q) + [Beat(q + 1)] == Beats(0, q + 1);
    assert Beats(l, q) + [Beat(q + 1)] == Beats(l, q + 1);
  }

  lemma BeatIsServed(sha: seq<Byte> -> Digest, w: World, l: nat)
    requires IsServedUpTo(w, l)
    ensures var served := Serve(sha, w.stream.tables, Some(CAP), Beat(l + 1), 0, Returned(true));
            && served.replies == [Acknowledgement(l + 1, None)] && served.capability == Some(CAP) && served.open
            && served.tables.outbox == [] && 1 in served.tables.attempts
            && served.tables.attempts[1] == w.stream.tables.attempts[1].(lastSequence := l + 1)
            && forall r | r in served.tables.accepted :: |r.idempotencyKey| <= l + 1
  {
    var frame := Beat(l + 1);
    assert |frame.idempotencyKey| == l + 1 && RowKey(KEY, frame.idempotencyKey) !in w.stream.tables.accepted;
  }

  function ServeBeat(c: nat, n: nat): Step {
    StreamStep(Stream.Deliver(c, Beat(n), 0, Returned(true)))
  }

  /** The first frame that is not served is, and its acknowledgement is there to be read. */
  lemma ServesNext(sha: seq<Byte> -> Digest, w: World, c: nat, l: nat, q: nat)
    requires IsAt(w, c, l, q) && l < q
    ensures Enabled(w, ServeBeat(c, l + 1)) && IsServed(w, Apply(sha, w, ServeBeat(c, l + 1)), c, l, q)
  {
    BeatIsServed(sha, w, l);
    hide Serve;
    var step := ServeBeat(c, l + 1);
    assert Beats(l, q)[0] == Beat(l + 1) && Beats(l, q)[1..] == Beats(l + 1, q);
    assert [] + [Acknowledgement(l + 1, None)] == [Acknowledgement(l + 1, None)];
    assert Acknowledgement(l + 1, None) in Stream.ServedBy(sha, w.stream, step.step).replies;
  }

  ghost predicate IsServed(w: World, w': World, c: nat, l: nat, q: nat)
    requires l < q
  {
    && IsServedUpTo(w', l + 1) && w'.stream.agents == w.stream.agents && w'.stream.wire == w.stream.wire
    && c in w'.stream.calls && w'.stream.calls[c] == Stream.Call(KEY, Some(CAP), true)
    && (forall d | d in w'.stream.calls :: d <= c)
    && c in w'.lines && w'.lines[c] == Line(Beats(l + 1, q), [Acknowledgement(l + 1, None)])
    && (c, Acknowledgement(l + 1, None)) in w'.stream.replies
  }

  lemma ReadsNext(sha: seq<Byte> -> Digest, w: World, w': World, c: nat, l: nat, q: nat)
    requires IsAt(w, c, l, q) && l < q && IsServed(w, w', c, l, q)
    ensures var step := StreamStep(Stream.ReceiveAck(KEY, l + 1, None));
            Enabled(w', step) && IsAt(Apply(sha, w', step), c, l + 1, q)
  {
    var step := StreamStep(Stream.ReceiveAck(KEY, l + 1, None));
    assert Beats(l + 1, q) + [] == Beats(l + 1, q);
    assert [Acknowledgement(l + 1, None)][1..] == [];
    assert Apply(sha, w', step).lines[c] == Line(Beats(l + 1, q), []);
  }

  /** The agent is about to dial call c, for the first time or because its last call was cut. */
  ghost predicate MayDial(w: World, c: nat, l: nat, q: nat) {
    && l <= q && KEY in w.stream.agents
    && IsAgentAt(w.stream.agents[KEY].(call := Some(c), awaitingHello := false), c, l, q)
    && (forall d | d in w.stream.calls :: d < c)
    && if w.stream.tables.attempts == map[] then l == 0 && w.stream.tables == Tables(map[], map[], [])
       else IsServedUpTo(w, l)
  }

  lemma LaunchMayDial(sha: seq<Byte> -> Digest)
    ensures var step := StreamStep(Stream.Launch(CAP));
            Enabled(START, step) && MayDial(Apply(sha, START, step), 0, 0, 0)
  {
    assert Beats(0, 0) == [];
  }

  lemma CutMayDial(sha: seq<Byte> -> Digest, w: World, c: nat, l: nat, q: nat)
    requires IsAt(w, c, l, q)
    ensures var step := StreamStep(Stream.Drop(KEY)); Enabled(w, step) && MayDial(Apply(sha, w, step), c + 1, l, q)
  {
  }

  ghost predicate IsDialled(w: World, w': World, c: nat) {
    && w'.stream.tables == w.stream.tables && KEY in w.stream.agents
    && w'.stream.agents == w.stream.agents[KEY := w.stream.agents[KEY].(call := Some(c), awaitingHello := true)]
    && w'.stream.calls == w.stream.calls[c := Stream.Call(KEY, None, true)]
    && c in w'.lines && w'.lines[c] == Line([HELLO], []) && (c, HELLO) in w'.stream.wire
  }

  lemma Dials(sha: seq<Byte> -> Digest, w: World, c: nat, l: nat, q: nat)
    requires MayDial(w, c, l, q)
    ensures var step := StreamStep(Stream.Dial(KEY, c, 0)); Enabled(w, step) && IsDialled(w, Apply(sha, w, step), c)
  {
  }

  lemma HelloIsServed(sha: seq<Byte> -> Digest, w: World, w': World, c: nat, l: nat, q: nat)
    requires MayDial(w, c, l, q) && IsDialled(w, w', c)
    ensures var served := Serve(sha, w'.stream.tables, None, HELLO, 0, Returned(true));
            && served.replies == [HelloAccepted(l)] && served.capability == Some(CAP) && served.open
            && served.tables.outbox == [] && 1 in served.tables.attempts && served.tables.attempts[1].leaseEpoch == 1
            && served.tables.attempts[1].attemptId == 10 && served.tables.attempts[1].lastSequence == l
            && served.tables.accepted == w.stream.tables.accepted
  {
  }

  ghost predicate IsGreeted(w: World, w': World, c: nat, l: nat) {
    && IsServedUpTo(w', l) && w'.stream.agents == w.stream.agents
    && c in w'.stream.calls && w'.stream.calls[c] == Stream.Call(KEY, Some(CAP), true)
    && (forall d | d in w'.stream.calls :: d <= c)
    && c in w'.lines && w'.lines[c] == Line([], [HelloAccepted(l)]) && (c, HelloAccepted(l)) in w'.stream.replies
  }

  lemma Greets(sha: seq<Byte> -> Digest, w: World, w': World, c: nat, l: nat, q: nat)
    requires MayDial(w, c, l, q) && IsDialled(w, w', c)
    ensures var step := StreamStep(Stream.Deliver(c, HELLO, 0, Returned(true)));
            Enabled(w', step) && IsGreeted(w', Apply(sha, w', step), c, l)
  {
    HelloIsServed(sha, w, w', c, l, q);
    hide Serve;
    var step := StreamStep(Stream.Deliver(c, HELLO, 0, Returned(true)));
    assert [HELLO][1..] == [] && [] + [HelloAccepted(l)] == [HelloAccepted(l)];
    assert HelloAccepted(l) in Stream.ServedBy(sha, w'.stream, step.step).replies;
  }

  /** Every frame above the server's number is written again. */
  lemma Rewrites(sha: seq<Byte> -> Digest, w: World, w1: World, w2: World, c: nat, l: nat, q: nat)
    requires MayDial(w, c, l, q) && IsDialled(w, w1, c) && IsGreeted(w1, w2, c, l)
    ensures var step := StreamStep(Stream.ReceiveHello(KEY, l));
            Enabled(w2, step) && IsAt(Apply(sha, w2, step), c, l, q)
  {
    var step := StreamStep(Stream.ReceiveHello(KEY, l));
    var created := w2.stream.agents[KEY].created;
    assert created == Beats(0, q) && created[l..] == Beats(l, q) && [] + created[l..] == Beats(l, q);
    assert [HelloAccepted(l)][1..] == [];
    var w3 := Apply(sha, w2, step);
    assert w3.lines[c] == Line(Beats(l, q), []);
    var b := Resumed(w2.stream.agents[KEY].buffer, l);
    forall n | l < n <= q ensures (c, Beat(n)) in w3.stream.wire {
      assert n in b.pending && n > b.lastAck && b.pending[n] == Beat(n);
    }
  }

  /** From a fresh dial to an agent that may send. */
  lemma Connects(sha: seq<Byte> -> Digest, before: seq<Step>, w: World, c: nat, l: nat, q: nat)
    returns (steps: seq<Step>, w': World)
    requires Run(sha, START, before) == w && MayDial(w, c, l, q)
    ensures Run(sha, START, steps) == w' && IsAt(w', c, l, q)
  {
    hide Enabled, Apply, IsAt, IsDialled, IsGreeted, MayDial, Run;
    var s1, s2 := StreamStep(Stream.Dial(KEY, c, 0)), StreamStep(Stream.Deliver(c, HELLO, 0, Returned(true)));
    var s3 := StreamStep(Stream.ReceiveHello(KEY, l));
    Dials(sha, w, c, l, q);
    One(sha, w, s1);
    var w1 := Apply(sha, w, s1);
    Greets(sha, w, w1, c, l, q);
    One(sha, w1, s2);
    var w2 := Apply(sha, w1, s2);
    Rewrites(sha, w, w1, w2, c, l, q);
    One(sha, w2, s3);
    Then(sha, START, before, s1);
    Then(sha, START, before + [s1], s2);
    Then(sha, START, before + [s1] + [s2], s3);
    steps, w' := before + [s1] + [s2] + [s3], Apply(sha, w2, s3);
  }

  /**
   q frames created: the first l acknowledged one after the other, and each later one written to a call
   that was cut before anything was read from it.
   */
  lemma {:induction false} Reaches(sha: seq<Byte> -> Digest, l: nat, q: nat)
    returns (steps: seq<Step>, w: World, c: nat)
    requires l <= q
    ensures Run(sha, START, steps) == w && IsAt(w, c, l, q)
    decreases q + l
  {
    hide Enabled, Apply, IsAt, IsServed, MayDial, Run;
    if q == 0 {
      var launch := StreamStep(Stream.Launch(CAP));
      LaunchMayDial(sha);
      One(sha, START, launch);
      c := 0;
      steps, w := Connects(sha, [launch], Apply(sha, START, launch), c, 0, 0);
    } else if l < q {
      var before, w1, c1 := Reaches(sha, l, q - 1);
      var send, cut := SendBeat(q), StreamStep(Stream.Drop(KEY));
      SendsNext(sha, w1, c1, l, q - 1);
      One(sha, w1, send);
      var w2 := Apply(sha, w1, send);
      CutMayDial(sha, w2, c1, l, q);
      One(sha, w2, cut);
      Then(sha, START, before, send);
      Then(sha, START, before + [send], cut);
      c := c1 + 1;
      steps, w := Connects(sha, before + [send] + [cut], Apply(sha, w2, cut), c, l, q);
    } else {
      steps, w, c := Acknowledges(sha, l);
    }
  }

  lemma {:induction false} Acknowledges(sha: seq<Byte> -> Digest, q: nat)
    returns (steps: seq<Step>, w: World, c: nat)
    requires q >= 1
    ensures Run(sha, START, steps) == w && IsAt(w, c, q, q)
    decreases q + q, 0
  {
    hide Enabled, Apply, IsAt, IsServed, MayDial, Run;
    var before, w1;
    before, w1, c := Reaches(sha, q - 1, q - 1);
    var send, serve, read := SendBeat(q), ServeBeat(c, q), StreamStep(Stream.ReceiveAck(KEY, q, None));
    SendsNext(sha, w1, c, q - 1, q - 1);
    One(sha, w1, send);
    var w2 := Apply(sha, w1, send);
    ServesNext(sha, w2, c, q - 1, q);
    One(sha, w2, serve);
    var w3 := Apply(sha, w2, serve);
    ReadsNext(sha, w2, w3, c, q - 1, q);
    One(sha, w3, read);
    Then(sha, START, before, send);
    Then(sha, START, before + [send], serve);
    Then(sha, START, before + [send] + [serve], read);
    steps, w := before + [send] + [serve] + [read], Apply(sha, w3, read);
  }

  /**
   An agent whose sends of the frames above lastAck have failed, and which has connected again: the next
   send, of frame q, can return on the first of their acknowledgements, with its own frame not durable.
   */
  lemma SendReturnsTooEarly(sha: seq<Byte> -> Digest, lastAck: nat, q: nat)
    returns (before: seq<Step>, send: Step, after: seq<Step>)
    requires lastAck + 1 < q
    ensures MayReturnOn(sha, before, send, after, KEY, lastAck, q, lastAck + 1, None)
    ensures KEY in Until(sha, before, send, after).stream.agents
    ensures !Stream.IsDurable(Until(sha, before, send, after).stream, KEY, q)
  {
    hide Run, Enabled, Apply, IsServed, IsAt, Stream.IsDurable;
    var w, c;
    before, w, c := Reaches(sha, lastAck, q - 1);
    send := SendBeat(q);
    SendsNext(sha, w, c, lastAck, q - 1);
    One(sha, w, send);
    var w1 := Apply(sha, w, send);
    var serve := ServeBeat(c, lastAck + 1);
    after := [serve];
    ServesNext(sha, w1, c, lastAck, q);
    One(sha, w1, serve);
    ReadsNext(sha, w1, Apply(sha, w1, serve), c, lastAck, q);
    AtIs(w, c, lastAck, q - 1);
    BehindIs(w1, Apply(sha, w1, serve), c, lastAck, q);
  }

  lemma AtIs(w: World, c: nat, l: nat, q: nat)
    requires IsAt(w, c, l, q)
    ensures KEY in w.stream.agents && w.stream.agents[KEY].buffer.lastAck == l && |w.stream.agents[KEY].created| == q
  {
  }

  lemma BehindIs(w: World, w': World, c: nat, l: nat, q: nat)
    requires IsAt(w, c, l, q) && l + 1 < q && IsServed(w, w', c, l, q)
    ensures KEY in w'.stream.agents && !Stream.IsDurable(w'.stream, KEY, q)
  {
    assert w'.stream.agents[KEY].created[q - 1] == Beat(q);
    assert |Beat(q).idempotencyKey| == q;
  }

  // ---------------------------------------------------------------------------------------------
  // The theorems

  /**
   A send that begins with frame q, when its agent has read acknowledgements up to lastAck on its open
   call, has made its frame durable whenever it returns, in every run, if and only if q is lastAck + 1:
   that is, if no older frame was still waiting for its acknowledgement.
   */
  lemma DurableIffNothingPending(sha: seq<Byte> -> Digest, lastAck: nat, q: nat)
    requires lastAck < q
    ensures (forall before, send, after, k, n, id | MayReturnOn(sha, before, send, after, k, lastAck, q, n, id) ::
               k in Until(sha, before, send, after).stream.agents
               && Stream.IsDurable(Until(sha, before, send, after).stream, k, q))
            <==> q == lastAck + 1
  {
    hide MayReturnOn, Stream.IsDurable, Until, Inv;
    if q == lastAck + 1 {
      forall before, send, after, k, n, id | MayReturnOn(sha, before, send, after, k, lastAck, q, n, id)
        ensures k in Until(sha, before, send, after).stream.agents
        ensures Stream.IsDurable(Until(sha, before, send, after).stream, k, q)
      {
        ReturnIsAbove(sha, before, send, after, k, lastAck, q, n, id);
        CoveredIsDurable(sha, before, send, after, k, lastAck, q, n, id);
      }
    } else {
      var before, send, after := SendReturnsTooEarly(sha, lastAck, q);
    }
  }

  /** A send that returns on acknowledgement n has made its frame durable, in every run, if and only if n covers it. */
  lemma DurableIffCovered(sha: seq<Byte> -> Digest, n: nat, q: nat)
    requires n >= 1 && q >= 1
    ensures (forall before, send, after, k, lastAck, id | MayReturnOn(sha, before, send, after, k, lastAck, q, n, id) ::
               k in Until(sha, before, send, after).stream.agents
               && Stream.IsDurable(Until(sha, before, send, after).stream, k, q))
            <==> q <= n
  {
    hide MayReturnOn, Stream.IsDurable, Until;
    if q <= n {
      forall before, send, after, k, lastAck, id | MayReturnOn(sha, before, send, after, k, lastAck, q, n, id)
        ensures k in Until(sha, before, send, after).stream.agents
        ensures Stream.IsDurable(Until(sha, before, send, after).stream, k, q)
      {
        CoveredIsDurable(sha, before, send, after, k, lastAck, q, n, id);
      }
    } else {
      var before, send, after := SendReturnsTooEarly(sha, n - 1, q);
    }
  }
}
