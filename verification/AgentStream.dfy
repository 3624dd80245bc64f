/**
 Agents and the Runtime API over a transport that may lose, delay, repeat and reorder whatever
 was ever written to a call, with calls cut and the server restarted at any point. The log is a
 history of what has been accepted for each attempt; no step reads it.
 */
module AgentStream {
  import opened Wrappers
  import opened Utf8
  import opened Protocol
  import opened RuntimeApi
  import opened AgentSdk

  datatype Call = Call(owner: AttemptKey, capability: Option<Capability>, open: bool)

  /** One RuntimeClient: its buffer, its current call, and (history) every frame it created. */
  datatype Agent = Agent(cap: Capability, buffer: Buffer, created: seq<Frame>, call: Option<nat>, awaitingHello: bool)

  datatype System = System(
    tables: Tables, calls: map<nat, Call>, agents: map<AttemptKey, Agent>,
    wire: set<(nat, Frame)>, replies: set<(nat, Reply)>, log: map<AttemptKey, seq<Frame>>)

  datatype Step =
    | Launch(cap: Capability)
    | Dial(agent: AttemptKey, call: nat, otherBytes: nat)
    | Deliver(call: nat, frame: Frame, eventId: Uuid, gateway: Gateway)
    | ReceiveHello(agent: AttemptKey, resume: nat)
    | ReceiveAck(agent: AttemptKey, accepted: nat, durableEventId: Option<Uuid>)
    | Send(agent: AttemptKey, sequence: nat, idempotencyKey: string, otherBytes: nat, payload: Payload)
    | Drop(agent: AttemptKey)
    | Restart

  const INITIAL := System(Tables(map[], map[], []), map[], map[], {}, {}, map[])

  function Log(s: System, k: AttemptKey): seq<Frame> {
    if k in s.log then s.log[k] else []
  }

  function HelloFrame(cap: Capability, otherBytes: nat): Frame {
    Frame(cap.key, 0, "hello", otherBytes, Hello(Some(cap)))
  }

  ghost predicate Enabled(s: System, step: Step) {
    match step
    case Launch(cap) => cap.key !in s.agents
    case Dial(k, call, _) => k in s.agents && call !in s.calls
    case Deliver(call, frame, eventId, _) =>
      && call in s.calls && s.calls[call].open && (call, frame) in s.wire
      && forall i | 0 <= i < |s.tables.outbox| :: s.tables.outbox[i].id != eventId
    case ReceiveHello(k, resume) =>
      k in s.agents && s.agents[k].call.Some? && s.agents[k].awaitingHello
      && (s.agents[k].call.value, HelloAccepted(resume)) in s.replies
    case ReceiveAck(k, n, id) =>
      k in s.agents && s.agents[k].call.Some? && (s.agents[k].call.value, Acknowledgement(n, id)) in s.replies
    case Send(k, sequence, _, _, payload) =>
      k in s.agents && s.agents[k].call.Some? && !payload.Hello? && IsNext(s.agents[k].buffer, sequence)
    case Drop(k) => k in s.agents
    case Restart => true
  }

  function Delivered(sha: seq<Byte> -> Digest, s: System, step: Step): System
    requires step.Deliver? && step.call in s.calls
  {
    var call := s.calls[step.call];
    var served := Serve(sha, s.tables, call.capability, step.frame, step.eventId, step.gateway);
    var row := RowKey(step.frame.key, step.frame.idempotencyKey);
    s.(tables := served.tables,
       calls := s.calls[step.call := Call(call.owner, served.capability, served.open)],
       replies := s.replies + set reply | reply in served.replies :: (step.call, reply),
       log := if row !in s.tables.accepted && row in served.tables.accepted
              then s.log[step.frame.key := Log(s, step.frame.key) + [step.frame]] else s.log)
  }

  ghost function Apply(sha: seq<Byte> -> Digest, s: System, step: Step): System
    requires Enabled(s, step)
  {
    match step
    case Launch(cap) => s.(agents := s.agents[cap.key := Agent(cap, Buffer(0, map[]), [], None, false)])
    case Dial(k, call, otherBytes) =>
      var agent := s.agents[k];
      s.(calls := s.calls[call := Call(k, None, true)],
         agents := s.agents[k := agent.(call := Some(call), awaitingHello := true)],
         wire := s.wire + {(call, HelloFrame(agent.cap, otherBytes))})
    case Deliver(_, _, _, _) => Delivered(sha, s, step)
    case ReceiveHello(k, resume) =>
      var agent := s.agents[k];
      var buffer := Resumed(agent.buffer, resume);
      s.(agents := s.agents[k := agent.(buffer := buffer, awaitingHello := false)],
         wire := s.wire + set n | n in buffer.pending && n > buffer.lastAck :: (agent.call.value, buffer.pending[n]))
    case ReceiveAck(k, n, _) =>
      var agent := s.agents[k];
      s.(agents := s.agents[k := agent.(buffer := Acknowledged(agent.buffer, n), awaitingHello := false)])
    case Send(k, sequence, idempotencyKey, otherBytes, payload) =>
      var agent := s.agents[k];
      var frame := Frame(k, sequence, idempotencyKey, otherBytes, payload);
      s.(agents := s.agents[k := agent.(buffer := Enqueued(agent.buffer, frame), created := agent.created + [frame])],
         wire := s.wire + {(agent.call.value, frame)})
    case Drop(k) => s.(agents := s.agents[k := s.agents[k].(call := None, awaitingHello := false)])
    case Restart => s.(calls := map c | c in s.calls :: s.calls[c].(open := false))
  }

  /** The states reached from s by taking the steps that are enabled when their turn comes. */
  ghost function Run(sha: seq<Byte> -> Digest, s: System, steps: seq<Step>): System
    decreases |steps|
  {
    if steps == [] then s
    else Run(sha, if Enabled(s, steps[0]) then Apply(sha, s, steps[0]) else s, steps[1..])
  }

  // ---------------------------------------------------------------------------------------------
  // The invariant

  /** Frames are numbered as created; the buffer holds every one that is not acknowledged. */
  ghost predicate BufferOk(k: AttemptKey, created: seq<Frame>, b: Buffer) {
    && (forall i | 0 <= i < |created| ::
          created[i].key == k && created[i].sequence == i + 1 && !created[i].payload.Hello?)
    && (forall n | n in b.pending :: 1 <= n <= |created| && b.pending[n] == created[n - 1])
    && b.lastAck <= |created|
    && (forall n | b.lastAck < n <= |created| :: n in b.pending)
  }

  ghost predicate AgentAt(s: System, k: AttemptKey)
    requires k in s.agents
  {
    var a := s.agents[k];
    && a.cap.key == k && BufferOk(k, a.created, a.buffer)
    && Log(s, k) <= a.created && a.buffer.lastAck <= |Log(s, k)|
    && (a.call.Some? ==> a.call.value in s.calls && s.calls[a.call.value].owner == k)
  }

  ghost predicate AgentsOk(s: System) {
    && (forall k | k in s.agents :: AgentAt(s, k))
    && (forall k | k in s.log :: k in s.agents)
  }

  /** The rows of accepted_frames are exactly the logs. */
  ghost predicate RowsOk(sha: seq<Byte> -> Digest, s: System) {
    && (forall r | r in s.tables.accepted :: RowOk(sha, s, r))
    && (forall k, i | k in s.log && 0 <= i < |s.log[k]| ::
          var r := RowKey(k, s.log[k][i].idempotencyKey);
          r in s.tables.accepted && s.tables.accepted[r].frame == s.log[k][i])
  }

  ghost predicate RowOk(sha: seq<Byte> -> Digest, s: System, r: RowKey)
    requires r in s.tables.accepted
  {
    var row := s.tables.accepted[r];
    && r.attempt in s.agents && row.frame.idempotencyKey == r.idempotencyKey
    && 1 <= row.frame.sequence <= |Log(s, r.attempt)| && row.frame == Log(s, r.attempt)[row.frame.sequence - 1]
    && Fits(row.frame) && Refusal(sha, row.frame.payload).None? && !row.frame.payload.Unset?
    && !row.frame.payload.Hello?
    && (row.durableEventId.Some? <==> IsEvent(row.frame.payload))
    && (row.durableEventId.Some? ==>
          EventOf(sha, s.agents[r.attempt].cap, row.frame, row.durableEventId.value) in s.tables.outbox)
  }

  /** Whether the run's current row is at least as new as the attempt, and is its own if as new. */
  ghost predicate Reached(t: Tables, k: AttemptKey) {
    && k.runId in t.attempts && t.attempts[k.runId].leaseEpoch >= k.leaseEpoch
    && (t.attempts[k.runId].leaseEpoch == k.leaseEpoch ==> t.attempts[k.runId].attemptId == k.attemptId)
  }

  ghost predicate IsCurrent(t: Tables, k: AttemptKey) {
    && k.runId in t.attempts && t.attempts[k.runId].leaseEpoch == k.leaseEpoch
    && t.attempts[k.runId].attemptId == k.attemptId
  }

  ghost predicate EpochsOk(s: System) {
    && (forall k | k in s.log && s.log[k] != [] :: Reached(s.tables, k))
    && (forall k :: IsCurrent(s.tables, k) ==> s.tables.attempts[k.runId].lastSequence == |Log(s, k)|)
    && (forall c | c in s.calls ::
          && s.calls[c].owner in s.agents
          && (s.calls[c].capability.Some? ==>
                s.calls[c].capability.value == s.agents[s.calls[c].owner].cap && Reached(s.tables, s.calls[c].owner)))
  }

  ghost predicate WireAt(s: System, c: nat, f: Frame) {
    && c in s.calls && f.key == s.calls[c].owner && f.key in s.agents
    && var agent := s.agents[f.key];
       if f.payload.Hello? then f == HelloFrame(agent.cap, f.otherBytes)
       else 1 <= f.sequence <= |agent.created| && f == agent.created[f.sequence - 1]
  }

  ghost predicate WireOk(s: System) {
    forall c, f | (c, f) in s.wire :: WireAt(s, c, f)
  }

  ghost predicate ReplyAt(s: System, c: nat, r: Reply) {
    && c in s.calls && s.calls[c].owner in s.agents
    && var k := s.calls[c].owner;
       match r
       case Acknowledgement(n, _) => n <= |Log(s, k)|
       case HelloAccepted(n) =>
         && n <= |Log(s, k)|
         && (s.agents[k].call == Some(c) && s.agents[k].awaitingHello ==> n >= s.agents[k].buffer.lastAck)
       case _ => true
  }

  ghost predicate RepliesOk(s: System) {
    forall c, r | (c, r) in s.replies :: ReplyAt(s, c, r)
  }

  /** The events of a sequence of frames, each with its aggregate sequence. */
  function Events(sha: seq<Byte> -> Digest, frames: seq<Frame>): seq<(nat, EventData)> {
    if frames == [] then []
    else
      var last := frames[|frames| - 1];
      var before := Events(sha, frames[..|frames| - 1]);
      if IsEvent(last.payload) && Refusal(sha, last.payload).None?
      then before + [(last.sequence, DataOf(sha, last.payload))] else before
  }

  /** What the outbox holds for an attempt, in order. */
  function Published(outbox: seq<Envelope>, k: AttemptKey): seq<(nat, EventData)> {
    if outbox == [] then []
    else
      var last := outbox[|outbox| - 1];
      var before := Published(outbox[..|outbox| - 1], k);
      if last.key == k then before + [(last.aggregateSequence, last.data)] else before
  }

  ghost predicate OutboxOk(sha: seq<Byte> -> Digest, s: System) {
    && (forall i, j | 0 <= i < j < |s.tables.outbox| :: s.tables.outbox[i].id != s.tables.outbox[j].id)
    && (forall k :: Published(s.tables.outbox, k) == Events(sha, Log(s, k)))
  }

  ghost predicate Inv(sha: seq<Byte> -> Digest, s: System) {
    AgentsOk(s) && RowsOk(sha, s) && EpochsOk(s) && WireOk(s) && RepliesOk(s) && OutboxOk(sha, s)
  }

  // ---------------------------------------------------------------------------------------------
  // Every step keeps it

  /** Steps of the agents and of the transport leave the tables and every capability alone. */
  ghost predicate SameServer(s: System, s': System) {
    && s'.tables == s.tables && s'.log == s.log
    && forall k | k in s.agents :: k in s'.agents && s'.agents[k].cap == s.agents[k].cap
  }

  lemma SameServerKeeps(sha: seq<Byte> -> Digest, s: System, s': System)
    requires SameServer(s, s') && RowsOk(sha, s) && EpochsOk(s) && OutboxOk(sha, s)
    requires forall c | c in s'.calls ::
               if c in s.calls
               then s'.calls[c].owner == s.calls[c].owner && s'.calls[c].capability == s.calls[c].capability
               else s'.calls[c].owner in s.agents && s'.calls[c].capability.None?
    ensures RowsOk(sha, s') && EpochsOk(s') && OutboxOk(sha, s')
  {
    hide Refusal, EventOf, Reached, Published, Events;
    assert forall k :: Log(s', k) == Log(s, k);
    forall r | r in s'.tables.accepted ensures RowOk(sha, s', r) {
      assert RowOk(sha, s, r);
    }
  }

  lemma NextIsNew(k: AttemptKey, created: seq<Frame>, b: Buffer, sequence: nat)
    requires BufferOk(k, created, b) && IsNext(b, sequence)
    ensures sequence == |created| + 1
  {
    if b.lastAck < |created| {
      assert |created| in b.pending;
    }
  }

  lemma EmptyBuffer(k: AttemptKey)
    ensures BufferOk(k, [], Buffer(0, map[]))
  {
  }

  lemma EnqueueKeepsBuffer(k: AttemptKey, created: seq<Frame>, b: Buffer, frame: Frame)
    requires BufferOk(k, created, b) && IsNext(b, frame.sequence) && frame.key == k && !frame.payload.Hello?
    ensures BufferOk(k, created + [frame], Enqueued(b, frame))
  {
    NextIsNew(k, created, b, frame.sequence);
  }

  lemma ReceiptKeepsBuffer(k: AttemptKey, created: seq<Frame>, b: Buffer, n: nat)
    requires BufferOk(k, created, b) && n <= |created|
    ensures BufferOk(k, created, Acknowledged(b, n))
    ensures n >= b.lastAck ==> BufferOk(k, created, Resumed(b, n))
  {
  }

  lemma SendKeepsAgent(sha: seq<Byte> -> Digest, s: System, step: Step)
    requires AgentsOk(s) && Enabled(s, step) && step.Send?
    ensures var s' := Apply(sha, s, step); step.agent in s'.agents && AgentAt(s', step.agent)
  {
    hide IsNext, BufferOk;
    var k, agent := step.agent, s.agents[step.agent];
    assert AgentAt(s, k);
    var frame := Frame(k, step.sequence, step.idempotencyKey, step.otherBytes, step.payload);
    EnqueueKeepsBuffer(k, agent.created, agent.buffer, frame);
  }

  lemma ReceiptKeepsAgent(sha: seq<Byte> -> Digest, s: System, step: Step)
    requires AgentsOk(s) && RepliesOk(s) && Enabled(s, step) && (step.ReceiveHello? || step.ReceiveAck?)
    ensures var s' := Apply(sha, s, step); step.agent in s'.agents && AgentAt(s', step.agent)
  {
    hide IsNext, BufferOk;
    var k, agent := step.agent, s.agents[step.agent];
    assert AgentAt(s, k);
    var n := if step.ReceiveHello? then step.resume else step.accepted;
    assert ReplyAt(s, agent.call.value,
        if step.ReceiveHello? then HelloAccepted(n) else Acknowledgement(n, step.durableEventId));
    ReceiptKeepsBuffer(k, agent.created, agent.buffer, n);
  }

  lemma ClientStepKeepsAgent(sha: seq<Byte> -> Digest, s: System, step: Step, k: AttemptKey)
    requires AgentsOk(s) && RepliesOk(s) && Enabled(s, step) && !step.Deliver? && k in s.agents
    ensures var s' := Apply(sha, s, step); k in s'.agents && AgentAt(s', k)
  {
    hide IsNext, BufferOk, WireOk, HelloFrame, RepliesOk, ReplyAt;
    assert AgentAt(s, k);
    if step.Send? && k == step.agent {
      SendKeepsAgent(sha, s, step);
    } else if (step.ReceiveHello? || step.ReceiveAck?) && k == step.agent {
      ReceiptKeepsAgent(sha, s, step);
    } else {
      hide Resumed, Acknowledged, Enqueued;
    }
  }

  lemma ClientStepKeepsAgents(sha: seq<Byte> -> Digest, s: System, step: Step)
    requires AgentsOk(s) && RepliesOk(s) && Enabled(s, step) && !step.Deliver?
    ensures AgentsOk(Apply(sha, s, step))
  {
    hide IsNext, BufferOk, RepliesOk, AgentAt;
    var s' := Apply(sha, s, step);
    forall k | k in s'.agents ensures AgentAt(s', k) {
      if k in s.agents {
        ClientStepKeepsAgent(sha, s, step, k);
      } else {
        LaunchedAgent(sha, s, step, k);
      }
    }
  }

  lemma LaunchedAgent(sha: seq<Byte> -> Digest, s: System, step: Step, k: AttemptKey)
    requires AgentsOk(s) && Enabled(s, step) && !step.Deliver? && k !in s.agents && k in Apply(sha, s, step).agents
    ensures AgentAt(Apply(sha, s, step), k)
  {
    EmptyBuffer(k);
    hide IsNext, BufferOk;
  }

  lemma ClientStepKeepsWire(sha: seq<Byte> -> Digest, s: System, step: Step)
    requires AgentsOk(s) && WireOk(s) && Enabled(s, step) && !step.Deliver?
    ensures WireOk(Apply(sha, s, step))
  {
    if step.ReceiveHello? {
      hide Apply, Enabled, AgentsOk, WireOk;
      HelloKeepsWire(sha, s, step);
    } else {
      hide Apply, Enabled, AgentsOk, WireOk;
      OtherStepKeepsWire(sha, s, step);
    }
  }

  lemma HelloKeepsWire(sha: seq<Byte> -> Digest, s: System, step: Step)
    requires AgentsOk(s) && WireOk(s) && Enabled(s, step) && step.ReceiveHello?
    ensures WireOk(Apply(sha, s, step))
  {
    var s' := Apply(sha, s, step);
    assert AgentAt(s, step.agent);
    forall c, f | (c, f) in s'.wire ensures WireAt(s', c, f) {
      if (c, f) in s.wire {
        assert WireAt(s, c, f);
      }
    }
  }

  lemma OtherStepKeepsWire(sha: seq<Byte> -> Digest, s: System, step: Step)
    requires AgentsOk(s) && WireOk(s) && Enabled(s, step) && !step.Deliver? && !step.ReceiveHello?
    ensures WireOk(Apply(sha, s, step))
  {
    var s' := Apply(sha, s, step);
    if step.Send? || step.Dial? {
      assert AgentAt(s, step.agent);
      if step.Send? {
        var agent := s.agents[step.agent];
        NextIsNew(step.agent, agent.created, agent.buffer, step.sequence);
      }
    }
    forall c, f | (c, f) in s'.wire ensures WireAt(s', c, f) {
      if (c, f) in s.wire {
        assert WireAt(s, c, f);
      }
    }
  }

  lemma ClientStepKeepsReplies(sha: seq<Byte> -> Digest, s: System, step: Step)
    requires AgentsOk(s) && RepliesOk(s) && Enabled(s, step) && !step.Deliver?
    ensures RepliesOk(Apply(sha, s, step))
  {
    var s' := Apply(sha, s, step);
    forall c, r | (c, r) in s'.replies ensures ReplyAt(s', c, r) {
      assert ReplyAt(s, c, r);
    }
  }

  lemma ClientStepKeepsInv(sha: seq<Byte> -> Digest, s: System, step: Step)
    requires Inv(sha, s) && Enabled(s, step) && !step.Deliver?
    ensures Inv(sha, Apply(sha, s, step))
  {
    hide BufferOk, RowOk, AgentsOk, WireOk, RepliesOk, RowsOk, EpochsOk, OutboxOk;
    ClientStepKeepsAgents(sha, s, step);
    ClientStepKeepsWire(sha, s, step);
    ClientStepKeepsReplies(sha, s, step);
    SameServerKeeps(sha, s, Apply(sha, s, step));
  }

  // ---------------------------------------------------------------------------------------------
  // Deliveries

  function ServedBy(sha: seq<Byte> -> Digest, s: System, step: Step): Served
    requires step.Deliver? && step.call in s.calls
  {
    Serve(sha, s.tables, s.calls[step.call].capability, step.frame, step.eventId, step.gateway)
  }

  predicate IsAcceptance(sha: seq<Byte> -> Digest, s: System, step: Step)
    requires step.Deliver? && step.call in s.calls
  {
    var row := RowKey(step.frame.key, step.frame.idempotencyKey);
    row !in s.tables.accepted && row in ServedBy(sha, s, step).tables.accepted
  }

  predicate AcknowledgesOnly(served: Served, n: nat) {
    forall reply | reply in served.replies ::
      !reply.HelloAccepted? && (reply.Acknowledgement? ==> reply.acceptedSequence == n)
  }

  /** A frame is accepted only from the current attempt, and only as the next one it created. */
  lemma AcceptanceIsNextFrame(sha: seq<Byte> -> Digest, s: System, step: Step)
    requires Inv(sha, s) && step.Deliver? && Enabled(s, step) && IsAcceptance(sha, s, step)
    ensures var k := step.frame.key; var frame := step.frame; var served := ServedBy(sha, s, step);
            && s.calls[step.call].owner == k && k in s.agents && IsCurrent(s.tables, k)
            && |Log(s, k)| < |s.agents[k].created| && frame == s.agents[k].created[|Log(s, k)|]
            && frame.sequence == |Log(s, k)| + 1 && !frame.payload.Hello? && !frame.payload.Unset?
            && Refusal(sha, frame.payload).None? && Fits(frame)
            && s.calls[step.call].capability == Some(s.agents[k].cap)
            && served.tables == Record(sha, s.tables, s.agents[k].cap, frame, step.eventId)
            && AcknowledgesOnly(served, frame.sequence)
            && served.capability == Some(s.agents[k].cap)
  {
    hide BufferOk, RowsOk, RepliesOk, OutboxOk, Refusal, Record;
    assert WireAt(s, step.call, step.frame);
    var k := step.frame.key;
    assert AgentAt(s, k);
    assert s.calls[step.call].capability.Some?;
    assert Reached(s.tables, k);
    assert IsCurrent(s.tables, k);
  }

  ghost predicate RepliesAt(s: System, c: nat, replies: seq<Reply>) {
    forall reply | reply in replies :: ReplyAt(s, c, reply)
  }

  ghost predicate IsOtherDelivery(s: System, k: AttemptKey, call: nat, served: Served)
    requires k in s.agents
  {
    && served.tables.accepted == s.tables.accepted && served.tables.outbox == s.tables.outbox
    && (served.tables != s.tables ==>
          && served.tables == Activate(s.tables, s.agents[k].cap).0
          && (k.runId in s.tables.attempts ==> s.tables.attempts[k.runId].leaseEpoch < k.leaseEpoch))
    && (served.capability.Some? ==> served.capability == Some(s.agents[k].cap) && Reached(served.tables, k))
    && RepliesAt(s, call, served.replies)
  }

  lemma HelloDelivery(sha: seq<Byte> -> Digest, s: System, step: Step)
    requires Inv(sha, s) && step.Deliver? && Enabled(s, step) && s.calls[step.call].capability.None?
    requires WireAt(s, step.call, step.frame)
    ensures IsOtherDelivery(s, step.frame.key, step.call, ServedBy(sha, s, step))
  {
    hide BufferOk, RowsOk, OutboxOk, WireOk, RepliesOk;
    var k := step.frame.key;
    assert AgentAt(s, k);
    if k.runId !in s.tables.attempts || s.tables.attempts[k.runId].leaseEpoch < k.leaseEpoch {
      assert !Reached(s.tables, k);
      assert Log(s, k) == [];
    }
  }

  lemma RowIsLogged(sha: seq<Byte> -> Digest, s: System, r: RowKey)
    requires RowsOk(sha, s) && r in s.tables.accepted
    ensures s.tables.accepted[r].frame.sequence <= |Log(s, r.attempt)|
  {
    assert RowOk(sha, s, r);
  }

  /** Any other delivery adds no row and no event, and at most moves the run to a newer epoch. */
  lemma OtherDelivery(sha: seq<Byte> -> Digest, s: System, step: Step)
    requires Inv(sha, s) && step.Deliver? && Enabled(s, step) && !IsAcceptance(sha, s, step)
    ensures s.calls[step.call].owner == step.frame.key && step.frame.key in s.agents
    ensures IsOtherDelivery(s, step.frame.key, step.call, ServedBy(sha, s, step))
  {
    hide BufferOk, OutboxOk, RepliesOk, Refusal, EventOf, DataOf, Activate, Serve, RowsOk, RowOk;
    var k := step.frame.key;
    var row := RowKey(k, step.frame.idempotencyKey);
    assert WireAt(s, step.call, step.frame);
    assert AgentAt(s, k);
    if s.calls[step.call].capability.None? {
      HelloDelivery(sha, s, step);
    } else {
      ServeWithoutAcceptance(sha, s.tables, s.agents[k].cap, step.frame, step.eventId, step.gateway);
      if row in s.tables.accepted {
        RowIsLogged(sha, s, row);
      }
    }
  }

  /** What a delivery leaves alone: the agents, the owners of calls, and every log but for its end. */
  lemma DeliveryFrame(sha: seq<Byte> -> Digest, s: System, step: Step)
    requires Inv(sha, s) && step.Deliver? && Enabled(s, step)
    ensures var s' := Delivered(sha, s, step);
            && s'.agents == s.agents && s'.wire == s.wire && s'.calls.Keys == s.calls.Keys
            && (forall c | c in s.calls :: s'.calls[c].owner == s.calls[c].owner)
            && (forall k | k in s.agents :: Log(s, k) <= Log(s', k) <= s.agents[k].created)
            && (forall k | k in s'.log :: k in s.agents)
            && RepliesAt(s', step.call, ServedBy(sha, s, step).replies)
  {
    hide BufferOk, Serve, RowsOk, EpochsOk, OutboxOk, WireOk, RepliesOk, Refusal, Record, EventOf, IsAcceptance,
      Activate, Reached, IsCurrent;
    forall k | k in s.agents ensures Log(s, k) <= s.agents[k].created {
      assert AgentAt(s, k);
    }
    hide AgentAt, ReplyAt;
    LogAfter(sha, s, step);
    DeliveryReplies(sha, s, step);
    if IsAcceptance(sha, s, step) {
      AcceptanceIsNextFrame(sha, s, step);
    } else {
      OtherDelivery(sha, s, step);
    }
  }

  /** What a delivery is answered with is right afterwards. */
  lemma DeliveryReplies(sha: seq<Byte> -> Digest, s: System, step: Step)
    requires Inv(sha, s) && step.Deliver? && Enabled(s, step)
    ensures RepliesAt(Delivered(sha, s, step), step.call, ServedBy(sha, s, step).replies)
  {
    hide BufferOk, Serve, RowsOk, EpochsOk, OutboxOk, WireOk, RepliesOk, Refusal, Record, EventOf, IsAcceptance,
      Activate, Reached, IsCurrent, AgentAt;
    LogAfter(sha, s, step);
    if IsAcceptance(sha, s, step) {
      AcceptanceIsNextFrame(sha, s, step);
    } else {
      OtherDelivery(sha, s, step);
    }
  }

  lemma DeliveryKeepsAgents(sha: seq<Byte> -> Digest, s: System, step: Step)
    requires Inv(sha, s) && step.Deliver? && Enabled(s, step)
    ensures AgentsOk(Delivered(sha, s, step)) && WireOk(Delivered(sha, s, step)) && RepliesOk(Delivered(sha, s, step))
  {
    hide BufferOk, Serve, RowsOk, EpochsOk, OutboxOk, IsAcceptance;
    var s' := Delivered(sha, s, step);
    DeliveryFrame(sha, s, step);
    forall j | j in s'.agents ensures AgentAt(s', j) {
      assert AgentAt(s, j);
    }
    forall c, f | (c, f) in s'.wire ensures WireAt(s', c, f) {
      assert WireAt(s, c, f);
    }
    forall c, r | (c, r) in s'.replies ensures ReplyAt(s', c, r) {
      if (c, r) in s.replies {
        assert ReplyAt(s, c, r);
      }
    }
  }

  lemma LogAfter(sha: seq<Byte> -> Digest, s: System, step: Step)
    requires step.Deliver? && step.call in s.calls
    ensures var s' := Delivered(sha, s, step);
            forall j :: Log(s', j) == if j == step.frame.key && IsAcceptance(sha, s, step)
                                      then Log(s, j) + [step.frame] else Log(s, j)
  {
  }

  /** What the next frame of k adds to the tables and to the log. */
  ghost predicate Extends(sha: seq<Byte> -> Digest, s: System, s': System, k: AttemptKey, frame: Frame, eventId: Uuid) {
    && k in s.agents && s.agents[k].cap.key == k && k.runId in s.tables.attempts && s'.agents == s.agents
    && frame.key == k && frame.sequence == |Log(s, k)| + 1
    && Fits(frame) && Refusal(sha, frame.payload).None? && !frame.payload.Unset? && !frame.payload.Hello?
    && RowKey(k, frame.idempotencyKey) !in s.tables.accepted
    && s'.tables == Record(sha, s.tables, s.agents[k].cap, frame, eventId)
    && s'.log == s.log[k := Log(s, k) + [frame]]
  }

  lemma ExtensionKeepsRow(
    sha: seq<Byte> -> Digest, s: System, s': System, k: AttemptKey, frame: Frame, eventId: Uuid, r: RowKey)
    requires Extends(sha, s, s', k, frame, eventId) && r in s'.tables.accepted
    requires r in s.tables.accepted ==> RowOk(sha, s, r)
    ensures RowOk(sha, s', r)
  {
    hide Refusal, DataOf, EventOf;
    if r !in s.tables.accepted {
      assert r == RowKey(k, frame.idempotencyKey);
    }
  }

  lemma ExtensionKeepsRows(sha: seq<Byte> -> Digest, s: System, s': System, k: AttemptKey, frame: Frame, eventId: Uuid)
    requires RowsOk(sha, s) && Extends(sha, s, s', k, frame, eventId)
    ensures RowsOk(sha, s')
  {
    hide Refusal, DataOf, EventOf, RowOk;
    forall r | r in s'.tables.accepted ensures RowOk(sha, s', r) {
      ExtensionKeepsRow(sha, s, s', k, frame, eventId, r);
    }
    forall j, i | j in s'.log && 0 <= i < |s'.log[j]|
      ensures var r := RowKey(j, s'.log[j][i].idempotencyKey);
              r in s'.tables.accepted && s'.tables.accepted[r].frame == s'.log[j][i]
    {
      if j in s.log && i < |s.log[j]| {
        assert s'.log[j][i] == s.log[j][i];
      }
    }
  }

  lemma ExtensionKeepsOutbox(sha: seq<Byte> -> Digest, s: System, s': System, k: AttemptKey, frame: Frame,
      eventId: Uuid)
    requires OutboxOk(sha, s) && Extends(sha, s, s', k, frame, eventId)
    requires forall i | 0 <= i < |s.tables.outbox| :: s.tables.outbox[i].id != eventId
    ensures OutboxOk(sha, s')
  {
    hide Refusal, DataOf;
    var before, log' := s.tables.outbox, Log(s, k) + [frame];
    assert log'[..|log'| - 1] == Log(s, k);
    if IsEvent(frame.payload) {
      assert s'.tables.outbox[..|before|] == before;
    }
    forall j ensures Published(s'.tables.outbox, j) == Events(sha, Log(s', j)) {
      assert Published(before, j) == Events(sha, Log(s, j));
      assert Log(s', j) == if j == k then log' else Log(s, j);
    }
  }

  lemma AcceptanceExtends(sha: seq<Byte> -> Digest, s: System, step: Step)
    requires Inv(sha, s) && step.Deliver? && Enabled(s, step) && IsAcceptance(sha, s, step)
    ensures Extends(sha, s, Delivered(sha, s, step), step.frame.key, step.frame, step.eventId)
  {
    hide Inv, Serve, Refusal, Record;
    AcceptanceIsNextFrame(sha, s, step);
    assert AgentAt(s, step.frame.key) by {
      InvParts(sha, s);
    }
  }

  lemma InvParts(sha: seq<Byte> -> Digest, s: System)
    requires Inv(sha, s)
    ensures RowsOk(sha, s) && AgentsOk(s)
  {
  }

  lemma UntouchedKeeps(sha: seq<Byte> -> Digest, s: System, s': System)
    requires RowsOk(sha, s) && OutboxOk(sha, s)
    requires s'.log == s.log && s'.agents == s.agents
    requires s'.tables.accepted == s.tables.accepted && s'.tables.outbox == s.tables.outbox
    ensures RowsOk(sha, s') && OutboxOk(sha, s')
  {
    hide RowOk, Events, Published, IsEvent, Refusal, DataOf;
    forall r | r in s'.tables.accepted ensures RowOk(sha, s', r) {
      UntouchedRow(sha, s, s', r);
    }
  }

  lemma UntouchedRow(sha: seq<Byte> -> Digest, s: System, s': System, r: RowKey)
    requires r in s.tables.accepted && RowOk(sha, s, r) && s'.log == s.log && s'.agents == s.agents
    requires s'.tables.accepted == s.tables.accepted && s'.tables.outbox == s.tables.outbox
    ensures RowOk(sha, s', r)
  {
  }

  lemma DeliveryKeepsTables(sha: seq<Byte> -> Digest, s: System, step: Step)
    requires Inv(sha, s) && step.Deliver? && Enabled(s, step)
    ensures RowsOk(sha, Delivered(sha, s, step)) && OutboxOk(sha, Delivered(sha, s, step))
  {
    hide Serve, AgentsOk, WireOk, RepliesOk, EpochsOk, RowsOk, OutboxOk, Extends, ReplyAt, Reached;
    if IsAcceptance(sha, s, step) {
      AcceptanceExtends(sha, s, step);
      ExtensionKeepsRows(sha, s, Delivered(sha, s, step), step.frame.key, step.frame, step.eventId);
      ExtensionKeepsOutbox(sha, s, Delivered(sha, s, step), step.frame.key, step.frame, step.eventId);
    } else {
      OtherDelivery(sha, s, step);
      UntouchedKeeps(sha, s, Delivered(sha, s, step));
    }
  }

  lemma DeliveryKeepsEpochs(sha: seq<Byte> -> Digest, s: System, step: Step)
    requires Inv(sha, s) && step.Deliver? && Enabled(s, step)
    ensures EpochsOk(Delivered(sha, s, step))
  {
    hide BufferOk, Serve, AgentsOk, WireOk, RepliesOk, RowsOk, OutboxOk, Refusal, DataOf, EventOf, IsAcceptance;
    LogAfter(sha, s, step);
    if IsAcceptance(sha, s, step) {
      hide EpochsOk;
      AcceptanceKeepsEpochs(sha, s, step);
    } else {
      OtherDelivery(sha, s, step);
    }
  }

  lemma AcceptanceKeepsEpochs(sha: seq<Byte> -> Digest, s: System, step: Step)
    requires Inv(sha, s) && step.Deliver? && Enabled(s, step) && IsAcceptance(sha, s, step)
    ensures EpochsOk(Delivered(sha, s, step))
  {
    hide BufferOk, Serve, AgentsOk, WireOk, RepliesOk, RowsOk, OutboxOk, Refusal, DataOf, EventOf, IsAcceptance;
    LogAfter(sha, s, step);
    AcceptanceIsNextFrame(sha, s, step);
  }

  lemma StepKeepsInv(sha: seq<Byte> -> Digest, s: System, step: Step)
    requires Inv(sha, s) && Enabled(s, step)
    ensures Inv(sha, Apply(sha, s, step))
  {
    if step.Deliver? {
      DeliveryKeepsAgents(sha, s, step);
      DeliveryKeepsTables(sha, s, step);
      DeliveryKeepsEpochs(sha, s, step);
    } else {
      ClientStepKeepsInv(sha, s, step);
    }
  }

  lemma {:induction false} RunKeepsInv(sha: seq<Byte> -> Digest, s: System, steps: seq<Step>)
    requires Inv(sha, s)
    ensures Inv(sha, Run(sha, s, steps))
    decreases |steps|
  {
    hide Inv, Enabled, Apply;
    if steps != [] {
      if Enabled(s, steps[0]) {
        StepKeepsInv(sha, s, steps[0]);
        RunKeepsInv(sha, Apply(sha, s, steps[0]), steps[1..]);
      } else {
        RunKeepsInv(sha, s, steps[1..]);
      }
    }
  }

  // ---------------------------------------------------------------------------------------------
  // The theorems

  /** The rows of an attempt are one for each of 1..|frames|, holding these frames in order. */
  ghost predicate AcceptedExactly(t: Tables, k: AttemptKey, frames: seq<Frame>) {
    && (forall r | r in t.accepted && r.attempt == k ::
          var frame := t.accepted[r].frame;
          1 <= frame.sequence <= |frames| && frame == frames[frame.sequence - 1])
    && (forall i | 0 <= i < |frames| ::
          var r := RowKey(k, frames[i].idempotencyKey);
          r in t.accepted && t.accepted[r].frame == frames[i] && frames[i].sequence == i + 1)
    && (forall r, r' | r in t.accepted && r' in t.accepted && r.attempt == k && r'.attempt == k
                       && t.accepted[r].frame.sequence == t.accepted[r'].frame.sequence :: r == r')
  }

  /** What the server has of an agent's frames: the first n, with n known to both sides. */
  ghost predicate Refines(sha: seq<Byte> -> Digest, s: System, k: AttemptKey, n: nat)
    requires k in s.agents && n <= |s.agents[k].created|
  {
    var agent := s.agents[k];
    && AcceptedExactly(s.tables, k, agent.created[..n])
    && (IsCurrent(s.tables, k) ==> s.tables.attempts[k.runId].lastSequence == n)
    && Published(s.tables.outbox, k) == Events(sha, agent.created[..n])
    && (forall i | n <= i < |agent.created| ::
          i + 1 in agent.buffer.pending && agent.buffer.pending[i + 1] == agent.created[i])
  }

  lemma LoggedFrame(s: System, k: AttemptKey, i: nat)
    requires k in s.agents && AgentAt(s, k) && i < |Log(s, k)|
    ensures Log(s, k)[i].sequence == i + 1 && Log(s, k)[i].key == k
  {
    assert Log(s, k)[i] == s.agents[k].created[i];
  }

  lemma AcceptedRow(sha: seq<Byte> -> Digest, s: System, r: RowKey)
    requires r in s.tables.accepted && RowOk(sha, s, r)
    ensures var frame := s.tables.accepted[r].frame;
            && 1 <= frame.sequence <= |Log(s, r.attempt)| && frame == Log(s, r.attempt)[frame.sequence - 1]
            && frame.idempotencyKey == r.idempotencyKey
            && !frame.payload.Unset? && !frame.payload.Hello? && r.attempt in s.agents
  {
  }

  lemma RowsAreTheLog(sha: seq<Byte> -> Digest, s: System, k: AttemptKey)
    requires RowsOk(sha, s) && k in s.agents && AgentAt(s, k)
    ensures AcceptedExactly(s.tables, k, Log(s, k))
  {
    hide RowOk, AgentAt;
    var frames := Log(s, k);
    forall r | r in s.tables.accepted && r.attempt == k
      ensures var frame := s.tables.accepted[r].frame;
              1 <= frame.sequence <= |frames| && frame == frames[frame.sequence - 1]
    {
      AcceptedRow(sha, s, r);
    }
    forall i | 0 <= i < |frames| ensures frames[i].sequence == i + 1 {
      LoggedFrame(s, k, i);
    }
    forall r, r' | r in s.tables.accepted && r' in s.tables.accepted && r.attempt == k && r'.attempt == k
                   && s.tables.accepted[r].frame.sequence == s.tables.accepted[r'].frame.sequence
      ensures r == r'
    {
      AcceptedRow(sha, s, r);
      AcceptedRow(sha, s, r');
    }
  }

  lemma InvRefines(sha: seq<Byte> -> Digest, s: System, k: AttemptKey)
    requires Inv(sha, s) && k in s.agents
    ensures |Log(s, k)| <= |s.agents[k].created| && Refines(sha, s, k, |Log(s, k)|)
  {
    hide WireOk, RepliesOk, AcceptedExactly, RowsOk;
    assert AgentAt(s, k);
    RowsAreTheLog(sha, s, k);
    assert s.agents[k].created[..|Log(s, k)|] == Log(s, k);
  }

  /**
   Whatever the transport does, the frames accepted for an attempt are numbered exactly
   1..last_sequence and are the first ones its client created; the events published for it are
   those frames' events, once each and in order; and the client still buffers all the others.
   */
  lemma StreamRefinement(sha: seq<Byte> -> Digest, steps: seq<Step>)
    ensures var s := Run(sha, INITIAL, steps);
            forall k | k in s.agents :: exists n | 0 <= n <= |s.agents[k].created| :: Refines(sha, s, k, n)
  {
    hide Inv, Refines, Run;
    assert Inv(sha, INITIAL) by { InitialInv(sha); }
    RunKeepsInv(sha, INITIAL, steps);
    var s := Run(sha, INITIAL, steps);
    forall k | k in s.agents ensures exists n | 0 <= n <= |s.agents[k].created| :: Refines(sha, s, k, n) {
      InvRefines(sha, s, k);
    }
  }

  lemma InitialInv(sha: seq<Byte> -> Digest)
    ensures Inv(sha, INITIAL)
  {
  }

  /** What later states keep of an earlier one: every accepted row, and how far each run has got. */
  ghost predicate Later(s: System, s': System) {
    && (forall r | r in s.tables.accepted :: r in s'.tables.accepted && s'.tables.accepted[r] == s.tables.accepted[r])
    && (forall run | run in s.tables.attempts ::
          run in s'.tables.attempts && s'.tables.attempts[run].leaseEpoch >= s.tables.attempts[run].leaseEpoch)
  }

  ghost predicate Superseded(t: Tables, k: AttemptKey) {
    k.runId in t.attempts && t.attempts[k.runId].leaseEpoch > k.leaseEpoch
  }

  /** The rows and events of a superseded attempt are final. */
  ghost predicate Frozen(s: System, s': System, k: AttemptKey) {
    && (forall r | r in s'.tables.accepted && r.attempt == k :: r in s.tables.accepted)
    && Published(s'.tables.outbox, k) == Published(s.tables.outbox, k)
  }

  lemma StepIsLater(sha: seq<Byte> -> Digest, s: System, step: Step, k: AttemptKey)
    requires Inv(sha, s) && Enabled(s, step)
    ensures Later(s, Apply(sha, s, step))
    ensures Superseded(s.tables, k) ==> Frozen(s, Apply(sha, s, step), k)
  {
    hide Serve, BufferOk, AgentsOk, WireOk, RepliesOk, RowsOk, EpochsOk, OutboxOk, Refusal, DataOf, IsAcceptance,
      ReplyAt, Reached;
    if step.Deliver? {
      if IsAcceptance(sha, s, step) {
        AcceptanceIsNextFrame(sha, s, step);
        AcceptanceExtends(sha, s, step);
        var before, after := s.tables.outbox, Delivered(sha, s, step).tables.outbox;
        assert after != before ==> after[..|before|] == before;
      } else {
        OtherDelivery(sha, s, step);
      }
    }
  }

  lemma {:induction false} RunIsLater(sha: seq<Byte> -> Digest, s: System, steps: seq<Step>, k: AttemptKey)
    requires Inv(sha, s)
    ensures Later(s, Run(sha, s, steps))
    ensures Superseded(s.tables, k) ==> Frozen(s, Run(sha, s, steps), k)
    decreases |steps|
  {
    hide Inv, Enabled, Apply;
    if steps != [] {
      if Enabled(s, steps[0]) {
        StepKeepsInv(sha, s, steps[0]);
        StepIsLater(sha, s, steps[0], k);
        RunIsLater(sha, Apply(sha, s, steps[0]), steps[1..], k);
      } else {
        RunIsLater(sha, s, steps[1..], k);
      }
    }
  }

  /**
   Once the Runtime API has activated a newer epoch, no frame of an older one is ever accepted or
   acknowledged again, whatever a gateway answers: its rows and its events stay what they were, and
   every frame and hello of it is refused. A call to a gateway is refused only after it was made.
   */
  lemma EpochFencing(sha: seq<Byte> -> Digest, before: seq<Step>, after: seq<Step>, cap: Capability, frame: Frame,
                     eventId: Uuid, gateway: Gateway)
    requires Superseded(Run(sha, INITIAL, before).tables, cap.key)
    requires frame.key == cap.key && frame.sequence >= 1 && !frame.payload.Hello? && !frame.payload.Unset?
             && Fits(frame)
    ensures var s := Run(sha, INITIAL, before); var s' := Run(sha, s, after);
            && Superseded(s'.tables, cap.key) && Frozen(s, s', cap.key)
            && IsRefused(sha, s'.tables, cap, frame, eventId, gateway)
  {
    hide Inv, Run;
    InitialInv(sha);
    RunKeepsInv(sha, INITIAL, before);
    RunIsLater(sha, Run(sha, INITIAL, before), after, cap.key);
  }

  /** A stale frame ends its call, unless a gateway that it asks raises something else first; so does a hello. */
  ghost predicate IsRefused(sha: seq<Byte> -> Digest, t: Tables, cap: Capability, frame: Frame, eventId: Uuid,
      gateway: Gateway)
  {
    var served := Serve(sha, t, Some(cap), frame, eventId, gateway);
    && served.tables == t
    && (if MakesCall(Some(cap), frame) && gateway.Raised? then served.replies == [ProtocolError(gateway.code)]
        else served == Served(t, Some(cap), [ProtocolError("stale_epoch")], false))
    && forall n | Fits(HelloFrame(cap, n)) ::
         Serve(sha, t, None, HelloFrame(cap, n), eventId, gateway)
         == Served(t, None, [ProtocolError("capability_invalid")], false)
  }

  /**
   An accepted frame stays accepted under the same event id, and while its attempt is current a
   re-delivery changes nothing and is answered with that id.
   */
  lemma RedeliveryAnswersTheSame(sha: seq<Byte> -> Digest, before: seq<Step>, after: seq<Step>, r: RowKey,
      laterId: Uuid)
    requires r in Run(sha, INITIAL, before).tables.accepted
    requires IsCurrent(Run(sha, Run(sha, INITIAL, before), after).tables, r.attempt)
    ensures var s := Run(sha, INITIAL, before); var s' := Run(sha, s, after);
            var row := s.tables.accepted[r];
            && r.attempt in s'.agents && row.frame.key == r.attempt
            && Accept(sha, s'.tables, s'.agents[r.attempt].cap, row.frame, laterId)
               == (s'.tables, Ok(row.durableEventId))
  {
    hide Run, Inv, Refusal, Record;
    InitialInv(sha);
    RunKeepsInv(sha, INITIAL, before);
    var s := Run(sha, INITIAL, before);
    RunKeepsInv(sha, s, after);
    RunIsLater(sha, s, after, r.attempt);
    var s' := Run(sha, s, after);
    assert RowsOk(sha, s') && AgentsOk(s') by {
      InvParts(sha, s');
    }
    assert RowOk(sha, s', r);
    AcceptedRow(sha, s', r);
    assert AgentAt(s', r.attempt);
    LoggedFrame(s', r.attempt, s'.tables.accepted[r].frame.sequence - 1);
  }

  // ---------------------------------------------------------------------------------------------
  // Frames that do not fit, and sends that return too early

  lemma LoggedFits(sha: seq<Byte> -> Digest, s: System, k: AttemptKey, i: nat)
    requires Inv(sha, s) && k in s.agents && i < |Log(s, k)|
    ensures i < |s.agents[k].created| && Fits(s.agents[k].created[i])
  {
    hide AgentAt, WireOk, RepliesOk, EpochsOk, OutboxOk;
    LoggedRow(sha, s, k, i);
    assert AgentAt(s, k);
    assert Log(s, k) <= s.agents[k].created by { LogIsCreated(s, k); }
  }

  lemma LogIsCreated(s: System, k: AttemptKey)
    requires k in s.agents && AgentAt(s, k)
    ensures Log(s, k) <= s.agents[k].created
  {
  }

  lemma LoggedRow(sha: seq<Byte> -> Digest, s: System, k: AttemptKey, i: nat)
    requires RowsOk(sha, s) && i < |Log(s, k)|
    ensures var r := RowKey(k, Log(s, k)[i].idempotencyKey);
            r in s.tables.accepted && s.tables.accepted[r].frame == Log(s, k)[i] && Fits(Log(s, k)[i])
  {
    assert RowOk(sha, s, RowKey(k, Log(s, k)[i].idempotencyKey));
  }

  /**
   A frame that does not fit stops its attempt: nothing the client creates from there on is ever
   accepted, whatever the transport does and however often it reconnects.
   */
  lemma OversizedStopsStream(sha: seq<Byte> -> Digest, steps: seq<Step>, k: AttemptKey, i: nat)
    requires k in Run(sha, INITIAL, steps).agents && i < |Run(sha, INITIAL, steps).agents[k].created|
    requires !Fits(Run(sha, INITIAL, steps).agents[k].created[i])
    ensures |Log(Run(sha, INITIAL, steps), k)| <= i
    ensures forall r | r in Run(sha, INITIAL, steps).tables.accepted && r.attempt == k ::
              Run(sha, INITIAL, steps).tables.accepted[r].frame.sequence <= i
  {
    hide Run, Inv;
    InitialInv(sha);
    RunKeepsInv(sha, INITIAL, steps);
    var s := Run(sha, INITIAL, steps);
    if |Log(s, k)| > i {
      LoggedFits(sha, s, k, i);
    }
    InvParts(sha, s);
    forall r | r in s.tables.accepted && r.attempt == k ensures s.tables.accepted[r].frame.sequence <= i {
      RowIsLogged(sha, s, r);
    }
  }

  /** Whether the n-th frame a client has created is accepted. */
  ghost predicate IsDurable(s: System, k: AttemptKey, n: nat)
    requires k in s.agents
  {
    1 <= n <= |s.agents[k].created|
    && var frame := s.agents[k].created[n - 1]; var r := RowKey(k, frame.idempotencyKey);
       r in s.tables.accepted && s.tables.accepted[r].frame == frame
  }

  lemma AcknowledgedAt(sha: seq<Byte> -> Digest, s: System, k: AttemptKey, n: nat, id: Option<Uuid>, q: nat)
    requires Inv(sha, s) && Enabled(s, ReceiveAck(k, n, id)) && 1 <= q <= n
    ensures IsDurable(s, k, q)
  {
    hide RowsOk, WireOk, OutboxOk, EpochsOk;
    assert AgentAt(s, k);
    assert ReplyAt(s, s.agents[k].call.value, Acknowledgement(n, id));
    LoggedRow(sha, s, k, q - 1);
  }

  /**
   A send that returns on acknowledgement n has the frames 1..n durable: its own, if its number is not
   above n.
   */
  lemma AcknowledgedIsDurable(sha: seq<Byte> -> Digest, steps: seq<Step>, k: AttemptKey, n: nat, id: Option<Uuid>,
      q: nat)
    requires Enabled(Run(sha, INITIAL, steps), ReceiveAck(k, n, id)) && 1 <= q <= n
    ensures IsDurable(Run(sha, INITIAL, steps), k, q)
  {
    hide Run, Inv, Enabled, IsDurable;
    InitialInv(sha);
    RunKeepsInv(sha, INITIAL, steps);
    AcknowledgedAt(sha, Run(sha, INITIAL, steps), k, n, id, q);
  }
}
