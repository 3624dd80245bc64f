/**
 What a reconnection is for. Whatever has been lost, repeated or cut before: as long as no newer attempt
 has taken the run over, an agent that connects again and is served brings all its frames through.
 */
module Recovery {
  import opened Wrappers
  import opened Utf8
  import opened Protocol
  import opened RuntimeApi
  import opened AgentSdk
  import opened AgentStream
  import Decisions = RuntimeDecisions

  /** A frame that is not refused for itself, under a key that no other frame of the attempt has. */
  ghost predicate IsAcceptable(sha: seq<Byte> -> Digest, created: seq<Frame>, i: nat)
    requires i < |created|
  {
    && !created[i].payload.Unset? && Fits(created[i]) && Refusal(sha, created[i].payload).None?
    && forall j | 0 <= j < |created| && j != i :: created[j].idempotencyKey != created[i].idempotencyKey
  }

  /** All that the attempt has created and not had accepted is acceptable. */
  ghost predicate RestIsAcceptable(sha: seq<Byte> -> Digest, s: System, k: AttemptKey)
    requires k in s.agents
  {
    forall i | |Log(s, k)| <= i < |s.agents[k].created| :: IsAcceptable(sha, s.agents[k].created, i)
  }

  /** The agent's call is served, and whatever is not accepted yet has been written to it. */
  ghost predicate IsServed(sha: seq<Byte> -> Digest, s: System, k: AttemptKey, c: nat) {
    && Inv(sha, s) && k in s.agents && s.agents[k].call == Some(c) && c in s.calls
    && s.calls[c] == Call(k, Some(s.agents[k].cap), true) && IsCurrent(s.tables, k)
    && RestIsAcceptable(sha, s, k)
    && forall i | |Log(s, k)| <= i < |s.agents[k].created| :: (c, s.agents[k].created[i]) in s.wire
  }

  lemma {:induction false} Unused(used: set<nat>) returns (n: nat)
    ensures n !in used && forall m | m in used :: m < n
    decreases |used|
  {
    if used == {} {
      n := 0;
    } else {
      var m :| m in used;
      n := Unused(used - {m});
      n := if n > m then n else m + 1;
      assert forall j | j in used :: j == m || j in used - {m};
    }
  }

  lemma NewEventId(outbox: seq<Envelope>) returns (id: Uuid)
    ensures forall i | 0 <= i < |outbox| :: outbox[i].id != id
  {
    var used := set i | 0 <= i < |outbox| :: outbox[i].id;
    id := Unused(used);
    forall i | 0 <= i < |outbox| ensures outbox[i].id in used {
    }
  }

  lemma RowIsOk(sha: seq<Byte> -> Digest, s: System, r: RowKey)
    requires RowsOk(sha, s) && r in s.tables.accepted
    ensures RowOk(sha, s, r)
  {
    hide RowOk, Log;
  }

  lemma KnownIsLogged(sha: seq<Byte> -> Digest, s: System, r: RowKey)
    requires RowsOk(sha, s)
    ensures r in s.tables.accepted ==>
              exists j :: 0 <= j < |Log(s, r.attempt)| && Log(s, r.attempt)[j].idempotencyKey == r.idempotencyKey
  {
    hide RowsOk, Refusal, EventOf, Fits, IsEvent;
    if r in s.tables.accepted {
      RowIsOk(sha, s, r);
      var j := s.tables.accepted[r].frame.sequence - 1;
      assert Log(s, r.attempt)[j].idempotencyKey == r.idempotencyKey;
    }
  }

  /** The next frame of a served attempt is not known and not refused. */
  lemma NextIsTaken(sha: seq<Byte> -> Digest, s: System, k: AttemptKey, c: nat)
    requires IsServed(sha, s, k, c) && |Log(s, k)| < |s.agents[k].created|
    ensures var frame := s.agents[k].created[|Log(s, k)|];
            && frame.key == k && s.agents[k].cap.key == k && !frame.payload.Hello?
            && RowKey(k, frame.idempotencyKey) !in s.tables.accepted
            && Decisions.WhyNotAnswered(sha, s.tables, s.agents[k].cap, frame, Returned(true)).None?
  {
    hide WireOk, RepliesOk, OutboxOk, Refusal, Decisions.Reason, RowOk;
    var n, created := |Log(s, k)|, s.agents[k].created;
    assert AgentAt(s, k) && IsAcceptable(sha, created, n);
    assert forall j | 0 <= j < n :: Log(s, k)[j].idempotencyKey != created[n].idempotencyKey;
    KnownIsLogged(sha, s, RowKey(k, created[n].idempotencyKey));
    Decisions.RefusedFor(sha, created[n].payload);
  }

  /** Serving the next frame has it accepted, and leaves the rest to be served. */
  lemma NextIsServed(sha: seq<Byte> -> Digest, s: System, k: AttemptKey, c: nat, eventId: Uuid)
    requires IsServed(sha, s, k, c) && |Log(s, k)| < |s.agents[k].created|
    requires forall i | 0 <= i < |s.tables.outbox| :: s.tables.outbox[i].id != eventId
    ensures var created := s.agents[k].created; var step := Deliver(c, created[|Log(s, k)|], eventId, Returned(true));
            && Enabled(s, step)
            && var s' := Apply(sha, s, step);
               && IsServed(sha, s', k, c) && s'.agents == s.agents && Log(s', k) == created[..|Log(s, k)| + 1]
  {
    hide Apply, Inv, Serve, Decisions.WhyNotAnswered, IsAcceptable, IsCurrent;
    var n, created := |Log(s, k)|, s.agents[k].created;
    var step := Deliver(c, created[n], eventId, Returned(true));
    NextIsTaken(sha, s, k, c);
    LogIsPrefix(sha, s, k);
    NextIsLogged(sha, s, k, c, eventId);
    StepKeepsInv(sha, s, step);
    assert created[..n + 1] == created[..n] + [created[n]];
  }

  lemma LogIsPrefix(sha: seq<Byte> -> Digest, s: System, k: AttemptKey)
    requires Inv(sha, s) && k in s.agents
    ensures |Log(s, k)| <= |s.agents[k].created| && Log(s, k) == s.agents[k].created[..|Log(s, k)|]
  {
    hide BufferOk, RowsOk, EpochsOk, WireOk, RepliesOk, OutboxOk;
    assert AgentAt(s, k);
  }

  lemma NextIsLogged(sha: seq<Byte> -> Digest, s: System, k: AttemptKey, c: nat, eventId: Uuid)
    requires IsServed(sha, s, k, c) && |Log(s, k)| < |s.agents[k].created|
    requires s.agents[k].created[|Log(s, k)|].key == k && s.agents[k].cap.key == k
    requires forall i | 0 <= i < |s.tables.outbox| :: s.tables.outbox[i].id != eventId
    requires RowKey(k, s.agents[k].created[|Log(s, k)|].idempotencyKey) !in s.tables.accepted
    requires Decisions.WhyNotAnswered(sha, s.tables, s.agents[k].cap, s.agents[k].created[|Log(s, k)|],
                                      Returned(true)).None?
    ensures var frame := s.agents[k].created[|Log(s, k)|]; var step := Deliver(c, frame, eventId, Returned(true));
            && Enabled(s, step)
            && var s' := Apply(sha, s, step);
               && s' == s.(tables := s'.tables, replies := s'.replies, log := s'.log)
               && Log(s', k) == Log(s, k) + [frame] && IsCurrent(s'.tables, k)
  {
    hide Inv, Serve, Accept, Decisions.IsEventFor, Decisions.Reason, IsAcceptable, RestIsAcceptable;
    var frame := s.agents[k].created[|Log(s, k)|];
    Decisions.LaterIsAnswered(sha, s.tables, s.agents[k].cap, frame, eventId, Returned(true));
    Decisions.AcceptedIff(sha, s.tables, s.agents[k].cap, frame, eventId);
    assert s.calls[c := s.calls[c]] == s.calls;
  }

  /** All frames that have been written are served, one after the other. */
  lemma {:induction false} RestIsServed(sha: seq<Byte> -> Digest, s: System, k: AttemptKey, c: nat)
    returns (steps: seq<Step>)
    requires IsServed(sha, s, k, c)
    ensures var s' := Run(sha, s, steps);
            && IsServed(sha, s', k, c) && s'.agents == s.agents && Log(s', k) == s.agents[k].created
    decreases |s.agents[k].created| - |Log(s, k)|
  {
    if |Log(s, k)| < |s.agents[k].created| {
      var eventId := NewEventId(s.tables.outbox);
      NextIsServed(sha, s, k, c, eventId);
      var step := Deliver(c, s.agents[k].created[|Log(s, k)|], eventId, Returned(true));
      hide IsServed, Apply;
      var rest := RestIsServed(sha, Apply(sha, s, step), k, c);
      steps := [step] + rest;
      assert steps[1..] == rest;
    } else {
      steps := [];
      assert AgentAt(s, k);
    }
  }

  // ---------------------------------------------------------------------------------------------
  // Connecting again

  /** The agent has dialled a new call, and its hello is under way. */
  ghost predicate IsDialled(s: System, k: AttemptKey, c: nat) {
    && k in s.agents && s.agents[k].call == Some(c) && s.agents[k].awaitingHello
    && c in s.calls && s.calls[c] == Call(k, None, true) && (c, HelloFrame(s.agents[k].cap, 0)) in s.wire
  }

  /** The hello has been accepted, and the answer says how many frames are. */
  ghost predicate IsAnswered(s: System, k: AttemptKey, c: nat) {
    && k in s.agents && s.agents[k].call == Some(c) && s.agents[k].awaitingHello
    && c in s.calls && s.calls[c] == Call(k, Some(s.agents[k].cap), true) && IsCurrent(s.tables, k)
    && (c, HelloAccepted(|Log(s, k)|)) in s.replies
  }

  lemma HelloIsAnswered(sha: seq<Byte> -> Digest, s: System, k: AttemptKey, c: nat, eventId: Uuid)
    requires Inv(sha, s) && IsDialled(s, k, c) && s.agents[k].cap.key == k
    requires Decisions.MayActivate(s.tables, s.agents[k].cap)
    requires forall i | 0 <= i < |s.tables.outbox| :: s.tables.outbox[i].id != eventId
    ensures var step := Deliver(c, HelloFrame(s.agents[k].cap, 0), eventId, Returned(true));
            && Enabled(s, step)
            && var s' := Apply(sha, s, step);
               Inv(sha, s') && IsAnswered(s', k, c) && s'.agents == s.agents && s'.log == s.log
  {
    hide Inv, Serve, Activate;
    var cap := s.agents[k].cap;
    var frame := HelloFrame(cap, 0);
    var step := Deliver(c, frame, eventId, Returned(true));
    var s' := Apply(sha, s, step);
    Decisions.FirstIsAnswered(sha, s.tables, frame, eventId, Returned(true));
    Decisions.ActivatedIff(s.tables, cap);
    StepKeepsInv(sha, s, step);
    LastIsLogged(sha, s', k);
  }

  lemma LastIsLogged(sha: seq<Byte> -> Digest, s: System, k: AttemptKey)
    requires Inv(sha, s)
    ensures IsCurrent(s.tables, k) ==> s.tables.attempts[k.runId].lastSequence == |Log(s, k)|
  {
    hide AgentsOk, RowsOk, WireOk, RepliesOk, OutboxOk;
  }

  lemma RestIsPending(sha: seq<Byte> -> Digest, s: System, k: AttemptKey)
    requires Inv(sha, s) && k in s.agents
    ensures var created, pending := s.agents[k].created, s.agents[k].buffer.pending;
            forall i | |Log(s, k)| <= i < |created| :: i + 1 in pending && pending[i + 1] == created[i]
  {
    hide RowsOk, EpochsOk, WireOk, RepliesOk, OutboxOk;
    assert AgentAt(s, k);
  }

  /** Everything that is not accepted is pending, so it is written again. */
  lemma RestIsWritten(sha: seq<Byte> -> Digest, s: System, k: AttemptKey, c: nat)
    requires Inv(sha, s) && IsAnswered(s, k, c) && RestIsAcceptable(sha, s, k)
    ensures var step := ReceiveHello(k, |Log(s, k)|);
            && Enabled(s, step)
            && var s' := Apply(sha, s, step);
               IsServed(sha, s', k, c) && s'.agents[k].created == s.agents[k].created && s'.log == s.log
  {
    hide Inv, IsAcceptable, IsCurrent;
    var step := ReceiveHello(k, |Log(s, k)|);
    StepKeepsInv(sha, s, step);
    RestIsPending(sha, s, k);
  }

  /** What the agent's step puts on the wire is what its client's method writes, whatever the order there. */
  lemma RewriteIsWritten(sha: seq<Byte> -> Digest, s: System, k: AttemptKey, n: nat, numbers: seq<nat>,
                         written: seq<Frame>)
    requires Enabled(s, ReceiveHello(k, n)) && IsRewrite(Resumed(s.agents[k].buffer, n), numbers, written)
    ensures var s' := Apply(sha, s, ReceiveHello(k, n));
            && s'.agents[k].buffer == Resumed(s.agents[k].buffer, n)
            && s'.wire == s.wire + set frame | frame in written :: (s.agents[k].call.value, frame)
  {
    var b, c := Resumed(s.agents[k].buffer, n), s.agents[k].call.value;
    forall frame | frame in written ensures exists m :: m in b.pending && m > b.lastAck && b.pending[m] == frame {
      var i :| 0 <= i < |written| && written[i] == frame;
      assert numbers[i] in numbers;
    }
    forall m | m in b.pending && m > b.lastAck ensures b.pending[m] in written {
      var i :| 0 <= i < |numbers| && numbers[i] == m;
    }
  }

  /**
   Whatever has happened: as long as the attempt may be activated, and none of its frames that are still
   waiting would be refused for itself, there is a way on that brings every frame through. The agent
   dials, its hello is accepted, it writes again what is waiting, and each of these frames is accepted.
   */
  lemma ReconnectionBringsAllThrough(sha: seq<Byte> -> Digest, before: seq<Step>, k: AttemptKey)
    returns (steps: seq<Step>)
    requires var s := Run(sha, INITIAL, before);
             k in s.agents && Decisions.MayActivate(s.tables, s.agents[k].cap) && RestIsAcceptable(sha, s, k)
    ensures var s := Run(sha, INITIAL, before); var s' := Run(sha, s, steps); var created := s.agents[k].created;
            && Log(s', k) == created && k in s'.agents && s'.agents[k].created == created
            && IsCurrent(s'.tables, k) && s'.tables.attempts[k.runId].lastSequence == |created|
  {
    hide Run, Inv, IsServed, IsAnswered, RestIsAcceptable, Apply;
    var s := Run(sha, INITIAL, before);
    InitialInv(sha);
    RunKeepsInv(sha, INITIAL, before);
    var c := Unused(s.calls.Keys);
    var dial := Dial(k, c, 0);
    DialIs(sha, s, k, c);
    StepKeepsInv(sha, s, dial);
    var s1 := Apply(sha, s, dial);
    var eventId := NewEventId(s1.tables.outbox);
    var hello := Deliver(c, HelloFrame(s1.agents[k].cap, 0), eventId, Returned(true));
    var read := ReceiveHello(k, |Log(s, k)|);
    HelloIsAnswered(sha, s1, k, c, eventId);
    var s2 := Apply(sha, s1, hello);
    StillAcceptable(sha, s, s2, k);
    RestIsWritten(sha, s2, k, c);
    var s3 := Apply(sha, s2, read);
    var rest := RestIsServed(sha, s3, k, c);
    steps := [dial] + ([hello] + ([read] + rest));
    TakeStep(sha, s, dial, [hello] + ([read] + rest));
    TakeStep(sha, s1, hello, [read] + rest);
    TakeStep(sha, s2, read, rest);
    ServedIsCurrent(sha, Run(sha, s3, rest), k, c);
  }

  lemma DialIs(sha: seq<Byte> -> Digest, s: System, k: AttemptKey, c: nat)
    requires Inv(sha, s) && k in s.agents && c !in s.calls
    ensures Enabled(s, Dial(k, c, 0)) && s.agents[k].cap.key == k
    ensures var s' := Apply(sha, s, Dial(k, c, 0));
            && IsDialled(s', k, c) && s'.tables == s.tables && s'.log == s.log
            && s'.agents[k].created == s.agents[k].created && s'.agents[k].cap == s.agents[k].cap
  {
    assert AgentAt(s, k);
    hide Inv;
  }

  lemma StillAcceptable(sha: seq<Byte> -> Digest, s: System, s': System, k: AttemptKey)
    requires k in s.agents && k in s'.agents && RestIsAcceptable(sha, s, k)
    requires s'.agents[k].created == s.agents[k].created && s'.log == s.log
    ensures RestIsAcceptable(sha, s', k)
  {
    hide IsAcceptable;
  }

  lemma TakeStep(sha: seq<Byte> -> Digest, s: System, step: Step, rest: seq<Step>)
    requires Enabled(s, step)
    ensures Run(sha, s, [step] + rest) == Run(sha, Apply(sha, s, step), rest)
  {
    hide Enabled, Apply;
    assert ([step] + rest)[1..] == rest;
  }

  lemma ServedIsCurrent(sha: seq<Byte> -> Digest, s: System, k: AttemptKey, c: nat)
    requires IsServed(sha, s, k, c)
    ensures IsCurrent(s.tables, k) && s.tables.attempts[k.runId].lastSequence == |Log(s, k)| && k in s.agents
  {
    hide Inv;
    LastIsLogged(sha, s, k);
  }
}
