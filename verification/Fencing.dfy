/**
 The Runner and the Runtime API together. The Runner issues a capability for the attempt that is
 active in its database; agents are launched with issued capabilities only, at any later time; and
 both services take their steps in any interleaving.
 */
module Fencing {
  import opened Wrappers
  import opened Utf8
  import opened Protocol
  import Runner
  import Lifecycle = RunnerLifecycle
  import opened RuntimeApi
  import Stream = AgentStream

  datatype World = World(db: Runner.Db, stream: Stream.System, issued: set<Capability>)

  datatype Step =
    | RunnerStep(runner: Lifecycle.Step)
    | IssueCapability(cap: Capability)
    | StreamStep(stream: Stream.Step)

  const START := World(Lifecycle.EMPTY, Stream.INITIAL, {})

  /** The key of an attempt of the Runner's database, as a capability for it names it. */
  function KeyOf(db: Runner.Db, a: Uuid): AttemptKey
    requires a in db.attempts
  {
    AttemptKey(db.attempts[a].runId, a, db.attempts[a].leaseEpoch)
  }

  ghost predicate Enabled(w: World, step: Step) {
    match step
    case RunnerStep(runner) => Lifecycle.Enabled(w.db, runner)
    case IssueCapability(cap) =>
      && cap.key.runId in w.db.runs && w.db.runs[cap.key.runId].activeAttemptId == Some(cap.key.attemptId)
      && w.db.runs[cap.key.runId].leaseEpoch == cap.key.leaseEpoch
    case StreamStep(stream) => Stream.Enabled(w.stream, stream) && (stream.Launch? ==> stream.cap in w.issued)
  }

  ghost function Apply(sha: seq<Byte> -> Digest, config: Lifecycle.Config, w: World, step: Step): World
    requires Enabled(w, step)
  {
    match step
    case RunnerStep(runner) => w.(db := Lifecycle.Apply(config, w.db, runner))
    case IssueCapability(cap) => w.(issued := w.issued + {cap})
    case StreamStep(stream) => w.(stream := Stream.Apply(sha, w.stream, stream))
  }

  ghost function Run(sha: seq<Byte> -> Digest, config: Lifecycle.Config, w: World, steps: seq<Step>): World
    decreases |steps|
  {
    if steps == [] then w
    else Run(sha, config, if Enabled(w, steps[0]) then Apply(sha, config, w, steps[0]) else w, steps[1..])
  }

  // ---------------------------------------------------------------------------------------------
  // The invariant

  ghost predicate IsIssued(db: Runner.Db, k: AttemptKey) {
    k.attemptId in db.attempts && KeyOf(db, k.attemptId) == k
  }

  /** Every row of the Runtime API's attempts is one of the Runner's attempts. */
  ghost predicate RowsIssued(w: World) {
    forall run | run in w.stream.tables.attempts ::
      IsIssued(w.db, AttemptKey(run, w.stream.tables.attempts[run].attemptId, w.stream.tables.attempts[run].leaseEpoch))
  }

  ghost predicate Inv(sha: seq<Byte> -> Digest, config: Lifecycle.Config, w: World) {
    && Lifecycle.Inv(config, w.db) && Stream.Inv(sha, w.stream)
    && (forall cap | cap in w.issued :: IsIssued(w.db, cap.key))
    && (forall k | k in w.stream.agents :: w.stream.agents[k].cap in w.issued)
    && RowsIssued(w)
  }

  ghost predicate KeepsAttempts(db: Runner.Db, db': Runner.Db) {
    forall a | a in db.attempts :: a in db'.attempts && KeyOf(db', a) == KeyOf(db, a)
  }

  /** An attempt keeps its run and its epoch, and is never removed. */
  lemma RunnerKeepsAttempts(config: Lifecycle.Config, db: Runner.Db, step: Lifecycle.Step)
    requires Lifecycle.Enabled(db, step)
    ensures KeepsAttempts(db, Lifecycle.Apply(config, db, step))
  {
    hide Lifecycle.Apply, Lifecycle.Enabled;
    forall a | a in db.attempts
      ensures a in Lifecycle.Apply(config, db, step).attempts
      ensures KeyOf(Lifecycle.Apply(config, db, step), a) == KeyOf(db, a)
    {
      Lifecycle.StepKeepsAttempt(config, db, step, a);
    }
  }

  /** A stream step makes no attempt row but for an agent's capability. */
  lemma RowOrigin(sha: seq<Byte> -> Digest, s: Stream.System, step: Stream.Step, run: Uuid)
    requires Stream.Inv(sha, s) && Stream.Enabled(s, step) && run in Stream.Apply(sha, s, step).tables.attempts
    ensures var row := Stream.Apply(sha, s, step).tables.attempts[run];
            var k := AttemptKey(run, row.attemptId, row.leaseEpoch);
            || (run in s.tables.attempts && s.tables.attempts[run].attemptId == row.attemptId
                && s.tables.attempts[run].leaseEpoch == row.leaseEpoch)
            || (k in s.agents && s.agents[k].cap.key == k)
  {
    hide Serve, Stream.BufferOk, Stream.AgentsOk, Stream.WireOk, Stream.RepliesOk, Stream.RowsOk, Stream.EpochsOk,
      Stream.OutboxOk, Refusal, DataOf, Stream.IsAcceptance, Stream.ReplyAt, Stream.Reached;
    if step.Deliver? {
      if Stream.IsAcceptance(sha, s, step) {
        Stream.AcceptanceIsNextFrame(sha, s, step);
        AgentKey(sha, s, step.frame.key);
      } else {
        Stream.OtherDelivery(sha, s, step);
        AgentKey(sha, s, step.frame.key);
      }
    }
  }

  lemma AgentKey(sha: seq<Byte> -> Digest, s: Stream.System, k: AttemptKey)
    requires Stream.Inv(sha, s) && k in s.agents
    ensures s.agents[k].cap.key == k
  {
    assert Stream.AgentAt(s, k);
  }

  lemma AgentsKeepCapabilities(sha: seq<Byte> -> Digest, s: Stream.System, step: Stream.Step, k: AttemptKey)
    requires Stream.Enabled(s, step) && k in Stream.Apply(sha, s, step).agents
    ensures var cap := Stream.Apply(sha, s, step).agents[k].cap;
            (k in s.agents && s.agents[k].cap == cap) || (step.Launch? && step.cap == cap)
  {
    hide Serve;
  }

  lemma ActiveIsIssued(config: Lifecycle.Config, db: Runner.Db, cap: Capability)
    requires Lifecycle.Inv(config, db) && Enabled(World(db, Stream.INITIAL, {}), IssueCapability(cap))
    ensures IsIssued(db, cap.key)
  {
    assert Lifecycle.RunOk(db, config.maxAttempts, cap.key.runId);
  }

  lemma StepKeepsInv(sha: seq<Byte> -> Digest, config: Lifecycle.Config, w: World, step: Step)
    requires Inv(sha, config, w) && Enabled(w, step)
    ensures Inv(sha, config, Apply(sha, config, w, step))
  {
    hide Lifecycle.Inv, Stream.Inv, Lifecycle.Enabled, Stream.Enabled, Lifecycle.Apply, Stream.Apply;
    var w' := Apply(sha, config, w, step);
    match step {
      case RunnerStep(runner) =>
        Lifecycle.StepKeepsInv(config, w.db, runner);
        RunnerKeepsAttempts(config, w.db, runner);
      case IssueCapability(cap) =>
        ActiveIsIssued(config, w.db, cap);
      case StreamStep(stream) =>
        Stream.StepKeepsInv(sha, w.stream, stream);
        forall k | k in w'.stream.agents ensures w'.stream.agents[k].cap in w.issued {
          AgentsKeepCapabilities(sha, w.stream, stream, k);
        }
        forall run | run in w'.stream.tables.attempts
          ensures var row := w'.stream.tables.attempts[run];
                  IsIssued(w.db, AttemptKey(run, row.attemptId, row.leaseEpoch))
        {
          RowOrigin(sha, w.stream, stream, run);
        }
    }
  }

  lemma {:induction false} RunKeepsInv(sha: seq<Byte> -> Digest, config: Lifecycle.Config, w: World, steps: seq<Step>)
    requires Inv(sha, config, w)
    ensures Inv(sha, config, Run(sha, config, w, steps))
    decreases |steps|
  {
    hide Inv, Enabled, Apply;
    if steps != [] {
      if Enabled(w, steps[0]) {
        StepKeepsInv(sha, config, w, steps[0]);
        RunKeepsInv(sha, config, Apply(sha, config, w, steps[0]), steps[1..]);
      } else {
        RunKeepsInv(sha, config, w, steps[1..]);
      }
    }
  }

  lemma StartInv(sha: seq<Byte> -> Digest, config: Lifecycle.Config)
    ensures Inv(sha, config, START)
  {
    hide Lifecycle.Inv, Stream.Inv;
    Lifecycle.EmptyInv(config);
    Stream.InitialInv(sha);
  }

  // ---------------------------------------------------------------------------------------------
  // Fencing

  /**
   The Runtime API never meets two attempts that share an epoch of one run, so an issued capability
   is activated or found stale, and never mismatched; and no row is newer than the run's lease.
   */
  lemma NoAttemptMismatch(sha: seq<Byte> -> Digest, config: Lifecycle.Config, steps: seq<Step>, cap: Capability)
    requires cap in Run(sha, config, START, steps).issued
    ensures var w := Run(sha, config, START, steps); var run := cap.key.runId;
            && Lifecycle.IsAttemptOf(w.db, cap.key.attemptId, run)
            && (Activate(w.stream.tables, cap).1.Err? <==> Stream.Superseded(w.stream.tables, cap.key))
            && Activate(w.stream.tables, cap).1 != Err("attempt_mismatch")
            && (run in w.stream.tables.attempts ==>
                  run in w.db.runs && w.stream.tables.attempts[run].leaseEpoch <= w.db.runs[run].leaseEpoch)
  {
    hide Run, Stream.Inv, Lifecycle.RunOk, Lifecycle.ProposalOk, Lifecycle.CompletedEvents;
    StartInv(sha, config);
    RunKeepsInv(sha, config, START, steps);
    var w, run := Run(sha, config, START, steps), cap.key.runId;
    if run in w.stream.tables.attempts {
      var a := w.stream.tables.attempts[run].attemptId;
      assert IsIssued(w.db, AttemptKey(run, a, w.stream.tables.attempts[run].leaseEpoch));
      assert Lifecycle.AttemptOk(w.db, a);
    }
  }

  /** What a world's stream goes through is a run of the stream alone. */
  lemma {:induction false} StreamOf(sha: seq<Byte> -> Digest, config: Lifecycle.Config, w: World, steps: seq<Step>)
    returns (inner: seq<Stream.Step>)
    ensures Run(sha, config, w, steps).stream == Stream.Run(sha, w.stream, inner)
    decreases |steps|
  {
    hide Stream.Enabled, Stream.Apply, Lifecycle.Enabled, Lifecycle.Apply;
    if steps == [] {
      inner := [];
    } else {
      var first := steps[0];
      if Enabled(w, first) {
        inner := StreamOf(sha, config, Apply(sha, config, w, first), steps[1..]);
        if first.StreamStep? {
          assert ([first.stream] + inner)[1..] == inner;
          inner := [first.stream] + inner;
        }
      } else {
        inner := StreamOf(sha, config, w, steps[1..]);
      }
    }
  }

  /**
   Once the attempt that is active in the Runner has connected, every other attempt of its run is
   fenced off for good: nothing it ever wrote is accepted or acknowledged again, whatever a gateway
   answers it, its accepted frames and their events stay what they are, and it cannot open a new call.
   */
  lemma OnlyTheActiveAttemptWrites(
    sha: seq<Byte> -> Digest, config: Lifecycle.Config, before: seq<Step>, after: seq<Step>,
    r: Uuid, a: Uuid, cap: Capability, frame: Frame, eventId: Uuid, gateway: Gateway)
    requires var w := Run(sha, config, START, before);
             && r in w.db.runs && w.db.runs[r].activeAttemptId == Some(a)
             && Stream.IsCurrent(w.stream.tables, AttemptKey(r, a, w.db.runs[r].leaseEpoch))
             && Lifecycle.IsAttemptOf(w.db, cap.key.attemptId, r) && cap.key == KeyOf(w.db, cap.key.attemptId)
             && cap.key.attemptId != a
    requires frame.key == cap.key && frame.sequence >= 1 && !frame.payload.Hello? && !frame.payload.Unset?
             && Fits(frame)
    ensures var w := Run(sha, config, START, before); var w' := Run(sha, config, w, after);
            && Stream.Frozen(w.stream, w'.stream, cap.key)
            && Stream.IsRefused(sha, w'.stream.tables, cap, frame, eventId, gateway)
  {
    hide Run, Stream.Run, Stream.Frozen, Stream.IsRefused, Stream.Inv;
    StartInv(sha, config);
    RunKeepsInv(sha, config, START, before);
    var w := Run(sha, config, START, before);
    OthersAreOlder(config, w.db, r, a, cap.key.attemptId);
    var first := StreamOf(sha, config, START, before);
    var second := StreamOf(sha, config, w, after);
    Stream.EpochFencing(sha, first, second, cap, frame, eventId, gateway);
  }

  lemma OthersAreOlder(config: Lifecycle.Config, db: Runner.Db, r: Uuid, a: Uuid, b: Uuid)
    requires Lifecycle.Inv(config, db) && r in db.runs && db.runs[r].activeAttemptId == Some(a)
    requires Lifecycle.IsAttemptOf(db, b, r) && b != a
    ensures db.attempts[b].leaseEpoch < db.runs[r].leaseEpoch
  {
    hide Lifecycle.CompletedEvents;
    assert Lifecycle.RunOk(db, config.maxAttempts, r);
    assert Lifecycle.AttemptOk(db, b);
  }
}
