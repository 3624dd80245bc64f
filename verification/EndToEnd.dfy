/**
 Agents, the Runtime API and the conversation service together. What the Runtime API has put in its
 outbox reaches the conversation service at any later time, in any order and any number of times;
 everything else about the two services is as before.
 */
module EndToEnd {
  import opened Wrappers
  import opened Utf8
  import opened Protocol
  import opened RuntimeApi
  import Sdk = AgentSdk
  import Stream = AgentStream
  import Store = ConversationStore
  import Texts = TextRoundTrip

  datatype World = World(stream: Stream.System, store: Store.Store)

  datatype Step = StreamStep(stream: Stream.Step) | StoreStep(store: Store.Step)

  const START := World(Stream.INITIAL, Store.EMPTY)

  ghost predicate Enabled(w: World, step: Step) {
    match step
    case StreamStep(stream) => Stream.Enabled(w.stream, stream)
    case StoreStep(store) => store.ProjectEvent? ==> store.event in w.stream.tables.outbox
  }

  ghost function Apply(sha: seq<Byte> -> Digest, w: World, step: Step): World
    requires Store.Refs(w.store) && Enabled(w, step)
  {
    match step
    case StreamStep(stream) => w.(stream := Stream.Apply(sha, w.stream, stream))
    case StoreStep(store) => w.(store := Store.Apply(sha, w.store, store))
  }

  lemma StepKeepsRefs(sha: seq<Byte> -> Digest, w: World, step: Step)
    requires Store.Refs(w.store) && Enabled(w, step)
    ensures Store.Refs(Apply(sha, w, step).store)
  {
    if step.StoreStep? {
      Store.StepKeepsRefs(sha, w.store, step.store);
    }
  }

  ghost function Run(sha: seq<Byte> -> Digest, w: World, steps: seq<Step>): (w': World)
    requires Store.Refs(w.store)
    ensures Store.Refs(w'.store)
    decreases |steps|
  {
    if steps == [] then w
    else if !Enabled(w, steps[0]) then Run(sha, w, steps[1..])
    else
      StepKeepsRefs(sha, w, steps[0]);
      Run(sha, Apply(sha, w, steps[0]), steps[1..])
  }

  // ---------------------------------------------------------------------------------------------
  // What the outbox holds was created by an agent

  lemma {:induction false} OutboxIsPublished(outbox: seq<Envelope>, i: nat)
    requires i < |outbox|
    ensures (outbox[i].aggregateSequence, outbox[i].data) in Stream.Published(outbox, outbox[i].key)
    decreases |outbox|
  {
    var n := |outbox| - 1;
    if i < n {
      OutboxIsPublished(outbox[..n], i);
    }
  }

  lemma {:induction false} PublishedIsLogged(sha: seq<Byte> -> Digest, frames: seq<Frame>, item: (nat, EventData))
    returns (i: nat)
    requires item in Stream.Events(sha, frames)
    ensures i < |frames| && IsEvent(frames[i].payload) && Refusal(sha, frames[i].payload).None?
    ensures item == (frames[i].sequence, DataOf(sha, frames[i].payload))
    decreases |frames|
  {
    var n := |frames| - 1;
    if item in Stream.Events(sha, frames[..n]) {
      i := PublishedIsLogged(sha, frames[..n], item);
    } else {
      i := n;
    }
  }

  /** Some frame that an agent created says what an event says. */
  ghost predicate IsCreated(sha: seq<Byte> -> Digest, s: Stream.System, data: EventData) {
    exists k, i :: IsSource(sha, s, data, k, i)
  }

  ghost predicate IsSource(sha: seq<Byte> -> Digest, s: Stream.System, data: EventData, k: AttemptKey, i: nat) {
    && k in s.agents && i < |s.agents[k].created|
    && var payload := s.agents[k].created[i].payload;
       IsEvent(payload) && Refusal(sha, payload).None? && data == DataOf(sha, payload)
  }

  lemma OutboxIsCreated(sha: seq<Byte> -> Digest, s: Stream.System, e: Envelope)
    requires Stream.Inv(sha, s) && e in s.tables.outbox
    ensures IsCreated(sha, s, e.data)
  {
    hide Stream.BufferOk, Stream.RowsOk, Stream.EpochsOk, Stream.WireOk, Stream.RepliesOk, Refusal, DataOf,
      Stream.Events,
      Stream.Published;
    var j :| 0 <= j < |s.tables.outbox| && s.tables.outbox[j] == e;
    OutboxIsPublished(s.tables.outbox, j);
    var i := PublishedIsLogged(sha, Stream.Log(s, e.key), (e.aggregateSequence, e.data));
    assert Stream.AgentAt(s, e.key);
    assert IsSource(sha, s, e.data, e.key, i);
  }

  /** Agents go on to exist and never take back a frame. */
  ghost predicate Grows(s: Stream.System, s': Stream.System) {
    forall k | k in s.agents :: k in s'.agents && s.agents[k].created <= s'.agents[k].created
  }

  lemma StepGrows(sha: seq<Byte> -> Digest, s: Stream.System, step: Stream.Step)
    requires Stream.Enabled(s, step)
    ensures Grows(s, Stream.Apply(sha, s, step))
  {
    hide Serve;
  }

  lemma StillCreated(sha: seq<Byte> -> Digest, s: Stream.System, s': Stream.System, data: EventData)
    requires IsCreated(sha, s, data) && Grows(s, s')
    ensures IsCreated(sha, s', data)
  {
    var k: AttemptKey, i: nat :| IsSource(sha, s, data, k, i);
    assert s'.agents[k].created[i] == s.agents[k].created[i];
    assert IsSource(sha, s', data, k, i);
  }

  lemma GrowsTransitive(x: Stream.System, y: Stream.System, z: Stream.System)
    requires Grows(x, y) && Grows(y, z)
    ensures Grows(x, z)
  {
  }

  // ---------------------------------------------------------------------------------------------
  // The store's part of a run

  ghost predicate AllCreated(sha: seq<Byte> -> Digest, s: Stream.System, steps: seq<Store.Step>) {
    forall i | 0 <= i < |steps| && steps[i].ProjectEvent? :: IsCreated(sha, s, steps[i].event.data)
  }

  /** What the store goes through is a run of its own, on events that agents have created. */
  lemma {:induction false} StoreOf(sha: seq<Byte> -> Digest, w: World, steps: seq<Step>)
    returns (inner: seq<Store.Step>)
    requires Stream.Inv(sha, w.stream) && Store.Refs(w.store)
    ensures var w' := Run(sha, w, steps);
            && w'.store == Store.Run(sha, w.store, inner) && Grows(w.stream, w'.stream)
            && AllCreated(sha, w'.stream, inner)
    decreases |steps|
  {
    hide Stream.Inv, Stream.Enabled, Stream.Apply, Store.Apply, Store.Refs, Grows, IsCreated;
    if steps == [] {
      assert Grows(w.stream, w.stream) by { GrowsReflexive(w.stream); }
      inner := [];
    } else if !Enabled(w, steps[0]) {
      inner := StoreOf(sha, w, steps[1..]);
    } else {
      var step, w1, w' := steps[0], Apply(sha, w, steps[0]), Run(sha, w, steps);
      StepKeepsRefs(sha, w, step);
      if step.StreamStep? {
        Stream.StepKeepsInv(sha, w.stream, step.stream);
        StepGrows(sha, w.stream, step.stream);
        inner := StoreOf(sha, w1, steps[1..]);
        GrowsTransitive(w.stream, w1.stream, w'.stream);
      } else {
        var rest := StoreOf(sha, w1, steps[1..]);
        inner := [step.store] + rest;
        assert inner[1..] == rest;
        if step.store.ProjectEvent? {
          OutboxIsCreated(sha, w.stream, step.store.event);
          StillCreated(sha, w.stream, w'.stream, step.store.event.data);
        }
      }
    }
  }

  lemma GrowsReflexive(s: Stream.System)
    ensures Grows(s, s)
  {
  }

  // ---------------------------------------------------------------------------------------------
  // The round trip

  predicate IsDeltaOf(m: Uuid, frame: Frame) {
    frame.payload.MessageDelta? && frame.payload.messageId == m
  }

  predicate IsCompletionOf(m: Uuid, frame: Frame) {
    frame.payload.MessageCompleted? && frame.payload.messageId == m
  }

  /** Every delta of m that an agent has created carries the text that was passed under its number. */
  ghost predicate IsStreamed(s: Stream.System, m: Uuid, texts: seq<string>) {
    forall k, i | k in s.agents && 0 <= i < |s.agents[k].created| && IsDeltaOf(m, s.agents[k].created[i]) ::
      var delta := s.agents[k].created[i].payload;
      1 <= delta.chunkSequence <= |texts| && delta.contentUtf8 == Encode(texts[delta.chunkSequence - 1])
  }

  /** Some agent has created a completion of m that counts n chunks. */
  ghost predicate IsCounted(s: Stream.System, m: Uuid, n: nat) {
    exists k, i | k in s.agents && 0 <= i < |s.agents[k].created| && IsCompletionOf(m, s.agents[k].created[i]) ::
      s.agents[k].created[i].payload.chunkCount == n
  }

  lemma CreatedDelta(sha: seq<Byte> -> Digest, s: Stream.System, m: Uuid, texts: seq<string>, data: EventData)
    requires IsCreated(sha, s, data) && IsStreamed(s, m, texts) && data.DeltaEvent? && data.messageId == m
    ensures 1 <= data.chunkSequence <= |texts| && data.content == texts[data.chunkSequence - 1]
  {
    var k: AttemptKey, i: nat :| IsSource(sha, s, data, k, i);
    assert IsDeltaOf(m, s.agents[k].created[i]);
    DecodeInvertsEncode(texts[data.chunkSequence - 1]);
  }

  lemma CreatedCompletion(sha: seq<Byte> -> Digest, s: Stream.System, m: Uuid, data: EventData)
    requires IsCreated(sha, s, data) && data.CompletedEvent? && data.messageId == m && data.chunkCount.Some?
    ensures IsCounted(s, m, data.chunkCount.value)
  {
    var k: AttemptKey, i: nat :| IsSource(sha, s, data, k, i);
    assert IsCompletionOf(m, s.agents[k].created[i]);
  }

  /** A completed assistant message holds as many texts as a completion that an agent has created counts. */
  ghost predicate HoldsPassedTexts(w: World, m: Uuid, texts: seq<string>) {
    m in w.store.messages && w.store.messages[m].role == Store.Assistant
    && w.store.messages[m].status == Store.Completed ==>
      exists n: nat :: IsCounted(w.stream, m, n) && Texts.Holds(w.store, m, texts, n)
  }

  /**
   From delta to the stored message, across retransmission, reconnection, fencing and at-least-once
   delivery: if the deltas of a message carry what was passed to delta, a completed assistant message
   holds exactly the concatenation of the first n texts, with n the count of a completion that an agent
   has created, whatever those completions say.
   */
  lemma TextSurvives(sha: seq<Byte> -> Digest, steps: seq<Step>, m: Uuid, texts: seq<string>)
    requires IsStreamed(Run(sha, START, steps).stream, m, texts)
    ensures HoldsPassedTexts(Run(sha, START, steps), m, texts)
  {
    hide Run, Stream.Inv, IsStreamed, IsCreated, IsCounted, Texts.Holds;
    Stream.InitialInv(sha);
    var w := Run(sha, START, steps);
    var inner := StoreOf(sha, START, steps);
    forall i | 0 <= i < |inner| ensures Texts.CarriesText(m, texts, inner[i]) {
      if inner[i].ProjectEvent? && inner[i].event.data.DeltaEvent? && inner[i].event.data.messageId == m {
        CreatedDelta(sha, w.stream, m, texts, inner[i].event.data);
      }
    }
    Texts.StoredTextIsPassedText(sha, inner, m, texts);
    forall n | n in Texts.CountsOf(m, inner) ensures IsCounted(w.stream, m, n) {
      var i :| 0 <= i < |inner| && Texts.IsCompletionOf(m, inner[i]) && inner[i].event.data.chunkCount.value == n;
      CreatedCompletion(sha, w.stream, m, inner[i].event.data);
    }
  }

  /** Every frame about m that an agent has created is one that its message stream sends. */
  ghost predicate IsFromOneStream(sha: seq<Byte> -> Digest, s: Stream.System, m: Uuid, texts: seq<string>) {
    forall k, i | k in s.agents && 0 <= i < |s.agents[k].created|
                  && (IsDeltaOf(m, s.agents[k].created[i]) || IsCompletionOf(m, s.agents[k].created[i])) ::
      Sdk.IsFromStream(sha, m, texts, s.agents[k].created[i].payload)
  }

  /**
   With all frames from one message stream, as MessageStream keeps them, the content is that of a
   completion that Complete has sent, which covers all texts passed at that call: the stored text is
   the text that was completed.
   */
  lemma CompletedTextSurvives(sha: seq<Byte> -> Digest, steps: seq<Step>, m: Uuid, texts: seq<string>)
    requires IsFromOneStream(sha, Run(sha, START, steps).stream, m, texts)
    ensures var w := Run(sha, START, steps);
            m in w.store.messages && w.store.messages[m].role == Store.Assistant
            && w.store.messages[m].status == Store.Completed ==>
              exists n: nat :: n <= |texts| && IsCounted(w.stream, m, n)
                  && w.store.messages[m].content == Concat(texts[..n])
                  && IsSent(w.stream, Sdk.CompletionOf(sha, m, texts[..n]))
  {
    hide Run, Concat, Encode;
    var w := Run(sha, START, steps);
    assert IsStreamed(w.stream, m, texts);
    TextSurvives(sha, steps, m, texts);
    if m in w.store.messages && w.store.messages[m].role == Store.Assistant
        && w.store.messages[m].status == Store.Completed {
      var n: nat :| IsCounted(w.stream, m, n) && Texts.Holds(w.store, m, texts, n);
      var k, i :| k in w.stream.agents && 0 <= i < |w.stream.agents[k].created|
                  && IsCompletionOf(m, w.stream.agents[k].created[i])
                  && w.stream.agents[k].created[i].payload.chunkCount == n;
      assert w.stream.agents[k].created[i].payload == Sdk.CompletionOf(sha, m, texts[..n]);
      assert IsSent(w.stream, Sdk.CompletionOf(sha, m, texts[..n]));
    }
  }

  ghost predicate IsSent(s: Stream.System, payload: Payload) {
    exists k, i :: k in s.agents && 0 <= i < |s.agents[k].created| && s.agents[k].created[i].payload == payload
  }
}
