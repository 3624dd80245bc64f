/**
 The text of a message, from the texts an agent passes to delta to the content the conversation
 service stores: what is stored is what was passed, and once every delta has arrived, in whatever
 order and however often, the completion is accepted.
 */
module TextRoundTrip {
  import opened Wrappers
  import opened Utf8
  import opened Protocol
  import RuntimeApi
  import opened AgentSdk
  import opened ConversationStore
  import opened Presentation

  predicate IsAbout(data: EventData, m: Uuid) {
    match data
    case StartedEvent(id) => id == m
    case DeltaEvent(id, _, _) => id == m
    case CompletedEvent(id, _, _, _, _) => id == m
    case InterruptedEvent(id, _) => id == m
    case FailedEvent(id, _) => id == m
    case _ => false
  }

  /** Whether a completion event covers exactly these texts; the event leaves out counts that are zero. */
  predicate Covers(sha: seq<Byte> -> Digest, data: EventData, texts: seq<string>)
    requires data.CompletedEvent?
  {
    && data.content == Concat(texts) && data.chunkCount == RuntimeApi.IfNonzero(|texts|)
    && data.contentBytes == RuntimeApi.IfNonzero(Size(data.content)) && data.contentSha256 == sha(Encode(data.content))
  }

  /** The data of the events that a message stream with these texts gives rise to. */
  predicate IsStreamData(sha: seq<Byte> -> Digest, m: Uuid, texts: seq<string>, data: EventData) {
    match data
    case StartedEvent(id) => id == m
    case DeltaEvent(id, n, content) => id == m && 1 <= n <= |texts| && content == texts[n - 1]
    case CompletedEvent(id, _, count, _, _) =>
      id == m && var n := if count.Some? then count.value else 0; n <= |texts| && Covers(sha, data, texts[..n])
    case InterruptedEvent(id, _) => id == m
    case _ => false
  }

  /** Decoding in the Runtime API gives the SDK's texts back. */
  lemma StreamDataRoundTrip(sha: seq<Byte> -> Digest, m: Uuid, texts: seq<string>, payload: Payload)
    requires IsFromStream(sha, m, texts, payload) && RuntimeApi.IsEvent(payload)
    requires RuntimeApi.Refusal(sha, payload).None?
    ensures IsStreamData(sha, m, texts, RuntimeApi.DataOf(sha, payload))
  {
    match payload {
      case MessageDelta(_, n, _) => DecodeInvertsEncode(texts[n - 1]);
      case MessageCompleted(_, _, n, _, _) => DecodeInvertsEncode(Concat(texts[..n]));
      case _ =>
    }
  }

  // ---------------------------------------------------------------------------------------------
  // Chunks are texts

  ghost predicate ChunksAre(chunks: map<nat, string>, texts: seq<string>) {
    forall n | n in chunks :: 1 <= n <= |texts| && chunks[n] == texts[n - 1]
  }

  lemma {:induction false} NumberedChunksAreText(chunks: map<nat, string>, texts: seq<string>, n: nat)
    requires ChunksAre(chunks, texts) && n <= |texts| && forall i | 1 <= i <= n :: i in chunks
    ensures TextUpTo(chunks, n) == Concat(texts[..n])
    decreases n
  {
    if n > 0 {
      NumberedChunksAreText(chunks, texts, n - 1);
      ConcatAppend(texts[..n - 1], texts[n - 1]);
      assert texts[..n] == texts[..n - 1] + [texts[n - 1]];
    }
  }

  // ---------------------------------------------------------------------------------------------
  // What is stored is what was passed

  /** A delta of message m carries the text that its stream was passed under that number. */
  predicate CarriesText(m: Uuid, texts: seq<string>, step: Step) {
    step.ProjectEvent? && step.event.data.DeltaEvent? && step.event.data.messageId == m ==>
      1 <= step.event.data.chunkSequence <= |texts|
      && step.event.data.content == texts[step.event.data.chunkSequence - 1]
  }

  predicate IsCompletionOf(m: Uuid, step: Step) {
    step.ProjectEvent? && step.event.data.CompletedEvent? && step.event.data.messageId == m
    && step.event.data.chunkCount.Some?
  }

  /** The chunk counts that the completion events of m name. */
  function CountsOf(m: Uuid, steps: seq<Step>): set<nat> {
    set i | 0 <= i < |steps| && IsCompletionOf(m, steps[i]) :: steps[i].event.data.chunkCount.value
  }

  /** The message holds the first n texts, all of which are there, and no other chunk. */
  ghost predicate Holds(s: Store, m: Uuid, texts: seq<string>, n: nat)
    requires m in s.messages
  {
    n <= |texts| && AreNumbered(ChunksOf(s, m), n) && s.messages[m].content == Concat(texts[..n])
  }

  /** A completed assistant message holds as many texts as one of the counts says. */
  ghost predicate ContentOk(s: Store, m: Uuid, texts: seq<string>, counts: set<nat>) {
    m in s.messages && s.messages[m].role == Assistant && s.messages[m].status == Completed ==>
      exists n | n in counts :: Holds(s, m, texts, n)
  }

  ghost predicate TextInv(s: Store, m: Uuid, texts: seq<string>, counts: set<nat>) {
    ChunksAre(ChunksOf(s, m), texts) && ContentOk(s, m, texts, counts)
  }

  predicate IsMessageData(data: EventData) {
    data.StartedEvent? || data.DeltaEvent? || data.CompletedEvent? || data.InterruptedEvent? || data.FailedEvent?
  }

  /** Proposals and suspensions touch neither messages nor chunks. */
  lemma QuietFrame(sha: seq<Byte> -> Digest, s: Store, e: Envelope)
    requires Refs(s) && e.conversationId in s.conversations && ProjectData(sha, s, e).Ok? && !IsMessageData(e.data)
    ensures var s' := ProjectData(sha, s, e).value.store; s'.messages == s.messages && s'.chunks == s.chunks
  {
    assert !e.data.OtherEvent?;
    hide ProjectData;
    if e.data.ProposedEvent? {
      ProposalFrame(sha, s, e);
    } else {
      SagaFrame(sha, s, e);
    }
  }

  /** Events about a message touch no other message. */
  lemma OtherMessageFrame(sha: seq<Byte> -> Digest, s: Store, e: Envelope, m: Uuid)
    requires Refs(s) && e.conversationId in s.conversations && ProjectData(sha, s, e).Ok? && !IsAbout(e.data, m)
    ensures var s' := ProjectData(sha, s, e).value.store;
            && ChunksOf(s', m) == ChunksOf(s, m) && (m in s'.messages <==> m in s.messages)
            && (m in s.messages ==> s'.messages[m] == s.messages[m])
  {
    hide ProjectData;
    if !IsMessageData(e.data) {
      QuietFrame(sha, s, e);
    } else if e.data.DeltaEvent? {
      DeltaFrame(sha, s, e);
    } else {
      MessageFrame(sha, s, e);
    }
  }

  /** What an event does to the chunks and the row of one message. */
  lemma ProjectText(sha: seq<Byte> -> Digest, s: Store, e: Envelope, m: Uuid)
    requires Refs(s) && e.conversationId in s.conversations && ProjectData(sha, s, e).Ok?
    ensures var s' := ProjectData(sha, s, e).value.store;
            && (ChunksOf(s', m) == ChunksOf(s, m)
                || (e.data.DeltaEvent? && e.data.messageId == m && m in s.messages && s.messages[m].status == Streaming
                    && s'.messages == s.messages
                    && ChunksOf(s', m) == ChunksOf(s, m)[e.data.chunkSequence := e.data.content]))
            && (m in s'.messages && s'.messages[m].status == Completed ==>
                  || (m in s.messages && s'.messages[m] == s.messages[m])
                  || (e.data.CompletedEvent? && e.data.messageId == m && s'.messages[m].content == e.data.content
                      && ChunksOf(s', m) == ChunksOf(s, m) && CompletionProblem(sha, e.data, ChunksOf(s, m)) == None))
  {
    hide ProjectData, Refs, IsChange, CompletionProblem;
    if !IsAbout(e.data, m) {
      OtherMessageFrame(sha, s, e, m);
    } else if e.data.StartedEvent? {
      StartedFrame(sha, s, e);
    } else if e.data.DeltaEvent? {
      DeltaFrame(sha, s, e);
    } else {
      EndText(sha, s, e);
    }
  }

  lemma EndText(sha: seq<Byte> -> Digest, s: Store, e: Envelope)
    requires Refs(s) && e.conversationId in s.conversations && ProjectData(sha, s, e).Ok?
    requires e.data.CompletedEvent? || e.data.InterruptedEvent? || e.data.FailedEvent?
    ensures var s' := ProjectData(sha, s, e).value.store; var m := e.data.messageId;
            && s'.chunks == s.chunks && m in s'.messages
            && (s'.messages[m].status == Completed ==>
                  e.data.CompletedEvent? && s'.messages[m].content == e.data.content
                  && CompletionProblem(sha, e.data, ChunksOf(s, m)) == None)
  {
    hide ProjectData, Refs, IsChange, CompletionProblem;
    if e.data.CompletedEvent? {
      CompletedFrame(sha, s, e);
    } else {
      EndedFrame(sha, s, e);
    }
  }

  /** A valid completion says exactly what the stored chunks say. */
  lemma ValidCompletionIsText(sha: seq<Byte> -> Digest, data: EventData, chunks: map<nat, string>, texts: seq<string>)
    requires data.CompletedEvent? && CompletionProblem(sha, data, chunks) == None && ChunksAre(chunks, texts)
    ensures data.chunkCount.Some? && AreNumbered(chunks, data.chunkCount.value)
    ensures data.chunkCount.value <= |texts| && data.content == Concat(texts[..data.chunkCount.value])
  {
    hide Encode;
    var n := data.chunkCount.value;
    assert n >= 1 ==> n in chunks;
    NumberedChunksAreText(chunks, texts, n);
  }

  lemma ProjectKeepsText(
    sha: seq<Byte> -> Digest, s: Store, e: Envelope, m: Uuid, texts: seq<string>, counts: set<nat>)
    requires Refs(s) && TextInv(s, m, texts, counts) && e.conversationId in s.conversations
             && ProjectData(sha, s, e).Ok?
    requires CarriesText(m, texts, ProjectEvent(e))
    requires IsCompletionOf(m, ProjectEvent(e)) ==> e.data.chunkCount.value in counts
    ensures TextInv(ProjectData(sha, s, e).value.store, m, texts, counts)
  {
    var s' := ProjectData(sha, s, e).value.store;
    if m in s.messages {
      ProjectKeepsMessage(sha, s, e, m);
    }
    hide ProjectData, Refs, CompletionProblem, ChunksOf, AreNumbered, Concat;
    ProjectText(sha, s, e, m);
    if m in s'.messages && s'.messages[m].status == Completed && s'.messages[m].role == Assistant {
      if m in s.messages && s'.messages[m] == s.messages[m] {
        var n :| n in counts && Holds(s, m, texts, n);
        assert Holds(s', m, texts, n);
      } else {
        ValidCompletionIsText(sha, e.data, ChunksOf(s, m), texts);
        assert IsCompletionOf(m, ProjectEvent(e)) && Holds(s', m, texts, e.data.chunkCount.value);
      }
    }
  }

  lemma SameTablesText(s: Store, s': Store, m: Uuid, texts: seq<string>, counts: set<nat>)
    requires TextInv(s, m, texts, counts) && s'.chunks == s.chunks
    requires m in s'.messages && s'.messages[m].role == Assistant ==> m in s.messages && s'.messages[m] == s.messages[m]
    ensures TextInv(s', m, texts, counts)
  {
    hide AreNumbered, Concat;
    if m in s'.messages && s'.messages[m].role == Assistant && s'.messages[m].status == Completed {
      var n :| n in counts && Holds(s, m, texts, n);
      assert Holds(s', m, texts, n);
    }
  }

  lemma StepKeepsText(
    sha: seq<Byte> -> Digest, s: Store, step: Step, m: Uuid, texts: seq<string>, counts: set<nat>)
    requires Refs(s) && TextInv(s, m, texts, counts) && CarriesText(m, texts, step)
    requires IsCompletionOf(m, step) ==> step.event.data.chunkCount.value in counts
    ensures TextInv(Apply(sha, s, step), m, texts, counts)
  {
    hide Project, Post, AnswerInput, ProjectData, Finish, Refs, TextInv, CarriesText;
    var s' := Apply(sha, s, step);
    if step.OpenConversation? {
      SameTablesText(s, s', m, texts, counts);
    } else {
      var c := StepShape(sha, s, step);
      FinishTables(c);
      hide Apply;
      if step.ProjectEvent? && s' != s {
        ProjectKeepsText(sha, s, step.event, m, texts, counts);
        SameTablesText(c.store, s', m, texts, counts);
      } else {
        SameTablesText(s, s', m, texts, counts);
      }
    }
  }

  lemma {:induction false} RunKeepsText(
    sha: seq<Byte> -> Digest, s: Store, steps: seq<Step>, m: Uuid, texts: seq<string>, counts: set<nat>)
    requires Refs(s) && TextInv(s, m, texts, counts) && forall i | 0 <= i < |steps| :: CarriesText(m, texts, steps[i])
    requires CountsOf(m, steps) <= counts
    ensures TextInv(Run(sha, s, steps), m, texts, counts)
    decreases |steps|
  {
    hide Refs, Apply, TextInv, CarriesText;
    if steps != [] {
      StepKeepsRefs(sha, s, steps[0]);
      assert IsCompletionOf(m, steps[0]) ==> steps[0].event.data.chunkCount.value in CountsOf(m, steps);
      StepKeepsText(sha, s, steps[0], m, texts, counts);
      forall n | n in CountsOf(m, steps[1..]) ensures n in counts {
        var i :| 0 <= i < |steps[1..]| && IsCompletionOf(m, steps[1..][i])
            && steps[1..][i].event.data.chunkCount.value == n;
        assert steps[i + 1] == steps[1..][i];
        assert n in CountsOf(m, steps);
      }
      RunKeepsText(sha, Apply(sha, s, steps[0]), steps[1..], m, texts, counts);
    }
  }

  /**
   Whatever else happens, and whatever completions say: if the deltas of a message carry the texts of
   its stream, a completed assistant message holds exactly the concatenation of the first n texts, has
   exactly the chunks 1..n, and n is what a completion event of the message counts.
   */
  lemma StoredTextIsPassedText(sha: seq<Byte> -> Digest, steps: seq<Step>, m: Uuid, texts: seq<string>)
    requires forall i | 0 <= i < |steps| :: CarriesText(m, texts, steps[i])
    ensures ContentOk(Run(sha, EMPTY, steps), m, texts, CountsOf(m, steps))
  {
    hide Run, CountsOf;
    RunKeepsText(sha, EMPTY, steps, m, texts, CountsOf(m, steps));
  }

  // ---------------------------------------------------------------------------------------------
  // When every delta has arrived, the completion is accepted

  /** Up to its end, m is only started and added to, by its own stream, in done's conversation; ids name events. */
  ghost predicate IsOngoing(eventOf: Uuid -> Envelope, sha: seq<Byte> -> Digest, done: Envelope, texts: seq<string>,
      step: Step)
    requires done.data.CompletedEvent?
  {
    var m := done.data.messageId;
    && (step.PostMessage? ==> step.messageId != m)
    && (step.ProjectEvent? ==>
          && step.event == eventOf(step.event.id)
          && (IsAbout(step.event.data, m) ==>
                && (step.event.data.StartedEvent? || step.event.data.DeltaEvent?)
                && IsStreamData(sha, m, texts, step.event.data)
                && step.event.userId == done.userId && step.event.conversationId == done.conversationId
                && step.event.threadId == done.threadId))
  }

  predicate IsStarted(s: Store, done: Envelope)
    requires done.data.CompletedEvent?
  {
    var m := done.data.messageId;
    && m in s.messages && s.messages[m].conversationId == done.conversationId && s.messages[m].status == Streaming
    && Owned(s, done.userId, done.conversationId) && s.conversations[done.conversationId].threadId == done.threadId
  }

  /** Every delta that has been projected is a chunk; the completion has not been projected. */
  ghost predicate OngoingInv(eventOf: Uuid -> Envelope, s: Store, done: Envelope, texts: seq<string>)
    requires done.data.CompletedEvent?
  {
    var m := done.data.messageId;
    && (m in s.messages ==> IsStarted(s, done))
    && ChunksAre(ChunksOf(s, m), texts)
    && done.id !in s.inbox
    && forall id | id in s.inbox && eventOf(id).data.DeltaEvent? && eventOf(id).data.messageId == m ::
         eventOf(id).data.chunkSequence in ChunksOf(s, m)
  }

  lemma DeltaIsStored(sha: seq<Byte> -> Digest, s: Store, done: Envelope, texts: seq<string>, e: Envelope)
    requires Refs(s) && done.data.CompletedEvent? && IsStarted(s, done) && Sendable(texts)
    requires ChunksAre(ChunksOf(s, done.data.messageId), texts)
    requires e.data.DeltaEvent? && IsStreamData(sha, done.data.messageId, texts, e.data) && e.id !in s.inbox
    requires e.userId == done.userId && e.conversationId == done.conversationId && e.threadId == done.threadId
    ensures e.data.chunkSequence in ChunksOf(Project(sha, s, e).0, done.data.messageId)
  {
    hide Encode, Refs;
  }

  lemma ProjectKeepsOngoing(
    sha: seq<Byte> -> Digest, eventOf: Uuid -> Envelope, s: Store, done: Envelope, texts: seq<string>, e: Envelope,
        c: Change)
    requires Refs(s) && done.data.CompletedEvent? && OngoingInv(eventOf, s, done, texts)
    requires done == eventOf(done.id) && IsOngoing(eventOf, sha, done, texts, ProjectEvent(e))
    requires Owned(s, e.userId, e.conversationId) && ProjectData(sha, s, e) == Ok(c)
    requires e.threadId == s.conversations[e.conversationId].threadId
    ensures OngoingInv(eventOf, c.store.(inbox := s.inbox + {e.id}), done, texts)
  {
    hide ProjectData, IsStreamData, Refs;
    if !IsAbout(e.data, done.data.messageId) {
      OtherMessageFrame(sha, s, e, done.data.messageId);
      hide ChunksOf;
    } else {
      AboutKeepsOngoing(sha, eventOf, s, done, texts, e, c);
    }
  }

  lemma AboutKeepsOngoing(
    sha: seq<Byte> -> Digest, eventOf: Uuid -> Envelope, s: Store, done: Envelope, texts: seq<string>, e: Envelope,
        c: Change)
    requires Refs(s) && done.data.CompletedEvent? && OngoingInv(eventOf, s, done, texts)
             && IsAbout(e.data, done.data.messageId)
    requires done == eventOf(done.id) && IsOngoing(eventOf, sha, done, texts, ProjectEvent(e))
    requires Owned(s, e.userId, e.conversationId) && ProjectData(sha, s, e) == Ok(c)
    requires e.threadId == s.conversations[e.conversationId].threadId
    ensures OngoingInv(eventOf, c.store.(inbox := s.inbox + {e.id}), done, texts)
  {
    hide ProjectData, IsStreamData, Refs, IsChange;
    if e.data.StartedEvent? {
      StartedFrame(sha, s, e);
    } else {
      DeltaFrame(sha, s, e);
      StreamDelta(sha, done.data.messageId, texts, e.data);
    }
  }

  lemma StreamDelta(sha: seq<Byte> -> Digest, m: Uuid, texts: seq<string>, data: EventData)
    requires data.DeltaEvent? && IsStreamData(sha, m, texts, data)
    ensures 1 <= data.chunkSequence <= |texts| && data.content == texts[data.chunkSequence - 1]
  {
  }

  /** What the invariant looks at is the message, its chunks, its conversation's owner and the inbox. */
  lemma OngoingTransfers(eventOf: Uuid -> Envelope, s: Store, s': Store, done: Envelope, texts: seq<string>)
    requires done.data.CompletedEvent? && OngoingInv(eventOf, s, done, texts)
    requires var m := done.data.messageId;
             && (m in s'.messages <==> m in s.messages)
             && (m in s.messages ==> s'.messages[m] == s.messages[m])
    requires s'.chunks == s.chunks && s'.inbox == s.inbox
    requires done.conversationId in s.conversations ==> SameOwner(s, s', done.conversationId)
    ensures OngoingInv(eventOf, s', done, texts)
  {
  }

  lemma OngoingPost(
    sha: seq<Byte> -> Digest, eventOf: Uuid -> Envelope, done: Envelope, texts: seq<string>, step: Step)
    requires done.data.CompletedEvent? && IsOngoing(eventOf, sha, done, texts, step) && step.PostMessage?
    ensures step.messageId != done.data.messageId
  {
  }

  lemma StepKeepsOngoing(
    sha: seq<Byte> -> Digest, eventOf: Uuid -> Envelope, s: Store, done: Envelope, texts: seq<string>, step: Step)
    requires Refs(s) && done.data.CompletedEvent? && OngoingInv(eventOf, s, done, texts)
    requires done == eventOf(done.id) && IsOngoing(eventOf, sha, done, texts, step)
    ensures OngoingInv(eventOf, Apply(sha, s, step), done, texts)
  {
    hide Project, Post, AnswerInput, ProjectData, Finish, Refs, OngoingInv, Extends, IsOngoing, SameOwner;
    var s' := Apply(sha, s, step);
    if step.OpenConversation? {
      OpenKeepsOwner(s, step.conv, step.ownerId, step.threadId, done.conversationId);
      OngoingTransfers(eventOf, s, s', done, texts);
    } else {
      var c := StepShape(sha, s, step);
      FinishTables(c);
      FinishExtends(s, c, s', done.conversationId);
      hide Apply;
      if step.ProjectEvent? && s' != s {
        ProjectKeepsOngoing(sha, eventOf, s, done, texts, step.event, c);
        ChangeKeepsOwner(s, c.store.(inbox := s'.inbox), s', done.conversationId);
        OngoingTransfers(eventOf, c.store.(inbox := s'.inbox), s', done, texts);
      } else {
        if step.PostMessage? {
          OngoingPost(sha, eventOf, done, texts, step);
        }
        OngoingTransfers(eventOf, s, s', done, texts);
      }
    }
  }

  lemma OpenKeepsOwner(s: Store, conv: Uuid, ownerId: Uuid, threadId: Uuid, at: Uuid)
    ensures at in s.conversations ==> SameOwner(s, Open(s, conv, ownerId, threadId).0, at)
  {
  }

  lemma ChangeKeepsOwner(s: Store, changed: Store, s': Store, at: Uuid)
    requires changed.conversations == s.conversations && (at in s.conversations ==> SameOwner(s, s', at))
    ensures at in changed.conversations ==> SameOwner(changed, s', at)
  {
  }

  lemma StepKeepsChunks(sha: seq<Byte> -> Digest, s: Store, step: Step, m: Uuid)
    requires Refs(s)
    ensures forall n | n in ChunksOf(s, m) :: n in ChunksOf(Apply(sha, s, step), m)
  {
    hide Project, Post, AnswerInput, ProjectData, Finish, Refs;
    if !step.OpenConversation? {
      var c := StepShape(sha, s, step);
      FinishTables(c);
      hide Apply;
      if step.ProjectEvent? && c != Silent(s) {
        ProjectText(sha, s, step.event, m);
      }
    }
  }

  /** Whether step delivers the n-th delta of done's message. */
  predicate BringsDelta(step: Step, done: Envelope, n: nat)
    requires done.data.CompletedEvent?
  {
    step.ProjectEvent? && step.event.data.DeltaEvent? && step.event.data.messageId == done.data.messageId
    && step.event.data.chunkSequence == n
  }

  predicate IsBrought(steps: seq<Step>, done: Envelope, n: nat)
    requires done.data.CompletedEvent?
  {
    exists i | 0 <= i < |steps| :: BringsDelta(steps[i], done, n)
  }

  ghost predicate AllBrought(steps: seq<Step>, done: Envelope, chunks: map<nat, string>)
    requires done.data.CompletedEvent?
  {
    forall i, n | 0 <= i < |steps| && BringsDelta(steps[i], done, n) :: n in chunks
  }

  lemma {:induction false} RunKeepsOngoing(
    sha: seq<Byte> -> Digest, eventOf: Uuid -> Envelope, s: Store, done: Envelope, texts: seq<string>, steps: seq<Step>)
    requires Refs(s) && done.data.CompletedEvent? && OngoingInv(eventOf, s, done, texts) && Sendable(texts)
    requires done == eventOf(done.id) && forall i | 0 <= i < |steps| :: IsOngoing(eventOf, sha, done, texts, steps[i])
    ensures var s', m := Run(sha, s, steps), done.data.messageId;
            && OngoingInv(eventOf, s', done, texts)
            && (forall n | n in ChunksOf(s, m) :: n in ChunksOf(s', m))
            && (m in s.messages ==> m in s'.messages && AllBrought(steps, done, ChunksOf(s', m)))
    decreases |steps|
  {
    hide Refs, Apply, OngoingInv, IsOngoing, ChunksOf;
    var m := done.data.messageId;
    if steps != [] {
      var step, s1, rest := steps[0], Apply(sha, s, steps[0]), steps[1..];
      StepKeepsRefs(sha, s, step);
      StepKeepsOngoing(sha, eventOf, s, done, texts, step);
      StepKeepsChunks(sha, s, step, m);
      RunKeepsOngoing(sha, eventOf, s1, done, texts, rest);
      if m in s.messages {
        StepKeepsMessage(sha, s, step, m);
        if step.ProjectEvent? && step.event.data.DeltaEvent? && step.event.data.messageId == m {
          DeltaStep(sha, eventOf, s, done, texts, step);
        }
        assert forall i | 1 <= i < |steps| :: steps[i] == rest[i - 1];
      }
    }
  }

  lemma DeltaStep(
    sha: seq<Byte> -> Digest, eventOf: Uuid -> Envelope, s: Store, done: Envelope, texts: seq<string>, step: Step)
    requires Refs(s) && done.data.CompletedEvent? && OngoingInv(eventOf, s, done, texts) && Sendable(texts)
    requires IsOngoing(eventOf, sha, done, texts, step) && done.data.messageId in s.messages
    requires step.ProjectEvent? && step.event.data.DeltaEvent? && step.event.data.messageId == done.data.messageId
    ensures step.event.data.chunkSequence in ChunksOf(Apply(sha, s, step), done.data.messageId)
  {
    hide Refs, ProjectData;
    if step.event.id !in s.inbox {
      DeltaIsStored(sha, s, done, texts, step.event);
    }
  }

  /**
   From the moment a message has started, once all 1..n deltas of its stream have been delivered, in
   any order, repeated, and mixed with anything about other messages, the completion the SDK sends
   is accepted, with the whole text, if and only if there was a delta at all.
   */
  lemma AllDeltasComplete(
    sha: seq<Byte> -> Digest, eventOf: Uuid -> Envelope, before: seq<Step>, after: seq<Step>, done: Envelope,
    texts: seq<string>)
    requires done.data.CompletedEvent? && done == eventOf(done.id) && Covers(sha, done.data, texts)
    requires Sendable(texts) && |texts| <= MAX_CHUNKS && Size(Concat(texts)) <= ConversationStore.MAX_MESSAGE_BYTES
    requires forall i | 0 <= i < |before| :: IsOngoing(eventOf, sha, done, texts, before[i])
    requires forall i | 0 <= i < |after| :: IsOngoing(eventOf, sha, done, texts, after[i])
    requires done.data.messageId in Run(sha, EMPTY, before).messages
    requires forall n | 1 <= n <= |texts| :: IsBrought(after, done, n)
    ensures var s := Run(sha, Run(sha, EMPTY, before), after); var (s', outcome) := Project(sha, s, done);
            var m := done.data.messageId;
            if texts == [] then s' == s && outcome == Err("completion_invalid")
            else
              && outcome.Ok? && outcome.value.Some?
              && s'.messages[m] == s.messages[m].(status := Completed, content := Concat(texts))
  {
    hide Run, IsOngoing, Project, ChunksOf;
    var m := done.data.messageId;
    RunKeepsOngoing(sha, eventOf, EMPTY, done, texts, before) by {
      EmptyIsOngoing(eventOf, done, texts);
    }
    var s0 := Run(sha, EMPTY, before);
    RunKeepsOngoing(sha, eventOf, s0, done, texts, after);
    var s := Run(sha, s0, after);
    forall n | 1 <= n <= |texts| ensures n in ChunksOf(s, m) {
      assert IsBrought(after, done, n);
    }
    if texts == [] {
      EmptyIsRefused(sha, s, done);
    } else {
      CompletionIsAccepted(sha, s, done, texts);
    }
  }

  /** The completion of a stream without deltas lacks its counts, and is refused whatever is stored. */
  lemma EmptyIsRefused(sha: seq<Byte> -> Digest, s: Store, done: Envelope)
    requires Refs(s) && done.data.CompletedEvent? && Covers(sha, done.data, []) && IsStarted(s, done)
             && done.id !in s.inbox
    ensures Project(sha, s, done) == (s, Err("completion_invalid"))
  {
    hide Encode, Refs, IsChange, ChunksOf;
  }

  lemma EmptyIsOngoing(eventOf: Uuid -> Envelope, done: Envelope, texts: seq<string>)
    requires done.data.CompletedEvent?
    ensures OngoingInv(eventOf, EMPTY, done, texts)
  {
  }

  lemma CompletionIsAccepted(sha: seq<Byte> -> Digest, s: Store, done: Envelope, texts: seq<string>)
    requires Refs(s) && done.data.CompletedEvent? && Covers(sha, done.data, texts)
    requires texts != [] && Sendable(texts) && |texts| <= MAX_CHUNKS
    requires Size(Concat(texts)) <= ConversationStore.MAX_MESSAGE_BYTES
    requires IsStarted(s, done) && done.id !in s.inbox && ChunksAre(ChunksOf(s, done.data.messageId), texts)
    requires forall n | 1 <= n <= |texts| :: n in ChunksOf(s, done.data.messageId)
    ensures var (s', outcome) := Project(sha, s, done); var m := done.data.messageId;
            && outcome.Ok? && outcome.value.Some? && m in s'.messages
            && s'.messages[m] == s.messages[m].(status := Completed, content := Concat(texts))
  {
    hide TextUpTo, Concat, Encode, ChunksAre, ChunksOf, Project, CompletionProblem, IsStarted, Refs;
    CompletionIsValid(sha, done.data, ChunksOf(s, done.data.messageId), texts);
    ValidIsAccepted(sha, s, done);
  }

  lemma ValidIsAccepted(sha: seq<Byte> -> Digest, s: Store, done: Envelope)
    requires Refs(s) && done.data.CompletedEvent? && IsStarted(s, done) && done.id !in s.inbox
    requires CompletionProblem(sha, done.data, ChunksOf(s, done.data.messageId)) == None
    ensures var (s', outcome) := Project(sha, s, done); var m := done.data.messageId;
            && outcome.Ok? && outcome.value.Some? && m in s'.messages
            && s'.messages[m] == s.messages[m].(status := Completed, content := done.data.content)
  {
    hide CompletionProblem, ConfirmIfDone, Refs, IsChange, ChunksOf;
    assert ProjectData(sha, s, done).Ok?;
    hide ProjectData, Finish;
    CompletedFrame(sha, s, done);
    FinishTables(ProjectData(sha, s, done).value);
  }

  lemma CompletionIsValid(sha: seq<Byte> -> Digest, data: EventData, chunks: map<nat, string>, texts: seq<string>)
    requires data.CompletedEvent? && Covers(sha, data, texts)
    requires texts != [] && Sendable(texts) && |texts| <= MAX_CHUNKS
    requires Size(Concat(texts)) <= ConversationStore.MAX_MESSAGE_BYTES
    requires ChunksAre(chunks, texts) && forall n | 1 <= n <= |texts| :: n in chunks
    ensures CompletionProblem(sha, data, chunks) == None
  {
    CountAtMostSize(texts);
    hide TextUpTo, Concat, Encode;
    assert TextUpTo(chunks, |texts|) == Concat(texts) by {
      NumberedChunksAreText(chunks, texts, |texts|);
      assert texts[..|texts|] == texts;
    }
    assert AreNumbered(chunks, |texts|);
    hide ChunksAre, AreNumbered;
  }
}
