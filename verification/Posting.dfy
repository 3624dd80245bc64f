/**
 Posting a user message: it is stored, shown and turned into a run request once, however often the
 same request is repeated.
 */
module Posting {
  import opened Wrappers
  import opened Utf8
  import opened Protocol
  import opened ConversationStore
  import opened Presentation
  import Saga = InputSaga

  predicate IsRequestFor(event: OutEvent, m: Uuid) {
    event.RunRequested? && event.trigger.ByMessage? && event.trigger.messageId == m
  }

  /** The run requests that a user message has enqueued, in order. */
  function RequestsFor(outbox: seq<OutEvent>, m: Uuid): seq<OutEvent> {
    if outbox == [] then []
    else
      var last := outbox[|outbox| - 1];
      RequestsFor(outbox[..|outbox| - 1], m) + if IsRequestFor(last, m) then [last] else []
  }

  predicate IsPosted(s: Store, m: Uuid) {
    m in s.messages && s.messages[m].role == User
  }

  /** What a posted message asks the Runner for: a run of its own, for its owner, in its thread. */
  ghost predicate AsksForItsRun(s: Store, m: Uuid, sent: seq<OutEvent>)
    requires m in s.messages
  {
    var row := s.messages[m];
    && row.status == Completed && row.conversationId in s.conversations
    && var conv := s.conversations[row.conversationId];
       sent == [RunRequested(conv.ownerId, row.conversationId, conv.threadId, row.runId, ByMessage(m, row.content))]
  }

  ghost predicate RequestOk(s: Store, m: Uuid) {
    var sent := RequestsFor(s.outbox, m);
    if IsPosted(s, m) then AsksForItsRun(s, m, sent) else sent == []
  }

  /** The event with a number shows a message. */
  ghost predicate Shows(s: Store, conv: Uuid, sequence: nat, shown: Shown) {
    1 <= sequence <= |EventsOf(s, conv)| && EventsOf(s, conv)[sequence - 1] == PresentationEvent(sequence, shown)
  }

  /** What a key was used for is there as it was asked for, and shown under the number the key returns. */
  ghost predicate KeyOk(s: Store, key: IdempotencyKey)
    requires key in s.idempotency
  {
    var row := s.idempotency[key];
    key.operation.PostTo? ==>
      && row.request.NewMessage?
      && var (conv, post) := (key.operation.conversationId, row.request);
         && Owned(s, key.ownerId, conv)
         && post.messageId in s.messages
         && s.messages[post.messageId] == MessageRow(conv, post.runId, User, Completed, post.content)
         && Shows(s, conv, row.conversationSequence, UserMessage(post.messageId, post.content))
  }

  ghost predicate KeysOk(s: Store) {
    forall key | key in s.idempotency :: KeyOk(s, key)
  }

  ghost predicate AllNumbered(s: Store) {
    forall conv :: Numbered(s, conv)
  }

  // ---------------------------------------------------------------------------------------------
  // Run requests

  lemma RequestsAppend(outbox: seq<OutEvent>, event: OutEvent, m: Uuid)
    ensures RequestsFor(outbox + [event], m) == RequestsFor(outbox, m) + if IsRequestFor(event, m) then [event] else []
  {
    assert (outbox + [event])[..|outbox|] == outbox;
  }

  /** A step that neither posts m nor asks for a run for it keeps what is known of it. */
  lemma RequestKept(s: Store, s': Store, m: Uuid)
    requires RequestOk(s, m) && RequestsFor(s'.outbox, m) == RequestsFor(s.outbox, m)
    requires m in s.messages ==> MessageKept(s, s', m)
    requires m in s'.messages && m !in s.messages ==> s'.messages[m].role == Assistant
    requires m in s.messages && s.messages[m].conversationId in s.conversations ==>
               SameOwner(s, s', s.messages[m].conversationId)
    ensures RequestOk(s', m)
  {
    hide RequestsFor;
  }

  lemma NewMessages(sha: seq<Byte> -> Digest, s: Store, e: Envelope, m: Uuid)
    requires Refs(s) && e.conversationId in s.conversations && ProjectData(sha, s, e).Ok?
    ensures var s' := ProjectData(sha, s, e).value.store;
            m in s'.messages && m !in s.messages ==> s'.messages[m].role == Assistant
  {
    if e.data.StartedEvent? {
    } else {
      hide ProjectData;
      if e.data.ProposedEvent? {
        ProposalFrame(sha, s, e);
      } else if e.data.SuspendedEvent? || e.data.InputProposedEvent? {
        SagaFrame(sha, s, e);
      } else if e.data.DeltaEvent? {
        DeltaFrame(sha, s, e);
      } else if e.data.CompletedEvent? {
        CompletedFrame(sha, s, e);
      } else {
        EndedFrame(sha, s, e);
      }
    }
  }

  lemma PostedRequestOk(s: Store, s': Store, ownerId: Uuid, conv: Uuid, key: string, request: Request)
    requires request.NewMessage? && Owned(s, ownerId, conv) && request.messageId !in s.messages
             && RequestOk(s, request.messageId)
    requires var c := PostChange(s, ownerId, conv, key, request);
             s'.messages == c.store.messages && s'.outbox == c.store.outbox
    requires SameOwner(s, s', conv)
    ensures RequestOk(s', request.messageId)
  {
    RequestsAppend(s.outbox, s'.outbox[|s.outbox|], request.messageId);
    hide RequestsFor;
  }

  lemma StepKeepsRequest(sha: seq<Byte> -> Digest, s: Store, step: Step, m: Uuid)
    requires Refs(s) && RequestOk(s, m)
    ensures RequestOk(Apply(sha, s, step), m)
  {
    hide Project, AnswerInput, ProjectData, Finish, RequestsFor, RequestOk, Refs, PostChange;
    var s' := Apply(sha, s, step);
    if m in s.messages {
      StepKeepsMessage(sha, s, step, m);
      if s.messages[m].conversationId in s.conversations {
        Saga.StepKeepsOwner(sha, s, step, s.messages[m].conversationId);
      }
    }
    if step.OpenConversation? {
      RequestKept(s, s', m);
    } else {
      hide Post;
      var c := StepShape(sha, s, step);
      FinishTables(c);
      if c == Silent(s) {
        RequestKept(s, s', m);
      } else if step.ProjectEvent? {
        NewMessages(sha, s, step.event, m);
        var event := Saga.ProjectOutbox(sha, s, step.event);
        RequestsAppend(s.outbox, event, m);
        RequestKept(s, s', m);
      } else if step.PostMessage? {
        PostKeepsRequest(sha, s, step, c, m);
      } else {
        RequestsAppend(s.outbox, s'.outbox[|s.outbox|], m);
        RequestKept(s, s', m);
      }
    }
  }

  lemma PostKeepsRequest(sha: seq<Byte> -> Digest, s: Store, step: Step, c: Change, m: Uuid)
    requires Refs(s) && RequestOk(s, m) && step.PostMessage? && step.conv in s.conversations
             && step.messageId !in s.messages
    requires c == PostChange(s, step.ownerId, step.conv, step.key, NewMessage(step.messageId, step.runId, step.content))
    requires Owned(s, step.ownerId, step.conv)
    requires var s' := Apply(sha, s, step); s'.messages == c.store.messages && s'.outbox == c.store.outbox
    requires m in s.messages ==> MessageKept(s, Apply(sha, s, step), m)
    requires m in s.messages && s.messages[m].conversationId in s.conversations ==>
               SameOwner(s, Apply(sha, s, step), s.messages[m].conversationId)
    ensures RequestOk(Apply(sha, s, step), m)
  {
    hide Apply, RequestsFor, RequestOk;
    var s' := Apply(sha, s, step);
    Saga.StepKeepsOwner(sha, s, step, step.conv);
    if m == step.messageId {
      PostedRequestOk(s, s', step.ownerId, step.conv, step.key, NewMessage(step.messageId, step.runId, step.content));
    } else {
      RequestsAppend(s.outbox, s'.outbox[|s.outbox|], m);
      RequestKept(s, s', m);
    }
  }

  lemma {:induction false} RunKeepsRequest(sha: seq<Byte> -> Digest, s: Store, steps: seq<Step>, m: Uuid)
    requires Refs(s) && RequestOk(s, m)
    ensures RequestOk(Run(sha, s, steps), m)
    decreases |steps|
  {
    hide Refs, Apply, RequestOk;
    if steps != [] {
      StepKeepsRefs(sha, s, steps[0]);
      StepKeepsRequest(sha, s, steps[0], m);
      RunKeepsRequest(sha, Apply(sha, s, steps[0]), steps[1..], m);
    }
  }

  /**
   In every reachable store a posted message has enqueued exactly one run request, for its own run
   and text, in its owner's name; no other message has enqueued any.
   */
  lemma OneRunPerPost(sha: seq<Byte> -> Digest, steps: seq<Step>, m: Uuid)
    ensures var s := Run(sha, EMPTY, steps); var sent := RequestsFor(s.outbox, m);
            if IsPosted(s, m) then AsksForItsRun(s, m, sent) else sent == []
  {
    hide Run;
    RunKeepsRequest(sha, EMPTY, steps, m);
  }

  // ---------------------------------------------------------------------------------------------
  // Keys

  lemma ShowsStays(s: Store, s': Store, conv: Uuid, sequence: nat, shown: Shown)
    requires Shows(s, conv, sequence, shown) && EventsOf(s, conv) <= EventsOf(s', conv)
    ensures Shows(s', conv, sequence, shown)
  {
  }

  lemma KeyStays(sha: seq<Byte> -> Digest, s: Store, step: Step, key: IdempotencyKey)
    requires Refs(s) && AllNumbered(s) && key in s.idempotency && KeyOk(s, key)
    requires key in Apply(sha, s, step).idempotency && Apply(sha, s, step).idempotency[key] == s.idempotency[key]
    ensures KeyOk(Apply(sha, s, step), key)
  {
    hide Apply, Refs, Shows, EventsOf;
    if key.operation.PostTo? {
      var row, conv := s.idempotency[key], key.operation.conversationId;
      StepKeepsMessage(sha, s, step, row.request.messageId);
      Saga.StepKeepsOwner(sha, s, step, conv);
      StepExtends(sha, s, step, conv);
      ShowsStays(s, Apply(sha, s, step), conv, row.conversationSequence,
          UserMessage(row.request.messageId, row.request.content));
    }
  }

  lemma PresentShows(s: Store, conv: Uuid, shown: Shown)
    requires conv in s.conversations && Numbered(s, conv)
    ensures Shows(Present(s, conv, shown), conv, Next(s, conv), shown)
  {
  }

  lemma NewKeyOk(s: Store, ownerId: Uuid, conv: Uuid, key: string, request: Request)
    requires request.NewMessage? && Owned(s, ownerId, conv) && Numbered(s, conv)
    ensures var s' := Finish(PostChange(s, ownerId, conv, key, request));
            var idempotencyKey := IdempotencyKey(ownerId, PostTo(conv), key);
            idempotencyKey in s'.idempotency && KeyOk(s', idempotencyKey)
  {
    var c := PostChange(s, ownerId, conv, key, request);
    PresentShows(c.store, conv, c.shown);
    hide Shows;
  }

  lemma StepKeepsKeys(sha: seq<Byte> -> Digest, s: Store, step: Step)
    requires Refs(s) && AllNumbered(s) && KeysOk(s)
    ensures KeysOk(Apply(sha, s, step))
    ensures forall key | key in s.idempotency ::
              key in Apply(sha, s, step).idempotency && Apply(sha, s, step).idempotency[key] == s.idempotency[key]
  {
    hide KeyOk, Project, AnswerInput, ProjectData, Refs, Numbered, Post, Finish;
    var s' := Apply(sha, s, step);
    if step.OpenConversation? {
      forall key | key in s'.idempotency ensures KeyOk(s', key) {
        KeyStays(sha, s, step, key);
      }
    } else {
      Saga.StepIdempotency(sha, s, step);
      var c := StepShape(sha, s, step);
      FinishTables(c);
      hide Apply;
      forall key | key in s'.idempotency ensures KeyOk(s', key) {
        if key in s.idempotency {
          KeyStays(sha, s, step, key);
        } else if step.PostMessage? {
          NewKeyOk(s, step.ownerId, step.conv, step.key, NewMessage(step.messageId, step.runId, step.content));
          assert s' == Finish(c);
        } else {
          AnswersAreNoPosts(s', key);
        }
      }
    }
  }

  lemma AnswersAreNoPosts(s: Store, key: IdempotencyKey)
    requires key in s.idempotency && key.operation.AnswerTo?
    ensures KeyOk(s, key)
  {
  }

  /** Everything posting relies on. */
  ghost predicate PostInv(s: Store) {
    AllNumbered(s) && KeysOk(s)
  }

  ghost predicate KeysStay(s: Store, s': Store) {
    forall key | key in s.idempotency :: key in s'.idempotency && s'.idempotency[key] == s.idempotency[key]
  }

  lemma StepKeepsPostInv(sha: seq<Byte> -> Digest, s: Store, step: Step)
    requires Refs(s) && PostInv(s)
    ensures PostInv(Apply(sha, s, step)) && KeysStay(s, Apply(sha, s, step))
  {
    hide Apply, Numbered, KeysOk;
    StepKeepsKeys(sha, s, step);
    forall conv ensures Numbered(Apply(sha, s, step), conv) {
      StepExtends(sha, s, step, conv);
    }
  }

  lemma {:induction false} RunKeepsPostInv(sha: seq<Byte> -> Digest, s: Store, steps: seq<Step>)
    requires Refs(s) && PostInv(s)
    ensures PostInv(Run(sha, s, steps)) && KeysStay(s, Run(sha, s, steps))
    decreases |steps|
  {
    hide Refs, Apply, PostInv;
    if steps != [] {
      StepKeepsRefs(sha, s, steps[0]);
      StepKeepsPostInv(sha, s, steps[0]);
      RunKeepsPostInv(sha, Apply(sha, s, steps[0]), steps[1..]);
    }
  }

  lemma EmptyPostInv()
    ensures Refs(EMPTY) && PostInv(EMPTY)
  {
  }

  /**
   A message that has been posted is stored and shown, under the number that was returned; and the
   same key and request return that number forever and change nothing.
   */
  lemma PostedOnce(sha: seq<Byte> -> Digest, before: seq<Step>, after: seq<Step>, ownerId: Uuid, conv: Uuid,
      key: string,
                   m: Uuid, run: Uuid, content: string)
    requires Post(Run(sha, EMPTY, before), ownerId, conv, key, NewMessage(m, run, content)).1.Ok?
    ensures var s := Run(sha, EMPTY, before); var request := NewMessage(m, run, content);
            var (s1, outcome) := Post(s, ownerId, conv, key, request);
            var s' := Run(sha, Apply(sha, s, PostMessage(ownerId, conv, key, m, run, content)), after);
            && Post(s', ownerId, conv, key, request) == (s', outcome)
            && m in s'.messages && s'.messages[m] == MessageRow(conv, run, User, Completed, content)
            && Shows(s', conv, outcome.value, UserMessage(m, content))
  {
    EmptyPostInv();
    hide Run, Apply, KeyOk, Numbered, Refs;
    RunKeepsPostInv(sha, EMPTY, before);
    var s := Run(sha, EMPTY, before);
    var step := PostMessage(ownerId, conv, key, m, run, content);
    var request := NewMessage(m, run, content);
    var idempotencyKey := IdempotencyKey(ownerId, PostTo(conv), key);
    StepKeepsRefs(sha, s, step);
    StepKeepsPostInv(sha, s, step);
    PostUsesKey(sha, s, step);
    var s1 := Apply(sha, s, step);
    RunKeepsPostInv(sha, s1, after);
    var s' := Run(sha, s1, after);
    assert idempotencyKey in s'.idempotency && s'.idempotency[idempotencyKey] == s1.idempotency[idempotencyKey];
    KeyGivesAll(s', idempotencyKey);
  }

  lemma PostUsesKey(sha: seq<Byte> -> Digest, s: Store, step: Step)
    requires Refs(s) && step.PostMessage?
    requires Post(s, step.ownerId, step.conv, step.key, NewMessage(step.messageId, step.runId, step.content)).1.Ok?
    ensures var request := NewMessage(step.messageId, step.runId, step.content);
            var idempotencyKey := IdempotencyKey(step.ownerId, PostTo(step.conv), step.key);
            var s' := Apply(sha, s, step);
            && idempotencyKey in s'.idempotency
            && s'.idempotency[idempotencyKey]
               == IdempotencyRow(request, Post(s, step.ownerId, step.conv, step.key, request).1.value)
  {
  }

  lemma KeyGivesAll(s: Store, key: IdempotencyKey)
    requires key in s.idempotency && KeyOk(s, key) && key.operation.PostTo?
    ensures var row, conv := s.idempotency[key], key.operation.conversationId;
            && row.request.NewMessage?
            && Post(s, key.ownerId, conv, key.key, row.request) == (s, Ok(row.conversationSequence))
            && row.request.messageId in s.messages
            && s.messages[row.request.messageId]
               == MessageRow(conv, row.request.runId, User, Completed, row.request.content)
            && Shows(s, conv, row.conversationSequence, UserMessage(row.request.messageId, row.request.content))
  {
    hide Shows;
  }
}
