/** What a reader of a conversation can rely on: gap-free numbers, exact replay, final messages. */
module Presentation {
  import opened Wrappers
  import opened Utf8
  import opened Protocol
  import opened ConversationStore

  function Last(s: Store, conv: Uuid): nat {
    if conv in s.conversations then s.conversations[conv].lastSequence else 0
  }

  /** A conversation's events are numbered exactly 1..last_sequence. */
  ghost predicate Numbered(s: Store, conv: Uuid) {
    && Last(s, conv) == |EventsOf(s, conv)|
    && forall i | 0 <= i < |EventsOf(s, conv)| :: EventsOf(s, conv)[i].sequence == i + 1
  }

  // ---------------------------------------------------------------------------------------------
  // Every transaction shows at most one event, at the end

  /** What was shown stays, and at most one event with the next number joins it. */
  ghost predicate Extends(s: Store, s': Store, conv: Uuid) {
    var events, events' := EventsOf(s, conv), EventsOf(s', conv);
    || (events' == events && Last(s', conv) == Last(s, conv))
    || (|events'| == |events| + 1 && events <= events' && events'[|events|].sequence == Last(s, conv) + 1
        && Last(s', conv) == Last(s, conv) + 1)
  }

  lemma FinishExtends(s: Store, c: Change, s': Store, conv: Uuid)
    requires c.store.conversations == s.conversations && c.store.events == s.events
    requires c.Showing? ==> c.conv in s.conversations
    requires s'.conversations == Finish(c).conversations && s'.events == Finish(c).events
    ensures Extends(s, s', conv)
    ensures conv in s.conversations ==> SameOwner(s, s', conv)
  {
  }

  ghost predicate SameOwner(s: Store, s': Store, conv: Uuid) {
    && conv in s.conversations && conv in s'.conversations
    && s'.conversations[conv].ownerId == s.conversations[conv].ownerId
    && s'.conversations[conv].threadId == s.conversations[conv].threadId
  }

  lemma OpenExtends(s: Store, conv: Uuid, ownerId: Uuid, threadId: Uuid, at: Uuid)
    requires Numbered(s, at)
    ensures var s' := Open(s, conv, ownerId, threadId).0;
            && EventsOf(s', at) == EventsOf(s, at) && Last(s', at) == Last(s, at)
            && (at in s.conversations ==> SameOwner(s, s', at))
  {
  }

  lemma StepExtends(sha: seq<Byte> -> Digest, s: Store, step: Step, conv: Uuid)
    requires Refs(s) && Numbered(s, conv)
    ensures Extends(s, Apply(sha, s, step), conv) && Numbered(Apply(sha, s, step), conv)
    ensures conv in s.conversations ==> SameOwner(s, Apply(sha, s, step), conv)
  {
    hide Project, Post, AnswerInput, Open, Finish, PostChange, AnswerChange, ProjectData;
    if step.OpenConversation? {
      OpenExtends(s, step.conv, step.ownerId, step.threadId, conv);
    } else {
      var c := StepShape(sha, s, step);
      FinishExtends(s, c, Apply(sha, s, step), conv);
    }
  }

  lemma {:induction false} RunExtends(sha: seq<Byte> -> Digest, s: Store, steps: seq<Step>, conv: Uuid)
    requires Refs(s) && Numbered(s, conv)
    ensures Numbered(Run(sha, s, steps), conv) && EventsOf(s, conv) <= EventsOf(Run(sha, s, steps), conv)
    ensures conv in s.conversations ==> SameOwner(s, Run(sha, s, steps), conv)
    decreases |steps|
  {
    hide Numbered, Refs, Apply;
    if steps != [] {
      StepKeepsRefs(sha, s, steps[0]);
      StepExtends(sha, s, steps[0], conv);
      RunExtends(sha, Apply(sha, s, steps[0]), steps[1..], conv);
    }
  }

  /** In every reachable store, each conversation's events are numbered exactly 1..last_sequence. */
  lemma GapFree(sha: seq<Byte> -> Digest, steps: seq<Step>, conv: Uuid)
    ensures Numbered(Run(sha, EMPTY, steps), conv)
  {
    RunExtends(sha, EMPTY, steps, conv);
  }

  // ---------------------------------------------------------------------------------------------
  // Replay

  /** A suffix of a sequence, empty when the cursor lies beyond its end. */
  function From(events: seq<PresentationEvent>, cursor: nat): seq<PresentationEvent> {
    if cursor <= |events| then events[cursor..] else []
  }

  lemma {:induction false} AfterNumbered(events: seq<PresentationEvent>, first: nat, cursor: nat)
    requires forall i | 0 <= i < |events| :: events[i].sequence == first + i + 1
    ensures After(events, cursor) == From(events, if cursor > first then cursor - first else 0)
  {
    if events != [] {
      AfterNumbered(events[1..], first + 1, cursor);
    }
  }

  /** A page is the next limit events after the cursor, in order and without a gap. */
  lemma ReplayIsExact(s: Store, ownerId: Uuid, conv: Uuid, cursor: nat, limit: nat)
    requires Numbered(s, conv) && Owned(s, ownerId, conv)
    ensures var missing := From(EventsOf(s, conv), cursor);
            Replay(s, ownerId, conv, cursor, limit)
            == Ok(if |missing| <= limit then missing else EventsOf(s, conv)[cursor..cursor + limit])
  {
    var events := EventsOf(s, conv);
    AfterNumbered(events, 0, cursor);
    if |From(events, cursor)| > limit {
      assert events[cursor..][..limit] == events[cursor..cursor + limit];
    }
  }

  /** Where a reader goes on: at the number of the last event it was given. */
  function Cursor(cursor: nat, page: seq<PresentationEvent>): nat {
    if page == [] then cursor else page[|page| - 1].sequence
  }

  /**
   A reader that asks for page after page while the service goes on working: between two pages any
   steps are taken. It collects the events it is given.
   */
  ghost function Follow(
    sha: seq<Byte> -> Digest, s: Store, ownerId: Uuid, conv: Uuid, cursor: nat, limit: nat, between: seq<seq<Step>>)
    : seq<PresentationEvent>
    requires Refs(s)
    decreases |between|
  {
    if between == [] then []
    else
      match Replay(s, ownerId, conv, cursor, limit)
      case Err(_) => []
      case Ok(page) =>
        page + Follow(sha, Run(sha, s, between[0]), ownerId, conv, Cursor(cursor, page), limit, between[1..])
  }

  /** The store when the last page has been read and the steps after it have been taken. */
  ghost function Meanwhile(sha: seq<Byte> -> Digest, s: Store, between: seq<seq<Step>>): (s': Store)
    requires Refs(s)
    ensures Refs(s')
    decreases |between|
  {
    if between == [] then s else Meanwhile(sha, Run(sha, s, between[0]), between[1..])
  }

  lemma NextPage(s: Store, ownerId: Uuid, conv: Uuid, cursor: nat, limit: nat) returns (page: seq<PresentationEvent>)
    requires Numbered(s, conv) && Owned(s, ownerId, conv)
    ensures Replay(s, ownerId, conv, cursor, limit) == Ok(page) && Cursor(cursor, page) == cursor + |page|
    ensures page != [] ==>
              cursor + |page| <= |EventsOf(s, conv)| && page == EventsOf(s, conv)[cursor..cursor + |page|]
  {
    ReplayIsExact(s, ownerId, conv, cursor, limit);
    page := Replay(s, ownerId, conv, cursor, limit).value;
  }

  lemma OwnerStays(s: Store, s': Store, ownerId: Uuid, conv: Uuid)
    requires Owned(s, ownerId, conv) && SameOwner(s, s', conv)
    ensures Owned(s', ownerId, conv)
  {
  }

  /** A page and what is read after it are consecutive. */
  lemma PageAndRest(events: seq<PresentationEvent>, later: seq<PresentationEvent>, cursor: nat,
      page: seq<PresentationEvent>,
                    rest: seq<PresentationEvent>)
    requires events <= later
    requires page != [] ==> cursor + |page| <= |events| && page == events[cursor..cursor + |page|]
    requires rest != [] ==> cursor + |page| + |rest| <= |later|
                            && rest == later[cursor + |page|..cursor + |page| + |rest|]
    requires page + rest != []
    ensures cursor + |page| + |rest| <= |later| && page + rest == later[cursor..cursor + |page| + |rest|]
  {
  }

  /** Whatever happens meanwhile, a reader is given consecutive events from its cursor on, once each. */
  lemma {:induction false} FollowIsExact(
    sha: seq<Byte> -> Digest, s: Store, ownerId: Uuid, conv: Uuid, cursor: nat, limit: nat, between: seq<seq<Step>>)
    requires Refs(s) && Numbered(s, conv) && Owned(s, ownerId, conv)
    ensures var read := Follow(sha, s, ownerId, conv, cursor, limit, between);
            var s' := Meanwhile(sha, s, between);
            && EventsOf(s, conv) <= EventsOf(s', conv)
            && (read != [] ==>
                  cursor + |read| <= |EventsOf(s', conv)| && read == EventsOf(s', conv)[cursor..cursor + |read|])
    decreases |between|
  {
    hide Numbered, Refs, Replay, Run, EventsOf, Cursor, SameOwner;
    if between != [] {
      var page := NextPage(s, ownerId, conv, cursor, limit);
      RunExtends(sha, s, between[0], conv);
      OwnerStays(s, Run(sha, s, between[0]), ownerId, conv);
      var s1, next := Run(sha, s, between[0]), Cursor(cursor, page);
      FollowIsExact(sha, s1, ownerId, conv, next, limit, between[1..]);
      var rest := Follow(sha, s1, ownerId, conv, next, limit, between[1..]);
      if page + rest != [] {
        PageAndRest(EventsOf(s, conv), EventsOf(Meanwhile(sha, s, between), conv), cursor, page, rest);
      }
    }
  }

  // ---------------------------------------------------------------------------------------------
  // Messages

  /** A message keeps its conversation, run and role; once it has ended, it keeps everything. */
  ghost predicate MessageKept(s: Store, s': Store, m: Uuid) {
    && m in s.messages && m in s'.messages
    && var (row, row') := (s.messages[m], s'.messages[m]);
       && row'.conversationId == row.conversationId && row'.runId == row.runId && row'.role == row.role
       && (row.status != Streaming ==> row' == row)
  }

  lemma ProjectKeepsMessage(sha: seq<Byte> -> Digest, s: Store, e: Envelope, m: Uuid)
    requires Refs(s) && e.conversationId in s.conversations && m in s.messages && ProjectData(sha, s, e).Ok?
    ensures MessageKept(s, ProjectData(sha, s, e).value.store, m)
  {
    hide ProjectData, Refs;
    if e.data.ProposedEvent? {
      ProposalFrame(sha, s, e);
    } else if e.data.SuspendedEvent? || e.data.InputProposedEvent? {
      SagaFrame(sha, s, e);
    } else {
      MessageFrame(sha, s, e);
    }
  }

  lemma StepKeepsMessage(sha: seq<Byte> -> Digest, s: Store, step: Step, m: Uuid)
    requires Refs(s) && m in s.messages
    ensures MessageKept(s, Apply(sha, s, step), m)
  {
    hide Project, Post, AnswerInput, Finish, ProjectData, Refs;
    if !step.OpenConversation? {
      var c := StepShape(sha, s, step);
      FinishTables(c);
      if step.ProjectEvent? && c != Silent(s) {
        ProjectKeepsMessage(sha, s, step.event, m);
      }
    }
  }

  lemma {:induction false} RunKeepsMessage(sha: seq<Byte> -> Digest, s: Store, steps: seq<Step>, m: Uuid)
    requires Refs(s) && m in s.messages
    ensures MessageKept(s, Run(sha, s, steps), m)
    decreases |steps|
  {
    hide Refs, Apply;
    if steps != [] {
      StepKeepsRefs(sha, s, steps[0]);
      StepKeepsMessage(sha, s, steps[0], m);
      RunKeepsMessage(sha, Apply(sha, s, steps[0]), steps[1..], m);
    }
  }

  /** A message that has ended never changes its status or its content again. */
  lemma EndedIsFinal(sha: seq<Byte> -> Digest, before: seq<Step>, after: seq<Step>, m: Uuid)
    requires m in Run(sha, EMPTY, before).messages && Run(sha, EMPTY, before).messages[m].status != Streaming
    ensures var s := Run(sha, EMPTY, before); var s' := Run(sha, s, after);
            m in s'.messages && s'.messages[m] == s.messages[m]
  {
    hide Run;
    RunKeepsMessage(sha, Run(sha, EMPTY, before), after, m);
  }
}
