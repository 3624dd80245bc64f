/**
 Human input: a request is proposed by one event and committed by another, in either order; it
 becomes visible when both are there, and is answered once.
 */
module InputSaga {
  import opened Wrappers
  import opened Utf8
  import opened Protocol
  import opened ConversationStore
  import opened Presentation

  /** How often a conversation has shown the request of a suspension. */
  function TimesShown(events: seq<PresentationEvent>, k: Uuid): nat {
    if events == [] then 0
    else
      var last := events[|events| - 1].shown;
      TimesShown(events[..|events| - 1], k) + if last.RequestCreated? && last.suspensionId == k then 1 else 0
  }

  predicate IsFollowUp(event: OutEvent, k: Uuid) {
    event.RunRequested? && event.trigger.ByResponse? && event.trigger.requestId == OfSuspension(k)
  }

  /** The run requests that answers to a suspension's request have enqueued, in order. */
  function FollowUps(outbox: seq<OutEvent>, k: Uuid): seq<OutEvent> {
    if outbox == [] then []
    else
      var last := outbox[|outbox| - 1];
      FollowUps(outbox[..|outbox| - 1], k) + if IsFollowUp(last, k) then [last] else []
  }

  /** The run request an answered request stands for. */
  function FollowUpOf(s: Store, k: Uuid): OutEvent
    requires Refs(s) && k in s.inputs && s.inputs[k].answer.Some?
  {
    var row := s.inputs[k];
    var conv := s.conversations[row.conversationId];
    RunRequested(conv.ownerId, row.conversationId, conv.threadId, row.answer.value.runId,
                 ByResponse(OfSuspension(k), row.answer.value.response, row.checkpointId))
  }

  predicate Recorded(s: Store, k: Uuid) {
    k in s.inputs && k in s.commitments
  }

  /** The halves that are there fit, and the state says what is there. */
  ghost predicate HalvesOk(s: Store, k: Uuid) {
    && (Recorded(s, k) ==> Agree(k, s.inputs[k], s.commitments[k]))
    && (k in s.inputs ==> (s.inputs[k].state == Reserved <==> k !in s.commitments)
                          && (s.inputs[k].state == Answered <==> s.inputs[k].answer.Some?))
  }

  /** A request is shown once, in its own conversation, if both halves are recorded; else never. */
  ghost predicate ShownOk(s: Store, k: Uuid) {
    forall conv :: TimesShown(EventsOf(s, conv), k)
                   == if Recorded(s, k) && conv == s.inputs[k].conversationId then 1 else 0
  }

  /** There is one follow-up run request, for the answer, if the request is answered; else none. */
  ghost predicate FollowUpOk(s: Store, k: Uuid)
    requires Refs(s)
  {
    FollowUps(s.outbox, k) == if k in s.inputs && s.inputs[k].answer.Some? then [FollowUpOf(s, k)] else []
  }

  ghost predicate SagaOk(s: Store, k: Uuid)
    requires Refs(s)
  {
    HalvesOk(s, k) && ShownOk(s, k) && FollowUpOk(s, k)
  }

  // ---------------------------------------------------------------------------------------------
  // What a step does to one suspension

  /** What is recorded for k. */
  ghost predicate SameHalves(s: Store, s': Store, k: Uuid) {
    && (k in s'.inputs <==> k in s.inputs) && (k in s.inputs ==> s'.inputs[k] == s.inputs[k])
    && (k in s'.commitments <==> k in s.commitments) && (k in s.commitments ==> s'.commitments[k] == s.commitments[k])
  }

  predicate ShowsRequest(c: Change, conv: Uuid, k: Uuid) {
    c.Showing? && c.conv == conv && c.shown.RequestCreated? && c.shown.suspensionId == k
  }

  lemma ShownAppend(events: seq<PresentationEvent>, event: PresentationEvent, k: Uuid)
    ensures TimesShown(events + [event], k)
         == TimesShown(events, k) + if event.shown.RequestCreated? && event.shown.suspensionId == k then 1 else 0
  {
    assert (events + [event])[..|events|] == events;
  }

  lemma FinishShows(s: Store, c: Change, conv: Uuid, k: Uuid)
    requires c.store.events == s.events && (c.Showing? ==> c.conv in c.store.conversations)
    ensures TimesShown(EventsOf(Finish(c), conv), k)
         == TimesShown(EventsOf(s, conv), k) + if ShowsRequest(c, conv, k) then 1 else 0
  {
    hide TimesShown;
    var events := EventsOf(s, conv);
    if c.Showing? && c.conv == conv {
      var event := PresentationEvent(Next(c.store, conv), c.shown);
      ShownAppend(events, event, k);
      assert EventsOf(Finish(c), conv) == events + [event];
    } else {
      assert EventsOf(Finish(c), conv) == events;
    }
  }

  lemma FollowUpsAppend(outbox: seq<OutEvent>, event: OutEvent, k: Uuid)
    ensures FollowUps(outbox + [event], k) == FollowUps(outbox, k) + if IsFollowUp(event, k) then [event] else []
  {
    assert (outbox + [event])[..|outbox|] == outbox;
  }

  /** At most one event joins the outbox. */
  ghost predicate Appends(outbox: seq<OutEvent>, outbox': seq<OutEvent>, event: OutEvent) {
    outbox' == outbox || outbox' == outbox + [event]
  }

  lemma ConfirmAppends(done: bool, s: Store, run: Uuid, ids: seq<Uuid>) returns (event: OutEvent)
    requires Refs(s) && run in s.proposals
    ensures Appends(s.outbox, ConfirmIf(done, s, run, ids).outbox, event) && event.MessagesCommitted?
  {
    var proposal := s.proposals[run];
    var last := |EventsOf(s, proposal.conversationId)|;
    event := MessagesCommitted(run, proposal.conversationId, ids, if last >= 1 then last else 1);
  }

  /** The only message a runtime event sends is a confirmation. */
  lemma ProjectOutbox(sha: seq<Byte> -> Digest, s: Store, e: Envelope) returns (event: OutEvent)
    requires Refs(s) && e.conversationId in s.conversations && ProjectData(sha, s, e).Ok?
    ensures Appends(s.outbox, ProjectData(sha, s, e).value.store.outbox, event) && event.MessagesCommitted?
  {
    hide CompletionProblem, DoneAmong, IsChange, ConfirmIf;
    var run := e.key.runId;
    if e.data.ProposedEvent? {
      var ids := e.data.finalMessageIds;
      event := ConfirmAppends(|DoneAmong(s, run, Some(e.conversationId), ids)| == |ids|, StoreProposal(s, e), run, ids);
    } else if e.data.CompletedEvent? {
      event := MessagesCommitted(0, 0, [], 0);
      if run in s.proposals {
        var ids := s.proposals[run].finalMessageIds;
        var s1 := EndMessage(s, e.data.messageId, Completed, e.data.content);
        event := ConfirmAppends(|DoneAmong(s1, run, None, ids)| == |ids|, s1, run, ids);
      }
    } else {
      hide ProjectData;
      event := MessagesCommitted(0, 0, [], 0);
      if e.data.SuspendedEvent? || e.data.InputProposedEvent? {
        SagaFrame(sha, s, e);
      } else {
        MessageFrame(sha, s, e);
      }
    }
  }

  /** A step that neither records, shows nor answers anything for k keeps what is known of it. */
  lemma UntouchedKeeps(s: Store, c: Change, s': Store, event: OutEvent, k: Uuid)
    requires Refs(s) && Refs(s') && SagaOk(s, k)
    requires c.store.conversations == s.conversations && c.store.events == s.events
    requires c.Showing? ==> c.conv in s.conversations && !ShowsRequest(c, c.conv, k)
    requires s'.events == Finish(c).events && s'.conversations == Finish(c).conversations
    requires SameHalves(s, s', k) && Appends(s.outbox, s'.outbox, event) && !IsFollowUp(event, k)
    ensures SagaOk(s', k)
  {
    FollowUpsAppend(s.outbox, event, k);
    forall conv ensures TimesShown(EventsOf(s', conv), k) == TimesShown(EventsOf(s, conv), k) {
      FinishShows(s, c, conv, k);
      assert EventsOf(s', conv) == EventsOf(Finish(c), conv);
    }
    hide TimesShown, FollowUps;
  }

  lemma OpenKeepsSaga(s: Store, conv: Uuid, ownerId: Uuid, threadId: Uuid, k: Uuid)
    requires Refs(s) && SagaOk(s, k)
    ensures var s' := Open(s, conv, ownerId, threadId).0; Refs(s') && SagaOk(s', k)
  {
    hide TimesShown, FollowUps;
    var s' := Open(s, conv, ownerId, threadId).0;
    assert forall c :: EventsOf(s', c) == EventsOf(s, c);
  }

  lemma AnswerKeepsSaga(s: Store, ownerId: Uuid, k: Uuid, key: string, answer: Answer)
    requires Refs(s) && SagaOk(s, k) && k in s.inputs && s.inputs[k].state == Pending
    requires s.conversations[s.inputs[k].conversationId].ownerId == ownerId
    ensures var s' := Finish(AnswerChange(s, ownerId, k, key, answer)); Refs(s') && SagaOk(s', k)
  {
    var c := AnswerChange(s, ownerId, k, key, answer);
    var s' := Finish(c);
    FollowUpsAppend(s.outbox, c.store.outbox[|s.outbox|], k);
    forall conv ensures TimesShown(EventsOf(s', conv), k) == TimesShown(EventsOf(s, conv), k) {
      FinishShows(s, c, conv, k);
    }
    PresentKeepsRefs(c.store, c.conv, c.shown);
    hide TimesShown, FollowUps;
  }

  /** The second half makes the request pending and shows it; a half that is there already does nothing. */
  lemma ReconcileKeepsSaga(s: Store, s1: Store, k: Uuid)
    requires Refs(s) && Refs(s1) && SagaOk(s, k) && s1 == s.(inputs := s1.inputs, commitments := s1.commitments)
    requires k in s.inputs ==> k in s1.inputs && s1.inputs[k] == s.inputs[k]
    requires k in s.commitments ==> k in s1.commitments && s1.commitments[k] == s.commitments[k]
    requires k in s1.inputs && k !in s.inputs ==> s1.inputs[k].state == Reserved && s1.inputs[k].answer == None
    requires Reconcile(s1, k).Ok?
    ensures var s' := Finish(Reconcile(s1, k).value); Refs(s') && SagaOk(s', k)
  {
    var c := Reconcile(s1, k).value;
    var s' := Finish(c);
    forall conv
      ensures TimesShown(EventsOf(s', conv), k)
           == TimesShown(EventsOf(s, conv), k) + if ShowsRequest(c, conv, k) then 1 else 0
    {
      FinishShows(s, c, conv, k);
    }
    if c.Showing? {
      PresentKeepsRefs(c.store, c.conv, c.shown);
    }
    hide TimesShown, FollowUps;
  }

  lemma SagaEventKeepsSaga(sha: seq<Byte> -> Digest, s: Store, e: Envelope, k: Uuid)
    requires Refs(s) && SagaOk(s, k) && e.conversationId in s.conversations && ProjectData(sha, s, e).Ok?
    requires (e.data.SuspendedEvent? || e.data.InputProposedEvent?) && e.data.suspensionId == k
    ensures var s' := Finish(ProjectData(sha, s, e).value); Refs(s') && SagaOk(s', k)
  {
    hide SagaOk, Finish, Reconcile;
    if e.data.SuspendedEvent? {
      ReconcileKeepsSaga(s, s.(commitments := s.commitments[k := CommitmentOf(e)]), k);
    } else {
      ReconcileKeepsSaga(s, if k in s.inputs then s else s.(inputs := s.inputs[k := RequestOf(e)]), k);
    }
  }

  lemma OtherSagaEvent(sha: seq<Byte> -> Digest, s: Store, e: Envelope, k: Uuid)
    requires Refs(s) && e.conversationId in s.conversations && ProjectData(sha, s, e).Ok?
    requires e.data.SuspendedEvent? || e.data.InputProposedEvent? ==> e.data.suspensionId != k
    ensures var c := ProjectData(sha, s, e).value;
            SameHalves(s, c.store, k) && (c.Showing? ==> !ShowsRequest(c, c.conv, k))
  {
    hide ProjectData;
    if e.data.ProposedEvent? {
      ProposalFrame(sha, s, e);
    } else if e.data.SuspendedEvent? || e.data.InputProposedEvent? {
      SagaFrame(sha, s, e);
    } else {
      MessageFrame(sha, s, e);
    }
  }

  lemma InboxIsIrrelevant(s: Store, s': Store, k: Uuid)
    requires Refs(s) && SagaOk(s, k) && s' == s.(inbox := s'.inbox)
    ensures Refs(s') && SagaOk(s', k)
  {
    hide TimesShown, FollowUps;
    assert forall conv :: EventsOf(s', conv) == EventsOf(s, conv);
  }

  lemma ProjectKeepsSaga(sha: seq<Byte> -> Digest, s: Store, e: Envelope, k: Uuid)
    requires Refs(s) && SagaOk(s, k) && e.conversationId in s.conversations && ProjectData(sha, s, e).Ok?
    ensures var s' := Finish(ProjectData(sha, s, e).value); Refs(s') && SagaOk(s', k)
  {
    hide SagaOk, ProjectData, Finish, ShowsRequest, IsFollowUp;
    if (e.data.SuspendedEvent? || e.data.InputProposedEvent?) && e.data.suspensionId == k {
      SagaEventKeepsSaga(sha, s, e, k);
    } else {
      var c := ProjectData(sha, s, e).value;
      OtherSagaEvent(sha, s, e, k);
      var event := ProjectOutbox(sha, s, e);
      FinishTables(c);
      if c.Showing? {
        PresentKeepsRefs(c.store, c.conv, c.shown);
        assert Finish(c) == Present(c.store, c.conv, c.shown) by { ShowingIs(c); }
      } else {
        assert Finish(c) == c.store by { ShowingIs(c); }
      }
      assert !IsFollowUp(event, k) by { ConfirmationIsNone(event, k); }
      UntouchedKeeps(s, c, Finish(c), event, k);
    }
  }

  lemma ShowingIs(c: Change)
    requires c.Showing? ==> c.conv in c.store.conversations
    ensures Finish(c) == if c.Showing? then Present(c.store, c.conv, c.shown) else c.store
  {
  }

  lemma ConfirmationIsNone(event: OutEvent, k: Uuid)
    requires event.MessagesCommitted?
    ensures !IsFollowUp(event, k)
  {
  }

  lemma StepKeepsSaga(sha: seq<Byte> -> Digest, s: Store, step: Step, k: Uuid)
    requires Refs(s) && SagaOk(s, k)
    ensures var s' := Apply(sha, s, step); Refs(s') && SagaOk(s', k)
  {
    hide SagaOk, ProjectData, Finish, Open, Project, Post, AnswerInput;
    var s' := Apply(sha, s, step);
    StepKeepsRefs(sha, s, step);
    if step.OpenConversation? {
      OpenKeepsSaga(s, step.conv, step.ownerId, step.threadId, k);
    } else {
      var c := StepShape(sha, s, step);
      if c == Silent(s) {
        ShowingIs(c);
        InboxIsIrrelevant(s, s', k);
      } else if step.ProjectEvent? {
        ProjectKeepsSaga(sha, s, step.event, k);
        InboxIsIrrelevant(Finish(c), s', k);
      } else if step.AnswerRequest? && step.requestId == OfSuspension(k) {
        AnswerKeepsSaga(s, step.ownerId, k, step.key, step.answer);
        InboxIsIrrelevant(Finish(c), s', k);
      } else {
        FinishTables(c);
        UntouchedKeeps(s, c, s', c.store.outbox[|s.outbox|], k);
      }
    }
  }

  lemma {:induction false} RunKeepsSaga(sha: seq<Byte> -> Digest, s: Store, steps: seq<Step>, k: Uuid)
    requires Refs(s) && SagaOk(s, k)
    ensures SagaOk(Run(sha, s, steps), k)
    decreases |steps|
  {
    hide Refs, Apply, SagaOk;
    if steps != [] {
      StepKeepsRefs(sha, s, steps[0]);
      StepKeepsSaga(sha, s, steps[0], k);
      RunKeepsSaga(sha, Apply(sha, s, steps[0]), steps[1..], k);
    }
  }

  lemma EmptySaga(k: Uuid)
    ensures SagaOk(EMPTY, k)
  {
  }

  // ---------------------------------------------------------------------------------------------
  // Visibility

  /**
   In every reachable store a request has been shown exactly once, in its own conversation, if its
   proposal and its commitment are both recorded, and then they fit; otherwise it has never been shown.
   */
  lemma RequestIsVisibleOnce(sha: seq<Byte> -> Digest, steps: seq<Step>, k: Uuid)
    ensures var s := Run(sha, EMPTY, steps);
            && (Recorded(s, k) ==> Agree(k, s.inputs[k], s.commitments[k]) && s.inputs[k].state != Reserved)
            && (k in s.inputs && !Recorded(s, k) ==> s.inputs[k].state == Reserved)
            && (forall conv :: TimesShown(EventsOf(s, conv), k)
                               == if Recorded(s, k) && conv == s.inputs[k].conversationId then 1 else 0)
  {
    hide Run, TimesShown;
    EmptySaga(k);
    RunKeepsSaga(sha, EMPTY, steps, k);
  }

  /** An event that reaches its conversation for the first time. */
  predicate Arrives(s: Store, e: Envelope) {
    && e.id !in s.inbox && Owned(s, e.userId, e.conversationId)
    && s.conversations[e.conversationId].threadId == e.threadId
  }

  /** Whether the half an event brings is whole and fits what is recorded; a second proposal is not looked at. */
  predicate Fits(s: Store, e: Envelope)
    requires e.data.SuspendedEvent? || e.data.InputProposedEvent?
  {
    var k := e.data.suspensionId;
    if e.data.SuspendedEvent? then
      (if k in s.commitments then s.commitments[k] == CommitmentOf(e)
       else k in s.inputs ==> Agree(k, s.inputs[k], CommitmentOf(e)))
    else
      e.data.prompt.Some? && (k !in s.inputs && k in s.commitments ==> Agree(k, RequestOf(e), s.commitments[k]))
  }

  /**
   In every reachable store, a half that arrives is taken exactly if it fits, whichever half came
   first; with the other half recorded, the request is then visible. A half that does not fit
   changes nothing.
   */
  lemma HalfIsTakenIffItFits(sha: seq<Byte> -> Digest, steps: seq<Step>, e: Envelope)
    requires Arrives(Run(sha, EMPTY, steps), e) && (e.data.SuspendedEvent? || e.data.InputProposedEvent?)
    ensures var s := Run(sha, EMPTY, steps); var (s', outcome) := Project(sha, s, e); var k := e.data.suspensionId;
            && (outcome.Ok? <==> Fits(s, e)) && (outcome.Err? ==> s' == s)
            && (outcome.Ok? ==>
                  && (if e.data.SuspendedEvent? then k in s'.commitments else k in s'.inputs)
                  && (k in s.inputs ==> k in s'.inputs) && (k in s.commitments ==> k in s'.commitments)
                  && (Recorded(s', k) && !Recorded(s, k) ==>
                        outcome.value.Some? && s'.inputs[k].state == Pending))
  {
    hide Run, TimesShown, FollowUps;
    EmptySaga(e.data.suspensionId);
    RunKeepsSaga(sha, EMPTY, steps, e.data.suspensionId);
  }

  // ---------------------------------------------------------------------------------------------
  // Answers

  function Rank(state: InputState): nat {
    match state
    case Reserved => 0
    case Pending => 1
    case Answered => 2
  }

  /** A request moves one state forward at a time, and is never rewritten otherwise. */
  ghost predicate MovesForward(row: InputRow, row': InputRow) {
    || row' == row
    || (row.state == Reserved && row' == row.(state := Pending))
    || (row.state == Pending && row'.answer.Some? && row' == row.(state := Answered, answer := row'.answer))
  }

  lemma ProjectMovesForward(sha: seq<Byte> -> Digest, s: Store, e: Envelope, k: Uuid)
    requires Refs(s) && k in s.inputs && e.conversationId in s.conversations && ProjectData(sha, s, e).Ok?
    ensures var s' := ProjectData(sha, s, e).value.store; k in s'.inputs && MovesForward(s.inputs[k], s'.inputs[k])
  {
    if e.data.SuspendedEvent? || e.data.InputProposedEvent? {
      hide Agree;
    } else {
      hide ProjectData;
      OtherSagaEvent(sha, s, e, k);
    }
  }

  lemma StepMovesForward(sha: seq<Byte> -> Digest, s: Store, step: Step, k: Uuid)
    requires Refs(s) && k in s.inputs
    ensures var s' := Apply(sha, s, step); k in s'.inputs && MovesForward(s.inputs[k], s'.inputs[k])
  {
    hide ProjectData, Finish, Project, Post, AnswerInput;
    if !step.OpenConversation? {
      var c := StepShape(sha, s, step);
      FinishTables(c);
      if step.ProjectEvent? && c != Silent(s) {
        ProjectMovesForward(sha, s, step.event, k);
      }
    }
  }

  /** Whatever an idempotency key has answered a request with is the request's answer. */
  ghost predicate AnswersOk(s: Store, k: Uuid) {
    forall key | key in s.idempotency && key.operation == AnswerTo(OfSuspension(k)) ::
      k in s.inputs && s.inputs[k].answer.Some? && s.idempotency[key].request == NewAnswer(s.inputs[k].answer.value)
  }

  lemma StepKeepsAnswers(sha: seq<Byte> -> Digest, s: Store, step: Step, k: Uuid)
    requires Refs(s) && AnswersOk(s, k)
             && (k in s.inputs ==> (s.inputs[k].state == Answered <==> s.inputs[k].answer.Some?))
    ensures AnswersOk(Apply(sha, s, step), k)
    ensures forall key | key in s.idempotency ::
              key in Apply(sha, s, step).idempotency && Apply(sha, s, step).idempotency[key] == s.idempotency[key]
  {
    hide ProjectData, Finish, Project, Post, AnswerInput, PostChange, AnswerChange, Refs;
    if k in s.inputs {
      StepMovesForward(sha, s, step, k);
    }
    if !step.OpenConversation? {
      hide Apply;
      var c := StepShape(sha, s, step);
      FinishTables(c);
      StepIdempotency(sha, s, step);
    }
  }

  /** A step uses at most one idempotency key, and only a fresh one. */
  lemma StepIdempotency(sha: seq<Byte> -> Digest, s: Store, step: Step)
    requires Refs(s) && !step.OpenConversation?
    ensures var s' := Apply(sha, s, step);
            s'.idempotency == s.idempotency
            || (step.PostMessage?
                && var key := IdempotencyKey(step.ownerId, PostTo(step.conv), step.key);
                   key !in s.idempotency && key in s'.idempotency
                   && s'.idempotency == s.idempotency[key := s'.idempotency[key]])
            || (step.AnswerRequest? && step.requestId.OfSuspension?
                && var key := IdempotencyKey(step.ownerId, AnswerTo(step.requestId), step.key);
                   var k := step.requestId.suspensionId;
                   key !in s.idempotency && key in s'.idempotency
                   && s'.idempotency == s.idempotency[key := s'.idempotency[key]]
                   && k in s'.inputs && s'.inputs[k].answer == Some(step.answer)
                   && s'.idempotency[key].request == NewAnswer(step.answer))
  {
    hide ProjectData;
  }

  /** What answering relies on. */
  ghost predicate AnswerInv(s: Store, k: Uuid)
    requires Refs(s)
  {
    SagaOk(s, k) && AnswersOk(s, k)
  }

  /** What stays of a request and of its keys. */
  ghost predicate Kept(s: Store, s': Store, k: Uuid) {
    && (forall key | key in s.idempotency :: key in s'.idempotency && s'.idempotency[key] == s.idempotency[key])
    && (k in s.inputs ==>
          && k in s'.inputs && Rank(s.inputs[k].state) <= Rank(s'.inputs[k].state)
          && s'.inputs[k].conversationId == s.inputs[k].conversationId
          && s'.inputs[k].checkpointId == s.inputs[k].checkpointId && s'.inputs[k].runId == s.inputs[k].runId
          && (s.inputs[k].state == Answered ==> s'.inputs[k] == s.inputs[k]))
    && (forall conv | conv in s.conversations :: SameOwner(s, s', conv))
  }

  lemma KeptTransitive(x: Store, y: Store, z: Store, k: Uuid)
    requires Kept(x, y, k) && Kept(y, z, k)
    ensures Kept(x, z, k)
  {
  }

  lemma StepKeepsOwner(sha: seq<Byte> -> Digest, s: Store, step: Step, conv: Uuid)
    requires Refs(s) && conv in s.conversations
    ensures SameOwner(s, Apply(sha, s, step), conv)
  {
    hide ProjectData, Project, Post, AnswerInput, Finish, PostChange, AnswerChange;
    if !step.OpenConversation? {
      var c := StepShape(sha, s, step);
      FinishExtends(s, c, Apply(sha, s, step), conv);
    }
  }

  lemma StepKeepsAnswerInv(sha: seq<Byte> -> Digest, s: Store, step: Step, k: Uuid)
    requires Refs(s) && AnswerInv(s, k)
    ensures var s' := Apply(sha, s, step); Refs(s') && AnswerInv(s', k) && Kept(s, s', k)
  {
    hide Apply, ShownOk, FollowUpOk, AnswersOk;
    StepKeepsSaga(sha, s, step, k);
    StepKeepsAnswers(sha, s, step, k);
    if k in s.inputs {
      StepMovesForward(sha, s, step, k);
    }
    forall conv | conv in s.conversations ensures SameOwner(s, Apply(sha, s, step), conv) {
      StepKeepsOwner(sha, s, step, conv);
    }
  }

  lemma {:induction false} RunKeepsAnswerInv(sha: seq<Byte> -> Digest, s: Store, steps: seq<Step>, k: Uuid)
    requires Refs(s) && AnswerInv(s, k)
    ensures AnswerInv(Run(sha, s, steps), k) && Kept(s, Run(sha, s, steps), k)
    decreases |steps|
  {
    hide Refs, Apply, AnswerInv, Kept;
    if steps == [] {
      assert Kept(s, s, k) by { KeptReflexive(s, k); }
    } else {
      var s1 := Apply(sha, s, steps[0]);
      StepKeepsRefs(sha, s, steps[0]);
      StepKeepsAnswerInv(sha, s, steps[0], k);
      RunKeepsAnswerInv(sha, s1, steps[1..], k);
      KeptTransitive(s, s1, Run(sha, s1, steps[1..]), k);
    }
  }

  lemma KeptReflexive(s: Store, k: Uuid)
    ensures Kept(s, s, k)
  {
  }

  /**
   There is exactly one follow-up run request in the outbox, carrying the answer, if the request is
   answered, and none otherwise.
   */
  lemma FollowUpIffAnswered(sha: seq<Byte> -> Digest, steps: seq<Step>, k: Uuid)
    ensures var s := Run(sha, EMPTY, steps);
            FollowUps(s.outbox, k)
            == if k in s.inputs && s.inputs[k].state == Answered && s.inputs[k].answer.Some?
               then [FollowUpOf(s, k)] else []
  {
    hide Run, ShownOk;
    EmptySaga(k);
    RunKeepsSaga(sha, EMPTY, steps, k);
  }

  /**
   An answer that is accepted once stays the one answer: later the same key and body return the
   original result, any other key is told that the request was answered already, and neither changes
   anything.
   */
  lemma OneEffectiveAnswer(
    sha: seq<Byte> -> Digest, before: seq<Step>, after: seq<Step>, ownerId: Uuid, k: Uuid, key: string, answer: Answer,
    otherKey: string, otherAnswer: Answer)
    requires AnswerInput(Run(sha, EMPTY, before), ownerId, OfSuspension(k), key, answer).1.Ok?
    ensures var s := Run(sha, EMPTY, before);
            var step := AnswerRequest(ownerId, OfSuspension(k), key, answer);
            var s' := Run(sha, Apply(sha, s, step), after);
            && AnswerInput(s', ownerId, OfSuspension(k), key, answer)
               == (s', AnswerInput(s, ownerId, OfSuspension(k), key, answer).1)
            && k in s'.inputs && s'.inputs[k].state == Answered && s'.inputs[k].answer == Some(answer)
            && FollowUps(s'.outbox, k) == [FollowUpOf(s', k)]
            && AnswerInput(s', ownerId, OfSuspension(k), otherKey, otherAnswer).0 == s'
            && (IdempotencyKey(ownerId, AnswerTo(OfSuspension(k)), otherKey) !in s'.idempotency ==>
                  AnswerInput(s', ownerId, OfSuspension(k), otherKey, otherAnswer).1 == Err("input_already_answered"))
  {
    hide Run, ShownOk, FollowUps, Apply, MovesForward, Present;
    EmptySaga(k);
    RunKeepsAnswerInv(sha, EMPTY, before, k);
    var s := Run(sha, EMPTY, before);
    var step := AnswerRequest(ownerId, OfSuspension(k), key, answer);
    var s1 := Apply(sha, s, step);
    StepKeepsAnswerInv(sha, s, step, k);
    assert s1 == AnswerInput(s, ownerId, OfSuspension(k), key, answer).0 by { AnswerStep(sha, s, step); }
    AnsweredNow(s, ownerId, k, key, answer);
    RunKeepsAnswerInv(sha, s1, after, k);
    hide AnswerInv, Refs;
    AnsweredLater(s1, Run(sha, s1, after), ownerId, k, key, answer);
    AnsweredLater(s1, Run(sha, s1, after), ownerId, k, otherKey, otherAnswer);
    FollowUpsOfInv(Run(sha, s1, after), k);
  }

  lemma AnswerStep(sha: seq<Byte> -> Digest, s: Store, step: Step)
    requires Refs(s) && step.AnswerRequest?
    ensures Apply(sha, s, step) == AnswerInput(s, step.ownerId, step.requestId, step.key, step.answer).0
  {
  }

  lemma FollowUpsOfInv(s: Store, k: Uuid)
    requires Refs(s) && AnswerInv(s, k) && k in s.inputs && s.inputs[k].answer.Some?
    ensures FollowUps(s.outbox, k) == [FollowUpOf(s, k)]
  {
  }

  lemma AnsweredNow(s: Store, ownerId: Uuid, k: Uuid, key: string, answer: Answer)
    requires Refs(s) && AnswerInv(s, k) && AnswerInput(s, ownerId, OfSuspension(k), key, answer).1.Ok?
    ensures var (s1, outcome) := AnswerInput(s, ownerId, OfSuspension(k), key, answer);
            var idempotencyKey := IdempotencyKey(ownerId, AnswerTo(OfSuspension(k)), key);
            && k in s1.inputs && s1.inputs[k].state == Answered && s1.inputs[k].answer == Some(answer)
            && Owned(s1, ownerId, s1.inputs[k].conversationId)
            && idempotencyKey in s1.idempotency
            && s1.idempotency[idempotencyKey] == IdempotencyRow(NewAnswer(answer), outcome.value)
  {
    hide ShownOk, FollowUpOk;
  }

  lemma AnsweredLater(s: Store, s': Store, ownerId: Uuid, k: Uuid, key: string, answer: Answer)
    requires Refs(s') && Kept(s, s', k) && k in s.inputs && s.inputs[k].state == Answered
    requires Owned(s, ownerId, s.inputs[k].conversationId)
    ensures s'.inputs[k] == s.inputs[k]
    ensures var idempotencyKey := IdempotencyKey(ownerId, AnswerTo(OfSuspension(k)), key);
            var (after, outcome) := AnswerInput(s', ownerId, OfSuspension(k), key, answer);
            && after == s'
            && (idempotencyKey !in s'.idempotency ==> outcome == Err("input_already_answered"))
            && (idempotencyKey in s.idempotency && s.idempotency[idempotencyKey].request == NewAnswer(answer) ==>
                  outcome == Ok(s.idempotency[idempotencyKey].conversationSequence))
  {
    assert SameOwner(s, s', s.inputs[k].conversationId);
  }
}
