/**
 Confirming a run's messages: a stored result proposal and the completions of the messages it lists
 meet in either order, and the run is then told once that its messages are committed.
 */
module MessageConfirmation {
  import opened Wrappers
  import opened Utf8
  import opened Protocol
  import opened ConversationStore
  import opened Presentation

  /** The messages_committed events of a run, in the order they were enqueued. */
  function Confirmations(outbox: seq<OutEvent>, r: Uuid): seq<OutEvent> {
    if outbox == [] then []
    else
      var last := outbox[|outbox| - 1];
      Confirmations(outbox[..|outbox| - 1], r) + if last.MessagesCommitted? && last.runId == r then [last] else []
  }

  predicate AllDone(s: Store, r: Uuid, ids: seq<Uuid>) {
    Distinct(ids) && forall m | m in ids :: IsDone(s, r, m)
  }

  /** One confirmation for a confirmed proposal, of completed messages; none for any other run. */
  ghost predicate ConfirmedOk(s: Store, r: Uuid) {
    var sent := Confirmations(s.outbox, r);
    if r in s.proposals && s.proposals[r].confirmed
    then |sent| == 1 && sent[0].MessagesCommitted? && AllDone(s, r, sent[0].messageIds)
    else sent == []
  }

  // ---------------------------------------------------------------------------------------------
  // Counting

  /** A set of listed ids is as large as the list exactly if the list repeats none and misses none. */
  lemma {:induction false} CountIsLength(ids: seq<Uuid>, done: set<Uuid>)
    requires forall m | m in done :: m in ids
    ensures |done| <= |ids|
    ensures |done| == |ids| <==> Distinct(ids) && forall m | m in ids :: m in done
  {
    if ids == [] {
      assert done == {};
    } else {
      var before, last := ids[..|ids| - 1], ids[|ids| - 1];
      assert ids == before + [last];
      CountIsLength(before, done - {last});
      if last in done {
        assert done == done - {last} + {last};
      } else {
        assert done == done - {last};
      }
    }
  }

  lemma DoneIsAll(s: Store, run: Uuid, conv: Option<Uuid>, ids: seq<Uuid>)
    ensures |DoneAmong(s, run, conv, ids)| == |ids|
            <==> AllDone(s, run, ids) && forall m | m in ids && conv.Some? :: s.messages[m].conversationId == conv.value
  {
    CountIsLength(ids, DoneAmong(s, run, conv, ids));
  }

  // ---------------------------------------------------------------------------------------------
  // Confirmations are right

  lemma ConfirmationsAppend(outbox: seq<OutEvent>, event: OutEvent, r: Uuid)
    ensures Confirmations(outbox + [event], r)
         == Confirmations(outbox, r) + if event.MessagesCommitted? && event.runId == r then [event] else []
  {
    assert (outbox + [event])[..|outbox|] == outbox;
  }

  ghost predicate AllKept(s: Store, s': Store) {
    forall m | m in s.messages :: MessageKept(s, s', m)
  }

  lemma KeepsConfirmed(s: Store, s': Store, r: Uuid)
    requires ConfirmedOk(s, r) && AllKept(s, s') && Confirmations(s'.outbox, r) == Confirmations(s.outbox, r)
    requires r in s.proposals ==> r in s'.proposals && s'.proposals[r].confirmed == s.proposals[r].confirmed
    requires r in s'.proposals && r !in s.proposals ==> !s'.proposals[r].confirmed
    ensures ConfirmedOk(s', r)
  {
    hide Confirmations;
    if r in s.proposals && s.proposals[r].confirmed {
      var ids := Confirmations(s.outbox, r)[0].messageIds;
      forall m | m in ids ensures IsDone(s', r, m) {
        assert IsDone(s, r, m) && MessageKept(s, s', m);
      }
    }
  }

  lemma ConfirmFrame(done: bool, s: Store, run: Uuid, ids: seq<Uuid>)
    requires Refs(s) && run in s.proposals
    ensures var s' := ConfirmIf(done, s, run, ids);
            && run in s'.proposals && s'.proposals[run].confirmed == (s.proposals[run].confirmed || done)
            && s'.proposals == s.proposals[run := s.proposals[run].(confirmed := s'.proposals[run].confirmed)]
  {
  }

  lemma ConfirmSends(done: bool, s: Store, run: Uuid, ids: seq<Uuid>) returns (event: OutEvent)
    requires Refs(s) && run in s.proposals
    ensures event.MessagesCommitted? && event.runId == run && event.messageIds == ids
    ensures ConfirmIf(done, s, run, ids).outbox
         == if done && !s.proposals[run].confirmed then s.outbox + [event] else s.outbox
  {
    var last := |EventsOf(s, s.proposals[run].conversationId)|;
    event := MessagesCommitted(run, s.proposals[run].conversationId, ids, if last >= 1 then last else 1);
  }

  lemma ConfirmKeepsConfirmed(done: bool, s: Store, run: Uuid, ids: seq<Uuid>, r: Uuid)
    requires Refs(s) && run in s.proposals && ConfirmedOk(s, r) && (done ==> AllDone(s, run, ids))
    ensures ConfirmedOk(ConfirmIf(done, s, run, ids), r)
  {
    hide Confirmations, Refs, ConfirmIf, AllDone;
    ConfirmFrame(done, s, run, ids);
    var event := ConfirmSends(done, s, run, ids);
    ConfirmationsAppend(s.outbox, event, r);
    var s' := ConfirmIf(done, s, run, ids);
    if r == run && done && !s.proposals[run].confirmed {
      SameMessagesDone(s, s', r, ids);
    } else if r in s.proposals && s.proposals[r].confirmed {
      SameMessagesDone(s, s', r, Confirmations(s.outbox, r)[0].messageIds);
    }
  }

  lemma ProposalKeepsConfirmed(s: Store, e: Envelope, r: Uuid)
    requires Refs(s) && e.conversationId in s.conversations && e.data.ProposedEvent? && ConfirmedOk(s, r)
    ensures ConfirmedOk(ProjectProposal(s, e).store, r)
  {
    hide Confirmations, ConfirmIf, DoneAmong;
    var run, ids := e.key.runId, e.data.finalMessageIds;
    var s1 := StoreProposal(s, e);
    KeepsConfirmed(s, s1, r);
    DoneIsAll(s, run, Some(e.conversationId), ids);
    ConfirmKeepsConfirmed(|DoneAmong(s, run, Some(e.conversationId), ids)| == |ids|, s1, run, ids, r);
  }

  lemma CompletionKeepsConfirmed(sha: seq<Byte> -> Digest, s: Store, e: Envelope, r: Uuid)
    requires Refs(s) && e.conversationId in s.conversations && e.data.CompletedEvent? && ConfirmedOk(s, r)
    requires ProjectCompleted(sha, s, e).Ok?
    ensures ConfirmedOk(ProjectCompleted(sha, s, e).value.store, r)
  {
    hide Confirmations, ConfirmIf, DoneAmong, CompletionProblem;
    var run := e.key.runId;
    var s1 := EndMessage(s, e.data.messageId, Completed, e.data.content);
    KeepsConfirmed(s, s1, r);
    if run in s1.proposals {
      var ids := s1.proposals[run].finalMessageIds;
      DoneIsAll(s1, run, None, ids);
      ConfirmKeepsConfirmed(|DoneAmong(s1, run, None, ids)| == |ids|, s1, run, ids, r);
    }
  }

  lemma ProjectKeepsConfirmed(sha: seq<Byte> -> Digest, s: Store, e: Envelope, r: Uuid)
    requires Refs(s) && e.conversationId in s.conversations && ProjectData(sha, s, e).Ok? && ConfirmedOk(s, r)
    ensures ConfirmedOk(ProjectData(sha, s, e).value.store, r)
  {
    hide ConfirmedOk, ProjectProposal, ProjectCompleted;
    if e.data.ProposedEvent? {
      ProposalKeepsConfirmed(s, e, r);
    } else if e.data.CompletedEvent? {
      CompletionKeepsConfirmed(sha, s, e, r);
    } else {
      var s' := ProjectData(sha, s, e).value.store;
      forall m | m in s.messages ensures MessageKept(s, s', m) {
        ProjectKeepsMessage(sha, s, e, m);
      }
      hide ProjectData;
      if e.data.SuspendedEvent? || e.data.InputProposedEvent? {
        SagaFrame(sha, s, e);
      } else {
        MessageFrame(sha, s, e);
      }
      KeepsConfirmed(s, s', r);
    }
  }

  lemma SameTablesConfirmed(s: Store, s': Store, r: Uuid)
    requires ConfirmedOk(s, r) && s'.messages == s.messages && s'.proposals == s.proposals && s'.outbox == s.outbox
    ensures ConfirmedOk(s', r)
  {
  }

  lemma StepKeepsConfirmed(sha: seq<Byte> -> Digest, s: Store, step: Step, r: Uuid)
    requires Refs(s) && ConfirmedOk(s, r)
    ensures ConfirmedOk(Apply(sha, s, step), r)
  {
    hide ConfirmedOk, Project, Post, AnswerInput, ProjectData, Finish, Confirmations, Refs;
    var s' := Apply(sha, s, step);
    if step.OpenConversation? {
      SameTablesConfirmed(s, s', r);
    } else {
      hide Apply;
      var c := StepShape(sha, s, step);
      FinishTables(c);
      if step.ProjectEvent? && c != Silent(s) {
        ProjectKeepsConfirmed(sha, s, step.event, r);
        SameTablesConfirmed(c.store, s', r);
      } else if c == Silent(s) {
        SameTablesConfirmed(s, s', r);
      } else {
        ConfirmationsAppend(s.outbox, s'.outbox[|s.outbox|], r);
        KeepsConfirmed(s, s', r);
      }
    }
  }

  // ---------------------------------------------------------------------------------------------
  // Confirmations are prompt

  /** Every message a stored proposal lists is a completed assistant message of its run and conversation. */
  predicate IsComplete(s: Store, r: Uuid)
    requires r in s.proposals
  {
    var ids := s.proposals[r].finalMessageIds;
    && AllDone(s, r, ids)
    && forall m | m in ids ::
         s.messages[m].role == Assistant && s.messages[m].conversationId == s.proposals[r].conversationId
  }

  ghost predicate Prompt(s: Store, r: Uuid) {
    r in s.proposals && IsComplete(s, r) ==> s.proposals[r].confirmed
  }

  lemma NothingCompletes(s: Store, s': Store, r: Uuid)
    requires Prompt(s, r) && s'.proposals == s.proposals && AllKept(s, s')
    requires forall m | m in s'.messages && s'.messages[m].role == Assistant && s'.messages[m].status == Completed
                        && s'.messages[m].runId == r ::
               m in s.messages && s.messages[m].status == Completed
    ensures Prompt(s', r)
  {
    if r in s.proposals && IsComplete(s', r) {
      forall m | m in s.proposals[r].finalMessageIds
        ensures IsDone(s, r, m) && s.messages[m].role == Assistant
        ensures s.messages[m].conversationId == s'.messages[m].conversationId
      {
        assert IsDone(s', r, m);
        assert MessageKept(s, s', m);
      }
    }
  }

  lemma ProposalIsPrompt(s: Store, e: Envelope, r: Uuid)
    requires Refs(s) && e.conversationId in s.conversations && e.data.ProposedEvent? && Prompt(s, r)
    ensures Prompt(ProjectProposal(s, e).store, r)
  {
    hide ConfirmIf, DoneAmong, Refs, IsChange, AllDone;
    var run, ids := e.key.runId, e.data.finalMessageIds;
    var s1, s' := StoreProposal(s, e), ProjectProposal(s, e).store;
    ConfirmFrame(|DoneAmong(s, run, Some(e.conversationId), ids)| == |ids|, s1, run, ids);
    DoneIsAll(s, run, Some(e.conversationId), ids);
    if r in s'.proposals && IsComplete(s', r) {
      assert forall m :: IsDone(s', r, m) == IsDone(s, r, m);
      assert AllDone(s, r, s'.proposals[r].finalMessageIds) by {
        SameMessagesDone(s, s', r, s'.proposals[r].finalMessageIds);
      }
    }
  }

  lemma SameMessagesDone(s: Store, s': Store, r: Uuid, ids: seq<Uuid>)
    requires s'.messages == s.messages
    ensures AllDone(s', r, ids) == AllDone(s, r, ids)
  {
  }

  /** A completion of message m that is about to be stored makes r's unconfirmed proposal complete. */
  predicate CompletesProposal(s: Store, e: Envelope, r: Uuid)
    requires e.data.CompletedEvent? && e.data.messageId in s.messages
  {
    r in s.proposals && !s.proposals[r].confirmed
        && IsComplete(EndMessage(s, e.data.messageId, Completed, e.data.content), r)
  }

  /** Storing a completion leaves a complete proposal unconfirmed exactly if the event names another run. */
  lemma CompletionIsPromptIff(sha: seq<Byte> -> Digest, s: Store, e: Envelope, r: Uuid)
    requires Refs(s) && e.conversationId in s.conversations && e.data.CompletedEvent? && Prompt(s, r)
    requires ProjectCompleted(sha, s, e).Ok?
    ensures e.data.messageId in s.messages
    ensures Prompt(ProjectCompleted(sha, s, e).value.store, r) <==> !(CompletesProposal(s, e, r) && e.key.runId != r)
  {
    hide ConfirmIf, DoneAmong, CompletionProblem, IsChange, IsComplete, Refs;
    var m, run := e.data.messageId, e.key.runId;
    var s1, s' := EndMessage(s, m, Completed, e.data.content), ProjectCompleted(sha, s, e).value.store;
    if run in s1.proposals {
      var ids := s1.proposals[run].finalMessageIds;
      ConfirmFrame(|DoneAmong(s1, run, None, ids)| == |ids|, s1, run, ids);
      DoneIsAll(s1, run, None, ids);
    }
    hide Prompt, ProjectCompleted, ConfirmIfDone, EndMessage;
    if r == run {
      PromptAfter(s1, s', run, r);
    } else {
      OtherProposalAfter(s1, s', run, r);
      PromptIs(s1, r);
    }
  }

  lemma PromptIs(s: Store, r: Uuid)
    ensures Prompt(s, r) <==> !(r in s.proposals && !s.proposals[r].confirmed && IsComplete(s, r))
  {
  }

  lemma OtherProposalAfter(s: Store, s': Store, run: Uuid, r: Uuid)
    requires s'.messages == s.messages && r != run
    requires s'.proposals == s.proposals
             || (run in s.proposals && run in s'.proposals && s'.proposals == s.proposals[run := s'.proposals[run]])
    ensures Prompt(s', r) <==> Prompt(s, r)
  {
    if r in s.proposals {
      SameMessagesDone(s, s', r, s.proposals[r].finalMessageIds);
    }
  }

  /**
   When a completion completes the unconfirmed proposal of a run, that proposal is confirmed if and
   only if the completion's event carries that run.
   */
  lemma CompletionConfirmsIff(sha: seq<Byte> -> Digest, s: Store, e: Envelope, r: Uuid)
    requires Refs(s) && e.conversationId in s.conversations && e.data.CompletedEvent? && ProjectCompleted(sha, s, e).Ok?
    requires e.data.messageId in s.messages && CompletesProposal(s, e, r)
    ensures var s' := ProjectCompleted(sha, s, e).value.store;
            r in s'.proposals && (s'.proposals[r].confirmed <==> e.key.runId == r)
  {
    hide ConfirmIf, DoneAmong, CompletionProblem, IsChange, Refs;
    var m, run := e.data.messageId, e.key.runId;
    var s1 := EndMessage(s, m, Completed, e.data.content);
    if run in s1.proposals {
      var ids := s1.proposals[run].finalMessageIds;
      ConfirmFrame(|DoneAmong(s1, run, None, ids)| == |ids|, s1, run, ids);
      DoneIsAll(s1, run, None, ids);
    }
  }

  lemma PromptAfter(s: Store, s': Store, run: Uuid, r: Uuid)
    requires s'.messages == s.messages && (r != run ==> Prompt(s, r))
    requires if run !in s.proposals then s'.proposals == s.proposals
             else && run in s'.proposals
                  && s'.proposals == s.proposals[run := s.proposals[run].(confirmed := s'.proposals[run].confirmed)]
                  && (AllDone(s, run, s.proposals[run].finalMessageIds) ==> s'.proposals[run].confirmed)
    ensures Prompt(s', r)
  {
    if r in s'.proposals {
      SameMessagesDone(s, s', r, s'.proposals[r].finalMessageIds);
    }
  }

  lemma ProjectIsPromptIff(sha: seq<Byte> -> Digest, s: Store, e: Envelope, r: Uuid)
    requires Refs(s) && Prompt(s, r) && e.conversationId in s.conversations && ProjectData(sha, s, e).Ok?
    ensures e.data.CompletedEvent? ==> e.data.messageId in s.messages
    ensures Prompt(ProjectData(sha, s, e).value.store, r)
            <==> !(e.data.CompletedEvent? && CompletesProposal(s, e, r) && e.key.runId != r)
  {
    hide Prompt, ProjectProposal, ProjectCompleted, CompletesProposal;
    if e.data.ProposedEvent? {
      ProposalIsPrompt(s, e, r);
    } else if e.data.CompletedEvent? {
      CompletionIsPromptIff(sha, s, e, r);
    } else {
      var s' := ProjectData(sha, s, e).value.store;
      forall m | m in s.messages ensures MessageKept(s, s', m) {
        ProjectKeepsMessage(sha, s, e, m);
      }
      OthersComplete(sha, s, e);
      NothingCompletes(s, s', r);
    }
  }

  /** Only a completion completes an assistant message. */
  lemma OthersComplete(sha: seq<Byte> -> Digest, s: Store, e: Envelope)
    requires Refs(s) && e.conversationId in s.conversations && ProjectData(sha, s, e).Ok?
    requires !e.data.CompletedEvent? && !e.data.ProposedEvent?
    ensures var s' := ProjectData(sha, s, e).value.store;
            && s'.proposals == s.proposals
            && forall m | m in s'.messages && s'.messages[m].status == Completed ::
                 m in s.messages && s.messages[m].status == Completed
  {
    hide ProjectData;
    if e.data.SuspendedEvent? || e.data.InputProposedEvent? {
      SagaFrame(sha, s, e);
    } else {
      MessageFrame(sha, s, e);
    }
  }

  lemma PostIsPrompt(s: Store, s': Store, m: Uuid, row: MessageRow, r: Uuid)
    requires Prompt(s, r) && m !in s.messages && row.role == User
    requires s'.messages == s.messages[m := row] && s'.proposals == s.proposals
    ensures Prompt(s', r)
  {
    NothingCompletes(s, s', r);
  }

  lemma SameTablesPrompt(s: Store, s': Store, r: Uuid)
    requires s'.messages == s.messages && s'.proposals == s.proposals
    ensures Prompt(s', r) <==> Prompt(s, r)
  {
    if r in s.proposals {
      SameMessagesDone(s, s', r, s.proposals[r].finalMessageIds);
    }
  }

  /** A step that stores a completion which completes r's proposal, for another run. */
  ghost predicate Misses(sha: seq<Byte> -> Digest, s: Store, step: Step, r: Uuid)
    requires Refs(s)
  {
    step.ProjectEvent?
    && var e := step.event;
       && e.data.CompletedEvent? && e.id !in s.inbox && Owned(s, e.userId, e.conversationId)
       && e.threadId == s.conversations[e.conversationId].threadId && ProjectCompleted(sha, s, e).Ok?
       && e.data.messageId in s.messages && CompletesProposal(s, e, r) && e.key.runId != r
  }

  /** No step but such a completion leaves a complete proposal of r unconfirmed, and each of those does. */
  lemma StepIsPromptIff(sha: seq<Byte> -> Digest, s: Store, step: Step, r: Uuid)
    requires Refs(s) && Prompt(s, r)
    ensures Prompt(Apply(sha, s, step), r) <==> !Misses(sha, s, step, r)
  {
    hide Prompt, Post, AnswerInput, ProjectCompleted, Finish, CompletesProposal;
    var s' := Apply(sha, s, step);
    if step.OpenConversation? {
      SameTablesPrompt(s, s', r);
    } else if step.ProjectEvent? {
      var e := step.event;
      if e.id !in s.inbox && Owned(s, e.userId, e.conversationId)
         && e.threadId == s.conversations[e.conversationId].threadId && ProjectData(sha, s, e).Ok? {
        var c := ProjectData(sha, s, e).value;
        FinishTables(c);
        ProjectIsPromptIff(sha, s, e, r);
        SameTablesPrompt(c.store, s', r);
      }
    } else {
      CommandIsPrompt(sha, s, step, r);
    }
  }

  lemma CommandIsPrompt(sha: seq<Byte> -> Digest, s: Store, step: Step, r: Uuid)
    requires Refs(s) && Prompt(s, r) && (step.PostMessage? || step.AnswerRequest?)
    ensures Prompt(Apply(sha, s, step), r)
  {
    hide Prompt, Post, AnswerInput, Project, Finish;
    var s' := Apply(sha, s, step);
    var c := StepShape(sha, s, step);
    FinishTables(c);
    if step.PostMessage? && c != Silent(s) {
      PostIsPrompt(s, s', step.messageId, s'.messages[step.messageId], r);
    } else {
      SameTablesPrompt(s, s', r);
    }
  }

  /** In every store along a run a complete proposal of r is confirmed. */
  ghost predicate AlwaysPrompt(sha: seq<Byte> -> Digest, s: Store, steps: seq<Step>, r: Uuid)
    requires Refs(s)
    decreases |steps|
  {
    if steps == [] then Prompt(s, r)
    else
      StepKeepsRefs(sha, s, steps[0]);
      Prompt(s, r) && AlwaysPrompt(sha, Apply(sha, s, steps[0]), steps[1..], r)
  }

  ghost predicate NeverMisses(sha: seq<Byte> -> Digest, s: Store, steps: seq<Step>, r: Uuid)
    requires Refs(s)
    decreases |steps|
  {
    if steps == [] then true
    else
      StepKeepsRefs(sha, s, steps[0]);
      !Misses(sha, s, steps[0], r) && NeverMisses(sha, Apply(sha, s, steps[0]), steps[1..], r)
  }

  lemma {:induction false} RunIsPromptIff(sha: seq<Byte> -> Digest, s: Store, steps: seq<Step>, r: Uuid)
    requires Refs(s) && Prompt(s, r)
    ensures AlwaysPrompt(sha, s, steps, r) <==> NeverMisses(sha, s, steps, r)
    ensures NeverMisses(sha, s, steps, r) ==> Prompt(Run(sha, s, steps), r)
    decreases |steps|
  {
    hide Refs, Apply, Prompt, Misses;
    if steps != [] {
      StepKeepsRefs(sha, s, steps[0]);
      StepIsPromptIff(sha, s, steps[0], r);
      if !Misses(sha, s, steps[0], r) {
        RunIsPromptIff(sha, Apply(sha, s, steps[0]), steps[1..], r);
      } else {
        assert !Prompt(Apply(sha, s, steps[0]), r);
      }
    }
  }

  lemma {:induction false} RunKeepsConfirmed(sha: seq<Byte> -> Digest, s: Store, steps: seq<Step>, r: Uuid)
    requires Refs(s) && ConfirmedOk(s, r)
    ensures ConfirmedOk(Run(sha, s, steps), r)
    decreases |steps|
  {
    hide Refs, Apply, ConfirmedOk;
    if steps != [] {
      StepKeepsRefs(sha, s, steps[0]);
      StepKeepsConfirmed(sha, s, steps[0], r);
      RunKeepsConfirmed(sha, Apply(sha, s, steps[0]), steps[1..], r);
    }
  }

  // ---------------------------------------------------------------------------------------------
  // The theorems

  /**
   Over every run there is at most one messages_committed event for a run, exactly if its proposal is
   marked confirmed, and every message it lists is, and stays, a completed message of the run.
   */
  lemma ConfirmedOnce(sha: seq<Byte> -> Digest, steps: seq<Step>, r: Uuid)
    ensures var s := Run(sha, EMPTY, steps); var sent := Confirmations(s.outbox, r);
            && |sent| == (if r in s.proposals && s.proposals[r].confirmed then 1 else 0)
            && (sent != [] ==> sent[0].MessagesCommitted? && AllDone(s, r, sent[0].messageIds))
  {
    hide Run;
    RunKeepsConfirmed(sha, EMPTY, steps, r);
  }

  /**
   A stored proposal whose messages are all completed is confirmed, whichever of the proposal and the
   completions came first, in every store of a run if and only if no completion on the way names
   another run than that of the proposal it completes; and then it is confirmed once.
   */
  lemma CompleteIsConfirmed(sha: seq<Byte> -> Digest, steps: seq<Step>, r: Uuid)
    ensures AlwaysPrompt(sha, EMPTY, steps, r) <==> NeverMisses(sha, EMPTY, steps, r)
    ensures var s := Run(sha, EMPTY, steps);
            NeverMisses(sha, EMPTY, steps, r) && r in s.proposals && IsComplete(s, r) ==>
              s.proposals[r].confirmed && |Confirmations(s.outbox, r)| == 1
  {
    hide Run, IsComplete, Confirmations, NeverMisses, AlwaysPrompt;
    RunIsPromptIff(sha, EMPTY, steps, r);
    ConfirmedOnce(sha, steps, r);
  }

  /** What has been confirmed for the run is what its stored proposal lists. */
  ghost predicate ListsStored(s: Store, r: Uuid) {
    forall event | event in Confirmations(s.outbox, r) ::
      r in s.proposals && event.MessagesCommitted? && event.messageIds == s.proposals[r].finalMessageIds
  }

  /** The ids that a step proposes for the run, if it is an event that does. */
  function ProposedBy(step: Step, r: Uuid): Option<seq<Uuid>> {
    if step.ProjectEvent? && step.event.data.ProposedEvent? && step.event.key.runId == r
    then Some(step.event.data.finalMessageIds) else None
  }

  /** A proposal that comes second, lists other ids than the stored one, and finds all of its own completed. */
  predicate DisagreesDone(s: Store, e: Envelope, r: Uuid) {
    && e.data.ProposedEvent? && e.key.runId == r && e.data.finalMessageIds != [] && Messages in e.data.required
    && r in s.proposals && !s.proposals[r].confirmed && e.data.finalMessageIds != s.proposals[r].finalMessageIds
    && AllDone(s, r, e.data.finalMessageIds)
    && forall m | m in e.data.finalMessageIds :: s.messages[m].conversationId == e.conversationId
  }

  /** A step that stores such a proposal. */
  ghost predicate Mislists(s: Store, step: Step, r: Uuid) {
    step.ProjectEvent?
    && var e := step.event;
       && DisagreesDone(s, e, r) && e.id !in s.inbox && Owned(s, e.userId, e.conversationId)
       && e.threadId == s.conversations[e.conversationId].threadId
  }

  /** A stored proposal stays; a new one is what was proposed; and confirming may list other ids. */
  ghost predicate ListsMove(s: Store, s': Store, r: Uuid, proposed: Option<seq<Uuid>>, mislists: bool) {
    && (r in s.proposals ==>
          r in s'.proposals && s'.proposals[r].finalMessageIds == s.proposals[r].finalMessageIds)
    && (r in s'.proposals && r !in s.proposals ==>
          proposed == Some(s'.proposals[r].finalMessageIds) && s'.proposals[r].finalMessageIds != [])
    && (ListsStored(s', r) <==> ListsStored(s, r) && !mislists)
  }

  lemma ConfirmMovesLists(done: bool, s: Store, run: Uuid, listed: seq<Uuid>, r: Uuid)
    requires Refs(s) && run in s.proposals && ConfirmedOk(s, r)
    ensures ListsMove(s, ConfirmIf(done, s, run, listed), r, None,
                      done && run == r && !s.proposals[r].confirmed && listed != s.proposals[r].finalMessageIds)
  {
    hide ConfirmIf, Refs, Confirmations, AllDone;
    ConfirmFrame(done, s, run, listed);
    var event := ConfirmSends(done, s, run, listed);
    ConfirmationsAppend(s.outbox, event, r);
  }

  lemma SameTablesMoveLists(s: Store, s': Store, r: Uuid, proposed: Option<seq<Uuid>>)
    requires s'.proposals == s.proposals && Confirmations(s'.outbox, r) == Confirmations(s.outbox, r)
    ensures ListsMove(s, s', r, proposed, false)
  {
  }

  lemma ProposalMovesLists(s: Store, e: Envelope, r: Uuid)
    requires Refs(s) && e.conversationId in s.conversations && e.data.ProposedEvent? && ConfirmedOk(s, r)
    ensures ListsMove(s, ProjectProposal(s, e).store, r, ProposedBy(ProjectEvent(e), r), DisagreesDone(s, e, r))
  {
    hide Confirmations, ConfirmIf, DoneAmong, Refs, IsChange, AllDone;
    var run, listed := e.key.runId, e.data.finalMessageIds;
    if listed != [] && Messages in e.data.required {
      var s1 := StoreProposal(s, e);
      var done := |DoneAmong(s, run, Some(e.conversationId), listed)| == |listed|;
      DoneIsAll(s, run, Some(e.conversationId), listed);
      StoredIsConfirmed(s, e, r);
      ConfirmMovesLists(done, s1, run, listed, r);
    }
  }

  lemma StoredIsConfirmed(s: Store, e: Envelope, r: Uuid)
    requires Refs(s) && e.conversationId in s.conversations && e.data.ProposedEvent? && ConfirmedOk(s, r)
    ensures ConfirmedOk(StoreProposal(s, e), r)
  {
    hide Confirmations;
    KeepsConfirmed(s, StoreProposal(s, e), r);
  }

  lemma CompletionMovesLists(sha: seq<Byte> -> Digest, s: Store, e: Envelope, r: Uuid)
    requires Refs(s) && e.conversationId in s.conversations && e.data.CompletedEvent? && ProjectCompleted(sha, s, e).Ok?
    requires ConfirmedOk(s, r)
    ensures ListsMove(s, ProjectCompleted(sha, s, e).value.store, r, None, false)
  {
    hide Confirmations, ConfirmIf, DoneAmong, CompletionProblem, Refs, IsChange, AllDone;
    var run := e.key.runId;
    var s1 := EndMessage(s, e.data.messageId, Completed, e.data.content);
    EndedIsConfirmed(s, e, r);
    if run in s1.proposals {
      var listed := s1.proposals[run].finalMessageIds;
      ConfirmMovesLists(|DoneAmong(s1, run, None, listed)| == |listed|, s1, run, listed, r);
    }
  }

  lemma EndedIsConfirmed(s: Store, e: Envelope, r: Uuid)
    requires Refs(s) && e.data.CompletedEvent? && e.data.messageId in s.messages && ConfirmedOk(s, r)
    requires s.messages[e.data.messageId].status == Streaming
    ensures ConfirmedOk(EndMessage(s, e.data.messageId, Completed, e.data.content), r)
  {
    hide Confirmations;
    KeepsConfirmed(s, EndMessage(s, e.data.messageId, Completed, e.data.content), r);
  }

  lemma ProjectMovesLists(sha: seq<Byte> -> Digest, s: Store, e: Envelope, r: Uuid)
    requires Refs(s) && e.conversationId in s.conversations && ProjectData(sha, s, e).Ok? && ConfirmedOk(s, r)
    ensures ListsMove(s, ProjectData(sha, s, e).value.store, r, ProposedBy(ProjectEvent(e), r), DisagreesDone(s, e, r))
  {
    hide ListsMove, ConfirmedOk, ProjectProposal, ProjectCompleted;
    if e.data.ProposedEvent? {
      ProposalMovesLists(s, e, r);
    } else if e.data.CompletedEvent? {
      CompletionMovesLists(sha, s, e, r);
    } else {
      hide ProjectData;
      if e.data.SuspendedEvent? || e.data.InputProposedEvent? {
        SagaFrame(sha, s, e);
      } else {
        MessageFrame(sha, s, e);
      }
      SameTablesMoveLists(s, ProjectData(sha, s, e).value.store, r, None);
    }
  }

  lemma StepMovesLists(sha: seq<Byte> -> Digest, s: Store, step: Step, r: Uuid)
    requires Refs(s) && ConfirmedOk(s, r)
    ensures ListsMove(s, Apply(sha, s, step), r, ProposedBy(step, r), Mislists(s, step, r))
  {
    hide ListsStored, ConfirmedOk, Post, AnswerInput, ProjectData, Finish, Confirmations, Refs, DisagreesDone;
    var s' := Apply(sha, s, step);
    if step.OpenConversation? {
      SameTablesMoveLists(s, s', r, None);
    } else if step.ProjectEvent? {
      hide Apply;
      EventMovesLists(sha, s, step.event, r);
    } else {
      hide Apply, Project;
      var c := StepShape(sha, s, step);
      FinishTables(c);
      if c != Silent(s) {
        ConfirmationsAppend(s.outbox, s'.outbox[|s.outbox|], r);
      }
      SameTablesMoveLists(s, s', r, None);
    }
  }

  lemma EventMovesLists(sha: seq<Byte> -> Digest, s: Store, e: Envelope, r: Uuid)
    requires Refs(s) && ConfirmedOk(s, r)
    ensures ListsMove(s, Apply(sha, s, ProjectEvent(e)), r, ProposedBy(ProjectEvent(e), r),
                      Mislists(s, ProjectEvent(e), r))
  {
    hide ListsStored, ConfirmedOk, ProjectData, Finish, Confirmations, AllDone;
    var s' := Apply(sha, s, ProjectEvent(e));
    if e.id !in s.inbox && Owned(s, e.userId, e.conversationId)
       && e.threadId == s.conversations[e.conversationId].threadId && ProjectData(sha, s, e).Ok? {
      var c := ProjectData(sha, s, e).value;
      FinishTables(c);
      ProjectMovesLists(sha, s, e, r);
      SameTablesMoveLists(c.store, s', r, None);
    } else {
      if e.data.ProposedEvent? && e.conversationId in s.conversations {
        ProposalsAreTaken(sha, s, e);
      }
      SameTablesMoveLists(s, s', r, None);
    }
  }

  lemma ProposalsAreTaken(sha: seq<Byte> -> Digest, s: Store, e: Envelope)
    requires Refs(s) && e.data.ProposedEvent? && e.conversationId in s.conversations
    ensures ProjectData(sha, s, e).Ok?
  {
  }

  ghost predicate NeverMislists(sha: seq<Byte> -> Digest, s: Store, steps: seq<Step>, r: Uuid)
    requires Refs(s)
    decreases |steps|
  {
    if steps == [] then true
    else
      StepKeepsRefs(sha, s, steps[0]);
      !Mislists(s, steps[0], r) && NeverMislists(sha, Apply(sha, s, steps[0]), steps[1..], r)
  }

  lemma {:induction false} RunListsStoredIff(sha: seq<Byte> -> Digest, s: Store, steps: seq<Step>, r: Uuid)
    requires Refs(s) && ConfirmedOk(s, r)
    ensures ListsStored(Run(sha, s, steps), r) <==> ListsStored(s, r) && NeverMislists(sha, s, steps, r)
    decreases |steps|
  {
    hide Refs, Apply, ListsStored, ConfirmedOk, Mislists;
    if steps != [] {
      StepKeepsRefs(sha, s, steps[0]);
      StepMovesLists(sha, s, steps[0], r);
      StepKeepsConfirmed(sha, s, steps[0], r);
      RunListsStoredIff(sha, Apply(sha, s, steps[0]), steps[1..], r);
    }
  }

  /** All the run's proposals list these ids, or none. */
  predicate ProposesOnly(r: Uuid, ids: seq<Uuid>, step: Step) {
    ProposedBy(step, r).Some? ==> ProposedBy(step, r).value == [] || ProposedBy(step, r).value == ids
  }

  lemma {:induction false} RunListsOnly(sha: seq<Byte> -> Digest, s: Store, steps: seq<Step>, r: Uuid, ids: seq<Uuid>)
    requires Refs(s) && ConfirmedOk(s, r) && ListsStored(s, r)
    requires r in s.proposals ==> s.proposals[r].finalMessageIds == ids
    requires forall i | 0 <= i < |steps| :: ProposesOnly(r, ids, steps[i])
    ensures var s' := Run(sha, s, steps);
            ListsStored(s', r) && (r in s'.proposals ==> s'.proposals[r].finalMessageIds == ids)
    decreases |steps|
  {
    hide Refs, Apply, ListsStored, ConfirmedOk, AllDone;
    if steps != [] {
      assert ProposesOnly(r, ids, steps[0]);
      StepKeepsRefs(sha, s, steps[0]);
      StepMovesLists(sha, s, steps[0], r);
      StepKeepsConfirmed(sha, s, steps[0], r);
      RunListsOnly(sha, Apply(sha, s, steps[0]), steps[1..], r, ids);
    }
  }

  /** If a run's proposals agree, the confirmation lists exactly the proposed ids, as the Runner asks. */
  lemma ConfirmationListsProposal(sha: seq<Byte> -> Digest, steps: seq<Step>, r: Uuid, ids: seq<Uuid>)
    requires forall i | 0 <= i < |steps| :: ProposesOnly(r, ids, steps[i])
    requires r in Run(sha, EMPTY, steps).proposals && Run(sha, EMPTY, steps).proposals[r].confirmed
    ensures var sent := Confirmations(Run(sha, EMPTY, steps).outbox, r);
            |sent| == 1 && sent[0].MessagesCommitted? && sent[0].messageIds == ids
  {
    hide Run;
    RunKeepsConfirmed(sha, EMPTY, steps, r);
    RunListsOnly(sha, EMPTY, steps, r, ids);
  }

  /**
   Over every run, a confirmation lists the ids of the stored proposal if and only if the run has made
   no second proposal that listed other ids, all completed, while the stored one was not confirmed.
   */
  lemma ConfirmationListsStoredIff(sha: seq<Byte> -> Digest, steps: seq<Step>, r: Uuid)
    requires r in Run(sha, EMPTY, steps).proposals && Run(sha, EMPTY, steps).proposals[r].confirmed
    ensures var s := Run(sha, EMPTY, steps); var sent := Confirmations(s.outbox, r);
            && |sent| == 1 && sent[0].MessagesCommitted?
            && (sent[0].messageIds == s.proposals[r].finalMessageIds <==> NeverMislists(sha, EMPTY, steps, r))
  {
    hide Run, NeverMislists;
    RunKeepsConfirmed(sha, EMPTY, steps, r);
    RunListsStoredIff(sha, EMPTY, steps, r);
  }

  const RUN_ONE := AttemptKey(1, 100, 1)
  const RUN_TWO := AttemptKey(2, 200, 1)

  /** The events of a message that is one text, "a", as the Runtime API publishes them for a run. */
  function Started(id: Uuid, m: Uuid): Envelope {
    Envelope(id, 7, 1, 3, RUN_ONE, 1, StartedEvent(m))
  }

  function Delta(id: Uuid, m: Uuid): Envelope {
    Envelope(id, 7, 1, 3, RUN_ONE, 2, DeltaEvent(m, 1, "a"))
  }

  function Done(sha: seq<Byte> -> Digest, id: Uuid, m: Uuid, key: AttemptKey): Envelope {
    Envelope(id, 7, 1, 3, key, 3, CompletedEvent(m, "a", Some(1), Some(1), sha(Encode("a"))))
  }

  function Proposed(id: Uuid, ids: seq<Uuid>): Envelope {
    Envelope(id, 7, 1, 3, RUN_ONE, 4, ProposedEvent(ids, None, [Messages]))
  }

  ghost predicate IsOpen(s: Store) {
    Refs(s) && 1 in s.conversations && s.conversations[1].ownerId == 7 && s.conversations[1].threadId == 3
  }

  /** A message of run 1 that has its one chunk and is not completed. */
  predicate IsStreaming(s: Store, m: Uuid) {
    m in s.messages && s.messages[m] == MessageRow(1, 1, Assistant, Streaming, "") && ChunksOf(s, m) == map[1 := "a"]
  }

  lemma FinishIsOpen(s: Store, c: Change, s': Store)
    requires IsOpen(s) && IsChange(s, c) && s' == Finish(c).(inbox := s'.inbox)
    ensures IsOpen(s')
  {
    if c.Showing? {
      PresentKeepsRefs(c.store, c.conv, c.shown);
    }
  }

  lemma StartIsStored(sha: seq<Byte> -> Digest, s: Store, id: Uuid, m: Uuid)
    requires IsOpen(s) && id !in s.inbox && m !in s.messages
    ensures var s' := Apply(sha, s, ProjectEvent(Started(id, m)));
            && IsOpen(s') && s'.messages == s.messages[m := MessageRow(1, 1, Assistant, Streaming, "")]
            && s'.chunks == s.chunks && s'.proposals == s.proposals && s'.inbox == s.inbox + {id}
  {
    var e := Started(id, m);
    StartedFrame(sha, s, e);
    FinishTables(ProjectData(sha, s, e).value);
    hide ProjectData;
    FinishIsOpen(s, ProjectData(sha, s, e).value, Apply(sha, s, ProjectEvent(e)));
  }

  lemma DeltaIsStored(sha: seq<Byte> -> Digest, s: Store, id: Uuid, m: Uuid)
    requires IsOpen(s) && id !in s.inbox && ChunksOf(s, m) == map[]
    requires m in s.messages && s.messages[m] == MessageRow(1, 1, Assistant, Streaming, "")
    ensures var s' := Apply(sha, s, ProjectEvent(Delta(id, m)));
            && IsOpen(s') && IsStreaming(s', m) && s'.messages == s.messages
            && (forall q | q != m :: ChunksOf(s', q) == ChunksOf(s, q))
            && s'.proposals == s.proposals && s'.inbox == s.inbox + {id}
  {
    var e := Delta(id, m);
    assert Size("a") == 1 by { SizeOfA(); }
    hide Encode;
    assert ProjectDelta(s, e).Ok?;
    DeltaFrame(sha, s, e);
    FinishTables(ProjectData(sha, s, e).value);
    hide ProjectData;
    FinishIsOpen(s, ProjectData(sha, s, e).value, Apply(sha, s, ProjectEvent(e)));
  }

  lemma SizeOfA()
    ensures Size("a") == 1
  {
    assert "a"[1..] == "";
  }

  lemma DoneIsValid(sha: seq<Byte> -> Digest, id: Uuid, m: Uuid, key: AttemptKey)
    ensures CompletionProblem(sha, Done(sha, id, m, key).data, map[1 := "a"]) == None
  {
    SizeOfA();
    assert TextUpTo(map[1 := "a"], 1) == TextUpTo(map[1 := "a"], 0) + "a";
    hide Encode;
  }

  /** The completion is stored; it is the last that run 1's proposal waits for or not, and names run 1 or not. */
  lemma DoneIsStored(sha: seq<Byte> -> Digest, s: Store, id: Uuid, m: Uuid, key: AttemptKey)
    requires IsOpen(s) && id !in s.inbox && IsStreaming(s, m)
    ensures var s' := Apply(sha, s, ProjectEvent(Done(sha, id, m, key))); var e := Done(sha, id, m, key);
            && IsOpen(s') && ProjectCompleted(sha, s, e).Ok?
            && s'.messages == s.messages[m := MessageRow(1, 1, Assistant, Completed, "a")]
            && s'.proposals == ProjectCompleted(sha, s, e).value.store.proposals
            && s'.outbox == ProjectCompleted(sha, s, e).value.store.outbox
            && s'.chunks == s.chunks && s'.inbox == s.inbox + {id}
  {
    var e := Done(sha, id, m, key);
    DoneIsValid(sha, id, m, key);
    hide CompletionProblem, Encode, ConfirmIfDone;
    assert ProjectCompleted(sha, s, e).Ok?;
    assert ProjectData(sha, s, e) == ProjectCompleted(sha, s, e);
    CompletedFrame(sha, s, e);
    FinishTables(ProjectData(sha, s, e).value);
    hide ProjectData, ProjectCompleted;
    FinishIsOpen(s, ProjectData(sha, s, e).value, Apply(sha, s, ProjectEvent(e)));
  }

  lemma ProposalIsStored(sha: seq<Byte> -> Digest, s: Store, id: Uuid, ids: seq<Uuid>)
    requires IsOpen(s) && id !in s.inbox && ids != []
    ensures var s' := Apply(sha, s, ProjectEvent(Proposed(id, ids))); var e := Proposed(id, ids);
            && IsOpen(s') && s'.messages == s.messages && s'.chunks == s.chunks && s'.inbox == s.inbox + {id}
            && s'.proposals == ProjectProposal(s, e).store.proposals && s'.outbox == ProjectProposal(s, e).store.outbox
  {
    var e := Proposed(id, ids);
    assert ProjectData(sha, s, e) == Ok(ProjectProposal(s, e));
    ProposalFrame(sha, s, e);
    FinishTables(ProjectProposal(s, e));
    hide ProjectData, ProjectProposal;
    FinishIsOpen(s, ProjectProposal(s, e), Apply(sha, s, ProjectEvent(e)));
  }

  /** A run of the store one step longer. */
  lemma {:induction false} Then(sha: seq<Byte> -> Digest, s: Store, steps: seq<Step>, step: Step)
    requires Refs(s)
    ensures Refs(Run(sha, s, steps)) && Run(sha, s, steps + [step]) == Apply(sha, Run(sha, s, steps), step)
    decreases |steps|
  {
    hide Apply, Refs;
    if steps == [] {
      assert ([] + [step])[1..] == [];
      StepKeepsRefs(sha, s, step);
    } else {
      StepKeepsRefs(sha, s, steps[0]);
      assert (steps + [step])[1..] == steps[1..] + [step];
      Then(sha, Apply(sha, s, steps[0]), steps[1..], step);
    }
  }

  /** Message 5 of run 1 streams its one chunk, and run 1 has proposed it as its result. */
  lemma ProposedMessage(sha: seq<Byte> -> Digest) returns (steps: seq<Step>, s: Store)
    ensures s == Run(sha, EMPTY, steps) && IsOpen(s) && IsStreaming(s, 5)
    ensures s.messages.Keys == {5} && s.proposals == map[1 := ProposalRow(13, 1, [5], false)] && s.inbox == {11, 12, 13}
    ensures forall q | q != 5 :: ChunksOf(s, q) == map[]
    ensures Confirmations(s.outbox, 1) == []
  {
    hide Run, Apply, ProjectProposal, Confirmations;
    var open := OpenConversation(1, 7, 3);
    var s0 := Apply(sha, EMPTY, open);
    assert s0 == EMPTY.(conversations := map[1 := ConversationRow(7, 3, 0)]) by { OpenFirst(sha); }
    Then(sha, EMPTY, [], open);
    assert Run(sha, EMPTY, []) == EMPTY by { NoStepsLeft(sha, EMPTY); }
    StartIsStored(sha, s0, 11, 5);
    var s1 := Apply(sha, s0, ProjectEvent(Started(11, 5)));
    Then(sha, EMPTY, [] + [open], ProjectEvent(Started(11, 5)));
    DeltaIsStored(sha, s1, 12, 5);
    var s2 := Apply(sha, s1, ProjectEvent(Delta(12, 5)));
    Then(sha, EMPTY, [] + [open] + [ProjectEvent(Started(11, 5))], ProjectEvent(Delta(12, 5)));
    ProposalIsStored(sha, s2, 13, [5]);
    FirstProposalWaits(s2);
    steps := [] + [open] + [ProjectEvent(Started(11, 5))] + [ProjectEvent(Delta(12, 5))]
        + [ProjectEvent(Proposed(13, [5]))];
    Then(sha, EMPTY, [] + [open] + [ProjectEvent(Started(11, 5))] + [ProjectEvent(Delta(12, 5))],
        ProjectEvent(Proposed(13, [5])));
    s := Apply(sha, s2, ProjectEvent(Proposed(13, [5])));
    forall q | q != 5 ensures ChunksOf(s, q) == map[] {
      assert ChunksOf(s, q) == ChunksOf(s2, q) == ChunksOf(s1, q) == ChunksOf(s0, q);
    }
    ConfirmedOnce(sha, steps, 1);
  }

  lemma OpenFirst(sha: seq<Byte> -> Digest)
    ensures Apply(sha, EMPTY, OpenConversation(1, 7, 3)) == EMPTY.(conversations := map[1 := ConversationRow(7, 3, 0)])
  {
  }

  lemma NoStepsLeft(sha: seq<Byte> -> Digest, s: Store)
    requires Refs(s)
    ensures Run(sha, s, []) == s
  {
  }

  lemma FirstProposalWaits(s: Store)
    requires IsOpen(s) && s.proposals == map[] && s.messages == map[5 := MessageRow(1, 1, Assistant, Streaming, "")]
    ensures ProjectProposal(s, Proposed(13, [5])).store.proposals == map[1 := ProposalRow(13, 1, [5], false)]
  {
    assert DoneAmong(s, 1, Some(1), [5]) == {};
  }

  /**
   A run in which a completion names another run: message 5 of run 1 is completed by an event of run
   2, and run 1's proposal, all of whose messages are completed, is not confirmed.
   */
  lemma ForeignCompletionIsMissed(sha: seq<Byte> -> Digest) returns (steps: seq<Step>)
    ensures var s := Run(sha, EMPTY, steps); 1 in s.proposals && IsComplete(s, 1) && !s.proposals[1].confirmed
  {
    hide Run, Apply, IsOpen, IsStreaming, Confirmations, IsComplete;
    var first, s := ProposedMessage(sha);
    OpenRefs(s);
    var last := ProjectEvent(Done(sha, 14, 5, RUN_TWO));
    steps := first + [last];
    Then(sha, EMPTY, first, last);
    ForeignDoneIsMissed(sha, s);
  }

  lemma ForeignDoneIsMissed(sha: seq<Byte> -> Digest, s: Store)
    requires IsOpen(s) && IsStreaming(s, 5) && Refs(s)
    requires s.proposals == map[1 := ProposalRow(13, 1, [5], false)] && 14 !in s.inbox
    ensures var s' := Apply(sha, s, ProjectEvent(Done(sha, 14, 5, RUN_TWO)));
            1 in s'.proposals && IsComplete(s', 1) && !s'.proposals[1].confirmed
  {
    hide Apply, ProjectCompleted, IsOpen;
    var e := Done(sha, 14, 5, RUN_TWO);
    DoneIsStored(sha, s, 14, 5, RUN_TWO);
    OpenRefs(s);
    NoProposalOfRunTwo(sha, s, e);
  }

  lemma NoProposalOfRunTwo(sha: seq<Byte> -> Digest, s: Store, e: Envelope)
    requires Refs(s) && e.conversationId in s.conversations && e.data.CompletedEvent? && ProjectCompleted(sha, s, e).Ok?
    requires e.key.runId !in s.proposals
    ensures ProjectCompleted(sha, s, e).value.store.proposals == s.proposals
  {
    hide CompletionProblem;
  }

  /** Message 6 of run 1 is streamed and completed as well; run 1's proposal goes on to wait for message 5. */
  lemma OtherMessageDone(sha: seq<Byte> -> Digest) returns (steps: seq<Step>, s: Store)
    ensures s == Run(sha, EMPTY, steps) && IsOpen(s) && 17 !in s.inbox
    ensures s.proposals == map[1 := ProposalRow(13, 1, [5], false)]
    ensures 6 in s.messages && s.messages[6] == MessageRow(1, 1, Assistant, Completed, "a")
  {
    hide Run, Apply, ProjectCompleted, Confirmations, IsOpen;
    var first, s0 := ProposedMessage(sha);
    var start, delta, done := ProjectEvent(Started(14, 6)), ProjectEvent(Delta(15, 6)),
        ProjectEvent(Done(sha, 16, 6, RUN_ONE));
    StartIsStored(sha, s0, 14, 6);
    var s1 := Apply(sha, s0, start);
    assert ChunksOf(s1, 6) == ChunksOf(s0, 6);
    OpenRefs(s0);
    Then(sha, EMPTY, first, start);
    DeltaIsStored(sha, s1, 15, 6);
    var s2 := Apply(sha, s1, delta);
    Then(sha, EMPTY, first + [start], delta);
    DoneIsStored(sha, s2, 16, 6, RUN_ONE);
    OpenRefs(s2);
    StillWaiting(sha, s2, done.event);
    Then(sha, EMPTY, first + [start] + [delta], done);
    steps, s := first + [start] + [delta] + [done], Apply(sha, s2, done);
  }

  lemma OpenRefs(s: Store)
    requires IsOpen(s)
    ensures Refs(s) && 1 in s.conversations
  {
  }

  /**
   A run with two proposals that differ: run 1 has proposed message 5, completes message 6, and then
   proposes message 6; what is confirmed is message 6, while the stored proposal lists message 5.
   */
  lemma ProposalsDisagree(sha: seq<Byte> -> Digest) returns (steps: seq<Step>)
    ensures var s := Run(sha, EMPTY, steps); var sent := Confirmations(s.outbox, 1);
            && 1 in s.proposals && s.proposals[1].finalMessageIds == [5]
            && |sent| == 1 && sent[0].MessagesCommitted? && sent[0].messageIds == [6]
  {
    hide Run, Apply, ProjectProposal, Confirmations, IsOpen;
    var before, s := OtherMessageDone(sha);
    var again := ProjectEvent(Proposed(17, [6]));
    OpenRefs(s);
    ProposalIsStored(sha, s, 17, [6]);
    Then(sha, EMPTY, before, again);
    steps := before + [again];
    ConfirmedOnce(sha, before, 1);
    ConfirmationListsArrivingIds(s, again.event);
    var s' := Apply(sha, s, again);
    ConfirmationsAppend(s.outbox, s'.outbox[|s.outbox|], 1);
  }

  /** A message that the proposal does not list leaves it waiting. */
  lemma StillWaiting(sha: seq<Byte> -> Digest, s: Store, e: Envelope)
    requires Refs(s) && e.conversationId in s.conversations && e.data.CompletedEvent? && ProjectCompleted(sha, s, e).Ok?
    requires s.proposals == map[1 := ProposalRow(13, 1, [5], false)] && e.key.runId == 1 && e.data.messageId != 5
    requires 5 in s.messages && s.messages[5].status == Streaming
    ensures ProjectCompleted(sha, s, e).value.store.proposals == s.proposals
  {
    hide CompletionProblem;
    assert DoneAmong(EndMessage(s, e.data.messageId, Completed, e.data.content), 1, None, [5]) == {};
  }

  /**
   If they disagree, it may not: a second proposal event that confirms a run's messages lists its own
   ids, which are those of the stored proposal only if the two events agree.
   */
  lemma ConfirmationListsArrivingIds(s: Store, e: Envelope)
    requires Refs(s) && e.conversationId in s.conversations && e.data.ProposedEvent?
    requires e.data.finalMessageIds != [] && Messages in e.data.required
    requires e.key.runId in s.proposals && !s.proposals[e.key.runId].confirmed
    requires AllDone(s, e.key.runId, e.data.finalMessageIds)
    requires forall m | m in e.data.finalMessageIds :: s.messages[m].conversationId == e.conversationId
    ensures var s' := ProjectProposal(s, e).store; var r := e.key.runId;
            && r in s'.proposals && s'.proposals[r] == s.proposals[r].(confirmed := true)
            && |s'.outbox| == |s.outbox| + 1 && s'.outbox == s.outbox + [s'.outbox[|s.outbox|]]
            && var sent := s'.outbox[|s.outbox|];
               && sent.MessagesCommitted? && sent.runId == r && sent.messageIds == e.data.finalMessageIds
               && (sent.messageIds == s'.proposals[r].finalMessageIds
                   <==> e.data.finalMessageIds == s.proposals[r].finalMessageIds)
  {
    DoneIsAll(s, e.key.runId, Some(e.conversationId), e.data.finalMessageIds);
  }
}
