# Porfirium run execution, verified

Porfirium runs agents in containers. An agent talks to the Runtime API over a reconnecting stream; the
Runtime API publishes what it has accepted as events; the conversation service projects those events
into messages and input requests; the Runner starts, suspends, loses, cancels and completes the runs.
This project models that protocol and proves what it keeps, over every run of its steps, with crashes,
lost replies, duplicates and reordering.

Each service is modelled twice. Its transactions are functions from one database state to the next,
and the theorems are about all runs of these functions. Beside them, classes (`RuntimeService`,
`RuntimeClient`, `MessageStream`, `ToolInvocations`, `Database`, `PostgresStore`) hold the tables as
mutable fields; their methods update the fields statement by statement, with the loops of the source
and with the rollback of a raised error, and are proved to do exactly what the functions say. What the
functions decide is said once more without them, in terms of what rows, frames and events hold: which
call is taken or refused and with which code, and what it leaves behind (the modules `…Decisions`).

| files | what they model |
|---|---|
| `Wrappers.dfy`, `Utf8.dfy`, `Protocol.dfy` | results, UTF-8 (section 3 of RFC 3629), frames, capabilities and events |
| `RuntimeApi.dfy`, `AgentSdk.dfy`, `AgentStream.dfy` | the stream between agents and the Runtime API |
| `RuntimeDecisions.dfy` | what the Runtime API refuses, answers and publishes |
| `Recovery.dfy` | what a reconnection brings through |
| `StreamLimits.dfy`, `OrderedStream.dfy` | which frames are too large, and what a returning send says when calls keep their order |
| `ToolLedger.dfy`, `ToolCalls.dfy` | the ledger of tool invocations, and tool calls through the stream |
| `ToolDecisions.dfy` | which tool calls reach the gateway, and how every call is answered |
| `Runner.dfy`, `RunnerDatabase.dfy` | the Runner's transactions, as functions and as a class |
| `RunnerLifecycle.dfy`, `RunnerOutcomes.dfy`, `RunnerConvergence.dfy`, `RunnerSuspension.dfy`, `RunnerCapacity.dfy` | every interleaving of them, and what it keeps |
| `RunnerDecisions.dfy` | which run starts, what becomes of a lost attempt, a cancel, a suspension and an event |
| `Fencing.dfy` | Runner and Runtime API together |
| `ConversationStore.dfy`, `ConversationDatabase.dfy` | the conversation service's transactions, as functions and as a class |
| `Presentation.dfy`, `Posting.dfy`, `InputSaga.dfy`, `MessageConfirmation.dfy`, `TextRoundTrip.dfy` | what every run of them keeps |
| `ConversationDecisions.dfy` | which events are projected and what they leave behind, and how commands are answered |
| `EndToEnd.dfy` | agents, Runtime API and conversation service together |
| `PlanningAssistant.dfy`, `Compatibility.dfy` | greedy chunking and truncation; the contract compatibility relation |

`dafny verify dfyconfig.toml` checks everything.

## Where the code falls short of its promise

For each of these a lemma gives a concrete run or input, and another says exactly when the promise is kept.

- **One terminal outcome.** `SPECIFICATION.md:100` promises exactly one. The second half of `cancel`
  enqueues `run.cancelled` even when its update no longer matches, so a run that is lost and rescheduled
  in between is announced as cancelled and may then complete (`RunnerOutcomes.CancelOvertaken`). The
  outbox tells one outcome if and only if every cancellation finds its run still cancelling
  (`RunnerOutcomes.OneTerminalOutcome`, for one transaction `RunnerOutcomes.CancelTruthfulIff`).
- **Late starts.** The last update of a start matches on the active attempt and not on the state.
  - If a proposal has already set the run to `completion_reconciling`, the start sets it back to
    `running` (`RunnerConvergence.LateStartStrands`), where no event completes it any more
    (`RunnerConvergence.StrandedForever`). All the parts complete the run if and only if the start did
    not find it reconciling (`RunnerConvergence.CompletesIffStartNotLate`).
  - Such a start can exceed the capacity limits (`RunnerCapacity.LateStartExceedsLimits`). They hold at
    all times if and only if every start commits in time or finds room left
    (`RunnerCapacity.CapacityIsRespected`, for one commit `RunnerCapacity.CommitKeepsLimitsIff`).
- **Suspensions overtaken.** A result proposal of an attempt that is being suspended sets its run to
  `completion_reconciling` (`services/agent-runner/agent_runner/completion.py:104-108`), and no
  redelivery finishes the suspension any more (`RunnerSuspension.ProposalEndsSuspension`). From a running
  attempt on, whatever happens, the next full delivery leaves the run waiting for input if and only if no
  first proposal, no cancel and no loss or failure of the attempt has taken the run
  (`RunnerSuspension.SuspensionSurvivesCrashes`).
- **Losses read before a suspension.** A reconciliation that has read an attempt's row while it was
  running marks the attempt failed after its suspension has ended
  (`RunnerSuspension.StaleLossMarksAttempt`). A delivery that finds the run waiting leaves the attempt as it
  is, and any other has it exited; without such a loss, a late failure of its start or the late end of
  another attempt's suspension it has always exited (`RunnerSuspension.SuspensionSurvivesCrashes`).
- **Completions over 16 KiB.** The SDK completes messages of up to 256 KiB, and a completion carries the
  whole text; but a frame may have 16 KiB
  (`services/agent-runtime-api/agent_runtime_api/runtime.py:25,194-196`). Five accepted deltas of 4096
  bytes are enough (`StreamLimits.CompletionTooLarge`). What a message stream sends in turn is accepted
  if and only if its frame fits (`StreamLimits.StreamIsAcceptedIffItFits`), and after one that does not,
  nothing its attempt creates is ever accepted (`AgentStream.OversizedStopsStream`). Both gRPC channels
  have the same limit (`packages/agent-sdk-python/porfirium_agent_sdk/runtime.py:157-158`,
  `services/agent-runtime-api/agent_runtime_api/main.py:44-45`), so a frame may be stopped before it is
  answered; it is not accepted either way.
- **Empty messages.** The event of a completion without deltas lacks `chunk_count` and `content_bytes`,
  because the JSON form of a protobuf message omits zeros
  (`services/agent-runtime-api/agent_runtime_api/runtime.py:117`), and the conversation service refuses
  it (`TextRoundTrip.EmptyIsRefused`). Once all deltas have arrived, the completion is accepted if and
  only if there was one (`TextRoundTrip.AllDeltasComplete`).
- **Early return of `send`.** `send` returns on the first acknowledgement it reads. If older frames are
  still waiting for theirs, because their sends failed and the agent has connected again, that is an
  older frame's, and its own frame may be durable nowhere (`OrderedStream.SendReturnsTooEarly`). On calls
  that keep their order, that a send has returned means that its frame is durable if and only if no older
  frame was waiting when it began (`OrderedStream.DurableIffNothingPending`), or, in terms of the
  acknowledgement, if and only if that covers the frame (`OrderedStream.DurableIffCovered`), which is when
  the frame has left the client's buffer (`AgentSdk.RuntimeClient.Send`).
- **Tool calls of superseded attempts.** A tool call is made before the epoch of its frame is looked at
  (`services/agent-runtime-api/agent_runtime_api/runtime.py:241-245`), so the gateway is invoked for an
  attempt that has been superseded, whose call is then answered with `stale_epoch`
  (`ToolCalls.StaleCallIsInvoked`). Of whatever attempt, a tool call invokes the gateway if and only if it
  is within all limits and of a tool that its capability lists, there is a gateway, and its invocation id
  is not in the ledger (`ToolCalls.InvokesIffUnknown`).
- **Completions under another run.** The conversation service looks for the proposal of the run a
  completion event names, not of the run the message belongs to, so a completion under another run
  leaves a complete proposal unconfirmed (`MessageConfirmation.ForeignCompletionIsMissed`). One that makes
  a proposal complete confirms it if and only if it names the proposal's run
  (`MessageConfirmation.CompletionConfirmsIff`), and complete proposals are confirmed at all times if and
  only if every completion that makes one complete does so (`MessageConfirmation.CompleteIsConfirmed`).
- **Proposals that differ.** A second proposal event confirms with its own ids and not with the stored
  ones (`MessageConfirmation.ProposalsDisagree`). Over a whole run, the confirmation lists the stored ids
  if and only if no second proposal has listed other ids, all of them completed, while the stored one was
  not confirmed (`MessageConfirmation.ConfirmationListsStoredIff`).

`MemoryStore` differs from `PostgresStore`: where it commits an input request it sets the request pending
whatever its state, and it refuses a started event for a message of another run with `message_conflict`
(`services/conversation-service/conversation_service/domain.py:312-313`). The model follows
`PostgresStore`.

## Assumptions

- A transaction is one atomic step. Between the transactions of `cancel`, `suspend`, `reconcile` and
  `schedule` anything else may happen, also steps whose arguments were read long before.
- A new row of `runs` is accepted with epoch 0. A new attempt id, conversation id or event id is fresh.
- A UUID is a natural number, the id that `uuid5` derives from a suspension is a constructor, and a
  capability is its claims. `sha256` is an arbitrary function, except that a digest is never the empty
  string; only the digest of an HTTP request or of a tool call is taken to stand for the request.
- The size of a frame is that of the text it carries and an arbitrary number of other bytes.
- One `RuntimeClient` exists for each capability. Whatever was written to a call may be lost, delayed,
  repeated and reordered, except in `OrderedStream.dfy`, where a call keeps its order and may be cut.
- An attempt is started once, by the call that has scheduled it
  (`services/agent-runner/agent_runner/service.py:129`), so its start commits at most once.
- The arguments of a tool call come with their canonical JSON text.
- The outcome of the model and tool gateways, of the container backend and of the clock are inputs.
- Envelopes are well formed.

## Model

The methods of `Database` and `PostgresStore` that are not listed are proved equal to the functions of
`Runner.dfy` and `ConversationStore.dfy` that their contracts name, and the listed lemmas are about these.
Where a method's row has a partner in one of the `…Decisions` modules, that says without the function what
the function is: `RuntimeDecisions.AcceptedIff` for `DoAccept`, `RunnerDecisions.ReconcileDecides` for
`DoReconcile`, `Compatibility.ReportIsExact` for `CheckCompatible`, and so on.

| member | source | states |
|---|---|---|
| Utf8.DecodeInvertsEncode | services/agent-runtime-api/agent_runtime_api/runtime.py:118-127 | strict decoding of an encoded text gives the text back, for every text |
| Utf8.DecodedIsEncoded | services/agent-runtime-api/agent_runtime_api/runtime.py:118-127 | bytes that decode at all are the encoding of what they decode to |
| PlanningAssistant.TruncatedDecode | agents/planning-assistant/1.1.1/planning_assistant.py:13 | decoding a cut encoding with errors ignored gives a character prefix that fits, and no longer one does |
| PlanningAssistant.BoundedIsExact | agents/planning-assistant/1.1.1/planning_assistant.py:9-13 | a blank text is refused; any other is cut to its longest character prefix whose encoding fits in the limit |
| PlanningAssistant.GreedyIsOptimal | agents/planning-assistant/1.1.1/planning_assistant.py:16-27 | no split of the same text into pieces within the bound has fewer pieces than a greedy one |
| PlanningAssistant.Chunks | agents/planning-assistant/1.1.1/planning_assistant.py:16-27 | for a maximum of at least 4 the loop yields non-empty pieces within the bound that join to the text, as few as possible |
| RuntimeApi.RuntimeService.DoActivate | services/agent-runtime-api/agent_runtime_api/runtime.py:405-438 | a newer epoch takes the run over at sequence 0, the same one resumes, an older one or another attempt is refused |
| RuntimeApi.RuntimeService.DoAccept | services/agent-runtime-api/agent_runtime_api/runtime.py:440-511 | the frame's row, event and sequence are recorded together, or nothing is, for each of the refusals; which these are, and what the event carries, is said by RuntimeDecisions.AcceptedIff |
| RuntimeApi.RuntimeService.DoServe | services/agent-runtime-api/agent_runtime_api/runtime.py:190-306 | what one frame of a call does, from the size limit on, what is answered, with the result of a model or tool call first, and whether the call goes on |
| RuntimeApi.RuntimeService.Connect | services/agent-runtime-api/agent_runtime_api/runtime.py:190-306 | a whole call serves its frames in order up to the one that ends it |
| RuntimeApi.RedeliveryIsIdempotent | services/agent-runtime-api/agent_runtime_api/runtime.py:454-465 | accepting an accepted frame again changes nothing and returns the event id it was given |
| RuntimeApi.NextIsAcceptedIffItFits | services/agent-runtime-api/agent_runtime_api/runtime.py:190-196 | the next frame of the current attempt is accepted and acknowledged if and only if it fits; one that does not is answered frame_too_large and changes nothing |
| RuntimeDecisions.RefusedFor | services/agent-runtime-api/agent_runtime_api/runtime.py:114-148 | a delta of 1 to 4096 bytes of text, a completion whose size and digest are right and which is text of at most 256 KiB in at most 65536 chunks, and a proposal of at most 64 different ids are not refused; the reason of any other |
| RuntimeDecisions.ActivatedIff | services/agent-runtime-api/agent_runtime_api/runtime.py:405-438 | an attempt is activated if and only if no newer epoch and no other attempt of its epoch is; it resumes its epoch where it stopped, or begins a new one at 0 |
| RuntimeDecisions.AcceptedIff | services/agent-runtime-api/agent_runtime_api/runtime.py:440-511 | a frame is accepted if and only if it says something, its epoch is current, it is the next one and not refused; the code of any other; what is recorded, field by field |
| RuntimeDecisions.FirstIsAnswered | services/agent-runtime-api/agent_runtime_api/runtime.py:190-234 | the first frame of a call is answered as a hello that shows an activatable capability for its own identity, or the call ends, unless it is only too large |
| RuntimeDecisions.LaterIsAnswered | services/agent-runtime-api/agent_runtime_api/runtime.py:235-306 | any later frame is accepted and answered with its result and acknowledgement, or with the one error that stands against it, and changes nothing then |
| RuntimeDecisions.PublishedIsAccepted | services/agent-runtime-api/agent_runtime_api/runtime.py:114-169 | every event in the outbox of a reachable state is that of an accepted frame of its attempt and says, field by field, what the frame and the capability say; messages are required exactly if ids are listed, the checkpoint exactly if one is named |
| RuntimeDecisions.PublishedProposalIsValid | services/agent-runner/agent_runner/completion.py:68-103 | every published result proposal is valid for the Runner while its attempt is the active one, and is taken unless another is stored |
| AgentSdk.RuntimeClient.NextSequence | packages/agent-sdk-python/porfirium_agent_sdk/runtime.py:210 | one more than the largest number acknowledged or pending |
| AgentSdk.RuntimeClient.Enqueue | packages/agent-sdk-python/porfirium_agent_sdk/runtime.py:210-212 | a frame takes the next number and is buffered before it is written |
| AgentSdk.RuntimeClient.OnHelloAccepted | packages/agent-sdk-python/porfirium_agent_sdk/runtime.py:180-186 | the buffered frames above the server's number, and only those, are written again in ascending order |
| AgentSdk.RuntimeClient.OnAcknowledgement | packages/agent-sdk-python/porfirium_agent_sdk/runtime.py:227-231 | exactly the frames up to the acknowledged number leave the buffer; the number never goes back |
| AgentSdk.RuntimeClient.Send | packages/agent-sdk-python/porfirium_agent_sdk/runtime.py:206-243 | a whole send returns on the first acknowledgement it reads, and its own frame is gone from the buffer exactly if that one covers its number |
| AgentSdk.CoveredIffGone | packages/agent-sdk-python/porfirium_agent_sdk/runtime.py:219-232 | a buffered frame leaves the buffer exactly if the acknowledgement that is read covers it |
| AgentSdk.MessageStream.Enter | packages/agent-sdk-python/porfirium_agent_sdk/runtime.py:409-416 | the stream starts empty with a started frame |
| AgentSdk.MessageStream.Delta | packages/agent-sdk-python/porfirium_agent_sdk/runtime.py:418-431 | a text of 1 to 4096 bytes on an active stream becomes the next chunk, anything else changes nothing |
| AgentSdk.MessageStream.Complete | packages/agent-sdk-python/porfirium_agent_sdk/runtime.py:433-449 | the completion covers exactly the texts passed so far; the stream ends exactly if its send returns, and the completion is then still unacknowledged exactly if that was on an earlier frame's acknowledgement |
| AgentSdk.MessageStream.Interrupt | packages/agent-sdk-python/porfirium_agent_sdk/runtime.py:451-458 | a stream that has ended sends nothing more |
| AgentSdk.JoinEncodes | packages/agent-sdk-python/porfirium_agent_sdk/runtime.py:436 | the joined chunks are the encoding of the concatenated texts |
| AgentStream.AcceptanceIsNextFrame | services/agent-runtime-api/agent_runtime_api/runtime.py:440-511 | a frame is accepted only from the current attempt and only as the next one its client created |
| AgentStream.StepKeepsInv | services/agent-runtime-api/agent_runtime_api/runtime.py:405-511 | every step of agents, transport and server keeps buffers, logs, rows, epochs and outbox in agreement |
| AgentStream.StreamRefinement | packages/agent-sdk-python/porfirium_agent_sdk/runtime.py:151-242 | whatever the transport does, an attempt's accepted frames are 1..last_sequence and equal the first ones its client created, their events are published once each in order, and the client still buffers all others |
| AgentStream.EpochFencing | services/agent-runtime-api/agent_runtime_api/runtime.py:405-467 | once a newer epoch is active, rows and events of an older one never change again and its frames and hellos are refused, whatever a gateway it calls answers |
| AgentStream.RedeliveryAnswersTheSame | services/agent-runtime-api/agent_runtime_api/runtime.py:454-465 | an accepted frame keeps its event id forever, and while its attempt is current a re-delivery returns it and changes nothing |
| AgentStream.AcknowledgedIsDurable | packages/agent-sdk-python/porfirium_agent_sdk/runtime.py:219-232 | when an acknowledgement of n can be read, the attempt's frames 1..n are durable, whatever the transport has done |
| AgentStream.OversizedStopsStream | services/agent-runtime-api/agent_runtime_api/runtime.py:194-196 | once a client has created a frame that does not fit, neither it nor any later one of the attempt is ever accepted |
| Recovery.ReconnectionBringsAllThrough | packages/agent-sdk-python/porfirium_agent_sdk/runtime.py:151-190 | from every reachable state, as long as an attempt may be activated and none of its waiting frames would be refused for itself, connecting again can bring every frame it has created through, in order |
| Recovery.RewriteIsWritten | packages/agent-sdk-python/porfirium_agent_sdk/runtime.py:180-186 | the frames a reconnection puts on the wire are exactly those that the client's method writes |
| OrderedStream.SendReturnsTooEarly | packages/agent-sdk-python/porfirium_agent_sdk/runtime.py:219-232 | for any number of frames that older sends have left waiting, a run with order kept in which the next send can return while its own frame is not durable |
| OrderedStream.StepKeepsInv | packages/agent-sdk-python/porfirium_agent_sdk/runtime.py:151-242 | with order kept, unread acknowledgements and unserved frames of an open call ascend, from above all that the client has read |
| OrderedStream.DurableIffNothingPending | packages/agent-sdk-python/porfirium_agent_sdk/runtime.py:206-232 | a returning send has made its frame durable, in every run with order kept, if and only if it began with all older frames acknowledged |
| OrderedStream.DurableIffCovered | packages/agent-sdk-python/porfirium_agent_sdk/runtime.py:219-232 | a send that returns on an acknowledgement has made its frame durable, in every run with order kept, if and only if the acknowledgement covers it |
| StreamLimits.FittingIsNotRefused | services/agent-runtime-api/agent_runtime_api/runtime.py:468-483 | nothing but its size stands against what a message stream sends within its limits |
| StreamLimits.StreamIsAcceptedIffItFits | services/agent-runtime-api/agent_runtime_api/runtime.py:190-196 | what a message stream sends in turn is accepted and acknowledged if and only if text and frame are together within 16 KiB |
| StreamLimits.CompletionTooLarge | packages/agent-sdk-python/porfirium_agent_sdk/runtime.py:433-449 | a call in which five deltas of 4096 bytes are accepted and the completion of the message is refused for its size |
| ToolLedger.ToolInvocations.DoReserve | services/agent-runtime-api/agent_runtime_api/runtime.py:353-382 | a fresh id is reserved; a known one yields its stored result, a conflict or an ambiguous outcome |
| ToolLedger.ToolInvocations.DoRecord | services/agent-runtime-api/agent_runtime_api/runtime.py:391-403 | an outcome is recorded only for a reservation that has none |
| ToolLedger.ToolCallsAtMostOnce | services/agent-runtime-api/agent_runtime_api/runtime.py:353-403 | over all callers and crashes the gateway is invoked at most once for an id, and all successful returns carry one digest and that invocation's result |
| ToolLedger.AmbiguousForever | services/agent-runtime-api/agent_runtime_api/runtime.py:364-382 | a reservation whose caller is gone refuses every later call and is never invoked again |
| ToolCalls.RunDrivesLedger | services/agent-runtime-api/agent_runtime_api/runtime.py:241-245 | whatever frames, attempts and epochs come in between, tool calls through the stream take the ledger through a run of its own system |
| ToolCalls.OneInvocationForAll | services/agent-runtime-api/agent_runtime_api/runtime.py:353-403 | over all attempts, epochs, reconnections and crashes the gateway is invoked at most once for an invocation id of a run, and every call with the id that comes to a result has that one's |
| ToolCalls.InvokesIffUnknown | services/agent-runtime-api/agent_runtime_api/runtime.py:329-388 | a tool call invokes its gateway if and only if it is of the call's own attempt, its frame has at most 16 KiB, its tool has 1 to 128 characters and is one that the capability lists, its arguments have at most 8 KiB, there is a gateway, and its id is not in the ledger, whatever its epoch |
| ToolDecisions.SameRequestIff | services/agent-runtime-api/agent_runtime_api/runtime.py:345-352 | unless the digest collides, two calls are the same request if and only if tool and arguments are the same, whatever characters the tool's name has |
| ToolDecisions.OtherIsRefused | services/agent-runtime-api/agent_runtime_api/runtime.py:328-344 | a call that may not reach the gateway is answered with the code of the first check it fails, and nothing else changes |
| ToolDecisions.KnownIsDecided | services/agent-runtime-api/agent_runtime_api/runtime.py:358-373 | a call with a known id has the stored result if it is the same request and completed, and is answered with a conflict or an ambiguous outcome otherwise; the ledger stays as it is |
| ToolDecisions.UnknownIsReserved | services/agent-runtime-api/agent_runtime_api/runtime.py:374-382 | a call with a new id adds its row, without an outcome, and is under way |
| ToolDecisions.TooLargeIsRefused | services/agent-runtime-api/agent_runtime_api/runtime.py:389-390 | a result that is too large is answered tool_response_invalid and leaves the row without an outcome |
| ToolDecisions.ResultIsStored | services/agent-runtime-api/agent_runtime_api/runtime.py:391-403 | the result of the one invocation is stored with its request and is the call's |
| ToolDecisions.ResultIsAnswered | services/agent-runtime-api/agent_runtime_api/runtime.py:241-306 | a call with a result is answered with it and acknowledged if its frame is accepted, and otherwise with the code that says why not |
| ToolDecisions.GatewayIsForCalls | services/agent-runtime-api/agent_runtime_api/runtime.py:328-388 | in every run, an id has a row if and only if a call with it has come that was within all limits, of a tool its shown capability lists, while there was a gateway; the gateway is invoked for such ids only |
| ToolCalls.StaleCallsAreRefused | services/agent-runtime-api/agent_runtime_api/runtime.py:241-255 | once a newer epoch is active, every tool call of an older attempt, arriving or under way, is answered with an error only |
| ToolCalls.StaleCallIsInvoked | services/agent-runtime-api/agent_runtime_api/runtime.py:241-245 | a run in which a superseded attempt's call is invoked and refused, and the current attempt gets its result without another invocation |
| Fencing.NoAttemptMismatch | services/agent-runner/agent_runner/service.py:132-162 | for every issued capability activation fails only as stale, never as a mismatch, and no activated epoch is newer than the run's lease |
| Fencing.OnlyTheActiveAttemptWrites | services/agent-runner/agent_runner/service.py:103-162 | once the Runner's active attempt has connected, nothing of any other attempt of the run is accepted, acknowledged or published again, whatever a gateway it calls answers |
| RunnerDatabase.Database.NextNumber | services/agent-runner/agent_runner/service.py:116-118 | one more than the largest attempt number of the run |
| RunnerDatabase.Database.DoReconcile | services/agent-runner/agent_runner/service.py:334-342 | every row whose container is not running is handled once, in order, and counted; what becomes of its run is said by RunnerDecisions.ReconcileDecides |
| RunnerDatabase.Database.DoConverge | services/agent-runner/agent_runner/completion.py:139-212 | stored payloads set their flags, and a reconciling run with all it requires completes and says so |
| RunnerDatabase.Database.ConsumeRunEvent | services/agent-runner/agent_runner/completion.py:20-65 | an event is consumed once, is refused if it is not bound to its run, and one that raises leaves every table as it was |
| RunnerDecisions.StartsIffThereIsRoom | services/agent-runner/agent_runner/service.py:103-130 | a run gets an attempt and starts if and only if it is accepted or scheduled without one and fewer than the global limit of all runs, and fewer than the per-user limit of its user's, are starting, running, suspending or cancelling; nothing changes otherwise |
| RunnerDecisions.LossDecides | services/agent-runner/agent_runner/service.py:357-396 | a run whose active attempt is lost is scheduled again if and only if the attempt has shown no output, is not the last allowed and the deadline has not passed; otherwise it fails, with attempt_lost_after_output exactly if output was shown, and the active message, if there is one, is interrupted |
| RunnerDecisions.ReconcileDecides | services/agent-runner/agent_runner/service.py:325-342 | over all rows of a reconciliation, a run whose container runs is left alone, and any other is scheduled again or failed as its own row says |
| RunnerDecisions.OutputIsStarted | services/agent-runner/agent_runner/completion.py:50-60 | in every run, an attempt has visible output if and only if a message-started event of it was taken while it was active, and its message is that of the last one |
| RunnerDecisions.LostOutputIsFinal | services/agent-runner/agent_runner/service.py:363-381 | after the loss of an attempt that was read with visible output while active, its run has failed for good and gets no further attempt, whatever happens |
| RunnerDecisions.CancelBeginsUnlessOver | services/agent-runner/agent_runner/service.py:204-223 | a cancel begins if and only if the run is not completed, failed or cancelled; then the run is cancelling and its active attempt is to stop |
| RunnerDecisions.CancelEnds | services/agent-runner/agent_runner/service.py:226-272 | its end has the attempt exited, a run that is still cancelling cancelled, and the attempt's message interrupted before the cancellation is announced |
| RunnerDecisions.SuspensionIsTakenIff | services/agent-runner/agent_runner/service.py:286-310 | a suspension is taken if and only if it is of the active attempt and epoch of a running or suspending run, is a finished redelivery exactly if it was taken and the run waits, and is stale otherwise |
| RunnerDecisions.ConsumedIff | services/agent-runner/agent_runner/completion.py:20-65 | an event is consumed if and only if it is new, of a known run, bound to it and acceptable for its kind; the code of any other, which changes nothing |
| RunnerDecisions.DedupIs | services/agent-runner/agent_runner/completion.py:73 | the confirmations required are those listed, once each, in the order in which they come first |
| RunnerDecisions.CompletionIsStored | services/agent-runner/agent_runner/completion.py:97-187 | a proposal or confirmation that is taken is stored, every stored confirmation that matches the proposal counts whichever came first, and once all required ones count the attempt exits and a reconciling run completes and says so |
| RunnerLifecycle.NextNumberIsNextEpoch | services/agent-runner/agent_runner/service.py:115-124 | the largest attempt number of a run is its lease epoch |
| RunnerLifecycle.StepKeepsInv | services/agent-runner/agent_runner/service.py:103-421 | every transaction at every interleaving keeps attempts, proposals, terminal codes and completion events in agreement |
| RunnerLifecycle.RunKeepsInv | services/agent-runner/agent_runner/service.py:103-421 | the same over every run |
| RunnerOutcomes.CompletedIffAnnounced | services/agent-runner/agent_runner/completion.py:68-212 | a run is completed only through its last attempt's proposal with every confirmation for exactly the proposed ids, and one run.completed event is in the outbox if and only if it is |
| RunnerOutcomes.TerminalIsFinal | services/agent-runner/agent_runner/service.py:184-202 | completed, failed and cancelled are never left and keep their terminal code |
| RunnerOutcomes.AttemptsAreEpochs | services/agent-runner/agent_runner/service.py:103-130 | attempts are 1..lease_epoch, one an epoch, at most max(1, max_attempts), and the active one is the newest and only in the five states that have one |
| RunnerOutcomes.CancelTruthfulIff | services/agent-runner/agent_runner/service.py:226-272 | the cancellation announced is true if and only if the run is found cancelling |
| RunnerOutcomes.StepExcess | services/agent-runner/agent_runner/service.py:204-272 | a step adds an untrue cancellation exactly if it is the second half of a cancel that does not find its run cancelling |
| RunnerOutcomes.OneTerminalOutcome | services/agent-runner/agent_runner/service.py:204-272 | a completed run has one run.completed event and any other none; the outbox tells the one outcome if and only if every cancellation finds its run still cancelling |
| RunnerOutcomes.CancelOvertaken | services/agent-runner/agent_runner/service.py:226-272 | a run that is announced as cancelled and as completed |
| RunnerConvergence.Confluence | services/agent-runner/agent_runner/completion.py:20-187 | a proposal and its confirmations in any order, any number of times, among events of other runs and started messages, end in the same completion record and one event |
| RunnerConvergence.CompletedIffEverything | services/agent-runner/agent_runner/completion.py:139-187 | nothing short of the proposal and all its confirmations completes the run |
| RunnerConvergence.StrandedForever | services/agent-runner/agent_runner/completion.py:177-182 | no event moves a run with a stored proposal that a late start has set back to running |
| RunnerConvergence.CompletesIffStartNotLate | services/agent-runner/agent_runner/service.py:178-187 | with all the parts the run completes if and only if the start did not find it reconciling |
| RunnerConvergence.LateStartStrands | services/agent-runner/agent_runner/service.py:178-187 | a run from the empty database whose start commits after its proposal and is stranded |
| RunnerSuspension.SuspensionSurvivesCrashes | services/agent-runner/agent_runner/service.py:274-323 | from a running attempt on, over every interleaving, the next full delivery leaves the run waiting for input, without attempt, if and only if no first proposal, cancel, loss or failure has taken the run, and changes nothing otherwise; and the attempt has exited unless it was marked otherwise while the run was waiting |
| RunnerSuspension.ProposalEndsSuspension | services/agent-runner/agent_runner/service.py:295-300 | a run from the empty database whose suspension has begun, and which a proposal keeps every redelivery from ending |
| RunnerSuspension.StaleLossMarksAttempt | services/agent-runner/agent_runner/service.py:357-381 | a run from the empty database that waits for input with its attempt marked failed by a stale loss |
| RunnerSuspension.StaleSuspensionIsHarmless | services/agent-runner/agent_runner/service.py:295-300 | a suspension of another attempt or epoch changes nothing |
| RunnerCapacity.CapacityIsRespected | services/agent-runner/agent_runner/capacity.py:18-33 | over every interleaving, starting, running and suspending runs stay within the global and every user's limit at all times if and only if every start commits in time or finds room left |
| RunnerCapacity.CommitKeepsLimitsIff | services/agent-runner/agent_runner/service.py:178-187 | a start keeps the limits if and only if it commits in time or there is room left |
| RunnerCapacity.LateStartExceedsLimits | services/agent-runner/agent_runner/service.py:178-187 | a run of two starts that exceeds a global limit of one |
| ConversationDatabase.PostgresStore.CountDone | services/conversation-service/conversation_service/store.py:285-289 | the number of listed completed messages of the run |
| ConversationDatabase.PostgresStore.Validate | services/conversation-service/conversation_service/domain.py:121-142 | the first of the problems a completion has, or none |
| ConversationDatabase.PostgresStore.JoinChunks | services/conversation-service/conversation_service/store.py:385-389 | all stored chunks in ascending order, joined |
| ConversationDatabase.PostgresStore.DoProject | services/conversation-service/conversation_service/store.py:254-427 | an event is projected once; one that raises leaves every table as it was |
| ConversationDatabase.PostgresStore.DoReplay | services/conversation-service/conversation_service/domain.py:269-273 | the first events after the cursor, at most limit of them |
| ConversationDatabase.PostgresStore.ReadMissing | services/conversation-service/conversation_service/main.py:236-249 | paging until a page is empty gives exactly the missing suffix, for any cursor and any limit of at least 1 |
| ConversationDecisions.ProjectedIff | services/conversation-service/conversation_service/store.py:254-427 | an event is projected if and only if it is new, of a conversation of its user and thread, and nothing that is stored or that it says stands against it; the code of any other, which changes nothing |
| ConversationDecisions.DeltaIsProjected | services/conversation-service/conversation_service/store.py:342-362 | a delta becomes the chunk of its number and is shown with the next number, and nothing else changes |
| ConversationDecisions.EndedIsProjected | services/conversation-service/conversation_service/store.py:383-398 | an interrupted or failed message is given that status and the text of its chunks |
| ConversationDecisions.CompletionIsProjected | services/conversation-service/conversation_service/store.py:363-382 | a completed message has the event's text, and the proposal stored for the event's run is confirmed, with its own ids, if and only if these are now all completed and different and it was not confirmed |
| ConversationDecisions.ProposalIsProjected | services/conversation-service/conversation_service/store.py:278-303 | a proposal that asks for no messages is not shown; any other is stored unless its run has one, and confirmed with its own ids if and only if these are different completed messages of its run and conversation and the run is not confirmed |
| ConversationDecisions.HalfIsProjected | services/conversation-service/conversation_service/store.py:304-328 | each half of a suspension is stored unless it is there, and with both there a reserved request becomes pending and is shown with its checkpoint and prompt |
| ConversationDecisions.PostDecides | services/conversation-service/conversation_service/store.py:143-240 | which message is posted, the code of any other, and all that a posted one leaves behind: message, run request, shown event and used key |
| ConversationDecisions.AnswerDecides | services/conversation-service/conversation_service/store.py:512-597 | which answer is accepted, the code of any other, and all that an accepted one leaves behind: answered request, run request from its checkpoint, shown event and used key |
| Presentation.GapFree | services/conversation-service/conversation_service/domain.py:188-194 | in every reachable store a conversation's events are numbered 1..last_sequence |
| Presentation.ReplayIsExact | services/conversation-service/conversation_service/store.py:242-252 | a page is the next events after the cursor without a gap |
| Presentation.FollowIsExact | services/conversation-service/conversation_service/main.py:238-249 | a reader that pages while the service goes on is given consecutive events, once each |
| Presentation.EndedIsFinal | services/conversation-service/conversation_service/domain.py:275-281 | status and content of a message that has ended never change again |
| Posting.OneRunPerPost | services/conversation-service/conversation_service/store.py:178-230 | in every reachable store a posted message has enqueued exactly one run request, for its own run and text in its owner's name, and no other message any |
| Posting.PostedOnce | services/conversation-service/conversation_service/store.py:156-240 | a posted message is stored and shown under the number returned, and the same key and request return that number forever and change nothing |
| InputSaga.RequestIsVisibleOnce | services/conversation-service/conversation_service/store.py:429-456 | a request has been shown once, in its conversation, if both halves are recorded, and then they fit; otherwise never |
| InputSaga.HalfIsTakenIffItFits | services/conversation-service/conversation_service/store.py:304-328 | an arriving half is taken if and only if it fits, makes the request pending if the other is there, and otherwise changes nothing |
| InputSaga.StepMovesForward | services/conversation-service/conversation_service/store.py:446-450 | a request moves one state at a time from reserved to pending to answered and changes in no other way |
| InputSaga.FollowUpIffAnswered | services/conversation-service/conversation_service/store.py:547-587 | the outbox holds one follow-up run request, with the answer, if and only if the request is answered |
| InputSaga.OneEffectiveAnswer | services/conversation-service/conversation_service/store.py:512-597 | an accepted answer stays the answer: the same key and body return the original result forever, another key is refused, and neither changes anything |
| MessageConfirmation.DoneIsAll | services/conversation-service/conversation_service/store.py:285-298 | the count equals the number of ids exactly if they are distinct and all completed |
| MessageConfirmation.ConfirmedOnce | services/conversation-service/conversation_service/store.py:458-497 | a run has one messages_committed event if and only if its proposal is confirmed, and all it lists is completed and stays so |
| MessageConfirmation.CompleteIsConfirmed | services/conversation-service/conversation_service/store.py:278-382 | a proposal whose messages are all completed is confirmed in every store of a run, whichever came first, if and only if no completion that completes it names another run; then once |
| MessageConfirmation.CompletionConfirmsIff | services/conversation-service/conversation_service/store.py:370-382 | a completion that makes the proposal of a run complete confirms it if and only if its event names that run |
| MessageConfirmation.StepIsPromptIff | services/conversation-service/conversation_service/store.py:254-427 | a step leaves a complete proposal unconfirmed if and only if it stores a completion that completes it under another run |
| MessageConfirmation.ConfirmationListsProposal | services/conversation-service/conversation_service/store.py:297-298 | if a run's proposals agree, the confirmation lists exactly the proposed ids |
| MessageConfirmation.ForeignCompletionIsMissed | services/conversation-service/conversation_service/store.py:370-382 | a run from the empty store in which a completion under another run leaves a complete proposal unconfirmed |
| MessageConfirmation.ConfirmationListsStoredIff | services/conversation-service/conversation_service/store.py:278-303 | over every run, the confirmation lists the stored ids if and only if no second proposal listed other ids, all completed, while the stored one was unconfirmed |
| MessageConfirmation.ProposalsDisagree | services/conversation-service/conversation_service/store.py:278-303 | a run from the empty store that confirms message 6 for a run whose stored proposal lists message 5 |
| TextRoundTrip.StreamDataRoundTrip | services/agent-runtime-api/agent_runtime_api/runtime.py:114-127 | the events of a message stream carry its texts |
| TextRoundTrip.ValidCompletionIsText | services/conversation-service/conversation_service/domain.py:121-142 | a completion that passes the checks says exactly the stored chunks, numbered 1..n |
| TextRoundTrip.StoredTextIsPassedText | services/conversation-service/conversation_service/domain.py:121-142 | if the deltas of a message carry the texts, then whatever its completions say, a completed message holds exactly the first n texts, its chunks are 1..n, and a completion counted n |
| TextRoundTrip.AllDeltasComplete | services/conversation-service/conversation_service/domain.py:314-330 | once all deltas have been delivered after the start, in any order, repeated and mixed with anything else, the completion is accepted with the whole text if and only if there was a delta |
| TextRoundTrip.EmptyIsRefused | services/conversation-service/conversation_service/domain.py:122-130 | the completion of a message without deltas lacks its counts and is refused, whatever is stored |
| EndToEnd.TextSurvives | packages/agent-sdk-python/porfirium_agent_sdk/runtime.py:418-449 | if the delta frames carry the texts passed to the stream, a completed message holds exactly the first n, with n the count of a created completion, across retransmission, fencing and at-least-once delivery |
| EndToEnd.CompletedTextSurvives | packages/agent-sdk-python/porfirium_agent_sdk/runtime.py:433-449 | if all frames about a message are its stream's, the stored text is that of a completion that Complete has sent, which covers all texts passed at that call |
| Compatibility.CheckCompatible | scripts/contracts/compatibility.py:64-78 | the loop reports exactly the problems, in order; which these are is said by Compatibility.ReportIsExact |
| Compatibility.CompatibleIffExtends | scripts/contracts/compatibility.py:64-78 | an empty report means that everything old is kept, however deep, and replaced only as allowed |
| Compatibility.LooksIffAgrees | scripts/contracts/compatibility.py:78 | two trees look the same from everywhere inside if and only if they agree at every place: null for null, the same string, numbers of the same value, lists of one length item by item, objects key by key |
| Compatibility.CompatibleIffStands | scripts/contracts/compatibility.py:64-78 | an empty report means that at every chain of keys the old value still stands: a scalar or list looks the same, or a list at a path ending in :enum or .responses has lost no shown text, and an object is still one with all its keys; and the converse |
| Compatibility.ReportIsExact | scripts/contracts/compatibility.py:64-78 | a report holds exactly the problems that there are at the chains of keys of the old tree, each with its path and kind |
| Compatibility.ReportInOrder | scripts/contracts/compatibility.py:68-73 | problems are reported in the order of the old keys |
| Compatibility.CompatibleIsPreorder | scripts/contracts/compatibility.py:64-78 | a tree is compatible with itself, and chains of accepted changes are acceptable |

## Left out

- Liveness: `send` may wait forever for an acknowledgement that was lost
  (`packages/agent-sdk-python/porfirium_agent_sdk/runtime.py:184-186,219-220`), so only safety is claimed, and that a
  reconnection can bring every frame through (`Recovery.ReconnectionBringsAllThrough`).
- The idempotency keys of `admit`, of `cancel` and of creating a conversation: the pattern is that of posting a message.
- Grants, configuration revisions, titles, timestamps, usage and trace fields, and the ids of outgoing events.
- RunnerDatabase.Database.ConsumeRunEvent: takes the event as well formed; `validate_envelope` checks single fields, and so does `validate_event_envelope` in the conversation service.
- The checks of a model call, and the model gateway's retries.
- Confirmations for several checkpoints of one run: only the latest payload of a kind is kept, so convergence is stated for one.
- The concurrent check of the inbox before the conversation's row is locked: its loser fails on the inbox's key and changes nothing.
- The orphaned containers that `reconcile` removes, and the container actions themselves.
- Checkpoint API, Registry, grants, retention, dead letters, web interfaces and tool servers.
- JSON documents with values that are not equal to themselves, and the width of database integers.
- TextRoundTrip.AllDeltasComplete: leaves open that a delta delivered before its start is refused and delivered again.
