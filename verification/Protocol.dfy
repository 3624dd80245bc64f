/** What travels between an agent, the Runtime API and the services that consume its events. */
module Protocol {
  import opened Wrappers
  import opened Utf8

  type Uuid = nat
  type Digest = string

  /** The input request id a suspension derives, and any other id an agent may claim. */
  datatype RequestId = OfSuspension(suspensionId: Uuid) | Claimed(id: Uuid)

  datatype AttemptKey = AttemptKey(runId: Uuid, attemptId: Uuid, leaseEpoch: nat)

  datatype Capability = Capability(
    key: AttemptKey, userId: Uuid, conversationId: Uuid, threadId: Uuid, tools: set<string>)

  /**
   The oneof payload of an agent frame; Unset is a frame that carries none. A tool call names no
   invocation if its id is no UUID. Its arguments are given as JSON text in canonical form, and by the
   size of the text in plain form.
   */
  datatype Payload =
    | Unset
    | Hello(capability: Option<Capability>)
    | Heartbeat
    | MessageStarted(messageId: Uuid)
    | MessageDelta(messageId: Uuid, chunkSequence: nat, contentUtf8: seq<Byte>)
    | MessageCompleted(messageId: Uuid, canonicalContentUtf8: seq<Byte>, chunkCount: nat,
                       contentBytes: nat, contentSha256: Digest)
    | MessageInterrupted(messageId: Uuid, code: string)
    | InputRequestProposed(suspensionId: Uuid, checkpointId: Uuid, prompt: string)
    | SuspensionCommitted(suspensionId: Uuid, checkpointId: Uuid, inputRequestId: RequestId)
    | ResultProposed(finalMessageIds: seq<Uuid>, finalCheckpointId: Option<Uuid>)
    | ModelCall(requestId: Uuid)
    | ToolCall(invocationId: Option<Uuid>, tool: string, arguments: string, argumentBytes: nat)

  /** otherBytes is what the serialized frame takes besides the text it carries. */
  datatype Frame = Frame(key: AttemptKey, sequence: nat, idempotencyKey: string, otherBytes: nat, payload: Payload)

  const MAX_FRAME_BYTES: nat := 16 * 1024

  function TextBytes(payload: Payload): nat {
    match payload
    case MessageDelta(_, _, bytes) => |bytes|
    case MessageCompleted(_, bytes, _, _, _) => |bytes|
    case _ => 0
  }

  /** Whether the serialized frame is within the limit of the stream. */
  predicate Fits(frame: Frame) {
    frame.otherBytes + TextBytes(frame.payload) <= MAX_FRAME_BYTES
  }

  datatype Confirmation = Messages | Checkpoint

  /** The data part of an event. Fields that are absent from its JSON form are None. */
  datatype EventData =
    | StartedEvent(messageId: Uuid)
    | DeltaEvent(messageId: Uuid, chunkSequence: nat, content: string)
    | CompletedEvent(messageId: Uuid, content: string, chunkCount: Option<nat>, contentBytes: Option<nat>,
                     contentSha256: Digest)
    | InterruptedEvent(messageId: Uuid, code: string)
    | FailedEvent(messageId: Uuid, code: string)
    | InputProposedEvent(suspensionId: Uuid, checkpointId: Uuid, prompt: Option<string>)
    | SuspendedEvent(suspensionId: Uuid, checkpointId: Uuid, inputRequestId: RequestId)
    | ProposedEvent(finalMessageIds: seq<Uuid>, finalCheckpointId: Option<Uuid>, required: seq<Confirmation>)
    | OtherEvent

  datatype Envelope = Envelope(
    id: Uuid, userId: Uuid, conversationId: Uuid, threadId: Uuid,
    key: AttemptKey, aggregateSequence: nat, data: EventData)

  predicate Distinct<T(==)>(items: seq<T>) {
    forall i, j | 0 <= i < j < |items| :: items[i] != items[j]
  }
}
