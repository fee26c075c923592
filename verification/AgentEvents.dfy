/** Durable runtime facts and the events of the Agent stream made from them.

    A payload is kept as the fields the projection reads, already parsed: a field that is
    missing or of the wrong type is None, and where the code tells a missing field from an
    unreadable one, the field is a `Field`. */
module AgentEvents {
  import opened Options
  import opened Text

  datatype Field<+T> = Absent | Malformed | Parsed(value: T)

  datatype EventType =
    | TaskCreated
    | TurnStarted
    | TaskCompleted
    | TaskAborted
    | TaskInterrupted
    | TaskUncertain
    | ProviderStarted
    | ProviderStreamed
    | ProviderCompleted
    | ProviderFailed
    | AssistantMessage
    | ToolStarted
    | ToolProgress
    | ToolCompleted
    | ApprovalRequested
    | ApprovalResolved
    | VerificationCompleted
    | LoopDecided
    | LoopGuardTriggered
    | OtherType(name: string)

  predicate IsTaskTerminal(t: EventType) {
    t.TaskCompleted? || t.TaskAborted? || t.TaskInterrupted? || t.TaskUncertain?
  }

  datatype Source = Evaluator | OtherSource(name: string)

  datatype TaskStatus =
    | Idle | Running | WaitingApproval | WaitingAuthentication | Pausing | Paused | Aborting
    | Completed | Partial | Failed | Blocked | Cancelled | Interrupted | Uncertain

  datatype VerificationResult = Pass | Fail | PartialPass | Unknown

  datatype VerificationRecord = VerificationRecord(id: string, result: VerificationResult)

  /** An outcome reported by an event, or the one the runtime derives from a status. */
  datatype TaskOutcome =
    | Reported(id: string)
    | FromStatus(status: TaskStatus, verification: VerificationResult)

  datatype ToolResultStatus = ToolOk | ToolError | ToolBlocked | ToolCancelled | ToolTimeout

  datatype Payload = Payload(
    commandId: Option<nat>,
    steer: bool,
    error: Option<string>,
    summary: Option<string>,
    content: Option<string>,
    status: Option<TaskStatus>,
    outcome: Field<TaskOutcome>,
    record: Option<VerificationRecord>,
    toolCallIds: seq<Option<string>>,
    toolStatus: Option<ToolResultStatus>)

  datatype RuntimeEvent = RuntimeEvent(
    id: string,
    sequenceNo: nat,
    taskId: Option<nat>,
    turnId: Option<nat>,
    eventType: EventType,
    source: Source,
    timestamp: int,
    payload: Payload)

  datatype Thread = Thread(threadId: nat, sessionId: nat)

  datatype ItemKind = Model | Tool | Approval | Message | Verification | Runtime

  datatype ItemStatus = InProgress | ItemCompletedOk | ItemFailed | ItemCancelled

  datatype Item = Item(id: string, kind: ItemKind, status: ItemStatus, event: RuntimeEvent)

  datatype StreamEvent =
    | ThreadStarted(thread: Thread)
    | TurnBegan(thread: Thread, taskId: Option<nat>, turnId: Option<nat>, timestamp: int)
    | ItemStarted(item: Item)
    | ItemUpdated(item: Item)
    | ItemEnded(item: Item)
    | Raw(event: RuntimeEvent)
    | TurnSucceeded(
        thread: Thread, taskId: Option<nat>, turnId: Option<nat>, status: TaskStatus,
        finalMessage: Option<string>, verification: Option<VerificationRecord>, lastSequenceNo: Option<nat>,
        timestamp: int)
    | TurnFailed(
        thread: Thread, taskId: Option<nat>, turnId: Option<nat>, status: TaskStatus, error: string,
        finalMessage: Option<string>, verification: Option<VerificationRecord>, lastSequenceNo: Option<nat>,
        timestamp: int)
  {
    predicate IsTerminal() { TurnSucceeded? || TurnFailed? }
  }

  /** A payload text of which trimming leaves something: one that is not blank. */
  function NonBlank(text: Option<string>): (r: Option<string>)
    ensures r.Some? <==> text.Some? && !Blank(text.value)
    ensures r.Some? ==> r == text
  {
    if text.None? then None
    else
      TrimIsEmpty(text.value);
      if Trim(text.value) == [] then None else text
  }

  // ---------------------------------------------------------------- items

  predicate IsToolEvent(t: EventType) { t.ToolStarted? || t.ToolProgress? || t.ToolCompleted? }

  /** The first tool call id the payload gives, in the order of the places it is looked for. */
  function FirstCallId(ids: seq<Option<string>>): (r: Option<string>) {
    if ids == [] then None else if ids[0].Some? then ids[0] else FirstCallId(ids[1..])
  }

  /** Every event of one tool call carries the same item id. */
  function StableItemId(e: RuntimeEvent): (id: string) {
    if IsToolEvent(e.eventType) && FirstCallId(e.payload.toolCallIds).Some?
    then FirstCallId(e.payload.toolCallIds).value
    else e.id
  }

  function CompletedToolStatus(e: RuntimeEvent): (s: ItemStatus) {
    match e.payload.toolStatus
    case None => ItemCompletedOk
    case Some(ToolOk) => ItemCompletedOk
    case Some(ToolCancelled) => ItemCancelled
    case Some(_) => ItemFailed
  }

  function ItemFromEvent(e: RuntimeEvent): (i: Item)
    ensures i.event == e
  {
    var kind := match e.eventType
      case ProviderStarted | ProviderStreamed | ProviderCompleted | ProviderFailed => Model
      case ToolStarted | ToolProgress | ToolCompleted => Tool
      case ApprovalRequested | ApprovalResolved => Approval
      case AssistantMessage => Message
      case VerificationCompleted => Verification
      case _ => Runtime;
    var status := match e.eventType
      case ProviderStarted | ProviderStreamed | ToolStarted | ToolProgress | ApprovalRequested => InProgress
      case ProviderFailed => ItemFailed
      case ToolCompleted => CompletedToolStatus(e)
      case _ => ItemCompletedOk;
    Item(StableItemId(e), kind, status, e)
  }
}
