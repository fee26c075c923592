/** The projector: what one command or turn sees of a shared log of runtime facts. */
module Projector {
  import opened Options
  import opened AgentEvents

  datatype Projector = Projector(
    thread: Thread,
    commandId: Option<nat>,
    taskId: Option<nat>,
    turnId: Option<nat>,
    finalMessage: Option<string>,
    failureDetail: Option<string>,
    verification: Option<VerificationRecord>,
    outcome: Option<TaskOutcome>,
    lastSequenceNo: Option<nat>,
    terminalStatus: Option<TaskStatus>,
    turnStarted: bool,
    finished: bool)

  datatype TurnResult = TurnResult(
    thread: Thread,
    taskId: Option<nat>,
    turnId: Option<nat>,
    status: TaskStatus,
    finalMessage: Option<string>,
    verification: Option<VerificationRecord>,
    outcome: Option<TaskOutcome>,
    lastSequenceNo: Option<nat>)

  function New(thread: Thread, commandId: Option<nat>): (p: Projector) {
    Projector(thread, commandId, None, None, None, None, None, None, None, None, false, false)
  }

  /** The event carries the projector's command; without a command every event does. */
  predicate CommandMatches(p: Projector, e: RuntimeEvent) {
    p.commandId.None? || e.payload.commandId == p.commandId
  }

  /** A bound projector takes its turn's events, and of its task the end, the verification and
      steering turns; an unbound one waits for its command. */
  predicate Accepts(p: Projector, e: RuntimeEvent) {
    if p.turnId.Some? then
      || e.turnId == p.turnId
      || (e.taskId == p.taskId && IsTaskTerminal(e.eventType))
      || (e.taskId == p.taskId && e.eventType.VerificationCompleted?)
      || (e.taskId == p.taskId && e.eventType.TurnStarted? && e.payload.steer)
    else CommandMatches(p, e)
  }

  /** An evaluator replacing the outcome of the task that has already ended. */
  predicate IsLateUpdate(p: Projector, e: RuntimeEvent) {
    && p.finished && e.source.Evaluator? && e.eventType.TaskCompleted?
    && e.taskId == p.taskId && !e.payload.outcome.Absent?
  }

  predicate Takes(p: Projector, e: RuntimeEvent) {
    (!p.finished || IsLateUpdate(p, e)) && Accepts(p, e)
  }

  predicate StartsTurn(t: EventType) { t.TaskCreated? || t.TurnStarted? }

  predicate Recovers(t: EventType) { t.TurnStarted? || t.ProviderStarted? || t.ProviderCompleted? }

  /** Why the run is failing, as far as the runtime has said: a new attempt clears it. */
  function DetailAfter(detail: Option<string>, e: RuntimeEvent): (d: Option<string>) {
    if e.eventType.LoopDecided? then (if NonBlank(e.payload.error).Some? then e.payload.error else detail)
    else if e.eventType.LoopGuardTriggered? then NonBlank(e.payload.summary)
    else if Recovers(e.eventType) then None
    else detail
  }

  /** The facts an accepted event leaves behind. */
  function Absorb(p: Projector, e: RuntimeEvent): (q: Projector) {
    p.(lastSequenceNo := Some(e.sequenceNo),
       taskId := if p.taskId.None? then e.taskId else p.taskId,
       turnId := if p.turnId.None? && CommandMatches(p, e) then e.turnId else p.turnId,
       failureDetail := DetailAfter(p.failureDetail, e),
       finalMessage := if e.eventType.AssistantMessage? && e.payload.content.Some? then e.payload.content
         else p.finalMessage,
       verification := if e.eventType.VerificationCompleted? then e.payload.record else p.verification,
       outcome := if e.payload.outcome.Parsed? then Some(e.payload.outcome.value) else p.outcome)
  }

  function StatusOf(e: RuntimeEvent): (s: TaskStatus) {
    if e.payload.status.Some? then e.payload.status.value else Failed
  }

  const DEFAULT_ERROR := "runtime task did not complete successfully"

  function ErrorText(q: Projector, e: RuntimeEvent): (text: string) {
    var status := StatusOf(e);
    if NonBlank(e.payload.error).Some? then e.payload.error.value
    else if (status.Failed? || status.Blocked? || status.Partial?) && q.failureDetail.Some? then q.failureDetail.value
    else if NonBlank(e.payload.summary).Some? then e.payload.summary.value
    else DEFAULT_ERROR
  }

  function ResultOf(v: Option<VerificationRecord>): (r: VerificationResult) {
    if v.Some? then v.value.result else Unknown
  }

  /** The event that goes out, and what sending it records; `q` has absorbed `e`. */
  function Emit(q: Projector, e: RuntimeEvent, late: bool): (out: (Projector, StreamEvent)) {
    var taskId := OrElse(e.taskId, q.taskId);
    if StartsTurn(e.eventType) then
      var turnId := OrElse(e.turnId, q.turnId);
      var r := q.(taskId := taskId, turnId := turnId, turnStarted := true);
      (r, if q.turnStarted then Raw(e) else TurnBegan(q.thread, taskId, turnId, e.timestamp))
    else if IsTaskTerminal(e.eventType) then
      var turnId := OrElse(q.turnId, e.turnId);
      var status := StatusOf(e);
      var r := q.(
        terminalStatus := Some(status),
        outcome := if q.outcome.None? then Some(FromStatus(status, ResultOf(q.verification))) else q.outcome,
        finished := true);
      (r,
       if late then Raw(e)
       else if status.Completed? then
         TurnSucceeded(q.thread, taskId, turnId, status, q.finalMessage, q.verification, Some(e.sequenceNo),
           e.timestamp)
       else
         TurnFailed(q.thread, taskId, turnId, status, ErrorText(q, e), q.finalMessage, q.verification,
           Some(e.sequenceNo), e.timestamp))
    else
      (q, match e.eventType
          case ProviderStarted | ToolStarted | ApprovalRequested => ItemStarted(ItemFromEvent(e))
          case ProviderStreamed | ToolProgress => ItemUpdated(ItemFromEvent(e))
          case ProviderCompleted | ProviderFailed | AssistantMessage
            | ToolCompleted | ApprovalResolved | VerificationCompleted =>
            ItemEnded(ItemFromEvent(e))
          case _ => Raw(e))
  }

  function Project(p: Projector, e: RuntimeEvent): (out: (Projector, Option<StreamEvent>)) {
    if !Takes(p, e) then (p, None)
    else
      var (r, event) := Emit(Absorb(p, e), e, IsLateUpdate(p, e));
      (r, Some(event))
  }

  function Result(p: Projector): (r: Option<TurnResult>) {
    if p.terminalStatus.None? then None
    else Some(TurnResult(p.thread, p.taskId, p.turnId, p.terminalStatus.value, p.finalMessage, p.verification,
      p.outcome, p.lastSequenceNo))
  }

  // ---------------------------------------------------------------- whole logs

  function Final(p: Projector, log: seq<RuntimeEvent>): (q: Projector)
    decreases |log|
  {
    if log == [] then p else Final(Project(p, log[0]).0, log[1..])
  }

  function Outputs(p: Projector, log: seq<RuntimeEvent>): (out: seq<StreamEvent>)
    decreases |log|
  {
    if log == [] then []
    else
      var (q, event) := Project(p, log[0]);
      (if event.Some? then [event.value] else []) + Outputs(q, log[1..])
  }

  /** The events of the log that the projector took. */
  function Taken(p: Projector, log: seq<RuntimeEvent>): (out: seq<RuntimeEvent>)
    decreases |log|
  {
    if log == [] then []
    else (if Takes(p, log[0]) then [log[0]] else []) + Taken(Project(p, log[0]).0, log[1..])
  }

  // ---------------------------------------------------------------- the object

  /** The projector that adapters hold and feed. */
  class AgentEventProjector {
    const thread: Thread
    const commandId: Option<nat>
    var taskId: Option<nat>
    var turnId: Option<nat>
    var finalMessage: Option<string>
    var failureDetail: Option<string>
    var verification: Option<VerificationRecord>
    var outcome: Option<TaskOutcome>
    var lastSequenceNo: Option<nat>
    var terminalStatus: Option<TaskStatus>
    var turnStarted: bool
    var finished: bool

    function Value(): (p: Projector)
      reads this
    {
      Projector(thread, commandId, taskId, turnId, finalMessage, failureDetail, verification, outcome,
                lastSequenceNo, terminalStatus, turnStarted, finished)
    }

    constructor (thread: Thread, commandId: Option<nat>)
      ensures Value() == New(thread, commandId)
    {
      this.thread, this.commandId := thread, commandId;
      taskId, turnId, finalMessage, failureDetail, verification, outcome := None, None, None, None, None, None;
      lastSequenceNo, terminalStatus, turnStarted, finished := None, None, false, false;
    }

    /** Takes in one fact; None means it belongs to another turn. */
    method ProjectEvent(e: RuntimeEvent) returns (event: Option<StreamEvent>)
      modifies this
      ensures (Value(), event) == Project(old(Value()), e)
    {
      var late := IsLateUpdate(Value(), e);
      if (!late && finished) || !Accepts(Value(), e) { return None; }
      TakeIn(e);
      var sent := Send(e, late);
      return Some(sent);
    }

    method TakeIn(e: RuntimeEvent)
      modifies this
      ensures Value() == Absorb(old(Value()), e)
    {
      lastSequenceNo := Some(e.sequenceNo);
      var matches := CommandMatches(Value(), e);
      if taskId.None? { taskId := e.taskId; }
      if turnId.None? && matches { turnId := e.turnId; }
      NoteFailure(e);
      if e.eventType.AssistantMessage? && e.payload.content.Some? { finalMessage := e.payload.content; }
      if e.eventType.VerificationCompleted? { verification := e.payload.record; }
      if e.payload.outcome.Parsed? { outcome := Some(e.payload.outcome.value); }
    }

    method NoteFailure(e: RuntimeEvent)
      modifies `failureDetail
      ensures failureDetail == DetailAfter(old(failureDetail), e)
    {
      match e.eventType {
        case LoopDecided => if NonBlank(e.payload.error).Some? { failureDetail := e.payload.error; }
        case LoopGuardTriggered => failureDetail := NonBlank(e.payload.summary);
        case TurnStarted | ProviderStarted | ProviderCompleted => failureDetail := None;
        case _ =>
      }
    }

    method Send(e: RuntimeEvent, late: bool) returns (event: StreamEvent)
      modifies this
      ensures (Value(), event) == Emit(old(Value()), e, late)
    {
      var task := OrElse(e.taskId, taskId);
      match e.eventType {
        case TaskCreated | TurnStarted =>
          taskId, turnId := task, OrElse(e.turnId, turnId);
          if turnStarted { return Raw(e); }
          turnStarted := true;
          return TurnBegan(thread, taskId, turnId, e.timestamp);
        case TaskCompleted | TaskAborted | TaskInterrupted | TaskUncertain =>
          var turn := OrElse(turnId, e.turnId);
          var status := StatusOf(e);
          terminalStatus := Some(status);
          if outcome.None? { outcome := Some(FromStatus(status, ResultOf(verification))); }
          finished := true;
          if late { return Raw(e); }
          if status.Completed? {
            return TurnSucceeded(thread, task, turn, status, finalMessage, verification, Some(e.sequenceNo),
              e.timestamp);
          }
          return TurnFailed(thread, task, turn, status, ErrorText(Value(), e), finalMessage, verification,
            Some(e.sequenceNo), e.timestamp);
        case ProviderStarted | ToolStarted | ApprovalRequested => return ItemStarted(ItemFromEvent(e));
        case ProviderStreamed | ToolProgress => return ItemUpdated(ItemFromEvent(e));
        case ProviderCompleted | ProviderFailed | AssistantMessage
          | ToolCompleted | ApprovalResolved | VerificationCompleted =>
          return ItemEnded(ItemFromEvent(e));
        case _ => return Raw(e);
      }
    }
  }
}
