/** Causal links between recorded events: who follows whom in a task, in a session and in the
    history the model is shown. */
module CausalModel {
  import opened Options

  datatype EventType =
    | TaskCreated | TurnQueued | TurnUpdated | TurnCancelled | AssistantMessage | SubagentUpdated
    | TaskCompleted | TaskAborted | TaskInterrupted | TaskUncertain | CandidateReady | VerificationReady
    | CompactionCompleted
    | ProviderStarted | ProviderStreamed | ProviderCompleted | ProviderFailed
    | ToolStarted | ToolProgress | ToolCompleted
    | VerificationPlanned | VerificationAssertionCompleted | VerificationCompleted
    | OtherType(name: string)

  datatype Relation = Parent | RespondsTo | Verifies

  datatype Link = Link(eventId: nat, relation: Relation)

  /** What a compaction carries: nothing, something that is not a summary, or a summary. */
  datatype Content = NoContent | Unreadable | Summary

  /** The identifiers an event's payload gives, each None when missing or malformed. */
  datatype Payload = Payload(
    stepNo: Option<nat>,
    requestId: Option<nat>,
    responseId: Option<nat>,
    providerToolCallId: Option<string>,
    toolCallId: Option<nat>,
    verificationId: Option<nat>,
    candidateId: Option<string>,
    content: Content)

  /** A run is its task; a step is known by its run, turn and number. */
  datatype Context = Context(
    workspaceId: Option<nat>,
    sessionId: Option<nat>,
    taskId: Option<nat>,
    runId: Option<nat>,
    turnId: Option<nat>,
    stepNo: Option<nat>,
    stepId: Option<(nat, nat, nat)>,
    requestId: Option<nat>,
    roundId: Option<nat>,
    responseId: Option<nat>,
    providerToolCallId: Option<string>,
    toolCallId: Option<nat>,
    verificationId: Option<nat>,
    candidateId: Option<string>)

  const EMPTY_CONTEXT := Context(None, None, None, None, None, None, None, None, None, None, None, None, None, None)

  datatype Event = Event(
    id: nat,
    session: nat,
    task: Option<nat>,
    turn: Option<nat>,
    eventType: EventType,
    parent: Option<nat>,
    links: seq<Link>,
    context: Context,
    payload: Payload)

  predicate IsModelHistoryFact(t: EventType) {
    || t.TaskCreated? || t.TurnQueued? || t.TurnUpdated? || t.AssistantMessage? || t.ToolCompleted?
    || t.SubagentUpdated? || t.TaskCompleted? || t.TaskAborted? || t.TaskInterrupted? || t.TaskUncertain?
    || t.CandidateReady? || t.VerificationReady?
  }

  /** Changes what the model is shown. */
  predicate IsHistory(e: Event) {
    e.eventType.TurnCancelled? || IsModelHistoryFact(e.eventType)
      || (e.eventType.CompactionCompleted? && e.payload.content.Summary?)
  }

  /** What the store's query for the latest history event looks for. */
  predicate IsListed(e: Event) {
    || e.eventType.TaskCreated? || e.eventType.TurnQueued? || e.eventType.TurnUpdated? || e.eventType.TurnCancelled?
    || e.eventType.AssistantMessage? || e.eventType.ToolCompleted? || e.eventType.TaskCompleted?
    || e.eventType.TaskAborted? || e.eventType.TaskInterrupted? || e.eventType.TaskUncertain?
    || e.eventType.CandidateReady? || e.eventType.VerificationReady?
    || (e.eventType.CompactionCompleted? && !e.payload.content.NoContent?)
  }

  // ---------------------------------------------------------------- the store

  datatype Query =
    | OfSession(session: nat)
    | OfSessionTask(session: nat, task: nat)
    | OfTask(task: nat)
    | HistoryOf(session: nat)
    | ListedOf(session: nat)
    | ProviderStartOf(task: nat, request: nat)
    | ToolStartOf(task: nat, call: nat)
    | PlanOf(task: nat)

  predicate Matches(q: Query, e: Event) {
    match q
    case OfSession(s) => e.session == s
    case OfSessionTask(s, t) => e.session == s && e.task == Some(t)
    case OfTask(t) => e.task == Some(t)
    case HistoryOf(s) => e.session == s && IsHistory(e)
    case ListedOf(s) => e.session == s && IsListed(e)
    case ProviderStartOf(t, r) => e.task == Some(t) && e.eventType.ProviderStarted? && e.context.requestId == Some(r)
    case ToolStartOf(t, c) => e.task == Some(t) && e.eventType.ToolStarted? && e.context.toolCallId == Some(c)
    case PlanOf(t) => e.task == Some(t) && e.eventType.VerificationPlanned?
  }

  /** The last recorded event that matches. */
  function Last(log: seq<Event>, q: Query): (r: Option<Event>)
    ensures r.Some? ==> r.value in log && Matches(q, r.value)
  {
    if log == [] then None
    else if Matches(q, log[|log| - 1]) then Some(log[|log| - 1])
    else Last(log[..|log| - 1], q)
  }

  // ---------------------------------------------------------------- the ledger

  datatype Ledger = Ledger(
    sessionHeads: map<nat, nat>,
    contextHeads: map<nat, nat>,
    taskHeads: map<nat, nat>,
    taskContexts: map<nat, Context>,
    providerStarts: map<(nat, nat), nat>,
    toolStarts: map<(nat, nat), nat>,
    verificationHeads: map<nat, nat>)

  const EMPTY_LEDGER := Ledger(map[], map[], map[], map[], map[], map[], map[])

  function SynchronizeEnvelope(c: Context, e: Event, workspace: Option<nat>): (r: Context) {
    c.(workspaceId := OrElse(workspace, c.workspaceId), sessionId := Some(e.session), taskId := e.task,
       turnId := e.turn,
       runId := if e.task.Some? then e.task else c.runId)
  }

  function UpdateStep(c: Context, stepNo: Option<nat>): (r: Context) {
    if stepNo.None? then c
    else c.(stepNo := stepNo,
            stepId := if c.runId.Some? && c.turnId.Some? then Some((c.runId.value, c.turnId.value, stepNo.value))
              else None)
  }

  function UpdateFromPayload(c: Context, p: Payload): (r: Context) {
    UpdateStep(c, p.stepNo).(
      requestId := OrElse(p.requestId, c.requestId),
      roundId := OrElse(p.requestId, c.roundId),
      responseId := OrElse(p.responseId, c.responseId),
      providerToolCallId := OrElse(p.providerToolCallId, c.providerToolCallId),
      toolCallId := OrElse(p.toolCallId, c.toolCallId),
      verificationId := OrElse(p.verificationId, c.verificationId),
      candidateId := OrElse(p.candidateId, c.candidateId))
  }

  function AddLink(links: seq<Link>, self: nat, target: nat, relation: Relation): (r: seq<Link>) {
    if target == self || Link(target, relation) in links then links else links + [Link(target, relation)]
  }

  function PutContext(heads: map<nat, nat>, e: Event): (r: map<nat, nat>) {
    if IsHistory(e) then heads[e.session := e.id] else heads
  }

  function PutTask<V>(m: map<nat, V>, task: Option<nat>, v: V): (r: map<nat, V>) {
    if task.Some? then m[task.value := v] else m
  }

  function PutProvider(starts: map<(nat, nat), nat>, e: Event): (r: map<(nat, nat), nat>) {
    if e.task.Some? && e.eventType.ProviderStarted? && e.context.requestId.Some?
    then starts[(e.task.value, e.context.requestId.value) := e.id] else starts
  }

  function PutTool(starts: map<(nat, nat), nat>, e: Event): (r: map<(nat, nat), nat>) {
    if e.task.Some? && e.eventType.ToolStarted? && e.context.toolCallId.Some?
    then starts[(e.task.value, e.context.toolCallId.value) := e.id] else starts
  }

  function PutPlan(heads: map<nat, nat>, e: Event): (r: map<nat, nat>) {
    if e.task.Some? && e.eventType.VerificationPlanned? then heads[e.task.value := e.id] else heads
  }

  /** Makes `e` the newest event the ledger knows of, with `context` for its task. */
  function Put(l: Ledger, e: Event, context: Context): (r: Ledger) {
    Ledger(l.sessionHeads[e.session := e.id], PutContext(l.contextHeads, e), PutTask(l.taskHeads, e.task, e.id),
           PutTask(l.taskContexts, e.task, context), PutProvider(l.providerStarts, e), PutTool(l.toolStarts, e),
           PutPlan(l.verificationHeads, e))
  }

  /** Takes in an event read back from the store. */
  function Seed(l: Ledger, e: Event): (r: Ledger) { Put(l, e, SynchronizeEnvelope(e.context, e, None)) }

  function SeedFound(l: Ledger, found: Option<Event>): (r: Ledger) { if found.Some? then Seed(l, found.value) else l }

  /** What the ledger lacks about the event's task, session and history, read from the store: the first
      `readings` of the three. */
  function RecallSome(l: Ledger, log: seq<Event>, e: Event, readings: nat): (r: Ledger) {
    var hasSession, hasContext := e.session in l.sessionHeads, e.session in l.contextHeads;
    var hasTask := e.task.Some? && e.task.value in l.taskHeads;
    var l1 :=
      if readings >= 1 && !hasTask && e.task.Some? then SeedFound(l, Last(log, OfSessionTask(e.session, e.task.value)))
      else l;
    var l2 := if readings >= 2 && !hasSession then SeedFound(l1, Last(log, OfSession(e.session))) else l1;
    var latest := Last(log, ListedOf(e.session));
    if readings >= 3 && !hasContext && latest.Some? then l2.(contextHeads := PutContext(l2.contextHeads, latest.value))
    else l2
  }

  const ALL_READINGS: nat := 3

  function Recall(l: Ledger, log: seq<Event>, e: Event): (r: Ledger) { RecallSome(l, log, e, ALL_READINGS) }

  function Previous(l: Ledger, e: Event): (r: Option<nat>) {
    OrElse(if IsHistory(e) then Get(l.contextHeads, e.session) else None,
           OrElse(if e.task.Some? then Get(l.taskHeads, e.task.value) else None,
                  Get(l.sessionHeads, e.session)))
  }

  function WithParent(l: Ledger, e: Event): (r: Event) {
    var parent := OrElse(e.parent, Previous(l, e));
    e.(parent := parent, links := if parent.Some? then AddLink(e.links, e.id, parent.value, Parent) else e.links)
  }

  function WithContext(l: Ledger, workspace: nat, e: Event): (r: Event) {
    if e.task.None? then e.(context := SynchronizeEnvelope(e.context, e, Some(workspace)))
    else
      var before := if e.task.value in l.taskContexts then l.taskContexts[e.task.value] else EMPTY_CONTEXT;
      e.(context := UpdateFromPayload(SynchronizeEnvelope(before, e, Some(workspace)), e.payload))
  }

  /** The start that an event of a provider request, tool call or verification belongs to. */
  function Target(l: Ledger, e: Event): (r: Option<(nat, Relation)>) {
    if e.task.None? then None
    else match e.eventType
      case ProviderStreamed | ProviderCompleted | ProviderFailed =>
        if e.context.requestId.Some? && (e.task.value, e.context.requestId.value) in l.providerStarts
        then Some((l.providerStarts[(e.task.value, e.context.requestId.value)], RespondsTo)) else None
      case ToolProgress | ToolCompleted =>
        if e.context.toolCallId.Some? && (e.task.value, e.context.toolCallId.value) in l.toolStarts
        then Some((l.toolStarts[(e.task.value, e.context.toolCallId.value)], RespondsTo)) else None
      case VerificationAssertionCompleted | VerificationCompleted =>
        if e.task.value in l.verificationHeads then Some((l.verificationHeads[e.task.value], Verifies)) else None
      case _ => None
  }

  function WithTarget(l: Ledger, e: Event): (r: Event) {
    var target := Target(l, e);
    if target.None? then e else e.(links := AddLink(e.links, e.id, target.value.0, target.value.1))
  }

  function Enriched(l: Ledger, workspace: nat, e: Event): (r: Event) {
    WithTarget(l, WithContext(l, workspace, WithParent(l, e)))
  }

  // ---------------------------------------------------------------- a host and its runs

  /** The ledger, the store, and the ids of events that the ledger took in and the store never got. */
  datatype Host = Host(ledger: Ledger, log: seq<Event>, abandoned: set<nat>)

  function Prepared(h: Host, workspace: nat, e: Event): (r: Event) {
    Enriched(Recall(h.ledger, h.log, e), workspace, e)
  }

  function Noted(h: Host, workspace: nat, e: Event): (l: Ledger) {
    var e' := Prepared(h, workspace, e);
    Put(Recall(h.ledger, h.log, e), e', e'.context)
  }

  function Recorded(h: Host, workspace: nat, e: Event): (r: Host) {
    h.(ledger := Noted(h, workspace, e), log := h.log + [Prepared(h, workspace, e)])
  }

  /** Reading a session's history for the model moves its head to what the store's query finds. */
  function Refreshed(l: Ledger, log: seq<Event>, session: nat): (r: Ledger) {
    var latest := Last(log, ListedOf(session));
    if latest.Some? then l.(contextHeads := PutContext(l.contextHeads, latest.value)) else l
  }

  /** An event is recorded, or refused by the store, when the ledger is put back; or the call is dropped
      while it reads the store, or while it appends; or a session's history is read; or the process
      ends, which loses the ledger and keeps the store. */
  datatype Action =
    | Record(e: Event)
    | FailToRecord(e: Event)
    | AbandonRecall(e: Event, readings: nat)
    | AbandonRecord(e: Event)
    | RefreshHistory(session: nat)
    | Restart

  function Apply(h: Host, workspace: nat, a: Action): (r: Host) {
    match a
    case Record(e) => Recorded(h, workspace, e)
    case FailToRecord(_) => h
    case AbandonRecall(e, readings) => h.(ledger := RecallSome(h.ledger, h.log, e, readings))
    case AbandonRecord(e) => h.(ledger := Noted(h, workspace, e), abandoned := h.abandoned + {e.id})
    case RefreshHistory(s) => h.(ledger := Refreshed(h.ledger, h.log, s))
    case Restart => h.(ledger := EMPTY_LEDGER)
  }

  /** Event ids are new, and a task stays in its session. */
  ghost predicate Enabled(h: Host, owner: map<nat, nat>, a: Action) {
    a.Record? || a.AbandonRecord? || a.AbandonRecall? ==>
      && (forall x <- h.log :: x.id != a.e.id)
      && a.e.id !in h.abandoned
      && (a.e.task.Some? ==> a.e.task.value in owner && owner[a.e.task.value] == a.e.session)
  }

  function After(h: Host, workspace: nat, run: seq<Action>): (r: Host)
    decreases |run|
  {
    if run == [] then h else Apply(After(h, workspace, run[..|run| - 1]), workspace, run[|run| - 1])
  }

  ghost predicate IsRun(h: Host, workspace: nat, owner: map<nat, nat>, run: seq<Action>)
    decreases |run|
  {
    run == []
    || (IsRun(h, workspace, owner, run[..|run| - 1])
        && Enabled(After(h, workspace, run[..|run| - 1]), owner, run[|run| - 1]))
  }

  const START := Host(EMPTY_LEDGER, [], {})
}
