/** How the command line waits for a task to end: it reads the state of the session, then rereads it
    whenever its subscription delivers an event that can change the status. */
module CliWait {
  import opened Options
  import opened AgentEvents

  // ---------------------------------------------------------------- the state of a session

  datatype EventKind =
    | TaskCreated
    | TurnStarted
    | TaskCompleted
    | TaskAbortRequested
    | TaskAborted
    | TaskInterrupted
    | TaskUncertain
    | TaskReconciled
    | TaskPaused
    | TaskResumed
    | ApprovalRequested
    | ApprovalResolved
    | ProviderAuthRequired
    | ProviderAuthSubmitted
    | ProviderAuthCancelled
    | OtherKind(name: string)

  datatype Event = Event(taskId: Option<nat>, kind: EventKind, status: Option<TaskStatus>, approvalId: Option<string>)

  /** The part of the state that the loop looks at. */
  datatype Session = Session(activeTask: Option<nat>, status: TaskStatus, pendingApproval: Option<string>)

  const NEW_SESSION := Session(None, Idle, None)

  predicate IsTerminal(s: TaskStatus) {
    s.Completed? || s.Partial? || s.Failed? || s.Blocked? || s.Cancelled? || s.Interrupted? || s.Uncertain?
  }

  function Reported(e: Event, otherwise: TaskStatus): (s: TaskStatus) {
    if e.status.Some? then e.status.value else otherwise
  }

  /** The status an event leaves; answers to approvals and logins count only while one is awaited. */
  function StatusAfter(current: TaskStatus, e: Event): (s: TaskStatus) {
    match e.kind
    case TaskCreated | TurnStarted | TaskResumed => Running
    case TaskCompleted => Reported(e, Completed)
    case TaskAbortRequested => Aborting
    case TaskAborted => Reported(e, Cancelled)
    case TaskInterrupted => Interrupted
    case TaskUncertain => Uncertain
    case TaskReconciled => Reported(e, Interrupted)
    case TaskPaused => Paused
    case ApprovalRequested => WaitingApproval
    case ApprovalResolved => if current.WaitingApproval? then Running else current
    case ProviderAuthRequired => WaitingAuthentication
    case ProviderAuthSubmitted => if current.WaitingAuthentication? then Running else current
    case ProviderAuthCancelled => Blocked
    case _ => current
  }

  function ApprovalAfter(current: Option<string>, e: Event): (a: Option<string>) {
    match e.kind
    case TaskCreated | TurnStarted => None
    case TaskCompleted | TaskAborted | TaskInterrupted | TaskUncertain | TaskReconciled => None
    case ApprovalRequested => e.approvalId
    case ApprovalResolved => None
    case _ => current
  }

  /** An event takes over the session if none is active or it starts one; an event of another task than
      the active one changes nothing. */
  function SessionAfter(s: Session, e: Event): (r: Session) {
    var starts := e.kind.TaskCreated? || e.kind.TaskResumed? || e.kind.TurnStarted?;
    var takes := e.taskId.Some? && (s.activeTask.None? || starts);
    var active := if takes then e.taskId else s.activeTask;
    var pending := if takes && s.activeTask != e.taskId then None else s.pendingApproval;
    if e.taskId.Some? && active != e.taskId then s
    else Session(active, StatusAfter(s.status, e), ApprovalAfter(pending, e))
  }

  function StateAt(log: seq<Event>, n: nat): (s: Session)
    requires n <= |log|
  {
    if n == 0 then NEW_SESSION else SessionAfter(StateAt(log, n - 1), log[n - 1])
  }

  function StatusAt(log: seq<Event>, n: nat): (s: TaskStatus)
    requires n <= |log|
  {
    StateAt(log, n).status
  }

  /** The events for which the loop rereads the state. */
  predicate IsStatusEvent(e: Event) {
    match e.kind
    case TaskCreated | TurnStarted | TaskCompleted | TaskAbortRequested | TaskAborted => true
    case TaskInterrupted | TaskUncertain | TaskReconciled | TaskPaused | TaskResumed => true
    case ApprovalRequested | ApprovalResolved => true
    case ProviderAuthRequired | ProviderAuthSubmitted | ProviderAuthCancelled => true
    case _ => false
  }

  /** An event that changes the status is one the loop rereads the state for. */
  lemma ChangesAreStatusEvents(s: Session, e: Event)
    ensures SessionAfter(s, e).status != s.status ==> IsStatusEvent(e)
  {
  }

  // ---------------------------------------------------------------- the loop

  /** Top of the loop, asking for an approval, in the select, about to reread, or done. */
  datatype Phase = Checking | Approving | Waiting | Reading | Returned(status: TaskStatus) | GaveUp

  /** The session's log; how much of it was delivered; the length of log the state last read shows,
      and the one the last check looked at. */
  datatype Wait = Wait(
    log: seq<Event>,
    delivered: nat,
    view: nat,
    checked: nat,
    phase: Phase,
    handled: Option<string>,
    interrupted: bool)

  datatype Action =
    | Append(event: Event)
    | Check
    | ResolveApproval(accepted: bool)
    | Receive
    | Read
    | BreakStream
    | Interrupt(accepted: bool)

  predicate Enabled(w: Wait, a: Action) {
    match a
    case Append(_) => true
    case Check => w.phase.Checking? && w.view <= |w.log|
    case ResolveApproval(_) => w.phase.Approving? && w.checked <= |w.log|
    case Receive => w.phase.Waiting? && w.delivered < |w.log|
    case Read => w.phase.Reading?
    case BreakStream => w.phase.Waiting?
    case Interrupt(_) => w.phase.Waiting?
  }

  /** The check at the top of the loop: done, a new approval to ask for, or on to the select. */
  function ApplyCheck(w: Wait): (r: Wait)
    requires w.view <= |w.log|
  {
    var state := StateAt(w.log, w.view);
    if IsTerminal(state.status) then w.(phase := Returned(state.status))
    else if !state.status.WaitingApproval? then w.(phase := Waiting, checked := w.view, handled := None)
    else if state.pendingApproval.None? then w.(phase := GaveUp)
    else if w.handled != state.pendingApproval then w.(phase := Approving, checked := w.view)
    else w.(phase := Waiting, checked := w.view)
  }

  function Apply(w: Wait, a: Action): (r: Wait)
    requires Enabled(w, a)
  {
    match a
    case Append(e) => w.(log := w.log + [e])
    case Check => ApplyCheck(w)
    case ResolveApproval(accepted) =>
      if accepted then w.(phase := Waiting, view := |w.log|, handled := StateAt(w.log, w.checked).pendingApproval)
      else w.(phase := GaveUp)
    case Receive =>
      w.(delivered := w.delivered + 1, phase := if IsStatusEvent(w.log[w.delivered]) then Reading else Checking)
    case Read => w.(view := |w.log|, phase := Checking)
    case BreakStream => w.(phase := GaveUp)
    case Interrupt(accepted) =>
      if accepted && !w.interrupted then w.(interrupted := true, phase := Checking) else w.(phase := GaveUp)
  }

  predicate IsRun(w: Wait, run: seq<Action>)
    decreases |run|
  {
    run == [] || (Enabled(w, run[0]) && IsRun(Apply(w, run[0]), run[1..]))
  }

  function After(w: Wait, run: seq<Action>): (r: Wait)
    requires IsRun(w, run)
    decreases |run|
  {
    if run == [] then w else After(Apply(w, run[0]), run[1..])
  }

  /** After the first reading: the subscription starts at the state's own position or before it. */
  predicate Started(w: Wait) {
    w.delivered <= w.view <= |w.log| && w.checked == w.view && w.phase.Checking? && w.handled.None? && !w.interrupted
  }

  // ---------------------------------------------------------------- invariant

  /** Nothing that could change the status was delivered beyond what the state shows. */
  ghost predicate Seen(w: Wait, n: nat) {
    forall i | n <= i < w.delivered && i < |w.log| :: !IsStatusEvent(w.log[i])
  }

  ghost predicate Inv(w: Wait) {
    && w.view <= |w.log| && w.checked <= w.view && w.delivered <= |w.log|
    && (w.phase.Checking? ==> Seen(w, w.view))
    && (w.phase.Waiting? || w.phase.Approving? ==> Seen(w, w.checked) && !IsTerminal(StatusAt(w.log, w.checked)))
    && (w.phase.Returned? ==> IsTerminal(w.phase.status) && w.phase.status == StatusAt(w.log, w.view))
  }

  lemma {:induction false} StateKeeps(log: seq<Event>, e: Event, n: nat)
    requires n <= |log|
    ensures StateAt(log + [e], n) == StateAt(log, n)
  {
    if n > 0 { StateKeeps(log, e, n - 1); }
  }

  lemma StepInv(w: Wait, a: Action)
    requires Inv(w) && Enabled(w, a)
    ensures Inv(Apply(w, a))
  {
    if a.Append? {
      StateKeeps(w.log, a.event, w.view);
      StateKeeps(w.log, a.event, w.checked);
    }
  }

  lemma {:induction false} RunInv(w: Wait, run: seq<Action>)
    requires Inv(w) && IsRun(w, run)
    ensures Inv(After(w, run))
    decreases |run|
  {
    if run != [] {
      StepInv(w, run[0]);
      RunInv(Apply(w, run[0]), run[1..]);
    }
  }

  // ---------------------------------------------------------------- the end is never missed

  /** The event at `i` changed the status to the one after the first `n` events. */
  ghost predicate LeadsTo(log: seq<Event>, i: nat, n: nat)
    requires i < n <= |log|
  {
    IsStatusEvent(log[i]) && StatusAt(log, i) != StatusAt(log, i + 1) && StatusAt(log, i + 1) == StatusAt(log, n)
  }

  /** If the status has changed between two points, an event between them led to it. */
  lemma {:induction false} ChangeHasCause(log: seq<Event>, m: nat, n: nat)
    requires m <= n <= |log| && StatusAt(log, m) != StatusAt(log, n)
    ensures exists i | m <= i < n :: LeadsTo(log, i, n)
  {
    if StatusAt(log, n - 1) != StatusAt(log, n) {
      ChangesAreStatusEvents(StateAt(log, n - 1), log[n - 1]);
      assert LeadsTo(log, n - 1, n);
    } else {
      ChangeHasCause(log, m, n - 1);
      var i :| m <= i < n - 1 && LeadsTo(log, i, n - 1);
      assert LeadsTo(log, i, n);
    }
  }

  /** The event that ended the task is still to come in the subscription. */
  ghost predicate EndIsComing(w: Wait) { exists i | w.delivered <= i < |w.log| :: LeadsTo(w.log, i, |w.log|) }

  lemma WaitingSeesTheEnd(w: Wait)
    requires Inv(w) && w.phase.Waiting? && IsTerminal(StatusAt(w.log, |w.log|))
    ensures EndIsComing(w)
  {
    ChangeHasCause(w.log, w.checked, |w.log|);
    var i :| w.checked <= i < |w.log| && LeadsTo(w.log, i, |w.log|);
    assert w.delivered <= i;
  }

  /** In every run, whenever the loop sits in its select and the task has ended, the event that ended
      it is still undelivered; so with everything delivered the task has not ended. What the loop
      returns is a terminal status that the session had. */
  lemma EndIsNeverMissed(w: Wait, run: seq<Action>)
    requires Started(w) && IsRun(w, run)
    ensures
      var r := After(w, run);
      && (r.phase.Waiting? && IsTerminal(StatusAt(r.log, |r.log|)) ==> EndIsComing(r))
      && (r.phase.Waiting? && r.delivered == |r.log| ==> !IsTerminal(StatusAt(r.log, |r.log|)))
      && (r.phase.Returned? ==> IsTerminal(r.phase.status) && exists n | 0 <= n <= |r.log| ::
        r.phase.status == StatusAt(r.log, n))
  {
    RunInv(w, run);
    var r := After(w, run);
    if r.phase.Waiting? && IsTerminal(StatusAt(r.log, |r.log|)) { WaitingSeesTheEnd(r); }
  }

  // ---------------------------------------------------------------- and the loop returns

  function Rank(p: Phase): (n: nat) {
    match p
    case Reading => 3
    case Checking => 2
    case Approving => 1
    case _ => 0
  }

  /** The loop left to itself: it goes on while it has something to do. */
  function Drain(w: Wait): (r: Wait)
    requires w.view <= |w.log| && w.checked <= |w.log|
    decreases if w.delivered < |w.log| then |w.log| - w.delivered else 0, Rank(w.phase)
  {
    match w.phase
    case Checking => Drain(Apply(w, Check))
    case Approving => Drain(Apply(w, ResolveApproval(true)))
    case Reading => Drain(Apply(w, Read))
    case Waiting => if w.delivered < |w.log| then Drain(Apply(w, Receive)) else w
    case _ => w
  }

  /** Once the task has ended, the loop returns a terminal status after receiving no more than what is
      already recorded; or it gives up because it read a state that awaits an approval without naming it. */
  lemma {:induction false} EndIsReported(w: Wait)
    requires Inv(w) && IsTerminal(StatusAt(w.log, |w.log|))
    requires !w.phase.Returned? && !w.phase.GaveUp?
    ensures
      var r := Drain(w);
      && r.log == w.log
      && (|| (r.phase.Returned? && IsTerminal(r.phase.status))
          || (r.phase.GaveUp? && exists n | 0 <= n <= |w.log| :: UnnamedAt(w.log, n)))
    decreases if w.delivered < |w.log| then |w.log| - w.delivered else 0, Rank(w.phase)
  {
    match w.phase {
      case Checking =>
        StepInv(w, Check);
        var r := Apply(w, Check);
        if r.phase.GaveUp? {
          assert UnnamedAt(w.log, w.view);
        } else if !r.phase.Returned? {
          EndIsReported(r);
        }
      case Approving =>
        StepInv(w, ResolveApproval(true));
        EndIsReported(Apply(w, ResolveApproval(true)));
      case Reading =>
        StepInv(w, Read);
        EndIsReported(Apply(w, Read));
      case Waiting =>
        WaitingSeesTheEnd(w);
        StepInv(w, Receive);
        EndIsReported(Apply(w, Receive));
    }
  }

  predicate UnnamedAt(log: seq<Event>, n: nat)
    requires n <= |log|
  {
    StateAt(log, n).status.WaitingApproval? && StateAt(log, n).pendingApproval.None?
  }
}
