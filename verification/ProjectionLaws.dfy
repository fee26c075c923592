/** What a projector reports, for every log: its state is a function of the facts it took, its
    events follow one life cycle, and the result agrees with the terminal event. */
module ProjectionLaws {
  import opened Options
  import opened Text
  import opened AgentEvents
  import opened Projector

  // ---------------------------------------------------------------- first and last

  /** What the last event that has an `f` says. */
  ghost function Latest<T>(s: seq<RuntimeEvent>, f: RuntimeEvent -> Option<T>): (r: Option<T>) {
    if s == [] then None
    else if f(s[|s| - 1]).Some? then f(s[|s| - 1])
    else Latest(s[..|s| - 1], f)
  }

  /** What the first event that has an `f` says. */
  ghost function Earliest<T>(s: seq<RuntimeEvent>, f: RuntimeEvent -> Option<T>): (r: Option<T>) {
    if s == [] then None else if f(s[0]).Some? then f(s[0]) else Earliest(s[1..], f)
  }

  lemma {:induction false} LatestMeans<T>(s: seq<RuntimeEvent>, f: RuntimeEvent -> Option<T>)
    ensures Latest(s, f).None? <==> forall i | 0 <= i < |s| :: f(s[i]).None?
    ensures Latest(s, f).Some? ==>
      exists i | 0 <= i < |s| :: f(s[i]) == Latest(s, f) && forall j | i < j < |s| :: f(s[j]).None?
  {
    if s != [] {
      var n := |s| - 1;
      var front := s[..n];
      LatestMeans(front, f);
      assert forall i | 0 <= i < n :: front[i] == s[i];
      if f(s[n]).None? && Latest(s, f).Some? {
        var i :| 0 <= i < n && f(front[i]) == Latest(s, f) && forall j | i < j < n :: f(front[j]).None?;
        assert f(s[i]) == Latest(s, f) && forall j | i < j < |s| :: f(s[j]).None?;
      }
    }
  }

  lemma LatestAppend<T>(s: seq<RuntimeEvent>, e: RuntimeEvent, f: RuntimeEvent -> Option<T>)
    ensures Latest(s + [e], f) == if f(e).Some? then f(e) else Latest(s, f)
  {
    assert (s + [e])[..|s|] == s;
  }

  lemma {:induction false} EarliestAppend<T>(s: seq<RuntimeEvent>, e: RuntimeEvent, f: RuntimeEvent -> Option<T>)
    ensures Earliest(s + [e], f) == if Earliest(s, f).Some? then Earliest(s, f) else f(e)
  {
    if s != [] {
      assert (s + [e])[1..] == s[1..] + [e];
      EarliestAppend(s[1..], e, f);
    } else {
      assert s + [e] == [e];
    }
  }

  // ---------------------------------------------------------------- what a fact says

  function MessageIn(e: RuntimeEvent): (r: Option<string>) {
    if e.eventType.AssistantMessage? then e.payload.content else None
  }

  function VerificationIn(e: RuntimeEvent): (r: Option<Option<VerificationRecord>>) {
    if e.eventType.VerificationCompleted? then Some(e.payload.record) else None
  }

  /** A fact that says why the run is failing, or that it has recovered. */
  function DetailIn(e: RuntimeEvent): (r: Option<Option<string>>) {
    match e.eventType
    case LoopDecided => if NonBlank(e.payload.error).Some? then Some(e.payload.error) else None
    case LoopGuardTriggered => Some(NonBlank(e.payload.summary))
    case TurnStarted | ProviderStarted | ProviderCompleted => Some(None)
    case _ => None
  }

  function OutcomeIn(e: RuntimeEvent): (r: Option<TaskOutcome>) {
    if e.payload.outcome.Parsed? then Some(e.payload.outcome.value) else None
  }

  function StatusIn(e: RuntimeEvent): (r: Option<TaskStatus>) {
    if IsTaskTerminal(e.eventType) then Some(StatusOf(e)) else None
  }

  function StartIn(e: RuntimeEvent): (r: Option<RuntimeEvent>) { if StartsTurn(e.eventType) then Some(e) else None }

  function SequenceIn(e: RuntimeEvent): (r: Option<nat>) { Some(e.sequenceNo) }

  function TaskIn(e: RuntimeEvent): (r: Option<nat>) { e.taskId }

  function TurnIn(e: RuntimeEvent): (r: Option<nat>) { e.turnId }

  function StartTaskIn(e: RuntimeEvent): (r: Option<nat>) { if StartsTurn(e.eventType) then e.taskId else None }

  function StartTurnIn(e: RuntimeEvent): (r: Option<nat>) { if StartsTurn(e.eventType) then e.turnId else None }

  function Flatten<T>(o: Option<Option<T>>): (r: Option<T>) { if o.Some? then o.value else None }

  /** The last start that names it, or else the first fact that does. */
  ghost function TaskOf(s: seq<RuntimeEvent>): (r: Option<nat>) {
    OrElse(Latest(s, StartTaskIn), Earliest(s, TaskIn))
  }

  ghost function TurnOf(s: seq<RuntimeEvent>): (r: Option<nat>) {
    OrElse(Latest(s, StartTurnIn), Earliest(s, TurnIn))
  }

  /** The last outcome reported, or else the one the first end of the task amounts to. */
  ghost function OutcomeOf(s: seq<RuntimeEvent>): (r: Option<TaskOutcome>) {
    if Latest(s, OutcomeIn).Some? then Latest(s, OutcomeIn)
    else if Earliest(s, StatusIn).Some? then
      Some(FromStatus(Earliest(s, StatusIn).value, ResultOf(Flatten(Latest(s, VerificationIn)))))
    else None
  }

  /** What a projector knows after taking exactly the facts `s`. */
  ghost function StateOf(thread: Thread, commandId: Option<nat>, s: seq<RuntimeEvent>): (p: Projector) {
    Projector(thread, commandId, TaskOf(s), TurnOf(s), Latest(s, MessageIn), Flatten(Latest(s, DetailIn)),
              Flatten(Latest(s, VerificationIn)), OutcomeOf(s), Latest(s, SequenceIn), Latest(s, StatusIn),
              Latest(s, StartIn).Some?, Latest(s, StatusIn).Some?)
  }

  // ---------------------------------------------------------------- logs grow at the end

  lemma {:induction false} Append(p: Projector, log: seq<RuntimeEvent>, e: RuntimeEvent)
    ensures Final(p, log + [e]) == Project(Final(p, log), e).0
    ensures Taken(p, log + [e]) == Taken(p, log) + if Takes(Final(p, log), e) then [e] else []
    ensures Outputs(p, log + [e]) ==
      Outputs(p, log) + if Project(Final(p, log), e).1.Some? then [Project(Final(p, log), e).1.value] else []
    decreases |log|
  {
    if log == [] {
      assert log + [e] == [e];
    } else {
      assert (log + [e])[1..] == log[1..] + [e];
      Append(Project(p, log[0]).0, log[1..], e);
    }
  }

  lemma {:induction false} Concat(p: Projector, a: seq<RuntimeEvent>, b: seq<RuntimeEvent>)
    ensures Final(p, a + b) == Final(Final(p, a), b)
    ensures Taken(p, a + b) == Taken(p, a) + Taken(Final(p, a), b)
    ensures Outputs(p, a + b) == Outputs(p, a) + Outputs(Final(p, a), b)
    decreases |a|
  {
    if a == [] {
      assert a + b == b;
    } else {
      assert (a + b)[1..] == a[1..] + b;
      Concat(Project(p, a[0]).0, a[1..], b);
    }
  }

  // ---------------------------------------------------------------- the state is what was taken

  lemma BindingStep(t: Thread, c: Option<nat>, s: seq<RuntimeEvent>, e: RuntimeEvent)
    requires Takes(StateOf(t, c, s), e)
    ensures Project(StateOf(t, c, s), e).0.taskId == TaskOf(s + [e])
    ensures Project(StateOf(t, c, s), e).0.turnId == TurnOf(s + [e])
  {
    LatestAppend(s, e, StartTaskIn);
    EarliestAppend(s, e, TaskIn);
    LatestAppend(s, e, StartTurnIn);
    EarliestAppend(s, e, TurnIn);
  }

  lemma OutcomeStep(t: Thread, c: Option<nat>, s: seq<RuntimeEvent>, e: RuntimeEvent)
    requires Takes(StateOf(t, c, s), e)
    ensures Project(StateOf(t, c, s), e).0.outcome == OutcomeOf(s + [e])
  {
    LatestAppend(s, e, OutcomeIn);
    EarliestAppend(s, e, StatusIn);
    LatestAppend(s, e, VerificationIn);
    LatestMeans(s, StatusIn);
    EarliestExists(s, StatusIn);
  }

  lemma {:induction false} EarliestExists<T>(s: seq<RuntimeEvent>, f: RuntimeEvent -> Option<T>)
    ensures Earliest(s, f).Some? <==> Latest(s, f).Some?
  {
    if s != [] {
      var n := |s| - 1;
      assert s == s[..n] + [s[n]];
      EarliestAppend(s[..n], s[n], f);
      LatestAppend(s[..n], s[n], f);
      EarliestExists(s[..n], f);
    }
  }

  lemma FactStep(t: Thread, c: Option<nat>, s: seq<RuntimeEvent>, e: RuntimeEvent)
    requires Takes(StateOf(t, c, s), e)
    ensures
      var q, r := Project(StateOf(t, c, s), e).0, StateOf(t, c, s + [e]);
      q.finalMessage == r.finalMessage && q.verification == r.verification
  {
    LatestAppend(s, e, MessageIn);
    LatestAppend(s, e, VerificationIn);
  }

  lemma DetailStep(t: Thread, c: Option<nat>, s: seq<RuntimeEvent>, e: RuntimeEvent)
    requires Takes(StateOf(t, c, s), e)
    ensures Absorb(StateOf(t, c, s), e).failureDetail == Flatten(Latest(s + [e], DetailIn))
    ensures Project(StateOf(t, c, s), e).0.failureDetail == Flatten(Latest(s + [e], DetailIn))
  {
    LatestAppend(s, e, DetailIn);
  }

  lemma ProgressStep(t: Thread, c: Option<nat>, s: seq<RuntimeEvent>, e: RuntimeEvent)
    requires Takes(StateOf(t, c, s), e)
    ensures
      var q, r := Project(StateOf(t, c, s), e).0, StateOf(t, c, s + [e]);
      && q.lastSequenceNo == r.lastSequenceNo && q.terminalStatus == r.terminalStatus
      && q.turnStarted == r.turnStarted && q.finished == r.finished && q.thread == t && q.commandId == c
  {
    LatestAppend(s, e, SequenceIn);
    LatestAppend(s, e, StatusIn);
    LatestAppend(s, e, StartIn);
  }

  /** For every log, the projector's whole state is fixed by the facts it took: the last message,
      the last verification, the last word on why it fails, the last reported outcome, and the
      task and turn of the last start. */
  lemma {:induction false} StateIsWhatWasTaken(t: Thread, c: Option<nat>, log: seq<RuntimeEvent>)
    ensures Final(New(t, c), log) == StateOf(t, c, Taken(New(t, c), log))
  {
    if log != [] {
      var n := |log| - 1;
      var front, e := log[..n], log[n];
      assert log == front + [e];
      StateIsWhatWasTaken(t, c, front);
      Append(New(t, c), front, e);
      var s := Taken(New(t, c), front);
      if Takes(StateOf(t, c, s), e) {
        BindingStep(t, c, s, e);
        OutcomeStep(t, c, s, e);
        FactStep(t, c, s, e);
        DetailStep(t, c, s, e);
        ProgressStep(t, c, s, e);
      } else {
        assert s + [] == s;
      }
    }
  }

  /** Which fact comes next into the state, said of the facts taken so far: before the turn is known,
      those of the command; once it is, the turn's own, and of its task the end, the verification and
      a steering turn; after the end, only an evaluator's word on the same task. */
  ghost predicate Belongs(c: Option<nat>, s: seq<RuntimeEvent>, e: RuntimeEvent) {
    && (Latest(s, StatusIn).Some? ==> LateOf(e, TaskOf(s)))
    && (TurnOf(s).None? ==> c.None? || e.payload.commandId == c)
    && (TurnOf(s).Some? && e.turnId != TurnOf(s) ==>
          e.taskId == TaskOf(s) && (StatusIn(e).Some? || VerificationIn(e).Some?
            || (e.eventType.TurnStarted? && e.payload.steer)))
  }

  /** For every log, a fact is taken exactly when it belongs to what was taken before it. */
  lemma WhatIsTaken(t: Thread, c: Option<nat>, log: seq<RuntimeEvent>, e: RuntimeEvent)
    ensures
      var s := Taken(New(t, c), log);
      Taken(New(t, c), log + [e]) == if Belongs(c, s, e) then s + [e] else s
  {
    Append(New(t, c), log, e);
    StateIsWhatWasTaken(t, c, log);
  }

  // ---------------------------------------------------------------- items

  lemma {:induction false} FirstCallIdIs(ids: seq<Option<string>>, k: nat)
    requires k < |ids| && ids[k].Some? && forall j | 0 <= j < k :: ids[j].None?
    ensures FirstCallId(ids) == ids[k]
  {
    if k > 0 { FirstCallIdIs(ids[1..], k - 1); }
  }

  lemma {:induction false} NoCallId(ids: seq<Option<string>>)
    requires forall i <- ids :: i.None?
    ensures FirstCallId(ids).None?
  {
    if ids != [] {
      assert ids[0] in ids;
      NoCallId(ids[1..]);
    }
  }

  /** Items of one tool call share their id, so a client can follow a call from start to end; and an
      item has failed or been cancelled exactly when its fact says so. */
  lemma ItemsFollowTheCall(e: RuntimeEvent, k: nat)
    ensures IsToolEvent(e.eventType) && k < |e.payload.toolCallIds| && e.payload.toolCallIds[k].Some?
            && (forall j | 0 <= j < k :: e.payload.toolCallIds[j].None?)
            ==> ItemFromEvent(e).id == e.payload.toolCallIds[k].value && ItemFromEvent(e).kind.Tool?
    ensures !IsToolEvent(e.eventType) || (forall i <- e.payload.toolCallIds :: i.None?) ==> ItemFromEvent(e).id == e.id
    ensures ItemFromEvent(e).status.ItemCancelled? <==>
      e.eventType.ToolCompleted? && e.payload.toolStatus == Some(ToolCancelled)
    ensures ItemFromEvent(e).status.ItemFailed? <==>
      || e.eventType.ProviderFailed?
      || (e.eventType.ToolCompleted? && e.payload.toolStatus.Some?
        && e.payload.toolStatus.value in {ToolError, ToolBlocked, ToolTimeout})
  {
    var ids := e.payload.toolCallIds;
    if k < |ids| && ids[k].Some? && forall j | 0 <= j < k :: ids[j].None? { FirstCallIdIs(ids, k); }
    if forall i <- ids :: i.None? { NoCallId(ids); }
  }

  // ---------------------------------------------------------------- one life cycle

  /** The stream event `out` tells the fact `e`. */
  ghost predicate Tells(out: StreamEvent, e: RuntimeEvent) {
    match out
    case ThreadStarted(_) => false
    case TurnBegan(_, task, turn, at) =>
      StartsTurn(e.eventType) && at == e.timestamp && (e.taskId.Some? ==> task == e.taskId)
        && (e.turnId.Some? ==> turn == e.turnId)
    case ItemStarted(item) => item == ItemFromEvent(e) && item.status.InProgress?
    case ItemUpdated(item) => item == ItemFromEvent(e) && item.status.InProgress?
    case ItemEnded(item) => item == ItemFromEvent(e) && !item.status.InProgress?
    case Raw(event) => event == e
    case TurnSucceeded(_, _, _, status, _, _, last, at) =>
      StatusIn(e) == Some(status) && status.Completed? && last == Some(e.sequenceNo) && at == e.timestamp
    case TurnFailed(_, _, _, status, _, _, _, last, at) =>
      StatusIn(e) == Some(status) && !status.Completed? && last == Some(e.sequenceNo) && at == e.timestamp
  }

  ghost predicate LateOf(e: RuntimeEvent, task: Option<nat>) {
    e.source.Evaluator? && e.eventType.TaskCompleted? && e.taskId == task && !e.payload.outcome.Absent?
  }

  ghost predicate FirstOf<T(!new)>(s: seq<RuntimeEvent>, i: nat, f: RuntimeEvent -> Option<T>)
    requires i < |s|
  {
    f(s[i]).Some? && forall j | 0 <= j < i :: f(s[j]).None?
  }

  ghost predicate LifeCycle(out: seq<StreamEvent>, s: seq<RuntimeEvent>, task: Option<nat>) {
    && |out| == |s|
    && (forall i | 0 <= i < |s| :: Tells(out[i], s[i]))
    && (forall i | 0 <= i < |s| :: out[i].TurnBegan? <==> FirstOf(s, i, StartIn))
    && (forall i | 0 <= i < |s| :: out[i].IsTerminal() <==> FirstOf(s, i, StatusIn))
    && QuietAfterEnd(out, s, task)
  }

  ghost predicate QuietAfterEnd(out: seq<StreamEvent>, s: seq<RuntimeEvent>, task: Option<nat>)
    requires |out| == |s|
  {
    forall i, j | 0 <= i < j < |s| && StatusIn(s[i]).Some? :: LateOf(s[j], task) && out[j] == Raw(s[j])
  }

  lemma EmitTells(p: Projector, e: RuntimeEvent)
    requires Takes(p, e)
    ensures
      var out := Project(p, e).1.value;
      && Tells(out, e)
      && (out.TurnBegan? <==> StartsTurn(e.eventType) && !p.turnStarted)
      && (out.IsTerminal() <==> IsTaskTerminal(e.eventType) && !p.finished)
  {
  }

  lemma FirstOfAppend<T(!new)>(s: seq<RuntimeEvent>, e: RuntimeEvent, f: RuntimeEvent -> Option<T>)
    ensures forall i | 0 <= i < |s| :: FirstOf(s + [e], i, f) <==> FirstOf(s, i, f)
    ensures FirstOf(s + [e], |s|, f) <==> f(e).Some? && Latest(s, f).None?
  {
    LatestMeans(s, f);
    var r := s + [e];
    assert forall i | 0 <= i < |s| :: r[i] == s[i];
    forall i | 0 <= i < |s|
      ensures FirstOf(r, i, f) <==> FirstOf(s, i, f)
    {
      assert forall j | 0 <= j < i :: r[j] == s[j];
    }
    assert r[|s|] == e;
  }

  lemma LateStep(p: Projector, e: RuntimeEvent)
    requires p.finished && Takes(p, e)
    ensures LateOf(e, p.taskId) && Project(p, e).0.taskId == p.taskId && Project(p, e).1 == Some(Raw(e))
  {
  }

  lemma QuietStep(
    out: seq<StreamEvent>, s: seq<RuntimeEvent>, task: Option<nat>, o: StreamEvent, e: RuntimeEvent, after: Option<nat>)
    requires |out| == |s| && QuietAfterEnd(out, s, task)
    requires Latest(s, StatusIn).Some? ==> LateOf(e, task) && after == task && o == Raw(e)
    ensures QuietAfterEnd(out + [o], s + [e], after)
  {
    LatestMeans(s, StatusIn);
  }

  lemma LifeCycleStep(p: Projector, out: seq<StreamEvent>, s: seq<RuntimeEvent>, e: RuntimeEvent)
    requires LifeCycle(out, s, p.taskId)
    requires p.finished == Latest(s, StatusIn).Some? && p.turnStarted == Latest(s, StartIn).Some?
    requires Takes(p, e)
    ensures LifeCycle(out + [Project(p, e).1.value], s + [e], Project(p, e).0.taskId)
  {
    EmitTells(p, e);
    FirstOfAppend(s, e, StartIn);
    FirstOfAppend(s, e, StatusIn);
    if p.finished { LateStep(p, e); }
    QuietStep(out, s, p.taskId, Project(p, e).1.value, e, Project(p, e).0.taskId);
  }

  /** Every fact taken is told exactly once and in order. The first start, and no other, opens the
      turn; the first end, and no other, closes it; after that only evaluator updates of the same
      task appear, and they appear raw. */
  lemma {:induction false} OneLifeCycle(t: Thread, c: Option<nat>, log: seq<RuntimeEvent>)
    ensures LifeCycle(Outputs(New(t, c), log), Taken(New(t, c), log), Final(New(t, c), log).taskId)
  {
    if log != [] {
      var n := |log| - 1;
      var p := New(t, c);
      assert log == log[..n] + [log[n]];
      OneLifeCycle(t, c, log[..n]);
      StateIsWhatWasTaken(t, c, log[..n]);
      Append(p, log[..n], log[n]);
      var q := Final(p, log[..n]);
      if Takes(q, log[n]) {
        LifeCycleStep(q, Outputs(p, log[..n]), Taken(p, log[..n]), log[n]);
      } else {
        assert Taken(p, log[..n]) + [] == Taken(p, log[..n]);
        assert Outputs(p, log[..n]) + [] == Outputs(p, log[..n]);
      }
    }
  }

  // ---------------------------------------------------------------- the end of the turn

  /** Where the text of a failure comes from, best source first. */
  ghost predicate ErrorChosen(text: string, s: seq<RuntimeEvent>, e: RuntimeEvent) {
    var named := e.payload.error.Some? && !Blank(e.payload.error.value);
    var detail := Flatten(Latest(s, DetailIn));
    var status := StatusOf(e);
    var explained := (status.Failed? || status.Blocked? || status.Partial?) && detail.Some?;
    var summed := e.payload.summary.Some? && !Blank(e.payload.summary.value);
    && (named ==> text == e.payload.error.value)
    && (!named && explained ==> text == detail.value)
    && (!named && !explained && summed ==> text == e.payload.summary.value)
    && (!named && !explained && !summed ==> text == DEFAULT_ERROR)
  }

  lemma {:induction false} DetailIsNeverBlank(s: seq<RuntimeEvent>)
    ensures var d := Flatten(Latest(s, DetailIn)); d.Some? ==> !Blank(d.value)
  {
    if s != [] { DetailIsNeverBlank(s[..|s| - 1]); }
  }

  lemma ErrorIsChosen(q: Projector, s: seq<RuntimeEvent>, e: RuntimeEvent)
    requires q.failureDetail == Flatten(Latest(s, DetailIn))
    ensures ErrorChosen(ErrorText(q, e), s, e) && !Blank(ErrorText(q, e))
  {
    DetailIsNeverBlank(s);
    assert DEFAULT_ERROR[0] in DEFAULT_ERROR && !IsWhite(DEFAULT_ERROR[0]);
  }

  lemma FailureTextIs(p: Projector, e: RuntimeEvent)
    requires Takes(p, e) && Project(p, e).1.value.TurnFailed?
    ensures Project(p, e).1.value.error == ErrorText(Absorb(p, e), e)
  {
  }

  /** The failure text is the best explanation available, and never blank. */
  lemma FailureIsExplained(t: Thread, c: Option<nat>, log: seq<RuntimeEvent>, e: RuntimeEvent)
    requires var p := Final(New(t, c), log); Takes(p, e) && Project(p, e).1.value.TurnFailed?
    ensures
      var out, s := Project(Final(New(t, c), log), e).1.value, Taken(New(t, c), log) + [e];
      ErrorChosen(out.error, s, e) && !Blank(out.error)
  {
    var p, s := Final(New(t, c), log), Taken(New(t, c), log);
    StateIsWhatWasTaken(t, c, log);
    DetailStep(t, c, s, e);
    FailureTextIs(p, e);
    ErrorIsChosen(Absorb(p, e), s + [e], e);
  }

  /** The event that ends a turn reports the latest of everything taken. */
  lemma TerminalReport(t: Thread, c: Option<nat>, log: seq<RuntimeEvent>, e: RuntimeEvent)
    requires var p := Final(New(t, c), log); Takes(p, e) && Project(p, e).1.value.IsTerminal()
    ensures
      var out, s := Project(Final(New(t, c), log), e).1.value, Taken(New(t, c), log) + [e];
      && out.status == StatusOf(e)
      && out.taskId == OrElse(e.taskId, TaskOf(s))
      && out.turnId == TurnOf(s)
      && out.finalMessage == Latest(s, MessageIn)
      && out.verification == Flatten(Latest(s, VerificationIn))
      && out.lastSequenceNo == Latest(s, SequenceIn)
  {
    Append(New(t, c), log, e);
    StateIsWhatWasTaken(t, c, log + [e]);
    ResultStep(Final(New(t, c), log), e);
  }

  /** The result agrees with the event that ended the turn. Its task does so exactly when that
      event names no task or the one the turn is bound to. */
  lemma ResultAgrees(t: Thread, c: Option<nat>, log: seq<RuntimeEvent>, e: RuntimeEvent)
    requires var p := Final(New(t, c), log); Takes(p, e) && Project(p, e).1.value.IsTerminal()
    ensures
      var p := Final(New(t, c), log);
      var out, r := Project(p, e).1.value, Result(Project(p, e).0);
      && r.Some? && r.value.thread == out.thread && r.value.status == out.status
      && r.value.turnId == out.turnId && r.value.finalMessage == out.finalMessage
      && r.value.verification == out.verification && r.value.lastSequenceNo == out.lastSequenceNo
      && r.value.outcome.Some?
      && (r.value.taskId == out.taskId <==> e.taskId.None? || p.taskId.None? || e.taskId == p.taskId)
  {
    StateIsWhatWasTaken(t, c, log);
    ResultStep(Final(New(t, c), log), e);
  }

  lemma ResultStep(p: Projector, e: RuntimeEvent)
    requires Takes(p, e) && Project(p, e).1.value.IsTerminal()
    ensures
      var out, r := Project(p, e).1.value, Result(Project(p, e).0);
      && r.Some? && r.value.thread == out.thread && r.value.status == out.status
      && r.value.turnId == out.turnId && r.value.finalMessage == out.finalMessage
      && r.value.verification == out.verification && r.value.lastSequenceNo == out.lastSequenceNo
      && r.value.outcome.Some? && out.thread == p.thread && out.status == StatusOf(e)
      && out.taskId == OrElse(e.taskId, r.value.taskId)
      && (r.value.taskId == out.taskId <==> e.taskId.None? || p.taskId.None? || e.taskId == p.taskId)
  {
  }

  ghost predicate HasEnd(out: seq<StreamEvent>) { exists i | 0 <= i < |out| :: out[i].IsTerminal() }

  /** There is a result exactly when the turn has ended. */
  lemma ResultExists(t: Thread, c: Option<nat>, log: seq<RuntimeEvent>)
    ensures
      var p := New(t, c);
      && (Result(Final(p, log)).Some? <==> Final(p, log).finished)
      && (Final(p, log).finished <==> HasEnd(Outputs(p, log)))
  {
    var p := New(t, c);
    StateIsWhatWasTaken(t, c, log);
    OneLifeCycle(t, c, log);
    EndShows(Outputs(p, log), Taken(p, log), Final(p, log).taskId);
  }

  lemma EndShows(out: seq<StreamEvent>, s: seq<RuntimeEvent>, task: Option<nat>)
    requires LifeCycle(out, s, task)
    ensures Latest(s, StatusIn).Some? <==> HasEnd(out)
  {
    LatestMeans(s, StatusIn);
    if Latest(s, StatusIn).Some? {
      assert out[FirstIndex(s, StatusIn)].IsTerminal();
    } else {
      forall i | 0 <= i < |out| ensures !out[i].IsTerminal() { assert !FirstOf(s, i, StatusIn); }
    }
  }

  ghost function FirstIndex<T(!new)>(s: seq<RuntimeEvent>, f: RuntimeEvent -> Option<T>): (i: nat)
    requires exists k | 0 <= k < |s| :: f(s[k]).Some?
    ensures i < |s| && FirstOf(s, i, f)
  {
    if f(s[0]).Some? then 0
    else
      assert exists k | 0 <= k < |s[1..]| :: f(s[1..][k]).Some? by {
        var k :| 0 <= k < |s| && f(s[k]).Some?;
        assert s[1..][k - 1] == s[k];
      }
      var i := FirstIndex(s[1..], f);
      assert forall j | 0 < j < i + 1 :: s[j] == s[1..][j - 1];
      i + 1
  }

  /** What later facts can still change once the turn has ended: the status and the outcome, by an
      evaluator of the same task; never what was said or verified, nor the task. */
  lemma {:induction false} ResultIsSettled(p: Projector, more: seq<RuntimeEvent>)
    requires p.finished
    ensures
      var q := Final(p, more);
      && q.finished && q.taskId == p.taskId && q.finalMessage == p.finalMessage && q.verification == p.verification
      && (p.turnId.Some? ==> q.turnId == p.turnId)
      && (forall e <- Taken(p, more) :: LateOf(e, p.taskId))
      && (Taken(p, more) == [] ==> q == p)
    decreases |more|
  {
    if more != [] {
      ResultIsSettled(Project(p, more[0]).0, more[1..]);
    }
  }
}
