/** What a projector may see of a log that several tasks share. */
module ProjectionScope {
  import opened Options
  import opened AgentEvents
  import opened Projector
  import opened ProjectionLaws

  predicate Carries(e: RuntimeEvent, c: nat) { e.payload.commandId == Some(c) }

  // ---------------------------------------------------------------- nothing before the command

  /** Facts recorded before the command's own do not matter. */
  lemma {:induction false} EarlierFactsAreIgnored(t: Thread, c: nat, before: seq<RuntimeEvent>, log: seq<RuntimeEvent>)
    requires forall e <- before :: !Carries(e, c)
    ensures Outputs(New(t, Some(c)), before + log) == Outputs(New(t, Some(c)), log)
    ensures Final(New(t, Some(c)), before + log) == Final(New(t, Some(c)), log)
    decreases |before|
  {
    if before == [] {
      assert before + log == log;
    } else {
      assert (before + log)[1..] == before[1..] + log;
      assert (before + log)[0] == before[0] && before[0] in before;
      EarlierFactsAreIgnored(t, c, before[1..], log);
    }
  }

  // ---------------------------------------------------------------- one task among several

  function OfTask(log: seq<RuntimeEvent>, task: nat): (r: seq<RuntimeEvent>) {
    if log == [] then [] else (if log[0].taskId == Some(task) then [log[0]] else []) + OfTask(log[1..], task)
  }

  /** How the runtime labels facts: whatever names a turn or a command names its task, and a turn
      belongs to one task. */
  ghost predicate Labelled(log: seq<RuntimeEvent>, owner: map<nat, nat>) {
    forall e <- log ::
      && (e.turnId.Some? || e.payload.commandId.Some? ==> e.taskId.Some?)
      && (e.turnId.Some? ==> e.turnId.value in owner && e.taskId == Some(owner[e.turnId.value]))
  }

  /** A fact after which the command is settled: it names the turn, or ends it. */
  predicate Settles(e: RuntimeEvent) { e.turnId.Some? || IsTaskTerminal(e.eventType) }

  /** Up to the fact that settles it, the command is only ever named by `task`. */
  predicate NamedBy(log: seq<RuntimeEvent>, c: nat, task: nat) {
    log == []
    || (if Carries(log[0], c) then log[0].taskId == Some(task) && (Settles(log[0]) || NamedBy(log[1..], c, task))
        else NamedBy(log[1..], c, task))
  }

  /** A projector that is waiting for its command, or is settled on `task`. */
  ghost predicate Waiting(p: Projector, c: nat, task: nat) {
    p.commandId == Some(c) && p.turnId.None? && !p.finished && (p.taskId.None? || p.taskId == Some(task))
  }

  ghost predicate SettledOn(p: Projector, c: nat, task: nat, owner: map<nat, nat>) {
    && p.commandId == Some(c) && (p.turnId.Some? || p.finished) && p.taskId == Some(task)
    && (p.turnId.Some? ==> p.turnId.value in owner && owner[p.turnId.value] == task)
  }

  lemma SettledStep(p: Projector, c: nat, task: nat, owner: map<nat, nat>, e: RuntimeEvent)
    requires SettledOn(p, c, task, owner) && Labelled([e], owner)
    ensures Takes(p, e) ==> e.taskId == Some(task)
    ensures SettledOn(Project(p, e).0, c, task, owner)
  {
    assert e in [e];
  }

  lemma {:induction false} SettledIsPrivate(p: Projector, c: nat, task: nat, owner: map<nat, nat>,
    log: seq<RuntimeEvent>)
    requires SettledOn(p, c, task, owner) && Labelled(log, owner)
    ensures Outputs(p, log) == Outputs(p, OfTask(log, task))
    ensures Final(p, log) == Final(p, OfTask(log, task))
    decreases |log|
  {
    if log != [] {
      SettledStep(p, c, task, owner, log[0]);
      SettledIsPrivate(Project(p, log[0]).0, c, task, owner, log[1..]);
      if log[0].taskId == Some(task) {
        assert OfTask(log, task)[1..] == OfTask(log[1..], task);
      } else {
        assert !Takes(p, log[0]);
        assert OfTask(log, task) == OfTask(log[1..], task);
      }
    }
  }

  lemma WaitingStep(p: Projector, c: nat, task: nat, owner: map<nat, nat>, e: RuntimeEvent)
    requires Waiting(p, c, task) && Labelled([e], owner)
    requires Carries(e, c) ==> e.taskId == Some(task)
    ensures Takes(p, e) <==> Carries(e, c)
    ensures
      var q := Project(p, e).0;
      if Carries(e, c) && Settles(e) then SettledOn(q, c, task, owner) else Waiting(q, c, task)
  {
    assert e in [e];
  }

  lemma {:induction false} WaitingIsPrivate(p: Projector, c: nat, task: nat, owner: map<nat, nat>,
    log: seq<RuntimeEvent>)
    requires Waiting(p, c, task) && Labelled(log, owner) && NamedBy(log, c, task)
    ensures Outputs(p, log) == Outputs(p, OfTask(log, task))
    ensures Final(p, log) == Final(p, OfTask(log, task))
    decreases |log|
  {
    if log != [] {
      var e, rest := log[0], log[1..];
      assert e in log;
      WaitingStep(p, c, task, owner, e);
      var q := Project(p, e).0;
      if Carries(e, c) && Settles(e) {
        SettledIsPrivate(q, c, task, owner, rest);
      } else {
        WaitingIsPrivate(q, c, task, owner, rest);
      }
      if e.taskId == Some(task) {
        assert OfTask(log, task)[1..] == OfTask(rest, task);
      } else {
        assert OfTask(log, task) == OfTask(rest, task);
      }
    }
  }

  // ---------------------------------------------------------------- and only then

  /** The task a stream event speaks of. */
  function TaskTold(out: StreamEvent): (r: Option<nat>) {
    match out
    case ThreadStarted(_) => None
    case TurnBegan(_, task, _, _) => task
    case ItemStarted(item) => item.event.taskId
    case ItemUpdated(item) => item.event.taskId
    case ItemEnded(item) => item.event.taskId
    case Raw(event) => event.taskId
    case TurnSucceeded(_, task, _, _, _, _, _, _) => task
    case TurnFailed(_, task, _, _, _, _, _, _, _) => task
  }

  lemma EmitTellsTask(p: Projector, e: RuntimeEvent)
    requires Takes(p, e) && e.taskId.Some?
    ensures TaskTold(Project(p, e).1.value) == e.taskId
  {
  }

  lemma {:induction false} OfTaskTellsTask(p: Projector, log: seq<RuntimeEvent>, task: nat)
    ensures forall out <- Outputs(p, OfTask(log, task)) :: TaskTold(out) == Some(task)
    decreases |log|
  {
    if log != [] {
      if log[0].taskId == Some(task) {
        assert OfTask(log, task)[1..] == OfTask(log[1..], task);
        OfTaskTellsTask(Project(p, log[0]).0, log[1..], task);
        if Takes(p, log[0]) { EmitTellsTask(p, log[0]); }
      } else {
        assert OfTask(log, task) == OfTask(log[1..], task);
        OfTaskTellsTask(p, log[1..], task);
      }
    }
  }

  lemma {:induction false} OnlyThenPrivate(p: Projector, c: nat, task: nat, owner: map<nat, nat>,
    log: seq<RuntimeEvent>)
    requires Waiting(p, c, task) && Labelled(log, owner)
    requires forall out <- Outputs(p, log) :: TaskTold(out) == Some(task)
    ensures NamedBy(log, c, task)
    decreases |log|
  {
    if log != [] {
      var e, rest := log[0], log[1..];
      assert e in log;
      if Carries(e, c) {
        EmitTellsTask(p, e);
        assert Project(p, e).1.value in Outputs(p, log);
      }
      WaitingStep(p, c, task, owner, e);
      var q := Project(p, e).0;
      assert forall out <- Outputs(q, rest) :: out in Outputs(p, log);
      if !(Carries(e, c) && Settles(e)) { OnlyThenPrivate(q, c, task, owner, rest); }
    }
  }

  /** A handle for a command sees the same stream whether or not other tasks share the log, exactly
      when no other task names the command before it is settled; the state is then the same too. */
  lemma TasksDoNotInterfere(t: Thread, c: nat, task: nat, owner: map<nat, nat>, log: seq<RuntimeEvent>)
    requires Labelled(log, owner)
    ensures Outputs(New(t, Some(c)), log) == Outputs(New(t, Some(c)), OfTask(log, task)) <==> NamedBy(log, c, task)
    ensures NamedBy(log, c, task) ==> Final(New(t, Some(c)), log) == Final(New(t, Some(c)), OfTask(log, task))
  {
    var p := New(t, Some(c));
    if NamedBy(log, c, task) {
      WaitingIsPrivate(p, c, task, owner, log);
    } else if Outputs(p, log) == Outputs(p, OfTask(log, task)) {
      OfTaskTellsTask(p, log, task);
      OnlyThenPrivate(p, c, task, owner, log);
    }
  }

  /** The condition can fail: another task that names the command first is seen. */
  lemma SharedCommandInterferes(t: Thread, e: RuntimeEvent)
    requires e.taskId == Some(2) && e.turnId.None? && Carries(e, 7)
    ensures Labelled([e], map[]) && !NamedBy([e], 7, 1)
    ensures Outputs(New(t, Some(7)), [e]) != Outputs(New(t, Some(7)), OfTask([e], 1))
  {
    TasksDoNotInterfere(t, 7, 1, map[], [e]);
  }
}
