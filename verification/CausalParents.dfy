/** What the actions of a run decide about the parent of the next event. */
module CausalParents {
  import opened Options
  import opened CausalModel
  import opened CausalLaws
  import opened CausalRestart
  import opened CausalOrigins

  /** The run with the readings that recording the event begins with. */
  function Reading(run: seq<Action>, e: Event): (r: seq<Action>) { run + [AbandonRecall(e, ALL_READINGS)] }

  /** The action that left the head an event is attached to: for history that of its session's history, or
      else that of its task, or else that of its session. */
  ghost function ParentOrigin(workspace: nat, run: seq<Action>, e: Event): (o: Origin) {
    var r := Reading(run, e);
    Pick(e, HistoryOrigin(workspace, r, e.session), TaskOrigin(workspace, r, TaskOf(e)),
         SessionOrigin(workspace, r, e.session))
  }

  function TaskOf(e: Event): (t: nat) { if e.task.Some? then e.task.value else 0 }

  function Pick(e: Event, history: Origin, task: Origin, session: Origin): (o: Origin) {
    if IsHistory(e) && !history.NoAction? then history
    else if e.task.Some? && !task.NoAction? then task
    else session
  }

  lemma PickIsPrevious(l: Ledger, e: Event, history: Origin, task: Origin, session: Origin)
    requires Get(l.contextHeads, e.session) == IdIn(history) && Get(l.sessionHeads, e.session) == IdIn(session)
    requires Get(l.taskHeads, TaskOf(e)) == IdIn(task)
    ensures Previous(l, e) == IdIn(Pick(e, history, task, session))
  {
  }

  lemma ReadingRun(workspace: nat, owner: map<nat, nat>, run: seq<Action>, e: Event)
    requires IsRun(START, workspace, owner, run + [Record(e)])
    ensures
      var h := After(START, workspace, run);
      && IsRun(START, workspace, owner, run) && Fits(e, owner)
      && IsRun(START, workspace, owner, Reading(run, e))
      && After(START, workspace, Reading(run, e)) == h.(ledger := Recall(h.ledger, h.log, e))
  {
    assert (run + [Record(e)])[..|run|] == run && Reading(run, e)[..|run|] == run;
  }

  lemma RecalledParent(workspace: nat, owner: map<nat, nat>, run: seq<Action>, e: Event)
    requires IsRun(START, workspace, owner, run + [Record(e)])
    ensures
      var h := After(START, workspace, run);
      Previous(Recall(h.ledger, h.log, e), e) == IdIn(ParentOrigin(workspace, run, e))
  {
    var h, r := After(START, workspace, run), Reading(run, e);
    ReadingRun(workspace, owner, run, e);
    HeadsAreLeftBy(workspace, owner, r, e.session, TaskOf(e));
    PickIsPrevious(Recall(h.ledger, h.log, e), e, HistoryOrigin(workspace, r, e.session),
                   TaskOrigin(workspace, r, TaskOf(e)), SessionOrigin(workspace, r, e.session));
  }

  lemma ParentComesFrom(workspace: nat, owner: map<nat, nat>, run: seq<Action>, e: Event)
    requires IsRun(START, workspace, owner, run + [Record(e)])
    ensures
      var o := ParentOrigin(workspace, run, e);
      Prepared(After(START, workspace, run), workspace, e).parent == OrElse(e.parent, IdIn(o))
  {
    var h := After(START, workspace, run);
    RecalledParent(workspace, owner, run, e);
    EnrichedKeeps(Recall(h.ledger, h.log, e), workspace, e);
  }

  /** What the actions leave in place for an event that is not history: the last record on its task, since the
      process started, was not abandoned; and if the task has nothing recorded, then nothing was done with the
      session since the process started, or its head was last moved by a record, or by a reading that brought
      the session's last event. */
  ghost predicate Follows(workspace: nat, run: seq<Action>, e: Event) {
    var log := Log(workspace, run);
    && !(e.task.Some? && LastAbandoned(run, e.task.value))
    && (TaskTail(log, e).None? ==>
          match SessionOrigin(workspace, run, e.session)
          case NoAction => true
          case FromRecord(_) => true
          case FromAbandoned(_) => false
          case FromReading(id) => IdOf(Last(log, OfSession(e.session))) == Some(id))
  }

  lemma TaskClearIff(workspace: nat, owner: map<nat, nat>, run: seq<Action>, e: Event)
    requires IsRun(START, workspace, owner, run + [Record(e)])
    ensures TaskClear(After(START, workspace, run), e) <==> !(e.task.Some? && LastAbandoned(run, e.task.value))
  {
    ReadingRun(workspace, owner, run, e);
    if e.task.Some? {
      AbandonedHeadsAre(workspace, owner, Reading(run, e), e.task.value);
      assert Reading(run, e)[..|run|] == run;
    }
  }

  lemma SessionHeadIff(workspace: nat, owner: map<nat, nat>, run: seq<Action>, e: Event)
    requires IsRun(START, workspace, owner, run + [Record(e)])
    requires TaskTail(Log(workspace, run), e).None?
    ensures
      var h, o := After(START, workspace, run), SessionOrigin(workspace, run, e.session);
      var last := IdOf(Last(h.log, OfSession(e.session)));
      Get(Recall(h.ledger, h.log, e).sessionHeads, e.session) == last <==>
        o.NoAction? || o.FromRecord? || (o.FromReading? && last == Some(o.id))
  {
    var h := After(START, workspace, run);
    ReadingRun(workspace, owner, run, e);
    HeadsAreLeftBy(workspace, owner, run, e.session, 0);
    OriginsMean(workspace, owner, run, e.session, 0);
    RunInv(workspace, owner, run);
    RecallSession(h.ledger, h.log, e);
    if e.task.Some? { TaskQueriesAgree(h.log, owner, e.session, e.task.value); }
  }

  lemma FollowsIffClear(workspace: nat, owner: map<nat, nat>, run: seq<Action>, e: Event)
    requires IsRun(START, workspace, owner, run + [Record(e)])
    ensures Clear(After(START, workspace, run), e) <==> Follows(workspace, run, e)
  {
    TaskClearIff(workspace, owner, run, e);
    if TaskTail(Log(workspace, run), e).None? { SessionHeadIff(workspace, owner, run, e); }
  }

  /** A parent that an abandoned record left is not recorded, any other is. */
  lemma OriginDecides(workspace: nat, owner: map<nat, nat>, run: seq<Action>, e: Event)
    requires IsRun(START, workspace, owner, run + [Record(e)])
    ensures
      var h, o := After(START, workspace, run), ParentOrigin(workspace, run, e);
      && (!o.NoAction? ==> (Earlier(h.log, e.session, o.id) <==> !o.FromAbandoned?))
      && (o.NoAction? ==> forall x <- h.log :: x.session != e.session)
  {
    var h, o, r := After(START, workspace, run), ParentOrigin(workspace, run, e), Reading(run, e);
    ReadingRun(workspace, owner, run, e);
    RunInv(workspace, owner, run);
    HeadsAreStored(h, owner, e);
    ParentComesFrom(workspace, owner, run, e);
    EnrichedKeeps(Recall(h.ledger, h.log, e), workspace, e);
    OriginIsAbandoned(workspace, owner, run, e);
    if !o.NoAction? && Earlier(h.log, e.session, o.id) {
      StoredIsNotAbandoned(h.log, h.abandoned, e.session, o.id);
    }
    RecalledParent(workspace, owner, run, e);
  }

  lemma OriginIsAbandoned(workspace: nat, owner: map<nat, nat>, run: seq<Action>, e: Event)
    requires IsRun(START, workspace, owner, run + [Record(e)])
    ensures
      var h, o := After(START, workspace, run), ParentOrigin(workspace, run, e);
      IsAbandoned(h, IdIn(o)) <==> o.FromAbandoned?
  {
    ReadingRun(workspace, owner, run, e);
    HeadsAreLeftBy(workspace, owner, Reading(run, e), e.session, TaskOf(e));
  }

  /** After any run: a new event that is given no parent gets the head that an action left, if any did or the
      store has an event to read; that is an earlier event of its session if and only if the action was not an
      abandoned record; and an event that is not history follows its task's last event, or else its session's,
      if and only if the actions have left these heads in place. */
  lemma ParentIsRecorded(workspace: nat, owner: map<nat, nat>, run: seq<Action>, e: Event)
    requires IsRun(START, workspace, owner, run + [Record(e)])
    ensures
      var h, o := After(START, workspace, run), ParentOrigin(workspace, run, e);
      var parent := Prepared(h, workspace, e).parent;
      && parent == OrElse(e.parent, IdIn(o))
      && (!o.NoAction? ==> (Earlier(h.log, e.session, o.id) <==> !o.FromAbandoned?))
      && (o.NoAction? ==> forall x <- h.log :: x.session != e.session)
      && (e.parent.None? && !IsHistory(e) ==> (parent == Tail(h.log, e) <==> Follows(workspace, run, e)))
  {
    var h := After(START, workspace, run);
    ReadingRun(workspace, owner, run, e);
    ParentComesFrom(workspace, owner, run, e);
    OriginDecides(workspace, owner, run, e);
    if e.parent.None? && !IsHistory(e) {
      RunInv(workspace, owner, run);
      EnrichedKeeps(Recall(h.ledger, h.log, e), workspace, e);
      TailIffClear(h, owner, e);
      FollowsIffClear(workspace, owner, run, e);
    }
  }

  // ---------------------------------------------------------------- the chain of history

  /** Where the head of the session's history is not known, what a history event is attached to is not history. */
  lemma UnknownHistory(workspace: nat, owner: map<nat, nat>, run: seq<Action>, e: Event)
    requires IsRun(START, workspace, owner, run + [Record(e)])
    requires IsHistory(e) && HistoryOrigin(workspace, Reading(run, e), e.session).NoAction?
    ensures
      var h := After(START, workspace, run);
      var place := Previous(Recall(h.ledger, h.log, e), e);
      && NotHistory(h, e.session, place)
      && (place == Tail(h.log, e) <==> Follows(workspace, run, e))
  {
    var h, r := After(START, workspace, run), Reading(run, e);
    ReadingRun(workspace, owner, run, e);
    HeadsUnhistoric(workspace, owner, r, e.session);
    HeadsAreLeftBy(workspace, owner, r, e.session, 0);
    RunInv(workspace, owner, run);
    TailIffClear(h, owner, e);
    FollowsIffClear(workspace, owner, run, e);
  }

  /** What a history event is attached to, by the last action on its session's history. */
  lemma HistoryParent(workspace: nat, owner: map<nat, nat>, run: seq<Action>, e: Event)
    requires IsRun(START, workspace, owner, run + [Record(e)]) && IsHistory(e) && e.parent.None?
    ensures
      var h, o := After(START, workspace, run), HistoryOrigin(workspace, Reading(run, e), e.session);
      var parent := Prepared(h, workspace, e).parent;
      && Inv(h, owner) && HistoryMeans(h, o, e.session)
      && (!o.NoAction? ==> parent == Some(o.id))
      && (o.NoAction? ==>
            && NotHistory(h, e.session, parent)
            && (parent == Tail(h.log, e) <==> Follows(workspace, run, e)))
  {
    var o := HistoryOrigin(workspace, Reading(run, e), e.session);
    ReadingRun(workspace, owner, run, e);
    ParentComesFrom(workspace, owner, run, e);
    OriginsMean(workspace, owner, Reading(run, e), e.session, 0);
    RunInv(workspace, owner, run);
    if o.NoAction? {
      UnknownHistory(workspace, owner, run, e);
      RecalledParent(workspace, owner, run, e);
    }
  }

  lemma IdIsHistory(h: Host, owner: map<nat, nat>, o: Origin, s: nat)
    requires Inv(h, owner) && HistoryMeans(h, o, s) && !o.NoAction?
    ensures HistoryId(h.log, s, o.id) <==> !o.FromAbandoned?
  {
  }

  /** After any run, a history event that is given no parent follows a recorded history event of its session if
      and only if the last action on the history of that session, its own readings included, was a record or a
      reading that brought one. */
  lemma HistoryFollowsHistory(workspace: nat, owner: map<nat, nat>, run: seq<Action>, e: Event)
    requires IsRun(START, workspace, owner, run + [Record(e)]) && IsHistory(e) && e.parent.None?
    ensures
      var h, o := After(START, workspace, run), HistoryOrigin(workspace, Reading(run, e), e.session);
      var parent := Prepared(h, workspace, e).parent;
      parent.Some? && HistoryId(h.log, e.session, parent.value) <==> o.FromRecord? || o.FromReading?
  {
    var h, o := After(START, workspace, run), HistoryOrigin(workspace, Reading(run, e), e.session);
    HistoryParent(workspace, owner, run, e);
    if !o.NoAction? { IdIsHistory(h, owner, o, e.session); }
  }

  /** What keeps the chain: the last action on the history of the session, the readings of the event included,
      was the record of its last history event, or a reading that brought that event; or there is none, and no
      history either, and the actions have left the event's task and session in place. */
  ghost predicate Chains(workspace: nat, run: seq<Action>, e: Event) {
    var o := HistoryOrigin(workspace, Reading(run, e), e.session);
    OriginChains(Log(workspace, run), o, e.session) && (o.NoAction? ==> Follows(workspace, run, e))
  }

  ghost predicate OriginChains(log: seq<Event>, o: Origin, s: nat) {
    match o
    case NoAction => Last(log, HistoryOf(s)).None?
    case FromRecord(_) => true
    case FromAbandoned(_) => false
    case FromReading(id) => IdOf(Last(log, HistoryOf(s))) == Some(id)
  }

  /** The chain that a history event should continue. */
  ghost function ChainEnd(log: seq<Event>, e: Event): (r: Option<nat>) {
    OrElse(IdOf(Last(log, HistoryOf(e.session))), Tail(log, e))
  }

  lemma KnownChains(h: Host, owner: map<nat, nat>, o: Origin, e: Event)
    requires Inv(h, owner) && HistoryMeans(h, o, e.session) && !o.NoAction?
    ensures Some(o.id) == ChainEnd(h.log, e) <==> OriginChains(h.log, o, e.session)
  {
    LastExists(h.log, HistoryOf(e.session));
    TailIsStored(h.log, h.abandoned, e);
  }

  lemma UnknownChains(h: Host, parent: Option<nat>, e: Event)
    requires NotHistory(h, e.session, parent)
    ensures
      parent == ChainEnd(h.log, e) <==> Last(h.log, HistoryOf(e.session)).None? && parent == Tail(h.log, e)
  {
  }

  /** After any run, a history event that is given no parent joins the chain of history, following the session's
      last history event or, if there is none, its task's or session's last event, if and only if the actions
      keep the chain. */
  lemma ChainIff(workspace: nat, owner: map<nat, nat>, run: seq<Action>, e: Event)
    requires IsRun(START, workspace, owner, run + [Record(e)]) && IsHistory(e) && e.parent.None?
    ensures
      var h := After(START, workspace, run);
      Prepared(h, workspace, e).parent == ChainEnd(h.log, e) <==> Chains(workspace, run, e)
  {
    var h, o := After(START, workspace, run), HistoryOrigin(workspace, Reading(run, e), e.session);
    HistoryParent(workspace, owner, run, e);
    if o.NoAction? {
      UnknownChains(h, Prepared(h, workspace, e).parent, e);
    } else {
      KnownChains(h, owner, o, e);
    }
  }

  // ---------------------------------------------------------------- runs in which parents go astray

  const TASKS := map[1 := 1, 2 := 1, 3 := 1]

  /** The event as it was recorded. */
  predicate IsRecordOf(x: Event, e: Event) {
    && x.id == e.id && x.session == e.session && x.task == e.task && x.eventType == e.eventType
    && x.payload == e.payload
    && (e.task.Some? && e.payload.requestId.Some? ==> x.context.requestId == e.payload.requestId)
  }

  lemma EnrichedNames(l: Ledger, workspace: nat, e: Event)
    ensures IsRecordOf(Enriched(l, workspace, e), e)
  {
  }

  lemma RunRecords(workspace: nat, run: seq<Action>, e: Event) returns (x: Event)
    requires IsRun(START, workspace, TASKS, run) && Enabled(After(START, workspace, run), TASKS, Record(e))
    ensures IsRun(START, workspace, TASKS, run + [Record(e)])
    ensures IsRecordOf(x, e) && Log(workspace, run + [Record(e)]) == Log(workspace, run) + [x]
    ensures After(START, workspace, run + [Record(e)]).abandoned == After(START, workspace, run).abandoned
  {
    var h := After(START, workspace, run);
    RunExtends(workspace, TASKS, run, Record(e));
    EnrichedNames(Recall(h.ledger, h.log, e), workspace, e);
    x := Prepared(h, workspace, e);
  }

  /** A run that has come to `h` goes on with a new event. */
  lemma GoesOn(workspace: nat, run: seq<Action>, h: Host, a: Action)
    requires IsRun(START, workspace, TASKS, run) && After(START, workspace, run) == h && Enabled(h, TASKS, a)
    ensures IsRun(START, workspace, TASKS, run + [a]) && After(START, workspace, run + [a]) == Apply(h, workspace, a)
  {
    RunExtends(workspace, TASKS, run, a);
  }

  lemma TwoRecords(workspace: nat, a: Event, b: Event) returns (x: Event, y: Event, h: Host)
    requires a.id == 1 && b.id == 2 && Fits(a, TASKS) && Fits(b, TASKS)
    ensures
      var run := [Record(a)] + [Record(b)];
      IsRun(START, workspace, TASKS, run) && After(START, workspace, run) == h
    ensures h.log == [x, y] && h.abandoned == {} && IsRecordOf(x, a) && IsRecordOf(y, b)
  {
    assert [] + [Record(a)] == [Record(a)];
    x := RunRecords(workspace, [], a);
    y := RunRecords(workspace, [Record(a)], b);
    h := After(START, workspace, [Record(a)] + [Record(b)]);
  }

  /** Two events, and the process starts again. */
  lemma TwoThenRestart(workspace: nat, a: Event, b: Event, run: seq<Action>) returns (x: Event, y: Event)
    requires a.id == 1 && b.id == 2 && Fits(a, TASKS) && Fits(b, TASKS)
    requires run == [Record(a)] + [Record(b)] + [Restart]
    ensures IsRun(START, workspace, TASKS, run) && After(START, workspace, run) == Host(EMPTY_LEDGER, [x, y], {})
    ensures IsRecordOf(x, a) && IsRecordOf(y, b)
  {
    var h;
    x, y, h := TwoRecords(workspace, a, b);
    GoesOn(workspace, [Record(a)] + [Record(b)], h, Restart);
  }

  lemma LastOfTwo(x: Event, y: Event, q: Query)
    ensures Last([x, y], q) == if Matches(q, y) then Some(y) else if Matches(q, x) then Some(x) else None
  {
    assert [x] + [y] == [x, y] && [] + [x] == [x];
    LastAppend([x], y, q);
    LastAppend([], x, q);
  }

  lemma LastOfThree(x: Event, y: Event, z: Event, q: Query)
    ensures Last([x, y, z], q) == if Matches(q, z) then Some(z) else Last([x, y], q)
  {
    assert [x, y] + [z] == [x, y, z];
    LastAppend([x, y], z, q);
  }

  lemma ReportIsNotFound(workspace: nat, x: Event, y: Event, e: Event)
    requires IsRecordOf(x, Plain(1, 1, AssistantMessage)) && IsRecordOf(y, Plain(2, 1, SubagentUpdated))
    requires e == Plain(3, 2, AssistantMessage)
    ensures
      var h := Host(EMPTY_LEDGER, [x, y], {});
      Prepared(h, workspace, e).parent == Some(1) && ChainEnd(h.log, e) == Some(2)
  {
    LastOfTwo(x, y, HistoryOf(1));
    LastOfTwo(x, y, ListedOf(1));
    RecallContext(EMPTY_LEDGER, [x, y], e);
    EnrichedKeeps(Recall(EMPTY_LEDGER, [x, y], e), workspace, e);
  }

  /** After the run the event can be recorded, gets the first event as its parent, and should have the second. */
  ghost predicate GoesAstray(workspace: nat, run: seq<Action>, e: Event, due: Option<nat>) {
    && IsRun(START, workspace, TASKS, run + [Record(e)])
    && Prepared(After(START, workspace, run), workspace, e).parent == Some(1) && due == Some(2)
  }

  lemma AstrayFrom(workspace: nat, run: seq<Action>, h: Host, e: Event, due: Option<nat>)
    requires IsRun(START, workspace, TASKS, run) && After(START, workspace, run) == h
    requires |h.log| == 2 && h.log[0].id == 1 && h.log[1].id == 2 && h.abandoned == {} && e.id > 2 && Fits(e, TASKS)
    requires Prepared(h, workspace, e).parent == Some(1) && due == Some(2)
    ensures GoesAstray(workspace, run, e, due)
  {
    ThirdIsNew(h, e);
    GoesOn(workspace, run, h, Record(e));
  }

  lemma ThirdIsNew(h: Host, e: Event)
    requires |h.log| == 2 && h.log[0].id == 1 && h.log[1].id == 2 && h.abandoned == {} && e.id > 2 && Fits(e, TASKS)
    ensures Enabled(h, TASKS, Record(e))
  {
  }

  /** A subagent's report is history that the store's query does not look for: after a restart the next message
      follows the event before the report, and not the report. */
  lemma SubagentReportIsLost(workspace: nat, a: Event, b: Event, e: Event, run: seq<Action>)
    requires a == Plain(1, 1, AssistantMessage) && b == Plain(2, 1, SubagentUpdated)
    requires e == Plain(3, 2, AssistantMessage) && run == [Record(a)] + [Record(b)] + [Restart]
    ensures GoesAstray(workspace, run, e, ChainEnd(Log(workspace, run), e))
  {
    var x, y := TwoThenRestart(workspace, a, b, run);
    ReportIsNotFound(workspace, x, y, e);
    AstrayFrom(workspace, run, Host(EMPTY_LEDGER, [x, y], {}), e, ChainEnd([x, y], e));
  }

  /** Two tasks of a session, then a restart, then a call of the second one that reads the store and is dropped:
      the ledger knows the session and the second task, and not the first. */
  lemma SecondTaskKnown(x: Event, y: Event, c: Event)
    requires IsRecordOf(x, Plain(1, 1, AssistantMessage)) && IsRecordOf(y, Plain(2, 2, AssistantMessage))
    requires c == Plain(3, 2, AssistantMessage)
    ensures
      var l := RecallSome(EMPTY_LEDGER, [x, y], c, 2);
      && Get(l.sessionHeads, 1) == Some(2) && Get(l.contextHeads, 1) == Some(2)
      && 1 !in l.taskHeads && 3 !in l.taskHeads
  {
    LastOfTwo(x, y, OfSession(1));
    LastOfTwo(x, y, OfSessionTask(1, 2));
    RecalledSessions(EMPTY_LEDGER, [x, y], c, 2, 1);
    RecalledHistory(EMPTY_LEDGER, [x, y], c, 2, 1);
    RecalledTasks(EMPTY_LEDGER, [x, y], c, 2, 1);
    RecalledTasks(EMPTY_LEDGER, [x, y], c, 2, 3);
  }

  /** The run of both lemmas below. */
  lemma SecondTaskReads(workspace: nat, a: Event, b: Event, c: Event, run: seq<Action>) returns (x: Event, y: Event)
    requires a == Plain(1, 1, AssistantMessage) && b == Plain(2, 2, AssistantMessage)
    requires c == Plain(3, 2, AssistantMessage) && run == [Record(a)] + [Record(b)] + [Restart] + [AbandonRecall(c, 2)]
    ensures
      && IsRun(START, workspace, TASKS, run)
      && After(START, workspace, run) == Host(RecallSome(EMPTY_LEDGER, [x, y], c, 2), [x, y], {})
    ensures IsRecordOf(x, a) && IsRecordOf(y, b)
  {
    var front := [Record(a)] + [Record(b)] + [Restart];
    x, y := TwoThenRestart(workspace, a, b, front);
    GoesOn(workspace, front, Host(EMPTY_LEDGER, [x, y], {}), AbandonRecall(c, 2));
  }

  lemma FirstTaskRewinds(workspace: nat, x: Event, y: Event, c: Event, e: Event)
    requires IsRecordOf(x, Plain(1, 1, AssistantMessage)) && IsRecordOf(y, Plain(2, 2, AssistantMessage))
    requires c == Plain(3, 2, AssistantMessage) && e == Plain(4, 1, AssistantMessage)
    ensures
      var h := Host(RecallSome(EMPTY_LEDGER, [x, y], c, 2), [x, y], {});
      Prepared(h, workspace, e).parent == Some(1) && ChainEnd(h.log, e) == Some(2)
  {
    var l := RecallSome(EMPTY_LEDGER, [x, y], c, 2);
    SecondTaskKnown(x, y, c);
    LastOfTwo(x, y, HistoryOf(1));
    LastOfTwo(x, y, OfSessionTask(1, 1));
    RecallContext(l, [x, y], e);
    EnrichedKeeps(Recall(l, [x, y], e), workspace, e);
  }

  /** After a restart, an older task that speaks again once another is known follows its own last message, and
      not the session's. */
  lemma OlderTaskRewindsTheChain(workspace: nat, a: Event, b: Event, c: Event, e: Event, run: seq<Action>)
    requires a == Plain(1, 1, AssistantMessage) && b == Plain(2, 2, AssistantMessage)
    requires c == Plain(3, 2, AssistantMessage) && e == Plain(4, 1, AssistantMessage)
    requires run == [Record(a)] + [Record(b)] + [Restart] + [AbandonRecall(c, 2)]
    ensures GoesAstray(workspace, run, e, ChainEnd(Log(workspace, run), e))
  {
    var x, y := SecondTaskReads(workspace, a, b, c, run);
    FirstTaskRewinds(workspace, x, y, c, e);
    AstrayFrom(workspace, run, Host(RecallSome(EMPTY_LEDGER, [x, y], c, 2), [x, y], {}), e, ChainEnd([x, y], e));
  }

  lemma ReadingSetsBack(workspace: nat, x: Event, y: Event, c: Event, d: Event, e: Event)
    requires IsRecordOf(x, Plain(1, 1, AssistantMessage)) && IsRecordOf(y, Plain(2, 2, AssistantMessage))
    requires c == Plain(3, 2, AssistantMessage) && d == Plain(4, 1, AssistantMessage)
    requires e == Plain(5, 3, OtherType("telemetry"))
    ensures
      var l := RecallSome(RecallSome(EMPTY_LEDGER, [x, y], c, 2), [x, y], d, 1);
      Prepared(Host(l, [x, y], {}), workspace, e).parent == Some(1) && Tail([x, y], e) == Some(2)
  {
    var k := RecallSome(EMPTY_LEDGER, [x, y], c, 2);
    var l := RecallSome(k, [x, y], d, 1);
    SecondTaskKnown(x, y, c);
    LastOfTwo(x, y, OfSession(1));
    LastOfTwo(x, y, OfSessionTask(1, 1));
    LastOfTwo(x, y, OfSessionTask(1, 3));
    LastOfTwo(x, y, OfTask(3));
    RecalledSessions(k, [x, y], d, 1, 1);
    RecalledTasks(k, [x, y], d, 1, 3);
    RecallSession(l, [x, y], e);
    RecalledTasks(l, [x, y], e, ALL_READINGS, 3);
    EnrichedKeeps(Recall(l, [x, y], e), workspace, e);
  }

  lemma FirstTaskReads(workspace: nat, x: Event, y: Event, c: Event, d: Event, front: seq<Action>, run: seq<Action>)
    requires x.id == 1 && y.id == 2 && d == Plain(4, 1, AssistantMessage) && run == front + [AbandonRecall(d, 1)]
    requires IsRun(START, workspace, TASKS, front)
    requires After(START, workspace, front) == Host(RecallSome(EMPTY_LEDGER, [x, y], c, 2), [x, y], {})
    ensures
      var l := RecallSome(RecallSome(EMPTY_LEDGER, [x, y], c, 2), [x, y], d, 1);
      IsRun(START, workspace, TASKS, run) && After(START, workspace, run) == Host(l, [x, y], {})
  {
    GoesOn(workspace, front, Host(RecallSome(EMPTY_LEDGER, [x, y], c, 2), [x, y], {}), AbandonRecall(d, 1));
  }

  /** A call dropped after its first reading sets its session's head back to its own task's last event, and the
      first event of a new task follows that, and not the session's last event. */
  lemma AbandonedReadingSetsBack(
    workspace: nat, a: Event, b: Event, c: Event, d: Event, e: Event, front: seq<Action>, run: seq<Action>)
    requires a == Plain(1, 1, AssistantMessage) && b == Plain(2, 2, AssistantMessage)
    requires c == Plain(3, 2, AssistantMessage) && d == Plain(4, 1, AssistantMessage)
    requires e == Plain(5, 3, OtherType("telemetry"))
    requires front == [Record(a)] + [Record(b)] + [Restart] + [AbandonRecall(c, 2)]
    requires run == front + [AbandonRecall(d, 1)]
    ensures GoesAstray(workspace, run, e, Tail(Log(workspace, run), e))
  {
    var x, y := SecondTaskReads(workspace, a, b, c, front);
    FirstTaskReads(workspace, x, y, c, d, front, run);
    var l := RecallSome(RecallSome(EMPTY_LEDGER, [x, y], c, 2), [x, y], d, 1);
    ReadingSetsBack(workspace, x, y, c, d, e);
    AstrayFrom(workspace, run, Host(l, [x, y], {}), e, Tail([x, y], e));
  }
}
