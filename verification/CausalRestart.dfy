/** What a restart can and cannot change in the causal record. */
module CausalRestart {
  import opened Options
  import opened CausalModel
  import opened CausalLaws

  // ---------------------------------------------------------------- an uninterrupted host

  ghost predicate KnowsHeads(l: Ledger, log: seq<Event>) {
    && (forall s :: Get(l.sessionHeads, s) == IdOf(Last(log, OfSession(s))))
    && (forall t :: Get(l.taskHeads, t) == IdOf(Last(log, OfTask(t))))
  }

  ghost predicate KnowsStarts(l: Ledger, log: seq<Event>) {
    && (forall t: nat, k: nat :: Last(log, ProviderStartOf(t, k)).Some? ==> (t, k) in l.providerStarts)
    && (forall t: nat, k: nat :: Last(log, ToolStartOf(t, k)).Some? ==> (t, k) in l.toolStarts)
    && (forall t :: Last(log, PlanOf(t)).Some? ==> t in l.verificationHeads)
  }

  ghost predicate HistoryIsRight(l: Ledger, log: seq<Event>, s: nat) {
    Get(l.contextHeads, s) == IdOf(Last(log, HistoryOf(s)))
  }

  /** The ledger lacks nothing. */
  ghost predicate Complete(l: Ledger, log: seq<Event>) {
    KnowsHeads(l, log) && KnowsStarts(l, log) && forall s :: HistoryIsRight(l, log, s)
  }

  lemma ListedWithoutHistory(log: seq<Event>, s: nat)
    requires Last(log, HistoryOf(s)).None?
    ensures Last(log, ListedOf(s)).Some? ==> !IsHistory(Last(log, ListedOf(s)).value)
  {
    LastExists(log, HistoryOf(s));
  }

  lemma CompleteRecallsNothing(l: Ledger, log: seq<Event>, owner: map<nat, nat>, e: Event)
    requires LogOk(log, owner) && Fits(e, owner) && Complete(l, log)
    ensures Recall(l, log, e) == l
  {
    if e.task.Some? { TaskQueriesAgree(log, owner, e.session, e.task.value); }
    assert HistoryIsRight(l, log, e.session);
    if e.session !in l.contextHeads { ListedWithoutHistory(log, e.session); }
    assert Get(l.sessionHeads, e.session) == IdOf(Last(log, OfSession(e.session)));
    if e.task.Some? { assert Get(l.taskHeads, e.task.value) == IdOf(Last(log, OfTask(e.task.value))); }
    RecallStages(l, log, e, ALL_READINGS);
  }

  lemma HeadsStep(l: Ledger, log: seq<Event>, e: Event)
    requires KnowsHeads(l, log)
    ensures KnowsHeads(Put(l, e, e.context), log + [e])
  {
    var r := Put(l, e, e.context);
    forall s ensures Get(r.sessionHeads, s) == IdOf(Last(log + [e], OfSession(s))) {
      LastAppend(log, e, OfSession(s));
      assert Get(l.sessionHeads, s) == IdOf(Last(log, OfSession(s)));
    }
    forall t ensures Get(r.taskHeads, t) == IdOf(Last(log + [e], OfTask(t))) {
      LastAppend(log, e, OfTask(t));
      assert Get(l.taskHeads, t) == IdOf(Last(log, OfTask(t)));
    }
  }

  lemma StartsStep(l: Ledger, log: seq<Event>, e: Event)
    requires KnowsStarts(l, log)
    ensures KnowsStarts(Put(l, e, e.context), log + [e])
  {
    forall t: nat, k: nat | Last(log + [e], ProviderStartOf(t, k)).Some?
      ensures (t, k) in Put(l, e, e.context).providerStarts {
      LastAppend(log, e, ProviderStartOf(t, k));
    }
    forall t: nat, k: nat | Last(log + [e], ToolStartOf(t, k)).Some? ensures (t, k) in Put(l, e, e.context).toolStarts {
      LastAppend(log, e, ToolStartOf(t, k));
    }
    forall t | Last(log + [e], PlanOf(t)).Some? ensures t in Put(l, e, e.context).verificationHeads {
      LastAppend(log, e, PlanOf(t));
    }
  }

  lemma HistoryStep(l: Ledger, log: seq<Event>, e: Event, s: nat)
    requires HistoryIsRight(l, log, s)
    ensures HistoryIsRight(Put(l, e, e.context), log + [e], s)
  {
    LastAppend(log, e, HistoryOf(s));
  }

  lemma CompleteStep(l: Ledger, log: seq<Event>, e: Event)
    requires Complete(l, log)
    ensures Complete(Put(l, e, e.context), log + [e])
  {
    HeadsStep(l, log, e);
    StartsStep(l, log, e);
    forall s ensures HistoryIsRight(Put(l, e, e.context), log + [e], s) {
      assert HistoryIsRight(l, log, s);
      HistoryStep(l, log, e, s);
    }
  }

  /** An action that can only make the ledger forget or mistake something. */
  predicate Disturbs(a: Action) { a.Restart? || a.RefreshHistory? || a.AbandonRecord? || a.AbandonRecall? }

  ghost predicate Uninterrupted(run: seq<Action>) { forall a <- run :: !Disturbs(a) }

  lemma {:induction false} UninterruptedIsComplete(workspace: nat, owner: map<nat, nat>, run: seq<Action>)
    requires IsRun(START, workspace, owner, run) && Uninterrupted(run)
    ensures var h := After(START, workspace, run); Complete(h.ledger, h.log) && h.abandoned == {}
    decreases |run|
  {
    if run != [] {
      var front, a := run[..|run| - 1], run[|run| - 1];
      UninterruptedIsComplete(workspace, owner, front);
      RunInv(workspace, owner, front);
      assert a in run;
      var h := After(START, workspace, front);
      if a.Record? {
        CompleteRecallsNothing(h.ledger, h.log, owner, a.e);
        EnrichedKeeps(h.ledger, workspace, a.e);
        CompleteStep(h.ledger, h.log, Prepared(h, workspace, a.e));
      }
    } else {
      assert forall s :: HistoryIsRight(EMPTY_LEDGER, [], s);
    }
  }

  lemma CompleteIsClear(h: Host, owner: map<nat, nat>, e: Event)
    requires LogOk(h.log, owner) && Fits(e, owner) && Complete(h.ledger, h.log) && h.abandoned == {}
    ensures Clear(h, e)
  {
    CompleteRecallsNothing(h.ledger, h.log, owner, e);
    assert Get(h.ledger.sessionHeads, e.session) == IdOf(Last(h.log, OfSession(e.session)));
  }

  /** Without restarts, history readings and abandoned calls the history of a session is one chain: each
      history event follows the history event before it, and the first one its task's or session's last
      event. */
  lemma HistoryIsAChain(workspace: nat, owner: map<nat, nat>, run: seq<Action>, e: Event)
    requires IsRun(START, workspace, owner, run + [Record(e)]) && Uninterrupted(run)
    requires IsHistory(e) && e.parent.None?
    ensures
      var h := After(START, workspace, run);
      Prepared(h, workspace, e).parent == OrElse(IdOf(Last(h.log, HistoryOf(e.session))), Tail(h.log, e))
  {
    assert (run + [Record(e)])[..|run|] == run;
    var h := After(START, workspace, run);
    RunInv(workspace, owner, run);
    UninterruptedIsComplete(workspace, owner, run);
    CompleteRecallsNothing(h.ledger, h.log, owner, e);
    CompleteIsClear(h, owner, e);
    PreviousIs(h, owner, e);
    EnrichedKeeps(h.ledger, workspace, e);
    assert HistoryIsRight(h.ledger, h.log, e.session);
  }

  // ---------------------------------------------------------------- what a restart leaves as it was

  /** Two records of one event that may differ in lifecycle links, and, if it is history, in its parent. */
  ghost predicate Alike(a: Event, b: Event) {
    && a.(parent := None, links := []) == b.(parent := None, links := [])
    && (!IsHistory(a) ==> a.parent == b.parent && forall k <- a.links :: k in b.links)
  }

  ghost predicate LogsAlike(a: seq<Event>, b: seq<Event>) {
    |a| == |b| && forall i | 0 <= i < |a| :: Alike(a[i], b[i])
  }

  lemma AlikeMatches(a: Event, b: Event, q: Query)
    requires Alike(a, b)
    ensures Matches(q, a) <==> Matches(q, b)
  {
    assert a.id == a.(parent := None, links := []).id && a.context == a.(parent := None, links := []).context;
    assert b == a.(parent := b.parent, links := b.links);
  }

  lemma {:induction false} LastAlike(a: seq<Event>, b: seq<Event>, q: Query)
    requires LogsAlike(a, b)
    ensures Last(a, q).Some? <==> Last(b, q).Some?
    ensures Last(a, q).Some? ==> Alike(Last(a, q).value, Last(b, q).value)
  {
    if a != [] {
      var n := |a| - 1;
      AlikeMatches(a[n], b[n], q);
      LastAlike(a[..n], b[..n], q);
    }
  }

  lemma LastIdAlike(a: seq<Event>, b: seq<Event>, q: Query)
    requires LogsAlike(a, b)
    ensures IdOf(Last(a, q)) == IdOf(Last(b, q))
  {
    LastAlike(a, b, q);
    if Last(a, q).Some? {
      var x, y := Last(a, q).value, Last(b, q).value;
      assert x.id == x.(parent := None, links := []).id;
    }
  }

  lemma TailAlike(a: seq<Event>, b: seq<Event>, e: Event)
    requires LogsAlike(a, b)
    ensures Tail(a, e) == Tail(b, e)
  {
    if e.task.Some? { LastIdAlike(a, b, OfTask(e.task.value)); }
    LastIdAlike(a, b, OfSession(e.session));
  }

  lemma ContextAlike(a: seq<Event>, b: seq<Event>, workspace: nat, e: Event)
    requires LogsAlike(a, b)
    ensures NewContext(a, workspace, e) == NewContext(b, workspace, e)
  {
    if e.task.Some? { LastAlike(a, b, OfTask(e.task.value)); }
  }

  lemma TargetAlike(a: seq<Event>, b: seq<Event>, e: Event)
    requires LogsAlike(a, b)
    ensures TrueTarget(a, e) == TrueTarget(b, e)
  {
    if Belongs(e).Some? { LastIdAlike(a, b, Belongs(e).value.0); }
  }

  lemma CompleteHasTarget(l: Ledger, log: seq<Event>, e: Event, q: Query)
    requires KnowsStarts(l, log) && Belongs(e).Some? && q == Belongs(e).value.0 && Last(log, q).Some?
    ensures Target(l, e).Some?
  {
    match q {
      case ProviderStartOf(t, r) => assert (t, r) in l.providerStarts;
      case ToolStartOf(t, c) => assert (t, c) in l.toolStarts;
      case PlanOf(t) => assert t in l.verificationHeads;
      case _ =>
    }
  }

  lemma CompleteTarget(l: Ledger, log: seq<Event>, e: Event)
    requires Index(l, log, {}) && Complete(l, log)
    ensures Target(l, e) == TrueTarget(log, e)
  {
    TargetIsTrue(l, log, {}, e);
    if Belongs(e).Some? && Last(log, Belongs(e).value.0).Some? {
      CompleteHasTarget(l, log, e, Belongs(e).value.0);
    }
  }

  /** The event as it is recorded, given its parent, its context and its lifecycle target. */
  ghost function Made(e: Event, parent: Option<nat>, context: Context, target: Option<(nat, Relation)>): (r: Event) {
    var links := if parent.Some? then AddLink(e.links, e.id, parent.value, Parent) else e.links;
    e.(parent := parent, context := context,
       links := if target.Some? then AddLink(links, e.id, target.value.0, target.value.1) else links)
  }

  ghost function Shape(e: Event, context: Context): (r: Event) { e.(context := context) }

  lemma TargetIgnoresLinks(l: Ledger, a: Event, b: Event)
    requires a.task == b.task && a.eventType == b.eventType && a.context == b.context
    ensures Target(l, a) == Target(l, b)
  {
  }

  lemma EnrichedIsMade(l: Ledger, workspace: nat, e: Event)
    ensures
      var r := Enriched(l, workspace, e);
      r == Made(e, OrElse(e.parent, Previous(l, e)), r.context, Target(l, Shape(e, r.context)))
  {
    var b := WithContext(l, workspace, WithParent(l, e));
    TargetIgnoresLinks(l, b, Shape(e, b.context));
  }

  lemma MadeAlike(e: Event, p: Option<nat>, q: Option<nat>, c: Context, s: Option<(nat, Relation)>,
    t: Option<(nat, Relation)>)
    requires !IsHistory(e) ==> p == q
    requires s.Some? ==> s == t
    ensures Alike(Made(e, p, c, s), Made(e, q, c, t))
  {
  }

  /** The heads and the start that the event's place and links depend on were stored. */
  ghost predicate AllClear(h: Host, workspace: nat, e: Event) {
    && Clear(h, e)
    && var target := Target(Recall(h.ledger, h.log, e), Shape(e, Prepared(h, workspace, e).context));
       target.Some? ==> target.value.0 !in h.abandoned
  }

  /** One event, recorded by a host that may have forgotten things and by one that has not. */
  lemma RecordsAlike(h: Host, g: Host, workspace: nat, owner: map<nat, nat>, e: Event)
    requires Inv(h, owner) && AllClear(h, workspace, e) && Fits(e, owner)
    requires Inv(g, owner) && Complete(g.ledger, g.log) && g.abandoned == {} && LogsAlike(h.log, g.log)
    ensures Alike(Prepared(h, workspace, e), Prepared(g, workspace, e))
  {
    var hl, gl := Recall(h.ledger, h.log, e), Recall(g.ledger, g.log, e);
    CompleteRecallsNothing(g.ledger, g.log, owner, e);
    CompleteIsClear(g, owner, e);
    ContextIs(h, owner, workspace, e);
    ContextIs(g, owner, workspace, e);
    ContextAlike(h.log, g.log, workspace, e);
    PreviousIs(h, owner, e);
    PreviousIs(g, owner, e);
    TailAlike(h.log, g.log, e);
    EnrichedIsMade(hl, workspace, e);
    EnrichedIsMade(gl, workspace, e);
    var shape := Shape(e, NewContext(h.log, workspace, e));
    RecallKeeps(h.ledger, h.log, owner, h.abandoned, e, ALL_READINGS);
    TargetIsTrue(hl, h.log, h.abandoned, shape);
    CompleteTarget(gl, g.log, shape);
    TargetAlike(h.log, g.log, shape);
    MadeAlike(e, OrElse(e.parent, Previous(hl, e)), OrElse(e.parent, Previous(gl, e)), shape.context,
              Target(hl, shape), Target(gl, shape));
  }

  /** The same run on a host that never restarts, never reads its history back and abandons nothing. */
  function Strip(run: seq<Action>): (r: seq<Action>)
    ensures forall a <- r :: !Disturbs(a)
  {
    if run == [] then []
    else Strip(run[..|run| - 1]) + if Disturbs(run[|run| - 1]) then [] else [run[|run| - 1]]
  }

  lemma IdsAlike(a: seq<Event>, b: seq<Event>)
    requires LogsAlike(a, b)
    ensures forall x <- b :: exists y <- a :: y.id == x.id
  {
    forall x | x in b ensures exists y <- a :: y.id == x.id {
      var i :| 0 <= i < |b| && b[i] == x;
      assert Alike(a[i], b[i]);
      assert a[i].id == a[i].(parent := None, links := []).id;
      assert a[i] in a;
    }
  }

  lemma StripStep(h: Host, g: Host, workspace: nat, owner: map<nat, nat>, e: Event)
    requires Inv(h, owner) && AllClear(h, workspace, e) && Enabled(h, owner, Record(e))
    requires Inv(g, owner) && Complete(g.ledger, g.log) && g.abandoned == {} && LogsAlike(h.log, g.log)
    ensures Enabled(g, owner, Record(e)) && LogsAlike(Recorded(h, workspace, e).log, Recorded(g, workspace, e).log)
  {
    FreshAlike(h, g, owner, e);
    RecordsAlike(h, g, workspace, owner, e);
    AppendAlike(h.log, g.log, Prepared(h, workspace, e), Prepared(g, workspace, e));
  }

  lemma FreshAlike(h: Host, g: Host, owner: map<nat, nat>, e: Event)
    requires Enabled(h, owner, Record(e)) && g.abandoned == {} && LogsAlike(h.log, g.log)
    ensures Enabled(g, owner, Record(e))
  {
    IdsAlike(h.log, g.log);
  }

  lemma AppendAlike(a: seq<Event>, b: seq<Event>, x: Event, y: Event)
    requires LogsAlike(a, b) && Alike(x, y)
    ensures LogsAlike(a + [x], b + [y])
  {
  }

  /** Whenever the run records an event, the heads it depends on were stored. */
  ghost predicate RecordsClear(workspace: nat, run: seq<Action>) {
    run == []
    || (var front, a := run[..|run| - 1], run[|run| - 1];
        && RecordsClear(workspace, front)
        && (a.Record? ==> AllClear(After(START, workspace, front), workspace, a.e)))
  }

  /** Such a run records what the same run records on a host that was never disturbed, but for the parents
      of history events and missing links to starts. */
  lemma {:induction false} ClearRecordsAlike(workspace: nat, owner: map<nat, nat>, run: seq<Action>)
    requires IsRun(START, workspace, owner, run) && RecordsClear(workspace, run)
    ensures IsRun(START, workspace, owner, Strip(run))
    ensures LogsAlike(After(START, workspace, run).log, After(START, workspace, Strip(run)).log)
    decreases |run|
  {
    if run != [] {
      var front, a := run[..|run| - 1], run[|run| - 1];
      assert run == front + [a];
      ClearRecordsAlike(workspace, owner, front);
      StrippedStep(workspace, owner, front, a);
    }
  }

  lemma StripExtends(run: seq<Action>, a: Action)
    ensures Strip(run + [a]) == if Disturbs(a) then Strip(run) else Strip(run) + [a]
  {
    assert (run + [a])[..|run|] == run;
  }

  lemma StrippedStep(workspace: nat, owner: map<nat, nat>, run: seq<Action>, a: Action)
    requires IsRun(START, workspace, owner, run) && IsRun(START, workspace, owner, Strip(run))
    requires LogsAlike(After(START, workspace, run).log, After(START, workspace, Strip(run)).log)
    requires Enabled(After(START, workspace, run), owner, a)
    requires a.Record? ==> AllClear(After(START, workspace, run), workspace, a.e)
    ensures IsRun(START, workspace, owner, Strip(run + [a]))
    ensures LogsAlike(After(START, workspace, run + [a]).log, After(START, workspace, Strip(run + [a])).log)
  {
    var bare := Strip(run);
    RunExtends(workspace, owner, run, a);
    StripExtends(run, a);
    if Disturbs(a) {
      DisturbanceIsNotRecorded(After(START, workspace, run), workspace, a);
    } else {
      RunsAlike(workspace, owner, run, bare, a);
      RunExtends(workspace, owner, bare, a);
    }
  }

  lemma DisturbanceIsNotRecorded(h: Host, workspace: nat, a: Action)
    requires Disturbs(a)
    ensures Apply(h, workspace, a).log == h.log
  {
  }

  lemma RunExtends(workspace: nat, owner: map<nat, nat>, run: seq<Action>, a: Action)
    ensures After(START, workspace, run + [a]) == Apply(After(START, workspace, run), workspace, a)
    ensures IsRun(START, workspace, owner, run + [a]) <==>
      IsRun(START, workspace, owner, run) && Enabled(After(START, workspace, run), owner, a)
  {
    assert (run + [a])[..|run|] == run;
  }

  lemma RunsAlike(workspace: nat, owner: map<nat, nat>, run: seq<Action>, bare: seq<Action>, a: Action)
    requires IsRun(START, workspace, owner, run) && IsRun(START, workspace, owner, bare) && Uninterrupted(bare)
    requires LogsAlike(After(START, workspace, run).log, After(START, workspace, bare).log)
    requires Enabled(After(START, workspace, run), owner, a) && !Disturbs(a)
    requires a.Record? ==> AllClear(After(START, workspace, run), workspace, a.e)
    ensures
      var h, g := After(START, workspace, run), After(START, workspace, bare);
      Enabled(g, owner, a) && LogsAlike(Apply(h, workspace, a).log, Apply(g, workspace, a).log)
  {
    RunInv(workspace, owner, run);
    RunInv(workspace, owner, bare);
    UninterruptedIsComplete(workspace, owner, bare);
    if a.Record? { StripStep(After(START, workspace, run), After(START, workspace, bare), workspace, owner, a.e); }
  }

  // ---------------------------------------------------------------- what happens to the chain of history

  /** What the store can tell a host that knows nothing of the session: its query finds the last
      history event; or the query finds nothing readable, and that event is the last of all in the
      session or in the new event's task. */
  ghost predicate Recoverable(log: seq<Event>, e: Event) {
    var last := Last(log, HistoryOf(e.session));
    var found := Last(log, ListedOf(e.session));
    || last.None?
    || found == last
    || ((found.None? || !IsHistory(found.value))
        && (Last(log, OfSession(e.session)) == last || (e.task.Some? && Last(log, OfTask(e.task.value)) == last)))
  }

  lemma {:induction false} SameId(log: seq<Event>, x: Event, y: Event)
    requires UniqueIds(log) && x in log && y in log && x.id == y.id
    ensures x == y
  {
    var i :| 0 <= i < |log| && log[i] == x;
    var j :| 0 <= j < |log| && log[j] == y;
    assert i == j;
  }

  lemma IdDecides(log: seq<Event>, x: Option<Event>, y: Option<Event>)
    requires UniqueIds(log) && (x.Some? ==> x.value in log) && (y.Some? ==> y.value in log)
    ensures IdOf(x) == IdOf(y) <==> x == y
  {
    if x.Some? && y.Some? && IdOf(x) == IdOf(y) { SameId(log, x.value, y.value); }
  }

  lemma SessionLastIsHistory(log: seq<Event>, s: nat)
    ensures var x := Last(log, OfSession(s)); x.Some? && IsHistory(x.value) ==> Last(log, HistoryOf(s)) == x
  {
    var x := Last(log, OfSession(s));
    if x.Some? && IsHistory(x.value) { LastNarrows(log, OfSession(s), HistoryOf(s)); }
  }

  /** The first event of a session after a restart joins the chain of history exactly when the last
      history event is recoverable from the store. */
  lemma ChainAfterRestart(log: seq<Event>, owner: map<nat, nat>, e: Event)
    requires LogOk(log, owner) && Fits(e, owner)
    ensures HistoryIsRight(Recall(EMPTY_LEDGER, log, e), log, e.session) <==> Recoverable(log, e)
  {
    var last, found := Last(log, HistoryOf(e.session)), Last(log, ListedOf(e.session));
    var whole := Last(log, OfSession(e.session));
    RecallContext(EMPTY_LEDGER, log, e);
    SessionLastIsHistory(log, e.session);
    LastExists(log, HistoryOf(e.session));
    IdDecides(log, found, last);
    if e.task.Some? {
      TaskQueriesAgree(log, owner, e.session, e.task.value);
      IdDecides(log, Last(log, OfTask(e.task.value)), last);
    }
  }

  /** The last history event is the tail only if the readings find it. */
  lemma TailIsRecalled(log: seq<Event>, owner: map<nat, nat>, e: Event)
    requires LogOk(log, owner) && Fits(e, owner) && Last(log, HistoryOf(e.session)).Some?
    requires Tail(log, e) == IdOf(Last(log, HistoryOf(e.session)))
    ensures Get(Recall(EMPTY_LEDGER, log, e).contextHeads, e.session).Some?
  {
    var last := Last(log, HistoryOf(e.session));
    RecallContext(EMPTY_LEDGER, log, e);
    if TaskTail(log, e).Some? {
      TaskQueriesAgree(log, owner, e.session, e.task.value);
      IdDecides(log, Last(log, OfTask(e.task.value)), last);
    } else {
      IdDecides(log, Last(log, OfSession(e.session)), last);
    }
  }

  /** A wrong or missing history head always shows in the parent. */
  lemma HeadDecidesParent(log: seq<Event>, owner: map<nat, nat>, e: Event)
    requires LogOk(log, owner) && Fits(e, owner)
    ensures
      var head, last := Get(Recall(EMPTY_LEDGER, log, e).contextHeads, e.session),
        IdOf(Last(log, HistoryOf(e.session)));
      OrElse(head, Tail(log, e)) == OrElse(last, Tail(log, e)) <==> head == last
  {
    var last := Last(log, HistoryOf(e.session));
    if last.None? {
      LastExists(log, HistoryOf(e.session));
      RecallContext(EMPTY_LEDGER, log, e);
    } else if Tail(log, e) == IdOf(last) {
      TailIsRecalled(log, owner, e);
    }
  }

  /** A host that knows nothing finds what it needs, whatever was abandoned before the restart. */
  lemma ColdIsClear(h: Host, owner: map<nat, nat>, e: Event)
    requires Inv(h, owner) && Fits(e, owner) && h.ledger == EMPTY_LEDGER
    ensures Clear(h, e)
  {
    RecallSession(h.ledger, h.log, e);
    if e.task.Some? {
      TaskQueriesAgree(h.log, owner, e.session, e.task.value);
      RecallKnownTask(h, owner, e, ALL_READINGS, e.task.value);
    }
  }

  /** Restart equivalence, with its exact condition: a host that has forgotten everything gives the next
      event the context that one which has seen the whole log gives it; and the same parent if and only
      if the parent was given, the event is not history, or the last history event is recoverable. */
  lemma RestartEquivalence(workspace: nat, owner: map<nat, nat>, run: seq<Action>, e: Event)
    requires IsRun(START, workspace, owner, run + [Record(e)]) && Uninterrupted(run)
    ensures
      var warm := After(START, workspace, run);
      var a, b := Prepared(warm, workspace, e), Prepared(warm.(ledger := EMPTY_LEDGER), workspace, e);
      && b.context == a.context
      && (b.parent == a.parent <==> e.parent.Some? || !IsHistory(e) || Recoverable(warm.log, e))
  {
    assert (run + [Record(e)])[..|run|] == run;
    var warm := After(START, workspace, run);
    RunInv(workspace, owner, run);
    UninterruptedIsComplete(workspace, owner, run);
    var cold := warm.(ledger := EMPTY_LEDGER);
    CompleteIsClear(warm, owner, e);
    ColdIsClear(cold, owner, e);
    ContextIs(warm, owner, workspace, e);
    ContextIs(cold, owner, workspace, e);
    PreviousIs(cold, owner, e);
    PreviousIs(warm, owner, e);
    CompleteRecallsNothing(warm.ledger, warm.log, owner, e);
    assert HistoryIsRight(warm.ledger, warm.log, e.session);
    EnrichedKeeps(warm.ledger, workspace, e);
    EnrichedKeeps(Recall(EMPTY_LEDGER, warm.log, e), workspace, e);
    HeadDecidesParent(warm.log, owner, e);
    ChainAfterRestart(warm.log, owner, e);
  }

  /** While a host knows the session, the chain survives the next event exactly when the event's task
      is known too, or the task's own last event is no older history event. */
  lemma ChainWithinSession(l: Ledger, log: seq<Event>, owner: map<nat, nat>, e: Event)
    requires LogOk(log, owner) && Fits(e, owner) && HistoryIsRight(l, log, e.session) && e.session in l.sessionHeads
    ensures HistoryIsRight(Recall(l, log, e), log, e.session) <==>
      (e.task.Some? && e.task.value !in l.taskHeads ==>
         var x := Last(log, OfTask(e.task.value));
         x.None? || !IsHistory(x.value) || x == Last(log, HistoryOf(e.session)))
  {
    var last := Last(log, HistoryOf(e.session));
    RecallContext(l, log, e);
    LastExists(log, HistoryOf(e.session));
    if e.session !in l.contextHeads { ListedWithoutHistory(log, e.session); }
    if e.task.Some? {
      TaskQueriesAgree(log, owner, e.session, e.task.value);
      IdDecides(log, Last(log, OfTask(e.task.value)), last);
    }
  }

  /** Reading the history keeps the chain exactly when the store's query finds its last event, or
      nothing readable. */
  lemma ChainAfterRefresh(l: Ledger, log: seq<Event>, session: nat)
    requires UniqueIds(log) && HistoryIsRight(l, log, session)
    ensures
      var found := Last(log, ListedOf(session));
      HistoryIsRight(Refreshed(l, log, session), log, session) <==>
        found.None? || !IsHistory(found.value) || found == Last(log, HistoryOf(session))
  {
    IdDecides(log, Last(log, ListedOf(session)), Last(log, HistoryOf(session)));
  }

  /** An abandoned record keeps the chain exactly when the event is not history and its readings kept it. */
  lemma ChainAfterAbandon(h: Host, workspace: nat, owner: map<nat, nat>, e: Event)
    requires Inv(h, owner) && Enabled(h, owner, AbandonRecord(e))
    ensures HistoryIsRight(Apply(h, workspace, AbandonRecord(e)).ledger, h.log, e.session) <==>
      !IsHistory(e) && HistoryIsRight(Recall(h.ledger, h.log, e), h.log, e.session)
  {
    EnrichedKeeps(Recall(h.ledger, h.log, e), workspace, e);
  }

  /** Readings that an abandoned call made keep the chain exactly when they do not bring an older history
      event of its task, or bring the session's last event after it, and that is history. */
  lemma ChainAfterReadings(l: Ledger, log: seq<Event>, owner: map<nat, nat>, e: Event, n: nat)
    requires LogOk(log, owner) && Fits(e, owner) && HistoryIsRight(l, log, e.session)
    ensures HistoryIsRight(RecallSome(l, log, e, n), log, e.session) <==>
      (n >= 1 && e.task.Some? && e.task.value !in l.taskHeads ==>
         var x, last := Last(log, OfTask(e.task.value)), Last(log, OfSession(e.session));
         || x.None? || !IsHistory(x.value) || x == Last(log, HistoryOf(e.session))
         || (n >= 2 && e.session !in l.sessionHeads && last.Some? && IsHistory(last.value)))
  {
    var last := Last(log, HistoryOf(e.session));
    var task, whole := Until(TaskFound(l, log, e), n >= 1), Until(SessionFound(l, log, e), n >= 2);
    RecallStages(l, log, e, n);
    SeedHere(l, task, e.session);
    SeedHere(SeedFound(l, task), whole, e.session);
    LastExists(log, HistoryOf(e.session));
    SessionLastIsHistory(log, e.session);
    if e.session !in l.contextHeads { ListedWithoutHistory(log, e.session); }
    if e.task.Some? {
      TaskQueriesAgree(log, owner, e.session, e.task.value);
      IdDecides(log, Last(log, OfTask(e.task.value)), last);
    }
  }
}
