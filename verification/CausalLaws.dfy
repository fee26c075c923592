/** What the causal record keeps, for every run with failures and restarts. */
module CausalLaws {
  import opened Options
  import opened CausalModel

  // ---------------------------------------------------------------- queries

  ghost function IdOf(x: Option<Event>): (r: Option<nat>) { if x.Some? then Some(x.value.id) else None }

  lemma LastAppend(log: seq<Event>, e: Event, q: Query)
    ensures Last(log + [e], q) == if Matches(q, e) then Some(e) else Last(log, q)
  {
    assert (log + [e])[..|log|] == log;
  }

  lemma {:induction false} LastExists(log: seq<Event>, q: Query)
    ensures Last(log, q).None? <==> forall x <- log :: !Matches(q, x)
  {
    if log != [] {
      var n := |log| - 1;
      LastExists(log[..n], q);
      assert log == log[..n] + [log[n]];
    }
  }

  /** The last event of a wider kind is the last of a narrower one it belongs to. */
  lemma {:induction false} LastNarrows(log: seq<Event>, wide: Query, narrow: Query)
    requires forall x <- log :: Matches(narrow, x) ==> Matches(wide, x)
    requires Last(log, wide).Some? && Matches(narrow, Last(log, wide).value)
    ensures Last(log, narrow) == Last(log, wide)
  {
    var n := |log| - 1;
    assert log[n] in log;
    if !Matches(wide, log[n]) { LastNarrows(log[..n], wide, narrow); }
  }

  ghost predicate Owned(log: seq<Event>, owner: map<nat, nat>) {
    forall x <- log :: x.task.Some? ==> x.task.value in owner && owner[x.task.value] == x.session
  }

  lemma TaskQueriesAgree(log: seq<Event>, owner: map<nat, nat>, session: nat, task: nat)
    requires Owned(log, owner) && task in owner && owner[task] == session
    ensures Last(log, OfSessionTask(session, task)) == Last(log, OfTask(task))
  {
    LastExists(log, OfTask(task));
    LastExists(log, OfSessionTask(session, task));
    if Last(log, OfTask(task)).Some? { LastNarrows(log, OfTask(task), OfSessionTask(session, task)); }
  }

  lemma SessionLastIsTaskLast(log: seq<Event>, owner: map<nat, nat>, session: nat)
    requires Owned(log, owner)
    ensures
      var x := Last(log, OfSession(session));
      x.Some? && x.value.task.Some? ==> Last(log, OfTask(x.value.task.value)) == x
  {
    var x := Last(log, OfSession(session));
    if x.Some? && x.value.task.Some? { LastNarrows(log, OfSession(session), OfTask(x.value.task.value)); }
  }

  // ---------------------------------------------------------------- the ledger is an index of the log

  ghost predicate Earlier(log: seq<Event>, session: nat, id: nat) {
    exists x <- log :: x.session == session && x.id == id
  }

  /** An entry of the ledger names an event that was abandoned, or it is right. */
  ghost predicate Sessions(heads: map<nat, nat>, log: seq<Event>, gone: set<nat>) {
    forall s | s in heads :: heads[s] in gone || Earlier(log, s, heads[s])
  }

  ghost predicate Tasks(heads: map<nat, nat>, contexts: map<nat, Context>, log: seq<Event>, gone: set<nat>) {
    && contexts.Keys == heads.Keys
    && forall t | t in heads :: heads[t] in gone || TaskEntry(log, t, heads[t], contexts[t])
  }

  ghost predicate TaskEntry(log: seq<Event>, t: nat, id: nat, context: Context) {
    var x := Last(log, OfTask(t));
    x.Some? && x.value.id == id && x.value.context == context
  }

  ghost predicate Providers(starts: map<(nat, nat), nat>, log: seq<Event>, gone: set<nat>) {
    forall k | k in starts :: starts[k] in gone || IdOf(Last(log, ProviderStartOf(k.0, k.1))) == Some(starts[k])
  }

  ghost predicate Tools(starts: map<(nat, nat), nat>, log: seq<Event>, gone: set<nat>) {
    forall k | k in starts :: starts[k] in gone || IdOf(Last(log, ToolStartOf(k.0, k.1))) == Some(starts[k])
  }

  ghost predicate Plans(heads: map<nat, nat>, log: seq<Event>, gone: set<nat>) {
    forall t | t in heads :: heads[t] in gone || IdOf(Last(log, PlanOf(t))) == Some(heads[t])
  }

  ghost predicate HistoryId(log: seq<Event>, session: nat, id: nat) {
    exists x <- log :: x.session == session && IsHistory(x) && x.id == id
  }

  ghost predicate Contexts(heads: map<nat, nat>, log: seq<Event>, gone: set<nat>) {
    forall s | s in heads :: heads[s] in gone || HistoryId(log, s, heads[s])
  }

  /** Every entry the ledger has names an abandoned event, or, for a session or its history, an event
      recorded there, or, for a task or a start, the one a scan of the log gives.  Some may be lacking. */
  ghost predicate Index(l: Ledger, log: seq<Event>, gone: set<nat>) {
    && Tasks(l.taskHeads, l.taskContexts, log, gone) && Providers(l.providerStarts, log, gone)
    && Tools(l.toolStarts, log, gone) && Plans(l.verificationHeads, log, gone) && Contexts(l.contextHeads, log, gone)
    && Sessions(l.sessionHeads, log, gone)
  }

  /** A recorded event's context repeats its envelope. */
  ghost predicate Synchronized(log: seq<Event>) {
    forall x <- log :: x.task.Some? ==> SynchronizeEnvelope(x.context, x, None) == x.context
  }

  ghost predicate UniqueIds(log: seq<Event>) {
    forall i, j | 0 <= i < j < |log| :: log[i].id != log[j].id
  }

  ghost predicate LogOk(log: seq<Event>, owner: map<nat, nat>) {
    Owned(log, owner) && Synchronized(log) && UniqueIds(log)
  }

  // ---------------------------------------------------------------- entering an event

  ghost predicate IsTaskLast(log: seq<Event>, x: Event) {
    x in log && (x.task.Some? ==> Last(log, OfTask(x.task.value)) == Some(x))
  }

  lemma PutStarts(l: Ledger, log: seq<Event>, gone: set<nat>, x: Event)
    requires Providers(l.providerStarts, log, gone) && Tools(l.toolStarts, log, gone)
      && Plans(l.verificationHeads, log, gone)
    requires IsTaskLast(log, x)
    ensures Providers(PutProvider(l.providerStarts, x), log, gone)
    ensures Tools(PutTool(l.toolStarts, x), log, gone)
    ensures Plans(PutPlan(l.verificationHeads, x), log, gone)
  {
    if x.task.Some? {
      var t := x.task.value;
      if x.eventType.ProviderStarted? && x.context.requestId.Some? {
        LastNarrows(log, OfTask(t), ProviderStartOf(t, x.context.requestId.value));
      }
      if x.eventType.ToolStarted? && x.context.toolCallId.Some? {
        LastNarrows(log, OfTask(t), ToolStartOf(t, x.context.toolCallId.value));
      }
      if x.eventType.VerificationPlanned? { LastNarrows(log, OfTask(t), PlanOf(t)); }
    }
  }

  lemma PutContexts(heads: map<nat, nat>, log: seq<Event>, gone: set<nat>, x: Event)
    requires Contexts(heads, log, gone) && x in log
    ensures Contexts(PutContext(heads, x), log, gone)
  {
  }

  lemma PutSessions(heads: map<nat, nat>, log: seq<Event>, gone: set<nat>, x: Event)
    requires Sessions(heads, log, gone) && x in log
    ensures Sessions(heads[x.session := x.id], log, gone)
  {
  }

  /** An event that is the last of its task enters the index truly. */
  lemma PutKeeps(l: Ledger, log: seq<Event>, gone: set<nat>, x: Event)
    requires Index(l, log, gone) && IsTaskLast(log, x)
    ensures Index(Put(l, x, x.context), log, gone)
  {
    PutStarts(l, log, gone, x);
    PutContexts(l.contextHeads, log, gone, x);
    PutSessions(l.sessionHeads, log, gone, x);
    PutTasks(l.taskHeads, l.taskContexts, log, gone, x);
  }

  lemma PutTasks(heads: map<nat, nat>, contexts: map<nat, Context>, log: seq<Event>, gone: set<nat>, x: Event)
    requires Tasks(heads, contexts, log, gone) && IsTaskLast(log, x)
    ensures Tasks(PutTask(heads, x.task, x.id), PutTask(contexts, x.task, x.context), log, gone)
  {
  }

  // ---------------------------------------------------------------- reading back

  /** The three readings of `Recall`, one at a time. */
  ghost function TaskFound(l: Ledger, log: seq<Event>, e: Event): (r: Option<Event>) {
    if e.task.Some? && e.task.value !in l.taskHeads then Last(log, OfSessionTask(e.session, e.task.value)) else None
  }

  ghost function SessionFound(l: Ledger, log: seq<Event>, e: Event): (r: Option<Event>) {
    if e.session !in l.sessionHeads then Last(log, OfSession(e.session)) else None
  }

  ghost function HistoryFound(l: Ledger, log: seq<Event>, e: Event): (r: Option<Event>) {
    if e.session !in l.contextHeads then Last(log, ListedOf(e.session)) else None
  }

  ghost function Until(found: Option<Event>, reached: bool): (r: Option<Event>) { if reached then found else None }

  lemma RecallStages(l: Ledger, log: seq<Event>, e: Event, readings: nat)
    ensures
      var r := SeedFound(SeedFound(l, Until(TaskFound(l, log, e), readings >= 1)),
        Until(SessionFound(l, log, e), readings >= 2));
      var latest := Until(HistoryFound(l, log, e), readings >= 3);
      RecallSome(l, log, e, readings) ==
        if latest.Some? then r.(contextHeads := PutContext(r.contextHeads, latest.value)) else r
  {
  }

  ghost predicate Fits(e: Event, owner: map<nat, nat>) {
    e.task.Some? ==> e.task.value in owner && owner[e.task.value] == e.session
  }

  lemma SeedKeeps(l: Ledger, log: seq<Event>, owner: map<nat, nat>, gone: set<nat>, found: Option<Event>)
    requires LogOk(log, owner) && Index(l, log, gone)
    requires found.Some? ==> IsTaskLast(log, found.value)
    ensures Index(SeedFound(l, found), log, gone)
  {
    if found.Some? {
      PutKeeps(l, log, gone, found.value);
      var x := found.value;
      if x.task.None? { assert Seed(l, x) == Put(l, x, x.context); }
    }
  }

  lemma FoundAreLast(l: Ledger, log: seq<Event>, owner: map<nat, nat>, e: Event)
    requires LogOk(log, owner) && Fits(e, owner)
    ensures TaskFound(l, log, e).Some? ==> IsTaskLast(log, TaskFound(l, log, e).value)
    ensures SessionFound(l, log, e).Some? ==> IsTaskLast(log, SessionFound(l, log, e).value)
  {
    if e.task.Some? { TaskQueriesAgree(log, owner, e.session, e.task.value); }
    SessionLastIsTaskLast(log, owner, e.session);
  }

  lemma RecallKeeps(l: Ledger, log: seq<Event>, owner: map<nat, nat>, gone: set<nat>, e: Event, readings: nat)
    requires LogOk(log, owner) && Fits(e, owner) && Index(l, log, gone)
    ensures Index(RecallSome(l, log, e, readings), log, gone)
  {
    RecallStages(l, log, e, readings);
    FoundAreLast(l, log, owner, e);
    var task, last := Until(TaskFound(l, log, e), readings >= 1), Until(SessionFound(l, log, e), readings >= 2);
    var l1 := SeedFound(l, task);
    SeedKeeps(l, log, owner, gone, task);
    SeedKeeps(l1, log, owner, gone, last);
    var latest := Until(HistoryFound(l, log, e), readings >= 3);
    if latest.Some? { PutContexts(SeedFound(l1, last).contextHeads, log, gone, latest.value); }
  }

  lemma SeedSession(l: Ledger, found: Option<Event>, s: nat)
    ensures Get(SeedFound(l, found).sessionHeads, s) ==
      if found.Some? && found.value.session == s then IdOf(found) else Get(l.sessionHeads, s)
  {
  }

  lemma RecallSession(l: Ledger, log: seq<Event>, e: Event)
    ensures Get(Recall(l, log, e).sessionHeads, e.session) ==
      OrElse(IdOf(SessionFound(l, log, e)), OrElse(IdOf(TaskFound(l, log, e)), Get(l.sessionHeads, e.session)))
  {
    RecallStages(l, log, e, ALL_READINGS);
    SeedSession(l, TaskFound(l, log, e), e.session);
    SeedSession(SeedFound(l, TaskFound(l, log, e)), SessionFound(l, log, e), e.session);
  }

  lemma RecallTask(l: Ledger, log: seq<Event>, e: Event, t: nat)
    requires e.task == Some(t)
    ensures t in l.taskHeads || TaskFound(l, log, e).Some? ==> t in Recall(l, log, e).taskHeads
  {
    RecallStages(l, log, e, ALL_READINGS);
  }

  lemma SeedHere(l: Ledger, found: Option<Event>, s: nat)
    requires found.Some? ==> found.value.session == s
    ensures Get(SeedFound(l, found).contextHeads, s) ==
      if found.Some? && IsHistory(found.value) then IdOf(found) else Get(l.contextHeads, s)
  {
  }

  /** The history head after `Recall`: what the query finds if it is history, or else what the
      session's or the task's last event is. */
  lemma RecallContext(l: Ledger, log: seq<Event>, e: Event)
    ensures
      var task, last, latest := TaskFound(l, log, e), SessionFound(l, log, e), HistoryFound(l, log, e);
      Get(Recall(l, log, e).contextHeads, e.session) ==
        if latest.Some? && IsHistory(latest.value) then IdOf(latest)
        else if last.Some? && IsHistory(last.value) then IdOf(last)
        else if task.Some? && IsHistory(task.value) then IdOf(task)
        else Get(l.contextHeads, e.session)
  {
    RecallStages(l, log, e, ALL_READINGS);
    SeedHere(l, TaskFound(l, log, e), e.session);
    SeedHere(SeedFound(l, TaskFound(l, log, e)), SessionFound(l, log, e), e.session);
  }

  // ---------------------------------------------------------------- recording

  /** What an event that is not history follows: its task's last event, or else its session's. */
  ghost function Tail(log: seq<Event>, e: Event): (r: Option<nat>) {
    OrElse(if e.task.Some? then IdOf(Last(log, OfTask(e.task.value))) else None, IdOf(Last(log, OfSession(e.session))))
  }

  ghost function TaskTail(log: seq<Event>, e: Event): (r: Option<nat>) {
    if e.task.Some? then IdOf(Last(log, OfTask(e.task.value))) else None
  }

  ghost predicate Disjoint(log: seq<Event>, gone: set<nat>) { forall x <- log :: x.id !in gone }

  /** What the ledger knows of the event's task, after the readings, was stored. */
  ghost predicate TaskClear(h: Host, e: Event) {
    var heads := Recall(h.ledger, h.log, e).taskHeads;
    e.task.Some? && e.task.value in heads ==> heads[e.task.value] !in h.abandoned
  }

  /** The heads the event's place depends on were stored, and no reading was abandoned that set its
      session's head back. */
  ghost predicate Clear(h: Host, e: Event) {
    && TaskClear(h, e)
    && (TaskTail(h.log, e).None? ==>
          Get(Recall(h.ledger, h.log, e).sessionHeads, e.session) == IdOf(Last(h.log, OfSession(e.session))))
  }

  ghost predicate Inv(h: Host, owner: map<nat, nat>) {
    LogOk(h.log, owner) && Disjoint(h.log, h.abandoned) && Index(h.ledger, h.log, h.abandoned)
  }

  lemma RecalledTaskHead(h: Host, owner: map<nat, nat>, e: Event)
    requires Inv(h, owner) && Fits(e, owner) && e.task.Some?
    ensures
      var head := Get(Recall(h.ledger, h.log, e).taskHeads, e.task.value);
      && (TaskClear(h, e) ==> head == TaskTail(h.log, e))
      && (!TaskClear(h, e) ==> head.Some? && head.value in h.abandoned)
  {
    var t, r := e.task.value, Recall(h.ledger, h.log, e);
    RecallKeeps(h.ledger, h.log, owner, h.abandoned, e, ALL_READINGS);
    RecallTask(h.ledger, h.log, e, t);
    TaskQueriesAgree(h.log, owner, e.session, t);
    if t in r.taskHeads && r.taskHeads[t] !in h.abandoned {
      assert TaskEntry(h.log, t, r.taskHeads[t], r.taskContexts[t]);
    }
  }

  /** Where an event that is not history is attached: at the tail if and only if the heads are clear. */
  lemma TailIffClear(h: Host, owner: map<nat, nat>, e: Event)
    requires Inv(h, owner) && Fits(e, owner)
    ensures
      var r := Recall(h.ledger, h.log, e);
      var place := OrElse(if e.task.Some? then Get(r.taskHeads, e.task.value) else None,
        Get(r.sessionHeads, e.session));
      place == Tail(h.log, e) <==> Clear(h, e)
  {
    if e.task.Some? { RecalledTaskHead(h, owner, e); }
    TailIsStored(h.log, h.abandoned, e);
  }

  lemma TailIsStored(log: seq<Event>, gone: set<nat>, e: Event)
    requires Disjoint(log, gone)
    ensures Tail(log, e).Some? ==> Tail(log, e).value !in gone
  {
  }

  /** Where a new event is attached, whatever the ledger has forgotten. */
  lemma PreviousIs(h: Host, owner: map<nat, nat>, e: Event)
    requires Inv(h, owner) && Fits(e, owner) && Clear(h, e)
    ensures
      var r := Recall(h.ledger, h.log, e);
      Previous(r, e) == OrElse(if IsHistory(e) then Get(r.contextHeads, e.session) else None, Tail(h.log, e))
  {
    TailIffClear(h, owner, e);
  }

  /** The context of a task's last event, or the empty one. */
  ghost function Carried(log: seq<Event>, t: nat): (c: Context) {
    var x := Last(log, OfTask(t));
    if x.Some? then x.value.context else EMPTY_CONTEXT
  }

  ghost function NewContext(log: seq<Event>, workspace: nat, e: Event): (c: Context) {
    if e.task.None? then SynchronizeEnvelope(e.context, e, Some(workspace))
    else UpdateFromPayload(SynchronizeEnvelope(Carried(log, e.task.value), e, Some(workspace)), e.payload)
  }

  /** The context of a new event is a function of the log, whatever the ledger has forgotten, if what it
      knows of the task was stored. */
  lemma ContextIs(h: Host, owner: map<nat, nat>, workspace: nat, e: Event)
    requires Inv(h, owner) && Fits(e, owner) && TaskClear(h, e)
    ensures Prepared(h, workspace, e).context == NewContext(h.log, workspace, e)
  {
    if e.task.Some? {
      var r, t := Recall(h.ledger, h.log, e), e.task.value;
      RecalledTaskHead(h, owner, e);
      RecallKeeps(h.ledger, h.log, owner, h.abandoned, e, ALL_READINGS);
      if t in r.taskHeads { assert TaskEntry(h.log, t, r.taskHeads[t], r.taskContexts[t]); }
    }
  }

  lemma EnrichedKeeps(l: Ledger, workspace: nat, e: Event)
    ensures
      var r := Enriched(l, workspace, e);
      && r.id == e.id && r.session == e.session && r.task == e.task && r.turn == e.turn
      && r.eventType == e.eventType && r.payload == e.payload
      && r.parent == OrElse(e.parent, Previous(l, e))
      && (IsHistory(r) <==> IsHistory(e))
  {
  }

  lemma SynchronizedContext(c: Context, e: Event, workspace: nat)
    requires e.task.Some?
    ensures
      var u := UpdateFromPayload(SynchronizeEnvelope(c, e, Some(workspace)), e.payload);
      SynchronizeEnvelope(u, e, None) == u
  {
  }

  lemma EnrichedSynchronized(l: Ledger, workspace: nat, e: Event)
    requires e.task.Some?
    ensures var r := Enriched(l, workspace, e); SynchronizeEnvelope(r.context, r, None) == r.context
  {
    var before := if e.task.value in l.taskContexts then l.taskContexts[e.task.value] else EMPTY_CONTEXT;
    SynchronizedContext(before, e, workspace);
    EnrichedKeeps(l, workspace, e);
  }

  lemma LogStep(log: seq<Event>, owner: map<nat, nat>, e: Event)
    requires LogOk(log, owner) && Fits(e, owner) && forall x <- log :: x.id != e.id
    requires e.task.Some? ==> SynchronizeEnvelope(e.context, e, None) == e.context
    ensures LogOk(log + [e], owner)
  {
  }

  lemma GrowTasks(l: Ledger, log: seq<Event>, gone: set<nat>, e: Event)
    requires Tasks(l.taskHeads, l.taskContexts, log, gone)
    ensures Tasks(PutTask(l.taskHeads, e.task, e.id), PutTask(l.taskContexts, e.task, e.context), log + [e], gone)
  {
    var heads, contexts := PutTask(l.taskHeads, e.task, e.id), PutTask(l.taskContexts, e.task, e.context);
    forall t | t in heads ensures heads[t] in gone || TaskEntry(log + [e], t, heads[t], contexts[t]) {
      LastAppend(log, e, OfTask(t));
      if Some(t) != e.task { assert l.taskHeads[t] in gone || TaskEntry(log, t, l.taskHeads[t], l.taskContexts[t]); }
    }
  }

  lemma GrowProviders(starts: map<(nat, nat), nat>, log: seq<Event>, gone: set<nat>, e: Event)
    requires Providers(starts, log, gone)
    ensures Providers(PutProvider(starts, e), log + [e], gone)
  {
    forall k | k in PutProvider(starts, e)
      ensures PutProvider(starts, e)[k] in gone
           || IdOf(Last(log + [e], ProviderStartOf(k.0, k.1))) == Some(PutProvider(starts, e)[k])
    {
      LastAppend(log, e, ProviderStartOf(k.0, k.1));
    }
  }

  lemma GrowTools(starts: map<(nat, nat), nat>, log: seq<Event>, gone: set<nat>, e: Event)
    requires Tools(starts, log, gone)
    ensures Tools(PutTool(starts, e), log + [e], gone)
  {
    forall k | k in PutTool(starts, e)
      ensures PutTool(starts, e)[k] in gone
        || IdOf(Last(log + [e], ToolStartOf(k.0, k.1))) == Some(PutTool(starts, e)[k])
    {
      LastAppend(log, e, ToolStartOf(k.0, k.1));
    }
  }

  lemma GrowPlans(heads: map<nat, nat>, log: seq<Event>, gone: set<nat>, e: Event)
    requires Plans(heads, log, gone)
    ensures Plans(PutPlan(heads, e), log + [e], gone)
  {
    forall t | t in PutPlan(heads, e)
      ensures PutPlan(heads, e)[t] in gone || IdOf(Last(log + [e], PlanOf(t))) == Some(PutPlan(heads, e)[t])
    {
      LastAppend(log, e, PlanOf(t));
    }
  }

  lemma GrowContexts(heads: map<nat, nat>, log: seq<Event>, gone: set<nat>, e: Event)
    requires Contexts(heads, log, gone)
    ensures Contexts(PutContext(heads, e), log + [e], gone)
  {
    var r := PutContext(heads, e);
    forall s | s in r ensures r[s] in gone || HistoryId(log + [e], s, r[s]) {
      if s in heads && r[s] == heads[s] && HistoryId(log, s, heads[s]) {
        var x :| x in log && x.session == s && IsHistory(x) && x.id == heads[s];
        assert x in log + [e];
      } else {
        assert e in log + [e];
      }
    }
  }

  lemma GrowSessions(heads: map<nat, nat>, log: seq<Event>, gone: set<nat>, e: Event)
    requires Sessions(heads, log, gone)
    ensures Sessions(heads[e.session := e.id], log + [e], gone)
  {
    var r := heads[e.session := e.id];
    forall s | s in r ensures r[s] in gone || Earlier(log + [e], s, r[s]) {
      if s != e.session && Earlier(log, s, heads[s]) {
        var x :| x in log && x.session == s && x.id == heads[s];
        assert x in log + [e];
      } else {
        assert e in log + [e];
      }
    }
  }

  // ---------------------------------------------------------------- every run

  lemma RecordInv(h: Host, workspace: nat, owner: map<nat, nat>, e: Event)
    requires Inv(h, owner) && Enabled(h, owner, Record(e))
    ensures Inv(Recorded(h, workspace, e), owner)
  {
    var r, e' := Recall(h.ledger, h.log, e), Prepared(h, workspace, e);
    RecallKeeps(h.ledger, h.log, owner, h.abandoned, e, ALL_READINGS);
    EnrichedKeeps(r, workspace, e);
    if e.task.Some? { EnrichedSynchronized(r, workspace, e); }
    LogStep(h.log, owner, e');
    GrowTasks(r, h.log, h.abandoned, e');
    GrowProviders(r.providerStarts, h.log, h.abandoned, e');
    GrowTools(r.toolStarts, h.log, h.abandoned, e');
    GrowPlans(r.verificationHeads, h.log, h.abandoned, e');
    GrowContexts(r.contextHeads, h.log, h.abandoned, e');
    GrowSessions(r.sessionHeads, h.log, h.abandoned, e');
  }

  /** An event that is never stored may enter the ledger if it counts as abandoned. */
  lemma PutAbandoned(l: Ledger, log: seq<Event>, gone: set<nat>, e: Event)
    requires Index(l, log, gone)
    ensures Index(Put(l, e, e.context), log, gone + {e.id})
  {
  }

  lemma AbandonInv(h: Host, workspace: nat, owner: map<nat, nat>, e: Event)
    requires Inv(h, owner) && Enabled(h, owner, AbandonRecord(e))
    ensures Inv(Apply(h, workspace, AbandonRecord(e)), owner)
  {
    RecallKeeps(h.ledger, h.log, owner, h.abandoned, e, ALL_READINGS);
    EnrichedKeeps(Recall(h.ledger, h.log, e), workspace, e);
    PutAbandoned(Recall(h.ledger, h.log, e), h.log, h.abandoned, Prepared(h, workspace, e));
  }

  lemma RefreshInv(h: Host, owner: map<nat, nat>, session: nat)
    requires Inv(h, owner)
    ensures Inv(h.(ledger := Refreshed(h.ledger, h.log, session)), owner)
  {
    var latest := Last(h.log, ListedOf(session));
    if latest.Some? { PutContexts(h.ledger.contextHeads, h.log, h.abandoned, latest.value); }
  }

  lemma StepInv(h: Host, workspace: nat, owner: map<nat, nat>, a: Action)
    requires Inv(h, owner) && Enabled(h, owner, a)
    ensures Inv(Apply(h, workspace, a), owner)
  {
    match a {
      case Record(e) => RecordInv(h, workspace, owner, e);
      case FailToRecord(_) =>
      case AbandonRecall(e, readings) => RecallKeeps(h.ledger, h.log, owner, h.abandoned, e, readings);
      case AbandonRecord(e) => AbandonInv(h, workspace, owner, e);
      case RefreshHistory(s) => RefreshInv(h, owner, s);
      case Restart =>
    }
  }

  lemma {:induction false} RunInv(workspace: nat, owner: map<nat, nat>, run: seq<Action>)
    requires IsRun(START, workspace, owner, run)
    ensures Inv(After(START, workspace, run), owner)
    decreases |run|
  {
    if run != [] {
      var front := run[..|run| - 1];
      RunInv(workspace, owner, front);
      StepInv(After(START, workspace, front), workspace, owner, run[|run| - 1]);
    }
  }

  // ---------------------------------------------------------------- parents and links

  lemma HeadsAreStored(h: Host, owner: map<nat, nat>, e: Event)
    requires Inv(h, owner) && Fits(e, owner)
    ensures
      var parent := Previous(Recall(h.ledger, h.log, e), e);
      && (parent.Some? ==> parent.value in h.abandoned || Earlier(h.log, e.session, parent.value))
      && (parent.None? ==> forall x <- h.log :: x.session != e.session)
  {
    var r := Recall(h.ledger, h.log, e);
    RecallKeeps(h.ledger, h.log, owner, h.abandoned, e, ALL_READINGS);
    RecallSession(h.ledger, h.log, e);
    LastExists(h.log, OfSession(e.session));
    if e.task.Some? && e.task.value in r.taskHeads && r.taskHeads[e.task.value] !in h.abandoned {
      assert TaskEntry(h.log, e.task.value, r.taskHeads[e.task.value], r.taskContexts[e.task.value]);
      assert Last(h.log, OfTask(e.task.value)).value in h.log;
    }
  }

  lemma StoredIsNotAbandoned(log: seq<Event>, gone: set<nat>, session: nat, id: nat)
    requires Disjoint(log, gone) && Earlier(log, session, id)
    ensures id !in gone
  {
  }

  /** The queries that an index of starts answers: a provider request or a tool call of a task, or the
      verification plan of a task. */
  predicate OfStart(q: Query) { q.ProviderStartOf? || q.ToolStartOf? || q.PlanOf? }

  /** The start an event belongs to, by its task and its request or tool call, and how it is linked to it. */
  function Belongs(e: Event): (r: Option<(Query, Relation)>)
    ensures r.Some? ==> OfStart(r.value.0) && !r.value.1.Parent? && e.task == Some(r.value.0.task)
  {
    if e.task.None? then None
    else
      match e.eventType
      case ProviderStreamed | ProviderCompleted | ProviderFailed =>
        if e.context.requestId.Some?
        then Some((ProviderStartOf(e.task.value, e.context.requestId.value), RespondsTo)) else None
      case ToolProgress | ToolCompleted =>
        if e.context.toolCallId.Some?
        then Some((ToolStartOf(e.task.value, e.context.toolCallId.value), RespondsTo)) else None
      case VerificationAssertionCompleted | VerificationCompleted => Some((PlanOf(e.task.value), Verifies))
      case _ => None
  }

  /** The start, in the log, that the event belongs to. */
  ghost function TrueTarget(log: seq<Event>, e: Event): (r: Option<(nat, Relation)>) {
    var b := Belongs(e);
    if b.Some? then With(IdOf(Last(log, b.value.0)), b.value.1) else None
  }

  ghost function With(id: Option<nat>, relation: Relation): (r: Option<(nat, Relation)>) {
    if id.Some? then Some((id.value, relation)) else None
  }

  lemma TargetIsTrue(l: Ledger, log: seq<Event>, gone: set<nat>, e: Event)
    requires Index(l, log, gone)
    ensures Target(l, e).Some? ==> Target(l, e).value.0 in gone || Target(l, e) == TrueTarget(log, e)
  {
  }

  ghost predicate LinksOk(links: seq<Link>, self: nat) {
    && (forall k <- links :: k.eventId != self)
    && (forall i, j | 0 <= i < j < |links| :: links[i] != links[j])
  }

  lemma AddLinkOk(links: seq<Link>, self: nat, target: nat, relation: Relation)
    requires LinksOk(links, self)
    ensures
      var r := AddLink(links, self, target, relation);
      && LinksOk(r, self) && (forall k <- links :: k in r)
      && (target != self ==> Link(target, relation) in r)
      && (forall k <- r :: k in links || k == Link(target, relation))
  {
  }

  // ---------------------------------------------------------------- abandoned records

  function Plain(id: nat, task: nat, t: EventType): (e: Event) {
    Event(id, 1, Some(task), None, t, None, [], EMPTY_CONTEXT,
      Payload(None, None, None, None, None, None, None, NoContent))
  }

  /** The conditions can fail: a call dropped while it appends leaves the ledger naming an event that was
      never stored, and the next event of the session gets it as its parent. */
  lemma AbandonedRecordDangles(workspace: nat, a: Event, b: Event)
    requires a == Plain(1, 1, AssistantMessage) && b == Plain(2, 1, OtherType("telemetry"))
    ensures IsRun(START, workspace, map[1 := 1], [AbandonRecord(a)] + [Record(b)])
    ensures
      var h := After(START, workspace, [AbandonRecord(a)]);
      Prepared(h, workspace, b).parent == Some(1) && !Earlier(h.log, 1, 1) && !Clear(h, b)
  {
    var run := [AbandonRecord(a)];
    assert run[..0] == [] && (run + [Record(b)])[..1] == run;
    assert After(START, workspace, []) == START && IsRun(START, workspace, map[1 := 1], []);
    assert IsRun(START, workspace, map[1 := 1], run);
    var h := After(START, workspace, run);
    EnrichedKeeps(Recall(START.ledger, START.log, a), workspace, a);
    EnrichedKeeps(Recall(h.ledger, h.log, b), workspace, b);
  }

  /** Recording an event clears its session, its task and, for history, its session's history: their heads
      are that event. */
  lemma RecordClears(h: Host, workspace: nat, e: Event)
    ensures
      var l := Recorded(h, workspace, e).ledger;
      && Get(l.sessionHeads, e.session) == Some(e.id)
      && (e.task.Some? ==> Get(l.taskHeads, e.task.value) == Some(e.id))
      && (IsHistory(e) ==> Get(l.contextHeads, e.session) == Some(e.id))
  {
    EnrichedKeeps(Recall(h.ledger, h.log, e), workspace, e);
  }

  /** Tasks are known only in sessions that are. */
  ghost predicate Nested(h: Host, owner: map<nat, nat>) {
    forall t | t in h.ledger.taskHeads :: t in owner && owner[t] in h.ledger.sessionHeads
  }

  ghost predicate OnTask(a: Action, t: nat) { (a.Record? || a.AbandonRecord?) && a.e.task == Some(t) }

  /** The last record on the task since the process started was abandoned. */
  ghost predicate LastAbandoned(run: seq<Action>, t: nat) {
    run != [] &&
    var a := run[|run| - 1];
    if a.Restart? then false
    else if OnTask(a, t) then a.AbandonRecord?
    else LastAbandoned(run[..|run| - 1], t)
  }

  lemma SeedTask(l: Ledger, found: Option<Event>, t: nat)
    ensures Get(SeedFound(l, found).taskHeads, t) ==
      if found.Some? && found.value.task == Some(t) then IdOf(found) else Get(l.taskHeads, t)
  {
  }

  /** Reading the store changes nothing about a task that is known. */
  lemma RecallKnownTask(h: Host, owner: map<nat, nat>, e: Event, readings: nat, t: nat)
    requires Inv(h, owner) && Nested(h, owner)
    ensures
      var before, after := Get(h.ledger.taskHeads, t), Get(RecallSome(h.ledger, h.log, e, readings).taskHeads, t);
      if before.Some? then after == before else after.Some? ==> after.value !in h.abandoned
  {
    var task, last := Until(TaskFound(h.ledger, h.log, e), readings >= 1),
      Until(SessionFound(h.ledger, h.log, e), readings >= 2);
    RecallStages(h.ledger, h.log, e, readings);
    SeedTask(h.ledger, task, t);
    SeedTask(SeedFound(h.ledger, task), last, t);
    if task.Some? { assert task.value in h.log; }
    if last.Some? { assert last.value in h.log; }
  }

  lemma SeedNested(l: Ledger, log: seq<Event>, owner: map<nat, nat>, found: Option<Event>)
    requires Owned(log, owner) && (found.Some? ==> found.value in log)
    requires forall t | t in l.taskHeads :: t in owner && owner[t] in l.sessionHeads
    ensures var r := SeedFound(l, found); forall t | t in r.taskHeads :: t in owner && owner[t] in r.sessionHeads
  {
  }

  lemma NestedStep(h: Host, workspace: nat, owner: map<nat, nat>, a: Action)
    requires Inv(h, owner) && Nested(h, owner) && Enabled(h, owner, a)
    ensures Nested(Apply(h, workspace, a), owner)
  {
    if a.Record? || a.AbandonRecord? || a.AbandonRecall? {
      var readings := if a.AbandonRecall? then a.readings else ALL_READINGS;
      var task := Until(TaskFound(h.ledger, h.log, a.e), readings >= 1);
      var last := Until(SessionFound(h.ledger, h.log, a.e), readings >= 2);
      RecallStages(h.ledger, h.log, a.e, readings);
      SeedNested(h.ledger, h.log, owner, task);
      SeedNested(SeedFound(h.ledger, task), h.log, owner, last);
      EnrichedKeeps(Recall(h.ledger, h.log, a.e), workspace, a.e);
    }
  }

  lemma TaskHeadStep(h: Host, workspace: nat, owner: map<nat, nat>, a: Action, t: nat)
    requires Inv(h, owner) && Nested(h, owner) && Enabled(h, owner, a) && !a.Restart? && !OnTask(a, t)
    ensures
      var before, after := Get(h.ledger.taskHeads, t), Get(Apply(h, workspace, a).ledger.taskHeads, t);
      if before.Some? then after == before else after.Some? ==> after.value !in Apply(h, workspace, a).abandoned
  {
    if a.Record? || a.AbandonRecord? {
      RecallKnownTask(h, owner, a.e, ALL_READINGS, t);
      EnrichedKeeps(Recall(h.ledger, h.log, a.e), workspace, a.e);
      if t !in h.ledger.taskHeads { StoredHead(h, owner, a.e, ALL_READINGS, t); }
    } else if a.AbandonRecall? {
      RecallKnownTask(h, owner, a.e, a.readings, t);
    }
  }

  /** A head that the readings bring is of a stored event. */
  lemma StoredHead(h: Host, owner: map<nat, nat>, e: Event, readings: nat, t: nat)
    requires Inv(h, owner) && t !in h.ledger.taskHeads && forall x <- h.log :: x.id != e.id
    ensures var after := Get(RecallSome(h.ledger, h.log, e, readings).taskHeads, t); after.Some? ==> after.value != e.id
  {
    var task, last := Until(TaskFound(h.ledger, h.log, e), readings >= 1),
      Until(SessionFound(h.ledger, h.log, e), readings >= 2);
    RecallStages(h.ledger, h.log, e, readings);
    SeedTask(h.ledger, task, t);
    SeedTask(SeedFound(h.ledger, task), last, t);
    if task.Some? { assert task.value in h.log; }
    if last.Some? { assert last.value in h.log; }
  }

  /** Over every run, a task's head names an abandoned event if and only if the last record on that task,
      since the process started, was abandoned. */
  lemma {:induction false} AbandonedHeadsAre(workspace: nat, owner: map<nat, nat>, run: seq<Action>, t: nat)
    requires IsRun(START, workspace, owner, run)
    ensures
      var h := After(START, workspace, run);
      && Nested(h, owner)
      && ((t in h.ledger.taskHeads && h.ledger.taskHeads[t] in h.abandoned) <==> LastAbandoned(run, t))
    decreases |run|
  {
    if run != [] {
      var front, a := run[..|run| - 1], run[|run| - 1];
      var h := After(START, workspace, front);
      AbandonedHeadsAre(workspace, owner, front, t);
      RunInv(workspace, owner, front);
      NestedStep(h, workspace, owner, a);
      if !a.Restart? {
        if OnTask(a, t) {
          EnrichedKeeps(Recall(h.ledger, h.log, a.e), workspace, a.e);
        } else {
          TaskHeadStep(h, workspace, owner, a, t);
          if a.AbandonRecord? && t in h.ledger.taskHeads { OldHeadIsOld(h, owner, a, t); }
        }
      }
    }
  }

  /** A known head is not the id of an event that comes only now. */
  lemma OldHeadIsOld(h: Host, owner: map<nat, nat>, a: Action, t: nat)
    requires Inv(h, owner) && Enabled(h, owner, a) && t in h.ledger.taskHeads && a.AbandonRecord?
    ensures h.ledger.taskHeads[t] != a.e.id
  {
    if h.ledger.taskHeads[t] !in h.abandoned {
      assert TaskEntry(h.log, t, h.ledger.taskHeads[t], h.ledger.taskContexts[t]);
      assert Last(h.log, OfTask(t)).value in h.log;
    }
  }

  // ---------------------------------------------------------------- what a context says

  /** A recorded event's context names its own workspace, session, task and turn, its task as the run,
      and, when it gives a step number, that step of that run and turn. */
  lemma ContextNamesItsEvent(l: Ledger, workspace: nat, e: Event)
    ensures
      var c := Enriched(l, workspace, e).context;
      && c.workspaceId == Some(workspace) && c.sessionId == Some(e.session) && c.taskId == e.task && c.turnId == e.turn
      && (e.task.Some? ==> c.runId == e.task)
      && (e.task.Some? && e.turn.Some? && e.payload.stepNo.Some? ==>
            c.stepId == Some((e.task.value, e.turn.value, e.payload.stepNo.value)))
      && (e.task.Some? && e.turn.None? && e.payload.stepNo.Some? ==> c.stepId.None?)
  {
  }

  /** What the task's last event to name it says. */
  ghost function LastNamed<T>(log: seq<Event>, t: nat, f: Payload -> Option<T>): (r: Option<T>) {
    if log == [] then None
    else
      var x := log[|log| - 1];
      if x.task == Some(t) && f(x.payload).Some? then f(x.payload) else LastNamed(log[..|log| - 1], t, f)
  }

  function RequestIn(p: Payload): (r: Option<nat>) { p.requestId }

  function ResponseIn(p: Payload): (r: Option<nat>) { p.responseId }

  function ToolCallIn(p: Payload): (r: Option<nat>) { p.toolCallId }

  function ProviderToolCallIn(p: Payload): (r: Option<string>) { p.providerToolCallId }

  function VerificationIn(p: Payload): (r: Option<nat>) { p.verificationId }

  function CandidateIn(p: Payload): (r: Option<string>) { p.candidateId }

  function StepIn(p: Payload): (r: Option<nat>) { p.stepNo }

  /** A context holds, for each identifier, the one last named in its task. */
  ghost predicate TellsLatest(c: Context, log: seq<Event>, t: nat) {
    && c.requestId == LastNamed(log, t, RequestIn) && c.roundId == c.requestId
    && c.responseId == LastNamed(log, t, ResponseIn)
    && c.toolCallId == LastNamed(log, t, ToolCallIn)
    && c.providerToolCallId == LastNamed(log, t, ProviderToolCallIn)
    && c.verificationId == LastNamed(log, t, VerificationIn)
    && c.candidateId == LastNamed(log, t, CandidateIn)
    && c.stepNo == LastNamed(log, t, StepIn)
  }

  lemma LastNamedAppend<T>(log: seq<Event>, e: Event, t: nat, f: Payload -> Option<T>)
    ensures LastNamed(log + [e], t, f) ==
      if e.task == Some(t) && f(e.payload).Some? then f(e.payload) else LastNamed(log, t, f)
  {
    assert (log + [e])[..|log|] == log;
  }

  lemma LatestStep(log: seq<Event>, e: Event, t: nat, before: Context, workspace: nat)
    requires TellsLatest(before, log, t) && e.task == Some(t)
    ensures TellsLatest(UpdateFromPayload(SynchronizeEnvelope(before, e, Some(workspace)), e.payload), log + [e], t)
  {
    LastNamedAppend(log, e, t, RequestIn);
    LastNamedAppend(log, e, t, ResponseIn);
    LastNamedAppend(log, e, t, ToolCallIn);
    LastNamedAppend(log, e, t, ProviderToolCallIn);
    LastNamedAppend(log, e, t, VerificationIn);
    LastNamedAppend(log, e, t, CandidateIn);
    LastNamedAppend(log, e, t, StepIn);
  }

  lemma ElsewhereStep(log: seq<Event>, e: Event, t: nat, c: Context)
    requires TellsLatest(c, log, t) && e.task != Some(t)
    ensures TellsLatest(c, log + [e], t)
  {
    LastNamedAppend(log, e, t, RequestIn);
    LastNamedAppend(log, e, t, ResponseIn);
    LastNamedAppend(log, e, t, ToolCallIn);
    LastNamedAppend(log, e, t, ProviderToolCallIn);
    LastNamedAppend(log, e, t, VerificationIn);
    LastNamedAppend(log, e, t, CandidateIn);
    LastNamedAppend(log, e, t, StepIn);
  }

  lemma RecordTells(h: Host, workspace: nat, owner: map<nat, nat>, e: Event, t: nat)
    requires Inv(h, owner) && Enabled(h, owner, Record(e)) && TellsLatest(Carried(h.log, t), h.log, t)
    requires e.task == Some(t) ==> TaskClear(h, e)
    ensures
      var log := Recorded(h, workspace, e).log;
      TellsLatest(Carried(log, t), log, t)
  {
    var e' := Prepared(h, workspace, e);
    EnrichedKeeps(Recall(h.ledger, h.log, e), workspace, e);
    LastAppend(h.log, e', OfTask(t));
    if e.task == Some(t) {
      ContextIs(h, owner, workspace, e);
      assert e'.context == UpdateFromPayload(SynchronizeEnvelope(Carried(h.log, t), e', Some(workspace)), e'.payload);
      LatestStep(h.log, e', t, Carried(h.log, t), workspace);
    } else {
      ElsewhereStep(h.log, e', t, Carried(h.log, t));
    }
  }

  /** Whenever the run records on the task, what the ledger knew of it was stored. */
  ghost predicate AlwaysClear(workspace: nat, run: seq<Action>, t: nat) {
    run == []
    || (var front, a := run[..|run| - 1], run[|run| - 1];
        && AlwaysClear(workspace, front, t)
        && (a.Record? && a.e.task == Some(t) ==> TaskClear(After(START, workspace, front), a.e)))
  }

  /** After such a run the context of the task's last event holds, for each identifier, the one that the
      task's events named last. */
  lemma {:induction false} ClearContextsTell(workspace: nat, owner: map<nat, nat>, run: seq<Action>, t: nat)
    requires IsRun(START, workspace, owner, run) && AlwaysClear(workspace, run, t)
    ensures var log := After(START, workspace, run).log; TellsLatest(Carried(log, t), log, t)
    decreases |run|
  {
    if run != [] {
      var front, a := run[..|run| - 1], run[|run| - 1];
      ClearContextsTell(workspace, owner, front, t);
      RunInv(workspace, owner, front);
      if a.Record? { RecordTells(After(START, workspace, front), workspace, owner, a.e, t); }
    }
  }
}
