/** Which action of a run entered each start in the ledger, and the links that follow from that. */
module CausalStarts {
  import opened Options
  import opened CausalModel
  import opened CausalLaws
  import opened CausalRestart
  import opened CausalOrigins
  import opened CausalParents

  // ---------------------------------------------------------------- the three indexes

  ghost function Indexed(l: Ledger, q: Query): (id: Option<nat>)
    requires OfStart(q)
  {
    match q
    case ProviderStartOf(t, r) => Get(l.providerStarts, (t, r))
    case ToolStartOf(t, c) => Get(l.toolStarts, (t, c))
    case PlanOf(t) => Get(l.verificationHeads, t)
  }

  lemma TargetIsIndexed(l: Ledger, e: Event)
    ensures
      var b := Belongs(e);
      Target(l, e) == if b.Some? then With(Indexed(l, b.value.0), b.value.1) else None
  {
  }

  lemma PutIndexes(l: Ledger, x: Event, context: Context, q: Query)
    requires OfStart(q)
    ensures Indexed(Put(l, x, context), q) == if Matches(q, x) then Some(x.id) else Indexed(l, q)
  {
  }

  lemma SeedIndexes(l: Ledger, found: Option<Event>, q: Query)
    requires OfStart(q)
    ensures
      Indexed(SeedFound(l, found), q) ==
      if found.Some? && Matches(q, found.value) then IdOf(found) else Indexed(l, q)
  {
    if found.Some? { PutIndexes(l, found.value, SynchronizeEnvelope(found.value.context, found.value, None), q); }
  }

  lemma RecallIndexes(l: Ledger, log: seq<Event>, e: Event, n: nat, q: Query)
    requires OfStart(q)
    ensures
      var task, last := Until(TaskFound(l, log, e), n >= 1), Until(SessionFound(l, log, e), n >= 2);
      Indexed(RecallSome(l, log, e, n), q) ==
      if last.Some? && Matches(q, last.value) then IdOf(last)
      else if task.Some? && Matches(q, task.value) then IdOf(task)
      else Indexed(l, q)
  {
    var task, last := Until(TaskFound(l, log, e), n >= 1), Until(SessionFound(l, log, e), n >= 2);
    RecallStages(l, log, e, n);
    SeedIndexes(l, task, q);
    SeedIndexes(SeedFound(l, task), last, q);
  }

  lemma NotedIndexes(h: Host, workspace: nat, e: Event, q: Query)
    requires OfStart(q)
    ensures
      var x := Prepared(h, workspace, e);
      Indexed(Noted(h, workspace, e), q) ==
      if Matches(q, x) then Some(e.id) else Indexed(Recall(h.ledger, h.log, e), q)
  {
    EnrichedKeeps(Recall(h.ledger, h.log, e), workspace, e);
    PutIndexes(Recall(h.ledger, h.log, e), Prepared(h, workspace, e), Prepared(h, workspace, e).context, q);
  }

  // ---------------------------------------------------------------- which action entered a start

  /** The last action since the process started that entered a start of that task and id: none, its record,
      an abandoned record, or a reading of the store; and the start, completed as it was entered. */
  datatype Entry = NotEntered | ByRecord(start: Event) | ByAbandoned(start: Event) | ByReading(start: Event)

  function StartIn(o: Entry): (id: Option<nat>) { if o.NotEntered? then None else Some(o.start.id) }

  ghost function StartOrigin(workspace: nat, run: seq<Action>, q: Query): (o: Entry)
    decreases |run|, 0
  {
    if run == [] then NotEntered else StartAfter(workspace, run[..|run| - 1], run[|run| - 1], q)
  }

  ghost function StartAfter(workspace: nat, run: seq<Action>, a: Action, q: Query): (o: Entry)
    decreases |run|, 2
  {
    match a
    case Restart => NotEntered
    case Record(e) =>
      var x := Prepared(After(START, workspace, run), workspace, e);
      if Matches(q, x) then ByRecord(x) else StartReadings(workspace, run, e, ALL_READINGS, q)
    case AbandonRecord(e) =>
      var x := Prepared(After(START, workspace, run), workspace, e);
      if Matches(q, x) then ByAbandoned(x) else StartReadings(workspace, run, e, ALL_READINGS, q)
    case AbandonRecall(e, n) => StartReadings(workspace, run, e, n, q)
    case _ => StartOrigin(workspace, run, q)
  }

  /** What the readings of a call enter: its session's last event, or else its task's, if that is the start. */
  ghost function StartReadings(workspace: nat, run: seq<Action>, e: Event, n: nat, q: Query): (o: Entry)
    decreases |run|, 1
  {
    var x, y := SessionRead(workspace, run, e, n), TaskRead(workspace, run, e, n);
    if x.Some? && Matches(q, x.value) then ByReading(x.value)
    else if y.Some? && Matches(q, y.value) then ByReading(y.value)
    else StartOrigin(workspace, run, q)
  }

  lemma ReadingsIndex(workspace: nat, owner: map<nat, nat>, run: seq<Action>, e: Event, n: nat, q: Query)
    requires IsRun(START, workspace, owner, run) && Fits(e, owner) && OfStart(q)
    requires Indexed(After(START, workspace, run).ledger, q) == StartIn(StartOrigin(workspace, run, q))
    ensures
      var h := After(START, workspace, run);
      Indexed(RecallSome(h.ledger, h.log, e, n), q) == StartIn(StartReadings(workspace, run, e, n, q))
  {
    var h := After(START, workspace, run);
    HeadsComeFromActions(workspace, owner, run);
    ReadingsAre(workspace, owner, run, e, n);
    RecallIndexes(h.ledger, h.log, e, n, q);
  }

  lemma StepIndexes(workspace: nat, owner: map<nat, nat>, run: seq<Action>, a: Action, q: Query)
    requires IsRun(START, workspace, owner, run) && Enabled(After(START, workspace, run), owner, a) && OfStart(q)
    requires Indexed(After(START, workspace, run).ledger, q) == StartIn(StartOrigin(workspace, run, q))
    ensures
      Indexed(Apply(After(START, workspace, run), workspace, a).ledger, q) == StartIn(StartAfter(workspace, run, a, q))
  {
    var h := After(START, workspace, run);
    if Calls(a) {
      ReadingsIndex(workspace, owner, run, a.e, ReadingsOf(a), q);
      if !a.AbandonRecall? {
        NotedIndexes(h, workspace, a.e, q);
        EnrichedKeeps(Recall(h.ledger, h.log, a.e), workspace, a.e);
      }
    }
  }

  /** Over every run, an index names exactly the start that the last action on it entered. */
  lemma {:induction false} StartsAreEnteredBy(workspace: nat, owner: map<nat, nat>, run: seq<Action>, q: Query)
    requires IsRun(START, workspace, owner, run) && OfStart(q)
    ensures Indexed(After(START, workspace, run).ledger, q) == StartIn(StartOrigin(workspace, run, q))
    decreases |run|
  {
    if run != [] {
      var front, a := run[..|run| - 1], run[|run| - 1];
      StartsAreEnteredBy(workspace, owner, front, q);
      StepIndexes(workspace, owner, front, a, q);
    }
  }

  // ---------------------------------------------------------------- what that tells about the start

  /** A start entered by its record or a reading is the last recorded one; one of an abandoned record is a start
      of that task and id all the same, and was never stored. */
  ghost predicate StartMeans(h: Host, o: Entry, q: Query) {
    match o
    case NotEntered => true
    case ByAbandoned(x) => Matches(q, x) && x.id in h.abandoned
    case _ => Last(h.log, q) == Some(o.start)
  }

  /** What the store had when the process started. */
  ghost function StoreAtStart(workspace: nat, run: seq<Action>): (log: seq<Event>) {
    if run == [] then []
    else if run[|run| - 1].Restart? then Log(workspace, run[..|run| - 1])
    else StoreAtStart(workspace, run[..|run| - 1])
  }

  lemma TaskLastIsStart(log: seq<Event>, x: Event, q: Query)
    requires OfStart(q) && Matches(q, x) && Last(log, OfTask(q.task)) == Some(x)
    ensures Last(log, q) == Some(x)
  {
    LastNarrows(log, OfTask(q.task), q);
  }

  lemma ReadingsMean(workspace: nat, owner: map<nat, nat>, run: seq<Action>, e: Event, n: nat, q: Query)
    requires OfStart(q) && Owned(Log(workspace, run), owner) && Fitting(Log(workspace, run), e)
    requires StartMeans(After(START, workspace, run), StartOrigin(workspace, run, q), q)
    ensures StartMeans(After(START, workspace, run), StartReadings(workspace, run, e, n, q), q)
  {
    var log := Log(workspace, run);
    var x, y := SessionRead(workspace, run, e, n), TaskRead(workspace, run, e, n);
    TaskReadIsEarlier(workspace, run, e, n);
    SessionReadIsLast(workspace, run, e, n);
    SessionLastIsTaskLast(log, owner, e.session);
    if x.Some? && Matches(q, x.value) {
      TaskLastIsStart(log, x.value, q);
    } else if y.Some? && Matches(q, y.value) {
      TaskLastIsStart(log, y.value, q);
    }
  }

  lemma StartKept(h: Host, k: Host, o: Entry, q: Query)
    requires StartMeans(h, o, q) && Grown(h, k, q)
    ensures StartMeans(k, o, q)
  {
    if k.log != h.log { LastAppend(h.log, k.log[|k.log| - 1], q); }
  }

  lemma RecordGrows(h: Host, workspace: nat, a: Action, q: Query)
    requires a.Record? ==> !Matches(q, Prepared(h, workspace, a.e))
    ensures Grown(h, Apply(h, workspace, a), q)
  {
  }

  lemma StartMeansStep(workspace: nat, owner: map<nat, nat>, run: seq<Action>, a: Action, q: Query)
    requires OfStart(q) && Owned(Log(workspace, run), owner) && (Calls(a) ==> Fitting(Log(workspace, run), a.e))
    requires StartMeans(After(START, workspace, run), StartOrigin(workspace, run, q), q)
    ensures StartMeans(Apply(After(START, workspace, run), workspace, a), StartAfter(workspace, run, a, q), q)
  {
    var h := After(START, workspace, run);
    if (a.Record? || a.AbandonRecord?) && Matches(q, Prepared(h, workspace, a.e)) {
      EnrichedKeeps(Recall(h.ledger, h.log, a.e), workspace, a.e);
      LastAppend(h.log, Prepared(h, workspace, a.e), q);
    } else if !a.Restart? {
      if Calls(a) { ReadingsMean(workspace, owner, run, a.e, ReadingsOf(a), q); }
      RecordGrows(h, workspace, a, q);
      StartKept(h, Apply(h, workspace, a), StartAfter(workspace, run, a, q), q);
    }
  }

  lemma EntriesMeanStep(workspace: nat, owner: map<nat, nat>, run: seq<Action>, a: Action, q: Query)
    requires IsRun(START, workspace, owner, run) && Enabled(After(START, workspace, run), owner, a) && OfStart(q)
    requires StartMeans(After(START, workspace, run), StartOrigin(workspace, run, q), q)
    ensures StartMeans(Apply(After(START, workspace, run), workspace, a), StartAfter(workspace, run, a, q), q)
  {
    RunInv(workspace, owner, run);
    if Calls(a) { EnabledFits(workspace, owner, run, a); }
    StartMeansStep(workspace, owner, run, a, q);
  }

  lemma StartsOlder(workspace: nat, run: seq<Action>, a: Action, q: Query)
    requires StartOrigin(workspace, run, q).NotEntered? ==>
               Last(Log(workspace, run), q) == Last(StoreAtStart(workspace, run), q)
    requires StartAfter(workspace, run, a, q).NotEntered? && !a.Restart?
    ensures Last(Apply(After(START, workspace, run), workspace, a).log, q) == Last(StoreAtStart(workspace, run), q)
  {
    var h := After(START, workspace, run);
    if a.Record? { LastAppend(h.log, Prepared(h, workspace, a.e), q); }
  }

  /** Over every run: what the action that entered a start tells about it; and where none did, whatever start
      the log has was there before the process started. */
  lemma {:induction false} EntriesMean(workspace: nat, owner: map<nat, nat>, run: seq<Action>, q: Query)
    requires IsRun(START, workspace, owner, run) && OfStart(q)
    ensures
      var h, o := After(START, workspace, run), StartOrigin(workspace, run, q);
      && StartMeans(h, o, q)
      && (o.NotEntered? ==> Last(h.log, q) == Last(StoreAtStart(workspace, run), q))
    decreases |run|
  {
    if run != [] {
      var front, a := run[..|run| - 1], run[|run| - 1];
      EntriesMean(workspace, owner, front, q);
      EntriesMeanStep(workspace, owner, front, a, q);
      if StartOrigin(workspace, run, q).NotEntered? && !a.Restart? { StartsOlder(workspace, front, a, q); }
    }
  }

  // ---------------------------------------------------------------- links

  /** The action that entered the start which the event belongs to, its own readings included. */
  ghost function EntryFor(workspace: nat, run: seq<Action>, e: Event): (o: Entry) {
    var b := Belongs(Prepared(After(START, workspace, run), workspace, e));
    if b.Some? then StartOrigin(workspace, Reading(run, e), b.value.0) else NotEntered
  }

  predicate ParentLink(r: Event, k: Link) {
    r.parent.Some? && r.parent.value != r.id && k == Link(r.parent.value, Parent)
  }

  predicate StartLink(r: Event, o: Entry, k: Link) {
    Belongs(r).Some? && !o.NotEntered? && k == Link(o.start.id, Belongs(r).value.1)
  }

  lemma LinksFrom(l: Ledger, workspace: nat, e: Event)
    requires LinksOk(e.links, e.id)
    ensures
      var r := Enriched(l, workspace, e);
      && LinksOk(r.links, r.id)
      && (forall k :: k in r.links <==>
            k in e.links || ParentLink(r, k) || IndexLink(l, r, k))
  {
    var a := WithParent(l, e);
    if a.parent.Some? { AddLinkOk(e.links, e.id, a.parent.value, Parent); }
    var b := WithContext(l, workspace, a);
    var target := Target(l, b);
    TargetIsIndexed(l, b);
    if target.Some? { AddLinkOk(b.links, b.id, target.value.0, target.value.1); }
    assert Belongs(Enriched(l, workspace, e)) == Belongs(b);
  }

  ghost predicate IndexLink(l: Ledger, r: Event, k: Link) {
    && Belongs(r).Some? && Indexed(l, Belongs(r).value.0).Some?
    && Indexed(l, Belongs(r).value.0).value != r.id
    && k == Link(Indexed(l, Belongs(r).value.0).value, Belongs(r).value.1)
  }

  /** A start that was entered is another event. */
  lemma StartIsOlder(h: Host, o: Entry, q: Query, id: nat)
    requires StartMeans(h, o, q) && !o.NotEntered?
    requires (forall x <- h.log :: x.id != id) && id !in h.abandoned
    ensures o.start.id != id
  {
  }

  lemma IndexLinksAre(workspace: nat, owner: map<nat, nat>, run: seq<Action>, e: Event, k: Link)
    requires IsRun(START, workspace, owner, run + [Record(e)])
    ensures
      var h := After(START, workspace, run);
      var r := Prepared(h, workspace, e);
      IndexLink(Recall(h.ledger, h.log, e), r, k) <==> StartLink(r, EntryFor(workspace, run, e), k)
  {
    var h := After(START, workspace, run);
    var r := Prepared(h, workspace, e);
    EnrichedKeeps(Recall(h.ledger, h.log, e), workspace, e);
    ReadingRun(workspace, owner, run, e);
    assert (run + [Record(e)])[..|run|] == run;
    if Belongs(r).Some? {
      var q := Belongs(r).value.0;
      StartsAreEnteredBy(workspace, owner, Reading(run, e), q);
      EntriesMean(workspace, owner, Reading(run, e), q);
      var o := StartOrigin(workspace, Reading(run, e), q);
      if !o.NotEntered? { StartIsOlder(After(START, workspace, Reading(run, e)), o, q, e.id); }
    }
  }

  /** After any run, the links of a new event are exactly the ones it came with, one to its parent, and one to the
      start it belongs to if and only if an action since the process started has entered that; never itself,
      never the same twice. */
  lemma LinksAreTrue(workspace: nat, owner: map<nat, nat>, run: seq<Action>, e: Event)
    requires IsRun(START, workspace, owner, run + [Record(e)]) && LinksOk(e.links, e.id)
    ensures
      var r, o := Prepared(After(START, workspace, run), workspace, e), EntryFor(workspace, run, e);
      && LinksOk(r.links, r.id)
      && (forall k :: k in r.links <==> k in e.links || ParentLink(r, k) || StartLink(r, o, k))
  {
    var h := After(START, workspace, run);
    var r, o := Prepared(h, workspace, e), EntryFor(workspace, run, e);
    LinksFrom(Recall(h.ledger, h.log, e), workspace, e);
    forall k: Link
      ensures IndexLink(Recall(h.ledger, h.log, e), r, k) <==> StartLink(r, o, k)
    {
      IndexLinksAre(workspace, owner, run, e, k);
    }
  }

  /** ... and the start that is linked has the event's own task and request or tool call: it is the last such
      start in the log if and only if the action that entered it was not an abandoned record, and if it was, no
      recorded event has its id.  Where no action has entered one, any such start in the log was recorded before
      the process started. */
  lemma StartsAreTrue(workspace: nat, owner: map<nat, nat>, run: seq<Action>, e: Event)
    requires IsRun(START, workspace, owner, run + [Record(e)])
    requires Belongs(Prepared(After(START, workspace, run), workspace, e)).Some?
    ensures
      var h, o := After(START, workspace, run), EntryFor(workspace, run, e);
      var q := Belongs(Prepared(h, workspace, e)).value.0;
      && (!o.NotEntered? ==> Matches(q, o.start))
      && (!o.NotEntered? ==> (Last(h.log, q) == Some(o.start) <==> !o.ByAbandoned?))
      && (o.ByAbandoned? ==> forall x <- h.log :: x.id != o.start.id)
      && (o.NotEntered? ==> Last(h.log, q) == Last(StoreAtStart(workspace, run), q))
  {
    var h, r := After(START, workspace, run), Reading(run, e);
    var q := Belongs(Prepared(h, workspace, e)).value.0;
    ReadingRun(workspace, owner, run, e);
    RunInv(workspace, owner, run);
    EntriesMean(workspace, owner, r, q);
    assert r[..|run|] == run && r[|run|] == AbandonRecall(e, ALL_READINGS);
  }

  // ---------------------------------------------------------------- runs in which starts go astray

  /** An event of provider request 9 of task 1. */
  function Asked(id: nat, t: EventType): (e: Event) {
    Plain(id, 1, t).(payload := Payload(None, Some(9), None, None, None, None, None, NoContent))
  }

  lemma OriginsSnoc(workspace: nat, run: seq<Action>, a: Action, s: nat, t: nat, q: Query)
    ensures StartOrigin(workspace, run + [a], q) == StartAfter(workspace, run, a, q)
    ensures SessionOrigin(workspace, run + [a], s) == SessionAfter(workspace, run, a, s)
    ensures TaskOrigin(workspace, run + [a], t) == TaskAfter(workspace, run, a, t)
  {
    assert (run + [a])[..|run|] == run;
  }

  /** A record on a task and session that are known reads nothing, and leaves the starts as they are unless it is
      one. */
  lemma KnownKeepsEntry(workspace: nat, run: seq<Action>, e: Event, q: Query)
    requires e.task.Some? && !TaskOrigin(workspace, run, e.task.value).NoAction?
    requires !SessionOrigin(workspace, run, e.session).NoAction?
    requires q.ProviderStartOf? && !e.eventType.ProviderStarted?
    ensures StartAfter(workspace, run, Record(e), q) == StartOrigin(workspace, run, q)
    ensures StartAfter(workspace, run, AbandonRecall(e, ALL_READINGS), q) == StartOrigin(workspace, run, q)
  {
    var h := After(START, workspace, run);
    EnrichedKeeps(Recall(h.ledger, h.log, e), workspace, e);
  }

  lemma FirstEntry(workspace: nat, a: Event, q: Query) returns (x: Event)
    requires a == Asked(1, ProviderStarted) && q == ProviderStartOf(1, 9)
    ensures StartOrigin(workspace, [AbandonRecord(a)], q) == ByAbandoned(x) && x.id == 1
    ensures SessionOrigin(workspace, [AbandonRecord(a)], 1) == FromAbandoned(1)
    ensures TaskOrigin(workspace, [AbandonRecord(a)], 1) == FromAbandoned(1)
  {
    x := Prepared(START, workspace, a);
    EnrichedNames(Recall(START.ledger, START.log, a), workspace, a);
    assert [] + [AbandonRecord(a)] == [AbandonRecord(a)] && After(START, workspace, []) == START;
    OriginsSnoc(workspace, [], AbandonRecord(a), 1, 1, q);
  }

  /** A start whose record was abandoned stays entered while its task goes on. */
  lemma StaysEntered(workspace: nat, first: seq<Action>, b: Event, e: Event, q: Query)
    requires !SessionOrigin(workspace, first, 1).NoAction? && !TaskOrigin(workspace, first, 1).NoAction?
    requires b == Plain(2, 1, OtherType("telemetry")) && e == Asked(3, ProviderStreamed) && q == ProviderStartOf(1, 9)
    ensures
      StartOrigin(workspace, Reading(first + [Record(b)], e), q) == StartOrigin(workspace, first, q)
  {
    OriginsSnoc(workspace, first, Record(b), 1, 1, q);
    KnownKeepsEntry(workspace, first, b, q);
    OriginsSnoc(workspace, first + [Record(b)], AbandonRecall(e, ALL_READINGS), 1, 1, q);
    KnownKeepsEntry(workspace, first + [Record(b)], e, q);
  }

  lemma FirstAbandoned(workspace: nat, a: Event)
    requires a.id == 1 && Fits(a, TASKS)
    ensures
      var h := After(START, workspace, [AbandonRecord(a)]);
      IsRun(START, workspace, TASKS, [AbandonRecord(a)]) && h.log == [] && h.abandoned == {1}
  {
    assert [] + [AbandonRecord(a)] == [AbandonRecord(a)];
    GoesOn(workspace, [], START, AbandonRecord(a));
  }

  lemma OneIsStored(workspace: nat, first: seq<Action>, b: Event, e: Event)
    requires IsRun(START, workspace, TASKS, first)
    requires var h := After(START, workspace, first); h.log == [] && h.abandoned == {1}
    requires b.id == 2 && e.id == 3 && Fits(b, TASKS) && Fits(e, TASKS)
    ensures IsRun(START, workspace, TASKS, first + [Record(b)] + [Record(e)])
    ensures forall y <- Log(workspace, first + [Record(b)]) :: y.id == 2
  {
    var y := RunRecords(workspace, first, b);
    var h := After(START, workspace, first + [Record(b)]);
    assert h.log == [y];
    GoesOn(workspace, first + [Record(b)], h, Record(e));
  }

  lemma HasStartLink(workspace: nat, owner: map<nat, nat>, run: seq<Action>, e: Event, k: Link)
    requires IsRun(START, workspace, owner, run + [Record(e)]) && e.links == []
    ensures
      var r := Prepared(After(START, workspace, run), workspace, e);
      k.relation.RespondsTo? ==> (k in r.links <==> StartLink(r, EntryFor(workspace, run, e), k))
  {
    LinksAreTrue(workspace, owner, run, e);
  }

  /** The event belongs to request 9 of task 1. */
  lemma AskedBelongs(l: Ledger, workspace: nat, e: Event)
    requires e == Asked(3, ProviderStreamed)
    ensures Belongs(Enriched(l, workspace, e)) == Some((ProviderStartOf(1, 9), RespondsTo))
  {
    EnrichedNames(l, workspace, e);
  }

  lemma AskedLink(workspace: nat, run: seq<Action>, e: Event, id: nat)
    requires IsRun(START, workspace, TASKS, run + [Record(e)]) && e == Asked(3, ProviderStreamed)
    ensures
      Link(id, RespondsTo) in Prepared(After(START, workspace, run), workspace, e).links <==>
        StartIn(StartOrigin(workspace, Reading(run, e), ProviderStartOf(1, 9))) == Some(id)
  {
    var h := After(START, workspace, run);
    AskedBelongs(Recall(h.ledger, h.log, e), workspace, e);
    HasStartLink(workspace, TASKS, run, e, Link(id, RespondsTo));
  }

  lemma HeadIsStored(a: Event, b: Event)
    requires b.task == Some(1)
    ensures !LastAbandoned([AbandonRecord(a)] + [Record(b)], 1)
  {
  }

  /** The start of a request is abandoned and another event of the task is recorded: the task's head is a stored
      event again, and still the next event of the request is linked to a start that was never stored. */
  lemma AbandonedStartDangles(workspace: nat, a: Event, b: Event, e: Event, run: seq<Action>)
    requires a == Asked(1, ProviderStarted) && b == Plain(2, 1, OtherType("telemetry"))
    requires e == Asked(3, ProviderStreamed) && run == [AbandonRecord(a)] + [Record(b)]
    ensures IsRun(START, workspace, TASKS, run + [Record(e)]) && !LastAbandoned(run, 1)
    ensures Link(1, RespondsTo) in Prepared(After(START, workspace, run), workspace, e).links
    ensures forall y <- Log(workspace, run) :: y.id != 1
  {
    var x := FirstEntry(workspace, a, ProviderStartOf(1, 9));
    StaysEntered(workspace, [AbandonRecord(a)], b, e, ProviderStartOf(1, 9));
    FirstAbandoned(workspace, a);
    OneIsStored(workspace, [AbandonRecord(a)], b, e);
    AskedLink(workspace, run, e, 1);
    HeadIsStored(a, b);
  }

  lemma NothingEntered(workspace: nat, run: seq<Action>, x: Event, y: Event, e: Event, q: Query)
    requires run != [] && run[|run| - 1] == Restart && Log(workspace, run) == [x, y]
    requires e == Asked(3, ProviderStreamed) && IsRecordOf(y, Plain(2, 1, OtherType("telemetry")))
    requires q == ProviderStartOf(1, 9)
    ensures StartOrigin(workspace, Reading(run, e), q).NotEntered?
  {
    OriginsSnoc(workspace, run, AbandonRecall(e, ALL_READINGS), 1, 1, q);
    LastOfTwo(x, y, OfSession(1));
    LastOfTwo(x, y, OfTask(1));
    assert StartOrigin(workspace, run, q) == StartAfter(workspace, run[..|run| - 1], Restart, q);
    assert StartReadings(workspace, run, e, ALL_READINGS, q) == StartOrigin(workspace, run, q);
  }

  /** After a restart the start of a request is read back only if it is the last event of its task: otherwise the
      log has it, and the next event of the request is not linked to it. */
  lemma RestartLosesTheStart(workspace: nat, a: Event, b: Event, e: Event, run: seq<Action>)
    requires a == Asked(1, ProviderStarted) && b == Plain(2, 1, OtherType("telemetry"))
    requires e == Asked(3, ProviderStreamed) && run == [Record(a)] + [Record(b)] + [Restart]
    ensures IsRun(START, workspace, TASKS, run + [Record(e)])
    ensures IdOf(Last(Log(workspace, run), ProviderStartOf(1, 9))) == Some(1)
    ensures Link(1, RespondsTo) !in Prepared(After(START, workspace, run), workspace, e).links
  {
    var x, y := TwoThenRestart(workspace, a, b, run);
    LostFrom(workspace, run, x, y, e);
  }

  lemma LostFrom(workspace: nat, run: seq<Action>, x: Event, y: Event, e: Event)
    requires IsRun(START, workspace, TASKS, run) && run != [] && run[|run| - 1] == Restart
    requires After(START, workspace, run) == Host(EMPTY_LEDGER, [x, y], {})
    requires IsRecordOf(x, Asked(1, ProviderStarted)) && IsRecordOf(y, Plain(2, 1, OtherType("telemetry")))
    requires e == Asked(3, ProviderStreamed)
    ensures IsRun(START, workspace, TASKS, run + [Record(e)])
    ensures IdOf(Last(Log(workspace, run), ProviderStartOf(1, 9))) == Some(1)
    ensures Link(1, RespondsTo) !in Prepared(After(START, workspace, run), workspace, e).links
  {
    var h := Host(EMPTY_LEDGER, [x, y], {});
    ThirdIsNew(h, e);
    GoesOn(workspace, run, h, Record(e));
    LastOfTwo(x, y, ProviderStartOf(1, 9));
    NothingEntered(workspace, run, x, y, e, ProviderStartOf(1, 9));
    AskedLink(workspace, run, e, 1);
  }

  // ---------------------------------------------------------------- contexts and restarts, over actions

  /** No event is recorded on the task when the last record on it since the process started was abandoned. */
  ghost predicate NeverAfterAbandoned(run: seq<Action>, t: nat) {
    run == []
    || (var front, a := run[..|run| - 1], run[|run| - 1];
        && NeverAfterAbandoned(front, t)
        && (a.Record? && a.e.task == Some(t) ==> !LastAbandoned(front, t)))
  }

  lemma {:induction false} AlwaysClearIff(workspace: nat, owner: map<nat, nat>, run: seq<Action>, t: nat)
    requires IsRun(START, workspace, owner, run)
    ensures AlwaysClear(workspace, run, t) <==> NeverAfterAbandoned(run, t)
    decreases |run|
  {
    if run != [] {
      var front, a := run[..|run| - 1], run[|run| - 1];
      assert run == front + [a];
      AlwaysClearIff(workspace, owner, front, t);
      if a.Record? { TaskClearIff(workspace, owner, front, a.e); }
    }
  }

  /** After any run that never records on the task right after an abandoned record on it, the context of
      the task's last event holds, for each identifier, the one that the task's events named last. */
  lemma ContextsTellTheLatest(workspace: nat, owner: map<nat, nat>, run: seq<Action>, t: nat)
    requires IsRun(START, workspace, owner, run) && NeverAfterAbandoned(run, t)
    ensures var log := Log(workspace, run); TellsLatest(Carried(log, t), log, t)
  {
    AlwaysClearIff(workspace, owner, run, t);
    ClearContextsTell(workspace, owner, run, t);
  }

  /** The actions have left in place what the event's parent, if it is not history, and its link to a start depend
      on: its task and session, and the start it belongs to was not entered by an abandoned record. */
  ghost predicate Undisturbed(workspace: nat, run: seq<Action>, e: Event) {
    Follows(workspace, run, e) && !EntryFor(workspace, run, e).ByAbandoned?
  }

  ghost predicate RecordsUndisturbed(workspace: nat, run: seq<Action>) {
    run == []
    || (var front, a := run[..|run| - 1], run[|run| - 1];
        && RecordsUndisturbed(workspace, front)
        && (a.Record? ==> Undisturbed(workspace, front, a.e)))
  }

  lemma EntryIsAbandoned(workspace: nat, owner: map<nat, nat>, run: seq<Action>, e: Event)
    requires IsRun(START, workspace, owner, run + [Record(e)])
    ensures
      var h := After(START, workspace, run);
      var target := Target(Recall(h.ledger, h.log, e), Shape(e, Prepared(h, workspace, e).context));
      target.Some? && target.value.0 in h.abandoned <==> EntryFor(workspace, run, e).ByAbandoned?
  {
    var h, r := After(START, workspace, run), Reading(run, e);
    var l := Recall(h.ledger, h.log, e);
    var b := Belongs(Prepared(h, workspace, e));
    ShapeBelongs(l, workspace, e);
    TargetIsIndexed(l, Shape(e, Prepared(h, workspace, e).context));
    ReadingRun(workspace, owner, run, e);
    if b.Some? { IndexIsAbandoned(workspace, owner, r, b.value.0); }
  }

  lemma ShapeBelongs(l: Ledger, workspace: nat, e: Event)
    ensures Belongs(Shape(e, Enriched(l, workspace, e).context)) == Belongs(Enriched(l, workspace, e))
  {
    EnrichedKeeps(l, workspace, e);
  }

  lemma IndexIsAbandoned(workspace: nat, owner: map<nat, nat>, run: seq<Action>, q: Query)
    requires IsRun(START, workspace, owner, run) && OfStart(q)
    ensures
      var h := After(START, workspace, run);
      IsAbandoned(h, Indexed(h.ledger, q)) <==> StartOrigin(workspace, run, q).ByAbandoned?
  {
    StartsAreEnteredBy(workspace, owner, run, q);
    EntriesMean(workspace, owner, run, q);
    RunInv(workspace, owner, run);
  }

  lemma {:induction false} RecordsClearIff(workspace: nat, owner: map<nat, nat>, run: seq<Action>)
    requires IsRun(START, workspace, owner, run)
    ensures RecordsClear(workspace, run) <==> RecordsUndisturbed(workspace, run)
    decreases |run|
  {
    if run != [] {
      var front, a := run[..|run| - 1], run[|run| - 1];
      assert run == front + [a];
      RecordsClearIff(workspace, owner, front);
      if a.Record? {
        FollowsIffClear(workspace, owner, front, a.e);
        EntryIsAbandoned(workspace, owner, front, a.e);
      }
    }
  }

  /** Restarts, history readings and abandoned calls, however many, change nothing recorded but the parents
      of history events and missing links to starts, as long as no event is recorded where an abandoned call
      came last on what it depends on: the events, their contexts and the parents of all others are those of a
      host that had none, and every link they have is one it would have made. */
  lemma RestartsChangeLittle(workspace: nat, owner: map<nat, nat>, run: seq<Action>)
    requires IsRun(START, workspace, owner, run) && RecordsUndisturbed(workspace, run)
    ensures IsRun(START, workspace, owner, Strip(run))
    ensures LogsAlike(Log(workspace, run), Log(workspace, Strip(run)))
  {
    RecordsClearIff(workspace, owner, run);
    ClearRecordsAlike(workspace, owner, run);
  }
}
