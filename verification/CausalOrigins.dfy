/** Which action of a run left each head of the ledger. */
module CausalOrigins {
  import opened Options
  import opened CausalModel
  import opened CausalLaws
  import opened CausalRestart

  /** The last action since the process started that moved a head: none, a record, an abandoned record, or
      a reading of the store, which an abandoned call may have made, and which brought the event named. */
  datatype Origin = NoAction | FromRecord(id: nat) | FromAbandoned(id: nat) | FromReading(id: nat)

  function IdIn(o: Origin): (id: Option<nat>) { if o.NoAction? then None else Some(o.id) }

  ghost function Log(workspace: nat, run: seq<Action>): (log: seq<Event>) { After(START, workspace, run).log }

  /** What a reading brought, or else what was there before. */
  ghost function Or(read: Option<Event>, before: Origin): (o: Origin) {
    if read.Some? then FromReading(read.value.id) else before
  }

  // ---------------------------------------------------------------- origins

  /** A call reads its task's last event if nothing has been done with that task since the process started,
      and its session's last event if nothing has been done with the session.  It makes these readings in
      this order, and may be dropped in between; the first `n` are made. */
  ghost function TaskRead(workspace: nat, run: seq<Action>, e: Event, n: nat): (x: Option<Event>)
    decreases |run|, 1
  {
    if n >= 1 && e.task.Some? && TaskOrigin(workspace, run, e.task.value).NoAction?
    then Last(Log(workspace, run), OfTask(e.task.value)) else None
  }

  ghost function SessionRead(workspace: nat, run: seq<Action>, e: Event, n: nat): (x: Option<Event>)
    decreases |run|, 1
  {
    if n >= 2 && SessionOrigin(workspace, run, e.session).NoAction?
    then Last(Log(workspace, run), OfSession(e.session)) else None
  }

  ghost function SessionOrigin(workspace: nat, run: seq<Action>, s: nat): (o: Origin)
    decreases |run|, 0
  {
    if run == [] then NoAction else SessionAfter(workspace, run[..|run| - 1], run[|run| - 1], s)
  }

  ghost function SessionAfter(workspace: nat, run: seq<Action>, a: Action, s: nat): (o: Origin)
    decreases |run|, 2
  {
    var before := SessionOrigin(workspace, run, s);
    match a
    case Restart => NoAction
    case Record(e) => if e.session == s then FromRecord(e.id) else before
    case AbandonRecord(e) => if e.session == s then FromAbandoned(e.id) else before
    case AbandonRecall(e, n) =>
      if e.session == s then Or(SessionRead(workspace, run, e, n), Or(TaskRead(workspace, run, e, n), before))
      else before
    case _ => before
  }

  /** What the readings of a call say about a task. */
  ghost function TaskReadings(workspace: nat, run: seq<Action>, e: Event, n: nat, t: nat): (o: Origin)
    decreases |run|, 2
  {
    var x, y := SessionRead(workspace, run, e, n), TaskRead(workspace, run, e, n);
    if x.Some? && x.value.task == Some(t) then FromReading(x.value.id)
    else if y.Some? && y.value.task == Some(t) then FromReading(y.value.id)
    else TaskOrigin(workspace, run, t)
  }

  ghost function TaskOrigin(workspace: nat, run: seq<Action>, t: nat): (o: Origin)
    decreases |run|, 0
  {
    if run == [] then NoAction else TaskAfter(workspace, run[..|run| - 1], run[|run| - 1], t)
  }

  ghost function TaskAfter(workspace: nat, run: seq<Action>, a: Action, t: nat): (o: Origin)
    decreases |run|, 3
  {
    match a
    case Restart => NoAction
    case Record(e) =>
      if e.task == Some(t) then FromRecord(e.id) else TaskReadings(workspace, run, e, ALL_READINGS, t)
    case AbandonRecord(e) =>
      if e.task == Some(t) then FromAbandoned(e.id) else TaskReadings(workspace, run, e, ALL_READINGS, t)
    case AbandonRecall(e, n) => TaskReadings(workspace, run, e, n, t)
    case _ => TaskOrigin(workspace, run, t)
  }

  ghost function IfHistory(x: Option<Event>): (r: Option<Event>) {
    if x.Some? && IsHistory(x.value) then x else None
  }

  /** What the readings of a call say about its session's history: last of all the store's query for it, if
      nothing has been done with that since the process started. */
  ghost function HistoryReadings(workspace: nat, run: seq<Action>, e: Event, n: nat): (o: Origin)
    decreases |run|, 1
  {
    var before := HistoryOrigin(workspace, run, e.session);
    var listed := if n >= 3 && before.NoAction? then Last(Log(workspace, run), ListedOf(e.session)) else None;
    Or(IfHistory(listed),
       Or(IfHistory(SessionRead(workspace, run, e, n)), Or(IfHistory(TaskRead(workspace, run, e, n)), before)))
  }

  ghost function HistoryOrigin(workspace: nat, run: seq<Action>, s: nat): (o: Origin)
    decreases |run|, 0
  {
    if run == [] then NoAction else HistoryAfter(workspace, run[..|run| - 1], run[|run| - 1], s)
  }

  ghost function HistoryAfter(workspace: nat, run: seq<Action>, a: Action, s: nat): (o: Origin)
    decreases |run|, 3
  {
    var before := HistoryOrigin(workspace, run, s);
    match a
    case Restart => NoAction
    case Record(e) => if e.session == s && IsHistory(e) then FromRecord(e.id) else HistoryRead(workspace, run, a, s)
    case AbandonRecord(e) =>
      if e.session == s && IsHistory(e) then FromAbandoned(e.id) else HistoryRead(workspace, run, a, s)
    case AbandonRecall(_, _) => HistoryRead(workspace, run, a, s)
    case RefreshHistory(session) =>
      if session == s then Or(IfHistory(Last(Log(workspace, run), ListedOf(s))), before) else before
    case FailToRecord(_) => before
  }

  predicate Calls(a: Action) { a.Record? || a.AbandonRecord? || a.AbandonRecall? }

  function ReadingsOf(a: Action): (n: nat) { if a.AbandonRecall? then a.readings else ALL_READINGS }

  ghost function HistoryRead(workspace: nat, run: seq<Action>, a: Action, s: nat): (o: Origin)
    requires Calls(a)
    decreases |run|, 2
  {
    if a.e.session == s then HistoryReadings(workspace, run, a.e, ReadingsOf(a)) else HistoryOrigin(workspace, run, s)
  }

  // ---------------------------------------------------------------- they are the heads

  ghost predicate HeadsCome(workspace: nat, run: seq<Action>) {
    var l := After(START, workspace, run).ledger;
    && (forall s :: Get(l.sessionHeads, s) == IdIn(SessionOrigin(workspace, run, s)))
    && (forall t :: Get(l.taskHeads, t) == IdIn(TaskOrigin(workspace, run, t)))
    && (forall s :: Get(l.contextHeads, s) == IdIn(HistoryOrigin(workspace, run, s)))
  }

  lemma SeedHistory(l: Ledger, found: Option<Event>, s: nat)
    ensures Get(SeedFound(l, found).contextHeads, s) ==
      if found.Some? && found.value.session == s && IsHistory(found.value) then IdOf(found) else Get(l.contextHeads, s)
  {
  }

  lemma RecalledSessions(l: Ledger, log: seq<Event>, e: Event, n: nat, s: nat)
    ensures
      var r := RecallSome(l, log, e, n);
      var task, last := Until(TaskFound(l, log, e), n >= 1), Until(SessionFound(l, log, e), n >= 2);
      Get(r.sessionHeads, s) ==
      if s == e.session then OrElse(IdOf(last), OrElse(IdOf(task), Get(l.sessionHeads, s))) else Get(l.sessionHeads, s)
  {
    var task, last := Until(TaskFound(l, log, e), n >= 1), Until(SessionFound(l, log, e), n >= 2);
    RecallStages(l, log, e, n);
    SeedSession(l, task, s);
    SeedSession(SeedFound(l, task), last, s);
  }

  lemma RecalledTasks(l: Ledger, log: seq<Event>, e: Event, n: nat, t: nat)
    ensures
      var r := RecallSome(l, log, e, n);
      var task, last := Until(TaskFound(l, log, e), n >= 1), Until(SessionFound(l, log, e), n >= 2);
      Get(r.taskHeads, t) ==
      if last.Some? && last.value.task == Some(t) then IdOf(last)
      else if task.Some? && task.value.task == Some(t) then IdOf(task)
      else Get(l.taskHeads, t)
  {
    var task, last := Until(TaskFound(l, log, e), n >= 1), Until(SessionFound(l, log, e), n >= 2);
    RecallStages(l, log, e, n);
    SeedTask(l, task, t);
    SeedTask(SeedFound(l, task), last, t);
  }

  lemma RecalledHistory(l: Ledger, log: seq<Event>, e: Event, n: nat, s: nat)
    ensures
      var r := RecallSome(l, log, e, n);
      var task, last := Until(TaskFound(l, log, e), n >= 1), Until(SessionFound(l, log, e), n >= 2);
      var listed := Until(HistoryFound(l, log, e), n >= 3);
      Get(r.contextHeads, s) ==
      if s != e.session then Get(l.contextHeads, s)
      else
        OrElse(IdOf(IfHistory(listed)),
               OrElse(IdOf(IfHistory(last)), OrElse(IdOf(IfHistory(task)), Get(l.contextHeads, s))))
  {
    var task, last := Until(TaskFound(l, log, e), n >= 1), Until(SessionFound(l, log, e), n >= 2);
    RecallStages(l, log, e, n);
    SeedHistory(l, task, s);
    SeedHistory(SeedFound(l, task), last, s);
  }

  /** What a call reads is decided by what was done since the process started. */
  lemma ReadingsAre(workspace: nat, owner: map<nat, nat>, run: seq<Action>, e: Event, n: nat)
    requires IsRun(START, workspace, owner, run) && Fits(e, owner) && HeadsCome(workspace, run)
    ensures
      var h := After(START, workspace, run);
      && Until(TaskFound(h.ledger, h.log, e), n >= 1) == TaskRead(workspace, run, e, n)
      && Until(SessionFound(h.ledger, h.log, e), n >= 2) == SessionRead(workspace, run, e, n)
      && (HistoryFound(h.ledger, h.log, e) ==
          if HistoryOrigin(workspace, run, e.session).NoAction? then Last(h.log, ListedOf(e.session)) else None)
  {
    var h := After(START, workspace, run);
    RunInv(workspace, owner, run);
    if e.task.Some? {
      TaskQueriesAgree(h.log, owner, e.session, e.task.value);
      assert Get(h.ledger.taskHeads, e.task.value) == IdIn(TaskOrigin(workspace, run, e.task.value));
    }
    assert Get(h.ledger.sessionHeads, e.session) == IdIn(SessionOrigin(workspace, run, e.session));
    assert Get(h.ledger.contextHeads, e.session) == IdIn(HistoryOrigin(workspace, run, e.session));
  }

  lemma SessionComes(workspace: nat, owner: map<nat, nat>, run: seq<Action>, a: Action, s: nat)
    requires IsRun(START, workspace, owner, run) && HeadsCome(workspace, run)
    requires Enabled(After(START, workspace, run), owner, a)
    ensures
      Get(Apply(After(START, workspace, run), workspace, a).ledger.sessionHeads, s) ==
      IdIn(SessionAfter(workspace, run, a, s))
  {
    var h := After(START, workspace, run);
    assert Get(h.ledger.sessionHeads, s) == IdIn(SessionOrigin(workspace, run, s));
    if a.AbandonRecall? {
      ReadingsAre(workspace, owner, run, a.e, a.readings);
      RecalledSessions(h.ledger, h.log, a.e, a.readings, s);
    } else if a.Record? || a.AbandonRecord? {
      EnrichedKeeps(Recall(h.ledger, h.log, a.e), workspace, a.e);
      RecalledSessions(h.ledger, h.log, a.e, ALL_READINGS, s);
    }
  }

  lemma TaskNoted(h: Host, workspace: nat, e: Event, t: nat)
    ensures
      Get(Noted(h, workspace, e).taskHeads, t) ==
      if e.task == Some(t) then Some(e.id) else Get(Recall(h.ledger, h.log, e).taskHeads, t)
  {
    EnrichedKeeps(Recall(h.ledger, h.log, e), workspace, e);
  }

  lemma TaskComes(workspace: nat, owner: map<nat, nat>, run: seq<Action>, a: Action, t: nat)
    requires IsRun(START, workspace, owner, run) && HeadsCome(workspace, run)
    requires Enabled(After(START, workspace, run), owner, a)
    ensures
      Get(Apply(After(START, workspace, run), workspace, a).ledger.taskHeads, t) ==
      IdIn(TaskAfter(workspace, run, a, t))
  {
    var h := After(START, workspace, run);
    assert Get(h.ledger.taskHeads, t) == IdIn(TaskOrigin(workspace, run, t));
    if Calls(a) {
      ReadingsAre(workspace, owner, run, a.e, ReadingsOf(a));
      RecalledTasks(h.ledger, h.log, a.e, ReadingsOf(a), t);
      TaskNoted(h, workspace, a.e, t);
    }
  }

  lemma HistoryReads(workspace: nat, owner: map<nat, nat>, run: seq<Action>, e: Event, n: nat)
    requires IsRun(START, workspace, owner, run) && Fits(e, owner) && HeadsCome(workspace, run)
    ensures
      var h := After(START, workspace, run);
      Get(RecallSome(h.ledger, h.log, e, n).contextHeads, e.session) == IdIn(HistoryReadings(workspace, run, e, n))
  {
    var h := After(START, workspace, run);
    assert Get(h.ledger.contextHeads, e.session) == IdIn(HistoryOrigin(workspace, run, e.session));
    ReadingsAre(workspace, owner, run, e, n);
    RecalledHistory(h.ledger, h.log, e, n, e.session);
  }

  lemma HistoryElsewhere(h: Host, workspace: nat, a: Action, s: nat)
    requires Calls(a) && a.e.session != s
    ensures Get(Apply(h, workspace, a).ledger.contextHeads, s) == Get(h.ledger.contextHeads, s)
  {
    RecalledHistory(h.ledger, h.log, a.e, ReadingsOf(a), s);
    EnrichedKeeps(Recall(h.ledger, h.log, a.e), workspace, a.e);
  }

  lemma HistoryNoted(h: Host, workspace: nat, e: Event)
    ensures
      Get(Noted(h, workspace, e).contextHeads, e.session) ==
      if IsHistory(e) then Some(e.id) else Get(Recall(h.ledger, h.log, e).contextHeads, e.session)
  {
    EnrichedKeeps(Recall(h.ledger, h.log, e), workspace, e);
  }

  lemma HistoryCalls(workspace: nat, owner: map<nat, nat>, run: seq<Action>, a: Action, s: nat)
    requires IsRun(START, workspace, owner, run) && HeadsCome(workspace, run) && Calls(a) && Fits(a.e, owner)
    ensures
      Get(Apply(After(START, workspace, run), workspace, a).ledger.contextHeads, s) ==
      IdIn(HistoryAfter(workspace, run, a, s))
  {
    var h := After(START, workspace, run);
    assert Get(h.ledger.contextHeads, s) == IdIn(HistoryOrigin(workspace, run, s));
    if a.e.session != s {
      HistoryElsewhere(h, workspace, a, s);
    } else {
      HistoryReads(workspace, owner, run, a.e, ReadingsOf(a));
      HistoryNoted(h, workspace, a.e);
    }
  }

  lemma HistoryComes(workspace: nat, owner: map<nat, nat>, run: seq<Action>, a: Action, s: nat)
    requires IsRun(START, workspace, owner, run) && HeadsCome(workspace, run)
    requires Enabled(After(START, workspace, run), owner, a)
    ensures
      Get(Apply(After(START, workspace, run), workspace, a).ledger.contextHeads, s) ==
      IdIn(HistoryAfter(workspace, run, a, s))
  {
    assert Get(After(START, workspace, run).ledger.contextHeads, s) == IdIn(HistoryOrigin(workspace, run, s));
    if Calls(a) {
      HistoryCalls(workspace, owner, run, a, s);
    } else if a.RefreshHistory? {
      HistoryRefreshed(After(START, workspace, run), a.session, s);
    }
  }

  lemma HistoryRefreshed(h: Host, session: nat, s: nat)
    ensures
      Get(Refreshed(h.ledger, h.log, session).contextHeads, s) ==
      if session == s then OrElse(IdOf(IfHistory(Last(h.log, ListedOf(s)))), Get(h.ledger.contextHeads, s))
      else Get(h.ledger.contextHeads, s)
  {
  }

  lemma {:induction false} HeadsComeFromActions(workspace: nat, owner: map<nat, nat>, run: seq<Action>)
    requires IsRun(START, workspace, owner, run)
    ensures HeadsCome(workspace, run)
    decreases |run|
  {
    if run != [] {
      var front, a := run[..|run| - 1], run[|run| - 1];
      assert run == front + [a];
      HeadsComeFromActions(workspace, owner, front);
      var l := After(START, workspace, run).ledger;
      forall s ensures Get(l.sessionHeads, s) == IdIn(SessionOrigin(workspace, run, s)) {
        SessionComes(workspace, owner, front, a, s);
      }
      forall t ensures Get(l.taskHeads, t) == IdIn(TaskOrigin(workspace, run, t)) {
        TaskComes(workspace, owner, front, a, t);
      }
      forall s ensures Get(l.contextHeads, s) == IdIn(HistoryOrigin(workspace, run, s)) {
        HistoryComes(workspace, owner, front, a, s);
      }
    }
  }

  // ---------------------------------------------------------------- what an origin tells about the head

  ghost predicate SessionMeans(h: Host, o: Origin, s: nat) {
    match o
    case NoAction => true
    case FromRecord(id) => IdOf(Last(h.log, OfSession(s))) == Some(id)
    case FromAbandoned(id) => id in h.abandoned
    case FromReading(id) => Earlier(h.log, s, id)
  }

  ghost predicate TaskMeans(h: Host, o: Origin, t: nat) {
    match o
    case NoAction => true
    case FromAbandoned(id) => id in h.abandoned
    case _ => IdOf(Last(h.log, OfTask(t))) == Some(o.id)
  }

  ghost predicate HistoryMeans(h: Host, o: Origin, s: nat) {
    match o
    case NoAction => true
    case FromRecord(id) => IdOf(Last(h.log, HistoryOf(s))) == Some(id)
    case FromAbandoned(id) => id in h.abandoned
    case FromReading(id) => HistoryId(h.log, s, id)
  }

  /** The log is the same, or has one more event, which `q` does not ask for. */
  ghost predicate Grown(h: Host, k: Host, q: Query) {
    && h.abandoned <= k.abandoned
    && (k.log == h.log || (k.log != [] && k.log == h.log + [k.log[|k.log| - 1]] && !Matches(q, k.log[|k.log| - 1])))
  }

  lemma SessionKept(h: Host, k: Host, o: Origin, s: nat)
    requires SessionMeans(h, o, s) && Grown(h, k, OfSession(s))
    ensures SessionMeans(k, o, s)
  {
    if k.log != h.log { LastAppend(h.log, k.log[|k.log| - 1], OfSession(s)); }
  }

  lemma TaskKept(h: Host, k: Host, o: Origin, t: nat)
    requires TaskMeans(h, o, t) && Grown(h, k, OfTask(t))
    ensures TaskMeans(k, o, t)
  {
    if k.log != h.log { LastAppend(h.log, k.log[|k.log| - 1], OfTask(t)); }
  }

  lemma HistoryKept(h: Host, k: Host, o: Origin, s: nat)
    requires HistoryMeans(h, o, s) && Grown(h, k, HistoryOf(s))
    ensures HistoryMeans(k, o, s)
  {
    if k.log != h.log { LastAppend(h.log, k.log[|k.log| - 1], HistoryOf(s)); }
  }

  lemma StepGrows(h: Host, workspace: nat, a: Action, q: Query)
    requires q.OfSession? || q.OfTask? || q.HistoryOf?
    requires a.Record? ==> !Matches(q, a.e)
    ensures Grown(h, Apply(h, workspace, a), q)
  {
    if a.Record? { EnrichedKeeps(Recall(h.ledger, h.log, a.e), workspace, a.e); }
  }

  lemma RecordIsLast(h: Host, workspace: nat, e: Event, q: Query)
    requires (q.OfSession? || q.OfTask? || q.HistoryOf?) && Matches(q, e)
    ensures IdOf(Last(Recorded(h, workspace, e).log, q)) == Some(e.id)
  {
    EnrichedKeeps(Recall(h.ledger, h.log, e), workspace, e);
    LastAppend(h.log, Prepared(h, workspace, e), q);
  }

  /** The task of the event has only been used in its session. */
  ghost predicate Fitting(log: seq<Event>, e: Event) {
    forall x <- log :: e.task.Some? && x.task == e.task ==> x.session == e.session
  }

  lemma TaskReadIsEarlier(workspace: nat, run: seq<Action>, e: Event, n: nat)
    requires Fitting(Log(workspace, run), e)
    ensures
      var x := TaskRead(workspace, run, e, n);
      x.Some? ==>
        && x.value in Log(workspace, run) && x.value.session == e.session && x.value.task == e.task
        && Last(Log(workspace, run), OfTask(e.task.value)) == x
  {
  }

  lemma SessionReadIsLast(workspace: nat, run: seq<Action>, e: Event, n: nat)
    ensures
      var x := SessionRead(workspace, run, e, n);
      x.Some? ==>
        && x.value in Log(workspace, run) && x.value.session == e.session
        && Last(Log(workspace, run), OfSession(e.session)) == x
  {
  }

  lemma OrMeans(h: Host, x: Option<Event>, o: Origin, s: nat)
    requires SessionMeans(h, o, s) && (x.Some? ==> x.value in h.log && x.value.session == s)
    ensures SessionMeans(h, Or(x, o), s)
  {
  }

  lemma SessionRecallMeans(workspace: nat, run: seq<Action>, e: Event, n: nat)
    requires SessionMeans(After(START, workspace, run), SessionOrigin(workspace, run, e.session), e.session)
    requires Fitting(Log(workspace, run), e)
    ensures
      var o := SessionAfter(workspace, run, AbandonRecall(e, n), e.session);
      SessionMeans(After(START, workspace, run), o, e.session)
  {
    var h, before := After(START, workspace, run), SessionOrigin(workspace, run, e.session);
    TaskReadIsEarlier(workspace, run, e, n);
    SessionReadIsLast(workspace, run, e, n);
    OrMeans(h, TaskRead(workspace, run, e, n), before, e.session);
    OrMeans(h, SessionRead(workspace, run, e, n), Or(TaskRead(workspace, run, e, n), before), e.session);
  }

  lemma SessionMeansStep(workspace: nat, run: seq<Action>, a: Action, s: nat)
    requires SessionMeans(After(START, workspace, run), SessionOrigin(workspace, run, s), s)
    requires Calls(a) ==> Fitting(Log(workspace, run), a.e)
    ensures SessionMeans(Apply(After(START, workspace, run), workspace, a), SessionAfter(workspace, run, a, s), s)
  {
    var h := After(START, workspace, run);
    if a.Record? && a.e.session == s {
      RecordIsLast(h, workspace, a.e, OfSession(s));
    } else if !a.Restart? && !(a.AbandonRecord? && a.e.session == s) {
      StepGrows(h, workspace, a, OfSession(s));
      if a.AbandonRecall? && a.e.session == s { SessionRecallMeans(workspace, run, a.e, a.readings); }
      SessionKept(h, Apply(h, workspace, a), SessionAfter(workspace, run, a, s), s);
    }
  }

  lemma TaskReadingsMean(workspace: nat, owner: map<nat, nat>, run: seq<Action>, e: Event, n: nat, t: nat)
    requires Owned(Log(workspace, run), owner) && Fitting(Log(workspace, run), e)
    requires TaskMeans(After(START, workspace, run), TaskOrigin(workspace, run, t), t)
    ensures TaskMeans(After(START, workspace, run), TaskReadings(workspace, run, e, n, t), t)
  {
    TaskReadIsEarlier(workspace, run, e, n);
    SessionReadIsLast(workspace, run, e, n);
    SessionLastIsTaskLast(Log(workspace, run), owner, e.session);
  }

  lemma TaskMeansStep(workspace: nat, owner: map<nat, nat>, run: seq<Action>, a: Action, t: nat)
    requires Owned(Log(workspace, run), owner) && (Calls(a) ==> Fitting(Log(workspace, run), a.e))
    requires TaskMeans(After(START, workspace, run), TaskOrigin(workspace, run, t), t)
    ensures TaskMeans(Apply(After(START, workspace, run), workspace, a), TaskAfter(workspace, run, a, t), t)
  {
    var h := After(START, workspace, run);
    if a.Record? && a.e.task == Some(t) {
      RecordIsLast(h, workspace, a.e, OfTask(t));
    } else if !a.Restart? && !(a.AbandonRecord? && a.e.task == Some(t)) {
      StepGrows(h, workspace, a, OfTask(t));
      if Calls(a) { TaskReadingsMean(workspace, owner, run, a.e, ReadingsOf(a), t); }
      TaskKept(h, Apply(h, workspace, a), TaskAfter(workspace, run, a, t), t);
    }
  }

  lemma OrHistoryMeans(h: Host, x: Option<Event>, o: Origin, s: nat)
    requires HistoryMeans(h, o, s) && (x.Some? ==> x.value in h.log && x.value.session == s)
    ensures HistoryMeans(h, Or(IfHistory(x), o), s)
  {
  }

  lemma HistoryReadingsMean(workspace: nat, run: seq<Action>, e: Event, n: nat)
    requires HistoryMeans(After(START, workspace, run), HistoryOrigin(workspace, run, e.session), e.session)
    requires Fitting(Log(workspace, run), e)
    ensures HistoryMeans(After(START, workspace, run), HistoryReadings(workspace, run, e, n), e.session)
  {
    var h, before := After(START, workspace, run), HistoryOrigin(workspace, run, e.session);
    var task, last := TaskRead(workspace, run, e, n), SessionRead(workspace, run, e, n);
    TaskReadIsEarlier(workspace, run, e, n);
    SessionReadIsLast(workspace, run, e, n);
    OrHistoryMeans(h, task, before, e.session);
    OrHistoryMeans(h, last, Or(IfHistory(task), before), e.session);
    var listed := if n >= 3 && before.NoAction? then Last(h.log, ListedOf(e.session)) else None;
    OrHistoryMeans(h, listed, Or(IfHistory(last), Or(IfHistory(task), before)), e.session);
  }

  lemma HistoryMovesMean(workspace: nat, run: seq<Action>, a: Action, s: nat)
    requires HistoryMeans(After(START, workspace, run), HistoryOrigin(workspace, run, s), s)
    requires Calls(a) ==> Fitting(Log(workspace, run), a.e)
    requires !((a.Record? || a.AbandonRecord?) && a.e.session == s && IsHistory(a.e))
    ensures HistoryMeans(After(START, workspace, run), HistoryAfter(workspace, run, a, s), s)
  {
    var h, before := After(START, workspace, run), HistoryOrigin(workspace, run, s);
    if Calls(a) {
      assert HistoryAfter(workspace, run, a, s) == HistoryRead(workspace, run, a, s);
      if a.e.session == s { HistoryReadingsMean(workspace, run, a.e, ReadingsOf(a)); }
    } else if a.RefreshHistory? {
      if a.session == s { OrHistoryMeans(h, Last(h.log, ListedOf(s)), before, s); }
    }
  }

  lemma HistoryMeansStep(workspace: nat, run: seq<Action>, a: Action, s: nat)
    requires HistoryMeans(After(START, workspace, run), HistoryOrigin(workspace, run, s), s)
    requires Calls(a) ==> Fitting(Log(workspace, run), a.e)
    ensures HistoryMeans(Apply(After(START, workspace, run), workspace, a), HistoryAfter(workspace, run, a, s), s)
  {
    var h := After(START, workspace, run);
    if a.Record? && a.e.session == s && IsHistory(a.e) {
      RecordIsLast(h, workspace, a.e, HistoryOf(s));
    } else if !a.Restart? && !(a.AbandonRecord? && a.e.session == s && IsHistory(a.e)) {
      StepGrows(h, workspace, a, HistoryOf(s));
      HistoryMovesMean(workspace, run, a, s);
      HistoryKept(h, Apply(h, workspace, a), HistoryAfter(workspace, run, a, s), s);
    }
  }

  lemma EnabledFits(workspace: nat, owner: map<nat, nat>, run: seq<Action>, a: Action)
    requires IsRun(START, workspace, owner, run) && Enabled(After(START, workspace, run), owner, a) && Calls(a)
    ensures Fitting(Log(workspace, run), a.e) && Fits(a.e, owner)
  {
    RunInv(workspace, owner, run);
  }

  /** Over every run: the head of a session that a record left is its last recorded event, that of an
      abandoned record was never stored, and that of a reading is some event recorded there; for a task a
      reading too leaves the last event; and likewise for the history of a session. */
  lemma {:induction false} OriginsMean(workspace: nat, owner: map<nat, nat>, run: seq<Action>, s: nat, t: nat)
    requires IsRun(START, workspace, owner, run)
    ensures
      var h := After(START, workspace, run);
      && SessionMeans(h, SessionOrigin(workspace, run, s), s)
      && TaskMeans(h, TaskOrigin(workspace, run, t), t)
      && HistoryMeans(h, HistoryOrigin(workspace, run, s), s)
    decreases |run|
  {
    if run != [] {
      var front, a := run[..|run| - 1], run[|run| - 1];
      OriginsMean(workspace, owner, front, s, t);
      if Calls(a) { EnabledFits(workspace, owner, front, a); }
      RunInv(workspace, owner, front);
      SessionMeansStep(workspace, front, a, s);
      TaskMeansStep(workspace, owner, front, a, t);
      HistoryMeansStep(workspace, front, a, s);
    }
  }

  /** Over every run: each head is what the last action on it left, and it names an event that was never
      stored if and only if that action was an abandoned record. */
  lemma HeadsAreLeftBy(workspace: nat, owner: map<nat, nat>, run: seq<Action>, s: nat, t: nat)
    requires IsRun(START, workspace, owner, run)
    ensures
      var h := After(START, workspace, run);
      var session, task, history :=
        SessionOrigin(workspace, run, s), TaskOrigin(workspace, run, t), HistoryOrigin(workspace, run, s);
      && Get(h.ledger.sessionHeads, s) == IdIn(session)
      && Get(h.ledger.taskHeads, t) == IdIn(task)
      && Get(h.ledger.contextHeads, s) == IdIn(history)
      && (IsAbandoned(h, IdIn(session)) <==> session.FromAbandoned?)
      && (IsAbandoned(h, IdIn(task)) <==> task.FromAbandoned?)
      && (IsAbandoned(h, IdIn(history)) <==> history.FromAbandoned?)
  {
    HeadsComeFromActions(workspace, owner, run);
    OriginsMean(workspace, owner, run, s, t);
    RunInv(workspace, owner, run);
  }

  ghost predicate IsAbandoned(h: Host, id: Option<nat>) { id.Some? && id.value in h.abandoned }

  // ---------------------------------------------------------------- a head that is history is known as such

  ghost predicate NotHistory(h: Host, s: nat, head: Option<nat>) {
    head.Some? ==> !HistoryId(h.log, s, head.value)
  }

  /** While the ledger knows of no history in a session, none of its heads there is history. */
  ghost predicate Unhistoric(h: Host, owner: map<nat, nat>, s: nat) {
    s !in h.ledger.contextHeads ==>
      && NotHistory(h, s, Get(h.ledger.sessionHeads, s))
      && (forall t | t in owner && owner[t] == s :: NotHistory(h, s, Get(h.ledger.taskHeads, t)))
  }

  lemma FoundIsNotHistory(h: Host, x: Event, s: nat)
    requires UniqueIds(h.log) && x in h.log && !IsHistory(x)
    ensures !HistoryId(h.log, s, x.id)
  {
    forall y | y in h.log && y.id == x.id ensures y == x { SameId(h.log, x, y); }
  }

  lemma RecallUnhistoric(h: Host, owner: map<nat, nat>, e: Event, n: nat, s: nat)
    requires Inv(h, owner) && Fits(e, owner) && Unhistoric(h, owner, s)
    ensures Unhistoric(h.(ledger := RecallSome(h.ledger, h.log, e, n)), owner, s)
  {
    var k := h.(ledger := RecallSome(h.ledger, h.log, e, n));
    RecalledHistory(h.ledger, h.log, e, n, s);
    RecalledSessions(h.ledger, h.log, e, n, s);
    if s !in k.ledger.contextHeads {
      if s == e.session { ReadingsUnhistoric(h, e, n); }
      forall t | t in owner && owner[t] == s ensures NotHistory(k, s, Get(k.ledger.taskHeads, t)) {
        RecalledTasks(h.ledger, h.log, e, n, t);
        ReadingsOwned(h, owner, e, n, t);
        assert NotHistory(h, s, Get(h.ledger.taskHeads, t));
      }
    }
  }

  lemma ReadingsUnhistoric(h: Host, e: Event, n: nat)
    requires UniqueIds(h.log) && e.session !in RecallSome(h.ledger, h.log, e, n).contextHeads
    ensures NotHistory(h, e.session, IdOf(Until(TaskFound(h.ledger, h.log, e), n >= 1)))
    ensures NotHistory(h, e.session, IdOf(Until(SessionFound(h.ledger, h.log, e), n >= 2)))
  {
    var task, last := Until(TaskFound(h.ledger, h.log, e), n >= 1), Until(SessionFound(h.ledger, h.log, e), n >= 2);
    RecalledHistory(h.ledger, h.log, e, n, e.session);
    if task.Some? { FoundIsNotHistory(h, task.value, e.session); }
    if last.Some? { FoundIsNotHistory(h, last.value, e.session); }
  }

  lemma ReadingsOwned(h: Host, owner: map<nat, nat>, e: Event, n: nat, t: nat)
    requires Owned(h.log, owner) && t in owner
    ensures
      var task, last := Until(TaskFound(h.ledger, h.log, e), n >= 1), Until(SessionFound(h.ledger, h.log, e), n >= 2);
      && (task.Some? && task.value.task == Some(t) ==> owner[t] == e.session)
      && (last.Some? && last.value.task == Some(t) ==> owner[t] == e.session)
  {
  }

  lemma NewIsNotHistory(h: Host, workspace: nat, s: nat, e: Event, id: Option<nat>)
    requires NotHistory(h, s, id) && !(e.session == s && IsHistory(e))
    ensures NotHistory(Recorded(h, workspace, e), s, id)
  {
    EnrichedKeeps(Recall(h.ledger, h.log, e), workspace, e);
  }

  lemma RecordUnhistoric(h: Host, workspace: nat, owner: map<nat, nat>, e: Event, s: nat)
    requires Inv(h, owner) && Enabled(h, owner, Record(e)) && Unhistoric(h, owner, s)
    ensures Unhistoric(Recorded(h, workspace, e), owner, s)
  {
    var k, r := Recorded(h, workspace, e), h.(ledger := Recall(h.ledger, h.log, e));
    RecallUnhistoric(h, owner, e, ALL_READINGS, s);
    HistoryElsewhereOrNoted(h, workspace, e, s);
    if s !in k.ledger.contextHeads {
      EnrichedKeeps(Recall(h.ledger, h.log, e), workspace, e);
      NewIsNotHistory(h, workspace, s, e, Some(e.id));
      NewIsNotHistory(h, workspace, s, e, Get(r.ledger.sessionHeads, s));
      forall t | t in owner && owner[t] == s ensures NotHistory(k, s, Get(k.ledger.taskHeads, t)) {
        TaskNoted(h, workspace, e, t);
        assert NotHistory(r, s, Get(r.ledger.taskHeads, t));
        NewIsNotHistory(h, workspace, s, e, Get(r.ledger.taskHeads, t));
      }
    }
  }

  lemma HistoryElsewhereOrNoted(h: Host, workspace: nat, e: Event, s: nat)
    ensures
      Get(Noted(h, workspace, e).contextHeads, s) ==
      if e.session == s && IsHistory(e) then Some(e.id) else Get(Recall(h.ledger, h.log, e).contextHeads, s)
  {
    EnrichedKeeps(Recall(h.ledger, h.log, e), workspace, e);
  }

  lemma AbandonUnhistoric(h: Host, workspace: nat, owner: map<nat, nat>, e: Event, s: nat)
    requires Inv(h, owner) && Enabled(h, owner, AbandonRecord(e)) && Unhistoric(h, owner, s)
    ensures Unhistoric(Apply(h, workspace, AbandonRecord(e)), owner, s)
  {
    var k, r := Apply(h, workspace, AbandonRecord(e)), h.(ledger := Recall(h.ledger, h.log, e));
    RecallUnhistoric(h, owner, e, ALL_READINGS, s);
    HistoryElsewhereOrNoted(h, workspace, e, s);
    if s !in k.ledger.contextHeads {
      EnrichedKeeps(Recall(h.ledger, h.log, e), workspace, e);
      forall t | t in owner && owner[t] == s ensures NotHistory(k, s, Get(k.ledger.taskHeads, t)) {
        TaskNoted(h, workspace, e, t);
        assert NotHistory(r, s, Get(r.ledger.taskHeads, t));
      }
    }
  }

  lemma RefreshUnhistoric(h: Host, owner: map<nat, nat>, session: nat, s: nat)
    requires Unhistoric(h, owner, s)
    ensures Unhistoric(h.(ledger := Refreshed(h.ledger, h.log, session)), owner, s)
  {
    var k := h.(ledger := Refreshed(h.ledger, h.log, session));
    if s !in k.ledger.contextHeads {
      assert s !in h.ledger.contextHeads;
      forall t | t in owner && owner[t] == s ensures NotHistory(k, s, Get(k.ledger.taskHeads, t)) {
        assert NotHistory(h, s, Get(h.ledger.taskHeads, t));
      }
    }
  }

  lemma {:induction false} HeadsUnhistoric(workspace: nat, owner: map<nat, nat>, run: seq<Action>, s: nat)
    requires IsRun(START, workspace, owner, run)
    ensures Unhistoric(After(START, workspace, run), owner, s)
    decreases |run|
  {
    if run != [] {
      var front, a := run[..|run| - 1], run[|run| - 1];
      var h := After(START, workspace, front);
      HeadsUnhistoric(workspace, owner, front, s);
      RunInv(workspace, owner, front);
      match a {
        case Record(e) => RecordUnhistoric(h, workspace, owner, e, s);
        case AbandonRecord(e) => AbandonUnhistoric(h, workspace, owner, e, s);
        case AbandonRecall(e, n) => RecallUnhistoric(h, owner, e, n, s);
        case RefreshHistory(session) => RefreshUnhistoric(h, owner, session, s);
        case _ =>
      }
    }
  }
}
