/** What the refresh protocol promises, in every interleaving. */
module OAuthLaws {
  import opened Options
  import opened OAuthRefresh
  import opened OAuthInvariants

  /** The states some run can reach after a login. */
  ghost predicate Reachable(s: State) {
    exists serviceOf, services, first, loggedIn, now, run ::
      Reaches(serviceOf, services, first, loggedIn, now, run, s)
  }

  ghost predicate Reaches(
    serviceOf: seq<nat>, services: nat, first: Stored, loggedIn: Option<nat>, now: int, run: seq<Action>, s: State)
  {
    && GoodLogin(serviceOf, services, first)
    && IsRun(Init(serviceOf, services, first, loggedIn, now), run)
    && s == After(Init(serviceOf, services, first, loggedIn, now), run)
  }

  lemma ReachableInv(s: State)
    requires Reachable(s)
    ensures Inv(s)
  {
    var serviceOf, services, first, loggedIn, now, run :| Reaches(serviceOf, services, first, loggedIn, now, run, s);
    InitInv(serviceOf, services, first, loggedIn, now);
    RunInv(Init(serviceOf, services, first, loggedIn, now), run);
  }

  // ---------------------------------------------------------------- rotation

  /** Rotation safety, with its exact condition: a refresh request presents the token the server
      issued last if and only if that token was saved when the request's caller read the store, and no
      request handled between that reading and the arrival has rotated it.  Otherwise it had come to one
      of the harms: lost, adrift, or overwritten before the reading, or rotated after it.  A request
      that reads a saved token never sends one that was rotated away before the reading; and what is
      handled between the reading and the arrival of a request that is waited for had gone astray. */
  lemma RotationSafety(s: State)
    requires Reachable(s)
    ensures forall m | 0 <= m < |s.server.log| ::
              var r := s.server.log[m];
              && r.since <= m && !r.fate.Held?
              && (r.token == r.current <==> r.fate.Saved? && Calmly(s.server.log, r.since, m))
    ensures forall k, m | 0 <= k < m < |s.server.log| && k < s.server.log[m].since ::
              s.server.log[k].rotated && s.server.log[m].fate.Saved? ==> s.server.log[m].token != s.server.log[k].token
    ensures forall k, m | 0 <= k < m < |s.server.log| && s.server.log[m].since <= k ::
              !s.server.log[m].late ==> s.server.log[k].late
  {
    ReachableInv(s);
    forall m | 0 <= m < |s.server.log| ensures PresentsOk(s.server.log, m) && EntryOk(s, s.server.log[m]) {}
    forall k, m | 0 <= k < m < |s.server.log| && k < s.server.log[m].since
      ensures s.server.log[k].rotated && s.server.log[m].fate.Saved? ==> s.server.log[m].token != s.server.log[k].token
    {
      assert PairOk(s.server.log[k], k, s.server.log[m]);
    }
  }

  /** The stored token is the server's exactly while the last rotation is saved. */
  lemma StoredTokenIsCurrent(s: State)
    requires Reachable(s) && s.store.Some? && s.store.value.refresh.Some?
    ensures s.store.value.refresh.value == s.server.current <==> s.fate.Saved?
  {
    ReachableInv(s);
  }

  /** The last rotation is adrift exactly while the write of its own answer is unfinished, and held
      exactly while the holder of the lock file has the answer; an unfinished write would restore the
      current token exactly if no request after its own has rotated it. */
  lemma FateIsVisible(s: State)
    requires Reachable(s)
    ensures s.fate.Adrift? <==> s.rotation >= 1 && s.rotation - 1 in s.orphans && s.orphans[s.rotation - 1].Write?
    ensures s.fate.Held? <==> Ahead(s)
    ensures forall k | k in s.orphans && s.orphans[k].Write? ::
              s.orphans[k].refresh == Some(s.server.current) <==> k + 1 >= s.rotation
  {
    ReachableInv(s);
    AdriftIsVisible(s);
    HeldIsVisible(s);
  }

  lemma AdriftIsVisible(s: State)
    requires OrphanInv(s)
    ensures s.fate.Adrift? <==> s.rotation >= 1 && s.rotation - 1 in s.orphans && s.orphans[s.rotation - 1].Write?
    ensures forall k | k in s.orphans && s.orphans[k].Write? ::
              s.orphans[k].refresh == Some(s.server.current) <==> k + 1 >= s.rotation
  {
    forall k | k in s.orphans ensures OrphanOk(s, k) {}
  }

  lemma HeldIsVisible(s: State)
    requires TokenInv(s) && CallInv(s)
    ensures s.fate.Held? <==> Ahead(s)
  {
    if Ahead(s) { assert CallOk(s, s.fileLock.value); }
  }

  // ---------------------------------------------------------------- runs without harm

  /** What can harm a rotation: its answer is lost, storing it fails, the call is dropped meanwhile, or the
      request was not waited for. */
  predicate Harms(s: State, a: Action)
    requires Enabled(s, a)
  {
    || (a.Send? && a.reply.AnswerLost?)
    || (a.Settle? && a.effect.FailsBefore?)
    || (a.Cancel? && HasGrant(s.callers[a.i].stage))
    || (a.Arrive? && a.rotates)
  }

  predicate NeverHarms(s: State, run: seq<Action>)
    requires IsRun(s, run)
    decreases |run|
  {
    run == [] || (!Harms(s, run[0]) && NeverHarms(Apply(s, run[0]), run[1..]))
  }

  /** Every request that was waited for presented the current token. */
  ghost predicate AllCurrent(log: seq<Request>) {
    forall k | 0 <= k < |log| && !log[k].late :: log[k].token == log[k].current
  }

  ghost predicate Calm(s: State) {
    && (s.fate.Saved? || s.fate.Held?)
    && (forall k | k in s.orphans :: s.orphans[k].Erase?)
    && (forall i | 0 <= i < |s.callers| && (s.callers[i].stage.Deciding? || s.callers[i].stage.Sending?) ::
          s.callers[i].call.fate.Saved? && s.rotation <= s.callers[i].call.since)
    && AllCurrent(s.server.log)
    && (forall k | 0 <= k < |s.server.log| && s.server.log[k].late :: !s.server.log[k].rotated)
  }

  lemma CalmSend(s: State, i: nat, reply: Reply)
    requires Calm(s) && LockInv(s) && CallInv(s) && Enabled(s, Send(i, reply)) && !Harms(s, Send(i, reply))
    ensures Calm(Apply(s, Send(i, reply)))
  {
    assert CallOk(s, i);
    var t, e := Apply(s, Send(i, reply)), MadeRequest(s, s.callers[i].call, Rotating(reply), false);
    assert t.server.log == s.server.log + [e] && e.token == e.current;
    forall k | 0 <= k < |t.callers| ensures !t.callers[k].stage.Deciding? && !t.callers[k].stage.Sending? {
      assert k != i ==> !HoldsFile(s.callers[k].stage);
    }
  }

  lemma CalmSettle(s: State, i: nat, effect: Effect)
    requires Calm(s) && Knows(s, i) && Enabled(s, Settle(i, effect)) && !Harms(s, Settle(i, effect))
    ensures Calm(Apply(s, Settle(i, effect)))
  {
    SettleReshapes(s, i, effect);
    CalmLog(s.server.log, Apply(s, Settle(i, effect)).server.log);
    SettleSaves(s, i, effect);
  }

  lemma SettleSaves(s: State, i: nat, effect: Effect)
    requires Calm(s) && Knows(s, i) && Enabled(s, Settle(i, effect)) && !Harms(s, Settle(i, effect))
    ensures
      var t := Apply(s, Settle(i, effect));
      && (t.fate.Saved? || t.fate.Held?) && t.orphans == s.orphans && t.rotation == s.rotation
      && |t.callers| == |s.callers| && !t.callers[i].stage.Deciding? && !t.callers[i].stage.Sending?
      && forall k | 0 <= k < |s.callers| && k != i :: t.callers[k] == s.callers[k]
  {}

  /** A log that is calm stays so when answers are stored or dropped. */
  lemma CalmLog(a: seq<Request>, b: seq<Request>)
    requires Reshaped(a, b) && AllCurrent(a) && forall k | 0 <= k < |a| && a[k].late :: !a[k].rotated
    ensures AllCurrent(b) && forall k | 0 <= k < |b| && b[k].late :: !b[k].rotated
  {
    forall k | 0 <= k < |b| ensures Alike(a[k], b[k]) {}
  }

  lemma CalmCancel(s: State, i: nat)
    requires Calm(s) && Enabled(s, Cancel(i)) && !Harms(s, Cancel(i))
    ensures Calm(Apply(s, Cancel(i)))
  {
    if s.callers[i].stage.Answered? {
      DropMarks(s, i);
      CalmLog(s.server.log, Apply(s, Cancel(i)).server.log);
    }
  }

  lemma CalmRead(s: State, i: nat)
    requires Calm(s) && TokenInv(s) && LockInv(s) && StoreInv(s) && Enabled(s, ReadLatest(i))
    ensures Calm(Apply(s, ReadLatest(i)))
  {
    NotAhead(s, i);
  }

  /** One caller moves, and does not begin to send. */
  lemma CalmFrame(s: State, t: State, i: nat)
    requires Calm(s) && i < |s.callers| == |t.callers| && t.fate == s.fate && t.orphans == s.orphans
    requires t.server.log == s.server.log && t.rotation == s.rotation
    requires forall k | 0 <= k < |s.callers| && k != i :: t.callers[k] == s.callers[k]
    requires
      t.callers[i].stage.Deciding? || t.callers[i].stage.Sending? ==>
        && s.callers[i].stage.Deciding? && t.callers[i].call.fate == s.callers[i].call.fate
        && t.callers[i].call.since == s.callers[i].call.since
    ensures Calm(t)
  {}

  predicate Aside(a: Action) { a.Land? || a.RevokeGrant? || a.Tick? || a.Arrive? }

  lemma CalmAside(s: State, a: Action)
    requires Calm(s) && Enabled(s, a) && Aside(a) && !Harms(s, a)
    ensures Calm(Apply(s, a))
  {}

  predicate Early(a: Action) {
    a.Begin? || a.Observe? || a.TryFast? || a.LockProcess? || a.Recheck? || a.ReadObserved? || a.LockFile?
  }

  lemma CalmEarly(s: State, a: Action)
    requires Early(a) && Calm(s) && Enabled(s, a)
    ensures Calm(Apply(s, a))
  {
    CalmFrame(s, Apply(s, a), a.i);
  }

  lemma CalmOther(s: State, a: Action)
    requires a.CacheNew? || a.UnlockFile? || a.UnlockProcess? || a.Leave?
    requires Calm(s) && Enabled(s, a)
    ensures Calm(Apply(s, a))
  {
    CalmFrame(s, Apply(s, a), a.i);
  }

  lemma CalmDecide(s: State, i: nat)
    requires Calm(s) && Enabled(s, Decide(i))
    ensures Calm(Apply(s, Decide(i)))
  {
    CalmFrame(s, Apply(s, Decide(i)), i);
  }

  lemma CalmStep(s: State, a: Action)
    requires Inv(s) && Calm(s) && Enabled(s, a) && !Harms(s, a)
    ensures Calm(Apply(s, a))
  {
    match a {
      case Send(i, reply) => CalmSend(s, i, reply);
      case Settle(i, effect) =>
        InvKnows(s, i);
        CalmSettle(s, i, effect);
      case Cancel(i) => CalmCancel(s, i);
      case ReadLatest(i) => CalmRead(s, i);
      case Decide(i) => CalmDecide(s, i);
      case Land(_, _) | RevokeGrant | Tick(_) | Arrive(_, _) => CalmAside(s, a);
      case _ => if Early(a) { CalmEarly(s, a); } else { CalmOther(s, a); }
    }
  }

  lemma {:induction false} CalmRun(s: State, run: seq<Action>)
    requires Inv(s) && Calm(s) && IsRun(s, run) && NeverHarms(s, run)
    ensures Inv(After(s, run)) && Calm(After(s, run))
    decreases |run|
  {
    if run != [] {
      CalmStep(s, run[0]);
      StepInv(s, run[0]);
      CalmRun(Apply(s, run[0]), run[1..]);
    }
  }

  /** Where no answer is lost, no storing fails, no call is dropped while it stores and no request that was
      not waited for rotates the token, every request that is waited for presents the token issued last,
      and none that was rotated away is ever sent again. */
  lemma RotationSafeWithoutHarm(
    serviceOf: seq<nat>, services: nat, first: Stored, loggedIn: Option<nat>, now: int, run: seq<Action>)
    requires GoodLogin(serviceOf, services, first)
    requires var s := Init(serviceOf, services, first, loggedIn, now); IsRun(s, run) && NeverHarms(s, run)
    ensures
      var log := After(Init(serviceOf, services, first, loggedIn, now), run).server.log;
      && (forall k | 0 <= k < |log| && !log[k].late :: log[k].token == log[k].current)
      && (forall k, m | 0 <= k < m < |log| && !log[m].late :: log[k].rotated ==> log[m].token != log[k].token)
  {
    var s := Init(serviceOf, services, first, loggedIn, now);
    InitInv(serviceOf, services, first, loggedIn, now);
    InitKept(serviceOf, services, first, loggedIn, now);
    CalmRun(s, run);
    CalmIsSafe(After(s, run));
  }

  lemma CalmIsSafe(s: State)
    requires Inv(s) && Calm(s)
    ensures forall k | 0 <= k < |s.server.log| && !s.server.log[k].late ::
              s.server.log[k].token == s.server.log[k].current
    ensures forall k, m | 0 <= k < m < |s.server.log| && !s.server.log[m].late ::
              s.server.log[k].rotated ==> s.server.log[m].token != s.server.log[k].token
  {
    forall k, m | 0 <= k < m < |s.server.log| && !s.server.log[m].late
      ensures s.server.log[k].rotated ==> s.server.log[m].token != s.server.log[k].token
    {
      assert PresentsOk(s.server.log, m) && PairOk(s.server.log[k], k, s.server.log[m]);
    }
  }

  // ---------------------------------------------------------------- runs with harm

  lemma {:induction false} RunSnoc(s: State, run: seq<Action>, a: Action)
    requires IsRun(s, run) && Enabled(After(s, run), a)
    ensures IsRun(s, run + [a]) && After(s, run + [a]) == Apply(After(s, run), a)
    decreases |run|
  {
    if run == [] {
      assert run + [a] == [a] && [a][1..] == [];
    } else {
      assert (run + [a])[1..] == run[1..] + [a];
      RunSnoc(Apply(s, run[0]), run[1..], a);
    }
  }

  lemma ReachableStep(s: State, a: Action)
    requires Reachable(s) && Enabled(s, a)
    ensures Reachable(Apply(s, a))
  {
    var serviceOf, services, first, loggedIn, now, run :| Reaches(serviceOf, services, first, loggedIn, now, run, s);
    RunSnoc(Init(serviceOf, services, first, loggedIn, now), run, a);
    assert Reaches(serviceOf, services, first, loggedIn, now, run + [a], Apply(s, a));
  }

  /** Caller 0 stands at `stage`, forced, with nobody else about, and store and server as in `s`. */
  predicate Standing(s: State, t: State, stage: Stage) {
    && At(t, 0, stage) && |t.callers| == 1
    && t.store == s.store && t.server == s.server && t.fate == s.fate && t.rotation == s.rotation
      && t.orphans == s.orphans && t.astray == s.astray
    && t.nextRevision == s.nextRevision
  }

  /** Nobody is inside, and there is a token to refresh with. */
  predicate Resting(s: State) {
    && Standing(s, s, Idle) && s.fileLock.None? && s.services[s.callers[0].service].lock.None?
    && s.store.Some? && s.store.value.refresh.Some?
  }

  /** What caller 0 saw in the cache is what is there. */
  predicate SawCache(t: State)
    requires |t.callers| > 0 && t.callers[0].service < |t.services|
  {
    var v := t.services[t.callers[0].service];
    t.callers[0].call.seen == if v.cache.Some? then Some(v.cache.value.revision) else None
  }

  lemma StepToFast(s: State) returns (t: State)
    requires Reachable(s) && Resting(s)
    ensures Reachable(t) && Standing(s, t, FastPath) && t.fileLock.None? && t.callers[0].call.force && SawCache(t)
    ensures t.services[t.callers[0].service].lock.None?
  {
    ReachableStep(s, Begin(0, true));
    t := Apply(s, Begin(0, true));
    ReachableStep(t, Observe(0));
    t := Apply(t, Observe(0));
  }

  lemma StepToRecheck(s: State) returns (t: State)
    requires Reachable(s) && Resting(s)
    ensures Reachable(t) && Standing(s, t, Rechecking) && t.fileLock.None? && t.callers[0].call.force && SawCache(t)
  {
    t := StepToFast(s);
    ReachableStep(t, TryFast(0));
    t := Apply(t, TryFast(0));
    ReachableStep(t, LockProcess(0));
    t := Apply(t, LockProcess(0));
  }

  lemma StepToRead(s: State) returns (t: State)
    requires Reachable(s) && Resting(s)
    ensures Reachable(t) && Standing(s, t, ReadingObserved) && t.fileLock.None? && t.callers[0].call.force
  {
    t := StepToRecheck(s);
    ReachableStep(t, Recheck(0));
    t := Apply(t, Recheck(0));
  }

  lemma StepToFile(s: State) returns (t: State)
    requires Reachable(s) && Resting(s)
    ensures Reachable(t) && Standing(s, t, ReadingLatest) && t.callers[0].call.force && t.fileLock == Some(0)
    ensures t.callers[0].call.observed == s.store.value.revision
  {
    t := StepToRead(s);
    ReachableStep(t, ReadObserved(0));
    t := Apply(t, ReadObserved(0));
    ReachableStep(t, LockFile(0));
    t := Apply(t, LockFile(0));
  }

  /** A forced call of a resting service gets to send the stored token. */
  lemma StepToSend(s: State) returns (t: State)
    requires Reachable(s) && Resting(s)
    ensures Reachable(t) && Standing(s, t, Sending)
    ensures t.callers[0].call.stored == s.store.value && t.callers[0].call.fate == s.fate
    ensures t.callers[0].call.since == |s.server.log| && t.fileLock == Some(0)
  {
    t := StepToFile(s);
    ReachableStep(t, ReadLatest(0));
    t := Apply(t, ReadLatest(0));
    ReachableStep(t, Decide(0));
    t := Apply(t, Decide(0));
  }

  lemma FirstRest() returns (s: State)
    ensures Reachable(s) && Resting(s)
    ensures s.store == Some(Stored(0, Some(0), None, None)) && s.server == Server(0, 1, 1, false, [])
    ensures s.fate.Saved? && s.rotation == 0 && s.orphans == map[] && s.astray == [] && s.nextRevision == 1
  {
    var first := Stored(0, Some(0), None, None);
    s := Init([0], 1, first, None, 0);
    RunNil(s);
    assert Reaches([0], 1, first, None, 0, [], s);
  }

  /** A rotated token can be lost: the answer never arrives, and the store keeps a dead token. */
  lemma AnswerCanBeLost() returns (s: State)
    ensures Reachable(s) && s.fate.Lost? && s.store.Some? && s.store.value.refresh.Some?
    ensures s.store.value.refresh.value != s.server.current
  {
    s := FirstRest();
    s := StepToSend(s);
    ReachableStep(s, Send(0, AnswerLost));
    s := Apply(s, Send(0, AnswerLost));
  }

  lemma RotatedThenDropped() returns (s: State)
    ensures Reachable(s) && Resting(s) && s.store == Some(Stored(0, Some(0), None, None))
    ensures s.fate.Adrift? && s.rotation == 1
    ensures s.server.current == 1 && |s.server.log| == 1 && !s.server.revoked
    ensures s.server.log[0].rotated && s.server.log[0].token == 0
  {
    var t := FirstRest();
    t := StepToSend(t);
    ReachableStep(t, Send(0, Rotates(None)));
    t := Apply(t, Send(0, Rotates(None)));
    assert t.callers[0].call.request == 0 && |t.server.log| == 1;
    ReachableStep(t, Cancel(0));
    s := Apply(t, Cancel(0));
  }

  /** It can be adrift: the call is dropped while it stores the answer, its locks are free, and the
      next call sends the old token once more. */
  lemma DroppedWriteIsOvertaken() returns (s: State)
    ensures Reachable(s) && s.fate.Adrift? && |s.server.log| == 2
    ensures s.server.log[0].rotated && s.server.log[1].token == s.server.log[0].token
    ensures s.server.log[1].fate.Adrift? && s.server.log[1].token != s.server.log[1].current
    ensures At(s, 0, Answered(Rejected)) && !s.server.revoked
  {
    var t := RotatedThenDropped();
    s := StepToSend(t);
    ReachableStep(s, Send(0, Rejects));
    s := Apply(s, Send(0, Rejects));
  }

  /** ... which is refused, so that the secret is deleted although nobody revoked the grant. */
  lemma DroppedWriteCanCostTheSecret() returns (s: State)
    ensures Reachable(s) && s.store.None? && !s.server.revoked && s.fate.Adrift?
  {
    var t := DroppedWriteIsOvertaken();
    s := RefusalDeletes(t);
  }

  lemma KeptAnswered() returns (s: State)
    ensures Reachable(s) && At(s, 0, Answered(Granted(1, None, None, false))) && |s.callers| == 1
    ensures s.callers[0].call.request == 0 && s.callers[0].call.stored == Stored(0, Some(0), None, None)
    ensures s.store == Some(Stored(0, Some(0), None, None)) && s.fate.Saved? && s.rotation == 0
    ensures s.server.current == 0 && s.server.nextRefresh == 1 && s.server.nextAccess == 2
    ensures |s.server.log| == 1 && !s.server.revoked
  {
    var t := FirstRest();
    t := StepToSend(t);
    ReachableStep(t, Send(0, Keeps(None, false)));
    s := Apply(t, Send(0, Keeps(None, false)));
  }

  lemma KeptThenDropped() returns (s: State)
    ensures Reachable(s) && Resting(s) && s.store == Some(Stored(0, Some(0), None, None))
    ensures s.fate.Saved? && s.rotation == 0 && 0 in s.orphans && s.orphans[0] == Write(Some(0), 1, None)
    ensures s.server.current == 0 && s.server.nextRefresh == 1 && s.server.nextAccess == 2
    ensures |s.server.log| == 1 && !s.server.revoked
  {
    var t := KeptAnswered();
    ReachableStep(t, Cancel(0));
    s := Apply(t, Cancel(0));
  }

  lemma HeldMeanwhile() returns (s: State)
    ensures Reachable(s) && At(s, 0, Answered(Granted(2, Some(1), None, true)))
    ensures s.callers[0].call.request == 1 && s.rotation == 2 && |s.server.log| == 2 && s.server.current == 1
    ensures 0 in s.orphans && s.orphans[0] == Write(Some(0), 1, None)
  {
    var t := KeptThenDropped();
    t := StepToSend(t);
    ReachableStep(t, Send(0, Rotates(None)));
    s := Apply(t, Send(0, Rotates(None)));
  }

  lemma RotatedMeanwhile() returns (s: State)
    ensures Reachable(s) && s.fate.Saved? && s.rotation == 2 && |s.server.log| == 2 && s.server.current == 1
    ensures 0 in s.orphans && s.orphans[0] == Write(Some(0), 1, None)
  {
    var t := HeldMeanwhile();
    ReachableStep(t, Settle(0, Succeeds));
    s := Apply(t, Settle(0, Succeeds));
  }

  /** And it can be overwritten: a write that was adrift since before the rotation lands on it. */
  lemma LateWriteOverwrites() returns (s: State)
    ensures Reachable(s) && s.fate.Overwritten? && s.store.Some? && s.store.value.refresh.Some?
    ensures s.store.value.refresh.value != s.server.current
  {
    var t := RotatedMeanwhile();
    ReachableStep(t, Land(0, true));
    s := Apply(t, Land(0, true));
  }

  lemma GaveUp() returns (s: State)
    ensures Reachable(s) && At(s, 0, ReleasingFile) && |s.callers| == 1 && s.fileLock == Some(0)
    ensures s.store == Some(Stored(0, Some(0), None, None))
    ensures s.fate.Saved? && s.rotation == 0 && s.server == Server(0, 1, 1, false, [])
    ensures |s.astray| == 1 && s.astray[0].stored.refresh == Some(0)
  {
    var t := FirstRest();
    t := StepToSend(t);
    ReachableStep(t, Leave(0, false));
    s := Apply(t, Leave(0, false));
  }

  /** A call gives up waiting for the server: its locks are free and its request is still under way. */
  lemma TimedOut() returns (s: State)
    ensures Reachable(s) && Resting(s) && s.store == Some(Stored(0, Some(0), None, None))
    ensures s.fate.Saved? && s.rotation == 0 && s.server == Server(0, 1, 1, false, [])
    ensures |s.astray| == 1 && s.astray[0].stored.refresh == Some(0)
  {
    var t := GaveUp();
    ReachableStep(t, UnlockFile(0));
    t := Apply(t, UnlockFile(0));
    ReachableStep(t, UnlockProcess(0));
    s := Apply(t, UnlockProcess(0));
  }

  lemma RotatedLate() returns (s: State)
    ensures Reachable(s) && At(s, 0, Sending) && |s.callers| == 1 && s.fate.Lost? && !s.server.revoked
    ensures s.callers[0].call.stored.refresh == Some(0) && s.callers[0].call.fate.Saved? && s.callers[0].call.since == 0
    ensures s.server.current == 1 && |s.server.log| == 1 && s.server.log[0].late && s.server.log[0].rotated
  {
    var t := TimedOut();
    t := StepToSend(t);
    ReachableStep(t, Arrive(0, true));
    s := Apply(t, Arrive(0, true));
  }

  /** And it can be rotated after the reading: the server handles a request whose call has given up between
      another call's reading and its own request, which then presents a token that was saved when it was
      read and is not the current one. */
  lemma LateRequestOvertakes() returns (s: State)
    ensures Reachable(s) && |s.server.log| == 2 && At(s, 0, Answered(Rejected)) && !s.server.revoked
    ensures s.server.log[1].fate.Saved? && !s.server.log[1].late
    ensures s.server.log[1].token != s.server.log[1].current
    ensures s.server.log[0].late && s.server.log[0].rotated && s.server.log[1].since == 0
  {
    var t := RotatedLate();
    ReachableStep(t, Send(0, Rejects));
    s := Apply(t, Send(0, Rejects));
  }

  lemma RefusalDeletes(s: State) returns (t: State)
    requires Reachable(s) && At(s, 0, Answered(Rejected))
    ensures Reachable(t) && t.store.None? && t.server == s.server && t.fate == s.fate
  {
    ReachableStep(s, Settle(0, Succeeds));
    t := Apply(s, Settle(0, Succeeds));
  }

  /** ... and is refused, so that the secret is deleted, although every token was saved when it was read. */
  lemma LateRequestCanCostTheSecret() returns (s: State)
    ensures Reachable(s) && s.store.None? && !s.server.revoked
    ensures forall k | 0 <= k < |s.server.log| && !s.server.log[k].late :: s.server.log[k].fate.Saved?
  {
    var t := LateRequestOvertakes();
    assert forall k | 0 <= k < |t.server.log| && !t.server.log[k].late :: t.server.log[k].fate.Saved?;
    s := RefusalDeletes(t);
  }

  lemma RunNil(s: State)
    ensures IsRun(s, []) && After(s, []) == s
  {}

  // ---------------------------------------------------------------- single flight

  /** Across services: once one request's result has been stored, a request whose caller reads the
      store after that can only come from a call that had first looked after that, or because the
      stored token was within the margin of its expiry.  A call that stored its own answer has done so
      before the caller of any later request reads the store, unless that request had gone astray before. */
  lemma SingleFlightAcross(s: State, k: nat, m: nat)
    requires Reachable(s) && k < m < |s.server.log|
    requires s.server.log[k].written.Some?
    ensures var w, later := s.server.log[k].written.value, s.server.log[m];
            && (w <= later.revision ==> later.observed >= w || later.staleStore)
            && (!s.server.log[k].orphaned && (k < later.since || !later.late) ==> w <= later.revision)
            && (!later.force ==> later.staleStore)
  {
    ReachableInv(s);
    assert EntryOk(s, s.server.log[m]);
    assert PairOk(s.server.log[k], k, s.server.log[m]);
  }

  lemma LatestSameEarly(s: State, a: Action, j: nat)
    requires Enabled(s, a) && j < |s.services| && Early(a)
    ensures j < |Apply(s, a).services| && Apply(s, a).services[j].latest == s.services[j].latest
  {}

  lemma LatestSame(s: State, a: Action, j: nat)
    requires Enabled(s, a) && j < |s.services| && !a.Decide? && !a.CacheNew?
    ensures j < |Apply(s, a).services| && Apply(s, a).services[j].latest == s.services[j].latest
  {
    if Early(a) { LatestSameEarly(s, a, j); }
  }

  lemma DecideLatest(s: State, i: nat, j: nat)
    requires Enabled(s, Decide(i)) && CallOk(s, i) && j < |s.services|
    ensures Grows(s.services[j].latest, Apply(s, Decide(i)).services[j].latest)
  {}

  lemma CacheNewLatest(s: State, i: nat, j: nat)
    requires Enabled(s, CacheNew(i)) && CallOk(s, i) && j < |s.services|
    ensures Grows(s.services[j].latest, Apply(s, CacheNew(i)).services[j].latest)
    ensures j == s.callers[i].service ==>
              var before, after := s.services[j].latest, Apply(s, CacheNew(i)).services[j].latest;
              after.Some? && (before.Some? ==> before.value < after.value)
  {}

  /** What a service has cached only moves forward. */
  lemma LatestGrows(s: State, a: Action, j: nat)
    requires Inv(s) && Enabled(s, a) && j < |s.services|
    ensures j < |Apply(s, a).services| && Grows(s.services[j].latest, Apply(s, a).services[j].latest)
  {
    if a.Decide? {
      DecideLatest(s, a.i, j);
    } else if a.CacheNew? {
      CacheNewLatest(s, a.i, j);
    } else {
      LatestSame(s, a, j);
    }
  }

  lemma {:induction false} LatestGrowsRun(s: State, run: seq<Action>, j: nat)
    requires Inv(s) && IsRun(s, run) && j < |s.services|
    ensures j < |After(s, run).services| && Grows(s.services[j].latest, After(s, run).services[j].latest)
    decreases |run|
  {
    if run != [] {
      LatestGrows(s, run[0], j);
      StepInv(s, run[0]);
      LatestGrowsRun(Apply(s, run[0]), run[1..], j);
    }
  }

  /** Within a service: caller `i` looked at the cache in `s`; afterwards `k` cached the token
      it had fetched; when `i` then gets the in-process lock, and the cache was not lost to a
      failed refresh meanwhile and its token is not about to expire, `i` is served from the
      cache and goes on to release the lock: it sends no request. */
  lemma SingleFlightWithin(s: State, before: seq<Action>, k: nat, later: seq<Action>, i: nat)
    requires Reachable(s) && IsRun(s, before)
    requires Enabled(After(s, before), CacheNew(k))
    requires IsRun(Apply(After(s, before), CacheNew(k)), later)
    requires var t := After(Apply(After(s, before), CacheNew(k)), later);
             && At(t, i, Rechecking)
             && var j := t.callers[i].service;
             && j < |s.services| && After(s, before).callers[k].service == j
             && t.callers[i].call.latestSeen == s.services[j].latest
             && !t.services[j].broken
             && (t.services[j].cache.Some? ==> IsFresh(t.services[j].cache.value.expiresAt, t.now))
    ensures var t := After(Apply(After(s, before), CacheNew(k)), later);
            var u := Apply(t, Recheck(i));
            At(u, i, ReleasingProcess) && u.callers[i].call.result.Yielded?
  {
    ReachableInv(s);
    RunInv(s, before);
    var w := After(s, before);
    var j := w.callers[k].service;
    LatestGrowsRun(s, before, j);
    CacheNewLatest(w, k, j);
    StepInv(w, CacheNew(k));
    var x := Apply(w, CacheNew(k));
    LatestGrowsRun(x, later, j);
    RunInv(x, later);
    CacheMustServe(After(x, later), i);
  }

  lemma CacheMustServe(t: State, i: nat)
    requires Inv(t) && At(t, i, Rechecking)
    requires var v := t.services[t.callers[i].service];
             v.latest != t.callers[i].call.latestSeen && !v.broken
               && (v.cache.Some? ==> IsFresh(v.cache.value.expiresAt, t.now))
    ensures var u := Apply(t, Recheck(i));
            At(u, i, ReleasingProcess) && u.callers[i].call.result.Yielded?
  {
    assert CallOk(t, i) && ServiceOk(t, t.callers[i].service);
  }

  /** A forced call never hands back the token it was told to replace: what it yields is of a
      later revision than the one it saw in the cache when it started. */
  lemma ForcedYieldsNewer(s: State, i: nat)
    requires Reachable(s) && i < |s.callers|
    requires var call := s.callers[i].call; call.force && call.result.Yielded? && call.seen.Some?
    ensures s.callers[i].call.result.revision > s.callers[i].call.seen.value
  {
    ReachableInv(s);
    assert CallOk(s, i);
  }

  /** At most one call is at refreshing, whatever the number of services.  This counts calls: requests whose
      calls have given up may be at the server besides. */
  lemma OneRefresherAtATime(s: State, i: nat, k: nat)
    requires Reachable(s) && i < |s.callers| && k < |s.callers|
    requires Refreshing(s.callers[i].stage) && Refreshing(s.callers[k].stage)
    ensures i == k
  {
    ReachableInv(s);
  }

  // ---------------------------------------------------------------- progress

  predicate OwnStep(a: Action) {
    !a.Begin? && !a.Cancel? && !a.Land? && !a.Arrive? && !a.RevokeGrant? && !a.Tick?
  }

  ghost predicate SomeoneCanMove(s: State) {
    exists a: Action :: OwnStep(a) && Enabled(s, a)
  }

  lemma FileHolderMoves(s: State, i: nat)
    requires i < |s.callers| && s.callers[i].service < |s.services| && CallOk(s, i) && HoldsFile(s.callers[i].stage)
    ensures SomeoneCanMove(s)
  {
    var a := match s.callers[i].stage
      case ReadingLatest => ReadLatest(i)
      case Deciding => Decide(i)
      case Sending => Send(i, Unreachable)
      case Answered(_) => Settle(i, Succeeds)
      case Caching(_) => CacheNew(i)
      case _ => UnlockFile(i);
    assert OwnStep(a) && Enabled(s, a);
  }

  lemma ProcessHolderMoves(s: State, i: nat)
    requires i < |s.callers| && s.callers[i].service < |s.services| && CallOk(s, i)
    requires HoldsProcess(s.callers[i].stage) && !HoldsFile(s.callers[i].stage) && s.fileLock.None?
    ensures SomeoneCanMove(s)
  {
    var a := match s.callers[i].stage
      case Rechecking => Recheck(i)
      case ReadingObserved => ReadObserved(i)
      case WaitingFile => LockFile(i)
      case _ => UnlockProcess(i);
    assert OwnStep(a) && Enabled(s, a);
  }

  /** The two locks never deadlock: while any call is unfinished, some call can take a step. */
  lemma NoDeadlock(s: State, i: nat)
    requires Reachable(s) && i < |s.callers| && !s.callers[i].stage.Idle?
    ensures SomeoneCanMove(s)
  {
    ReachableInv(s);
    var v := s.services[s.callers[i].service];
    if s.fileLock.Some? {
      FileHolderMoves(s, s.fileLock.value);
    } else if HoldsProcess(s.callers[i].stage) {
      ProcessHolderMoves(s, i);
    } else if v.lock.Some? {
      ProcessHolderMoves(s, v.lock.value);
    } else {
      var a := match s.callers[i].stage
        case Observing => Observe(i)
        case FastPath => TryFast(i)
        case _ => LockProcess(i);
      assert OwnStep(a) && Enabled(s, a);
    }
  }

  // ---------------------------------------------------------------- the credential survives

  /** A cached token is the stored one of its revision. */
  predicate Agrees(s: State, c: Cached) {
    s.store.Some? && s.store.value.revision == c.revision ==>
      s.store.value.access == Some(c.token) && s.store.value.expiresAt == c.expiresAt
  }

  /** As long as every request presents the current token and the grant stands, nothing deletes the secret. */
  ghost predicate Spared(s: State) {
    AllCurrent(s.server.log) && !s.server.revoked ==>
      && s.store.Some?
      && (forall i | 0 <= i < |s.callers| :: s.callers[i].stage != Answered(Rejected))
      && (forall k | k in s.orphans :: s.orphans[k].Write?)
  }

  predicate ReadMatches(s: State, read: Stored) {
    s.store.Some? && s.store.value.revision == read.revision ==> s.store.value == read
  }

  /** What has been read, cached or fetched agrees with what is stored under the same revision. */
  ghost predicate Matching(s: State) {
    && (forall i | 0 <= i < |s.callers| :: s.callers[i].stage.Caching? ==> Agrees(s, s.callers[i].stage.cached))
    && (forall i | 0 <= i < |s.callers| :: s.callers[i].stage.Deciding? ==> ReadMatches(s, s.callers[i].call.stored))
    && (forall j | 0 <= j < |s.services| :: s.services[j].cache.Some? ==> Agrees(s, s.services[j].cache.value))
  }

  predicate Refreshable(s: State) { s.store.Some? ==> s.store.value.refresh.Some? }

  /** A log that all presented current tokens in did so before. */
  lemma CurrentBefore(log: seq<Request>, e: Request)
    requires AllCurrent(log + [e])
    ensures AllCurrent(log) && (!e.late ==> e.token == e.current)
  {
    forall k | 0 <= k < |log| ensures (log + [e])[k] == log[k] {}
    assert (log + [e])[|log|] == e;
  }

  lemma CurrentReshaped(a: seq<Request>, b: seq<Request>)
    requires Reshaped(a, b) && AllCurrent(b)
    ensures AllCurrent(a)
  {
    forall k | 0 <= k < |a| ensures Alike(a[k], b[k]) {}
  }

  lemma SparedSend(s: State, i: nat, reply: Reply)
    requires Spared(s) && Enabled(s, Send(i, reply))
    ensures Spared(Apply(s, Send(i, reply)))
  {
    var t := Apply(s, Send(i, reply));
    var e := MadeRequest(s, s.callers[i].call, Rotating(reply), false);
    assert t.server.log == s.server.log + [e];
    if AllCurrent(t.server.log) { CurrentBefore(s.server.log, e); }
  }

  lemma SparedArrive(s: State, n: nat, rotates: bool)
    requires Spared(s) && Enabled(s, Arrive(n, rotates))
    ensures Spared(Apply(s, Arrive(n, rotates)))
  {
    var t, e := Apply(s, Arrive(n, rotates)), MadeRequest(s, s.astray[n], rotates, true);
    assert t.server.log == s.server.log + [e];
    if AllCurrent(t.server.log) { CurrentBefore(s.server.log, e); }
  }

  lemma SparedSettle(s: State, i: nat, effect: Effect)
    requires Spared(s) && Knows(s, i) && Enabled(s, Settle(i, effect))
    ensures Spared(Apply(s, Settle(i, effect)))
  {
    SettleReshapes(s, i, effect);
    if AllCurrent(Apply(s, Settle(i, effect)).server.log) {
      CurrentReshaped(s.server.log, Apply(s, Settle(i, effect)).server.log);
    }
  }

  lemma SparedCancel(s: State, i: nat)
    requires Spared(s) && Enabled(s, Cancel(i))
    ensures Spared(Apply(s, Cancel(i)))
  {
    if s.callers[i].stage.Answered? {
      DropMarks(s, i);
      if AllCurrent(Apply(s, Cancel(i)).server.log) {
        CurrentReshaped(s.server.log, Apply(s, Cancel(i)).server.log);
      }
    }
  }

  lemma SparedLand(s: State, k: nat, applied: bool)
    requires Spared(s) && StoreInv(s) && OrphanInv(s) && Enabled(s, Land(k, applied))
    ensures Spared(Apply(s, Land(k, applied)))
  {
    LandBehind(s, k, applied);
    if AllCurrent(Apply(s, Land(k, applied)).server.log) {
      CurrentReshaped(s.server.log, Apply(s, Land(k, applied)).server.log);
    }
  }

  lemma SparedEarly(s: State, a: Action)
    requires Spared(s) && Enabled(s, a) && Early(a)
    ensures Spared(Apply(s, a))
  {}

  lemma SparedOther(s: State, a: Action)
    requires Spared(s) && Enabled(s, a) && !a.Send? && !a.Settle? && !a.Cancel? && !a.Land? && !a.Arrive?
    ensures Spared(Apply(s, a))
  {
    if Early(a) { SparedEarly(s, a); }
  }

  lemma SparedStep(s: State, a: Action)
    requires Inv(s) && Spared(s) && Enabled(s, a)
    ensures Spared(Apply(s, a))
  {
    match a {
      case Send(i, reply) => SparedSend(s, i, reply);
      case Settle(i, effect) =>
        InvKnows(s, i);
        SparedSettle(s, i, effect);
      case Arrive(n, rotates) => SparedArrive(s, n, rotates);
      case Cancel(i) => SparedCancel(s, i);
      case Land(k, applied) => SparedLand(s, k, applied);
      case _ => SparedOther(s, a);
    }
  }

  lemma StoreKept(s: State, a: Action)
    requires Enabled(s, a) && !a.Settle? && !a.Land?
    ensures Apply(s, a).store == s.store
  {}

  lemma RefreshableSettle(s: State, i: nat, effect: Effect)
    requires CallInv(s) && Refreshable(s) && Enabled(s, Settle(i, effect))
    ensures Refreshable(Apply(s, Settle(i, effect)))
  {
    assert CallOk(s, i);
  }

  lemma RefreshableLand(s: State, k: nat, applied: bool)
    requires OrphanInv(s) && Refreshable(s) && Enabled(s, Land(k, applied))
    ensures Refreshable(Apply(s, Land(k, applied)))
  {
    assert OrphanOk(s, k);
  }

  lemma RefreshableStep(s: State, a: Action)
    requires Inv(s) && Refreshable(s) && Enabled(s, a)
    ensures Refreshable(Apply(s, a))
  {
    match a {
      case Settle(i, effect) => RefreshableSettle(s, i, effect);
      case Land(k, applied) => RefreshableLand(s, k, applied);
      case _ => StoreKept(s, a);
    }
  }

  /** A write gives the store a revision that nothing else has. */
  lemma NewRevisionMatches(s: State, t: State, i: nat)
    requires ServiceInv(s) && CallInv(s) && |t.services| == |s.services| && |t.callers| == |s.callers|
    requires t.store.Some? ==> t.store.value.revision == s.nextRevision
    requires forall j | 0 <= j < |s.services| :: t.services[j].cache == s.services[j].cache
    requires forall k | 0 <= k < |s.callers| && k != i :: t.callers[k] == s.callers[k]
    requires i < |s.callers| && t.callers[i] != s.callers[i] ==>
               && !t.callers[i].stage.Deciding?
               && (t.callers[i].stage.Caching? ==> Agrees(t, t.callers[i].stage.cached))
    ensures Matching(t)
  {
    forall j | 0 <= j < |t.services| ensures t.services[j].cache.Some? ==> Agrees(t, t.services[j].cache.value) {
      assert ServiceOk(s, j);
    }
    forall k | 0 <= k < |t.callers|
      ensures t.callers[k].stage.Caching? ==> Agrees(t, t.callers[k].stage.cached)
      ensures t.callers[k].stage.Deciding? ==> ReadMatches(t, t.callers[k].call.stored)
    {
      assert CallOk(s, k);
    }
  }

  lemma MatchingLand(s: State, k: nat, applied: bool)
    requires Inv(s) && Matching(s) && Enabled(s, Land(k, applied))
    ensures Matching(Apply(s, Land(k, applied)))
  {
    if applied { NewRevisionMatches(s, Apply(s, Land(k, applied)), |s.callers|); }
  }

  /** Nothing is stored but a new revision, or nothing at all. */
  lemma MatchingSettle(s: State, i: nat, effect: Effect)
    requires Inv(s) && Matching(s) && Enabled(s, Settle(i, effect))
    ensures Matching(Apply(s, Settle(i, effect)))
  {
    var t := Apply(s, Settle(i, effect));
    if HasGrant(s.callers[i].stage) && !effect.FailsBefore? && s.callers[i].call.request < |s.server.log| {
      SettleFresh(s, i, effect);
      NewRevisionMatches(s, t, i);
    } else {
      SettleKeeps(s, i, effect);
    }
  }

  lemma SettleFresh(s: State, i: nat, effect: Effect)
    requires Enabled(s, Settle(i, effect)) && HasGrant(s.callers[i].stage) && !effect.FailsBefore?
    requires s.callers[i].call.request < |s.server.log|
    ensures var t := Apply(s, Settle(i, effect));
            && t.store.Some? && t.store.value.revision == s.nextRevision
            && (t.callers[i].stage.Caching? ==> Agrees(t, t.callers[i].stage.cached))
            && !t.callers[i].stage.Deciding?
            && (forall k | 0 <= k < |s.callers| && k != i :: t.callers[k] == s.callers[k])
            && (forall j | 0 <= j < |s.services| :: t.services[j].cache == s.services[j].cache)
  {}

  lemma SettleKeeps(s: State, i: nat, effect: Effect)
    requires Matching(s) && Enabled(s, Settle(i, effect))
    requires !HasGrant(s.callers[i].stage) || effect.FailsBefore? || s.callers[i].call.request >= |s.server.log|
    ensures Matching(Apply(s, Settle(i, effect)))
  {}

  lemma MatchingDecide(s: State, i: nat)
    requires Matching(s) && Enabled(s, Decide(i))
    ensures Matching(Apply(s, Decide(i)))
  {}

  lemma MatchingCache(s: State, i: nat)
    requires Matching(s) && Enabled(s, CacheNew(i))
    ensures Matching(Apply(s, CacheNew(i)))
  {}

  lemma MatchingOther(s: State, a: Action)
    requires Matching(s) && Enabled(s, a)
    requires a.RevokeGrant? || a.Tick? || a.Arrive? || a.ReadLatest? || a.UnlockFile? || a.UnlockProcess?
    ensures Matching(Apply(s, a))
  {}

  lemma MatchingEarly(s: State, a: Action)
    requires Matching(s) && Enabled(s, a) && Early(a)
    ensures Matching(Apply(s, a))
  {}

  lemma MatchingSend(s: State, a: Action)
    requires Matching(s) && Enabled(s, a) && (a.Send? || a.Cancel? || a.Leave?)
    ensures Matching(Apply(s, a))
  {}

  lemma MatchingStep(s: State, a: Action)
    requires Inv(s) && Matching(s) && Enabled(s, a)
    ensures Matching(Apply(s, a))
  {
    match a {
      case Land(k, applied) => MatchingLand(s, k, applied);
      case Settle(i, effect) => MatchingSettle(s, i, effect);
      case Decide(i) => MatchingDecide(s, i);
      case CacheNew(i) => MatchingCache(s, i);
      case Send(_, _) | Cancel(_) | Leave(_, _) => MatchingSend(s, a);
      case _ => if Early(a) { MatchingEarly(s, a); } else { MatchingOther(s, a); }
    }
  }

  lemma {:induction false} KeptRun(s: State, run: seq<Action>)
    requires Inv(s) && Spared(s) && Matching(s) && IsRun(s, run)
    ensures Spared(After(s, run)) && Matching(After(s, run)) && (Refreshable(s) ==> Refreshable(After(s, run)))
    decreases |run|
  {
    if run != [] {
      SparedStep(s, run[0]);
      MatchingStep(s, run[0]);
      if Refreshable(s) { RefreshableStep(s, run[0]); }
      StepInv(s, run[0]);
      KeptRun(Apply(s, run[0]), run[1..]);
    }
  }

  lemma InitKept(serviceOf: seq<nat>, services: nat, first: Stored, loggedIn: Option<nat>, now: int)
    requires GoodLogin(serviceOf, services, first)
    ensures
      var s := Init(serviceOf, services, first, loggedIn, now);
      Calm(s) && Spared(s) && Matching(s) && (first.refresh.Some? ==> Refreshable(s))
  {
    var s := Init(serviceOf, services, first, loggedIn, now);
    forall j | 0 <= j < |s.services| ensures s.services[j] == NewService(first, loggedIn == Some(j)) {}
  }

  /** A login is never used up by the clients themselves: unless the grant was revoked at the server, or
      some request that was waited for had read a token that was not saved, or that was rotated between the
      reading and the request, the credential stays stored; it stays refreshable; and whatever a service has
      cached for the stored revision is the stored token. */
  lemma CredentialSurvives(
    serviceOf: seq<nat>, services: nat, first: Stored, loggedIn: Option<nat>, now: int, run: seq<Action>)
    requires GoodLogin(serviceOf, services, first) && IsRun(Init(serviceOf, services, first, loggedIn, now), run)
    ensures
      var s := After(Init(serviceOf, services, first, loggedIn, now), run);
      && (s.store.None? ==>
            s.server.revoked || exists k | 0 <= k < |s.server.log| :: Overtaken(s.server.log, k))
      && (first.refresh.Some? && s.store.Some? ==> s.store.value.refresh.Some?)
      && (forall j | 0 <= j < |s.services| :: s.services[j].cache.Some? ==> Agrees(s, s.services[j].cache.value))
  {
    var s := Init(serviceOf, services, first, loggedIn, now);
    InitInv(serviceOf, services, first, loggedIn, now);
    InitKept(serviceOf, services, first, loggedIn, now);
    KeptRun(s, run);
    RunInv(s, run);
    var log := After(s, run).server.log;
    if !AllCurrent(log) {
      var k :| 0 <= k < |log| && !log[k].late && log[k].token != log[k].current;
      assert PresentsOk(log, k);
      assert Overtaken(log, k);
    }
  }

  /** A request that was waited for and whose token was not saved when it was read, or rotated since. */
  ghost predicate Overtaken(log: seq<Request>, k: nat)
    requires k < |log|
  {
    !log[k].late && !(log[k].fate.Saved? && Calmly(log, log[k].since, k))
  }

  /** ... so where nothing harms a rotation, only a revoked grant ends it. */
  lemma CredentialSurvivesWithoutHarm(
    serviceOf: seq<nat>, services: nat, first: Stored, loggedIn: Option<nat>, now: int, run: seq<Action>)
    requires GoodLogin(serviceOf, services, first)
    requires var s := Init(serviceOf, services, first, loggedIn, now); IsRun(s, run) && NeverHarms(s, run)
    ensures var s := After(Init(serviceOf, services, first, loggedIn, now), run); s.store.None? ==> s.server.revoked
  {
    var s := Init(serviceOf, services, first, loggedIn, now);
    InitInv(serviceOf, services, first, loggedIn, now);
    InitKept(serviceOf, services, first, loggedIn, now);
    CalmRun(s, run);
    KeptRun(s, run);
    assert AllCurrent(After(s, run).server.log);
  }
}
