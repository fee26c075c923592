/** What every step of the refresh protocol keeps. */
module OAuthInvariants {
  import opened Options
  import opened OAuthRefresh

  /** Each lock is held by exactly the caller whose stage says so. */
  ghost predicate LockInv(s: State) {
    && (forall i | 0 <= i < |s.callers| :: s.callers[i].service < |s.services|)
    && (forall i | 0 <= i < |s.callers| :: HoldsFile(s.callers[i].stage) <==> s.fileLock == Some(i))
    && (forall i | 0 <= i < |s.callers| ::
          HoldsProcess(s.callers[i].stage) <==> s.services[s.callers[i].service].lock == Some(i))
    && (s.fileLock.Some? ==> s.fileLock.value < |s.callers|)
    && (forall j | 0 <= j < |s.services| :: s.services[j].lock.Some? ==>
          s.services[j].lock.value < |s.callers| && s.callers[s.services[j].lock.value].service == j)
  }

  /** No request handled from `from` on, and before `to`, rotated the token. */
  ghost predicate Calmly(log: seq<Request>, from: nat, to: nat)
    requires to <= |log|
  {
    forall k | from <= k < to :: !log[k].rotated
  }

  /** `rotation` is one past the last request that rotated the token. */
  ghost predicate RotationOk(log: seq<Request>, rotation: nat) {
    && rotation <= |log|
    && (rotation > 0 ==> log[rotation - 1].rotated)
    && Calmly(log, rotation, |log|)
  }

  ghost predicate StoreInv(s: State) {
    && s.server.current < s.server.nextRefresh
    && RotationOk(s.server.log, s.rotation)
    && (s.store.Some? ==>
          && s.store.value.revision < s.nextRevision
          && (s.store.value.refresh.Some? ==> s.store.value.refresh.value < s.server.nextRefresh))
  }

  predicate Refreshing(stage: Stage) { stage.Sending? || stage.Answered? || stage.Caching? }

  predicate AtMost(a: Option<nat>, n: nat) { a.Some? ==> a.value <= n }

  /** A cache holds the revision last put in it, which is at most the stored one; and it is
      empty only if nothing was ever cached, a refresh is under way, or one has failed. */
  ghost predicate ServiceOk(s: State, j: nat)
    requires j < |s.services|
  {
    var v := s.services[j];
    && (v.latest.Some? ==> v.latest.value < s.nextRevision)
    && (s.store.Some? ==> AtMost(v.latest, s.store.value.revision))
    && (v.cache.Some? ==> v.latest == Some(v.cache.value.revision))
    && (v.cache.None? && v.latest.Some? && !v.broken ==>
          v.lock.Some? && v.lock.value < |s.callers| && Refreshing(s.callers[v.lock.value].stage))
  }

  ghost predicate ServiceInv(s: State) {
    forall j | 0 <= j < |s.services| :: ServiceOk(s, j)
  }

  predicate Started(stage: Stage) { !stage.Idle? && !stage.Observing? }

  predicate PastRecheck(stage: Stage) {
    stage.ReadingObserved? || stage.WaitingFile? || stage.ReadingLatest? || stage.Deciding? || stage.Sending?
  }

  /** A forced call goes past the cache only if no newer token was cached since it looked, or
      that token was lost to a failed refresh, or it was about to expire. */
  predicate CacheJustified(force: bool, newer: bool, gone: bool, staleCache: bool) {
    force && newer ==> gone || staleCache
  }

  /** A request is sent only if the stored token was about to expire, or the call was forced
      and nobody had replaced what it read before it took the lock file. */
  predicate StoreJustified(force: bool, observed: nat, revision: nat, staleStore: bool) {
    staleStore || (force && observed == revision)
  }

  ghost predicate CallOk(s: State, i: nat)
    requires i < |s.callers| && s.callers[i].service < |s.services|
  {
    var c := s.callers[i];
    var call := c.call;
    && (c.stage.Observing? ==> call.result.Pending?)
    && (Started(c.stage) ==>
          && (call.seen.Some? ==> call.seen == call.latestSeen)
          && (call.latestSeen.Some? ==>
                s.services[c.service].latest.Some? && call.latestSeen.value <= s.services[c.service].latest.value))
    && (PastRecheck(c.stage) ==> CacheJustified(call.force, call.newer, call.gone, call.staleCache))
    && (c.stage.WaitingFile? || c.stage.ReadingLatest? ==>
          && call.observed < s.nextRevision
          && AtMost(call.seen, call.observed)
          && (s.store.Some? ==> call.observed <= s.store.value.revision))
    && (c.stage.Deciding? || c.stage.Sending? || c.stage.Answered? ==> ReadOk(s, c))
    && (c.stage.Deciding? || c.stage.Sending? ==> TokenReadOk(s, call))
    && (c.stage.Sending? || c.stage.Answered? ==> call.stored.refresh.Some?)
    && (c.stage.Sending? ==> StoreJustified(call.force, call.observed, call.stored.revision, call.staleStore))
    && (c.stage.Answered? ==>
          && call.request < |s.server.log| && call.request !in s.orphans
          && s.server.log[call.request].revision == call.stored.revision
          && !s.server.log[call.request].late
          && OthersEarlier(s, call.request))
    && (c.stage.Answered? && c.stage.answer.Granted? ==> GrantOk(s, call, c.stage.answer))
    && (c.stage.Caching? ==>
          && c.stage.cached.revision < s.nextRevision
          && (s.store.Some? ==> c.stage.cached.revision <= s.store.value.revision)
          && (call.seen.Some? ==> call.seen.value < c.stage.cached.revision)
          && (s.services[c.service].latest.Some? ==> s.services[c.service].latest.value < c.stage.cached.revision))
    && (call.result.Yielded? && call.force && call.seen.Some? ==> call.seen.value < call.result.revision)
  }

  /** What the holder of the lock file read: an unfinished write may have replaced it since. */
  ghost predicate ReadOk(s: State, c: Caller)
    requires c.service < |s.services|
  {
    && c.call.stored.revision < s.nextRevision
    && (s.store.Some? ==> c.call.stored.revision <= s.store.value.revision)
    && AtMost(c.call.seen, c.call.observed)
    && c.call.observed <= c.call.stored.revision
    && AtMost(s.services[c.service].latest, c.call.stored.revision)
  }

  predicate Settled(f: Fate) { f.Saved? || f.Overwritten? }

  /** Whatever was handled after the holder's request, or still may be, is of a call that read before it. */
  ghost predicate OthersEarlier(s: State, request: nat) {
    && (forall m | request < m < |s.server.log| :: s.server.log[m].late && s.server.log[m].since <= request)
    && (forall n | 0 <= n < |s.astray| :: s.astray[n].since <= request)
  }

  /** The token it read is the server's current one exactly if the last rotation was saved then, and none
      has come since. */
  ghost predicate TokenReadOk(s: State, call: Call) {
    && call.since <= |s.server.log|
    && (call.stored.refresh.Some? ==>
          && call.stored.refresh.value < s.server.nextRefresh
          && (call.stored.refresh.value == s.server.current <==> call.fate.Saved? && s.rotation <= call.since))
    && (call.fate.Saved? && s.rotation <= call.since ==> Settled(s.fate))
    && !call.fate.Held?
  }

  /** What an answer that has not been stored yet says about the two sides. */
  ghost predicate GrantOk(s: State, call: Call, g: Answer)
    requires g.Granted? && call.stored.refresh.Some?
  {
    if g.rotated then g.refresh == Some(s.server.current) && s.fate.Held? && s.rotation == call.request + 1
    else
      && (g.refresh.Some? ==> g.refresh == call.stored.refresh)
      && call.stored.refresh.value < s.server.nextRefresh
      && s.rotation != call.request + 1
      && (call.stored.refresh.value == s.server.current <==> s.rotation <= call.request)
      && (s.rotation <= call.request ==> Settled(s.fate))
  }

  ghost predicate CallInv(s: State) {
    forall i | 0 <= i < |s.callers| :: s.callers[i].service < |s.services| && CallOk(s, i)
  }

  /** The holder of the lock file has been given a new token and has not written it yet. */
  ghost predicate Ahead(s: State) {
    && s.fileLock.Some? && s.fileLock.value < |s.callers|
    && var stage := s.callers[s.fileLock.value].stage;
       stage.Answered? && stage.answer.Granted? && stage.answer.rotated
  }

  /** The stored token is the server's current one exactly if the last rotation is saved. */
  ghost predicate TokenInv(s: State) {
    && (s.store.Some? && s.store.value.refresh.Some? ==>
          (s.store.value.refresh.value == s.server.current <==> s.fate.Saved?))
    && (s.fate.Held? ==> Ahead(s))
  }

  /** An unfinished write carries the current token exactly if no later request has rotated it. */
  ghost predicate OrphanOk(s: State, k: nat)
    requires k in s.orphans
  {
    && k < |s.server.log|
    && var w := s.orphans[k];
       w.Write? ==>
         && w.refresh.Some? && w.refresh.value < s.server.nextRefresh
         && (w.refresh.value == s.server.current <==> k + 1 >= s.rotation)
         && s.server.log[k].orphaned && !s.server.log[k].late
         && (k + 1 == s.rotation ==> s.fate.Adrift?)
         && (k + 1 > s.rotation ==> Settled(s.fate))
  }

  ghost predicate OrphanInv(s: State) {
    && (forall k | k in s.orphans :: OrphanOk(s, k))
    && (s.fate.Adrift? ==> s.rotation >= 1 && s.rotation - 1 in s.orphans && s.orphans[s.rotation - 1].Write?)
  }

  ghost predicate EntryOk(s: State, r: Request) {
    && !r.fate.Held?
    && (r.late ==> r.written.None?)
    && StoreJustified(r.force, r.observed, r.revision, r.staleStore)
    && CacheJustified(r.force, r.newer, r.gone, r.staleCache)
    && r.observed <= r.revision < s.nextRevision
    && (r.rotated ==> r.token == r.current && r.token < s.server.current)
    && (r.written.Some? ==>
          && r.revision < r.written.value < s.nextRevision
          && (s.store.Some? ==> r.written.value <= s.store.value.revision))
  }

  /** The answer was stored by its own call. */
  predicate Own(r: Request) { r.written.Some? && !r.orphaned }

  /** Request `k` was handled before `later`. */
  ghost predicate PairOk(r: Request, k: nat, later: Request) {
    && (Own(r) && (k < later.since || !later.late) ==> r.written.value <= later.revision)
    && (r.rotated && k < later.since && later.fate.Saved? ==> r.token < later.token)
  }

  /** A request presents the current token exactly if that was saved when its caller read it, and no
      request handled since then has rotated it. */
  ghost predicate PresentsOk(log: seq<Request>, m: nat)
    requires m < |log|
  {
    && log[m].since <= m
    && (log[m].token == log[m].current <==> log[m].fate.Saved? && Calmly(log, log[m].since, m))
    && (!log[m].late ==> forall k | log[m].since <= k < m :: log[k].late)
  }

  ghost predicate LogInv(s: State) {
    && (forall k | 0 <= k < |s.server.log| :: EntryOk(s, s.server.log[k]))
    && (forall k, m | 0 <= k < m < |s.server.log| :: PairOk(s.server.log[k], k, s.server.log[m]))
    && (forall m | 0 <= m < |s.server.log| :: PresentsOk(s.server.log, m))
  }

  /** What a call has read, it read after the answers of all requests handled before were stored by their
      own calls, and after their rotations. */
  ghost predicate ReadAfter(log: seq<Request>, call: Call) {
    forall k | 0 <= k < |log| && k < call.since ::
      && (Own(log[k]) ==> log[k].written.value <= call.stored.revision)
      && (log[k].rotated && call.fate.Saved? && call.stored.refresh.Some? ==>
            log[k].token < call.stored.refresh.value)
  }

  /** Only requests gone astray are handled between the reading of a holder of the lock file and its own. */
  ghost predicate ReadsOk(s: State, i: nat)
    requires i < |s.callers|
  {
    s.callers[i].stage.Deciding? || s.callers[i].stage.Sending? ==>
      && ReadAfter(s.server.log, s.callers[i].call)
      && (forall k | 0 <= k < |s.server.log| && s.callers[i].call.since <= k :: s.server.log[k].late)
  }

  ghost predicate ReadsInv(s: State) { forall i | 0 <= i < |s.callers| :: ReadsOk(s, i) }

  /** A request gone astray carries what its call knew when it sent it. */
  ghost predicate StrayOk(s: State, call: Call) {
    && call.stored.refresh.Some?
    && TokenReadOk(s, call)
    && ReadAfter(s.server.log, call)
    && StoreJustified(call.force, call.observed, call.stored.revision, call.staleStore)
    && CacheJustified(call.force, call.newer, call.gone, call.staleCache)
    && call.observed <= call.stored.revision < s.nextRevision
  }

  ghost predicate StrayInv(s: State) { forall n | 0 <= n < |s.astray| :: StrayOk(s, s.astray[n]) }

  ghost predicate Inv(s: State) {
    && LockInv(s) && StoreInv(s) && ServiceInv(s) && CallInv(s) && TokenInv(s) && OrphanInv(s) && LogInv(s)
      && ReadsInv(s) && StrayInv(s)
  }

  lemma InitInv(serviceOf: seq<nat>, services: nat, first: Stored, loggedIn: Option<nat>, now: int)
    requires GoodLogin(serviceOf, services, first)
    ensures Inv(Init(serviceOf, services, first, loggedIn, now))
  {
    var s := Init(serviceOf, services, first, loggedIn, now);
    forall i | 0 <= i < |s.callers|
      ensures s.callers[i] == Caller(serviceOf[i], Idle, NO_CALL) && s.callers[i].service < |s.services|
    {
    }
    forall j | 0 <= j < |s.services| ensures ServiceOk(s, j) {
      assert s.services[j] == NewService(first, loggedIn == Some(j));
    }
    forall i | 0 <= i < |s.callers| ensures CallOk(s, i) && ReadsOk(s, i) {}
    assert LockInv(s) by {
      forall j | 0 <= j < |s.services| ensures s.services[j].lock.None? {
        assert s.services[j] == NewService(first, loggedIn == Some(j));
      }
    }
  }

  // ---------------------------------------------------------------- frames

  /** Only caller `i` and its service have changed. */
  ghost predicate Local(s: State, t: State, i: nat) {
    && i < |s.callers| == |t.callers|
    && |s.services| == |t.services|
    && (forall k | 0 <= k < |s.callers| && k != i :: t.callers[k] == s.callers[k])
    && t.callers[i].service == s.callers[i].service < |s.services|
    && (forall j | 0 <= j < |s.services| && j != s.callers[i].service :: t.services[j] == s.services[j])
  }

  /** Neither the store nor the server has changed. */
  predicate Still(s: State, t: State) {
    && t.store == s.store && t.server == s.server && t.nextRevision == s.nextRevision
    && t.fate == s.fate && t.rotation == s.rotation && t.orphans == s.orphans
  }

  /** ... and no request went astray. */
  predicate Quiet(s: State, t: State) { Still(s, t) && t.astray == s.astray }

  predicate Hand(before: Option<nat>, after: Option<nat>, i: nat, had: bool, has: bool) {
    if has then after == Some(i) && (had || before.None?)
    else after == (if had then None else before)
  }

  /** The locks changed hands as the stages of `i` say. */
  ghost predicate LocksFollow(s: State, t: State, i: nat)
    requires Local(s, t, i)
  {
    && Hand(s.fileLock, t.fileLock, i, HoldsFile(s.callers[i].stage), HoldsFile(t.callers[i].stage))
    && Hand(s.services[s.callers[i].service].lock, t.services[s.callers[i].service].lock, i,
            HoldsProcess(s.callers[i].stage), HoldsProcess(t.callers[i].stage))
  }

  lemma LockFrame(s: State, t: State, i: nat)
    requires LockInv(s) && Local(s, t, i) && LocksFollow(s, t, i)
    ensures LockInv(t)
  {}

  predicate Grows(a: Option<nat>, b: Option<nat>) {
    a.Some? ==> b.Some? && a.value <= b.value
  }

  /** The store is as before, or empty, or holds a revision made now. */
  predicate StoreMoves(s: State, t: State) {
    t.store == s.store || t.store.None? || t.store.value.revision >= s.nextRevision
  }

  ghost predicate SameLatest(s: State, t: State, i: nat)
    requires Local(s, t, i)
  {
    t.services[s.callers[i].service].latest == s.services[s.callers[i].service].latest
  }

  lemma CallFrame(s: State, t: State, i: nat, k: nat)
    requires LockInv(s) && Local(s, t, i) && k < |s.callers| && k != i
    requires s.callers[k].service < |s.services| && CallOk(s, k)
    requires Grows(s.services[s.callers[i].service].latest, t.services[s.callers[i].service].latest)
    requires s.nextRevision <= t.nextRevision && StoreMoves(s, t)
    requires (Quiet(s, t) && SameLatest(s, t, i)) || HoldsFile(s.callers[i].stage)
    ensures CallOk(t, k)
  {}

  lemma ServiceFrame(s: State, t: State, i: nat, j: nat)
    requires LockInv(s) && Local(s, t, i) && j < |s.services| && j != s.callers[i].service
    requires ServiceOk(s, j)
    requires s.nextRevision <= t.nextRevision && StoreMoves(s, t)
    ensures ServiceOk(t, j)
  {}

  lemma LogFrame(s: State, t: State)
    requires LogInv(s) && Still(s, t)
    ensures LogInv(t)
  {
    forall k | 0 <= k < |t.server.log| ensures EntryOk(t, t.server.log[k]) {
      assert EntryOk(s, s.server.log[k]);
    }
  }

  predicate HasGrant(stage: Stage) { stage.Answered? && stage.answer.Granted? }

  lemma TokenFrame(s: State, t: State, i: nat)
    requires LockInv(s) && TokenInv(s) && Local(s, t, i) && LocksFollow(s, t, i) && Quiet(s, t)
    requires !HasGrant(s.callers[i].stage) && !HasGrant(t.callers[i].stage)
    ensures TokenInv(t)
  {
    assert Ahead(s) ==> Ahead(t);
  }

  lemma OrphanFrame(s: State, t: State)
    requires OrphanInv(s) && Still(s, t)
    ensures OrphanInv(t)
  {
    forall k | k in t.orphans ensures OrphanOk(t, k) { assert OrphanOk(s, k); }
  }

  lemma ReadsFrame(s: State, t: State, i: nat)
    requires ReadsInv(s) && Local(s, t, i) && t.server.log == s.server.log && ReadsOk(t, i)
    ensures ReadsInv(t)
  {
    forall k | 0 <= k < |t.callers| ensures ReadsOk(t, k) { assert ReadsOk(s, k); }
  }

  lemma StrayFrame(s: State, t: State)
    requires StrayInv(s) && Quiet(s, t)
    ensures StrayInv(t)
  {
    forall n | 0 <= n < |t.astray| ensures StrayOk(t, t.astray[n]) { assert StrayOk(s, s.astray[n]); }
  }

  /** What caller `i` and its service have to show. */
  ghost predicate Shows(s: State, t: State, i: nat) {
    && Local(s, t, i) && LocksFollow(s, t, i) && Quiet(s, t)
    && !HasGrant(s.callers[i].stage) && !HasGrant(t.callers[i].stage)
    && (SameLatest(s, t, i) || HoldsFile(s.callers[i].stage))
    && Grows(s.services[s.callers[i].service].latest, t.services[s.callers[i].service].latest)
    && ServiceOk(t, s.callers[i].service) && CallOk(t, i) && ReadsOk(t, i)
  }

  /** A step that leaves store and server alone keeps everything, if it keeps what the caller
      and its service promise. */
  lemma QuietStep(s: State, t: State, i: nat)
    requires Inv(s) && Shows(s, t, i)
    ensures Inv(t)
  {
    LockFrame(s, t, i);
    forall k | 0 <= k < |t.callers| ensures t.callers[k].service < |t.services| && CallOk(t, k) {
      if k != i { CallFrame(s, t, i, k); }
    }
    forall j | 0 <= j < |t.services| ensures ServiceOk(t, j) {
      if j != s.callers[i].service { ServiceFrame(s, t, i, j); }
    }
    TokenFrame(s, t, i);
    OrphanFrame(s, t);
    LogFrame(s, t);
    ReadsFrame(s, t, i);
    StrayFrame(s, t);
  }

  // ---------------------------------------------------------------- steps that leave store and server alone

  /** What caller `i` knows about itself, its service and its locks. */
  ghost predicate Knows(s: State, i: nat) {
    && i < |s.callers| && s.callers[i].service < |s.services|
    && CallOk(s, i) && ServiceOk(s, s.callers[i].service)
    && (HoldsFile(s.callers[i].stage) <==> s.fileLock == Some(i))
    && (HoldsProcess(s.callers[i].stage) <==> s.services[s.callers[i].service].lock == Some(i))
    && StoreInv(s) && ReadsOk(s, i)
  }

  lemma BeginShows(s: State, i: nat, force: bool)
    requires Knows(s, i) && Enabled(s, Begin(i, force))
    ensures Shows(s, Apply(s, Begin(i, force)), i)
  {}

  lemma ObserveShows(s: State, i: nat)
    requires Knows(s, i) && Enabled(s, Observe(i))
    ensures Shows(s, Apply(s, Observe(i)), i)
  {}

  predicate ServesFast(s: State, i: nat)
    requires At(s, i, FastPath)
  {
    var v := s.services[s.callers[i].service];
    !s.callers[i].call.force && v.cache.Some? && IsFresh(v.cache.value.expiresAt, s.now)
  }

  lemma TryFastHit(s: State, i: nat)
    requires Knows(s, i) && Enabled(s, TryFast(i))
    requires ServesFast(s, i)
    ensures Shows(s, Apply(s, TryFast(i)), i)
  {}

  lemma TryFastMiss(s: State, i: nat)
    requires Knows(s, i) && Enabled(s, TryFast(i))
    requires !ServesFast(s, i)
    ensures Shows(s, Apply(s, TryFast(i)), i)
  {}

  lemma LockProcessShows(s: State, i: nat)
    requires Knows(s, i) && Enabled(s, LockProcess(i))
    ensures Shows(s, Apply(s, LockProcess(i)), i)
  {}

  lemma RecheckHit(s: State, i: nat)
    requires Knows(s, i) && Enabled(s, Recheck(i))
    requires CacheServes(s.callers[i].call, s.services[s.callers[i].service], s.now)
    ensures Shows(s, Apply(s, Recheck(i)), i)
  {}

  lemma RecheckMiss(s: State, i: nat)
    requires Knows(s, i) && Enabled(s, Recheck(i))
    requires !CacheServes(s.callers[i].call, s.services[s.callers[i].service], s.now)
    ensures Shows(s, Apply(s, Recheck(i)), i)
  {}

  lemma ReadObservedShows(s: State, i: nat)
    requires Knows(s, i) && Enabled(s, ReadObserved(i))
    ensures Shows(s, Apply(s, ReadObserved(i)), i)
  {}

  lemma LockFileShows(s: State, i: nat)
    requires Knows(s, i) && Enabled(s, LockFile(i))
    ensures Shows(s, Apply(s, LockFile(i)), i)
  {}

  lemma ReadLatestShows(s: State, i: nat)
    requires Knows(s, i) && Enabled(s, ReadLatest(i)) && TokenInv(s) && !Ahead(s)
    requires ReadsOk(Apply(s, ReadLatest(i)), i)
    ensures Shows(s, Apply(s, ReadLatest(i)), i)
  {}

  lemma DecideUses(s: State, i: nat)
    requires Knows(s, i) && Enabled(s, Decide(i))
    requires StoreServes(s.callers[i].call, s.now)
    ensures Shows(s, Apply(s, Decide(i)), i)
  {}

  lemma DecideStops(s: State, i: nat)
    requires Knows(s, i) && Enabled(s, Decide(i))
    requires !StoreServes(s.callers[i].call, s.now) && s.callers[i].call.stored.refresh.None?
    ensures Shows(s, Apply(s, Decide(i)), i)
  {}

  lemma DecideSends(s: State, i: nat)
    requires Knows(s, i) && Enabled(s, Decide(i))
    requires !StoreServes(s.callers[i].call, s.now) && s.callers[i].call.stored.refresh.Some?
    ensures Shows(s, Apply(s, Decide(i)), i)
  {}

  lemma CacheNewShows(s: State, i: nat)
    requires Knows(s, i) && Enabled(s, CacheNew(i))
    ensures Shows(s, Apply(s, CacheNew(i)), i)
  {}

  lemma UnlockFileShows(s: State, i: nat)
    requires Knows(s, i) && Enabled(s, UnlockFile(i))
    ensures Shows(s, Apply(s, UnlockFile(i)), i)
  {}

  lemma UnlockProcessShows(s: State, i: nat)
    requires Knows(s, i) && Enabled(s, UnlockProcess(i))
    ensures Shows(s, Apply(s, UnlockProcess(i)), i)
  {}

  lemma CancelWaiting(s: State, i: nat)
    requires Knows(s, i) && Enabled(s, Cancel(i)) && !HoldsFile(s.callers[i].stage)
    ensures Shows(s, Apply(s, Cancel(i)), i)
  {}

  lemma CancelHolding(s: State, i: nat)
    requires Knows(s, i) && Enabled(s, Cancel(i)) && HoldsFile(s.callers[i].stage) && !s.callers[i].stage.Answered?
    ensures Shows(s, Apply(s, Cancel(i)), i)
  {}

  lemma ReadLatestReads(s: State, i: nat)
    requires Enabled(s, ReadLatest(i)) && LogInv(s) && TokenInv(s)
    ensures ReadsOk(Apply(s, ReadLatest(i)), i)
  {
    forall k | 0 <= k < |s.server.log| ensures EntryOk(s, s.server.log[k]) {}
  }

  lemma EarlyShows(s: State, a: Action)
    requires (a.Begin? || a.Observe? || a.TryFast? || a.LockProcess? || a.Recheck? || a.ReadObserved?)
    requires Enabled(s, a) && Knows(s, a.i)
    ensures Shows(s, Apply(s, a), a.i)
  {
    match a {
      case Begin(i, force) => BeginShows(s, i, force);
      case Observe(i) => ObserveShows(s, i);
      case TryFast(i) => if ServesFast(s, i) { TryFastHit(s, i); } else { TryFastMiss(s, i); }
      case LockProcess(i) => LockProcessShows(s, i);
      case Recheck(i) =>
        if CacheServes(s.callers[i].call, s.services[s.callers[i].service], s.now) {
          RecheckHit(s, i);
        } else {
          RecheckMiss(s, i);
        }
      case ReadObserved(i) => ReadObservedShows(s, i);
    }
  }

  lemma InvKnows(s: State, i: nat)
    requires Inv(s) && i < |s.callers|
    ensures Knows(s, i)
  {}

  lemma EarlyActions(s: State, a: Action)
    requires Inv(s) && Enabled(s, a)
    requires a.Begin? || a.Observe? || a.TryFast? || a.LockProcess? || a.Recheck? || a.ReadObserved?
    ensures Inv(Apply(s, a))
  {
    InvKnows(s, a.i);
    EarlyShows(s, a);
    QuietStep(s, Apply(s, a), a.i);
  }

  lemma DecideShows(s: State, i: nat)
    requires Knows(s, i) && Enabled(s, Decide(i))
    ensures Shows(s, Apply(s, Decide(i)), i)
  {
    if StoreServes(s.callers[i].call, s.now) {
      DecideUses(s, i);
    } else if s.callers[i].call.stored.refresh.None? {
      DecideStops(s, i);
    } else {
      DecideSends(s, i);
    }
  }

  lemma ReadLatestStep(s: State, i: nat)
    requires Inv(s) && Enabled(s, ReadLatest(i))
    ensures Inv(Apply(s, ReadLatest(i)))
  {
    InvKnows(s, i);
    NotAhead(s, i);
    ReadLatestReads(s, i);
    ReadLatestShows(s, i);
    QuietStep(s, Apply(s, ReadLatest(i)), i);
  }

  lemma LateShows(s: State, a: Action)
    requires a.LockFile? || a.Decide? || a.CacheNew? || a.UnlockFile? || a.UnlockProcess? || a.Cancel?
    requires Enabled(s, a) && Knows(s, a.i)
    requires a.Cancel? ==> !s.callers[a.i].stage.Answered?
    ensures Shows(s, Apply(s, a), a.i)
  {
    match a {
      case LockFile(i) => LockFileShows(s, i);
      case Decide(i) => DecideShows(s, i);
      case CacheNew(i) => CacheNewShows(s, i);
      case UnlockFile(i) => UnlockFileShows(s, i);
      case UnlockProcess(i) => UnlockProcessShows(s, i);
      case Cancel(i) => if HoldsFile(s.callers[i].stage) { CancelHolding(s, i); } else { CancelWaiting(s, i); }
    }
  }

  lemma LateActions(s: State, a: Action)
    requires Inv(s) && Enabled(s, a)
    requires a.LockFile? || a.Decide? || a.CacheNew? || a.UnlockFile? || a.UnlockProcess? || a.Cancel?
    requires a.Cancel? ==> !s.callers[a.i].stage.Answered?
    ensures Inv(Apply(s, a))
  {
    InvKnows(s, a.i);
    LateShows(s, a);
    QuietStep(s, Apply(s, a), a.i);
  }

  // ---------------------------------------------------------------- steps that change store or server

  /** The holder of the lock file changes the store or the server: everybody else is unmoved. */
  lemma HolderStep(s: State, t: State, i: nat)
    requires Inv(s) && Local(s, t, i) && LocksFollow(s, t, i)
    requires HoldsFile(s.callers[i].stage)
    requires t.services[s.callers[i].service].latest == s.services[s.callers[i].service].latest
    requires s.nextRevision <= t.nextRevision && StoreMoves(s, t)
    requires ServiceOk(t, s.callers[i].service) && CallOk(t, i)
    ensures LockInv(t) && ServiceInv(t) && CallInv(t)
  {
    LockFrame(s, t, i);
    forall k | 0 <= k < |t.callers| ensures t.callers[k].service < |t.services| && CallOk(t, k) {
      if k != i { CallFrame(s, t, i, k); }
    }
    forall j | 0 <= j < |t.services| ensures ServiceOk(t, j) {
      if j != s.callers[i].service { ServiceFrame(s, t, i, j); }
    }
  }

  ghost predicate Tells(s: State, t: State, i: nat) {
    && Local(s, t, i) && LocksFollow(s, t, i)
    && HoldsFile(s.callers[i].stage)
    && t.services[s.callers[i].service].latest == s.services[s.callers[i].service].latest
    && s.nextRevision <= t.nextRevision && StoreMoves(s, t)
    && ServiceOk(t, s.callers[i].service) && CallOk(t, i)
    && StoreInv(t) && TokenInv(t)
    && !t.callers[i].stage.Deciding? && !t.callers[i].stage.Sending?
  }

  lemma NotAhead(s: State, i: nat)
    requires LockInv(s) && i < |s.callers| && HoldsFile(s.callers[i].stage) && !HasGrant(s.callers[i].stage)
    ensures !Ahead(s)
  {}

  /** Nobody else is about to send. */
  lemma HolderReads(s: State, t: State, i: nat)
    requires LockInv(s) && Tells(s, t, i)
    ensures ReadsInv(t)
  {
    forall k | 0 <= k < |t.callers| ensures ReadsOk(t, k) {}
  }

  lemma FreshRequest(s: State)
    requires OrphanInv(s)
    ensures |s.server.log| !in s.orphans
  {
    forall k | k in s.orphans ensures k < |s.server.log| { assert OrphanOk(s, k); }
  }

  /** Whoever sent a request that went astray had read the store by now. */
  ghost predicate StraysRead(s: State) { forall n | 0 <= n < |s.astray| :: s.astray[n].since <= |s.server.log| }

  lemma StraysHaveRead(s: State)
    requires StrayInv(s)
    ensures StraysRead(s)
  {
    forall n | 0 <= n < |s.astray| ensures s.astray[n].since <= |s.server.log| { assert StrayOk(s, s.astray[n]); }
  }

  lemma SendRotates(s: State, i: nat, reply: Reply)
    requires Knows(s, i) && OrphanInv(s) && TokenInv(s) && !Ahead(s) && Enabled(s, Send(i, reply)) && reply.Rotates?
    requires StraysRead(s)
    ensures Tells(s, Apply(s, Send(i, reply)), i)
  {
    FreshRequest(s);
    NewRotation(s.server.log, s.rotation, MadeRequest(s, s.callers[i].call, Rotating(reply), false));
  }

  lemma SendKeeps(s: State, i: nat, reply: Reply)
    requires Knows(s, i) && OrphanInv(s) && TokenInv(s) && !Ahead(s) && Enabled(s, Send(i, reply)) && reply.Keeps?
    requires StraysRead(s)
    ensures Tells(s, Apply(s, Send(i, reply)), i)
  {
    FreshRequest(s);
    NewRotation(s.server.log, s.rotation, MadeRequest(s, s.callers[i].call, Rotating(reply), false));
  }

  lemma SendLost(s: State, i: nat, reply: Reply)
    requires Knows(s, i) && OrphanInv(s) && TokenInv(s) && !Ahead(s) && Enabled(s, Send(i, reply)) && reply.AnswerLost?
    requires StraysRead(s)
    ensures Tells(s, Apply(s, Send(i, reply)), i)
  {
    FreshRequest(s);
    NewRotation(s.server.log, s.rotation, MadeRequest(s, s.callers[i].call, Rotating(reply), false));
  }

  lemma SendRefused(s: State, i: nat, reply: Reply)
    requires Knows(s, i) && OrphanInv(s) && TokenInv(s) && !Ahead(s) && Enabled(s, Send(i, reply))
    requires (reply.Rejects? || reply.Unreachable?) && StraysRead(s)
    ensures Tells(s, Apply(s, Send(i, reply)), i)
  {
    FreshRequest(s);
    NewRotation(s.server.log, s.rotation, MadeRequest(s, s.callers[i].call, Rotating(reply), false));
  }

  lemma SendOrphans(s: State, i: nat, reply: Reply)
    requires Knows(s, i) && OrphanInv(s) && Enabled(s, Send(i, reply))
    ensures OrphanInv(Apply(s, Send(i, reply)))
  {
    var t := Apply(s, Send(i, reply));
    forall k | k in t.orphans ensures OrphanOk(t, k) { assert OrphanOk(s, k); }
  }

  lemma EntryFrame(s: State, t: State, k: nat)
    requires k < |s.server.log| && EntryOk(s, s.server.log[k])
    requires s.server.current <= t.server.current && s.nextRevision <= t.nextRevision && StoreMoves(s, t)
    ensures EntryOk(t, s.server.log[k])
  {}

  lemma SendEntry(s: State, i: nat, reply: Reply)
    requires Knows(s, i) && Enabled(s, Send(i, reply))
    ensures EntryOk(Apply(s, Send(i, reply)), MadeRequest(s, s.callers[i].call, Rotating(reply), false))
  {}

  lemma SendPair(s: State, i: nat, reply: Reply, k: nat)
    requires Knows(s, i) && Enabled(s, Send(i, reply))
    requires k < |s.server.log| && EntryOk(s, s.server.log[k])
    ensures PairOk(s.server.log[k], k, MadeRequest(s, s.callers[i].call, Rotating(reply), false))
  {}

  /** A new request at the end of the log: what its caller read decides whether its token is the current one. */
  lemma NewPresents(s: State, call: Call, rotates: bool, late: bool)
    requires StoreInv(s) && TokenReadOk(s, call) && call.stored.refresh.Some?
    requires !late ==> forall k | 0 <= k < |s.server.log| && call.since <= k :: s.server.log[k].late
    ensures PresentsOk(Received(s, call, rotates, late).log, |s.server.log|)
  {
    var log := s.server.log;
    var grown := Received(s, call, rotates, late).log;
    assert forall k | 0 <= k < |log| :: grown[k] == log[k];
    if s.rotation > call.since { assert grown[s.rotation - 1].rotated; }
    assert Calmly(grown, call.since, |log|) <==> s.rotation <= call.since;
  }

  lemma OldPresents(log: seq<Request>, e: Request, m: nat)
    requires m < |log| && PresentsOk(log, m)
    ensures PresentsOk(log + [e], m)
  {
    var grown := log + [e];
    assert forall k | 0 <= k < |log| :: grown[k] == log[k];
    assert Calmly(grown, log[m].since, m) <==> Calmly(log, log[m].since, m);
  }

  lemma NewRotation(log: seq<Request>, rotation: nat, e: Request)
    requires RotationOk(log, rotation)
    ensures RotationOk(log + [e], if e.rotated then |log| + 1 else rotation)
  {
    assert forall k | 0 <= k < |log| :: (log + [e])[k] == log[k];
  }

  lemma SendLog(s: State, i: nat, reply: Reply)
    requires Knows(s, i) && LogInv(s) && Enabled(s, Send(i, reply))
    ensures LogInv(Apply(s, Send(i, reply)))
  {
    var t := Apply(s, Send(i, reply));
    var e := MadeRequest(s, s.callers[i].call, Rotating(reply), false);
    assert t.server.log == s.server.log + [e];
    SendEntry(s, i, reply);
    NewPresents(s, s.callers[i].call, Rotating(reply), false);
    forall k | 0 <= k < |s.server.log| ensures PairOk(s.server.log[k], k, e) { SendPair(s, i, reply, k); }
    AppendLog(s, t, e);
  }

  lemma AppendLog(s: State, t: State, e: Request)
    requires LogInv(s) && t.server.log == s.server.log + [e] && EntryOk(t, e)
    requires s.server.current <= t.server.current && s.nextRevision <= t.nextRevision && StoreMoves(s, t)
    requires forall k | 0 <= k < |s.server.log| :: PairOk(s.server.log[k], k, e)
    requires PresentsOk(t.server.log, |s.server.log|)
    ensures LogInv(t)
  {
    forall k | 0 <= k < |t.server.log| ensures EntryOk(t, t.server.log[k]) && PresentsOk(t.server.log, k) {
      if k < |s.server.log| {
        EntryFrame(s, t, k);
        OldPresents(s.server.log, e, k);
      }
    }
    forall k, m | 0 <= k < m < |t.server.log| ensures PairOk(t.server.log[k], k, t.server.log[m]) {}
  }

  /** A request goes to the server and adds to its log, with or without a rotation. */
  lemma SendStrays(s: State, i: nat, reply: Reply)
    requires Knows(s, i) && StrayInv(s) && Enabled(s, Send(i, reply))
    ensures StrayInv(Apply(s, Send(i, reply)))
  {
    var t := Apply(s, Send(i, reply));
    forall n | 0 <= n < |t.astray| ensures StrayOk(t, t.astray[n]) { SendStray(s, i, reply, s.astray[n]); }
  }

  lemma SendStray(s: State, i: nat, reply: Reply, call: Call)
    requires Knows(s, i) && StrayOk(s, call) && Enabled(s, Send(i, reply))
    ensures StrayOk(Apply(s, Send(i, reply)), call)
  {
    var t := Apply(s, Send(i, reply));
    assert forall k | 0 <= k < |s.server.log| :: t.server.log[k] == s.server.log[k];
  }

  lemma SendStep(s: State, i: nat, reply: Reply)
    requires Inv(s) && Enabled(s, Send(i, reply))
    ensures Inv(Apply(s, Send(i, reply)))
  {
    InvKnows(s, i);
    NotAhead(s, i);
    StraysHaveRead(s);
    match reply {
      case Rotates(_) => SendRotates(s, i, reply);
      case Keeps(_, _) => SendKeeps(s, i, reply);
      case AnswerLost => SendLost(s, i, reply);
      case _ => SendRefused(s, i, reply);
    }
    SendLog(s, i, reply);
    SendOrphans(s, i, reply);
    SendStrays(s, i, reply);
    HolderStep(s, Apply(s, Send(i, reply)), i);
    HolderReads(s, Apply(s, Send(i, reply)), i);
  }

  // ---------------------------------------------------------------- the answer is acted on

  lemma SettleCaches(s: State, i: nat)
    requires Knows(s, i) && TokenInv(s) && Enabled(s, Settle(i, Succeeds)) && HasGrant(s.callers[i].stage)
    ensures Tells(s, Apply(s, Settle(i, Succeeds)), i)
  {}

  lemma SettleWrites(s: State, i: nat)
    requires Knows(s, i) && TokenInv(s) && Enabled(s, Settle(i, FailsAfter)) && HasGrant(s.callers[i].stage)
    ensures Tells(s, Apply(s, Settle(i, FailsAfter)), i)
  {}

  lemma SettleLoses(s: State, i: nat)
    requires Knows(s, i) && TokenInv(s) && Enabled(s, Settle(i, FailsBefore)) && HasGrant(s.callers[i].stage)
    ensures Tells(s, Apply(s, Settle(i, FailsBefore)), i)
  {}

  lemma SettleRejected(s: State, i: nat, effect: Effect)
    requires Knows(s, i) && TokenInv(s) && !Ahead(s) && At(s, i, Answered(Rejected))
    ensures Tells(s, Apply(s, Settle(i, effect)), i)
  {}

  lemma SettleUnanswered(s: State, i: nat, effect: Effect)
    requires Knows(s, i) && TokenInv(s) && !Ahead(s) && At(s, i, Answered(NoAnswer))
    ensures Tells(s, Apply(s, Settle(i, effect)), i)
  {}

  /** The requests are the same but for what was written and what was dropped. */
  predicate Alike(a: Request, b: Request) { b == a.(written := b.written, orphaned := b.orphaned) }

  ghost predicate Reshaped(a: seq<Request>, b: seq<Request>) {
    |a| == |b| && forall k | 0 <= k < |a| :: Alike(a[k], b[k])
  }

  lemma OneReshaped(a: seq<Request>, b: seq<Request>, k: nat)
    requires k < |a| == |b| && b == a[k := b[k]] && Alike(a[k], b[k])
    ensures Reshaped(a, b)
  {
    forall m | 0 <= m < |a| ensures Alike(a[m], b[m]) {}
  }

  lemma SameReshaped(a: seq<Request>)
    ensures Reshaped(a, a)
  {
    forall m | 0 <= m < |a| ensures Alike(a[m], a[m]) {}
  }

  lemma ReshapedPresents(a: seq<Request>, b: seq<Request>, m: nat)
    requires Reshaped(a, b) && m < |a| && PresentsOk(a, m)
    ensures PresentsOk(b, m)
  {
    assert Calmly(b, b[m].since, m) <==> Calmly(a, a[m].since, m);
  }

  lemma ReshapedRotation(a: seq<Request>, b: seq<Request>, rotation: nat)
    requires Reshaped(a, b) && RotationOk(a, rotation)
    ensures RotationOk(b, rotation)
  {}

  /** What is written now is not of a request that a call gone astray had read after. */
  ghost predicate WrittenLater(a: seq<Request>, b: seq<Request>, since: nat)
    requires |a| == |b|
  {
    forall k | 0 <= k < |a| && k < since && Own(b[k]) :: Own(a[k]) && b[k].written == a[k].written
  }

  lemma ReshapedStray(s: State, t: State, call: Call)
    requires StrayOk(s, call) && Reshaped(s.server.log, t.server.log) && s.nextRevision <= t.nextRevision
    requires WrittenLater(s.server.log, t.server.log, call.since)
    requires t.server.current == s.server.current && t.server.nextRefresh == s.server.nextRefresh
    requires t.rotation == s.rotation && (s.rotation <= call.since && Settled(s.fate) ==> Settled(t.fate))
    ensures StrayOk(t, call)
  {}

  lemma SettleReshapes(s: State, i: nat, effect: Effect)
    requires Knows(s, i) && Enabled(s, Settle(i, effect))
    ensures var t := Apply(s, Settle(i, effect)); Reshaped(s.server.log, t.server.log)
  {
    var t, k := Apply(s, Settle(i, effect)), s.callers[i].call.request;
    if HasGrant(s.callers[i].stage) && !effect.FailsBefore? {
      OneReshaped(s.server.log, t.server.log, k);
    } else {
      SameReshaped(s.server.log);
    }
  }

  lemma SettleStray(s: State, i: nat, effect: Effect, n: nat)
    requires Knows(s, i) && Enabled(s, Settle(i, effect)) && n < |s.astray| && StrayOk(s, s.astray[n])
    ensures var t := Apply(s, Settle(i, effect)); StrayOk(t, s.astray[n])
  {
    SettleReshapes(s, i, effect);
    ReshapedStray(s, Apply(s, Settle(i, effect)), s.astray[n]);
  }

  lemma SettleStrays(s: State, i: nat, effect: Effect)
    requires Knows(s, i) && StrayInv(s) && Enabled(s, Settle(i, effect))
    ensures StrayInv(Apply(s, Settle(i, effect)))
  {
    forall n | 0 <= n < |s.astray| ensures StrayOk(Apply(s, Settle(i, effect)), s.astray[n]) {
      SettleStray(s, i, effect, n);
    }
  }

  lemma SettleEntry(s: State, i: nat, effect: Effect, k: nat)
    requires Knows(s, i) && Enabled(s, Settle(i, effect))
    requires k < |s.server.log| && EntryOk(s, s.server.log[k])
    ensures var t := Apply(s, Settle(i, effect));
            k < |t.server.log| && EntryOk(t, t.server.log[k])
  {
    EntryFrame(s, Apply(s, Settle(i, effect)), k);
  }

  lemma SettleLog(s: State, i: nat, effect: Effect)
    requires Knows(s, i) && LogInv(s) && Enabled(s, Settle(i, effect))
    ensures LogInv(Apply(s, Settle(i, effect)))
  {
    var t := Apply(s, Settle(i, effect));
    SettleReshapes(s, i, effect);
    forall k | 0 <= k < |t.server.log| ensures EntryOk(t, t.server.log[k]) && PresentsOk(t.server.log, k) {
      SettleEntry(s, i, effect, k);
      ReshapedPresents(s.server.log, t.server.log, k);
    }
    forall k, m | 0 <= k < m < |t.server.log| ensures PairOk(t.server.log[k], k, t.server.log[m]) {
      SettlePair(s, i, effect, k, m);
    }
  }

  lemma SettlePair(s: State, i: nat, effect: Effect, k: nat, m: nat)
    requires Knows(s, i) && Enabled(s, Settle(i, effect)) && k < m < |s.server.log|
    requires PairOk(s.server.log[k], k, s.server.log[m])
    ensures var log := Apply(s, Settle(i, effect)).server.log; m < |log| && PairOk(log[k], k, log[m])
  {
    SettleReshapes(s, i, effect);
  }

  lemma SettleOrphan(s: State, i: nat, effect: Effect, k: nat)
    requires Knows(s, i) && Enabled(s, Settle(i, effect)) && k in s.orphans && OrphanOk(s, k)
    requires s.fate.Adrift? ==> !HasGrant(s.callers[i].stage)
    ensures var t := Apply(s, Settle(i, effect)); t.orphans == s.orphans && OrphanOk(t, k)
  {}

  lemma SettleOrphans(s: State, i: nat, effect: Effect)
    requires Knows(s, i) && OrphanInv(s) && Enabled(s, Settle(i, effect))
    ensures OrphanInv(Apply(s, Settle(i, effect)))
  {
    var t := Apply(s, Settle(i, effect));
    assert t.orphans == s.orphans && t.rotation == s.rotation && (t.fate.Adrift? ==> s.fate.Adrift?);
    forall k | k in t.orphans ensures OrphanOk(t, k) { SettleOrphan(s, i, effect, k); }
  }

  lemma SettleStep(s: State, i: nat, effect: Effect)
    requires Inv(s) && Enabled(s, Settle(i, effect))
    ensures Inv(Apply(s, Settle(i, effect)))
  {
    InvKnows(s, i);
    if !HasGrant(s.callers[i].stage) {
      NotAhead(s, i);
      if s.callers[i].stage.answer.Rejected? { SettleRejected(s, i, effect); } else { SettleUnanswered(s, i, effect); }
    } else {
      match effect {
        case Succeeds => SettleCaches(s, i);
        case FailsAfter => SettleWrites(s, i);
        case FailsBefore => SettleLoses(s, i);
      }
    }
    SettleLog(s, i, effect);
    SettleOrphans(s, i, effect);
    SettleStrays(s, i, effect);
    HolderStep(s, Apply(s, Settle(i, effect)), i);
    HolderReads(s, Apply(s, Settle(i, effect)), i);
  }

  // ---------------------------------------------------------------- or the call is dropped

  lemma DropGrant(s: State, i: nat)
    requires Knows(s, i) && TokenInv(s) && Enabled(s, Cancel(i)) && HasGrant(s.callers[i].stage)
    ensures Tells(s, Apply(s, Cancel(i)), i)
  {}

  lemma DropRejected(s: State, i: nat)
    requires Knows(s, i) && TokenInv(s) && !Ahead(s) && Enabled(s, Cancel(i)) && At(s, i, Answered(Rejected))
    ensures Tells(s, Apply(s, Cancel(i)), i)
  {}

  lemma DropUnanswered(s: State, i: nat)
    requires Knows(s, i) && TokenInv(s) && !Ahead(s) && Enabled(s, Cancel(i)) && At(s, i, Answered(NoAnswer))
    ensures Tells(s, Apply(s, Cancel(i)), i)
  {}

  /** A log that differs only in what is marked as orphaned. */
  ghost predicate Marked(s: State, t: State) {
    && t.store == s.store && t.nextRevision == s.nextRevision && t.server.current == s.server.current
    && Reshaped(s.server.log, t.server.log)
    && forall k | 0 <= k < |s.server.log| :: MoreOrphaned(s.server.log[k], t.server.log[k])
  }

  predicate MoreOrphaned(r: Request, q: Request) { q.written == r.written && (r.orphaned ==> q.orphaned) }

  lemma MarkedEntry(s: State, t: State, r: Request, q: Request)
    requires t.store == s.store && t.nextRevision == s.nextRevision && t.server.current == s.server.current
    requires EntryOk(s, r) && Alike(r, q) && MoreOrphaned(r, q)
    ensures EntryOk(t, q)
  {}

  lemma MarkedPair(r: Request, q: Request, k: nat, later: Request, last: Request)
    requires PairOk(r, k, later) && Alike(r, q) && MoreOrphaned(r, q) && Alike(later, last)
    ensures PairOk(q, k, last)
  {}

  lemma MarkedLog(s: State, t: State)
    requires LogInv(s) && Marked(s, t)
    ensures LogInv(t)
  {
    forall k | 0 <= k < |t.server.log| ensures EntryOk(t, t.server.log[k]) && PresentsOk(t.server.log, k) {
      MarkedEntry(s, t, s.server.log[k], t.server.log[k]);
      ReshapedPresents(s.server.log, t.server.log, k);
    }
    forall k, m | 0 <= k < m < |t.server.log| ensures PairOk(t.server.log[k], k, t.server.log[m]) {
      MarkedPair(s.server.log[k], t.server.log[k], k, s.server.log[m], t.server.log[m]);
    }
  }

  lemma DropMarks(s: State, i: nat)
    requires Enabled(s, Cancel(i)) && s.callers[i].stage.Answered?
    ensures Marked(s, Apply(s, Cancel(i)))
  {
    var t, k := Apply(s, Cancel(i)), s.callers[i].call.request;
    if LeftBehind(s.callers[i].stage, s.callers[i].call).Some? {
      OneReshaped(s.server.log, t.server.log, k);
    } else {
      SameReshaped(s.server.log);
    }
  }

  lemma DropStray(s: State, i: nat, call: Call)
    requires Knows(s, i) && StrayOk(s, call) && Enabled(s, Cancel(i)) && s.callers[i].stage.Answered?
    requires call.since <= s.callers[i].call.request
    ensures StrayOk(Apply(s, Cancel(i)), call)
  {
    var t := Apply(s, Cancel(i));
    DropMarks(s, i);
    assert WrittenLater(s.server.log, t.server.log, call.since) by {
      forall k | 0 <= k < |s.server.log| ensures MoreOrphaned(s.server.log[k], t.server.log[k]) {}
    }
    ReshapedStray(s, t, call);
  }

  lemma DropStrays(s: State, i: nat)
    requires Knows(s, i) && StrayInv(s) && Enabled(s, Cancel(i)) && s.callers[i].stage.Answered?
    ensures StrayInv(Apply(s, Cancel(i)))
  {
    forall n | 0 <= n < |s.astray| ensures StrayOk(Apply(s, Cancel(i)), s.astray[n]) { DropStray(s, i, s.astray[n]); }
  }

  /** What was adrift stays as it is; the new one is of the last request its call made. */
  lemma DropOrphan(s: State, i: nat, k: nat)
    requires Knows(s, i) && Enabled(s, Cancel(i)) && s.callers[i].stage.Answered?
    requires k in s.orphans && OrphanOk(s, k)
    ensures var t := Apply(s, Cancel(i)); k in t.orphans && OrphanOk(t, k)
  {}

  lemma DropNewOrphan(s: State, i: nat)
    requires Knows(s, i) && Enabled(s, Cancel(i)) && s.callers[i].stage.Answered?
    ensures
      var t, k := Apply(s, Cancel(i)), s.callers[i].call.request;
      && (forall m | m in t.orphans && m !in s.orphans :: m == k)
      && (k in t.orphans ==> OrphanOk(t, k))
      && (t.fate.Adrift? ==> s.fate.Adrift? || (k + 1 == t.rotation && k in t.orphans && t.orphans[k].Write?))
  {}

  lemma DropOrphans(s: State, i: nat)
    requires Knows(s, i) && OrphanInv(s) && Enabled(s, Cancel(i)) && s.callers[i].stage.Answered?
    ensures OrphanInv(Apply(s, Cancel(i)))
  {
    var t := Apply(s, Cancel(i));
    DropNewOrphan(s, i);
    forall k | k in t.orphans ensures OrphanOk(t, k) {
      if k in s.orphans { DropOrphan(s, i, k); }
    }
  }

  lemma DropStep(s: State, i: nat)
    requires Inv(s) && Enabled(s, Cancel(i)) && s.callers[i].stage.Answered?
    ensures Inv(Apply(s, Cancel(i)))
  {
    InvKnows(s, i);
    if HasGrant(s.callers[i].stage) {
      DropGrant(s, i);
    } else {
      NotAhead(s, i);
      if s.callers[i].stage.answer.Rejected? { DropRejected(s, i); } else { DropUnanswered(s, i); }
    }
    DropMarks(s, i);
    MarkedLog(s, Apply(s, Cancel(i)));
    DropOrphans(s, i);
    DropStrays(s, i);
    HolderStep(s, Apply(s, Cancel(i)), i);
    HolderReads(s, Apply(s, Cancel(i)), i);
  }

  // ---------------------------------------------------------------- and its write lands

  /** Callers and services are as before; only the store, the log and the fate may have moved. */
  ghost predicate Behind(s: State, t: State) {
    && t.callers == s.callers && t.services == s.services && t.fileLock == s.fileLock
    && t.rotation == s.rotation && Reshaped(s.server.log, t.server.log) && t.astray == s.astray
    && t.server.current == s.server.current && t.server.nextRefresh == s.server.nextRefresh
    && s.nextRevision <= t.nextRevision && StoreMoves(s, t)
  }

  /** The fate moves only between saved and overwritten, or away from adrift. */
  predicate FateMoves(a: Fate, b: Fate) { a == b || (Settled(a) && Settled(b)) || a.Adrift? }

  lemma LandBehind(s: State, k: nat, applied: bool)
    requires StoreInv(s) && OrphanInv(s) && Enabled(s, Land(k, applied))
    ensures var t := Apply(s, Land(k, applied)); Behind(s, t) && StoreInv(t) && FateMoves(s.fate, t.fate)
  {
    assert OrphanOk(s, k);
  }

  lemma LandCall(s: State, k: nat, applied: bool, i: nat)
    requires Enabled(s, Land(k, applied)) && i < |s.callers| && s.callers[i].service < |s.services| && CallOk(s, i)
    requires StoreInv(s) && OrphanInv(s)
    ensures CallOk(Apply(s, Land(k, applied)), i)
  {
    LandBehind(s, k, applied);
    assert OrphanOk(s, k);
  }

  lemma LandService(s: State, t: State, j: nat)
    requires Behind(s, t) && j < |s.services| && ServiceOk(s, j)
    ensures ServiceOk(t, j)
  {}

  lemma LandToken(s: State, k: nat, applied: bool)
    requires TokenInv(s) && OrphanInv(s) && StoreInv(s) && Enabled(s, Land(k, applied))
    ensures TokenInv(Apply(s, Land(k, applied)))
  {
    assert OrphanOk(s, k);
  }

  lemma LandOrphans(s: State, k: nat, applied: bool)
    requires OrphanInv(s) && Enabled(s, Land(k, applied))
    ensures OrphanInv(Apply(s, Land(k, applied)))
  {
    var t := Apply(s, Land(k, applied));
    assert OrphanOk(s, k);
    forall m | m in t.orphans ensures OrphanOk(t, m) { assert OrphanOk(s, m); }
  }

  lemma LandLog(s: State, k: nat, applied: bool)
    requires LogInv(s) && OrphanInv(s) && StoreInv(s) && Enabled(s, Land(k, applied))
    ensures LogInv(Apply(s, Land(k, applied)))
  {
    var t := Apply(s, Land(k, applied));
    assert OrphanOk(s, k);
    LandBehind(s, k, applied);
    forall m | 0 <= m < |t.server.log| ensures EntryOk(t, t.server.log[m]) && PresentsOk(t.server.log, m) {
      EntryFrame(s, t, m);
      ReshapedPresents(s.server.log, t.server.log, m);
    }
    forall l, m | 0 <= l < m < |t.server.log| ensures PairOk(t.server.log[l], l, t.server.log[m]) {
      assert PairOk(s.server.log[l], l, s.server.log[m]);
    }
  }

  lemma LandReads(s: State, k: nat, applied: bool)
    requires ReadsInv(s) && OrphanInv(s) && Enabled(s, Land(k, applied))
    ensures ReadsInv(Apply(s, Land(k, applied)))
  {
    var t := Apply(s, Land(k, applied));
    assert OrphanOk(s, k);
    forall i | 0 <= i < |t.callers| ensures ReadsOk(t, i) { assert ReadsOk(s, i); }
  }

  lemma LandStrays(s: State, k: nat, applied: bool)
    requires StrayInv(s) && OrphanInv(s) && StoreInv(s) && Enabled(s, Land(k, applied))
    ensures StrayInv(Apply(s, Land(k, applied)))
  {
    var t := Apply(s, Land(k, applied));
    assert OrphanOk(s, k);
    LandBehind(s, k, applied);
    forall n | 0 <= n < |t.astray| ensures StrayOk(t, t.astray[n]) { ReshapedStray(s, t, s.astray[n]); }
  }

  lemma LandStep(s: State, k: nat, applied: bool)
    requires Inv(s) && Enabled(s, Land(k, applied))
    ensures Inv(Apply(s, Land(k, applied)))
  {
    var t := Apply(s, Land(k, applied));
    LandBehind(s, k, applied);
    forall i | 0 <= i < |t.callers| ensures t.callers[i].service < |t.services| && CallOk(t, i) {
      LandCall(s, k, applied, i);
    }
    forall j | 0 <= j < |t.services| ensures ServiceOk(t, j) { LandService(s, t, j); }
    LandToken(s, k, applied);
    LandOrphans(s, k, applied);
    LandLog(s, k, applied);
    LandReads(s, k, applied);
    LandStrays(s, k, applied);
  }

  // ---------------------------------------------------------------- a request goes astray, and arrives

  lemma LeaveTells(s: State, i: nat, dropped: bool)
    requires Knows(s, i) && TokenInv(s) && !Ahead(s) && Enabled(s, Leave(i, dropped))
    ensures Tells(s, Apply(s, Leave(i, dropped)), i) && Still(s, Apply(s, Leave(i, dropped)))
  {}

  lemma LeaveStrays(s: State, i: nat, dropped: bool)
    requires Knows(s, i) && StrayInv(s) && Enabled(s, Leave(i, dropped))
    ensures StrayInv(Apply(s, Leave(i, dropped)))
  {
    var t := Apply(s, Leave(i, dropped));
    forall n | 0 <= n < |t.astray| ensures StrayOk(t, t.astray[n]) {
      if n < |s.astray| { assert StrayOk(s, s.astray[n]); }
    }
  }

  lemma LeaveStep(s: State, i: nat, dropped: bool)
    requires Inv(s) && Enabled(s, Leave(i, dropped))
    ensures Inv(Apply(s, Leave(i, dropped)))
  {
    var t := Apply(s, Leave(i, dropped));
    InvKnows(s, i);
    NotAhead(s, i);
    LeaveTells(s, i, dropped);
    LogFrame(s, t);
    OrphanFrame(s, t);
    LeaveStrays(s, i, dropped);
    HolderStep(s, t, i);
    HolderReads(s, t, i);
  }

  lemma ArriveCall(s: State, n: nat, rotates: bool, i: nat)
    requires Enabled(s, Arrive(n, rotates)) && StrayOk(s, s.astray[n]) && StoreInv(s)
    requires i < |s.callers| && s.callers[i].service < |s.services| && CallOk(s, i)
    ensures CallOk(Apply(s, Arrive(n, rotates)), i)
  {}

  lemma ArriveReads(s: State, n: nat, rotates: bool, i: nat)
    requires Enabled(s, Arrive(n, rotates)) && i < |s.callers| && ReadsOk(s, i)
    requires s.callers[i].stage.Deciding? || s.callers[i].stage.Sending? ==> s.callers[i].call.since <= |s.server.log|
    ensures ReadsOk(Apply(s, Arrive(n, rotates)), i)
  {}

  lemma ArriveStray(s: State, n: nat, rotates: bool, call: Call)
    requires Enabled(s, Arrive(n, rotates)) && StrayOk(s, call)
    ensures StrayOk(Apply(s, Arrive(n, rotates)), call)
  {}

  lemma ArriveStrays(s: State, n: nat, rotates: bool)
    requires Enabled(s, Arrive(n, rotates)) && StrayInv(s)
    ensures StrayInv(Apply(s, Arrive(n, rotates)))
  {
    var t := Apply(s, Arrive(n, rotates));
    forall m | 0 <= m < |t.astray| ensures StrayOk(t, t.astray[m]) {
      ArriveStray(s, n, rotates, s.astray[if m < n then m else m + 1]);
    }
  }

  lemma ArriveLog(s: State, n: nat, rotates: bool)
    requires Enabled(s, Arrive(n, rotates)) && StrayOk(s, s.astray[n]) && StoreInv(s) && LogInv(s)
    ensures LogInv(Apply(s, Arrive(n, rotates)))
  {
    var t := Apply(s, Arrive(n, rotates));
    var e := MadeRequest(s, s.astray[n], rotates, true);
    NewPresents(s, s.astray[n], rotates, true);
    AppendLog(s, t, e);
  }

  lemma ArriveOrphans(s: State, n: nat, rotates: bool)
    requires Enabled(s, Arrive(n, rotates)) && OrphanInv(s) && StoreInv(s)
    ensures OrphanInv(Apply(s, Arrive(n, rotates)))
  {
    var t := Apply(s, Arrive(n, rotates));
    forall k | k in t.orphans ensures OrphanOk(t, k) { assert OrphanOk(s, k); }
  }

  lemma ArriveStore(s: State, n: nat, rotates: bool)
    requires Enabled(s, Arrive(n, rotates)) && StoreInv(s) && TokenInv(s)
    ensures StoreInv(Apply(s, Arrive(n, rotates))) && TokenInv(Apply(s, Arrive(n, rotates)))
  {
    NewRotation(s.server.log, s.rotation, MadeRequest(s, s.astray[n], rotates, true));
  }

  lemma ArriveStep(s: State, n: nat, rotates: bool)
    requires Inv(s) && Enabled(s, Arrive(n, rotates))
    ensures Inv(Apply(s, Arrive(n, rotates)))
  {
    var t := Apply(s, Arrive(n, rotates));
    assert StrayOk(s, s.astray[n]);
    ArriveStore(s, n, rotates);
    forall i | 0 <= i < |t.callers| ensures t.callers[i].service < |t.services| && CallOk(t, i) && ReadsOk(t, i) {
      ArriveCall(s, n, rotates, i);
      ArriveReads(s, n, rotates, i);
    }
    forall j | 0 <= j < |t.services| ensures ServiceOk(t, j) { assert ServiceOk(s, j); }
    ArriveLog(s, n, rotates);
    ArriveOrphans(s, n, rotates);
    ArriveStrays(s, n, rotates);
  }

  lemma ClockLog(s: State, t: State)
    requires LogInv(s) && t.server.log == s.server.log && t.server.current == s.server.current
    requires t.store == s.store && t.nextRevision == s.nextRevision
    ensures LogInv(t)
  {
    forall k | 0 <= k < |t.server.log| ensures EntryOk(t, t.server.log[k]) { assert EntryOk(s, s.server.log[k]); }
  }

  lemma ClockCalls(s: State, a: Action)
    requires CallInv(s) && ServiceInv(s) && ReadsInv(s) && (a.RevokeGrant? || a.Tick?)
    ensures var t := Apply(s, a); CallInv(t) && ServiceInv(t) && ReadsInv(t)
  {
    var t := Apply(s, a);
    forall i | 0 <= i < |t.callers| ensures CallOk(t, i) { assert CallOk(s, i); }
    forall j | 0 <= j < |t.services| ensures ServiceOk(t, j) { assert ServiceOk(s, j); }
    forall i | 0 <= i < |t.callers| ensures ReadsOk(t, i) { assert ReadsOk(s, i); }
  }

  lemma ClockStep(s: State, a: Action)
    requires Inv(s) && (a.RevokeGrant? || a.Tick?)
    ensures Inv(Apply(s, a))
  {
    var t := Apply(s, a);
    ClockCalls(s, a);
    ClockLog(s, t);
    forall k | k in t.orphans ensures OrphanOk(t, k) { assert OrphanOk(s, k); }
    forall n | 0 <= n < |t.astray| ensures StrayOk(t, t.astray[n]) { assert StrayOk(s, s.astray[n]); }
  }

  lemma StepInv(s: State, a: Action)
    requires Inv(s) && Enabled(s, a)
    ensures Inv(Apply(s, a))
  {
    match a {
      case Send(i, reply) => SendStep(s, i, reply);
      case Settle(i, effect) => SettleStep(s, i, effect);
      case Land(k, applied) => LandStep(s, k, applied);
      case ReadLatest(i) => ReadLatestStep(s, i);
      case Leave(i, dropped) => LeaveStep(s, i, dropped);
      case Arrive(n, rotates) => ArriveStep(s, n, rotates);
      case Cancel(i) => if s.callers[i].stage.Answered? { DropStep(s, i); } else { LateActions(s, a); }
      case RevokeGrant | Tick(_) => ClockStep(s, a);
      case Begin(_, _) | Observe(_) | TryFast(_) | LockProcess(_) | Recheck(_) | ReadObserved(_) => EarlyActions(s, a);
      case _ => LateActions(s, a);
    }
  }

  lemma {:induction false} RunInv(s: State, run: seq<Action>)
    requires Inv(s) && IsRun(s, run)
    ensures Inv(After(s, run))
    decreases |run|
  {
    if run != [] {
      StepInv(s, run[0]);
      RunInv(Apply(s, run[0]), run[1..]);
    }
  }
}
