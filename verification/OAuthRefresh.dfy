/** The refresh protocol for one stored credential, at the grain of its shared accesses.

    Any number of services, each with its own token cache and its own in-process lock, share
    one secret store and one lock file.  Any number of callers ask them for an access token,
    forced or not, at any time and in any interleaving.  The authorization server rotates
    refresh tokens (section 6 of RFC 6749) and answers `invalid_grant` (section 5.2) to any
    token but the last one it issued.  The clock only moves forward.

    A call may be dropped at any of its awaits.  When that happens while it stores or deletes the
    secret, its locks are free again and the write goes on without it: it lands later, or never.
    And a call that gives up waiting for the server, or is dropped then, leaves its request behind:
    it goes astray, and the server handles it later, or never.

    Refresh and access tokens are numbered in the order they are issued.  A revision is a unique
    name that nobody sees before it is stored, so revisions are numbered in the order they are
    written. */
module OAuthRefresh {
  import opened Options

  const REFRESH_EARLY_SECONDS := 300

  /** No expiry, or one later than the safety margin. */
  predicate IsFresh(expiresAt: Option<int>, now: int) {
    expiresAt.Some? ==> expiresAt.value > now + REFRESH_EARLY_SECONDS
  }

  datatype Stored = Stored(revision: nat, refresh: Option<nat>, access: Option<nat>, expiresAt: Option<int>)

  datatype Cached = Cached(token: nat, expiresAt: Option<int>, revision: nat)

  /** `latest` is the revision last put in the cache; `broken` says that a refresh cleared the
      cache after that and never filled it again.  Both only record what happened. */
  datatype Service = Service(cache: Option<Cached>, lock: Option<nat>, latest: Option<nat>, broken: bool)

  datatype Answer =
    | Granted(access: nat, refresh: Option<nat>, expiresAt: Option<int>, rotated: bool)
    | Rejected
    | NoAnswer

  datatype Result =
    | Pending
    | Yielded(token: nat, revision: nat)
    | SecretNotFound
    | ReauthenticationRequired
    | Failed
    | Cancelled

  datatype Stage =
    | Idle
    | Observing
    | FastPath
    | WaitingProcess
    | Rechecking
    | ReadingObserved
    | WaitingFile
    | ReadingLatest
    | Deciding
    | Sending
    | Answered(answer: Answer)
    | Caching(cached: Cached)
    | ReleasingFile
    | ReleasingProcess

  /** The local variables of one call, and what its checks found on the way:
      `newer` that somebody in its service cached a token after it had looked,
      `gone` that the cache had been lost to a failed refresh,
      `staleCache` and `staleStore` that the token found was within the margin of expiry;
      `fate` is what had become of the last rotation when the call read the stored token, and `since`
      how many requests the server had handled by then. */
  datatype Call = Call(
    force: bool,
    seen: Option<nat>,
    latestSeen: Option<nat>,
    observed: nat,
    stored: Stored,
    fate: Fate,
    since: nat,
    newer: bool,
    gone: bool,
    staleCache: bool,
    staleStore: bool,
    request: nat,
    result: Result)

  datatype Caller = Caller(service: nat, stage: Stage, call: Call)

  /** What became of the token that the server issued last.  It is saved once the answer that
      brought it, or any later answer, has been stored.  Until then its holder has it; or the call
      was dropped and its write is adrift; or it is lost, because the answer did not arrive or the
      write failed.  And it is overwritten when a write that was adrift since before lands on it. */
  datatype Fate = Saved | Held | Adrift | Lost | Overwritten

  /** A write or delete that outlives the call that began it. */
  datatype Unfinished = Write(refresh: Option<nat>, access: nat, expiresAt: Option<int>) | Erase

  /** One refresh request as the server saw it, in the order they were handled, with what its caller knew.
      `fate` is that of the last rotation when the token was read, `since` the number of requests handled
      by then; `late` says that the request had gone astray, `orphaned` that the call was dropped while
      its answer was being stored, `written` which revision the answer became. */
  datatype Request = Request(
    token: nat,
    current: nat,
    fate: Fate,
    since: nat,
    late: bool,
    force: bool,
    observed: nat,
    revision: nat,
    newer: bool,
    gone: bool,
    staleCache: bool,
    staleStore: bool,
    rotated: bool,
    orphaned: bool,
    written: Option<nat>)

  datatype Server = Server(current: nat, nextRefresh: nat, nextAccess: nat, revoked: bool, log: seq<Request>)

  /** `rotation` is one more than the number of the last request that rotated the token, or 0;
      `orphans` are the unfinished writes, each under the number of its request; `astray` are the calls
      whose requests went out and that ended without waiting for the answer. */
  datatype State = State(
    store: Option<Stored>,
    fileLock: Option<nat>,
    services: seq<Service>,
    callers: seq<Caller>,
    server: Server,
    now: int,
    nextRevision: nat,
    rotation: nat,
    fate: Fate,
    orphans: map<nat, Unfinished>,
    astray: seq<Call>)

  /** How a write or delete ends: well, with an error that left things as they were, or with an error
      after it had taken effect. */
  datatype Effect = Succeeds | FailsBefore | FailsAfter

  datatype Reply =
    | Rotates(expiresAt: Option<int>)
    | Keeps(expiresAt: Option<int>, repeats: bool)
    | Rejects
    | Unreachable
    | AnswerLost

  datatype Action =
    | Begin(i: nat, force: bool)
    | Observe(i: nat)
    | TryFast(i: nat)
    | LockProcess(i: nat)
    | Recheck(i: nat)
    | ReadObserved(i: nat)
    | LockFile(i: nat)
    | ReadLatest(i: nat)
    | Decide(i: nat)
    | Send(i: nat, reply: Reply)
    | Settle(i: nat, effect: Effect)
    | CacheNew(i: nat)
    | UnlockFile(i: nat)
    | UnlockProcess(i: nat)
    | Cancel(i: nat)
    | Leave(i: nat, dropped: bool)
    | Arrive(n: nat, rotates: bool)
    | Land(request: nat, applied: bool)
    | RevokeGrant
    | Tick(seconds: nat)

  const NO_STORED := Stored(0, None, None, None)
  const NO_CALL := Call(false, None, None, 0, NO_STORED, Saved, 0, false, false, false, false, 0, Pending)

  /** A service that has just logged in has what it stored in its cache; any other starts empty. */
  function NewService(first: Stored, loggedIn: bool): (v: Service) {
    if loggedIn && first.access.Some?
    then Service(Some(Cached(first.access.value, first.expiresAt, first.revision)), None, Some(first.revision), false)
    else Service(None, None, None, false)
  }

  /** After a login that stored `first`, by one of these services or by none of them; the server has
      issued at most refresh token 0. */
  function Init(serviceOf: seq<nat>, services: nat, first: Stored, loggedIn: Option<nat>, now: int): (s: State) {
    State(Some(first), None,
          seq(services, j => NewService(first, loggedIn == Some(j))),
          seq(|serviceOf|, i requires 0 <= i < |serviceOf| => Caller(serviceOf[i], Idle, NO_CALL)),
          Server(0, 1, 1, false, []), now, first.revision + 1, 0, Saved, map[], [])
  }

  predicate GoodLogin(serviceOf: seq<nat>, services: nat, first: Stored) {
    && (forall i | 0 <= i < |serviceOf| :: serviceOf[i] < services)
    && (first.refresh.Some? ==> first.refresh.value == 0)
  }

  // ---------------------------------------------------------------- steps

  predicate At(s: State, i: nat, stage: Stage) {
    i < |s.callers| && s.callers[i].service < |s.services| && s.callers[i].stage == stage
  }

  /** The call is at one of its awaits: a lock, a reading, the server's answer, or the storing or
      deleting that the answer calls for. */
  predicate Awaits(stage: Stage) {
    || stage.WaitingProcess? || stage.ReadingObserved? || stage.WaitingFile? || stage.ReadingLatest?
    || stage.Sending? || stage.Answered?
  }

  predicate Enabled(s: State, a: Action) {
    match a
    case Begin(i, _) => At(s, i, Idle)
    case Observe(i) => At(s, i, Observing)
    case TryFast(i) => At(s, i, FastPath)
    case LockProcess(i) => At(s, i, WaitingProcess) && s.services[s.callers[i].service].lock.None?
    case Recheck(i) => At(s, i, Rechecking)
    case ReadObserved(i) => At(s, i, ReadingObserved)
    case LockFile(i) => At(s, i, WaitingFile) && s.fileLock.None?
    case ReadLatest(i) => At(s, i, ReadingLatest)
    case Decide(i) => At(s, i, Deciding)
    case Send(i, reply) =>
      && At(s, i, Sending)
      && s.callers[i].call.stored.refresh.Some?
      && (var accepted := s.callers[i].call.stored.refresh.value == s.server.current && !s.server.revoked;
          match reply
          case Rotates(_) => accepted
          case Keeps(_, _) => accepted
          case AnswerLost => accepted
          case Rejects => !accepted
          case Unreachable => true)
    case Settle(i, _) => i < |s.callers| && s.callers[i].service < |s.services| && s.callers[i].stage.Answered?
    case CacheNew(i) => i < |s.callers| && s.callers[i].service < |s.services| && s.callers[i].stage.Caching?
    case UnlockFile(i) => At(s, i, ReleasingFile)
    case UnlockProcess(i) => At(s, i, ReleasingProcess)
    case Cancel(i) =>
      && i < |s.callers| && s.callers[i].service < |s.services|
      && Awaits(s.callers[i].stage)
      && (s.callers[i].stage.Answered? ==> s.callers[i].call.request < |s.server.log|)
    case Leave(i, _) => At(s, i, Sending) && s.callers[i].call.stored.refresh.Some?
    case Arrive(n, rotates) =>
      && n < |s.astray| && s.astray[n].stored.refresh.Some?
      && (rotates ==> s.astray[n].stored.refresh.value == s.server.current && !s.server.revoked)
    case Land(request, _) => request in s.orphans && request < |s.server.log|
    case RevokeGrant => true
    case Tick(_) => true
  }

  function Move(s: State, i: nat, stage: Stage, call: Call): (t: State)
    requires i < |s.callers|
  {
    s.(callers := s.callers[i := s.callers[i].(stage := stage, call := call)])
  }

  function SetService(s: State, j: nat, v: Service): (t: State)
    requires j < |s.services|
  {
    s.(services := s.services[j := v])
  }

  function HoldsFile(stage: Stage): (b: bool) {
    stage.ReadingLatest? || stage.Deciding? || stage.Sending? || stage.Answered? || stage.Caching?
      || stage.ReleasingFile?
  }

  function HoldsProcess(stage: Stage): (b: bool) {
    HoldsFile(stage) || stage.Rechecking? || stage.ReadingObserved? || stage.WaitingFile? || stage.ReleasingProcess?
  }

  /** Puts a token in the service's cache. */
  function Fill(v: Service, cached: Cached): (w: Service) {
    v.(cache := Some(cached), latest := Some(cached.revision), broken := false)
  }

  function Apply(s: State, a: Action): (t: State)
    requires Enabled(s, a)
  {
    match a
    case Begin(i, force) => Move(s, i, Observing, NO_CALL.(force := force))
    case Observe(i) =>
      var v := s.services[s.callers[i].service];
      Move(s, i, FastPath, s.callers[i].call.(
        seen := if v.cache.Some? then Some(v.cache.value.revision) else None, latestSeen := v.latest))
    case TryFast(i) =>
      var call := s.callers[i].call;
      var v := s.services[s.callers[i].service];
      if !call.force && v.cache.Some? && IsFresh(v.cache.value.expiresAt, s.now)
      then Move(s, i, Idle, call.(result := Yielded(v.cache.value.token, v.cache.value.revision)))
      else Move(s, i, WaitingProcess, call)
    case LockProcess(i) =>
      var j := s.callers[i].service;
      SetService(Move(s, i, Rechecking, s.callers[i].call), j, s.services[j].(lock := Some(i)))
    case Recheck(i) => ApplyRecheck(s, i)
    case ReadObserved(i) =>
      var call := s.callers[i].call;
      if s.store.None? then Move(s, i, ReleasingProcess, call.(result := SecretNotFound))
      else Move(s, i, WaitingFile, call.(observed := s.store.value.revision))
    case LockFile(i) => Move(s, i, ReadingLatest, s.callers[i].call).(fileLock := Some(i))
    case ReadLatest(i) =>
      var call := s.callers[i].call;
      if s.store.None? then Move(s, i, ReleasingFile, call.(result := SecretNotFound))
      else Move(s, i, Deciding, call.(stored := s.store.value, fate := s.fate, since := |s.server.log|))
    case Decide(i) => ApplyDecide(s, i)
    case Send(i, reply) => ApplySend(s, i, reply)
    case Settle(i, effect) => ApplySettle(s, i, effect)
    case CacheNew(i) =>
      var j := s.callers[i].service;
      var cached := s.callers[i].stage.cached;
      SetService(
        Move(s, i, ReleasingFile, s.callers[i].call.(result := Yielded(cached.token, cached.revision))),
        j, Fill(s.services[j], cached))
    case UnlockFile(i) => Move(s, i, ReleasingProcess, s.callers[i].call).(fileLock := None)
    case UnlockProcess(i) =>
      var j := s.callers[i].service;
      SetService(Move(s, i, Idle, s.callers[i].call), j, s.services[j].(lock := None))
    case Cancel(i) => ApplyCancel(s, i)
    case Leave(i, dropped) => ApplyLeave(s, i, dropped)
    case Arrive(n, rotates) => ApplyArrive(s, n, rotates)
    case Land(request, applied) => ApplyLand(s, request, applied)
    case RevokeGrant => s.(server := s.server.(revoked := true))
    case Tick(seconds) => s.(now := s.now + seconds)
  }

  /** Under the in-process lock: a token cached meanwhile ends the call, for a forced call only
      if its revision is not the one the call saw when it started. */
  predicate CacheServes(call: Call, v: Service, now: int) {
    && v.cache.Some? && IsFresh(v.cache.value.expiresAt, now)
    && (!call.force || Some(v.cache.value.revision) != call.seen)
  }

  function ApplyRecheck(s: State, i: nat): (t: State)
    requires At(s, i, Rechecking)
  {
    var call := s.callers[i].call;
    var v := s.services[s.callers[i].service];
    if CacheServes(call, v, s.now)
    then Move(s, i, ReleasingProcess, call.(result := Yielded(v.cache.value.token, v.cache.value.revision)))
    else Move(s, i, ReadingObserved, call.(
           newer := v.latest != call.latestSeen,
           gone := v.broken,
           staleCache := v.cache.Some? && !IsFresh(v.cache.value.expiresAt, s.now)))
  }

  /** Under the lock file: use the stored token, or give up, or clear the cache and refresh. */
  predicate StoreServes(call: Call, now: int) {
    && (!call.force || call.stored.revision != call.observed)
    && call.stored.access.Some? && IsFresh(call.stored.expiresAt, now)
  }

  function ApplyDecide(s: State, i: nat): (t: State)
    requires At(s, i, Deciding)
  {
    var call := s.callers[i].call;
    var stored := call.stored;
    var j := s.callers[i].service;
    if StoreServes(call, s.now) then
      SetService(
        Move(s, i, ReleasingFile, call.(result := Yielded(stored.access.value, stored.revision))),
        j, Fill(s.services[j], Cached(stored.access.value, stored.expiresAt, stored.revision)))
    else if stored.refresh.None? then
      Move(s, i, ReleasingFile, call.(result := ReauthenticationRequired))
    else
      SetService(
        Move(s, i, Sending, call.(staleStore := stored.access.None? || !IsFresh(stored.expiresAt, s.now))),
        j, s.services[j].(cache := None))
  }

  /** The request of a call, as it comes to the server. */
  function MadeRequest(s: State, call: Call, rotates: bool, late: bool): (r: Request)
    requires call.stored.refresh.Some?
  {
    Request(call.stored.refresh.value, s.server.current, call.fate, call.since, late, call.force, call.observed,
            call.stored.revision, call.newer, call.gone, call.staleCache, call.staleStore, rotates, false, None)
  }

  predicate Rotating(reply: Reply) { reply.Rotates? || reply.AnswerLost? }

  function Received(s: State, call: Call, rotates: bool, late: bool): (v: Server)
    requires call.stored.refresh.Some?
  {
    s.server.(log := s.server.log + [MadeRequest(s, call, rotates, late)])
  }

  function Rotated(v: Server): (w: Server) {
    v.(current := v.nextRefresh, nextRefresh := v.nextRefresh + 1, nextAccess := v.nextAccess + 1)
  }

  function ApplySend(s: State, i: nat, reply: Reply): (t: State)
    requires Enabled(s, Send(i, reply))
  {
    var call := s.callers[i].call;
    var v := Received(s, call, Rotating(reply), false);
    var rotated := Rotated(v);
    var made := call.(request := |s.server.log|);
    match reply
    case Rotates(e) =>
      Move(s, i, Answered(Granted(v.nextAccess, Some(rotated.current), e, true)), made)
      .(server := rotated, rotation := |s.server.log| + 1, fate := Held)
    case Keeps(e, repeats) =>
      Move(s, i, Answered(Granted(v.nextAccess, if repeats then Some(v.current) else None, e, false)), made)
      .(server := v.(nextAccess := v.nextAccess + 1))
    case Rejects => Move(s, i, Answered(Rejected), made).(server := v)
    case Unreachable => Move(s, i, Answered(NoAnswer), made).(server := v)
    case AnswerLost =>
      Move(s, i, Answered(NoAnswer), made).(server := rotated, rotation := |s.server.log| + 1, fate := Lost)
  }

  /** The call gives up waiting for the answer, or is dropped while it waits; its request goes on. */
  function ApplyLeave(s: State, i: nat, dropped: bool): (t: State)
    requires At(s, i, Sending)
  {
    var call := s.callers[i].call;
    var j := s.callers[i].service;
    var v := s.services[j].(broken := true);
    if dropped then
      SetService(Move(s, i, Idle, call.(result := Cancelled)), j, v.(lock := None))
      .(fileLock := None, astray := s.astray + [call])
    else SetService(Move(s, i, ReleasingFile, call.(result := Failed)), j, v).(astray := s.astray + [call])
  }

  /** The server handles a request that nobody waits for any more. */
  function ApplyArrive(s: State, n: nat, rotates: bool): (t: State)
    requires Enabled(s, Arrive(n, rotates))
  {
    var v := Received(s, s.astray[n], rotates, true);
    var left := s.astray[..n] + s.astray[n + 1..];
    if rotates then s.(server := Rotated(v), rotation := |s.server.log| + 1, fate := Lost, astray := left)
    else s.(server := v, astray := left)
  }

  // ---------------------------------------------------------------- writing the secret

  /** What an answer says is to be stored: a token it does not repeat is kept. */
  function ToWrite(call: Call, g: Answer): (w: Unfinished)
    requires g.Granted?
    ensures w.Write?
  {
    Write(if g.refresh.Some? then g.refresh else call.stored.refresh, g.access, g.expiresAt)
  }

  /** The answer to `request` is stored.  The last rotation is saved by that, unless it came later. */
  function Store(s: State, request: nat, w: Unfinished): (t: State)
    requires w.Write? && request < |s.server.log|
  {
    s.(store := Some(Stored(s.nextRevision, w.refresh, Some(w.access), w.expiresAt)),
       nextRevision := s.nextRevision + 1,
       server := s.server.(log := s.server.log[request := s.server.log[request].(written := Some(s.nextRevision))]),
       fate := if request + 1 >= s.rotation then Saved else if s.fate.Saved? then Overwritten else s.fate)
  }

  /** The answer to `request` will not be stored. */
  function GiveUp(s: State, request: nat): (t: State) { s.(fate := if request + 1 == s.rotation then Lost else s.fate) }

  /** The answer is acted on. */
  function ApplySettle(s: State, i: nat, effect: Effect): (t: State)
    requires i < |s.callers| && s.callers[i].service < |s.services| && s.callers[i].stage.Answered?
  {
    var call := s.callers[i].call;
    var j := s.callers[i].service;
    var answer := s.callers[i].stage.answer;
    var failed := SetService(Move(s, i, ReleasingFile, call.(result := Failed)), j, s.services[j].(broken := true));
    match answer
    case Granted(access, _, expiresAt, _) =>
      if effect.FailsBefore? || call.request >= |s.server.log| then GiveUp(failed, call.request)
      else if effect.FailsAfter? then Store(failed, call.request, ToWrite(call, answer))
      else
        Store(Move(s, i, Caching(Cached(access, expiresAt, s.nextRevision)), call), call.request, ToWrite(call, answer))
    case Rejected =>
      if effect.FailsBefore? then failed
      else if effect.FailsAfter? then failed.(store := None)
      else
        SetService(Move(s, i, ReleasingFile, call.(result := ReauthenticationRequired)), j,
          s.services[j].(broken := true))
        .(store := None)
    case NoAnswer => failed
  }

  /** What goes on without a call that is dropped at this stage. */
  function LeftBehind(stage: Stage, call: Call): (w: Option<Unfinished>) {
    if !stage.Answered? || stage.answer.NoAnswer? then None
    else if stage.answer.Rejected? then Some(Erase)
    else Some(ToWrite(call, stage.answer))
  }

  /** A write goes on without its call. */
  function SetAdrift(s: State, request: nat, w: Unfinished): (t: State)
    requires request < |s.server.log|
  {
    s.(orphans := s.orphans[request := w],
       server := s.server.(log := s.server.log[request := s.server.log[request].(orphaned := true)]),
       fate := if w.Write? && request + 1 == s.rotation then Adrift else s.fate)
  }

  /** The call is dropped while it waits: whatever locks it held are free again. */
  function ApplyCancel(s: State, i: nat): (t: State)
    requires Enabled(s, Cancel(i))
  {
    var j := s.callers[i].service;
    var stage := s.callers[i].stage;
    var v := s.services[j];
    var left := LeftBehind(stage, s.callers[i].call);
    var freed := SetService(
      Move(s, i, Idle, s.callers[i].call.(result := Cancelled)), j,
      v.(lock := if HoldsProcess(stage) then None else v.lock, broken := v.broken || stage.Sending? || stage.Answered?))
      .(fileLock := if HoldsFile(stage) then None else s.fileLock);
    if left.Some? then SetAdrift(freed, s.callers[i].call.request, left.value) else freed
  }

  /** An unfinished write takes effect, or turns out never to. */
  function ApplyLand(s: State, request: nat, applied: bool): (t: State)
    requires Enabled(s, Land(request, applied))
  {
    var landed := s.(orphans := s.orphans - {request});
    match s.orphans[request]
    case Erase => if applied then landed.(store := None) else landed
    case Write(_, _, _) => if applied then Store(landed, request, s.orphans[request]) else GiveUp(landed, request)
  }

  predicate IsRun(s: State, run: seq<Action>)
    decreases |run|
  {
    run == [] || (Enabled(s, run[0]) && IsRun(Apply(s, run[0]), run[1..]))
  }

  function After(s: State, run: seq<Action>): (t: State)
    requires IsRun(s, run)
    decreases |run|
  {
    if run == [] then s else After(Apply(s, run[0]), run[1..])
  }
}
