/** The lease protocol of one attachment, at the grain of its atomic actions.

    Any number of callers acquire and drop leases, any number of revokers withdraw the
    attachment, and any number of waiters drain it.  One action is one atomic load or store,
    one critical section of the lifecycle mutex, or one call on the notifier, so every
    interleaving the threads can produce is a sequence of actions. */
module LeaseProtocol {

  /** Where a caller of `acquire`, or the owner of the lease it was given, stands. */
  datatype Caller =
    | Outside    // holds nothing
    | Checked    // passed the first revocation check, not counted yet
    | Counted    // counted, the second revocation check is still to come
    | Refused    // the second check saw the revocation, the count must be given back
    | Holding    // owns a lease
    | Notifying  // brought the count to zero, has not told the waiters yet

  /** A drain wait: `notified` says that the registration has been signalled.
      `Drained` remembers whether the attachment was revoked when zero was seen. */
  datatype Waiter =
    | AtLoopTop
    | Registered(notified: bool)
    | Parked(notified: bool)
    | Drained(revoked: bool)
    | TimedOut

  datatype Revoker = Ready | FlagStored | Cancelled | Announced

  datatype State = State(
    active: nat,
    revoked: bool,
    cancelled: bool,
    callers: seq<Caller>,
    waiters: seq<Waiter>,
    revokers: seq<Revoker>)

  datatype Action =
    | FirstCheck(i: nat)
    | Count(i: nat)
    | SecondCheck(i: nat)
    | Release(i: nat)        // a dropped lease, or a refused caller giving its count back
    | NotifyIdle(i: nat)
    | StoreRevoked(k: nat)
    | Cancel(k: nat)
    | NotifyRevoked(k: nat)
    | Register(w: nat)
    | CheckIdle(w: nat)
    | WakeUp(w: nat)
    | TimeOut(w: nat)

  function Init(callers: nat, waiters: nat, revokers: nat): (s: State) {
    State(0, false, false, seq(callers, _ => Outside), seq(waiters, _ => AtLoopTop), seq(revokers, _ => Ready))
  }

  predicate Enabled(s: State, a: Action) {
    match a
    case FirstCheck(i) => i < |s.callers| && s.callers[i] == Outside
    case Count(i) => i < |s.callers| && s.callers[i] == Checked
    case SecondCheck(i) => i < |s.callers| && s.callers[i] == Counted
    case Release(i) => i < |s.callers| && (s.callers[i] == Holding || s.callers[i] == Refused)
    case NotifyIdle(i) => i < |s.callers| && s.callers[i] == Notifying
    case StoreRevoked(k) => k < |s.revokers| && s.revokers[k] == Ready
    case Cancel(k) => k < |s.revokers| && s.revokers[k] == FlagStored
    case NotifyRevoked(k) => k < |s.revokers| && s.revokers[k] == Cancelled
    case Register(w) => w < |s.waiters| && s.waiters[w] == AtLoopTop
    case CheckIdle(w) => w < |s.waiters| && s.waiters[w].Registered?
    case WakeUp(w) => w < |s.waiters| && s.waiters[w] == Parked(true)
    case TimeOut(w) => w < |s.waiters| && !s.waiters[w].Drained? && !s.waiters[w].TimedOut?
  }

  function Apply(s: State, a: Action): (t: State)
    requires Enabled(s, a)
  {
    match a
    case FirstCheck(i) => if s.revoked then s else s.(callers := s.callers[i := Checked])
    case Count(i) => s.(active := s.active + 1, callers := s.callers[i := Counted])
    case SecondCheck(i) => s.(callers := s.callers[i := if s.revoked then Refused else Holding])
    case Release(i) =>
      // saturating subtraction, and only the release that reaches zero notifies
      var left := if s.active == 0 then 0 else s.active - 1;
      s.(active := left, callers := s.callers[i := if left == 0 then Notifying else Outside])
    case NotifyIdle(i) => s.(callers := s.callers[i := Outside], waiters := Signal(s.waiters))
    case StoreRevoked(k) => s.(revoked := true, revokers := s.revokers[k := FlagStored])
    case Cancel(k) => s.(cancelled := true, revokers := s.revokers[k := Cancelled])
    case NotifyRevoked(k) => s.(revokers := s.revokers[k := Announced], waiters := Signal(s.waiters))
    case Register(w) => s.(waiters := s.waiters[w := Registered(false)])
    case CheckIdle(w) =>
      s.(waiters := s.waiters[w := if s.active == 0 then Drained(s.revoked) else Parked(s.waiters[w].notified)])
    case WakeUp(w) => s.(waiters := s.waiters[w := AtLoopTop])
    case TimeOut(w) => s.(waiters := s.waiters[w := TimedOut])
  }

  /** `notify_waiters`: every registration made so far is signalled, later ones are not. */
  function Signal(ws: seq<Waiter>): (r: seq<Waiter>) {
    seq(|ws|, i requires 0 <= i < |ws| => SignalOne(ws[i]))
  }

  function SignalOne(w: Waiter): (r: Waiter) {
    match w
    case Registered(_) => Registered(true)
    case Parked(_) => Parked(true)
    case _ => w
  }

  predicate IsRun(s: State, run: seq<Action>)
    decreases |run|
  {
    run == [] || (Enabled(s, run[0]) && IsRun(Apply(s, run[0]), run[1..]))
  }

  function After(s: State, run: seq<Action>): (t: State)
    requires IsRun(s, run)
    decreases |run|
  {
    if run == [] then s else After(Apply(s, run[0]), run[1..])
  }

  // ---------------------------------------------------------------- the invariant

  predicate CountedIn(c: Caller) { c == Counted || c == Refused || c == Holding }

  function Outstanding(cs: seq<Caller>): (n: nat) {
    if cs == [] then 0 else (if CountedIn(cs[0]) then 1 else 0) + Outstanding(cs[1..])
  }

  /** Some thread still has to tell the waiters that something changed. */
  ghost predicate SignalDue(s: State) {
    (exists i | 0 <= i < |s.callers| :: s.callers[i] == Notifying)
  }

  ghost predicate Inv(s: State) {
    && s.active == Outstanding(s.callers)
    && (s.active == 0 && !SignalDue(s) ==> forall w | 0 <= w < |s.waiters| :: s.waiters[w] != Parked(false))
    && (forall i | 0 <= i < |s.callers| :: s.callers[i] == Refused ==> s.revoked)
    && (forall k | 0 <= k < |s.revokers| :: s.revokers[k] != Ready ==> s.revoked)
    && (forall k | 0 <= k < |s.revokers| :: s.revokers[k] == Cancelled || s.revokers[k] == Announced ==> s.cancelled)
    && (forall w | 0 <= w < |s.waiters| :: s.waiters[w] == Drained(true) ==>
          s.revoked && forall i | 0 <= i < |s.callers| :: s.callers[i] != Holding)
  }

  lemma {:induction false} OutstandingUpdate(cs: seq<Caller>, i: nat, c: Caller)
    requires i < |cs|
    ensures Outstanding(cs[i := c]) ==
            Outstanding(cs) - (if CountedIn(cs[i]) then 1 else 0) + (if CountedIn(c) then 1 else 0)
  {
    if i > 0 {
      assert cs[i := c][1..] == cs[1..][i - 1 := c];
      OutstandingUpdate(cs[1..], i - 1, c);
    } else {
      assert cs[i := c][1..] == cs[1..];
    }
  }

  lemma {:induction false} OutstandingMember(cs: seq<Caller>, i: nat)
    requires i < |cs| && CountedIn(cs[i])
    ensures Outstanding(cs) > 0
  {
    if i > 0 { OutstandingMember(cs[1..], i - 1); }
  }

  lemma {:induction false} OutstandingWitness(cs: seq<Caller>)
    requires Outstanding(cs) > 0
    ensures exists i | 0 <= i < |cs| :: CountedIn(cs[i])
  {
    if CountedIn(cs[0]) {
      assert CountedIn(cs[0]);
    } else {
      OutstandingWitness(cs[1..]);
      var i :| 0 <= i < |cs[1..]| && CountedIn(cs[1..][i]);
      assert CountedIn(cs[i + 1]);
    }
  }

  lemma {:induction false} OutstandingInit(n: nat)
    ensures Outstanding(seq(n, _ => Outside)) == 0
  {
    if n > 0 {
      assert seq(n, _ => Outside)[1..] == seq(n - 1, _ => Outside);
      OutstandingInit(n - 1);
    }
  }

  lemma InitInv(callers: nat, waiters: nat, revokers: nat)
    ensures Inv(Init(callers, waiters, revokers))
  {
    OutstandingInit(callers);
  }

  /** Actions of callers keep the invariant. */
  lemma CallerStep(s: State, a: Action)
    requires Inv(s) && Enabled(s, a)
    requires a.FirstCheck? || a.Count? || a.SecondCheck? || a.Release? || a.NotifyIdle?
    ensures Inv(Apply(s, a))
  {
    var t := Apply(s, a);
    OutstandingUpdate(s.callers, a.i, t.callers[a.i]);
    if a.Release? {
      OutstandingMember(s.callers, a.i);
      if t.active == 0 { assert t.callers[a.i] == Notifying; }
    }
    if SignalDue(s) && !a.NotifyIdle? {
      var i :| 0 <= i < |s.callers| && s.callers[i] == Notifying;
      assert t.callers[i] == Notifying;
    }
  }

  /** Actions of revokers and waiters keep the invariant. */
  lemma OtherStep(s: State, a: Action)
    requires Inv(s) && Enabled(s, a)
    requires a.StoreRevoked? || a.Cancel? || a.NotifyRevoked? || a.Register? || a.CheckIdle? || a.WakeUp? || a.TimeOut?
    ensures Inv(Apply(s, a))
  {
    var t := Apply(s, a);
    assert t.callers == s.callers;
    if a.CheckIdle? && s.active == 0 {
      forall i | 0 <= i < |s.callers| ensures s.callers[i] != Holding {
        if s.callers[i] == Holding { OutstandingMember(s.callers, i); }
      }
    }
  }

  lemma StepInv(s: State, a: Action)
    requires Inv(s) && Enabled(s, a)
    ensures Inv(Apply(s, a))
  {
    if a.FirstCheck? || a.Count? || a.SecondCheck? || a.Release? || a.NotifyIdle? {
      CallerStep(s, a);
    } else {
      OtherStep(s, a);
    }
  }

  lemma {:induction false} RunInv(s: State, run: seq<Action>)
    requires Inv(s) && IsRun(s, run)
    ensures Inv(After(s, run))
    decreases |run|
  {
    if run != [] {
      StepInv(s, run[0]);
      RunInv(Apply(s, run[0]), run[1..]);
    }
  }

  // ---------------------------------------------------------------- safety

  lemma {:induction false} DrainedStays(s: State, run: seq<Action>, w: nat)
    requires IsRun(s, run) && w < |s.waiters| && s.waiters[w] == Drained(true)
    ensures w < |After(s, run).waiters| && After(s, run).waiters[w] == Drained(true)
    decreases |run|
  {
    if run != [] { DrainedStays(Apply(s, run[0]), run[1..], w); }
  }

  lemma {:induction false} RunSplit(s: State, before: seq<Action>, later: seq<Action>)
    requires IsRun(s, before) && IsRun(After(s, before), later)
    ensures IsRun(s, before + later) && After(s, before + later) == After(After(s, before), later)
    decreases |before|
  {
    if before == [] {
      assert before + later == later;
    } else {
      assert (before + later)[1..] == before[1..] + later;
      RunSplit(Apply(s, before[0]), before[1..], later);
    }
  }

  /** A drain wait that ended on a zero count after the revocation is final: at that moment,
      and in every later state of every interleaving, no caller owns a lease. */
  lemma DrainIsFinal(callers: nat, waiters: nat, revokers: nat, before: seq<Action>, later: seq<Action>, w: nat)
    requires IsRun(Init(callers, waiters, revokers), before)
    requires IsRun(After(Init(callers, waiters, revokers), before), later)
    requires var s := After(Init(callers, waiters, revokers), before);
             w < |s.waiters| && s.waiters[w] == Drained(true)
    ensures var t := After(After(Init(callers, waiters, revokers), before), later);
            forall i | 0 <= i < |t.callers| :: t.callers[i] != Holding
  {
    var s0 := Init(callers, waiters, revokers);
    InitInv(callers, waiters, revokers);
    RunSplit(s0, before, later);
    RunInv(s0, before + later);
    DrainedStays(After(s0, before), later, w);
  }

  /** No lost wakeup: in every reachable state, a parked waiter nobody has signalled has
      somebody left who will signal it: a thread still counted, or one about to notify. */
  lemma NoLostWakeup(callers: nat, waiters: nat, revokers: nat, run: seq<Action>, w: nat)
    requires IsRun(Init(callers, waiters, revokers), run)
    requires var s := After(Init(callers, waiters, revokers), run);
             w < |s.waiters| && s.waiters[w] == Parked(false)
    ensures var s := After(Init(callers, waiters, revokers), run);
            exists i | 0 <= i < |s.callers| :: CountedIn(s.callers[i]) || s.callers[i] == Notifying
  {
    var s := After(Init(callers, waiters, revokers), run);
    InitInv(callers, waiters, revokers);
    RunInv(Init(callers, waiters, revokers), run);
    if !SignalDue(s) { OutstandingWitness(s.callers); }
  }

  /** The count is exact: it never underflows, and it is the number of threads that have
      been counted and have not released. */
  lemma CountIsExact(callers: nat, waiters: nat, revokers: nat, run: seq<Action>)
    requires IsRun(Init(callers, waiters, revokers), run)
    ensures var s := After(Init(callers, waiters, revokers), run);
            && s.active == Outstanding(s.callers)
            && forall i | 0 <= i < |s.callers| && (s.callers[i] == Holding || s.callers[i] == Refused) :: s.active > 0
  {
    var s := After(Init(callers, waiters, revokers), run);
    InitInv(callers, waiters, revokers);
    RunInv(Init(callers, waiters, revokers), run);
    forall i | 0 <= i < |s.callers| && (s.callers[i] == Holding || s.callers[i] == Refused)
      ensures s.active > 0
    {
      OutstandingMember(s.callers, i);
    }
  }

  // ---------------------------------------------------------------- termination of the drain

  /** Steps a caller, a revoker or a waiter can still take once the flag is set. */
  function CallerWork(c: Caller): (n: nat) {
    match c
    case Outside => 0
    case Notifying => 1
    case Refused => 2
    case Holding => 2
    case Counted => 3
    case Checked => 4
  }

  function RevokerWork(r: Revoker): (n: nat) {
    match r
    case Ready => 3
    case FlagStored => 2
    case Cancelled => 1
    case Announced => 0
  }

  function WaiterWork(w: Waiter): (n: nat)
    ensures n <= 5
  {
    match w
    case Registered(n) => if n then 5 else 2
    case Parked(n) => if n then 4 else 1
    case AtLoopTop => 3
    case Drained(_) => 0
    case TimedOut => 0
  }

  function Total<T>(work: T -> nat, ts: seq<T>): (n: nat) {
    if ts == [] then 0 else work(ts[0]) + Total(work, ts[1..])
  }

  lemma {:induction false} TotalUpdate<T>(work: T -> nat, ts: seq<T>, i: nat, x: T)
    requires i < |ts|
    ensures Total(work, ts[i := x]) == Total(work, ts) - work(ts[i]) + work(x)
  {
    if i > 0 {
      assert ts[i := x][1..] == ts[1..][i - 1 := x];
      TotalUpdate(work, ts[1..], i - 1, x);
    } else {
      assert ts[i := x][1..] == ts[1..];
    }
  }

  lemma {:induction false} WaitersBounded(ws: seq<Waiter>)
    ensures Total(WaiterWork, ws) <= 5 * |ws|
  {
    if ws != [] { WaitersBounded(ws[1..]); }
  }

  function Movers(s: State): (n: nat) {
    Total(CallerWork, s.callers) + Total(RevokerWork, s.revokers)
  }

  /** A bound on how many state-changing actions can follow: what callers and revokers can
      still do, each worth more than everything the waiters can do in between. */
  function Bound(s: State): (n: nat) {
    (5 * |s.waiters| + 1) * Movers(s) + Total(WaiterWork, s.waiters)
  }

  lemma {:induction false} MulStep(k: nat, a: nat, b: nat)
    requires a < b
    ensures k * a + k <= k * b
  {
    if a + 1 < b { MulStep(k, a, b - 1); }
    assert k * b == k * (b - 1) + k;
  }

  lemma MoverDecreases(s: State, t: State)
    requires |s.waiters| == |t.waiters|
    requires Movers(t) < Movers(s)
    ensures Bound(t) < Bound(s)
  {
    WaitersBounded(t.waiters);
    MulStep(5 * |s.waiters| + 1, Movers(t), Movers(s));
  }

  lemma CallerDecreases(s: State, a: Action)
    requires s.revoked && Enabled(s, a)
    requires a.Count? || a.SecondCheck? || a.Release? || a.NotifyIdle?
    ensures Bound(Apply(s, a)) < Bound(s)
  {
    var t := Apply(s, a);
    TotalUpdate(CallerWork, s.callers, a.i, t.callers[a.i]);
    MoverDecreases(s, t);
  }

  lemma RevokerDecreases(s: State, a: Action)
    requires s.revoked && Enabled(s, a)
    requires a.StoreRevoked? || a.Cancel? || a.NotifyRevoked?
    ensures Bound(Apply(s, a)) < Bound(s)
  {
    var t := Apply(s, a);
    TotalUpdate(RevokerWork, s.revokers, a.k, t.revokers[a.k]);
    MoverDecreases(s, t);
  }

  lemma WaiterDecreases(s: State, a: Action)
    requires s.revoked && Enabled(s, a)
    requires a.Register? || a.CheckIdle? || a.WakeUp? || a.TimeOut?
    ensures Bound(Apply(s, a)) < Bound(s)
  {
    TotalUpdate(WaiterWork, s.waiters, a.w, Apply(s, a).waiters[a.w]);
  }

  lemma StepDecreases(s: State, a: Action)
    requires s.revoked && Enabled(s, a) && Apply(s, a) != s
    ensures Apply(s, a).revoked
    ensures Bound(Apply(s, a)) < Bound(s)
  {
    match a {
      case FirstCheck(i) =>
      case Count(_) | SecondCheck(_) | Release(_) | NotifyIdle(_) => CallerDecreases(s, a);
      case StoreRevoked(_) | Cancel(_) | NotifyRevoked(_) => RevokerDecreases(s, a);
      case _ => WaiterDecreases(s, a);
    }
  }

  function Changes(s: State, run: seq<Action>): (n: nat)
    requires IsRun(s, run)
    decreases |run|
  {
    if run == [] then 0
    else (if Apply(s, run[0]) != s then 1 else 0) + Changes(Apply(s, run[0]), run[1..])
  }

  /** After the revocation only boundedly many actions can change anything, however the
      threads are scheduled. */
  lemma {:induction false} DrainIsBounded(s: State, run: seq<Action>)
    requires s.revoked && IsRun(s, run)
    ensures Changes(s, run) <= Bound(s)
    decreases |run|
  {
    if run != [] {
      if Apply(s, run[0]) != s { StepDecreases(s, run[0]); }
      DrainIsBounded(Apply(s, run[0]), run[1..]);
    }
  }

  /** Somebody other than the timer can still change the state. */
  ghost predicate CanMove(s: State) {
    exists a: Action :: Enabled(s, a) && !a.TimeOut? && Apply(s, a) != s
  }

  lemma CallerCanMove(s: State, i: nat)
    requires i < |s.callers| && s.callers[i] != Outside
    ensures CanMove(s)
  {
    var a := match s.callers[i]
      case Checked => Count(i)
      case Counted => SecondCheck(i)
      case Notifying => NotifyIdle(i)
      case _ => Release(i);
    assert Enabled(s, a) && Apply(s, a).callers[i] != s.callers[i];
  }

  lemma RevokerCanMove(s: State, k: nat)
    requires k < |s.revokers| && s.revokers[k] != Announced
    ensures CanMove(s)
  {
    var a := match s.revokers[k]
      case Ready => StoreRevoked(k)
      case FlagStored => Cancel(k)
      case _ => NotifyRevoked(k);
    assert Enabled(s, a) && Apply(s, a).revokers[k] != s.revokers[k];
  }

  lemma WaiterCanMove(s: State, w: nat)
    requires w < |s.waiters|
    requires !s.waiters[w].Drained? && !s.waiters[w].TimedOut? && s.waiters[w] != Parked(false)
    ensures CanMove(s)
  {
    var a := match s.waiters[w]
      case AtLoopTop => Register(w)
      case Registered(_) => CheckIdle(w)
      case _ => WakeUp(w);
    assert Enabled(s, a) && Apply(s, a).waiters[w] != s.waiters[w];
  }

  /** ... and when only the timer could still change anything, it has nothing left to do:
      every drain wait has ended, every lease is back and the holders were told to stop. */
  lemma QuietMeansDrained(callers: nat, waiters: nat, revokers: nat, run: seq<Action>)
    requires IsRun(Init(callers, waiters, revokers), run)
    requires var s := After(Init(callers, waiters, revokers), run);
             |s.revokers| > 0 && !CanMove(s)
    ensures var s := After(Init(callers, waiters, revokers), run);
            && s.active == 0 && s.revoked && s.cancelled
            && (forall w | 0 <= w < |s.waiters| :: s.waiters[w].Drained? || s.waiters[w].TimedOut?)
            && (forall i | 0 <= i < |s.callers| :: s.callers[i] == Outside)
  {
    var s := After(Init(callers, waiters, revokers), run);
    InitInv(callers, waiters, revokers);
    RunInv(Init(callers, waiters, revokers), run);
    forall i | 0 <= i < |s.callers| ensures s.callers[i] == Outside {
      if s.callers[i] != Outside { CallerCanMove(s, i); }
    }
    if s.active > 0 { OutstandingWitness(s.callers); }
    forall w | 0 <= w < |s.waiters| ensures s.waiters[w].Drained? || s.waiters[w].TimedOut? {
      if !s.waiters[w].Drained? && !s.waiters[w].TimedOut? && s.waiters[w] != Parked(false) { WaiterCanMove(s, w); }
    }
    if s.revokers[0] != Announced { RevokerCanMove(s, 0); }
  }
}
