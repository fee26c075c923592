/** A connection on top of the server's registry and runtimes, at the grain of its awaits.

    Every step of the connection is one step of the server or of nobody: attaching goes through the
    server's own steps, requests and streams take leases by looking an attachment up, and while the
    connection waits others attach, look up, detach, prune and drop leases as they like. */
module ConnectionRuntime {
  import opened Options
  import opened RegistryModel
  import opened RuntimeModel

  /** What the connection does once its streams have been stopped. */
  datatype Aim = Rotate(previous: AttachmentId, next: AttachmentId) | Unbind | Shut

  /** Where a request stands: none; attaching; a new attachment registered, to bind or for this request
      only; a lease taken and the handler at work; giving a temporary attachment back; stopping the
      streams; or the connection is closed. */
  datatype Phase =
    | Ready
    | Attaching(bind: bool)
    | Registered(id: AttachmentId, bind: bool)
    | Serving(id: AttachmentId, temporary: bool, lease: nat)
    | GivingBack(id: AttachmentId)
    | Stopping(aim: Aim)
    | Closed

  /** The connection: its request, its own attachment, all it ever made, the leases of its streams, what
      it gave up without detaching it, and which attachment each lease it ever took was taken for. */
  datatype Side = Side(
    phase: Phase,
    current: Option<AttachmentId>,
    made: set<AttachmentId>,
    streams: multiset<nat>,
    forgotten: set<AttachmentId>,
    takenFor: map<nat, AttachmentId>)

  datatype Joint = Joint(app: App, side: Side)

  /** `AskDetach` names its own attachment, in a request or a notification; `Forget` is such a notification
      of another protocol version, which unbinds without detaching. */
  datatype Step =
    | Others(x: Action)
    | Ask(bind: bool, cwd: Path, now: int, busy: set<Path>)
    | Go(x: Action)
    | Enter(id: AttachmentId, now: int)
    | BindNew
    | LookUpNew(now: int)
    | UseOwn(id: AttachmentId, now: int)
    | Finish(ok: bool, now: int)
    | GiveBack
    | StartStream(now: int)
    | EndStream(cell: nat, now: int)
    | AskDetach(notification: bool)
    | Forget
    | AskClose
    | Proceed

  /** The leases the connection has: those of its streams and of the request it serves. */
  function Leases(d: Side): (m: multiset<nat>) {
    d.streams + if d.phase.Serving? then multiset{d.phase.lease} else multiset{}
  }

  predicate MiddleStep(x: Action) { x.ReserveRuntime? || x.InitialiseRuntime? || x.DescribeRuntime? }

  /** The server's step that a step of the connection takes, if any. */
  function Served(d: Side, s: Step): (x: Option<Action>) {
    match s
    case Others(x) => Some(x)
    case Ask(_, cwd, now, busy) => Some(BeginAttach(cwd, now, busy))
    case Go(x) => Some(x)
    case Enter(id, now) => Some(RegisterAttachment(id, now))
    case BindNew => None
    case LookUpNew(now) => if d.phase.Registered? then Some(LookUp(d.phase.id, now)) else None
    case UseOwn(id, now) => Some(LookUp(id, now))
    case Finish(_, now) => if d.phase.Serving? then Some(DropHandle(d.phase.lease, now)) else None
    case GiveBack => if d.phase.GivingBack? then Some(DetachId(d.phase.id)) else None
    case StartStream(now) => if d.current.Some? then Some(LookUp(d.current.value, now)) else None
    case EndStream(cell, now) => Some(DropHandle(cell, now))
    case AskDetach(_) => if d.current.Some? then Some(DetachId(d.current.value)) else None
    case Forget => None
    case AskClose => None
    case Proceed =>
      if d.phase.Stopping? && d.phase.aim.Rotate? then Some(DetachId(d.phase.aim.previous))
      else if d.phase.Stopping? && d.phase.aim.Shut? && d.current.Some? then Some(DetachId(d.current.value))
      else None
  }

  /** Others take the lifecycle lock only when the connection does not hold it, drop only their own
      leases, and make up ids of their own. */
  predicate OthersMay(held: multiset<nat>, d: Side, x: Action) {
    && (d.phase.Attaching? ==> x.DropHandle?)
    && (x.DropHandle? ==> held[x.cell] > Leases(d)[x.cell])
    && (x.RegisterAttachment? ==> x.id !in d.made)
  }

  predicate May(held: multiset<nat>, d: Side, s: Step) {
    match s
    case Others(x) => OthersMay(held, d, x)
    case Ask(bind, _, _, _) => d.phase.Ready? && (!bind ==> d.current.None?)
    case Go(x) => d.phase.Attaching? && MiddleStep(x)
    case Enter(_, _) => d.phase.Attaching?
    case BindNew => d.phase.Registered? && d.phase.bind
    case LookUpNew(_) => d.phase.Registered? && !d.phase.bind
    case UseOwn(id, _) => d.phase.Ready? && (d.current.Some? ==> d.current == Some(id))
    case Finish(_, _) => d.phase.Serving?
    case GiveBack => d.phase.GivingBack?
    case StartStream(_) => d.phase.Ready? && d.current.Some?
    case EndStream(cell, _) => cell in d.streams
    case AskDetach(_) => d.phase.Ready? && d.current.Some?
    case Forget => d.phase.Ready? && d.current.Some?
    case AskClose => d.phase.Ready?
    case Proceed => d.phase.Stopping? && d.streams == multiset{}
  }

  predicate CanStep(j: Joint, s: Step) {
    && Wired(j.app.registry)
    && May(j.app.registry.held, j.side, s)
    && (Served(j.side, s).Some? ==> Enabled(j.app, Served(j.side, s).value))
  }

  function NextApp(c: AppConfig, j: Joint, s: Step): (a: App)
    requires CanStep(j, s)
    ensures Wired(a.registry)
  {
    if Served(j.side, s).Some? then Apply(c, j.app, Served(j.side, s).value) else j.app
  }

  /** What the server's step gives the connection: a lease, an entry, the attachment it was to detach, or
      the end of its attach. */
  datatype Gift = Gift(lease: Option<nat>, inserted: bool, found: bool, attachEnded: bool)

  function GiftOf(c: AppConfig, j: Joint, s: Step): (g: Gift)
    requires CanStep(j, s)
  {
    var x := Served(j.side, s);
    Gift(if x.Some? && x.value.LookUp? then Lookup(c.registry, j.app.registry, x.value.id, x.value.now).1 else None,
         x.Some? && x.value.RegisterAttachment? && Register(c, j.app, x.value.id, x.value.now).1 == Inserted,
         x.Some? && x.value.DetachId? && x.value.id in j.app.registry.entries,
         NextApp(c, j, s).attaching.Nobody?)
  }

  /** A lease was taken for that attachment. */
  function Noted(d: Side, id: AttachmentId, lease: Option<nat>): (e: Side) {
    if lease.Some? then d.(takenFor := d.takenFor[lease.value := id]) else d
  }

  function Move(d: Side, s: Step, g: Gift): (e: Side) {
    match s
    case Others(_) => d
    case Ask(bind, _, _, _) => d.(phase := Attaching(bind))
    case Go(_) => if g.attachEnded then d.(phase := Ready) else d
    case Enter(id, _) =>
      if g.inserted && d.phase.Attaching? then d.(phase := Registered(id, d.phase.bind), made := d.made + {id})
      else d.(phase := Ready)
    case BindNew =>
      if !d.phase.Registered? then d
      else if d.current.Some? && d.current != Some(d.phase.id)
      then d.(phase := Stopping(Rotate(d.current.value, d.phase.id)), current := None)
      else d.(phase := Ready, current := Some(d.phase.id))
    case LookUpNew(_) =>
      if !d.phase.Registered? then d
      else
        Noted(d, d.phase.id, g.lease)
        .(phase := if g.lease.Some? then Serving(d.phase.id, true, g.lease.value) else GivingBack(d.phase.id))
    case UseOwn(id, _) =>
      if g.lease.Some? then Noted(d, id, g.lease).(phase := Serving(id, false, g.lease.value)) else d
    case Finish(ok, _) =>
      if !d.phase.Serving? then d
      else if ok then d.(phase := Ready, current := Some(d.phase.id))
      else d.(phase := if d.phase.temporary then GivingBack(d.phase.id) else Ready)
    case GiveBack => d.(phase := Ready)
    case StartStream(_) =>
      if g.lease.Some? && d.current.Some?
      then Noted(d, d.current.value, g.lease).(streams := d.streams + multiset{g.lease.value}) else d
    case EndStream(cell, _) => d.(streams := d.streams - multiset{cell})
    case AskDetach(notification) => if g.found || notification then d.(phase := Stopping(Unbind)) else d
    case Forget =>
      d.(phase := Stopping(Unbind), forgotten := d.forgotten + if d.current.Some? then {d.current.value} else {})
    case AskClose => d.(phase := Stopping(Shut))
    case Proceed =>
      if !d.phase.Stopping? then d
      else match d.phase.aim
        case Rotate(_, next) => d.(phase := Ready, current := Some(next))
        case Unbind => d.(phase := Ready, current := None)
        case Shut => d.(phase := Closed, current := None)
  }

  function Take(c: AppConfig, j: Joint, s: Step): (k: Joint)
    requires CanStep(j, s)
    ensures Wired(k.app.registry)
  {
    Joint(NextApp(c, j, s), Move(j.side, s, GiftOf(c, j, s)))
  }

  predicate IsJointRun(c: AppConfig, j: Joint, run: seq<Step>)
    requires Wired(j.app.registry)
    decreases |run|
  {
    run == [] || (CanStep(j, run[0]) && IsJointRun(c, Take(c, j, run[0]), run[1..]))
  }

  function AfterSteps(c: AppConfig, j: Joint, run: seq<Step>): (k: Joint)
    requires Wired(j.app.registry) && IsJointRun(c, j, run)
    ensures Wired(k.app.registry)
    decreases |run|
  {
    if run == [] then j else AfterSteps(c, Take(c, j, run[0]), run[1..])
  }

  function Connected(a: App): (j: Joint) { Joint(a, Side(Ready, None, {}, multiset{}, {}, map[])) }

  // ---------------------------------------------------------------- invariant

  /** The attachments that the request in progress answers for. */
  function InHand(p: Phase): (s: set<AttachmentId>) {
    match p
    case Registered(id, _) => {id}
    case Serving(id, temporary, _) => if temporary then {id} else {}
    case GivingBack(id) => {id}
    case Stopping(Rotate(previous, next)) => {previous, next}
    case _ => {}
  }

  /** Besides these its own, unless it has already been detached and only its streams are waited for. */
  function Held(d: Side): (s: set<AttachmentId>) {
    InHand(d.phase) + if d.current.Some? && d.phase != Stopping(Unbind) then {d.current.value} else {}
  }

  /** What the connection made and is still registered, it holds or forgot. */
  ghost predicate NoStray(d: Side, entries: set<AttachmentId>) {
    forall id | id in d.made && id in entries :: id in Held(d) || id in d.forgotten
  }

  /** A request about to bind an attachment does so when no other is bound; a closed connection has none. */
  predicate Tidy(d: Side) {
    && ((d.phase.Attaching? || d.phase.Registered?) && !d.phase.bind ==> d.current.None?)
    && (d.phase.Serving? && d.current.Some? ==> d.current.value == d.phase.id)
    && (d.phase.Stopping? && d.phase.aim.Rotate? ==> d.current.None?)
    && (d.phase.Closed? ==> d.current.None? && d.streams == multiset{})
  }

  /** The attachment whose streams run: the one bound, or the one that is being rotated away. */
  function StreamOwner(d: Side): (id: Option<AttachmentId>) {
    if d.phase.Stopping? && d.phase.aim.Rotate? then Some(d.phase.aim.previous) else d.current
  }

  /** Every stream's lease was taken for that one. */
  ghost predicate StreamsOwn(d: Side) {
    forall k | k in d.streams :: k in d.takenFor && StreamOwner(d) == Some(d.takenFor[k])
  }

  /** A cell that a lease was taken on is of no other attachment. */
  ghost predicate CellsKnown(takenFor: map<nat, AttachmentId>, r: Registry) {
    && (forall k | k in takenFor :: k < r.nextCell)
    && (forall id | id in r.entries && r.entries[id].cell in takenFor :: takenFor[r.entries[id].cell] == id)
  }

  ghost predicate JointInv(c: AppConfig, j: Joint) {
    && AppInv(c, j.app)
    && NoStray(j.side, j.app.registry.entries.Keys)
    && Leases(j.side) <= j.app.registry.held
    && Tidy(j.side)
    && StreamsOwn(j.side)
    && CellsKnown(j.side.takenFor, j.app.registry)
  }

  // ---------------------------------------------------------------- what the server's steps do

  /** Only a registration adds an entry, and only its own. */
  lemma EntriesOnlyShrink(c: AppConfig, a: App, x: Action)
    requires Wired(a.registry) && Enabled(a, x)
    ensures
      var t := Apply(c, a, x);
      forall id | id in t.registry.entries :: id in a.registry.entries || (x.RegisterAttachment? && id == x.id)
    ensures x.DetachId? ==> x.id !in Apply(c, a, x).registry.entries
  {
  }

  /** Only dropping a lease takes one away, and a granted lookup adds the one it grants. */
  lemma LeasesOnlyGrow(c: AppConfig, a: App, x: Action)
    requires Wired(a.registry) && Enabled(a, x)
    ensures
      var before, after := a.registry.held, Apply(c, a, x).registry.held;
      && (x.DropHandle? ==> after == before - multiset{x.cell})
      && (x.LookUp? ==>
            var lease := Lookup(c.registry, a.registry, x.id, x.now).1;
            after == if lease.Some? then before + multiset{lease.value} else before)
      && (!x.DropHandle? && !x.LookUp? ==> after == before)
  {
  }

  // ---------------------------------------------------------------- every run

  lemma AppStepInv(c: AppConfig, j: Joint, s: Step)
    requires AppInv(c, j.app) && CanStep(j, s)
    ensures AppInv(c, NextApp(c, j, s))
  {
    if Served(j.side, s).Some? { StepAppInv(c, j.app, Served(j.side, s).value); }
  }

  /** Said of any server whose entries only shrink but for its own registration, and lose what is detached. */
  lemma StrayStep(d: Side, s: Step, g: Gift, held: multiset<nat>, before: set<AttachmentId>, after: set<AttachmentId>)
    requires NoStray(d, before) && Tidy(d) && May(held, d, s)
    requires
      var x := Served(d, s);
      && (forall id | id in after :: id in before || (x.Some? && x.value.RegisterAttachment? && id == x.value.id))
      && (x.Some? && x.value.DetachId? ==> x.value.id !in after)
      && (x.Some? && x.value.RegisterAttachment? && !g.inserted ==> after <= before)
    ensures NoStray(Move(d, s, g), after)
  {
  }

  lemma RefusedAddsNothing(c: AppConfig, a: App, id: AttachmentId, now: int)
    requires Wired(a.registry) && Enabled(a, RegisterAttachment(id, now))
    requires Register(c, a, id, now).1 != Inserted
    ensures Apply(c, a, RegisterAttachment(id, now)).registry.entries.Keys <= a.registry.entries.Keys
  {
  }

  lemma DropOne(rest: multiset<nat>, before: multiset<nat>, cell: nat)
    requires rest + multiset{cell} <= before
    ensures rest <= before - multiset{cell}
  {
    forall k: nat ensures rest[k] <= (before - multiset{cell})[k] {
      assert (rest + multiset{cell})[k] <= before[k];
    }
  }

  lemma DropAnothers(m: multiset<nat>, before: multiset<nat>, cell: nat)
    requires m <= before && m[cell] < before[cell]
    ensures m <= before - multiset{cell}
  {
    forall k: nat ensures m[k] <= (before - multiset{cell})[k] {}
  }

  lemma FinishFrees(d: Side, s: Step, g: Gift)
    requires s.Finish? && d.phase.Serving?
    ensures Leases(Move(d, s, g)) + multiset{d.phase.lease} == Leases(d)
  {
    assert Leases(Move(d, s, g)) == d.streams;
  }

  lemma EndFrees(d: Side, s: Step, g: Gift)
    requires s.EndStream? && s.cell in d.streams
    ensures Leases(Move(d, s, g)) + multiset{s.cell} == Leases(d)
  {
    assert d.streams - multiset{s.cell} + multiset{s.cell} == d.streams;
  }

  /** Dropping a lease: the connection's own goes from both sides, another's was counted besides. */
  lemma DropStep(d: Side, s: Step, g: Gift, before: multiset<nat>)
    requires Leases(d) <= before && May(before, d, s)
    requires Served(d, s).Some? && Served(d, s).value.DropHandle?
    ensures Leases(Move(d, s, g)) <= before - multiset{Served(d, s).value.cell}
  {
    var left := Leases(Move(d, s, g));
    if s.Others? {
      DropAnothers(left, before, s.x.cell);
    } else if s.Finish? {
      FinishFrees(d, s, g);
      DropOne(left, before, d.phase.lease);
    } else if s.EndStream? {
      EndFrees(d, s, g);
      DropOne(left, before, s.cell);
    }
  }

  /** A step that neither looks up nor drops leaves the connection's leases as they are. */
  lemma OtherStep(d: Side, s: Step, g: Gift, held: multiset<nat>)
    requires May(held, d, s)
    requires var x := Served(d, s); x.None? || (!x.value.DropHandle? && !x.value.LookUp?)
    ensures Leases(Move(d, s, g)) == Leases(d)
  {
    if !s.Others? { NeverServing(d, s, g, held); }
  }

  lemma NeverServing(d: Side, s: Step, g: Gift, held: multiset<nat>)
    requires May(held, d, s) && !s.Others?
    requires var x := Served(d, s); x.None? || (!x.value.DropHandle? && !x.value.LookUp?)
    ensures !d.phase.Serving? && !Move(d, s, g).phase.Serving? && Move(d, s, g).streams == d.streams
  {
  }

  lemma AddOne(m: multiset<nat>, before: multiset<nat>, cell: nat)
    requires m <= before
    ensures m <= before + multiset{cell} && m + multiset{cell} <= before + multiset{cell}
  {
    forall k: nat ensures (m + multiset{cell})[k] <= (before + multiset{cell})[k] {
      assert m[k] <= before[k];
    }
  }

  /** A lookup of the connection's own gives it the lease that was granted. */
  lemma Gains(d: Side, s: Step, g: Gift, held: multiset<nat>)
    requires May(held, d, s) && !s.Others? && Served(d, s).Some? && Served(d, s).value.LookUp?
    ensures g.lease.Some? ==> Leases(Move(d, s, g)) == Leases(d) + multiset{g.lease.value}
    ensures g.lease.None? ==> Leases(Move(d, s, g)) == Leases(d)
  {
    assert !d.phase.Serving? && Leases(d) == d.streams;
    if s.StartStream? {
      assert Leases(Move(d, s, g)) == Move(d, s, g).streams;
    } else {
      assert Move(d, s, g).streams == d.streams;
    }
  }

  lemma TakeStep(d: Side, s: Step, g: Gift, before: multiset<nat>)
    requires Leases(d) <= before && May(before, d, s)
    requires Served(d, s).Some? && Served(d, s).value.LookUp?
    ensures Leases(Move(d, s, g)) <= if g.lease.Some? then before + multiset{g.lease.value} else before
  {
    if g.lease.Some? { AddOne(Leases(d), before, g.lease.value); }
    if !s.Others? { Gains(d, s, g, before); }
  }

  /** Said of any server that counts leases as the lookups and drops say. */
  lemma LeaseStep(d: Side, s: Step, g: Gift, before: multiset<nat>, after: multiset<nat>)
    requires Leases(d) <= before && May(before, d, s)
    requires
      var x := Served(d, s);
      if x.Some? && x.value.DropHandle? then after == before - multiset{x.value.cell}
      else if x.Some? && x.value.LookUp? then
        after == if g.lease.Some? then before + multiset{g.lease.value} else before
      else after == before
    ensures Leases(Move(d, s, g)) <= after
  {
    var x := Served(d, s);
    if x.Some? && x.value.DropHandle? {
      DropStep(d, s, g, before);
    } else if x.Some? && x.value.LookUp? {
      TakeStep(d, s, g, before);
    } else {
      OtherStep(d, s, g, before);
    }
  }

  lemma TidyStep(held: multiset<nat>, d: Side, s: Step, g: Gift)
    requires Tidy(d) && May(held, d, s)
    ensures Tidy(Move(d, s, g))
  {
  }

  lemma ServerStep(c: AppConfig, j: Joint, s: Step)
    requires CanStep(j, s)
    ensures
      var x, g := Served(j.side, s), GiftOf(c, j, s);
      var before, after := j.app.registry, NextApp(c, j, s).registry;
      && (forall id | id in after.entries.Keys ::
            id in before.entries.Keys || (x.Some? && x.value.RegisterAttachment? && id == x.value.id))
      && (x.Some? && x.value.DetachId? ==> x.value.id !in after.entries.Keys)
      && (x.Some? && x.value.RegisterAttachment? && !g.inserted ==> after.entries.Keys <= before.entries.Keys)
      && (if x.Some? && x.value.DropHandle? then after.held == before.held - multiset{x.value.cell}
          else if x.Some? && x.value.LookUp? then
            after.held == if g.lease.Some? then before.held + multiset{g.lease.value} else before.held
          else after.held == before.held)
  {
    var x := Served(j.side, s);
    if x.Some? {
      EntriesOnlyShrink(c, j.app, x.value);
      LeasesOnlyGrow(c, j.app, x.value);
      if x.value.RegisterAttachment? && !GiftOf(c, j, s).inserted {
        RefusedAddsNothing(c, j.app, x.value.id, x.value.now);
      }
    }
  }

  // ---------------------------------------------------------------- whose streams they are

  /** Entries stay as they are, but for a registration, which has a cell of its own. */
  lemma EntriesStay(c: AppConfig, a: App, x: Action)
    requires Wired(a.registry) && Enabled(a, x)
    ensures
      var r, t := a.registry, Apply(c, a, x).registry;
      && r.nextCell <= t.nextCell
      && (forall id | id in t.entries ::
            || (id in r.entries && t.entries[id] == r.entries[id])
            || (x.RegisterAttachment? && t.entries[id].cell >= r.nextCell))
  {
  }

  /** A granted lookup gives a lease on the attachment's own cell. */
  lemma LookupIsOwn(c: Config, r: Registry, id: AttachmentId, now: int)
    requires Wired(r)
    ensures
      var (t, lease) := Lookup(c, r, id, now);
      lease.Some? ==>
        && id in r.entries && r.entries[id].cell == lease.value && lease.value < r.nextCell
        && id in t.entries && t.entries[id].cell == lease.value
  {
  }

  /** The connection itself looks an attachment up. */
  predicate LooksUp(s: Step) { s.LookUpNew? || s.UseOwn? || s.StartStream? }

  ghost predicate GiftFits(d: Side, s: Step, g: Gift) {
    var x := Served(d, s);
    x.Some? && x.value.LookUp? && g.lease.Some? && g.lease.value in d.takenFor ==>
      d.takenFor[g.lease.value] == x.value.id
  }

  /** What a step notes is the lookup it made. */
  lemma NotesLookup(d: Side, s: Step, g: Gift, held: multiset<nat>)
    requires May(held, d, s) && LooksUp(s)
    ensures
      var x := Served(d, s);
      && x.Some? && x.value.LookUp?
      && Move(d, s, g).takenFor == if g.lease.Some? then d.takenFor[g.lease.value := x.value.id] else d.takenFor
  {
  }

  lemma NotesNothing(d: Side, s: Step, g: Gift)
    requires !LooksUp(s)
    ensures Move(d, s, g).takenFor == d.takenFor
  {
  }

  /** While there are streams their owner stays the same. */
  lemma OwnerStays(d: Side, s: Step, g: Gift, held: multiset<nat>)
    requires StreamsOwn(d) && Tidy(d) && May(held, d, s) && d.streams != multiset{}
    ensures StreamOwner(Move(d, s, g)) == StreamOwner(d)
  {
    var k :| k in d.streams;
    assert StreamOwner(d).Some?;
  }

  lemma StreamsGrow(d: Side, s: Step, g: Gift, held: multiset<nat>)
    requires May(held, d, s)
    ensures
      var t := Move(d, s, g);
      forall k | k in t.streams ::
        k in d.streams || (s.StartStream? && g.lease == Some(k) && t.phase == d.phase && t.current == d.current)
  {
  }

  lemma StreamStays(d: Side, s: Step, g: Gift, held: multiset<nat>, k: nat)
    requires StreamsOwn(d) && Tidy(d) && May(held, d, s) && GiftFits(d, s, g) && k in d.streams
    ensures var t := Move(d, s, g); k in t.takenFor && StreamOwner(t) == Some(t.takenFor[k])
  {
    OwnerStays(d, s, g, held);
    if LooksUp(s) { NotesLookup(d, s, g, held); } else { NotesNothing(d, s, g); }
  }

  lemma StreamStarts(d: Side, s: Step, g: Gift, held: multiset<nat>, k: nat)
    requires May(held, d, s) && s.StartStream? && g.lease == Some(k)
    ensures var t := Move(d, s, g); k in t.takenFor && StreamOwner(t) == Some(t.takenFor[k])
  {
    NotesLookup(d, s, g, held);
  }

  lemma StreamsStep(d: Side, s: Step, g: Gift, held: multiset<nat>)
    requires StreamsOwn(d) && Tidy(d) && May(held, d, s) && GiftFits(d, s, g)
    ensures StreamsOwn(Move(d, s, g))
  {
    var t := Move(d, s, g);
    StreamsGrow(d, s, g, held);
    forall k | k in t.streams ensures k in t.takenFor && StreamOwner(t) == Some(t.takenFor[k]) {
      if k in d.streams { StreamStays(d, s, g, held, k); } else { StreamStarts(d, s, g, held, k); }
    }
  }

  lemma CellsStay(takenFor: map<nat, AttachmentId>, r: Registry, t: Registry)
    requires CellsKnown(takenFor, r) && r.nextCell <= t.nextCell
    requires forall id | id in t.entries ::
               (id in r.entries && t.entries[id] == r.entries[id]) || t.entries[id].cell >= r.nextCell
    ensures CellsKnown(takenFor, t)
  {
  }

  lemma CellsNoted(takenFor: map<nat, AttachmentId>, t: Registry, id: AttachmentId, k: nat)
    requires CellsKnown(takenFor, t) && Unshared(t) && k < t.nextCell && id in t.entries && t.entries[id].cell == k
    ensures CellsKnown(takenFor[k := id], t)
  {
  }

  lemma CellsStep(c: AppConfig, j: Joint, s: Step)
    requires JointInv(c, j) && CanStep(j, s)
    ensures GiftFits(j.side, s, GiftOf(c, j, s))
    ensures CellsKnown(Take(c, j, s).side.takenFor, NextApp(c, j, s).registry)
  {
    var x, g, t := Served(j.side, s), GiftOf(c, j, s), NextApp(c, j, s).registry;
    AppStepInv(c, j, s);
    if x.Some? {
      EntriesStay(c, j.app, x.value);
      if x.value.LookUp? { LookupIsOwn(c.registry, j.app.registry, x.value.id, x.value.now); }
    }
    CellsStay(j.side.takenFor, j.app.registry, t);
    if LooksUp(s) {
      NotesLookup(j.side, s, g, j.app.registry.held);
      if g.lease.Some? { CellsNoted(j.side.takenFor, t, x.value.id, g.lease.value); }
    } else {
      NotesNothing(j.side, s, g);
    }
  }

  lemma JointStep(c: AppConfig, j: Joint, s: Step)
    requires JointInv(c, j) && CanStep(j, s)
    ensures JointInv(c, Take(c, j, s))
  {
    var g, t := GiftOf(c, j, s), NextApp(c, j, s);
    AppStepInv(c, j, s);
    ServerStep(c, j, s);
    StrayStep(j.side, s, g, j.app.registry.held, j.app.registry.entries.Keys, t.registry.entries.Keys);
    LeaseStep(j.side, s, g, j.app.registry.held, t.registry.held);
    TidyStep(j.app.registry.held, j.side, s, g);
    CellsStep(c, j, s);
    StreamsStep(j.side, s, g, j.app.registry.held);
  }

  lemma {:induction false} JointRun(c: AppConfig, j: Joint, run: seq<Step>)
    requires JointInv(c, j) && IsJointRun(c, j, run)
    ensures JointInv(c, AfterSteps(c, j, run))
    decreases |run|
  {
    if run != [] {
      JointStep(c, j, run[0]);
      JointRun(c, Take(c, j, run[0]), run[1..]);
    }
  }

  lemma ConnectedInv(c: AppConfig, a: App)
    requires AppInv(c, a)
    ensures JointInv(c, Connected(a))
  {
  }

  lemma ClosedHoldsNothing(d: Side, entries: set<AttachmentId>)
    requires NoStray(d, entries) && Tidy(d) && d.phase.Closed?
    ensures d.made * entries <= d.forgotten && Leases(d) == multiset{}
  {
    assert Held(d) == {};
  }

  /** A connection to a server in any state it can be in, over every interleaving with everybody else: what
      it made and is registered it holds or forgot, its leases are among those the server counts; and once it is
      closed the registry has no entry it made but what it forgot, and it has no lease. */
  lemma ClosedConnectionLeavesTheServer(c: AppConfig, a: App, run: seq<Step>)
    requires AppInv(c, a) && IsJointRun(c, Connected(a), run)
    ensures
      var j := AfterSteps(c, Connected(a), run);
      && AppInv(c, j.app)
      && NoStray(j.side, j.app.registry.entries.Keys)
      && Leases(j.side) <= j.app.registry.held
      && (j.side.phase.Closed? ==>
            j.side.made * j.app.registry.entries.Keys <= j.side.forgotten && Leases(j.side) == multiset{})
  {
    ConnectedInv(c, a);
    JointRun(c, Connected(a), run);
    var j := AfterSteps(c, Connected(a), run);
    if j.side.phase.Closed? { ClosedHoldsNothing(j.side, j.app.registry.entries.Keys); }
  }

  /** Over the same runs a connection is bound to one attachment at a time: between requests all it made and is
      registered is the one it is bound to, or forgotten, so that what it was bound to before has been detached;
      a request of a bound connection is served on that one; and one that succeeds binds it to what it used. */
  lemma BoundToOne(c: AppConfig, a: App, run: seq<Step>, s: Step)
    requires AppInv(c, a) && IsJointRun(c, Connected(a), run)
    ensures
      var j := AfterSteps(c, Connected(a), run);
      && (j.side.phase.Ready? ==>
            forall id | id in j.side.made && id in j.app.registry.entries ::
              id in j.side.forgotten || j.side.current == Some(id))
      && (j.side.phase.Serving? && j.side.current.Some? ==> j.side.current.value == j.side.phase.id)
      && (CanStep(j, s) && s.Finish? && s.ok ==> Take(c, j, s).side.current == Some(j.side.phase.id))
  {
    ConnectedInv(c, a);
    JointRun(c, Connected(a), run);
    ReadyHoldsOne(AfterSteps(c, Connected(a), run).side, AfterSteps(c, Connected(a), run).app.registry.entries.Keys);
  }

  lemma ReadyHoldsOne(d: Side, entries: set<AttachmentId>)
    requires NoStray(d, entries)
    ensures d.phase.Ready? ==> forall id | id in d.made && id in entries :: id in d.forgotten || d.current == Some(id)
  {
  }

  /** Over the same runs every stream of the connection has its lease on the cell of the attachment it is bound to,
      or of the one it is being rotated away from, which is registered with that cell exactly while the cell is
      not revoked; and no other attachment has that cell. */
  lemma StreamsAreOnTheirOwn(c: AppConfig, a: App, run: seq<Step>, k: nat)
    requires AppInv(c, a) && IsJointRun(c, Connected(a), run)
    requires k in AfterSteps(c, Connected(a), run).side.streams
    ensures
      var j := AfterSteps(c, Connected(a), run);
      var r, owner := j.app.registry, StreamOwner(j.side);
      && owner.Some? && k in r.cells && k in r.held
      && (owner.value in r.entries && r.entries[owner.value].cell == k <==> !r.cells[k].revoked)
      && (forall id | id in r.entries && r.entries[id].cell == k :: id == owner.value)
      && (r.cells[k].revoked ==> k in r.detached)
  {
    ConnectedInv(c, a);
    JointRun(c, Connected(a), run);
    StreamIsOnItsOwn(c, AfterSteps(c, Connected(a), run), k);
  }

  lemma StreamIsOnItsOwn(c: AppConfig, j: Joint, k: nat)
    requires JointInv(c, j) && k in j.side.streams
    ensures
      var r, owner := j.app.registry, StreamOwner(j.side);
      && owner.Some? && k in r.cells && k in r.held
      && (owner.value in r.entries && r.entries[owner.value].cell == k <==> !r.cells[k].revoked)
      && (forall id | id in r.entries && r.entries[id].cell == k :: id == owner.value)
      && (r.cells[k].revoked ==> k in r.detached)
  {
    assert k in Leases(j.side);
    assert k in j.app.registry.held;
  }

  lemma MoveRemembers(d: Side, s: Step, g: Gift)
    requires !s.Forget?
    ensures Move(d, s, g).forgotten == d.forgotten
  {
  }

  /** Nothing is forgotten but by such a notification. */
  lemma {:induction false} OnlyForgettingForgets(c: AppConfig, j: Joint, run: seq<Step>)
    requires Wired(j.app.registry) && IsJointRun(c, j, run)
    requires forall k | 0 <= k < |run| :: !run[k].Forget?
    ensures AfterSteps(c, j, run).side.forgotten == j.side.forgotten
    decreases |run|
  {
    if run != [] {
      MoveRemembers(j.side, run[0], GiftOf(c, j, run[0]));
      OnlyForgettingForgets(c, Take(c, j, run[0]), run[1..]);
    }
  }

  /** A fresh attachment on that directory is somebody else's or was forgotten, or somebody else has a lease. */
  ghost predicate OthersNeed(c: AppConfig, j: Joint, key: Path, now: int)
    requires Wired(j.app.registry)
  {
    var r := j.app.registry;
    || (exists id | id in r.entries && (id !in j.side.made || id in j.side.forgotten) ::
          !Expired(c.registry, r, id, now) && r.entries[id].home.key == key)
    || (exists k | k in r.cells && r.held[k] > Leases(j.side)[k] :: r.cells[k].home.key == key)
  }

  lemma NothingNeededIsPruned(c: AppConfig, j: Joint, key: Path, now: int, busy: set<Path>)
    requires AppInv(c, j.app) && key in j.app.runtimes
    requires j.side.made * j.app.registry.entries.Keys <= j.side.forgotten && Leases(j.side) == multiset{}
    requires !OthersNeed(c, j, key, now) && !(j.app.runtimes[key].ready && key in busy)
    ensures key !in PruneRuntimes(c, j.app, now, busy).runtimes
  {
    PruneDropsExactly(c, j.app, now, busy, key);
  }

  /** So nothing of a closed connection keeps a runtime: pruning drops the runtime of a directory that has
      no work and that nobody else has a fresh attachment or a lease on. */
  lemma ClosedConnectionKeepsNoRuntime(
      c: AppConfig, a: App, run: seq<Step>, key: Path, now: int, busy: set<Path>)
    requires AppInv(c, a) && IsJointRun(c, Connected(a), run)
    requires
      var j := AfterSteps(c, Connected(a), run);
      && j.side.phase.Closed?
      && key in j.app.runtimes
      && !(j.app.runtimes[key].ready && key in busy)
      && !OthersNeed(c, j, key, now)
    ensures key !in PruneRuntimes(c, AfterSteps(c, Connected(a), run).app, now, busy).runtimes
  {
    ClosedConnectionLeavesTheServer(c, a, run);
    NothingNeededIsPruned(c, AfterSteps(c, Connected(a), run), key, now, busy);
  }
}
