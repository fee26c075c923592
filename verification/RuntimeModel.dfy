/** Which runtimes the server keeps, and for whom.

    The table of runtimes is keyed by canonical working directory.  Attaching is a sequence of
    awaited steps under the lifecycle lock; looking up, detaching and pruning take the same
    lock, so they never happen in the middle of an attach, but handles are dropped without it,
    so a drop may fall between any two steps, and an attach may be abandoned at any of them. */
module RuntimeModel {
  import opened Options
  import opened RegistryModel

  /** One slot of the table: which instance it is, and whether it has been initialised. */
  datatype RuntimeSlot = RuntimeSlot(instance: nat, ready: bool)

  /** How far the attach that holds the lifecycle lock has come. */
  datatype Attaching =
    | Nobody
    | Pruned(cwd: Path)
    | Reserved(cwd: Path, instance: nat)
    | Initialised(cwd: Path, instance: nat)
    | Described(cwd: Path, instance: nat)

  datatype App = App(
    runtimes: map<Path, RuntimeSlot>,
    registry: Registry,
    nextInstance: nat,
    attaching: Attaching)

  datatype AppConfig = AppConfig(registry: Config, maxRuntimes: nat)

  function NewAppConfig(maxRuntimes: nat, maxAttachments: nat, idleTtl: nat): (c: AppConfig)
    ensures c.maxRuntimes >= 1 && c.registry.maxEntries >= 1
  {
    AppConfig(NewConfig(maxAttachments, idleTtl), if maxRuntimes == 0 then 1 else maxRuntimes)
  }

  const NEW_APP := App(map[], EMPTY_REGISTRY, 0, Nobody)

  datatype Action =
    | BeginAttach(cwd: Path, now: int, busy: set<Path>)
    | ReserveRuntime
    | InitialiseRuntime(ok: bool)
    | DescribeRuntime(ok: bool)
    | RegisterAttachment(id: AttachmentId, now: int)
    | Abandon
    | LookUp(id: AttachmentId, now: int)
    | DetachId(id: AttachmentId)
    | PruneAll(now: int, busy: set<Path>)
    | DropHandle(cell: nat, now: int)

  predicate Enabled(a: App, x: Action) {
    match x
    case BeginAttach(_, _, _) => a.attaching.Nobody?
    case ReserveRuntime => a.attaching.Pruned?
    case InitialiseRuntime(_) => a.attaching.Reserved?
    case DescribeRuntime(_) => a.attaching.Initialised?
    case RegisterAttachment(_, _) => a.attaching.Described?
    case Abandon => !a.attaching.Nobody?
    case LookUp(_, _) => a.attaching.Nobody?
    case DetachId(_) => a.attaching.Nobody?
    case PruneAll(_, _) => a.attaching.Nobody?
    case DropHandle(cell, _) => cell in a.registry.held && cell in a.registry.cells
  }

  /** Drops idle attachments, then every runtime that no attachment or handle refers to and
      that has no work of its own.  `busy` is where unfinished work would be reported. */
  function PruneRuntimes(c: AppConfig, a: App, now: int, busy: set<Path>): (t: App)
    requires Wired(a.registry)
    ensures Wired(t.registry)
  {
    var r := Prune(c.registry, a.registry, now);
    a.(registry := r,
       runtimes := map k | k in a.runtimes && (k in RuntimeKeys(r) || (a.runtimes[k].ready && k in busy)) ::
         a.runtimes[k])
  }

  function Begin(c: AppConfig, a: App, cwd: Path, now: int, busy: set<Path>): (t: App)
    requires Wired(a.registry)
    ensures Wired(t.registry)
  {
    PruneRuntimes(c, a, now, busy).(attaching := Pruned(cwd))
  }

  function Reserve(c: AppConfig, a: App): (t: App)
    requires a.attaching.Pruned?
  {
    var cwd := a.attaching.cwd;
    if cwd in a.runtimes then a.(attaching := Reserved(cwd, a.runtimes[cwd].instance))
    else if |a.runtimes| >= c.maxRuntimes then a.(attaching := Nobody)
    else
      a.(runtimes := a.runtimes[cwd := RuntimeSlot(a.nextInstance, false)],
         nextInstance := a.nextInstance + 1,
         attaching := Reserved(cwd, a.nextInstance))
  }

  /** An initialised slot is used as it is; otherwise initialisation may fail, and then the
      slot is taken back if it is still the one that was reserved. */
  function Initialise(a: App, ok: bool): (t: App)
    requires a.attaching.Reserved?
  {
    var Reserved(cwd, instance) := a.attaching;
    if cwd in a.runtimes && a.runtimes[cwd] == RuntimeSlot(instance, true) then
      a.(attaching := Initialised(cwd, instance))
    else if ok then
      a.(runtimes := a.runtimes[cwd := RuntimeSlot(instance, true)], attaching := Initialised(cwd, instance))
    else
      a.(runtimes := if cwd in a.runtimes && a.runtimes[cwd].instance == instance then a.runtimes - {cwd}
        else a.runtimes,
         attaching := Nobody)
  }

  /** Registers the attachment and ends the attach. */
  function Register(c: AppConfig, a: App, id: AttachmentId, now: int): (out: (App, InsertResult))
    requires Wired(a.registry) && (a.attaching.Initialised? || a.attaching.Described?)
    ensures Wired(out.0.registry)
  {
    var (r, result) := Insert(c.registry, a.registry, id, Home(a.attaching.cwd, a.attaching.instance), now);
    (a.(registry := r, attaching := Nobody), result)
  }

  function Apply(c: AppConfig, a: App, x: Action): (t: App)
    requires Wired(a.registry) && Enabled(a, x)
    ensures Wired(t.registry)
  {
    match x
    case BeginAttach(cwd, now, busy) => Begin(c, a, cwd, now, busy)
    case ReserveRuntime => Reserve(c, a)
    case InitialiseRuntime(ok) => Initialise(a, ok)
    case DescribeRuntime(ok) =>
      a.(attaching := if ok then Described(a.attaching.cwd, a.attaching.instance) else Nobody)
    case RegisterAttachment(id, now) => Register(c, a, id, now).0
    case Abandon => a.(attaching := Nobody)
    case LookUp(id, now) => a.(registry := Lookup(c.registry, a.registry, id, now).0)
    case DetachId(id) => a.(registry := Detach(a.registry, id).0)
    case PruneAll(now, busy) => PruneRuntimes(c, a, now, busy)
    case DropHandle(cell, now) => a.(registry := Release(a.registry, cell, now))
  }

  predicate IsRun(c: AppConfig, a: App, run: seq<Action>)
    requires Wired(a.registry)
    decreases |run|
  {
    run == [] || (Enabled(a, run[0]) && IsRun(c, Apply(c, a, run[0]), run[1..]))
  }

  function After(c: AppConfig, a: App, run: seq<Action>): (t: App)
    requires Wired(a.registry) && IsRun(c, a, run)
    ensures Wired(t.registry)
    decreases |run|
  {
    if run == [] then a else After(c, Apply(c, a, run[0]), run[1..])
  }

  // ---------------------------------------------------------------- the invariant

  /** The runtime behind a registration is in the table, initialised, and the same instance. */
  predicate Backed(a: App, h: Home) {
    h.key in a.runtimes && a.runtimes[h.key] == RuntimeSlot(h.instance, true)
  }

  ghost predicate EntriesBacked(a: App) {
    forall id | id in a.registry.entries :: Backed(a, a.registry.entries[id].home)
  }

  ghost predicate HandlesBacked(a: App) {
    forall k | k in a.registry.held :: k in a.registry.cells && Backed(a, a.registry.cells[k].home)
  }

  predicate AttachBacked(a: App) {
    match a.attaching
    case Nobody => true
    case Pruned(_) => true
    case Reserved(cwd, instance) => cwd in a.runtimes && a.runtimes[cwd].instance == instance
    case Initialised(cwd, instance) => Backed(a, Home(cwd, instance))
    case Described(cwd, instance) => Backed(a, Home(cwd, instance))
  }

  ghost predicate AppInv(c: AppConfig, a: App) {
    && c.maxRuntimes >= 1
    && Inv(c.registry, a.registry)
    && |a.runtimes| <= c.maxRuntimes
    && EntriesBacked(a)
    && HandlesBacked(a)
    && AttachBacked(a)
  }

  lemma EntryKeyInUse(r: Registry, id: AttachmentId)
    requires Wired(r) && id in r.entries
    ensures r.entries[id].home.key in RuntimeKeys(r)
  {}

  lemma PruneKeeps(c: AppConfig, a: App, now: int, busy: set<Path>)
    requires AppInv(c, a)
    ensures var t := PruneRuntimes(c, a, now, busy);
            EntriesBacked(t) && HandlesBacked(t) && |t.runtimes| <= c.maxRuntimes
  {
    var t := PruneRuntimes(c, a, now, busy);
    var r := t.registry;
    PruneInv(c.registry, a.registry, now);
    SubmapSize(t.runtimes, a.runtimes);
    forall id | id in r.entries ensures Backed(t, r.entries[id].home) {
      EntryKeyInUse(r, id);
      assert Backed(a, a.registry.entries[id].home);
    }
    forall k | k in r.held ensures k in r.cells && Backed(t, r.cells[k].home) {
      HeldKeyInUse(c.registry, r, k);
      assert Backed(a, a.registry.cells[k].home);
    }
  }

  lemma PruneRuntimesInv(c: AppConfig, a: App, now: int, busy: set<Path>)
    requires AppInv(c, a) && a.attaching.Nobody?
    ensures AppInv(c, PruneRuntimes(c, a, now, busy))
  {
    PruneInv(c.registry, a.registry, now);
    PruneKeeps(c, a, now, busy);
  }

  /** Adding a slot, or initialising one, disturbs nobody who is already backed. */
  lemma SlotInv(c: AppConfig, a: App, t: App)
    requires AppInv(c, a) && t.registry == a.registry
    requires |t.runtimes| <= c.maxRuntimes && AttachBacked(t)
    requires forall k | k in a.runtimes && a.runtimes[k].ready :: k in t.runtimes && t.runtimes[k] == a.runtimes[k]
    ensures AppInv(c, t)
  {
    forall id | id in t.registry.entries ensures Backed(t, t.registry.entries[id].home) {
      assert Backed(a, a.registry.entries[id].home);
    }
    forall k | k in t.registry.held ensures Backed(t, t.registry.cells[k].home) {
      assert Backed(a, a.registry.cells[k].home);
    }
  }

  lemma ReserveInv(c: AppConfig, a: App)
    requires AppInv(c, a) && a.attaching.Pruned?
    ensures AppInv(c, Reserve(c, a))
  {
    if a.attaching.cwd !in a.runtimes {
      MapAddSize(a.runtimes, a.attaching.cwd, RuntimeSlot(a.nextInstance, false));
    }
    SlotInv(c, a, Reserve(c, a));
  }

  lemma InitialiseInv(c: AppConfig, a: App, ok: bool)
    requires AppInv(c, a) && a.attaching.Reserved?
    ensures AppInv(c, Initialise(a, ok))
  {
    var t := Initialise(a, ok);
    assert t.runtimes.Keys <= a.runtimes.Keys;
    SubmapSize(t.runtimes, a.runtimes);
    SlotInv(c, a, t);
  }

  /** `t` names no home that `r` does not already name. */
  ghost predicate Carries(r: Registry, t: Registry) {
    && (forall d | d in t.entries :: d in r.entries && t.entries[d].home == r.entries[d].home)
    && (forall k | k in t.held :: k in r.held && k in r.cells && k in t.cells && t.cells[k].home == r.cells[k].home)
  }

  lemma CarryInv(c: AppConfig, a: App, t: App)
    requires AppInv(c, a) && t.runtimes == a.runtimes && AttachBacked(t)
    requires Inv(c.registry, t.registry) && Carries(a.registry, t.registry)
    ensures AppInv(c, t)
  {
    forall d | d in t.registry.entries ensures Backed(t, t.registry.entries[d].home) {
      assert Backed(a, a.registry.entries[d].home);
    }
    forall k | k in t.registry.held ensures Backed(t, t.registry.cells[k].home) {
      assert Backed(a, a.registry.cells[k].home);
    }
  }

  lemma DetachCarries(r: Registry, id: AttachmentId)
    requires Wired(r) && (forall k | k in r.held :: k in r.cells)
    ensures Carries(r, Detach(r, id).0)
  {}

  lemma ReleaseCarries(r: Registry, cell: nat, now: int)
    requires Wired(r) && (forall k | k in r.held :: k in r.cells) && cell in r.held
    ensures Carries(r, Release(r, cell, now))
  {
    forall k | k in Release(r, cell, now).held ensures k in r.held {}
  }

  lemma RegisterInv(c: AppConfig, a: App, id: AttachmentId, now: int)
    requires AppInv(c, a) && (a.attaching.Initialised? || a.attaching.Described?)
    ensures AppInv(c, Register(c, a, id, now).0)
  {
    var home := Home(a.attaching.cwd, a.attaching.instance);
    var t := Register(c, a, id, now).0;
    InsertInv(c.registry, a.registry, id, home, now);
    RegisteredHomes(c.registry, a.registry, id, home, now);
    forall d | d in t.registry.entries ensures Backed(t, t.registry.entries[d].home) {
      if t.registry.entries[d].home != home { assert Backed(a, a.registry.entries[d].home); }
    }
    forall k | k in t.registry.held ensures k in t.registry.cells && Backed(t, t.registry.cells[k].home) {
      assert Backed(a, a.registry.cells[k].home);
    }
  }

  /** Insertion brings in one home, the given one, and leaves all handles as they were. */
  lemma RegisteredHomes(c: Config, r: Registry, id: AttachmentId, home: Home, now: int)
    requires Wired(r)
    ensures var t := Insert(c, r, id, home, now).0;
            && t.held == r.held
            && (forall d | d in t.entries ::
                  t.entries[d].home == home || (d in r.entries && t.entries[d] == r.entries[d]))
            && (forall k | k in r.cells :: k in t.cells && t.cells[k].home == r.cells[k].home)
  {}

  lemma LookUpInv(c: AppConfig, a: App, id: AttachmentId, now: int)
    requires AppInv(c, a) && a.attaching.Nobody?
    ensures AppInv(c, Apply(c, a, LookUp(id, now)))
  {
    var t := Apply(c, a, LookUp(id, now));
    LookupInv(c.registry, a.registry, id, now);
    LookupHomes(c.registry, a.registry, id, now);
    forall d | d in t.registry.entries ensures Backed(t, t.registry.entries[d].home) {
      assert Backed(a, a.registry.entries[d].home);
    }
    forall k | k in t.registry.held ensures k in t.registry.cells && Backed(t, t.registry.cells[k].home) {
      if k in a.registry.held {
        assert Backed(a, a.registry.cells[k].home);
      } else {
        assert Backed(a, a.registry.entries[id].home);
      }
    }
  }

  lemma LookupHomes(c: Config, r: Registry, id: AttachmentId, now: int)
    requires Wired(r)
    ensures var t := Lookup(c, r, id, now).0;
            && (forall d | d in t.entries :: d in r.entries && t.entries[d] == r.entries[d])
            && (forall k | k in r.cells :: k in t.cells && t.cells[k].home == r.cells[k].home)
            && (forall k | k in t.held :: k in r.held || (id in r.entries && k == r.entries[id].cell))
  {
    var p := Prune(c, r, now);
    assert forall k | k in r.cells :: k in p.cells && p.cells[k].home == r.cells[k].home;
    if id in p.entries {
      var t := Acquire(p, p.entries[id].cell).0;
      assert forall k | k in p.cells :: k in t.cells && t.cells[k].home == p.cells[k].home;
    }
  }

  lemma DetachAppInv(c: AppConfig, a: App, id: AttachmentId)
    requires AppInv(c, a) && a.attaching.Nobody?
    ensures AppInv(c, Apply(c, a, DetachId(id)))
  {
    DetachInv(c.registry, a.registry, id);
    DetachCarries(a.registry, id);
    CarryInv(c, a, Apply(c, a, DetachId(id)));
  }

  lemma DropInv(c: AppConfig, a: App, cell: nat, now: int)
    requires AppInv(c, a) && cell in a.registry.held
    ensures AppInv(c, Apply(c, a, DropHandle(cell, now)))
  {
    ReleaseInv(c.registry, a.registry, cell, now);
    ReleaseCarries(a.registry, cell, now);
    CarryInv(c, a, Apply(c, a, DropHandle(cell, now)));
  }

  lemma StepAppInv(c: AppConfig, a: App, x: Action)
    requires AppInv(c, a) && Enabled(a, x)
    ensures AppInv(c, Apply(c, a, x))
  {
    match x {
      case BeginAttach(cwd, now, busy) => BeginInv(c, a, cwd, now, busy);
      case RegisterAttachment(id, now) => RegisterInv(c, a, id, now);
      case LookUp(id, now) => LookUpInv(c, a, id, now);
      case DetachId(id) => DetachAppInv(c, a, id);
      case PruneAll(now, busy) => PruneRuntimesInv(c, a, now, busy);
      case DropHandle(cell, now) => DropInv(c, a, cell, now);
      case ReserveRuntime => ReserveInv(c, a);
      case InitialiseRuntime(ok) => InitialiseInv(c, a, ok);
      case _ => SlotInv(c, a, Apply(c, a, x));
    }
  }

  lemma BeginInv(c: AppConfig, a: App, cwd: Path, now: int, busy: set<Path>)
    requires AppInv(c, a) && a.attaching.Nobody?
    ensures AppInv(c, Begin(c, a, cwd, now, busy))
  {
    PruneRuntimesInv(c, a, now, busy);
    SlotInv(c, PruneRuntimes(c, a, now, busy), Begin(c, a, cwd, now, busy));
  }

  lemma {:induction false} RunAppInv(c: AppConfig, a: App, run: seq<Action>)
    requires AppInv(c, a) && IsRun(c, a, run)
    ensures AppInv(c, After(c, a, run))
    decreases |run|
  {
    if run != [] {
      StepAppInv(c, a, run[0]);
      RunAppInv(c, Apply(c, a, run[0]), run[1..]);
    }
  }

  // ---------------------------------------------------------------- the theorem

  /** In every reachable state: the table is within its limit; every registered attachment and
      every handle still out, even one whose detach gave up waiting, has its runtime in the
      table; and all of them for one directory share the one instance the table holds. */
  lemma RuntimesStayOwned(maxRuntimes: nat, maxAttachments: nat, idleTtl: nat, run: seq<Action>)
    requires IsRun(NewAppConfig(maxRuntimes, maxAttachments, idleTtl), NEW_APP, run)
    ensures var a := After(NewAppConfig(maxRuntimes, maxAttachments, idleTtl), NEW_APP, run);
            && |a.runtimes| <= (if maxRuntimes == 0 then 1 else maxRuntimes)
            && (forall id | id in a.registry.entries :: Backed(a, a.registry.entries[id].home))
            && (forall k | k in a.registry.held :: k in a.registry.cells && Backed(a, a.registry.cells[k].home))
            && (forall id, k | id in a.registry.entries && k in a.registry.held ::
                  a.registry.entries[id].home.key == a.registry.cells[k].home.key ==>
                  a.registry.entries[id].home.instance == a.registry.cells[k].home.instance)
  {
    var c := NewAppConfig(maxRuntimes, maxAttachments, idleTtl);
    RunAppInv(c, NEW_APP, run);
    var a := After(c, NEW_APP, run);
    forall id, k | id in a.registry.entries && k in a.registry.held
      ensures a.registry.entries[id].home.key == a.registry.cells[k].home.key ==>
              a.registry.entries[id].home.instance == a.registry.cells[k].home.instance
    {
      assert Backed(a, a.registry.entries[id].home) && Backed(a, a.registry.cells[k].home);
    }
  }

  /** Pruning drops exactly the runtimes nobody refers to and that have no work. */
  lemma PruneDropsExactly(c: AppConfig, a: App, now: int, busy: set<Path>, key: Path)
    requires AppInv(c, a) && key in a.runtimes
    ensures key in PruneRuntimes(c, a, now, busy).runtimes <==>
            || (exists id | id in a.registry.entries ::
                  !Expired(c.registry, a.registry, id, now) && a.registry.entries[id].home.key == key)
            || (exists k | k in InUse(a.registry) :: a.registry.cells[k].home.key == key)
            || (a.runtimes[key].ready && key in busy)
  {
    var r := Prune(c.registry, a.registry, now);
    PruneLoad(c.registry, a.registry, now);
    if key in RuntimeKeys(r) {
      if id :| id in r.entries && r.entries[id].home.key == key {
        assert id in a.registry.entries && !Expired(c.registry, a.registry, id, now);
      } else {
        var k :| k in InUse(r) && r.detached[k] == key;
        assert k in InUse(a.registry) && a.registry.cells[k].home.key == key;
      }
    }
    var entries := a.registry.entries;
    if id :| id in entries && !Expired(c.registry, a.registry, id, now) && entries[id].home.key == key {
      assert id in r.entries;
    }
    if k :| k in InUse(a.registry) && a.registry.cells[k].home.key == key {
      assert k in InUse(r) && r.detached[k] == key;
    }
  }

  // ---------------------------------------------------------------- one whole attach

  /** What the world answers during one attach: the path checks, whether the runtime starts
      and describes itself, the fresh id, the clock and the work reported at each pruning. */
  datatype AttachEnv = AttachEnv(
    absolute: bool,
    canonical: Option<Path>,
    prunedAt: int,
    busy: set<Path>,
    starts: bool,
    describes: bool,
    id: AttachmentId,
    registeredAt: int,
    cleanedAt: int,
    busyAfter: set<Path>)

  datatype AttachResult =
    | Attached(id: AttachmentId)
    | NotAbsolute
    | UnusablePath
    | RuntimeLimit
    | StartFailed
    | DescribeFailed
    | AttachmentLimit
    | DuplicateId

  /** The attach as one piece, from the steps above; failures clean up after themselves. */
  function Attach(c: AppConfig, a: App, env: AttachEnv): (out: (App, AttachResult))
    requires Wired(a.registry) && a.attaching.Nobody?
    ensures Wired(out.0.registry) && out.0.attaching.Nobody?
  {
    if !env.absolute then (a, NotAbsolute)
    else if env.canonical.None? then (a, UnusablePath)
    else
      AttachReserved(c, Reserve(c, Begin(c, a, env.canonical.value, env.prunedAt, env.busy)), env)
  }

  function AttachReserved(c: AppConfig, a: App, env: AttachEnv): (out: (App, AttachResult))
    requires Wired(a.registry) && (a.attaching.Nobody? || a.attaching.Reserved?)
    ensures Wired(out.0.registry) && out.0.attaching.Nobody?
  {
    if a.attaching.Nobody? then (a, RuntimeLimit)
    else AttachStarted(c, Initialise(a, env.starts), env)
  }

  function AttachStarted(c: AppConfig, a: App, env: AttachEnv): (out: (App, AttachResult))
    requires Wired(a.registry) && (a.attaching.Nobody? || a.attaching.Initialised?)
    ensures Wired(out.0.registry) && out.0.attaching.Nobody?
  {
    if a.attaching.Nobody? then (a, StartFailed)
    else if !env.describes then (PruneRuntimes(c, a.(attaching := Nobody), env.cleanedAt, env.busyAfter),
      DescribeFailed)
    else
      var (b, result) := Register(c, a, env.id, env.registeredAt);
      if result == Inserted then (b, Attached(env.id))
      else (PruneRuntimes(c, b, env.cleanedAt, env.busyAfter), if result == Capacity then AttachmentLimit
        else DuplicateId)
  }

  lemma AttachStartedInv(c: AppConfig, a: App, env: AttachEnv)
    requires AppInv(c, a) && (a.attaching.Nobody? || a.attaching.Initialised?)
    ensures AppInv(c, AttachStarted(c, a, env).0)
  {
    if a.attaching.Initialised? {
      if env.describes {
        RegisterInv(c, a, env.id, env.registeredAt);
        PruneRuntimesInv(c, Register(c, a, env.id, env.registeredAt).0, env.cleanedAt, env.busyAfter);
      } else {
        SlotInv(c, a, a.(attaching := Nobody));
        PruneRuntimesInv(c, a.(attaching := Nobody), env.cleanedAt, env.busyAfter);
      }
    }
  }

  lemma AttachReservedInv(c: AppConfig, a: App, env: AttachEnv)
    requires AppInv(c, a) && (a.attaching.Nobody? || a.attaching.Reserved?)
    ensures AppInv(c, AttachReserved(c, a, env).0)
  {
    if a.attaching.Reserved? {
      InitialiseInv(c, a, env.starts);
      AttachStartedInv(c, Initialise(a, env.starts), env);
    }
  }

  lemma AttachBegunInv(c: AppConfig, a: App, env: AttachEnv)
    requires AppInv(c, a) && a.attaching.Pruned?
    ensures AppInv(c, AttachReserved(c, Reserve(c, a), env).0)
  {
    ReserveInv(c, a);
    AttachReservedInv(c, Reserve(c, a), env);
  }

  /** An attach that nobody disturbs keeps the invariant, whatever the world answers. */
  lemma AttachInv(c: AppConfig, a: App, env: AttachEnv)
    requires AppInv(c, a) && a.attaching.Nobody?
    ensures AppInv(c, Attach(c, a, env).0)
  {
    if env.absolute && env.canonical.Some? {
      BeginInv(c, a, env.canonical.value, env.prunedAt, env.busy);
      AttachBegunInv(c, Begin(c, a, env.canonical.value, env.prunedAt, env.busy), env);
    }
  }

  lemma PrunedKeys(c: Config, r: Registry, now: int)
    requires Wired(r)
    ensures RuntimeKeys(Prune(c, r, now)) <= RuntimeKeys(r)
    ensures Prune(c, r, now).entries.Keys <= r.entries.Keys
  {
    PruneLoad(c, r, now);
  }

  ghost predicate Succeeded(t: App, cwd: Path, env: AttachEnv) {
    && env.id in t.registry.entries
    && t.registry.entries[env.id].home.key == cwd
    && Backed(t, t.registry.entries[env.id].home)
  }

  /** Nothing registered, and no runtime left that was not there, except one with work to do. */
  ghost predicate LeftNothing(a: App, t: App, env: AttachEnv) {
    && t.registry.entries.Keys <= a.registry.entries.Keys
    && forall k | k in t.runtimes :: k in a.runtimes || k in env.busyAfter
  }

  /** Nobody refers to a runtime that is not in the table. */
  predicate Served(a: App)
    requires Wired(a.registry)
  {
    RuntimeKeys(a.registry) <= a.runtimes.Keys
  }

  lemma InvServed(c: AppConfig, a: App)
    requires AppInv(c, a)
    ensures Served(a)
  {
    var r := a.registry;
    forall key | key in RuntimeKeys(r) ensures key in a.runtimes {
      if id :| id in r.entries && r.entries[id].home.key == key {
        assert Backed(a, r.entries[id].home);
      } else {
        var k :| k in InUse(r) && r.detached[k] == key;
        assert k in r.held;
        assert Backed(a, r.cells[k].home);
      }
    }
  }

  /** A failure cleans up: `b` is where it gave up, starting from `a`. */
  lemma CleanUp(c: AppConfig, a: App, b: App, env: AttachEnv)
    requires Wired(a.registry) && Served(a) && Wired(b.registry)
    requires RuntimeKeys(b.registry) <= RuntimeKeys(a.registry) && b.registry.entries.Keys <= a.registry.entries.Keys
    ensures LeftNothing(a, PruneRuntimes(c, b, env.cleanedAt, env.busyAfter), env)
  {
    PrunedKeys(c.registry, b.registry, env.cleanedAt);
  }

  /** A slot that cannot be initialised was not in use before, and is taken back. */
  lemma StartFailure(c: AppConfig, begun: App, starts: bool)
    requires begun.attaching.Pruned?
    requires Reserve(c, begun).attaching.Reserved?
    requires Initialise(Reserve(c, begun), starts).attaching.Nobody?
    ensures Initialise(Reserve(c, begun), starts).runtimes.Keys <= begun.runtimes.Keys
    ensures Initialise(Reserve(c, begun), starts).registry == begun.registry
  {}

  ghost predicate Outcome(a: App, out: (App, AttachResult), cwd: Path, env: AttachEnv) {
    if out.1.Attached? then out.1.id == env.id && Succeeded(out.0, cwd, env) else LeftNothing(a, out.0, env)
  }

  lemma StartedOutcome(c: AppConfig, a: App, started: App, env: AttachEnv)
    requires Wired(a.registry) && Served(a)
    requires Wired(started.registry) && started.attaching.Initialised? && AttachBacked(started)
    requires RuntimeKeys(started.registry) <= RuntimeKeys(a.registry)
    requires started.registry.entries.Keys <= a.registry.entries.Keys
    ensures Outcome(a, AttachStarted(c, started, env), started.attaching.cwd, env)
  {
    if !env.describes {
      CleanUp(c, a, started.(attaching := Nobody), env);
    } else {
      var (b, result) := Register(c, started, env.id, env.registeredAt);
      if result != Inserted {
        PrunedKeys(c.registry, started.registry, env.registeredAt);
        CleanUp(c, a, b, env);
      }
    }
  }

  lemma BegunOutcome(c: AppConfig, a: App, begun: App, env: AttachEnv)
    requires Wired(a.registry) && Served(a)
    requires Wired(begun.registry) && begun.attaching.Pruned?
    requires RuntimeKeys(begun.registry) <= RuntimeKeys(a.registry)
    requires begun.registry.entries.Keys <= a.registry.entries.Keys && begun.runtimes.Keys <= a.runtimes.Keys
    ensures Outcome(a, AttachReserved(c, Reserve(c, begun), env), begun.attaching.cwd, env)
  {
    var reserved := Reserve(c, begun);
    if reserved.attaching.Reserved? {
      var started := Initialise(reserved, env.starts);
      if started.attaching.Nobody? {
        StartFailure(c, begun, env.starts);
      } else {
        StartedOutcome(c, a, started, env);
      }
    }
  }

  /** What the caller of an attach gets.  Success registers the fresh id on the one runtime of
      the directory.  Every failure leaves no attachment behind, and no runtime that was not
      there before, unless that runtime reports unfinished work. */
  lemma AttachOutcome(c: AppConfig, a: App, env: AttachEnv)
    requires AppInv(c, a) && a.attaching.Nobody?
    ensures var (t, result) := Attach(c, a, env);
            if result.Attached? then result.id == env.id && env.canonical.Some?
              && Succeeded(t, env.canonical.value, env)
            else LeftNothing(a, t, env)
  {
    if env.absolute && env.canonical.Some? {
      InvServed(c, a);
      PrunedKeys(c.registry, a.registry, env.prunedAt);
      BegunOutcome(c, a, Begin(c, a, env.canonical.value, env.prunedAt, env.busy), env);
    }
  }
}
