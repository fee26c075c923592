/** The bounded registry of attachments.

    `Registry` is the value the registry holds; the functions on it say what each operation
    does, and the lemmas say what every sequence of operations keeps.  The class
    `AttachmentRegistry` (Attachments.dfy) performs the operations in place.

    A lease state that the source shares by reference counting is a cell with a number:
    entries, detached records and handles all name the cell.  The detached records are kept
    here as a map from cell to runtime key, because their order never matters. */
module RegistryModel {
  import opened Options

  type Path = string
  type AttachmentId = string

  /** What every handle to a cell carries: the runtime key and the runtime instance behind
      the transport that was registered with the cell. */
  datatype Home = Home(key: Path, instance: nat)

  datatype LeaseCell = LeaseCell(active: nat, idleSince: int, revoked: bool, home: Home)

  datatype Entry = Entry(home: Home, cell: nat)

  /** `held` counts the handles that have been given out and not dropped, cell by cell. */
  datatype Registry = Registry(
    entries: map<AttachmentId, Entry>,
    detached: map<nat, Path>,
    cells: map<nat, LeaseCell>,
    nextCell: nat,
    held: multiset<nat>)

  datatype Config = Config(maxEntries: nat, idleTtl: nat)

  datatype InsertResult = Inserted | Capacity | Duplicate

  function NewConfig(maxEntries: nat, idleTtl: nat): (c: Config)
    ensures c.maxEntries >= 1
  {
    Config(if maxEntries == 0 then 1 else maxEntries, idleTtl)
  }

  const EMPTY_REGISTRY := Registry(map[], map[], map[], 0, multiset{})

  // ---------------------------------------------------------------- operations

  /** Idle for longer than the limit; the elapsed time saturates at zero. */
  predicate IdleExpired(c: LeaseCell, now: int, ttl: nat) {
    c.active == 0 && (if now > c.idleSince then now - c.idleSince else 0) > ttl
  }

  /** Every cell an entry or a detached record names exists. */
  predicate Wired(r: Registry) {
    && (forall id | id in r.entries :: r.entries[id].cell in r.cells)
    && (forall k | k in r.detached :: k in r.cells)
    && (forall k | k in r.cells :: k < r.nextCell)
  }

  predicate Expired(c: Config, r: Registry, id: AttachmentId, now: int)
    requires Wired(r)
  {
    id in r.entries && IdleExpired(r.cells[r.entries[id].cell], now, c.idleTtl)
  }

  function LiveEntries(c: Config, r: Registry, now: int): (m: map<AttachmentId, Entry>)
    requires Wired(r)
  {
    map id | id in r.entries && !Expired(c, r, id, now) :: r.entries[id]
  }

  function ExpiredCells(c: Config, r: Registry, now: int): (s: set<nat>)
    requires Wired(r)
  {
    set id | id in r.entries && Expired(c, r, id, now) :: r.entries[id].cell
  }

  function RevokeCells(cells: map<nat, LeaseCell>, which: set<nat>): (out: map<nat, LeaseCell>) {
    map k | k in cells :: if k in which then cells[k].(revoked := true) else cells[k]
  }

  /** Detached records whose cell still has handles out. */
  function InUse(r: Registry): (m: map<nat, Path>)
    requires Wired(r)
  {
    map k | k in r.detached && r.cells[k].active > 0 :: r.detached[k]
  }

  function Prune(c: Config, r: Registry, now: int): (out: Registry)
    requires Wired(r)
    ensures Wired(out)
  {
    r.(entries := LiveEntries(c, r, now),
       cells := RevokeCells(r.cells, ExpiredCells(c, r, now)),
       detached := InUse(r))
  }

  /** Entries plus detached records whose cell is still in use. */
  function Load(r: Registry): (n: nat)
    requires Wired(r)
  {
    |r.entries| + |InUse(r)|
  }

  /** A new entry with a cell of its own. */
  function Place(r: Registry, id: AttachmentId, home: Home, now: int): (t: Registry)
    requires Wired(r)
    ensures Wired(t)
  {
    r.(entries := r.entries[id := Entry(home, r.nextCell)],
       cells := r.cells[r.nextCell := LeaseCell(0, now, false, home)],
       nextCell := r.nextCell + 1)
  }

  function Insert(c: Config, r0: Registry, id: AttachmentId, home: Home, now: int): (out: (Registry, InsertResult))
    requires Wired(r0)
    ensures Wired(out.0)
  {
    var r := Prune(c, r0, now);
    if id in r.entries then (r, Duplicate)
    else if Load(r) >= c.maxEntries then (r, Capacity)
    else (Place(r, id, home, now), Inserted)
  }

  /** `acquire` on a cell, with no revocation in between: the registry's own lock keeps the
      two apart.  LeaseProtocol treats the two without that lock. */
  function Acquire(r: Registry, cell: nat): (out: (Registry, Option<nat>))
    requires Wired(r) && cell in r.cells
    ensures Wired(out.0)
  {
    if r.cells[cell].revoked then (r, None)
    else
      (r.(cells := r.cells[cell := r.cells[cell].(active := r.cells[cell].active + 1)],
          held := r.held + multiset{cell}),
       Some(cell))
  }

  function Lookup(c: Config, r0: Registry, id: AttachmentId, now: int): (out: (Registry, Option<nat>))
    requires Wired(r0)
    ensures Wired(out.0)
  {
    var r := Prune(c, r0, now);
    if id in r.entries then Acquire(r, r.entries[id].cell) else (r, None)
  }

  function Detach(r: Registry, id: AttachmentId): (out: (Registry, Option<nat>))
    requires Wired(r)
    ensures Wired(out.0)
  {
    if id !in r.entries then (r, None)
    else
      var e := r.entries[id];
      (r.(entries := r.entries - {id},
          cells := r.cells[e.cell := r.cells[e.cell].(revoked := true)],
          detached := r.detached[e.cell := e.home.key]),
       Some(e.cell))
  }

  /** Dropping one handle to `cell`. */
  function Release(r: Registry, cell: nat, now: int): (out: Registry)
    requires Wired(r) && cell in r.cells && cell in r.held
    ensures Wired(out)
  {
    var c := r.cells[cell];
    var left := if c.active == 0 then 0 else c.active - 1;
    r.(cells := r.cells[cell := c.(active := left, idleSince := if left == 0 then now else c.idleSince)],
       held := r.held - multiset{cell})
  }

  function RuntimeKeys(r: Registry): (keys: set<Path>)
    requires Wired(r)
  {
    (set id | id in r.entries :: r.entries[id].home.key) + (set k | k in InUse(r) :: r.detached[k])
  }

  // ---------------------------------------------------------------- the invariant

  predicate Homed(r: Registry)
    requires Wired(r)
  {
    && (forall id | id in r.entries ::
          !r.cells[r.entries[id].cell].revoked && r.cells[r.entries[id].cell].home == r.entries[id].home)
    && (forall k | k in r.detached :: r.cells[k].revoked && r.cells[k].home.key == r.detached[k])
  }

  predicate Unshared(r: Registry) {
    forall a, b | a in r.entries && b in r.entries :: r.entries[a].cell == r.entries[b].cell ==> a == b
  }

  predicate Registered(r: Registry, cell: nat) {
    exists id | id in r.entries :: r.entries[id].cell == cell
  }

  /** Every count is the number of handles out, and a cell with handles out is still known. */
  ghost predicate Accounted(r: Registry) {
    && (forall k | k in r.cells :: r.cells[k].active == r.held[k])
    && (forall k | k in r.held :: k in r.cells && (Registered(r, k) || k in r.detached))
  }

  ghost predicate Inv(c: Config, r: Registry) {
    && c.maxEntries >= 1
    && Wired(r)
    && Homed(r)
    && Unshared(r)
    && Accounted(r)
    && Load(r) <= c.maxEntries
  }

  lemma EmptyInv(c: Config)
    requires c.maxEntries >= 1
    ensures Inv(c, EMPTY_REGISTRY)
  {}

  lemma {:induction false} SubsetSize<T>(a: set<T>, b: set<T>)
    requires a <= b
    ensures |a| <= |b|
  {
    if a != {} {
      var x :| x in a;
      SubsetSize(a - {x}, b - {x});
    }
  }

  lemma SubmapSize<K, V>(a: map<K, V>, b: map<K, V>)
    requires a.Keys <= b.Keys
    ensures |a| <= |b|
  {
    SubsetSize(a.Keys, b.Keys);
    assert |a| == |a.Keys| && |b| == |b.Keys|;
  }

  lemma MapAddSize<K, V>(m: map<K, V>, k: K, v: V)
    requires k !in m
    ensures |m[k := v]| == |m| + 1
  {
    assert m[k := v].Keys == m.Keys + {k};
    assert |m[k := v]| == |m[k := v].Keys| && |m| == |m.Keys|;
  }

  lemma MapRemoveSize<K, V>(m: map<K, V>, k: K)
    requires k in m
    ensures |m - {k}| == |m| - 1
  {
    assert (m - {k}).Keys == m.Keys - {k};
    assert |m - {k}| == |(m - {k}).Keys| && |m| == |m.Keys|;
  }

  lemma PruneHomed(c: Config, r: Registry, now: int)
    requires Wired(r) && Homed(r) && Unshared(r)
    ensures Homed(Prune(c, r, now)) && Unshared(Prune(c, r, now))
  {
    var p := Prune(c, r, now);
    forall id | id in p.entries ensures p.entries[id].cell !in ExpiredCells(c, r, now) {
      forall other | other in r.entries && r.entries[other].cell == r.entries[id].cell
        ensures !Expired(c, r, other, now) {
        assert other == id;
      }
    }
  }

  lemma PruneAccounted(c: Config, r: Registry, now: int)
    requires Wired(r) && Accounted(r)
    ensures Accounted(Prune(c, r, now))
  {
    var p := Prune(c, r, now);
    forall k | k in p.held ensures k in p.cells && (Registered(p, k) || k in p.detached) {
      assert r.cells[k].active > 0;
      if Registered(r, k) {
        var id :| id in r.entries && r.entries[id].cell == k;
        assert id in p.entries && p.entries[id].cell == k;
      }
    }
  }

  lemma PruneLoad(c: Config, r: Registry, now: int)
    requires Wired(r)
    ensures InUse(Prune(c, r, now)) == InUse(r)
    ensures Load(Prune(c, r, now)) <= Load(r)
  {
    var p := Prune(c, r, now);
    assert InUse(p).Keys == InUse(r).Keys;
    SubmapSize(p.entries, r.entries);
  }

  lemma PruneInv(c: Config, r: Registry, now: int)
    requires Inv(c, r)
    ensures Inv(c, Prune(c, r, now))
  {
    PruneHomed(c, r, now);
    PruneAccounted(c, r, now);
    PruneLoad(c, r, now);
  }

  lemma PlaceHomed(r: Registry, id: AttachmentId, home: Home, now: int)
    requires Wired(r) && Homed(r) && Unshared(r) && id !in r.entries
    ensures Homed(Place(r, id, home, now)) && Unshared(Place(r, id, home, now))
  {
    assert r.nextCell !in r.cells;
  }

  lemma PlaceAccounted(r: Registry, id: AttachmentId, home: Home, now: int)
    requires Wired(r) && Accounted(r) && id !in r.entries
    ensures Accounted(Place(r, id, home, now))
  {
    var t := Place(r, id, home, now);
    assert r.nextCell !in r.cells;
    assert r.nextCell !in r.held;
    forall k | k in t.held ensures Registered(t, k) || k in t.detached {
      if Registered(r, k) {
        var e :| e in r.entries && r.entries[e].cell == k;
        assert e in t.entries && t.entries[e].cell == k;
      }
    }
  }

  lemma PlaceLoad(r: Registry, id: AttachmentId, home: Home, now: int)
    requires Wired(r) && id !in r.entries
    ensures Load(Place(r, id, home, now)) == Load(r) + 1
  {
    var t := Place(r, id, home, now);
    assert r.nextCell !in r.cells;
    assert InUse(t) == InUse(r);
    MapAddSize(r.entries, id, Entry(home, r.nextCell));
  }

  lemma InsertInv(c: Config, r: Registry, id: AttachmentId, home: Home, now: int)
    requires Inv(c, r)
    ensures Inv(c, Insert(c, r, id, home, now).0)
  {
    var p := Prune(c, r, now);
    PruneInv(c, r, now);
    if id !in p.entries && Load(p) < c.maxEntries {
      PlaceHomed(p, id, home, now);
      PlaceAccounted(p, id, home, now);
      PlaceLoad(p, id, home, now);
    }
  }

  lemma AcquireHomed(r: Registry, id: AttachmentId)
    requires Wired(r) && Homed(r) && Unshared(r) && id in r.entries
    ensures var t := Acquire(r, r.entries[id].cell).0;
            Homed(t) && Unshared(t) && InUse(t) == InUse(r) && t.entries == r.entries && t.detached == r.detached
  {
    var t := Acquire(r, r.entries[id].cell).0;
    assert r.entries[id].cell !in r.detached;
    assert InUse(t) == InUse(r);
  }

  lemma AcquireAccounted(r: Registry, id: AttachmentId)
    requires Wired(r) && Homed(r) && Accounted(r) && id in r.entries
    ensures Accounted(Acquire(r, r.entries[id].cell).0)
  {
    var cell := r.entries[id].cell;
    var t := Acquire(r, cell).0;
    assert Registered(t, cell);
    forall k | k in t.held && k != cell ensures Registered(t, k) || k in t.detached {
      assert k in r.held;
      if Registered(r, k) {
        var e :| e in r.entries && r.entries[e].cell == k;
        assert t.entries[e].cell == k;
      }
    }
  }

  lemma AcquireInv(c: Config, r: Registry, id: AttachmentId)
    requires Inv(c, r) && id in r.entries
    ensures Inv(c, Acquire(r, r.entries[id].cell).0)
  {
    AcquireHomed(r, id);
    AcquireAccounted(r, id);
  }

  lemma LookupInv(c: Config, r: Registry, id: AttachmentId, now: int)
    requires Inv(c, r)
    ensures Inv(c, Lookup(c, r, id, now).0)
  {
    PruneInv(c, r, now);
    var p := Prune(c, r, now);
    if id in p.entries { AcquireInv(c, p, id); }
  }

  lemma DetachHomed(r: Registry, id: AttachmentId)
    requires Wired(r) && Homed(r) && Unshared(r)
    ensures Homed(Detach(r, id).0) && Unshared(Detach(r, id).0)
  {}

  lemma DetachAccounted(r: Registry, id: AttachmentId)
    requires Wired(r) && Accounted(r)
    ensures Accounted(Detach(r, id).0)
  {
    var t := Detach(r, id).0;
    forall k | k in t.held ensures k in t.cells && (Registered(t, k) || k in t.detached) {
      if Registered(r, k) && k !in t.detached {
        var d :| d in r.entries && r.entries[d].cell == k;
        assert d in t.entries && t.entries[d].cell == k;
      }
    }
  }

  lemma DetachLoad(r: Registry, id: AttachmentId)
    requires Wired(r) && Homed(r)
    ensures Load(Detach(r, id).0) <= Load(r)
  {
    if id in r.entries {
      var t := Detach(r, id).0;
      var cell := r.entries[id].cell;
      assert InUse(t).Keys <= InUse(r).Keys + {cell};
      SubsetSize(InUse(t).Keys, InUse(r).Keys + {cell});
      assert |InUse(t)| == |InUse(t).Keys| && |InUse(r)| == |InUse(r).Keys|;
      MapRemoveSize(r.entries, id);
    }
  }

  lemma DetachInv(c: Config, r: Registry, id: AttachmentId)
    requires Inv(c, r)
    ensures Inv(c, Detach(r, id).0)
  {
    DetachHomed(r, id);
    DetachAccounted(r, id);
    DetachLoad(r, id);
  }

  lemma ReleaseAccounted(r: Registry, cell: nat, now: int)
    requires Wired(r) && Accounted(r) && cell in r.held
    ensures Accounted(Release(r, cell, now))
  {
    var t := Release(r, cell, now);
    forall k | k in t.held ensures Registered(t, k) || k in t.detached {
      assert k in r.held;
      if Registered(r, k) {
        var e :| e in r.entries && r.entries[e].cell == k;
        assert t.entries[e].cell == k;
      }
    }
  }

  lemma ReleaseHomed(r: Registry, cell: nat, now: int)
    requires Wired(r) && Homed(r) && Unshared(r) && cell in r.cells && cell in r.held
    ensures var t := Release(r, cell, now);
            Homed(t) && Unshared(t) && Load(t) <= Load(r)
  {
    SubmapSize(InUse(Release(r, cell, now)), InUse(r));
  }

  lemma ReleaseInv(c: Config, r: Registry, cell: nat, now: int)
    requires Inv(c, r) && cell in r.held
    ensures Inv(c, Release(r, cell, now))
  {
    ReleaseAccounted(r, cell, now);
    ReleaseHomed(r, cell, now);
  }

  // ---------------------------------------------------------------- every sequence of operations

  datatype Op =
    | OpInsert(id: AttachmentId, home: Home, now: int)
    | OpLookup(id: AttachmentId, now: int)
    | OpDetach(id: AttachmentId)
    | OpPrune(now: int)
    | OpRelease(cell: nat, now: int)

  /** One operation; releasing needs a handle to release. */
  function Step(c: Config, r: Registry, op: Op): (out: Registry)
    requires Wired(r)
    ensures Wired(out)
  {
    match op
    case OpInsert(id, home, now) => Insert(c, r, id, home, now).0
    case OpLookup(id, now) => Lookup(c, r, id, now).0
    case OpDetach(id) => Detach(r, id).0
    case OpPrune(now) => Prune(c, r, now)
    case OpRelease(cell, now) =>
      if cell in r.held && cell in r.cells then Release(r, cell, now) else r
  }

  function Steps(c: Config, r: Registry, ops: seq<Op>): (out: Registry)
    requires Wired(r)
    ensures Wired(out)
    decreases |ops|
  {
    if ops == [] then r else Steps(c, Step(c, r, ops[0]), ops[1..])
  }

  lemma StepInv(c: Config, r: Registry, op: Op)
    requires Inv(c, r)
    ensures Inv(c, Step(c, r, op))
  {
    match op {
      case OpInsert(id, home, now) => InsertInv(c, r, id, home, now);
      case OpLookup(id, now) => LookupInv(c, r, id, now);
      case OpDetach(id) => DetachInv(c, r, id);
      case OpPrune(now) => PruneInv(c, r, now);
      case OpRelease(cell, now) => if cell in r.held { ReleaseInv(c, r, cell, now); }
    }
  }

  lemma {:induction false} StepsInv(c: Config, r: Registry, ops: seq<Op>)
    requires Inv(c, r)
    ensures Inv(c, Steps(c, r, ops))
    decreases |ops|
  {
    if ops != [] {
      StepInv(c, r, ops[0]);
      StepsInv(c, Step(c, r, ops[0]), ops[1..]);
    }
  }

  lemma HeldKeyInUse(c: Config, r: Registry, k: nat)
    requires Inv(c, r) && k in r.held
    ensures k in r.cells && r.cells[k].home.key in RuntimeKeys(r)
  {
    if Registered(r, k) {
      var id :| id in r.entries && r.entries[id].cell == k;
      assert r.entries[id].home.key in RuntimeKeys(r);
    } else {
      assert k in InUse(r);
    }
  }

  /** After any sequence of operations on a new registry: each count is the number of handles
      out, the cell of every handle is still an entry or a retained detached record, its
      runtime key is among the keys in use, and the capacity bound holds. */
  lemma EverySequence(maxEntries: nat, idleTtl: nat, ops: seq<Op>)
    ensures var r := Steps(NewConfig(maxEntries, idleTtl), EMPTY_REGISTRY, ops);
            && (forall k | k in r.cells :: r.cells[k].active == r.held[k])
            && (forall k | k in r.held ::
                  && k in r.cells
                  && (Registered(r, k) || k in r.detached)
                  && r.cells[k].home.key in RuntimeKeys(r))
            && |r.entries| + |InUse(r)| <= (if maxEntries == 0 then 1 else maxEntries)
  {
    var c := NewConfig(maxEntries, idleTtl);
    EmptyInv(c);
    StepsInv(c, EMPTY_REGISTRY, ops);
    var r := Steps(c, EMPTY_REGISTRY, ops);
    forall k | k in r.held ensures k in r.cells && r.cells[k].home.key in RuntimeKeys(r) {
      HeldKeyInUse(c, r, k);
    }
  }

  // ---------------------------------------------------------------- what callers see

  /** A lookup is granted exactly for a registered attachment that has not idled out, and it
      gives a handle to the cell the attachment was registered with. */
  lemma LookupGrants(c: Config, r: Registry, id: AttachmentId, now: int)
    requires Inv(c, r)
    ensures var (t, out) := Lookup(c, r, id, now);
            && (out.Some? <==> id in r.entries && !Expired(c, r, id, now))
            && (out.Some? ==> out.value == r.entries[id].cell
                              && t.held == r.held + multiset{out.value}
                              && t.cells[out.value].home == r.entries[id].home)
            && (out.None? ==> t.held == r.held)
  {
    PruneInv(c, r, now);
    var p := Prune(c, r, now);
    if id in p.entries { AcquireInv(c, p, id); }
  }

  lemma PlaceOutcome(r: Registry, id: AttachmentId, home: Home, now: int)
    requires Wired(r) && id !in r.entries
    ensures var t := Place(r, id, home, now);
            && t.entries.Keys == r.entries.Keys + {id} && t.entries[id] == Entry(home, r.nextCell)
            && t.cells[r.nextCell] == LeaseCell(0, now, false, home)
            && (forall x | x in r.entries :: t.entries[x] == r.entries[x])
  {}

  /** An insertion never replaces a live capability and is refused for capacity exactly when
      what is left after pruning fills the registry. */
  lemma InsertOutcome(c: Config, r: Registry, id: AttachmentId, home: Home, now: int)
    requires Wired(r)
    ensures var (t, result) := Insert(c, r, id, home, now);
            var live := LiveEntries(c, r, now);
            && (result == Duplicate <==> id in live)
            && (result == Capacity <==> id !in live && |live| + |InUse(r)| >= c.maxEntries)
            && (forall x | x in live :: x in t.entries && t.entries[x] == r.entries[x])
            && (result == Inserted ==> t.entries.Keys == live.Keys + {id} && t.entries[id].home == home
                                       && t.cells[t.entries[id].cell] == LeaseCell(0, now, false, home))
            && (result != Inserted ==> t.entries == live)
  {
    PruneLoad(c, r, now);
    var p := Prune(c, r, now);
    assert p.entries == LiveEntries(c, r, now);
    if id !in p.entries { PlaceOutcome(p, id, home, now); }
  }

  lemma LookupSparesRevoked(c: Config, r: Registry, cell: nat, id: AttachmentId, now: int)
    requires Wired(r) && Homed(r) && Unshared(r) && cell in r.cells && r.cells[cell].revoked
    ensures var t := Lookup(c, r, id, now).0;
            cell in t.cells && t.cells[cell].revoked && t.held[cell] == r.held[cell]
  {
    PruneHomed(c, r, now);
    var p := Prune(c, r, now);
    if id in p.entries { assert p.entries[id].cell != cell; }
  }

  lemma InsertSparesRevoked(c: Config, r: Registry, cell: nat, id: AttachmentId, home: Home, now: int)
    requires Wired(r) && cell in r.cells && r.cells[cell].revoked
    ensures var t := Insert(c, r, id, home, now).0;
            cell in t.cells && t.cells[cell].revoked && t.held == r.held
  {}

  lemma RevokedStep(c: Config, r: Registry, cell: nat, op: Op)
    requires Wired(r) && Homed(r) && Unshared(r) && cell in r.cells && r.cells[cell].revoked
    ensures var t := Step(c, r, op);
            cell in t.cells && t.cells[cell].revoked && t.held[cell] <= r.held[cell]
  {
    match op {
      case OpInsert(id, home, now) => InsertSparesRevoked(c, r, cell, id, home, now);
      case OpLookup(id, now) => LookupSparesRevoked(c, r, cell, id, now);
      case _ =>
    }
  }

  /** A detached or pruned cell never gives out another handle, whatever happens afterwards. */
  lemma {:induction false} RevokedStaysRevoked(c: Config, r: Registry, cell: nat, ops: seq<Op>)
    requires Inv(c, r) && cell in r.cells && r.cells[cell].revoked
    ensures var t := Steps(c, r, ops);
            cell in t.cells && t.cells[cell].revoked && t.held[cell] <= r.held[cell]
    decreases |ops|
  {
    if ops != [] {
      RevokedStep(c, r, cell, ops[0]);
      StepInv(c, r, ops[0]);
      RevokedStaysRevoked(c, Step(c, r, ops[0]), cell, ops[1..]);
    }
  }
}
