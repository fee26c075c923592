/** The attachment registry as the object the server holds behind its mutex.

    Each method runs the way the source does (it retains entries in a loop, counts in a loop,
    pushes on a vector) and is proved against the function of the same name in module
    RegistryModel. */
module Attachments {
  import opened Options
  import opened RegistryModel

  datatype RevokedEntry = RevokedEntry(key: Path, cell: nat)

  predicate Distinct(rs: seq<RevokedEntry>) {
    forall i, j | 0 <= i < j < |rs| :: rs[i].cell != rs[j].cell
  }

  /** The records of a vector as the map the specification uses. */
  function Records(rs: seq<RevokedEntry>): (m: map<nat, Path>) {
    if rs == [] then map[] else Records(rs[..|rs| - 1])[rs[|rs| - 1].cell := rs[|rs| - 1].key]
  }

  lemma {:induction false} RecordsPush(rs: seq<RevokedEntry>, x: RevokedEntry)
    ensures Records(rs + [x]) == Records(rs)[x.cell := x.key]
  {
    assert (rs + [x])[..|rs|] == rs;
  }

  lemma {:induction false} RecordsKeys(rs: seq<RevokedEntry>, k: nat)
    ensures k in Records(rs) <==> exists i | 0 <= i < |rs| :: rs[i].cell == k
  {
    if rs != [] {
      var front := rs[..|rs| - 1];
      RecordsKeys(front, k);
      if k in Records(front) {
        var i :| 0 <= i < |front| && front[i].cell == k;
        assert rs[i].cell == k;
      }
    }
  }

  /** With distinct cells, the map says exactly what the vector says. */
  lemma {:induction false} RecordsAt(rs: seq<RevokedEntry>, i: nat)
    requires Distinct(rs) && i < |rs|
    ensures rs[i].cell in Records(rs) && Records(rs)[rs[i].cell] == rs[i].key
  {
    var front := rs[..|rs| - 1];
    if i < |rs| - 1 { RecordsAt(front, i); }
  }

  lemma RecordsPrefix(rs: seq<RevokedEntry>, n: nat)
    requires n < |rs|
    ensures Records(rs[..n + 1]) == Records(rs[..n])[rs[n].cell := rs[n].key]
    ensures Distinct(rs) ==> rs[n].cell !in Records(rs[..n])
  {
    assert rs[..n + 1] == rs[..n] + [rs[n]];
    RecordsPush(rs[..n], rs[n]);
    RecordsKeys(rs[..n], rs[n].cell);
  }

  /** The records whose cell is still in use. */
  function Kept(m: map<nat, Path>, cells: map<nat, LeaseCell>): (out: map<nat, Path>) {
    map k | k in m && k in cells && cells[k].active > 0 :: m[k]
  }

  /** One more record of the vector, seen through the filter. */
  lemma KeptStep(rs: seq<RevokedEntry>, i: nat, cells: map<nat, LeaseCell>)
    requires Distinct(rs) && i < |rs| && rs[i].cell in cells
    ensures rs[i].cell !in Kept(Records(rs[..i]), cells)
    ensures Kept(Records(rs[..i + 1]), cells) ==
            if cells[rs[i].cell].active > 0 then Kept(Records(rs[..i]), cells)[rs[i].cell := rs[i].key]
            else Kept(Records(rs[..i]), cells)
  {
    RecordsPrefix(rs, i);
  }

  lemma RecordWired(rs: seq<RevokedEntry>, i: nat, cells: map<nat, LeaseCell>)
    requires forall k | k in Records(rs) :: k in cells
    requires i < |rs|
    ensures rs[i].cell in cells
  {
    RecordsKeys(rs, rs[i].cell);
  }

  lemma KeptAll(rs: seq<RevokedEntry>, r: Registry)
    requires Wired(r) && r.detached == Records(rs)
    ensures Kept(Records(rs[..|rs|]), r.cells) == InUse(r)
  {
    assert rs[..|rs|] == rs;
  }

  class AttachmentRegistry {
    const config: Config
    var entries: map<AttachmentId, Entry>
    var revoked: seq<RevokedEntry>
    var cells: map<nat, LeaseCell>
    var nextCell: nat
    ghost var held: multiset<nat>

    ghost function Value(): (r: Registry)
      reads this
    {
      Registry(entries, Records(revoked), cells, nextCell, held)
    }

    /** The shape the methods rely on.  That every count is exact and the capacity is kept is
        then RegistryModel.StepsInv, because each method is one operation on `Value()`. */
    ghost predicate Valid()
      reads this
    {
      Wired(Value()) && Homed(Value()) && Unshared(Value()) && Distinct(revoked)
    }

    constructor (maxEntries: nat, idleTtl: nat)
      ensures Valid() && Value() == EMPTY_REGISTRY && config == NewConfig(maxEntries, idleTtl)
    {
      config := NewConfig(maxEntries, idleTtl);
      entries, revoked, cells, nextCell, held := map[], [], map[], 0, multiset{};
    }

    /** Drops idle entries, revoking their cells, and forgets detached records nobody uses. */
    method PruneExpiredAt(now: int)
      requires Valid()
      modifies this
      ensures Valid() && Value() == Prune(config, old(Value()), now)
    {
      PruneHomed(config, Value(), now);
      ghost var r := Value();
      RetainEntries(now);
      ghost var m := Value();
      assert InUse(m) == InUse(r);
      RetainRevoked();
    }

    method RetainEntries(now: int)
      requires Wired(Value())
      modifies this`entries, this`cells
      ensures entries == LiveEntries(config, old(Value()), now)
      ensures cells == RevokeCells(old(cells), ExpiredCells(config, old(Value()), now))
    {
      ghost var r := Value();
      ghost var gone: set<AttachmentId> := {};
      var todo := entries.Keys;
      var all := entries;
      entries := map[];
      while todo != {}
        invariant todo <= all.Keys && gone <= all.Keys
        invariant forall id | id in all :: id in gone <==> id !in todo && Expired(config, r, id, now)
        invariant forall id | id in all :: id in entries <==> id !in todo && !Expired(config, r, id, now)
        invariant entries.Keys <= all.Keys && forall id | id in entries :: entries[id] == all[id]
        invariant cells == RevokeCells(r.cells, set id | id in gone :: all[id].cell)
        decreases todo
      {
        var id :| id in todo;
        todo := todo - {id};
        if IdleExpired(cells[all[id].cell], now, config.idleTtl) {
          cells := cells[all[id].cell := cells[all[id].cell].(revoked := true)];
          assert (set x | x in gone + {id} :: all[x].cell) == (set x | x in gone :: all[x].cell) + {all[id].cell};
          gone := gone + {id};
        } else {
          entries := entries[id := all[id]];
        }
      }
      assert (set id | id in gone :: all[id].cell) == ExpiredCells(config, r, now);
    }

    method RetainRevoked()
      requires Wired(Value()) && Distinct(revoked)
      modifies this`revoked
      ensures Distinct(revoked) && Records(revoked) == InUse(old(Value()))
    {
      KeptAll(revoked, Value());
      var kept: seq<RevokedEntry> := [];
      for i := 0 to |revoked|
        invariant revoked == old(revoked)
        invariant Distinct(kept) && Records(kept) == Kept(Records(revoked[..i]), cells)
      {
        var x := revoked[i];
        RecordWired(revoked, i, cells);
        KeptStep(revoked, i, cells);
        if cells[x.cell].active > 0 {
          RecordsKeys(kept, x.cell);
          RecordsPush(kept, x);
          kept := kept + [x];
        }
      }
      revoked := kept;
    }

    /** How many detached records are still in use. */
    method ActiveRevoked() returns (n: nat)
      requires Wired(Value()) && Distinct(revoked)
      ensures n == |InUse(Value())|
    {
      KeptAll(revoked, Value());
      n := 0;
      for i := 0 to |revoked|
        invariant n == |Kept(Records(revoked[..i]), cells)|
      {
        RecordWired(revoked, i, cells);
        KeptStep(revoked, i, cells);
        if cells[revoked[i].cell].active > 0 {
          MapAddSize(Kept(Records(revoked[..i]), cells), revoked[i].cell, revoked[i].key);
          n := n + 1;
        }
      }
    }

    method InsertEntry(id: AttachmentId, home: Home, now: int) returns (result: InsertResult)
      requires Valid()
      modifies this
      ensures Valid() && (Value(), result) == Insert(config, old(Value()), id, home, now)
    {
      PruneExpiredAt(now);
      if id in entries { return Duplicate; }
      var activeRevoked := ActiveRevoked();
      if |entries| + activeRevoked >= config.maxEntries { return Capacity; }
      PlaceEntry(id, home, now);
      return Inserted;
    }

    method PlaceEntry(id: AttachmentId, home: Home, now: int)
      requires Valid() && id !in entries
      modifies this
      ensures Valid() && Value() == Place(old(Value()), id, home, now)
    {
      PlaceHomed(Value(), id, home, now);
      entries := entries[id := Entry(home, nextCell)];
      cells := cells[nextCell := LeaseCell(0, now, false, home)];
      nextCell := nextCell + 1;
    }

    /** A handle to the attachment's cell, if it is registered and not idle for too long. */
    method Attachment(id: AttachmentId, now: int) returns (handle: Option<nat>)
      requires Valid()
      modifies this
      ensures Valid() && (Value(), handle) == Lookup(config, old(Value()), id, now)
    {
      PruneExpiredAt(now);
      if id !in entries { return None; }
      AcquireHomed(Value(), id);
      var cell := entries[id].cell;
      if cells[cell].revoked { return None; }
      cells := cells[cell := cells[cell].(active := cells[cell].active + 1)];
      held := held + multiset{cell};
      return Some(cell);
    }

    method DetachAttachment(id: AttachmentId) returns (revocation: Option<nat>)
      requires Valid()
      modifies this
      ensures Valid() && (Value(), revocation) == Detach(old(Value()), id)
    {
      DetachHomed(Value(), id);
      if id !in entries { return None; }
      var e := entries[id];
      forall i | 0 <= i < |revoked| ensures revoked[i].cell != e.cell { RecordsAt(revoked, i); }
      RecordsPush(revoked, RevokedEntry(e.home.key, e.cell));
      entries := entries - {id};
      cells := cells[e.cell := cells[e.cell].(revoked := true)];
      revoked := revoked + [RevokedEntry(e.home.key, e.cell)];
      return Some(e.cell);
    }

    /** A handle to `cell` is dropped. */
    method ReleaseLease(cell: nat, now: int)
      requires Valid() && cell in held && cell in cells
      modifies this`cells, this`held
      ensures Valid() && Value() == Release(old(Value()), cell, now)
    {
      ghost var t := Release(Value(), cell, now);
      assert Homed(t) && Unshared(t) by { ReleaseHomed(Value(), cell, now); }
      var c := cells[cell];
      var left := if c.active == 0 then 0 else c.active - 1;
      cells := cells[cell := c.(active := left, idleSince := if left == 0 then now else c.idleSince)];
      held := held - multiset{cell};
    }

    method CollectRuntimeKeys() returns (keys: set<Path>)
      requires Wired(Value()) && Distinct(revoked)
      ensures keys == RuntimeKeys(Value())
    {
      KeptAll(revoked, Value());
      keys := {};
      for i := 0 to |revoked|
        invariant keys == Kept(Records(revoked[..i]), cells).Values
      {
        RecordWired(revoked, i, cells);
        KeptStep(revoked, i, cells);
        if cells[revoked[i].cell].active > 0 {
          ValuesAdd(Kept(Records(revoked[..i]), cells), revoked[i].cell, revoked[i].key);
          keys := keys + {revoked[i].key};
        }
      }
      InUseKeys(Value());
      keys := keys + set id | id in entries :: entries[id].home.key;
    }
  }

  lemma InUseKeys(r: Registry)
    requires Wired(r)
    ensures RuntimeKeys(r) == InUse(r).Values + set id | id in r.entries :: r.entries[id].home.key
  {
    assert InUse(r).Values == set k | k in InUse(r) :: r.detached[k];
  }

  lemma ValuesAdd<K, V>(m: map<K, V>, k: K, v: V)
    requires k !in m
    ensures m[k := v].Values == m.Values + {v}
  {
    forall x | x in m.Values + {v} ensures x in m[k := v].Values {
      if x == v {
        assert m[k := v][k] == v;
      } else {
        var j :| j in m && m[j] == x;
        assert m[k := v][j] == x;
      }
    }
  }
}
