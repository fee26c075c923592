/** The list of hosts that the benchmark adapter exempts from its proxy: configured ones first, then those it
    discovers, without duplicates and within two limits. */
module NoProxy {
  import opened BoundedText
  import opened BenchAdapter

  /** How two entries are compared: Unicode case folding, or any other. */
  type Fold = string -> string

  const MAX_ENTRIES: nat := 128
  const MAX_BYTES: nat := 4096

  function Stripped(s: string): (r: string) { TrimEnd(TrimStart(s)) }

  predicate Usable(entry: string) {
    entry != "" && '\0' !in entry && '\n' !in entry && '\r' !in entry
  }

  /** An entry that differs only in case is there. */
  predicate Known(fold: Fold, kept: seq<string>, entry: string) {
    exists i | 0 <= i < |kept| :: fold(kept[i]) == fold(entry)
  }

  predicate Fits(kept: seq<string>, entry: string) { Used(kept + [entry]) <= MAX_BYTES }

  predicate Takes(fold: Fold, kept: seq<string>, candidate: string) {
    var entry := Stripped(candidate);
    Usable(entry) && !Known(fold, kept, entry) && |kept| < MAX_ENTRIES && Fits(kept, entry)
  }

  /** What is kept of the candidates, one after the other. */
  function Merged(fold: Fold, candidates: seq<string>): (kept: seq<string>) {
    if candidates == [] then []
    else
      var n := |candidates| - 1;
      var before := Merged(fold, candidates[..n]);
      if Takes(fold, before, candidates[n]) then before + [Stripped(candidates[n])] else before
  }

  function Joined(entries: seq<string>): (r: string) {
    if entries == [] then "" else if |entries| == 1 then entries[0] else entries[0] + "," + Joined(entries[1..])
  }

  /** The text between commas. */
  function Split(s: string): (parts: seq<string>)
    ensures parts != []
  {
    if s == "" then [""]
    else
      var rest := Split(s[1..]);
      if s[0] == ',' then [""] + rest else [[s[0]] + rest[0]] + rest[1..]
  }

  // ---------------------------------------------------------------- the loop

  lemma MergedMore(fold: Fold, candidates: seq<string>, i: nat)
    requires i < |candidates|
    ensures
      var before := Merged(fold, candidates[..i]);
      Merged(fold, candidates[..i + 1]) ==
      if Takes(fold, before, candidates[i]) then before + [Stripped(candidates[i])] else before
  {
    assert candidates[..i + 1][..i] == candidates[..i];
  }

  lemma {:induction false} MergedFull(fold: Fold, candidates: seq<string>, i: nat)
    requires i <= |candidates| && |Merged(fold, candidates[..i])| >= MAX_ENTRIES
    ensures Merged(fold, candidates) == Merged(fold, candidates[..i])
    decreases |candidates| - i
  {
    if i < |candidates| {
      MergedMore(fold, candidates, i);
      MergedFull(fold, candidates, i + 1);
    } else {
      assert candidates[..i] == candidates;
    }
  }

  /** The keys of the entries, which the loop looks candidates up in. */
  ghost predicate KeysOf(fold: Fold, seen: set<string>, kept: seq<string>) {
    forall key :: key in seen <==> exists i | 0 <= i < |kept| :: fold(kept[i]) == key
  }

  lemma KeysGrow(fold: Fold, seen: set<string>, kept: seq<string>, entry: string)
    requires KeysOf(fold, seen, kept)
    ensures KeysOf(fold, seen + {fold(entry)}, kept + [entry])
  {
    var more := kept + [entry];
    forall key ensures key in seen + {fold(entry)} <==> exists i | 0 <= i < |more| :: fold(more[i]) == key {
      if key in seen {
        var i :| 0 <= i < |kept| && fold(kept[i]) == key;
        assert more[i] == kept[i];
      } else if key == fold(entry) {
        assert more[|kept|] == entry;
      }
    }
  }

  method MergeNoProxy(fold: Fold, configured: string, discovered: seq<string>) returns (r: string)
    ensures r == Joined(Merged(fold, Split(configured) + discovered))
  {
    var candidates := Split(configured) + discovered;
    var entries: seq<string>, seen: set<string>, byteCount: nat := [], {}, 0;
    for i := 0 to |candidates|
      invariant entries == Merged(fold, candidates[..i])
      invariant KeysOf(fold, seen, entries) && byteCount == Used(entries)
    {
      MergedMore(fold, candidates, i);
      var entry := Stripped(candidates[i]);
      var key := fold(entry);
      assert key in seen <==> Known(fold, entries, entry);
      if !Usable(entry) || key in seen { continue; }
      var separatorBytes := if entries != [] then 1 else 0;
      if |entries| >= MAX_ENTRIES {
        MergedFull(fold, candidates, i);
        return Joined(entries);
      }
      UsedAppend(entries, entry);
      if byteCount + separatorBytes + Size(entry) > MAX_BYTES { continue; }
      KeysGrow(fold, seen, entries, entry);
      entries, seen, byteCount := entries + [entry], seen + {key}, byteCount + separatorBytes + Size(entry);
    }
    assert candidates[..|candidates|] == candidates;
    r := Joined(entries);
  }

  // ---------------------------------------------------------------- what is kept

  predicate Distinct(fold: Fold, kept: seq<string>) {
    forall i, j | 0 <= i < j < |kept| :: fold(kept[i]) != fold(kept[j])
  }

  predicate Clean(fold: Fold, kept: seq<string>) {
    && Distinct(fold, kept) && |kept| <= MAX_ENTRIES && Used(kept) <= MAX_BYTES
    && forall entry <- kept :: Usable(entry)
  }

  /** `kept` are some of the candidates, stripped, in their order. */
  ghost predicate InOrder(kept: seq<string>, candidates: seq<string>) {
    if candidates == [] then kept == []
    else
      var n := |candidates| - 1;
      || InOrder(kept, candidates[..n])
      || (kept != [] && kept[|kept| - 1] == Stripped(candidates[n]) && InOrder(kept[..|kept| - 1], candidates[..n]))
  }

  lemma {:induction false} JoinedMore(entries: seq<string>, entry: string)
    ensures Joined(entries + [entry]) == if entries == [] then entry else Joined(entries) + "," + entry
  {
    if entries == [] {
      assert entries + [entry] == [entry];
    } else {
      assert (entries + [entry])[1..] == entries[1..] + [entry];
      JoinedMore(entries[1..], entry);
      if |entries| > 1 {
        assert entries[0] + "," + (Joined(entries[1..]) + "," + entry) ==
          entries[0] + "," + Joined(entries[1..]) + "," + entry;
      }
    }
  }

  lemma {:induction false} JoinedSize(entries: seq<string>)
    ensures Size(Joined(entries)) == Used(entries)
  {
    if entries != [] {
      var n := |entries| - 1;
      assert entries == entries[..n] + [entries[n]];
      JoinedSize(entries[..n]);
      JoinedMore(entries[..n], entries[n]);
      UsedAppend(entries[..n], entries[n]);
      SizeConcat(Joined(entries[..n]) + ",", entries[n]);
      SizeConcat(Joined(entries[..n]), ",");
    }
  }

  lemma {:induction false} KeptIsClean(fold: Fold, candidates: seq<string>)
    ensures Clean(fold, Merged(fold, candidates)) && InOrder(Merged(fold, candidates), candidates)
  {
    if candidates != [] {
      var n := |candidates| - 1;
      var before := Merged(fold, candidates[..n]);
      KeptIsClean(fold, candidates[..n]);
      if Takes(fold, before, candidates[n]) {
        var kept := before + [Stripped(candidates[n])];
        assert kept[..|kept| - 1] == before;
      }
    }
  }

  predicate NoRoom(kept: seq<string>, entry: string) { |kept| >= MAX_ENTRIES || !Fits(kept, entry) }

  lemma RoomShrinks(kept: seq<string>, more: string, entry: string)
    requires NoRoom(kept, entry)
    ensures NoRoom(kept + [more], entry)
  {
    UsedAppend(kept, entry);
    UsedAppend(kept, more);
    UsedAppend(kept + [more], entry);
  }

  lemma {:induction false} NothingIsDropped(fold: Fold, candidates: seq<string>, i: nat)
    requires i < |candidates| && Usable(Stripped(candidates[i]))
    ensures
      var kept, entry := Merged(fold, candidates), Stripped(candidates[i]);
      Known(fold, kept, entry) || NoRoom(kept, entry)
  {
    var n := |candidates| - 1;
    var before, kept, entry := Merged(fold, candidates[..n]), Merged(fold, candidates), Stripped(candidates[i]);
    if i < n {
      NothingIsDropped(fold, candidates[..n], i);
      if Known(fold, before, entry) {
        var k :| 0 <= k < |before| && fold(before[k]) == fold(entry);
        assert kept[k] == before[k];
      } else if kept != before {
        RoomShrinks(before, kept[|before|], entry);
      }
    } else if Takes(fold, before, candidates[n]) {
      assert kept[|before|] == entry;
    }
  }

  /** The list is some of the candidates, stripped and in order; no two differ only in case; it is within both
      limits; and a usable candidate is missing only if the list is full or it does not fit. */
  lemma MergeIsFaithful(fold: Fold, configured: string, discovered: seq<string>, i: nat)
    ensures
      var candidates := Split(configured) + discovered;
      var kept := Merged(fold, candidates);
      && Clean(fold, kept) && InOrder(kept, candidates) && Size(Joined(kept)) <= MAX_BYTES
      && (i < |candidates| && Usable(Stripped(candidates[i])) ==>
            Known(fold, kept, Stripped(candidates[i])) || NoRoom(kept, Stripped(candidates[i])))
  {
    var candidates := Split(configured) + discovered;
    KeptIsClean(fold, candidates);
    JoinedSize(Merged(fold, candidates));
    if i < |candidates| && Usable(Stripped(candidates[i])) { NothingIsDropped(fold, candidates, i); }
  }

  // ---------------------------------------------------------------- reading it back

  lemma {:induction false} SplitOne(s: string)
    requires ',' !in s
    ensures Split(s) == [s]
  {
    if s != "" {
      SplitOne(s[1..]);
      assert [s[0]] + s[1..] == s;
    }
  }

  lemma {:induction false} SplitMore(s: string, t: string)
    requires ',' !in s
    ensures Split(s + "," + t) == [s] + Split(t)
  {
    var whole := s + "," + t;
    if s == "" {
      assert whole[1..] == t;
    } else {
      assert whole[1..] == s[1..] + "," + t;
      SplitMore(s[1..], t);
      assert [s[0]] + s[1..] == s;
      assert ([s[1..]] + Split(t))[1..] == Split(t);
    }
  }

  lemma {:induction false} SplitJoined(entries: seq<string>)
    requires entries != [] && forall entry <- entries :: ',' !in entry
    ensures Split(Joined(entries)) == entries
  {
    if |entries| == 1 {
      SplitOne(entries[0]);
    } else {
      SplitJoined(entries[1..]);
      SplitMore(entries[0], Joined(entries[1..]));
      assert entries == [entries[0]] + entries[1..];
    }
  }

  lemma {:induction false} StripEnds(s: string)
    ensures TrimStart(s) != "" ==> !IsSpace(TrimStart(s)[0])
    ensures forall c <- TrimStart(s) :: c in s
  {
    if s != [] && IsSpace(s[0]) { StripEnds(s[1..]); }
  }

  /** What has been stripped stays as it is, and has no character that was not there. */
  lemma StripTwice(s: string)
    ensures Stripped(Stripped(s)) == Stripped(s)
    ensures forall c <- Stripped(s) :: c in s
  {
    StripEnds(s);
    var t := Stripped(s);
    assert t <= TrimStart(s);
    if t != "" { assert t[0] == TrimStart(s)[0]; }
  }

  predicate AllStripped(kept: seq<string>) { forall entry <- kept :: Stripped(entry) == entry && ',' !in entry }

  lemma {:induction false} KeptIsStripped(fold: Fold, candidates: seq<string>)
    requires forall candidate <- candidates :: ',' !in candidate
    ensures AllStripped(Merged(fold, candidates))
  {
    if candidates != [] {
      var n := |candidates| - 1;
      KeptIsStripped(fold, candidates[..n]);
      StripTwice(candidates[n]);
    }
  }

  lemma {:induction false} UsedPrefix(kept: seq<string>, n: nat)
    requires n <= |kept|
    ensures Used(kept[..n]) <= Used(kept)
    decreases |kept| - n
  {
    if n < |kept| {
      assert kept[..n + 1] == kept[..n] + [kept[n]];
      UsedAppend(kept[..n], kept[n]);
      UsedPrefix(kept, n + 1);
    } else {
      assert kept[..n] == kept;
    }
  }

  lemma CleanIsTaken(fold: Fold, kept: seq<string>, n: nat)
    requires Clean(fold, kept) && AllStripped(kept) && n < |kept|
    ensures Takes(fold, kept[..n], kept[n]) && Stripped(kept[n]) == kept[n]
  {
    assert kept[n] in kept;
    assert kept[..n + 1] == kept[..n] + [kept[n]];
    UsedPrefix(kept, n + 1);
  }

  lemma MergedTaken(fold: Fold, kept: seq<string>, entry: string)
    requires Merged(fold, kept) == kept && Takes(fold, kept, entry) && Stripped(entry) == entry
    ensures Merged(fold, kept + [entry]) == kept + [entry]
  {
    assert (kept + [entry])[..|kept|] == kept;
  }

  lemma {:induction false} CleanIsKept(fold: Fold, kept: seq<string>, n: nat)
    requires Clean(fold, kept) && AllStripped(kept) && n <= |kept|
    ensures Merged(fold, kept[..n]) == kept[..n]
  {
    if n > 0 {
      CleanIsKept(fold, kept, n - 1);
      CleanIsTaken(fold, kept, n - 1);
      MergedTaken(fold, kept[..n - 1], kept[n - 1]);
      assert kept[..n] == kept[..n - 1] + [kept[n - 1]];
    }
  }

  /** Merging is idempotent: a list that was made from names without commas is read back as the same list. */
  lemma MergeAgain(fold: Fold, configured: string, discovered: seq<string>)
    requires forall name <- discovered :: ',' !in name
    ensures
      var kept := Merged(fold, Split(configured) + discovered);
      Merged(fold, Split(Joined(kept))) == kept
  {
    var candidates := Split(configured) + discovered;
    var kept := Merged(fold, candidates);
    SplitHasNoCommas(configured);
    KeptIsClean(fold, candidates);
    KeptIsStripped(fold, candidates);
    if kept == [] {
      assert Split("") == [""] && [""][..0] == [];
    } else {
      SplitJoined(kept);
      CleanIsKept(fold, kept, |kept|);
      assert kept[..|kept|] == kept;
    }
  }

  lemma {:induction false} SplitHasNoCommas(s: string)
    ensures forall part <- Split(s) :: ',' !in part
  {
    if s != "" {
      var rest := Split(s[1..]);
      SplitHasNoCommas(s[1..]);
      assert rest[0] in rest;
    }
  }
}
