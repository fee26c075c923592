/** The credential file: any number of processes, each loading, changing and replacing it under one
    lock, act as one map. */
module CredentialStore {
  import opened Options
  import opened Text

  datatype SecretKind = ApiKey | Bearer | OAuthTokenSet | StructuredHeaders

  datatype Entry = Entry(kind: SecretKind, value: string)

  type Credentials = map<string, Entry>

  const FILE_VERSION := 1

  const MAX_FILE_BYTES: nat := 4 * 1024 * 1024

  /** The file as a reader finds it: missing, a document of some length, or not readable as one. */
  datatype File = NoFile | Document(version: nat, credentials: Credentials, length: nat) | Garbled

  predicate ValidIdentifier(id: string) {
    0 < |id| <= 160 && forall c <- id :: 'a' <= c <= 'z' || 'A' <= c <= 'Z' || '0' <= c <= '9' || c == '_' || c == '-'
  }

  predicate ValidCredentials(m: Credentials) { forall id <- m :: ValidIdentifier(id) && !Blank(m[id].value) }

  /** What a load gives, or None when it fails. */
  function Loaded(f: File): (m: Option<Credentials>) {
    match f
    case NoFile => Some(map[])
    case Garbled => None
    case Document(version, m, length) =>
      if length <= MAX_FILE_BYTES && version == FILE_VERSION && ValidCredentials(m) then Some(m) else None
  }

  /** Where an operation meets an input or output error: nowhere, while loading, or while saving,
      before or after the file is replaced. */
  datatype Fault = NoFault | WhileLoading | BeforeReplace | AfterReplace

  /** A save: the new file, and whether it succeeds. `length` is that of the serialized map. */
  function Saved(f: File, m: Credentials, length: nat, fault: Fault): (r: (File, bool)) {
    if !ValidCredentials(m) || fault.BeforeReplace? then (f, false)
    else if m == map[] then (NoFile, fault.NoFault?)
    else if length + 1 > MAX_FILE_BYTES then (f, false)
    else (Document(FILE_VERSION, m, length + 1), fault.NoFault?)
  }

  /** A successful save loads back as the same map, and an empty one leaves no file. */
  lemma SaveThenLoad(f: File, m: Credentials, length: nat, fault: Fault)
    ensures Saved(f, m, length, fault).1 ==> Loaded(Saved(f, m, length, fault).0) == Some(m)
    ensures Saved(f, m, length, fault).0 == f || Loaded(Saved(f, m, length, fault).0) == Some(m)
    ensures Saved(f, m, length, fault).1 && m == map[] ==> Saved(f, m, length, fault).0 == NoFile
  {
  }

  // ---------------------------------------------------------------- operations

  /** Requests to the store, each with the length the map will have if it is written. */
  datatype Op =
    | Get(id: string, kind: SecretKind)
    | Set(id: string, kind: SecretKind, value: string, length: nat)
    | Delete(id: string, length: nat)

  datatype Reply = Value(value: Option<string>) | Done | Deleted(existed: bool) | Refused

  predicate WellFormed(op: Op) { ValidIdentifier(op.id) && (op.Set? ==> !Blank(op.value)) }

  predicate KindDiffers(m: Credentials, id: string, kind: SecretKind) { id in m && m[id].kind != kind }

  /** What the operation does to the file, given the map it loaded from it. */
  function Act(f: File, m: Credentials, op: Op, fault: Fault): (r: (File, Reply)) {
    match op
    case Get(id, kind) =>
      (f, if id !in m then Value(None) else if KindDiffers(m, id, kind) then Refused else Value(Some(m[id].value)))
    case Set(id, kind, value, length) =>
      if KindDiffers(m, id, kind) then (f, Refused)
      else
        var (g, ok) := Saved(f, m[id := Entry(kind, value)], length, fault);
        (g, if ok then Done else Refused)
    case Delete(id, length) =>
      if id !in m then (f, Deleted(false))
      else
        var (g, ok) := Saved(f, m - {id}, length, fault);
        (g, if ok then Deleted(true) else Refused)
  }

  /** A whole operation alone with the file. */
  function Perform(f: File, op: Op, fault: Fault): (r: (File, Reply)) {
    if !WellFormed(op) || fault.WhileLoading? || Loaded(f).None? then (f, Refused)
    else Act(f, Loaded(f).value, op, fault)
  }

  /** The store over one file, one operation at a time. */
  class DiskStore {
    var file: File

    constructor (file: File)
      ensures this.file == file
    {
      this.file := file;
    }

    method Load() returns (m: Option<Credentials>)
      ensures m == Loaded(file)
    {
      match file {
        case NoFile => return Some(map[]);
        case Garbled => return None;
        case Document(version, credentials, length) =>
          if length > MAX_FILE_BYTES || version != FILE_VERSION || !ValidCredentials(credentials) { return None; }
          return Some(credentials);
      }
    }

    method Save(m: Credentials, length: nat, fault: Fault) returns (ok: bool)
      modifies this
      ensures (file, ok) == Saved(old(file), m, length, fault)
    {
      if !ValidCredentials(m) || fault.BeforeReplace? { return false; }
      if m == map[] {
        file := NoFile;
        return fault.NoFault?;
      }
      if length + 1 > MAX_FILE_BYTES { return false; }
      file := Document(FILE_VERSION, m, length + 1);
      return fault.NoFault?;
    }

    method Operate(op: Op, fault: Fault) returns (reply: Reply)
      modifies this
      ensures (file, reply) == Perform(old(file), op, fault)
    {
      if !WellFormed(op) || fault.WhileLoading? { return Refused; }
      var loaded := Load();
      if loaded.None? { return Refused; }
      var m := loaded.value;
      match op {
        case Get(id, kind) =>
          if id !in m { return Value(None); }
          if m[id].kind != kind { return Refused; }
          return Value(Some(m[id].value));
        case Set(id, kind, value, length) =>
          if id in m && m[id].kind != kind { return Refused; }
          var ok := Save(m[id := Entry(kind, value)], length, fault);
          return if ok then Done else Refused;
        case Delete(id, length) =>
          if id !in m { return Deleted(false); }
          var ok := Save(m - {id}, length, fault);
          return if ok then Deleted(true) else Refused;
      }
    }
  }

  // ---------------------------------------------------------------- many processes

  /** A process: idle, asking for the lock, holding it, holding it with the map it loaded, or about to
      give it up with its reply. */
  datatype Process =
    | Idle
    | Asking(op: Op)
    | Holding(op: Op)
    | HasLoaded(op: Op, credentials: Credentials)
    | Leaving(reply: Reply)

  /** An operation at the moment it takes effect. */
  datatype Commit = Commit(process: nat, op: Op, fault: Fault, reply: Reply)

  datatype System = System(file: File, lock: Option<nat>, processes: seq<Process>, commits: seq<Commit>)

  datatype Action =
    | Ask(p: nat, op: Op)
    | Lock(p: nat)
    | Load(p: nat, ok: bool)
    | Finish(p: nat, fault: Fault)
    | Leave(p: nat)
    | Crash(p: nat)

  predicate Enabled(s: System, a: Action) {
    && a.p < |s.processes|
    && match a
       case Ask(p, op) => s.processes[p].Idle? && WellFormed(op)
       case Lock(p) => s.processes[p].Asking? && s.lock.None?
       case Load(p, _) => s.processes[p].Holding?
       case Finish(p, fault) => s.processes[p].HasLoaded? && !fault.WhileLoading?
       case Leave(p) => s.processes[p].Leaving?
       case Crash(p) => true
  }

  function Apply(s: System, a: Action): (r: System)
    requires Enabled(s, a)
  {
    match a
    case Ask(p, op) => s.(processes := s.processes[p := Asking(op)])
    case Lock(p) => s.(lock := Some(p), processes := s.processes[p := Holding(s.processes[p].op)])
    case Load(p, ok) =>
      var op := s.processes[p].op;
      if ok && Loaded(s.file).Some? then s.(processes := s.processes[p := HasLoaded(op, Loaded(s.file).value)])
      else s.(processes := s.processes[p := Leaving(Refused)],
        commits := s.commits + [Commit(p, op, WhileLoading, Refused)])
    case Finish(p, fault) =>
      var op := s.processes[p].op;
      var (file, reply) := Act(s.file, s.processes[p].credentials, op, fault);
      s.(file := file, processes := s.processes[p := Leaving(reply)],
        commits := s.commits + [Commit(p, op, fault, reply)])
    case Leave(p) => s.(lock := None, processes := s.processes[p := Idle])
    case Crash(p) => s.(lock := if s.lock == Some(p) then None else s.lock, processes := s.processes[p := Idle])
  }

  predicate IsRun(s: System, run: seq<Action>)
    decreases |run|
  {
    run == [] || (Enabled(s, run[0]) && IsRun(Apply(s, run[0]), run[1..]))
  }

  function After(s: System, run: seq<Action>): (r: System)
    requires IsRun(s, run)
    decreases |run|
  {
    if run == [] then s else After(Apply(s, run[0]), run[1..])
  }

  predicate Fresh(s: System) {
    s.lock.None? && s.commits == [] && forall p | 0 <= p < |s.processes| :: s.processes[p].Idle?
  }

  // ---------------------------------------------------------------- one at a time

  /** The file after the operations alone, one after the other. */
  function Replay(f: File, commits: seq<Commit>): (g: File)
    decreases |commits|
  {
    if commits == [] then f
    else
      var c := commits[|commits| - 1];
      Perform(Replay(f, commits[..|commits| - 1]), c.op, c.fault).0
  }

  ghost predicate Truthful(f: File, commits: seq<Commit>) {
    forall k | 0 <= k < |commits| ::
      commits[k].reply == Perform(Replay(f, commits[..k]), commits[k].op, commits[k].fault).1
  }

  predicate Inside(p: Process) { p.Holding? || p.HasLoaded? || p.Leaving? }

  /** The operation that took effect last is the one this process leaves with. */
  ghost predicate LastIsOwn(s: System, p: nat)
    requires p < |s.processes| && s.processes[p].Leaving?
  {
    && s.commits != []
    && s.commits[|s.commits| - 1].process == p
    && s.commits[|s.commits| - 1].reply == s.processes[p].reply
  }

  ghost predicate Inv(s: System, first: File) {
    && (forall p | 0 <= p < |s.processes| :: Inside(s.processes[p]) <==> s.lock == Some(p))
    && (forall p | 0 <= p < |s.processes| :: s.processes[p].HasLoaded? ==>
      Loaded(s.file) == Some(s.processes[p].credentials))
    && (forall p <- s.processes :: p.Asking? || p.Holding? || p.HasLoaded? ==> WellFormed(p.op))
    && (s.lock.Some? ==> s.lock.value < |s.processes|)
    && (forall p | 0 <= p < |s.processes| :: s.processes[p].Leaving? ==> LastIsOwn(s, p))
    && s.file == Replay(first, s.commits) && Truthful(first, s.commits)
  }

  lemma CommitExtends(f: File, commits: seq<Commit>, c: Commit)
    requires Truthful(f, commits) && c.reply == Perform(Replay(f, commits), c.op, c.fault).1
    ensures Replay(f, commits + [c]) == Perform(Replay(f, commits), c.op, c.fault).0
    ensures Truthful(f, commits + [c])
  {
    var all := commits + [c];
    assert all[..|commits|] == commits;
    forall k | 0 <= k < |all| ensures all[k].reply == Perform(Replay(f, all[..k]), all[k].op, all[k].fault).1 {
      if k < |commits| { assert all[..k] == commits[..k]; }
    }
  }

  lemma FinishInv(s: System, first: File, p: nat, fault: Fault)
    requires Inv(s, first) && Enabled(s, Finish(p, fault))
    ensures Inv(Apply(s, Finish(p, fault)), first)
  {
    var op := s.processes[p].op;
    assert s.processes[p] in s.processes;
    var (file, reply) := Act(s.file, s.processes[p].credentials, op, fault);
    assert (file, reply) == Perform(s.file, op, fault);
    CommitExtends(first, s.commits, Commit(p, op, fault, reply));
  }

  lemma LoadInv(s: System, first: File, p: nat, ok: bool)
    requires Inv(s, first) && Enabled(s, Load(p, ok))
    ensures Inv(Apply(s, Load(p, ok)), first)
  {
    assert s.processes[p] in s.processes;
    if !(ok && Loaded(s.file).Some?) {
      CommitExtends(first, s.commits, Commit(p, s.processes[p].op, WhileLoading, Refused));
    }
  }

  lemma StepInv(s: System, first: File, a: Action)
    requires Inv(s, first) && Enabled(s, a)
    ensures Inv(Apply(s, a), first)
  {
    match a {
      case Finish(p, fault) => FinishInv(s, first, p, fault);
      case Load(p, ok) => LoadInv(s, first, p, ok);
      case _ => assert s.processes[a.p] in s.processes;
    }
  }

  lemma {:induction false} RunInv(s: System, first: File, run: seq<Action>)
    requires Inv(s, first) && IsRun(s, run)
    ensures Inv(After(s, run), first)
    decreases |run|
  {
    if run != [] {
      StepInv(s, first, run[0]);
      RunInv(Apply(s, run[0]), first, run[1..]);
    }
  }

  /** Whatever the interleaving, the crashes and the faults: the file is what the operations would have
      made of it one at a time, in the order they took effect; every reply is the one its operation
      would have had then, and the one its process leaves with; and never are two processes inside. */
  lemma ActsAsOneMap(s: System, run: seq<Action>)
    requires Fresh(s) && IsRun(s, run)
    ensures
      var r := After(s, run);
      && r.file == Replay(s.file, r.commits) && Truthful(s.file, r.commits)
      && (forall p | 0 <= p < |r.processes| :: r.processes[p].Leaving? ==> LastIsOwn(r, p))
      && (forall p, q | 0 <= p < q < |r.processes| :: !(Inside(r.processes[p]) && Inside(r.processes[q])))
  {
    RunInv(s, s.file, run);
  }

  // ---------------------------------------------------------------- what the map keeps

  function MapAfter(f: File, commits: seq<Commit>): (m: Option<Credentials>) { Loaded(Replay(f, commits)) }

  /** One operation either leaves the file, or leaves one that loads as the map with only its own entry
      changed, and with no other kind. */
  lemma PerformChangesOne(f: File, op: Op, fault: Fault)
    ensures
      var (g, reply) := Perform(f, op, fault);
      || g == f
      || (&& Loaded(f).Some? && Loaded(g).Some? && !op.Get?
          && Loaded(g).value - {op.id} == Loaded(f).value - {op.id}
          && (op.id in Loaded(f).value && op.id in Loaded(g).value ==>
            Loaded(g).value[op.id].kind == Loaded(f).value[op.id].kind)
          && (op.Set? ==> op.id in Loaded(g).value && Loaded(g).value[op.id] == Entry(op.kind, op.value))
          && (op.Delete? ==> op.id !in Loaded(g).value))
  {
    var (g, reply) := Perform(f, op, fault);
    if g != f {
      var m := Loaded(f).value;
      match op {
        case Set(id, kind, value, length) => SaveThenLoad(f, m[id := Entry(kind, value)], length, fault);
        case Delete(id, length) => SaveThenLoad(f, m - {id}, length, fault);
      }
    }
  }

  ghost predicate Present(f: File, commits: seq<Commit>, id: string) {
    MapAfter(f, commits).Some? && id in MapAfter(f, commits).value
  }

  ghost function KindOf(f: File, commits: seq<Commit>, id: string): (k: Option<SecretKind>) {
    if Present(f, commits, id) then Some(MapAfter(f, commits).value[id].kind) else None
  }

  /** While a credential stays present its kind stays the same. */
  lemma {:induction false} KindIsFixed(f: File, commits: seq<Commit>, i: nat, j: nat, id: string)
    requires i <= j <= |commits|
    requires forall k | i <= k <= j :: KindOf(f, commits[..k], id).Some?
    ensures KindOf(f, commits[..j], id) == KindOf(f, commits[..i], id)
    decreases j
  {
    if i < j {
      assert KindOf(f, commits[..j - 1], id).Some? && KindOf(f, commits[..j], id).Some?;
      KindIsFixed(f, commits, i, j - 1, id);
      var c := commits[j - 1];
      assert commits[..j][..j - 1] == commits[..j - 1];
      KindStep(Replay(f, commits[..j - 1]), c.op, c.fault, id);
    }
  }

  lemma KindStep(f: File, op: Op, fault: Fault, id: string)
    requires Loaded(f).Some? && id in Loaded(f).value
    requires var g := Perform(f, op, fault).0; Loaded(g).Some? && id in Loaded(g).value
    ensures Loaded(Perform(f, op, fault).0).value[id].kind == Loaded(f).value[id].kind
  {
    PerformChangesOne(f, op, fault);
    var g := Perform(f, op, fault).0;
    if g != f && id != op.id { assert id in Loaded(g).value - {op.id} && id in Loaded(f).value - {op.id}; }
  }

  ghost predicate Leaves(op: Op, id: string) { op.Get? || op.id != id }

  lemma {:induction false} EntryStays(f: File, commits: seq<Commit>, id: string)
    requires Loaded(f).Some? && id in Loaded(f).value && forall c <- commits :: Leaves(c.op, id)
    ensures Present(f, commits, id) && MapAfter(f, commits).value[id] == Loaded(f).value[id]
    decreases |commits|
  {
    if commits != [] {
      var n := |commits| - 1;
      EntryStays(f, commits[..n], id);
      assert commits[n] in commits;
      var g := Replay(f, commits[..n]);
      PerformChangesOne(g, commits[n].op, commits[n].fault);
      var h := Replay(f, commits);
      if h != g { assert id in Loaded(g).value - {commits[n].op.id} && id in Loaded(h).value - {commits[n].op.id}; }
    }
  }

  lemma {:induction false} ReplayConcat(f: File, a: seq<Commit>, b: seq<Commit>)
    ensures Replay(f, a + b) == Replay(Replay(f, a), b)
    decreases |b|
  {
    if b == [] {
      assert a + b == a;
    } else {
      var n := |b| - 1;
      assert (a + b)[..|a| + n] == a + b[..n];
      ReplayConcat(f, a, b[..n]);
    }
  }

  /** A secret that was stored is read back, by any process, until its own entry is set or deleted. */
  lemma StoredIsReadBack(f: File, before: seq<Commit>, stored: Commit, after: seq<Commit>, kind: SecretKind)
    requires stored.op.Set? && stored.op.kind == kind && stored.reply.Done?
    requires stored.reply == Perform(Replay(f, before), stored.op, stored.fault).1
    requires forall c <- after :: Leaves(c.op, stored.op.id)
    ensures var g := Replay(f, before + [stored] + after);
            Perform(g, Get(stored.op.id, kind), NoFault).1 == Value(Some(stored.op.value))
  {
    var g := Replay(f, before);
    var h := Perform(g, stored.op, stored.fault).0;
    assert (before + [stored])[..|before|] == before;
    SaveThenLoad(g, Loaded(g).value[stored.op.id := Entry(stored.op.kind, stored.op.value)], stored.op.length,
      stored.fault);
    ReplayConcat(f, before + [stored], after);
    EntryStays(h, after, stored.op.id);
  }

  /** A file that loads as no credentials is no file. */
  ghost predicate Tidy(f: File) { Loaded(f) == Some(map[]) ==> f == NoFile }

  lemma {:induction false} EmptyLeavesNoFile(f: File, commits: seq<Commit>)
    requires Tidy(f)
    ensures Tidy(Replay(f, commits))
    decreases |commits|
  {
    if commits != [] { EmptyLeavesNoFile(f, commits[..|commits| - 1]); }
  }
}
