/** The checkpoint stores (checkpoint/checkpoint.go).  The file store keys its files by a sanitised
    table name; it behaves as the map store exactly on table names it can tell apart. */
module Checkpoint {
  import opened Wrappers
  import opened Records
  import opened Sequences

  datatype Checkpoint = Checkpoint(
    tableName: string, fieldName: string, lastValue: Value, lastSyncTime: int, batchNum: int, batchOffset: int)

  /** Decoding a progress file as a checkpoint finds none of a checkpoint's fields. */
  const ZERO_CHECKPOINT := Checkpoint("", "", Nil, 0, 0, 0)

  // ----- File names -----

  /** Leftmost, non-overlapping replacement. */
  function Replaced(s: string, old_: string, new_: string): string
    requires old_ != ""
    decreases |s|
  {
    if s == "" then ""
    else if old_ <= s then new_ + Replaced(s[|old_|..], old_, new_)
    else [s[0]] + Replaced(s[1..], old_, new_)
  }

  lemma SpliceFacts(s: string, i: nat, j: nat, new_: string)
    requires i <= j <= |s|
    ensures var s' := s[..i] + new_ + s[j..];
      s'[..i + |new_|] == s[..i] + new_ && s'[i + |new_|..] == s[j..]
  {
  }

  lemma ReplaceHere(s: string, i: nat, old_: string, new_: string)
    requires i < |s| && old_ != ""
    ensures if |s| - i >= |old_| && s[i..i + |old_|] == old_
            then Replaced(s[i..], old_, new_) == new_ + Replaced(s[i + |old_|..], old_, new_)
            else Replaced(s[i..], old_, new_) == [s[i]] + Replaced(s[i + 1..], old_, new_)
  {
    var rest := s[i..];
    assert rest[1..] == s[i + 1..];
    if |s| - i >= |old_| {
      assert rest[..|old_|] == s[i..i + |old_|];
      assert rest[|old_|..] == s[i + |old_|..];
    }
  }

  /** Whether the old text stands at i. */
  predicate FoundAt(s: string, i: nat, old_: string) {
    i + |old_| <= |s| && s[i..i + |old_|] == old_
  }

  lemma ReplaceFound(s: string, i: nat, old_: string, new_: string, s': string)
    requires i < |s| && old_ != "" && FoundAt(s, i, old_) && s' == s[..i] + new_ + s[i + |old_|..]
    ensures s[..i] + Replaced(s[i..], old_, new_) == s'[..i + |new_|] + Replaced(s'[i + |new_|..], old_, new_)
  {
    ReplaceHere(s, i, old_, new_);
    SpliceFacts(s, i, i + |old_|, new_);
    Regroup(s[..i], new_, Replaced(s[i + |old_|..], old_, new_));
  }

  lemma ReplaceSkip(s: string, i: nat, old_: string, new_: string)
    requires i < |s| && old_ != "" && !FoundAt(s, i, old_)
    ensures s[..i] + Replaced(s[i..], old_, new_) == s[..i + 1] + Replaced(s[i + 1..], old_, new_)
  {
    ReplaceHere(s, i, old_, new_);
    assert s[..i + 1] == s[..i] + [s[i]];
    Regroup(s[..i], [s[i]], Replaced(s[i + 1..], old_, new_));
  }

  method ReplaceAll(text: string, old_: string, new_: string) returns (s: string)
    requires old_ != ""
    ensures s == Replaced(text, old_, new_)
  {
    s := text;
    var i := 0;
    while i < |s|
      invariant 0 <= i <= |s|
      invariant Replaced(text, old_, new_) == s[..i] + Replaced(s[i..], old_, new_)
      decreases |s| - i
    {
      if |s| - i >= |old_| && s[i..i + |old_|] == old_ {
        ghost var s' := s[..i] + new_ + s[i + |old_|..];
        ReplaceFound(s, i, old_, new_, s');
        s := s[..i] + new_ + s[i + |old_|..];
        i := i + |new_| - 1;
      } else {
        ReplaceSkip(s, i, old_, new_);
      }
      i := i + 1;
    }
  }

  const UNSAFE: seq<char> := ['/', '\\', ':', '*', '?', '"', '<', '>', '|']

  function Pass(s: string, unsafe: seq<char>): string {
    if unsafe == [] then s else Replaced(Pass(s, unsafe[..|unsafe| - 1]), [unsafe[|unsafe| - 1]], "_")
  }

  function MapChar(s: string, from_: seq<char>): (r: string)
    ensures |r| == |s|
    ensures forall i :: 0 <= i < |s| ==> r[i] == if s[i] in from_ then '_' else s[i]
  {
    seq(|s|, i requires 0 <= i < |s| => if s[i] in from_ then '_' else s[i])
  }

  lemma {:induction false} ReplacedChar(s: string, c: char)
    ensures Replaced(s, [c], "_") == MapChar(s, [c])
    decreases |s|
  {
    if s != "" {
      ReplacedChar(s[1..], c);
      assert [c] <= s <==> s[0] == c;
    }
  }

  function SafeChar(c: char): char { if c in UNSAFE then '_' else c }

  /** One simultaneous replacement of the nine characters. */
  function Sanitized(name: string): (s: string)
    ensures |s| == |name|
    ensures forall i :: 0 <= i < |name| ==> s[i] == SafeChar(name[i])
  {
    seq(|name|, i requires 0 <= i < |name| => SafeChar(name[i]))
  }

  /** Successive passes equal one map over the characters, as the underscore is safe. */
  lemma {:induction false} PassesAreOneMap(name: string, unsafe: seq<char>)
    requires '_' !in unsafe
    ensures Pass(name, unsafe) == MapChar(name, unsafe)
    ensures unsafe == UNSAFE ==> Pass(name, unsafe) == Sanitized(name)
  {
    if unsafe != [] {
      var init, c := unsafe[..|unsafe| - 1], unsafe[|unsafe| - 1];
      PassesAreOneMap(name, init);
      ReplacedChar(MapChar(name, init), c);
      assert unsafe == init + [c];
    }
  }

  method SanitizeFileName(name: string) returns (result: string)
    ensures result == Sanitized(name)
  {
    result := name;
    assert UNSAFE[..0] == [];
    for i := 0 to |UNSAFE|
      invariant result == Pass(name, UNSAFE[..i])
    {
      assert UNSAFE[..i + 1][..i] == UNSAFE[..i];
      result := ReplaceAll(result, [UNSAFE[i]], "_");
    }
    assert UNSAFE[..|UNSAFE|] == UNSAFE;
    PassesAreOneMap(name, UNSAFE);
  }

  /** Sanitising keeps the length, removes all nine characters and is idempotent. */
  lemma SanitizedFacts(name: string)
    ensures |Sanitized(name)| == |name|
    ensures forall c :: c in UNSAFE ==> c !in Sanitized(name)
    ensures Sanitized(Sanitized(name)) == Sanitized(name)
  {
    assert SafeChar('_') == '_';
    forall i | 0 <= i < |name| ensures Sanitized(name)[i] !in UNSAFE {
      assert Sanitized(name)[i] == SafeChar(name[i]);
    }
  }

  // ----- The two stores, as values -----

  datatype File = CheckpointFile(cp: Checkpoint) | ProgressFile(progress: int)

  /** A progress record is represented by a number; nothing reads it back. */
  datatype Op = Save(cp: Checkpoint) | Load(table: string) | Delete(table: string) | SaveProgress(progress: int)

  datatype Memory = Memory(checkpoints: map<string, Checkpoint>, progress: Option<int>)

  type Files = map<string, File>

  const EMPTY_MEMORY := Memory(map[], None)

  function FileName(table: string): string { Sanitized(table) + ".json" }

  const PROGRESS_FILE := "progress.json"

  function MemoryStep(m: Memory, op: Op): Memory {
    match op
    case Save(cp) => m.(checkpoints := m.checkpoints[cp.tableName := cp])
    case Load(_) => m
    case Delete(t) => m.(checkpoints := m.checkpoints - {t})
    case SaveProgress(p) => m.(progress := Some(p))
  }

  function FilesStep(f: Files, op: Op): Files {
    match op
    case Save(cp) => f[FileName(cp.tableName) := CheckpointFile(cp)]
    case Load(_) => f
    case Delete(t) => f - {FileName(t)}
    case SaveProgress(p) => f[PROGRESS_FILE := ProgressFile(p)]
  }

  function MemoryLoad(m: Memory, table: string): Option<Checkpoint> {
    if table in m.checkpoints then Some(m.checkpoints[table]) else None
  }

  function FilesLoad(f: Files, table: string): Option<Checkpoint> {
    if FileName(table) !in f then None
    else match f[FileName(table)]
      case CheckpointFile(cp) => Some(cp)
      case ProgressFile(_) => Some(ZERO_CHECKPOINT)
  }

  function RunMemory(m: Memory, ops: seq<Op>): Memory {
    if ops == [] then m else MemoryStep(RunMemory(m, ops[..|ops| - 1]), ops[|ops| - 1])
  }

  function RunFiles(f: Files, ops: seq<Op>): Files {
    if ops == [] then f else FilesStep(RunFiles(f, ops[..|ops| - 1]), ops[|ops| - 1])
  }

  // ----- The stores, in place -----

  class MemoryCheckpointStore {
    var checkpoints: map<string, Checkpoint>
    var progress: Option<int>

    function View(): Memory
      reads this
    {
      Memory(checkpoints, progress)
    }

    constructor ()
      ensures View() == EMPTY_MEMORY
    {
      checkpoints, progress := map[], None;
    }

    method Save(cp: Checkpoint)
      modifies `checkpoints
      ensures View() == MemoryStep(old(View()), Op.Save(cp))
    {
      checkpoints := checkpoints[cp.tableName := cp];
    }

    method Load(table: string) returns (cp: Option<Checkpoint>)
      ensures cp == MemoryLoad(View(), table)
    {
      cp := if table in checkpoints then Some(checkpoints[table]) else None;
    }

    method Delete(table: string)
      modifies `checkpoints
      ensures View() == MemoryStep(old(View()), Op.Delete(table))
    {
      checkpoints := checkpoints - {table};
    }

    method SaveProgress(p: int)
      modifies `progress
      ensures View() == MemoryStep(old(View()), Op.SaveProgress(p))
      ensures progress == Some(p) && checkpoints == old(checkpoints)
    {
      progress := Some(p);
    }
  }

  class FileCheckpointStore {
    /** The directory: the store holds nothing else. */
    var files: Files

    constructor ()
      ensures files == map[]
    {
      files := map[];
    }

    method FilePath(table: string) returns (path: string)
      ensures path == FileName(table)
    {
      var safeName := SanitizeFileName(table);
      path := safeName + ".json";
    }

    method Save(cp: Checkpoint)
      modifies `files
      ensures files == FilesStep(old(files), Op.Save(cp))
    {
      var path := FilePath(cp.tableName);
      files := files[path := CheckpointFile(cp)];
    }

    method Load(table: string) returns (cp: Option<Checkpoint>)
      ensures cp == FilesLoad(files, table)
    {
      var path := FilePath(table);
      if path !in files {
        return None;
      }
      match files[path] {
        case CheckpointFile(c) => cp := Some(c);
        case ProgressFile(_) => cp := Some(ZERO_CHECKPOINT);
      }
    }

    method Delete(table: string)
      modifies `files
      ensures files == FilesStep(old(files), Op.Delete(table))
    {
      var path := FilePath(table);
      files := files - {path};
    }

    method SaveProgress(p: int)
      modifies `files
      ensures files == FilesStep(old(files), Op.SaveProgress(p))
      ensures PROGRESS_FILE in files && files[PROGRESS_FILE] == ProgressFile(p)
    {
      files := files[PROGRESS_FILE := ProgressFile(p)];
    }
  }

  // ----- Refinement -----

  predicate Names(op: Op, tables: set<string>) {
    match op
    case Save(cp) => cp.tableName in tables
    case Load(t) => t in tables
    case Delete(t) => t in tables
    case SaveProgress(_) => true
  }

  ghost predicate AllName(ops: seq<Op>, tables: set<string>) {
    forall i :: 0 <= i < |ops| ==> Names(ops[i], tables)
  }

  /** The file store can tell the tables apart, and none of them from its progress file. */
  predicate Separable(tables: set<string>) {
    && (forall t, u :: t in tables && u in tables && t != u ==> Sanitized(t) != Sanitized(u))
    && (forall t :: t in tables ==> Sanitized(t) != "progress")
  }

  predicate Related(tables: set<string>, m: Memory, f: Files) {
    forall t :: t in tables ==>
      if t in m.checkpoints then FileName(t) in f && f[FileName(t)] == CheckpointFile(m.checkpoints[t])
      else FileName(t) !in f
  }

  lemma FileNamesDiffer(t: string, u: string)
    ensures FileName(t) == FileName(u) <==> Sanitized(t) == Sanitized(u)
    ensures FileName(t) == PROGRESS_FILE <==> Sanitized(t) == "progress"
  {
    assert FileName(t)[..|Sanitized(t)|] == Sanitized(t);
    assert FileName(u)[..|Sanitized(u)|] == Sanitized(u);
    assert PROGRESS_FILE[..8] == "progress";
    assert "progress" + ".json" == PROGRESS_FILE;
  }

  lemma StepRelated(tables: set<string>, m: Memory, f: Files, op: Op)
    requires Separable(tables) && Names(op, tables) && Related(tables, m, f)
    ensures Related(tables, MemoryStep(m, op), FilesStep(f, op))
  {
    forall t, u ensures FileName(t) == FileName(u) <==> Sanitized(t) == Sanitized(u) {
      FileNamesDiffer(t, u);
    }
    forall t ensures FileName(t) == PROGRESS_FILE <==> Sanitized(t) == "progress" {
      FileNamesDiffer(t, t);
    }
  }

  lemma {:induction false} RunsRelated(tables: set<string>, ops: seq<Op>)
    requires Separable(tables) && AllName(ops, tables)
    ensures Related(tables, RunMemory(EMPTY_MEMORY, ops), RunFiles(map[], ops))
  {
    if ops != [] {
      var init := ops[..|ops| - 1];
      assert Names(ops[|ops| - 1], tables);
      RunsRelated(tables, init);
      StepRelated(tables, RunMemory(EMPTY_MEMORY, init), RunFiles(map[], init), ops[|ops| - 1]);
    }
  }

  /** After any operations on the given tables, loading any of them gives the same in both stores. */
  ghost predicate Indistinguishable(tables: set<string>) {
    forall ops, t :: AllName(ops, tables) && t in tables ==>
      MemoryLoad(RunMemory(EMPTY_MEMORY, ops), t) == FilesLoad(RunFiles(map[], ops), t)
  }

  lemma ProgressShows(tables: set<string>, t: string)
    requires t in tables && Sanitized(t) == "progress"
    ensures !Indistinguishable(tables)
  {
    var op := Op.SaveProgress(0);
    var ops := [op];
    FileNamesDiffer(t, t);
    assert ops[..0] == [];
    assert AllName(ops, tables);
    assert RunMemory(EMPTY_MEMORY, ops) == MemoryStep(EMPTY_MEMORY, op);
    assert RunFiles(map[], ops) == FilesStep(map[], op);
    assert MemoryLoad(RunMemory(EMPTY_MEMORY, ops), t) != FilesLoad(RunFiles(map[], ops), t);
  }

  lemma CollisionShows(tables: set<string>, t: string, u: string)
    requires t in tables && u in tables && t != u && Sanitized(t) == Sanitized(u)
    ensures !Indistinguishable(tables)
  {
    var op := Op.Save(ZERO_CHECKPOINT.(tableName := t));
    var ops := [op];
    assert ops[..0] == [];
    assert AllName(ops, tables);
    assert RunMemory(EMPTY_MEMORY, ops) == MemoryStep(EMPTY_MEMORY, op);
    assert RunFiles(map[], ops) == FilesStep(map[], op);
    assert MemoryLoad(RunMemory(EMPTY_MEMORY, ops), u) != FilesLoad(RunFiles(map[], ops), u);
  }

  /** The file store refines the map store exactly on separable table names. */
  lemma FileStoreRefinesExactly(tables: set<string>)
    ensures Indistinguishable(tables) <==> Separable(tables)
  {
    if Separable(tables) {
      forall ops, t | AllName(ops, tables) && t in tables
        ensures MemoryLoad(RunMemory(EMPTY_MEMORY, ops), t) == FilesLoad(RunFiles(map[], ops), t)
      {
        RunsRelated(tables, ops);
      }
    } else if exists t, u :: t in tables && u in tables && t != u && Sanitized(t) == Sanitized(u) {
      var t, u :| t in tables && u in tables && t != u && Sanitized(t) == Sanitized(u);
      CollisionShows(tables, t, u);
    } else {
      var t :| t in tables && Sanitized(t) == "progress";
      ProgressShows(tables, t);
    }
  }
}
