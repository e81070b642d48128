/** Which encryption key a start of the core adopts, and what it does to the two
    key files on the way. */
module KeyFiles {
  import opened Profiles
  import opened Fates

  type Bytes = seq<bv8>

  const KEY_SIZE := 32

  /** A database file as the key check sees it. */
  datatype DbFile = NoCiphertext | Ciphertext(data: Bytes)

  /** The key files; `stale` is the copy kept of a key that was replaced. */
  datatype Files = Files(preferred: Option<Bytes>, legacy: Option<Bytes>, stale: Option<Bytes>)

  /** Fixed surroundings of a start: whether both paths are the same file, the
      database, and which key opens which ciphertext. */
  datatype Setting = Setting(samePath: bool, db: seq<DbFile>, decrypts: (Bytes, Bytes) -> bool)

  predicate Valid(file: Option<Bytes>) {
    file.Some? && |file.value| == KEY_SIZE
  }

  predicate Opens(key: Bytes, file: DbFile, s: Setting) {
    file.Ciphertext? && s.decrypts(file.data, key)
  }

  predicate Matches(key: Bytes, s: Setting) {
    exists i :: 0 <= i < |s.db| && Opens(key, s.db[i], s)
  }

  predicate Checked(s: Setting) {
    exists i :: 0 <= i < |s.db| && s.db[i].Ciphertext?
  }

  /** Try the key on every encrypted database file. */
  method KeyMatchesDatabase(key: Bytes, s: Setting) returns (matches: bool, checked: bool)
    ensures matches == Matches(key, s) && checked == Checked(s)
    ensures matches <==> exists i :: 0 <= i < |s.db| && s.db[i].Ciphertext? && s.decrypts(s.db[i].data, key)
    ensures checked <==> exists i :: 0 <= i < |s.db| && !s.db[i].NoCiphertext?
  {
    checked := false;
    for i := 0 to |s.db|
      invariant checked <==> exists k :: 0 <= k < i && s.db[k].Ciphertext?
      invariant forall k :: 0 <= k < i ==> !Opens(key, s.db[k], s)
    {
      if s.db[i].NoCiphertext? {
        continue;
      }
      checked := true;
      if s.decrypts(s.db[i].data, key) {
        assert Opens(key, s.db[i], s);
        return true, true;
      }
    }
    return false, checked;
  }

  // ---- the file operations of a start ----

  datatype Op = SaveStale(key: Bytes) | WritePreferred(key: Bytes) | RemoveLegacy
  {
    predicate BestEffort() {
      !WritePreferred?
    }
  }

  function Apply(f: Files, op: Op): Files {
    match op
    case SaveStale(key) => f.(stale := Some(key))
    case WritePreferred(key) => f.(preferred := Some(key))
    case RemoveLegacy => f.(legacy := None)
  }

  function Run(f: Files, ops: seq<Op>, fate: nat -> Fate, n: nat): (Files, bool)
    decreases ops
  {
    if ops == [] then (f, true)
    else match fate(n)
      case Done => Run(Apply(f, ops[0]), ops[1..], fate, n + 1)
      case Crashed => (f, false)
      case Failed => if ops[0].BestEffort() then Run(f, ops[1..], fate, n + 1) else (f, false)
  }

  /** The operations of a start and the key it ends with; without a key it refuses
      to run. `generated` is the new key in case one is needed. */
  datatype Decision = Decision(ops: seq<Op>, key: Option<Bytes>)

  function Decide(f: Files, s: Setting, generated: Bytes): Decision {
    if s.samePath then
      if Valid(f.preferred) then Decision([], f.preferred)
      else if f.preferred.Some? then Decision([], None)
      else Decision([WritePreferred(generated)], Some(generated))
    else if Valid(f.preferred) && Valid(f.legacy) then
      if f.preferred.value == f.legacy.value || Matches(f.preferred.value, s) then Decision([RemoveLegacy], f.preferred)
      else if Matches(f.legacy.value, s) then
        Decision([SaveStale(f.preferred.value), WritePreferred(f.legacy.value), RemoveLegacy], f.legacy)
      else Decision(if Checked(s) then [] else [RemoveLegacy], f.preferred)
    else if Valid(f.preferred) then Decision(if f.legacy.Some? then [RemoveLegacy] else [], f.preferred)
    else if Valid(f.legacy) then Decision([WritePreferred(f.legacy.value), RemoveLegacy], f.legacy)
    else if f.preferred.Some? || f.legacy.Some? then Decision([], None)
    else Decision([WritePreferred(generated)], Some(generated))
  }

  datatype Started = Started(files: Files, key: Option<Bytes>)

  function Start(f: Files, s: Setting, generated: Bytes, fate: nat -> Fate): Started {
    var d := Decide(f, s, generated);
    var r := Run(f, d.ops, fate, 0);
    Started(r.0, if r.1 then d.key else None)
  }

  /** One start of the core on its key files. */
  class KeyStore {
    var files: Files
    var key: Option<Bytes>

    constructor (files: Files)
      ensures this.files == files && key == None
    {
      this.files, this.key := files, None;
    }

    /** Perform one operation; `false` ends the start. */
    method Perform(op: Op, fate: Fate) returns (ok: bool)
      modifies this`files
      ensures files == if fate == Done then Apply(old(files), op) else old(files)
      ensures ok <==> fate == Done || (fate == Failed && op.BestEffort())
    {
      if fate == Done {
        files := Apply(files, op);
      }
      return fate == Done || (fate == Failed && op.BestEffort());
    }

    method RunAll(ops: seq<Op>, fate: nat -> Fate) returns (ok: bool)
      modifies this`files
      ensures (files, ok) == Run(old(files), ops, fate, 0)
    {
      assert ops[0..] == ops;
      for i := 0 to |ops|
        invariant Run(old(files), ops, fate, 0) == Run(files, ops[i..], fate, i)
      {
        assert ops[i..][1..] == ops[i + 1..];
        ok := Perform(ops[i], fate(i));
        if !ok {
          return;
        }
      }
      return true;
    }

    method LoadOrCreateKey(s: Setting, generated: Bytes, fate: nat -> Fate)
      modifies this
      ensures Started(files, key) == Start(old(files), s, generated, fate)
    {
      var ops, chosen := [], None;
      if s.samePath {
        if Valid(files.preferred) {
          chosen := files.preferred;
        } else if files.preferred.None? {
          ops, chosen := [WritePreferred(generated)], Some(generated);
        }
      } else if Valid(files.preferred) && Valid(files.legacy) {
        chosen := files.preferred;
        if files.preferred.value == files.legacy.value {
          ops := [RemoveLegacy];
        } else {
          var prefMatches, checked := KeyMatchesDatabase(files.preferred.value, s);
          if prefMatches {
            ops := [RemoveLegacy];
          } else {
            var legacyMatches, _ := KeyMatchesDatabase(files.legacy.value, s);
            if legacyMatches {
              ops := [SaveStale(files.preferred.value), WritePreferred(files.legacy.value), RemoveLegacy];
              chosen := files.legacy;
            } else if !checked {
              ops := [RemoveLegacy];
            }
          }
        }
      } else if Valid(files.preferred) {
        chosen := files.preferred;
        if files.legacy.Some? {
          ops := [RemoveLegacy];
        }
      } else if Valid(files.legacy) {
        ops, chosen := [WritePreferred(files.legacy.value), RemoveLegacy], files.legacy;
      } else if files.preferred.None? && files.legacy.None? {
        ops, chosen := [WritePreferred(generated)], Some(generated);
      }
      var ok := RunAll(ops, fate);
      key := if ok then chosen else None;
    }
  }

  // ---- no start loses the key ----

  /** One of the key files holds a key that opens the database. */
  predicate Recoverable(f: Files, s: Setting) {
    || (Valid(f.preferred) && Matches(f.preferred.value, s))
    || (!s.samePath && Valid(f.legacy) && Matches(f.legacy.value, s))
  }

  lemma RunUnfolds(f: Files, a: Op, rest: seq<Op>, fate: nat -> Fate, n: nat)
    ensures Run(f, [a] + rest, fate, n) ==
            match fate(n)
            case Done => Run(Apply(f, a), rest, fate, n + 1)
            case Crashed => (f, false)
            case Failed => if a.BestEffort() then Run(f, rest, fate, n + 1) else (f, false)
  {
  }

  /** What a start may leave of the key files: the legacy key stays until the
      preferred file holds the key of the start. */
  lemma StartLeaves(f: Files, s: Setting, generated: Bytes, fate: nat -> Fate)
    ensures var d, r := Decide(f, s, generated), Start(f, s, generated, fate);
            && (r.key.Some? ==> r.key == d.key && r.files.preferred == d.key)
            && (r.files.preferred == f.preferred || r.files.preferred == d.key)
            && (r.files.legacy == f.legacy || (r.files.legacy == None && d.key.Some? && r.files.preferred == d.key)
                || (d.ops == [RemoveLegacy] && r.files.legacy == None && r.files.preferred == f.preferred == d.key))
  {
    var d := Decide(f, s, generated);
    if |d.ops| == 3 {
      var a, b, c := d.ops[0], d.ops[1], d.ops[2];
      assert d.ops == [a] + ([b] + ([c] + []));
      RunUnfolds(f, a, [b] + ([c] + []), fate, 0);
      RunUnfolds(f, b, [c] + [], fate, 1);
      RunUnfolds(Apply(f, a), b, [c] + [], fate, 1);
      RunUnfolds(Apply(f, b), c, [], fate, 2);
      RunUnfolds(Apply(Apply(f, a), b), c, [], fate, 2);
    } else if |d.ops| == 2 {
      var a, b := d.ops[0], d.ops[1];
      assert d.ops == [a] + ([b] + []);
      RunUnfolds(f, a, [b] + [], fate, 0);
      RunUnfolds(Apply(f, a), b, [], fate, 1);
    } else if |d.ops| == 1 {
      assert d.ops == [d.ops[0]] + [];
      RunUnfolds(f, d.ops[0], [], fate, 0);
    }
  }

  // ---- the answers in the contents of the key files ----

  /** A key file of 32 bytes. */
  predicate IsKey(file: Option<Bytes>) {
    file.Some? && |file.value| == 32
  }

  /** If a key file exists and none holds a key, the start refuses to run and leaves
      everything for recovery, whatever becomes of its operations. */
  lemma InvalidKeysAreKept(f: Files, s: Setting, generated: Bytes, fate: nat -> Fate)
    requires if s.samePath then f.preferred.Some? && !IsKey(f.preferred)
             else (f.preferred.Some? || f.legacy.Some?) && !IsKey(f.preferred) && !IsKey(f.legacy)
    ensures Start(f, s, generated, fate) == Started(f, None)
  {
  }

  /** A new key is written and loaded exactly when no key file exists. */
  lemma NewKeyOnlyWithoutKeyFile(f: Files, s: Setting, generated: Bytes, fate: nat -> Fate)
    ensures var r := Start(f, s, generated, fate);
            if f.preferred == None && (s.samePath || f.legacy == None) then
              r == if fate(0) == Done then Started(f.(preferred := Some(generated)), Some(generated)) else Started(f, None)
            else
              && (r.files.preferred == f.preferred || (!s.samePath && r.files.preferred == f.legacy))
              && (r.key.Some? ==> r.key == f.preferred || (!s.samePath && r.key == f.legacy))
              && (r.files.legacy == f.legacy || (!s.samePath && r.files.legacy == None))
  {
    hide Matches, Checked, Run;
    StartLeaves(f, s, generated, fate);
    if f.preferred == None && (s.samePath || f.legacy == None) {
      RunUnfolds(f, WritePreferred(generated), [], fate, 0);
      assert [WritePreferred(generated)] == [WritePreferred(generated)] + [];
      RunEnds(f.(preferred := Some(generated)), fate, 1);
    } else {
      RunEnds(f, fate, 0);
    }
  }

  lemma RunEnds(f: Files, fate: nat -> Fate, n: nat)
    ensures Run(f, [], fate, n) == (f, true)
  {
  }

  /** Two keys that differ and do not open an existing database are both kept. */
  lemma UnreadableDatabaseKeepsBothKeys(f: Files, s: Setting, generated: Bytes, fate: nat -> Fate)
    requires !s.samePath && IsKey(f.preferred) && IsKey(f.legacy) && f.preferred != f.legacy
    requires Checked(s) && !Matches(f.preferred.value, s) && !Matches(f.legacy.value, s)
    ensures Start(f, s, generated, fate) == Started(f, f.preferred)
  {
    hide Matches, Checked;
  }

  /** Which key a start loads when nothing fails, and what it leaves: the only key, or
      of two the one that opens the database, the preferred one if both or none do. It is
      in the preferred file afterwards, a key it replaced is kept beside it, and the old
      file is removed. */
  lemma CompleteStartAnswers(f: Files, s: Setting, generated: Bytes)
    requires IsKey(f.preferred) || (!s.samePath && IsKey(f.legacy))
    ensures var r := Start(f, s, generated, AllDone);
            if s.samePath then r == Started(f, f.preferred)
            else if !IsKey(f.preferred) then r == Started(Files(f.legacy, None, f.stale), f.legacy)
            else if !IsKey(f.legacy) || f.preferred == f.legacy || Matches(f.preferred.value, s) then
              r == Started(f.(legacy := None), f.preferred)
            else if Matches(f.legacy.value, s) then r == Started(Files(f.legacy, None, f.preferred), f.legacy)
            else r == Started(if Checked(s) then f else f.(legacy := None), f.preferred)
  {
    hide Matches, Checked, Run;
    var d := Decide(f, s, generated);
    if |d.ops| == 3 {
      assert d.ops == [d.ops[0]] + ([d.ops[1]] + ([d.ops[2]] + []));
      RunUnfolds(f, d.ops[0], [d.ops[1]] + ([d.ops[2]] + []), AllDone, 0);
      RunUnfolds(Apply(f, d.ops[0]), d.ops[1], [d.ops[2]] + [], AllDone, 1);
      RunUnfolds(Apply(Apply(f, d.ops[0]), d.ops[1]), d.ops[2], [], AllDone, 2);
      RunEnds(Apply(Apply(Apply(f, d.ops[0]), d.ops[1]), d.ops[2]), AllDone, 3);
    } else if |d.ops| == 2 {
      assert d.ops == [d.ops[0]] + ([d.ops[1]] + []);
      RunUnfolds(f, d.ops[0], [d.ops[1]] + [], AllDone, 0);
      RunUnfolds(Apply(f, d.ops[0]), d.ops[1], [], AllDone, 1);
      RunEnds(Apply(Apply(f, d.ops[0]), d.ops[1]), AllDone, 2);
    } else if |d.ops| == 1 {
      assert d.ops == [d.ops[0]] + [];
      RunUnfolds(f, d.ops[0], [], AllDone, 0);
      RunEnds(Apply(f, d.ops[0]), AllDone, 1);
    } else {
      assert d.ops == [];
      RunEnds(f, AllDone, 0);
    }
  }

  /** A valid key gives way only to one that opens the database while it does not, and
      only after the attempt to keep a copy of it. */
  lemma ReplacedKeyIsKept(f: Files, s: Setting, generated: Bytes, fate: nat -> Fate)
    requires IsKey(f.preferred)
    ensures var r := Start(f, s, generated, fate);
            r.files.preferred != f.preferred ==>
              && r.files.preferred == f.legacy && IsKey(f.legacy) && !s.samePath
              && Matches(f.legacy.value, s) && !Matches(f.preferred.value, s)
              && (fate(0) == Done ==> r.files.stale == f.preferred)
  {
    hide Matches, Checked, Run;
    var d := Decide(f, s, generated);
    StartLeaves(f, s, generated, fate);
    if |d.ops| == 3 {
      var a, b, c := d.ops[0], d.ops[1], d.ops[2];
      assert d.ops == [a] + ([b] + ([c] + []));
      RunUnfolds(f, a, [b] + ([c] + []), fate, 0);
      if fate(0) == Done {
        RunUnfolds(Apply(f, a), b, [c] + [], fate, 1);
        RunUnfolds(Apply(Apply(f, a), b), c, [], fate, 2);
        RunEnds(Apply(Apply(f, a), b), fate, 3);
        RunEnds(Apply(Apply(Apply(f, a), b), c), fate, 3);
      }
    }
  }

  /** A start, wherever it stops, leaves a key that opens the database, and loads no
      other. One that finds such a key in the preferred file keeps to it. */
  lemma StartStaysRecoverable(f: Files, s: Setting, generated: Bytes, fate: nat -> Fate)
    requires Recoverable(f, s)
    ensures var r := Start(f, s, generated, fate);
            && Recoverable(r.files, s)
            && (r.key.Some? ==> Settled(r.files, s, r.key.value))
            && (Valid(f.preferred) && Settled(f, s, f.preferred.value) ==>
                  Settled(r.files, s, f.preferred.value) && (r.key.Some? ==> r.key == f.preferred))
  {
    hide Matches, Checked, Run;
    StartLeaves(f, s, generated, fate);
  }

  /** The preferred file holds this key, and it opens the database. */
  predicate Settled(f: Files, s: Setting, key: Bytes) {
    f.preferred == Some(key) && Valid(f.preferred) && Matches(key, s)
  }

  // ---- any number of starts ----

  /** One start: the key generated in case one is needed, and the fate of its file
      operations. */
  datatype Boot = Boot(generated: Bytes, fate: nat -> Fate)

  function AfterBoots(f: Files, s: Setting, boots: seq<Boot>): Files
    decreases |boots|
  {
    if boots == [] then f else AfterBoots(Start(f, s, boots[0].generated, boots[0].fate).files, s, boots[1..])
  }

  /** The keys of the starts that loaded one. */
  function LoadedKeys(f: Files, s: Setting, boots: seq<Boot>): seq<Bytes>
    decreases |boots|
  {
    if boots == [] then []
    else
      var first := Start(f, s, boots[0].generated, boots[0].fate);
      var rest := LoadedKeys(first.files, s, boots[1..]);
      if first.key.Some? then [first.key.value] + rest else rest
  }

  predicate AllAre(keys: seq<Bytes>, key: Bytes) {
    forall i :: 0 <= i < |keys| ==> keys[i] == key
  }

  lemma {:induction false} SettledStays(f: Files, s: Setting, boots: seq<Boot>, key: Bytes)
    requires Settled(f, s, key)
    ensures Settled(AfterBoots(f, s, boots), s, key)
    ensures AllAre(LoadedKeys(f, s, boots), key)
    decreases |boots|
  {
    hide Matches, Start;
    if boots != [] {
      StartStaysRecoverable(f, s, boots[0].generated, boots[0].fate);
      SettledStays(Start(f, s, boots[0].generated, boots[0].fate).files, s, boots[1..], key);
    }
  }

  /** If either key file opens the database, then after any number of starts, each of
      which may fail or be cut off anywhere, the next complete start loads a key that
      opens it. All starts that load a key load the same one. */
  lemma {:induction false} KeyIsNeverLost(f: Files, s: Setting, boots: seq<Boot>, generated: Bytes)
    requires Recoverable(f, s)
    ensures Recoverable(AfterBoots(f, s, boots), s)
    ensures var keys, last := LoadedKeys(f, s, boots), Start(AfterBoots(f, s, boots), s, generated, AllDone);
            && last.key.Some? && Matches(last.key.value, s)
            && AllAre(keys, last.key.value)
    decreases |boots|
  {
    hide Matches, Start, Recoverable, Settled;
    AlwaysRecoverable(f, s, boots);
    RecoverableLoads(AfterBoots(f, s, boots), s, generated);
    if boots != [] {
      var first := Start(f, s, boots[0].generated, boots[0].fate);
      var rest := LoadedKeys(first.files, s, boots[1..]);
      StartStaysRecoverable(f, s, boots[0].generated, boots[0].fate);
      KeyIsNeverLost(first.files, s, boots[1..], generated);
      assert AfterBoots(f, s, boots) == AfterBoots(first.files, s, boots[1..]);
      if first.key.Some? {
        assert LoadedKeys(f, s, boots) == [first.key.value] + rest;
        SettledStays(first.files, s, boots[1..], first.key.value);
        SettledLoads(AfterBoots(f, s, boots), s, first.key.value, generated);
      } else {
        assert LoadedKeys(f, s, boots) == rest;
      }
    }
  }

  lemma {:induction false} AlwaysRecoverable(f: Files, s: Setting, boots: seq<Boot>)
    requires Recoverable(f, s)
    ensures Recoverable(AfterBoots(f, s, boots), s)
    decreases |boots|
  {
    hide Recoverable, Start, Settled;
    if boots != [] {
      StartStaysRecoverable(f, s, boots[0].generated, boots[0].fate);
      AlwaysRecoverable(Start(f, s, boots[0].generated, boots[0].fate).files, s, boots[1..]);
    }
  }

  lemma SettledLoads(f: Files, s: Setting, key: Bytes, generated: Bytes)
    requires Settled(f, s, key)
    ensures Start(f, s, generated, AllDone).key == Some(key)
  {
    hide Matches, Start;
    RecoverableLoads(f, s, generated);
  }

  lemma RecoverableLoads(f: Files, s: Setting, generated: Bytes)
    requires Recoverable(f, s)
    ensures var r := Start(f, s, generated, AllDone);
            && r.key.Some? && Matches(r.key.value, s)
            && (Valid(f.preferred) && Matches(f.preferred.value, s) ==> r.key == f.preferred)
  {
    hide Matches, Checked;
    RunsThrough(f, Decide(f, s, generated).ops, 0);
  }

  lemma {:induction false} RunsThrough(f: Files, ops: seq<Op>, n: nat)
    ensures Run(f, ops, AllDone, n).1
    decreases ops
  {
    if ops != [] {
      RunsThrough(Apply(f, ops[0]), ops[1..], n + 1);
    }
  }

  /** A start that completed is repeated with the same key, database or not. */
  lemma CompletedStartIsStable(f: Files, s: Setting, generated: Bytes, other: Bytes, fate: nat -> Fate)
    requires |generated| == KEY_SIZE && Start(f, s, generated, fate).key.Some?
    ensures var first := Start(f, s, generated, fate);
            Start(first.files, s, other, AllDone).key == first.key
  {
    hide Matches, Checked, Run;
    StartLeaves(f, s, generated, fate);
    var first := Start(f, s, generated, fate);
    RunsThrough(first.files, Decide(first.files, s, other).ops, 0);
  }
}
