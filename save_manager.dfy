/** Saving and loading a game's record. The file system is a map from path to
    the text stored there; writes go through a temporary file that is renamed
    over the target, each save also writes a backup named after the current
    second, and old backups are pruned to a retention limit. */
module SaveManager {
  import opened Json
  import opened Names
  import opened RealMath

  const SavePath: string := "data/savegame.json"
  const BackupDir: string := "data/saves"
  const SchemaVersion: int := 1

  /** What a file holds: the serialisation of a record, or text that does not
      parse as one. Serialising and parsing are taken to be exact inverses. */
  datatype Text = Serialized(record: Record) | Unreadable(raw: string)

  function Dumps(r: Record): Text
  {
    Serialized(r)
  }

  // ---------------------------------------------------------------------------
  // The written record
  // ---------------------------------------------------------------------------

  const MetaKeys: set<string> := {"_schema_version", "_saved_at"}

  /** The record a save writes: the state's entries plus the schema version and
      the save time, the two metadata entries winning over same-named ones. */
  function ToWrite(state: Record, savedAt: real): (r: Record)
    ensures r.Keys == state.Keys + MetaKeys
    ensures r["_schema_version"] == VInt(SchemaVersion)
    ensures r["_saved_at"] == VReal(savedAt)
    ensures forall k :: k in state && k !in MetaKeys ==> r[k] == state[k]
  {
    state + map["_schema_version" := VInt(SchemaVersion), "_saved_at" := VReal(savedAt)]
  }

  // ---------------------------------------------------------------------------
  // Paths
  // ---------------------------------------------------------------------------

  /** The temporary file written before the rename: the path with ".tmp" added
      to its suffix. */
  function TmpPath(p: string): string
  {
    p + ".tmp"
  }

  const BackupPrefix: string := BackupDir + "/save_"

  /** The backup written in a given second. */
  function BackupPath(second: int): string
  {
    BackupPrefix + IntString(second) + ".json"
  }

  /** A file directly inside the backup directory whose name matches
      "save_*.json". */
  predicate IsBackupPath(p: string)
  {
    var dir := BackupDir + "/";
    && |p| >= |dir| + 10
    && p[..|dir|] == dir
    && (forall k :: |dir| <= k < |p| ==> p[k] != '/')
    && p[|dir|..|dir| + 5] == "save_"
    && p[|p| - 5..] == ".json"
  }

  lemma IntStringNoSlash(i: int)
    ensures forall k :: 0 <= k < |IntString(i)| ==> IntString(i)[k] != '/'
    ensures |IntString(i)| >= 1
  {
    var n := NatString(if i < 0 then -i else i);
    assert forall k :: 0 <= k < |n| ==> IsDigit(n[k]);
  }

  /** Every backup a save writes is one that the pruning sees; the main save
      file and every temporary file are not. */
  lemma PathKinds(second: int, p: string)
    ensures IsBackupPath(BackupPath(second))
    ensures !IsBackupPath(SavePath)
    ensures !IsBackupPath(TmpPath(p))
  {
    var b := BackupPath(second);
    var digits := IntString(second);
    IntStringNoSlash(second);
    assert b == BackupDir + "/" + "save_" + digits + ".json";
    assert b[..11] == BackupDir + "/";
    assert b[11..16] == "save_";
    assert b[|b| - 5..] == ".json";
    forall k | 11 <= k < |b| ensures b[k] != '/' {
      if k < 16 {
        assert b[k] == "save_"[k - 11];
      } else if k < 16 + |digits| {
        assert b[k] == digits[k - 16];
      } else {
        assert b[k] == ".json"[k - 16 - |digits|];
      }
    }
    var t := TmpPath(p);
    assert t[|t| - 1] == 'p';
    assert |t| >= 5 ==> t[|t| - 5..][4] == 'p';
  }

  /** Saves in the same second name the same backup, saves in different
      seconds different ones. */
  lemma BackupPathInjective(a: int, b: int)
    ensures BackupPath(a) == BackupPath(b) <==> a == b
  {
    if BackupPath(a) == BackupPath(b) {
      var p := BackupPath(a);
      assert p[16..|p| - 5] == IntString(a);
      assert p[16..|p| - 5] == IntString(b);
      IntStringInjective(a, b);
    }
  }

  /** While the seconds have the same number of digits, name order is time
      order, so the backups kept as the greatest names are the most recent. */
  lemma BackupOrder(a: int, b: int)
    requires a >= 0 && b >= 0 && |IntString(a)| == |IntString(b)|
    ensures NameLeq(BackupPath(a), BackupPath(b)) <==> a <= b
  {
    var x, y := IntString(a), IntString(b);
    assert BackupPath(a) == BackupPrefix + (x + ".json");
    assert BackupPath(b) == BackupPrefix + (y + ".json");
    NameLeqCommonPrefix(BackupPrefix, x + ".json", y + ".json");
    NameLeqCommonSuffix(x, y, ".json");
    NatStringOrder(a, b);
  }

  /** Once the digit count changes, name order and time order part: the
      backup of second 1000 sorts before that of second 999, so pruning would
      remove the newer one first. */
  lemma BackupOrderAcrossDigitCounts()
    ensures NameLeq(BackupPath(1000), BackupPath(999))
    ensures !NameLeq(BackupPath(999), BackupPath(1000))
  {
    var x, y := IntString(1000), IntString(999);
    assert x == "1000" && y == "999";
    assert BackupPath(1000) == BackupPrefix + (x + ".json");
    assert BackupPath(999) == BackupPrefix + (y + ".json");
    NameLeqCommonPrefix(BackupPrefix, x + ".json", y + ".json");
    NameLeqCommonPrefix(BackupPrefix, y + ".json", x + ".json");
  }

  // ---------------------------------------------------------------------------
  // The file system
  // ---------------------------------------------------------------------------

  /** The effect of an atomic write on the map of files. */
  function Written(files: map<string, Text>, path: string, text: Text): map<string, Text>
  {
    (files - {TmpPath(path)})[path := text]
  }

  /** Writing the same path twice leaves only the later text: a second save in
      the same second replaces the first one's backup. */
  lemma LaterWriteWins(files: map<string, Text>, path: string, t1: Text, t2: Text)
    ensures Written(Written(files, path, t1), path, t2) == Written(files, path, t2)
    ensures Written(files, path, t2)[path] == t2
  {
    assert TmpPath(path) != path by { assert |TmpPath(path)| == |path| + 4; }
  }

  /** The backups currently on disk. */
  function BackupFiles(files: map<string, Text>): set<string>
  {
    set p | p in files && IsBackupPath(p)
  }

  /** The files a pruning pass actually deletes: those it tried to remove that
      the file system let it remove. */
  function Deleted(removed: seq<string>, undeletable: set<string>): set<string>
  {
    set p | p in removed && p !in undeletable
  }

  class FileSystem {
    var files: map<string, Text>
    /** Paths whose deletion the operating system refuses. */
    const undeletable: set<string>

    constructor (files0: map<string, Text>, undeletable0: set<string>)
      ensures files == files0 && undeletable == undeletable0
    {
      files := files0;
      undeletable := undeletable0;
    }

    method WriteText(path: string, text: Text)
      modifies this
      ensures files == old(files)[path := text]
    {
      files := files[path := text];
    }

    /** Renames src over dst. */
    method Replace(src: string, dst: string)
      requires src in files
      modifies this
      ensures files == (old(files) - {src})[dst := old(files)[src]]
    {
      files := (files - {src})[dst := files[src]];
    }

    /** Deletes a file; reports false where the operating system raises (the
        file is missing, or may not be deleted). */
    method Unlink(path: string) returns (ok: bool)
      modifies this
      ensures ok <==> path in old(files) && path !in undeletable
      ensures files == if ok then old(files) - {path} else old(files)
    {
      ok := path in files && path !in undeletable;
      if ok {
        files := files - {path};
      }
    }
  }

  /** Writes a temporary file beside the path and renames it over the path. */
  method WriteAtomic(fs: FileSystem, path: string, text: Text)
    modifies fs
    ensures fs.files == Written(old(fs.files), path, text)
  {
    var tmp := TmpPath(path);
    fs.WriteText(tmp, text);
    fs.Replace(tmp, path);
    assert tmp != path by { assert |tmp| == |path| + 4; }
  }

  /** The backups in the directory, each once, in whatever order the directory
      lists them. */
  method ListBackups(fs: FileSystem) returns (names: seq<string>)
    ensures Distinct(names)
    ensures forall p :: p in names <==> p in BackupFiles(fs.files)
    ensures |names| == |BackupFiles(fs.files)|
  {
    var all := BackupFiles(fs.files);
    var rest := all;
    names := [];
    while rest != {}
      invariant rest <= all
      invariant forall p :: p in names ==> p in all && p !in rest
      invariant forall p :: p in all ==> p in names || p in rest
      invariant Distinct(names)
      invariant |names| + |rest| == |all|
      decreases |rest|
    {
      var p :| p in rest;
      names := names + [p];
      rest := rest - {p};
    }
  }

  lemma SortedBackups(found: seq<string>, S: set<string>)
    requires Distinct(found)
    requires forall p :: p in found <==> p in S
    ensures SortedListing(Sort(found), S)
  {
    var r := Sort(found);
    assert forall p :: p in r <==> p in found by {
      forall p ensures p in r <==> p in found {
        assert p in r <==> p in multiset(r);
        assert p in found <==> p in multiset(found);
      }
    }
    forall i, j | 0 <= i < j < |r| ensures r[i] != r[j] {
      if r[i] == r[j] {
        DistinctCount(found, r[i]);
        TwoIndicesCount(r, i, j);
        assert false;
      }
    }
  }

  lemma {:induction false} DistinctCount(s: seq<string>, x: string)
    requires Distinct(s)
    ensures multiset(s)[x] <= 1
  {
    if s != [] {
      assert s == [s[0]] + s[1..];
      assert Distinct(s[1..]) by {
        forall i, j | 0 <= i < j < |s[1..]| ensures s[1..][i] != s[1..][j] {
          assert s[1..][i] == s[i + 1] && s[1..][j] == s[j + 1];
        }
      }
      DistinctCount(s[1..], x);
      if x == s[0] {
        assert x !in s[1..] by {
          forall k | 0 <= k < |s[1..]| ensures s[1..][k] != x {
            assert s[1..][k] == s[k + 1];
          }
        }
      }
    }
  }

  lemma TwoIndicesCount(s: seq<string>, i: int, j: int)
    requires 0 <= i < j < |s| && s[i] == s[j]
    ensures multiset(s)[s[i]] >= 2
  {
    var x := s[i];
    assert s == s[..i] + [x] + s[i + 1..j] + [x] + s[j + 1..];
  }

  /** `_trim_backups(limit)`: sorts the backups by name and removes from the
      front until at most `limit` remain. A failed deletion is ignored but
      still counts as handled. A negative limit empties the list and then
      fails on the empty list (`raised`). */
  method TrimBackups(fs: FileSystem, limit: int) returns (kept: seq<string>, removed: seq<string>, raised: bool)
    modifies fs
    ensures SortedListing(removed + kept, BackupFiles(old(fs.files)))
    ensures forall i, j :: 0 <= i < |removed| && 0 <= j < |kept| ==> NameLeq(removed[i], kept[j])
    ensures raised <==> limit < 0
    ensures raised ==> kept == []
    ensures !raised ==> var n := |BackupFiles(old(fs.files))|;
      && |kept| == (if n <= limit then n else limit)
      && |removed| == (if n <= limit then 0 else n - limit)
    ensures |BackupFiles(old(fs.files))| <= limit ==> removed == [] && fs.files == old(fs.files)
    ensures fs.files == old(fs.files) - Deleted(removed, fs.undeletable)
  {
    ghost var S := BackupFiles(fs.files);
    var found := ListBackups(fs);
    SortedBackups(found, S);
    var backups := Sort(found);
    ghost var listing := backups;
    ghost var n := |listing|;
    assert n == |S|;
    removed := [];
    raised := false;
    while |backups| > limit
      invariant listing == removed + backups
      invariant limit >= 0 ==> |backups| >= (if n <= limit then n else limit)
      invariant fs.files == old(fs.files) - Deleted(removed, fs.undeletable)
      decreases |backups|
    {
      if backups == [] {
        raised := true;
        break;
      }
      var victim := backups[0];
      backups := backups[1..];
      ghost var before, done := fs.files, removed;
      removed := removed + [victim];
      var deleted := fs.Unlink(victim);
      UnlinkStep(old(fs.files), before, done, victim, fs.undeletable, fs.files);
    }
    kept := backups;
    SplitOrdered(listing, removed, kept);
  }

  lemma UnlinkStep(files: map<string, Text>, before: map<string, Text>, removed: seq<string>,
                   victim: string, locked: set<string>, after: map<string, Text>)
    requires before == files - Deleted(removed, locked)
    requires after == if victim in before && victim !in locked then before - {victim} else before
    ensures after == files - Deleted(removed + [victim], locked)
  {
    assert Deleted(removed + [victim], locked)
        == Deleted(removed, locked) + (if victim in locked then {} else {victim});
  }

  lemma SplitOrdered(listing: seq<string>, removed: seq<string>, kept: seq<string>)
    requires Sorted(listing) && listing == removed + kept
    ensures forall i, j :: 0 <= i < |removed| && 0 <= j < |kept| ==> NameLeq(removed[i], kept[j])
  {
    forall i, j | 0 <= i < |removed| && 0 <= j < |kept| ensures NameLeq(removed[i], kept[j]) {
      assert listing[i] == removed[i] && listing[|removed| + j] == kept[j];
    }
  }

  /** `save_game`: the record plus metadata goes to the main save file and then
      to the backup for the current second, and old backups are pruned.
      `savedAt` and `clock` are the two readings of the wall clock the save
      takes. */
  method SaveGame(fs: FileSystem, state: Record, savedAt: real, clock: real, backupsToKeep: int := 10)
    returns (kept: seq<string>, removed: seq<string>, raised: bool)
    modifies fs
    ensures var text := Dumps(ToWrite(state, savedAt));
      var backup := BackupPath(Trunc(clock));
      var written := Written(Written(old(fs.files), SavePath, text), backup, text);
      && fs.files == written - Deleted(removed, fs.undeletable)
      && SortedListing(removed + kept, BackupFiles(written))
      && (raised <==> backupsToKeep < 0)
      && (!raised ==> |kept| == (if |BackupFiles(written)| <= backupsToKeep then |BackupFiles(written)| else backupsToKeep))
      && (!raised ==> |removed| == (if |BackupFiles(written)| <= backupsToKeep then 0 else |BackupFiles(written)| - backupsToKeep))
      && SavePath in fs.files && fs.files[SavePath] == text
      && (backup !in removed ==> backup in fs.files && fs.files[backup] == text)
  {
    var text := Dumps(ToWrite(state, savedAt));
    WriteAtomic(fs, SavePath, text);
    var backup := BackupPath(Trunc(clock));
    WriteAtomic(fs, backup, text);
    ghost var written := fs.files;
    kept, removed, raised := TrimBackups(fs, backupsToKeep);
    PathKinds(Trunc(clock), SavePath);
    assert SavePath !in removed by {
      assert !IsBackupPath(SavePath);
      assert SavePath !in BackupFiles(written);
    }
    assert SavePath != backup;
  }

  datatype Loaded = NoSave | Parsed(data: Record) | ParseError

  /** `load_game`: nothing when there is no main save file, otherwise its
      parsed record. */
  method LoadGame(fs: FileSystem) returns (r: Loaded)
    ensures r == NoSave <==> SavePath !in fs.files
    ensures SavePath in fs.files && fs.files[SavePath].Serialized? ==> r == Parsed(fs.files[SavePath].record)
    ensures SavePath in fs.files && fs.files[SavePath].Unreadable? ==> r == ParseError
  {
    if SavePath in fs.files {
      match fs.files[SavePath]
      case Serialized(d) => r := Parsed(d);
      case Unreadable(_) => r := ParseError;
    } else {
      r := NoSave;
    }
  }
}
