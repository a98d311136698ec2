/** The snapshot's checkout as both revisions of the sync see it: a map from
    paths (relative to the snapshot root) to decoded JSON documents, the
    directories the documents live in, the `*.json` listing of a directory,
    `write_json` (write a hidden temporary file, then rename it over the
    target) and `nuke` (remove every listed document of a directory). */
module Docs {
  import opened Json
  import opened Text
  import opened Paths

  /** The ticket fields whose values are mirrored, one directory each. */
  const FIELDS: seq<string> :=
    ["component", "priority", "resolution", "severity", "type", "version", "milestone"]

  function FieldDir(f: string): string { "field/" + f }

  /** The snapshot's document directories. */
  const DIRS: seq<string> :=
    ["report", "ticket", "changelog", "field/component", "field/priority", "field/resolution",
     "field/severity", "field/type", "field/version", "field/milestone"]

  /** The document directories are the three fixed ones and one per field,
      each once. */
  lemma DirsOfFields()
    ensures DIRS[..3] == ["report", "ticket", "changelog"]
    ensures |DIRS| == 3 + |FIELDS| && forall i | 0 <= i < |FIELDS| :: DIRS[3 + i] == FieldDir(FIELDS[i])
    ensures forall i, j | 0 <= i < j < |DIRS| :: DIRS[i] != DIRS[j]
  {
  }

  /** The watermark used when none is stored. */
  const MIN_RECENT: string := "2000-01-01T00:00:00"

  /** `ticket_changed(lst)`: unpack exactly four items and take the third.
      A list of four gives its third member and a string of four characters
      its third character; a shorter or longer one is a ValueError, and
      None, a bool or a number cannot be unpacked (TypeError). */
  function TicketChanged(info: Json): (r: Result<Json>)
    ensures info.JList? && |info.items| == 4 ==> r == Ok(info.items[2])
    ensures info.JStr? && |info.s| == 4 ==> r == Ok(JStr([info.s[2]]))
    ensures r.Ok? ==> (info.JList? && |info.items| == 4) || (info.JStr? && |info.s| == 4)
    ensures (info.JNull? || info.JBool? || info.JInt?) ==> r == Err(TypeError)
  {
    match info
    case JList(xs) => if |xs| == 4 then Ok(xs[2]) else Err(ValueError)
    case JStr(s) => if |s| == 4 then Ok(JStr([s[2]])) else Err(ValueError)
    case JObj(_) => Err(ValueError)
    case _ => Err(TypeError)
  }

  /** A file whose name starts with "." (the temporary files of
      `write_json`, and no `*.json` glob lists them). */
  predicate Hidden(k: string) {
    StartsWith(Basename(k), ".")
  }

  /** the `*.json` glob of `dir` lists `k`: a visible `.json` file directly
      inside `dir`. */
  predicate Listed(k: string, dir: string) {
    StartsWith(k, dir + "/") && '/' !in k[|dir| + 1..] && GlobJson(k[|dir| + 1..])
  }

  lemma ListedVisible(k: string, dir: string)
    requires Listed(k, dir)
    ensures !Hidden(k)
  {
    var name := k[|dir| + 1..];
    assert k[|k| - |name|..] == name;
    assert k[|dir|] == (dir + "/")[|dir|];
    BasenameOfSuffix(k, name);
  }

  /** A listed file's directory is determined by its path. */
  lemma ListedOnce(k: string, d1: string, d2: string)
    requires Listed(k, d1) && Listed(k, d2)
    ensures d1 == d2
  {
    if |d1| < |d2| {
      NoSlashAfterDir(k, d1, |d2|);
      assert false;
    } else if |d2| < |d1| {
      NoSlashAfterDir(k, d2, |d1|);
      assert false;
    } else {
      assert d1 == k[..|d1|] == d2;
    }
  }

  /** A listed file has no "/" after its directory's. */
  lemma NoSlashAfterDir(k: string, dir: string, i: nat)
    requires Listed(k, dir) && |dir| < i < |k|
    ensures k[i] != '/'
  {
    assert k[i] == k[|dir| + 1..][i - |dir| - 1];
  }

  /** The `*.json` glob of `dir` over a listing of the checkout, in the
      listing's order. */
  function Glob(listing: seq<string>, dir: string): (fns: seq<string>)
    ensures forall k :: k in fns <==> k in listing && Listed(k, dir)
    decreases |listing|
  {
    if listing == [] then []
    else (if Listed(listing[0], dir) then [listing[0]] else []) + Glob(listing[1..], dir)
  }

  /** The snapshot after `write_json(fn, data)`: the temporary file
      (written, then renamed) is gone and `fn` holds `data`. */
  function Written(files: map<string, Json>, fn: string, data: Json): (r: map<string, Json>)
    ensures fn in r && r[fn] == data
    ensures TempPath(fn) !in r
    ensures forall k | k in files && k != fn && k != TempPath(fn) :: k in r && r[k] == files[k]
    ensures forall k | k in r :: k == fn || k in files
  {
    var tmp := TempPath(fn);
    TempPathHidden(fn);
    (files - {tmp})[fn := data]
  }

  /** The snapshot after a run of writes, in order. */
  function WriteAll(files: map<string, Json>, writes: seq<(string, Json)>): map<string, Json>
    decreases |writes|
  {
    if writes == [] then files else WriteAll(Written(files, writes[0].0, writes[0].1), writes[1..])
  }

  /** The snapshot after `nuke(dir)`: every listed document removed. */
  function Nuked(files: map<string, Json>, dir: string): (r: map<string, Json>)
    ensures forall k :: k in r <==> k in files && !Listed(k, dir)
    ensures forall k | k in r :: r[k] == files[k]
  {
    map k | k in files && !Listed(k, dir) :: files[k]
  }

  /** The snapshot's working tree of documents. */
  class Disk {
    var files: map<string, Json>

    constructor(files0: map<string, Json>)
      ensures files == files0
    {
      files := files0;
    }

    /** `write_json(fn, data)`: write `data` to the hidden file next to
        `fn`, then rename that file to `fn`. */
    method WriteJson(fn: string, data: Json)
      modifies this
      ensures files == Written(old(files), fn, data)
    {
      var tmp := TempPath(fn);
      ghost var prev := files;
      files := files[tmp := data];
      var written := files[tmp];
      files := (files - {tmp})[fn := written];
      assert files == (prev - {tmp})[fn := data];
    }

    /** `nuke(dir)`: remove, one by one, every file the glob lists. */
    method Nuke(dir: string)
      modifies this
      ensures files == Nuked(old(files), dir)
    {
      var doomed := set k | k in files && Listed(k, dir);
      ghost var start := files;
      while doomed != {}
        invariant doomed <= start.Keys
        invariant forall k :: k in files <==> k in start && (!Listed(k, dir) || k in doomed)
        invariant forall k | k in files :: files[k] == start[k]
        decreases doomed
      {
        var k :| k in doomed;
        files := files - {k};
        doomed := doomed - {k};
      }
      assert files == Nuked(start, dir);
    }
  }

  // ---------------------------------------------------------------- lemmas

  /** A run of writes followed by one more write. */
  lemma {:induction false} WriteAllSnoc(files: map<string, Json>, writes: seq<(string, Json)>, fn: string, data: Json)
    ensures WriteAll(files, writes + [(fn, data)]) == Written(WriteAll(files, writes), fn, data)
    decreases |writes|
  {
    if writes == [] {
      assert writes + [(fn, data)] == [(fn, data)];
      assert [(fn, data)][1..] == [];
    } else {
      assert (writes + [(fn, data)])[0] == writes[0];
      assert (writes + [(fn, data)])[1..] == writes[1..] + [(fn, data)];
      WriteAllSnoc(Written(files, writes[0].0, writes[0].1), writes[1..], fn, data);
    }
  }

  /** A visible file no write names keeps its presence and contents. */
  lemma {:induction false} WriteAllUntouched(files: map<string, Json>, writes: seq<(string, Json)>, k: string)
    requires !Hidden(k)
    requires forall j | 0 <= j < |writes| :: writes[j].0 != k
    ensures k in WriteAll(files, writes) <==> k in files
    ensures k in files ==> WriteAll(files, writes)[k] == files[k]
    decreases |writes|
  {
    if writes != [] {
      TempPathHidden(writes[0].0);
      assert k != TempPath(writes[0].0);
      WriteAllUntouched(Written(files, writes[0].0, writes[0].1), writes[1..], k);
    }
  }

  /** A visible file holds the document of the last write that names it. */
  lemma {:induction false} WriteAllLast(files: map<string, Json>, writes: seq<(string, Json)>, j: nat)
    requires j < |writes| && !Hidden(writes[j].0)
    requires forall i | j < i < |writes| :: writes[i].0 != writes[j].0
    ensures writes[j].0 in WriteAll(files, writes)
    ensures WriteAll(files, writes)[writes[j].0] == writes[j].1
    decreases |writes|
  {
    var next := Written(files, writes[0].0, writes[0].1);
    if j == 0 {
      WriteAllUntouched(next, writes[1..], writes[0].0);
    } else {
      WriteAllLast(next, writes[1..], j - 1);
    }
  }

  /** Which visible files exist after a run of writes: the ones there
      before and the ones written. */
  lemma WriteAllKeys(files: map<string, Json>, writes: seq<(string, Json)>, k: string)
    requires !Hidden(k)
    ensures k in WriteAll(files, writes) <==> k in files || exists j | 0 <= j < |writes| :: writes[j].0 == k
  {
    if j :| 0 <= j < |writes| && writes[j].0 == k {
      var last := LastIndex(writes, k, j);
      WriteAllLast(files, writes, last);
    } else {
      WriteAllUntouched(files, writes, k);
    }
  }

  /** The last index at or after `j` whose write names `k`. */
  lemma {:induction false} LastIndex(writes: seq<(string, Json)>, k: string, j: nat) returns (last: nat)
    requires j < |writes| && writes[j].0 == k
    ensures j <= last < |writes| && writes[last].0 == k
    ensures forall i | last < i < |writes| :: writes[i].0 != k
    decreases |writes| - j
  {
    if i :| j < i < |writes| && writes[i].0 == k {
      last := LastIndex(writes, k, i);
    } else {
      last := j;
    }
  }

  /** Nuking a directory and writing documents into it leaves exactly the
      written documents listed there. */
  lemma NukeThenWrite(files: map<string, Json>, dir: string, writes: seq<(string, Json)>, k: string)
    requires Listed(k, dir)
    ensures k in WriteAll(Nuked(files, dir), writes) <==> exists j | 0 <= j < |writes| :: writes[j].0 == k
  {
    ListedVisible(k, dir);
    WriteAllKeys(Nuked(files, dir), writes, k);
  }
}
