/** The parts of the snapshot's git repository the sync relies on: the
    tree a commit records, `git commit` (which fails, harmlessly, when
    nothing changed), `git reset --hard HEAD`, the untracked paths of
    `git status -s` and the `(modes, path)` pairs of
    `git diff --name-status`. */
module Git {
  import opened Json
  import opened Text

  /** What git tracks in the snapshot: the documents and `.gitignore`. */
  datatype Tree = Tree(files: map<string, Json>, ignore: Option<string>)

  /** A commit: its message (the watermark it was made at) and its tree. */
  datatype Commit = Commit(message: Json, tree: Tree)

  const EMPTY: Tree := Tree(map[], None)

  /** The tree HEAD records; a repository without commits records none. */
  function Head(commits: seq<Commit>): Tree {
    if commits == [] then EMPTY else commits[|commits| - 1].tree
  }

  /** `git commit` of the staged tree: a new commit on top of the history,
      unless the staged tree is HEAD's ("nothing to commit" fails and the
      failure is ignored). */
  function Committed(commits: seq<Commit>, staged: Tree, message: Json): (r: seq<Commit>)
    ensures Head(r) == staged
    ensures commits <= r && |r| <= |commits| + 1
    ensures |r| == |commits| <==> staged == Head(commits)
  {
    if staged == Head(commits) then commits else commits + [Commit(message, staged)]
  }

  /** Committing the same tree twice adds nothing the second time. */
  lemma CommitIdempotent(commits: seq<Commit>, staged: Tree, m1: Json, m2: Json)
    ensures Committed(Committed(commits, staged, m1), staged, m2) == Committed(commits, staged, m1)
  {
  }

  /** `git reset --hard HEAD`: every tracked file (staged, or recorded by
      HEAD) takes HEAD's content, or disappears when HEAD does not record
      it; untracked files stay as they are. */
  function ResetHard(work: Tree, index: Tree, head: Tree): (r: Tree)
    ensures forall k :: k in r.files <==> k in head.files || (k in work.files && k !in index.files)
    ensures forall k | k in head.files :: r.files[k] == head.files[k]
    ensures forall k | k in r.files && k !in head.files :: r.files[k] == work.files[k]
    ensures r.ignore == head.ignore || (index.ignore.None? && r.ignore == work.ignore)
    ensures head.ignore.Some? ==> r.ignore == head.ignore
  {
    Tree((map k | k in work.files && k !in index.files && k !in head.files :: work.files[k]) + head.files,
         if head.ignore.Some? || index.ignore.Some? then head.ignore else work.ignore)
  }

  // ------------------------------------------------------------ git status

  /** The paths `git status -s` reports as untracked, one "?? path" line
      each; the other lines are skipped. */
  function UntrackedPaths(lines: seq<string>): (paths: seq<string>)
    ensures |paths| <= |lines|
  {
    if lines == [] then []
    else (if StartsWith(lines[0], "?? ") then [lines[0][3..]] else []) + UntrackedPaths(lines[1..])
  }

  /** How `git status -s` reports a list of untracked paths. */
  function StatusText(paths: seq<string>): string {
    Unlines(seq(|paths|, i requires 0 <= i < |paths| => "?? " + paths[i]))
  }

  /** The untracked paths are read back from git's report, in order. */
  lemma {:induction false} UntrackedRoundTrip(paths: seq<string>)
    requires forall p, j | p in paths && 0 <= j < |p| :: !IsLineBreak(p[j], false)
    ensures UntrackedPaths(SplitLines(StatusText(paths), false)) == paths
  {
    var lines := seq(|paths|, i requires 0 <= i < |paths| => "?? " + paths[i]);
    forall l, j | l in lines && 0 <= j < |l| ensures !IsLineBreak(l[j], false) {
      var i :| 0 <= i < |paths| && lines[i] == l;
      if j >= 3 {
        assert l[j] == paths[i][j - 3];
      }
    }
    SplitUnlines(lines, false);
    UntrackedOfStatusLines(paths);
  }

  lemma {:induction false} UntrackedOfStatusLines(paths: seq<string>)
    ensures UntrackedPaths(seq(|paths|, i requires 0 <= i < |paths| => "?? " + paths[i])) == paths
  {
    var lines := seq(|paths|, i requires 0 <= i < |paths| => "?? " + paths[i]);
    if paths != [] {
      assert lines[0][3..] == paths[0];
      assert lines[1..] == seq(|paths[1..]|, i requires 0 <= i < |paths[1..]| => "?? " + paths[1..][i]);
      UntrackedOfStatusLines(paths[1..]);
      assert paths == [paths[0]] + paths[1..];
    }
  }

  /** Lines none of which starts with "?? " report no untracked path. */
  lemma {:induction false} UntrackedNone(lines: seq<string>)
    requires forall l | l in lines :: !StartsWith(l, "?? ")
    ensures UntrackedPaths(lines) == []
  {
    if lines != [] {
      assert lines[0] in lines;
      assert forall l | l in lines[1..] :: l in lines;
      UntrackedNone(lines[1..]);
    }
  }

  // ---------------------------------------------------------- git diff

  /** The entry of one line of `git diff --name-status`: none unless it
      ends in ".json", else the line split at its first tab into
      (modes, rest). */
  function DiffEntry(line: string): (e: seq<(string, string)>)
    ensures |e| <= 1
    ensures e != [] ==> '\t' !in e[0].0
  {
    var (modes, _, rest) := Partition(line, '\t');
    if EndsWith(line, ".json") then [(modes, rest)] else []
  }

  /** `parse_git_status`, the specification: the entries of the lines,
      in order. */
  function DiffEntries(lines: seq<string>): (entries: seq<(string, string)>)
    ensures |entries| <= |lines|
  {
    if lines == [] then [] else DiffEntry(lines[0]) + DiffEntries(lines[1..])
  }

  /** `parse_git_status(stdout)`: one pass over the output's lines,
      appending each line's entry (if it has one). */
  method ParseGitStatus(stdout: string) returns (results: seq<(string, string)>)
    ensures results == DiffEntries(SplitLines(stdout, false))
  {
    var lines := SplitLines(stdout, false);
    results := [];
    var i := 0;
    while i < |lines|
      invariant i <= |lines|
      invariant results + DiffEntries(lines[i..]) == DiffEntries(lines)
    {
      DiffEntriesStep(lines, i);
      assert results + DiffEntry(lines[i]) + DiffEntries(lines[i + 1..]) == DiffEntries(lines);
      results := results + DiffEntry(lines[i]);
      i := i + 1;
    }
    assert results + DiffEntries([]) == results;
  }

  lemma DiffEntriesStep(lines: seq<string>, i: nat)
    requires i < |lines|
    ensures DiffEntries(lines[i..]) == DiffEntry(lines[i]) + DiffEntries(lines[i + 1..])
  {
    assert lines[i..][1..] == lines[i + 1..];
  }

  /** The entries of two runs of lines are the entries of each, in order. */
  lemma {:induction false} DiffEntriesAppend(a: seq<string>, b: seq<string>)
    ensures DiffEntries(a + b) == DiffEntries(a) + DiffEntries(b)
  {
    if a == [] {
      assert a + b == b;
    } else {
      assert (a + b)[0] == a[0];
      assert (a + b)[1..] == a[1..] + b;
      DiffEntriesAppend(a[1..], b);
      calc {
        DiffEntries(a + b);
        DiffEntry(a[0]) + DiffEntries(a[1..] + b);
        DiffEntry(a[0]) + (DiffEntries(a[1..]) + DiffEntries(b));
        (DiffEntry(a[0]) + DiffEntries(a[1..])) + DiffEntries(b);
      }
    }
  }

  /** How `git diff --name-status` prints one (modes, path) pair. */
  function DiffLine(e: (string, string)): string {
    e.0 + "\t" + e.1
  }

  /** The lines of a list of pairs, one per pair, in order. */
  function DiffLines(entries: seq<(string, string)>): (lines: seq<string>)
    ensures |lines| == |entries|
  {
    if entries == [] then [] else [DiffLine(entries[0])] + DiffLines(entries[1..])
  }

  /** How `git diff --name-status` prints a list of (modes, path) pairs. */
  function DiffText(entries: seq<(string, string)>): string {
    Unlines(DiffLines(entries))
  }

  /** Every line printed is the line of one of the pairs. */
  lemma {:induction false} DiffLinesFrom(entries: seq<(string, string)>, l: string)
    requires l in DiffLines(entries)
    ensures exists e | e in entries :: l == DiffLine(e)
  {
    if l != DiffLine(entries[0]) {
      DiffLinesFrom(entries[1..], l);
      var e :| e in entries[1..] && l == DiffLine(e);
      assert e in entries;
    }
  }

  /** Entries for ".json" paths are read back from git's report, in order. */
  lemma DiffRoundTrip(entries: seq<(string, string)>)
    requires forall e | e in entries :: '\t' !in e.0 && OneLine(e.0, false) && OneLine(e.1, false) && EndsWith(e.1, ".json")
    ensures DiffEntries(SplitLines(DiffText(entries), false)) == entries
  {
    var lines := DiffLines(entries);
    forall l, j | l in lines && 0 <= j < |l| ensures !IsLineBreak(l[j], false) {
      DiffLinesFrom(entries, l);
      var e :| e in entries && l == DiffLine(e);
      if j < |e.0| {
        assert l[j] == e.0[j];
      } else if j > |e.0| {
        assert l[j] == e.1[j - |e.0| - 1];
      }
    }
    SplitUnlines(lines, false);
    assert forall i | 0 <= i < |entries| :: Printable(entries[i]) by {
      forall i | 0 <= i < |entries| ensures Printable(entries[i]) {
        assert entries[i] in entries;
      }
    }
    DiffOfLines(entries);
  }

  /** A pair whose line reads back as itself: modes without a tab, a
      ".json" path. */
  predicate Printable(e: (string, string)) {
    '\t' !in e.0 && EndsWith(e.1, ".json")
  }

  lemma {:induction false} DiffOfLines(entries: seq<(string, string)>)
    requires forall i | 0 <= i < |entries| :: Printable(entries[i])
    ensures DiffEntries(DiffLines(entries)) == entries
  {
    if entries != [] {
      var e, rest := entries[0], entries[1..];
      assert Printable(e);
      DiffLineEntry(e.0, e.1);
      assert forall i | 0 <= i < |rest| :: Printable(rest[i]) by {
        forall i | 0 <= i < |rest| ensures Printable(rest[i]) {
          assert rest[i] == entries[i + 1];
        }
      }
      DiffOfLines(rest);
      DiffLinesCons(entries);
      assert entries == [e] + rest;
    }
  }

  /** The entries of a run of lines: the first line's, then the rest's. */
  lemma DiffLinesCons(entries: seq<(string, string)>)
    requires entries != []
    ensures DiffEntries(DiffLines(entries)) == DiffEntry(DiffLine(entries[0])) + DiffEntries(DiffLines(entries[1..]))
  {
    var lines := DiffLines(entries);
    assert lines[0] == DiffLine(entries[0]) && lines[1..] == DiffLines(entries[1..]);
  }

  /** The line git prints for a ".json" path is read back as its entry. */
  lemma DiffLineEntry(modes: string, path: string)
    requires '\t' !in modes && EndsWith(path, ".json")
    ensures DiffEntry(DiffLine((modes, path))) == [(modes, path)]
  {
    var line := DiffLine((modes, path));
    PartitionAt(modes, '\t', path);
    assert line == modes + ['\t'] + path;
    assert line[|line| - 5..] == path[|path| - 5..];
  }

  /** A line that does not end in ".json" contributes nothing. */
  lemma DiffSkips(line: string)
    requires !EndsWith(line, ".json")
    ensures DiffEntries([line]) == []
  {
    assert [line][1..] == [];
  }
}
