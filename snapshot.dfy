/** The snapshot database of the current sync (`DB`): the checkout's
    documents, the metadata document "db.json", the git history behind the
    checkout with its `git_head` cache, the `.gitignore` file, and the
    operations `cleanup`, `gitignore`, `read_metadata`, `write_metadata`,
    `upgrade`, `checkpoint`, `init` and `pull`. */
module Snapshot {
  import opened Json
  import opened Text
  import opened PyValue
  import opened Paths
  import opened Docs
  import opened Remote
  import opened Git
  import Ignore
  import opened Sync

  /** The metadata format this revision accepts. */
  const VERSION: int := 2

  /** The metadata document, at the root of the snapshot. */
  const METADATA: string := "db.json"

  /** The ignore file, at the root of the snapshot. */
  const GITIGNORE: string := ".gitignore"

  /** `DB.recent`: the stored watermark, or `MIN_RECENT` when none is
      stored. Metadata that is not a dictionary has no `.get`. */
  function Recent(metadata: Json): (r: Result<Json>)
    ensures r.Ok? <==> metadata.JObj?
    ensures r.Err? ==> r.fault == AttributeError
  {
    if !metadata.JObj? then Err(AttributeError)
    else if "recent" in metadata.fields then Ok(metadata.fields["recent"])
    else Ok(JStr(MIN_RECENT))
  }

  /** `DB.upgrade`: the stored version (the current one when none is
      stored) must be the current one, and an older one is refused. Any
      other version fails the assertion `metadata['version'] > dbver`, which
      compares the stored version with itself, so the loop never goes round
      a second time. */
  function UpgradeCheck(metadata: Json): Result<()> {
    if !metadata.JObj? then Err(AttributeError)
    else
      var dbver := if "version" in metadata.fields then metadata.fields["version"] else JInt(VERSION);
      if PyEq(dbver, JInt(VERSION)) then Ok(())
      else if PyLess(dbver, JInt(2)) then Err(DBError)
      else Err(AssertionError)
  }

  /** The version check as a state machine: no version or version 2 passes,
      an older number is refused (and so is None, which Python 2 puts below
      every number), a newer number or a string fails the assertion. */
  lemma UpgradeStates(metadata: Json)
    ensures !metadata.JObj? ==> UpgradeCheck(metadata) == Err(AttributeError)
    ensures metadata.JObj? && "version" !in metadata.fields ==> UpgradeCheck(metadata) == Ok(())
    ensures metadata.JObj? && "version" in metadata.fields ==>
      var v := metadata.fields["version"];
      (IsNumber(v) ==>
        UpgradeCheck(metadata) ==
        (if Num(v) == VERSION then Ok(()) else if Num(v) < VERSION then Err(DBError) else Err(AssertionError))) &&
      (v.JNull? ==> UpgradeCheck(metadata) == Err(DBError)) &&
      (v.JStr? ==> UpgradeCheck(metadata) == Err(AssertionError))
  {
    if metadata.JObj? && "version" in metadata.fields {
      var v := metadata.fields["version"];
      if IsNumber(v) {
        PyLessNumbers(v, JInt(2));
      }
    }
  }

  // ------------------------------------------------------------- cleanup

  /** `git reset --hard HEAD`, which fails (and the failure is ignored) in
      a repository without commits: the new working tree and index. */
  function Reset(work: Tree, index: Tree, commits: seq<Commit>): (Tree, Tree) {
    if commits == [] then (work, index) else (ResetHard(work, index, Head(commits)), Head(commits))
  }

  /** What `cleanup` leaves, given the stderr of `git status -s` it
      filters: the reset tree with the paths of its "?? " lines removed,
      and how the removals ended. */
  function Cleaned(work: Tree, index: Tree, commits: seq<Commit>, stderr: string): Removal {
    RemoveAll(Reset(work, index, commits).0, UntrackedPaths(SplitLines(stderr, false)))
  }

  /** The metadata `read_metadata` leaves: "db.json" when it exists, the
      metadata held before otherwise. */
  function Loaded(files: map<string, Json>, metadata: Json): Json {
    if METADATA in files then files[METADATA] else metadata
  }

  /** The working tree after some removals and how they ended. */
  datatype Removal = Removal(tree: Tree, result: Result<()>)

  /** `os.remove` of each path in turn. A path that names no file (a
      directory git reports as a whole, or one already removed) cannot be
      removed (OSError), and the removals stop there. */
  function RemoveAll(work: Tree, paths: seq<string>): Removal
    decreases |paths|
  {
    if paths == [] then Removal(work, Ok(()))
    else if paths[0] == GITIGNORE then
      if work.ignore.None? then Removal(work, Err(OSError))
      else RemoveAll(Tree(work.files, None), paths[1..])
    else if paths[0] in work.files then
      RemoveAll(Tree(work.files - {paths[0]}, work.ignore), paths[1..])
    else Removal(work, Err(OSError))
  }

  /** `path` is a file of the working tree that `index` does not track. */
  predicate Untracked(work: Tree, index: Tree, path: string) {
    (path in work.files && path !in index.files) ||
    (path == GITIGNORE && work.ignore.Some? && index.ignore.None?)
  }

  predicate NoDuplicates(paths: seq<string>) {
    forall i, j | 0 <= i < j < |paths| :: paths[i] != paths[j]
  }

  /** `cleanup` as written filters the lines of `git status -s`'s stderr
      (the third item `check_call` returns), while git prints its report
      on stdout; stderr carries no "?? " line. So nothing is removed: a
      file the reset leaves untracked stays, and the working tree is not
      the tree HEAD records. */
  lemma CleanupKeepsUntracked(work: Tree, index: Tree, commits: seq<Commit>, stderr: string, p: string)
    requires forall l | l in SplitLines(stderr, false) :: !StartsWith(l, "?? ")
    requires Untracked(Reset(work, index, commits).0, Head(commits), p)
    ensures Cleaned(work, index, commits, stderr) == Removal(Reset(work, index, commits).0, Ok(()))
    ensures Untracked(Cleaned(work, index, commits, stderr).tree, Head(commits), p)
    ensures Cleaned(work, index, commits, stderr).tree != Head(commits)
  {
    UntrackedNone(SplitLines(stderr, false));
  }

  /** `cleanup` as intended, filtering the report `git status -s` prints
      on stdout, which lists exactly the untracked files: the working tree
      becomes the tree HEAD records. */
  lemma CleanupRestoresHead(work: Tree, index: Tree, commits: seq<Commit>, paths: seq<string>)
    requires commits != []
    requires GITIGNORE !in work.files && GITIGNORE !in Head(commits).files
    requires forall p | p in paths :: OneLine(p, false)
    requires NoDuplicates(paths)
    requires forall p :: p in paths <==> Untracked(Reset(work, index, commits).0, Head(commits), p)
    ensures RemoveAll(Reset(work, index, commits).0, UntrackedPaths(SplitLines(StatusText(paths), false))) ==
      Removal(Head(commits), Ok(()))
  {
    UntrackedRoundTrip(paths);
    RemoveUntracked(Reset(work, index, commits).0, Head(commits), paths);
  }

  /** Removing exactly the untracked files of a tree that agrees with
      `head` on every file `head` records leaves `head`. */
  lemma {:induction false} RemoveUntracked(work: Tree, head: Tree, paths: seq<string>)
    requires GITIGNORE !in work.files && GITIGNORE !in head.files
    requires forall k | k in head.files :: k in work.files && work.files[k] == head.files[k]
    requires head.ignore.Some? ==> work.ignore == head.ignore
    requires NoDuplicates(paths)
    requires forall p :: p in paths <==> Untracked(work, head, p)
    ensures RemoveAll(work, paths) == Removal(head, Ok(()))
    decreases |paths|
  {
    if paths == [] {
      forall k | k in work.files ensures k in head.files {
        assert !Untracked(work, head, k);
      }
      assert work.files == head.files;
      assert !Untracked(work, head, GITIGNORE);
    } else {
      var p := paths[0];
      assert p in paths;
      var next := if p == GITIGNORE then Tree(work.files, None) else Tree(work.files - {p}, work.ignore);
      forall q ensures q in paths[1..] <==> Untracked(next, head, q) {
        if q in paths[1..] {
          var i :| 0 <= i < |paths[1..]| && paths[1..][i] == q;
          assert paths[i + 1] == q && q != p;
          assert q in paths;
        }
        if Untracked(next, head, q) {
          assert Untracked(work, head, q) && q != p;
          assert q in paths;
        }
      }
      RemoveUntracked(next, head, paths[1..]);
    }
  }

  /** The untracked paths of the lines from the `i`th on: the `i`th
      line's, then the rest's. */
  lemma UntrackedStep(lines: seq<string>, i: nat)
    requires i < |lines|
    ensures UntrackedPaths(lines[i..]) ==
      (if StartsWith(lines[i], "?? ") then [lines[i][3..]] else []) + UntrackedPaths(lines[i + 1..])
  {
    assert lines[i..][1..] == lines[i + 1..];
  }

  /** Removing `p`, then the rest. */
  lemma RemoveFirst(work: Tree, p: string, rest: seq<string>)
    ensures RemoveAll(work, [p] + rest) ==
      if p == GITIGNORE then
        (if work.ignore.None? then Removal(work, Err(OSError)) else RemoveAll(Tree(work.files, None), rest))
      else if p in work.files then RemoveAll(Tree(work.files - {p}, work.ignore), rest)
      else Removal(work, Err(OSError))
  {
    assert ([p] + rest)[0] == p && ([p] + rest)[1..] == rest;
  }

  // --------------------------------------------------- the snapshot object

  /** The pull's bookkeeping after the stages, before the checkpoint: the
      checkout, the metadata and how the pull ended. */
  datatype Pulled = Pulled(files: map<string, Json>, metadata: Json, result: Result<()>)

  /** `DB.pull` up to the checkpoint: the report stage and the field stages
      (both nuking their directories first), then the rest. */
  function PullSpec(files: map<string, Json>, metadata: Json, t: Tracker): Pulled {
    PullRestSpec(FieldsDone(files, t, true), metadata, t.rpc)
  }

  /** The rest of `DB.pull` after the field stages ended with `fields`: the
      ticket stage from the stored watermark, then the new watermark stored
      in the metadata and the metadata written. The first failing step
      ends the pull. */
  function PullRestSpec(fields: Outcome, metadata: Json, rpc: (string, seq<Json>) -> Json): Pulled {
    if fields.result.Err? then Pulled(fields.files, metadata, fields.result)
    else match Recent(metadata)
      case Err(e) => Pulled(fields.files, metadata, Err(e))
      case Ok(recent) =>
        var tickets := TicketsStage(fields.files, recent, rpc);
        if tickets.result.Err? then Pulled(tickets.files, metadata, tickets.result)
        else
          var m := JObj(metadata.fields["recent" := tickets.recent]);
          Pulled(Written(tickets.files, METADATA, m), m, Ok(()))
  }

  // ------------------------------------------------ what a pull leaves

  /** How the rest of a pull ends well: the stored watermark can be read,
      the ticket stage ends well, and the metadata, with the new watermark
      stored, is written last. */
  lemma RestParts(fields: Outcome, metadata: Json, rpc: (string, seq<Json>) -> Json)
    requires PullRestSpec(fields, metadata, rpc).result.Ok?
    ensures fields.result.Ok? && Recent(metadata).Ok?
    ensures var tickets := TicketsStage(fields.files, Recent(metadata).value, rpc);
      var p := PullRestSpec(fields, metadata, rpc);
      tickets.result.Ok? &&
      p.metadata == JObj(metadata.fields["recent" := tickets.recent]) &&
      p.files == Written(tickets.files, METADATA, p.metadata)
  {
  }

  /** The rest of a pull, however it ends, leaves alone every visible
      file outside "ticket/" and "changelog/" other than the metadata. */
  lemma RestKeeps(fields: Outcome, metadata: Json, rpc: (string, seq<Json>) -> Json, k: string)
    requires !Hidden(k) && k != METADATA && !StartsWith(k, "ticket/") && !StartsWith(k, "changelog/")
    ensures var p := PullRestSpec(fields, metadata, rpc);
      (k in p.files <==> k in fields.files) && (k in fields.files ==> p.files[k] == fields.files[k])
  {
    if fields.result.Ok? && Recent(metadata).Ok? {
      var tickets := TicketsStage(fields.files, Recent(metadata).value, rpc);
      TicketsStageKeeps(fields.files, Recent(metadata).value, rpc, k);
      if tickets.result.Ok? {
        MetadataApart(tickets.files, PullRestSpec(fields, metadata, rpc).metadata, k);
      }
    }
  }

  /** Writing the metadata leaves every other visible file as it was. */
  lemma MetadataApart(files: map<string, Json>, m: Json, k: string)
    requires !Hidden(k) && k != METADATA
    ensures var w := Written(files, METADATA, m);
      (k in w <==> k in files) && (k in files ==> w[k] == files[k])
  {
    TempPathHidden(METADATA);
    assert Hidden(TempPath(METADATA));
  }

  /** The checkout after the report and field stages of a pull (which
      empty their directories first when `nuke` is set). */
  function FieldsDone(files: map<string, Json>, t: Tracker, nuke: bool): Outcome {
    FieldsStage(ReportStage(files, t, nuke), FIELDS, t.rpc, nuke)
  }

  /** No file under `dir` lies in a field's directory, when `dir` does not
      start with "f". */
  lemma OutsideFields(k: string, dir: string)
    requires StartsWith(k, dir + "/") && dir != [] && dir[0] != 'f'
    ensures forall g | g in FIELDS :: !StartsWith(k, FieldDir(g) + "/")
  {
    forall g | g in FIELDS ensures !StartsWith(k, FieldDir(g) + "/") {
      PrefixesDiffer(k, dir + "/", FieldDir(g) + "/");
    }
  }

  /** `k` is the file of a report of the listing. */
  predicate ReportFile(t: Tracker, k: string) {
    exists row | row in ReportList(t.reportTab) :: IdFile("report", row.0) == k
  }

  /** After the report and field stages the report directory lists
      exactly the reports of the listing, each holding its title and SQL
      text. */
  lemma ReportsAfterFields(files: map<string, Json>, t: Tracker, k: string)
    requires Listed(k, "report")
    ensures var f := FieldsDone(files, t, true).files;
      (k in f <==> ReportFile(t, k)) &&
      (k in f ==> exists row | row in ReportList(t.reportTab) ::
        IdFile("report", row.0) == k && f[k] == ReportDoc(row.1, t.reportSql(row.0)))
  {
    var reports := ReportStage(files, t, true);
    ListedVisible(k, "report");
    ReportStageExact(files, t, k);
    if k in reports {
      ReportStageContent(files, t, true, k);
    }
    OutsideFields(k, "report");
    FieldsStageKeeps(reports, FIELDS, t.rpc, true, k);
  }

  /** After a pull that ends well the report directory lists exactly the
      reports of the listing. */
  lemma PullReportDir(files: map<string, Json>, metadata: Json, t: Tracker, k: string)
    requires PullSpec(files, metadata, t).result.Ok? && Listed(k, "report")
    ensures k in PullSpec(files, metadata, t).files <==> ReportFile(t, k)
  {
    ListedVisible(k, "report");
    ReportsAfterFields(files, t, k);
    PrefixesDiffer(k, "report/", "ticket/");
    PrefixesDiffer(k, "report/", "changelog/");
    PrefixesDiffer(k, "report/", METADATA);
    RestKeeps(FieldsDone(files, t, true), metadata, t.rpc, k);
  }

  /** After a pull that ends well each report holds its title and SQL
      text. */
  lemma PullReportContent(files: map<string, Json>, metadata: Json, t: Tracker, k: string)
    requires PullSpec(files, metadata, t).result.Ok? && Listed(k, "report")
    requires k in PullSpec(files, metadata, t).files
    ensures exists row | row in ReportList(t.reportTab) ::
      IdFile("report", row.0) == k && PullSpec(files, metadata, t).files[k] == ReportDoc(row.1, t.reportSql(row.0))
  {
    ListedVisible(k, "report");
    ReportsAfterFields(files, t, k);
    PrefixesDiffer(k, "report/", "ticket/");
    PrefixesDiffer(k, "report/", "changelog/");
    PrefixesDiffer(k, "report/", METADATA);
    RestKeeps(FieldsDone(files, t, true), metadata, t.rpc, k);
  }

  /** The field names contain no "/". */
  lemma FieldsPlain()
    ensures forall g | g in FIELDS :: '/' !in g
  {
  }

  /** A file listed in a field's directory lies under "field/". */
  lemma InFieldDir(k: string, f: string)
    requires Listed(k, FieldDir(f))
    ensures StartsWith(k, "field/")
  {
    assert FieldDir(f) + "/" == "field/" + (f + "/");
    StartsWithPrefix(k, "field/", f + "/");
  }

  /** After a pull that ends well the directory of each field lists
      exactly the values fetched for it. */
  lemma PullFieldDir(files: map<string, Json>, metadata: Json, t: Tracker, f: string, k: string)
    requires PullSpec(files, metadata, t).result.Ok?
    requires f in FIELDS && Listed(k, FieldDir(f))
    ensures FieldIds(f, t.rpc).Ok?
    ensures k in PullSpec(files, metadata, t).files <==> FieldNames(f, FieldIds(f, t.rpc).value, k)
  {
    var fields := FieldsDone(files, t, true);
    RestParts(fields, metadata, t.rpc);
    FieldsPlain();
    FieldsStageExact(ReportStage(files, t, true), FIELDS, t.rpc, f, k);
    ListedVisible(k, FieldDir(f));
    InFieldDir(k, f);
    PrefixesDiffer(k, "field/", "ticket/");
    PrefixesDiffer(k, "field/", "changelog/");
    PrefixesDiffer(k, "field/", METADATA);
    RestKeeps(fields, metadata, t.rpc, k);
  }

  /** The ids of the tickets changed since the stored watermark. */
  function ChangedIds(metadata: Json, t: Tracker): Result<seq<Json>> {
    var recent :- Recent(metadata);
    TicketIds(recent, t.rpc)
  }

  /** A visible file outside "report/" and "field/" reaches the ticket
      stage as it was. */
  lemma FieldsDoneKeeps(files: map<string, Json>, t: Tracker, nuke: bool, k: string)
    requires !Hidden(k) && !StartsWith(k, "report/") && !StartsWith(k, "field/")
    ensures var f := FieldsDone(files, t, nuke).files;
      (k in f <==> k in files) && (k in files ==> f[k] == files[k])
  {
    ReportStageKeeps(files, t, nuke, k);
    forall g | g in FIELDS ensures !StartsWith(k, FieldDir(g) + "/") {
      if StartsWith(k, FieldDir(g) + "/") {
        StartsWithPrefix(k, "field/", g + "/");
        assert false;
      }
    }
    FieldsStageKeeps(ReportStage(files, t, nuke), FIELDS, t.rpc, nuke, k);
  }

  /** The files under "ticket/" that a pull that ends well adds to those
      already there are exactly the files of the changed tickets. */
  lemma PullTicketFiles(files: map<string, Json>, metadata: Json, t: Tracker, k: string)
    requires PullSpec(files, metadata, t).result.Ok?
    requires !Hidden(k) && StartsWith(k, "ticket/")
    ensures ChangedIds(metadata, t).Ok?
    ensures var ids := ChangedIds(metadata, t).value;
      k in PullSpec(files, metadata, t).files <==>
      k in files || exists j | 0 <= j < |ids| :: FileName("ticket", ids[j], false) == Ok(k)
  {
    var fields := FieldsDone(files, t, true);
    RestParts(fields, metadata, t.rpc);
    PrefixesDiffer(k, "ticket/", "report/");
    PrefixesDiffer(k, "ticket/", "field/");
    FieldsDoneKeeps(files, t, true, k);
    TicketsStageTickets(fields.files, Recent(metadata).value, t.rpc, k);
    PrefixesDiffer(k, "ticket/", METADATA);
    MetadataApart(TicketsStage(fields.files, Recent(metadata).value, t.rpc).files, PullSpec(files, metadata, t).metadata, k);
  }

  /** The same for the changelogs under "changelog/": they are written
      for the same ids as the tickets. */
  lemma PullChangeLogFiles(files: map<string, Json>, metadata: Json, t: Tracker, k: string)
    requires PullSpec(files, metadata, t).result.Ok?
    requires !Hidden(k) && StartsWith(k, "changelog/")
    ensures ChangedIds(metadata, t).Ok?
    ensures var ids := ChangedIds(metadata, t).value;
      k in PullSpec(files, metadata, t).files <==>
      k in files || exists j | 0 <= j < |ids| :: FileName("changelog", ids[j], false) == Ok(k)
  {
    var fields := FieldsDone(files, t, true);
    RestParts(fields, metadata, t.rpc);
    PrefixesDiffer(k, "changelog/", "report/");
    PrefixesDiffer(k, "changelog/", "field/");
    FieldsDoneKeeps(files, t, true, k);
    TicketsStageChangeLogs(fields.files, Recent(metadata).value, t.rpc, k);
    PrefixesDiffer(k, "changelog/", METADATA);
    MetadataApart(TicketsStage(fields.files, Recent(metadata).value, t.rpc).files, PullSpec(files, metadata, t).metadata, k);
  }

  /** A pull that ends well leaves every other visible file as it was:
      one outside the report and field directories that is neither the
      metadata nor the ticket or changelog file of a changed ticket. */
  lemma PullUntouched(files: map<string, Json>, metadata: Json, t: Tracker, k: string)
    requires PullSpec(files, metadata, t).result.Ok?
    requires !Hidden(k) && k != METADATA && !StartsWith(k, "report/") && !StartsWith(k, "field/")
    requires ChangedIds(metadata, t).Ok?
    requires var ids := ChangedIds(metadata, t).value;
      forall j | 0 <= j < |ids| :: FileName("ticket", ids[j], false) != Ok(k) && FileName("changelog", ids[j], false) != Ok(k)
    ensures var p := PullSpec(files, metadata, t);
      (k in p.files <==> k in files) && (k in files ==> p.files[k] == files[k])
  {
    var fields := FieldsDone(files, t, true);
    RestParts(fields, metadata, t.rpc);
    FieldsDoneKeeps(files, t, true, k);
    TicketsStageUntouched(fields.files, Recent(metadata).value, t.rpc, k);
    MetadataApart(TicketsStage(fields.files, Recent(metadata).value, t.rpc).files, PullSpec(files, metadata, t).metadata, k);
  }

  /** The metadata the rest of a pull stores, when it ends well: every
      entry but the watermark kept, and written to "db.json". */
  lemma RestMetadata(fields: Outcome, metadata: Json, rpc: (string, seq<Json>) -> Json)
    requires PullRestSpec(fields, metadata, rpc).result.Ok?
    ensures metadata.JObj? && Recent(metadata).Ok?
    ensures var m := PullRestSpec(fields, metadata, rpc).metadata;
      m.JObj? && m.fields.Keys == metadata.fields.Keys + {"recent"} &&
      (forall key | key in metadata.fields && key != "recent" :: m.fields[key] == metadata.fields[key]) &&
      METADATA in PullRestSpec(fields, metadata, rpc).files && PullRestSpec(fields, metadata, rpc).files[METADATA] == m
  {
    RestParts(fields, metadata, rpc);
    var tickets := TicketsStage(fields.files, Recent(metadata).value, rpc);
    StoreRecent(metadata.fields, tickets.recent);
  }

  /** Storing the watermark keeps every other entry of the metadata. */
  lemma StoreRecent(fields: map<string, Json>, recent: Json)
    ensures var m := fields["recent" := recent];
      m.Keys == fields.Keys + {"recent"} && m["recent"] == recent &&
      forall key | key in fields && key != "recent" :: m[key] == fields[key]
  {
  }

  /** The watermark the rest of a pull stores, when it ends well. */
  lemma RestWatermark(fields: Outcome, metadata: Json, rpc: (string, seq<Json>) -> Json)
    requires PullRestSpec(fields, metadata, rpc).result.Ok?
    ensures Recent(metadata).Ok? && TicketIds(Recent(metadata).value, rpc).Ok?
    ensures var m := PullRestSpec(fields, metadata, rpc).metadata;
      var recent := Recent(metadata).value;
      var docs := Payloads(SyncRun(TicketLoop(TicketIds(recent, rpc).value, rpc), recent).writes);
      m.JObj? && "recent" in m.fields && m.fields["recent"] == Watermark(recent, docs) &&
      (recent.JStr? && (forall d | d in docs :: TicketChanged(d).Ok? && TicketChanged(d).value.JStr?) ==>
        m.fields["recent"].JStr? && !LexLess(m.fields["recent"].s, recent.s) &&
        forall d | d in docs :: !LexLess(m.fields["recent"].s, TicketChanged(d).value.s))
  {
    RestParts(fields, metadata, rpc);
    TicketsStageWatermark(fields.files, Recent(metadata).value, rpc);
  }

  /** After a pull that ends well the metadata keeps every entry but the
      watermark, and it is what "db.json" holds. */
  lemma PullMetadata(files: map<string, Json>, metadata: Json, t: Tracker)
    requires PullSpec(files, metadata, t).result.Ok?
    ensures metadata.JObj?
    ensures var m := PullSpec(files, metadata, t).metadata;
      m.JObj? && m.fields.Keys == metadata.fields.Keys + {"recent"} &&
      (forall key | key in metadata.fields && key != "recent" :: m.fields[key] == metadata.fields[key]) &&
      METADATA in PullSpec(files, metadata, t).files && PullSpec(files, metadata, t).files[METADATA] == m
  {
    RestMetadata(FieldsDone(files, t, true), metadata, t.rpc);
  }

  /** After a pull that ends well the watermark is `max` of the stored
      one (or `MIN_RECENT`) and each fetched ticket's `changed` time, in
      order; over ISO time strings it is never earlier than the stored one
      or than any of them. */
  lemma PullWatermark(files: map<string, Json>, metadata: Json, t: Tracker)
    requires PullSpec(files, metadata, t).result.Ok?
    ensures ChangedIds(metadata, t).Ok?
    ensures var m := PullSpec(files, metadata, t).metadata;
      var recent := Recent(metadata).value;
      var docs := Payloads(SyncRun(TicketLoop(ChangedIds(metadata, t).value, t.rpc), recent).writes);
      m.JObj? && "recent" in m.fields && m.fields["recent"] == Watermark(recent, docs) &&
      (recent.JStr? && (forall d | d in docs :: TicketChanged(d).Ok? && TicketChanged(d).value.JStr?) ==>
        m.fields["recent"].JStr? && !LexLess(m.fields["recent"].s, recent.s) &&
        forall d | d in docs :: !LexLess(m.fields["recent"].s, TicketChanged(d).value.s))
  {
    RestWatermark(FieldsDone(files, t, true), metadata, t.rpc);
  }

  class DB {
    /** The checkout's documents. */
    const disk: Disk
    /** What `git rev-parse HEAD` prints for a history; commit ids are not
        modelled. */
    const revParse: seq<Commit> -> string
    var metadata: Json
    /** `_git_head`: the cached id of HEAD. */
    var gitHead: Option<string>
    /** The repository's history, oldest first. */
    var commits: seq<Commit>
    /** What `git add` staged last. */
    var index: Tree
    /** The text of `.gitignore`, when the file exists. */
    var gitignore: Option<string>

    /** The cache never holds a stale id. */
    predicate Valid()
      reads this
    {
      gitHead.Some? ==> commits != [] && gitHead.value == RStrip(revParse(commits))
    }

    /** The working tree git sees. */
    function Work(): Tree
      reads this, disk
    {
      Tree(disk.files, gitignore)
    }

    /** `DB(root)` over an existing checkout and repository: empty
        metadata, nothing cached. */
    constructor(disk0: Disk, revParse0: seq<Commit> -> string, commits0: seq<Commit>, index0: Tree, ignore0: Option<string>)
      ensures disk == disk0 && revParse == revParse0
      ensures metadata == JObj(map[]) && gitHead.None?
      ensures commits == commits0 && index == index0 && gitignore == ignore0
      ensures Valid()
    {
      disk := disk0;
      revParse := revParse0;
      metadata := JObj(map[]);
      gitHead := None;
      commits := commits0;
      index := index0;
      gitignore := ignore0;
    }

    /** `git_head`: the cached id, or the id `git rev-parse HEAD` prints,
        then cached; without commits the command fails. */
    method GitHead() returns (r: Result<string>)
      requires Valid()
      modifies this`gitHead
      ensures Valid()
      ensures commits != [] ==> r == Ok(RStrip(revParse(commits)))
      ensures commits == [] ==> r == Err(ProcessError)
    {
      if gitHead.Some? {
        return Ok(gitHead.value);
      }
      if commits == [] {
        return Err(ProcessError);
      }
      var h := RStrip(revParse(commits));
      gitHead := Some(h);
      return Ok(h);
    }

    /** `checkpoint`: forget the cached id, stage the working tree
        (`git add -A`), and commit it with the watermark as its message;
        a commit with nothing to commit fails and is ignored. */
    method Checkpoint() returns (r: Result<()>)
      requires Valid()
      modifies this`gitHead, this`index, this`commits
      ensures Valid() && gitHead.None?
      ensures index == Work()
      ensures r == if Recent(metadata).Ok? then Ok(()) else Err(AttributeError)
      ensures commits == if Recent(metadata).Ok? then Committed(old(commits), index, Recent(metadata).value) else old(commits)
    {
      gitHead := None;
      index := Tree(disk.files, gitignore);
      var message := Recent(metadata);
      if message.Err? {
        return Err(message.fault);
      }
      commits := Committed(commits, index, message.value);
      return Ok(());
    }

    /** `cleanup`: `git reset --hard HEAD`, then remove every path that a
        "?? " line of `git status -s`'s stderr names, as the program reads
        it (`CleanupKeepsUntracked` shows that this removes nothing, and
        `CleanupRestoresHead` what reading the report on stdout would do). */
    method Cleanup(stderr: string) returns (r: Result<()>)
      modifies this`index, this`gitignore, disk
      ensures var (w, i) := Reset(old(Work()), old(index), commits);
        index == i && Work() == RemoveAll(w, UntrackedPaths(SplitLines(stderr, false))).tree &&
        r == RemoveAll(w, UntrackedPaths(SplitLines(stderr, false))).result
    {
      if commits != [] {
        var reset := ResetHard(Tree(disk.files, gitignore), index, Head(commits));
        disk.files := reset.files;
        gitignore := reset.ignore;
        index := Head(commits);
      }
      assert Work() == Reset(old(Work()), old(index), commits).0;
      ghost var goal := RemoveAll(Work(), UntrackedPaths(SplitLines(stderr, false)));
      var lines := SplitLines(stderr, false);
      assert lines[0..] == lines;
      ghost var staged := index;
      var i := 0;
      while i < |lines|
        invariant i <= |lines|
        invariant index == staged
        invariant RemoveAll(Work(), UntrackedPaths(lines[i..])) == goal
      {
        UntrackedStep(lines, i);
        if StartsWith(lines[i], "?? ") {
          var removed := Remove(lines[i][3..], UntrackedPaths(lines[i + 1..]));
          if !removed {
            return Err(OSError);
          }
        } else {
          assert [] + UntrackedPaths(lines[i + 1..]) == UntrackedPaths(lines[i + 1..]);
        }
        i := i + 1;
      }
      assert lines[i..] == [];
      return Ok(());
    }

    /** `os.remove(path)`: `.gitignore` or a file of the working tree is
        removed, and removing the paths `rest` after it then ends as
        removing both would; a path that names nothing is left alone. */
    method Remove(path: string, ghost rest: seq<string>) returns (removed: bool)
      modifies this`gitignore, disk
      ensures removed ==> RemoveAll(Work(), rest) == RemoveAll(old(Work()), [path] + rest)
      ensures !removed ==> Work() == old(Work()) && RemoveAll(Work(), [path] + rest) == Removal(Work(), Err(OSError))
    {
      RemoveFirst(Work(), path, rest);
      if path == GITIGNORE && gitignore.Some? {
        gitignore := None;
      } else if path != GITIGNORE && path in disk.files {
        disk.files := disk.files - {path};
      } else {
        return false;
      }
      return true;
    }

    /** `gitignore`: append the ignore pattern unless git already reads it
        from `.gitignore`, on a line of its own (creating the file when it
        is missing). The loop looks for the pattern among the file's lines;
        the set of missing patterns has one member, so a flag stands for
        it. */
    method Gitignore()
      modifies this`gitignore
      ensures gitignore == Ignore.GitignoreFixed(old(gitignore))
    {
      var missing := true;
      if gitignore.Some? {
        var lines := Split(gitignore.value, '\n');
        var i := 0;
        while i < |lines|
          invariant i <= |lines|
          invariant gitignore == old(gitignore)
          invariant missing <==> Ignore.IGNORE !in lines[..i]
        {
          assert lines[..i + 1] == lines[..i] + [lines[i]];
          if lines[i] == Ignore.IGNORE {
            missing := false;
          }
          i := i + 1;
        }
        assert lines[..i] == lines;
      }
      if !missing {
        return;
      }
      if gitignore.None? || gitignore.value == "" {
        gitignore := Some(Ignore.IGNORE + "\n");
      } else if gitignore.value[|gitignore.value| - 1] == '\n' {
        gitignore := Some(gitignore.value + Ignore.IGNORE + "\n");
      } else {
        gitignore := Some(gitignore.value + "\n" + Ignore.IGNORE + "\n");
      }
    }

    /** `read_metadata`: load "db.json" when it exists. */
    method ReadMetadata()
      modifies this`metadata
      ensures metadata == Loaded(disk.files, old(metadata))
    {
      if METADATA in disk.files {
        metadata := disk.files[METADATA];
      }
    }

    /** `write_metadata`: write the metadata to "db.json". */
    method WriteMetadata()
      modifies disk
      ensures disk.files == Written(old(disk.files), METADATA, metadata)
    {
      disk.WriteJson(METADATA, metadata);
    }

    /** `upgrade`: check the stored version; nothing is written. */
    method Upgrade() returns (r: Result<()>)
      ensures r == UpgradeCheck(metadata)
    {
      if !metadata.JObj? {
        return Err(AttributeError);
      }
      var dbver := if "version" in metadata.fields then metadata.fields["version"] else JInt(VERSION);
      if PyEq(dbver, JInt(VERSION)) {
        return Ok(());
      } else if PyLess(dbver, JInt(2)) {
        return Err(DBError);
      }
      return Err(AssertionError);
    }

    /** `init`: restore HEAD's tree (`cleanup`, given the stderr of
        `git status -s`), make sure `*.db` files are ignored, load and check
        the metadata, and commit. When it ends well the working tree is the
        cleaned-up one with the corrected `.gitignore`, the metadata is of
        the current version, and the tree is committed as HEAD. */
    method Init(stderr: string) returns (r: Result<()>)
      requires Valid()
      modifies this`gitHead, this`index, this`commits, this`gitignore, this`metadata, disk
      ensures Valid()
      ensures var cleaned := Cleaned(old(Work()), old(index), old(commits), stderr);
        r == if cleaned.result.Err? then cleaned.result else UpgradeCheck(Loaded(cleaned.tree.files, old(metadata)))
      ensures r.Ok? ==> disk.files == Cleaned(old(Work()), old(index), old(commits), stderr).tree.files
      ensures r.Ok? ==> gitignore == Ignore.GitignoreFixed(Cleaned(old(Work()), old(index), old(commits), stderr).tree.ignore)
      ensures r.Ok? ==> metadata == Loaded(disk.files, old(metadata))
      ensures r.Ok? ==> commits == Committed(old(commits), index, Recent(metadata).value)
      ensures r.Ok? ==> UpgradeCheck(metadata) == Ok(()) && Ignore.Ignores(gitignore, Ignore.IGNORE)
      ensures r.Ok? ==> gitHead.None? && index == Work() && Head(commits) == index
    {
      r := Cleanup(stderr);
      if r.Err? {
        return;
      }
      Gitignore();
      ReadMetadata();
      r := Upgrade();
      if r.Err? {
        return;
      }
      r := Checkpoint();
    }

    /** `pull` up to the checkpoint. */
    method PullStages(t: Tracker) returns (r: Result<()>)
      modifies this`metadata, disk
      ensures disk.files == PullSpec(old(disk.files), old(metadata), t).files
      ensures metadata == PullSpec(old(disk.files), old(metadata), t).metadata
      ensures r == PullSpec(old(disk.files), old(metadata), t).result
      ensures r.Ok? ==> metadata.JObj? && "recent" in metadata.fields
    {
      PullReports(disk, t, true);
      var fields := PullFields(disk, t.rpc, true);
      r := PullRest(fields, t.rpc);
    }

    /** `pull` after the field stages ended with `fields`. */
    method PullRest(fields: Result<()>, rpc: (string, seq<Json>) -> Json) returns (r: Result<()>)
      modifies this`metadata, disk
      ensures disk.files == PullRestSpec(Outcome(old(disk.files), fields), old(metadata), rpc).files
      ensures metadata == PullRestSpec(Outcome(old(disk.files), fields), old(metadata), rpc).metadata
      ensures r == PullRestSpec(Outcome(old(disk.files), fields), old(metadata), rpc).result
      ensures r.Ok? ==> metadata.JObj? && "recent" in metadata.fields
    {
      if fields.Err? {
        return fields;
      }
      var recent := Recent(metadata);
      if recent.Err? {
        return Err(recent.fault);
      }
      ghost var stage := TicketsStage(disk.files, recent.value, rpc);
      assert PullRestSpec(Outcome(disk.files, fields), metadata, rpc) ==
        if stage.result.Err? then Pulled(stage.files, metadata, stage.result)
        else
          var m := JObj(metadata.fields["recent" := stage.recent]);
          Pulled(Written(stage.files, METADATA, m), m, Ok(()));
      var next;
      next, r := PullTickets(disk, recent.value, rpc);
      if r.Err? {
        return;
      }
      r := Ok(());
      metadata := JObj(metadata.fields["recent" := next]);
      WriteMetadata();
    }

    /** `pull`: the stages, the new watermark written to "db.json", then a
        checkpoint. A failing step ends the pull before the checkpoint. */
    method Pull(t: Tracker) returns (r: Result<()>)
      requires Valid()
      modifies this`metadata, this`gitHead, this`index, this`commits, disk
      ensures Valid()
      ensures disk.files == PullSpec(old(disk.files), old(metadata), t).files
      ensures metadata == PullSpec(old(disk.files), old(metadata), t).metadata
      ensures r == PullSpec(old(disk.files), old(metadata), t).result
      ensures r.Ok? ==>
        gitHead.None? && index == Work() && commits == Committed(old(commits), index, metadata.fields["recent"])
      ensures r.Err? ==> gitHead == old(gitHead) && index == old(index) && commits == old(commits)
    {
      r := PullStages(t);
      if r.Ok? {
        // the metadata is a dictionary now, so the checkpoint cannot fail
        var _ := Checkpoint();
      }
    }
  }
}
