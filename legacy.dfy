/** The earlier revision of the snapshot sync (the top-level `dumptrac.py`):
    metadata of version 1, the `upgrade` loop with its one migration
    `upgrade_0_1` (from version 0, which kept datetimes in their wire form
    and stored no watermark), a watermark with no default, and a `pull`
    that removes no document and makes no commit. The remote, the write
    loops and the document stages are the ones the later revision kept. */
module Legacy {
  import opened Json
  import opened Text
  import opened PyValue
  import opened Docs
  import opened Remote
  import opened Sync
  import Snapshot
  import opened Paths

  /** The metadata format this revision writes. */
  const VERSION: int := 1

  /** `DB.recent`: `metadata['recent']`, with no default; indexing what is
      not a dictionary is a TypeError. */
  function Recent(metadata: Json): (r: Result<Json>)
    ensures r.Ok? <==> metadata.JObj? && "recent" in metadata.fields
    ensures r.Err? ==> r.fault == if metadata.JObj? then KeyError else TypeError
  {
    if !metadata.JObj? then Err(TypeError)
    else if "recent" in metadata.fields then Ok(metadata.fields["recent"])
    else Err(KeyError)
  }

  /** The two revisions read the same stored watermark; where none is
      stored the earlier one raises and the later one starts from
      `MIN_RECENT`. */
  lemma RecentRevisions(metadata: Json)
    ensures Recent(metadata).Ok? ==> Snapshot.Recent(metadata) == Recent(metadata)
    ensures metadata.JObj? && "recent" !in metadata.fields ==>
      Recent(metadata) == Err(KeyError) && Snapshot.Recent(metadata) == Ok(JStr(MIN_RECENT))
  {
  }

  // ------------------------------------------------------------ upgrade_0_1

  /** The migration so far: the checkout, the watermark and how it ended. */
  datatype Migration = Migration(files: map<string, Json>, recent: Json, result: Result<()>)

  /** The migration of one directory's files, in order: each file is read,
      normalised, its `changed` time folded into the watermark (when
      `watch`, the ticket directory), and written back. The first failure
      (a file that cannot be opened, a malformed datetime wrapper, a ticket
      that does not unpack) ends the migration. */
  function RewriteFiles(files: map<string, Json>, fns: seq<string>, watch: bool, recent: Json): Migration
    decreases |fns|
  {
    if fns == [] then Migration(files, recent, Ok(()))
    else if fns[0] !in files then Migration(files, recent, Err(IOError))
    else match Normalize(files[fns[0]])
      case Err(e) => Migration(files, recent, Err(e))
      case Ok(data) =>
        var changed := if watch then TicketChanged(data) else Ok(JNull);
        if changed.Err? then Migration(files, recent, Err(changed.fault))
        else
          var next := if watch then PyMax(recent, changed.value) else recent;
          RewriteFiles(Written(files, fns[0], data), fns[1..], watch, next)
  }

  /** After a migration step `m`, the directories `dirs` (when `m` ended
      well). */
  function ThenDirs(m: Migration, dirs: seq<string>, listing: seq<string>): Migration
    decreases |dirs|, 1
  {
    if m.result.Err? then m else RewriteDirs(m.files, dirs, listing, m.recent)
  }

  /** The migration of each directory in turn, each over its glob. */
  function RewriteDirs(files: map<string, Json>, dirs: seq<string>, listing: seq<string>, recent: Json): Migration
    decreases |dirs|, 0
  {
    if dirs == [] then Migration(files, recent, Ok(()))
    else ThenDirs(RewriteFiles(files, Glob(listing, dirs[0]), dirs[0] == "ticket", recent), dirs[1..], listing)
  }

  /** The state `upgrade` and `upgrade_0_1` leave: the checkout, the
      metadata and how they ended. */
  datatype Upgraded = Upgraded(files: map<string, Json>, metadata: Json, result: Result<()>)

  /** `upgrade_0_1`: every document of every directory rewritten in
      normalised form, then the watermark (the latest ticket `changed`
      time, from `MIN_RECENT`) and the version stored in the metadata. */
  function Migrate(files: map<string, Json>, metadata: Json, listing: seq<string>): Upgraded
    requires metadata.JObj?
  {
    var m := RewriteDirs(files, DIRS, listing, JStr(MIN_RECENT));
    if m.result.Err? then Upgraded(m.files, metadata, m.result)
    else Upgraded(m.files, JObj(metadata.fields["recent" := m.recent]["version" := JInt(VERSION)]), Ok(()))
  }

  // --------------------------------------------------------------- upgrade

  /** `metadata.get('version', VERSION)`. */
  function StoredVersion(metadata: Json): (r: Result<Json>)
    ensures r.Ok? <==> metadata.JObj?
    ensures r.Err? ==> r.fault == AttributeError
  {
    if !metadata.JObj? then Err(AttributeError)
    else if "version" in metadata.fields then Ok(metadata.fields["version"])
    else Ok(JInt(VERSION))
  }

  /** `upgrade`, the loop unrolled: the current version (or none stored)
      needs nothing; version 0 (or False, which equals it) is migrated and
      the metadata written, after which the loop finds the current version;
      any other version fails `metadata['version'] > dbver`, which compares
      the stored version with itself. */
  function UpgradeSpec(files: map<string, Json>, metadata: Json, listing: seq<string>): Upgraded {
    match StoredVersion(metadata)
    case Err(e) => Upgraded(files, metadata, Err(e))
    case Ok(v) =>
      if PyEq(v, JInt(VERSION)) then Upgraded(files, metadata, Ok(()))
      else if !PyEq(v, JInt(0)) then Upgraded(files, metadata, Err(AssertionError))
      else
        var u := Migrate(files, metadata, listing);
        if u.result.Err? then u
        else Upgraded(Written(u.files, Snapshot.METADATA, u.metadata), u.metadata, Ok(()))
  }

  /** What `upgrade` does with each stored version. */
  lemma UpgradeStates(files: map<string, Json>, metadata: Json, listing: seq<string>)
    ensures var u := UpgradeSpec(files, metadata, listing);
      (!metadata.JObj? ==> u == Upgraded(files, metadata, Err(AttributeError))) &&
      (metadata.JObj? && ("version" !in metadata.fields || metadata.fields["version"] == JInt(VERSION)) ==>
        u == Upgraded(files, metadata, Ok(())))
    ensures var u := UpgradeSpec(files, metadata, listing);
      metadata.JObj? && "version" in metadata.fields && metadata.fields["version"] == JInt(0) ==>
        u.result == Migrate(files, metadata, listing).result &&
        (u.result.Ok? ==>
          u.metadata.JObj? && u.metadata.fields["version"] == JInt(VERSION) &&
          Snapshot.METADATA in u.files && u.files[Snapshot.METADATA] == u.metadata)
    ensures var u := UpgradeSpec(files, metadata, listing);
      metadata.JObj? && "version" in metadata.fields && IsNumber(metadata.fields["version"]) &&
      Num(metadata.fields["version"]) != 0 && Num(metadata.fields["version"]) != VERSION ==>
        u == Upgraded(files, metadata, Err(AssertionError))
    ensures var u := UpgradeSpec(files, metadata, listing);
      metadata.JObj? && "version" in metadata.fields && !IsNumber(metadata.fields["version"]) ==>
        u == Upgraded(files, metadata, Err(AssertionError))
  {
    if metadata.JObj? && "version" in metadata.fields {
      var v := metadata.fields["version"];
      if IsNumber(v) {
        PyLessNumbers(v, JInt(VERSION));
        PyLessNumbers(v, JInt(0));
      }
    }
    if metadata.JObj? && "version" !in metadata.fields {
      PyLessNumbers(JInt(VERSION), JInt(VERSION));
    }
  }

  /** After an upgrade that ends well, upgrading again changes nothing:
      the loop settles at the current version. */
  lemma UpgradeSettles(files: map<string, Json>, metadata: Json, listing: seq<string>, listing2: seq<string>)
    requires UpgradeSpec(files, metadata, listing).result.Ok?
    ensures var u := UpgradeSpec(files, metadata, listing);
      UpgradeSpec(u.files, u.metadata, listing2) == u
  {
    var u := UpgradeSpec(files, metadata, listing);
    var v := StoredVersion(metadata).value;
    if PyEq(v, JInt(VERSION)) {
      AtVersion(files, metadata, listing2);
    } else {
      MigratedAtVersion(files, metadata, listing);
      assert u.metadata == Migrate(files, metadata, listing).metadata;
      PyLessNumbers(JInt(VERSION), JInt(VERSION));
      AtVersion(u.files, u.metadata, listing2);
    }
  }

  /** A migration that ends well stores the current version. */
  lemma MigratedAtVersion(files: map<string, Json>, metadata: Json, listing: seq<string>)
    requires metadata.JObj? && Migrate(files, metadata, listing).result.Ok?
    ensures StoredVersion(Migrate(files, metadata, listing).metadata) == Ok(JInt(VERSION))
  {
    var m := RewriteDirs(files, DIRS, listing, JStr(MIN_RECENT));
    assert Migrate(files, metadata, listing).metadata.fields ==
      metadata.fields["recent" := m.recent]["version" := JInt(VERSION)];
  }

  /** Metadata at the current version is left alone. */
  lemma AtVersion(files: map<string, Json>, metadata: Json, listing: seq<string>)
    requires StoredVersion(metadata).Ok? && PyEq(StoredVersion(metadata).value, JInt(VERSION))
    ensures UpgradeSpec(files, metadata, listing) == Upgraded(files, metadata, Ok(()))
  {
  }

  // ----------------------------------------------- what the migration does

  /** The documents of files `fns`, in order. */
  function Contents(files: map<string, Json>, fns: seq<string>): (docs: seq<Json>)
    requires forall k | k in fns :: k in files
    ensures |docs| == |fns|
  {
    seq(|fns|, i requires 0 <= i < |fns| => files[fns[i]])
  }

  predicate NoDuplicates(fns: seq<string>) {
    Snapshot.NoDuplicates(fns)
  }

  /** A visible file the migration of a directory does not list keeps its
      presence and contents, however the migration ends. */
  lemma {:induction false} RewriteFilesKeeps(files: map<string, Json>, fns: seq<string>, watch: bool, recent: Json, k: string)
    requires !Hidden(k) && k !in fns
    ensures var m := RewriteFiles(files, fns, watch, recent);
      (k in m.files <==> k in files) && (k in files ==> m.files[k] == files[k])
    decreases |fns|
  {
    if fns != [] && fns[0] in files && Normalize(files[fns[0]]).Ok? {
      var data := Normalize(files[fns[0]]).value;
      var changed := if watch then TicketChanged(data) else Ok(JNull);
      if changed.Ok? {
        var next := if watch then PyMax(recent, changed.value) else recent;
        RewriteStep(files, fns, watch, recent);
        TempPathVisible(fns[0], k);
        assert k !in fns[1..];
        RewriteFilesKeeps(Written(files, fns[0], data), fns[1..], watch, next, k);
      }
    }
  }

  /** A file that opens, normalises and (in the ticket directory) has a
      `changed` time is written back, and the migration goes on with the
      rest. */
  lemma RewriteStep(files: map<string, Json>, fns: seq<string>, watch: bool, recent: Json)
    requires fns != [] && fns[0] in files && Normalize(files[fns[0]]).Ok?
    requires watch ==> TicketChanged(Normalize(files[fns[0]]).value).Ok?
    ensures var data := Normalize(files[fns[0]]).value;
      var next := if watch then PyMax(recent, TicketChanged(data).value) else recent;
      RewriteFiles(files, fns, watch, recent) == RewriteFiles(Written(files, fns[0], data), fns[1..], watch, next)
  {
  }

  /** A visible file is not the temporary file of any write. */
  lemma TempPathVisible(fn: string, k: string)
    requires !Hidden(k)
    ensures k != Paths.TempPath(fn)
  {
    Paths.TempPathHidden(fn);
  }

  /** When the migration of a directory ends well, each of its files
      exists and holds the normalised form of what it held before. */
  lemma {:induction false} RewriteFilesNormalizes(files: map<string, Json>, fns: seq<string>, watch: bool, recent: Json, k: string)
    requires RewriteFiles(files, fns, watch, recent).result.Ok?
    requires NoDuplicates(fns) && (forall f | f in fns :: !Hidden(f)) && k in fns
    ensures var m := RewriteFiles(files, fns, watch, recent);
      k in files && k in m.files && Normalize(files[k]) == Ok(m.files[k])
    decreases |fns|
  {
    var data := Normalize(files[fns[0]]).value;
    var changed := if watch then TicketChanged(data) else Ok(JNull);
    var next := if watch then PyMax(recent, changed.value) else recent;
    var w := Written(files, fns[0], data);
    assert forall f | f in fns[1..] :: f in fns;
    if fns[0] == k {
      assert k !in fns[1..];
      RewriteFilesKeeps(w, fns[1..], watch, next, k);
    } else {
      assert NoDuplicates(fns[1..]) by {
        forall i, j | 0 <= i < j < |fns[1..]| ensures fns[1..][i] != fns[1..][j] {
          assert fns[i + 1] != fns[j + 1];
        }
      }
      RewriteFilesNormalizes(w, fns[1..], watch, next, k);
      TempPathVisible(fns[0], k);
    }
  }

  /** When the migration of the ticket directory ends well, the watermark
      is `max` of where it started and each rewritten ticket's `changed`
      time, in order; elsewhere it is left alone. */
  lemma {:induction false} RewriteFilesWatermark(files: map<string, Json>, fns: seq<string>, watch: bool, recent: Json)
    requires RewriteFiles(files, fns, watch, recent).result.Ok?
    requires NoDuplicates(fns) && forall f | f in fns :: !Hidden(f)
    ensures var m := RewriteFiles(files, fns, watch, recent);
      (forall f | f in fns :: f in m.files) &&
      m.recent == if watch then Watermark(recent, Contents(m.files, fns)) else recent
    decreases |fns|
  {
    var m := RewriteFiles(files, fns, watch, recent);
    forall f | f in fns ensures f in m.files {
      RewriteFilesNormalizes(files, fns, watch, recent, f);
    }
    if fns != [] {
      var data := Normalize(files[fns[0]]).value;
      var changed := if watch then TicketChanged(data) else Ok(JNull);
      var next := if watch then PyMax(recent, changed.value) else recent;
      var w := Written(files, fns[0], data);
      assert m == RewriteFiles(w, fns[1..], watch, next);
      assert forall f | f in fns[1..] :: f in fns;
      assert NoDuplicates(fns[1..]) by {
        forall i, j | 0 <= i < j < |fns[1..]| ensures fns[1..][i] != fns[1..][j] {
          assert fns[i + 1] != fns[j + 1];
        }
      }
      RewriteFilesWatermark(w, fns[1..], watch, next);
      if watch {
        RewriteFilesNormalizes(files, fns, watch, recent, fns[0]);
        var c := Contents(m.files, fns);
        assert c[0] == data;
        ContentsTail(m.files, fns);
        assert Watermark(recent, c) == Watermark(next, c[1..]);
      }
    }
  }

  lemma ContentsTail(files: map<string, Json>, fns: seq<string>)
    requires fns != [] && forall k | k in fns :: k in files
    ensures Contents(files, fns)[1..] == Contents(files, fns[1..])
  {
    assert forall k | k in fns[1..] :: k in fns;
  }

  /** A glob of a listing without duplicates has none. */
  lemma {:induction false} GlobNoDuplicates(listing: seq<string>, dir: string)
    requires NoDuplicates(listing)
    ensures NoDuplicates(Glob(listing, dir))
    decreases |listing|
  {
    if listing != [] {
      assert NoDuplicates(listing[1..]) by {
        forall i, j | 0 <= i < j < |listing[1..]| ensures listing[1..][i] != listing[1..][j] {
          assert listing[i + 1] != listing[j + 1];
        }
      }
      GlobNoDuplicates(listing[1..], dir);
      var rest := Glob(listing[1..], dir);
      if Listed(listing[0], dir) {
        assert listing[0] !in rest;
        var g := [listing[0]] + rest;
        forall i, j | 0 <= i < j < |g| ensures g[i] != g[j] {
          if i == 0 {
            assert g[j] == rest[j - 1];
          } else {
            assert g[i] == rest[i - 1] && g[j] == rest[j - 1];
          }
        }
      } else {
        assert Glob(listing, dir) == rest;
      }
    }
  }

  /** A visible file listed in none of the directories keeps its presence
      and contents, however the migration ends. */
  lemma {:induction false} RewriteDirsKeeps(files: map<string, Json>, dirs: seq<string>, listing: seq<string>, recent: Json, k: string)
    requires !Hidden(k) && forall d | d in dirs :: !Listed(k, d)
    ensures var m := RewriteDirs(files, dirs, listing, recent);
      (k in m.files <==> k in files) && (k in files ==> m.files[k] == files[k])
    decreases |dirs|
  {
    if dirs != [] {
      var m := RewriteFiles(files, Glob(listing, dirs[0]), dirs[0] == "ticket", recent);
      RewriteFilesKeeps(files, Glob(listing, dirs[0]), dirs[0] == "ticket", recent, k);
      if m.result.Ok? {
        assert forall d | d in dirs[1..] :: d in dirs;
        RewriteDirsKeeps(m.files, dirs[1..], listing, m.recent, k);
      }
    }
  }

  /** When the migration ends well, every listed document of each
      directory holds the normalised form of what it held before. */
  lemma {:induction false} RewriteDirsNormalizes(files: map<string, Json>, dirs: seq<string>, listing: seq<string>, recent: Json,
                                                 d: string, k: string)
    requires RewriteDirs(files, dirs, listing, recent).result.Ok?
    requires NoDuplicates(listing) && NoDuplicates(dirs) && d in dirs && k in listing && Listed(k, d)
    ensures var m := RewriteDirs(files, dirs, listing, recent);
      k in files && k in m.files && Normalize(files[k]) == Ok(m.files[k])
    decreases |dirs|
  {
    var fns := Glob(listing, dirs[0]);
    var m := RewriteFiles(files, fns, dirs[0] == "ticket", recent);
    GlobNoDuplicates(listing, dirs[0]);
    forall f | f in fns ensures !Hidden(f) {
      ListedVisible(f, dirs[0]);
    }
    ListedVisible(k, d);
    if dirs[0] == d {
      RewriteFilesNormalizes(files, fns, dirs[0] == "ticket", recent, k);
      forall e | e in dirs[1..] ensures !Listed(k, e) {
        if Listed(k, e) {
          ListedOnce(k, d, e);
        }
      }
      RewriteDirsKeeps(m.files, dirs[1..], listing, m.recent, k);
    } else {
      if k in fns {
        ListedOnce(k, d, dirs[0]);
      }
      RewriteFilesKeeps(files, fns, dirs[0] == "ticket", recent, k);
      assert d in dirs[1..];
      assert NoDuplicates(dirs[1..]) by {
        forall i, j | 0 <= i < j < |dirs[1..]| ensures dirs[1..][i] != dirs[1..][j] {
          assert dirs[i + 1] != dirs[j + 1];
        }
      }
      RewriteDirsNormalizes(m.files, dirs[1..], listing, m.recent, d, k);
    }
  }

  /** The directories the migration visits are distinct. */
  lemma DirsDistinct()
    ensures NoDuplicates(DIRS)
  {
    DirsOfFields();
  }

  /** When the migration ends well the watermark is `max` of where it
      started and the `changed` time of each rewritten ticket, in the
      order of the ticket glob; without the ticket directory it is left
      alone. */
  lemma {:induction false} RewriteDirsWatermark(files: map<string, Json>, dirs: seq<string>, listing: seq<string>, recent: Json)
    requires RewriteDirs(files, dirs, listing, recent).result.Ok?
    requires NoDuplicates(listing) && NoDuplicates(dirs)
    ensures var m := RewriteDirs(files, dirs, listing, recent);
      "ticket" !in dirs ==> m.recent == recent
    ensures var m := RewriteDirs(files, dirs, listing, recent);
      var fns := Glob(listing, "ticket");
      "ticket" in dirs ==> (forall f | f in fns :: f in m.files) && m.recent == Watermark(recent, Contents(m.files, fns))
    decreases |dirs|
  {
    if dirs != [] {
      var fns := Glob(listing, dirs[0]);
      var watch := dirs[0] == "ticket";
      var m0 := RewriteFiles(files, fns, watch, recent);
      GlobVisible(listing, dirs[0]);
      GlobNoDuplicates(listing, dirs[0]);
      RewriteFilesWatermark(files, fns, watch, recent);
      DirsTail(dirs);
      RewriteDirsWatermark(m0.files, dirs[1..], listing, m0.recent);
      if watch {
        TicketsKept(m0.files, dirs[1..], listing, m0.recent);
      }
    }
  }

  /** The tail of a list without duplicates has none, nor its head. */
  lemma DirsTail(dirs: seq<string>)
    requires dirs != [] && NoDuplicates(dirs)
    ensures NoDuplicates(dirs[1..]) && dirs[0] !in dirs[1..]
  {
    forall i, j | 0 <= i < j < |dirs[1..]| ensures dirs[1..][i] != dirs[1..][j] {
      assert dirs[i + 1] != dirs[j + 1];
    }
    forall j | 0 <= j < |dirs[1..]| ensures dirs[1..][j] != dirs[0] {
      assert dirs[0] != dirs[j + 1];
    }
  }

  /** Everything a glob lists is visible. */
  lemma GlobVisible(listing: seq<string>, dir: string)
    ensures forall f | f in Glob(listing, dir) :: !Hidden(f)
  {
    forall f | f in Glob(listing, dir) ensures !Hidden(f) {
      ListedVisible(f, dir);
    }
  }

  /** Directories other than "ticket" leave the ticket documents and
      their contents as they were. */
  lemma TicketsKept(files: map<string, Json>, dirs: seq<string>, listing: seq<string>, recent: Json)
    requires "ticket" !in dirs
    requires forall f | f in Glob(listing, "ticket") :: f in files
    ensures var m := RewriteDirs(files, dirs, listing, recent);
      var fns := Glob(listing, "ticket");
      (forall f | f in fns :: f in m.files) && Contents(m.files, fns) == Contents(files, fns)
  {
    var fns := Glob(listing, "ticket");
    var m := RewriteDirs(files, dirs, listing, recent);
    GlobVisible(listing, "ticket");
    forall f | f in fns ensures f in m.files && m.files[f] == files[f] {
      forall d | d in dirs ensures !Listed(f, d) {
        if Listed(f, d) {
          ListedOnce(f, "ticket", d);
        }
      }
      RewriteDirsKeeps(files, dirs, listing, recent, f);
    }
  }

  /** `upgrade_0_1`, when it ends well, leaves every document its globs
      list in normalised form. */
  lemma MigrateNormalizes(files: map<string, Json>, metadata: Json, listing: seq<string>, d: string, k: string)
    requires metadata.JObj? && Migrate(files, metadata, listing).result.Ok?
    requires NoDuplicates(listing) && d in DIRS && k in listing && Listed(k, d)
    ensures var u := Migrate(files, metadata, listing);
      k in files && k in u.files && Normalize(files[k]) == Ok(u.files[k])
  {
    DirsDistinct();
    RewriteDirsNormalizes(files, DIRS, listing, JStr(MIN_RECENT), d, k);
  }

  /** `upgrade_0_1`, however it ends, leaves alone every visible file that
      none of its globs lists. */
  lemma MigrateKeeps(files: map<string, Json>, metadata: Json, listing: seq<string>, k: string)
    requires metadata.JObj? && !Hidden(k) && forall d | d in DIRS :: !Listed(k, d)
    ensures var u := Migrate(files, metadata, listing);
      (k in u.files <==> k in files) && (k in files ==> u.files[k] == files[k])
  {
    RewriteDirsKeeps(files, DIRS, listing, JStr(MIN_RECENT), k);
  }

  /** The metadata `upgrade_0_1` leaves when it ends well: every other
      entry kept, the version set to 1, and the watermark the latest
      `changed` time of the rewritten tickets (from `MIN_RECENT`). */
  lemma MigrateMetadata(files: map<string, Json>, metadata: Json, listing: seq<string>)
    requires metadata.JObj? && Migrate(files, metadata, listing).result.Ok?
    requires NoDuplicates(listing)
    ensures var u := Migrate(files, metadata, listing);
      u.metadata.JObj? && u.metadata.fields.Keys == metadata.fields.Keys + {"recent", "version"} &&
      u.metadata.fields["version"] == JInt(VERSION) &&
      forall key | key in metadata.fields && key != "recent" && key != "version" :: u.metadata.fields[key] == metadata.fields[key]
    ensures var u := Migrate(files, metadata, listing);
      var fns := Glob(listing, "ticket");
      (forall f | f in fns :: f in u.files) &&
      u.metadata.JObj? && u.metadata.fields["recent"] == Watermark(JStr(MIN_RECENT), Contents(u.files, fns))
  {
    var m := RewriteDirs(files, DIRS, listing, JStr(MIN_RECENT));
    DirsDistinct();
    assert DIRS[1] == "ticket";
    RewriteDirsWatermark(files, DIRS, listing, JStr(MIN_RECENT));
    StoreStamp(metadata.fields, m.recent);
  }

  /** Storing the watermark and the version keeps every other entry. */
  lemma StoreStamp(fields: map<string, Json>, recent: Json)
    ensures var m := fields["recent" := recent]["version" := JInt(VERSION)];
      m.Keys == fields.Keys + {"recent", "version"} && m["recent"] == recent && m["version"] == JInt(VERSION) &&
      forall key | key in fields && key != "recent" && key != "version" :: m[key] == fields[key]
  {
  }

  /** Over ISO time strings, the watermark `upgrade_0_1` stores is never
      earlier than `MIN_RECENT` or than any rewritten ticket's `changed`
      time. */
  lemma MigrateLatest(files: map<string, Json>, metadata: Json, listing: seq<string>)
    requires metadata.JObj? && Migrate(files, metadata, listing).result.Ok?
    requires NoDuplicates(listing)
    requires var u := Migrate(files, metadata, listing);
      forall f | f in Glob(listing, "ticket") :: f in u.files && TicketChanged(u.files[f]).Ok? && TicketChanged(u.files[f]).value.JStr?
    ensures var u := Migrate(files, metadata, listing);
      var recent := u.metadata.fields["recent"];
      recent.JStr? && !LexLess(recent.s, MIN_RECENT) &&
      forall f | f in Glob(listing, "ticket") :: !LexLess(recent.s, TicketChanged(u.files[f]).value.s)
  {
    MigrateMetadata(files, metadata, listing);
    var u := Migrate(files, metadata, listing);
    ContentsLatest(MIN_RECENT, u.files, Glob(listing, "ticket"));
  }

  /** The watermark over the documents of some files, when every one has
      a `changed` time that is a string. */
  lemma ContentsLatest(recent: string, files: map<string, Json>, fns: seq<string>)
    requires forall f | f in fns :: f in files && TicketChanged(files[f]).Ok? && TicketChanged(files[f]).value.JStr?
    ensures var w := Watermark(JStr(recent), Contents(files, fns));
      w.JStr? && !LexLess(w.s, recent) && forall f | f in fns :: !LexLess(w.s, TicketChanged(files[f]).value.s)
  {
    var docs := Contents(files, fns);
    forall d | d in docs ensures TicketChanged(d).Ok? && TicketChanged(d).value.JStr? {
      var i :| 0 <= i < |docs| && docs[i] == d;
      assert fns[i] in fns;
    }
    WatermarkLatest(recent, docs);
    forall f | f in fns ensures files[f] in docs {
      var i :| 0 <= i < |fns| && fns[i] == f;
      assert docs[i] == files[f];
    }
  }

  // ------------------------------------------------------------------ pull

  /** `pull`: the report and field stages, which empty no directory, then
      the stored watermark (which must be there), the ticket stage and the
      metadata written, as in the later revision; nothing is committed. */
  function PullSpec(files: map<string, Json>, metadata: Json, t: Tracker): Snapshot.Pulled {
    PullRestSpec(Snapshot.FieldsDone(files, t, false), metadata, t.rpc)
  }

  /** The rest of `pull` after the field stages ended with `fields`: the
      stored watermark, which must be there, then the rest of the later
      revision's pull. */
  function PullRestSpec(fields: Outcome, metadata: Json, rpc: (string, seq<Json>) -> Json): Snapshot.Pulled {
    if fields.result.Ok? && Recent(metadata).Err? then Snapshot.Pulled(fields.files, metadata, Err(Recent(metadata).fault))
    else Snapshot.PullRestSpec(fields, metadata, rpc)
  }

  /** A pull ends well only with a watermark stored; without one it fails
      after the report and field stages, before fetching any ticket. */
  lemma PullNeedsWatermark(files: map<string, Json>, metadata: Json, t: Tracker)
    ensures PullSpec(files, metadata, t).result.Ok? ==> Recent(metadata).Ok?
    ensures var fields := Snapshot.FieldsDone(files, t, false);
      fields.result.Ok? && Recent(metadata).Err? ==>
        PullSpec(files, metadata, t) == Snapshot.Pulled(fields.files, metadata, Err(Recent(metadata).fault))
  {
  }

  /** However it ends, a pull removes no document: every visible file is
      still there. */
  lemma PullKeepsDocuments(files: map<string, Json>, metadata: Json, t: Tracker, k: string)
    requires !Hidden(k) && k in files
    ensures k in PullSpec(files, metadata, t).files
  {
    var reports := ReportStage(files, t, false);
    ReportKeepsVisible(files, t, k);
    FieldsKeepVisible(reports, FIELDS, t.rpc, k);
    var fields := Snapshot.FieldsDone(files, t, false);
    if fields.result.Ok? && Recent(metadata).Ok? {
      var recent := Recent(metadata).value;
      TicketsKeepVisible(fields.files, recent, t.rpc, k);
      var tickets := TicketsStage(fields.files, recent, t.rpc);
      if tickets.result.Ok? && k != Snapshot.METADATA {
        Snapshot.MetadataApart(tickets.files, PullSpec(files, metadata, t).metadata, k);
      }
    }
  }

  /** After a pull that ends well the report directory lists what it
      listed before and every report of the listing. */
  lemma PullReportFiles(files: map<string, Json>, metadata: Json, t: Tracker, k: string)
    requires PullSpec(files, metadata, t).result.Ok? && Listed(k, "report")
    ensures k in PullSpec(files, metadata, t).files <==> k in files || Snapshot.ReportFile(t, k)
  {
    var rows := ReportList(t.reportTab);
    ListedVisible(k, "report");
    WriteAllKeys(files, ReportWrites(rows, t.reportSql), k);
    ReportNames(rows, t.reportSql, k);
    ReportRest(files, metadata, t, k);
  }

  /** A file under "report/" passes the field stages and the rest of a
      pull as it was. */
  lemma ReportRest(files: map<string, Json>, metadata: Json, t: Tracker, k: string)
    requires PullSpec(files, metadata, t).result.Ok? && Listed(k, "report")
    ensures var reports := ReportStage(files, t, false);
      var p := PullSpec(files, metadata, t);
      (k in p.files <==> k in reports) && (k in reports ==> p.files[k] == reports[k])
  {
    var reports := ReportStage(files, t, false);
    var fields := Snapshot.FieldsDone(files, t, false);
    PullParts(files, metadata, t);
    ListedVisible(k, "report");
    Snapshot.OutsideFields(k, "report");
    FieldsStageKeeps(reports, FIELDS, t.rpc, false, k);
    PrefixesDiffer(k, "report/", "ticket/");
    PrefixesDiffer(k, "report/", "changelog/");
    PrefixesDiffer(k, "report/", Snapshot.METADATA);
    Snapshot.RestKeeps(fields, metadata, t.rpc, k);
  }

  /** After a pull that ends well each report of the listing holds its
      title and SQL text. */
  lemma PullReportContent(files: map<string, Json>, metadata: Json, t: Tracker, k: string)
    requires PullSpec(files, metadata, t).result.Ok? && Listed(k, "report") && Snapshot.ReportFile(t, k)
    ensures k in PullSpec(files, metadata, t).files
    ensures exists row | row in ReportList(t.reportTab) ::
      IdFile("report", row.0) == k && PullSpec(files, metadata, t).files[k] == ReportDoc(row.1, t.reportSql(row.0))
  {
    PullReportFiles(files, metadata, t, k);
    ReportRest(files, metadata, t, k);
    ReportStageContent(files, t, false, k);
  }

  /** After a pull that ends well the directory of each field lists what
      it listed before and every value fetched for it. */
  lemma PullFieldFiles(files: map<string, Json>, metadata: Json, t: Tracker, f: string, k: string)
    requires PullSpec(files, metadata, t).result.Ok?
    requires f in FIELDS && Listed(k, FieldDir(f))
    ensures FieldIds(f, t.rpc).Ok?
    ensures k in PullSpec(files, metadata, t).files <==> k in files || FieldNames(f, FieldIds(f, t.rpc).value, k)
  {
    Snapshot.FieldsPlain();
    ListedVisible(k, FieldDir(f));
    Snapshot.InFieldDir(k, f);
    PrefixesDiffer(k, "field/", "report/");
    ReportStageKeeps(files, t, false, k);
    FieldsStageAdds(ReportStage(files, t, false), FIELDS, t.rpc, f, k);
    FieldRest(files, metadata, t, k);
  }

  /** A file under "field/" passes the rest of a pull as it was. */
  lemma FieldRest(files: map<string, Json>, metadata: Json, t: Tracker, k: string)
    requires PullSpec(files, metadata, t).result.Ok? && !Hidden(k) && StartsWith(k, "field/")
    ensures k in PullSpec(files, metadata, t).files <==> k in Snapshot.FieldsDone(files, t, false).files
  {
    PullParts(files, metadata, t);
    PrefixesDiffer(k, "field/", "ticket/");
    PrefixesDiffer(k, "field/", "changelog/");
    PrefixesDiffer(k, "field/", Snapshot.METADATA);
    Snapshot.RestKeeps(Snapshot.FieldsDone(files, t, false), metadata, t.rpc, k);
  }

  /** The ids of the tickets changed since the stored watermark. */
  function ChangedIds(metadata: Json, t: Tracker): Result<seq<Json>> {
    var recent :- Recent(metadata);
    TicketIds(recent, t.rpc)
  }

  /** How a pull ends well: the stages, the watermark and the rest as in
      the later revision. */
  lemma PullParts(files: map<string, Json>, metadata: Json, t: Tracker)
    requires PullSpec(files, metadata, t).result.Ok?
    ensures Recent(metadata).Ok? && Snapshot.Recent(metadata) == Recent(metadata)
    ensures PullSpec(files, metadata, t) == Snapshot.PullRestSpec(Snapshot.FieldsDone(files, t, false), metadata, t.rpc)
    ensures Snapshot.PullRestSpec(Snapshot.FieldsDone(files, t, false), metadata, t.rpc).result.Ok?
  {
  }

  /** The files under "ticket/" that a pull that ends well adds to those
      already there are exactly the files of the changed tickets. */
  lemma PullTicketFiles(files: map<string, Json>, metadata: Json, t: Tracker, k: string)
    requires PullSpec(files, metadata, t).result.Ok?
    requires !Hidden(k) && StartsWith(k, "ticket/")
    ensures ChangedIds(metadata, t).Ok?
    ensures var ids := ChangedIds(metadata, t).value;
      k in PullSpec(files, metadata, t).files <==>
      k in files || exists j | 0 <= j < |ids| :: FileName("ticket", ids[j], false) == Ok(k)
  {
    var fields := Snapshot.FieldsDone(files, t, false);
    PullParts(files, metadata, t);
    Snapshot.RestParts(fields, metadata, t.rpc);
    PrefixesDiffer(k, "ticket/", "report/");
    PrefixesDiffer(k, "ticket/", "field/");
    Snapshot.FieldsDoneKeeps(files, t, false, k);
    TicketsStageTickets(fields.files, Recent(metadata).value, t.rpc, k);
    PrefixesDiffer(k, "ticket/", Snapshot.METADATA);
    Snapshot.MetadataApart(TicketsStage(fields.files, Recent(metadata).value, t.rpc).files, PullSpec(files, metadata, t).metadata, k);
  }

  /** The same for the changelogs under "changelog/". */
  lemma PullChangeLogFiles(files: map<string, Json>, metadata: Json, t: Tracker, k: string)
    requires PullSpec(files, metadata, t).result.Ok?
    requires !Hidden(k) && StartsWith(k, "changelog/")
    ensures ChangedIds(metadata, t).Ok?
    ensures var ids := ChangedIds(metadata, t).value;
      k in PullSpec(files, metadata, t).files <==>
      k in files || exists j | 0 <= j < |ids| :: FileName("changelog", ids[j], false) == Ok(k)
  {
    var fields := Snapshot.FieldsDone(files, t, false);
    PullParts(files, metadata, t);
    Snapshot.RestParts(fields, metadata, t.rpc);
    PrefixesDiffer(k, "changelog/", "report/");
    PrefixesDiffer(k, "changelog/", "field/");
    Snapshot.FieldsDoneKeeps(files, t, false, k);
    TicketsStageChangeLogs(fields.files, Recent(metadata).value, t.rpc, k);
    PrefixesDiffer(k, "changelog/", Snapshot.METADATA);
    Snapshot.MetadataApart(TicketsStage(fields.files, Recent(metadata).value, t.rpc).files, PullSpec(files, metadata, t).metadata, k);
  }

  /** After a pull that ends well the metadata keeps every entry but the
      watermark, and it is what "db.json" holds. */
  lemma PullMetadata(files: map<string, Json>, metadata: Json, t: Tracker)
    requires PullSpec(files, metadata, t).result.Ok?
    ensures metadata.JObj?
    ensures var m := PullSpec(files, metadata, t).metadata;
      m.JObj? && m.fields.Keys == metadata.fields.Keys &&
      (forall key | key in metadata.fields && key != "recent" :: m.fields[key] == metadata.fields[key]) &&
      Snapshot.METADATA in PullSpec(files, metadata, t).files && PullSpec(files, metadata, t).files[Snapshot.METADATA] == m
  {
    PullParts(files, metadata, t);
    Snapshot.RestMetadata(Snapshot.FieldsDone(files, t, false), metadata, t.rpc);
  }

  /** After a pull that ends well the watermark is `max` of the stored one
      and each fetched ticket's `changed` time, in order; over ISO time
      strings it is never earlier than the stored one or than any of them. */
  lemma PullWatermark(files: map<string, Json>, metadata: Json, t: Tracker)
    requires PullSpec(files, metadata, t).result.Ok?
    ensures ChangedIds(metadata, t).Ok?
    ensures var m := PullSpec(files, metadata, t).metadata;
      var recent := Recent(metadata).value;
      var docs := Payloads(SyncRun(TicketLoop(ChangedIds(metadata, t).value, t.rpc), recent).writes);
      m.JObj? && "recent" in m.fields && m.fields["recent"] == Watermark(recent, docs) &&
      (recent.JStr? && (forall d | d in docs :: TicketChanged(d).Ok? && TicketChanged(d).value.JStr?) ==>
        m.fields["recent"].JStr? && !LexLess(m.fields["recent"].s, recent.s) &&
        forall d | d in docs :: !LexLess(m.fields["recent"].s, TicketChanged(d).value.s))
  {
    PullParts(files, metadata, t);
    Snapshot.RestWatermark(Snapshot.FieldsDone(files, t, false), metadata, t.rpc);
  }

  // ------------------------------------------------------ the snapshot object

  class DB {
    /** The checkout's documents. */
    const disk: Disk
    var metadata: Json

    /** `DB(root)`: empty metadata. */
    constructor(disk0: Disk)
      ensures disk == disk0 && metadata == JObj(map[])
    {
      disk := disk0;
      metadata := JObj(map[]);
    }

    /** `read_metadata`: load "db.json" when it exists. */
    method ReadMetadata()
      modifies this`metadata
      ensures metadata == if Snapshot.METADATA in disk.files then disk.files[Snapshot.METADATA] else old(metadata)
    {
      if Snapshot.METADATA in disk.files {
        metadata := disk.files[Snapshot.METADATA];
      }
    }

    /** `write_metadata`: write the metadata to "db.json". */
    method WriteMetadata()
      modifies disk
      ensures disk.files == Written(old(disk.files), Snapshot.METADATA, metadata)
    {
      disk.WriteJson(Snapshot.METADATA, metadata);
    }

    /** `upgrade_0_1`: for each directory, for each file its glob lists
        (in `listing`), read the document, normalise it, raise the
        watermark by it (tickets only) and write it back; then store the
        watermark and the version. A failure leaves the metadata as it
        was. */
    method Upgrade01(listing: seq<string>) returns (r: Result<()>)
      requires metadata.JObj?
      modifies this`metadata, disk
      ensures Upgraded(disk.files, metadata, r) == Migrate(old(disk.files), old(metadata), listing)
    {
      var recent := JStr(MIN_RECENT);
      ghost var goal := RewriteDirs(disk.files, DIRS, listing, recent);
      assert DIRS[0..] == DIRS;
      var d := 0;
      while d < |DIRS|
        invariant d <= |DIRS|
        invariant metadata == old(metadata)
        invariant RewriteDirs(disk.files, DIRS[d..], listing, recent) == goal
      {
        var dir := DIRS[d];
        var watch := dir == "ticket";
        var fns := Glob(listing, dir);
        assert DIRS[d..][1..] == DIRS[d + 1..];
        assert fns[0..] == fns;
        var i := 0;
        while i < |fns|
          invariant i <= |fns|
          invariant metadata == old(metadata)
          invariant ThenDirs(RewriteFiles(disk.files, fns[i..], watch, recent), DIRS[d + 1..], listing) == goal
        {
          var fn := fns[i];
          assert fns[i..][0] == fn && fns[i..][1..] == fns[i + 1..];
          if fn !in disk.files {
            return Err(IOError);
          }
          var data := NormalizeInPlace(disk.files[fn]);
          if data.Err? {
            return Err(data.fault);
          }
          if watch {
            var changed := TicketChanged(data.value);
            if changed.Err? {
              return Err(changed.fault);
            }
            recent := PyMax(recent, changed.value);
          }
          disk.WriteJson(fn, data.value);
          i := i + 1;
        }
        d := d + 1;
      }
      metadata := JObj(metadata.fields["recent" := recent]["version" := JInt(VERSION)]);
      return Ok(());
    }

    /** `upgrade`: while the stored version (by default the current one)
        is not the current one, take one upgrade step. */
    method Upgrade(listing: seq<string>) returns (r: Result<()>)
      modifies this`metadata, disk
      ensures Upgraded(disk.files, metadata, r) == UpgradeSpec(old(disk.files), old(metadata), listing)
    {
      ghost var u := UpgradeSpec(disk.files, metadata, listing);
      var upgraded := false;
      PyEqReflexive(JInt(VERSION));
      while true
        invariant !upgraded ==> disk.files == old(disk.files) && metadata == old(metadata)
        invariant upgraded ==>
          Upgraded(disk.files, metadata, Ok(())) == u &&
          metadata.JObj? && "version" in metadata.fields && metadata.fields["version"] == JInt(VERSION)
        decreases if upgraded then 0 else 1
      {
        if !metadata.JObj? {
          return Err(AttributeError);
        }
        var dbver := if "version" in metadata.fields then metadata.fields["version"] else JInt(VERSION);
        if PyEq(dbver, JInt(VERSION)) {
          return Ok(());
        }
        r := UpgradeStep(dbver, listing);
        if r.Err? {
          return;
        }
        upgraded := true;
      }
    }

    /** One pass of `upgrade`'s loop from a stored version `dbver` that is
        not the current one: migrate from version 0, check that the stored
        version went up (which fails for any other version, as it is
        compared with itself), and write the metadata. */
    method UpgradeStep(dbver: Json, listing: seq<string>) returns (r: Result<()>)
      requires StoredVersion(metadata) == Ok(dbver) && !PyEq(dbver, JInt(VERSION))
      modifies this`metadata, disk
      ensures Upgraded(disk.files, metadata, r) == UpgradeSpec(old(disk.files), old(metadata), listing)
      ensures r.Ok? ==> metadata.JObj? && "version" in metadata.fields && metadata.fields["version"] == JInt(VERSION)
    {
      if PyEq(dbver, JInt(0)) {
        r := Upgrade01(listing);
        if r.Err? {
          return;
        }
        PyLessNumbers(dbver, JInt(VERSION));
      }
      PyLessIrreflexive(dbver);
      if !PyLess(dbver, metadata.fields["version"]) {
        return Err(AssertionError);
      }
      WriteMetadata();
      r := Ok(());
    }

    /** `init`: load the metadata and upgrade it. */
    method Init(listing: seq<string>) returns (r: Result<()>)
      modifies this`metadata, disk
      ensures var loaded := if Snapshot.METADATA in old(disk.files) then old(disk.files)[Snapshot.METADATA] else old(metadata);
        Upgraded(disk.files, metadata, r) == UpgradeSpec(old(disk.files), loaded, listing)
    {
      ReadMetadata();
      r := Upgrade(listing);
    }

    /** `pull`: the report and field stages, then the ticket stage from
        the stored watermark, and the new watermark written to
        "db.json". */
    method Pull(t: Tracker) returns (r: Result<()>)
      modifies this`metadata, disk
      ensures var p := PullSpec(old(disk.files), old(metadata), t);
        disk.files == p.files && metadata == p.metadata && r == p.result
    {
      PullReports(disk, t, false);
      var fields := PullFields(disk, t.rpc, false);
      r := PullRest(fields, t.rpc);
    }

    /** `pull` after the field stages ended with `fields`. */
    method PullRest(fields: Result<()>, rpc: (string, seq<Json>) -> Json) returns (r: Result<()>)
      modifies this`metadata, disk
      ensures var p := PullRestSpec(Outcome(old(disk.files), fields), old(metadata), rpc);
        disk.files == p.files && metadata == p.metadata && r == p.result
    {
      if fields.Err? {
        return fields;
      }
      var recent := Recent(metadata);
      if recent.Err? {
        return Err(recent.fault);
      }
      ghost var stage := TicketsStage(disk.files, recent.value, rpc);
      assert PullRestSpec(Outcome(disk.files, fields), metadata, rpc) ==
        if stage.result.Err? then Snapshot.Pulled(stage.files, metadata, stage.result)
        else
          var m := JObj(metadata.fields["recent" := stage.recent]);
          Snapshot.Pulled(Written(stage.files, Snapshot.METADATA, m), m, Ok(()));
      var next;
      next, r := PullTickets(disk, recent.value, rpc);
      if r.Err? {
        return;
      }
      r := Ok(());
      metadata := JObj(metadata.fields["recent" := next]);
      WriteMetadata();
    }
  }
}
