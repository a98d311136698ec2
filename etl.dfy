/** The reindexer (`offtrac/etl.py`): it loads the snapshot's documents into
    the tables of `Schema`, either from scratch (`full_reindex`) or by
    applying the changes git reports since the commit the tables were last
    built from (`incremental_reindex`), and records that commit in
    `offtrac_meta`. Each reindex is one transaction: it either commits all
    its statements or leaves the tables as they were. */
module Etl {
  import opened Json
  import opened Text
  import opened Paths
  import opened PyValue
  import opened Clock
  import opened Schema
  import Docs
  import Git
  import Sync
  import CivilTime

  /** `ETL.ENUM_TYPES`: the fields whose values are rows of `enum`. */
  const ENUM_TYPES: seq<string> := ["priority", "resolution", "severity", "type"]

  /** What the reindexer reads of the snapshot: its documents, the order the
      `*.json` globs list them in, the id of the HEAD commit, and the
      metadata dictionary with the order its items are iterated in. */
  datatype FileDb = FileDb(
    files: map<string, Json>,
    listing: seq<string>,
    gitHead: string,
    metadata: map<string, Json>,
    metaOrder: seq<string>)
  {
    /** The iteration order lists each metadata key once. */
    ghost predicate Valid() {
      (forall k :: k in metaOrder <==> k in metadata) &&
      (forall i, j | 0 <= i < j < |metaOrder| :: metaOrder[i] != metaOrder[j])
    }
  }

  // ------------------------------------------------------------ lookup_class

  /** `ETL.lookup_class(fn)`: the table a snapshot path holds rows of. Only
      a path of exactly two "/"-separated parts resolves: `field/<name>`
      to `enum` for an enum field and otherwise to the table called
      `<name>`, `changelog/...` to `ticket_change`, and `<dir>/...` to the
      table called `<dir>`. */
  function LookupClass(fn: string): (r: Option<Table>)
    ensures |Split(fn, '/')| != 2 ==> r == None
  {
    var parts := Split(fn, '/');
    if !(1 < |parts| < 3) then None
    else if parts[0] == "field" then
      (if parts[1] in ENUM_TYPES then Some(Enum) else TableOf(parts[1]))
    else if parts[0] == "changelog" then Some(TicketChange)
    else TableOf(parts[0])
  }

  /** A document directly inside `ticket`, `changelog` or `report` resolves
      to that directory's table. */
  lemma LookupDocument(dir: string, name: string)
    requires '/' !in dir && '/' !in name
    ensures dir == "ticket" ==> LookupClass(dir + "/" + name) == Some(Ticket)
    ensures dir == "changelog" ==> LookupClass(dir + "/" + name) == Some(TicketChange)
    ensures dir == "report" ==> LookupClass(dir + "/" + name) == Some(Report)
  {
    SplitAt(dir, '/', name);
    SplitNone(name, '/');
  }

  /** The documents of a field's values, `field/<name>/<id>.json`, have
      three parts and resolve to no table. */
  lemma LookupFieldValue(field: string, name: string)
    requires '/' !in field && '/' !in name
    ensures LookupClass("field/" + field + "/" + name) == None
  {
    SplitAt(field, '/', name);
    SplitNone(name, '/');
    assert "field/" + field + "/" + name == "field" + ['/'] + (field + "/" + name);
    SplitAt("field", '/', field + "/" + name);
  }

  /** A path without "/" (the metadata file, `.gitignore`) resolves to no
      table. */
  lemma LookupTopLevel(fn: string)
    requires '/' !in fn
    ensures LookupClass(fn) == None
  {
    SplitNone(fn, '/');
  }

  // ------------------------------------------------------- _ticket_changes

  /** The row of one changelog entry `[isotime, author, field, oldvalue,
      newvalue, permanent]`, stamped with `time`. */
  function ChangeRow(ticket: string, e: seq<Json>, time: Json): Obj
    requires |e| == 6
  {
    Obj(TicketChange, map["ticket" := JStr(ticket), "time" := time, "author" := e[1], "field" := e[2],
                          "oldvalue" := e[3], "newvalue" := e[4]])
  }

  /** The time a row is stamped with (NULL when it has none). */
  function StampOf(o: Obj): Json {
    if "time" in o.row then o.row["time"] else JNull
  }

  /** `_ticket_changes(ticket_id, data)` from the entry list `entries`,
      the change clock standing at `bigtime`: each entry must unpack into
      six values (an entry that is no list fails as UnpackFault says), and
      its row is stamped with `new_bigtime(isotime, bigtime)`, which the
      next entry continues from. */
  function ChangesFrom(ticket: string, entries: seq<Json>, bigtime: Json): (r: Result<seq<Obj>>)
    ensures r.Ok? ==> |r.value| == |entries|
    ensures r.Ok? ==> forall o | o in r.value :: o.table == TicketChange
    decreases |entries|
  {
    if entries == [] then Ok([])
    else if !entries[0].JList? then Err(UnpackFault(entries[0]))
    else if |entries[0].items| != 6 then Err(ValueError)
    else
      var time :- NewBigtime(entries[0].items[0], bigtime);
      var rest :- ChangesFrom(ticket, entries[1..], time);
      Ok([ChangeRow(ticket, entries[0].items, time)] + rest)
  }

  /** `_ticket_changes(ticket_id, data)`: the clock starts unset, and the
      entries of a list are unpacked in turn. Iterating a string gives its
      characters and a dictionary its keys, and no string of them unpacks
      into six values that start with a timestamp (StringLogFails,
      KeyLogFails): a non-empty one is a ValueError and an empty one yields
      no rows. Anything else cannot be iterated. */
  function ChangeRows(ticket: string, data: Json): (r: Result<seq<Obj>>)
    ensures r.Ok? && data.JList? ==> |r.value| == |data.items|
    ensures !data.JList? ==> (r.Ok? <==> data == JStr("") || data == JObj(map[]))
    ensures r.Ok? && !data.JList? ==> r.value == []
    ensures r.Ok? ==> forall o | o in r.value :: o.table == TicketChange
  {
    if data.JList? then ChangesFrom(ticket, data.items, JNull)
    else if data == JStr("") || data == JObj(map[]) then Ok([])
    else Err(UnpackFault(data))
  }

  /** A string entry fails the change log with a ValueError: unpacked into
      its characters, it has the wrong length, or its timestamp is one
      character long. */
  lemma StringEntryFails(ticket: string, s: string, rest: seq<Json>, bigtime: Json)
    ensures ChangesFrom(ticket, [JStr(s)] + rest, bigtime) == Err(ValueError)
    ensures |s| == 6 ==> NewBigtime(JStr([s[0]]), bigtime) == Err(ValueError)
  {
    if |s| == 6 {
      OneCharNoTime(s[0], bigtime);
    }
  }

  /** A change log that is a string ends as its characters, iterated as
      entries, do. */
  lemma StringLogFails(ticket: string, s: string)
    ensures ChangeRows(ticket, JStr(s)) == ChangesFrom(ticket, seq(|s|, i requires 0 <= i < |s| => JStr([s[i]])), JNull)
  {
    var entries := seq(|s|, i requires 0 <= i < |s| => JStr([s[i]]));
    if s != "" {
      assert entries == [JStr([s[0]])] + entries[1..];
      StringEntryFails(ticket, [s[0]], entries[1..], JNull);
    }
  }

  /** A change log that is a dictionary ends as its keys, iterated as
      entries in any order, do. */
  lemma KeyLogFails(ticket: string, m: map<string, Json>, keys: seq<string>)
    requires forall k :: k in keys <==> k in m
    ensures ChangeRows(ticket, JObj(m)) == ChangesFrom(ticket, seq(|keys|, i requires 0 <= i < |keys| => JStr(keys[i])), JNull)
  {
    var entries := seq(|keys|, i requires 0 <= i < |keys| => JStr(keys[i]));
    if keys != [] {
      assert keys[0] in m;
      assert entries == [JStr(keys[0])] + entries[1..];
      StringEntryFails(ticket, keys[0], entries[1..], JNull);
    } else {
      assert forall k | k in m :: k in keys;
      assert m == map[];
    }
  }

  /** The rows of the first entries, followed by what the rest yields. */
  function Prepend(rows: seq<Obj>, r: Result<seq<Obj>>): Result<seq<Obj>> {
    match r
    case Ok(rest) => Ok(rows + rest)
    case Err(f) => Err(f)
  }

  /** Where the loop of `_ticket_changes` stands: `rows` built from the
      entries before `i`, the clock at `bigtime`, and what is left to do
      yields the whole result. */
  predicate ChangesResume(ticket: string, data: Json, entries: seq<Json>, i: nat, rows: seq<Obj>, bigtime: Json) {
    i <= |entries| && ChangeRows(ticket, data) == Prepend(rows, ChangesFrom(ticket, entries[i..], bigtime))
  }

  lemma ChangesStart(ticket: string, entries: seq<Json>)
    ensures ChangesResume(ticket, JList(entries), entries, 0, [], JNull)
  {
    assert entries[0..] == entries;
    match ChangesFrom(ticket, entries, JNull)
    case Ok(rest) => assert [] + rest == rest;
    case Err(_) =>
  }

  /** One entry: it fails the whole call, or the loop resumes at the next
      entry with its row appended and the clock advanced. */
  lemma ChangesStep(ticket: string, data: Json, entries: seq<Json>, i: nat, rows: seq<Obj>, bigtime: Json)
    requires ChangesResume(ticket, data, entries, i, rows, bigtime) && i < |entries|
    ensures var e := entries[i];
      (!e.JList? ==> ChangeRows(ticket, data) == Err(UnpackFault(e))) &&
      (e.JList? && |e.items| != 6 ==> ChangeRows(ticket, data) == Err(ValueError)) &&
      (e.JList? && |e.items| == 6 && NewBigtime(e.items[0], bigtime).Err? ==>
         ChangeRows(ticket, data) == Err(NewBigtime(e.items[0], bigtime).fault)) &&
      (e.JList? && |e.items| == 6 && NewBigtime(e.items[0], bigtime).Ok? ==>
         var t := NewBigtime(e.items[0], bigtime).value;
         ChangesResume(ticket, data, entries, i + 1, rows + [ChangeRow(ticket, e.items, t)], t))
  {
    assert entries[i..][0] == entries[i] && entries[i..][1..] == entries[i + 1..];
    var e := entries[i];
    if e.JList? && |e.items| == 6 && NewBigtime(e.items[0], bigtime).Ok? {
      var t := NewBigtime(e.items[0], bigtime).value;
      var row := ChangeRow(ticket, e.items, t);
      match ChangesFrom(ticket, entries[i + 1..], t)
      case Ok(rest) => assert rows + ([row] + rest) == rows + [row] + rest;
      case Err(_) =>
    }
  }

  lemma ChangesDone(ticket: string, data: Json, entries: seq<Json>, rows: seq<Obj>, bigtime: Json)
    requires ChangesResume(ticket, data, entries, |entries|, rows, bigtime)
    ensures ChangeRows(ticket, data) == Ok(rows)
  {
    assert entries[|entries|..] == [];
    assert rows + [] == rows;
  }

  /** `_ticket_changes`: one pass over the entries, threading `bigtime`. */
  method TicketChanges(ticket: string, data: Json) returns (r: Result<seq<Obj>>)
    ensures r == ChangeRows(ticket, data)
  {
    if !data.JList? {
      if data == JStr("") || data == JObj(map[]) {
        return Ok([]);
      }
      return Err(UnpackFault(data));
    }
    var entries := data.items;
    var rows: seq<Obj> := [];
    var bigtime := JNull;
    var i := 0;
    ChangesStart(ticket, entries);
    while i < |entries|
      invariant ChangesResume(ticket, data, entries, i, rows, bigtime)
      decreases |entries| - i
    {
      ChangesStep(ticket, data, entries, i, rows, bigtime);
      var e := entries[i];
      if !e.JList? {
        return Err(UnpackFault(e));
      }
      if |e.items| != 6 {
        return Err(ValueError);
      }
      var next := NewBigtime(e.items[0], bigtime);
      if next.Err? {
        return Err(next.fault);
      }
      bigtime := next.value;
      rows := rows + [ChangeRow(ticket, e.items, bigtime)];
      i := i + 1;
    }
    ChangesDone(ticket, data, entries, rows, bigtime);
    return Ok(rows);
  }

  /** How a changelog that yields rows starts: a six-field entry whose
      row, stamped by the clock, comes before the rows of the rest. */
  lemma ChangesCons(ticket: string, entries: seq<Json>, bigtime: Json)
    requires entries != [] && ChangesFrom(ticket, entries, bigtime).Ok?
    ensures entries[0].JList? && |entries[0].items| == 6 && NewBigtime(entries[0].items[0], bigtime).Ok?
    ensures var time := NewBigtime(entries[0].items[0], bigtime).value;
      ChangesFrom(ticket, entries[1..], time).Ok? &&
      ChangesFrom(ticket, entries, bigtime).value ==
        [ChangeRow(ticket, entries[0].items, time)] + ChangesFrom(ticket, entries[1..], time).value
  {
  }

  /** One row per entry, in order: row `i` carries the ticket id taken from
      the file name and the author, field and values of entry `i`. */
  lemma {:induction false} ChangeRowsInOrder(ticket: string, entries: seq<Json>, bigtime: Json)
    requires ChangesFrom(ticket, entries, bigtime).Ok?
    ensures var rows := ChangesFrom(ticket, entries, bigtime).value;
      forall i | 0 <= i < |entries| ::
        entries[i].JList? && |entries[i].items| == 6 &&
        rows[i] == ChangeRow(ticket, entries[i].items, StampOf(rows[i]))
    decreases |entries|
  {
    if entries != [] {
      ChangesCons(ticket, entries, bigtime);
      var time := NewBigtime(entries[0].items[0], bigtime).value;
      var rows := ChangesFrom(ticket, entries, bigtime).value;
      var rest := ChangesFrom(ticket, entries[1..], time).value;
      ChangeRowsInOrder(ticket, entries[1..], time);
      ChangeRowStamp(ticket, entries[0].items, time);
      forall i | 1 <= i < |entries|
        ensures entries[i].JList? && |entries[i].items| == 6
        ensures rows[i] == ChangeRow(ticket, entries[i].items, StampOf(rows[i]))
      {
        assert entries[1..][i - 1] == entries[i] && rows[i] == rest[i - 1];
      }
    }
  }

  /** The change clock moves forward: an integer time it stamps after the
      integer time `p` is later than `p`. */
  lemma BigtimeAdvances(iso: Json, p: int)
    requires NewBigtime(iso, JInt(p)).Ok? && NewBigtime(iso, JInt(p)).value.JInt?
    ensures NewBigtime(iso, JInt(p)).value.i > p
  {
    var b := TracTime(iso).value;
    if PyLess(JInt(p), b) {
      PyLessNumbers(JInt(p), b);
    }
  }

  /** Rows whose times are all integers are stamped in strictly increasing
      order, each later than the clock they started from. */
  lemma {:induction false} ChangeTimesIncrease(ticket: string, entries: seq<Json>, bigtime: Json)
    requires ChangesFrom(ticket, entries, bigtime).Ok?
    requires bigtime.JNull? || bigtime.JInt?
    requires forall o | o in ChangesFrom(ticket, entries, bigtime).value :: StampOf(o).JInt?
    ensures var rows := ChangesFrom(ticket, entries, bigtime).value;
      forall i, j | 0 <= i < j < |rows| :: StampOf(rows[i]).i < StampOf(rows[j]).i
    ensures var rows := ChangesFrom(ticket, entries, bigtime).value;
      bigtime.JInt? && rows != [] ==> bigtime.i < StampOf(rows[0]).i
    decreases |entries|
  {
    if entries != [] {
      ChangesCons(ticket, entries, bigtime);
      var time := NewBigtime(entries[0].items[0], bigtime).value;
      var rows := ChangesFrom(ticket, entries, bigtime).value;
      var rest := ChangesFrom(ticket, entries[1..], time).value;
      ChangeRowStamp(ticket, entries[0].items, time);
      assert StampOf(rows[0]) == time;
      assert time.JInt?;
      if bigtime.JInt? {
        BigtimeAdvances(entries[0].items[0], bigtime.i);
      }
      assert forall o | o in rest :: o in rows;
      ChangeTimesIncrease(ticket, entries[1..], time);
      forall i, j | 0 <= i < j < |rows| ensures StampOf(rows[i]).i < StampOf(rows[j]).i {
        assert rows[j] == rest[j - 1];
        if i > 0 {
          assert rows[i] == rest[i - 1];
        } else if j > 1 {
          assert StampOf(rest[0]).i < StampOf(rest[j - 1]).i;
        }
      }
    }
  }

  /** A changelog entry of six fields whose first is an ISO 8601 timestamp. */
  predicate Timestamped(e: Json) {
    e.JList? && |e.items| == 6 && e.items[0].JStr? && CivilTime.ParseIso(e.items[0].s).Some?
  }

  /** The row of a change carries the time it is stamped with. */
  lemma ChangeRowStamp(ticket: string, e: seq<Json>, time: Json)
    requires |e| == 6
    ensures StampOf(ChangeRow(ticket, e, time)) == time
  {
  }

  lemma ConsMembers<T>(x: T, xs: seq<T>)
    ensures forall o | o in [x] + xs :: o == x || o in xs
  {
  }

  /** Entries whose times are all ISO 8601 timestamps yield rows, each
      stamped with an integer time. */
  lemma {:induction false} ChangeTimesParse(ticket: string, entries: seq<Json>, bigtime: Json)
    requires bigtime.JNull? || bigtime.JInt?
    requires forall e | e in entries :: Timestamped(e)
    ensures ChangesFrom(ticket, entries, bigtime).Ok?
    ensures forall o | o in ChangesFrom(ticket, entries, bigtime).value :: StampOf(o).JInt?
    decreases |entries|
  {
    if entries != [] {
      assert entries[0] in entries && Timestamped(entries[0]);
      var items := entries[0].items;
      BigtimeOfParsed(items[0], bigtime);
      var time := NewBigtime(items[0], bigtime).value;
      assert forall e | e in entries[1..] :: e in entries;
      ChangeTimesParse(ticket, entries[1..], time);
      var rest := ChangesFrom(ticket, entries[1..], time).value;
      var first := ChangeRow(ticket, items, time);
      assert ChangesFrom(ticket, entries, bigtime) == Ok([first] + rest);
      ChangeRowStamp(ticket, items, time);
      ConsMembers(first, rest);
    }
  }

  /** A timestamp the clock can parse moves it to an integer time. */
  lemma BigtimeOfParsed(iso: Json, bigtime: Json)
    requires bigtime.JNull? || bigtime.JInt?
    requires iso.JStr? && CivilTime.ParseIso(iso.s).Some?
    ensures NewBigtime(iso, bigtime).Ok? && NewBigtime(iso, bigtime).value.JInt?
  {
    TracTimeOfParsed(iso.s);
  }

  /** The primary key of a change row holds its time second. */
  lemma ChangeKeyTime(o: Obj)
    requires o.table == TicketChange && Prepare(o).Ok? && StampOf(o).JInt?
    ensures |Prepare(o).value.0| == 3 && Prepare(o).value.0[1] == StampOf(o)
  {
    var s := Stored(TicketChange, o.row);
    assert PrimaryKey(TicketChange)[1] == "time";
  }

  /** A changelog whose entries are all timestamped yields rows with
      strictly increasing times, so no two of its rows share a
      (ticket, time, field) key. */
  lemma ChangelogKeysDistinct(ticket: string, data: Json)
    requires data.JList?
    requires forall e | e in data.items :: Timestamped(e)
    ensures ChangeRows(ticket, data).Ok?
    ensures var rows := ChangeRows(ticket, data).value;
      forall i, j | 0 <= i < j < |rows| && Prepare(rows[i]).Ok? && Prepare(rows[j]).Ok? ::
        Prepare(rows[i]).value.0 != Prepare(rows[j]).value.0
  {
    ChangeTimesParse(ticket, data.items, JNull);
    ChangeTimesIncrease(ticket, data.items, JNull);
    var rows := ChangeRows(ticket, data).value;
    forall i, j | 0 <= i < j < |rows| && Prepare(rows[i]).Ok? && Prepare(rows[j]).Ok?
      ensures Prepare(rows[i]).value.0 != Prepare(rows[j]).value.0
    {
      assert rows[i] in rows && rows[j] in rows;
      ChangeKeyTime(rows[i]);
      ChangeKeyTime(rows[j]);
    }
  }

  // ------------------------------------------------------------- from_disk

  /** The row of an enum document: its type and name, and the document as
      its value. */
  function EnumData(typ: string, name: string, data: Json): (r: Json)
    ensures r.JObj? && r.fields.Keys == {"type", "name", "value"}
    ensures r.fields["type"] == JStr(typ) && r.fields["name"] == JStr(name) && r.fields["value"] == data
  {
    JObj(map["type" := JStr(typ), "name" := JStr(name), "value" := data])
  }

  /** A milestone document with `due` and then `completed` converted to
      Trac time; subscripting anything but a dictionary is a TypeError and
      a missing date a KeyError. */
  function MilestoneData(data: Json): (r: Result<Json>)
    ensures !data.JObj? ==> r == Err(TypeError)
    ensures data.JObj? && "due" !in data.fields ==> r == Err(KeyError)
    ensures r.Ok? <==> (data.JObj? && "due" in data.fields && "completed" in data.fields &&
      TracTime(data.fields["due"]).Ok? && TracTime(data.fields["completed"]).Ok?)
    ensures r.Ok? ==> (r.value.JObj? && r.value.fields.Keys == data.fields.Keys &&
      r.value.fields["due"] == TracTime(data.fields["due"]).value &&
      r.value.fields["completed"] == TracTime(data.fields["completed"]).value &&
      forall k | k in data.fields && k != "due" && k != "completed" :: r.value.fields[k] == data.fields[k])
  {
    if !data.JObj? then Err(TypeError)
    else if "due" !in data.fields then Err(KeyError)
    else
      var due :- TracTime(data.fields["due"]);
      if "completed" !in data.fields then Err(KeyError)
      else
        var completed :- TracTime(data.fields["completed"]);
        Ok(JObj(data.fields["due" := due]["completed" := completed]))
  }

  /** A ticket document `[id, created, changed, props]`: the properties
      with the id and the two converted times added. A document that is no
      list fails as UnpackFault says (StringTicketFails). */
  function TicketData(data: Json): (r: Result<Json>)
    ensures !data.JList? ==> r == Err(UnpackFault(data))
    ensures data.JList? && |data.items| != 4 ==> r == Err(ValueError)
    ensures r.Ok? <==> (data.JList? && |data.items| == 4 && TracTime(data.items[1]).Ok? &&
      TracTime(data.items[2]).Ok? && data.items[3].JObj?)
    ensures r.Ok? ==> (r.value.JObj? &&
      r.value.fields.Keys == data.items[3].fields.Keys + {"id", "time", "changetime"} &&
      r.value.fields["id"] == data.items[0] &&
      r.value.fields["time"] == TracTime(data.items[1]).value &&
      r.value.fields["changetime"] == TracTime(data.items[2]).value &&
      forall k | k in data.items[3].fields && k !in {"id", "time", "changetime"} ::
        r.value.fields[k] == data.items[3].fields[k])
  {
    if !data.JList? then Err(UnpackFault(data))
    else if |data.items| != 4 then Err(ValueError)
    else
      var time :- TracTime(data.items[1]);
      var changetime :- TracTime(data.items[2]);
      var props := data.items[3];
      if !props.JObj? then Err(TypeError)
      else
        TicketStamps(props.fields, data.items[0], time, changetime);
        Ok(JObj(props.fields["id" := data.items[0]]["time" := time]["changetime" := changetime]))
  }

  /** The properties with the id and the two times set. */
  /** A ticket document that is a string fails with a ValueError:
      unpacked into its characters, it has the wrong length, or its
      creation time is one character long. */
  lemma StringTicketFails(s: string)
    ensures TicketData(JStr(s)) == Err(ValueError)
    ensures |s| == 4 ==> TracTime(JStr([s[1]])) == Err(ValueError)
  {
    if |s| == 4 {
      OneCharNoTime(s[1], JNull);
    }
  }

  lemma TicketStamps(m: map<string, Json>, id: Json, time: Json, changetime: Json)
    ensures var r := m["id" := id]["time" := time]["changetime" := changetime];
      r.Keys == m.Keys + {"id", "time", "changetime"} &&
      r["id"] == id && r["time"] == time && r["changetime"] == changetime &&
      forall k | k in m && k !in {"id", "time", "changetime"} :: r[k] == m[k]
  {
    assert "id" != "time" && "id" != "changetime" && "time" != "changetime";
  }

  /** A report document: its id, the title and the query, and an empty
      author and description. */
  function ReportData(id: string, data: Json): (r: Result<Json>)
    ensures !data.JObj? ==> r == Err(TypeError)
    ensures r.Ok? <==> data.JObj? && "title" in data.fields && "sql" in data.fields
    ensures r.Err? && data.JObj? ==> r == Err(KeyError)
    ensures r.Ok? ==> (r.value.JObj? && r.value.fields.Keys == {"id", "title", "query", "author", "description"} &&
      r.value.fields["id"] == JStr(id) && r.value.fields["title"] == data.fields["title"] &&
      r.value.fields["query"] == data.fields["sql"] &&
      r.value.fields["author"] == JStr("") && r.value.fields["description"] == JStr(""))
  {
    if !data.JObj? then Err(TypeError)
    else if "title" !in data.fields || "sql" !in data.fields then Err(KeyError)
    else Ok(JObj(map["id" := JStr(id), "title" := data.fields["title"], "query" := data.fields["sql"],
                     "author" := JStr(""), "description" := JStr("")]))
  }

  /** The keyword arguments of a document of table `t` at `fn`, for the
      tables whose rows are built one per document. */
  function RowData(t: Table, fn: string, data: Json): (r: Result<Json>)
    requires t != TicketChange
    ensures t == Enum ==> r == Ok(EnumData(PathId(Dirname(fn)), PathId(fn), data))
    ensures t == Milestone ==> r == MilestoneData(data)
    ensures t == Ticket ==> r == TicketData(data)
    ensures t == Report ==> r == ReportData(PathId(fn), data)
    ensures t !in {Enum, Milestone, Ticket, Report} ==> r == Ok(data)
  {
    match t
    case Enum => Ok(EnumData(PathId(Dirname(fn)), PathId(fn), data))
    case Milestone => MilestoneData(data)
    case Ticket => TicketData(data)
    case Report => ReportData(PathId(fn), data)
    case _ => Ok(data)
  }

  /** `cls(**data)` as a list of one row. */
  function Single(t: Table, data: Result<Json>): (r: Result<seq<Obj>>)
    ensures r.Ok? <==> data.Ok? && Construct(t, data.value).Ok?
    ensures r.Ok? ==> r.value == [Construct(t, data.value).value]
    ensures r.Err? && data.Err? ==> r.fault == data.fault
  {
    var d :- data;
    var o :- Construct(t, d);
    Ok([o])
  }

  /** `ETL.from_disk(cls, fn)`: the rows of table `t` the document `fn`
      holds, after `load_json(fn)` (an IOError when the file is missing). */
  function FromDisk(files: map<string, Json>, t: Table, fn: string): (r: Result<seq<Obj>>)
    ensures fn !in files ==> r == Err(IOError)
    ensures r.Ok? ==> forall o | o in r.value :: o.table == t
    ensures fn in files && t == TicketChange ==> r == ChangeRows(PathId(fn), files[fn])
    ensures fn in files && t != TicketChange ==> r == Single(t, RowData(t, fn, files[fn]))
    ensures r.Ok? && t != TicketChange ==> |r.value| == 1 && r.value[0].row == RowData(t, fn, files[fn]).value.fields
  {
    if fn !in files then Err(IOError)
    else if t == TicketChange then ChangeRows(PathId(fn), files[fn])
    else Single(t, RowData(t, fn, files[fn]))
  }

  /** `from_disk` as the reindexer consumes it: a changelog's rows come from
      the `_ticket_changes` loop. */
  method LoadRows(files: map<string, Json>, t: Table, fn: string) returns (r: Result<seq<Obj>>)
    ensures r == FromDisk(files, t, fn)
  {
    if fn !in files {
      return Err(IOError);
    }
    if t == TicketChange {
      r := TicketChanges(PathId(fn), files[fn]);
    } else {
      r := Single(t, RowData(t, fn, files[fn]));
    }
  }

  // --------------------------------------------------------------- ormify_*

  /** `from_disk(cls, fn)` for each of `fns` in turn, the rows concatenated:
      what adding the documents one by one would yield. */
  function FromDiskAll(files: map<string, Json>, t: Table, fns: seq<string>): (r: Result<seq<Obj>>)
    ensures r.Ok? ==> forall o | o in r.value :: o.table == t
    decreases fns
  {
    if fns == [] then Ok([])
    else
      var rows :- FromDisk(files, t, fns[0]);
      var rest :- FromDiskAll(files, t, fns[1..]);
      Ok(rows + rest)
  }

  /** The documents `iter_jsondir(dir)` reads, in glob order. */
  function DirDocs(fdb: FileDb, dir: string): (fns: seq<string>)
    ensures forall fn :: fn in fns <==> fn in fdb.listing && Docs.Listed(fn, dir)
  {
    Docs.Glob(fdb.listing, dir)
  }

  /** The rows of one field table's documents (`ormify_fields`, one
      class): a milestone's dates are converted, every other document is
      the row itself. */
  function FieldDocs(files: map<string, Json>, t: Table, fns: seq<string>): (r: Result<seq<Obj>>)
    ensures r.Ok? ==> |r.value| == |fns| && forall o | o in r.value :: o.table == t
    decreases fns
  {
    if fns == [] then Ok([])
    else if fns[0] !in files then Err(IOError)
    else
      var data := files[fns[0]];
      var d :- if t == Milestone then MilestoneData(data) else Ok(data);
      var o :- Construct(t, d);
      var rest :- FieldDocs(files, t, fns[1..]);
      Ok([o] + rest)
  }

  /** `ETL.ormify_fields()`: the documents of each field class's directory. */
  function OrmifyFields(fdb: FileDb, classes: seq<Table>): (r: Result<seq<Obj>>)
    ensures r.Ok? ==> forall o | o in r.value :: o.table in classes
    decreases classes
  {
    if classes == [] then Ok([])
    else
      var rows :- FieldDocs(fdb.files, classes[0], DirDocs(fdb, "field/" + TableName(classes[0])));
      var rest :- OrmifyFields(fdb, classes[1..]);
      Ok(rows + rest)
  }

  /** The enum rows of one enum field's documents: the field names the
      type, the file name the value's name. */
  function EnumDocs(files: map<string, Json>, typ: string, fns: seq<string>): (r: Result<seq<Obj>>)
    ensures r.Ok? ==> EnumRows(files, typ, fns, r.value)
    decreases fns
  {
    if fns == [] then Ok([])
    else if fns[0] !in files then Err(IOError)
    else
      var o :- Construct(Enum, EnumData(typ, PathId(fns[0]), files[fns[0]]));
      var rest :- EnumDocs(files, typ, fns[1..]);
      EnumRowsCons(files, typ, fns, o, rest);
      Ok([o] + rest)
  }

  /** The enum rows of `fns`, one per document, in order. */
  predicate EnumRows(files: map<string, Json>, typ: string, fns: seq<string>, rows: seq<Obj>) {
    |rows| == |fns| && forall i | 0 <= i < |fns| ::
      fns[i] in files && rows[i] == Obj(Enum, EnumData(typ, PathId(fns[i]), files[fns[i]]).fields)
  }

  lemma EnumRowsCons(files: map<string, Json>, typ: string, fns: seq<string>, o: Obj, rest: seq<Obj>)
    requires fns != [] && fns[0] in files && o == Obj(Enum, EnumData(typ, PathId(fns[0]), files[fns[0]]).fields)
    requires EnumRows(files, typ, fns[1..], rest)
    ensures EnumRows(files, typ, fns, [o] + rest)
  {
    forall i | 0 < i < |fns| ensures fns[i] == fns[1..][i - 1] && ([o] + rest)[i] == rest[i - 1] { }
  }

  /** `ETL.ormify_enum()`: the documents of each enum field's directory. */
  function OrmifyEnum(fdb: FileDb, types: seq<string>): (r: Result<seq<Obj>>)
    ensures r.Ok? ==> forall o | o in r.value :: o.table == Enum
    decreases types
  {
    if types == [] then Ok([])
    else
      var rows :- EnumDocs(fdb.files, types[0], DirDocs(fdb, "field/" + types[0]));
      var rest :- OrmifyEnum(fdb, types[1..]);
      Ok(rows + rest)
  }

  /** `ETL.ormify_ticket()` over the documents `fns`. */
  function TicketDocs(files: map<string, Json>, fns: seq<string>): (r: Result<seq<Obj>>)
    ensures r.Ok? ==> |r.value| == |fns| && forall o | o in r.value :: o.table == Ticket
    decreases fns
  {
    if fns == [] then Ok([])
    else if fns[0] !in files then Err(IOError)
    else
      var props :- TicketData(files[fns[0]]);
      var o :- Construct(Ticket, props);
      var rest :- TicketDocs(files, fns[1..]);
      Ok([o] + rest)
  }

  /** `ETL.ormify_report()` over the documents `fns`. */
  function ReportDocs(files: map<string, Json>, fns: seq<string>): (r: Result<seq<Obj>>)
    ensures r.Ok? ==> |r.value| == |fns| && forall o | o in r.value :: o.table == Report
    decreases fns
  {
    if fns == [] then Ok([])
    else if fns[0] !in files then Err(IOError)
    else
      var data :- ReportData(PathId(fns[0]), files[fns[0]]);
      var o :- Construct(Report, data);
      var rest :- ReportDocs(files, fns[1..]);
      Ok([o] + rest)
  }

  /** `ETL.ormify_changelog()` over the documents `fns`: each changelog's
      rows, keyed by the ticket id its file name carries. */
  function ChangelogDocs(files: map<string, Json>, fns: seq<string>): (r: Result<seq<Obj>>)
    ensures r.Ok? ==> forall o | o in r.value :: o.table == TicketChange
    decreases fns
  {
    if fns == [] then Ok([])
    else if fns[0] !in files then Err(IOError)
    else
      var rows :- ChangeRows(PathId(fns[0]), files[fns[0]]);
      var rest :- ChangelogDocs(files, fns[1..]);
      Ok(rows + rest)
  }

  // ------------------------------------------- full and incremental agree

  /** Building a field table from scratch yields the rows adding its
      documents one by one would. */
  lemma {:induction false} FieldDocsAgree(files: map<string, Json>, t: Table, fns: seq<string>)
    requires t in FIELD_CLASSES
    ensures FieldDocs(files, t, fns) == FromDiskAll(files, t, fns)
    decreases fns
  {
    if fns != [] && fns[0] in files {
      FieldDocsAgree(files, t, fns[1..]);
      FieldDocsStep(files, t, fns);
      FromDiskAllStep(files, t, fns);
    }
  }

  /** The rows of `a`, then those of `b`; the first failure ends it. */
  function Joined(a: Result<seq<Obj>>, b: Result<seq<Obj>>): Result<seq<Obj>> {
    if a.Err? then a else if b.Err? then b else Ok(a.value + b.value)
  }

  lemma FieldDocsStep(files: map<string, Json>, t: Table, fns: seq<string>)
    requires t in FIELD_CLASSES && fns != [] && fns[0] in files
    ensures FieldDocs(files, t, fns) == Joined(FromDisk(files, t, fns[0]), FieldDocs(files, t, fns[1..]))
  {
    FieldDocRow(files, t, fns[0]);
  }

  lemma FieldDocRow(files: map<string, Json>, t: Table, fn: string)
    requires t in FIELD_CLASSES && fn in files
    ensures FromDisk(files, t, fn) == Single(t, if t == Milestone then MilestoneData(files[fn]) else Ok(files[fn]))
  {
  }

  lemma FromDiskAllStep(files: map<string, Json>, t: Table, fns: seq<string>)
    requires fns != []
    ensures FromDiskAll(files, t, fns) == Joined(FromDisk(files, t, fns[0]), FromDiskAll(files, t, fns[1..]))
  {
  }

  /** `ormify_ticket` and `from_disk(Ticket, fn)` build the same rows. */
  lemma {:induction false} TicketDocsAgree(files: map<string, Json>, fns: seq<string>)
    ensures TicketDocs(files, fns) == FromDiskAll(files, Ticket, fns)
    decreases fns
  {
    if fns != [] && fns[0] in files {
      TicketDocsAgree(files, fns[1..]);
    }
  }

  /** `ormify_report` and `from_disk(Report, fn)` build the same rows. */
  lemma {:induction false} ReportDocsAgree(files: map<string, Json>, fns: seq<string>)
    ensures ReportDocs(files, fns) == FromDiskAll(files, Report, fns)
    decreases fns
  {
    if fns != [] && fns[0] in files {
      ReportDocsAgree(files, fns[1..]);
    }
  }

  /** `ormify_changelog` and `from_disk(TicketChange, fn)` build the same
      rows. */
  lemma {:induction false} ChangelogDocsAgree(files: map<string, Json>, fns: seq<string>)
    ensures ChangelogDocs(files, fns) == FromDiskAll(files, TicketChange, fns)
    decreases fns
  {
    if fns != [] && fns[0] in files {
      ChangelogDocsAgree(files, fns[1..]);
    }
  }

  /** An enum value's document read back by `from_disk` gets an empty type:
      the type is taken from the directory's name, which has no extension
      for `path_id` to strip. `ormify_enum` uses the field name instead. */
  lemma FromDiskEnumType(files: map<string, Json>, field: string, name: string)
    requires field != "" && '/' !in field && '.' !in field && '/' !in name
    requires "field/" + field + "/" + name in files
    ensures var r := FromDisk(files, Enum, "field/" + field + "/" + name);
      r.Ok? && r.value[0].row["type"] == JStr("")
  {
    PathIdOfFieldDir(field, name);
    EnumDocType(files, "field/" + field + "/" + name);
  }

  /** An enum value's document whose directory has an empty `path_id` is
      read back with an empty type. */
  lemma EnumDocType(files: map<string, Json>, fn: string)
    requires fn in files && PathId(Dirname(fn)) == ""
    ensures FromDisk(files, Enum, fn).Ok? && FromDisk(files, Enum, fn).value[0].row["type"] == JStr("")
  {
    var data := EnumData("", PathId(fn), files[fn]);
    assert RowData(Enum, fn, files[fn]) == Ok(data);
  }

  // ---------------------------------------------------- ormify_offtrac_meta

  /** A value the driver binds as it is: neither a list nor a dictionary. */
  predicate Scalar(v: Json) {
    !v.JList? && !v.JObj?
  }

  /** The `offtrac_meta` row of one metadata item. */
  function MetaRow(k: string, v: Json): Obj {
    Obj(OfftracMeta, map["key" := JStr(k), "value" := v])
  }

  /** Where the item with key `k` is stored. */
  function MetaKey(k: string): (Table, Key) {
    (OfftracMeta, [JStr(k)])
  }

  /** The rows of the metadata items, in iteration order. */
  function MetaObjs(meta: map<string, Json>, ks: seq<string>): (objs: seq<Obj>)
    ensures forall o | o in objs :: o.table == OfftracMeta
    decreases ks
  {
    if ks == [] then []
    else (if ks[0] in meta then [MetaRow(ks[0], meta[ks[0]])] else []) + MetaObjs(meta, ks[1..])
  }

  /** `ETL.ormify_offtrac_meta()`: the HEAD commit under `git_head`, then
      every metadata item. */
  function OrmifyOfftracMeta(fdb: FileDb): (objs: seq<Obj>)
    ensures objs != [] && objs[0] == MetaRow("git_head", JStr(fdb.gitHead))
    ensures forall o | o in objs :: o.table == OfftracMeta
  {
    [MetaRow("git_head", JStr(fdb.gitHead))] + MetaObjs(fdb.metadata, fdb.metaOrder)
  }

  /** The value `session.query(OfftracMeta).get('git_head')` finds, or NULL
      when there is no such row. */
  function StoredHead(db: Db): Json {
    var x := MetaKey("git_head");
    if x in db && "value" in db[x] then db[x]["value"] else JNull
  }

  // ------------------------------------------------------------- reindexes

  /** The conditions a deleted document's rows are found by: an enum value
      by its type and name, any other row by the first column of its
      primary key, each taken from the path. */
  function DeleteConds(t: Table, fn: string): (conds: seq<(string, Json)>)
    ensures t == Enum ==> conds == [("type", JStr(PathId(Dirname(fn)))), ("name", JStr(PathId(fn)))]
    ensures t != Enum ==> conds == [(PrimaryKey(t)[0], JStr(PathId(fn)))]
  {
    if t == Enum then [("type", JStr(PathId(Dirname(fn)))), ("name", JStr(PathId(fn)))]
    else [(PrimaryKey(t)[0], JStr(PathId(fn)))]
  }

  /** A document's rows added (`session.add_all`) or merged one by one. */
  function Upsert(db: Db, lst: seq<Obj>, add: bool): (r: Result<Db>)
    ensures add ==> r == InsertAll(db, lst)
    ensures !add ==> r == MergeAll(db, lst)
  {
    if add then InsertAll(db, lst) else MergeAll(db, lst)
  }

  /** One path `incremental_reindex` is told about: a deleted document's
      rows are removed, an added document's rows are inserted and a
      modified one's merged; a path that resolves to no table is skipped. */
  function ApplyChange(db: Db, files: map<string, Json>, change: (string, string)): (r: Result<Db>)
    ensures LookupClass(change.1).None? ==> r == Ok(db)
    ensures LookupClass(change.1).Some? && 'D' in change.0 ==>
      r == Ok(DeleteWhere(db, LookupClass(change.1).value, DeleteConds(LookupClass(change.1).value, change.1)))
  {
    var (modes, fn) := change;
    match LookupClass(fn)
    case None => Ok(db)
    case Some(t) =>
      if 'D' in modes then Ok(DeleteWhere(db, t, DeleteConds(t, fn)))
      else
        var lst :- FromDisk(files, t, fn);
        Upsert(db, lst, 'A' in modes)
  }

  /** The changed paths applied in turn. */
  function ApplyChanges(db: Db, files: map<string, Json>, changes: seq<(string, string)>): Result<Db>
    decreases changes
  {
    if changes == [] then Ok(db)
    else
      var d :- ApplyChange(db, files, changes[0]);
      ApplyChanges(d, files, changes[1..])
  }

  /** The `offtrac_meta` table replaced by the metadata rows. */
  function MetaReplaced(d: Db, fdb: FileDb): Result<Db> {
    InsertAll(Clear(d, OfftracMeta), OrmifyOfftracMeta(fdb))
  }

  /** `ETL.incremental_reindex(git_head)`, given what `git diff
      --name-status <git_head>...HEAD` printed: the changes, then the
      `offtrac_meta` table replaced. */
  function IncrementalSpec(db: Db, fdb: FileDb, diff: Result<string>): Result<Db> {
    match diff
    case Err(f) => Err(f)
    case Ok(out) =>
      match ApplyChanges(db, fdb.files, Git.DiffEntries(SplitLines(out, false)))
      case Err(f) => Err(f)
      case Ok(d) => MetaReplaced(d, fdb)
  }

  /** Every row `full_reindex` adds, in the order it adds them. */
  function FullRows(fdb: FileDb): (r: Result<seq<Obj>>)
    ensures r.Ok? ==> forall o | o in r.value :: o.table != OfftracMeta
  {
    var fields :- OrmifyFields(fdb, FIELD_CLASSES);
    var enums :- OrmifyEnum(fdb, ENUM_TYPES);
    var tickets :- TicketDocs(fdb.files, DirDocs(fdb, "ticket"));
    var reports :- ReportDocs(fdb.files, DirDocs(fdb, "report"));
    var changes :- ChangelogDocs(fdb.files, DirDocs(fdb, "changelog"));
    Ok(fields + enums + tickets + reports + changes)
  }

  /** `ETL.full_reindex()`: every table emptied, then every document's rows
      and the metadata rows added. */
  function FullSpec(db: Db, fdb: FileDb): Result<Db> {
    var rows :- FullRows(fdb);
    InsertAll(ClearAll(db, MODEL_CLASSES), rows + OrmifyOfftracMeta(fdb))
  }

  /** `ETL.reindex()`: incremental from the recorded commit when there is
      one, from scratch otherwise; `diffOf` stands for the git diff the
      incremental reindex runs. */
  function ReindexSpec(db: Db, fdb: FileDb, diffOf: Json -> Result<string>): Result<Db> {
    var head := StoredHead(db);
    if Truthy(head) then IncrementalSpec(db, fdb, diffOf(head)) else FullSpec(db, fdb)
  }

  /** A transaction's outcome: its statements on success, the tables as
      they were on failure. */
  function Commit(db: Db, r: Result<Db>): (d: Db)
    ensures r.Ok? ==> d == r.value
    ensures r.Err? ==> d == db
  {
    if r.Ok? then r.value else db
  }

  /** Whether a transaction committed, or the fault that aborted it. */
  function Status(r: Result<Db>): (s: Result<()>)
    ensures s.Ok? <==> r.Ok?
    ensures r.Err? ==> s == Err(r.fault)
  {
    if r.Ok? then Ok(()) else Err(r.fault)
  }

  /** `session.add_all(objs)`, one row at a time. */
  method AddAll(db: Db, objs: seq<Obj>) returns (r: Result<Db>)
    ensures r == InsertAll(db, objs)
  {
    var d := db;
    var i := 0;
    while i < |objs|
      invariant i <= |objs|
      invariant InsertAll(db, objs) == InsertAll(d, objs[i..])
    {
      assert objs[i..][0] == objs[i] && objs[i..][1..] == objs[i + 1..];
      var next := Insert(d, objs[i]);
      if next.Err? {
        return Err(next.fault);
      }
      d := next.value;
      i := i + 1;
    }
    return Ok(d);
  }

  /** `for obj in lst: session.merge(obj)`. */
  method MergeEach(db: Db, objs: seq<Obj>) returns (r: Result<Db>)
    ensures r == MergeAll(db, objs)
  {
    var d := db;
    var i := 0;
    while i < |objs|
      invariant i <= |objs|
      invariant MergeAll(db, objs) == MergeAll(d, objs[i..])
    {
      assert objs[i..][0] == objs[i] && objs[i..][1..] == objs[i + 1..];
      var next := Merge(d, objs[i]);
      if next.Err? {
        return Err(next.fault);
      }
      d := next.value;
      i := i + 1;
    }
    return Ok(d);
  }

  /** The body of `incremental_reindex`'s loop for one changed path. */
  method ApplyOne(db: Db, files: map<string, Json>, change: (string, string)) returns (r: Result<Db>)
    ensures r == ApplyChange(db, files, change)
  {
    var (modes, fn) := change;
    var cls := LookupClass(fn);
    if cls.None? {
      return Ok(db);
    }
    var t := cls.value;
    if 'D' in modes {
      return Ok(DeleteWhere(db, t, DeleteConds(t, fn)));
    }
    var lst := LoadRows(files, t, fn);
    if lst.Err? {
      return Err(lst.fault);
    }
    if 'A' in modes {
      r := AddAll(db, lst.value);
    } else {
      r := MergeEach(db, lst.value);
    }
  }

  /** `for Class in ts: session.query(Class).delete()`. */
  method ClearTables(db: Db, ts: seq<Table>) returns (d: Db)
    ensures d == ClearAll(db, ts)
  {
    d := db;
    var i := 0;
    while i < |ts|
      invariant i <= |ts|
      invariant forall x :: x in d <==> x in db && x.0 !in ts[..i]
      invariant forall x | x in d :: d[x] == db[x]
    {
      d := Clear(d, ts[i]);
      i := i + 1;
    }
    assert ts[..i] == ts;
  }

  // ---------------------------------------------------------- properties

  /** A changelog's path resolves to `ticket_change` and names its
      ticket, when the name needs no unquoting. */
  lemma ChangelogPath(q: string)
    requires '/' !in q && '%' !in q && '+' !in q
    ensures LookupClass("changelog/" + q + ".json") == Some(TicketChange)
    ensures PathId("changelog/" + q + ".json") == q
  {
    ChangelogClass(q);
    ChangelogId(q);
  }

  lemma ChangelogId(q: string)
    requires '/' !in q && '%' !in q && '+' !in q
    ensures PathId("changelog/" + q + ".json") == q
  {
    PathIdOfPlainName("changelog/", q);
  }

  lemma ChangelogClass(q: string)
    requires '/' !in q
    ensures LookupClass("changelog/" + q + ".json") == Some(TicketChange)
  {
    var name := q + ".json";
    JsonNameNoSlash(q);
    assert "changelog/" + q + ".json" == "changelog" + "/" + name;
    LookupDocument("changelog", name);
  }

  lemma JsonNameNoSlash(q: string)
    requires '/' !in q
    ensures '/' !in q + ".json"
  {
    assert forall i | 0 <= i < |q + ".json"| :: (q + ".json")[i] in q || (q + ".json")[i] in ".json";
  }

  /** The condition `ticket = '<q>'` holds of exactly the rows of the
      ticket whose id `q` spells. */
  lemma TicketMatches(row: Row, q: string, n: int)
    requires ParseInteger(q) == Some(n)
    ensures Matches(TicketChange, row, [("ticket", JStr(q))]) <==> "ticket" in row && row["ticket"] == JInt(n)
  {
    var conds := [("ticket", JStr(q))];
    assert Affinity(TicketChange, "ticket", JStr(q)) == JInt(n);
    assert Matches(TicketChange, row, conds) <==>
      "ticket" in row && !row["ticket"].JNull? && row["ticket"] == JInt(n) by {
      assert conds[0] == ("ticket", JStr(q));
    }
  }

  /** `ticket = '<q>'` deletes exactly the change rows of ticket `n`. */
  lemma DeleteTicketRows(db: Db, q: string, n: int)
    requires ParseInteger(q) == Some(n)
    ensures DeleteWhere(db, TicketChange, [("ticket", JStr(q))]) ==
      map x | x in db && !(x.0 == TicketChange && "ticket" in db[x] && db[x]["ticket"] == JInt(n)) :: db[x]
  {
    var d := DeleteWhere(db, TicketChange, [("ticket", JStr(q))]);
    var m := map x | x in db && !(x.0 == TicketChange && "ticket" in db[x] && db[x]["ticket"] == JInt(n)) :: db[x];
    forall x | x in db {
      TicketMatches(db[x], q, n);
    }
    assert forall x :: x in d <==> x in m;
    assert forall x | x in d :: d[x] == m[x];
  }

  /** Deleting the changelog `changelog/<q>.json` deletes the change rows
      whose ticket is `q`. */
  lemma DeleteChangelog(db: Db, files: map<string, Json>, modes: string, q: string)
    requires 'D' in modes && '/' !in q && '%' !in q && '+' !in q
    ensures ApplyChange(db, files, (modes, "changelog/" + q + ".json")) ==
      Ok(DeleteWhere(db, TicketChange, [("ticket", JStr(q))]))
  {
    var fn := "changelog/" + q + ".json";
    ChangelogPath(q);
    TicketConds(q);
    assert DeleteConds(TicketChange, fn) == [("ticket", JStr(q))];
    DeleteBy(db, files, modes, fn, TicketChange, [("ticket", JStr(q))]);
  }

  /** A change row is deleted by its ticket column, the first column of
      the `ticket_change` key. */
  lemma TicketConds(id: string)
    ensures [(PrimaryKey(TicketChange)[0], JStr(id))] == [("ticket", JStr(id))]
  {
    assert PrimaryKey(TicketChange)[0] == "ticket";
  }

  /** A deletion removes the rows its conditions, once worked out, match. */
  lemma DeleteBy(db: Db, files: map<string, Json>, modes: string, fn: string, t: Table, conds: seq<(string, Json)>)
    requires 'D' in modes && LookupClass(fn) == Some(t) && DeleteConds(t, fn) == conds
    ensures ApplyChange(db, files, (modes, fn)) == Ok(DeleteWhere(db, t, conds))
  {
  }

  /** Deleting a ticket's changelog removes exactly that ticket's change
      rows: the file name carries the ticket id, `ticket` is the first
      column of the primary key, and its INTEGER affinity reads the id
      back. */
  lemma ChangelogDelete(db: Db, files: map<string, Json>, modes: string, n: int)
    requires 'D' in modes
    ensures ApplyChange(db, files, (modes, "changelog/" + Decimal(n) + ".json")) ==
      Ok(map x | x in db && !(x.0 == TicketChange && "ticket" in db[x] && db[x]["ticket"] == JInt(n)) :: db[x])
  {
    DecimalChars(n);
    DecimalRoundTrip(n);
    DeleteChangelog(db, files, modes, Decimal(n));
    DeleteTicketRows(db, Decimal(n), n);
  }

  /** An added document's rows are inserted under keys no row had, and
      nothing else changes. */
  lemma AddChange(db: Db, files: map<string, Json>, modes: string, fn: string)
    requires LookupClass(fn).Some? && 'D' !in modes && 'A' in modes
    requires ApplyChange(db, files, (modes, fn)).Ok?
    ensures FromDisk(files, LookupClass(fn).value, fn).Ok?
    ensures var rows := RowsOf(FromDisk(files, LookupClass(fn).value, fn).value);
      db.Keys !! rows.Keys && ApplyChange(db, files, (modes, fn)).value == db + rows
  {
    var lst := FromDisk(files, LookupClass(fn).value, fn).value;
    InsertAllAdds(db, lst);
  }

  /** A modified document's rows are merged: every row stays, each derived
      row's columns are stored under its key, and rows the document does
      not derive are unchanged. */
  lemma MergeChange(db: Db, files: map<string, Json>, modes: string, fn: string)
    requires LookupClass(fn).Some? && 'D' !in modes && 'A' !in modes
    requires ApplyChange(db, files, (modes, fn)).Ok?
    ensures FromDisk(files, LookupClass(fn).value, fn).Ok?
    ensures var r := ApplyChange(db, files, (modes, fn)).value;
      var rows := RowsOf(FromDisk(files, LookupClass(fn).value, fn).value);
      && db.Keys <= r.Keys
      && (forall x | x in rows :: x in r && forall c | c in rows[x] :: c in r[x] && r[x][c] == rows[x][c])
      && (forall x | x in db && x !in rows :: r[x] == db[x])
  {
    var lst := FromDisk(files, LookupClass(fn).value, fn).value;
    var rows := RowsOf(lst);
    MergeAllKeeps(db, lst);
    forall x | x in rows {
      MergeAllStores(db, lst, x);
    }
    forall x | x in db && x !in rows {
      MergeAllUntouched(db, lst, x);
    }
  }

  /** Changes to field value documents (`field/<name>/<id>.json`) resolve
      to no table, so the incremental reindex leaves the tables as they
      were. */
  lemma {:induction false} FieldChangesIgnored(db: Db, files: map<string, Json>, changes: seq<(string, string)>)
    requires forall i | 0 <= i < |changes| :: exists field, name ::
      '/' !in field && '/' !in name && changes[i].1 == "field/" + field + "/" + name
    ensures ApplyChanges(db, files, changes) == Ok(db)
    decreases changes
  {
    if changes != [] {
      var field, name :| '/' !in field && '/' !in name && changes[0].1 == "field/" + field + "/" + name;
      LookupFieldValue(field, name);
      FieldChangesIgnored(db, files, changes[1..]);
    }
  }

  /** A full reindex does not depend on what the tables held. */
  lemma FullFromScratch(db: Db, fdb: FileDb)
    ensures FullSpec(db, fdb) == FullSpec(map[], fdb)
  {
    ClearModelEmpties(db);
    ClearModelEmpties(map[]);
  }

  /** The row stored for the metadata item `k`. */
  function MetaStored(k: string, v: Json): (s: Row)
    ensures s.Keys == {"key", "value"} && s["key"] == JStr(k) && s["value"] == Affinity(OfftracMeta, "value", v)
  {
    Stored(OfftracMeta, MetaRow(k, v).row)
  }

  /** A metadata row is keyed by its key; a list or dictionary value cannot
      be bound. */
  lemma MetaPrepare(k: string, v: Json)
    ensures Scalar(v) ==> Prepare(MetaRow(k, v)) == Ok(([JStr(k)], MetaStored(k, v)))
    ensures !Scalar(v) ==> Prepare(MetaRow(k, v)) == Err(InterfaceError)
  {
    var row := MetaRow(k, v).row;
    var s := MetaStored(k, v);
    assert PrimaryKey(OfftracMeta) == ["key"];
    if Scalar(v) {
      assert Bindable(row);
      assert KeyValue(OfftracMeta, s, "key");
      assert KeyOf(OfftracMeta, s).value == [JStr(k)];
    } else {
      assert row["value"] == v;
    }
  }

  /** `x` is where one of the items of `meta` is stored. */
  predicate ItemKey(x: (Table, Key), meta: map<string, Json>) {
    x.0 == OfftracMeta && |x.1| == 1 && x.1[0].JStr? && x.1[0].s in meta
  }

  /** The metadata items store rows under their own keys only. */
  lemma {:induction false} MetaRowsKeys(meta: map<string, Json>, ks: seq<string>)
    requires forall o | o in MetaObjs(meta, ks) :: Prepare(o).Ok?
    ensures forall x: (Table, Key) | x in RowsOf(MetaObjs(meta, ks)) :: ItemKey(x, meta) && x.1[0].s in ks
    decreases ks
  {
    if ks != [] {
      var objs := MetaObjs(meta, ks);
      var rest := MetaObjs(meta, ks[1..]);
      assert forall o | o in rest :: o in objs;
      MetaRowsKeys(meta, ks[1..]);
      if ks[0] in meta {
        var k := ks[0];
        var o := MetaRow(k, meta[k]);
        assert objs == [o] + rest && o in objs;
        MetaPrepare(k, meta[k]);
        RowsOfCons(o, rest);
      } else {
        assert objs == rest;
      }
    }
  }

  /** The rows the metadata items store, when all of them can be stored:
      one per item, under its key. */
  lemma {:induction false} MetaRowsOf(meta: map<string, Json>, ks: seq<string>)
    requires forall o | o in MetaObjs(meta, ks) :: Prepare(o).Ok?
    ensures forall k | k in ks && k in meta ::
      Scalar(meta[k]) && MetaKey(k) in RowsOf(MetaObjs(meta, ks)) && RowsOf(MetaObjs(meta, ks))[MetaKey(k)] == MetaStored(k, meta[k])
    decreases ks
  {
    if ks != [] {
      var objs := MetaObjs(meta, ks);
      var rest := MetaObjs(meta, ks[1..]);
      assert forall o | o in rest :: o in objs;
      MetaRowsOf(meta, ks[1..]);
      if ks[0] in meta {
        var o := MetaRow(ks[0], meta[ks[0]]);
        assert objs == [o] + rest && o in objs;
        MetaPrepare(ks[0], meta[ks[0]]);
        RowsOfCons(o, rest);
        MetaRowsKeys(meta, ks[1..]);
        forall k | k in ks && k in meta
          ensures Scalar(meta[k]) && MetaKey(k) in RowsOf(objs) && RowsOf(objs)[MetaKey(k)] == MetaStored(k, meta[k])
        {
          if k !in ks[1..] {
            assert MetaKey(k) !in RowsOf(rest);
          }
        }
      } else {
        assert objs == rest;
        forall k | k in ks && k in meta
          ensures Scalar(meta[k]) && MetaKey(k) in RowsOf(objs) && RowsOf(objs)[MetaKey(k)] == MetaStored(k, meta[k])
        {
          assert k in ks[1..];
        }
      }
    }
  }

  /** Adding the metadata rows to tables with no `offtrac_meta` row: the
      HEAD commit and every metadata item are stored under their keys,
      the metadata has no `git_head` item of its own, and no other row
      changes. */
  lemma MetaInserted(d: Db, fdb: FileDb)
    requires fdb.Valid()
    requires forall x | x in d :: x.0 != OfftracMeta
    requires InsertAll(d, OrmifyOfftracMeta(fdb)).Ok?
    ensures var r := InsertAll(d, OrmifyOfftracMeta(fdb)).value;
      && "git_head" !in fdb.metadata
      && MetaKey("git_head") in r && r[MetaKey("git_head")] == MetaStored("git_head", JStr(fdb.gitHead))
      && (forall k | k in fdb.metadata ::
            Scalar(fdb.metadata[k]) && MetaKey(k) in r && r[MetaKey(k)] == MetaStored(k, fdb.metadata[k]))
      && (forall x | x in r && x.0 == OfftracMeta :: x == MetaKey("git_head") || ItemKey(x, fdb.metadata))
      && (forall x | x in d :: x in r && r[x] == d[x])
  {
    var objs := OrmifyOfftracMeta(fdb);
    var head := MetaRow("git_head", JStr(fdb.gitHead));
    var rest := MetaObjs(fdb.metadata, fdb.metaOrder);
    assert objs == [head] + rest;
    InsertAllAdds(d, objs);
    InsertAllPrepared(d, objs);
    assert forall o | o in rest :: o in objs;
    MetaRowsOf(fdb.metadata, fdb.metaOrder);
    MetaRowsKeys(fdb.metadata, fdb.metaOrder);
    MetaPrepare("git_head", JStr(fdb.gitHead));
    var d' := d[MetaKey("git_head") := MetaStored("git_head", JStr(fdb.gitHead))];
    assert InsertAll(d, objs) == InsertAll(d', rest);
    InsertAllAdds(d', rest);
    RowsOfCons(head, rest);
  }

  /** `offtrac_meta` replaced wholesale: it holds the HEAD commit under
      `git_head` and every metadata item under its key, nothing else, and
      a reindex reads the HEAD commit back. */
  predicate MetaHolds(r: Db, fdb: FileDb) {
    && "git_head" !in fdb.metadata
    && StoredHead(r) == JStr(fdb.gitHead)
    && (forall k | k in fdb.metadata ::
          Scalar(fdb.metadata[k]) && MetaKey(k) in r && r[MetaKey(k)] == MetaStored(k, fdb.metadata[k]))
    && (forall x | x in r && x.0 == OfftracMeta :: x == MetaKey("git_head") || ItemKey(x, fdb.metadata))
  }

  /** Both reindexes end with `offtrac_meta` replaced wholesale: it holds
      the HEAD commit under `git_head` and every metadata item under its
      key, nothing else, and the next reindex reads the HEAD commit back. */
  lemma ReindexReplacesMeta(db: Db, fdb: FileDb, diffOf: Json -> Result<string>)
    requires fdb.Valid()
    requires ReindexSpec(db, fdb, diffOf).Ok?
    ensures var r := ReindexSpec(db, fdb, diffOf).value;
      && "git_head" !in fdb.metadata
      && StoredHead(r) == JStr(fdb.gitHead)
      && (forall k | k in fdb.metadata ::
            Scalar(fdb.metadata[k]) && MetaKey(k) in r && r[MetaKey(k)] == MetaStored(k, fdb.metadata[k]))
      && (forall x | x in r && x.0 == OfftracMeta :: x == MetaKey("git_head") || ItemKey(x, fdb.metadata))
  {
    var head := StoredHead(db);
    if Truthy(head) {
      IncrementalReplacesMeta(db, fdb, diffOf(head));
    } else {
      FullReplacesMeta(db, fdb);
    }
  }

  /** The incremental reindex replaces `offtrac_meta` wholesale. */
  lemma IncrementalReplacesMeta(db: Db, fdb: FileDb, diff: Result<string>)
    requires fdb.Valid() && IncrementalSpec(db, fdb, diff).Ok?
    ensures MetaHolds(IncrementalSpec(db, fdb, diff).value, fdb)
  {
    MetaReplacedHolds(ApplyChanges(db, fdb.files, Git.DiffEntries(SplitLines(diff.value, false))).value, fdb);
  }

  /** Replacing `offtrac_meta` by the metadata rows replaces it wholesale,
      whatever it held. */
  lemma MetaReplacedHolds(d: Db, fdb: FileDb)
    requires fdb.Valid() && MetaReplaced(d, fdb).Ok?
    ensures MetaHolds(MetaReplaced(d, fdb).value, fdb)
  {
    MetaInserted(Clear(d, OfftracMeta), fdb);
  }

  /** The full reindex replaces `offtrac_meta` wholesale. */
  lemma FullReplacesMeta(db: Db, fdb: FileDb)
    requires fdb.Valid() && FullSpec(db, fdb).Ok?
    ensures MetaHolds(FullSpec(db, fdb).value, fdb)
  {
    FullMetaFrom(db, fdb, FullRows(fdb).value);
  }

  /** Emptying every table and adding rows of other tables, then the
      metadata rows, replaces `offtrac_meta` wholesale. */
  lemma FullMetaFrom(db: Db, fdb: FileDb, rows: seq<Obj>)
    requires fdb.Valid() && forall o | o in rows :: o.table != OfftracMeta
    requires InsertAll(ClearAll(db, MODEL_CLASSES), rows + OrmifyOfftracMeta(fdb)).Ok?
    ensures MetaHolds(InsertAll(ClearAll(db, MODEL_CLASSES), rows + OrmifyOfftracMeta(fdb)).value, fdb)
  {
    var objs := OrmifyOfftracMeta(fdb);
    var cleared := ClearAll(db, MODEL_CLASSES);
    ClearModelEmpties(db);
    InsertAllAppend(cleared, rows, objs);
    var d := InsertAll(cleared, rows).value;
    InsertAllAdds(cleared, rows);
    RowsOfAvoids(rows, OfftracMeta);
    assert forall x | x in d :: x.0 != OfftracMeta;
    MetaInsertedHolds(d, fdb);
  }

  /** Inserting the metadata rows where `offtrac_meta` is empty fills it
      wholesale. */
  lemma MetaInsertedHolds(d: Db, fdb: FileDb)
    requires fdb.Valid() && forall x | x in d :: x.0 != OfftracMeta
    requires InsertAll(d, OrmifyOfftracMeta(fdb)).Ok?
    ensures MetaHolds(InsertAll(d, OrmifyOfftracMeta(fdb)).value, fdb)
  {
    MetaInserted(d, fdb);
  }

  /** After a reindex that ends well, the next one is incremental from the
      recorded commit exactly when that commit id is not empty. */
  lemma NextReindexIncremental(db: Db, fdb: FileDb, diffOf: Json -> Result<string>, next: Json -> Result<string>)
    requires fdb.Valid()
    requires ReindexSpec(db, fdb, diffOf).Ok?
    ensures var r := ReindexSpec(db, fdb, diffOf).value;
      ReindexSpec(r, fdb, next) ==
        if fdb.gitHead != "" then IncrementalSpec(r, fdb, next(JStr(fdb.gitHead))) else FullSpec(r, fdb)
  {
    HeadOfReindex(db, fdb, diffOf);
    ReindexFromHead(ReindexSpec(db, fdb, diffOf).value, fdb, next);
  }

  lemma HeadOfReindex(db: Db, fdb: FileDb, diffOf: Json -> Result<string>)
    requires fdb.Valid()
    requires ReindexSpec(db, fdb, diffOf).Ok?
    ensures StoredHead(ReindexSpec(db, fdb, diffOf).value) == JStr(fdb.gitHead)
  {
    ReindexReplacesMeta(db, fdb, diffOf);
  }

  /** Tables that record HEAD reindex incrementally from it exactly when
      its id is non-empty. */
  lemma ReindexFromHead(r: Db, fdb: FileDb, next: Json -> Result<string>)
    requires StoredHead(r) == JStr(fdb.gitHead)
    ensures ReindexSpec(r, fdb, next) ==
      if fdb.gitHead != "" then IncrementalSpec(r, fdb, next(JStr(fdb.gitHead))) else FullSpec(r, fdb)
  {
  }

  /** The reindexer over a snapshot and the tables it maintains. */
  class Index {
    const fdb: FileDb
    var db: Db

    constructor(fdb: FileDb, db: Db)
      ensures this.fdb == fdb && this.db == db
    {
      this.fdb := fdb;
      this.db := db;
    }

    /** `ETL.full_reindex()`. */
    method FullReindex() returns (r: Result<()>)
      modifies this
      ensures db == Commit(old(db), FullSpec(old(db), fdb))
      ensures r == Status(FullSpec(old(db), fdb))
    {
      var d := ClearTables(db, MODEL_CLASSES);
      var rows := FullRows(fdb);
      if rows.Err? {
        return Err(rows.fault);
      }
      var res := AddAll(d, rows.value + OrmifyOfftracMeta(fdb));
      if res.Err? {
        return Err(res.fault);
      }
      db := res.value;
      return Ok(());
    }

    /** `ETL.incremental_reindex(git_head)`. */
    method IncrementalReindex(head: Json, diffOf: Json -> Result<string>) returns (r: Result<()>)
      modifies this
      ensures db == Commit(old(db), IncrementalSpec(old(db), fdb, diffOf(head)))
      ensures r == Status(IncrementalSpec(old(db), fdb, diffOf(head)))
    {
      var out := diffOf(head);
      if out.Err? {
        return Err(out.fault);
      }
      var changes := Git.ParseGitStatus(out.value);
      ghost var applied := ApplyChanges(db, fdb.files, changes);
      assert IncrementalSpec(db, fdb, diffOf(head)) ==
        match applied
        case Err(f) => Err(f)
        case Ok(d) => MetaReplaced(d, fdb);
      var d := db;
      var i := 0;
      while i < |changes|
        invariant i <= |changes|
        invariant db == old(db)
        invariant applied == ApplyChanges(d, fdb.files, changes[i..])
      {
        assert changes[i..][0] == changes[i] && changes[i..][1..] == changes[i + 1..];
        var next := ApplyOne(d, fdb.files, changes[i]);
        if next.Err? {
          assert applied == Err(next.fault);
          return Err(next.fault);
        }
        d := next.value;
        i := i + 1;
      }
      assert applied == Ok(d);
      assert IncrementalSpec(old(db), fdb, diffOf(head)) == MetaReplaced(d, fdb);
      var res := AddAll(Clear(d, OfftracMeta), OrmifyOfftracMeta(fdb));
      if res.Err? {
        return Err(res.fault);
      }
      db := res.value;
      return Ok(());
    }

    /** `ETL.reindex()`: reads the recorded commit, then reindexes. */
    method Reindex(diffOf: Json -> Result<string>) returns (r: Result<()>)
      modifies this
      ensures db == Commit(old(db), ReindexSpec(old(db), fdb, diffOf))
      ensures r == Status(ReindexSpec(old(db), fdb, diffOf))
    {
      var head := StoredHead(db);
      if Truthy(head) {
        r := IncrementalReindex(head, diffOf);
      } else {
        r := FullReindex();
      }
    }
  }
}
