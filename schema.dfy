/** The relational side of the reindexer: the eight tables it fills (their
    columns, primary keys and INTEGER columns as `offtrac/model.py` declares
    them), how SQLite stores a value in a column, and the statements the
    reindexer issues: INSERT (`session.add`), an upsert by primary key
    (`session.merge`), DELETE ... WHERE, and DELETE of a whole table.

    A database is a map from (table, primary-key value) to the row stored
    under that key; a row maps column names to the values stored in them,
    and a column it does not hold is NULL. */
module Schema {
  import opened Json
  import opened Text

  datatype Table = Component | Version | Milestone | Enum | Report | TicketChange | Ticket | OfftracMeta

  /** `MODEL_CLASSES`, in declaration order. */
  const MODEL_CLASSES: seq<Table> := [Component, Version, Milestone, Enum, Report, TicketChange, Ticket, OfftracMeta]

  /** `FIELD_CLASSES`: the field tables whose documents are whole rows. */
  const FIELD_CLASSES: seq<Table> := [Component, Version, Milestone]

  /** The name each table is declared with. */
  function TableName(t: Table): string {
    match t
    case Component => "component"
    case Version => "version"
    case Milestone => "milestone"
    case Enum => "enum"
    case Report => "report"
    case TicketChange => "ticket_change"
    case Ticket => "ticket"
    case OfftracMeta => "offtrac_meta"
  }

  /** `TABLE_CLASS_MAP.get(name)`: the table declared as `name`, if any. */
  function TableOf(name: string): (r: Option<Table>)
    ensures forall t: Table :: r == Some(t) <==> TableName(t) == name
  {
    if name == "component" then Some(Component)
    else if name == "version" then Some(Version)
    else if name == "milestone" then Some(Milestone)
    else if name == "enum" then Some(Enum)
    else if name == "report" then Some(Report)
    else if name == "ticket_change" then Some(TicketChange)
    else if name == "ticket" then Some(Ticket)
    else if name == "offtrac_meta" then Some(OfftracMeta)
    else None
  }

  /** The columns of each table, in declaration order. */
  function Columns(t: Table): seq<string> {
    match t
    case OfftracMeta => ["key", "value"]
    case Ticket => ["id", "type", "time", "changetime", "component", "severity", "priority", "owner",
                    "reporter", "cc", "version", "milestone", "status", "resolution", "summary",
                    "description", "keywords"]
    case Version => ["name", "time", "description"]
    case Report => ["id", "author", "title", "query", "description"]
    case TicketChange => ["ticket", "time", "author", "field", "oldvalue", "newvalue"]
    case Enum => ["type", "name", "value"]
    case Component => ["name", "owner", "description"]
    case Milestone => ["name", "due", "completed", "description"]
  }

  /** The primary-key columns of each table, in declaration order; the
      first of them is the first column of the table. */
  function PrimaryKey(t: Table): (pk: seq<string>)
    ensures pk != [] && pk[0] == Columns(t)[0]
    ensures forall c | c in pk :: c in Columns(t)
  {
    match t
    case OfftracMeta => ["key"]
    case Ticket => ["id"]
    case Version => ["name"]
    case Report => ["id"]
    case TicketChange => ["ticket", "time", "field"]
    case Enum => ["type", "name"]
    case Component => ["name"]
    case Milestone => ["name"]
  }

  /** The INTEGER (and BIGINT, which is INTEGER) columns; all others are TEXT. */
  predicate IntegerColumn(t: Table, c: string) {
    match t
    case Ticket => c == "id" || c == "time" || c == "changetime"
    case Version => c == "time"
    case Report => c == "id"
    case TicketChange => c == "ticket" || c == "time"
    case Milestone => c == "due" || c == "completed"
    case _ => false
  }

  /** A table whose key is a single INTEGER column: SQLite's rowid, which
      holds integers only. */
  predicate RowidKey(t: Table) {
    t == Ticket || t == Report
  }

  /** Column affinity: the value a column of `t` stores for the bound value
      `v`. A boolean is bound as the integer 1 or 0; an INTEGER column reads
      text that is an integer literal as that integer; a TEXT column stores
      an integer as its decimal text. */
  function Affinity(t: Table, c: string, v: Json): (r: Json)
    ensures r.JNull? <==> v.JNull?
    ensures !r.JBool?
    ensures IntegerColumn(t, c) && v.JInt? ==> r == v
    ensures IntegerColumn(t, c) && v.JStr? ==> r == (if ParseInteger(v.s).Some? then JInt(ParseInteger(v.s).value) else v)
    ensures !IntegerColumn(t, c) && v.JStr? ==> r == v
    ensures !IntegerColumn(t, c) && v.JInt? ==> r == JStr(Decimal(v.i))
    ensures !v.JBool? && !v.JInt? && !v.JStr? ==> r == v
  {
    var w := if v.JBool? then JInt(if v.b then 1 else 0) else v;
    if IntegerColumn(t, c) then
      (if w.JStr? && ParseInteger(w.s).Some? then JInt(ParseInteger(w.s).value) else w)
    else if w.JInt? then JStr(Decimal(w.i))
    else w
  }

  /** Storing a stored value again changes nothing. */
  lemma AffinityIdempotent(t: Table, c: string, v: Json)
    ensures Affinity(t, c, Affinity(t, c, v)) == Affinity(t, c, v)
  {
  }

  type Row = map<string, Json>

  type Key = seq<Json>

  /** A mapped object: the row `cls(**data)` holds for table `cls`. */
  datatype Obj = Obj(table: Table, row: Row)

  type Db = map<(Table, Key), Row>

  /** `cls(**data)`: the keyword arguments must form a dictionary whose
      keys are all columns of the table. */
  function Construct(t: Table, data: Json): (r: Result<Obj>)
    ensures r.Ok? <==> data.JObj? && forall c | c in data.fields :: c in Columns(t)
    ensures r.Ok? ==> r.value.table == t && r.value.row == data.fields
    ensures r.Err? ==> r.fault == TypeError
  {
    if data.JObj? && forall c | c in data.fields :: c in Columns(t) then Ok(Obj(t, data.fields))
    else Err(TypeError)
  }

  /** Values the database driver can bind: lists and dictionaries are refused. */
  predicate Bindable(row: Row) {
    forall c | c in row :: !row[c].JList? && !row[c].JObj?
  }

  /** The row stored for `row`: each column's value after affinity. */
  function Stored(t: Table, row: Row): (s: Row)
    ensures s.Keys == row.Keys
    ensures forall c | c in row :: s[c] == Affinity(t, c, row[c])
  {
    map c | c in row :: Affinity(t, c, row[c])
  }

  /** A key column a stored row can be inserted with: NOT NULL, and an
      integer when it is the rowid. */
  predicate KeyValue(t: Table, s: Row, c: string) {
    c in s && !s[c].JNull? && (RowidKey(t) ==> s[c].JInt?)
  }

  /** The primary-key value of a stored row; a NULL key column (or a rowid
      that is not an integer) is a constraint violation. */
  function KeyOf(t: Table, s: Row): (r: Result<Key>)
    ensures r.Ok? <==> forall c | c in PrimaryKey(t) :: KeyValue(t, s, c)
    ensures r.Ok? ==> |r.value| == |PrimaryKey(t)|
    ensures r.Ok? ==> forall i | 0 <= i < |r.value| :: PrimaryKey(t)[i] in s && r.value[i] == s[PrimaryKey(t)[i]]
    ensures r.Err? ==> r.fault == IntegrityError
  {
    var pk := PrimaryKey(t);
    if forall c | c in pk :: KeyValue(t, s, c) then
      assert forall i | 0 <= i < |pk| :: KeyValue(t, s, pk[i]);
      Ok(seq(|pk|, i requires 0 <= i < |pk| && pk[i] in s => s[pk[i]]))
    else Err(IntegrityError)
  }

  /** What the statement for `o` sends: the key and the stored row; a list
      or dictionary value cannot be bound, and the key must be valid. */
  function Prepare(o: Obj): (r: Result<(Key, Row)>)
    ensures r.Ok? <==> Bindable(o.row) && KeyOf(o.table, Stored(o.table, o.row)).Ok?
    ensures r.Ok? ==> r.value.1 == Stored(o.table, o.row) && r.value.0 == KeyOf(o.table, r.value.1).value
    ensures r.Err? ==> r.fault == InterfaceError || r.fault == IntegrityError
  {
    if !Bindable(o.row) then Err(InterfaceError)
    else
      var s := Stored(o.table, o.row);
      var k :- KeyOf(o.table, s);
      Ok((k, s))
  }

  /** INSERT of `o`: a new row under its key; a row already stored under
      that key is a UNIQUE violation. Every other row is unchanged. */
  function Insert(db: Db, o: Obj): (r: Result<Db>)
    ensures r.Ok? <==> Prepare(o).Ok? && (o.table, Prepare(o).value.0) !in db
    ensures r.Ok? ==> r.value.Keys == db.Keys + {(o.table, Prepare(o).value.0)}
    ensures r.Ok? ==> r.value[(o.table, Prepare(o).value.0)] == Prepare(o).value.1
    ensures r.Ok? ==> forall x | x in db :: r.value[x] == db[x]
    ensures r.Err? ==> r.fault == InterfaceError || r.fault == IntegrityError
  {
    var (k, s) :- Prepare(o);
    if (o.table, k) in db then Err(IntegrityError) else Ok(db[(o.table, k) := s])
  }

  /** `session.merge(o)`: the row under `o`'s key takes `o`'s columns and
      keeps its other columns, or is inserted when no row has that key.
      No row is removed and every other row is unchanged. */
  function Merge(db: Db, o: Obj): (r: Result<Db>)
    ensures r.Ok? <==> Prepare(o).Ok?
    ensures r.Ok? ==> var key := (o.table, Prepare(o).value.0);
      && r.value.Keys == db.Keys + {key}
      && r.value[key].Keys == Prepare(o).value.1.Keys + (if key in db then db[key].Keys else {})
      && (forall c | c in Prepare(o).value.1 :: r.value[key][c] == Prepare(o).value.1[c])
      && (key in db ==> forall c | c in db[key] && c !in Prepare(o).value.1 :: r.value[key][c] == db[key][c])
      && (forall x | x in db && x != key :: r.value[x] == db[x])
    ensures r.Err? ==> r.fault == InterfaceError || r.fault == IntegrityError
  {
    var (k, s) :- Prepare(o);
    var key := (o.table, k);
    Ok(db[key := if key in db then db[key] + s else s])
  }

  /** `session.add_all(objs)`: each object inserted in turn; the first
      failure is the result. */
  function InsertAll(db: Db, objs: seq<Obj>): Result<Db>
    decreases objs
  {
    if objs == [] then Ok(db)
    else
      var db' :- Insert(db, objs[0]);
      InsertAll(db', objs[1..])
  }

  /** `for obj in objs: session.merge(obj)`. */
  function MergeAll(db: Db, objs: seq<Obj>): Result<Db>
    decreases objs
  {
    if objs == [] then Ok(db)
    else
      var db' :- Merge(db, objs[0]);
      MergeAll(db', objs[1..])
  }

  /** A row satisfies `column = value` for each condition: the bound value
      is compared after the column's affinity, and NULL equals nothing. */
  predicate Matches(t: Table, row: Row, conds: seq<(string, Json)>) {
    forall i | 0 <= i < |conds| ::
      conds[i].0 in row && !row[conds[i].0].JNull? && row[conds[i].0] == Affinity(t, conds[i].0, conds[i].1)
  }

  /** `session.query(t).filter(conds).delete()`: exactly the rows of `t`
      that match are removed; every other row is unchanged. */
  function DeleteWhere(db: Db, t: Table, conds: seq<(string, Json)>): (r: Db)
    ensures forall x :: x in r <==> x in db && !(x.0 == t && Matches(t, db[x], conds))
    ensures forall x | x in r :: r[x] == db[x]
  {
    map x | x in db && !(x.0 == t && Matches(t, db[x], conds)) :: db[x]
  }

  /** `session.query(t).delete()`: every row of `t` is removed, every other
      row is unchanged. */
  function Clear(db: Db, t: Table): (r: Db)
    ensures forall x :: x in r <==> x in db && x.0 != t
    ensures forall x | x in r :: r[x] == db[x]
  {
    map x | x in db && x.0 != t :: db[x]
  }

  /** Deleting every row of each table in `ts`, in turn. */
  function ClearAll(db: Db, ts: seq<Table>): (r: Db)
    ensures forall x :: x in r <==> x in db && x.0 !in ts
    ensures forall x | x in r :: r[x] == db[x]
  {
    if ts == [] then db else ClearAll(Clear(db, ts[0]), ts[1..])
  }

  /** Deleting every model table leaves no row at all. */
  lemma ClearModelEmpties(db: Db)
    ensures ClearAll(db, MODEL_CLASSES) == map[]
  {
    forall x | x in db ensures x.0 in MODEL_CLASSES {
      match x.0
      case Component =>
      case Version =>
      case Milestone =>
      case Enum =>
      case Report =>
      case TicketChange =>
      case Ticket =>
      case OfftracMeta =>
    }
  }

  /** The rows a sequence of objects stores, under their keys (objects
      that cannot be stored contribute nothing; a later object replaces an
      earlier one under the same key). */
  function RowsOf(objs: seq<Obj>): map<(Table, Key), Row>
    decreases objs
  {
    if objs == [] then map[]
    else
      var rest := RowsOf(objs[1..]);
      match Prepare(objs[0])
      case Ok((k, s)) => map[(objs[0].table, k) := s] + rest
      case Err(_) => rest
  }

  /** A successful `add_all` stores every object, each under a key no row
      had, and keeps every row it found: the result is the old rows plus
      exactly the objects' rows. */
  lemma {:induction false} InsertAllAdds(db: Db, objs: seq<Obj>)
    requires InsertAll(db, objs).Ok?
    ensures db.Keys !! RowsOf(objs).Keys
    ensures InsertAll(db, objs).value == db + RowsOf(objs)
    decreases objs
  {
    if objs != [] {
      var o := objs[0];
      var (k, s) := Prepare(o).value;
      var db' := db[(o.table, k) := s];
      assert (o.table, k) !in db && InsertAll(db, objs) == InsertAll(db', objs[1..]);
      InsertAllAdds(db', objs[1..]);
      UnionStep(db, (o.table, k), s, RowsOf(objs[1..]));
    }
  }

  lemma UnionStep<K, V>(db: map<K, V>, k: K, v: V, rest: map<K, V>)
    requires k !in db && db[k := v].Keys !! rest.Keys
    ensures db + (map[k := v] + rest) == db[k := v] + rest
    ensures db.Keys !! (map[k := v] + rest).Keys
  {
  }

  /** Every object of a successful `add_all` could be stored. */
  lemma {:induction false} InsertAllPrepared(db: Db, objs: seq<Obj>)
    requires InsertAll(db, objs).Ok?
    ensures forall o | o in objs :: Prepare(o).Ok?
    decreases objs
  {
    if objs != [] {
      InsertAllPrepared(Insert(db, objs[0]).value, objs[1..]);
      assert forall o | o in objs :: o == objs[0] || o in objs[1..];
    }
  }

  /** Merging never removes a row: every key stored before is stored after. */
  lemma {:induction false} MergeAllKeeps(db: Db, objs: seq<Obj>)
    requires MergeAll(db, objs).Ok?
    ensures db.Keys <= MergeAll(db, objs).value.Keys
    decreases objs
  {
    if objs != [] {
      MergeAllKeeps(Merge(db, objs[0]).value, objs[1..]);
    }
  }

  /** Merging never clears a column: every non-key column a row held keeps a
      value (the old one, or one a merged object set). */
  lemma {:induction false} MergeAllKeepsColumns(db: Db, objs: seq<Obj>, x: (Table, Key), c: string)
    requires MergeAll(db, objs).Ok? && x in db && c in db[x]
    ensures x in MergeAll(db, objs).value && c in MergeAll(db, objs).value[x]
    decreases objs
  {
    if objs != [] {
      var db' := Merge(db, objs[0]).value;
      assert x in db' && c in db'[x];
      MergeAllKeepsColumns(db', objs[1..], x, c);
    }
  }

  /** A row no merged object is keyed by is left as it was. */
  lemma {:induction false} MergeAllUntouched(db: Db, objs: seq<Obj>, x: (Table, Key))
    requires MergeAll(db, objs).Ok? && x in db && x !in RowsOf(objs)
    ensures x in MergeAll(db, objs).value && MergeAll(db, objs).value[x] == db[x]
    decreases objs
  {
    if objs != [] {
      var o := objs[0];
      var db' := Merge(db, o).value;
      assert (o.table, Prepare(o).value.0) in RowsOf(objs);
      assert x in db' && db'[x] == db[x];
      MergeAllUntouched(db', objs[1..], x);
    }
  }

  /** A successful merge stores every object under its key: each column
      the last object under that key sets holds that object's value. */
  lemma {:induction false} MergeAllStores(db: Db, objs: seq<Obj>, x: (Table, Key))
    requires MergeAll(db, objs).Ok? && x in RowsOf(objs)
    ensures x in MergeAll(db, objs).value
    ensures forall c | c in RowsOf(objs)[x] ::
      c in MergeAll(db, objs).value[x] && MergeAll(db, objs).value[x][c] == RowsOf(objs)[x][c]
    decreases objs
  {
    var o := objs[0];
    var db' := Merge(db, o).value;
    if x in RowsOf(objs[1..]) {
      MergeAllStores(db', objs[1..], x);
    } else {
      assert x == (o.table, Prepare(o).value.0) && RowsOf(objs)[x] == Prepare(o).value.1;
      MergeAllUntouched(db', objs[1..], x);
    }
  }

  /** The rows of a list: its head's row, unless a later object replaces it. */
  lemma RowsOfCons(o: Obj, rest: seq<Obj>)
    requires Prepare(o).Ok?
    ensures RowsOf([o] + rest) == map[(o.table, Prepare(o).value.0) := Prepare(o).value.1] + RowsOf(rest)
  {
    assert ([o] + rest)[0] == o && ([o] + rest)[1..] == rest;
  }

  /** Adding two lists is adding the first, then the second. */
  lemma {:induction false} InsertAllAppend(db: Db, a: seq<Obj>, b: seq<Obj>)
    ensures InsertAll(db, a + b) ==
      match InsertAll(db, a)
      case Ok(d) => InsertAll(d, b)
      case Err(f) => Err(f)
    decreases a
  {
    if a != [] {
      assert (a + b)[0] == a[0] && (a + b)[1..] == a[1..] + b;
      match Insert(db, a[0])
      case Ok(d) => InsertAllAppend(d, a[1..], b);
      case Err(_) =>
    }
    else {
      assert a + b == b;
    }
  }

  /** Objects of other tables store no row of table `t`. */
  lemma {:induction false} RowsOfAvoids(objs: seq<Obj>, t: Table)
    requires forall o | o in objs :: o.table != t
    ensures forall x | x in RowsOf(objs) :: x.0 != t
    decreases objs
  {
    if objs != [] {
      assert forall o | o in objs[1..] :: o in objs;
      RowsOfAvoids(objs[1..], t);
    }
  }

  /** A merge of objects whose keys are all absent is an insert of them. */
  lemma {:induction false} MergeOfAbsentIsInsert(db: Db, o: Obj)
    requires Prepare(o).Ok? && (o.table, Prepare(o).value.0) !in db
    ensures Merge(db, o) == Insert(db, o)
  {
  }
}
