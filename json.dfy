/** JSON values as the tracker's JSON-RPC wire and the snapshot documents carry
    them, the Python exceptions the sync and the reindexer can raise, and the
    datetime wire normaliser (`jsondatetime` / `normalize_in_place`). */
module Json {

  /** The exceptions the modelled code can raise. A raise is a value here;
      callers propagate it, as the Python code does. */
  datatype Fault =
    | MalformedWrapper   // a `__jsonclass__` value that is not ["datetime", x, ...]
    | KeyError
    | TypeError
    | ValueError
    | IndexError
    | AssertionError
    | IntegrityError     // a relational constraint (duplicate or NULL primary key)
    | IOError            // a file that cannot be opened
    | OSError            // a file that cannot be removed
    | AttributeError     // `.get` on metadata that is not a dictionary
    | DBError            // snapshot metadata version no longer supported
    | ProcessError       // a git command that exits with a non-zero status
    | InterfaceError     // a list or dictionary bound as an SQL parameter

  datatype Result<+T> = Ok(value: T) | Err(fault: Fault) {
    predicate IsFailure() { Err? }
    function PropagateFailure<U>(): Result<U>
      requires Err?
    {
      Err(fault)
    }
    function Extract(): T
      requires Ok?
    {
      value
    }
  }

  /** A decoded JSON value; numbers are integers (floats are not modelled). */
  datatype Json =
    | JNull
    | JBool(b: bool)
    | JInt(i: int)
    | JStr(s: string)
    | JList(items: seq<Json>)
    | JObj(fields: map<string, Json>)

  /** Python truthiness of a decoded value. */
  predicate Truthy(v: Json) {
    match v
    case JNull => false
    case JBool(b) => b
    case JInt(i) => i != 0
    case JStr(s) => s != ""
    case JList(xs) => xs != []
    case JObj(m) => m != map[]
  }

  const CLASS_KEY: string := "__jsonclass__"

  /** The wire form of a datetime: {"__jsonclass__": ["datetime", s]}. */
  function JsonDatetime(s: Json): (w: Json)
    ensures w.JObj? && w.fields.Keys == {CLASS_KEY}
    ensures w.fields[CLASS_KEY] == JList([JStr("datetime"), s])
  {
    JObj(map[CLASS_KEY := JList([JStr("datetime"), s])])
  }

  /** What `normalize_in_place` returns for an object carrying the class key:
      the second element of the class value, after asserting that the first
      one is "datetime". Indexing a value that is not a long enough list
      raises too; every such failure is one fault here. */
  function Unwrap(v: Json): (r: Result<Json>)
    ensures r.Ok? <==> v.JList? && |v.items| >= 2 && v.items[0] == JStr("datetime")
    ensures r.Ok? ==> r.value == v.items[1]
    ensures r.Err? ==> r.fault == MalformedWrapper
  {
    if v.JList? && |v.items| >= 2 && v.items[0] == JStr("datetime") then Ok(v.items[1])
    else Err(MalformedWrapper)
  }

  /** The value `normalize_in_place` leaves behind: every outermost wrapper
      object is replaced by its payload (which is not normalised further);
      every other object and list is rebuilt from its normalised members. */
  function Normalize(o: Json): Result<Json>
  {
    match o
    case JObj(m) =>
      if CLASS_KEY in m then Unwrap(m[CLASS_KEY])
      else if forall k | k in m :: Normalize(m[k]).Ok? then
        Ok(JObj(map k | k in m :: Normalize(m[k]).value))
      else Err(MalformedWrapper)
    case JList(xs) =>
      if forall i | 0 <= i < |xs| :: Normalize(xs[i]).Ok? then
        Ok(JList(seq(|xs|, i requires 0 <= i < |xs| => Normalize(xs[i]).value)))
      else Err(MalformedWrapper)
    case _ => Ok(o)
  }

  /** `normalize_in_place`: walks the value, rewriting every dict entry and
      list slot whose normalised form differs. The Python code mutates the
      containers it is given; here each container is a local copy that the
      loop rewrites slot by slot and that is returned at the end. */
  method NormalizeInPlace(o: Json) returns (r: Result<Json>)
    ensures r == Normalize(o)
    decreases o
  {
    match o {
      case JObj(m) =>
        if CLASS_KEY in m {
          return Unwrap(m[CLASS_KEY]);
        }
        var cur := m;
        var todo := m.Keys;
        while todo != {}
          invariant todo <= m.Keys && cur.Keys == m.Keys
          invariant forall k | k in m && k !in todo :: Normalize(m[k]) == Ok(cur[k])
          invariant forall k | k in todo :: cur[k] == m[k]
          decreases todo
        {
          var k :| k in todo;
          var v1 := NormalizeInPlace(m[k]);
          if v1.Err? {
            return Err(MalformedWrapper);
          }
          cur := cur[k := v1.value];
          todo := todo - {k};
        }
        assert forall k | k in m :: Normalize(m[k]).Ok?;
        ghost var r := Normalize(o).value.fields;
        assert r.Keys == cur.Keys && forall k | k in m :: r[k] == cur[k];
        assert cur == r;
        return Ok(JObj(cur));
      case JList(xs) =>
        var cur := xs;
        var i := 0;
        while i < |xs|
          invariant 0 <= i <= |xs| && |cur| == |xs|
          invariant forall j | 0 <= j < i :: Normalize(xs[j]) == Ok(cur[j])
          invariant cur[i..] == xs[i..]
        {
          assert cur[i] == cur[i..][0];
          var v1 := NormalizeInPlace(xs[i]);
          if v1.Err? {
            return Err(MalformedWrapper);
          }
          cur := cur[i := v1.value];
          i := i + 1;
        }
        assert cur == seq(|xs|, j requires 0 <= j < |xs| => Normalize(xs[j]).value);
        return Ok(JList(cur));
      case _ =>
        return Ok(o);
    }
  }

  /** No object at any depth carries the class key. */
  ghost predicate WrapperFree(o: Json) {
    match o
    case JObj(m) => CLASS_KEY !in m && forall k | k in m :: WrapperFree(m[k])
    case JList(xs) => forall i | 0 <= i < |xs| :: WrapperFree(xs[i])
    case _ => true
  }

  /** Every outermost wrapper is a well-formed datetime wrapper whose payload
      is itself wrapper-free (a timestamp string, as the tracker sends). */
  ghost predicate CleanPayloads(o: Json) {
    match o
    case JObj(m) =>
      if CLASS_KEY in m then Unwrap(m[CLASS_KEY]).Ok? && WrapperFree(Unwrap(m[CLASS_KEY]).value)
      else forall k | k in m :: CleanPayloads(m[k])
    case JList(xs) => forall i | 0 <= i < |xs| :: CleanPayloads(xs[i])
    case _ => true
  }

  /** `r` is `o` with its outermost wrappers replaced by their payloads:
      object keys, list lengths and the scalars outside wrappers are kept. */
  ghost predicate Unwrapped(o: Json, r: Json) {
    match o
    case JObj(m) =>
      if CLASS_KEY in m then Unwrap(m[CLASS_KEY]) == Ok(r)
      else r.JObj? && r.fields.Keys == m.Keys && forall k | k in m :: Unwrapped(m[k], r.fields[k])
    case JList(xs) =>
      r.JList? && |r.items| == |xs| && forall i | 0 <= i < |xs| :: Unwrapped(xs[i], r.items[i])
    case _ => r == o
  }

  /** Round trip: normalising the wire form of any value gives that value back. */
  lemma NormalizeDatetime(s: Json)
    ensures Normalize(JsonDatetime(s)) == Ok(s)
  {
  }

  /** An already wrapper-free value is left exactly as it is. */
  lemma {:induction false} NormalizeFixesWrapperFree(o: Json)
    requires WrapperFree(o)
    ensures Normalize(o) == Ok(o)
    decreases o
  {
    match o {
      case JObj(m) =>
        forall k | k in m ensures Normalize(m[k]) == Ok(m[k]) {
          NormalizeFixesWrapperFree(m[k]);
        }
        assert forall k | k in m :: Normalize(m[k]).Ok?;
        ghost var r := Normalize(o).value.fields;
        assert r.Keys == m.Keys && forall k | k in m :: r[k] == m[k];
        assert r == m;
      case JList(xs) =>
        forall i | 0 <= i < |xs| ensures Normalize(xs[i]) == Ok(xs[i]) {
          NormalizeFixesWrapperFree(xs[i]);
        }
        assert seq(|xs|, i requires 0 <= i < |xs| => Normalize(xs[i]).value) == xs;
      case _ =>
    }
  }

  /** Normalisation succeeds with a wrapper-free result exactly when every
      wrapper it meets is well formed and carries a wrapper-free payload. */
  lemma {:induction false} NormalizeRemovesWrappers(o: Json)
    ensures CleanPayloads(o) <==> Normalize(o).Ok? && WrapperFree(Normalize(o).value)
    decreases o
  {
    match o {
      case JObj(m) =>
        if CLASS_KEY !in m {
          forall k | k in m
            ensures CleanPayloads(m[k]) <==> Normalize(m[k]).Ok? && WrapperFree(Normalize(m[k]).value)
          {
            NormalizeRemovesWrappers(m[k]);
          }
          if forall k | k in m :: Normalize(m[k]).Ok? {
            var r := Normalize(o).value.fields;
            assert forall k | k in m :: r[k] == Normalize(m[k]).value;
          }
        }
      case JList(xs) =>
        forall i | 0 <= i < |xs|
          ensures CleanPayloads(xs[i]) <==> Normalize(xs[i]).Ok? && WrapperFree(Normalize(xs[i]).value)
        {
          NormalizeRemovesWrappers(xs[i]);
        }
        if Normalize(o).Ok? {
          var ys := Normalize(o).value.items;
          assert forall i | 0 <= i < |xs| :: ys[i] == Normalize(xs[i]).value;
        }
      case _ =>
    }
  }

  /** On values whose wrappers carry wrapper-free payloads, normalising twice
      is the same as normalising once. */
  lemma NormalizeIdempotent(o: Json)
    requires CleanPayloads(o)
    ensures Normalize(o).Ok?
    ensures Normalize(Normalize(o).value) == Normalize(o)
  {
    NormalizeRemovesWrappers(o);
    NormalizeFixesWrapperFree(Normalize(o).value);
  }

  /** A wrapper nested inside a payload survives one pass: the payload of
      `normalize_in_place` is returned unnormalised. */
  lemma NestedPayloadSurvives()
    ensures var o := JsonDatetime(JsonDatetime(JStr("2020-01-01T00:00:00")));
      Normalize(o) == Ok(JsonDatetime(JStr("2020-01-01T00:00:00"))) &&
      !WrapperFree(Normalize(o).value)
  {
  }

  /** A successful normalisation keeps the structure: same keys, same list
      lengths, same scalars, wrappers replaced by their payloads. */
  lemma {:induction false} NormalizeKeepsShape(o: Json)
    requires Normalize(o).Ok?
    ensures Unwrapped(o, Normalize(o).value)
    decreases o
  {
    match o {
      case JObj(m) =>
        if CLASS_KEY !in m {
          forall k | k in m ensures Unwrapped(m[k], Normalize(m[k]).value) {
            NormalizeKeepsShape(m[k]);
          }
        }
      case JList(xs) =>
        var ys := Normalize(o).value.items;
        forall i | 0 <= i < |xs| ensures Unwrapped(xs[i], ys[i]) {
          NormalizeKeepsShape(xs[i]);
        }
      case _ =>
    }
  }
}
