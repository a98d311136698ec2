/** Python 2 equality, ordering, `max` and `str()` on decoded JSON values, as
    the watermark (`max(new_recent, changed)`), the version checks of
    `upgrade` and the change clock (`bigtime > old_bigtime`) use them. */
module PyValue {
  import opened Json
  import Text

  predicate IsNumber(v: Json) { v.JBool? || v.JInt? }

  /** The numeric value of a bool or int (`True == 1`). */
  function Num(v: Json): int
    requires IsNumber(v)
  {
    if v.JBool? then (if v.b then 1 else 0) else v.i
  }

  /** Python 2 orders values of unrelated types: None first, then numbers,
      then the rest by type name ("dict" < "list" < "str"/"unicode"). */
  function Rank(v: Json): (k: nat)
    ensures k <= 4
  {
    match v
    case JNull => 0
    case JBool(_) => 1
    case JInt(_) => 1
    case JObj(_) => 2
    case JList(_) => 3
    case JStr(_) => 4
  }

  /** `a == b`: numbers by value, containers member by member. */
  predicate PyEq(a: Json, b: Json)
    decreases a
  {
    if IsNumber(a) || IsNumber(b) then IsNumber(a) && IsNumber(b) && Num(a) == Num(b)
    else match a
      case JNull => b.JNull?
      case JStr(s) => b.JStr? && b.s == s
      case JList(xs) =>
        b.JList? && |b.items| == |xs| && forall i | 0 <= i < |xs| :: PyEq(xs[i], b.items[i])
      case JObj(m) =>
        b.JObj? && b.fields.Keys == m.Keys && forall k | k in m :: PyEq(m[k], b.fields[k])
      case _ => false
  }

  /** The first index from `i` on where two lists hold unequal members, or
      the length of the shorter list. */
  function FirstDiff(xs: seq<Json>, ys: seq<Json>, i: nat): (j: nat)
    requires i <= |xs| && i <= |ys|
    ensures i <= j <= |xs| && j <= |ys|
    ensures forall k | i <= k < j :: PyEq(xs[k], ys[k])
    ensures j < |xs| && j < |ys| ==> !PyEq(xs[j], ys[j])
    decreases |xs| - i
  {
    if i == |xs| || i == |ys| || !PyEq(xs[i], ys[i]) then i else FirstDiff(xs, ys, i + 1)
  }

  /** `a < b` in Python 2. Two dictionaries of the same size are not
      ordered here (Python compares their smallest differing keys). */
  predicate PyLess(a: Json, b: Json)
    decreases a
  {
    if Rank(a) != Rank(b) then Rank(a) < Rank(b)
    else match a
      case JNull => false
      case JStr(s) => Text.LexLess(s, b.s)
      case JList(xs) =>
        var j := FirstDiff(xs, b.items, 0);
        if j < |xs| && j < |b.items| then PyLess(xs[j], b.items[j]) else |xs| < |b.items|
      case JObj(m) => |m| < |b.fields|
      case _ => Num(a) < Num(b)
  }

  /** `max(a, b)`: `b` only when `b > a`, so the first of two equal values
      wins. */
  function PyMax(a: Json, b: Json): (m: Json)
    ensures m == a || m == b
    ensures PyLess(a, b) ==> m == b
    ensures !PyLess(a, b) ==> m == a
  {
    if PyLess(a, b) then b else a
  }

  lemma {:induction false} PyEqReflexive(a: Json)
    ensures PyEq(a, a)
    decreases a
  {
    match a {
      case JList(xs) =>
        forall i | 0 <= i < |xs| ensures PyEq(xs[i], xs[i]) {
          PyEqReflexive(xs[i]);
        }
      case JObj(m) =>
        forall k | k in m ensures PyEq(m[k], m[k]) {
          PyEqReflexive(m[k]);
        }
      case _ =>
    }
  }

  /** No value is below itself. */
  lemma {:induction false} PyLessIrreflexive(a: Json)
    ensures !PyLess(a, a)
  {
    match a {
      case JStr(s) => Text.LexLessIrreflexive(s);
      case JList(xs) =>
        forall i | 0 <= i < |xs| ensures PyEq(xs[i], xs[i]) {
          PyEqReflexive(xs[i]);
        }
        assert FirstDiff(xs, xs, 0) == |xs|;
      case _ =>
    }
  }

  /** On strings the order is Python's string order, and `max` picks the
      later string. */
  lemma PyMaxStrings(a: string, b: string)
    ensures PyLess(JStr(a), JStr(b)) <==> Text.LexLess(a, b)
    ensures PyMax(JStr(a), JStr(b)) == JStr(Text.StrMax(a, b))
  {
  }

  /** On integers (and bools) the order is numeric; None is below every
      number and every number below every string. */
  lemma PyLessNumbers(a: Json, b: Json)
    requires IsNumber(a) && IsNumber(b)
    ensures PyLess(a, b) <==> Num(a) < Num(b)
    ensures PyEq(a, b) <==> Num(a) == Num(b)
    ensures PyLess(JNull, a) && !PyLess(a, JNull)
    ensures forall s: string :: PyLess(a, JStr(s)) && !PyLess(JStr(s), a)
  {
  }

  /** `str(v)` / `unicode(v)` / `'%s' % (v,)` of a scalar; containers are
      printed with `repr` formatting, which is not modelled (None here). */
  function PyStr(v: Json): (r: Text.Option<string>)
    ensures r.None? <==> v.JList? || v.JObj?
    ensures v.JStr? ==> r == Text.Some(v.s)
  {
    match v
    case JNull => Text.Some("None")
    case JBool(b) => Text.Some(if b then "True" else "False")
    case JInt(i) => Text.Some(Text.Decimal(i))
    case JStr(s) => Text.Some(s)
    case _ => Text.None
  }

  /** Different integers print to different names. */
  lemma PyStrIntInjective(a: int, b: int)
    requires PyStr(JInt(a)) == PyStr(JInt(b))
    ensures a == b
  {
    Text.DecimalInjective(a, b);
  }
}
