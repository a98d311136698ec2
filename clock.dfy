/** The reindexer's time conversions: `iso8601_to_trac_time`, which turns a
    snapshot timestamp into Trac's epoch milliseconds, and `new_bigtime`,
    the clock that keeps the change times of one ticket strictly
    increasing. */
module Clock {
  import opened Json
  import opened PyValue
  import CivilTime

  /** `iso8601_to_trac_time`: a falsy value is returned as it is; text is
      parsed as `%Y-%m-%dT%H:%M:%S` in UTC and becomes milliseconds since
      the epoch; `strptime` rejects any other value with a TypeError. */
  function TracTime(v: Json): (r: Result<Json>)
    ensures !Truthy(v) ==> r == Ok(v)
    ensures Truthy(v) && !v.JStr? ==> r == Err(TypeError)
    ensures Truthy(v) && v.JStr? ==> (r.Ok? <==> CivilTime.ParseIso(v.s).Some?)
    ensures Truthy(v) && r.Err? ==> r.fault == TypeError || r.fault == ValueError
    ensures Truthy(v) && r.Ok? ==> r.value.JInt? && r.value.i % 1000 == 0
  {
    if !Truthy(v) then Ok(v)
    else if !v.JStr? then Err(TypeError)
    else
      var t := CivilTime.ParseIso(v.s);
      if t.None? then Err(ValueError) else Ok(JInt(Millis(CivilTime.Timegm(t.value))))
  }

  /** Seconds to milliseconds, `int(seconds * 1000)`. */
  function Millis(secs: int): (ms: int)
    ensures ms % 1000 == 0 && ms / 1000 == secs
  {
    secs * 1000
  }

  /** A timestamp written in the tracker's format converts to its epoch
      seconds times 1000. */
  lemma TracTimeOfIso(t: CivilTime.DateTime)
    requires CivilTime.Valid(t)
    ensures TracTime(JStr(CivilTime.IsoFormat(t))) == Ok(JInt(Millis(CivilTime.Timegm(t))))
  {
    var s := CivilTime.IsoFormat(t);
    CivilTime.ParseIsoFormat(t);
    assert Truthy(JStr(s));
  }

  /** The conversion is strictly monotone: a later timestamp (the earlier
      one not being a leap second) converts to a larger number. */
  lemma TracTimeMonotone(a: string, b: string)
    requires CivilTime.ParseIso(a).Some? && CivilTime.ParseIso(b).Some?
    requires CivilTime.Before(CivilTime.ParseIso(a).value, CivilTime.ParseIso(b).value)
    requires CivilTime.ParseIso(a).value.second <= 59
    ensures match (TracTime(JStr(a)), TracTime(JStr(b)))
      case (Ok(JInt(x)), Ok(JInt(y))) => x < y
      case _ => false
  {
    ParsedTimegmMonotone(a, b);
    TracTimeOfParsed(a);
    TracTimeOfParsed(b);
    MillisMonotone(CivilTime.Timegm(CivilTime.ParseIso(a).value), CivilTime.Timegm(CivilTime.ParseIso(b).value));
  }

  lemma ParsedTimegmMonotone(a: string, b: string)
    requires CivilTime.ParseIso(a).Some? && CivilTime.ParseIso(b).Some?
    requires CivilTime.Before(CivilTime.ParseIso(a).value, CivilTime.ParseIso(b).value)
    requires CivilTime.ParseIso(a).value.second <= 59
    ensures CivilTime.Timegm(CivilTime.ParseIso(a).value) < CivilTime.Timegm(CivilTime.ParseIso(b).value)
  {
    CivilTime.TimegmMonotone(CivilTime.ParseIso(a).value, CivilTime.ParseIso(b).value);
  }

  /** Any text the parser accepts converts to its epoch seconds times 1000. */
  lemma TracTimeOfParsed(s: string)
    requires CivilTime.ParseIso(s).Some?
    ensures TracTime(JStr(s)) == Ok(JInt(Millis(CivilTime.Timegm(CivilTime.ParseIso(s).value))))
  {
    assert Truthy(JStr(s));
  }

  lemma MillisMonotone(x: int, y: int)
    requires x < y
    ensures Millis(x) < Millis(y)
  {
  }

  /** The epoch itself converts to 0, and the snapshot's oldest watermark
      "2000-01-01T00:00:00" to 946684800000. */
  lemma TracTimeEpoch()
    ensures TracTime(JStr("1970-01-01T00:00:00")) == Ok(JInt(0))
  {
    CivilTime.EpochExample();
    TracTimeOfIso(CivilTime.DateTime(1970, 1, 1, 0, 0, 0));
  }

  lemma TracTimeY2k()
    ensures TracTime(JStr("2000-01-01T00:00:00")) == Ok(JInt(946684800000))
  {
    CivilTime.Y2kExample();
    TracTimeOfIso(CivilTime.DateTime(2000, 1, 1, 0, 0, 0));
  }

  /** `old + 1` in Python: defined for numbers only. */
  function Succ(v: Json): (r: Result<Json>)
    ensures IsNumber(v) <==> r.Ok?
    ensures r.Ok? ==> r.value == JInt(Num(v) + 1)
    ensures r.Err? ==> r.fault == TypeError
  {
    if IsNumber(v) then Ok(JInt(Num(v) + 1)) else Err(TypeError)
  }

  /** `new_bigtime(isodatetime, old_bigtime)`: the converted time, unless a
      previous time exists that it does not exceed, in which case one
      millisecond after the previous time. */
  function NewBigtime(iso: Json, prev: Json): (r: Result<Json>)
    ensures TracTime(iso).Err? ==> r == TracTime(iso)
    ensures prev.JNull? ==> r == TracTime(iso)
    ensures prev.JInt? && TracTime(iso).Ok? && TracTime(iso).value.JInt? ==>
      var t := TracTime(iso).value.i;
      r.Ok? && r.value.JInt? && r.value.i > prev.i && r.value.i >= t &&
      (r.value.i == t || r.value.i == prev.i + 1)
  {
    var bigtime :- TracTime(iso);
    if prev.JNull? || PyLess(prev, bigtime) then Ok(bigtime) else Succ(prev)
  }

  /** How unpacking a value that is not a list into a fixed number of
      names ends, where one of the names is then converted as a timestamp
      (a ticket document, a change-log entry). A string unpacks into its
      characters: of the wrong length that is a ValueError, and of the
      right length the timestamp is a one-character string, which
      `strptime` rejects with a ValueError too (OneCharNoTime). A
      dictionary unpacks into its keys, and is taken as a ValueError the
      same way. None, a bool or a number cannot be unpacked. */
  function UnpackFault(v: Json): (f: Fault)
    ensures f == ValueError <==> v.JStr? || v.JObj?
    ensures f != ValueError ==> f == TypeError
  {
    if v.JStr? || v.JObj? then ValueError else TypeError
  }

  /** A one-character string is no timestamp: converting it, or moving the
      change clock with it, is a ValueError. */
  lemma OneCharNoTime(c: char, prev: Json)
    ensures TracTime(JStr([c])) == Err(ValueError)
    ensures NewBigtime(JStr([c]), prev) == Err(ValueError)
  {
    assert Truthy(JStr([c]));
  }

  /** The first change of a ticket takes its own converted time. */
  lemma NewBigtimeFirst(iso: Json)
    ensures NewBigtime(iso, JNull) == TracTime(iso)
  {
  }
}
