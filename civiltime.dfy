/** Civil time in integer arithmetic, in place of Python 2.7's
    `time.strptime(s, '%Y-%m-%dT%H:%M:%S')` and `calendar.timegm`: the
    format's grammar, the proleptic Gregorian calendar with
    `date.toordinal()` numbering (1 January of year 1 is day 1), and seconds
    since 1970-01-01T00:00:00 UTC. */
module CivilTime {
  import opened Text

  datatype DateTime = DateTime(year: int, month: int, day: int, hour: int, minute: int, second: int)

  predicate Leap(y: int) {
    y % 4 == 0 && (y % 100 != 0 || y % 400 == 0)
  }

  function DaysInMonth(y: int, m: int): (n: int)
    requires 1 <= m <= 12
    ensures 28 <= n <= 31
  {
    if m == 2 then (if Leap(y) then 29 else 28)
    else if m == 4 || m == 6 || m == 9 || m == 11 then 30
    else 31
  }

  /** What `datetime.date(year, month, day)` accepts, together with the
      clock fields `strptime`'s grammar admits (61 is its largest second). */
  predicate Valid(t: DateTime) {
    1 <= t.year <= 9999 && 1 <= t.month <= 12 && 1 <= t.day <= DaysInMonth(t.year, t.month) &&
    0 <= t.hour <= 23 && 0 <= t.minute <= 59 && 0 <= t.second <= 61
  }

  /** Days in the years before `y`. */
  function DaysBeforeYear(y: int): int
    requires y >= 1
  {
    var p := y - 1;
    p * 365 + p / 4 - p / 100 + p / 400
  }

  /** Days in the months of year `y` before month `m`. */
  function DaysBeforeMonth(y: int, m: int): (n: int)
    requires 1 <= m <= 13
    ensures 0 <= n
    ensures n <= 31 * (m - 1)
    decreases m
  {
    if m == 1 then 0 else DaysBeforeMonth(y, m - 1) + DaysInMonth(y, m - 1)
  }

  /** `date(y, m, d).toordinal()`. */
  function Ordinal(y: int, m: int, d: int): int
    requires y >= 1 && 1 <= m <= 12
  {
    DaysBeforeYear(y) + DaysBeforeMonth(y, m) + d
  }

  /** `date(1970, 1, 1).toordinal()`, `calendar`'s `_EPOCH_ORD`. */
  const EPOCH_ORDINAL: int := 719163

  /** `calendar.timegm` of the parsed fields: whole days since the epoch
      times 86400, plus the clock time (a second of 60 or 61 is simply
      added). */
  function Timegm(t: DateTime): int
    requires Valid(t)
  {
    var days := Ordinal(t.year, t.month, 1) - EPOCH_ORDINAL + t.day - 1;
    ((days * 24 + t.hour) * 60 + t.minute) * 60 + t.second
  }

  lemma EpochOrdinal()
    ensures Ordinal(1970, 1, 1) == EPOCH_ORDINAL
  {
  }

  /** A year adds 365 days, or 366 in a leap year. */
  lemma DaysBeforeNextYear(y: int)
    requires y >= 1
    ensures DaysBeforeYear(y + 1) == DaysBeforeYear(y) + (if Leap(y) then 366 else 365)
  {
    StepBy4(y);
    StepBy100(y);
    StepBy400(y);
    Divisors(y);
  }

  /** How many multiples of 4, 100 and 400 the year `y` adds. */
  lemma StepBy4(y: int)
    ensures y / 4 - (y - 1) / 4 == (if y % 4 == 0 then 1 else 0)
  {
  }

  lemma StepBy100(y: int)
    ensures y / 100 - (y - 1) / 100 == (if y % 100 == 0 then 1 else 0)
  {
  }

  lemma StepBy400(y: int)
    ensures y / 400 - (y - 1) / 400 == (if y % 400 == 0 then 1 else 0)
  {
  }

  lemma Divisors(y: int)
    ensures y % 400 == 0 ==> y % 100 == 0
    ensures y % 100 == 0 ==> y % 4 == 0
  {
    if y % 400 == 0 {
      Multiple(y, 400, 100, 4);
    }
    if y % 100 == 0 {
      Multiple(y, 100, 4, 25);
    }
  }

  /** A multiple of `a * b` is a multiple of `a`, for the divisors of the
      calendar. */
  lemma Multiple(y: int, n: int, a: int, b: int)
    requires (n, a, b) == (400, 100, 4) || (n, a, b) == (100, 4, 25)
    requires y % n == 0
    ensures y % a == 0
  {
    var q := y / n;
    assert y == n * q;
    if n == 400 {
      assert y == 100 * (4 * q);
      assert y / 100 == 4 * q;
    } else {
      assert y == 4 * (25 * q);
      assert y / 4 == 25 * q;
    }
  }

  /** The twelve months make up the year. */
  lemma DaysBeforeThirteenth(y: int)
    ensures DaysBeforeMonth(y, 13) == (if Leap(y) then 366 else 365)
  {
  }

  lemma {:induction false} DaysBeforeMonthMonotone(y: int, m: int, m': int)
    requires 1 <= m <= m' <= 13
    ensures DaysBeforeMonth(y, m) <= DaysBeforeMonth(y, m')
    decreases m' - m
  {
    if m < m' {
      DaysBeforeMonthMonotone(y, m, m' - 1);
    }
  }

  lemma {:induction false} DaysBeforeYearMonotone(y: int, y': int)
    requires 1 <= y <= y'
    ensures DaysBeforeYear(y) + (if y < y' then 365 else 0) <= DaysBeforeYear(y')
    decreases y' - y
  {
    if y < y' {
      DaysBeforeNextYear(y' - 1);
      DaysBeforeYearMonotone(y, y' - 1);
    }
  }

  /** A valid date falls before the first day of the next year. */
  lemma OrdinalWithinYear(t: DateTime)
    requires Valid(t)
    ensures Ordinal(t.year, t.month, t.day) <= DaysBeforeYear(t.year + 1)
  {
    assert DaysBeforeMonth(t.year, t.month + 1) == DaysBeforeMonth(t.year, t.month) + DaysInMonth(t.year, t.month);
    DaysBeforeMonthMonotone(t.year, t.month + 1, 13);
    DaysBeforeThirteenth(t.year);
    DaysBeforeNextYear(t.year);
  }

  /** Calendar order of valid dates is the order of their ordinals. */
  lemma OrdinalMonotone(a: DateTime, b: DateTime)
    requires Valid(a) && Valid(b)
    requires (a.year, a.month, a.day) != (b.year, b.month, b.day)
    requires a.year < b.year || (a.year == b.year && (a.month < b.month || (a.month == b.month && a.day < b.day)))
    ensures Ordinal(a.year, a.month, a.day) < Ordinal(b.year, b.month, b.day)
  {
    if a.year < b.year {
      OrdinalYearBefore(a, b);
    } else if a.month < b.month {
      OrdinalMonthBefore(a, b);
    }
  }

  lemma OrdinalYearBefore(a: DateTime, b: DateTime)
    requires Valid(a) && Valid(b) && a.year < b.year
    ensures Ordinal(a.year, a.month, a.day) < Ordinal(b.year, b.month, b.day)
  {
    OrdinalWithinYear(a);
    DaysBeforeYearMonotone(a.year + 1, b.year);
  }

  lemma OrdinalMonthBefore(a: DateTime, b: DateTime)
    requires Valid(a) && Valid(b) && a.year == b.year && a.month < b.month
    ensures Ordinal(a.year, a.month, a.day) < Ordinal(b.year, b.month, b.day)
  {
    assert DaysBeforeMonth(a.year, a.month + 1) == DaysBeforeMonth(a.year, a.month) + DaysInMonth(a.year, a.month);
    DaysBeforeMonthMonotone(a.year, a.month + 1, b.month);
  }

  /** The fields in the order they are written: year first, second last. */
  predicate Before(a: DateTime, b: DateTime) {
    a.year < b.year || (a.year == b.year && (a.month < b.month || (a.month == b.month &&
    (a.day < b.day || (a.day == b.day && (a.hour < b.hour || (a.hour == b.hour &&
    (a.minute < b.minute || (a.minute == b.minute && a.second < b.second)))))))))
  }

  /** A later timestamp has a later epoch time, as long as the earlier one
      is not a leap second (60 or 61). */
  lemma TimegmMonotone(a: DateTime, b: DateTime)
    requires Valid(a) && Valid(b) && Before(a, b) && a.second <= 59
    ensures Timegm(a) < Timegm(b)
  {
    var da := Ordinal(a.year, a.month, a.day);
    var db := Ordinal(b.year, b.month, b.day);
    assert Timegm(a) == (da - EPOCH_ORDINAL) * 86400 + a.hour * 3600 + a.minute * 60 + a.second;
    assert Timegm(b) == (db - EPOCH_ORDINAL) * 86400 + b.hour * 3600 + b.minute * 60 + b.second;
    if (a.year, a.month, a.day) != (b.year, b.month, b.day) {
      OrdinalMonotone(a, b);
    }
  }

  /** A leap second and the next minute's first second share an epoch
      time, so timestamps are only weakly ordered at a leap second. */
  lemma LeapSecondCollides()
    ensures var a := DateTime(2016, 12, 31, 23, 59, 60);
            var b := DateTime(2017, 1, 1, 0, 0, 0);
            Valid(a) && Valid(b) && Before(a, b) && Timegm(a) == Timegm(b)
  {
    var a := DateTime(2016, 12, 31, 23, 59, 60);
    var b := DateTime(2017, 1, 1, 0, 0, 0);
    DaysBeforeThirteenth(2016);
    DaysBeforeNextYear(2016);
    assert Ordinal(2016, 12, 1) + 30 == DaysBeforeYear(2016) + DaysBeforeMonth(2016, 13);
  }

  // ------------------------------------------------------------ the grammar

  /** `%m`: `1[0-2]|0[1-9]|[1-9]`. */
  predicate MonthField(f: string) {
    (|f| == 1 && '1' <= f[0] <= '9') ||
    (|f| == 2 && ((f[0] == '1' && '0' <= f[1] <= '2') || (f[0] == '0' && '1' <= f[1] <= '9')))
  }

  /** `%d`: `3[01]|[12]\d|0[1-9]|[1-9]| [1-9]`. */
  predicate DayField(f: string) {
    (|f| == 1 && '1' <= f[0] <= '9') ||
    (|f| == 2 && ((f[0] == '3' && '0' <= f[1] <= '1') || (('1' <= f[0] <= '2') && IsDigit(f[1])) ||
                  (f[0] == '0' && '1' <= f[1] <= '9') || (f[0] == ' ' && '1' <= f[1] <= '9')))
  }

  /** `%H`: `2[0-3]|[0-1]\d|\d`. */
  predicate HourField(f: string) {
    (|f| == 1 && IsDigit(f[0])) ||
    (|f| == 2 && ((f[0] == '2' && '0' <= f[1] <= '3') || (('0' <= f[0] <= '1') && IsDigit(f[1]))))
  }

  /** `%M`: `[0-5]\d|\d`. */
  predicate MinuteField(f: string) {
    (|f| == 1 && IsDigit(f[0])) || (|f| == 2 && '0' <= f[0] <= '5' && IsDigit(f[1]))
  }

  /** `%S`: `6[0-1]|[0-5]\d|\d`. */
  predicate SecondField(f: string) {
    (|f| == 1 && IsDigit(f[0])) ||
    (|f| == 2 && ((f[0] == '6' && '0' <= f[1] <= '1') || ('0' <= f[0] <= '5' && IsDigit(f[1]))))
  }

  /** `int(f)` of a field (a leading space is allowed by `int`). */
  function FieldValue(f: string): (n: nat)
    requires 1 <= |f| <= 2 && (f[0] == ' ' || IsDigit(f[0])) && IsDigit(f[|f| - 1])
    ensures n < 100
  {
    if |f| == 1 then DigitValue(f[0])
    else if f[0] == ' ' then DigitValue(f[1])
    else 10 * DigitValue(f[0]) + DigitValue(f[1])
  }

  function MonthOf(f: string): (r: Option<nat>)
    ensures r.Some? ==> 1 <= r.value <= 12
  {
    if MonthField(f) then Some(FieldValue(f)) else None
  }

  function DayOf(f: string): (r: Option<nat>)
    ensures r.Some? ==> 1 <= r.value <= 31
  {
    if DayField(f) then Some(FieldValue(f)) else None
  }

  function HourOf(f: string): (r: Option<nat>)
    ensures r.Some? ==> r.value <= 23
  {
    if HourField(f) then Some(FieldValue(f)) else None
  }

  function MinuteOf(f: string): (r: Option<nat>)
    ensures r.Some? ==> r.value <= 59
  {
    if MinuteField(f) then Some(FieldValue(f)) else None
  }

  function SecondOf(f: string): (r: Option<nat>)
    ensures r.Some? ==> r.value <= 61
  {
    if SecondField(f) then Some(FieldValue(f)) else None
  }

  /** Index of the first "T" or "t" (the format is matched ignoring case),
      or the length. */
  function FindT(s: string): (i: nat)
    ensures i <= |s|
    ensures i < |s| ==> s[i] == 'T' || s[i] == 't'
    ensures forall j | 0 <= j < i :: s[j] != 'T' && s[j] != 't'
  {
    if s == [] || s[0] == 'T' || s[0] == 't' then 0 else 1 + FindT(s[1..])
  }

  /** The year field, `\d\d\d\d`, and the "-" after it. */
  function ParseYear(s: string): (r: Option<nat>)
    ensures r.Some? ==> |s| >= 5 && r.value <= 9999
  {
    if |s| < 5 || !AllDigits(s[..4]) || s[4] != '-' then None
    else
      DigitsValueBound(s[..4]);
      Some(DigitsValue(s[..4]))
  }

  /** `%m-%dT` at the start of `s`: the month, the day and the text after
      the "T". */
  function ParseMonthDay(s: string): (r: Option<(nat, nat, string)>)
    ensures r.Some? ==> 1 <= r.value.0 <= 12 && 1 <= r.value.1 <= 31
  {
    var (mf, sep, rest) := Partition(s, '-');
    var i := FindT(rest);
    if !sep || i == |rest| then None
    else match (MonthOf(mf), DayOf(rest[..i]))
      case (Some(month), Some(day)) => Some((month, day, rest[i + 1..]))
      case _ => None
  }

  /** `%H:%M:%S` making up all of `s`. */
  function ParseClock(s: string): (r: Option<(nat, nat, nat)>)
    ensures r.Some? ==> r.value.0 <= 23 && r.value.1 <= 59 && r.value.2 <= 61
  {
    var (hf, sep1, rest) := Partition(s, ':');
    var (nf, sep2, sf) := Partition(rest, ':');
    if !sep1 || !sep2 then None
    else match (HourOf(hf), MinuteOf(nf), SecondOf(sf))
      case (Some(hour), Some(minute), Some(second)) => Some((hour, minute, second))
      case _ => None
  }

  /** `time.strptime(s, '%Y-%m-%dT%H:%M:%S')` followed by the date check
      `datetime.date` makes: None where Python raises ValueError. Every
      field is followed by a non-digit separator (or the end of the text),
      so each field is the text up to its separator. */
  function ParseIso(s: string): (r: Option<DateTime>)
    ensures r.Some? ==> Valid(r.value) && |s| >= 5
  {
    match ParseYear(s)
    case None => None
    case Some(year) =>
      match ParseMonthDay(s[5..])
      case None => None
      case Some((month, day, clock)) =>
        match ParseClock(clock)
        case None => None
        case Some((hour, minute, second)) =>
          if 1 <= year && day <= DaysInMonth(year, month)
          then Some(DateTime(year, month, day, hour, minute, second))
          else None
  }

  /** A run of `n` digits is below 10^n; four digits make at most 9999. */
  lemma {:induction false} DigitsValueBound(s: string)
    requires AllDigits(s) && |s| <= 4
    ensures DigitsValue(s) < (if |s| == 4 then 10000 else if |s| == 3 then 1000 else if |s| == 2 then 100 else if |s| == 1 then 10 else 1)
  {
    if s != [] {
      DigitsValueBound(s[..|s| - 1]);
    }
  }

  // ------------------------------------------------------- formatting back

  function Pad2(n: nat): (f: string)
    requires n < 100
    ensures |f| == 2 && IsDigit(f[0]) && IsDigit(f[1])
  {
    [DigitChar(n / 10), DigitChar(n % 10)]
  }

  function Pad4(n: nat): (f: string)
    requires n < 10000
    ensures |f| == 4 && AllDigits(f)
  {
    Pad2(n / 100) + Pad2(n % 100)
  }

  /** The timestamp written as the tracker writes it,
      `strftime('%Y-%m-%dT%H:%M:%S')`. */
  function IsoFormat(t: DateTime): string
    requires Valid(t)
  {
    Pad4(t.year) + "-" + Pad2(t.month) + "-" + Pad2(t.day) + "T" +
    Pad2(t.hour) + ":" + Pad2(t.minute) + ":" + Pad2(t.second)
  }

  /** Two digits, zero-padded, read back as the same field. */
  lemma Pad2Fields(n: nat)
    requires n < 100
    ensures 1 <= n <= 12 ==> MonthOf(Pad2(n)) == Some(n)
    ensures 1 <= n <= 31 ==> DayOf(Pad2(n)) == Some(n)
    ensures n <= 23 ==> HourOf(Pad2(n)) == Some(n)
    ensures n <= 59 ==> MinuteOf(Pad2(n)) == Some(n)
    ensures n <= 61 ==> SecondOf(Pad2(n)) == Some(n)
  {
    var f := Pad2(n);
    assert FieldValue(f) == n;
  }

  lemma DigitsValueAppend(s: string, c: char)
    requires AllDigits(s) && IsDigit(c)
    ensures DigitsValue(s + [c]) == 10 * DigitsValue(s) + DigitValue(c)
  {
    assert (s + [c])[..|s|] == s;
  }

  lemma Pad2Digits(n: nat)
    requires n < 100
    ensures DigitsValue(Pad2(n)) == n
  {
    var f := Pad2(n);
    DigitsValueAppend([], f[0]);
    assert f == [f[0]] + [f[1]];
    DigitsValueAppend([f[0]], f[1]);
  }

  lemma Pad4Value(n: nat)
    requires n < 10000
    ensures DigitsValue(Pad4(n)) == n
  {
    var hi, lo := Pad2(n / 100), Pad2(n % 100);
    Pad2Digits(n / 100);
    Pad2Digits(n % 100);
    var x := DigitsValue(hi);
    var d0, d1 := DigitValue(lo[0]), DigitValue(lo[1]);
    assert lo == [lo[0]] + [lo[1]];
    DigitsValueAppend([], lo[0]);
    DigitsValueAppend([lo[0]], lo[1]);
    assert 10 * d0 + d1 == n % 100;
    assert Pad4(n) == hi + [lo[0]] + [lo[1]];
    DigitsValueAppend(hi, lo[0]);
    DigitsValueAppend(hi + [lo[0]], lo[1]);
    assert DigitsValue(Pad4(n)) == 10 * (10 * x + d0) + d1;
  }

  lemma ParseClockFormat(h: nat, m: nat, sec: nat)
    requires h <= 23 && m <= 59 && sec <= 61
    ensures ParseClock(Pad2(h) + ":" + Pad2(m) + ":" + Pad2(sec)) == Some((h, m, sec))
  {
    var hf, mf, sf := Pad2(h), Pad2(m), Pad2(sec);
    assert hf + ":" + mf + ":" + sf == hf + [':'] + (mf + [':'] + sf);
    PartitionAt(hf, ':', mf + [':'] + sf);
    PartitionAt(mf, ':', sf);
    Pad2Fields(h);
    Pad2Fields(m);
    Pad2Fields(sec);
  }

  lemma ParseMonthDayFormat(m: nat, d: nat, clock: string)
    requires 1 <= m <= 12 && 1 <= d <= 31
    ensures ParseMonthDay(Pad2(m) + "-" + Pad2(d) + "T" + clock) == Some((m, d, clock))
  {
    var mf, df := Pad2(m), Pad2(d);
    var rest := df + "T" + clock;
    assert mf + "-" + df + "T" + clock == mf + ['-'] + rest;
    PartitionAt(mf, '-', rest);
    assert FindT(rest) == 2 by {
      assert rest[2] == 'T' && rest[0] == df[0] && rest[1] == df[1];
    }
    assert rest[..2] == df && rest[3..] == clock;
    Pad2Fields(m);
    Pad2Fields(d);
  }

  /** Round trip: parsing a formatted valid timestamp gives it back. */
  lemma ParseIsoFormat(t: DateTime)
    requires Valid(t)
    ensures ParseIso(IsoFormat(t)) == Some(t)
  {
    var s := IsoFormat(t);
    var clock := Pad2(t.hour) + ":" + Pad2(t.minute) + ":" + Pad2(t.second);
    var md := Pad2(t.month) + "-" + Pad2(t.day) + "T" + clock;
    assert s == Pad4(t.year) + "-" + md;
    assert s[..4] == Pad4(t.year) && s[4] == '-' && s[5..] == md;
    Pad4Value(t.year);
    assert ParseYear(s) == Some(t.year);
    ParseMonthDayFormat(t.month, t.day, clock);
    ParseClockFormat(t.hour, t.minute, t.second);
  }

  /** The epoch, written out, is second 0. */
  lemma EpochExample()
    ensures Valid(DateTime(1970, 1, 1, 0, 0, 0))
    ensures IsoFormat(DateTime(1970, 1, 1, 0, 0, 0)) == "1970-01-01T00:00:00"
    ensures Timegm(DateTime(1970, 1, 1, 0, 0, 0)) == 0
  {
    EpochWritten();
    EpochOrdinal();
  }

  lemma EpochWritten()
    ensures IsoFormat(DateTime(1970, 1, 1, 0, 0, 0)) == "1970-01-01T00:00:00"
  {
    assert Pad2(0) == "00" && Pad2(1) == "01";
    assert Pad4(1970) == "1970" by { assert Pad2(19) == "19" && Pad2(70) == "70"; }
  }

  /** The first second of 2000 is 946684800. */
  lemma Y2kExample()
    ensures Valid(DateTime(2000, 1, 1, 0, 0, 0))
    ensures IsoFormat(DateTime(2000, 1, 1, 0, 0, 0)) == "2000-01-01T00:00:00"
    ensures Timegm(DateTime(2000, 1, 1, 0, 0, 0)) == 946684800
  {
    Y2kWritten();
    Y2kSeconds();
  }

  lemma Y2kWritten()
    ensures IsoFormat(DateTime(2000, 1, 1, 0, 0, 0)) == "2000-01-01T00:00:00"
  {
    assert Pad2(0) == "00" && Pad2(1) == "01";
    assert Pad4(2000) == "2000" by { assert Pad2(20) == "20"; }
  }

  lemma Y2kSeconds()
    ensures Valid(DateTime(2000, 1, 1, 0, 0, 0))
    ensures Timegm(DateTime(2000, 1, 1, 0, 0, 0)) == 946684800
  {
    assert DaysBeforeYear(2000) == 730119;
    assert Ordinal(2000, 1, 1) - EPOCH_ORDINAL == 10957;
  }
}
