/** The Python 2 string operations the sync and the reindexer lean on: `partition`,
    `rpartition`, `split`, `splitlines`, `endswith`, `rstrip`, string ordering
    and decimal formatting of integers. */
module Text {

  datatype Option<+T> = None | Some(value: T)

  predicate StartsWith(s: string, p: string) {
    |p| <= |s| && s[..|p|] == p
  }

  /** A string that starts with `p + q` starts with `p`. */
  lemma StartsWithPrefix(s: string, p: string, q: string)
    requires StartsWith(s, p + q)
    ensures StartsWith(s, p)
  {
    assert s[..|p|] == (p + q)[..|p|];
  }

  /** Prefixes with different first characters exclude each other. */
  lemma PrefixesDiffer(s: string, p: string, q: string)
    requires StartsWith(s, p) && p != [] && q != [] && p[0] != q[0]
    ensures !StartsWith(s, q)
  {
    assert s[0] == s[..|p|][0];
  }

  predicate EndsWith(s: string, p: string) {
    |p| <= |s| && s[|s| - |p|..] == p
  }

  /** Index of the first occurrence of `c`. */
  function Find(s: string, c: char): (r: Option<nat>)
    ensures r.Some? ==> r.value < |s| && s[r.value] == c && c !in s[..r.value]
    ensures r.None? ==> c !in s
  {
    if s == [] then None
    else if s[0] == c then Some(0)
    else match Find(s[1..], c)
      case None => None
      case Some(i) => Some(i + 1)
  }

  /** Index of the last occurrence of `c`. */
  function RFind(s: string, c: char): (r: Option<nat>)
    ensures r.Some? ==> r.value < |s| && s[r.value] == c && c !in s[r.value + 1..]
    ensures r.None? ==> c !in s
  {
    if s == [] then None
    else if s[|s| - 1] == c then Some(|s| - 1)
    else
      var r := RFind(s[..|s| - 1], c);
      assert r.Some? ==> s[r.value + 1..] == s[..|s| - 1][r.value + 1..] + [s[|s| - 1]];
      assert s == s[..|s| - 1] + [s[|s| - 1]];
      r
  }

  /** `s.partition(c)` for a one-character separator: the text before the
      first `c`, whether `c` occurs, and the text after it. */
  function Partition(s: string, c: char): (r: (string, bool, string))
    ensures r.1 <==> c in s
    ensures r.1 ==> s == r.0 + [c] + r.2 && c !in r.0
    ensures !r.1 ==> r.0 == s && r.2 == ""
  {
    match Find(s, c)
    case None => (s, false, "")
    case Some(i) => (s[..i], true, s[i + 1..])
  }

  /** `Partition` at a separator that does not occur before it. */
  lemma PartitionAt(a: string, c: char, b: string)
    requires c !in a
    ensures Partition(a + [c] + b, c) == (a, true, b)
  {
    var s := a + [c] + b;
    var r := Partition(s, c);
    assert s[|a|] == c;
    assert r.0 == a;
    assert s[|a| + 1..] == b;
  }

  /** `s.rpartition(c)`: when `c` is absent Python returns ('', '', s). */
  function RPartition(s: string, c: char): (r: (string, bool, string))
    ensures r.1 <==> c in s
    ensures r.1 ==> s == r.0 + [c] + r.2 && c !in r.2
    ensures !r.1 ==> r.0 == "" && r.2 == s
  {
    match RFind(s, c)
    case None => ("", false, s)
    case Some(i) => (s[..i], true, s[i + 1..])
  }

  /** Number of occurrences of `c` in `s`. */
  function Count(s: string, c: char): nat {
    if s == [] then 0 else (if s[0] == c then 1 else 0) + Count(s[1..], c)
  }

  /** `sep.join(parts)` for a one-character separator. */
  function Join(parts: seq<string>, c: char): string
    requires |parts| >= 1
  {
    if |parts| == 1 then parts[0] else parts[0] + [c] + Join(parts[1..], c)
  }

  /** `s.split(c)`: the pieces between the occurrences of `c`. */
  function Split(s: string, c: char): (parts: seq<string>)
    ensures |parts| >= 1
    ensures forall i | 0 <= i < |parts| :: c !in parts[i]
    ensures Join(parts, c) == s
    ensures |parts| == Count(s, c) + 1
    decreases |s|
  {
    match Find(s, c)
    case None => CountAbsent(s, c); [s]
    case Some(i) =>
      CountSplit(s[..i], s[i + 1..], c);
      assert s == s[..i] + [c] + s[i + 1..];
      [s[..i]] + Split(s[i + 1..], c)
  }

  /** Splitting at a first separator that `a` does not contain. */
  lemma SplitAt(a: string, c: char, b: string)
    requires c !in a
    ensures Split(a + [c] + b, c) == [a] + Split(b, c)
  {
    PartitionAt(a, c, b);
  }

  /** Text without the separator is one piece. */
  lemma SplitNone(s: string, c: char)
    requires c !in s
    ensures Split(s, c) == [s]
  {
  }

  lemma {:induction false} CountAbsent(s: string, c: char)
    requires c !in s
    ensures Count(s, c) == 0
  {
    if s != [] {
      CountAbsent(s[1..], c);
    }
  }

  lemma {:induction false} CountSplit(a: string, b: string, c: char)
    requires c !in a
    ensures Count(a + [c] + b, c) == Count(b, c) + 1
  {
    if a == [] {
      assert (a + [c] + b)[1..] == b;
    } else {
      assert (a + [c] + b)[1..] == a[1..] + [c] + b;
      CountSplit(a[1..], b, c);
    }
  }

  /** The characters Python's `splitlines` breaks at (besides "\r\n"):
      byte strings break at "\n" and "\r" only, unicode text also at the
      vertical tab, form feed, file/group/record separators, NEL and the
      Unicode line and paragraph separators. */
  predicate IsLineBreak(ch: char, unicodeText: bool) {
    ch == '\n' || ch == '\r' ||
    (unicodeText && (ch == '\U{0b}' || ch == '\U{0c}' || ch == '\U{1c}' || ch == '\U{1d}' ||
                     ch == '\U{1e}' || ch == '\U{85}' || ch == '\U{2028}' || ch == '\U{2029}'))
  }

  /** `s` holds no line break, so `splitlines` keeps it whole. */
  predicate OneLine(s: string, unicodeText: bool) {
    forall j | 0 <= j < |s| :: !IsLineBreak(s[j], unicodeText)
  }

  /** Index of the first line break, or |s|. */
  function LineEnd(s: string, unicodeText: bool): (i: nat)
    ensures i <= |s|
    ensures i < |s| ==> IsLineBreak(s[i], unicodeText)
    ensures forall j | 0 <= j < i :: !IsLineBreak(s[j], unicodeText)
  {
    if s == [] || IsLineBreak(s[0], unicodeText) then 0
    else 1 + LineEnd(s[1..], unicodeText)
  }

  /** `s.splitlines()`: no trailing empty line, "\r\n" is one break. */
  function SplitLines(s: string, unicodeText: bool): (lines: seq<string>)
    ensures forall l, j | l in lines && 0 <= j < |l| :: !IsLineBreak(l[j], unicodeText)
    ensures s == [] <==> lines == []
    decreases |s|
  {
    if s == [] then []
    else
      var i := LineEnd(s, unicodeText);
      if i == |s| then [s]
      else
        var next := if s[i] == '\r' && i + 1 < |s| && s[i + 1] == '\n' then i + 2 else i + 1;
        [s[..i]] + SplitLines(s[next..], unicodeText)
  }

  /** Text made of `lines`, each followed by "\n" (how git prints its output). */
  function Unlines(lines: seq<string>): string {
    if lines == [] then "" else lines[0] + "\n" + Unlines(lines[1..])
  }

  /** Splitting newline-terminated output gives its lines back. */
  lemma {:induction false} SplitUnlines(lines: seq<string>, unicodeText: bool)
    requires forall l, j | l in lines && 0 <= j < |l| :: !IsLineBreak(l[j], unicodeText)
    ensures SplitLines(Unlines(lines), unicodeText) == lines
  {
    if lines != [] {
      var s := Unlines(lines);
      var l := lines[0];
      assert s == l + "\n" + Unlines(lines[1..]);
      LineEndOf(l, Unlines(lines[1..]), unicodeText);
      assert s[|l| + 1..] == Unlines(lines[1..]);
      SplitUnlines(lines[1..], unicodeText);
    }
  }

  lemma {:induction false} LineEndOf(l: string, rest: string, unicodeText: bool)
    requires forall j | 0 <= j < |l| :: !IsLineBreak(l[j], unicodeText)
    ensures LineEnd(l + "\n" + rest, unicodeText) == |l|
    ensures (l + "\n" + rest)[..|l|] == l && (l + "\n" + rest)[|l|] == '\n'
  {
    if l != [] {
      assert (l + "\n" + rest)[1..] == l[1..] + "\n" + rest;
      LineEndOf(l[1..], rest, unicodeText);
    }
  }

  predicate IsSpace(ch: char) {
    ch == ' ' || ch == '\t' || ch == '\n' || ch == '\r' || ch == '\U{0b}' || ch == '\U{0c}'
  }

  /** `s.rstrip()`: drops trailing whitespace. */
  function RStrip(s: string): (r: string)
    ensures |r| <= |s| && r == s[..|r|]
    ensures r == [] || !IsSpace(r[|r| - 1])
    ensures forall j | |r| <= j < |s| :: IsSpace(s[j])
  {
    if s != [] && IsSpace(s[|s| - 1]) then RStrip(s[..|s| - 1]) else s
  }

  /** Python's string ordering: lexicographic by character, a proper prefix
      first. */
  predicate LexLess(a: string, b: string) {
    if a == [] then b != []
    else if b == [] then false
    else if a[0] != b[0] then a[0] < b[0]
    else LexLess(a[1..], b[1..])
  }

  lemma {:induction false} LexLessIrreflexive(a: string)
    ensures !LexLess(a, a)
  {
    if a != [] {
      LexLessIrreflexive(a[1..]);
    }
  }

  /** Exactly one of `a < b`, `a == b`, `b < a` holds. */
  lemma {:induction false} LexTrichotomy(a: string, b: string)
    ensures LexLess(a, b) || a == b || LexLess(b, a)
    ensures !(LexLess(a, b) && LexLess(b, a))
  {
    if a != [] && b != [] && a[0] == b[0] {
      LexTrichotomy(a[1..], b[1..]);
      if a[1..] == b[1..] {
        assert a == [a[0]] + a[1..] && b == [b[0]] + b[1..];
      }
    }
  }

  lemma {:induction false} LexTransitive(a: string, b: string, c: string)
    requires LexLess(a, b) && LexLess(b, c)
    ensures LexLess(a, c)
  {
    if a != [] && a[0] == b[0] && b[0] == c[0] {
      LexTransitive(a[1..], b[1..], c[1..]);
    }
  }

  /** `max(a, b)` on strings: `b` only when it is strictly greater. */
  function StrMax(a: string, b: string): (m: string)
    ensures m == a || m == b
    ensures !LexLess(m, a) && !LexLess(m, b)
  {
    LexTrichotomy(a, b);
    LexLessIrreflexive(a);
    LexLessIrreflexive(b);
    if LexLess(a, b) then b else a
  }

  function DigitChar(d: nat): (ch: char)
    requires d < 10
    ensures '0' <= ch <= '9' && ch as int - '0' as int == d
  {
    ('0' as int + d) as char
  }

  function DigitValue(ch: char): (d: nat)
    requires '0' <= ch <= '9'
    ensures d < 10 && DigitChar(d) == ch
  {
    (ch as int - '0' as int)
  }

  predicate IsDigit(ch: char) { '0' <= ch <= '9' }

  predicate AllDigits(s: string) { forall j | 0 <= j < |s| :: IsDigit(s[j]) }

  /** Decimal digits of a natural number, most significant first. */
  function Digits(n: nat): (s: string)
    ensures |s| >= 1 && AllDigits(s)
  {
    if n < 10 then [DigitChar(n)] else Digits(n / 10) + [DigitChar(n % 10)]
  }

  /** `str(n)` / `'%s' % n` for an integer. */
  function Decimal(n: int): (s: string)
    ensures |s| >= 1
  {
    if n < 0 then "-" + Digits(-n) else Digits(n)
  }

  /** The value of a run of decimal digits (0 for the empty run). */
  function DigitsValue(s: string): nat
    requires AllDigits(s)
  {
    if s == [] then 0 else 10 * DigitsValue(s[..|s| - 1]) + DigitValue(s[|s| - 1])
  }

  /** Text that SQLite reads as an integer literal: an optional sign and one
      or more digits. */
  function ParseInteger(s: string): Option<int> {
    if |s| >= 2 && (s[0] == '-' || s[0] == '+') && AllDigits(s[1..]) then
      var v: int := DigitsValue(s[1..]);
      Some(if s[0] == '-' then -v else v)
    else if |s| >= 1 && AllDigits(s) then Some(DigitsValue(s))
    else None
  }

  lemma {:induction false} DigitsRoundTrip(n: nat)
    ensures DigitsValue(Digits(n)) == n
  {
    if n >= 10 {
      DigitsRoundTrip(n / 10);
      var s := Digits(n);
      assert s[..|s| - 1] == Digits(n / 10);
    }
  }

  /** A non-empty digit run is read as its own value. */
  lemma ParseDigits(d: string)
    requires |d| >= 1 && AllDigits(d)
    ensures ParseInteger(d) == Some(DigitsValue(d) as int)
  {
    assert !(d[0] == '-' || d[0] == '+') by { assert IsDigit(d[0]); }
  }

  /** A minus sign followed by a digit run is read as the negated value. */
  lemma ParseNegative(d: string)
    requires |d| >= 1 && AllDigits(d)
    ensures ParseInteger("-" + d) == Some(-(DigitsValue(d) as int))
  {
    var s := "-" + d;
    assert s[1..] == d;
  }

  /** Reading back a printed integer gives the integer. */
  lemma {:induction false} DecimalRoundTrip(n: int)
    ensures ParseInteger(Decimal(n)) == Some(n)
  {
    if n < 0 {
      DigitsRoundTrip(-n);
      ParseNegative(Digits(-n));
    } else {
      DigitsRoundTrip(n);
      ParseDigits(Digits(n));
    }
  }

  /** Decimal text is digits after an optional minus sign. */
  lemma DecimalChars(n: int)
    ensures forall ch | ch in Decimal(n) :: ch == '-' || IsDigit(ch)
  {
    var d := Digits(if n < 0 then -n else n);
    assert forall ch | ch in d :: IsDigit(ch);
  }

  /** Different integers print differently. */
  lemma DecimalInjective(a: int, b: int)
    requires Decimal(a) == Decimal(b)
    ensures a == b
  {
    DecimalRoundTrip(a);
    DecimalRoundTrip(b);
  }
}
