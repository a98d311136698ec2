/** File names of the snapshot: `os.path.basename`, `dirname`, `join`, the
    temporary name `write_json` writes first, UTF-8 encoding, Python 2.7's
    `urllib.quote_plus` / `unquote_plus`, and the pair `url_safe_id` /
    `path_id` that turns an id into a file name and back. */
module Paths {
  import opened Text

  newtype byte = x: int | 0 <= x < 256

  /** `os.path.basename`: the text after the last "/". */
  function Basename(p: string): (b: string)
    ensures '/' !in b
    ensures EndsWith(p, b)
    ensures '/' !in p ==> b == p
  {
    RPartition(p, '/').2
  }

  /** Drops trailing occurrences of `c`. */
  function RStripChar(s: string, c: char): (r: string)
    ensures |r| <= |s| && r == s[..|r|]
    ensures r == [] || r[|r| - 1] != c
    ensures forall j | |r| <= j < |s| :: s[j] == c
  {
    if s != [] && s[|s| - 1] == c then RStripChar(s[..|s| - 1], c) else s
  }

  /** `os.path.dirname`: the text up to the last "/", without its trailing
      slashes unless it is made of slashes only. */
  function Dirname(p: string): (d: string)
    ensures '/' !in p ==> d == ""
  {
    match RFind(p, '/')
    case None => ""
    case Some(i) =>
      var head := p[..i + 1];
      if forall j | 0 <= j < |head| :: head[j] == '/' then head else RStripChar(head, '/')
  }

  /** `os.path.join(a, b)` for two components. */
  function Join(a: string, b: string): (p: string)
    ensures EndsWith(p, b)
  {
    if StartsWith(b, "/") then b
    else if a == [] || EndsWith(a, "/") then a + b
    else a + "/" + b
  }

  /** The file `write_json` writes before renaming it over `fn`. */
  function TempPath(fn: string): string {
    Join(Dirname(fn), "." + Basename(fn))
  }

  /** A name `glob("*.json")` lists: not hidden, ending in ".json". */
  predicate GlobJson(name: string) {
    EndsWith(name, ".json") && !StartsWith(name, ".")
  }

  /** The temporary file is hidden, so no `*.json` glob ever lists it, and
      it is never the file it is renamed to. */
  lemma TempPathHidden(fn: string)
    ensures Basename(TempPath(fn)) == "." + Basename(fn)
    ensures !GlobJson(Basename(TempPath(fn)))
    ensures TempPath(fn) != fn
  {
    var t := "." + Basename(fn);
    assert '/' !in t by {
      assert t[1..] == Basename(fn);
      forall j | 0 <= j < |t| ensures t[j] != '/' {
        if j > 0 { assert t[j] == Basename(fn)[j - 1]; }
      }
    }
    var p := TempPath(fn);
    var d := Dirname(fn);
    if StartsWith(t, "/") {
    } else if d == [] || EndsWith(d, "/") {
      assert p == d + t && p[|p| - |t|..] == t;
      if |p| > |t| { assert p[|p| - |t| - 1] == d[|d| - 1]; }
      BasenameOfSuffix(p, t);
    } else {
      assert p == d + "/" + t && p[|p| - |t|..] == t;
      assert p[|p| - |t| - 1] == '/';
      BasenameOfSuffix(p, t);
    }
  }

  /** A path that ends with a slash-free name that is preceded by a slash
      (or is the whole path) has that name as its basename. */
  lemma BasenameOfSuffix(p: string, t: string)
    requires EndsWith(p, t) && '/' !in t
    requires |p| == |t| || p[|p| - |t| - 1] == '/'
    ensures Basename(p) == t
  {
    if |p| > |t| {
      var i := |p| - |t| - 1;
      assert p[i + 1..] == t;
      assert RFind(p, '/') == Some(i) by {
        var r := RFind(p, '/');
        assert r.Some? by { assert p[i] == '/'; }
      }
    } else {
      assert p == t;
    }
  }

  // ---------------------------------------------------------------- UTF-8

  /** UTF-8 encoding of one Unicode scalar value. */
  function Utf8Char(ch: char): (bs: seq<byte>)
    ensures 1 <= |bs| <= 4
    ensures (ch as int < 0x80) <==> |bs| == 1
    ensures |bs| == 1 ==> bs[0] as int == ch as int
  {
    var cp := ch as int;
    if cp < 0x80 then [cp as byte]
    else if cp < 0x800 then [(0xC0 + cp / 64) as byte, (0x80 + cp % 64) as byte]
    else if cp < 0x10000 then
      [(0xE0 + cp / 4096) as byte, (0x80 + (cp / 64) % 64) as byte, (0x80 + cp % 64) as byte]
    else
      [(0xF0 + cp / 262144) as byte, (0x80 + (cp / 4096) % 64) as byte,
       (0x80 + (cp / 64) % 64) as byte, (0x80 + cp % 64) as byte]
  }

  /** `s.encode('utf8')`. */
  function Utf8(s: string): seq<byte> {
    if s == [] then [] else Utf8Char(s[0]) + Utf8(s[1..])
  }

  /** A Python 2 byte string read back as text: one character per byte. */
  function Latin1(bs: seq<byte>): (s: string)
    ensures |s| == |bs| && forall i | 0 <= i < |bs| :: s[i] as int == bs[i] as int
  {
    seq(|bs|, i requires 0 <= i < |bs| => bs[i] as char)
  }

  predicate Ascii(s: string) {
    forall i | 0 <= i < |s| :: s[i] as int < 0x80
  }

  /** For ASCII text the UTF-8 bytes are the characters themselves. */
  lemma {:induction false} AsciiUtf8(s: string)
    requires Ascii(s)
    ensures Latin1(Utf8(s)) == s
  {
    if s != [] {
      AsciiUtf8(s[1..]);
      assert Latin1(Utf8(s)) == Latin1(Utf8Char(s[0])) + Latin1(Utf8(s[1..]));
    }
  }

  // ------------------------------------------------- quote_plus / unquote_plus

  /** Python 2.7's `always_safe`: letters, digits and "_.-". */
  predicate AlwaysSafe(b: byte) {
    ('A' as byte <= b <= 'Z' as byte) || ('a' as byte <= b <= 'z' as byte) ||
    ('0' as byte <= b <= '9' as byte) || b == '_' as byte || b == '.' as byte || b == '-' as byte
  }

  function HexDigit(d: int): (ch: char)
    requires 0 <= d < 16
    ensures IsHex(ch) && HexValue(ch) == d
  {
    "0123456789ABCDEF"[d]
  }

  predicate IsHex(ch: char) {
    ('0' <= ch <= '9') || ('a' <= ch <= 'f') || ('A' <= ch <= 'F')
  }

  function HexValue(ch: char): (d: int)
    requires IsHex(ch)
    ensures 0 <= d < 16
  {
    if '0' <= ch <= '9' then ch as int - '0' as int
    else if 'a' <= ch <= 'f' then ch as int - 'a' as int + 10
    else ch as int - 'A' as int + 10
  }

  /** How `quote_plus` writes one byte: itself when always safe, "+" for a
      space, "%XX" with upper-case hex digits otherwise. */
  function QuoteByte(b: byte): (q: string)
    ensures '/' !in q
    ensures '+' in q ==> q == "+"
  {
    if AlwaysSafe(b) then [b as char]
    else if b == 32 then "+"
    else ['%', HexDigit(b as int / 16), HexDigit(b as int % 16)]
  }

  /** `urllib.quote_plus(bs)` with no extra safe characters. */
  function QuotePlus(bs: seq<byte>): (q: string)
    ensures '/' !in q
  {
    if bs == [] then "" else QuoteByte(bs[0]) + QuotePlus(bs[1..])
  }

  /** `urllib.unquote`: every "%" followed by two hex digits becomes that
      byte; any other "%" stays as it is. Decoded bytes are not re-read. */
  function Unquote(s: string): (r: string)
    ensures |r| <= |s|
  {
    if s == [] then ""
    else if s[0] == '%' && |s| >= 3 && IsHex(s[1]) && IsHex(s[2]) then
      [(HexValue(s[1]) * 16 + HexValue(s[2])) as char] + Unquote(s[3..])
    else [s[0]] + Unquote(s[1..])
  }

  function PlusToSpace(s: string): (r: string)
    ensures |r| == |s|
  {
    seq(|s|, i requires 0 <= i < |s| => if s[i] == '+' then ' ' else s[i])
  }

  /** `urllib.unquote_plus`: "+" is a space, then `unquote`. */
  function UnquotePlus(s: string): string {
    Unquote(PlusToSpace(s))
  }

  lemma PlusToSpaceAppend(a: string, b: string)
    ensures PlusToSpace(a + b) == PlusToSpace(a) + PlusToSpace(b)
  {
    assert forall i | 0 <= i < |a + b| :: (a + b)[i] == if i < |a| then a[i] else b[i - |a|];
  }

  /** Decoding the encoding of one byte, followed by anything, gives that
      byte first and then decodes the rest on its own. */
  lemma UnquoteQuotedByte(b: byte, rest: string)
    ensures Unquote(PlusToSpace(QuoteByte(b)) + rest) == [b as char] + Unquote(rest)
  {
    var q := PlusToSpace(QuoteByte(b));
    if AlwaysSafe(b) {
      assert q == [b as char];
      assert (q + rest)[1..] == rest;
    } else if b == 32 {
      assert q == " ";
      assert (q + rest)[1..] == rest;
    } else {
      assert q == QuoteByte(b);
      var s := q + rest;
      assert s[0] == '%' && s[1] == HexDigit(b as int / 16) && s[2] == HexDigit(b as int % 16);
      assert s[3..] == rest;
    }
  }

  /** Round trip: `unquote_plus(quote_plus(bs))` gives the bytes back. */
  lemma {:induction false} UnquoteQuotePlus(bs: seq<byte>)
    ensures UnquotePlus(QuotePlus(bs)) == Latin1(bs)
  {
    if bs != [] {
      UnquoteQuotePlus(bs[1..]);
      PlusToSpaceAppend(QuoteByte(bs[0]), QuotePlus(bs[1..]));
      UnquoteQuotedByte(bs[0], PlusToSpace(QuotePlus(bs[1..])));
      assert Latin1(bs) == [bs[0] as char] + Latin1(bs[1..]);
    }
  }

  // ------------------------------------------------------ url_safe_id / path_id

  /** `url_safe_id`: the id's UTF-8 bytes, percent-encoded for a file name. */
  function UrlSafeId(ident: string): (name: string)
    ensures '/' !in name
  {
    QuotePlus(Utf8(ident))
  }

  /** `path_id`: the basename up to its last ".", percent-decoded. The
      result is a byte string, shown one character per byte. */
  function PathId(path: string): string {
    UnquotePlus(RPartition(Basename(path), '.').0)
  }

  /** The file name `pull` writes for an id, inside directory `dir`. */
  function IdFile(dir: string, ident: string): string {
    dir + "/" + UrlSafeId(ident) + ".json"
  }

  /** The name `q + ".json"` splits at its last "." into `q` and "json". */
  lemma RPartitionJson(q: string)
    ensures RPartition(q + ".json", '.') == (q, true, "json")
  {
    var name := q + ".json";
    var r := RFind(name, '.');
    assert name[|q|] == '.';
    assert r.Some?;
    assert name[..|q|] == q && name[|q| + 1..] == "json";
  }

  /** The basename of the file written for an id is its escaped name. */
  lemma BasenameOfIdFile(dir: string, x: string)
    ensures Basename(IdFile(dir, x)) == UrlSafeId(x) + ".json"
  {
    var q := UrlSafeId(x);
    var name := q + ".json";
    var p := IdFile(dir, x);
    assert p == (dir + "/") + name;
    assert '/' !in name by {
      forall j | 0 <= j < |name| ensures name[j] != '/' {
        if j < |q| { assert name[j] == q[j]; } else { assert name[j] == ".json"[j - |q|]; }
      }
    }
    assert p[|p| - |name|..] == name;
    assert p[|p| - |name| - 1] == '/';
    BasenameOfSuffix(p, name);
  }

  /** Round trip: `path_id` of the file written for `x` gives back the UTF-8
      bytes of `x`, whatever directory the file is in. */
  lemma PathIdOfIdFile(dir: string, x: string)
    ensures PathId(IdFile(dir, x)) == Latin1(Utf8(x))
  {
    BasenameOfIdFile(dir, x);
    RPartitionJson(UrlSafeId(x));
    UnquoteQuotePlus(Utf8(x));
  }

  /** For ASCII ids the round trip is exact. */
  lemma PathIdOfAsciiId(dir: string, x: string)
    requires Ascii(x)
    ensures PathId(IdFile(dir, x)) == x
  {
    PathIdOfIdFile(dir, x);
    AsciiUtf8(x);
  }

  /** A basename without "." has the empty id (`rpartition` puts the whole
      name in its last part). */
  lemma PathIdNoDot(path: string)
    requires '.' !in Basename(path)
    ensures PathId(path) == ""
  {
  }

  /** Text without "%" or "+" is left alone by `unquote_plus`. */
  lemma {:induction false} UnquotePlain(s: string)
    requires '%' !in s && '+' !in s
    ensures UnquotePlus(s) == s
  {
    assert PlusToSpace(s) == s;
    UnquoteNoPercent(s);
  }

  lemma {:induction false} UnquoteNoPercent(s: string)
    requires '%' !in s
    ensures Unquote(s) == s
  {
    if s != [] {
      UnquoteNoPercent(s[1..]);
      assert s == [s[0]] + s[1..];
    }
  }

  /** A file named `q + ".json"` directly inside the directory `front`
      (which ends in "/") has the id `q`, when `q` holds nothing
      `unquote_plus` would decode. */
  lemma PathIdOfPlainName(front: string, q: string)
    requires front != [] && front[|front| - 1] == '/'
    requires '/' !in q && '%' !in q && '+' !in q
    ensures PathId(front + q + ".json") == q
  {
    var name := q + ".json";
    var p := front + q + ".json";
    assert p == front + name;
    assert '/' !in name by {
      forall j | 0 <= j < |name| ensures name[j] != '/' {
        if j < |q| { assert name[j] == q[j]; } else { assert name[j] == ".json"[j - |q|]; }
      }
    }
    assert p[|p| - |name|..] == name;
    assert p[|p| - |name| - 1] == '/';
    BasenameOfSuffix(p, name);
    RPartitionJson(q);
    UnquotePlain(q);
  }

  /** The directory of `d + "/" + name` is `d` itself, when `d` does not
      end in "/" and `name` holds none. */
  lemma DirnameOfChild(d: string, name: string)
    requires d != "" && d[|d| - 1] != '/' && '/' !in name
    ensures Dirname(d + "/" + name) == d
  {
    var p := d + "/" + name;
    var i := |d|;
    assert p[i] == '/';
    assert p[i + 1..] == name;
    assert RFind(p, '/') == Some(i);
    var head := p[..i + 1];
    assert head == d + "/";
    assert head[i - 1] != '/';
    assert RStripChar(head, '/') == RStripChar(d, '/');
  }

  /** Directory names carry no id: the directory of a field value's file
      has the empty id, as does a bare directory path. */
  lemma PathIdOfFieldDir(field: string, name: string)
    requires field != "" && '/' !in field && '.' !in field && '/' !in name
    ensures Dirname("field/" + field + "/" + name) == "field/" + field
    ensures PathId(Dirname("field/" + field + "/" + name)) == ""
    ensures PathId("field/" + field) == ""
  {
    var d := "field/" + field;
    assert d[|d| - 1] == field[|field| - 1];
    DirnameOfChild(d, name);
    assert d[|d| - |field|..] == field;
    assert d[|d| - |field| - 1] == '/';
    BasenameOfSuffix(d, field);
  }
}
