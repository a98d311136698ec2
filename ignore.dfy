/** The snapshot's `.gitignore`: the lines git reads from it, the lines a
    Python loop reads from it, and `DB.gitignore`, which appends the
    ignore pattern when it is missing. */
module Ignore {
  import opened Text

  /** The one pattern the snapshot ignores (`IGNORES`). */
  const IGNORE: string := "*.db"

  /** git reads the patterns of `.gitignore` as its text split at "\n". */
  predicate Ignores(text: Option<string>, pattern: string) {
    text.Some? && pattern in Split(text.value, '\n')
  }

  /** `for l in f` over a file opened in binary mode: each line keeps its
      "\n"; the last one may lack it. */
  function FileLines(text: string): (lines: seq<string>)
    decreases |text|
  {
    match Find(text, '\n')
    case None => if text == "" then [] else [text]
    case Some(i) => [text[..i + 1]] + FileLines(text[i + 1..])
  }

  /** A line read from the file, without its "\n". */
  function Chomp(l: string): string {
    if l != "" && l[|l| - 1] == '\n' then l[..|l| - 1] else l
  }

  /** `DB.gitignore` as written: unless some line of `.gitignore` is
      exactly "*.db\n", append "*.db\n" to the file (creating it when it
      is missing). Only appends, and only that line; leaves alone a file
      that ends with a line break and already ignores "*.db"; and yields a
      file that ignores "*.db" whenever the old file was missing or ended
      with a line break. */
  function GitignoreAsWritten(text: Option<string>): (r: Option<string>)
    ensures r.Some?
    ensures text.Some? ==> StartsWith(r.value, text.value)
    ensures r != text ==> r.value == (if text.Some? then text.value else "") + IGNORE + "\n"
    ensures text.Some? && text.value != "" && text.value[|text.value| - 1] == '\n' && Ignores(text, IGNORE) ==> r == text
    ensures (text.None? || text.value == "" || text.value[|text.value| - 1] == '\n') ==> Ignores(r, IGNORE)
  {
    IgnoredLineIfEnded(text);
    if text.Some? && IGNORE + "\n" in FileLines(text.value) then
      FileLineIsGitLine(text.value, IGNORE);
      text
    else if text.None? || text.value == "" then
      LineSplit(IGNORE);
      Some(IGNORE + "\n")
    else if text.value[|text.value| - 1] == '\n' then
      AppendAfterLine(text.value, IGNORE);
      Some(text.value + IGNORE + "\n")
    else
      Some(text.value + IGNORE + "\n")
  }

  /** The as-written append runs on from a last line that has no "\n": a
      `.gitignore` holding just "*.db", which ignores the pattern, becomes
      "*.db*.db\n", which no longer does. */
  lemma GitignoreJoinsLines()
    ensures Ignores(Some(IGNORE), IGNORE)
    ensures GitignoreAsWritten(Some(IGNORE)) == Some(IGNORE + IGNORE + "\n")
    ensures !Ignores(GitignoreAsWritten(Some(IGNORE)), IGNORE)
  {
    SplitNoSep(IGNORE, '\n');
    assert FileLines(IGNORE) == [IGNORE];
    assert IGNORE[|IGNORE| - 1] != '\n';
    LineSplit(IGNORE + IGNORE);
  }

  /** `DB.gitignore` as intended: append the pattern only when git does not
      already read it from the file, on a line of its own. The result always
      ignores the pattern, keeps every pattern the file had, and only
      appends. */
  function GitignoreFixed(text: Option<string>): (r: Option<string>)
    ensures Ignores(r, IGNORE)
    ensures Ignores(text, IGNORE) ==> r == text
    ensures text.Some? ==> StartsWith(r.value, text.value)
    ensures text.Some? ==> forall l | l in Split(text.value, '\n') && l != "" :: l in Split(r.value, '\n')
  {
    if Ignores(text, IGNORE) then text
    else if text.None? || text.value == "" then
      LineSplit(IGNORE);
      SplitNoSep("", '\n');
      Some(IGNORE + "\n")
    else if text.value[|text.value| - 1] == '\n' then
      AppendAfterLine(text.value, IGNORE);
      Some(text.value + IGNORE + "\n")
    else
      AppendAfterPartial(text.value, IGNORE);
      Some(text.value + "\n" + IGNORE + "\n")
  }

  // ------------------------------------------------------------ lemmas

  /** The first occurrence of `c` in `a + b` is the first in `a`, when `a`
      has one. */
  lemma {:induction false} FindIn(a: string, b: string, c: char)
    requires c in a
    ensures Find(a + b, c) == Find(a, c)
    decreases |a|
  {
    if a[0] != c {
      assert (a + b)[1..] == a[1..] + b;
      assert c in a[1..] by {
        var i :| 0 <= i < |a| && a[i] == c;
        assert a[1..][i - 1] == c;
      }
      FindIn(a[1..], b, c);
    }
  }

  lemma {:induction false} FindAt(a: string, c: char, b: string)
    requires c !in a
    ensures Find(a + [c] + b, c) == Some(|a|)
    decreases |a|
  {
    if a != [] {
      assert (a + [c] + b)[1..] == a[1..] + [c] + b;
      FindAt(a[1..], c, b);
    }
  }

  lemma SplitNoSep(s: string, c: char)
    requires c !in s
    ensures Split(s, c) == [s]
  {
  }

  lemma SeqAssoc(x: seq<string>, y: seq<string>, z: seq<string>)
    ensures x + (y + z) == (x + y) + z
  {
  }

  /** Splitting at `c` across one `c`: the pieces of each side. */
  lemma {:induction false} SplitJoin(a: string, b: string, c: char)
    ensures Split(a + [c] + b, c) == Split(a, c) + Split(b, c)
    decreases |a|
  {
    if c !in a {
      SplitAt(a, c, b);
      SplitNoSep(a, c);
    } else {
      var i := Find(a, c).value;
      var front, rest := a[..i], a[i + 1..];
      assert a == front + [c] + rest;
      assert a + [c] + b == front + [c] + (rest + [c] + b);
      SplitAt(front, c, rest + [c] + b);
      SplitAt(front, c, rest);
      SplitJoin(rest, b, c);
      SeqAssoc([front], Split(rest, c), Split(b, c));
    }
  }

  /** The pieces of "p\n" are `p` and the empty rest. */
  lemma LineSplit(p: string)
    requires '\n' !in p
    ensures Split(p + "\n", '\n') == [p, ""]
  {
    SplitNoSep(p, '\n');
    SplitNoSep("", '\n');
    SplitJoin(p, "", '\n');
    assert p + ['\n'] + "" == p + "\n";
  }

  lemma Regroup(front: string, p: string)
    ensures front + ['\n'] + p + "\n" == front + ['\n'] + (p + "\n")
    ensures front + "\n" + p + "\n" == front + ['\n'] + (p + "\n")
    ensures front + ['\n'] == front + ['\n'] + ""
  {
  }

  /** Appending "p\n" after a final "\n" adds the line `p`, keeps every
      non-empty line and only appends. */
  lemma AppendAfterLine(text: string, p: string)
    requires text != "" && text[|text| - 1] == '\n'
    requires '\n' !in p
    ensures p in Split(text + p + "\n", '\n')
    ensures forall l | l in Split(text, '\n') && l != "" :: l in Split(text + p + "\n", '\n')
    ensures StartsWith(text + p + "\n", text)
  {
    var front := text[..|text| - 1];
    assert text == front + ['\n'];
    Regroup(front, p);
    SplitNoSep("", '\n');
    SplitJoin(front, "", '\n');
    LineSplit(p);
    SplitJoin(front, p + "\n", '\n');
    assert (text + p + "\n")[..|text|] == text;
  }

  /** Appending "\np\n" after a last line without "\n" adds the line `p`,
      keeps every line and only appends. */
  lemma AppendAfterPartial(text: string, p: string)
    requires '\n' !in p
    ensures p in Split(text + "\n" + p + "\n", '\n')
    ensures forall l | l in Split(text, '\n') :: l in Split(text + "\n" + p + "\n", '\n')
    ensures StartsWith(text + "\n" + p + "\n", text)
  {
    Regroup(text, p);
    LineSplit(p);
    SplitJoin(text, p + "\n", '\n');
    assert (text + "\n" + p + "\n")[..|text|] == text;
  }

  /** A line `l` + "\n" the file yields is a line git reads. */
  lemma {:induction false} FileLineIsGitLine(text: string, l: string)
    requires l + "\n" in FileLines(text)
    ensures l in Split(text, '\n')
    decreases |text|
  {
    match Find(text, '\n')
    case None =>
    case Some(i) =>
      if l + "\n" == text[..i + 1] {
        assert l == text[..i];
      } else {
        FileLineIsGitLine(text[i + 1..], l);
      }
  }

  /** Every line read from a file that is empty or ends with a line break
      keeps its "\n". */
  lemma {:induction false} FileLinesEndInBreak(text: string)
    requires text != "" ==> text[|text| - 1] == '\n'
    ensures forall l | l in FileLines(text) :: l != "" && l[|l| - 1] == '\n'
    decreases |text|
  {
    match Find(text, '\n')
    case None =>
    case Some(i) =>
      FileLinesEndInBreak(text[i + 1..]);
      assert FileLines(text) == [text[..i + 1]] + FileLines(text[i + 1..]);
  }

  /** A file that ends with a line break and from which git reads the
      pattern yields the line "*.db\n" to the loop. */
  lemma IgnoredLineIfEnded(text: Option<string>)
    ensures text.Some? && text.value != "" && text.value[|text.value| - 1] == '\n' && Ignores(text, IGNORE) ==>
      IGNORE + "\n" in FileLines(text.value)
  {
    if text.Some? && text.value != "" && text.value[|text.value| - 1] == '\n' && Ignores(text, IGNORE) {
      IgnoredLine(text.value);
    }
  }

  lemma IgnoredLine(text: string)
    requires text != "" && text[|text| - 1] == '\n'
    requires IGNORE in Split(text, '\n')
    ensures IGNORE + "\n" in FileLines(text)
  {
    var lines := FileLines(text);
    ChompedLines(text, IGNORE);
    FileLinesEndInBreak(text);
    var l :| l in lines && Chomp(l) == IGNORE;
    ChompBreak(l);
  }

  /** A line ending in "\n" is its chomped text and "\n". */
  lemma ChompBreak(l: string)
    requires l != "" && l[|l| - 1] == '\n'
    ensures l == Chomp(l) + "\n"
  {
  }

  /** Read without their line breaks, the file's lines hold a non-empty
      pattern exactly when git reads it. */
  lemma {:induction false} ChompedLines(text: string, p: string)
    requires p != "" && '\n' !in p
    ensures (exists l | l in FileLines(text) :: Chomp(l) == p) <==> p in Split(text, '\n')
    decreases |text|
  {
    match Find(text, '\n')
    case None =>
      if text != "" {
        assert FileLines(text) == [text];
        assert Chomp(text) == text by { assert text[|text| - 1] in text; }
      }
    case Some(i) =>
      var head := text[..i + 1];
      assert Chomp(head) == text[..i];
      ChompedLines(text[i + 1..], p);
      assert FileLines(text) == [head] + FileLines(text[i + 1..]);
  }
}
