/** The tracker's JSON-RPC client as the snapshot sync uses it: checking a
    call's reply, numbering a batch of calls for `system.multicall` and
    putting each answer back in its call's place, splitting a long list of
    calls into batches, and reading the tab-separated report listing.
    The HTTP exchange itself is a function `rpc` from a method name and its
    parameters to the decoded reply. */
module Remote {
  import opened Json
  import Text

  /** One remote procedure call: its method name and parameter list. */
  datatype Request = Request(name: string, params: seq<Json>)

  /** What the snapshot sync asks of the tracker: the tab-separated
      report listing (decoded), the SQL text of each report, and the decoded
      JSON reply to each remote procedure call. */
  datatype Tracker = Tracker(reportTab: string, reportSql: string -> string,
                             rpc: (string, seq<Json>) -> Json)

  /** `Trac.call`: normalise the decoded reply, fail when its "error"
      member is truthy, and give back its "result" member. A reply that is
      not an object cannot be indexed by a string (TypeError); a missing
      member is a KeyError. */
  function Call(raw: Json): (r: Result<Json>)
    ensures r.Ok? ==> Normalize(raw).Ok? && Normalize(raw).value.JObj?
    ensures r.Ok? ==> var m := Normalize(raw).value.fields;
      "error" in m && !Truthy(m["error"]) && "result" in m && r.value == m["result"]
    ensures (Normalize(raw).Ok? && Normalize(raw).value.JObj? && "error" in Normalize(raw).value.fields &&
             Truthy(Normalize(raw).value.fields["error"])) ==> r == Err(ValueError)
    ensures Normalize(raw).Err? ==> r == Err(MalformedWrapper)
    ensures Normalize(raw).Ok? && !Normalize(raw).value.JObj? ==> r == Err(TypeError)
    ensures (Normalize(raw).Ok? && Normalize(raw).value.JObj? && "error" !in Normalize(raw).value.fields) ==>
              r == Err(KeyError)
  {
    var res :- Normalize(raw);
    if !res.JObj? then Err(TypeError)
    else if "error" !in res.fields then Err(KeyError)
    else if Truthy(res.fields["error"]) then Err(ValueError)
    else if "result" !in res.fields then Err(KeyError)
    else Ok(res.fields["result"])
  }

  /** The reply of a well-behaved server: no error, and the result. */
  function Envelope(result: Json): Json {
    JObj(map["error" := JNull, "result" := result, "id" := JNull])
  }

  /** A well-behaved reply carries its result through unchanged, as long as
      the result holds no datetime wrapper. */
  lemma CallEnvelope(result: Json)
    requires WrapperFree(result)
    ensures Call(Envelope(result)) == Ok(result)
  {
    var e := Envelope(result);
    EnvelopeFree(result);
    NormalizeFixesWrapperFree(e);
    assert Normalize(e) == Ok(e);
  }

  /** A well-behaved reply holds a wrapper only where its result does. */
  lemma EnvelopeFree(result: Json)
    requires WrapperFree(result)
    ensures WrapperFree(Envelope(result))
  {
    var e := Envelope(result);
    assert CLASS_KEY !in e.fields;
    forall k | k in e.fields ensures WrapperFree(e.fields[k]) {
    }
  }

  // ------------------------------------------------------------ multicall

  /** The body of a `system.multicall`: each call as an object with its
      method, its parameters and the id `1 + i`. */
  function Numbered(calls: seq<Request>): (body: seq<Json>)
    ensures |body| == |calls|
    ensures forall i | 0 <= i < |calls| ::
      (body[i].JObj? &&
       body[i].fields.Keys == {"method", "params", "id"} &&
       body[i].fields["method"] == JStr(calls[i].name) &&
       body[i].fields["params"] == JList(calls[i].params) &&
       body[i].fields["id"] == JInt(i + 1))
  {
    seq(|calls|, i requires 0 <= i < |calls| =>
      JObj(map["method" := JStr(calls[i].name), "params" := JList(calls[i].params), "id" := JInt(i + 1)]))
  }

  /** `for x in value` over a decoded JSON value: a list yields its
      members and a string its characters (as one-character strings). An
      object yields its keys in an order the model does not fix, so only
      the empty object is iterated here; None, a bool or a number is not
      iterable (TypeError). */
  function Iterate(v: Json): (r: Result<seq<Json>>)
    ensures r.Ok? <==> v.JList? || v.JStr? || (v.JObj? && v.fields == map[])
    ensures r.Ok? && v.JList? ==> r.value == v.items
    ensures r.Ok? && v.JStr? ==> |r.value| == |v.s| && forall i | 0 <= i < |v.s| :: r.value[i] == JStr([v.s[i]])
    ensures r.Ok? && v.JObj? ==> r.value == []
    ensures r.Err? ==> r.fault == TypeError
  {
    match v
    case JList(xs) => Ok(xs)
    case JStr(s) => Ok(seq(|s|, i requires 0 <= i < |s| => JStr([s[i]])))
    case JObj(m) => if m == map[] then Ok([]) else Err(TypeError)
    case _ => Err(TypeError)
  }

  /** Where one answer of a multicall goes in a result list of length `n`,
      and what is stored there: `rval[res['id'] - 1] = res['result']`. The
      result is looked up before the id; the id minus one indexes from the
      end when it is negative, as Python lists do. */
  function Slot(res: Json, n: nat): (r: Result<(nat, Json)>)
    ensures r.Ok? ==> r.value.0 < n
    ensures r.Ok? ==>
      (res.JObj? && "error" in res.fields && !Truthy(res.fields["error"]) &&
       "result" in res.fields && r.value.1 == res.fields["result"] && "id" in res.fields)
    ensures r.Ok? && res.fields["id"].JInt? && 1 <= res.fields["id"].i <= n ==> r.value.0 == res.fields["id"].i - 1
  {
    if !res.JObj? then Err(TypeError)
    else if "error" !in res.fields then Err(KeyError)
    else if Truthy(res.fields["error"]) then Err(ValueError)
    else if "result" !in res.fields then Err(KeyError)
    else if "id" !in res.fields then Err(KeyError)
    else
      var id := res.fields["id"];
      if !(id.JInt? || id.JBool?) then Err(TypeError)
      else
        var idx := (if id.JInt? then id.i else if id.b then 1 else 0) - 1;
        if idx < -(n as int) || idx >= n then Err(IndexError)
        else Ok((if idx < 0 then n + idx else idx, res.fields["result"]))
  }

  /** The answers placed one after the other into `rval`. */
  function Fill(rval: seq<Json>, answers: seq<Json>): (r: Result<seq<Json>>)
    ensures r.Ok? ==> |r.value| == |rval|
    decreases |answers|
  {
    if answers == [] then Ok(rval)
    else
      var (idx, v) :- Slot(answers[0], |rval|);
      Fill(rval[idx := v], answers[1..])
  }

  /** `Trac.multicall(calls)`, the specification. */
  function MulticallSpec(calls: seq<Request>, rpc: (string, seq<Json>) -> Json): (r: Result<seq<Json>>)
    ensures r.Ok? ==> |r.value| == |calls|
  {
    var reply :- Call(rpc("system.multicall", Numbered(calls)));
    var answers :- Iterate(reply);
    Fill(seq(|calls|, _ => JNull), answers)
  }

  /** `Trac.multicall(calls)`: a list of `None`s filled in place, one answer
      at a time. */
  method Multicall(calls: seq<Request>, rpc: (string, seq<Json>) -> Json) returns (r: Result<seq<Json>>)
    ensures r == MulticallSpec(calls, rpc)
  {
    var reply := Call(rpc("system.multicall", Numbered(calls)));
    if reply.Err? {
      return Err(reply.fault);
    }
    var answers := Iterate(reply.value);
    if answers.Err? {
      return Err(answers.fault);
    }
    var rval := new Json[|calls|](_ => JNull);
    assert rval[..] == seq(|calls|, _ => JNull);
    var items := answers.value;
    var i := 0;
    while i < |items|
      invariant 0 <= i <= |items|
      invariant Fill(rval[..], items[i..]) == MulticallSpec(calls, rpc)
    {
      var slot := Slot(items[i], rval.Length);
      if slot.Err? {
        return Err(slot.fault);
      }
      assert items[i..][1..] == items[i + 1..];
      rval[slot.value.0] := slot.value.1;
      i := i + 1;
    }
    return Ok(rval[..]);
  }

  /** The answer object a well-behaved server sends for call `id`. */
  function Reply(id: int, result: Json): Json {
    JObj(map["error" := JNull, "result" := result, "id" := JInt(id)])
  }

  /** The answers `results[order[0]], results[order[1]], ...`, each tagged
      with its call's id: a server answering in the order `order`. */
  function Replies(order: seq<nat>, results: seq<Json>): (rs: seq<Json>)
    requires forall j | 0 <= j < |order| :: order[j] < |results|
    ensures |rs| == |order|
  {
    seq(|order|, j requires 0 <= j < |order| => Reply(order[j] + 1, results[order[j]]))
  }

  /** Filling with tagged answers puts each answer at its call's index and
      leaves every index no answer names as it was. */
  lemma {:induction false} FillReplies(rval: seq<Json>, order: seq<nat>, results: seq<Json>)
    requires |rval| == |results|
    requires forall j | 0 <= j < |order| :: order[j] < |results|
    ensures Fill(rval, Replies(order, results)).Ok?
    ensures forall x | 0 <= x < |rval| ::
      Fill(rval, Replies(order, results)).value[x] == if x in order then results[x] else rval[x]
    decreases |order|
  {
    var rs := Replies(order, results);
    if order != [] {
      var o := order[0];
      var rval' := rval[o := results[o]];
      assert Slot(rs[0], |rval|) == Ok((o, results[o]));
      assert rs[1..] == Replies(order[1..], results);
      FillReplies(rval', order[1..], results);
      assert Fill(rval, rs) == Fill(rval', rs[1..]);
      forall x | 0 <= x < |rval|
        ensures Fill(rval, rs).value[x] == if x in order then results[x] else rval[x]
      {
        assert x in order <==> x == o || x in order[1..] by {
          assert order == [o] + order[1..];
        }
      }
    }
  }

  /** Whatever order a well-behaved server answers in, and even if it
      repeats answers, as long as every call is answered the results come
      back in call order. */
  lemma MulticallInCallOrder(calls: seq<Request>, rpc: (string, seq<Json>) -> Json, order: seq<nat>, results: seq<Json>)
    requires |results| == |calls|
    requires forall j | 0 <= j < |order| :: order[j] < |results|
    requires forall x | 0 <= x < |calls| :: x in order
    requires forall x | 0 <= x < |results| :: WrapperFree(results[x])
    requires rpc("system.multicall", Numbered(calls)) == Envelope(JList(Replies(order, results)))
    ensures MulticallSpec(calls, rpc) == Ok(results)
  {
    var rs := Replies(order, results);
    assert WrapperFree(JList(rs)) by {
      forall j | 0 <= j < |rs| ensures WrapperFree(rs[j]) {
        var m := rs[j].fields;
        assert CLASS_KEY !in m;
        forall k | k in m ensures WrapperFree(m[k]) {
        }
      }
    }
    CallEnvelope(JList(rs));
    var empty := seq(|calls|, _ => JNull);
    FillReplies(empty, order, results);
    assert Fill(empty, rs).value == results;
  }

  /** A reply naming an error makes the whole batch fail. */
  lemma MulticallErrorAnswer(calls: seq<Request>, rpc: (string, seq<Json>) -> Json, answers: seq<Json>, i: nat)
    requires i < |answers|
    requires forall j | 0 <= j < |answers| :: WrapperFree(answers[j])
    requires rpc("system.multicall", Numbered(calls)) == Envelope(JList(answers))
    requires forall j | 0 <= j < i :: Slot(answers[j], |calls|).Ok?
    requires answers[i].JObj? && "error" in answers[i].fields && Truthy(answers[i].fields["error"])
    ensures MulticallSpec(calls, rpc) == Err(ValueError)
  {
    assert WrapperFree(JList(answers));
    CallEnvelope(JList(answers));
    FillStopsAtError(seq(|calls|, _ => JNull), answers, i);
  }

  lemma {:induction false} FillStopsAtError(rval: seq<Json>, answers: seq<Json>, i: nat)
    requires i < |answers|
    requires forall j | 0 <= j < i :: Slot(answers[j], |rval|).Ok?
    requires Slot(answers[i], |rval|).Err?
    ensures Fill(rval, answers) == Err(Slot(answers[i], |rval|).fault)
    decreases i
  {
    if i > 0 {
      var (idx, v) := Slot(answers[0], |rval|).value;
      FillStopsAtError(rval[idx := v], answers[1..], i - 1);
    }
  }

  // ----------------------------------------------------------- imulticall

  /** `calls[i:i+size]` for `i` in `xrange(0, len(calls), size)`:
      consecutive runs of `size` calls, the last one shorter. */
  function Chunks(calls: seq<Request>, size: nat): (bs: seq<seq<Request>>)
    requires size > 0
    ensures calls == [] <==> bs == []
    decreases |calls|
  {
    if calls == [] then []
    else
      var k := if |calls| < size then |calls| else size;
      [calls[..k]] + Chunks(calls[k..], size)
  }

  function Concat(parts: seq<seq<Request>>): seq<Request> {
    if parts == [] then [] else parts[0] + Concat(parts[1..])
  }

  /** The batches cover the calls in order. */
  lemma {:induction false} ChunksConcat(calls: seq<Request>, size: nat)
    requires size > 0
    ensures Concat(Chunks(calls, size)) == calls
    decreases |calls|
  {
    if calls != [] {
      var k := if |calls| < size then |calls| else size;
      ChunksConcat(calls[k..], size);
      assert Chunks(calls, size)[1..] == Chunks(calls[k..], size);
      assert calls[..k] + calls[k..] == calls;
    }
  }

  /** Every batch holds between 1 and `size` calls. */
  lemma {:induction false} ChunksSizes(calls: seq<Request>, size: nat)
    requires size > 0
    ensures forall b | b in Chunks(calls, size) :: 1 <= |b| <= size
    decreases |calls|
  {
    if calls != [] {
      var k := if |calls| < size then |calls| else size;
      ChunksSizes(calls[k..], size);
      assert Chunks(calls, size) == [calls[..k]] + Chunks(calls[k..], size);
    }
  }

  /** There are `ceil(len(calls) / size)` batches: the least count whose
      batches of `size` hold all the calls. */
  lemma {:induction false} ChunksCount(calls: seq<Request>, size: nat)
    requires size > 0
    ensures var count := |Chunks(calls, size)|;
      (count - 1) * size < |calls| <= count * size || (calls == [] && count == 0)
    decreases |calls|
  {
    if calls != [] {
      var k := if |calls| < size then |calls| else size;
      ChunksCount(calls[k..], size);
      var m := |Chunks(calls[k..], size)|;
      assert |Chunks(calls, size)| == m + 1;
      assert (m + 1) * size == m * size + size;
    }
  }

  /** The answers of each batch's multicall, one batch after the other; the
      first failing batch ends the run. */
  function RunBatches(batches: seq<seq<Request>>, rpc: (string, seq<Json>) -> Json): (r: Result<seq<Json>>)
    ensures r.Ok? ==> |r.value| == |Concat(batches)|
  {
    if batches == [] then Ok([])
    else
      var head :- MulticallSpec(batches[0], rpc);
      var rest :- RunBatches(batches[1..], rpc);
      Ok(head + rest)
  }

  /** `Trac.imulticall(calls, size)`, the specification. `xrange` rejects
      a step of 0 and gives nothing for a negative step. */
  function ImulticallSpec(calls: seq<Request>, size: int, rpc: (string, seq<Json>) -> Json): (r: Result<seq<Json>>)
    ensures r.Ok? && size > 0 ==> |r.value| == |calls|
  {
    if size == 0 then Err(ValueError)
    else if size < 0 then Ok([])
    else
      ChunksConcat(calls, size);
      RunBatches(Chunks(calls, size), rpc)
  }

  /** `prefix` followed by the outcome `r`, or the failure of `r`. */
  function After(prefix: seq<Json>, r: Result<seq<Json>>): Result<seq<Json>> {
    if r.Ok? then Ok(prefix + r.value) else r
  }

  lemma AfterAfter(a: seq<Json>, b: seq<Json>, r: Result<seq<Json>>)
    ensures After(a, After(b, r)) == After(a + b, r)
  {
    if r.Ok? {
      assert a + (b + r.value) == (a + b) + r.value;
    }
  }

  /** `Trac.imulticall(calls, size)`: one multicall per batch, the answers
      appended as they come. */
  method Imulticall(calls: seq<Request>, size: int, rpc: (string, seq<Json>) -> Json) returns (r: Result<seq<Json>>)
    ensures r == ImulticallSpec(calls, size, rpc)
  {
    if size == 0 {
      return Err(ValueError);
    }
    if size < 0 {
      return Ok([]);
    }
    ghost var goal := ImulticallSpec(calls, size, rpc);
    assert goal == RunBatches(Chunks(calls, size), rpc);
    var out: seq<Json> := [];
    var rest := calls;
    assert After(out, goal) == goal by {
      if goal.Ok? {
        assert out + goal.value == goal.value;
      }
    }
    while rest != []
      invariant After(out, RunBatches(Chunks(rest, size), rpc)) == goal
      decreases |rest|
    {
      var k := if |rest| < size then |rest| else size;
      var batch := Multicall(rest[..k], rpc);
      if batch.Err? {
        return Err(batch.fault);
      }
      ghost var next := RunBatches(Chunks(rest[k..], size), rpc);
      assert RunBatches(Chunks(rest, size), rpc) == After(batch.value, next);
      AfterAfter(out, batch.value, next);
      out := out + batch.value;
      rest := rest[k..];
    }
    assert out + [] == out;
    return Ok(out);
  }

  /** When every batch comes back as the calls' results in call order, so
      does the whole run. */
  lemma ImulticallInCallOrder(calls: seq<Request>, size: int, rpc: (string, seq<Json>) -> Json,
                              results: seq<Json>)
    requires size > 0 && |results| == |calls|
    requires forall i, j | 0 <= i <= j <= |calls| && j - i <= size ::
      MulticallSpec(calls[i..j], rpc) == Ok(results[i..j])
    ensures ImulticallSpec(calls, size, rpc) == Ok(results)
  {
    var run := Runner(rpc);
    assert InCallOrder(calls, size, run, results) by {
      forall i, j | 0 <= i <= j <= |calls| && j - i <= size
        ensures run(calls[i..j]) == Ok(results[i..j])
      {
        assert run(calls[i..j]) == MulticallSpec(calls[i..j], rpc);
      }
    }
    BatchesFrom(calls, size, run, results, 0);
    assert calls[0..] == calls && results[0..] == results;
    RunBatchesWith(Chunks(calls, size), rpc);
  }

  /** The multicall of one batch, as a value. */
  function Runner(rpc: (string, seq<Json>) -> Json): seq<Request> -> Result<seq<Json>> {
    b => MulticallSpec(b, rpc)
  }

  /** `RunBatches` with the multicall of a batch left as a parameter. */
  function RunWith(batches: seq<seq<Request>>, run: seq<Request> -> Result<seq<Json>>): Result<seq<Json>> {
    if batches == [] then Ok([])
    else
      var head :- run(batches[0]);
      var rest :- RunWith(batches[1..], run);
      Ok(head + rest)
  }

  lemma {:induction false} RunBatchesWith(batches: seq<seq<Request>>, rpc: (string, seq<Json>) -> Json)
    ensures RunBatches(batches, rpc) == RunWith(batches, Runner(rpc))
    decreases |batches|
  {
    if batches != [] {
      RunBatchesWith(batches[1..], rpc);
    }
  }

  /** Every run of at most `size` consecutive calls comes back as their
      results, in call order. */
  predicate InCallOrder(calls: seq<Request>, size: nat, run: seq<Request> -> Result<seq<Json>>, results: seq<Json>) {
    |results| == |calls| &&
    forall i, j | 0 <= i <= j <= |calls| && j - i <= size :: run(calls[i..j]) == Ok(results[i..j])
  }

  /** The batches from the `n`th call on come back as the results from
      the `n`th on. */
  lemma {:induction false} BatchesFrom(calls: seq<Request>, size: nat, run: seq<Request> -> Result<seq<Json>>,
                                       results: seq<Json>, n: nat)
    requires size > 0 && InCallOrder(calls, size, run, results) && n <= |calls|
    ensures RunWith(Chunks(calls[n..], size), run) == Ok(results[n..])
    decreases |calls| - n
  {
    if n < |calls| {
      var k := if |calls| - n < size then |calls| - n else size;
      ChunksFrom(calls, size, n, k);
      Pieces(results, n, k);
      assert run(calls[n..n + k]) == Ok(results[n..n + k]);
      BatchesFrom(calls, size, run, results, n + k);
      RunWithCons(calls[n..n + k], Chunks(calls[n + k..], size), run, results[n..n + k], results[n + k..]);
    }
  }

  /** The suffix from `n` on, cut after `k` more elements. */
  lemma Pieces<T>(s: seq<T>, n: nat, k: nat)
    requires n + k <= |s|
    ensures s[n..][..k] == s[n..n + k] && s[n..][k..] == s[n + k..]
    ensures s[n..] == s[n..n + k] + s[n + k..]
  {
  }

  /** The batches from the `n`th call on: the next `k`, then the rest. */
  lemma ChunksFrom(calls: seq<Request>, size: nat, n: nat, k: nat)
    requires size > 0 && n < |calls| && k == if |calls| - n < size then |calls| - n else size
    ensures Chunks(calls[n..], size) == [calls[n..n + k]] + Chunks(calls[n + k..], size)
  {
    Pieces(calls, n, k);
  }

  /** A batch that comes back, then batches that come back. */
  lemma RunWithCons(b: seq<Request>, rest: seq<seq<Request>>, run: seq<Request> -> Result<seq<Json>>,
                    x: seq<Json>, y: seq<Json>)
    requires run(b) == Ok(x) && RunWith(rest, run) == Ok(y)
    ensures RunWith([b] + rest, run) == Ok(x + y)
  {
    assert ([b] + rest)[0] == b && ([b] + rest)[1..] == rest;
  }

  // ---------------------------------------------------------- report list

  /** The rows of the report listing after its header line: `(id, title)`
      split at the first tab; a line without a tab is skipped. */
  function ReportRows(lines: seq<string>): (rows: seq<(string, string)>)
    ensures |rows| <= |lines|
    ensures forall r | r in rows :: '\t' !in r.0
  {
    if lines == [] then []
    else
      var (report, delim, title) := Text.Partition(lines[0], '\t');
      if delim then [(report, title)] + ReportRows(lines[1..]) else ReportRows(lines[1..])
  }

  /** `Trac.report_list()` on the decoded text of `/report?asc=1&format=tab`. */
  function ReportList(text: string): seq<(string, string)> {
    var lines := Text.SplitLines(text, true);
    if lines == [] then [] else ReportRows(lines[1..])
  }

  /** The listing's text with a header line and one `id<TAB>title` line
      per report. */
  function ReportText(header: string, rows: seq<(string, string)>): string {
    Text.Unlines([header] + seq(|rows|, i requires 0 <= i < |rows| => rows[i].0 + "\t" + rows[i].1))
  }

  /** Reading back a listing gives every report, in order, when ids hold
      no tab and neither ids nor titles break the line. */
  lemma ReportListRoundTrip(header: string, rows: seq<(string, string)>)
    requires Text.OneLine(header, true)
    requires forall r | r in rows :: '\t' !in r.0 && Text.OneLine(r.0, true) && Text.OneLine(r.1, true)
    ensures ReportList(ReportText(header, rows)) == rows
  {
    var ls := seq(|rows|, i requires 0 <= i < |rows| => rows[i].0 + "\t" + rows[i].1);
    forall l, j | l in [header] + ls && 0 <= j < |l| ensures !Text.IsLineBreak(l[j], true) {
      if l != header {
        var i :| 0 <= i < |rows| && l == ls[i];
        assert rows[i] in rows;
        assert l == rows[i].0 + ['\t'] + rows[i].1;
        if j < |rows[i].0| {
          assert l[j] == rows[i].0[j];
        } else if j > |rows[i].0| {
          assert l[j] == rows[i].1[j - |rows[i].0| - 1];
        }
      }
    }
    Text.SplitUnlines([header] + ls, true);
    assert ([header] + ls)[1..] == ls;
    ReportRowsOfLines(rows);
  }

  lemma {:induction false} ReportRowsOfLines(rows: seq<(string, string)>)
    requires forall r | r in rows :: '\t' !in r.0
    ensures ReportRows(seq(|rows|, i requires 0 <= i < |rows| => rows[i].0 + "\t" + rows[i].1)) == rows
  {
    var ls := seq(|rows|, i requires 0 <= i < |rows| => rows[i].0 + "\t" + rows[i].1);
    if rows != [] {
      assert rows[0] in rows;
      assert ls[0] == rows[0].0 + ['\t'] + rows[0].1;
      Text.PartitionAt(rows[0].0, '\t', rows[0].1);
      ReportRowsOfLines(rows[1..]);
      assert ls[1..] == seq(|rows[1..]|, i requires 0 <= i < |rows[1..]| => rows[1..][i].0 + "\t" + rows[1..][i].1);
    }
  }

  /** Lines without a tab (a blank line, say) are skipped. */
  lemma ReportRowsSkip(line: string, rest: seq<string>)
    requires '\t' !in line
    ensures ReportRows([line] + rest) == ReportRows(rest)
  {
    assert ([line] + rest)[1..] == rest;
  }
}
