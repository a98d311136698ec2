/** The stages of `pull` that both revisions of the sync share: the
    reports, the field values, the changed tickets and their changelogs.
    Each stage fetches documents from the tracker and writes them, one file
    per document, with `write_json`; a failure ends the stage, leaving the
    documents already written in place. */
module Sync {
  import opened Json
  import opened Text
  import opened Paths
  import opened Docs
  import opened Remote
  import opened PyValue

  /** The default batch size of `imulticall`. */
  const BATCH: nat := 100

  /** The file a fetched document is written to inside `dir`: the quoted
      id (`url_safe_id`) for field values, the id as `'%s' % (id,)` formats
      it for tickets and changelogs, and ".json" after it. */
  function FileName(dir: string, id: Json, quoted: bool): (r: Result<string>)
    ensures r.Err? <==> id.JList? || id.JObj?
  {
    match PyStr(id)
    case None => Err(TypeError)
    case Some(s) => Ok(dir + "/" + (if quoted then UrlSafeId(s) else s) + ".json")
  }

  /** Every file name lies inside `dir` and ends in ".json"; a string id
      is used as it is, or quoted. */
  lemma FileNameShape(dir: string, id: Json, quoted: bool)
    ensures FileName(dir, id, quoted).Ok? ==>
      StartsWith(FileName(dir, id, quoted).value, dir + "/") && EndsWith(FileName(dir, id, quoted).value, ".json")
    ensures id.JStr? && quoted ==> FileName(dir, id, quoted) == Ok(IdFile(dir, id.s))
    ensures id.JStr? && !quoted ==> FileName(dir, id, quoted) == Ok(dir + "/" + id.s + ".json")
  {
    if FileName(dir, id, quoted).Ok? {
      var fn := FileName(dir, id, quoted).value;
      assert fn[..|dir + "/"|] == dir + "/";
      assert fn[|fn| - 5..] == ".json";
    }
  }

  /** One call per id: method `name` with the id and then `extra` as its
      parameters. */
  function Calls(name: string, ids: seq<Json>, extra: seq<Json>): (calls: seq<Request>)
    ensures |calls| == |ids|
  {
    seq(|ids|, i requires 0 <= i < |ids| => Request(name, [ids[i]] + extra))
  }

  /** What one of `pull`'s write loops did: the files it wrote, in order,
      the watermark it reached and how it ended. */
  datatype Run = Run(writes: seq<(string, Json)>, recent: Json, result: Result<()>)

  /** The documents of a run of writes, in order. */
  function Payloads(writes: seq<(string, Json)>): (docs: seq<Json>)
    ensures |docs| == |writes|
  {
    seq(|writes|, j requires 0 <= j < |writes| => writes[j].1)
  }

  /** The watermark after a run of tickets: `max` of the watermark so far
      and each ticket's `changed` time, in order. */
  function Watermark(recent: Json, docs: seq<Json>): Json
    decreases |docs|
  {
    if docs == [] then recent
    else
      var changed := TicketChanged(docs[0]);
      Watermark(if changed.Ok? then PyMax(recent, changed.value) else recent, docs[1..])
  }

  /** One of `pull`'s write loops `for id, info in izip(ids,
      imulticall(calls))`: the directory it writes to, whether ids are
      quoted in file names, whether it raises the watermark (the ticket
      loop), the ids, one call per id, and the tracker's RPC. */
  datatype Loop = Loop(dir: string, quoted: bool, watch: bool, ids: seq<Json>, calls: seq<Request>,
                       rpc: (string, seq<Json>) -> Json)
  {
    predicate Valid() {
      |calls| == |ids|
    }
  }

  /** Where the batch sent on reaching the `i`th id ends. */
  function BatchEnd(lp: Loop, i: nat): (end: nat)
    requires i < |lp.ids|
    ensures i < end <= |lp.ids| && end - i <= BATCH
  {
    if |lp.ids| - i < BATCH then |lp.ids| else i + BATCH
  }

  /** The loop from the `i`th id on. `imulticall` is a generator: the
      next batch of BATCH calls is sent only once the answers of the
      previous one are used up; `pending` holds the answers fetched and not
      yet written. In the ticket loop each document's `changed` time first
      raises the watermark. */
  function SyncFrom(lp: Loop, i: nat, recent: Json, pending: seq<Json>): Run
    requires lp.Valid() && i <= |lp.ids| && |pending| <= |lp.ids| - i
    decreases |lp.ids| - i, if pending == [] then 1 else 0
  {
    if i == |lp.ids| then Run([], recent, Ok(()))
    else if pending == [] then
      var batch := MulticallSpec(lp.calls[i..BatchEnd(lp, i)], lp.rpc);
      if batch.Err? then Run([], recent, Err(batch.fault))
      else SyncFrom(lp, i, recent, batch.value)
    else
      var changed := if lp.watch then TicketChanged(pending[0]) else Ok(JNull);
      if changed.Err? then Run([], recent, Err(changed.fault))
      else
        var next := if lp.watch then PyMax(recent, changed.value) else recent;
        var fn := FileName(lp.dir, lp.ids[i], lp.quoted);
        if fn.Err? then Run([], next, Err(fn.fault))
        else
          var rest := SyncFrom(lp, i + 1, next, pending[1..]);
          Run([(fn.value, pending[0])] + rest.writes, rest.recent, rest.result)
  }

  /** The whole loop, starting from watermark `recent`. */
  function SyncRun(lp: Loop, recent: Json): Run
    requires lp.Valid()
  {
    SyncFrom(lp, 0, recent, [])
  }

  /** Each write goes to the file name of its id, from the `i`th id on. */
  predicate NamedFrom(lp: Loop, i: nat, writes: seq<(string, Json)>) {
    i + |writes| <= |lp.ids| &&
    forall j | 0 <= j < |writes| :: FileName(lp.dir, lp.ids[i + j], lp.quoted) == Ok(writes[j].0)
  }

  /** The first documents written are the answers that were pending. */
  predicate Leads(pending: seq<Json>, writes: seq<(string, Json)>) {
    forall j | 0 <= j < |writes| && j < |pending| :: writes[j].1 == pending[j]
  }

  /** The loop writes at most one file per id, each to the file name of
      its id, in order, and ends well only when every id has been
      written. The answers already fetched are the first documents
      written. */
  lemma {:induction false} SyncFromWrites(lp: Loop, i: nat, recent: Json, pending: seq<Json>)
    requires lp.Valid() && i <= |lp.ids| && |pending| <= |lp.ids| - i
    ensures var r := SyncFrom(lp, i, recent, pending);
      NamedFrom(lp, i, r.writes) && (r.result.Ok? ==> |r.writes| == |lp.ids| - i)
    ensures Leads(pending, SyncFrom(lp, i, recent, pending).writes)
    decreases |lp.ids| - i, if pending == [] then 1 else 0, 1
  {
    if i == |lp.ids| {
    } else if pending == [] {
      var batch := MulticallSpec(lp.calls[i..BatchEnd(lp, i)], lp.rpc);
      if batch.Ok? {
        SyncFromWrites(lp, i, recent, batch.value);
      }
    } else {
      WriteStepWrites(lp, i, recent, pending);
    }
  }

  lemma {:induction false} WriteStepWrites(lp: Loop, i: nat, recent: Json, pending: seq<Json>)
    requires lp.Valid() && i < |lp.ids| && 0 < |pending| <= |lp.ids| - i
    ensures var r := SyncFrom(lp, i, recent, pending);
      NamedFrom(lp, i, r.writes) && (r.result.Ok? ==> |r.writes| == |lp.ids| - i)
    ensures Leads(pending, SyncFrom(lp, i, recent, pending).writes)
    decreases |lp.ids| - i, 0, 0
  {
    var changed := if lp.watch then TicketChanged(pending[0]) else Ok(JNull);
    var next := if lp.watch && changed.Ok? then PyMax(recent, changed.value) else recent;
    var fn := FileName(lp.dir, lp.ids[i], lp.quoted);
    SyncFromCons(lp, i, recent, pending);
    if changed.Ok? && fn.Ok? {
      SyncFromWrites(lp, i + 1, next, pending[1..]);
      ConsWrites(lp, i, (fn.value, pending[0]), SyncFrom(lp, i + 1, next, pending[1..]).writes, pending);
    }
  }

  /** The loop's turn with an answer at hand, written out. */
  lemma SyncFromCons(lp: Loop, i: nat, recent: Json, pending: seq<Json>)
    requires lp.Valid() && i < |lp.ids| && 0 < |pending| <= |lp.ids| - i
    ensures var changed := if lp.watch then TicketChanged(pending[0]) else Ok(JNull);
      var next := if lp.watch && changed.Ok? then PyMax(recent, changed.value) else recent;
      var fn := FileName(lp.dir, lp.ids[i], lp.quoted);
      var rest := SyncFrom(lp, i + 1, next, pending[1..]);
      SyncFrom(lp, i, recent, pending) ==
      if changed.Err? then Run([], recent, Err(changed.fault))
      else if fn.Err? then Run([], next, Err(fn.fault))
      else Run([(fn.value, pending[0])] + rest.writes, rest.recent, rest.result)
  {
  }

  /** With nothing pending, the loop sends the next batch and goes on
      with its answers. */
  lemma FetchStep(lp: Loop, i: nat, recent: Json)
    requires lp.Valid() && i < |lp.ids|
    ensures var batch := MulticallSpec(lp.calls[i..BatchEnd(lp, i)], lp.rpc);
      SyncFrom(lp, i, recent, []) ==
      if batch.Err? then Run([], recent, Err(batch.fault)) else SyncFrom(lp, i, recent, batch.value)
  {
  }

  lemma ConsWrites(lp: Loop, i: nat, w: (string, Json), rest: seq<(string, Json)>, pending: seq<Json>)
    requires pending != [] && NamedFrom(lp, i + 1, rest) && Leads(pending[1..], rest)
    requires FileName(lp.dir, lp.ids[i], lp.quoted) == Ok(w.0) && w.1 == pending[0]
    ensures NamedFrom(lp, i, [w] + rest) && Leads(pending, [w] + rest)
  {
    forall j | 1 <= j < |[w] + rest|
      ensures FileName(lp.dir, lp.ids[i + j], lp.quoted) == Ok(([w] + rest)[j].0)
      ensures j < |pending| ==> ([w] + rest)[j].1 == pending[j]
    {
      assert ([w] + rest)[j] == rest[j - 1];
      assert i + j == i + 1 + (j - 1);
      if j < |pending| {
        assert pending[1..][j - 1] == pending[j];
      }
    }
  }

  /** From the `i`th id on, every id has a file name and, in the ticket
      loop, every answer a `changed` time. */
  predicate AllWritable(lp: Loop, i: nat, answers: seq<Json>) {
    |answers| == |lp.ids| - i &&
    forall j | i <= j < |lp.ids| ::
      FileName(lp.dir, lp.ids[j], lp.quoted).Ok? && (lp.watch ==> TicketChanged(answers[j - i]).Ok?)
  }

  /** The answers of the batches still to be sent once `pending` is used
      up. */
  function MoreAnswers(lp: Loop, i: nat, pending: seq<Json>): Result<seq<Json>>
    requires lp.Valid() && i + |pending| <= |lp.ids|
  {
    RunBatches(Chunks(lp.calls[i + |pending|..], BATCH), lp.rpc)
  }

  /** From the `i`th id on, what the loop writes are the answers still to
      come: when every batch comes back, the documents written are the
      answers in order, and the loop ends well exactly when every id has a
      file name and (ticket loop) every answer a `changed` time. When a
      batch fails the loop fails. */
  predicate AnswersAgree(lp: Loop, i: nat, recent: Json, pending: seq<Json>)
    requires lp.Valid() && i <= |lp.ids| && |pending| <= |lp.ids| - i
  {
    var r := SyncFrom(lp, i, recent, pending);
    var more := MoreAnswers(lp, i, pending);
    (more.Err? ==> r.result.Err?) &&
    (more.Ok? ==> Leads(pending + more.value, r.writes) &&
                  (r.result.Ok? <==> AllWritable(lp, i, pending + more.value)))
  }

  lemma {:induction false} SyncFromAnswers(lp: Loop, i: nat, recent: Json, pending: seq<Json>)
    requires lp.Valid() && i <= |lp.ids| && |pending| <= |lp.ids| - i
    ensures AnswersAgree(lp, i, recent, pending)
    decreases |lp.ids| - i, if pending == [] then 1 else 0, 1
  {
    if i == |lp.ids| {
      assert lp.calls[i..] == [];
      assert pending + [] == [];
    } else if pending == [] {
      FetchAgrees(lp, i, recent);
    } else {
      WriteAgrees(lp, i, recent, pending);
    }
  }

  lemma {:induction false} FetchAgrees(lp: Loop, i: nat, recent: Json)
    requires lp.Valid() && i < |lp.ids|
    ensures AnswersAgree(lp, i, recent, [])
    decreases |lp.ids| - i, 1, 0
  {
    var batch := MulticallSpec(lp.calls[i..BatchEnd(lp, i)], lp.rpc);
    FetchAnswers(lp, i);
    FetchStep(lp, i, recent);
    if batch.Ok? {
      SyncFromAnswers(lp, i, recent, batch.value);
      assert MoreAnswers(lp, i, batch.value) == MoreAnswers(lp, BatchEnd(lp, i), []);
      var more := MoreAnswers(lp, i, batch.value);
      if more.Ok? {
        assert [] + (batch.value + more.value) == batch.value + more.value;
      }
    }
  }

  lemma {:induction false} WriteAgrees(lp: Loop, i: nat, recent: Json, pending: seq<Json>)
    requires lp.Valid() && i < |lp.ids| && 0 < |pending| <= |lp.ids| - i
    ensures AnswersAgree(lp, i, recent, pending)
    decreases |lp.ids| - i, 0, 0
  {
    var changed := if lp.watch then TicketChanged(pending[0]) else Ok(JNull);
    var next := if lp.watch && changed.Ok? then PyMax(recent, changed.value) else recent;
    var fn := FileName(lp.dir, lp.ids[i], lp.quoted);
    SyncFromCons(lp, i, recent, pending);
    assert MoreAnswers(lp, i + 1, pending[1..]) == MoreAnswers(lp, i, pending);
    var more := MoreAnswers(lp, i, pending);
    if more.Ok? {
      ChunksConcat(lp.calls[i + |pending|..], BATCH);
      AnswersCons(lp, i, pending, more.value);
    }
    if changed.Ok? && fn.Ok? {
      SyncFromAnswers(lp, i + 1, next, pending[1..]);
      if more.Ok? {
        LeadsCons((fn.value, pending[0]), SyncFrom(lp, i + 1, next, pending[1..]).writes, pending, more.value);
      }
    }
  }

  /** The batches from the `i`th call on: the one sent now, then the
      rest. */
  lemma FetchAnswers(lp: Loop, i: nat)
    requires lp.Valid() && i < |lp.ids|
    ensures var batch := MulticallSpec(lp.calls[i..BatchEnd(lp, i)], lp.rpc);
      var rest := MoreAnswers(lp, BatchEnd(lp, i), []);
      MoreAnswers(lp, i, []) ==
      if batch.Err? then Err(batch.fault)
      else if rest.Err? then Err(rest.fault)
      else Ok(batch.value + rest.value)
  {
    var cs := lp.calls[i..];
    var k := BatchEnd(lp, i) - i;
    assert cs[..k] == lp.calls[i..BatchEnd(lp, i)];
    assert cs[k..] == lp.calls[BatchEnd(lp, i)..];
    assert Chunks(cs, BATCH) == [cs[..k]] + Chunks(cs[k..], BATCH);
  }

  lemma AnswersCons(lp: Loop, i: nat, pending: seq<Json>, more: seq<Json>)
    requires pending != [] && |pending| + |more| == |lp.ids| - i
    ensures (pending + more)[0] == pending[0] && (pending + more)[1..] == pending[1..] + more
    ensures AllWritable(lp, i, pending + more) <==>
      FileName(lp.dir, lp.ids[i], lp.quoted).Ok? && (lp.watch ==> TicketChanged(pending[0]).Ok?) &&
      AllWritable(lp, i + 1, pending[1..] + more)
  {
    var all := pending + more;
    var tail := pending[1..] + more;
    assert all[1..] == tail;
    assert all[0] == pending[0];
    if AllWritable(lp, i + 1, tail) && FileName(lp.dir, lp.ids[i], lp.quoted).Ok? &&
       (lp.watch ==> TicketChanged(pending[0]).Ok?) {
      forall j | i <= j < |lp.ids|
        ensures FileName(lp.dir, lp.ids[j], lp.quoted).Ok? && (lp.watch ==> TicketChanged(all[j - i]).Ok?)
      {
        if j > i {
          assert all[j - i] == tail[j - (i + 1)];
        }
      }
      assert AllWritable(lp, i, all);
    }
    if AllWritable(lp, i, all) {
      assert FileName(lp.dir, lp.ids[i], lp.quoted).Ok? && (lp.watch ==> TicketChanged(all[0]).Ok?);
      forall j | i + 1 <= j < |lp.ids|
        ensures FileName(lp.dir, lp.ids[j], lp.quoted).Ok? && (lp.watch ==> TicketChanged(tail[j - (i + 1)]).Ok?)
      {
        assert tail[j - (i + 1)] == all[j - i];
      }
      assert AllWritable(lp, i + 1, tail);
    }
  }

  lemma LeadsCons(w: (string, Json), rest: seq<(string, Json)>, pending: seq<Json>, more: seq<Json>)
    requires pending != [] && w.1 == pending[0] && Leads(pending[1..] + more, rest)
    ensures Leads(pending + more, [w] + rest)
  {
    var all := pending + more;
    assert all[1..] == pending[1..] + more;
    forall j | 1 <= j < |[w] + rest| && j < |all| ensures ([w] + rest)[j].1 == all[j] {
      assert ([w] + rest)[j] == rest[j - 1];
      assert all[j] == all[1..][j - 1];
    }
  }

  /** The whole loop against `imulticall(calls)` with the default batch
      size. */
  lemma SyncRunAnswers(lp: Loop, recent: Json)
    requires lp.Valid()
    ensures ImulticallSpec(lp.calls, BATCH, lp.rpc).Err? ==> SyncRun(lp, recent).result.Err?
    ensures ImulticallSpec(lp.calls, BATCH, lp.rpc).Ok? ==>
      var answers := ImulticallSpec(lp.calls, BATCH, lp.rpc).value;
      Leads(answers, SyncRun(lp, recent).writes) &&
      (SyncRun(lp, recent).result.Ok? <==> AllWritable(lp, 0, answers))
  {
    assert lp.calls[0..] == lp.calls;
    SyncFromAnswers(lp, 0, recent, []);
    if MoreAnswers(lp, 0, []).Ok? {
      assert [] + MoreAnswers(lp, 0, []).value == MoreAnswers(lp, 0, []).value;
    }
  }

  /** Outside the ticket loop the watermark is left alone; in it, a loop
      that ends well has raised it by every document's `changed` time, in
      order, and every document had one. */
  lemma SyncFromWatermark(lp: Loop, i: nat, recent: Json, pending: seq<Json>)
    requires lp.Valid() && i <= |lp.ids| && |pending| <= |lp.ids| - i
    ensures var r := SyncFrom(lp, i, recent, pending);
      !lp.watch ==> r.recent == recent
    ensures var r := SyncFrom(lp, i, recent, pending);
      lp.watch && r.result.Ok? ==> r.recent == Watermark(recent, Payloads(r.writes))
    ensures var r := SyncFrom(lp, i, recent, pending);
      lp.watch ==> forall j | 0 <= j < |r.writes| :: TicketChanged(r.writes[j].1).Ok?
  {
    if lp.watch {
      SyncFromRaisesMark(lp, i, recent, pending);
      SyncFromChanged(lp, i, recent, pending);
    } else {
      SyncFromKeepsMark(lp, i, recent, pending);
    }
  }

  /** Outside the ticket loop the watermark is left alone. */
  lemma {:induction false} SyncFromKeepsMark(lp: Loop, i: nat, recent: Json, pending: seq<Json>)
    requires lp.Valid() && i <= |lp.ids| && |pending| <= |lp.ids| - i && !lp.watch
    ensures SyncFrom(lp, i, recent, pending).recent == recent
    decreases |lp.ids| - i, if pending == [] then 1 else 0
  {
    if i == |lp.ids| {
    } else if pending == [] {
      var batch := MulticallSpec(lp.calls[i..BatchEnd(lp, i)], lp.rpc);
      if batch.Ok? {
        SyncFromKeepsMark(lp, i, recent, batch.value);
      }
    } else {
      SyncFromKeepsMark(lp, i + 1, recent, pending[1..]);
    }
  }

  /** In the ticket loop, a loop that ends well has raised the watermark by
      every document's `changed` time, in order. */
  lemma {:induction false} SyncFromRaisesMark(lp: Loop, i: nat, recent: Json, pending: seq<Json>)
    requires lp.Valid() && i <= |lp.ids| && |pending| <= |lp.ids| - i && lp.watch
    ensures var r := SyncFrom(lp, i, recent, pending);
      r.result.Ok? ==> r.recent == Watermark(recent, Payloads(r.writes))
    decreases |lp.ids| - i, if pending == [] then 1 else 0
  {
    if i == |lp.ids| {
    } else if pending == [] {
      var batch := MulticallSpec(lp.calls[i..BatchEnd(lp, i)], lp.rpc);
      FetchStep(lp, i, recent);
      if batch.Ok? {
        SyncFromRaisesMark(lp, i, recent, batch.value);
      }
    } else {
      var changed := TicketChanged(pending[0]);
      var fn := FileName(lp.dir, lp.ids[i], lp.quoted);
      if changed.Ok? && fn.Ok? {
        var next := PyMax(recent, changed.value);
        SyncFromCons(lp, i, recent, pending);
        SyncFromRaisesMark(lp, i + 1, next, pending[1..]);
        var rest := SyncFrom(lp, i + 1, next, pending[1..]);
        var w := (fn.value, pending[0]);
        assert SyncFrom(lp, i, recent, pending).writes == [w] + rest.writes;
        PayloadsCons(w, rest.writes);
      }
    }
  }

  /** Every document written has a `changed` time. */
  predicate AllChanged(writes: seq<(string, Json)>) {
    forall j | 0 <= j < |writes| :: TicketChanged(writes[j].1).Ok?
  }

  lemma AllChangedCons(w: (string, Json), rest: seq<(string, Json)>)
    requires TicketChanged(w.1).Ok? && AllChanged(rest)
    ensures AllChanged([w] + rest)
  {
    forall j | 1 <= j < |[w] + rest| ensures TicketChanged(([w] + rest)[j].1).Ok? {
      assert ([w] + rest)[j] == rest[j - 1];
    }
  }

  /** In the ticket loop every document written had a `changed` time. */
  lemma {:induction false} SyncFromChanged(lp: Loop, i: nat, recent: Json, pending: seq<Json>)
    requires lp.Valid() && i <= |lp.ids| && |pending| <= |lp.ids| - i && lp.watch
    ensures AllChanged(SyncFrom(lp, i, recent, pending).writes)
    decreases |lp.ids| - i, if pending == [] then 1 else 0
  {
    if i == |lp.ids| {
    } else if pending == [] {
      var batch := MulticallSpec(lp.calls[i..BatchEnd(lp, i)], lp.rpc);
      FetchStep(lp, i, recent);
      if batch.Ok? {
        SyncFromChanged(lp, i, recent, batch.value);
      }
    } else {
      var changed := TicketChanged(pending[0]);
      var fn := FileName(lp.dir, lp.ids[i], lp.quoted);
      SyncFromCons(lp, i, recent, pending);
      if changed.Ok? && fn.Ok? {
        var next := PyMax(recent, changed.value);
        SyncFromChanged(lp, i + 1, next, pending[1..]);
        AllChangedCons((fn.value, pending[0]), SyncFrom(lp, i + 1, next, pending[1..]).writes);
      }
    }
  }

  lemma PayloadsCons(w: (string, Json), rest: seq<(string, Json)>)
    ensures Payloads([w] + rest) != [] && Payloads([w] + rest)[0] == w.1
    ensures Payloads([w] + rest)[1..] == Payloads(rest)
  {
  }

  /** The watermark over ISO time strings: when it and every `changed`
      time are strings, it ends as a string at least as late as where it
      started and as each `changed` time. */
  lemma {:induction false} WatermarkLatest(recent: string, docs: seq<Json>)
    requires forall d | d in docs :: TicketChanged(d).Ok? && TicketChanged(d).value.JStr?
    ensures Watermark(JStr(recent), docs).JStr?
    ensures !LexLess(Watermark(JStr(recent), docs).s, recent)
    ensures forall d | d in docs :: !LexLess(Watermark(JStr(recent), docs).s, TicketChanged(d).value.s)
    decreases |docs|
  {
    if docs != [] {
      var c := TicketChanged(docs[0]).value.s;
      PyMaxStrings(recent, c);
      var m := StrMax(recent, c);
      assert forall d | d in docs[1..] :: d in docs;
      WatermarkLatest(m, docs[1..]);
      assert docs[0] in docs;
      var w := Watermark(JStr(m), docs[1..]).s;
      NotLessTrans(w, m, recent);
      NotLessTrans(w, m, c);
    } else {
      LexLessIrreflexive(recent);
    }
  }

  /** "Not earlier than" is transitive on strings. */
  lemma NotLessTrans(a: string, b: string, c: string)
    requires !LexLess(a, b) && !LexLess(b, c)
    ensures !LexLess(a, c)
  {
    LexTrichotomy(a, b);
    LexTrichotomy(b, c);
    LexTrichotomy(a, c);
    if LexLess(a, c) {
      if a == b {
      } else {
        LexTransitive(b, a, c);
      }
    }
  }

  // ------------------------------------------------------------- the loop

  /** The writes already done, followed by what the rest of a run does. */
  function Then(done: seq<(string, Json)>, run: Run): Run {
    Run(done + run.writes, run.recent, run.result)
  }

  lemma ThenWrite(done: seq<(string, Json)>, w: (string, Json), rest: Run)
    ensures Then(done, Run([w] + rest.writes, rest.recent, rest.result)) == Then(done + [w], rest)
  {
    assert done + ([w] + rest.writes) == (done + [w]) + rest.writes;
  }

  lemma ThenStop(done: seq<(string, Json)>, recent: Json, fault: Fault)
    ensures Then(done, Run([], recent, Err(fault))) == Run(done, recent, Err(fault))
  {
    assert done + [] == done;
  }

  /** The answers the loop works through on reaching the `i`th id: the
      pending ones, or when none are left the next batch's (the generator
      resuming `imulticall`). */
  method Refill(lp: Loop, i: nat, recent: Json, pending: seq<Json>) returns (next: Result<seq<Json>>)
    requires lp.Valid() && i < |lp.ids| && |pending| <= |lp.ids| - i
    ensures next.Ok? ==> next.value != [] && |next.value| <= |lp.ids| - i
    ensures next.Ok? ==> SyncFrom(lp, i, recent, pending) == SyncFrom(lp, i, recent, next.value)
    ensures next.Err? ==> SyncFrom(lp, i, recent, pending) == Run([], recent, Err(next.fault))
  {
    if pending != [] {
      return Ok(pending);
    }
    next := Multicall(lp.calls[i..BatchEnd(lp, i)], lp.rpc);
  }

  /** One turn of the loop with an answer at hand: raise the watermark
      (ticket loop), form the file name and `write_json` the answer. */
  method WriteNext(disk: Disk, lp: Loop, i: nat, recent: Json, pending: seq<Json>)
    returns (next: Json, w: Result<(string, Json)>)
    requires lp.Valid() && i < |lp.ids| && 0 < |pending| <= |lp.ids| - i
    modifies disk
    ensures w.Err? ==> SyncFrom(lp, i, recent, pending) == Run([], next, Err(w.fault))
    ensures w.Err? ==> disk.files == old(disk.files)
    ensures w.Ok? ==> var rest := SyncFrom(lp, i + 1, next, pending[1..]);
      SyncFrom(lp, i, recent, pending) == Run([w.value] + rest.writes, rest.recent, rest.result)
    ensures w.Ok? ==> disk.files == Written(old(disk.files), w.value.0, w.value.1)
  {
    var info := pending[0];
    next := recent;
    if lp.watch {
      var changed := TicketChanged(info);
      if changed.Err? {
        return next, Err(changed.fault);
      }
      next := PyMax(recent, changed.value);
    }
    var fn := FileName(lp.dir, lp.ids[i], lp.quoted);
    if fn.Err? {
      return next, Err(fn.fault);
    }
    disk.WriteJson(fn.value, info);
    w := Ok((fn.value, info));
  }


  /** The run from the `i`th id on, after the writes `done`, is `goal`. */
  predicate Resumes(goal: Run, done: seq<(string, Json)>, lp: Loop, i: nat, recent: Json, pending: seq<Json>) {
    lp.Valid() && i <= |lp.ids| && |pending| <= |lp.ids| - i &&
    goal == Then(done, SyncFrom(lp, i, recent, pending))
  }

  lemma ResumesStart(lp: Loop, recent: Json)
    requires lp.Valid()
    ensures Resumes(SyncRun(lp, recent), [], lp, 0, recent, [])
  {
    assert [] + SyncRun(lp, recent).writes == SyncRun(lp, recent).writes;
  }

  lemma ResumesDone(goal: Run, done: seq<(string, Json)>, lp: Loop, recent: Json, pending: seq<Json>)
    requires Resumes(goal, done, lp, |lp.ids|, recent, pending)
    ensures goal == Run(done, recent, Ok(()))
  {
    assert done + [] == done;
  }

  /** One turn of the loop of `SyncDocs`: fetch if need be, then write the
      next answer. The turn either keeps the loop's invariant for the next
      id or stops the loop with the whole run's outcome. */
  method Turn(disk: Disk, lp: Loop, i: nat, recent: Json, pending: seq<Json>,
              ghost start: map<string, Json>, ghost done: seq<(string, Json)>, ghost goal: Run)
    returns (next: Json, rest: seq<Json>, ghost done2: seq<(string, Json)>, st: Result<()>)
    requires i < |lp.ids| && Resumes(goal, done, lp, i, recent, pending)
    requires disk.files == WriteAll(start, done)
    modifies disk
    ensures disk.files == WriteAll(start, done2)
    ensures st.Err? ==> goal == Run(done2, next, st)
    ensures st.Ok? ==> Resumes(goal, done2, lp, i + 1, next, rest)
  {
    var fill := Refill(lp, i, recent, pending);
    if fill.Err? {
      ThenStop(done, recent, fill.fault);
      return recent, pending, done, Err(fill.fault);
    }
    var w;
    next, w := WriteNext(disk, lp, i, recent, fill.value);
    if w.Err? {
      ThenStop(done, next, w.fault);
      return next, pending, done, Err(w.fault);
    }
    ThenWrite(done, w.value, SyncFrom(lp, i + 1, next, fill.value[1..]));
    WriteAllSnoc(start, done, w.value.0, w.value.1);
    return next, fill.value[1..], done + [w.value], Ok(());
  }

  /** The loop of `pull` over `izip(ids, imulticall(calls))` that writes
      each document with `write_json`, raising the watermark first in the
      ticket loop. */
  method SyncDocs(disk: Disk, lp: Loop, recent0: Json) returns (recent: Json, r: Result<()>)
    requires lp.Valid()
    modifies disk
    ensures disk.files == WriteAll(old(disk.files), SyncRun(lp, recent0).writes)
    ensures recent == SyncRun(lp, recent0).recent && r == SyncRun(lp, recent0).result
  {
    ghost var start := disk.files;
    ghost var goal := SyncRun(lp, recent0);
    ghost var done: seq<(string, Json)> := [];
    recent := recent0;
    var pending: seq<Json> := [];
    var i := 0;
    ResumesStart(lp, recent0);
    while i < |lp.ids|
      invariant disk.files == WriteAll(start, done)
      invariant Resumes(goal, done, lp, i, recent, pending)
      decreases |lp.ids| - i
    {
      var st;
      recent, pending, done, st := Turn(disk, lp, i, recent, pending, start, done, goal);
      if st.Err? {
        return recent, st;
      }
      i := i + 1;
    }
    ResumesDone(goal, done, lp, recent, pending);
    r := Ok(());
  }

  // --------------------------------------------------------- the stages

  /** The checkout after a stage of `pull` and how the stage ended. */
  datatype Outcome = Outcome(files: map<string, Json>, result: Result<()>)

  /** The checkout after the ticket stage, the watermark it reached and
      how it ended. */
  datatype Stage = Stage(files: map<string, Json>, recent: Json, result: Result<()>)

  /** The document `yield_reports` gives for a report. */
  function ReportDoc(title: string, sql: string): (doc: Json)
    ensures doc.JObj? && doc.fields.Keys == {"title", "sql"}
  {
    JObj(map["title" := JStr(title), "sql" := JStr(sql)])
  }

  /** The files the report loop writes: one per listed report, in the
      order of the listing. */
  function ReportWrites(rows: seq<(string, string)>, sqlOf: string -> string): (w: seq<(string, Json)>)
    ensures |w| == |rows|
  {
    seq(|rows|, j requires 0 <= j < |rows| => (IdFile("report", rows[j].0), ReportDoc(rows[j].1, sqlOf(rows[j].0))))
  }

  /** The report stage of `pull`: the reports of the listing, each with its
      title and SQL text, written under "report/", which is emptied first
      when `nuke` is set. */
  function ReportStage(files: map<string, Json>, t: Tracker, nuke: bool): map<string, Json> {
    var start := if nuke then Nuked(files, "report") else files;
    WriteAll(start, ReportWrites(ReportList(t.reportTab), t.reportSql))
  }

  /** After the nuking report stage the report directory lists exactly
      the listed reports. */
  lemma ReportStageExact(files: map<string, Json>, t: Tracker, k: string)
    requires Listed(k, "report")
    ensures k in ReportStage(files, t, true) <==>
      exists row | row in ReportList(t.reportTab) :: IdFile("report", row.0) == k
  {
    var rows := ReportList(t.reportTab);
    NukeThenWrite(files, "report", ReportWrites(rows, t.reportSql), k);
    ReportNames(rows, t.reportSql, k);
  }

  /** Each listed document of the report directory that the stage wrote
      holds the title and SQL text of a report with that id. */
  lemma ReportStageContent(files: map<string, Json>, t: Tracker, nuke: bool, k: string)
    requires Listed(k, "report") && k in ReportStage(files, t, nuke)
    requires nuke || k !in files || exists row | row in ReportList(t.reportTab) :: IdFile("report", row.0) == k
    ensures exists row | row in ReportList(t.reportTab) ::
      IdFile("report", row.0) == k && ReportStage(files, t, nuke)[k] == ReportDoc(row.1, t.reportSql(row.0))
  {
    var rows := ReportList(t.reportTab);
    var w := ReportWrites(rows, t.reportSql);
    var start := if nuke then Nuked(files, "report") else files;
    ListedVisible(k, "report");
    WriteAllKeys(start, w, k);
    ReportNames(rows, t.reportSql, k);
    var j :| 0 <= j < |w| && w[j].0 == k;
    var last := LastIndex(w, k, j);
    WriteAllLast(start, w, last);
    assert rows[last] in rows;
  }

  lemma ReportNames(rows: seq<(string, string)>, sqlOf: string -> string, k: string)
    ensures (exists j | 0 <= j < |rows| :: ReportWrites(rows, sqlOf)[j].0 == k) <==>
      exists row | row in rows :: IdFile("report", row.0) == k
  {
    if row :| row in rows && IdFile("report", row.0) == k {
      var j :| 0 <= j < |rows| && rows[j] == row;
      assert ReportWrites(rows, sqlOf)[j].0 == k;
    }
    if j :| 0 <= j < |rows| && ReportWrites(rows, sqlOf)[j].0 == k {
      assert rows[j] in rows;
    }
  }

  /** The report stage leaves every visible file outside "report/" as it
      was. */
  lemma ReportStageKeeps(files: map<string, Json>, t: Tracker, nuke: bool, k: string)
    requires !Hidden(k) && !StartsWith(k, "report/")
    ensures var r := ReportStage(files, t, nuke);
      (k in r <==> k in files) && (k in files ==> r[k] == files[k])
  {
    var start := if nuke then Nuked(files, "report") else files;
    assert k in start <==> k in files;
    ReportWritesOutside(start, ReportList(t.reportTab), t.reportSql, k);
  }

  /** Writing the reports of `rows` leaves a visible file outside
      "report/" as it was. */
  lemma ReportWritesOutside(start: map<string, Json>, rows: seq<(string, string)>, sqlOf: string -> string, k: string)
    requires !Hidden(k) && !StartsWith(k, "report/")
    ensures var r := WriteAll(start, ReportWrites(rows, sqlOf));
      (k in r <==> k in start) && (k in start ==> r[k] == start[k])
  {
    ReportWritesElsewhere(rows, sqlOf, k);
    WriteAllUntouched(start, ReportWrites(rows, sqlOf), k);
  }

  lemma ReportWritesElsewhere(rows: seq<(string, string)>, sqlOf: string -> string, k: string)
    requires !StartsWith(k, "report/")
    ensures forall j | 0 <= j < |rows| :: ReportWrites(rows, sqlOf)[j].0 != k
  {
    forall j | 0 <= j < |rows| ensures ReportWrites(rows, sqlOf)[j].0 != k {
      var fn := ReportWrites(rows, sqlOf)[j].0;
      assert fn == "report/" + (UrlSafeId(rows[j].0) + ".json");
      assert fn[..7] == "report/";
    }
  }

  /** The report stage of `pull`: nuke "report/" (when `nuke` is set),
      then for each row of the listing write its document. */
  method PullReports(disk: Disk, t: Tracker, nuke: bool)
    modifies disk
    ensures disk.files == ReportStage(old(disk.files), t, nuke)
  {
    if nuke {
      disk.Nuke("report");
    }
    ghost var start := disk.files;
    var rows := ReportList(t.reportTab);
    var i := 0;
    while i < |rows|
      invariant i <= |rows|
      invariant disk.files == WriteAll(start, ReportWrites(rows[..i], t.reportSql))
    {
      var (id, title) := rows[i];
      var fn := IdFile("report", id);
      var doc := ReportDoc(title, t.reportSql(id));
      ReportWritesSnoc(rows, i, t.reportSql);
      WriteAllSnoc(start, ReportWrites(rows[..i], t.reportSql), fn, doc);
      disk.WriteJson(fn, doc);
      i := i + 1;
    }
    assert rows[..i] == rows;
  }

  lemma ReportWritesSnoc(rows: seq<(string, string)>, i: nat, sqlOf: string -> string)
    requires i < |rows|
    ensures ReportWrites(rows[..i + 1], sqlOf) ==
      ReportWrites(rows[..i], sqlOf) + [(IdFile("report", rows[i].0), ReportDoc(rows[i].1, sqlOf(rows[i].0)))]
  {
  }

  // ------------------------------------------------------------- fields

  /** `yield_field(f)`'s ids: the answer to `ticket.<f>.getAll`, iterated. */
  function FieldIds(f: string, rpc: (string, seq<Json>) -> Json): Result<seq<Json>> {
    var raw :- Call(rpc("ticket." + f + ".getAll", []));
    Iterate(raw)
  }

  /** The loop over the values of field `f`, written under their quoted
      ids. */
  function FieldLoop(f: string, ids: seq<Json>, rpc: (string, seq<Json>) -> Json): (lp: Loop)
    ensures lp.Valid() && lp.ids == ids && lp.dir == FieldDir(f) && lp.quoted && !lp.watch
  {
    Loop(FieldDir(f), true, false, ids, Calls("ticket." + f + ".get", ids, []), rpc)
  }

  /** The stage of one field: nuke its directory (when `nuke` is set),
      fetch the field's ids and write each value. */
  function FieldStage(files: map<string, Json>, f: string, rpc: (string, seq<Json>) -> Json, nuke: bool): Outcome {
    var start := if nuke then Nuked(files, FieldDir(f)) else files;
    match FieldIds(f, rpc)
    case Err(e) => Outcome(start, Err(e))
    case Ok(ids) =>
      var run := SyncRun(FieldLoop(f, ids, rpc), JNull);
      Outcome(WriteAll(start, run.writes), run.result)
  }

  /** The stages of the fields, in order; the first failing one ends the
      run. */
  function FieldsStage(files: map<string, Json>, fields: seq<string>, rpc: (string, seq<Json>) -> Json, nuke: bool): Outcome
    decreases |fields|
  {
    if fields == [] then Outcome(files, Ok(()))
    else
      var o := FieldStage(files, fields[0], rpc, nuke);
      if o.result.Err? then o else FieldsStage(o.files, fields[1..], rpc, nuke)
  }

  /** The field stage of `pull` for field `f`. */
  method PullField(disk: Disk, f: string, rpc: (string, seq<Json>) -> Json, nuke: bool) returns (r: Result<()>)
    modifies disk
    ensures disk.files == FieldStage(old(disk.files), f, rpc, nuke).files
    ensures r == FieldStage(old(disk.files), f, rpc, nuke).result
  {
    if nuke {
      disk.Nuke(FieldDir(f));
    }
    var ids := FieldIds(f, rpc);
    if ids.Err? {
      return Err(ids.fault);
    }
    var _, res := SyncDocs(disk, FieldLoop(f, ids.value, rpc), JNull);
    return res;
  }

  /** `for field_name in FIELDS`: the stage of each field in turn. */
  method PullFields(disk: Disk, rpc: (string, seq<Json>) -> Json, nuke: bool) returns (r: Result<()>)
    modifies disk
    ensures disk.files == FieldsStage(old(disk.files), FIELDS, rpc, nuke).files
    ensures r == FieldsStage(old(disk.files), FIELDS, rpc, nuke).result
  {
    ghost var goal := FieldsStage(disk.files, FIELDS, rpc, nuke);
    var i := 0;
    while i < |FIELDS|
      invariant i <= |FIELDS|
      invariant FieldsStage(disk.files, FIELDS[i..], rpc, nuke) == goal
    {
      assert FIELDS[i..][0] == FIELDS[i] && FIELDS[i..][1..] == FIELDS[i + 1..];
      r := PullField(disk, FIELDS[i], rpc, nuke);
      if r.Err? {
        return;
      }
      i := i + 1;
    }
    r := Ok(());
  }

  // ------------------------------------------------------------- tickets

  /** `recent_tickets(recent)`: the ids of the tickets changed since the
      watermark, as `len` and iteration see them. */
  function TicketIds(recent: Json, rpc: (string, seq<Json>) -> Json): Result<seq<Json>> {
    var raw :- Call(rpc("ticket.getRecentChanges", [JsonDatetime(recent)]));
    Iterate(raw)
  }

  /** The loop writing each changed ticket under "ticket/", raising the
      watermark. */
  function TicketLoop(ids: seq<Json>, rpc: (string, seq<Json>) -> Json): (lp: Loop)
    ensures lp.Valid() && lp.ids == ids && lp.dir == "ticket" && !lp.quoted && lp.watch
  {
    Loop("ticket", false, true, ids, Calls("ticket.get", ids, []), rpc)
  }

  /** The loop writing each changed ticket's changelog under
      "changelog/". */
  function ChangeLogLoop(ids: seq<Json>, rpc: (string, seq<Json>) -> Json): (lp: Loop)
    ensures lp.Valid() && lp.ids == ids && lp.dir == "changelog" && !lp.quoted && !lp.watch
  {
    Loop("changelog", false, false, ids, Calls("ticket.changeLog", ids, [JInt(0)]), rpc)
  }

  /** The ticket stage: the changed tickets, then their changelogs. */
  function TicketsStage(files: map<string, Json>, recent: Json, rpc: (string, seq<Json>) -> Json): Stage {
    match TicketIds(recent, rpc)
    case Err(e) => Stage(files, recent, Err(e))
    case Ok(ids) =>
      var tickets := SyncRun(TicketLoop(ids, rpc), recent);
      var afterTickets := WriteAll(files, tickets.writes);
      if tickets.result.Err? then Stage(afterTickets, tickets.recent, tickets.result)
      else
        var logs := SyncRun(ChangeLogLoop(ids, rpc), JNull);
        Stage(WriteAll(afterTickets, logs.writes), tickets.recent, logs.result)
  }

  /** The ticket stage of `pull`: the new watermark and how it ended. */
  method PullTickets(disk: Disk, recent: Json, rpc: (string, seq<Json>) -> Json) returns (next: Json, r: Result<()>)
    modifies disk
    ensures disk.files == TicketsStage(old(disk.files), recent, rpc).files
    ensures next == TicketsStage(old(disk.files), recent, rpc).recent
    ensures r == TicketsStage(old(disk.files), recent, rpc).result
  {
    var ids := TicketIds(recent, rpc);
    if ids.Err? {
      return recent, Err(ids.fault);
    }
    next, r := SyncDocs(disk, TicketLoop(ids.value, rpc), recent);
    if r.Err? {
      return;
    }
    var _, logs := SyncDocs(disk, ChangeLogLoop(ids.value, rpc), JNull);
    r := logs;
  }

  // --------------------------------------------------- what the stages do

  /** The names a loop writes lie in its directory. */
  lemma WritesInDir(lp: Loop, writes: seq<(string, Json)>, k: string)
    requires NamedFrom(lp, 0, writes) && !StartsWith(k, lp.dir + "/")
    ensures forall j | 0 <= j < |writes| :: writes[j].0 != k
  {
    forall j | 0 <= j < |writes| ensures writes[j].0 != k {
      FileNameShape(lp.dir, lp.ids[0 + j], lp.quoted);
    }
  }

  /** A loop leaves every visible file outside its directory as it was,
      however it ends. */
  lemma LoopOutsideDir(files: map<string, Json>, lp: Loop, recent: Json, k: string)
    requires lp.Valid() && !Hidden(k) && !StartsWith(k, lp.dir + "/")
    ensures var f := WriteAll(files, SyncRun(lp, recent).writes);
      (k in f <==> k in files) && (k in files ==> f[k] == files[k])
  {
    SyncFromWrites(lp, 0, recent, []);
    WritesInDir(lp, SyncRun(lp, recent).writes, k);
    WriteAllUntouched(files, SyncRun(lp, recent).writes, k);
  }

  /** A loop's writes are exactly its ids' file names when it ends well,
      and some of them otherwise. */
  lemma LoopNames(lp: Loop, recent: Json, k: string)
    requires lp.Valid()
    ensures var r := SyncRun(lp, recent);
      (exists j | 0 <= j < |r.writes| :: r.writes[j].0 == k) ==>
      exists j | 0 <= j < |lp.ids| :: FileName(lp.dir, lp.ids[j], lp.quoted) == Ok(k)
    ensures var r := SyncRun(lp, recent);
      r.result.Ok? && (exists j | 0 <= j < |lp.ids| :: FileName(lp.dir, lp.ids[j], lp.quoted) == Ok(k)) ==>
      exists j | 0 <= j < |r.writes| :: r.writes[j].0 == k
  {
    SyncFromWrites(lp, 0, recent, []);
    var r := SyncRun(lp, recent);
    if j :| 0 <= j < |r.writes| && r.writes[j].0 == k {
      assert FileName(lp.dir, lp.ids[0 + j], lp.quoted) == Ok(k);
    }
    if r.result.Ok? {
      if j :| 0 <= j < |lp.ids| && FileName(lp.dir, lp.ids[j], lp.quoted) == Ok(k) {
        assert FileName(lp.dir, lp.ids[0 + j], lp.quoted) == Ok(r.writes[j].0);
      }
    }
  }

  /** A field's value `v` is written to file `k`. */
  predicate FieldNames(f: string, ids: seq<Json>, k: string) {
    exists j | 0 <= j < |ids| :: FileName(FieldDir(f), ids[j], true) == Ok(k)
  }

  /** After the nuking stage of field `f` its directory lists only values
      just fetched, and all of them when the stage ends well. */
  lemma FieldStageExact(files: map<string, Json>, f: string, rpc: (string, seq<Json>) -> Json, k: string)
    requires Listed(k, FieldDir(f))
    ensures var o := FieldStage(files, f, rpc, true);
      k in o.files ==> FieldIds(f, rpc).Ok? && FieldNames(f, FieldIds(f, rpc).value, k)
    ensures var o := FieldStage(files, f, rpc, true);
      o.result.Ok? ==> (k in o.files <==> FieldNames(f, FieldIds(f, rpc).value, k))
  {
    ListedVisible(k, FieldDir(f));
    if FieldIds(f, rpc).Ok? {
      var lp := FieldLoop(f, FieldIds(f, rpc).value, rpc);
      NukeThenWrite(files, FieldDir(f), SyncRun(lp, JNull).writes, k);
      LoopNames(lp, JNull, k);
    }
  }

  /** The stage of field `f` leaves every visible file outside its
      directory as it was. */
  lemma FieldStageKeeps(files: map<string, Json>, f: string, rpc: (string, seq<Json>) -> Json, nuke: bool, k: string)
    requires !Hidden(k) && !StartsWith(k, FieldDir(f) + "/")
    ensures var o := FieldStage(files, f, rpc, nuke);
      (k in o.files <==> k in files) && (k in files ==> o.files[k] == files[k])
  {
    var start := if nuke then Nuked(files, FieldDir(f)) else files;
    assert k in start <==> k in files;
    if FieldIds(f, rpc).Ok? {
      LoopOutsideDir(start, FieldLoop(f, FieldIds(f, rpc).value, rpc), JNull, k);
    }
  }

  /** The field stages leave every visible file outside the fields'
      directories as it was. */
  lemma {:induction false} FieldsStageKeeps(files: map<string, Json>, fields: seq<string>, rpc: (string, seq<Json>) -> Json,
                                            nuke: bool, k: string)
    requires !Hidden(k) && forall g | g in fields :: !StartsWith(k, FieldDir(g) + "/")
    ensures var o := FieldsStage(files, fields, rpc, nuke);
      (k in o.files <==> k in files) && (k in files ==> o.files[k] == files[k])
    decreases |fields|
  {
    if fields != [] {
      FieldStageKeeps(files, fields[0], rpc, nuke, k);
      var o := FieldStage(files, fields[0], rpc, nuke);
      if o.result.Ok? {
        FieldsStageKeeps(o.files, fields[1..], rpc, nuke, k);
      }
    }
  }

  /** Two field directories do not nest: a file listed in one lies in no
      other. */
  lemma DirsApart(k: string, a: string, b: string)
    requires Listed(k, FieldDir(a)) && StartsWith(k, FieldDir(b) + "/")
    requires '/' !in a && '/' !in b
    ensures a == b
  {
    FirstSlash(k, a);
    FirstSlash(k, b);
    assert a == k[6..6 + |a|] == b;
  }

  /** The first "/" after "field/" ends the field's name. */
  lemma FirstSlash(k: string, a: string)
    requires StartsWith(k, FieldDir(a) + "/") && '/' !in a
    ensures |FieldDir(a)| < |k| && k[6..6 + |a|] == a
    ensures Find(k[6..], '/') == Some(|a|)
  {
    var p := FieldDir(a) + "/";
    assert k[..|p|] == p;
    var s := k[6..];
    assert s[..|a|] == a;
    assert s[|a|] == '/';
    assert s[|a|] in s;
  }

  /** After the nuking field stages, each field's directory lists exactly
      the values fetched for it, when every stage ends well. */
  lemma {:induction false} FieldsStageExact(files: map<string, Json>, fields: seq<string>, rpc: (string, seq<Json>) -> Json,
                                            f: string, k: string)
    requires f in fields && forall g | g in fields :: '/' !in g
    requires Listed(k, FieldDir(f))
    requires FieldsStage(files, fields, rpc, true).result.Ok?
    ensures FieldIds(f, rpc).Ok?
    ensures k in FieldsStage(files, fields, rpc, true).files <==> FieldNames(f, FieldIds(f, rpc).value, k)
    decreases |fields|
  {
    var o := FieldStage(files, fields[0], rpc, true);
    assert o.result.Ok?;
    if f in fields[1..] {
      assert forall g | g in fields[1..] :: g in fields;
      FieldsStageExact(o.files, fields[1..], rpc, f, k);
    } else {
      assert fields[0] == f;
      FieldStageExact(files, f, rpc, k);
      assert FieldIds(f, rpc).Ok?;
      forall g | g in fields[1..] ensures !StartsWith(k, FieldDir(g) + "/") {
        assert g in fields;
        if StartsWith(k, FieldDir(g) + "/") {
          DirsApart(k, f, g);
        }
      }
      ListedVisible(k, FieldDir(f));
      FieldsStageKeeps(o.files, fields[1..], rpc, true, k);
    }
  }

  /** After the field stages that do not nuke, when every stage ends
      well, each field's directory lists what it listed before and the
      values fetched for it. */
  lemma {:induction false} FieldsStageAdds(files: map<string, Json>, fields: seq<string>, rpc: (string, seq<Json>) -> Json,
                                           f: string, k: string)
    requires f in fields && forall g | g in fields :: '/' !in g
    requires Listed(k, FieldDir(f))
    requires FieldsStage(files, fields, rpc, false).result.Ok?
    ensures FieldIds(f, rpc).Ok?
    ensures k in FieldsStage(files, fields, rpc, false).files <==> k in files || FieldNames(f, FieldIds(f, rpc).value, k)
    decreases |fields|
  {
    var o := FieldStage(files, fields[0], rpc, false);
    assert o.result.Ok?;
    ListedVisible(k, FieldDir(f));
    if fields[0] == f {
      LoopFiles(files, FieldLoop(f, FieldIds(f, rpc).value, rpc), JNull, k);
    } else {
      if StartsWith(k, FieldDir(fields[0]) + "/") {
        DirsApart(k, f, fields[0]);
      }
      FieldStageKeeps(files, fields[0], rpc, false, k);
    }
    assert forall g | g in fields[1..] :: g in fields;
    if f in fields[1..] {
      FieldsStageAdds(o.files, fields[1..], rpc, f, k);
    } else {
      forall g | g in fields[1..] ensures !StartsWith(k, FieldDir(g) + "/") {
        if StartsWith(k, FieldDir(g) + "/") {
          DirsApart(k, f, g);
        }
      }
      FieldsStageKeeps(o.files, fields[1..], rpc, false, k);
    }
  }

  /** The ticket stage leaves every visible file outside "ticket/" and
      "changelog/" as it was. */
  lemma TicketsStageKeeps(files: map<string, Json>, recent: Json, rpc: (string, seq<Json>) -> Json, k: string)
    requires !Hidden(k) && !StartsWith(k, "ticket/") && !StartsWith(k, "changelog/")
    ensures var s := TicketsStage(files, recent, rpc);
      (k in s.files <==> k in files) && (k in files ==> s.files[k] == files[k])
  {
    if TicketIds(recent, rpc).Ok? {
      var ids := TicketIds(recent, rpc).value;
      var tl, cl := TicketLoop(ids, rpc), ChangeLogLoop(ids, rpc);
      LoopOutsideDir(files, tl, recent, k);
      LoopOutsideDir(WriteAll(files, SyncRun(tl, recent).writes), cl, JNull, k);
    }
  }

  /** How the ticket stage ends well: both loops end well, one after the
      other. */
  lemma TicketsStageParts(files: map<string, Json>, recent: Json, rpc: (string, seq<Json>) -> Json)
    requires TicketsStage(files, recent, rpc).result.Ok?
    ensures TicketIds(recent, rpc).Ok?
    ensures var ids := TicketIds(recent, rpc).value;
      var tickets := SyncRun(TicketLoop(ids, rpc), recent);
      var logs := SyncRun(ChangeLogLoop(ids, rpc), JNull);
      tickets.result.Ok? && logs.result.Ok? &&
      TicketsStage(files, recent, rpc).files == WriteAll(WriteAll(files, tickets.writes), logs.writes)
  {
  }

  /** Two loops run one after the other, over directories with different
      first letters: a visible file of the first one's directory is there
      afterwards exactly when it was there before or is the file of one of
      the first loop's ids. */
  lemma FirstLoopFiles(files: map<string, Json>, a: Loop, ra: Json, b: Loop, rb: Json, k: string)
    requires a.Valid() && b.Valid() && !Hidden(k)
    requires SyncRun(a, ra).result.Ok?
    requires StartsWith(k, a.dir + "/") && b.dir != [] && a.dir != [] && a.dir[0] != b.dir[0]
    ensures k in WriteAll(WriteAll(files, SyncRun(a, ra).writes), SyncRun(b, rb).writes) <==>
      k in files || exists j | 0 <= j < |a.ids| :: FileName(a.dir, a.ids[j], a.quoted) == Ok(k)
  {
    var mid := WriteAll(files, SyncRun(a, ra).writes);
    var logs := SyncRun(b, rb).writes;
    PrefixesDiffer(k, a.dir + "/", b.dir + "/");
    SyncFromWrites(b, 0, rb, []);
    WritesInDir(b, logs, k);
    WriteAllUntouched(mid, logs, k);
    LoopFiles(files, a, ra, k);
  }

  /** The same for a visible file of the second loop's directory. */
  lemma SecondLoopFiles(files: map<string, Json>, a: Loop, ra: Json, b: Loop, rb: Json, k: string)
    requires a.Valid() && b.Valid() && !Hidden(k)
    requires SyncRun(b, rb).result.Ok?
    requires StartsWith(k, b.dir + "/") && b.dir != [] && a.dir != [] && a.dir[0] != b.dir[0]
    ensures k in WriteAll(WriteAll(files, SyncRun(a, ra).writes), SyncRun(b, rb).writes) <==>
      k in files || exists j | 0 <= j < |b.ids| :: FileName(b.dir, b.ids[j], b.quoted) == Ok(k)
  {
    var tickets := SyncRun(a, ra).writes;
    PrefixesDiffer(k, b.dir + "/", a.dir + "/");
    SyncFromWrites(a, 0, ra, []);
    WritesInDir(a, tickets, k);
    WriteAllUntouched(files, tickets, k);
    LoopFiles(WriteAll(files, tickets), b, rb, k);
  }

  /** When the ticket stage ends well, the ticket documents written are
      exactly those of the changed-ticket ids: a visible file under
      "ticket/" is there afterwards exactly when it was there before or is
      the file of one of the ids. */
  lemma TicketsStageTickets(files: map<string, Json>, recent: Json, rpc: (string, seq<Json>) -> Json, k: string)
    requires !Hidden(k) && StartsWith(k, "ticket/")
    requires TicketsStage(files, recent, rpc).result.Ok?
    ensures TicketIds(recent, rpc).Ok?
    ensures var ids := TicketIds(recent, rpc).value;
      k in TicketsStage(files, recent, rpc).files <==>
      k in files || exists j | 0 <= j < |ids| :: FileName("ticket", ids[j], false) == Ok(k)
  {
    TicketsStageParts(files, recent, rpc);
    var ids := TicketIds(recent, rpc).value;
    FirstLoopFiles(files, TicketLoop(ids, rpc), recent, ChangeLogLoop(ids, rpc), JNull, k);
  }

  /** Likewise for the changelog documents under "changelog/". */
  lemma TicketsStageChangeLogs(files: map<string, Json>, recent: Json, rpc: (string, seq<Json>) -> Json, k: string)
    requires !Hidden(k) && StartsWith(k, "changelog/")
    requires TicketsStage(files, recent, rpc).result.Ok?
    ensures TicketIds(recent, rpc).Ok?
    ensures var ids := TicketIds(recent, rpc).value;
      k in TicketsStage(files, recent, rpc).files <==>
      k in files || exists j | 0 <= j < |ids| :: FileName("changelog", ids[j], false) == Ok(k)
  {
    TicketsStageParts(files, recent, rpc);
    var ids := TicketIds(recent, rpc).value;
    SecondLoopFiles(files, TicketLoop(ids, rpc), recent, ChangeLogLoop(ids, rpc), JNull, k);
  }

  /** A loop leaves every visible file that is not the file of one of its
      ids as it was, however it ends. */
  lemma LoopUntouched(files: map<string, Json>, lp: Loop, recent: Json, k: string)
    requires lp.Valid() && !Hidden(k)
    requires forall j | 0 <= j < |lp.ids| :: FileName(lp.dir, lp.ids[j], lp.quoted) != Ok(k)
    ensures var f := WriteAll(files, SyncRun(lp, recent).writes);
      (k in f <==> k in files) && (k in files ==> f[k] == files[k])
  {
    LoopNames(lp, recent, k);
    WriteAllUntouched(files, SyncRun(lp, recent).writes, k);
  }

  /** The ticket stage leaves every visible file that is neither the
      ticket file nor the changelog file of a changed ticket as it was,
      however it ends. */
  lemma TicketsStageUntouched(files: map<string, Json>, recent: Json, rpc: (string, seq<Json>) -> Json, k: string)
    requires !Hidden(k) && TicketIds(recent, rpc).Ok?
    requires var ids := TicketIds(recent, rpc).value;
      forall j | 0 <= j < |ids| :: FileName("ticket", ids[j], false) != Ok(k) && FileName("changelog", ids[j], false) != Ok(k)
    ensures var s := TicketsStage(files, recent, rpc);
      (k in s.files <==> k in files) && (k in files ==> s.files[k] == files[k])
  {
    var ids := TicketIds(recent, rpc).value;
    var tl, cl := TicketLoop(ids, rpc), ChangeLogLoop(ids, rpc);
    LoopUntouched(files, tl, recent, k);
    LoopUntouched(WriteAll(files, SyncRun(tl, recent).writes), cl, JNull, k);
  }

  /** A loop that ends well adds exactly its ids' files to the visible
      ones. */
  lemma LoopFiles(files: map<string, Json>, lp: Loop, recent: Json, k: string)
    requires lp.Valid() && !Hidden(k) && SyncRun(lp, recent).result.Ok?
    ensures k in WriteAll(files, SyncRun(lp, recent).writes) <==>
      k in files || exists j | 0 <= j < |lp.ids| :: FileName(lp.dir, lp.ids[j], lp.quoted) == Ok(k)
  {
    WriteAllKeys(files, SyncRun(lp, recent).writes, k);
    LoopNames(lp, recent, k);
  }

  /** The ticket stage's new watermark: when it ends well it is the old
      one raised by every fetched ticket's `changed` time, in order; over
      ISO time strings it is never earlier than the old one or than any of
      them. */
  lemma TicketsStageWatermark(files: map<string, Json>, recent: Json, rpc: (string, seq<Json>) -> Json)
    requires TicketsStage(files, recent, rpc).result.Ok?
    ensures TicketIds(recent, rpc).Ok?
    ensures var tickets := SyncRun(TicketLoop(TicketIds(recent, rpc).value, rpc), recent);
      TicketsStage(files, recent, rpc).recent == Watermark(recent, Payloads(tickets.writes))
    ensures var tickets := SyncRun(TicketLoop(TicketIds(recent, rpc).value, rpc), recent);
      recent.JStr? && (forall d | d in Payloads(tickets.writes) :: TicketChanged(d).Ok? && TicketChanged(d).value.JStr?) ==>
      TicketsStage(files, recent, rpc).recent.JStr? &&
      !LexLess(TicketsStage(files, recent, rpc).recent.s, recent.s) &&
      forall d | d in Payloads(tickets.writes) :: !LexLess(TicketsStage(files, recent, rpc).recent.s, TicketChanged(d).value.s)
  {
    var tl := TicketLoop(TicketIds(recent, rpc).value, rpc);
    SyncFromWatermark(tl, 0, recent, []);
    var docs := Payloads(SyncRun(tl, recent).writes);
    if recent.JStr? && forall d | d in docs :: TicketChanged(d).Ok? && TicketChanged(d).value.JStr? {
      WatermarkLatest(recent.s, docs);
    }
  }

  /** A stage that does not nuke removes no visible file. */
  lemma StagesKeepVisible(files: map<string, Json>, t: Tracker, recent: Json, k: string)
    requires !Hidden(k) && k in files
    ensures k in ReportStage(files, t, false)
    ensures k in FieldsStage(files, FIELDS, t.rpc, false).files
    ensures k in TicketsStage(files, recent, t.rpc).files
  {
    ReportKeepsVisible(files, t, k);
    FieldsKeepVisible(files, FIELDS, t.rpc, k);
    TicketsKeepVisible(files, recent, t.rpc, k);
  }

  lemma ReportKeepsVisible(files: map<string, Json>, t: Tracker, k: string)
    requires !Hidden(k) && k in files
    ensures k in ReportStage(files, t, false)
  {
    WriteAllKeys(files, ReportWrites(ReportList(t.reportTab), t.reportSql), k);
  }

  lemma TicketsKeepVisible(files: map<string, Json>, recent: Json, rpc: (string, seq<Json>) -> Json, k: string)
    requires !Hidden(k) && k in files
    ensures k in TicketsStage(files, recent, rpc).files
  {
    if TicketIds(recent, rpc).Ok? {
      var ids := TicketIds(recent, rpc).value;
      var tickets := SyncRun(TicketLoop(ids, rpc), recent);
      WriteAllKeys(files, tickets.writes, k);
      WriteAllKeys(WriteAll(files, tickets.writes), SyncRun(ChangeLogLoop(ids, rpc), JNull).writes, k);
    }
  }

  lemma {:induction false} FieldsKeepVisible(files: map<string, Json>, fields: seq<string>, rpc: (string, seq<Json>) -> Json, k: string)
    requires !Hidden(k) && k in files
    ensures k in FieldsStage(files, fields, rpc, false).files
    decreases |fields|
  {
    if fields != [] {
      var o := FieldStage(files, fields[0], rpc, false);
      if FieldIds(fields[0], rpc).Ok? {
        WriteAllKeys(files, SyncRun(FieldLoop(fields[0], FieldIds(fields[0], rpc).value, rpc), JNull).writes, k);
      }
      if o.result.Ok? {
        FieldsKeepVisible(o.files, fields[1..], rpc, k);
      }
    }
  }
}
