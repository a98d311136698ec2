# offtrac: the snapshot sync and the reindexer, modelled in Dafny

offtrac keeps an offline copy of a Trac tracker in two steps.

**The snapshot sync** (`offtrac/dumptrac.py`) pulls the tracker into a git
checkout of JSON documents:
- the report listing and each report's SQL under `report/`;
- the values of the seven ticket fields under `field/<field>/`;
- every ticket changed since the stored watermark under `ticket/`, with its
  change log under `changelog/`;
- the watermark itself and a format version in `db.json`.

Before a pull, `DB.init` does the housekeeping:
- resets the checkout to HEAD, then removes the files that the "?? " lines
  of `git status -s` name (as written, it reads those lines from the
  command's error stream; see "## Findings");
- makes sure `.gitignore` ignores `*.db` (the model follows the corrected
  behaviour; see "## Findings");
- reads and checks the metadata;
- commits.

**The reindexer** (`offtrac/etl.py`) loads those documents into the SQLite
tables that `offtrac/model.py` declares. It works in one of two ways:
- incrementally, from the commit recorded in `offtrac_meta` (the files
  `git diff --name-status` reports are deleted, added or merged);
- from scratch, when no commit is recorded.

Either way it finishes by replacing `offtrac_meta` with the current HEAD and
the metadata items.

**The older revision** (the top-level `dumptrac.py`) differs in a few ways:
- its `upgrade` knows format version 1;
- `upgrade_0_1` migrates a version-0 snapshot: it normalises every document
  and computes the watermark from the tickets;
- its `pull` never removes documents;
- it reads the watermark with no default.

**Modules.** There is one module per file:

| module | covers |
|---|---|
| `Json` | the decoded values; the Python exceptions as a `Fault` datatype; the datetime wire form and its normaliser |
| `Text` | the Python string operations the code relies on |
| `Paths` | basename, dirname and join; UTF-8 encoding; `quote_plus`/`unquote_plus`; `url_safe_id`/`path_id` |
| `PyValue` | Python 2's mixed-type ordering and `max` |
| `CivilTime` | `strptime('%Y-%m-%dT%H:%M:%S')` and `calendar.timegm` |
| `Clock` | `iso8601_to_trac_time`/`new_bigtime` |
| `Remote` | `Trac.call`, `multicall`, `imulticall`, `report_list` |
| `Docs` | the document directories; the files as a map from path to document; `write_json`, `nuke`, the `*.json` glob |
| `Git` | commit, `reset --hard`, and the status/diff output parsers |
| `Ignore` | `.gitignore` handling |
| `Sync` | the stages of `pull` |
| `Snapshot` | `class DB` of `offtrac/dumptrac.py` |
| `Legacy` | `class DB` of the older revision |
| `Schema` | the tables, keys and column affinities of `model.py`; insert, merge and delete |
| `Etl` | the reindexer, with `class Index` |

**How the model handles the outside world:**
- A transaction is all or nothing: a fault leaves the tables as they were.
- The tracker's replies are total functions of the request, given as
  parameters.
- The git history, the index and the output of the git commands are values
  held by the `DB` class.
- The directory listing the glob reads is an input sequence, so its order
  is whatever the file system gives.

**Proved about the snapshot sync:**
- Normalising is the inverse of the datetime wire form, and it is
  idempotent.
- `multicall` puts every answer into its own call's slot, whatever order
  the server answers in.
- `imulticall` covers the calls in order, in batches of at most 100.
- The report listing reads back.
- File names round-trip through `url_safe_id`/`path_id`.
- After a pull, each nuked directory lists exactly the ids the tracker
  returned, and nothing outside the pulled directories and `db.json`
  changes.
- The new watermark is at least the old one and at least every fetched
  ticket's change time.
- As written, `cleanup` removes no untracked file, because it reads the
  error stream of `git status -s` (CleanupKeepsUntracked). The corrected
  `cleanup`, which reads stdout, restores HEAD's tree (CleanupRestoresHead).
- The version check passes only format 2 or a snapshot with no stored
  version.

**Proved about the older revision:**
- Its migration normalises every listed document.
- It computes the watermark.
- An upgraded snapshot stays put.
- Its pull never loses a document.

**Proved about the reindexer:**
- Every incremental statement does what it says. A deleted change log
  removes exactly that ticket's change rows, an added file inserts its rows
  and a modified one merges them.
- Change times within a log strictly increase, so a log's rows never share
  a key.
- Both reindexes leave `offtrac_meta` holding exactly HEAD and the metadata
  items.
- The next reindex is incremental exactly when HEAD is known.
- The `reindex` method's final tables are those of the specification.

As written, `lookup_class` resolves only paths of exactly two components,
so the incremental reindex passes over every changed field value
(`Etl.FieldChangesIgnored`). It also gives an enum row the type `''`:
`path_id` of `field/<type>` has no "." and so yields the empty string
(`Etl.FromDiskEnumType`). The model keeps both behaviours as the code has
them.

## Model

| member | source | states |
|---|---|---|
| Json.JsonDatetime | offtrac/dumptrac.py:81-82 | the wire form is an object whose only key is `__jsonclass__`, holding `["datetime", s]` |
| Json.NormalizeInPlace | offtrac/dumptrac.py:85-100 | the slot-by-slot rewriting loop returns what the recursive normaliser specifies |
| Json.NormalizeDatetime | offtrac/dumptrac.py:81-90 | round trip: normalising the wire form of any value gives the value back |
| Json.NormalizeFixesWrapperFree | offtrac/dumptrac.py:85-100 | a value with no wrapper at any depth is returned unchanged |
| Json.NormalizeRemovesWrappers | offtrac/dumptrac.py:85-100 | normalising succeeds with a wrapper-free result if and only if every outermost wrapper is well formed with a wrapper-free payload |
| Json.NormalizeIdempotent | offtrac/dumptrac.py:85-100 | a value whose wrappers are well formed normalises, and normalising the result again changes nothing |
| Json.NestedPayloadSurvives | offtrac/dumptrac.py:87-90 | only the outermost wrapper is removed: a wrapper inside a payload survives |
| Json.NormalizeKeepsShape | offtrac/dumptrac.py:91-99 | object keys, list lengths and the scalars outside wrappers are kept; each wrapper is replaced by its payload |
| Text.Partition | offtrac/dumptrac.py:126 | `str.partition`: reports whether the separator occurs; when it does, the text is head + separator + tail with no separator in the head; otherwise (text, "", "") |
| Text.RPartition | offtrac/dumptrac.py:132 | `str.rpartition`: the split is at the last separator; without one the result is ("", "", text) |
| Text.Split | offtrac/etl.py:140 | `str.split` on one character: the pieces hold no separator, rejoin to the text, and number one more than the separators |
| Text.SplitLines | offtrac/dumptrac.py:123 | `str.splitlines`: no line holds a line break, and only empty text has no lines |
| Text.SplitUnlines | offtrac/dumptrac.py:123 | newline-terminated lines split back into exactly those lines |
| Text.RStrip | offtrac/dumptrac.py:371 | `rstrip()` drops exactly the trailing whitespace |
| Text.LexTrichotomy | offtrac/dumptrac.py:406 | Python's string order is total: exactly one of a < b, a == b, b < a |
| Text.LexTransitive | offtrac/dumptrac.py:406 | the string order is transitive |
| Text.LexLessIrreflexive | offtrac/dumptrac.py:406 | no string is below itself |
| Text.StrMax | offtrac/dumptrac.py:406 | `max` of two strings is one of them and is below neither |
| Text.Decimal | offtrac/dumptrac.py:407 | `'%s' % n` for an integer is never empty; read back by `Text.DecimalRoundTrip` |
| Text.DecimalRoundTrip | offtrac/etl.py:114-115 | the decimal text of an integer reads back as that integer |
| Text.DecimalInjective | offtrac/dumptrac.py:407 | different integers print to different texts, hence to different file names |
| Paths.Basename | offtrac/dumptrac.py:131-132 | `os.path.basename`: a suffix of the path with no "/"; the whole path when it has no "/" |
| Paths.Dirname | offtrac/etl.py:156 | `os.path.dirname` of a path without "/" is empty |
| Paths.Join | offtrac/dumptrac.py:343-344 | `os.path.join` of two components ends with the second |
| Paths.TempPathHidden | offtrac/dumptrac.py:103-108 | the temporary file of `write_json` is named "." + basename, which no `*.json` glob lists, and differs from the target |
| Paths.Utf8Char | offtrac/dumptrac.py:116-118 | UTF-8 encodes a character in 1 to 4 bytes, one byte exactly for ASCII |
| Paths.AsciiUtf8 | offtrac/dumptrac.py:116-118 | the UTF-8 bytes of ASCII text are its characters |
| Paths.QuotePlus | offtrac/dumptrac.py:118 | `quote_plus` never yields "/" |
| Paths.UnquoteQuotePlus | offtrac/dumptrac.py:116-132 | round trip: `unquote_plus(quote_plus(bytes))` gives the bytes back |
| Paths.UrlSafeId | offtrac/dumptrac.py:116-118 | the escaped id holds no "/", so it names a single file |
| Paths.RPartitionJson | offtrac/dumptrac.py:132 | `q + ".json"` splits at its last "." into `q` and "json" |
| Paths.BasenameOfIdFile | offtrac/dumptrac.py:386-389 | the basename of the file written for an id is the escaped id + ".json" |
| Paths.PathIdOfIdFile | offtrac/dumptrac.py:116-132 | `path_id` of the file written for an id gives back the id's UTF-8 bytes |
| Paths.PathIdOfAsciiId | offtrac/dumptrac.py:116-132 | for an ASCII id, `path_id` of its file is the id itself |
| Paths.PathIdNoDot | offtrac/dumptrac.py:131-132 | a basename without "." gives the empty id |
| Paths.UnquotePlain | offtrac/dumptrac.py:132 | text without "%" or "+" is left alone by `unquote_plus` |
| Paths.Unquote | offtrac/dumptrac.py:132 | `unquote` never lengthens the text |
| Paths.PathIdOfPlainName | offtrac/dumptrac.py:131-132 | `path_id(dir/q.json)` is `q` when `q` holds no "/", "%" or "+" |
| Paths.DirnameOfChild | offtrac/etl.py:108 | `os.path.dirname` of `d/name` is `d` |
| Paths.PathIdOfFieldDir | offtrac/etl.py:156 | the directory of a field value is `field/<field>`, whose `path_id` is the empty string |
| PyValue.PyMax | offtrac/dumptrac.py:406 | `max(a, b)` is `b` exactly when a < b, else `a` |
| PyValue.PyLessIrreflexive | offtrac/dumptrac.py:406 | no value is below itself in Python 2's ordering |
| PyValue.PyMaxStrings | offtrac/dumptrac.py:406 | on strings the ordering is the lexicographic order and `max` is the string maximum |
| PyValue.PyLessNumbers | offtrac/dumptrac.py:337 | numbers compare by value, None is below every number, every number is below every string |
| PyValue.PyStr | offtrac/dumptrac.py:407 | `'%s' % v` is defined for scalars; a string prints as itself |
| PyValue.PyStrIntInjective | offtrac/dumptrac.py:407 | different ticket ids print to different names |
| CivilTime.ParseIso | offtrac/etl.py:68 | an accepted timestamp is a valid calendar date and time |
| CivilTime.ParseIsoFormat | offtrac/etl.py:68 | round trip: parsing a formatted valid timestamp gives it back |
| CivilTime.TimegmMonotone | offtrac/etl.py:68-69 | a later timestamp has a later epoch time, when the earlier second is at most 59 |
| CivilTime.LeapSecondCollides | offtrac/etl.py:68-69 | the accepted leap second 23:59:60 maps to the same epoch second as the next midnight |
| CivilTime.EpochExample | offtrac/etl.py:68-69 | 1970-01-01T00:00:00 is epoch second 0 |
| CivilTime.Y2kExample | offtrac/dumptrac.py:37 | the default watermark 2000-01-01T00:00:00 is epoch second 946684800 |
| Clock.TracTime | offtrac/etl.py:65-69 | falsy values pass through unchanged; a non-string fails with TypeError; a string converts exactly when it parses, to a whole number of milliseconds |
| Clock.Millis | offtrac/etl.py:69 | seconds times 1000 |
| Clock.TracTimeOfIso | offtrac/etl.py:65-69 | a formatted valid timestamp converts to its epoch seconds times 1000 |
| Clock.TracTimeMonotone | offtrac/etl.py:65-69 | a later timestamp converts to a strictly larger time |
| Clock.TracTimeOfParsed | offtrac/etl.py:65-69 | any accepted text converts to its epoch seconds times 1000 |
| Clock.TracTimeEpoch | offtrac/etl.py:65-69 | the epoch converts to 0 |
| Clock.TracTimeY2k | offtrac/etl.py:65-69 | 2000-01-01T00:00:00 converts to 946684800000 |
| Clock.NewBigtime | offtrac/etl.py:72-76 | conversion faults propagate; the first time is the converted one; a later time is above the previous one, either the converted time or the previous + 1 |
| Clock.NewBigtimeFirst | offtrac/etl.py:72-75 | with no previous time, the converted time is taken |
| Remote.Call | offtrac/dumptrac.py:196-200 | success only for a normalised object whose "error" is falsy, giving its "result"; a truthy error is ValueError, a non-object TypeError, a missing "error" KeyError, a malformed wrapper fails |
| Remote.CallEnvelope | offtrac/dumptrac.py:196-200 | a well-behaved reply carries its result through unchanged |
| Remote.Numbered | offtrac/dumptrac.py:208-209 | each call becomes an object with exactly "method", "params" and the id `1 + i` |
| Remote.Iterate | offtrac/dumptrac.py:211 | iterating a list gives its items, a string its characters, an empty dict nothing; anything else is TypeError |
| Remote.Slot | offtrac/dumptrac.py:212-214 | an answer is placed only when its error is falsy, into slot `id - 1` within the batch |
| Remote.Fill | offtrac/dumptrac.py:210-215 | filling the answers keeps the batch length |
| Remote.MulticallSpec | offtrac/dumptrac.py:207-215 | a successful multicall returns one result per call |
| Remote.Multicall | offtrac/dumptrac.py:207-215 | the array-filling loop returns what the specification gives |
| Remote.FillReplies | offtrac/dumptrac.py:210-215 | answers arriving in any order land in their own calls' slots; unanswered slots keep None |
| Remote.MulticallInCallOrder | offtrac/dumptrac.py:207-215 | when every call is answered, the results come back in call order whatever the server's order |
| Remote.MulticallErrorAnswer | offtrac/dumptrac.py:212-213 | an answer carrying an error fails the whole batch with ValueError |
| Remote.FillStopsAtError | offtrac/dumptrac.py:211-213 | filling stops at the first answer that cannot be placed, with its fault |
| Remote.Chunks | offtrac/dumptrac.py:203-204 | the batches are empty only for no calls |
| Remote.ChunksConcat | offtrac/dumptrac.py:202-205 | the batches concatenate to the calls, in order |
| Remote.ChunksSizes | offtrac/dumptrac.py:202-205 | every batch holds between 1 and `size` calls |
| Remote.ChunksCount | offtrac/dumptrac.py:202-205 | the number of batches is the call count divided by `size`, rounded up |
| Remote.RunBatches | offtrac/dumptrac.py:202-205 | running the batches yields one result per call |
| Remote.ImulticallSpec | offtrac/dumptrac.py:202-205 | a successful `imulticall` yields one result per call |
| Remote.Imulticall | offtrac/dumptrac.py:202-205 | the batch loop yields what the specification gives |
| Remote.ImulticallInCallOrder | offtrac/dumptrac.py:202-205 | when every batch answers in call order, `imulticall` yields all results in call order |
| Remote.ReportRows | offtrac/dumptrac.py:225-229 | at most one row per line, and no row's id holds a tab |
| Remote.ReportListRoundTrip | offtrac/dumptrac.py:223-229 | a listing of a header and `id<TAB>title` lines reads back as exactly those rows, in order |
| Remote.ReportRowsOfLines | offtrac/dumptrac.py:225-229 | each `id<TAB>title` line gives back its row |
| Remote.ReportRowsSkip | offtrac/dumptrac.py:227-228 | a line without a tab is skipped |
| Docs.DirsOfFields | offtrac/dumptrac.py:25-34 | the directories are report, ticket, changelog, then one per field in order, all distinct |
| Docs.TicketChanged | offtrac/dumptrac.py:111-113 | unpacking a four-item list (or four-character string) gives its third item; nothing else unpacks, and a scalar is TypeError |
| Docs.ListedVisible | offtrac/dumptrac.py:346-347 | a file the glob lists is not hidden |
| Docs.ListedOnce | offtrac/dumptrac.py:346-347 | a listed file belongs to one directory only |
| Docs.Glob | offtrac/dumptrac.py:346-347 | the glob gives exactly the listed files that are visible `.json` files directly inside the directory |
| Docs.Written | offtrac/dumptrac.py:103-108 | after `write_json` the file holds the document, the temporary file is gone, and every other file is unchanged |
| Docs.Nuked | offtrac/dumptrac.py:378-380 | `nuke` removes exactly the files the glob lists and keeps the rest unchanged |
| Docs.Disk.WriteJson | offtrac/dumptrac.py:103-108 | the files afterwards are those of `Written` |
| Docs.Disk.Nuke | offtrac/dumptrac.py:378-380 | the removal loop leaves the files of `Nuked` |
| Docs.WriteAllUntouched | offtrac/dumptrac.py:103-108 | a visible file that no write names keeps its presence and contents |
| Docs.WriteAllLast | offtrac/dumptrac.py:103-108 | a file holds the document of the last write naming it |
| Docs.WriteAllKeys | offtrac/dumptrac.py:103-108 | after a run of writes, a visible file exists if and only if it existed or some write named it |
| Docs.NukeThenWrite | offtrac/dumptrac.py:385-389 | after nuking a directory and writing, a listed file exists if and only if some write named it |
| Git.Committed | offtrac/dumptrac.py:286-294 | a commit adds the staged tree as HEAD, unless it already is HEAD ("nothing to commit" is ignored) |
| Git.CommitIdempotent | offtrac/dumptrac.py:289-294 | committing the same tree twice adds one commit at most |
| Git.ResetHard | offtrac/dumptrac.py:297-301 | `reset --hard` restores HEAD's files and keeps only untracked extras |
| Git.UntrackedPaths | offtrac/dumptrac.py:303-305 | at most one path per status line |
| Git.UntrackedRoundTrip | offtrac/dumptrac.py:303-305 | the untracked paths git reports are read back exactly, in order |
| Git.UntrackedOfStatusLines | offtrac/dumptrac.py:303-305 | every `?? path` line gives its path |
| Git.DiffEntry | offtrac/dumptrac.py:124-127 | a line gives at most one entry, whose mode field holds no tab |
| Git.DiffEntries | offtrac/dumptrac.py:121-128 | at most one entry per line |
| Git.ParseGitStatus | offtrac/dumptrac.py:121-128 | the loop returns the entries of the output's lines |
| Git.DiffEntriesAppend | offtrac/dumptrac.py:121-128 | parsing distributes over concatenated output |
| Git.DiffRoundTrip | offtrac/dumptrac.py:121-128 | `git diff --name-status` output for `.json` paths reads back as exactly its entries, in order |
| Git.DiffOfLines | offtrac/dumptrac.py:121-128 | each `modes<TAB>path.json` line gives its entry |
| Git.DiffSkips | offtrac/dumptrac.py:124-125 | a line not ending in ".json" is skipped |
| Ignore.GitignoreAsWritten | offtrac/dumptrac.py:307-320 | only appends, and what it appends is exactly "*.db\n"; a file that ends with a line break and already ignores `*.db` comes back unchanged; the result ignores `*.db` when the old file was missing or ended with a line break |
| Ignore.GitignoreJoinsLines | offtrac/dumptrac.py:307-320 | counterexample: a file "*.db" without a final newline already ignores `*.db`, yet the append gives "*.db*.db\n", which no longer does |
| Ignore.GitignoreFixed | offtrac/dumptrac.py:307-320 | the result always ignores `*.db`, is unchanged when it already did, only appends, and keeps every old pattern |
| Ignore.FileLineIsGitLine | offtrac/dumptrac.py:312-313 | a line the Python loop reads, without its newline, is a line git reads |
| Ignore.ChompedLines | offtrac/dumptrac.py:312-313 | a non-empty pattern is a line the Python loop reads if and only if git reads it |
| Ignore.AppendAfterLine | offtrac/dumptrac.py:318-320 | appending after a final newline adds the pattern as a line and keeps the others |
| Ignore.AppendAfterPartial | offtrac/dumptrac.py:318-320 | appending after a line break of its own adds the pattern and keeps every line |
| Sync.FileName | offtrac/dumptrac.py:394-411 | a file name is formed for any scalar id; a list or dict id fails |
| Sync.FileNameShape | offtrac/dumptrac.py:394-411 | the name is `dir/<id>.json`, escaped by `url_safe_id` for fields and reports, by `'%s'` for tickets and change logs |
| Sync.Calls | offtrac/dumptrac.py:242-255 | one call per id |
| Sync.BatchEnd | offtrac/dumptrac.py:203-204 | the batch sent at an id ends after it, at most 100 ids later |
| Sync.SyncFromWrites | offtrac/dumptrac.py:394-411 | the loop writes at most one file per id, to the id's file name, in order, and ends well only after writing every id; the fetched answers come first |
| Sync.SyncFromAnswers | offtrac/dumptrac.py:245-249 | fetching the next batch only when the answers run out: a failed fetch fails the loop; otherwise the writes follow the answers in order and the loop ends well exactly when every answer can be written |
| Sync.SyncFromCons | offtrac/dumptrac.py:405-408 | one step: read the change time (tickets only), raise the watermark, form the name, write, continue |
| Sync.SyncRunAnswers | offtrac/dumptrac.py:245-255 | the loop writes the `imulticall` answers in order and ends well exactly when every id and answer can be written |
| Sync.SyncFromWatermark | offtrac/dumptrac.py:404-406 | only the ticket loop moves the watermark, to the running maximum of the written tickets' change times |
| Sync.WatermarkLatest | offtrac/dumptrac.py:404-406 | the watermark is at least the old one and at least every change time |
| Sync.Refill | offtrac/dumptrac.py:202-205 | the next batch is fetched only when the answers run out, without changing what the loop does |
| Sync.WriteNext | offtrac/dumptrac.py:405-408 | writes the next document as the loop's specification says, or fails with the files unchanged |
| Sync.SyncDocs | offtrac/dumptrac.py:394-411 | the write loop leaves the files, watermark and outcome of the specification |
| Sync.ReportDoc | offtrac/dumptrac.py:260 | a report document has exactly "title" and "sql" |
| Sync.ReportWrites | offtrac/dumptrac.py:387-389 | one write per listed report |
| Sync.ReportStageExact | offtrac/dumptrac.py:385-389 | after nuking, the report directory lists exactly the reports of the listing |
| Sync.ReportStageContent | offtrac/dumptrac.py:385-389 | each written report file holds its title and SQL text |
| Sync.ReportNames | offtrac/dumptrac.py:387-389 | the report files written are exactly those named by the listing |
| Sync.ReportStageKeeps | offtrac/dumptrac.py:385-389 | a visible file outside `report/` is untouched |
| Sync.PullReports | offtrac/dumptrac.py:383-389 | the report loop leaves the files of the report stage |
| Sync.PullField | offtrac/dumptrac.py:393-399 | the field loop leaves the files and outcome of one field's stage |
| Sync.PullFields | offtrac/dumptrac.py:391-399 | the loop over the seven fields leaves the files and outcome of the fields' stages |
| Sync.PullTickets | offtrac/dumptrac.py:401-412 | the ticket and change-log loops leave the files, watermark and outcome of the ticket stage |
| Sync.FieldStageExact | offtrac/dumptrac.py:393-399 | after nuking, a field's directory lists only values just fetched, and all of them when the stage ends well |
| Sync.FieldStageKeeps | offtrac/dumptrac.py:393-399 | a visible file outside the field's directory is untouched |
| Sync.FieldsStageKeeps | offtrac/dumptrac.py:391-399 | a visible file outside every field directory is untouched by all field stages |
| Sync.FieldsStageExact | offtrac/dumptrac.py:391-399 | after all field stages end well, each field directory lists exactly its fetched values |
| Sync.FieldsStageAdds | dumptrac.py:290-299 | without nuking, a field directory lists its old files plus the fetched values |
| Sync.TicketsStageKeeps | offtrac/dumptrac.py:401-412 | a visible file outside `ticket/` and `changelog/` is untouched |
| Sync.TicketsStageParts | offtrac/dumptrac.py:401-412 | a successful ticket stage writes the tickets and then the change logs of the same ids |
| Sync.TicketsStageTickets | offtrac/dumptrac.py:405-408 | afterwards a ticket file exists if and only if it existed or its id changed |
| Sync.TicketsStageChangeLogs | offtrac/dumptrac.py:410-412 | afterwards a change-log file exists if and only if it existed or its id changed |
| Sync.TicketsStageUntouched | offtrac/dumptrac.py:401-412 | a file no changed id names is untouched |
| Sync.TicketsStageWatermark | offtrac/dumptrac.py:401-406 | the new watermark is the maximum of the old one and every fetched ticket's change time |
| Sync.StagesKeepVisible | dumptrac.py:284-311 | the stages of the non-nuking pull never remove a visible file |
| Sync.FieldsKeepVisible | dumptrac.py:290-299 | the non-nuking field stages never remove a visible file |
| Sync.ReportKeepsVisible | dumptrac.py:284-289 | the non-nuking report stage never removes a visible file |
| Sync.TicketsKeepVisible | dumptrac.py:300-311 | the ticket stage never removes a visible file |
| Snapshot.Recent | offtrac/dumptrac.py:363-365 | reading the watermark succeeds exactly on a dict, stored or not; otherwise AttributeError |
| Snapshot.UpgradeStates | offtrac/dumptrac.py:332-341 | no version or version 2 passes; an older number or None is DBError; a newer number or a string fails the assertion; non-dict metadata is AttributeError |
| Snapshot.CleanupKeepsUntracked | offtrac/dumptrac.py:296-305 | as written, `cleanup` filters the error stream of `git status -s`, which holds no "?? " line: nothing is removed, every untracked file stays, and the tree differs from HEAD's |
| Snapshot.CleanupRestoresHead | offtrac/dumptrac.py:296-305 | corrected: filtering the report `git status -s` prints on stdout, which lists exactly the untracked files, leaves exactly HEAD's tree |
| Snapshot.RemoveUntracked | offtrac/dumptrac.py:302-305 | removing exactly the untracked paths, once each, gives HEAD's tree |
| Snapshot.RestParts | offtrac/dumptrac.py:401-414 | a pull ends well only with the watermark readable, the ticket stage ending well, and the metadata with the new watermark written |
| Snapshot.RestKeeps | offtrac/dumptrac.py:400-414 | the rest of a pull leaves files outside `ticket/`, `changelog/` and `db.json` untouched |
| Snapshot.ReportsAfterFields | offtrac/dumptrac.py:383-399 | after the report and field stages, the report directory lists exactly the listed reports, each with its title and SQL |
| Snapshot.PullReportDir | offtrac/dumptrac.py:382-416 | after a pull, the report directory lists exactly the listed reports |
| Snapshot.PullReportContent | offtrac/dumptrac.py:385-389 | after a pull, each report file holds its title and SQL text |
| Snapshot.PullFieldDir | offtrac/dumptrac.py:391-399 | after a pull, each field directory lists exactly the fetched values |
| Snapshot.FieldsDoneKeeps | offtrac/dumptrac.py:383-399 | files outside `report/` and `field/` reach the ticket stage as they were |
| Snapshot.PullTicketFiles | offtrac/dumptrac.py:401-408 | after a pull, a ticket file exists if and only if it existed or its id changed since the stored watermark |
| Snapshot.PullChangeLogFiles | offtrac/dumptrac.py:409-412 | after a pull, a change-log file exists if and only if it existed or its id changed |
| Snapshot.PullUntouched | offtrac/dumptrac.py:382-416 | a file outside the pulled directories and not named by a changed id is untouched |
| Snapshot.RestMetadata | offtrac/dumptrac.py:413-414 | the written metadata keeps every item and sets "recent" |
| Snapshot.RestWatermark | offtrac/dumptrac.py:404-413 | the stored "recent" is the maximum of the old watermark and the change times |
| Snapshot.PullMetadata | offtrac/dumptrac.py:413-414 | after a pull, `db.json` holds the old metadata with "recent" set |
| Snapshot.PullWatermark | offtrac/dumptrac.py:401-413 | after a pull, "recent" is at least the old watermark and every fetched ticket's change time |
| Snapshot.DB.constructor | offtrac/dumptrac.py:264-267 | empty metadata and no cached HEAD |
| Snapshot.DB.GitHead | offtrac/dumptrac.py:367-372 | HEAD's id without trailing whitespace; ProcessError when there is no commit |
| Snapshot.DB.Checkpoint | offtrac/dumptrac.py:286-294 | stages the working tree, drops the cached HEAD, and commits it with the watermark as message, unless that is HEAD already |
| Snapshot.DB.Cleanup | offtrac/dumptrac.py:296-305 | resets to HEAD, then removes the path of each "?? " line of the given error stream of `git status -s`, stopping at the first that cannot be removed |
| Snapshot.DB.Remove | offtrac/dumptrac.py:303-305 | removing one untracked file either succeeds and the rest of the removals go on from the new tree, or fails with OSError and leaves the tree as it was |
| Snapshot.DB.Gitignore | offtrac/dumptrac.py:307-320 | corrected behaviour (see "## Findings"): `.gitignore` becomes `Ignore.GitignoreFixed` of the old file, which ignores `*.db` |
| Snapshot.DB.ReadMetadata | offtrac/dumptrac.py:322-327 | the metadata is `db.json` when present, else unchanged |
| Snapshot.DB.WriteMetadata | offtrac/dumptrac.py:329-330 | `db.json` holds the metadata |
| Snapshot.DB.Upgrade | offtrac/dumptrac.py:332-341 | the outcome is the version check's |
| Snapshot.DB.Init | offtrac/dumptrac.py:269-278 | the outcome is cleanup's, then the version check of the loaded metadata; on success the files are cleanup's result, `.gitignore` is the corrected one (so `*.db` is ignored only because the model uses the corrected `gitignore`), the metadata is "db.json" when present, and the history gains a commit of the tree unless HEAD already records it |
| Snapshot.DB.PullStages | offtrac/dumptrac.py:382-414 | the stages leave the files, metadata and outcome of the pull's specification |
| Snapshot.DB.PullRest | offtrac/dumptrac.py:400-414 | the ticket stage and metadata write as specified |
| Snapshot.DB.Pull | offtrac/dumptrac.py:382-416 | the files, metadata and outcome of the specification; on success a commit of the new state; on failure no commit |
| Legacy.Recent | dumptrac.py:280-282 | the watermark must be stored: KeyError without it, TypeError on non-dict metadata |
| Legacy.RecentRevisions | dumptrac.py:280-282 | the revisions agree when a watermark is stored; without one only the later revision falls back to MIN_RECENT |
| Legacy.StoredVersion | dumptrac.py:243 | reading the version succeeds exactly on a dict |
| Legacy.UpgradeStates | dumptrac.py:241-249 | version 1 or none passes; version 0 migrates, storing version 1 and writing `db.json`; any other number fails the assertion; non-dict metadata is AttributeError |
| Legacy.UpgradeSettles | dumptrac.py:241-249 | upgrading an upgraded snapshot changes nothing |
| Legacy.RewriteFilesKeeps | dumptrac.py:255-260 | migrating a directory leaves every unlisted visible file untouched |
| Legacy.RewriteFilesNormalizes | dumptrac.py:256-260 | each listed file is rewritten to its normalised document |
| Legacy.RewriteFilesWatermark | dumptrac.py:256-260 | the ticket directory's watermark is the running maximum over its rewritten documents |
| Legacy.GlobNoDuplicates | dumptrac.py:267-268 | the glob lists each file once |
| Legacy.RewriteDirsKeeps | dumptrac.py:255-260 | files outside the migrated directories are untouched |
| Legacy.RewriteDirsNormalizes | dumptrac.py:255-260 | every listed document of every directory is normalised |
| Legacy.DirsDistinct | dumptrac.py:34 | the document directories are distinct |
| Legacy.RewriteDirsWatermark | dumptrac.py:254-259 | the watermark comes from the ticket directory only |
| Legacy.MigrateNormalizes | dumptrac.py:251-262 | `upgrade_0_1` normalises every listed document |
| Legacy.MigrateKeeps | dumptrac.py:251-262 | `upgrade_0_1` leaves files outside the directories untouched |
| Legacy.MigrateMetadata | dumptrac.py:251-262 | the metadata gains "recent" (from MIN_RECENT and the tickets) and version 1, keeping every other item |
| Legacy.MigrateLatest | dumptrac.py:254-261 | the computed watermark is at least MIN_RECENT and every ticket's change time |
| Legacy.ContentsLatest | dumptrac.py:258-259 | the running maximum is at least every document's change time |
| Legacy.PullNeedsWatermark | dumptrac.py:280-301 | the pull ends well only with a watermark; without one it fails after the report and field stages |
| Legacy.PullKeepsDocuments | dumptrac.py:284-311 | the pull never removes a visible file |
| Legacy.PullReportFiles | dumptrac.py:285-289 | a report file exists afterwards if and only if it existed or is listed |
| Legacy.PullReportContent | dumptrac.py:286-289 | each listed report file holds its title and SQL text |
| Legacy.PullFieldFiles | dumptrac.py:290-299 | a field file exists afterwards if and only if it existed or its value was fetched |
| Legacy.PullParts | dumptrac.py:284-313 | a successful pull is the later revision's pull without nuking |
| Legacy.PullTicketFiles | dumptrac.py:300-307 | a ticket file exists afterwards if and only if it existed or its id changed |
| Legacy.PullChangeLogFiles | dumptrac.py:308-311 | a change-log file exists afterwards if and only if it existed or its id changed |
| Legacy.PullMetadata | dumptrac.py:312-313 | `db.json` holds the metadata with the same items and "recent" updated |
| Legacy.PullWatermark | dumptrac.py:300-313 | "recent" is at least the old watermark and every fetched ticket's change time |
| Legacy.DB.constructor | dumptrac.py:220-222 | empty metadata |
| Legacy.DB.ReadMetadata | dumptrac.py:231-236 | the metadata is `db.json` when present, else unchanged |
| Legacy.DB.WriteMetadata | dumptrac.py:238-239 | `db.json` holds the metadata |
| Legacy.DB.Upgrade01 | dumptrac.py:251-262 | the directory loops leave the files, metadata and outcome of the migration |
| Legacy.DB.Upgrade | dumptrac.py:241-249 | the loop leaves the state of the upgrade's specification |
| Legacy.DB.UpgradeStep | dumptrac.py:243-249 | one pass of the loop: migrate from 0 or fail the assertion; on success version 1 is stored |
| Legacy.DB.Init | dumptrac.py:224-229 | the metadata is loaded, then upgraded as specified |
| Legacy.DB.Pull | dumptrac.py:284-314 | the files, metadata and outcome of the non-nuking pull |
| Legacy.DB.PullRest | dumptrac.py:300-313 | the ticket stage and metadata write as specified |
| Schema.TableOf | offtrac/etl.py:46 | the table named `name`, if any |
| Schema.PrimaryKey | offtrac/model.py:13-133 | each table's primary key is non-empty, drawn from its columns, and starts with its first column |
| Schema.Affinity | offtrac/model.py:43-133 | NULL stays NULL; an INTEGER column keeps integers and reads integer text as integers; a TEXT column stores integers as decimal text |
| Schema.AffinityIdempotent | offtrac/model.py:43-133 | storing a stored value again changes nothing |
| Schema.Construct | offtrac/etl.py:179 | `cls(**data)` accepts exactly a dict of known columns; otherwise TypeError |
| Schema.Stored | offtrac/model.py:43-133 | the stored row has the same columns, each after affinity |
| Schema.KeyOf | offtrac/model.py:84-91 | the key is the primary-key values in order; a NULL key column, or a non-integer rowid, is IntegrityError |
| Schema.Prepare | offtrac/etl.py:118-122 | a row can be flushed exactly when its values are bindable and its key is valid |
| Schema.Insert | offtrac/etl.py:118-119 | an insert adds the stored row under a new key and fails on a duplicate key |
| Schema.Merge | offtrac/etl.py:121-122 | a merge overlays the row's columns on the existing row, or inserts it, and changes no other row |
| Schema.DeleteWhere | offtrac/etl.py:110-115 | a filtered delete removes exactly the matching rows of the table |
| Schema.Clear | offtrac/etl.py:123 | removes every row of one table |
| Schema.ClearAll | offtrac/etl.py:130-131 | removes every row of the listed tables |
| Schema.ClearModelEmpties | offtrac/etl.py:130-131 | clearing every model table empties the database |
| Schema.InsertAllAdds | offtrac/etl.py:118-119 | a successful `add_all` adds rows under fresh keys: the result is the old rows plus the new |
| Schema.MergeAllKeeps | offtrac/etl.py:121-122 | merging never removes a row |
| Schema.MergeAllKeepsColumns | offtrac/etl.py:121-122 | merging never removes a column of a row |
| Schema.MergeAllUntouched | offtrac/etl.py:121-122 | a row no merged object names is unchanged |
| Schema.MergeAllStores | offtrac/etl.py:121-122 | every merged column is stored |
| Schema.MergeOfAbsentIsInsert | offtrac/etl.py:118-122 | merging a new key is inserting it |
| Etl.LookupClass | offtrac/etl.py:139-150 | only a path of exactly two components resolves to a table |
| Etl.LookupDocument | offtrac/etl.py:139-150 | `ticket/x`, `changelog/x` and `report/x` resolve to their tables |
| Etl.LookupFieldValue | offtrac/etl.py:140-147 | a field value's path `field/<field>/<name>` has three components and resolves to nothing |
| Etl.LookupTopLevel | offtrac/etl.py:140-142 | a top-level file resolves to nothing |
| Etl.ChangesFrom | offtrac/etl.py:181-191 | one change row per entry, all in `ticket_change` |
| Etl.ChangeRows | offtrac/etl.py:181-191 | a list change log gives one row per entry; an empty string or dictionary gives no rows; any other string or dictionary is a ValueError and any other value a TypeError |
| Etl.StringEntryFails | offtrac/etl.py:183-184 | a string entry fails the log with ValueError, and literally unpacking a six-character one fails the same way, at its one-character timestamp |
| Etl.StringLogFails | offtrac/etl.py:183 | a string change log ends exactly as iterating its characters as entries does |
| Etl.KeyLogFails | offtrac/etl.py:183 | a dictionary change log ends exactly as iterating its keys as entries does, in any order |
| Etl.StringTicketFails | offtrac/etl.py:165-169 | a string ticket document is a ValueError, as literal unpacking gives: wrong length, or a one-character creation time |
| Clock.OneCharNoTime | offtrac/etl.py:65-76 | a one-character string converts, and moves the change clock, only to a ValueError |
| Etl.TicketChanges | offtrac/etl.py:181-191 | the loop threading the change clock yields the specified rows |
| Etl.ChangeRowsInOrder | offtrac/etl.py:183-191 | row `i` is entry `i` unpacked into its six values and stamped |
| Etl.BigtimeAdvances | offtrac/etl.py:72-76 | the change clock strictly advances |
| Etl.ChangeTimesIncrease | offtrac/etl.py:182-187 | the stamps of a log's rows strictly increase, above the starting clock |
| Etl.ChangeTimesParse | offtrac/etl.py:183-184 | a log whose entries all carry parseable times converts, with integer stamps |
| Etl.BigtimeOfParsed | offtrac/etl.py:72-76 | a parseable time advances the clock to an integer |
| Etl.ChangeKeyTime | offtrac/model.py:84-91 | a change row's key is (ticket, time, field), with the stamp in second place |
| Etl.ChangelogKeysDistinct | offtrac/etl.py:181-191 | no two rows of one change log share a primary key |
| Etl.MilestoneData | offtrac/etl.py:159-163 | due and completed converted, every other column kept; KeyError or TypeError when they cannot be read |
| Etl.TicketData | offtrac/etl.py:164-169 | the four values unpacked into the properties plus id, time and changetime; a string or dictionary document, or a list of another length, is a ValueError, and None, a bool or a number a TypeError |
| Etl.ReportData | offtrac/etl.py:172-178 | id from the path, title, query from "sql", empty author and description; KeyError or TypeError otherwise |
| Etl.FromDisk | offtrac/etl.py:152-179 | IOError for a missing file; change logs become their change rows; any other file is one row of the table's data |
| Etl.LoadRows | offtrac/etl.py:152-179 | loading gives what `from_disk` specifies |
| Etl.FromDiskAll | offtrac/etl.py:152-179 | `from_disk` over several files gives rows of the one table only |
| Etl.DirDocs | offtrac/dumptrac.py:353-357 | `iter_jsondir` visits exactly the listed documents of the directory |
| Etl.FieldDocs | offtrac/etl.py:203-212 | one row per document of a field table |
| Etl.OrmifyFields | offtrac/etl.py:203-212 | rows only of the field tables |
| Etl.EnumDocs | offtrac/etl.py:198-201 | each document becomes the enum row with its type, its `path_id` and its value |
| Etl.OrmifyEnum | offtrac/etl.py:198-201 | rows only of `enum` |
| Etl.TicketDocs | offtrac/etl.py:214-221 | one ticket row per document |
| Etl.ReportDocs | offtrac/etl.py:228-235 | one report row per document |
| Etl.ChangelogDocs | offtrac/etl.py:223-226 | rows only of `ticket_change` |
| Etl.FieldDocsAgree | offtrac/etl.py:203-212 | `ormify_fields` builds the rows `from_disk` builds |
| Etl.TicketDocsAgree | offtrac/etl.py:214-221 | `ormify_ticket` builds the rows `from_disk` builds |
| Etl.ReportDocsAgree | offtrac/etl.py:228-235 | `ormify_report` builds the rows `from_disk` builds |
| Etl.ChangelogDocsAgree | offtrac/etl.py:223-226 | `ormify_changelog` builds the rows `from_disk` builds |
| Etl.FromDiskEnumType | offtrac/etl.py:154-158 | an enum value loaded from `field/<type>/<name>` gets the empty type |
| Etl.MetaObjs | offtrac/etl.py:195-196 | rows only of `offtrac_meta` |
| Etl.OrmifyOfftracMeta | offtrac/etl.py:193-196 | the first row is git_head with HEAD's id; all rows are `offtrac_meta` |
| Etl.FullRows | offtrac/etl.py:130-136 | the full reindex's document rows include no `offtrac_meta` row |
| Etl.AddAll | offtrac/etl.py:118-119 | the `add_all` loop equals the specified insert |
| Etl.MergeEach | offtrac/etl.py:121-122 | the merge loop equals the specified merge |
| Etl.ApplyOne | offtrac/etl.py:103-122 | one changed file is applied as specified |
| Etl.ClearTables | offtrac/etl.py:130-131 | the delete loop equals clearing the tables |
| Etl.ChangelogPath | offtrac/etl.py:148-149 | `changelog/q.json` resolves to `ticket_change` with id `q` |
| Etl.TicketMatches | offtrac/etl.py:114-115 | the filter on the ticket column matches exactly the rows of that ticket number |
| Etl.DeleteTicketRows | offtrac/etl.py:114-115 | the delete removes exactly the rows of that ticket number |
| Etl.DeleteChangelog | offtrac/etl.py:106-115 | a deleted change log issues a delete by ticket |
| Etl.ChangelogDelete | offtrac/etl.py:106-115 | deleting `changelog/<n>.json` removes exactly ticket n's change rows and nothing else |
| Etl.AddChange | offtrac/etl.py:117-119 | an added file inserts its rows under fresh keys: the tables become old rows plus new |
| Etl.MergeChange | offtrac/etl.py:120-122 | a modified file's rows are stored column by column; other rows are unchanged and no row is lost |
| Etl.FieldChangesIgnored | offtrac/etl.py:102-105 | changes that touch only field values leave the tables unchanged |
| Etl.FullFromScratch | offtrac/etl.py:126-137 | a full reindex does not depend on the old tables |
| Etl.MetaStored | offtrac/model.py:13-15 | a metadata row stores exactly key and value |
| Etl.MetaPrepare | offtrac/etl.py:193-196 | a scalar item flushes under its key; a list or dict item cannot be bound (InterfaceError) |
| Etl.MetaRowsKeys | offtrac/etl.py:195-196 | the item rows are stored under their own keys only |
| Etl.MetaRowsOf | offtrac/etl.py:195-196 | each item is stored under its key as its scalar value |
| Etl.MetaInserted | offtrac/etl.py:193-196 | into tables with no meta rows, git_head and every item are inserted and the other rows kept |
| Etl.ReindexReplacesMeta | offtrac/etl.py:86-137 | after either reindex `offtrac_meta` holds exactly HEAD under git_head and every metadata item |
| Etl.IncrementalReplacesMeta | offtrac/etl.py:98-124 | after an incremental reindex that ends well `offtrac_meta` holds exactly HEAD under git_head and every metadata item |
| Etl.FullReplacesMeta | offtrac/etl.py:126-137 | after a full reindex that ends well `offtrac_meta` holds exactly HEAD under git_head and every metadata item |
| Etl.NextReindexIncremental | offtrac/etl.py:86-96 | the next reindex is incremental from HEAD exactly when HEAD's id is non-empty |
| Etl.Index.constructor | offtrac/etl.py:82-84 | the reindexer holds the snapshot and the tables |
| Etl.Index.FullReindex | offtrac/etl.py:126-137 | the tables become the full reindex's result on success and stay as they were on failure |
| Etl.Index.IncrementalReindex | offtrac/etl.py:98-124 | the change loop and meta replacement give the incremental specification's tables on success and stay as they were on failure |
| Etl.Index.Reindex | offtrac/etl.py:86-96 | incremental when a truthy git_head is stored, full otherwise, with the transaction's outcome |

## Left out

- HTTP, authentication, keychain lookup and retries (`get_http_connection`, `http_request`, `keychain_auth`): the tracker is a function from request to decoded reply.
- The git subprocesses themselves: git's state is held as values; the output of `git diff --name-status` is the `diffOf` parameter of the reindexer, and the error stream of `git status -s` is the parameter of `cleanup` and `init`.
- `os.makedirs` in `init`: directories are implicit in the paths of the file map.
- The order in which `glob` lists files is an input sequence, not a sorted order.
- The older `read_metadata` opens `db.json` relative to the working directory, not the root; the model reads it at the snapshot root.
- Progress output (`print`) and the JSON text layout of `write_json` (indentation, key order, separators): documents are values.
- SQLAlchemy internals:
  - flush ordering and the identity map are not modelled;
  - autoflush is modelled as statements applied in order;
  - the order decides only which fault is reported when several rows are bad.
- `offtrac/static/offtrac.js`, `offtrac/wsgi.py` and the migration scripts under `dbrepo/` are not part of this model.
- TicketChanged: a dictionary of exactly four keys unpacks in Python into its keys, in hash order, and the third key is returned; the model reports ValueError for every dictionary, because it does not fix the key order.
- TicketData: `dict(props, …)` also accepts a list of key/value pairs as `props`; the model accepts only a dictionary and reports TypeError otherwise. A ticket document that is a dictionary of exactly four keys unpacks in Python into its keys, in hash order, and its creation time is then one of the keys; the model reports ValueError for every dictionary document, because it does not fix the key order.
- Iterate: Python iterates a non-empty dictionary over its keys, in hash order; the model reports TypeError for one, so `Sync.FieldIds` and `Sync.TicketIds` fail on a dictionary reply. The tracker answers both calls with lists.
- ChangesFrom: a change-log entry that is a dictionary of exactly six keys unpacks in Python into its keys, in hash order, and its timestamp is then one of the keys; the model reports ValueError for every dictionary entry, because it does not fix the key order. The sync writes the tracker's lists there.
- PyLess: Python 2 orders two dictionaries of the same size by their smallest differing key and its value; the model leaves them unordered. `max` on the watermark (PyMax) and the clock comparison in NewBigtime inherit this. They compare only change times: the timestamp strings the tracker sends, and integer clock values.
- PyStr: Python formats a list or dictionary with `repr`; the model has no text for them (None), because key order and `repr`'s escaping are not modelled.
- FileName: follows from PyStr: a list or dictionary id gets no file name (TypeError), where Python would write a file named after its `repr`. Ticket and field ids are numbers or strings.
- Unwrap and Normalize: the AssertionError, KeyError, IndexError and TypeError that a malformed `__jsonclass__` wrapper raises are one fault, MalformedWrapper. Which one Python raises depends on the order it visits dictionary keys.
- Floating-point JSON numbers: the `Json` datatype has integers only. For example, a stored version 2.0, which passes `dbver == VERSION`, is not representable.
- SQLite affinity for real-number text and for whitespace around integer text is not modelled; only integer literals convert.
- SQLite's automatic rowid for a NULL INTEGER key is modelled as IntegrityError.
- `orm_name`/`make_orm_class` and `get_engine`: each table is a constructor of the `Table` datatype.
- Paths returned by `glob` carry the root prefix in the source; the model uses paths relative to the snapshot root.
- The lazy generators of `from_disk` and the `ormify_*` functions: the model builds their whole lists, which can change only which fault is reported first.
- Floating-point seconds: `calendar.timegm` of a parsed time is an integer, so the multiplication by 1000 is exact.

## Findings

| source | as written | input that shows it | evidently intended | confidence | as-written member | corrected member |
|---|---|---|---|---|---|---|
| offtrac/dumptrac.py:303 | `cleanup` splits `self.git('status', '-s')[2]`, the error stream `check_call` returns third | an untracked `ticket/9.json` after the reset: git reports `?? ticket/9.json` on stdout and nothing on stderr, so the file stays | filter the report on stdout (`[1]`, as `git_head` and `changed_files` read it), removing exactly the untracked files | not executed | Snapshot.CleanupKeepsUntracked | Snapshot.CleanupRestoresHead |
| offtrac/dumptrac.py:307-320 | appends "*.db\n" unless some line read from `.gitignore` is exactly "*.db\n" | a `.gitignore` holding "*.db" with no final newline: git already ignores `*.db`, but the append makes the file "*.db*.db\n", and git stops ignoring `*.db` | leave a file that already ignores the pattern alone, and otherwise add the pattern on a line of its own | not executed | Ignore.GitignoreAsWritten, Ignore.GitignoreJoinsLines | Ignore.GitignoreFixed |
