# GTFS import and trim core, modelled in Dafny

This project models the three sequential cores of the `heimdalr/gtfs` Go
library. Each is stated with the library's own entities, and each operation
is proved against functions and lemmas that say what it computes.

- **The GTFS time codec** (`DateTime` in gtfs.go, copied verbatim in
  import.go). It holds an `int32` count of seconds since midnight. The codec
  prints it as `HH:MM:SS`, parses such text back, and converts it to and from
  the database's `int64`. Module `TimeCodec` does this, with Go's integer
  semantics written out:
  - `/` and `%` truncate toward zero;
  - `strconv.Atoi` takes a sign and is limited to 64 bits;
  - `hours*3600+…` wraps at 64 bits;
  - `int32(i)` keeps the low 32 bits.
- **The batch inserter and the import orchestration**. The inserter is one
  generic method, `BatchInsert.BatchImport`, that stands for the eight
  `batchImport*` functions of import.go and the eight `import*` functions of
  cmd/gtfs/commands/import.go, which are the same loop over different record
  types. The store (`BatchInsert.Db`) is a log of written batches. A set of
  write numbers says which writes fail. `ImportOrchestrator` models
  `importItems`/`importSingle` and `Import`/`importAll`:
  - a source file is given as the rows the CSV decoder produced, possibly
    ended by a decode error;
  - a file name missing from the directory is a file that cannot be opened.
- **The trim engine** (`Trim` in trim.go and `trim` in
  cmd/gtfs/commands/trim.go, with their six DELETE statements). Module
  `TrimEngine` models the database as a class `Store`:
  - one sequence per table;
  - the set of tables that exist;
  - the set of kinds whose DELETE statement the database refuses.

  Each statement is a filter, `KeepKeys`, that keeps the rows whose key occurs
  in a set of keys. `Store.Trim` is the statement loop.

The cmd/gtfs/commands files repeat the library's algorithms under other
names, so each core is modelled once. The table below cites both copies
wherever a member states something about both.

Modules:

| module | what it holds |
|---|---|
| `Wrappers` | `Option` and `Result` |
| `Text` | decimal formatting and parsing, `strings.Split`, substring search, text order |
| `Entities` | the GTFS records and `ItemType` |
| `TimeCodec` | the time codec |
| `BatchInsert` | the batch inserter |
| `ImportOrchestrator` | the import orchestration |
| `TrimEngine` | the trim engine |

After a file that cannot be opened, `Import` goes on with the remaining
sources and closes the progress channel once, after all eight
(import.go:265-276, cmd/gtfs/commands/import.go:109-120).

## Model

| member | source | states |
|---|---|---|
| TimeCodec.Clock | gtfs.go:20-22 | The three printed fields sum back to the value: `h*3600+m*60+s == v`. For a non-negative value, minutes and seconds lie in [0, 60) and hours are non-negative. For a negative value, all three are non-positive, as Go's truncating `/` and `%` give. |
| TimeCodec.Pad2 | gtfs.go:23 | `%02d` gives at least two characters and no colon. A non-negative number prints as digits, and one below 100 prints as exactly its two digits. |
| TimeCodec.AtoiPad2 | gtfs.go:23 | `strconv.Atoi` reads back exactly the number `%02d` printed, sign included. |
| TimeCodec.EncodeFields | gtfs.go:20-23 | For a non-negative value with h ≥ 0, 0 ≤ m < 60, 0 ≤ s < 60 and h*3600+m*60+s = v, the printer picks exactly (h, m, s) and prints `Pad2(h):Pad2(m):Pad2(s)`. |
| TimeCodec.Encode | gtfs.go:18-24 | A non-negative value prints with two-character minutes and seconds: at least eight characters, with the colons six and three places from the end. |
| TimeCodec.EncodeLayout | gtfs.go:18-24 | A non-negative value prints as `H…H:MM:SS`: the hours, minutes and seconds around the two colons are all digits. |
| TimeCodec.EncodeSplits | gtfs.go:23 | The printed text splits at `:` into exactly the three printed fields. |
| TimeCodec.EncodeTotal | gtfs.go:18-24 | For every `int32` value, negative ones included, the text has three fields that `strconv.Atoi` reads back and whose total h*3600+m*60+s is the value. |
| TimeCodec.EncodeExampleMidnight | gtfs_test.go:57-62 | 0 prints as "00:00:00". |
| TimeCodec.EncodeExampleAfternoon | gtfs_test.go:63-68 | 52621 prints as "14:37:01". |
| TimeCodec.EncodeExampleMorning | gtfs_test.go:69-74 | 41340 prints as "11:29:00". |
| TimeCodec.DecodeAsWritten | gtfs.go:27-50 | `UnmarshalCSV` as written. A text that does not split into three fields is a `FieldCount` error, and only such a text is. Parsing succeeds exactly when the three fields are integers whose total, wrapped to 64 bits, is at most MaxInt32, and then yields the low 32 bits of that total. The minutes and seconds errors quote the hours field. |
| TimeCodec.Decode | gtfs.go:27-50 | (corrected; see Findings) Parsing succeeds exactly when the text has three integer fields whose exact total fits an `int32`, and then yields that total. A text that does not split into three fields is a `FieldCount` error, and only such a text is. Otherwise the first field, in the order hours, minutes, seconds, that `strconv.Atoi` rejects gives its own error quoting that field. Three integer fields whose total lies outside the `int32` range give `RangeExceeded`. |
| TimeCodec.DecodeClockText | gtfs.go:28-48 | Any three colon-free integer fields whose total fits 32 bits decode to that total, whatever the width of the hours field. |
| TimeCodec.DecodeEncode | gtfs.go:18-50 | Round trip: parsing the text printed for any `int32` value, negative ones included, gives the value back. |
| TimeCodec.DecodeEncodeDecode | gtfs.go:18-50 | Decoding is stable through the printer: a text that decodes, printed and decoded again, gives the same value. |
| TimeCodec.DecodeAsWrittenAgrees | gtfs.go:27-50 | Where the exact total fits an `int32`, the code as written and the corrected decoder both return that total. |
| TimeCodec.DecodeAsWrittenClockText | gtfs.go:44-48 | As written, three integer fields whose total lies in [MinInt64, MaxInt32] are accepted and stored as `int32(total)`. |
| TimeCodec.DecodeExampleMidnight | gtfs_test.go:16-21 | "0:00:00" decodes to 0: a one-digit hours field is accepted. |
| TimeCodec.DecodeExampleAfternoon | gtfs_test.go:22-27 | "14:37:01" decodes to 52621. |
| TimeCodec.DecodeExampleBadHours | gtfs_test.go:28-32 | "a4:37:01" is rejected with an hours error quoting "a4". |
| TimeCodec.DecodeAsWrittenWraps | gtfs.go:44-48 | Finding: "-1000000:00:00" has total -3600000000. The code as written stores it as 694967296 seconds; the corrected decoder rejects it. |
| TimeCodec.DecodeAsWrittenWrapsToZero | gtfs.go:44-47 | Finding: "5124095576030431:00:16" has total 2^64. The code as written wraps the 64-bit sum to 0 and stores 0 seconds; the corrected decoder rejects it as out of range. |
| TimeCodec.DecodeAsWrittenQuotesHours | gtfs.go:36-43 | Finding: for "14:xx:01" the minutes error as written quotes "14", the hours field. The corrected decoder quotes "xx". |
| TimeCodec.ScanAsWritten | gtfs.go:53-63 | `Scan` as written succeeds exactly on an `int64` of at most MaxInt32 and yields its low 32 bits. Anything that is not an `int64` is a `NotInt64` error. |
| TimeCodec.ScanValue | gtfs.go:53-63 | (corrected; see Findings) `Scan` succeeds exactly on an `int64` within the `int32` range and yields it unchanged. Anything that is not an `int64` is a `NotInt64` error. |
| TimeCodec.ValueOf | gtfs.go:66-68 | What `Value` stores scans back to the same value, both as written and corrected. |
| TimeCodec.ScanAsWrittenWraps | gtfs.go:58-61 | Finding: as written, the `int64` -2147483649 scans as 2147483647; the corrected `Scan` rejects it. |
| TimeCodec.DateTime.MarshalCSV | gtfs.go:18-24 | Printing never fails, and its text decodes to the held value. |
| TimeCodec.DateTime.UnmarshalCSV | gtfs.go:27-50 | Follows the corrected `Decode` listed under Findings, not `DecodeAsWritten`. On success the held value becomes the decoded value. On every failure the error is returned and the held value is unchanged. |
| TimeCodec.DateTime.Scan | gtfs.go:53-63 | Follows the corrected `ScanValue` listed under Findings, not `ScanAsWritten`. On success the held value becomes the scanned value. On failure the error is returned and the held value is unchanged. |
| TimeCodec.DateTime.Value | gtfs.go:66-68 | The database form of the held value scans back to it. |
| Entities.ItemTypeString | gtfs.go:200-217 | The name is never empty. It starts with `U` (for "Unknown Status (n)") exactly for a value outside the eight named kinds. |
| Entities.ItemTypeStringInjective | import.go:207-224 | Distinct kinds print differently: equal names mean equal kinds. |
| BatchInsert.ChunksShape | import.go:375-405 | Without failures the inserter writes ⌈N/1000⌉ batches. Each holds 1 to 1000 records, every batch but the last holds exactly 1000, and together they are the input in arrival order. |
| BatchInsert.ChunkAt | import.go:375-394 | The j-th batch is records [1000j, min(1000(j+1), N)). |
| BatchInsert.FlattenChunksPrefix | import.go:375-405 | The first k batches hold exactly the first min(1000k, N) records. |
| BatchInsert.FirstRejectedSpec | import.go:385-389 | The writes before the first failing one all succeed, and that one fails. |
| BatchInsert.Db.Create | import.go:385 | One write of a whole batch: it is counted. It either fails and stores nothing, or stores the batch. |
| BatchInsert.BatchImport | import.go:362-409 | The counting-and-buffering loop issues exactly the writes, stores exactly the batches and returns exactly the result of `BatchOutcome`. Under the loop's invariants, buffers are written as they fill, the trailing partial buffer is flushed, and the loop stops at the first failed write. |
| BatchInsert.NoFailureCounts | cmd/gtfs/commands/import.go:192-239 | With no failing write, N records report `Count` N and `Batches` ⌈N/1000⌉, and `Batches` is 0 exactly when N is 0. The stored batches are the input in order, one write per batch. |
| BatchInsert.WritesAreBatches | cmd/gtfs/commands/import.go:205-235 | Whatever fails, every stored batch holds 1 to 1000 records, all but the last hold exactly 1000, and the stored records are a prefix of the input in arrival order. |
| BatchInsert.FailureStops | import.go:385-403 | On a failed write, the error is reported under the inserter's kind with zero counts. It is the first failing write, no later write is issued, and the earlier batches stay stored: exactly the first 1000·k records. |
| ImportOrchestrator.ImportItems | import.go:294-359 | `importItems` on the store adds exactly the writes and batches of `ImportItemsOutcome`, which covers the open failure, the unknown kind, the inserter run and the decode error, and returns its result. |
| ImportOrchestrator.Import | import.go:247-277 | All eight sources are imported in the fixed order, each from where the previous left the store. The progress channel receives the eight results in that order, then is closed; this happens only when a channel is given. |
| ImportOrchestrator.RunSourcesStep | import.go:265-272 | Importing one more source extends the run by that source's outcome against the store as the earlier sources left it. |
| ImportOrchestrator.RunSourcesPrefix | import.go:265-272 | Importing more sources does not change the results of the earlier ones. |
| ImportOrchestrator.ResultsInOrder | cmd/gtfs/commands/import.go:109-116 | One result per source, in source order. The i-th is the outcome of source i against the store as sources 0..i-1 left it, whatever they reported. |
| ImportOrchestrator.LaterSourcesStillRun | import.go:265-272 | A source whose file decodes cleanly reports its own kind, all its rows and ⌈rows/1000⌉ batches, provided its own writes succeed. This holds whatever the other sources did, failed writes included. |
| ImportOrchestrator.OpenFailureReported | cmd/gtfs/commands/import.go:130-133 | A file that cannot be opened is reported with the open error and the zero `ItemType` (`Agencies`), and nothing is written. |
| ImportOrchestrator.UnknownKindReported | import.go:344-345 | A kind without an inserter is reported as an unknown-kind error, and nothing is written. |
| ImportOrchestrator.DecodeErrorReported | import.go:348-350 | A decode error is reported with the zero `ItemType` and zero counts. The rows decoded before it have still been stored, in order, when no write fails. |
| TrimEngine.KeysOfSpec | trim.go:103-160 | `SELECT DISTINCT key`: a key is in the set exactly when some row has it. |
| TrimEngine.KeepKeysSpec | trim.go:103-160 | A `DELETE … WHERE key NOT IN (…)` keeps exactly the rows whose key is in the set. Every kept row's key is in it, every such row is kept, nothing is added or duplicated, and kept plus `RowsAffected` equals the rows before. |
| TrimEngine.StepCounts | trim.go:74-83 | Each statement removes exactly the rows it reports as affected from its own table and changes no other table's row count. |
| TrimEngine.FirstMissing | trim.go:40-45 | The table check finds nothing exactly when all eight tables exist. Otherwise it names a missing table, and every table checked before it exists. |
| TrimEngine.Store.FindMissingTable | cmd/gtfs/commands/trim.go:158-163 | The table-check loop returns exactly the first missing required table, if any. |
| TrimEngine.FirstLikeSpec | trim.go:47-51 | The lookup finds an agency exactly when some agency's name contains the fragment. The one found is such an agency, and no matching agency has a smaller id. |
| TrimEngine.FirstFailing | trim.go:71-77 | The first statement in order that fails: all statements before it succeed. |
| TrimEngine.StepsDoneAll | trim.go:54-86 | Running the six statements in the order agencies, routes, trips, stop_times, stops, shapes is the cascade `Trimmed`, each statement seeing the tables as the previous ones left them. |
| TrimEngine.TrimmedClosed | cmd/gtfs/commands/trim.go:19-85 | The cascade keeps exactly what hangs off the chosen agency. Nothing dangles: every agency has the chosen id, and references are closed (route→agency, trip→route, stop_time→trip); every stop is visited by a remaining stop_time, and every shape point belongs to a remaining trip's shape. Nothing reachable is deleted: every agency with the chosen id stays, and so does every route, trip, stop_time, stop or shape point whose key is among the remaining parents' keys. Calendars and calendar_dates are unchanged. |
| TrimEngine.StepShrinks | trim.go:94-160 | Each statement only deletes: every table is a sub-multiset of what it was, and the calendar tables are equal. |
| TrimEngine.StepsDoneShrinks | cmd/gtfs/commands/trim.go:189-204 | However many statements have run, every table has only lost rows and the calendar tables are untouched. |
| TrimEngine.TrimOrderDistinct | trim.go:60-65 | The six statements are for six different kinds. |
| TrimEngine.RowCountKept | trim.go:71-86 | A table no statement in a range of the order is for keeps its row count across that range. |
| TrimEngine.ResultsAfterSpec | trim.go:78-84 | After n statements, the result map has exactly the kinds of those statements. Each entry holds the rows that statement removed from the tables as the earlier ones left them, and the rows it left. |
| TrimEngine.TrimCounts | cmd/gtfs/commands/trim.go:196-202 | On success, the result map has exactly the six trimmed kinds. For each, affected + remaining equals the rows the table had before the trim, and remaining is what the table holds afterwards. |
| TrimEngine.TrimSucceeds | trim.go:37-89 | On success, the agency found contains the fragment, has the least id among matches, and is kept. Every agency with another id is gone and the references are closed. Every row that hangs off what is left is still there, and every table is a sub-multiset of its previous contents. |
| TrimEngine.TrimFailsAtStep | cmd/gtfs/commands/trim.go:189-195 | A statement failure names the first failing statement's kind. The deletions of the statements before it stay applied, and tables only shrink. |
| TrimEngine.TrimFailsEarly | trim.go:40-51 | A missing table or an unmatched name is reported before anything is deleted. The not-found error occurs exactly when all tables exist and no agency name contains the fragment. |
| TrimEngine.Store.Exec | trim.go:74-80 | A statement either fails and changes nothing, or applies its filter to its own table and reports the rows removed. |
| TrimEngine.Store.RunStatement | trim.go:73-84 | One pass of the loop runs statement i and, on success, records its counts under its kind. |
| TrimEngine.Store.Trim | trim.go:37-89 | The method leaves the tables and returns the result that `TrimOutcome` specifies, the function about which TrimCounts, TrimSucceeds, TrimFailsAtStep and TrimFailsEarly are proved. |

## Left out

- Goroutines and channels inside one import. In the model the decoder and the
  inserter run one after the other. The hand-off between them is not modelled,
  and neither are two hangs in the code:
  - after a failed write the inserter stops reading rows. It tries to send its
    error on the result channel, which is unbuffered (import.go:308,
    cmd/gtfs/commands/import.go:138). `importItems` receives from that channel
    only after the decoder returns (import.go:352-353). The decoder blocks
    sending its next row, so the two wait on each other for ever. The import
    only ends if no rows follow the failed write, that is, when it was the
    last full batch or the final flush. The model reports the write failure
    as the result;
  - after a decode error, `importItems` returns without receiving the
    inserter's result, and that goroutine never ends.
- The CSV decoder (`gocsv.UnmarshalToChan`) and its header-to-field binding
  are a foreign library. The decoded rows and the decoder's error are given.
- `ImportItems`: the rows decoded before a decode error are all consumed by
  the inserter, and the trailing buffer is flushed when the decoder closes
  the channel. The asynchronous timing of those writes relative to the
  returned result is not modelled.
- `path.Join` and the file system: sources are looked up by file name in a
  map. Any other open error is modelled as a missing file.
- gorm and SQLite: `db.Create`, `db.Exec`, `Count`, `Migrator().HasTable`,
  `AutoMigrate` and `Migrate` are not modelled. In their place the model has:
  - a write log with a set of failing write numbers;
  - in-memory tables;
  - a set of existing tables;
  - a set of kinds whose DELETE fails.

  A failing DELETE changes nothing.
- `FirstLike`: SQL `LIKE` is ASCII case-insensitive and treats `%` and `_` in
  the fragment as wildcards. The model uses a plain, case-sensitive substring
  test.
- `FirstLike`: gorm's `First` orders by primary key. The model takes the least
  id in code-point order, which is the order of SQLite's default binary
  collation.
- `TrimOutcome`: lookup errors other than "not found" are not modelled.
- The DELETE statements: SQL `NOT IN` against a sub-query that yields NULL
  deletes nothing. The model has no NULL keys; an empty string is a key like
  any other.
- DateTime.UnmarshalCSV: follows the corrected decoder `Decode`, so the
  class does not reproduce the wrap of totals below the `int32` range, the
  wrap of sums beyond 64 bits, or the hours field quoted in minutes and
  seconds errors. Those are modelled by
  `DecodeAsWritten` and exhibited under Findings.
- DateTime.Scan: follows the corrected `ScanValue`, so the class does not
  reproduce the wrap of an `int64` below the `int32` range. That is modelled
  by `ScanAsWritten` and exhibited under Findings.
- Elapsed times (`Time` fields, `time.Now`) are left out of the results.
- The `String()` methods of `ImportItemsResult`, `TrimItemsResult` and
  `TrimResult` are left out. `TrimResult.String` also depends on Go's random
  map order. `ItemType.String` is modelled.
- The `float64` coordinates of stops and shapes are carried as their bits;
  the core never computes with them.
- `BatchImport`: `Count` and `Batches` are unbounded naturals, so `int64`
  overflow of the counters (more than 2^63 records) is not modelled.
- The entry points and flag handling (cmd/import/main.go, cmd/trim/main.go,
  cmd/gtfs/main.go, cmd/gtfs/commands/commands.go, `gtfsImport`, `gtfsTrim`)
  are not part of this model.
- example_basic_test.go is not part of this model, because it needs a
  fixture database.

## Findings

| source | as written | input that shows it | evidently intended | confidence | as-written member | corrected member |
|---|---|---|---|---|---|---|
| gtfs.go:44-48 | Only the upper bound is checked, then `int32(i)` keeps the low 32 bits of the total. | "-1000000:00:00" (total -3600000000) is stored as 694967296 seconds. | A total outside the `int32` range is rejected. | not executed | TimeCodec.DecodeAsWrittenWraps | TimeCodec.Decode |
| gtfs.go:44-47 | `hours*3600 + minutes*60 + seconds` is computed in 64-bit `int`, so a non-negative total of 2^63 or more wraps before the upper-bound check. | "5124095576030431:00:16" (total 2^64) is stored as 0 seconds. | A total above the `int32` range is rejected. | not executed | TimeCodec.DecodeAsWrittenWrapsToZero | TimeCodec.Decode |
| gtfs.go:58-61 | Only the upper bound is checked, then `int32(i)` keeps the low 32 bits. | The `int64` -2147483649 scans as 2147483647. | A value outside the `int32` range is rejected. | not executed | TimeCodec.ScanAsWrittenWraps | TimeCodec.ScanValue |
| gtfs.go:36-43 | The minutes and seconds errors quote `s[0]`, the hours field. | "14:xx:01" reports "cannot parse GTFS minutes from '14'". | Each message quotes the field that failed (`s[1]`, `s[2]`). | not executed | TimeCodec.DecodeAsWrittenQuotesHours | TimeCodec.Decode |
