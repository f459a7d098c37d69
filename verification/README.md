# CSV destination connector: a Dafny model of its pipeline core

This project models the sequential core of a streaming sink that turns
record messages into per-stream CSV files. The core has two stages and a
coordinator. The marshal stage turns each record into a row and emits one
header row per configured stream. The writer stage appends rows to one file
per stream through a shared handle cache. The coordinator runs the shutdown
handshake: wait for the marshal workers, close the row queue, wait for the
writers, flush and close the files, close the error channel.

The repository holds the core twice, in `pkg/` (the iteration `main.go`
wires up) and in `pkg/csv/`. They behave the same in the core. The
`pkg/csv/` writer opens files through its `newFileHandler` helper instead
of inline, and its `Spec` carries a few more titles. The model is written once. Each row below cites `pkg/` and names the
`pkg/csv/` twin in its last column.

Modules, one per part of the core:

- `Wrappers` (wrappers.dfy): `Option`, `Result` and the opaque `Error`.
- `Decimal` (decimal.dfy): Go's `strconv.Itoa` and a parser that undoes it.
- `Rows` (rows.dfy): records, rows, catalog entries and the header labels.
- `Marshaler` (marshaler.dfy): `marshal`, `ExtractHeaders` and one marshal worker's loop.
- `DestinationPath` (destination_path.dfy): `createDestinationPath`.
- `FileSink` (file_sink.dfy): file naming, the get-or-create handle cache, and `CloseAndFlush`.
- `Writer` (writer.dfy): one writer worker's loop, as written and as corrected.
- `Coordinator` (coordinator.dfy): `Write` as a state machine with worker counters, plus the row queue's producers and its close.
- `Pipeline` (pipeline.dfy): the pipeline as a sequence of records consumed and lines written, with conservation proved end to end.

Everything outside the core is a parameter of the model:

- the config parser's answer;
- `os.MkdirAll`, `os.Create` and the CSV writer's `Write`, each an oracle that answers success or an error;
- `WriteLog`'s answer;
- the payload's `String()`, a function `render`;
- Go's map iteration order, chosen nondeterministically.

The code has four defects. The model follows the code, and each defect is
recorded under "## Findings" with a corrected definition beside it.

- `AddWorker` takes a `hub` argument for error reporting, but the writer's error paths send on its own `hub` field, which `NewCsvWriter` never sets. A failed file creation or write therefore panics on a nil hub.
- Even with the field set, those paths `continue` while holding the mutex, so the next row deadlocks on `Lock`.
- `Write` closes the row queue once every marshal worker has signalled done (pkg/destination_csv.go:132-135), but the goroutine running `ExtractHeaders` also sends on that queue and is never waited for. A header send can therefore meet a closed queue.
- On a path failure, `Write` returns without closing the error channel, although its own comment (pkg/destination_csv.go:98) says every channel except the record channel must be closed. `Coordinator.Write` states this as written; `Coordinator.WriteClosingOnAbort` closes it on that path too.

## Model

| member | source | states |
|---|---|---|
| Decimal.NatDigits | pkg/record_marshaler.go:91 | the digits of a natural number are all decimal digits, at least one, and start with '0' exactly when the number is zero (no leading zeros) |
| Decimal.Itoa | pkg/record_marshaler.go:91 | the rendering is never empty and starts with '-' exactly for negative numbers (twin pkg/csv/marshaler.go:91) |
| Decimal.NatDigitsValue | pkg/record_marshaler.go:91 | reading the digits of n back, most significant first, gives n |
| Decimal.ItoaRoundTrip | pkg/record_marshaler.go:91 | parsing the decimal rendering of any integer gives back that integer |
| Decimal.ItoaInjective | pkg/record_marshaler.go:91 | two integers with the same rendering are equal |
| Decimal.ItoaCanonical | pkg/record_marshaler.go:91 | the rendering is canonical: optional '-', digits with no leading zero, never "-0" |
| Marshaler.Marshal | pkg/record_marshaler.go:84-95 | never fails; the row keeps the record's stream name and has exactly three fields: the id verbatim, a decimal text that parses back to the emitted-at value, and the payload's text (twin pkg/csv/marshaler.go:84-95) |
| Marshaler.MarshalEmittedAtCanonical | pkg/record_marshaler.go:91 | two records get the same emitted-at field if and only if their timestamps are equal |
| Marshaler.ExtractHeaders | pkg/record_marshaler.go:63-78 | one header row per configured stream, in catalog order, each named after its stream and holding exactly the three fixed labels (twin pkg/csv/marshaler.go:63-78) |
| Marshaler.Step | pkg/record_marshaler.go:43-55 | a closed input gives the done signal and only then; a marshal error is forwarded, exactly when marshal fails; otherwise exactly the marshaled row is sent (twin pkg/csv/marshaler.go:43-55) |
| Marshaler.StepWithMarshal | pkg/record_marshaler.go:43-55 | with the program's own marshal a worker never forwards an error: closed input gives done, any record gives exactly its row |
| Marshaler.RunWorker | pkg/record_marshaler.go:40-58 | a worker draining a feed and then the close sends exactly one done signal, one row per record that marshals (in feed order), one error per record that does not, and `rows + errors = records` |
| Marshaler.OkRowsWithMarshal | pkg/record_marshaler.go:84-95 | with the program's marshal the rows sent for a feed are the feed's records marshaled one for one, in order, and no error is forwarded |
| DestinationPath.Normalize | pkg/destination_csv.go:159-162 | the result starts with '/'; a path already starting with '/' is unchanged; otherwise the result is '/' followed by the path (twin pkg/csv/destination_csv.go:155-158) |
| DestinationPath.NormalizeIdempotent | pkg/destination_csv.go:159-162 | normalising a normalised path changes nothing |
| DestinationPath.NormalizeRecoverable | pkg/destination_csv.go:159-162 | the configured path is the normalised path, or the normalised path without its first '/' |
| DestinationPath.CreateDestinationPath | pkg/destination_csv.go:148-172 | a parse failure returns ("", err) without touching any directory; otherwise exactly one directory is requested, namely the root followed by '/' and the configured path (its own leading '/' kept, not doubled); a directory failure returns ("", err); success returns that directory; the error is absent exactly when the path is non-empty (twin pkg/csv/destination_csv.go:144-168) |
| DestinationPath.JoinExample | pkg/destination_csv.go:164 | root "/data" with configured "out" or "/out" gives "/data/out" (twin pkg/csv/destination_csv.go:160) |
| FileSink.FileNameRoundTrip | pkg/csv_writer.go:102-107 | about `FileSink.FileName`: the derived name `path/<raw prefix><stream>.csv` decodes back to its stream for a fixed path (twin pkg/csv/writer.go:95-100) |
| FileSink.FileNameInjective | pkg/csv_writer.go:102-107 | for a fixed path, distinct streams get distinct file names |
| FileSink.GetFileHandlerSpec | pkg/csv_writer.go:93-123 | about `FileSink.GetFileHandler`: a cached stream returns its cached handle and creates no file; an uncached stream creates exactly its derived file; a creation failure returns that error and leaves the cache unchanged; a success caches the new handle under the stream; the keys grow by at most the stream, and every other entry is unchanged (twin pkg/csv/writer.go:86-110) |
| FileSink.GetFileHandlerConsistent | pkg/csv_writer.go:97-120 | resolution preserves the cache invariant: every cached handle is on the file derived from its own key |
| FileSink.ConsistentDistinctFiles | pkg/csv_writer.go:97-120 | under the cache invariant, two different streams never share a handle |
| FileSink.GetFileHandlerIdempotent | pkg/csv_writer.go:97-100 | after a successful resolution, resolving the same stream again yields the same handle, creates nothing and leaves the cache unchanged |
| FileSink.CloseAndFlush | pkg/csv_writer.go:86-91 | visits every cached stream exactly once, in some order, and for each one flushes and then closes its handle (twin pkg/csv/writer.go:79-84) |
| Writer.CriticalSectionSpec | pkg/csv_writer.go:62-79 | about `Writer.CriticalSection` (from `Lock` to the first error or `Unlock`): the cache changes only as resolution changes it; a creation failure is the attempt's error and leaves the cache unchanged; on success the row's fields are written whole through its stream's cached handle |
| Writer.StepAsWritten | pkg/csv_writer.go:56-79 | the loop body as written: a closed queue exits; a held mutex deadlocks; the success path writes the row once and unlocks; an error path panics on the nil hub, or, if a hub were set, carries on with the mutex still held (twin pkg/csv/writer.go:49-72) |
| Writer.AsWrittenErrorKeepsLock | pkg/csv_writer.go:62-79 | counterexample to a balanced mutex: even with a hub, one failed file creation leaves the mutex held, and the next row deadlocks on Lock |
| Writer.AsWrittenNilHubPanics | pkg/csv_writer.go:37-47 | counterexample to error reporting: with the hub field as the constructor leaves it, the first failed file creation panics |
| Writer.Step | pkg/csv_writer.go:56-79 | corrected loop body: a closed queue exits; a free mutex always leads to another round |
| Writer.WriteRowSpec | pkg/csv_writer.go:62-79 | about `Writer.WriteRow`, the corrected critical section: the mutex ends free; each row gives exactly one written line (on its stream's handle) or one reported error; existing cache entries are untouched; the keys grow by at most the row's stream |
| Writer.StepLockBalanced | pkg/csv_writer.go:62-79 | corrected: from a free mutex every row leaves it free, so the next row never blocks |
| Writer.StepReportsError | pkg/csv_writer.go:66-77 | corrected: a failed resolution or write sends exactly that error, writes nothing, and frees the mutex |
| Writer.WriteRowConsistent | pkg/csv_writer.go:97-120 | the corrected writer keeps the cache invariant |
| Writer.WriteAll | pkg/csv_writer.go:55-81 | corrected loop (as written, one error leaves the mutex held; `Pipeline.DrainAsWrittenReliable` ties the two together where nothing fails), draining a row sequence: the mutex ends free; lines written plus errors reported grow by the number of rows; earlier lines stay a prefix; existing cache entries are untouched |
| Writer.DrainAsWritten | pkg/csv_writer.go:55-81 | the loop as written, fed rows and then the close, never stops mid-round: it ends in an exit, a deadlock or a panic, and with no rows it exits unchanged |
| Writer.RunWorker | pkg/csv_writer.go:50-82 | a corrected worker draining rows and then the close sends exactly one done signal, ends with the mutex free, and accounts for every row once |
| Coordinator.RunKeepsInv | pkg/destination_csv.go:132-145 | in every state the handshake reaches, the done counters never overtake the started counters, and each drained phase has received every completion signal of its pool |
| Coordinator.AddWorkers | pkg/destination_csv.go:118-130 | starts exactly the configured marshal workers and then the writer workers, each writer given the destination path; only the handshake's allowed steps are taken (twin pkg/csv/destination_csv.go:118-124) |
| Coordinator.Shutdown | pkg/destination_csv.go:132-145 | receives one done signal per marshal worker before closing the row queue, one per writer before flushing, and closes the error channel last (twin pkg/csv/destination_csv.go:126-141) |
| Coordinator.Write | pkg/destination_csv.go:99-146 | a logging failure is reported first and stops nothing; a path failure is reported and Write returns with no header, no worker and no close of the error channel; otherwise the whole trace is accepted by the handshake and ends finalized, with all started workers' signals received, flush then error-channel close last, and every writer given the created path (twin pkg/csv/destination_csv.go:100-142) |
| Coordinator.ClosedIsLast | pkg/destination_csv.go:145 | closing the error channel ends the handshake: in any accepted trace it can only be the last event |
| Coordinator.WriteClosingOnAbort | pkg/destination_csv.go:98-146 | corrected `Write`: every return path closes the error channel, exactly once and last; a path failure reports the error and then closes it, with nothing else; otherwise the handshake of `Write` runs to the finalized state with every writer given the created path (twin pkg/csv/destination_csv.go:99-142) |
| Coordinator.AsWrittenHeaderSendAfterClose | pkg/destination_csv.go:117-135 | counterexample: with an empty record feed and one stream, all four marshal workers finish, the queue closes, and the pending header send hits the closed queue |
| Coordinator.RunQueueNeverCrashes | pkg/destination_csv.go:132-135 | with the header goroutine counted as a producer, no interleaving ever sends on the closed row queue; the producer invariant is kept |
| Coordinator.QueueCanClose | pkg/destination_csv.go:117-135 | with the corrected guard the queue can still close: from the start, sending every header and taking every marshal signal closes it without a crash |
| Coordinator.QueueCanCloseFrom | pkg/destination_csv.go:117-135 | from any open state that keeps the producer invariant, sending the pending headers and taking the remaining marshal signals closes the queue without a crash, and the invariant still holds |
| Pipeline.WriteRowReliable | pkg/csv_writer.go:62-79 | on a filesystem where nothing fails, a row is written once through its own stream's handle, nothing is reported, and the cache stays as the filesystem gives it |
| Pipeline.AsWrittenAgreesOnReliable | pkg/csv_writer.go:56-79 | on a filesystem where nothing fails, the loop body as written (hub set or not) takes exactly the corrected step |
| Pipeline.DrainAsWrittenReliable | pkg/csv_writer.go:55-81 | on such a filesystem the loop as written, fed any rows and then the close, exits (no deadlock, no panic) in exactly the state the corrected `Writer.WriteAll` reaches |
| Pipeline.WriteAllReliable | pkg/csv_writer.go:55-81 | on such a filesystem the lines written are exactly the rows, one for one, in order, each through its stream's handle; nothing is reported |
| Pipeline.CountFileLines | pkg/csv_writer.go:102-107 | the file of stream s receives exactly as many lines as there are rows of stream s |
| Pipeline.InterleavesLength | pkg/destination_csv.go:117-130 | an arrival order that interleaves header and data rows holds all of both |
| Pipeline.InterleavesLines | pkg/destination_csv.go:117-130 | the lines of an interleaving are, as a multiset, the lines of both sides |
| Pipeline.InterleavesCount | pkg/destination_csv.go:117-130 | per stream, an interleaving has the rows of both sides |
| Pipeline.CountStreamOfRecords | pkg/record_marshaler.go:85-87 | rows that keep their records' stream names have, per stream, as many rows as records |
| Pipeline.CountStreamOfHeaders | pkg/record_marshaler.go:63-78 | header rows named after the catalog have, per stream, as many rows as catalog entries |
| Pipeline.PerFileCount | pkg/csv_writer.go:102-107 | in any arrival order of header and data rows, the file of stream s receives one line per catalog entry named s and one per record of s |
| Pipeline.LinesConservation | pkg/destination_csv.go:117-130 | the lines of any arrival order of headers and marshaled rows: one per header and per record, as a multiset those of both sides, and per file one per catalog entry and per record of that stream |
| Pipeline.HeaderLines | pkg/record_marshaler.go:63-78 | the line of the i-th header row holds the fixed labels, on the file of the i-th catalog entry |
| Pipeline.EndToEnd | pkg/destination_csv.go:117-143 | on a filesystem where nothing fails, in any arrival order of headers and data rows: the writer loop as written (hub unset) exits in the same state as the corrected one; nothing is reported; one line is written per header and per record; the lines are those of the headers (the fixed labels, on their stream's file) and of the marshaled records; each stream's file holds one line per catalog entry plus one per record of that stream |

## Left out

- Goroutines, unbuffered channels and the mutex as a scheduler are left out. Workers are modelled one loop iteration at a time, the mutex is a flag, and the handshake is a counter machine. Only the row queue's close is modelled with arbitrary interleavings (`Coordinator.RunQueue`), because that is where the code races.
- There is no claim that a header row comes first in every file. Headers are sent from their own goroutine, racing the marshal workers.
- CSV quoting and escaping, and the payload's `String()`, are foreign library calls. They are not modelled: a row's fields are what a line holds, and `render` is a parameter.
- `os.Create`, `os.MkdirAll`, the CSV writer's `Write`, `Flush`, `Close` and the config parser are filesystem or library calls. Each is an oracle parameter that answers success or an error. `Flush` and `Close` results are ignored by the code, so they are events only.
- `newFileHandler` (pkg/csv/file_handler.go) is folded into the `create` oracle: the handle is the file it returns plus the file name.
- `Spec` and `Check` return static metadata and a stub, so they have no behaviour to prove.
- `main.go` and the root `destination_csv.go` are wiring and a stale iteration. They are not part of this model.
- The protocol constants `AirbyteRaw`, `AirbyteAbId`, `AirbyteEmittedAt` and `AirbyteData` come from the runtime's protocol package, which is not part of this model. The model uses Airbyte's conventional values. No property depends on them beyond being fixed strings.
- Decimal.ItoaRoundTrip: the parser accepts any integer, with no 64-bit range check. `int(EmittedAt)` is taken as the identity, as on 64-bit platforms. The timestamps themselves are `Int64`.
- Coordinator.Write: it models only the coordinator's own actions. The workers' sends and exits are in `Marshaler.RunWorker`, `Writer.RunWorker` and `Coordinator.RunQueue`. A worker that exits without its done signal, which would hang the handshake, is not modelled.
- Files are identified by their names as strings. Path aliasing is not modelled: on a case-insensitive filesystem the streams "Users" and "users" name one file, and the second `os.Create` truncates it. `FileSink.FileNameInjective` and `FileSink.ConsistentDistinctFiles` speak of distinct file names, not distinct files on disk.
- The oracles are plain functions of their arguments: a file whose creation failed once fails again on every retry, and a write answers the same for the same handle and fields. The real filesystem may answer differently on a retry. No proved property depends on this, since each row is attempted once.
- Pipeline.EndToEnd: it assumes the corrected close guard (`Coordinator.QueueNext`): every header row reaches the queue before it closes, which the code as written does not guarantee (see `Coordinator.AsWrittenHeaderSendAfterClose`). The data rows reach the writers in feed order. The headers may interleave with them in any way, but data rows from different marshal workers are not reordered among themselves. Only a filesystem where nothing fails is covered. With failures, `Writer.WriteAll` still accounts for every row once, as a line or as an error.

## Findings

| source | as written | input that shows it | evidently intended | confidence | as-written member | corrected member |
|---|---|---|---|---|---|---|
| pkg/csv_writer.go:62-79 | on a file-creation or write error the loop does `continue` while still holding `mu` (twin pkg/csv/writer.go:55-72) | even with a hub set, the first row's file creation fails, then any second row arrives: the second `Lock` never returns, and every writer blocks | unlock before `continue`, so every iteration releases the mutex | high that the lock leaks; not executed | Writer.AsWrittenErrorKeepsLock | Writer.StepLockBalanced |
| pkg/csv_writer.go:37-47 | `NewCsvWriter` never sets the `hub` field, but the error paths send on `cw.hub.GetErrorChannel()`; the `hub` argument of `AddWorker` is unused (twin pkg/csv/writer.go:30-40) | any row whose file cannot be created: the method call on the nil interface panics and the connector dies | send errors to the `hub` passed to `AddWorker` | high; not executed | Writer.AsWrittenNilHubPanics | Writer.StepReportsError |
| pkg/destination_csv.go:117-135 | the row queue closes after the marshal workers' done signals only; the `ExtractHeaders` goroutine also sends on it but is never waited for (twin pkg/csv/destination_csv.go:117-130) | empty record feed and one configured stream: the four marshal workers exit at once, the coordinator closes the queue before a writer has taken the header, and the blocked header send panics with "send on closed channel" | count the header goroutine as a producer and close only after it is done | medium, since it depends on scheduling; not executed | Coordinator.AsWrittenHeaderSendAfterClose | Coordinator.RunQueueNeverCrashes |
| pkg/destination_csv.go:110-114 | a path failure sends the error and returns without closing the error channel, against the note at pkg/destination_csv.go:98 that every channel but the record channel must be closed (twin pkg/csv/destination_csv.go:111-115) | a config whose destination path cannot be parsed, or a directory that cannot be created: `Write` returns and the error channel stays open, so a reader ranging over it never ends | close the error channel on the path-failure return as well | medium, since the channel's owner outside this core might close it; not executed | Coordinator.Write | Coordinator.WriteClosingOnAbort |
