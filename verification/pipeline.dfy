/** The pipeline as a sequential abstraction: the records consumed, the rows
    the marshal stage sends, the order in which the writer stage receives
    them, and the lines that end up in each stream's file. No interleaving
    of individual instructions is modelled; the row queue's arrival order is
    any interleaving of the header rows with the data rows. */
module Pipeline {
  import opened Wrappers
  import opened Rows
  import opened FileSink
  import opened Writer
  import Marshaler

  /** A filesystem on which every file creation and every write succeeds;
      `files` says which file each name opens as. */
  function Reliable(files: string -> nat): Env
  {
    Env(f => Ok(files(f)), (h, d) => None)
  }

  /** The handle the reliable filesystem gives the file of `stream`. */
  function HandleFor(path: string, files: string -> nat, stream: string): Handle
  {
    Handle(files(FileName(path, stream)), FileName(path, stream))
  }

  /** The line each row becomes: its fields, through its stream's handle. */
  function Lines(path: string, files: string -> nat, rows: seq<Row>): (w: seq<Written>)
    ensures |w| == |rows|
  {
    if |rows| == 0 then []
    else [Written(HandleFor(path, files, rows[0].streamName), rows[0].data)] + Lines(path, files, rows[1..])
  }

  /** Every cached handle is the one the filesystem gives its key. */
  ghost predicate CacheFrom(handlers: map<string, Handle>, path: string, files: string -> nat) {
    forall k :: k in handlers ==> handlers[k] == HandleFor(path, files, k)
  }

  /** One row on a reliable filesystem: written once, through its stream's
      handle, nothing reported, cache still as the filesystem gives it. */
  lemma {:induction false} WriteRowReliable(s: WriterState, row: Row, path: string, files: string -> nat)
    requires !s.locked
    requires CacheFrom(s.handlers, path, files)
    ensures var t := WriteRow(s, row, path, Reliable(files));
      && !t.locked
      && t.written == s.written + [Written(HandleFor(path, files, row.streamName), row.data)]
      && t.reported == s.reported
      && CacheFrom(t.handlers, path, files)
  {
    GetFileHandlerSpec(s.handlers, path, row.streamName, Reliable(files).create);
    CriticalSectionSpec(s.handlers, row, path, Reliable(files));
  }

  /** On a filesystem where nothing fails, the loop body as written and the
      corrected one take the same step, whether or not the hub is set. */
  lemma {:induction false} AsWrittenAgreesOnReliable(s: WriterState, row: Row, path: string, files: string -> nat, hubSet: bool)
    requires !s.locked
    ensures StepAsWritten(s, Some(row), path, Reliable(files), hubSet) == Step(s, Some(row), path, Reliable(files))
  {
  }

  /** So on such a filesystem the loop as written, fed any rows and then the
      close, exits with exactly the state the corrected `WriteAll` reaches:
      no deadlock, no panic. */
  lemma {:induction false} DrainAsWrittenReliable(
    s: WriterState, rows: seq<Row>, path: string, files: string -> nat, hubSet: bool)
    requires !s.locked
    ensures DrainAsWritten(s, rows, path, Reliable(files), hubSet) == Exit(WriteAll(s, rows, path, Reliable(files)))
    decreases |rows|
  {
    if |rows| > 0 {
      var env := Reliable(files);
      AsWrittenAgreesOnReliable(s, rows[0], path, files, hubSet);
      DrainAsWrittenReliable(WriteRow(s, rows[0], path, env), rows[1..], path, files, hubSet);
    }
  }

  /** One round of `WriteAll` on a reliable filesystem. */
  lemma {:induction false} WriteAllStep(s: WriterState, rows: seq<Row>, path: string, files: string -> nat)
    requires !s.locked && |rows| > 0
    requires CacheFrom(s.handlers, path, files)
    ensures var t := WriteRow(s, rows[0], path, Reliable(files));
      && !t.locked
      && CacheFrom(t.handlers, path, files)
      && t.written == s.written + [Written(HandleFor(path, files, rows[0].streamName), rows[0].data)]
      && t.reported == s.reported
      && WriteAll(s, rows, path, Reliable(files)) == WriteAll(t, rows[1..], path, Reliable(files))
  {
    WriteRowReliable(s, rows[0], path, files);
  }

  /** Prepending a row's line to the lines of the rest. */
  lemma {:induction false} LinesCons(prefix: seq<Written>, path: string, files: string -> nat, rows: seq<Row>)
    requires |rows| > 0
    ensures (prefix + [Written(HandleFor(path, files, rows[0].streamName), rows[0].data)]) +
      Lines(path, files, rows[1..]) == prefix + Lines(path, files, rows)
  {
    var line := Written(HandleFor(path, files, rows[0].streamName), rows[0].data);
    assert [line] + Lines(path, files, rows[1..]) == Lines(path, files, rows);
    assert (prefix + [line]) + Lines(path, files, rows[1..]) == prefix + ([line] + Lines(path, files, rows[1..]));
  }

  /** On a reliable filesystem each row is written once, through the handle
      of its own stream, and nothing is reported. */
  lemma {:induction false} WriteAllReliable(s: WriterState, rows: seq<Row>, path: string, files: string -> nat)
    requires !s.locked
    requires CacheFrom(s.handlers, path, files)
    ensures WriteAll(s, rows, path, Reliable(files)).written == s.written + Lines(path, files, rows)
    ensures WriteAll(s, rows, path, Reliable(files)).reported == s.reported
    decreases |rows|
  {
    if |rows| > 0 {
      var t := WriteRow(s, rows[0], path, Reliable(files));
      WriteAllStep(s, rows, path, files);
      WriteAllReliable(t, rows[1..], path, files);
      LinesCons(s.written, path, files, rows);
    }
  }

  /** The lines that went into the file named `filename`. */
  function CountFile(written: seq<Written>, filename: string): (n: nat)
    ensures n <= |written|
  {
    if |written| == 0 then 0
    else (if written[0].handle.filename == filename then 1 else 0) + CountFile(written[1..], filename)
  }

  /** The file of stream `s` receives exactly the rows of stream `s`. */
  lemma {:induction false} CountFileLines(path: string, files: string -> nat, rows: seq<Row>, s: string)
    ensures CountFile(Lines(path, files, rows), FileName(path, s)) == CountStream(rows, s)
    decreases |rows|
  {
    if |rows| > 0 {
      var w := Lines(path, files, rows);
      assert w[1..] == Lines(path, files, rows[1..]);
      if rows[0].streamName != s {
        FileNameInjective(path, rows[0].streamName, s);
      }
      CountFileLines(path, files, rows[1..], s);
    }
  }

  /** `c` is an interleaving of `a` and `b`: both kept in their own order. */
  ghost predicate Interleaves(c: seq<Row>, a: seq<Row>, b: seq<Row>)
    decreases |c|
  {
    if |c| == 0 then a == [] && b == []
    else
      || (|a| > 0 && c[0] == a[0] && Interleaves(c[1..], a[1..], b))
      || (|b| > 0 && c[0] == b[0] && Interleaves(c[1..], a, b[1..]))
  }

  /** An interleaving holds the rows of both sides, once each. */
  lemma {:induction false} InterleavesLength(c: seq<Row>, a: seq<Row>, b: seq<Row>)
    requires Interleaves(c, a, b)
    ensures |c| == |a| + |b|
    decreases |c|
  {
    if |c| > 0 {
      if |a| > 0 && c[0] == a[0] && Interleaves(c[1..], a[1..], b) {
        InterleavesLength(c[1..], a[1..], b);
      } else {
        InterleavesLength(c[1..], a, b[1..]);
      }
    }
  }

  /** The lines of an interleaving are the lines of both sides. */
  lemma {:induction false} InterleavesLines(path: string, files: string -> nat, c: seq<Row>, a: seq<Row>, b: seq<Row>)
    requires Interleaves(c, a, b)
    ensures multiset(Lines(path, files, c)) == multiset(Lines(path, files, a)) + multiset(Lines(path, files, b))
    decreases |c|
  {
    if |c| > 0 {
      var lc := Lines(path, files, c);
      assert lc == [lc[0]] + Lines(path, files, c[1..]);
      if |a| > 0 && c[0] == a[0] && Interleaves(c[1..], a[1..], b) {
        InterleavesLines(path, files, c[1..], a[1..], b);
        var la := Lines(path, files, a);
        assert la == [la[0]] + Lines(path, files, a[1..]);
      } else {
        InterleavesLines(path, files, c[1..], a, b[1..]);
        var lb := Lines(path, files, b);
        assert lb == [lb[0]] + Lines(path, files, b[1..]);
      }
    }
  }

  /** Each stream's rows in an interleaving are those of both sides. */
  lemma {:induction false} InterleavesCount(c: seq<Row>, a: seq<Row>, b: seq<Row>, s: string)
    requires Interleaves(c, a, b)
    ensures CountStream(c, s) == CountStream(a, s) + CountStream(b, s)
    decreases |c|
  {
    if |c| > 0 {
      if |a| > 0 && c[0] == a[0] && Interleaves(c[1..], a[1..], b) {
        InterleavesCount(c[1..], a[1..], b, s);
      } else {
        InterleavesCount(c[1..], a, b[1..], s);
      }
    }
  }

  /** The records of stream `s`. */
  function CountRecords(records: seq<Record>, s: string): (n: nat)
    ensures n <= |records|
  {
    if |records| == 0 then 0
    else (if records[0].stream == s then 1 else 0) + CountRecords(records[1..], s)
  }

  /** The catalog entries named `s`. */
  function CountNames(streams: seq<ConfiguredStream>, s: string): (n: nat)
    ensures n <= |streams|
  {
    if |streams| == 0 then 0
    else (if streams[0].name == s then 1 else 0) + CountNames(streams[1..], s)
  }

  lemma {:induction false} CountStreamOfRecords(rows: seq<Row>, records: seq<Record>, s: string)
    requires |rows| == |records|
    requires forall i :: 0 <= i < |rows| ==> rows[i].streamName == records[i].stream
    ensures CountStream(rows, s) == CountRecords(records, s)
    decreases |rows|
  {
    if |rows| > 0 {
      CountStreamOfRecords(rows[1..], records[1..], s);
    }
  }

  lemma {:induction false} CountStreamOfHeaders(headers: seq<Row>, streams: seq<ConfiguredStream>, s: string)
    requires |headers| == |streams|
    requires forall i :: 0 <= i < |headers| ==> headers[i].streamName == streams[i].name
    ensures CountStream(headers, s) == CountNames(streams, s)
    decreases |headers|
  {
    if |headers| > 0 {
      CountStreamOfHeaders(headers[1..], streams[1..], s);
    }
  }

  /** In the file of `s`, the lines of an arrival order of headers and
      marshaled rows number one per catalog entry and one per record of
      that stream. */
  lemma {:induction false} PerFileCount(
    streams: seq<ConfiguredStream>, headers: seq<Row>, records: seq<Record>, data: seq<Row>,
    arrival: seq<Row>, path: string, files: string -> nat, s: string)
    requires |headers| == |streams|
    requires forall i :: 0 <= i < |headers| ==> headers[i].streamName == streams[i].name
    requires |data| == |records|
    requires forall i :: 0 <= i < |data| ==> data[i].streamName == records[i].stream
    requires Interleaves(arrival, headers, data)
    ensures CountFile(Lines(path, files, arrival), FileName(path, s)) ==
            CountNames(streams, s) + CountRecords(records, s)
  {
    CountFileLines(path, files, arrival, s);
    InterleavesCount(arrival, headers, data, s);
    CountStreamOfHeaders(headers, streams, s);
    CountStreamOfRecords(data, records, s);
  }

  /** The lines of any arrival order of headers and marshaled rows: one per
      header and per record, those of the headers and of the rows, and per
      file one per catalog entry and per record of that stream. */
  lemma {:induction false} LinesConservation(
    streams: seq<ConfiguredStream>, headers: seq<Row>, records: seq<Record>, data: seq<Row>,
    arrival: seq<Row>, path: string, files: string -> nat)
    requires |headers| == |streams|
    requires forall i :: 0 <= i < |headers| ==> headers[i].streamName == streams[i].name
    requires |data| == |records|
    requires forall i :: 0 <= i < |data| ==> data[i].streamName == records[i].stream
    requires Interleaves(arrival, headers, data)
    ensures |Lines(path, files, arrival)| == |streams| + |records|
    ensures multiset(Lines(path, files, arrival)) ==
            multiset(Lines(path, files, headers)) + multiset(Lines(path, files, data))
    ensures forall s :: CountFile(Lines(path, files, arrival), FileName(path, s)) ==
                        CountNames(streams, s) + CountRecords(records, s)
  {
    InterleavesLength(arrival, headers, data);
    InterleavesLines(path, files, arrival, headers, data);
    forall s
      ensures CountFile(Lines(path, files, arrival), FileName(path, s)) ==
              CountNames(streams, s) + CountRecords(records, s)
    {
      PerFileCount(streams, headers, records, data, arrival, path, files, s);
    }
  }

  /** The line of the i-th header row: the fixed labels, on the file of the
      i-th catalog entry. */
  lemma {:induction false} HeaderLines(
    streams: seq<ConfiguredStream>, headers: seq<Row>, path: string, files: string -> nat)
    requires |headers| == |streams|
    requires forall i :: 0 <= i < |headers| ==> headers[i].streamName == streams[i].name
    requires forall i :: 0 <= i < |headers| ==> headers[i].data == HeaderLabels
    ensures forall i :: 0 <= i < |headers| ==>
      Lines(path, files, headers)[i] == Written(HandleFor(path, files, streams[i].name), HeaderLabels)
    decreases |headers|
  {
    if |headers| > 0 {
      HeaderLines(streams[1..], headers[1..], path, files);
      forall i | 0 <= i < |headers|
        ensures Lines(path, files, headers)[i] == Written(HandleFor(path, files, streams[i].name), HeaderLabels)
      {
        if i > 0 {
          assert Lines(path, files, headers)[i] == Lines(path, files, headers[1..])[i - 1];
        }
      }
    }
  }

  /** Conservation, end to end, on a reliable filesystem: whatever order the
      header rows and the data rows reach the writers in, the loop as
      written exits in the same state as the corrected one, nothing is
      reported, one line is written per header and per record, the lines
      are those of the headers (the fixed labels, on their stream's file)
      and of the marshaled records, and the file of each stream holds one
      line per catalog entry and per record of that stream. */
  lemma {:induction false} EndToEnd(
    streams: seq<ConfiguredStream>, headers: seq<Row>, records: seq<Record>,
    render: Payload -> string, arrival: seq<Row>, path: string, files: string -> nat)
    requires |headers| == |streams|
    requires forall i :: 0 <= i < |headers| ==> headers[i].streamName == streams[i].name
    requires forall i :: 0 <= i < |headers| ==> headers[i].data == HeaderLabels
    requires Interleaves(arrival, headers, Marshaler.OkRows(records, rec => Marshaler.Marshal(rec, render)))
    ensures var final := WriteAll(Initial, arrival, path, Reliable(files));
      var data := Marshaler.OkRows(records, rec => Marshaler.Marshal(rec, render));
      // the writer loop as written, hub unset, ends in exactly this state
      && DrainAsWritten(Initial, arrival, path, Reliable(files), false) == Exit(final)
      && final.reported == []
      && |final.written| == |streams| + |records|
      && multiset(final.written) ==
           multiset(Lines(path, files, headers)) + multiset(Lines(path, files, data))
      && (forall i :: 0 <= i < |headers| ==>
            Lines(path, files, headers)[i] == Written(HandleFor(path, files, streams[i].name), HeaderLabels))
      && |data| == |records|
      && (forall i :: 0 <= i < |records| ==> data[i] == Marshaler.Marshal(records[i], render).value)
      && (forall s :: CountFile(final.written, FileName(path, s)) ==
                      CountNames(streams, s) + CountRecords(records, s))
  {
    var data := Marshaler.OkRows(records, rec => Marshaler.Marshal(rec, render));
    Marshaler.OkRowsWithMarshal(records, render);
    assert forall i :: 0 <= i < |data| ==> data[i].streamName == records[i].stream;
    WriteAllReliable(Initial, arrival, path, files);
    DrainAsWrittenReliable(Initial, arrival, path, files, false);
    HeaderLines(streams, headers, path, files);
    LinesConservation(streams, headers, records, data, arrival, path, files);
  }
}
