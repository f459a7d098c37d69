/** The file-handle cache of the writer stage (pkg/csv_writer.go, twin
    pkg/csv/writer.go): file naming, get-or-create resolution keyed by stream
    name, and the final flush-and-close pass. */
module FileSink {
  import opened Wrappers

  /** Prefix of every output file name; a constant of the runtime's protocol
      package (not part of this model), with Airbyte's conventional value. */
  const AirbyteRaw: string := "_airbyte_raw_"
  const CsvSuffix: string := ".csv"

  /** An open file and its buffered CSV writer. `file` is whatever
      `os.Create` handed back; `filename` is the name it was created under. */
  datatype Handle = Handle(file: nat, filename: string)

  /** `fmt.Sprintf("%s/%s%s.csv", path, protocol.AirbyteRaw, streamName)`. */
  function FileName(path: string, stream: string): string
  {
    path + "/" + AirbyteRaw + stream + CsvSuffix
  }

  /** The inverse of `FileName` for a fixed directory: the stream a file
      name was derived from, if it has the derived shape at all. */
  function StreamOfFileName(path: string, f: string): Option<string>
  {
    var start := |path| + 1 + |AirbyteRaw|;
    if |f| >= start + |CsvSuffix|
       && f[..|path|] == path && f[|path|] == '/'
       && f[|path| + 1..start] == AirbyteRaw
       && f[|f| - |CsvSuffix|..] == CsvSuffix
    then Some(f[start..|f| - |CsvSuffix|])
    else None
  }

  /** The stream can be read back from the file name derived from it. */
  lemma {:induction false} FileNameRoundTrip(path: string, stream: string)
    ensures StreamOfFileName(path, FileName(path, stream)) == Some(stream)
  {
    var f := FileName(path, stream);
    assert f[..|path|] == path;
    assert f[|path| + 1..|path| + 1 + |AirbyteRaw|] == AirbyteRaw;
    assert f[|f| - |CsvSuffix|..] == CsvSuffix;
    assert f[|path| + 1 + |AirbyteRaw|..|f| - |CsvSuffix|] == stream;
  }

  /** For a fixed directory, distinct streams get distinct file names. */
  lemma {:induction false} FileNameInjective(path: string, a: string, b: string)
    requires a != b
    ensures FileName(path, a) != FileName(path, b)
  {
    FileNameRoundTrip(path, a);
    FileNameRoundTrip(path, b);
  }

  /** The cache invariant: every cached handle was created for the file
      derived from its own key. */
  ghost predicate Consistent(handlers: map<string, Handle>, path: string) {
    forall k :: k in handlers ==> handlers[k].filename == FileName(path, k)
  }

  /** Outcome of one resolution: the handle (or the creation error), the
      cache afterwards, and the file names passed to `os.Create`. */
  datatype Resolution = Resolution(
    result: Result<Handle, Error>,
    handlers: map<string, Handle>,
    created: seq<string>)

  /** `getFileHandler` / `getFileWriterPairForStream`: return the cached
      handle for the stream, or create its file, cache the new handle and
      return it. `create` is `os.Create` (through `newFileHandler`). */
  function GetFileHandler(
    handlers: map<string, Handle>,
    path: string,
    stream: string,
    create: string -> Result<nat, Error>
  ): Resolution
  {
    if stream in handlers then
      Resolution(Ok(handlers[stream]), handlers, [])
    else
      var filename := FileName(path, stream);
      match create(filename)
      case Err(e) => Resolution(Err(e), handlers, [filename])
      case Ok(file) =>
        var h := Handle(file, filename);
        Resolution(Ok(h), handlers[stream := h], [filename])
  }

  /** What a resolution does, case by case. */
  lemma {:induction false} GetFileHandlerSpec(
    handlers: map<string, Handle>,
    path: string,
    stream: string,
    create: string -> Result<nat, Error>)
    ensures var r := GetFileHandler(handlers, path, stream, create);
      // a cached stream is answered from the cache, creating no file
      && (stream in handlers ==>
            r.result == Ok(handlers[stream]) && r.handlers == handlers && r.created == [])
      // otherwise exactly one file is created, under the derived name
      && (stream !in handlers ==> r.created == [FileName(path, stream)])
      // a creation failure is returned and the cache is left unchanged
      && (stream !in handlers && create(FileName(path, stream)).Err? ==>
            r.result == Err(create(FileName(path, stream)).error) && r.handlers == handlers)
      // a success leaves the returned handle cached for the stream; a new
      // handle is on the derived file name
      && (r.result.Ok? ==> stream in r.handlers && r.handlers[stream] == r.result.value)
      && (stream !in handlers && r.result.Ok? ==>
            r.result.value == Handle(create(FileName(path, stream)).value, FileName(path, stream)))
      // the cache gains at most the key `stream`; every other entry is untouched
      && r.handlers.Keys == handlers.Keys + (if r.result.Ok? then {stream} else {})
      && (forall k :: k in handlers ==> k in r.handlers && r.handlers[k] == handlers[k])
  {
  }

  /** Resolution keeps the cache invariant, so the cache never holds two
      handles under one file name nor a handle under the wrong stream. */
  lemma {:induction false} GetFileHandlerConsistent(
    handlers: map<string, Handle>, path: string, stream: string,
    create: string -> Result<nat, Error>)
    requires Consistent(handlers, path)
    ensures Consistent(GetFileHandler(handlers, path, stream, create).handlers, path)
  {
  }

  /** Under the invariant, distinct streams hold handles on distinct file names. */
  lemma {:induction false} ConsistentDistinctFiles(handlers: map<string, Handle>, path: string, a: string, b: string)
    requires Consistent(handlers, path)
    requires a in handlers && b in handlers && a != b
    ensures handlers[a] != handlers[b]
  {
    FileNameInjective(path, a, b);
  }

  /** Idempotence: resolving the same stream twice yields the same handle,
      and the second resolution creates nothing and changes nothing. */
  lemma {:induction false} GetFileHandlerIdempotent(
    handlers: map<string, Handle>, path: string, stream: string,
    create: string -> Result<nat, Error>)
    ensures var first := GetFileHandler(handlers, path, stream, create);
      var second := GetFileHandler(first.handlers, path, stream, create);
      first.result.Ok? ==>
        second.result == first.result && second.handlers == first.handlers && second.created == []
  {
  }

  /** One step of the final pass over one handle. */
  datatype FileOp = Flush(handle: Handle) | Close(handle: Handle)

  predicate NoDuplicates<T(==)>(s: seq<T>) {
    forall i, j :: 0 <= i < j < |s| ==> s[i] != s[j]
  }

  /** `CloseAndFlush`: range over the cache in Go's unspecified map order,
      flushing then closing each handle. `order` is the order chosen; every
      cached stream is visited exactly once. */
  method CloseAndFlush(handlers: map<string, Handle>) returns (ops: seq<FileOp>, order: seq<string>)
    ensures NoDuplicates(order)
    ensures forall k :: k in order <==> k in handlers
    ensures |order| == |handlers|
    ensures |ops| == 2 * |order|
    ensures forall i :: 0 <= i < |order| ==>
      order[i] in handlers &&
      ops[2 * i] == Flush(handlers[order[i]]) && ops[2 * i + 1] == Close(handlers[order[i]])
  {
    ops, order := [], [];
    var remaining := handlers.Keys;
    while remaining != {}
      invariant remaining <= handlers.Keys
      invariant NoDuplicates(order)
      invariant forall k :: k in order <==> k in handlers && k !in remaining
      invariant |order| + |remaining| == |handlers|
      invariant |ops| == 2 * |order|
      invariant forall i :: 0 <= i < |order| ==>
        order[i] in handlers &&
        ops[2 * i] == Flush(handlers[order[i]]) && ops[2 * i + 1] == Close(handlers[order[i]])
      decreases remaining
    {
      var k :| k in remaining;
      ops := ops + [Flush(handlers[k]), Close(handlers[k])];
      order := order + [k];
      remaining := remaining - {k};
    }
  }
}
