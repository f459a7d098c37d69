/** `createDestinationPath` (pkg/destination_csv.go, twin
    pkg/csv/destination_csv.go): normalise the configured destination path,
    join it to the root path, and create the directory. */
module DestinationPath {
  import opened Wrappers

  /** The connector configuration: one string field, `destination_path`. */
  datatype Config = Config(destinationPath: string)

  /** Go's `strings.HasPrefix(s, "/")`. */
  predicate StartsWithSlash(s: string) {
    |s| > 0 && s[0] == '/'
  }

  /** Prepend '/' unless the path already starts with one. */
  function Normalize(p: string): (r: string)
    ensures StartsWithSlash(r)
    ensures StartsWithSlash(p) ==> r == p
    ensures !StartsWithSlash(p) ==> |r| == |p| + 1 && r[1..] == p
  {
    if StartsWithSlash(p) then p else "/" + p
  }

  /** Normalising a normalised path changes nothing. */
  lemma {:induction false} NormalizeIdempotent(p: string)
    ensures Normalize(Normalize(p)) == Normalize(p)
  {
  }

  /** Normalisation loses nothing: the configured path can be read back
      from the normalised one, so distinct configured paths that are not
      "x" and "/x" of each other stay distinct. */
  lemma {:induction false} NormalizeRecoverable(p: string)
    ensures var r := Normalize(p);
      p == r || p == r[1..]
  {
  }

  /** What the Go function returns, `(path, err)`, together with the
      directories it asked `os.MkdirAll` to create. */
  datatype PathResult = PathResult(path: string, err: Option<Error>, mkdirCalls: seq<string>)

  /** `createDestinationPath`. `parsed` is the outcome of the config parser
      and `mkdirAll` the filesystem's answer for a directory (None on
      success); both are outside the model. */
  function CreateDestinationPath(
    rootPath: string,
    parsed: Result<Config, Error>,
    mkdirAll: string -> Option<Error>
  ): (r: PathResult)
    // a parse failure comes back as ("", err) before any directory is touched
    ensures parsed.Err? ==> r == PathResult("", Some(parsed.error), [])
    // otherwise exactly one directory is created: root, then the path under '/'
    ensures parsed.Ok? ==>
      |r.mkdirCalls| == 1 &&
      var dir := r.mkdirCalls[0];
      var p := parsed.value.destinationPath;
      |dir| > |rootPath| && dir[..|rootPath|] == rootPath && dir[|rootPath|] == '/' &&
      (StartsWithSlash(p) ==> dir[|rootPath|..] == p) &&
      (!StartsWithSlash(p) ==> dir[|rootPath| + 1..] == p)
    // a directory failure comes back as ("", err); success returns that directory
    ensures parsed.Ok? && mkdirAll(r.mkdirCalls[0]).Some? ==>
      r.path == "" && r.err == mkdirAll(r.mkdirCalls[0])
    ensures parsed.Ok? && mkdirAll(r.mkdirCalls[0]).None? ==>
      r.err.None? && r.path == r.mkdirCalls[0]
    ensures r.err.None? <==> r.path != ""
  {
    match parsed
    case Err(e) => PathResult("", Some(e), [])
    case Ok(dc) =>
      var absolute := rootPath + Normalize(dc.destinationPath);
      match mkdirAll(absolute)
      case Some(e) => PathResult("", Some(e), [absolute])
      case None => PathResult(absolute, None, [absolute])
  }

  /** The documented example: root "/data" and configured "out" give
      "/data/out", as does configured "/out". */
  lemma {:induction false} JoinExample(mkdirAll: string -> Option<Error>)
    requires mkdirAll("/data/out").None?
    ensures CreateDestinationPath("/data", Ok(Config("out")), mkdirAll).path == "/data/out"
    ensures CreateDestinationPath("/data", Ok(Config("/out")), mkdirAll).path == "/data/out"
  {
    assert "/data" + Normalize("out") == "/data/out";
    assert "/data" + Normalize("/out") == "/data/out";
  }
}
