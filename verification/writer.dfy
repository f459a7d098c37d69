/** One writer worker's loop (`AddWorker` in pkg/csv_writer.go, twin
    pkg/csv/writer.go), as the code is written and as evidently intended.
    The mutex is a flag in the shared state: a step that finds it held can
    only wait, and in the sequential model nobody else will release it. */
module Writer {
  import opened Wrappers
  import opened Rows
  import opened FileSink

  /** One output line appended through a handle's CSV writer. */
  datatype Written = Written(handle: Handle, fields: seq<string>)

  /** The writer's shared state: the handle cache, the mutex, the lines
      written so far and the errors sent to the error channel. */
  datatype WriterState = WriterState(
    handlers: map<string, Handle>,
    locked: bool,
    written: seq<Written>,
    reported: seq<Error>)

  /** The state `NewWriter` builds: empty cache, mutex free. */
  const Initial: WriterState := WriterState(map[], false, [], [])

  /** The filesystem as the writer sees it: `os.Create` and the CSV
      writer's `Write`, each answering with an error or success. */
  datatype Env = Env(
    create: string -> Result<nat, Error>,
    write: (Handle, seq<string>) -> Option<Error>)

  /** How one loop iteration ends. */
  datatype StepOutcome =
    | Continue(state: WriterState)   // the loop goes round again
    | Exit(state: WriterState)       // row queue closed: done signal, return
    | Deadlock(state: WriterState)   // Lock on a mutex that is never released
    | Panic(state: WriterState)      // method call on a nil interface value

  /** What happens between `Lock` and the first error or the `Unlock`:
      resolve the stream's handle, then write the row through it. */
  datatype Attempt = Attempt(handlers: map<string, Handle>, outcome: Result<Written, Error>)

  function CriticalSection(
    handlers: map<string, Handle>, row: Row, path: string, env: Env
  ): Attempt
  {
    var res := GetFileHandler(handlers, path, row.streamName, env.create);
    match res.result
    case Err(e) => Attempt(res.handlers, Err(e))
    case Ok(h) =>
      match env.write(h, row.data)
      case Some(e) => Attempt(res.handlers, Err(e))
      case None => Attempt(res.handlers, Ok(Written(h, row.data)))
  }

  /** What one critical section does with the cache and the row. */
  lemma {:induction false} CriticalSectionSpec(handlers: map<string, Handle>, row: Row, path: string, env: Env)
    ensures var res := GetFileHandler(handlers, path, row.streamName, env.create);
      var a := CriticalSection(handlers, row, path, env);
      // the cache changes only as resolution changes it
      && a.handlers == res.handlers
      // a creation failure is the attempt's error, and the cache is unchanged
      && (res.result.Err? ==> a.outcome == Err(res.result.error) && a.handlers == handlers)
      // on success the row's fields go, whole, to its stream's cached handle
      && (a.outcome.Ok? ==>
            row.streamName in a.handlers &&
            a.outcome.value == Written(a.handlers[row.streamName], row.data) &&
            env.write(a.handlers[row.streamName], row.data).None?)
  {
    GetFileHandlerSpec(handlers, path, row.streamName, env.create);
  }

  /** The loop body as written. `hubSet` says whether the writer's `hub`
      field holds a hub: `NewWriter` never sets it, so in the program it is
      always false, and the `hub` argument of `AddWorker` is never used. */
  function StepAsWritten(
    s: WriterState, input: Option<Row>, path: string, env: Env, hubSet: bool
  ): (o: StepOutcome)
    ensures input.None? ==> o == Exit(s)
    ensures input.Some? && s.locked ==> o.Deadlock?
    // the success path writes the row once and releases the mutex
    ensures (input.Some? && !s.locked &&
             CriticalSection(s.handlers, input.value, path, env).outcome.Ok?) ==>
      o.Continue? && !o.state.locked &&
      o.state.written == s.written + [CriticalSection(s.handlers, input.value, path, env).outcome.value]
    // an error path either dies on the nil hub or carries on holding the mutex
    ensures (input.Some? && !s.locked &&
             CriticalSection(s.handlers, input.value, path, env).outcome.Err?) ==>
      (if hubSet then o.Continue? && o.state.locked else o.Panic?)
  {
    match input
    case None => Exit(s)
    case Some(row) =>
      if s.locked then Deadlock(s)
      else
        var a := CriticalSection(s.handlers, row, path, env);
        match a.outcome
        case Err(e) =>
          if hubSet then Continue(s.(handlers := a.handlers, locked := true, reported := s.reported + [e]))
          else Panic(s.(handlers := a.handlers, locked := true))
        case Ok(w) =>
          Continue(s.(handlers := a.handlers, locked := false, written := s.written + [w]))
  }
  /** The loop as written, fed `rows` and then the close of the row queue:
      it stops at the first deadlock or panic, or exits once the queue is
      closed, and never stops in the middle of a round. */
  function DrainAsWritten(
    s: WriterState, rows: seq<Row>, path: string, env: Env, hubSet: bool
  ): (o: StepOutcome)
    ensures !o.Continue?
    ensures |rows| == 0 ==> o == Exit(s)
    decreases |rows|
  {
    if |rows| == 0 then StepAsWritten(s, None, path, env, hubSet)
    else
      match StepAsWritten(s, Some(rows[0]), path, env, hubSet)
      case Continue(t) => DrainAsWritten(t, rows[1..], path, env, hubSet)
      case stopped => stopped
  }


  /** The counterexample to "the mutex is balanced": even with a hub in
      place, one failed file creation leaves the mutex held, and the next
      row, for any stream, blocks forever on `Lock`. */
  lemma {:induction false} AsWrittenErrorKeepsLock(path: string, env: Env, first: Row, second: Row)
    requires env.create(FileName(path, first.streamName)).Err?
    ensures var o := StepAsWritten(Initial, Some(first), path, env, true);
      o.Continue? && o.state.locked &&
      StepAsWritten(o.state, Some(second), path, env, true).Deadlock?
  {
  }

  /** The counterexample to "errors are reported": with the hub field as the
      constructor leaves it, the first failed file creation panics. */
  lemma {:induction false} AsWrittenNilHubPanics(path: string, env: Env, row: Row)
    requires env.create(FileName(path, row.streamName)).Err?
    ensures StepAsWritten(Initial, Some(row), path, env, false).Panic?
  {
  }

  /** The loop body as evidently intended: errors go to the hub passed to
      `AddWorker`, and the mutex is released on every path. */
  function Step(s: WriterState, input: Option<Row>, path: string, env: Env): (o: StepOutcome)
    ensures input.None? ==> o == Exit(s)
    ensures input.Some? && s.locked ==> o.Deadlock?
    ensures input.Some? && !s.locked ==> o.Continue?
  {
    match input
    case None => Exit(s)
    case Some(row) =>
      if s.locked then Deadlock(s) else Continue(WriteRow(s, row, path, env))
  }

  /** Lock, resolve and write one row, report any error, unlock. */
  function WriteRow(s: WriterState, row: Row, path: string, env: Env): (t: WriterState)
    requires !s.locked
    ensures !t.locked
  {
    var a := CriticalSection(s.handlers, row, path, env);
    match a.outcome
    case Err(e) => s.(handlers := a.handlers, reported := s.reported + [e])
    case Ok(w) => s.(handlers := a.handlers, written := s.written + [w])
  }

  /** One row: it is either written once, through its stream's handle, or
      one error is reported; nothing already written or reported changes,
      and the cache only gains the row's stream. */
  lemma {:induction false} WriteRowSpec(s: WriterState, row: Row, path: string, env: Env)
    requires !s.locked
    ensures var t := WriteRow(s, row, path, env);
      // exactly one of: the row is written once, or one error is reported
      && |t.written| + |t.reported| == |s.written| + |s.reported| + 1
      && (t.written == s.written ||
          (row.streamName in t.handlers && t.written == s.written + [Written(t.handlers[row.streamName], row.data)]))
      && (t.reported == s.reported || |t.reported| == |s.reported| + 1)
      && t.reported[..|s.reported|] == s.reported
      && (forall k :: k in s.handlers ==> k in t.handlers && t.handlers[k] == s.handlers[k])
      && t.handlers.Keys <= s.handlers.Keys + {row.streamName}
  {
    CriticalSectionSpec(s.handlers, row, path, env);
    GetFileHandlerSpec(s.handlers, path, row.streamName, env.create);
  }


  /** The corrected body never leaves the mutex held: from a free mutex,
      every step ends with it free, and the next row is never blocked. */
  lemma {:induction false} StepLockBalanced(s: WriterState, first: Row, second: Row, path: string, env: Env)
    requires !s.locked
    ensures var o := Step(s, Some(first), path, env);
      o.Continue? && !o.state.locked && Step(o.state, Some(second), path, env).Continue?
  {
  }

  /** The corrected body reports every failure: a failed resolution or
      write sends exactly that error, writes nothing, and frees the mutex. */
  lemma {:induction false} StepReportsError(s: WriterState, row: Row, path: string, env: Env)
    requires !s.locked
    requires CriticalSection(s.handlers, row, path, env).outcome.Err?
    ensures var o := Step(s, Some(row), path, env);
      o.Continue? && !o.state.locked && o.state.written == s.written &&
      o.state.reported == s.reported + [CriticalSection(s.handlers, row, path, env).outcome.error]
  {
  }

  /** The cache invariant holds across the corrected writer. */
  lemma {:induction false} WriteRowConsistent(s: WriterState, row: Row, path: string, env: Env)
    requires !s.locked
    requires Consistent(s.handlers, path)
    ensures Consistent(WriteRow(s, row, path, env).handlers, path)
  {
    GetFileHandlerConsistent(s.handlers, path, row.streamName, env.create);
  }

  /** A worker draining `rows` and then the close of the row queue. */
  function WriteAll(s: WriterState, rows: seq<Row>, path: string, env: Env): (t: WriterState)
    requires !s.locked
    ensures !t.locked
    ensures |t.written| + |t.reported| == |s.written| + |s.reported| + |rows|
    ensures |s.written| <= |t.written| && t.written[..|s.written|] == s.written
    ensures forall k :: k in s.handlers ==> k in t.handlers && t.handlers[k] == s.handlers[k]
    decreases |rows|
  {
    if |rows| == 0 then s
    else
      WriteRowSpec(s, rows[0], path, env);
      WriteAll(WriteRow(s, rows[0], path, env), rows[1..], path, env)
  }

  /** `AddWorker`'s loop, corrected, run to the close of the row queue:
      exactly one done signal, the mutex free at exit, one line or one
      error per row. */
  method RunWorker(s: WriterState, rows: seq<Row>, path: string, env: Env)
    returns (t: WriterState, doneSignals: nat)
    requires !s.locked
    ensures doneSignals == 1
    ensures t == WriteAll(s, rows, path, env)
    ensures !t.locked
    ensures |t.written| + |t.reported| == |s.written| + |s.reported| + |rows|
  {
    t, doneSignals := s, 0;
    var i := 0;
    while true
      invariant 0 <= i <= |rows|
      invariant !t.locked
      invariant doneSignals == 0
      invariant WriteAll(t, rows[i..], path, env) == WriteAll(s, rows, path, env)
      decreases |rows| - i
    {
      var input := if i < |rows| then Some(rows[i]) else None;
      match Step(t, input, path, env)
      case Exit(_) =>
        doneSignals := 1;
        return;
      case Continue(next) =>
        assert rows[i..][1..] == rows[i + 1..];
        t := next;
        i := i + 1;
      case Deadlock(_) =>
        assert false;
      case Panic(_) =>
        assert false;
    }
  }
}
