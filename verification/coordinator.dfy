/** The `Write` shutdown handshake (pkg/destination_csv.go, twin
    pkg/csv/destination_csv.go) as a state machine with worker counters, the
    coordinator's own sequence of actions, and the row queue's producers. */
module Coordinator {
  import opened Wrappers
  import opened Rows
  import DestinationPath

  /** Worker pool sizes: `recordMarshalerWorkers` / `marshalerWorkers` and
      `csvWriterWorkers` / `writerWorkers`. */
  const MarshalerWorkers: nat := 4
  const WriterWorkers: nat := 2

  /** The coordinator's visible actions, in the order `Write` performs them. */
  datatype Event =
    | LogErrorSent(err: Error)          // WriteLog failed; reported, not fatal
    | PathErrorSent(err: Error)         // createDestinationPath failed; Write returns
    | HeadersRequested(count: nat)      // ExtractHeaders started for the catalog
    | MarshalWorkerAdded
    | WriterWorkerAdded(path: string)
    | MarshalDoneReceived
    | RowQueueClosed
    | WriterDoneReceived
    | DoneChannelsClosed
    | FilesFlushed                      // CloseAndFlush
    | ErrorChannelClosed

  datatype Phase =
    | Init | HeadersEmitted | WorkersRunning | MarshalDrained
    | WriteDrained | Flushed | Finalized | Aborted
    | AbortedClosed   // aborted, and the error channel closed after all

  /** The handshake's state: the phase and the four worker counters. */
  datatype Machine = Machine(
    phase: Phase,
    marshalStarted: nat,
    writersStarted: nat,
    marshalDone: nat,
    writersDone: nat)

  const Start: Machine := Machine(Init, 0, 0, 0, 0)

  /** The intended transition relation: None where an action is not allowed.
      The row queue closes only when every marshal worker has signalled; the
      files are flushed only when every writer has signalled; the error
      channel closes last. */
  function Next(m: Machine, e: Event): Option<Machine>
  {
    match e
    case LogErrorSent(_) =>
      if m.phase == Init then Some(m) else None
    case PathErrorSent(_) =>
      if m.phase == Init then Some(m.(phase := Aborted)) else None
    case HeadersRequested(_) =>
      if m.phase == Init then Some(m.(phase := HeadersEmitted)) else None
    case MarshalWorkerAdded =>
      if m.phase == HeadersEmitted || (m.phase == WorkersRunning && m.writersStarted == 0)
      then Some(m.(phase := WorkersRunning, marshalStarted := m.marshalStarted + 1))
      else None
    case WriterWorkerAdded(_) =>
      if m.phase == WorkersRunning && m.marshalDone == 0
      then Some(m.(writersStarted := m.writersStarted + 1))
      else None
    case MarshalDoneReceived =>
      if m.phase == WorkersRunning && m.marshalDone < m.marshalStarted
      then Some(m.(marshalDone := m.marshalDone + 1))
      else None
    case RowQueueClosed =>
      if m.phase == WorkersRunning && m.marshalDone == m.marshalStarted
      then Some(m.(phase := MarshalDrained))
      else None
    case WriterDoneReceived =>
      if m.phase == MarshalDrained && m.writersDone < m.writersStarted
      then Some(m.(writersDone := m.writersDone + 1))
      else None
    case DoneChannelsClosed =>
      if m.phase == MarshalDrained && m.writersDone == m.writersStarted
      then Some(m.(phase := WriteDrained))
      else None
    case FilesFlushed =>
      if m.phase == WriteDrained then Some(m.(phase := Flushed)) else None
    case ErrorChannelClosed =>
      if m.phase == Flushed then Some(m.(phase := Finalized))
      else if m.phase == Aborted then Some(m.(phase := AbortedClosed))
      else None
  }

  /** Run a sequence of actions from `m`; None if some action is refused. */
  function Run(m: Machine, trace: seq<Event>): Option<Machine>
    decreases |trace|
  {
    if |trace| == 0 then Some(m)
    else match Next(m, trace[0])
      case None => None
      case Some(m') => Run(m', trace[1..])
  }

  /** Running a trace extended by one action is one more step. */
  lemma {:induction false} RunSnoc(m: Machine, trace: seq<Event>, e: Event)
    requires Run(m, trace).Some?
    ensures Run(m, trace + [e]) == Next(Run(m, trace).value, e)
    decreases |trace|
  {
    if |trace| == 0 {
      assert [e][1..] == [];
    } else {
      assert (trace + [e])[1..] == trace[1..] + [e];
      RunSnoc(Next(m, trace[0]).value, trace[1..], e);
    }
  }

  /** Running two traces one after the other is running their concatenation. */
  lemma {:induction false} RunAppend(m: Machine, a: seq<Event>, b: seq<Event>)
    requires Run(m, a).Some?
    ensures Run(m, a + b) == Run(Run(m, a).value, b)
    decreases |a|
  {
    if |a| == 0 {
      assert a + b == b;
    } else {
      assert (a + b)[1..] == a[1..] + b;
      RunAppend(Next(m, a[0]).value, a[1..], b);
    }
  }

  /** The handshake invariant: counters never overtake, and each drained
      phase has received every completion signal of its pool. */
  ghost predicate Inv(m: Machine) {
    && m.marshalDone <= m.marshalStarted
    && m.writersDone <= m.writersStarted
    && (m.phase in {MarshalDrained, WriteDrained, Flushed, Finalized} ==>
          m.marshalDone == m.marshalStarted)
    && (m.phase in {WriteDrained, Flushed, Finalized} ==>
          m.writersDone == m.writersStarted)
  }

  /** Every state reachable from the start satisfies the invariant: the row
      queue is never closed, nor the files flushed, early. */
  lemma {:induction false} RunKeepsInv(m: Machine, trace: seq<Event>)
    requires Inv(m)
    requires Run(m, trace).Some?
    ensures Inv(Run(m, trace).value)
    decreases |trace|
  {
    if |trace| > 0 {
      RunKeepsInv(Next(m, trace[0]).value, trace[1..]);
    }
  }

  /** The state once the headers are requested. */
  const Requested: Machine := Start.(phase := HeadersEmitted)

  /** The state once every worker is running. */
  const Running: Machine := Machine(WorkersRunning, MarshalerWorkers, WriterWorkers, 0, 0)

  /** The state once the handshake is complete. */
  const Final: Machine :=
    Machine(Finalized, MarshalerWorkers, WriterWorkers, MarshalerWorkers, WriterWorkers)

  /** Every writer in `trace` is given `path`. */
  ghost predicate WritersGet(trace: seq<Event>, path: string) {
    forall i :: 0 <= i < |trace| && trace[i].WriterWorkerAdded? ==> trace[i].path == path
  }

  lemma {:induction false} WritersGetAppend(a: seq<Event>, b: seq<Event>, path: string)
    requires WritersGet(a, path) && WritersGet(b, path)
    ensures WritersGet(a + b, path)
  {
    forall i | 0 <= i < |a + b| && (a + b)[i].WriterWorkerAdded?
      ensures (a + b)[i].path == path
    {
      if i >= |a| {
        assert (a + b)[i] == b[i - |a|];
      }
    }
  }

  /** `Write`'s two start-up loops: the marshal workers, then the writer
      workers, each writer given the destination directory. */
  method AddWorkers(path: string) returns (t: seq<Event>)
    ensures Run(Requested, t) == Some(Running)
    ensures WritersGet(t, path)
  {
    t := [];
    for i := 0 to MarshalerWorkers
      invariant Run(Requested, t) ==
        Some(Machine(if i == 0 then HeadersEmitted else WorkersRunning, i, 0, 0, 0))
      invariant forall k :: 0 <= k < |t| ==> t[k] == MarshalWorkerAdded
    {
      RunSnoc(Requested, t, MarshalWorkerAdded);
      t := t + [MarshalWorkerAdded];
    }
    for i := 0 to WriterWorkers
      invariant Run(Requested, t) == Some(Machine(WorkersRunning, MarshalerWorkers, i, 0, 0))
      invariant WritersGet(t, path)
    {
      RunSnoc(Requested, t, WriterWorkerAdded(path));
      t := t + [WriterWorkerAdded(path)];
    }
  }

  /** `Write`'s shutdown: take one completion signal per marshal worker,
      close the row queue, take one signal per writer, close the done
      channels, flush and close the files, and close the error channel. */
  method Shutdown() returns (t: seq<Event>)
    ensures Run(Running, t) == Some(Final)
    ensures forall k :: 0 <= k < |t| ==> !t[k].WriterWorkerAdded?
    ensures |t| >= 2 && t[|t| - 2..] == [FilesFlushed, ErrorChannelClosed]
  {
    var marshalSignals := [];
    for i := 0 to MarshalerWorkers
      invariant marshalSignals == seq(i, _ => MarshalDoneReceived)
    {
      marshalSignals := marshalSignals + [MarshalDoneReceived];
    }
    var writerSignals := [];
    for i := 0 to WriterWorkers
      invariant writerSignals == seq(i, _ => WriterDoneReceived)
    {
      writerSignals := writerSignals + [WriterDoneReceived];
    }
    ShutdownRuns(marshalSignals, writerSignals);
    ShutdownShape(marshalSignals, writerSignals);
    t := marshalSignals + [RowQueueClosed] + writerSignals + [DoneChannelsClosed, FilesFlushed, ErrorChannelClosed];
  }

  /** The shutdown sequence is accepted from the running state and ends the
      handshake. */
  lemma {:induction false} ShutdownRuns(marshalSignals: seq<Event>, writerSignals: seq<Event>)
    requires marshalSignals == seq(MarshalerWorkers, _ => MarshalDoneReceived)
    requires writerSignals == seq(WriterWorkers, _ => WriterDoneReceived)
    ensures Run(Running, marshalSignals + [RowQueueClosed] + writerSignals +
                         [DoneChannelsClosed, FilesFlushed, ErrorChannelClosed]) == Some(Final)
  {
    var drained := Running.(marshalDone := MarshalerWorkers);
    var closed := drained.(phase := MarshalDrained);
    var done := closed.(writersDone := WriterWorkers);
    var queueClosed := marshalSignals + [RowQueueClosed];
    var writersDrained := queueClosed + writerSignals;
    RunMarshalDone(Running, MarshalerWorkers);
    RunSnoc(Running, marshalSignals, RowQueueClosed);
    RunWriterDone(closed, WriterWorkers);
    RunAppend(Running, queueClosed, writerSignals);
    ShutdownTail(done);
    RunAppend(Running, writersDrained, [DoneChannelsClosed, FilesFlushed, ErrorChannelClosed]);
  }

  /** Once every writer has signalled: close the done channels, flush, and
      close the error channel, which finalizes the handshake. */
  lemma {:induction false} ShutdownTail(m: Machine)
    requires m.phase == MarshalDrained && m.writersDone == m.writersStarted
    ensures Run(m, [DoneChannelsClosed, FilesFlushed, ErrorChannelClosed]) == Some(m.(phase := Finalized))
  {
    var tail := [DoneChannelsClosed, FilesFlushed, ErrorChannelClosed];
    assert tail[1..] == [FilesFlushed, ErrorChannelClosed];
    assert tail[1..][1..] == [ErrorChannelClosed];
  }


  /** The shutdown sequence starts no writer and ends by flushing the files
      and closing the error channel. */
  lemma {:induction false} ShutdownShape(marshalSignals: seq<Event>, writerSignals: seq<Event>)
    requires marshalSignals == seq(MarshalerWorkers, _ => MarshalDoneReceived)
    requires writerSignals == seq(WriterWorkers, _ => WriterDoneReceived)
    ensures var t := marshalSignals + [RowQueueClosed] + writerSignals +
                     [DoneChannelsClosed, FilesFlushed, ErrorChannelClosed];
      && (forall k :: 0 <= k < |t| ==> !t[k].WriterWorkerAdded?)
      && |t| >= 2 && t[|t| - 2..] == [FilesFlushed, ErrorChannelClosed]
  {
    var t := marshalSignals + [RowQueueClosed] + writerSignals +
             [DoneChannelsClosed, FilesFlushed, ErrorChannelClosed];
    assert t[|t| - 2..] == [FilesFlushed, ErrorChannelClosed];
  }

  /** Taking `k` marshal signals while workers are running counts them. */
  lemma {:induction false} RunMarshalDone(m: Machine, k: nat)
    requires m.phase == WorkersRunning && m.marshalDone + k <= m.marshalStarted
    ensures Run(m, seq(k, _ => MarshalDoneReceived)) == Some(m.(marshalDone := m.marshalDone + k))
    decreases k
  {
    if k > 0 {
      var signals := seq(k, _ => MarshalDoneReceived);
      assert signals[1..] == seq(k - 1, _ => MarshalDoneReceived);
      RunMarshalDone(m.(marshalDone := m.marshalDone + 1), k - 1);
    }
  }

  /** Taking `k` writer signals once the row queue is closed counts them. */
  lemma {:induction false} RunWriterDone(m: Machine, k: nat)
    requires m.phase == MarshalDrained && m.writersDone + k <= m.writersStarted
    ensures Run(m, seq(k, _ => WriterDoneReceived)) == Some(m.(writersDone := m.writersDone + k))
    decreases k
  {
    if k > 0 {
      var signals := seq(k, _ => WriterDoneReceived);
      assert signals[1..] == seq(k - 1, _ => WriterDoneReceived);
      RunWriterDone(m.(writersDone := m.writersDone + 1), k - 1);
    }
  }


  /** The coordinator's part of `Write`. `logResult` is WriteLog's answer;
      `parsed` and `mkdirAll` are handed on to `createDestinationPath`. */
  method Write(
    streams: seq<ConfiguredStream>,
    logResult: Option<Error>,
    rootPath: string,
    parsed: Result<DestinationPath.Config, Error>,
    mkdirAll: string -> Option<Error>
  ) returns (trace: seq<Event>)
    // a logging failure is reported first and stops nothing
    ensures logResult.Some? ==> |trace| > 1 && trace[0] == LogErrorSent(logResult.value)
    ensures logResult.None? ==> |trace| > 0 && !trace[0].LogErrorSent?
    // a path failure is reported and Write returns: no headers, no workers,
    // and the error channel is not closed
    ensures var dest := DestinationPath.CreateDestinationPath(rootPath, parsed, mkdirAll);
      dest.err.Some? ==>
        trace[|trace| - 1] == PathErrorSent(dest.err.value) &&
        (forall i :: 0 <= i < |trace| ==> trace[i].LogErrorSent? || trace[i].PathErrorSent?) &&
        Run(Start, trace) == Some(Start.(phase := Aborted))
    // otherwise the whole handshake is accepted and ends finalized, with
    // every started worker's completion signal received, and every writer
    // is given the destination directory
    ensures var dest := DestinationPath.CreateDestinationPath(rootPath, parsed, mkdirAll);
      dest.err.None? ==>
        Run(Start, trace) == Some(Final) &&
        |trace| >= 2 && trace[|trace| - 2..] == [FilesFlushed, ErrorChannelClosed] &&
        WritersGet(trace, dest.path)
  {
    var logged := if logResult.Some? then [LogErrorSent(logResult.value)] else [];
    assert Run(Start, logged) == Some(Start);
    var dest := DestinationPath.CreateDestinationPath(rootPath, parsed, mkdirAll);
    if dest.err.Some? {
      AbortTrace(logged, dest.err.value);
      trace := logged + [PathErrorSent(dest.err.value)];
      return;
    }
    var requested := logged + [HeadersRequested(|streams|)];
    RunSnoc(Start, logged, HeadersRequested(|streams|));
    assert WritersGet(requested, dest.path);
    var added := AddWorkers(dest.path);
    var closing := Shutdown();
    HandshakeAppend(requested, added, closing, dest.path);
    trace := requested + added + closing;
  }

  /** A path failure after the optional log error: the trace holds only
      those reports and leaves the handshake aborted. */
  lemma {:induction false} AbortTrace(logged: seq<Event>, e: Error)
    requires |logged| <= 1 && forall i :: 0 <= i < |logged| ==> logged[i].LogErrorSent?
    ensures var trace := logged + [PathErrorSent(e)];
      && trace[|trace| - 1] == PathErrorSent(e)
      && (forall i :: 0 <= i < |trace| ==> trace[i].LogErrorSent? || trace[i].PathErrorSent?)
      && Run(Start, trace) == Some(Start.(phase := Aborted))
  {
    assert Run(Start, logged) == Some(Start);
    RunSnoc(Start, logged, PathErrorSent(e));
  }

  /** The three segments of a successful `Write` chain into one accepted
      trace that keeps the first segment's first event and the last
      segment's last two. */
  lemma {:induction false} HandshakeAppend(requested: seq<Event>, added: seq<Event>, closing: seq<Event>, path: string)
    requires |requested| > 0 && Run(Start, requested) == Some(Requested) && WritersGet(requested, path)
    requires Run(Requested, added) == Some(Running) && WritersGet(added, path)
    requires Run(Running, closing) == Some(Final)
    requires forall k :: 0 <= k < |closing| ==> !closing[k].WriterWorkerAdded?
    requires |closing| >= 2 && closing[|closing| - 2..] == [FilesFlushed, ErrorChannelClosed]
    ensures var trace := requested + added + closing;
      && Run(Start, trace) == Some(Final)
      && trace[0] == requested[0]
      && trace[|trace| - 2..] == [FilesFlushed, ErrorChannelClosed]
      && WritersGet(trace, path)
  {
    RunAppend(Start, requested, added);
    RunAppend(Start, requested + added, closing);
    WritersGetAppend(requested, added, path);
    WritersGetAppend(requested + added, closing, path);
    var trace := requested + added + closing;
    assert trace[|trace| - 2..] == closing[|closing| - 2..];
  }
  /** Closing the error channel ends the handshake: in an accepted trace it
      can only be the last event. */
  lemma {:induction false} ClosedIsLast(m: Machine, trace: seq<Event>, i: nat)
    requires Run(m, trace).Some?
    requires i < |trace| && trace[i].ErrorChannelClosed?
    ensures i == |trace| - 1
    decreases |trace|
  {
    var m' := Next(m, trace[0]).value;
    if i > 0 {
      ClosedIsLast(m', trace[1..], i - 1);
    }
  }

  /** `Write` as evidently intended by its own note that every channel but
      the record channel must be closed: a path failure, too, ends by
      closing the error channel, so every return path closes it last. */
  method WriteClosingOnAbort(
    streams: seq<ConfiguredStream>,
    logResult: Option<Error>,
    rootPath: string,
    parsed: Result<DestinationPath.Config, Error>,
    mkdirAll: string -> Option<Error>
  ) returns (trace: seq<Event>)
    // on every path the error channel is closed, and closed last
    ensures |trace| > 0 && trace[|trace| - 1] == ErrorChannelClosed
    ensures forall i :: 0 <= i < |trace| - 1 ==> !trace[i].ErrorChannelClosed?
    // a path failure: reported, then the error channel closed; nothing else
    ensures var dest := DestinationPath.CreateDestinationPath(rootPath, parsed, mkdirAll);
      dest.err.Some? ==>
        |trace| >= 2 && trace[|trace| - 2] == PathErrorSent(dest.err.value) &&
        (forall i :: 0 <= i < |trace| - 1 ==> trace[i].LogErrorSent? || trace[i].PathErrorSent?) &&
        Run(Start, trace) == Some(Start.(phase := AbortedClosed))
    // otherwise exactly the handshake of `Write`
    ensures var dest := DestinationPath.CreateDestinationPath(rootPath, parsed, mkdirAll);
      dest.err.None? ==> Run(Start, trace) == Some(Final) && WritersGet(trace, dest.path)
  {
    trace := Write(streams, logResult, rootPath, parsed, mkdirAll);
    var dest := DestinationPath.CreateDestinationPath(rootPath, parsed, mkdirAll);
    if dest.err.Some? {
      RunSnoc(Start, trace, ErrorChannelClosed);
      trace := trace + [ErrorChannelClosed];
    } else {
      assert trace[|trace| - 2] == FilesFlushed;
      assert forall i :: 0 <= i < |trace| - 1 ==> !trace[i].ErrorChannelClosed? by {
        forall i | 0 <= i < |trace| - 1
          ensures !trace[i].ErrorChannelClosed?
        {
          if trace[i].ErrorChannelClosed? {
            ClosedIsLast(Start, trace, i);
          }
        }
      }
    }
  }


  /** The row queue seen from its producers: header sends still to make,
      marshal workers still live, completion signals the coordinator has
      taken, whether the queue is closed, and whether a send hit the
      closed queue (a Go runtime panic). */
  datatype RowQueue = RowQueue(
    headersPending: nat,
    marshalLive: nat,
    doneReceived: nat,
    closed: bool,
    crashed: bool)

  datatype QueueEvent =
    | HeaderSend     // the ExtractHeaders goroutine sends one header row
    | DataSend       // a live marshal worker sends one data row
    | MarshalExit    // a marshal worker signals completion and returns
    | CloseQueue     // the coordinator closes the row queue

  /** The queue when `Write` has started its goroutines. */
  function QueueStart(streams: seq<ConfiguredStream>): RowQueue {
    RowQueue(|streams|, MarshalerWorkers, 0, false, false)
  }

  /** A send: onto an open queue it is delivered, onto a closed one it
      panics. Shared by both versions of the close guard below. */
  function Send(q: RowQueue): RowQueue {
    if q.closed then q.(crashed := true) else q
  }

  /** The queue's transitions with the close guard as written: the
      coordinator waits for the marshal workers' signals only. */
  function QueueNextAsWritten(q: RowQueue, e: QueueEvent): Option<RowQueue>
  {
    if q.crashed then None
    else match e
      case HeaderSend =>
        if q.headersPending > 0 then Some(Send(q).(headersPending := q.headersPending - 1)) else None
      case DataSend =>
        if q.marshalLive > 0 then Some(Send(q)) else None
      case MarshalExit =>
        if q.marshalLive > 0
        then Some(q.(marshalLive := q.marshalLive - 1, doneReceived := q.doneReceived + 1))
        else None
      case CloseQueue =>
        if !q.closed && q.doneReceived == MarshalerWorkers then Some(q.(closed := true)) else None
  }

  function RunQueueAsWritten(q: RowQueue, schedule: seq<QueueEvent>): Option<RowQueue>
    decreases |schedule|
  {
    if |schedule| == 0 then Some(q)
    else match QueueNextAsWritten(q, schedule[0])
      case None => None
      case Some(q') => RunQueueAsWritten(q', schedule[1..])
  }

  /** The counterexample: with an empty record feed and one configured
      stream, the marshal workers all finish before any writer has taken the
      header row; the coordinator closes the queue and the pending header
      send panics. */
  lemma {:induction false} AsWrittenHeaderSendAfterClose(stream: ConfiguredStream)
    ensures var schedule := [MarshalExit, MarshalExit, MarshalExit, MarshalExit, CloseQueue, HeaderSend];
      var r := RunQueueAsWritten(QueueStart([stream]), schedule);
      r.Some? && r.value.crashed
  {
  }

  /** The corrected guard: the header goroutine is joined like a producer,
      so the queue closes only once every header is sent and every marshal
      worker has signalled. */
  function QueueNext(q: RowQueue, e: QueueEvent): Option<RowQueue>
  {
    if q.crashed then None
    else match e
      case HeaderSend =>
        if q.headersPending > 0 then Some(Send(q).(headersPending := q.headersPending - 1)) else None
      case DataSend =>
        if q.marshalLive > 0 then Some(Send(q)) else None
      case MarshalExit =>
        if q.marshalLive > 0
        then Some(q.(marshalLive := q.marshalLive - 1, doneReceived := q.doneReceived + 1))
        else None
      case CloseQueue =>
        if !q.closed && q.doneReceived == MarshalerWorkers && q.headersPending == 0
        then Some(q.(closed := true))
        else None
  }

  function RunQueue(q: RowQueue, schedule: seq<QueueEvent>): Option<RowQueue>
    decreases |schedule|
  {
    if |schedule| == 0 then Some(q)
    else match QueueNext(q, schedule[0])
      case None => None
      case Some(q') => RunQueue(q', schedule[1..])
  }

  /** The producer invariant: live workers plus signals taken is the pool
      size, and a closed queue has no producer left. */
  ghost predicate QueueInv(q: RowQueue) {
    && !q.crashed
    && q.marshalLive + q.doneReceived == MarshalerWorkers
    && (q.closed ==> q.headersPending == 0 && q.marshalLive == 0)
  }

  /** With the corrected guard no schedule, however the goroutines
      interleave, ever sends on the closed queue. */
  lemma {:induction false} RunQueueNeverCrashes(q: RowQueue, schedule: seq<QueueEvent>)
    requires QueueInv(q)
    requires RunQueue(q, schedule).Some?
    ensures QueueInv(RunQueue(q, schedule).value)
    ensures !RunQueue(q, schedule).value.crashed
    decreases |schedule|
  {
    if |schedule| > 0 {
      RunQueueNeverCrashes(QueueNext(q, schedule[0]).value, schedule[1..]);
    }
  }

  /** The corrected guard still lets the queue close: from the start, the
      headers can be sent, the marshal workers signal, and the queue closes. */
  lemma {:induction false} QueueCanClose(streams: seq<ConfiguredStream>)
    ensures QueueInv(QueueStart(streams))
    ensures var drain := seq(|streams|, _ => HeaderSend) +
                         [MarshalExit, MarshalExit, MarshalExit, MarshalExit, CloseQueue];
      var r := RunQueue(QueueStart(streams), drain);
      r.Some? && r.value.closed && !r.value.crashed
  {
    var headers := seq(|streams|, _ => HeaderSend);
    var tail := [MarshalExit, MarshalExit, MarshalExit, MarshalExit, CloseQueue];
    HeadersDrain(QueueStart(streams), |streams|, tail);
  }

  /** Sending `n` pending headers onto an open queue leaves none pending. */
  lemma {:induction false} HeadersDrain(q: RowQueue, n: nat, tail: seq<QueueEvent>)
    requires !q.crashed && !q.closed && q.headersPending == n
    ensures RunQueue(q, seq(n, _ => HeaderSend) + tail) == RunQueue(q.(headersPending := 0), tail)
    decreases n
  {
    if n > 0 {
      var s := seq(n, _ => HeaderSend) + tail;
      assert s[0] == HeaderSend;
      assert s[1..] == seq(n - 1, _ => HeaderSend) + tail;
      HeadersDrain(q.(headersPending := n - 1), n - 1, tail);
    } else {
      assert seq(n, _ => HeaderSend) + tail == tail;
    }
  }

  /** And no reachable state is stuck before the close: from any state that
      keeps the producer invariant with the queue still open, sending the
      pending headers and taking the remaining marshal signals closes the
      queue without a crash. */
  lemma {:induction false} QueueCanCloseFrom(q: RowQueue)
    requires QueueInv(q) && !q.closed
    ensures var drain := seq(q.headersPending, _ => HeaderSend) +
                         (seq(q.marshalLive, _ => MarshalExit) + [CloseQueue]);
      var r := RunQueue(q, drain);
      r.Some? && r.value.closed && !r.value.crashed && QueueInv(r.value)
  {
    var exits := seq(q.marshalLive, _ => MarshalExit) + [CloseQueue];
    HeadersDrain(q, q.headersPending, exits);
    var q1 := q.(headersPending := 0);
    MarshalsDrain(q1, q1.marshalLive, [CloseQueue]);
  }

  /** Taking `n` marshal signals from `n` live workers on an open queue
      leaves none live and every signal received. */
  lemma {:induction false} MarshalsDrain(q: RowQueue, n: nat, tail: seq<QueueEvent>)
    requires !q.crashed && !q.closed && q.marshalLive == n
    ensures RunQueue(q, seq(n, _ => MarshalExit) + tail) ==
      RunQueue(q.(marshalLive := 0, doneReceived := q.doneReceived + n), tail)
    decreases n
  {
    if n > 0 {
      var s := seq(n, _ => MarshalExit) + tail;
      assert s[0] == MarshalExit;
      assert s[1..] == seq(n - 1, _ => MarshalExit) + tail;
      MarshalsDrain(q.(marshalLive := n - 1, doneReceived := q.doneReceived + 1), n - 1, tail);
    } else {
      assert seq(n, _ => MarshalExit) + tail == tail;
    }
  }
}
