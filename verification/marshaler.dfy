/** The marshal stage (pkg/record_marshaler.go, twin pkg/csv/marshaler.go):
    record to row conversion, the header pass, and one worker's loop. */
module Marshaler {
  import opened Wrappers
  import opened Rows
  import Decimal

  /** `marshal`: the row keeps the record's stream name and carries exactly
      three fields, the identifier verbatim, the emitted-at time as decimal
      text and the payload's textual form. It never fails. */
  function Marshal(rec: Record, render: Payload -> string): (r: Result<Row, Error>)
    ensures r.Ok?
    ensures r.value.streamName == rec.stream
    ensures |r.value.data| == 3
    ensures r.value.data[0] == rec.id
    ensures Decimal.ParseDecimal(r.value.data[1]) == Some(rec.emittedAt as int)
    ensures r.value.data[2] == render(rec.data)
  {
    Decimal.ItoaRoundTrip(rec.emittedAt as int);
    Ok(Row(rec.stream, [rec.id, Decimal.Itoa(rec.emittedAt as int), render(rec.data)]))
  }

  /** The emitted-at field determines the timestamp and is determined by
      it: two records share that field exactly when they share the
      timestamp (the rendering's shape is `Decimal.ItoaCanonical`). */
  lemma {:induction false} MarshalEmittedAtCanonical(a: Record, b: Record, render: Payload -> string)
    ensures Marshal(a, render).value.data[1] == Marshal(b, render).value.data[1]
      <==> a.emittedAt == b.emittedAt
  {
    if Marshal(a, render).value.data[1] == Marshal(b, render).value.data[1] {
      Decimal.ItoaInjective(a.emittedAt as int, b.emittedAt as int);
    }
  }

  /** `ExtractHeaders`: one header row per configured stream, in catalog
      order, each named after its stream and labelled with the three fixed
      column names. The rows are the sends the header goroutine makes. */
  method ExtractHeaders(streams: seq<ConfiguredStream>) returns (sent: seq<Row>)
    ensures |sent| == |streams|
    ensures forall i :: 0 <= i < |sent| ==> sent[i].streamName == streams[i].name
    ensures forall i :: 0 <= i < |sent| ==> sent[i].data == HeaderLabels
  {
    sent := [];
    for i := 0 to |streams|
      invariant |sent| == i
      invariant forall j :: 0 <= j < i ==> sent[j].streamName == streams[j].name
      invariant forall j :: 0 <= j < i ==> sent[j].data == HeaderLabels
    {
      sent := sent + [HeaderRow(streams[i].name)];
    }
  }

  /** What one iteration of a marshal worker's loop does. */
  datatype WorkerStep =
    | Done                      // input closed: one done signal, then exit
    | Forwarded(err: Error)     // marshal failed: error to the error channel
    | Sent(row: Row)            // marshal succeeded: row to the row queue

  /** One loop iteration of `AddWorker`'s goroutine; `input` is None when
      the record channel is closed and drained. `marshal` is the conversion
      in use (the model's `Marshal` in the program). */
  function Step(input: Option<Record>, marshal: Record -> Result<Row, Error>): (o: WorkerStep)
    ensures o.Done? <==> input.None?
    ensures o.Forwarded? <==> input.Some? && marshal(input.value).Err?
    ensures o.Sent? ==> input.Some? && marshal(input.value) == Ok(o.row)
    ensures o.Forwarded? ==> marshal(input.value) == Err(o.err)
  {
    match input
    case None => Done
    case Some(rec) =>
      match marshal(rec)
      case Err(e) => Forwarded(e)
      case Ok(r) => Sent(r)
  }

  /** With the program's own conversion a worker never forwards an error:
      a closed input gives the done signal, anything else exactly one row. */
  lemma {:induction false} StepWithMarshal(input: Option<Record>, render: Payload -> string)
    ensures var o := Step(input, rec => Marshal(rec, render));
      (input.None? ==> o.Done?) &&
      (input.Some? ==> o == Sent(Marshal(input.value, render).value))
  {
  }

  /** Reference definition: the rows a worker sends for a feed, one per
      record that marshals successfully, in feed order. */
  function OkRows(feed: seq<Record>, marshal: Record -> Result<Row, Error>): seq<Row>
  {
    if |feed| == 0 then []
    else
      var rest := OkRows(feed[..|feed| - 1], marshal);
      match marshal(feed[|feed| - 1])
      case Ok(r) => rest + [r]
      case Err(_) => rest
  }

  /** Reference definition: the errors a worker forwards for a feed. */
  function Errors(feed: seq<Record>, marshal: Record -> Result<Row, Error>): seq<Error>
  {
    if |feed| == 0 then []
    else
      var rest := Errors(feed[..|feed| - 1], marshal);
      match marshal(feed[|feed| - 1])
      case Ok(_) => rest
      case Err(e) => rest + [e]
  }

  /** One worker consuming `feed` and then the close of the record channel:
      exactly one done signal, one row per successfully marshaled record,
      one forwarded error per failure, nothing lost and nothing doubled. */
  method RunWorker(feed: seq<Record>, marshal: Record -> Result<Row, Error>)
    returns (sent: seq<Row>, forwarded: seq<Error>, doneSignals: nat)
    ensures doneSignals == 1
    ensures sent == OkRows(feed, marshal)
    ensures forwarded == Errors(feed, marshal)
    ensures |sent| + |forwarded| == |feed|
  {
    sent, forwarded, doneSignals := [], [], 0;
    var i := 0;
    while true
      invariant 0 <= i <= |feed|
      invariant doneSignals == 0
      invariant sent == OkRows(feed[..i], marshal)
      invariant forwarded == Errors(feed[..i], marshal)
      invariant |sent| + |forwarded| == i
      decreases |feed| - i
    {
      var input := if i < |feed| then Some(feed[i]) else None;
      var step := Step(input, marshal);
      if step.Done? {
        doneSignals := doneSignals + 1;
        assert feed[..i] == feed;
        return;
      }
      assert feed[..i + 1][..i] == feed[..i];
      if step.Forwarded? {
        forwarded := forwarded + [step.err];
      } else {
        sent := sent + [step.row];
      }
      i := i + 1;
    }
  }

  /** With the program's conversion, every record of the feed yields its row:
      the rows sent are the marshaled records, in order. */
  lemma {:induction false} OkRowsWithMarshal(feed: seq<Record>, render: Payload -> string)
    ensures var rows := OkRows(feed, rec => Marshal(rec, render));
      |rows| == |feed| &&
      forall i :: 0 <= i < |feed| ==> rows[i] == Marshal(feed[i], render).value
    ensures Errors(feed, rec => Marshal(rec, render)) == []
  {
    if |feed| > 0 {
      OkRowsWithMarshal(feed[..|feed| - 1], render);
    }
  }
}
