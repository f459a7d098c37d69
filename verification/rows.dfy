/** The values that flow through the pipeline: incoming records, the rows
    derived from them, and the catalog entries that name the streams. */
module Rows {

  /** Column labels of the header row. They are constants of the runtime's
      protocol package, which is not part of this model; the values follow
      the Airbyte raw-table convention, and no property depends on them. */
  const AirbyteAbId: string := "_airbyte_ab_id"
  const AirbyteEmittedAt: string := "_airbyte_emitted_at"
  const AirbyteData: string := "_airbyte_data"

  /** The three labels of every header row, in column order. */
  const HeaderLabels: seq<string> := [AirbyteAbId, AirbyteEmittedAt, AirbyteData]

  /** Go's `int64`, the type of a record's emitted-at timestamp. */
  type Int64 = x: int | -0x8000_0000_0000_0000 <= x < 0x8000_0000_0000_0000

  /** The raw payload of a record. Its textual form comes from a
      serialiser outside the model, passed to the marshaler as `render`. */
  datatype Payload = Payload(raw: seq<bv8>)

  /** An incoming record message: the stream it belongs to and its raw part
      (identifier, emission time, payload). */
  datatype Record = Record(stream: string, id: string, emittedAt: Int64, data: Payload)

  /** A row bound for one stream's file: the stream name and the fields of
      one output line. */
  datatype Row = Row(streamName: string, data: seq<string>)

  /** One entry of the configured catalog; only its stream name is used. */
  datatype ConfiguredStream = ConfiguredStream(name: string)

  /** The row a header pass produces for one stream. */
  function HeaderRow(streamName: string): Row
  {
    Row(streamName, HeaderLabels)
  }

  /** The rows of `rows` that belong to stream `s`, counted. */
  function CountStream(rows: seq<Row>, s: string): (n: nat)
    ensures n <= |rows|
  {
    if |rows| == 0 then 0
    else (if rows[0].streamName == s then 1 else 0) + CountStream(rows[1..], s)
  }
}
