/** What travels on the request and response topics, and the headers the
    correlation fields are copied into.  The serialized layout belongs to the
    type support, so a payload is modelled abstractly: either it carries a
    message body together with the embedded (sequence number, writer GUID)
    pair, or it cannot be deserialized. */
module Payload {
  import opened Common

  /** A ROS request or response message, kept opaque. */
  type Message = seq<bv8>

  /** What serialize_request / serialize_response embed in a payload. */
  datatype Embedded = Embedded(body: Message, sequence: int, guid: Guid)

  datatype Wire = Encoded(embedded: Embedded) | Undecodable(bytes: seq<bv8>)

  /** serialize_*: the body followed by the correlation pair. */
  function Encode(body: Message, sequence: int, guid: Guid): (w: Wire)
    ensures w.Encoded?
  {
    Encoded(Embedded(body, sequence, guid))
  }

  /** deserialize_*: fails on a payload that was not produced by Encode. */
  function Decode(w: Wire): (d: Option<Embedded>)
    ensures d.Some? <==> w.Encoded?
  {
    match w
    case Encoded(e) => Some(e)
    case Undecodable(_) => None
  }

  lemma DecodeEncode(body: Message, sequence: int, guid: Guid)
    ensures Decode(Encode(body, sequence, guid)) == Some(Embedded(body, sequence, guid))
  {
  }

  lemma EncodeDecode(w: Wire)
    requires Decode(w).Some?
    ensures Encode(Decode(w).value.body, Decode(w).value.sequence, Decode(w).value.guid) == w
  {
  }

  /** rmw_request_id_t: the correlation pair as the application sees it. */
  datatype RequestId = RequestId(writerGuid: Guid, sequenceNumber: int)

  /** rmw_service_info_t: the header take_response fills in. */
  datatype ServiceInfoHeader = ServiceInfoHeader(
    sourceTimestamp: int,
    receivedTimestamp: int,
    requestId: RequestId)

  type Int32 = x: int | -0x8000_0000 <= x < 0x8000_0000
  type UInt32 = x: int | 0 <= x < 0x1_0000_0000

  const Int64Min: int := -0x8000_0000_0000_0000
  const Int64Max: int := 0x7fff_ffff_ffff_ffff
  const NanosPerSecond: int := 1_000_000_000

  /** A DDS Time_t: signed 32-bit seconds and unsigned 32-bit nanoseconds. */
  datatype Time = Time(sec: Int32, nanosec: UInt32)

  datatype InstanceState = Alive | NotAliveDisposed | NotAliveNoWriters

  /** The fields of a DDS SampleInfo the core reads.  instanceHandle is None
      for a null handle; otherwise it points at the instance's 16-byte GUID. */
  datatype SampleInfo = SampleInfo(
    validData: bool,
    instanceState: InstanceState,
    instanceHandle: Option<Guid>,
    sourceTimestamp: Time)

  /** The 64-bit nanosecond count take_response stores as source_timestamp.
      It never overflows int64, and for a normalised time (nanosec below one
      second) seconds and nanoseconds can be read back from it. */
  function NanosecondsOf(t: Time): (ns: int)
    ensures Int64Min <= ns <= Int64Max
    ensures t.nanosec < NanosPerSecond ==> ns / NanosPerSecond == t.sec && ns % NanosPerSecond == t.nanosec
  {
    t.sec * NanosPerSecond + t.nanosec
  }

  /** What happens to a temporary payload buffer. */
  datatype BufferEvent = Allocated | Freed
}
