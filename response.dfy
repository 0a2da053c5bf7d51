/** The response half of RPC over plain pub/sub: a service answers with the
    correlation pair it received, unchanged, and every client on the shared
    response topic keeps only the responses that carry its own writer GUID. */
module Response {
  import opened Common
  import opened Payload
  import opened Entities

  /** The result of a raw take of at most one sample (max_samples 1). */
  datatype TakeOutcome = NoData | TakeFailed | Took(sample: Wire, info: SampleInfo)

  /** The argument checks take_response makes before it writes *taken. */
  predicate ResponseArgsValid(client: Client?, response: bool, takenSlot: bool)
    reads client
  {
    client != null && client.identifier == Implementation && response && takenSlot
  }

  /** take_response gets as far as creating its sample sequences: a client
      record with a reader and a type support. */
  predicate SequencesReached(client: Client?, response: bool, takenSlot: bool)
    reads client, if client != null then {client.data} else {}
  {
    && ResponseArgsValid(client, response, takenSlot)
    && client.data != null
    && client.data.endpoints.reader
    && client.data.hasTypeSupport
  }

  /** take_response gets as far as taking from the response reader: the
      three sample sequences are allocated too. */
  predicate TakeReached(client: Client?, response: bool, takenSlot: bool, vendor: Vendor)
    reads client, if client != null then {client.data} else {}
  {
    && SequencesReached(client, response, takenSlot)
    && vendor(CreateDataSeq) && vendor(CreateSampleInfoSeq) && vendor(CreateSizeSeq)
  }

  /** The three sequences take_response creates for a raw take. */
  datatype TakeSequence = DataValues | SampleInfos | SampleSizes

  /** rmw_take_response.  At most one sample is taken.  *taken is written
      false right after the argument checks and becomes true exactly when the
      sample is valid, deserialises, and its embedded GUID byte-equals the
      client's own writer GUID; then the header receives the embedded pair, the
      source timestamp in nanoseconds and a zero received timestamp.  No data,
      invalid data and another client's response are all OK with taken false
      and the header untouched; a failed take or deserialisation is an error.
      The loan is returned after every take, and every sequence created is
      deleted once on every path, including a failed creation of a later one. */
  method TakeResponse(client: Client?, response: bool, takenSlot: bool, header: ServiceInfoHeader,
                      vendor: Vendor, take: TakeOutcome)
    returns (ret: RetCode, taken: Option<bool>, headerOut: ServiceInfoHeader, responseOut: Option<Message>,
             loanReturned: bool, freed: seq<TakeSequence>)
    ensures taken.Some? <==> ResponseArgsValid(client, response, takenSlot)
    ensures !TakeReached(client, response, takenSlot, vendor) ==>
      ret == Error && taken != Some(true) && headerOut == header && responseOut == None
    ensures TakeReached(client, response, takenSlot, vendor) && !take.Took? ==>
      && ret == (if take.NoData? then Ok else Error)
      && taken == Some(false) && headerOut == header && responseOut == None
    ensures TakeReached(client, response, takenSlot, vendor) && take.Took? ==>
      var decoded := if take.info.validData then Decode(take.sample) else None;
      && (ret == Ok <==> !take.info.validData || decoded.Some?)
      && ret in {Ok, Error}
      && responseOut == (if decoded.Some? then Some(decoded.value.body) else None)
      && (taken == Some(true) <==> decoded.Some? && decoded.value.guid == client.data.writerGuid)
      && (taken == Some(true) ==>
            headerOut == ServiceInfoHeader(
              NanosecondsOf(take.info.sourceTimestamp), 0,
              RequestId(decoded.value.guid, decoded.value.sequence)))
      && (taken != Some(true) ==> headerOut == header)
    ensures loanReturned <==> TakeReached(client, response, takenSlot, vendor)
    ensures DataValues in freed <==> SequencesReached(client, response, takenSlot) && vendor(CreateDataSeq)
    ensures SampleInfos in freed <==>
      SequencesReached(client, response, takenSlot) && vendor(CreateDataSeq) && vendor(CreateSampleInfoSeq)
    ensures SampleSizes in freed <==> TakeReached(client, response, takenSlot, vendor)
    ensures forall i, j :: 0 <= i < j < |freed| ==> freed[i] != freed[j]
  {
    headerOut, responseOut, taken := header, None, None;
    loanReturned, freed := false, [];
    if client == null {
      return Error, taken, headerOut, responseOut, loanReturned, freed;
    }
    if client.identifier != Implementation {
      return Error, taken, headerOut, responseOut, loanReturned, freed;
    }
    if !response {
      return Error, taken, headerOut, responseOut, loanReturned, freed;
    }
    if !takenSlot {
      return Error, taken, headerOut, responseOut, loanReturned, freed;
    }
    taken := Some(false);
    var info := client.data;
    if info == null {
      return Error, taken, headerOut, responseOut, loanReturned, freed;
    }
    if !info.endpoints.reader {
      return Error, taken, headerOut, responseOut, loanReturned, freed;
    }
    if !info.hasTypeSupport {
      return Error, taken, headerOut, responseOut, loanReturned, freed;
    }
    if !vendor(CreateDataSeq) {
      return Error, taken, headerOut, responseOut, loanReturned, freed;
    }
    if !vendor(CreateSampleInfoSeq) {
      return Error, taken, headerOut, responseOut, loanReturned, [DataValues];
    }
    if !vendor(CreateSizeSeq) {
      return Error, taken, headerOut, responseOut, loanReturned, [DataValues, SampleInfos];
    }

    // Every path from the take on returns the loan and deletes all three.
    loanReturned, freed := true, [DataValues, SampleInfos, SampleSizes];
    match take {
      case NoData =>
        ret := Ok;
      case TakeFailed =>
        ret := Error;
      case Took(sample, sampleInfo) =>
        ret := Ok;
        if sampleInfo.validData {
          var decoded := Decode(sample);
          if decoded.None? {
            ret := Error;
          } else {
            responseOut := Some(decoded.value.body);
            if SameGuid(info.writerGuid, decoded.value.guid) {
              headerOut := ServiceInfoHeader(
                NanosecondsOf(sampleInfo.sourceTimestamp), 0,
                RequestId(decoded.value.guid, decoded.value.sequence));
              taken := Some(true);
            }
          }
        }
    }
  }

  /** The checks send_response passes before allocating the payload. */
  predicate SendResponseReady(service: Service?, response: Option<Message>)
    reads service, if service != null then {service.data} else {}
  {
    && service != null
    && service.identifier == Implementation
    && response.Some?
    && service.data != null
    && service.data.endpoints.writer
    && service.data.hasTypeSupport
  }

  /** rmw_send_response.  The payload carries the request header's sequence
      number and writer GUID verbatim, so the service never alters the
      correlation pair; a serialise or write failure is an error, and the
      payload is freed exactly once on every path after its allocation. */
  method SendResponse(service: Service?, header: RequestId, response: Option<Message>, vendor: Vendor)
    returns (ret: RetCode, written: Option<Wire>, payload: seq<BufferEvent>)
    ensures ret == Ok <==> SendResponseReady(service, response) && vendor(AllocPayload) && vendor(Serialize) && vendor(Write)
    ensures ret != Ok ==> ret == Error
    ensures written.Some? <==> SendResponseReady(service, response) && vendor(AllocPayload) && vendor(Serialize)
    ensures written.Some? ==> written == Some(Encode(response.value, header.sequenceNumber, header.writerGuid))
    ensures payload == if SendResponseReady(service, response) && vendor(AllocPayload) then [Allocated, Freed] else []
  {
    written, payload := None, [];
    if service == null {
      return Error, written, payload;
    }
    if service.identifier != Implementation {
      return Error, written, payload;
    }
    if response.None? {
      return Error, written, payload;
    }
    var info := service.data;
    if info == null {
      return Error, written, payload;
    }
    if !info.endpoints.writer {
      return Error, written, payload;
    }
    if !info.hasTypeSupport {
      return Error, written, payload;
    }
    if !vendor(AllocPayload) {
      return Error, written, payload;
    }
    payload := [Allocated];
    if !vendor(Serialize) {
      payload := payload + [Freed];
      return Error, written, payload;
    }
    written := Some(Encode(response.value, header.sequenceNumber, header.writerGuid));
    if !vendor(Write) {
      payload := payload + [Freed];
      return Error, written, payload;
    }
    payload := payload + [Freed];
    ret := Ok;
  }
}
