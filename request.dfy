/** The request half of RPC over plain pub/sub: a client publishes each
    request with a fresh sequence number and its own writer GUID embedded;
    a service pops requests from its FIFO queue and recovers that pair. */
module Request {
  import opened Common
  import opened Payload
  import opened Entities

  /** The checks send_request passes before it touches the counter: a
      client of this implementation, a request, a client record, a request
      writer and a type support. */
  predicate SendReady(client: Client?, request: Option<Message>)
    reads client, if client != null then {client.data} else {}
  {
    && client != null
    && client.identifier == Implementation
    && request.Some?
    && client.data != null
    && client.data.endpoints.writer
    && client.data.hasTypeSupport
  }

  /** rmw_send_request.  The counter is pre-incremented once the payload is
      allocated and is not rolled back when serialising or writing fails;
      the sequence id is reported only on success, and it is the new counter
      value.  The payload written carries exactly (new counter, writer GUID). */
  method SendRequest(client: Client?, request: Option<Message>, vendor: Vendor)
    returns (ret: RetCode, sequenceId: Option<int>, written: Option<Wire>, payload: seq<BufferEvent>)
    modifies if client != null && client.data != null then {client.data} else {}
    ensures !old(SendReady(client, request)) ==> ret == Error && written == None && payload == []
    ensures client != null && client.data != null ==>
      && client.data.endpoints == old(client.data.endpoints)
      && client.data.hasTypeSupport == old(client.data.hasTypeSupport)
      && client.data.writerGuid == old(client.data.writerGuid)
      && client.data.sequenceNumber ==
           if old(SendReady(client, request)) && vendor(AllocPayload)
           then old(client.data.sequenceNumber) + 1
           else old(client.data.sequenceNumber)
    ensures ret == Ok <==> old(SendReady(client, request)) && vendor(AllocPayload) && vendor(Serialize) && vendor(Write)
    ensures ret != Ok ==> ret == Error && sequenceId == None
    ensures ret == Ok ==> sequenceId == Some(client.data.sequenceNumber)
    ensures written.Some? <==> old(SendReady(client, request)) && vendor(AllocPayload) && vendor(Serialize)
    ensures written.Some? ==>
      written == Some(Encode(request.value, client.data.sequenceNumber, client.data.writerGuid))
    ensures payload == if old(SendReady(client, request)) && vendor(AllocPayload) then [Allocated, Freed] else []
  {
    sequenceId, written, payload := None, None, [];
    if client == null {
      return Error, sequenceId, written, payload;
    }
    if client.identifier != Implementation {
      return Error, sequenceId, written, payload;
    }
    if request.None? {
      return Error, sequenceId, written, payload;
    }
    var info := client.data;
    if info == null {
      return Error, sequenceId, written, payload;
    }
    if !info.endpoints.writer {
      return Error, sequenceId, written, payload;
    }
    if !info.hasTypeSupport {
      return Error, sequenceId, written, payload;
    }
    if !vendor(AllocPayload) {
      return Error, sequenceId, written, payload;
    }
    payload := [Allocated];
    info.sequenceNumber := info.sequenceNumber + 1;
    if !vendor(Serialize) {
      payload := payload + [Freed];
      return Error, sequenceId, written, payload;
    }
    written := Some(Encode(request.value, info.sequenceNumber, info.writerGuid));
    if !vendor(Write) {
      payload := payload + [Freed];
      return Error, sequenceId, written, payload;
    }
    sequenceId := Some(info.sequenceNumber);
    payload := payload + [Freed];
    ret := Ok;
  }

  /** The argument checks take_request makes before it writes *taken. */
  predicate TakeArgsValid(service: Service?, request: bool, takenSlot: bool)
    reads service
  {
    service != null && service.identifier == Implementation && request && takenSlot
  }

  /** take_request gets as far as popping the queue. */
  predicate PopReached(service: Service?, request: bool, takenSlot: bool)
    reads service, if service != null then {service.data} else {}
  {
    && TakeArgsValid(service, request, takenSlot)
    && service.data != null
    && service.data.endpoints.reader
    && service.data.hasTypeSupport
  }

  /** rmw_take_request.  *taken is written false before any other work and
      becomes true only for a valid, deserialisable entry.  Exactly the front
      entry is removed, the guard is cleared iff the queue is left empty, the
      entry's buffers are released on every path after the pop, and the header
      receives the embedded (writer GUID, sequence number) pair.  Popping an
      empty queue is undefined in the source, hence the precondition. */
  method TakeRequest(service: Service?, request: bool, takenSlot: bool, header: RequestId)
    returns (ret: RetCode, taken: Option<bool>, headerOut: RequestId, requestOut: Option<Message>,
             freed: seq<EntryBuffer>)
    requires PopReached(service, request, takenSlot) ==> |service.data.messageQueue| > 0
    modifies if service != null && service.data != null then {service.data} else {}
    ensures taken.Some? <==> TakeArgsValid(service, request, takenSlot)
    ensures !old(PopReached(service, request, takenSlot)) ==>
      && ret == Error && taken != Some(true)
      && headerOut == header && requestOut == None && freed == []
      && (service != null && service.data != null ==> unchanged(service.data))
    ensures old(PopReached(service, request, takenSlot)) ==>
      var e := old(service.data.messageQueue[0]);
      var decoded := if e.sample.Some? then Decode(e.sample.value) else None;
      && service.data.messageQueue == old(service.data.messageQueue[1..])
      && service.data.queueGuard == (|service.data.messageQueue| > 0 && old(service.data.queueGuard))
      && service.data.endpoints == old(service.data.endpoints)
      && service.data.hasTypeSupport == old(service.data.hasTypeSupport)
      && freed == OwnedBuffers(e)
      && (ret == Ok <==> !e.validData || decoded.Some?)
      && ret in {Ok, Error}
      && (taken == Some(true) <==> e.validData && decoded.Some?)
      && (taken == Some(true) ==>
            headerOut == RequestId(decoded.value.guid, decoded.value.sequence) &&
            requestOut == Some(decoded.value.body))
      && (taken != Some(true) ==> headerOut == header && requestOut == None)
    ensures service != null && service.data != null && old(service.data.GuardTracksQueue()) ==>
      service.data.GuardTracksQueue()
  {
    headerOut, requestOut, freed, taken := header, None, [], None;
    if service == null {
      return Error, taken, headerOut, requestOut, freed;
    }
    if service.identifier != Implementation {
      return Error, taken, headerOut, requestOut, freed;
    }
    if !request {
      return Error, taken, headerOut, requestOut, freed;
    }
    if !takenSlot {
      return Error, taken, headerOut, requestOut, freed;
    }
    taken := Some(false);
    var info := service.data;
    if info == null {
      return Error, taken, headerOut, requestOut, freed;
    }
    if !info.endpoints.reader {
      return Error, taken, headerOut, requestOut, freed;
    }
    if !info.hasTypeSupport {
      return Error, taken, headerOut, requestOut, freed;
    }

    // Under queue_mutex: pop the front entry, clear the guard when emptied.
    var msg := info.messageQueue[0];
    info.messageQueue := info.messageQueue[1..];
    if |info.messageQueue| == 0 {
      info.queueGuard := false;
    }

    if msg.validData {
      if msg.sample.None? {
        freed := freed + [InfoBuffer];
        return Error, taken, headerOut, requestOut, freed;
      }
      var decoded := Decode(msg.sample.value);
      if decoded.None? {
        freed := freed + [SampleBuffer, InfoBuffer];
        return Error, taken, headerOut, requestOut, freed;
      }
      headerOut := RequestId(decoded.value.guid, decoded.value.sequence);
      requestOut := Some(decoded.value.body);
      taken := Some(true);
    }

    if msg.sample.Some? {
      freed := freed + [SampleBuffer];
    }
    freed := freed + [InfoBuffer];
    ret := Ok;
  }
}
