/** Request/response correlation end to end: the sequence numbers a client
    hands out, and a request travelling to a service and its response
    travelling back, accepted by the client that sent it and by no other. */
module Correlation {
  import opened Common
  import opened Payload
  import opened Entities
  import opened Lifecycle
  import opened Request
  import opened Response

  /** The vendor calls a send and a take make all succeed. */
  predicate Healthy(vendor: Vendor)
  {
    && vendor(AllocPayload) && vendor(Serialize) && vendor(Write)
    && vendor(CreateDataSeq) && vendor(CreateSampleInfoSeq) && vendor(CreateSizeSeq)
  }

  /** The first request of a newly created client (counter 0) gets id 1. */
  method FirstRequestIsOne(guid: Guid, request: Message, vendor: Vendor) returns (id: Option<int>)
    requires Healthy(vendor)
    ensures id == Some(1)
  {
    var info := new ClientInfo(AllEndpoints, true, 0, guid);
    var client := new Client(Implementation, info, Some("service"));
    var ret, written, payload;
    ret, id, written, payload := SendRequest(client, Some(request), vendor);
  }

  /** Two successful sends on one client return consecutive, hence strictly
      increasing, ids; and a failed send in between still consumes one. */
  method SuccessiveRequests(client: Client, request: Message, vendor: Vendor, failing: Vendor)
    returns (first: Option<int>, lost: Option<int>, second: Option<int>)
    requires SendReady(client, Some(request))
    requires Healthy(vendor) && failing(AllocPayload) && !failing(Write)
    modifies client.data
    ensures first.Some? && lost.None? && second.Some?
    ensures second.value == first.value + 2 && first.value < second.value
  {
    var ret, written, payload;
    ret, first, written, payload := SendRequest(client, Some(request), vendor);
    ret, lost, written, payload := SendRequest(client, Some(request), failing);
    ret, second, written, payload := SendRequest(client, Some(request), vendor);
  }

  /** A service that finds an encoded request in its queue takes it, sees
      the embedded (GUID, sequence) pair and the body, and answers with a
      payload that carries the same pair. */
  method ServeRequest(wire: Wire, reply: Message, vendor: Vendor)
    returns (served: RequestId, received: Option<Message>, response: Option<Wire>)
    requires Healthy(vendor) && wire.Encoded?
    ensures served == RequestId(wire.embedded.guid, wire.embedded.sequence)
    ensures received == Some(wire.embedded.body)
    ensures response == Some(Encode(reply, wire.embedded.sequence, wire.embedded.guid))
  {
    var info := new ServiceInfo(AllEndpoints, true);
    var service := new Service(Implementation, info, Some("service"));
    info.Push(QueueEntry(Some(wire), true));
    var ret, taken, freed, payload;
    ret, taken, served, received, freed := TakeRequest(service, true, true, RequestId(wire.embedded.guid, 0));
    ret, response, payload := SendResponse(service, served, Some(reply), vendor);
  }

  /** A client that takes an encoded, valid response accepts it exactly when
      the embedded GUID is its own, and then reports the embedded pair. */
  method ClientAccepts(client: Client, wire: Wire, vendor: Vendor, stamp: Time, blank: ServiceInfoHeader)
    returns (ret: RetCode, accepted: Option<bool>, answer: ServiceInfoHeader, body: Option<Message>)
    requires client.identifier == Implementation && client.data != null
    requires client.data.endpoints.reader && client.data.hasTypeSupport
    requires Healthy(vendor) && wire.Encoded?
    ensures ret == Ok && body == Some(wire.embedded.body)
    ensures accepted == Some(wire.embedded.guid == client.data.writerGuid)
    ensures accepted == Some(false) ==> answer == blank
    ensures accepted == Some(true) ==>
      && answer.requestId == RequestId(wire.embedded.guid, wire.embedded.sequence)
      && answer.sourceTimestamp == NanosecondsOf(stamp) && answer.receivedTimestamp == 0
  {
    var loanReturned, freed;
    ret, accepted, answer, body, loanReturned, freed :=
      TakeResponse(client, true, true, blank, vendor, Took(wire, SampleInfo(true, Alive, None, stamp)));
    if wire.embedded.guid != client.data.writerGuid {
      assert accepted != Some(true);
      assert !accepted.value;
    }
  }

  /** A request sent by a client, served, and its response taken back: the
      service sees the client's (GUID, id) pair and the request body, the
      client accepts the response under the same pair, and a client with
      another GUID on the same response topic does not accept it. */
  method RoundTrip(guid: Guid, otherGuid: Guid, request: Message, reply: Message, vendor: Vendor, stamp: Time)
    returns (id: Option<int>, served: RequestId, received: Option<Message>,
             accepted: Option<bool>, answer: ServiceInfoHeader, answerBody: Option<Message>,
             otherRet: RetCode, otherAccepted: Option<bool>)
    requires Healthy(vendor) && guid != otherGuid
    ensures id.Some?
    ensures served == RequestId(guid, id.value) && received == Some(request)
    ensures accepted == Some(true) && answer.requestId == served && answerBody == Some(reply)
    ensures answer.sourceTimestamp == NanosecondsOf(stamp) && answer.receivedTimestamp == 0
    ensures otherRet == Ok && otherAccepted == Some(false)
  {
    var info := new ClientInfo(AllEndpoints, true, 0, guid);
    var client := new Client(Implementation, info, Some("service"));
    var ret, written, payload;
    ret, id, written, payload := SendRequest(client, Some(request), vendor);

    var response;
    served, received, response := ServeRequest(written.value, reply, vendor);

    var blank := ServiceInfoHeader(0, 0, RequestId(otherGuid, 0));
    ret, accepted, answer, answerBody := ClientAccepts(client, response.value, vendor, stamp, blank);

    var otherInfo := new ClientInfo(AllEndpoints, true, 0, otherGuid);
    var other := new Client(Implementation, otherInfo, Some("service"));
    assert response.value.embedded.guid == guid != otherGuid == other.data.writerGuid;
    var otherAnswer, otherBody;
    otherRet, otherAccepted, otherAnswer, otherBody := ClientAccepts(other, response.value, vendor, stamp, blank);
  }
}
