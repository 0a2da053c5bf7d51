/** The heap objects behind a client and a service: the rmw handles and the
    GurumddsClientInfo / GurumddsServiceInfo records they point to. */
module Entities {
  import opened Common
  import opened Payload

  /** GurumddsClientInfo: the client's DDS entities, its writer GUID and its
      request sequence counter. */
  class ClientInfo {
    var endpoints: Endpoints
    var hasTypeSupport: bool
    var sequenceNumber: int
    var writerGuid: Guid

    constructor (endpoints: Endpoints, hasTypeSupport: bool, sequenceNumber: int, writerGuid: Guid)
      ensures this.endpoints == endpoints && this.hasTypeSupport == hasTypeSupport
      ensures this.sequenceNumber == sequenceNumber && this.writerGuid == writerGuid
    {
      this.endpoints := endpoints;
      this.hasTypeSupport := hasTypeSupport;
      this.sequenceNumber := sequenceNumber;
      this.writerGuid := writerGuid;
    }
  }

  /** rmw_client_t. */
  class Client {
    var identifier: Identifier
    var data: ClientInfo?
    var serviceName: Option<string>

    constructor (identifier: Identifier, data: ClientInfo?, serviceName: Option<string>)
      ensures this.identifier == identifier && this.data == data && this.serviceName == serviceName
    {
      this.identifier := identifier;
      this.data := data;
      this.serviceName := serviceName;
    }
  }

  /** One request the service's reader callback has queued: the loaned
      sample (None when null) and whether its SampleInfo says valid_data. */
  datatype QueueEntry = QueueEntry(sample: Option<Wire>, validData: bool)

  /** A buffer owned by a popped queue entry. */
  datatype EntryBuffer = SampleBuffer | InfoBuffer

  /** The buffers a popped entry owns: its sample when non-null, and its
      SampleInfo. */
  function OwnedBuffers(e: QueueEntry): (b: seq<EntryBuffer>)
    ensures InfoBuffer in b && (SampleBuffer in b <==> e.sample.Some?)
  {
    (if e.sample.Some? then [SampleBuffer] else []) + [InfoBuffer]
  }

  /** GurumddsServiceInfo: the service's DDS entities and its FIFO queue of
      received requests with the guard condition that signals it. */
  class ServiceInfo {
    var endpoints: Endpoints
    var hasTypeSupport: bool
    var messageQueue: seq<QueueEntry>
    var queueGuard: bool

    /** The queue is non-empty exactly when its guard condition is set. */
    predicate GuardTracksQueue()
      reads this
    {
      queueGuard <==> |messageQueue| > 0
    }

    constructor (endpoints: Endpoints, hasTypeSupport: bool)
      ensures this.endpoints == endpoints && this.hasTypeSupport == hasTypeSupport
      ensures messageQueue == [] && !queueGuard && GuardTracksQueue()
    {
      this.endpoints := endpoints;
      this.hasTypeSupport := hasTypeSupport;
      messageQueue := [];
      queueGuard := false;
    }

    /** The reader callback that fills the queue: it appends under the queue
        mutex and sets the guard condition. */
    method Push(e: QueueEntry)
      modifies this
      ensures messageQueue == old(messageQueue) + [e] && queueGuard
      ensures endpoints == old(endpoints) && hasTypeSupport == old(hasTypeSupport)
      ensures GuardTracksQueue()
    {
      messageQueue := messageQueue + [e];
      queueGuard := true;
    }
  }

  /** rmw_service_t. */
  class Service {
    var identifier: Identifier
    var data: ServiceInfo?
    var serviceName: Option<string>

    constructor (identifier: Identifier, data: ServiceInfo?, serviceName: Option<string>)
      ensures this.identifier == identifier && this.data == data && this.serviceName == serviceName
    {
      this.identifier := identifier;
      this.data := data;
      this.serviceName := serviceName;
    }
  }
}
