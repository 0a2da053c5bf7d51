/** The client lifecycle of the static package: rmw_create_client with its
    `goto fail` unwind, rmw_destroy_client with its error-accumulating
    teardown, and rmw_service_server_is_available. */
module ClientLifecycle {
  import opened Common
  import opened Naming
  import opened Entities
  import opened Lifecycle

  /** What a static type-support handle's data points to: the service
      callbacks, with or without request and response callbacks. */
  datatype ServiceCallbacks = ServiceCallbacks(hasRequestCallbacks: bool, hasResponseCallbacks: bool)

  /** A type-support handle: its data pointer (None when null). */
  type StaticTypeSupports = map<TypeSupportId, Option<ServiceCallbacks>>

  /** The checks rmw_create_client makes before it allocates anything. */
  predicate ClientArgsValid(node: Option<Node>, typeSupports: StaticTypeSupports,
                            serviceName: Option<string>, qos: Option<QosProfile>)
  {
    && node.Some? && node.value.identifier == Implementation
    && serviceName.Some? && |serviceName.value| > 0
    && qos.Some?
    && node.value.info.Some? && node.value.info.value.hasParticipant
    && var found := LookupTypeSupport(typeSupports, StaticC, StaticCpp);
       && found.Some? && found.value.Some?
       && found.value.value.hasRequestCallbacks && found.value.value.hasResponseCallbacks
  }

  /** The resources rmw_create_client acquires, in the order it acquires them. */
  function ClientCreationOrder(requestTopic: string, responseTopic: string): (order: seq<Resource>)
    ensures |order| == 10
    ensures order[0] == InfoRecord && order[1] == RequestTopic(requestTopic)
    ensures order[2] == ResponseTopic(responseTopic) && order[3] == Publisher
    ensures order[4] == DataWriter && order[5] == Subscriber && order[6] == DataReader
    ensures order[7] == ReadCondition && order[8] == Handle && order[9] == NameBuffer
  {
    [InfoRecord, RequestTopic(requestTopic), ResponseTopic(responseTopic),
     Publisher, DataWriter, Subscriber, DataReader, ReadCondition, Handle, NameBuffer]
  }

  /** The client's `fail:` block, given the resources whose pointers are
      non-null.  Each is released only if held: the handle, the writer before
      its publisher, the read condition before its reader before the
      subscriber, and the record last.  Neither topic is deleted and the name
      buffer is not freed (rmw_client_free frees only the handle struct). */
  method UnwindClient(held: set<Resource>) returns (released: seq<Resource>)
    requires DataWriter in held ==> Publisher in held
    requires ReadCondition in held ==> DataReader in held
    requires DataReader in held ==> Subscriber in held
    ensures released == Released(ClientUnwind, held)
  {
    ghost var o := ReleaseOrder(ClientUnwind);
    released := [];
    if Handle in held {
      released := released + [Handle];
    }
    assert released == Kept(o, held, 1);
    if Publisher in held {
      if DataWriter in held {
        released := released + [DataWriter];
      }
      assert released == Kept(o, held, 2);
      released := released + [Publisher];
    } else {
      assert released == Kept(o, held, 2);
    }
    assert released == Kept(o, held, 3);
    if Subscriber in held {
      if DataReader in held {
        if ReadCondition in held {
          released := released + [ReadCondition];
        }
        assert released == Kept(o, held, 4);
        released := released + [DataReader];
      } else {
        assert released == Kept(o, held, 4);
      }
      assert released == Kept(o, held, 5);
      released := released + [Subscriber];
    } else {
      assert released == Kept(o, held, 4);
      assert released == Kept(o, held, 5);
    }
    assert released == Kept(o, held, 6);
    if InfoRecord in held {
      released := released + [InfoRecord];
    }
  }

  /** Whatever prefix of its order a creation acquired, the `fail:` block
      releases exactly the acquired resources other than the two topics and
      the copy of the name: those leak. */
  lemma ClientUnwindLeaksTopicsAndName(requestTopic: string, responseTopic: string, n: nat)
    requires n <= 10
    ensures var created := ClientCreationOrder(requestTopic, responseTopic)[..n];
            forall r :: r in Released(ClientUnwind, set x | x in created) <==>
                          r in created && !r.RequestTopic? && !r.ResponseTopic? && !r.NameBuffer?
  {
    var order := ClientCreationOrder(requestTopic, responseTopic);
    ReleasedWellOrdered(ClientUnwind, set x | x in order[..n]);
    forall r | r in order ensures r in ReleaseOrder(ClientUnwind) <==> !r.RequestTopic? && !r.ResponseTopic? && !r.NameBuffer? {
      var i :| 0 <= i < 10 && order[i] == r;
    }
  }

  /** Creation stops at a prefix of its order, so every acquired endpoint's
      owner was acquired before it. */
  lemma CreatedOwnersHeld(requestTopic: string, responseTopic: string, n: nat)
    requires n <= 10
    ensures var held := set r | r in ClientCreationOrder(requestTopic, responseTopic)[..n];
            && (DataWriter in held ==> Publisher in held)
            && (ReadCondition in held ==> DataReader in held)
            && (DataReader in held ==> Subscriber in held)
  {
    var created := ClientCreationOrder(requestTopic, responseTopic)[..n];
    if n >= 5 {
      assert created[3] == Publisher;
    } else {
      assert forall i :: 0 <= i < n ==> created[i] != DataWriter;
    }
    if n >= 8 {
      assert created[6] == DataReader;
    } else {
      assert forall i :: 0 <= i < n ==> created[i] != ReadCondition;
    }
    if n >= 7 {
      assert created[5] == Subscriber;
    } else {
      assert forall i :: 0 <= i < n ==> created[i] != DataReader;
    }
  }

  /** The acquisition steps of rmw_create_client, from the record to the
      copy of the service name; every failing step jumps to the `fail:`
      block.  The result counts the resources of ClientCreationOrder
      acquired so far. */
  method AcquireClientResources(requestTopic: string, responseTopic: string, vendor: Vendor)
    returns (acquired: nat)
    ensures StopsAfter(ClientCreation, vendor, ClientCreationOrder(requestTopic, responseTopic), acquired)
  {
    var order := ClientCreationOrder(requestTopic, responseTopic);
    acquired := 0;
    if !vendor(AllocInfo) {
      return;
    }
    acquired := 1;
    assert StepsSucceed(ClientCreation, vendor, order, 1);
    if !TopicObtained(vendor, requestTopic) {
      return;
    }
    acquired := 2;
    assert StepsSucceed(ClientCreation, vendor, order, 2);
    if !TopicObtained(vendor, responseTopic) {
      return;
    }
    acquired := 3;
    assert StepsSucceed(ClientCreation, vendor, order, 3);
    if !vendor(DefaultPublisherQos) || !vendor(CreatePublisher) {
      return;
    }
    acquired := 4;
    assert StepsSucceed(ClientCreation, vendor, order, 4);
    if !vendor(FinalizePublisherQos) {
      return;
    }
    if !vendor(DataWriterQos) || !vendor(CreateDataWriter) {
      return;
    }
    acquired := 5;
    assert StepsSucceed(ClientCreation, vendor, order, 5);
    if !vendor(DefaultSubscriberQos) || !vendor(CreateSubscriber) {
      return;
    }
    acquired := 6;
    assert StepsSucceed(ClientCreation, vendor, order, 6);
    if !vendor(FinalizeSubscriberQos) {
      return;
    }
    if !vendor(DataReaderQos) || !vendor(CreateDataReader) {
      return;
    }
    acquired := 7;
    assert StepsSucceed(ClientCreation, vendor, order, 7);
    if !vendor(CreateReadCondition) {
      return;
    }
    acquired := 8;
    assert StepsSucceed(ClientCreation, vendor, order, 8);
    if !vendor(AllocHandle) {
      return;
    }
    acquired := 9;
    assert StepsSucceed(ClientCreation, vendor, order, 9);
    if !vendor(AllocName) {
      return;
    }
    acquired := 10;
    assert StepsSucceed(ClientCreation, vendor, order, 10);
  }

  /** rmw_create_client.  Invalid arguments return null before anything is
      acquired.  Otherwise the resources of ClientCreationOrder are acquired
      until the first vendor failure; on failure the `fail:` block releases
      what it releases of the acquired resources, and
      on success the new client has every endpoint, the caller's writer GUID
      and a sequence counter of 0. */
  method CreateClient(node: Option<Node>, typeSupports: StaticTypeSupports, serviceName: Option<string>,
                      qos: Option<QosProfile>, prefixes: Prefixes, guid: Guid, vendor: Vendor)
    returns (client: Client?, created: seq<Resource>, released: seq<Resource>)
    ensures !ClientArgsValid(node, typeSupports, serviceName, qos) ==>
      client == null && created == [] && released == []
    ensures ClientArgsValid(node, typeSupports, serviceName, qos) ==>
      var avoid := qos.value.avoidRosNamespaceConventions;
      var order := ClientCreationOrder(RequestTopicName(prefixes, serviceName.value, avoid),
                                       ResponseTopicName(prefixes, serviceName.value, avoid));
      && |created| <= |order| && created == order[..|created|] && StopsAfter(ClientCreation, vendor, order, |created|)
      && (client != null <==> |created| == |order| && Settles(ClientCreation, vendor, NameBuffer))
    ensures ClientArgsValid(node, typeSupports, serviceName, qos) && client == null ==>
      released == Released(ClientUnwind, set r | r in created)
    ensures client != null ==>
      && released == []
      && fresh(client) && fresh(client.data)
      && client.identifier == Implementation
      && client.serviceName == serviceName
      && client.data.endpoints == AllEndpoints
      && client.data.hasTypeSupport
      && client.data.sequenceNumber == 0
      && client.data.writerGuid == guid
  {
    client, created, released := null, [], [];
    if node.None? || node.value.identifier != Implementation {
      return;
    }
    if serviceName.None? || |serviceName.value| == 0 {
      return;
    }
    if qos.None? {
      return;
    }
    if node.value.info.None? || !node.value.info.value.hasParticipant {
      return;
    }
    var typeSupport := LookupTypeSupport(typeSupports, StaticC, StaticCpp);
    if typeSupport.None? || typeSupport.value.None? {
      return;
    }
    var callbacks := typeSupport.value.value;
    if !callbacks.hasRequestCallbacks || !callbacks.hasResponseCallbacks {
      return;
    }

    var requestTopic := RequestTopicName(prefixes, serviceName.value, qos.value.avoidRosNamespaceConventions);
    var responseTopic := ResponseTopicName(prefixes, serviceName.value, qos.value.avoidRosNamespaceConventions);
    client, created, released := CreateClientEntities(requestTopic, responseTopic, serviceName, guid, vendor);
  }

  /** The part of rmw_create_client after the argument checks, once the
      topic names are built: acquire, then either unwind or hand out the new
      client. */
  method CreateClientEntities(requestTopic: string, responseTopic: string, serviceName: Option<string>,
                              guid: Guid, vendor: Vendor)
    returns (client: Client?, created: seq<Resource>, released: seq<Resource>)
    ensures var order := ClientCreationOrder(requestTopic, responseTopic);
      && |created| <= |order| && created == order[..|created|] && StopsAfter(ClientCreation, vendor, order, |created|)
      && (client != null <==> |created| == |order| && Settles(ClientCreation, vendor, NameBuffer))
    ensures client == null ==> released == Released(ClientUnwind, set r | r in created)
    ensures client != null ==>
      && released == []
      && fresh(client) && fresh(client.data)
      && client.identifier == Implementation
      && client.serviceName == serviceName
      && client.data.endpoints == AllEndpoints
      && client.data.hasTypeSupport
      && client.data.sequenceNumber == 0
      && client.data.writerGuid == guid
  {
    var order := ClientCreationOrder(requestTopic, responseTopic);
    var acquired := AcquireClientResources(requestTopic, responseTopic, vendor);
    created, released := order[..acquired], [];
    if |created| < |order| || !vendor(TriggerGraphGuard) {
      CreatedOwnersHeld(requestTopic, responseTopic, acquired);
      released := UnwindClient(set r | r in created);
      return null, created, released;
    }

    var info := new ClientInfo(AllEndpoints, true, 0, guid);
    client := new Client(Implementation, info, serviceName);
  }

  /** The arguments rmw_destroy_client accepts. */
  predicate DestroyClientArgsValid(node: Option<Node>, client: Client?)
    reads client
  {
    node.Some? && client != null && client.identifier == Implementation
  }

  /** The publisher chain of rmw_destroy_client: the writer, then the
      publisher, both only under a present publisher; a writer without its
      publisher is an error. */
  method TeardownRequestSide(e: Endpoints, vendor: Vendor, ghost held: set<Resource>)
    returns (deleted: seq<Resource>, failed: bool)
    requires e.participant
    requires DataWriter in held <==> TeardownDeletes(e, DataWriter)
    requires Publisher in held <==> TeardownDeletes(e, Publisher)
    ensures deleted == Kept(ReleaseOrder(ClientDestroy), held, 2)
    ensures failed <==>
      || (!e.publisher && e.writer)
      || (TeardownDeletes(e, DataWriter) && !vendor(Delete(DataWriter)))
      || (TeardownDeletes(e, Publisher) && !vendor(Delete(Publisher)))
  {
    ghost var o := ReleaseOrder(ClientDestroy);
    deleted, failed := [], false;
    if e.publisher {
      if e.writer {
        deleted := deleted + [DataWriter];
        if !vendor(Delete(DataWriter)) {
          failed := true;
        }
      }
      assert deleted == Kept(o, held, 1);
      deleted := deleted + [Publisher];
      if !vendor(Delete(Publisher)) {
        failed := true;
      }
    } else {
      KeptSkips(o, held, 0, 2);
      if e.writer {
        failed := true;
      }
    }
  }

  /** The subscriber chain: the read condition, then the reader, then the
      subscriber, each only under its present owner; an endpoint whose owner
      is missing is an error. */
  method TeardownResponseSide(e: Endpoints, vendor: Vendor, ghost held: set<Resource>, ghost before: seq<Resource>)
    returns (deleted: seq<Resource>, failed: bool)
    requires e.participant
    requires before == Kept(ReleaseOrder(ClientDestroy), held, 2)
    requires ReadCondition in held <==> TeardownDeletes(e, ReadCondition)
    requires DataReader in held <==> TeardownDeletes(e, DataReader)
    requires Subscriber in held <==> TeardownDeletes(e, Subscriber)
    ensures before + deleted == Kept(ReleaseOrder(ClientDestroy), held, 5)
    ensures failed <==>
      || (e.subscriber && !e.reader && e.readCondition)
      || (!e.subscriber && e.reader)
      || (TeardownDeletes(e, ReadCondition) && !vendor(Delete(ReadCondition)))
      || (TeardownDeletes(e, DataReader) && !vendor(Delete(DataReader)))
      || (TeardownDeletes(e, Subscriber) && !vendor(Delete(Subscriber)))
  {
    ghost var o := ReleaseOrder(ClientDestroy);
    deleted, failed := [], false;
    if e.subscriber {
      if e.reader {
        if e.readCondition {
          deleted := deleted + [ReadCondition];
          if !vendor(Delete(ReadCondition)) {
            failed := true;
          }
        }
        assert before + deleted == Kept(o, held, 3);
        deleted := deleted + [DataReader];
        if !vendor(Delete(DataReader)) {
          failed := true;
        }
      } else {
        KeptSkips(o, held, 2, 4);
        if e.readCondition {
          failed := true;
        }
      }
      assert before + deleted == Kept(o, held, 4);
      deleted := deleted + [Subscriber];
      if !vendor(Delete(Subscriber)) {
        failed := true;
      }
    } else {
      KeptSkips(o, held, 2, 5);
      if e.reader {
        failed := true;
      }
    }
  }

  /** The teardown chain of rmw_destroy_client over a client record, one
      side after the other; nothing is deleted without a participant. */
  method TeardownClientEntities(e: Endpoints, vendor: Vendor, ghost named: bool)
    returns (deleted: seq<Resource>, failed: bool)
    ensures deleted == Kept(ReleaseOrder(ClientDestroy), DestroyHeld(ClientDestroy, Some(e), named), 5)
    ensures failed <==> ChainBroken(e) || DeleteFails(e, vendor)
  {
    ghost var held := DestroyHeld(ClientDestroy, Some(e), named);
    if e.participant {
      var requestFailed, responseFailed, responseSide;
      deleted, requestFailed := TeardownRequestSide(e, vendor, held);
      responseSide, responseFailed := TeardownResponseSide(e, vendor, held, deleted);
      deleted, failed := deleted + responseSide, requestFailed || responseFailed;
    } else {
      KeptSkips(ReleaseOrder(ClientDestroy), held, 0, 5);
      deleted, failed := [], e.publisher || e.subscriber;
    }
  }

  /** The endpoints behind a client handle, None when it has no record. */
  function ClientData(client: Client): Option<Endpoints>
    reads client, client.data
  {
    if client.data == null then None else Some(client.data.endpoints)
  }

  /** rmw_destroy_client.  With valid arguments it tears down every entity
      its chain allows, one chain after the other and without stopping
      early, deletes the record, frees the name buffer (when present) and
      always frees the handle; teardown errors are recorded, but the return
      value is the graph guard trigger's, which overwrites them.  The node's
      record is dereferenced unchecked, hence the precondition. */
  method DestroyClient(node: Option<Node>, client: Client?, vendor: Vendor)
    returns (ret: RetCode, released: seq<Resource>, teardownFailed: bool)
    requires DestroyClientArgsValid(node, client) ==> node.value.info.Some?
    modifies client
    ensures !old(DestroyClientArgsValid(node, client)) ==>
      ret == Error && released == [] && !teardownFailed && (client != null ==> unchanged(client))
    ensures old(DestroyClientArgsValid(node, client)) ==>
      && ret == (if vendor(TriggerGraphGuard) then Ok else Error)
      && client.data == null
      && released == Released(ClientDestroy, DestroyHeld(ClientDestroy, old(ClientData(client)), old(client.serviceName).Some?))
      && (old(client.data) == null ==> !teardownFailed)
      && (old(client.data) != null ==>
            var e := old(client.data.endpoints);
            teardownFailed <==> ChainBroken(e) || DeleteFails(e, vendor))
  {
    released, teardownFailed := [], false;
    if node.None? || client == null || client.identifier != Implementation {
      return Error, released, teardownFailed;
    }
    var info := client.data;
    ghost var o := ReleaseOrder(ClientDestroy);
    ghost var held := DestroyHeld(ClientDestroy, ClientData(client), client.serviceName.Some?);
    if info != null {
      released, teardownFailed := TeardownClientEntities(info.endpoints, vendor, client.serviceName.Some?);
      released := released + [InfoRecord];
      client.data := null;
      assert released == Kept(o, held, 6);
      if client.serviceName.Some? {
        released := released + [NameBuffer];
      }
    } else {
      KeptSkips(o, held, 0, 7);
    }
    assert released == Kept(o, held, 7);
    released := released + [Handle];
    ret := if vendor(TriggerGraphGuard) then Ok else Error;
  }

  /** The checks rmw_service_server_is_available makes before it writes
      *is_available. */
  predicate AvailabilityArgsValid(node: Option<Node>, client: Client?, slot: bool)
    reads client, if client != null then {client.data} else {}
  {
    && node.Some? && node.value.identifier == Implementation
    && client != null && client.identifier == Implementation
    && slot
    && node.value.info.Some?
    && client.data != null
    && client.data.endpoints.writer
    && client.data.endpoints.reader
  }

  /** rmw_service_server_is_available.  *is_available is written false once
      the checks pass, and true only when the request writer has a matched
      subscription and then the response reader a matched publication; the
      second query is made only when the first count is positive. */
  method ServiceServerIsAvailable(node: Option<Node>, client: Client?, slot: bool, vendor: Vendor,
                                  matchedSubscriptions: nat, matchedPublications: nat)
    returns (ret: RetCode, isAvailable: Option<bool>, queried: seq<Call>)
    ensures !AvailabilityArgsValid(node, client, slot) ==> ret == Error && isAvailable == None && queried == []
    ensures AvailabilityArgsValid(node, client, slot) ==> isAvailable.Some?
    ensures isAvailable == Some(true) <==>
      && AvailabilityArgsValid(node, client, slot)
      && vendor(CreateHandleSeq(0)) && vendor(MatchedSubscriptions) && matchedSubscriptions > 0
      && vendor(CreateHandleSeq(1)) && vendor(MatchedPublications) && matchedPublications > 0
    ensures ret == Ok <==>
      && AvailabilityArgsValid(node, client, slot)
      && vendor(CreateHandleSeq(0)) && vendor(MatchedSubscriptions)
      && (matchedSubscriptions > 0 ==> vendor(CreateHandleSeq(1)) && vendor(MatchedPublications))
    ensures ret != Ok ==> ret == Error
    ensures MatchedPublications in queried ==> MatchedSubscriptions in queried && matchedSubscriptions > 0
  {
    isAvailable, queried := None, [];
    if node.None? || node.value.identifier != Implementation {
      return Error, isAvailable, queried;
    }
    if client == null || client.identifier != Implementation {
      return Error, isAvailable, queried;
    }
    if !slot {
      return Error, isAvailable, queried;
    }
    if node.value.info.None? {
      return Error, isAvailable, queried;
    }
    var info := client.data;
    if info == null || !info.endpoints.writer || !info.endpoints.reader {
      return Error, isAvailable, queried;
    }

    isAvailable := Some(false);

    if !vendor(CreateHandleSeq(0)) {
      return Error, isAvailable, queried;
    }
    queried := queried + [MatchedSubscriptions];
    if !vendor(MatchedSubscriptions) {
      return Error, isAvailable, queried;
    }
    if matchedSubscriptions == 0 {
      return Ok, isAvailable, queried;
    }

    if !vendor(CreateHandleSeq(1)) {
      return Error, isAvailable, queried;
    }
    queried := queried + [MatchedPublications];
    if !vendor(MatchedPublications) {
      return Error, isAvailable, queried;
    }
    if matchedPublications == 0 {
      return Ok, isAvailable, queried;
    }

    isAvailable := Some(true);
    ret := Ok;
  }

  /** A client that was created and then destroyed has had every resource
      it acquired released except its two topics, and the destroy releases
      nothing it did not acquire. */
  lemma ClientCreateDestroyLeavesTopics(requestTopic: string, responseTopic: string)
    ensures var order := ClientCreationOrder(requestTopic, responseTopic);
            var destroyed := Released(ClientDestroy, DestroyHeld(ClientDestroy, Some(AllEndpoints), true));
            && (forall r :: r in destroyed ==> r in order)
            && (forall r :: r in order ==> (r in destroyed <==> !r.RequestTopic? && !r.ResponseTopic?))
  {
    DestroyCompleteReleasesAll(ClientDestroy);
  }
}
