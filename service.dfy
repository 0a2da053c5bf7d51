/** The service lifecycle: rmw_create_service with its `goto fail` unwind
    (which, unlike the client's, also deletes the topics and the type
    supports) and rmw_destroy_service, whose teardown stops at the first
    error. */
module ServiceLifecycle {
  import opened Common
  import opened Naming
  import opened Entities
  import opened Lifecycle

  /** What create_service_type_name and create_service_metastring derive from
      an introspection type-support handle: the request and response type
      names and metastrings (each empty when derivation fails). */
  datatype IntrospectionService = IntrospectionService(
    requestTypeName: string,
    responseTypeName: string,
    requestMetastring: string,
    responseMetastring: string)

  type IntrospectionTypeSupports = map<TypeSupportId, IntrospectionService>

  /** The checks rmw_create_service makes before it allocates anything: the
      node, the service name, the QoS profile, the node's participant, an
      introspection type support (C first, then C++), and non-empty type
      names and metastrings. */
  predicate ServiceArgsValid(node: Option<Node>, typeSupports: IntrospectionTypeSupports,
                             serviceName: Option<string>, qos: Option<QosProfile>)
  {
    && node.Some? && node.value.identifier == Implementation
    && serviceName.Some? && |serviceName.value| > 0
    && qos.Some?
    && node.value.info.Some? && node.value.info.value.hasParticipant
    && var found := LookupTypeSupport(typeSupports, IntrospectionC, IntrospectionCpp);
       && found.Some?
       && |found.value.requestTypeName| > 0 && |found.value.responseTypeName| > 0
       && |found.value.requestMetastring| > 0 && |found.value.responseMetastring| > 0
  }

  /** The resources rmw_create_service acquires, in the order it acquires
      them: the reader side is built before the writer side. */
  function ServiceCreationOrder(requestTopic: string, responseTopic: string): (order: seq<Resource>)
    ensures |order| == 12
    ensures order[0] == InfoRecord && order[1] == RequestTypeSupport && order[2] == ResponseTypeSupport
    ensures order[3] == RequestTopic(requestTopic) && order[4] == ResponseTopic(responseTopic)
    ensures order[5] == Subscriber && order[6] == DataReader && order[7] == ReadCondition
    ensures order[8] == Publisher && order[9] == DataWriter && order[10] == Handle && order[11] == NameBuffer
  {
    [InfoRecord, RequestTypeSupport, ResponseTypeSupport, RequestTopic(requestTopic), ResponseTopic(responseTopic),
     Subscriber, DataReader, ReadCondition, Publisher, DataWriter, Handle, NameBuffer]
  }

  /** The acquisition steps of rmw_create_service up to both topics; each
      failing step jumps to the `fail:` block. */
  method AcquireServiceTopics(requestTopic: string, responseTopic: string, vendor: Vendor)
    returns (acquired: nat, proceed: bool)
    ensures !proceed ==> StopsAfter(ServiceCreation, vendor, ServiceCreationOrder(requestTopic, responseTopic), acquired)
    ensures proceed ==>
      && acquired == 5
      && StepsSucceed(ServiceCreation, vendor, ServiceCreationOrder(requestTopic, responseTopic), 5)
      && Settles(ServiceCreation, vendor, ResponseTopic(responseTopic))
  {
    var order := ServiceCreationOrder(requestTopic, responseTopic);
    acquired, proceed := 0, false;
    if !vendor(AllocInfo) {
      return;
    }
    acquired := 1;
    assert StepsSucceed(ServiceCreation, vendor, order, 1);
    if !vendor(CreateTypeSupport(true)) {
      return;
    }
    acquired := 2;
    assert StepsSucceed(ServiceCreation, vendor, order, 2);
    if !vendor(RegisterType(true)) {
      return;
    }
    if !vendor(CreateTypeSupport(false)) {
      return;
    }
    acquired := 3;
    assert StepsSucceed(ServiceCreation, vendor, order, 3);
    if !vendor(RegisterType(false)) {
      return;
    }
    if !TopicObtained(vendor, requestTopic) {
      return;
    }
    acquired := 4;
    assert StepsSucceed(ServiceCreation, vendor, order, 4);
    if !vendor(LookupTopic(requestTopic)) && !vendor(FinalizeTopicQos(requestTopic)) {
      return;
    }
    if !TopicObtained(vendor, responseTopic) {
      return;
    }
    acquired := 5;
    assert StepsSucceed(ServiceCreation, vendor, order, 5);
    if !vendor(LookupTopic(responseTopic)) && !vendor(FinalizeTopicQos(responseTopic)) {
      return;
    }
    proceed := true;
  }

  /** The remaining acquisition steps, from the subscriber to the copy of
      the service name, once the first five resources are held and settled. */
  method AcquireServiceEndpoints(requestTopic: string, responseTopic: string, vendor: Vendor)
    returns (acquired: nat)
    requires StepsSucceed(ServiceCreation, vendor, ServiceCreationOrder(requestTopic, responseTopic), 5)
    requires Settles(ServiceCreation, vendor, ResponseTopic(responseTopic))
    ensures StopsAfter(ServiceCreation, vendor, ServiceCreationOrder(requestTopic, responseTopic), acquired)
    ensures acquired >= 5
  {
    var order := ServiceCreationOrder(requestTopic, responseTopic);
    acquired := 5;
    if !vendor(DefaultSubscriberQos) || !vendor(CreateSubscriber) {
      return;
    }
    acquired := 6;
    assert StepsSucceed(ServiceCreation, vendor, order, 6);
    if !vendor(FinalizeSubscriberQos) {
      return;
    }
    if !vendor(DataReaderQos) || !vendor(CreateDataReader) {
      return;
    }
    acquired := 7;
    assert StepsSucceed(ServiceCreation, vendor, order, 7);
    if !vendor(FinalizeDataReaderQos) {
      return;
    }
    if !vendor(CreateReadCondition) {
      return;
    }
    acquired := 8;
    assert StepsSucceed(ServiceCreation, vendor, order, 8);
    if !vendor(DefaultPublisherQos) || !vendor(CreatePublisher) {
      return;
    }
    acquired := 9;
    assert StepsSucceed(ServiceCreation, vendor, order, 9);
    if !vendor(FinalizePublisherQos) {
      return;
    }
    if !vendor(DataWriterQos) || !vendor(CreateDataWriter) {
      return;
    }
    acquired := 10;
    assert StepsSucceed(ServiceCreation, vendor, order, 10);
    if !vendor(FinalizeDataWriterQos) {
      return;
    }
    if !vendor(AllocHandle) {
      return;
    }
    acquired := 11;
    assert StepsSucceed(ServiceCreation, vendor, order, 11);
    if !vendor(AllocName) {
      return;
    }
    acquired := 12;
    assert StepsSucceed(ServiceCreation, vendor, order, 12);
  }

  /** All acquisition steps of rmw_create_service: the result counts the
      resources of ServiceCreationOrder acquired before the first failure. */
  method AcquireServiceResources(requestTopic: string, responseTopic: string, vendor: Vendor)
    returns (acquired: nat)
    ensures StopsAfter(ServiceCreation, vendor, ServiceCreationOrder(requestTopic, responseTopic), acquired)
  {
    var proceed;
    acquired, proceed := AcquireServiceTopics(requestTopic, responseTopic, vendor);
    if proceed {
      acquired := AcquireServiceEndpoints(requestTopic, responseTopic, vendor);
    }
  }

  /** The service's `fail:` block, given the resources whose pointers are
      non-null: the handle, the read condition before its reader before the
      subscriber, the writer before its publisher, then both topics, both
      type supports and the record.  The name buffer is not freed. */
  method UnwindService(requestTopic: string, responseTopic: string, held: set<Resource>)
    returns (released: seq<Resource>)
    requires DataWriter in held ==> Publisher in held
    requires ReadCondition in held ==> DataReader in held
    requires DataReader in held ==> Subscriber in held
    ensures released == Released(ServiceUnwind(requestTopic, responseTopic), held)
  {
    ghost var o := ReleaseOrder(ServiceUnwind(requestTopic, responseTopic));
    released := UnwindServiceEndpoints(held, o);
    if RequestTopic(requestTopic) in held {
      released := released + [RequestTopic(requestTopic)];
    }
    assert released == Kept(o, held, 7);
    if ResponseTopic(responseTopic) in held {
      released := released + [ResponseTopic(responseTopic)];
    }
    assert released == Kept(o, held, 8);
    if RequestTypeSupport in held {
      released := released + [RequestTypeSupport];
    }
    assert released == Kept(o, held, 9);
    if ResponseTypeSupport in held {
      released := released + [ResponseTypeSupport];
    }
    assert released == Kept(o, held, 10);
    if InfoRecord in held {
      released := released + [InfoRecord];
    }
  }

  /** The first part of the `fail:` block: the handle, the subscriber chain
      and the publisher chain. */
  method UnwindServiceEndpoints(held: set<Resource>, ghost o: seq<Resource>) returns (released: seq<Resource>)
    requires |o| == 11
    requires o[0] == Handle && o[1] == ReadCondition && o[2] == DataReader && o[3] == Subscriber
    requires o[4] == DataWriter && o[5] == Publisher
    requires DataWriter in held ==> Publisher in held
    requires ReadCondition in held ==> DataReader in held
    requires DataReader in held ==> Subscriber in held
    ensures released == Kept(o, held, 6)
  {
    released := [];
    if Handle in held {
      released := released + [Handle];
    }
    assert released == Kept(o, held, 1);
    if Subscriber in held {
      if DataReader in held {
        if ReadCondition in held {
          released := released + [ReadCondition];
        }
        assert released == Kept(o, held, 2);
        released := released + [DataReader];
      } else {
        assert released == Kept(o, held, 2);
      }
      assert released == Kept(o, held, 3);
      released := released + [Subscriber];
    } else {
      assert released == Kept(o, held, 2);
      assert released == Kept(o, held, 3);
    }
    assert released == Kept(o, held, 4);
    if Publisher in held {
      if DataWriter in held {
        released := released + [DataWriter];
      }
      assert released == Kept(o, held, 5);
      released := released + [Publisher];
    } else {
      assert released == Kept(o, held, 5);
    }
  }

  /** Whatever prefix of its order a creation acquired, the `fail:` block
      releases every acquired resource except the copy of the name. */
  lemma ServiceUnwindReleasesAllButName(requestTopic: string, responseTopic: string, n: nat)
    requires n <= 12
    ensures var created := ServiceCreationOrder(requestTopic, responseTopic)[..n];
            forall r :: r in Released(ServiceUnwind(requestTopic, responseTopic), set x | x in created) <==>
                          r in created && r != NameBuffer
  {
    var p := ServiceUnwind(requestTopic, responseTopic);
    var order := ServiceCreationOrder(requestTopic, responseTopic);
    ReleasedWellOrdered(p, set x | x in order[..n]);
    forall r | r in order ensures r in ReleaseOrder(p) <==> r != NameBuffer {
      var i :| 0 <= i < 12 && order[i] == r;
    }
  }

  /** Creation stops at a prefix of its order, so every acquired endpoint's
      owner was acquired before it. */
  lemma ServiceCreatedOwnersHeld(requestTopic: string, responseTopic: string, n: nat)
    requires n <= 12
    ensures var held := set r | r in ServiceCreationOrder(requestTopic, responseTopic)[..n];
            && (DataWriter in held ==> Publisher in held)
            && (ReadCondition in held ==> DataReader in held)
            && (DataReader in held ==> Subscriber in held)
  {
    var created := ServiceCreationOrder(requestTopic, responseTopic)[..n];
    if n >= 10 {
      assert created[8] == Publisher;
    } else {
      assert forall i :: 0 <= i < n ==> created[i] != DataWriter;
    }
    if n >= 8 {
      assert created[6] == DataReader;
    } else {
      assert forall i :: 0 <= i < n ==> created[i] != ReadCondition;
    }
    if n >= 7 {
      assert created[5] == Subscriber;
    } else {
      assert forall i :: 0 <= i < n ==> created[i] != DataReader;
    }
  }

  /** rmw_create_service.  Invalid arguments return null before anything is
      acquired.  Otherwise the resources of ServiceCreationOrder are acquired
      until the first vendor failure; on failure the `fail:` block releases
      what it releases of the acquired resources, and on success the two
      temporary type supports are deleted and the new service has every
      endpoint and an empty request queue. */
  method CreateService(node: Option<Node>, typeSupports: IntrospectionTypeSupports, serviceName: Option<string>,
                       qos: Option<QosProfile>, prefixes: Prefixes, vendor: Vendor)
    returns (service: Service?, created: seq<Resource>, released: seq<Resource>)
    ensures !ServiceArgsValid(node, typeSupports, serviceName, qos) ==>
      service == null && created == [] && released == []
    ensures ServiceArgsValid(node, typeSupports, serviceName, qos) ==>
      var avoid := qos.value.avoidRosNamespaceConventions;
      var requestTopic := RequestTopicName(prefixes, serviceName.value, avoid);
      var responseTopic := ResponseTopicName(prefixes, serviceName.value, avoid);
      var order := ServiceCreationOrder(requestTopic, responseTopic);
      && |created| <= |order| && created == order[..|created|] && StopsAfter(ServiceCreation, vendor, order, |created|)
      && (service != null <==> |created| == |order| && Settles(ServiceCreation, vendor, NameBuffer))
      && (service == null ==>
            released == Released(ServiceUnwind(requestTopic, responseTopic), set r | r in created))
    ensures service != null ==>
      && released == [RequestTypeSupport, ResponseTypeSupport]
      && fresh(service) && fresh(service.data)
      && service.identifier == Implementation
      && service.serviceName == serviceName
      && service.data.endpoints == AllEndpoints
      && service.data.hasTypeSupport
      && service.data.messageQueue == [] && !service.data.queueGuard
  {
    service, created, released := null, [], [];
    if node.None? || node.value.identifier != Implementation {
      return;
    }
    if serviceName.None? || |serviceName.value| == 0 {
      return;
    }
    if qos.None? {
      return;
    }
    if node.value.info.None? || !node.value.info.value.hasParticipant {
      return;
    }
    var typeSupport := LookupTypeSupport(typeSupports, IntrospectionC, IntrospectionCpp);
    if typeSupport.None? {
      return;
    }
    var names := typeSupport.value;
    if |names.requestTypeName| == 0 || |names.responseTypeName| == 0 {
      return;
    }
    var requestTopic := RequestTopicName(prefixes, serviceName.value, qos.value.avoidRosNamespaceConventions);
    var responseTopic := ResponseTopicName(prefixes, serviceName.value, qos.value.avoidRosNamespaceConventions);
    if |names.requestMetastring| == 0 || |names.responseMetastring| == 0 {
      return;
    }
    service, created, released := CreateServiceEntities(requestTopic, responseTopic, serviceName, vendor);
  }

  /** The part of rmw_create_service after the argument checks: acquire,
      then either unwind or delete the temporary type supports and hand out
      the new service. */
  method CreateServiceEntities(requestTopic: string, responseTopic: string, serviceName: Option<string>,
                               vendor: Vendor)
    returns (service: Service?, created: seq<Resource>, released: seq<Resource>)
    ensures var order := ServiceCreationOrder(requestTopic, responseTopic);
      && |created| <= |order| && created == order[..|created|] && StopsAfter(ServiceCreation, vendor, order, |created|)
      && (service != null <==> |created| == |order| && Settles(ServiceCreation, vendor, NameBuffer))
    ensures service == null ==> released == Released(ServiceUnwind(requestTopic, responseTopic), set r | r in created)
    ensures service != null ==>
      && released == [RequestTypeSupport, ResponseTypeSupport]
      && fresh(service) && fresh(service.data)
      && service.identifier == Implementation
      && service.serviceName == serviceName
      && service.data.endpoints == AllEndpoints
      && service.data.hasTypeSupport
      && service.data.messageQueue == [] && !service.data.queueGuard
  {
    var order := ServiceCreationOrder(requestTopic, responseTopic);
    var acquired := AcquireServiceResources(requestTopic, responseTopic, vendor);
    created, released := order[..acquired], [];
    if |created| < |order| || !vendor(TriggerGraphGuard) {
      ServiceCreatedOwnersHeld(requestTopic, responseTopic, acquired);
      released := UnwindService(requestTopic, responseTopic, set r | r in created);
      return null, created, released;
    }

    released := [RequestTypeSupport, ResponseTypeSupport];
    var info := new ServiceInfo(AllEndpoints, true);
    service := new Service(Implementation, info, serviceName);
  }

  /** The inconsistencies each chain of a teardown can find under a present
      participant, and the deletions each chain makes that can fail. */
  predicate SubscriberChainBroken(e: Endpoints)
  {
    (e.subscriber && !e.reader && e.readCondition) || (!e.subscriber && e.reader)
  }

  predicate PublisherChainBroken(e: Endpoints)
  {
    !e.publisher && e.writer
  }

  predicate SubscriberChainDeleteFails(e: Endpoints, vendor: Vendor)
  {
    || (TeardownDeletes(e, ReadCondition) && !vendor(Delete(ReadCondition)))
    || (TeardownDeletes(e, DataReader) && !vendor(Delete(DataReader)))
    || (TeardownDeletes(e, Subscriber) && !vendor(Delete(Subscriber)))
  }

  predicate PublisherChainDeleteFails(e: Endpoints, vendor: Vendor)
  {
    || (TeardownDeletes(e, DataWriter) && !vendor(Delete(DataWriter)))
    || (TeardownDeletes(e, Publisher) && !vendor(Delete(Publisher)))
  }

  /** The deletions a failed teardown of rmw_destroy_service made over the
      held set: none when the participant is missing or the subscriber chain
      is inconsistent (it is checked before anything is deleted); the whole
      subscriber chain when that succeeded and the publisher chain is
      inconsistent; otherwise the deletions in teardown order up to and
      including the first that failed. */
  predicate FailedTeardown(e: Endpoints, vendor: Vendor, held: set<Resource>, deleted: seq<Resource>)
  {
    if !e.participant || SubscriberChainBroken(e) then deleted == []
    else if !SubscriberChainDeleteFails(e, vendor) && PublisherChainBroken(e) then
      deleted == Kept(ReleaseOrder(ServiceDestroy), held, 3)
    else
      && deleted <= Kept(ReleaseOrder(ServiceDestroy), held, 5)
      && |deleted| > 0 && DeletionsSucceed(deleted[..|deleted| - 1], vendor)
      && !vendor(Delete(deleted[|deleted| - 1]))
  }

  /** A failed teardown's deletions are determined by the endpoints, the
      vendor outcomes and the held set. */
  lemma FailedTeardownUnique(e: Endpoints, vendor: Vendor, held: set<Resource>, a: seq<Resource>, b: seq<Resource>)
    requires FailedTeardown(e, vendor, held, a) && FailedTeardown(e, vendor, held, b)
    ensures a == b
  {
    if e.participant && !SubscriberChainBroken(e) && !(!SubscriberChainDeleteFails(e, vendor) && PublisherChainBroken(e)) {
      var k := Kept(ReleaseOrder(ServiceDestroy), held, 5);
      assert a == k[..|a|] && b == k[..|b|];
      if |a| != |b| {
        assert false;
      }
    }
  }

  /** With a participant, the teardown fails exactly when one of its two
      chains does. */
  lemma ChainFailsSplit(e: Endpoints, vendor: Vendor)
    requires e.participant
    ensures ChainBroken(e) <==> SubscriberChainBroken(e) || PublisherChainBroken(e)
    ensures DeleteFails(e, vendor) <==> SubscriberChainDeleteFails(e, vendor) || PublisherChainDeleteFails(e, vendor)
  {
  }

  /** The subscriber chain of rmw_destroy_service: the read condition, then
      the reader, then the subscriber, each only under its present owner.
      The first failed deletion, or an endpoint whose owner is missing,
      returns at once. */
  method TeardownReaderSide(e: Endpoints, vendor: Vendor, ghost held: set<Resource>)
    returns (deleted: seq<Resource>, failed: bool)
    requires e.participant
    requires ReadCondition in held <==> TeardownDeletes(e, ReadCondition)
    requires DataReader in held <==> TeardownDeletes(e, DataReader)
    requires Subscriber in held <==> TeardownDeletes(e, Subscriber)
    ensures !failed ==> deleted == Kept(ReleaseOrder(ServiceDestroy), held, 3) && DeletionsSucceed(deleted, vendor)
    ensures deleted <= Kept(ReleaseOrder(ServiceDestroy), held, 3)
    ensures |deleted| > 0 ==> DeletionsSucceed(deleted[..|deleted| - 1], vendor)
    ensures failed <==> SubscriberChainBroken(e) || SubscriberChainDeleteFails(e, vendor)
    ensures failed && !SubscriberChainBroken(e) ==> |deleted| > 0 && !vendor(Delete(deleted[|deleted| - 1]))
    ensures SubscriberChainBroken(e) ==> deleted == []
  {
    ghost var o := ReleaseOrder(ServiceDestroy);
    deleted := [];
    if e.subscriber {
      if e.reader {
        if e.readCondition {
          deleted := deleted + [ReadCondition];
          if !vendor(Delete(ReadCondition)) {
            KeptPrefix(o, held, 1, 3);
            return deleted, true;
          }
        }
        assert deleted == Kept(o, held, 1);
        deleted := deleted + [DataReader];
        if !vendor(Delete(DataReader)) {
          KeptPrefix(o, held, 2, 3);
          return deleted, true;
        }
      } else if e.readCondition {
        return deleted, true;
      } else {
        KeptSkips(o, held, 0, 2);
      }
      assert deleted == Kept(o, held, 2);
      deleted := deleted + [Subscriber];
      if !vendor(Delete(Subscriber)) {
        return deleted, true;
      }
    } else if e.reader {
      return deleted, true;
    } else {
      KeptSkips(o, held, 0, 3);
    }
    failed := false;
  }

  /** The publisher chain of rmw_destroy_service, run once the subscriber
      chain has succeeded: the writer, then the publisher, returning at the
      first error. */
  method TeardownWriterSide(e: Endpoints, vendor: Vendor, ghost held: set<Resource>, ghost before: seq<Resource>)
    returns (deleted: seq<Resource>, failed: bool)
    requires e.participant
    requires before == Kept(ReleaseOrder(ServiceDestroy), held, 3)
    requires DataWriter in held <==> TeardownDeletes(e, DataWriter)
    requires Publisher in held <==> TeardownDeletes(e, Publisher)
    ensures !failed ==> before + deleted == Kept(ReleaseOrder(ServiceDestroy), held, 5) && DeletionsSucceed(deleted, vendor)
    ensures before + deleted <= Kept(ReleaseOrder(ServiceDestroy), held, 5)
    ensures |deleted| > 0 ==> DeletionsSucceed(deleted[..|deleted| - 1], vendor)
    ensures failed <==> PublisherChainBroken(e) || PublisherChainDeleteFails(e, vendor)
    ensures failed && !PublisherChainBroken(e) ==> |deleted| > 0 && !vendor(Delete(deleted[|deleted| - 1]))
    ensures PublisherChainBroken(e) ==> deleted == []
  {
    ghost var o := ReleaseOrder(ServiceDestroy);
    deleted := [];
    if e.publisher {
      if e.writer {
        deleted := deleted + [DataWriter];
        if !vendor(Delete(DataWriter)) {
          KeptPrefix(o, held, 4, 5);
          return deleted, true;
        }
      }
      assert before + deleted == Kept(o, held, 4);
      deleted := deleted + [Publisher];
      if !vendor(Delete(Publisher)) {
        return deleted, true;
      }
    } else if e.writer {
      KeptPrefix(o, held, 3, 5);
      return deleted, true;
    } else {
      KeptSkips(o, held, 3, 5);
    }
    failed := false;
  }

  /** Both chains of rmw_destroy_service under a present participant: the
      subscriber chain, then (if it succeeded) the publisher chain. */
  method TeardownServiceChains(e: Endpoints, vendor: Vendor, ghost held: set<Resource>)
    returns (deleted: seq<Resource>, failed: bool)
    requires e.participant
    requires ReadCondition in held <==> TeardownDeletes(e, ReadCondition)
    requires DataReader in held <==> TeardownDeletes(e, DataReader)
    requires Subscriber in held <==> TeardownDeletes(e, Subscriber)
    requires DataWriter in held <==> TeardownDeletes(e, DataWriter)
    requires Publisher in held <==> TeardownDeletes(e, Publisher)
    ensures !failed ==> deleted == Kept(ReleaseOrder(ServiceDestroy), held, 5)
    ensures failed <==> ChainBroken(e) || DeleteFails(e, vendor)
    ensures failed ==> FailedTeardown(e, vendor, held, deleted)
  {
    ghost var o := ReleaseOrder(ServiceDestroy);
    ChainFailsSplit(e, vendor);
    deleted, failed := TeardownReaderSide(e, vendor, held);
    if failed {
      KeptPrefix(o, held, 3, 5);
      PrefixTransitive(deleted, Kept(o, held, 3), Kept(o, held, 5));
      return;
    }
    var writerSide;
    writerSide, failed := TeardownWriterSide(e, vendor, held, deleted);
    DeletionsSucceedAppend(deleted, writerSide, vendor);
    deleted := deleted + writerSide;
  }

  /** The teardown chain of rmw_destroy_service over a service record.  It
      stops at the first error, having made exactly the deletions
      FailedTeardown describes.  Nothing is deleted without a participant. */
  method TeardownServiceEntities(e: Endpoints, vendor: Vendor, ghost named: bool)
    returns (deleted: seq<Resource>, failed: bool)
    ensures var held := DestroyHeld(ServiceDestroy, Some(e), named);
      && (!failed ==> deleted == Kept(ReleaseOrder(ServiceDestroy), held, 5))
      && (failed ==> FailedTeardown(e, vendor, held, deleted))
    ensures failed <==> ChainBroken(e) || DeleteFails(e, vendor)
  {
    ghost var held := DestroyHeld(ServiceDestroy, Some(e), named);
    DestroyHeldEntities(ServiceDestroy, e, named);
    if e.participant {
      deleted, failed := TeardownServiceChains(e, vendor, held);
    } else {
      KeptSkips(ReleaseOrder(ServiceDestroy), held, 0, 5);
      deleted, failed := [], e.publisher || e.subscriber;
    }
  }

  /** The DDS entities destroy path p finds held are those its teardown
      deletes. */
  lemma DestroyHeldEntities(p: ReleasePath, e: Endpoints, named: bool)
    requires p == ClientDestroy || p == ServiceDestroy
    ensures ReadCondition in DestroyHeld(p, Some(e), named) <==> TeardownDeletes(e, ReadCondition)
    ensures DataReader in DestroyHeld(p, Some(e), named) <==> TeardownDeletes(e, DataReader)
    ensures Subscriber in DestroyHeld(p, Some(e), named) <==> TeardownDeletes(e, Subscriber)
    ensures DataWriter in DestroyHeld(p, Some(e), named) <==> TeardownDeletes(e, DataWriter)
    ensures Publisher in DestroyHeld(p, Some(e), named) <==> TeardownDeletes(e, Publisher)
  {
    assert ReadCondition in ReleaseOrder(p) && DataReader in ReleaseOrder(p) && Subscriber in ReleaseOrder(p);
    assert DataWriter in ReleaseOrder(p) && Publisher in ReleaseOrder(p);
  }

  lemma PrefixTransitive(a: seq<Resource>, b: seq<Resource>, c: seq<Resource>)
    requires a <= b && b <= c
    ensures a <= c
  {
    assert c[..|a|] == c[..|b|][..|a|];
  }

  /** Appending deletions that all but the last succeeded to deletions
      that all succeeded keeps all but the last successful. */
  lemma DeletionsSucceedAppend(a: seq<Resource>, b: seq<Resource>, vendor: Vendor)
    requires DeletionsSucceed(a, vendor)
    requires |b| > 0 ==> DeletionsSucceed(b[..|b| - 1], vendor)
    ensures |a + b| > 0 ==> DeletionsSucceed((a + b)[..|a + b| - 1], vendor)
    ensures |b| > 0 ==> (a + b)[|a + b| - 1] == b[|b| - 1]
  {
    if |b| > 0 {
      assert (a + b)[..|a + b| - 1] == a + b[..|b| - 1];
    }
  }

  /** The arguments rmw_destroy_service accepts. */
  predicate DestroyServiceArgsValid(node: Option<Node>, service: Service?)
    reads service
  {
    && node.Some? && node.value.identifier == Implementation
    && service != null && service.identifier == Implementation
    && node.value.info.Some?
  }

  /** The endpoints behind a service handle, None when it has no record. */
  function ServiceData(service: Service): Option<Endpoints>
    reads service, service.data
  {
    if service.data == null then None else Some(service.data.endpoints)
  }

  /** rmw_destroy_service.  A null node or service is an invalid argument,
      a foreign identifier an incorrect implementation, a node without its
      record an error.  With a record, the teardown chain runs and its first
      error returns ERROR with the record, the name and the handle left in
      place and the guard not triggered; otherwise the record is deleted,
      the name freed (when present), the handle freed, and the result is the
      graph guard trigger's.  Without a record only the handle is freed. */
  method DestroyService(node: Option<Node>, service: Service?, vendor: Vendor)
    returns (ret: RetCode, released: seq<Resource>)
    modifies service
    ensures node.None? ==> ret == InvalidArgument
    ensures node.Some? && node.value.identifier != Implementation ==> ret == IncorrectRmwImplementation
    ensures node.Some? && node.value.identifier == Implementation && service == null ==> ret == InvalidArgument
    ensures (node.Some? && node.value.identifier == Implementation && service != null
             && old(service.identifier) != Implementation) ==> ret == IncorrectRmwImplementation
    ensures (node.Some? && node.value.identifier == Implementation && service != null
             && old(service.identifier) == Implementation && node.value.info.None?) ==> ret == Error
    ensures !old(DestroyServiceArgsValid(node, service)) ==>
      released == [] && (service != null ==> unchanged(service))
    ensures old(DestroyServiceArgsValid(node, service)) && old(service.data) == null ==>
      && ret == (if vendor(TriggerGraphGuard) then Ok else Error)
      && service.data == null
      && released == Released(ServiceDestroy, DestroyHeld(ServiceDestroy, None, old(service.serviceName).Some?))
    ensures old(DestroyServiceArgsValid(node, service)) && old(service.data) != null ==>
      var e := old(service.data.endpoints);
      var held := DestroyHeld(ServiceDestroy, Some(e), old(service.serviceName).Some?);
      if ChainBroken(e) || DeleteFails(e, vendor) then
        && ret == Error
        && unchanged(service)
        && FailedTeardown(e, vendor, held, released)
      else
        && ret == (if vendor(TriggerGraphGuard) then Ok else Error)
        && service.data == null
        && released == Released(ServiceDestroy, held)
  {
    released := [];
    if node.None? {
      return InvalidArgument, released;
    }
    if node.value.identifier != Implementation {
      return IncorrectRmwImplementation, released;
    }
    if service == null {
      return InvalidArgument, released;
    }
    if service.identifier != Implementation {
      return IncorrectRmwImplementation, released;
    }
    if node.value.info.None? {
      return Error, released;
    }
    ret, released := ReleaseServiceHandle(service, vendor);
  }

  /** The part of rmw_destroy_service after the argument checks. */
  method ReleaseServiceHandle(service: Service, vendor: Vendor) returns (ret: RetCode, released: seq<Resource>)
    modifies service
    ensures old(service.data) == null ==>
      && ret == (if vendor(TriggerGraphGuard) then Ok else Error)
      && service.data == null
      && released == Released(ServiceDestroy, DestroyHeld(ServiceDestroy, None, old(service.serviceName).Some?))
    ensures old(service.data) != null ==>
      var e := old(service.data.endpoints);
      var held := DestroyHeld(ServiceDestroy, Some(e), old(service.serviceName).Some?);
      if ChainBroken(e) || DeleteFails(e, vendor) then
        && ret == Error
        && unchanged(service)
        && FailedTeardown(e, vendor, held, released)
      else
        && ret == (if vendor(TriggerGraphGuard) then Ok else Error)
        && service.data == null
        && released == Released(ServiceDestroy, held)
  {
    released := [];
    var info := service.data;
    ghost var o := ReleaseOrder(ServiceDestroy);
    ghost var held := DestroyHeld(ServiceDestroy, ServiceData(service), service.serviceName.Some?);
    if info != null {
      var failed;
      released, failed := TeardownServiceEntities(info.endpoints, vendor, service.serviceName.Some?);
      if failed {
        return Error, released;
      }
      released := released + [InfoRecord];
      service.data := null;
      assert released == Kept(o, held, 6);
      if service.serviceName.Some? {
        released := released + [NameBuffer];
      }
    } else {
      KeptSkips(o, held, 0, 7);
    }
    assert released == Kept(o, held, 7);
    released := released + [Handle];
    ret := if vendor(TriggerGraphGuard) then Ok else Error;
  }

  /** Destroying a fully created service releases every resource its
      creation acquired except the two type supports (which a successful
      creation deletes itself) and the two topics, and nothing else. */
  lemma ServiceCreateDestroyLeavesTopics(requestTopic: string, responseTopic: string)
    ensures var order := ServiceCreationOrder(requestTopic, responseTopic);
            var destroyed := Released(ServiceDestroy, DestroyHeld(ServiceDestroy, Some(AllEndpoints), true));
            && (forall r :: r in destroyed ==> r in order)
            && (forall r :: r in order ==>
                  (r in destroyed <==> !r.RequestTopic? && !r.ResponseTopic? && !r.RequestTypeSupport? && !r.ResponseTypeSupport?))
  {
    DestroyCompleteReleasesAll(ServiceDestroy);
  }
}
