/** Values shared by every part of the model: optional values (a null pointer
    is None), 16-byte identities, return codes, implementation identifiers,
    the vendor calls the core makes and the native resources it creates. */
module Common {

  datatype Option<T> = None | Some(value: T)

  /** A 16-byte identity: a client's writer GUID (the correlation key) or an
      entity GUID read from a discovery instance handle. */
  type Guid = s: seq<bv8> | |s| == 16 witness [0, 0, 0, 0, 0, 0, 0, 0, 0, 0, 0, 0, 0, 0, 0, 0]

  /** `memcmp(a, b, n) == 0`: the first n bytes of a and b agree. */
  function MemEqual(a: seq<bv8>, b: seq<bv8>, n: nat): (r: bool)
    requires n <= |a| && n <= |b|
    ensures r <==> a[..n] == b[..n]
  {
    if n == 0 then true
    else
      assert a[..n] == a[..n - 1] + [a[n - 1]];
      assert b[..n] == b[..n - 1] + [b[n - 1]];
      MemEqual(a, b, n - 1) && a[n - 1] == b[n - 1]
  }

  /** The 16-byte comparison a client makes between its own writer GUID and
      the GUID embedded in a response. */
  function SameGuid(a: Guid, b: Guid): (r: bool)
    ensures r <==> a == b
  {
    assert a[..16] == a && b[..16] == b;
    MemEqual(a, b, 16)
  }

  /** The rmw_ret_t values the core returns. */
  datatype RetCode = Ok | Error | InvalidArgument | IncorrectRmwImplementation

  /** An implementation identifier; None is a null pointer. */
  type Identifier = Option<string>

  /** The identifier every handle of this middleware carries. */
  const Implementation: Identifier := Some("rmw_gurumdds")

  /** A native resource that creation acquires and teardown releases. */
  datatype Resource =
    | InfoRecord                  // the GurumddsClientInfo / GurumddsServiceInfo record
    | RequestTopic(name: string)
    | ResponseTopic(name: string)
    | RequestTypeSupport
    | ResponseTypeSupport
    | Publisher
    | Subscriber
    | DataWriter
    | DataReader
    | ReadCondition
    | Handle                      // the rmw_client_t / rmw_service_t handle
    | NameBuffer                  // the handle's copy of the service name

  /** The vendor (DDS SDK, type support, allocator) calls whose outcome the
      core branches on.  A `Vendor` oracle says whether each call succeeds;
      for LookupTopic, whether a topic of that name already exists. */
  datatype Call =
    | AllocInfo
    | AllocHandle
    | AllocName
    | AllocPayload
    | Serialize
    | Write
    | TriggerGraphGuard
    | CreateTypeSupport(forRequest: bool)
    | RegisterType(forRequest: bool)
    | LookupTopic(name: string)
    | DefaultTopicQos(name: string)
    | CreateTopic(name: string)
    | FinalizeTopicQos(name: string)
    | FindTopic(name: string)
    | DefaultPublisherQos
    | CreatePublisher
    | FinalizePublisherQos
    | DataWriterQos
    | CreateDataWriter
    | FinalizeDataWriterQos
    | DefaultSubscriberQos
    | CreateSubscriber
    | FinalizeSubscriberQos
    | DataReaderQos
    | CreateDataReader
    | FinalizeDataReaderQos
    | CreateReadCondition
    | CreateDataSeq
    | CreateSampleInfoSeq
    | CreateSizeSeq
    | CreateHandleSeq(attempt: nat)
    | MatchedSubscriptions
    | MatchedPublications
    | Delete(resource: Resource)   // a dds_*_delete_* call on a DDS entity

  type Vendor = Call -> bool

  /** The node-side state the core reads: rmw_node_t and its GurumddsNodeInfo. */
  datatype NodeInfo = NodeInfo(hasParticipant: bool)
  datatype Node = Node(identifier: Identifier, info: Option<NodeInfo>)

  /** Which of the DDS entities behind a client or service are non-null.
      For a client the writer carries requests and the reader responses;
      for a service it is the other way round. */
  datatype Endpoints = Endpoints(
    participant: bool,
    publisher: bool,
    subscriber: bool,
    writer: bool,
    reader: bool,
    readCondition: bool)

  /** rmw_qos_profile_t.  The vendor-side policies are translated by code
      outside the model (qos.hpp), so a translated policy is kept as the opaque
      vendor setting it came from. */
  datatype History = HistorySystemDefault | KeepLast | KeepAll | HistoryUnknown
  const DepthSystemDefault: nat := 0
  datatype Policy = DefaultPolicy | FromVendor(setting: nat)
  datatype QosProfile = QosProfile(
    history: History,
    depth: nat,
    reliability: Policy,
    durability: Policy,
    deadline: Policy,
    lifespan: Policy,
    liveliness: Policy,
    livelinessLeaseDuration: Policy,
    avoidRosNamespaceConventions: bool)

  /** Type-support identifiers the two packages look up, C first then C++. */
  datatype TypeSupportId = StaticC | StaticCpp | IntrospectionC | IntrospectionCpp | Foreign(name: string)

  /** get_service_typesupport_handle tried with the C identifier first and,
      when that finds nothing, with the C++ one. */
  function LookupTypeSupport<T>(supports: map<TypeSupportId, T>, first: TypeSupportId, second: TypeSupportId)
    : (found: Option<T>)
    ensures found.Some? <==> first in supports || second in supports
    ensures first in supports ==> found == Some(supports[first])
    ensures first !in supports && second in supports ==> found == Some(supports[second])
  {
    if first in supports then Some(supports[first])
    else if second in supports then Some(supports[second])
    else None
  }
}
