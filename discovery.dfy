/** The discovery listeners of the shared package: on each batch of
    DCPSPublication or DCPSSubscription built-in topic samples (section 2.2.5
    of the OMG DDS specification, version 1.4) they update the node's topic
    cache and trigger its graph guard condition. */
module Discovery {
  import opened Common

  /** Which built-in topic a listener reads (EntityType). */
  datatype EntityKind = PublicationKind | SubscriptionKind

  /** One taken sample with its SampleInfo: the instance handle (None when
      null; otherwise the 16 bytes it points to), valid_data, whether the
      instance state is ALIVE, the participant GUID converted from the
      participant key, the topic and type names, and the vendor QoS settings
      the conversion functions translate. */
  datatype BuiltinSample = BuiltinSample(
    instanceHandle: Option<Guid>,
    validData: bool,
    alive: bool,
    participant: Guid,
    topicName: string,
    typeName: string,
    reliability: nat,
    durability: nat,
    deadline: nat,
    lifespan: nat,
    liveliness: nat)

  /** The outcome of dds_DataReader_take: a batch, NO_DATA, or another
      error code. */
  datatype TakeResult = Taken(samples: seq<BuiltinSample>) | NoData | TakeFailed

  /** An operation on the topic cache. */
  datatype CacheOp =
    | AddTopic(participant: Guid, guid: Guid, topicName: string, typeName: string, qos: QosProfile)
    | RemoveTopic(guid: Guid)

  /** The topic cache, kept as the log of the operations applied to it; its
      query side is not part of this model. */
  class TopicCache {
    var ops: seq<CacheOp>

    constructor ()
      ensures ops == []
    {
      ops := [];
    }

    method Apply(op: CacheOp)
      modifies this
      ensures ops == old(ops) + [op]
    {
      ops := ops + [op];
    }
  }

  /** The node's graph guard condition, kept as the number of times it was
      triggered. */
  class GuardCondition {
    var triggers: nat

    constructor ()
      ensures triggers == 0
    {
      triggers := 0;
    }

    method Trigger()
      modifies this
      ensures triggers == old(triggers) + 1
    {
      triggers := triggers + 1;
    }
  }

  /** A listener's mutex; locking is not modelled (each batch is atomic). */
  class Mutex {
    constructor () {}
  }

  /** ListenerContext: what the callback reaches through the reader's
      listener context pointer. */
  class ListenerContext {
    var mutex: Mutex?
    var topicCache: TopicCache?
    var graphGuard: GuardCondition?
    var identifier: Identifier

    constructor ()
      ensures mutex == null && topicCache == null && graphGuard == null && identifier == None
    {
      mutex, topicCache, graphGuard, identifier := null, null, null, None;
    }
  }

  /** GurumddsPublisherListener and GurumddsSubscriberListener: each owns a
      mutex and a topic cache, and its constructor points its context at
      them, at the node's guard condition and at the identifier. */
  class Listener {
    const kind: EntityKind
    const context: ListenerContext
    const mutex: Mutex
    const topicCache: TopicCache
    const graphGuard: GuardCondition
    const identifier: Identifier

    constructor (kind: EntityKind, identifier: Identifier, graphGuard: GuardCondition)
      ensures this.kind == kind && this.identifier == identifier && this.graphGuard == graphGuard
      ensures fresh(mutex) && fresh(topicCache) && fresh(context) && topicCache.ops == []
      ensures context.mutex == mutex && context.topicCache == topicCache
      ensures context.graphGuard == graphGuard && context.identifier == identifier
    {
      this.kind := kind;
      this.identifier := identifier;
      this.graphGuard := graphGuard;
      var m := new Mutex();
      var t := new TopicCache();
      var c := new ListenerContext();
      c.mutex, c.topicCache, c.graphGuard, c.identifier := m, t, graphGuard, identifier;
      mutex, topicCache, context := m, t, c;
    }
  }

  /** The QoS profile a discovered endpoint is recorded with: history is
      unknown, the depth is the system default, the namespace conventions are
      not avoided, and a subscription reports the default lifespan. */
  function DiscoveredQos(kind: EntityKind, s: BuiltinSample): (q: QosProfile)
    ensures q.history == HistoryUnknown && q.depth == DepthSystemDefault && !q.avoidRosNamespaceConventions
    ensures q.lifespan == (if kind == SubscriptionKind then DefaultPolicy else FromVendor(s.lifespan))
    ensures q.reliability == FromVendor(s.reliability) && q.durability == FromVendor(s.durability)
  {
    QosProfile(
      HistoryUnknown,
      DepthSystemDefault,
      FromVendor(s.reliability),
      FromVendor(s.durability),
      FromVendor(s.deadline),
      if kind == SubscriptionKind then DefaultPolicy else FromVendor(s.lifespan),
      FromVendor(s.liveliness),
      FromVendor(s.liveliness),
      false)
  }

  /** The cache operation one sample with a non-null instance handle yields:
      an add for valid, alive data, a removal otherwise. */
  function SampleOp(kind: EntityKind, s: BuiltinSample): (op: CacheOp)
    requires s.instanceHandle.Some?
    ensures op.AddTopic? <==> s.validData && s.alive
    ensures op.guid == s.instanceHandle.value
  {
    if s.validData && s.alive then
      AddTopic(s.participant, s.instanceHandle.value, s.topicName, s.typeName, DiscoveredQos(kind, s))
    else
      RemoveTopic(s.instanceHandle.value)
  }

  /** The cache operations a batch yields, in batch order; samples with a
      null instance handle yield none. */
  function CacheOps(kind: EntityKind, samples: seq<BuiltinSample>): seq<CacheOp>
  {
    if |samples| == 0 then []
    else
      (if samples[0].instanceHandle.Some? then [SampleOp(kind, samples[0])] else [])
      + CacheOps(kind, samples[1..])
  }

  /** The operations of a concatenation are those of its parts, in order. */
  lemma {:induction false} CacheOpsAppend(kind: EntityKind, a: seq<BuiltinSample>, b: seq<BuiltinSample>)
    ensures CacheOps(kind, a + b) == CacheOps(kind, a) + CacheOps(kind, b)
    decreases |a|
  {
    if |a| == 0 {
      assert a + b == b;
    } else {
      assert (a + b)[0] == a[0];
      assert (a + b)[1..] == a[1..] + b;
      CacheOpsAppend(kind, a[1..], b);
    }
  }

  /** The number of samples with a non-null instance handle. */
  function HandledCount(samples: seq<BuiltinSample>): (n: nat)
    ensures n <= |samples|
  {
    if |samples| == 0 then 0
    else (if samples[0].instanceHandle.Some? then 1 else 0) + HandledCount(samples[1..])
  }

  /** One operation per sample with a non-null handle, and each operation
      is the one some such sample of the batch yields. */
  lemma {:induction false} CacheOpsOnePerHandledSample(kind: EntityKind, samples: seq<BuiltinSample>)
    ensures |CacheOps(kind, samples)| == HandledCount(samples)
    ensures forall op :: op in CacheOps(kind, samples) ==>
              exists i :: 0 <= i < |samples| && samples[i].instanceHandle.Some? && op == SampleOp(kind, samples[i])
    decreases |samples|
  {
    if |samples| > 0 {
      var rest := samples[1..];
      CacheOpsOnePerHandledSample(kind, rest);
      forall op | op in CacheOps(kind, rest)
        ensures exists i :: 0 <= i < |samples| && samples[i].instanceHandle.Some? && op == SampleOp(kind, samples[i])
      {
        var i :| 0 <= i < |rest| && rest[i].instanceHandle.Some? && op == SampleOp(kind, rest[i]);
        assert samples[i + 1] == rest[i];
      }
    }
  }

  /** Every recorded endpoint carries the fixed discovered QoS. */
  lemma {:induction false} CacheOpsQosFixed(kind: EntityKind, samples: seq<BuiltinSample>)
    ensures forall op :: op in CacheOps(kind, samples) && op.AddTopic? ==>
              && op.qos.history == HistoryUnknown && op.qos.depth == DepthSystemDefault
              && !op.qos.avoidRosNamespaceConventions
              && (kind == SubscriptionKind ==> op.qos.lifespan == DefaultPolicy)
    decreases |samples|
  {
    if |samples| > 0 {
      CacheOpsQosFixed(kind, samples[1..]);
    }
  }

  /** The batch loop of pub_on_data_available / sub_on_data_available: one
      cache operation per sample with a non-null instance handle, in batch
      order. */
  method ApplyBatch(kind: EntityKind, cache: TopicCache, samples: seq<BuiltinSample>)
    modifies cache
    ensures cache.ops == old(cache.ops) + CacheOps(kind, samples)
  {
    var i := 0;
    while i < |samples|
      invariant 0 <= i <= |samples|
      invariant cache.ops == old(cache.ops) + CacheOps(kind, samples[..i])
    {
      var s := samples[i];
      CacheOpsAppend(kind, samples[..i], [s]);
      assert samples[..i + 1] == samples[..i] + [s];
      if s.instanceHandle.Some? {
        cache.Apply(SampleOp(kind, s));
      }
      i := i + 1;
    }
    assert samples[..i] == samples;
  }

  /** A buffer the callback allocates for a take. */
  datatype BatchBuffer = SampleSeq | InfoSeq

  /** pub_on_data_available / sub_on_data_available.  A null context returns
      at once.  Otherwise the two sequences are allocated (a failed
      allocation returns, freeing the one already made), the batch is taken
      and on success applied to the cache; the guard is triggered once when
      the batch is non-empty, whether or not any sample was skipped; the
      loan is returned after every take and both sequences are freed. */
  method OnDataAvailable(kind: EntityKind, context: ListenerContext?, vendor: Vendor, take: TakeResult)
    returns (loanReturned: bool, freed: seq<BatchBuffer>)
    requires context != null ==> context.topicCache != null && context.graphGuard != null
    modifies if context != null then {context.topicCache, context.graphGuard} else {}
    ensures context == null ==> !loanReturned && freed == []
    ensures context != null ==>
      var buffered := vendor(CreateDataSeq) && vendor(CreateSampleInfoSeq);
      && loanReturned == buffered
      && (SampleSeq in freed <==> vendor(CreateDataSeq))
      && (InfoSeq in freed <==> buffered)
      && |freed| <= 2 && (|freed| == 2 ==> freed[0] != freed[1])
      && context.topicCache.ops ==
           old(context.topicCache.ops) + (if buffered && take.Taken? then CacheOps(kind, take.samples) else [])
      && context.graphGuard.triggers ==
           old(context.graphGuard.triggers) + (if buffered && take.Taken? && |take.samples| > 0 then 1 else 0)
  {
    loanReturned, freed := false, [];
    if context == null {
      return;
    }
    var cache, guard := context.topicCache, context.graphGuard;
    if !vendor(CreateDataSeq) {
      return;
    }
    if !vendor(CreateSampleInfoSeq) {
      freed := [SampleSeq];
      return;
    }
    match take {
      case NoData =>
      case TakeFailed =>
      case Taken(samples) =>
        ApplyBatch(kind, cache, samples);
        if |samples| > 0 {
          guard.Trigger();
        }
    }
    loanReturned := true;
    freed := [SampleSeq, InfoSeq];
  }
}
