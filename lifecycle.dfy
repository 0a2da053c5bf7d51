/** The shape shared by rmw_create_client and rmw_create_service (acquire
    resources one after the other, and on the first failure jump to a single
    `fail:` block) and the release orders of their failure and destroy
    paths. */
module Lifecycle {
  import opened Common

  /** The two creation sequences. */
  datatype Creation = ClientCreation | ServiceCreation

  /** A topic is found when a description of that name already exists, and
      created with the default topic QoS otherwise. */
  predicate TopicObtained(vendor: Vendor, name: string)
  {
    if vendor(LookupTopic(name)) then vendor(FindTopic(name))
    else vendor(DefaultTopicQos(name)) && vendor(CreateTopic(name))
  }

  /** The vendor calls that must succeed for resource r to be acquired. */
  predicate Acquires(vendor: Vendor, r: Resource)
  {
    match r
    case InfoRecord => vendor(AllocInfo)
    case RequestTypeSupport => vendor(CreateTypeSupport(true))
    case ResponseTypeSupport => vendor(CreateTypeSupport(false))
    case RequestTopic(name) => TopicObtained(vendor, name)
    case ResponseTopic(name) => TopicObtained(vendor, name)
    case Publisher => vendor(DefaultPublisherQos) && vendor(CreatePublisher)
    case DataWriter => vendor(DataWriterQos) && vendor(CreateDataWriter)
    case Subscriber => vendor(DefaultSubscriberQos) && vendor(CreateSubscriber)
    case DataReader => vendor(DataReaderQos) && vendor(CreateDataReader)
    case ReadCondition => vendor(CreateReadCondition)
    case Handle => vendor(AllocHandle)
    case NameBuffer => vendor(AllocName)
  }

  /** The call made after acquiring r that must succeed before the next
      step, with r already held: a type registration, a QoS finalize, or the
      graph guard trigger after the name copy.  The client finalizes neither
      topic nor endpoint QoS. */
  predicate Settles(c: Creation, vendor: Vendor, r: Resource)
  {
    match r
    case RequestTypeSupport => vendor(RegisterType(true))
    case ResponseTypeSupport => vendor(RegisterType(false))
    case RequestTopic(name) => c == ClientCreation || vendor(LookupTopic(name)) || vendor(FinalizeTopicQos(name))
    case ResponseTopic(name) => c == ClientCreation || vendor(LookupTopic(name)) || vendor(FinalizeTopicQos(name))
    case Publisher => vendor(FinalizePublisherQos)
    case Subscriber => vendor(FinalizeSubscriberQos)
    case DataWriter => c == ClientCreation || vendor(FinalizeDataWriterQos)
    case DataReader => c == ClientCreation || vendor(FinalizeDataReaderQos)
    case NameBuffer => vendor(TriggerGraphGuard)
    case _ => true
  }

  /** The first n resources of order were acquired, and each of them but the
      last settled. */
  predicate StepsSucceed(c: Creation, vendor: Vendor, order: seq<Resource>, n: nat)
    requires n <= |order|
  {
    n == 0 ||
    (&& Acquires(vendor, order[n - 1])
     && (n == 1 || Settles(c, vendor, order[n - 2]))
     && StepsSucceed(c, vendor, order, n - 1))
  }

  /** How far a creation sequence gets: the first n resources of order are
      acquired, and the step after them fails, either acquiring the next
      resource or settling the last one acquired. */
  predicate StopsAfter(c: Creation, vendor: Vendor, order: seq<Resource>, n: nat)
  {
    && n <= |order|
    && StepsSucceed(c, vendor, order, n)
    && (n < |order| ==> !Acquires(vendor, order[n]) || (n > 0 && !Settles(c, vendor, order[n - 1])))
  }

  /** Every acquisition and every settling call of order succeeds. */
  predicate AllSucceed(c: Creation, vendor: Vendor, order: seq<Resource>)
  {
    forall i :: 0 <= i < |order| ==> Acquires(vendor, order[i]) && Settles(c, vendor, order[i])
  }

  /** What StepsSucceed says about one step. */
  lemma {:induction false} StepsSucceedAt(c: Creation, vendor: Vendor, order: seq<Resource>, n: nat, i: int)
    requires n <= |order| && StepsSucceed(c, vendor, order, n)
    ensures 0 <= i < n ==> Acquires(vendor, order[i])
    ensures 0 <= i && i + 1 < n ==> Settles(c, vendor, order[i])
    decreases n
  {
    if 0 <= i && i + 1 < n {
      StepsSucceedAt(c, vendor, order, n - 1, i);
    }
  }

  /** The vendor outcomes alone decide how far creation gets. */
  lemma StopsAfterUnique(c: Creation, vendor: Vendor, order: seq<Resource>, n1: nat, n2: nat)
    requires StopsAfter(c, vendor, order, n1)
    requires StopsAfter(c, vendor, order, n2)
    ensures n1 == n2
  {
    StepsSucceedAt(c, vendor, order, n2, n1);
    StepsSucceedAt(c, vendor, order, n2, n1 - 1);
    StepsSucceedAt(c, vendor, order, n1, n2);
    StepsSucceedAt(c, vendor, order, n1, n2 - 1);
  }

  /** Creation gets through the whole order, settling the last resource too,
      exactly when every step succeeds. */
  lemma CompletesIffAllSucceed(c: Creation, vendor: Vendor, order: seq<Resource>, n: nat)
    requires |order| > 0
    requires StopsAfter(c, vendor, order, n)
    ensures (n == |order| && Settles(c, vendor, order[|order| - 1])) <==> AllSucceed(c, vendor, order)
  {
    forall i | 0 <= i < |order|
      ensures n == |order| ==> Acquires(vendor, order[i]) && (i + 1 < |order| ==> Settles(c, vendor, order[i]))
    {
      StepsSucceedAt(c, vendor, order, n, i);
    }
  }

  /** The four release paths: the `fail:` blocks of the two creations and
      the two destroy functions.  The service's `fail:` block also deletes
      its two topics, so that path carries their names. */
  datatype ReleasePath =
    | ClientUnwind
    | ClientDestroy
    | ServiceUnwind(requestTopic: string, responseTopic: string)
    | ServiceDestroy

  /** The order in which each path releases the resources it releases at
      all; a path releases only those of its resources that are held. */
  function ReleaseOrder(p: ReleasePath): (order: seq<Resource>)
  {
    match p
    case ClientUnwind =>
      [Handle, DataWriter, Publisher, ReadCondition, DataReader, Subscriber, InfoRecord]
    case ClientDestroy =>
      [DataWriter, Publisher, ReadCondition, DataReader, Subscriber, InfoRecord, NameBuffer, Handle]
    case ServiceUnwind(requestTopic, responseTopic) =>
      [Handle, ReadCondition, DataReader, Subscriber, DataWriter, Publisher,
       RequestTopic(requestTopic), ResponseTopic(responseTopic),
       RequestTypeSupport, ResponseTypeSupport, InfoRecord]
    case ServiceDestroy =>
      [ReadCondition, DataReader, Subscriber, DataWriter, Publisher, InfoRecord, NameBuffer, Handle]
  }

  /** The held resources among the first k of order, in order. */
  function Kept(order: seq<Resource>, keep: set<Resource>, k: nat): seq<Resource>
    requires k <= |order|
  {
    if k == 0 then []
    else Kept(order, keep, k - 1) + (if order[k - 1] in keep then [order[k - 1]] else [])
  }

  /** What path p releases when the resources in held are held. */
  function Released(p: ReleasePath, held: set<Resource>): seq<Resource>
  {
    Kept(ReleaseOrder(p), held, |ReleaseOrder(p)|)
  }

  /** a must be released before b: a DDS entity before the factory that
      created it, a reader or writer before the topics, every DDS entity
      before the record that points to it, and the name before the handle
      that owns it. */
  predicate DependsOn(a: Resource, b: Resource)
  {
    match a
    case DataWriter => b.Publisher? || b.RequestTopic? || b.ResponseTopic? || b.InfoRecord?
    case DataReader => b.Subscriber? || b.RequestTopic? || b.ResponseTopic? || b.InfoRecord?
    case ReadCondition => b.DataReader? || b.InfoRecord?
    case Publisher => b.InfoRecord?
    case Subscriber => b.InfoRecord?
    case RequestTopic(_) => b.InfoRecord?
    case ResponseTopic(_) => b.InfoRecord?
    case NameBuffer => b.Handle?
    case _ => false
  }

  /** Every resource of s comes before the resources it depends on. */
  predicate DependentsFirst(s: seq<Resource>)
  {
    forall i, j :: 0 <= i < |s| && 0 <= j < |s| && DependsOn(s[i], s[j]) ==> i < j
  }

  /** No resource occurs twice in s: nothing is released twice. */
  predicate NoDuplicates(s: seq<Resource>)
  {
    forall i, j :: 0 <= i < j < |s| ==> s[i] != s[j]
  }

  /** Every endpoint of a fully created client or service is present. */
  const AllEndpoints: Endpoints := Endpoints(true, true, true, true, true, true)

  /** The inconsistent chains both destroy functions report: a writer
      without its publisher, a read condition without its reader (under a
      subscriber), a reader without its subscriber, and groups without a
      participant. */
  predicate ChainBroken(e: Endpoints)
  {
    if e.participant then
      || (!e.publisher && e.writer)
      || (e.subscriber && !e.reader && e.readCondition)
      || (!e.subscriber && e.reader)
    else e.publisher || e.subscriber
  }

  /** The DDS entities the destroy functions delete: an endpoint only when
      its owning group (and the participant) is present. */
  predicate TeardownDeletes(e: Endpoints, r: Resource)
  {
    && e.participant
    && match r
       case DataWriter => e.publisher && e.writer
       case Publisher => e.publisher
       case ReadCondition => e.subscriber && e.reader && e.readCondition
       case DataReader => e.subscriber && e.reader
       case Subscriber => e.subscriber
       case _ => false
  }

  /** Some deletion the teardown chain would make fails. */
  predicate DeleteFails(e: Endpoints, vendor: Vendor)
  {
    || (TeardownDeletes(e, DataWriter) && !vendor(Delete(DataWriter)))
    || (TeardownDeletes(e, Publisher) && !vendor(Delete(Publisher)))
    || (TeardownDeletes(e, ReadCondition) && !vendor(Delete(ReadCondition)))
    || (TeardownDeletes(e, DataReader) && !vendor(Delete(DataReader)))
    || (TeardownDeletes(e, Subscriber) && !vendor(Delete(Subscriber)))
  }

  /** What a completed destroy releases, given the endpoints of the record
      (None when the handle's data is null) and whether the handle holds a
      service name: the reachable DDS entities, the record and the name only
      with a record, and the handle always. */
  predicate DestroyReleases(data: Option<Endpoints>, named: bool, r: Resource)
  {
    match r
    case InfoRecord => data.Some?
    case NameBuffer => data.Some? && named
    case Handle => true
    case _ => data.Some? && TeardownDeletes(data.value, r)
  }

  /** The resources destroy path p finds held. */
  function DestroyHeld(p: ReleasePath, data: Option<Endpoints>, named: bool): set<Resource>
  {
    set r | r in ReleaseOrder(p) && DestroyReleases(data, named, r)
  }

  /** Every deletion call in s succeeds. */
  predicate DeletionsSucceed(s: seq<Resource>, vendor: Vendor)
  {
    forall i :: 0 <= i < |s| ==> vendor(Delete(s[i]))
  }

  /** Resources i to k of order that are not held add nothing. */
  lemma {:induction false} KeptSkips(order: seq<Resource>, keep: set<Resource>, i: nat, k: nat)
    requires i <= k <= |order|
    requires forall m :: i <= m < k ==> order[m] !in keep
    ensures Kept(order, keep, k) == Kept(order, keep, i)
    decreases k
  {
    if i < k {
      KeptSkips(order, keep, i, k - 1);
    }
  }

  /** Filtering fewer positions yields a prefix. */
  lemma {:induction false} KeptPrefix(order: seq<Resource>, keep: set<Resource>, i: nat, k: nat)
    requires i <= k <= |order|
    ensures Kept(order, keep, i) <= Kept(order, keep, k)
    decreases k
  {
    if i < k {
      KeptPrefix(order, keep, i, k - 1);
    }
  }

  /** When the first k resources are all held, Kept keeps all of them. */
  lemma {:induction false} KeptAll(order: seq<Resource>, keep: set<Resource>, k: nat)
    requires k <= |order|
    requires forall i :: 0 <= i < k ==> order[i] in keep
    ensures Kept(order, keep, k) == order[..k]
  {
    if k > 0 {
      KeptAll(order, keep, k - 1);
      assert order[..k] == order[..k - 1] + [order[k - 1]];
    }
  }

  /** Destroying a record that has every endpoint, with a name, releases
      the whole destroy order. */
  lemma DestroyCompleteReleasesAll(p: ReleasePath)
    requires p == ClientDestroy || p == ServiceDestroy
    ensures Released(p, DestroyHeld(p, Some(AllEndpoints), true)) == ReleaseOrder(p)
  {
    var order := ReleaseOrder(p);
    KeptAll(order, DestroyHeld(p, Some(AllEndpoints), true), |order|);
    assert order[..|order|] == order;
  }

  /** Kept keeps exactly the held resources among the first k. */
  lemma {:induction false} KeptMembers(order: seq<Resource>, keep: set<Resource>, k: nat)
    requires k <= |order|
    ensures forall r :: r in Kept(order, keep, k) <==> r in order[..k] && r in keep
  {
    if k > 0 {
      KeptMembers(order, keep, k - 1);
      assert order[..k] == order[..k - 1] + [order[k - 1]];
    }
  }

  /** Filtering keeps the order free of duplicates and dependents first. */
  lemma {:induction false} KeptOrdered(order: seq<Resource>, keep: set<Resource>, k: nat)
    requires k <= |order|
    requires NoDuplicates(order) && DependentsFirst(order)
    ensures NoDuplicates(Kept(order, keep, k)) && DependentsFirst(Kept(order, keep, k))
  {
    if k > 0 && order[k - 1] in keep {
      var init := Kept(order, keep, k - 1);
      var x := order[k - 1];
      var s := init + [x];
      KeptOrdered(order, keep, k - 1);
      KeptMembers(order, keep, k - 1);
      forall i | 0 <= i < |init|
        ensures init[i] != x && !DependsOn(x, init[i])
      {
        assert init[i] in order[..k - 1];
        var m :| 0 <= m < k - 1 && order[m] == init[i];
      }
      forall i, j | 0 <= i < |s| && 0 <= j < |s| && DependsOn(s[i], s[j])
        ensures i < j
      {
        if j < |init| {
          assert s[j] == init[j];
          if i < |init| {
            assert s[i] == init[i];
          }
        }
      }
      forall i, j | 0 <= i < j < |s|
        ensures s[i] != s[j]
      {
        if j < |init| {
          assert s[i] == init[i] && s[j] == init[j];
        }
      }
    } else if k > 0 {
      KeptOrdered(order, keep, k - 1);
    }
  }

  /** The position of r in ReleaseOrder(p), and a position past its end
      for a resource the path does not release. */
  function Position(p: ReleasePath, r: Resource): nat
  {
    match p
    case ClientUnwind =>
      (match r
       case Handle => 0
       case DataWriter => 1
       case Publisher => 2
       case ReadCondition => 3
       case DataReader => 4
       case Subscriber => 5
       case InfoRecord => 6
       case _ => 7)
    case ClientDestroy =>
      (match r
       case DataWriter => 0
       case Publisher => 1
       case ReadCondition => 2
       case DataReader => 3
       case Subscriber => 4
       case InfoRecord => 5
       case NameBuffer => 6
       case Handle => 7
       case _ => 8)
    case ServiceUnwind(_, _) =>
      (match r
       case Handle => 0
       case ReadCondition => 1
       case DataReader => 2
       case Subscriber => 3
       case DataWriter => 4
       case Publisher => 5
       case RequestTopic(_) => 6
       case ResponseTopic(_) => 7
       case RequestTypeSupport => 8
       case ResponseTypeSupport => 9
       case InfoRecord => 10
       case _ => 11)
    case ServiceDestroy =>
      (match r
       case ReadCondition => 0
       case DataReader => 1
       case Subscriber => 2
       case DataWriter => 3
       case Publisher => 4
       case InfoRecord => 5
       case NameBuffer => 6
       case Handle => 7
       case _ => 8)
  }

  /** Each path's order releases nothing twice and dependents first:
      each resource sits at its position, and a resource depended on sits
      later than its dependent. */
  lemma ReleaseOrderWellFormed(p: ReleasePath)
    ensures NoDuplicates(ReleaseOrder(p)) && DependentsFirst(ReleaseOrder(p))
  {
    var s := ReleaseOrder(p);
    assert forall k :: 0 <= k < |s| ==> Position(p, s[k]) == k;
    assert forall a, b :: DependsOn(a, b) && Position(p, a) < |s| && Position(p, b) < |s| ==> Position(p, a) < Position(p, b);
  }

  /** Whatever is held, a path releases exactly the held resources it
      names, each once, and never a resource before one that depends on
      it. */
  lemma ReleasedWellOrdered(p: ReleasePath, held: set<Resource>)
    ensures forall r :: r in Released(p, held) <==> r in ReleaseOrder(p) && r in held
    ensures NoDuplicates(Released(p, held)) && DependentsFirst(Released(p, held))
  {
    var order := ReleaseOrder(p);
    assert order[..|order|] == order;
    KeptMembers(order, held, |order|);
    ReleaseOrderWellFormed(p);
    KeptOrdered(order, held, |order|);
  }
}
