/** Service topic names: a client and a service of the same service name meet
    on the same two topics because both build the names the same way, the
    namespace prefix (unless the caller opts out of the ROS namespace
    conventions), then the service name, then "Request" or "Reply". */
module Naming {

  /** The requester and response prefixes declared by namespace_prefix.hpp.
      Their values are not part of this model, so every property below holds
      for any pair of prefixes. */
  datatype Prefixes = Prefixes(requester: string, response: string)

  const RequestSuffix: string := "Request"
  const ReplySuffix: string := "Reply"

  /** The request topic name: prefix (unless avoided), service name, suffix. */
  function RequestTopicName(p: Prefixes, serviceName: string, avoid: bool): (name: string)
    ensures |name| == (if avoid then 0 else |p.requester|) + |serviceName| + |RequestSuffix|
    ensures !avoid ==> name[..|p.requester|] == p.requester
    ensures name[|name| - |RequestSuffix|..] == RequestSuffix
  {
    (if avoid then "" else p.requester) + serviceName + RequestSuffix
  }

  /** The response topic name: prefix (unless avoided), service name, suffix. */
  function ResponseTopicName(p: Prefixes, serviceName: string, avoid: bool): (name: string)
    ensures |name| == (if avoid then 0 else |p.response|) + |serviceName| + |ReplySuffix|
    ensures !avoid ==> name[..|p.response|] == p.response
    ensures name[|name| - |ReplySuffix|..] == ReplySuffix
  {
    (if avoid then "" else p.response) + serviceName + ReplySuffix
  }

  /** The service name sits between the prefix and the suffix. */
  lemma {:induction false} RequestTopicNameEmbedsService(p: Prefixes, serviceName: string, avoid: bool)
    ensures var name := RequestTopicName(p, serviceName, avoid);
            var start := if avoid then 0 else |p.requester|;
            name[start..|name| - |RequestSuffix|] == serviceName
  {
    var start := if avoid then 0 else |p.requester|;
    var head := if avoid then "" else p.requester;
    var name := RequestTopicName(p, serviceName, avoid);
    assert name == head + serviceName + RequestSuffix;
    assert |head| == start;
    forall k | 0 <= k < |serviceName|
      ensures name[start..|name| - |RequestSuffix|][k] == serviceName[k]
    {
      assert name[start + k] == (head + serviceName + RequestSuffix)[start + k];
    }
  }

  lemma {:induction false} ResponseTopicNameEmbedsService(p: Prefixes, serviceName: string, avoid: bool)
    ensures var name := ResponseTopicName(p, serviceName, avoid);
            var start := if avoid then 0 else |p.response|;
            name[start..|name| - |ReplySuffix|] == serviceName
  {
    var start := if avoid then 0 else |p.response|;
    var head := if avoid then "" else p.response;
    var name := ResponseTopicName(p, serviceName, avoid);
    assert name == head + serviceName + ReplySuffix;
    assert |head| == start;
    forall k | 0 <= k < |serviceName|
      ensures name[start..|name| - |ReplySuffix|][k] == serviceName[k]
    {
      assert name[start + k] == (head + serviceName + ReplySuffix)[start + k];
    }
  }

  /** Two service names share a request topic (under the same convention
      flag) only if they are the same name. */
  lemma {:induction false} RequestTopicNameInjective(p: Prefixes, a: string, b: string, avoid: bool)
    requires RequestTopicName(p, a, avoid) == RequestTopicName(p, b, avoid)
    ensures a == b
  {
    RequestTopicNameEmbedsService(p, a, avoid);
    RequestTopicNameEmbedsService(p, b, avoid);
  }

  lemma {:induction false} ResponseTopicNameInjective(p: Prefixes, a: string, b: string, avoid: bool)
    requires ResponseTopicName(p, a, avoid) == ResponseTopicName(p, b, avoid)
    ensures a == b
  {
    ResponseTopicNameEmbedsService(p, a, avoid);
    ResponseTopicNameEmbedsService(p, b, avoid);
  }

  /** A request topic is never a response topic, whatever the prefixes, the
      service names and the convention flags: the names end differently. */
  lemma {:induction false} RequestNeverResponse(p: Prefixes, a: string, b: string, avoidA: bool, avoidB: bool)
    ensures RequestTopicName(p, a, avoidA) != ResponseTopicName(p, b, avoidB)
  {
    var rq := RequestTopicName(p, a, avoidA);
    var rr := ResponseTopicName(p, b, avoidB);
    assert rq[|rq| - 1] == RequestSuffix[|RequestSuffix| - 1] == 't';
    assert rr[|rr| - 1] == ReplySuffix[|ReplySuffix| - 1] == 'y';
  }
}
