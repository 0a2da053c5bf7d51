# rmw_gurumdds service core in Dafny

This project models the sequential logic inside the GurumDDS ROS 2 middleware
shim (`rmw_gurumdds`). It covers six areas:

- **RPC over plain pub/sub.** A client stamps each request with a fresh
  sequence number and its own 16-byte writer GUID. The service keeps a FIFO
  request queue and a guard condition that says the queue is non-empty. The
  service's response forwards the (GUID, sequence) pair unchanged. The client
  keeps only the responses whose embedded GUID byte-equals its own
  (`request.dfy`, `response.dfy`, `correlation.dfy`).
- **The discovery listeners.** They turn a batch of DCPSPublication or
  DCPSSubscription built-in topic samples (section 2.2.5 of the OMG DDS
  specification, version 1.4) into an ordered log of `add_topic` and
  `remove_topic` operations on the node's topic cache. They trigger the graph
  guard condition once per non-empty batch (`discovery.dfy`).
- **Client and service lifecycles** (`client.dfy`, `service.dfy`,
  `lifecycle.dfy`, `naming.dfy`):
  - argument validation;
  - topic-name construction;
  - the acquisition order on creation;
  - the `goto fail` release order on a creation failure;
  - the nullable-chain teardown on destroy. The client keeps going and
    accumulates errors; the service stops at the first error.
  - the "server is available" decision.
- **Init options and the context** (`init.dfy`). These form a small state
  machine: zero-initialised → initialised → (copied) → finalised, which is
  zero-initialised again. Identifier checks guard each step.
- **Shared pieces.** Values shared by every part are in `common.dfy`. The
  heap objects behind the handles are in `entities.dfy`. The abstract payload
  codec is in `payload.dfy`.

Every vendor call (DDS SDK, type support, allocator) is an oracle of type
`Vendor = Call -> bool`, which says whether that call succeeds. Creation
reports the resources it acquires as a sequence. The release paths report the
resources they release as a sequence. This lets contracts state release order.

- **Creation.** How far creation gets is `Lifecycle.StopsAfter`: the first
  `n` resources were acquired, and the next step failed.
- **Release paths.** What a release path releases is
  `Lifecycle.Released(path, held)`: the held resources, filtered in that
  path's fixed order.
- **Objects updated in place.** These are classes with `modifies` clauses:
  - the client and service records and handles;
  - the topic cache and the guard condition;
  - the init options and the context.

## Model

| member | source | states |
|---|---|---|
| Common.SameGuid | rmw_gurumdds_cpp/src/rmw_response.cpp:144 | The 16-byte `memcmp` of two GUIDs is zero exactly when the GUIDs are equal. |
| Common.LookupTypeSupport | rmw_gurumdds_static_cpp/src/rmw_client.cpp:80-90 | The C type support is found when registered. Otherwise the C++ one is found, and nothing is found when neither is registered. |
| Naming.RequestTopicName | rmw_gurumdds_static_cpp/src/rmw_client.cpp:165-173 | The request topic name is the requester prefix (unless conventions are avoided), then the service name, then "Request". This covers its length, its prefix and its suffix. |
| Naming.ResponseTopicName | rmw_gurumdds_static_cpp/src/rmw_client.cpp:165-173 | The same scheme with the response prefix and "Reply". |
| Naming.RequestTopicNameEmbedsService | src/rmw_service.cpp:135-143 | The service name sits exactly between the prefix and the suffix of the request topic name. |
| Naming.ResponseTopicNameEmbedsService | src/rmw_service.cpp:135-143 | The service name sits exactly between the prefix and the suffix of the response topic name. |
| Naming.RequestTopicNameInjective | src/rmw_service.cpp:135-143 | Distinct service names never share a request topic. |
| Naming.ResponseTopicNameInjective | src/rmw_service.cpp:135-143 | Distinct service names never share a response topic. |
| Naming.RequestNeverResponse | src/rmw_service.cpp:135-143 | A request topic name is never a response topic name, whatever the prefixes, names and flags. |
| Payload.Encode | src/rmw_request.cpp:83-91 | Serialising a request embeds the body, the sequence number and the writer GUID. |
| Payload.Decode | src/rmw_request.cpp:172-189 | Deserialisation succeeds exactly on payloads that carry an embedded triple. |
| Payload.DecodeEncode | rmw_gurumdds_cpp/src/rmw_response.cpp:218-226 | Decoding an encoded payload gives back the body and the correlation pair. |
| Payload.EncodeDecode | rmw_gurumdds_cpp/src/rmw_response.cpp:135-142 | A decodable payload is the encoding of what it decodes to. |
| Payload.NanosecondsOf | rmw_gurumdds_cpp/src/rmw_response.cpp:145-151 | `sec*1e9 + nanosec` always fits in int64. For a normalised time, the seconds and nanoseconds can be read back from it. |
| Entities.OwnedBuffers | src/rmw_request.cpp:198-203 | A popped entry always owns its SampleInfo. It owns a sample buffer exactly when the sample is non-null. |
| Request.SendRequest | src/rmw_request.cpp:31-108 | A failed check returns ERROR before the counter is touched. Once the payload is allocated, the counter is pre-incremented and never rolled back. The id is reported only on success and equals the new counter. The written payload carries exactly (new counter, writer GUID). The payload buffer is allocated and freed once. |
| Request.TakeRequest | src/rmw_request.cpp:112-205 | `taken` is written false after the argument checks. Exactly the front entry is popped, and the guard is cleared iff the queue is left empty. The entry's buffers are freed on every path after the pop. `taken` is true iff the entry is valid and decodes; the header then holds the embedded (GUID, sequence). Otherwise the header is untouched. A null sample in a valid entry, or one that does not decode, returns ERROR; every other path after the pop returns OK. A guard that tracked the queue still tracks it. |
| Response.TakeResponse | rmw_gurumdds_cpp/src/rmw_response.cpp:31-162 | `taken` is written false after the argument checks. NO_DATA returns OK; any other failed take returns ERROR; a failed deserialisation returns ERROR. `taken` is true iff the sample is valid, decodes and carries the client's own GUID. The header then holds the embedded pair, the source time in nanoseconds and a zero received time. Otherwise the header is untouched. The loan is returned iff the take was reached. Every sequence that was created is deleted exactly once, also when creating a later one fails. |
| Response.SendResponse | rmw_gurumdds_cpp/src/rmw_response.cpp:166-242 | The payload carries the request header's sequence number and GUID verbatim. A serialise or write failure returns ERROR. The payload is freed exactly once after allocation. |
| Correlation.FirstRequestIsOne | rmw_gurumdds_static_cpp/src/rmw_client.cpp:160 | The first request of a new client (counter 0) gets id 1. |
| Correlation.SuccessiveRequests | src/rmw_request.cpp:89-105 | Successive successful sends return strictly increasing ids. A send that fails after allocation still consumes one. |
| Correlation.ServeRequest | src/rmw_request.cpp:158-195 | A service that takes an encoded request sees its (GUID, sequence) pair and body. It answers with a payload that carries the same pair. |
| Correlation.ClientAccepts | rmw_gurumdds_cpp/src/rmw_response.cpp:119-162 | A valid, decodable response is accepted exactly when its GUID is the client's own. When accepted, the header holds the embedded pair; otherwise it is untouched. |
| Correlation.RoundTrip | rmw_gurumdds_cpp/src/rmw_response.cpp:144-151 | Send, serve and take back: the sender accepts its response under the (GUID, id) it sent. A client with another GUID on the same topic gets OK with `taken` false. |
| Discovery.Listener.constructor | include/rmw_gurumdds_shared_cpp/types.hpp:287-296 | The context points at the listener's own mutex and topic cache, at the node's graph guard and at the identifier. |
| Discovery.TopicCache.Apply | include/rmw_gurumdds_shared_cpp/types.hpp:115-117 | A cache operation is appended to the cache's log. |
| Discovery.GuardCondition.Trigger | include/rmw_gurumdds_shared_cpp/types.hpp:121-127 | Triggering counts one more trigger. |
| Discovery.DiscoveredQos | include/rmw_gurumdds_shared_cpp/types.hpp:104-114 | Discovered QoS has history UNKNOWN, depth SYSTEM_DEFAULT and conventions not avoided. Reliability and durability come from the sample. A subscription reports the default lifespan. |
| Discovery.SampleOp | include/rmw_gurumdds_shared_cpp/types.hpp:99-118 | A sample yields an add exactly when it is valid and alive; otherwise it yields a remove (including valid_data false while alive). Both are keyed by the instance-handle GUID. |
| Discovery.HandledCount | include/rmw_gurumdds_shared_cpp/types.hpp:96-98 | Counts the samples with a non-null instance handle. There are never more of them than samples. |
| Discovery.CacheOpsAppend | include/rmw_gurumdds_shared_cpp/types.hpp:90-119 | The operations of a concatenated batch are those of its parts, in order. |
| Discovery.CacheOpsOnePerHandledSample | include/rmw_gurumdds_shared_cpp/types.hpp:90-119 | A batch yields one operation per sample with a non-null handle. Each operation is the one such a sample yields. |
| Discovery.CacheOpsQosFixed | include/rmw_gurumdds_shared_cpp/types.hpp:190-200 | Every recorded endpoint has the fixed discovered QoS. For subscriptions this includes the default lifespan. |
| Discovery.ApplyBatch | include/rmw_gurumdds_shared_cpp/types.hpp:90-119 | The loop appends to the cache exactly the batch's operations, in batch order. |
| Discovery.OnDataAvailable | include/rmw_gurumdds_shared_cpp/types.hpp:51-135 | A null context returns at once. A failed allocation returns and frees what was made. NO_DATA and failed takes change nothing and return the loan. A batch appends its operations to the cache. The guard is triggered exactly once iff the batch is non-empty, even when every sample was skipped. Both sequences are freed. |
| Lifecycle.StopsAfterUnique | rmw_gurumdds_static_cpp/src/rmw_client.cpp:150-338 | The vendor outcomes alone decide how far a creation gets. |
| Lifecycle.CompletesIffAllSucceed | src/rmw_service.cpp:155-374 | Creation gets through every step exactly when every acquisition and every settling call succeeds. |
| Lifecycle.DestroyCompleteReleasesAll | src/rmw_service.cpp:462-538 | Destroying a record with every endpoint and a name releases the whole destroy order. |
| Lifecycle.ReleaseOrderWellFormed | src/rmw_service.cpp:392-433 | Each release order (client and service, failure and destroy) has no duplicates. Every entity in it comes before its owner, its topics and its record. |
| Lifecycle.ReleasedWellOrdered | rmw_gurumdds_static_cpp/src/rmw_client.cpp:351-376 | Whatever is held, a path releases exactly the held resources it names, each once, and dependents first. |
| ClientLifecycle.ClientCreationOrder | rmw_gurumdds_static_cpp/src/rmw_client.cpp:150-331 | The ten resources the client acquires, in order: record, two topics, publisher, writer, subscriber, reader, read condition, handle, name. |
| ClientLifecycle.UnwindClient | rmw_gurumdds_static_cpp/src/rmw_client.cpp:351-376 | The `fail:` block releases the held handle, then writer before publisher, then read condition before reader before subscriber, then the record, each only if held. |
| ClientLifecycle.ClientUnwindLeaksTopicsAndName | rmw_gurumdds_static_cpp/src/rmw_client.cpp:351-376 | After any failed creation, the `fail:` block releases exactly what was acquired except the two topics and the name copy. |
| ClientLifecycle.CreatedOwnersHeld | rmw_gurumdds_static_cpp/src/rmw_client.cpp:239-311 | At every failure point, an acquired endpoint's owner was acquired before it. |
| ClientLifecycle.AcquireClientResources | rmw_gurumdds_static_cpp/src/rmw_client.cpp:150-331 | The acquisition steps stop exactly where the first vendor failure is. |
| ClientLifecycle.CreateClient | rmw_gurumdds_static_cpp/src/rmw_client.cpp:43-376 | Invalid arguments return null with nothing acquired. Otherwise creation acquires a prefix of its order. A null result releases what the `fail:` block releases. A new client has every endpoint, the given GUID and counter 0. |
| ClientLifecycle.CreateClientEntities | rmw_gurumdds_static_cpp/src/rmw_client.cpp:150-376 | The same, once the topic names are built. |
| ClientLifecycle.TeardownRequestSide | rmw_gurumdds_static_cpp/src/rmw_client.cpp:405-423 | The writer goes before the publisher, both only under a present publisher. The side fails iff a writer has no publisher or a deletion fails. |
| ClientLifecycle.TeardownResponseSide | rmw_gurumdds_static_cpp/src/rmw_client.cpp:425-454 | The read condition goes before the reader, which goes before the subscriber, each only under its owner. The side fails iff a chain is broken or a deletion fails. |
| ClientLifecycle.TeardownClientEntities | rmw_gurumdds_static_cpp/src/rmw_client.cpp:403-460 | Both sides run in order without stopping early. Nothing is deleted without a participant. The teardown fails iff some chain is inconsistent or some deletion fails. |
| ClientLifecycle.DestroyClient | rmw_gurumdds_static_cpp/src/rmw_client.cpp:380-479 | Bad arguments return ERROR and change nothing. Otherwise the client releases everything it holds in destroy order, and the record, the name and the handle always go. The result is the guard trigger's, whatever the teardown errors. |
| ClientLifecycle.ServiceServerIsAvailable | rmw_gurumdds_static_cpp/src/rmw_client.cpp:483-583 | Bad arguments return ERROR without writing `is_available`. Otherwise it is written false, and becomes true iff matched subscriptions > 0 and then matched publications > 0. The second query is made only after a positive first count. |
| ClientLifecycle.ClientCreateDestroyLeavesTopics | rmw_gurumdds_static_cpp/src/rmw_client.cpp:403-479 | A client created and then destroyed has released everything it acquired except its two topics, and nothing else. |
| ServiceLifecycle.ServiceCreationOrder | src/rmw_service.cpp:155-368 | The twelve resources the service acquires, in order: record, two type supports, two topics, subscriber, reader, read condition, publisher, writer, handle, name. |
| ServiceLifecycle.AcquireServiceTopics | src/rmw_service.cpp:155-261 | The steps up to both topics stop at the first vendor failure or hand over with five resources acquired. |
| ServiceLifecycle.AcquireServiceEndpoints | src/rmw_service.cpp:263-374 | The remaining steps stop exactly at the first vendor failure. |
| ServiceLifecycle.AcquireServiceResources | src/rmw_service.cpp:155-374 | All acquisition steps stop exactly at the first vendor failure. |
| ServiceLifecycle.UnwindService | src/rmw_service.cpp:392-433 | The `fail:` block releases the held handle, then the subscriber chain, then the publisher chain, both topics, both type supports and the record, each only if held. |
| ServiceLifecycle.UnwindServiceEndpoints | src/rmw_service.cpp:392-412 | The handle and both endpoint chains are released in that order, each only if held. |
| ServiceLifecycle.ServiceUnwindReleasesAllButName | src/rmw_service.cpp:392-433 | After any failed creation, the `fail:` block releases exactly what was acquired except the name copy. |
| ServiceLifecycle.ServiceCreatedOwnersHeld | src/rmw_service.cpp:263-353 | At every failure point, an acquired endpoint's owner was acquired before it. |
| ServiceLifecycle.CreateService | src/rmw_service.cpp:41-433 | Invalid arguments, including empty type names or metastrings, return null with nothing acquired. Otherwise creation acquires a prefix of its order. A null result releases what the `fail:` block releases. On success both temporary type supports are deleted. |
| ServiceLifecycle.CreateServiceEntities | src/rmw_service.cpp:155-433 | The same, once the topic names are built. |
| ServiceLifecycle.FailedTeardownUnique | src/rmw_service.cpp:463-519 | Two deletion sequences that both satisfy `FailedTeardown` are equal, so a failed teardown's deletions are fixed by the endpoints and the vendor outcomes. Under `FailedTeardown`, an inconsistent subscriber chain, or a missing participant, deletes nothing. A consistent subscriber chain followed by an inconsistent publisher chain deletes the whole subscriber chain. Otherwise the teardown deletes everything up to the first failed deletion. |
| ServiceLifecycle.ChainFailsSplit | src/rmw_service.cpp:462-519 | With a participant, the teardown fails exactly when its subscriber chain or its publisher chain fails. |
| ServiceLifecycle.TeardownReaderSide | src/rmw_service.cpp:464-493 | The read condition goes before the reader, which goes before the subscriber. It stops at the first failure. An inconsistent chain deletes nothing. Otherwise every deletion before the last succeeded, and the last one failed. |
| ServiceLifecycle.TeardownWriterSide | src/rmw_service.cpp:495-513 | The writer goes before the publisher. It stops at the first failure. An inconsistent chain deletes nothing; otherwise the account of the deletions is the same. |
| ServiceLifecycle.TeardownServiceChains | src/rmw_service.cpp:463-513 | The subscriber chain runs before the publisher chain. The second runs only when the first succeeded. The teardown fails iff some chain is inconsistent or some deletion fails. On failure it made exactly the deletions `FailedTeardown` describes. |
| ServiceLifecycle.TeardownServiceEntities | src/rmw_service.cpp:462-519 | The same over a whole record. Without a participant, nothing is deleted, and the teardown fails iff a group is present. |
| ServiceLifecycle.DestroyService | src/rmw_service.cpp:437-539 | A null node or service returns INVALID_ARGUMENT, and a mismatched identifier returns INCORRECT_RMW_IMPLEMENTATION. A failed teardown returns ERROR with the record, the name and the handle kept, whatever the trigger would return, because the trigger is never reached. It has made exactly the deletions `FailedTeardown` describes (none when the subscriber chain is inconsistent). A successful one releases everything held, dependents first, and returns the trigger result. |
| ServiceLifecycle.ReleaseServiceHandle | src/rmw_service.cpp:459-538 | The destroy after the argument checks, with the same account. |
| ServiceLifecycle.ServiceCreateDestroyLeavesTopics | src/rmw_service.cpp:462-538 | A service created and then destroyed has released every resource it acquired except its two topics and its two type supports, which a successful creation deletes itself. It releases nothing else. |
| Init.InitOptionsInit | rmw_gurumdds_static_cpp/src/rmw_init.cpp:25-38 | Null options, an invalid allocator or options that already carry an identifier return INVALID_ARGUMENT and change nothing. Otherwise the options get instance 0, this implementation, the allocator and no implementation data. |
| Init.InitOptionsCopy | rmw_gurumdds_static_cpp/src/rmw_init.cpp:41-56 | Null arguments return INVALID_ARGUMENT, and a foreign source returns INCORRECT_RMW_IMPLEMENTATION. A destination that is not zero-initialised returns INVALID_ARGUMENT. Otherwise the destination equals the source. |
| Init.InitOptionsFini | rmw_gurumdds_static_cpp/src/rmw_init.cpp:59-70 | Null options or an invalid allocator return INVALID_ARGUMENT, checked before the identifier. A foreign identifier is refused. Otherwise the options are zero-initialised again. |
| Init.RmwInit | rmw_gurumdds_static_cpp/src/rmw_init.cpp:73-102 | The context gets the options' instance id, this implementation and no implementation data. It returns OK even when the participant factory is missing. |
| Init.Shutdown | rmw_gurumdds_static_cpp/src/rmw_init.cpp:105-117 | It changes nothing and returns OK iff the context is non-null and of this implementation. |
| Init.ContextFini | rmw_gurumdds_static_cpp/src/rmw_init.cpp:120-131 | After the null and identifier checks, the context is zero-initialised. |
| Init.InitTwiceRefused | rmw_gurumdds_static_cpp/src/rmw_init.cpp:29-32 | A second init of initialised options is refused and leaves the first in place. |
| Init.FiniThenInit | rmw_gurumdds_static_cpp/src/rmw_init.cpp:68 | After fini, init succeeds again with any valid allocator. |
| Init.ContextLifecycle | rmw_gurumdds_static_cpp/src/rmw_init.cpp:25-131 | Init, copy, rmw_init, shutdown and context fini from zero-initialised options all return OK. The context ends zero-initialised, and the copy keeps the allocator. |

## Where the code and its description differ

The model follows the code in each of these cases:

- **Creation failure paths.**
  - They do not release everything acquired. The client's `fail:` block
    deletes neither topic and does not free the copy of the service name.
    The service's `fail:` block does not free the name either, because
    `rmw_*_free` frees only the handle struct.
  - Neither path runs in strict reverse acquisition order. The client
    releases its publisher chain before its subscriber chain, which is the
    order it created them in.
- **Client destroy.** `rmw_destroy_client` records teardown errors, but its
  result is the graph guard trigger's, which overwrites them.
- **Service destroy.** `rmw_destroy_service` stops at the first failed deletion
  or inconsistent chain. It does not continue with the sibling chain.
- **Destroy without a record.** When a handle has no record, both destroy
  functions free only the handle. The copy of the service name is not
  freed.
- **Discovery batches.**
  - A batch is not bounded to 8 samples. The sequences are created with
    capacity 8, but the take asks for an unlimited number.
  - The graph guard is triggered for every non-empty batch, even when every
    sample was skipped.
  - A sample that is alive but has `valid_data` false yields a removal.

## Left out

- Vendor DDS calls, type-support registration and serialisation are not
  modelled. Their outcomes are the `Vendor` oracle, and payloads are the
  abstract `Wire` codec. The SDK and the serialised layout belong to code
  that is not part of this model.
- QoS translation (`qos.hpp`) is not part of this model. Translated
  policies are kept as opaque vendor settings.
- The topic cache's internals and queries (`topic_cache.hpp`) are not part of
  this model. The cache is kept as its log of operations.
- The producer side of the service request queue is not part of this
  model. `Entities.ServiceInfo.Push` is a plain append with the guard set.
- Mutexes, the 5 ms settling sleep and listener threading are not modelled.
  Each locked region is treated as atomic.
- Logging, error-message strings and the `RMW_GURUMDDS_INIT_LOG` environment
  lookup are not modelled.
- The values of the namespace prefixes are not modelled. `namespace_prefix.hpp`
  is not part of this model, so the prefixes are a parameter.
- Random generation of the client GUID is not modelled. The GUID is an input.
- Allocator validity is an abstract flag.
- The static and the dynamic package each have their own implementation
  identifier. The model uses one identifier for both, because no modelled
  operation compares the two.
- The listener re-installing its context after a batch
  (`dds_DataReader_set_listener_context`) is not modelled.
- Request.SendRequest: the sequence counter is an unbounded integer. The
  source's `int64_t` overflow after 2^63 sends is not modelled.
- Discovery.OnDataAvailable: a failing guard trigger is only logged in the
  source. The model counts the trigger attempt.
- ClientLifecycle.DestroyClient: the node's record is dereferenced without a
  null check in the source. The model requires a record rather than modelling
  the crash.
- Request.TakeRequest: popping an empty queue is undefined in the source, so
  a non-empty queue is a precondition.
