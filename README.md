# Poseidon producer: topic metadata and metadata recovery

Poseidon is a Kafka client for Ruby. This project models two parts of it in Dafny and proves properties of them.

1. **The topic-metadata entry of a Metadata response (API key 3, version 0) and the queries the producer makes on it.**
   - A `PartitionMetadata` is built, written and read as `(error, id, leader, replicas, isr)`. A `TopicMetadata` is built, written and read as `(error, name, partitions)`.
   - `write` appends a topic into a `RequestBuffer`. `read` parses it back from a `ResponseBuffer` that keeps a cursor.
   - The layout is big-endian:
     - an `int16` error, a string with an `int16` length prefix, and an `int32` partition count;
     - then, for each partition: an `int16` error, an `int32` id, an `int32` leader, and two arrays (replicas, then isr), each an `int32` count followed by `int32` ids.
   - `partition_leader(id)` finds the leader of the partition with that id.
   - `available_partitions` keeps the partitions whose error is 0 or 9 (replica not available).

2. **The producer's `send_messages` path with its metadata cache and its single recovery round.** A send makes these calls in order:
   - a passive `refresh_metadata` when the refresh interval has elapsed;
   - `ensure_metadata_available_for_topics`;
   - `send_to_broker` once per destination broker.

   When a send fails, the producer makes at most one recovery round: `reset_metadata`, then `ensure_metadata_available_for_topics` again, then one more `send_to_broker` per broker the failed messages now map to.

   The model treats the cluster as the set of live broker ids plus the topic metadata those brokers would report. Time is an integer clock. The `Producer` class records its calls in a ghost trace, so the call order the integration test expects becomes a theorem about that trace.

Modules:
- `Wire` — integers and strings on the wire.
- `WireArrays` — counted arrays.
- `Metadata` — the records and their queries.
- `MetadataCodec` — encoder and decoder as functions.
- `Buffers` — the `RequestBuffer` and `ResponseBuffer` classes.
- `MetadataIO` — `write` and `read` as methods over those buffers.
- `ClusterMetadataCache` — the cache, and the metadata request that refreshes it.
- `Dispatch` — routing, grouping by broker, and sending.
- `ProducerCore` — the call specifications and the `Producer` class.
- `ProducerProperties` — properties of every `send_messages` call.
- `Scenarios` — the integration test's scenarios.

Only the two test files show what the code must do. The implementation files of `TopicMetadata`, of the protocol buffers and of the producer are not part of this model. Where the tests leave a choice open, the model takes the choice noted below.

Choices the tests leave open:
- The test puts no constraint on the arguments of `reset_metadata` (metadata_failures_spec.rb:81, :130). The model clears the whole cache, including the last refresh time.
- A failed read from a `ResponseBuffer` leaves its cursor where it was, also when a string's length prefix was read before the failure.
- `refresh_interval_elapsed?` is called without arguments (metadata_failures_spec.rb:75, :119, :122), so there is one refresh time for the whole cache rather than one per topic.
- The ensure call after a reset needs metadata in every case. Its matcher at metadata_failures_spec.rb:82 checks nothing, but the cache is empty after the reset.
- A partition id with no partition gives `None` rather than an exception.

## Model

| member | source | states |
|---|---|---|
| Wire.Wrap16 | spec/unit/topic_metadata_spec.rb:10-11 | the written 16-bit field keeps the low 16 bits of the value, and an in-range value is unchanged |
| Wire.Wrap32 | spec/unit/topic_metadata_spec.rb:10-11 | the written 32-bit field keeps the low 32 bits of the value, and an in-range value is unchanged |
| Wire.Int16Wraps | spec/unit/topic_metadata_spec.rb:10-14 | decoding an encoded int16 gives back its low 16 bits as a signed value and consumes exactly two bytes |
| Wire.Int16RoundTrip | spec/unit/topic_metadata_spec.rb:10-14 | an int16 in range reads back unchanged, and the bytes after it are left over |
| Wire.Int32Wraps | spec/unit/topic_metadata_spec.rb:10-14 | decoding an encoded int32 gives back its low 32 bits as a signed value and consumes exactly four bytes |
| Wire.Int32RoundTrip | spec/unit/topic_metadata_spec.rb:10-14 | an int32 in range reads back unchanged, and the bytes after it are left over |
| Wire.StringRoundTrip | spec/unit/topic_metadata_spec.rb:8-14 | a name with an int16 length prefix reads back unchanged, with the following bytes left over |
| Wire.Uint16RoundTrip | spec/unit/topic_metadata_spec.rb:10-14 | the two big-endian bytes of an unsigned 16-bit value recombine to that value |
| WireArrays.ElementsRoundTrip | spec/unit/topic_metadata_spec.rb:6-14 | decoding n encoded elements gives back the n elements, in order, when each element round-trips |
| WireArrays.DecodeElementsFails | spec/unit/topic_metadata_spec.rb:13-14 | an element that cannot be decoded makes the whole array fail |
| WireArrays.ArrayRoundTrip | spec/unit/topic_metadata_spec.rb:6-14 | an int32-counted array reads back unchanged, with the following bytes left over |
| MetadataCodec.Int32ArrayRoundTrip | spec/unit/topic_metadata_spec.rb:6 | the replica and isr id arrays read back unchanged |
| MetadataCodec.PartitionRoundTrip | spec/unit/topic_metadata_spec.rb:6-14 | a partition entry, written as (error, id, leader, replicas, isr), reads back as an equal partition |
| MetadataCodec.TopicRoundTrip | spec/unit/topic_metadata_spec.rb:5-15 | a topic written as (error, name, partitions) reads back as an equal topic, and the bytes after it are left over |
| MetadataCodec.ExampleIdListBytes | spec/unit/topic_metadata_spec.rb:6 | the id list [0] is written as the count 1 followed by the id 0 |
| MetadataCodec.ExampleFieldOrderBytes | spec/unit/topic_metadata_spec.rb:6 | a partition with distinct fields (9, 1, 2, [3], [4]) is written in the order error, id, leader, replicas, isr, and each field appears at its width |
| MetadataCodec.ExamplePartitionBytes | spec/unit/topic_metadata_spec.rb:6 | the test's partition, all of whose fields are 0, is a two-byte error followed by two four-byte fields and two counted id lists of eight bytes each |
| MetadataCodec.ExampleNameBytes | spec/unit/topic_metadata_spec.rb:8 | the name "topic" is written as its length 5 followed by its five bytes |
| MetadataCodec.ExampleTopicBytes | spec/unit/topic_metadata_spec.rb:5-11 | the round-trip test's topic is written as its exact byte sequence |
| Buffers.RequestBuffer.constructor | spec/unit/topic_metadata_spec.rb:10 | a new request buffer is empty |
| Buffers.RequestBuffer.WriteInt16 | spec/unit/topic_metadata_spec.rb:11 | the buffer becomes its old bytes followed by the encoded int16 |
| Buffers.RequestBuffer.WriteInt32 | spec/unit/topic_metadata_spec.rb:11 | the buffer becomes its old bytes followed by the encoded int32 |
| Buffers.RequestBuffer.WriteString | spec/unit/topic_metadata_spec.rb:11 | the buffer becomes its old bytes followed by the length-prefixed string |
| Buffers.ResponseBuffer.constructor | spec/unit/topic_metadata_spec.rb:13 | a response buffer over some bytes starts at cursor 0 with all of them remaining |
| Buffers.ResponseBuffer.ReadInt16 | spec/unit/topic_metadata_spec.rb:14 | gives the decoded int16 and advances past it, or fails and leaves the cursor where it was |
| Buffers.ResponseBuffer.ReadInt32 | spec/unit/topic_metadata_spec.rb:14 | gives the decoded int32 and advances past it, or fails and leaves the cursor where it was |
| Buffers.ResponseBuffer.ReadString | spec/unit/topic_metadata_spec.rb:14 | gives the decoded string and advances past it, or fails and leaves the cursor where it was, even when the length prefix was readable |
| MetadataIO.WriteInt32Array | spec/unit/topic_metadata_spec.rb:11 | the loop appends exactly the encoding of the counted id array |
| MetadataIO.WritePartition | spec/unit/topic_metadata_spec.rb:11 | appends exactly the encoding of one partition |
| MetadataIO.WritePartitionEntries | spec/unit/topic_metadata_spec.rb:11 | the loop appends the partitions' encodings one after another |
| MetadataIO.WritePartitions | spec/unit/topic_metadata_spec.rb:11 | appends the count and then the partitions |
| MetadataIO.Write | spec/unit/topic_metadata_spec.rb:10-11 | `write` appends exactly the topic's encoding to the buffer |
| MetadataIO.ReadInt32Array | spec/unit/topic_metadata_spec.rb:13-14 | the loop reads what the array decoder gives and advances by what it consumed, or fails |
| MetadataIO.ReadPartition | spec/unit/topic_metadata_spec.rb:13-14 | reads what the partition decoder gives and advances by what it consumed, or fails |
| MetadataIO.ReadPartitions | spec/unit/topic_metadata_spec.rb:13-14 | the loop reads the counted partitions as the decoder does, or fails |
| MetadataIO.Read | spec/unit/topic_metadata_spec.rb:13-14 | `read` gives what the topic decoder gives and advances by what it consumed, or fails |
| MetadataIO.RoundTripThroughBuffers | spec/unit/topic_metadata_spec.rb:5-15 | writing a topic into a new request buffer and reading it from a response buffer over those bytes gives the same topic and consumes every byte |
| Metadata.AvailablePartitions | spec/unit/topic_metadata_spec.rb:27-41 | the available partitions are drawn from the topic's own partitions, all have error 0 or 9, and there are never more of them than partitions |
| Metadata.AvailablePartitionsMembership | spec/unit/topic_metadata_spec.rb:27-41 | a partition is available exactly when the topic has it and its error is 0 or 9 |
| Metadata.AvailablePartitionsKeepOrder | spec/unit/topic_metadata_spec.rb:27-41 | the filter keeps wire order, and a single partition is kept exactly when its error is 0 or 9 |
| Metadata.AvailablePartitionsAll | spec/unit/topic_metadata_spec.rb:27-41 | the filter drops nothing exactly when every partition has error 0 or 9 |
| Metadata.SinglePartitionAvailability | spec/unit/topic_metadata_spec.rb:27-41 | a one-partition topic has 1 available partition with error 0 or 9 (line 32) and 0 with error 2 or any other error (line 40) |
| Metadata.FilterAvailableMembership | spec/unit/topic_metadata_spec.rb:27-41 | a partition survives the availability filter exactly when it is in the list and has error 0 or 9 |
| Metadata.FilterAvailableAppend | spec/unit/topic_metadata_spec.rb:27-41 | filtering a concatenation is the same as concatenating the filtered parts |
| Metadata.PartitionLeader | spec/unit/topic_metadata_spec.rb:18-24 | gives the leader of the first partition with that id, and None exactly when no partition has that id |
| Metadata.PartitionLeaderOfUnique | spec/unit/topic_metadata_spec.rb:18-24 | when ids are unique, the leader found for a partition's id is that partition's leader |
| Metadata.LeaderOfPartitionZero | spec/unit/topic_metadata_spec.rb:18-24 | the test's topic gives leader 0 for partition 0 |
| Metadata.LeaderOfMissingPartition | spec/unit/topic_metadata_spec.rb:18-24 | the test's topic gives no leader for partition 1 |
| ClusterMetadataCache.ReportedTopic | spec/integration/multiple_brokers/metadata_failures_spec.rb:41-50 | a topic the cluster does not have is reported with error 3 (unknown topic or partition) and no partitions |
| ClusterMetadataCache.FetchMetadata | spec/integration/multiple_brokers/metadata_failures_spec.rb:28-37 | a metadata request fails exactly when no seed or known broker is up; otherwise it lists the live brokers and one entry per requested topic |
| ClusterMetadataCache.Update | spec/integration/multiple_brokers/metadata_failures_spec.rb:125 | a response replaces the broker directory, replaces each reported topic wholesale, keeps the other topics and sets the refresh time |
| ClusterMetadataCache.MetadataForTopics | spec/integration/multiple_brokers/metadata_failures_spec.rb:64 | gives the cached entries of exactly the requested topics the cache holds |
| ClusterMetadataCache.StatusOf | spec/integration/multiple_brokers/metadata_failures_spec.rb:13-15 | a topic is Fresh exactly when it is cached without error, has partitions, and each partition is available with a known leader |
| ClusterMetadataCache.RefreshIntervalAfterUpdate | spec/integration/multiple_brokers/metadata_failures_spec.rb:119-122 | after a refresh at time t, the interval has elapsed at time t' exactly when t' - t reaches it |
| ClusterMetadataCache.NotElapsedRightAfterUpdate | spec/integration/multiple_brokers/metadata_failures_spec.rb:75 | right after a refresh, a positive interval has not elapsed |
| ClusterMetadataCache.RefreshIntervalMonotonic | spec/integration/multiple_brokers/metadata_failures_spec.rb:121-122 | once the interval has elapsed, it stays elapsed as time goes on |
| ClusterMetadataCache.RefreshedTopicsAreReported | spec/integration/multiple_brokers/metadata_failures_spec.rb:135 | after a refresh, the cache gives exactly what the cluster reports for the requested topics |
| ClusterMetadataCache.FreshTopicIsRoutable | spec/integration/multiple_brokers/metadata_failures_spec.rb:66 | a Fresh topic has an available partition, and every available partition's leader is a known broker |
| ClusterMetadataCache.EmptyNeedsMetadata | spec/integration/multiple_brokers/metadata_failures_spec.rb:81-82 | after a reset, ensure needs metadata for any non-empty set of topics |
| Dispatch.TopicSet | spec/integration/multiple_brokers/metadata_failures_spec.rb:125 | the set of topics of a send holds exactly the topics of its messages |
| Dispatch.Route | spec/integration/multiple_brokers/metadata_failures_spec.rb:69 | a message goes to the leader of one of its topic's available partitions, and has no destination exactly when the topic is not cached or has no available partition |
| Dispatch.BatchIndex | spec/integration/multiple_brokers/metadata_failures_spec.rb:79 | finds the batch of a broker when there is one |
| Dispatch.GroupCorrect | spec/integration/multiple_brokers/metadata_failures_spec.rb:79 | grouping gives one batch per destination broker, with distinct brokers, holding exactly the messages routed there in their original order; the unroutable messages are exactly those without a destination |
| Dispatch.RoutedToSound | spec/integration/multiple_brokers/metadata_failures_spec.rb:79 | every message routed to a broker is one of the inputs and Route sends it there |
| Dispatch.UnroutableSound | spec/integration/multiple_brokers/metadata_failures_spec.rb:79 | a message is unroutable exactly when it is an input without a destination |
| Dispatch.AddToBatchMessages | spec/integration/multiple_brokers/metadata_failures_spec.rb:79 | adding a routed message to the batches adds exactly that message |
| Dispatch.GroupPartition | spec/integration/multiple_brokers/metadata_failures_spec.rb:79 | batched and unroutable messages together are the input messages, with no duplicates and none dropped |
| Dispatch.SendBatch | spec/integration/multiple_brokers/metadata_failures_spec.rb:79-83 | a produce request succeeds exactly when the broker is up and, with required_acks 1, leads every partition of the batch; it fails with BrokerUnavailable exactly when the broker is down |
| Dispatch.DispatchPartition | spec/integration/multiple_brokers/metadata_failures_spec.rb:79-83 | after sending the batches, delivered and failed messages together are the batched messages |
| Dispatch.DispatchErrors | spec/integration/multiple_brokers/metadata_failures_spec.rb:79-83 | there is no error exactly when every batch is acknowledged, and then nothing has failed |
| Dispatch.DispatchFailuresCovered | spec/integration/multiple_brokers/metadata_failures_spec.rb:79-83 | with non-empty batches, each error has at least one failed message |
| Dispatch.AttemptPartition | spec/integration/multiple_brokers/metadata_failures_spec.rb:79-83 | one attempt splits the messages into delivered and failed, and without errors delivers them all |
| Dispatch.FreshMessagesRoute | spec/integration/multiple_brokers/metadata_failures_spec.rb:78-79 | when every topic is Fresh, every message has a destination |
| Dispatch.FreshBatchBroker | spec/integration/multiple_brokers/metadata_failures_spec.rb:78-79 | when every topic is Fresh, every destination broker is a known broker |
| Dispatch.AttemptRoutesFresh | spec/integration/multiple_brokers/metadata_failures_spec.rb:78-79 | when every topic is Fresh, nothing is unroutable, and the batches go to distinct known brokers, each with some message |
| Dispatch.AttemptErrorsFail | spec/integration/multiple_brokers/metadata_failures_spec.rb:79-81 | an attempt that reports an error has failed messages and has either sent a batch or found an unroutable message |
| ProducerCore.RefreshSpec | spec/integration/multiple_brokers/metadata_failures_spec.rb:125 | refresh_metadata makes one request for the topics; it succeeds exactly when a seed or known broker is up, and then the cache holds the live brokers and what the cluster reports for those topics, keeps its other topics and records `now`; on failure the cache is unchanged |
| ProducerCore.EnsureSpec | spec/integration/multiple_brokers/metadata_failures_spec.rb:78-82 | ensure records whether it needs metadata; it is a no-op when it does not and refreshes once when it does; it succeeds exactly when every topic is then Fresh |
| ProducerCore.PassiveSpec | spec/integration/multiple_brokers/metadata_failures_spec.rb:119-125 | the passive refresh is a refresh when the interval has elapsed and makes no call otherwise |
| ProducerCore.SendEvents | spec/integration/multiple_brokers/metadata_failures_spec.rb:79 | one send_to_broker event per batch, to that batch's broker, in order |
| ProducerCore.Producer.constructor | spec/integration/multiple_brokers/metadata_failures_spec.rb:30 | a new producer has its configuration, an empty cache and no calls |
| ProducerCore.Producer.RefreshMetadata | spec/integration/multiple_brokers/metadata_failures_spec.rb:125 | the method's result, new cache and recorded call are those of RefreshSpec |
| ProducerCore.Producer.EnsureMetadataAvailableForTopics | spec/integration/multiple_brokers/metadata_failures_spec.rb:78 | the method's result, new cache and recorded calls are those of EnsureSpec |
| ProducerCore.Producer.SendToBroker | spec/integration/multiple_brokers/metadata_failures_spec.rb:79 | records one send to the batch's broker, returns what SendBatch gives, and leaves the cache alone |
| ProducerCore.Producer.DispatchBatches | spec/integration/multiple_brokers/metadata_failures_spec.rb:79-83 | the loop sends every batch in order and returns the dispatch result, recording one send per batch |
| ProducerCore.Producer.AttemptDispatch | spec/integration/multiple_brokers/metadata_failures_spec.rb:79-83 | groups over the current cache and dispatches; result and recorded sends are those of Attempt |
| ProducerCore.Producer.ResetMetadata | spec/integration/multiple_brokers/metadata_failures_spec.rb:81 | empties the cache and records the reset |
| ProducerCore.Producer.PassiveRefresh | spec/integration/multiple_brokers/metadata_failures_spec.rb:119-125 | result, cache and calls are those of PassiveSpec |
| ProducerCore.Producer.Recover | spec/integration/multiple_brokers/metadata_failures_spec.rb:81-83 | the recovery round's result, delivered messages, cache and calls are those of RecoverySpec |
| ProducerCore.Producer.DispatchWithRecovery | spec/integration/multiple_brokers/metadata_failures_spec.rb:79-85 | dispatch with at most one recovery round, as DispatchSpec gives it |
| ProducerCore.Producer.EnsureAndDispatch | spec/integration/multiple_brokers/metadata_failures_spec.rb:78-85 | ensure, then dispatch with recovery, as EnsureAndDispatchSpec gives it |
| ProducerCore.Producer.SendMessages | spec/integration/multiple_brokers/metadata_failures_spec.rb:35-36 | send_messages: the result, delivered messages, new cache and appended calls are those of SendMessagesSpec |
| ProducerProperties.RecoveryTrace | spec/integration/multiple_brokers/metadata_failures_spec.rb:81-83 | the recovery round starts with its only reset, directly followed by an ensure that needs metadata |
| ProducerProperties.RecoveryDelivery | spec/integration/multiple_brokers/metadata_failures_spec.rb:83-85 | recovery delivers each failed message at most once, and succeeds exactly when it delivers all of them |
| ProducerProperties.DispatchTrace | spec/integration/multiple_brokers/metadata_failures_spec.rb:79-83 | from a cache Fresh for every topic, dispatch resets exactly when a broker refuses a batch of the first attempt; it resets at most once, only after a send and right before an ensure that needs metadata, and succeeds when it never resets |
| ProducerProperties.DispatchDelivery | spec/integration/multiple_brokers/metadata_failures_spec.rb:85 | dispatch delivers each message at most once, and succeeds exactly when it delivers all of them |
| ProducerProperties.EnsureAndDispatchTrace | spec/integration/multiple_brokers/metadata_failures_spec.rb:78-85 | the trace starts with an ensure and every send follows an ensure; there is at most one reset, right before an ensure needing metadata; it happens exactly when the ensure succeeded and a broker then refused a batch of the first attempt |
| ProducerProperties.SendMessagesTrace | spec/integration/multiple_brokers/metadata_failures_spec.rb:78-85 | in every send_messages call, each send follows an ensure and there is at most one reset; the reset happens exactly when the passive refresh and the ensure succeeded and a broker then refused a batch of the first attempt (so no reset when every send succeeds, line 130); it comes after a send and right before an ensure needing metadata; a call that sends without resetting succeeds |
| ProducerProperties.SendMessagesDelivery | spec/integration/multiple_brokers/metadata_failures_spec.rb:85 | no message is delivered twice, a successful send delivers every message, and a failed send of some messages leaves one undelivered |
| ProducerProperties.FreshAttemptFails | spec/integration/multiple_brokers/metadata_failures_spec.rb:79-81 | over a cache Fresh for every topic, an attempt reports an error exactly when some broker refuses its batch |
| ProducerProperties.QuietPrefix | spec/integration/multiple_brokers/metadata_failures_spec.rb:125-130 | calls that neither send nor reset, placed before a trace, do not change where its resets are or whether it sends or resets |
| ProducerProperties.ResetShape | spec/integration/multiple_brokers/metadata_failures_spec.rb:79-82 | sends, then one reset, then an ensure needing metadata with no later reset, meet both reset properties |
| Scenarios.OnePartitionAvailable | spec/integration/multiple_brokers/metadata_failures_spec.rb:66 | a one-partition topic with error 0 or 9 has exactly that partition available |
| Scenarios.OnePartitionFresh | spec/integration/multiple_brokers/metadata_failures_spec.rb:78 | such a topic cached with a known leader is Fresh and needs no metadata |
| Scenarios.OneTopicSet | spec/integration/multiple_brokers/metadata_failures_spec.rb:125 | one message to a topic asks for the metadata of just that topic |
| Scenarios.OneMessageGroup | spec/integration/multiple_brokers/metadata_failures_spec.rb:79 | one message to a cached one-partition topic forms a single batch to that partition's leader, and nothing is unroutable |
| Scenarios.OneMessageSent | spec/integration/multiple_brokers/metadata_failures_spec.rb:127 | that batch is acknowledged when its broker is up and the cluster reports it as the partition's leader |
| Scenarios.OneBatchDispatch | spec/integration/multiple_brokers/metadata_failures_spec.rb:79-83 | dispatching a single batch delivers it when it is acknowledged and fails it with the send's error otherwise |
| Scenarios.OneMessageAttempt | spec/integration/multiple_brokers/metadata_failures_spec.rb:79 | one message for it forms one batch to the cached leader, delivered when acknowledged and failed otherwise |
| Scenarios.RefreshOneTopic | spec/integration/multiple_brokers/metadata_failures_spec.rb:125 | a refresh of one existing topic while some broker is reachable succeeds, and the cache then holds the live brokers and the cluster's entry for that topic |
| Scenarios.ElapsedRefresh | spec/integration/multiple_brokers/metadata_failures_spec.rb:121-125 | once the interval has elapsed, the passive refresh is exactly refresh({topic}) and brings the cluster's entry into the cache |
| Scenarios.EnsureNoOp | spec/integration/multiple_brokers/metadata_failures_spec.rb:78 | ensure over that cache is a no-op recorded as not needing metadata |
| Scenarios.EnsureFromEmpty | spec/integration/multiple_brokers/metadata_failures_spec.rb:82 | after the reset, ensure needs metadata, refreshes once and succeeds with the cluster's entry |
| Scenarios.DispatchDelivered | spec/integration/multiple_brokers/metadata_failures_spec.rb:127 | when the cached leader is up and still leads, dispatch makes one send and succeeds |
| Scenarios.EnsureAndDispatchDelivered | spec/integration/multiple_brokers/metadata_failures_spec.rb:126-127 | with a Fresh cache and the leader up, ensure not needing metadata is followed by one send to the leader, and the message is delivered |
| Scenarios.DispatchToDownLeader | spec/integration/multiple_brokers/metadata_failures_spec.rb:79-81 | when the cached leader is down, its send fails and the recovery round follows |
| Scenarios.RefreshThenDelivered | spec/integration/multiple_brokers/metadata_failures_spec.rb:125-132 | with the interval elapsed, one send is exactly refresh({topic}), ensure not needing metadata, and send to the reported leader; it succeeds and the cache holds the cluster's entry |
| Scenarios.UnreachableSeedsFail | spec/integration/multiple_brokers/metadata_failures_spec.rb:28-37 | with every seed down, the first send fails with UnableToFetchMetadata after one metadata request, delivers nothing and leaves the cache empty |
| Scenarios.UnreachableSeedsTestMessages | spec/integration/multiple_brokers/metadata_failures_spec.rb:22-36 | the test's two messages fail that way, with one request for topic1 and topic2 |
| Scenarios.FirstSend | spec/integration/multiple_brokers/metadata_failures_spec.rb:56-66 | the first send succeeds with calls refresh, ensure not needing metadata, and send to the leader; the cache then holds the topic with one available partition, error 0 |
| Scenarios.IntervalAfterFirstSend | spec/integration/multiple_brokers/metadata_failures_spec.rb:119-122 | after the first send, the interval has elapsed exactly when the time since the send reaches it |
| Scenarios.LeaderLoss | spec/integration/multiple_brokers/metadata_failures_spec.rb:73-85 | with the leader down and the interval not elapsed, the calls are exactly ensure (not needing), send to the old leader, reset, ensure (needing), refresh, send to the new leader; the send succeeds |
| Scenarios.LeaderLossEnsureAndDispatch | spec/integration/multiple_brokers/metadata_failures_spec.rb:78-85 | the ensure and dispatch phases of leader loss make those calls and succeed |
| Scenarios.LeaderLossDispatch | spec/integration/multiple_brokers/metadata_failures_spec.rb:79-85 | the dispatch phase of leader loss: send to the old leader, recovery, send to the new leader, success |
| Scenarios.LeaderLossRecovery | spec/integration/multiple_brokers/metadata_failures_spec.rb:81-83 | the recovery round finds the new leader: reset, ensure (needing), refresh, send to the new leader, success |
| Scenarios.ReplicaLoss | spec/integration/multiple_brokers/metadata_failures_spec.rb:121-139 | with a replica down and the interval elapsed, the calls are exactly refresh({topic}), ensure (not needing), send to the leader, with no reset; the send succeeds, and the cache shows one available partition with error 9, the same leader and replicas [leader] |
| Scenarios.UnreachableSeedsRun | spec/integration/multiple_brokers/metadata_failures_spec.rb:28-37 | a new producer whose seeds are down fails its first send with UnableToFetchMetadata after one recorded refresh |
| Scenarios.LeaderLossRun | spec/integration/multiple_brokers/metadata_failures_spec.rb:56-87 | one producer: the first send succeeds; afterwards the cache still shows the old leader and the interval has not elapsed; the second send succeeds with the recorded calls of the test |
| Scenarios.ReplicaLossRun | spec/integration/multiple_brokers/metadata_failures_spec.rb:94-141 | one producer: the first send succeeds with partition error 0; the cache then still lists the replica; once the interval has elapsed the second send succeeds without a reset; the cache then shows error 9, the same leader and replicas [leader] |

## Left out

- Sockets, the broker connection pool, broker host and port, and timeouts are left out. Brokers are ids. A metadata request succeeds when any seed or known broker is up. Which of them answers is not modelled, because every live broker gives the same answer.
- `spec/integration/simple/spec_helper.rb` is left out. Starting and stopping broker processes (`without_process`) becomes a change of the set of live brokers between two sends.
- `Timecop.travel` and the wall clock are left out. Time is an integer parameter.
- The RSpec mock machinery is left out: `.ordered`, `and_call_original`, and the matchers at metadata_failures_spec.rb:5-15. The ghost trace of `Event`s replaces it.
- The pending unknown-topic test (metadata_failures_spec.rb:41-50) and automatic topic creation are left out. An unknown topic is reported with error 3 and stays unknown.
- Dispatch.Route: the partitioner, which picks one of the available partitions, is an opaque function parameter. Key hashing is not modelled.
- Dispatch.SendBatch: does not model per-partition acknowledgements or the wait depth of each `required_acks` level. A batch is acknowledged or fails as a whole. Any non-zero `required_acks` requires the broker to lead every partition of the batch.
- ProducerCore.RecoverySpec: exactly one recovery round. A configurable retry count is not modelled, because the tests show one round and the implementation is not part of this model.
- Dispatch.Attempt: a message whose topic has no available partition fails with UnableToFetchMetadata without being sent. After a successful ensure this cannot happen (Dispatch.AttemptRoutesFresh).
- Names are one byte per character. UTF-8 encoding of multi-byte characters is not modelled.
- Compression, the consumer path, and concurrent callers sharing the cache are left out.
- The implementation files of `TopicMetadata`, `RequestBuffer`/`ResponseBuffer` and the producer are not part of this model.
