/**
 * The failure scenarios of the multiple-broker integration test, each stated
 * over any cluster of the shape the test builds: a topic with one partition
 * (id 0), a producer whose seed brokers may or may not be up, and brokers
 * taken down between two sends.
 */
module Scenarios {
  import opened Wrappers
  import opened Metadata
  import opened ClusterMetadataCache
  import opened Dispatch
  import opened ProducerCore

  /** The test's message: value "hello", no key. */
  function Hello(topic: string): (m: MessageToSend)
    ensures m.topic == topic && m.key == None
  {
    MessageToSend(topic, "hello", None)
  }

  /** A topic with no error and one partition, id 0, with the given error, leader and replicas. */
  function OnePartition(topic: string, error: int, leader: BrokerId, replicas: seq<BrokerId>): (t: TopicMetadata)
    ensures t.error == NO_ERROR && t.name == topic && |t.partitions| == 1
  {
    TopicMetadata(NO_ERROR, topic, [PartitionMetadata(error, 0, leader, replicas, replicas)])
  }

  // Concatenations of short traces, stated generically so that they stay cheap

  lemma PrependLiteral4<T>(a: T, b: T, c: T, d: T, e: T)
    ensures [a] + [b, c, d, e] == [a, b, c, d, e]
  {
  }

  lemma PrependLiteral5<T>(a: T, b: T, c: T, d: T, e: T, f: T)
    ensures [a] + [b, c, d, e, f] == [a, b, c, d, e, f]
  {
  }

  lemma JoinLiterals121<T>(a: T, b: T, c: T, d: T)
    ensures [a] + [b, c] + [d] == [a, b, c, d]
  {
  }

  lemma JoinLiterals111<T>(a: T, b: T, c: T)
    ensures [a] + ([b] + [c]) == [a, b, c]
  {
  }

  // Sending one message to a single-partition topic

  lemma OnePartitionAvailable(topic: string, error: int, leader: BrokerId, replicas: seq<BrokerId>)
    requires error == NO_ERROR || error == REPLICA_NOT_AVAILABLE
    ensures AvailablePartitions(OnePartition(topic, error, leader, replicas)) ==
            [PartitionMetadata(error, 0, leader, replicas, replicas)]
  {
    var p := PartitionMetadata(error, 0, leader, replicas, replicas);
    assert [p][1..] == [];
    assert FilterAvailable([p]) == [p] + FilterAvailable([]);
  }

  /** The cache holds the single-partition topic with its leader known: the topic is Fresh. */
  lemma OnePartitionFresh(md: ClusterMetadata, topic: string, error: int, leader: BrokerId, replicas: seq<BrokerId>)
    requires error == NO_ERROR || error == REPLICA_NOT_AVAILABLE
    requires topic in md.topics && md.topics[topic] == OnePartition(topic, error, leader, replicas)
    requires leader in md.brokers
    ensures StatusOf(md, topic) == Fresh && !NeedsMetadata(md, {topic})
  {
    var p := PartitionMetadata(error, 0, leader, replicas, replicas);
    assert forall q :: q in md.topics[topic].partitions ==> q == p;
  }

  /** One message for a single-partition topic forms one batch for the partition's leader. */
  lemma OneMessageGroup(md: ClusterMetadata, partitioner: Partitioner, topic: string, error: int, leader: BrokerId,
                        replicas: seq<BrokerId>)
    requires error == NO_ERROR || error == REPLICA_NOT_AVAILABLE
    requires topic in md.topics && md.topics[topic] == OnePartition(topic, error, leader, replicas)
    ensures Group(md, partitioner, [Hello(topic)]) == Grouping([BrokerBatch(leader, [Routed(Hello(topic), 0)])], [])
  {
    var m := Hello(topic);
    OnePartitionAvailable(topic, error, leader, replicas);
    assert Route(md, partitioner, m) == Some((leader, 0));
    assert [m][..0] == [];
    assert BatchIndex([], leader) == None;
  }

  /** The batch of that message is acknowledged when the leader is up and, per the cluster, still leads partition 0. */
  lemma OneMessageSent(cluster: Cluster, requiredAcks: int, topic: string, leader: BrokerId, error: int,
                       replicas: seq<BrokerId>)
    requires leader in cluster.up
    requires topic in cluster.topics && cluster.topics[topic] == OnePartition(topic, error, leader, replicas)
    ensures SendBatch(cluster, requiredAcks, BrokerBatch(leader, [Routed(Hello(topic), 0)])) == None
  {
    assert PartitionLeader(cluster.topics[topic], 0) == Some(leader);
    assert Leads(cluster, Routed(Hello(topic), 0), leader);
  }

  lemma OneBatchDispatch(cluster: Cluster, requiredAcks: int, batch: BrokerBatch)
    ensures DispatchAll(cluster, requiredAcks, [batch]) ==
      match SendBatch(cluster, requiredAcks, batch)
      case None => DispatchResult(BatchMessages(batch.messages), [], [])
      case Some(e) => DispatchResult([], BatchMessages(batch.messages), [e])
  {
    assert [batch][..0] == [];
  }

  /**
   * One message routed over a cache that holds its single-partition topic: one
   * batch to the cached leader, delivered when the cluster acknowledges it and
   * failed with the broker's error otherwise.
   */
  lemma OneMessageAttempt(md: ClusterMetadata, partitioner: Partitioner, cluster: Cluster, requiredAcks: int,
                          topic: string, error: int, leader: BrokerId, replicas: seq<BrokerId>)
    requires error == NO_ERROR || error == REPLICA_NOT_AVAILABLE
    requires topic in md.topics && md.topics[topic] == OnePartition(topic, error, leader, replicas)
    ensures var batch := BrokerBatch(leader, [Routed(Hello(topic), 0)]);
      var a := Attempt(md, partitioner, cluster, requiredAcks, [Hello(topic)]);
      && a.batches == [batch]
      && (SendBatch(cluster, requiredAcks, batch) == None ==> a.errors == [] && a.delivered == [Hello(topic)])
      && (SendBatch(cluster, requiredAcks, batch) != None ==>
            a.errors == [SendBatch(cluster, requiredAcks, batch).value] && a.failed == [Hello(topic)])
  {
    var batch := BrokerBatch(leader, [Routed(Hello(topic), 0)]);
    OneMessageGroup(md, partitioner, topic, error, leader, replicas);
    OneBatchDispatch(cluster, requiredAcks, batch);
    assert BatchMessages(batch.messages) == [Hello(topic)];
  }

  lemma OneTopicSet(topic: string)
    ensures TopicSet([Hello(topic)]) == {topic}
  {
    assert Hello(topic) in [Hello(topic)];
  }

  /** A refresh of one topic from any cache that reaches a live broker. */
  lemma RefreshOneTopic(cfg: Config, md: ClusterMetadata, cluster: Cluster, topic: string, now: int)
    requires (cfg.seeds + md.brokers) * cluster.up != {}
    requires topic in cluster.topics
    ensures var s := RefreshSpec(cfg, md, cluster, {topic}, now);
      && s.ok && s.md.brokers == cluster.up && s.md.lastRefreshedAt == Some(now)
      && topic in s.md.topics && s.md.topics[topic] == cluster.topics[topic]
  {
  }

  // One phase at a time, for one message to a single-partition topic

  /** Once the refresh interval has elapsed, the passive refresh asks for the topic and takes in the answer. */
  lemma ElapsedRefresh(cfg: Config, md: ClusterMetadata, cluster: Cluster, topic: string, now: int)
    requires RefreshIntervalElapsed(md, cfg.refreshIntervalMs, now)
    requires (cfg.seeds + md.brokers) * cluster.up != {}
    requires topic in cluster.topics
    ensures var p := PassiveSpec(cfg, md, cluster, {topic}, now);
      && p.ok && p.events == [Refresh({topic})] && p.md.brokers == cluster.up && p.md.lastRefreshedAt == Some(now)
      && topic in p.md.topics && p.md.topics[topic] == cluster.topics[topic]
  {
    RefreshOneTopic(cfg, md, cluster, topic, now);
  }

  /** The cache already holds the topic with a live leader: ensure is a no-op. */
  lemma EnsureNoOp(cfg: Config, md: ClusterMetadata, cluster: Cluster, topic: string, error: int, leader: BrokerId,
                   replicas: seq<BrokerId>, now: int)
    requires error == NO_ERROR || error == REPLICA_NOT_AVAILABLE
    requires topic in md.topics && md.topics[topic] == OnePartition(topic, error, leader, replicas)
    requires leader in md.brokers
    ensures EnsureSpec(cfg, md, cluster, {topic}, now) == Step(true, md, [Ensure(false)])
  {
    OnePartitionFresh(md, topic, error, leader, replicas);
  }

  /** The reset cache needs metadata: ensure refreshes, and the cluster's answer makes the topic Fresh. */
  lemma EnsureFromEmpty(cfg: Config, cluster: Cluster, topic: string, leader: BrokerId, replicas: seq<BrokerId>,
                        now: int)
    requires cfg.seeds * cluster.up != {} && leader in cluster.up
    requires topic in cluster.topics && cluster.topics[topic] == OnePartition(topic, NO_ERROR, leader, replicas)
    ensures var e := EnsureSpec(cfg, EMPTY, cluster, {topic}, now);
      && e.ok && e.events == [Ensure(true), Refresh({topic})]
      && e.md.brokers == cluster.up && topic in e.md.topics && e.md.topics[topic] == cluster.topics[topic]
  {
    EmptyNeedsMetadata({topic});
    assert (cfg.seeds + EMPTY.brokers) * cluster.up != {};
    RefreshOneTopic(cfg, EMPTY, cluster, topic, now);
    OnePartitionFresh(RefreshSpec(cfg, EMPTY, cluster, {topic}, now).md, topic, NO_ERROR, leader, replicas);
  }

  /** The one batch is acknowledged: a single send, and no recovery. */
  lemma DispatchDelivered(cfg: Config, md: ClusterMetadata, cluster: Cluster, topic: string, error: int,
                          leader: BrokerId, replicas: seq<BrokerId>, now: int)
    requires error == NO_ERROR || error == REPLICA_NOT_AVAILABLE
    requires topic in md.topics && md.topics[topic] == OnePartition(topic, error, leader, replicas)
    requires leader in cluster.up
    requires topic in cluster.topics && cluster.topics[topic] == OnePartition(topic, error, leader, replicas)
    ensures DispatchSpec(cfg, md, cluster, [Hello(topic)], now) == SendOutcome(Sent, md, [SendTo(leader)], [Hello(topic)])
  {
    OneMessageAttempt(md, cfg.partitioner, cluster, cfg.requiredAcks, topic, error, leader, replicas);
    OneMessageSent(cluster, cfg.requiredAcks, topic, leader, error, replicas);
    var a := Attempt(md, cfg.partitioner, cluster, cfg.requiredAcks, [Hello(topic)]);
    assert SendEvents(a.batches) == [SendTo(leader)];
  }

  /** Ensure finds nothing missing and the one batch is acknowledged. */
  lemma EnsureAndDispatchDelivered(cfg: Config, md: ClusterMetadata, cluster: Cluster, topic: string, error: int,
                                   leader: BrokerId, replicas: seq<BrokerId>, now: int)
    requires error == NO_ERROR || error == REPLICA_NOT_AVAILABLE
    requires topic in md.topics && md.topics[topic] == OnePartition(topic, error, leader, replicas)
    requires leader in md.brokers && leader in cluster.up
    requires topic in cluster.topics && cluster.topics[topic] == OnePartition(topic, error, leader, replicas)
    ensures EnsureAndDispatchSpec(cfg, md, cluster, [Hello(topic)], now) ==
            SendOutcome(Sent, md, [Ensure(false), SendTo(leader)], [Hello(topic)])
  {
    OneTopicSet(topic);
    EnsureNoOp(cfg, md, cluster, topic, error, leader, replicas, now);
    DispatchDelivered(cfg, md, cluster, topic, error, leader, replicas, now);
  }

  /** The cached leader is down: its batch fails, and the recovery round follows. */
  lemma DispatchToDownLeader(cfg: Config, md: ClusterMetadata, cluster: Cluster, topic: string, leader: BrokerId,
                             replicas: seq<BrokerId>, now: int)
    requires topic in md.topics && md.topics[topic] == OnePartition(topic, NO_ERROR, leader, replicas)
    requires leader !in cluster.up
    ensures var r := RecoverySpec(cfg, cluster, [Hello(topic)], now);
      DispatchSpec(cfg, md, cluster, [Hello(topic)], now) ==
        SendOutcome(r.result, r.md, [SendTo(leader)] + r.events, r.delivered)
  {
    OneMessageAttempt(md, cfg.partitioner, cluster, cfg.requiredAcks, topic, NO_ERROR, leader, replicas);
    var a := Attempt(md, cfg.partitioner, cluster, cfg.requiredAcks, [Hello(topic)]);
    assert SendEvents(a.batches) == [SendTo(leader)];
    assert a.delivered == [] by {
      AttemptPartition(md, cfg.partitioner, cluster, cfg.requiredAcks, [Hello(topic)]);
    }
  }

  /**
   * Once the refresh interval has elapsed, a send of one message refreshes, finds
   * the topic Fresh, and the leader the cluster reports acknowledges the batch.
   */
  lemma RefreshThenDelivered(cfg: Config, md: ClusterMetadata, cluster: Cluster, topic: string, error: int,
                             leader: BrokerId, replicas: seq<BrokerId>, now: int)
    requires error == NO_ERROR || error == REPLICA_NOT_AVAILABLE
    requires RefreshIntervalElapsed(md, cfg.refreshIntervalMs, now)
    requires (cfg.seeds + md.brokers) * cluster.up != {} && leader in cluster.up
    requires topic in cluster.topics && cluster.topics[topic] == OnePartition(topic, error, leader, replicas)
    ensures var o := SendMessagesSpec(cfg, md, cluster, [Hello(topic)], now);
      && o.result == Sent
      && o.events == [Refresh({topic}), Ensure(false), SendTo(leader)]
      && o.delivered == [Hello(topic)]
      && o.md.brokers == cluster.up && o.md.lastRefreshedAt == Some(now)
      && topic in o.md.topics && o.md.topics[topic] == cluster.topics[topic]
  {
    var msgs := [Hello(topic)];
    OneTopicSet(topic);
    ElapsedRefresh(cfg, md, cluster, topic, now);
    var p := PassiveSpec(cfg, md, cluster, {topic}, now);
    EnsureAndDispatchDelivered(cfg, p.md, cluster, topic, error, leader, replicas, now);
    var x := EnsureAndDispatchSpec(cfg, p.md, cluster, msgs, now);
    var o := SendMessagesSpec(cfg, md, cluster, msgs, now);
    assert o == SendOutcome(x.result, x.md, p.events + x.events, x.delivered);
    JoinLiterals111(Refresh({topic}), Ensure(false), SendTo(leader));
  }

  // The scenarios

  /**
   * No seed broker is reachable: the first send fails with UnableToFetchMetadata,
   * delivering nothing, after a single metadata request for all the topics.
   */
  lemma UnreachableSeedsFail(cfg: Config, cluster: Cluster, msgs: seq<MessageToSend>, now: int)
    requires cfg.seeds * cluster.up == {}
    ensures var o := SendMessagesSpec(cfg, EMPTY, cluster, msgs, now);
      && o.result == Failed(UnableToFetchMetadata)
      && o.events == [Refresh(TopicSet(msgs))]
      && o.delivered == [] && o.md == EMPTY
  {
    assert (cfg.seeds + EMPTY.brokers) * cluster.up == {};
  }

  /** The two messages of the test, for "topic1" and "topic2". */
  lemma UnreachableSeedsTestMessages(cfg: Config, cluster: Cluster, now: int)
    requires cfg.seeds * cluster.up == {}
    ensures var o := SendMessagesSpec(cfg, EMPTY, cluster, [Hello("topic1"), Hello("topic2")], now);
      o.result == Failed(UnableToFetchMetadata) && o.events == [Refresh({"topic1", "topic2"})]
  {
    var msgs := [Hello("topic1"), Hello("topic2")];
    UnreachableSeedsFail(cfg, cluster, msgs, now);
    assert msgs[0] in msgs && msgs[1] in msgs;
    assert TopicSet(msgs) == {"topic1", "topic2"};
  }

  /**
   * The first send to a topic: a refresh (the cache has never been refreshed), an
   * ensure that finds nothing missing, and one send to the leader, which succeeds.
   * The cache then holds the topic with one available partition, error 0.
   */
  lemma FirstSend(cfg: Config, cluster: Cluster, topic: string, leader: BrokerId, replicas: seq<BrokerId>, now: int)
    requires cfg.seeds * cluster.up != {}
    requires leader in cluster.up
    requires topic in cluster.topics && cluster.topics[topic] == OnePartition(topic, NO_ERROR, leader, replicas)
    ensures var o := SendMessagesSpec(cfg, EMPTY, cluster, [Hello(topic)], now);
      && o.result == Sent
      && o.events == [Refresh({topic}), Ensure(false), SendTo(leader)]
      && o.delivered == [Hello(topic)]
      && o.md.brokers == cluster.up && o.md.lastRefreshedAt == Some(now)
      && topic in o.md.topics && o.md.topics[topic] == OnePartition(topic, NO_ERROR, leader, replicas)
      && AvailablePartitions(o.md.topics[topic]) == [PartitionMetadata(NO_ERROR, 0, leader, replicas, replicas)]
  {
    assert (cfg.seeds + EMPTY.brokers) * cluster.up != {};
    RefreshThenDelivered(cfg, EMPTY, cluster, topic, NO_ERROR, leader, replicas, now);
    OnePartitionAvailable(topic, NO_ERROR, leader, replicas);
  }

  /**
   * Leader loss. The cache holds the topic as the first send left it, with
   * `leader` leading partition 0, refreshed at `refreshedAt`; the leader then
   * goes down and the cluster elects `newLeader`. Before the refresh interval
   * elapses, the next send makes exactly the calls ensure (not needing metadata),
   * send to the old leader, reset, ensure (needing metadata), refresh, send to
   * the new leader, and succeeds.
   */
  lemma LeaderLoss(cfg: Config, md: ClusterMetadata, after: Cluster, topic: string, leader: BrokerId,
                   newLeader: BrokerId, replicas: seq<BrokerId>, newReplicas: seq<BrokerId>, refreshedAt: int, now: int)
    requires topic in md.topics && md.topics[topic] == OnePartition(topic, NO_ERROR, leader, replicas)
    requires leader in md.brokers && md.lastRefreshedAt == Some(refreshedAt)
    requires leader !in after.up && newLeader in after.up && cfg.seeds * after.up != {}
    requires topic in after.topics && after.topics[topic] == OnePartition(topic, NO_ERROR, newLeader, newReplicas)
    requires now - refreshedAt < cfg.refreshIntervalMs
    ensures var o := SendMessagesSpec(cfg, md, after, [Hello(topic)], now);
      && o.result == Sent
      && o.events == [Ensure(false), SendTo(leader), Reset, Ensure(true), Refresh({topic}), SendTo(newLeader)]
      && o.delivered == [Hello(topic)]
  {
    OneTopicSet(topic);
    var msgs := [Hello(topic)];
    assert PassiveSpec(cfg, md, after, {topic}, now) == Step(true, md, []);
    LeaderLossEnsureAndDispatch(cfg, md, after, topic, leader, newLeader, replicas, newReplicas, now);
    var x := EnsureAndDispatchSpec(cfg, md, after, msgs, now);
    assert SendMessagesSpec(cfg, md, after, msgs, now).events == [] + x.events;
  }

  /** The ensure and dispatch phases of the leader-loss scenario. */
  lemma LeaderLossEnsureAndDispatch(cfg: Config, md: ClusterMetadata, after: Cluster, topic: string, leader: BrokerId,
                                    newLeader: BrokerId, replicas: seq<BrokerId>, newReplicas: seq<BrokerId>, now: int)
    requires topic in md.topics && md.topics[topic] == OnePartition(topic, NO_ERROR, leader, replicas)
    requires leader in md.brokers
    requires leader !in after.up && newLeader in after.up && cfg.seeds * after.up != {}
    requires topic in after.topics && after.topics[topic] == OnePartition(topic, NO_ERROR, newLeader, newReplicas)
    ensures var x := EnsureAndDispatchSpec(cfg, md, after, [Hello(topic)], now);
      && x.result == Sent
      && x.events == [Ensure(false), SendTo(leader), Reset, Ensure(true), Refresh({topic}), SendTo(newLeader)]
      && x.delivered == [Hello(topic)]
  {
    OneTopicSet(topic);
    EnsureNoOp(cfg, md, after, topic, NO_ERROR, leader, replicas, now);
    LeaderLossDispatch(cfg, md, after, topic, leader, newLeader, replicas, newReplicas, now);
    PrependLiteral5(Ensure(false), SendTo(leader), Reset, Ensure(true), Refresh({topic}), SendTo(newLeader));
  }

  /** The dispatch phase of the leader-loss scenario: the send to the old leader fails and recovery succeeds. */
  lemma LeaderLossDispatch(cfg: Config, md: ClusterMetadata, after: Cluster, topic: string, leader: BrokerId,
                           newLeader: BrokerId, replicas: seq<BrokerId>, newReplicas: seq<BrokerId>, now: int)
    requires topic in md.topics && md.topics[topic] == OnePartition(topic, NO_ERROR, leader, replicas)
    requires leader !in after.up && newLeader in after.up && cfg.seeds * after.up != {}
    requires topic in after.topics && after.topics[topic] == OnePartition(topic, NO_ERROR, newLeader, newReplicas)
    ensures var d := DispatchSpec(cfg, md, after, [Hello(topic)], now);
      && d.result == Sent
      && d.events == [SendTo(leader), Reset, Ensure(true), Refresh({topic}), SendTo(newLeader)]
      && d.delivered == [Hello(topic)]
  {
    DispatchToDownLeader(cfg, md, after, topic, leader, replicas, now);
    LeaderLossRecovery(cfg, after, topic, newLeader, newReplicas, now);
    PrependLiteral4(SendTo(leader), Reset, Ensure(true), Refresh({topic}), SendTo(newLeader));
  }

  /** The recovery round of the leader-loss scenario: a refresh from the seeds finds the new leader. */
  lemma LeaderLossRecovery(cfg: Config, after: Cluster, topic: string, newLeader: BrokerId,
                           newReplicas: seq<BrokerId>, now: int)
    requires newLeader in after.up && cfg.seeds * after.up != {}
    requires topic in after.topics && after.topics[topic] == OnePartition(topic, NO_ERROR, newLeader, newReplicas)
    ensures var r := RecoverySpec(cfg, after, [Hello(topic)], now);
      && r.result == Sent
      && r.events == [Reset, Ensure(true), Refresh({topic}), SendTo(newLeader)]
      && r.delivered == [Hello(topic)]
  {
    var msgs := [Hello(topic)];
    OneTopicSet(topic);
    EnsureFromEmpty(cfg, after, topic, newLeader, newReplicas, now);
    var e := EnsureSpec(cfg, EMPTY, after, {topic}, now);
    OneMessageAttempt(e.md, cfg.partitioner, after, cfg.requiredAcks, topic, NO_ERROR, newLeader, newReplicas);
    OneMessageSent(after, cfg.requiredAcks, topic, newLeader, NO_ERROR, newReplicas);
    var a := Attempt(e.md, cfg.partitioner, after, cfg.requiredAcks, msgs);
    assert a.errors == [] && a.delivered == msgs;
    assert SendEvents(a.batches) == [SendTo(newLeader)];
    var r := RecoverySpec(cfg, after, msgs, now);
    assert r.events == [Reset] + e.events + SendEvents(a.batches) && r.result == Sent && r.delivered == msgs;
    JoinLiterals121(Reset, Ensure(true), Refresh({topic}), SendTo(newLeader));
  }

  /**
   * Replica loss. The cache holds the topic as the first send left it, with
   * replicas [leader, replica], refreshed at `refreshedAt`; the replica then goes
   * down and the cluster reports the partition with error 9 and the leader as its
   * only replica. Once the refresh interval has elapsed, the next send makes
   * exactly the calls refresh, ensure (not needing metadata), send to the leader,
   * never resets, and succeeds; the cache then shows error 9, the same leader
   * and replicas equal to [leader].
   */
  lemma ReplicaLoss(cfg: Config, md: ClusterMetadata, after: Cluster, topic: string, leader: BrokerId,
                    replica: BrokerId, refreshedAt: int, now: int)
    requires topic in md.topics && md.topics[topic] == OnePartition(topic, NO_ERROR, leader, [leader, replica])
    requires leader in md.brokers && md.lastRefreshedAt == Some(refreshedAt)
    requires leader in after.up && replica !in after.up
    requires topic in after.topics && after.topics[topic] == OnePartition(topic, REPLICA_NOT_AVAILABLE, leader, [leader])
    requires now - refreshedAt >= cfg.refreshIntervalMs
    ensures var o := SendMessagesSpec(cfg, md, after, [Hello(topic)], now);
      && o.result == Sent
      && o.events == [Refresh({topic}), Ensure(false), SendTo(leader)]
      && Reset !in o.events
      && o.delivered == [Hello(topic)]
      && topic in o.md.topics && o.md.topics[topic] == after.topics[topic]
      && AvailablePartitions(o.md.topics[topic]) == [PartitionMetadata(REPLICA_NOT_AVAILABLE, 0, leader, [leader], [leader])]
  {
    assert leader in (cfg.seeds + md.brokers) * after.up;
    RefreshThenDelivered(cfg, md, after, topic, REPLICA_NOT_AVAILABLE, leader, [leader], now);
    OnePartitionAvailable(topic, REPLICA_NOT_AVAILABLE, leader, [leader]);
  }

  /**
   * After a send that refreshed the cache at `sentAt`, the refresh interval has
   * elapsed at `later` exactly when `later - sentAt` reaches it: not elapsed right
   * after the send, elapsed once the interval has passed.
   */
  lemma IntervalAfterFirstSend(cfg: Config, cluster: Cluster, topic: string, leader: BrokerId,
                               replicas: seq<BrokerId>, sentAt: int, later: int)
    requires cfg.seeds * cluster.up != {} && leader in cluster.up
    requires topic in cluster.topics && cluster.topics[topic] == OnePartition(topic, NO_ERROR, leader, replicas)
    ensures var first := SendMessagesSpec(cfg, EMPTY, cluster, [Hello(topic)], sentAt);
      RefreshIntervalElapsed(first.md, cfg.refreshIntervalMs, later) <==> later - sentAt >= cfg.refreshIntervalMs
  {
    FirstSend(cfg, cluster, topic, leader, replicas, sentAt);
  }

  // The scenarios run on one producer

  /** A new producer whose seeds are all down: the first send fails after one metadata request. */
  method UnreachableSeedsRun(cfg: Config, cluster: Cluster, msgs: seq<MessageToSend>, now: int)
    returns (result: SendResult, delivered: seq<MessageToSend>, p: Producer)
    requires cfg.seeds * cluster.up == {}
    ensures result == Failed(UnableToFetchMetadata) && delivered == []
    ensures p.trace == [Refresh(TopicSet(msgs))] && p.clusterMetadata == EMPTY
  {
    p := new Producer(cfg);
    result, delivered := p.SendMessages(cluster, msgs, now);
    UnreachableSeedsFail(cfg, cluster, msgs, now);
  }

  /**
   * A new producer sends once at `sentAt` while `leader` leads the topic. The
   * leader then goes down and `newLeader` takes over. At `now`, before the
   * refresh interval has elapsed, the cache still shows the old leader, and the
   * second send succeeds through the recovery round.
   */
  method LeaderLossRun(cfg: Config, before: Cluster, after: Cluster, topic: string, leader: BrokerId,
                       newLeader: BrokerId, replicas: seq<BrokerId>, newReplicas: seq<BrokerId>, sentAt: int, now: int)
    returns (first: SendResult, cached: seq<PartitionMetadata>, elapsed: bool, second: SendResult,
             delivered: seq<MessageToSend>, p: Producer)
    requires cfg.seeds * before.up != {} && leader in before.up
    requires topic in before.topics && before.topics[topic] == OnePartition(topic, NO_ERROR, leader, replicas)
    requires leader !in after.up && newLeader in after.up && cfg.seeds * after.up != {}
    requires topic in after.topics && after.topics[topic] == OnePartition(topic, NO_ERROR, newLeader, newReplicas)
    requires now - sentAt < cfg.refreshIntervalMs
    ensures first == Sent
    ensures |cached| == 1 && cached[0].error == NO_ERROR && cached[0].leader == leader
    ensures !elapsed
    ensures second == Sent && delivered == [Hello(topic)]
    ensures p.trace == [Refresh({topic}), Ensure(false), SendTo(leader)] +
                       [Ensure(false), SendTo(leader), Reset, Ensure(true), Refresh({topic}), SendTo(newLeader)]
  {
    p := new Producer(cfg);
    var d;
    first, d := p.SendMessages(before, [Hello(topic)], sentAt);
    FirstSend(cfg, before, topic, leader, replicas, sentAt);
    ghost var firstTrace := p.trace;
    var md := p.clusterMetadata;
    assert firstTrace == [Refresh({topic}), Ensure(false), SendTo(leader)];
    cached := AvailablePartitions(MetadataForTopics(md, {topic})[topic]);
    elapsed := RefreshIntervalElapsed(md, cfg.refreshIntervalMs, now);
    LeaderLoss(cfg, md, after, topic, leader, newLeader, replicas, newReplicas, sentAt, now);
    ghost var o := SendMessagesSpec(cfg, md, after, [Hello(topic)], now);
    second, delivered := p.SendMessages(after, [Hello(topic)], now);
    assert p.trace == firstTrace + o.events;
  }

  /**
   * A new producer sends once at `sentAt` to a topic replicated on `leader` and
   * `replica`. The replica then goes down; the cache still lists it. At `now`,
   * once the refresh interval has elapsed, the second send refreshes and
   * succeeds without a reset, and the cache then shows the partition with
   * error 9, the same leader and only the leader as replica.
   */
  method ReplicaLossRun(cfg: Config, before: Cluster, after: Cluster, topic: string, leader: BrokerId,
                        replica: BrokerId, sentAt: int, now: int)
    returns (first: SendResult, cached: seq<PartitionMetadata>, elapsed: bool, second: SendResult,
             delivered: seq<MessageToSend>, updated: seq<PartitionMetadata>, p: Producer)
    requires cfg.seeds * before.up != {} && leader in before.up
    requires topic in before.topics && before.topics[topic] == OnePartition(topic, NO_ERROR, leader, [leader, replica])
    requires leader in after.up && replica !in after.up
    requires topic in after.topics && after.topics[topic] == OnePartition(topic, REPLICA_NOT_AVAILABLE, leader, [leader])
    requires now - sentAt >= cfg.refreshIntervalMs
    ensures first == Sent
    ensures |cached| == 1 && cached[0].error == NO_ERROR && replica in cached[0].replicas
    ensures elapsed
    ensures second == Sent && delivered == [Hello(topic)]
    ensures p.trace == [Refresh({topic}), Ensure(false), SendTo(leader)] + [Refresh({topic}), Ensure(false), SendTo(leader)]
    ensures updated == [PartitionMetadata(REPLICA_NOT_AVAILABLE, 0, leader, [leader], [leader])]
  {
    p := new Producer(cfg);
    var d;
    first, d := p.SendMessages(before, [Hello(topic)], sentAt);
    FirstSend(cfg, before, topic, leader, [leader, replica], sentAt);
    ghost var firstTrace := p.trace;
    var md := p.clusterMetadata;
    assert firstTrace == [Refresh({topic}), Ensure(false), SendTo(leader)];
    cached := AvailablePartitions(MetadataForTopics(md, {topic})[topic]);
    elapsed := RefreshIntervalElapsed(md, cfg.refreshIntervalMs, now);
    ReplicaLoss(cfg, md, after, topic, leader, replica, sentAt, now);
    ghost var o := SendMessagesSpec(cfg, md, after, [Hello(topic)], now);
    second, delivered := p.SendMessages(after, [Hello(topic)], now);
    assert p.trace == firstTrace + o.events;
    updated := AvailablePartitions(MetadataForTopics(p.clusterMetadata, {topic})[topic]);
  }
}
