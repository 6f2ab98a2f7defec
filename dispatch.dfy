/**
 * One dispatch attempt of the producer: route each message to a partition of its
 * topic and to that partition's cached leader, group the routed messages by
 * destination broker, and send the batches one broker after another.
 *
 * Choosing among a topic's available partitions is delegated to a partitioner,
 * which the model takes as a parameter.
 */
module Dispatch {
  import opened Wrappers
  import opened Metadata
  import opened ClusterMetadataCache

  datatype MessageToSend = MessageToSend(topic: string, value: string, key: Option<string>)

  /** Given a message and the number of available partitions of its topic, picks one of them. */
  type Partitioner = (MessageToSend, nat) -> nat

  /** A message with the id of the partition it was routed to. */
  datatype Routed = Routed(message: MessageToSend, partition: int)

  /** The messages of one produce request to one broker. */
  datatype BrokerBatch = BrokerBatch(broker: BrokerId, messages: seq<Routed>)

  datatype ProducerError = UnableToFetchMetadata | BrokerUnavailable | NotLeaderForPartition

  /** The topics the messages are for. */
  function TopicSet(msgs: seq<MessageToSend>): (r: set<string>)
    ensures forall t :: t in r <==> exists m :: m in msgs && m.topic == t
  {
    set m | m in msgs :: m.topic
  }

  /**
   * The destination broker and partition id of a message: the partitioner picks
   * one of the available partitions of the cached topic, whose leader is the
   * destination. None when the topic is not cached or has no available partition.
   */
  function Route(md: ClusterMetadata, partitioner: Partitioner, m: MessageToSend): (r: Option<(BrokerId, int)>)
    ensures r == None <==> m.topic !in md.topics || AvailablePartitions(md.topics[m.topic]) == []
    ensures r != None ==>
      exists p :: p in AvailablePartitions(md.topics[m.topic]) && r.value == (p.leader, p.id)
  {
    if m.topic !in md.topics then None
    else
      var available := AvailablePartitions(md.topics[m.topic]);
      if available == [] then None
      else
        var p := available[partitioner(m, |available|) % |available|];
        Some((p.leader, p.id))
  }

  // Grouping by destination broker

  /** The index of the batch for `broker`, if there is one. */
  function BatchIndex(batches: seq<BrokerBatch>, broker: BrokerId): (r: Option<nat>)
    ensures r == None <==> forall i :: 0 <= i < |batches| ==> batches[i].broker != broker
    ensures r != None ==> r.value < |batches| && batches[r.value].broker == broker
  {
    if batches == [] then None
    else if batches[0].broker == broker then Some(0)
    else match BatchIndex(batches[1..], broker)
      case None => None
      case Some(i) => Some(i + 1)
  }

  /** Appends a routed message to the batch of its broker, opening a batch at the end for a new broker. */
  function AddToBatch(batches: seq<BrokerBatch>, broker: BrokerId, r: Routed): seq<BrokerBatch>
  {
    match BatchIndex(batches, broker)
    case None => batches + [BrokerBatch(broker, [r])]
    case Some(i) => batches[i := BrokerBatch(broker, batches[i].messages + [r])]
  }

  datatype Grouping = Grouping(batches: seq<BrokerBatch>, unroutable: seq<MessageToSend>)

  /** Groups the messages, in order, into one batch per destination broker; the others are unroutable. */
  function Group(md: ClusterMetadata, partitioner: Partitioner, msgs: seq<MessageToSend>): Grouping
  {
    if msgs == [] then Grouping([], [])
    else
      var g := Group(md, partitioner, msgs[..|msgs| - 1]);
      var m := msgs[|msgs| - 1];
      match Route(md, partitioner, m)
      case None => Grouping(g.batches, g.unroutable + [m])
      case Some((broker, partition)) => Grouping(AddToBatch(g.batches, broker, Routed(m, partition)), g.unroutable)
  }

  // The reference the grouping is proved against

  /** The messages routed to `broker`, in their original order, with their partitions. */
  function RoutedTo(md: ClusterMetadata, partitioner: Partitioner, msgs: seq<MessageToSend>, broker: BrokerId)
    : seq<Routed>
  {
    if msgs == [] then []
    else
      var before := RoutedTo(md, partitioner, msgs[..|msgs| - 1], broker);
      var m := msgs[|msgs| - 1];
      match Route(md, partitioner, m)
      case Some((b, partition)) => if b == broker then before + [Routed(m, partition)] else before
      case None => before
  }

  /** The messages that have no destination, in their original order. */
  function Unroutable(md: ClusterMetadata, partitioner: Partitioner, msgs: seq<MessageToSend>): seq<MessageToSend>
  {
    if msgs == [] then []
    else
      var before := Unroutable(md, partitioner, msgs[..|msgs| - 1]);
      var m := msgs[|msgs| - 1];
      if Route(md, partitioner, m) == None then before + [m] else before
  }

  predicate DistinctBrokers(batches: seq<BrokerBatch>)
  {
    forall i, j :: 0 <= i < j < |batches| ==> batches[i].broker != batches[j].broker
  }

  /**
   * The batches are exactly the non-empty RoutedTo lists, one per broker, and the
   * unroutable messages are exactly those without a destination.
   */
  ghost predicate GroupedAs(md: ClusterMetadata, partitioner: Partitioner, msgs: seq<MessageToSend>, g: Grouping)
  {
    && DistinctBrokers(g.batches)
    && (forall i :: 0 <= i < |g.batches| ==> g.batches[i].messages == RoutedTo(md, partitioner, msgs, g.batches[i].broker))
    && (forall b :: RoutedTo(md, partitioner, msgs, b) != [] ==> BatchIndex(g.batches, b) != None)
    && (forall i :: 0 <= i < |g.batches| ==> g.batches[i].messages != [])
    && g.unroutable == Unroutable(md, partitioner, msgs)
  }

  /** Group meets its reference: one batch per destination broker holding what RoutedTo gives it. */
  lemma {:induction false} GroupCorrect(md: ClusterMetadata, partitioner: Partitioner, msgs: seq<MessageToSend>)
    ensures GroupedAs(md, partitioner, msgs, Group(md, partitioner, msgs))
  {
    if msgs != [] {
      var pre := msgs[..|msgs| - 1];
      var m := msgs[|msgs| - 1];
      var g := Group(md, partitioner, pre);
      GroupCorrect(md, partitioner, pre);
      match Route(md, partitioner, m)
      case None =>
        assert forall b :: RoutedTo(md, partitioner, msgs, b) == RoutedTo(md, partitioner, pre, b);
      case Some((broker, partition)) =>
        GroupStep(md, partitioner, msgs, g, broker, Routed(m, partition));
    }
  }

  lemma GroupStep(md: ClusterMetadata, partitioner: Partitioner, msgs: seq<MessageToSend>, g: Grouping,
                  broker: BrokerId, r: Routed)
    requires msgs != [] && GroupedAs(md, partitioner, msgs[..|msgs| - 1], g)
    requires r.message == msgs[|msgs| - 1] && Route(md, partitioner, r.message) == Some((broker, r.partition))
    ensures GroupedAs(md, partitioner, msgs, Grouping(AddToBatch(g.batches, broker, r), g.unroutable))
  {
    RoutedToLast(md, partitioner, msgs, broker, r);
    match BatchIndex(g.batches, broker)
    case None => GroupStepNewBroker(md, partitioner, msgs, g, broker, r);
    case Some(i) => GroupStepKnownBroker(md, partitioner, msgs, g, broker, r, i);
  }

  lemma RoutedToLast(md: ClusterMetadata, partitioner: Partitioner, msgs: seq<MessageToSend>,
                     broker: BrokerId, r: Routed)
    requires msgs != []
    requires r.message == msgs[|msgs| - 1] && Route(md, partitioner, r.message) == Some((broker, r.partition))
    ensures forall b :: b != broker ==> RoutedTo(md, partitioner, msgs, b) == RoutedTo(md, partitioner, msgs[..|msgs| - 1], b)
    ensures RoutedTo(md, partitioner, msgs, broker) == RoutedTo(md, partitioner, msgs[..|msgs| - 1], broker) + [r]
    ensures Unroutable(md, partitioner, msgs) == Unroutable(md, partitioner, msgs[..|msgs| - 1])
  {
    RoutedToOther(md, partitioner, msgs, broker, r.partition);
    RoutedToSame(md, partitioner, msgs, broker, r.partition);
  }

  lemma RoutedToOther(md: ClusterMetadata, partitioner: Partitioner, msgs: seq<MessageToSend>,
                      broker: BrokerId, partition: int)
    requires msgs != [] && Route(md, partitioner, msgs[|msgs| - 1]) == Some((broker, partition))
    ensures forall b :: b != broker ==> RoutedTo(md, partitioner, msgs, b) == RoutedTo(md, partitioner, msgs[..|msgs| - 1], b)
  {
  }

  lemma RoutedToSame(md: ClusterMetadata, partitioner: Partitioner, msgs: seq<MessageToSend>,
                     broker: BrokerId, partition: int)
    requires msgs != [] && Route(md, partitioner, msgs[|msgs| - 1]) == Some((broker, partition))
    ensures RoutedTo(md, partitioner, msgs, broker) ==
      RoutedTo(md, partitioner, msgs[..|msgs| - 1], broker) + [Routed(msgs[|msgs| - 1], partition)]
    ensures Unroutable(md, partitioner, msgs) == Unroutable(md, partitioner, msgs[..|msgs| - 1])
  {
  }

  lemma GroupStepNewBroker(md: ClusterMetadata, partitioner: Partitioner, msgs: seq<MessageToSend>, g: Grouping,
                           broker: BrokerId, r: Routed)
    requires msgs != [] && GroupedAs(md, partitioner, msgs[..|msgs| - 1], g)
    requires BatchIndex(g.batches, broker) == None
    requires forall b :: b != broker ==> RoutedTo(md, partitioner, msgs, b) == RoutedTo(md, partitioner, msgs[..|msgs| - 1], b)
    requires RoutedTo(md, partitioner, msgs, broker) == RoutedTo(md, partitioner, msgs[..|msgs| - 1], broker) + [r]
    requires Unroutable(md, partitioner, msgs) == Unroutable(md, partitioner, msgs[..|msgs| - 1])
    ensures GroupedAs(md, partitioner, msgs, Grouping(g.batches + [BrokerBatch(broker, [r])], g.unroutable))
  {
    var bs := g.batches + [BrokerBatch(broker, [r])];
    assert RoutedTo(md, partitioner, msgs[..|msgs| - 1], broker) == [];
    assert bs[|g.batches|].broker == broker;
    forall b | RoutedTo(md, partitioner, msgs, b) != []
      ensures BatchIndex(bs, b) != None
    {
      if b != broker {
        var i := BatchIndex(g.batches, b).value;
        assert bs[i].broker == b;
      }
    }
  }

  lemma GroupStepKnownBroker(md: ClusterMetadata, partitioner: Partitioner, msgs: seq<MessageToSend>, g: Grouping,
                             broker: BrokerId, r: Routed, i: nat)
    requires msgs != [] && GroupedAs(md, partitioner, msgs[..|msgs| - 1], g)
    requires BatchIndex(g.batches, broker) == Some(i)
    requires forall b :: b != broker ==> RoutedTo(md, partitioner, msgs, b) == RoutedTo(md, partitioner, msgs[..|msgs| - 1], b)
    requires RoutedTo(md, partitioner, msgs, broker) == RoutedTo(md, partitioner, msgs[..|msgs| - 1], broker) + [r]
    requires Unroutable(md, partitioner, msgs) == Unroutable(md, partitioner, msgs[..|msgs| - 1])
    ensures GroupedAs(md, partitioner, msgs,
                      Grouping(g.batches[i := BrokerBatch(broker, g.batches[i].messages + [r])], g.unroutable))
  {
    var bs := g.batches[i := BrokerBatch(broker, g.batches[i].messages + [r])];
    SameBrokers(g.batches, i, BrokerBatch(broker, g.batches[i].messages + [r]));
    forall j | 0 <= j < |bs|
      ensures bs[j].messages == RoutedTo(md, partitioner, msgs, bs[j].broker)
    {
      if j != i {
        assert bs[j] == g.batches[j];
      }
    }
    assert forall j :: 0 <= j < |bs| ==> bs[j].messages != [];
  }

  /** Replacing a batch by one for the same broker keeps the brokers, their order and their indices. */
  lemma SameBrokers(bs: seq<BrokerBatch>, i: nat, batch: BrokerBatch)
    requires i < |bs| && bs[i].broker == batch.broker && DistinctBrokers(bs)
    ensures DistinctBrokers(bs[i := batch])
    ensures forall j :: 0 <= j < |bs| ==> bs[i := batch][j].broker == bs[j].broker
    ensures forall j :: 0 <= j < |bs| && j != i ==> bs[j].broker != batch.broker
    ensures forall b :: BatchIndex(bs[i := batch], b) == BatchIndex(bs, b)
  {
    var bs' := bs[i := batch];
    forall b ensures BatchIndex(bs', b) == BatchIndex(bs, b) {
      BatchIndexSameBrokers(bs', bs, b);
    }
  }

  lemma {:induction false} BatchIndexSameBrokers(bs: seq<BrokerBatch>, cs: seq<BrokerBatch>, b: BrokerId)
    requires |bs| == |cs| && forall j :: 0 <= j < |bs| ==> bs[j].broker == cs[j].broker
    ensures BatchIndex(bs, b) == BatchIndex(cs, b)
  {
    if bs != [] && bs[0].broker != b {
      BatchIndexSameBrokers(bs[1..], cs[1..], b);
    }
  }

  /** The messages of a batch, without their partitions. */
  function BatchMessages(rs: seq<Routed>): (r: seq<MessageToSend>)
    ensures |r| == |rs| && forall k :: 0 <= k < |rs| ==> r[k] == rs[k].message
  {
    seq(|rs|, k requires 0 <= k < |rs| => rs[k].message)
  }

  /** The messages of all batches, batch after batch. */
  function AllMessages(batches: seq<BrokerBatch>): seq<MessageToSend>
  {
    if batches == [] then []
    else AllMessages(batches[..|batches| - 1]) + BatchMessages(batches[|batches| - 1].messages)
  }

  // Sending

  /** The cluster's current leader of the routed message's partition is `broker`. */
  predicate Leads(cluster: Cluster, r: Routed, broker: BrokerId)
  {
    r.message.topic in cluster.topics && PartitionLeader(cluster.topics[r.message.topic], r.partition) == Some(broker)
  }

  /**
   * The outcome of one produce request: the broker must be up, and when the
   * producer waits for acknowledgements it must lead every partition of the batch.
   * A batch is acknowledged as a whole.
   */
  function SendBatch(cluster: Cluster, requiredAcks: int, batch: BrokerBatch): (r: Option<ProducerError>)
    ensures r == None <==>
      batch.broker in cluster.up &&
      (requiredAcks != 0 ==> forall k :: 0 <= k < |batch.messages| ==> Leads(cluster, batch.messages[k], batch.broker))
    ensures r == Some(BrokerUnavailable) <==> batch.broker !in cluster.up
  {
    if batch.broker !in cluster.up then Some(BrokerUnavailable)
    else if requiredAcks != 0 && exists k :: 0 <= k < |batch.messages| && !Leads(cluster, batch.messages[k], batch.broker)
    then Some(NotLeaderForPartition)
    else None
  }

  datatype DispatchResult = DispatchResult(
    delivered: seq<MessageToSend>,
    failed: seq<MessageToSend>,
    errors: seq<ProducerError>)

  /** Sends the batches in order: each one is delivered or its messages fail with its error. */
  function DispatchAll(cluster: Cluster, requiredAcks: int, batches: seq<BrokerBatch>): DispatchResult
  {
    if batches == [] then DispatchResult([], [], [])
    else
      var d := DispatchAll(cluster, requiredAcks, batches[..|batches| - 1]);
      var b := batches[|batches| - 1];
      match SendBatch(cluster, requiredAcks, b)
      case None => DispatchResult(d.delivered + BatchMessages(b.messages), d.failed, d.errors)
      case Some(e) => DispatchResult(d.delivered, d.failed + BatchMessages(b.messages), d.errors + [e])
  }

  datatype AttemptResult = AttemptResult(
    batches: seq<BrokerBatch>,
    delivered: seq<MessageToSend>,
    failed: seq<MessageToSend>,
    errors: seq<ProducerError>)

  /**
   * One dispatch attempt over the current cache. Messages without a destination
   * fail without being sent and count as missing metadata.
   */
  function Attempt(md: ClusterMetadata, partitioner: Partitioner, cluster: Cluster, requiredAcks: int,
                   msgs: seq<MessageToSend>): AttemptResult
  {
    var g := Group(md, partitioner, msgs);
    var d := DispatchAll(cluster, requiredAcks, g.batches);
    AttemptResult(g.batches, d.delivered, d.failed + g.unroutable,
                  d.errors + if g.unroutable == [] then [] else [UnableToFetchMetadata])
  }

  // What the grouping and the dispatch keep

  /** Every message routed to a broker is one of the inputs, and Route sends it there. */
  lemma {:induction false} RoutedToSound(md: ClusterMetadata, partitioner: Partitioner, msgs: seq<MessageToSend>,
                                         broker: BrokerId)
    ensures forall r :: r in RoutedTo(md, partitioner, msgs, broker) ==>
      r.message in msgs && Route(md, partitioner, r.message) == Some((broker, r.partition))
  {
    if msgs != [] {
      var pre := msgs[..|msgs| - 1];
      RoutedToSound(md, partitioner, pre, broker);
      assert forall m :: m in pre ==> m in msgs;
    }
  }

  /** The unroutable messages are the inputs that have no destination. */
  lemma {:induction false} UnroutableSound(md: ClusterMetadata, partitioner: Partitioner, msgs: seq<MessageToSend>)
    ensures forall m :: m in Unroutable(md, partitioner, msgs) <==> m in msgs && Route(md, partitioner, m) == None
  {
    if msgs != [] {
      var pre := msgs[..|msgs| - 1];
      UnroutableSound(md, partitioner, pre);
      assert msgs == pre + [msgs[|msgs| - 1]];
    }
  }

  lemma BatchMessagesSnoc(rs: seq<Routed>, r: Routed)
    ensures BatchMessages(rs + [r]) == BatchMessages(rs) + [r.message]
  {
  }

  lemma {:induction false} AllMessagesUpdate(bs: seq<BrokerBatch>, i: nat, batch: BrokerBatch)
    requires i < |bs|
    ensures multiset(AllMessages(bs[i := batch])) + multiset(BatchMessages(bs[i].messages)) ==
            multiset(AllMessages(bs)) + multiset(BatchMessages(batch.messages))
  {
    var n := |bs| - 1;
    var bs' := bs[i := batch];
    var x, y := BatchMessages(bs[i].messages), BatchMessages(batch.messages);
    if i == n {
      assert bs'[..n] == bs[..n];
      var pre := AllMessages(bs[..n]);
      assert AllMessages(bs) == pre + x;
      assert AllMessages(bs') == pre + y;
    } else {
      var z := BatchMessages(bs[n].messages);
      assert bs'[..n] == bs[..n][i := batch];
      assert bs[..n][i] == bs[i];
      var pre, pre' := AllMessages(bs[..n]), AllMessages(bs[..n][i := batch]);
      AllMessagesUpdate(bs[..n], i, batch);
      assert multiset(pre') + multiset(x) == multiset(pre) + multiset(y);
      assert AllMessages(bs) == pre + z;
      assert AllMessages(bs') == pre' + z;
      assert multiset(pre' + z) + multiset(x) == multiset(pre') + multiset(x) + multiset(z);
    }
  }

  lemma AddToBatchMessages(bs: seq<BrokerBatch>, broker: BrokerId, r: Routed)
    ensures multiset(AllMessages(AddToBatch(bs, broker, r))) == multiset(AllMessages(bs)) + multiset{r.message}
  {
    match BatchIndex(bs, broker)
    case None =>
      var bs' := bs + [BrokerBatch(broker, [r])];
      assert AddToBatch(bs, broker, r) == bs';
      assert bs'[..|bs|] == bs;
      assert BatchMessages([r]) == [r.message];
      assert AllMessages(bs') == AllMessages(bs) + [r.message];
    case Some(i) =>
      var x := BatchMessages(bs[i].messages);
      var batch := BrokerBatch(broker, bs[i].messages + [r]);
      assert AddToBatch(bs, broker, r) == bs[i := batch];
      AllMessagesUpdate(bs, i, batch);
      BatchMessagesSnoc(bs[i].messages, r);
      var a, a' := multiset(AllMessages(bs)), multiset(AllMessages(bs[i := batch]));
      assert a' + multiset(x) == a + multiset(x) + multiset{r.message};
      assert a' == a + multiset{r.message} by {
        forall m ensures a'[m] == (a + multiset{r.message})[m] {
          assert (a' + multiset(x))[m] == (a + multiset(x) + multiset{r.message})[m];
        }
      }
  }

  /** Grouping neither drops nor duplicates a message. */
  lemma {:induction false} GroupPartition(md: ClusterMetadata, partitioner: Partitioner, msgs: seq<MessageToSend>)
    ensures var g := Group(md, partitioner, msgs);
      multiset(AllMessages(g.batches)) + multiset(g.unroutable) == multiset(msgs)
  {
    if msgs != [] {
      var pre := msgs[..|msgs| - 1];
      var m := msgs[|msgs| - 1];
      GroupPartition(md, partitioner, pre);
      assert msgs == pre + [m];
      var g := Group(md, partitioner, pre);
      match Route(md, partitioner, m)
      case None =>
      case Some((broker, partition)) => AddToBatchMessages(g.batches, broker, Routed(m, partition));
    }
  }

  /** Each message of the batches is delivered or failed, once. */
  lemma {:induction false} DispatchPartition(cluster: Cluster, requiredAcks: int, batches: seq<BrokerBatch>)
    ensures var d := DispatchAll(cluster, requiredAcks, batches);
      multiset(d.delivered) + multiset(d.failed) == multiset(AllMessages(batches))
  {
    if batches != [] {
      DispatchPartition(cluster, requiredAcks, batches[..|batches| - 1]);
    }
  }

  /** A dispatch reports no error exactly when every batch was acknowledged, and then nothing failed. */
  lemma {:induction false} DispatchErrors(cluster: Cluster, requiredAcks: int, batches: seq<BrokerBatch>)
    ensures var d := DispatchAll(cluster, requiredAcks, batches);
      && (d.errors == [] <==> forall i :: 0 <= i < |batches| ==> SendBatch(cluster, requiredAcks, batches[i]) == None)
      && (d.errors == [] ==> d.failed == [])
  {
    if batches != [] {
      var pre := batches[..|batches| - 1];
      DispatchErrors(cluster, requiredAcks, pre);
      assert forall i :: 0 <= i < |pre| ==> pre[i] == batches[i];
    }
  }

  /** An attempt neither drops nor duplicates a message; without errors every message is delivered. */
  lemma AttemptPartition(md: ClusterMetadata, partitioner: Partitioner, cluster: Cluster, requiredAcks: int,
                         msgs: seq<MessageToSend>)
    ensures var a := Attempt(md, partitioner, cluster, requiredAcks, msgs);
      && multiset(a.delivered) + multiset(a.failed) == multiset(msgs)
      && (a.errors == [] ==> a.failed == [] && multiset(a.delivered) == multiset(msgs))
  {
    var g := Group(md, partitioner, msgs);
    GroupPartition(md, partitioner, msgs);
    DispatchPartition(cluster, requiredAcks, g.batches);
    DispatchErrors(cluster, requiredAcks, g.batches);
  }

  /** With every topic Fresh in the cache, every message has a destination. */
  lemma FreshMessagesRoute(md: ClusterMetadata, partitioner: Partitioner, msgs: seq<MessageToSend>)
    requires forall t :: t in TopicSet(msgs) ==> StatusOf(md, t) == Fresh
    ensures Unroutable(md, partitioner, msgs) == []
    ensures forall m :: m in msgs ==> Route(md, partitioner, m) != None
  {
    UnroutableSound(md, partitioner, msgs);
    forall m | m in msgs
      ensures Route(md, partitioner, m) != None
    {
      assert m.topic in TopicSet(msgs);
      FreshTopicIsRoutable(md, m.topic);
    }
  }

  /** A batch gathered for a Fresh topic goes to a broker the cache knows. */
  lemma FreshBatchBroker(md: ClusterMetadata, partitioner: Partitioner, msgs: seq<MessageToSend>, broker: BrokerId)
    requires forall t :: t in TopicSet(msgs) ==> StatusOf(md, t) == Fresh
    requires RoutedTo(md, partitioner, msgs, broker) != []
    ensures broker in md.brokers
  {
    RoutedToSound(md, partitioner, msgs, broker);
    var r := RoutedTo(md, partitioner, msgs, broker)[0];
    assert r in RoutedTo(md, partitioner, msgs, broker);
    assert r.message.topic in TopicSet(msgs);
    FreshTopicIsRoutable(md, r.message.topic);
  }

  /**
   * With every topic Fresh in the cache, the attempt sends one non-empty batch per
   * destination broker, each to a broker the cache knows, and no message lacks a
   * destination.
   */
  lemma AttemptRoutesFresh(md: ClusterMetadata, partitioner: Partitioner, cluster: Cluster, requiredAcks: int,
                           msgs: seq<MessageToSend>)
    requires forall t :: t in TopicSet(msgs) ==> StatusOf(md, t) == Fresh
    ensures var a := Attempt(md, partitioner, cluster, requiredAcks, msgs);
      && Group(md, partitioner, msgs).unroutable == []
      && DistinctBrokers(a.batches)
      && forall i :: 0 <= i < |a.batches| ==> a.batches[i].broker in md.brokers && a.batches[i].messages != []
  {
    var g := Group(md, partitioner, msgs);
    GroupCorrect(md, partitioner, msgs);
    FreshMessagesRoute(md, partitioner, msgs);
    forall i | 0 <= i < |g.batches|
      ensures g.batches[i].broker in md.brokers
    {
      FreshBatchBroker(md, partitioner, msgs, g.batches[i].broker);
    }
  }

  /** When every batch holds a message, each error comes with at least one failed message. */
  lemma {:induction false} DispatchFailuresCovered(cluster: Cluster, requiredAcks: int, batches: seq<BrokerBatch>)
    requires forall i :: 0 <= i < |batches| ==> batches[i].messages != []
    ensures var d := DispatchAll(cluster, requiredAcks, batches); |d.errors| <= |d.failed|
  {
    if batches != [] {
      DispatchFailuresCovered(cluster, requiredAcks, batches[..|batches| - 1]);
    }
  }

  /** An attempt that reports an error has failed messages, and sent some batch unless a message had no destination. */
  lemma AttemptErrorsFail(md: ClusterMetadata, partitioner: Partitioner, cluster: Cluster, requiredAcks: int,
                          msgs: seq<MessageToSend>)
    ensures var a := Attempt(md, partitioner, cluster, requiredAcks, msgs);
      a.errors != [] ==> a.failed != [] && (a.batches != [] || Group(md, partitioner, msgs).unroutable != [])
  {
    var g := Group(md, partitioner, msgs);
    GroupCorrect(md, partitioner, msgs);
    DispatchFailuresCovered(cluster, requiredAcks, g.batches);
  }
}
