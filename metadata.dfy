/**
 * Per-partition and per-topic metadata as a broker reports it, with the two
 * queries the producer relies on: the leader of a partition and the partitions
 * that can currently take writes.
 */
module Metadata {
  import opened Wrappers

  /** Broker error codes that matter to the producer. */
  const NO_ERROR: int := 0
  const UNKNOWN_TOPIC_OR_PARTITION: int := 3
  const REPLICA_NOT_AVAILABLE: int := 9

  /** Built, written and read in the order (error, id, leader, replicas, isr). */
  datatype PartitionMetadata = PartitionMetadata(
    error: int,
    id: int,
    leader: int,
    replicas: seq<int>,
    isr: seq<int>)

  /** Built, written and read in the order (error, name, partitions). */
  datatype TopicMetadata = TopicMetadata(
    error: int,
    name: string,
    partitions: seq<PartitionMetadata>)

  /**
   * A partition can take writes when it reports no error, or only that some
   * replica is not available (its leader is still valid).
   */
  predicate IsAvailable(p: PartitionMetadata)
  {
    p.error == NO_ERROR || p.error == REPLICA_NOT_AVAILABLE
  }

  function FilterAvailable(ps: seq<PartitionMetadata>): (r: seq<PartitionMetadata>)
    ensures |r| <= |ps|
    ensures forall p :: p in r ==> p in ps && IsAvailable(p)
  {
    if ps == [] then []
    else if IsAvailable(ps[0]) then [ps[0]] + FilterAvailable(ps[1..])
    else FilterAvailable(ps[1..])
  }

  /** The topic's partitions that can take writes, in the order the topic lists them. */
  function AvailablePartitions(t: TopicMetadata): (r: seq<PartitionMetadata>)
    ensures |r| <= |t.partitions|
    ensures forall p :: p in r ==> p in t.partitions && IsAvailable(p)
  {
    FilterAvailable(t.partitions)
  }

  lemma {:induction false} FilterAvailableMembership(ps: seq<PartitionMetadata>, p: PartitionMetadata)
    ensures p in FilterAvailable(ps) <==> p in ps && IsAvailable(p)
  {
    if ps != [] {
      FilterAvailableMembership(ps[1..], p);
      assert p in ps <==> p == ps[0] || p in ps[1..];
    }
  }

  lemma {:induction false} FilterAvailableAppend(ps: seq<PartitionMetadata>, qs: seq<PartitionMetadata>)
    ensures FilterAvailable(ps + qs) == FilterAvailable(ps) + FilterAvailable(qs)
  {
    if ps == [] {
      assert ps + qs == qs;
    } else {
      assert (ps + qs)[0] == ps[0];
      assert (ps + qs)[1..] == ps[1..] + qs;
      FilterAvailableAppend(ps[1..], qs);
    }
  }

  /** A partition is in the available list exactly when the topic has it and it can take writes. */
  lemma AvailablePartitionsMembership(t: TopicMetadata, p: PartitionMetadata)
    ensures p in AvailablePartitions(t) <==> p in t.partitions && IsAvailable(p)
  {
    FilterAvailableMembership(t.partitions, p);
  }

  /**
   * The filter keeps wire order: the available partitions of a concatenation are
   * those of the first part followed by those of the second, and a single
   * partition is kept exactly when it is available.
   */
  lemma AvailablePartitionsKeepOrder(t: TopicMetadata, ps: seq<PartitionMetadata>, qs: seq<PartitionMetadata>)
    requires t.partitions == ps + qs
    ensures AvailablePartitions(t) == FilterAvailable(ps) + FilterAvailable(qs)
    ensures forall p :: FilterAvailable([p]) == if IsAvailable(p) then [p] else []
  {
    FilterAvailableAppend(ps, qs);
    forall p
      ensures FilterAvailable([p]) == if IsAvailable(p) then [p] else []
    {
      assert [p][1..] == [];
    }
  }

  /** All partitions are available exactly when the filter drops nothing. */
  lemma {:induction false} AvailablePartitionsAll(ps: seq<PartitionMetadata>)
    ensures FilterAvailable(ps) == ps <==> forall p :: p in ps ==> IsAvailable(p)
  {
    if ps != [] {
      AvailablePartitionsAll(ps[1..]);
      assert forall p :: p in ps <==> p == ps[0] || p in ps[1..];
      if !IsAvailable(ps[0]) {
        assert |FilterAvailable(ps)| < |ps|;
      }
    }
  }

  /** A one-partition topic has one available partition when its error is 0 or 9, and none otherwise. */
  lemma SinglePartitionAvailability(error: int, name: string, p: PartitionMetadata)
    ensures |AvailablePartitions(TopicMetadata(error, name, [p]))| == if p.error in {0, 9} then 1 else 0
  {
    assert [p][1..] == [];
  }

  function LeaderIn(ps: seq<PartitionMetadata>, id: int): (r: Option<int>)
    ensures r == None <==> forall p :: p in ps ==> p.id != id
    ensures r != None ==>
      exists i :: 0 <= i < |ps| && ps[i].id == id && ps[i].leader == r.value &&
                  forall j :: 0 <= j < i ==> ps[j].id != id
  {
    if ps == [] then None
    else if ps[0].id == id then Some(ps[0].leader)
    else
      var r := LeaderIn(ps[1..], id);
      assert forall p :: p in ps ==> p == ps[0] || p in ps[1..];
      assert r != None ==> exists i :: 1 <= i < |ps| && ps[i].id == id && ps[i].leader == r.value &&
                                       forall j :: 0 <= j < i ==> ps[j].id != id
        by {
          if r != None {
            var i :| 0 <= i < |ps[1..]| && ps[1..][i].id == id && ps[1..][i].leader == r.value &&
                     forall j :: 0 <= j < i ==> ps[1..][j].id != id;
            assert ps[i + 1] == ps[1..][i];
            assert forall j :: 1 <= j < i + 1 ==> ps[j] == ps[1..][j - 1];
          }
        }
      r
  }

  /**
   * The leader of the partition with the given id (the first one listed, should
   * the id repeat), or None when the topic has no partition with that id.
   */
  function PartitionLeader(t: TopicMetadata, id: int): (r: Option<int>)
    ensures r == None <==> forall p :: p in t.partitions ==> p.id != id
    ensures r != None ==>
      exists i :: 0 <= i < |t.partitions| && t.partitions[i].id == id && t.partitions[i].leader == r.value &&
                  forall j :: 0 <= j < i ==> t.partitions[j].id != id
  {
    LeaderIn(t.partitions, id)
  }

  /** With unique partition ids, the leader found is the leader of the partition with that id. */
  lemma PartitionLeaderOfUnique(t: TopicMetadata, i: int)
    requires 0 <= i < |t.partitions|
    requires forall j, k :: 0 <= j < k < |t.partitions| ==> t.partitions[j].id != t.partitions[k].id
    ensures PartitionLeader(t, t.partitions[i].id) == Some(t.partitions[i].leader)
  {
    var r := PartitionLeader(t, t.partitions[i].id);
    assert t.partitions[i] in t.partitions;
    var k :| 0 <= k < |t.partitions| && t.partitions[k].id == t.partitions[i].id && t.partitions[k].leader == r.value &&
             forall j :: 0 <= j < k ==> t.partitions[j].id != t.partitions[i].id;
    assert k == i;
  }

  /** The example of the unit test: partition 0 of a one-partition topic is led by broker 0. */
  lemma LeaderOfPartitionZero()
    ensures PartitionLeader(TopicMetadata(0, "topic", [PartitionMetadata(0, 0, 0, [0], [0])]), 0) == Some(0)
  {
  }

  /** Looking up an id no partition carries finds nothing. */
  lemma LeaderOfMissingPartition()
    ensures PartitionLeader(TopicMetadata(0, "topic", [PartitionMetadata(0, 0, 0, [0], [0])]), 1) == None
  {
  }
}
