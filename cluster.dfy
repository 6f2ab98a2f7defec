/**
 * The producer's cluster-metadata cache: the brokers it knows, the topic
 * metadata it holds and when it last refreshed, together with the metadata
 * request that refreshes it.
 *
 * The cluster itself is abstracted as the set of brokers that are up and the
 * topic metadata those brokers would report. A metadata request succeeds when
 * some seed or known broker is up; the answer lists the live brokers and one
 * entry per requested topic, an unknown topic being reported with error code 3
 * and no partitions.
 */
module ClusterMetadataCache {
  import opened Wrappers
  import opened Metadata

  type BrokerId = int

  /** The live brokers and the metadata they would report for each existing topic. */
  datatype Cluster = Cluster(up: set<BrokerId>, topics: map<string, TopicMetadata>)

  datatype ClusterMetadata = ClusterMetadata(
    brokers: set<BrokerId>,
    topics: map<string, TopicMetadata>,
    lastRefreshedAt: Option<int>)

  datatype MetadataResponse = MetadataResponse(brokers: set<BrokerId>, topics: map<string, TopicMetadata>)

  /** The cache of a new producer, and of one whose metadata was reset. */
  const EMPTY: ClusterMetadata := ClusterMetadata({}, map[], None)

  /** What the cluster reports for one requested topic. */
  function ReportedTopic(cluster: Cluster, topic: string): (r: TopicMetadata)
    ensures topic !in cluster.topics ==> r.error == UNKNOWN_TOPIC_OR_PARTITION && r.partitions == []
  {
    if topic in cluster.topics then cluster.topics[topic]
    else TopicMetadata(UNKNOWN_TOPIC_OR_PARTITION, topic, [])
  }

  /**
   * A metadata request for `topics`, sent to any seed or known broker that is up;
   * None when none of them is.
   */
  function FetchMetadata(seeds: set<BrokerId>, md: ClusterMetadata, cluster: Cluster, topics: set<string>)
    : (r: Option<MetadataResponse>)
    ensures r == None <==> (seeds + md.brokers) * cluster.up == {}
    ensures r != None ==>
      r.value.brokers == cluster.up && r.value.topics.Keys == topics &&
      forall t :: t in topics ==> r.value.topics[t] == ReportedTopic(cluster, t)
  {
    if (seeds + md.brokers) * cluster.up == {} then None
    else Some(MetadataResponse(cluster.up, map t | t in topics :: ReportedTopic(cluster, t)))
  }

  /**
   * Takes in a response: the broker directory is replaced, each reported topic
   * entry replaces the cached one wholesale, and the refresh time becomes `now`.
   */
  function Update(md: ClusterMetadata, response: MetadataResponse, now: int): (r: ClusterMetadata)
    ensures r.brokers == response.brokers && r.lastRefreshedAt == Some(now)
    ensures r.topics.Keys == md.topics.Keys + response.topics.Keys
    ensures forall t :: t in response.topics ==> r.topics[t] == response.topics[t]
    ensures forall t :: t in md.topics && t !in response.topics ==> r.topics[t] == md.topics[t]
  {
    ClusterMetadata(response.brokers, md.topics + response.topics, Some(now))
  }

  /** The cached entries of the requested topics that the cache holds. */
  function MetadataForTopics(md: ClusterMetadata, topics: set<string>): (r: map<string, TopicMetadata>)
    ensures r.Keys == topics * md.topics.Keys
    ensures forall t :: t in r ==> r[t] == md.topics[t]
  {
    map t | t in topics && t in md.topics :: md.topics[t]
  }

  /** True when the cache has never been refreshed or at least `interval` ms have passed since. */
  predicate RefreshIntervalElapsed(md: ClusterMetadata, interval: int, now: int)
  {
    md.lastRefreshedAt == None || now - md.lastRefreshedAt.value >= interval
  }

  /** A partition the producer can route to: it takes writes and its leader is a known broker. */
  predicate Resolvable(p: PartitionMetadata, brokers: set<BrokerId>)
  {
    IsAvailable(p) && p.leader in brokers
  }

  /** How usable the cached entry of a topic is. */
  datatype TopicStatus = Missing | Stale | Fresh

  /**
   * Missing: not cached, reported with a topic error, or without partitions.
   * Stale: some partition lacks a resolvable leader. Fresh otherwise.
   */
  function StatusOf(md: ClusterMetadata, topic: string): (r: TopicStatus)
    ensures r == Fresh <==>
      topic in md.topics && md.topics[topic].error == NO_ERROR && md.topics[topic].partitions != [] &&
      forall p :: p in md.topics[topic].partitions ==> Resolvable(p, md.brokers)
  {
    if topic !in md.topics || md.topics[topic].error != NO_ERROR || md.topics[topic].partitions == [] then Missing
    else if exists p :: p in md.topics[topic].partitions && !Resolvable(p, md.brokers) then Stale
    else Fresh
  }

  /** The cache must be refreshed before sending to some of these topics. */
  predicate NeedsMetadata(md: ClusterMetadata, topics: set<string>)
  {
    exists t :: t in topics && StatusOf(md, t) != Fresh
  }

  // Properties of the cache

  /** After a refresh at `now`, the interval has elapsed at `later` exactly when `later - now >= interval`. */
  lemma RefreshIntervalAfterUpdate(md: ClusterMetadata, response: MetadataResponse, now: int, interval: int, later: int)
    ensures RefreshIntervalElapsed(Update(md, response, now), interval, later) <==> later - now >= interval
  {
  }

  /** Right after a refresh, the interval has not elapsed when it is positive. */
  lemma NotElapsedRightAfterUpdate(md: ClusterMetadata, response: MetadataResponse, now: int, interval: int)
    requires interval > 0
    ensures !RefreshIntervalElapsed(Update(md, response, now), interval, now)
  {
  }

  /** The elapsed check is monotonic in time: once true it stays true. */
  lemma RefreshIntervalMonotonic(md: ClusterMetadata, interval: int, now: int, later: int)
    requires now <= later && RefreshIntervalElapsed(md, interval, now)
    ensures RefreshIntervalElapsed(md, interval, later)
  {
  }

  /** A successful refresh for `topics` leaves the cache holding exactly what the cluster reports for them. */
  lemma RefreshedTopicsAreReported(seeds: set<BrokerId>, md: ClusterMetadata, cluster: Cluster,
                                   topics: set<string>, now: int)
    requires FetchMetadata(seeds, md, cluster, topics) != None
    ensures var md' := Update(md, FetchMetadata(seeds, md, cluster, topics).value, now);
      && md'.brokers == cluster.up
      && MetadataForTopics(md', topics) == map t | t in topics :: ReportedTopic(cluster, t)
  {
  }

  /**
   * After a refresh every leader of an available partition of a Fresh topic is a
   * live broker known to the cache, and the topic has an available partition.
   */
  lemma FreshTopicIsRoutable(md: ClusterMetadata, topic: string)
    requires StatusOf(md, topic) == Fresh
    ensures AvailablePartitions(md.topics[topic]) != []
    ensures forall p :: p in AvailablePartitions(md.topics[topic]) ==> p.leader in md.brokers
  {
    var ps := md.topics[topic].partitions;
    assert ps[0] in ps;
    AvailablePartitionsMembership(md.topics[topic], ps[0]);
  }

  /** The empty cache needs metadata for every non-empty set of topics. */
  lemma EmptyNeedsMetadata(topics: set<string>)
    requires topics != {}
    ensures NeedsMetadata(EMPTY, topics)
  {
    var t :| t in topics;
    assert StatusOf(EMPTY, t) == Missing;
  }
}
