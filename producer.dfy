/**
 * The producer's send path and its metadata recovery.
 *
 * A send first refreshes the cache passively when the refresh interval has
 * elapsed, then makes sure every topic of the messages has usable metadata,
 * dispatches one batch per destination broker, and, when some batch fails,
 * recovers exactly once: it resets the cache, makes sure again for the topics of
 * the failed messages, and redispatches those messages.
 *
 * The producer records its calls in a ghost trace, so that the order of
 * refresh, ensure, send and reset calls can be stated and proved.
 */
module ProducerCore {
  import opened Wrappers
  import opened Metadata
  import opened ClusterMetadataCache
  import opened Dispatch

  /** One call of the producer, as the trace records it. */
  datatype Event =
    | Refresh(topics: set<string>)
    | Ensure(needing: bool)
    | SendTo(broker: BrokerId)
    | Reset

  datatype Config = Config(
    seeds: set<BrokerId>,
    requiredAcks: int,
    refreshIntervalMs: int,
    partitioner: Partitioner)

  datatype SendResult = Sent | Failed(error: ProducerError)

  /** The outcome of one call: whether it succeeded, the new cache, the calls made. */
  datatype Step = Step(ok: bool, md: ClusterMetadata, events: seq<Event>)

  /** The outcome of send_messages, with the messages some broker acknowledged. */
  datatype SendOutcome = SendOutcome(
    result: SendResult,
    md: ClusterMetadata,
    events: seq<Event>,
    delivered: seq<MessageToSend>)

  // The specification of each call

  /** refresh_metadata: one metadata request; the cache is left alone when no broker answers. */
  function RefreshSpec(cfg: Config, md: ClusterMetadata, cluster: Cluster, topics: set<string>, now: int)
    : (r: Step)
    ensures r.events == [Refresh(topics)]
    ensures r.ok <==> (cfg.seeds + md.brokers) * cluster.up != {}
    ensures !r.ok ==> r.md == md
    ensures r.ok ==>
      && r.md.brokers == cluster.up && r.md.lastRefreshedAt == Some(now)
      && (forall t :: t in topics ==> t in r.md.topics && r.md.topics[t] == ReportedTopic(cluster, t))
      && (forall t :: t in md.topics && t !in topics ==> t in r.md.topics && r.md.topics[t] == md.topics[t])
  {
    match FetchMetadata(cfg.seeds, md, cluster, topics)
    case None => Step(false, md, [Refresh(topics)])
    case Some(response) => Step(true, Update(md, response, now), [Refresh(topics)])
  }

  /**
   * ensure_metadata_available_for_topics: a no-op when no topic needs metadata;
   * otherwise one refresh, after which every topic must be Fresh.
   */
  function EnsureSpec(cfg: Config, md: ClusterMetadata, cluster: Cluster, topics: set<string>, now: int)
    : (r: Step)
    ensures r.events != [] && r.events[0] == Ensure(NeedsMetadata(md, topics))
    ensures !NeedsMetadata(md, topics) ==> r.ok && r.md == md && r.events == [Ensure(false)]
    ensures NeedsMetadata(md, topics) ==>
      r.events == [Ensure(true), Refresh(topics)] && r.md == RefreshSpec(cfg, md, cluster, topics, now).md
    ensures r.ok <==> forall t :: t in topics ==> StatusOf(r.md, t) == Fresh
  {
    if !NeedsMetadata(md, topics) then Step(true, md, [Ensure(false)])
    else
      var s := RefreshSpec(cfg, md, cluster, topics, now);
      Step(s.ok && !NeedsMetadata(s.md, topics), s.md, [Ensure(true)] + s.events)
  }

  /** The passive refresh at the start of a send, made only when the interval has elapsed. */
  function PassiveSpec(cfg: Config, md: ClusterMetadata, cluster: Cluster, topics: set<string>, now: int)
    : (r: Step)
    ensures RefreshIntervalElapsed(md, cfg.refreshIntervalMs, now) ==> r == RefreshSpec(cfg, md, cluster, topics, now)
    ensures !RefreshIntervalElapsed(md, cfg.refreshIntervalMs, now) ==> r == Step(true, md, [])
  {
    if RefreshIntervalElapsed(md, cfg.refreshIntervalMs, now) then RefreshSpec(cfg, md, cluster, topics, now)
    else Step(true, md, [])
  }

  /** One send_to_broker call per batch, in order. */
  function SendEvents(batches: seq<BrokerBatch>): (r: seq<Event>)
    ensures |r| == |batches| && forall i :: 0 <= i < |batches| ==> r[i] == SendTo(batches[i].broker)
  {
    seq(|batches|, i requires 0 <= i < |batches| => SendTo(batches[i].broker))
  }

  /**
   * The single recovery round: reset the cache, ensure metadata for the failed
   * messages' topics, then redispatch those messages.
   */
  function RecoverySpec(cfg: Config, cluster: Cluster, failed: seq<MessageToSend>, now: int): SendOutcome
  {
    var e := EnsureSpec(cfg, EMPTY, cluster, TopicSet(failed), now);
    if !e.ok then SendOutcome(Failed(UnableToFetchMetadata), e.md, [Reset] + e.events, [])
    else
      var a := Attempt(e.md, cfg.partitioner, cluster, cfg.requiredAcks, failed);
      SendOutcome(if a.errors == [] then Sent else Failed(a.errors[0]), e.md,
                  [Reset] + e.events + SendEvents(a.batches), a.delivered)
  }

  /** A dispatch attempt followed, when some batch failed, by the recovery round. */
  function DispatchSpec(cfg: Config, md: ClusterMetadata, cluster: Cluster, msgs: seq<MessageToSend>, now: int)
    : SendOutcome
  {
    var a := Attempt(md, cfg.partitioner, cluster, cfg.requiredAcks, msgs);
    if a.errors == [] then SendOutcome(Sent, md, SendEvents(a.batches), a.delivered)
    else
      var r := RecoverySpec(cfg, cluster, a.failed, now);
      SendOutcome(r.result, r.md, SendEvents(a.batches) + r.events, a.delivered + r.delivered)
  }

  /** Ensure, then dispatch with recovery, once the passive refresh is done. */
  function EnsureAndDispatchSpec(cfg: Config, md: ClusterMetadata, cluster: Cluster, msgs: seq<MessageToSend>,
                                 now: int): SendOutcome
  {
    var e := EnsureSpec(cfg, md, cluster, TopicSet(msgs), now);
    if !e.ok then SendOutcome(Failed(UnableToFetchMetadata), e.md, e.events, [])
    else
      var d := DispatchSpec(cfg, e.md, cluster, msgs, now);
      SendOutcome(d.result, d.md, e.events + d.events, d.delivered)
  }

  /** send_messages from the cache `md` at time `now`. */
  function SendMessagesSpec(cfg: Config, md: ClusterMetadata, cluster: Cluster, msgs: seq<MessageToSend>, now: int)
    : SendOutcome
  {
    var p := PassiveSpec(cfg, md, cluster, TopicSet(msgs), now);
    if !p.ok then SendOutcome(Failed(UnableToFetchMetadata), p.md, p.events, [])
    else
      var o := EnsureAndDispatchSpec(cfg, p.md, cluster, msgs, now);
      SendOutcome(o.result, o.md, p.events + o.events, o.delivered)
  }

  lemma AppendAssoc<T>(a: seq<T>, b: seq<T>, c: seq<T>)
    ensures a + (b + c) == (a + b) + c
  {
  }

  // The producer

  class Producer {
    const config: Config
    var clusterMetadata: ClusterMetadata
    ghost var trace: seq<Event>

    /** A new producer starts with an empty cache and an empty trace. */
    constructor(config: Config)
      ensures this.config == config && clusterMetadata == EMPTY && trace == []
    {
      this.config := config;
      clusterMetadata := EMPTY;
      trace := [];
    }

    method RefreshMetadata(cluster: Cluster, topics: set<string>, now: int) returns (ok: bool)
      modifies this
      ensures var s := RefreshSpec(config, old(clusterMetadata), cluster, topics, now);
        ok == s.ok && clusterMetadata == s.md && trace == old(trace) + s.events
    {
      trace := trace + [Refresh(topics)];
      var response := FetchMetadata(config.seeds, clusterMetadata, cluster, topics);
      if response == None {
        return false;
      }
      clusterMetadata := Update(clusterMetadata, response.value, now);
      ok := true;
    }

    method EnsureMetadataAvailableForTopics(cluster: Cluster, topics: set<string>, now: int) returns (ok: bool)
      modifies this
      ensures var s := EnsureSpec(config, old(clusterMetadata), cluster, topics, now);
        ok == s.ok && clusterMetadata == s.md && trace == old(trace) + s.events
    {
      var needing := NeedsMetadata(clusterMetadata, topics);
      trace := trace + [Ensure(needing)];
      if !needing {
        return true;
      }
      ok := RefreshMetadata(cluster, topics, now);
      if ok {
        ok := !NeedsMetadata(clusterMetadata, topics);
      }
    }

    /** One produce request; the cache is not touched. */
    method SendToBroker(cluster: Cluster, batch: BrokerBatch) returns (error: Option<ProducerError>)
      modifies this
      ensures error == SendBatch(cluster, config.requiredAcks, batch)
      ensures clusterMetadata == old(clusterMetadata) && trace == old(trace) + [SendTo(batch.broker)]
    {
      trace := trace + [SendTo(batch.broker)];
      error := SendBatch(cluster, config.requiredAcks, batch);
    }

    /** Sends the batches one after another, collecting what was delivered and what failed. */
    method DispatchBatches(cluster: Cluster, batches: seq<BrokerBatch>) returns (d: DispatchResult)
      modifies this
      ensures d == DispatchAll(cluster, config.requiredAcks, batches)
      ensures clusterMetadata == old(clusterMetadata) && trace == old(trace) + SendEvents(batches)
    {
      d := DispatchResult([], [], []);
      var i := 0;
      while i < |batches|
        invariant i <= |batches|
        invariant d == DispatchAll(cluster, config.requiredAcks, batches[..i])
        invariant clusterMetadata == old(clusterMetadata) && trace == old(trace) + SendEvents(batches[..i])
      {
        var batch := batches[i];
        var error := SendToBroker(cluster, batch);
        if error == None {
          d := DispatchResult(d.delivered + BatchMessages(batch.messages), d.failed, d.errors);
        } else {
          d := DispatchResult(d.delivered, d.failed + BatchMessages(batch.messages), d.errors + [error.value]);
        }
        assert batches[..i + 1][..i] == batches[..i];
        assert SendEvents(batches[..i + 1]) == SendEvents(batches[..i]) + [SendTo(batch.broker)];
        i := i + 1;
      }
      assert batches[..|batches|] == batches;
    }

    /** Groups the messages over the current cache and dispatches the batches. */
    method AttemptDispatch(cluster: Cluster, msgs: seq<MessageToSend>) returns (a: AttemptResult)
      modifies this
      ensures a == Attempt(clusterMetadata, config.partitioner, cluster, config.requiredAcks, msgs)
      ensures clusterMetadata == old(clusterMetadata) && trace == old(trace) + SendEvents(a.batches)
    {
      var g := Group(clusterMetadata, config.partitioner, msgs);
      var d := DispatchBatches(cluster, g.batches);
      a := AttemptResult(g.batches, d.delivered, d.failed + g.unroutable,
                         d.errors + if g.unroutable == [] then [] else [UnableToFetchMetadata]);
    }

    method ResetMetadata()
      modifies this
      ensures clusterMetadata == EMPTY && trace == old(trace) + [Reset]
    {
      trace := trace + [Reset];
      clusterMetadata := EMPTY;
    }

    /** Refreshes only when the refresh interval has elapsed. */
    method PassiveRefresh(cluster: Cluster, topics: set<string>, now: int) returns (ok: bool)
      modifies this
      ensures var s := PassiveSpec(config, old(clusterMetadata), cluster, topics, now);
        ok == s.ok && clusterMetadata == s.md && trace == old(trace) + s.events
    {
      ok := true;
      if RefreshIntervalElapsed(clusterMetadata, config.refreshIntervalMs, now) {
        ok := RefreshMetadata(cluster, topics, now);
      }
    }

    /** The recovery round after a failed dispatch. */
    method Recover(cluster: Cluster, failed: seq<MessageToSend>, now: int)
      returns (result: SendResult, delivered: seq<MessageToSend>)
      modifies this
      ensures var o := RecoverySpec(config, cluster, failed, now);
        result == o.result && delivered == o.delivered && clusterMetadata == o.md && trace == old(trace) + o.events
    {
      ghost var start := trace;
      ResetMetadata();
      ghost var reset := trace;
      var ok := EnsureMetadataAvailableForTopics(cluster, TopicSet(failed), now);
      AppendAssoc(start, [Reset], trace[|reset|..]);
      if !ok {
        return Failed(UnableToFetchMetadata), [];
      }
      ghost var ensured := trace;
      var a := AttemptDispatch(cluster, failed);
      AppendAssoc(start, ensured[|start|..], trace[|ensured|..]);
      result := if a.errors == [] then Sent else Failed(a.errors[0]);
      delivered := a.delivered;
    }

    /** Dispatches the messages, and on a failure runs the recovery round. */
    method DispatchWithRecovery(cluster: Cluster, msgs: seq<MessageToSend>, now: int)
      returns (result: SendResult, delivered: seq<MessageToSend>)
      modifies this
      ensures var o := DispatchSpec(config, old(clusterMetadata), cluster, msgs, now);
        result == o.result && delivered == o.delivered && clusterMetadata == o.md && trace == old(trace) + o.events
    {
      ghost var start := trace;
      var a := AttemptDispatch(cluster, msgs);
      if a.errors == [] {
        return Sent, a.delivered;
      }
      ghost var attempted := trace;
      var retried;
      result, retried := Recover(cluster, a.failed, now);
      AppendAssoc(start, attempted[|start|..], trace[|attempted|..]);
      delivered := a.delivered + retried;
    }

    method EnsureAndDispatch(cluster: Cluster, msgs: seq<MessageToSend>, now: int)
      returns (result: SendResult, delivered: seq<MessageToSend>)
      modifies this
      ensures var o := EnsureAndDispatchSpec(config, old(clusterMetadata), cluster, msgs, now);
        result == o.result && delivered == o.delivered && clusterMetadata == o.md && trace == old(trace) + o.events
    {
      ghost var start := trace;
      var ok := EnsureMetadataAvailableForTopics(cluster, TopicSet(msgs), now);
      if !ok {
        return Failed(UnableToFetchMetadata), [];
      }
      ghost var ensured := trace;
      result, delivered := DispatchWithRecovery(cluster, msgs, now);
      AppendAssoc(start, ensured[|start|..], trace[|ensured|..]);
    }

    /** send_messages: passive refresh, ensure, dispatch, and at most one recovery round. */
    method SendMessages(cluster: Cluster, msgs: seq<MessageToSend>, now: int)
      returns (result: SendResult, delivered: seq<MessageToSend>)
      modifies this
      ensures var o := SendMessagesSpec(config, old(clusterMetadata), cluster, msgs, now);
        result == o.result && delivered == o.delivered && clusterMetadata == o.md && trace == old(trace) + o.events
    {
      ghost var start := trace;
      var ok := PassiveRefresh(cluster, TopicSet(msgs), now);
      if !ok {
        return Failed(UnableToFetchMetadata), [];
      }
      ghost var passive := trace;
      result, delivered := EnsureAndDispatch(cluster, msgs, now);
      AppendAssoc(start, passive[|start|..], trace[|passive|..]);
    }
  }
}
