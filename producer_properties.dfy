/**
 * What every send_messages call guarantees, whatever the cluster does: the order
 * of the calls it makes, the bound on recovery, and that a send either delivers
 * every message or fails.
 */
module ProducerProperties {
  import opened Wrappers
  import opened Metadata
  import opened ClusterMetadataCache
  import opened Dispatch
  import opened ProducerCore

  // Shapes of a trace

  predicate NoSends(ev: seq<Event>)
  {
    forall k :: 0 <= k < |ev| ==> !ev[k].SendTo?
  }

  /** Every send_to_broker call comes after some ensure call. */
  predicate EnsureBeforeSend(ev: seq<Event>)
  {
    forall j :: 0 <= j < |ev| && ev[j].SendTo? ==> exists i :: 0 <= i < j && ev[i].Ensure?
  }

  /** reset_metadata is called at most once. */
  predicate AtMostOneReset(ev: seq<Event>)
  {
    multiset(ev)[Reset] <= 1
  }

  /**
   * Where a reset may stand in a trace: after some send, and followed at once by
   * an ensure that needs metadata. That the send failed is FirstAttemptFails.
   */
  predicate ResetFollowsSend(ev: seq<Event>)
  {
    forall i :: 0 <= i < |ev| && ev[i] == Reset ==>
      (exists j :: 0 <= j < i && ev[j].SendTo?) && i + 1 < |ev| && ev[i + 1] == Ensure(true)
  }

  /** Some batch of the first dispatch attempt over the cache `md` is refused by its broker. */
  predicate FirstAttemptFails(cfg: Config, md: ClusterMetadata, cluster: Cluster, msgs: seq<MessageToSend>)
  {
    var a := Attempt(md, cfg.partitioner, cluster, cfg.requiredAcks, msgs);
    exists i :: 0 <= i < |a.batches| && SendBatch(cluster, cfg.requiredAcks, a.batches[i]) != None
  }

  // Trace lemmas, independent of the producer

  /** With no send before the first ensure, every send follows an ensure. */
  lemma EnsureFirst(pre: seq<Event>, post: seq<Event>)
    requires NoSends(pre) && post != [] && post[0].Ensure?
    ensures EnsureBeforeSend(pre + post)
  {
    var ev := pre + post;
    assert ev[|pre|] == post[0];
    assert forall k :: 0 <= k < |pre| ==> ev[k] == pre[k];
  }

  /** A single reset that follows a send and precedes an ensure needing metadata. */
  lemma ResetShape(pre: seq<Event>, post: seq<Event>)
    requires post != [] && post[0] == Ensure(true) && Reset !in post[1..]
    requires Reset !in pre && !NoSends(pre)
    ensures AtMostOneReset(pre + [Reset] + post) && ResetFollowsSend(pre + [Reset] + post)
  {
    var ev := pre + [Reset] + post;
    assert post == [post[0]] + post[1..];
    assert multiset(ev)[Reset] == multiset(pre)[Reset] + 1 + multiset([post[0]])[Reset] + multiset(post[1..])[Reset];
    assert forall k :: 0 <= k < |pre| ==> ev[k] == pre[k];
    assert forall k :: |pre| + 1 < k < |ev| ==> ev[k] == post[1..][k - |pre| - 2];
    assert ev[|pre| + 1] == post[0];
    forall i | 0 <= i < |ev| && ev[i] == Reset
      ensures (exists j :: 0 <= j < i && ev[j].SendTo?) && i + 1 < |ev| && ev[i + 1] == Ensure(true)
    {
      var k :| 0 <= k < |pre| && pre[k].SendTo?;
      assert ev[k] == pre[k];
    }
  }

  /** A trace without resets satisfies both reset properties. */
  lemma NoResetTrace(ev: seq<Event>)
    requires Reset !in ev
    ensures AtMostOneReset(ev) && ResetFollowsSend(ev)
  {
  }

  /** A trace that starts with an ensure has every send after an ensure. */
  lemma StartsWithEnsure(ev: seq<Event>)
    requires ev != [] && ev[0].Ensure?
    ensures EnsureBeforeSend(ev)
  {
  }

  /**
   * A prefix without sends and resets changes neither where the resets are, nor
   * whether the trace sends, nor whether it resets.
   */
  lemma QuietPrefix(pre: seq<Event>, ev: seq<Event>)
    requires NoSends(pre) && Reset !in pre
    requires AtMostOneReset(ev) && ResetFollowsSend(ev)
    ensures AtMostOneReset(pre + ev) && ResetFollowsSend(pre + ev)
    ensures NoSends(pre + ev) == NoSends(ev)
    ensures (Reset in pre + ev) == (Reset in ev)
  {
    var all := pre + ev;
    assert multiset(all) == multiset(pre) + multiset(ev);
    assert forall k :: 0 <= k < |pre| ==> all[k] == pre[k];
    assert forall k :: 0 <= k < |ev| ==> all[|pre| + k] == ev[k];
    forall i | 0 <= i < |all| && all[i] == Reset
      ensures (exists j :: 0 <= j < i && all[j].SendTo?) && i + 1 < |all| && all[i + 1] == Ensure(true)
    {
      var k := i - |pre|;
      assert ev[k] == Reset && ev[k + 1] == all[i + 1];
      var j :| 0 <= j < k && ev[j].SendTo?;
      assert all[|pre| + j] == ev[j];
    }
    if !NoSends(all) {
      var k :| 0 <= k < |all| && all[k].SendTo?;
      assert all[k] == ev[k - |pre|];
    }
  }

  /**
   * Sends followed by a recovery trace (a reset, an ensure needing metadata, and
   * no other reset) have their only reset right after a send.
   */
  lemma SendsThenRecovery(pre: seq<Event>, rec: seq<Event>)
    requires Reset !in pre && !NoSends(pre)
    requires |rec| >= 2 && rec[0] == Reset && rec[1] == Ensure(true) && Reset !in rec[1..]
    ensures AtMostOneReset(pre + rec) && ResetFollowsSend(pre + rec) && Reset in pre + rec
  {
    var post := rec[1..];
    assert rec == [Reset] + post;
    AppendAssoc(pre, [Reset], post);
    ResetShape(pre, post);
    assert (pre + rec)[|pre|] == Reset;
  }

  lemma SendEventsOnlySend(batches: seq<BrokerBatch>)
    ensures Reset !in SendEvents(batches)
    ensures batches != [] ==> !NoSends(SendEvents(batches))
  {
    if batches != [] {
      assert SendEvents(batches)[0].SendTo?;
    }
  }

  // The calls that send nothing

  /** An ensure call starts with its Ensure event and neither sends nor resets. */
  lemma EnsureQuiet(cfg: Config, md: ClusterMetadata, cluster: Cluster, topics: set<string>, now: int)
    ensures var e := EnsureSpec(cfg, md, cluster, topics, now);
      e.events != [] && e.events[0].Ensure? && NoSends(e.events) && Reset !in e.events
  {
  }

  /** The passive refresh neither sends nor resets. */
  lemma PassiveQuiet(cfg: Config, md: ClusterMetadata, cluster: Cluster, topics: set<string>, now: int)
    ensures var p := PassiveSpec(cfg, md, cluster, topics, now);
      NoSends(p.events) && Reset !in p.events
  {
  }

  // The recovery round and the dispatch

  /** The recovery round starts with its only reset, followed by an ensure that needs metadata. */
  lemma {:induction false} RecoveryTrace(cfg: Config, cluster: Cluster, failed: seq<MessageToSend>, now: int)
    requires failed != []
    ensures var r := RecoverySpec(cfg, cluster, failed, now);
      |r.events| >= 2 && r.events[0] == Reset && r.events[1] == Ensure(true) && Reset !in r.events[1..]
  {
    var topics := TopicSet(failed);
    assert failed[0].topic in topics;
    EmptyNeedsMetadata(topics);
    var e := EnsureSpec(cfg, EMPTY, cluster, topics, now);
    EnsureQuiet(cfg, EMPTY, cluster, topics, now);
    var r := RecoverySpec(cfg, cluster, failed, now);
    if e.ok {
      var a := Attempt(e.md, cfg.partitioner, cluster, cfg.requiredAcks, failed);
      SendEventsOnlySend(a.batches);
      assert r.events == [Reset] + e.events + SendEvents(a.batches);
      ResetThenEnsure(e.events, SendEvents(a.batches));
    } else {
      assert r.events == [Reset] + e.events + [];
      ResetThenEnsure(e.events, []);
    }
  }

  /** A reset, then an ensure needing metadata, then events without a reset. */
  lemma ResetThenEnsure(ens: seq<Event>, sends: seq<Event>)
    requires ens != [] && ens[0] == Ensure(true) && Reset !in ens && Reset !in sends
    ensures var ev := [Reset] + ens + sends;
      |ev| >= 2 && ev[0] == Reset && ev[1] == Ensure(true) && Reset !in ev[1..]
  {
    var ev := [Reset] + ens + sends;
    assert ev[1..] == ens + sends;
  }

  /** The recovery round delivers each failed message at most once, and all of them exactly when it succeeds. */
  lemma RecoveryDelivery(cfg: Config, cluster: Cluster, failed: seq<MessageToSend>, now: int)
    ensures var r := RecoverySpec(cfg, cluster, failed, now);
      multiset(r.delivered) <= multiset(failed) && (r.result == Sent <==> multiset(r.delivered) == multiset(failed))
  {
    var topics := TopicSet(failed);
    var e := EnsureSpec(cfg, EMPTY, cluster, topics, now);
    var r := RecoverySpec(cfg, cluster, failed, now);
    if e.ok {
      var a := Attempt(e.md, cfg.partitioner, cluster, cfg.requiredAcks, failed);
      assert r.delivered == a.delivered && (r.result == Sent <==> a.errors == []);
      AttemptPartition(e.md, cfg.partitioner, cluster, cfg.requiredAcks, failed);
      AttemptErrorsFail(e.md, cfg.partitioner, cluster, cfg.requiredAcks, failed);
      if a.errors != [] {
        assert a.failed[0] in multiset(a.failed);
        assert multiset(a.delivered)[a.failed[0]] < multiset(failed)[a.failed[0]];
      }
    } else {
      assert r.delivered == [] && r.result != Sent;
      assert failed[0] in multiset(failed);
    }
  }

  /** A failed attempt over a cache Fresh for every topic has sent some batch and failed some message. */
  lemma FreshAttemptFailure(md: ClusterMetadata, partitioner: Partitioner, cluster: Cluster, requiredAcks: int,
                            msgs: seq<MessageToSend>)
    requires forall t :: t in TopicSet(msgs) ==> StatusOf(md, t) == Fresh
    requires Attempt(md, partitioner, cluster, requiredAcks, msgs).errors != []
    ensures var a := Attempt(md, partitioner, cluster, requiredAcks, msgs);
      a.failed != [] && a.batches != []
  {
    AttemptRoutesFresh(md, partitioner, cluster, requiredAcks, msgs);
    AttemptErrorsFail(md, partitioner, cluster, requiredAcks, msgs);
  }

  /** Over a cache Fresh for every topic, an attempt reports an error exactly when a broker refuses a batch. */
  lemma FreshAttemptFails(cfg: Config, md: ClusterMetadata, cluster: Cluster, msgs: seq<MessageToSend>)
    requires forall t :: t in TopicSet(msgs) ==> StatusOf(md, t) == Fresh
    ensures Attempt(md, cfg.partitioner, cluster, cfg.requiredAcks, msgs).errors != [] <==>
      FirstAttemptFails(cfg, md, cluster, msgs)
  {
    var g := Group(md, cfg.partitioner, msgs);
    AttemptRoutesFresh(md, cfg.partitioner, cluster, cfg.requiredAcks, msgs);
    DispatchErrors(cluster, cfg.requiredAcks, g.batches);
  }

  /**
   * Dispatching from a cache that is Fresh for every topic: it resets exactly when
   * a broker refuses a batch of the first attempt, at most once, always after a
   * send and before an ensure that needs metadata; without a reset, the call succeeds.
   */
  lemma DispatchTrace(cfg: Config, md: ClusterMetadata, cluster: Cluster, msgs: seq<MessageToSend>, now: int)
    requires forall t :: t in TopicSet(msgs) ==> StatusOf(md, t) == Fresh
    ensures var d := DispatchSpec(cfg, md, cluster, msgs, now);
      && AtMostOneReset(d.events) && ResetFollowsSend(d.events)
      && (Reset in d.events <==> FirstAttemptFails(cfg, md, cluster, msgs))
      && (Reset !in d.events ==> d.result == Sent)
  {
    FreshAttemptFails(cfg, md, cluster, msgs);
    var d := DispatchSpec(cfg, md, cluster, msgs, now);
    var a := Attempt(md, cfg.partitioner, cluster, cfg.requiredAcks, msgs);
    var sends := SendEvents(a.batches);
    SendEventsOnlySend(a.batches);
    if a.errors == [] {
      assert d.events == sends && d.result == Sent;
      NoResetTrace(sends);
    } else {
      FreshAttemptFailure(md, cfg.partitioner, cluster, cfg.requiredAcks, msgs);
      var r := RecoverySpec(cfg, cluster, a.failed, now);
      assert d.events == sends + r.events;
      RecoveryTrace(cfg, cluster, a.failed, now);
      SendsThenRecovery(sends, r.events);
    }
  }

  /** A dispatch delivers each message at most once, and all of them exactly when it succeeds. */
  lemma DispatchDelivery(cfg: Config, md: ClusterMetadata, cluster: Cluster, msgs: seq<MessageToSend>, now: int)
    ensures var d := DispatchSpec(cfg, md, cluster, msgs, now);
      multiset(d.delivered) <= multiset(msgs) && (d.result == Sent <==> multiset(d.delivered) == multiset(msgs))
  {
    var a := Attempt(md, cfg.partitioner, cluster, cfg.requiredAcks, msgs);
    AttemptPartition(md, cfg.partitioner, cluster, cfg.requiredAcks, msgs);
    if a.errors != [] {
      var r := RecoverySpec(cfg, cluster, a.failed, now);
      RecoveryDelivery(cfg, cluster, a.failed, now);
      var x, y, z := multiset(a.delivered), multiset(r.delivered), multiset(a.failed);
      assert multiset(a.delivered + r.delivered) == x + y;
      if x + y == x + z {
        assert y == z by {
          forall m ensures y[m] == z[m] {
            assert (x + y)[m] == (x + z)[m];
          }
        }
      }
    }
  }

  // send_messages

  /**
   * Ensure and dispatch: every send follows the ensure, and resets are as in
   * DispatchTrace: one happens exactly when the ensure succeeded and a broker
   * then refused a batch.
   */
  lemma EnsureAndDispatchTrace(cfg: Config, md: ClusterMetadata, cluster: Cluster, msgs: seq<MessageToSend>, now: int)
    ensures var x := EnsureAndDispatchSpec(cfg, md, cluster, msgs, now);
      var e := EnsureSpec(cfg, md, cluster, TopicSet(msgs), now);
      && x.events != [] && x.events[0].Ensure?
      && EnsureBeforeSend(x.events)
      && AtMostOneReset(x.events)
      && ResetFollowsSend(x.events)
      && (Reset in x.events <==> e.ok && FirstAttemptFails(cfg, e.md, cluster, msgs))
      && (!NoSends(x.events) && Reset !in x.events ==> x.result == Sent)
  {
    var x := EnsureAndDispatchSpec(cfg, md, cluster, msgs, now);
    var e := EnsureSpec(cfg, md, cluster, TopicSet(msgs), now);
    EnsureQuiet(cfg, md, cluster, TopicSet(msgs), now);
    if e.ok {
      var d := DispatchSpec(cfg, e.md, cluster, msgs, now);
      assert x.events == e.events + d.events && x.result == d.result;
      DispatchTrace(cfg, e.md, cluster, msgs, now);
      QuietPrefix(e.events, d.events);
    } else {
      assert x.events == e.events;
      NoResetTrace(e.events);
    }
    assert x.events[0] == e.events[0];
    StartsWithEnsure(x.events);
  }

  /**
   * Every send_messages trace: sends follow an ensure; there is at most one reset;
   * it happens exactly when the passive refresh and the ensure succeeded and a
   * broker then refused a batch of the first attempt; it stands after a send and
   * right before an ensure that needs metadata.
   */
  lemma SendMessagesTrace(cfg: Config, md: ClusterMetadata, cluster: Cluster, msgs: seq<MessageToSend>, now: int)
    ensures var o := SendMessagesSpec(cfg, md, cluster, msgs, now);
      var p := PassiveSpec(cfg, md, cluster, TopicSet(msgs), now);
      var e := EnsureSpec(cfg, p.md, cluster, TopicSet(msgs), now);
      && EnsureBeforeSend(o.events)
      && AtMostOneReset(o.events)
      && ResetFollowsSend(o.events)
      && (Reset in o.events <==> p.ok && e.ok && FirstAttemptFails(cfg, e.md, cluster, msgs))
      && (!NoSends(o.events) && Reset !in o.events ==> o.result == Sent)
  {
    var o := SendMessagesSpec(cfg, md, cluster, msgs, now);
    var p := PassiveSpec(cfg, md, cluster, TopicSet(msgs), now);
    PassiveQuiet(cfg, md, cluster, TopicSet(msgs), now);
    if p.ok {
      var x := EnsureAndDispatchSpec(cfg, p.md, cluster, msgs, now);
      assert o.events == p.events + x.events && o.result == x.result;
      EnsureAndDispatchTrace(cfg, p.md, cluster, msgs, now);
      EnsureFirst(p.events, x.events);
      QuietPrefix(p.events, x.events);
    } else {
      assert o.events == p.events;
      NoResetTrace(p.events);
    }
  }

  /**
   * A send is all or nothing: no message is delivered twice, a successful send
   * delivers every message, and a failed send of some message leaves one undelivered.
   */
  lemma SendMessagesDelivery(cfg: Config, md: ClusterMetadata, cluster: Cluster, msgs: seq<MessageToSend>, now: int)
    ensures var o := SendMessagesSpec(cfg, md, cluster, msgs, now);
      && multiset(o.delivered) <= multiset(msgs)
      && (o.result == Sent ==> multiset(o.delivered) == multiset(msgs))
      && (o.result != Sent && msgs != [] ==> multiset(o.delivered) != multiset(msgs))
  {
    var topics := TopicSet(msgs);
    var p := PassiveSpec(cfg, md, cluster, topics, now);
    if msgs != [] {
      assert msgs[0] in multiset(msgs);
    }
    if p.ok {
      var e := EnsureSpec(cfg, p.md, cluster, topics, now);
      if e.ok {
        DispatchDelivery(cfg, e.md, cluster, msgs, now);
      }
    }
  }
}
