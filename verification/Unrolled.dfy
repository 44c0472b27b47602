/** The handlers' replies and sends taken one at a time. */
module Unrolled {
  import opened Collections
  import opened Text
  import opened Wire
  import opened Bloom
  import opened Sends
  import opened NodeModel
  import opened Systems
  import opened Steps
  import QueryLimiter
  import SyncTables

  // ---------- sends commute with what the handlers change between them ----------

  /** Sending neither reads nor changes the request counter or the limiter. */
  lemma {:induction false} SendAllAfter(c: Config, a: Core, b: Core, items: seq<Item>, txs: seq<Transmission>)
    requires b == a.(counter := b.counter, limiter := b.limiter)
    ensures SendAll(c, b, items, txs).out == SendAll(c, a, items, txs).out
    ensures SendAll(c, b, items, txs).core
            == SendAll(c, a, items, txs).core.(counter := b.counter, limiter := b.limiter)
  {
    if items != [] {
      SendAllAfter(c, a, b, items[..|items| - 1], txs);
      hide SyncTables.Record, Packets;
    }
  }

  lemma {:induction false} SendAllStep(c: Config, core: Core, items: seq<Item>, item: Item, txs: seq<Transmission>)
    ensures var first := SendAll(c, core, items, txs);
            var last := SendOne(c, first.core, item, TxAt(txs, |items|));
            SendAll(c, core, items + [item], txs) == Sent(last.core, first.out + last.out)
  {
    assert (items + [item])[..|items|] == items;
    hide SendOne;
  }

  lemma {:induction false} SendAllOne(c: Config, core: Core, item: Item, txs: seq<Transmission>)
    ensures SendAll(c, core, [item], txs) == SendOne(c, core, item, TxAt(txs, 0))
  {
    SendAllStep(c, core, [], item, txs);
    assert [] + [item] == [item];
    hide SendOne;
  }

  lemma {:induction false} RepliesStep(c: Config, core: Core, f: Filter, origin: string, from: nat, keys: seq<string>,
                                       key: string, env: Env)
    ensures var before := Replies(c, core, f, origin, from, keys, env);
      Replies(c, core, f, origin, from, keys + [key], env) ==
        if Answers(core, f, key, env) then
          before + [Direct(DataFor(c, MakeRequestId(c.nodeId, MillisAt(env, |before|), Advance(core.counter, |before|)),
                                   origin, key, core.redis[key]),
                           0, from, Some(Served(key, origin)))]
        else before
  {
    assert (keys + [key])[..|keys|] == keys;
    hide Answers, MakeRequestId;
  }

  lemma {:induction false} AnswerCounts(c: Config, start: Core, f: Filter, origin: string, from: nat, keys: seq<string>,
                                        key: string, env: Env, txs: seq<Transmission>, sent: nat, core: Core,
                                        out: seq<Outgoing>, after: Sent)
    requires Answers(start, f, key, env)
    requires var replies := Replies(c, start, f, origin, from, keys, env);
             sent == |replies| && Sent(core, out)
                 == SendAll(c, start.(counter := Advance(start.counter, sent)), replies, txs)
    requires var id := MakeRequestId(c.nodeId, MillisAt(env, sent), core.counter);
             after == SendOne(c, core.(counter := Advance(core.counter, 1)),
                              Direct(DataFor(c, id, origin, key, start.redis[key]), 0, from, Some(Served(key, origin))),
                                  TxAt(txs, sent))
    ensures var replies := Replies(c, start, f, origin, from, keys + [key], env);
            sent + 1 == |replies|
            && Sent(after.core, out + after.out)
                == SendAll(c, start.(counter := Advance(start.counter, sent + 1)), replies, txs)
  {
    hide Answers, MakeRequestId, SendOne, SendAll, Replies, FromItems;
    var replies := Replies(c, start, f, origin, from, keys, env);
    var counted := start.(counter := Advance(start.counter, sent));
    SendAllFrame(c, counted, replies, txs);
    RepliesStep(c, start, f, origin, from, keys, key, env);
    SendAllAfter(c, counted, start.(counter := Advance(start.counter, sent + 1)), replies, txs);
    var all := Replies(c, start, f, origin, from, keys + [key], env);
    assert all == replies + [all[sent]];
    SendAllStep(c, start.(counter := Advance(start.counter, sent + 1)), replies, all[sent], txs);
  }

  lemma {:induction false} ForwardFollows(c: Config, start: Core, m: Message, from: nat, hops: nat, env: Env,
                                          txs: seq<Transmission>, f: Filter, core: Core, out: seq<Outgoing>,
                                          counted: Core, last: Sent)
    requires AcceptedQuery(c, m, env) == Some(f) && m.ttl - 1 > 0
    requires var replies := Replies(c, start, f, m.origin, from, env.keyOrder, env);
             Sent(core, out) == SendAll(c, start.(counter := Advance(start.counter, |replies|)), replies, txs)
             && (var call := LimiterCall(m, f, env);
                 QueryLimiter.Allows(core.limiter, call, c.limits)
                 && counted == core.(limiter := QueryLimiter.After(core.limiter, call, c.limits))
                 && last == SendOne(c, counted, Broadcast(m.(ttl := m.ttl - 1), hops + 1, Some(from)),
                                    TxAt(txs, |replies|)))
    ensures var effect := HandleQueryBloom(c, start, m, from, hops, env);
            Sent(last.core, out + last.out) == SendAll(c, effect.core, effect.items, txs)
  {
    hide AcceptedQuery, Replies, LimiterCall, QueryLimiter.After, QueryLimiter.Allows, SendOne, SendAll, FromItems;
    var replies := Replies(c, start, f, m.origin, from, env.keyOrder, env);
    var served := start.(counter := Advance(start.counter, |replies|));
    SendAllFrame(c, served, replies, txs);
    assert core.limiter == start.limiter;
    var limited := served.(limiter := QueryLimiter.After(core.limiter, LimiterCall(m, f, env), c.limits));
    SendAllAfter(c, served, limited, replies, txs);
    SendAllStep(c, limited, replies, Broadcast(m.(ttl := m.ttl - 1), hops + 1, Some(from)), txs);
  }

  lemma {:induction false} NoForward(c: Config, start: Core, m: Message, from: nat, hops: nat, env: Env,
                                     txs: seq<Transmission>, f: Filter, core: Core, out: seq<Outgoing>, counted: Core)
    requires AcceptedQuery(c, m, env) == Some(f)
    requires var replies := Replies(c, start, f, m.origin, from, env.keyOrder, env);
             Sent(core, out) == SendAll(c, start.(counter := Advance(start.counter, |replies|)), replies, txs)
    requires var call := LimiterCall(m, f, env);
             if m.ttl - 1 <= 0 then counted == core
             else !QueryLimiter.Allows(core.limiter, call, c.limits)
                  && counted == core.(limiter := QueryLimiter.After(core.limiter, call, c.limits))
    ensures var effect := HandleQueryBloom(c, start, m, from, hops, env);
            Sent(counted, out) == SendAll(c, effect.core, effect.items, txs)
  {
    hide AcceptedQuery, Replies, LimiterCall, QueryLimiter.After, QueryLimiter.Allows, SendOne, SendAll, FromItems;
    var replies := Replies(c, start, f, m.origin, from, env.keyOrder, env);
    var served := start.(counter := Advance(start.counter, |replies|));
    SendAllFrame(c, served, replies, txs);
    assert core.limiter == start.limiter;
    SendAllAfter(c, served, served.(limiter := counted.limiter), replies, txs);
  }

  lemma NothingDone(c: Config, core: Core, m: Message, from: nat, hops: nat, env: Env)
    requires AcceptedQuery(c, m, env).None?
    ensures HandleQueryBloom(c, core, m, from, hops, env) == Effect(core, [])
  {
    hide AcceptedQuery;
  }

  lemma {:induction false} NothingSent(c: Config, core: Core, txs: seq<Transmission>)
    ensures SendAll(c, core, [], txs) == Sent(core, [])
  {}

  // ---------- what one send does ----------

  /** The neighbours a broadcast gets through to. */
  function ReachedAt(neighbors: seq<nat>, reached: seq<bool>): set<nat> {
    set i | 0 <= i < |neighbors| && i < |reached| && reached[i]
  }

  lemma {:induction false} ReachedExactly(neighbors: seq<nat>, reached: seq<bool>)
    ensures |Reached(neighbors, reached)| == |ReachedAt(neighbors, reached)|
    ensures forall d :: d in Reached(neighbors, reached) <==>
                          exists i :: i in ReachedAt(neighbors, reached) && neighbors[i] == d
  {
    if neighbors == [] {
      assert ReachedAt(neighbors, reached) == {};
    } else {
      var n := |neighbors| - 1;
      ReachedExactly(neighbors[..n], reached);
      var before := ReachedAt(neighbors[..n], reached);
      assert ReachedAt(neighbors, reached) == before + (if n < |reached| && reached[n] then {n} else {});
    }
  }

  /**
   * The network gets a direct item's message for its address if it was sent, a broadcast's once for each neighbour
   * that was reached, and nothing else.
   */
  lemma {:induction false} PacketsExactly(c: Config, item: Item, tx: Transmission)
    ensures item.Direct? ==> Packets(c, item, tx) == if tx.sent then [Outgoing(item.addr, item.msg, item.hops)] else []
    ensures item.Broadcast? ==> |Packets(c, item, tx)| == |ReachedAt(c.neighbors, tx.reached)|
    ensures item.Broadcast? ==>
              forall o :: o in Packets(c, item, tx) <==>
                exists i :: i in ReachedAt(c.neighbors, tx.reached)
                            && o == Outgoing(c.neighbors[i], item.msg, item.hops)
  {
    if item.Broadcast? {
      ReachedExactly(c.neighbors, tx.reached);
      var dsts := Reached(c.neighbors, tx.reached);
      var out := Packets(c, item, tx);
      assert out == seq(|dsts|, k requires 0 <= k < |dsts| => Outgoing(dsts[k], item.msg, item.hops));
      hide Reached;
      forall o | o in out
        ensures exists i :: i in ReachedAt(c.neighbors, tx.reached)
                            && o == Outgoing(c.neighbors[i], item.msg, item.hops)
      {
        var k :| 0 <= k < |out| && out[k] == o;
        assert dsts[k] in dsts;
      }
      forall i | i in ReachedAt(c.neighbors, tx.reached)
        ensures Outgoing(c.neighbors[i], item.msg, item.hops) in out
      {
        assert c.neighbors[i] in dsts;
        var k :| 0 <= k < |dsts| && dsts[k] == c.neighbors[i];
        assert out[k] == Outgoing(c.neighbors[i], item.msg, item.hops);
      }
    }
  }

  /**
   * A direct answer that was sent is noted in the SyncTable: its key is the most recently used one and its origin among
   * the destinations. Anything else a send does leaves the shared state alone.
   */
  lemma CallbackExactly(c: Config, core: Core, item: Item, tx: Transmission)
    requires SyncTables.WithinCapacity(core.sync, c.syncCapacity) && c.syncCapacity > 0
    ensures var t := Called(c, core, item, tx);
      && t == core.(sync := t.sync)
      && (!(item.Direct? && tx.sent && item.onSuccess.Some?) ==> t == core)
      && (item.Direct? && tx.sent && item.onSuccess.Some? ==>
            var served := item.onSuccess.value;
            && t.sync.order != [] && t.sync.order[0] == served.key
            && served.key in t.sync.dests && served.origin in t.sync.dests[served.key]
            && t.sync.updates == core.sync.updates + 1)
  {
    if item.Direct? && tx.sent && item.onSuccess.Some? {
      var call := SyncTables.Call(item.onSuccess.value.key, item.onSuccess.value.origin);
      SyncTables.MostRecent(core.sync, call, c.syncCapacity);
      hide SyncTables.Record, SyncTables.WithinCapacity;
    }
  }

  /** With the queue on and started a send waits at its end, unless it is full; otherwise it goes out at once. */
  lemma SendExactly(c: Config, core: Core, item: Item, tx: Transmission)
    ensures var r := SendOne(c, core, item, tx);
      var queued := c.asyncForward && core.started;
      && (queued ==>
            && r.out == []
            && r.core == core.(queue := core.queue + if |core.queue| < c.queueMax then [item] else []))
      && (!queued ==> r.core.queue == core.queue && r.out == Packets(c, item, tx))
  {
    hide SyncTables.Record, Packets;
  }
}
