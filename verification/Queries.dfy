/**
 * Query-BF completeness: a batch's filter and creation time survive every hop, and each node that holds a batched key
 * answers.
 */
module Queries {
  import opened Collections
  import opened Text
  import opened Wire
  import opened Bloom
  import opened Sends
  import opened NodeModel
  import opened Systems
  import opened Arrivals
  import opened Steps
  import opened NodeInvariants
  import opened Histories
  import opened Reachability
  import opened Coherence
  import Aggregator
  import FallbackTables
  import QueryLimiter

  predicate SameQueryParams(a: Config, b: Config) {
    a.batching.bitCount == b.batching.bitCount && a.batching.hashCount == b.batching.hashCount
  }

  /** A message that carries batch b of node o after `hops` forwards. */
  ghost predicate CarriesBatch(cfgs: seq<Config>, m: Message, hops: nat, o: nat, b: Aggregator.Batch) {
    && o < |cfgs| && m.kind == QueryBloom && m.origin == cfgs[o].nodeId
    && m.ttl + hops == cfgs[o].requestTtl && m.ttl > 0
    && 0 <= b.createdMs < TWO_64 && ParseUint64(m.value) == Some(b.createdMs)
    && forall n :: 0 <= n < |cfgs| && SameQueryParams(cfgs[n], cfgs[o]) ==>
         FromHex(cfgs[n].batching.bitCount, cfgs[n].batching.hashCount, m.key)
         == Some(Aggregator.FilterOf(cfgs[o].batching, b.keys))
  }

  predicate Unexpired(c: Config, b: Aggregator.Batch, env: Env) {
    0 <= b.createdMs < TWO_64 && env.wallMs <= b.createdMs + c.queryBfTtl % TWO_64
  }

  lemma BatchRoundTrip(cfgs: seq<Config>, o: nat, b: Aggregator.Batch, m: Message, hops: nat)
    requires o < |cfgs| && OwnBatch(cfgs[o], b)
    requires hops < cfgs[o].requestTtl && m == QueryOf(cfgs[o], b).(ttl := cfgs[o].requestTtl - hops)
    ensures CarriesBatch(cfgs, m, hops, o, b)
  {
    Uint64RoundTrip(b.createdMs);
    assert m.value == NatToString(b.createdMs);
    HexRoundTrip(Aggregator.FilterOf(cfgs[o].batching, b.keys));
    hide FromHex, ToHex, ParseUint64, Aggregator.FilterOf, NatToString, Aggregator.MakeBatchId;
  }

  /** Every Query-BF in flight, however often it was forwarded, carries a batch its origin flushed. */
  lemma QueryInFlight(cfgs: seq<Config>, events: seq<Event>, p: Packet) returns (j: nat, o: nat, b: Aggregator.Batch)
    requires ValidNetwork(cfgs) && CleanNames(cfgs) && AllFit(cfgs, events, {QueryBloom})
    requires p in Run(cfgs, events).packets && p.msg.kind == QueryBloom
    ensures BatchAt(cfgs, events, j, o, b) && o < |cfgs| && CarriesBatch(cfgs, p.msg, p.hops, o, b)
    ensures Arrives(p.msg) == Some(p.msg)
  {
    hide *;
    assert Data !in {QueryBloom};
    NamesSuffice(cfgs, {QueryBloom});
    ReachableGood(cfgs, events, {QueryBloom});
    PacketIsVouched(cfgs, events, p);
    j, o, b := QuerySource(cfgs, events, p.msg, p.hops);
    BatchRoundTrip(cfgs, o, b, p.msg, p.hops);
  }

  lemma {:induction false} PacketIsVouched(cfgs: seq<Config>, events: seq<Event>, p: Packet)
    requires Good(cfgs, events, {QueryBloom}, Run(cfgs, events)) && AllFit(cfgs, events, {QueryBloom})
             && p in Run(cfgs, events).packets
    requires p.msg.kind == QueryBloom
    ensures Vouched(cfgs, events, {QueryBloom}, p.src, p.msg, p.hops) && Linked(cfgs, p.src, p.dst)
            && Arrives(p.msg) == Some(p.msg)
  {
    hide Run, Vouched, Linked, GoodNode;
    assert events[..|events|] == events;
    assert Fits(Run(cfgs, events), {QueryBloom});
    var sys := Run(cfgs, events);
    var i :| 0 <= i < |sys.packets| && sys.packets[i] == p;
    assert GoodPacket(cfgs, events, {QueryBloom}, p);
    VouchedIsClean(cfgs, events, p);
    ArrivesExactly(p.msg);
  }

  lemma VouchedIsClean(cfgs: seq<Config>, events: seq<Event>, p: Packet)
    requires Vouched(cfgs, events, {QueryBloom}, p.src, p.msg, p.hops) && p.msg.kind == QueryBloom
    ensures Clean(p.msg)
  {}

  lemma QuerySource(cfgs: seq<Config>, events: seq<Event>, m: Message, hops: nat)
    returns (j: nat, o: nat, b: Aggregator.Batch)
    requires m.kind == QueryBloom && exists n :: Vouched(cfgs, events, {QueryBloom}, n, m, hops)
    ensures BatchAt(cfgs, events, j, o, b) && o < |cfgs| && OwnBatch(cfgs[o], b)
    ensures hops < cfgs[o].requestTtl && m == QueryOf(cfgs[o], b).(ttl := cfgs[o].requestTtl - hops)
  {
    hide QueryOf, OwnBatch;
    j, o, b :| IsQuery(cfgs, events, m, hops, j, o, b);
  }

  // ---------- answers ----------

  /** A direct DATA for the key, back to where the query came from, under the query's origin. */
  predicate IsAnswer(c: Config, item: Item, origin: string, from: nat, key: string, value: string) {
    && item.Direct? && item.addr == from && item.onSuccess == Some(Served(key, origin))
    && item.msg == Message(Data, item.msg.requestId, origin, c.requestTtl, key, value) && item.msg.requestId != ""
  }

  lemma {:induction false} ReplyExists(c: Config, core: Core, f: Filter, origin: string, from: nat, keys: seq<string>,
                                       env: Env, key: string)
    requires key in keys && Answers(core, f, key, env)
    ensures exists item ::
              && item in Replies(c, core, f, origin, from, keys, env)
              && IsAnswer(c, item, origin, from, key, core.redis[key])
  {
    hide Contains;
    var init, last := keys[..|keys| - 1], keys[|keys| - 1];
    var before, replies := Replies(c, core, f, origin, from, init, env), Replies(c, core, f, origin, from, keys, env);
    if last == key {
      var id := MakeRequestId(c.nodeId, MillisAt(env, |before|), Advance(core.counter, |before|));
      assert id != "";
      assert replies[|before|].msg.requestId == id;
      assert replies[|before|] in replies && IsAnswer(c, replies[|before|], origin, from, key, core.redis[key]);
    } else {
      ReplyExists(c, core, f, origin, from, init, env, key);
      var item :| item in before && IsAnswer(c, item, origin, from, key, core.redis[key]);
      assert item in replies;
    }
  }

  /** A query is answered for exactly the snapshot's keys that test positive and are read from Redis. */
  lemma {:induction false} AnsweredExactly(c: Config, core: Core, f: Filter, origin: string, from: nat, env: Env,
                                           key: string)
    requires Enumerates(env.keyOrder, core.localKeys)
    ensures (exists item :: item in Replies(c, core, f, origin, from, env.keyOrder, env) && item.msg.key == key)
        <==> key in core.localKeys && Answers(core, f, key, env)
  {
    hide Answers;
    var replies := Replies(c, core, f, origin, from, env.keyOrder, env);
    if exists item :: item in replies && item.msg.key == key {
      var item :| item in replies && item.msg.key == key;
      RepliesAre(c, core, f, origin, from, env.keyOrder, env, item);
      assert key in SetOf(env.keyOrder);
    }
    if key in core.localKeys && Answers(core, f, key, env) {
      assert key in SetOf(env.keyOrder);
      ReplyExists(c, core, f, origin, from, env.keyOrder, env, key);
    }
  }

  lemma {:induction false} ReplyIds(c: Config, core: Core, f: Filter, origin: string, from: nat, keys: seq<string>,
                                    env: Env, i: nat)
    requires i < |Replies(c, core, f, origin, from, keys, env)|
    ensures Replies(c, core, f, origin, from, keys, env)[i].msg.requestId
            == MakeRequestId(c.nodeId, MillisAt(env, i), Advance(core.counter, i))
  {
    hide Answers, MakeRequestId;
    var init := keys[..|keys| - 1];
    if i < |Replies(c, core, f, origin, from, init, env)| {
      ReplyIds(c, core, f, origin, from, init, env, i);
    }
  }

  /** No two answers to one query share a request id, unless the counter wrapped all the way round between them. */
  lemma {:induction false} ReplyIdsDistinct(c: Config, core: Core, f: Filter, origin: string, from: nat,
                                            keys: seq<string>, env: Env, i: nat, j: nat)
    requires i < j < |Replies(c, core, f, origin, from, keys, env)| && j - i < TWO_64
    ensures var r := Replies(c, core, f, origin, from, keys, env); r[i].msg.requestId != r[j].msg.requestId
  {
    hide Replies, MakeRequestId;
    ReplyIds(c, core, f, origin, from, keys, env, i);
    ReplyIds(c, core, f, origin, from, keys, env, j);
    if MakeRequestId(c.nodeId, MillisAt(env, i), Advance(core.counter, i))
        == MakeRequestId(c.nodeId, MillisAt(env, j), Advance(core.counter, j)) {
      RequestIdsUnique(c.nodeId, MillisAt(env, i), Advance(core.counter, i), c.nodeId, MillisAt(env, j),
                       Advance(core.counter, j));
    }
  }

  lemma PrintedIsNotEmpty(m: Message)
    requires ParseUint64(m.value).Some?
    ensures m.value != ""
  {}

  /** A query that carries a batch passes every check at a node with the same parameters, unless it is too old. */
  lemma BatchAccepted(cfgs: seq<Config>, n: nat, m: Message, hops: nat, o: nat, b: Aggregator.Batch, env: Env)
    requires ValidNetwork(cfgs) && n < |cfgs| && CarriesBatch(cfgs, m, hops, o, b)
    requires SameQueryParams(cfgs[n], cfgs[o]) && Unexpired(cfgs[n], b, env)
    ensures AcceptedQuery(cfgs[n], m, env) == Some(Aggregator.FilterOf(cfgs[o].batching, b.keys))
  {
    hide ParseUint64, Aggregator.FilterOf;
    assert ValidConfig(cfgs[n]) && ValidConfig(cfgs[o]);
    PrintedIsNotEmpty(m);
    assert FromHex(cfgs[n].batching.bitCount, cfgs[n].batching.hashCount, m.key)
           == Some(Aggregator.FilterOf(cfgs[o].batching, b.keys));
    assert m.key != "";
    hide FromHex;
  }

  lemma {:induction false} RepliesProduced(c: Config, s: NodeState, m: Message, from: nat, hops: nat, env: Env,
                                           txs: seq<Transmission>, item: Item)
    requires Enabled(s, Receive(m, from, hops, env, txs)) && m.kind == QueryBloom && AcceptedQuery(c, m, env).Some?
    requires item in Replies(c, s.core, AcceptedQuery(c, m, env).value, m.origin, from, env.keyOrder, env)
    ensures item in Produced(c, s, Receive(m, from, hops, env, txs))
  {
    hide Replies, AcceptedQuery, LimiterCall, QueryLimiter.After, QueryLimiter.Allows;
  }

  ghost predicate Answered(c: Config, items: seq<Item>, origin: string, from: nat, key: string, value: string) {
    exists item :: item in items && IsAnswer(c, item, origin, from, key, value)
  }

  lemma AnswerProduced(c: Config, s: NodeState, m: Message, from: nat, hops: nat, env: Env, txs: seq<Transmission>,
                       key: string)
    requires Enabled(s, Receive(m, from, hops, env, txs)) && m.kind == QueryBloom && AcceptedQuery(c, m, env).Some?
    requires key in s.core.localKeys && Answers(s.core, AcceptedQuery(c, m, env).value, key, env)
    ensures Answered(c, Produced(c, s, Receive(m, from, hops, env, txs)), m.origin, from, key, s.core.redis[key])
  {
    hide Replies, IsAnswer, AcceptedQuery, Contains, Produced;
    var f := AcceptedQuery(c, m, env).value;
    assert key in SetOf(env.keyOrder);
    ReplyExists(c, s.core, f, m.origin, from, env.keyOrder, env, key);
    var item :| item in Replies(c, s.core, f, m.origin, from, env.keyOrder, env)
        && IsAnswer(c, item, m.origin, from, key, s.core.redis[key]);
    hide Enabled;
    RepliesProduced(c, s, m, from, hops, env, txs, item);
  }

  /** The node can be asked for the key: it has it both in its local keys and readable in Redis. */
  predicate CanServe(core: Core, key: string, env: Env) {
    key in core.localKeys && key in core.redis && key !in env.getFails
  }

  lemma BatchedKeyAnswered(cfgs: seq<Config>, n: nat, s: NodeState, p: Packet, o: nat, b: Aggregator.Batch, env: Env,
                           txs: seq<Transmission>, key: string)
    requires ValidNetwork(cfgs) && n < |cfgs| && CarriesBatch(cfgs, p.msg, p.hops, o, b)
    requires SameQueryParams(cfgs[n], cfgs[o]) && Unexpired(cfgs[n], b, env)
    requires Enabled(s, Receive(p.msg, p.src, p.hops, env, txs)) && key in b.keys && CanServe(s.core, key, env)
    ensures Answered(cfgs[n], Produced(cfgs[n], s, Receive(p.msg, p.src, p.hops, env, txs)), cfgs[o].nodeId, p.src, key,
                     s.core.redis[key])
  {
    hide Produced, Answered, Enabled, AcceptedQuery;
    BatchAccepted(cfgs, n, p.msg, p.hops, o, b, env);
    assert ValidConfig(cfgs[o]);
    Aggregator.HeldKeysTestPositive(cfgs[o].batching, b.keys, key);
    hide Contains, Aggregator.FilterOf;
    AnswerProduced(cfgs[n], s, p.msg, p.src, p.hops, env, txs, key);
  }

  /**
   * End to end: when a Query-BF in flight is delivered unexpired to a node with its origin's filter parameters,
   * that node issues, towards the sender, a DATA for every batched key it can serve.
   */
  lemma QueryAnswered(cfgs: seq<Config>, events: seq<Event>, p: Packet, env: Env, txs: seq<Transmission>, key: string)
    returns (j: nat, o: nat, b: Aggregator.Batch)
    requires ValidNetwork(cfgs) && CleanNames(cfgs) && AllFit(cfgs, events, {QueryBloom})
    requires p in Run(cfgs, events).packets && p.msg.kind == QueryBloom && p.dst < |cfgs|
    requires Enumerates(env.keyOrder, Run(cfgs, events).nodes[p.dst].core.localKeys)
    ensures BatchAt(cfgs, events, j, o, b) && o < |cfgs| && CarriesBatch(cfgs, p.msg, p.hops, o, b)
    ensures ReceiveEvent(p, env, txs) == Some(Receive(p.msg, p.src, p.hops, env, txs))
    ensures Enabled(Run(cfgs, events).nodes[p.dst], Receive(p.msg, p.src, p.hops, env, txs))
    ensures var s := Run(cfgs, events).nodes[p.dst];
            SameQueryParams(cfgs[p.dst], cfgs[o]) && Unexpired(cfgs[p.dst], b, env)
            && key in b.keys && CanServe(s.core, key, env) ==>
              Answered(cfgs[p.dst], Produced(cfgs[p.dst], s, Receive(p.msg, p.src, p.hops, env, txs)),
                       cfgs[o].nodeId, p.src, key, s.core.redis[key])
  {
    hide *;
    j, o, b := QueryInFlight(cfgs, events, p);
    DeliveryEnabled(cfgs, events, p, env, txs);
    var s := Run(cfgs, events).nodes[p.dst];
    if SameQueryParams(cfgs[p.dst], cfgs[o]) && Unexpired(cfgs[p.dst], b, env)
       && key in b.keys && CanServe(s.core, key, env) {
      BatchedKeyAnswered(cfgs, p.dst, s, p, o, b, env, txs, key);
    }
  }

  lemma {:induction false} DeliveryEnabled(cfgs: seq<Config>, events: seq<Event>, p: Packet, env: Env,
                                           txs: seq<Transmission>)
    requires ValidNetwork(cfgs) && p.dst < |cfgs| && Arrives(p.msg) == Some(p.msg)
    requires Enumerates(env.keyOrder, Run(cfgs, events).nodes[p.dst].core.localKeys)
    ensures ReceiveEvent(p, env, txs) == Some(Receive(p.msg, p.src, p.hops, env, txs))
    ensures Enabled(Run(cfgs, events).nodes[p.dst], Receive(p.msg, p.src, p.hops, env, txs))
  {
    hide Run, Arrives, Own, Enumerates;
    ReachableSane(cfgs, events);
    assert Coherent(cfgs[p.dst], Run(cfgs, events).nodes[p.dst].core);
  }

  /**
   * An answer that reaches the batch's origin is stored there unless Redis refuses it, and its fallback is cancelled.
   */
  lemma AnswerIsStored(cfgs: seq<Config>, n: nat, o: nat, item: Item, from: nat, key: string, value: string, core: Core,
                       env: Env)
    requires ValidNetwork(cfgs) && n < |cfgs| && o < |cfgs| && key != "" && WellSized(core.content.local)
    requires IsAnswer(cfgs[n], item, cfgs[o].nodeId, from, key, value) && !env.setOutcome.Refused?
    ensures var after := Handle(cfgs[o], core, item.msg, n, item.hops, env).core;
            && key in after.redis && after.redis[key] == value
            && (env.setOutcome.Stored? ==>
                  key in after.localKeys && FallbackTables.MakeKey(cfgs[o].nodeId, key) !in after.fallback)
  {
    assert ValidConfig(cfgs[n]) && ValidConfig(cfgs[o]);
    hide Bloom.Add;
  }
}
