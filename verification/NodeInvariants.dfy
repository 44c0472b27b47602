/** Invariants of one node's state that every step of its threads keeps. */
module NodeInvariants {
  import opened Collections
  import opened Text
  import opened Wire
  import opened Bloom
  import opened Sends
  import opened NodeModel
  import opened Systems
  import opened Steps
  import Aggregator
  import ContentTables
  import FallbackTables
  import QueryLimiter
  import QueryTables

  // ---------- what the threads hold is the node's own ----------

  predicate WallTime(ms: int) {
    0 < ms < TWO_64
  }

  predicate OwnBatch(c: Config, b: Aggregator.Batch) {
    b.origin == c.nodeId && WallTime(b.createdMs)
  }

  /** The aggregator holds batches of this node only. */
  ghost predicate OwnAgg(c: Config, a: Aggregator.State) {
    && (forall o :: o in a.buffers ==> o == c.nodeId && WallTime(a.buffers[o].createdMs))
    && (forall b :: b in a.pending ==> OwnBatch(c, b))
  }

  ghost predicate OwnFallback(c: Config, m: map<string, FallbackTables.Entry>) {
    FallbackTables.Filed(m) && forall k :: k in m ==> m[k].origin == c.nodeId
  }

  /** The scheduler's request is for the key at the head of its list, under this node's name. */
  ghost predicate OwnRequest(c: Config, s: NodeState, req: Message) {
    && s.requestsLeft != [] && req.key == s.requestsLeft[0]
    && req.kind == Request && req.origin == c.nodeId && req.ttl == c.requestTtl && req.value == ""
    && ('|' !in c.nodeId ==> '|' !in req.requestId) && |req.requestId| <= |c.nodeId| + 42
  }

  ghost predicate Own(c: Config, s: NodeState) {
    && (!s.sched.NextKey? ==> OwnRequest(c, s, s.sched.req))
    && OwnAgg(c, s.core.agg)
    && OwnFallback(c, s.core.fallback)
    && (forall b :: b in s.batches ==> OwnBatch(c, b))
    && (forall p :: p in s.due ==> p.origin == c.nodeId)
    && (forall kv :: kv in s.seedsLeft ==> kv in c.seeds)
    && (forall k :: k in s.requestsLeft ==> k in c.requests)
  }

  lemma {:induction false} DigitsHaveNoBar(n: nat)
    ensures '|' !in NatToString(n)
  {
    var s := NatToString(n);
    assert forall i :: 0 <= i < |s| ==> IsDigit(s[i]);
  }

  lemma RequestIdIsClean(c: Config, millis: uint64, counter: uint64)
    requires '|' !in c.nodeId
    ensures '|' !in MakeRequestId(c.nodeId, millis, counter)
  {
    DigitsHaveNoBar(millis);
    DigitsHaveNoBar(counter);
  }

  /** Two 64-bit numbers and two dashes after the name. */
  lemma RequestIdIsShort(c: Config, millis: uint64, counter: uint64)
    ensures |MakeRequestId(c.nodeId, millis, counter)| <= |c.nodeId| + 42
  {
    Uint64Digits(millis);
    Uint64Digits(counter);
    hide NatToString;
  }

  lemma AddKeyOwn(c: Config, a: Aggregator.State, key: string, now: int, wall: Aggregator.WallClock)
    requires OwnAgg(c, a) && PositiveWall(wall)
    ensures OwnAgg(c, Aggregator.AddKey(c.batching, a, c.nodeId, key, now, wall))
  {
    hide Aggregator.Splits, Aggregator.Stale;
  }

  lemma FlushOwn(c: Config, a: Aggregator.State, now: int, order: seq<string>, resets: map<string, int>)
    requires OwnAgg(c, a) && forall o :: o in resets ==> WallTime(resets[o])
    ensures OwnAgg(c, Aggregator.AfterFlush(c.batching, a, now, resets))
    ensures forall b :: b in Aggregator.Flushed(c.batching, a, now, order) ==> OwnBatch(c, b)
  {
    var out := Aggregator.Flushed(c.batching, a, now, order);
    forall b | b in out ensures OwnBatch(c, b) {
      var i :| 0 <= i < |out| && out[i] == b;
      if i >= |a.pending| {
        Aggregator.DueBatchesFrom(c.batching, a.buffers, now, order, i - |a.pending|);
      } else {
        assert b in a.pending;
      }
    }
  }

  lemma {:induction false} TakeOwn(c: Config, m: map<string, FallbackTables.Entry>, now: int, order: seq<string>)
    requires OwnFallback(c, m)
    ensures OwnFallback(c, FallbackTables.AfterTake(m, now, c.fallbackWindow))
    ensures forall p :: p in FallbackTables.Due(m, now, c.fallbackWindow, order) ==> p.origin == c.nodeId
  {
    forall p | p in FallbackTables.Due(m, now, c.fallbackWindow, order) ensures p.origin == c.nodeId {
      FallbackTables.TakeOnlyDue(m, now, c.fallbackWindow, order, p);
    }
  }

  lemma HandleOwn(c: Config, core: Core, m: Message, from: nat, hops: nat, env: Env)
    requires WellSized(core.content.local) && OwnFallback(c, core.fallback)
    ensures var after := Handle(c, core, m, from, hops, env).core;
            after.agg == core.agg && OwnFallback(c, after.fallback)
  {
    hide QueryAfter, DecideRequest, Bloom.Add, Bloom.FromHex, DecideData, AcceptedQuery, Replies, LimiterCall;
    hide QueryLimiter.After, QueryLimiter.Allows;
  }

  lemma ActOwn(c: Config, s: NodeState, e: LocalEvent)
    requires Enabled(s, e) && !e.WorkerTake? && !e.WorkerFinish? && Own(c, s)
    ensures Own(c, Act(c, s, e).state)
  {
    hide Handle, Bloom.Add, QueryTables.Record, ContentTables.Select, ContentTables.Live, Aggregator.AddKey;
    hide FallbackTables.AfterTake, FallbackTables.Due, Aggregator.AfterFlush, Aggregator.Flushed, QueryOf, SummaryOf;
    hide OwnAgg, MakeRequestId, Enumerates;
    match e {
      case LookUp(_, millis) =>
        RequestIdIsShort(c, millis, s.core.counter);
        if '|' !in c.nodeId { RequestIdIsClean(c, millis, s.core.counter); }
      case Aggregate(now, wall) => AddKeyOwn(c, s.core.agg, s.sched.req.key, now, wall);
      case AddDue(now, wall) => AddKeyOwn(c, s.core.agg, s.due[0].key, now, wall);
      case TakeDue(now, order) => TakeOwn(c, s.core.fallback, now, order);
      case FlushDue(now, order, resets) => FlushOwn(c, s.core.agg, now, order, resets);
      case Receive(m, src, hops, env, _) => HandleOwn(c, s.core, m, src, hops, env);
      case _ =>
    }
  }

  // ---------- local keys, Redis and the content filter ----------

  /** Every local key is in Redis and positive in the local filter. */
  ghost predicate Coherent(c: Config, core: Core) {
    && WellSized(core.content.local)
    && core.content.local.bitCount == c.contentBits && core.content.local.hashCount == c.contentHashes
    && core.localKeys <= core.redis.Keys
    && forall k :: k in core.localKeys ==> Contains(core.content.local, k)
  }

  lemma RecordLocalCoherent(c: Config, core: Core, key: string)
    requires ValidConfig(c) && Coherent(c, core) && key in core.redis
    ensures Coherent(c, RecordLocal(core, key))
    ensures Bits(core.content.local) <= Bits(RecordLocal(core, key).content.local)
  {
    var before, after := core.content.local, RecordLocal(core, key).content.local;
    AddBits(before, key);
    forall k | k in core.localKeys ensures Contains(after, k) {
      ContainsMonotone(before, after, k);
    }
  }

  lemma RequestCoherent(c: Config, core: Core, m: Message, from: nat, hops: nat, env: Env)
    requires ValidConfig(c) && Coherent(c, core)
    ensures Coherent(c, HandleRequest(c, core, m, from, hops, env).core)
  {
    if DecideRequest(c, core, m, env).ServeLocal? {
      assert m.key in core.redis;
      RecordLocalCoherent(c, core.(query := QueryAfter(c, core, m, env)), m.key);
    }
    hide QueryAfter, DecideRequest, RecordLocal, Contains;
  }

  lemma DataCoherent(c: Config, core: Core, m: Message, env: Env)
    requires ValidConfig(c) && Coherent(c, core)
    ensures Coherent(c, HandleData(c, core, m, env).core)
  {
    var written := core.(redis := core.redis[m.key := m.value]);
    var cancelled := written.(fallback := FallbackTables.Cancel(written.fallback, m.key, m.origin));
    hide Contains, FallbackTables.Cancel;
    assert Coherent(c, written) && Coherent(c, cancelled);
    RecordLocalCoherent(c, cancelled, m.key);
    hide DecideData, RecordLocal;
  }

  lemma OtherCoherent(c: Config, core: Core, m: Message, from: nat, hops: nat, env: Env)
    requires Coherent(c, core)
    ensures Coherent(c, HandleContentBloom(c, core, m, from, env).core)
    ensures Coherent(c, HandleQueryBloom(c, core, m, from, hops, env).core)
  {
    hide AcceptedQuery, Replies, LimiterCall, QueryLimiter.After, QueryLimiter.Allows, Contains, FromHex;
  }

  lemma ActCoherent(c: Config, s: NodeState, e: LocalEvent)
    requires ValidConfig(c) && Enabled(s, e) && !e.WorkerTake? && !e.WorkerFinish? && Coherent(c, s.core)
    ensures Coherent(c, Act(c, s, e).state.core)
  {
    hide Contains;
    hide HandleRequest, HandleData, HandleContentBloom, HandleQueryBloom, RecordLocal, QueryTables.Record;
    hide ContentTables.Select, ContentTables.Live, Aggregator.AddKey, FallbackTables.AfterTake, FallbackTables.Due;
    hide Aggregator.AfterFlush, Aggregator.Flushed, QueryOf, SummaryOf, RequestFor, Enumerates;
    match e {
      case Seed(_) =>
        var kv := s.seedsLeft[0];
        RecordLocalCoherent(c, s.core.(redis := s.core.redis[kv.key := kv.value]), kv.key);
      case LookUp(fails, _) =>
        if Get(s.core, s.requestsLeft[0], fails).Some? {
          RecordLocalCoherent(c, s.core.(counter := Advance(s.core.counter, 1)), s.requestsLeft[0]);
        }
      case Receive(m, src, hops, env, _) =>
        RequestCoherent(c, s.core, m, src, hops, env);
        DataCoherent(c, s.core, m, env);
        OtherCoherent(c, s.core, m, src, hops, env);
      case _ =>
    }
  }

  // ---------- values come from seeds ----------

  predicate SeedValue(cfgs: seq<Config>, key: string, value: string) {
    exists n :: 0 <= n < |cfgs| && KeyValue(key, value) in cfgs[n].seeds
  }

  ghost predicate FromSeeds(cfgs: seq<Config>, redis: map<string, string>) {
    forall k :: k in redis ==> SeedValue(cfgs, k, redis[k])
  }

  /** What a received message must bring for the node's values to stay seeded ones. */
  predicate SeededData(cfgs: seq<Config>, m: Message) {
    m.kind == Data ==> SeedValue(cfgs, m.key, m.value)
  }

  lemma HandleRedis(c: Config, core: Core, m: Message, from: nat, hops: nat, env: Env)
    requires WellSized(core.content.local)
    ensures var after := Handle(c, core, m, from, hops, env).core.redis;
            after == core.redis || (m.kind == Data && m.origin == c.nodeId && m.key != ""
                                    && after == core.redis[m.key := m.value])
  {
    hide QueryAfter, DecideRequest, Bloom.Add, Bloom.FromHex, AcceptedQuery, Replies, LimiterCall;
    hide QueryLimiter.After, QueryLimiter.Allows;
  }

  /** Redis only grows, by a seed of this node or by received DATA that names this node as its origin. */
  lemma ActRedis(c: Config, s: NodeState, e: LocalEvent)
    requires Enabled(s, e) && !e.WorkerTake? && !e.WorkerFinish?
    ensures var before, after := s.core.redis, Act(c, s, e).state.core.redis;
      || after == before
      || (e.Seed? && after == before[s.seedsLeft[0].key := s.seedsLeft[0].value])
      || (e.Receive? && e.msg.kind == Data && e.msg.origin == c.nodeId && after == before[e.msg.key := e.msg.value])
  {
    hide Handle, Bloom.Add, QueryTables.Record, ContentTables.Select, ContentTables.Live, Aggregator.AddKey;
    hide FallbackTables.AfterTake, FallbackTables.Due, Aggregator.AfterFlush, Aggregator.Flushed, QueryOf, SummaryOf,
         RequestFor, Enumerates;
    if e.Receive? {
      HandleRedis(c, s.core, e.msg, e.src, e.hops, e.env);
    }
  }

  lemma ActFromSeeds(cfgs: seq<Config>, n: nat, s: NodeState, e: LocalEvent)
    requires n < |cfgs| && Enabled(s, e) && !e.WorkerTake? && !e.WorkerFinish?
    requires Own(cfgs[n], s) && FromSeeds(cfgs, s.core.redis) && (e.Receive? ==> SeededData(cfgs, e.msg))
    ensures FromSeeds(cfgs, Act(cfgs[n], s, e).state.core.redis)
  {
    ActRedis(cfgs[n], s, e);
    if e.Seed? {
      var kv := s.seedsLeft[0];
      assert kv in s.seedsLeft && kv in cfgs[n].seeds && kv == KeyValue(kv.key, kv.value);
      assert SeedValue(cfgs, kv.key, kv.value);
    }
    hide Act, Enabled, SeedValue, Own;
  }

  // ---------- configurations without the separator ----------

  predicate CleanNames(cfgs: seq<Config>) {
    forall n :: 0 <= n < |cfgs| ==> '|' !in cfgs[n].nodeId
  }

  predicate CleanSeedKeys(cfgs: seq<Config>) {
    forall n, kv :: 0 <= n < |cfgs| && kv in cfgs[n].seeds ==> '|' !in kv.key
  }

  predicate CleanSeedValues(cfgs: seq<Config>) {
    forall n, kv :: 0 <= n < |cfgs| && kv in cfgs[n].seeds ==> '|' !in kv.value
  }

  predicate CleanRequests(cfgs: seq<Config>) {
    forall n, k :: 0 <= n < |cfgs| && k in cfgs[n].requests ==> '|' !in k
  }

  // ---------- what cut datagrams can make of the seeds ----------

  /** The seed with its value cut, or with its key cut and the value gone. */
  predicate IsCut(kv: KeyValue, key: string, value: string) {
    key <= kv.key && value <= kv.value && (key != kv.key ==> value == "")
  }

  predicate CutOfSeed(cfgs: seq<Config>, key: string, value: string) {
    exists n, kv :: 0 <= n < |cfgs| && kv in cfgs[n].seeds && IsCut(kv, key, value)
  }

  ghost predicate FromCutSeeds(cfgs: seq<Config>, redis: map<string, string>) {
    forall k :: k in redis ==> CutOfSeed(cfgs, k, redis[k])
  }

  lemma SeedIsCut(cfgs: seq<Config>, n: nat, kv: KeyValue)
    requires n < |cfgs| && kv in cfgs[n].seeds
    ensures CutOfSeed(cfgs, kv.key, kv.value)
  {
    assert IsCut(kv, kv.key, kv.value);
  }

  /** A cut of a cut is a cut. */
  lemma CutFurther(cfgs: seq<Config>, key: string, value: string, k: string, v: string)
    requires CutOfSeed(cfgs, key, value) && k <= key && v <= value && (k != key ==> v == "")
    ensures CutOfSeed(cfgs, k, v)
  {
    var n, kv :| 0 <= n < |cfgs| && kv in cfgs[n].seeds && IsCut(kv, key, value);
    assert IsCut(kv, k, v);
  }

  lemma CutIsClean(cfgs: seq<Config>, key: string, value: string)
    requires CleanSeedKeys(cfgs) && CutOfSeed(cfgs, key, value)
    ensures '|' !in key && (CleanSeedValues(cfgs) ==> '|' !in value)
  {
    var n, kv :| 0 <= n < |cfgs| && kv in cfgs[n].seeds && IsCut(kv, key, value);
    assert '|' !in kv.key;
    assert forall i :: 0 <= i < |key| ==> key[i] == kv.key[i];
    assert forall i :: 0 <= i < |value| ==> value[i] == kv.value[i];
  }

  lemma ActFromCutSeeds(cfgs: seq<Config>, n: nat, s: NodeState, e: LocalEvent)
    requires n < |cfgs| && Enabled(s, e) && !e.WorkerTake? && !e.WorkerFinish? && Own(cfgs[n], s)
    requires FromCutSeeds(cfgs, s.core.redis)
    requires e.Receive? && e.msg.kind == Data ==> CutOfSeed(cfgs, e.msg.key, e.msg.value)
    ensures FromCutSeeds(cfgs, Act(cfgs[n], s, e).state.core.redis)
  {
    hide CutOfSeed, OwnRequest, OwnAgg, OwnFallback;
    ActRedis(cfgs[n], s, e);
    if e.Seed? {
      assert s.seedsLeft[0] in s.seedsLeft;
      SeedIsCut(cfgs, n, s.seedsLeft[0]);
    }
    hide Act, Enabled, Own;
  }

  // ---------- endpoints are linked ----------

  ghost predicate LinkedPeers(cfgs: seq<Config>, n: nat, s: NodeState) {
    && (forall a :: a in s.core.content.neighbors ==> Linked(cfgs, a, n))
    && (s.sched.Chosen? ==> Linked(cfgs, n, s.sched.neighbor))
  }

  lemma HandleNeighbors(c: Config, core: Core, m: Message, from: nat, hops: nat, env: Env)
    requires WellSized(core.content.local)
    ensures var before, after := core.content.neighbors, Handle(c, core, m, from, hops, env).core.content.neighbors;
      || after == before
      || (m.kind == ContentBloom && FromHex(c.contentBits, c.contentHashes, m.key).Some?
          && after == before[from := ContentTables.Neighbor(FromHex(c.contentBits, c.contentHashes, m.key).value,
                                                            env.now)])
  {
    hide QueryAfter, DecideRequest, Bloom.Add, Bloom.FromHex, AcceptedQuery, Replies, LimiterCall;
    hide QueryLimiter.After, QueryLimiter.Allows, DecideData;
  }

  lemma ActLinked(cfgs: seq<Config>, n: nat, s: NodeState, e: LocalEvent)
    requires n < |cfgs| && Enabled(s, e) && !e.WorkerTake? && !e.WorkerFinish? && LinkedPeers(cfgs, n, s)
    requires e.Receive? ==> Linked(cfgs, e.src, n)
    ensures LinkedPeers(cfgs, n, Act(cfgs[n], s, e).state)
  {
    hide Handle, Bloom.Add, QueryTables.Record, ContentTables.Select, Aggregator.AddKey, Contains;
    hide FallbackTables.AfterTake, FallbackTables.Due, Aggregator.AfterFlush, Aggregator.Flushed, QueryOf, SummaryOf,
         RequestFor;
    match e {
      case Receive(m, src, hops, env, _) => HandleNeighbors(cfgs[n], s.core, m, src, hops, env);
      case Choose(now, order) =>
        ContentTables.SelectExact(s.core.content, s.sched.req.key, now, cfgs[n].contentTtl, order);
      case _ =>
    }
  }
}
