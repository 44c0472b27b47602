/**
 * The node object (node/node.cpp) with its pipelines, tables and forward queue: each method is what one thread does
 * between two points where the others can run, and takes the state exactly where the step system says.
 */
module Nodes {
  import opened Collections
  import opened Text
  import opened Wire
  import opened Bloom
  import opened Sends
  import opened NodeModel
  import opened Systems
  import opened Steps
  import opened Unrolled
  import Aggregator
  import ContentTables
  import FallbackTables
  import ForwardQueues
  import QueryLimiter
  import QueryTables
  import SyncTables

  lemma {:induction false} ReachedStep(neighbors: seq<nat>, i: nat, reached: seq<bool>)
    requires i < |neighbors|
    ensures Reached(neighbors[..i + 1], reached)
            == Reached(neighbors[..i], reached) + (if i < |reached| && reached[i] then [neighbors[i]] else [])
  {
    assert neighbors[..i + 1][..i] == neighbors[..i];
  }

  lemma QuietStep(c: Config, s: NodeState, e: LocalEvent)
    requires Enabled(s, e) && !e.WorkerTake? && !e.WorkerFinish? && Act(c, s, e).items == []
    ensures LocalStep(c, s, e) == Stepped(Act(c, s, e).state, [])
  {
    hide Act, Enabled;
  }

  lemma OneItemStep(c: Config, s: NodeState, e: LocalEvent, item: Item, tx: Transmission)
    requires Enabled(s, e) && !e.WorkerTake? && !e.WorkerFinish? && Act(c, s, e).items == [item] && TxsOf(e) == [tx]
    ensures var acted := Act(c, s, e).state;
            var sent := SendOne(c, acted.core, item, tx);
            LocalStep(c, s, e) == Stepped(acted.(core := sent.core), sent.out)
  {
    hide Act, Enabled, SendOne, SendAll;
    SendAllOne(c, Act(c, s, e).state.core, item, [tx]);
  }

  function HandOf(w: ForwardQueues.Thread): Option<Item> {
    if w.Sending? then Some(w.item) else None
  }

  function HandsOf(threads: seq<ForwardQueues.Thread>): seq<Option<Item>> {
    seq(|threads|, i requires 0 <= i < |threads| => HandOf(threads[i]))
  }

  class Node {
    const cfg: Config
    var redis: map<string, string>
    var localKeys: set<string>
    var requestCounter: uint64
    const queryTable: QueryTables.QueryTable
    const contentBloom: ContentTables.ContentBloomTable
    const fallback: FallbackTables.ContentBfFallbackTable
    const aggregator: Aggregator.QueryBloomAggregator
    const limiter: QueryLimiter.QueryBloomLimiter
    const syncTable: SyncTables.SyncTable
    const forwardQueue: ForwardQueues.ForwardQueue
    // What the threads hold between two table calls.
    var seedsLeft: seq<KeyValue>
    var requestsLeft: seq<string>
    var sched: Scheduler
    var due: seq<FallbackTables.Pending>
    var batches: seq<Aggregator.RealBatch>
    var snapshot: Option<Filter>
    ghost var batchKeys: seq<Aggregator.Batch>

    ghost function State(): Core
      reads this`redis, this`localKeys, this`requestCounter, queryTable, contentBloom, fallback, aggregator, limiter,
          syncTable, forwardQueue
    {
      Core(redis, localKeys, requestCounter, queryTable.State(), contentBloom.State(), fallback.entries,
           aggregator.contents, limiter.entries, syncTable.State(), forwardQueue.queue, forwardQueue.started)
    }

    /** The node as the step system sees it. */
    ghost function Value(): NodeState
      reads this, queryTable, contentBloom, fallback, aggregator, limiter, syncTable, forwardQueue
    {
      NodeState(State(), seedsLeft, requestsLeft, sched, due, batchKeys, snapshot, HandsOf(forwardQueue.threads))
    }

    ghost predicate Valid()
      reads this`batches, this`batchKeys, contentBloom, aggregator, syncTable, forwardQueue
    {
      && queryTable.ttl == cfg.queryTtl && contentBloom.ttl == cfg.contentTtl && contentBloom.Valid()
      && fallback.window == cfg.fallbackWindow && limiter.limits == cfg.limits
      && aggregator.params == cfg.batching && aggregator.Valid()
      && syncTable.capacity == cfg.syncCapacity && syncTable.Valid()
      && forwardQueue.enabled == cfg.asyncForward && forwardQueue.maxDepth == cfg.queueMax && forwardQueue.Valid()
      && forwardQueue.running && (forall w :: 0 <= w < |forwardQueue.threads| ==> !forwardQueue.threads[w].Returned?)
      && batches == Aggregator.ConcreteBatches(cfg.batching, batchKeys)
    }

    constructor (cfg: Config)
      ensures this.cfg == cfg && Valid() && Value() == InitialNode(cfg)
      ensures fresh(queryTable) && fresh(contentBloom) && fresh(fallback) && fresh(aggregator)
      ensures fresh(limiter) && fresh(syncTable) && fresh(forwardQueue)
    {
      hide Aggregator.QueryBloomAggregator.Valid, SyncTables.SyncTable.Valid;
      hide ForwardQueues.ForwardQueue.Valid, ContentTables.ContentBloomTable.Valid;
      this.cfg := cfg;
      redis, localKeys, requestCounter := map[], {}, 0;
      queryTable := new QueryTables.QueryTable(cfg.queryTtl);
      contentBloom := new ContentTables.ContentBloomTable(cfg.contentBits, cfg.contentHashes, cfg.contentTtl);
      fallback := new FallbackTables.ContentBfFallbackTable(cfg.fallbackWindow);
      aggregator := new Aggregator.QueryBloomAggregator(cfg.batching);
      limiter := new QueryLimiter.QueryBloomLimiter(cfg.limits);
      syncTable := new SyncTables.SyncTable(cfg.syncCapacity);
      forwardQueue := new ForwardQueues.ForwardQueue(cfg.asyncForward, cfg.queueMax, cfg.workers);
      seedsLeft, requestsLeft, sched, due := cfg.seeds, cfg.requests, NextKey, [];
      batches, batchKeys, snapshot := [], [], None;
      new;
      assert HandsOf(forwardQueue.threads) == seq(cfg.workers, _ => None);
      assert batches == Aggregator.ConcreteBatches(cfg.batching, []);
    }

    // ---------- the network and the forward queue ----------

    /** UdpNetwork: one datagram to the address, or one to each neighbour in order that can be sent to. */
    method Transmit(item: Item, tx: Transmission) returns (out: seq<Outgoing>)
      ensures out == Packets(cfg, item, tx)
    {
      out := [];
      if item.Direct? {
        if tx.sent {
          out := [Outgoing(item.addr, item.msg, item.hops)];
        }
        return;
      }
      ghost var reached: seq<nat> := [];
      for i := 0 to |cfg.neighbors|
        invariant reached == Reached(cfg.neighbors[..i], tx.reached) && |out| == |reached|
        invariant forall j :: 0 <= j < |out| ==> out[j] == Outgoing(reached[j], item.msg, item.hops)
      {
        ReachedStep(cfg.neighbors, i, tx.reached);
        if i < |tx.reached| && tx.reached[i] {
          out := out + [Outgoing(cfg.neighbors[i], item.msg, item.hops)];
          reached := reached + [cfg.neighbors[i]];
        }
      }
      assert cfg.neighbors[..|cfg.neighbors|] == cfg.neighbors;
    }

    /** send_direct and send_broadcast. */
    method Send(item: Item, tx: Transmission) returns (out: seq<Outgoing>)
      requires Valid()
      modifies syncTable, forwardQueue`queue, forwardQueue`offers, forwardQueue`accepted, forwardQueue`outcomes
      ensures Valid() && Sent(State(), out) == SendOne(cfg, old(State()), item, tx)
    {
      out := [];
      if !forwardQueue.enabled || !forwardQueue.started {
        out := Transmit(item, tx);
        if item.Direct? && tx.sent && item.onSuccess.Some? {
          var _ := syncTable.RecordDestination(item.onSuccess.value.key, item.onSuccess.value.origin);
        }
      } else {
        var _ := forwardQueue.Enqueue(item);
      }
    }

    // ---------- Redis, local keys, request ids ----------

    method RedisGet(key: string, fails: bool) returns (value: Option<string>)
      ensures value == Get(State(), key, fails)
    {
      value := if !fails && key in redis then Some(redis[key]) else None;
    }

    method RedisSet(key: string, value: string, outcome: SetOutcome) returns (ok: bool)
      modifies this`redis
      ensures ok == outcome.Stored? && redis == if outcome.Refused? then old(redis) else old(redis)[key := value]
    {
      if !outcome.Refused? {
        redis := redis[key := value];
      }
      ok := outcome.Stored?;
    }

    method RecordLocalKey(key: string)
      requires Valid()
      modifies this`localKeys, contentBloom`local
      ensures Valid() && State() == RecordLocal(old(State()), key)
    {
      localKeys := localKeys + {key};
      contentBloom.AddLocalKey(key);
    }

    method NextRequestId(millis: uint64) returns (id: string)
      requires Valid()
      modifies this`requestCounter
      ensures id == MakeRequestId(cfg.nodeId, millis, old(State()).counter)
      ensures Valid() && State() == old(State()).(counter := Advance(old(State()).counter, 1))
    {
      id := MakeRequestId(cfg.nodeId, millis, requestCounter);
      requestCounter := Advance(requestCounter, 1);
    }

    // ---------- REQ ----------

    method ValidateFields(m: Message) returns (drop: Option<RequestDecision>)
      ensures drop == if InvalidRequest(m) == "" then None else Some(DropInvalid(InvalidRequest(m)))
    {
      drop := None;
      if m.requestId == "" {
        drop := Some(DropInvalid("missing_request_id"));
      } else if m.origin == "" {
        drop := Some(DropInvalid("missing_origin"));
      } else if m.key == "" {
        drop := Some(DropInvalid("missing_key"));
      }
    }

    method DedupeRequest(m: Message, env: Env) returns (drop: Option<RequestDecision>)
      requires Valid()
      modifies queryTable
      ensures Valid() && State()
              == old(State()).(query := QueryTables.Record(old(State()).query, QueryCall(m, env), cfg.queryTtl))
      ensures drop == if QueryTables.IsNew(old(State()).query, QueryCall(m, env), cfg.queryTtl) then None
              else Some(DropDuplicate)
    {
      var isNew := queryTable.RecordIfNew(m.requestId, env.pruneNow, env.recordNow);
      drop := if isNew then None else Some(DropDuplicate);
    }

    method CheckCache(m: Message, env: Env) returns (serve: Option<RequestDecision>)
      ensures serve == match Get(State(), m.key, m.key in env.getFails)
                       case Some(value) => Some(ServeLocal(value))
                       case None => None
    {
      var value := RedisGet(m.key, m.key in env.getFails);
      serve := match value case Some(v) => Some(ServeLocal(v)) case None => None;
    }

    /** RequestPipeline::run: each stage may end it. */
    method RunRequestPipeline(m: Message, env: Env) returns (d: RequestDecision)
      requires Valid()
      modifies queryTable
      ensures Valid() && d == DecideRequest(cfg, old(State()), m, env)
      ensures State() == old(State()).(query := QueryAfter(cfg, old(State()), m, env))
    {
      hide QueryTables.Record, QueryTables.IsNew;
      var stage := ValidateFields(m);
      if stage.Some? {
        return stage.value;
      }
      if m.ttl <= 0 {
        return DropTtl;
      }
      stage := DedupeRequest(m, env);
      if stage.Some? {
        return stage.value;
      }
      stage := CheckCache(m, env);
      if stage.Some? {
        return stage.value;
      }
      return Forward(m.ttl - 1);
    }

    /** What a handler did is its effect, with the effect's items sent. */
    ghost predicate Did(effect: Effect, txs: seq<Transmission>, out: seq<Outgoing>)
      reads this, queryTable, contentBloom, fallback, aggregator, limiter, syncTable, forwardQueue
    {
      Sent(State(), out) == SendAll(cfg, effect.core, effect.items, txs)
    }

    method OnRequest(m: Message, from: nat, hops: nat, env: Env, txs: seq<Transmission>) returns (out: seq<Outgoing>)
      requires Valid()
      modifies this`localKeys, contentBloom`local, queryTable, syncTable
      modifies forwardQueue`queue, forwardQueue`offers, forwardQueue`accepted, forwardQueue`outcomes
      ensures Valid() && Did(HandleRequest(cfg, old(State()), m, from, hops, env), txs, out)
    {
      hide DecideRequest, QueryAfter, SendOne, SendAll, RecordLocal, Valid, State;
      var d := RunRequestPipeline(m, env);
      out := [];
      NothingSent(cfg, State(), txs);
      match d {
        case ServeLocal(value) =>
          var response := Message(Data, m.requestId, m.origin, cfg.requestTtl, m.key, value);
          RecordLocalKey(m.key);
          ghost var core := State();
          var item := Direct(response, 0, from, Some(Served(m.key, m.origin)));
          out := Send(item, TxAt(txs, 0));
          SendAllOne(cfg, core, item, txs);
        case Forward(ttl) =>
          ghost var core := State();
          var item := Broadcast(m.(ttl := ttl), hops + 1, Some(from));
          out := Send(item, TxAt(txs, 0));
          SendAllOne(cfg, core, item, txs);
        case _ =>
      }
    }

    // ---------- DATA ----------

    /** DataPipeline::run. */
    method RunDataPipeline(m: Message) returns (d: DataDecision)
      ensures d == DecideData(cfg, m)
      ensures d.StoreLocal?
              <==> (m.requestId != "" && m.origin != "" && m.key != "" && m.ttl > 0 && m.origin == cfg.nodeId)
      ensures d.DropBadData? <==> m.requestId == "" || m.origin == "" || m.key == "" || m.ttl <= 0
    {
      if m.requestId == "" {
        return DropBadData("missing_request_id");
      }
      if m.origin == "" {
        return DropBadData("missing_origin");
      }
      if m.key == "" {
        return DropBadData("missing_key");
      }
      if m.ttl <= 0 {
        return DropBadData("non_positive_ttl");
      }
      if m.origin != cfg.nodeId {
        return DropNotOrigin;
      }
      return StoreLocal;
    }

    method OnData(m: Message, env: Env)
      requires Valid()
      modifies this`redis, this`localKeys, contentBloom`local, fallback
      ensures Valid() && Effect(State(), []) == HandleData(cfg, old(State()), m, env)
    {
      var d := RunDataPipeline(m);
      hide DecideData, RecordLocal;
      if d.DropBadData? || d.DropNotOrigin? {
        return;
      }
      var ok := RedisSet(m.key, m.value, env.setOutcome);
      if !ok {
        return;
      }
      var _ := fallback.CancelKey(m.key, m.origin);
      RecordLocalKey(m.key);
    }

    // ---------- CBF ----------

    method OnContentBloom(m: Message, from: nat, env: Env)
      requires Valid()
      modifies contentBloom`neighbors
      ensures Valid() && Effect(State(), []) == HandleContentBloom(cfg, old(State()), m, from, env)
    {
      hide FromHex;
      if m.origin == "" || m.key == "" {
        return;
      }
      var filter := FromHex(cfg.contentBits, cfg.contentHashes, m.key);
      if filter.None? {
        return;
      }
      contentBloom.UpdateNeighbor(from, filter.value, env.now);
    }

    // ---------- QBF ----------

    lemma EmptyIsNoNumber()
      ensures ParseUint64("").None?
    {}

    lemma DecodedShape(bitCount: nat, hashCount: nat, hex: string)
      ensures var f := FromHex(bitCount, hashCount, hex);
              f.Some? ==> f.value.bitCount == bitCount && f.value.hashCount == hashCount
    {}

    /** The checks of handle_query_bloom, in its order. */
    method AcceptQuery(m: Message, env: Env) returns (filter: Option<Filter>)
      ensures filter == AcceptedQuery(cfg, m, env)
      ensures filter.Some? <==>
        && m.origin != "" && m.ttl > 0 && m.key != "" && ParseUint64(m.value).Some?
        && env.wallMs <= ParseUint64(m.value).value + cfg.queryBfTtl % TWO_64
        && FromHex(cfg.batching.bitCount, cfg.batching.hashCount, m.key).Some?
      ensures filter.Some? ==>
        && filter.value.bitCount == cfg.batching.bitCount && filter.value.hashCount == cfg.batching.hashCount
        && ToHex(filter.value) == LowerHex(m.key)
    {
      EmptyIsNoNumber();
      if FromHex(cfg.batching.bitCount, cfg.batching.hashCount, m.key).Some? {
        HexAcceptedPrintsLower(cfg.batching.bitCount, cfg.batching.hashCount, m.key);
      }
      DecodedShape(cfg.batching.bitCount, cfg.batching.hashCount, m.key);
      hide FromHex, ParseUint64, ToHex, LowerHex;
      filter := None;
      if m.origin == "" {
        return;
      }
      if m.ttl <= 0 {
        return;
      }
      if m.key == "" {
        return;
      }
      if m.value == "" {
        return;
      }
      var created := ParseUint64(m.value);
      if created.None? {
        return;
      }
      var age := if env.wallMs >= created.value then env.wallMs - created.value else 0;
      if age > cfg.queryBfTtl % TWO_64 {
        return;
      }
      filter := FromHex(cfg.batching.bitCount, cfg.batching.hashCount, m.key);
    }

    /** The replies to the first keys of the snapshot have been sent, and nothing else happened. */
    ghost predicate Replied(start: Core, f: Filter, origin: string, from: nat, keys: seq<string>, env: Env,
                            txs: seq<Transmission>, sent: nat, out: seq<Outgoing>)
      reads this, queryTable, contentBloom, fallback, aggregator, limiter, syncTable, forwardQueue
    {
      var replies := Replies(cfg, start, f, origin, from, keys, env);
      sent == |replies| && Sent(State(), out)
          == SendAll(cfg, start.(counter := Advance(start.counter, sent)), replies, txs)
    }

    /** One positive key whose value was read: an id, a DATA and a send. */
    method Answer(key: string, value: string, origin: string, from: nat, millis: uint64, tx: Transmission)
      returns (out: seq<Outgoing>)
      requires Valid()
      modifies this`requestCounter, syncTable, forwardQueue`queue, forwardQueue`offers, forwardQueue`accepted,
               forwardQueue`outcomes
      ensures Valid()
      ensures var core := old(State());
              var id := MakeRequestId(cfg.nodeId, millis, core.counter);
              Sent(State(), out) == SendOne(cfg, core.(counter := Advance(core.counter, 1)),
                                            Direct(DataFor(cfg, id, origin, key, value), 0, from,
                                                   Some(Served(key, origin))), tx)
    {
      var id := NextRequestId(millis);
      hide SendOne, MakeRequestId, Valid, State;
      var response := Message(Data, id, origin, cfg.requestTtl, key, value);
      out := Send(Direct(response, 0, from, Some(Served(key, origin))), tx);
    }

    /** One turn of the loop over the snapshot: skip the key, or answer it. */
    method Visit(key: string, f: Filter, origin: string, from: nat, env: Env, txs: seq<Transmission>, sentBefore: nat,
                 outBefore: seq<Outgoing>, ghost start: Core, ghost keys: seq<string>) returns (sent: nat,
                 out: seq<Outgoing>)
      requires Valid() && redis == start.redis && Replied(start, f, origin, from, keys, env, txs, sentBefore, outBefore)
      modifies this`requestCounter, syncTable, forwardQueue`queue, forwardQueue`offers, forwardQueue`accepted,
               forwardQueue`outcomes
      ensures Valid() && Replied(start, f, origin, from, keys + [key], env, txs, sent, out)
    {
      hide Contains, MakeRequestId, SendOne, SendAll, Replies, Valid;
      sent, out := sentBefore, outBefore;
      RepliesStep(cfg, start, f, origin, from, keys, key, env);
      if !Contains(f, key) {
        return;
      }
      var value := RedisGet(key, key in env.getFails);
      if value.None? {
        return;
      }
      ghost var core := State();
      var o := Answer(key, value.value, origin, from, MillisAt(env, sent), TxAt(txs, sent));
      AnswerCounts(cfg, start, f, origin, from, keys, key, env, txs, sent, core, out, Sent(State(), o));
      sent, out := sent + 1, out + o;
    }

    lemma NothingReplied(f: Filter, origin: string, from: nat, env: Env, txs: seq<Transmission>)
      ensures Replied(State(), f, origin, from, [], env, txs, 0, [])
    {
      assert State() == State().(counter := Advance(State().counter, 0));
    }

    /** The loop over the snapshot of the local keys. */
    method AnswerKeys(f: Filter, origin: string, from: nat, env: Env, txs: seq<Transmission>)
      returns (sent: nat, out: seq<Outgoing>)
      requires Valid()
      modifies this`requestCounter, syncTable, forwardQueue`queue, forwardQueue`offers, forwardQueue`accepted,
               forwardQueue`outcomes
      ensures Valid() && Replied(old(State()), f, origin, from, env.keyOrder, env, txs, sent, out)
    {
      hide Replied, Valid;
      ghost var start := State();
      sent, out := 0, [];
      NothingReplied(f, origin, from, env, txs);
      assert env.keyOrder[..0] == [];
      for i := 0 to |env.keyOrder|
        invariant Valid() && redis == start.redis
        invariant Replied(start, f, origin, from, env.keyOrder[..i], env, txs, sent, out)
      {
        assert env.keyOrder[..i + 1] == env.keyOrder[..i] + [env.keyOrder[i]];
        sent, out := Visit(env.keyOrder[i], f, origin, from, env, txs, sent, out, start, env.keyOrder[..i]);
      }
      assert env.keyOrder[..|env.keyOrder|] == env.keyOrder;
    }

    method LimiterAllows(m: Message, f: Filter, env: Env) returns (allowed: bool)
      requires Valid()
      modifies limiter
      ensures Valid() && allowed == QueryLimiter.Allows(old(State()).limiter, LimiterCall(m, f, env), cfg.limits)
      ensures var call := LimiterCall(m, f, env);
              State() == old(State()).(limiter := QueryLimiter.After(old(State()).limiter, call, cfg.limits))
    {
      hide QueryLimiter.After, QueryLimiter.Allows, Digest;
      allowed := limiter.Allow(m.origin, Digest(f), env.now);
    }

    method OnQueryBloom(m: Message, from: nat, hops: nat, env: Env, txs: seq<Transmission>) returns (out: seq<Outgoing>)
      requires Valid()
      modifies this`requestCounter, limiter, syncTable
      modifies forwardQueue`queue, forwardQueue`offers, forwardQueue`accepted, forwardQueue`outcomes
      ensures Valid() && Did(HandleQueryBloom(cfg, old(State()), m, from, hops, env), txs, out)
    {
      hide AcceptedQuery, Replies, QueryLimiter.After, QueryLimiter.Allows, SendOne, SendAll, LimiterCall,
           HandleQueryBloom, Valid, State;
      ghost var start := State();
      out := [];
      var filter := AcceptQuery(m, env);
      if filter.None? {
        NothingDone(cfg, start, m, from, hops, env);
        NothingSent(cfg, start, txs);
        return;
      }
      var f := filter.value;
      var sent;
      sent, out := AnswerKeys(f, m.origin, from, env, txs);
      ghost var core := State();
      if m.ttl - 1 <= 0 {
        NoForward(cfg, start, m, from, hops, env, txs, f, core, out, core);
        return;
      }
      var allowed := LimiterAllows(m, f, env);
      ghost var counted := State();
      if !allowed {
        NoForward(cfg, start, m, from, hops, env, txs, f, core, out, counted);
        return;
      }
      var o := Send(Broadcast(m.(ttl := m.ttl - 1), hops + 1, Some(from)), TxAt(txs, sent));
      ForwardFollows(cfg, start, m, from, hops, env, txs, f, core, out, counted, Sent(State(), o));
      out := out + o;
    }

    /** handle_wire_message, after parsing. */
    method Dispatch(m: Message, from: nat, hops: nat, env: Env, txs: seq<Transmission>) returns (out: seq<Outgoing>)
      requires Valid()
      modifies this`redis, this`localKeys, this`requestCounter, contentBloom, queryTable, fallback, limiter, syncTable
      modifies forwardQueue`queue, forwardQueue`offers, forwardQueue`accepted, forwardQueue`outcomes
      ensures Valid() && Did(Handle(cfg, old(State()), m, from, hops, env), txs, out)
    {
      hide HandleRequest, HandleData, HandleContentBloom, HandleQueryBloom, SendAll;
      out := [];
      match m.kind {
        case Request => out := OnRequest(m, from, hops, env, txs);
        case Data => OnData(m, env);
        case ContentBloom => OnContentBloom(m, from, env);
        case QueryBloom => out := OnQueryBloom(m, from, hops, env, txs);
        case Unknown =>
      }
      NothingSent(cfg, State(), txs);
    }

    lemma ReceiveStep(s: NodeState, e: LocalEvent, after: Sent)
      requires e.Receive? && Enabled(s, e)
      requires var effect := Handle(cfg, s.core, e.msg, e.src, e.hops, e.env);
               after == SendAll(cfg, effect.core, effect.items, e.txs)
      ensures LocalStep(cfg, s, e) == Stepped(s.(core := after.core), after.out)
    {
      hide Handle, SendAll;
    }

    lemma CanReceive(e: LocalEvent)
      requires Valid() && e.Receive? && Enumerates(e.env.keyOrder, localKeys)
      ensures Enabled(Value(), e)
    {
      hide Enumerates;
    }

    method OnWire(wire: string, from: nat, hops: nat, env: Env, txs: seq<Transmission>) returns (out: seq<Outgoing>)
      requires Valid() && Enumerates(env.keyOrder, localKeys)
      modifies this`redis, this`localKeys, this`requestCounter, contentBloom, queryTable, fallback, limiter, syncTable
      modifies forwardQueue`queue, forwardQueue`offers, forwardQueue`accepted, forwardQueue`outcomes
      ensures Valid()
      ensures match FromWire(wire)
              case None => out == [] && Value() == old(Value())
              case Some(m) =>
                var e := Receive(m, from, hops, env, txs);
                Enabled(old(Value()), e) && Stepped(Value(), out) == LocalStep(cfg, old(Value()), e)
    {
      hide Handle, SendAll, FromWire, Enumerates, LocalStep, Enabled, Valid, State;
      ghost var before := Value();
      out := [];
      var parsed := Parse(wire);
      if parsed.Some? {
        CanReceive(Receive(parsed.value, from, hops, env, txs));
        out := Dispatch(parsed.value, from, hops, env, txs);
        ReceiveStep(before, Receive(parsed.value, from, hops, env, txs), Sent(State(), out));
      }
    }

    // ---------- main thread ----------

    method StartQueue()
      requires Valid() && Enabled(Value(), Start)
      modifies forwardQueue`started
      ensures Valid() && Stepped(Value(), []) == LocalStep(cfg, old(Value()), Start)
    {
      hide LocalStep;
      QuietStep(cfg, Value(), Start);
      forwardQueue.Start();
    }

    lemma SeedStep(s: NodeState, outcome: SetOutcome)
      requires Enabled(s, Seed(outcome))
      ensures s.seedsLeft != [] && WellSized(s.core.content.local)
      ensures var kv := s.seedsLeft[0];
              var written := s.core.(redis := s.core.redis[kv.key := kv.value]);
              var core := if outcome.Refused? then s.core else if outcome.Stored? then RecordLocal(written, kv.key)
                  else written;
              LocalStep(cfg, s, Seed(outcome)) == Stepped(s.(core := core, seedsLeft := s.seedsLeft[1..]), [])
    {
      QuietStep(cfg, s, Seed(outcome));
      hide LocalStep, RecordLocal;
    }

    /** One turn of seed_cache. */
    method SeedNext(outcome: SetOutcome)
      requires Valid() && Enabled(Value(), Seed(outcome))
      modifies this`redis, this`localKeys, this`seedsLeft, contentBloom`local
      ensures Valid() && Stepped(Value(), []) == LocalStep(cfg, old(Value()), Seed(outcome))
    {
      hide LocalStep, Enabled, RecordLocal, Valid;
      SeedStep(Value(), outcome);
      var kv := seedsLeft[0];
      seedsLeft := seedsLeft[1..];
      var ok := RedisSet(kv.key, kv.value, outcome);
      if ok {
        RecordLocalKey(kv.key);
      }
    }

    // ---------- scheduler thread ----------

    lemma LookUpStep(s: NodeState, fails: bool, millis: uint64)
      requires Enabled(s, LookUp(fails, millis))
      ensures s.requestsLeft != [] && WellSized(s.core.content.local)
      ensures var key, core := s.requestsLeft[0], s.core;
        LocalStep(cfg, s, LookUp(fails, millis)) == Stepped(
          if Get(core, key, fails).Some? then
            s.(core := RecordLocal(core, key).(counter := Advance(core.counter, 1)),
               requestsLeft := s.requestsLeft[1..])
          else
            s.(core := core.(counter := Advance(core.counter, 1)),
               sched := Originated(RequestFor(cfg, key, millis, core.counter))),
          [])
    {
      QuietStep(cfg, s, LookUp(fails, millis));
      hide LocalStep, Bloom.Add, RequestFor;
    }

    method ServeOwn(key: string, millis: uint64)
      requires Valid()
      modifies this`localKeys, this`requestCounter, contentBloom`local
      ensures Valid() && State() == RecordLocal(old(State()), key).(counter := Advance(old(State()).counter, 1))
    {
      hide RecordLocal, MakeRequestId, Valid;
      RecordLocalKey(key);
      var _ := NextRequestId(millis);
    }

    /** The local lookup of the next requested key, and on a miss the new request. */
    method LookUpNext(fails: bool, millis: uint64)
      requires Valid() && Enabled(Value(), LookUp(fails, millis))
      modifies this`localKeys, this`requestCounter, this`requestsLeft, this`sched, contentBloom`local
      ensures Valid() && Stepped(Value(), []) == LocalStep(cfg, old(Value()), LookUp(fails, millis))
    {
      hide LocalStep, Enabled, MakeRequestId, RecordLocal, Valid, State;
      LookUpStep(Value(), fails, millis);
      var key := requestsLeft[0];
      var value := RedisGet(key, fails);
      if value.Some? {
        ServeOwn(key, millis);
        requestsLeft := requestsLeft[1..];
      } else {
        var id := NextRequestId(millis);
        sched := Originated(Message(Request, id, cfg.nodeId, cfg.requestTtl, key, ""));
      }
    }

    lemma NoteStep(s: NodeState, pruneNow: int, recordNow: int)
      requires Enabled(s, NoteOwn(pruneNow, recordNow))
      ensures s.sched.Originated?
      ensures var call := QueryTables.Call(s.sched.req.requestId, pruneNow, recordNow);
        LocalStep(cfg, s, NoteOwn(pruneNow, recordNow)) == Stepped(
          s.(core := s.core.(query := QueryTables.Record(s.core.query, call, cfg.queryTtl)),
             sched := Noted(s.sched.req)), [])
    {
      QuietStep(cfg, s, NoteOwn(pruneNow, recordNow));
      hide LocalStep, QueryTables.Record;
    }

    /** The node records its own request id before it sends anything. */
    method NoteOwnRequest(pruneNow: int, recordNow: int)
      requires Valid() && Enabled(Value(), NoteOwn(pruneNow, recordNow))
      modifies this`sched, queryTable
      ensures Valid() && Stepped(Value(), []) == LocalStep(cfg, old(Value()), NoteOwn(pruneNow, recordNow))
    {
      hide LocalStep, Enabled, QueryTables.Record, QueryTables.IsNew;
      NoteStep(Value(), pruneNow, recordNow);
      var _ := queryTable.RecordIfNew(sched.req.requestId, pruneNow, recordNow);
      sched := Noted(sched.req);
    }

    lemma ChooseStep(s: NodeState, now: int, order: seq<nat>)
      requires Enabled(s, Choose(now, order))
      ensures s.sched.Noted? && Enumerates(order, s.core.content.neighbors.Keys)
      ensures var live := ContentTables.Live(s.core.content.neighbors, now, cfg.contentTtl);
        var picked := ContentTables.Select(s.core.content, s.sched.req.key, now, cfg.contentTtl, order);
        LocalStep(cfg, s, Choose(now, order)) == Stepped(
          s.(core := s.core.(content := s.core.content.(neighbors := live)),
             sched := if picked.Some? then Chosen(s.sched.req, picked.value) else Unmatched(s.sched.req)), [])
    {
      QuietStep(cfg, s, Choose(now, order));
      hide LocalStep, ContentTables.Select, ContentTables.Live, Enumerates;
    }

    method ChooseNeighbor(now: int, order: seq<nat>)
      requires Valid() && Enabled(Value(), Choose(now, order))
      modifies this`sched, contentBloom`neighbors
      ensures Valid() && Stepped(Value(), []) == LocalStep(cfg, old(Value()), Choose(now, order))
    {
      hide LocalStep, Enabled, ContentTables.Select, ContentTables.Live, Enumerates;
      ChooseStep(Value(), now, order);
      var picked := contentBloom.SelectNeighbor(sched.req.key, now, order);
      if picked.Some? {
        sched := Chosen(sched.req, picked.value);
      } else {
        sched := Unmatched(sched.req);
      }
    }

    lemma AskStep(s: NodeState, tx: Transmission)
      requires Enabled(s, Ask(tx))
      ensures s.sched.Chosen?
      ensures var sent := SendOne(cfg, s.core, Direct(s.sched.req, 0, s.sched.neighbor, None), tx);
        LocalStep(cfg, s, Ask(tx)) == Stepped(s.(core := sent.core, sched := Asked(s.sched.req)), sent.out)
    {
      OneItemStep(cfg, s, Ask(tx), Direct(s.sched.req, 0, s.sched.neighbor, None), tx);
      hide LocalStep, SendOne;
    }

    method AskNeighbor(tx: Transmission) returns (out: seq<Outgoing>)
      requires Valid() && Enabled(Value(), Ask(tx))
      modifies this`sched, syncTable, forwardQueue`queue, forwardQueue`offers, forwardQueue`accepted,
               forwardQueue`outcomes
      ensures Valid() && Stepped(Value(), out) == LocalStep(cfg, old(Value()), Ask(tx))
    {
      hide LocalStep, Enabled, SendOne, Valid, State;
      AskStep(Value(), tx);
      out := Send(Direct(sched.req, 0, sched.neighbor, None), tx);
      sched := Asked(sched.req);
    }

    lemma FallbackStep(s: NodeState, now: int)
      requires Enabled(s, ScheduleFallback(now))
      ensures s.sched.Asked? && s.requestsLeft != []
      ensures var scheduled := FallbackTables.Schedule(s.core.fallback, s.sched.req.key, s.sched.req.origin, now,
                                                       cfg.fallbackWindow);
        LocalStep(cfg, s, ScheduleFallback(now)) == Stepped(
          s.(core := s.core.(fallback := scheduled), sched := NextKey, requestsLeft := s.requestsLeft[1..]), [])
    {
      QuietStep(cfg, s, ScheduleFallback(now));
      hide LocalStep, FallbackTables.Schedule;
    }

    method ScheduleOwnFallback(now: int)
      requires Valid() && Enabled(Value(), ScheduleFallback(now))
      modifies this`sched, this`requestsLeft, fallback
      ensures Valid() && Stepped(Value(), []) == LocalStep(cfg, old(Value()), ScheduleFallback(now))
    {
      hide LocalStep, Enabled, FallbackTables.Schedule;
      FallbackStep(Value(), now);
      var _ := fallback.ScheduleKey(sched.req.key, sched.req.origin, now);
      sched, requestsLeft := NextKey, requestsLeft[1..];
    }

    lemma AggregateStep(s: NodeState, now: int, wall: Aggregator.WallClock)
      requires Enabled(s, Aggregate(now, wall))
      ensures s.sched.Unmatched? && s.requestsLeft != [] && PositiveWall(wall)
      ensures var added := Aggregator.AddKey(cfg.batching, s.core.agg, s.sched.req.origin, s.sched.req.key, now, wall);
        LocalStep(cfg, s, Aggregate(now, wall)) == Stepped(
          s.(core := s.core.(agg := added), sched := NextKey, requestsLeft := s.requestsLeft[1..]), [])
    {
      QuietStep(cfg, s, Aggregate(now, wall));
      hide LocalStep, Aggregator.AddKey;
    }

    method AggregateOwn(now: int, wall: Aggregator.WallClock)
      requires Valid() && Enabled(Value(), Aggregate(now, wall))
      modifies this`sched, this`requestsLeft, aggregator
      ensures Valid() && Stepped(Value(), []) == LocalStep(cfg, old(Value()), Aggregate(now, wall))
    {
      hide LocalStep, Enabled, Aggregator.AddKey, Valid, State;
      AggregateStep(Value(), now, wall);
      AddToAggregator(sched.req.origin, sched.req.key, now, wall);
      sched, requestsLeft := NextKey, requestsLeft[1..];
    }

    method AddToAggregator(origin: string, key: string, now: int, wall: Aggregator.WallClock)
      requires Valid() && PositiveWall(wall)
      modifies aggregator
      ensures Valid() && State()
              == old(State()).(agg := Aggregator.AddKey(cfg.batching, old(State()).agg, origin, key, now, wall))
    {
      hide Aggregator.AddKey;
      var _ := aggregator.Add(origin, key, now, wall);
    }

    // ---------- fallback thread ----------

    lemma {:induction false} TakeDueStep(s: NodeState, now: int, order: seq<string>)
      requires Enabled(s, TakeDue(now, order))
      ensures Enumerates(order, s.core.fallback.Keys)
      ensures LocalStep(cfg, s, TakeDue(now, order)) == Stepped(
        s.(core := s.core.(fallback := FallbackTables.AfterTake(s.core.fallback, now, cfg.fallbackWindow)),
           due := FallbackTables.Due(s.core.fallback, now, cfg.fallbackWindow, order)), [])
    {
      QuietStep(cfg, s, TakeDue(now, order));
      hide LocalStep, FallbackTables.AfterTake, FallbackTables.Due, Enumerates;
    }

    method TakeDueFallbacks(now: int, order: seq<string>)
      requires Valid() && Enabled(Value(), TakeDue(now, order))
      modifies this`due, fallback
      ensures Valid() && Stepped(Value(), []) == LocalStep(cfg, old(Value()), TakeDue(now, order))
    {
      hide LocalStep, Enabled, FallbackTables.AfterTake, FallbackTables.Due, Enumerates;
      TakeDueStep(Value(), now, order);
      due := fallback.TakeDue(now, order);
    }

    lemma AddDueStep(s: NodeState, now: int, wall: Aggregator.WallClock)
      requires Enabled(s, AddDue(now, wall))
      ensures s.due != [] && PositiveWall(wall)
      ensures var added := Aggregator.AddKey(cfg.batching, s.core.agg, s.due[0].origin, s.due[0].key, now, wall);
        LocalStep(cfg, s, AddDue(now, wall)) == Stepped(s.(core := s.core.(agg := added), due := s.due[1..]), [])
    {
      QuietStep(cfg, s, AddDue(now, wall));
      hide LocalStep, Aggregator.AddKey;
    }

    method AddNextDue(now: int, wall: Aggregator.WallClock)
      requires Valid() && Enabled(Value(), AddDue(now, wall))
      modifies this`due, aggregator
      ensures Valid() && Stepped(Value(), []) == LocalStep(cfg, old(Value()), AddDue(now, wall))
    {
      hide LocalStep, Enabled, Aggregator.AddKey, Valid, State;
      AddDueStep(Value(), now, wall);
      AddToAggregator(due[0].origin, due[0].key, now, wall);
      due := due[1..];
    }

    // ---------- flush thread ----------

    lemma FlushStep(s: NodeState, now: int, order: seq<string>, resets: map<string, int>)
      requires Enabled(s, FlushDue(now, order, resets))
      ensures Enumerates(order, s.core.agg.buffers.Keys) && s.core.agg.buffers.Keys <= resets.Keys
      ensures forall o :: o in resets ==> resets[o] > 0
      ensures LocalStep(cfg, s, FlushDue(now, order, resets)) == Stepped(
        s.(core := s.core.(agg := Aggregator.AfterFlush(cfg.batching, s.core.agg, now, resets)),
           batches := Aggregator.Flushed(cfg.batching, s.core.agg, now, order)), [])
    {
      QuietStep(cfg, s, FlushDue(now, order, resets));
      hide LocalStep, Aggregator.AfterFlush, Aggregator.Flushed, Enumerates;
    }

    method FlushBatches(now: int, order: seq<string>, resets: map<string, int>)
      requires Valid() && Enabled(Value(), FlushDue(now, order, resets))
      modifies this`batches, this`batchKeys, aggregator
      ensures Valid() && Stepped(Value(), []) == LocalStep(cfg, old(Value()), FlushDue(now, order, resets))
    {
      hide LocalStep, Enabled, Aggregator.AfterFlush, Aggregator.Flushed, Enumerates;
      FlushStep(Value(), now, order, resets);
      assert aggregator.buffers.Keys == aggregator.contents.buffers.Keys;
      batchKeys := Aggregator.Flushed(cfg.batching, aggregator.contents, now, order);
      batches := aggregator.FlushDue(now, order, resets);
    }

    lemma BatchStep(s: NodeState, tx: Transmission)
      requires Enabled(s, SendBatch(tx))
      ensures s.batches != []
      ensures var sent := SendOne(cfg, s.core, Broadcast(QueryOf(cfg, s.batches[0]), 0, None), tx);
        LocalStep(cfg, s, SendBatch(tx)) == Stepped(s.(core := sent.core, batches := s.batches[1..]), sent.out)
    {
      OneItemStep(cfg, s, SendBatch(tx), Broadcast(QueryOf(cfg, s.batches[0]), 0, None), tx);
      hide LocalStep, SendOne, QueryOf;
    }

    lemma ConcreteFirst(keys: seq<Aggregator.Batch>)
      requires keys != []
      ensures var stored := Aggregator.ConcreteBatches(cfg.batching, keys);
              stored != [] && stored[0] == Aggregator.ConcreteBatch(cfg.batching, keys[0])
              && stored[1..] == Aggregator.ConcreteBatches(cfg.batching, keys[1..])
    {
      hide Aggregator.ConcreteBatch;
    }

    /** The message for the first batch, which leaves the list. */
    method NextQuery() returns (msg: Message)
      requires Valid() && batchKeys != []
      modifies this`batches, this`batchKeys
      ensures Valid() && msg == QueryOf(cfg, old(batchKeys)[0]) && batchKeys == old(batchKeys)[1..]
    {
      hide Aggregator.ConcreteBatches, ToHex, Aggregator.FilterOf, Aggregator.MakeBatchId;
      ConcreteFirst(batchKeys);
      var batch := batches[0];
      msg := Message(QueryBloom, batch.batchId, batch.origin, cfg.requestTtl, ToHex(batch.filter),
                     IntToString(batch.createdMs));
      batches := batches[1..];
      batchKeys := batchKeys[1..];
    }

    method SendNextBatch(tx: Transmission) returns (out: seq<Outgoing>)
      requires Valid() && Enabled(Value(), SendBatch(tx))
      modifies this`batches, this`batchKeys, syncTable
      modifies forwardQueue`queue, forwardQueue`offers, forwardQueue`accepted, forwardQueue`outcomes
      ensures Valid() && Stepped(Value(), out) == LocalStep(cfg, old(Value()), SendBatch(tx))
    {
      hide LocalStep, Enabled, SendOne, State, Valid, QueryOf;
      BatchStep(Value(), tx);
      var msg := NextQuery();
      out := Send(Broadcast(msg, 0, None), tx);
    }

    // ---------- content exchange thread ----------

    method Snapshot()
      requires Valid() && Enabled(Value(), TakeSnapshot)
      modifies this`snapshot
      ensures Valid() && Stepped(Value(), []) == LocalStep(cfg, old(Value()), TakeSnapshot)
    {
      hide LocalStep;
      QuietStep(cfg, Value(), TakeSnapshot);
      var filter := contentBloom.LocalSnapshot();
      snapshot := Some(filter);
    }

    lemma SummaryStep(s: NodeState, tx: Transmission)
      requires Enabled(s, SendSnapshot(tx))
      ensures s.snapshot.Some?
      ensures var sent := SendOne(cfg, s.core, Broadcast(SummaryOf(cfg, s.snapshot.value), 0, None), tx);
        LocalStep(cfg, s, SendSnapshot(tx)) == Stepped(s.(core := sent.core, snapshot := None), sent.out)
    {
      OneItemStep(cfg, s, SendSnapshot(tx), Broadcast(SummaryOf(cfg, s.snapshot.value), 0, None), tx);
      hide LocalStep, SendOne, SummaryOf;
    }

    method SendSummary(tx: Transmission) returns (out: seq<Outgoing>)
      requires Valid() && Enabled(Value(), SendSnapshot(tx))
      modifies this`snapshot, syncTable, forwardQueue`queue, forwardQueue`offers, forwardQueue`accepted,
               forwardQueue`outcomes
      ensures Valid() && Stepped(Value(), out) == LocalStep(cfg, old(Value()), SendSnapshot(tx))
    {
      hide LocalStep, Enabled, SendOne, ToHex, Valid, State;
      SummaryStep(Value(), tx);
      var msg := Message(ContentBloom, "", cfg.nodeId, cfg.contentTtl, ToHex(snapshot.value), "");
      out := Send(Broadcast(msg, 0, None), tx);
      snapshot := None;
    }

    // ---------- queue workers ----------

    lemma WorkerTakeStep(s: NodeState, w: nat)
      requires Enabled(s, WorkerTake(w))
      ensures w < |s.hands| && s.hands[w].None? && s.core.queue != []
      ensures LocalStep(cfg, s, WorkerTake(w)) == Stepped(
        s.(core := s.core.(queue := s.core.queue[1..]), hands := s.hands[w := Some(s.core.queue[0])]), [])
    {}

    lemma HandsUpdate(threads: seq<ForwardQueues.Thread>, w: nat, x: ForwardQueues.Thread)
      requires w < |HandsOf(threads)|
      ensures w < |threads|
      ensures HandsOf(threads[w := x]) == HandsOf(threads)[w := HandOf(x)] && HandsOf(threads)[w] == HandOf(threads[w])
    {}

    method WorkerTakes(w: nat)
      requires Valid() && Enabled(Value(), WorkerTake(w))
      modifies forwardQueue`queue, forwardQueue`threads, forwardQueue`tickets, forwardQueue`taken
      ensures Valid() && Stepped(Value(), []) == LocalStep(cfg, old(Value()), WorkerTake(w))
    {
      hide LocalStep, Enabled, HandsOf;
      WorkerTakeStep(Value(), w);
      ghost var threads, item := forwardQueue.threads, forwardQueue.queue[0];
      HandsUpdate(threads, w, ForwardQueues.Sending(item));
      forwardQueue.WorkerTurn(w);
    }

    lemma WorkerFinishStep(s: NodeState, w: nat, tx: Transmission)
      requires Enabled(s, WorkerFinish(w, tx))
      ensures w < |s.hands| && s.hands[w].Some?
      ensures var item := s.hands[w].value;
        LocalStep(cfg, s, WorkerFinish(w, tx)) == Stepped(
          s.(core := Called(cfg, s.core, item, tx), hands := s.hands[w := None]), Packets(cfg, item, tx))
    {}

    method Complete(w: nat, sent: bool) returns (served: Option<Served>)
      requires Valid() && w < |forwardQueue.threads| && forwardQueue.threads[w].Sending?
      modifies forwardQueue`threads, forwardQueue`outcomes
      ensures Valid() && State() == old(State())
      ensures HandsOf(forwardQueue.threads) == old(HandsOf(forwardQueue.threads))[w := None]
      ensures var item := old(forwardQueue.threads)[w].item;
              served == if item.Direct? && sent then item.onSuccess else None
    {
      HandsUpdate(forwardQueue.threads, w, ForwardQueues.Idle);
      hide HandsOf;
      served := forwardQueue.WorkerFinish(w, sent);
    }

    method RunCallback(served: Option<Served>)
      requires Valid()
      modifies syncTable
      ensures Valid()
      ensures var core := old(State());
        State() == if served.None? then core
                   else
                     var call := SyncTables.Call(served.value.key, served.value.origin);
                     core.(sync := SyncTables.Record(core.sync, call, cfg.syncCapacity))
    {
      hide SyncTables.Record;
      if served.Some? {
        var _ := syncTable.RecordDestination(served.value.key, served.value.origin);
      }
    }

    /** The worker sends its item and runs the callback. */
    method WorkerFinishes(w: nat, tx: Transmission) returns (out: seq<Outgoing>)
      requires Valid() && Enabled(Value(), WorkerFinish(w, tx))
      modifies syncTable, forwardQueue`threads, forwardQueue`outcomes
      ensures Valid() && Stepped(Value(), out) == LocalStep(cfg, old(Value()), WorkerFinish(w, tx))
    {
      hide LocalStep, Enabled, HandsOf, Packets, Valid, State, SyncTables.Record;
      WorkerFinishStep(Value(), w, tx);
      HandsUpdate(forwardQueue.threads, w, ForwardQueues.Idle);
      var item := forwardQueue.threads[w].item;
      out := Transmit(item, tx);
      var served := Complete(w, tx.sent);
      RunCallback(served);
    }
  }
}
