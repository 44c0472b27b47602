/** Every flood quiesces: without new summaries and duplication, each step that changes anything spends potential. */
module Termination {
  import opened Collections
  import opened Text
  import opened Wire
  import opened Bloom
  import opened Sends
  import opened NodeModel
  import opened Systems
  import opened Arrivals
  import opened Steps
  import opened NodeInvariants
  import opened Histories
  import opened Reachability
  import opened Coherence
  import opened Potential
  import Aggregator
  import ContentTables
  import FallbackTables
  import QueryLimiter
  import QueryTables

  // ---------- sending ----------

  lemma {:induction false} LeavingEqual(b: Bounds, out: seq<Outgoing>, m: Message)
    requires forall i :: 0 <= i < |out| ==> out[i].msg == m
    ensures Sum(Leaving(b), out) == |out| * PacketW(b, m)
  {
    forall i | 0 <= i < |out| ensures Leaving(b)(out[i]) == PacketW(b, m) {}
    SumEqual(Leaving(b), out, PacketW(b, m));
  }

  /** Sending an item puts less into the network than the item weighed in a worker's hands. */
  lemma PacketsSpend(b: Bounds, c: Config, item: Item, tx: Transmission)
    requires CoversOne(b, c)
    ensures Sum(Leaving(b), Packets(c, item, tx)) + MoveW(b, item.msg) <= HandW(b, item)
  {
    var out := Packets(c, item, tx);
    ReachedAreNeighbors(c.neighbors, tx.reached);
    LeavingEqual(b, out, item.msg);
    hide Leaving, PacketW;
    var most := if item.Direct? then 1 else b.degree;
    assert |out| <= most;
    TimesMonotone(PacketW(b, item.msg), |out|, most);
  }

  lemma SendOneSpends(b: Bounds, c: Config, core: Core, item: Item, tx: Transmission)
    requires CoversOne(b, c)
    ensures var r := SendOne(c, core, item, tx);
            Sum(Queued(b), r.core.queue) + Sum(Leaving(b), r.out) <= Sum(Queued(b), core.queue) + QueueW(b, item)
  {
    PacketsSpend(b, c, item, tx);
    SumStep(Queued(b), core.queue, item);
    assert Queued(b)(item) == QueueW(b, item);
    hide Packets, HandW;
  }

  lemma {:induction false} SendAllSpends(b: Bounds, c: Config, core: Core, items: seq<Item>, txs: seq<Transmission>)
    requires CoversOne(b, c)
    ensures var r := SendAll(c, core, items, txs);
            Sum(Queued(b), r.core.queue) + Sum(Leaving(b), r.out) <= Sum(Queued(b), core.queue) + Sum(Queued(b), items)
  {
    if items != [] {
      var n := |items| - 1;
      SendAllSpends(b, c, core, items[..n], txs);
      var first := SendAll(c, core, items[..n], txs);
      SendOneSpends(b, c, first.core, items[n], TxAt(txs, n));
      SumConcat(Leaving(b), first.out, SendOne(c, first.core, items[n], TxAt(txs, n)).out);
      assert Queued(b)(items[n]) == QueueW(b, items[n]);
      hide SendOne, QueueW;
    }
  }

  lemma {:induction false} SumFirst<T>(w: T -> nat, s: seq<T>)
    requires s != []
    ensures Sum(w, s) == w(s[0]) + Sum(w, s[1..])
  {
    SumSplit(w, s, 0);
    assert s[..0] == [];
  }

  lemma TakeSpends(b: Bounds, c: Config, s: NodeState, w: nat)
    requires Enabled(s, WorkerTake(w))
    ensures var r := LocalStep(c, s, WorkerTake(w));
            NodeW(b, c, r.state) + MoveW(b, s.core.queue[0].msg) <= NodeW(b, c, s) && r.out == []
  {
    hide SchedulerW, AggregatorW, FallbackW, DueW, BatchW, Sum, MoveW, HandW;
    var item := s.core.queue[0];
    SumFirst(Queued(b), s.core.queue);
    SumUpdate(InHand(b), s.hands, w, Some(item));
    assert Queued(b)(item) == MoveW(b, item.msg) + InHand(b)(Some(item)) && InHand(b)(s.hands[w]) == 0;
    hide Queued, InHand;
  }

  lemma FinishSpends(b: Bounds, c: Config, s: NodeState, w: nat, tx: Transmission)
    requires CoversOne(b, c) && Enabled(s, WorkerFinish(w, tx))
    ensures var r := LocalStep(c, s, WorkerFinish(w, tx));
            NodeW(b, c, r.state) + Sum(Leaving(b), r.out) + MoveW(b, s.hands[w].value.msg) <= NodeW(b, c, s)
  {
    PacketsSpend(b, c, s.hands[w].value, tx);
    SumUpdate(InHand(b), s.hands, w, None);
    assert InHand(b)(None) == 0 && InHand(b)(s.hands[w]) == HandW(b, s.hands[w].value);
    hide Queued, InHand, SchedulerW, AggregatorW, FallbackW, DueW, BatchW, Sum, Packets, HandW;
  }

  // ---------- receiving ----------

  lemma QueuedAnswer(b: Bounds, item: Item)
    requires item.Direct? && item.msg.kind == Data
    ensures Queued(b)(item) == 3 * b.answer
  {}

  lemma {:induction false} QueuedForward(b: Bounds, m: Message, item: Item)
    requires Clean(m) && (m.kind == Request || m.kind == QueryBloom) && m.ttl > 0
    requires item.Broadcast? && item.msg == m.(ttl := m.ttl - 1)
    ensures Queued(b)(item) <= 2 + b.degree * FloodW(b, if m.kind == Request then 0 else Answering(b), m.ttl - 1)
  {
    ForwardBound(b, m, m.ttl - 1);
    hide PacketW, FloodW;
    TimesMonotone(b.degree, PacketW(b, item.msg), FloodW(b, if m.kind == Request then 0 else Answering(b), m.ttl - 1));
  }

  lemma NothingQueued(b: Bounds)
    ensures Sum(Queued(b), []) == 0
  {}

  lemma {:induction false} RepliesBound(b: Bounds, c: Config, core: Core, f: Filter, origin: string, from: nat,
                                        keys: seq<string>, env: Env)
    ensures Sum(Queued(b), Replies(c, core, f, origin, from, keys, env)) <= 3 * b.answer * |keys|
  {
    hide Answers, MakeRequestId, Queued, Sum;
    var replies := Replies(c, core, f, origin, from, keys, env);
    if keys == [] {
      NothingQueued(b);
    } else {
      var init := keys[..|keys| - 1];
      var before := Replies(c, core, f, origin, from, init, env);
      RepliesBound(b, c, core, f, origin, from, init, env);
      OneLess(3 * b.answer, |keys|);
      if |replies| > |before| {
        var item := replies[|before|];
        assert replies == before + [item];
        hide Replies;
        SumStep(Queued(b), before, item);
        QueuedAnswer(b, item);
      } else {
        assert replies == before;
      }
    }
  }

  /** A request is answered, forwarded with one ttl less, or dropped. */
  lemma RequestItems(c: Config, core: Core, m: Message, from: nat, hops: nat, env: Env)
    requires WellSized(core.content.local)
    ensures var items := HandleRequest(c, core, m, from, hops, env).items;
      || items == []
      || (m.ttl > 0 && |items| == 1 && items[0].Direct? && items[0].msg.kind == Data)
      || (m.ttl > 0 && |items| == 1 && items[0].Broadcast? && items[0].msg == m.(ttl := m.ttl - 1))
  {
    hide QueryAfter, QueryTables.IsNew, Get, Bloom.Add, InvalidRequest;
  }

  lemma {:induction false} MsgWeight(b: Bounds, m: Message)
    requires b.degree >= 1 && (m.kind == Request || m.kind == QueryBloom)
    ensures var extra := if m.kind == Request then 0 else Answering(b);
            m.ttl > 0 ==> MsgW(b, m) == 3 + extra + b.degree * FloodW(b, extra, m.ttl - 1) > 3 + extra
  {
    var extra := if m.kind == Request then 0 else Answering(b);
    TimesAtLeast(b.degree, FloodW(b, extra, m.ttl - 1));
  }

  lemma RequestSpends(b: Bounds, c: Config, core: Core, m: Message, from: nat, hops: nat, env: Env)
    requires b.degree >= 1 && b.answer <= 1 && WellSized(core.content.local) && m.kind == Request && Clean(m)
    ensures Sum(Queued(b), HandleRequest(c, core, m, from, hops, env).items) < MsgW(b, m)
  {
    var items := HandleRequest(c, core, m, from, hops, env).items;
    RequestItems(c, core, m, from, hops, env);
    hide *;
    NothingQueued(b);
    MsgWeight(b, m);
    if |items| == 1 {
      assert items == [items[0]];
      SumOne(Queued(b), items[0]);
      if items[0].Direct? {
        QueuedAnswer(b, items[0]);
      } else {
        QueuedForward(b, m, items[0]);
      }
    }
  }

  lemma QuerySpends(b: Bounds, c: Config, core: Core, m: Message, from: nat, hops: nat, env: Env)
    requires b.degree >= 1 && m.kind == QueryBloom && Clean(m)
    requires Enumerates(env.keyOrder, core.localKeys) && (b.answer > 0 ==> |core.localKeys| <= b.keys)
    ensures Sum(Queued(b), HandleQueryBloom(c, core, m, from, hops, env).items) < MsgW(b, m)
  {
    hide Queued, Sum, Replies, LimiterCall, QueryLimiter.After, QueryLimiter.Allows, PacketW;
    NoDuplicatesSize(env.keyOrder);
    match AcceptedQuery(c, m, env) {
      case None => NothingQueued(b);
      case Some(f) =>
        hide AcceptedQuery;
        var replies := Replies(c, core, f, m.origin, from, env.keyOrder, env);
        RepliesBound(b, c, core, f, m.origin, from, env.keyOrder, env);
        if b.answer > 0 {
          TimesMonotone(3 * b.answer, |env.keyOrder|, b.keys);
        }
        if m.ttl - 1 > 0 {
          var item := Broadcast(m.(ttl := m.ttl - 1), hops + 1, Some(from));
          SumStep(Queued(b), replies, item);
          QueuedForward(b, m, item);
        }
    }
  }

  /** What a message makes its receiver send weighs less than the message. */
  lemma HandleSpends(b: Bounds, c: Config, core: Core, m: Message, from: nat, hops: nat, env: Env)
    requires CoversOne(b, c) && WellSized(core.content.local) && Clean(m) && Enumerates(env.keyOrder, core.localKeys)
    requires b.answer > 0 && m.kind == QueryBloom ==> |core.localKeys| <= b.keys
    ensures Sum(Queued(b), Handle(c, core, m, from, hops, env).items) + MoveW(b, m) <= MsgW(b, m)
  {
    NothingQueued(b);
    hide Queued, Sum;
    match m.kind {
      case Request => RequestSpends(b, c, core, m, from, hops, env);
      case QueryBloom => QuerySpends(b, c, core, m, from, hops, env);
      case _ =>
    }
    hide HandleRequest, HandleQueryBloom, FromHex, DecideData, Bloom.Add, FallbackTables.Cancel;
  }

  // ---------- the threads ----------

  lemma FallbackSize(m: map<string, FallbackTables.Entry>, key: string, origin: string, now: int, window: int)
    ensures |FallbackTables.Schedule(m, key, origin, now, window)| <= |m| + 1
    ensures |FallbackTables.Cancel(m, key, origin)| <= |m|
  {
    var k := FallbackTables.MakeKey(origin, key);
    SubsetSize(FallbackTables.Cancel(m, key, origin).Keys, m.Keys);
    assert m[k := FallbackTables.Entry(key, origin, now + window)].Keys == m.Keys + {k};
  }

  /** add_key costs at most the weight of the added key. */
  lemma AddKeySpends(b: Bounds, c: Config, a: Aggregator.State, key: string, now: int, wall: Aggregator.WallClock)
    ensures AggregatorW(b, c, Aggregator.AddKey(c.batching, a, c.nodeId, key, now, wall))
            <= AggregatorW(b, c, a) + KeyW(b)
  {
    hide Aggregator.Splits, Aggregator.Stale, KeyW, PendingW;
    var r := Aggregator.Receiving(c.batching, Aggregator.Find(a, c.nodeId), now, wall);
    var filled := r.(keys := r.keys + [key]);
    var had, n := |Aggregator.Find(a, c.nodeId).keys|, |filled.keys|;
    assert 1 <= n <= had + 1;
    TimesMonotone(KeyW(b), n, had + 1);
    assert KeyW(b) * (had + 1) == KeyW(b) * had + KeyW(b);
    assert PendingW(b) * (|a.pending| + 1) == PendingW(b) * |a.pending| + PendingW(b);
    assert PendingW(b) <= KeyW(b) by { PendingBelowKey(b); }
  }

  lemma PendingBelowKey(b: Bounds)
    ensures PendingW(b) < KeyW(b) && BatchW(b) < PendingW(b)
  {}

  lemma FlushShape(c: Config, a: Aggregator.State, now: int, order: seq<string>, resets: map<string, int>)
    requires OwnAgg(c, a) && Enumerates(order, a.buffers.Keys)
    ensures var t, out := Aggregator.AfterFlush(c.batching, a, now, resets),
            Aggregator.Flushed(c.batching, a, now, order);
      || (t == a && out == [])
      || (t.pending == [] && Aggregator.Find(t, c.nodeId).keys == Aggregator.Find(a, c.nodeId).keys
          && 0 < |out| == |a.pending|)
      || (t.pending == [] && Aggregator.Find(t, c.nodeId).keys == [] && Aggregator.Find(a, c.nodeId).keys != []
          && |out| == |a.pending| + 1)
  {
    var id := c.nodeId;
    NoDuplicatesSize(order);
    SubsetSize(a.buffers.Keys, {id});
    Aggregator.FlushedNone(c.batching, a.buffers, now, resets);
    if order == [] {
      assert a.buffers.Keys == {};
      assert a.buffers == map[] && Aggregator.AfterFlush(c.batching, a, now, resets).buffers == map[];
    } else {
      assert order[0] in SetOf(order) && order[0] in a.buffers;
      assert order == [] + [id];
      Aggregator.DueBatchesStep(c.batching, a.buffers, now, [], id);
      OneBufferFlush(c, a, now, resets);
    }
  }

  lemma OneBufferFlush(c: Config, a: Aggregator.State, now: int, resets: map<string, int>)
    requires OwnAgg(c, a) && c.nodeId in a.buffers
    ensures var t := Aggregator.AfterFlush(c.batching, a, now, resets);
      if Aggregator.FlushesNow(c.batching, a.buffers[c.nodeId], now)
      then Aggregator.Find(t, c.nodeId).keys == [] && Aggregator.Find(a, c.nodeId).keys != []
      else t.buffers == a.buffers
  {
    hide Aggregator.ResetAt;
    FlushesNotEmpty(c.batching, a.buffers[c.nodeId], now);
    assert Aggregator.ResetAt(c.nodeId, now, resets).keys == [] by { ResetHasNoKeys(c.nodeId, now, resets); }
    hide Aggregator.FlushesNow;
    var t := Aggregator.AfterFlush(c.batching, a, now, resets);
    assert t.buffers.Keys == a.buffers.Keys;
    forall o | o in a.buffers ensures o == c.nodeId {}
  }

  lemma ResetHasNoKeys(o: string, now: int, resets: map<string, int>)
    ensures Aggregator.ResetAt(o, now, resets).keys == []
  {}

  lemma FlushesNotEmpty(p: Aggregator.Params, b: Aggregator.Buffer, now: int)
    ensures Aggregator.FlushesNow(p, b, now) ==> b.keys != []
  {}

  lemma FlushSpends(b: Bounds, c: Config, a: Aggregator.State, now: int, order: seq<string>, resets: map<string, int>)
    requires OwnAgg(c, a) && Enumerates(order, a.buffers.Keys)
    ensures var t, out := Aggregator.AfterFlush(c.batching, a, now, resets),
            Aggregator.Flushed(c.batching, a, now, order);
      (t == a && out == []) || AggregatorW(b, c, t) + BatchW(b) * |out| < AggregatorW(b, c, a)
  {
    FlushShape(c, a, now, order, resets);
    PendingBelowKey(b);
    hide Aggregator.AfterFlush, Aggregator.Flushed, OwnAgg, Enumerates, KeyW, PendingW, BatchW, Aggregator.Find;
    var t, out := Aggregator.AfterFlush(c.batching, a, now, resets), Aggregator.Flushed(c.batching, a, now, order);
    var n, p := |Aggregator.Find(a, c.nodeId).keys|, |a.pending|;
    if !(t == a && out == []) {
      FlushArithmetic(KeyW(b), PendingW(b), BatchW(b), n, p);
    }
  }

  lemma FlushArithmetic(key: nat, pending: nat, batch: nat, n: nat, p: nat)
    requires batch < pending < key
    ensures p > 0 ==> batch * p < pending * p
    ensures batch * p <= pending * p
    ensures n > 0 ==> key * n >= key && batch * (p + 1) < key * n + pending * p
  {
    TimesMonotone(p, batch, pending);
    if n > 0 {
      TimesMonotone(key, 1, n);
    }
  }

  ghost predicate Spends(b: Bounds, c: Config, s: NodeState, acted: Acted) {
    ThreadsW(b, c, acted.state) + Sum(Queued(b), acted.items) < ThreadsW(b, c, s)
  }

  lemma RequestDone(b: Bounds, left: seq<string>, pc: Scheduler)
    requires left != []
    ensures SchedulerW(b, left[1..], NextKey) + CurrentW(b, pc) == SchedulerW(b, left, pc)
  {
    hide RequestW;
    assert |left| > 1 ==> (|left| - 2) * RequestW(b) + RequestW(b) == (|left| - 1) * RequestW(b);
  }

  lemma RequestMoves(b: Bounds, left: seq<string>, from: Scheduler, to: Scheduler)
    requires left != []
    ensures SchedulerW(b, left, to) + CurrentW(b, from) == SchedulerW(b, left, from) + CurrentW(b, to)
  {}

  lemma CurrentWeights(b: Bounds, pc: Scheduler)
    ensures CurrentW(b, pc) == match pc
      case NextKey => 6 + OriginatedW(b) + FallbackW(b)
      case Originated(_) => 5 + OriginatedW(b) + FallbackW(b)
      case Noted(_) => 4 + OriginatedW(b) + FallbackW(b)
      case Chosen(_, _) => 3 + OriginatedW(b) + FallbackW(b)
      case Unmatched(_) => 3 + OriginatedW(b) + FallbackW(b)
      case Asked(_) => 2 + FallbackW(b)
    ensures KeyW(b) < DueW(b) < FallbackW(b)
  {}

  /** What the rest of a node's threads weigh stays, so a scheduler step spends what its program counter spends. */
  lemma SchedulerFrame(b: Bounds, c: Config, s: NodeState, t: NodeState, spent: int, cost: nat)
    requires t.core.started == s.core.started && t.seedsLeft == s.seedsLeft && t.due == s.due && t.batches == s.batches
             && t.snapshot == s.snapshot
    requires SchedulerW(b, t.requestsLeft, t.sched) + spent <= SchedulerW(b, s.requestsLeft, s.sched)
    requires FallbackW(b) * |t.core.fallback| + AggregatorW(b, c, t.core.agg)
             <= FallbackW(b) * |s.core.fallback| + AggregatorW(b, c, s.core.agg) + cost
    ensures ThreadsW(b, c, t) + spent <= ThreadsW(b, c, s) + cost
  {
    hide SchedulerW, AggregatorW, FallbackW, DueW, BatchW;
  }

  lemma PlainSchedulerSpends(b: Bounds, c: Config, s: NodeState, e: LocalEvent)
    requires Enabled(s, e) && (e.LookUp? || e.NoteOwn? || e.Choose?)
    ensures Spends(b, c, s, Act(c, s, e))
  {
    var acted := Act(c, s, e);
    var t := acted.state;
    hide Bloom.Add, QueryTables.Record, ContentTables.Select, ContentTables.Live, RequestFor, Get, Enumerates;
    assert acted.items == [] && t.core.fallback == s.core.fallback && t.core.agg == s.core.agg && s.requestsLeft != [];
    assert t.requestsLeft == s.requestsLeft || (t.requestsLeft == s.requestsLeft[1..] && t.sched.NextKey?);
    NothingQueued(b);
    RequestDone(b, s.requestsLeft, s.sched);
    RequestMoves(b, s.requestsLeft, s.sched, t.sched);
    CurrentWeights(b, s.sched);
    CurrentWeights(b, t.sched);
    hide Act, Sum, Queued, SchedulerW, CurrentW, OriginatedW, FallbackW, DueW, KeyW, BatchW, AggregatorW, ThreadsW;
    SchedulerFrame(b, c, s, t, 1, 0);
  }

  lemma AskSpends(b: Bounds, c: Config, s: NodeState, e: LocalEvent)
    requires CoversOne(b, c) && Own(c, s) && Enabled(s, e) && e.Ask?
    ensures Spends(b, c, s, Act(c, s, e))
  {
    var t := Act(c, s, e).state;
    AskedItem(b, c, s);
    RequestMoves(b, s.requestsLeft, s.sched, t.sched);
    CurrentWeights(b, s.sched);
    CurrentWeights(b, t.sched);
    hide Sum, Queued, SchedulerW, CurrentW, OriginatedW, FallbackW, DueW, KeyW, BatchW, AggregatorW, ThreadsW, Own;
    SchedulerFrame(b, c, s, t, 1 + OriginatedW(b), 0);
  }

  lemma EndSpends(b: Bounds, c: Config, s: NodeState, e: LocalEvent)
    requires Own(c, s) && Enabled(s, e) && (e.ScheduleFallback? || e.Aggregate?)
    ensures Spends(b, c, s, Act(c, s, e))
  {
    var acted := Act(c, s, e);
    var t := acted.state;
    NothingQueued(b);
    RequestDone(b, s.requestsLeft, s.sched);
    CurrentWeights(b, s.sched);
    hide Sum, Queued, SchedulerW, CurrentW, OriginatedW, FallbackW, DueW, KeyW, BatchW, AggregatorW, ThreadsW,
         OwnFallback, OwnAgg;
    if e.ScheduleFallback? {
      FallbackSize(s.core.fallback, s.sched.req.key, s.sched.req.origin, e.now, c.fallbackWindow);
      hide FallbackTables.Schedule;
      OneMore(FallbackW(b), |t.core.fallback|, |s.core.fallback|);
    } else {
      AddKeySpends(b, c, s.core.agg, s.sched.req.key, e.now, e.wall);
      hide Aggregator.AddKey;
    }
    SchedulerFrame(b, c, s, t, 2 + FallbackW(b), FallbackW(b));
  }

  lemma OneMore(w: nat, m: nat, n: nat)
    requires m <= n + 1
    ensures w * m <= w * n + w
  {
    TimesMonotone(w, m, n + 1);
  }

  lemma AskedItem(b: Bounds, c: Config, s: NodeState)
    requires CoversOne(b, c) && s.sched.Chosen? && OwnRequest(c, s, s.sched.req)
    ensures Sum(Queued(b), [Direct(s.sched.req, 0, s.sched.neighbor, None)]) <= OriginatedW(b)
  {
    var item := Direct(s.sched.req, 0, s.sched.neighbor, None);
    SumOne(Queued(b), item);
    OriginatedBound(b, c, item);
    hide Sum, QueueW, OriginatedW;
  }

  lemma SingleItem(b: Bounds, c: Config, item: Item)
    requires CoversOne(b, c) && item.msg.kind != Data && (item.msg.kind == Request || item.msg.kind == QueryBloom ==>
                                                          item.msg.ttl <= b.ttl)
    requires (item.msg.kind == Request || item.msg.kind == QueryBloom) && '|' !in c.nodeId ==>
               '|' !in item.msg.requestId && '|' !in item.msg.origin
    ensures Sum(Queued(b), [item]) < BatchW(b)
  {
    SumOne(Queued(b), item);
    OriginatedBound(b, c, item);
    hide Sum, QueueW, OriginatedW;
  }

  lemma OneLess(w: nat, n: nat)
    requires n > 0
    ensures w * n == w * (n - 1) + w
  {}

  lemma BatchItem(b: Bounds, c: Config, batch: Aggregator.Batch)
    requires CoversOne(b, c) && OwnBatch(c, batch)
    ensures Sum(Queued(b), [Broadcast(QueryOf(c, batch), 0, None)]) < BatchW(b)
  {
    if '|' !in c.nodeId {
      QueryIsClean(c, batch);
    }
    hide ToHex, Aggregator.MakeBatchId, BatchW, Sum, Queued, Aggregator.FilterOf, IntToString;
    SingleItem(b, c, Broadcast(QueryOf(c, batch), 0, None));
  }

  lemma BatchSpends(b: Bounds, c: Config, s: NodeState, e: LocalEvent)
    requires CoversOne(b, c) && Own(c, s) && Enabled(s, e) && e.SendBatch?
    ensures Spends(b, c, s, Act(c, s, e))
  {
    hide Sum, Queued, SchedulerW, FallbackW, DueW, BatchW, AggregatorW, OwnRequest, OwnAgg, OwnFallback, QueryOf,
         OwnBatch;
    var batch := s.batches[0];
    assert batch in s.batches && OwnBatch(c, batch);
    hide Own;
    BatchItem(b, c, batch);
    OneLess(BatchW(b), |s.batches|);
  }

  lemma SnapshotSpends(b: Bounds, c: Config, s: NodeState, e: LocalEvent)
    requires CoversOne(b, c) && Enabled(s, e) && e.SendSnapshot?
    ensures Spends(b, c, s, Act(c, s, e))
  {
    SingleItem(b, c, Broadcast(SummaryOf(c, s.snapshot.value), 0, None));
    hide Sum, Queued, SchedulerW, FallbackW, DueW, BatchW, AggregatorW, ToHex;
  }

  /** The fallback, flush and main threads' steps without sends. */
  lemma TakeDueSpends(b: Bounds, c: Config, s: NodeState, e: LocalEvent)
    requires Enabled(s, e) && e.TakeDue?
    ensures Act(c, s, e) == Acted(s, []) || Spends(b, c, s, Act(c, s, e))
  {
    var m := s.core.fallback;
    var t := Act(c, s, e).state;
    FallbackTables.TakeConserves(m, e.now, c.fallbackWindow, e.keyOrder);
    NothingQueued(b);
    CurrentWeights(b, NextKey);
    hide Sum, Queued, SchedulerW, FallbackW, DueW, BatchW, AggregatorW, KeyW, OriginatedW, FallbackTables.Due,
         FallbackTables.AfterTake, Enumerates;
    if t.due == [] {
      assert t == s;
    } else {
      MovedLighter(FallbackW(b), DueW(b), |t.core.fallback|, |t.due|);
    }
  }

  lemma MovedLighter(heavy: nat, light: nat, stay: nat, moved: nat)
    requires light < heavy && moved > 0
    ensures heavy * stay + light * moved < heavy * (stay + moved)
  {
    FlushArithmetic(heavy + 1, heavy, light, 0, moved);
    assert heavy * (stay + moved) == heavy * stay + heavy * moved;
  }

  lemma AddDueSpends(b: Bounds, c: Config, s: NodeState, e: LocalEvent)
    requires Own(c, s) && Enabled(s, e) && e.AddDue?
    ensures Spends(b, c, s, Act(c, s, e))
  {
    assert s.due[0] in s.due;
    AddKeySpends(b, c, s.core.agg, s.due[0].key, e.now, e.wall);
    NothingQueued(b);
    CurrentWeights(b, NextKey);
    hide Sum, Queued, SchedulerW, FallbackW, DueW, BatchW, AggregatorW, KeyW, OriginatedW, Own, Aggregator.AddKey;
    OneLess(DueW(b), |s.due|);
  }

  lemma FlushDueSpends(b: Bounds, c: Config, s: NodeState, e: LocalEvent)
    requires Own(c, s) && Enabled(s, e) && e.FlushDue?
    ensures Act(c, s, e) == Acted(s, []) || Spends(b, c, s, Act(c, s, e))
  {
    FlushSpends(b, c, s.core.agg, e.now, e.originOrder, e.resets);
    NothingQueued(b);
    hide Sum, Queued, SchedulerW, FallbackW, DueW, BatchW, AggregatorW, Own, Aggregator.AfterFlush, Aggregator.Flushed,
         Enumerates;
  }

  lemma MainSpends(b: Bounds, c: Config, s: NodeState, e: LocalEvent)
    requires Enabled(s, e) && (e.Start? || e.Seed?)
    ensures Spends(b, c, s, Act(c, s, e))
  {
    NothingQueued(b);
    hide Sum, Queued, SchedulerW, FallbackW, DueW, BatchW, AggregatorW, Bloom.Add;
  }

  /** Every step of a thread but taking a snapshot spends potential or changes nothing at all. */
  lemma ActSpends(b: Bounds, c: Config, s: NodeState, e: LocalEvent)
    requires CoversOne(b, c) && Own(c, s) && Enabled(s, e)
    requires !e.WorkerTake? && !e.WorkerFinish? && !e.Receive? && !e.TakeSnapshot?
    ensures Act(c, s, e) == Acted(s, []) || Spends(b, c, s, Act(c, s, e))
  {
    hide *;
    match e {
      case Start => MainSpends(b, c, s, e);
      case Seed(_) => MainSpends(b, c, s, e);
      case LookUp(_, _) => PlainSchedulerSpends(b, c, s, e);
      case NoteOwn(_, _) => PlainSchedulerSpends(b, c, s, e);
      case Choose(_, _) => PlainSchedulerSpends(b, c, s, e);
      case Ask(_) => AskSpends(b, c, s, e);
      case ScheduleFallback(_) => EndSpends(b, c, s, e);
      case Aggregate(_, _) => EndSpends(b, c, s, e);
      case TakeDue(_, _) => TakeDueSpends(b, c, s, e);
      case AddDue(_, _) => AddDueSpends(b, c, s, e);
      case FlushDue(_, _, _) => FlushDueSpends(b, c, s, e);
      case SendBatch(_) => BatchSpends(b, c, s, e);
      case SendSnapshot(_) => SnapshotSpends(b, c, s, e);
    }
  }

  predicate ThreadsKept(core: Core, after: Core) {
    after.agg == core.agg && after.started == core.started && |after.fallback| <= |core.fallback|
  }

  lemma DataKeepsThreads(c: Config, core: Core, m: Message, env: Env)
    requires WellSized(core.content.local)
    ensures ThreadsKept(core, HandleData(c, core, m, env).core)
  {
    FallbackSize(core.fallback, m.key, m.origin, 0, 0);
    hide Bloom.Add, FallbackTables.Cancel, DecideData;
  }

  lemma RequestKeepsThreads(c: Config, core: Core, m: Message, from: nat, hops: nat, env: Env)
    requires WellSized(core.content.local)
    ensures ThreadsKept(core, HandleRequest(c, core, m, from, hops, env).core)
  {
    hide Bloom.Add, DecideRequest, QueryAfter;
  }

  lemma QueryKeepsThreads(c: Config, core: Core, m: Message, from: nat, hops: nat, env: Env)
    ensures ThreadsKept(core, HandleQueryBloom(c, core, m, from, hops, env).core)
    ensures ThreadsKept(core, HandleContentBloom(c, core, m, from, env).core)
  {
    hide FromHex, AcceptedQuery, Replies, LimiterCall, QueryLimiter.After, QueryLimiter.Allows;
  }

  lemma HandleKeepsThreads(c: Config, core: Core, m: Message, from: nat, hops: nat, env: Env)
    requires WellSized(core.content.local)
    ensures ThreadsKept(core, Handle(c, core, m, from, hops, env).core)
  {
    DataKeepsThreads(c, core, m, env);
    RequestKeepsThreads(c, core, m, from, hops, env);
    QueryKeepsThreads(c, core, m, from, hops, env);
    hide HandleData, HandleRequest, HandleQueryBloom, HandleContentBloom;
  }

  /** Receiving a message spends its weight. */
  lemma ReceiveSpends(b: Bounds, c: Config, s: NodeState, e: LocalEvent)
    requires CoversOne(b, c) && Enabled(s, e) && e.Receive? && Clean(e.msg)
    requires b.answer > 0 && e.msg.kind == QueryBloom ==> |s.core.localKeys| <= b.keys
    ensures var acted := Act(c, s, e);
            ThreadsW(b, c, acted.state) + Sum(Queued(b), acted.items) + MoveW(b, e.msg)
                <= ThreadsW(b, c, s) + MsgW(b, e.msg)
  {
    HandleKeepsThreads(c, s.core, e.msg, e.src, e.hops, e.env);
    HandleSpends(b, c, s.core, e.msg, e.src, e.hops, e.env);
    hide Handle, Sum, Queued, SchedulerW, FallbackW, DueW, BatchW, AggregatorW, MsgW, MoveW, CoversOne, Enumerates;
    TimesMonotone(FallbackW(b), |Act(c, s, e).state.core.fallback|, |s.core.fallback|);
  }

  // ---------- a node's step as a whole ----------

  lemma ThreadsOfQuiet(b: Bounds, c: Config, s: NodeState, t: NodeState)
    requires s == t.(core := s.core) && SameButSending(s.core, t.core)
    ensures ThreadsW(b, c, s) == ThreadsW(b, c, t)
  {
    hide SchedulerW, FallbackW, DueW, BatchW, AggregatorW;
  }

  /** Sending turns what the acting thread made into queue entries and packets without adding weight. */
  lemma SendingSpends(b: Bounds, c: Config, s: NodeState, e: LocalEvent)
    requires CoversOne(b, c) && Enabled(s, e) && !e.WorkerTake? && !e.WorkerFinish?
    ensures var r, acted := LocalStep(c, s, e), Act(c, s, e);
      && NodeW(b, c, r.state) + Sum(Leaving(b), r.out) <= ThreadsW(b, c, acted.state) + Sum(Queued(b), acted.items)
          + SendingW(b, s)
      && (acted == Acted(s, []) ==> r == Stepped(s, []))
  {
    var r, acted := LocalStep(c, s, e), Act(c, s, e);
    ActKeepsSending(c, s, e);
    SendAllFrame(c, acted.state.core, acted.items, TxsOf(e));
    SendAllSpends(b, c, acted.state.core, acted.items, TxsOf(e));
    assert acted == Acted(s, []) ==> r == Stepped(s, []);
    hide Act, SendAll, Enabled, ThreadsW, Queued, Leaving, InHand, Sum, CoversOne, FromItems;
    ThreadsOfQuiet(b, c, r.state, acted.state);
  }

  /** What the step takes off the potential: one, or an answer's move if it only moves an answer. */
  function CostOf(b: Bounds, s: NodeState, e: LocalEvent): nat {
    match e
    case WorkerTake(_) => if s.core.queue != [] then MoveW(b, s.core.queue[0].msg) else 1
    case WorkerFinish(w, _) => if w < |s.hands| && s.hands[w].Some? then MoveW(b, s.hands[w].value.msg) else 1
    case Receive(m, _, _, _, _) => MoveW(b, m)
    case _ => 1
  }

  /** A step spends its cost, a Receive together with its message, unless it changes nothing at all. */
  lemma StepSpends(b: Bounds, c: Config, s: NodeState, e: LocalEvent)
    requires CoversOne(b, c) && Own(c, s) && Enabled(s, e) && !e.TakeSnapshot?
    requires e.Receive? ==> Clean(e.msg)
    requires e.Receive? && e.msg.kind == QueryBloom && b.answer > 0 ==> |s.core.localKeys| <= b.keys
    ensures var r := LocalStep(c, s, e);
      || (!e.Receive? && r == Stepped(s, []))
      || NodeW(b, c, r.state) + Sum(Leaving(b), r.out) + CostOf(b, s, e)
         <= NodeW(b, c, s) + (if e.Receive? then MsgW(b, e.msg) else 0)
  {
    hide LocalStep, Act, Own, CoversOne, ThreadsW, SendingW, Leaving, Queued, Sum, MsgW, MoveW, Clean, Enumerates;
    if e.WorkerTake? {
      TakeSpends(b, c, s, e.w);
      NothingLeaves(b);
    } else if e.WorkerFinish? {
      FinishSpends(b, c, s, e.w, e.tx);
    } else {
      SendingSpends(b, c, s, e);
      if e.Receive? {
        ReceiveSpends(b, c, s, e);
      } else {
        ActSpends(b, c, s, e);
      }
    }
  }

  lemma NothingLeaves(b: Bounds)
    ensures Sum(Leaving(b), []) == 0
  {}

  // ---------- the network's step ----------

  lemma {:induction false} NodesUpdate(b: Bounds, cfgs: seq<Config>, nodes: seq<NodeState>, n: nat, t: NodeState)
    requires n < |nodes| == |cfgs|
    ensures NodesW(b, cfgs, nodes[n := t]) + NodeW(b, cfgs[n], nodes[n])
            == NodesW(b, cfgs, nodes) + NodeW(b, cfgs[n], t)
  {
    hide NodeW;
    var last := |nodes| - 1;
    if n == last {
      assert nodes[n := t][..last] == nodes[..last];
    } else {
      assert nodes[n := t][..last] == nodes[..last][n := t];
      NodesUpdate(b, cfgs[..last], nodes[..last], n, t);
    }
  }

  lemma LaunchedStep(n: nat, out: seq<Outgoing>, o: Outgoing)
    ensures Launched(n, out + [o]) == Launched(n, out) + [Packet(n, o.dst, o.msg, o.hops)]
  {}

  lemma {:induction false} LaunchedW(b: Bounds, n: nat, out: seq<Outgoing>)
    ensures Sum(InFlight(b), Launched(n, out)) == Sum(Leaving(b), out)
  {
    if out != [] {
      var init, last := out[..|out| - 1], out[|out| - 1];
      LaunchedW(b, n, init);
      var p := Packet(n, last.dst, last.msg, last.hops);
      assert InFlight(b)(p) == Leaving(b)(last);
      LaunchedStep(n, init, last);
      assert out == init + [last];
      hide *;
      SumStep(InFlight(b), Launched(n, init), p);
      SumStep(Leaving(b), init, last);
    }
  }

  lemma {:induction false} WithoutW(b: Bounds, packets: seq<Packet>, i: nat)
    requires i < |packets|
    ensures Sum(InFlight(b), Without(packets, i)) + PacketW(b, packets[i].msg) == Sum(InFlight(b), packets)
  {
    SumSplit(InFlight(b), packets, i);
    SumConcat(InFlight(b), packets[..i], packets[i + 1..]);
    hide Sum, PacketW;
  }

  lemma StepNodeSpends(b: Bounds, cfgs: seq<Config>, sys: System, n: nat, e: LocalEvent)
    requires Covers(b, cfgs) && n < |sys.nodes| == |cfgs| && Own(cfgs[n], sys.nodes[n]) && Enabled(sys.nodes[n], e)
    requires !e.TakeSnapshot? && (e.Receive? ==> Clean(e.msg) && (e.msg.kind == QueryBloom ==> KeysWithin(b, sys)))
    ensures var t := StepNode(cfgs, sys, n, e);
      || (!e.Receive? && t == sys)
      || SystemW(b, cfgs, t) + CostOf(b, sys.nodes[n], e) <= SystemW(b, cfgs, sys)
          + (if e.Receive? then MsgW(b, e.msg) else 0)
  {
    hide LocalStep, Enabled, Own, NodeW, NodesW, Leaving, InFlight, Sum, MsgW, CostOf, Clean, CoversOne, Launched;
    var r := LocalStep(cfgs[n], sys.nodes[n], e);
    assert CoversOne(b, cfgs[n]);
    hide Covers;
    StepSpends(b, cfgs[n], sys.nodes[n], e);
    hide KeysWithin;
    if !e.Receive? && r == Stepped(sys.nodes[n], []) {
      assert sys.nodes[n := r.state] == sys.nodes;
      NothingLaunched(n);
      assert sys.packets + [] == sys.packets;
    } else {
      NodesUpdate(b, cfgs, sys.nodes, n, r.state);
      LaunchedW(b, n, r.out);
      SumConcat(InFlight(b), sys.packets, Launched(n, r.out));
    }
  }

  lemma NothingLaunched(n: nat)
    ensures Launched(n, []) == []
  {}

  /** The two events that put new work into the network: a fresh summary and a duplicated datagram. */
  predicate Renews(ev: Event) {
    ev.Duplicate? || (ev.At? && ev.local.TakeSnapshot?)
  }

  /** What the event takes off the potential. */
  function EventCost(b: Bounds, sys: System, ev: Event): nat {
    match ev
    case At(n, e) => if n < |sys.nodes| then CostOf(b, sys.nodes[n], e) else 1
    case Deliver(i, _, _) => if i < |sys.packets| then MoveW(b, sys.packets[i].msg) else 1
    case Lose(i) => if i < |sys.packets| then MoveW(b, sys.packets[i].msg) else 1
    case Duplicate(_) => 1
  }

  /** The event only moves an answer on its way: into a worker's hands, into the network, or out of it. */
  predicate MovesAnswer(sys: System, ev: Event) {
    EventCost(Bounds(1, 0, 0, 0), sys, ev) == 0
  }

  lemma CostByAnswer(b: Bounds, sys: System, ev: Event)
    ensures EventCost(b, sys, ev) == if MovesAnswer(sys, ev) then b.answer else 1
  {}

  /** Every event but those two that changes the network's state takes its cost off the potential. */
  lemma ApplySpends(b: Bounds, cfgs: seq<Config>, sys: System, ev: Event)
    requires Covers(b, cfgs) && Sane(cfgs, sys) && CanStep(cfgs, sys, ev) && !Renews(ev)
    requires KeysWithin(b, sys) || MovesAnswer(sys, ev)
    ensures var t := Apply(cfgs, sys, ev);
            t == sys || SystemW(b, cfgs, t) + EventCost(b, sys, ev) <= SystemW(b, cfgs, sys)
  {
    hide Covers, Own, Coherent, Enabled, LocalStep, NodesW, PacketW, InFlight, Sum, Without, StepNode, CostOf, Arrives;
    match ev {
      case At(n, e) =>
        hide KeysWithin, SystemW;
        StepNodeSpends(b, cfgs, sys, n, e);
      case Deliver(i, env, txs) =>
        DeliverSpends(b, cfgs, sys, ev);
      case Lose(i) =>
        WithoutW(b, sys.packets, i);
        ArrivedW(b, sys.packets[i].msg);
    }
  }

  /** A packet that leaves the network takes its weight along. */
  lemma TakenW(b: Bounds, cfgs: seq<Config>, sys: System, i: nat)
    requires i < |sys.packets| && |cfgs| == |sys.nodes|
    ensures var taken := sys.(packets := Without(sys.packets, i));
            SystemW(b, cfgs, taken) + PacketW(b, sys.packets[i].msg) == SystemW(b, cfgs, sys)
  {
    WithoutW(b, sys.packets, i);
    hide NodesW, PacketW, InFlight, Sum, Without;
  }

  lemma DeliverSpends(b: Bounds, cfgs: seq<Config>, sys: System, ev: Event)
    requires Covers(b, cfgs) && Sane(cfgs, sys) && CanStep(cfgs, sys, ev) && ev.Deliver?
    requires KeysWithin(b, sys) || sys.packets[ev.i].msg.kind != QueryBloom
    ensures SystemW(b, cfgs, Apply(cfgs, sys, ev)) + MoveW(b, sys.packets[ev.i].msg) <= SystemW(b, cfgs, sys)
  {
    hide Covers, Coherent, NodesW, InFlight, Sum, Without, MsgW, PacketW, Own, SystemW, StepNode, Enabled, Arrives,
         Clean;
    var p := sys.packets[ev.i];
    var taken := sys.(packets := Without(sys.packets, ev.i));
    TakenW(b, cfgs, sys, ev.i);
    ArrivedW(b, p.msg);
    if Arrives(p.msg).Some? {
      ArrivedIsClean(p.msg);
      if KeysWithin(b, sys) {
        SameKeys(b, sys, taken);
      }
      hide KeysWithin;
      StepNodeSpends(b, cfgs, taken, p.dst, ReceiveEvent(p, ev.env, ev.txs).value);
    }
  }

  lemma SameKeys(b: Bounds, sys: System, t: System)
    requires t.nodes == sys.nodes && KeysWithin(b, sys)
    ensures KeysWithin(b, t)
  {}

  // ---------- how much can change ----------

  /** How many events from `since` on changed the state; moves of answers are counted only if asked for. */
  function Changes(cfgs: seq<Config>, events: seq<Event>, since: nat, answers: bool): nat
    decreases |events|
  {
    if |events| <= since then 0
    else
      var init, ev := events[..|events| - 1], events[|events| - 1];
      Changes(cfgs, init, since, answers)
      + (if Run(cfgs, events) != Run(cfgs, init) && (answers || !MovesAnswer(Run(cfgs, init), ev)) then 1 else 0)
  }

  predicate NothingRenewed(events: seq<Event>, since: nat) {
    forall j :: since <= j < |events| ==> !Renews(events[j])
  }

  predicate AllKeysWithin(b: Bounds, cfgs: seq<Config>, events: seq<Event>, since: nat) {
    forall j :: since <= j < |events| ==> KeysWithin(b, Run(cfgs, events[..j]))
  }

  /** As many events can still change something as the potential says. */
  lemma {:induction false} ChangesBounded(b: Bounds, cfgs: seq<Config>, events: seq<Event>, since: nat)
    requires ValidNetwork(cfgs) && Covers(b, cfgs) && since <= |events|
    requires NothingRenewed(events, since) && AllKeysWithin(b, cfgs, events, since)
    ensures Changes(cfgs, events, since, b.answer > 0) + SystemW(b, cfgs, Run(cfgs, events))
            <= SystemW(b, cfgs, Run(cfgs, events[..since]))
    decreases |events|
  {
    hide Run, CanStep, Apply, SystemW, KeysWithin, ValidNetwork, Covers, EventCost, MovesAnswer, Renews, Sane;
    if since == |events| {
      assert events[..since] == events;
    } else {
      var init, ev := events[..|events| - 1], events[|events| - 1];
      assert events == init + [ev] && init[..since] == events[..since] && events[..|events| - 1] == init;
      forall j | since <= j < |init| ensures init[..j] == events[..j] && init[j] == events[j] {}
      ChangesBounded(b, cfgs, init, since);
      RunStep(cfgs, init, ev);
      if CanStep(cfgs, Run(cfgs, init), ev) {
        ReachableSane(cfgs, init);
        CostByAnswer(b, Run(cfgs, init), ev);
        ApplySpends(b, cfgs, Run(cfgs, init), ev);
      }
    }
  }

  function MaxDegree(cfgs: seq<Config>): (d: nat)
    ensures d >= 1
  {
    if cfgs == [] then 1
    else
      var rest, last := MaxDegree(cfgs[..|cfgs| - 1]), |cfgs[|cfgs| - 1].neighbors|;
      if rest < last then last else rest
  }

  lemma {:induction false} DegreeWithin(cfgs: seq<Config>, n: nat)
    requires n < |cfgs|
    ensures |cfgs[n].neighbors| <= MaxDegree(cfgs)
  {
    if n < |cfgs| - 1 {
      DegreeWithin(cfgs[..|cfgs| - 1], n);
    }
  }

  /**
   * Bounds for any configurations at all: no bound on keys, names or datagrams is needed while answers weigh nothing.
   */
  function Loud(cfgs: seq<Config>): Bounds {
    Bounds(MaxDegree(cfgs), 0, 0x7fff_ffff, 0)
  }

  /** The same with answers counted. */
  function Full(cfgs: seq<Config>): Bounds {
    Loud(cfgs).(answer := 1)
  }

  lemma LoudCovers(cfgs: seq<Config>)
    ensures Covers(Loud(cfgs), cfgs) && Covers(Full(cfgs), cfgs)
  {
    forall n | 0 <= n < |cfgs| ensures CoversOne(Loud(cfgs), cfgs[n]) && CoversOne(Full(cfgs), cfgs[n]) {
      DegreeWithin(cfgs, n);
    }
  }

  /**
   * In any run of any configurations, however it interleaves, delivers, loses or reorders, only as many events that do
   * more than move an answer can change anything as the potential says at the point from which nothing is renewed.
   */
  lemma {:induction false} FloodsQuiesce(cfgs: seq<Config>, events: seq<Event>, since: nat)
    requires ValidNetwork(cfgs) && since <= |events| && NothingRenewed(events, since)
    ensures Changes(cfgs, events, since, false) + SystemW(Loud(cfgs), cfgs, Run(cfgs, events))
            <= SystemW(Loud(cfgs), cfgs, Run(cfgs, events[..since]))
  {
    LoudCovers(cfgs);
    assert AllKeysWithin(Loud(cfgs), cfgs, events, since);
    hide *;
    assert Loud(cfgs).answer == 0 by { LoudIsSilent(cfgs); }
    ChangesBounded(Loud(cfgs), cfgs, events, since);
  }

  lemma LoudIsSilent(cfgs: seq<Config>)
    ensures Loud(cfgs).answer == 0 && Full(cfgs).answer == 1
  {}

  // ---------- every infinite run comes to rest ----------

  function Prefix(run: nat -> Event, j: nat): (events: seq<Event>)
    ensures |events| == j
  {
    if j == 0 then [] else Prefix(run, j - 1) + [run(j - 1)]
  }

  function StateAt(cfgs: seq<Config>, run: nat -> Event, j: nat): (sys: System)
    ensures |sys.nodes| == |cfgs|
  {
    Run(cfgs, Prefix(run, j))
  }

  /** The potential without answers. */
  function LoudW(cfgs: seq<Config>, run: nat -> Event, j: nat): nat {
    SystemW(Loud(cfgs), cfgs, StateAt(cfgs, run, j))
  }

  /** The potential with answers but without what queries may still ask for. */
  function FullW(cfgs: seq<Config>, run: nat -> Event, j: nat): nat {
    SystemW(Full(cfgs), cfgs, StateAt(cfgs, run, j))
  }

  ghost predicate Lighter(cfgs: seq<Config>, run: nat -> Event, i: nat, j: nat) {
    LoudW(cfgs, run, j) < LoudW(cfgs, run, i) || (LoudW(cfgs, run, j) == LoudW(cfgs, run, i)
                                                  && FullW(cfgs, run, j) < FullW(cfgs, run, i))
  }

  /** A step of the run that changes anything lowers the pair of potentials lexicographically. */
  lemma {:induction false} EveryChangeLightens(cfgs: seq<Config>, run: nat -> Event, j: nat)
    requires ValidNetwork(cfgs) && !Renews(run(j)) && StateAt(cfgs, run, j + 1) != StateAt(cfgs, run, j)
    ensures Lighter(cfgs, run, j, j + 1)
  {
    var sys, ev := StateAt(cfgs, run, j), run(j);
    RunStep(cfgs, Prefix(run, j), ev);
    ReachableSane(cfgs, Prefix(run, j));
    LoudCovers(cfgs);
    LoudIsSilent(cfgs);
    assert KeysWithin(Loud(cfgs), sys);
    hide Run, Prefix, CanStep, Apply, SystemW, Sane, Covers, Loud, Full, EventCost, MovesAnswer, Renews, ValidNetwork,
         KeysWithin;
    assert CanStep(cfgs, sys, ev);
    ApplySpends(Loud(cfgs), cfgs, sys, ev);
    CostByAnswer(Loud(cfgs), sys, ev);
    if MovesAnswer(sys, ev) {
      ApplySpends(Full(cfgs), cfgs, sys, ev);
      CostByAnswer(Full(cfgs), sys, ev);
    }
  }

  lemma SameWeight(cfgs: seq<Config>, run: nat -> Event, i: nat, j: nat)
    requires StateAt(cfgs, run, i) == StateAt(cfgs, run, j)
    ensures LoudW(cfgs, run, i) == LoudW(cfgs, run, j) && FullW(cfgs, run, i) == FullW(cfgs, run, j)
  {}

  /** Whatever changes at j changes a state that is no heavier than the one at i. */
  lemma {:induction false} SameOrLighter(cfgs: seq<Config>, run: nat -> Event, i: nat, j: nat)
    requires ValidNetwork(cfgs) && i <= j && forall k :: i <= k < j ==> !Renews(run(k))
    ensures StateAt(cfgs, run, j) == StateAt(cfgs, run, i) || Lighter(cfgs, run, i, j)
    decreases j
  {
    hide StateAt, LoudW, FullW, ValidNetwork, Renews;
    if i < j {
      SameOrLighter(cfgs, run, i, j - 1);
      if StateAt(cfgs, run, j - 1) == StateAt(cfgs, run, i) {
        SameWeight(cfgs, run, i, j - 1);
      }
      if StateAt(cfgs, run, j) != StateAt(cfgs, run, j - 1) {
        EveryChangeLightens(cfgs, run, j - 1);
      } else {
        SameWeight(cfgs, run, j - 1, j);
      }
    }
  }

  ghost predicate RestsFrom(cfgs: seq<Config>, run: nat -> Event, n: nat) {
    forall j :: n <= j ==> StateAt(cfgs, run, j) == StateAt(cfgs, run, n)
  }

  lemma {:induction false} NoChangeRests(cfgs: seq<Config>, run: nat -> Event, n: nat)
    requires forall j :: n <= j ==> StateAt(cfgs, run, j + 1) == StateAt(cfgs, run, j)
    ensures RestsFrom(cfgs, run, n)
  {
    hide StateAt;
    forall j | n <= j ensures StateAt(cfgs, run, j) == StateAt(cfgs, run, n) {
      SameFrom(cfgs, run, n, j);
    }
  }

  lemma {:induction false} SameFrom(cfgs: seq<Config>, run: nat -> Event, n: nat, j: nat)
    requires n <= j && forall k :: n <= k ==> StateAt(cfgs, run, k + 1) == StateAt(cfgs, run, k)
    ensures StateAt(cfgs, run, j) == StateAt(cfgs, run, n)
    decreases j
  {
    hide StateAt;
    if n < j {
      SameFrom(cfgs, run, n, j - 1);
      assert StateAt(cfgs, run, (j - 1) + 1) == StateAt(cfgs, run, j - 1);
    }
  }

  /**
   * Every flood quiesces: for any configurations and any infinite run, if from some point on nothing is renewed, there
   * is a later point from which the state of the whole network never changes again.
   */
  lemma {:induction false} EveryRunRests(cfgs: seq<Config>, run: nat -> Event, since: nat) returns (n: nat)
    requires ValidNetwork(cfgs) && forall j :: since <= j ==> !Renews(run(j))
    ensures since <= n && RestsFrom(cfgs, run, n)
    decreases LoudW(cfgs, run, since), FullW(cfgs, run, since)
  {
    hide StateAt, LoudW, FullW, ValidNetwork, Renews, RestsFrom;
    if j: nat :| since <= j && StateAt(cfgs, run, j + 1) != StateAt(cfgs, run, j) {
      SameOrLighter(cfgs, run, since, j);
      EveryChangeLightens(cfgs, run, j);
      if StateAt(cfgs, run, j) == StateAt(cfgs, run, since) {
        SameWeight(cfgs, run, since, j);
      }
      n := EveryRunRests(cfgs, run, j + 1);
    } else {
      n := since;
      NoChangeRests(cfgs, run, n);
    }
  }

  // ---------- a number for clean runs ----------

  function SeedKeys(cfgs: seq<Config>): set<string> {
    set n, kv | 0 <= n < |cfgs| && kv in cfgs[n].seeds :: kv.key
  }

  /** Where keys arrive whole, whatever becomes of their values, a node holds none but seeded keys. */
  lemma {:induction false} LocalKeysAreSeedKeys(cfgs: seq<Config>, events: seq<Event>, n: nat)
    requires ValidNetwork(cfgs) && CleanNames(cfgs) && CleanSeedKeys(cfgs) && AllKeysFit(cfgs, events) && n < |cfgs|
    ensures Run(cfgs, events).nodes[n].core.localKeys <= SeedKeys(cfgs)
    ensures |Run(cfgs, events).nodes[n].core.localKeys| <= |SeedKeys(cfgs)|
  {
    ReachableSane(cfgs, events);
    hide Run, Own, Contains, CleanSeedKeys, AllKeysFit, CleanNames, ValidNetwork;
    var core := Run(cfgs, events).nodes[n].core;
    assert Coherent(cfgs[n], core);
    forall k | k in core.localKeys ensures k in SeedKeys(cfgs) {
      var path, times := HopChain(cfgs, events, n, k);
      assert Acquired(cfgs, events, times[0], path[0], k);
      var kv :| kv in cfgs[path[0]].seeds && kv.key == k;
    }
    hide SeedKeys;
    SubsetSize(core.localKeys, SeedKeys(cfgs));
  }

  /** With clean names and keys that arrive whole, the number of seeded keys bounds every node's local keys, and the
      potential bounds every change, moves of answers included. */
  lemma {:induction false} CleanFloodsQuiesce(degree: nat, ttl: int32, cfgs: seq<Config>, events: seq<Event>,
                                              since: nat)
    requires ValidNetwork(cfgs) && CleanNames(cfgs) && CleanSeedKeys(cfgs) && AllKeysFit(cfgs, events)
    requires degree >= 1 && forall n :: 0 <= n < |cfgs| ==> |cfgs[n].neighbors| <= degree && cfgs[n].requestTtl <= ttl
    requires since <= |events| && NothingRenewed(events, since)
    ensures Changes(cfgs, events, since, true)
            <= SystemW(Bounds(degree, |SeedKeys(cfgs)|, ttl, 1), cfgs, Run(cfgs, events[..since]))
  {
    var b := Bounds(degree, |SeedKeys(cfgs)|, ttl, 1);
    assert Covers(b, cfgs);
    hide Run, ValidNetwork, CleanNames, CleanSeedKeys, Covers, SystemW, NothingRenewed, SeedKeys, Changes;
    forall j | since <= j < |events| ensures KeysWithin(b, Run(cfgs, events[..j])) {
      AllKeysFitPrefix(cfgs, events, j);
      hide AllKeysFit;
      forall n: nat | n < |cfgs| ensures |Run(cfgs, events[..j]).nodes[n].core.localKeys| <= b.keys {
        LocalKeysAreSeedKeys(cfgs, events[..j], n);
      }
    }
    hide AllKeysFit, KeysWithin;
    ChangesBounded(b, cfgs, events, since);
  }
}
