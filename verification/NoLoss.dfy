/** A key the scheduler missed locally is never silently dropped, in any interleaving of the node's threads. */
module NoLoss {
  import opened Collections
  import opened Text
  import opened Wire
  import opened Bloom
  import opened Sends
  import opened NodeModel
  import opened Systems
  import opened Steps
  import opened NodeInvariants
  import opened Histories
  import opened Reachability
  import opened Coherence
  import Aggregator
  import ContentTables
  import FallbackTables
  import QueryLimiter
  import QueryTables

  /** The key is on a list whose filter tests positive for it. */
  predicate Asks(c: Config, keys: seq<string>, key: string) {
    key in keys && Contains(Aggregator.FilterOf(c.batching, keys), key)
  }

  predicate InBatches(c: Config, batches: seq<Aggregator.Batch>, key: string) {
    exists b :: b in batches && b.origin == c.nodeId && Asks(c, b.keys, key)
  }

  predicate Aggregated(c: Config, a: Aggregator.State, key: string) {
    Asks(c, Aggregator.Find(a, c.nodeId).keys, key) || InBatches(c, a.pending, key)
  }

  /** Stored, or still in some thread's or table's care. */
  predicate InCare(c: Config, s: NodeState, key: string) {
    || key in s.core.redis
    || (!s.sched.NextKey? && s.sched.req.key == key)
    || FallbackTables.MakeKey(c.nodeId, key) in s.core.fallback
    || FallbackTables.Pending(key, c.nodeId) in s.due
    || Aggregated(c, s.core.agg, key)
    || InBatches(c, s.batches, key)
  }

  /** A broadcast Query-BF whose filter, as read with the node's parameters, is positive for the key. */
  predicate AsksFor(c: Config, item: Item, key: string) {
    && item.Broadcast? && item.msg.kind == QueryBloom
    && var f := FromHex(c.batching.bitCount, c.batching.hashCount, item.msg.key); f.Some? && Contains(f.value, key)
  }

  /** The step hands a Query-BF that is positive for the key to the forward queue. */
  predicate HandsOver(c: Config, s: NodeState, e: LocalEvent, key: string) {
    e.SendBatch? && Enabled(s, e) && exists item :: item in Produced(c, s, e) && AsksFor(c, item, key)
  }

  /** The step's add_key found the node's buffer older than its ttl and threw the key away. */
  predicate Expires(c: Config, s: NodeState, now: int, key: string) {
    && c.nodeId in s.core.agg.buffers && c.batching.ttl > 0
    && now - s.core.agg.buffers[c.nodeId].createdAt > c.batching.ttl
    && key in s.core.agg.buffers[c.nodeId].keys
  }

  predicate Discards(c: Config, s: NodeState, e: LocalEvent, key: string) {
    match e
    case Aggregate(now, _) => Expires(c, s, now, key)
    case AddDue(now, _) => Expires(c, s, now, key)
    case _ => false
  }

  // ---------- the aggregator's part ----------

  lemma ListedIsAsked(c: Config, keys: seq<string>, key: string)
    requires ValidConfig(c) && key in keys
    ensures Asks(c, keys, key)
  {
    Aggregator.HeldKeysTestPositive(c.batching, keys, key);
  }

  lemma MoreBatches(c: Config, batches: seq<Aggregator.Batch>, more: seq<Aggregator.Batch>, key: string)
    requires InBatches(c, batches, key) && forall b :: b in batches ==> b in more
    ensures InBatches(c, more, key)
  {
    hide Asks;
  }

  lemma DepositKeeps(c: Config, a: Aggregator.State, filled: Aggregator.Buffer, now: int, splitMs: int, split: bool,
                     key: string)
    requires ValidConfig(c) && (key in filled.keys || InBatches(c, a.pending, key))
    ensures Aggregated(c, Aggregator.Deposit(a, c.nodeId, filled, now, splitMs, split), key)
  {
    var t := Aggregator.Deposit(a, c.nodeId, filled, now, splitMs, split);
    if key in filled.keys {
      ListedIsAsked(c, filled.keys, key);
      hide Asks;
      if split {
        var b := Aggregator.Batch(c.nodeId, filled.createdMs, filled.keys);
        assert b == t.pending[|a.pending|];
        assert b in t.pending;
      }
    } else {
      MoreBatches(c, a.pending, t.pending, key);
    }
  }

  /** add_key keeps every aggregated key but those of a stale buffer, and keeps the new one. */
  lemma AddKeyKeeps(c: Config, a: Aggregator.State, added: string, now: int, wall: Aggregator.WallClock, key: string)
    requires ValidConfig(c) && OwnAgg(c, a) && (Aggregated(c, a, key) || key == added)
    ensures Aggregated(c, Aggregator.AddKey(c.batching, a, c.nodeId, added, now, wall), key)
         || (c.nodeId in a.buffers && c.batching.ttl > 0 && now - a.buffers[c.nodeId].createdAt > c.batching.ttl
             && key in a.buffers[c.nodeId].keys)
  {
    var b := Aggregator.Receiving(c.batching, Aggregator.Find(a, c.nodeId), now, wall);
    var filled := b.(keys := b.keys + [added]);
    assert key == added ==> filled.keys[|b.keys|] == key;
    hide Contains, Aggregator.Splits, Aggregator.Deposit, Aggregated;
    if key in filled.keys || InBatches(c, a.pending, key) {
      DepositKeeps(c, a, filled, now, wall.split, Aggregator.Splits(c.batching, filled.keys), key);
    } else {
      assert Asks(c, Aggregator.Find(a, c.nodeId).keys, key) by { AggregatedSomewhere(c, a, key); }
    }
  }

  lemma AggregatedSomewhere(c: Config, a: Aggregator.State, key: string)
    requires Aggregated(c, a, key) && !InBatches(c, a.pending, key)
    ensures Asks(c, Aggregator.Find(a, c.nodeId).keys, key)
  {}

  lemma FlushKeeps(c: Config, a: Aggregator.State, now: int, order: seq<string>, resets: map<string, int>, key: string)
    requires Enumerates(order, a.buffers.Keys) && Aggregated(c, a, key)
    ensures Aggregated(c, Aggregator.AfterFlush(c.batching, a, now, resets), key)
         || InBatches(c, Aggregator.Flushed(c.batching, a, now, order), key)
  {
    hide Asks;
    var out := Aggregator.Flushed(c.batching, a, now, order);
    if InBatches(c, a.pending, key) {
      MoreBatches(c, a.pending, out, key);
    } else {
      var id := c.nodeId;
      assert Aggregator.Find(a, id).keys != [] by { AskedIsListed(c, Aggregator.Find(a, id).keys, key); }
      assert id in SetOf(order);
      if Aggregator.FlushesNow(c.batching, a.buffers[id], now) {
        Aggregator.DueBatchIn(c.batching, a.buffers, now, order, id);
        var b := Aggregator.Batch(id, a.buffers[id].createdMs, a.buffers[id].keys);
        assert b in out;
      }
    }
  }

  lemma AskedIsListed(c: Config, keys: seq<string>, key: string)
    requires Asks(c, keys, key)
    ensures key in keys
  {}

  // ---------- the fallback table's part ----------

  lemma {:induction false} TakeDueKeeps(c: Config, m: map<string, FallbackTables.Entry>, now: int, order: seq<string>,
                                        key: string)
    requires OwnFallback(c, m) && FallbackTables.MakeKey(c.nodeId, key) in m && Enumerates(order, m.Keys)
    ensures FallbackTables.MakeKey(c.nodeId, key) in FallbackTables.AfterTake(m, now, c.fallbackWindow)
         || FallbackTables.Pending(key, c.nodeId) in FallbackTables.Due(m, now, c.fallbackWindow, order)
  {
    var k := FallbackTables.MakeKey(c.nodeId, key);
    assert k in SetOf(order);
    FallbackTables.TakeKeeps(m, now, c.fallbackWindow, order, k);
    FallbackTables.MakeKeyInjective(m[k].origin, m[k].key, c.nodeId, key);
  }

  /** A fallback is cancelled only once its key is stored. */
  lemma CancelOnlyStored(c: Config, core: Core, m: Message, from: nat, hops: nat, env: Env, key: string)
    requires WellSized(core.content.local) && FallbackTables.MakeKey(c.nodeId, key) in core.fallback
    ensures var after := Handle(c, core, m, from, hops, env).core;
            FallbackTables.MakeKey(c.nodeId, key) !in after.fallback ==> key in after.redis
  {
    hide QueryAfter, DecideRequest, Bloom.Add, FromHex, AcceptedQuery, Replies, LimiterCall, QueryLimiter.After,
         QueryLimiter.Allows;
    if m.kind == Data && FallbackTables.MakeKey(m.origin, m.key) == FallbackTables.MakeKey(c.nodeId, key)
        && m.origin == c.nodeId {
      FallbackTables.MakeKeyInjective(m.origin, m.key, c.nodeId, key);
    }
    hide FallbackTables.MakeKey;
  }

  // ---------- one step ----------

  /** What one step may do to a key in care: keep it there, hand it over, or discard it for age. */
  ghost predicate Cared(c: Config, s: NodeState, e: LocalEvent, t: NodeState, key: string) {
    InCare(c, t, key) || HandsOver(c, s, e, key) || Discards(c, s, e, key)
  }

  lemma ReceiveCares(c: Config, s: NodeState, e: LocalEvent, key: string)
    requires e.Receive? && Enabled(s, e) && Own(c, s) && InCare(c, s, key)
    ensures InCare(c, Act(c, s, e).state, key)
  {
    HandleRedis(c, s.core, e.msg, e.src, e.hops, e.env);
    HandleOwn(c, s.core, e.msg, e.src, e.hops, e.env);
    if FallbackTables.MakeKey(c.nodeId, key) in s.core.fallback {
      CancelOnlyStored(c, s.core, e.msg, e.src, e.hops, e.env, key);
    }
    hide Handle, OwnFallback, OwnAgg, OwnRequest, Aggregated, InBatches, FallbackTables.MakeKey;
  }

  lemma AddCares(c: Config, s: NodeState, e: LocalEvent, key: string)
    requires (e.Aggregate? || e.AddDue?) && Enabled(s, e) && ValidConfig(c) && Own(c, s) && InCare(c, s, key)
    ensures Cared(c, s, e, Act(c, s, e).state, key)
  {
    var added := if e.Aggregate? then s.sched.req.key else s.due[0].key;
    assert e.AddDue? ==> s.due[0] in s.due;
    if Aggregated(c, s.core.agg, key) || key == added {
      AddKeyKeeps(c, s.core.agg, added, e.now, e.wall, key);
    }
    if FallbackTables.Pending(key, c.nodeId) in s.due && key != added {
      assert e.AddDue? ==> FallbackTables.Pending(key, c.nodeId) in s.due[1..];
    }
    hide OwnFallback, OwnAgg, Aggregated, InBatches, Asks, FallbackTables.MakeKey, Aggregator.AddKey, Aggregator.Stale;
  }

  lemma TakeCares(c: Config, s: NodeState, e: LocalEvent, key: string)
    requires e.TakeDue? && Enabled(s, e) && Own(c, s) && InCare(c, s, key)
    ensures InCare(c, Act(c, s, e).state, key)
  {
    if FallbackTables.MakeKey(c.nodeId, key) in s.core.fallback {
      TakeDueKeeps(c, s.core.fallback, e.now, e.keyOrder, key);
    }
    hide OwnFallback, OwnAgg, OwnRequest, Aggregated, InBatches, Enumerates;
    hide FallbackTables.MakeKey, FallbackTables.AfterTake, FallbackTables.Due;
  }

  lemma FlushCares(c: Config, s: NodeState, e: LocalEvent, key: string)
    requires e.FlushDue? && Enabled(s, e) && InCare(c, s, key)
    ensures InCare(c, Act(c, s, e).state, key)
  {
    if Aggregated(c, s.core.agg, key) {
      FlushKeeps(c, s.core.agg, e.now, e.originOrder, e.resets, key);
    }
    hide Aggregated, Asks, Enumerates, FallbackTables.MakeKey, Aggregator.AfterFlush, Aggregator.Flushed;
  }

  lemma BatchAsks(c: Config, b: Aggregator.Batch, key: string)
    requires Asks(c, b.keys, key)
    ensures AsksFor(c, Broadcast(QueryOf(c, b), 0, None), key)
  {
    HexRoundTrip(Aggregator.FilterOf(c.batching, b.keys));
    hide FromHex, ToHex, Contains, Aggregator.FilterOf, Aggregator.MakeBatchId;
  }

  lemma SendCares(c: Config, s: NodeState, e: LocalEvent, key: string)
    requires e.SendBatch? && Enabled(s, e) && InCare(c, s, key)
    ensures Cared(c, s, e, Act(c, s, e).state, key)
  {
    hide Aggregated, Asks, FallbackTables.MakeKey, QueryOf, AsksFor;
    if InBatches(c, s.batches, key) {
      var b :| b in s.batches && b.origin == c.nodeId && Asks(c, b.keys, key);
      assert b == s.batches[0] || b in s.batches[1..];
      if b == s.batches[0] {
        BatchAsks(c, b, key);
        var item := Broadcast(QueryOf(c, b), 0, None);
        assert item == Produced(c, s, e)[0];
      }
    }
  }

  lemma SchedulerCares(c: Config, s: NodeState, e: LocalEvent, key: string)
    requires (e.LookUp? || e.NoteOwn? || e.Choose? || e.Ask? || e.ScheduleFallback?)
    requires Enabled(s, e) && ValidConfig(c) && Own(c, s) && InCare(c, s, key)
    ensures InCare(c, Act(c, s, e).state, key)
  {
    hide OwnFallback, OwnAgg, Aggregated, InBatches, FallbackTables.MakeKey, Enumerates, Bloom.Add, QueryTables.Record;
    hide ContentTables.Select, ContentTables.Live, MakeRequestId;
  }

  lemma ActCares(c: Config, s: NodeState, e: LocalEvent, key: string)
    requires Enabled(s, e) && !e.WorkerTake? && !e.WorkerFinish? && ValidConfig(c) && Own(c, s) && InCare(c, s, key)
    ensures Cared(c, s, e, Act(c, s, e).state, key)
  {
    hide Aggregated, InBatches, FallbackTables.MakeKey, Bloom.Add, SummaryOf, OwnRequest, OwnAgg, OwnFallback;
    match e {
      case Receive(_, _, _, _, _) => ReceiveCares(c, s, e, key);
      case Aggregate(_, _) => AddCares(c, s, e, key);
      case AddDue(_, _) => AddCares(c, s, e, key);
      case TakeDue(_, _) => TakeCares(c, s, e, key);
      case FlushDue(_, _, _) => FlushCares(c, s, e, key);
      case SendBatch(_) => SendCares(c, s, e, key);
      case LookUp(_, _) => SchedulerCares(c, s, e, key);
      case NoteOwn(_, _) => SchedulerCares(c, s, e, key);
      case Choose(_, _) => SchedulerCares(c, s, e, key);
      case Ask(_) => SchedulerCares(c, s, e, key);
      case ScheduleFallback(_) => SchedulerCares(c, s, e, key);
      case _ =>
        hide Own;
        return;
    }
    hide Own, InCare, Act, Enabled, HandsOver, Discards;
  }

  lemma CareOfQuiet(c: Config, s: NodeState, t: NodeState, key: string)
    requires Quiet(s) == Quiet(t) && InCare(c, t, key)
    ensures InCare(c, s, key)
  {
    assert s.core == t.core.(queue := s.core.queue, sync := s.core.sync);
    assert s == t.(core := s.core, hands := s.hands);
    hide Aggregated, InBatches, FallbackTables.MakeKey;
  }

  /** One step of one node keeps a key in care unless it hands it over or discards it for age. */
  lemma StepCares(c: Config, s: NodeState, e: LocalEvent, key: string)
    requires Enabled(s, e) && ValidConfig(c) && Own(c, s) && InCare(c, s, key)
    ensures Cared(c, s, e, LocalStep(c, s, e).state, key)
  {
    hide LocalStep, Act, Enabled, Own, InCare, HandsOver, Discards, Quiet, Produced, Items, FromItems, ValidConfig;
    StepFrame(c, s, e);
    if e.WorkerTake? || e.WorkerFinish? {
      CareOfQuiet(c, LocalStep(c, s, e).state, s, key);
    } else {
      ActCares(c, s, e, key);
      if InCare(c, Act(c, s, e).state, key) {
        CareOfQuiet(c, LocalStep(c, s, e).state, Act(c, s, e).state, key);
      }
    }
  }

  lemma ApplyCares(cfgs: seq<Config>, sys: System, ev: Event, n: nat, key: string)
    requires ValidNetwork(cfgs) && Sane(cfgs, sys) && CanStep(cfgs, sys, ev) && n < |cfgs|
    requires InCare(cfgs[n], sys.nodes[n], key)
    ensures InCare(cfgs[n], Apply(cfgs, sys, ev).nodes[n], key)
         || (ev.At? && ev.n == n && (HandsOver(cfgs[n], sys.nodes[n], ev.local, key)
                                     || Discards(cfgs[n], sys.nodes[n], ev.local, key)))
  {
    hide LocalStep, Enabled, Own, Coherent, InCare, Arrives, ValidConfig;
    match ev {
      case At(m, e) =>
        hide HandsOver, Discards;
        if m == n {
          StepCares(cfgs[n], sys.nodes[n], e, key);
        }
      case Deliver(i, env, txs) =>
        var p := sys.packets[i];
        if ReceiveEvent(p, env, txs).Some? && p.dst == n {
          StepCares(cfgs[n], sys.nodes[n], ReceiveEvent(p, env, txs).value, key);
        }
      case _ =>
    }
  }

  // ---------- whole runs ----------

  /** Event i is a step of node n that the run takes. */
  predicate TakenAt(cfgs: seq<Config>, events: seq<Event>, i: nat, n: nat) {
    && i < |events| && n < |cfgs| && events[i].At? && events[i].n == n
    && CanStep(cfgs, Run(cfgs, events[..i]), events[i])
  }

  /** The scheduler of node n looks the key up in event i and does not find it. */
  predicate MissedAt(cfgs: seq<Config>, events: seq<Event>, i: nat, n: nat, key: string) {
    && TakenAt(cfgs, events, i, n) && events[i].local.LookUp?
    && (var s := Past(cfgs, events, i, n);
        s.requestsLeft != [] && s.requestsLeft[0] == key && Get(s.core, key, events[i].local.fails).None?)
  }

  ghost predicate HandedOverSince(cfgs: seq<Config>, events: seq<Event>, since: nat, n: nat, key: string) {
    exists i: nat :: since <= i && TakenAt(cfgs, events, i, n)
        && HandsOver(cfgs[n], Past(cfgs, events, i, n), events[i].local, key)
  }

  ghost predicate DiscardedSince(cfgs: seq<Config>, events: seq<Event>, since: nat, n: nat, key: string) {
    exists i: nat :: since <= i && TakenAt(cfgs, events, i, n)
        && Discards(cfgs[n], Past(cfgs, events, i, n), events[i].local, key)
  }

  lemma MissTakesCare(c: Config, s: NodeState, e: LocalEvent)
    requires Enabled(s, e) && e.LookUp? && Get(s.core, s.requestsLeft[0], e.fails).None?
    ensures InCare(c, LocalStep(c, s, e).state, s.requestsLeft[0])
  {
    var acted := Act(c, s, e);
    assert acted.items == [];
    hide Aggregated, InBatches, FallbackTables.MakeKey, MakeRequestId;
  }

  lemma SinceMore(cfgs: seq<Config>, events: seq<Event>, ev: Event, since: nat, n: nat, key: string)
    requires n < |cfgs|
    ensures HandedOverSince(cfgs, events, since, n, key) ==> HandedOverSince(cfgs, events + [ev], since, n, key)
    ensures DiscardedSince(cfgs, events, since, n, key) ==> DiscardedSince(cfgs, events + [ev], since, n, key)
  {
    hide Run, CanStep, HandsOver, Discards;
    var more := events + [ev];
    forall i: nat | TakenAt(cfgs, events, i, n)
      ensures TakenAt(cfgs, more, i, n) && Past(cfgs, more, i, n) == Past(cfgs, events, i, n) && more[i] == events[i]
    {
      assert more[..i] == events[..i];
    }
    if HandedOverSince(cfgs, events, since, n, key) {
      var i: nat :| since <= i && TakenAt(cfgs, events, i, n)
          && HandsOver(cfgs[n], Past(cfgs, events, i, n), events[i].local, key);
      assert TakenAt(cfgs, more, i, n) && HandsOver(cfgs[n], Past(cfgs, more, i, n), more[i].local, key);
    }
    if DiscardedSince(cfgs, events, since, n, key) {
      var i: nat :| since <= i && TakenAt(cfgs, events, i, n)
          && Discards(cfgs[n], Past(cfgs, events, i, n), events[i].local, key);
      assert TakenAt(cfgs, more, i, n) && Discards(cfgs[n], Past(cfgs, more, i, n), more[i].local, key);
    }
  }

  /** What has become of a key: in care, handed to the forward queue in a Query-BF, or expired in the buffer. */
  ghost predicate AccountedFor(cfgs: seq<Config>, events: seq<Event>, since: nat, n: nat, key: string) {
    n < |cfgs| &&
    (InCare(cfgs[n], Run(cfgs, events).nodes[n], key)
     || HandedOverSince(cfgs, events, since, n, key) || DiscardedSince(cfgs, events, since, n, key))
  }

  lemma AccountedStep(cfgs: seq<Config>, events: seq<Event>, ev: Event, since: nat, n: nat, key: string)
    requires ValidNetwork(cfgs) && since <= |events| && AccountedFor(cfgs, events, since, n, key)
    ensures AccountedFor(cfgs, events + [ev], since, n, key)
  {
    hide InCare, Apply, HandsOver, Discards, HandedOverSince, DiscardedSince, Sane;
    SinceMore(cfgs, events, ev, since, n, key);
    RunStep(cfgs, events, ev);
    hide Run;
    var sys, more := Run(cfgs, events), events + [ev];
    if InCare(cfgs[n], sys.nodes[n], key) && CanStep(cfgs, sys, ev) {
      ReachableSane(cfgs, events);
      hide ValidNetwork;
      ApplyCares(cfgs, sys, ev, n, key);
      if !InCare(cfgs[n], Run(cfgs, more).nodes[n], key) {
        LastStepCounts(cfgs, events, ev, since, n, key);
      }
    }
  }

  lemma {:induction false} LastStepCounts(cfgs: seq<Config>, events: seq<Event>, ev: Event, since: nat, n: nat,
                                          key: string)
    requires since <= |events| && n < |cfgs| && CanStep(cfgs, Run(cfgs, events), ev) && ev.At? && ev.n == n
    ensures var s := Run(cfgs, events).nodes[n];
      && (HandsOver(cfgs[n], s, ev.local, key) ==> HandedOverSince(cfgs, events + [ev], since, n, key))
      && (Discards(cfgs[n], s, ev.local, key) ==> DiscardedSince(cfgs, events + [ev], since, n, key))
  {
    hide Run, HandsOver, Discards, CanStep;
    assert (events + [ev])[..|events|] == events;
    assert TakenAt(cfgs, events + [ev], |events|, n);
  }

  /**
   * From a missed lookup on, in every later state of every interleaving, the requested key is stored at the node, still
   * in the care of its scheduler, fallback or flush thread or of a filter that tests positive for it, was handed to
   * the forward queue in a Query-BF that tests positive for it, or was discarded by the buffer's age limit.
   */
  lemma {:induction false} NeverLost(cfgs: seq<Config>, events: seq<Event>, since: nat, n: nat, key: string)
    requires ValidNetwork(cfgs) && MissedAt(cfgs, events, since, n, key)
    ensures AccountedFor(cfgs, events, since, n, key)
    decreases |events|
  {
    var init, ev := events[..|events| - 1], events[|events| - 1];
    assert init[..since] == events[..since] && events == init + [ev];
    if since < |init| {
      assert MissedAt(cfgs, init, since, n, key) by { hide Run, CanStep; }
      NeverLost(cfgs, init, since, n, key);
      hide AccountedFor;
      AccountedStep(cfgs, init, ev, since, n, key);
    } else {
      RunStep(cfgs, init, ev);
      hide Run, InCare, Enabled, LocalStep;
      MissTakesCare(cfgs[n], Run(cfgs, init).nodes[n], ev.local);
    }
  }
}
