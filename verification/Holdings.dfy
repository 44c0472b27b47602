/** What a node comes to hold: in any run its keys, values, filter and tables are what its own steps made of nothing. */
module Holdings {
  import opened Collections
  import opened Text
  import opened Wire
  import opened Bloom
  import opened Sends
  import opened NodeModel
  import opened Systems
  import opened Steps
  import opened Coherence
  import opened Floods
  import Aggregator
  import ContentTables
  import FallbackTables
  import QueryLimiter
  import QueryTables

  // ---------- what one step adds ----------

  /** DATA that its receiver stores: complete, with ttl left, and an answer to the node's own request. */
  predicate Delivered(c: Config, m: Message) {
    m.kind == Data && m.requestId != "" && m.origin != "" && m.origin == c.nodeId && m.key != "" && m.ttl > 0
  }

  /** A request for a key the node has and can read, and whose id it has not lately accepted. */
  predicate Served(c: Config, core: Core, m: Message, env: Env) {
    && m.kind == Request && m.requestId != "" && m.origin != "" && m.key != "" && m.ttl > 0
    && QueryTables.IsNew(core.query, QueryCall(m, env), c.queryTtl)
    && m.key !in env.getFails && m.key in core.redis
  }

  /** The SET of the step that took effect, whether its reply was seen or not. */
  function WriteOf(c: Config, t: Taken): Option<KeyValue> {
    match t.e
    case Seed(outcome) => if !outcome.Refused? && t.before.seedsLeft != [] then Some(t.before.seedsLeft[0]) else None
    case Receive(m, _, _, env, _) =>
      if Delivered(c, m) && !env.setOutcome.Refused? then Some(KeyValue(m.key, m.value)) else None
    case _ => None
  }

  /** The key the step records as local: one whose SET was seen to succeed, or that was read. */
  function RecordOf(c: Config, t: Taken): Option<string> {
    match t.e
    case Seed(outcome) => if outcome.Stored? && t.before.seedsLeft != [] then Some(t.before.seedsLeft[0].key) else None
    case LookUp(fails, _) =>
      if !fails && t.before.requestsLeft != [] && t.before.requestsLeft[0] in t.before.core.redis
      then Some(t.before.requestsLeft[0]) else None
    case Receive(m, _, _, env, _) =>
      if (Delivered(c, m) && env.setOutcome.Stored?) || Served(c, t.before.core, m, env) then Some(m.key) else None
    case _ => None
  }

  /** The step's call of the neighbour table: a summary that decodes, or a choice. */
  function ContentCallOf(c: Config, t: Taken): Option<ContentTables.Event> {
    match t.e
    case Choose(now, _) => Some(ContentTables.Selecting(now))
    case Receive(m, src, _, env, _) =>
      if m.kind == ContentBloom && m.origin != "" && FromHex(c.contentBits, c.contentHashes, m.key).Some? && m.key != ""
      then Some(ContentTables.Updating(src, FromHex(c.contentBits, c.contentHashes, m.key).value, env.now))
      else None
    case _ => None
  }

  /** The step's call of the fallback table. */
  function FallbackCallOf(c: Config, t: Taken): Option<FallbackTables.Event> {
    match t.e
    case ScheduleFallback(now) =>
      if t.before.sched.Asked?
      then Some(FallbackTables.Scheduling(t.before.sched.req.key, t.before.sched.req.origin, now)) else None
    case TakeDue(now, _) => Some(FallbackTables.Taking(now))
    case Receive(m, _, _, env, _) =>
      if Delivered(c, m) && env.setOutcome.Stored? then Some(FallbackTables.Cancelling(m.key, m.origin)) else None
    case _ => None
  }

  /** The step's call of the aggregator. */
  function BatchCallOf(t: Taken): Option<Aggregator.Event> {
    match t.e
    case Aggregate(now, wall) =>
      if t.before.sched.Unmatched?
      then Some(Aggregator.Adding(t.before.sched.req.origin, t.before.sched.req.key, now, wall)) else None
    case AddDue(now, wall) =>
      if t.before.due != []
      then Some(Aggregator.Adding(t.before.due[0].origin, t.before.due[0].key, now, wall)) else None
    case FlushDue(now, order, resets) => Some(Aggregator.Flushing(now, order, resets))
    case _ => None
  }

  // ---------- what all of them add ----------

  function Listed<T>(o: Option<T>): seq<T> {
    if o.Some? then [o.value] else []
  }

  function Recorded(c: Config, ts: seq<Taken>): seq<string> {
    if ts == [] then [] else Recorded(c, ts[..|ts| - 1]) + Listed(RecordOf(c, ts[|ts| - 1]))
  }

  /** The last SET of each key. */
  function Written(c: Config, ts: seq<Taken>): map<string, string> {
    if ts == [] then map[]
    else
      var w := WriteOf(c, ts[|ts| - 1]);
      var before := Written(c, ts[..|ts| - 1]);
      if w.Some? then before[w.value.key := w.value.value] else before
  }

  function ContentCalls(c: Config, ts: seq<Taken>): seq<ContentTables.Event> {
    if ts == [] then [] else ContentCalls(c, ts[..|ts| - 1]) + Listed(ContentCallOf(c, ts[|ts| - 1]))
  }

  function FallbackCalls(c: Config, ts: seq<Taken>): seq<FallbackTables.Event> {
    if ts == [] then [] else FallbackCalls(c, ts[..|ts| - 1]) + Listed(FallbackCallOf(c, ts[|ts| - 1]))
  }

  function BatchCalls(ts: seq<Taken>): seq<Aggregator.Event> {
    if ts == [] then [] else BatchCalls(ts[..|ts| - 1]) + Listed(BatchCallOf(ts[|ts| - 1]))
  }

  // ---------- one step ----------

  /** The core after a step, but for QueryTable, limiter, SyncTable, counter and queue. */
  ghost predicate Adds(c: Config, t: Taken, core: Core)
    requires WellSized(t.before.core.content.local)
  {
    var was, w, r := t.before.core, WriteOf(c, t), RecordOf(c, t);
    && core.redis == (if w.Some? then was.redis[w.value.key := w.value.value] else was.redis)
    && core.localKeys == (if r.Some? then was.localKeys + {r.value} else was.localKeys)
    && core.content.local == (if r.Some? then Add(was.content.local, r.value) else was.content.local)
    && core.content.neighbors ==
         (match ContentCallOf(c, t)
          case Some(call) => ContentTables.After(was.content.neighbors, call, c.contentTtl)
          case None => was.content.neighbors)
    && core.fallback ==
         (match FallbackCallOf(c, t)
          case Some(call) => FallbackTables.After(was.fallback, call, c.fallbackWindow)
          case None => was.fallback)
    && core.agg ==
         (match BatchCallOf(t)
          case Some(call) => Aggregator.Step(c.batching, Aggregator.Ledger(was.agg, [], []), call).state
          case None => was.agg)
  }

  lemma RequestAdds(c: Config, s: NodeState, m: Message, from: nat, hops: nat, env: Env, txs: seq<Transmission>)
    requires WellSized(s.core.content.local) && m.kind == Request
    ensures Adds(c, Taken(s, Receive(m, from, hops, env, txs)), HandleRequest(c, s.core, m, from, hops, env).core)
  {
    var decision := DecideRequest(c, s.core, m, env);
    assert decision.ServeLocal? <==> Served(c, s.core, m, env);
    hide Bloom.Add, QueryTables.Record, QueryTables.IsNew, DecideRequest, Served, QueryAfter;
    var seen := s.core.(query := QueryAfter(c, s.core, m, env));
    assert HandleRequest(c, s.core, m, from, hops, env).core
           == if decision.ServeLocal? then RecordLocal(seen, m.key) else seen;
    hide HandleRequest;
  }

  lemma DataAdds(c: Config, s: NodeState, m: Message, from: nat, hops: nat, env: Env, txs: seq<Transmission>)
    requires WellSized(s.core.content.local) && m.kind == Data
    ensures Adds(c, Taken(s, Receive(m, from, hops, env, txs)), HandleData(c, s.core, m, env).core)
  {
    assert DecideData(c, m).StoreLocal? <==> Delivered(c, m);
    hide Bloom.Add, FallbackTables.Cancel, DecideData, Delivered;
    var written := s.core.(redis := s.core.redis[m.key := m.value]);
    var cancelled := written.(fallback := FallbackTables.Cancel(written.fallback, m.key, m.origin));
    assert HandleData(c, s.core, m, env).core ==
           if !Delivered(c, m) || env.setOutcome.Refused? then s.core
           else if env.setOutcome.Stored? then RecordLocal(cancelled, m.key) else written;
    hide HandleData;
  }

  lemma ContentAdds(c: Config, s: NodeState, m: Message, from: nat, hops: nat, env: Env, txs: seq<Transmission>)
    requires WellSized(s.core.content.local) && m.kind == ContentBloom
    ensures Adds(c, Taken(s, Receive(m, from, hops, env, txs)), HandleContentBloom(c, s.core, m, from, env).core)
  {
    assert !Delivered(c, m) && !Served(c, s.core, m, env);
    hide FromHex, Delivered, Served, Bloom.Add, Contains, QueryTables.IsNew;
  }

  lemma QueryKeeps(c: Config, core: Core, m: Message, from: nat, hops: nat, env: Env)
    requires WellSized(core.content.local) && (m.kind == QueryBloom || m.kind == Unknown)
    ensures var t := Handle(c, core, m, from, hops, env).core; t == core.(counter := t.counter, limiter := t.limiter)
  {
    hide FromHex, AcceptedQuery, Replies, LimiterCall, QueryLimiter.After, QueryLimiter.Allows, HandleRequest,
         HandleData;
    hide HandleContentBloom;
  }

  lemma QueryAdds(c: Config, s: NodeState, m: Message, from: nat, hops: nat, env: Env, txs: seq<Transmission>)
    requires WellSized(s.core.content.local) && (m.kind == QueryBloom || m.kind == Unknown)
    ensures Adds(c, Taken(s, Receive(m, from, hops, env, txs)), Handle(c, s.core, m, from, hops, env).core)
  {
    QueryKeeps(c, s.core, m, from, hops, env);
    assert !Delivered(c, m) && !Served(c, s.core, m, env);
    hide Handle, Delivered, Served, Bloom.Add, FromHex, ContentTables.After, FallbackTables.After, Aggregator.Step;
  }

  lemma ReceiveAdds(c: Config, s: NodeState, m: Message, from: nat, hops: nat, env: Env, txs: seq<Transmission>)
    requires WellSized(s.core.content.local)
    ensures Adds(c, Taken(s, Receive(m, from, hops, env, txs)), Handle(c, s.core, m, from, hops, env).core)
  {
    hide Adds, HandleRequest, HandleData, HandleContentBloom, HandleQueryBloom;
    match m.kind {
      case Request => RequestAdds(c, s, m, from, hops, env, txs);
      case Data => DataAdds(c, s, m, from, hops, env, txs);
      case ContentBloom => ContentAdds(c, s, m, from, hops, env, txs);
      case _ => QueryAdds(c, s, m, from, hops, env, txs);
    }
  }

  lemma SeedAdds(c: Config, s: NodeState, outcome: SetOutcome)
    requires Enabled(s, Seed(outcome))
    ensures Adds(c, Taken(s, Seed(outcome)), Act(c, s, Seed(outcome)).state.core)
  {
    hide Bloom.Add;
    var kv := s.seedsLeft[0];
    var written := s.core.(redis := s.core.redis[kv.key := kv.value]);
    assert Act(c, s, Seed(outcome)).state.core ==
           if outcome.Refused? then s.core else if outcome.Stored? then RecordLocal(written, kv.key) else written;
    hide Act, Enabled;
  }

  lemma LookUpAdds(c: Config, s: NodeState, fails: bool, millis: uint64)
    requires Enabled(s, LookUp(fails, millis))
    ensures Adds(c, Taken(s, LookUp(fails, millis)), Act(c, s, LookUp(fails, millis)).state.core)
  {
    hide Bloom.Add, RequestFor;
    var counted := s.core.(counter := Advance(s.core.counter, 1));
    assert Act(c, s, LookUp(fails, millis)).state.core ==
           if Get(s.core, s.requestsLeft[0], fails).Some? then RecordLocal(counted, s.requestsLeft[0]) else counted;
    hide Act, Enabled;
  }

  predicate CallsTable(e: LocalEvent) {
    e.Choose? || e.ScheduleFallback? || e.Aggregate? || e.TakeDue? || e.AddDue? || e.FlushDue?
  }

  lemma CallAdds(c: Config, s: NodeState, e: LocalEvent)
    requires Enabled(s, e) && CallsTable(e)
    ensures Adds(c, Taken(s, e), Act(c, s, e).state.core)
  {
    hide Handle, Bloom.Add, QueryTables.Record, ContentTables.Select, ContentTables.Live, FallbackTables.Schedule;
    hide Aggregator.AddKey, FallbackTables.AfterTake, FallbackTables.Due, Aggregator.AfterFlush, Aggregator.Flushed;
    hide RequestFor, QueryOf, SummaryOf, Enumerates, Aggregator.Discarded, RecordLocal, Get;
  }

  lemma NothingAdds(c: Config, s: NodeState, e: LocalEvent)
    requires Enabled(s, e) && !e.WorkerTake? && !e.WorkerFinish? && !e.Receive? && !e.Seed? && !e.LookUp?
    requires !CallsTable(e)
    ensures Adds(c, Taken(s, e), Act(c, s, e).state.core)
  {
    var t := Act(c, s, e).state.core;
    assert t == s.core.(query := t.query, started := t.started) by {
      hide QueryTables.Record, QueryOf, SummaryOf, RequestFor, RecordLocal, Get, Enumerates;
    }
    hide Act, ContentTables.After, FallbackTables.After, Aggregator.Step, Bloom.Add, FromHex, Enumerates;
  }

  lemma ActAdds(c: Config, s: NodeState, e: LocalEvent)
    requires Enabled(s, e) && !e.WorkerTake? && !e.WorkerFinish?
    ensures Adds(c, Taken(s, e), Act(c, s, e).state.core)
  {
    hide Adds, Handle;
    if e.Receive? {
      ReceiveAdds(c, s, e.msg, e.src, e.hops, e.env, e.txs);
      hide Enabled;
    } else {
      hide Act, Enabled;
      if e.Seed? {
        SeedAdds(c, s, e.outcome);
      } else if e.LookUp? {
        LookUpAdds(c, s, e.fails, e.millis);
      } else if CallsTable(e) {
        CallAdds(c, s, e);
      } else {
        NothingAdds(c, s, e);
      }
    }
  }

  lemma StepAdds(c: Config, s: NodeState, e: LocalEvent)
    requires Enabled(s, e)
    ensures Adds(c, Taken(s, e), LocalStep(c, s, e).state.core)
  {
    StepFrame(c, s, e);
    if !e.WorkerTake? && !e.WorkerFinish? {
      ActAdds(c, s, e);
      hide LocalStep, Act, Enabled, Items, FromItems, WriteOf, RecordOf, ContentCallOf, FallbackCallOf, BatchCallOf;
      var quiet, t := Act(c, s, e).state, LocalStep(c, s, e).state;
      assert t.core == quiet.core.(queue := t.core.queue, sync := t.core.sync);
    } else {
      hide LocalStep, Act, Items, FromItems;
      var t := LocalStep(c, s, e).state;
      assert t.core == s.core.(queue := t.core.queue, sync := t.core.sync);
    }
  }

  // ---------- whole runs ----------

  /** The node's tables are those its steps made. */
  ghost predicate MadeBy(c: Config, core: Core, ts: seq<Taken>)
    requires WellSized(Empty(c.contentBits, c.contentHashes))
  {
    && core.redis == Written(c, ts)
    && core.localKeys == SetOf(Recorded(c, ts))
    && core.content.local == AddAll(Empty(c.contentBits, c.contentHashes), Recorded(c, ts))
    && core.content.neighbors == ContentTables.Run(ContentCalls(c, ts), c.contentTtl)
    && core.fallback == FallbackTables.Run(FallbackCalls(c, ts), c.fallbackWindow)
    && core.agg == Aggregator.Run(c.batching, BatchCalls(ts)).state
  }

  lemma {:induction false} LastOf<T>(s: seq<T>, x: T)
    ensures (s + [x])[..|s|] == s && (s + [x])[|s|] == x && s + [] == s
  {}

  lemma {:induction false} RecordStep(c: Config, ts: seq<Taken>, t: Taken, f: Filter)
    requires WellSized(f)
    ensures var keys, more, r := Recorded(c, ts), Recorded(c, ts + [t]), RecordOf(c, t);
      && SetOf(more) == (if r.Some? then SetOf(keys) + {r.value} else SetOf(keys))
      && AddAll(f, more) == (if r.Some? then Add(AddAll(f, keys), r.value) else AddAll(f, keys))
  {
    hide RecordOf, Add;
    LastOf(ts, t);
    var keys, r := Recorded(c, ts), RecordOf(c, t);
    if r.Some? {
      LastOf(keys, r.value);
      assert SetOf(keys + [r.value]) == SetOf(keys) + {r.value};
    } else {
      assert keys + [] == keys;
    }
  }

  lemma {:induction false} WriteStep(c: Config, ts: seq<Taken>, t: Taken)
    ensures var w := WriteOf(c, t);
            Written(c, ts + [t]) == if w.Some? then Written(c, ts)[w.value.key := w.value.value] else Written(c, ts)
  {
    hide WriteOf;
    LastOf(ts, t);
  }

  lemma {:induction false} CallsAdd(c: Config, ts: seq<Taken>, t: Taken)
    ensures ContentTables.Run(ContentCalls(c, ts + [t]), c.contentTtl) ==
            (match ContentCallOf(c, t)
             case Some(call) =>
               ContentTables.After(ContentTables.Run(ContentCalls(c, ts), c.contentTtl), call, c.contentTtl)
             case None => ContentTables.Run(ContentCalls(c, ts), c.contentTtl))
    ensures FallbackTables.Run(FallbackCalls(c, ts + [t]), c.fallbackWindow) ==
            (match FallbackCallOf(c, t)
             case Some(call) =>
               FallbackTables.After(FallbackTables.Run(FallbackCalls(c, ts), c.fallbackWindow), call, c.fallbackWindow)
             case None => FallbackTables.Run(FallbackCalls(c, ts), c.fallbackWindow))
  {
    hide ContentCallOf, FallbackCallOf, ContentTables.After, FallbackTables.After;
    LastOf(ts, t);
    var contents, fallbacks := ContentCalls(c, ts), FallbackCalls(c, ts);
    if ContentCallOf(c, t).Some? {
      LastOf(contents, ContentCallOf(c, t).value);
    } else {
      assert contents + [] == contents;
    }
    if FallbackCallOf(c, t).Some? {
      LastOf(fallbacks, FallbackCallOf(c, t).value);
    } else {
      assert fallbacks + [] == fallbacks;
    }
  }

  lemma {:induction false} BatchesAdd(p: Aggregator.Params, ts: seq<Taken>, t: Taken)
    ensures Aggregator.Run(p, BatchCalls(ts + [t])).state ==
            (match BatchCallOf(t)
             case Some(call) =>
               Aggregator.Step(p, Aggregator.Ledger(Aggregator.Run(p, BatchCalls(ts)).state, [], []), call).state
             case None => Aggregator.Run(p, BatchCalls(ts)).state)
  {
    hide BatchCallOf, Aggregator.AddKey, Aggregator.AfterFlush, Aggregator.Flushed, Aggregator.Discarded;
    LastOf(ts, t);
    var calls := BatchCalls(ts);
    if BatchCallOf(t).Some? {
      LastOf(calls, BatchCallOf(t).value);
    } else {
      assert calls + [] == calls;
    }
  }

  lemma {:induction false} MadeByStep(c: Config, t: Taken, core: Core, ts: seq<Taken>)
    requires WellSized(Empty(c.contentBits, c.contentHashes)) && MadeBy(c, t.before.core, ts)
    requires WellSized(t.before.core.content.local) && Adds(c, t, core)
    ensures MadeBy(c, core, ts + [t])
  {
    WriteStep(c, ts, t);
    RecordStep(c, ts, t, Empty(c.contentBits, c.contentHashes));
    CallsAdd(c, ts, t);
    BatchesAdd(c.batching, ts, t);
    hide WriteOf, RecordOf, ContentCallOf, FallbackCallOf, BatchCallOf, Recorded, Written, ContentCalls, FallbackCalls;
    hide BatchCalls, AddAll, ContentTables.Run, FallbackTables.Run, Aggregator.Run, Aggregator.Step;
    hide ContentTables.After, FallbackTables.After, Add;
  }

  lemma {:induction false} NothingMade(cfgs: seq<Config>, n: nat)
    requires n < |cfgs| && WellSized(Empty(cfgs[n].contentBits, cfgs[n].contentHashes))
    ensures MadeBy(cfgs[n], Run(cfgs, []).nodes[n].core, TakenBy(cfgs, [], n))
  {
    FreshNode(cfgs, n);
  }

  /**
   * In any run: Redis holds the last value of each SET that took effect, the local keys and the filter are those of the
   * keys recorded, and the tables of summaries, fallbacks and batches are what the node's own calls make of empty ones.
   */
  lemma {:induction false} HoldsExactly(cfgs: seq<Config>, events: seq<Event>, n: nat)
    requires n < |cfgs| && WellSized(Empty(cfgs[n].contentBits, cfgs[n].contentHashes))
    ensures MadeBy(cfgs[n], Run(cfgs, events).nodes[n].core, TakenBy(cfgs, events, n))
  {
    hide *;
    if events == [] {
      NothingMade(cfgs, n);
    } else {
      var init, ev := events[..|events| - 1], events[|events| - 1];
      assert events == init + [ev];
      HoldsExactly(cfgs, init, n);
      TakenStep(cfgs, init, ev, n);
      var sys, ts := Run(cfgs, init), TakenBy(cfgs, init, n);
      if IsStepOf(cfgs, sys, ev, n) {
        var t := Taken(sys.nodes[n], LocalOf(sys, ev).value.1);
        EnabledIsSized(t.before, t.e);
        StepAdds(cfgs[n], t.before, t.e);
        MadeByStep(cfgs[n], t, LocalStep(cfgs[n], t.before, t.e).state.core, ts);
      }
    }
  }

  /** The three tables alone. */
  lemma {:induction false} TablesHold(cfgs: seq<Config>, events: seq<Event>, n: nat)
    requires ValidNetwork(cfgs) && n < |cfgs|
    ensures var c, core, ts := cfgs[n], Run(cfgs, events).nodes[n].core, TakenBy(cfgs, events, n);
      && c.fallbackWindow > 0
      && core.content.neighbors == ContentTables.Run(ContentCalls(c, ts), c.contentTtl)
      && core.fallback == FallbackTables.Run(FallbackCalls(c, ts), c.fallbackWindow)
      && core.agg == Aggregator.Run(c.batching, BatchCalls(ts)).state
  {
    HoldsExactly(cfgs, events, n);
    hide Run, TakenBy, Recorded, Written, ContentCalls, FallbackCalls, BatchCalls, AddAll, ContentTables.Run;
    hide FallbackTables.Run, Aggregator.Run;
  }

  lemma EnabledIsSized(s: NodeState, e: LocalEvent)
    requires Enabled(s, e)
    ensures WellSized(s.core.content.local)
  {}

  // ---------- what follows ----------

  predicate Writes(c: Config, t: Taken, key: string) {
    WriteOf(c, t).Some? && WriteOf(c, t).value.key == key
  }

  lemma {:induction false} WrittenExactly(c: Config, ts: seq<Taken>, key: string)
    ensures key in Written(c, ts) <==> exists i :: 0 <= i < |ts| && Writes(c, ts[i], key)
  {
    hide WriteOf;
    if ts != [] {
      var init, t := ts[..|ts| - 1], ts[|ts| - 1];
      WrittenExactly(c, init, key);
      assert ts == init + [t];
      assert Writes(c, t, key) ==> Writes(c, ts[|ts| - 1], key);
      assert forall i :: 0 <= i < |init| ==> init[i] == ts[i];
    }
  }

  lemma {:induction false} RecordedExactly(c: Config, ts: seq<Taken>, key: string)
    ensures key in Recorded(c, ts) <==> exists i :: 0 <= i < |ts| && RecordOf(c, ts[i]) == Some(key)
  {
    hide RecordOf;
    if ts != [] {
      var init, t := ts[..|ts| - 1], ts[|ts| - 1];
      RecordedExactly(c, init, key);
      assert ts == init + [t];
      assert forall i :: 0 <= i < |init| ==> init[i] == ts[i];
    }
  }

  /**
   * In any run a node has a key in Redis that it does not list, and so answers no Query-BF for, if and only if the key
   * was once written, and never with its reply seen, read for the node itself or served.
   */
  lemma {:induction false} UnlistedExactly(cfgs: seq<Config>, events: seq<Event>, n: nat, key: string)
    requires n < |cfgs| && WellSized(Empty(cfgs[n].contentBits, cfgs[n].contentHashes))
    ensures var core, ts := Run(cfgs, events).nodes[n].core, TakenBy(cfgs, events, n);
            key in core.redis && key !in core.localKeys <==>
              && (exists i :: 0 <= i < |ts| && Writes(cfgs[n], ts[i], key))
              && (forall i :: 0 <= i < |ts| ==> RecordOf(cfgs[n], ts[i]) != Some(key))
  {
    HoldsExactly(cfgs, events, n);
    var ts := TakenBy(cfgs, events, n);
    WrittenExactly(cfgs[n], ts, key);
    RecordedExactly(cfgs[n], ts, key);
    hide Run, TakenBy, Recorded, Written, RecordOf, Writes, AddAll, ContentCalls, FallbackCalls, BatchCalls;
    hide ContentTables.Run, FallbackTables.Run, Aggregator.Run;
  }

  /**
   * The scheduler's choice in any run with a monotone clock: a neighbour whose latest summary is positive and
   * came within the ttl, or none, exactly if there is no such neighbour.
   */
  lemma {:induction false} ChoosesExactly(cfgs: seq<Config>, events: seq<Event>, n: nat, now: int, order: seq<nat>)
    requires ValidNetwork(cfgs) && n < |cfgs|
    requires Enabled(Run(cfgs, events).nodes[n], Choose(now, order))
    requires var calls := ContentCalls(cfgs[n], TakenBy(cfgs, events, n));
             ContentTables.Monotone(calls) && forall i :: 0 <= i < |calls| ==> calls[i].now <= now
    ensures var c, s := cfgs[n], Run(cfgs, events).nodes[n];
            var calls, t := ContentCalls(c, TakenBy(cfgs, events, n)), LocalStep(c, s, Choose(now, order)).state;
            match t.sched
            case Chosen(req, a) =>
              req == s.sched.req && exists j: nat :: ContentTables.Offers(calls, c.contentTtl, a, req.key, now, j)
            case Unmatched(req) =>
              req == s.sched.req && forall a, j: nat :: !ContentTables.Offers(calls, c.contentTtl, a, req.key, now, j)
            case _ => false
  {
    hide *;
    var c, s := cfgs[n], Run(cfgs, events).nodes[n];
    TablesHold(cfgs, events, n);
    ChoiceStep(c, s, now, order);
    var calls := ContentCalls(c, TakenBy(cfgs, events, n));
    ContentTables.SelectsExactly(calls, s.core.content.local, c.contentTtl, s.sched.req.key, now, order);
    assert s.core.content == ContentTables.ContentState(s.core.content.local, s.core.content.neighbors);
  }

  lemma ChoiceStep(c: Config, s: NodeState, now: int, order: seq<nat>)
    requires Enabled(s, Choose(now, order))
    ensures s.sched.Noted? && Enumerates(order, s.core.content.neighbors.Keys)
    ensures LocalStep(c, s, Choose(now, order)).state.sched ==
            match ContentTables.Select(s.core.content, s.sched.req.key, now, c.contentTtl, order)
            case Some(a) => Chosen(s.sched.req, a)
            case None => Unmatched(s.sched.req)
  {
    var acted := Act(c, s, Choose(now, order));
    assert SendAll(c, acted.state.core, [], []) == Sent(acted.state.core, []);
    hide ContentTables.Select, ContentTables.Live;
  }

  /**
   * The fallback thread in any run: it takes a key exactly if the latest direct request for it was a window ago
   * or more, and since then its DATA was not stored and it was not taken.
   */
  lemma {:induction false} TakesExactly(cfgs: seq<Config>, events: seq<Event>, n: nat, now: int, order: seq<string>,
                                        key: string, origin: string)
    requires ValidNetwork(cfgs) && n < |cfgs| && Enabled(Run(cfgs, events).nodes[n], TakeDue(now, order))
    ensures var c, s := cfgs[n], Run(cfgs, events).nodes[n];
            var calls := FallbackCalls(c, TakenBy(cfgs, events, n));
            FallbackTables.Pending(key, origin) in LocalStep(c, s, TakeDue(now, order)).state.due <==>
              exists j: nat ::
                && FallbackTables.StillFiled(calls, c.fallbackWindow, FallbackTables.MakeKey(origin, key), j)
                && calls[j].key == key && calls[j].origin == origin && now >= calls[j].now + c.fallbackWindow
  {
    hide *;
    var c, s := cfgs[n], Run(cfgs, events).nodes[n];
    TablesHold(cfgs, events, n);
    TakeStep(c, s, now, order);
    var calls := FallbackCalls(c, TakenBy(cfgs, events, n));
    FallbackTables.HandedOutExactly(calls, c.fallbackWindow, now, order, key, origin);
  }

  lemma {:induction false} TakeStep(c: Config, s: NodeState, now: int, order: seq<string>)
    requires Enabled(s, TakeDue(now, order))
    ensures Enumerates(order, s.core.fallback.Keys)
    ensures LocalStep(c, s, TakeDue(now, order)).state.due
            == FallbackTables.Due(s.core.fallback, now, c.fallbackWindow, order)
  {
    var acted := Act(c, s, TakeDue(now, order));
    assert SendAll(c, acted.state.core, [], []) == Sent(acted.state.core, []);
    hide FallbackTables.Due, FallbackTables.AfterTake;
  }

  lemma {:induction false} TimedStep(p: Aggregator.Params, calls: seq<Aggregator.Event>, call: Aggregator.Event)
    requires Aggregator.WellTimed(p, calls)
    requires match call
             case Adding(_, _, _, wall) => wall.first > 0 && wall.expired > 0 && wall.split > 0
             case Flushing(_, order, resets) =>
               && Enumerates(order, Aggregator.Run(p, calls).state.buffers.Keys)
               && forall o :: o in resets ==> resets[o] > 0
    ensures Aggregator.WellTimed(p, calls + [call])
  {
    var more := calls + [call];
    forall i | 0 <= i < |more| ensures more[..i] == if i < |calls| then calls[..i] else calls {}
    hide Aggregator.Run, Enumerates;
  }

  /** The calls of the aggregator in a run: flushes visit every buffer, and the wall clock is positive. */
  lemma {:induction false} CallsAreTimed(cfgs: seq<Config>, events: seq<Event>, n: nat)
    requires n < |cfgs| && WellSized(Empty(cfgs[n].contentBits, cfgs[n].contentHashes))
    ensures Aggregator.WellTimed(cfgs[n].batching, BatchCalls(TakenBy(cfgs, events, n)))
  {
    if events != [] {
      var init, ev := events[..|events| - 1], events[|events| - 1];
      assert events == init + [ev];
      CallsAreTimed(cfgs, init, n);
      TakenStep(cfgs, init, ev, n);
      HoldsExactly(cfgs, init, n);
      var sys, ts := Run(cfgs, init), TakenBy(cfgs, init, n);
      hide Run, TakenBy, CanStep, LocalOf, Enabled, LocalStep, Aggregator.WellTimed, Aggregator.Run, BatchCallOf;
      if IsStepOf(cfgs, sys, ev, n) {
        var t := Taken(sys.nodes[n], LocalOf(sys, ev).value.1);
        var calls := BatchCalls(ts);
        LastOf(ts, t);
        if BatchCallOf(t).Some? {
          EnabledCall(t);
          TimedStep(cfgs[n].batching, calls, BatchCallOf(t).value);
        } else {
          assert calls + [] == calls;
        }
      }
    }
  }

  lemma EnabledCall(t: Taken)
    requires Enabled(t.before, t.e) && BatchCallOf(t).Some?
    ensures match BatchCallOf(t).value
            case Adding(_, _, _, wall) => wall.first > 0 && wall.expired > 0 && wall.split > 0
            case Flushing(_, order, resets) =>
              Enumerates(order, t.before.core.agg.buffers.Keys) && forall o :: o in resets ==> resets[o] > 0
  {}

  /**
   * The flush thread in any run: of an origin, exactly the keys added since the event that last created or reset its
   * buffer leave unsplit, and they leave if and only if that event was a window ago or more.
   */
  lemma {:induction false} FlushesExactly(cfgs: seq<Config>, events: seq<Event>, n: nat, o: string, now: int,
                                          order: seq<string>, resets: map<string, int>) returns (j: nat)
    requires ValidNetwork(cfgs) && n < |cfgs| && Enabled(Run(cfgs, events).nodes[n], FlushDue(now, order, resets))
    requires var calls := BatchCalls(TakenBy(cfgs, events, n));
             exists i :: 0 <= i < |calls| && Aggregator.AddsTo(calls[i], o)
    ensures var p, calls, s := cfgs[n].batching, BatchCalls(TakenBy(cfgs, events, n)), Run(cfgs, events).nodes[n];
      var batches := LocalStep(cfgs[n], s, FlushDue(now, order, resets)).state.batches;
      && Aggregator.LastRestart(p, calls, o, |calls|, j)
      && (var keys := Aggregator.AddedSince(calls, o, Aggregator.FirstKept(p, calls, j), |calls|);
          var batch := Aggregator.Batch(o, Aggregator.RestartMs(p, calls, o, j), keys);
          var due := keys != [] && (p.window <= 0 || now - calls[j].now >= p.window);
          && s.core.agg.pending <= batches
          && (forall b :: b in batches[|s.core.agg.pending|..] && b.origin == o ==> b == batch && due)
          && (due ==> batch in batches[|s.core.agg.pending|..]))
  {
    var c, s := cfgs[n], Run(cfgs, events).nodes[n];
    TablesHold(cfgs, events, n);
    CallsAreTimed(cfgs, events, n);
    FlushStep(c, s, now, order, resets);
    hide Run, TakenBy, BatchCalls, Aggregator.Run, Aggregator.AfterFlush, Aggregator.Flushed, LocalStep, Enabled;
    hide Aggregator.WellTimed, Enumerates, Aggregator.AddedSince, Aggregator.LastRestart, Aggregator.RestartMs;
    hide Aggregator.FirstKept, Aggregator.Waiting;
    j := Aggregator.LeavesExactly(c.batching, BatchCalls(TakenBy(cfgs, events, n)), o, now, order, resets);
  }

  lemma FlushStep(c: Config, s: NodeState, now: int, order: seq<string>, resets: map<string, int>)
    requires Enabled(s, FlushDue(now, order, resets))
    ensures Enumerates(order, s.core.agg.buffers.Keys)
    ensures LocalStep(c, s, FlushDue(now, order, resets)).state.batches
            == Aggregator.Flushed(c.batching, s.core.agg, now, order)
    ensures s.core.agg.pending <= Aggregator.Flushed(c.batching, s.core.agg, now, order)
  {
    var acted := Act(c, s, FlushDue(now, order, resets));
    assert SendAll(c, acted.state.core, [], []) == Sent(acted.state.core, []);
    hide Aggregator.DueBatches, Aggregator.AfterFlush;
  }
}
