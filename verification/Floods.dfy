/** What duplicate suppression and the rate limiter mean for floods: the tables' guarantees over the network's runs. */
module Floods {
  import opened Collections
  import opened Text
  import opened Wire
  import opened Bloom
  import opened Sends
  import opened NodeModel
  import opened Systems
  import opened Steps
  import opened Coherence
  import Aggregator
  import ContentTables
  import FallbackTables
  import QueryLimiter
  import QueryTables

  // ---------- one node's share of a run ----------

  datatype Taken = Taken(before: NodeState, e: LocalEvent)

  /** The steps node n took, each with its state before it. */
  function TakenBy(cfgs: seq<Config>, events: seq<Event>, n: nat): seq<Taken>
    requires n < |cfgs|
  {
    if events == [] then []
    else
      var init, ev := events[..|events| - 1], events[|events| - 1];
      var sys := Run(cfgs, init);
      TakenBy(cfgs, init, n)
      + (if CanStep(cfgs, sys, ev) && LocalOf(sys, ev).Some? && LocalOf(sys, ev).value.0 == n
         then [Taken(sys.nodes[n], LocalOf(sys, ev).value.1)] else [])
  }

  /** The step's call of the QueryTable: a valid request that arrived, or the node's own new one. */
  function QueryCallOf(t: Taken): Option<QueryTables.Call> {
    match t.e
    case NoteOwn(pruneNow, recordNow) =>
      if t.before.sched.Originated? then Some(QueryTables.Call(t.before.sched.req.requestId, pruneNow, recordNow))
          else None
    case Receive(m, _, _, env, _) =>
      if m.kind == Request && m.requestId != "" && m.origin != "" && m.key != "" && m.ttl > 0
      then Some(QueryTables.Call(m.requestId, env.pruneNow, env.recordNow)) else None
    case _ => None
  }

  function QueryCalls(ts: seq<Taken>): seq<QueryTables.Call> {
    if ts == [] then []
    else
      var call := QueryCallOf(ts[|ts| - 1]);
      QueryCalls(ts[..|ts| - 1]) + (if call.Some? then [call.value] else [])
  }

  /** The step's call of the limiter: a Query-BF that was accepted and has ttl left. */
  function LimiterCallOf(c: Config, t: Taken): Option<QueryLimiter.Call> {
    match t.e
    case Receive(m, _, _, env, _) =>
      if m.kind == QueryBloom && AcceptedQuery(c, m, env).Some? && m.ttl > 1
      then Some(ForwardCall(m.origin, AcceptedQuery(c, m, env).value, env.now)) else None
    case _ => None
  }

  /** Forwards are counted for each origin and filter. */
  function ForwardCall(origin: string, f: Filter, now: int): QueryLimiter.Call {
    QueryLimiter.Call(QueryLimiter.MakeKey(origin, Digest(f)), now)
  }

  function LimiterCalls(c: Config, ts: seq<Taken>): seq<QueryLimiter.Call> {
    if ts == [] then []
    else
      var call := LimiterCallOf(c, ts[|ts| - 1]);
      LimiterCalls(c, ts[..|ts| - 1]) + (if call.Some? then [call.value] else [])
  }

  // ---------- a step changes the two tables by its call, or not at all ----------

  function QueryStateAfter(c: Config, t: Taken): QueryTables.QueryState {
    match QueryCallOf(t)
    case None => t.before.core.query
    case Some(call) => QueryTables.Record(t.before.core.query, call, c.queryTtl)
  }

  function LimiterAfter(c: Config, t: Taken): map<string, QueryLimiter.Entry> {
    match LimiterCallOf(c, t)
    case None => t.before.core.limiter
    case Some(call) => QueryLimiter.After(t.before.core.limiter, call, c.limits)
  }

  lemma HandleQueryTable(c: Config, core: Core, m: Message, from: nat, hops: nat, env: Env)
    requires WellSized(core.content.local)
    ensures Handle(c, core, m, from, hops, env).core.query == if m.kind == Request then QueryAfter(c, core, m, env)
            else core.query
  {
    hide QueryAfter, DecideRequest, Bloom.Add, FromHex, DecideData, AcceptedQuery, Replies, LimiterCall;
    hide QueryLimiter.After, QueryLimiter.Allows;
  }

  lemma HandleLimiter(c: Config, core: Core, m: Message, from: nat, hops: nat, env: Env)
    requires WellSized(core.content.local)
    ensures Handle(c, core, m, from, hops, env).core.limiter ==
      if m.kind == QueryBloom && AcceptedQuery(c, m, env).Some? && m.ttl - 1 > 0
      then QueryLimiter.After(core.limiter, LimiterCall(m, AcceptedQuery(c, m, env).value, env), c.limits)
      else core.limiter
  {
    hide QueryAfter, DecideRequest, Bloom.Add, FromHex, DecideData, AcceptedQuery, Replies, LimiterCall;
    hide QueryLimiter.After, QueryLimiter.Allows;
  }

  lemma ActTables(c: Config, s: NodeState, e: LocalEvent)
    requires Enabled(s, e) && !e.WorkerTake? && !e.WorkerFinish?
    ensures Act(c, s, e).state.core.query == QueryStateAfter(c, Taken(s, e))
    ensures Act(c, s, e).state.core.limiter == LimiterAfter(c, Taken(s, e))
  {
    hide Handle, Bloom.Add, QueryTables.Record, ContentTables.Select, ContentTables.Live, FallbackTables.Schedule;
    hide Aggregator.AddKey, FallbackTables.AfterTake, FallbackTables.Due, Aggregator.AfterFlush, Aggregator.Flushed;
    hide RequestFor, QueryOf, SummaryOf, Get, Enumerates, QueryLimiter.After, QueryLimiter.MakeKey, AcceptedQuery;
    hide Digest;
    if e.Receive? {
      HandleQueryTable(c, s.core, e.msg, e.src, e.hops, e.env);
      HandleLimiter(c, s.core, e.msg, e.src, e.hops, e.env);
    }
  }

  lemma StepTables(c: Config, s: NodeState, e: LocalEvent)
    requires Enabled(s, e)
    ensures LocalStep(c, s, e).state.core.query == QueryStateAfter(c, Taken(s, e))
    ensures LocalStep(c, s, e).state.core.limiter == LimiterAfter(c, Taken(s, e))
  {
    hide LocalStep, Act, Enabled, Items, FromItems, QueryTables.Record, QueryLimiter.After;
    StepFrame(c, s, e);
    var quiet := if e.WorkerTake? || e.WorkerFinish? then s else Act(c, s, e).state;
    if !e.WorkerTake? && !e.WorkerFinish? {
      ActTables(c, s, e);
    }
    var t := LocalStep(c, s, e).state;
    assert t.core == quiet.core.(queue := t.core.queue, sync := t.core.sync);
  }

  /** One event moves node n by the step it gives it, or not at all. */
  lemma ApplyLocal(cfgs: seq<Config>, sys: System, ev: Event, n: nat)
    requires |sys.nodes| == |cfgs| && CanStep(cfgs, sys, ev) && n < |cfgs|
    ensures var l := LocalOf(sys, ev);
      Apply(cfgs, sys, ev).nodes[n] ==
        if l.Some? && l.value.0 == n then LocalStep(cfgs[n], sys.nodes[n], l.value.1).state else sys.nodes[n]
    ensures LocalOf(sys, ev).Some? && LocalOf(sys, ev).value.0 == n ==> Enabled(sys.nodes[n], LocalOf(sys, ev).value.1)
  {
    hide LocalStep, Enabled, Arrives;
  }

  /** The event is a step of node n. */
  predicate IsStepOf(cfgs: seq<Config>, sys: System, ev: Event, n: nat) {
    CanStep(cfgs, sys, ev) && LocalOf(sys, ev).Some? && LocalOf(sys, ev).value.0 == n
  }

  lemma {:induction false} TakenStep(cfgs: seq<Config>, events: seq<Event>, ev: Event, n: nat)
    requires n < |cfgs|
    ensures var sys, ts := Run(cfgs, events), TakenBy(cfgs, events, n);
      if IsStepOf(cfgs, sys, ev, n) then
        && LocalOf(sys, ev).Some?
        && TakenBy(cfgs, events + [ev], n) == ts + [Taken(sys.nodes[n], LocalOf(sys, ev).value.1)]
        && Enabled(sys.nodes[n], LocalOf(sys, ev).value.1)
        && Run(cfgs, events + [ev]).nodes[n] == LocalStep(cfgs[n], sys.nodes[n], LocalOf(sys, ev).value.1).state
      else
        TakenBy(cfgs, events + [ev], n) == ts && Run(cfgs, events + [ev]).nodes[n] == sys.nodes[n]
  {
    RunStep(cfgs, events, ev);
    hide Run, Apply, CanStep, LocalOf, LocalStep, Enabled;
    assert (events + [ev])[..|events|] == events;
    var sys := Run(cfgs, events);
    if CanStep(cfgs, sys, ev) {
      ApplyLocal(cfgs, sys, ev, n);
    }
    assert TakenBy(cfgs, events, n) + [] == TakenBy(cfgs, events, n);
  }

  lemma {:induction false} NothingTaken(cfgs: seq<Config>, n: nat)
    requires n < |cfgs|
    ensures var ts, core := TakenBy(cfgs, [], n), Run(cfgs, []).nodes[n].core;
      && core.query == QueryTables.Run(QueryCalls(ts), cfgs[n].queryTtl)
      && core.limiter == QueryLimiter.Run(LimiterCalls(cfgs[n], ts), cfgs[n].limits)
  {}

  /** A node's QueryTable and limiter are what its own calls, in the run's order, make of fresh ones. */
  lemma {:induction false} TablesAreRuns(cfgs: seq<Config>, events: seq<Event>, n: nat)
    requires n < |cfgs|
    ensures var ts, core := TakenBy(cfgs, events, n), Run(cfgs, events).nodes[n].core;
      && core.query == QueryTables.Run(QueryCalls(ts), cfgs[n].queryTtl)
      && core.limiter == QueryLimiter.Run(LimiterCalls(cfgs[n], ts), cfgs[n].limits)
  {
    hide *;
    if events == [] {
      NothingTaken(cfgs, n);
    } else {
      var init, ev := events[..|events| - 1], events[|events| - 1];
      assert events == init + [ev];
      TablesAreRuns(cfgs, init, n);
      TakenStep(cfgs, init, ev, n);
      var sys, ts := Run(cfgs, init), TakenBy(cfgs, init, n);
      if IsStepOf(cfgs, sys, ev, n) {
        var t := Taken(sys.nodes[n], LocalOf(sys, ev).value.1);
        StepTables(cfgs[n], t.before, t.e);
        CallsStep(cfgs[n], ts, t);
      }
    }
  }

  lemma {:induction false} CallsStep(c: Config, ts: seq<Taken>, t: Taken)
    requires t.before.core.query == QueryTables.Run(QueryCalls(ts), c.queryTtl)
    requires t.before.core.limiter == QueryLimiter.Run(LimiterCalls(c, ts), c.limits)
    ensures QueryStateAfter(c, t) == QueryTables.Run(QueryCalls(ts + [t]), c.queryTtl)
    ensures LimiterAfter(c, t) == QueryLimiter.Run(LimiterCalls(c, ts + [t]), c.limits)
  {
    QueryCallsStep(ts, t);
    LimiterCallsStep(c, ts, t);
    hide QueryCallOf, LimiterCallOf, QueryTables.Record, QueryLimiter.After, QueryCalls, LimiterCalls;
    hide QueryTables.Run, QueryLimiter.Run;
    if QueryCallOf(t).Some? {
      QueryRunStep(QueryCalls(ts), QueryCallOf(t).value, c.queryTtl);
    }
    if LimiterCallOf(c, t).Some? {
      LimiterRunStep(LimiterCalls(c, ts), LimiterCallOf(c, t).value, c.limits);
    }
  }

  lemma {:induction false} QueryCallsStep(ts: seq<Taken>, t: Taken)
    ensures var call := QueryCallOf(t);
            QueryCalls(ts + [t]) == if call.Some? then QueryCalls(ts) + [call.value] else QueryCalls(ts)
  {
    hide QueryCallOf;
    assert (ts + [t])[..|ts|] == ts && QueryCalls(ts) + [] == QueryCalls(ts);
  }

  lemma {:induction false} LimiterCallsStep(c: Config, ts: seq<Taken>, t: Taken)
    ensures var call := LimiterCallOf(c, t);
            LimiterCalls(c, ts + [t]) == if call.Some? then LimiterCalls(c, ts) + [call.value] else LimiterCalls(c, ts)
  {
    hide LimiterCallOf;
    assert (ts + [t])[..|ts|] == ts && LimiterCalls(c, ts) + [] == LimiterCalls(c, ts);
  }

  lemma {:induction false} QueryRunStep(calls: seq<QueryTables.Call>, call: QueryTables.Call, ttl: int)
    ensures QueryTables.Run(calls + [call], ttl) == QueryTables.Record(QueryTables.Run(calls, ttl), call, ttl)
  {
    hide QueryTables.Record;
    assert (calls + [call])[..|calls|] == calls;
  }

  lemma {:induction false} LimiterRunStep(calls: seq<QueryLimiter.Call>, call: QueryLimiter.Call,
                                          limits: QueryLimiter.Limits)
    ensures QueryLimiter.Run(calls + [call], limits)
            == QueryLimiter.After(QueryLimiter.Run(calls, limits), call, limits)
  {
    hide QueryLimiter.After;
    assert (calls + [call])[..|calls|] == calls;
  }

  // ---------- requests ----------

  /** A valid request makes a node send something exactly if its id is new to the QueryTable. */
  lemma RequestActsIfNew(c: Config, core: Core, m: Message, from: nat, hops: nat, env: Env)
    requires WellSized(core.content.local) && InvalidRequest(m) == "" && m.ttl > 0
    ensures HandleRequest(c, core, m, from, hops, env).items != []
            <==> QueryTables.IsNew(core.query, QueryCall(m, env), c.queryTtl)
  {
    hide QueryTables.IsNew, QueryAfter, Get, Bloom.Add;
  }

  /** Some request with this id, received or the node's own, was accepted by the node at most ttl ago. */
  predicate SeenRecently(calls: seq<QueryTables.Call>, ttl: int, call: QueryTables.Call) {
    exists j: nat :: j < |calls| && calls[j].id == call.id && QueryTables.Accepted(calls, ttl, j)
        && call.pruneNow - calls[j].recordNow <= ttl
  }

  lemma {:induction false} NewExactly(calls: seq<QueryTables.Call>, ttl: int, call: QueryTables.Call)
    requires QueryTables.Monotone(calls + [call])
    ensures QueryTables.IsNew(QueryTables.Run(calls, ttl), call, ttl) <==> !SeenRecently(calls, ttl, call)
  {
    hide QueryTables.Monotone, QueryTables.IsNew, QueryTables.Run;
    var all, n := calls + [call], |calls|;
    assert all[..n] == calls;
    QueryTables.DuplicateExactly(all, ttl, n);
    forall j: nat | j < n ensures QueryTables.Accepted(all, ttl, j) <==> QueryTables.Accepted(calls, ttl, j) {
      QueryTables.AcceptedInPrefix(all, ttl, n, j);
    }
  }

  /**
   * In any run, a valid request that reaches a node makes it send exactly if the node has not accepted that id,
   * from any sender or as its own, within the query ttl; this includes ids long pruned from its table.
   */
  lemma {:induction false} FloodSuppressedExactly(cfgs: seq<Config>, events: seq<Event>, n: nat, m: Message, from: nat,
                                                  hops: nat, env: Env, txs: seq<Transmission>)
    requires n < |cfgs| && m.kind == Request && InvalidRequest(m) == "" && m.ttl > 0
    requires Enabled(Run(cfgs, events).nodes[n], Receive(m, from, hops, env, txs))
    requires QueryTables.Monotone(QueryCalls(TakenBy(cfgs, events, n)) + [QueryCall(m, env)])
    ensures Produced(cfgs[n], Run(cfgs, events).nodes[n], Receive(m, from, hops, env, txs)) != []
        <==> !SeenRecently(QueryCalls(TakenBy(cfgs, events, n)), cfgs[n].queryTtl, QueryCall(m, env))
  {
    hide Run, TakenBy, QueryCalls, QueryTables.Monotone, SeenRecently, HandleRequest, QueryTables.IsNew,
         QueryTables.Run, InvalidRequest;
    var calls := QueryCalls(TakenBy(cfgs, events, n));
    TablesAreRuns(cfgs, events, n);
    RequestActsIfNew(cfgs[n], Run(cfgs, events).nodes[n].core, m, from, hops, env);
    NewExactly(calls, cfgs[n].queryTtl, QueryCall(m, env));
    hide Enumerates;
  }

  // ---------- Query-BFs ----------

  /** The step forwards a Query-BF under this limiter key, with a clock reading in [a, b]. */
  predicate Forwards(c: Config, t: Taken, key: string, a: int, b: int) {
    var call := LimiterCallOf(c, t);
    call.Some? && call.value.key == key && a <= call.value.now <= b
        && QueryLimiter.Allows(t.before.core.limiter, call.value, c.limits)
  }

  function CountForwards(c: Config, ts: seq<Taken>, key: string, a: int, b: int): nat {
    if ts == [] then 0
    else CountForwards(c, ts[..|ts| - 1], key, a, b) + (if Forwards(c, ts[|ts| - 1], key, a, b) then 1 else 0)
  }

  predicate HasBroadcast(items: seq<Item>) {
    exists i :: 0 <= i < |items| && items[i].Broadcast?
  }

  lemma {:induction false} RepliesAreDirect(c: Config, core: Core, f: Filter, origin: string, from: nat,
                                            keys: seq<string>, env: Env)
    ensures !HasBroadcast(Replies(c, core, f, origin, from, keys, env))
  {
    hide Answers, MakeRequestId;
    if keys != [] {
      RepliesAreDirect(c, core, f, origin, from, keys[..|keys| - 1], env);
    }
  }

  /** A received Query-BF is broadcast on exactly if the step counts as a forward of its limiter key. */
  lemma BroadcastIsForward(c: Config, s: NodeState, e: LocalEvent, key: string, a: int, b: int)
    requires Enabled(s, e) && e.Receive? && e.msg.kind == QueryBloom
    requires LimiterCallOf(c, Taken(s, e)).Some? ==>
               LimiterCallOf(c, Taken(s, e)).value.key == key && a <= e.env.now <= b
    ensures HasBroadcast(Produced(c, s, e)) <==> Forwards(c, Taken(s, e), key, a, b)
  {
    hide AcceptedQuery, Replies, QueryLimiter.Allows, QueryLimiter.After, QueryLimiter.MakeKey, Digest, Enumerates;
    var m := e.msg;
    if AcceptedQuery(c, m, e.env).Some? {
      var replies := Replies(c, s.core, AcceptedQuery(c, m, e.env).value, m.origin, e.src, e.env.keyOrder, e.env);
      RepliesAreDirect(c, s.core, AcceptedQuery(c, m, e.env).value, m.origin, e.src, e.env.keyOrder, e.env);
      var items := Produced(c, s, e);
      if items != replies {
        assert items[|replies|].Broadcast?;
      }
    }
  }

  /** Over any calls with one more: the last is allowed unless a window of its key is open and full. */
  lemma {:induction false} AllowedExactly(calls: seq<QueryLimiter.Call>, call: QueryLimiter.Call,
                                          l: QueryLimiter.Limits)
    requires QueryLimiter.Monotone(calls + [call]) && l.attemptLimit > 0 && l.window > 0
    ensures QueryLimiter.Allows(QueryLimiter.Run(calls, l), call, l) <==> !WindowFull(calls, call, l)
  {
    var all, n := calls + [call], |calls|;
    assert all[..n] == calls;
    QueryLimiter.DeniedExactly(all, l, n);
    hide QueryLimiter.Run, QueryLimiter.Allows, QueryLimiter.Starts, QueryLimiter.AllowedBetween, QueryLimiter.Monotone;
  }

  /** A window of the call's key was started at most a window length ago, and the limit was reached since. */
  predicate WindowFull(calls: seq<QueryLimiter.Call>, call: QueryLimiter.Call, l: QueryLimiter.Limits) {
    var all := calls + [call];
    exists j :: 0 <= j < |calls| && all[j].key == call.key && QueryLimiter.Starts(all, l, j)
                && call.now - all[j].now <= l.window
                && QueryLimiter.AllowedBetween(all, call.key, l, j, |calls|) >= l.attemptLimit
  }

  /**
   * In any run, a Query-BF that is accepted with ttl left is broadcast on if and only if no window of its origin and
   * filter that is at most the window length old has had as many forwards as the limit.
   */
  lemma {:induction false} ForwardedExactly(cfgs: seq<Config>, events: seq<Event>, n: nat, m: Message, from: nat,
                                            hops: nat, env: Env, txs: seq<Transmission>, f: Filter)
    requires n < |cfgs| && m.kind == QueryBloom && AcceptedQuery(cfgs[n], m, env) == Some(f) && m.ttl > 1
    requires Enabled(Run(cfgs, events).nodes[n], Receive(m, from, hops, env, txs))
    requires cfgs[n].limits.attemptLimit > 0 && cfgs[n].limits.window > 0
    requires var calls := LimiterCalls(cfgs[n], TakenBy(cfgs, events, n));
             QueryLimiter.Monotone(calls + [ForwardCall(m.origin, f, env.now)])
    ensures var c, s := cfgs[n], Run(cfgs, events).nodes[n];
            HasBroadcast(Produced(c, s, Receive(m, from, hops, env, txs))) <==>
              !WindowFull(LimiterCalls(c, TakenBy(cfgs, events, n)), ForwardCall(m.origin, f, env.now), c.limits)
  {
    var c, s, e := cfgs[n], Run(cfgs, events).nodes[n], Receive(m, from, hops, env, txs);
    var calls, call := LimiterCalls(c, TakenBy(cfgs, events, n)), ForwardCall(m.origin, f, env.now);
    assert LimiterCallOf(c, Taken(s, e)) == Some(call) && call.now == env.now;
    hide *;
    TablesAreRuns(cfgs, events, n);
    AllowedExactly(calls, call, c.limits);
    BroadcastIsForward(c, s, e, call.key, env.now, env.now);
    ForwardsIsAllowed(c, Taken(s, e), call);
  }

  lemma ForwardsIsAllowed(c: Config, t: Taken, call: QueryLimiter.Call)
    requires LimiterCallOf(c, t) == Some(call)
    ensures Forwards(c, t, call.key, call.now, call.now) <==> QueryLimiter.Allows(t.before.core.limiter, call, c.limits)
  {}

  lemma {:induction false} CountStep(c: Config, ts: seq<Taken>, t: Taken, key: string, a: int, b: int)
    requires t.before.core.limiter == QueryLimiter.Run(LimiterCalls(c, ts), c.limits)
    requires CountForwards(c, ts, key, a, b) == QueryLimiter.CountAllowed(LimiterCalls(c, ts), key, c.limits, a, b)
    ensures CountForwards(c, ts + [t], key, a, b)
            == QueryLimiter.CountAllowed(LimiterCalls(c, ts + [t]), key, c.limits, a, b)
  {
    hide LimiterCallOf, QueryLimiter.Allows, QueryLimiter.Run, LimiterCalls;
    assert (ts + [t])[..|ts|] == ts;
    LimiterCallsStep(c, ts, t);
    var l := LimiterCalls(c, ts);
    if LimiterCallOf(c, t).Some? {
      var more := l + [LimiterCallOf(c, t).value];
      assert more[..|l|] == l;
    }
  }

  lemma {:induction false} ForwardsAreAllowed(cfgs: seq<Config>, events: seq<Event>, n: nat, key: string, a: int,
                                              b: int)
    requires n < |cfgs|
    ensures CountForwards(cfgs[n], TakenBy(cfgs, events, n), key, a, b)
            == QueryLimiter.CountAllowed(LimiterCalls(cfgs[n], TakenBy(cfgs, events, n)), key, cfgs[n].limits, a, b)
  {
    if events != [] {
      hide *;
      var init, ev := events[..|events| - 1], events[|events| - 1];
      assert events == init + [ev];
      ForwardsAreAllowed(cfgs, init, n, key, a, b);
      TablesAreRuns(cfgs, init, n);
      TakenStep(cfgs, init, ev, n);
      var sys, ts := Run(cfgs, init), TakenBy(cfgs, init, n);
      if IsStepOf(cfgs, sys, ev, n) {
        CountStep(cfgs[n], ts, Taken(sys.nodes[n], LocalOf(sys, ev).value.1), key, a, b);
      }
    }
  }

  /** In any run, a node broadcasts one query (origin and filter digest) on at most limit * (ceil(L / window) + 1) times
      in any closed interval of length L > 0 of its clock. */
  lemma {:induction false} ForwardRate(cfgs: seq<Config>, events: seq<Event>, n: nat, origin: string, digest: uint64,
                                       a: int, b: int)
    requires n < |cfgs| && QueryLimiter.Monotone(LimiterCalls(cfgs[n], TakenBy(cfgs, events, n)))
    requires !QueryLimiter.Unlimited(cfgs[n].limits) && 0 < a < b
    ensures CountForwards(cfgs[n], TakenBy(cfgs, events, n), QueryLimiter.MakeKey(origin, digest), a, b)
            <= cfgs[n].limits.attemptLimit * (QueryLimiter.CeilDiv(b - a, cfgs[n].limits.window) + 1)
  {
    hide TakenBy, LimiterCalls, CountForwards, QueryLimiter.CountAllowed, QueryLimiter.MakeKey;
    var key := QueryLimiter.MakeKey(origin, digest);
    ForwardsAreAllowed(cfgs, events, n, key, a, b);
    QueryLimiter.RateBound(LimiterCalls(cfgs[n], TakenBy(cfgs, events, n)), key, cfgs[n].limits, a, b);
  }
}
