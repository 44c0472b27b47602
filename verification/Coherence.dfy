/** Local keys, Redis, the content filter and the neighbours' copies of it, over whole runs. */
module Coherence {
  import opened Collections
  import opened Text
  import opened Wire
  import opened Bloom
  import opened Sends
  import opened NodeModel
  import opened Systems
  import opened Arrivals
  import opened Steps
  import opened NodeInvariants
  import opened Histories
  import opened Reachability
  import Aggregator
  import ContentTables
  import FallbackTables
  import QueryLimiter
  import QueryTables

  // ---------- every node is its own, whatever arrives ----------

  ghost predicate Sane(cfgs: seq<Config>, sys: System) {
    |sys.nodes| == |cfgs| &&
    forall n :: 0 <= n < |cfgs| ==> Own(cfgs[n], sys.nodes[n]) && Coherent(cfgs[n], sys.nodes[n].core)
  }

  lemma SaneQuiet(c: Config, s: NodeState, t: NodeState)
    requires Quiet(s) == Quiet(t) && Own(c, t) && Coherent(c, t.core)
    ensures Own(c, s) && Coherent(c, s.core)
  {
    assert s.core == t.core.(queue := s.core.queue, sync := s.core.sync);
    assert s == t.(core := s.core, hands := s.hands);
    hide OwnAgg, OwnFallback, Contains;
  }

  lemma StepSane(c: Config, s: NodeState, e: LocalEvent)
    requires ValidConfig(c) && Enabled(s, e) && Own(c, s) && Coherent(c, s.core)
    ensures Own(c, LocalStep(c, s, e).state) && Coherent(c, LocalStep(c, s, e).state.core)
  {
    hide LocalStep, Act, Enabled, Own, Coherent, Quiet, Produced, Items, FromItems, ValidConfig;
    StepFrame(c, s, e);
    if e.WorkerTake? || e.WorkerFinish? {
      SaneQuiet(c, LocalStep(c, s, e).state, s);
    } else {
      ActOwn(c, s, e);
      ActCoherent(c, s, e);
      SaneQuiet(c, LocalStep(c, s, e).state, Act(c, s, e).state);
    }
  }

  lemma ApplySane(cfgs: seq<Config>, sys: System, ev: Event)
    requires ValidNetwork(cfgs) && Sane(cfgs, sys) && CanStep(cfgs, sys, ev)
    ensures Sane(cfgs, Apply(cfgs, sys, ev))
  {
    hide LocalStep, Enabled, Own, Coherent, Arrives;
    match ev {
      case At(n, e) => StepSane(cfgs[n], sys.nodes[n], e);
      case Deliver(i, env, txs) =>
        var p := sys.packets[i];
        if ReceiveEvent(p, env, txs).Some? {
          StepSane(cfgs[p.dst], sys.nodes[p.dst], ReceiveEvent(p, env, txs).value);
        }
      case _ =>
    }
  }

  /**
   * In every reachable state, whatever the network carries, every local key is in Redis and positive in the local
   * filter.
   */
  lemma {:induction false} ReachableSane(cfgs: seq<Config>, events: seq<Event>)
    requires ValidNetwork(cfgs)
    ensures Sane(cfgs, Run(cfgs, events))
  {
    hide Own, Coherent;
    if events == [] {
      InitialGood(cfgs, {});
    } else {
      var init, ev := events[..|events| - 1], events[|events| - 1];
      ReachableSane(cfgs, init);
      hide Apply, CanStep;
      if CanStep(cfgs, Run(cfgs, init), ev) {
        ApplySane(cfgs, Run(cfgs, init), ev);
      }
    }
  }

  // ---------- local keys and Redis agree exactly while no new key's reply is lost ----------

  /** The local event an event makes its node take. */
  function LocalOf(sys: System, ev: Event): Option<(nat, LocalEvent)> {
    match ev
    case At(n, e) => Some((n, e))
    case Deliver(i, env, txs) =>
      if i < |sys.packets| && ReceiveEvent(sys.packets[i], env, txs).Some?
      then Some((sys.packets[i].dst, ReceiveEvent(sys.packets[i], env, txs).value)) else None
    case _ => None
  }

  /** Redis stored a key it did not have, but the node saw its SET fail. */
  predicate LosesNewKey(c: Config, s: NodeState, e: LocalEvent) {
    match e
    case Seed(outcome) => outcome.ReplyLost? && s.seedsLeft != [] && s.seedsLeft[0].key !in s.core.redis
    case Receive(m, _, _, env, _) =>
      m.kind == Data && DecideData(c, m).StoreLocal? && env.setOutcome.ReplyLost? && m.key !in s.core.redis
    case _ => false
  }

  predicate Tracked(core: Core) {
    core.redis.Keys == core.localKeys
  }

  lemma DataTracked(c: Config, core: Core, m: Message, env: Env)
    requires Coherent(c, core) && Tracked(core)
    ensures Tracked(HandleData(c, core, m, env).core)
        <==> !(DecideData(c, m).StoreLocal? && env.setOutcome.ReplyLost? && m.key !in core.redis)
  {
    hide DecideData, Bloom.Add, FallbackTables.Cancel;
    var written := core.redis[m.key := m.value];
    assert written.Keys == core.redis.Keys + {m.key};
  }

  lemma RequestTracked(c: Config, core: Core, m: Message, from: nat, hops: nat, env: Env)
    requires Coherent(c, core) && Tracked(core)
    ensures Tracked(HandleRequest(c, core, m, from, hops, env).core)
  {
    if DecideRequest(c, core, m, env).ServeLocal? {
      assert m.key in core.redis;
    }
    hide DecideRequest, QueryAfter, Bloom.Add;
  }

  lemma QueryTracked(c: Config, core: Core, m: Message, from: nat, hops: nat, env: Env)
    requires Tracked(core)
    ensures Tracked(HandleQueryBloom(c, core, m, from, hops, env).core)
    ensures Tracked(HandleContentBloom(c, core, m, from, env).core)
  {
    hide AcceptedQuery, Replies, LimiterCall, QueryLimiter.After, QueryLimiter.Allows, FromHex;
  }

  lemma HandleTracked(c: Config, core: Core, m: Message, from: nat, hops: nat, env: Env)
    requires Coherent(c, core) && Tracked(core)
    ensures Tracked(Handle(c, core, m, from, hops, env).core)
        <==> !(m.kind == Data && DecideData(c, m).StoreLocal? && env.setOutcome.ReplyLost? && m.key !in core.redis)
  {
    DataTracked(c, core, m, env);
    RequestTracked(c, core, m, from, hops, env);
    QueryTracked(c, core, m, from, hops, env);
    hide HandleRequest, HandleData, HandleQueryBloom, HandleContentBloom, DecideData, Tracked;
  }

  lemma SeedTracked(c: Config, s: NodeState, outcome: SetOutcome)
    requires Enabled(s, Seed(outcome)) && Tracked(s.core)
    ensures Tracked(Act(c, s, Seed(outcome)).state.core) <==> !LosesNewKey(c, s, Seed(outcome))
  {
    hide Bloom.Add;
    var kv := s.seedsLeft[0];
    assert s.core.redis[kv.key := kv.value].Keys == s.core.redis.Keys + {kv.key};
  }

  lemma LookUpTracked(c: Config, s: NodeState, fails: bool, millis: uint64)
    requires Enabled(s, LookUp(fails, millis)) && Tracked(s.core)
    ensures Tracked(Act(c, s, LookUp(fails, millis)).state.core)
  {
    hide Bloom.Add, RequestFor;
  }

  /** One step takes a node out of agreement exactly if it loses the reply for a new key. */
  lemma ActTracked(c: Config, s: NodeState, e: LocalEvent)
    requires Enabled(s, e) && !e.WorkerTake? && !e.WorkerFinish? && Coherent(c, s.core) && Tracked(s.core)
    ensures Tracked(Act(c, s, e).state.core) <==> !LosesNewKey(c, s, e)
  {
    hide QueryTables.Record, ContentTables.Select, ContentTables.Live, Aggregator.AddKey, FallbackTables.AfterTake;
    hide FallbackTables.Due, Aggregator.AfterFlush, Aggregator.Flushed, QueryOf, SummaryOf, RequestFor, Enumerates;
    hide Handle, DecideData;
    match e {
      case Seed(outcome) => SeedTracked(c, s, outcome);
      case LookUp(fails, millis) => LookUpTracked(c, s, fails, millis);
      case Receive(m, src, hops, env, _) => HandleTracked(c, s.core, m, src, hops, env);
      case _ =>
    }
  }

  lemma StepTracked(c: Config, s: NodeState, e: LocalEvent)
    requires Enabled(s, e) && Coherent(c, s.core) && Tracked(s.core)
    ensures Tracked(LocalStep(c, s, e).state.core) <==> !LosesNewKey(c, s, e)
  {
    StepFrame(c, s, e);
    var quiet := if e.WorkerTake? || e.WorkerFinish? then s else Act(c, s, e).state;
    if !e.WorkerTake? && !e.WorkerFinish? {
      ActTracked(c, s, e);
    }
    hide LocalStep, Act, Enabled, Items, FromItems, DecideData;
    var t := LocalStep(c, s, e).state;
    assert t.core == quiet.core.(queue := t.core.queue, sync := t.core.sync);
  }

  ghost predicate AllTracked(sys: System) {
    forall n :: 0 <= n < |sys.nodes| ==> Tracked(sys.nodes[n].core)
  }

  /** The event stores a new key whose SET the node takes for failed. */
  predicate LosesReply(cfgs: seq<Config>, sys: System, ev: Event) {
    && CanStep(cfgs, sys, ev) && LocalOf(sys, ev).Some?
    && LosesNewKey(cfgs[LocalOf(sys, ev).value.0], sys.nodes[LocalOf(sys, ev).value.0], LocalOf(sys, ev).value.1)
  }

  lemma StepNodeTracked(cfgs: seq<Config>, sys: System, n: nat, e: LocalEvent)
    requires Sane(cfgs, sys) && AllTracked(sys) && n < |sys.nodes| && Enabled(sys.nodes[n], e)
    ensures AllTracked(StepNode(cfgs, sys, n, e)) <==> !LosesNewKey(cfgs[n], sys.nodes[n], e)
  {
    hide Tracked, LosesNewKey, Enabled, LocalStep, Own, Coherent;
    StepTracked(cfgs[n], sys.nodes[n], e);
    var t := StepNode(cfgs, sys, n, e);
    assert t.nodes[n] == LocalStep(cfgs[n], sys.nodes[n], e).state;
  }

  lemma ApplyTracked(cfgs: seq<Config>, sys: System, ev: Event)
    requires Sane(cfgs, sys) && AllTracked(sys) && CanStep(cfgs, sys, ev)
    ensures AllTracked(Apply(cfgs, sys, ev)) <==> !LosesReply(cfgs, sys, ev)
  {
    hide Tracked, LosesNewKey, Enabled, StepNode, Own, Coherent, Arrives;
    match ev {
      case At(n, e) => StepNodeTracked(cfgs, sys, n, e);
      case Deliver(i, env, txs) =>
        var p := sys.packets[i];
        var taken := sys.(packets := Without(sys.packets, i));
        if ReceiveEvent(p, env, txs).Some? {
          StepNodeTracked(cfgs, taken, p.dst, ReceiveEvent(p, env, txs).value);
        }
      case _ =>
    }
  }

  ghost predicate TrackedThroughout(cfgs: seq<Config>, events: seq<Event>) {
    forall j :: 0 <= j <= |events| ==> AllTracked(Run(cfgs, events[..j]))
  }

  predicate RepliesKept(cfgs: seq<Config>, events: seq<Event>) {
    forall j :: 0 <= j < |events| ==> !LosesReply(cfgs, Run(cfgs, events[..j]), events[j])
  }

  lemma {:induction false} TrackedStep(cfgs: seq<Config>, events: seq<Event>, ev: Event)
    ensures TrackedThroughout(cfgs, events + [ev])
            <==> (TrackedThroughout(cfgs, events) && AllTracked(Run(cfgs, events + [ev])))
    ensures RepliesKept(cfgs, events + [ev]) <==> RepliesKept(cfgs, events) && !LosesReply(cfgs, Run(cfgs, events), ev)
  {
    hide Run, AllTracked, LosesReply;
    var more, n := events + [ev], |events|;
    assert more[..n + 1] == more && more[..n] == events && more[n] == ev && events[..n] == events;
    forall j | 0 <= j <= n ensures more[..j] == events[..j] {}
    forall j | 0 <= j < n ensures more[j] == events[j] {}
    if TrackedThroughout(cfgs, more) {
      assert AllTracked(Run(cfgs, more[..n + 1]));
      forall j | 0 <= j <= n ensures AllTracked(Run(cfgs, events[..j])) {
        assert AllTracked(Run(cfgs, more[..j]));
      }
    }
    if RepliesKept(cfgs, more) {
      assert !LosesReply(cfgs, Run(cfgs, more[..n]), more[n]);
      forall j | 0 <= j < n ensures !LosesReply(cfgs, Run(cfgs, events[..j]), events[j]) {
        assert !LosesReply(cfgs, Run(cfgs, more[..j]), more[j]);
      }
    }
  }

  lemma {:induction false} InitialTracked(cfgs: seq<Config>)
    ensures TrackedThroughout(cfgs, []) && RepliesKept(cfgs, []) && AllTracked(Run(cfgs, []))
  {}

  lemma {:induction false} RunStep(cfgs: seq<Config>, events: seq<Event>, ev: Event)
    ensures var sys := Run(cfgs, events);
            Run(cfgs, events + [ev]) == if CanStep(cfgs, sys, ev) then Apply(cfgs, sys, ev) else sys
  {
    assert (events + [ev])[..|events|] == events;
  }

  /** All nodes' local keys are exactly the keys of their Redis throughout a run, if and only if no event of it
      stores a new key while losing Redis's reply. */
  lemma {:induction false} TrackedExactly(cfgs: seq<Config>, events: seq<Event>)
    requires ValidNetwork(cfgs)
    ensures TrackedThroughout(cfgs, events) <==> RepliesKept(cfgs, events)
    ensures TrackedThroughout(cfgs, events) ==> AllTracked(Run(cfgs, events))
  {
    hide *;
    InitialTracked(cfgs);
    if events != [] {
      var init, ev := events[..|events| - 1], events[|events| - 1];
      var sys := Run(cfgs, init);
      TrackedExactly(cfgs, init);
      assert events == init + [ev];
      TrackedStep(cfgs, init, ev);
      RunStep(cfgs, init, ev);
      ReachableSane(cfgs, init);
      if TrackedThroughout(cfgs, init) {
        if CanStep(cfgs, sys, ev) {
          ApplyTracked(cfgs, sys, ev);
        } else {
          CannotLose(cfgs, sys, ev);
        }
      }
    }
  }

  lemma CannotLose(cfgs: seq<Config>, sys: System, ev: Event)
    requires !CanStep(cfgs, sys, ev)
    ensures !LosesReply(cfgs, sys, ev)
  {}

  /** The node's own step, as the next event of a run, moves it by that step. */
  lemma {:induction false} RunOwnStep(cfgs: seq<Config>, events: seq<Event>, n: nat, e: LocalEvent)
    requires n < |cfgs| && !e.Receive? && Enabled(Run(cfgs, events).nodes[n], e)
    ensures Run(cfgs, events + [At(n, e)]).nodes[n] == LocalStep(cfgs[n], Run(cfgs, events).nodes[n], e).state
  {
    RunStep(cfgs, events, At(n, e));
    hide Run, Enabled, LocalStep;
  }

  lemma {:induction false} FreshNode(cfgs: seq<Config>, n: nat)
    requires n < |cfgs|
    ensures Run(cfgs, []).nodes[n] == InitialNode(cfgs[n])
  {}

  /** The runs that break it: any node with a seed whose first SET takes effect but loses its reply. */
  lemma {:induction false} LostReplyRun(cfgs: seq<Config>, n: nat)
    requires n < |cfgs| && cfgs[n].seeds != []
    ensures var s := Run(cfgs, [At(n, Start)] + [At(n, Seed(ReplyLost))]).nodes[n];
            s.core.redis == map[cfgs[n].seeds[0].key := cfgs[n].seeds[0].value] && s.core.localKeys == {}
  {
    hide *;
    FreshNode(cfgs, n);
    StartSeeds(cfgs[n]);
    assert [] + [At(n, Start)] == [At(n, Start)];
    RunOwnStep(cfgs, [], n, Start);
    RunOwnStep(cfgs, [At(n, Start)], n, Seed(ReplyLost));
  }

  /** What the two steps make of a fresh node. */
  lemma {:induction false} StartSeeds(c: Config)
    requires c.seeds != []
    ensures Enabled(InitialNode(c), Start)
    ensures var s1 := LocalStep(c, InitialNode(c), Start).state;
      && Enabled(s1, Seed(ReplyLost))
      && (var s2 := LocalStep(c, s1, Seed(ReplyLost)).state;
          s2.core.redis == map[c.seeds[0].key := c.seeds[0].value] && s2.core.localKeys == {})
  {}

  // ---------- the filter only grows ----------

  ghost predicate Grows(a: Core, b: Core) {
    Bits(a.content.local) <= Bits(b.content.local) && a.localKeys <= b.localKeys && a.redis.Keys <= b.redis.Keys
  }

  lemma RecordGrows(core: Core, key: string)
    requires WellSized(core.content.local)
    ensures Grows(core, RecordLocal(core, key))
  {
    AddBits(core.content.local, key);
    hide Bits, Bloom.Add;
  }

  lemma RequestGrows(c: Config, core: Core, m: Message, from: nat, hops: nat, env: Env)
    requires WellSized(core.content.local)
    ensures Grows(core, HandleRequest(c, core, m, from, hops, env).core)
  {
    RecordGrows(core.(query := QueryAfter(c, core, m, env)), m.key);
    hide QueryAfter, DecideRequest, RecordLocal, Bits;
  }

  lemma DataGrows(c: Config, core: Core, m: Message, env: Env)
    requires WellSized(core.content.local)
    ensures Grows(core, HandleData(c, core, m, env).core)
  {
    var written := core.(redis := core.redis[m.key := m.value]);
    var cancelled := written.(fallback := FallbackTables.Cancel(written.fallback, m.key, m.origin));
    RecordGrows(cancelled, m.key);
    hide DecideData, RecordLocal, Bits;
  }

  lemma HandleGrows(c: Config, core: Core, m: Message, from: nat, hops: nat, env: Env)
    requires WellSized(core.content.local)
    ensures Grows(core, Handle(c, core, m, from, hops, env).core)
  {
    hide AcceptedQuery, Replies, LimiterCall, QueryLimiter.After, QueryLimiter.Allows, FromHex, Bits, HandleRequest,
         HandleData;
    match m.kind {
      case Request => RequestGrows(c, core, m, from, hops, env);
      case Data => DataGrows(c, core, m, env);
      case _ =>
    }
  }

  lemma ActGrows(c: Config, s: NodeState, e: LocalEvent)
    requires Enabled(s, e) && !e.WorkerTake? && !e.WorkerFinish?
    ensures Grows(s.core, Act(c, s, e).state.core)
  {
    hide QueryTables.Record, ContentTables.Select, ContentTables.Live, Aggregator.AddKey, FallbackTables.AfterTake;
    hide FallbackTables.Due, Aggregator.AfterFlush, Aggregator.Flushed, QueryOf, SummaryOf, RequestFor, Enumerates;
    hide Handle, RecordLocal, Bits;
    match e {
      case Seed(_) =>
        var kv := s.seedsLeft[0];
        RecordGrows(s.core.(redis := s.core.redis[kv.key := kv.value]), kv.key);
      case LookUp(_, _) =>
        RecordGrows(s.core.(counter := Advance(s.core.counter, 1)), s.requestsLeft[0]);
      case Receive(m, src, hops, env, _) =>
        HandleGrows(c, s.core, m, src, hops, env);
      case _ =>
    }
  }

  lemma StepGrows(c: Config, s: NodeState, e: LocalEvent)
    requires Enabled(s, e)
    ensures Grows(s.core, LocalStep(c, s, e).state.core)
  {
    StepFrame(c, s, e);
    var quiet := if e.WorkerTake? || e.WorkerFinish? then s else Act(c, s, e).state;
    if !e.WorkerTake? && !e.WorkerFinish? {
      ActGrows(c, s, e);
    }
    hide LocalStep, Act, Enabled, Items, FromItems, Bits;
    var t := LocalStep(c, s, e).state;
    assert t.core == quiet.core.(queue := t.core.queue, sync := t.core.sync);
  }

  lemma ApplyGrows(cfgs: seq<Config>, sys: System, ev: Event, n: nat)
    requires |sys.nodes| == |cfgs| && CanStep(cfgs, sys, ev) && n < |sys.nodes|
    ensures Grows(sys.nodes[n].core, Apply(cfgs, sys, ev).nodes[n].core)
  {
    hide LocalStep, Enabled, Bits, Arrives;
    match ev {
      case At(m, e) => StepGrows(cfgs[m], sys.nodes[m], e);
      case Deliver(i, env, txs) =>
        var p := sys.packets[i];
        if ReceiveEvent(p, env, txs).Some? {
          StepGrows(cfgs[p.dst], sys.nodes[p.dst], ReceiveEvent(p, env, txs).value);
        }
      case _ =>
    }
  }

  lemma GrowsFurther(a: Core, b: Core, c: Core)
    ensures Grows(a, a) && (Grows(a, b) && Grows(b, c) ==> Grows(a, c))
  {}

  /** Along a run a node's filter, local keys and Redis only grow. */
  lemma {:induction false} RunGrows(cfgs: seq<Config>, events: seq<Event>, j: nat, n: nat)
    requires j <= |events| && n < |cfgs|
    ensures Grows(Past(cfgs, events, j, n).core, Run(cfgs, events).nodes[n].core)
  {
    assert events[..|events|] == events;
    hide Grows, Apply, CanStep;
    if j == |events| {
      GrowsFurther(Run(cfgs, events).nodes[n].core, Run(cfgs, events).nodes[n].core, Run(cfgs, events).nodes[n].core);
    } else {
      var init, ev := events[..|events| - 1], events[|events| - 1];
      assert init[..j] == events[..j] && events == init + [ev];
      RunGrows(cfgs, init, j, n);
      RunStep(cfgs, init, ev);
      hide Run;
      if CanStep(cfgs, Run(cfgs, init), ev) {
        ApplyGrows(cfgs, Run(cfgs, init), ev, n);
      }
      GrowsFurther(Past(cfgs, events, j, n).core, Run(cfgs, init).nodes[n].core, Run(cfgs, events).nodes[n].core);
    }
  }

  // ---------- neighbours' copies of the filter ----------

  predicate SameContentParams(a: Config, b: Config) {
    a.contentBits == b.contentBits && a.contentHashes == b.contentHashes
  }

  /** f is node a's filter after j events: positive for all it held then, and part of its filter now. */
  ghost predicate SnapshotOf(cfgs: seq<Config>, events: seq<Event>, j: nat, a: nat, f: Filter) {
    && FilterAt(cfgs, events, j, a, f)
    && Bits(f) <= Bits(Run(cfgs, events).nodes[a].core.content.local)
    && forall k :: k in Past(cfgs, events, j, a).core.localKeys ==> Contains(f, k)
  }

  lemma PastFilter(cfgs: seq<Config>, events: seq<Event>, j: nat, a: nat, f: Filter)
    requires ValidNetwork(cfgs) && FilterAt(cfgs, events, j, a, f)
    ensures SnapshotOf(cfgs, events, j, a, f)
    ensures WellSized(f) && f.bitCount == cfgs[a].contentBits && f.hashCount == cfgs[a].contentHashes
  {
    hide Run, Bits, Contains, Own;
    ReachableSane(cfgs, events[..j]);
    RunGrows(cfgs, events, j, a);
    assert Coherent(cfgs[a], Past(cfgs, events, j, a).core);
  }

  lemma HexLength(f: Filter, g: Filter, hex: string)
    requires WellSized(f) && FromHex(f.bitCount, f.hashCount, hex) == Some(g) && HexOrCut(hex, f)
    ensures g == f
  {
    HexRoundTrip(f);
  }

  /** Whatever was decoded from node a with its own parameters is an exact past copy of its filter. */
  lemma DecodedIsSnapshot(cfgs: seq<Config>, events: seq<Event>, n: nat, a: nat, hex: string, stored: Filter, f: Filter)
    returns (j: nat)
    requires ValidNetwork(cfgs) && n < |cfgs| && a < |cfgs| && SameContentParams(cfgs[a], cfgs[n])
    requires HeardSummary(cfgs, events, a, hex, f) && FromHex(cfgs[n].contentBits, cfgs[n].contentHashes, hex)
             == Some(stored)
    ensures stored == f && SnapshotOf(cfgs, events, j, a, stored)
  {
    hide Run, HexOrCut, FromHex, SnapshotOf, ValidNetwork;
    j :| FilterAt(cfgs, events, j, a, f);
    PastFilter(cfgs, events, j, a, f);
    HexLength(f, stored, hex);
  }

  /** A stored summary of a neighbour with the same filter parameters is an exact past copy of its filter, whatever the
      network cut short: a summary that was cut is not accepted. */
  lemma StoredSummary(cfgs: seq<Config>, events: seq<Event>, n: nat, a: nat) returns (j: nat)
    requires ValidNetwork(cfgs) && CleanNames(cfgs) && n < |cfgs|
    requires a in Run(cfgs, events).nodes[n].core.content.neighbors
    requires a < |cfgs| && SameContentParams(cfgs[a], cfgs[n])
    ensures SnapshotOf(cfgs, events, j, a, Run(cfgs, events).nodes[n].core.content.neighbors[a].filter)
  {
    hide Run, FromHex, SnapshotOf, Own, Coherent, GoodStore, LinkedPeers, VouchedItem, Items, ValidNetwork,
         CleanNames, AllFit;
    NothingToFit(cfgs, events);
    ReachableGood(cfgs, events, {});
    var s := Run(cfgs, events).nodes[n];
    assert GoodNode(cfgs, events, {}, n, s);
    hide HeardSummary, SameContentParams;
    var stored := s.core.content.neighbors[a].filter;
    var f, hex :| IsDecoded(cfgs, events, a, n, stored, f, hex);
    j := DecodedIsSnapshot(cfgs, events, n, a, hex, stored, f);
  }

  /** So is the filter of every CBF in flight; a node with the sender's parameters reads exactly that filter from
      what arrives, or, if the datagram was cut, none. */
  lemma SummaryInFlight(cfgs: seq<Config>, events: seq<Event>, p: Packet) returns (j: nat, f: Filter)
    requires ValidNetwork(cfgs) && CleanNames(cfgs)
    requires p in Run(cfgs, events).packets && p.msg.kind == ContentBloom
    ensures p.src < |cfgs| && SnapshotOf(cfgs, events, j, p.src, f)
    ensures p.msg == SummaryOf(cfgs[p.src], f) && (FitsDatagram(p.msg) ==> Arrives(p.msg) == Some(p.msg))
    ensures forall n :: 0 <= n < |cfgs| && SameContentParams(cfgs[n], cfgs[p.src]) ==> ReadAs(cfgs[n], p.msg, f)
  {
    hide ToHex, FromHex, SnapshotOf, GoodNode, ValidNetwork, CleanNames, WasHeld, SeedValue, WasFlushed, Run, AllFit,
         Named;
    NothingToFit(cfgs, events);
    ReachableGood(cfgs, events, {});
    var sys := Run(cfgs, events);
    var i :| 0 <= i < |sys.packets| && sys.packets[i] == p;
    assert GoodPacket(cfgs, events, {}, p);
    ArrivesExactly(p.msg);
    f :| IsSummary(cfgs, events, p.src, p.msg, f);
    j :| FilterAt(cfgs, events, j, p.src, f);
    PastFilter(cfgs, events, j, p.src, f);
    hide Clean, FitsDatagram, Arrives, WasFilter;
    forall n: nat | n < |cfgs| && SameContentParams(cfgs[n], cfgs[p.src]) ensures ReadAs(cfgs[n], p.msg, f) {
      SummaryRead(cfgs[n], p.msg, f);
    }
  }

  /** Node c decodes f from what arrives of the message if it fits, and f or nothing if it does not. */
  predicate ReadAs(c: Config, m: Message, f: Filter) {
    && (FitsDatagram(m) ==> FromHex(c.contentBits, c.contentHashes, m.key) == Some(f))
    && (Arrives(m).Some? && FromHex(c.contentBits, c.contentHashes, Arrives(m).value.key).Some? ==>
          FromHex(c.contentBits, c.contentHashes, Arrives(m).value.key) == Some(f))
  }

  lemma SummaryRead(c: Config, m: Message, f: Filter)
    requires Clean(m) && m.key == ToHex(f) && WellSized(f) && f.bitCount == c.contentBits
             && f.hashCount == c.contentHashes
    ensures ReadAs(c, m, f)
  {
    HexRoundTrip(f);
    if Arrives(m).Some? {
      CutMessage(m);
      var hex := Arrives(m).value.key;
      hide Arrives, FromHex, FitsDatagram, Clean, WellSized, ToHex;
      assert HexOrCut(hex, f);
      if FromHex(c.contentBits, c.contentHashes, hex).Some? {
        HexLength(f, FromHex(c.contentBits, c.contentHashes, hex).value, hex);
      }
    }
  }

  /** The scheduler's choice over a reachable state: no neighbour is found only if none with an unexpired summary
      held the key when the summary was taken, and the chosen one's own filter still tests positive. */
  lemma SelectionIsSound(cfgs: seq<Config>, events: seq<Event>, n: nat, a: nat, key: string, now: int, order: seq<nat>)
    returns (j: nat)
    requires ValidNetwork(cfgs) && CleanNames(cfgs) && n < |cfgs|
    requires var s := Run(cfgs, events).nodes[n].core.content;
             && Enumerates(order, s.neighbors.Keys) && a in s.neighbors
             && (cfgs[n].contentTtl <= 0 || now - s.neighbors[a].updated <= cfgs[n].contentTtl)
    requires a < |cfgs| && SameContentParams(cfgs[a], cfgs[n])
    ensures var s := Run(cfgs, events).nodes[n].core.content;
            && SnapshotOf(cfgs, events, j, a, s.neighbors[a].filter)
            && (ContentTables.Select(s, key, now, cfgs[n].contentTtl, order).None? ==>
                  key !in Past(cfgs, events, j, a).core.localKeys)
            && (ContentTables.Select(s, key, now, cfgs[n].contentTtl, order) == Some(a) ==>
                  Contains(Run(cfgs, events).nodes[a].core.content.local, key))
  {
    j := StoredSummary(cfgs, events, n, a);
    var s := Run(cfgs, events).nodes[n].core.content;
    var f := s.neighbors[a].filter;
    ContentTables.SelectExact(s, key, now, cfgs[n].contentTtl, order);
    PastFilter(cfgs, events, j, a, f);
    ReachableSane(cfgs, events);
    hide Run, Bits, Own, ContentTables.Select, ValidNetwork, CleanNames;
    if ContentTables.Select(s, key, now, cfgs[n].contentTtl, order).None? {
      assert a !in ContentTables.Positive(s, key, now, cfgs[n].contentTtl);
    } else if ContentTables.Select(s, key, now, cfgs[n].contentTtl, order) == Some(a) {
      assert Coherent(cfgs[a], Run(cfgs, events).nodes[a].core);
      ContainsMonotone(f, Run(cfgs, events).nodes[a].core.content.local, key);
    }
  }

  // ---------- a summary that arrives is stored, and then found ----------

  /** What a decodable CBF does to its receiver: the sender's summary is replaced, and nothing else happens. */
  lemma SummaryReceived(c: Config, s: NodeState, m: Message, from: nat, hops: nat, env: Env, txs: seq<Transmission>)
    requires Enabled(s, Receive(m, from, hops, env, txs)) && m.kind == ContentBloom && m.origin != "" && m.key != ""
    requires FromHex(c.contentBits, c.contentHashes, m.key).Some?
    ensures var f, content := FromHex(c.contentBits, c.contentHashes, m.key).value, s.core.content;
            var stored := content.(neighbors := content.neighbors[from := ContentTables.Neighbor(f, env.now)]);
            LocalStep(c, s, Receive(m, from, hops, env, txs)) == Stepped(s.(core := s.core.(content := stored)), [])
  {
    hide FromHex, Enumerates;
    var effect := HandleContentBloom(c, s.core, m, from, env);
    assert SendAll(c, effect.core, [], txs) == Sent(effect.core, []);
  }

  /** A summary has an origin and at least one byte. */
  lemma SummaryIsComplete(c: Config, f: Filter)
    requires ValidConfig(c) && WellSized(f) && f.bitCount == c.contentBits
    ensures SummaryOf(c, f).origin != "" && SummaryOf(c, f).key != ""
  {
    HexRoundTrip(f);
    EmptyHex(f.bitCount, f.hashCount);
    hide ToHex, FromHex;
  }

  lemma EmptyHex(bitCount: nat, hashCount: nat)
    requires bitCount > 0
    ensures FromHex(bitCount, hashCount, "") == None
  {}

  /**
   * Delivering a CBF that arrives whole to a node with the sender's filter parameters stores, as of that moment, the
   * sender's filter as it once was, in place of what the node had from that sender; every other summary stays.
   */
  lemma {:induction false} SummaryStored(cfgs: seq<Config>, events: seq<Event>, i: nat, env: Env,
                                         txs: seq<Transmission>)
    returns (j: nat, f: Filter)
    requires ValidNetwork(cfgs) && CleanNames(cfgs) && i < |Run(cfgs, events).packets|
    requires var p := Run(cfgs, events).packets[i];
             && p.msg.kind == ContentBloom && FitsDatagram(p.msg) && p.dst < |cfgs|
             && Enumerates(env.keyOrder, Run(cfgs, events).nodes[p.dst].core.localKeys)
             && (p.src < |cfgs| ==> SameContentParams(cfgs[p.dst], cfgs[p.src]))
    ensures var sys, t := Run(cfgs, events), Run(cfgs, events + [Deliver(i, env, txs)]);
            var p := sys.packets[i];
            && p.src < |cfgs| && SnapshotOf(cfgs, events, j, p.src, f)
            && t.nodes[p.dst].core.content.neighbors
               == sys.nodes[p.dst].core.content.neighbors[p.src := ContentTables.Neighbor(f, env.now)]
            && t.nodes[p.dst].sched == sys.nodes[p.dst].sched
  {
    hide *;
    var sys := Run(cfgs, events);
    var p := sys.packets[i];
    assert p in sys.packets;
    j, f := SummaryInFlight(cfgs, events, p);
    SnapshotMeans(cfgs, events, j, p.src, f);
    PastFilter(cfgs, events, j, p.src, f);
    NodeIsReady(cfgs, events, p.dst, env);
    ReadWhole(cfgs[p.dst], p.msg, f);
    assert ValidConfig(cfgs[p.src]) by { ValidNode(cfgs, p.src); }
    SummaryIsComplete(cfgs[p.src], f);
    SummaryKind(cfgs[p.src], f);
    var e := Receive(p.msg, p.src, p.hops, env, txs);
    ReceiveIsEnabled(sys.nodes[p.dst], p.msg, p.src, p.hops, env, txs);
    SummaryReceived(cfgs[p.dst], sys.nodes[p.dst], p.msg, p.src, p.hops, env, txs);
    DeliveryStep(cfgs, events, i, env, txs);
  }

  lemma ValidNode(cfgs: seq<Config>, n: nat)
    requires ValidNetwork(cfgs) && n < |cfgs|
    ensures ValidConfig(cfgs[n])
  {}

  lemma SummaryKind(c: Config, f: Filter)
    ensures SummaryOf(c, f).kind == ContentBloom
  {}

  lemma ReadWhole(c: Config, m: Message, f: Filter)
    requires FitsDatagram(m) && Arrives(m) == Some(m) && (SameContentParams(c, c) ==> ReadAs(c, m, f))
    ensures FromHex(c.contentBits, c.contentHashes, m.key) == Some(f)
  {
    hide FromHex, FitsDatagram, Arrives;
  }

  lemma {:induction false} NodeIsReady(cfgs: seq<Config>, events: seq<Event>, n: nat, env: Env)
    requires ValidNetwork(cfgs) && n < |cfgs|
    ensures WellSized(Run(cfgs, events).nodes[n].core.content.local)
  {
    ReachableSane(cfgs, events);
    hide Run, Own, ValidNetwork, WellSized, Contains;
    assert Coherent(cfgs[n], Run(cfgs, events).nodes[n].core);
  }

  lemma ReceiveIsEnabled(s: NodeState, m: Message, from: nat, hops: nat, env: Env, txs: seq<Transmission>)
    requires WellSized(s.core.content.local) && Enumerates(env.keyOrder, s.core.localKeys)
    ensures Enabled(s, Receive(m, from, hops, env, txs))
  {}

  /** Delivering a packet that arrives as sent moves its receiver by the Receive step. */
  lemma {:induction false} DeliveryStep(cfgs: seq<Config>, events: seq<Event>, i: nat, env: Env, txs: seq<Transmission>)
    requires i < |Run(cfgs, events).packets|
    requires var p := Run(cfgs, events).packets[i];
             && p.dst < |cfgs| && Arrives(p.msg) == Some(p.msg)
             && Enabled(Run(cfgs, events).nodes[p.dst], Receive(p.msg, p.src, p.hops, env, txs))
    ensures var sys := Run(cfgs, events);
            var p := sys.packets[i];
            var e := Receive(p.msg, p.src, p.hops, env, txs);
            Run(cfgs, events + [Deliver(i, env, txs)]).nodes
            == sys.nodes[p.dst := LocalStep(cfgs[p.dst], sys.nodes[p.dst], e).state]
  {
    RunStep(cfgs, events, Deliver(i, env, txs));
    hide Run, Enabled, LocalStep, Arrives, Without;
  }

  /** The choice of a neighbour succeeds if any has a summary that is positive and within the ttl. */
  lemma ChoiceFinds(c: Config, s: NodeState, now: int, order: seq<nat>, a: nat)
    requires Enabled(s, Choose(now, order)) && a in s.core.content.neighbors
    requires var n := s.core.content.neighbors[a];
             Contains(n.filter, s.sched.req.key) && (c.contentTtl <= 0 || now - n.updated <= c.contentTtl)
    ensures var t := LocalStep(c, s, Choose(now, order)).state;
            && t.sched.Chosen? && t.sched.req == s.sched.req && t.sched.neighbor in s.core.content.neighbors
            && Contains(s.core.content.neighbors[t.sched.neighbor].filter, s.sched.req.key)
  {
    ContentTables.SelectExact(s.core.content, s.sched.req.key, now, c.contentTtl, order);
    assert a in ContentTables.Positive(s.core.content, s.sched.req.key, now, c.contentTtl);
    var acted := Act(c, s, Choose(now, order));
    assert SendAll(c, acted.state.core, [], []) == Sent(acted.state.core, []);
    hide ContentTables.Select, ContentTables.Live, Contains;
  }

  /**
   * So a summary that arrives is put to use: when the scheduler next chooses within the content ttl, for any key its
   * sender held when the summary was taken, it chooses a neighbour whose summary is positive.
   */
  lemma {:induction false} SummaryIsUsed(cfgs: seq<Config>, events: seq<Event>, i: nat, env: Env,
                                         txs: seq<Transmission>, now: int, order: seq<nat>) returns (j: nat)
    requires ValidNetwork(cfgs) && CleanNames(cfgs) && i < |Run(cfgs, events).packets|
    requires var p := Run(cfgs, events).packets[i];
             && p.msg.kind == ContentBloom && FitsDatagram(p.msg) && p.dst < |cfgs|
             && Enumerates(env.keyOrder, Run(cfgs, events).nodes[p.dst].core.localKeys)
             && (p.src < |cfgs| ==> SameContentParams(cfgs[p.dst], cfgs[p.src]))
             && Enabled(Run(cfgs, events + [Deliver(i, env, txs)]).nodes[p.dst], Choose(now, order))
             && (cfgs[p.dst].contentTtl <= 0 || now - env.now <= cfgs[p.dst].contentTtl)
    ensures var p := Run(cfgs, events).packets[i];
            var more := events + [Deliver(i, env, txs)];
            var key := Run(cfgs, more).nodes[p.dst].sched.req.key;
            && j <= |events| && p.src < |cfgs|
            && (key in Past(cfgs, events, j, p.src).core.localKeys ==>
                  Run(cfgs, more + [At(p.dst, Choose(now, order))]).nodes[p.dst].sched.Chosen?)
  {
    hide *;
    var p := Run(cfgs, events).packets[i];
    var more := events + [Deliver(i, env, txs)];
    var f;
    j, f := SummaryStored(cfgs, events, i, env, txs);
    var s := Run(cfgs, more).nodes[p.dst];
    RunOwnStep(cfgs, more, p.dst, Choose(now, order));
    SnapshotMeans(cfgs, events, j, p.src, f);
    IsNoted(s, now, order);
    if s.sched.req.key in Past(cfgs, events, j, p.src).core.localKeys {
      ChoiceFinds(cfgs[p.dst], s, now, order, p.src);
    }
  }

  lemma IsNoted(s: NodeState, now: int, order: seq<nat>)
    requires Enabled(s, Choose(now, order))
    ensures s.sched.Noted?
  {}

  lemma SnapshotMeans(cfgs: seq<Config>, events: seq<Event>, j: nat, a: nat, f: Filter)
    requires SnapshotOf(cfgs, events, j, a, f)
    ensures j <= |events| && a < |cfgs| && FilterAt(cfgs, events, j, a, f)
    ensures forall k :: k in Past(cfgs, events, j, a).core.localKeys ==> Contains(f, k)
  {}
}
