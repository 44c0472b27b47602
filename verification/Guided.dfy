/** A run along the other path: a summary guides a request to a neighbour, which serves it. */
module Guided {
  import opened Collections
  import opened Text
  import opened Wire
  import opened Bloom
  import opened Sends
  import opened NodeModel
  import opened Systems
  import opened Arrivals
  import opened Steps
  import opened NodeInvariants
  import opened Histories
  import opened Reachability
  import opened Coherence
  import opened Unrolled
  import opened Cuts
  import Aggregator
  import ContentTables
  import FallbackTables
  import QueryTables
  import SyncTables

  // ---------- two nodes, with queues ----------

  /** Node 0 seeds the key and tells node 1 what it has, node 1 requests it; both send through their queues. */
  function Guide(kv: KeyValue): Config {
    Plain("a", [1], [kv], []).(asyncForward := true)
  }

  function Follower(kv: KeyValue): Config {
    Plain("b", [], [], [kv.key]).(asyncForward := true)
  }

  function Pair(kv: KeyValue): seq<Config> {
    [Guide(kv), Follower(kv)]
  }

  function SeededFilter(kv: KeyValue): Filter {
    Bloom.Add(Empty(512, 3), kv.key)
  }

  function TheSummary(kv: KeyValue): Message {
    SummaryOf(Guide(kv), SeededFilter(kv))
  }

  function TheRequest(kv: KeyValue): Message {
    RequestFor(Follower(kv), kv.key, 1, 0)
  }

  function TheData(kv: KeyValue): Message {
    DataFor(Guide(kv), MakeRequestId("b", 1, 0), "b", kv.key, kv.value)
  }

  // ---------- the queue and its worker ----------

  /** The state with its queue and its one worker's hands set. */
  function Holding(s: NodeState, queue: seq<Item>, hand: Option<Item>): NodeState {
    s.(core := s.core.(queue := queue), hands := [hand])
  }

  lemma {:induction false} Queues(c: Config, s: NodeState, item: Item, txs: seq<Transmission>)
    requires c.asyncForward && s.core.started && s.core.queue == [] && c.queueMax > 0
    ensures SendAll(c, s.core, [item], txs) == Sent(s.core.(queue := [item]), [])
  {
    SendAllOne(c, s.core, item, txs);
    assert [] + [item] == [item];
    hide SendAll;
  }

  lemma WorkerPops(c: Config, s: NodeState, item: Item)
    requires s.core.started && s.core.queue == [item] && s.hands == [None] && WellSized(s.core.content.local)
    ensures Enabled(s, WorkerTake(0))
    ensures LocalStep(c, s, WorkerTake(0)) == Stepped(Holding(s, [], Some(item)), [])
  {
    assert [item][1..] == [] && [None][0 := Some(item)] == [Some(item)];
  }

  lemma WorkerSendsDirect(c: Config, s: NodeState, item: Item)
    requires s.hands == [Some(item)] && item.Direct? && WellSized(s.core.content.local)
    ensures var e := WorkerFinish(0, Transmission(true, []));
      && Enabled(s, e)
      && LocalStep(c, s, e).out == [Outgoing(item.addr, item.msg, item.hops)]
      && LocalStep(c, s, e).state ==
         s.(hands := [None],
            core := if item.onSuccess.None? then s.core
                    else s.core.(sync := SyncTables.Record(s.core.sync, SyncTables.Call(item.onSuccess.value.key,
                                                           item.onSuccess.value.origin), c.syncCapacity)))
  {
    hide SyncTables.Record;
    assert Packets(c, item, Transmission(true, [])) == [Outgoing(item.addr, item.msg, item.hops)];
    assert [Some(item)][0 := None] == [None];
  }

  lemma WorkerBroadcasts(c: Config, s: NodeState, item: Item, to: nat)
    requires s.hands == [Some(item)] && item.Broadcast? && WellSized(s.core.content.local) && c.neighbors == [to]
    ensures var e := WorkerFinish(0, Transmission(true, [true]));
      && Enabled(s, e)
      && LocalStep(c, s, e) == Stepped(s.(hands := [None]), [Outgoing(to, item.msg, item.hops)])
  {
    assert [to][..0] == [] && Reached([], [true]) == [] && Reached([to], [true]) == [to];
    assert Packets(c, item, Transmission(true, [true])) == [Outgoing(to, item.msg, item.hops)];
    assert [Some(item)][0 := None] == [None];
  }

  // ---------- the guide ----------

  ghost predicate Guiding(kv: KeyValue, s: NodeState, snapshot: Option<Filter>) {
    && s.core.started && s.seedsLeft == [] && s.snapshot == snapshot
    && s.core.redis == map[kv.key := kv.value] && s.core.localKeys == {kv.key}
    && s.core.content.local == SeededFilter(kv) && s.core.query == QueryTables.FRESH && s.core.sync == SyncTables.FRESH
  }

  lemma GuideSeeds(kv: KeyValue)
    ensures Enabled(InitialNode(Guide(kv)), Start)
    ensures var s1 := LocalStep(Guide(kv), InitialNode(Guide(kv)), Start);
      && s1.out == [] && Enabled(s1.state, Seed(Stored))
      && var s2 := LocalStep(Guide(kv), s1.state, Seed(Stored));
         && s2.out == [] && Guiding(kv, s2.state, None) && s2.state.core.queue == [] && s2.state.hands == [None]
  {
    hide Bloom.Add;
  }

  lemma GuideSnapshots(kv: KeyValue, s: NodeState)
    requires Guiding(kv, s, None)
    ensures Enabled(s, TakeSnapshot)
    ensures LocalStep(Guide(kv), s, TakeSnapshot) == Stepped(s.(snapshot := Some(SeededFilter(kv))), [])
  {
    hide SeededFilter;
    FilterIsSized(kv);
    assert SendAll(Guide(kv), s.core, [], []) == Sent(s.core, []);
  }

  lemma GuideTells(kv: KeyValue, s: NodeState)
    requires Guiding(kv, s, Some(SeededFilter(kv))) && s.core.queue == []
    ensures var e := SendSnapshot(Transmission(false, []));
      && Enabled(s, e)
      && LocalStep(Guide(kv), s, e)
         == Stepped(s.(snapshot := None, core := s.core.(queue := [Broadcast(TheSummary(kv), 0, None)])), [])
  {
    hide SeededFilter, SummaryOf, SendAll, SendOne;
    FilterIsSized(kv);
    Queues(Guide(kv), s, Broadcast(TheSummary(kv), 0, None), [Transmission(false, [])]);
  }

  lemma FilterIsSized(kv: KeyValue)
    ensures WellSized(SeededFilter(kv)) && SeededFilter(kv).bitCount == 512 && SeededFilter(kv).hashCount == 3
    ensures Contains(SeededFilter(kv), kv.key)
  {
    AddBits(Empty(512, 3), kv.key);
  }

  function ServedItem(kv: KeyValue): Item {
    Direct(TheData(kv), 0, 1, Some(Served(kv.key, "b")))
  }

  /** The request is new, the key is in Redis: the DATA is queued, back to where the request came from. */
  lemma GuideServes(kv: KeyValue, s: NodeState)
    requires Guiding(kv, s, None) && s.core.queue == [] && s.hands == [None] && kv.key != ""
    ensures var e := Receive(TheRequest(kv), 1, 0, Calm([kv.key]), []);
      && Enabled(s, e)
      && var r := LocalStep(Guide(kv), s, e);
         && r.out == [] && r.state.core.queue == [ServedItem(kv)] && r.state.hands == [None]
         && r.state.core.started && r.state.core.sync == SyncTables.FRESH && r.state.core.redis == s.core.redis
         && WellSized(r.state.core.content.local)
  {
    hide SeededFilter, SendAll, SendOne, MakeRequestId, HandleData, HandleContentBloom, HandleQueryBloom;
    hide QueryTables.Record, QueryTables.IsNew, Bloom.Add;
    FilterIsSized(kv);
    IdIsThere();
    assert SetOf([kv.key]) == {kv.key};
    var env := Calm([kv.key]);
    FreshIsNew(QueryCall(TheRequest(kv), env), 1500);
    var effect := HandleRequest(Guide(kv), s.core, TheRequest(kv), 1, 0, env);
    assert effect.items == [ServedItem(kv)];
    Queues(Guide(kv), s.(core := effect.core), ServedItem(kv), []);
  }

  lemma IdIsThere()
    ensures MakeRequestId("b", 1, 0) != ""
  {}

  lemma FreshIsNew(call: QueryTables.Call, ttl: int)
    ensures QueryTables.IsNew(QueryTables.FRESH, call, ttl)
  {}

  // ---------- the follower ----------

  ghost predicate Following(kv: KeyValue, s: NodeState, pc: Scheduler, known: map<nat, ContentTables.Neighbor>) {
    && s.core.started && s.seedsLeft == [] && s.requestsLeft == [kv.key] && s.sched == pc
    && s.core.redis == map[] && s.core.localKeys == {} && s.core.content.neighbors == known
    && s.core.fallback == map[] && s.core.content.local == Empty(512, 3)
    && s.core.queue == [] && s.hands == [None]
  }

  function Known(kv: KeyValue): map<nat, ContentTables.Neighbor> {
    map[0 := ContentTables.Neighbor(SeededFilter(kv), 0)]
  }

  lemma FollowerStarts(kv: KeyValue)
    ensures Enabled(InitialNode(Follower(kv)), Start)
    ensures var r := LocalStep(Follower(kv), InitialNode(Follower(kv)), Start);
            r.out == [] && Following(kv, r.state, NextKey, map[]) && r.state.core.counter == 0
  {}

  lemma SummaryDecodes(kv: KeyValue)
    ensures var m := TheSummary(kv);
            m.kind == ContentBloom && m.origin != "" && m.key != "" && FromHex(512, 3, m.key) == Some(SeededFilter(kv))
  {
    FilterIsSized(kv);
    SummaryIsComplete(Guide(kv), SeededFilter(kv));
    HexRoundTrip(SeededFilter(kv));
    hide SeededFilter, FromHex, ToHex;
  }

  lemma FollowerHears(kv: KeyValue, s: NodeState)
    requires Following(kv, s, NextKey, map[])
    ensures var e := Receive(TheSummary(kv), 0, 0, Calm([]), []);
      && Enabled(s, e)
      && var r := LocalStep(Follower(kv), s, e);
         r.out == [] && Following(kv, r.state, NextKey, Known(kv)) && r.state.core.counter == s.core.counter
  {
    hide SeededFilter, FromHex, TheSummary, LocalStep;
    SummaryDecodes(kv);
    assert SetOf<string>([]) == {};
    SummaryReceived(Follower(kv), s, TheSummary(kv), 0, 0, Calm([]), []);
  }

  lemma FollowerMisses(kv: KeyValue, s: NodeState)
    requires Following(kv, s, NextKey, Known(kv)) && s.core.counter == 0
    ensures Enabled(s, LookUp(false, 1))
    ensures var r := LocalStep(Follower(kv), s, LookUp(false, 1));
            r.out == [] && Following(kv, r.state, Originated(TheRequest(kv)), Known(kv))
  {
    hide RequestFor, SeededFilter;
  }

  lemma FollowerNotes(kv: KeyValue, s: NodeState)
    requires Following(kv, s, Originated(TheRequest(kv)), Known(kv))
    ensures Enabled(s, NoteOwn(0, 0))
    ensures var r := LocalStep(Follower(kv), s, NoteOwn(0, 0));
            r.out == [] && Following(kv, r.state, Noted(TheRequest(kv)), Known(kv))
  {
    hide QueryTables.Record, RequestFor, SeededFilter;
  }

  lemma FollowerChooses(kv: KeyValue, s: NodeState)
    requires Following(kv, s, Noted(TheRequest(kv)), Known(kv))
    ensures Enabled(s, Choose(0, [0]))
    ensures var r := LocalStep(Follower(kv), s, Choose(0, [0]));
            r.out == [] && Following(kv, r.state, Chosen(TheRequest(kv), 0), Known(kv))
  {
    assert SetOf<nat>([0]) == {0} && s.core.content.neighbors.Keys == {0};
    FilterIsSized(kv);
    RequestIsFor(kv);
    ChoiceFinds(Follower(kv), s, 0, [0], 0);
    assert ContentTables.Live(Known(kv), 0, 3000) == Known(kv);
    hide RequestFor, SeededFilter, ContentTables.Select, Contains, Bloom.Add;
  }

  lemma RequestIsFor(kv: KeyValue)
    ensures var m := TheRequest(kv); m.key == kv.key && m.origin == "b" && m.kind == Request && m.ttl == 1
    ensures TheRequest(kv).requestId == MakeRequestId("b", 1, 0) && TheRequest(kv).value == ""
  {
    hide MakeRequestId;
  }

  lemma FollowerAsks(kv: KeyValue, s: NodeState)
    requires Following(kv, s, Chosen(TheRequest(kv), 0), Known(kv))
    ensures Enabled(s, Ask(Transmission(false, [])))
    ensures var asking := s.core.(queue := [Direct(TheRequest(kv), 0, 0, None)]);
            LocalStep(Follower(kv), s, Ask(Transmission(false, [])))
            == Stepped(s.(sched := Asked(TheRequest(kv)), core := asking), [])
  {
    hide RequestFor, SeededFilter, SendAll, SendOne;
    Queues(Follower(kv), s, Direct(TheRequest(kv), 0, 0, None), [Transmission(false, [])]);
  }

  /** The follower while its fallback runs. */
  ghost predicate Waiting(kv: KeyValue, s: NodeState) {
    && s.core.started && s.sched == NextKey && s.requestsLeft == [] && s.core.redis == map[] && s.core.localKeys == {}
    && s.core.fallback == map[FallbackTables.MakeKey("b", kv.key) := FallbackTables.Entry(kv.key, "b", 300)]
    && s.core.content.local == Empty(512, 3)
  }

  lemma FollowerSchedules(kv: KeyValue, s: NodeState)
    requires Following(kv, s, Asked(TheRequest(kv)), Known(kv))
    ensures Enabled(s, ScheduleFallback(0))
    ensures var r := LocalStep(Follower(kv), s, ScheduleFallback(0)); r.out == [] && Waiting(kv, r.state)
  {
    RequestIsFor(kv);
    hide RequestFor, SeededFilter, FallbackTables.MakeKey;
  }

  /** The answer is stored, its fallback cancelled, and the key put into the local keys and the filter. */
  lemma FollowerStores(kv: KeyValue, s: NodeState)
    requires Waiting(kv, s) && kv.key != ""
    ensures var e := Receive(TheData(kv), 0, 0, Calm([]), []);
      && Enabled(s, e)
      && var t := LocalStep(Follower(kv), s, e).state.core;
         && t.redis == map[kv.key := kv.value] && t.fallback == map[]
         && t.localKeys == {kv.key} && Contains(t.content.local, kv.key)
         && LocalStep(Follower(kv), s, e).out == []
  {
    hide Bloom.Add, Contains, FallbackTables.MakeKey, MakeRequestId, HandleRequest, HandleContentBloom;
    hide HandleQueryBloom;
    hide SendAll;
    IdIsThere();
    assert SetOf<string>([]) == {};
    FilterIsSized(kv);
    NothingSent(Follower(kv), HandleData(Follower(kv), s.core, TheData(kv), Calm([])).core, []);
  }

  // ---------- on the wire ----------

  lemma SummaryArrivesWhole(kv: KeyValue)
    ensures Arrives(TheSummary(kv)) == Some(TheSummary(kv))
  {
    hide ToWire, IntToString, SeededFilter, FromHex, HexText, Arrives;
    var f := SeededFilter(kv);
    FilterIsSized(kv);
    HexIsClean(f.data);
    assert |ToHex(f)| == 2 * ByteCount(512);
    WireLength(TheSummary(kv));
    Int32Digits(3000);
    ArrivesExactly(TheSummary(kv));
  }

  /** A seed that fits any datagram. */
  predicate Small(kv: KeyValue) {
    '|' !in kv.key && '|' !in kv.value && kv.key != "" && |kv.key| + |kv.value| <= DATAGRAM_MAX - 100
  }

  lemma RequestArrivesWhole(kv: KeyValue)
    requires Small(kv)
    ensures Arrives(TheRequest(kv)) == Some(TheRequest(kv))
  {
    RequestIsFor(kv);
    RequestIdIsClean(Follower(kv), 1, 0);
    RequestIdIsShort(Follower(kv), 1, 0);
    WireLength(TheRequest(kv));
    Int32Digits(1);
    hide ToWire, IntToString, MakeRequestId, RequestFor;
    ArrivesExactly(TheRequest(kv));
  }

  lemma DataArrivesWhole(kv: KeyValue)
    requires Small(kv)
    ensures Arrives(TheData(kv)) == Some(TheData(kv))
  {
    RequestIdIsClean(Follower(kv), 1, 0);
    RequestIdIsShort(Follower(kv), 1, 0);
    WireLength(TheData(kv));
    Int32Digits(1);
    hide ToWire, IntToString, MakeRequestId;
    ArrivesExactly(TheData(kv));
  }

  // ---------- the run ----------

  lemma PairNodes(kv: KeyValue)
    ensures |Pair(kv)| == 2 && Pair(kv)[0] == Guide(kv) && Pair(kv)[1] == Follower(kv)
    ensures Guide(kv).neighbors == [1] && Guide(kv).syncCapacity == 128
  {}

  lemma {:induction false} StartOfPair(kv: KeyValue)
    ensures var sys := Run(Pair(kv), []);
            sys.packets == [] && sys.nodes == [InitialNode(Guide(kv)), InitialNode(Follower(kv))]
  {
    hide InitialNode;
  }

  /** A step of node n that sends nothing leaves the other node and the network as they are. */
  lemma {:induction false} QuietMove(kv: KeyValue, events: seq<Event>, n: nat, e: LocalEvent) returns (more: seq<Event>)
    requires n < 2 && !e.Receive? && Enabled(Run(Pair(kv), events).nodes[n], e)
    requires LocalStep(Pair(kv)[n], Run(Pair(kv), events).nodes[n], e).out == []
    ensures var sys, t := Run(Pair(kv), events), Run(Pair(kv), more);
      && t.packets == sys.packets && t.nodes[1 - n] == sys.nodes[1 - n]
      && t.nodes[n] == LocalStep(Pair(kv)[n], sys.nodes[n], e).state
  {
    hide *;
    PairNodes(kv);
    QuietStep(Pair(kv), events, n, e);
    more := events + [At(n, e)];
  }

  /** A step of node n that sends one message into the empty network. */
  lemma {:induction false} SendingMove(kv: KeyValue, events: seq<Event>, n: nat, e: LocalEvent, o: Outgoing)
    returns (more: seq<Event>)
    requires n < 2 && !e.Receive? && Enabled(Run(Pair(kv), events).nodes[n], e) && Run(Pair(kv), events).packets == []
    requires LocalStep(Pair(kv)[n], Run(Pair(kv), events).nodes[n], e).out == [o]
    ensures var sys, t := Run(Pair(kv), events), Run(Pair(kv), more);
      && t.packets == [Packet(n, o.dst, o.msg, o.hops)] && t.nodes[1 - n] == sys.nodes[1 - n]
      && t.nodes[n] == LocalStep(Pair(kv)[n], sys.nodes[n], e).state
  {
    hide *;
    PairNodes(kv);
    OwnStep(Pair(kv), events, n, e);
    OneLaunched(Pair(kv), Run(Pair(kv), events), n, e, o);
    more := events + [At(n, e)];
  }

  /** The delivery of the only packet, to a node that sends nothing at once. */
  lemma {:induction false} Arrival(kv: KeyValue, events: seq<Event>, p: Packet, env: Env) returns (more: seq<Event>)
    requires Run(Pair(kv), events).packets == [p] && p.dst < 2 && Arrives(p.msg) == Some(p.msg)
    requires Enabled(Run(Pair(kv), events).nodes[p.dst], Receive(p.msg, p.src, p.hops, env, []))
    requires var e := Receive(p.msg, p.src, p.hops, env, []);
             LocalStep(Pair(kv)[p.dst], Run(Pair(kv), events).nodes[p.dst], e).out == []
    ensures var sys, t, e := Run(Pair(kv), events), Run(Pair(kv), more), Receive(p.msg, p.src, p.hops, env, []);
      && t.packets == [] && t.nodes[1 - p.dst] == sys.nodes[1 - p.dst]
      && t.nodes[p.dst] == LocalStep(Pair(kv)[p.dst], sys.nodes[p.dst], e).state
  {
    hide *;
    PairNodes(kv);
    OnlyPacket(Pair(kv), events, p, env, []);
    var sys, e := Run(Pair(kv), events), Receive(p.msg, p.src, p.hops, env, []);
    OtherNode(Pair(kv), System(sys.nodes, []), p.dst, e, 1 - p.dst);
    NothingSentAway(Pair(kv), System(sys.nodes, []), p.dst, e);
    more := events + [Deliver(0, env, [])];
  }

  lemma NothingSentAway(cfgs: seq<Config>, sys: System, n: nat, e: LocalEvent)
    requires n < |sys.nodes| == |cfgs| && Enabled(sys.nodes[n], e) && LocalStep(cfgs[n], sys.nodes[n], e).out == []
    ensures StepNode(cfgs, sys, n, e).packets == sys.packets
  {
    hide LocalStep, Enabled;
  }

  /** The one broadcast in node 0's queue is popped and sent. */
  lemma {:induction false} BroadcastGoesOut(kv: KeyValue, events: seq<Event>, item: Item) returns (more: seq<Event>)
    requires var sys := Run(Pair(kv), events);
             && sys.packets == [] && sys.nodes[0].core.started && sys.nodes[0].core.queue == [item]
             && sys.nodes[0].hands == [None] && item.Broadcast? && WellSized(sys.nodes[0].core.content.local)
    ensures var sys, t := Run(Pair(kv), events), Run(Pair(kv), more);
      && t.packets == [Packet(0, 1, item.msg, item.hops)] && t.nodes[1] == sys.nodes[1]
      && t.nodes[0] == Holding(sys.nodes[0], [], None)
  {
    hide *;
    PairNodes(kv);
    var s := Run(Pair(kv), events).nodes[0];
    WorkerPops(Guide(kv), s, item);
    HoldingMeans(s, [], Some(item));
    var mid := QuietMove(kv, events, 0, WorkerTake(0));
    WorkerBroadcasts(Guide(kv), Holding(s, [], Some(item)), item, 1);
    more := SendingMove(kv, mid, 0, WorkerFinish(0, Transmission(true, [true])), Outgoing(1, item.msg, item.hops));
  }

  lemma HoldingMeans(s: NodeState, queue: seq<Item>, hand: Option<Item>)
    ensures var t := Holding(s, queue, hand);
      && t.hands == [hand] && t.core == s.core.(queue := queue) && t.core.content == s.core.content
      && t.core.sync == s.core.sync && t.(hands := [None]) == Holding(s, queue, None)
      && (s.core.queue == queue && s.hands == [hand] ==> t == s)
  {}

  /** The one direct item in a node's queue is popped and sent, and its callback runs. */
  lemma {:induction false} DirectGoesOut(kv: KeyValue, events: seq<Event>, n: nat, item: Item)
    returns (more: seq<Event>)
    requires n < 2
    requires var sys := Run(Pair(kv), events);
             && sys.packets == [] && sys.nodes[n].core.started && sys.nodes[n].core.queue == [item]
             && sys.nodes[n].hands == [None] && item.Direct? && WellSized(sys.nodes[n].core.content.local)
    ensures var sys, t := Run(Pair(kv), events), Run(Pair(kv), more);
      && t.packets == [Packet(n, item.addr, item.msg, item.hops)] && t.nodes[1 - n] == sys.nodes[1 - n]
      && (item.onSuccess.None? ==> t.nodes[n] == Holding(sys.nodes[n], [], None))
      && (item.onSuccess.Some? ==>
            var call := SyncTables.Call(item.onSuccess.value.key, item.onSuccess.value.origin);
            t.nodes[n].core.sync == SyncTables.Record(sys.nodes[n].core.sync, call, Pair(kv)[n].syncCapacity)
            && t.nodes[n].core.redis == sys.nodes[n].core.redis)
  {
    hide *;
    PairNodes(kv);
    var s := Run(Pair(kv), events).nodes[n];
    WorkerPops(Pair(kv)[n], s, item);
    HoldingMeans(s, [], Some(item));
    var mid := QuietMove(kv, events, n, WorkerTake(0));
    WorkerSendsDirect(Pair(kv)[n], Holding(s, [], Some(item)), item);
    more := SendingMove(kv, mid, n, WorkerFinish(0, Transmission(true, [])), Outgoing(item.addr, item.msg, item.hops));
  }

  /** The guide has seeded. */
  lemma {:induction false} Seeded1(kv: KeyValue) returns (events: seq<Event>)
    ensures var sys := Run(Pair(kv), events);
      && Guiding(kv, sys.nodes[0], None) && sys.nodes[0].core.queue == [] && sys.nodes[0].hands == [None]
      && sys.nodes[1] == InitialNode(Follower(kv)) && sys.packets == []
  {
    hide *;
    PairNodes(kv);
    StartOfPair(kv);
    GuideSeeds(kv);
    events := QuietMove(kv, [], 0, Start);
    events := QuietMove(kv, events, 0, Seed(Stored));
  }

  /** The guide's summary is on its way. */
  lemma {:induction false} Told(kv: KeyValue) returns (events: seq<Event>)
    ensures var sys := Run(Pair(kv), events);
      && Guiding(kv, sys.nodes[0], None) && sys.nodes[0].core.queue == [] && sys.nodes[0].hands == [None]
      && sys.nodes[1] == InitialNode(Follower(kv)) && sys.packets == [Packet(0, 1, TheSummary(kv), 0)]
  {
    hide *;
    PairNodes(kv);
    events := Seeded1(kv);
    var s := Run(Pair(kv), events).nodes[0];
    GuideSnapshots(kv, s);
    events := QuietMove(kv, events, 0, TakeSnapshot);
    Snapshotted(kv, s);
    GuideTells(kv, Run(Pair(kv), events).nodes[0]);
    events := QuietMove(kv, events, 0, SendSnapshot(Transmission(false, [])));
    var item := Broadcast(TheSummary(kv), 0, None);
    TellingState(kv, s, item);
    events := BroadcastGoesOut(kv, events, item);
  }

  lemma Snapshotted(kv: KeyValue, s: NodeState)
    requires Guiding(kv, s, None)
    ensures var t := s.(snapshot := Some(SeededFilter(kv)));
            Guiding(kv, t, Some(SeededFilter(kv))) && t.core == s.core
  {
    hide SeededFilter;
  }

  /** The guide's state with its summary queued, and once it has gone. */
  lemma TellingState(kv: KeyValue, s: NodeState, item: Item)
    requires Guiding(kv, s, None) && s.core.queue == [] && s.hands == [None]
    ensures var t := s.(snapshot := Some(SeededFilter(kv))).(snapshot := None, core := s.core.(queue := [item]));
      && t.core.started && t.core.queue == [item] && t.hands == [None] && WellSized(t.core.content.local)
      && Guiding(kv, Holding(t, [], None), None)
      && Holding(t, [], None).core.queue == [] && Holding(t, [], None).hands == [None]
  {
    FilterIsSized(kv);
    hide SeededFilter;
  }

  /** The follower has the summary. */
  lemma {:induction false} Heard1(kv: KeyValue) returns (events: seq<Event>)
    ensures var sys := Run(Pair(kv), events);
      && Guiding(kv, sys.nodes[0], None) && sys.nodes[0].core.queue == [] && sys.nodes[0].hands == [None]
      && Following(kv, sys.nodes[1], NextKey, Known(kv)) && sys.nodes[1].core.counter == 0 && sys.packets == []
  {
    hide *;
    PairNodes(kv);
    events := Told(kv);
    FollowerStarts(kv);
    events := QuietMove(kv, events, 1, Start);
    SummaryArrivesWhole(kv);
    FollowerHears(kv, Run(Pair(kv), events).nodes[1]);
    events := Arrival(kv, events, Packet(0, 1, TheSummary(kv), 0), Calm([]));
  }

  /** The follower has missed the key locally and chosen the guide. */
  lemma {:induction false} Chosen1(kv: KeyValue) returns (events: seq<Event>)
    ensures var sys := Run(Pair(kv), events);
      && Guiding(kv, sys.nodes[0], None) && sys.nodes[0].core.queue == [] && sys.nodes[0].hands == [None]
      && Following(kv, sys.nodes[1], Chosen(TheRequest(kv), 0), Known(kv)) && sys.packets == []
  {
    hide *;
    PairNodes(kv);
    events := Heard1(kv);
    FollowerMisses(kv, Run(Pair(kv), events).nodes[1]);
    events := QuietMove(kv, events, 1, LookUp(false, 1));
    FollowerNotes(kv, Run(Pair(kv), events).nodes[1]);
    events := QuietMove(kv, events, 1, NoteOwn(0, 0));
    FollowerChooses(kv, Run(Pair(kv), events).nodes[1]);
    events := QuietMove(kv, events, 1, Choose(0, [0]));
  }

  lemma AskingState(kv: KeyValue, s: NodeState, item: Item)
    requires Following(kv, s, Chosen(TheRequest(kv), 0), Known(kv))
    ensures var t := s.(sched := Asked(TheRequest(kv)), core := s.core.(queue := [item]));
      && t.core.started && t.core.queue == [item] && t.hands == [None] && WellSized(t.core.content.local)
      && Following(kv, Holding(t, [], None), Asked(TheRequest(kv)), Known(kv))
  {
    hide SeededFilter, RequestFor;
  }

  /** The request is on its way, and the fallback for it runs. */
  lemma {:induction false} Asked1(kv: KeyValue) returns (events: seq<Event>)
    ensures var sys := Run(Pair(kv), events);
      && Guiding(kv, sys.nodes[0], None) && sys.nodes[0].core.queue == [] && sys.nodes[0].hands == [None]
      && Waiting(kv, sys.nodes[1]) && sys.packets == [Packet(1, 0, TheRequest(kv), 0)]
  {
    hide *;
    PairNodes(kv);
    events := Chosen1(kv);
    var s := Run(Pair(kv), events).nodes[1];
    FollowerAsks(kv, s);
    events := QuietMove(kv, events, 1, Ask(Transmission(false, [])));
    var item := Direct(TheRequest(kv), 0, 0, None);
    AskingState(kv, s, item);
    events := DirectGoesOut(kv, events, 1, item);
    FollowerSchedules(kv, Run(Pair(kv), events).nodes[1]);
    events := QuietMove(kv, events, 1, ScheduleFallback(0));
  }

  /** The guide has served the request and noted whom it served; the answer is on its way. */
  lemma {:induction false} Served1(kv: KeyValue) returns (events: seq<Event>)
    requires Small(kv)
    ensures var sys := Run(Pair(kv), events);
      && sys.nodes[0].core.redis == map[kv.key := kv.value] && Waiting(kv, sys.nodes[1])
      && sys.nodes[0].core.sync == SyncTables.Record(SyncTables.FRESH, SyncTables.Call(kv.key, "b"), 128)
      && sys.packets == [Packet(0, 1, TheData(kv), 0)]
  {
    hide *;
    PairNodes(kv);
    events := Asked1(kv);
    GuideHolds(kv, Run(Pair(kv), events).nodes[0]);
    RequestArrivesWhole(kv);
    GuideServes(kv, Run(Pair(kv), events).nodes[0]);
    events := Arrival(kv, events, Packet(1, 0, TheRequest(kv), 0), Calm([kv.key]));
    ServedMeans(kv);
    events := DirectGoesOut(kv, events, 0, ServedItem(kv));
  }

  lemma ServedMeans(kv: KeyValue)
    ensures var item := ServedItem(kv);
      && item.Direct? && item.addr == 1 && item.msg == TheData(kv) && item.hops == 0
      && item.onSuccess == Some(Served(kv.key, "b"))
  {
    hide TheData;
  }

  lemma GuideHolds(kv: KeyValue, s: NodeState)
    requires Guiding(kv, s, None)
    ensures s.core.redis == map[kv.key := kv.value] && (Small(kv) ==> kv.key != "")
  {}

  lemma FirstRecorded(key: string)
    ensures var t := SyncTables.Record(SyncTables.FRESH, SyncTables.Call(key, "b"), 128);
            t.order == [key] && t.dests == map[key := ["b"]]
  {}

  /**
   * From a seed to its copy along the guided path: the seeder's summary is taken, sent, delivered and stored; the
   * requester misses the key locally, chooses the seeder, asks it and schedules its fallback; the seeder serves the
   * request and notes the requester in its SyncTable; the answer is stored, recorded as local, and ends the fallback.
   */
  lemma {:induction false} GuidedRun(kv: KeyValue) returns (events: seq<Event>)
    requires Small(kv)
    ensures var sys := Run(Pair(kv), events);
      && sys.nodes[1].core.redis == map[kv.key := kv.value] && sys.nodes[1].core.localKeys == {kv.key}
      && Contains(sys.nodes[1].core.content.local, kv.key) && sys.nodes[1].core.fallback == map[]
      && sys.nodes[0].core.redis == map[kv.key := kv.value]
      && sys.nodes[0].core.sync.order == [kv.key] && sys.nodes[0].core.sync.dests == map[kv.key := ["b"]]
  {
    hide *;
    PairNodes(kv);
    events := Served1(kv);
    DataArrivesWhole(kv);
    FirstRecorded(kv.key);
    SmallKey(kv);
    var s := Run(Pair(kv), events).nodes[1];
    FollowerStores(kv, s);
    events := Arrival(kv, events, Packet(0, 1, TheData(kv), 0), Calm([]));
  }

  lemma SmallKey(kv: KeyValue)
    requires Small(kv)
    ensures kv.key != ""
  {}
}
