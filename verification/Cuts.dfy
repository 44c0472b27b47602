/** Runs in which a DATA arrives cut: what agreement and provenance lose, and exactly when they lose it. */
module Cuts {
  import opened Collections
  import opened Text
  import opened Wire
  import opened Bloom
  import opened Sends
  import opened NodeModel
  import opened Systems
  import opened Arrivals
  import opened Steps
  import opened NodeInvariants
  import opened Histories
  import opened Reachability
  import opened Coherence
  import opened Queries
  import opened Unrolled
  import Aggregator
  import ContentTables
  import FallbackTables
  import QueryLimiter
  import QueryTables
  import SyncTables

  // ---------- two nodes and one key ----------

  /** The defaults, with sends made at once, one hop and no limit on a batch's fill. */
  function Plain(name: string, neighbors: seq<nat>, seeds: seq<KeyValue>, requests: seq<string>): Config {
    Config(name, neighbors, seeds, requests, 1, 1500, 128, 512, 3, 3000, 300,
           Aggregator.Params(1024, 4, 200, 2000, 0.0, 0), 2000, QueryLimiter.Limits(3, 1000), false, 1, 1024)
  }

  function Seeder(kv: KeyValue): Config {
    Plain("a", [], [kv], [])
  }

  function Asker(kv: KeyValue): Config {
    Plain("b", [0], [], [kv.key])
  }

  /** Node 0 seeds the key, node 1 requests it. */
  function Two(kv: KeyValue): seq<Config> {
    [Seeder(kv), Asker(kv)]
  }

  /** Clocks near zero, nothing refused, the local keys in the given order. */
  function Calm(keys: seq<string>): Env {
    Env(0, 0, 0, 1, {}, Stored, keys, [1])
  }

  function TheBatch(kv: KeyValue): Aggregator.Batch {
    Aggregator.Batch("b", 1, [kv.key])
  }

  function TheQuery(kv: KeyValue): Message {
    QueryOf(Asker(kv), TheBatch(kv))
  }

  function TheAnswer(kv: KeyValue): Message {
    DataFor(Seeder(kv), MakeRequestId("a", 1, 0), "b", kv.key, kv.value)
  }

  // ---------- the seeder ----------

  /** The seeder once it has seeded. */
  ghost predicate HasSeeded(kv: KeyValue, s: NodeState) {
    && s.core.redis == map[kv.key := kv.value] && s.core.localKeys == {kv.key} && s.core.counter == 0
    && WellSized(s.core.content.local)
  }

  lemma SeederSeeds(kv: KeyValue)
    ensures Enabled(InitialNode(Seeder(kv)), Start)
    ensures var s1 := LocalStep(Seeder(kv), InitialNode(Seeder(kv)), Start);
      && s1.out == [] && Enabled(s1.state, Seed(Stored))
      && var s2 := LocalStep(Seeder(kv), s1.state, Seed(Stored));
         s2.out == [] && HasSeeded(kv, s2.state)
  {
    hide Bloom.Add;
  }

  // ---------- the asker ----------

  ghost predicate Asking(kv: KeyValue, s: NodeState, pc: Scheduler) {
    && s.core.started && s.seedsLeft == [] && s.requestsLeft == [kv.key] && s.sched == pc
    && s.core.redis == map[] && s.core.localKeys == {} && s.core.content.neighbors == map[]
    && s.core.agg == Aggregator.FRESH && s.batches == [] && WellSized(s.core.content.local)
  }

  lemma AskerStarts(kv: KeyValue)
    ensures Enabled(InitialNode(Asker(kv)), Start)
    ensures var r := LocalStep(Asker(kv), InitialNode(Asker(kv)), Start);
            r.out == [] && Asking(kv, r.state, NextKey)
  {}

  lemma AskerMisses(kv: KeyValue, s: NodeState)
    requires Asking(kv, s, NextKey)
    ensures Enabled(s, LookUp(false, 1))
    ensures var r := LocalStep(Asker(kv), s, LookUp(false, 1));
            var req := RequestFor(Asker(kv), kv.key, 1, s.core.counter);
            r.out == [] && Asking(kv, r.state, Originated(req))
  {
    hide RequestFor;
  }

  lemma AskerNotes(kv: KeyValue, s: NodeState, req: Message)
    requires Asking(kv, s, Originated(req))
    ensures Enabled(s, NoteOwn(0, 0))
    ensures var r := LocalStep(Asker(kv), s, NoteOwn(0, 0)); r.out == [] && Asking(kv, r.state, Noted(req))
  {
    hide QueryTables.Record;
  }

  lemma AskerFindsNobody(kv: KeyValue, s: NodeState, req: Message)
    requires Asking(kv, s, Noted(req))
    ensures Enabled(s, Choose(0, []))
    ensures var r := LocalStep(Asker(kv), s, Choose(0, [])); r.out == [] && Asking(kv, r.state, Unmatched(req))
  {
    assert SetOf<nat>([]) == {};
  }

  /** The asker with its key in its buffer, then with the batch in the flush thread's hands, then done. */
  ghost predicate Batching(kv: KeyValue, s: NodeState, buffered: bool, batches: seq<Aggregator.Batch>) {
    && s.core.started && s.seedsLeft == []
    && s.core.redis == map[] && s.core.localKeys == {} && WellSized(s.core.content.local) && s.batches == batches
    && s.core.agg.pending == [] && s.core.agg.buffers.Keys == {"b"}
    && (buffered ==> s.core.agg.buffers["b"] == Aggregator.Buffer(0, 1, [kv.key]))
  }

  lemma AskerBuffers(kv: KeyValue, s: NodeState, req: Message)
    requires Asking(kv, s, Unmatched(req)) && req.key == kv.key && req.origin == "b"
    ensures var e := Aggregate(0, Aggregator.WallClock(1, 1, 1));
            Enabled(s, e)
            && var r := LocalStep(Asker(kv), s, e); r.out == [] && Batching(kv, r.state, true, [])
  {
    hide Aggregator.FilterOf;
    assert [] + [kv.key] == [kv.key];
  }

  lemma AskerFlushes(kv: KeyValue, s: NodeState)
    requires Batching(kv, s, true, [])
    ensures var e := FlushDue(200, ["b"], map["b" := 1]);
            Enabled(s, e)
            && var r := LocalStep(Asker(kv), s, e); r.out == [] && Batching(kv, r.state, false, [TheBatch(kv)])
  {
    assert SetOf(["b"]) == {"b"} && ["b"][..0] == [];
    FlushOfOne(kv, s.core.agg);
    hide Aggregator.Flushed, Aggregator.AfterFlush;
  }

  lemma FlushOfOne(kv: KeyValue, a: Aggregator.State)
    requires a.pending == [] && a.buffers.Keys == {"b"} && a.buffers["b"] == Aggregator.Buffer(0, 1, [kv.key])
    ensures Aggregator.Flushed(Asker(kv).batching, a, 200, ["b"]) == [TheBatch(kv)]
    ensures var t := Aggregator.AfterFlush(Asker(kv).batching, a, 200, map["b" := 1]);
            t.pending == [] && t.buffers.Keys == {"b"}
  {
    assert ["b"][..0] == [] && Aggregator.DueBatches(Asker(kv).batching, a.buffers, 200, []) == [];
  }

  lemma AskerSends(kv: KeyValue, s: NodeState)
    requires Batching(kv, s, false, [TheBatch(kv)])
    ensures var e := SendBatch(Transmission(true, [true]));
            Enabled(s, e)
            && var r := LocalStep(Asker(kv), s, e);
               r.out == [Outgoing(0, TheQuery(kv), 0)] && Batching(kv, r.state, false, [])
  {
    hide QueryOf;
    var item, tx := Broadcast(TheQuery(kv), 0, None), Transmission(true, [true]);
    var acted := Act(Asker(kv), s, SendBatch(tx));
    SendAllOne(Asker(kv), acted.state.core, item, [tx]);
    assert [0][..0] == [] && Reached([], [true]) == [] && Reached([0], [true]) == [0];
    assert Packets(Asker(kv), item, tx) == [Outgoing(0, TheQuery(kv), 0)];
    hide SendAll;
  }

  // ---------- the answer ----------

  lemma QueryFitsWire(kv: KeyValue)
    ensures Clean(TheQuery(kv)) && FitsDatagram(TheQuery(kv))
  {
    QueryIsClean(Asker(kv), TheBatch(kv));
    BatchIdIsShort(Asker(kv), TheBatch(kv));
    WireLength(TheQuery(kv));
    Int32Digits(1);
    Uint64Digits(1);
    assert IntToString(1) == NatToString(1);
    assert |TheQuery(kv).key| == 2 * ByteCount(1024);
    hide ToWire, IntToString, NatToString, Aggregator.FilterOf, Aggregator.MakeBatchId;
  }

  /** The seeder reads the query back, and its filter is positive for the key. */
  lemma QueryIsRead(kv: KeyValue)
    ensures Arrives(TheQuery(kv)) == Some(TheQuery(kv))
    ensures var f := AcceptedQuery(Seeder(kv), TheQuery(kv), Calm([kv.key]));
            f == Some(Aggregator.FilterOf(Asker(kv).batching, [kv.key])) && Contains(f.value, kv.key)
  {
    QueryFitsWire(kv);
    ArrivesExactly(TheQuery(kv));
    var f := Aggregator.FilterOf(Asker(kv).batching, [kv.key]);
    HexRoundTrip(f);
    assert |ToHex(f)| == 2 * ByteCount(1024);
    Uint64RoundTrip(1);
    assert TheQuery(kv).value == NatToString(1) && NatToString(1) != "";
    Aggregator.HeldKeysTestPositive(Asker(kv).batching, [kv.key], kv.key);
    hide FromHex, ToHex, ParseUint64, Aggregator.FilterOf, NatToString, Contains, Arrives, Aggregator.MakeBatchId;
  }

  function AnswerItem(kv: KeyValue): Item {
    Direct(TheAnswer(kv), 0, 1, Some(Served(kv.key, "b")))
  }

  /** A positive filter over one readable key gives one reply. */
  lemma {:induction false} OneReply(c: Config, core: Core, f: Filter, key: string, env: Env)
    requires Contains(f, key) && key in core.redis && key !in env.getFails && env.idMillis == [1] && core.counter == 0
    ensures Replies(c, core, f, "b", 1, [key], env)
            == [Direct(DataFor(c, MakeRequestId(c.nodeId, 1, 0), "b", key, core.redis[key]), 0, 1,
                       Some(Served(key, "b")))]
  {
    hide Contains, MakeRequestId, DataFor;
    NoReplies(c, core, f, "b", 1, env);
    RepliesStep(c, core, f, "b", 1, [], key, env);
    assert [] + [key] == [key];
    hide Replies;
  }

  lemma {:induction false} NoReplies(c: Config, core: Core, f: Filter, origin: string, from: nat, env: Env)
    ensures Replies(c, core, f, origin, from, [], env) == []
  {}

  lemma SeederReplies(kv: KeyValue, s: NodeState)
    requires HasSeeded(kv, s)
    ensures HandleQueryBloom(Seeder(kv), s.core, TheQuery(kv), 1, 0, Calm([kv.key]))
            == Effect(s.core.(counter := 1), [AnswerItem(kv)])
  {
    hide AcceptedQuery, Aggregator.FilterOf, Contains, Replies, QueryOf, DataFor;
    QueryIsRead(kv);
    QueryNames(kv);
    OneReply(Seeder(kv), s.core, Aggregator.FilterOf(Asker(kv).batching, [kv.key]), kv.key, Calm([kv.key]));
  }

  /** A direct send that goes through at once. */
  lemma {:induction false} SentAtOnce(c: Config, core: Core, item: Item)
    requires !c.asyncForward && item.Direct?
    ensures var r := SendAll(c, core, [item], [Transmission(true, [])]);
            r.out == [Outgoing(item.addr, item.msg, item.hops)] && r.core.redis == core.redis
  {
    hide SendAll, SyncTables.Record;
    SendAllOne(c, core, item, [Transmission(true, [])]);
    assert Packets(c, item, Transmission(true, [])) == [Outgoing(item.addr, item.msg, item.hops)];
  }

  lemma SeederAnswers(kv: KeyValue, s: NodeState)
    requires HasSeeded(kv, s)
    ensures var e := Receive(TheQuery(kv), 1, 0, Calm([kv.key]), [Transmission(true, [])]);
            Enabled(s, e)
            && var r := LocalStep(Seeder(kv), s, e);
               r.out == [Outgoing(1, TheAnswer(kv), 0)] && r.state.core.redis == s.core.redis
  {
    hide HandleQueryBloom, QueryOf, SendAll, DataFor, HandleRequest, HandleData, HandleContentBloom;
    assert SetOf([kv.key]) == {kv.key};
    SeederReplies(kv, s);
    QueryNames(kv);
    SentAtOnce(Seeder(kv), s.core.(counter := 1), AnswerItem(kv));
  }

  lemma QueryNames(kv: KeyValue)
    ensures TheQuery(kv).kind == QueryBloom && TheQuery(kv).origin == "b" && TheQuery(kv).ttl == 1
  {
    hide ToHex;
  }

  // ---------- the run ----------

  /** An own step of a node, as the next event of a run. */
  lemma {:induction false} OwnStep(cfgs: seq<Config>, events: seq<Event>, n: nat, e: LocalEvent)
    requires n < |cfgs| && !e.Receive? && Enabled(Run(cfgs, events).nodes[n], e)
    ensures Run(cfgs, events + [At(n, e)]) == StepNode(cfgs, Run(cfgs, events), n, e)
  {
    RunStep(cfgs, events, At(n, e));
    hide Run, Enabled, StepNode;
  }

  lemma {:induction false} QuietStep(cfgs: seq<Config>, events: seq<Event>, n: nat, e: LocalEvent)
    requires n < |cfgs| && !e.Receive? && Enabled(Run(cfgs, events).nodes[n], e)
    requires LocalStep(cfgs[n], Run(cfgs, events).nodes[n], e).out == []
    ensures var sys := Run(cfgs, events);
            Run(cfgs, events + [At(n, e)])
            == System(sys.nodes[n := LocalStep(cfgs[n], sys.nodes[n], e).state], sys.packets)
  {
    OwnStep(cfgs, events, n, e);
    hide Run, Enabled, LocalStep;
    assert Launched(n, []) == [];
  }

  /** Node 0 has seeded and node 1 is as it started. */
  lemma {:induction false} Seeded0(kv: KeyValue) returns (events: seq<Event>)
    ensures var sys := Run(Two(kv), events);
            HasSeeded(kv, sys.nodes[0]) && sys.nodes[1] == InitialNode(Asker(kv)) && sys.packets == []
  {
    hide *;
    var cfgs := Two(kv);
    TwoNodes(kv);
    StartOfTwo(kv);
    SeederSeeds(kv);
    QuietStep(cfgs, [], 0, Start);
    QuietStep(cfgs, [] + [At(0, Start)], 0, Seed(Stored));
    events := [] + [At(0, Start)] + [At(0, Seed(Stored))];
  }

  lemma TwoNodes(kv: KeyValue)
    ensures |Two(kv)| == 2 && Two(kv)[0] == Seeder(kv) && Two(kv)[1] == Asker(kv)
  {}

  lemma {:induction false} StartOfTwo(kv: KeyValue)
    ensures var sys := Run(Two(kv), []);
            sys.packets == [] && sys.nodes == [InitialNode(Seeder(kv)), InitialNode(Asker(kv))]
  {
    hide InitialNode;
  }

  /** A step of node 1 that sends nothing leaves node 0 and the network as they are. */
  lemma {:induction false} AskerStep(kv: KeyValue, events: seq<Event>, e: LocalEvent) returns (more: seq<Event>)
    requires !e.Receive? && Enabled(Run(Two(kv), events).nodes[1], e)
    requires LocalStep(Asker(kv), Run(Two(kv), events).nodes[1], e).out == []
    ensures var sys, t := Run(Two(kv), events), Run(Two(kv), more);
      && t.nodes[0] == sys.nodes[0] && t.packets == sys.packets
      && t.nodes[1] == LocalStep(Asker(kv), sys.nodes[1], e).state
  {
    hide *;
    TwoNodes(kv);
    QuietStep(Two(kv), events, 1, e);
    more := events + [At(1, e)];
  }

  /** Node 1 has the batch for the key in its hands. */
  lemma {:induction false} Asked0(kv: KeyValue) returns (events: seq<Event>)
    ensures var sys := Run(Two(kv), events);
            HasSeeded(kv, sys.nodes[0]) && Batching(kv, sys.nodes[1], false, [TheBatch(kv)]) && sys.packets == []
  {
    hide *;
    TwoNodes(kv);
    events := Seeded0(kv);
    AskerStarts(kv);
    events := AskerStep(kv, events, Start);
    var s := Run(Two(kv), events).nodes[1];
    AskerMisses(kv, s);
    events := AskerStep(kv, events, LookUp(false, 1));
    var req := RequestFor(Asker(kv), kv.key, 1, s.core.counter);
    RequestNames(kv, s.core.counter);
    AskerNotes(kv, Run(Two(kv), events).nodes[1], req);
    events := AskerStep(kv, events, NoteOwn(0, 0));
    AskerFindsNobody(kv, Run(Two(kv), events).nodes[1], req);
    events := AskerStep(kv, events, Choose(0, []));
    AskerBuffers(kv, Run(Two(kv), events).nodes[1], req);
    events := AskerStep(kv, events, Aggregate(0, Aggregator.WallClock(1, 1, 1)));
    AskerFlushes(kv, Run(Two(kv), events).nodes[1]);
    events := AskerStep(kv, events, FlushDue(200, ["b"], map["b" := 1]));
  }

  lemma RequestNames(kv: KeyValue, counter: uint64)
    ensures var req := RequestFor(Asker(kv), kv.key, 1, counter); req.key == kv.key && req.origin == "b"
  {
    hide MakeRequestId;
  }

  /** The delivery of the only packet, as the next event. */
  lemma {:induction false} OnlyPacket(cfgs: seq<Config>, events: seq<Event>, p: Packet, env: Env,
                                      txs: seq<Transmission>)
    requires Run(cfgs, events).packets == [p] && p.dst < |cfgs| && Arrives(p.msg).Some?
    requires Enabled(Run(cfgs, events).nodes[p.dst], Receive(Arrives(p.msg).value, p.src, p.hops, env, txs))
    ensures var sys, e := Run(cfgs, events), Receive(Arrives(p.msg).value, p.src, p.hops, env, txs);
            Run(cfgs, events + [Deliver(0, env, txs)]) == StepNode(cfgs, System(sys.nodes, []), p.dst, e)
  {
    RunStep(cfgs, events, Deliver(0, env, txs));
    hide Run, Enabled, StepNode, Arrives;
    assert Without([p], 0) == [];
  }

  /** The answer is on its way: node 0 still holds the seed, node 1 nothing. */
  lemma {:induction false} AnswerInFlight(kv: KeyValue) returns (events: seq<Event>)
    ensures var sys := Run(Two(kv), events);
            && sys.nodes[0].core.redis == map[kv.key := kv.value] && Batching(kv, sys.nodes[1], false, [])
            && sys.packets == [Packet(0, 1, TheAnswer(kv), 0)]
  {
    hide *;
    TwoNodes(kv);
    events := Asked0(kv);
    var sys := Run(Two(kv), events);
    AskerSends(kv, sys.nodes[1]);
    var e := SendBatch(Transmission(true, [true]));
    OwnStep(Two(kv), events, 1, e);
    OneLaunched(Two(kv), sys, 1, e, Outgoing(0, TheQuery(kv), 0));
    events := events + [At(1, e)];
    var asked := Run(Two(kv), events);
    QueryIsRead(kv);
    SeededHolds(kv, asked.nodes[0]);
    SeederAnswers(kv, asked.nodes[0]);
    OnlyPacket(Two(kv), events, Packet(1, 0, TheQuery(kv), 0), Calm([kv.key]), [Transmission(true, [])]);
    var receive := Receive(TheQuery(kv), 1, 0, Calm([kv.key]), [Transmission(true, [])]);
    OneLaunched(Two(kv), System(asked.nodes, []), 0, receive, Outgoing(1, TheAnswer(kv), 0));
    events := events + [Deliver(0, Calm([kv.key]), [Transmission(true, [])])];
  }

  lemma SeededHolds(kv: KeyValue, s: NodeState)
    requires HasSeeded(kv, s)
    ensures s.core.redis == map[kv.key := kv.value]
  {}

  /** A step that sends one message into an empty network. */
  lemma OneLaunched(cfgs: seq<Config>, sys: System, n: nat, e: LocalEvent, o: Outgoing)
    requires n < |sys.nodes| == |cfgs| && sys.packets == [] && Enabled(sys.nodes[n], e)
    requires LocalStep(cfgs[n], sys.nodes[n], e).out == [o]
    ensures StepNode(cfgs, sys, n, e)
            == System(sys.nodes[n := LocalStep(cfgs[n], sys.nodes[n], e).state], [Packet(n, o.dst, o.msg, o.hops)])
  {
    hide LocalStep, Enabled;
  }

  /** Delivering the answer does to node 1's Redis what the datagram does, cut or not. */
  lemma {:induction false} Delivered(kv: KeyValue) returns (events: seq<Event>, core: Core)
    ensures core.redis == map[] && WellSized(core.content.local)
    ensures var sys := Run(Two(kv), events);
            && sys.nodes[0].core.redis == map[kv.key := kv.value]
            && sys.nodes[1].core.redis == RedisAfter(Asker(kv), core, TheAnswer(kv), 0, 0, Calm([]))
  {
    hide *;
    TwoNodes(kv);
    events := AnswerInFlight(kv);
    var sys, p := Run(Two(kv), events), Packet(0, 1, TheAnswer(kv), 0);
    core := sys.nodes[1].core;
    AskerListens(kv, sys.nodes[1]);
    if Arrives(p.msg).Some? {
      AskerReceives(kv, sys.nodes[1]);
      OnlyPacket(Two(kv), events, p, Calm([]), []);
      OtherNode(Two(kv), System(sys.nodes, []), 1, Receive(Arrives(p.msg).value, 0, 0, Calm([]), []), 0);
      events := events + [Deliver(0, Calm([]), [])];
    } else {
      NothingStored(kv, core);
    }
  }

  lemma AskerListens(kv: KeyValue, s: NodeState)
    requires Batching(kv, s, false, [])
    ensures s.core.redis == map[] && WellSized(s.core.content.local)
  {}

  lemma NothingStored(kv: KeyValue, core: Core)
    requires WellSized(core.content.local) && Arrives(TheAnswer(kv)).None?
    ensures RedisAfter(Asker(kv), core, TheAnswer(kv), 0, 0, Calm([])) == core.redis
  {
    hide Arrives;
  }

  lemma AskerReceives(kv: KeyValue, s: NodeState)
    requires Batching(kv, s, false, []) && Arrives(TheAnswer(kv)).Some?
    ensures var e := Receive(Arrives(TheAnswer(kv)).value, 0, 0, Calm([]), []);
            Enabled(s, e)
            && LocalStep(Asker(kv), s, e).state.core.redis
               == RedisAfter(Asker(kv), s.core, TheAnswer(kv), 0, 0, Calm([]))
  {
    hide Arrives, Handle, Act;
    var e := Receive(Arrives(TheAnswer(kv)).value, 0, 0, Calm([]), []);
    assert SetOf<string>([]) == {};
    StepFrame(Asker(kv), s, e);
    ReceiveRedis(Asker(kv), s, e);
    hide LocalStep, Enabled, Produced, Items, FromItems;
    var r, quiet := LocalStep(Asker(kv), s, e).state, Act(Asker(kv), s, e).state;
    assert Quiet(r).core.redis == r.core.redis && Quiet(quiet).core.redis == quiet.core.redis;
  }

  lemma ReceiveRedis(c: Config, s: NodeState, e: LocalEvent)
    requires Enabled(s, e) && e.Receive?
    ensures Act(c, s, e).state.core.redis == Handle(c, s.core, e.msg, e.src, e.hops, e.env).core.redis
  {
    hide Handle, Enumerates;
  }

  lemma OtherNode(cfgs: seq<Config>, sys: System, n: nat, e: LocalEvent, other: nat)
    requires n < |sys.nodes| == |cfgs| && other < |cfgs| && other != n && Enabled(sys.nodes[n], e)
    ensures StepNode(cfgs, sys, n, e).nodes[other] == sys.nodes[other]
    ensures StepNode(cfgs, sys, n, e).nodes[n] == LocalStep(cfgs[n], sys.nodes[n], e).state
  {
    hide LocalStep, Enabled;
  }

  // ---------- what is lost, and when ----------

  lemma {:induction false} TwoAreValid(kv: KeyValue)
    ensures ValidNetwork(Two(kv)) && CleanNames(Two(kv)) && SeedsAgree(Two(kv))
    ensures CleanSeedKeys(Two(kv)) <==> '|' !in kv.key
    ensures CleanSeedValues(Two(kv)) <==> '|' !in kv.value
  {
    assert kv in Two(kv)[0].seeds;
  }

  lemma AnswerForOrigin(kv: KeyValue)
    requires '|' !in kv.key && kv.key != ""
    ensures ForOrigin(Asker(kv), TheAnswer(kv)) && TheAnswer(kv).key == kv.key && TheAnswer(kv).value == kv.value
  {
    RequestIdIsClean(Seeder(kv), 1, 0);
    assert |MakeRequestId("a", 1, 0)| > 0;
    hide MakeRequestId;
  }

  /**
   * When the run leaves two replicas in agreement. Whatever the seed, as long as its key is clean and not empty, node
   * 1 ends up with it exactly if the datagram is long enough for the key, and with the seeded value exactly if the
   * datagram fits and the value is clean; otherwise its value is a proper prefix of node 0's.
   */
  lemma {:induction false} AgreesExactly(kv: KeyValue) returns (events: seq<Event>)
    requires '|' !in kv.key && kv.key != ""
    ensures ValidNetwork(Two(kv)) && CleanNames(Two(kv)) && CleanSeedKeys(Two(kv)) && SeedsAgree(Two(kv))
    ensures var sys, m := Run(Two(kv), events), TheAnswer(kv);
      && Holds(sys, 0, kv.key, kv.value)
      && (kv.key in sys.nodes[1].core.redis <==> KeyFits(m))
      && (Holds(sys, 1, kv.key, kv.value) <==> (FitsDatagram(m) && '|' !in kv.value))
      && (kv.key in sys.nodes[1].core.redis ==> sys.nodes[1].core.redis[kv.key] <= kv.value)
  {
    hide *;
    TwoNodes(kv);
    TwoAreValid(kv);
    AnswerForOrigin(kv);
    var core;
    events, core := Delivered(kv);
    var sys, m := Run(Two(kv), events), TheAnswer(kv);
    Ready(kv, core);
    KeyStoredExactly(Asker(kv), core, m, 0, 0, Calm([]));
    StoredExactly(Asker(kv), core, m, 0, 0, Calm([]));
    StoredIsPrefix(Asker(kv), core, m, 0, 0, Calm([]));
    HeldAlone(sys, 0, kv);
    HoldsMeans(sys, 1, kv.key, kv.value);
  }

  lemma Ready(kv: KeyValue, core: Core)
    requires core.redis == map[]
    ensures kv.key !in core.redis && !Calm([]).setOutcome.Refused?
  {}

  lemma HeldAlone(sys: System, n: nat, kv: KeyValue)
    requires n < |sys.nodes| && sys.nodes[n].core.redis == map[kv.key := kv.value]
    ensures Holds(sys, n, kv.key, kv.value)
  {}

  lemma HoldsMeans(sys: System, n: nat, key: string, value: string)
    requires n < |sys.nodes|
    ensures Holds(sys, n, key, value) <==> key in sys.nodes[n].core.redis && sys.nodes[n].core.redis[key] == value
  {}

  lemma StoredIsPrefix(c: Config, core: Core, m: Message, from: nat, hops: nat, env: Env)
    requires WellSized(core.content.local) && !env.setOutcome.Refused? && ForOrigin(c, m) && m.key !in core.redis
    ensures var after := RedisAfter(c, core, m, from, hops, env); m.key in after ==> after[m.key] <= m.value
  {
    if Arrives(m).Some? {
      CutMessage(m);
      StoresWhatArrives(c, core, Arrives(m).value, from, hops, env);
    }
    hide Arrives, Handle;
  }

  lemma AnswerLength(kv: KeyValue)
    ensures |ToWire(TheAnswer(kv))| <= |kv.key| + |kv.value| + 100
  {
    WireLength(TheAnswer(kv));
    Int32Digits(1);
    RequestIdIsShort(Seeder(kv), 1, 0);
    hide ToWire, IntToString, MakeRequestId;
  }

  /**
   * What a key too long for the datagram does to provenance: the run leaves node 1 holding a proper prefix of the
   * seeded key, which no node seeds, so no chain of holders leads back to a seeder.
   */
  lemma {:induction false} OrphanedKey(kv: KeyValue) returns (events: seq<Event>, k: nat)
    requires '|' !in kv.key && !KeyFits(TheAnswer(kv))
    ensures ValidNetwork(Two(kv)) && CleanNames(Two(kv)) && CleanSeedKeys(Two(kv))
    ensures 0 < k < |kv.key| && kv.key[..k] in Run(Two(kv), events).nodes[1].core.redis
    ensures forall path, times :: !HolderChain(Two(kv), events, 1, kv.key[..k], path, times)
  {
    hide *;
    TwoNodes(kv);
    TwoAreValid(kv);
    LongKey(kv);
    AnswerForOrigin(kv);
    var core;
    events, core := Delivered(kv);
    Ready(kv, core);
    k := CutKeyIsStored(Asker(kv), core, TheAnswer(kv), 0, 0, Calm([]));
    NoSeeder(kv, kv.key[..k]);
    forall path, times ensures !HolderChain(Two(kv), events, 1, kv.key[..k], path, times) {
      ChainHasSeeder(Two(kv), events, 1, kv.key[..k], path, times);
    }
  }

  lemma LongKey(kv: KeyValue)
    requires !KeyFits(TheAnswer(kv))
    ensures kv.key != ""
    ensures var m := TheAnswer(kv); |ToWire(m)| - |m.value| - 1 - |m.key| < DATAGRAM_MAX
  {
    AnswerLength(kv);
    WireLength(TheAnswer(kv));
    hide ToWire, IntToString, MakeRequestId;
  }

  lemma NoSeeder(kv: KeyValue, key: string)
    requires key != kv.key
    ensures forall n :: 0 <= n < |Two(kv)| ==> !Seeded(Two(kv)[n], key)
  {}

  lemma ChainHasSeeder(cfgs: seq<Config>, events: seq<Event>, n: nat, key: string, path: seq<nat>, times: seq<nat>)
    ensures HolderChain(cfgs, events, n, key, path, times) ==> exists m :: 0 <= m < |cfgs| && Seeded(cfgs[m], key)
  {
    hide Past, Linked, Seeded;
    if HolderChain(cfgs, events, n, key, path, times) {
      assert Acquired(cfgs, events, times[0], path[0], key);
    }
  }

  /** With a value too long, two nodes of a network whose seeds agree hold different values for one key. */
  lemma {:induction false} Disagreement(kv: KeyValue) returns (events: seq<Event>, value: string)
    requires '|' !in kv.key && 0 < |kv.key| <= DATAGRAM_MAX - 100 && |kv.value| > DATAGRAM_MAX
    ensures ValidNetwork(Two(kv)) && CleanNames(Two(kv)) && CleanSeedKeys(Two(kv)) && SeedsAgree(Two(kv))
    ensures var sys := Run(Two(kv), events);
            Holds(sys, 0, kv.key, kv.value) && Holds(sys, 1, kv.key, value) && value < kv.value
  {
    hide *;
    TwoNodes(kv);
    events := AgreesExactly(kv);
    var sys := Run(Two(kv), events);
    LongAnswer(kv);
    HoldsMeans(sys, 1, kv.key, kv.value);
    value := sys.nodes[1].core.redis[kv.key];
    HoldsMeans(sys, 1, kv.key, value);
  }

  lemma LongAnswer(kv: KeyValue)
    requires |kv.key| <= DATAGRAM_MAX - 100 && |kv.value| > DATAGRAM_MAX
    ensures KeyFits(TheAnswer(kv)) && !FitsDatagram(TheAnswer(kv))
  {
    AnswerLength(kv);
    WireLength(TheAnswer(kv));
    hide ToWire, IntToString, MakeRequestId;
  }
}
