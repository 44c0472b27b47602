/** Facts about messages in terms of the run that produced them, and their preservation along the run. */
module Histories {
  import opened Collections
  import opened Text
  import opened Wire
  import opened Bloom
  import opened Sends
  import opened NodeModel
  import opened Systems
  import opened Arrivals
  import opened Steps
  import opened NodeInvariants
  import Aggregator
  import ContentTables
  import FallbackTables
  import QueryLimiter
  import QueryTables

  /** Node n after the first j events. */
  function Past(cfgs: seq<Config>, events: seq<Event>, j: nat, n: nat): NodeState
    requires j <= |events| && n < |cfgs|
  {
    Run(cfgs, events[..j]).nodes[n]
  }

  // ---------- what a message says about the past ----------

  ghost predicate HeldAt(cfgs: seq<Config>, events: seq<Event>, j: nat, n: nat, key: string) {
    j <= |events| && n < |cfgs| && key in Past(cfgs, events, j, n).core.redis
  }

  ghost predicate WasHeld(cfgs: seq<Config>, events: seq<Event>, n: nat, key: string) {
    exists j: nat :: HeldAt(cfgs, events, j, n, key)
  }

  ghost predicate FilterAt(cfgs: seq<Config>, events: seq<Event>, j: nat, n: nat, f: Filter) {
    j <= |events| && n < |cfgs| && f == Past(cfgs, events, j, n).core.content.local
  }

  /** f is exactly what node n's content filter once was. */
  ghost predicate WasFilter(cfgs: seq<Config>, events: seq<Event>, n: nat, f: Filter) {
    exists j: nat :: FilterAt(cfgs, events, j, n, f)
  }

  ghost predicate IsSummary(cfgs: seq<Config>, events: seq<Event>, n: nat, m: Message, f: Filter) {
    n < |cfgs| && WasFilter(cfgs, events, n, f) && m == SummaryOf(cfgs[n], f)
  }

  ghost predicate BatchAt(cfgs: seq<Config>, events: seq<Event>, j: nat, o: nat, b: Aggregator.Batch) {
    j <= |events| && o < |cfgs| && b in Past(cfgs, events, j, o).batches
  }

  /** A Query-BF is a flushed batch of node o, with one ttl spent per hop and some left. */
  ghost predicate IsQuery(cfgs: seq<Config>, events: seq<Event>, m: Message, hops: nat, j: nat, o: nat,
                          b: Aggregator.Batch) {
    && BatchAt(cfgs, events, j, o, b) && OwnBatch(cfgs[o], b)
    && hops < cfgs[o].requestTtl && m == QueryOf(cfgs[o], b).(ttl := cfgs[o].requestTtl - hops)
  }

  ghost predicate WasFlushed(cfgs: seq<Config>, events: seq<Event>, m: Message, hops: nat) {
    exists j: nat, o: nat, b :: IsQuery(cfgs, events, m, hops, j, o, b)
  }

  // ---------- what a message says about the past, and what of it is left on arrival ----------

  function LongestName(cfgs: seq<Config>): nat {
    if cfgs == [] then 0
    else
      var rest, last := LongestName(cfgs[..|cfgs| - 1]), |cfgs[|cfgs| - 1].nodeId|;
      if rest < last then last else rest
  }

  lemma {:induction false} NameIsShort(cfgs: seq<Config>, n: nat)
    requires n < |cfgs|
    ensures |cfgs[n].nodeId| <= LongestName(cfgs)
  {
    if n < |cfgs| - 1 {
      NameIsShort(cfgs[..|cfgs| - 1], n);
    }
  }

  function LongestOf(keys: seq<string>): nat {
    if keys == [] then 0
    else
      var rest, last := LongestOf(keys[..|keys| - 1]), |keys[|keys| - 1]|;
      if rest < last then last else rest
  }

  function LongestRequest(cfgs: seq<Config>): nat {
    if cfgs == [] then 0
    else
      var rest, last := LongestRequest(cfgs[..|cfgs| - 1]), LongestOf(cfgs[|cfgs| - 1].requests);
      if rest < last then last else rest
  }

  lemma {:induction false} KeyIsListed(keys: seq<string>, key: string)
    requires key in keys
    ensures |key| <= LongestOf(keys)
  {
    if key != keys[|keys| - 1] {
      assert key in keys[..|keys| - 1];
      KeyIsListed(keys[..|keys| - 1], key);
    }
  }

  lemma {:induction false} RequestIsShort(cfgs: seq<Config>, n: nat, key: string)
    requires n < |cfgs| && key in cfgs[n].requests
    ensures |key| <= LongestRequest(cfgs)
  {
    if n < |cfgs| - 1 {
      RequestIsShort(cfgs[..|cfgs| - 1], n, key);
    } else {
      KeyIsListed(cfgs[n].requests, key);
    }
  }

  /** Ids and origins stay within what the configured names allow, and requests within the requested keys. */
  predicate Named(cfgs: seq<Config>, m: Message) {
    && |m.requestId| <= LongestName(cfgs) + 42 && |m.origin| <= LongestName(cfgs)
    && (m.kind == Request && CleanRequests(cfgs) ==> |m.key| <= LongestRequest(cfgs) && m.value == "")
  }

  /** The fields without a separator, given that no configured name has one. */
  predicate CleanAsSent(cfgs: seq<Config>, m: Message) {
    && m.kind != Unknown && '|' !in m.requestId && '|' !in m.origin
    && (m.kind == Request && CleanRequests(cfgs) ==> '|' !in m.key)
    && (m.kind == ContentBloom || m.kind == QueryBloom ==> Clean(m))
  }

  /** What a DATA says of its key and value, as far as the configured keys, and the datagrams, allow. */
  ghost predicate TrueData(cfgs: seq<Config>, kinds: set<MessageType>, key: string, value: string) {
    && (CleanSeedKeys(cfgs) ==> CutOfSeed(cfgs, key, value))
    && (Data in kinds ==> SeedValue(cfgs, key, value))
  }

  /** A request of some node has as much ttl left as it was given, less one for each hop. */
  predicate HopBudget(cfgs: seq<Config>, m: Message, hops: nat) {
    exists o :: 0 <= o < |cfgs| && m.origin == cfgs[o].nodeId && 0 <= m.ttl == cfgs[o].requestTtl - hops
  }

  /** What is true of every message node n has sent or is about to send. Seeded values and flushed batches are claimed
      only if the datagrams of that kind always fit the receive buffer. */
  ghost predicate Vouched(cfgs: seq<Config>, events: seq<Event>, kinds: set<MessageType>, n: nat, m: Message,
                          hops: nat) {
    && CleanAsSent(cfgs, m) && Named(cfgs, m)
    && (m.kind == Request ==> HopBudget(cfgs, m, hops))
    && (m.kind == Data ==> WasHeld(cfgs, events, n, m.key) && TrueData(cfgs, kinds, m.key, m.value))
    && (m.kind == ContentBloom ==> exists f :: IsSummary(cfgs, events, n, m, f))
    && (m.kind == QueryBloom && QueryBloom in kinds ==> WasFlushed(cfgs, events, m, hops))
  }

  /** Names are free of the separator, and so are seeds where DATA is to arrive as sent. */
  predicate CleanFor(cfgs: seq<Config>, kinds: set<MessageType>) {
    CleanNames(cfgs) && (Data in kinds ==> CleanSeedKeys(cfgs) && CleanSeedValues(cfgs))
  }

  /** A text that may be the hex form of f cut short: if it has that form's length, it is that form. */
  predicate HexOrCut(hex: string, f: Filter) {
    |hex| == |ToHex(f)| ==> hex == ToHex(f)
  }

  ghost predicate HeardSummary(cfgs: seq<Config>, events: seq<Event>, n: nat, hex: string, f: Filter) {
    WasFilter(cfgs, events, n, f) && HexOrCut(hex, f)
  }

  /** What is true of every message that arrives from node n. */
  ghost predicate Heard(cfgs: seq<Config>, events: seq<Event>, kinds: set<MessageType>, n: nat, m: Message, hops: nat) {
    && Clean(m) && Named(cfgs, m)
    && (m.kind == Request ==> HopBudget(cfgs, m, hops))
    && (m.kind == Data ==> TrueData(cfgs, kinds, m.key, m.value))
    && (m.kind == ContentBloom ==> exists f :: HeardSummary(cfgs, events, n, m.key, f))
    && (m.kind == QueryBloom && QueryBloom in kinds ==> WasFlushed(cfgs, events, m, hops))
  }

  lemma DataArrives(cfgs: seq<Config>, events: seq<Event>, kinds: set<MessageType>, n: nat, m: Message, hops: nat)
    requires CleanFor(cfgs, kinds) && Vouched(cfgs, events, kinds, n, m, hops) && m.kind == Data
    requires Arrives(m).Some? && (Data in kinds ==> FitsDatagram(m))
    ensures TrueData(cfgs, kinds, Arrives(m).value.key, Arrives(m).value.value)
  {
    hide WasHeld, SeedValue, Arrives, FitsDatagram, CutOfSeed, CleanSeedKeys, CleanSeedValues;
    if CleanSeedKeys(cfgs) {
      CutIsClean(cfgs, m.key, m.value);
      CutMessage(m);
      CutFurther(cfgs, m.key, m.value, Arrives(m).value.key, Arrives(m).value.value);
      ArrivesExactly(m);
    }
  }

  lemma SummaryArrives(cfgs: seq<Config>, events: seq<Event>, kinds: set<MessageType>, n: nat, m: Message, hops: nat)
    requires Vouched(cfgs, events, kinds, n, m, hops) && m.kind == ContentBloom && Arrives(m).Some?
    ensures exists f :: HeardSummary(cfgs, events, n, Arrives(m).value.key, f)
  {
    hide WasFilter, Arrives, ToHex;
    CutMessage(m);
    var f :| IsSummary(cfgs, events, n, m, f);
    assert HexOrCut(Arrives(m).value.key, f);
    assert HeardSummary(cfgs, events, n, Arrives(m).value.key, f);
  }

  lemma NamedArrives(cfgs: seq<Config>, m: Message)
    requires CleanAsSent(cfgs, m) && Named(cfgs, m) && Arrives(m).Some?
    ensures Named(cfgs, Arrives(m).value) && Arrives(m).value.kind == m.kind
  {
    hide Arrives, CleanRequests, LongestName, LongestRequest;
    NamesArrive(m);
    KindArrives(m);
    if m.kind == Request && CleanRequests(cfgs) {
      CutMessage(m);
    }
  }

  lemma BudgetArrives(cfgs: seq<Config>, m: Message, hops: nat)
    requires '|' !in m.requestId && '|' !in m.origin && HopBudget(cfgs, m, hops) && Arrives(m).Some?
    ensures HopBudget(cfgs, Arrives(m).value, hops)
  {
    NamesArrive(m);
    TtlArrives(m);
    hide Arrives;
  }

  /** Whatever arrives of a vouched message still says what it can, if the kinds that must fit do. */
  lemma WhatArrives(cfgs: seq<Config>, events: seq<Event>, kinds: set<MessageType>, n: nat, m: Message, hops: nat)
    requires CleanFor(cfgs, kinds) && Vouched(cfgs, events, kinds, n, m, hops)
    requires Arrives(m).Some? && (m.kind in kinds ==> FitsDatagram(m))
    ensures Heard(cfgs, events, kinds, n, Arrives(m).value, hops)
  {
    hide WasHeld, WasFlushed, Arrives, Clean, FitsDatagram, HeardSummary, TrueData, Named, CleanFor, HopBudget;
    NamedArrives(cfgs, m);
    ArrivedIsClean(m);
    if m.kind == Request {
      BudgetArrives(cfgs, m, hops);
    } else if m.kind == Data {
      DataArrives(cfgs, events, kinds, n, m, hops);
    } else if m.kind == ContentBloom {
      SummaryArrives(cfgs, events, kinds, n, m, hops);
    } else if m.kind == QueryBloom && QueryBloom in kinds {
      ArrivesExactly(m);
    }
  }

  ghost predicate VouchedItem(cfgs: seq<Config>, events: seq<Event>, kinds: set<MessageType>, n: nat, item: Item) {
    Vouched(cfgs, events, kinds, n, item.msg, item.hops) && (item.Direct? ==> Linked(cfgs, n, item.addr))
  }

  /** The filter is what node n's parameters decode from a text that arrived from node a. */
  ghost predicate IsDecoded(cfgs: seq<Config>, events: seq<Event>, a: nat, n: nat, stored: Filter, f: Filter,
                            hex: string) {
    && n < |cfgs| && HeardSummary(cfgs, events, a, hex, f)
    && FromHex(cfgs[n].contentBits, cfgs[n].contentHashes, hex) == Some(stored)
  }

  ghost predicate TrueSummaries(cfgs: seq<Config>, events: seq<Event>, n: nat, s: NodeState) {
    && (forall a :: a in s.core.content.neighbors ==>
          exists f, hex :: IsDecoded(cfgs, events, a, n, s.core.content.neighbors[a].filter, f, hex))
    && (s.snapshot.Some? ==> WasFilter(cfgs, events, n, s.snapshot.value))
  }

  /** Redis holds seeds, perhaps cut, and uncut ones if all DATA fits the receive buffer. */
  ghost predicate GoodStore(cfgs: seq<Config>, kinds: set<MessageType>, redis: map<string, string>) {
    (CleanSeedKeys(cfgs) ==> FromCutSeeds(cfgs, redis)) && (Data in kinds ==> FromSeeds(cfgs, redis))
  }

  ghost predicate GoodNode(cfgs: seq<Config>, events: seq<Event>, kinds: set<MessageType>, n: nat, s: NodeState) {
    && n < |cfgs|
    && Own(cfgs[n], s) && Coherent(cfgs[n], s.core) && GoodStore(cfgs, kinds, s.core.redis) && LinkedPeers(cfgs, n, s)
    && TrueSummaries(cfgs, events, n, s)
    && forall item :: item in Items(s) ==> VouchedItem(cfgs, events, kinds, n, item)
  }

  ghost predicate GoodPacket(cfgs: seq<Config>, events: seq<Event>, kinds: set<MessageType>, p: Packet) {
    Linked(cfgs, p.src, p.dst) && Vouched(cfgs, events, kinds, p.src, p.msg, p.hops)
  }

  ghost predicate Good(cfgs: seq<Config>, events: seq<Event>, kinds: set<MessageType>, sys: System) {
    && |sys.nodes| == |cfgs|
    && (forall n :: 0 <= n < |cfgs| ==> GoodNode(cfgs, events, kinds, n, sys.nodes[n]))
    && (forall i :: 0 <= i < |sys.packets| ==> GoodPacket(cfgs, events, kinds, sys.packets[i]))
  }

  // ---------- a longer run keeps every such fact ----------

  lemma VouchedMore(cfgs: seq<Config>, events: seq<Event>, kinds: set<MessageType>, ev: Event, n: nat, m: Message,
                    hops: nat)
    requires Vouched(cfgs, events, kinds, n, m, hops)
    ensures Vouched(cfgs, events + [ev], kinds, n, m, hops)
  {
    hide Run, CleanAsSent, Named, TrueData, WasFilter, HopBudget;
    var more := events + [ev];
    if m.kind == Data {
      var j: nat :| HeldAt(cfgs, events, j, n, m.key);
      assert more[..j] == events[..j];
      assert HeldAt(cfgs, more, j, n, m.key);
    }
    if m.kind == ContentBloom {
      var f :| IsSummary(cfgs, events, n, m, f);
      FilterMore(cfgs, events, ev, n, f);
      assert IsSummary(cfgs, more, n, m, f);
    }
    if m.kind == QueryBloom && QueryBloom in kinds {
      var j: nat, o: nat, b :| IsQuery(cfgs, events, m, hops, j, o, b);
      assert more[..j] == events[..j];
      assert IsQuery(cfgs, more, m, hops, j, o, b);
    }
  }

  lemma FilterMore(cfgs: seq<Config>, events: seq<Event>, ev: Event, n: nat, f: Filter)
    requires WasFilter(cfgs, events, n, f)
    ensures WasFilter(cfgs, events + [ev], n, f)
  {
    var j: nat :| FilterAt(cfgs, events, j, n, f);
    assert (events + [ev])[..j] == events[..j];
    assert FilterAt(cfgs, events + [ev], j, n, f);
  }

  lemma SummariesMore(cfgs: seq<Config>, events: seq<Event>, ev: Event, n: nat, s: NodeState)
    requires TrueSummaries(cfgs, events, n, s)
    ensures TrueSummaries(cfgs, events + [ev], n, s)
  {
    hide FromHex, HexOrCut, WasFilter;
    forall a | a in s.core.content.neighbors
      ensures exists f, hex :: IsDecoded(cfgs, events + [ev], a, n, s.core.content.neighbors[a].filter, f, hex)
    {
      var stored := s.core.content.neighbors[a].filter;
      var f, hex :| IsDecoded(cfgs, events, a, n, stored, f, hex);
      FilterMore(cfgs, events, ev, a, f);
      assert IsDecoded(cfgs, events + [ev], a, n, stored, f, hex);
    }
    if s.snapshot.Some? {
      FilterMore(cfgs, events, ev, n, s.snapshot.value);
    }
  }

  lemma GoodMore(cfgs: seq<Config>, events: seq<Event>, kinds: set<MessageType>, ev: Event, sys: System)
    requires Good(cfgs, events, kinds, sys)
    ensures Good(cfgs, events + [ev], kinds, sys)
  {
    hide Own, Coherent, GoodStore, LinkedPeers, TrueSummaries, Vouched, Items;
    forall n | 0 <= n < |cfgs| ensures GoodNode(cfgs, events + [ev], kinds, n, sys.nodes[n]) {
      assert GoodNode(cfgs, events, kinds, n, sys.nodes[n]);
      SummariesMore(cfgs, events, ev, n, sys.nodes[n]);
      forall item | item in Items(sys.nodes[n]) ensures VouchedItem(cfgs, events + [ev], kinds, n, item) {
        VouchedMore(cfgs, events, kinds, ev, n, item.msg, item.hops);
      }
    }
    forall i | 0 <= i < |sys.packets| ensures GoodPacket(cfgs, events + [ev], kinds, sys.packets[i]) {
      var p := sys.packets[i];
      assert GoodPacket(cfgs, events, kinds, p);
      VouchedMore(cfgs, events, kinds, ev, p.src, p.msg, p.hops);
    }
  }

  // ---------- one node's step ----------

  /** The message a Receive event hands over came along a link from a node that vouched for it. */
  ghost predicate VouchedInput(cfgs: seq<Config>, events: seq<Event>, kinds: set<MessageType>, n: nat, e: LocalEvent) {
    e.Receive? ==> Linked(cfgs, e.src, n) && Heard(cfgs, events, kinds, e.src, e.msg, e.hops)
  }

  lemma {:induction false} HexIsClean(data: seq<bv8>)
    ensures '|' !in HexText(data)
  {
    if data != [] {
      HexIsClean(data[..|data| - 1]);
      hide Popcount, TestBit;
    }
  }

  lemma QueryIsClean(c: Config, b: Aggregator.Batch)
    requires '|' !in c.nodeId && OwnBatch(c, b)
    ensures Clean(QueryOf(c, b))
  {
    HexIsClean(Aggregator.FilterOf(c.batching, b.keys).data);
    DigitsHaveNoBar(b.createdMs);
    assert IntToString(b.createdMs) == NatToString(b.createdMs);
    hide HexText, NatToString, Aggregator.FilterOf;
    var id := Aggregator.MakeBatchId(b.origin, b.createdMs);
    forall i | 0 <= i < |id| ensures id[i] != '|' {
      var o := b.origin;
      assert id == "qbf-" + o + "-" + IntToString(b.createdMs);
      if i < 4 {
      } else if i < 4 + |o| {
        assert id[i] == o[i - 4];
      } else if i > 4 + |o| {
        assert id[i] == IntToString(b.createdMs)[i - 5 - |o|];
      }
    }
  }

  /** A DATA about to be sent for a key that is held, under names that came in or were made here. */
  lemma {:induction false} DataVouched(cfgs: seq<Config>, events: seq<Event>, kinds: set<MessageType>, n: nat,
                                       s: NodeState, id: string, origin: string, key: string)
    requires n < |cfgs| && '|' !in id && '|' !in origin
    requires |id| <= LongestName(cfgs) + 42 && |origin| <= LongestName(cfgs)
    requires GoodStore(cfgs, kinds, s.core.redis) && key in s.core.redis
    requires Run(cfgs, events).nodes[n] == s
    ensures Vouched(cfgs, events, kinds, n, DataFor(cfgs[n], id, origin, key, s.core.redis[key]), 0)
  {
    hide Run, SeedValue;
    assert events[..|events|] == events;
    assert HeldAt(cfgs, events, |events|, n, key);
  }

  /** Every reply to a Query-BF is a direct DATA for a key of the snapshot that tests positive and was read. */
  lemma {:induction false} RepliesAre(c: Config, core: Core, f: Filter, origin: string, from: nat, keys: seq<string>,
                                      env: Env, item: Item)
    requires item in Replies(c, core, f, origin, from, keys, env)
    ensures item.Direct? && item.addr == from && item.hops == 0
    ensures item.msg.key in keys && Answers(core, f, item.msg.key, env)
    ensures exists millis: uint64, counter: uint64 ::
              var id := MakeRequestId(c.nodeId, millis, counter);
              item.msg == DataFor(c, id, origin, item.msg.key, core.redis[item.msg.key])
  {
    hide Answers, MakeRequestId;
    var init := keys[..|keys| - 1];
    if item in Replies(c, core, f, origin, from, init, env) {
      RepliesAre(c, core, f, origin, from, init, env, item);
    }
  }

  lemma {:induction false} ReplyVouched(cfgs: seq<Config>, events: seq<Event>, kinds: set<MessageType>, n: nat,
                                        s: NodeState, e: LocalEvent, f: Filter, item: Item)
    requires n < |cfgs| && CleanNames(cfgs) && e.Receive? && VouchedInput(cfgs, events, kinds, n, e)
    requires GoodStore(cfgs, kinds, s.core.redis) && Run(cfgs, events).nodes[n] == s
    requires item in Replies(cfgs[n], s.core, f, e.msg.origin, e.src, e.env.keyOrder, e.env)
    ensures VouchedItem(cfgs, events, kinds, n, item)
  {
    RepliesAre(cfgs[n], s.core, f, e.msg.origin, e.src, e.env.keyOrder, e.env, item);
    var millis: uint64, counter: uint64 :|
      var id := MakeRequestId(cfgs[n].nodeId, millis, counter);
      item.msg == DataFor(cfgs[n], id, e.msg.origin, item.msg.key, s.core.redis[item.msg.key]);
    RequestIdIsClean(cfgs[n], millis, counter);
    RequestIdIsShort(cfgs[n], millis, counter);
    NameIsShort(cfgs, n);
    hide MakeRequestId, GoodStore, Replies, WasHeld, SeedValue, WasFlushed;
    DataVouched(cfgs, events, kinds, n, s, MakeRequestId(cfgs[n].nodeId, millis, counter), e.msg.origin, item.msg.key);
  }

  /** Forwarding a Query-BF spends one ttl and adds one hop. */
  lemma ForwardVouched(cfgs: seq<Config>, events: seq<Event>, kinds: set<MessageType>, n: nat, src: nat, m: Message,
                       hops: nat)
    requires m.kind == QueryBloom && m.ttl - 1 > 0 && Heard(cfgs, events, kinds, src, m, hops)
    ensures Vouched(cfgs, events, kinds, n, m.(ttl := m.ttl - 1), hops + 1)
  {
    hide Past, BatchAt, ToHex;
    if QueryBloom in kinds {
      var j: nat, o: nat, b :| IsQuery(cfgs, events, m, hops, j, o, b);
      assert IsQuery(cfgs, events, m.(ttl := m.ttl - 1), hops + 1, j, o, b);
    }
  }

  lemma BudgetSpent(cfgs: seq<Config>, m: Message, hops: nat)
    requires HopBudget(cfgs, m, hops) && m.ttl > 0
    ensures HopBudget(cfgs, m.(ttl := m.ttl - 1), hops + 1)
  {
    var o :| 0 <= o < |cfgs| && m.origin == cfgs[o].nodeId && 0 <= m.ttl == cfgs[o].requestTtl - hops;
    assert cfgs[o].nodeId == m.(ttl := m.ttl - 1).origin;
  }

  lemma {:induction false} ReceiveVouched(cfgs: seq<Config>, events: seq<Event>, kinds: set<MessageType>, n: nat,
                                          s: NodeState, e: LocalEvent, item: Item)
    requires n < |cfgs| && CleanNames(cfgs) && e.Receive? && VouchedInput(cfgs, events, kinds, n, e)
    requires GoodStore(cfgs, kinds, s.core.redis) && Run(cfgs, events).nodes[n] == s && WellSized(s.core.content.local)
    requires item in Handle(cfgs[n], s.core, e.msg, e.src, e.hops, e.env).items
    ensures VouchedItem(cfgs, events, kinds, n, item)
  {
    var m, c := e.msg, cfgs[n];
    if m.kind == Request {
      RequestVouched(cfgs, events, kinds, n, s, e, item);
    } else if m.kind == QueryBloom {
      QueryVouched(cfgs, events, kinds, n, s, e, item);
    }
  }

  lemma {:induction false} RequestVouched(cfgs: seq<Config>, events: seq<Event>, kinds: set<MessageType>, n: nat,
                                          s: NodeState, e: LocalEvent, item: Item)
    requires n < |cfgs| && CleanNames(cfgs) && e.Receive? && VouchedInput(cfgs, events, kinds, n, e)
             && e.msg.kind == Request
    requires GoodStore(cfgs, kinds, s.core.redis) && Run(cfgs, events).nodes[n] == s && WellSized(s.core.content.local)
    requires item in HandleRequest(cfgs[n], s.core, e.msg, e.src, e.hops, e.env).items
    ensures VouchedItem(cfgs, events, kinds, n, item)
  {
    hide QueryAfter, Bloom.Add, Past;
    var d := DecideRequest(cfgs[n], s.core, e.msg, e.env);
    if d.ServeLocal? {
      DataVouched(cfgs, events, kinds, n, s, e.msg.requestId, e.msg.origin, e.msg.key);
    } else if d.Forward? {
      BudgetSpent(cfgs, e.msg, e.hops);
    }
    hide HopBudget;
  }

  /** A Query-BF makes its receiver send replies and, with ttl left, forward it. */
  lemma {:induction false} QueryItems(c: Config, core: Core, m: Message, from: nat, hops: nat, env: Env, item: Item)
    requires item in HandleQueryBloom(c, core, m, from, hops, env).items
    ensures AcceptedQuery(c, m, env).Some?
    ensures item in Replies(c, core, AcceptedQuery(c, m, env).value, m.origin, from, env.keyOrder, env)
         || (m.ttl - 1 > 0 && item == Broadcast(m.(ttl := m.ttl - 1), hops + 1, Some(from)))
  {
    hide AcceptedQuery, Replies, LimiterCall, QueryLimiter.After, QueryLimiter.Allows;
  }

  lemma {:induction false} QueryVouched(cfgs: seq<Config>, events: seq<Event>, kinds: set<MessageType>, n: nat,
                                        s: NodeState, e: LocalEvent, item: Item)
    requires n < |cfgs| && CleanNames(cfgs) && e.Receive? && VouchedInput(cfgs, events, kinds, n, e)
             && e.msg.kind == QueryBloom
    requires GoodStore(cfgs, kinds, s.core.redis) && Run(cfgs, events).nodes[n] == s
    requires item in HandleQueryBloom(cfgs[n], s.core, e.msg, e.src, e.hops, e.env).items
    ensures VouchedItem(cfgs, events, kinds, n, item)
  {
    hide Replies, HandleQueryBloom, Vouched, Heard, AcceptedQuery, CleanNames, GoodStore, Run, Linked;
    QueryItems(cfgs[n], s.core, e.msg, e.src, e.hops, e.env, item);
    var f := AcceptedQuery(cfgs[n], e.msg, e.env).value;
    if item in Replies(cfgs[n], s.core, f, e.msg.origin, e.src, e.env.keyOrder, e.env) {
      ReplyVouched(cfgs, events, kinds, n, s, e, f, item);
    } else {
      ForwardVouched(cfgs, events, kinds, n, e.src, e.msg, e.hops);
    }
  }

  lemma BatchIdIsShort(c: Config, b: Aggregator.Batch)
    requires OwnBatch(c, b)
    ensures |QueryOf(c, b).requestId| <= |c.nodeId| + 42
  {
    Uint64Digits(b.createdMs);
    assert IntToString(b.createdMs) == NatToString(b.createdMs);
    hide NatToString, ToHex;
  }

  lemma {:induction false} BatchVouched(cfgs: seq<Config>, events: seq<Event>, kinds: set<MessageType>, n: nat,
                                        s: NodeState)
    requires n < |cfgs| && CleanNames(cfgs) && ValidConfig(cfgs[n]) && Own(cfgs[n], s)
    requires Run(cfgs, events).nodes[n] == s && s.batches != []
    ensures Vouched(cfgs, events, kinds, n, QueryOf(cfgs[n], s.batches[0]), 0)
  {
    var b := s.batches[0];
    assert b in s.batches;
    QueryIsClean(cfgs[n], b);
    BatchIdIsShort(cfgs[n], b);
    NameIsShort(cfgs, n);
    hide Run, ToHex, IntToString, Aggregator.MakeBatchId, Aggregator.FilterOf;
    assert events[..|events|] == events;
    assert IsQuery(cfgs, events, QueryOf(cfgs[n], b), 0, |events|, n, b);
  }

  lemma SnapshotVouched(cfgs: seq<Config>, events: seq<Event>, kinds: set<MessageType>, n: nat, s: NodeState)
    requires n < |cfgs| && CleanNames(cfgs)
    requires s.snapshot.Some? && WasFilter(cfgs, events, n, s.snapshot.value)
    ensures Vouched(cfgs, events, kinds, n, SummaryOf(cfgs[n], s.snapshot.value), 0)
  {
    HexIsClean(s.snapshot.value.data);
    NameIsShort(cfgs, n);
    assert IsSummary(cfgs, events, n, SummaryOf(cfgs[n], s.snapshot.value), s.snapshot.value);
  }

  lemma {:induction false} ProducedVouched(cfgs: seq<Config>, events: seq<Event>, kinds: set<MessageType>, n: nat,
                                           s: NodeState, e: LocalEvent, item: Item)
    requires n < |cfgs| && CleanNames(cfgs) && ValidConfig(cfgs[n])
    requires Run(cfgs, events).nodes[n] == s && GoodNode(cfgs, events, kinds, n, s)
    requires Enabled(s, e) && VouchedInput(cfgs, events, kinds, n, e) && item in Produced(cfgs[n], s, e)
    ensures VouchedItem(cfgs, events, kinds, n, item)
  {
    hide Vouched, Items, Coherent, LinkedPeers, GoodStore, Handle, WasFilter, QueryOf, SummaryOf;
    assert LinkedPeers(cfgs, n, s);
    match e {
      case Ask(_) => AskVouched(cfgs, events, kinds, n, s);
      case SendBatch(_) => BatchVouched(cfgs, events, kinds, n, s);
      case SendSnapshot(_) => SnapshotVouched(cfgs, events, kinds, n, s);
      case Receive(_, _, _, _, _) => ReceiveVouched(cfgs, events, kinds, n, s, e, item);
      case _ =>
    }
    hide Own;
  }

  lemma AskVouched(cfgs: seq<Config>, events: seq<Event>, kinds: set<MessageType>, n: nat, s: NodeState)
    requires n < |cfgs| && CleanNames(cfgs) && ValidConfig(cfgs[n]) && Own(cfgs[n], s) && LinkedPeers(cfgs, n, s)
    requires s.sched.Chosen?
    ensures Vouched(cfgs, events, kinds, n, s.sched.req, 0) && Linked(cfgs, n, s.sched.neighbor)
  {
    assert s.requestsLeft[0] in s.requestsLeft;
    NameIsShort(cfgs, n);
    RequestIsShort(cfgs, n, s.requestsLeft[0]);
    assert HopBudget(cfgs, s.sched.req, 0);
  }

  // ---------- summaries ----------

  lemma ReceivedSummary(cfgs: seq<Config>, events: seq<Event>, kinds: set<MessageType>, n: nat, e: LocalEvent)
    requires n < |cfgs| && e.Receive? && e.msg.kind == ContentBloom && VouchedInput(cfgs, events, kinds, n, e)
    requires FromHex(cfgs[n].contentBits, cfgs[n].contentHashes, e.msg.key).Some?
    ensures exists f, hex ::
      IsDecoded(cfgs, events, e.src, n, FromHex(cfgs[n].contentBits, cfgs[n].contentHashes, e.msg.key).value, f, hex)
  {
    hide FromHex, HeardSummary;
    var f :| HeardSummary(cfgs, events, e.src, e.msg.key, f);
    var stored := FromHex(cfgs[n].contentBits, cfgs[n].contentHashes, e.msg.key).value;
    assert IsDecoded(cfgs, events, e.src, n, stored, f, e.msg.key);
  }

  /** A thread's step adds no summary, and only the exchange thread takes a snapshot. */
  lemma ActNeighbors(c: Config, s: NodeState, e: LocalEvent)
    requires Enabled(s, e) && !e.WorkerTake? && !e.WorkerFinish? && !e.Receive?
    ensures var t := Act(c, s, e).state;
      && (forall a :: a in t.core.content.neighbors ==>
            a in s.core.content.neighbors && t.core.content.neighbors[a] == s.core.content.neighbors[a])
      && (t.snapshot.Some? ==>
            t.snapshot == s.snapshot || (e.TakeSnapshot? && t.snapshot == Some(s.core.content.local)))
  {
    hide Bloom.Add, QueryTables.Record, ContentTables.Select, Aggregator.AddKey, Enumerates, Get;
    hide FallbackTables.AfterTake, FallbackTables.Due, Aggregator.AfterFlush, Aggregator.Flushed, QueryOf, SummaryOf,
         RequestFor;
  }

  lemma ReceiveSummaries(cfgs: seq<Config>, events: seq<Event>, kinds: set<MessageType>, n: nat, s: NodeState,
                         e: LocalEvent)
    requires n < |cfgs| && Enabled(s, e) && e.Receive?
    requires TrueSummaries(cfgs, events, n, s) && VouchedInput(cfgs, events, kinds, n, e)
    ensures TrueSummaries(cfgs, events, n, Act(cfgs[n], s, e).state)
  {
    hide IsDecoded, FromHex, Handle, WasFilter, VouchedInput;
    HandleNeighbors(cfgs[n], s.core, e.msg, e.src, e.hops, e.env);
    if e.msg.kind == ContentBloom && FromHex(cfgs[n].contentBits, cfgs[n].contentHashes, e.msg.key).Some? {
      ReceivedSummary(cfgs, events, kinds, n, e);
    }
  }

  lemma {:induction false} ActSummaries(cfgs: seq<Config>, events: seq<Event>, kinds: set<MessageType>, n: nat,
                                        s: NodeState, e: LocalEvent)
    requires n < |cfgs| && Enabled(s, e) && !e.WorkerTake? && !e.WorkerFinish?
    requires Run(cfgs, events).nodes[n] == s && TrueSummaries(cfgs, events, n, s)
             && VouchedInput(cfgs, events, kinds, n, e)
    ensures TrueSummaries(cfgs, events, n, Act(cfgs[n], s, e).state)
  {
    hide IsDecoded, FromHex, Act, Enabled, Run, VouchedInput;
    if e.Receive? {
      ReceiveSummaries(cfgs, events, kinds, n, s, e);
    } else {
      ActNeighbors(cfgs[n], s, e);
      if e.TakeSnapshot? {
        assert events[..|events|] == events;
        assert FilterAt(cfgs, events, |events|, n, s.core.content.local);
      }
      hide WasFilter;
    }
  }

  // ---------- the step as a whole ----------

  lemma OutgoingVouched(cfgs: seq<Config>, events: seq<Event>, kinds: set<MessageType>, n: nat, out: seq<Outgoing>,
                        items: set<Item>, i: nat)
    requires ValidNetwork(cfgs) && n < |cfgs| && i < |out| && FromItems(cfgs[n], out, items)
    requires forall item :: item in items ==> VouchedItem(cfgs, events, kinds, n, item)
    ensures Vouched(cfgs, events, kinds, n, out[i].msg, out[i].hops) && Linked(cfgs, n, out[i].dst)
  {
    assert HasSource(cfgs[n], out[i], items);
    var item :| item in items && CopyOf(cfgs[n], out[i], item);
    hide Vouched;
  }

  lemma GoodQuiet(cfgs: seq<Config>, events: seq<Event>, kinds: set<MessageType>, n: nat, s: NodeState, t: NodeState)
    requires n < |cfgs| && Quiet(s) == Quiet(t) && LinkedPeers(cfgs, n, t)
    requires Own(cfgs[n], t) && Coherent(cfgs[n], t.core) && GoodStore(cfgs, kinds, t.core.redis)
    requires TrueSummaries(cfgs, events, n, t)
    ensures Own(cfgs[n], s) && Coherent(cfgs[n], s.core) && GoodStore(cfgs, kinds, s.core.redis)
    ensures TrueSummaries(cfgs, events, n, s) && LinkedPeers(cfgs, n, s)
  {
    assert s.core == t.core.(queue := s.core.queue, sync := s.core.sync);
    assert s == t.(core := s.core, hands := s.hands);
    hide OwnRequest, OwnAgg, OwnFallback, OwnBatch, Contains, FromCutSeeds, FromSeeds, Linked, IsDecoded, WasFilter;
  }

  lemma ActGoodStore(cfgs: seq<Config>, events: seq<Event>, kinds: set<MessageType>, n: nat, s: NodeState,
                     e: LocalEvent)
    requires n < |cfgs| && Enabled(s, e) && !e.WorkerTake? && !e.WorkerFinish?
    requires Own(cfgs[n], s) && GoodStore(cfgs, kinds, s.core.redis) && VouchedInput(cfgs, events, kinds, n, e)
    ensures GoodStore(cfgs, kinds, Act(cfgs[n], s, e).state.core.redis)
  {
    hide Act, Enabled, Own, FromCutSeeds, FromSeeds, WasFlushed, SeedValue, CutOfSeed, CleanSeedKeys;
    if CleanSeedKeys(cfgs) {
      ActFromCutSeeds(cfgs, n, s, e);
    }
    if Data in kinds {
      ActFromSeeds(cfgs, n, s, e);
    }
  }

  /** Any step of a good node leaves it good and sends only vouched packets along links. */
  lemma {:induction false} StepGood(cfgs: seq<Config>, events: seq<Event>, kinds: set<MessageType>, n: nat,
                                    s: NodeState, e: LocalEvent)
    requires ValidNetwork(cfgs) && CleanNames(cfgs) && n < |cfgs|
    requires Run(cfgs, events).nodes[n] == s && GoodNode(cfgs, events, kinds, n, s)
    requires Enabled(s, e) && VouchedInput(cfgs, events, kinds, n, e)
    ensures GoodNode(cfgs, events, kinds, n, LocalStep(cfgs[n], s, e).state)
    ensures forall i :: 0 <= i < |LocalStep(cfgs[n], s, e).out| ==>
              var o := LocalStep(cfgs[n], s, e).out[i];
              Vouched(cfgs, events, kinds, n, o.msg, o.hops) && Linked(cfgs, n, o.dst)
  {
    hide LocalStep, Act, Enabled, Own, Coherent, GoodStore, LinkedPeers, TrueSummaries, Vouched, Heard, Linked, Run;
    var r := LocalStep(cfgs[n], s, e);
    StepFrame(cfgs[n], s, e);
    var quiet := if e.WorkerTake? || e.WorkerFinish? then s else Act(cfgs[n], s, e).state;
    if !e.WorkerTake? && !e.WorkerFinish? {
      ActOwn(cfgs[n], s, e);
      ActCoherent(cfgs[n], s, e);
      ActGoodStore(cfgs, events, kinds, n, s, e);
      ActLinked(cfgs, n, s, e);
      ActSummaries(cfgs, events, kinds, n, s, e);
    }
    GoodQuiet(cfgs, events, kinds, n, r.state, quiet);
    var made := Items(s) + SetOf(Produced(cfgs[n], s, e));
    forall item | item in made ensures VouchedItem(cfgs, events, kinds, n, item) {
      if item in SetOf(Produced(cfgs[n], s, e)) {
        ProducedVouched(cfgs, events, kinds, n, s, e, item);
      }
    }
    hide Produced, Items;
    forall i | 0 <= i < |r.out|
      ensures Vouched(cfgs, events, kinds, n, r.out[i].msg, r.out[i].hops) && Linked(cfgs, n, r.out[i].dst)
    {
      OutgoingVouched(cfgs, events, kinds, n, r.out, made, i);
    }
  }
}
