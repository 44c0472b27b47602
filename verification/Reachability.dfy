/** What holds in every reachable state of the network, under loss, duplication and reordering. */
module Reachability {
  import opened Collections
  import opened Text
  import opened Wire
  import opened Bloom
  import opened Sends
  import opened NodeModel
  import opened Systems
  import opened Arrivals
  import opened Steps
  import opened NodeInvariants
  import opened Histories
  import Aggregator
  import ContentTables
  import FallbackTables
  import QueryLimiter
  import QueryTables

  predicate Fits(sys: System, kinds: set<MessageType>) {
    forall i :: 0 <= i < |sys.packets| && sys.packets[i].msg.kind in kinds ==> FitsDatagram(sys.packets[i].msg)
  }

  /** No datagram of these kinds outgrows the receive buffer in the run. */
  predicate AllFit(cfgs: seq<Config>, events: seq<Event>, kinds: set<MessageType>) {
    forall j :: 0 <= j <= |events| ==> Fits(Run(cfgs, events[..j]), kinds)
  }

  lemma {:induction false} AllFitPrefix(cfgs: seq<Config>, events: seq<Event>, kinds: set<MessageType>, n: nat)
    requires AllFit(cfgs, events, kinds) && n <= |events|
    ensures AllFit(cfgs, events[..n], kinds)
    ensures Fits(Run(cfgs, events[..n]), kinds)
  {
    forall j | 0 <= j <= n ensures Fits(Run(cfgs, events[..n][..j]), kinds) {
      assert events[..n][..j] == events[..j];
    }
  }

  // ---------- the invariant of every run ----------

  lemma InitialGood(cfgs: seq<Config>, kinds: set<MessageType>)
    requires ValidNetwork(cfgs)
    ensures Good(cfgs, [], kinds, InitialSystem(cfgs))
  {
    forall n | 0 <= n < |cfgs| ensures GoodNode(cfgs, [], kinds, n, InitialNode(cfgs[n])) {
      var s := InitialNode(cfgs[n]);
      assert SetOf(s.core.queue) == {} && HandItems(s.hands) == {};
    }
  }

  lemma NamesAreClean(cfgs: seq<Config>, kinds: set<MessageType>)
    requires CleanFor(cfgs, kinds)
    ensures CleanNames(cfgs)
  {}

  lemma NamesSuffice(cfgs: seq<Config>, kinds: set<MessageType>)
    requires CleanNames(cfgs) && Data !in kinds
    ensures CleanFor(cfgs, kinds)
  {}

  lemma {:induction false} StepNodeGood(cfgs: seq<Config>, events: seq<Event>, kinds: set<MessageType>, sys: System,
                                        n: nat, e: LocalEvent)
    requires ValidNetwork(cfgs) && CleanFor(cfgs, kinds) && Good(cfgs, events, kinds, sys) && n < |cfgs|
    requires sys.nodes == Run(cfgs, events).nodes && Enabled(sys.nodes[n], e) && VouchedInput(cfgs, events, kinds, n, e)
    ensures Good(cfgs, events, kinds, StepNode(cfgs, sys, n, e))
  {
    hide GoodNode, Vouched, VouchedInput, Enabled, LocalStep, CleanFor, CleanNames, ValidNetwork, Linked;
    NamesAreClean(cfgs, kinds);
    StepGood(cfgs, events, kinds, n, sys.nodes[n], e);
    var t := StepNode(cfgs, sys, n, e);
    forall i | 0 <= i < |t.packets| ensures GoodPacket(cfgs, events, kinds, t.packets[i]) {
      if i >= |sys.packets| {
        var o := LocalStep(cfgs[n], sys.nodes[n], e).out[i - |sys.packets|];
        assert t.packets[i] == Packet(n, o.dst, o.msg, o.hops);
      }
    }
  }

  lemma GoodWithout(cfgs: seq<Config>, events: seq<Event>, kinds: set<MessageType>, sys: System, i: nat)
    requires Good(cfgs, events, kinds, sys) && i < |sys.packets|
    ensures Good(cfgs, events, kinds, sys.(packets := Without(sys.packets, i)))
  {
    hide GoodNode, GoodPacket;
    var t := Without(sys.packets, i);
    forall k | 0 <= k < |t| ensures GoodPacket(cfgs, events, kinds, t[k]) {
      assert t[k] == sys.packets[if k < i then k else k + 1];
    }
  }

  lemma InputVouched(cfgs: seq<Config>, events: seq<Event>, kinds: set<MessageType>, sys: System, i: nat, env: Env,
                     txs: seq<Transmission>)
    requires CleanFor(cfgs, kinds) && Good(cfgs, events, kinds, sys) && Fits(sys, kinds)
    requires i < |sys.packets| && ReceiveEvent(sys.packets[i], env, txs).Some?
    ensures VouchedInput(cfgs, events, kinds, sys.packets[i].dst, ReceiveEvent(sys.packets[i], env, txs).value)
  {
    var p := sys.packets[i];
    hide GoodNode, Vouched, Heard, Linked, Arrives;
    assert GoodPacket(cfgs, events, kinds, p);
    WhatArrives(cfgs, events, kinds, p.src, p.msg, p.hops);
  }

  lemma {:induction false} DeliverGood(cfgs: seq<Config>, events: seq<Event>, kinds: set<MessageType>, ev: Event)
    requires ValidNetwork(cfgs) && CleanFor(cfgs, kinds)
    requires Good(cfgs, events, kinds, Run(cfgs, events)) && Fits(Run(cfgs, events), kinds)
    requires ev.Deliver? && CanStep(cfgs, Run(cfgs, events), ev)
    ensures Good(cfgs, events, kinds, Apply(cfgs, Run(cfgs, events), ev))
  {
    var sys := Run(cfgs, events);
    var p := sys.packets[ev.i];
    hide Good, Fits, Enabled, CleanFor, ValidNetwork, Run, StepNode, VouchedInput, Arrives;
    var taken := sys.(packets := Without(sys.packets, ev.i));
    GoodWithout(cfgs, events, kinds, sys, ev.i);
    if ReceiveEvent(p, ev.env, ev.txs).Some? {
      InputVouched(cfgs, events, kinds, sys, ev.i, ev.env, ev.txs);
      StepNodeGood(cfgs, events, kinds, taken, p.dst, ReceiveEvent(p, ev.env, ev.txs).value);
    }
  }

  lemma {:induction false} ApplyGood(cfgs: seq<Config>, events: seq<Event>, kinds: set<MessageType>, ev: Event)
    requires ValidNetwork(cfgs) && CleanFor(cfgs, kinds) && Good(cfgs, events, kinds, Run(cfgs, events))
             && Fits(Run(cfgs, events), kinds)
    requires CanStep(cfgs, Run(cfgs, events), ev)
    ensures Good(cfgs, events, kinds, Apply(cfgs, Run(cfgs, events), ev))
  {
    var sys := Run(cfgs, events);
    match ev {
      case At(n, e) =>
        hide Run, StepNode, GoodNode, GoodPacket;
        StepNodeGood(cfgs, events, kinds, sys, n, e);
      case Deliver(_, _, _) => DeliverGood(cfgs, events, kinds, ev);
      case Lose(i) =>
        hide Run, GoodNode, GoodPacket;
        GoodWithout(cfgs, events, kinds, sys, i);
      case Duplicate(i) => hide Run, GoodNode, GoodPacket;
    }
  }

  lemma {:induction false} GoodStep(cfgs: seq<Config>, events: seq<Event>, kinds: set<MessageType>, ev: Event)
    requires ValidNetwork(cfgs) && CleanFor(cfgs, kinds)
    requires Good(cfgs, events, kinds, Run(cfgs, events)) && Fits(Run(cfgs, events), kinds)
    ensures Good(cfgs, events + [ev], kinds, Run(cfgs, events + [ev]))
  {
    var sys := Run(cfgs, events);
    assert (events + [ev])[..|events|] == events;
    assert Run(cfgs, events + [ev]) == if CanStep(cfgs, sys, ev) then Apply(cfgs, sys, ev) else sys;
    hide *;
    if CanStep(cfgs, sys, ev) {
      ApplyGood(cfgs, events, kinds, ev);
    }
    GoodMore(cfgs, events, kinds, ev, Run(cfgs, events + [ev]));
  }

  /** Every reachable state is good. */
  lemma {:induction false} ReachableGood(cfgs: seq<Config>, events: seq<Event>, kinds: set<MessageType>)
    requires ValidNetwork(cfgs) && CleanFor(cfgs, kinds) && AllFit(cfgs, events, kinds)
    ensures Good(cfgs, events, kinds, Run(cfgs, events))
  {
    if events == [] {
      InitialGood(cfgs, kinds);
    } else {
      hide *;
      var n := |events| - 1;
      AllFitPrefix(cfgs, events, kinds, n);
      ReachableGood(cfgs, events[..n], kinds);
      GoodStep(cfgs, events[..n], kinds, events[n]);
      assert events == events[..n] + [events[n]];
    }
  }

  /** Every REQ in flight, however often it was forwarded, has the ttl of its origin's requests less its hops. */
  lemma {:induction false} RequestInFlight(cfgs: seq<Config>, events: seq<Event>, p: Packet)
    requires ValidNetwork(cfgs) && CleanNames(cfgs) && p in Run(cfgs, events).packets && p.msg.kind == Request
    ensures HopBudget(cfgs, p.msg, p.hops)
  {
    NothingToFit(cfgs, events);
    ReachableGood(cfgs, events, {});
    hide Run, GoodNode, HopBudget, Linked, CleanAsSent, Named, AllFit, ValidNetwork;
    var sys := Run(cfgs, events);
    var i :| 0 <= i < |sys.packets| && sys.packets[i] == p;
    assert GoodPacket(cfgs, events, {}, p);
  }

  // ---------- replica agreement ----------

  /** Seeds give each key one value. */
  ghost predicate SeedsAgree(cfgs: seq<Config>) {
    forall k, v, w :: SeedValue(cfgs, k, v) && SeedValue(cfgs, k, w) ==> v == w
  }

  predicate Holds(sys: System, n: nat, key: string, value: string) {
    n < |sys.nodes| && key in sys.nodes[n].core.redis && sys.nodes[n].core.redis[key] == value
  }

  /** A DATA in flight for the key. */
  predicate Carries(sys: System, i: nat, key: string, value: string) {
    i < |sys.packets| && sys.packets[i].msg.kind == Data
    && sys.packets[i].msg.key == key && sys.packets[i].msg.value == value
  }

  /** Any two nodes that hold a key hold the same, seeded value, and any DATA in flight for it carries that value. */
  lemma {:induction false} ReplicasAgree(cfgs: seq<Config>, events: seq<Event>, key: string)
    requires ValidNetwork(cfgs) && CleanFor(cfgs, {Data}) && AllFit(cfgs, events, {Data}) && SeedsAgree(cfgs)
    ensures var sys := Run(cfgs, events);
      && (forall n, v :: Holds(sys, n, key, v) ==> SeedValue(cfgs, key, v))
      && (forall n, m, v, w :: Holds(sys, n, key, v) && Holds(sys, m, key, w) ==> v == w)
      && (forall i, v :: Carries(sys, i, key, v) ==> SeedValue(cfgs, key, v))
      && (forall i, n, v, w :: Carries(sys, i, key, v) && Holds(sys, n, key, w) ==> v == w)
  {
    ReachableGood(cfgs, events, {Data});
    var sys := Run(cfgs, events);
    hide Run, SeedValue, WasHeld, WasFlushed, Linked, Own, Coherent, LinkedPeers, TrueSummaries, Items;
    forall n: nat, v | Holds(sys, n, key, v) ensures SeedValue(cfgs, key, v) {
      assert GoodNode(cfgs, events, {Data}, n, sys.nodes[n]);
    }
    forall i: nat, v | Carries(sys, i, key, v) ensures SeedValue(cfgs, key, v) {
      assert GoodPacket(cfgs, events, {Data}, sys.packets[i]);
    }
  }

  /** The node stores the value under the key, or a DATA in flight would. */
  ghost predicate Offers(sys: System, key: string, value: string) {
    (exists n: nat :: Holds(sys, n, key, value)) || (exists i: nat :: Carries(sys, i, key, value))
  }

  /**
   * Whatever datagrams are cut: every value stored or in flight is a seeded one perhaps cut, and if seeds agree then of
   * any two for one key one is a prefix of the other.
   */
  lemma {:induction false} AgreeUpToCut(cfgs: seq<Config>, events: seq<Event>, key: string)
    requires ValidNetwork(cfgs) && CleanNames(cfgs) && CleanSeedKeys(cfgs)
    ensures var sys := Run(cfgs, events);
      && (forall v :: Offers(sys, key, v) ==> CutOfSeed(cfgs, key, v))
      && (SeedsAgree(cfgs) ==> forall v, w :: Offers(sys, key, v) && Offers(sys, key, w) ==> v <= w || w <= v)
  {
    NothingToFit(cfgs, events);
    ReachableGood(cfgs, events, {});
    var sys := Run(cfgs, events);
    hide Run, AllFit, CutOfSeed, WasHeld, WasFlushed, Linked, Own, Coherent, LinkedPeers, TrueSummaries, Items,
         CleanSeedKeys, SeedsAgree;
    forall v | Offers(sys, key, v) ensures CutOfSeed(cfgs, key, v) {
      if n: nat :| Holds(sys, n, key, v) {
        assert GoodNode(cfgs, events, {}, n, sys.nodes[n]);
      } else {
        var i: nat :| Carries(sys, i, key, v);
        assert GoodPacket(cfgs, events, {}, sys.packets[i]);
      }
    }
    if SeedsAgree(cfgs) {
      forall v, w | CutOfSeed(cfgs, key, v) && CutOfSeed(cfgs, key, w) ensures v <= w || w <= v {
        CutsComparable(cfgs, key, v, w);
      }
    }
  }

  lemma CutsComparable(cfgs: seq<Config>, key: string, v: string, w: string)
    requires SeedsAgree(cfgs) && CutOfSeed(cfgs, key, v) && CutOfSeed(cfgs, key, w)
    ensures v <= w || w <= v
  {
    var n, kv :| 0 <= n < |cfgs| && kv in cfgs[n].seeds && IsCut(kv, key, v);
    var m, kw :| 0 <= m < |cfgs| && kw in cfgs[m].seeds && IsCut(kw, key, w);
    if key == kv.key == kw.key {
      assert kv == KeyValue(key, kv.value) && kw == KeyValue(key, kw.value);
      assert SeedValue(cfgs, key, kv.value) && SeedValue(cfgs, key, kw.value);
    }
  }

  lemma NothingToFit(cfgs: seq<Config>, events: seq<Event>)
    ensures AllFit(cfgs, events, {})
  {}

  // ---------- where a key came from ----------

  /** The j-th event gave node n the key. */
  ghost predicate Acquired(cfgs: seq<Config>, events: seq<Event>, j: nat, n: nat, key: string) {
    j < |events| && n < |cfgs|
    && key !in Past(cfgs, events, j, n).core.redis && key in Past(cfgs, events, j + 1, n).core.redis
  }

  ghost predicate Seeded(c: Config, key: string) {
    exists kv :: kv in c.seeds && kv.key == key
  }

  /**
   * A path of holders over topology links from a seeder to node n, each acquiring the key strictly after the one
   * before.
   */
  ghost predicate HolderChain(cfgs: seq<Config>, events: seq<Event>, n: nat, key: string, path: seq<nat>,
                              times: seq<nat>) {
    && |path| == |times| > 0 && path[|path| - 1] == n
    && (forall i :: 0 <= i < |path| ==> Acquired(cfgs, events, times[i], path[i], key))
    && (forall i, j :: 0 <= i < j < |times| ==> times[i] < times[j])
    && (forall i :: 0 <= i < |path| - 1 ==> Linked(cfgs, path[i], path[i + 1]))
    && Seeded(cfgs[path[0]], key)
  }

  lemma ChainInLongerRun(cfgs: seq<Config>, events: seq<Event>, j: nat, n: nat, key: string, path: seq<nat>,
                         times: seq<nat>)
    requires j <= |events| && HolderChain(cfgs, events[..j], n, key, path, times)
    ensures HolderChain(cfgs, events, n, key, path, times)
  {
    hide Run, Linked, Seeded;
    forall i | 0 <= i < |path| ensures Acquired(cfgs, events, times[i], path[i], key) {
      assert Acquired(cfgs, events[..j], times[i], path[i], key);
      assert events[..j][..times[i]] == events[..times[i]];
      assert events[..j][..times[i] + 1] == events[..times[i] + 1];
    }
    hide Acquired;
  }

  lemma StepRedis(c: Config, s: NodeState, e: LocalEvent)
    requires Enabled(s, e)
    ensures var before, after := s.core.redis, LocalStep(c, s, e).state.core.redis;
      || after == before
      || (e.Seed? && after == before[s.seedsLeft[0].key := s.seedsLeft[0].value])
      || (e.Receive? && e.msg.kind == Data && after == before[e.msg.key := e.msg.value])
  {
    StepFrame(c, s, e);
    if !e.WorkerTake? && !e.WorkerFinish? {
      ActRedis(c, s, e);
    }
    hide LocalStep, Act, Enabled, Items, FromItems;
    var r, quiet := LocalStep(c, s, e).state, if e.WorkerTake? || e.WorkerFinish? then s else Act(c, s, e).state;
    assert Quiet(r).core.redis == r.core.redis && Quiet(quiet).core.redis == quiet.core.redis;
  }

  /** How a node can come to hold a key: its own seed, or a linked node that held the key before. */
  ghost predicate HasSupplier(cfgs: seq<Config>, before: seq<Event>, n: nat, key: string) {
    n < |cfgs| && (Seeded(cfgs[n], key) || exists m :: Linked(cfgs, m, n) && WasHeld(cfgs, before, m, key))
  }

  lemma StepSupplied(cfgs: seq<Config>, events: seq<Event>, n: nat, s: NodeState, e: LocalEvent, key: string)
    requires n < |cfgs| && Own(cfgs[n], s) && Enabled(s, e)
    requires e.Receive? && e.msg.kind == Data ==> Linked(cfgs, e.src, n) && WasHeld(cfgs, events, e.src, e.msg.key)
    requires key !in s.core.redis && key in LocalStep(cfgs[n], s, e).state.core.redis
    ensures HasSupplier(cfgs, events, n, key)
  {
    StepRedis(cfgs[n], s, e);
    hide LocalStep, WasHeld, Linked, OwnRequest, OwnAgg, OwnFallback;
    if e.Seed? {
      assert s.seedsLeft[0] in s.seedsLeft;
    }
  }

  predicate KeysFit(sys: System) {
    forall i :: 0 <= i < |sys.packets| && sys.packets[i].msg.kind == Data ==> KeyFits(sys.packets[i].msg)
  }

  /** No DATA of the run is cut within its key, whatever becomes of its value. */
  predicate AllKeysFit(cfgs: seq<Config>, events: seq<Event>) {
    forall j :: 0 <= j <= |events| ==> KeysFit(Run(cfgs, events[..j]))
  }

  lemma {:induction false} AllKeysFitPrefix(cfgs: seq<Config>, events: seq<Event>, n: nat)
    requires AllKeysFit(cfgs, events) && n <= |events|
    ensures AllKeysFit(cfgs, events[..n]) && KeysFit(Run(cfgs, events[..n]))
  {
    hide Run, KeysFit;
    forall j | 0 <= j <= n ensures KeysFit(Run(cfgs, events[..n][..j])) {
      assert events[..n][..j] == events[..j];
    }
  }

  /** What fits fits by its key, so agreement's condition is the stronger one. */
  lemma {:induction false} FittingKeysFit(cfgs: seq<Config>, events: seq<Event>)
    requires AllFit(cfgs, events, {Data})
    ensures AllKeysFit(cfgs, events)
  {
    hide Run, FitsDatagram, KeyFits;
    forall j | 0 <= j <= |events| ensures KeysFit(Run(cfgs, events[..j])) {
      var sys := Run(cfgs, events[..j]);
      assert Fits(sys, {Data});
      forall i | 0 <= i < |sys.packets| && sys.packets[i].msg.kind == Data ensures KeyFits(sys.packets[i].msg) {
        FitsByKey(sys.packets[i].msg);
      }
    }
  }

  /** A DATA that arrives with its whole key came over a link from a node that held it. */
  lemma DataSupplied(cfgs: seq<Config>, events: seq<Event>, sys: System, i: nat)
    requires CleanSeedKeys(cfgs) && Good(cfgs, events, {}, sys) && KeysFit(sys) && i < |sys.packets|
    requires sys.packets[i].msg.kind == Data && Arrives(sys.packets[i].msg).Some?
    ensures var p := sys.packets[i];
            Linked(cfgs, p.src, p.dst) && WasHeld(cfgs, events, p.src, Arrives(p.msg).value.key)
  {
    hide GoodNode, WasHeld, Linked, Arrives, KeyFits, CutOfSeed, CleanSeedKeys;
    var m := sys.packets[i].msg;
    assert GoodPacket(cfgs, events, {}, sys.packets[i]);
    CutIsClean(cfgs, m.key, m.value);
    KeyArrivesExactly(m);
  }

  lemma ApplySupplied(cfgs: seq<Config>, events: seq<Event>, sys: System, ev: Event, n: nat, key: string)
    requires n < |cfgs| && CleanSeedKeys(cfgs) && Good(cfgs, events, {}, sys) && KeysFit(sys) && CanStep(cfgs, sys, ev)
    requires key !in sys.nodes[n].core.redis && key in Apply(cfgs, sys, ev).nodes[n].core.redis
    ensures HasSupplier(cfgs, events, n, key)
  {
    hide Run, LocalStep, Enabled, HasSupplier, KeysFit, Arrives, Own, Coherent, Linked, WasHeld, CleanSeedKeys,
         GoodStore;
    assert GoodNode(cfgs, events, {}, n, sys.nodes[n]);
    match ev {
      case At(m, e) => StepSupplied(cfgs, events, n, sys.nodes[n], e, key);
      case Deliver(i, env, txs) =>
        var p := sys.packets[i];
        KindArrives(p.msg);
        if p.msg.kind == Data {
          DataSupplied(cfgs, events, sys, i);
        }
        StepSupplied(cfgs, events, n, sys.nodes[n], ReceiveEvent(p, env, txs).value, key);
      case _ =>
    }
  }

  lemma {:induction false} AcquiredBy(cfgs: seq<Config>, events: seq<Event>, n: nat, key: string)
    requires ValidNetwork(cfgs) && CleanNames(cfgs) && CleanSeedKeys(cfgs) && AllKeysFit(cfgs, events)
    requires events != [] && n < |cfgs| && key in Run(cfgs, events).nodes[n].core.redis
    requires key !in Run(cfgs, events[..|events| - 1]).nodes[n].core.redis
    ensures Acquired(cfgs, events, |events| - 1, n, key)
    ensures HasSupplier(cfgs, events[..|events| - 1], n, key)
  {
    var init, ev := events[..|events| - 1], events[|events| - 1];
    assert events[..|events|] == events;
    AllKeysFitPrefix(cfgs, events, |events| - 1);
    NothingToFit(cfgs, init);
    ReachableGood(cfgs, init, {});
    hide HasSupplier, Good, KeysFit, CanStep, Apply, AllKeysFit, AllFit, ValidNetwork, CleanNames, CleanSeedKeys;
    ApplySupplied(cfgs, init, Run(cfgs, init), ev, n, key);
  }

  lemma SeederChain(cfgs: seq<Config>, events: seq<Event>, n: nat, key: string, t: nat)
    requires Acquired(cfgs, events, t, n, key) && Seeded(cfgs[n], key)
    ensures HolderChain(cfgs, events, n, key, [n], [t])
  {
    hide Acquired, Linked;
  }

  /** The unseeded node's supplier, and the run up to when it held the key. */
  lemma HolderBefore(cfgs: seq<Config>, events: seq<Event>, n: nat, key: string) returns (m: nat, j: nat)
    requires events != [] && AllKeysFit(cfgs, events)
    requires n < |cfgs| && !Seeded(cfgs[n], key) && HasSupplier(cfgs, events[..|events| - 1], n, key)
    ensures j < |events| && m < |cfgs| && Linked(cfgs, m, n)
    ensures AllKeysFit(cfgs, events[..j]) && key in Run(cfgs, events[..j]).nodes[m].core.redis
  {
    hide Seeded, Linked, AllKeysFit, Run;
    var before := events[..|events| - 1];
    m :| Linked(cfgs, m, n) && WasHeld(cfgs, before, m, key);
    j :| HeldAt(cfgs, before, j, m, key);
    assert before[..j] == events[..j];
    AllKeysFitPrefix(cfgs, events, j);
  }

  lemma {:induction false} NothingHeldInitially(cfgs: seq<Config>, n: nat, key: string)
    requires n < |cfgs|
    ensures key !in Run(cfgs, []).nodes[n].core.redis
  {}

  /** Every holder of a key is joined to a seeder by such a chain. */
  lemma {:induction false} HopChain(cfgs: seq<Config>, events: seq<Event>, n: nat, key: string)
    returns (path: seq<nat>, times: seq<nat>)
    requires ValidNetwork(cfgs) && CleanNames(cfgs) && CleanSeedKeys(cfgs) && AllKeysFit(cfgs, events)
    requires n < |cfgs| && key in Run(cfgs, events).nodes[n].core.redis
    ensures HolderChain(cfgs, events, n, key, path, times)
    decreases |events|
  {
    hide *;
    NothingHeldInitially(cfgs, n, key);
    var last := |events| - 1;
    var init := events[..last];
    AllKeysFitPrefix(cfgs, events, last);
    if key in Run(cfgs, init).nodes[n].core.redis {
      path, times := HopChain(cfgs, init, n, key);
      ChainInLongerRun(cfgs, events, last, n, key, path, times);
    } else {
      AcquiredBy(cfgs, events, n, key);
      if Seeded(cfgs[n], key) {
        SeederChain(cfgs, events, n, key, last);
        path, times := [n], [last];
      } else {
        var m, j := HolderBefore(cfgs, events, n, key);
        path, times := HopChain(cfgs, events[..j], m, key);
        ChainInLongerRun(cfgs, events, j, m, key, path, times);
        ExtendChain(cfgs, events, j, m, key, path, times, n, last);
        path, times := path + [n], times + [last];
      }
    }
  }

  lemma ExtendChain(cfgs: seq<Config>, events: seq<Event>, j: nat, m: nat, key: string, path: seq<nat>, times: seq<nat>,
                    n: nat, t: nat)
    requires j <= t < |events| && HolderChain(cfgs, events, m, key, path, times)
             && HolderChain(cfgs, events[..j], m, key, path, times)
    requires Linked(cfgs, m, n) && Acquired(cfgs, events, t, n, key)
    ensures HolderChain(cfgs, events, n, key, path + [n], times + [t])
  {
    hide Past, Linked, Seeded, Run;
    forall i | 0 <= i < |times| ensures times[i] < t {
      assert Acquired(cfgs, events[..j], times[i], path[i], key);
    }
    hide Acquired;
    var longer := path + [n];
    forall i | 0 <= i < |longer| - 1 ensures Linked(cfgs, longer[i], longer[i + 1]) {
      assert longer[i] == path[i];
    }
  }
}
