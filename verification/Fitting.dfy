/** When every datagram of every run fits: a condition on the configurations alone. */
module Fitting {
  import opened Collections
  import opened Text
  import opened Wire
  import opened Bloom
  import opened Sends
  import opened NodeModel
  import opened Systems
  import opened Arrivals
  import opened NodeInvariants
  import opened Histories
  import opened Reachability
  import opened Coherence
  import Aggregator

  /** The longest message of a kind that these configurations can bring about fits the receive buffer. */
  predicate KindFits(cfgs: seq<Config>, kind: MessageType) {
    var names := 2 * LongestName(cfgs);
    match kind
    case Data =>
      forall n, kv :: 0 <= n < |cfgs| && kv in cfgs[n].seeds ==> names + 62 + |kv.key| + |kv.value| <= DATAGRAM_MAX
    case ContentBloom =>
      forall n :: 0 <= n < |cfgs| ==> names + 19 + 2 * ByteCount(cfgs[n].contentBits) <= DATAGRAM_MAX
    case QueryBloom =>
      forall n :: 0 <= n < |cfgs| ==> names + 81 + 2 * ByteCount(cfgs[n].batching.bitCount) <= DATAGRAM_MAX
    case Request => names + 62 + LongestRequest(cfgs) <= DATAGRAM_MAX
    case Unknown => true
  }

  predicate KindsFit(cfgs: seq<Config>, kinds: set<MessageType>) {
    forall k :: k in kinds ==> KindFits(cfgs, k)
  }

  lemma DataFits(cfgs: seq<Config>, m: Message)
    requires m.kind == Data && Named(cfgs, m) && SeedValue(cfgs, m.key, m.value) && KindFits(cfgs, Data)
    ensures FitsDatagram(m)
  {
    WireLength(m);
    Int32Digits(m.ttl);
    var n :| 0 <= n < |cfgs| && KeyValue(m.key, m.value) in cfgs[n].seeds;
    hide ToWire, IntToString, LongestName;
  }

  lemma RequestFits(cfgs: seq<Config>, m: Message)
    requires m.kind == Request && CleanRequests(cfgs) && Named(cfgs, m) && KindFits(cfgs, Request)
    ensures FitsDatagram(m)
  {
    WireLength(m);
    Int32Digits(m.ttl);
    hide ToWire, IntToString, LongestName, LongestRequest;
  }

  lemma SummaryFits(cfgs: seq<Config>, n: nat, f: Filter)
    requires n < |cfgs| && |f.data| == ByteCount(cfgs[n].contentBits) && KindFits(cfgs, ContentBloom)
    ensures FitsDatagram(SummaryOf(cfgs[n], f))
  {
    var m := SummaryOf(cfgs[n], f);
    WireLength(m);
    Int32Digits(m.ttl);
    NameIsShort(cfgs, n);
    hide ToWire, IntToString, LongestName, ByteCount;
  }

  lemma QueryFits(cfgs: seq<Config>, o: nat, b: Aggregator.Batch, m: Message)
    requires o < |cfgs| && OwnBatch(cfgs[o], b) && m == QueryOf(cfgs[o], b).(ttl := m.ttl) && KindFits(cfgs, QueryBloom)
    ensures FitsDatagram(m)
  {
    WireLength(m);
    Int32Digits(m.ttl);
    NameIsShort(cfgs, o);
    BatchIdIsShort(cfgs[o], b);
    Uint64Digits(b.createdMs);
    assert IntToString(b.createdMs) == NatToString(b.createdMs);
    hide ToWire, IntToString, NatToString, LongestName, ByteCount, Aggregator.MakeBatchId;
  }

  lemma PastFilterSize(cfgs: seq<Config>, events: seq<Event>, n: nat, f: Filter)
    requires ValidNetwork(cfgs) && n < |cfgs| && WasFilter(cfgs, events, n, f)
    ensures |f.data| == ByteCount(cfgs[n].contentBits)
  {
    hide Run, Own, ValidNetwork, ByteCount;
    var j: nat :| FilterAt(cfgs, events, j, n, f);
    ReachableSane(cfgs, events[..j]);
    assert Coherent(cfgs[n], Past(cfgs, events, j, n).core);
  }

  lemma VouchedFits(cfgs: seq<Config>, events: seq<Event>, kinds: set<MessageType>, n: nat, m: Message, hops: nat)
    requires ValidNetwork(cfgs) && KindsFit(cfgs, kinds) && (Request in kinds ==> CleanRequests(cfgs))
    requires m.kind in kinds && Vouched(cfgs, events, kinds, n, m, hops)
    ensures FitsDatagram(m)
  {
    hide FitsDatagram, WasFilter, WasHeld, SeedValue, CutOfSeed, CleanSeedKeys, CleanRequests, Past, OwnBatch, QueryOf,
         SummaryOf, Named, ValidNetwork,
         ByteCount;
    match m.kind {
      case Data => DataFits(cfgs, m);
      case Request => RequestFits(cfgs, m);
      case ContentBloom =>
        var f :| IsSummary(cfgs, events, n, m, f);
        PastFilterSize(cfgs, events, n, f);
        SummaryFits(cfgs, n, f);
      case QueryBloom =>
        var j: nat, o: nat, b :| IsQuery(cfgs, events, m, hops, j, o, b);
        QueryFits(cfgs, o, b, m);
      case _ =>
    }
  }

  lemma {:induction false} AllFitExtend(cfgs: seq<Config>, events: seq<Event>, kinds: set<MessageType>)
    requires events != [] && AllFit(cfgs, events[..|events| - 1], kinds) && Fits(Run(cfgs, events), kinds)
    ensures AllFit(cfgs, events, kinds)
  {
    hide Run, Fits;
    var init := events[..|events| - 1];
    forall j | 0 <= j <= |events| ensures Fits(Run(cfgs, events[..j]), kinds) {
      if j == |events| {
        assert events[..j] == events;
      } else {
        assert init[..j] == events[..j];
      }
    }
  }

  lemma GoodFits(cfgs: seq<Config>, events: seq<Event>, kinds: set<MessageType>, sys: System)
    requires ValidNetwork(cfgs) && KindsFit(cfgs, kinds) && (Request in kinds ==> CleanRequests(cfgs))
    requires Good(cfgs, events, kinds, sys)
    ensures Fits(sys, kinds)
  {
    hide GoodNode, Vouched, KindsFit, ValidNetwork, Linked, FitsDatagram, CleanRequests;
    forall i | 0 <= i < |sys.packets| && sys.packets[i].msg.kind in kinds ensures FitsDatagram(sys.packets[i].msg) {
      var p := sys.packets[i];
      assert GoodPacket(cfgs, events, kinds, p);
      VouchedFits(cfgs, events, kinds, p.src, p.msg, p.hops);
    }
  }

  lemma FitsAtStart(cfgs: seq<Config>, kinds: set<MessageType>)
    ensures AllFit(cfgs, [], kinds)
  {}

  /** Short enough names, keys, values and filters in the configurations make every datagram of every run fit. */
  lemma {:induction false} AlwaysFits(cfgs: seq<Config>, events: seq<Event>, kinds: set<MessageType>)
    requires ValidNetwork(cfgs) && CleanFor(cfgs, kinds) && (Request in kinds ==> CleanRequests(cfgs))
    requires KindsFit(cfgs, kinds)
    ensures AllFit(cfgs, events, kinds)
  {
    hide *;
    if events == [] {
      FitsAtStart(cfgs, kinds);
    } else {
      var n := |events| - 1;
      var init := events[..n];
      AlwaysFits(cfgs, init, kinds);
      AllFitPrefix(cfgs, init, kinds, n);
      assert init[..n] == init && events == init + [events[n]];
      ReachableGood(cfgs, init, kinds);
      GoodStep(cfgs, init, kinds, events[n]);
      GoodFits(cfgs, events, kinds, Run(cfgs, events));
      AllFitExtend(cfgs, events, kinds);
    }
  }

  /** Short enough names and seeded keys keep every DATA of every run whole up to its key, however long the values. */
  predicate SeedKeysFit(cfgs: seq<Config>) {
    forall n, kv :: 0 <= n < |cfgs| && kv in cfgs[n].seeds ==> 2 * LongestName(cfgs) + 61 + |kv.key| <= DATAGRAM_MAX
  }

  lemma DataKeyFits(cfgs: seq<Config>, m: Message)
    requires m.kind == Data && Named(cfgs, m) && CutOfSeed(cfgs, m.key, m.value) && SeedKeysFit(cfgs)
    ensures KeyFits(m)
  {
    WireLength(m);
    Int32Digits(m.ttl);
    var n, kv :| 0 <= n < |cfgs| && kv in cfgs[n].seeds && IsCut(kv, m.key, m.value);
    hide ToWire, IntToString, LongestName;
  }

  lemma {:induction false} KeysAlwaysFit(cfgs: seq<Config>, events: seq<Event>)
    requires ValidNetwork(cfgs) && CleanNames(cfgs) && CleanSeedKeys(cfgs) && SeedKeysFit(cfgs)
    ensures AllKeysFit(cfgs, events)
  {
    hide Run, GoodNode, CutOfSeed, CleanSeedKeys, SeedKeysFit, KeyFits, Linked, WasHeld, AllFit, ValidNetwork;
    forall j | 0 <= j <= |events| ensures KeysFit(Run(cfgs, events[..j])) {
      NothingToFit(cfgs, events[..j]);
      ReachableGood(cfgs, events[..j], {});
      var sys := Run(cfgs, events[..j]);
      forall i | 0 <= i < |sys.packets| && sys.packets[i].msg.kind == Data ensures KeyFits(sys.packets[i].msg) {
        assert GoodPacket(cfgs, events[..j], {}, sys.packets[i]);
        DataKeyFits(cfgs, sys.packets[i].msg);
      }
    }
  }

  // ---------- the run theorems under those conditions ----------

  /** Replica agreement from the configurations alone. */
  lemma {:induction false} AgreementByConfig(cfgs: seq<Config>, events: seq<Event>, key: string)
    requires ValidNetwork(cfgs) && CleanFor(cfgs, {Data}) && KindFits(cfgs, Data) && SeedsAgree(cfgs)
    ensures var sys := Run(cfgs, events);
      && (forall n, v :: Holds(sys, n, key, v) ==> SeedValue(cfgs, key, v))
      && (forall n, m, v, w :: Holds(sys, n, key, v) && Holds(sys, m, key, w) ==> v == w)
      && (forall i, v :: Carries(sys, i, key, v) ==> SeedValue(cfgs, key, v))
      && (forall i, n, v, w :: Carries(sys, i, key, v) && Holds(sys, n, key, w) ==> v == w)
  {
    hide *;
    OneKind(cfgs, Data);
    assert Request !in {Data};
    AlwaysFits(cfgs, events, {Data});
    ReplicasAgree(cfgs, events, key);
  }

  /** Hop-chain provenance from the configurations alone. */
  lemma ChainByConfig(cfgs: seq<Config>, events: seq<Event>, n: nat, key: string)
    returns (path: seq<nat>, times: seq<nat>)
    requires ValidNetwork(cfgs) && CleanNames(cfgs) && CleanSeedKeys(cfgs) && SeedKeysFit(cfgs)
    requires n < |cfgs| && key in Run(cfgs, events).nodes[n].core.redis
    ensures HolderChain(cfgs, events, n, key, path, times)
  {
    hide *;
    KeysAlwaysFit(cfgs, events);
    path, times := HopChain(cfgs, events, n, key);
  }

  lemma OneKind(cfgs: seq<Config>, kind: MessageType)
    requires KindFits(cfgs, kind)
    ensures KindsFit(cfgs, {kind})
  {
    hide KindFits;
  }
}
