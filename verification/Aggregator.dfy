/** Per-origin batching of requested keys into Query-BF filters (tables/query_bf_aggregator.cpp). */
module Aggregator {
  import opened Collections
  import opened Text
  import opened Bloom

  datatype Params = Params(
    bitCount: nat, hashCount: nat, window: int, ttl: int, maxFill: real, maxKeys: nat)

  /** A buffer by what was put into it; its filter, flag and counter are functions of the keys. */
  datatype Buffer = Buffer(createdAt: int, createdMs: int, keys: seq<string>)

  datatype Batch = Batch(origin: string, createdMs: int, keys: seq<string>)

  datatype State = State(buffers: map<string, Buffer>, pending: seq<Batch>)

  const FRESH := State(map[], [])
  const UNTOUCHED := Buffer(0, 0, [])

  /** The wall-clock readings of the up to three resets in one add_key. */
  datatype WallClock = WallClock(first: int, expired: int, split: int)

  function FilterOf(p: Params, keys: seq<string>): (f: Filter)
    ensures WellSized(f) && f.bitCount == p.bitCount && f.hashCount == p.hashCount
  {
    AddAll(Empty(p.bitCount, p.hashCount), keys)
  }

  function MakeBatchId(origin: string, createdMs: int): string {
    "qbf-" + origin + "-" + IntToString(createdMs)
  }

  predicate HitsMaxKeys(p: Params, keys: seq<string>) {
    p.maxKeys > 0 && |keys| >= p.maxKeys
  }

  predicate HitsMaxFill(p: Params, keys: seq<string>) {
    p.maxFill > 0.0 && FillRatio(FilterOf(p, keys)) >= p.maxFill
  }

  predicate Splits(p: Params, keys: seq<string>) {
    HitsMaxKeys(p, keys) || HitsMaxFill(p, keys)
  }

  predicate Stale(p: Params, b: Buffer, now: int) {
    p.ttl > 0 && now - b.createdAt > p.ttl
  }

  function Find(s: State, origin: string): Buffer {
    if origin in s.buffers then s.buffers[origin] else UNTOUCHED
  }

  function Started(b: Buffer, now: int, wall: WallClock): Buffer {
    if b.createdMs == 0 then Buffer(now, wall.first, []) else b
  }

  /** The buffer a key goes into, after the two resets at the top of add_key. */
  function Receiving(p: Params, b: Buffer, now: int, wall: WallClock): Buffer {
    var started := Started(b, now, wall);
    if Stale(p, started, now) then Buffer(now, wall.expired, []) else started
  }

  /** The keys thrown away by those resets. */
  function Discarded(p: Params, s: State, origin: string, now: int, wall: WallClock): seq<string> {
    var b := Find(s, origin);
    var started := Started(b, now, wall);
    (if b.createdMs == 0 then b.keys else []) + (if Stale(p, started, now) then started.keys else [])
  }

  /** Putting the filled buffer away: as a pending batch if it must split, otherwise back in its place. */
  function Deposit(s: State, origin: string, filled: Buffer, now: int, splitMs: int, split: bool): State {
    if split
    then State(s.buffers[origin := Buffer(now, splitMs, [])],
               s.pending + [Batch(origin, filled.createdMs, filled.keys)])
    else State(s.buffers[origin := filled], s.pending)
  }

  function AddKey(p: Params, s: State, origin: string, key: string, now: int, wall: WallClock): State {
    var b := Receiving(p, Find(s, origin), now, wall);
    var filled := b.(keys := b.keys + [key]);
    Deposit(s, origin, filled, now, wall.split, Splits(p, filled.keys))
  }

  predicate FlushesNow(p: Params, b: Buffer, now: int) {
    b.keys != [] && !(p.window > 0 && now - b.createdAt < p.window)
  }

  function DueBatches(p: Params, buffers: map<string, Buffer>, now: int, order: seq<string>): seq<Batch> {
    if order == [] then []
    else
      var o := order[|order| - 1];
      DueBatches(p, buffers, now, order[..|order| - 1])
      + (if o in buffers && FlushesNow(p, buffers[o], now) then [Batch(o, buffers[o].createdMs, buffers[o].keys)]
         else [])
  }

  /** What flush_due returns: the split batches first, then the due buffers in bucket order. */
  function Flushed(p: Params, s: State, now: int, order: seq<string>): seq<Batch> {
    s.pending + DueBatches(p, s.buffers, now, order)
  }

  function ResetAt(o: string, now: int, wall: map<string, int>): Buffer {
    Buffer(now, if o in wall then wall[o] else 1, [])
  }

  /** `wall` gives the wall-clock reading at each buffer's reset. */
  function AfterFlush(p: Params, s: State, now: int, wall: map<string, int>): State {
    State(map o | o in s.buffers ::
            if FlushesNow(p, s.buffers[o], now) then ResetAt(o, now, wall) else s.buffers[o],
          [])
  }

  // ---------- the aggregator object ----------

  datatype RealBuffer = RealBuffer(filter: Filter, createdAt: int, createdMs: int, hasData: bool, keyCount: nat)

  datatype RealBatch = RealBatch(origin: string, filter: Filter, createdMs: int, batchId: string, keyCount: nat)

  datatype AddResult = AddResult(
    split: bool, splitReason: string, batchId: string, createdMs: int, keyCount: nat, fillRatio: real)

  function Concrete(p: Params, b: Buffer): RealBuffer {
    RealBuffer(FilterOf(p, b.keys), b.createdAt, b.createdMs, b.keys != [], |b.keys|)
  }

  function ConcreteBatch(p: Params, b: Batch): RealBatch {
    RealBatch(b.origin, FilterOf(p, b.keys), b.createdMs, MakeBatchId(b.origin, b.createdMs), |b.keys|)
  }

  function ConcreteBatches(p: Params, batches: seq<Batch>): seq<RealBatch> {
    seq(|batches|, i requires 0 <= i < |batches| => ConcreteBatch(p, batches[i]))
  }

  function ConcreteBuffers(p: Params, buffers: map<string, Buffer>): map<string, RealBuffer> {
    map o | o in buffers :: Concrete(p, buffers[o])
  }

  function ResultOf(p: Params, filled: Buffer, origin: string): AddResult {
    AddResult(Splits(p, filled.keys),
              if HitsMaxFill(p, filled.keys) then "fill_ratio"
              else if HitsMaxKeys(p, filled.keys) then "max_keys" else "",
              MakeBatchId(origin, filled.createdMs), filled.createdMs, |filled.keys|,
              FillRatio(FilterOf(p, filled.keys)))
  }

  lemma ConcreteAdd(p: Params, b: Buffer, key: string)
    ensures Concrete(p, b.(keys := b.keys + [key]))
            == Concrete(p, b).(filter := Bloom.Add(FilterOf(p, b.keys), key), hasData := true, keyCount := |b.keys| + 1)
  {
    assert (b.keys + [key])[..|b.keys|] == b.keys;
  }

  lemma ConcreteUpdate(p: Params, buffers: map<string, Buffer>, origin: string, b: Buffer)
    ensures ConcreteBuffers(p, buffers[origin := b]) == ConcreteBuffers(p, buffers)[origin := Concrete(p, b)]
  {}

  lemma ConcreteAppend(p: Params, batches: seq<Batch>, b: Batch)
    ensures ConcreteBatches(p, batches + [b]) == ConcreteBatches(p, batches) + [ConcreteBatch(p, b)]
  {}

  lemma ConcreteConcat(p: Params, a: seq<Batch>, b: seq<Batch>)
    ensures ConcreteBatches(p, a + b) == ConcreteBatches(p, a) + ConcreteBatches(p, b)
  {
    hide FilterOf;
  }

  /** The buffers once the flush loop has visited the origins in `done`. */
  function FlushedSome(p: Params, buffers: map<string, Buffer>, now: int, wall: map<string, int>,
                       done: seq<string>): map<string, Buffer> {
    map o | o in buffers :: if o in done && FlushesNow(p, buffers[o], now) then ResetAt(o, now, wall) else buffers[o]
  }

  lemma {:induction false} FlushedNone(p: Params, buffers: map<string, Buffer>, now: int, wall: map<string, int>)
    ensures FlushedSome(p, buffers, now, wall, []) == buffers && DueBatches(p, buffers, now, []) == []
  {}

  lemma ConcreteAt(p: Params, buffers: map<string, Buffer>, o: string)
    ensures o in ConcreteBuffers(p, buffers) <==> o in buffers
    ensures o in buffers ==> ConcreteBuffers(p, buffers)[o] == Concrete(p, buffers[o])
  {}

  lemma FlushedSomeStep(p: Params, buffers: map<string, Buffer>, now: int, wall: map<string, int>, done: seq<string>,
                        o: string)
    requires o in buffers && o !in done
    ensures var f := FlushedSome(p, buffers, now, wall, done);
            o in f && f[o] == buffers[o]
            && FlushedSome(p, buffers, now, wall, done + [o]) == if FlushesNow(p, buffers[o], now)
                then f[o := ResetAt(o, now, wall)] else f
  {}

  lemma {:induction false} DueBatchesStep(p: Params, buffers: map<string, Buffer>, now: int, done: seq<string>,
                                          o: string)
    requires o in buffers
    ensures var d := DueBatches(p, buffers, now, done);
            DueBatches(p, buffers, now, done + [o])
            == if FlushesNow(p, buffers[o], now) then d + [Batch(o, buffers[o].createdMs, buffers[o].keys)] else d
  {
    assert (done + [o])[..|done|] == done;
  }

  lemma ConcreteKeys(p: Params, buffers: map<string, Buffer>)
    ensures ConcreteBuffers(p, buffers).Keys == buffers.Keys
  {}

  lemma {:induction false} FlushNothing(p: Params, buffers: map<string, Buffer>, now: int, wall: map<string, int>)
    ensures ConcreteBatches(p, DueBatches(p, buffers, now, [])) == []
            && FlushedSome(p, buffers, now, wall, []) == buffers
  {}

  /** What one turn of the flush loop must do to the stored buffers and the returned batches. */
  lemma {:induction false} FlushTurn(p: Params, before: map<string, Buffer>, now: int, wall: map<string, int>,
                                     done: seq<string>, o: string)
    requires o in before && o !in done
    ensures var flushed, due := FlushedSome(p, before, now, wall, done), DueBatches(p, before, now, done);
      && o in ConcreteBuffers(p, flushed) && ConcreteBuffers(p, flushed)[o] == Concrete(p, before[o])
      && ConcreteBuffers(p, FlushedSome(p, before, now, wall, done + [o]))
         == (if FlushesNow(p, before[o], now) then ConcreteBuffers(p, flushed)[o := Concrete(p, ResetAt(o, now, wall))]
             else ConcreteBuffers(p, flushed))
      && ConcreteBatches(p, DueBatches(p, before, now, done + [o]))
         == (if FlushesNow(p, before[o], now)
             then ConcreteBatches(p, due) + [ConcreteBatch(p, Batch(o, before[o].createdMs, before[o].keys))]
             else ConcreteBatches(p, due))
  {
    hide *;
    var flushed, due := FlushedSome(p, before, now, wall, done), DueBatches(p, before, now, done);
    FlushedSomeStep(p, before, now, wall, done, o);
    DueBatchesStep(p, before, now, done, o);
    ConcreteAt(p, flushed, o);
    ConcreteUpdate(p, flushed, o, ResetAt(o, now, wall));
    ConcreteAppend(p, due, Batch(o, before[o].createdMs, before[o].keys));
  }

  lemma FlushedAll(p: Params, s: State, now: int, wall: map<string, int>, order: seq<string>)
    requires Enumerates(order, s.buffers.Keys)
    ensures FlushedSome(p, s.buffers, now, wall, order) == AfterFlush(p, s, now, wall).buffers
  {
    assert forall o :: o in s.buffers ==> o in SetOf(order);
  }

  class QueryBloomAggregator {
    const params: Params
    var buffers: map<string, RealBuffer>
    var pendingBatches: seq<RealBatch>
    ghost var contents: State

    /** The stored filters, flags and counters are those of the keys put in. */
    ghost predicate Valid()
      reads this
    {
      && buffers == ConcreteBuffers(params, contents.buffers)
      && pendingBatches == ConcreteBatches(params, contents.pending)
      && forall o :: o in contents.buffers ==> contents.buffers[o].createdMs != 0
    }

    constructor (params: Params)
      ensures this.params == params && Valid() && contents == FRESH
    {
      this.params := params;
      buffers, pendingBatches, contents := map[], [], FRESH;
    }

    /** The wall clock is positive, so a buffer with created_ms == 0 is one that operator[] just made. */
    method Add(origin: string, key: string, now: int, wall: WallClock) returns (result: AddResult)
      requires Valid() && wall.first > 0 && wall.expired > 0 && wall.split > 0
      modifies this
      ensures Valid() && contents == AddKey(params, old(contents), origin, key, now, wall)
      ensures var b := Receiving(params, Find(old(contents), origin), now, wall);
              result == ResultOf(params, b.(keys := b.keys + [key]), origin)
    {
      ghost var receiving := Receiving(params, Find(contents, origin), now, wall);
      ghost var filled := receiving.(keys := receiving.keys + [key]);
      var buffer := if origin in buffers then buffers[origin] else RealBuffer(Filter(0, 0, []), 0, 0, false, 0);
      if buffer.createdMs == 0 {
        buffer := ResetBuffer(now, wall.first);
      }
      if params.ttl > 0 && now - buffer.createdAt > params.ttl {
        buffer := ResetBuffer(now, wall.expired);
      }
      assert buffer == Concrete(params, receiving);
      ConcreteAdd(params, receiving, key);
      buffer := buffer.(filter := Bloom.Add(buffer.filter, key));
      buffer := buffer.(hasData := true);
      buffer := buffer.(keyCount := buffer.keyCount + 1);
      result := AddResult(false, "", MakeBatchId(origin, buffer.createdMs), buffer.createdMs, buffer.keyCount,
                          FillRatio(buffer.filter));
      var split := false;
      if params.maxKeys > 0 && buffer.keyCount >= params.maxKeys {
        split := true;
        result := result.(splitReason := "max_keys");
      }
      if params.maxFill > 0.0 && result.fillRatio >= params.maxFill {
        split := true;
        result := result.(splitReason := "fill_ratio");
      }
      assert split == Splits(params, filled.keys);
      Store(origin, buffer, result.batchId, now, wall.split, split, filled);
      result := result.(split := split);
    }

    /** The end of add_key: queue the batch and reset, or keep the filled buffer. */
    method Store(origin: string, buffer: RealBuffer, batchId: string, now: int, splitMs: int, split: bool,
                 ghost filled: Buffer)
      requires Valid() && splitMs > 0 && filled.createdMs != 0
      requires buffer == Concrete(params, filled) && batchId == MakeBatchId(origin, filled.createdMs)
      modifies this
      ensures Valid() && contents == Deposit(old(contents), origin, filled, now, splitMs, split)
    {
      ghost var batch := Batch(origin, filled.createdMs, filled.keys);
      if split {
        pendingBatches := pendingBatches
            + [RealBatch(origin, buffer.filter, buffer.createdMs, batchId, buffer.keyCount)];
        ConcreteAppend(params, contents.pending, batch);
        var blank := ResetBuffer(now, splitMs);
        buffers := buffers[origin := blank];
      } else {
        buffers := buffers[origin := buffer];
      }
      ConcreteUpdate(params, contents.buffers, origin, filled);
      ConcreteUpdate(params, contents.buffers, origin, Buffer(now, splitMs, []));
      contents := Deposit(contents, origin, filled, now, splitMs, split);
    }

    method ResetBuffer(now: int, wallMs: int) returns (buffer: RealBuffer)
      ensures buffer == Concrete(params, Buffer(now, wallMs, []))
    {
      buffer := RealBuffer(Empty(params.bitCount, params.hashCount), now, wallMs, false, 0);
    }

    /** `order` is the bucket order of the hash map; `wall` the wall-clock reading at each reset. */
    method FlushDue(now: int, order: seq<string>, wall: map<string, int>) returns (batches: seq<RealBatch>)
      requires Valid() && Enumerates(order, buffers.Keys)
      requires buffers.Keys <= wall.Keys && forall o :: o in wall ==> wall[o] > 0
      modifies this
      ensures Valid() && contents == AfterFlush(params, old(contents), now, wall)
      ensures batches == ConcreteBatches(params, Flushed(params, old(contents), now, order))
    {
      batches := pendingBatches;
      pendingBatches := [];
      var due := FlushBuffers(now, order, wall);
      ConcreteConcat(params, contents.pending, DueBatches(params, contents.buffers, now, order));
      batches := batches + due;
      contents := AfterFlush(params, contents, now, wall);
      assert pendingBatches == ConcreteBatches(params, []);
    }

    /** The loop of flush_due over the buffers. */
    method FlushBuffers(now: int, order: seq<string>, wall: map<string, int>) returns (batches: seq<RealBatch>)
      requires Enumerates(order, buffers.Keys) && buffers == ConcreteBuffers(params, contents.buffers)
      requires buffers.Keys <= wall.Keys
      modifies this`buffers
      ensures buffers == ConcreteBuffers(params, AfterFlush(params, contents, now, wall).buffers)
      ensures batches == ConcreteBatches(params, DueBatches(params, contents.buffers, now, order))
    {
      hide FilterOf, ConcreteBuffers, FlushedSome, DueBatches, AfterFlush, ConcreteBatches, MakeBatchId;
      ghost var before := contents.buffers;
      ConcreteKeys(params, before);
      batches := [];
      FlushNothing(params, before, now, wall);
      assert order[..0] == [];
      for i := 0 to |order|
        invariant batches == ConcreteBatches(params, DueBatches(params, before, now, order[..i]))
        invariant buffers == ConcreteBuffers(params, FlushedSome(params, before, now, wall, order[..i]))
      {
        var o := order[i];
        assert order[..i + 1] == order[..i] + [o];
        assert o in before && o !in order[..i] by { assert o in SetOf(order); }
        FlushTurn(params, before, now, wall, order[..i], o);
        var buffer := buffers[o];
        if buffer.hasData && !(params.window > 0 && now - buffer.createdAt < params.window) {
          batches := batches + [RealBatch(o, buffer.filter, buffer.createdMs, MakeBatchId(o, buffer.createdMs),
                                          buffer.keyCount)];
          buffer := ResetBuffer(now, wall[o]);
          buffers := buffers[o := buffer];
        }
      }
      assert order[..|order|] == order;
      FlushedAll(params, contents, now, wall, order);
    }
  }

  // ---------- bounds on batches ----------

  predicate KeyBound(p: Params, keys: seq<string>) {
    p.maxKeys > 0 ==> |keys| <= p.maxKeys
  }

  predicate BitsBelow(bits: nat, size: nat, hashes: nat, limit: real) {
    bits as real < limit * size as real + hashes as real
  }

  predicate FillBound(p: Params, keys: seq<string>) {
    p.maxFill > 0.0 ==> BitsBelow(BitsSet(FilterOf(p, keys).data), p.bitCount, p.hashCount, p.maxFill)
  }

  /** No batch is empty or over its limits, and no live buffer has reached one. */
  ghost predicate Bounded(p: Params, s: State) {
    && (forall o :: o in s.buffers ==> !Splits(p, s.buffers[o].keys))
    && (forall i :: 0 <= i < |s.pending| ==>
          s.pending[i].keys != [] && KeyBound(p, s.pending[i].keys) && FillBound(p, s.pending[i].keys))
  }

  lemma EmptySplitsNot(p: Params)
    ensures !Splits(p, [])
  {
    EmptyBits(p.bitCount, p.hashCount);
    BitsSetIsCardinality(FilterOf(p, []));
  }

  lemma RatioBelow(bits: nat, more: nat, size: nat, hashes: nat, limit: real)
    requires size > 0 && bits as real / size as real < limit
    requires more <= bits + hashes
    ensures BitsBelow(more, size, hashes, limit)
  {
    assert bits as real < limit * size as real;
    assert more as real <= bits as real + hashes as real;
  }

  lemma UnsplitRatio(p: Params, keys: seq<string>)
    requires p.bitCount > 0 && p.maxFill > 0.0 && !Splits(p, keys)
    ensures BitsSet(FilterOf(p, keys).data) as real / p.bitCount as real < p.maxFill
  {
    assert FilterOf(p, keys).data != [];
  }

  lemma OneMoreKeyGrowth(p: Params, keys: seq<string>, key: string)
    ensures BitsSet(FilterOf(p, keys + [key]).data) <= BitsSet(FilterOf(p, keys).data) + p.hashCount
  {
    assert (keys + [key])[..|keys|] == keys;
    AddGrowth(FilterOf(p, keys), key);
  }

  lemma FillBoundFrom(p: Params, keys: seq<string>, bits: nat)
    requires p.bitCount > 0 && bits as real / p.bitCount as real < p.maxFill
    requires BitsSet(FilterOf(p, keys).data) <= bits + p.hashCount
    ensures FillBound(p, keys)
  {
    RatioBelow(bits, BitsSet(FilterOf(p, keys).data), p.bitCount, p.hashCount, p.maxFill);
  }

  /** A buffer that has not split satisfies the fill bound even after one more key. */
  lemma OneMoreKeyWithinFill(p: Params, keys: seq<string>, key: string)
    requires p.bitCount > 0 && !Splits(p, keys)
    ensures FillBound(p, keys) && FillBound(p, keys + [key])
  {
    if p.maxFill > 0.0 {
      var bits := BitsSet(FilterOf(p, keys).data);
      OneMoreKeyGrowth(p, keys, key);
      UnsplitRatio(p, keys);
      FillBoundFrom(p, keys, bits);
      FillBoundFrom(p, keys + [key], bits);
    }
  }

  lemma DepositBounded(p: Params, s: State, origin: string, filled: Buffer, now: int, splitMs: int)
    requires Bounded(p, s) && !Splits(p, [])
    requires filled.keys != [] && KeyBound(p, filled.keys) && FillBound(p, filled.keys)
    ensures Bounded(p, Deposit(s, origin, filled, now, splitMs, Splits(p, filled.keys)))
  {
    var t := Deposit(s, origin, filled, now, splitMs, Splits(p, filled.keys));
    forall o | o in t.buffers ensures !Splits(p, t.buffers[o].keys) {
      if o != origin {
        assert t.buffers[o] == s.buffers[o];
      }
    }
  }

  lemma ReceivingUnsplit(p: Params, s: State, origin: string, now: int, wall: WallClock)
    requires Bounded(p, s) && !Splits(p, [])
    ensures !Splits(p, Receiving(p, Find(s, origin), now, wall).keys)
  {
    var b := Receiving(p, Find(s, origin), now, wall);
    assert b.keys == [] || (origin in s.buffers && b.keys == s.buffers[origin].keys);
  }

  lemma AddKeyBounded(p: Params, s: State, origin: string, key: string, now: int, wall: WallClock)
    requires p.bitCount > 0 && Bounded(p, s)
    ensures Bounded(p, AddKey(p, s, origin, key, now, wall))
  {
    EmptySplitsNot(p);
    ReceivingUnsplit(p, s, origin, now, wall);
    var b := Receiving(p, Find(s, origin), now, wall);
    OneMoreKeyWithinFill(p, b.keys, key);
    DepositBounded(p, s, origin, b.(keys := b.keys + [key]), now, wall.split);
  }

  lemma {:induction false} DueBatchesFrom(p: Params, buffers: map<string, Buffer>, now: int, order: seq<string>, i: nat)
    requires i < |DueBatches(p, buffers, now, order)|
    ensures var b := DueBatches(p, buffers, now, order)[i];
            b.origin in order && b.origin in buffers && FlushesNow(p, buffers[b.origin], now)
            && b == Batch(b.origin, buffers[b.origin].createdMs, buffers[b.origin].keys)
  {
    if i < |DueBatches(p, buffers, now, order[..|order| - 1])| {
      DueBatchesFrom(p, buffers, now, order[..|order| - 1], i);
    }
  }

  lemma FlushedBatchBounded(p: Params, s: State, now: int, order: seq<string>, i: nat)
    requires p.bitCount > 0 && Bounded(p, s) && i < |Flushed(p, s, now, order)|
    ensures var k := Flushed(p, s, now, order)[i].keys; k != [] && KeyBound(p, k) && FillBound(p, k)
  {
    if i >= |s.pending| {
      var b := Flushed(p, s, now, order)[i];
      DueBatchesFrom(p, s.buffers, now, order, i - |s.pending|);
      assert !Splits(p, s.buffers[b.origin].keys);
      OneMoreKeyWithinFill(p, b.keys, "");
    }
  }

  /** With limits enabled every flushed batch has at most max_keys keys and a bounded number of set bits. */
  lemma FlushBounded(p: Params, s: State, now: int, order: seq<string>, wall: map<string, int>)
    requires p.bitCount > 0 && Bounded(p, s)
    ensures Bounded(p, AfterFlush(p, s, now, wall))
    ensures forall i :: 0 <= i < |Flushed(p, s, now, order)| ==>
              var k := Flushed(p, s, now, order)[i].keys; k != [] && KeyBound(p, k) && FillBound(p, k)
  {
    EmptySplitsNot(p);
    forall i | 0 <= i < |Flushed(p, s, now, order)|
      ensures var k := Flushed(p, s, now, order)[i].keys; k != [] && KeyBound(p, k) && FillBound(p, k)
    {
      FlushedBatchBounded(p, s, now, order, i);
    }
    var t := AfterFlush(p, s, now, wall);
    forall o | o in t.buffers ensures !Splits(p, t.buffers[o].keys) {
      assert t.buffers[o].keys == [] || t.buffers[o].keys == s.buffers[o].keys;
    }
  }

  // ---------- conservation over runs ----------

  datatype Event =
    | Adding(origin: string, key: string, now: int, wall: WallClock)
    | Flushing(now: int, order: seq<string>, resets: map<string, int>)

  /** The aggregator with the history of what left it. */
  datatype Ledger = Ledger(state: State, flushed: seq<Batch>, discarded: seq<Batch>)

  function Step(p: Params, l: Ledger, e: Event): Ledger {
    match e
    case Adding(origin, key, now, wall) =>
      Ledger(AddKey(p, l.state, origin, key, now, wall), l.flushed,
             l.discarded + [Batch(origin, 0, Discarded(p, l.state, origin, now, wall))])
    case Flushing(now, order, resets) =>
      Ledger(AfterFlush(p, l.state, now, resets), l.flushed + Flushed(p, l.state, now, order), l.discarded)
  }

  function Run(p: Params, events: seq<Event>): Ledger {
    if events == [] then Ledger(FRESH, [], [])
    else Step(p, Run(p, events[..|events| - 1]), events[|events| - 1])
  }

  /** Each flush visits every buffer once; the wall clock is positive. */
  ghost predicate WellTimed(p: Params, events: seq<Event>) {
    forall i :: 0 <= i < |events| ==>
      match events[i]
      case Adding(_, _, _, wall) => wall.first > 0 && wall.expired > 0 && wall.split > 0
      case Flushing(_, order, resets) =>
        Enumerates(order, Run(p, events[..i]).state.buffers.Keys) && forall o :: o in resets ==> resets[o] > 0
  }

  /** How often `key` was handed to add_key for `origin`. */
  function Added(events: seq<Event>, origin: string, key: string): nat {
    if events == [] then 0
    else
      var e := events[|events| - 1];
      Added(events[..|events| - 1], origin, key) + (if e.Adding? && e.origin == origin && e.key == key then 1 else 0)
  }

  function Count(keys: seq<string>, key: string): nat {
    if keys == [] then 0 else Count(keys[..|keys| - 1], key) + (if keys[|keys| - 1] == key then 1 else 0)
  }

  /** How often `key` occurs in the origin's batches of a list. */
  function InBatches(batches: seq<Batch>, origin: string, key: string): nat {
    if batches == [] then 0
    else
      var b := batches[|batches| - 1];
      InBatches(batches[..|batches| - 1], origin, key) + (if b.origin == origin then Count(b.keys, key) else 0)
  }

  /** Occurrences waiting in the aggregator: split batches plus the live buffer. */
  function Waiting(s: State, origin: string, key: string): nat {
    InBatches(s.pending, origin, key) + Count(Find(s, origin).keys, key)
  }

  lemma {:induction false} CountConcat(a: seq<string>, b: seq<string>, key: string)
    ensures Count(a + b, key) == Count(a, key) + Count(b, key)
  {
    if b == [] {
      assert a + b == a;
    } else {
      CountConcat(a, b[..|b| - 1], key);
      assert (a + b)[..|a + b| - 1] == a + b[..|b| - 1];
    }
  }

  lemma {:induction false} CountOne(x: string, key: string)
    ensures Count([x], key) == if x == key then 1 else 0
  {
    assert [x][..0] == [];
  }

  lemma {:induction false} InBatchesConcat(a: seq<Batch>, b: seq<Batch>, origin: string, key: string)
    ensures InBatches(a + b, origin, key) == InBatches(a, origin, key) + InBatches(b, origin, key)
  {
    if b == [] {
      assert a + b == a;
    } else {
      InBatchesConcat(a, b[..|b| - 1], origin, key);
      assert (a + b)[..|a + b| - 1] == a + b[..|b| - 1];
    }
  }

  lemma {:induction false} InOneBatch(b: Batch, origin: string, key: string)
    ensures InBatches([b], origin, key) == if b.origin == origin then Count(b.keys, key) else 0
  {
    assert [b][..0] == [];
  }

  lemma {:induction false} DueKeys(p: Params, buffers: map<string, Buffer>, now: int, order: seq<string>,
                                   origin: string, key: string)
    requires NoDuplicates(order)
    ensures InBatches(DueBatches(p, buffers, now, order), origin, key)
            == if origin in order && origin in buffers && FlushesNow(p, buffers[origin], now)
               then Count(buffers[origin].keys, key) else 0
  {
    if order != [] {
      var init, o := order[..|order| - 1], order[|order| - 1];
      DueKeys(p, buffers, now, init, origin, key);
      assert order == init + [o];
      if o in buffers && FlushesNow(p, buffers[o], now) {
        var b := Batch(o, buffers[o].createdMs, buffers[o].keys);
        InBatchesConcat(DueBatches(p, buffers, now, init), [b], origin, key);
        InOneBatch(b, origin, key);
      } else {
        assert DueBatches(p, buffers, now, init) + [] == DueBatches(p, buffers, now, init);
      }
    }
  }

  lemma {:induction false} DepositKeys(s: State, origin: string, filled: Buffer, now: int, splitMs: int, split: bool,
                                       o: string, key: string)
    ensures Waiting(Deposit(s, origin, filled, now, splitMs, split), o, key)
            == InBatches(s.pending, o, key) + Count(if o == origin then filled.keys else Find(s, o).keys, key)
  {
    if split {
      var b := Batch(origin, filled.createdMs, filled.keys);
      InBatchesConcat(s.pending, [b], o, key);
      InOneBatch(b, o, key);
      assert Count([], key) == 0;
    }
  }

  lemma {:induction false} ReceivingKeys(p: Params, s: State, origin: string, now: int, wall: WallClock, key: string)
    ensures Count(Find(s, origin).keys, key)
            == Count(Discarded(p, s, origin, now, wall), key)
                + Count(Receiving(p, Find(s, origin), now, wall).keys, key)
  {
    var b := Find(s, origin);
    var started := Started(b, now, wall);
    CountConcat(if b.createdMs == 0 then b.keys else [], if Stale(p, started, now) then started.keys else [], key);
  }

  lemma {:induction false} AddConserves(p: Params, s: State, origin: string, key: string, now: int, wall: WallClock,
                                        o: string, x: string)
    ensures Waiting(AddKey(p, s, origin, key, now, wall), o, x)
            + (if o == origin then Count(Discarded(p, s, origin, now, wall), x) else 0)
            == Waiting(s, o, x) + (if o == origin && x == key then 1 else 0)
  {
    var b := Receiving(p, Find(s, origin), now, wall);
    ReceivingKeys(p, s, origin, now, wall, x);
    CountConcat(b.keys, [key], x);
    CountOne(key, x);
    var filled := b.(keys := b.keys + [key]);
    DepositKeys(s, origin, filled, now, wall.split, Splits(p, filled.keys), o, x);
  }

  lemma {:induction false} FlushConserves(p: Params, s: State, now: int, order: seq<string>, resets: map<string, int>,
                                          o: string, x: string)
    requires Enumerates(order, s.buffers.Keys)
    ensures InBatches(Flushed(p, s, now, order), o, x) + Waiting(AfterFlush(p, s, now, resets), o, x)
            == Waiting(s, o, x)
  {
    InBatchesConcat(s.pending, DueBatches(p, s.buffers, now, order), o, x);
    DueKeys(p, s.buffers, now, order, o, x);
    assert o in order <==> o in SetOf(order);
  }

  /** Everything of one origin and key that the ledger can show. */
  function Accounted(l: Ledger, origin: string, key: string): nat {
    InBatches(l.flushed, origin, key) + Waiting(l.state, origin, key) + InBatches(l.discarded, origin, key)
  }

  lemma StepConserves(p: Params, l: Ledger, e: Event, origin: string, key: string)
    requires e.Flushing? ==> Enumerates(e.order, l.state.buffers.Keys)
    ensures Accounted(Step(p, l, e), origin, key)
            == Accounted(l, origin, key) + (if e.Adding? && e.origin == origin && e.key == key then 1 else 0)
  {
    match e {
      case Adding(o, k, now, wall) =>
        var gone := Batch(o, 0, Discarded(p, l.state, o, now, wall));
        AddConserves(p, l.state, o, k, now, wall, origin, key);
        InBatchesConcat(l.discarded, [gone], origin, key);
        InOneBatch(gone, origin, key);
      case Flushing(now, order, resets) =>
        FlushConserves(p, l.state, now, order, resets, origin, key);
        InBatchesConcat(l.flushed, Flushed(p, l.state, now, order), origin, key);
    }
  }

  /** Every key ever added for an origin is, with its multiplicity, in that origin's flushed batches,
      pending batches or live buffer, or was discarded by a reset; origins never mix. */
  lemma {:induction false} KeysConserved(p: Params, events: seq<Event>, origin: string, key: string)
    requires WellTimed(p, events)
    ensures Added(events, origin, key) == Accounted(Run(p, events), origin, key)
  {
    if events != [] {
      var n := |events| - 1;
      var init := events[..n];
      forall i | 0 <= i < n ensures init[..i] == events[..i] && init[i] == events[i] {}
      KeysConserved(p, init, origin, key);
      StepConserves(p, Run(p, init), events[n], origin, key);
    }
  }

  /** Over any run every batch that ever left, or is waiting to, respects the limits. */
  lemma {:induction false} RunBounded(p: Params, events: seq<Event>)
    requires p.bitCount > 0
    ensures Bounded(p, Run(p, events).state)
    ensures forall i :: 0 <= i < |Run(p, events).flushed| ==>
              var k := Run(p, events).flushed[i].keys; k != [] && KeyBound(p, k) && FillBound(p, k)
  {
    if events != [] {
      var init, e := events[..|events| - 1], events[|events| - 1];
      RunBounded(p, init);
      match e
      case Adding(o, key, now, wall) => AddKeyBounded(p, Run(p, init).state, o, key, now, wall);
      case Flushing(now, order, resets) => FlushBounded(p, Run(p, init).state, now, order, resets);
    }
  }

  /** Whatever list of keys a buffer or batch holds, its filter tests positive for each of them. */
  lemma HeldKeysTestPositive(p: Params, keys: seq<string>, key: string)
    requires p.bitCount > 0 && p.hashCount > 0 && key in keys
    ensures Contains(FilterOf(p, keys), key)
  {
    AddAllContains(Empty(p.bitCount, p.hashCount), keys, key);
  }

  /** With a positive wall clock only the TTL reset ever discards anything. */
  lemma OnlyStaleDiscards(p: Params, s: State, origin: string, now: int, wall: WallClock)
    requires forall o :: o in s.buffers ==> s.buffers[o].createdMs != 0
    requires Discarded(p, s, origin, now, wall) != []
    ensures origin in s.buffers && p.ttl > 0 && now - s.buffers[origin].createdAt > p.ttl
    ensures Discarded(p, s, origin, now, wall) == s.buffers[origin].keys
  {}

  // ---------- when buffers split, leave and expire, by the times of the events ----------

  function StateAt(p: Params, events: seq<Event>, j: nat): State
    requires j <= |events|
  {
    Run(p, events[..j]).state
  }

  predicate AddsTo(e: Event, o: string) {
    e.Adding? && e.origin == o
  }

  /** The j-th event made a pending batch. */
  predicate SplitAt(p: Params, events: seq<Event>, j: nat)
    requires j < |events|
  {
    |StateAt(p, events, j + 1).pending| > |StateAt(p, events, j).pending|
  }

  /** The j-th event emptied the origin's buffer. */
  predicate EmptiedAt(p: Params, events: seq<Event>, o: string, j: nat)
    requires j < |events|
  {
    Find(StateAt(p, events, j), o).keys != [] && Find(StateAt(p, events, j + 1), o).keys == []
  }

  /** The j-th event creates the origin's buffer or resets it: its first key, a split, a flush of it, or its old age. */
  ghost predicate Restarts(p: Params, events: seq<Event>, o: string, j: nat)
    requires j < |events|
    decreases j, 1
  {
    match events[j]
    case Adding(origin, _, now, _) =>
      && origin == o
      && (|| SplitAt(p, events, j)
          || (forall i :: 0 <= i < j ==> !AddsTo(events[i], o))
          || (p.ttl > 0 && exists i :: 0 <= i < j && LastRestart(p, events, o, j, i) && now - events[i].now > p.ttl))
    case Flushing(_, _, _) => EmptiedAt(p, events, o, j)
  }

  /** The latest such event among the first n is the i-th. */
  ghost predicate LastRestart(p: Params, events: seq<Event>, o: string, n: nat, i: nat)
    requires n <= |events|
    decreases n, 0
  {
    i < n && Restarts(p, events, o, i) && forall k :: i < k < n ==> !Restarts(p, events, o, k)
  }

  /** The keys added for the origin by the events j to n - 1. */
  function AddedSince(events: seq<Event>, o: string, j: nat, n: nat): seq<string>
    requires n <= |events|
  {
    if n <= j then []
    else AddedSince(events, o, j, n - 1) + (if AddsTo(events[n - 1], o) then [events[n - 1].key] else [])
  }

  /** The wall-clock reading of a restart. */
  function RestartMs(p: Params, events: seq<Event>, o: string, j: nat): int
    requires j < |events|
  {
    match events[j]
    case Adding(_, _, _, wall) =>
      if SplitAt(p, events, j) then wall.split
      else if forall i :: 0 <= i < j ==> !AddsTo(events[i], o) then wall.first
      else wall.expired
    case Flushing(_, _, resets) => if o in resets then resets[o] else 1
  }

  /** The first event whose key can be in the buffer that the j-th event restarted. */
  function FirstKept(p: Params, events: seq<Event>, j: nat): nat
    requires j < |events|
  {
    if events[j].Adding? && !SplitAt(p, events, j) then j else j + 1
  }

  /** What an origin's buffer is after n events: times of its latest restart, and the keys added since. */
  ghost predicate TrueBuffer(p: Params, events: seq<Event>, o: string, n: nat, j: nat)
    requires n <= |events|
  {
    var s := StateAt(p, events, n);
    if o !in s.buffers then forall i :: 0 <= i < n ==> !AddsTo(events[i], o)
    else
      && LastRestart(p, events, o, n, j) && (exists i :: 0 <= i < n && AddsTo(events[i], o))
      && s.buffers[o].createdAt == events[j].now
      && s.buffers[o].createdMs == RestartMs(p, events, o, j) > 0
      && s.buffers[o].keys == AddedSince(events, o, FirstKept(p, events, j), n)
  }

  lemma StateStep(p: Params, events: seq<Event>, n: nat)
    requires n < |events|
    ensures StateAt(p, events, n + 1) ==
            match events[n]
            case Adding(o, key, now, wall) => AddKey(p, StateAt(p, events, n), o, key, now, wall)
            case Flushing(now, _, resets) => AfterFlush(p, StateAt(p, events, n), now, resets)
  {
    assert events[..n + 1][..n] == events[..n];
    hide AddKey, AfterFlush, Flushed, Discarded;
  }

  /** What add_key does to its origin's buffer, in terms of ages and sizes. */
  lemma AddKeyBuffer(p: Params, s: State, o: string, key: string, now: int, wall: WallClock)
    requires wall.first > 0 && wall.expired > 0 && wall.split > 0
    requires o in s.buffers ==> s.buffers[o].createdMs != 0
    ensures var t := AddKey(p, s, o, key, now, wall);
      var aged := o in s.buffers && p.ttl > 0 && now - s.buffers[o].createdAt > p.ttl;
      var kept := if o in s.buffers && !aged then s.buffers[o].keys else [];
      var createdMs := if o !in s.buffers then wall.first else if aged then wall.expired else s.buffers[o].createdMs;
      var full := (p.maxKeys > 0 && |kept| + 1 >= p.maxKeys)
        || (p.maxFill > 0.0 && FillRatio(FilterOf(p, kept + [key])) >= p.maxFill);
      && t.buffers.Keys == s.buffers.Keys + {o}
      && Discarded(p, s, o, now, wall) == (if aged then s.buffers[o].keys else [])
      && t.pending ==
           s.pending + (if full then [Batch(o, createdMs, kept + [key])] else [])
      && t.buffers[o] ==
           (if full then Buffer(now, wall.split, [])
            else if o !in s.buffers then Buffer(now, wall.first, [key])
            else if aged then Buffer(now, wall.expired, [key])
            else s.buffers[o].(keys := kept + [key]))
      && forall x :: x in s.buffers && x != o ==> t.buffers[x] == s.buffers[x]
  {
    hide FilterOf, FillRatio;
  }

  /** What flush_due does to one origin's buffer, in terms of its age. */
  lemma FlushBuffer(p: Params, s: State, now: int, resets: map<string, int>, o: string)
    ensures var t := AfterFlush(p, s, now, resets);
      && t.pending == [] && t.buffers.Keys == s.buffers.Keys
      && (o in s.buffers ==>
            t.buffers[o] ==
              if s.buffers[o].keys != [] && (p.window <= 0 || now - s.buffers[o].createdAt >= p.window)
              then Buffer(now, if o in resets then resets[o] else 1, [])
              else s.buffers[o])
  {}

  lemma {:induction false} AddedNone(events: seq<Event>, o: string, n: nat)
    requires n <= |events|
    ensures AddedSince(events, o, n, n) == []
  {}

  lemma {:induction false} LastRestartStep(p: Params, events: seq<Event>, o: string, n: nat, i: nat)
    requires n < |events|
    ensures Restarts(p, events, o, n) ==> LastRestart(p, events, o, n + 1, n)
    ensures !Restarts(p, events, o, n) && LastRestart(p, events, o, n, i) ==> LastRestart(p, events, o, n + 1, i)
  {}

  lemma {:induction false} OneLastRestart(p: Params, events: seq<Event>, o: string, n: nat, i: nat, j: nat)
    requires n <= |events| && LastRestart(p, events, o, n, i) && LastRestart(p, events, o, n, j)
    ensures i == j
  {}

  /** Adding for the origin: which of the three causes of a restart applies. */
  lemma {:induction false} AddRestarts(p: Params, events: seq<Event>, o: string, n: nat, i: nat)
    requires n < |events| && AddsTo(events[n], o) && TrueBuffer(p, events, o, n, i)
    ensures var s, now := StateAt(p, events, n), events[n].now;
            Restarts(p, events, o, n) <==>
              (SplitAt(p, events, n) || o !in s.buffers || (p.ttl > 0 && now - s.buffers[o].createdAt > p.ttl))
  {
    hide StateAt, SplitAt, AddedSince, RestartMs, FirstKept;
    if o in StateAt(p, events, n).buffers {
      forall k | 0 <= k < n && LastRestart(p, events, o, n, k) ensures k == i {
        OneLastRestart(p, events, o, n, i, k);
      }
    }
  }

  lemma {:induction false} AddedTrue(p: Params, events: seq<Event>, o: string, n: nat, i: nat)
    requires n < |events| && AddsTo(events[n], o) && TrueBuffer(p, events, o, n, i)
    requires var w := events[n].wall; w.first > 0 && w.expired > 0 && w.split > 0
    ensures TrueBuffer(p, events, o, n + 1, if Restarts(p, events, o, n) then n else i)
  {
    hide StateAt, AddKey, Restarts, LastRestart, FillRatio, FilterOf;
    var s, e := StateAt(p, events, n), events[n];
    StateStep(p, events, n);
    AddKeyBuffer(p, s, o, e.key, e.now, e.wall);
    AddRestarts(p, events, o, n, i);
    LastRestartStep(p, events, o, n, i);
    AddedNone(events, o, n);
    AddedNone(events, o, n + 1);
  }

  lemma {:induction false} OtherTrue(p: Params, events: seq<Event>, o: string, n: nat, i: nat)
    requires n < |events| && events[n].Adding? && events[n].origin != o && TrueBuffer(p, events, o, n, i)
    requires var w := events[n].wall; w.first > 0 && w.expired > 0 && w.split > 0
    requires var s, o := StateAt(p, events, n), events[n].origin; o in s.buffers ==> s.buffers[o].createdMs != 0
    ensures TrueBuffer(p, events, o, n + 1, i)
  {
    var s, e := StateAt(p, events, n), events[n];
    StateStep(p, events, n);
    AddKeyBuffer(p, s, e.origin, e.key, e.now, e.wall);
    assert !Restarts(p, events, o, n);
    LastRestartStep(p, events, o, n, i);
    hide StateAt, AddKey, Restarts, LastRestart, FillRatio, FilterOf;
  }

  lemma {:induction false} FlushedTrue(p: Params, events: seq<Event>, o: string, n: nat, i: nat)
    requires n < |events| && events[n].Flushing? && TrueBuffer(p, events, o, n, i)
    requires forall x :: x in events[n].resets ==> events[n].resets[x] > 0
    ensures TrueBuffer(p, events, o, n + 1, if Restarts(p, events, o, n) then n else i)
  {
    var s, e := StateAt(p, events, n), events[n];
    StateStep(p, events, n);
    FlushBuffer(p, s, e.now, e.resets, o);
    assert Restarts(p, events, o, n) <==> EmptiedAt(p, events, o, n);
    LastRestartStep(p, events, o, n, i);
    AddedNone(events, o, n + 1);
    hide StateAt, AfterFlush, Restarts, LastRestart;
  }

  /** In any run each origin's buffer started at its latest restart and holds exactly the keys added since. */
  lemma {:induction false} BufferIsTrue(p: Params, events: seq<Event>, o: string, n: nat) returns (j: nat)
    requires WellTimed(p, events) && n <= |events|
    ensures TrueBuffer(p, events, o, n, j)
    decreases n
  {
    if n == 0 {
      j := 0;
      assert events[..0] == [];
    } else {
      var i := BufferIsTrue(p, events, o, n - 1);
      var e := events[n - 1];
      hide TrueBuffer, Restarts, StateAt;
      match e {
        case Adding(origin, _, _, _) =>
          if origin == o {
            AddedTrue(p, events, o, n - 1, i);
            j := if Restarts(p, events, o, n - 1) then n - 1 else i;
          } else {
            var k := BufferIsTrue(p, events, origin, n - 1);
            TrueIsTimed(p, events, origin, n - 1, k);
            OtherTrue(p, events, o, n - 1, i);
            j := i;
          }
        case Flushing(_, _, _) =>
          FlushedTrue(p, events, o, n - 1, i);
          j := if Restarts(p, events, o, n - 1) then n - 1 else i;
      }
    }
  }

  lemma TrueIsTimed(p: Params, events: seq<Event>, o: string, n: nat, j: nat)
    requires n <= |events| && TrueBuffer(p, events, o, n, j)
    ensures var s := StateAt(p, events, n); o in s.buffers ==> s.buffers[o].createdMs != 0
  {
    hide StateAt, LastRestart;
  }

  lemma {:induction false} DueBatchIn(p: Params, buffers: map<string, Buffer>, now: int, order: seq<string>, o: string)
    requires o in order && o in buffers && FlushesNow(p, buffers[o], now)
    ensures Batch(o, buffers[o].createdMs, buffers[o].keys) in DueBatches(p, buffers, now, order)
  {
    if o != order[|order| - 1] {
      DueBatchIn(p, buffers, now, order[..|order| - 1], o);
    }
  }

  /** An unsplit batch of the origin leaves with this flush. */
  predicate Leaves(p: Params, s: State, now: int, order: seq<string>, b: Batch) {
    b in Flushed(p, s, now, order)[|s.pending|..]
  }

  lemma {:induction false} FlushedBuffers(p: Params, s: State, now: int, order: seq<string>, b: Batch)
    requires Enumerates(order, s.buffers.Keys)
    ensures Leaves(p, s, now, order, b) <==>
              b.origin in s.buffers && b == Batch(b.origin, s.buffers[b.origin].createdMs, s.buffers[b.origin].keys)
              && b.keys != [] && (p.window <= 0 || now - s.buffers[b.origin].createdAt >= p.window)
  {
    var due := DueBatches(p, s.buffers, now, order);
    assert Flushed(p, s, now, order)[|s.pending|..] == due;
    assert b.origin in order <==> b.origin in SetOf(order);
    if b in due {
      var i :| 0 <= i < |due| && due[i] == b;
      DueBatchesFrom(p, s.buffers, now, order, i);
    }
    if b.origin in s.buffers && FlushesNow(p, s.buffers[b.origin], now) {
      DueBatchIn(p, s.buffers, now, order, b.origin);
    }
  }

  /**
   * Over any run: of an origin exactly those keys leave unsplit with a flush that were added since the latest restart
   * of its buffer, and they leave if and only if that restart is at least the window ago; then nothing of it waits.
   */
  lemma {:induction false} LeavesExactly(p: Params, events: seq<Event>, o: string, now: int, order: seq<string>,
                                         resets: map<string, int>) returns (j: nat)
    requires WellTimed(p, events) && Enumerates(order, Run(p, events).state.buffers.Keys)
    requires exists i :: 0 <= i < |events| && AddsTo(events[i], o)
    ensures LastRestart(p, events, o, |events|, j)
    ensures var s, keys := Run(p, events).state, AddedSince(events, o, FirstKept(p, events, j), |events|);
      var due := p.window <= 0 || now - events[j].now >= p.window;
      && (forall b :: Leaves(p, s, now, order, b) && b.origin == o ==>
            b == Batch(o, RestartMs(p, events, o, j), keys) && keys != [] && due)
      && (keys != [] && due ==> Leaves(p, s, now, order, Batch(o, RestartMs(p, events, o, j), keys)))
      && (due ==> forall key :: Waiting(AfterFlush(p, s, now, resets), o, key) == 0)
      && (!due ==> Find(AfterFlush(p, s, now, resets), o).keys == keys)
  {
    j := BufferIsTrue(p, events, o, |events|);
    assert events[..|events|] == events;
    var s := Run(p, events).state;
    hide Run, AddedSince, Restarts, LastRestart, RestartMs, FirstKept, Leaves, AfterFlush, WellTimed;
    FlushBuffer(p, s, now, resets, o);
    forall b ensures Leaves(p, s, now, order, b) <==>
      b.origin in s.buffers && b == Batch(b.origin, s.buffers[b.origin].createdMs, s.buffers[b.origin].keys)
      && b.keys != [] && (p.window <= 0 || now - s.buffers[b.origin].createdAt >= p.window)
    {
      FlushedBuffers(p, s, now, order, b);
    }
    forall key ensures var t := AfterFlush(p, s, now, resets);
      Find(t, o).keys == [] ==> Waiting(t, o, key) == 0
    {
      NothingWaits(AfterFlush(p, s, now, resets), o, key);
    }
  }

  lemma NothingWaits(s: State, o: string, key: string)
    ensures s.pending == [] && Find(s, o).keys == [] ==> Waiting(s, o, key) == 0
  {}

  /**
   * Over any run: adding a key discards the keys the buffer holds if and only if its latest restart is more than the
   * ttl ago, and splits the buffer if and only if with this key it reaches the key count or the share of set bits.
   */
  lemma {:induction false} SplitsAndDiscardsExactly(p: Params, events: seq<Event>, o: string, key: string, now: int,
                                                    wall: WallClock) returns (j: nat)
    requires WellTimed(p, events) && wall.first > 0 && wall.expired > 0 && wall.split > 0
    requires exists i :: 0 <= i < |events| && AddsTo(events[i], o)
    ensures LastRestart(p, events, o, |events|, j)
    ensures var s, keys := Run(p, events).state, AddedSince(events, o, FirstKept(p, events, j), |events|);
      var aged := p.ttl > 0 && now - events[j].now > p.ttl;
      var createdMs, filled := if aged then wall.expired else RestartMs(p, events, o, j),
        (if aged then [] else keys) + [key];
      var full := (p.maxKeys > 0 && |filled| >= p.maxKeys)
        || (p.maxFill > 0.0 && FillRatio(FilterOf(p, filled)) >= p.maxFill);
      && Discarded(p, s, o, now, wall) == (if aged then keys else [])
      && AddKey(p, s, o, key, now, wall).pending
         == s.pending + (if full then [Batch(o, createdMs, filled)] else [])
      && Find(AddKey(p, s, o, key, now, wall), o).keys == (if full then [] else filled)
  {
    j := BufferIsTrue(p, events, o, |events|);
    assert events[..|events|] == events;
    hide Run, AddedSince, Restarts, LastRestart, RestartMs, FirstKept, WellTimed, FillRatio, FilterOf, AddKey;
    hide Discarded;
    AddKeyBuffer(p, Run(p, events).state, o, key, now, wall);
  }
}
