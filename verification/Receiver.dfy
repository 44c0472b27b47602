/**
 * The receiver thread one table call at a time: between any two of its calls the node's other threads may run, and what
 * arrives is anything at all. Run without interruption, it takes exactly the step system's Receive step.
 */
module Receiver {
  import opened Collections
  import opened Text
  import opened Wire
  import opened Bloom
  import opened Sends
  import opened NodeModel
  import opened Systems
  import opened Steps
  import opened NodeInvariants
  import opened Reachability
  import opened Unrolled
  import opened NoLoss
  import Aggregator
  import ContentTables
  import FallbackTables
  import QueryLimiter
  import QueryTables
  import SyncTables

  /** Where the receiver is within one message. */
  datatype Stage =
    | Listening
    | Accepted(m: Message, from: nat, hops: nat, ttl: int32) // REQ with a new id, before the cache lookup
    | Hit(m: Message, value: string, from: nat)              // found, before record_local_key
    | HitListed(m: Message, value: string, from: nat)        // in local_keys, not yet in the filter
    | HitRecorded(m: Message, value: string, from: nat)      // before the DATA is sent
    | Relaying(m: Message, from: nat, hops: nat, tx: nat)    // before a broadcast is sent
    | Written(m: Message)                                    // DATA in Redis, before its fallback is cancelled
    | Cancelled(m: Message)                                  // before record_local_key
    | Listed(m: Message)                                     // in local_keys, not yet in the filter
    | Answering(m: Message, f: Filter, from: nat, hops: nat, keys: seq<string>, sent: nat)
    | Fetched(m: Message, f: Filter, from: nat, hops: nat, keys: seq<string>, sent: nat, key: string, value: string)
    | Named(m: Message, f: Filter, from: nat, hops: nat, keys: seq<string>, sent: nat, item: Item)

  datatype Fine = Fine(s: NodeState, rx: Stage)

  datatype FineEvent =
    | Thread(e: LocalEvent)
    | Arrive(m: Message, from: nat, hops: nat, env: Env)
    | Continue(env: Env, txs: seq<Transmission>)

  datatype FineStepped = FineStepped(state: Fine, out: seq<Outgoing>)

  function Moved(st: Fine, core: Core, rx: Stage): FineStepped {
    FineStepped(Fine(st.s.(core := core), rx), [])
  }

  function Sending(c: Config, st: Fine, item: Item, tx: Transmission, rx: Stage): FineStepped {
    var sent := SendOne(c, st.s.core, item, tx);
    FineStepped(Fine(st.s.(core := sent.core), rx), sent.out)
  }

  /** The first table call for a message. */
  function Begin(c: Config, st: Fine, m: Message, from: nat, hops: nat, env: Env): FineStepped {
    var core := st.s.core;
    match m.kind
    case Request =>
      if InvalidRequest(m) != "" || m.ttl <= 0 then Moved(st, core, Listening)
      else
        Moved(st, core.(query := QueryTables.Record(core.query, QueryCall(m, env), c.queryTtl)),
              if QueryTables.IsNew(core.query, QueryCall(m, env), c.queryTtl)
              then Accepted(m, from, hops, m.ttl - 1)
              else Listening)
    case Data =>
      if !DecideData(c, m).StoreLocal? || env.setOutcome.Refused? then Moved(st, core, Listening)
      else
        Moved(st, core.(redis := core.redis[m.key := m.value]),
              if env.setOutcome.Stored? then Written(m) else Listening)
    case ContentBloom => Moved(st, HandleContentBloom(c, core, m, from, env).core, Listening)
    case QueryBloom =>
      (match AcceptedQuery(c, m, env)
       case None => Moved(st, core, Listening)
       case Some(f) => Moved(st, core, Answering(m, f, from, hops, env.keyOrder, 0)))
    case Unknown => Moved(st, core, Listening)
  }

  /** The next table call of the message in hand. */
  function Next(c: Config, st: Fine, env: Env, txs: seq<Transmission>): FineStepped
    requires WellSized(st.s.core.content.local)
  {
    var core := st.s.core;
    match st.rx
    case Listening => FineStepped(st, [])
    case Accepted(m, from, hops, ttl) =>
      (match Get(core, m.key, m.key in env.getFails)
       case Some(value) => Moved(st, core, Hit(m, value, from))
       case None => Moved(st, core, Relaying(m.(ttl := ttl), from, hops + 1, 0)))
    case Hit(m, value, from) => Moved(st, core.(localKeys := core.localKeys + {m.key}), HitListed(m, value, from))
    case HitListed(m, value, from) => Moved(st, Filtered(core, m.key), HitRecorded(m, value, from))
    case HitRecorded(m, value, from) =>
      Sending(c, st, Direct(DataFor(c, m.requestId, m.origin, m.key, value), 0, from, Some(Served(m.key, m.origin))),
              TxAt(txs, 0), Listening)
    case Relaying(m, from, hops, tx) => Sending(c, st, Broadcast(m, hops, Some(from)), TxAt(txs, tx), Listening)
    case Written(m) => Moved(st, core.(fallback := FallbackTables.Cancel(core.fallback, m.key, m.origin)), Cancelled(m))
    case Cancelled(m) => Moved(st, core.(localKeys := core.localKeys + {m.key}), Listed(m))
    case Listed(m) => Moved(st, Filtered(core, m.key), Listening)
    case Answering(m, f, from, hops, keys, sent) =>
      if keys != [] then
        if Contains(f, keys[0]) && Get(core, keys[0], keys[0] in env.getFails).Some?
        then Moved(st, core, Fetched(m, f, from, hops, keys[1..], sent, keys[0], core.redis[keys[0]]))
        else Moved(st, core, Answering(m, f, from, hops, keys[1..], sent))
      else if m.ttl - 1 <= 0 then Moved(st, core, Listening)
      else
        var call := LimiterCall(m, f, env);
        Moved(st, core.(limiter := QueryLimiter.After(core.limiter, call, c.limits)),
              if QueryLimiter.Allows(core.limiter, call, c.limits)
              then Relaying(m.(ttl := m.ttl - 1), from, hops + 1, sent)
              else Listening)
    case Fetched(m, f, from, hops, keys, sent, key, value) =>
      var id := MakeRequestId(c.nodeId, MillisAt(env, sent), core.counter);
      Moved(st, core.(counter := Advance(core.counter, 1)),
            Named(m, f, from, hops, keys, sent,
                  Direct(DataFor(c, id, m.origin, key, value), 0, from, Some(Served(key, m.origin)))))
    case Named(m, f, from, hops, keys, sent, item) =>
      Sending(c, st, item, TxAt(txs, sent), Answering(m, f, from, hops, keys, sent + 1))
  }

  function Filtered(core: Core, key: string): Core
    requires WellSized(core.content.local)
  {
    core.(content := core.content.(local := Add(core.content.local, key)))
  }

  predicate FineEnabled(st: Fine, ev: FineEvent) {
    match ev
    case Thread(e) => !e.Receive? && Enabled(st.s, e)
    case Arrive(_, _, _, env) => st.rx.Listening? && Enumerates(env.keyOrder, st.s.core.localKeys)
    case Continue(_, _) => !st.rx.Listening? && WellSized(st.s.core.content.local)
  }

  function FineStep(c: Config, st: Fine, ev: FineEvent): FineStepped
    requires FineEnabled(st, ev)
  {
    match ev
    case Thread(e) =>
      var r := LocalStep(c, st.s, e);
      FineStepped(Fine(r.state, st.rx), r.out)
    case Arrive(m, from, hops, env) => Begin(c, st, m, from, hops, env)
    case Continue(env, txs) => Next(c, st, env, txs)
  }

  /** One node from its start, whatever arrives and however its threads interleave with the receiver. */
  function FineRun(c: Config, events: seq<FineEvent>): Fine {
    if events == [] then Fine(InitialNode(c), Listening)
    else
      var st, ev := FineRun(c, events[..|events| - 1]), events[|events| - 1];
      if FineEnabled(st, ev) then FineStep(c, st, ev).state else st
  }

  // ---------- what every interleaving keeps ----------

  /** The threads and tables stay about the node's own requests; a DATA past its SET is stored and is the node's own. */
  ghost predicate FineOwn(c: Config, st: Fine) {
    && Own(c, st.s) && WellSized(st.s.core.content.local)
    && (st.rx.Written? ==> st.rx.m.key in st.s.core.redis && st.rx.m.origin == c.nodeId)
  }

  /** What the receiver's calls leave alone, and the two things they may do to what is cared for. */
  ghost predicate RxFrame(s: NodeState, t: NodeState) {
    && t == s.(core := t.core) && t.core.agg == s.core.agg && t.core.started == s.core.started
    && s.core.redis.Keys <= t.core.redis.Keys && t.core.fallback.Keys <= s.core.fallback.Keys
    && (forall k :: k in t.core.fallback ==> t.core.fallback[k] == s.core.fallback[k])
    && (WellSized(s.core.content.local) ==> WellSized(t.core.content.local))
  }

  lemma {:induction false} SendFrame(c: Config, st: Fine, item: Item, tx: Transmission, rx: Stage)
    ensures var t := Sending(c, st, item, tx, rx).state.s; RxFrame(st.s, t) && t.core.fallback == st.s.core.fallback
  {
    hide SyncTables.Record, Packets;
  }

  lemma {:induction false} BeginFrame(c: Config, st: Fine, m: Message, from: nat, hops: nat, env: Env)
    ensures RxFrame(st.s, Begin(c, st, m, from, hops, env).state.s)
    ensures var rx := Begin(c, st, m, from, hops, env).state.rx;
            rx.Written? ==>
              rx.m == m && DecideData(c, m).StoreLocal? && m.key in Begin(c, st, m, from, hops, env).state.s.core.redis
  {
    hide QueryTables.Record, QueryTables.IsNew, DecideData, FromHex, AcceptedQuery, InvalidRequest;
  }

  /** Only the call after a stored DATA takes anything from the fallback table, and only that DATA's entry. */
  ghost predicate OnlyCancels(rx: Stage, before: map<string, FallbackTables.Entry>,
                              after: map<string, FallbackTables.Entry>) {
    forall k :: k in before && k !in after ==> rx.Written? && k == FallbackTables.MakeKey(rx.m.origin, rx.m.key)
  }

  /** The stages whose call is a send. */
  predicate BeforeSend(rx: Stage) {
    rx.HitRecorded? || rx.Relaying? || rx.Named?
  }

  lemma {:induction false} NextFrame(c: Config, st: Fine, env: Env, txs: seq<Transmission>)
    requires WellSized(st.s.core.content.local)
    ensures var t := Next(c, st, env, txs).state;
            && RxFrame(st.s, t.s) && !t.rx.Written?
            && (st.rx.Listening? || OnlyCancels(st.rx, st.s.core.fallback, t.s.core.fallback))
  {
    if BeforeSend(st.rx) {
      NextSendFrame(c, st, env, txs);
    } else {
      NextTableFrame(c, st, env, txs);
    }
    hide RxFrame, Next;
  }

  lemma {:induction false} NextTableFrame(c: Config, st: Fine, env: Env, txs: seq<Transmission>)
    requires WellSized(st.s.core.content.local) && !BeforeSend(st.rx)
    ensures var t := Next(c, st, env, txs).state;
            && RxFrame(st.s, t.s) && !t.rx.Written?
            && (st.rx.Listening? || OnlyCancels(st.rx, st.s.core.fallback, t.s.core.fallback))
  {
    hide MakeRequestId, LimiterCall, QueryLimiter.After, QueryLimiter.Allows, Contains, FallbackTables.MakeKey, DataFor,
         SendOne;
    hide Bloom.Add, WellSized, Advance, MillisAt, Get;
  }

  lemma {:induction false} NextSendFrame(c: Config, st: Fine, env: Env, txs: seq<Transmission>)
    requires WellSized(st.s.core.content.local) && BeforeSend(st.rx)
    ensures var t := Next(c, st, env, txs).state;
            RxFrame(st.s, t.s) && !t.rx.Written? && t.s.core.fallback == st.s.core.fallback
  {
    hide RxFrame, SendOne, DataFor;
    match st.rx {
      case HitRecorded(m, value, from) =>
        var item := Direct(DataFor(c, m.requestId, m.origin, m.key, value), 0, from, Some(Served(m.key, m.origin)));
        SendFrame(c, st, item, TxAt(txs, 0), Listening);
      case Relaying(m, from, hops, tx) =>
        SendFrame(c, st, Broadcast(m, hops, Some(from)), TxAt(txs, tx), Listening);
      case Named(m, f, from, hops, keys, sent, item) =>
        SendFrame(c, st, item, TxAt(txs, sent), Answering(m, f, from, hops, keys, sent + 1));
    }
  }

  lemma {:induction false} FrameOwn(c: Config, s: NodeState, t: NodeState)
    requires RxFrame(s, t) && Own(c, s)
    ensures Own(c, t)
  {
    hide OwnAgg, FallbackTables.MakeKey;
    assert forall k :: k in t.core.fallback ==> k in s.core.fallback;
  }

  lemma {:induction false} FrameCares(c: Config, s: NodeState, t: NodeState, key: string)
    requires RxFrame(s, t) && InCare(c, s, key)
    requires FallbackTables.MakeKey(c.nodeId, key) in s.core.fallback
             && FallbackTables.MakeKey(c.nodeId, key) !in t.core.fallback ==>
               key in t.core.redis
    ensures InCare(c, t, key)
  {
    hide Aggregated, InBatches, FallbackTables.MakeKey;
  }

  lemma {:induction false} StepFineOwn(c: Config, st: Fine, ev: FineEvent)
    requires ValidConfig(c) && FineOwn(c, st) && FineEnabled(st, ev)
    ensures FineOwn(c, FineStep(c, st, ev).state)
  {
    var t := FineStep(c, st, ev).state;
    hide Own, WellSized, LocalStep, Begin, Next, Enumerates, ValidConfig, DecideData;
    match ev {
      case Thread(e) => ThreadFineOwn(c, st, e);
      case Arrive(m, from, hops, env) =>
        BeginFrame(c, st, m, from, hops, env);
        FrameOwn(c, st.s, t.s);
        StoredIsOwn(c, m);
      case Continue(env, txs) =>
        NextFrame(c, st, env, txs);
        FrameOwn(c, st.s, t.s);
    }
  }

  lemma {:induction false} StoredIsOwn(c: Config, m: Message)
    ensures DecideData(c, m).StoreLocal? ==> m.origin == c.nodeId
  {}

  lemma {:induction false} ThreadFineOwn(c: Config, st: Fine, e: LocalEvent)
    requires ValidConfig(c) && FineOwn(c, st) && !e.Receive? && Enabled(st.s, e)
    ensures FineOwn(c, FineStep(c, st, Thread(e)).state)
  {
    hide LocalStep, Act, Enabled, Own, Produced, Items, FromItems, ValidConfig, WellSized;
    StepFrame(c, st.s, e);
    var t := LocalStep(c, st.s, e).state;
    if e.WorkerTake? || e.WorkerFinish? {
      QuietOwn(c, t, st.s);
    } else {
      ActOwn(c, st.s, e);
      ThreadKeepsStore(c, st.s, e);
      QuietOwn(c, t, Act(c, st.s, e).state);
    }
  }

  lemma {:induction false} QuietOwn(c: Config, s: NodeState, t: NodeState)
    requires Quiet(s) == Quiet(t) && Own(c, t)
    ensures Own(c, s) && s.core.redis == t.core.redis && s.core.content == t.core.content
  {
    assert s.core == t.core.(queue := s.core.queue, sync := s.core.sync);
    assert s == t.(core := s.core, hands := s.hands);
    hide OwnAgg, OwnFallback, OwnRequest;
  }

  lemma {:induction false} ThreadKeepsStore(c: Config, s: NodeState, e: LocalEvent)
    requires Enabled(s, e) && !e.WorkerTake? && !e.WorkerFinish? && !e.Receive?
    ensures var t := Act(c, s, e).state.core; s.core.redis.Keys <= t.redis.Keys && WellSized(t.content.local)
  {
    ActRedis(c, s, e);
    hide Bloom.Add, QueryTables.Record, ContentTables.Select, ContentTables.Live, Aggregator.AddKey,
         FallbackTables.AfterTake;
    hide FallbackTables.Due, Aggregator.AfterFlush, Aggregator.Flushed, QueryOf, SummaryOf, RequestFor, Enumerates;
  }

  // ---------- an uninterrupted message is the step system's Receive ----------

  /** How many calls the message in hand can still take. */
  function Left(rx: Stage): nat {
    match rx
    case Listening => 0
    case Accepted(_, _, _, _) => 4
    case Hit(_, _, _) => 3
    case HitListed(_, _, _) => 2
    case HitRecorded(_, _, _) => 1
    case Relaying(_, _, _, _) => 1
    case Written(_) => 3
    case Cancelled(_) => 2
    case Listed(_) => 1
    case Answering(_, _, _, _, keys, _) => 3 * |keys| + 2
    case Fetched(_, _, _, _, keys, _, _, _) => 3 * |keys| + 4
    case Named(_, _, _, _, keys, _, _) => 3 * |keys| + 3
  }

  lemma {:induction false} NextShrinks(c: Config, st: Fine, env: Env, txs: seq<Transmission>)
    requires WellSized(st.s.core.content.local) && !st.rx.Listening?
    ensures var t := Next(c, st, env, txs).state; WellSized(t.s.core.content.local) && Left(t.rx) < Left(st.rx)
  {
    NextFrame(c, st, env, txs);
    hide RxFrame, OnlyCancels, WellSized, MakeRequestId, LimiterCall, QueryLimiter.After, QueryLimiter.Allows, Contains;
    hide Bloom.Add, FallbackTables.MakeKey, DataFor, SendOne;
  }

  /** The remaining calls for the message in hand with no other thread between them. */
  ghost function Finish(c: Config, st: Fine, env: Env, txs: seq<Transmission>): FineStepped
    requires WellSized(st.s.core.content.local)
    decreases Left(st.rx)
  {
    if st.rx.Listening? then FineStepped(st, [])
    else
      NextShrinks(c, st, env, txs);
      var r := Next(c, st, env, txs);
      var rest := Finish(c, r.state, env, txs);
      FineStepped(rest.state, r.out + rest.out)
  }

  lemma {:induction false} FinishStep(c: Config, st: Fine, env: Env, txs: seq<Transmission>)
    requires WellSized(st.s.core.content.local) && !st.rx.Listening?
    ensures var r := Next(c, st, env, txs);
            && WellSized(r.state.s.core.content.local)
            && Finish(c, st, env, txs).state == Finish(c, r.state, env, txs).state
            && Finish(c, st, env, txs).out == r.out + Finish(c, r.state, env, txs).out
  {
    hide Next, WellSized;
    NextShrinks(c, st, env, txs);
  }

  lemma {:induction false} FinishDone(c: Config, st: Fine, env: Env, txs: seq<Transmission>)
    requires WellSized(st.s.core.content.local) && st.rx.Listening?
    ensures Finish(c, st, env, txs) == FineStepped(st, [])
  {}

  /**
   * The calls of a Query-BF from some key of the snapshot on, given that the earlier ones answered like the whole
   * handler.
   */
  lemma {:induction false} AnsweringFinishes(c: Config, start: Core, s: NodeState, f: Filter, m: Message, from: nat,
                                             hops: nat, env: Env, txs: seq<Transmission>, done: seq<string>,
                                             keys: seq<string>, sent: nat, out: seq<Outgoing>)
    requires WellSized(start.content.local) && AcceptedQuery(c, m, env) == Some(f) && done + keys == env.keyOrder
    requires var replies := Replies(c, start, f, m.origin, from, done, env);
             sent == |replies| && Sent(s.core, out)
                 == SendAll(c, start.(counter := Advance(start.counter, sent)), replies, txs)
    ensures WellSized(s.core.content.local)
    ensures var effect := HandleQueryBloom(c, start, m, from, hops, env);
            var whole := SendAll(c, effect.core, effect.items, txs);
            var rest := Finish(c, Fine(s, Answering(m, f, from, hops, keys, sent)), env, txs);
            rest.state == Fine(s.(core := whole.core), Listening) && out + rest.out == whole.out
    decreases |keys|
  {
    hide AcceptedQuery, Replies, LimiterCall, QueryLimiter.After, QueryLimiter.Allows, SendOne, SendAll, FromItems,
         Contains;
    hide MakeRequestId, WellSized, HandleQueryBloom, Finish, Next;
    SendAllFrame(c, start.(counter := Advance(start.counter, sent)), Replies(c, start, f, m.origin, from, done, env),
                 txs);
    assert s.core.redis == start.redis && s.core.content == start.content;
    var st := Fine(s, Answering(m, f, from, hops, keys, sent));
    if keys == [] {
      assert done == env.keyOrder;
      QueryEnds(c, start, st, m, env, txs, out);
    } else {
      assert (done + [keys[0]]) + keys[1..] == env.keyOrder;
      RepliesStep(c, start, f, m.origin, from, done, keys[0], env);
      if Answers(start, f, keys[0], env) {
        AnswerCalls(c, st, env, txs);
        var item := AnswerItem(c, st, env);
        var sentOne := SendOne(c, s.core.(counter := Advance(s.core.counter, 1)), item, TxAt(txs, sent));
        AnswerCounts(c, start, f, m.origin, from, done, keys[0], env, txs, sent, s.core, out, sentOne);
        AnsweringFinishes(c, start, s.(core := sentOne.core), f, m, from, hops, env, txs, done + [keys[0]], keys[1..],
                          sent + 1, out + sentOne.out);
      } else {
        SkipCall(c, st, env, txs);
        AnsweringFinishes(c, start, s, f, m, from, hops, env, txs, done + [keys[0]], keys[1..], sent, out);
      }
    }
  }

  lemma {:induction false} SkipCall(c: Config, st: Fine, env: Env, txs: seq<Transmission>)
    requires WellSized(st.s.core.content.local) && st.rx.Answering? && st.rx.keys != []
    requires !Answers(st.s.core, st.rx.f, st.rx.keys[0], env)
    ensures var Answering(m, f, from, hops, keys, sent) := st.rx;
            Finish(c, st, env, txs) == Finish(c, Fine(st.s, Answering(m, f, from, hops, keys[1..], sent)), env, txs)
  {
    hide Finish, Contains, WellSized;
    FinishStep(c, st, env, txs);
  }

  /** The DATA for the first key of the snapshot that is left. */
  function AnswerItem(c: Config, st: Fine, env: Env): Item
    requires st.rx.Answering? && st.rx.keys != [] && st.rx.keys[0] in st.s.core.redis
  {
    var key := st.rx.keys[0];
    var id := MakeRequestId(c.nodeId, MillisAt(env, st.rx.sent), st.s.core.counter);
    Direct(DataFor(c, id, st.rx.m.origin, key, st.s.core.redis[key]), 0, st.rx.from, Some(Served(key, st.rx.m.origin)))
  }

  /** Fetching a key, drawing its id and sending its DATA are three calls. */
  lemma {:induction false} AnswerCalls(c: Config, st: Fine, env: Env, txs: seq<Transmission>)
    requires WellSized(st.s.core.content.local) && st.rx.Answering? && st.rx.keys != []
    requires Answers(st.s.core, st.rx.f, st.rx.keys[0], env)
    ensures var core := st.s.core;
            var sentOne := SendOne(c, core.(counter := Advance(core.counter, 1)), AnswerItem(c, st, env),
                                   TxAt(txs, st.rx.sent));
            var Answering(m, f, from, hops, keys, sent) := st.rx;
            var next := Fine(st.s.(core := sentOne.core), Answering(m, f, from, hops, keys[1..], sent + 1));
            && WellSized(sentOne.core.content.local)
            && Finish(c, st, env, txs).state == Finish(c, next, env, txs).state
            && Finish(c, st, env, txs).out == sentOne.out + Finish(c, next, env, txs).out
  {
    hide Finish, Next, WellSized, SendOne, Answers, MakeRequestId;
    FetchCalls(c, st, env, txs);
    FinishStep(c, st, env, txs);
    var fetched := Next(c, st, env, txs).state;
    FinishStep(c, fetched, env, txs);
    FinishStep(c, Next(c, fetched, env, txs).state, env, txs);
  }

  lemma {:induction false} FetchCalls(c: Config, st: Fine, env: Env, txs: seq<Transmission>)
    requires WellSized(st.s.core.content.local) && st.rx.Answering? && st.rx.keys != []
    requires Answers(st.s.core, st.rx.f, st.rx.keys[0], env)
    ensures var core, item := st.s.core, AnswerItem(c, st, env);
            var Answering(m, f, from, hops, keys, sent) := st.rx;
            var fetched := Fine(st.s, Fetched(m, f, from, hops, keys[1..], sent, keys[0], core.redis[keys[0]]));
            var named := Fine(st.s.(core := core.(counter := Advance(core.counter, 1))),
                              Named(m, f, from, hops, keys[1..], sent, item));
            && Next(c, st, env, txs) == FineStepped(fetched, [])
            && Next(c, fetched, env, txs) == FineStepped(named, [])
            && Next(c, named, env, txs)
                == Sending(c, named, item, TxAt(txs, sent), Answering(m, f, from, hops, keys[1..], sent + 1))
  {
    hide Sending, Contains, MakeRequestId, WellSized, DataFor;
  }

  /** After the last key: the ttl, the limiter and the broadcast. */
  lemma {:induction false} QueryEnds(c: Config, start: Core, st: Fine, m: Message, env: Env, txs: seq<Transmission>,
                                     out: seq<Outgoing>)
    requires WellSized(st.s.core.content.local) && st.rx.Answering? && st.rx.m == m && st.rx.keys == []
    requires AcceptedQuery(c, m, env) == Some(st.rx.f)
    requires var replies := Replies(c, start, st.rx.f, m.origin, st.rx.from, env.keyOrder, env);
             && st.rx.sent == |replies|
             && Sent(st.s.core, out) == SendAll(c, start.(counter := Advance(start.counter, |replies|)), replies, txs)
    ensures var effect := HandleQueryBloom(c, start, m, st.rx.from, st.rx.hops, env);
            var whole := SendAll(c, effect.core, effect.items, txs);
            var rest := Finish(c, st, env, txs);
            rest.state == Fine(st.s.(core := whole.core), Listening) && out + rest.out == whole.out
  {
    hide AcceptedQuery, Replies, LimiterCall, QueryLimiter.After, QueryLimiter.Allows, SendOne, SendAll, WellSized,
         HandleQueryBloom;
    var core, call, f := st.s.core, LimiterCall(m, st.rx.f, env), st.rx.f;
    var t := Next(c, st, env, txs).state;
    FinishStep(c, st, env, txs);
    hide Finish;
    if m.ttl - 1 > 0 && QueryLimiter.Allows(core.limiter, call, c.limits) {
      var last := SendOne(c, t.s.core, Broadcast(m.(ttl := m.ttl - 1), st.rx.hops + 1, Some(st.rx.from)),
                          TxAt(txs, st.rx.sent));
      ForwardFollows(c, start, m, st.rx.from, st.rx.hops, env, txs, f, core, out, t.s.core, last);
      FinishStep(c, t, env, txs);
      FinishDone(c, Next(c, t, env, txs).state, env, txs);
    } else {
      FinishDone(c, t, env, txs);
      NoForward(c, start, m, st.rx.from, st.rx.hops, env, txs, f, core, out, t.s.core);
    }
  }

  lemma {:induction false} RequestUninterrupted(c: Config, s: NodeState, m: Message, from: nat, hops: nat, env: Env,
                                                txs: seq<Transmission>)
    requires Enabled(s, Receive(m, from, hops, env, txs)) && m.kind == Request
    ensures var whole := LocalStep(c, s, Receive(m, from, hops, env, txs));
            var begun := Begin(c, Fine(s, Listening), m, from, hops, env);
            && WellSized(begun.state.s.core.content.local) && begun.out == []
            && Finish(c, begun.state, env, txs) == FineStepped(Fine(whole.state, Listening), whole.out)
  {
    hide QueryTables.Record, QueryTables.IsNew, SendOne, SendAll, WellSized, DataFor, Enumerates, InvalidRequest,
         Bloom.Add, Finish;
    hide Next;
    BeginFrame(c, Fine(s, Listening), m, from, hops, env);
    var begun := Begin(c, Fine(s, Listening), m, from, hops, env).state;
    var effect := HandleRequest(c, s.core, m, from, hops, env);
    if begun.rx.Accepted? {
      AcceptedFinishes(c, begun, env, txs);
      SendAllOne(c, effect.core, effect.items[0], txs);
    } else {
      FinishDone(c, begun, env, txs);
      NothingSent(c, effect.core, txs);
    }
  }

  /** After a new request: a hit is recorded and served, a miss is forwarded. */
  lemma {:induction false} AcceptedFinishes(c: Config, st: Fine, env: Env, txs: seq<Transmission>)
    requires WellSized(st.s.core.content.local) && st.rx.Accepted?
    ensures var Accepted(m, from, hops, ttl) := st.rx;
            var rest := Finish(c, st, env, txs);
            match Get(st.s.core, m.key, m.key in env.getFails)
            case Some(value) =>
              rest == Sending(c, Fine(st.s.(core := RecordLocal(st.s.core, m.key)), st.rx),
                              Direct(DataFor(c, m.requestId, m.origin, m.key, value), 0, from,
                                     Some(Served(m.key, m.origin))),
                              TxAt(txs, 0), Listening)
            case None =>
              rest == Sending(c, st, Broadcast(m.(ttl := ttl), hops + 1, Some(from)), TxAt(txs, 0), Listening)
  {
    hide SendOne, WellSized, DataFor, Bloom.Add, Finish;
    var t := Next(c, st, env, txs).state;
    FinishStep(c, st, env, txs);
    FinishStep(c, t, env, txs);
    var u := Next(c, t, env, txs).state;
    if t.rx.Hit? {
      FinishStep(c, u, env, txs);
      var v := Next(c, u, env, txs).state;
      FinishStep(c, v, env, txs);
      FinishDone(c, Next(c, v, env, txs).state, env, txs);
    } else {
      FinishDone(c, u, env, txs);
    }
  }

  lemma {:induction false} DataUninterrupted(c: Config, s: NodeState, m: Message, from: nat, hops: nat, env: Env,
                                             txs: seq<Transmission>)
    requires Enabled(s, Receive(m, from, hops, env, txs)) && m.kind == Data
    ensures var whole := LocalStep(c, s, Receive(m, from, hops, env, txs));
            var begun := Begin(c, Fine(s, Listening), m, from, hops, env);
            && WellSized(begun.state.s.core.content.local) && begun.out == []
            && Finish(c, begun.state, env, txs) == FineStepped(Fine(whole.state, Listening), whole.out)
  {
    hide DecideData, Bloom.Add, WellSized, Enumerates, FallbackTables.Cancel, Finish, Next, SendAll;
    BeginFrame(c, Fine(s, Listening), m, from, hops, env);
    var begun := Begin(c, Fine(s, Listening), m, from, hops, env).state;
    NothingSent(c, HandleData(c, s.core, m, env).core, txs);
    if begun.rx.Written? {
      WrittenFinishes(c, begun, env, txs);
    } else {
      FinishDone(c, begun, env, txs);
    }
  }

  /** After the SET of a DATA: its fallback is cancelled, then the key recorded. */
  lemma {:induction false} WrittenFinishes(c: Config, st: Fine, env: Env, txs: seq<Transmission>)
    requires WellSized(st.s.core.content.local) && st.rx.Written?
    ensures var m := st.rx.m;
            var cancelled := st.s.core.(fallback := FallbackTables.Cancel(st.s.core.fallback, m.key, m.origin));
            Finish(c, st, env, txs) == FineStepped(Fine(st.s.(core := RecordLocal(cancelled, m.key)), Listening), [])
  {
    hide Bloom.Add, WellSized, FallbackTables.Cancel, Finish;
    var cancelled := Next(c, st, env, txs).state;
    FinishStep(c, st, env, txs);
    FinishStep(c, cancelled, env, txs);
    var listed := Next(c, cancelled, env, txs).state;
    FinishStep(c, listed, env, txs);
    FinishDone(c, Next(c, listed, env, txs).state, env, txs);
  }

  lemma {:induction false} NothingAnswered(c: Config, core: Core, f: Filter, origin: string, from: nat, env: Env,
                                           txs: seq<Transmission>)
    ensures Replies(c, core, f, origin, from, [], env) == []
    ensures SendAll(c, core.(counter := Advance(core.counter, 0)), [], txs) == Sent(core, [])
  {
    assert core == core.(counter := Advance(core.counter, 0));
  }

  lemma {:induction false} QueryUninterrupted(c: Config, s: NodeState, m: Message, from: nat, hops: nat, env: Env,
                                              txs: seq<Transmission>)
    requires Enabled(s, Receive(m, from, hops, env, txs)) && m.kind == QueryBloom
    ensures var whole := LocalStep(c, s, Receive(m, from, hops, env, txs));
            var begun := Begin(c, Fine(s, Listening), m, from, hops, env);
            && WellSized(begun.state.s.core.content.local) && begun.out == []
            && Finish(c, begun.state, env, txs) == FineStepped(Fine(whole.state, Listening), whole.out)
  {
    hide AcceptedQuery, HandleQueryBloom, Replies, SendAll, WellSized, Enumerates;
    match AcceptedQuery(c, m, env) {
      case None =>
        NothingDone(c, s.core, m, from, hops, env);
        NothingSent(c, s.core, txs);
      case Some(f) =>
        NothingAnswered(c, s.core, f, m.origin, from, env, txs);
        AnsweringFinishes(c, s.core, s, f, m, from, hops, env, txs, [], env.keyOrder, 0, []);
    }
  }

  /** The calls for one message with nothing between them make exactly the node's Receive step. */
  lemma {:induction false} Uninterrupted(c: Config, s: NodeState, m: Message, from: nat, hops: nat, env: Env,
                                         txs: seq<Transmission>)
    requires Enabled(s, Receive(m, from, hops, env, txs))
    ensures var whole := LocalStep(c, s, Receive(m, from, hops, env, txs));
            var begun := Begin(c, Fine(s, Listening), m, from, hops, env);
            && WellSized(begun.state.s.core.content.local) && begun.out == []
            && Finish(c, begun.state, env, txs) == FineStepped(Fine(whole.state, Listening), whole.out)
  {
    BeginFrame(c, Fine(s, Listening), m, from, hops, env);
    match m.kind {
      case Request => RequestUninterrupted(c, s, m, from, hops, env, txs);
      case Data => DataUninterrupted(c, s, m, from, hops, env, txs);
      case QueryBloom => QueryUninterrupted(c, s, m, from, hops, env, txs);
      case _ =>
        hide FromHex, Enumerates;
        assert HandleContentBloom(c, s.core, m, from, env).items == [];
    }
  }

  // ---------- Redis, local keys and filter, also between the receiver's calls ----------

  /** The message in hand has its key in Redis and on the way into the local keys and the filter. */
  predicate Recording(rx: Stage) {
    rx.Hit? || rx.HitListed? || rx.Written? || rx.Cancelled? || rx.Listed?
  }

  /** The one local key that the filter may not have yet. */
  predicate Listing(rx: Stage, key: string) {
    (rx.HitListed? || rx.Listed?) && rx.m.key == key
  }

  ghost predicate CoherentBut(c: Config, core: Core, rx: Stage) {
    && WellSized(core.content.local)
    && core.content.local.bitCount == c.contentBits && core.content.local.hashCount == c.contentHashes
    && core.localKeys <= core.redis.Keys
    && forall k :: k in core.localKeys ==> Contains(core.content.local, k) || Listing(rx, k)
  }

  /** NodeInvariants.Coherent, but for the key the receiver has listed and not yet put into the filter. */
  ghost predicate FineCoherent(c: Config, st: Fine) {
    && CoherentBut(c, st.s.core, st.rx)
    && (Recording(st.rx) ==> st.rx.m.key in st.s.core.redis)
  }

  lemma {:induction false} FilteredKeeps(c: Config, core: Core, rx: Stage, key: string)
    requires ValidConfig(c) && CoherentBut(c, core, rx)
    ensures var after := Filtered(core, key);
            && CoherentBut(c, after, rx) && Contains(after.content.local, key)
            && forall k :: k in core.localKeys && Contains(core.content.local, k) ==> Contains(after.content.local, k)
  {
    var before, after := core.content.local, Filtered(core, key).content.local;
    AddBits(before, key);
    hide Contains;
    forall k | k in core.localKeys && Contains(before, k) ensures Contains(after, k) {
      ContainsMonotone(before, after, k);
    }
  }

  lemma {:induction false} RecordKeeps(c: Config, core: Core, rx: Stage, key: string)
    requires ValidConfig(c) && CoherentBut(c, core, rx) && key in core.redis
    ensures CoherentBut(c, RecordLocal(core, key), rx)
  {
    hide Contains, Bloom.Add;
    FilteredKeeps(c, core, rx, key);
    assert RecordLocal(core, key) == Filtered(core, key).(localKeys := core.localKeys + {key});
  }

  lemma {:induction false} ThreadCoherent(c: Config, s: NodeState, rx: Stage, e: LocalEvent)
    requires ValidConfig(c) && Enabled(s, e) && !e.WorkerTake? && !e.WorkerFinish? && !e.Receive?
    requires CoherentBut(c, s.core, rx)
    ensures CoherentBut(c, Act(c, s, e).state.core, rx)
  {
    hide Contains, RecordLocal, MakeRequestId, Enumerates;
    match e {
      case Seed(_) =>
        var kv := s.seedsLeft[0];
        RecordKeeps(c, s.core.(redis := s.core.redis[kv.key := kv.value]), rx, kv.key);
      case LookUp(fails, _) =>
        if Get(s.core, s.requestsLeft[0], fails).Some? {
          RecordKeeps(c, s.core.(counter := Advance(s.core.counter, 1)), rx, s.requestsLeft[0]);
        }
      case _ =>
        hide Act, Enabled;
        KeepsFilter(c, s, e);
    }
  }

  /** No thread but the main and the scheduler touches Redis, local keys or filter. */
  lemma {:induction false} KeepsFilter(c: Config, s: NodeState, e: LocalEvent)
    requires Enabled(s, e) && !e.WorkerTake? && !e.WorkerFinish? && !e.Receive? && !e.Seed? && !e.LookUp?
    ensures var t := Act(c, s, e).state.core;
            t.redis == s.core.redis && t.localKeys == s.core.localKeys && t.content.local == s.core.content.local
  {
    hide QueryTables.Record, ContentTables.Select, ContentTables.Live, Aggregator.AddKey, FallbackTables.AfterTake;
    hide FallbackTables.Due, Aggregator.AfterFlush, Aggregator.Flushed, QueryOf, SummaryOf, Enumerates, WellSized;
  }

  lemma {:induction false} ThreadFineCoherent(c: Config, st: Fine, e: LocalEvent)
    requires ValidConfig(c) && FineCoherent(c, st) && !e.Receive? && Enabled(st.s, e)
    ensures FineCoherent(c, FineStep(c, st, Thread(e)).state)
  {
    hide LocalStep, Act, Enabled, Produced, Items, FromItems, ValidConfig, CoherentBut;
    StepFrame(c, st.s, e);
    var t := LocalStep(c, st.s, e).state;
    if e.WorkerTake? || e.WorkerFinish? {
      QuietCoherent(c, t, st.s, st.rx);
    } else {
      ThreadCoherent(c, st.s, st.rx, e);
      ThreadKeepsStore(c, st.s, e);
      QuietCoherent(c, t, Act(c, st.s, e).state, st.rx);
    }
  }

  lemma {:induction false} QuietCoherent(c: Config, s: NodeState, t: NodeState, rx: Stage)
    requires Quiet(s) == Quiet(t) && CoherentBut(c, t.core, rx)
    ensures CoherentBut(c, s.core, rx) && s.core.redis == t.core.redis
  {
    assert s.core == t.core.(queue := s.core.queue, sync := s.core.sync);
    hide Contains;
  }

  lemma {:induction false} BeginCoherent(c: Config, st: Fine, m: Message, from: nat, hops: nat, env: Env)
    requires FineCoherent(c, st) && st.rx.Listening?
    ensures FineCoherent(c, Begin(c, st, m, from, hops, env).state)
  {
    hide QueryTables.Record, QueryTables.IsNew, DecideData, FromHex, AcceptedQuery, InvalidRequest, Contains;
  }

  lemma {:induction false} SendCoherent(c: Config, st: Fine, item: Item, tx: Transmission, rx: Stage)
    requires FineCoherent(c, st) && BeforeSend(st.rx) && !Recording(rx)
    ensures FineCoherent(c, Sending(c, st, item, tx, rx).state)
  {
    hide SyncTables.Record, Packets, Contains, WellSized;
  }

  lemma {:induction false} NextCoherent(c: Config, st: Fine, env: Env, txs: seq<Transmission>)
    requires ValidConfig(c) && FineCoherent(c, st) && !st.rx.Listening?
    ensures FineCoherent(c, Next(c, st, env, txs).state)
  {
    hide MakeRequestId, LimiterCall, QueryLimiter.After, QueryLimiter.Allows, Contains, FallbackTables.MakeKey, DataFor;
    hide SendOne, Filtered, Advance, MillisAt;
    if BeforeSend(st.rx) {
      hide FineCoherent;
      match st.rx {
        case HitRecorded(m, value, from) =>
          var item := Direct(DataFor(c, m.requestId, m.origin, m.key, value), 0, from, Some(Served(m.key, m.origin)));
          SendCoherent(c, st, item, TxAt(txs, 0), Listening);
        case Relaying(m, from, hops, tx) =>
          SendCoherent(c, st, Broadcast(m, hops, Some(from)), TxAt(txs, tx), Listening);
        case Named(m, f, from, hops, keys, sent, item) =>
          SendCoherent(c, st, item, TxAt(txs, sent), Answering(m, f, from, hops, keys, sent + 1));
      }
    } else if st.rx.HitListed? || st.rx.Listed? {
      FilteredKeeps(c, st.s.core, st.rx, st.rx.m.key);
      FilteredOnly(st.s.core, st.rx.m.key);
    }
  }

  lemma {:induction false} FilteredOnly(core: Core, key: string)
    requires WellSized(core.content.local)
    ensures var after := Filtered(core, key); after.redis == core.redis && after.localKeys == core.localKeys
  {}

  lemma {:induction false} StepFineCoherent(c: Config, st: Fine, ev: FineEvent)
    requires ValidConfig(c) && FineCoherent(c, st) && FineEnabled(st, ev)
    ensures FineCoherent(c, FineStep(c, st, ev).state)
  {
    hide FineCoherent, LocalStep, Begin, Next, Enumerates, ValidConfig, WellSized;
    match ev {
      case Thread(e) => ThreadFineCoherent(c, st, e);
      case Arrive(m, from, hops, env) => BeginCoherent(c, st, m, from, hops, env);
      case Continue(env, txs) => NextCoherent(c, st, env, txs);
    }
  }

  /**
   * Coherence.ReachableSane with the receiver's own calls interleaved: in every state every local key is in Redis, and
   * positive in the filter but for the one key the receiver has just listed.
   */
  lemma {:induction false} FineRunCoherent(c: Config, events: seq<FineEvent>)
    requires ValidConfig(c)
    ensures FineCoherent(c, FineRun(c, events))
  {
    if events != [] {
      var init, ev := events[..|events| - 1], events[|events| - 1];
      FineRunCoherent(c, init);
      hide FineCoherent, FineStep, FineEnabled;
      if FineEnabled(FineRun(c, init), ev) {
        StepFineCoherent(c, FineRun(c, init), ev);
      }
    }
  }

  /** NodeInvariants.ActRedis call by call: Redis changes only by the node's seed or at the SET of its own DATA. */
  lemma {:induction false} StepFineRedis(c: Config, st: Fine, ev: FineEvent)
    requires FineEnabled(st, ev) && WellSized(st.s.core.content.local)
    ensures var before, after := st.s.core.redis, FineStep(c, st, ev).state.s.core.redis;
      || after == before
      || (ev.Thread? && ev.e.Seed? && after == before[st.s.seedsLeft[0].key := st.s.seedsLeft[0].value])
      || (ev.Arrive? && ev.m.kind == Data && ev.m.origin == c.nodeId && after == before[ev.m.key := ev.m.value])
  {
    hide LocalStep, Begin, Next, WellSized, Enumerates;
    match ev {
      case Thread(e) => StepRedis(c, st.s, e);
      case Arrive(m, from, hops, env) => BeginRedis(c, st, m, from, hops, env);
      case Continue(env, txs) => NextRedis(c, st, env, txs);
    }
  }

  lemma {:induction false} BeginRedis(c: Config, st: Fine, m: Message, from: nat, hops: nat, env: Env)
    ensures var before, after := st.s.core.redis, Begin(c, st, m, from, hops, env).state.s.core.redis;
            after == before || (m.kind == Data && m.origin == c.nodeId && after == before[m.key := m.value])
  {
    hide QueryTables.Record, QueryTables.IsNew, InvalidData, FromHex, AcceptedQuery, InvalidRequest;
  }

  lemma {:induction false} NextRedis(c: Config, st: Fine, env: Env, txs: seq<Transmission>)
    requires WellSized(st.s.core.content.local)
    ensures Next(c, st, env, txs).state.s.core.redis == st.s.core.redis
  {
    hide MakeRequestId, LimiterCall, QueryLimiter.After, QueryLimiter.Allows, Contains, FallbackTables.MakeKey, DataFor;
    hide Filtered, WellSized, Advance, MillisAt, SendOne;
    match st.rx {
      case HitRecorded(m, value, from) =>
        SendRedis(c, st.s.core, Direct(DataFor(c, m.requestId, m.origin, m.key, value), 0, from,
                                       Some(Served(m.key, m.origin))), TxAt(txs, 0));
      case Relaying(m, from, hops, tx) => SendRedis(c, st.s.core, Broadcast(m, hops, Some(from)), TxAt(txs, tx));
      case Named(_, _, _, _, _, sent, item) => SendRedis(c, st.s.core, item, TxAt(txs, sent));
      case HitListed(m, _, _) => FilteredOnly(st.s.core, m.key);
      case Listed(m) => FilteredOnly(st.s.core, m.key);
      case _ =>
    }
  }

  lemma {:induction false} SendRedis(c: Config, core: Core, item: Item, tx: Transmission)
    ensures SendOne(c, core, item, tx).core.redis == core.redis
  {
    hide SyncTables.Record, Packets;
  }

  // ---------- no requested key is lost, also between the receiver's calls ----------

  /** What one fine step may do to a key in care. */
  ghost predicate FineCared(c: Config, st: Fine, ev: FineEvent, t: NodeState, key: string) {
    InCare(c, t, key) || (ev.Thread? && (HandsOver(c, st.s, ev.e, key) || Discards(c, st.s, ev.e, key)))
  }

  lemma {:induction false} StepFineCares(c: Config, st: Fine, ev: FineEvent, key: string)
    requires ValidConfig(c) && FineOwn(c, st) && FineEnabled(st, ev) && InCare(c, st.s, key)
    ensures FineCared(c, st, ev, FineStep(c, st, ev).state.s, key)
  {
    var t := FineStep(c, st, ev).state;
    hide Own, WellSized, LocalStep, Begin, Next, Enumerates, ValidConfig, DecideData, InCare, HandsOver, Discards;
    match ev {
      case Thread(e) => StepCares(c, st.s, e, key);
      case Arrive(m, from, hops, env) =>
        BeginFrame(c, st, m, from, hops, env);
        BeginKeepsFallback(c, st, m, from, hops, env);
        FrameCares(c, st.s, t.s, key);
      case Continue(env, txs) =>
        NextFrame(c, st, env, txs);
        if FallbackTables.MakeKey(c.nodeId, key) in st.s.core.fallback {
          CancelledIsStored(c, st, t, key);
        }
        FrameCares(c, st.s, t.s, key);
    }
  }

  lemma {:induction false} BeginKeepsFallback(c: Config, st: Fine, m: Message, from: nat, hops: nat, env: Env)
    ensures Begin(c, st, m, from, hops, env).state.s.core.fallback == st.s.core.fallback
  {
    hide QueryTables.Record, QueryTables.IsNew, DecideData, FromHex, AcceptedQuery, InvalidRequest;
  }

  /** A fallback goes only once its key is stored, however the SET and the cancellation are interleaved. */
  lemma {:induction false} CancelledIsStored(c: Config, st: Fine, t: Fine, key: string)
    requires FineOwn(c, st) && RxFrame(st.s, t.s) && OnlyCancels(st.rx, st.s.core.fallback, t.s.core.fallback)
    requires FallbackTables.MakeKey(c.nodeId, key) in st.s.core.fallback
    ensures FallbackTables.MakeKey(c.nodeId, key) !in t.s.core.fallback ==> key in t.s.core.redis
  {
    hide Own, WellSized;
    if FallbackTables.MakeKey(c.nodeId, key) !in t.s.core.fallback {
      FallbackTables.MakeKeyInjective(st.rx.m.origin, st.rx.m.key, c.nodeId, key);
    }
  }

  /** Event i is a miss of the scheduler for the key. */
  predicate FineMissed(c: Config, events: seq<FineEvent>, i: nat, key: string) {
    && i < |events| && events[i].Thread? && events[i].e.LookUp?
    && (var s := FineRun(c, events[..i]).s;
        FineEnabled(FineRun(c, events[..i]), events[i]) && s.requestsLeft[0] == key
            && Get(s.core, key, events[i].e.fails).None?)
  }

  /** From `since` on some event handed the key over in a positive Query-BF, or discarded it for age. */
  ghost predicate FineGone(c: Config, events: seq<FineEvent>, since: nat, key: string) {
    exists i: nat :: since <= i < |events| && events[i].Thread? && FineEnabled(FineRun(c, events[..i]), events[i])
      && (HandsOver(c, FineRun(c, events[..i]).s, events[i].e, key)
          || Discards(c, FineRun(c, events[..i]).s, events[i].e, key))
  }

  lemma {:induction false} FineRunStep(c: Config, events: seq<FineEvent>, ev: FineEvent)
    ensures FineRun(c, events + [ev])
         == if FineEnabled(FineRun(c, events), ev) then FineStep(c, FineRun(c, events), ev).state
             else FineRun(c, events)
  {
    assert (events + [ev])[..|events|] == events;
  }

  lemma {:induction false} FineRunOwn(c: Config, events: seq<FineEvent>)
    requires ValidConfig(c)
    ensures FineOwn(c, FineRun(c, events))
  {
    if events == [] {
      FreshOwn(c);
    } else {
      var init, ev := events[..|events| - 1], events[|events| - 1];
      FineRunOwn(c, init);
      hide FineOwn, FineStep, FineEnabled;
      if FineEnabled(FineRun(c, init), ev) {
        StepFineOwn(c, FineRun(c, init), ev);
      }
    }
  }

  lemma {:induction false} FreshOwn(c: Config)
    ensures FineOwn(c, Fine(InitialNode(c), Listening))
  {}

  lemma {:induction false} GoneMore(c: Config, events: seq<FineEvent>, ev: FineEvent, since: nat, key: string)
    requires FineGone(c, events, since, key)
    ensures FineGone(c, events + [ev], since, key)
  {
    hide FineRun, FineEnabled, HandsOver, Discards;
    var i: nat :| since <= i < |events| && events[i].Thread? && FineEnabled(FineRun(c, events[..i]), events[i])
      && (HandsOver(c, FineRun(c, events[..i]).s, events[i].e, key)
          || Discards(c, FineRun(c, events[..i]).s, events[i].e, key));
    assert (events + [ev])[..i] == events[..i] && (events + [ev])[i] == events[i];
  }

  lemma {:induction false} GoneNow(c: Config, events: seq<FineEvent>, ev: FineEvent, since: nat, key: string)
    requires since <= |events| && ev.Thread? && FineEnabled(FineRun(c, events), ev)
    requires HandsOver(c, FineRun(c, events).s, ev.e, key) || Discards(c, FineRun(c, events).s, ev.e, key)
    ensures FineGone(c, events + [ev], since, key)
  {
    hide FineRun, FineEnabled, HandsOver, Discards;
    assert (events + [ev])[..|events|] == events && (events + [ev])[|events|] == ev;
  }

  /**
   * NoLoss.NeverLost with the receiver's own calls interleaved too: whatever messages arrive and wherever between its
   * table calls the receiver is overtaken, a missed key stays stored, in care, handed over or expired.
   */
  lemma {:induction false} NeverLostFine(c: Config, events: seq<FineEvent>, since: nat, key: string)
    requires ValidConfig(c) && FineMissed(c, events, since, key)
    ensures InCare(c, FineRun(c, events).s, key) || FineGone(c, events, since, key)
    decreases |events|
  {
    var init, ev := events[..|events| - 1], events[|events| - 1];
    assert init[..since] == events[..since] && events == init + [ev];
    FineRunStep(c, init, ev);
    FineRunOwn(c, init);
    hide FineRun, FineOwn, InCare, LocalStep, ValidConfig;
    var st := FineRun(c, init);
    if since < |init| {
      assert FineMissed(c, init, since, key) by { hide FineEnabled; }
      hide FineMissed, FineStep, FineEnabled, FineGone, HandsOver, Discards;
      NeverLostFine(c, init, since, key);
      if FineGone(c, init, since, key) {
        GoneMore(c, init, ev, since, key);
      } else if FineEnabled(st, ev) {
        StepFineCares(c, st, ev, key);
        if !InCare(c, FineRun(c, events).s, key) {
          GoneNow(c, init, ev, since, key);
        }
      }
    } else {
      MissTakesCare(c, st.s, ev.e);
    }
  }
}
