/**
 * The nodes of a network as one step system: each node's threads advance one table call at a time, the
 * receiver one message at a time, and the network loses, duplicates and reorders packets.
 */
module Systems {
  import opened Collections
  import opened Text
  import opened Wire
  import opened Bloom
  import opened Sends
  import opened NodeModel
  import Aggregator
  import ContentTables
  import FallbackTables
  import QueryTables
  import SyncTables

  // ---------- one node ----------

  /** Where the scheduler thread is within one key of its list (Node::schedule_requests). */
  datatype Scheduler =
    | NextKey                                // before the local lookup
    | Originated(req: Message)               // missed, request id made
    | Noted(req: Message)                    // own id recorded
    | Chosen(req: Message, neighbor: nat)    // a neighbour's summary was positive
    | Asked(req: Message)                    // direct request handed to the queue
    | Unmatched(req: Message)                // no summary was positive

  /** Shared tables plus what each thread holds in its own hands between two table calls. */
  datatype NodeState = NodeState(
    core: Core,
    seedsLeft: seq<KeyValue>,                // main thread
    requestsLeft: seq<string>, sched: Scheduler,
    due: seq<FallbackTables.Pending>,        // fallback thread
    batches: seq<Aggregator.Batch>,          // flush thread
    snapshot: Option<Filter>,                // content exchange thread
    hands: seq<Option<Item>>)                // queue workers

  function InitialNode(c: Config): NodeState {
    NodeState(InitialCore(c), c.seeds, c.requests, NextKey, [], [], None, seq(c.workers, _ => None))
  }

  /** How one send went: direct, whether it succeeded; broadcast, which neighbours were sent to. */
  datatype Transmission = Transmission(sent: bool, reached: seq<bool>)

  datatype Outgoing = Outgoing(dst: nat, msg: Message, hops: nat)

  datatype LocalEvent =
    | Start
    | Seed(outcome: SetOutcome)
    | LookUp(fails: bool, millis: uint64)
    | NoteOwn(pruneNow: int, recordNow: int)
    | Choose(now: int, order: seq<nat>)
    | Ask(tx: Transmission)
    | ScheduleFallback(now: int)
    | Aggregate(now: int, wall: Aggregator.WallClock)
    | TakeDue(now: int, keyOrder: seq<string>)
    | AddDue(now: int, wall: Aggregator.WallClock)
    | FlushDue(now: int, originOrder: seq<string>, resets: map<string, int>)
    | SendBatch(tx: Transmission)
    | TakeSnapshot
    | SendSnapshot(tx: Transmission)
    | WorkerTake(w: nat)
    | WorkerFinish(w: nat, tx: Transmission)
    | Receive(msg: Message, src: nat, hops: nat, env: Env, txs: seq<Transmission>)

  predicate PositiveWall(wall: Aggregator.WallClock) {
    0 < wall.first < TWO_64 && 0 < wall.expired < TWO_64 && 0 < wall.split < TWO_64
  }

  /** The main thread seeds before it starts the other threads, and starts the queue before it seeds. */
  predicate ThreadsStarted(s: NodeState) {
    s.core.started && s.seedsLeft == []
  }

  /** When a thread can take the step; bucket orders visit each entry once, the wall clock is positive. */
  predicate Enabled(s: NodeState, e: LocalEvent) {
    && WellSized(s.core.content.local)
    && match e
       case Start => !s.core.started
       case Seed(_) => s.core.started && s.seedsLeft != []
       case LookUp(_, _) => ThreadsStarted(s) && s.sched.NextKey? && s.requestsLeft != []
       case NoteOwn(_, _) => s.sched.Originated? && s.requestsLeft != []
       case Choose(_, order) => s.sched.Noted? && s.requestsLeft != []
           && Enumerates(order, s.core.content.neighbors.Keys)
       case Ask(_) => s.sched.Chosen? && s.requestsLeft != []
       case ScheduleFallback(_) => s.sched.Asked? && s.requestsLeft != []
       case Aggregate(_, wall) => s.sched.Unmatched? && s.requestsLeft != [] && PositiveWall(wall)
       case TakeDue(_, order) => ThreadsStarted(s) && s.due == [] && Enumerates(order, s.core.fallback.Keys)
       case AddDue(_, wall) => s.due != [] && PositiveWall(wall)
       case FlushDue(_, order, resets) =>
         && ThreadsStarted(s) && s.batches == []
         && Enumerates(order, s.core.agg.buffers.Keys) && s.core.agg.buffers.Keys <= resets.Keys
         && forall o :: o in resets ==> 0 < resets[o] < TWO_64
       case SendBatch(_) => s.batches != []
       case TakeSnapshot => ThreadsStarted(s) && s.snapshot.None?
       case SendSnapshot(_) => s.snapshot.Some?
       case WorkerTake(w) => s.core.started && w < |s.hands| && s.hands[w].None? && s.core.queue != []
       case WorkerFinish(w, _) => w < |s.hands| && s.hands[w].Some?
       case Receive(_, _, _, env, _) => Enumerates(env.keyOrder, s.core.localKeys)
  }

  // ---------- sending ----------

  function Reached(neighbors: seq<nat>, reached: seq<bool>): seq<nat> {
    if neighbors == [] then []
    else
      var n := |neighbors| - 1;
      Reached(neighbors[..n], reached) + (if n < |reached| && reached[n] then [neighbors[n]] else [])
  }

  function Targets(c: Config, item: Item, tx: Transmission): seq<nat> {
    match item
    case Direct(_, _, addr, _) => if tx.sent then [addr] else []
    case Broadcast(_, _, _) => Reached(c.neighbors, tx.reached)
  }

  /** What the network is given for an item. */
  function Packets(c: Config, item: Item, tx: Transmission): seq<Outgoing> {
    var targets := Targets(c, item, tx);
    seq(|targets|, i requires 0 <= i < |targets| => Outgoing(targets[i], item.msg, item.hops))
  }

  /** The success callback of a direct send. */
  function Called(c: Config, core: Core, item: Item, tx: Transmission): Core {
    if item.Direct? && tx.sent && item.onSuccess.Some? then
      var served := item.onSuccess.value;
      core.(sync := SyncTables.Record(core.sync, SyncTables.Call(served.key, served.origin), c.syncCapacity))
    else core
  }

  datatype Sent = Sent(core: Core, out: seq<Outgoing>)

  /** send_direct / send_broadcast: queued, dropped on overflow, or sent at once when the queue is off. */
  function SendOne(c: Config, core: Core, item: Item, tx: Transmission): Sent {
    if !c.asyncForward || !core.started then Sent(Called(c, core, item, tx), Packets(c, item, tx))
    else if |core.queue| >= c.queueMax then Sent(core, [])
    else Sent(core.(queue := core.queue + [item]), [])
  }

  function TxAt(txs: seq<Transmission>, i: nat): Transmission {
    if i < |txs| then txs[i] else Transmission(false, [])
  }

  function SendAll(c: Config, core: Core, items: seq<Item>, txs: seq<Transmission>): Sent {
    if items == [] then Sent(core, [])
    else
      var n := |items| - 1;
      var first := SendAll(c, core, items[..n], txs);
      var last := SendOne(c, first.core, items[n], TxAt(txs, n));
      Sent(last.core, first.out + last.out)
  }

  // ---------- a thread's step ----------

  /** What a step does before any sending: the new state and the items it hands to the forward queue. */
  datatype Acted = Acted(state: NodeState, items: seq<Item>)

  function Act(c: Config, s: NodeState, e: LocalEvent): Acted
    requires Enabled(s, e) && !e.WorkerTake? && !e.WorkerFinish?
  {
    var core := s.core;
    match e
    case Start => Acted(s.(core := core.(started := true)), [])
    case Seed(outcome) =>
      var kv := s.seedsLeft[0];
      var rest := s.(seedsLeft := s.seedsLeft[1..]);
      if outcome.Refused? then Acted(rest, [])
      else
        var written := core.(redis := core.redis[kv.key := kv.value]);
        Acted(rest.(core := if outcome.Stored? then RecordLocal(written, kv.key) else written), [])
    case LookUp(fails, millis) =>
      var key := s.requestsLeft[0];
      var counted := core.(counter := Advance(core.counter, 1));
      if Get(core, key, fails).Some?
      then Acted(s.(core := RecordLocal(counted, key), requestsLeft := s.requestsLeft[1..]), [])
      else Acted(s.(core := counted, sched := Originated(RequestFor(c, key, millis, core.counter))), [])
    case NoteOwn(pruneNow, recordNow) =>
      var call := QueryTables.Call(s.sched.req.requestId, pruneNow, recordNow);
      Acted(s.(core := core.(query := QueryTables.Record(core.query, call, c.queryTtl)), sched := Noted(s.sched.req)),
            [])
    case Choose(now, order) =>
      var live := ContentTables.Live(core.content.neighbors, now, c.contentTtl);
      var pruned := core.(content := core.content.(neighbors := live));
      Acted(s.(core := pruned,
               sched := match ContentTables.Select(core.content, s.sched.req.key, now, c.contentTtl, order)
                        case Some(a) => Chosen(s.sched.req, a)
                        case None => Unmatched(s.sched.req)), [])
    case Ask(_) => Acted(s.(sched := Asked(s.sched.req)), [Direct(s.sched.req, 0, s.sched.neighbor, None)])
    case ScheduleFallback(now) =>
      var scheduled := FallbackTables.Schedule(core.fallback, s.sched.req.key, s.sched.req.origin, now,
                                               c.fallbackWindow);
      Acted(s.(core := core.(fallback := scheduled), sched := NextKey, requestsLeft := s.requestsLeft[1..]), [])
    case Aggregate(now, wall) =>
      var added := Aggregator.AddKey(c.batching, core.agg, s.sched.req.origin, s.sched.req.key, now, wall);
      Acted(s.(core := core.(agg := added), sched := NextKey, requestsLeft := s.requestsLeft[1..]), [])
    case TakeDue(now, order) =>
      Acted(s.(core := core.(fallback := FallbackTables.AfterTake(core.fallback, now, c.fallbackWindow)),
               due := FallbackTables.Due(core.fallback, now, c.fallbackWindow, order)), [])
    case AddDue(now, wall) =>
      var added := Aggregator.AddKey(c.batching, core.agg, s.due[0].origin, s.due[0].key, now, wall);
      Acted(s.(core := core.(agg := added), due := s.due[1..]), [])
    case FlushDue(now, order, resets) =>
      Acted(s.(core := core.(agg := Aggregator.AfterFlush(c.batching, core.agg, now, resets)),
               batches := Aggregator.Flushed(c.batching, core.agg, now, order)), [])
    case SendBatch(_) => Acted(s.(batches := s.batches[1..]), [Broadcast(QueryOf(c, s.batches[0]), 0, None)])
    case TakeSnapshot => Acted(s.(snapshot := Some(core.content.local)), [])
    case SendSnapshot(_) => Acted(s.(snapshot := None), [Broadcast(SummaryOf(c, s.snapshot.value), 0, None)])
    case Receive(msg, src, hops, env, _) =>
      var effect := Handle(c, core, msg, src, hops, env);
      Acted(s.(core := effect.core), effect.items)
  }

  function TxsOf(e: LocalEvent): seq<Transmission> {
    match e
    case Ask(tx) => [tx]
    case SendBatch(tx) => [tx]
    case SendSnapshot(tx) => [tx]
    case Receive(_, _, _, _, txs) => txs
    case _ => []
  }

  datatype Stepped = Stepped(state: NodeState, out: seq<Outgoing>)

  function LocalStep(c: Config, s: NodeState, e: LocalEvent): Stepped
    requires Enabled(s, e)
  {
    match e
    case WorkerTake(w) =>
      Stepped(s.(core := s.core.(queue := s.core.queue[1..]), hands := s.hands[w := Some(s.core.queue[0])]), [])
    case WorkerFinish(w, tx) =>
      var item := s.hands[w].value;
      Stepped(s.(core := Called(c, s.core, item, tx), hands := s.hands[w := None]), Packets(c, item, tx))
    case _ =>
      var acted := Act(c, s, e);
      var sent := SendAll(c, acted.state.core, acted.items, TxsOf(e));
      Stepped(acted.state.(core := sent.core), sent.out)
  }

  // ---------- the network ----------

  datatype Packet = Packet(src: nat, dst: nat, msg: Message, hops: nat)

  datatype System = System(nodes: seq<NodeState>, packets: seq<Packet>)

  /** UdpTransport::run reads into 2048 bytes and keeps 2047: a longer datagram arrives cut short. */
  const DATAGRAM_MAX: nat := 2047

  function Received(wire: string): string {
    if |wire| > DATAGRAM_MAX then wire[..DATAGRAM_MAX] else wire
  }

  function Arrives(msg: Message): Option<Message> {
    FromWire(Received(ToWire(msg)))
  }

  datatype Event =
    | At(n: nat, local: LocalEvent)
    | Deliver(i: nat, env: Env, txs: seq<Transmission>)
    | Lose(i: nat)
    | Duplicate(i: nat)

  function InitialSystem(cfgs: seq<Config>): System {
    System(seq(|cfgs|, i requires 0 <= i < |cfgs| => InitialNode(cfgs[i])), [])
  }

  function Without(packets: seq<Packet>, i: nat): seq<Packet>
    requires i < |packets|
  {
    packets[..i] + packets[i + 1..]
  }

  function Launched(n: nat, out: seq<Outgoing>): seq<Packet> {
    seq(|out|, i requires 0 <= i < |out| => Packet(n, out[i].dst, out[i].msg, out[i].hops))
  }

  /** Node n takes a step and its packets enter the network. */
  function StepNode(cfgs: seq<Config>, sys: System, n: nat, e: LocalEvent): (t: System)
    requires n < |sys.nodes| == |cfgs| && Enabled(sys.nodes[n], e)
    ensures |t.nodes| == |sys.nodes|
  {
    var r := LocalStep(cfgs[n], sys.nodes[n], e);
    System(sys.nodes[n := r.state], sys.packets + Launched(n, r.out))
  }

  /** The receiver's step for a packet, if its datagram parses. */
  function ReceiveEvent(p: Packet, env: Env, txs: seq<Transmission>): Option<LocalEvent> {
    match Arrives(p.msg)
    case None => None
    case Some(m) => Some(Receive(m, p.src, p.hops, env, txs))
  }

  predicate CanStep(cfgs: seq<Config>, sys: System, ev: Event) {
    |sys.nodes| == |cfgs| &&
    match ev
    case At(n, e) => n < |sys.nodes| && !e.Receive? && Enabled(sys.nodes[n], e)
    case Deliver(i, env, txs) =>
      && i < |sys.packets| && sys.packets[i].dst < |sys.nodes|
      && (ReceiveEvent(sys.packets[i], env, txs).Some? ==>
            Enabled(sys.nodes[sys.packets[i].dst], ReceiveEvent(sys.packets[i], env, txs).value))
    case Lose(i) => i < |sys.packets|
    case Duplicate(i) => i < |sys.packets|
  }

  function Apply(cfgs: seq<Config>, sys: System, ev: Event): (t: System)
    requires CanStep(cfgs, sys, ev)
    ensures |t.nodes| == |sys.nodes|
  {
    match ev
    case At(n, e) => StepNode(cfgs, sys, n, e)
    case Deliver(i, env, txs) =>
      var p := sys.packets[i];
      var taken := sys.(packets := Without(sys.packets, i));
      (match ReceiveEvent(p, env, txs)
       case None => taken
       case Some(e) => StepNode(cfgs, taken, p.dst, e))
    case Lose(i) => sys.(packets := Without(sys.packets, i))
    case Duplicate(i) => sys.(packets := sys.packets + [sys.packets[i]])
  }

  /** The system after a run; an event that is not possible when its turn comes does nothing. */
  function Run(cfgs: seq<Config>, events: seq<Event>): (sys: System)
    ensures |sys.nodes| == |cfgs|
  {
    if events == [] then InitialSystem(cfgs)
    else
      var sys, ev := Run(cfgs, events[..|events| - 1]), events[|events| - 1];
      if CanStep(cfgs, sys, ev) then Apply(cfgs, sys, ev) else sys
  }

  predicate ValidNetwork(cfgs: seq<Config>) {
    forall n :: 0 <= n < |cfgs| ==>
      ValidConfig(cfgs[n]) && forall m :: m in cfgs[n].neighbors ==> m < |cfgs|
  }

  /** A configured link, in either direction. */
  predicate Linked(cfgs: seq<Config>, a: nat, b: nat) {
    a < |cfgs| && b < |cfgs| && (b in cfgs[a].neighbors || a in cfgs[b].neighbors)
  }
}
