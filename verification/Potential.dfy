/** The potential of a network state: an upper bound on how much more it can still do without being asked again. */
module Potential {
  import opened Collections
  import opened Text
  import opened Wire
  import opened Bloom
  import opened Sends
  import opened NodeModel
  import opened Systems
  import opened Arrivals
  import opened Reachability
  import opened Histories
  import opened NodeInvariants
  import Aggregator
  import FallbackTables

  // ---------- weights ----------

  /**
   * At most `degree` neighbours a node, `keys` local keys a node, and `ttl` on any originated message; `answer` is what
   * one move of a DATA (queued, in a worker's hands, on its way) weighs, 0 to leave answers out of account.
   */
  datatype Bounds = Bounds(degree: nat, keys: nat, ttl: int32, answer: nat)

  /** What one flooded message with t hops left can cause: per hop `extra` for answers, and a copy per neighbour. */
  function FloodW(b: Bounds, extra: nat, t: int): (w: nat)
    ensures w >= 1
    decreases if t <= 0 then 0 else t
  {
    if t <= 0 then 1 else 3 + extra + b.degree * FloodW(b, extra, t - 1)
  }

  /** The answers to one Query-BF at one node. */
  function Answering(b: Bounds): nat {
    3 * b.answer * b.keys
  }

  /** What one move of a message takes off the potential. */
  function MoveW(b: Bounds, m: Message): nat {
    if m.kind == Data then b.answer else 1
  }

  function MsgW(b: Bounds, m: Message): (w: nat)
    ensures w >= MoveW(b, m)
  {
    match m.kind
    case Request => FloodW(b, 0, m.ttl)
    case QueryBloom => FloodW(b, Answering(b), m.ttl)
    case _ => MoveW(b, m)
  }

  function PacketW(b: Bounds, m: Message): (w: nat) {
    if m.kind == Data then b.answer
    else
      match Arrives(m)
      case None => 1
      case Some(a) => MsgW(b, a)
  }

  /** So many times a weight. */
  function Times(n: nat, w: nat): nat {
    n * w
  }

  /** An item in a worker's hands. */
  function HandW(b: Bounds, item: Item): nat {
    MoveW(b, item.msg) + Times(if item.Direct? then 1 else b.degree, PacketW(b, item.msg))
  }

  function QueueW(b: Bounds, item: Item): nat {
    MoveW(b, item.msg) + HandW(b, item)
  }

  /** Any item a node makes up by itself. */
  function OriginatedW(b: Bounds): nat {
    2 + b.degree * FloodW(b, Answering(b), b.ttl)
  }

  function BatchW(b: Bounds): nat { 1 + OriginatedW(b) }
  function PendingW(b: Bounds): nat { 1 + BatchW(b) }
  function KeyW(b: Bounds): nat { 1 + PendingW(b) }
  function DueW(b: Bounds): nat { 1 + KeyW(b) }
  function FallbackW(b: Bounds): nat { 1 + DueW(b) }
  function RequestW(b: Bounds): nat { 6 + OriginatedW(b) + FallbackW(b) }

  /** What is left of the scheduler's current key. */
  function CurrentW(b: Bounds, pc: Scheduler): nat {
    match pc
    case NextKey => RequestW(b)
    case Originated(_) => 5 + OriginatedW(b) + FallbackW(b)
    case Noted(_) => 4 + OriginatedW(b) + FallbackW(b)
    case Chosen(_, _) => 3 + OriginatedW(b) + FallbackW(b)
    case Unmatched(_) => 3 + OriginatedW(b) + FallbackW(b)
    case Asked(_) => 2 + FallbackW(b)
  }

  function SchedulerW(b: Bounds, left: seq<string>, pc: Scheduler): nat {
    if left == [] then 0 else Times(|left| - 1, RequestW(b)) + CurrentW(b, pc)
  }

  /** A node's aggregator only ever has the node's own buffer. */
  function AggregatorW(b: Bounds, c: Config, a: Aggregator.State): nat {
    Times(KeyW(b), |Aggregator.Find(a, c.nodeId).keys|) + Times(PendingW(b), |a.pending|)
  }

  /** Everything but the sending side. */
  function ThreadsW(b: Bounds, c: Config, s: NodeState): nat {
    (if s.core.started then 0 else 1) + |s.seedsLeft| + SchedulerW(b, s.requestsLeft, s.sched)
    + Times(FallbackW(b), |s.core.fallback|) + Times(DueW(b), |s.due|)
    + AggregatorW(b, c, s.core.agg) + Times(BatchW(b), |s.batches|)
    + (if s.snapshot.Some? then BatchW(b) else 0)
  }

  function Queued(b: Bounds): Item -> nat {
    (item: Item) => QueueW(b, item)
  }

  function InHand(b: Bounds): Option<Item> -> nat {
    (h: Option<Item>) => if h.Some? then HandW(b, h.value) else 0
  }

  function InFlight(b: Bounds): Packet -> nat {
    (p: Packet) => PacketW(b, p.msg)
  }

  function Leaving(b: Bounds): Outgoing -> nat {
    (o: Outgoing) => PacketW(b, o.msg)
  }

  function SendingW(b: Bounds, s: NodeState): nat {
    Sum(Queued(b), s.core.queue) + Sum(InHand(b), s.hands)
  }

  function NodeW(b: Bounds, c: Config, s: NodeState): nat {
    ThreadsW(b, c, s) + SendingW(b, s)
  }

  function NodesW(b: Bounds, cfgs: seq<Config>, nodes: seq<NodeState>): nat
    requires |cfgs| == |nodes|
  {
    if nodes == [] then 0
    else NodesW(b, cfgs[..|cfgs| - 1], nodes[..|nodes| - 1]) + NodeW(b, cfgs[|cfgs| - 1], nodes[|nodes| - 1])
  }

  function SystemW(b: Bounds, cfgs: seq<Config>, sys: System): nat
    requires |cfgs| == |sys.nodes|
  {
    NodesW(b, cfgs, sys.nodes) + Sum(InFlight(b), sys.packets)
  }

  // ---------- bounds ----------

  /** The bounds cover a configuration; only a separator in its name can make an arriving ttl unpredictable. */
  predicate CoversOne(b: Bounds, c: Config) {
    && b.degree >= 1 && b.answer <= 1 && |c.neighbors| <= b.degree && c.requestTtl <= b.ttl
    && ('|' in c.nodeId ==> b.ttl == 0x7fff_ffff)
  }

  predicate Covers(b: Bounds, cfgs: seq<Config>) {
    forall n :: 0 <= n < |cfgs| ==> CoversOne(b, cfgs[n])
  }

  /** The bound on local keys matters only if answers are counted. */
  predicate KeysWithin(b: Bounds, sys: System) {
    b.answer > 0 ==> forall n :: 0 <= n < |sys.nodes| ==> |sys.nodes[n].core.localKeys| <= b.keys
  }

  lemma TimesMonotone(d: nat, x: nat, y: nat)
    requires x <= y
    ensures d * x <= d * y
  {}

  lemma {:induction false} FloodMonotone(b: Bounds, extra: nat, more: nat, t: int, u: int)
    requires extra <= more && t <= u
    ensures FloodW(b, extra, t) <= FloodW(b, more, u)
    decreases if t <= 0 then 0 else t
  {
    if t > 0 {
      FloodMonotone(b, extra, more, t - 1, u - 1);
      TimesMonotone(b.degree, FloodW(b, extra, t - 1), FloodW(b, more, u - 1));
    }
  }

  /** Whatever a node originates weighs no more than a flood with the largest ttl. */
  lemma OriginatedBound(b: Bounds, c: Config, item: Item)
    requires CoversOne(b, c) && item.msg.kind != Data
    requires (item.msg.kind == Request || item.msg.kind == QueryBloom ==> item.msg.ttl <= b.ttl)
    requires (item.msg.kind == Request || item.msg.kind == QueryBloom) && '|' !in c.nodeId ==>
               '|' !in item.msg.requestId && '|' !in item.msg.origin
    ensures QueueW(b, item) <= OriginatedW(b)
  {
    hide FloodW;
    var top := FloodW(b, Answering(b), b.ttl);
    if Arrives(item.msg).Some? {
      var a := Arrives(item.msg).value;
      KindArrives(item.msg);
      if a.kind == Request || a.kind == QueryBloom {
        if '|' !in c.nodeId {
          TtlArrives(item.msg);
        }
        FloodMonotone(b, 0, Answering(b), a.ttl, b.ttl);
        FloodMonotone(b, Answering(b), Answering(b), a.ttl, b.ttl);
      }
    }
    hide Arrives;
    assert PacketW(b, item.msg) <= top;
    TimesMonotone(b.degree, PacketW(b, item.msg), top);
    assert top <= b.degree * top by { TimesAtLeast(b.degree, top); }
  }

  lemma TimesAtLeast(d: nat, x: nat)
    requires d >= 1
    ensures x <= d * x
  {}

  /** A message arrived with clean names, so forwarding it with one ttl less weighs one flood step less. */
  lemma {:induction false} ForwardBound(b: Bounds, m: Message, t: int32)
    requires '|' !in m.requestId && '|' !in m.origin && (m.kind == Request || m.kind == QueryBloom)
    ensures PacketW(b, m.(ttl := t)) <= FloodW(b, if m.kind == Request then 0 else Answering(b), t)
  {
    var f := m.(ttl := t);
    if Arrives(f).Some? {
      TtlArrives(f);
    }
    hide Arrives, FloodW;
  }

  /** Whatever arrives weighs what its packet did. */
  lemma ArrivedW(b: Bounds, m: Message)
    ensures Arrives(m).Some? ==> PacketW(b, m) == MsgW(b, Arrives(m).value) && Arrives(m).value.kind == m.kind
    ensures PacketW(b, m) >= MoveW(b, m)
  {
    if Arrives(m).Some? {
      KindArrives(m);
    }
    hide Arrives, FloodW;
  }
}
