/**
 * What a step can and cannot change: every item that is queued, in a worker's hands or sent was one before, or was just
 * made.
 */
module Steps {
  import opened Collections
  import opened Text
  import opened Bloom
  import opened Wire
  import opened Sends
  import opened NodeModel
  import opened Systems
  import Aggregator
  import ContentTables
  import FallbackTables
  import QueryLimiter
  import QueryTables
  import SyncTables

  function HandItems(hands: seq<Option<Item>>): set<Item> {
    set w | 0 <= w < |hands| && hands[w].Some? :: hands[w].value
  }

  /** The items a node still has to send. */
  function Items(s: NodeState): set<Item> {
    SetOf(s.core.queue) + HandItems(s.hands)
  }

  /** The state without its sending side. */
  function Quiet(s: NodeState): NodeState {
    s.(core := s.core.(queue := [], sync := SyncTables.FRESH), hands := [])
  }

  function Produced(c: Config, s: NodeState, e: LocalEvent): seq<Item>
    requires Enabled(s, e)
  {
    if e.WorkerTake? || e.WorkerFinish? then [] else Act(c, s, e).items
  }

  predicate CopyOf(c: Config, o: Outgoing, item: Item) {
    o.msg == item.msg && o.hops == item.hops && if item.Direct? then o.dst == item.addr else o.dst in c.neighbors
  }

  predicate HasSource(c: Config, o: Outgoing, items: set<Item>) {
    exists item :: item in items && CopyOf(c, o, item)
  }

  predicate FromItems(c: Config, out: seq<Outgoing>, items: set<Item>) {
    forall i :: 0 <= i < |out| ==> HasSource(c, out[i], items)
  }

  lemma {:induction false} ReachedAreNeighbors(neighbors: seq<nat>, reached: seq<bool>)
    ensures forall d :: d in Reached(neighbors, reached) ==> d in neighbors
    ensures |Reached(neighbors, reached)| <= |neighbors|
  {
    if neighbors != [] {
      ReachedAreNeighbors(neighbors[..|neighbors| - 1], reached);
    }
  }

  lemma PacketsAreCopies(c: Config, item: Item, tx: Transmission, items: set<Item>)
    requires item in items
    ensures FromItems(c, Packets(c, item, tx), items)
  {
    ReachedAreNeighbors(c.neighbors, tx.reached);
    var out := Packets(c, item, tx);
    forall i | 0 <= i < |out| ensures HasSource(c, out[i], items) {
      assert out[i].dst in Targets(c, item, tx);
      assert CopyOf(c, out[i], item);
    }
  }

  lemma FromMoreItems(c: Config, out: seq<Outgoing>, items: set<Item>, more: set<Item>)
    requires FromItems(c, out, items) && items <= more
    ensures FromItems(c, out, more)
  {
    forall i | 0 <= i < |out| ensures HasSource(c, out[i], more) {
      assert HasSource(c, out[i], items);
      var it :| it in items && CopyOf(c, out[i], it);
      assert it in more;
    }
  }

  predicate SameButSending(a: Core, b: Core) {
    a == b.(queue := a.queue, sync := a.sync)
  }

  lemma {:induction false} SendAllFrame(c: Config, core: Core, items: seq<Item>, txs: seq<Transmission>)
    ensures var r := SendAll(c, core, items, txs);
            && SetOf(r.core.queue) <= SetOf(core.queue) + SetOf(items)
            && FromItems(c, r.out, SetOf(items))
            && SameButSending(r.core, core)
  {
    if items != [] {
      var n := |items| - 1;
      var first := SendAll(c, core, items[..n], txs);
      SendAllFrame(c, core, items[..n], txs);
      PacketsAreCopies(c, items[n], TxAt(txs, n), SetOf(items));
      FromMoreItems(c, first.out, SetOf(items[..n]), SetOf(items));
      var last := SendOne(c, first.core, items[n], TxAt(txs, n));
      assert SetOf(last.core.queue) <= SetOf(first.core.queue) + {items[n]};
      assert items[n] in SetOf(items) && SetOf(items[..n]) <= SetOf(items);
    }
  }

  lemma {:induction false} HandSetItem(hands: seq<Option<Item>>, w: nat, h: Option<Item>)
    requires w < |hands|
    ensures HandItems(hands[w := h]) <= HandItems(hands) + (if h.Some? then {h.value} else {})
    ensures hands[w].Some? ==> hands[w].value in HandItems(hands)
  {
    var t := hands[w := h];
    forall it | it in HandItems(t) ensures it in HandItems(hands) || h == Some(it) {
      var v :| 0 <= v < |t| && t[v].Some? && t[v].value == it;
      assert v != w ==> hands[v] == t[v];
    }
  }

  ghost predicate Framed(c: Config, s: NodeState, quiet: NodeState, made: seq<Item>, r: Stepped) {
    && Items(r.state) <= Items(s) + SetOf(made)
    && FromItems(c, r.out, Items(s) + SetOf(made))
    && Quiet(r.state) == Quiet(quiet)
  }

  lemma WorkerFrame(c: Config, s: NodeState, e: LocalEvent)
    requires Enabled(s, e) && (e.WorkerTake? || e.WorkerFinish?)
    ensures Framed(c, s, s, [], LocalStep(c, s, e))
  {
    hide SyncTables.Record;
    if e.WorkerTake? {
      HandSetItem(s.hands, e.w, Some(s.core.queue[0]));
    } else {
      HandSetItem(s.hands, e.w, None);
      PacketsAreCopies(c, s.hands[e.w].value, e.tx, Items(s) + SetOf([]));
    }
  }

  lemma ActFrame(c: Config, s: NodeState, e: LocalEvent)
    requires Enabled(s, e) && !e.WorkerTake? && !e.WorkerFinish?
    ensures Framed(c, s, Act(c, s, e).state, Act(c, s, e).items, LocalStep(c, s, e))
  {
    ActKeepsSending(c, s, e);
    hide Act, SendAll, Enabled;
    var acted := Act(c, s, e);
    SendAllFrame(c, acted.state.core, acted.items, TxsOf(e));
    FromMoreItems(c, LocalStep(c, s, e).out, SetOf(acted.items), Items(s) + SetOf(acted.items));
  }

  /** Nothing to send comes from nowhere, and sending touches nothing else. */
  lemma StepFrame(c: Config, s: NodeState, e: LocalEvent)
    requires Enabled(s, e)
    ensures var mid := if e.WorkerTake? || e.WorkerFinish? then s else Act(c, s, e).state;
            Framed(c, s, mid, Produced(c, s, e), LocalStep(c, s, e))
  {
    hide Act, LocalStep, Framed, Enabled;
    if e.WorkerTake? || e.WorkerFinish? {
      WorkerFrame(c, s, e);
    } else {
      ActFrame(c, s, e);
    }
  }

  predicate SameSending(a: Core, b: Core) {
    a.queue == b.queue && a.sync == b.sync && a.started == b.started
  }

  lemma RequestKeepsSending(c: Config, core: Core, m: Message, from: nat, hops: nat, env: Env)
    requires WellSized(core.content.local)
    ensures SameSending(HandleRequest(c, core, m, from, hops, env).core, core)
  {
    hide QueryAfter, DecideRequest, Bloom.Add;
  }

  lemma DataKeepsSending(c: Config, core: Core, m: Message, env: Env)
    requires WellSized(core.content.local)
    ensures SameSending(HandleData(c, core, m, env).core, core)
  {
    hide DecideData, Bloom.Add;
  }

  lemma QueryKeepsSending(c: Config, core: Core, m: Message, from: nat, hops: nat, env: Env)
    ensures SameSending(HandleQueryBloom(c, core, m, from, hops, env).core, core)
  {
    hide AcceptedQuery, Replies, LimiterCall, QueryLimiter.After, QueryLimiter.Allows;
  }

  lemma HandleKeepsSending(c: Config, core: Core, m: Message, from: nat, hops: nat, env: Env)
    requires WellSized(core.content.local)
    ensures SameSending(Handle(c, core, m, from, hops, env).core, core)
  {
    hide HandleRequest, HandleData, HandleQueryBloom, Bloom.FromHex, WellSized;
    RequestKeepsSending(c, core, m, from, hops, env);
    DataKeepsSending(c, core, m, env);
    QueryKeepsSending(c, core, m, from, hops, env);
  }

  lemma ActKeepsSending(c: Config, s: NodeState, e: LocalEvent)
    requires Enabled(s, e) && !e.WorkerTake? && !e.WorkerFinish?
    ensures Act(c, s, e).state.hands == s.hands && Act(c, s, e).state.core.queue == s.core.queue
    ensures Act(c, s, e).state.core.sync == s.core.sync
  {
    if e.Receive? {
      HandleKeepsSending(c, s.core, e.msg, e.src, e.hops, e.env);
    }
    hide Handle, Bloom.Add, QueryTables.Record, ContentTables.Select, ContentTables.Live, FallbackTables.Schedule;
    hide Aggregator.AddKey, FallbackTables.AfterTake, FallbackTables.Due, Aggregator.AfterFlush, Aggregator.Flushed;
    hide RequestFor, QueryOf, SummaryOf, Get;
  }
}
