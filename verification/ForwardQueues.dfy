/** The bounded outbound queue and its workers (node/forward_queue.cpp), one critical section at a time. */
module ForwardQueues {
  import opened Text
  import opened Sends

  /** A worker thread: waiting, sending the item it popped, or returned from its loop. */
  datatype Worker = Waiting | Holding(item: Item, ticket: nat) | Exited

  /**
   * The queue and its workers, with the history that identifies items: every offered item has a ticket, its
   * position in `offers`; `accepted` and `taken` are tickets in order; `outcomes` lists the callbacks
   * each ticket has had (true for on_success, false for on_failure).
   */
  datatype QueueState = QueueState(
    queue: seq<Item>, workers: seq<Worker>, running: bool,
    offers: seq<Item>, accepted: seq<nat>, taken: seq<nat>, outcomes: seq<seq<bool>>)

  datatype Event = Offer(item: Item) | Take(w: nat) | Finish(w: nat, sent: bool) | Exit(w: nat) | Stop

  function Initial(workers: nat): QueueState {
    QueueState([], seq(workers, _ => Waiting), true, [], [], [], [])
  }

  predicate Enabled(s: QueueState, e: Event) {
    match e
    case Offer(_) => true
    case Take(w) => w < |s.workers| && s.workers[w].Waiting? && s.queue != [] && |s.taken| < |s.accepted|
    case Finish(w, _) => w < |s.workers| && s.workers[w].Holding? && s.workers[w].ticket < |s.outcomes|
    case Exit(w) => w < |s.workers| && s.workers[w].Waiting? && s.queue == [] && !s.running
    case Stop => true
  }

  function Step(s: QueueState, e: Event, maxDepth: nat): QueueState
    requires Enabled(s, e)
  {
    match e
    case Offer(item) =>
      if |s.queue| >= maxDepth
      then s.(offers := s.offers + [item], outcomes := s.outcomes + [if item.Direct? then [false] else []])
      else s.(offers := s.offers + [item], outcomes := s.outcomes + [[]],
              accepted := s.accepted + [|s.offers|], queue := s.queue + [item])
    case Take(w) =>
      var ticket := s.accepted[|s.taken|];
      s.(workers := s.workers[w := Holding(s.queue[0], ticket)], queue := s.queue[1..], taken := s.taken + [ticket])
    case Finish(w, sent) =>
      var h := s.workers[w];
      s.(workers := s.workers[w := Waiting],
         outcomes := if h.item.Direct? then s.outcomes[h.ticket := s.outcomes[h.ticket] + [sent]] else s.outcomes)
    case Exit(w) => s.(workers := s.workers[w := Exited])
    case Stop => s.(running := false)
  }

  // ---------- the invariant of every interleaving ----------

  predicate HoldsTicket(s: QueueState, t: nat) {
    exists w :: 0 <= w < |s.workers| && s.workers[w].Holding? && s.workers[w].ticket == t
  }

  /** Tickets ascend, so none is accepted twice; the queue is exactly what was accepted and not yet taken. */
  ghost predicate Fifo(s: QueueState) {
    && |s.outcomes| == |s.offers|
    && (forall i :: 0 <= i < |s.accepted| ==> s.accepted[i] < |s.offers|)
    && (forall i, j :: 0 <= i < j < |s.accepted| ==> s.accepted[i] < s.accepted[j])
    && |s.taken| + |s.queue| == |s.accepted|
    && s.taken == s.accepted[..|s.taken|]
    && (forall i :: 0 <= i < |s.queue| ==> s.queue[i] == s.offers[s.accepted[|s.taken| + i]])
  }

  /** Each popped item is in one worker's hands at most, and is the item its ticket names. */
  ghost predicate Held(s: QueueState) {
    && (forall w :: 0 <= w < |s.workers| && s.workers[w].Holding? ==>
          s.workers[w].ticket in s.taken && s.workers[w].ticket < |s.offers|
          && s.workers[w].item == s.offers[s.workers[w].ticket])
    && (forall v, w :: 0 <= v < w < |s.workers| && s.workers[v].Holding? && s.workers[w].Holding? ==>
          s.workers[v].ticket != s.workers[w].ticket)
  }

  /** Settled: rejected on arrival, or popped and no longer in anyone's hands. */
  ghost predicate Settled(s: QueueState, t: nat) {
    t !in s.accepted || (t in s.taken && !HoldsTicket(s, t))
  }

  /** A direct item has one callback outcome once it is settled and none before; a broadcast never has one. */
  ghost predicate Reported(s: QueueState) {
    |s.outcomes| == |s.offers| &&
    forall t :: 0 <= t < |s.offers| ==>
      |s.outcomes[t]| == if s.offers[t].Direct? && Settled(s, t) then 1 else 0
  }

  ghost predicate Sound(s: QueueState, maxDepth: nat) {
    |s.queue| <= maxDepth && Fifo(s) && Held(s) && Reported(s)
  }

  lemma NotYetAccepted(s: QueueState)
    requires Fifo(s)
    ensures |s.offers| !in s.accepted && |s.offers| !in s.taken
    ensures forall i :: |s.taken| <= i < |s.accepted| ==> s.accepted[i] !in s.taken
  {}

  predicate HoldsAt(s: QueueState, w: nat, t: nat) {
    w < |s.workers| && s.workers[w].Holding? && s.workers[w].ticket == t
  }

  /** Only worker w may have changed; if it agrees about ticket k, so do the workers as a whole. */
  lemma SameHolder(s: QueueState, t: QueueState, w: nat, k: nat)
    requires |s.workers| == |t.workers| && forall v: nat :: v < |s.workers| && v != w ==> s.workers[v] == t.workers[v]
    requires HoldsAt(s, w, k) <==> HoldsAt(t, w, k)
    ensures HoldsTicket(s, k) <==> HoldsTicket(t, k)
  {
    if HoldsTicket(s, k) {
      var v: nat :| v < |s.workers| && s.workers[v].Holding? && s.workers[v].ticket == k;
      assert HoldsAt(s, v, k) && HoldsAt(t, v, k);
    }
    if HoldsTicket(t, k) {
      var v: nat :| v < |t.workers| && t.workers[v].Holding? && t.workers[v].ticket == k;
      assert HoldsAt(t, v, k) && HoldsAt(s, v, k);
    }
  }

  lemma OfferFifo(s: QueueState, item: Item, maxDepth: nat)
    requires Sound(s, maxDepth)
    ensures Fifo(Step(s, Offer(item), maxDepth))
  {
    hide Held, Reported;
    var t := Step(s, Offer(item), maxDepth);
    assert forall i :: 0 <= i < |s.queue| ==> t.queue[i] == t.offers[t.accepted[|t.taken| + i]];
    assert t.taken == t.accepted[..|t.taken|];
  }

  lemma OfferSound(s: QueueState, item: Item, maxDepth: nat)
    requires Sound(s, maxDepth)
    ensures Sound(Step(s, Offer(item), maxDepth), maxDepth)
  {
    var t := Step(s, Offer(item), maxDepth);
    OfferFifo(s, item, maxDepth);
    NotYetAccepted(s);
    hide Fifo;
    assert Held(t);
    forall k | 0 <= k < |t.offers|
      ensures |t.outcomes[k]| == if t.offers[k].Direct? && Settled(t, k) then 1 else 0
    {
      assert HoldsTicket(t, k) <==> HoldsTicket(s, k);
      if k < |s.offers| {
        assert k in t.accepted <==> k in s.accepted;
        assert Settled(t, k) <==> Settled(s, k);
      } else {
        assert t.accepted == s.accepted + [k] || t.accepted == s.accepted;
      }
    }
  }

  lemma TakeFifo(s: QueueState, w: nat, maxDepth: nat)
    requires Sound(s, maxDepth) && Enabled(s, Take(w))
    ensures Fifo(Step(s, Take(w), maxDepth))
  {
    hide Held, Reported;
    assert s.accepted[..|s.taken| + 1] == s.accepted[..|s.taken|] + [s.accepted[|s.taken|]];
  }

  lemma TakeHeld(s: QueueState, w: nat, maxDepth: nat)
    requires Sound(s, maxDepth) && Enabled(s, Take(w))
    ensures Held(Step(s, Take(w), maxDepth))
  {
    NotYetAccepted(s);
    var ticket := s.accepted[|s.taken|];
    assert s.queue[0] == s.offers[ticket] && ticket < |s.offers|;
    hide Fifo, Reported;
    var t := Step(s, Take(w), maxDepth);
    assert t.taken == s.taken + [ticket];
  }

  lemma TakeSound(s: QueueState, w: nat, maxDepth: nat)
    requires Sound(s, maxDepth) && Enabled(s, Take(w))
    ensures Sound(Step(s, Take(w), maxDepth), maxDepth)
  {
    var t := Step(s, Take(w), maxDepth);
    var ticket := s.accepted[|s.taken|];
    TakeFifo(s, w, maxDepth);
    TakeHeld(s, w, maxDepth);
    NotYetAccepted(s);
    hide Fifo, Held;
    assert t.taken == s.taken + [ticket] && HoldsTicket(t, ticket) by {
      assert HoldsAt(t, w, ticket) && t.workers[w].Holding?;
    }
    forall k | 0 <= k < |t.offers| ensures Settled(t, k) <==> Settled(s, k) {
      if k != ticket {
        SameHolder(s, t, w, k);
      }
    }
  }

  lemma FinishHeld(s: QueueState, w: nat, sent: bool, maxDepth: nat)
    requires Sound(s, maxDepth) && Enabled(s, Finish(w, sent))
    ensures Fifo(Step(s, Finish(w, sent), maxDepth)) && Held(Step(s, Finish(w, sent), maxDepth))
  {
    hide Reported;
  }

  lemma FinishSettles(s: QueueState, w: nat, sent: bool, maxDepth: nat)
    requires Sound(s, maxDepth) && Enabled(s, Finish(w, sent))
    ensures var t := Step(s, Finish(w, sent), maxDepth);
            !Settled(s, s.workers[w].ticket) && Settled(t, s.workers[w].ticket)
  {
    hide Reported;
    var t, ticket := Step(s, Finish(w, sent), maxDepth), s.workers[w].ticket;
    assert HoldsTicket(s, ticket);
    forall v: nat | v < |t.workers| && t.workers[v].Holding? ensures t.workers[v].ticket != ticket {
      assert v != w && t.workers[v] == s.workers[v];
    }
    assert s.taken == s.accepted[..|s.taken|];
  }

  lemma FinishSound(s: QueueState, w: nat, sent: bool, maxDepth: nat)
    requires Sound(s, maxDepth) && Enabled(s, Finish(w, sent))
    ensures Sound(Step(s, Finish(w, sent), maxDepth), maxDepth)
  {
    var t, ticket := Step(s, Finish(w, sent), maxDepth), s.workers[w].ticket;
    FinishHeld(s, w, sent, maxDepth);
    FinishSettles(s, w, sent, maxDepth);
    assert s.workers[w].item == s.offers[ticket];
    hide Fifo, Held;
    forall k | 0 <= k < |t.offers| && k != ticket ensures Settled(t, k) <==> Settled(s, k) {
      SameHolder(s, t, w, k);
    }
  }

  lemma ExitSound(s: QueueState, w: nat, maxDepth: nat)
    requires Sound(s, maxDepth) && Enabled(s, Exit(w))
    ensures Sound(Step(s, Exit(w), maxDepth), maxDepth)
  {
    var t := Step(s, Exit(w), maxDepth);
    forall k | 0 <= k < |t.offers| ensures Settled(t, k) <==> Settled(s, k) {
      SameHolder(s, t, w, k);
    }
  }

  lemma StopSound(s: QueueState, maxDepth: nat)
    requires Sound(s, maxDepth)
    ensures Sound(Step(s, Stop, maxDepth), maxDepth)
  {
    var t := Step(s, Stop, maxDepth);
    assert forall k :: 0 <= k < |t.offers| ==> (HoldsTicket(t, k) <==> HoldsTicket(s, k));
    assert forall k :: 0 <= k < |t.offers| ==> (Settled(t, k) <==> Settled(s, k));
  }

  function Run(events: seq<Event>, workers: nat, maxDepth: nat): QueueState {
    if events == [] then Initial(workers)
    else
      var s, e := Run(events[..|events| - 1], workers, maxDepth), events[|events| - 1];
      if Enabled(s, e) then Step(s, e, maxDepth) else s
  }

  lemma InitialSound(workers: nat, maxDepth: nat)
    ensures Sound(Initial(workers), maxDepth)
  {}

  /** Under every interleaving of producers and workers: the depth bound holds, items leave in the order they were
      accepted and only once, and each direct item is reported exactly once, when it is settled. */
  lemma {:induction false} EveryInterleavingSound(events: seq<Event>, workers: nat, maxDepth: nat)
    ensures Sound(Run(events, workers, maxDepth), maxDepth)
  {
    hide Fifo, Held, Reported;
    if events == [] {
      InitialSound(workers, maxDepth);
    } else {
      var s, e := Run(events[..|events| - 1], workers, maxDepth), events[|events| - 1];
      EveryInterleavingSound(events[..|events| - 1], workers, maxDepth);
      if Enabled(s, e) {
        match e {
          case Offer(item) => OfferSound(s, item, maxDepth);
          case Take(w) => TakeSound(s, w, maxDepth);
          case Finish(w, sent) => FinishSound(s, w, sent, maxDepth);
          case Exit(w) => ExitSound(s, w, maxDepth);
          case Stop => StopSound(s, maxDepth);
        }
      }
    }
  }

  /** Overflow costs only the arriving item: nothing already queued or in a worker's hands is touched. */
  lemma OverflowRejectsOnlyTheArrival(s: QueueState, item: Item, maxDepth: nat)
    requires Sound(s, maxDepth) && |s.queue| == maxDepth
    ensures var t := Step(s, Offer(item), maxDepth);
            && t.queue == s.queue && t.workers == s.workers && t.accepted == s.accepted
            && Settled(t, |s.offers|) && (item.Direct? ==> t.outcomes[|s.offers|] == [false])
            && forall k :: 0 <= k < |s.offers| ==> t.outcomes[k] == s.outcomes[k]
  {
    NotYetAccepted(s);
  }

  lemma {:induction false} RunStep(events: seq<Event>, e: Event, workers: nat, maxDepth: nat)
    ensures var s := Run(events, workers, maxDepth);
            Run(events + [e], workers, maxDepth) == if Enabled(s, e) then Step(s, e, maxDepth) else s
  {
    assert (events + [e])[..|events|] == events;
  }

  /** In any run an offer is accepted if and only if fewer items than the depth are accepted and not yet taken. */
  lemma {:induction false} AcceptedExactly(events: seq<Event>, item: Item, workers: nat, maxDepth: nat)
    ensures var s, t := Run(events, workers, maxDepth), Run(events + [Offer(item)], workers, maxDepth);
      && t.offers == s.offers + [item] && t.taken == s.taken && t.workers == s.workers
      && (|s.accepted| - |s.taken| < maxDepth ==>
            t.accepted == s.accepted + [|s.offers|] && t.outcomes == s.outcomes + [[]])
      && (|s.accepted| - |s.taken| >= maxDepth ==>
            t.accepted == s.accepted && t.outcomes == s.outcomes + [if item.Direct? then [false] else []])
  {
    EveryInterleavingSound(events, workers, maxDepth);
    RunStep(events, Offer(item), workers, maxDepth);
    hide Run;
  }

  /** Event j ends the sending of the item with this ticket. */
  predicate FinishedBy(events: seq<Event>, workers: nat, maxDepth: nat, j: nat, ticket: nat, sent: bool) {
    && j < |events| && events[j].Finish? && events[j].sent == sent
    && HoldsAt(Run(events[..j], workers, maxDepth), events[j].w, ticket)
  }

  ghost predicate ToldTruly(events: seq<Event>, workers: nat, maxDepth: nat, ticket: nat) {
    var s := Run(events, workers, maxDepth);
    ticket < |s.outcomes| && s.outcomes[ticket] != [] ==>
      && |s.outcomes[ticket]| == 1
      && (ticket !in s.accepted ==> !s.outcomes[ticket][0])
      && (ticket in s.accepted ==>
            exists j: nat :: FinishedBy(events, workers, maxDepth, j, ticket, s.outcomes[ticket][0]))
  }

  lemma {:induction false} StillFinished(events: seq<Event>, e: Event, workers: nat, maxDepth: nat, ticket: nat)
    ensures forall j: nat, sent :: FinishedBy(events, workers, maxDepth, j, ticket, sent) ==>
                                     FinishedBy(events + [e], workers, maxDepth, j, ticket, sent)
  {
    hide Run, HoldsAt;
    forall j: nat, sent | FinishedBy(events, workers, maxDepth, j, ticket, sent)
      ensures FinishedBy(events + [e], workers, maxDepth, j, ticket, sent)
    {
      assert (events + [e])[..j] == events[..j];
    }
  }

  lemma {:induction false} FinishTells(events: seq<Event>, w: nat, sent: bool, workers: nat, maxDepth: nat, ticket: nat)
    requires Enabled(Run(events, workers, maxDepth), Finish(w, sent))
    requires ToldTruly(events, workers, maxDepth, ticket)
    ensures ToldTruly(events + [Finish(w, sent)], workers, maxDepth, ticket)
  {
    var s, e := Run(events, workers, maxDepth), Finish(w, sent);
    EveryInterleavingSound(events, workers, maxDepth);
    RunStep(events, e, workers, maxDepth);
    StillFinished(events, e, workers, maxDepth, ticket);
    if s.workers[w].ticket == ticket {
      assert (events + [e])[..|events|] == events;
      assert HoldsTicket(s, ticket) && ticket in s.accepted && s.outcomes[ticket] == [];
      assert HoldsAt(s, w, ticket) && FinishedBy(events + [e], workers, maxDepth, |events|, ticket, sent);
    }
    hide Run, FinishedBy;
    var t := Run(events + [e], workers, maxDepth);
    assert t.accepted == s.accepted;
    if s.workers[w].ticket == ticket {
      assert t.outcomes[ticket] == if s.workers[w].item.Direct? then [sent] else [];
      if s.workers[w].item.Direct? {
        assert FinishedBy(events + [e], workers, maxDepth, |events|, ticket, t.outcomes[ticket][0]);
        assert ticket in t.accepted;
        assert |t.outcomes[ticket]| == 1;
      }
    } else {
      assert ticket < |s.outcomes| ==> t.outcomes[ticket] == s.outcomes[ticket];
    }
  }

  /**
   * In any run a direct item's one outcome is a failure if it was rejected on arrival, and otherwise what the send of
   * the worker that held it came to.
   */
  lemma {:induction false} OutcomesAreTrue(events: seq<Event>, workers: nat, maxDepth: nat, ticket: nat)
    ensures ToldTruly(events, workers, maxDepth, ticket)
  {
    hide FinishedBy, Held, Reported, HoldsTicket, Settled;
    if events != [] {
      var init, e := events[..|events| - 1], events[|events| - 1];
      assert events == init + [e];
      OutcomesAreTrue(init, workers, maxDepth, ticket);
      var s := Run(init, workers, maxDepth);
      EveryInterleavingSound(init, workers, maxDepth);
      RunStep(init, e, workers, maxDepth);
      StillFinished(init, e, workers, maxDepth, ticket);
      NotYetAccepted(s);
      hide Run;
      if Enabled(s, e) && e.Finish? {
        FinishTells(init, e.w, e.sent, workers, maxDepth, ticket);
      }
    }
  }

  /** Event j is a worker's return from its loop, and nothing is offered after it. */
  predicate LastOfferBeforeExit(events: seq<Event>, workers: nat, maxDepth: nat, j: nat) {
    && j < |events| && events[j].Exit? && Enabled(Run(events[..j], workers, maxDepth), events[j])
    && forall k :: j < k < |events| ==> !events[k].Offer?
  }

  lemma {:induction false} StaysDrained(events: seq<Event>, workers: nat, maxDepth: nat, j: nat)
    requires LastOfferBeforeExit(events, workers, maxDepth, j)
    ensures Run(events, workers, maxDepth).queue == []
    decreases |events|
  {
    var n := |events| - 1;
    var init := events[..n];
    if j < n {
      assert init[..j] == events[..j];
      StaysDrained(init, workers, maxDepth, j);
    }
  }

  /**
   * Once a worker has returned and nothing more is offered, every accepted item has been taken; when none is in a
   * worker's hands any more, every direct item ever offered has had exactly one callback and no broadcast any.
   */
  lemma {:induction false} DrainedAtExit(events: seq<Event>, workers: nat, maxDepth: nat, j: nat)
    requires LastOfferBeforeExit(events, workers, maxDepth, j)
    ensures var s := Run(events, workers, maxDepth);
      && s.queue == [] && s.taken == s.accepted
      && ((forall w :: 0 <= w < |s.workers| ==> !s.workers[w].Holding?) ==>
            |s.outcomes| == |s.offers|
            && forall t :: 0 <= t < |s.offers| ==> |s.outcomes[t]| == if s.offers[t].Direct? then 1 else 0)
  {
    StaysDrained(events, workers, maxDepth, j);
    EveryInterleavingSound(events, workers, maxDepth);
    var s := Run(events, workers, maxDepth);
    hide Run, Held;
    assert s.accepted[..|s.accepted|] == s.accepted;
    if forall w :: 0 <= w < |s.workers| ==> !s.workers[w].Holding? {
      forall t | 0 <= t < |s.offers| ensures Settled(s, t) {
        assert !HoldsTicket(s, t);
      }
    }
  }

  // ---------- the queue object ----------

  /** A worker thread without the history: only what it holds. */
  datatype Thread = Idle | Sending(item: Item) | Returned

  function WithTicket(t: Thread, ticket: nat): Worker {
    match t
    case Idle => Waiting
    case Sending(item) => Holding(item, ticket)
    case Returned => Exited
  }

  function WorkersOf(threads: seq<Thread>, tickets: seq<nat>): seq<Worker>
    requires |threads| == |tickets|
  {
    seq(|threads|, i requires 0 <= i < |threads| => WithTicket(threads[i], tickets[i]))
  }

  lemma ThreadUpdate(threads: seq<Thread>, tickets: seq<nat>, w: nat, t: Thread, ticket: nat)
    requires |threads| == |tickets| && w < |threads|
    ensures WorkersOf(threads[w := t], tickets[w := ticket]) == WorkersOf(threads, tickets)[w := WithTicket(t, ticket)]
    ensures WorkersOf(threads, tickets)[w] == WithTicket(threads[w], tickets[w])
  {}

  class ForwardQueue {
    const enabled: bool
    const maxDepth: nat
    var started: bool
    var running: bool
    var queue: seq<Item>
    var threads: seq<Thread>
    ghost var tickets: seq<nat>
    ghost var offers: seq<Item>
    ghost var accepted: seq<nat>
    ghost var taken: seq<nat>
    ghost var outcomes: seq<seq<bool>>

    ghost function State(): QueueState
      requires |tickets| == |threads|
      reads this
    {
      QueueState(queue, WorkersOf(threads, tickets), running, offers, accepted, taken, outcomes)
    }

    ghost predicate Valid()
      reads this
    {
      |tickets| == |threads| && Sound(State(), maxDepth)
    }

    constructor (enabled: bool, maxDepth: nat, workerCount: nat)
      ensures this.enabled == enabled && this.maxDepth == maxDepth && !started
      ensures Valid() && State() == Initial(workerCount) && threads == seq(workerCount, _ => Idle)
    {
      this.enabled, this.maxDepth, started, running := enabled, maxDepth, false, true;
      queue, threads, tickets := [], seq(workerCount, _ => Idle), seq(workerCount, _ => 0);
      offers, accepted, taken, outcomes := [], [], [], [];
      new;
      assert WorkersOf(threads, tickets) == Initial(workerCount).workers;
      InitialSound(workerCount, maxDepth);
    }

    method Start()
      modifies this`started
      ensures started
    {
      started := true;
    }

    /** enqueue: the bounded push, and on overflow the failure callback. */
    method Enqueue(item: Item) returns (ok: bool)
      requires Valid()
      modifies this`queue, this`offers, this`accepted, this`outcomes
      ensures Valid() && State() == Step(old(State()), Offer(item), maxDepth)
      ensures ok == (|old(queue)| < maxDepth) && queue == if ok then old(queue) + [item] else old(queue)
    {
      OfferSound(State(), item, maxDepth);
      hide Sound;
      ghost var failed := item.Direct? && |queue| >= maxDepth;
      ok := true;
      if |queue| >= maxDepth {
        ok := false;
      } else {
        queue := queue + [item];
        accepted := accepted + [|offers|];
      }
      outcomes := outcomes + [if failed then [false] else []];
      offers := offers + [item];
    }

    /** One pass through the locked part of worker_loop: pop an item, return, or keep waiting. */
    method WorkerTurn(w: nat)
      requires Valid() && w < |threads| && threads[w].Idle?
      modifies this`queue, this`threads, this`tickets, this`taken
      ensures Valid()
      ensures State() == if old(queue) != [] then Step(old(State()), Take(w), maxDepth)
                         else if !running then Step(old(State()), Exit(w), maxDepth)
                         else old(State())
      ensures threads == if old(queue) != [] then old(threads)[w := Sending(old(queue)[0])]
                         else if !running then old(threads)[w := Returned] else old(threads)
    {
      ThreadUpdate(threads, tickets, w, Returned, tickets[w]);
      if queue == [] {
        if !running {
          ExitSound(State(), w, maxDepth);
          threads := threads[w := Returned];
          tickets := tickets[w := tickets[w]];
        }
        return;
      }
      TakeSound(State(), w, maxDepth);
      ghost var ticket := accepted[|taken|];
      ThreadUpdate(threads, tickets, w, Sending(queue[0]), ticket);
      hide Sound;
      threads := threads[w := Sending(queue[0])];
      tickets := tickets[w := ticket];
      taken := taken + [ticket];
      queue := queue[1..];
    }

    /** The unlocked part: the item was handed to the network, and the matching callback ran. */
    method WorkerFinish(w: nat, sent: bool) returns (served: Option<Served>)
      requires Valid() && w < |threads| && threads[w].Sending?
      modifies this`threads, this`outcomes
      ensures Valid() && State() == Step(old(State()), Finish(w, sent), maxDepth) && threads == old(threads)[w := Idle]
      ensures var item := old(threads)[w].item;
              served == if item.Direct? && sent then item.onSuccess else None
    {
      var item := threads[w].item;
      ThreadUpdate(threads, tickets, w, Idle, tickets[w]);
      assert tickets[w := tickets[w]] == tickets;
      FinishSound(State(), w, sent, maxDepth);
      hide Sound;
      ghost var ticket := tickets[w];
      served := None;
      if item.Direct? && sent {
        served := item.onSuccess;
      }
      outcomes := if item.Direct? then outcomes[ticket := outcomes[ticket] + [sent]] else outcomes;
      threads := threads[w := Idle];
    }
  }
}
