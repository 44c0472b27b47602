/** The node's own content filter and its neighbours' last summaries (tables/content_bf_table.cpp). */
module ContentTables {
  import opened Collections
  import opened Text
  import opened Bloom

  /** A network endpoint; addr_to_string is one-to-one on endpoints, so the endpoint is the table key. */
  type Address = nat

  datatype Neighbor = Neighbor(filter: Filter, updated: int)

  datatype ContentState = ContentState(local: Filter, neighbors: map<Address, Neighbor>)

  function Expired(n: Neighbor, now: int, ttl: int): bool {
    ttl > 0 && now - n.updated > ttl
  }

  function Live(neighbors: map<Address, Neighbor>, now: int, ttl: int): map<Address, Neighbor> {
    map a | a in neighbors && !Expired(neighbors[a], now, ttl) :: neighbors[a]
  }

  function FirstPositive(neighbors: map<Address, Neighbor>, key: string, order: seq<Address>): Option<Address> {
    if order == [] then None
    else if order[0] in neighbors && Contains(neighbors[order[0]].filter, key) then Some(order[0])
    else FirstPositive(neighbors, key, order[1..])
  }

  function Select(s: ContentState, key: string, now: int, ttl: int, order: seq<Address>): Option<Address> {
    FirstPositive(Live(s.neighbors, now, ttl), key, order)
  }

  /** The neighbours whose summary is positive for a key and, if there is a ttl, no older than that. */
  function Positive(s: ContentState, key: string, now: int, ttl: int): set<Address> {
    set a | a in s.neighbors && (ttl <= 0 || now - s.neighbors[a].updated <= ttl)
            && Contains(s.neighbors[a].filter, key)
  }

  lemma {:induction false} FirstPositiveExact(neighbors: map<Address, Neighbor>, key: string, order: seq<Address>)
    ensures match FirstPositive(neighbors, key, order)
            case Some(a) => a in order && a in neighbors && Contains(neighbors[a].filter, key)
            case None => forall a :: a in order && a in neighbors ==> !Contains(neighbors[a].filter, key)
  {
    if order != [] {
      FirstPositiveExact(neighbors, key, order[1..]);
    }
  }

  /** Whatever the bucket order, the choice is an unexpired positive summary, and there is none only if none exists. */
  lemma SelectExact(s: ContentState, key: string, now: int, ttl: int, order: seq<Address>)
    requires s.neighbors.Keys <= SetOf(order)
    ensures match Select(s, key, now, ttl, order)
            case Some(a) => a in Positive(s, key, now, ttl)
            case None =>
              && Positive(s, key, now, ttl) == {}
              && forall a :: a in s.neighbors && (ttl <= 0 || now - s.neighbors[a].updated <= ttl) ==>
                   !Contains(s.neighbors[a].filter, key)
  {
    FirstPositiveExact(Live(s.neighbors, now, ttl), key, order);
    forall a | a in s.neighbors ensures a in order {
      assert a in SetOf(order);
    }
  }

  class ContentBloomTable {
    const ttl: int
    var local: Filter
    var neighbors: map<Address, Neighbor>

    ghost predicate Valid()
      reads this
    {
      WellSized(local)
    }

    function State(): ContentState
      reads this
    {
      ContentState(local, neighbors)
    }

    constructor (bitCount: nat, hashCount: nat, ttl: int)
      ensures this.ttl == ttl && Valid()
      ensures State() == ContentState(Empty(bitCount, hashCount), map[])
    {
      this.ttl := ttl;
      local, neighbors := Empty(bitCount, hashCount), map[];
    }

    method AddLocalKey(key: string)
      requires Valid()
      modifies this`local
      ensures Valid() && local == Add(old(local), key)
    {
      local := Add(local, key);
    }

    method LocalSnapshot() returns (f: Filter)
      ensures f == local
    {
      f := local;
    }

    method UpdateNeighbor(addr: Address, filter: Filter, now: int)
      modifies this`neighbors
      ensures neighbors == old(neighbors)[addr := Neighbor(filter, now)]
    {
      neighbors := neighbors[addr := Neighbor(filter, now)];
    }

    /** `order` is the bucket order of the hash map at the time of the call. */
    method SelectNeighbor(key: string, now: int, order: seq<Address>) returns (r: Option<Address>)
      requires Enumerates(order, neighbors.Keys)
      modifies this`neighbors
      ensures neighbors == Live(old(neighbors), now, ttl)
      ensures r == Select(old(State()), key, now, ttl, order)
      ensures match r
              case Some(a) =>
                && a in old(neighbors) && Contains(old(neighbors)[a].filter, key)
                && (ttl <= 0 || now - old(neighbors)[a].updated <= ttl)
              case None =>
                forall a :: a in old(neighbors) && (ttl <= 0 || now - old(neighbors)[a].updated <= ttl) ==>
                  !Contains(old(neighbors)[a].filter, key)
    {
      SelectExact(State(), key, now, ttl, order);
      hide Contains, Positive;
      Prune(now);
      for i := 0 to |order|
        invariant FirstPositive(neighbors, key, order) == FirstPositive(neighbors, key, order[i..])
      {
        assert order[i..][1..] == order[i + 1..];
        if order[i] in neighbors && Contains(neighbors[order[i]].filter, key) {
          return Some(order[i]);
        }
      }
      return None;
    }

    method Prune(now: int)
      modifies this`neighbors
      ensures neighbors == Live(old(neighbors), now, ttl)
      ensures forall a :: a in neighbors <==>
                            a in old(neighbors) && (ttl <= 0 || now - old(neighbors)[a].updated <= ttl)
      ensures forall a :: a in neighbors ==> neighbors[a] == old(neighbors)[a]
    {
      if ttl <= 0 {
        return;
      }
      var todo := neighbors.Keys;
      while todo != {}
        invariant todo <= neighbors.Keys <= old(neighbors).Keys
        invariant forall a :: a in neighbors ==> neighbors[a] == old(neighbors)[a]
        invariant forall a :: a in old(neighbors) && a !in todo ==>
                    (a in neighbors <==> !Expired(old(neighbors)[a], now, ttl))
      {
        var a :| a in todo;
        if now - neighbors[a].updated > ttl {
          neighbors := neighbors - {a};
        }
        todo := todo - {a};
      }
    }
  }

  // ---------- any sequence of calls, by the times of the updates ----------

  datatype Event =
    | Updating(addr: Address, filter: Filter, now: int)
    | Selecting(now: int)

  function After(neighbors: map<Address, Neighbor>, e: Event, ttl: int): map<Address, Neighbor> {
    match e
    case Updating(addr, filter, now) => neighbors[addr := Neighbor(filter, now)]
    case Selecting(now) => Live(neighbors, now, ttl)
  }

  function Run(events: seq<Event>, ttl: int): map<Address, Neighbor> {
    if events == [] then map[] else After(Run(events[..|events| - 1], ttl), events[|events| - 1], ttl)
  }

  /** The steady clock never goes back. */
  predicate Monotone(events: seq<Event>) {
    forall i, j :: 0 <= i < j < |events| ==> events[i].now <= events[j].now
  }

  predicate Updates(e: Event, a: Address) {
    e.Updating? && e.addr == a
  }

  /** Event j is the latest summary from a. */
  predicate Latest(events: seq<Event>, a: Address, j: nat) {
    j < |events| && Updates(events[j], a) && forall i :: j < i < |events| ==> !Updates(events[i], a)
  }

  /** What the table has for a is its latest summary and when it came; it may be missing only if it is over age. */
  ghost predicate TrueEntry(events: seq<Event>, ttl: int, a: Address, now: int, j: nat) {
    var m := Run(events, ttl);
    if !Latest(events, a, j) then a !in m && forall i: nat :: !Latest(events, a, i)
    else
      && (a in m ==> m[a] == Neighbor(events[j].filter, events[j].now))
      && (a !in m ==> ttl > 0 && now - events[j].now > ttl)
  }

  lemma {:induction false} EntryIsTrue(events: seq<Event>, ttl: int, a: Address, now: int) returns (j: nat)
    requires Monotone(events) && forall i :: 0 <= i < |events| ==> events[i].now <= now
    ensures TrueEntry(events, ttl, a, now, j)
  {
    j := 0;
    if events != [] {
      var n := |events| - 1;
      var init, e := events[..n], events[n];
      j := EntryIsTrue(init, ttl, a, e.now);
      assert forall i :: 0 <= i < n ==> init[i] == events[i];
      if Updates(e, a) {
        j := n;
      } else {
        forall i: nat ensures Latest(events, a, i) <==> Latest(init, a, i) {}
      }
    }
  }

  lemma {:induction false} OneLatest(events: seq<Event>, a: Address, i: nat, j: nat)
    requires Latest(events, a, i) && Latest(events, a, j)
    ensures i == j
  {}

  /** a's latest summary is positive for the key and, if there is a ttl, no older than that. */
  predicate Offers(events: seq<Event>, ttl: int, a: Address, key: string, now: int, j: nat) {
    Latest(events, a, j) && (ttl <= 0 || now - events[j].now <= ttl) && Contains(events[j].filter, key)
  }

  /**
   * Over any calls with a monotone clock: a selection at `now` returns a neighbour whose latest summary is positive and
   * within the ttl, and returns none exactly if there is no such neighbour.
   */
  lemma {:induction false} SelectsExactly(events: seq<Event>, local: Filter, ttl: int, key: string, now: int,
                                          order: seq<Address>)
    requires Monotone(events) && forall i :: 0 <= i < |events| ==> events[i].now <= now
    requires Enumerates(order, Run(events, ttl).Keys)
    ensures match Select(ContentState(local, Run(events, ttl)), key, now, ttl, order)
            case Some(a) => exists j: nat :: Offers(events, ttl, a, key, now, j)
            case None => forall a, j: nat :: !Offers(events, ttl, a, key, now, j)
  {
    var m := Run(events, ttl);
    var s := ContentState(local, m);
    SelectExact(s, key, now, ttl, order);
    hide Run, Contains, Select, Latest, Monotone;
    match Select(s, key, now, ttl, order)
    case Some(a) =>
      var j := EntryIsTrue(events, ttl, a, now);
      assert Offers(events, ttl, a, key, now, j);
    case None =>
      forall a, j: nat ensures !Offers(events, ttl, a, key, now, j) {
        var i := EntryIsTrue(events, ttl, a, now);
        if Offers(events, ttl, a, key, now, j) {
          OneLatest(events, a, i, j);
        }
      }
  }
}
