/** The bounded LRU of key -> requesting origins (tables/sync_table.cpp), against the history of its calls. */
module SyncTables {
  import opened Collections

  datatype SyncState = SyncState(
    order: seq<string>,                 // keys, most recently used first
    dests: map<string, seq<string>>,
    destinationTotal: nat, updates: nat, duplicateDestinations: nat, evictedTotal: nat)

  datatype Call = Call(key: string, destination: string)

  datatype Update = Update(
    keyAdded: bool, destinationAdded: bool, destinationDuplicate: bool,
    keyCount: nat, destinationCount: nat, evicted: nat)

  const FRESH := SyncState([], map[], 0, 0, 0, 0)

  function IndexOf(s: seq<string>, x: string): (i: nat)
    requires x in s
    ensures i < |s| && s[i] == x
  {
    if s[0] == x then 0 else 1 + IndexOf(s[1..], x)
  }

  /** The list after x's node is erased. */
  function Without(s: seq<string>, x: string): seq<string> {
    if x in s then s[..IndexOf(s, x)] + s[IndexOf(s, x) + 1..] else s
  }

  /** The lookup, insertion and touch part of record_destination. */
  function Noted(s: SyncState, c: Call): SyncState {
    if c.key !in s.dests then
      s.(order := [c.key] + s.order, dests := s.dests[c.key := [c.destination]],
         destinationTotal := s.destinationTotal + 1, updates := s.updates + 1)
    else
      var d := s.dests[c.key];
      var touched := s.(order := [c.key] + Without(s.order, c.key), updates := s.updates + 1);
      if c.destination in d then touched.(duplicateDestinations := s.duplicateDestinations + 1)
      else touched.(dests := s.dests[c.key := d + [c.destination]], destinationTotal := s.destinationTotal + 1)
  }

  /** One turn of the eviction loop: the least recently used key goes, with its destinations. */
  function DropOldest(s: SyncState): SyncState
    requires s.order != []
  {
    var last := s.order[|s.order| - 1];
    var shorter := s.(order := s.order[..|s.order| - 1]);
    if last !in s.dests then shorter
    else
      var removed := |s.dests[last]|;
      shorter.(dests := s.dests - {last},
               destinationTotal := if s.destinationTotal >= removed then s.destinationTotal - removed else 0)
  }

  function Evicted(s: SyncState, capacity: nat): (t: SyncState)
    ensures |t.order| <= |s.order|
    decreases |s.order|
  {
    if |s.dests| > capacity && s.order != [] then Evicted(DropOldest(s), capacity) else s
  }

  function Record(s: SyncState, c: Call, capacity: nat): SyncState {
    var noted := Noted(s, c);
    var kept := Evicted(noted, capacity);
    kept.(evictedTotal := noted.evictedTotal + (|noted.order| - |kept.order|))
  }

  function Outcome(s: SyncState, c: Call, capacity: nat): Update {
    var noted := Noted(s, c);
    var known := c.key in s.dests;
    var seen := known && c.destination in s.dests[c.key];
    Update(!known, !seen, seen, |Record(s, c, capacity).dests|, |noted.dests[c.key]|,
           |noted.order| - |Evicted(noted, capacity).order|)
  }

  lemma {:induction false} EvictedKeepsCounters(s: SyncState, capacity: nat)
    ensures Evicted(s, capacity).evictedTotal == s.evictedTotal
    decreases |s.order|
  {
    if |s.dests| > capacity && s.order != [] {
      EvictedKeepsCounters(DropOldest(s), capacity);
    }
  }

  // ---------- the invariant ----------

  function CountOf(dests: map<string, seq<string>>, key: string): nat {
    if key in dests then |dests[key]| else 0
  }

  function TotalLength(order: seq<string>, dests: map<string, seq<string>>): nat {
    if order == [] then 0
    else TotalLength(order[..|order| - 1], dests) + CountOf(dests, order[|order| - 1])
  }

  /** List and index hold the same keys once each, and the running total is the sum of the lists. */
  ghost predicate Consistent(s: SyncState) {
    && NoDuplicates(s.order)
    && (forall k :: k in s.order <==> k in s.dests)
    && (forall k :: k in s.dests ==> s.dests[k] != [] && NoDuplicates(s.dests[k]))
    && s.destinationTotal == TotalLength(s.order, s.dests)
  }

  ghost predicate WithinCapacity(s: SyncState, capacity: nat) {
    Consistent(s) && |s.order| <= capacity
  }

  lemma {:induction false} OrderSize(order: seq<string>, keys: set<string>)
    requires NoDuplicates(order) && forall k :: k in order <==> k in keys
    ensures |order| == |keys|
  {
    if order != [] {
      var init, last := order[..|order| - 1], order[|order| - 1];
      OrderSize(init, keys - {last});
    } else {
      assert keys == {};
    }
  }

  lemma {:induction false} WithoutAt(s: seq<string>, x: string, j: nat)
    requires x in s && j < |s| - 1
    ensures Without(s, x)[j] == s[if j < IndexOf(s, x) then j else j + 1]
  {}

  lemma WithoutKeeps(s: seq<string>, x: string, k: string)
    requires k in s && k != x
    ensures k in Without(s, x)
  {
    if x in s {
      var i, j := IndexOf(s, x), IndexOf(s, k);
      WithoutAt(s, x, if j < i then j else j - 1);
    }
  }

  lemma WithoutFacts(s: seq<string>, x: string)
    requires NoDuplicates(s)
    ensures NoDuplicates(Without(s, x)) && forall k :: k in Without(s, x) <==> k in s && k != x
    ensures |Without(s, x)| == if x in s then |s| - 1 else |s|
  {
    if x in s {
      var t := Without(s, x);
      forall i, j | 0 <= i < j < |t| ensures t[i] != t[j] {
        WithoutAt(s, x, i);
        WithoutAt(s, x, j);
      }
      forall k ensures k in t <==> k in s && k != x {
        if k in t {
          WithoutAt(s, x, IndexOf(t, k));
        } else if k in s && k != x {
          WithoutKeeps(s, x, k);
        }
      }
    }
  }

  lemma {:induction false} TotalSame(order: seq<string>, m: map<string, seq<string>>, n: map<string, seq<string>>)
    requires forall k :: k in order ==> CountOf(m, k) == CountOf(n, k)
    ensures TotalLength(order, m) == TotalLength(order, n)
  {
    if order != [] {
      TotalSame(order[..|order| - 1], m, n);
    }
  }

  lemma {:induction false} TotalConcat(a: seq<string>, b: seq<string>, m: map<string, seq<string>>)
    ensures TotalLength(a + b, m) == TotalLength(a, m) + TotalLength(b, m)
  {
    if b == [] {
      assert a + b == a;
    } else {
      TotalConcat(a, b[..|b| - 1], m);
      assert (a + b)[..|a + b| - 1] == a + b[..|b| - 1];
    }
  }

  lemma {:induction false} TotalOfOne(x: string, m: map<string, seq<string>>)
    ensures TotalLength([x], m) == CountOf(m, x)
  {
    assert [x][..0] == [];
  }

  lemma {:induction false} TotalWithout(s: seq<string>, x: string, m: map<string, seq<string>>)
    requires x in s
    ensures TotalLength(s, m) == CountOf(m, x) + TotalLength(Without(s, x), m)
  {
    var i := IndexOf(s, x);
    assert s == s[..i] + ([x] + s[i + 1..]);
    TotalConcat(s[..i], [x] + s[i + 1..], m);
    TotalConcat([x], s[i + 1..], m);
    TotalConcat(s[..i], s[i + 1..], m);
    TotalOfOne(x, m);
  }

  lemma NotedTotal(s: SyncState, c: Call)
    requires Consistent(s)
    ensures Noted(s, c).destinationTotal == TotalLength(Noted(s, c).order, Noted(s, c).dests)
  {
    var t := Noted(s, c);
    var rest := Without(s.order, c.key);
    WithoutFacts(s.order, c.key);
    assert t.order == [c.key] + rest;
    TotalSame(rest, s.dests, t.dests);
    TotalConcat([c.key], rest, t.dests);
    TotalOfOne(c.key, t.dests);
    if c.key in s.dests {
      TotalWithout(s.order, c.key, s.dests);
    }
  }

  lemma NotedOrder(s: SyncState, c: Call)
    requires Consistent(s)
    ensures NoDuplicates(Noted(s, c).order)
    ensures forall k :: k in Noted(s, c).order <==> k in s.order || k == c.key
    ensures |Noted(s, c).order| == |s.order| + (if c.key in s.dests then 0 else 1)
  {
    WithoutFacts(s.order, c.key);
    var t, rest := Noted(s, c).order, Without(s.order, c.key);
    assert t == [c.key] + rest;
    assert forall i :: 0 < i < |t| ==> t[i] == rest[i - 1];
    forall k ensures k in t <==> k in s.order || k == c.key {
      assert k in t <==> k == c.key || k in rest;
    }
  }

  lemma NotedDests(s: SyncState, c: Call)
    requires Consistent(s)
    ensures forall k :: k in Noted(s, c).dests <==> k in s.dests || k == c.key
    ensures forall k :: k in Noted(s, c).dests ==> Noted(s, c).dests[k] != [] && NoDuplicates(Noted(s, c).dests[k])
  {
    if c.key in s.dests {
      var d := s.dests[c.key];
      assert NoDuplicates(d);
      assert c.destination !in d ==> NoDuplicates(d + [c.destination]);
    }
  }

  lemma NotedConsistent(s: SyncState, c: Call)
    requires Consistent(s)
    ensures Consistent(Noted(s, c))
    ensures |Noted(s, c).order| == |s.order| + (if c.key in s.dests then 0 else 1)
  {
    NotedTotal(s, c);
    NotedOrder(s, c);
    NotedDests(s, c);
  }

  /** Dropping the oldest key keeps the invariant, and the total never has to be clamped at zero. */
  lemma DropOldestConsistent(s: SyncState)
    requires Consistent(s) && s.order != []
    ensures Consistent(DropOldest(s))
    ensures s.order[|s.order| - 1] in s.dests
    ensures s.destinationTotal >= |s.dests[s.order[|s.order| - 1]]|
  {
    var t, last := DropOldest(s), s.order[|s.order| - 1];
    assert s.order == t.order + [last];
    TotalSame(t.order, s.dests, t.dests);
    forall k ensures k in t.order <==> k in t.dests {
      assert k in s.order <==> k in t.order || k == last;
    }
  }

  /** The loop turns at most once: a call adds at most one key to a table that was within capacity. */
  lemma {:induction false} EvictsAtMostOne(s: SyncState, c: Call, capacity: nat)
    requires WithinCapacity(s, capacity)
    ensures var noted := Noted(s, c);
            var kept := if |noted.order| > capacity then DropOldest(noted) else noted;
            && Evicted(noted, capacity) == kept && WithinCapacity(kept, capacity)
            && kept.order == (if |noted.order| > capacity then noted.order[..|noted.order| - 1] else noted.order)
            && |noted.order| <= capacity + 1
  {
    var noted := Noted(s, c);
    NotedConsistent(s, c);
    OrderSize(noted.order, noted.dests.Keys);
    if |noted.order| > capacity {
      DropOldestConsistent(noted);
      var t := DropOldest(noted);
      OrderSize(t.order, t.dests.Keys);
      assert Evicted(t, capacity) == t;
    }
  }

  /** A call keeps the table consistent and within capacity, and evicts at most one key. */
  lemma RecordConsistent(s: SyncState, c: Call, capacity: nat)
    requires WithinCapacity(s, capacity)
    ensures WithinCapacity(Record(s, c, capacity), capacity)
    ensures Outcome(s, c, capacity).evicted <= 1
  {
    EvictsAtMostOne(s, c, capacity);
  }

  // ---------- the table object ----------

  /** A node of the std::list; an iterator into the list is a reference to its node. */
  class ListNode {
    const key: string

    constructor (key: string)
      ensures this.key == key
    {
      this.key := key;
    }
  }

  datatype Entry = Entry(destinations: seq<string>, position: ListNode)

  function KeysOf(nodes: seq<ListNode>): seq<string> {
    seq(|nodes|, i requires 0 <= i < |nodes| => nodes[i].key)
  }

  function DestinationsOf(table: map<string, Entry>): map<string, seq<string>> {
    map k | k in table :: table[k].destinations
  }

  lemma {:induction false} IndexOfUnique(s: seq<string>, i: nat)
    requires NoDuplicates(s) && i < |s|
    ensures IndexOf(s, s[i]) == i
  {
    if i > 0 {
      assert s[0] != s[i];
      IndexOfUnique(s[1..], i - 1);
    }
  }

  lemma DestinationsSize(table: map<string, Entry>)
    ensures |DestinationsOf(table)| == |table|
  {
    assert DestinationsOf(table).Keys == table.Keys;
  }

  lemma DestinationsWithout(table: map<string, Entry>, key: string)
    ensures DestinationsOf(table - {key}) == DestinationsOf(table) - {key}
  {}

  lemma DestinationsUpdate(table: map<string, Entry>, key: string, e: Entry)
    ensures DestinationsOf(table[key := e]) == DestinationsOf(table)[key := e.destinations]
  {}

  ghost predicate Links(table: map<string, Entry>, lru: seq<ListNode>) {
    forall k :: k in table ==> table[k].position in lru && table[k].position.key == k
  }

  lemma LinksAfterPop(table: map<string, Entry>, lru: seq<ListNode>)
    requires Links(table, lru) && lru != []
    ensures Links(table - {lru[|lru| - 1].key}, lru[..|lru| - 1])
  {
    var last := lru[|lru| - 1];
    forall k | k in table && k != last.key ensures table[k].position in lru[..|lru| - 1] {
      var j :| 0 <= j < |lru| && lru[j] == table[k].position;
      assert j != |lru| - 1 && lru[..|lru| - 1][j] == table[k].position;
    }
  }

  lemma LinksAfterPush(table: map<string, Entry>, lru: seq<ListNode>, e: Entry)
    requires Links(table, lru)
    ensures Links(table[e.position.key := e], [e.position] + lru)
  {
    assert forall n :: n in lru ==> n in [e.position] + lru;
  }

  class SyncTable {
    const capacity: nat
    var lru: seq<ListNode>
    var table: map<string, Entry>
    var destinationTotal: nat
    var updates: nat
    var duplicateDestinations: nat
    var evictedTotal: nat

    ghost function State(): SyncState
      reads this
    {
      SyncState(KeysOf(lru), DestinationsOf(table), destinationTotal, updates, duplicateDestinations, evictedTotal)
    }

    /** Each entry's iterator points at its own key's node, and the abstract state is within capacity. */
    ghost predicate Valid()
      reads this
    {
      && WithinCapacity(State(), capacity)
      && Linked()
    }

    ghost predicate Linked()
      reads this
    {
      Links(table, lru)
    }

    constructor (capacity: nat)
      ensures this.capacity == capacity && Valid() && State() == FRESH
    {
      this.capacity := capacity;
      lru, table := [], map[];
      destinationTotal, updates, duplicateDestinations, evictedTotal := 0, 0, 0, 0;
      new;
      assert KeysOf(lru) == [] && DestinationsOf(table) == map[];
    }

    method RecordDestination(key: string, destination: string) returns (update: Update)
      requires Valid()
      modifies this
      ensures Valid()
      ensures State() == Record(old(State()), Call(key, destination), capacity)
      ensures update == Outcome(old(State()), Call(key, destination), capacity)
    {
      RecordConsistent(State(), Call(key, destination), capacity);
      update := NoteAndEvict(key, destination);
    }

    /** record_destination on any linked list and index, whether or not they are within capacity. */
    method NoteAndEvict(key: string, destination: string) returns (update: Update)
      requires Linked() && NoDuplicates(KeysOf(lru))
      modifies this
      ensures Linked()
      ensures State() == Record(old(State()), Call(key, destination), capacity)
      ensures update == Outcome(old(State()), Call(key, destination), capacity)
    {
      hide Noted, Evicted, KeysOf, Links, NoDuplicates;
      update := Note(key, destination);
      ghost var noted := State();
      DestinationsSize(table);
      var evicted := EvictIfNeeded();
      update := update.(evicted := evicted);
      ghost var kept := State();
      if evicted > 0 {
        evictedTotal := evictedTotal + evicted;
      }
      EvictedKeepsCounters(noted, capacity);
      assert State() == kept.(evictedTotal := kept.evictedTotal + evicted);
      DestinationsSize(table);
      update := update.(keyCount := |table|);
    }

    /** The lookup, insertion and touch part of record_destination. */
    method Note(key: string, destination: string) returns (update: Update)
      requires Linked() && NoDuplicates(KeysOf(lru))
      modifies this
      ensures Linked()
      ensures State() == Noted(old(State()), Call(key, destination))
      ensures var d := old(DestinationsOf(table));
        var known, seen := key in d, key in d && destination in d[key];
        update == Update(!known, !seen, seen, |table|, |State().dests[key]|, 0)
    {
      update := Update(false, false, false, 0, 0, 0);
      updates := updates + 1;
      if key !in table {
        InsertKey(key, destination);
        update := update.(keyAdded := true, destinationAdded := true);
        destinationTotal := destinationTotal + 1;
      } else {
        var entry := table[key];
        if destination !in entry.destinations {
          var longer := entry.(destinations := entry.destinations + [destination]);
          DestinationsUpdate(table, key, longer);
          table := table[key := longer];
          update := update.(destinationAdded := true);
          destinationTotal := destinationTotal + 1;
        } else {
          update := update.(destinationDuplicate := true);
          duplicateDestinations := duplicateDestinations + 1;
        }
        Touch(key);
      }
      ghost var want := Noted(old(State()), Call(key, destination));
      assert State().order == want.order && State().dests == want.dests;
      assert State() == want;
      update := update.(destinationCount := |table[key].destinations|, keyCount := |table|);
    }

    method InsertKey(key: string, destination: string)
      requires Linked()
      modifies this`lru, this`table
      ensures Linked() && key in table
      ensures KeysOf(lru) == [key] + old(KeysOf(lru))
      ensures DestinationsOf(table) == old(DestinationsOf(table))[key := [destination]]
    {
      var node := new ListNode(key);
      var entry := Entry([destination], node);
      DestinationsUpdate(table, key, entry);
      LinksAfterPush(table, lru, entry);
      lru := [node] + lru;
      table := table[key := entry];
      assert KeysOf(lru) == [key] + old(KeysOf(lru));
    }

    method Touch(key: string)
      requires Linked() && key in table && NoDuplicates(KeysOf(lru))
      modifies this`lru, this`table
      ensures Linked() && key in table && DestinationsOf(table) == old(DestinationsOf(table))
      ensures KeysOf(lru) == [key] + Without(old(KeysOf(lru)), key)
    {
      var it := table[key].position;
      var i :| 0 <= i < |lru| && lru[i] == it;
      IndexOfUnique(KeysOf(lru), i);
      lru := lru[..i] + lru[i + 1..];
      assert KeysOf(lru) == Without(old(KeysOf(lru)), key);
      forall k | k in table && k != key ensures table[k].position in lru {
        var j :| 0 <= j < |old(lru)| && old(lru)[j] == table[k].position;
        assert j != i;
        assert lru[if j < i then j else j - 1] == table[k].position;
      }
      var node := new ListNode(key);
      lru := [node] + lru;
      table := table[key := table[key].(position := node)];
      assert KeysOf(lru) == [key] + Without(old(KeysOf(lru)), key);
    }

    method EvictIfNeeded() returns (evicted: nat)
      requires Linked()
      modifies this`lru, this`table, this`destinationTotal
      ensures Linked()
      ensures State() == Evicted(old(State()), capacity)
      ensures evicted == |old(State().order)| - |State().order|
    {
      evicted := 0;
      DestinationsSize(table);
      while |table| > capacity && lru != []
        invariant Linked() && |State().dests| == |table|
        invariant Evicted(State(), capacity) == Evicted(old(State()), capacity)
        invariant evicted == |old(State().order)| - |State().order|
        decreases |lru|
      {
        PopOldest();
        evicted := evicted + 1;
        DestinationsSize(table);
      }
    }

    /** The body of the eviction loop. */
    method PopOldest()
      requires Linked() && lru != []
      modifies this`lru, this`table, this`destinationTotal
      ensures Linked() && |lru| == |old(lru)| - 1
      ensures State() == DropOldest(old(State()))
    {
      LinksAfterPop(table, lru);
      var last := lru[|lru| - 1].key;
      lru := lru[..|lru| - 1];
      assert KeysOf(lru) == old(KeysOf(lru))[..|lru|];
      if last in table {
        var removed := |table[last].destinations|;
        if destinationTotal >= removed {
          destinationTotal := destinationTotal - removed;
        } else {
          destinationTotal := 0;
        }
        DestinationsWithout(table, last);
        table := table - {last};
      } else {
        assert table - {last} == table;
      }
    }

    method Destinations(key: string) returns (d: seq<string>)
      ensures d == if key in State().dests then State().dests[key] else []
    {
      if key !in table {
        return [];
      }
      return table[key].destinations;
    }
  }

  // ---------- what any sequence of calls leaves ----------

  function Run(calls: seq<Call>, capacity: nat): SyncState {
    if calls == [] then FRESH else Record(Run(calls[..|calls| - 1], capacity), calls[|calls| - 1], capacity)
  }

  /** All keys ever used, most recent use first. */
  function Recency(calls: seq<Call>): seq<string> {
    if calls == [] then []
        else [calls[|calls| - 1].key] + Without(Recency(calls[..|calls| - 1]), calls[|calls| - 1].key)
  }

  function Take(n: nat, s: seq<string>): seq<string> {
    if |s| <= n then s else s[..n]
  }

  lemma {:induction false} RunConsistent(calls: seq<Call>, capacity: nat)
    ensures WithinCapacity(Run(calls, capacity), capacity)
  {
    if calls != [] {
      RunConsistent(calls[..|calls| - 1], capacity);
      RecordConsistent(Run(calls[..|calls| - 1], capacity), calls[|calls| - 1], capacity);
    }
  }

  lemma {:induction false} RecencyNoDuplicates(calls: seq<Call>)
    ensures NoDuplicates(Recency(calls))
  {
    if calls != [] {
      RecencyNoDuplicates(calls[..|calls| - 1]);
      WithoutFacts(Recency(calls[..|calls| - 1]), calls[|calls| - 1].key);
    }
  }

  /** Moving x to the front of the whole list, seen through its first n elements, when x is among them. */
  lemma TakeHit(n: nat, s: seq<string>, x: string)
    requires NoDuplicates(s) && x in Take(n, s)
    ensures Take(n, [x] + Without(s, x)) == [x] + Without(Take(n, s), x)
  {
    if |s| > n {
      var i := IndexOf(s[..n], x);
      IndexOfUnique(s, i);
      assert Without(s[..n], x) == s[..i] + s[i + 1..n];
      assert ([x] + (s[..i] + s[i + 1..]))[..n] == [x] + (s[..i] + s[i + 1..n]);
    }
  }

  lemma TakeMiss(n: nat, s: seq<string>, x: string)
    requires x !in Take(n, s)
    ensures Take(n, [x] + Without(s, x)) == Take(n, [x] + Take(n, s))
  {
    forall j | 0 <= j < n && j < |s| ensures s[j] != x {
      assert s[j] in Take(n, s);
    }
    if |s| > n > 0 {
      assert Take(n, [x] + Without(s, x)) == [x] + s[..n - 1];
    }
  }

  lemma OrderAfterRecord(s: SyncState, c: Call, capacity: nat)
    requires WithinCapacity(s, capacity)
    ensures Record(s, c, capacity).order == Take(capacity, [c.key] + Without(s.order, c.key))
  {
    EvictsAtMostOne(s, c, capacity);
    assert c.key in s.dests <==> c.key in s.order;
    assert Noted(s, c).order == [c.key] + Without(s.order, c.key);
  }

  /** The call's key ends up most recently used, with the call's destination among its own. */
  lemma {:induction false} MostRecent(s: SyncState, c: Call, capacity: nat)
    requires WithinCapacity(s, capacity) && capacity > 0
    ensures var t := Record(s, c, capacity);
            && t.order != [] && t.order[0] == c.key && c.key in t.dests && c.destination in t.dests[c.key]
            && t.updates == s.updates + 1
  {
    OrderAfterRecord(s, c, capacity);
    RecordConsistent(s, c, capacity);
    EvictsAtMostOne(s, c, capacity);
    RecordDestinations(s, c, capacity, c.key);
  }

  /** After any calls the list is the `capacity` most recently used distinct keys of the history, in that order. */
  lemma {:induction false} OrderIsRecency(calls: seq<Call>, capacity: nat)
    ensures Run(calls, capacity).order == Take(capacity, Recency(calls))
  {
    if calls != [] {
      var init, key := calls[..|calls| - 1], calls[|calls| - 1].key;
      var recent := Recency(init);
      OrderIsRecency(init, capacity);
      RunConsistent(init, capacity);
      OrderAfterRecord(Run(init, capacity), calls[|calls| - 1], capacity);
      RecencyNoDuplicates(init);
      if key in Take(capacity, recent) {
        TakeHit(capacity, recent, key);
        WithoutFacts(Take(capacity, recent), key);
      } else {
        TakeMiss(capacity, recent, key);
      }
    }
  }

  /** Whether the i-th call found its key absent and so inserted it. */
  predicate Inserts(calls: seq<Call>, capacity: nat, i: nat)
    requires i < |calls|
  {
    calls[i].key !in Take(capacity, Recency(calls[..i]))
  }

  /** The start of the key's present stay in the table. */
  function LatestInsertion(calls: seq<Call>, capacity: nat, key: string): nat {
    if calls == [] then 0
    else
      var n := |calls| - 1;
      if calls[n].key == key && Inserts(calls, capacity, n) then n
      else LatestInsertion(calls[..n], capacity, key)
  }

  /** The distinct destinations of a key, in first-seen order. */
  function FirstSeen(calls: seq<Call>, key: string): seq<string> {
    if calls == [] then []
    else
      var seen, c := FirstSeen(calls[..|calls| - 1], key), calls[|calls| - 1];
      if c.key == key && c.destination !in seen then seen + [c.destination] else seen
  }

  lemma {:induction false} FirstSeenStep(calls: seq<Call>, i: nat, key: string)
    requires i < |calls|
    ensures var seen, c := FirstSeen(calls[i..|calls| - 1], key), calls[|calls| - 1];
            FirstSeen(calls[i..], key) == if c.key == key && c.destination !in seen then seen + [c.destination]
                else seen
  {
    assert calls[i..][..|calls| - 1 - i] == calls[i..|calls| - 1];
  }

  /** What one call does to the destinations of a key that is present afterwards. */
  lemma RecordDestinations(s: SyncState, c: Call, capacity: nat, key: string)
    requires WithinCapacity(s, capacity) && key in Record(s, c, capacity).dests
    ensures var d := Record(s, c, capacity).dests[key];
            if key !in s.dests then key == c.key && d == [c.destination]
            else d == if key == c.key && c.destination !in s.dests[key] then s.dests[key] + [c.destination]
                else s.dests[key]
  {
    EvictsAtMostOne(s, c, capacity);
    var noted := Noted(s, c);
    var kept := Evicted(noted, capacity);
    assert Record(s, c, capacity).dests == kept.dests;
    assert kept.dests[key] == noted.dests[key];
    assert key != c.key ==> noted.dests[key] == s.dests[key];
  }

  /** A present key's destinations are the distinct ones since its latest insertion, in first-seen order. */
  lemma {:induction false} DestinationsSinceInsertion(calls: seq<Call>, capacity: nat, key: string)
    requires key in Run(calls, capacity).dests
    ensures LatestInsertion(calls, capacity, key) < |calls|
    ensures Run(calls, capacity).dests[key] == FirstSeen(calls[LatestInsertion(calls, capacity, key)..], key)
  {
    var n := |calls| - 1;
    var init, c, s := calls[..n], calls[n], Run(calls[..n], capacity);
    RunConsistent(init, capacity);
    RecordDestinations(s, c, capacity, key);
    OrderIsRecency(init, capacity);
    var i := LatestInsertion(calls, capacity, key);
    assert key in s.dests <==> key in s.order;
    if key in s.dests {
      DestinationsSinceInsertion(init, capacity, key);
      assert calls[i..n] == init[i..];
    } else {
      assert calls[n..n] == [];
    }
    FirstSeenStep(calls, i, key);
  }

  function KeysAdded(calls: seq<Call>, capacity: nat): nat {
    if calls == [] then 0
    else KeysAdded(calls[..|calls| - 1], capacity) + (if Inserts(calls, capacity, |calls| - 1) then 1 else 0)
  }

  /** Every inserted key is either still present or was evicted. */
  lemma {:induction false} KeysConserved(calls: seq<Call>, capacity: nat)
    ensures var s := Run(calls, capacity);
            KeysAdded(calls, capacity) == |s.order| + s.evictedTotal && s.updates == |calls|
  {
    if calls != [] {
      var init, c := calls[..|calls| - 1], calls[|calls| - 1];
      KeysConserved(init, capacity);
      RunConsistent(init, capacity);
      EvictsAtMostOne(Run(init, capacity), c, capacity);
      NotedConsistent(Run(init, capacity), c);
      OrderIsRecency(init, capacity);
    }
  }

  /** What one call reports about the table it is made on. */
  lemma {:induction false} OutcomeParts(s: SyncState, c: Call, capacity: nat)
    requires WithinCapacity(s, capacity)
    ensures var u, known := Outcome(s, c, capacity), c.key in s.dests;
      var listed := if known then s.dests[c.key] else [];
      && u.keyAdded == !known && u.destinationAdded == !u.destinationDuplicate
      && u.destinationDuplicate == (c.destination in listed)
      && u.destinationCount == |listed| + (if c.destination in listed then 0 else 1)
      && u.keyCount == |Record(s, c, capacity).order|
      && u.evicted == (if !known && |s.order| == capacity then 1 else 0)
    ensures Record(s, c, capacity).duplicateDestinations ==
            s.duplicateDestinations + (if Outcome(s, c, capacity).destinationDuplicate then 1 else 0)
  {
    hide TotalLength;
    EvictsAtMostOne(s, c, capacity);
    NotedOrder(s, c);
    var t := Record(s, c, capacity);
    assert WithinCapacity(t, capacity) by { RecordConsistent(s, c, capacity); }
    OrderSize(t.order, t.dests.Keys);
  }

  /** What a call reports, and whether it counts as a duplicate, from the history alone. */
  lemma {:induction false} UpdateExactly(calls: seq<Call>, c: Call, capacity: nat)
    ensures var u, kept := Outcome(Run(calls, capacity), c, capacity), Take(capacity, Recency(calls));
      var i := LatestInsertion(calls, capacity, c.key);
      && u.keyAdded == (c.key !in kept) && u.destinationAdded == !u.destinationDuplicate
      && (c.key in kept ==> i < |calls|)
      && (var seen := if c.key in kept then FirstSeen(calls[i..], c.key) else [];
          && u.destinationDuplicate == (c.destination in seen)
          && u.destinationCount == |seen| + (if c.destination in seen then 0 else 1))
      && u.keyCount == |Take(capacity, Recency(calls + [c]))|
      && u.evicted == (if c.key !in kept && |kept| == capacity then 1 else 0)
    ensures Run(calls + [c], capacity).duplicateDestinations ==
            Run(calls, capacity).duplicateDestinations
            + (if Outcome(Run(calls, capacity), c, capacity).destinationDuplicate then 1 else 0)
  {
    var s, more := Run(calls, capacity), calls + [c];
    assert more[..|calls|] == calls && Run(more, capacity) == Record(s, c, capacity);
    RunConsistent(calls, capacity);
    assert c.key in s.dests <==> c.key in s.order;
    hide Run, Record, Outcome, WithinCapacity, Recency, Take, LatestInsertion, FirstSeen, Consistent;
    OrderIsRecency(calls, capacity);
    OrderIsRecency(more, capacity);
    OutcomeParts(s, c, capacity);
    if c.key in s.dests {
      DestinationsSinceInsertion(calls, capacity, c.key);
    }
  }
}
