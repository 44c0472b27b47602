/** Deadlines for direct queries that may go unanswered (tables/content_bf_fallback.cpp). */
module FallbackTables {
  import opened Collections
  import opened Text

  datatype Entry = Entry(key: string, origin: string, deadline: int)

  datatype Pending = Pending(key: string, origin: string)

  function MakeKey(origin: string, key: string): string {
    origin + ['|'] + key
  }

  /** Table keys are unambiguous for origins without the separator, in particular for one fixed origin ... */
  lemma MakeKeyInjective(origin1: string, key1: string, origin2: string, key2: string)
    requires MakeKey(origin1, key1) == MakeKey(origin2, key2)
    requires ('|' !in origin1 && '|' !in origin2) || origin1 == origin2
    ensures origin1 == origin2 && key1 == key2
  {
    if origin1 == origin2 {
      var s, t := MakeKey(origin1, key1), MakeKey(origin2, key2);
      assert s[|origin1| + 1..] == key1 && t[|origin2| + 1..] == key2;
    } else {
      FirstSeparator(origin1, origin2, key1, key2, '|');
    }
  }

  /** The collisions of an origin that continues another after a separator. */
  lemma LongerOriginCollides(origin: string, longer: string)
    requires origin + ['|'] <= longer
    ensures exists key1, key2 :: MakeKey(origin, key1) == MakeKey(longer, key2)
  {
    var rest := longer[|origin| + 1..];
    assert longer == origin + ['|'] + rest;
    assert MakeKey(longer, "") == origin + ['|'] + (rest + ['|']);
    assert MakeKey(origin, rest + ['|']) == MakeKey(longer, "");
  }

  lemma CollidingOriginIsPrefix(origin: string, longer: string, key1: string, key2: string)
    requires MakeKey(origin, key1) == MakeKey(longer, key2) && |origin| <= |longer| && origin != longer
    ensures origin + ['|'] <= longer
  {
    var s, t := MakeKey(origin, key1), MakeKey(longer, key2);
    assert origin == s[..|origin|] == t[..|origin|] == longer[..|origin|];
    assert |origin| < |longer| && s[|origin|] == '|' && t[|origin|] == longer[|origin|];
  }

  /**
   * ... and ambiguous for two origins exactly if one continues the other after a separator. A node only ever files
   * entries under its own name (NodeInvariants.ActOwn), so its table never holds such a pair.
   */
  lemma MakeKeyCollides(origin1: string, origin2: string)
    requires origin1 != origin2
    ensures (exists key1, key2 :: MakeKey(origin1, key1) == MakeKey(origin2, key2))
        <==> (origin1 + ['|'] <= origin2 || origin2 + ['|'] <= origin1)
  {
    hide MakeKey;
    if key1, key2 :| MakeKey(origin1, key1) == MakeKey(origin2, key2) {
      if |origin1| <= |origin2| {
        CollidingOriginIsPrefix(origin1, origin2, key1, key2);
      } else {
        CollidingOriginIsPrefix(origin2, origin1, key2, key1);
      }
    }
    if origin1 + ['|'] <= origin2 {
      LongerOriginCollides(origin1, origin2);
    } else if origin2 + ['|'] <= origin1 {
      LongerOriginCollides(origin2, origin1);
      var key2, key1 :| MakeKey(origin2, key2) == MakeKey(origin1, key1);
      assert MakeKey(origin1, key1) == MakeKey(origin2, key2);
    }
  }

  /** An instance. */
  lemma MakeKeyAmbiguous()
    ensures MakeKey("a|b", "c") == MakeKey("a", "b|c")
  {
    assert "a|b" + ['|'] + "c" == "a" + ['|'] + "b|c";
  }

  function Schedule(m: map<string, Entry>, key: string, origin: string, now: int, window: int): map<string, Entry> {
    if window <= 0 then m else m[MakeKey(origin, key) := Entry(key, origin, now + window)]
  }

  function Cancel(m: map<string, Entry>, key: string, origin: string): map<string, Entry> {
    m - {MakeKey(origin, key)}
  }

  function IsDue(m: map<string, Entry>, k: string, now: int): bool {
    k in m && now >= m[k].deadline
  }

  /** What take_due returns, in bucket order. */
  function Due(m: map<string, Entry>, now: int, window: int, order: seq<string>): seq<Pending> {
    if window <= 0 || order == [] then []
    else
      var k := order[|order| - 1];
      Due(m, now, window, order[..|order| - 1]) + (if IsDue(m, k, now) then [Pending(m[k].key, m[k].origin)] else [])
  }

  function AfterTake(m: map<string, Entry>, now: int, window: int): map<string, Entry> {
    if window <= 0 then m else map k | k in m && !IsDue(m, k, now) :: m[k]
  }

  /** Every entry is filed under its own key. */
  ghost predicate Filed(m: map<string, Entry>) {
    forall k :: k in m ==> k == MakeKey(m[k].origin, m[k].key)
  }

  /** No entry is lost by taking: it is either handed out or still in the table. */
  lemma {:induction false} TakeKeeps(m: map<string, Entry>, now: int, window: int, order: seq<string>, k: string)
    requires k in m && k in order
    ensures (k in AfterTake(m, now, window) && AfterTake(m, now, window)[k] == m[k])
         || Pending(m[k].key, m[k].origin) in Due(m, now, window, order)
  {
    if k != order[|order| - 1] {
      TakeKeeps(m, now, window, order[..|order| - 1], k);
    }
  }

  /** Only due entries are handed out, and they are gone from the table. */
  lemma {:induction false} TakeOnlyDue(m: map<string, Entry>, now: int, window: int, order: seq<string>, p: Pending)
    requires Filed(m) && p in Due(m, now, window, order)
    ensures var k := MakeKey(p.origin, p.key);
            IsDue(m, k, now) && m[k].key == p.key && m[k].origin == p.origin && k !in AfterTake(m, now, window)
  {
    var k := order[|order| - 1];
    if !(IsDue(m, k, now) && p == Pending(m[k].key, m[k].origin)) {
      TakeOnlyDue(m, now, window, order[..|order| - 1], p);
    }
  }

  function DueKeys(m: map<string, Entry>, now: int, order: seq<string>): set<string> {
    set k | k in order && IsDue(m, k, now)
  }

  lemma {:induction false} DueKeysStep(m: map<string, Entry>, now: int, init: seq<string>, k: string)
    requires k !in init
    ensures DueKeys(m, now, init + [k]) == DueKeys(m, now, init) + (if IsDue(m, k, now) then {k} else {})
    ensures k !in DueKeys(m, now, init)
  {
    hide IsDue;
  }

  lemma {:induction false} DueSize(m: map<string, Entry>, now: int, window: int, order: seq<string>)
    requires NoDuplicates(order) && window > 0
    ensures |Due(m, now, window, order)| == |DueKeys(m, now, order)|
  {
    hide DueKeys;
    if order == [] {
      assert DueKeys(m, now, order) == {} by { NothingDue(m, now); }
    } else {
      var init, k := order[..|order| - 1], order[|order| - 1];
      DueSize(m, now, window, init);
      DueKeysStep(m, now, init, k);
      assert order == init + [k];
    }
  }

  lemma NothingDue(m: map<string, Entry>, now: int)
    ensures DueKeys(m, now, []) == {}
  {}

  /** Taking moves each entry once: as many are handed out as leave the table. */
  lemma {:induction false} TakeConserves(m: map<string, Entry>, now: int, window: int, order: seq<string>)
    requires Enumerates(order, m.Keys)
    ensures |AfterTake(m, now, window)| + |Due(m, now, window, order)| == |m|
    ensures Due(m, now, window, order) == [] ==> AfterTake(m, now, window) == m
  {
    if window > 0 {
      DueSize(m, now, window, order);
      var due, kept := DueKeys(m, now, order), AfterTake(m, now, window);
      assert forall k :: k in m ==> k in SetOf(order);
      assert m.Keys == kept.Keys + due && kept.Keys !! due;
      assert |m.Keys| == |kept.Keys| + |due|;
    }
  }

  class ContentBfFallbackTable {
    const window: int
    var entries: map<string, Entry>

    constructor (window: int)
      ensures this.window == window && entries == map[]
    {
      this.window := window;
      entries := map[];
    }

    method ScheduleKey(key: string, origin: string, now: int) returns (ok: bool)
      modifies this
      ensures ok == (window > 0) && entries == Schedule(old(entries), key, origin, now, window)
    {
      if window <= 0 {
        return false;
      }
      var entry := Entry(key, origin, now + window);
      entries := entries[MakeKey(origin, key) := entry];
      return true;
    }

    method CancelKey(key: string, origin: string) returns (erased: bool)
      modifies this
      ensures erased == (MakeKey(origin, key) in old(entries)) && entries == Cancel(old(entries), key, origin)
    {
      erased := MakeKey(origin, key) in entries;
      entries := entries - {MakeKey(origin, key)};
    }

    /** `order` is the bucket order of the hash map at the time of the call. */
    method TakeDue(now: int, order: seq<string>) returns (due: seq<Pending>)
      requires Enumerates(order, entries.Keys)
      modifies this
      ensures due == Due(old(entries), now, window, order)
      ensures entries == AfterTake(old(entries), now, window)
    {
      due := [];
      if window <= 0 {
        return;
      }
      for i := 0 to |order|
        invariant due == Due(old(entries), now, window, order[..i])
        invariant entries.Keys <= old(entries).Keys
        invariant forall k :: k in entries ==> entries[k] == old(entries)[k]
        invariant forall k :: k in old(entries) && k !in order[..i] ==> k in entries
        invariant forall k :: k in order[..i] ==> (k in entries <==> !IsDue(old(entries), k, now))
      {
        assert order[..i + 1][..i] == order[..i];
        var k := order[i];
        assert k in SetOf(order) && k !in order[..i];
        if now >= entries[k].deadline {
          due := due + [Pending(entries[k].key, entries[k].origin)];
          entries := entries - {k};
        }
      }
      assert order[..|order|] == order;
      assert forall k :: k in old(entries) ==> k in SetOf(order);
    }
  }

  // ---------- any sequence of calls, by the times of scheduling ----------

  datatype Event =
    | Scheduling(key: string, origin: string, now: int)
    | Cancelling(key: string, origin: string)
    | Taking(now: int)

  function After(m: map<string, Entry>, e: Event, window: int): map<string, Entry> {
    match e
    case Scheduling(key, origin, now) => Schedule(m, key, origin, now, window)
    case Cancelling(key, origin) => Cancel(m, key, origin)
    case Taking(now) => AfterTake(m, now, window)
  }

  function Run(events: seq<Event>, window: int): map<string, Entry> {
    if events == [] then map[] else After(Run(events[..|events| - 1], window), events[|events| - 1], window)
  }

  /** The call leaves an entry of this table key and deadline where it is. */
  predicate Spares(e: Event, k: string, deadline: int) {
    match e
    case Scheduling(key, origin, _) => MakeKey(origin, key) != k
    case Cancelling(key, origin) => MakeKey(origin, key) != k
    case Taking(now) => now < deadline
  }

  predicate Schedules(e: Event, k: string) {
    e.Scheduling? && MakeKey(e.origin, e.key) == k
  }

  /** Event j schedules the table key, and nothing later reschedules it, cancels it or takes it at its deadline. */
  predicate StillFiled(events: seq<Event>, window: int, k: string, j: nat) {
    && j < |events| && Schedules(events[j], k)
    && forall i :: j < i < |events| ==> Spares(events[i], k, events[j].now + window)
  }

  lemma {:induction false} FiledStep(events: seq<Event>, e: Event, window: int, k: string, j: nat)
    ensures StillFiled(events + [e], window, k, j) <==>
              (if j == |events| then Schedules(e, k)
               else StillFiled(events, window, k, j) && Spares(e, k, events[j].now + window))
  {
    hide Spares, Schedules;
    var more := events + [e];
    assert more[|events|] == e;
    if j < |events| {
      assert forall i :: 0 <= i < |events| ==> more[i] == events[i];
    }
  }

  lemma {:induction false} RunStep(events: seq<Event>, e: Event, window: int)
    ensures Run(events + [e], window) == After(Run(events, window), e, window)
  {
    assert (events + [e])[..|events|] == events;
  }

  lemma AfterOne(m: map<string, Entry>, e: Event, window: int, k: string)
    requires window > 0
    ensures var t := After(m, e, window);
      if Schedules(e, k) then k in t && t[k] == Entry(e.key, e.origin, e.now + window)
      else (k in t <==> k in m && Spares(e, k, m[k].deadline)) && (k in t ==> t[k] == m[k])
  {
    hide MakeKey;
  }

  /** What the latest scheduling filed. */
  function FiledBy(events: seq<Event>, window: int, k: string, j: nat): Entry
    requires StillFiled(events, window, k, j)
  {
    Entry(events[j].key, events[j].origin, events[j].now + window)
  }

  /** A key is filed exactly if some scheduling of it still counts, with the deadline a window after that call. */
  lemma {:induction false} FiledExactly(events: seq<Event>, window: int, k: string)
    requires window > 0
    ensures k in Run(events, window) <==> exists j: nat :: StillFiled(events, window, k, j)
    ensures forall j: nat :: StillFiled(events, window, k, j) ==>
                               Run(events, window)[k] == FiledBy(events, window, k, j)
  {
    if events != [] {
      var init, e := events[..|events| - 1], events[|events| - 1];
      FiledExactly(init, window, k);
      RunStep(init, e, window);
      assert init + [e] == events;
      AfterOne(Run(init, window), e, window, k);
      hide Run, After, Spares, Schedules;
      forall j: nat ensures StillFiled(events, window, k, j) <==>
        (if j == |init| then Schedules(e, k)
         else StillFiled(init, window, k, j) && Spares(e, k, init[j].now + window))
      {
        FiledStep(init, e, window, k, j);
      }
      if Schedules(e, k) {
        assert StillFiled(events, window, k, |init|);
        forall j: nat | j < |init| ensures !StillFiled(events, window, k, j) {
          OnlyLatest(events, window, k, j, |init|);
        }
      } else if k in Run(events, window) {
        var j: nat :| StillFiled(init, window, k, j);
        assert StillFiled(events, window, k, j);
      }
    }
  }

  /** Only the latest scheduling of a key counts. */
  lemma {:induction false} OnlyLatest(events: seq<Event>, window: int, k: string, i: nat, j: nat)
    requires i < j < |events| && Schedules(events[j], k)
    ensures !StillFiled(events, window, k, i)
  {}

  lemma {:induction false} HandedOut(m: map<string, Entry>, now: int, window: int, order: seq<string>, p: Pending)
    requires window > 0 && Filed(m)
    ensures var k := MakeKey(p.origin, p.key);
            p in Due(m, now, window, order) <==>
              k in order && k in m && now >= m[k].deadline && m[k].key == p.key && m[k].origin == p.origin
  {
    hide MakeKey;
    if order != [] {
      HandedOut(m, now, window, order[..|order| - 1], p);
    }
  }

  lemma {:induction false} RunIsFiled(events: seq<Event>, window: int)
    ensures Filed(Run(events, window))
  {
    if events != [] {
      RunIsFiled(events[..|events| - 1], window);
      hide MakeKey;
    }
  }

  /**
   * Over any calls: taking at `now` hands a key out if and only if its latest scheduling still counts and is a window
   * length ago; until then, and with the window off always, it hands nothing out for it.
   */
  lemma {:induction false} HandedOutExactly(events: seq<Event>, window: int, now: int, order: seq<string>,
                                            key: string, origin: string)
    requires Enumerates(order, Run(events, window).Keys)
    ensures Pending(key, origin) in Due(Run(events, window), now, window, order) <==>
              window > 0
              && exists j: nat :: StillFiled(events, window, MakeKey(origin, key), j)
                   && events[j].key == key && events[j].origin == origin && now >= events[j].now + window
  {
    if window > 0 {
      var m, k := Run(events, window), MakeKey(origin, key);
      RunIsFiled(events, window);
      FiledExactly(events, window, k);
      HandedOut(m, now, window, order, Pending(key, origin));
      hide Run, StillFiled, MakeKey, Due;
      assert k in order <==> k in SetOf(order);
    }
  }

  /** A key scheduled at t and neither rescheduled nor cancelled is out of the table once a take came at t + window. */
  lemma {:induction false} TakenOnTime(events: seq<Event>, window: int, j: nat)
    requires window > 0 && j < |events| && events[j].Scheduling?
    requires forall i :: j < i < |events| && !events[i].Taking? ==>
               MakeKey(events[i].origin, events[i].key) != MakeKey(events[j].origin, events[j].key)
    ensures MakeKey(events[j].origin, events[j].key) in Run(events, window) <==>
              forall i :: j < i < |events| && events[i].Taking? ==> events[i].now < events[j].now + window
  {
    var k := MakeKey(events[j].origin, events[j].key);
    FiledExactly(events, window, k);
    hide Run, MakeKey;
    forall i: nat | i < j ensures !StillFiled(events, window, k, i) {
      OnlyLatest(events, window, k, i, j);
    }
    assert StillFiled(events, window, k, j) <==>
      forall i :: j < i < |events| && events[i].Taking? ==> events[i].now < events[j].now + window;
  }
}
