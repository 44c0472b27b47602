/** The fixed-window limiter on Query-BF forwards (tables/query_bf_limiter.cpp). */
module QueryLimiter {
  import opened Text

  datatype Entry = Entry(windowStart: int, attempts: nat)

  datatype Limits = Limits(attemptLimit: nat, window: int)

  /** A call of allow() for a limiter key, at one reading of the steady clock. */
  datatype Call = Call(key: string, now: int)

  const ABSENT := Entry(0, 0)

  function MakeKey(origin: string, digest: uint64): string {
    origin + [':'] + NatToString(digest)
  }

  /** Limiter keys never mix two queries. */
  lemma MakeKeyInjective(origin1: string, digest1: uint64, origin2: string, digest2: uint64)
    requires MakeKey(origin1, digest1) == MakeKey(origin2, digest2)
    ensures origin1 == origin2 && digest1 == digest2
  {
    LastSeparator(origin1, origin2, NatToString(digest1), NatToString(digest2), ':');
    NatToStringInjective(digest1, digest2);
  }

  function Unlimited(l: Limits): bool {
    l.attemptLimit == 0 || l.window <= 0
  }

  function Live(entries: map<string, Entry>, now: int, window: int): map<string, Entry> {
    map k | k in entries && now - entries[k].windowStart <= window * 2 :: entries[k]
  }

  function Find(entries: map<string, Entry>, key: string): Entry {
    if key in entries then entries[key] else ABSENT
  }

  /** The entry as allow() sees it once its window has been opened or restarted. */
  function Opened(e: Entry, now: int, window: int): Entry {
    var started := if e.windowStart == 0 then e.(windowStart := now) else e;
    if now - started.windowStart > window then Entry(now, 0) else started
  }

  function Passes(e: Entry, now: int, l: Limits): bool {
    Opened(e, now, l.window).attempts < l.attemptLimit
  }

  function Counted(e: Entry, now: int, l: Limits): Entry {
    var o := Opened(e, now, l.window);
    if o.attempts < l.attemptLimit then o.(attempts := o.attempts + 1) else o
  }

  function Allows(entries: map<string, Entry>, c: Call, l: Limits): bool {
    Unlimited(l) || Passes(Find(Live(entries, c.now, l.window), c.key), c.now, l)
  }

  function After(entries: map<string, Entry>, c: Call, l: Limits): map<string, Entry> {
    if Unlimited(l) then entries
    else
      var live := Live(entries, c.now, l.window);
      live[c.key := Counted(Find(live, c.key), c.now, l)]
  }

  class QueryBloomLimiter {
    const limits: Limits
    var entries: map<string, Entry>

    constructor (limits: Limits)
      ensures this.limits == limits && entries == map[]
    {
      this.limits := limits;
      entries := map[];
    }

    method Allow(origin: string, digest: uint64, now: int) returns (allowed: bool)
      modifies this
      ensures var c := Call(MakeKey(origin, digest), now);
              allowed == Allows(old(entries), c, limits) && entries == After(old(entries), c, limits)
    {
      if limits.attemptLimit == 0 || limits.window <= 0 {
        return true;
      }
      Prune(now);
      var key := MakeKey(origin, digest);
      var entry := if key in entries then entries[key] else ABSENT;
      if entry.windowStart == 0 {
        entry := entry.(windowStart := now);
      }
      if now - entry.windowStart > limits.window {
        entry := Entry(now, 0);
      }
      allowed := entry.attempts < limits.attemptLimit;
      if allowed {
        entry := entry.(attempts := entry.attempts + 1);
      }
      entries := entries[key := entry];
    }

    method Prune(now: int)
      modifies this`entries
      ensures entries == if limits.window <= 0 then old(entries) else Live(old(entries), now, limits.window)
      ensures limits.window > 0 ==> forall k :: k in entries <==>
                k in old(entries) && now - old(entries)[k].windowStart <= 2 * limits.window
      ensures forall k :: k in entries ==> entries[k] == old(entries)[k]
    {
      if limits.window <= 0 {
        return;
      }
      var todo := entries.Keys;
      while todo != {}
        invariant todo <= entries.Keys <= old(entries).Keys
        invariant forall k :: k in entries ==> entries[k] == old(entries)[k]
        invariant forall k :: k in old(entries) && k !in todo ==>
                    (k in entries <==> now - old(entries)[k].windowStart <= limits.window * 2)
      {
        var k :| k in todo;
        if now - entries[k].windowStart > limits.window * 2 {
          entries := entries - {k};
        }
        todo := todo - {k};
      }
    }
  }

  // ---------- what any sequence of calls sees ----------

  function Run(calls: seq<Call>, l: Limits): map<string, Entry> {
    if calls == [] then map[] else After(Run(calls[..|calls| - 1], l), calls[|calls| - 1], l)
  }

  predicate Allowed(calls: seq<Call>, l: Limits, i: nat)
    requires i < |calls|
  {
    Allows(Run(calls[..i], l), calls[i], l)
  }

  /** The steady clock is positive and never goes back. */
  predicate Monotone(calls: seq<Call>) {
    && (forall i :: 0 <= i < |calls| ==> 0 < calls[i].now)
    && (forall i, j :: 0 <= i < j < |calls| ==> calls[i].now <= calls[j].now)
  }

  /** One key's window when nothing is ever pruned and other keys do not exist. */
  function Window(calls: seq<Call>, key: string, l: Limits): Entry {
    if calls == [] then ABSENT
    else
      var e, c := Window(calls[..|calls| - 1], key, l), calls[|calls| - 1];
      if c.key == key then Counted(e, c.now, l) else e
  }

  /** The pruned table holds the unpruned window, or has dropped one that is over anyway. */
  ghost predicate Agrees(calls: seq<Call>, key: string, l: Limits, now: int) {
    var e, w := Find(Run(calls, l), key), Window(calls, key, l);
    e == w || (e == ABSENT && w.windowStart > 0 && now - w.windowStart > l.window * 2)
  }

  lemma {:induction false} PrunedAgrees(calls: seq<Call>, key: string, l: Limits, now: int)
    requires Monotone(calls) && !Unlimited(l) && 0 <= now
    requires forall i :: 0 <= i < |calls| ==> calls[i].now <= now
    ensures Agrees(calls, key, l, now)
    ensures 0 <= Window(calls, key, l).windowStart <= now
    ensures Window(calls, key, l).windowStart == 0 ==> Window(calls, key, l) == ABSENT
  {
    if calls != [] {
      var c, init := calls[|calls| - 1], calls[..|calls| - 1];
      PrunedAgrees(init, key, l, c.now);
      var kept := Find(Live(Run(init, l), c.now, l.window), key);
      var w := Window(init, key, l);
      assert kept == w || (kept == ABSENT && w.windowStart > 0 && c.now - w.windowStart > l.window * 2);
    }
  }

  /** Pruning is unobservable: each answer is the one an unpruned, per-key window gives. */
  lemma {:induction false} PruningUnobservable(calls: seq<Call>, l: Limits, i: nat)
    requires Monotone(calls) && i < |calls| && !Unlimited(l)
    ensures Allowed(calls, l, i) <==> Passes(Window(calls[..i], calls[i].key, l), calls[i].now, l)
  {
    PrunedAgrees(calls[..i], calls[i].key, l, calls[i].now);
  }

  /** How many calls for `key` were allowed with a clock reading in the closed interval [a, b]. */
  function CountAllowed(calls: seq<Call>, key: string, l: Limits, a: int, b: int): nat {
    if calls == [] then 0
    else
      var n := |calls| - 1;
      CountAllowed(calls[..n], key, l, a, b)
      + (if calls[n].key == key && a <= calls[n].now <= b && Allowed(calls, l, n) then 1 else 0)
  }

  /** The number of windows that have been left behind since `a` once a new one opens at `now`. */
  lemma WindowOpens(earlier: nat, w: Entry, a: int, l: Limits, now: int) returns (more: nat)
    requires !Unlimited(l)
    requires w.windowStart >= a ==> l.window * earlier <= w.windowStart - a && now - w.windowStart > l.window
    ensures more == if w.windowStart >= a then earlier + 1 else 0
    ensures w.windowStart >= a ==> l.window * more < now - a
    ensures w.windowStart >= a ==> l.attemptLimit * (1 + earlier) + l.attemptLimit == l.attemptLimit * (1 + more)
    ensures w.windowStart < a ==> l.window * more == 0 && l.attemptLimit * (1 + more) == l.attemptLimit
  {
    more := if w.windowStart >= a then earlier + 1 else 0;
    assert l.window * (earlier + 1) == l.window * earlier + l.window;
  }

  /** What the last call does to its key's window and count. */
  lemma CountStep(calls: seq<Call>, key: string, l: Limits, a: int, b: int)
    requires Monotone(calls) && !Unlimited(l) && calls != []
    ensures var c, init := calls[|calls| - 1], calls[..|calls| - 1];
      var w := Window(init, key, l);
      && 0 <= w.windowStart <= c.now && (w.windowStart == 0 ==> w == ABSENT)
      && Window(calls, key, l) == (if c.key == key then Counted(w, c.now, l) else w)
      && CountAllowed(calls, key, l, a, b)
         == CountAllowed(init, key, l, a, b) + (if c.key == key && a <= c.now <= b && Passes(w, c.now, l) then 1 else 0)
  {
    var c, init := calls[|calls| - 1], calls[..|calls| - 1];
    hide Allowed, Run, Passes, Counted;
    if c.key == key {
      PruningUnobservable(calls, l, |calls| - 1);
    }
    PrunedAgrees(init, key, l, c.now);
  }

  /**
   * At most one window opened before `a` is counted, plus `earlier` full windows opened since,
   * plus the attempts of the current one. Opening `earlier` more windows took that many window lengths.
   */
  lemma {:induction false} CountByWindows(calls: seq<Call>, key: string, l: Limits, a: int, b: int)
    returns (earlier: nat)
    requires Monotone(calls) && !Unlimited(l) && 0 < a
    requires forall i :: 0 <= i < |calls| ==> calls[i].now <= b
    ensures (forall i :: 0 <= i < |calls| ==> calls[i].now < a) ==> CountAllowed(calls, key, l, a, b) == 0
    ensures var w := Window(calls, key, l);
      && w.attempts <= l.attemptLimit
      && (w.windowStart < a ==> CountAllowed(calls, key, l, a, b) <= w.attempts)
      && (w.windowStart >= a ==>
            && CountAllowed(calls, key, l, a, b) <= l.attemptLimit * (1 + earlier) + w.attempts
            && l.window * earlier <= w.windowStart - a
            && (earlier > 0 ==> l.window * earlier < w.windowStart - a))
  {
    if calls == [] {
      earlier := 0;
    } else {
      var n := |calls| - 1;
      var c, init := calls[n], calls[..n];
      earlier := CountByWindows(init, key, l, a, b);
      CountStep(calls, key, l, a, b);
      hide CountAllowed, Window, Allowed, Unlimited;
      var w := Window(init, key, l);
      if c.key == key && (w.windowStart == 0 || c.now - w.windowStart > l.window) {
        earlier := WindowOpens(earlier, w, a, l, c.now);
      }
    }
  }

  // ---------- exactly when a call is denied ----------

  /** Without a limit or a window everything is allowed. */
  lemma UnlimitedAllows(calls: seq<Call>, l: Limits, i: nat)
    requires i < |calls| && (l.attemptLimit == 0 || l.window <= 0)
    ensures Allowed(calls, l, i)
  {}

  /** Call i starts a window of its key: each earlier start of one is more than a window length ago. */
  predicate Starts(calls: seq<Call>, l: Limits, i: nat)
    requires i < |calls|
    decreases i
  {
    forall j :: 0 <= j < i && calls[j].key == calls[i].key && Starts(calls, l, j) ==>
      calls[i].now - calls[j].now > l.window
  }

  /** How many of the calls j to i - 1 for the key were allowed. */
  function AllowedBetween(calls: seq<Call>, key: string, l: Limits, j: nat, i: nat): nat
    requires i <= |calls|
  {
    if i <= j then 0
    else
      AllowedBetween(calls, key, l, j, i - 1) + (if calls[i - 1].key == key && Allowed(calls, l, i - 1) then 1 else 0)
  }

  /** Call j is the latest start of a window for the key among the first n calls. */
  predicate LatestStart(calls: seq<Call>, key: string, l: Limits, n: nat, j: nat)
    requires n <= |calls|
  {
    && j < n && calls[j].key == key && Starts(calls, l, j)
    && forall k :: j < k < n && calls[k].key == key ==> !Starts(calls, l, k)
  }

  /** The window of a key after n calls is the one its latest start opened, with the calls allowed since. */
  ghost predicate TrueWindow(calls: seq<Call>, key: string, l: Limits, n: nat, j: nat)
    requires n <= |calls|
  {
    var w := Window(calls[..n], key, l);
    if w.windowStart == 0 then w == ABSENT && forall k :: 0 <= k < n ==> calls[k].key != key
    else
      && LatestStart(calls, key, l, n, j) && calls[j].now == w.windowStart
      && w.attempts == AllowedBetween(calls, key, l, j, n)
  }

  lemma {:induction false} StartsAfterLatest(calls: seq<Call>, l: Limits, n: nat, j: nat)
    requires Monotone(calls) && n < |calls| && LatestStart(calls, calls[n].key, l, n, j)
    ensures Starts(calls, l, n) <==> calls[n].now - calls[j].now > l.window
  {}

  lemma {:induction false} WindowStep(calls: seq<Call>, key: string, l: Limits, n: nat)
    requires Monotone(calls) && !Unlimited(l) && n < |calls|
    ensures var c, w := calls[n], Window(calls[..n], key, l);
            && Window(calls[..n + 1], key, l) == (if c.key == key then Counted(w, c.now, l) else w)
            && (c.key == key ==> (Allowed(calls, l, n) <==> Passes(w, c.now, l)))
  {
    assert calls[..n + 1][..n] == calls[..n];
    hide Allowed, Passes, Counted, Run;
    if calls[n].key == key {
      PruningUnobservable(calls, l, n);
    }
  }

  lemma {:induction false} WindowIsTrue(calls: seq<Call>, key: string, l: Limits, n: nat) returns (j: nat)
    requires Monotone(calls) && !Unlimited(l) && n <= |calls|
    ensures TrueWindow(calls, key, l, n, j)
  {
    j := 0;
    if n > 0 {
      var c := calls[n - 1];
      var i := WindowIsTrue(calls, key, l, n - 1);
      WindowStep(calls, key, l, n - 1);
      hide Allowed, Window;
      var w := Window(calls[..n - 1], key, l);
      if c.key != key {
        j := i;
      } else if w.windowStart == 0 {
        j := n - 1;
      } else {
        StartsAfterLatest(calls, l, n - 1, i);
        j := if c.now - w.windowStart > l.window then n - 1 else i;
      }
      assert AllowedBetween(calls, key, l, n - 1, n - 1) == 0;
    }
  }

  /** Within one window length of a start there is no later one. */
  lemma {:induction false} OnlyStart(calls: seq<Call>, l: Limits, n: nat, i: nat, j: nat)
    requires Monotone(calls) && n < |calls| && LatestStart(calls, calls[n].key, l, n, i)
    requires j < n && calls[j].key == calls[n].key && Starts(calls, l, j) && calls[n].now - calls[j].now <= l.window
    ensures i == j
  {}

  /**
   * A call is denied if and only if a window of its key was started at most a window length ago and as many calls as
   * the limit were allowed since.
   */
  lemma {:induction false} DeniedExactly(calls: seq<Call>, l: Limits, i: nat)
    requires Monotone(calls) && i < |calls| && l.attemptLimit > 0 && l.window > 0
    ensures !Allowed(calls, l, i) <==>
              exists j :: 0 <= j < i && calls[j].key == calls[i].key && Starts(calls, l, j)
                && calls[i].now - calls[j].now <= l.window
                && AllowedBetween(calls, calls[i].key, l, j, i) >= l.attemptLimit
  {
    var key := calls[i].key;
    var start := WindowIsTrue(calls, key, l, i);
    WindowStep(calls, key, l, i);
    hide Allowed, Window, AllowedBetween;
    forall j | 0 <= j < i && calls[j].key == key && Starts(calls, l, j) && calls[i].now - calls[j].now <= l.window
      ensures j == start
    {
      OnlyStart(calls, l, i, start, j);
    }
  }

  lemma {:induction false} BetweenIsCounted(calls: seq<Call>, key: string, l: Limits, j: nat, i: nat, a: int, b: int)
    requires Monotone(calls) && j < i <= |calls| && a <= calls[j].now
    requires forall k :: 0 <= k < i ==> calls[k].now <= b
    ensures AllowedBetween(calls, key, l, j, i) <= CountAllowed(calls[..i], key, l, a, b)
  {
    assert calls[..i][..i - 1] == calls[..i - 1];
    hide Allows, Run;
    if i - 1 > j {
      BetweenIsCounted(calls, key, l, j, i - 1, a, b);
    } else {
      assert AllowedBetween(calls, key, l, j, j) == 0;
    }
  }

  /** The lower side: with fewer allowed calls than the limit in the window length before it, a call is allowed. */
  lemma {:induction false} AllowedBelowLimit(calls: seq<Call>, l: Limits, i: nat)
    requires Monotone(calls) && i < |calls| && l.attemptLimit > 0 && l.window > 0
    requires CountAllowed(calls[..i], calls[i].key, l, calls[i].now - l.window, calls[i].now) < l.attemptLimit
    ensures Allowed(calls, l, i)
  {
    hide Allowed, AllowedBetween, CountAllowed;
    DeniedExactly(calls, l, i);
    if !Allowed(calls, l, i) {
      var j :| 0 <= j < i && calls[j].key == calls[i].key && Starts(calls, l, j)
        && calls[i].now - calls[j].now <= l.window && AllowedBetween(calls, calls[i].key, l, j, i) >= l.attemptLimit;
      BetweenIsCounted(calls, calls[i].key, l, j, i, calls[i].now - l.window, calls[i].now);
    }
  }

  function CeilDiv(n: nat, d: int): nat
    requires d > 0
  {
    (n + d - 1) / d
  }

  lemma TimesMonotone(k: nat, a: int, b: int)
    requires a <= b
    ensures k * a <= k * b
  {}

  lemma CeilCovers(n: nat, d: int)
    requires d > 0
    ensures n <= CeilDiv(n, d) * d
  {}

  lemma FewerWindowsThanCeil(earlier: nat, window: int, length: int)
    requires window > 0 && length > 0
    requires earlier > 0 ==> window * earlier < length
    ensures earlier + 1 <= CeilDiv(length, window)
  {
    var q := CeilDiv(length, window);
    CeilCovers(length, window);
    if earlier == 0 {
      assert q > 0;
    } else {
      assert window * earlier < q * window;
      if q <= earlier {
        TimesMonotone(window, q, earlier);
      }
    }
  }

  /**
   * In any closed interval of length L > 0 at most limit * (ceil(L / window) + 1) forwards of one query are allowed.
   */
  lemma {:induction false} RateBound(calls: seq<Call>, key: string, l: Limits, a: int, b: int)
    requires Monotone(calls) && !Unlimited(l) && 0 < a < b
    ensures CountAllowed(calls, key, l, a, b) <= l.attemptLimit * (CeilDiv(b - a, l.window) + 1)
    decreases |calls|
  {
    if calls != [] && calls[|calls| - 1].now > b {
      RateBound(calls[..|calls| - 1], key, l, a, b);
    } else {
      var earlier := CountByWindows(calls, key, l, a, b);
      var w := Window(calls, key, l);
      if calls != [] {
        PrunedAgrees(calls, key, l, b);
      }
      var e := if w.windowStart >= a then earlier else 0;
      FewerWindowsThanCeil(e, l.window, b - a);
      var c := CeilDiv(b - a, l.window);
      TimesMonotone(l.attemptLimit, 1 + e, c);
      assert l.attemptLimit * (c + 1) == l.attemptLimit * c + l.attemptLimit;
    }
  }

  /** In particular at most twice the limit in any one window length. */
  lemma TwiceTheLimitPerWindow(calls: seq<Call>, key: string, l: Limits, a: int)
    requires Monotone(calls) && !Unlimited(l) && 0 < a
    ensures CountAllowed(calls, key, l, a, a + l.window) <= 2 * l.attemptLimit
  {
    RateBound(calls, key, l, a, a + l.window);
    assert CeilDiv(l.window, l.window) == 1;
  }
}
