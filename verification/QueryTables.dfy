/** Duplicate suppression by request id with a time to live (tables/query_table.cpp). */
module QueryTables {
  import opened Collections

  datatype QueryState = QueryState(table: map<string, int>, attempts: nat, duplicates: nat, pruned: nat)

  /** One call of record_if_new, with its two clock readings: in prune() and when the id is stored. */
  datatype Call = Call(id: string, pruneNow: int, recordNow: int)

  const FRESH := QueryState(map[], 0, 0, 0)

  function Live(table: map<string, int>, now: int, ttl: int): map<string, int> {
    map id | id in table && now - table[id] <= ttl :: table[id]
  }

  lemma LiveSize(table: map<string, int>, now: int, ttl: int)
    ensures |Live(table, now, ttl)| <= |table|
  {
    SubsetSize(Live(table, now, ttl).Keys, table.Keys);
  }

  function IsNew(s: QueryState, c: Call, ttl: int): bool {
    c.id !in Live(s.table, c.pruneNow, ttl)
  }

  function Record(s: QueryState, c: Call, ttl: int): QueryState {
    var live := Live(s.table, c.pruneNow, ttl);
    LiveSize(s.table, c.pruneNow, ttl);
    var swept := s.(table := live, attempts := s.attempts + 1, pruned := s.pruned + (|s.table| - |live|));
    if c.id in live then swept.(duplicates := s.duplicates + 1)
    else swept.(table := live[c.id := c.recordNow])
  }

  class QueryTable {
    const ttl: int
    var table: map<string, int>
    var attempts: nat
    var duplicates: nat
    var pruned: nat

    function State(): QueryState
      reads this
    {
      QueryState(table, attempts, duplicates, pruned)
    }

    constructor (ttl: int)
      ensures this.ttl == ttl && State() == FRESH
    {
      this.ttl := ttl;
      table, attempts, duplicates, pruned := map[], 0, 0, 0;
    }

    method RecordIfNew(id: string, pruneNow: int, recordNow: int) returns (isNew: bool)
      modifies this
      ensures isNew == IsNew(old(State()), Call(id, pruneNow, recordNow), ttl)
      ensures State() == Record(old(State()), Call(id, pruneNow, recordNow), ttl)
    {
      attempts := attempts + 1;
      var removed := Prune(pruneNow);
      pruned := pruned + removed;
      if id in table {
        duplicates := duplicates + 1;
        return false;
      }
      table := table[id := recordNow];
      return true;
    }

    method Prune(now: int) returns (removed: nat)
      modifies this`table
      ensures table == Live(old(table), now, ttl)
      ensures removed == |old(table)| - |table|
    {
      removed := 0;
      var todo := table.Keys;
      while todo != {}
        invariant todo <= table.Keys <= old(table).Keys
        invariant forall id :: id in table ==> table[id] == old(table)[id]
        invariant forall id :: id in old(table) && id !in todo ==> (id in table <==> now - old(table)[id] <= ttl)
        invariant removed == |old(table)| - |table|
      {
        var id :| id in todo;
        if now - table[id] > ttl {
          assert table.Keys == (table - {id}).Keys + {id};
          table := table - {id};
          removed := removed + 1;
        }
        todo := todo - {id};
      }
    }
  }

  // ---------- what any sequence of calls sees ----------

  function Run(calls: seq<Call>, ttl: int): QueryState {
    if calls == [] then FRESH else Record(Run(calls[..|calls| - 1], ttl), calls[|calls| - 1], ttl)
  }

  /** Whether the i-th call was answered "new". */
  predicate Accepted(calls: seq<Call>, ttl: int, i: nat)
    requires i < |calls|
  {
    IsNew(Run(calls[..i], ttl), calls[i], ttl)
  }

  /** Readings of the steady clock never go back. */
  predicate Monotone(calls: seq<Call>) {
    && (forall i :: 0 <= i < |calls| ==> calls[i].pruneNow <= calls[i].recordNow)
    && (forall i, j :: 0 <= i < j < |calls| ==> calls[i].recordNow <= calls[j].pruneNow)
  }

  /** Some earlier acceptance of the same id is at most ttl old: what a table that never forgets would say. */
  predicate RecentlyAccepted(calls: seq<Call>, ttl: int, i: nat)
    requires i < |calls|
  {
    exists j: nat :: j < i && calls[j].id == calls[i].id && Accepted(calls, ttl, j)
                && calls[i].pruneNow - calls[j].recordNow <= ttl
  }

  lemma AcceptedInPrefix(calls: seq<Call>, ttl: int, m: nat, j: nat)
    requires j < m <= |calls|
    ensures Accepted(calls[..m], ttl, j) <==> Accepted(calls, ttl, j)
  {
    assert calls[..m][..j] == calls[..j];
  }

  /** Every table entry is some earlier acceptance. */
  lemma {:induction false} EntryIsAcceptance(calls: seq<Call>, ttl: int, id: string) returns (j: nat)
    requires id in Run(calls, ttl).table
    ensures j < |calls| && calls[j].id == id && calls[j].recordNow == Run(calls, ttl).table[id]
    ensures Accepted(calls, ttl, j)
  {
    var n := |calls| - 1;
    if id == calls[n].id && Accepted(calls, ttl, n) {
      j := n;
    } else {
      j := EntryIsAcceptance(calls[..n], ttl, id);
      AcceptedInPrefix(calls, ttl, n, j);
    }
  }

  /** No unexpired acceptance is ever pruned or overwritten. */
  lemma {:induction false} AcceptanceIsKept(calls: seq<Call>, ttl: int, j: nat, now: int)
    requires Monotone(calls) && j < |calls| && Accepted(calls, ttl, j)
    requires forall i :: 0 <= i < |calls| ==> calls[i].recordNow <= now
    requires now - calls[j].recordNow <= ttl
    ensures calls[j].id in Run(calls, ttl).table && Run(calls, ttl).table[calls[j].id] == calls[j].recordNow
  {
    var n := |calls| - 1;
    if j < n {
      AcceptedInPrefix(calls, ttl, n, j);
      AcceptanceIsKept(calls[..n], ttl, j, calls[n].pruneNow);
    }
  }

  /** Pruning is unobservable: a call is a duplicate exactly when an acceptance at most ttl old is on record. */
  lemma DuplicateExactly(calls: seq<Call>, ttl: int, i: nat)
    requires Monotone(calls) && i < |calls|
    ensures Accepted(calls, ttl, i) <==> !RecentlyAccepted(calls, ttl, i)
  {
    var past, c := calls[..i], calls[i];
    if !Accepted(calls, ttl, i) {
      var j := EntryIsAcceptance(past, ttl, c.id);
      AcceptedInPrefix(calls, ttl, i, j);
    }
    if RecentlyAccepted(calls, ttl, i) {
      var j: nat :| j < i && calls[j].id == c.id && Accepted(calls, ttl, j) && c.pruneNow - calls[j].recordNow <= ttl;
      AcceptedInPrefix(calls, ttl, i, j);
      AcceptanceIsKept(past, ttl, j, c.pruneNow);
    }
  }

  /** Two acceptances of one id are always more than ttl apart. */
  lemma AcceptancesApart(calls: seq<Call>, ttl: int, j: nat, i: nat)
    requires Monotone(calls) && j < i < |calls| && calls[j].id == calls[i].id
    requires Accepted(calls, ttl, j) && Accepted(calls, ttl, i)
    ensures calls[i].recordNow - calls[j].recordNow > ttl
  {
    DuplicateExactly(calls, ttl, i);
  }

  /** Every attempt is a duplicate, was pruned, or is still in the table. */
  lemma {:induction false} AttemptsConserved(calls: seq<Call>, ttl: int)
    ensures var s := Run(calls, ttl);
            s.attempts == |calls| && s.attempts == s.duplicates + s.pruned + |s.table|
  {
    if calls != [] {
      var init, c := calls[..|calls| - 1], calls[|calls| - 1];
      AttemptsConserved(init, ttl);
      var live := Live(Run(init, ttl).table, c.pruneNow, ttl);
      assert live[c.id := c.recordNow].Keys == live.Keys + {c.id};
    }
  }
}
