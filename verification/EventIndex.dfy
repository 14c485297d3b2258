/** The event index: every decodable finalized log up to the cursor, once each, read back in pages. */
module EventIndex {
  import opened Effects

  datatype Contract = Policy | Settlement | Ledger
  const CONTRACTS: seq<Contract> := [Policy, Settlement, Ledger]

  /** A log of the chain; `event` is absent where no known event decodes. */
  datatype Log = Log(contract: Contract, block: nat, index: nat, transaction: string, event: Option<string>)

  predicate Before(a: Log, b: Log) {
    a.block < b.block || (a.block == b.block && a.index < b.index)
  }

  /** The table's primary key. */
  predicate SameKey(a: Log, b: Log) {
    a.transaction == b.transaction && a.index == b.index
  }

  /** By block, and by log index within a block. */
  ghost predicate InOrder(logs: seq<Log>) {
    forall i, j | 0 <= i < j < |logs| ::
      logs[i].block < logs[j].block || (logs[i].block == logs[j].block && logs[i].index < logs[j].index)
  }

  /** Finalized logs in chain order; a transaction lies in one block. */
  ghost predicate IsChain(logs: seq<Log>) {
    InOrder(logs) && forall a, b | a in logs && b in logs && a.transaction == b.transaction :: a.block == b.block
  }

  lemma KeysIdentify(logs: seq<Log>, a: Log, b: Log)
    requires IsChain(logs) && a in logs && b in logs && SameKey(a, b)
    ensures a == b
  {
    var i :| 0 <= i < |logs| && logs[i] == a;
    var j :| 0 <= j < |logs| && logs[j] == b;
    assert !Before(a, b) && !Before(b, a);
  }

  // ---------------------------------------------------------------- what the index should hold

  ghost predicate Wanted(l: Log, first: nat, cursor: Option<nat>) {
    l.event.Some? && cursor.Some? && first <= l.block <= cursor.value
  }

  /** The decodable logs from the first block to the cursor, in chain order. */
  ghost function History(logs: seq<Log>, first: nat, cursor: Option<nat>): seq<Log> {
    if logs == [] then []
    else
      var last := logs[|logs| - 1];
      History(logs[..|logs| - 1], first, cursor) + if Wanted(last, first, cursor) then [last] else []
  }

  lemma {:induction false} HistoryHas(logs: seq<Log>, first: nat, cursor: Option<nat>)
    ensures forall l :: l in History(logs, first, cursor) <==> l in logs && Wanted(l, first, cursor)
  {
    if logs != [] {
      HistoryHas(logs[..|logs| - 1], first, cursor);
      assert logs == logs[..|logs| - 1] + [logs[|logs| - 1]];
    }
  }

  lemma {:induction false} HistoryInOrder(logs: seq<Log>, first: nat, cursor: Option<nat>)
    requires InOrder(logs)
    ensures InOrder(History(logs, first, cursor))
  {
    if logs != [] {
      var rest, last := logs[..|logs| - 1], logs[|logs| - 1];
      HistoryInOrder(rest, first, cursor);
      HistoryHas(rest, first, cursor);
      assert forall l | l in rest :: Before(l, last);
      var h := History(rest, first, cursor);
      assert forall i | 0 <= i < |h| :: h[i] in h;
    }
  }

  ghost predicate Unrepeated(rows: seq<Log>) {
    forall i, j | 0 <= i < j < |rows| :: rows[i] != rows[j]
  }

  /** The table holds what it should, once each. */
  ghost predicate Exact(logs: seq<Log>, rows: seq<Log>, first: nat, cursor: Option<nat>) {
    Unrepeated(rows) && forall l :: l in rows <==> l in logs && Wanted(l, first, cursor)
  }

  // ---------------------------------------------------------------- reading it back

  function Insert(l: Log, sorted: seq<Log>): seq<Log> {
    if sorted == [] || Before(sorted[|sorted| - 1], l) then sorted + [l]
    else Insert(l, sorted[..|sorted| - 1]) + [sorted[|sorted| - 1]]
  }

  /** The rows by block and log index. */
  function Ordered(rows: seq<Log>): seq<Log> {
    if rows == [] then [] else Insert(rows[|rows| - 1], Ordered(rows[..|rows| - 1]))
  }

  lemma {:induction false} InsertHas(l: Log, sorted: seq<Log>)
    ensures forall x :: x in Insert(l, sorted) <==> x == l || x in sorted
  {
    if sorted != [] && !Before(sorted[|sorted| - 1], l) {
      InsertHas(l, sorted[..|sorted| - 1]);
      assert sorted == sorted[..|sorted| - 1] + [sorted[|sorted| - 1]];
    }
  }

  lemma LastInOrder(rest: seq<Log>, last: Log)
    requires InOrder(rest) && forall x | x in rest :: Before(x, last)
    ensures InOrder(rest + [last])
  {
    forall i, j | 0 <= i < j < |rest + [last]|
      ensures Before((rest + [last])[i], (rest + [last])[j])
    {
      assert rest[i] in rest;
    }
  }

  /** Two logs are never at the same place of the chain. */
  ghost predicate Apart(l: Log, rows: seq<Log>) {
    forall x | x in rows :: Before(l, x) || Before(x, l)
  }

  lemma {:induction false} InsertInOrder(l: Log, sorted: seq<Log>)
    requires InOrder(sorted) && Apart(l, sorted)
    ensures InOrder(Insert(l, sorted))
  {
    if sorted != [] {
      var rest, last := sorted[..|sorted| - 1], sorted[|sorted| - 1];
      assert sorted == rest + [last];
      assert forall x | x in rest :: Before(x, last);
      if Before(last, l) {
        LastInOrder(sorted, l);
      } else {
        InsertInOrder(l, rest);
        InsertHas(l, rest);
        LastInOrder(Insert(l, rest), last);
      }
    }
  }

  lemma {:induction false} OrderedHas(rows: seq<Log>)
    ensures forall x :: x in Ordered(rows) <==> x in rows
  {
    if rows != [] {
      OrderedHas(rows[..|rows| - 1]);
      InsertHas(rows[|rows| - 1], Ordered(rows[..|rows| - 1]));
      assert rows == rows[..|rows| - 1] + [rows[|rows| - 1]];
    }
  }

  lemma {:induction false} OrderedInOrder(logs: seq<Log>, rows: seq<Log>)
    requires InOrder(logs) && Unrepeated(rows) && forall l | l in rows :: l in logs
    ensures InOrder(Ordered(rows))
  {
    if rows != [] {
      var rest, last := rows[..|rows| - 1], rows[|rows| - 1];
      assert rows == rest + [last];
      OrderedInOrder(logs, rest);
      OrderedHas(rest);
      forall x | x in rest
        ensures Before(last, x) || Before(x, last)
      {
        assert x in logs && last in logs && x != last;
      }
      InsertInOrder(last, Ordered(rest));
    }
  }

  lemma LastsAgree(p: seq<Log>, x: Log, q: seq<Log>, y: Log)
    requires InOrder(p + [x]) && InOrder(q + [y]) && forall l :: l in p + [x] <==> l in q + [y]
    ensures x == y && forall l :: l in p <==> l in q
  {
    var a, b := p + [x], q + [y];
    assert forall i | 0 <= i < |p| :: a[i] == p[i] && Before(a[i], a[|p|]);
    assert forall i | 0 <= i < |q| :: b[i] == q[i] && Before(b[i], b[|q|]);
    assert x in a && y in b;
    assert x !in p && y !in q;
    assert x == y;
    forall l
      ensures l in p <==> l in q
    {
      assert l in a <==> l in p || l == x;
      assert l in b <==> l in q || l == y;
    }
  }

  /** A set of logs has one chain order. */
  lemma {:induction false} OneOrder(a: seq<Log>, b: seq<Log>)
    requires InOrder(a) && InOrder(b) && forall x :: x in a <==> x in b
    ensures a == b
  {
    if a == [] || b == [] {
      EmptyAgree(a, b);
    } else {
      var p, q := a[..|a| - 1], b[..|b| - 1];
      assert a == p + [a[|a| - 1]] && b == q + [b[|b| - 1]];
      LastsAgree(p, a[|a| - 1], q, b[|b| - 1]);
      OneOrder(p, q);
    }
  }

  lemma EmptyAgree(a: seq<Log>, b: seq<Log>)
    requires (a == [] || b == []) && forall x :: x in a <==> x in b
    ensures a == b
  {
    if a != [] {
      FirstIsExtra(a, b);
    } else if b != [] {
      FirstIsExtra(b, a);
    }
  }

  lemma FirstIsExtra(a: seq<Log>, b: seq<Log>)
    requires a != []
    ensures b == [] ==> exists x :: x in a && x !in b
  {
    assert a[0] in a;
  }

  lemma EveryContract(c: Contract)
    ensures c in CONTRACTS
  {
    assert CONTRACTS[0] == Policy && CONTRACTS[1] == Settlement && CONTRACTS[2] == Ledger;
  }

  /** Reading everything back in pages gives the chain's own history, in its own order. */
  lemma ReadingGivesHistory(logs: seq<Log>, rows: seq<Log>, first: nat, cursor: Option<nat>)
    requires IsChain(logs) && Exact(logs, rows, first, cursor)
    ensures Ordered(rows) == History(logs, first, cursor)
  {
    OrderedHas(rows);
    OrderedInOrder(logs, rows);
    HistoryHas(logs, first, cursor);
    HistoryInOrder(logs, first, cursor);
    OneOrder(Ordered(rows), History(logs, first, cursor));
  }

  const PAGE_SIZE := 2000

  function Least(a: nat, b: nat): nat {
    if a < b then a else b
  }

  // ---------------------------------------------------------------- one call

  function LogsIn(logs: seq<Log>, c: Contract, from: nat, to: nat): seq<Log> {
    if logs == [] then []
    else
      var last := logs[|logs| - 1];
      LogsIn(logs[..|logs| - 1], c, from, to) + if last.contract == c && from <= last.block <= to then [last] else []
  }

  lemma {:induction false} LogsInHas(logs: seq<Log>, c: Contract, from: nat, to: nat)
    ensures forall l :: l in LogsIn(logs, c, from, to) <==> l in logs && l.contract == c && from <= l.block <= to
  {
    if logs != [] {
      LogsInHas(logs[..|logs| - 1], c, from, to);
      assert logs == logs[..|logs| - 1] + [logs[|logs| - 1]];
    }
  }

  /** What three range queries return together. */
  ghost predicate IsBatch(logs: seq<Log>, batch: seq<Log>, from: nat, to: nat) {
    forall l :: l in batch <==> l in logs && from <= l.block <= to
  }

  /** Rows grown by the decodable logs of a batch. */
  ghost predicate Grown(rows: seq<Log>, batch: seq<Log>, after: seq<Log>) {
    Unrepeated(after) && forall l :: l in after <==> l in rows || (l in batch && l.event.Some?)
  }

  /** Insertion does nothing on a key that is taken. */
  lemma InsertRow(logs: seq<Log>, rows: seq<Log>, batch: seq<Log>, after: seq<Log>, l: Log)
    requires IsChain(logs) && l in logs && (forall r | r in after :: r in logs) && Grown(rows, batch, after)
    ensures Grown(rows, batch + [l], if l.event.None? || exists r | r in after :: SameKey(r, l) then after else after + [l])
  {
    if r :| r in after && SameKey(r, l) {
      KeysIdentify(logs, r, l);
    } else {
      assert l !in after;
    }
  }

  lemma AdvanceExact(logs: seq<Log>, rows: seq<Log>, first: nat, cursor: Option<nat>, batch: seq<Log>, after: seq<Log>, to: nat)
    requires Exact(logs, rows, first, cursor) && Grown(rows, batch, after)
    requires IsBatch(logs, batch, if cursor.Some? then cursor.value + 1 else first, to)
    requires cursor.Some? ==> first <= cursor.value + 1 && cursor.value <= to
    ensures Exact(logs, after, first, Some(to))
  {
  }

  // ---------------------------------------------------------------- any sequence of calls

  datatype State = State(logs: seq<Log>, finalized: nat, rows: seq<Log>, cursor: Option<nat>)

  ghost predicate Holds(s: State, first: nat) {
    && IsChain(s.logs) && (forall l | l in s.logs :: l.block <= s.finalized)
    && Exact(s.logs, s.rows, first, s.cursor) && (s.cursor.Some? ==> first <= s.cursor.value <= s.finalized)
  }

  /** Blocks become final. */
  ghost predicate Finalizes(s: State, t: State) {
    && s.logs <= t.logs && s.finalized <= t.finalized && IsChain(t.logs) && t.rows == s.rows && t.cursor == s.cursor
    && forall l | l in t.logs[|s.logs|..] :: s.finalized < l.block <= t.finalized
  }

  /** A call commits a whole batch with its cursor. */
  ghost predicate Indexes(s: State, t: State, first: nat) {
    && t.logs == s.logs && t.finalized == s.finalized && t.cursor.Some? && first <= t.cursor.value <= t.finalized
    && (s.cursor.Some? ==> s.cursor.value <= t.cursor.value)
    && exists batch :: IsBatch(s.logs, batch, if s.cursor.Some? then s.cursor.value + 1 else first, t.cursor.value) && Grown(s.rows, batch, t.rows)
  }

  ghost predicate Run(ss: seq<State>, first: nat) {
    && ss != [] && ss[0] == State([], 0, [], None)
    && forall k | 0 < k < |ss| :: ss[k] == ss[k - 1] || Finalizes(ss[k - 1], ss[k]) || Indexes(ss[k - 1], ss[k], first)
  }

  lemma FinalizesKeeps(s: State, t: State, first: nat)
    requires Holds(s, first) && Finalizes(s, t)
    ensures Holds(t, first)
  {
    assert t.logs == s.logs + t.logs[|s.logs|..];
  }

  lemma IndexesKeeps(s: State, t: State, first: nat)
    requires Holds(s, first) && Indexes(s, t, first)
    ensures Holds(t, first)
  {
    var batch :| IsBatch(s.logs, batch, if s.cursor.Some? then s.cursor.value + 1 else first, t.cursor.value) && Grown(s.rows, batch, t.rows);
    AdvanceExact(s.logs, s.rows, first, s.cursor, batch, t.rows, t.cursor.value);
  }

  /** At every moment of every run the table is exact, so reading it gives the chain's history. */
  lemma {:induction false} RunIsExact(ss: seq<State>, first: nat, k: nat)
    requires Run(ss, first) && k < |ss|
    ensures Holds(ss[k], first)
    ensures Ordered(ss[k].rows) == History(ss[k].logs, first, ss[k].cursor)
  {
    hide Holds, Finalizes, Indexes, Ordered, History;
    if k == 0 {
      StartHolds(first);
    } else {
      RunIsExact(ss, first, k - 1);
      if Finalizes(ss[k - 1], ss[k]) {
        FinalizesKeeps(ss[k - 1], ss[k], first);
      } else if Indexes(ss[k - 1], ss[k], first) {
        IndexesKeeps(ss[k - 1], ss[k], first);
      }
    }
    HoldsReads(ss[k], first);
  }

  lemma StartHolds(first: nat)
    ensures Holds(State([], 0, [], None), first)
  {
  }

  lemma HoldsReads(s: State, first: nat)
    requires Holds(s, first)
    ensures Ordered(s.rows) == History(s.logs, first, s.cursor)
  {
    ReadingGivesHistory(s.logs, s.rows, first, s.cursor);
  }

  lemma {:induction false} HistoryAppends(logs: seq<Log>, more: seq<Log>, first: nat, cursor: Option<nat>)
    ensures History(logs + more, first, cursor) == History(logs, first, cursor) + History(more, first, cursor)
  {
    if more == [] {
      assert logs + more == logs;
    } else {
      HistoryAppends(logs, more[..|more| - 1], first, cursor);
      assert (logs + more)[..|logs + more| - 1] == logs + more[..|more| - 1];
    }
  }

  lemma {:induction false} HistoryCuts(logs: seq<Log>, first: nat, c: Option<nat>, d: Option<nat>)
    requires InOrder(logs) && (c.Some? ==> d.Some? && c.value <= d.value)
    ensures History(logs, first, c) <= History(logs, first, d)
  {
    if logs != [] {
      var rest, last := logs[..|logs| - 1], logs[|logs| - 1];
      HistoryCuts(rest, first, c, d);
      if Wanted(last, first, c) {
        forall l | l in rest
          ensures Wanted(l, first, c) == Wanted(l, first, d)
        {
          assert Before(l, last);
        }
        SameHistory(rest, first, c, d);
      }
    }
  }

  lemma {:induction false} SameHistory(logs: seq<Log>, first: nat, c: Option<nat>, d: Option<nat>)
    requires forall l | l in logs :: Wanted(l, first, c) == Wanted(l, first, d)
    ensures History(logs, first, c) == History(logs, first, d)
  {
    if logs != [] {
      SameHistory(logs[..|logs| - 1], first, c, d);
    }
  }

  /** What was read once is the beginning of everything read later. */
  lemma {:induction false} HistoryOnlyGrows(ss: seq<State>, first: nat, i: nat, j: nat)
    requires Run(ss, first) && i <= j < |ss|
    ensures Ordered(ss[i].rows) <= Ordered(ss[j].rows)
    decreases j
  {
    hide Holds, Finalizes, Indexes, Ordered, History, IsChain, Exact;
    if i < j {
      HistoryOnlyGrows(ss, first, i, j - 1);
      RunIsExact(ss, first, j - 1);
      RunIsExact(ss, first, j);
      StepGrows(ss[j - 1], ss[j], first);
    }
  }

  lemma StepGrows(s: State, t: State, first: nat)
    requires Holds(s, first) && (t == s || Finalizes(s, t) || Indexes(s, t, first))
    ensures History(s.logs, first, s.cursor) <= History(t.logs, first, t.cursor)
  {
    hide Exact, Grown, IsBatch, History;
    if t != s {
      if Finalizes(s, t) {
        assert t.logs == s.logs + t.logs[|s.logs|..];
        HistoryAppends(s.logs, t.logs[|s.logs|..], first, s.cursor);
      } else {
        HistoryCuts(s.logs, first, s.cursor, t.cursor);
      }
    }
  }

  lemma StartBatch(s: State, first: nat)
    requires Holds(s, first)
    ensures IsChain(s.logs) && Grown(s.rows, [], s.rows) && forall r | r in s.rows :: r in s.logs
  {
  }

  datatype Outcome = Changed | Unchanged | Busy | Failed

  class Indexer {
    /** The chain: everything finalized so far. */
    var logs: seq<Log>
    var finalized: nat
    /** The database. */
    var rows: seq<Log>
    var cursor: Option<nat>
    const first: nat
    /** Whether node and database never fail. */
    const reliable: bool

    ghost function View(): State
      reads this
    {
      State(logs, finalized, rows, cursor)
    }

    ghost predicate Valid()
      reads this
    {
      Holds(View(), first)
    }

    constructor (first: nat, reliable: bool)
      ensures Valid() && View() == State([], 0, [], None) && this.first == first && this.reliable == reliable
    {
      this.first, this.reliable := first, reliable;
      logs, finalized, rows, cursor := [], 0, [], None;
    }

    /** More blocks become final. */
    method Finalize(more: seq<Log>, upTo: nat)
      requires Valid() && finalized <= upTo && IsChain(logs + more) && forall l | l in more :: finalized < l.block <= upTo
      modifies this`logs, this`finalized
      ensures Valid() && Finalizes(old(View()), View()) && logs == old(logs) + more && finalized == upTo
    {
      logs := logs + more;
      finalized := upTo;
    }

    /** A node answers a range query in full or not at all. */
    method GetLogs(c: Contract, from: nat, to: nat) returns (r: Result<seq<Log>>)
      ensures r.Ok? ==> r.value == LogsIn(logs, c, from, to)
      ensures !r.Crashed? && (reliable ==> r.Ok?)
    {
      var failed: bool := *;
      return if failed && !reliable then Threw else Ok(LogsIn(logs, c, from, to));
    }

    method GetBatch(from: nat, to: nat) returns (r: Result<seq<Log>>)
      ensures r.Ok? ==> IsBatch(logs, r.value, from, to) && |r.value| == Held(from, to)
      ensures !r.Crashed? && (reliable ==> r.Ok?)
    {
      var batch: seq<Log> := [];
      for i := 0 to |CONTRACTS|
        invariant |batch| == HeldBy(from, to, i)
        invariant forall l :: l in batch <==> l in logs && from <= l.block <= to && l.contract in CONTRACTS[..i]
      {
        var found :- GetLogs(CONTRACTS[i], from, to);
        LogsInHas(logs, CONTRACTS[i], from, to);
        assert CONTRACTS[..i + 1] == CONTRACTS[..i] + [CONTRACTS[i]];
        batch := batch + found;
      }
      assert CONTRACTS[..|CONTRACTS|] == CONTRACTS;
      forall l: Log
        ensures l.contract in CONTRACTS
      {
        EveryContract(l.contract);
      }
      return Ok(batch);
    }

    /** How many logs the first `n` contracts have in a range of blocks. */
    ghost function HeldBy(from: nat, to: nat, n: nat): nat
      requires n <= |CONTRACTS|
      reads this`logs
    {
      if n == 0 then 0 else HeldBy(from, to, n - 1) + |LogsIn(logs, CONTRACTS[n - 1], from, to)|
    }

    ghost function Held(from: nat, to: nat): nat
      reads this`logs
    {
      HeldBy(from, to, |CONTRACTS|)
    }

    /** The range was halved because what it was before held more than ten thousand logs. */
    ghost predicate Crowded(from: nat, to: nat, limit: nat)
      reads this`logs
    {
      exists wider: nat :: from < wider <= limit && to == from + (wider - from) / 2 && 10000 < Held(from, wider)
    }

    /** Halve the range until it holds at most ten thousand logs or is a single block. */
    method ShrinkRange(from: nat, limit: nat) returns (r: Result<(nat, seq<Log>)>)
      requires from <= limit
      ensures !r.Crashed? && (reliable ==> r.Ok?)
      ensures r.Ok? ==> from <= r.value.0 <= limit && IsBatch(logs, r.value.1, from, r.value.0)
      ensures r.Ok? ==> Held(from, r.value.0) <= 10000 || r.value.0 == from
      ensures r.Ok? ==> r.value.0 == limit || Crowded(from, r.value.0, limit)
    {
      var upTo := limit;
      var batch :- GetBatch(from, upTo);
      while |batch| > 10000 && upTo != from
        invariant from <= upTo <= limit && IsBatch(logs, batch, from, upTo) && |batch| == Held(from, upTo)
        invariant upTo == limit || Crowded(from, upTo, limit)
        decreases upTo
      {
        upTo := from + (upTo - from) / 2;
        batch :- GetBatch(from, upTo);
      }
      return Ok((upTo, batch));
    }

    /** The rows a transaction would leave; nothing is stored yet. */
    method InsertEvents(batch: seq<Log>) returns (r: Result<seq<Log>>)
      requires Valid() && forall l | l in batch :: l in logs
      ensures !r.Crashed? && (reliable ==> r.Ok?)
      ensures r.Ok? ==> Grown(rows, batch, r.value)
    {
      hide Holds, Grown, IsChain;
      StartBatch(View(), first);
      var after := rows;
      for i := 0 to |batch|
        invariant Grown(rows, batch[..i], after)
        invariant forall r | r in after :: r in logs
      {
        var lost: bool := *;
        if lost && !reliable {
          return Threw;
        }
        var l := batch[i];
        InsertRow(logs, rows, batch[..i], after, l);
        assert batch[..i + 1] == batch[..i] + [l];
        if l.event.Some? && !exists r | r in after :: SameKey(r, l) {
          after := after + [l];
        }
      }
      assert batch[..|batch|] == batch;
      return Ok(after);
    }

    /** One indexing call in one transaction. `busy` says that another call holds the lock, `upToDate`
        that nothing else changed since the last snapshot, `projects` that the snapshot can be computed.
        Every failure before COMMIT leaves cursor and rows alone. */
    method IndexEconomy(busy: bool, upToDate: bool, projects: bool) returns (r: Outcome)
      requires Valid()
      modifies this`rows, this`cursor
      ensures Valid()
      ensures View() == old(View()) || (Indexes(old(View()), View(), first) && Moved(old(cursor), cursor))
      ensures r.Changed? ==> Moved(old(cursor), cursor)
      ensures r.Unchanged? || r.Busy? ==> rows == old(rows) && cursor == old(cursor)
      ensures r.Busy? <==> busy
      ensures r.Unchanged? <==> !busy && upToDate && old(cursor) != None && finalized <= old(cursor).value
      ensures !projects ==> View() == old(View()) && !r.Changed?
      ensures reliable && projects ==> (r.Failed? <==> !busy && old(cursor) == None && finalized < first)
    {
      hide IsChain, Exact, Unrepeated, Grown, Crowded, HeldBy;
      if busy {
        return Busy;
      }
      var from := if cursor.Some? then cursor.value + 1 else first;
      if from > finalized && upToDate && cursor.Some? {
        return Unchanged;
      }
      if from > finalized && cursor.None? {
        return Failed;
      }
      var to, batch := if cursor.Some? then cursor.value else first, [];
      if from <= finalized {
        var limit := if from + 1999 < finalized then from + 1999 else finalized;
        var range := ShrinkRange(from, limit);
        if !range.Ok? {
          return Failed;
        }
        to, batch := range.value.0, range.value.1;
      }
      var after := InsertEvents(batch);
      if !after.Ok? {
        return Failed;
      }
      if !projects {
        return Failed;
      }
      ghost var s := View();
      ghost var t := State(logs, finalized, after.value, Some(to));
      assert Indexes(s, t, first);
      IndexesKeeps(s, t, first);
      var committed: bool := *;
      var answered: bool := *;
      if committed || answered || reliable {
        rows, cursor := after.value, Some(to);
      }
      return if answered || reliable then Changed else Failed;
    }

    /** The cursor goes forward whenever there is anything final to index: to the last final block, by
        at most 2000 blocks, or less far where the logs are too many for one call. */
    ghost predicate Moved(before: Option<nat>, after: Option<nat>)
      reads this`finalized, this`logs
    {
      var from := match before case None => first case Some(c) => c + 1;
      var limit := if finalized < from + 1999 then finalized else from + 1999;
      && after.Some?
      && (if finalized < from then before == after
          else from <= after.value <= limit && (after.value == limit || Crowded(from, after.value, limit)))
    }

    /** Pages of two thousand rows in chain order, until one comes back short. */
    method ReadEventHistory() returns (r: Result<seq<Log>>)
      requires Valid()
      ensures !r.Crashed? && (reliable ==> r.Ok?)
      ensures r.Ok? ==> r.value == History(logs, first, cursor)
    {
      hide Holds, Ordered, History;
      var table := Ordered(rows);
      HoldsReads(View(), first);
      var read: seq<Log> := [];
      var offset := 0;
      while true
        invariant offset <= |table| && read == table[..offset]
        decreases |table| - offset
      {
        var lost: bool := *;
        if lost && !reliable {
          return Threw;
        }
        var page := table[offset..Least(offset + PAGE_SIZE, |table|)];
        read := read + page;
        if |page| < PAGE_SIZE {
          assert read == table;
          return Ok(read);
        }
        offset := offset + PAGE_SIZE;
      }
    }
  }
}
