/** Who controls an address: executor bindings followed to a root, cycles included. */
module Ownership {
  import opened Effects
  import opened TextOrder

  // ---------------------------------------------------------------- addresses and their order

  /** Addresses are ASCII; letters compare without case. */
  function LowerChar(c: char): char {
    if 'A' <= c <= 'Z' then (c as int + 32) as char else c
  }

  function Lower(s: string): (r: string)
    ensures |r| == |s|
  {
    seq(|s|, i requires 0 <= i < |s| => LowerChar(s[i]))
  }

  const CAPITALS := "ABCDEFGHIJKLMNOPQRSTUVWXYZ"
  const SMALL := "abcdefghijklmnopqrstuvwxyz"

  /** Capitals become small letters, everything else stays. */
  lemma LowerMeaning(s: string, i: nat)
    requires i < |s|
    ensures forall k | 0 <= k < 26 && s[i] == CAPITALS[k] :: Lower(s)[i] == SMALL[k]
    ensures s[i] !in CAPITALS ==> Lower(s)[i] == s[i]
  {
    assert forall k | 0 <= k < 26 :: CAPITALS[k] as int == 65 + k && SMALL[k] as int == 97 + k;
    if 'A' <= s[i] <= 'Z' {
      assert CAPITALS[s[i] as int - 65] == s[i];
    }
  }

  function Codes(s: string): (r: seq<nat>)
    ensures |r| == |s| && forall i | 0 <= i < |s| :: r[i] == s[i] as nat
  {
    seq(|s|, i requires 0 <= i < |s| => s[i] as nat)
  }

  /** The default sort order. */
  predicate Leq(a: string, b: string) {
    !Before(Codes(b), Codes(a))
  }

  lemma LeqTotal(a: string, b: string)
    ensures Leq(a, b) || Leq(b, a)
  {
    if Before(Codes(b), Codes(a)) && Before(Codes(a), Codes(b)) {
      BeforeTransitive(Codes(a), Codes(b), Codes(a));
      BeforeIrreflexive(Codes(a));
    }
  }

  lemma LeqAntisymmetric(a: string, b: string)
    requires Leq(a, b) && Leq(b, a)
    ensures a == b
  {
    BeforeTotal(Codes(a), Codes(b));
    assert forall i | 0 <= i < |a| :: Codes(a)[i] == Codes(b)[i];
  }

  lemma LeqTransitive(a: string, b: string, c: string)
    requires Leq(a, b) && Leq(b, c)
    ensures Leq(a, c)
  {
    if Before(Codes(c), Codes(a)) {
      BeforeTotal(Codes(a), Codes(b));
      if Before(Codes(a), Codes(b)) {
        BeforeTransitive(Codes(c), Codes(a), Codes(b));
      }
    }
  }

  function Least(s: seq<string>): (m: string)
    requires s != []
    ensures m in s && forall x | x in s :: Leq(m, x)
  {
    if |s| == 1 then
      LeqTotal(s[0], s[0]);
      s[0]
    else
      var m := Least(s[1..]);
      LeqTotal(s[0], m);
      if Leq(s[0], m) then
        LeqTotal(s[0], s[0]);
        assert forall x | x in s[1..] :: Leq(s[0], x) by {
          forall x | x in s[1..] ensures Leq(s[0], x) { LeqTransitive(s[0], m, x); }
        }
        s[0]
      else m
  }

  // ---------------------------------------------------------------- the binding graph

  type Bindings = map<string, string>

  function Next(m: Bindings, x: string): string {
    if x in m then m[x] else x
  }

  function Iterate(m: Bindings, x: string, n: nat): string
    decreases n
  {
    if n == 0 then x else Iterate(m, Next(m, x), n - 1)
  }

  lemma {:induction false} IterateAdd(m: Bindings, x: string, i: nat, j: nat)
    ensures Iterate(m, x, i + j) == Iterate(m, Iterate(m, x, i), j)
    decreases i
  {
    if i > 0 {
      IterateAdd(m, Next(m, x), i - 1, j);
    }
  }

  predicate Edge(m: Bindings, x: string, y: string) {
    (x in m && m[x] == y) || (y in m && m[y] == x)
  }

  ghost predicate Path(m: Bindings, p: seq<string>, a: string, b: string) {
    p != [] && p[0] == a && p[|p| - 1] == b && forall k | 0 <= k < |p| - 1 :: Edge(m, p[k], p[k + 1])
  }

  /** Two addresses are joined when binding edges, taken in either direction, lead from one to
      the other. */
  ghost predicate Joined(m: Bindings, a: string, b: string) {
    exists p :: Path(m, p, a, b)
  }

  /** Following bindings from both addresses leads to a common one. */
  ghost predicate Meet(m: Bindings, a: string, b: string) {
    exists i: nat, j: nat :: Iterate(m, a, i) == Iterate(m, b, j)
  }

  lemma MeetAt(m: Bindings, a: string, b: string, i: nat, j: nat)
    requires Iterate(m, a, i) == Iterate(m, b, j)
    ensures Meet(m, a, b)
  {
  }

  lemma MeetTransitive(m: Bindings, a: string, b: string, c: string)
    requires Meet(m, a, b) && Meet(m, b, c)
    ensures Meet(m, a, c)
  {
    var i: nat, j: nat :| Iterate(m, a, i) == Iterate(m, b, j);
    var k: nat, l: nat :| Iterate(m, b, k) == Iterate(m, c, l);
    IterateAdd(m, a, i, k);
    IterateAdd(m, b, j, k);
    IterateAdd(m, b, k, j);
    IterateAdd(m, c, l, j);
    MeetAt(m, a, c, i + k, l + j);
  }

  lemma {:induction false} PathMeets(m: Bindings, p: seq<string>, a: string, b: string)
    requires Path(m, p, a, b)
    ensures Meet(m, a, b)
    decreases |p|
  {
    if |p| == 1 {
      MeetAt(m, a, b, 0, 0);
    } else {
      assert Edge(m, p[0], p[1]);
      assert Iterate(m, a, 1) == Next(m, a) && Iterate(m, p[1], 1) == Next(m, p[1]);
      if a in m && m[a] == p[1] {
        MeetAt(m, a, p[1], 1, 0);
      } else {
        MeetAt(m, a, p[1], 0, 1);
      }
      forall k | 0 <= k < |p[1..]| - 1
        ensures Edge(m, p[1..][k], p[1..][k + 1])
      {
        assert Edge(m, p[k + 1], p[k + 2]);
      }
      PathMeets(m, p[1..], p[1], b);
      MeetTransitive(m, a, p[1], b);
    }
  }

  lemma {:induction false} WalkPath(m: Bindings, a: string, n: nat) returns (p: seq<string>)
    ensures Path(m, p, a, Iterate(m, a, n))
    decreases n
  {
    if n == 0 {
      p := [a];
    } else {
      p := WalkPath(m, Next(m, a), n - 1);
      if a in m {
        var q := [a] + p;
        forall k | 0 <= k < |q| - 1
          ensures Edge(m, q[k], q[k + 1])
        {
          if k > 0 { assert Edge(m, p[k - 1], p[k]); }
        }
        p := q;
      }
    }
  }

  lemma JoinPaths(m: Bindings, p: seq<string>, q: seq<string>, a: string, b: string, c: string)
    requires Path(m, p, a, c) && Path(m, q, b, c)
    ensures Joined(m, a, b)
  {
    var back := seq(|q|, i requires 0 <= i < |q| => q[|q| - 1 - i]);
    var whole := p + back[1..];
    forall k | 0 <= k < |whole| - 1
      ensures Edge(m, whole[k], whole[k + 1])
    {
      if k < |p| - 1 {
        assert Edge(m, p[k], p[k + 1]);
      } else {
        var i := |q| - 1 - (k - (|p| - 1));
        assert Edge(m, q[i - 1], q[i]);
        assert whole[k] == q[i] && whole[k + 1] == q[i - 1];
      }
    }
    assert Path(m, whole, a, b);
  }

  /** The undirected notion and the walk-based one are the same. */
  lemma JoinedIsMeet(m: Bindings, a: string, b: string)
    ensures Joined(m, a, b) <==> Meet(m, a, b)
  {
    if Joined(m, a, b) {
      var p :| Path(m, p, a, b);
      PathMeets(m, p, a, b);
    }
    if Meet(m, a, b) {
      var i: nat, j: nat :| Iterate(m, a, i) == Iterate(m, b, j);
      var p := WalkPath(m, a, i);
      var q := WalkPath(m, b, j);
      JoinPaths(m, p, q, a, b, Iterate(m, a, i));
    }
  }

  // ---------------------------------------------------------------- roots

  /** The representative of an address: reached from it, on a cycle of the graph, and least there. */
  ghost predicate IsRoot(m: Bindings, a: string, r: string) {
    (exists i: nat :: Iterate(m, a, i) == r) &&
    (exists p: nat :: 0 < p && Iterate(m, r, p) == r) &&
    forall k: nat :: Leq(r, Iterate(m, r, k))
  }

  lemma {:induction false} Periodic(m: Bindings, x: string, p: nat, n: nat)
    requires 0 < p && Iterate(m, x, p) == x
    ensures n <= n * p && Iterate(m, x, n * p) == x
  {
    if n > 0 {
      Periodic(m, x, p, n - 1);
      assert n * p == p + (n - 1) * p;
      IterateAdd(m, x, p, (n - 1) * p);
    }
  }

  /** From anywhere that meets a cycle, each address of the cycle is reached. */
  lemma CycleReached(m: Bindings, r: string, s: string) returns (k: nat)
    requires Meet(m, r, s) && exists p: nat :: 0 < p && Iterate(m, s, p) == s
    ensures Iterate(m, r, k) == s
  {
    var x: nat, y: nat :| Iterate(m, r, x) == Iterate(m, s, y);
    var p: nat :| 0 < p && Iterate(m, s, p) == s;
    Periodic(m, s, p, y);
    k := x + (y * p - y);
    IterateAdd(m, r, x, y * p - y);
    IterateAdd(m, s, y, y * p - y);
  }

  /** Addresses have the same representative exactly when they meet. */
  lemma RootsAgree(m: Bindings, a: string, r: string, b: string, s: string)
    requires IsRoot(m, a, r) && IsRoot(m, b, s)
    ensures r == s <==> Meet(m, a, b)
  {
    var i: nat :| Iterate(m, a, i) == r;
    var j: nat :| Iterate(m, b, j) == s;
    MeetAt(m, a, r, i, 0);
    MeetAt(m, r, a, 0, i);
    MeetAt(m, b, s, j, 0);
    MeetAt(m, s, b, 0, j);
    if r == s {
      MeetTransitive(m, a, r, b);
    }
    if Meet(m, a, b) {
      MeetTransitive(m, r, a, b);
      MeetTransitive(m, r, b, s);
      var x: nat, y: nat :| Iterate(m, r, x) == Iterate(m, s, y);
      MeetAt(m, s, r, y, x);
      var k := CycleReached(m, r, s);
      var l := CycleReached(m, s, r);
      assert Leq(r, Iterate(m, r, k)) && Leq(s, Iterate(m, s, l));
      LeqAntisymmetric(r, s);
    }
  }

  function IndexOf(path: seq<string>, x: string): (i: nat)
    requires x in path
    ensures i < |path| && path[i] == x && x !in path[..i]
  {
    if path[0] == x then 0 else 1 + IndexOf(path[1..], x)
  }

  predicate Leaves(m: Bindings, x: string) {
    x in m && m[x] != x
  }

  /** The walk is the first `|path|` iterates of `start`, all different. */
  ghost predicate Walked(m: Bindings, start: string, path: seq<string>, current: string) {
    && current == Iterate(m, start, |path|)
    && (forall k | 0 <= k < |path| :: path[k] == Iterate(m, start, k) && Leaves(m, path[k]))
    && (forall k, l | 0 <= k < l < |path| :: path[k] != path[l])
  }

  lemma WalkStep(m: Bindings, start: string, path: seq<string>, current: string)
    requires Walked(m, start, path, current) && Leaves(m, current) && current !in path
    ensures Walked(m, start, path + [current], m[current])
  {
    IterateAdd(m, start, |path|, 1);
    assert Iterate(m, current, 1) == Next(m, current);
  }

  ghost function Unseen(m: Bindings, path: seq<string>): set<string> {
    m.Keys - (set x | x in path)
  }

  /** Where the walk ends: at an address without a further binding, or at the least address of
      the cycle it has closed. */
  ghost function Walk(m: Bindings, path: seq<string>, current: string): string
    decreases Unseen(m, path)
  {
    if !Leaves(m, current) then current
    else if current in path then Least(path[IndexOf(path, current)..])
    else
      assert current in Unseen(m, path) && current !in Unseen(m, path + [current]);
      Walk(m, path + [current], m[current])
  }

  ghost function Root(m: Bindings, a: string): string {
    Walk(m, [], Lower(a))
  }

  lemma {:induction false} StaysPut(m: Bindings, x: string, k: nat)
    requires !Leaves(m, x)
    ensures Iterate(m, x, k) == x
  {
    if k > 0 {
      StaysPut(m, x, k - 1);
    }
  }

  /** Every later address of a closed walk lies on its cycle. */
  lemma {:induction false} CycleCloses(m: Bindings, start: string, path: seq<string>, current: string, i: nat, k: nat)
    requires Walked(m, start, path, current) && i < |path| && path[i] == current
    ensures Iterate(m, current, k) in path[i..]
  {
    if k == 0 {
      assert path[i..][0] == current;
    } else {
      CycleCloses(m, start, path, current, i, k - 1);
      IterateAdd(m, current, k - 1, 1);
      var x := Iterate(m, current, k - 1);
      var j :| 0 <= j < |path[i..]| && path[i..][j] == x;
      assert Iterate(m, x, 1) == Next(m, x);
      assert path[i + j] == Iterate(m, start, i + j);
      IterateAdd(m, start, i + j, 1);
      if i + j + 1 < |path| {
        assert path[i..][j + 1] == path[i + j + 1];
      } else {
        assert path[i..][0] == current;
      }
    }
  }

  /** `r` sits `j` steps into a cycle of length `period` that `current` closes. */
  lemma OnCycle(m: Bindings, current: string, r: string, j: nat, period: nat)
    requires Iterate(m, current, period) == current && Iterate(m, current, j) == r
    ensures Iterate(m, r, period) == r
  {
    IterateAdd(m, current, j, period);
    IterateAdd(m, current, period, j);
  }

  lemma LeastOfCycle(m: Bindings, start: string, path: seq<string>, current: string, i: nat, j: nat, k: nat)
    requires Walked(m, start, path, current) && i < |path| && path[i] == current
    requires Iterate(m, current, j) == Least(path[i..])
    ensures Leq(Least(path[i..]), Iterate(m, Least(path[i..]), k))
  {
    IterateAdd(m, current, j, k);
    CycleCloses(m, start, path, current, i, j + k);
  }

  lemma ClosedCycleRoot(m: Bindings, start: string, path: seq<string>, current: string)
    requires Walked(m, start, path, current) && current in path
    ensures IsRoot(m, start, Least(path[IndexOf(path, current)..]))
  {
    hide Iterate, Leq, Least;
    var i := IndexOf(path, current);
    var r := Least(path[i..]);
    var j :| 0 <= j < |path[i..]| && path[i..][j] == r;
    assert Iterate(m, start, i + j) == r;
    var period := |path| - i;
    IterateAdd(m, start, i, j);
    IterateAdd(m, start, i, period);
    OnCycle(m, current, r, j, period);
    assert 0 < period;
    forall k: nat
      ensures Leq(r, Iterate(m, r, k))
    {
      LeastOfCycle(m, start, path, current, i, j, k);
    }
  }

  lemma {:induction false} WalkEndsAtRoot(m: Bindings, start: string, path: seq<string>, current: string)
    requires Walked(m, start, path, current)
    ensures IsRoot(m, start, Walk(m, path, current))
    decreases Unseen(m, path)
  {
    if !Leaves(m, current) {
      forall k: nat
        ensures Iterate(m, current, k) == current && Leq(current, current)
      {
        StaysPut(m, current, k);
        LeqTotal(current, current);
      }
      assert Iterate(m, current, 1) == current;
    } else if current in path {
      ClosedCycleRoot(m, start, path, current);
    } else {
      WalkStep(m, start, path, current);
      assert current in Unseen(m, path) && current !in Unseen(m, path + [current]);
      WalkEndsAtRoot(m, start, path + [current], m[current]);
    }
  }

  /** The roots of two addresses are equal exactly when bindings join them: sharing a known
      controller is the connectivity of the binding graph, hence an equivalence. */
  lemma SameRootIsJoined(m: Bindings, a: string, b: string)
    ensures Root(m, a) == Root(m, b) <==> Joined(m, Lower(a), Lower(b))
  {
    WalkEndsAtRoot(m, Lower(a), [], Lower(a));
    WalkEndsAtRoot(m, Lower(b), [], Lower(b));
    RootsAgree(m, Lower(a), Root(m, a), Lower(b), Root(m, b));
    JoinedIsMeet(m, Lower(a), Lower(b));
  }

  /** The loop of `root`, with its position table and its path. */
  method FindRoot(value: string, bindings: Bindings) returns (root: string)
    ensures root == Root(bindings, value)
  {
    var current := Lower(value);
    var positions: map<string, nat> := map[];
    var path: seq<string> := [];
    while current in bindings && bindings[current] != current
      invariant Walk(bindings, path, current) == Root(bindings, value)
      invariant positions.Keys == set x | x in path
      invariant forall k | 0 <= k < |path| :: positions[path[k]] == k
      decreases Unseen(bindings, path)
    {
      if current in positions {
        assert path[IndexOf(path, current)] == current;
        return Least(path[positions[current]..]);
      }
      assert current in Unseen(bindings, path) && current !in Unseen(bindings, path + [current]);
      positions := positions[current := |path|];
      path := path + [current];
      current := bindings[current];
    }
    return current;
  }

  method SameKnownController(a: string, b: string, bindings: Bindings) returns (same: bool)
    ensures same <==> Joined(bindings, Lower(a), Lower(b))
    ensures same <==> Root(bindings, a) == Root(bindings, b)
  {
    var x := FindRoot(a, bindings);
    var y := FindRoot(b, bindings);
    SameRootIsJoined(bindings, a, b);
    return x == y;
  }

  // ---------------------------------------------------------------- reading the bindings

  const ZERO := "0x0000000000000000000000000000000000000000"
  const MAX_DEPTH := 32

  /** Ownership as the contract has it; the zero address means nobody. */
  function Owned(owners: map<string, string>): (m: Bindings) {
    map x | x in owners && Lower(owners[x]) != ZERO :: Lower(owners[x])
  }

  function LowerAll(addresses: seq<string>): seq<string> {
    if addresses == [] then [] else [Lower(addresses[0])] + LowerAll(addresses[1..])
  }

  lemma {:induction false} LowerAllHas(addresses: seq<string>, a: string)
    requires a in addresses
    ensures Lower(a) in LowerAll(addresses)
  {
    if a != addresses[0] {
      LowerAllHas(addresses[1..], a);
    }
  }

  /** What has been read agrees with the contract, and every owner found is read or still due. */
  ghost predicate ReadSoFar(full: Bindings, bindings: Bindings, seen: set<string>, due: set<string>) {
    && bindings.Keys == seen * full.Keys
    && (forall x | x in bindings :: bindings[x] == full[x] && (full[x] in seen || full[x] in due))
  }

  /** `x` is `d` owners away from one of the addresses, every one on the way being bound. */
  ghost predicate ChainTo(full: Bindings, start: seq<string>, x: string, d: nat) {
    exists a :: a in start && Iterate(full, a, d) == x && Bound(full, a, d)
  }

  ghost predicate Bound(full: Bindings, a: string, d: nat) {
    forall k: nat | k < d :: Iterate(full, a, k) in full
  }

  /** `x` is fewer than `d` owners away from one of the addresses. */
  ghost predicate Within(full: Bindings, start: seq<string>, x: string, d: nat) {
    exists a, k: nat :: a in start && k < d && Iterate(full, a, k) == x
  }

  ghost predicate Reached(full: Bindings, start: seq<string>, x: string) {
    exists a, k: nat :: a in start && Iterate(full, a, k) == x
  }

  lemma ChainStarts(full: Bindings, start: seq<string>, a: string)
    requires a in start
    ensures ChainTo(full, start, a, 0)
  {
    assert Iterate(full, a, 0) == a && Bound(full, a, 0);
  }

  lemma ChainNext(full: Bindings, start: seq<string>, x: string, d: nat)
    requires ChainTo(full, start, x, d) && x in full
    ensures ChainTo(full, start, full[x], d + 1)
  {
    var a :| a in start && Iterate(full, a, d) == x && Bound(full, a, d);
    IterateAdd(full, a, d, 1);
    assert Iterate(full, x, 1) == Next(full, x);
    assert Bound(full, a, d + 1);
  }

  lemma ChainIsWithin(full: Bindings, start: seq<string>, x: string, d: nat)
    requires ChainTo(full, start, x, d)
    ensures Within(full, start, x, d + 1)
  {
  }

  /** Addresses read so far are near, and those still due end a chain as long as the rounds made. */
  ghost predicate Round(full: Bindings, start: seq<string>, seen: set<string>, due: seq<string>, d: nat) {
    (forall x | x in seen :: Within(full, start, x, d)) && forall x | x in due :: ChainTo(full, start, x, d)
  }

  lemma RoundBegins(full: Bindings, start: seq<string>)
    ensures Round(full, start, {}, start, 0)
  {
    forall x | x in start
      ensures ChainTo(full, start, x, 0)
    {
      ChainStarts(full, start, x);
    }
  }

  lemma RoundDeepens(full: Bindings, start: seq<string>, seen: set<string>, due: seq<string>, d: nat)
    requires Round(full, start, seen, due, d)
    ensures Round(full, start, seen, [], d + 1)
  {
    forall x | x in seen
      ensures Within(full, start, x, d + 1)
    {
      var a, k: nat :| a in start && k < d && Iterate(full, a, k) == x;
    }
  }

  /** One more address of a round is read. */
  lemma RoundReads(full: Bindings, start: seq<string>, seen: set<string>, next: seq<string>, x: string, d: nat)
    requires Round(full, start, seen, next, d + 1) && ChainTo(full, start, x, d)
    ensures Round(full, start, seen + {x}, next, d + 1)
    ensures x in full ==> Round(full, start, seen + {x}, next + [full[x]], d + 1)
  {
    ChainIsWithin(full, start, x, d);
    if x in full {
      ChainNext(full, start, x, d);
    }
  }

  /** One round of reads. */
  method ReadRound(owners: map<string, string>, before: Bindings, read: set<string>, pending: seq<string>, reliable: bool,
                   ghost start: seq<string>, ghost depth: nat)
      returns (r: Result<(Bindings, set<string>, seq<string>)>)
    requires ReadSoFar(Owned(owners), before, read, set x | x in pending) && Round(Owned(owners), start, read, pending, depth)
    ensures !r.Crashed? && (reliable ==> r.Ok?)
    ensures r.Ok? ==> ReadSoFar(Owned(owners), r.value.0, r.value.1, set x | x in r.value.2)
    ensures r.Ok? ==> Round(Owned(owners), start, r.value.1, r.value.2, depth + 1)
    ensures r.Ok? ==> read <= r.value.1 && forall x | x in pending :: x in r.value.1
  {
    hide Round, ChainTo;
    ghost var full := Owned(owners);
    var bindings, seen, next := before, read, [];
    RoundDeepens(full, start, read, pending, depth);
    for i := 0 to |pending|
      invariant ReadSoFar(full, bindings, seen, (set x | x in pending[i..]) + (set x | x in next))
      invariant Round(full, start, seen, next, depth + 1)
      invariant read <= seen && forall x | x in pending[..i] :: x in seen
    {
      var address := pending[i];
      assert pending[i..] == [address] + pending[i + 1..];
      assert pending[..i + 1] == pending[..i] + [address];
      if address !in seen {
        var failed: bool := *;
        if failed && !reliable {
          return Threw;
        }
        DueEndsChain(full, start, read, pending, depth, address);
        RoundReads(full, start, seen, next, address, depth);
        seen := seen + {address};
        if address in owners && Lower(owners[address]) != ZERO {
          var owner := Lower(owners[address]);
          bindings := bindings[address := owner];
          if owner !in seen {
            next := next + [owner];
          }
        }
      }
    }
    assert pending[..|pending|] == pending && pending[|pending|..] == [];
    return Ok((bindings, seen, next));
  }

  lemma DueEndsChain(full: Bindings, start: seq<string>, seen: set<string>, due: seq<string>, d: nat, x: string)
    requires Round(full, start, seen, due, d) && x in due
    ensures ChainTo(full, start, x, d)
  {
  }

  /** Addresses already read are skipped. The reader returns exactly what is bound on the way from
      the given addresses. Unless a read fails it returns, or some address has at least as many
      owners above it as there are rounds; it never returns when an address is that far away only. */
  method ReadControllerBindings(owners: map<string, string>, addresses: seq<string>, reliable: bool) returns (r: Result<Bindings>)
    ensures !r.Crashed?
    ensures r.Ok? ==> forall a, b | a in addresses && b in addresses ::
              Joined(r.value, Lower(a), Lower(b)) <==> Joined(Owned(owners), Lower(a), Lower(b))
    ensures r.Ok? ==> forall x :: x in r.value <==> x in Owned(owners) && Reached(Owned(owners), LowerAll(addresses), x)
    ensures r.Ok? ==> forall x | x in r.value :: r.value[x] == Owned(owners)[x]
    ensures reliable && !r.Ok? ==> exists a :: a in LowerAll(addresses) && Bound(Owned(owners), a, MAX_DEPTH)
    ensures r.Ok? ==> forall x | Reached(Owned(owners), LowerAll(addresses), x) :: Within(Owned(owners), LowerAll(addresses), x, MAX_DEPTH)
  {
    hide Round, ChainTo, Within, Reached, ReadSoFar, Joined, Owned;
    ghost var full := Owned(owners);
    var bindings: Bindings := map[];
    var seen: set<string> := {};
    var pending := LowerAll(addresses);
    ghost var start := pending;
    var depth := 0;
    RoundBegins(full, start);
    NothingRead(full, pending);
    while pending != [] && depth < MAX_DEPTH
      invariant depth <= MAX_DEPTH
      invariant ReadSoFar(full, bindings, seen, set x | x in pending)
      invariant Round(full, start, seen, pending, depth)
      invariant forall x | x in start :: x in seen || x in pending
      decreases MAX_DEPTH - depth
    {
      var round :- ReadRound(owners, bindings, seen, pending, reliable, start, depth);
      bindings, seen, pending := round.0, round.1, round.2;
      depth := depth + 1;
    }
    if pending != [] {
      PendingIsDeep(full, start, seen, pending, depth);
      return Threw;
    }
    assert (set x | x in pending) == {};
    AllRead(full, bindings, seen, start, depth);
    JoinedAsRead(full, bindings, seen, addresses);
    return Ok(bindings);
  }

  lemma NothingRead(full: Bindings, pending: seq<string>)
    ensures ReadSoFar(full, map[], {}, set x | x in pending)
  {
  }

  lemma PendingIsDeep(full: Bindings, start: seq<string>, seen: set<string>, due: seq<string>, d: nat)
    requires Round(full, start, seen, due, d) && due != []
    ensures exists a :: a in start && Bound(full, a, d)
  {
    assert due[0] in due;
  }

  lemma {:induction false} ReachedIsRead(full: Bindings, bindings: Bindings, seen: set<string>, x: string, n: nat)
    requires ReadSoFar(full, bindings, seen, {}) && x in seen
    ensures Iterate(full, x, n) in seen
    decreases n
  {
    if n > 0 {
      assert Next(full, x) in seen;
      ReachedIsRead(full, bindings, seen, Next(full, x), n - 1);
    }
  }

  lemma WithinIsReached(full: Bindings, start: seq<string>, x: string, d: nat)
    requires Within(full, start, x, d)
    ensures Reached(full, start, x) && (d <= MAX_DEPTH ==> Within(full, start, x, MAX_DEPTH))
  {
    var a, k: nat :| a in start && k < d && Iterate(full, a, k) == x;
  }

  lemma ReachedIsSeen(full: Bindings, bindings: Bindings, seen: set<string>, start: seq<string>, x: string)
    requires ReadSoFar(full, bindings, seen, {}) && (forall a | a in start :: a in seen) && Reached(full, start, x)
    ensures x in seen
  {
    var a, k: nat :| a in start && Iterate(full, a, k) == x;
    ReachedIsRead(full, bindings, seen, a, k);
  }

  lemma SeenIsWithin(full: Bindings, start: seq<string>, seen: set<string>, d: nat, x: string)
    requires Round(full, start, seen, [], d) && x in seen
    ensures Within(full, start, x, d)
  {
  }

  lemma BoundIsRead(full: Bindings, bindings: Bindings, seen: set<string>)
    requires ReadSoFar(full, bindings, seen, {})
    ensures forall x :: x in bindings <==> x in seen && x in full
    ensures forall x | x in bindings :: bindings[x] == full[x]
  {
    forall x
      ensures x in bindings <==> x in seen && x in full
    {
      assert x in bindings <==> x in bindings.Keys;
    }
  }

  /** With nothing due, exactly the reachable addresses have been read, and all of them are near. */
  lemma AllRead(full: Bindings, bindings: Bindings, seen: set<string>, start: seq<string>, d: nat)
    requires ReadSoFar(full, bindings, seen, {}) && Round(full, start, seen, [], d) && d <= MAX_DEPTH
    requires forall x | x in start :: x in seen
    ensures forall x :: x in bindings <==> x in full && Reached(full, start, x)
    ensures forall x | x in bindings :: bindings[x] == full[x]
    ensures forall x | Reached(full, start, x) :: Within(full, start, x, MAX_DEPTH)
  {
    hide Round, ReadSoFar, Reached, Within;
    BoundIsRead(full, bindings, seen);
    forall x | x in seen
      ensures Reached(full, start, x) && Within(full, start, x, MAX_DEPTH)
    {
      SeenIsWithin(full, start, seen, d, x);
      WithinIsReached(full, start, x, d);
    }
    forall x | Reached(full, start, x)
      ensures x in seen
    {
      ReachedIsSeen(full, bindings, seen, start, x);
    }
  }

  lemma JoinedAsRead(full: Bindings, bindings: Bindings, seen: set<string>, addresses: seq<string>)
    requires ReadSoFar(full, bindings, seen, {}) && forall x | x in LowerAll(addresses) :: x in seen
    ensures forall a, b | a in addresses && b in addresses :: Joined(bindings, Lower(a), Lower(b)) <==> Joined(full, Lower(a), Lower(b))
  {
    forall a, b | a in addresses && b in addresses
      ensures Joined(bindings, Lower(a), Lower(b)) <==> Joined(full, Lower(a), Lower(b))
    {
      LowerAllHas(addresses, a);
      LowerAllHas(addresses, b);
      ReadSuffices(full, bindings, seen, Lower(a), Lower(b));
    }
  }

  lemma {:induction false} SameWalk(full: Bindings, bindings: Bindings, seen: set<string>, x: string, n: nat)
    requires ReadSoFar(full, bindings, seen, {}) && x in seen
    ensures Iterate(bindings, x, n) == Iterate(full, x, n)
    decreases n
  {
    if n > 0 {
      assert Next(bindings, x) == Next(full, x) && Next(full, x) in seen;
      SameWalk(full, bindings, seen, Next(full, x), n - 1);
    }
  }

  /** On what was read, controllers are shared exactly as on the full ownership function. */
  lemma ReadSuffices(full: Bindings, bindings: Bindings, seen: set<string>, a: string, b: string)
    requires ReadSoFar(full, bindings, seen, {}) && a in seen && b in seen
    ensures Joined(bindings, a, b) <==> Joined(full, a, b)
  {
    JoinedIsMeet(bindings, a, b);
    JoinedIsMeet(full, a, b);
    forall i: nat, j: nat
      ensures Iterate(bindings, a, i) == Iterate(full, a, i) && Iterate(bindings, b, j) == Iterate(full, b, j)
    {
      SameWalk(full, bindings, seen, a, i);
      SameWalk(full, bindings, seen, b, j);
    }
  }
}
