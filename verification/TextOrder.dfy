/** The order of the language's strings: code unit by code unit, a prefix first. */
module TextOrder {
  predicate Before(a: seq<nat>, b: seq<nat>) {
    b != [] && (a == [] || a[0] < b[0] || (a[0] == b[0] && Before(a[1..], b[1..])))
  }

  /** The order read off the code units: `a` is a proper beginning of `b`, or smaller where the two
      first differ. */
  ghost predicate Precedes(a: seq<nat>, b: seq<nat>) {
    || (|a| < |b| && b[..|a|] == a)
    || exists p: nat :: p < |a| && p < |b| && a[..p] == b[..p] && a[p] < b[p]
  }

  lemma {:induction false} BeforeIsPrecedes(a: seq<nat>, b: seq<nat>)
    ensures Before(a, b) <==> Precedes(a, b)
  {
    if a != [] && b != [] {
      if a[0] == b[0] {
        BeforeIsPrecedes(a[1..], b[1..]);
        TailPrecedes(a, b);
      } else if a[0] < b[0] {
        assert a[..0] == b[..0];
      } else {
        assert forall p: nat | 0 < p < |a| && p < |b| :: a[..p][0] == a[0] && b[..p][0] == b[0];
      }
    }
  }

  lemma TailPrecedes(a: seq<nat>, b: seq<nat>)
    requires a != [] && b != [] && a[0] == b[0]
    ensures Precedes(a, b) <==> Precedes(a[1..], b[1..])
  {
    assert a == [a[0]] + a[1..] && b == [b[0]] + b[1..];
    forall p: nat | p < |a[1..]| && p < |b[1..]|
      ensures a[..p + 1] == b[..p + 1] <==> a[1..][..p] == b[1..][..p]
      ensures a[p + 1] == a[1..][p] && b[p + 1] == b[1..][p]
    {
      assert a[..p + 1] == [a[0]] + a[1..][..p] && b[..p + 1] == [b[0]] + b[1..][..p];
      assert a[..p + 1][1..] == a[1..][..p] && b[..p + 1][1..] == b[1..][..p];
    }
    if |a| < |b| {
      assert b[..|a|] == [b[0]] + b[1..][..|a[1..]|];
      assert b[..|a|][1..] == b[1..][..|a[1..]|];
    }
    if Precedes(a, b) && !(|a| < |b| && b[..|a|] == a) {
      var p: nat :| p < |a| && p < |b| && a[..p] == b[..p] && a[p] < b[p];
      assert p > 0;
      assert a[1..][..p - 1] == b[1..][..p - 1];
    }
    if Precedes(a[1..], b[1..]) && !(|a[1..]| < |b[1..]| && b[1..][..|a[1..]|] == a[1..]) {
      var p: nat :| p < |a[1..]| && p < |b[1..]| && a[1..][..p] == b[1..][..p] && a[1..][p] < b[1..][p];
      assert a[..p + 1] == b[..p + 1];
    }
  }

  lemma {:induction false} BeforeTotal(a: seq<nat>, b: seq<nat>)
    ensures a == b || Before(a, b) || Before(b, a)
  {
    if a != [] && b != [] && a[0] == b[0] {
      BeforeTotal(a[1..], b[1..]);
      assert a == [a[0]] + a[1..] && b == [b[0]] + b[1..];
    }
  }

  lemma {:induction false} BeforeTransitive(a: seq<nat>, b: seq<nat>, c: seq<nat>)
    requires Before(a, b) && Before(b, c)
    ensures Before(a, c)
  {
    if a != [] && a[0] == b[0] == c[0] {
      BeforeTransitive(a[1..], b[1..], c[1..]);
    }
  }

  lemma {:induction false} BeforeIrreflexive(a: seq<nat>)
    ensures !Before(a, a)
  {
    if a != [] {
      BeforeIrreflexive(a[1..]);
    }
  }
}
