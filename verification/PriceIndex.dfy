/** The fixed-basket price index in basis points, floored per component and once more in total. */
module PriceIndex {
  import opened Effects

  datatype Component = Component(id: string, asset: string, weight: int, baseline: int, current: Option<int>)

  const BPS := 10000

  function Comparable(basket: seq<Component>, asset: string): (cs: seq<Component>)
    ensures forall c :: c in cs <==> c in basket && c.asset == asset
  {
    if basket == [] then []
    else
      var last := basket[|basket| - 1];
      Comparable(basket[..|basket| - 1], asset) + if last.asset == asset then [last] else []
  }

  function Weights(cs: seq<Component>): int {
    if cs == [] then 0 else Weights(cs[..|cs| - 1]) + cs[|cs| - 1].weight
  }

  ghost predicate Positive(c: Component) {
    c.weight > 0 && c.baseline > 0 && (c.current.Some? ==> c.current.value > 0)
  }

  ghost predicate ValidBasket(cs: seq<Component>) {
    && (forall i, j | 0 <= i < j < |cs| :: cs[i].id != cs[j].id)
    && (forall i | 0 <= i < |cs| :: Positive(cs[i]))
    && (cs != [] ==> Weights(cs) == BPS)
  }

  /** A basket component with a price for every use. */
  ghost predicate Priced(cs: seq<Component>) {
    forall i | 0 <= i < |cs| :: Positive(cs[i]) && cs[i].current.Some?
  }

  function Term(c: Component): int {
    if c.baseline > 0 && c.current.Some? then c.weight * c.current.value * BPS / c.baseline else 0
  }

  function Terms(cs: seq<Component>): int {
    if cs == [] then 0 else Terms(cs[..|cs| - 1]) + Term(cs[|cs| - 1])
  }

  function Index(cs: seq<Component>): int
    requires Priced(cs)
  {
    Terms(cs) / BPS
  }

  /** The index of one asset's part of a basket, where every component has a current price. */
  method Arpi(basket: seq<Component>, asset: string) returns (r: Result<Option<int>>)
    ensures !r.Crashed? && (r.Ok? <==> ValidBasket(Comparable(basket, asset)))
    ensures r.Ok? ==> (r.value.Some? <==> Comparable(basket, asset) != [] && Priced(Comparable(basket, asset)))
    ensures r.Ok? && r.value.Some? ==> r.value.value == Index(Comparable(basket, asset))
  {
    hide Comparable, Weights, Term;
    var cs := Comparable(basket, asset);
    var ids: set<string> := {};
    for i := 0 to |cs|
      invariant forall k :: k in ids <==> exists j | 0 <= j < i :: cs[j].id == k
      invariant forall j, k | 0 <= j < k < i :: cs[j].id != cs[k].id
      invariant forall j | 0 <= j < i :: Positive(cs[j])
    {
      var p := cs[i];
      if p.id in ids || p.weight <= 0 || p.baseline <= 0 || (p.current.Some? && p.current.value <= 0) {
        return Threw;
      }
      ids := ids + {p.id};
    }
    if cs != [] && Weights(cs) != BPS {
      return Threw;
    }
    if cs == [] || exists c | c in cs :: c.current.None? {
      return Ok(None);
    }
    assert forall i | 0 <= i < |cs| :: cs[i] in cs;
    return Ok(Some(Index(cs)));
  }

  // ---------------------------------------------------------------- the exact index

  /** Weighted price ratios without any rounding, in basis points. */
  ghost function Exact(cs: seq<Component>): real
    requires Priced(cs)
  {
    if cs == [] then 0.0
    else
      var c := cs[|cs| - 1];
      Exact(cs[..|cs| - 1]) + (c.weight * c.current.value) as real / c.baseline as real
  }

  lemma FloorsBelow(x: int, d: int)
    requires d > 0
    ensures (x / d) as real <= x as real / d as real < (x / d) as real + 1.0
  {
    var q := x / d;
    assert q * d <= x < (q + 1) * d;
    MultiplyReal(q, d, x);
    MultiplyReal(q + 1, d, x);
  }

  lemma MultiplyReal(q: int, d: int, x: int)
    requires d > 0
    ensures q * d <= x ==> q as real <= x as real / d as real
    ensures x < q * d ==> x as real / d as real < q as real
  {
    var r := x as real / d as real;
    assert r * d as real == x as real;
    assert (q * d) as real == q as real * d as real;
    if q * d <= x && r < q as real {
      Strictly(r, q as real, d as real);
    }
    if x < q * d && q as real <= r {
      Weakly(q as real, r, d as real);
    }
  }

  lemma Strictly(a: real, b: real, d: real)
    requires a < b && d > 0.0
    ensures a * d < b * d
  {
  }

  lemma Weakly(a: real, b: real, d: real)
    requires a <= b && d > 0.0
    ensures a * d <= b * d
  {
  }

  lemma TermBounds(c: Component)
    requires c.baseline > 0 && c.current.Some?
    ensures var exact := 10000.0 * ((c.weight * c.current.value) as real / c.baseline as real);
      Term(c) as real <= exact < Term(c) as real + 1.0
  {
    var x := c.weight * c.current.value;
    FloorsBelow(x * BPS, c.baseline);
    assert (x * BPS) as real == 10000.0 * x as real;
    ScaleDivides(10000.0, x as real, c.baseline as real);
  }

  lemma ScaleDivides(k: real, x: real, d: real)
    requires d > 0.0
    ensures k * x / d == k * (x / d)
  {
  }

  lemma {:induction false} TermsBound(cs: seq<Component>)
    requires Priced(cs)
    ensures Terms(cs) as real <= 10000.0 * Exact(cs)
    ensures cs != [] ==> 10000.0 * Exact(cs) < Terms(cs) as real + |cs| as real
  {
    if cs != [] {
      TermsBound(cs[..|cs| - 1]);
      TermBounds(cs[|cs| - 1]);
    }
  }

  lemma {:induction false} CountIsBounded(cs: seq<Component>)
    requires forall i | 0 <= i < |cs| :: cs[i].weight > 0
    ensures |cs| <= Weights(cs)
  {
    if cs != [] {
      CountIsBounded(cs[..|cs| - 1]);
    }
  }

  /** The two floors together lose less than two basis points. */
  lemma IndexIsClose(cs: seq<Component>)
    requires Priced(cs) && Weights(cs) == BPS
    ensures Index(cs) as real <= Exact(cs) < Index(cs) as real + 2.0
  {
    TermsBound(cs);
    CountIsBounded(cs);
    var t := Terms(cs);
    assert BPS * Index(cs) <= t < BPS * Index(cs) + BPS;
    assert t as real < 10000.0 * Index(cs) as real + 10000.0;
  }

  // ---------------------------------------------------------------- laws

  lemma DivideMonotone(x: int, y: int, d: int)
    requires x <= y && d > 0
    ensures x / d <= y / d
  {
    if x / d > y / d {
      assert d * (x / d) <= x;
      assert y < d * (y / d) + d;
      ScaleUp(y / d + 1, x / d, d);
    }
  }

  lemma ScaleUp(a: int, b: int, d: int)
    requires a <= b && d > 0
    ensures d * a <= d * b
  {
  }

  /** The same component at a price no lower. */
  ghost predicate Dearer(c: Component, d: Component) {
    c.current.Some? && d.current.Some? && d == c.(current := d.current) && c.current.value <= d.current.value
  }

  /** No price rise lowers the index. */
  lemma {:induction false} TermsMonotone(cs: seq<Component>, ds: seq<Component>)
    requires Priced(cs) && Priced(ds) && |cs| == |ds| && forall i | 0 <= i < |cs| :: Dearer(cs[i], ds[i])
    ensures Terms(cs) <= Terms(ds)
  {
    if cs != [] {
      TermsMonotone(cs[..|cs| - 1], ds[..|ds| - 1]);
      var c, d := cs[|cs| - 1], ds[|ds| - 1];
      assert Dearer(c, d);
      ScaleUp(c.current.value, d.current.value, c.weight);
      DivideMonotone(c.weight * c.current.value * BPS, c.weight * d.current.value * BPS, c.baseline);
    }
  }

  lemma IndexMonotone(cs: seq<Component>, ds: seq<Component>)
    requires Priced(cs) && Priced(ds) && |cs| == |ds| && forall i | 0 <= i < |cs| :: Dearer(cs[i], ds[i])
    ensures Index(cs) <= Index(ds)
  {
    TermsMonotone(cs, ds);
    DivideMonotone(Terms(cs), Terms(ds), BPS);
  }

  lemma {:induction false} TermsAppend(cs: seq<Component>, ds: seq<Component>)
    ensures Terms(cs + ds) == Terms(cs) + Terms(ds)
  {
    if ds == [] {
      assert cs + ds == cs;
    } else {
      TermsAppend(cs, ds[..|ds| - 1]);
      assert (cs + ds)[..|cs + ds| - 1] == cs + ds[..|ds| - 1];
    }
  }

  lemma TermsWithout(cs: seq<Component>, k: nat)
    requires k < |cs|
    ensures Terms(cs) == Terms(cs[..k] + cs[k + 1..]) + Term(cs[k])
  {
    hide Term, Terms;
    assert cs == cs[..k] + ([cs[k]] + cs[k + 1..]);
    TermsAppend(cs[..k], [cs[k]] + cs[k + 1..]);
    TermsAppend([cs[k]], cs[k + 1..]);
    TermsAppend(cs[..k], cs[k + 1..]);
    OneTerm(cs[k]);
  }

  lemma OneTerm(c: Component)
    ensures Terms([c]) == Term(c)
  {
    assert [c][..0] == [];
  }

  /** The order of the components does not matter. */
  lemma {:induction false} TermsUnordered(cs: seq<Component>, ds: seq<Component>)
    requires multiset(cs) == multiset(ds)
    ensures Terms(cs) == Terms(ds)
    decreases |cs|
  {
    hide Term;
    if cs == [] {
      assert |multiset(ds)| == 0;
    } else {
      var last := |cs| - 1;
      assert cs == cs[..last] + [cs[last]];
      assert cs[last] in multiset(ds);
      var k :| 0 <= k < |ds| && ds[k] == cs[last];
      var rest := ds[..k] + ds[k + 1..];
      TermsWithout(ds, k);
      assert ds == ds[..k] + [ds[k]] + ds[k + 1..];
      assert multiset(rest) == multiset(ds) - multiset{ds[k]};
      TermsUnordered(cs[..last], rest);
    }
  }

  lemma IndexUnordered(cs: seq<Component>, ds: seq<Component>)
    requires Priced(cs) && Priced(ds) && multiset(cs) == multiset(ds)
    ensures Index(cs) == Index(ds)
  {
    TermsUnordered(cs, ds);
  }

  lemma CancelBaseline(x: int, b: int)
    requires b > 0
    ensures x * b / b == x
  {
    var q := x * b / b;
    assert q * b <= x * b < (q + 1) * b;
    if q < x { ScaleUp(q + 1, x, b); } else if x < q { ScaleUp(x + 1, q, b); }
  }

  lemma {:induction false} TermsAtMultiple(cs: seq<Component>, k: int)
    requires Priced(cs) && forall i | 0 <= i < |cs| :: cs[i].current.value == k * cs[i].baseline
    ensures Terms(cs) == k * BPS * Weights(cs)
  {
    if cs != [] {
      TermsAtMultiple(cs[..|cs| - 1], k);
      var c := cs[|cs| - 1];
      var x := c.weight * k * BPS;
      assert c.weight * c.current.value * BPS == x * c.baseline by { Rearrange(c.weight, k, c.baseline); }
      CancelBaseline(x, c.baseline);
      assert k * BPS * (Weights(cs[..|cs| - 1]) + c.weight) == k * BPS * Weights(cs[..|cs| - 1]) + x by {
        Distribute(k, Weights(cs[..|cs| - 1]), c.weight);
      }
    }
  }

  lemma Rearrange(w: int, k: int, b: int)
    ensures w * (k * b) * BPS == w * k * BPS * b
  {
    assert w * (k * b) == (w * k) * b;
  }

  lemma Distribute(k: int, v: int, w: int)
    ensures k * BPS * (v + w) == k * BPS * v + w * k * BPS
  {
    assert k * (v + w) == k * v + k * w;
  }

  /** At `k` times the baseline the index is exactly `k` times 10000. */
  lemma IndexAtMultiple(cs: seq<Component>, k: int)
    requires cs != [] && ValidBasket(cs) && Priced(cs) && forall i | 0 <= i < |cs| :: cs[i].current.value == k * cs[i].baseline
    ensures Index(cs) == BPS * k
  {
    TermsAtMultiple(cs, k);
    assert Terms(cs) == (BPS * k) * BPS;
    CancelBaseline(BPS * k, BPS);
  }
}
