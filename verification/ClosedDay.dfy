/** Prices of closed days: what a finished day said stays said, whatever is registered later. */
module ClosedDay {
  import opened Effects
  import opened Ownership
  import PriceIndex

  datatype Category = Data | Compute | Inference | Verification | Storage

  const CATEGORIES: seq<Category> := [Data, Compute, Inference, Verification, Storage]

  datatype Service = Service(hash: string, seller: string, category: Category, unitHash: string, quantity: int,
                             unitPrice: int, endpointHash: string, registeredAt: int, transactionHash: string)

  // ---------------------------------------------------------------- registered quotes

  predicate ValidTime(t: int) {
    0 <= t <= MAX_SAFE_INTEGER
  }

  predicate ValidQuote(s: Service) {
    ValidTime(s.registeredAt) && s.quantity > 0 && s.unitPrice > 0
  }

  /** Times the language can count and something offered for something, and one content per hash. */
  ghost predicate Consistent(services: seq<Service>) {
    (forall i | 0 <= i < |services| ::
       0 <= services[i].registeredAt <= 9007199254740991 && services[i].quantity > 0 && services[i].unitPrice > 0) &&
    (forall i, j | 0 <= i < j < |services| && services[i].hash == services[j].hash :: services[i] == services[j])
  }

  ghost predicate Seen(services: seq<Service>, hash: string) {
    exists i | 0 <= i < |services| :: services[i].hash == hash
  }

  /** Each service once, where it first appears. */
  ghost function FirstSeen(services: seq<Service>): seq<Service> {
    if services == [] then []
    else
      var rest, last := services[..|services| - 1], services[|services| - 1];
      FirstSeen(rest) + if Seen(rest, last.hash) then [] else [last]
  }

  function Until(services: seq<Service>, asOf: int): seq<Service> {
    if services == [] then []
    else
      var last := services[|services| - 1];
      Until(services[..|services| - 1], asOf) + if last.registeredAt <= asOf then [last] else []
  }

  ghost predicate Indexed(seen: map<string, Service>, services: seq<Service>) {
    && (forall h | h in seen :: seen[h] in services && seen[h].hash == h)
    && (forall i | 0 <= i < |services| :: services[i].hash in seen && seen[services[i].hash] == services[i])
  }

  lemma IndexedStep(seen: map<string, Service>, before: seq<Service>, s: Service)
    requires Indexed(seen, before)
    ensures s.hash in seen <==> Seen(before, s.hash)
    ensures Consistent(before + [s]) <==> Consistent(before) && ValidQuote(s) && (s.hash in seen ==> seen[s.hash] == s)
    ensures Consistent(before + [s]) ==> Indexed(seen[s.hash := s], before + [s])
  {
    var after := before + [s];
    assert forall i | 0 <= i < |before| :: after[i] == before[i];
    assert after[|before|] == s;
    if s.hash in seen {
      var i :| 0 <= i < |before| && before[i] == seen[s.hash];
      assert after[i].hash == s.hash;
    }
  }

  lemma {:induction false} ConsistentPrefix(services: seq<Service>, n: nat)
    requires n <= |services| && Consistent(services)
    ensures Consistent(services[..n])
  {
  }

  method Collect(input: seq<Service>, asOf: int) returns (r: Result<seq<Service>>)
    ensures !r.Crashed? && (r.Ok? <==> Consistent(input))
    ensures r.Ok? ==> r.value == Until(FirstSeen(input), asOf)
  {
    hide Consistent, Seen, Indexed, FirstSeen, Until, ValidTime;
    var seen: map<string, Service> := map[];
    var services: seq<Service> := [];
    NothingCollected(asOf);
    for i := 0 to |input|
      invariant Consistent(input[..i]) && Indexed(seen, input[..i])
      invariant services == Until(FirstSeen(input[..i]), asOf)
    {
      var s := input[i];
      assert input[..i + 1] == input[..i] + [s];
      IndexedStep(seen, input[..i], s);
      CollectStep(input[..i], s, asOf);
      if !ValidQuote(s) || (s.hash in seen && seen[s.hash] != s) {
        if Consistent(input) {
          ConsistentPrefix(input, i + 1);
        }
        return Threw;
      }
      if s.hash !in seen && s.registeredAt <= asOf {
        services := services + [s];
      }
      seen := seen[s.hash := s];
    }
    assert input[..|input|] == input;
    return Ok(services);
  }

  lemma NothingCollected(asOf: int)
    ensures Until(FirstSeen([]), asOf) == [] && Consistent([]) && Indexed(map[], [])
  {
  }

  lemma CollectStep(before: seq<Service>, s: Service, asOf: int)
    ensures Until(FirstSeen(before + [s]), asOf) ==
            Until(FirstSeen(before), asOf) + if !Seen(before, s.hash) && s.registeredAt <= asOf then [s] else []
  {
    assert (before + [s])[..|before|] == before;
    var f := FirstSeen(before);
    assert (f + [s])[..|f|] == f;
    assert f + [] == f;
  }

  // ---------------------------------------------------------------- time order

  /** Behind everything registered no later. */
  function Insert(sorted: seq<Service>, s: Service): (r: seq<Service>) {
    if sorted == [] || sorted[|sorted| - 1].registeredAt <= s.registeredAt then sorted + [s]
    else Insert(sorted[..|sorted| - 1], s) + [sorted[|sorted| - 1]]
  }

  /** By time of registration; quotes of one second keep their order. */
  function ByTime(services: seq<Service>): seq<Service> {
    if services == [] then [] else Insert(ByTime(services[..|services| - 1]), services[|services| - 1])
  }

  ghost predicate InTime(services: seq<Service>) {
    forall i, j | 0 <= i < j < |services| :: services[i].registeredAt <= services[j].registeredAt
  }

  lemma {:induction false} InsertHas(sorted: seq<Service>, s: Service)
    ensures forall x :: x in Insert(sorted, s) <==> x == s || x in sorted
  {
    if sorted != [] && sorted[|sorted| - 1].registeredAt > s.registeredAt {
      InsertHas(sorted[..|sorted| - 1], s);
      assert sorted == sorted[..|sorted| - 1] + [sorted[|sorted| - 1]];
    }
  }

  lemma LastInTime(rest: seq<Service>, last: Service)
    requires InTime(rest) && forall x | x in rest :: x.registeredAt <= last.registeredAt
    ensures InTime(rest + [last])
  {
    forall i, j | 0 <= i < j < |rest + [last]|
      ensures (rest + [last])[i].registeredAt <= (rest + [last])[j].registeredAt
    {
      assert rest[i] in rest;
    }
  }

  lemma {:induction false} InsertKeeps(sorted: seq<Service>, s: Service)
    requires InTime(sorted)
    ensures InTime(Insert(sorted, s))
  {
    if sorted != [] {
      var rest, last := sorted[..|sorted| - 1], sorted[|sorted| - 1];
      assert forall x | x in rest :: x.registeredAt <= last.registeredAt;
      if last.registeredAt > s.registeredAt {
        InsertKeeps(rest, s);
        InsertHas(rest, s);
        LastInTime(Insert(rest, s), last);
      } else {
        LastInTime(sorted, s);
      }
    }
  }

  /** The same quotes, in time order. */
  lemma {:induction false} ByTimeSorts(services: seq<Service>)
    ensures InTime(ByTime(services)) && |ByTime(services)| == |services|
    ensures forall x :: x in ByTime(services) <==> x in services
  {
    if services != [] {
      var rest, last := services[..|services| - 1], services[|services| - 1];
      ByTimeSorts(rest);
      InsertKeeps(ByTime(rest), last);
      InsertHas(ByTime(rest), last);
      InsertLength(ByTime(rest), last);
      assert services == rest + [last];
    }
  }

  lemma InsertLength(sorted: seq<Service>, s: Service)
    ensures |Insert(sorted, s)| == |sorted| + 1
  {
  }

  lemma {:induction false} UntilHas(services: seq<Service>, asOf: int)
    ensures forall s :: s in Until(services, asOf) <==> s in services && s.registeredAt <= asOf
  {
    if services != [] {
      UntilHas(services[..|services| - 1], asOf);
      assert services == services[..|services| - 1] + [services[|services| - 1]];
    }
  }

  lemma {:induction false} UntilAppends(xs: seq<Service>, ys: seq<Service>, asOf: int)
    ensures Until(xs + ys, asOf) == Until(xs, asOf) + Until(ys, asOf)
  {
    if ys == [] {
      assert xs + ys == xs;
    } else {
      UntilAppends(xs, ys[..|ys| - 1], asOf);
      assert (xs + ys)[..|xs + ys| - 1] == xs + ys[..|ys| - 1];
    }
  }

  lemma {:induction false} UntilTwice(xs: seq<Service>, asOf: int, later: int)
    requires asOf <= later
    ensures Until(Until(xs, later), asOf) == Until(xs, asOf)
  {
    if xs != [] {
      var rest, last := xs[..|xs| - 1], xs[|xs| - 1];
      UntilTwice(rest, asOf, later);
      UntilAppends(Until(rest, later), [last], asOf);
      assert [last][..0] == [];
      assert Until(rest, later) + [] == Until(rest, later);
    }
  }

  lemma {:induction false} UntilAll(xs: seq<Service>, asOf: int)
    requires forall x | x in xs :: x.registeredAt <= asOf
    ensures Until(xs, asOf) == xs
  {
    if xs != [] {
      UntilAll(xs[..|xs| - 1], asOf);
      assert xs == xs[..|xs| - 1] + [xs[|xs| - 1]];
    }
  }

  lemma {:induction false} UntilInsert(sorted: seq<Service>, s: Service, asOf: int)
    requires InTime(sorted)
    ensures Until(Insert(sorted, s), asOf) == if s.registeredAt <= asOf then Insert(Until(sorted, asOf), s) else Until(sorted, asOf)
  {
    hide Until;
    if sorted == [] || sorted[|sorted| - 1].registeredAt <= s.registeredAt {
      UntilLast(sorted, s, asOf);
      if s.registeredAt <= asOf {
        UntilAll(sorted, asOf);
      }
    } else {
      var rest, last := sorted[..|sorted| - 1], sorted[|sorted| - 1];
      UntilInsert(rest, s, asOf);
      UntilLast(Insert(rest, s), last, asOf);
      UntilLast(rest, last, asOf);
      assert sorted == rest + [last];
      assert (Until(rest, asOf) + [last])[..|Until(rest, asOf)|] == Until(rest, asOf);
    }
  }

  lemma UntilLast(rest: seq<Service>, last: Service, asOf: int)
    ensures Until(rest + [last], asOf) == if last.registeredAt <= asOf then Until(rest, asOf) + [last] else Until(rest, asOf)
  {
    assert (rest + [last])[..|rest|] == rest;
  }

  /** Sorting and cutting off at a time commute. */
  lemma {:induction false} UntilSorts(xs: seq<Service>, asOf: int)
    ensures Until(ByTime(xs), asOf) == ByTime(Until(xs, asOf))
  {
    if xs != [] {
      var rest, last := xs[..|xs| - 1], xs[|xs| - 1];
      UntilSorts(rest, asOf);
      ByTimeSorts(rest);
      UntilInsert(ByTime(rest), last, asOf);
      assert (Until(rest, asOf) + [last])[..|Until(rest, asOf)|] == Until(rest, asOf);
      assert Until(rest, asOf) + [] == Until(rest, asOf);
    }
  }

  /** In time order, cutting off leaves a prefix. */
  lemma {:induction false} UntilIsPrefix(sorted: seq<Service>, asOf: int)
    requires InTime(sorted)
    ensures Until(sorted, asOf) <= sorted
    ensures forall k | |Until(sorted, asOf)| <= k < |sorted| :: sorted[k].registeredAt > asOf
  {
    if sorted != [] {
      var rest, last := sorted[..|sorted| - 1], sorted[|sorted| - 1];
      UntilIsPrefix(rest, asOf);
      if last.registeredAt <= asOf {
        UntilAll(sorted, asOf);
      }
    }
  }

  lemma {:induction false} LaterGoesBehind(p: seq<Service>, sorted: seq<Service>, s: Service, asOf: int)
    requires p <= sorted && (forall x | x in p :: x.registeredAt <= asOf) && asOf <= s.registeredAt
    requires forall k | |p| <= k < |sorted| :: asOf <= sorted[k].registeredAt
    ensures p <= Insert(sorted, s)
    ensures forall k | |p| <= k < |Insert(sorted, s)| :: asOf <= Insert(sorted, s)[k].registeredAt
  {
    InsertLength(sorted, s);
    if sorted != [] && sorted[|sorted| - 1].registeredAt > s.registeredAt {
      assert sorted[|sorted| - 1] !in p;
      LaterGoesBehind(p, sorted[..|sorted| - 1], s, asOf);
    }
  }

  lemma {:induction false} AppendedGoesBehind(xs: seq<Service>, ys: seq<Service>, asOf: int)
    requires (forall x | x in xs :: x.registeredAt <= asOf) && forall y | y in ys :: asOf <= y.registeredAt
    ensures ByTime(xs) <= ByTime(xs + ys)
    ensures forall k | |ByTime(xs)| <= k < |ByTime(xs + ys)| :: asOf <= ByTime(xs + ys)[k].registeredAt
  {
    if ys == [] {
      assert xs + ys == xs;
    } else {
      var rest := ys[..|ys| - 1];
      AppendedGoesBehind(xs, rest, asOf);
      assert (xs + ys)[..|xs + ys| - 1] == xs + rest;
      ByTimeSorts(xs);
      LaterGoesBehind(ByTime(xs), ByTime(xs + rest), ys[|ys| - 1], asOf);
    }
  }

  /** The quotes registered at one second, in their order. */
  ghost function At(services: seq<Service>, t: int): seq<Service> {
    if services == [] then []
    else
      var last := services[|services| - 1];
      At(services[..|services| - 1], t) + if last.registeredAt == t then [last] else []
  }

  lemma AtLast(rest: seq<Service>, last: Service, t: int)
    ensures At(rest + [last], t) == At(rest, t) + if last.registeredAt == t then [last] else []
  {
    assert (rest + [last])[..|rest|] == rest;
  }

  lemma {:induction false} InsertAt(sorted: seq<Service>, s: Service, t: int)
    requires InTime(sorted)
    ensures At(Insert(sorted, s), t) == At(sorted, t) + if s.registeredAt == t then [s] else []
  {
    hide At;
    if sorted == [] || sorted[|sorted| - 1].registeredAt <= s.registeredAt {
      AtLast(sorted, s, t);
    } else {
      var rest, last := sorted[..|sorted| - 1], sorted[|sorted| - 1];
      assert sorted == rest + [last];
      InsertAt(rest, s, t);
      AtLast(Insert(rest, s), last, t);
      AtLast(rest, last, t);
    }
  }

  /** Quotes of one second keep the order of their log positions. */
  lemma {:induction false} ByTimeIsStable(services: seq<Service>, t: int)
    ensures At(ByTime(services), t) == At(services, t)
  {
    if services != [] {
      var rest, last := services[..|services| - 1], services[|services| - 1];
      ByTimeIsStable(rest, t);
      ByTimeSorts(rest);
      InsertAt(ByTime(rest), last, t);
    }
  }

  // ---------------------------------------------------------------- families, baseline, latest

  function Position(quotes: seq<Service>, c: Category): (k: nat)
    ensures k <= |quotes| && (k < |quotes| ==> quotes[k].category == c)
    ensures forall i | 0 <= i < k :: quotes[i].category != c
  {
    if quotes == [] || quotes[0].category == c then 0 else 1 + Position(quotes[1..], c)
  }

  predicate Comparable(a: Service, b: Service) {
    a.category == b.category && Lower(a.seller) == Lower(b.seller) && Lower(a.unitHash) == Lower(b.unitHash) &&
    a.quantity == b.quantity && Lower(a.endpointHash) == Lower(b.endpointHash)
  }

  /** The last quote of a family before a time. */
  function Latest(quotes: seq<Service>, family: Service, before: int): Option<Service> {
    if quotes == [] then None
    else
      var last := quotes[|quotes| - 1];
      if Comparable(last, family) && last.registeredAt < before then Some(last)
      else Latest(quotes[..|quotes| - 1], family, before)
  }

  predicate Complete(quotes: seq<Service>) {
    forall i | 0 <= i < |CATEGORIES| :: Position(quotes, CATEGORIES[i]) < |quotes|
  }

  function Family(quotes: seq<Service>, c: Category): Service
    requires Complete(quotes)
  {
    CategoryKnown(c);
    quotes[Position(quotes, c)]
  }

  lemma CategoryKnown(c: Category)
    ensures exists i | 0 <= i < |CATEGORIES| :: CATEGORIES[i] == c
  {
    assert CATEGORIES[0] == Data && CATEGORIES[1] == Compute && CATEGORIES[2] == Inference &&
           CATEGORIES[3] == Verification && CATEGORIES[4] == Storage;
  }

  function Highest(quotes: seq<Service>, cs: seq<Category>): (k: int)
    ensures forall i | 0 <= i < |cs| :: Position(quotes, cs[i]) <= k
    ensures k == -1 || exists i | 0 <= i < |cs| :: Position(quotes, cs[i]) == k
  {
    if cs == [] then -1
    else
      var k, p := Highest(quotes, cs[..|cs| - 1]), Position(quotes, cs[|cs| - 1]);
      assert forall i | 0 <= i < |cs| - 1 :: cs[..|cs| - 1][i] == cs[i];
      if p > k then p else k
  }

  /** The quote that completed the basket. */
  function BaselinePosition(quotes: seq<Service>): (k: nat)
    requires Complete(quotes)
    ensures k < |quotes|
  {
    assert Position(quotes, CATEGORIES[0]) < |quotes|;
    Highest(quotes, CATEGORIES)
  }

  function BaselineAt(quotes: seq<Service>): Option<int> {
    if Complete(quotes) then Some(quotes[BaselinePosition(quotes)].registeredAt) else None
  }

  /** The price of a family when the basket was completed. */
  function Baseline(quotes: seq<Service>, c: Category): Option<Service>
    requires Complete(quotes)
  {
    var upTo := quotes[..BaselinePosition(quotes) + 1];
    Latest(upTo, Family(quotes, c), quotes[BaselinePosition(quotes)].registeredAt + 1)
  }

  datatype Snapshot = Snapshot(start: int, end: int, index: int, quotes: seq<Service>)

  const DAY := 86400

  /** A lookup that finds nothing throws. */
  function Quoted(quotes: seq<Service>, cs: seq<Category>, before: int): Result<seq<Service>>
    requires Complete(quotes)
  {
    if cs == [] then Ok([])
    else
      var head := Latest(quotes, Family(quotes, cs[0]), before);
      var rest := Quoted(quotes, cs[1..], before);
      if head.Some? && rest.Ok? then Ok([head.value] + rest.value) else Threw
  }

  function Baselines(quotes: seq<Service>, cs: seq<Category>): Result<seq<Service>>
    requires Complete(quotes)
  {
    if cs == [] then Ok([])
    else
      var head, rest := Baseline(quotes, cs[0]), Baselines(quotes, cs[1..]);
      if head.Some? && rest.Ok? then Ok([head.value] + rest.value) else Threw
  }

  /** Five families of equal weight. */
  function Basket(baselines: seq<Service>, current: seq<Service>): (cs: seq<PriceIndex.Component>)
    requires |baselines| == |current|
    ensures |cs| == |current|
  {
    seq(|current|, i requires 0 <= i < |current| =>
      PriceIndex.Component(current[i].hash, "USDC", 2000, baselines[i].unitPrice, Some(current[i].unitPrice)))
  }

  function ClosedDay(quotes: seq<Service>, end: int): Result<Option<Snapshot>> {
    var start := end - DAY;
    if start < 0 || BaselineAt(quotes).None? || BaselineAt(quotes).value >= start then Ok(None)
    else
      var baselines := Baselines(quotes, CATEGORIES);
      var current := Quoted(quotes, CATEGORIES, end);
      if baselines.Ok? && current.Ok? && |baselines.value| == |current.value| then
        Ok(Some(Snapshot(start, end, PriceIndex.Terms(Basket(baselines.value, current.value)) / PriceIndex.BPS, current.value)))
      else Threw
  }

  // ---------------------------------------------------------------- every lookup is defined

  lemma {:induction false} LatestFinds(quotes: seq<Service>, family: Service, before: int, k: nat)
    requires k < |quotes| && Comparable(quotes[k], family) && quotes[k].registeredAt < before
    ensures Latest(quotes, family, before).Some?
    ensures var s := Latest(quotes, family, before).value; s in quotes && Comparable(s, family) && s.registeredAt < before
  {
    hide Comparable;
    var last := quotes[|quotes| - 1];
    if !(Comparable(last, family) && last.registeredAt < before) {
      LatestFinds(quotes[..|quotes| - 1], family, before, k);
    }
  }

  /** The last comparable quote before the time, or there is none. */
  lemma {:induction false} LatestIsLast(quotes: seq<Service>, family: Service, before: int)
    ensures var l := Latest(quotes, family, before);
      if l.Some? then
        exists k :: 0 <= k < |quotes| && quotes[k] == l.value && Usable(quotes[k], family, before) &&
                    forall j | k < j < |quotes| :: !Usable(quotes[j], family, before)
      else forall j | 0 <= j < |quotes| :: !Usable(quotes[j], family, before)
  {
    hide Comparable;
    if quotes != [] {
      var rest, last := quotes[..|quotes| - 1], quotes[|quotes| - 1];
      LatestIsLast(rest, family, before);
      assert Usable(last, family, before) ==> quotes[|quotes| - 1] == last;
    }
  }

  ghost predicate Usable(s: Service, family: Service, before: int) {
    Comparable(s, family) && s.registeredAt < before
  }

  lemma {:induction false} PositionInPrefix(quotes: seq<Service>, n: nat, c: Category)
    requires n <= |quotes|
    ensures Position(quotes[..n], c) == if Position(quotes, c) < n then Position(quotes, c) else n
  {
    var p, q := Position(quotes[..n], c), Position(quotes, c);
    assert forall i | 0 <= i < n :: quotes[..n][i] == quotes[i];
    assert p < n ==> quotes[p].category == c;
  }

  /** The basket is complete with the baseline quote and not before it. */
  lemma BaselineCompletes(quotes: seq<Service>)
    requires Complete(quotes)
    ensures Complete(quotes[..BaselinePosition(quotes) + 1]) && !Complete(quotes[..BaselinePosition(quotes)])
  {
    hide Highest;
    var bp := BaselinePosition(quotes);
    forall i | 0 <= i < |CATEGORIES|
      ensures Position(quotes[..bp + 1], CATEGORIES[i]) <= bp
    {
      PositionInPrefix(quotes, bp + 1, CATEGORIES[i]);
    }
    assert Position(quotes, CATEGORIES[0]) <= bp;
    var i :| 0 <= i < |CATEGORIES| && Position(quotes, CATEGORIES[i]) == bp;
    PositionInPrefix(quotes, bp, CATEGORIES[i]);
  }

  lemma FamilyPosition(quotes: seq<Service>, c: Category)
    requires Complete(quotes)
    ensures Position(quotes, c) <= BaselinePosition(quotes) && Comparable(Family(quotes, c), Family(quotes, c))
  {
    CategoryKnown(c);
  }

  lemma {:induction false} QuotedDefined(quotes: seq<Service>, cs: seq<Category>, before: int)
    requires InTime(quotes) && Complete(quotes) && BaselineAt(quotes).value < before
    ensures Quoted(quotes, cs, before).Ok? && |Quoted(quotes, cs, before).value| == |cs|
    ensures forall s | s in Quoted(quotes, cs, before).value :: s in quotes
  {
    hide Comparable, Latest;
    if cs != [] {
      QuotedDefined(quotes, cs[1..], before);
      FamilyPosition(quotes, cs[0]);
      var k := Position(quotes, cs[0]);
      CategoryKnown(cs[0]);
      assert quotes[k].registeredAt <= quotes[BaselinePosition(quotes)].registeredAt;
      LatestFinds(quotes, Family(quotes, cs[0]), before, k);
    }
  }

  lemma {:induction false} BaselinesDefined(quotes: seq<Service>, cs: seq<Category>)
    requires InTime(quotes) && Complete(quotes)
    ensures Baselines(quotes, cs).Ok? && |Baselines(quotes, cs).value| == |cs|
    ensures forall s | s in Baselines(quotes, cs).value :: s in quotes
  {
    hide Comparable, Latest;
    if cs != [] {
      BaselinesDefined(quotes, cs[1..]);
      FamilyPosition(quotes, cs[0]);
      var k, bp := Position(quotes, cs[0]), BaselinePosition(quotes);
      CategoryKnown(cs[0]);
      assert quotes[k].registeredAt <= quotes[bp].registeredAt;
      LatestFinds(quotes[..bp + 1], Family(quotes, cs[0]), quotes[bp].registeredAt + 1, k);
    }
  }

  lemma {:induction false} EqualWeights(cs: seq<PriceIndex.Component>)
    requires forall i | 0 <= i < |cs| :: cs[i].weight == 2000
    ensures PriceIndex.Weights(cs) == 2000 * |cs|
  {
    if cs != [] {
      EqualWeights(cs[..|cs| - 1]);
    }
  }

  /** No closed day ever reads a missing quote, and its index is the exact one, floored by less than
      two basis points. */
  lemma ClosedDayDefined(quotes: seq<Service>, end: int)
    requires InTime(quotes) && forall s | s in quotes :: ValidQuote(s)
    ensures ClosedDay(quotes, end).Ok?
    ensures ClosedDay(quotes, end).value.Some? <==> 0 <= end - DAY && BaselineAt(quotes).Some? && BaselineAt(quotes).value < end - DAY
    ensures ClosedDay(quotes, end).value.Some? ==> Complete(quotes)
    ensures ClosedDay(quotes, end).value.Some? ==> Baselines(quotes, CATEGORIES).Ok? && Quoted(quotes, CATEGORIES, end).Ok?
    ensures ClosedDay(quotes, end).value.Some? ==> |Baselines(quotes, CATEGORIES).value| == |Quoted(quotes, CATEGORIES, end).value|
    ensures ClosedDay(quotes, end).value.Some? ==>
              var cs := Basket(Baselines(quotes, CATEGORIES).value, Quoted(quotes, CATEGORIES, end).value);
              var index := ClosedDay(quotes, end).value.value.index;
              PriceIndex.Priced(cs) && index as real <= PriceIndex.Exact(cs) < index as real + 2.0
  {
    hide Baselines, Quoted, BaselinePosition, InTime;
    if Complete(quotes) && BaselineAt(quotes).value < end - DAY {
      QuotedDefined(quotes, CATEGORIES, end);
      BaselinesDefined(quotes, CATEGORIES);
      var b, c := Baselines(quotes, CATEGORIES).value, Quoted(quotes, CATEGORIES, end).value;
      var cs := Basket(b, c);
      forall i | 0 <= i < |cs|
        ensures PriceIndex.Positive(cs[i])
      {
        assert b[i] in b && c[i] in c;
        assert ValidQuote(b[i]) && ValidQuote(c[i]);
      }
      EqualWeights(cs);
      PriceIndex.IndexIsClose(cs);
    }
  }

  // ---------------------------------------------------------------- what a closed day says

  /** One kind of offer: everything but the price and the time. */
  ghost function Offer(s: Service): (Category, string, string, int, string) {
    (s.category, Lower(s.seller), Lower(s.unitHash), s.quantity, Lower(s.endpointHash))
  }

  ghost predicate FirstOf(quotes: seq<Service>, c: Category, f: nat) {
    f < |quotes| && quotes[f].category == c && forall j | 0 <= j < f :: quotes[j].category != c
  }

  /** The last of the first `n` quotes that is the same offer, registered before a time. */
  ghost predicate LastOffer(quotes: seq<Service>, n: nat, offer: (Category, string, string, int, string), before: int, s: Service) {
    n <= |quotes| &&
    exists k: nat :: k < n && quotes[k] == s && Offer(s) == offer && s.registeredAt < before &&
                     forall j | k < j < n :: !(Offer(quotes[j]) == offer && quotes[j].registeredAt < before)
  }

  ghost predicate Offered(quotes: seq<Service>, c: Category, n: nat) {
    exists f: nat :: f <= n && FirstOf(quotes, c, f)
  }

  /** With quote `n` every category has been offered, and not before it. */
  ghost predicate Completes(quotes: seq<Service>, n: nat) {
    && n < |quotes|
    && (forall c: Category :: Offered(quotes, c, n))
    && (exists c: Category :: FirstOf(quotes, c, n))
  }

  /** Category `i` of a day: what its first offer cost last before the day ended, and what it cost when
      the basket was complete. */
  ghost predicate CategoryOf(quotes: seq<Service>, n: nat, end: int, c: Category, current: Service, baseline: Service) {
    n < |quotes| &&
    exists f: nat :: FirstOf(quotes, c, f) && LastOffer(quotes, |quotes|, Offer(quotes[f]), end, current) &&
                     LastOffer(quotes, n + 1, Offer(quotes[f]), quotes[n].registeredAt + 1, baseline)
  }

  ghost predicate DayOf(quotes: seq<Service>, n: nat, end: int, s: Snapshot, baselines: seq<Service>) {
    && s.start == end - 24 * 60 * 60 && s.end == end && |s.quotes| == 5 && |baselines| == 5
    && CategoryOf(quotes, n, end, Data, s.quotes[0], baselines[0])
    && CategoryOf(quotes, n, end, Compute, s.quotes[1], baselines[1])
    && CategoryOf(quotes, n, end, Inference, s.quotes[2], baselines[2])
    && CategoryOf(quotes, n, end, Verification, s.quotes[3], baselines[3])
    && CategoryOf(quotes, n, end, Storage, s.quotes[4], baselines[4])
    && (forall i | 0 <= i < 5 :: baselines[i].unitPrice > 0)
    && s.index as real <= EqualWeightIndex(baselines, s.quotes) < s.index as real + 2.0
  }

  /** The exact index in basis points: a fifth of every price relative to its baseline. */
  ghost function EqualWeightIndex(baselines: seq<Service>, current: seq<Service>): real
    requires |baselines| == |current| && forall i | 0 <= i < |baselines| :: baselines[i].unitPrice > 0
  {
    if current == [] then 0.0
    else
      EqualWeightIndex(baselines[..|baselines| - 1], current[..|current| - 1]) +
      2000.0 * current[|current| - 1].unitPrice as real / baselines[|baselines| - 1].unitPrice as real
  }

  lemma ComparableIsOffer(a: Service, b: Service)
    ensures Comparable(a, b) <==> Offer(a) == Offer(b)
  {
  }

  lemma LatestIsLastOffer(quotes: seq<Service>, n: nat, family: Service, before: int)
    requires n <= |quotes| && Latest(quotes[..n], family, before).Some?
    ensures LastOffer(quotes, n, Offer(family), before, Latest(quotes[..n], family, before).value)
  {
    hide Comparable, Offer;
    LatestIsLast(quotes[..n], family, before);
    forall s { ComparableIsOffer(s, family); }
    assert forall j | 0 <= j < n :: quotes[..n][j] == quotes[j];
  }

  lemma PositionIsFirst(quotes: seq<Service>, c: Category, f: nat)
    ensures FirstOf(quotes, c, f) <==> f < |quotes| && Position(quotes, c) == f
  {
  }

  lemma BaselineIsCompletion(quotes: seq<Service>, n: nat)
    ensures Completes(quotes, n) <==> Complete(quotes) && BaselinePosition(quotes) == n
  {
    hide Position, Highest;
    forall c, f: nat { PositionIsFirst(quotes, c, f); }
    if Complete(quotes) {
      forall c: Category
        ensures Offered(quotes, c, BaselinePosition(quotes))
      {
        CategoryKnown(c);
        assert FirstOf(quotes, c, Position(quotes, c)) && Position(quotes, c) <= BaselinePosition(quotes);
      }
      var i :| 0 <= i < |CATEGORIES| && Position(quotes, CATEGORIES[i]) == BaselinePosition(quotes);
      assert FirstOf(quotes, CATEGORIES[i], BaselinePosition(quotes));
    }
    if Completes(quotes, n) {
      forall i | 0 <= i < |CATEGORIES|
        ensures Position(quotes, CATEGORIES[i]) <= n
      {
        assert Offered(quotes, CATEGORIES[i], n);
        var f: nat :| f <= n && FirstOf(quotes, CATEGORIES[i], f);
      }
      assert Complete(quotes);
      var c :| FirstOf(quotes, c, n);
      CategoryKnown(c);
      var i :| 0 <= i < |CATEGORIES| && CATEGORIES[i] == c;
      assert Position(quotes, CATEGORIES[i]) == n;
    }
  }

  lemma {:induction false} QuotedAt(quotes: seq<Service>, cs: seq<Category>, before: int, i: nat)
    requires Complete(quotes) && Quoted(quotes, cs, before).Ok? && i < |cs| == |Quoted(quotes, cs, before).value|
    ensures Latest(quotes, Family(quotes, cs[i]), before) == Some(Quoted(quotes, cs, before).value[i])
  {
    hide Latest, Family, Complete;
    if i > 0 {
      QuotedAt(quotes, cs[1..], before, i - 1);
    }
  }

  lemma {:induction false} BaselinesAt(quotes: seq<Service>, cs: seq<Category>, i: nat)
    requires Complete(quotes) && Baselines(quotes, cs).Ok? && i < |cs| == |Baselines(quotes, cs).value|
    ensures Baseline(quotes, cs[i]) == Some(Baselines(quotes, cs).value[i])
  {
    hide Baseline, Complete;
    if i > 0 {
      BaselinesAt(quotes, cs[1..], i - 1);
    }
  }

  lemma CategoryQuoted(quotes: seq<Service>, end: int, i: nat)
    requires Complete(quotes) && i < |CATEGORIES|
    requires Quoted(quotes, CATEGORIES, end).Ok? && |Quoted(quotes, CATEGORIES, end).value| == |CATEGORIES|
    requires Baselines(quotes, CATEGORIES).Ok? && |Baselines(quotes, CATEGORIES).value| == |CATEGORIES|
    ensures CategoryOf(quotes, BaselinePosition(quotes), end, CATEGORIES[i], Quoted(quotes, CATEGORIES, end).value[i], Baselines(quotes, CATEGORIES).value[i])
  {
    hide Latest, Complete, BaselinePosition, Quoted, Baselines, Offer, LastOffer;
    var c, n := CATEGORIES[i], BaselinePosition(quotes);
    QuotedAt(quotes, CATEGORIES, end, i);
    BaselinesAt(quotes, CATEGORIES, i);
    PositionIsFirst(quotes, c, Position(quotes, c));
    FamilyPosition(quotes, c);
    assert quotes[..|quotes|] == quotes;
    LatestIsLastOffer(quotes, |quotes|, Family(quotes, c), end);
    LatestIsLastOffer(quotes, n + 1, Family(quotes, c), quotes[n].registeredAt + 1);
  }

  lemma {:induction false} BasketExact(baselines: seq<Service>, current: seq<Service>)
    requires |baselines| == |current| && forall i | 0 <= i < |baselines| :: baselines[i].unitPrice > 0
    requires forall i | 0 <= i < |Basket(baselines, current)| :: PriceIndex.Positive(Basket(baselines, current)[i])
    requires PriceIndex.Priced(Basket(baselines, current))
    ensures PriceIndex.Exact(Basket(baselines, current)) == EqualWeightIndex(baselines, current)
  {
    if current != [] {
      var m := |current| - 1;
      var cs := Basket(baselines, current);
      assert Basket(baselines[..m], current[..m]) == cs[..m];
      BasketExact(baselines[..m], current[..m]);
    }
  }

  /** A day is closed once it began after the basket was complete, and then each category says the
      last price its first offer had before the day ended, whatever was quoted in between. */
  lemma ClosedDayMeaning(quotes: seq<Service>, end: int)
    requires InTime(quotes) && forall s | s in quotes :: ValidQuote(s)
    ensures ClosedDay(quotes, end).Ok?
    ensures ClosedDay(quotes, end).value.Some? <==>
              24 * 60 * 60 <= end && exists n: nat :: Completes(quotes, n) && quotes[n].registeredAt < end - 24 * 60 * 60
    ensures ClosedDay(quotes, end).value.Some? ==>
              exists n: nat, baselines :: Completes(quotes, n) && DayOf(quotes, n, end, ClosedDay(quotes, end).value.value, baselines)
  {
    hide BaselinePosition, Completes, InTime, CategoryOf, Quoted, Baselines, Basket;
    ClosedDayDefined(quotes, end);
    forall n: nat { BaselineIsCompletion(quotes, n); }
    if ClosedDay(quotes, end).value.Some? {
      var n := BaselinePosition(quotes);
      assert Completes(quotes, n);
      var b, c := Baselines(quotes, CATEGORIES).value, Quoted(quotes, CATEGORIES, end).value;
      QuotedDefined(quotes, CATEGORIES, end);
      BaselinesDefined(quotes, CATEGORIES);
      forall i | 0 <= i < |CATEGORIES|
        ensures CategoryOf(quotes, n, end, CATEGORIES[i], c[i], b[i]) && b[i].unitPrice > 0
      {
        CategoryQuoted(quotes, end, i);
        assert b[i] in b;
      }
      BasketExact(b, c);
      assert DayOf(quotes, n, end, ClosedDay(quotes, end).value.value, b);
    }
  }

  // ---------------------------------------------------------------- history only grows at its end

  lemma {:induction false} PositionStays(quotes: seq<Service>, more: seq<Service>, c: Category)
    requires Position(quotes, c) < |quotes|
    ensures Position(quotes + more, c) == Position(quotes, c)
  {
    if quotes[0].category != c {
      PositionStays(quotes[1..], more, c);
      assert (quotes + more)[1..] == quotes[1..] + more;
    }
  }

  lemma {:induction false} HighestStays(quotes: seq<Service>, more: seq<Service>, cs: seq<Category>)
    requires forall i | 0 <= i < |cs| :: Position(quotes, cs[i]) < |quotes|
    ensures Highest(quotes + more, cs) == Highest(quotes, cs)
  {
    if cs != [] {
      HighestStays(quotes, more, cs[..|cs| - 1]);
      PositionStays(quotes, more, cs[|cs| - 1]);
    }
  }

  lemma {:induction false} LatestStays(quotes: seq<Service>, more: seq<Service>, family: Service, before: int)
    requires forall s | s in more :: before <= s.registeredAt
    ensures Latest(quotes + more, family, before) == Latest(quotes, family, before)
    decreases |more|
  {
    hide Comparable;
    if more == [] {
      assert quotes + more == quotes;
    } else {
      LatestStays(quotes, more[..|more| - 1], family, before);
      assert (quotes + more)[..|quotes + more| - 1] == quotes + more[..|more| - 1];
      assert more[|more| - 1] in more;
    }
  }

  /** Once the basket is complete, its families and baseline stay. */
  lemma BasketStays(quotes: seq<Service>, more: seq<Service>)
    requires Complete(quotes)
    ensures Complete(quotes + more) && BaselinePosition(quotes + more) == BaselinePosition(quotes)
    ensures BaselineAt(quotes + more) == BaselineAt(quotes)
    ensures forall c :: Family(quotes + more, c) == Family(quotes, c)
  {
    hide Highest, Position;
    forall i | 0 <= i < |CATEGORIES|
      ensures Position(quotes + more, CATEGORIES[i]) < |quotes|
    {
      PositionStays(quotes, more, CATEGORIES[i]);
    }
    HighestStays(quotes, more, CATEGORIES);
    forall c
      ensures Family(quotes + more, c) == Family(quotes, c)
    {
      CategoryKnown(c);
      PositionStays(quotes, more, c);
    }
  }

  lemma {:induction false} QuotedStays(quotes: seq<Service>, more: seq<Service>, cs: seq<Category>, before: int)
    requires Complete(quotes) && Complete(quotes + more) && forall c :: Family(quotes + more, c) == Family(quotes, c)
    requires forall s | s in more :: before <= s.registeredAt
    ensures Quoted(quotes + more, cs, before) == Quoted(quotes, cs, before)
  {
    hide Latest, Family, Complete;
    if cs != [] {
      QuotedStays(quotes, more, cs[1..], before);
      LatestStays(quotes, more, Family(quotes, cs[0]), before);
    }
  }

  lemma {:induction false} BaselinesStay(quotes: seq<Service>, more: seq<Service>, cs: seq<Category>)
    requires Complete(quotes) && Complete(quotes + more) && BaselinePosition(quotes + more) == BaselinePosition(quotes)
    requires forall c :: Family(quotes + more, c) == Family(quotes, c)
    ensures Baselines(quotes + more, cs) == Baselines(quotes, cs)
  {
    hide Latest, Family, Complete, BaselinePosition;
    if cs != [] {
      BaselinesStay(quotes, more, cs[1..]);
      var n := BaselinePosition(quotes) + 1;
      assert (quotes + more)[..n] == quotes[..n];
    }
  }

  lemma ClosedDayKept(quotes: seq<Service>, more: seq<Service>, asOf: int, end: int)
    requires end <= asOf && forall s | s in more :: asOf <= s.registeredAt
    requires InTime(quotes + more)
    ensures ClosedDay(quotes + more, end) == ClosedDay(quotes, end)
  {
    hide Quoted, Baselines, Highest, InTime, Family;
    if Complete(quotes) {
      BasketStays(quotes, more);
      QuotedStays(quotes, more, CATEGORIES, end);
      BaselinesStay(quotes, more, CATEGORIES);
    } else if Complete(quotes + more) {
      CompletedLater(quotes, more, asOf);
    }
  }

  lemma CompletedLater(quotes: seq<Service>, more: seq<Service>, asOf: int)
    requires !Complete(quotes) && Complete(quotes + more) && InTime(quotes + more)
    requires forall s | s in more :: asOf <= s.registeredAt
    ensures asOf <= BaselineAt(quotes + more).value
  {
    var i :| 0 <= i < |CATEGORIES| && Position(quotes, CATEGORIES[i]) == |quotes|;
    var all := quotes + more;
    var p, bp := Position(all, CATEGORIES[i]), BaselinePosition(all);
    assert p <= bp;
    assert forall k | 0 <= k < |quotes| :: all[k] == quotes[k];
    assert all[p] == more[p - |quotes|];
    assert all[p].registeredAt <= all[bp].registeredAt;
  }

  /** The quotes of a snapshot, as `Collect` and the time order give them. */
  ghost function Quotes(input: seq<Service>, asOf: int): seq<Service> {
    ByTime(Until(FirstSeen(input), asOf))
  }

  lemma {:induction false} SeenPrefix(input: seq<Service>, more: seq<Service>)
    ensures FirstSeen(input) <= FirstSeen(input + more)
    ensures forall s | s in FirstSeen(input + more)[|FirstSeen(input)|..] :: s in more
  {
    if more == [] {
      assert input + more == input;
    } else {
      var rest := more[..|more| - 1];
      SeenPrefix(input, rest);
      assert (input + more)[..|input + more| - 1] == input + rest;
      var tail := FirstSeen(input + rest)[|FirstSeen(input)|..];
      assert more == rest + [more[|more| - 1]];
    }
  }

  /** A later snapshot of a longer history extends the quotes of the earlier one behind their end. */
  lemma QuotesExtend(input: seq<Service>, more: seq<Service>, asOf: int, later: int)
    requires asOf <= later && forall s | s in more :: asOf <= s.registeredAt
    ensures Quotes(input, asOf) <= Quotes(input + more, later)
    ensures forall s | s in Quotes(input + more, later)[|Quotes(input, asOf)|..] :: asOf <= s.registeredAt
    ensures InTime(Quotes(input + more, later))
  {
    hide FirstSeen, Until, ByTime;
    var xs, all := FirstSeen(input), FirstSeen(input + more);
    SeenPrefix(input, more);
    var ys := all[|xs|..];
    assert all == xs + ys;
    var q := ByTime(Until(all, later));
    ByTimeSorts(Until(all, later));
    UntilSorts(Until(all, later), asOf);
    UntilTwice(all, asOf, later);
    UntilAppends(xs, ys, asOf);
    UntilIsPrefix(q, asOf);
    UntilHas(xs, asOf);
    UntilHas(ys, asOf);
    AppendedGoesBehind(Until(xs, asOf), Until(ys, asOf), asOf);
    var p, mid := Quotes(input, asOf), ByTime(Until(xs, asOf) + Until(ys, asOf));
    assert p <= mid <= q;
    forall s | s in q[|p|..]
      ensures asOf <= s.registeredAt
    {
      var k :| 0 <= k < |q[|p|..]| && q[|p|..][k] == s;
      if |p| + k < |mid| {
        assert mid[|p| + k] == s;
      }
    }
  }

  /** For every day that ended by a snapshot, index, quotes or absence stay what the snapshot said,
      however the history grows by registrations no earlier than it. */
  lemma ClosedDaysStay(input: seq<Service>, more: seq<Service>, asOf: int, later: int, end: int)
    requires asOf <= later && end <= asOf && forall s | s in more :: asOf <= s.registeredAt
    ensures ClosedDay(Quotes(input + more, later), end) == ClosedDay(Quotes(input, asOf), end)
  {
    hide ClosedDay, Quotes, InTime;
    QuotesExtend(input, more, asOf, later);
    var p, q := Quotes(input, asOf), Quotes(input + more, later);
    assert q == p + q[|p|..];
    ClosedDayKept(p, q[|p|..], asOf, end);
  }
}
