/** `projectRecovery`: reviews counted by controller, disputes and refunds by matched row. */
module Recovery {
  import opened Effects
  import opened Ownership

  datatype Order = Order(id: string, seller: string, payer: string, owner: string, transactionHash: string,
                         outputHash: Option<string>, delivered: bool, acknowledged: bool, sameOwner: bool)

  /** The order columns every evidence row carries. */
  datatype Context = Context(orderId: string, ownerAddress: string, payer: string, seller: string,
                             paymentHash: string, deliveredHash: Option<string>)
  datatype Review = Review(context: Context, reviewer: string, outputHash: string, passed: bool)
  datatype Refund = Refund(context: Context, amount: nat)

  datatype Reputation = Reputation(seller: string, verifiedReviews: nat, reviewedOrders: nat, eligibleOrders: nat,
                                   passedOrders: nat, conflictingOrders: nat, score: Option<nat>,
                                   disputes: nat, refunds: nat, refunded: nat)

  ghost predicate DistinctIds(orders: seq<Order>) {
    forall i, j | 0 <= i < j < |orders| :: orders[i].id != orders[j].id
  }

  predicate SameTerms(o: Order, c: Context) {
    o.id == c.orderId && o.transactionHash == c.paymentHash &&
    Lower(o.payer) == Lower(c.payer) && Lower(o.seller) == Lower(c.seller)
  }

  /** The order a row belongs to, if its payment, payer and seller agree. */
  function Match(orders: seq<Order>, c: Context): (r: Option<Order>)
    ensures r.Some? ==> r.value in orders && SameTerms(r.value, c)
  {
    if orders == [] then None
    else
      var last := orders[|orders| - 1];
      if last.id == c.orderId then (if SameTerms(last, c) then Some(last) else None)
      else Match(orders[..|orders| - 1], c)
  }

  lemma {:induction false} MatchIsSame(orders: seq<Order>, c: Context, o: Order)
    requires DistinctIds(orders) && o in orders
    ensures Match(orders, c) == Some(o) <==>
            o.id == c.orderId && o.transactionHash == c.paymentHash && Lower(o.payer) == Lower(c.payer) && Lower(o.seller) == Lower(c.seller)
  {
    var last := orders[|orders| - 1];
    if last == o {
      if Match(orders, c) == Some(o) { assert SameTerms(o, c); }
    } else {
      var i :| 0 <= i < |orders| && orders[i] == o;
      assert orders[..|orders| - 1][i] == o;
      if last.id != c.orderId {
        MatchIsSame(orders[..|orders| - 1], c, o);
      } else {
        assert orders[i].id != orders[|orders| - 1].id;
      }
    }
  }

  // ---------------------------------------------------------------- what counts

  ghost predicate Independent(o: Order, row: Review, m: Bindings) {
    Root(m, o.seller) != Root(m, row.reviewer) && Root(m, o.payer) != Root(m, row.reviewer) &&
    Root(m, o.owner) != Root(m, row.reviewer) && Root(m, row.context.ownerAddress) != Root(m, row.reviewer)
  }

  ghost predicate Counts(o: Order, row: Review, trust: set<string>, m: Bindings) {
    && !o.sameOwner && o.delivered && o.acknowledged
    && o.outputHash == Some(row.outputHash) && o.outputHash == row.context.deliveredHash
    && Lower(row.reviewer) in trust && Independent(o, row, m)
  }

  ghost predicate CountsFor(orders: seq<Order>, o: Order, row: Review, trust: set<string>, m: Bindings) {
    Match(orders, row.context) == Some(o) && Counts(o, row, trust, m)
  }

  /** The rows that count for an order, in the order they were read. */
  ghost function Group(orders: seq<Order>, reviews: seq<Review>, trust: set<string>, m: Bindings, o: Order): seq<Review> {
    if reviews == [] then []
    else
      var last := reviews[|reviews| - 1];
      Group(orders, reviews[..|reviews| - 1], trust, m, o) + if CountsFor(orders, o, last, trust, m) then [last] else []
  }

  /** The controllers behind a sequence of reviews. */
  ghost function Controllers(m: Bindings, rows: seq<Review>): set<string> {
    set row | row in rows :: Root(m, row.reviewer)
  }

  /** The same controllers straight from the evidence, without any order of rows. */
  ghost function EligibleControllers(orders: seq<Order>, reviews: multiset<Review>, trust: set<string>, m: Bindings, o: Order): set<string> {
    set row | row in reviews && CountsFor(orders, o, row, trust, m) :: Root(m, row.reviewer)
  }

  lemma {:induction false} GroupHas(orders: seq<Order>, reviews: seq<Review>, trust: set<string>, m: Bindings, o: Order, row: Review)
    ensures row in Group(orders, reviews, trust, m, o) <==> row in reviews && CountsFor(orders, o, row, trust, m)
  {
    if reviews != [] {
      GroupHas(orders, reviews[..|reviews| - 1], trust, m, o, row);
      assert reviews == reviews[..|reviews| - 1] + [reviews[|reviews| - 1]];
    }
  }

  /** Whatever the row order, an order's reviews are counted by the controllers behind them. */
  lemma GroupControllers(orders: seq<Order>, reviews: seq<Review>, trust: set<string>, m: Bindings, o: Order)
    ensures Controllers(m, Group(orders, reviews, trust, m, o)) == EligibleControllers(orders, multiset(reviews), trust, m, o)
  {
    forall row {
      GroupHas(orders, reviews, trust, m, o, row);
    }
  }

  method IsEligible(o: Order, row: Review, trust: set<string>, m: Bindings) returns (b: bool)
    ensures b <==> Counts(o, row, trust, m)
  {
    if o.sameOwner || !o.delivered || !o.acknowledged || o.outputHash != Some(row.outputHash) ||
       o.outputHash != row.context.deliveredHash || Lower(row.reviewer) !in trust {
      return false;
    }
    var seller := SameKnownController(o.seller, row.reviewer, m);
    var payer := SameKnownController(o.payer, row.reviewer, m);
    var owner := SameKnownController(o.owner, row.reviewer, m);
    var account := SameKnownController(row.context.ownerAddress, row.reviewer, m);
    return !seller && !payer && !owner && !account;
  }

  method IsKnown(unique: seq<Review>, row: Review, m: Bindings) returns (known: bool)
    ensures known <==> Root(m, row.reviewer) in Controllers(m, unique)
  {
    known := false;
    for k := 0 to |unique|
      invariant known <==> exists j | 0 <= j < k :: Root(m, unique[j].reviewer) == Root(m, row.reviewer)
    {
      var same := SameKnownController(unique[k].reviewer, row.reviewer, m);
      known := known || same;
    }
  }

  lemma OneMoreController(m: Bindings, rows: seq<Review>, row: Review)
    ensures Controllers(m, rows + [row]) == Controllers(m, rows) + {Root(m, row.reviewer)}
  {
  }

  /** One review per controller: later reviews of a controller already counted are skipped. */
  method CountControllers(rows: seq<Review>, m: Bindings) returns (n: nat)
    ensures n == |Controllers(m, rows)|
  {
    var unique: seq<Review> := [];
    for i := 0 to |rows|
      invariant Controllers(m, unique) == Controllers(m, rows[..i])
      invariant |unique| == |Controllers(m, unique)|
    {
      var known := IsKnown(unique, rows[i], m);
      assert rows[..i + 1] == rows[..i] + [rows[i]];
      OneMoreController(m, rows[..i], rows[i]);
      if !known {
        OneMoreController(m, unique, rows[i]);
        unique := unique + [rows[i]];
      }
    }
    assert rows[..|rows|] == rows;
    return |unique|;
  }

  // ---------------------------------------------------------------- per order, per seller

  datatype Evidence = Evidence(orders: seq<Order>, reviews: seq<Review>, disputes: seq<Context>, refunds: seq<Refund>,
                               trust: set<string>, bindings: Bindings)

  datatype Measure = VerifiedReviews | Reviewed | Eligible | Passed | Conflicting | Disputed | Refunded | RefundedAmount

  ghost function ReviewsOf(e: Evidence, o: Order): seq<Review> {
    Group(e.orders, e.reviews, e.trust, e.bindings, o)
  }

  ghost predicate Unanimous(rows: seq<Review>, passed: bool) {
    forall row | row in rows :: row.passed == passed
  }

  ghost function Disputes(orders: seq<Order>, rows: seq<Context>, o: Order): nat {
    if rows == [] then 0
    else Disputes(orders, rows[..|rows| - 1], o) + if Match(orders, rows[|rows| - 1]) == Some(o) then 1 else 0
  }

  /** How many refund rows belong to an order, and what they add up to. */
  ghost function Refunds(orders: seq<Order>, rows: seq<Refund>, o: Order): (nat, nat) {
    if rows == [] then (0, 0)
    else
      var before := Refunds(orders, rows[..|rows| - 1], o);
      var last := rows[|rows| - 1];
      if Match(orders, last.context) == Some(o) then (before.0 + 1, before.1 + last.amount) else before
  }

  function One(b: bool): nat {
    if b then 1 else 0
  }

  ghost function Value(e: Evidence, k: Measure, o: Order): nat {
    var rows := ReviewsOf(e, o);
    match k
    case VerifiedReviews => |Controllers(e.bindings, rows)|
    case Reviewed => One(rows != [])
    case Eligible => One(!o.sameOwner)
    case Passed => One(rows != [] && Unanimous(rows, true))
    case Conflicting => One(rows != [] && !Unanimous(rows, true) && !Unanimous(rows, false))
    case Disputed => Disputes(e.orders, e.disputes, o)
    case Refunded => Refunds(e.orders, e.refunds, o).0
    case RefundedAmount => Refunds(e.orders, e.refunds, o).1
  }

  ghost function Tally(e: Evidence, k: Measure, os: seq<Order>): nat {
    if os == [] then 0 else Tally(e, k, os[..|os| - 1]) + Value(e, k, os[|os| - 1])
  }

  function Score(eligible: nat, reviewed: nat, passed: nat, conflicting: nat): Option<nat> {
    if 0 < eligible && reviewed == eligible && conflicting == 0 then Some(passed * 10000 / eligible) else None
  }

  ghost function ReputationOf(e: Evidence, seller: string, os: seq<Order>): Reputation {
    Reputation(seller, Tally(e, VerifiedReviews, os), Tally(e, Reviewed, os), Tally(e, Eligible, os), Tally(e, Passed, os),
               Tally(e, Conflicting, os),
               Score(Tally(e, Eligible, os), Tally(e, Reviewed, os), Tally(e, Passed, os), Tally(e, Conflicting, os)),
               Tally(e, Disputed, os), Tally(e, Refunded, os), Tally(e, RefundedAmount, os))
  }

  /** An order its independent reviewers all agree on. */
  ghost predicate ReviewedUnanimously(e: Evidence, o: Order) {
    ReviewsOf(e, o) != [] && (Unanimous(ReviewsOf(e, o), true) || Unanimous(ReviewsOf(e, o), false))
  }

  lemma ReviewedIsEligible(e: Evidence, o: Order)
    ensures ReviewsOf(e, o) != [] ==> !o.sameOwner
  {
    if ReviewsOf(e, o) != [] {
      GroupHas(e.orders, e.reviews, e.trust, e.bindings, o, ReviewsOf(e, o)[0]);
    }
  }

  lemma {:induction false} TallyBounds(e: Evidence, os: seq<Order>)
    ensures Tally(e, Passed, os) <= Tally(e, Reviewed, os) <= Tally(e, Eligible, os)
    ensures Tally(e, Reviewed, os) == Tally(e, Eligible, os) && Tally(e, Conflicting, os) == 0 <==>
            forall o | o in os :: !o.sameOwner ==> ReviewedUnanimously(e, o)
  {
    if os != [] {
      var rest, last := os[..|os| - 1], os[|os| - 1];
      assert os == rest + [last];
      TallyBounds(e, rest);
      ReviewedIsEligible(e, last);
    }
  }

  /** A score exists exactly when the seller has eligible orders and every one of them was
      reviewed unanimously; it then lies between 0 and 10000. */
  lemma ScoreMeaning(e: Evidence, seller: string, os: seq<Order>)
    ensures var r := ReputationOf(e, seller, os);
      && (r.score.Some? <==> r.eligibleOrders > 0 && forall o | o in os :: !o.sameOwner ==> ReviewedUnanimously(e, o))
      && (r.score.Some? ==> r.score.value <= 10000)
  {
    TallyBounds(e, os);
    var passed, eligible := Tally(e, Passed, os), Tally(e, Eligible, os);
    if 0 < eligible {
      RatioBound(passed, eligible);
    }
  }

  lemma CancelFactor(w: nat, a: nat, b: nat)
    requires 0 < w && w * a <= w * b
    ensures a <= b
  {
  }

  lemma RatioBound(part: nat, whole: nat)
    requires part <= whole && 0 < whole
    ensures part * 10000 / whole <= 10000
  {
    assert whole * (part * 10000 / whole) <= part * 10000;
    CancelFactor(whole, part * 10000 / whole, 10000);
  }

  // ---------------------------------------------------------------- sellers

  /** The sellers of a sequence of orders, in the order they first appear. */
  function Sellers(orders: seq<Order>): seq<string> {
    if orders == [] then []
    else
      var before := Sellers(orders[..|orders| - 1]);
      var seller := Lower(orders[|orders| - 1].seller);
      if seller in before then before else before + [seller]
  }

  function OrdersOf(orders: seq<Order>, seller: string): seq<Order> {
    if orders == [] then []
    else
      var before := OrdersOf(orders[..|orders| - 1], seller);
      var last := orders[|orders| - 1];
      if Lower(last.seller) == seller then before + [last] else before
  }

  ghost function TallySellers(e: Evidence, k: Measure, orders: seq<Order>, sellers: seq<string>): nat {
    if sellers == [] then 0
    else TallySellers(e, k, orders, sellers[..|sellers| - 1]) + Tally(e, k, OrdersOf(orders, sellers[|sellers| - 1]))
  }

  ghost predicate DistinctSellers(sellers: seq<string>) {
    forall i, j | 0 <= i < j < |sellers| :: sellers[i] != sellers[j]
  }

  lemma {:induction false} SellersDistinct(orders: seq<Order>)
    ensures DistinctSellers(Sellers(orders))
    ensures forall o | o in orders :: Lower(o.seller) in Sellers(orders)
  {
    if orders != [] {
      SellersDistinct(orders[..|orders| - 1]);
      assert orders == orders[..|orders| - 1] + [orders[|orders| - 1]];
    }
  }

  /** One more order of a seller adds its value to that seller and to nobody else. */
  lemma {:induction false} TallySellersStep(e: Evidence, k: Measure, orders: seq<Order>, last: Order, sellers: seq<string>)
    requires DistinctSellers(sellers)
    ensures TallySellers(e, k, orders + [last], sellers) ==
            TallySellers(e, k, orders, sellers) + if Lower(last.seller) in sellers then Value(e, k, last) else 0
  {
    if sellers != [] {
      var rest, s := sellers[..|sellers| - 1], sellers[|sellers| - 1];
      TallySellersStep(e, k, orders, last, rest);
      assert (orders + [last])[..|orders|] == orders;
      assert sellers == rest + [s];
      if Lower(last.seller) == s {
        var os := OrdersOf(orders, s);
        assert (os + [last])[..|os|] == os;
      }
    }
  }

  lemma {:induction false} OrdersOfNobody(orders: seq<Order>, seller: string)
    requires seller !in Sellers(orders)
    ensures OrdersOf(orders, seller) == []
  {
    if orders != [] {
      OrdersOfNobody(orders[..|orders| - 1], seller);
    }
  }

  /** The first order of a seller opens a group of its own. */
  lemma NewSeller(e: Evidence, k: Measure, rest: seq<Order>, last: Order, sellers: seq<string>)
    requires Lower(last.seller) !in sellers && OrdersOf(rest, Lower(last.seller)) == []
    ensures TallySellers(e, k, rest + [last], sellers + [Lower(last.seller)]) ==
            TallySellers(e, k, rest + [last], sellers) + Value(e, k, last)
  {
    var s, orders := Lower(last.seller), rest + [last];
    assert (sellers + [s])[..|sellers|] == sellers;
    assert orders[..|orders| - 1] == rest;
    assert OrdersOf(orders, s) == [last];
    assert [last][..0] == [];
    assert Tally(e, k, [last]) == Tally(e, k, [last][..0]) + Value(e, k, last);
  }

  lemma OneMoreOrder(e: Evidence, k: Measure, rest: seq<Order>, last: Order)
    ensures Tally(e, k, rest + [last]) == Tally(e, k, rest) + Value(e, k, last)
    ensures Sellers(rest + [last]) ==
            if Lower(last.seller) in Sellers(rest) then Sellers(rest) else Sellers(rest) + [Lower(last.seller)]
  {
    assert (rest + [last])[..|rest|] == rest;
  }

  lemma PartitionStep(e: Evidence, k: Measure, rest: seq<Order>, last: Order, sellers: seq<string>)
    requires sellers == Sellers(rest)
    ensures TallySellers(e, k, rest + [last], Sellers(rest + [last])) ==
            TallySellers(e, k, rest, sellers) + Value(e, k, last)
  {
    hide Value, OrdersOf, TallySellers, Sellers, Lower;
    SellersDistinct(rest);
    OneMoreOrder(e, k, rest, last);
    TallySellersStep(e, k, rest, last, sellers);
    if Lower(last.seller) !in sellers {
      OrdersOfNobody(rest, Lower(last.seller));
      NewSeller(e, k, rest, last, sellers);
    }
  }

  /** Grouping by seller loses nothing and counts nothing twice. */
  lemma {:induction false} SellersPartition(e: Evidence, k: Measure, orders: seq<Order>)
    ensures TallySellers(e, k, orders, Sellers(orders)) == Tally(e, k, orders)
  {
    if orders != [] {
      var rest, last := orders[..|orders| - 1], orders[|orders| - 1];
      SellersPartition(e, k, rest);
      PartitionStep(e, k, rest, last, Sellers(rest));
      OneMoreOrder(e, k, rest, last);
      assert orders == rest + [last];
    }
  }

  // ---------------------------------------------------------------- totals

  ghost function MatchedDisputes(orders: seq<Order>, rows: seq<Context>): nat {
    if rows == [] then 0
    else MatchedDisputes(orders, rows[..|rows| - 1]) + One(Match(orders, rows[|rows| - 1]).Some?)
  }

  ghost function MatchedRefunds(orders: seq<Order>, rows: seq<Refund>): (nat, nat) {
    if rows == [] then (0, 0)
    else
      var before := MatchedRefunds(orders, rows[..|rows| - 1]);
      var last := rows[|rows| - 1];
      if Match(orders, last.context).Some? then (before.0 + 1, before.1 + last.amount) else before
  }

  /** One more row raises the value of its order, if it has one, and of no other. */
  lemma {:induction false} OneRow(e: Evidence, f: Evidence, k: Measure, os: seq<Order>, hit: Option<Order>, amount: nat)
    requires DistinctIds(os) && (forall o | o in os :: Value(f, k, o) == Value(e, k, o) + if hit == Some(o) then amount else 0)
    ensures Tally(f, k, os) == Tally(e, k, os) + if hit.Some? && hit.value in os then amount else 0
  {
    if os != [] {
      var rest, last := os[..|os| - 1], os[|os| - 1];
      assert os == rest + [last];
      OneRow(e, f, k, rest, hit, amount);
      assert last !in rest;
    }
  }

  /** Over all sellers together, exactly the matched dispute rows are counted. */
  lemma {:induction false} DisputesCounted(e: Evidence)
    requires DistinctIds(e.orders)
    ensures TallySellers(e, Disputed, e.orders, Sellers(e.orders)) == MatchedDisputes(e.orders, e.disputes)
    decreases |e.disputes|
  {
    SellersPartition(e, Disputed, e.orders);
    if e.disputes == [] {
      NothingCounted(e, Disputed, e.orders);
    } else {
      var last := e.disputes[|e.disputes| - 1];
      var before := e.(disputes := e.disputes[..|e.disputes| - 1]);
      DisputesCounted(before);
      SellersPartition(before, Disputed, e.orders);
      OneRow(before, e, Disputed, e.orders, Match(e.orders, last), 1);
    }
  }

  lemma {:induction false} RefundsCounted(e: Evidence)
    requires DistinctIds(e.orders)
    ensures TallySellers(e, Refunded, e.orders, Sellers(e.orders)) == MatchedRefunds(e.orders, e.refunds).0
    ensures TallySellers(e, RefundedAmount, e.orders, Sellers(e.orders)) == MatchedRefunds(e.orders, e.refunds).1
    decreases |e.refunds|
  {
    hide TallySellers, Tally, Sellers, DistinctIds;
    SellersPartition(e, Refunded, e.orders);
    SellersPartition(e, RefundedAmount, e.orders);
    if e.refunds == [] {
      NothingCounted(e, Refunded, e.orders);
      NothingCounted(e, RefundedAmount, e.orders);
    } else {
      var last := e.refunds[|e.refunds| - 1];
      var before := e.(refunds := e.refunds[..|e.refunds| - 1]);
      RefundsCounted(before);
      SellersPartition(before, Refunded, e.orders);
      SellersPartition(before, RefundedAmount, e.orders);
      OneRow(before, e, Refunded, e.orders, Match(e.orders, last.context), 1);
      OneRow(before, e, RefundedAmount, e.orders, Match(e.orders, last.context), last.amount);
    }
  }

  lemma {:induction false} NothingCounted(e: Evidence, k: Measure, os: seq<Order>)
    requires forall o | o in os :: Value(e, k, o) == 0
    ensures Tally(e, k, os) == 0
  {
    if os != [] {
      NothingCounted(e, k, os[..|os| - 1]);
    }
  }

  // ---------------------------------------------------------------- the projection itself

  function Look<T>(m: map<string, T>, id: string, default: T): T {
    if id in m then m[id] else default
  }

  method GroupReviews(e: Evidence) returns (groups: map<string, seq<Review>>)
    requires DistinctIds(e.orders)
    ensures forall o | o in e.orders :: Look(groups, o.id, []) == ReviewsOf(e, o)
  {
    groups := map[];
    for i := 0 to |e.reviews|
      invariant forall o | o in e.orders :: Look(groups, o.id, []) == Group(e.orders, e.reviews[..i], e.trust, e.bindings, o)
    {
      var row := e.reviews[i];
      assert e.reviews[..i + 1][..i] == e.reviews[..i];
      var o := Match(e.orders, row.context);
      if o.Some? {
        var eligible := IsEligible(o.value, row, e.trust, e.bindings);
        if eligible {
          groups := groups[o.value.id := Look(groups, o.value.id, []) + [row]];
        }
      }
    }
    assert e.reviews[..|e.reviews|] == e.reviews;
  }

  method CountDisputes(e: Evidence) returns (counts: map<string, nat>)
    requires DistinctIds(e.orders)
    ensures forall o | o in e.orders :: Look(counts, o.id, 0) == Value(e, Disputed, o)
  {
    counts := map[];
    for i := 0 to |e.disputes|
      invariant forall o | o in e.orders :: Look(counts, o.id, 0) == Disputes(e.orders, e.disputes[..i], o)
    {
      assert e.disputes[..i + 1][..i] == e.disputes[..i];
      var o := Match(e.orders, e.disputes[i]);
      if o.Some? {
        counts := counts[o.value.id := Look(counts, o.value.id, 0) + 1];
      }
    }
    assert e.disputes[..|e.disputes|] == e.disputes;
  }

  method CountRefunds(e: Evidence) returns (totals: map<string, (nat, nat)>)
    requires DistinctIds(e.orders)
    ensures forall o | o in e.orders :: Look(totals, o.id, (0, 0)) == Refunds(e.orders, e.refunds, o)
  {
    totals := map[];
    for i := 0 to |e.refunds|
      invariant forall o | o in e.orders :: Look(totals, o.id, (0, 0)) == Refunds(e.orders, e.refunds[..i], o)
    {
      assert e.refunds[..i + 1][..i] == e.refunds[..i];
      var o := Match(e.orders, e.refunds[i].context);
      if o.Some? {
        var t := Look(totals, o.value.id, (0, 0));
        totals := totals[o.value.id := (t.0 + 1, t.1 + e.refunds[i].amount)];
      }
    }
    assert e.refunds[..|e.refunds|] == e.refunds;
  }

  method Verdicts(rows: seq<Review>) returns (passed: bool, failed: bool)
    ensures passed <==> !Unanimous(rows, false)
    ensures failed <==> !Unanimous(rows, true)
  {
    passed, failed := false, false;
    for i := 0 to |rows|
      invariant passed <==> exists j | 0 <= j < i :: rows[j].passed
      invariant failed <==> exists j | 0 <= j < i :: !rows[j].passed
    {
      passed := passed || rows[i].passed;
      failed := failed || !rows[i].passed;
    }
    assert forall j | 0 <= j < |rows| :: rows[j] in rows;
  }

  method SellerReputation(e: Evidence, seller: string, os: seq<Order>, groups: map<string, seq<Review>>,
                          disputes: map<string, nat>, refunds: map<string, (nat, nat)>) returns (r: Reputation)
    requires forall o | o in os :: Look(groups, o.id, []) == ReviewsOf(e, o)
    requires forall o | o in os :: Look(disputes, o.id, 0) == Value(e, Disputed, o)
    requires forall o | o in os :: Look(refunds, o.id, (0, 0)) == Refunds(e.orders, e.refunds, o)
    ensures r == ReputationOf(e, seller, os)
  {
    hide Lower, Group, Controllers, Refunds, Disputes;
    r := Reputation(seller, 0, 0, 0, 0, 0, None, 0, 0, 0);
    for i := 0 to |os|
      invariant r == ReputationOf(e, seller, os[..i]).(score := None)
    {
      var o := os[i];
      assert os[..i + 1][..i] == os[..i];
      var rows := Look(groups, o.id, []);
      var n := CountControllers(rows, e.bindings);
      var passed, failed := Verdicts(rows);
      var refund := Look(refunds, o.id, (0, 0));
      r := r.(verifiedReviews := r.verifiedReviews + n,
              reviewedOrders := r.reviewedOrders + One(rows != []),
              eligibleOrders := r.eligibleOrders + One(!o.sameOwner),
              passedOrders := r.passedOrders + One(rows != [] && !failed),
              conflictingOrders := r.conflictingOrders + One(rows != [] && failed && passed),
              disputes := r.disputes + Look(disputes, o.id, 0),
              refunds := r.refunds + refund.0,
              refunded := r.refunded + refund.1);
    }
    assert os[..|os|] == os;
    r := r.(score := Score(r.eligibleOrders, r.reviewedOrders, r.passedOrders, r.conflictingOrders));
  }

  lemma {:induction false} OrdersOfHas(orders: seq<Order>, seller: string, o: Order)
    requires o in OrdersOf(orders, seller)
    ensures o in orders
  {
    if o !in OrdersOf(orders[..|orders| - 1], seller) {
      assert o == orders[|orders| - 1];
    } else {
      OrdersOfHas(orders[..|orders| - 1], seller, o);
    }
  }

  method GroupBySeller(orders: seq<Order>) returns (sellers: seq<string>, bySeller: map<string, seq<Order>>)
    ensures sellers == Sellers(orders)
    ensures forall s :: Look(bySeller, s, []) == OrdersOf(orders, s)
  {
    hide Lower;
    sellers, bySeller := [], map[];
    for i := 0 to |orders|
      invariant sellers == Sellers(orders[..i])
      invariant forall s :: Look(bySeller, s, []) == OrdersOf(orders[..i], s)
    {
      assert orders[..i + 1][..i] == orders[..i];
      var seller := Lower(orders[i].seller);
      if seller !in sellers {
        sellers := sellers + [seller];
      }
      bySeller := bySeller[seller := Look(bySeller, seller, []) + [orders[i]]];
    }
    assert orders[..|orders|] == orders;
  }

  method ProjectRecovery(e: Evidence) returns (reputation: seq<Reputation>)
    requires DistinctIds(e.orders)
    ensures |reputation| == |Sellers(e.orders)|
    ensures forall i | 0 <= i < |reputation| ::
              reputation[i] == ReputationOf(e, Sellers(e.orders)[i], OrdersOf(e.orders, Sellers(e.orders)[i]))
  {
    hide Lower, Sellers, OrdersOf, ReputationOf, Value, ReviewsOf, Refunds, Look;
    var groups := GroupReviews(e);
    var disputes := CountDisputes(e);
    var refunds := CountRefunds(e);
    var sellers, bySeller := GroupBySeller(e.orders);
    reputation := [];
    for i := 0 to |sellers|
      invariant |reputation| == i
      invariant forall k | 0 <= k < i :: reputation[k] == ReputationOf(e, sellers[k], OrdersOf(e.orders, sellers[k]))
    {
      var os := Look(bySeller, sellers[i], []);
      forall o | o in os
        ensures o in e.orders
      {
        OrdersOfHas(e.orders, sellers[i], o);
      }
      var r := SellerReputation(e, sellers[i], os, groups, disputes, refunds);
      reputation := reputation + [r];
    }
  }
}
