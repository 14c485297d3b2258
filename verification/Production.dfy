/** Production accounts: which purchases went into which sale. Links form a graph without cycles
    and no purchase is allocated beyond what was paid for it. */
module Production {
  import opened Effects

  datatype Input = Input(orderId: string, amount: nat)
  datatype Statement = Statement(orderId: string, seller: string, settlement: string, ledger: string,
                                 transactionHash: string, outputHash: string, issuedAt: int, inputs: seq<Input>,
                                 external: nat, gas: nat, inference: nat, other: nat,
                                 allInputs: bool, allResources: bool)

  /** A row of the order table. */
  datatype Sale = Sale(userId: string, seller: string, settlement: string, ledger: string,
                       transactionHash: Option<string>, outputHash: Option<string>, paid: nat)

  /** Position of an event in the chain. */
  datatype Position = Position(block: nat, log: nat)

  /** An order as the event index last saw it. */
  datatype Indexed = Indexed(seller: string, outputHash: Option<string>, transactionHash: string,
                             delivered: bool, acknowledged: bool, deliveredAt: Option<int>, acknowledgedAt: Option<int>,
                             deliveryBlock: Option<nat>, deliveryLog: Option<nat>, ackBlock: Option<nat>, ackLog: Option<nat>)

  datatype Link = Link(output: string, input: string, amount: nat)
  datatype Books = Books(accounts: map<string, Statement>, links: seq<Link>)

  // ---------------------------------------------------------------- totals of one statement

  function Total(inputs: seq<Input>): nat {
    if inputs == [] then 0 else Total(inputs[..|inputs| - 1]) + inputs[|inputs| - 1].amount
  }

  ghost predicate Distinct(inputs: seq<Input>) {
    forall i, j | 0 <= i < j < |inputs| :: inputs[i].orderId != inputs[j].orderId
  }

  ghost predicate WellFormed(p: Statement) {
    Distinct(p.inputs) && (forall i | 0 <= i < |p.inputs| :: p.inputs[i].orderId != p.orderId) &&
    (p.allResources ==> p.allInputs)
  }

  datatype Totals = Totals(intermediate: Option<nat>, cost: Option<nat>)

  function Ids(inputs: seq<Input>): set<string> {
    set i | 0 <= i < |inputs| :: inputs[i].orderId
  }

  lemma {:induction false} AsManyIdsAsInputs(inputs: seq<Input>)
    ensures |Ids(inputs)| <= |inputs|
    ensures |Ids(inputs)| == |inputs| <==> Distinct(inputs)
  {
    if inputs == [] {
      assert Ids(inputs) == {};
    } else {
      var rest, last := inputs[..|inputs| - 1], inputs[|inputs| - 1];
      AsManyIdsAsInputs(rest);
      OneMoreId(rest, last);
      assert inputs == rest + [last];
    }
  }

  lemma OneMoreId(rest: seq<Input>, last: Input)
    ensures Ids(rest + [last]) == Ids(rest) + {last.orderId}
    ensures Distinct(rest + [last]) <==> Distinct(rest) && last.orderId !in Ids(rest)
  {
    var all := rest + [last];
    assert all[|rest|] == last;
    assert forall i | 0 <= i < |rest| :: all[i] == rest[i] && rest[i].orderId in Ids(rest);
    if Distinct(all) {
      assert forall i | 0 <= i < |rest| :: all[i].orderId != all[|rest|].orderId;
    }
  }

  function ProductionAccountTotals(p: Statement): (r: Result<Totals>)
    ensures r.Ok? <==> WellFormed(p)
    ensures r.Ok? && r.value.cost.Some? ==> r.value.intermediate.Some? && r.value.intermediate.value <= r.value.cost.value
    ensures r.Ok? && r.value.intermediate.Some? ==> r.value.intermediate.value >= p.external
  {
    AsManyIdsAsInputs(p.inputs);
    if |Ids(p.inputs)| != |p.inputs| || p.orderId in Ids(p.inputs) then Threw
    else if p.allResources && !p.allInputs then Threw
    else
      var intermediate := p.external + Total(p.inputs);
      Ok(Totals(if p.allInputs then Some(intermediate) else None,
                if p.allResources then Some(intermediate + p.gas + p.inference + p.other) else None))
  }

  // ---------------------------------------------------------------- the input graph

  predicate Edge(links: seq<Link>, a: string, b: string) {
    exists k | 0 <= k < |links| :: links[k].output == a && links[k].input == b
  }

  /** `b` is `n` input links away from `a`. */
  ghost predicate Chain(links: seq<Link>, a: string, b: string, n: nat)
    decreases n
  {
    n > 0 && if n == 1 then Edge(links, a, b) else exists c :: Chain(links, a, c, n - 1) && Edge(links, c, b)
  }

  /** `b` went into `a`, directly or through other products. */
  ghost predicate Uses(links: seq<Link>, a: string, b: string) {
    exists n: nat :: Chain(links, a, b, n)
  }

  ghost predicate Acyclic(links: seq<Link>) {
    forall a :: !Uses(links, a, a)
  }

  lemma UsesDirectly(links: seq<Link>, a: string, b: string)
    requires Edge(links, a, b)
    ensures Uses(links, a, b)
  {
    assert Chain(links, a, b, 1);
  }

  lemma UsesThrough(links: seq<Link>, a: string, b: string, c: string)
    requires Uses(links, a, b) && Edge(links, b, c)
    ensures Uses(links, a, c)
  {
    var n: nat :| Chain(links, a, b, n);
    assert Chain(links, a, c, n + 1);
  }

  lemma {:induction false} UsesChain(links: seq<Link>, a: string, b: string, c: string, n: nat)
    requires Uses(links, a, b) && Chain(links, b, c, n)
    ensures Uses(links, a, c)
    decreases n
  {
    if n == 1 {
      UsesThrough(links, a, b, c);
    } else {
      var d :| Chain(links, b, d, n - 1) && Edge(links, d, c);
      UsesChain(links, a, b, d, n - 1);
      UsesThrough(links, a, d, c);
    }
  }

  lemma UsesTransitive(links: seq<Link>, a: string, b: string, c: string)
    requires Uses(links, a, b) && Uses(links, b, c)
    ensures Uses(links, a, c)
  {
    var n: nat :| Chain(links, b, c, n);
    UsesChain(links, a, b, c, n);
  }

  lemma {:induction false} UsesGrows(links: seq<Link>, more: seq<Link>, a: string, b: string, n: nat)
    requires Chain(links, a, b, n)
    ensures Chain(links + more, a, b, n)
    decreases n
  {
    if n == 1 {
      EdgeGrows(links, more, a, b);
    } else {
      var c :| Chain(links, a, c, n - 1) && Edge(links, c, b);
      UsesGrows(links, more, a, c, n - 1);
      EdgeGrows(links, more, c, b);
    }
  }

  lemma EdgeGrows(links: seq<Link>, more: seq<Link>, a: string, b: string)
    ensures Edge(links + more, a, b) <==> Edge(links, a, b) || Edge(more, a, b)
  {
    if Edge(links, a, b) {
      var k :| 0 <= k < |links| && links[k].output == a && links[k].input == b;
      assert (links + more)[k] == links[k];
    }
    if Edge(more, a, b) {
      var k :| 0 <= k < |more| && more[k].output == a && more[k].input == b;
      assert (links + more)[|links| + k] == more[k];
    }
  }

  // ---------------------------------------------------------------- one more account

  function LinksOf(p: Statement): (links: seq<Link>)
    ensures |links| == |p.inputs|
    ensures forall i | 0 <= i < |links| :: links[i] == Link(p.orderId, p.inputs[i].orderId, p.inputs[i].amount)
  {
    seq(|p.inputs|, i requires 0 <= i < |p.inputs| => Link(p.orderId, p.inputs[i].orderId, p.inputs[i].amount))
  }

  ghost predicate Upstream(links: seq<Link>, a: string, b: string) {
    a == b || Uses(links, a, b)
  }

  ghost predicate Looped(links: seq<Link>, p: Statement) {
    exists i | 0 <= i < |p.inputs| :: Upstream(links, p.inputs[i].orderId, p.orderId)
  }

  /** What a path through the new links looks like without them. */
  ghost predicate Detour(links: seq<Link>, p: Statement, a: string, b: string) {
    Upstream(links, a, p.orderId) && exists i | 0 <= i < |p.inputs| :: Upstream(links, p.inputs[i].orderId, b)
  }

  lemma DetourExtends(links: seq<Link>, p: Statement, a: string, b: string, c: string)
    requires Detour(links, p, a, b) && Edge(links, b, c)
    ensures Detour(links, p, a, c)
  {
    var i :| 0 <= i < |p.inputs| && Upstream(links, p.inputs[i].orderId, b);
    if p.inputs[i].orderId == b {
      UsesDirectly(links, b, c);
    } else {
      UsesThrough(links, p.inputs[i].orderId, b, c);
    }
  }

  lemma {:induction false} PathsAfter(links: seq<Link>, p: Statement, a: string, b: string, n: nat)
    requires !Looped(links, p) && Chain(links + LinksOf(p), a, b, n)
    ensures Uses(links, a, b) || Detour(links, p, a, b)
    decreases n
  {
    if n == 1 {
      EdgeGrows(links, LinksOf(p), a, b);
      if Edge(links, a, b) {
        UsesDirectly(links, a, b);
      }
    } else {
      var c :| Chain(links + LinksOf(p), a, c, n - 1) && Edge(links + LinksOf(p), c, b);
      PathsAfter(links, p, a, c, n - 1);
      EdgeGrows(links, LinksOf(p), c, b);
      if Edge(links, c, b) {
        if Uses(links, a, c) {
          UsesThrough(links, a, c, b);
        } else {
          DetourExtends(links, p, a, c, b);
        }
      }
    }
  }

  lemma NoLoopNoCycle(links: seq<Link>, p: Statement)
    requires Acyclic(links) && !Looped(links, p)
    ensures Acyclic(links + LinksOf(p))
  {
    forall a
      ensures !Uses(links + LinksOf(p), a, a)
    {
      if Uses(links + LinksOf(p), a, a) {
        var n: nat :| Chain(links + LinksOf(p), a, a, n);
        PathsAfter(links, p, a, a, n);
        var i :| 0 <= i < |p.inputs| && Upstream(links, p.inputs[i].orderId, a);
        if a != p.orderId && p.inputs[i].orderId != a {
          UsesTransitive(links, p.inputs[i].orderId, a, p.orderId);
        }
        assert Looped(links, p);
      }
    }
  }

  lemma LoopIsCycle(links: seq<Link>, p: Statement)
    requires Looped(links, p)
    ensures !Acyclic(links + LinksOf(p))
  {
    var i :| 0 <= i < |p.inputs| && Upstream(links, p.inputs[i].orderId, p.orderId);
    var all, input := links + LinksOf(p), p.inputs[i].orderId;
    assert LinksOf(p)[i].input == input;
    EdgeGrows(links, LinksOf(p), p.orderId, input);
    UsesDirectly(all, p.orderId, input);
    if input != p.orderId {
      var n: nat :| Chain(links, input, p.orderId, n);
      UsesGrows(links, LinksOf(p), input, p.orderId, n);
      UsesTransitive(all, p.orderId, input, p.orderId);
    }
  }

  /** The recursive query per input refuses exactly the statements that would close a cycle. */
  lemma CycleCheckIsExact(links: seq<Link>, p: Statement)
    requires Acyclic(links)
    ensures Acyclic(links + LinksOf(p)) <==> !Looped(links, p)
  {
    if Looped(links, p) {
      LoopIsCycle(links, p);
    } else {
      NoLoopNoCycle(links, p);
    }
  }

  // ---------------------------------------------------------------- allocations

  function Allocated(links: seq<Link>, input: string): nat {
    if links == [] then 0
    else
      var last := links[|links| - 1];
      Allocated(links[..|links| - 1], input) + if last.input == input then last.amount else 0
  }

  lemma {:induction false} AllocatedAdds(links: seq<Link>, more: seq<Link>, input: string)
    ensures Allocated(links + more, input) == Allocated(links, input) + Allocated(more, input)
  {
    if more == [] {
      assert links + more == links;
    } else {
      var rest := more[..|more| - 1];
      AllocatedAdds(links, rest, input);
      assert (links + more)[..|links + more| - 1] == links + rest;
    }
  }

  lemma {:induction false} AllocatedOnce(links: seq<Link>, input: string)
    requires forall i, j | 0 <= i < j < |links| :: links[i].input != links[j].input
    ensures forall i | 0 <= i < |links| && links[i].input == input :: Allocated(links, input) == links[i].amount
    ensures (forall i | 0 <= i < |links| :: links[i].input != input) ==> Allocated(links, input) == 0
  {
    if links != [] {
      AllocatedOnce(links[..|links| - 1], input);
    }
  }

  ghost predicate Affordable(links: seq<Link>, sales: map<string, Sale>) {
    forall id | id in sales :: Allocated(links, id) <= sales[id].paid
  }

  // ---------------------------------------------------------------- what is recorded

  /** The links of one output, as the table holds them. */
  ghost function LinksFor(links: seq<Link>, output: string): seq<Link> {
    if links == [] then []
    else
      var last := links[|links| - 1];
      LinksFor(links[..|links| - 1], output) + if last.output == output then [last] else []
  }

  lemma {:induction false} LinksForAdds(links: seq<Link>, more: seq<Link>, output: string)
    ensures LinksFor(links + more, output) == LinksFor(links, output) + LinksFor(more, output)
  {
    if more == [] {
      assert links + more == links;
    } else {
      var rest := more[..|more| - 1];
      LinksForAdds(links, rest, output);
      assert (links + more)[..|links + more| - 1] == links + rest;
    }
  }

  lemma {:induction false} LinksForOne(links: seq<Link>, output: string, id: string)
    requires forall k | 0 <= k < |links| :: links[k].output == output
    ensures LinksFor(links, id) == if id == output then links else []
  {
    if links != [] {
      LinksForOne(links[..|links| - 1], output, id);
      assert links == links[..|links| - 1] + [links[|links| - 1]];
    }
  }

  ghost predicate Sound(b: Books, sales: map<string, Sale>) {
    && Acyclic(b.links)
    && Affordable(b.links, sales)
    && LinksAgree(b)
    && (forall id | id in b.accounts :: b.accounts[id].orderId == id && WellFormed(b.accounts[id]))
    && InputsSold(b.links, sales)
  }

  function Record(b: Books, p: Statement): Books {
    Books(b.accounts[p.orderId := p], b.links + LinksOf(p))
  }

  ghost predicate Payable(b: Books, sales: map<string, Sale>, p: Statement) {
    forall i | 0 <= i < |p.inputs| ::
      p.inputs[i].orderId in sales &&
      Allocated(b.links, p.inputs[i].orderId) + p.inputs[i].amount <= sales[p.inputs[i].orderId].paid
  }

  lemma PayableKeepsAffordable(b: Books, sales: map<string, Sale>, p: Statement)
    requires Affordable(b.links, sales) && Payable(b, sales, p) && Distinct(p.inputs)
    ensures Affordable(b.links + LinksOf(p), sales)
  {
    forall id | id in sales
      ensures Allocated(b.links + LinksOf(p), id) <= sales[id].paid
    {
      AllocatedAdds(b.links, LinksOf(p), id);
      AllocatedOnce(LinksOf(p), id);
      if k :| 0 <= k < |p.inputs| && p.inputs[k].orderId == id {
        assert LinksOf(p)[k].input == id;
      }
    }
  }

  ghost predicate InputsSold(links: seq<Link>, sales: map<string, Sale>) {
    forall k | 0 <= k < |links| :: links[k].input in sales
  }

  lemma RecordKeepsInputsSold(b: Books, sales: map<string, Sale>, p: Statement)
    requires InputsSold(b.links, sales) && forall i | 0 <= i < |p.inputs| :: p.inputs[i].orderId in sales
    ensures InputsSold(Record(b, p).links, sales)
  {
    var all, n := Record(b, p).links, |b.links|;
    assert forall k | 0 <= k < |all| :: all[k] == if k < n then b.links[k] else LinksOf(p)[k - n];
  }

  lemma RecordKeepsSound(b: Books, sales: map<string, Sale>, p: Statement)
    requires Sound(b, sales) && p.orderId !in b.accounts && WellFormed(p)
    requires Payable(b, sales, p) && !Looped(b.links, p)
    ensures Sound(Record(b, p), sales)
  {
    hide Acyclic, Looped, Allocated, Affordable, Payable, LinksAgree, InputsSold, LinksOf;
    NoLoopNoCycle(b.links, p);
    PayableKeepsAffordable(b, sales, p);
    LinksMatchAccounts(b, p);
    PayableIsSold(b, sales, p);
    RecordKeepsInputsSold(b, sales, p);
  }

  lemma PayableIsSold(b: Books, sales: map<string, Sale>, p: Statement)
    requires Payable(b, sales, p)
    ensures forall i | 0 <= i < |p.inputs| :: p.inputs[i].orderId in sales
  {
  }

  ghost predicate LinksAgree(b: Books) {
    forall id :: LinksFor(b.links, id) == if id in b.accounts then LinksOf(b.accounts[id]) else []
  }

  lemma LinksMatchAccounts(b: Books, p: Statement)
    requires LinksAgree(b) && p.orderId !in b.accounts
    ensures LinksAgree(Record(b, p))
  {
    forall id
      ensures LinksFor(Record(b, p).links, id) ==
              if id in Record(b, p).accounts then LinksOf(Record(b, p).accounts[id]) else []
    {
      LinksForAdds(b.links, LinksOf(p), id);
      LinksForOne(LinksOf(p), p.orderId, id);
    }
  }

  ghost function Amounts(links: seq<Link>): nat {
    if links == [] then 0 else Amounts(links[..|links| - 1]) + links[|links| - 1].amount
  }

  lemma {:induction false} AmountsAreTotal(links: seq<Link>, inputs: seq<Input>)
    requires |links| == |inputs| && forall i | 0 <= i < |links| :: links[i].amount == inputs[i].amount
    ensures Amounts(links) == Total(inputs)
  {
    if links != [] {
      AmountsAreTotal(links[..|links| - 1], inputs[..|inputs| - 1]);
    }
  }

  /** The intermediate cost an account claims is its external part plus its recorded allocations, its
      whole cost that and its resources; either is known only where the account says it is complete. */
  lemma ClaimedCostIsRecorded(b: Books, sales: map<string, Sale>, id: string)
    requires Sound(b, sales) && id in b.accounts
    ensures ProductionAccountTotals(b.accounts[id]).Ok?
    ensures var p, t := b.accounts[id], ProductionAccountTotals(b.accounts[id]).value;
      var shares := Amounts(LinksFor(b.links, id));
      && t.intermediate == (if p.allInputs then Some(p.external + shares) else None)
      && t.cost == (if p.allResources then Some(p.external + shares + p.gas + p.inference + p.other) else None)
  {
    hide Acyclic, Affordable, Amounts, Total;
    AmountsAreTotal(LinksOf(b.accounts[id]), b.accounts[id].inputs);
  }

  // ---------------------------------------------------------------- any sequence of statements

  /** The tables as the other parts of the platform see them. */
  datatype State = State(books: Books, sales: map<string, Sale>)

  ghost predicate Recordable(b: Books, sales: map<string, Sale>, p: Statement) {
    p.orderId !in b.accounts && WellFormed(p) && Payable(b, sales, p) && !Looped(b.links, p)
  }

  /** Sales are added and delivered at any time; only what was paid for one is permanent. */
  ghost predicate SamePrices(sales: map<string, Sale>, more: map<string, Sale>) {
    forall id | id in sales :: id in more && more[id].paid == sales[id].paid
  }

  /** The order table moves, a statement is recorded, or a call was refused, replayed or rolled back. */
  ghost predicate Moves(s: State, t: State) {
    || (t.books == s.books && SamePrices(s.sales, t.sales))
    || (t.sales == s.sales && exists p :: Recordable(s.books, s.sales, p) && t.books == Record(s.books, p))
  }

  ghost predicate History(run: seq<State>) {
    && run != [] && run[0].books == Books(map[], [])
    && forall k | 0 < k < |run| :: Moves(run[k - 1], run[k])
  }

  lemma SalesKeepSound(b: Books, sales: map<string, Sale>, more: map<string, Sale>)
    requires Sound(b, sales) && SamePrices(sales, more)
    ensures Sound(b, more)
  {
    hide Acyclic;
    forall id | id in more && id !in sales
      ensures Allocated(b.links, id) == 0
    {
      NothingAllocated(b.links, id);
    }
  }

  lemma {:induction false} NothingAllocated(links: seq<Link>, id: string)
    requires forall k | 0 <= k < |links| :: links[k].input != id
    ensures Allocated(links, id) == 0
  {
    if links != [] {
      NothingAllocated(links[..|links| - 1], id);
    }
  }

  lemma EmptyBooksAreSound(sales: map<string, Sale>)
    ensures Sound(Books(map[], []), sales)
  {
    forall a
      ensures !Uses([], a, a)
    {
      assert forall n: nat, c | Chain([], a, c, n) :: n > 1 by {
        assert forall c :: !Edge([], a, c);
      }
      assert forall c :: !Edge([], c, a);
    }
  }

  /** Links never form a cycle and no purchase is allocated twice over, at any moment of any run. */
  lemma {:induction false} HistoryIsSound(run: seq<State>)
    requires History(run)
    ensures Sound(run[|run| - 1].books, run[|run| - 1].sales)
    decreases |run|
  {
    hide Sound, Recordable;
    if |run| == 1 {
      EmptyBooksAreSound(run[0].sales);
    } else {
      var before := run[..|run| - 1];
      HistoryIsSound(before);
      var s, t := before[|before| - 1], run[|run| - 1];
      assert Moves(s, t);
      MoveKeepsSound(s, t);
    }
  }

  lemma MoveKeepsSound(s: State, t: State)
    requires Moves(s, t) && Sound(s.books, s.sales)
    ensures Sound(t.books, t.sales)
  {
    hide Sound;
    if t.books == s.books && SamePrices(s.sales, t.sales) {
      SalesKeepSound(s.books, s.sales, t.sales);
    } else {
      var p :| Recordable(s.books, s.sales, p) && t.books == Record(s.books, p);
      RecordKeepsSound(s.books, s.sales, p);
    }
  }

  lemma RecordKeepsAccount(b: Books, p: Statement, id: string)
    requires id in b.accounts && p.orderId !in b.accounts
    ensures id in Record(b, p).accounts && Record(b, p).accounts[id] == b.accounts[id]
    ensures LinksFor(Record(b, p).links, id) == LinksFor(b.links, id)
  {
    hide LinksFor;
    LinksForAdds(b.links, LinksOf(p), id);
    LinksForOne(LinksOf(p), p.orderId, id);
  }

  lemma MoveKeepsAccount(s: State, t: State, id: string)
    requires Moves(s, t) && id in s.books.accounts
    ensures id in t.books.accounts && t.books.accounts[id] == s.books.accounts[id]
    ensures LinksFor(t.books.links, id) == LinksFor(s.books.links, id)
  {
    hide LinksFor, Record, WellFormed, Payable, Looped;
    if t.books != s.books {
      var p :| Recordable(s.books, s.sales, p) && t.books == Record(s.books, p);
      RecordKeepsAccount(s.books, p, id);
    }
  }

  /** A recorded account and its links never change. */
  lemma {:induction false} AccountsNeverChange(run: seq<State>, i: nat, j: nat, id: string)
    requires History(run) && i <= j < |run| && id in run[i].books.accounts
    ensures id in run[j].books.accounts && run[j].books.accounts[id] == run[i].books.accounts[id]
    ensures LinksFor(run[j].books.links, id) == LinksFor(run[i].books.links, id)
    decreases j
  {
    hide LinksFor, Moves;
    if i < j {
      AccountsNeverChange(run, i, j - 1, id);
      MoveKeepsAccount(run[j - 1], run[j], id);
    }
  }

  // ---------------------------------------------------------------- the ledger and its one operation

  datatype Outcome = Recorded | Replayed | Refused(status: nat) | Failed

  ghost predicate Authentic(p: Statement, settlement: string, ledger: string, now: int, signed: bool) {
    p.settlement == settlement && p.ledger == ledger && now - 86400 <= p.issuedAt <= now && WellFormed(p) && signed
  }

  /** The platform's record and the chain's agree on the sale, and the buyer had accepted it when the
      statement was signed. */
  ghost predicate SoldAndAccepted(p: Statement, sales: map<string, Sale>, indexed: map<string, Indexed>) {
    p.orderId in indexed && p.orderId in sales &&
    var c := indexed[p.orderId];
    var o := sales[p.orderId];
    && o.seller == p.seller && o.settlement == p.settlement && o.ledger == p.ledger
    && o.transactionHash == Some(p.transactionHash) && o.outputHash == Some(p.outputHash)
    && c.outputHash == Some(p.outputHash) && c.seller == p.seller && c.delivered && c.acknowledged
    && c.transactionHash == p.transactionHash
    && c.acknowledgedAt.Some? && c.acknowledgedAt.value <= p.issuedAt
  }

  /** The producer owned the input and had accepted it before delivering the output. */
  ghost predicate Acquired(p: Statement, id: string, userId: string, sales: map<string, Sale>, indexed: map<string, Indexed>)
    requires p.orderId in indexed
  {
    id in sales && id in indexed &&
    var o := sales[id];
    var c := indexed[id];
    var out := indexed[p.orderId];
    && o.userId == userId && o.settlement == p.settlement && o.ledger == p.ledger
    && c.acknowledged && Some(c.transactionHash) == o.transactionHash
    && c.deliveredAt.Some? && c.acknowledgedAt.Some? && out.deliveredAt.Some?
    && c.deliveredAt.value <= out.deliveredAt.value && c.acknowledgedAt.value <= out.deliveredAt.value
    && c.ackBlock.Some? && c.ackLog.Some? && out.deliveryBlock.Some? && out.deliveryLog.Some?
    && c.ackBlock.value <= out.deliveryBlock.value
    && (c.ackBlock.value == out.deliveryBlock.value ==> c.ackLog.value < out.deliveryLog.value)
  }

  function Later(a: int, b: int): (r: int)
    ensures r >= a && r >= b && (r == a || r == b)
  {
    if a < b then b else a
  }

  class Ledger {
    /** Whether the database never fails. */
    const reliable: bool
    var books: Books
    var sales: map<string, Sale>
    var indexed: map<string, Indexed>

    ghost predicate Valid()
      reads this
    {
      Sound(books, sales)
    }

    constructor (reliable: bool)
      ensures Valid() && books == Books(map[], []) && sales == map[] && this.reliable == reliable
    {
      this.reliable := reliable;
      books, sales, indexed := Books(map[], []), map[], map[];
      new;
      EmptyBooksAreSound(sales);
    }

    /** The recursive query: everything that went into an order, in as many rounds as it takes. */
    method InputClosure(from: string) returns (ids: set<string>)
      ensures forall x :: x in ids <==> Uses(books.links, from, x)
    {
      var links := books.links;
      ids := set l | l in links && l.output == from :: l.input;
      ghost var all := set l | l in links :: l.input;
      DirectInputs(links, from, ids);
      var next := Round(links, ids);
      while !(next <= ids)
        invariant forall x | x in ids :: Uses(links, from, x)
        invariant forall x | Edge(links, from, x) :: x in ids
        invariant ids <= all
        invariant next == Round(links, ids)
        decreases |all - ids|
      {
        RoundUses(links, from, ids);
        assert (all - ids) - next < all - ids by {
          var x :| x in next && x !in ids;
          assert x in all - ids;
        }
        Shrinks(all - ids, next);
        assert all - (ids + next) == (all - ids) - next;
        ids := ids + next;
        next := Round(links, ids);
      }
      forall x | Uses(links, from, x)
        ensures x in ids
      {
        var n: nat :| Chain(links, from, x, n);
        ClosedUnderInputs(links, from, ids, x, n);
      }
    }

    method CheckSale(p: Statement) returns (ok: bool)
      ensures ok <==> SoldAndAccepted(p, sales, indexed)
    {
      if p.orderId !in indexed || p.orderId !in sales {
        return false;
      }
      var c, o := indexed[p.orderId], sales[p.orderId];
      if o.seller != p.seller || o.settlement != p.settlement || o.ledger != p.ledger || o.transactionHash != Some(p.transactionHash) ||
         o.outputHash != Some(p.outputHash) || c.outputHash != Some(p.outputHash) || c.seller != p.seller ||
         !c.delivered || !c.acknowledged || c.transactionHash != p.transactionHash {
        return false;
      }
      return c.acknowledgedAt.Some? && p.issuedAt >= c.acknowledgedAt.value;
    }

    /** Owner and times first, then the exact positions on the chain. */
    method CheckAcquired(p: Statement, id: string, userId: string) returns (ok: bool)
      requires p.orderId in indexed
      ensures ok <==> Acquired(p, id, userId, sales, indexed)
    {
      if id !in sales || id !in indexed {
        return false;
      }
      var o, c, out := sales[id], indexed[id], indexed[p.orderId];
      if o.userId != userId || o.settlement != p.settlement || o.ledger != p.ledger || !c.acknowledged ||
         Some(c.transactionHash) != o.transactionHash || c.deliveredAt.None? || c.acknowledgedAt.None? || out.deliveredAt.None? ||
         Later(c.deliveredAt.value, c.acknowledgedAt.value) > out.deliveredAt.value {
        return false;
      }
      if c.ackBlock.None? || c.ackLog.None? || out.deliveryBlock.None? || out.deliveryLog.None? {
        return false;
      }
      return !(c.ackBlock.value > out.deliveryBlock.value || (c.ackBlock.value == out.deliveryBlock.value && c.ackLog.value >= out.deliveryLog.value));
    }

    method CheckInput(p: Statement, item: Input, userId: string) returns (ok: bool)
      requires p.orderId in indexed
      ensures ok <==> Acquired(p, item.orderId, userId, sales, indexed) &&
                      Allocated(books.links, item.orderId) + item.amount <= sales[item.orderId].paid &&
                      !Uses(books.links, item.orderId, p.orderId)
    {
      var acquired := CheckAcquired(p, item.orderId, userId);
      if !acquired {
        return false;
      }
      if Allocated(books.links, item.orderId) + item.amount > sales[item.orderId].paid {
        return false;
      }
      var inputs := InputClosure(item.orderId);
      return p.orderId !in inputs;
    }

    ghost predicate Admissible(p: Statement, userId: string)
      reads this
    {
      && SoldAndAccepted(p, sales, indexed)
      && (forall i | 0 <= i < |p.inputs| :: Acquired(p, p.inputs[i].orderId, userId, sales, indexed))
      && Payable(books, sales, p) && !Looped(books.links, p)
    }

    method CheckInputs(p: Statement, userId: string) returns (ok: Result<bool>)
      requires SoldAndAccepted(p, sales, indexed) && WellFormed(p)
      ensures ok.Ok? ==> (ok.value <==> Admissible(p, userId))
      ensures reliable ==> ok.Ok?
    {
      hide Uses;
      for i := 0 to |p.inputs|
        invariant forall j | 0 <= j < i :: Acquired(p, p.inputs[j].orderId, userId, sales, indexed)
        invariant forall j | 0 <= j < i :: Allocated(books.links, p.inputs[j].orderId) + p.inputs[j].amount <= sales[p.inputs[j].orderId].paid
        invariant forall j | 0 <= j < i :: !Upstream(books.links, p.inputs[j].orderId, p.orderId)
      {
        var lost: bool := *;
        if lost && !reliable {
          return Threw;
        }
        var fine := CheckInput(p, p.inputs[i], userId);
        if !fine {
          return Ok(false);
        }
      }
      return Ok(true);
    }

    /** One transaction: nothing is stored unless everything is, and a lost COMMIT may have gone
        through or not. */
    method RecordProductionAccount(p: Statement, userId: string, address: string, settlement: string, ledger: string,
                                   now: int, signed: bool) returns (r: Outcome)
      requires Valid()
      modifies this`books
      ensures Valid()
      ensures books == old(books) || (books == Record(old(books), p) && Recordable(old(books), sales, p))
      ensures Moves(State(old(books), sales), State(books, sales))
      ensures r.Recorded? ==> Recordable(old(books), sales, p) && books == Record(old(books), p)
      ensures r.Replayed? || r.Refused? ==> books == old(books)
      ensures reliable ==> !r.Failed?
      // Each answer and exactly when it is given.
      ensures !r.Failed? ==> (r.Recorded? <==> Authentic(p, settlement, ledger, now, signed) && p.seller == address && old(p.orderId !in books.accounts && Admissible(p, userId)))
      ensures !r.Failed? ==> (r.Replayed? <==> Authentic(p, settlement, ledger, now, signed) && p.seller == address && old(Known(p)) == Some(p))
      ensures r.Refused? ==> r.status == if !Authentic(p, settlement, ledger, now, signed) then 422 else if p.seller != address then 403 else if old(Known(p)).Some? then 409 else 422
    {
      hide Sound, Payable, Looped, Acquired, SoldAndAccepted;
      if p.settlement != settlement || p.ledger != ledger || p.issuedAt > now || p.issuedAt < now - 86400 ||
         !ProductionAccountTotals(p).Ok? || !signed {
        return Refused(422);
      }
      if p.seller != address {
        return Refused(403);
      }
      var lost: bool := *;
      if lost && !reliable {
        return Failed;
      }
      if p.orderId in books.accounts {
        return if books.accounts[p.orderId] == p then Replayed else Refused(409);
      }
      var sold := CheckSale(p);
      if !sold {
        return Refused(422);
      }
      var ok := CheckInputs(p, userId);
      if !ok.Ok? {
        return Failed;
      }
      if !ok.value {
        return Refused(422);
      }
      RecordKeepsSound(books, sales, p);
      r := Commit(p);
    }

    /** The statement already stored for the order, if there is one. */
    ghost function Known(p: Statement): Option<Statement>
      reads this
    {
      if p.orderId in books.accounts then Some(books.accounts[p.orderId]) else None
    }

    method Commit(p: Statement) returns (r: Outcome)
      modifies this`books
      ensures r.Recorded? || r.Failed?
      ensures r.Recorded? ==> books == Record(old(books), p)
      ensures books == old(books) || books == Record(old(books), p)
      ensures reliable ==> r.Recorded?
    {
      var accounts := books.accounts[p.orderId := p];
      var links := books.links;
      for i := 0 to |p.inputs|
        invariant links == books.links + LinksOf(p)[..i]
        invariant books == old(books)
      {
        var lost: bool := *;
        if lost && !reliable {
          return Failed;
        }
        assert LinksOf(p)[..i + 1] == LinksOf(p)[..i] + [LinksOf(p)[i]];
        links := links + [Link(p.orderId, p.inputs[i].orderId, p.inputs[i].amount)];
      }
      assert LinksOf(p)[..|p.inputs|] == LinksOf(p);
      var committed: bool := *;
      var answered: bool := *;
      if committed || answered || reliable {
        books := Books(accounts, links);
      }
      return if answered || reliable then Recorded else Failed;
    }

    /** A purchase made elsewhere on the platform: no output exists yet. */
    method AddSale(id: string, sale: Sale)
      requires Valid() && id !in sales && sale.outputHash == None
      modifies this`sales
      ensures Valid() && sales == old(sales)[id := sale] && Moves(State(old(books), old(sales)), State(books, sales))
    {
      SalesKeepSound(books, sales, sales[id := sale]);
      sales := sales[id := sale];
    }

    /** The platform notes the seller's output, once. */
    method RecordDelivery(id: string, outputHash: string)
      requires Valid()
      modifies this`sales
      ensures Valid() && Moves(State(old(books), old(sales)), State(books, sales))
      ensures id in old(sales) && old(sales)[id].outputHash == None ==> sales == old(sales)[id := old(sales)[id].(outputHash := Some(outputHash))]
      ensures !(id in old(sales) && old(sales)[id].outputHash == None) ==> sales == old(sales)
    {
      if id in sales && sales[id].outputHash == None {
        var delivered := sales[id := sales[id].(outputHash := Some(outputHash))];
        SalesKeepSound(books, sales, delivered);
        sales := delivered;
      }
    }

    /** The event index publishes a new snapshot. */
    method Reindex(snapshot: map<string, Indexed>)
      requires Valid()
      modifies this`indexed
      ensures Valid() && indexed == snapshot
    {
      indexed := snapshot;
    }
  }

  // ---------------------------------------------------------------- rounds of the recursive query

  function Round(links: seq<Link>, ids: set<string>): set<string> {
    set l | l in links && l.output in ids :: l.input
  }

  lemma DirectInputs(links: seq<Link>, from: string, ids: set<string>)
    requires ids == set l | l in links && l.output == from :: l.input
    ensures forall x :: x in ids <==> Edge(links, from, x)
    ensures forall x | x in ids :: Uses(links, from, x)
  {
    forall x | x in ids
      ensures Edge(links, from, x) && Uses(links, from, x)
    {
      var l :| l in links && l.output == from && l.input == x;
      var k :| 0 <= k < |links| && links[k] == l;
      assert Edge(links, from, x);
      UsesDirectly(links, from, x);
    }
  }

  lemma RoundUses(links: seq<Link>, from: string, ids: set<string>)
    requires forall x | x in ids :: Uses(links, from, x)
    ensures forall x | x in Round(links, ids) :: Uses(links, from, x)
  {
    forall x | x in Round(links, ids)
      ensures Uses(links, from, x)
    {
      var l :| l in links && l.output in ids && l.input == x;
      var k :| 0 <= k < |links| && links[k] == l;
      assert Edge(links, l.output, x);
      UsesThrough(links, from, l.output, x);
    }
  }

  lemma Shrinks(a: set<string>, b: set<string>)
    requires a - b < a
    ensures |a - b| < |a|
  {
    var x :| x in a && x !in a - b;
    assert a == (a - b) + (a * b) && x in a * b;
    assert |a| == |a - b| + |a * b|;
  }

  lemma {:induction false} ClosedUnderInputs(links: seq<Link>, from: string, ids: set<string>, x: string, n: nat)
    requires (forall y | Edge(links, from, y) :: y in ids) && Round(links, ids) <= ids
    requires Chain(links, from, x, n)
    ensures x in ids
    decreases n
  {
    if n > 1 {
      var c :| Chain(links, from, c, n - 1) && Edge(links, c, x);
      ClosedUnderInputs(links, from, ids, c, n - 1);
      var k :| 0 <= k < |links| && links[k].output == c && links[k].input == x;
      assert links[k] in links && links[k].output in ids;
      assert links[k].input in Round(links, ids);
    }
  }
}
