/** The engine itself: it changes a run in place, step by step. */
module Engine {
  import opened Effects
  import opened Policy
  import opened RunEngine

  /** What the services answer when they are asked; `wellSourced` says whether every record of the
      report names its source, its counts and its times properly. */
  datatype Answers = Answers(quotes: Result<seq<Provider>>, purchase: Result<(Receipt, seq<string>)>, summary: Result<()>,
                             verification: Result<(Receipt, seq<bool>)>, wellSourced: bool)

  /** The services behind the broker; `calls` remembers the paid requests made to them. */
  class Gateway {
    ghost var calls: seq<Call>

    constructor ()
      ensures calls == []
    {
      calls := [];
    }

    method PurchaseData(c: Call, answer: Result<(Receipt, seq<string>)>) returns (r: Result<(Receipt, seq<string>)>)
      modifies this
      ensures calls == old(calls) + [c] && r == answer
    {
      calls := calls + [c];
      r := answer;
    }

    method Verify(c: Call, answer: Result<(Receipt, seq<bool>)>) returns (r: Result<(Receipt, seq<bool>)>)
      modifies this
      ensures calls == old(calls) + [c] && r == answer
    {
      calls := calls + [c];
      r := answer;
    }
  }

  // ---------------------------------------------------------------- choosing a quote

  ghost predicate Cheapest(ps: seq<Provider>) {
    forall i, j | 0 <= i < j < |ps| :: ps[i].unitPrice <= ps[j].unitPrice
  }

  function InsertByPrice(p: Provider, ps: seq<Provider>): (r: seq<Provider>)
    requires Cheapest(ps)
    ensures Cheapest(r) && forall q :: q in r <==> q == p || q in ps
  {
    if ps == [] then [p]
    else if p.unitPrice <= ps[0].unitPrice then [p] + ps
    else
      assert forall q | q in ps[1..] :: ps[0].unitPrice <= q.unitPrice;
      var r := InsertByPrice(p, ps[1..]);
      assert forall i | 0 <= i < |r| :: r[i] in r;
      [ps[0]] + r
  }

  /** The allowed quotes, cheapest first. */
  function Eligible(ps: seq<Provider>, allowed: seq<string>): (r: seq<Provider>)
    ensures Cheapest(r)
    ensures forall p :: p in r <==> p in ps && p.id in allowed
  {
    if ps == [] then []
    else
      var r := Eligible(ps[1..], allowed);
      if ps[0].id in allowed then
        InsertByPrice(ps[0], r)
      else r
  }

  // ---------------------------------------------------------------- the one that comes first

  ghost function AllowedBy(allowed: seq<string>): Provider -> bool {
    (p: Provider) => p.id in allowed
  }

  ghost function FittingIn(m: Mandate, units: int, spent: int, now: int): Provider -> bool {
    (p: Provider) => Fits(m, p, units, spent, now)
  }

  /** Of the good quotes the lowest one, and of equal ones the first in the list. */
  ghost predicate FirstLowest(p: Provider, ps: seq<Provider>, good: Provider -> bool) {
    exists k :: 0 <= k < |ps| && ps[k] == p && good(p) && forall j | 0 <= j < |ps| && good(ps[j]) :: Beats(p, k, ps[j], j)
  }

  ghost predicate Beats(p: Provider, k: int, q: Provider, j: int) {
    p.unitPrice < q.unitPrice || (p.unitPrice == q.unitPrice && k <= j)
  }

  ghost function FirstGood(xs: seq<Provider>, good: Provider -> bool): (r: Option<Provider>)
    ensures r.None? <==> forall x | x in xs :: !good(x)
    ensures r.Some? ==> r.value in xs && good(r.value)
  {
    if xs == [] then None else if good(xs[0]) then Some(xs[0]) else FirstGood(xs[1..], good)
  }

  /** In a list by price, an insertion comes first only if nothing good is cheaper. */
  lemma {:induction false} InsertFirst(p: Provider, xs: seq<Provider>, good: Provider -> bool)
    requires Cheapest(xs)
    ensures var rest := FirstGood(xs, good);
      FirstGood(InsertByPrice(p, xs), good) == if good(p) && (rest.None? || p.unitPrice <= rest.value.unitPrice) then Some(p) else rest
  {
    if xs != [] {
      if p.unitPrice <= xs[0].unitPrice {
        assert ([p] + xs)[1..] == xs;
        if FirstGood(xs, good).Some? {
          var k :| 0 <= k < |xs| && xs[k] == FirstGood(xs, good).value;
        }
      } else {
        InsertFirst(p, xs[1..], good);
        assert ([xs[0]] + InsertByPrice(p, xs[1..]))[1..] == InsertByPrice(p, xs[1..]);
      }
    }
  }

  /** Sorting by price keeps the order of equal prices. */
  lemma {:induction false} EligibleFirst(ps: seq<Provider>, allowed: seq<string>, good: Provider -> bool)
    requires forall p | good(p) :: p.id in allowed
    ensures var r := FirstGood(Eligible(ps, allowed), good);
      if r.Some? then FirstLowest(r.value, ps, good) else forall p | p in ps :: !good(p)
  {
    if ps != [] {
      EligibleFirst(ps[1..], allowed, good);
      var rest := FirstGood(Eligible(ps[1..], allowed), good);
      if ps[0].id in allowed {
        InsertFirst(ps[0], Eligible(ps[1..], allowed), good);
      }
      BestOfMore(ps, good, rest);
    }
  }

  lemma BestOfMore(ps: seq<Provider>, good: Provider -> bool, rest: Option<Provider>)
    requires ps != []
    requires if rest.Some? then FirstLowest(rest.value, ps[1..], good) else forall p | p in ps[1..] :: !good(p)
    ensures var r := if good(ps[0]) && (rest.None? || ps[0].unitPrice <= rest.value.unitPrice) then Some(ps[0]) else rest;
      if r.Some? then FirstLowest(r.value, ps, good) else forall p | p in ps :: !good(p)
  {
    assert forall j | 0 < j < |ps| :: ps[j] == ps[1..][j - 1] && ps[j] in ps[1..];
    if rest.Some? {
      var k :| 0 <= k < |ps[1..]| && ps[1..][k] == rest.value && forall j | 0 <= j < |ps[1..]| && good(ps[1..][j]) :: Beats(rest.value, k, ps[1..][j], j);
      assert forall j | 0 < j < |ps| && good(ps[j]) :: Beats(rest.value, k, ps[1..][j - 1], j - 1);
      assert ps[k + 1] == rest.value;
    } else if good(ps[0]) {
      assert Beats(ps[0], 0, ps[0], 0);
    }
  }

  method FirstThatFits(eligible: seq<Provider>, m: Mandate, units: int, spent: int, now: int) returns (r: Option<Provider>)
    ensures r == FirstGood(eligible, FittingIn(m, units, spent, now))
  {
    ghost var good := FittingIn(m, units, spent, now);
    for i := 0 to |eligible|
      invariant FirstGood(eligible, good) == FirstGood(eligible[i..], good)
    {
      if AssessQuote(m, eligible[i], units, spent, now).Approved? {
        return Some(eligible[i]);
      }
    }
    return None;
  }

  /** The allowed quote that comes first by price. */
  ghost predicate Lowest(p: Provider, ps: seq<Provider>, allowed: seq<string>) {
    FirstLowest(p, ps, AllowedBy(allowed))
  }

  ghost predicate NoneAllowed(ps: seq<Provider>, allowed: seq<string>) {
    forall p | p in ps :: p.id !in allowed
  }

  lemma FirstIsLowest(ps: seq<Provider>, allowed: seq<string>)
    ensures Eligible(ps, allowed) == [] <==> NoneAllowed(ps, allowed)
    ensures Eligible(ps, allowed) != [] ==> Lowest(Eligible(ps, allowed)[0], ps, allowed)
  {
    var e := Eligible(ps, allowed);
    EligibleFirst(ps, allowed, AllowedBy(allowed));
    if e != [] {
      assert e[0] in e;
    }
  }

  /** What the controller is asked to sign for a quote. */
  function Proposal(m: Mandate, p: Provider, units: int, spent: int, expiresAt: int): (n: Mandate)
    ensures Raises(m, n)
  {
    m.(version := m.version + 1, maxUnitPrice := Max(m.maxUnitPrice, p.unitPrice),
       dataBudget := Max(m.dataBudget, spent + p.unitPrice * units), expiresAt := expiresAt)
  }

  /** Signing it makes a sound quote payable, and raises each limit no further than the quote needs. */
  lemma ProposalPaysForTheQuote(m: Mandate, p: Provider, units: int, spent: int, expiresAt: int, now: int)
    requires 0 < p.unitPrice && 1 <= units <= 3 && 0 <= spent && spent + p.unitPrice * units <= 9007199254740991
    requires p.network == "hedera:testnet" && p.asset == "HBAR" && p.id in m.allowed && now < expiresAt
    ensures Fits(Proposal(m, p, units, spent, expiresAt), p, units, spent, now)
    ensures forall n | Raises(m, n) && Fits(n, p, units, spent, now) :: Proposal(m, p, units, spent, expiresAt).dataBudget <= n.dataBudget
    ensures forall n | Raises(m, n) && Fits(n, p, units, spent, now) :: Proposal(m, p, units, spent, expiresAt).maxUnitPrice <= n.maxUnitPrice
  {
  }

  // ---------------------------------------------------------------- the run

  function Distinct(xs: seq<string>): (b: bool)
    ensures b <==> |set x | x in xs| == |xs|
  {
    |set x | x in xs| == |xs|
  }

  class Run {
    var id: string
    var live: bool
    var repos: seq<string>
    var status: Status
    var stage: Stage
    var mandate: Mandate
    var providers: seq<Provider>
    var selected: Option<string>
    var dataSpent: int
    var verificationSpent: int
    var evidence: seq<string>
    var receipts: seq<Receipt>
    var events: seq<AuditEvent>
    var shockApplied: bool
    var report: Option<Report>
    var approval: Option<Approval>
    var authorizations: seq<Authorization>

    function View(): Job
      reads this
    {
      Job(id, live, repos, status, stage, mandate, providers, selected, dataSpent, verificationSpent, evidence, receipts,
          events, shockApplied, report, approval, authorizations)
    }

    /** A record parsed from the store. */
    constructor (v: Job)
      ensures View() == v
    {
      id, live, repos, status, stage := v.id, v.live, v.repos, v.status, v.stage;
      mandate, providers, selected := v.mandate, v.providers, v.selected;
      dataSpent, verificationSpent := v.dataSpent, v.verificationSpent;
      evidence, receipts, events, shockApplied := v.evidence, v.receipts, v.events, v.shockApplied;
      report, approval, authorizations := v.report, v.approval, v.authorizations;
    }

    method Log(actor: Actor, kind: Kind, title: string)
      modifies this`events
      ensures old(events) <= events && (Chained(old(events)) ==> Chained(events))
      ensures Notes(events) == Notes(old(events)) + [Note(actor, kind, title)]
      ensures View() == old(View()).(events := events)
    {
      var detail: string := *;
      events := AppendAudit(events, actor, kind, title, detail);
    }

    method RequestApproval(p: Provider, now: int)
      modifies this`approval, this`status, this`events
      ensures status == AwaitingApproval && approval.Some?
      ensures approval == Some(Approval(Proposal(mandate, p, |repos|, dataSpent, now + 3600000), now + 300000))
      ensures View() == old(View()).(status := AwaitingApproval, approval := approval, events := events)
      ensures old(events) <= events && (Chained(old(events)) ==> Chained(events))
      ensures Notes(events) == Notes(old(events)) + [ASKED]
    {
      var proposed := Proposal(mandate, p, |repos|, dataSpent, now + 3600000);
      approval := Some(Approval(proposed, now + 300000));
      status := AwaitingApproval;
      Log(Planner, Blocked, "Human approval required");
    }

    method ValidReceipt(r: Receipt, requestId: string, rail: Rail, amount: int) returns (ok: bool)
      ensures ok <==> Settles(View(), r, requestId, rail, amount)
    {
      if r.live != live || r.requestId != requestId || r.rail != rail ||
         r.asset != (if rail == Hedera then "HBAR" else "USDC") || r.amount != amount {
        return false;
      }
      if live && (!r.settled || r.transactionId.None?) {
        return false;
      }
      return true;
    }

    method Fail()
      modifies this`status, this`events
      ensures old(events) <= events && (Chained(old(events)) ==> Chained(events))
      ensures Notes(events) == Notes(old(events)) + [STOPPED]
      ensures View() == old(View()).(status := Failed, events := events)
    {
      status := Failed;
      Log(Broker, Blocked, "Run stopped");
    }

    method DiscoverServices(quotes: Result<seq<Provider>>) returns (r: Result<()>)
      requires live && status == Running && stage == Discovery
      modifies this
      ensures r.Ok? ==> Advanced(old(View()), View(), [])
      ensures r == if quotes.Crashed? then Crashed else Ok(())
      ensures r.Ok? ==> (status == Failed <==> quotes.Threw? || NoneAllowed(quotes.value, old(mandate).allowed))
      ensures r.Ok? && quotes.Ok? ==> providers == quotes.value
      ensures r.Ok? && status != Failed ==> stage == Purchase && exists p :: Lowest(p, providers, old(mandate).allowed) && selected == Some(p.id)
      ensures r.Ok? ==> Notes(events) == Notes(old(events)) + [if status == Failed then STOPPED else DISCOVERED]
    {
      hide Chained, Asked, BoughtData, BoughtVerification, MayBuyData, MayBuyVerification, Eligible, Lowest, NoneAllowed;
      if quotes.Crashed? {
        return Crashed;
      }
      if quotes.Threw? {
        Fail();
        return Ok(());
      }
      providers := quotes.value;
      var eligible := Eligible(providers, mandate.allowed);
      FirstIsLowest(providers, mandate.allowed);
      if eligible == [] {
        Fail();
        return Ok(());
      }
      selected := Some(eligible[0].id);
      stage := Purchase;
      Log(Planner, Success, "Services discovered");
      return Ok(());
    }

    /** Refresh the quotes, then buy from the cheapest one that fits, ask for a higher mandate, or stop. */
    method BuyEvidence(g: Gateway, a: Answers, now: int) returns (r: Result<()>)
      requires live && status == Running && stage == Purchase
      modifies this, g
      ensures OneCallAtMost(old(View()), old(g.calls), g.calls)
      ensures r.Ok? ==> Advanced(old(View()), View(), g.calls[|old(g.calls)|..])
      ensures r.Ok? ==> PurchaseOutcome(old(View()), View(), g.calls[|old(g.calls)|..], a, now)
      ensures r == if a.quotes.Crashed? || (g.calls != old(g.calls) && a.purchase.Crashed?) then Crashed else Ok(())
    {
      hide Chained, MovedOn, BoughtVerification, Asked, BoughtData, NoneAllowed, AskedFor, MayBuyData, MayBuyVerification, BestQuote, Chosen;
      ghost var before, v := g.calls, View();
      assert before[|before|..] == [];
      if a.quotes.Crashed? {
        return Crashed;
      }
      if a.quotes.Threw? {
        Fail();
        return Ok(());
      }
      providers := a.quotes.value;
      ghost var mid := View();
      r := ChooseQuote(g, a, now);
      QuotesCall(v, mid, before, g.calls);
      if r.Ok? {
        QuotesRefreshed(v, mid, View(), g.calls[|before|..]);
        RefreshedOutcome(v, mid, View(), g.calls[|before|..], a, now);
      }
    }

    /** The quotes are fresh: pay for one of them, or ask for more, or stop. */
    method ChooseQuote(g: Gateway, a: Answers, now: int) returns (r: Result<()>)
      requires live && status == Running && stage == Purchase
      modifies this, g
      ensures OneCallAtMost(old(View()), old(g.calls), g.calls)
      ensures r.Ok? ==> Advanced(old(View()), View(), g.calls[|old(g.calls)|..])
      ensures r.Ok? ==> Chosen(old(View()), View(), g.calls[|old(g.calls)|..], a, now)
      ensures r == if g.calls != old(g.calls) && a.purchase.Crashed? then Crashed else Ok(())
    {
      hide Chained, MovedOn, BoughtVerification, Eligible, Settles, Covers, Proposal, Lowest, NoneAllowed, AskedFor, Evidenced;
      ghost var before := g.calls;
      assert before[|before|..] == [];
      var eligible := Eligible(providers, mandate.allowed);
      ghost var good := FittingIn(mandate, |repos|, dataSpent, now);
      EligibleFirst(providers, mandate.allowed, good);
      var approved := FirstThatFits(eligible, mandate, |repos|, dataSpent, now);
      if approved.None? {
        AskForMore(eligible, now);
        return Ok(());
      }
      r := BuyFrom(g, a, approved.value, now);
    }

    method BuyFrom(g: Gateway, a: Answers, p: Provider, now: int) returns (r: Result<()>)
      requires live && status == Running && stage == Purchase && Fits(mandate, p, |repos|, dataSpent, now)
      modifies this, g
      ensures g.calls == old(g.calls) + [BuyData(id, DataRequest(id), p.id, p.unitPrice, p.unitPrice * |repos|, now)]
      ensures OneCallAtMost(old(View()), old(g.calls), g.calls)
      ensures r.Ok? ==> Advanced(old(View()), View(), g.calls[|old(g.calls)|..]) && (status == Failed || status == Running)
      ensures r.Ok? ==> Evidenced(old(View()), View(), g.calls[|old(g.calls)|], a)
      ensures r == if a.purchase.Crashed? then Crashed else Ok(())
      ensures providers == old(providers) && selected == Some(p.id) && mandate == old(mandate)
    {
      hide Chained, MovedOn, Asked, BoughtVerification, Settles, Covers, Fits, DataRequest, Paid;
      ghost var before, v := g.calls, View();
      if selected != Some(p.id) {
        Log(Planner, Warning, "Provider rerouted");
      }
      selected := Some(p.id);
      Log(Broker, Info, "Payment authorized");
      ghost var mid := View();
      r := PayForEvidence(g, a.purchase, p, now);
      assert g.calls[|before|..] == [g.calls[|before|]];
      QuotesCall(v, mid, before, g.calls);
      if r.Ok? {
        QuotesRefreshed(v, mid, View(), g.calls[|before|..]);
        PaidFrom(v, mid, g.calls[|before|], a.purchase);
      }
    }

    /** No allowed quote fits: ask for the lowest one, or stop if there is none. */
    method AskForMore(eligible: seq<Provider>, now: int)
      requires live && status == Running && stage == Purchase && eligible == Eligible(providers, mandate.allowed)
      requires forall p | p in eligible :: !Fits(mandate, p, |repos|, dataSpent, now)
      modifies this`approval, this`status, this`events
      ensures SameRun(old(View()), View()) && providers == old(providers) && selected == old(selected)
      ensures eligible == [] ==> NoneAllowed(providers, mandate.allowed) && Stopped(old(View()), View(), [])
      ensures eligible == [] ==> Notes(events) == Notes(old(events)) + [STOPPED]
      ensures eligible != [] ==> !NoneAllowed(providers, mandate.allowed) && AskedFor(View(), now) && Asked(old(View()), View(), [])
      ensures eligible != [] ==> Notes(events) == Notes(old(events)) + [ASKED]
    {
      hide Chained, Proposal, Lowest, NoneAllowed, Fits;
      FirstIsLowest(providers, mandate.allowed);
      if eligible == [] {
        Fail();
      } else {
        RequestApproval(eligible[0], now);
      }
    }

    method PayForEvidence(g: Gateway, answer: Result<(Receipt, seq<string>)>, p: Provider, now: int) returns (r: Result<()>)
      requires live && status == Running && stage == Purchase && Fits(mandate, p, |repos|, dataSpent, now)
      modifies this, g
      ensures g.calls == old(g.calls) + [BuyData(id, DataRequest(id), p.id, p.unitPrice, p.unitPrice * |repos|, now)]
      ensures MayBuyData(old(View()), g.calls[|old(g.calls)|])
      ensures providers == old(providers) && repos == old(repos) && mandate == old(mandate) && selected == old(selected)
      ensures r == if answer.Crashed? then Crashed else Ok(())
      ensures r.Ok? ==> (status == Running && Paid(old(View()), g.calls[|old(g.calls)|], answer)) || (status == Failed && !Paid(old(View()), g.calls[|old(g.calls)|], answer))
      ensures r.Ok? && status == Running ==> evidence == answer.value.1 && receipts == old(receipts) + [answer.value.0]
      ensures r.Ok? ==> Stopped(old(View()), View(), g.calls[|old(g.calls)|..]) || BoughtData(old(View()), View(), g.calls[|old(g.calls)|..])
      ensures r.Ok? ==> Notes(events) == Notes(old(events)) + [if status == Failed then STOPPED else SETTLED]
      ensures SameRun(old(View()), View())
    {
      hide Chained, MayBuyVerification;
      var amount := p.unitPrice * |repos|;
      var c := BuyData(id, DataRequest(id), p.id, p.unitPrice, amount, now);
      ghost var before := g.calls;
      var result := g.PurchaseData(c, answer);
      assert g.calls[|before|..] == [c];
      if result.Crashed? {
        return Crashed;
      }
      if result.Threw? {
        Fail();
        return Ok(());
      }
      var receipt, found := result.value.0, result.value.1;
      CoversEach(found, repos);
      var valid := ValidReceipt(receipt, DataRequest(id), Hedera, amount);
      if !valid || |found| != |repos| || (exists e | e in found :: e !in repos) || !Distinct(found) {
        Fail();
        return Ok(());
      }
      BookEvidence(receipt, found, c);
      return Ok(());
    }

    method BookEvidence(receipt: Receipt, found: seq<string>, ghost c: Call)
      requires status == Running && MayBuyData(View(), c)
      requires Settles(View(), receipt, DataRequest(id), Hedera, c.amount) && Covers(found, repos)
      modifies this
      ensures SameRun(old(View()), View()) && BoughtData(old(View()), View(), [c]) && providers == old(providers) && mandate == old(mandate)
      ensures evidence == found && receipts == old(receipts) + [receipt] && selected == old(selected)
      ensures Notes(events) == Notes(old(events)) + [SETTLED]
    {
      hide Chained, Fits, Covers;
      ghost var v := View();
      evidence := found;
      receipts := receipts + [receipt];
      dataSpent := dataSpent + receipt.amount;
      stage := ReportStage;
      Log(Broker, Success, "Hedera payment settled");
      assert receipts[..|v.receipts|] == v.receipts;
    }

    method DraftReport(summary: Result<()>) returns (r: Result<()>)
      requires live && status == Running && stage == ReportStage
      modifies this
      ensures r.Ok? ==> Advanced(old(View()), View(), [])
      ensures r == if summary.Crashed? then Crashed else Ok(())
      ensures r.Ok? ==> (status == Failed <==> summary.Threw?)
      ensures r.Ok? && status != Failed ==> report == Some(Report(evidence, false)) && evidence == old(evidence)
      ensures r.Ok? ==> Notes(events) == Notes(old(events)) + [if status == Failed then STOPPED else DRAFTED]
    {
      hide Chained, Asked, BoughtData, BoughtVerification;
      if summary.Crashed? {
        return Crashed;
      }
      if summary.Threw? {
        Fail();
        return Ok(());
      }
      report := Some(Report(evidence, false));
      stage := Verification;
      Log(Worker, Success, "Report drafted");
      return Ok(());
    }

    method BuyChecks(g: Gateway, a: Answers) returns (r: Result<()>)
      requires live && status == Running && stage == Verification
      modifies this, g
      ensures OneCallAtMost(old(View()), old(g.calls), g.calls)
      ensures r.Ok? ==> Advanced(old(View()), View(), g.calls[|old(g.calls)|..])
      ensures g.calls == old(g.calls) <==> VerificationBlocked(old(View()))
      ensures r == if g.calls != old(g.calls) && a.verification.Crashed? then Crashed else Ok(())
      ensures r.Ok? ==> Verified(old(View()), View(), g.calls[|old(g.calls)|..], a)
      ensures r.Ok? ==> Notes(events) == Notes(old(events)) + [if status == Failed then STOPPED else CHECKED]
    {
      hide Chained, Asked, BoughtData, MovedOn, Covers;
      ghost var before := g.calls;
      assert before[|before|..] == [];
      var amount := VerificationPrice(mandate);
      if verificationSpent + amount > mandate.verificationBudget || report.None? {
        Fail();
        return Ok(());
      }
      var c := BuyVerification(id, VerificationRequest(id), amount);
      var result := g.Verify(c, a.verification);
      assert g.calls[|before|..] == [c];
      if result.Crashed? {
        return Crashed;
      }
      if result.Threw? {
        Fail();
        return Ok(());
      }
      var receipt, checks := result.value.0, result.value.1;
      var valid := ValidReceipt(receipt, VerificationRequest(id), Arc, amount);
      if !valid {
        Fail();
        return Ok(());
      }
      BookVerification(receipt, checks, a.wellSourced, c);
      return Ok(());
    }

    /** The receipt is booked first; checks that do not pass fail the run afterwards. */
    method BookVerification(receipt: Receipt, checks: seq<bool>, wellSourced: bool, ghost c: Call)
      requires status == Running && live && MayBuyVerification(View(), c)
      requires Settles(View(), receipt, VerificationRequest(id), Arc, c.amount)
      modifies this
      ensures SameRun(old(View()), View()) && BoughtVerification(old(View()), View(), [c])
      ensures receipts == old(receipts) + [receipt]
      ensures Judged(old(report).value, report, status, checks, wellSourced)
      ensures Notes(events) == Notes(old(events)) + [if status == Failed then STOPPED else CHECKED]
    {
      hide Chained, Settles, BoughtVerification, VerificationPrice;
      ghost var v := View();
      receipts := receipts + [receipt];
      verificationSpent := verificationSpent + receipt.amount;
      ghost var booked := View();
      JudgeAndEnd(checks, wellSourced);
      VerificationBooked(v, booked, View(), receipt, c);
    }

    /** The checks decide how the run ends. */
    method JudgeAndEnd(checks: seq<bool>, wellSourced: bool)
      requires report.Some?
      modifies this`report, this`status, this`stage, this`events
      ensures View() == old(View()).(report := report, status := status, stage := stage, events := events)
      ensures (status == Completed && stage == Complete && report.Some? && report.value.verified) || (status == Failed && stage == old(stage))
      ensures Judged(old(report).value, report, status, checks, wellSourced)
      ensures old(events) <= events && (Chained(old(events)) ==> Chained(events))
      ensures Notes(events) == Notes(old(events)) + [if status == Failed then STOPPED else CHECKED]
    {
      hide Chained;
      var passed := Judge(checks, wellSourced);
      if passed {
        stage, status := Complete, Completed;
        Log(Verifier, Success, "Evidence checked");
      } else {
        Fail();
      }
    }

    /** A verifier that returns no checks leaves the report as it was. */
    method Judge(checks: seq<bool>, wellSourced: bool) returns (passed: bool)
      requires report.Some?
      modifies this`report
      ensures View() == old(View()).(report := report)
      ensures report.Some? && (passed ==> report.value.verified)
      ensures Judged(old(report).value, report, if passed then Completed else Failed, checks, wellSourced)
    {
      if checks == [] {
        return false;
      }
      var evidence := report.value.evidence;
      passed := false !in checks && evidence != [] && Distinct(evidence) && wellSourced;
      report := Some(Report(evidence, passed));
    }

    /** One step of an active run. A crash leaves nothing of this process's memory; every other
        failure is recorded in the run. */
    method AdvanceRun(g: Gateway, a: Answers, now: int) returns (r: Result<()>)
      requires Sound(View())
      modifies this, g
      ensures OneCallAtMost(old(View()), old(g.calls), g.calls)
      ensures r.Threw? <==> !old(live)
      ensures r.Threw? ==> View() == old(View()) && g.calls == old(g.calls)
      ensures r.Ok? ==> EngineStep(old(View()), View(), g.calls[|old(g.calls)|..])
      ensures r.Ok? && !Active(old(status)) ==> View() == old(View()) && g.calls == old(g.calls)
      ensures r.Ok? && Active(old(status)) ==> Outcome(old(View()), View(), g.calls[|old(g.calls)|..], a, now)
      ensures r.Crashed? ==> old(live) && Active(old(status)) && now < old(mandate).expiresAt && DiedIn(old(stage), a)
    {
      hide Chained, Advanced, MayBuyData, MayBuyVerification, Outcome, Told;
      ghost var before, v := g.calls, View();
      assert before[|before|..] == [];
      if !live {
        return Threw;
      }
      if !Active(status) {
        return Ok(());
      }
      status := Running;
      ghost var running := View();
      r := Act(g, a, now);
      StartedCall(v, running, before, g.calls);
      if r.Ok? {
        StartedRunning(v, running, View(), g.calls[|before|..]);
        StartedOutcome(v, running, View(), g.calls[|before|..], a, now);
      }
    }

    /** The stage decides what a running run does next. */
    method Act(g: Gateway, a: Answers, now: int) returns (r: Result<()>)
      requires live && status == Running && stage != Complete
      modifies this, g
      ensures OneCallAtMost(old(View()), old(g.calls), g.calls)
      ensures r.Ok? ==> Advanced(old(View()), View(), g.calls[|old(g.calls)|..]) && Outcome(old(View()), View(), g.calls[|old(g.calls)|..], a, now)
      ensures !r.Threw? && (r.Crashed? ==> now < old(mandate).expiresAt && DiedIn(old(stage), a))
    {
      hide Chained, Asked, BoughtData, MayBuyData, MayBuyVerification, BoughtVerification, Verified, PurchaseOutcome, Lowest, NoneAllowed, VerificationBlocked;
      ghost var before := g.calls;
      assert before[|before|..] == [];
      r := Ok(());
      if mandate.expiresAt <= now {
        Fail();
      } else if stage == MandateStage {
        Log(Broker, Success, "Mandate accepted");
        stage := Discovery;
      } else if stage == Discovery {
        r := DiscoverServices(a.quotes);
      } else if stage == Purchase {
        r := BuyEvidence(g, a, now);
      } else if stage == ReportStage {
        r := DraftReport(a.summary);
      } else {
        r := BuyChecks(g, a);
      }
    }

    method ApplyShock(quotes: seq<Provider>) returns (r: Result<()>)
      modifies this
      ensures !r.Crashed? && (r.Threw? ==> View() == old(View()))
      ensures r.Ok? <==> old(live && BeforePurchase(stage) && (Active(status) || status == Paused)) && quotes != []
      ensures r.Ok? ==> live && SameRun(old(View()), View()) && Repriced(old(View()), View(), []) && providers == quotes
      ensures r.Ok? ==> Told(old(View()), View(), [Note(Supervisor, Warning, "Provider price increased")])
    {
      hide Chained, Advanced, WasApproved, PauseFlipped;
      if !live || !BeforePurchase(stage) || status in {Completed, Failed, AwaitingApproval} || quotes == [] {
        return Threw;
      }
      providers, shockApplied := quotes, true;
      Log(Supervisor, Warning, "Provider price increased");
      return Ok(());
    }

    /** `signed` says whether the configured controller signed this approval's message. */
    method ApproveRun(signed: bool, now: int) returns (r: Result<()>)
      modifies this
      ensures !r.Crashed? && (r.Threw? ==> View() == old(View()))
      ensures r.Ok? <==> old(live && status == AwaitingApproval && approval.Some? && now < approval.value.expiresAt && approval.value.proposed.version == mandate.version + 1) && signed
      ensures r.Ok? ==> live && signed && SameRun(old(View()), View()) && WasApproved(old(View()), View(), [])
      ensures r.Ok? ==> Told(old(View()), View(), [Note(Supervisor, Success, "Controller signature verified")])
    {
      hide Chained, Advanced, Repriced, PauseFlipped, Raises;
      ghost var v := View();
      if !live || approval.None? || status != AwaitingApproval || approval.value.expiresAt <= now ||
         approval.value.proposed.version != mandate.version + 1 || !signed {
        return Threw;
      }
      authorizations := authorizations + [Authorization(mandate, approval.value.proposed)];
      mandate, approval, status := approval.value.proposed, None, Running;
      assert View() == v.(mandate := mandate, authorizations := authorizations, approval := None, status := Running);
      Log(Supervisor, Success, "Controller signature verified");
      return Ok(());
    }

    method PauseRun() returns (r: Result<()>)
      modifies this
      ensures !r.Crashed? && (r.Threw? ==> View() == old(View()))
      ensures r.Ok? <==> old(live && (Active(status) || status == Paused))
      ensures r.Ok? ==> live && SameRun(old(View()), View()) && PauseFlipped(old(View()), View(), [])
      ensures r.Ok? ==> Told(old(View()), View(), [Note(Supervisor, Warning, if old(status) == Paused then "Run resumed" else "Run paused")])
    {
      hide Chained, Advanced, WasApproved, Repriced;
      if !live || status in {Failed, Completed, AwaitingApproval} {
        return Threw;
      }
      status := if status == Paused then Running else Paused;
      Log(Supervisor, Warning, if status == Paused then "Run paused" else "Run resumed");
      return Ok(());
    }
  }

  /** The limits a caller may set; what is missing takes its default. */
  datatype Limits = Limits(dataBudget: Option<int>, maxUnitPrice: Option<int>, verificationBudget: Option<int>,
                           allowed: Option<seq<string>>, expiresAt: Option<int>, verificationPrice: Option<int>)

  function Or<T>(o: Option<T>, default: T): T {
    if o.Some? then o.value else default
  }

  ghost predicate Atomic(o: Option<int>) {
    o.Some? ==> 0 < o.value <= 100000000
  }

  /** Every limit that was asked for is the mandate's, and every one left out has its default. */
  ghost predicate AsAsked(m: Mandate, l: Limits, now: int) {
    && m.version == 1 && m.verificationPrice == l.verificationPrice
    && m.dataBudget == (match l.dataBudget case None => 2000000 case Some(n) => n)
    && m.maxUnitPrice == (match l.maxUnitPrice case None => 150000 case Some(n) => n)
    && m.verificationBudget == (match l.verificationBudget case None => 100000 case Some(n) => n)
    && m.allowed == (match l.allowed case None => ["repo-standard", "repo-economy"] case Some(ids) => ids)
    && m.expiresAt == (match l.expiresAt case None => now + 60 * 60 * 1000 case Some(t) => t)
  }

  /** A run that has done nothing yet. */
  ghost predicate Fresh(v: Job, id: string, repos: seq<string>, limits: Limits, now: int) {
    && v == Job(id, true, repos, Ready, MandateStage, v.mandate, [], None, 0, 0, [], [], v.events, false, None, None, [])
    && AsAsked(v.mandate, limits, now) && Notes(v.events) == [Note(Supervisor, Info, "Mandate created")]
  }

  /** The input has passed its schema; ids are fresh random ones. */
  method CreateRun(id: string, repos: seq<string>, limits: Limits, now: int) returns (r: Result<Run>)
    requires 1 <= |repos| <= 3
    requires Atomic(limits.dataBudget) && Atomic(limits.maxUnitPrice) && Atomic(limits.verificationBudget) && Atomic(limits.verificationPrice)
    ensures r.Ok? <==> (match limits.expiresAt case None => true case Some(t) => now < t <= now + 24 * 60 * 60 * 1000)
    ensures r.Ok? ==> fresh(r.value) && Sound(r.value.View()) && Fresh(r.value.View(), id, repos, limits, now)
  {
    var mandate := Mandate(Or(limits.dataBudget, 2000000), Or(limits.maxUnitPrice, 150000), Or(limits.verificationBudget, 100000),
                           Or(limits.allowed, ["repo-standard", "repo-economy"]), Or(limits.expiresAt, now + 3600000), 1,
                           limits.verificationPrice);
    if mandate.expiresAt <= now || mandate.expiresAt > now + 86400000 {
      return Threw;
    }
    var run := new Run(Job(id, true, repos, Ready, MandateStage, mandate, [], None, 0, 0, [], [], [], false, None, None, []));
    run.Log(Supervisor, Info, "Mandate created");
    return Ok(run);
  }

  /** A run through `vs`, one action after the other, with the paid calls of each. */
  ghost predicate Course(vs: seq<Job>, calls: seq<seq<Call>>) {
    |vs| == |calls| + 1 && forall i | 0 <= i < |calls| :: EngineStep(vs[i], vs[i + 1], calls[i])
  }

  /** As long as no approval has been signed, the mandate is the one the run began with. */
  lemma {:induction false} MandateStays(vs: seq<Job>, calls: seq<seq<Call>>, n: nat)
    requires Course(vs, calls) && n < |vs| && vs[n].authorizations == []
    ensures vs[n].mandate == vs[0].mandate && vs[n].repos == vs[0].repos
  {
    hide Chained, Fits, MayBuyData, MayBuyVerification, Settles, Covers;
    if n > 0 {
      assert EngineStep(vs[n - 1], vs[n], calls[n - 1]);
      MandateStays(vs, calls, n - 1);
    }
  }

  lemma PaidCallsAreAllowed(v: Job, w: Job, calls: seq<Call>, c: Call)
    requires EngineStep(v, w, calls) && c in calls
    ensures MayBuyData(v, c) || MayBuyVerification(v, c)
    ensures w.authorizations == v.authorizations
  {
    hide Chained, Fits, Settles, Covers, MayBuyData, MayBuyVerification;
  }

  lemma SoundCourse(vs: seq<Job>, calls: seq<seq<Call>>, n: nat)
    requires Course(vs, calls) && Sound(vs[0]) && n < |vs|
    ensures Sound(vs[n])
  {
    if n > 0 {
      SoundCourse(vs, calls, n - 1);
      assert EngineStep(vs[n - 1], vs[n], calls[n - 1]);
      StepKeepsSound(vs[n - 1], vs[n], calls[n - 1]);
    }
  }

  /** Until an approval is signed, a run buys only what the limits it was created with allow: from a
      provider on the list, at no more than the unit price, within the budgets and before the expiry. */
  lemma FreshRunWithinLimits(vs: seq<Job>, calls: seq<seq<Call>>, n: nat, c: Call, id: string, repos: seq<string>, limits: Limits, now: int)
    requires Course(vs, calls) && Fresh(vs[0], id, repos, limits, now) && Sound(vs[0])
    requires n < |calls| && c in calls[n] && vs[n].authorizations == []
    ensures c.BuyData? ==>
              && c.provider in (match limits.allowed case None => ["repo-standard", "repo-economy"] case Some(ids) => ids)
              && c.unitPrice <= (match limits.maxUnitPrice case None => 150000 case Some(price) => price)
              && c.amount == c.unitPrice * |repos| <= (match limits.dataBudget case None => 2000000 case Some(budget) => budget)
              && c.at < (match limits.expiresAt case None => now + 60 * 60 * 1000 case Some(t) => t)
    ensures c.BuyVerification? ==>
              && c.amount == (match limits.verificationPrice case None => 50000 case Some(price) => price)
              && c.amount <= (match limits.verificationBudget case None => 100000 case Some(budget) => budget)
  {
    MandateStays(vs, calls, n);
    SoundCourse(vs, calls, n);
    assert EngineStep(vs[n], vs[n + 1], calls[n]);
    PaidCallsAreAllowed(vs[n], vs[n + 1], calls[n], c);
  }

  ghost predicate OneCallAtMost(v: Job, before: seq<Call>, after: seq<Call>) {
    || after == before
    || (|after| == |before| + 1 && after[..|before|] == before && (MayBuyData(v, after[|before|]) || MayBuyVerification(v, after[|before|])))
  }

  // ---------------------------------------------------------------- what an action came to

  const STOPPED := Note(Broker, Blocked, "Run stopped")
  const ACCEPTED := Note(Broker, Success, "Mandate accepted")
  const DISCOVERED := Note(Planner, Success, "Services discovered")
  const ASKED := Note(Planner, Blocked, "Human approval required")
  const REROUTED := Note(Planner, Warning, "Provider rerouted")
  const AUTHORIZED := Note(Broker, Info, "Payment authorized")
  const SETTLED := Note(Broker, Success, "Hedera payment settled")
  const DRAFTED := Note(Worker, Success, "Report drafted")
  const CHECKED := Note(Verifier, Success, "Evidence checked")

  /** The log has gained exactly these notes. */
  ghost predicate Told(v: Job, w: Job, notes: seq<Note>) {
    Notes(w.events) == Notes(v.events) + notes
  }

  /** Bought from the allowed quote of the refreshed list that fits the mandate and comes first by price. */
  ghost predicate BestQuote(c: Call, quotes: seq<Provider>, m: Mandate, units: int, spent: int, now: int) {
    c.BuyData? && c.at == now &&
    exists p :: FirstLowest(p, quotes, FittingIn(m, units, spent, now)) && c.provider == p.id && c.unitPrice == p.unitPrice
  }

  ghost predicate SomeFits(v: Job, quotes: seq<Provider>, now: int) {
    exists p :: p in quotes && p.id in v.mandate.allowed && Fits(v.mandate, p, |v.repos|, v.dataSpent, now)
  }

  /** An approval is asked for only when no allowed quote fits, and then for the lowest one. */
  ghost predicate AskedFor(w: Job, now: int) {
    && (forall p | p in w.providers && p.id in w.mandate.allowed :: !Fits(w.mandate, p, |w.repos|, w.dataSpent, now))
    && exists p :: Lowest(p, w.providers, w.mandate.allowed) && w.approval == Some(Approval(Proposal(w.mandate, p, |w.repos|, w.dataSpent, now + 3600000), now + 300000))
  }

  /** A receipt for exactly this purchase, and one record for each repository. */
  ghost predicate Paid(v: Job, c: Call, answer: Result<(Receipt, seq<string>)>) {
    c.BuyData? && answer.Ok? && Settles(v, answer.value.0, v.id + ":data", Hedera, c.amount) && Covers(answer.value.1, v.repos)
  }

  /** The purchase was answered: what is kept of the answer, and why the run stops without it. */
  ghost predicate Evidenced(v: Job, w: Job, c: Call, a: Answers) {
    && c.BuyData? && w.selected == Some(c.provider)
    && (w.status.Failed? <==> !Paid(v, c, a.purchase))
    && (!w.status.Failed? ==> w.stage.ReportStage? && w.evidence == a.purchase.value.1 && w.receipts == v.receipts + [a.purchase.value.0])
    && Told(v, w, (if v.selected == w.selected then [] else [REROUTED]) + [AUTHORIZED] + [if w.status.Failed? then STOPPED else SETTLED])
  }

  /** What choosing among the quotes of `v` came to. */
  ghost predicate Chosen(v: Job, w: Job, calls: seq<Call>, a: Answers, now: int) {
    && w.providers == v.providers
    && (calls != [] <==> SomeFits(v, v.providers, now))
    && (if calls != [] then BestQuote(calls[0], v.providers, v.mandate, |v.repos|, v.dataSpent, now) && Evidenced(v, w, calls[0], a)
        else if NoneAllowed(v.providers, v.mandate.allowed) then w.status.Failed? && Told(v, w, [STOPPED])
        else w.status.AwaitingApproval? && AskedFor(w, now) && Told(v, w, [ASKED]))
  }

  ghost predicate PurchaseOutcome(v: Job, w: Job, calls: seq<Call>, a: Answers, now: int) {
    match a.quotes
    case Ok(quotes) => w.providers == quotes && Chosen(v.(providers := quotes), w, calls, a, now)
    case Threw => w.status.Failed? && calls == [] && Told(v, w, [STOPPED])
    case Crashed => false
  }

  ghost predicate VerificationBlocked(v: Job) {
    || v.report.None?
    || v.verificationSpent + (match v.mandate.verificationPrice case None => 50000 case Some(price) => price) > v.mandate.verificationBudget
  }

  /** The verifier's checks and the run's own ones decide; without any check nothing is judged. */
  ghost predicate Judged(drafted: Report, report: Option<Report>, status: Status, checks: seq<bool>, wellSourced: bool) {
    var evidence := drafted.evidence;
    var passed := checks != [] && (forall c | c in checks :: c) && evidence != [] && |set e | e in evidence| == |evidence| && wellSourced;
    && (status.Completed? <==> passed)
    && report == Some(if checks == [] then drafted else Report(evidence, passed))
  }

  /** What the paid verification came to. */
  ghost predicate Verified(v: Job, w: Job, calls: seq<Call>, a: Answers) {
    if VerificationBlocked(v) then calls == [] && w.status.Failed? && w.receipts == v.receipts
    else
      && |calls| == 1 && calls[0].BuyVerification?
      && match a.verification
         case Ok((receipt, checks)) =>
           if Settles(v, receipt, v.id + ":verify", Arc, calls[0].amount)
           then w.receipts == v.receipts + [receipt] && Judged(v.report.value, w.report, w.status, checks, a.wellSourced)
           else w.status.Failed? && w.receipts == v.receipts
         case Threw => w.status.Failed? && w.receipts == v.receipts
         case Crashed => false
  }

  /** How an action of an active run ends, given what the services answer. */
  ghost predicate Outcome(v: Job, w: Job, calls: seq<Call>, a: Answers, now: int) {
    if v.mandate.expiresAt <= now then w.status.Failed? && calls == [] && Told(v, w, [STOPPED])
    else match v.stage
      case MandateStage => w.stage.Discovery? && calls == [] && Told(v, w, [ACCEPTED])
      case Discovery =>
        && !a.quotes.Crashed? && calls == []
        && (w.status.Failed? <==> a.quotes.Threw? || NoneAllowed(a.quotes.value, v.mandate.allowed))
        && (a.quotes.Ok? ==> w.providers == a.quotes.value)
        && (!w.status.Failed? ==> w.stage.Purchase? && exists p :: Lowest(p, w.providers, v.mandate.allowed) && w.selected == Some(p.id))
        && Told(v, w, [if w.status.Failed? then STOPPED else DISCOVERED])
      case Purchase => PurchaseOutcome(v, w, calls, a, now)
      case ReportStage =>
        && !a.summary.Crashed? && calls == []
        && (w.status.Failed? <==> a.summary.Threw?)
        && (!w.status.Failed? ==> w.report == Some(Report(v.evidence, false)))
        && Told(v, w, [if w.status.Failed? then STOPPED else DRAFTED])
      case _ => Verified(v, w, calls, a) && Told(v, w, [if w.status.Failed? then STOPPED else CHECKED])
  }

  /** The answers a process can die of in a stage. */
  ghost predicate DiedIn(stage: Stage, a: Answers) {
    match stage
    case Discovery => a.quotes.Crashed?
    case Purchase => a.quotes.Crashed? || a.purchase.Crashed?
    case ReportStage => a.summary.Crashed?
    case Verification => a.verification.Crashed?
    case _ => false
  }

  lemma CoversEach(found: seq<string>, repos: seq<string>)
    ensures Covers(found, repos) <==> |found| == |repos| && (forall e | e in found :: e in repos) && Distinct(found)
  {
    if Covers(found, repos) {
      forall e | e in found
        ensures e in repos
      {
        var all, wanted := set e | e in found, set r | r in repos;
        assert e in all && all <= wanted;
      }
    }
  }

  lemma PaidFrom(v: Job, mid: Job, c: Call, answer: Result<(Receipt, seq<string>)>)
    requires mid == v.(selected := mid.selected, events := mid.events)
    ensures Paid(mid, c, answer) <==> Paid(v, c, answer)
  {
  }

  lemma RefreshedOutcome(v: Job, mid: Job, w: Job, calls: seq<Call>, a: Answers, now: int)
    requires a.quotes.Ok? && mid == v.(providers := a.quotes.value) && Chosen(mid, w, calls, a, now)
    ensures PurchaseOutcome(v, w, calls, a, now)
  {
  }

  /** Marking a run as running changes nothing the outcome depends on. */
  lemma StartedOutcome(v: Job, running: Job, w: Job, calls: seq<Call>, a: Answers, now: int)
    requires running == v.(status := Running) && Outcome(running, w, calls, a, now)
    ensures Outcome(v, w, calls, a, now)
  {
    hide NoneAllowed, Lowest, BestQuote, AskedFor, Covers, Judged;
    if v.stage.Purchase? && a.quotes.Ok? && calls != [] {
      StartedChoice(v.(providers := a.quotes.value), running.(providers := a.quotes.value), w, calls, a, now);
    }
  }

  lemma StartedChoice(v: Job, running: Job, w: Job, calls: seq<Call>, a: Answers, now: int)
    requires running == v.(status := Running) && Chosen(running, w, calls, a, now)
    ensures Chosen(v, w, calls, a, now)
  {
    hide NoneAllowed, Lowest, BestQuote, AskedFor, Covers;
    assert SomeFits(running, running.providers, now) <==> SomeFits(v, v.providers, now);
    if calls != [] {
      assert Paid(running, calls[0], a.purchase) <==> Paid(v, calls[0], a.purchase);
    }
  }

  lemma VerificationBooked(v: Job, booked: Job, w: Job, receipt: Receipt, c: Call)
    requires MayBuyVerification(v, c) && Settles(v, receipt, v.id + ":verify", Arc, c.amount)
    requires booked == v.(receipts := v.receipts + [receipt], verificationSpent := v.verificationSpent + receipt.amount)
    requires w == booked.(report := w.report, status := w.status, stage := w.stage, events := w.events)
    requires (w.status.Completed? && w.stage.Complete? && w.report.Some? && w.report.value.verified) || (w.status.Failed? && w.stage == v.stage)
    ensures BoughtVerification(v, w, [c])
  {
    assert w.receipts[..|v.receipts|] == v.receipts;
  }

  lemma StartedRunning(v: Job, running: Job, w: Job, calls: seq<Call>)
    requires Active(v.status) && running == v.(status := Running) && Advanced(running, w, calls)
    ensures Advanced(v, w, calls)
  {
    hide Chained, Fits, Covers;
  }

  lemma StartedCall(v: Job, running: Job, before: seq<Call>, after: seq<Call>)
    requires Active(v.status) && running == v.(status := Running) && OneCallAtMost(running, before, after)
    ensures OneCallAtMost(v, before, after)
  {
    hide Fits;
  }

  /** Refreshing the quotes and naming the provider change nothing a payment depends on. */
  lemma QuotesRefreshed(v: Job, mid: Job, w: Job, calls: seq<Call>)
    requires v.stage.Purchase? && SameRun(v, mid)
    requires mid == v.(providers := mid.providers, selected := mid.selected, events := mid.events)
    requires Advanced(mid, w, calls)
    ensures Advanced(v, w, calls)
  {
    hide Chained, Fits, Covers;
  }

  lemma QuotesCall(v: Job, mid: Job, before: seq<Call>, after: seq<Call>)
    requires mid == v.(providers := mid.providers, selected := mid.selected, events := mid.events)
    requires OneCallAtMost(mid, before, after)
    ensures OneCallAtMost(v, before, after)
  {
    hide Fits;
  }
}
