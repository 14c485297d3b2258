/** The research run: one data purchase, one verification, both within the mandate. */
module RunEngine {
  import opened Effects
  import opened Policy

  datatype Status = Ready | Running | AwaitingApproval | Paused | Completed | Failed
  datatype Stage = MandateStage | Discovery | Purchase | ReportStage | Verification | Complete
  datatype Rail = Hedera | Arc
  datatype Receipt = Receipt(requestId: string, rail: Rail, asset: string, amount: int, live: bool, settled: bool, transactionId: Option<string>)
  datatype Approval = Approval(proposed: Mandate, expiresAt: int)
  datatype Authorization = Authorization(previous: Mandate, approved: Mandate)
  datatype Report = Report(evidence: seq<string>, verified: bool)

  /** Everything a run record holds, as it is stored. */
  datatype Job = Job(id: string, live: bool, repos: seq<string>, status: Status, stage: Stage, mandate: Mandate,
                     providers: seq<Provider>, selected: Option<string>, dataSpent: int, verificationSpent: int,
                     evidence: seq<string>, receipts: seq<Receipt>, events: seq<AuditEvent>, shockApplied: bool,
                     report: Option<Report>, approval: Option<Approval>, authorizations: seq<Authorization>)

  /** The two calls that move money. */
  datatype Call =
    | BuyData(runId: string, requestId: string, provider: string, unitPrice: int, amount: int, at: int)
    | BuyVerification(runId: string, requestId: string, amount: int)

  function DataRequest(id: string): string { id + ":data" }
  function VerificationRequest(id: string): string { id + ":verify" }

  function VerificationPrice(m: Mandate): int {
    if m.verificationPrice.Some? then m.verificationPrice.value else 50000
  }

  function Max(a: int, b: int): (m: int)
    ensures m >= a && m >= b && (m == a || m == b)
  {
    if a < b then b else a
  }

  // ---------------------------------------------------------------- money

  ghost function Spent(receipts: seq<Receipt>, rail: Rail): int {
    if receipts == [] then 0
    else
      var last := receipts[|receipts| - 1];
      Spent(receipts[..|receipts| - 1], rail) + if last.rail == rail then last.amount else 0
  }

  /** Every raise of the mandate was signed for, one version at a time. */
  ghost predicate Signed(authorizations: seq<Authorization>, m: Mandate) {
    if authorizations == [] then m.version == 1
    else
      var last := authorizations[|authorizations| - 1];
      last.approved == m && last.approved.version == last.previous.version + 1 &&
      Raises(last.previous, last.approved) && Signed(authorizations[..|authorizations| - 1], last.previous)
  }

  /** An approval may raise the two data limits and move the expiry; nothing else changes. */
  ghost predicate Raises(m: Mandate, n: Mandate) {
    n.maxUnitPrice >= m.maxUnitPrice && n.dataBudget >= m.dataBudget &&
    n == m.(version := m.version + 1, maxUnitPrice := n.maxUnitPrice, dataBudget := n.dataBudget, expiresAt := n.expiresAt)
  }

  ghost predicate Sound(v: Job) {
    && v.dataSpent == Spent(v.receipts, Hedera) && v.verificationSpent == Spent(v.receipts, Arc)
    && 0 <= v.dataSpent <= v.mandate.dataBudget && 0 <= v.verificationSpent <= v.mandate.verificationBudget
    && Signed(v.authorizations, v.mandate)
    && (v.status.AwaitingApproval? ==> v.stage.Purchase? && v.approval.Some? && Raises(v.mandate, v.approval.value.proposed))
    && (v.stage.Complete? ==> v.status.Completed? || v.status.Failed?)
    && (v.status.Completed? ==> v.stage.Complete?)
    && 0 <= VerificationPrice(v.mandate)
    && Chained(v.events)
  }

  predicate Active(s: Status) {
    s.Ready? || s.Running?
  }

  predicate BeforePurchase(s: Stage) {
    s.MandateStage? || s.Discovery? || s.Purchase?
  }

  // ---------------------------------------------------------------- what one action may do

  /** Spending, receipts and the mandate are as before. */
  ghost predicate SameMoney(v: Job, w: Job) {
    w.dataSpent == v.dataSpent && w.verificationSpent == v.verificationSpent && w.receipts == v.receipts &&
    w.mandate == v.mandate && w.authorizations == v.authorizations
  }

  ghost predicate SameRun(v: Job, w: Job) {
    w.id == v.id && w.repos == v.repos && w.live == v.live && v.events <= w.events && (Chained(v.events) ==> Chained(w.events))
  }

  /** The one purchase a run may make now: an allowed quote, in full, within the mandate. */
  ghost predicate MayBuyData(v: Job, c: Call) {
    && Active(v.status) && v.stage.Purchase? && c.BuyData? && c.runId == v.id && c.requestId == v.id + ":data"
    && c.amount == c.unitPrice * |v.repos|
    && Fits(v.mandate, Provider(c.provider, "hedera:testnet", "HBAR", c.unitPrice), |v.repos|, v.dataSpent, c.at)
  }

  ghost predicate MayBuyVerification(v: Job, c: Call) {
    && Active(v.status) && v.stage.Verification? && v.report.Some? && c.BuyVerification? && c.runId == v.id
    && c.requestId == v.id + ":verify" && c.amount == (match v.mandate.verificationPrice case None => 50000 case Some(price) => price)
    && v.verificationSpent + c.amount <= v.mandate.verificationBudget
  }

  ghost predicate Settles(v: Job, r: Receipt, requestId: string, rail: Rail, amount: int) {
    && r.requestId == requestId && r.rail == rail && r.amount == amount && r.live == v.live
    && r.asset == (if rail.Hedera? then "HBAR" else "USDC") && (v.live ==> r.settled && r.transactionId.Some?)
  }

  /** An action ended in failure; the money it may have moved is not booked. */
  ghost predicate Stopped(v: Job, w: Job, calls: seq<Call>) {
    && Active(v.status) && w.status.Failed? && w.stage == v.stage && SameMoney(v, w)
    && (calls == [] || (|calls| == 1 && (MayBuyData(v, calls[0]) || MayBuyVerification(v, calls[0]))))
  }

  ghost predicate MovedOn(v: Job, w: Job, calls: seq<Call>) {
    && Active(v.status) && w.status.Running? && SameMoney(v, w) && calls == []
    && (match v.stage
        case MandateStage => w.stage.Discovery?
        case Discovery => w.stage.Purchase?
        case ReportStage => w.stage.Verification? && w.report.Some?
        case _ => false)
  }

  ghost predicate Asked(v: Job, w: Job, calls: seq<Call>) {
    && Active(v.status) && v.stage.Purchase? && w.stage.Purchase? && w.status.AwaitingApproval? && SameMoney(v, w)
    && calls == [] && w.approval.Some? && Raises(v.mandate, w.approval.value.proposed)
  }

  ghost predicate BoughtData(v: Job, w: Job, calls: seq<Call>) {
    && |calls| == 1 && MayBuyData(v, calls[0]) && w.status.Running? && w.stage.ReportStage?
    && |w.receipts| == |v.receipts| + 1 && w.receipts[..|v.receipts|] == v.receipts
    && Settles(v, w.receipts[|v.receipts|], v.id + ":data", Hedera, calls[0].amount)
    && w == v.(status := w.status, stage := w.stage, receipts := w.receipts, dataSpent := v.dataSpent + calls[0].amount,
               evidence := w.evidence, events := w.events, providers := w.providers, selected := w.selected)
    && Covers(w.evidence, v.repos)
  }

  /** Each repository once. */
  ghost predicate Covers(evidence: seq<string>, repos: seq<string>) {
    |evidence| == |repos| && (set e | e in evidence) <= (set r | r in repos) && |set e | e in evidence| == |evidence|
  }

  ghost predicate BoughtVerification(v: Job, w: Job, calls: seq<Call>) {
    && |calls| == 1 && MayBuyVerification(v, calls[0])
    && |w.receipts| == |v.receipts| + 1 && w.receipts[..|v.receipts|] == v.receipts
    && Settles(v, w.receipts[|v.receipts|], v.id + ":verify", Arc, calls[0].amount)
    && w == v.(status := w.status, stage := w.stage, receipts := w.receipts, events := w.events, report := w.report,
               verificationSpent := v.verificationSpent + calls[0].amount)
    && ((w.status.Completed? && w.stage.Complete? && w.report.Some? && w.report.value.verified) || (w.status.Failed? && w.stage.Verification?))
  }

  ghost predicate WasApproved(v: Job, w: Job, calls: seq<Call>) {
    && v.status.AwaitingApproval? && v.approval.Some? && v.approval.value.proposed.version == v.mandate.version + 1
    && w.status.Running? && w.approval.None? && calls == []
    && w.mandate == v.approval.value.proposed && w.authorizations == v.authorizations + [Authorization(v.mandate, w.mandate)]
    && w == v.(status := w.status, approval := None, mandate := w.mandate, authorizations := w.authorizations, events := w.events)
  }

  ghost predicate Repriced(v: Job, w: Job, calls: seq<Call>) {
    && BeforePurchase(v.stage) && !v.status.Completed? && !v.status.Failed? && !v.status.AwaitingApproval? && calls == []
    && w == v.(providers := w.providers, shockApplied := true, events := w.events)
  }

  ghost predicate PauseFlipped(v: Job, w: Job, calls: seq<Call>) {
    && (Active(v.status) || v.status.Paused?) && calls == []
    && w == v.(status := if v.status.Paused? then Running else Paused, events := w.events)
  }

  ghost predicate Advanced(v: Job, w: Job, calls: seq<Call>) {
    v.live && SameRun(v, w) &&
    (Stopped(v, w, calls) || MovedOn(v, w, calls) || Asked(v, w, calls) || BoughtData(v, w, calls) || BoughtVerification(v, w, calls))
  }

  /** The effect of one action on a run, with the paid calls it made. */
  ghost predicate EngineStep(v: Job, w: Job, calls: seq<Call>) {
    || (w == v && calls == [])
    || Advanced(v, w, calls)
    || (v.live && SameRun(v, w) && (WasApproved(v, w, calls) || Repriced(v, w, calls) || PauseFlipped(v, w, calls)))
  }

  // ---------------------------------------------------------------- what every action keeps

  ghost function CallsFor(calls: seq<Call>, id: string, rail: Rail): seq<Call> {
    if calls == [] then []
    else
      var last := calls[|calls| - 1];
      CallsFor(calls[..|calls| - 1], id, rail) +
      if last.runId == id && (if rail.Hedera? then last.BuyData? else last.BuyVerification?) then [last] else []
  }

  lemma {:induction false} CallsForAdds(calls: seq<Call>, more: seq<Call>, id: string, rail: Rail)
    ensures CallsFor(calls + more, id, rail) == CallsFor(calls, id, rail) + CallsFor(more, id, rail)
  {
    if more == [] {
      assert calls + more == calls;
    } else {
      CallsForAdds(calls, more[..|more| - 1], id, rail);
      assert (calls + more)[..|calls + more| - 1] == calls + more[..|more| - 1];
    }
  }

  /** A run that can still act has not yet made the purchase its stage is about to make. */
  ghost predicate Counted(v: Job, calls: seq<Call>) {
    && |CallsFor(calls, v.id, Hedera)| <= 1 && |CallsFor(calls, v.id, Arc)| <= 1
    && (!v.status.Failed? && BeforePurchase(v.stage) ==> |CallsFor(calls, v.id, Hedera)| == 0)
    && (!v.status.Failed? && !v.stage.Complete? ==> |CallsFor(calls, v.id, Arc)| == 0)
  }

  lemma CallsForOne(c: Call, id: string, rail: Rail)
    ensures CallsFor([c], id, rail) ==
            if c.runId == id && (if rail.Hedera? then c.BuyData? else c.BuyVerification?) then [c] else []
  {
    assert [c][..0] == [];
  }

  lemma SpentAppends(receipts: seq<Receipt>, all: seq<Receipt>, rail: Rail)
    requires |all| == |receipts| + 1 && all[..|receipts|] == receipts
    ensures var r := all[|receipts|]; Spent(all, rail) == Spent(receipts, rail) + if r.rail == rail then r.amount else 0
  {
  }

  lemma SignedAppends(authorizations: seq<Authorization>, m: Mandate, n: Mandate)
    requires Signed(authorizations, m) && Raises(m, n)
    ensures Signed(authorizations + [Authorization(m, n)], n)
  {
    assert (authorizations + [Authorization(m, n)])[..|authorizations|] == authorizations;
  }

  lemma PriceTimesUnits(price: int, units: int)
    requires 0 < price && 0 < units
    ensures 0 < price * units
  {
  }

  lemma StepKeepsSound(v: Job, w: Job, calls: seq<Call>)
    requires Sound(v) && EngineStep(v, w, calls)
    ensures Sound(w)
  {
    hide Chained, Spent, Signed;
    if BoughtData(v, w, calls) {
      SpentAppends(v.receipts, w.receipts, Hedera);
      SpentAppends(v.receipts, w.receipts, Arc);
      PriceTimesUnits(calls[0].unitPrice, |v.repos|);
    } else if BoughtVerification(v, w, calls) {
      SpentAppends(v.receipts, w.receipts, Hedera);
      SpentAppends(v.receipts, w.receipts, Arc);
    } else if WasApproved(v, w, calls) {
      SignedAppends(v.authorizations, v.mandate, w.mandate);
    }
  }

  /** Each paid call is made at most once, whatever a run goes through. */
  lemma StepKeepsCount(v: Job, w: Job, calls: seq<Call>, before: seq<Call>)
    requires Counted(v, before) && EngineStep(v, w, calls)
    ensures Counted(w, before + calls)
    ensures |CallsFor(before + calls, v.id, Hedera)| <= 1 && |CallsFor(before + calls, v.id, Arc)| <= 1
  {
    hide CallsFor, Chained, SameMoney, Raises, Covers, Settles, Fits;
    CallsForAdds(before, calls, v.id, Hedera);
    CallsForAdds(before, calls, v.id, Arc);
    if |calls| == 1 {
      CallsForOne(calls[0], v.id, Hedera);
      CallsForOne(calls[0], v.id, Arc);
      assert calls == [calls[0]];
    } else {
      NoCalls(v.id);
      assert before + [] == before;
    }
  }

  lemma NoCalls(id: string)
    ensures CallsFor([], id, Hedera) == [] && CallsFor([], id, Arc) == []
  {
  }

  /** Nothing leaves `failed` or `completed` through the engine. */
  lemma EndedStays(v: Job, w: Job, calls: seq<Call>)
    requires EngineStep(v, w, calls) && (v.status.Failed? || v.status.Completed?)
    ensures w == v && calls == []
  {
  }
}
