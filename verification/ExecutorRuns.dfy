/** What holds over whole runs of the purchaser protocol, crashes included: a run is any legal
    sequence of writes and chain events, and a crash is simply the end of what a process wrote. */
module ExecutorRuns {
  import opened Effects
  import opened ExecutorProtocol
  import WriteAhead

  ghost predicate Legal(log: seq<Action>)
    decreases log, 0
  {
    log == [] || (Legal(log[..|log| - 1]) && Enabled(After(log[..|log| - 1]), log[|log| - 1]))
  }

  ghost function After(log: seq<Action>): World
    requires Legal(log)
    decreases log, 1
  {
    if log == [] then EMPTY else Step(After(log[..|log| - 1]), log[|log| - 1])
  }

  lemma Extend(log: seq<Action>, a: Action)
    requires Legal(log) && Enabled(After(log), a)
    ensures Legal(log + [a]) && After(log + [a]) == Step(After(log), a)
  {
    assert (log + [a])[..|log|] == log;
  }

  lemma PrefixLegal(log: seq<Action>, k: nat)
    requires Legal(log) && k <= |log|
    ensures Legal(log[..k])
    decreases |log|
  {
    if k < |log| {
      PrefixLegal(log[..|log| - 1], k);
      assert log[..|log| - 1][..k] == log[..k];
    } else {
      assert log[..k] == log;
    }
  }

  lemma {:induction false} RunSafe(log: seq<Action>)
    requires Legal(log)
    ensures Inv(After(log))
  {
    if log == [] {
      EmptyIsSafe();
    } else {
      RunSafe(log[..|log| - 1]);
      StepSafe(After(log[..|log| - 1]), log[|log| - 1]);
    }
  }

  // ---------------------------------------------------------------- payments

  /** The operations a run handed to Circle, in order. */
  ghost function Submissions(log: seq<Action>): seq<Op> {
    if log == [] then []
    else Submissions(log[..|log| - 1]) + (match log[|log| - 1] case Submit(op) => [op] case _ => [])
  }

  lemma {:induction false} SentIsSubmissions(log: seq<Action>)
    requires Legal(log)
    ensures After(log).sent == Submissions(log)
  {
    hide Enabled, Step;
    if log != [] {
      var rest, last := log[..|log| - 1], log[|log| - 1];
      SentIsSubmissions(rest);
      StepSends(After(rest), last);
    }
  }

  lemma StepSends(w: World, a: Action)
    requires Enabled(w, a)
    ensures Step(w, a).sent == w.sent + (match a case Submit(op) => [op] case _ => [])
  {
    assert w.sent + [] == w.sent;
  }

  /** Every stored order asks for something and costs no more than its intent allows. */
  lemma StoredOrdersFit(log: seq<Action>, o: OrderId)
    requires Legal(log) && o in After(log).files
    ensures var i := After(log).files[o].intent;
      i.orderId == o && 0 < i.quantity && 0 < i.unitPrice && i.quantity * i.unitPrice <= i.maxAmount
  {
    RunSafe(log);
    assert FileInv(After(log), o);
  }

  /** What an operation is journaled with: the whole order for an approval and its payment, nothing
      for an acknowledgment or a revocation. */
  lemma JournaledAmounts(log: seq<Action>, o: OrderId, k: Kind)
    requires Legal(log) && Journaled(After(log), o, k)
    ensures o in After(log).files
    ensures var i := After(log).files[o].intent;
      After(log).journals[Op(o, k)].amount == if k == Approve || k == Pay then i.quantity * i.unitPrice else 0
  {
    RunSafe(log);
  }

  /** No approval, payment, acknowledgment or revocation is submitted twice, and the order's
      money leaves the wallet at most once: its quantity at its unit price. */
  lemma SubmittedAtMostOnce(log: seq<Action>)
    requires Legal(log)
    ensures forall i, j | 0 <= i < j < |Submissions(log)| :: Submissions(log)[i] != Submissions(log)[j]
    ensures var l := After(log).ledger; forall i, j | 0 <= i < j < |l| :: l[i].0 != l[j].0
    ensures var w := After(log); forall i | 0 <= i < |w.ledger| ::
              w.ledger[i].0 in w.files && Op(w.ledger[i].0, Pay) in Submissions(log) &&
              var order := w.files[w.ledger[i].0].intent; w.ledger[i].1 == order.quantity * order.unitPrice
  {
    RunSafe(log);
    SentIsSubmissions(log);
  }

  ghost predicate PaidPhase(p: Phase) {
    p == Paying || p == Paid || p == Delivered || p == Acknowledging || p == Completed
  }

  ghost predicate AbortPhase(p: Phase) {
    p == Aborting || p == Aborted
  }

  lemma JournalStep(w: World, a: Action, op: Op)
    requires Enabled(w, a) && op in w.journals
    ensures op in Step(w, a).journals
  {
  }

  lemma {:induction false} JournalsStay(log: seq<Action>, k: nat, op: Op)
    requires Legal(log) && k <= |log| && Legal(log[..k]) && op in After(log[..k]).journals
    ensures op in After(log).journals
    decreases |log|
  {
    hide Enabled, Step;
    if k < |log| {
      var last := |log| - 1;
      assert log[..last][..k] == log[..k];
      JournalsStay(log[..last], k, op);
      JournalStep(After(log[..last]), log[last], op);
    } else {
      assert log[..k] == log;
    }
  }

  lemma AbortStep(w: World, a: Action, o: OrderId)
    requires Enabled(w, a) && o in w.files && AbortPhase(w.files[o].phase)
    ensures o in Step(w, a).files && AbortPhase(Step(w, a).files[o].phase)
  {
  }

  lemma {:induction false} AbortStays(log: seq<Action>, k: nat, o: OrderId)
    requires Legal(log) && k <= |log| && Legal(log[..k])
    requires o in After(log[..k]).files && AbortPhase(After(log[..k]).files[o].phase)
    ensures o in After(log).files && AbortPhase(After(log).files[o].phase)
    decreases |log|
  {
    if k < |log| {
      var last := |log| - 1;
      assert log[..last][..k] == log[..k];
      AbortStays(log[..last], k, o);
      AbortStep(After(log[..last]), log[last], o);
    } else {
      assert log[..k] == log;
    }
  }

  /** Once the pay journal exists the order is in a paying or later phase at every later point. */
  lemma PayJournalFixesPhase(log: seq<Action>, k: nat, o: OrderId)
    requires Legal(log) && k <= |log| && Legal(log[..k]) && Journaled(After(log[..k]), o, Pay)
    ensures o in After(log).files && PaidPhase(After(log).files[o].phase)
  {
    JournalsStay(log, k, Op(o, Pay));
    RunSafe(log);
    assert FileInv(After(log), o);
  }

  /** An order that was ever aborting is never submitted for payment, before or after. */
  lemma NeverPaidAndAborted(log: seq<Action>, k: nat, o: OrderId)
    requires Legal(log) && k <= |log| && Legal(log[..k])
    requires o in After(log[..k]).files && AbortPhase(After(log[..k]).files[o].phase)
    ensures Op(o, Pay) !in Submissions(log)
    ensures !Landed(After(log), o, Pay)
  {
    AbortStays(log, k, o);
    RunSafe(log);
    SentIsSubmissions(log);
    assert FileInv(After(log), o);
  }

  // ---------------------------------------------------------------- allowance and reservation

  /** The allowance is zero or what the holder's order costs; without a holder it is zero and
      nothing that could change it is still on its way. */
  lemma AllowanceIsReserved(log: seq<Action>)
    requires Legal(log)
    ensures var w := After(log);
      match w.reservation
      case None => w.allowance == 0 && forall op | op in w.pending :: op.kind == Ack
      case Some(h) =>
        h in w.files && (w.allowance == 0 || w.allowance == w.files[h].intent.quantity * w.files[h].intent.unitPrice) &&
        forall op | op in w.pending :: op.kind == Ack || op.order == h
  {
    RunSafe(log);
    var w := After(log);
    forall op | op in w.pending
      ensures op.kind == Ack || w.reservation == Some(op.order)
    {
      assert FileInv(w, op.order);
    }
  }

  ghost predicate Spending(p: Phase) {
    p == Approving || p == Approved || p == Paying
  }

  ghost predicate Settled(p: Phase) {
    p == Delivered || p == Acknowledging || p == Completed
  }

  /** Spending orders hold the one reservation, settled orders never do. */
  lemma OneSpender(log: seq<Action>, o: OrderId, p: OrderId)
    requires Legal(log) && o in After(log).files && p in After(log).files
    ensures var w := After(log);
      && (Spending(w.files[o].phase) ==> w.reservation == Some(o))
      && (Spending(w.files[o].phase) && Spending(w.files[p].phase) ==> o == p)
      && (Settled(w.files[o].phase) ==> w.reservation != Some(o) && Landed(w, o, Pay))
  {
    RunSafe(log);
    assert FileInv(After(log), o) && FileInv(After(log), p);
  }

  lemma ReservationStep(w: World, a: Action, o: OrderId)
    requires Inv(w) && Enabled(w, a) && w.reservation == Some(o) && Step(w, a).reservation != Some(o)
    ensures Step(w, a).reservation == None && Step(w, a).allowance == 0
  {
    StepSafe(w, a);
  }

  /** The reservation passes from one order to another only through a state without holder,
      in which the allowance is zero. */
  lemma {:induction false} HandoverThroughRelease(log: seq<Action>, k: nat, o: OrderId)
    requires Legal(log) && k <= |log| && Legal(log[..k])
    requires After(log[..k]).reservation == Some(o) && After(log).reservation != Some(o)
    ensures exists m | k < m <= |log| ::
              Legal(log[..m]) && After(log[..m]).reservation == None && After(log[..m]).allowance == 0
    decreases |log|
  {
    assert log[..|log|] == log;
    assert k < |log|;
    var last := |log| - 1;
    assert log[..last][..k] == log[..k];
    if After(log[..last]).reservation == Some(o) {
      RunSafe(log[..last]);
      ReservationStep(After(log[..last]), log[last], o);
      assert Legal(log[..|log|]);
    } else {
      HandoverThroughRelease(log[..last], k, o);
      var m :| k < m <= last && Legal(log[..last][..m]) &&
        After(log[..last][..m]).reservation == None && After(log[..last][..m]).allowance == 0;
      assert log[..last][..m] == log[..m];
    }
  }

  // ---------------------------------------------------------------- conservation

  /** What one action moves through the allowance: granted, spent and revoked amounts. */
  ghost function Flow(w: World, a: Action): (nat, nat, nat)
    requires Enabled(w, a)
  {
    match a
    case Land(op) =>
      (match op.kind
       case Approve => (w.journals[op].amount, 0, 0)
       case Pay => (0, w.journals[op].amount, 0)
       case Abort => (0, 0, w.allowance)
       case Ack => (0, 0, 0))
    case _ => (0, 0, 0)
  }

  ghost function Flows(log: seq<Action>): (nat, nat, nat)
    requires Legal(log)
  {
    if log == [] then (0, 0, 0)
    else
      var before := Flows(log[..|log| - 1]);
      var f := Flow(After(log[..|log| - 1]), log[|log| - 1]);
      (before.0 + f.0, before.1 + f.1, before.2 + f.2)
  }

  ghost function Total(ledger: seq<(OrderId, nat)>): nat {
    if ledger == [] then 0 else Total(ledger[..|ledger| - 1]) + ledger[|ledger| - 1].1
  }

  /** Everything ever approved was spent on its own order, revoked, or is still the allowance:
      no approval overwrites a leftover. */
  lemma {:induction false} ApprovalsAreConserved(log: seq<Action>)
    requires Legal(log)
    ensures Flows(log).0 == Flows(log).1 + Flows(log).2 + After(log).allowance
    ensures Flows(log).1 == Total(After(log).ledger)
  {
    hide Enabled, Step, Flow, Total, Inv;
    if log != [] {
      ApprovalsAreConserved(log[..|log| - 1]);
      RunSafe(log[..|log| - 1]);
      StepConserves(After(log[..|log| - 1]), log[|log| - 1]);
    } else {
      NothingSpent();
    }
  }

  lemma NothingSpent()
    ensures Total([]) == 0
  {
  }

  lemma StepConserves(w: World, a: Action)
    requires Inv(w) && Enabled(w, a)
    ensures var f, v := Flow(w, a), Step(w, a);
      w.allowance + f.0 == f.1 + f.2 + v.allowance && Total(v.ledger) == Total(w.ledger) + f.1
  {
    hide JournalsInv, SentInv, LedgerInv;
    if a.Land? {
      LandConserves(w, a.op);
    }
  }

  lemma LandConserves(w: World, op: Op)
    requires Inv(w) && Enabled(w, Land(op))
    ensures var f, v := Flow(w, Land(op)), Step(w, Land(op));
      w.allowance + f.0 == f.1 + f.2 + v.allowance && Total(v.ledger) == Total(w.ledger) + f.1
  {
    hide LedgerInv;
    assert FileInv(w, op.order);
    if op.kind == Pay {
      assert Step(w, Land(op)).ledger[..|w.ledger|] == w.ledger;
    }
  }

  // ---------------------------------------------------------------- write-ahead

  /** One operation name of the directory, seen as a write-ahead ledger. */
  ghost function JournalView(w: World, op: Op): WriteAhead.Ledger<nat> {
    WriteAhead.Ledger(
      if op in w.journals then Some(w.journals[op].amount) else None,
      if op in w.journals && op in w.sent then [w.journals[op].amount] else [])
  }

  /** Every step leaves an operation's ledger alone or moves it as the write-ahead protocol does. */
  lemma StepIsWriteAhead(w: World, a: Action, op: Op)
    requires SentInv(w) && Enabled(w, a)
    ensures var l, m := JournalView(w, op), JournalView(Step(w, a), op);
      m == l || exists move :: WriteAhead.Allowed(l, move, false) && m == WriteAhead.Apply(l, move)
  {
    var l := JournalView(w, op);
    if a == Submit(op) {
      assert WriteAhead.Allowed(l, WriteAhead.Dispatch, false);
      assert JournalView(Step(w, a), op) == WriteAhead.Apply(l, WriteAhead.Dispatch);
    } else if a.Record? && a.op == op {
      assert WriteAhead.Allowed(l, WriteAhead.Store(a.amount), false);
      assert JournalView(Step(w, a), op) == WriteAhead.Apply(l, WriteAhead.Store(a.amount));
    }
  }
}
