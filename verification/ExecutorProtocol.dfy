/** The durable purchaser as a machine over disk and chain: which writes and which chain
    events the protocol allows, and what every run of it keeps. */
module ExecutorProtocol {
  import opened Effects

  type OrderId = string

  /** Hashing is a free constructor: equal digests are digests of equal values. */
  datatype Digest = Digest(of: string)

  datatype Kind = Approve | Pay | Ack | Abort

  /** One Circle operation; its journal name is a function of the order and the kind, and its
      transaction hash identifies it. */
  datatype Op = Op(order: OrderId, kind: Kind)

  datatype Phase =
    | Prepared | Approving | Approved | Paying | Paid
    | Delivered | Acknowledging | Completed | Aborting | Aborted

  datatype Intent = Intent(orderId: OrderId, quantity: nat, unitPrice: nat, maxAmount: nat, terms: string)

  function Amount(i: Intent): (n: nat)
    ensures 0 < i.quantity && 0 < i.unitPrice ==> 0 < n
  {
    i.quantity * i.unitPrice
  }

  datatype Request = Request(intent: Intent, paymentHash: Op)

  datatype OrderState = OrderState(
    intent: Intent,
    versions: string,
    phase: Phase,
    revokeRequired: bool,
    paymentHash: Option<Op>,
    request: Option<Request>,
    output: string,
    outputHash: Digest)

  datatype Status = Submitting | Uncertain | Submitted | Failed

  datatype Journal = Journal(amount: nat, status: Status)

  /** Files of one directory, the memory of the running process, then the chain as the payer sees
      it. `hand` is the operation whose journal this process has just created and not yet submitted;
      `sent` only records every submission ever handed to Circle, no step looks at it; `ledger`
      lists the settlements in the order they took effect. */
  datatype World = World(
    files: map<OrderId, OrderState>,
    reservation: Option<OrderId>,
    journals: map<Op, Journal>,
    hand: Option<Op>,
    sent: seq<Op>,
    pending: set<Op>,
    landed: set<Op>,
    allowance: nat,
    ledger: seq<(OrderId, nat)>,
    acknowledged: set<OrderId>,
    attested: map<OrderId, Digest>)

  const EMPTY := World(map[], None, map[], None, [], {}, {}, 0, [], {}, map[])

  datatype Action =
    | Start
    | Create(intent: Intent, versions: string)
    | Reserve(order: OrderId)
    | Release(order: OrderId)
    | Save(order: OrderId, state: OrderState)
    | Record(op: Op, amount: nat)
    | Submit(op: Op)
    | Mark(op: Op, status: Status)
    | Land(op: Op)
    | Drop(op: Op)
    | Attest(order: OrderId, hash: Digest)
    | AcknowledgeElsewhere(order: OrderId)

  predicate Accepted(i: Intent) {
    0 < i.quantity && 0 < i.unitPrice && Amount(i) <= i.maxAmount
  }

  predicate Free(w: World, o: OrderId) {
    w.reservation == None || w.reservation == Some(o)
  }

  predicate Journaled(w: World, o: OrderId, k: Kind) {
    Op(o, k) in w.journals
  }

  predicate Landed(w: World, o: OrderId, k: Kind) {
    Op(o, k) in w.landed
  }

  function JournalAmount(i: Intent, k: Kind): nat {
    match k
    case Approve => Amount(i)
    case Pay => Amount(i)
    case Ack => 0
    case Abort => 0
  }

  /** The phase in which the journal of an operation may be created. */
  predicate RecordAllowed(s: OrderState, k: Kind) {
    match k
    case Approve => s.phase == Approving
    case Pay => s.phase == Paying
    case Ack => s.phase == Acknowledging
    case Abort => s.phase == Aborting && s.revokeRequired
  }

  /** The phase changes the order file may go through, and the evidence each one needs. */
  predicate PhaseChange(w: World, o: OrderId, from: OrderState, to: OrderState) {
    to.intent == from.intent && to.versions == from.versions &&
    match (from.phase, to.phase)
    case (Prepared, Approving) => w.reservation == Some(o)
    case (Approving, Prepared) => !Journaled(w, o, Approve)
    case (Approving, Approved) => Landed(w, o, Approve)
    case (Approved, Paying) => true
    case (Paying, Approved) => !Journaled(w, o, Pay)
    case (Paying, Paid) =>
      Landed(w, o, Pay) && to.paymentHash == Some(Op(o, Pay)) &&
      to.request == Some(Request(from.intent, Op(o, Pay)))
    case (Paid, Delivered) =>
      w.reservation != Some(o) && to.paymentHash == from.paymentHash && to.request == from.request &&
      to.outputHash == Digest(to.output)
    case (Delivered, Acknowledging) => SameProof(from, to)
    case (Delivered, Completed) => SameProof(from, to) && o in w.acknowledged
    case (Acknowledging, Completed) => SameProof(from, to) && o in w.acknowledged
    case (Aborting, Aborted) =>
      to.revokeRequired == from.revokeRequired && !Journaled(w, o, Pay) &&
      (from.revokeRequired ==> w.allowance == 0)
    case (p, Aborting) =>
      (p == Prepared || p == Approving || p == Approved || p == Paying) &&
      Free(w, o) && !Journaled(w, o, Pay) &&
      (Journaled(w, o, Approve) ==> Landed(w, o, Approve)) &&
      to.revokeRequired == (Journaled(w, o, Approve) && w.allowance != 0)
    case _ => false
  }

  predicate SameProof(from: OrderState, to: OrderState) {
    to.paymentHash == from.paymentHash && to.request == from.request &&
    to.output == from.output && to.outputHash == from.outputHash
  }

  predicate ReleaseAllowed(w: World, s: OrderState) {
    match s.phase
    case Prepared => true
    case Paid => true
    case Delivered => true
    case Acknowledging => true
    case Completed => true
    case Aborted => true
    case _ => false
  }

  predicate Enabled(w: World, a: Action) {
    match a
    case Start => true
    case Create(i, _) => Accepted(i) && i.orderId !in w.files && Free(w, i.orderId)
    case Reserve(o) => o in w.files && w.files[o].phase == Prepared && Free(w, o) && w.allowance == 0
    case Release(o) => o in w.files && Free(w, o) && ReleaseAllowed(w, w.files[o])
    case Save(o, s) => o in w.files && PhaseChange(w, o, w.files[o], s)
    case Record(op, n) =>
      op.order in w.files && op !in w.journals && RecordAllowed(w.files[op.order], op.kind) &&
      n == JournalAmount(w.files[op.order].intent, op.kind)
    case Submit(op) => w.hand == Some(op) && op in w.journals && w.journals[op].status == Submitting
    case Mark(op, st) => op in w.journals && (st == Failed ==> op !in w.pending && op !in w.landed) && st != Submitting
    // Circle and the chain.
    case Land(op) => op in w.pending && op in w.journals && (op.kind == Pay ==> w.journals[op].amount <= w.allowance)
    case Drop(op) => op in w.pending
    case Attest(o, _) => Landed(w, o, Pay) && o !in w.attested
    case AcknowledgeElsewhere(o) => o in w.attested
  }

  function Step(w: World, a: Action): World
    requires Enabled(w, a)
  {
    match a
    case Start => w.(hand := None)
    case Create(i, v) =>
      w.(files := w.files[i.orderId := OrderState(i, v, Prepared, false, None, None, "", Digest(""))])
    case Reserve(o) => w.(reservation := Some(o))
    case Release(_) => w.(reservation := None)
    case Save(o, s) => w.(files := w.files[o := s])
    case Record(op, n) => w.(journals := w.journals[op := Journal(n, Submitting)], hand := Some(op))
    case Submit(op) => w.(hand := None, sent := w.sent + [op], pending := w.pending + {op})
    case Mark(op, st) => w.(journals := w.journals[op := w.journals[op].(status := st)])
    case Land(op) =>
      var v := w.(pending := w.pending - {op}, landed := w.landed + {op});
      (match op.kind
       case Approve => v.(allowance := w.journals[op].amount)
       case Abort => v.(allowance := w.journals[op].amount)
       case Pay => v.(allowance := w.allowance - w.journals[op].amount,
                      ledger := w.ledger + [(op.order, w.journals[op].amount)])
       case Ack => v.(acknowledged := w.acknowledged + {op.order}))
    case Drop(op) => w.(pending := w.pending - {op})
    case Attest(o, h) => w.(attested := w.attested[o := h])
    case AcknowledgeElsewhere(o) => w.(acknowledged := w.acknowledged + {o})
  }

  // ---------------------------------------------------------------- what every run keeps

  /** What the phase on disk says about journals, chain and reservation. */
  ghost predicate FileInv(w: World, o: OrderId)
    requires o in w.files
  {
    var s := w.files[o];
    var held := w.reservation == Some(o);
    s.intent.orderId == o && Accepted(s.intent) &&
    match s.phase
    case Prepared =>
      !Journaled(w, o, Approve) && !Journaled(w, o, Pay) && !Journaled(w, o, Ack) && !Journaled(w, o, Abort)
    case Approving =>
      held && !Journaled(w, o, Pay) && !Journaled(w, o, Ack) && !Journaled(w, o, Abort)
    case Approved =>
      held && Landed(w, o, Approve) &&
      !Journaled(w, o, Pay) && !Journaled(w, o, Ack) && !Journaled(w, o, Abort)
    case Paying =>
      held && Landed(w, o, Approve) && !Journaled(w, o, Ack) && !Journaled(w, o, Abort)
    case Paid => Bought(w, o, s) && !Journaled(w, o, Ack)
    case Delivered => Bought(w, o, s) && !held && !Journaled(w, o, Ack) && s.outputHash == Digest(s.output)
    case Acknowledging => Bought(w, o, s) && !held && s.outputHash == Digest(s.output)
    case Completed => Bought(w, o, s) && !held && s.outputHash == Digest(s.output) && o in w.acknowledged
    case Aborting =>
      !Journaled(w, o, Pay) && !Journaled(w, o, Ack) &&
      s.revokeRequired == Journaled(w, o, Approve) == Landed(w, o, Approve) &&
      (s.revokeRequired ==> held) && (Journaled(w, o, Abort) ==> s.revokeRequired)
    case Aborted =>
      !Journaled(w, o, Pay) && !Journaled(w, o, Ack) &&
      s.revokeRequired == Journaled(w, o, Approve) == Landed(w, o, Approve) &&
      s.revokeRequired == Landed(w, o, Abort) && (Journaled(w, o, Abort) ==> Landed(w, o, Abort))
  }

  ghost predicate Bought(w: World, o: OrderId, s: OrderState) {
    Landed(w, o, Approve) && Landed(w, o, Pay) && !Journaled(w, o, Abort) &&
    s.paymentHash == Some(Op(o, Pay)) && s.request == Some(Request(s.intent, Op(o, Pay)))
  }

  /** The allowance the reservation accounts for. */
  ghost function Owed(w: World): nat {
    match w.reservation
    case None => 0
    case Some(h) =>
      if h in w.files && Landed(w, h, Approve) && !Landed(w, h, Pay) && !Landed(w, h, Abort)
      then Amount(w.files[h].intent)
      else 0
  }

  ghost predicate JournalsInv(w: World) {
    forall op | op in w.journals ::
      op.order in w.files && w.journals[op].amount == JournalAmount(w.files[op.order].intent, op.kind)
  }

  /** A submission needs a journal that was new to its process, so it happens once; it is then
      pending, landed or dropped. */
  ghost predicate SentInv(w: World) {
    && (w.hand.Some? ==> w.hand.value in w.journals && w.hand.value !in w.sent)
    && (forall op | op in w.sent :: op in w.journals)
    && (forall op | op in w.pending :: op in w.sent && op !in w.landed)
    && (forall op | op in w.landed :: op in w.sent)
    && (forall op | op in w.journals && w.journals[op].status == Failed :: op !in w.pending && op !in w.landed)
    && (forall i, j | 0 <= i < j < |w.sent| :: w.sent[i] != w.sent[j])
  }

  ghost predicate LedgerInv(w: World) {
    && (forall i | 0 <= i < |w.ledger| ::
          var o := w.ledger[i].0; o in w.files && Landed(w, o, Pay) && w.ledger[i].1 == Amount(w.files[o].intent))
    && (forall i, j | 0 <= i < j < |w.ledger| :: w.ledger[i].0 != w.ledger[j].0)
    && (forall o | Landed(w, o, Pay) :: exists i :: 0 <= i < |w.ledger| && w.ledger[i].0 == o)
  }

  ghost predicate Inv(w: World) {
    && (forall o | o in w.files :: FileInv(w, o))
    && (w.reservation.Some? ==> w.reservation.value in w.files)
    && JournalsInv(w)
    && SentInv(w)
    && LedgerInv(w)
    && w.allowance == Owed(w)
    && (forall o | Landed(w, o, Ack) :: o in w.acknowledged)
  }

  lemma EmptyIsSafe()
    ensures Inv(EMPTY)
  {
  }

  /** The file that is being saved meets what its new phase says. */
  lemma SavedFileSafe(w: World, o: OrderId, s: OrderState)
    requires Inv(w) && Enabled(w, Save(o, s))
    ensures FileInv(Step(w, Save(o, s)), o)
  {
    assert FileInv(w, o);
    if s.phase == Aborting && Journaled(w, o, Approve) {
      assert !Landed(w, o, Pay) && !Landed(w, o, Abort);
    }
  }

  /** What a phase says depends only on the file, the reservation and the order's own operations. */
  lemma FileFrame(w: World, v: World, o: OrderId)
    requires o in w.files && o in v.files && v.files[o] == w.files[o] && FileInv(w, o)
    requires (v.reservation == Some(o)) == (w.reservation == Some(o))
    requires forall k :: Journaled(v, o, k) == Journaled(w, o, k)
    requires forall k :: Landed(v, o, k) == Landed(w, o, k)
    requires w.acknowledged <= v.acknowledged
    ensures FileInv(v, o)
  {
    assert forall k :: Op(o, k) in v.journals <==> Journaled(v, o, k);
  }

  lemma RecordedFileSafe(w: World, o: OrderId, k: Kind, n: nat)
    requires Inv(w) && Enabled(w, Record(Op(o, k), n))
    ensures FileInv(Step(w, Record(Op(o, k), n)), o)
  {
    assert FileInv(w, o);
  }

  lemma LandedFileSafe(w: World, o: OrderId, k: Kind)
    requires Inv(w) && Enabled(w, Land(Op(o, k)))
    ensures FileInv(Step(w, Land(Op(o, k))), o)
  {
    assert FileInv(w, o);
  }

  lemma ReleasedFileSafe(w: World, o: OrderId)
    requires Inv(w) && Enabled(w, Release(o))
    ensures FileInv(Step(w, Release(o)), o)
  {
    assert FileInv(w, o);
  }

  lemma ReservedFileSafe(w: World, o: OrderId)
    requires Inv(w) && Enabled(w, Reserve(o))
    ensures FileInv(Step(w, Reserve(o)), o)
  {
    assert FileInv(w, o);
  }

  /** The order whose file, operations or reservation an action touches. */
  ghost predicate Concerns(a: Action, o: OrderId) {
    match a
    case Reserve(r) => r == o
    case Release(r) => r == o
    case Save(r, _) => r == o
    case Record(op, _) => op.order == o
    case Land(op) => op.order == o
    case _ => false
  }

  lemma ForeignFileSafe(w: World, a: Action, o: OrderId)
    requires o in w.files && FileInv(w, o) && Enabled(w, a) && !Concerns(a, o)
    ensures o in Step(w, a).files && FileInv(Step(w, a), o)
  {
    FileFrame(w, Step(w, a), o);
  }

  lemma ConcernedFileSafe(w: World, a: Action, o: OrderId)
    requires Inv(w) && Enabled(w, a) && Concerns(a, o)
    ensures FileInv(Step(w, a), o)
  {
    match a
    case Reserve(_) => ReservedFileSafe(w, o);
    case Release(_) => ReleasedFileSafe(w, o);
    case Save(_, s) => SavedFileSafe(w, o, s);
    case Record(op, n) => RecordedFileSafe(w, o, op.kind, n);
    case Land(op) => LandedFileSafe(w, o, op.kind);
    case _ =>
  }

  lemma FilesSafe(w: World, a: Action)
    requires Inv(w) && Enabled(w, a)
    ensures var v := Step(w, a); forall o | o in v.files :: FileInv(v, o)
  {
    var v := Step(w, a);
    forall o | o in v.files
      ensures FileInv(v, o)
    {
      if Concerns(a, o) {
        ConcernedFileSafe(w, a, o);
      } else if o in w.files {
        ForeignFileSafe(w, a, o);
      }
    }
  }

  lemma JournalsSafe(w: World, a: Action)
    requires JournalsInv(w) && Enabled(w, a)
    ensures JournalsInv(Step(w, a))
  {
  }

  lemma SentSafe(w: World, a: Action)
    requires SentInv(w) && Enabled(w, a)
    ensures SentInv(Step(w, a))
  {
    hide PhaseChange, ReleaseAllowed, RecordAllowed, Accepted;
    if a.Submit? {
      SubmissionSafe(w, a.op);
    }
  }

  /** Nobody has submitted an operation whose journal was new to this process. */
  lemma SubmissionSafe(w: World, op: Op)
    requires SentInv(w) && Enabled(w, Submit(op))
    ensures SentInv(Step(w, Submit(op)))
  {
    assert op !in w.sent && op !in w.pending && op !in w.landed;
  }

  lemma LedgerFrame(w: World, v: World)
    requires LedgerInv(w) && v.ledger == w.ledger && w.landed <= v.landed
    requires forall o | Landed(v, o, Pay) :: Landed(w, o, Pay)
    requires forall o | o in w.files :: o in v.files && v.files[o].intent == w.files[o].intent
    ensures LedgerInv(v)
  {
  }

  lemma SettlementSafe(w: World, o: OrderId)
    requires Inv(w) && Enabled(w, Land(Op(o, Pay)))
    ensures LedgerInv(Step(w, Land(Op(o, Pay))))
  {
    var v := Step(w, Land(Op(o, Pay)));
    assert v.ledger[|w.ledger|].0 == o;
    forall p | Landed(v, p, Pay)
      ensures exists i :: 0 <= i < |v.ledger| && v.ledger[i].0 == p
    {
      if p != o {
        assert Landed(w, p, Pay);
        var i :| 0 <= i < |w.ledger| && w.ledger[i].0 == p;
        assert v.ledger[i].0 == p;
      }
    }
  }

  lemma LedgerSafe(w: World, a: Action)
    requires Inv(w) && Enabled(w, a)
    ensures LedgerInv(Step(w, a))
  {
    if a.Land? && a.op.kind == Pay {
      SettlementSafe(w, a.op.order);
    } else {
      LedgerFrame(w, Step(w, a));
    }
  }

  /** Only the holder's approval, payment and revocation move the allowance. */
  lemma LandedAllowanceSafe(w: World, op: Op)
    requires Inv(w) && Enabled(w, Land(op))
    ensures var v := Step(w, Land(op)); v.allowance == Owed(v)
  {
    assert FileInv(w, op.order);
    var v := Step(w, Land(op));
    if op.kind == Approve || op.kind == Pay || op.kind == Abort {
      assert w.reservation == Some(op.order);
      assert Amount(w.files[op.order].intent) == Amount(v.files[op.order].intent);
    }
  }

  lemma ReleasedAllowanceSafe(w: World, o: OrderId)
    requires Inv(w) && Enabled(w, Release(o))
    ensures w.allowance == 0
  {
    assert FileInv(w, o);
  }

  lemma ReservedAllowanceSafe(w: World, o: OrderId)
    requires Inv(w) && Enabled(w, Reserve(o))
    ensures var v := Step(w, Reserve(o)); v.allowance == Owed(v)
  {
    assert FileInv(w, o);
  }

  lemma AllowanceSafe(w: World, a: Action)
    requires Inv(w) && Enabled(w, a)
    ensures var v := Step(w, a); v.allowance == Owed(v)
  {
    hide FileInv, JournalsInv, SentInv, LedgerInv;
    match a
    case Land(op) => LandedAllowanceSafe(w, op);
    case Release(o) => ReleasedAllowanceSafe(w, o);
    case Reserve(o) => ReservedAllowanceSafe(w, o);
    case Create(i, _) =>
    case Save(o, s) => assert Amount(s.intent) == Amount(w.files[o].intent);
    case _ =>
  }

  lemma AcknowledgedSafe(w: World, a: Action)
    requires forall o | Landed(w, o, Ack) :: o in w.acknowledged
    requires Enabled(w, a)
    ensures var v := Step(w, a); forall o | Landed(v, o, Ack) :: o in v.acknowledged
  {
  }

  lemma StepSafe(w: World, a: Action)
    requires Inv(w) && Enabled(w, a)
    ensures Inv(Step(w, a))
  {
    FilesSafe(w, a);
    JournalsSafe(w, a);
    SentSafe(w, a);
    LedgerSafe(w, a);
    AllowanceSafe(w, a);
    AcknowledgedSafe(w, a);
  }
}
