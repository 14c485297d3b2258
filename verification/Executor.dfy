/** `runEconomyExecutor` step by step. Every await may throw or kill the process, and while the
    process waits the chain may move. Each method keeps `Valid`: what is on disk and on chain is
    the result of a legal run of the protocol, so the theorems about runs hold at every await. */
module Executor {
  import opened Effects
  import opened ExecutorProtocol
  import opened ExecutorRuns

  /** What the platform answers to a delivery request. */
  datatype Delivery = Delivery(orderId: OrderId, terms: string, paymentHash: Op, fulfilled: bool, output: string, outputHash: Digest)

  /** What may change while the process waits: the chain moves, files do not. */
  ghost predicate Awaited(w: World, v: World) {
    && v.files == w.files && v.reservation == w.reservation && v.hand == w.hand && v.sent == w.sent
    && v.journals.Keys == w.journals.Keys
    && w.landed <= v.landed && v.pending <= w.pending
    && v.landed <= w.landed + w.pending
    && w.acknowledged <= v.acknowledged
    && (forall o | o in w.attested :: o in v.attested && v.attested[o] == w.attested[o])
  }

  predicate ChainOnly(a: Action) {
    a.Land? || a.Drop? || a.Attest? || a.AcknowledgeElsewhere?
  }

  lemma ChainStep(w: World, a: Action)
    requires ChainOnly(a) && Enabled(w, a)
    ensures Awaited(w, Step(w, a)) && Step(w, a).journals == w.journals
  {
  }

  lemma AwaitedTwice(u: World, v: World, w: World)
    requires Awaited(u, v) && Awaited(v, w)
    ensures Awaited(u, w)
  {
  }

  /** Journals and submissions of every other order are as before. */
  ghost predicate OtherOpsKept(w: World, v: World, o: OrderId) {
    forall op: Op | op.order != o :: (op in v.journals <==> op in w.journals) && (op in v.sent <==> op in w.sent)
  }

  /** What one Circle call may change besides: the journal of its own operation. */
  ghost predicate Called(w: World, v: World, op: Op) {
    && v.files == w.files && v.reservation == w.reservation
    && (forall p: Op | p != op :: p in v.sent <==> p in w.sent)
    && w.journals.Keys <= v.journals.Keys <= w.journals.Keys + {op}
    && w.landed <= v.landed && w.acknowledged <= v.acknowledged
    && (forall o | o in w.attested :: o in v.attested && v.attested[o] == w.attested[o])
  }

  /** A calm chain has also landed everything that was on its way. */
  ghost predicate Calmed(w: World, v: World) {
    v.pending == {} && v.landed == w.landed + w.pending && v.attested == w.attested
  }

  ghost predicate InFlight(w: World, o: OrderId, k: Kind) {
    Op(o, k) in w.pending || Op(o, k) in w.landed
  }

  /** A journaled operation reached the chain. */
  ghost predicate Traced(w: World, o: OrderId, k: Kind) {
    Journaled(w, o, k) ==> InFlight(w, o, k)
  }

  /** The evidence a stored phase needs before a later run can leave it. A journal whose
      operation never reached the chain blocks its phase for good. */
  ghost predicate Resumable(w: World, o: OrderId)
    requires o in w.files
  {
    match w.files[o].phase
    case Approving => Traced(w, o, Approve)
    case Paying => Traced(w, o, Pay)
    case Delivered => Attestable(w, o)
    case Acknowledging => Attestable(w, o) && InFlight(w, o, Ack)
    case Completed => Attestable(w, o)
    case Aborting => Traced(w, o, Abort)
    case _ => true
  }

  ghost predicate Attestable(w: World, o: OrderId)
    requires o in w.files
  {
    o in w.attested ==> w.attested[o] == w.files[o].outputHash
  }

  ghost predicate OnlyFile(w: World, v: World, o: OrderId) {
    v.files.Keys == w.files.Keys && (forall p | p in w.files && p != o :: v.files[p] == w.files[p]) && OtherOpsKept(w, v, o)
  }

  lemma OnlyFileTwice(u: World, v: World, w: World, o: OrderId)
    requires OnlyFile(u, v, o) && OnlyFile(v, w, o)
    ensures OnlyFile(u, w, o)
  {
  }

  lemma OnlyFileSame(w: World, o: OrderId)
    ensures OnlyFile(w, w, o)
  {
  }

  /** An unpaid order whose operations, if journaled, all reached the chain. */
  ghost predicate Abortable(w: World, o: OrderId)
    requires o in w.files
  {
    match w.files[o].phase
    case Prepared => true
    case Approving => Resumable(w, o)
    case Approved => true
    case Paying => !Journaled(w, o, Pay)
    case Aborting => Resumable(w, o)
    case _ => false
  }

  predicate PaidFor(p: Phase) {
    p == Paid || p == Delivered || p == Acknowledging || p == Completed
  }

  predicate Unpaid(p: Phase) {
    p == Prepared || p == Approving || p == Approved || p == Paying
  }

  ghost predicate OthersKept(w: World, v: World, o: OrderId) {
    (forall p | p in w.files && p != o :: p in v.files && v.files[p] == w.files[p]) &&
    (forall p | p in v.files && p != o :: p in w.files) && OtherOpsKept(w, v, o)
  }

  /** The phase is on disk but the process died before the acknowledgment had a journal. */
  ghost predicate Stranded(w: World, o: OrderId) {
    o in w.files && w.files[o].phase == Acknowledging && !Journaled(w, o, Ack)
  }

  /** The phase a call that ends without an error leaves the order in. */
  ghost function EndPhase(w: World, o: OrderId, abortUnpaid: bool): Phase {
    if abortUnpaid || (o in w.files && (w.files[o].phase == Aborting || w.files[o].phase == Aborted))
    then Aborted else Completed
  }

  ghost predicate Finished(w: World, v: World, intent: Intent, abortUnpaid: bool, s: OrderState) {
    var o := intent.orderId;
    o in v.files && v.files[o] == s && s.intent == intent && v.reservation == None &&
    s.phase == EndPhase(w, o, abortUnpaid)
  }

  /** Every operation the stored phase waits for did reach the chain. */
  ghost predicate Ready(w: World, o: OrderId, abortUnpaid: bool)
    requires o in w.files
  {
    if w.files[o].phase == Aborted then true
    else if abortUnpaid || w.files[o].phase == Aborting then Abortable(w, o)
    else Resumable(w, o)
  }

  /** The order has yet to be approved or paid, and was created under other policy versions than
      `current`. */
  ghost predicate Outdated(w: World, o: OrderId, current: string) {
    o in w.files && w.files[o].versions != current &&
    (w.files[o].phase == Prepared || w.files[o].phase == Approving || w.files[o].phase == Approved ||
     (w.files[o].phase == Paying && !Journaled(w, o, Pay)))
  }

  /** When a call can end without an error: nobody else holds the reservation, the stored intent is
      this one, the stored phase can be left, and what is to be approved or paid is still under the
      policy versions it was created with. */
  ghost predicate CanFinish(w: World, intent: Intent, abortUnpaid: bool, current: string) {
    var o := intent.orderId;
    Accepted(intent) && Free(w, o) &&
    if o in w.files then w.files[o].intent == intent && Ready(w, o, abortUnpaid) && (abortUnpaid || !Outdated(w, o, current))
    else !abortUnpaid
  }

  ghost predicate Loaded(w: World, v: World, intent: Intent, abortUnpaid: bool) {
    var o := intent.orderId;
    o in v.files && v.files[o].intent == intent && Free(v, o) &&
    EndPhase(v, o, abortUnpaid) == EndPhase(w, o, abortUnpaid)
  }

  lemma WaitKeepsCanFinish(w: World, v: World, intent: Intent, abortUnpaid: bool, current: string)
    requires Awaited(w, v)
    ensures CanFinish(v, intent, abortUnpaid, current) ==> CanFinish(w, intent, abortUnpaid, current)
    ensures Calmed(w, v) && CanFinish(w, intent, abortUnpaid, current) ==> CanFinish(v, intent, abortUnpaid, current)
  {
  }

  lemma IntentStep(w: World, a: Action, o: OrderId)
    requires Enabled(w, a) && o in w.files
    ensures o in Step(w, a).files && Step(w, a).files[o].intent == w.files[o].intent
  {
  }

  lemma {:induction false} IntentStays(log: seq<Action>, k: nat, o: OrderId)
    requires Legal(log) && k <= |log| && Legal(log[..k]) && o in After(log[..k]).files
    ensures o in After(log).files && After(log).files[o].intent == After(log[..k]).files[o].intent
    decreases |log|
  {
    if k < |log| {
      var last := |log| - 1;
      assert log[..last][..k] == log[..k];
      IntentStays(log[..last], k, o);
      IntentStep(After(log[..last]), log[last], o);
    } else {
      assert log[..k] == log;
    }
  }

  ghost predicate Revoked(w: World, o: OrderId, required: bool) {
    required ==> Landed(w, o, Abort)
  }

  /** A payment on its way always finds the allowance it needs. */
  lemma PendingLands(w: World, op: Op)
    requires Inv(w) && op in w.pending
    ensures Enabled(w, Land(op))
  {
    assert op in w.sent && op in w.journals;
    assert FileInv(w, op.order);
  }

  lemma LandedHasJournal(log: seq<Action>, o: OrderId, k: Kind)
    requires Legal(log) && Landed(After(log), o, k)
    ensures Journaled(After(log), o, k)
  {
    RunSafe(log);
  }

  /** With nobody else's reservation the allowance is this order's or nothing. */
  lemma FreeAllowance(log: seq<Action>, o: OrderId)
    requires Legal(log) && o in After(log).files && Free(After(log), o)
    ensures var i := After(log).files[o].intent; After(log).allowance == 0 || After(log).allowance == i.quantity * i.unitPrice
  {
    RunSafe(log);
  }

  lemma PhaseEvidence(log: seq<Action>, o: OrderId)
    requires Legal(log) && o in After(log).files
    ensures FileInv(After(log), o)
  {
    RunSafe(log);
  }

  /** A landed revocation leaves nothing to spend. */
  lemma RevokedAllowance(log: seq<Action>, o: OrderId)
    requires Legal(log) && o in After(log).files && Free(After(log), o) && Landed(After(log), o, Abort)
    ensures After(log).allowance == 0
  {
    RunSafe(log);
  }

  lemma PreparedEvidence(log: seq<Action>, o: OrderId)
    requires Legal(log) && o in After(log).files && Free(After(log), o) && After(log).files[o].phase == Prepared
    ensures After(log).allowance == 0 && !Journaled(After(log), o, Approve)
  {
    RunSafe(log);
    assert FileInv(After(log), o);
  }

  lemma ApprovedEvidence(log: seq<Action>, o: OrderId)
    requires Legal(log) && o in After(log).files && After(log).files[o].phase == Approved
    ensures After(log).reservation == Some(o) && !Journaled(After(log), o, Pay)
    ensures After(log).files[o].intent.orderId == o
  {
    RunSafe(log);
    assert FileInv(After(log), o);
  }

  /** The answer is about this order, its payment and the output it carries. */
  predicate Bound(d: Delivery, s: OrderState) {
    && d.fulfilled && d.orderId == s.intent.orderId && d.terms == s.intent.terms
    && s.paymentHash == Some(d.paymentHash) && d.outputHash == Digest(d.output)
  }

  /** The paid state: the proof of payment and the one request it pays for. */
  function WithProof(s: OrderState): OrderState {
    var hash := Op(s.intent.orderId, Pay);
    s.(phase := Paid, paymentHash := Some(hash), request := Some(Request(s.intent, hash)))
  }

  lemma BoughtEvidence(log: seq<Action>, o: OrderId)
    requires Legal(log) && o in After(log).files && PaidFor(After(log).files[o].phase)
    ensures Bought(After(log), o, After(log).files[o]) && After(log).files[o].intent.orderId == o
    ensures var w := After(log); w.files[o].phase != Paid ==>
              w.reservation != Some(o) && w.files[o].outputHash == Digest(w.files[o].output)
    ensures var w := After(log); w.files[o].phase == Completed ==> o in w.acknowledged
    ensures var w := After(log); w.files[o].phase == Delivered ==> !Journaled(w, o, Ack)
    ensures var w := After(log); InFlight(w, o, Ack) ==> Journaled(w, o, Ack)
  {
    RunSafe(log);
    assert FileInv(After(log), o);
  }

  lemma AcknowledgmentSeen(log: seq<Action>, o: OrderId)
    requires Legal(log) && Landed(After(log), o, Ack)
    ensures o in After(log).acknowledged
  {
    RunSafe(log);
  }

  const SAMPLE := Intent("order", 1, 1000, 1000, "terms")
  const FRESH := OrderState(SAMPLE, "v1", Prepared, false, None, None, "", Digest(""))

  /** What one process writes, with the chain answering, until its payment may start. */
  ghost function SampleReservation(): seq<Action> {
    var o := SAMPLE.orderId;
    [Create(SAMPLE, "v1"), Reserve(o), Save(o, FRESH.(phase := Approving)), Record(Op(o, Approve), 1000)]
  }

  ghost function SampleApproval(): seq<Action> {
    var o := SAMPLE.orderId;
    SampleReservation() +
    [Submit(Op(o, Approve)), Land(Op(o, Approve)), Save(o, FRESH.(phase := Approved)), Save(o, FRESH.(phase := Paying))]
  }

  ghost function SamplePayment(): seq<Action> {
    var o := SAMPLE.orderId;
    [Record(Op(o, Pay), 1000), Submit(Op(o, Pay)), Land(Op(o, Pay)), Save(o, WithProof(FRESH))]
  }

  /** The rest of the run, until the process dies with the acknowledging phase on disk. */
  ghost function SampleDelivery(): seq<Action> {
    var o := SAMPLE.orderId;
    var delivered := WithProof(FRESH).(phase := Delivered, output := "out", outputHash := Digest("out"));
    [Release(o), Attest(o, Digest("out")), Save(o, delivered), Save(o, delivered.(phase := Acknowledging))]
  }

  lemma Next(log: seq<Action>, w: World, a: Action) returns (longer: seq<Action>, v: World)
    requires Legal(log) && After(log) == w && Enabled(w, a)
    ensures longer == log + [a] && v == Step(w, a) && Legal(longer) && After(longer) == v
  {
    Extend(log, a);
    longer, v := log + [a], Step(w, a);
  }

  lemma SampleReservationIsLegal()
    ensures Legal(SampleReservation())
    ensures var o := SAMPLE.orderId;
      var op := Op(o, Approve);
      After(SampleReservation()) ==
        EMPTY.(files := map[o := FRESH.(phase := Approving)], reservation := Some(o), journals := map[op := Journal(1000, Submitting)], hand := Some(op))
  {
    var o := SAMPLE.orderId;
    var log, w := Next([], EMPTY, Create(SAMPLE, "v1"));
    log, w := Next(log, w, Reserve(o));
    log, w := Next(log, w, Save(o, FRESH.(phase := Approving)));
    log, w := Next(log, w, Record(Op(o, Approve), 1000));
    assert log == SampleReservation();
  }

  lemma SampleApprovalIsLegal()
    ensures Legal(SampleApproval())
    ensures var o, w := SAMPLE.orderId, After(SampleApproval());
      && o in w.files && w.files[o] == FRESH.(phase := Paying) && w.reservation == Some(o)
      && !Journaled(w, o, Pay) && !Journaled(w, o, Ack) && Op(o, Pay) !in w.sent
      && w.allowance == 1000 && o !in w.attested
  {
    var o := SAMPLE.orderId;
    SampleReservationIsLegal();
    var log, w := Next(SampleReservation(), After(SampleReservation()), Submit(Op(o, Approve)));
    log, w := Next(log, w, Land(Op(o, Approve)));
    log, w := Next(log, w, Save(o, FRESH.(phase := Approved)));
    log, w := Next(log, w, Save(o, FRESH.(phase := Paying)));
    assert log == SampleApproval();
  }

  lemma SamplePaymentIsLegal()
    ensures Legal(SampleApproval() + SamplePayment())
    ensures var o, w := SAMPLE.orderId, After(SampleApproval() + SamplePayment());
      && o in w.files && w.files[o] == WithProof(FRESH) && w.reservation == Some(o)
      && Landed(w, o, Pay) && !Journaled(w, o, Ack) && o !in w.attested
  {
    var o := SAMPLE.orderId;
    SampleApprovalIsLegal();
    var log, w := Next(SampleApproval(), After(SampleApproval()), Record(Op(o, Pay), 1000));
    log, w := Next(log, w, Submit(Op(o, Pay)));
    log, w := Next(log, w, Land(Op(o, Pay)));
    log, w := Next(log, w, Save(o, WithProof(FRESH)));
    assert log == SampleApproval() + SamplePayment();
  }

  /** A crash between the acknowledging phase and its journal is possible, and then no call can
      ever finish the order: not every stored order can be resumed. */
  lemma CrashStrandsAcknowledgment()
    ensures var log := SampleApproval() + SamplePayment() + SampleDelivery();
      && Legal(log) && Stranded(After(log), SAMPLE.orderId)
      && forall abortUnpaid, current :: !CanFinish(After(log), SAMPLE, abortUnpaid, current)
  {
    var o := SAMPLE.orderId;
    var delivered := WithProof(FRESH).(phase := Delivered, output := "out", outputHash := Digest("out"));
    SamplePaymentIsLegal();
    var log, w := Next(SampleApproval() + SamplePayment(), After(SampleApproval() + SamplePayment()), Release(o));
    log, w := Next(log, w, Attest(o, Digest("out")));
    log, w := Next(log, w, Save(o, delivered));
    log, w := Next(log, w, Save(o, delivered.(phase := Acknowledging)));
    assert log == SampleApproval() + SamplePayment() + SampleDelivery();
    BoughtEvidence(log, o);
  }

  /** A stranded order stays beyond every call: none can finish it, whatever has happened since. */
  lemma StrandedCannotFinish(log: seq<Action>, intent: Intent, abortUnpaid: bool, current: string)
    requires Legal(log) && Stranded(After(log), intent.orderId)
    ensures !CanFinish(After(log), intent, abortUnpaid, current)
  {
    RunSafe(log);
    LandedMeansJournal(After(log), intent.orderId);
  }

  lemma LandedMeansJournal(w: World, o: OrderId)
    requires Inv(w) && !Journaled(w, o, Ack)
    ensures !InFlight(w, o, Ack)
  {
  }

  class Directory {
    var world: World
    var locked: bool
    const calm: bool
    ghost var log: seq<Action>

    ghost predicate Valid()
      reads this
    {
      Legal(log) && world == After(log)
    }

    /** The contract of every wait. */
    twostate predicate Waited()
      reads this
    {
      Valid() && old(log) <= log && Awaited(old(world), world) && locked == old(locked)
    }

    constructor (calm: bool)
      ensures Valid() && world == EMPTY && !locked && this.calm == calm && log == []
    {
      world, locked, log := EMPTY, false, [];
      this.calm := calm;
    }

    /** The one place where disk or chain changes. */
    method Do(a: Action)
      requires Valid() && Enabled(world, a)
      modifies this`world, this`log
      ensures Valid() && world == Step(old(world), a) && log == old(log) + [a]
    {
      Extend(log, a);
      world := Step(world, a);
      log := log + [a];
    }

    method LandAll()
      requires Valid()
      modifies this`world, this`log
      ensures Waited() && Calmed(old(world), world) && world.journals == old(world).journals
    {
      while world.pending != {}
        invariant world.journals == old(world).journals
        invariant Waited() && world.landed + world.pending == old(world).landed + old(world).pending
        invariant world.attested == old(world).attested
        decreases world.pending
      {
        var op :| op in world.pending;
        assert Enabled(world, Land(op)) by {
          RunSafe(log);
          PendingLands(world, op);
        }
        ChainStep(world, Land(op));
        AwaitedTwice(old(world), world, Step(world, Land(op)));
        Do(Land(op));
      }
    }

    /** One arbitrary chain event, if it is possible now. */
    method ChainEvent(a: Action)
      requires Valid()
      modifies this`world, this`log
      ensures Waited() && world.journals == old(world).journals
    {
      if ChainOnly(a) && Enabled(world, a) {
        ChainStep(world, a);
        Do(a);
      }
    }

    method Await() returns (r: Result<()>)
      requires Valid()
      modifies this`world, this`log
      ensures Waited() && world.journals == old(world).journals
      ensures calm ==> r.Ok? && Calmed(old(world), world)
    {
      if calm {
        LandAll();
        return Ok(());
      }
      var events: seq<Action> := *;
      for i := 0 to |events|
        invariant Waited() && world.journals == old(world).journals
      {
        ghost var before := world;
        ChainEvent(events[i]);
        AwaitedTwice(old(world), before, world);
      }
      r := *;
    }

    /** Whether something goes wrong here; it may anywhere, unless the directory is calm. */
    method Mishap() returns (b: bool)
      ensures calm ==> !b
    {
      b := *;
      b := b && !calm;
    }

    // -------------------------------------------------------------- files

    /** A file write (temporary file and rename) or an unlink: it happens as a whole or not at
        all, and the process may throw or die before or after it. */
    method Write(a: Action) returns (r: Result<()>)
      requires Valid() && Enabled(world, a)
      modifies this`world, this`log
      ensures Valid() && old(log) <= log
      ensures world == old(world) || world == Step(old(world), a)
      ensures r.Ok? ==> world == Step(old(world), a)
      ensures calm ==> r.Ok?
    {
      r := *;
      if calm {
        r := Ok(());
      }
      var early := Mishap();
      if r.Ok? || !early {
        Do(a);
      }
    }

    // -------------------------------------------------------------- evidence

    /** Under the operation lock: a journal means the operation may exist; its absence together
        with an unpaid order means it does not. */
    method HasOperation(o: OrderId, k: Kind) returns (r: Result<bool>)
      requires Valid()
      modifies this`world, this`log
      ensures Waited()
      ensures r.Ok? ==> r.value == Journaled(world, o, k)
      ensures r.Ok? && !r.value ==> !Landed(world, o, Pay)
      ensures calm ==> Calmed(old(world), world)
      ensures calm && (Journaled(old(world), o, k) || !Journaled(old(world), o, Pay)) ==> r.Ok?
    {
      var _ :- Await();
      if Journaled(world, o, k) {
        return Ok(true);
      }
      if Landed(world, o, Pay) {
        LandedHasJournal(log, o, Pay);
        return Threw;
      }
      return Ok(false);
    }

    method AssertUnpaid(o: OrderId) returns (r: Result<()>)
      requires Valid()
      modifies this`world, this`log
      ensures Waited()
      ensures r.Ok? ==> !Landed(world, o, Pay)
      ensures calm ==> Calmed(old(world), world)
      ensures calm && !Journaled(old(world), o, Pay) ==> r.Ok?
    {
      var _ :- Await();
      if Landed(world, o, Pay) {
        LandedHasJournal(log, o, Pay);
        return Threw;
      }
      return Ok(());
    }

    /** A finalized receipt exists only for an operation that landed. */
    method Receipt(o: OrderId, k: Kind) returns (r: Result<Op>)
      requires Valid()
      modifies this`world, this`log
      ensures Waited() && world.journals == old(world).journals
      ensures r.Ok? ==> r.value == Op(o, k) && Landed(world, o, k)
      ensures calm ==> Calmed(old(world), world)
      ensures calm && Landed(world, o, k) ==> r.Ok?
    {
      var _ :- Await();
      return if Landed(world, o, k) then Ok(Op(o, k)) else Threw;
    }

    /** Read-only recovery of a journaled operation; it never submits. */
    method Recover(o: OrderId, k: Kind) returns (r: Result<Op>)
      requires Valid()
      modifies this`world, this`log
      ensures Waited()
      ensures r.Ok? ==> r.value == Op(o, k) && Journaled(world, o, k) && Landed(world, o, k)
      ensures calm ==> world.attested == old(world).attested && (r.Ok? ==> world.pending == {})
      ensures calm && Journaled(old(world), o, k) && InFlight(old(world), o, k) ==> r.Ok?
      ensures r.Ok? ==> world.journals[Op(o, k)].status == Submitted
      ensures Journaled(old(world), o, k) && old(world).journals[Op(o, k)].status == Failed ==>
                world.journals[Op(o, k)].status == Failed && !r.Ok?
    {
      var op := Op(o, k);
      var _ :- Await();
      if op !in world.journals {
        return Threw;
      }
      var failed := Mishap();
      if failed && op !in world.pending && op !in world.landed {
        Do(Mark(op, Failed));
      }
      if world.journals[op].status == Failed {
        assert op !in world.landed && op !in world.pending by { RunSafe(log); }
        return Threw;
      }
      Do(Mark(op, Submitted));
      r := Receipt(o, k);
    }

    // -------------------------------------------------------------- Circle

    /** Hands a journaled operation over once and notes what is known about it. */
    method Hand(op: Op) returns (r: Result<()>)
      requires Valid() && Enabled(world, Submit(op))
      modifies this`world, this`log
      ensures Valid() && old(log) <= log && Called(old(world), world, op) && op in world.journals
      ensures calm ==> world.pending == {} && world.attested == old(world).attested
      ensures calm ==> r.Ok? && op in world.landed
      ensures !r.Crashed? ==> world.journals[op].status == if r.Ok? then Submitted else Uncertain
    {
      var died := Mishap();
      if died {
        return Crashed;
      }
      var unsent := Mishap();
      if !unsent {
        Do(Submit(op));
      }
      r := Await();
      if !r.Crashed? {
        Do(Mark(op, if r.Ok? then Submitted else Uncertain));
      }
    }

    /** The journal is written before the submission and decides whether there is one. */
    method Circle(o: OrderId, k: Kind) returns (r: Result<()>)
      requires Valid() && o in world.files && RecordAllowed(world.files[o], k)
      modifies this`world, this`log
      ensures Valid() && old(log) <= log && Called(old(world), world, Op(o, k))
      ensures Journaled(old(world), o, k) ==> world.sent == old(world).sent && world.journals.Keys == old(world).journals.Keys
      ensures r.Ok? ==> Journaled(world, o, k)
      ensures r.Ok? && Journaled(old(world), o, k) ==> world.journals[Op(o, k)].status == Submitted
      ensures calm ==> world.pending == {} && world.attested == old(world).attested
      ensures calm && !Journaled(old(world), o, k) ==> r.Ok? && Landed(world, o, k)
      ensures calm && Journaled(old(world), o, k) ==> (r.Ok? <==> old(world).journals[Op(o, k)].status == Submitted)
    {
      var op := Op(o, k);
      var _ :- Await();
      if op in world.journals {
        return if world.journals[op].status == Submitted then Ok(()) else Threw;
      }
      var _ :- Write(Record(op, JournalAmount(world.files[o].intent, k)));
      r := Hand(op);
    }

    // -------------------------------------------------------------- abort

    method PrepareAbort(o: OrderId) returns (r: Result<bool>)
      requires Valid() && o in world.files && Free(world, o)
      modifies this`world, this`log
      ensures Waited()
      ensures r.Ok? ==> !Journaled(world, o, Pay) && (Journaled(world, o, Approve) ==> Landed(world, o, Approve))
      ensures r.Ok? ==> r.value == (Journaled(world, o, Approve) && world.allowance != 0)
      ensures calm && !Journaled(old(world), o, Pay) && Traced(old(world), o, Approve) ==> r.Ok?
    {
      var paying :- HasOperation(o, Pay);
      if paying {
        return Threw;
      }
      var _ :- AssertUnpaid(o);
      var approved :- HasOperation(o, Approve);
      if !approved {
        return Ok(false);
      }
      r := RecoverLeftover(o);
    }

    /** What a landed approval has left; only this order can have left it. */
    method RecoverLeftover(o: OrderId) returns (r: Result<bool>)
      requires Valid() && o in world.files && Free(world, o) && Journaled(world, o, Approve)
      modifies this`world, this`log
      ensures Waited()
      ensures r.Ok? ==> Landed(world, o, Approve) && r.value == (world.allowance != 0)
      ensures calm && InFlight(old(world), o, Approve) ==> r.Ok?
    {
      var _ :- Recover(o, Approve);
      var _ :- Await();
      FreeAllowance(log, o);
      if world.allowance != 0 && world.allowance != Amount(world.files[o].intent) {
        return Threw;
      }
      return Ok(world.allowance != 0);
    }

    method VerifyAborted(o: OrderId, revoke: bool) returns (r: Result<()>)
      requires Valid() && o in world.files && Free(world, o)
      modifies this`world, this`log
      ensures Waited()
      ensures r.Ok? ==> !Journaled(world, o, Pay) && (revoke ==> world.allowance == 0)
      ensures calm && !Journaled(old(world), o, Pay) && Revoked(old(world), o, revoke) ==> r.Ok?
    {
      var paying :- HasOperation(o, Pay);
      if paying {
        return Threw;
      }
      var _ :- AssertUnpaid(o);
      if revoke {
        var _ :- Await();
        if world.allowance != 0 {
          if Landed(world, o, Abort) {
            RevokedAllowance(log, o);
          }
          return Threw;
        }
      }
      return Ok(());
    }

    /** Revokes the allowance, once: an existing journal is only recovered. */
    method Revoke(o: OrderId) returns (r: Result<()>)
      requires Valid() && o in world.files && Free(world, o)
      requires world.files[o].phase == Aborting && world.files[o].revokeRequired
      modifies this`world, this`log
      ensures Valid() && old(log) <= log && Called(old(world), world, Op(o, Abort))
      ensures Journaled(old(world), o, Abort) ==> world.sent == old(world).sent
      ensures r.Ok? ==> Landed(world, o, Abort) && Traced(old(world), o, Abort)
      ensures calm && Traced(old(world), o, Abort) ==> r.Ok? && world.pending == {}
    {
      PhaseEvidence(log, o);
      var started :- HasOperation(o, Abort);
      if started {
        var _ :- Recover(o, Abort);
      } else {
        var _ :- PrepareAbort(o);
        var _ :- Circle(o, Abort);
        var _ :- Receipt(o, Abort);
      }
      return Ok(());
    }

    method AbortOrder(o: OrderId) returns (r: Result<()>)
      requires Valid() && o in world.files && Free(world, o) && world.files[o].phase != Aborted
      modifies this`world, this`log
      ensures Valid() && old(log) <= log && OnlyFile(old(world), world, o)
      ensures r.Ok? ==> world.files[o].phase == Aborted && world.reservation == None
      ensures r.Ok? ==> Abortable(old(world), o)
      ensures PaidFor(old(world).files[o].phase) ==> world == old(world)
      ensures calm && Abortable(old(world), o) ==> r.Ok?
    {
      var state := world.files[o];
      PhaseEvidence(log, o);
      if state.phase !in {Prepared, Approving, Approved, Paying, Aborting} {
        return Threw;
      }
      if state.phase != Aborting {
        state :- BeginAbort(o);
      }
      r := CompleteAbort(o);
    }

    method CompleteAbort(o: OrderId) returns (r: Result<()>)
      requires Valid() && o in world.files && Free(world, o) && world.files[o].phase == Aborting
      modifies this`world, this`log
      ensures Valid() && old(log) <= log && OnlyFile(old(world), world, o)
      ensures r.Ok? ==> world.files[o].phase == Aborted && world.reservation == None && Resumable(old(world), o)
      ensures calm && Resumable(old(world), o) ==> r.Ok?
    {
      PhaseEvidence(log, o);
      if world.files[o].revokeRequired {
        var _ :- Revoke(o);
      }
      r := FinishAbort(o);
    }

    /** Nothing is revoked before the order is marked as aborting. */
    method BeginAbort(o: OrderId) returns (r: Result<OrderState>)
      requires Valid() && o in world.files && Free(world, o) && Unpaid(world.files[o].phase)
      modifies this`world, this`log
      ensures Valid() && old(log) <= log && OnlyFile(old(world), world, o) && Free(world, o)
      ensures r.Ok? ==> world.files[o] == r.value && r.value.phase == Aborting && Abortable(old(world), o)
      ensures r.Ok? ==> world.reservation == old(world).reservation
      ensures calm && Abortable(old(world), o) ==> r.Ok? && Abortable(world, o)
    {
      var state := world.files[o];
      PhaseEvidence(log, o);
      var revoke :- PrepareAbort(o);
      state := state.(revokeRequired := revoke, phase := Aborting);
      var _ :- Write(Save(o, state));
      return Ok(state);
    }

    method FinishAbort(o: OrderId) returns (r: Result<()>)
      requires Valid() && o in world.files && Free(world, o) && world.files[o].phase == Aborting
      modifies this`world, this`log
      ensures Valid() && old(log) <= log && OnlyFile(old(world), world, o)
      ensures r.Ok? ==> world.files[o].phase == Aborted && world.reservation == None
      ensures calm && Revoked(old(world), o, old(world).files[o].revokeRequired) ==> r.Ok?
    {
      var state := world.files[o];
      PhaseEvidence(log, o);
      var _ :- VerifyAborted(o, state.revokeRequired);
      var _ :- Write(Save(o, state.(phase := Aborted)));
      r := Write(ExecutorProtocol.Release(o));
    }

    // -------------------------------------------------------------- up to the payment

    /** Platform checks that touch neither files nor chain; `current` are the policy versions the
        platform answers with. */
    method Preflight(o: OrderId, stored: Option<string>, current: string) returns (r: Result<()>)
      requires Valid()
      modifies this`world, this`log
      ensures Waited()
      ensures r.Ok? && stored.Some? ==> current == stored.value
      ensures calm ==> Calmed(old(world), world) && (stored.None? || stored.value == current ==> r.Ok?)
    {
      var _ :- Await();
      return if stored.Some? && stored.value != current then Threw else Ok(());
    }

    /** Undoes a phase whose effect provably never started. */
    method Retreat(o: OrderId) returns (r: Result<()>)
      requires Valid() && o in world.files && Free(world, o)
      modifies this`world, this`log
      ensures Valid() && old(log) <= log && OnlyFile(old(world), world, o) && Free(world, o)
      ensures r.Ok? ==> var p, q := old(world).files[o].phase, world.files[o].phase;
        if p == Approving && !Journaled(old(world), o, Approve) then q == Prepared
        else if p == Paying && !Journaled(old(world), o, Pay) then q == Approved
        else world.files == old(world).files
      ensures r.Ok? ==> world.files[o].versions == old(world).files[o].versions && (Unpaid(old(world).files[o].phase) ==> Unpaid(world.files[o].phase))
      ensures r.Ok? && Unpaid(old(world).files[o].phase) ==> forall c :: Outdated(old(world), o, c) <==> world.files[o].phase != Paying && world.files[o].versions != c
      ensures r.Ok? && world.files[o].phase == Approving ==> Journaled(world, o, Approve)
      ensures r.Ok? && world.files[o].phase == Paying ==> Journaled(world, o, Pay)
      ensures r.Ok? && Resumable(world, o) ==> Resumable(old(world), o)
      ensures calm ==> r.Ok? && (Resumable(old(world), o) ==> Resumable(world, o))
    {
      var state := world.files[o];
      PhaseEvidence(log, o);
      if state.phase == Approving {
        var started :- HasOperation(o, Approve);
        if !started {
          var _ :- Write(Save(o, state.(phase := Prepared)));
          var _ :- Write(ExecutorProtocol.Release(o));
        }
      }
      if state.phase == Paying {
        r := RetreatFromPaying(o);
      } else {
        r := Ok(());
      }
    }

    method RetreatFromPaying(o: OrderId) returns (r: Result<()>)
      requires Valid() && o in world.files && Free(world, o) && world.files[o].phase == Paying
      modifies this`world, this`log
      ensures Valid() && old(log) <= log && OnlyFile(old(world), world, o) && Free(world, o)
      ensures r.Ok? && Journaled(old(world), o, Pay) ==> world.files == old(world).files && Journaled(world, o, Pay)
      ensures r.Ok? && !Journaled(old(world), o, Pay) ==> world.files[o].phase == Approved
      ensures r.Ok? ==> world.files[o].versions == old(world).files[o].versions
      ensures r.Ok? && Resumable(world, o) ==> Resumable(old(world), o)
      ensures calm ==> r.Ok? && (Resumable(old(world), o) ==> Resumable(world, o))
    {
      PhaseEvidence(log, o);
      var started :- HasOperation(o, Pay);
      if !started {
        var _ :- Write(Save(o, world.files[o].(phase := Approved)));
      }
      return Ok(());
    }

    /** One Circle call and its finalized receipt. */
    method Effect(o: OrderId, k: Kind) returns (r: Result<()>)
      requires Valid() && o in world.files && RecordAllowed(world.files[o], k)
      modifies this`world, this`log
      ensures Valid() && old(log) <= log && Called(old(world), world, Op(o, k))
      ensures Journaled(old(world), o, k) ==> world.sent == old(world).sent
      ensures r.Ok? ==> Landed(world, o, k)
      ensures calm && !Journaled(old(world), o, k) ==> r.Ok? && world.attested == old(world).attested
    {
      var _ :- Circle(o, k);
      var _ :- Receipt(o, k);
      return Ok(());
    }

    /** Runs an effect whose phase is already on disk. When it throws and provably never
        started, the earlier phase comes back; otherwise the stored phase stays. */
    method Attempt(o: OrderId, k: Kind) returns (r: Result<()>)
      requires Valid() && o in world.files && world.reservation == Some(o)
      requires (k == Approve && world.files[o].phase == Approving) || (k == Pay && world.files[o].phase == Paying)
      modifies this`world, this`log
      ensures Valid() && old(log) <= log && OnlyFile(old(world), world, o) && Free(world, o)
      ensures r.Ok? ==> Landed(world, o, k) && world.files == old(world).files && world.reservation == Some(o)
      ensures calm && !Journaled(old(world), o, k) ==> r.Ok? && world.attested == old(world).attested
    {
      var state := world.files[o];
      r := Effect(o, k);
      if r.Threw? {
        var started :- HasOperation(o, k);
        if !started {
          var _ :- Write(Save(o, state.(phase := if k == Approve then Prepared else Approved)));
          if k == Approve {
            var _ :- Write(ExecutorProtocol.Release(o));
          }
        }
        return Threw;
      }
    }

    /** A leftover allowance would have to be reconciled first; there never is one. */
    method PrepareApproval(o: OrderId) returns (r: Result<()>)
      requires Valid() && o in world.files && Free(world, o) && world.files[o].phase == Prepared
      modifies this`world, this`log
      ensures Waited()
      ensures r.Ok? ==> world.allowance == 0 && !Journaled(world, o, Approve)
      ensures calm ==> r.Ok? && Calmed(old(world), world)
    {
      var _ :- Await();
      PreparedEvidence(log, o);
      return if world.allowance != 0 then Threw else Ok(());
    }

    /** The reservation is on disk before the phase, and the phase before the approval. */
    method ReserveFor(o: OrderId) returns (r: Result<()>)
      requires Valid() && o in world.files && Free(world, o) && world.files[o].phase == Prepared
      modifies this`world, this`log
      ensures Valid() && old(log) <= log && OnlyFile(old(world), world, o) && Free(world, o)
      ensures r.Ok? ==> world.files[o] == old(world).files[o].(phase := Approving)
      ensures r.Ok? ==> world.reservation == Some(o) && !Journaled(world, o, Approve)
      ensures calm ==> r.Ok? && world.attested == old(world).attested
    {
      var state := world.files[o];
      var _ :- PrepareApproval(o);
      var _ :- Write(ExecutorProtocol.Reserve(o));
      r := Write(Save(o, state.(phase := Approving)));
    }

    method ApproveOrder(o: OrderId) returns (r: Result<()>)
      requires Valid() && o in world.files && Free(world, o) && world.files[o].phase == Prepared
      modifies this`world, this`log
      ensures Valid() && old(log) <= log && OnlyFile(old(world), world, o) && Free(world, o)
      ensures r.Ok? ==> world.files[o].phase == Approved
      ensures calm ==> r.Ok? && world.attested == old(world).attested
    {
      var _ :- ReserveFor(o);
      var state := world.files[o];
      var _ :- Attempt(o, Approve);
      r := Write(Save(o, state.(phase := Approved)));
    }

    method PayOrder(o: OrderId) returns (r: Result<()>)
      requires Valid() && o in world.files && Free(world, o) && world.files[o].phase == Approved
      modifies this`world, this`log
      ensures Valid() && old(log) <= log && OnlyFile(old(world), world, o) && Free(world, o)
      ensures r.Ok? ==> world.files[o].phase == Paid
      ensures calm ==> r.Ok? && world.attested == old(world).attested
    {
      var _ :- StartPaying(o);
      var state := world.files[o];
      var _ :- Attempt(o, Pay);
      r := Write(Save(o, WithProof(state)));
    }

    /** The paying phase is on disk before the payment. */
    method StartPaying(o: OrderId) returns (r: Result<()>)
      requires Valid() && o in world.files && Free(world, o) && world.files[o].phase == Approved
      modifies this`world, this`log
      ensures Valid() && old(log) <= log && OnlyFile(old(world), world, o) && Free(world, o)
      ensures r.Ok? ==> world.files[o] == old(world).files[o].(phase := Paying) && world.files[o].intent.orderId == o
      ensures r.Ok? ==> world.reservation == Some(o) && !Journaled(world, o, Pay)
      ensures calm ==> r.Ok? && world.attested == old(world).attested
    {
      ApprovedEvidence(log, o);
      var _ :- Await();
      r := Write(Save(o, world.files[o].(phase := Paying)));
    }

    /** From any unpaid phase to the paid one. */
    method PayFor(o: OrderId, current: string) returns (r: Result<()>)
      requires Valid() && o in world.files && Free(world, o)
      requires Unpaid(world.files[o].phase) || PaidFor(world.files[o].phase)
      modifies this`world, this`log
      ensures Valid() && old(log) <= log && OnlyFile(old(world), world, o) && Free(world, o)
      ensures r.Ok? ==> if Unpaid(old(world).files[o].phase) then world.files[o].phase == Paid
                        else world.files == old(world).files
      ensures r.Ok? && Unpaid(old(world).files[o].phase) ==> Resumable(old(world), o) && !Outdated(old(world), o, current)
      ensures calm && Resumable(old(world), o) && !Outdated(old(world), o, current) ==> r.Ok?
      ensures PaidFor(old(world).files[o].phase) ==> r.Ok? && world == old(world)
    {
      hide Outdated, OnlyFile;
      ghost var before := world;
      OnlyFileSame(world, o);
      if PaidFor(world.files[o].phase) {
        return Ok(());
      }
      var _ :- Retreat(o);
      ghost var retreated := world;
      if world.files[o].phase == Paying {
        r := ResumePayment(o);
      } else {
        r := ApproveAndPay(o, current);
      }
      OnlyFileTwice(before, retreated, world, o);
    }

    method ApproveAndPay(o: OrderId, current: string) returns (r: Result<()>)
      requires Valid() && o in world.files && Free(world, o)
      requires Unpaid(world.files[o].phase) && world.files[o].phase != Paying
      requires world.files[o].phase == Approving ==> Journaled(world, o, Approve)
      modifies this`world, this`log
      ensures Valid() && old(log) <= log && OnlyFile(old(world), world, o) && Free(world, o)
      ensures r.Ok? ==> world.files[o].phase == Paid && Resumable(old(world), o) && old(world).files[o].versions == current
      ensures calm && Resumable(old(world), o) && old(world).files[o].versions == current ==> r.Ok?
      ensures old(world).files[o].versions != current ==> world.files == old(world).files && world.sent == old(world).sent && !r.Ok?
    {
      var _ :- Preflight(o, Some(world.files[o].versions), current);
      if world.files[o].phase == Approving {
        var _ :- ResumeApproval(o);
      } else if world.files[o].phase == Prepared {
        var _ :- ApproveOrder(o);
      }
      r := PayOrder(o);
    }

    method ResumeApproval(o: OrderId) returns (r: Result<()>)
      requires Valid() && o in world.files && Free(world, o) && world.files[o].phase == Approving
      modifies this`world, this`log
      ensures Valid() && old(log) <= log && OnlyFile(old(world), world, o) && Free(world, o)
      ensures world.sent == old(world).sent && world.journals.Keys == old(world).journals.Keys
      ensures r.Ok? ==> world.files[o].phase == Approved && InFlight(old(world), o, Approve)
      ensures calm && Journaled(old(world), o, Approve) && InFlight(old(world), o, Approve) ==> r.Ok?
    {
      var state := world.files[o];
      var _ :- Recover(o, Approve);
      r := Write(Save(o, state.(phase := Approved)));
    }

    method ResumePayment(o: OrderId) returns (r: Result<()>)
      requires Valid() && o in world.files && Free(world, o) && world.files[o].phase == Paying
      modifies this`world, this`log
      ensures Valid() && old(log) <= log && OnlyFile(old(world), world, o) && Free(world, o)
      ensures world.sent == old(world).sent && world.journals.Keys == old(world).journals.Keys
      ensures r.Ok? ==> world.files[o].phase == Paid && InFlight(old(world), o, Pay)
      ensures calm && Journaled(old(world), o, Pay) && InFlight(old(world), o, Pay) ==> r.Ok?
    {
      var state := world.files[o];
      PhaseEvidence(log, o);
      var _ :- Recover(o, Pay);
      r := Write(Save(o, WithProof(state)));
    }

    // -------------------------------------------------------------- after the payment

    /** The platform may answer anything; a calm one answers with the seller's output. */
    method Deliver(o: OrderId) returns (r: Result<Delivery>)
      requires Valid() && o in world.files && world.files[o].phase == Paid
      modifies this`world, this`log
      ensures Waited()
      ensures calm && r.Ok? ==> o in world.attested && world.attested[o] == r.value.outputHash
      ensures calm && r.Ok? ==> Bound(r.value, world.files[o])
      ensures calm ==> r.Ok?
    {
      var _ :- Await();
      var d: Delivery := *;
      if calm {
        BoughtEvidence(log, o);
        if o !in world.attested {
          Do(Attest(o, Digest("")));
        }
        var hash := world.attested[o];
        d := Delivery(o, world.files[o].intent.terms, Op(o, Pay), true, hash.of, hash);
      }
      return Ok(d);
    }

    /** The seller's delivery must be on chain for exactly the stored output. */
    method VerifyDelivery(o: OrderId) returns (r: Result<bool>)
      requires Valid() && o in world.files && PaidFor(world.files[o].phase)
      modifies this`world, this`log
      ensures Waited()
      ensures r.Ok? ==> o in world.attested && world.attested[o] == world.files[o].outputHash
      ensures r.Ok? ==> r.value == (o in world.acknowledged)
      ensures calm && Attestable(old(world), o) ==> r.Ok?
      ensures calm ==> world.landed == old(world).landed + old(world).pending && world.pending == {}
    {
      var _ :- Await();
      if calm && o !in world.attested {
        BoughtEvidence(log, o);
        Do(Attest(o, world.files[o].outputHash));
      }
      if o !in world.attested || world.attested[o] != world.files[o].outputHash {
        return Threw;
      }
      return Ok(o in world.acknowledged);
    }

    method ReceiveOutput(o: OrderId) returns (r: Result<Delivery>)
      requires Valid() && o in world.files && world.files[o].phase == Paid && world.reservation == None
      modifies this`world, this`log
      ensures Valid() && old(log) <= log && OnlyFile(old(world), world, o) && world.reservation == None
      ensures r.Ok? ==> world.files[o] == old(world).files[o].(phase := Delivered, output := r.value.output, outputHash := Digest(r.value.output))
      ensures r.Ok? ==> r.value == Delivery(o, world.files[o].intent.terms, Op(o, Pay), true, r.value.output, Digest(r.value.output))
      ensures calm ==> r.Ok? && Attestable(world, o)
    {
      var state := world.files[o];
      var d :- Deliver(o);
      var rejected := Mishap();
      if !d.fulfilled || !Bound(d, state) || rejected {
        return Threw;
      }
      BoughtEvidence(log, o);
      var _ :- Write(Save(o, state.(output := d.output, outputHash := d.outputHash, phase := Delivered)));
      return Ok(d);
    }

    method AcknowledgeDelivery(o: OrderId) returns (r: Result<()>)
      requires Valid() && o in world.files && world.files[o].phase == Acknowledging
      modifies this`world, this`log
      ensures Valid() && old(log) <= log && Called(old(world), world, Op(o, Ack))
      ensures r.Ok? ==> o in world.acknowledged
      ensures calm && Attestable(old(world), o) && !Journaled(old(world), o, Ack) ==> r.Ok?
    {
      var _ :- Effect(o, Ack);
      AcknowledgmentSeen(log, o);
      var final :- VerifyDelivery(o);
      return if final then Ok(()) else Threw;
    }

    method Acknowledge(o: OrderId) returns (r: Result<()>)
      requires Valid() && o in world.files && world.files[o].phase == Delivered && world.reservation == None
      modifies this`world, this`log
      ensures Valid() && old(log) <= log && OnlyFile(old(world), world, o) && world.reservation == None
      ensures r.Ok? ==> world.files[o].phase == Completed
      ensures calm && Attestable(old(world), o) ==> r.Ok?
    {
      var state := world.files[o];
      BoughtEvidence(log, o);
      state := state.(phase := Acknowledging);
      var _ :- Write(Save(o, state));
      var _ :- AcknowledgeDelivery(o);
      r := Write(Save(o, state.(phase := Completed)));
    }

    method ResumeAcknowledgment(o: OrderId) returns (r: Result<()>)
      requires Valid() && o in world.files && world.files[o].phase == Acknowledging && world.reservation == None
      modifies this`world, this`log
      ensures Stranded(old(world), o) ==> Stranded(world, o)
      ensures Valid() && old(log) <= log && OnlyFile(old(world), world, o) && world.reservation == None
      ensures world.sent == old(world).sent && world.journals.Keys == old(world).journals.Keys
      ensures r.Ok? ==> world.files[o].phase == Completed && InFlight(old(world), o, Ack)
      ensures calm && Attestable(old(world), o) && Journaled(old(world), o, Ack) && InFlight(old(world), o, Ack) ==> r.Ok?
    {
      var state := world.files[o];
      var _ :- Recover(o, Ack);
      AcknowledgmentSeen(log, o);
      var final :- VerifyDelivery(o);
      if !final {
        return Threw;
      }
      r := Write(Save(o, state.(phase := Completed)));
    }

    method VerifyPayment(o: OrderId, reserved: bool) returns (r: Result<()>)
      requires Valid() && o in world.files && Free(world, o) && PaidFor(world.files[o].phase)
      modifies this`world, this`log
      ensures Stranded(old(world), o) ==> Stranded(world, o)
      ensures Valid() && old(log) <= log && world.files == old(world).files && Free(world, o)
      ensures world.landed <= old(world).landed + old(world).pending && world.pending <= old(world).pending
      ensures world.sent == old(world).sent && world.journals.Keys == old(world).journals.Keys
      ensures forall p | p in old(world).attested :: p in world.attested && world.attested[p] == old(world).attested[p]
      ensures r.Ok? ==> world.reservation == None
      ensures calm ==> r.Ok? && world.attested == old(world).attested
      ensures calm ==> world.landed == old(world).landed + old(world).pending && world.pending == {}
    {
      var state := world.files[o];
      BoughtEvidence(log, o);
      if state.paymentHash == None || state.request != Some(Request(state.intent, state.paymentHash.value)) {
        return Threw;
      }
      var _ :- Receipt(o, Pay);
      if reserved || state.phase == Paid {
        var _ :- Write(ExecutorProtocol.Release(o));
      }
      return Ok(());
    }

    /** From the paid phase, or a later one, to the end. */
    method FinishOrder(o: OrderId, reserved: bool) returns (r: Result<()>)
      requires Valid() && o in world.files && Free(world, o) && PaidFor(world.files[o].phase)
      modifies this`world, this`log
      ensures Stranded(old(world), o) ==> Stranded(world, o)
      ensures Valid() && old(log) <= log && OnlyFile(old(world), world, o)
      ensures r.Ok? ==> world.files[o].phase == Completed && world.reservation == None
      ensures r.Ok? ==> Resumable(old(world), o)
      ensures calm && Resumable(old(world), o) ==> r.Ok?
    {
      var _ :- VerifyPayment(o, reserved);
      if world.files[o].phase == Paid {
        var _ :- ReceiveOutput(o);
      }
      r := CloseOrder(o);
    }

    method CloseOrder(o: OrderId) returns (r: Result<()>)
      requires Valid() && o in world.files && world.reservation == None && Settled(world.files[o].phase)
      modifies this`world, this`log
      ensures Stranded(old(world), o) ==> Stranded(world, o)
      ensures Valid() && old(log) <= log && OnlyFile(old(world), world, o) && world.reservation == None
      ensures r.Ok? ==> world.files[o].phase == Completed && Resumable(old(world), o)
      ensures calm && Resumable(old(world), o) ==> r.Ok?
    {
      var state := world.files[o];
      BoughtEvidence(log, o);
      if state.outputHash != Digest(state.output) {
        return Threw;
      }
      var acknowledged :- VerifyDelivery(o);
      if state.phase == Completed {
        r := if acknowledged then Ok(()) else Threw;
      } else if state.phase == Acknowledging {
        r := ResumeAcknowledgment(o);
      } else if acknowledged {
        r := Write(Save(o, state.(phase := Completed)));
      } else {
        r := Acknowledge(o);
      }
    }

    // -------------------------------------------------------------- the whole call

    /** Finds the stored order, or creates it after the platform and policy checks. */
    method LoadOrder(intent: Intent, abortUnpaid: bool, current: string) returns (r: Result<bool>)
      requires Valid() && Accepted(intent)
      modifies this`world, this`log
      ensures Stranded(old(world), intent.orderId) ==> Stranded(world, intent.orderId)
      ensures Valid() && old(log) <= log && OthersKept(old(world), world, intent.orderId)
      ensures r.Ok? ==> Loaded(old(world), world, intent, abortUnpaid) && r.value == (world.reservation != None)
      ensures r.Ok? && CanFinish(world, intent, abortUnpaid, current) ==> CanFinish(old(world), intent, abortUnpaid, current)
      ensures calm && CanFinish(old(world), intent, abortUnpaid, current) ==>
                r.Ok? && CanFinish(world, intent, abortUnpaid, current)
    {
      var o := intent.orderId;
      if o in world.files && world.files[o].intent != intent {
        return Threw;
      }
      if !abortUnpaid {
        var _ :- Await();
        WaitKeepsCanFinish(old(world), world, intent, abortUnpaid, current);
      }
      if !Free(world, o) {
        return Threw;
      }
      var reserved := world.reservation != None;
      if o !in world.files {
        if abortUnpaid {
          return Threw;
        }
        var _ :- CreateOrder(intent, current);
      }
      return Ok(reserved);
    }

    /** The first file of an order, once the platform and policy checks have passed. */
    method CreateOrder(intent: Intent, current: string) returns (r: Result<()>)
      requires Valid() && Accepted(intent) && intent.orderId !in world.files && Free(world, intent.orderId)
      modifies this`world, this`log
      ensures Valid() && old(log) <= log && OthersKept(old(world), world, intent.orderId)
      ensures world.reservation == old(world).reservation
      ensures r.Ok? ==> intent.orderId in world.files && world.files[intent.orderId] == OrderState(intent, current, Prepared, false, None, None, "", Digest(""))
      ensures intent.orderId in world.files ==> world.files[intent.orderId].phase == Prepared && world.files[intent.orderId].versions == current
      ensures calm ==> r.Ok?
    {
      var _ :- Preflight(intent.orderId, None, current);
      r := Write(Create(intent, current));
    }

    method RunOrder(o: OrderId, reserved: bool, abortUnpaid: bool, current: string) returns (r: Result<()>)
      requires Valid() && o in world.files && Free(world, o)
      modifies this`world, this`log
      ensures Stranded(old(world), o) ==> Stranded(world, o)
      ensures Valid() && old(log) <= log && OnlyFile(old(world), world, o)
      ensures r.Ok? ==> world.reservation == None && world.files[o].phase == EndPhase(old(world), o, abortUnpaid)
      ensures r.Ok? ==> Ready(old(world), o, abortUnpaid) && (abortUnpaid || !Outdated(old(world), o, current))
      ensures calm && Ready(old(world), o, abortUnpaid) && (abortUnpaid || !Outdated(old(world), o, current)) ==> r.Ok?
    {
      if world.files[o].phase == Aborted {
        PhaseEvidence(log, o);
        var _ :- VerifyAborted(o, world.files[o].revokeRequired);
        r := Write(ExecutorProtocol.Release(o));
      } else if abortUnpaid || world.files[o].phase == Aborting {
        r := AbortOrder(o);
      } else {
        var _ :- PayFor(o, current);
        r := FinishOrder(o, reserved);
      }
    }

    method RunLocked(intent: Intent, abortUnpaid: bool, current: string) returns (r: Result<OrderState>)
      requires Valid() && Accepted(intent)
      modifies this`world, this`log
      ensures Stranded(old(world), intent.orderId) ==> Stranded(world, intent.orderId)
      ensures Valid() && old(log) <= log && OthersKept(old(world), world, intent.orderId)
      ensures r.Ok? ==> Finished(old(world), world, intent, abortUnpaid, r.value)
      ensures r.Ok? ==> CanFinish(old(world), intent, abortUnpaid, current)
      ensures calm && CanFinish(old(world), intent, abortUnpaid, current) ==> r.Ok?
    {
      var o := intent.orderId;
      var reserved :- LoadOrder(intent, abortUnpaid, current);
      ghost var loaded := log;
      var _ :- RunOrder(o, reserved, abortUnpaid, current);
      assert log[..|loaded|] == loaded;
      IntentStays(log, |loaded|, o);
      return Ok(world.files[o]);
    }

    /** Runs one order under the directory lock, while the platform answers with the policy versions
        `current`. A thrown error unlocks; a crash leaves the lock
        for the operator. */
    method RunEconomyExecutor(intent: Intent, abortUnpaid: bool, current: string) returns (r: Result<OrderState>)
      requires Valid()
      modifies this
      ensures forall o | Stranded(old(world), o) :: Stranded(world, o)
      ensures Valid() && old(log) <= log && OthersKept(old(world), world, intent.orderId)
      ensures locked == (old(locked) || r.Crashed?)
      ensures r.Ok? ==> Finished(old(world), world, intent, abortUnpaid, r.value)
      ensures r.Ok? ==> !old(locked) && CanFinish(old(world), intent, abortUnpaid, current)
      ensures r.Ok? ==> 0 < intent.quantity && 0 < intent.unitPrice && intent.quantity * intent.unitPrice <= intent.maxAmount
      ensures calm && !old(locked) && CanFinish(old(world), intent, abortUnpaid, current) ==> r.Ok?
      ensures calm && !old(locked) && !abortUnpaid && intent.orderId !in old(world).files && old(world).reservation == None ==>
                (0 < intent.quantity && 0 < intent.unitPrice && intent.quantity * intent.unitPrice <= intent.maxAmount ==> r.Ok?)
    {
      if !Accepted(intent) || locked {
        return Threw;
      }
      locked := true;
      Do(Start);
      r := RunLocked(intent, abortUnpaid, current);
      locked := r.Crashed?;
    }

    /** The operator removes a stale lock after the process that held it has died. */
    method RemoveStaleLock()
      modifies this`locked
      ensures !locked
    {
      locked := false;
    }
  }
}
