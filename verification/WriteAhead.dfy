/** The protocol behind every journal: one intent is stored under a name before anything is
    dispatched, and what is dispatched is that intent. */
module WriteAhead {
  import opened Effects

  /** How a write beside the file and its rename over it ends: one that failed or killed the process
      may still have taken effect. */
  datatype Write = Write(end: Result<()>, renamed: bool) {
    predicate Lands() {
      end.Ok? || renamed
    }
  }

  /** What is stored under one name, and everything ever dispatched under it. */
  datatype Ledger<P> = Ledger(stored: Option<P>, sent: seq<P>)

  datatype Move<P> = Store(intent: P) | Dispatch

  /** `again` says whether the variant may dispatch its stored bytes more than once. */
  ghost predicate Allowed<P>(l: Ledger<P>, m: Move<P>, again: bool) {
    match m
    case Store(_) => l.stored == None
    case Dispatch => l.stored.Some? && (again || l.sent == [])
  }

  ghost function Apply<P>(l: Ledger<P>, m: Move<P>): Ledger<P>
    requires Allowed(l, m, true)
  {
    match m
    case Store(p) => l.(stored := Some(p))
    case Dispatch => l.(sent := l.sent + [l.stored.value])
  }

  ghost predicate Follows<P>(moves: seq<Move<P>>, again: bool)
    decreases moves, 0
  {
    moves == [] ||
    var before := moves[..|moves| - 1];
    Follows(before, again) && Allowed(LedgerAfter(before, again), moves[|moves| - 1], again)
  }

  ghost function LedgerAfter<P>(moves: seq<Move<P>>, again: bool): Ledger<P>
    requires Follows(moves, again)
    decreases moves, 1
  {
    if moves == [] then Ledger(None, [])
    else Apply(LedgerAfter(moves[..|moves| - 1], again), moves[|moves| - 1])
  }

  lemma OneMore<P>(moves: seq<Move<P>>, m: Move<P>, again: bool)
    requires Follows(moves, again) && Allowed(LedgerAfter(moves, again), m, again)
    ensures Follows(moves + [m], again) && LedgerAfter(moves + [m], again) == Apply(LedgerAfter(moves, again), m)
  {
    assert (moves + [m])[..|moves|] == moves;
  }

  /** Over any number of calls and crashes, everything dispatched is the one stored intent, and
      without permission to repeat it is dispatched at most once. */
  lemma {:induction false} OnlyTheStoredIntent<P>(moves: seq<Move<P>>, again: bool)
    requires Follows(moves, again)
    ensures var l := LedgerAfter(moves, again);
      && (forall p | p in l.sent :: l.stored == Some(p))
      && (!again ==> |l.sent| <= 1)
  {
    if moves != [] {
      OnlyTheStoredIntent(moves[..|moves| - 1], again);
    }
  }

  /** The first intent stored under a name is the one that stays. */
  lemma {:induction false} StoredIntentStays<P>(moves: seq<Move<P>>, k: nat, again: bool)
    requires Follows(moves, again) && k <= |moves| && Follows(moves[..k], again)
    requires LedgerAfter(moves[..k], again).stored.Some?
    ensures LedgerAfter(moves, again).stored == LedgerAfter(moves[..k], again).stored
    ensures LedgerAfter(moves[..k], again).sent <= LedgerAfter(moves, again).sent
    decreases |moves|
  {
    if k < |moves| {
      var last := |moves| - 1;
      assert moves[..last][..k] == moves[..k];
      StoredIntentStays(moves[..last], k, again);
    } else {
      assert moves[..k] == moves;
    }
  }
}

/** `durableOperation`: a Circle submission under one permanent operation name. */
module CircleJournal {
  import opened Effects
  import opened WriteAhead

  datatype Status = Submitting | Uncertain | Submitted | Failed
  datatype Call = Call(intent: string, key: string)
  datatype Operation = Operation(call: Call, status: Status)

  /** What happens around one call: its three writes, whether the process dies before it submits,
      whether the request reaches Circle, and the key in the reply. */
  datatype Course = Course(first: Write, dies: bool, reaches: bool, reply: Result<string>, second: Write, third: Write)

  /** The request went out. */
  ghost predicate Goes(c: Course) {
    c.first.end.Ok? && !c.dies && c.reaches
  }

  /** The reply names the call's own key. */
  ghost predicate Confirmed(c: Course, key: string) {
    Goes(c) && c.reply == Ok(key)
  }

  /** The outcome is unknown or wrong, and the process lives to note it. */
  ghost predicate Doubted(c: Course, key: string) {
    c.first.end.Ok? && !c.dies && !c.reply.Crashed? && (Confirmed(c, key) ==> c.second.end.Threw?)
  }

  class OperationFile {
    var file: Option<Operation>
    var submitted: seq<Call>
    ghost var moves: seq<Move<Call>>

    ghost predicate Valid()
      reads this
    {
      Follows(moves, false) && LedgerAfter(moves, false) == Ledger(Stored(), submitted)
    }

    ghost function Stored(): Option<Call>
      reads this
    {
      if file.Some? then Some(file.value.call) else None
    }

    constructor ()
      ensures Valid() && file == None && submitted == [] && moves == []
    {
      file, submitted, moves := None, [], [];
    }

    /** `key` is the fresh idempotency key. */
    method DurableOperation(intent: string, key: string, c: Course) returns (r: Result<Operation>)
      requires Valid()
      modifies this
      ensures Valid() && old(moves) <= moves
      ensures old(file).Some? ==> file == old(file) && submitted == old(submitted)
      ensures old(file).Some? ==>
                r == if old(file).value.call.intent == intent && old(file).value.status == Submitted then Ok(old(file).value) else Threw
      ensures old(file).None? ==> submitted == if Goes(c) then [Call(intent, key)] else []
      ensures old(file).None? ==> (file.Some? <==> c.first.Lands()) && (file.Some? ==> file.value.call == Call(intent, key))
      ensures old(file).None? && file.Some? ==>
                && (file.value.status == Uncertain <==> Doubted(c, key) && c.third.Lands())
                && (file.value.status == Submitted <==> Confirmed(c, key) && c.second.Lands() && !(Doubted(c, key) && c.third.Lands()))
                && file.value.status != Failed
      ensures old(file).None? ==> (r.Ok? <==> Confirmed(c, key) && c.second.end.Ok?) && (r.Ok? ==> Some(r.value) == file)
    {
      if file.Some? {
        if file.value.call.intent != intent || file.value.status != Submitted {
          return Threw;
        }
        return Ok(file.value);
      }
      OnlyTheStoredIntent(moves, false);
      if c.first.Lands() {
        OneMore(moves, Store(Call(intent, key)), false);
        file, moves := Some(Operation(Call(intent, key), Submitting)), moves + [Store(Call(intent, key))];
      }
      if !c.first.end.Ok? {
        return c.first.end.PropagateFailure();
      }
      if c.dies {
        return Crashed;
      }
      if c.reaches {
        OneMore(moves, Dispatch, false);
        submitted, moves := submitted + [file.value.call], moves + [Dispatch];
      }
      if c.reply.Crashed? {
        return Crashed;
      }
      if c.reaches && c.reply == Ok(key) {
        var noted := Note(Submitted, c.second);
        if noted.Ok? {
          return Ok(file.value);
        }
        if noted.Crashed? {
          return Crashed;
        }
      }
      var doubted := Note(Uncertain, c.third);
      return if doubted.Crashed? then Crashed else Threw;
    }

    method Note(status: Status, w: Write) returns (r: Result<()>)
      requires Valid() && file.Some?
      modifies this`file
      ensures Valid() && r == w.end
      ensures file == if w.Lands() then Some(old(file).value.(status := status)) else old(file)
    {
      if w.Lands() {
        file := Some(file.value.(status := status));
      }
      r := w.end;
    }
  }
}

/** `durableSignedTransaction`: the signed bytes of an externally owned account. */
module SignedJournal {
  import opened Effects
  import opened WriteAhead

  /** The transaction hash is a free constructor over the signed bytes. */
  datatype TxHash = Keccak(raw: string)
  datatype Signed = Signed(intent: string, raw: string)
  datatype Saved = Saved(signed: Signed, hash: TxHash)
  datatype Receipt = Receipt(success: bool, hash: TxHash)

  /** What happens around one call: the signature and its write, the two receipt lookups, and whether
      the broadcast between them reaches the chain. */
  datatype Course = Course(raw: Result<string>, saved: Write, found: Result<Option<Receipt>>, reaches: bool,
                           again: Result<Option<Receipt>>)

  /** The saved transaction can be looked up: an intact one of this intent, or a new one. */
  ghost predicate Usable(before: Option<Saved>, intent: string, c: Course) {
    match before
    case Some(x) => x.signed.intent == intent && x.hash.raw == x.signed.raw
    case None => c.raw.Ok? && c.saved.end.Ok?
  }

  class TransactionFile {
    var file: Option<Saved>
    var broadcast: seq<Signed>
    ghost var moves: seq<Move<Signed>>

    ghost predicate Valid()
      reads this
    {
      Follows(moves, true) && LedgerAfter(moves, true) == Ledger(Stored(), broadcast)
    }

    ghost function Stored(): Option<Signed>
      reads this
    {
      if file.Some? then Some(file.value.signed) else None
    }

    constructor ()
      ensures Valid() && file == None && broadcast == [] && moves == []
    {
      file, broadcast, moves := None, [], [];
    }

    /** The first receipt lookup may find the transaction; only otherwise the same bytes go out again. */
    method DurableSignedTransaction(intent: string, c: Course) returns (r: Result<Receipt>)
      requires Valid()
      modifies this
      ensures Valid() && old(moves) <= moves
      ensures old(file).Some? ==> file == old(file)
      ensures old(file).None? ==>
                file == if c.raw.Ok? && c.saved.Lands() then Some(Saved(Signed(intent, c.raw.value), Keccak(c.raw.value))) else None
      ensures Usable(old(file), intent, c) ==> file.Some? && file.value.signed.intent == intent
      ensures broadcast == if Usable(old(file), intent, c) && c.found == Ok(None) && c.reaches then old(broadcast) + [file.value.signed]
                           else old(broadcast)
      ensures r.Ok? <==> Usable(old(file), intent, c) && (c.found == Ok(Some(Receipt(true, file.value.hash))) ||
                                                          (c.found == Ok(None) && c.again == Ok(Some(Receipt(true, file.value.hash)))))
      ensures r.Ok? ==> r.value == Receipt(true, Keccak(file.value.signed.raw))
    {
      hide Follows, LedgerAfter;
      var _ :- LoadOrSign(intent, c);
      var receipt :- LookUp(c);
      if !receipt.Some? || !receipt.value.success || receipt.value.hash != file.value.hash {
        return Threw;
      }
      return Ok(receipt.value);
    }

    /** The saved transaction if it is this one and intact; a new one is saved before anything else. */
    method LoadOrSign(intent: string, c: Course) returns (r: Result<()>)
      requires Valid()
      modifies this`file, this`moves
      ensures Valid() && old(moves) <= moves
      ensures old(file).Some? ==> file == old(file)
      ensures old(file).None? ==>
                file == if c.raw.Ok? && c.saved.Lands() then Some(Saved(Signed(intent, c.raw.value), Keccak(c.raw.value))) else None
      ensures r.Ok? <==> Usable(old(file), intent, c)
      ensures r.Ok? ==> file.Some? && file.value.signed.intent == intent && file.value.hash == Keccak(file.value.signed.raw)
    {
      if file.Some? {
        return if file.value.signed.intent != intent || Keccak(file.value.signed.raw) != file.value.hash then Threw else Ok(());
      }
      if !c.raw.Ok? {
        return c.raw.PropagateFailure();
      }
      if c.saved.Lands() {
        OneMore(moves, Store(Signed(intent, c.raw.value)), true);
        file := Some(Saved(Signed(intent, c.raw.value), Keccak(c.raw.value)));
        moves := moves + [Store(Signed(intent, c.raw.value))];
      }
      r := c.saved.end;
    }

    /** Looks the receipt up; if there is none, broadcasts the stored bytes and looks once more. */
    method LookUp(c: Course) returns (r: Result<Option<Receipt>>)
      requires Valid() && file.Some?
      modifies this`broadcast, this`moves
      ensures Valid() && old(moves) <= moves
      ensures broadcast == if c.found == Ok(None) && c.reaches then old(broadcast) + [file.value.signed] else old(broadcast)
      ensures r == if c.found == Ok(None) then c.again else c.found
    {
      if c.found != Ok(None) {
        return c.found;
      }
      if c.reaches {
        OneMore(moves, Dispatch, true);
        broadcast, moves := broadcast + [file.value.signed], moves + [Dispatch];
      }
      r := c.again;
    }
  }
}

/** `executeDurableHcsOperation`: a signed Hedera consensus transaction. */
module HcsJournal {
  import opened Effects
  import opened WriteAhead

  datatype Intent = Intent(fingerprint: string, transactionId: string, signedBytes: string)

  /** The first write goes straight into the final file: a failure can leave it torn. */
  datatype File = Absent | Torn | Journal(intent: Intent, result: Option<string>)

  /** What the first write leaves of the file when it does not succeed. */
  datatype Left = Nothing | Part | Whole

  /** What happens around one call: the signature, the first write, whether the dispatch reaches the
      network and what it comes to, what a recovery finds, and the write of the result. */
  datatype Course = Course(signed: Result<(string, string)>, first: Result<()>, left: Left, reaches: bool, answer: Result<string>,
                           recovered: Result<string>, noted: Write)

  class JournalFile {
    var file: File
    var dispatched: seq<Intent>
    ghost var moves: seq<Move<Intent>>

    ghost predicate Valid()
      reads this
    {
      Follows(moves, false) && LedgerAfter(moves, false) == Ledger(Stored(), dispatched)
    }

    ghost function Stored(): Option<Intent>
      reads this
    {
      if file.Journal? then Some(file.intent) else None
    }

    constructor ()
      ensures Valid() && file == Absent && dispatched == [] && moves == []
    {
      file, dispatched, moves := Absent, [], [];
    }

    method ExecuteDurableHcsOperation(fingerprint: string, c: Course) returns (r: Result<string>)
      requires Valid()
      modifies this
      ensures Valid() && old(moves) <= moves
      ensures old(file) == Torn ==> file == Torn && dispatched == old(dispatched) && !r.Ok?
      // A journal is only recovered, and only for the terms it was written for.
      ensures old(file).Journal? && old(file).intent.fingerprint != fingerprint ==> file == old(file) && dispatched == old(dispatched) && !r.Ok?
      ensures old(file).Journal? && old(file).intent.fingerprint == fingerprint ==>
                && dispatched == old(dispatched)
                && file == (if c.recovered.Ok? && c.noted.Lands() then Journal(old(file).intent, Some(c.recovered.value)) else old(file))
                && (r.Ok? <==> c.recovered.Ok? && c.noted.end.Ok?) && (r.Ok? ==> r == c.recovered)
      // Without one the operation is signed, stored, and then dispatched once.
      ensures old(file) == Absent ==>
                && (file == Absent <==> !c.signed.Ok? || (!c.first.Ok? && c.left == Nothing))
                && (file == Torn <==> c.signed.Ok? && !c.first.Ok? && c.left == Part)
                && (file.Journal? ==> file.intent == Intent(fingerprint, c.signed.value.0, c.signed.value.1))
                && (file.Journal? ==> file.result == if c.first.Ok? && c.answer.Ok? && c.noted.Lands() then Some(c.answer.value) else None)
                && dispatched == (if c.signed.Ok? && c.first.Ok? && (c.reaches || c.answer.Ok?) then [file.intent] else [])
                && (r.Ok? <==> c.signed.Ok? && c.first.Ok? && c.answer.Ok? && c.noted.end.Ok?) && (r.Ok? ==> r == c.answer)
    {
      if file == Torn {
        return Threw;
      }
      if file.Journal? {
        if file.intent.fingerprint != fingerprint {
          return Threw;
        }
        r := Note(c.recovered, c.noted);
        return;
      }
      OnlyTheStoredIntent(moves, false);
      if !c.signed.Ok? {
        return c.signed.PropagateFailure();
      }
      var intent := Intent(fingerprint, c.signed.value.0, c.signed.value.1);
      if !c.first.Ok? && c.left == Part {
        file := Torn;
      } else if c.first.Ok? || c.left == Whole {
        OneMore(moves, Store(intent), false);
        file, moves := Journal(intent, None), moves + [Store(intent)];
      }
      if !c.first.Ok? {
        return c.first.PropagateFailure();
      }
      if c.answer.Ok? || c.reaches {
        OneMore(moves, Dispatch, false);
        dispatched, moves := dispatched + [intent], moves + [Dispatch];
      }
      r := Note(c.answer, c.noted);
    }

    /** A result is an answer once it is stored. */
    method Note(result: Result<string>, w: Write) returns (r: Result<string>)
      requires Valid() && file.Journal?
      modifies this`file
      ensures Valid()
      ensures file == if result.Ok? && w.Lands() then Journal(old(file).intent, Some(result.value)) else old(file)
      ensures r == if result.Ok? && !w.end.Ok? then w.end.PropagateFailure() else result
    {
      if !result.Ok? {
        return result;
      }
      if w.Lands() {
        file := Journal(file.intent, Some(result.value));
      }
      return if w.end.Ok? then result else w.end.PropagateFailure();
    }
  }
}

/** `purchaseHtsRepositories` and its `recover`: one signature and one paid dispatch per identity. */
module TokenPurchaseJournal {
  import opened Effects
  import opened WriteAhead

  datatype Status = Reserved | Signed | Received | Settled
  datatype Outcome = Outcome(transactionId: string, evidence: string)
  datatype Intent = Intent(fingerprint: string, status: Status, transactionId: Option<string>,
                           received: Option<Outcome>, result: Option<Outcome>)

  /** The first write goes straight into the final file: a failure can leave it torn. */
  datatype File = Absent | Torn | Journal(intent: Intent)

  /** What the first write leaves of the file when it does not succeed. */
  datatype Left = Nothing | Part | Whole

  /** What happens around one call: the checks of quote and token, the first write, the signature and
      its write, the mandate's second check, the paid request and its answer, the write of the answer,
      the proof of the transfer, a recovery's body, and the last write. */
  datatype Course = Course(checks: Result<()>, first: Result<()>, left: Left, signed: Result<string>, kept: Write,
                           stillActive: Result<()>, reaches: bool, answer: Result<Outcome>, noted: Write,
                           proof: Result<()>, body: Result<Outcome>, settled: Write)

  /** The paid request went out under a stored signature. */
  ghost predicate Pays(c: Course) {
    c.signed.Ok? && c.kept.end.Ok? && c.stillActive.Ok? && (c.reaches || c.answer.Ok?)
  }

  /** It was answered for the signed transaction. */
  ghost predicate Answered(c: Course) {
    Pays(c) && c.answer.Ok? && c.answer.value.transactionId == c.signed.value
  }

  /** The answer was stored and the chain confirms the transfer. */
  ghost predicate Proven(c: Course) {
    Answered(c) && c.noted.end.Ok? && c.proof.Ok?
  }

  /** What a recovery may settle with: the stored answer, or the seller's receipt for the transaction. */
  ghost predicate Recovers(i: Intent, c: Course) {
    i.transactionId.Some? && i.result.None? && c.proof.Ok? &&
    (i.received.Some? || (c.body.Ok? && c.body.value.transactionId == i.transactionId.value))
  }

  ghost function RecoveredOutcome(i: Intent, c: Course): Outcome
    requires Recovers(i, c)
  {
    if i.received.Some? then i.received.value else c.body.value
  }

  class PurchaseFile {
    var file: File
    var paid: seq<(string, string)>
    ghost var moves: seq<Move<string>>

    /** The journal holds the intent before the signature, the signature before the paid request,
        and only results about that one transaction. */
    ghost predicate Valid()
      reads this
    {
      && Follows(moves, false) && LedgerAfter(moves, false) == Ledger(Stored(), Purchases(paid))
      && (file.Journal? ==>
            var i := file.intent;
            && (i.status != Reserved ==> i.transactionId.Some?)
            && (i.status == Reserved ==> i.transactionId == None && paid == [])
            && (forall p | p in paid :: i.transactionId == Some(p.1))
            && (i.received.Some? ==> i.transactionId == Some(i.received.value.transactionId))
            && (i.result.Some? ==> i.transactionId == Some(i.result.value.transactionId) && i.status == Settled))
    }

    ghost function Stored(): Option<string>
      reads this
    {
      if file.Journal? then Some(file.intent.fingerprint) else None
    }

    constructor ()
      ensures Valid() && file == Absent && paid == [] && moves == []
    {
      file, paid, moves := Absent, [], [];
    }

    /** `recover`: proof and receipt are only read; nothing is signed or paid. */
    method Recover(c: Course) returns (r: Result<Outcome>)
      requires Valid() && file.Journal?
      modifies this`file
      ensures Valid() && file.Journal? && Kept(old(file.intent), file.intent)
      ensures file.intent == if Recovers(old(file.intent), c) && c.settled.Lands()
                             then var o := Some(RecoveredOutcome(old(file.intent), c)); old(file.intent).(status := Settled, received := o, result := o)
                             else old(file.intent)
      ensures r.Ok? <==> old(file.intent).result.Some? || (Recovers(old(file.intent), c) && c.settled.end.Ok?)
      ensures r.Ok? ==> file.intent.result == Some(r.value) && file.intent.transactionId == Some(r.value.transactionId)
    {
      var intent := file.intent;
      if intent.transactionId == None {
        return Threw;
      }
      if intent.result.Some? {
        return Ok(intent.result.value);
      }
      if !c.proof.Ok? {
        return c.proof.PropagateFailure();
      }
      var response := intent.received;
      if response == None {
        if !c.body.Ok? {
          return c.body.PropagateFailure();
        }
        if c.body.value.transactionId != intent.transactionId.value {
          return Threw;
        }
        response := Some(c.body.value);
      }
      Save(intent.(status := Settled, received := response, result := response), c.settled);
      return if c.settled.end.Ok? then Ok(response.value) else c.settled.end.PropagateFailure();
    }

    method Save(intent: Intent, w: Write)
      modifies this`file
      ensures file == if w.Lands() then Journal(intent) else old(file)
    {
      if w.Lands() {
        file := Journal(intent);
      }
    }

    method PurchaseHtsRepositories(fingerprint: string, c: Course) returns (r: Result<Outcome>)
      requires Valid()
      modifies this
      ensures Valid() && old(moves) <= moves
      ensures old(file) == Torn ==> file == Torn && paid == old(paid) && !r.Ok?
      // An existing intent is only recovered, and only for its own terms.
      ensures old(file).Journal? ==> file.Journal? && Kept(old(file).intent, file.intent) && paid == old(paid)
      ensures old(file).Journal? && old(file).intent.fingerprint != fingerprint ==> !r.Ok? && file == old(file)
      ensures old(file).Journal? && old(file).intent.fingerprint == fingerprint ==>
                (r.Ok? <==> old(file).intent.result.Some? || (Recovers(old(file).intent, c) && c.settled.end.Ok?))
      ensures r.Ok? ==> file.Journal? && file.intent.fingerprint == fingerprint && file.intent.result == Some(r.value)
      // A new one is stored, signed, stored again, and only then paid.
      ensures old(file) == Absent ==>
                && (file == Absent <==> !c.checks.Ok? || (!c.first.Ok? && c.left == Nothing))
                && (file == Torn <==> c.checks.Ok? && !c.first.Ok? && c.left == Part)
                && (file.Journal? && !c.first.Ok? ==> file.intent == Intent(fingerprint, Reserved, None, None, None))
                && (c.checks.Ok? && c.first.Ok? ==> file.Journal? && file.intent.fingerprint == fingerprint && Signs(c, file.intent))
                && paid == (if c.checks.Ok? && c.first.Ok? && Pays(c) then [(fingerprint, c.signed.value)] else [])
                && (r.Ok? <==> c.checks.Ok? && c.first.Ok? && Proven(c) && c.settled.end.Ok?)
    {
      if file == Torn {
        return Threw;
      }
      if file.Journal? {
        if file.intent.fingerprint != fingerprint {
          return Threw;
        }
        r := Recover(c);
        return;
      }
      OnlyTheStoredIntent(moves, false);
      if !c.checks.Ok? {
        return c.checks.PropagateFailure();
      }
      if !c.first.Ok? && c.left == Part {
        file := Torn;
      } else if c.first.Ok? || c.left == Whole {
        OneMore(moves, Store(fingerprint), false);
        file, moves := Journal(Intent(fingerprint, Reserved, None, None, None)), moves + [Store(fingerprint)];
      }
      if !c.first.Ok? {
        return c.first.PropagateFailure();
      }
      r := SignAndPay(c);
    }

    method SignAndPay(c: Course) returns (r: Result<Outcome>)
      requires Valid() && file.Journal? && file.intent == Intent(file.intent.fingerprint, Reserved, None, None, None)
      modifies this
      ensures Valid() && old(moves) <= moves && file.Journal? && file.intent.fingerprint == old(file.intent).fingerprint
      ensures Signs(c, file.intent)
      ensures paid == if Pays(c) then [(file.intent.fingerprint, c.signed.value)] else []
      ensures r.Ok? <==> Proven(c) && c.settled.end.Ok?
      ensures r.Ok? ==> file.intent.result == Some(r.value)
    {
      var intent := file.intent;
      if !c.signed.Ok? {
        return c.signed.PropagateFailure();
      }
      intent := intent.(transactionId := Some(c.signed.value), status := Signed);
      Save(intent, c.kept);
      if !c.kept.end.Ok? {
        return c.kept.end.PropagateFailure();
      }
      if !c.stillActive.Ok? {
        return c.stillActive.PropagateFailure();
      }
      if c.answer.Ok? || c.reaches {
        OneMore(moves, Dispatch, false);
        paid, moves := paid + [(intent.fingerprint, c.signed.value)], moves + [Dispatch];
      }
      if !c.answer.Ok? {
        return c.answer.PropagateFailure();
      }
      if c.answer.value.transactionId != c.signed.value {
        return Threw;
      }
      intent := intent.(status := Received, received := Some(c.answer.value));
      Save(intent, c.noted);
      if !c.noted.end.Ok? {
        return c.noted.end.PropagateFailure();
      }
      if !c.proof.Ok? {
        return c.proof.PropagateFailure();
      }
      Save(intent.(status := Settled, result := Some(c.answer.value)), c.settled);
      return if c.settled.end.Ok? then c.answer else c.settled.end.PropagateFailure();
    }
  }

  /** How far a new intent got: each fact is on disk exactly when its write was. */
  ghost predicate Signs(c: Course, i: Intent) {
    && i.transactionId == (if c.signed.Ok? && c.kept.Lands() then Some(c.signed.value) else None)
    && i.received == (if Answered(c) && c.noted.Lands() then Some(c.answer.value) else None)
    && i.result == (if Proven(c) && c.settled.Lands() then Some(c.answer.value) else None)
    && i.status == (if i.result.Some? then Settled else if i.received.Some? then Received else if i.transactionId.Some? then Signed else Reserved)
  }

  ghost function Purchases(paid: seq<(string, string)>): seq<string> {
    if paid == [] then [] else Purchases(paid[..|paid| - 1]) + [paid[|paid| - 1].0]
  }

  /** A journal only gains facts: its identity, transaction and result are permanent. */
  ghost predicate Kept(before: Intent, after: Intent) {
    && after.fingerprint == before.fingerprint
    && (before.transactionId.Some? ==> after.transactionId == before.transactionId)
    && (before.received.Some? ==> after.received == before.received)
    && (before.result.Some? ==> after.result == before.result)
  }
}
