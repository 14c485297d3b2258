/** `DurablePayments`: the broker's payment journal with lifetime budgets, one process, one queue. */
module BrokerPayments {
  import opened Effects

  datatype Receipt = Receipt(transactionId: string, network: string)
  datatype Outcome = Outcome(receipt: Option<Receipt>, body: string)
  datatype Entry = Entry(requestId: string, runId: string, kind: string, digest: string, amount: nat,
                         result: Option<Outcome>)

  predicate Settled(e: Entry) {
    e.result.Some?
  }

  function Used(entries: seq<Entry>, kind: string): (n: nat) {
    if entries == [] then 0
    else Used(entries[..|entries| - 1], kind) +
         (if entries[|entries| - 1].kind == kind then entries[|entries| - 1].amount else 0)
  }

  /** The index of the entry with this request id, or the length if there is none. */
  function Position(entries: seq<Entry>, requestId: string): (i: nat)
    ensures i <= |entries|
    ensures i < |entries| ==> entries[i].requestId == requestId
    ensures forall j | 0 <= j < i :: entries[j].requestId != requestId
  {
    if entries == [] then 0
    else if entries[0].requestId == requestId then 0
    else 1 + Position(entries[1..], requestId)
  }

  predicate SameTransfer(a: Entry, r: Receipt) {
    a.result.Some? && a.result.value.receipt.Some? &&
    a.result.value.receipt.value.transactionId == r.transactionId && a.result.value.receipt.value.network == r.network
  }

  /** A receipt that names a transaction another entry already settled with. */
  predicate Reused(entries: seq<Entry>, o: Outcome) {
    o.receipt.Some? && o.receipt.value.transactionId != "" &&
    exists i | 0 <= i < |entries| :: SameTransfer(entries[i], o.receipt.value)
  }

  /** An entry settled with a named transaction. */
  ghost predicate Paid(e: Entry) {
    e.result.Some? && e.result.value.receipt.Some? && e.result.value.receipt.value.transactionId != ""
  }

  /** The outcome's transaction id was settled before, on the same network. */
  ghost predicate Repeated(entries: seq<Entry>, o: Outcome) {
    o.receipt.Some? &&
    exists e :: e in entries && Paid(e)
                && e.result.value.receipt.value.transactionId == o.receipt.value.transactionId
                && e.result.value.receipt.value.network == o.receipt.value.network
  }

  lemma ReusedIsRepeated(entries: seq<Entry>, o: Outcome)
    ensures Reused(entries, o) <==> Repeated(entries, o)
  {
    if Reused(entries, o) {
      var i :| 0 <= i < |entries| && SameTransfer(entries[i], o.receipt.value);
      assert entries[i] in entries && Paid(entries[i]);
    }
    if Repeated(entries, o) {
      var i :| 0 <= i < |entries| && Paid(entries[i]) && entries[i].result.value.receipt.value.transactionId == o.receipt.value.transactionId
               && entries[i].result.value.receipt.value.network == o.receipt.value.network;
      assert SameTransfer(entries[i], o.receipt.value);
    }
  }

  ghost predicate Unknown(entries: seq<Entry>, requestId: string) {
    forall e | e in entries :: e.requestId != requestId
  }

  /** An amount of money the language can count. */
  ghost predicate Sane(n: int) {
    0 <= n <= 9007199254740991
  }

  /** The mandate runs, the run has not paid for this stage yet, and the kind has the money left. */
  ghost predicate Payable(entries: seq<Entry>, runId: string, kind: string, amount: int, limit: int, active: bool) {
    && active && Sane(amount) && Sane(limit) && Used(entries, kind) + amount <= limit
    && forall e | e in entries :: !(e.runId == runId && e.kind == kind)
  }

  ghost predicate Distinct(entries: seq<Entry>) {
    && (forall i, j | 0 <= i < j < |entries| :: entries[i].requestId != entries[j].requestId)
    && (forall i, j | 0 <= i < j < |entries| ::
          entries[i].runId != entries[j].runId || entries[i].kind != entries[j].kind)
  }

  /** No two settled entries were paid by one chain transaction. */
  ghost predicate DistinctTransfers(entries: seq<Entry>) {
    forall i, j | 0 <= i < j < |entries| && Paid(entries[i]) && Paid(entries[j]) ::
      || entries[i].result.value.receipt.value.transactionId != entries[j].result.value.receipt.value.transactionId
      || entries[i].result.value.receipt.value.network != entries[j].result.value.receipt.value.network
  }

  lemma PositionUnknown(entries: seq<Entry>, requestId: string)
    ensures Position(entries, requestId) == |entries| <==> Unknown(entries, requestId)
  {
    var p := Position(entries, requestId);
    if p < |entries| {
      assert entries[p] in entries;
    }
  }

  /** Entries are only appended, and a pending one may settle; nothing else ever changes. */
  ghost predicate Grown(before: seq<Entry>, after: seq<Entry>) {
    |before| <= |after| &&
    forall i | 0 <= i < |before| ::
      after[i] == before[i] || (!Settled(before[i]) && after[i] == before[i].(result := after[i].result))
  }

  lemma SameGrown(entries: seq<Entry>)
    ensures Grown(entries, entries)
  {
  }

  ghost predicate Within(entries: seq<Entry>, caps: string -> int) {
    forall kind :: Used(entries, kind) == 0 || Used(entries, kind) <= caps(kind)
  }

  lemma UsedAppend(entries: seq<Entry>, e: Entry, kind: string)
    ensures Used(entries + [e], kind) == Used(entries, kind) + (if e.kind == kind then e.amount else 0)
  {
    assert (entries + [e])[..|entries|] == entries;
  }

  lemma AppendBudget(entries: seq<Entry>, e: Entry, limit: int, caps: string -> int)
    requires Used(entries, e.kind) + e.amount <= limit
    ensures Used(entries + [e], e.kind) <= limit
    ensures limit == caps(e.kind) && Within(entries, caps) ==> Within(entries + [e], caps)
  {
    forall kind { UsedAppend(entries, e, kind); }
  }

  /** Settling the last entry changes no budget. */
  lemma SettleBudget(entries: seq<Entry>, o: Outcome, caps: string -> int)
    requires entries != []
    ensures forall kind :: Used(SettleLast(entries, o), kind) == Used(entries, kind)
    ensures Within(entries, caps) ==> Within(SettleLast(entries, o), caps)
  {
    var last := |entries| - 1;
    assert SettleLast(entries, o)[..last] == entries[..last];
  }

  /** What the file and the history of started operations always satisfy together. */
  ghost predicate Consistent(entries: seq<Entry>, invoked: seq<string>) {
    && Distinct(entries) && DistinctTransfers(entries) && Tracked(entries, invoked)
    && (forall i, j | 0 <= i < j < |invoked| :: invoked[i] != invoked[j])
    && (forall i | 0 <= i < |entries| && Settled(entries[i]) :: entries[i].requestId in invoked)
  }

  /** Every started operation has its entry. */
  ghost predicate Tracked(entries: seq<Entry>, invoked: seq<string>) {
    forall i | 0 <= i < |invoked| :: Position(entries, invoked[i]) < |entries|
  }

  function SettleLast(entries: seq<Entry>, o: Outcome): seq<Entry>
    requires entries != []
  {
    entries[|entries| - 1 := entries[|entries| - 1].(result := Some(o))]
  }

  class DurablePayments {
    var entries: seq<Entry>
    /** The request ids whose operation was started, in order. */
    ghost var invoked: seq<string>
    /** The lifetime limits the deployment is configured with. */
    ghost const caps: string -> int

    ghost predicate Valid()
      reads this
    {
      Consistent(entries, invoked)
    }

    constructor (ghost caps: string -> int)
      ensures Valid() && Within(entries, caps) && entries == [] && invoked == [] && this.caps == caps
    {
      entries, invoked := [], [];
      this.caps := caps;
    }

    /** One payment under a permanent request id. As long as every call passes the configured
        limit of its kind, what a kind reserves, pending payments included, stays within it.
        `active` and `stillActive` say whether the mandate runs when the call begins and when the
        money is reserved, `outcome` is what the operation does if it is started; a `reliable` disk
        fails no read and no write. */
    method Execute(requestId: string, runId: string, kind: string, digest: string, amount: int, limit: int,
                   active: bool, stillActive: bool, outcome: Result<Outcome>, reliable: bool) returns (r: Result<Outcome>)
      requires Valid()
      modifies this
      ensures Valid() && Grown(old(entries), entries)
      ensures limit == caps(kind) && Within(old(entries), caps) ==> Within(entries, caps)
      ensures Used(entries, kind) == Used(old(entries), kind) || Used(entries, kind) <= limit
      ensures invoked == old(invoked) || (invoked == old(invoked) + [requestId] && requestId !in old(invoked))
      ensures r.Ok? ==> active && Sane(amount) && Sane(limit)
      // A known request id only ever gets the stored result, and only on the same terms.
      ensures forall e | e in old(entries) && e.requestId == requestId ::
                && entries == old(entries) && invoked == old(invoked)
                && (r.Ok? ==> e == Entry(requestId, runId, kind, digest, e.amount, Some(r.value)))
      ensures forall e | e in old(entries) && Settled(e) && e == Entry(requestId, runId, kind, digest, e.amount, e.result) ::
                reliable && active && Sane(amount) && Sane(limit) ==> r == Ok(e.result.value)
      // A new one is paid for once, if its stage is free and its kind has the money.
      ensures Unknown(old(entries), requestId) && !Payable(old(entries), runId, kind, amount, limit, active) ==>
                entries == old(entries) && invoked == old(invoked) && !r.Ok?
      ensures Unknown(old(entries), requestId) && r.Ok? ==>
                && stillActive && r == outcome && invoked == old(invoked) + [requestId]
                && entries == old(entries) + [Entry(requestId, runId, kind, digest, amount, Some(r.value))]
      ensures Unknown(old(entries), requestId) && outcome.Ok? && Repeated(old(entries), outcome.value) ==>
                !r.Ok? && forall e | e in entries && e !in old(entries) :: !Settled(e)
      ensures Unknown(old(entries), requestId) && Payable(old(entries), runId, kind, amount, limit, active) ==>
                (reliable && stillActive && outcome.Ok? && !Repeated(old(entries), outcome.value) ==> r == outcome)
    {
      PositionUnknown(entries, requestId);
      if !active {
        return Threw;
      }
      if amount < 0 || MAX_SAFE_INTEGER < amount || limit < 0 || MAX_SAFE_INTEGER < limit {
        return Threw;
      }
      var read: Result<()> := *;
      if !read.Ok? && !reliable {
        return read.PropagateFailure();
      }
      var p := Position(entries, requestId);
      if p < |entries| {
        var previous := entries[p];
        assert forall e | e in entries && e.requestId == requestId :: e == previous;
        if previous.digest != digest || previous.runId != runId || previous.kind != kind || !Settled(previous) {
          return Threw;
        }
        return Ok(previous.result.value);
      }
      r := Pay(Entry(requestId, runId, kind, digest, amount, None), limit, stillActive, outcome, reliable);
    }

    /** A new request: refused before anything is written, or reserved and paid. */
    method Pay(entry: Entry, limit: int, stillActive: bool, outcome: Result<Outcome>, reliable: bool) returns (r: Result<Outcome>)
      requires Valid() && !Settled(entry) && Unknown(entries, entry.requestId) && Sane(entry.amount) && Sane(limit)
      modifies this
      ensures Valid() && Grown(old(entries), entries)
      ensures limit == caps(entry.kind) && Within(old(entries), caps) ==> Within(entries, caps)
      ensures Used(entries, entry.kind) == Used(old(entries), entry.kind) || Used(entries, entry.kind) <= limit
      ensures invoked == old(invoked) || (invoked == old(invoked) + [entry.requestId] && entry.requestId !in old(invoked))
      ensures !Payable(old(entries), entry.runId, entry.kind, entry.amount, limit, true) ==>
                entries == old(entries) && invoked == old(invoked) && !r.Ok?
      ensures r.Ok? ==> stillActive && r == outcome && invoked == old(invoked) + [entry.requestId]
      ensures r.Ok? ==> entries == old(entries) + [entry.(result := Some(r.value))]
      ensures outcome.Ok? && Repeated(old(entries), outcome.value) ==> !r.Ok? && entries <= old(entries) + [entry]
      ensures Payable(old(entries), entry.runId, entry.kind, entry.amount, limit, true) ==>
                (reliable && stillActive && outcome.Ok? && !Repeated(old(entries), outcome.value) ==> r == outcome)
    {
      hide Grown, Repeated;
      PositionUnknown(entries, entry.requestId);
      SameGrown(entries);
      if exists i | 0 <= i < |entries| :: entries[i].runId == entry.runId && entries[i].kind == entry.kind {
        return Threw;
      }
      if limit < Used(entries, entry.kind) + entry.amount {
        return Threw;
      }
      r := Reserve(entry, limit, stillActive, outcome, reliable);
    }

    /** Written beside the file, synced and renamed over it: a failure or a crash may come before
        the rename or after it. */
    method Save(next: seq<Entry>, reliable: bool) returns (r: Result<()>)
      modifies this`entries
      ensures entries == next || (entries == old(entries) && !r.Ok?)
      ensures reliable ==> r.Ok?
    {
      r := *;
      if reliable {
        r := Ok(());
      }
      var renamed: bool := *;
      if r.Ok? || renamed {
        entries := next;
      }
    }

    /** The pending entry reserves the money before the operation starts, and for ever if its
        outcome stays unknown. */
    method Reserve(entry: Entry, limit: int, stillActive: bool, outcome: Result<Outcome>, reliable: bool) returns (r: Result<Outcome>)
      requires Valid() && !Settled(entry) && Position(entries, entry.requestId) == |entries|
      requires forall i | 0 <= i < |entries| :: entries[i].runId != entry.runId || entries[i].kind != entry.kind
      requires Used(entries, entry.kind) + entry.amount <= limit
      modifies this
      ensures Valid() && Grown(old(entries), entries)
      ensures limit == caps(entry.kind) && Within(old(entries), caps) ==> Within(entries, caps)
      ensures Used(entries, entry.kind) == Used(old(entries), entry.kind) || Used(entries, entry.kind) <= limit
      ensures invoked == old(invoked) || (invoked == old(invoked) + [entry.requestId] && entry.requestId !in old(invoked))
      ensures r.Ok? ==> stillActive && r == outcome && invoked == old(invoked) + [entry.requestId]
      ensures r.Ok? ==> entries == old(entries) + [entry.(result := Some(r.value))]
      ensures outcome.Ok? && Repeated(old(entries), outcome.value) ==> !r.Ok? && entries <= old(entries) + [entry]
      ensures reliable && stillActive && outcome.Ok? && !Repeated(old(entries), outcome.value) ==> r == outcome
    {
      hide Position, Consistent, Within;
      AppendKeeps(entries, entry, invoked);
      AppendBudget(entries, entry, limit, caps);
      var saved := Save(entries + [entry], reliable);
      if !saved.Ok? {
        return saved.PropagateFailure();
      }
      r := Perform(entry, stillActive, outcome, reliable);
    }

    /** The operation runs once, for the pending last entry; its result settles the entry unless it
        names a transaction another entry was settled with. */
    method Perform(entry: Entry, stillActive: bool, outcome: Result<Outcome>, reliable: bool) returns (r: Result<Outcome>)
      requires Valid() && entries != [] && entries[|entries| - 1] == entry && !Settled(entry)
      requires entry.requestId !in invoked && Position(entries, entry.requestId) == |entries| - 1
      modifies this
      ensures Valid()
      ensures Within(old(entries), caps) ==> Within(entries, caps)
      ensures Used(entries, entry.kind) == Used(old(entries), entry.kind)
      ensures entries == old(entries) ||
              (outcome.Ok? && !Repeated(old(entries), outcome.value) && entries == SettleLast(old(entries), outcome.value) && invoked == old(invoked) + [entry.requestId])
      ensures invoked == old(invoked) || invoked == old(invoked) + [entry.requestId]
      ensures r.Ok? ==> stillActive && r == outcome && entries == SettleLast(old(entries), r.value) && invoked == old(invoked) + [entry.requestId]
      ensures reliable && stillActive && outcome.Ok? && !Repeated(old(entries), outcome.value) ==> r == outcome
    {
      if !stillActive {
        return Threw;
      }
      InvokeKeeps(entries, entry.requestId, invoked);
      invoked := invoked + [entry.requestId];
      if !outcome.Ok? {
        return outcome;
      }
      ReusedIsRepeated(entries, outcome.value);
      if Reused(entries, outcome.value) {
        return Threw;
      }
      SettleKeeps(entries, outcome.value, invoked);
      SettleBudget(entries, outcome.value, caps);
      var saved := Save(SettleLast(entries, outcome.value), reliable);
      return if saved.Ok? then outcome else saved.PropagateFailure();
    }

    /** The settled result of a run's stage, if there is one. */
    method ResultOf(runId: string, kind: string) returns (r: Option<Outcome>)
      requires Valid()
      ensures r.Some? <==> exists i | 0 <= i < |entries| ::
                entries[i].runId == runId && entries[i].kind == kind && Settled(entries[i])
      ensures forall i | 0 <= i < |entries| && entries[i].runId == runId && entries[i].kind == kind :: r == entries[i].result
    {
      for i := 0 to |entries|
        invariant forall j | 0 <= j < i ::
                    !(entries[j].runId == runId && entries[j].kind == kind && Settled(entries[j]))
      {
        if entries[i].runId == runId && entries[i].kind == kind && Settled(entries[i]) {
          return entries[i].result;
        }
      }
      return None;
    }
  }

  lemma PositionAppend(entries: seq<Entry>, e: Entry, requestId: string)
    ensures Position(entries + [e], requestId) ==
            if Position(entries, requestId) < |entries| then Position(entries, requestId)
            else if e.requestId == requestId then |entries| else |entries| + 1
  {
    var p, q := Position(entries, requestId), Position(entries + [e], requestId);
    assert (entries + [e])[|entries|] == e;
    if p < |entries| {
      assert (entries + [e])[p].requestId == requestId;
    }
    if q < |entries| {
      assert entries[q].requestId == requestId;
    }
  }

  lemma AppendKeeps(entries: seq<Entry>, e: Entry, invoked: seq<string>)
    requires Consistent(entries, invoked) && !Settled(e) && Position(entries, e.requestId) == |entries|
    requires forall i | 0 <= i < |entries| :: entries[i].runId != e.runId || entries[i].kind != e.kind
    ensures Consistent(entries + [e], invoked) && e.requestId !in invoked
    ensures Position(entries + [e], e.requestId) == |entries|
  {
    hide Position, DistinctTransfers;
    forall requestId { PositionAppend(entries, e, requestId); }
    TransfersAppend(entries, e);
  }

  lemma TransfersAppend(entries: seq<Entry>, e: Entry)
    requires DistinctTransfers(entries) && !Settled(e)
    ensures DistinctTransfers(entries + [e])
  {
    var es := entries + [e];
    assert !Paid(es[|entries|]) && forall i | 0 <= i < |entries| :: es[i] == entries[i];
  }

  lemma InvokeKeeps(entries: seq<Entry>, requestId: string, invoked: seq<string>)
    requires Consistent(entries, invoked) && requestId !in invoked && Position(entries, requestId) < |entries|
    ensures Consistent(entries, invoked + [requestId])
  {
  }

  lemma PositionSettle(entries: seq<Entry>, o: Outcome, requestId: string)
    requires entries != []
    ensures Position(SettleLast(entries, o), requestId) == Position(entries, requestId)
  {
    var p, q := Position(entries, requestId), Position(SettleLast(entries, o), requestId);
    assert p < |entries| ==> SettleLast(entries, o)[p].requestId == requestId;
    assert q < |entries| ==> entries[q].requestId == requestId;
  }

  /** Settling the last, pending entry with a fresh transaction keeps every uniqueness. */
  lemma SettleKeeps(entries: seq<Entry>, o: Outcome, invoked: seq<string>)
    requires entries != [] && !Settled(entries[|entries| - 1]) && !Reused(entries, o)
    requires Consistent(entries, invoked) && entries[|entries| - 1].requestId in invoked
    ensures Consistent(SettleLast(entries, o), invoked)
  {
    var last := |entries| - 1;
    var es := SettleLast(entries, o);
    forall requestId { PositionSettle(entries, o, requestId); }
    ReusedIsRepeated(entries, o);
    assert forall i | 0 <= i < last :: es[i] == entries[i] && entries[i] in entries;
  }
}
