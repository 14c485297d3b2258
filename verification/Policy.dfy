/** Quotes against a mandate, and the hash-chained audit log. */
module Policy {
  import opened Effects

  datatype Provider = Provider(id: string, network: string, asset: string, unitPrice: int)
  datatype Mandate = Mandate(dataBudget: int, maxUnitPrice: int, verificationBudget: int, allowed: seq<string>,
                             expiresAt: int, version: nat, verificationPrice: Option<int>)

  predicate SafeInteger(n: int) {
    -MAX_SAFE_INTEGER <= n <= MAX_SAFE_INTEGER
  }

  datatype Verdict = Approved | Invalid | Expired | WrongNetwork | WrongProvider | PriceTooHigh | OverBudget

  /** The quote can be paid in full under the mandate. */
  ghost predicate Fits(m: Mandate, p: Provider, units: int, spent: int, now: int) {
    && 1 <= units <= 3 && 0 < p.unitPrice <= m.maxUnitPrice
    && 0 <= spent && spent + p.unitPrice * units <= m.dataBudget
    && spent + p.unitPrice * units <= 9007199254740991
    && now < m.expiresAt && p.network == "hedera:testnet" && p.asset == "HBAR" && p.id in m.allowed
  }

  lemma ProductBounds(price: int, units: int)
    requires price > 0 && 1 <= units <= 3
    ensures price <= price * units
  {
  }

  function AssessQuote(m: Mandate, p: Provider, units: int, spent: int, now: int): (r: Verdict)
    ensures r.Approved? <==> Fits(m, p, units, spent, now)
    ensures r.Invalid? <==> !(1 <= units <= 3 && 0 < p.unitPrice && 0 <= spent && spent + p.unitPrice * units <= 9007199254740991)
    ensures r.Expired? ==> m.expiresAt <= now
    ensures r.WrongNetwork? ==> p.network != "hedera:testnet" || p.asset != "HBAR"
    ensures r.WrongProvider? ==> p.id !in m.allowed
    ensures r.PriceTooHigh? ==> p.unitPrice > m.maxUnitPrice
    ensures r.OverBudget? ==> spent + p.unitPrice * units > m.dataBudget
  {
    assert 1 <= units <= 3 && p.unitPrice > 0 ==> p.unitPrice <= p.unitPrice * units by {
      if 1 <= units <= 3 && p.unitPrice > 0 { ProductBounds(p.unitPrice, units); }
    }
    if !SafeInteger(units) || units < 1 || units > 3 || !SafeInteger(p.unitPrice) || p.unitPrice <= 0 ||
       !SafeInteger(spent) || spent < 0 || !SafeInteger(p.unitPrice * units + spent) then Invalid
    else if m.expiresAt <= now then Expired
    else if p.network != "hedera:testnet" || p.asset != "HBAR" then WrongNetwork
    else if p.id !in m.allowed then WrongProvider
    else if p.unitPrice > m.maxUnitPrice then PriceTooHigh
    else if spent + p.unitPrice * units > m.dataBudget then OverBudget
    else Approved
  }

  // ---------------------------------------------------------------- the audit log

  datatype Actor = Supervisor | Planner | Broker | Worker | Verifier
  datatype Kind = Info | Success | Warning | Blocked

  /** The hash of an entry is taken to determine it; the word `genesis` is no entry's hash. */
  datatype Digest = Genesis | Of(entry: Entry)
  datatype Entry = Entry(actor: Actor, kind: Kind, title: string, detail: string, previous: Digest)
  datatype AuditEvent = AuditEvent(entry: Entry, hash: Digest)

  function Head(events: seq<AuditEvent>): Digest {
    if events == [] then Genesis else events[|events| - 1].hash
  }

  ghost predicate Chained(events: seq<AuditEvent>) {
    events == [] ||
    var rest, last := events[..|events| - 1], events[|events| - 1];
    Chained(rest) && last.entry.previous == Head(rest) && last.hash == Of(last.entry)
  }

  /** What a reader of the log sees of an event. */
  datatype Note = Note(actor: Actor, kind: Kind, title: string)

  ghost function Notes(events: seq<AuditEvent>): (r: seq<Note>)
    ensures |r| == |events|
    ensures forall i | 0 <= i < |r| :: r[i] == Note(events[i].entry.actor, events[i].entry.kind, events[i].entry.title)
  {
    seq(|events|, i requires 0 <= i < |events| => Note(events[i].entry.actor, events[i].entry.kind, events[i].entry.title))
  }

  function AppendAudit(events: seq<AuditEvent>, actor: Actor, kind: Kind, title: string, detail: string): (r: seq<AuditEvent>)
    ensures Chained(events) ==> Chained(r)
    ensures events <= r && |r| == |events| + 1
    ensures Notes(r) == Notes(events) + [Note(actor, kind, title)] && r[|events|].entry.detail == detail
  {
    var entry := Entry(actor, kind, title, detail, Head(events));
    var r := events + [AuditEvent(entry, Of(entry))];
    assert r[..|events|] == events;
    r
  }

  lemma {:induction false} ChainedPrefix(events: seq<AuditEvent>, n: nat)
    requires n <= |events| && Chained(events)
    ensures Chained(events[..n])
  {
    if n < |events| {
      ChainedPrefix(events[..|events| - 1], n);
      assert events[..|events| - 1][..n] == events[..n];
    } else {
      assert events[..n] == events;
    }
  }

  method VerifyAudit(events: seq<AuditEvent>) returns (ok: bool)
    ensures ok <==> Chained(events)
  {
    var previous := Genesis;
    assert events[..|events|] == events;
    for i := 0 to |events|
      invariant Chained(events[..i]) && previous == Head(events[..i])
    {
      assert events[..i + 1][..i] == events[..i];
      if events[i].entry.previous != previous || Of(events[i].entry) != events[i].hash {
        if Chained(events) {
          ChainedPrefix(events, i + 1);
        }
        return false;
      }
      previous := events[i].hash;
    }
    return true;
  }

  /** The last hash commits to the whole log: no event can be changed, dropped or added. */
  lemma {:induction false} HeadFixesLog(a: seq<AuditEvent>, b: seq<AuditEvent>)
    requires Chained(a) && Chained(b) && Head(a) == Head(b)
    ensures a == b
  {
    if a != [] && b != [] {
      HeadFixesLog(a[..|a| - 1], b[..|b| - 1]);
      assert a == a[..|a| - 1] + [a[|a| - 1]];
      assert b == b[..|b| - 1] + [b[|b| - 1]];
    }
  }
}
