/** The provider worker: one record per order, saved around every effect, against a queue whose
    replies may be lost. Each method keeps `Valid`: records, claim file, queue and chain are the
    result of a legal run of the protocol, so the theorems about runs hold wherever it dies. */
module ProviderWorker {
  import opened Effects
  import opened ProviderQueue
  import opened ProviderProtocol

  /** Everything about every other order is as before. */
  ghost predicate OnlyRow(before: Plant, after: Plant, o: OrderId) {
    forall p | p != o :: RowOf(after, p) == RowOf(before, p)
  }

  lemma OnlyRowStep(w: Plant, a: Action, o: OrderId)
    requires Enabled(w, a) && (General(a) || a.order == o)
    ensures OnlyRow(w, Step(w, a), o)
  {
  }

  lemma SameRow(w: Plant, o: OrderId)
    ensures OnlyRow(w, w, o)
  {
  }

  lemma OnlyRowTwice(u: Plant, v: Plant, w: Plant, o: OrderId)
    requires OnlyRow(u, v, o) && OnlyRow(v, w, o)
    ensures OnlyRow(u, w, o)
  {
  }

  /** Where a stored output ends: in the queue, or given up because its storage has run out. */
  ghost predicate Delivered(b: Record, a: Record, job: Job, now: int) {
    && b.output.Some?
    && (|| (a == b.(stage := Finished, attested := true) && job.state == Completed && job.output == b.output)
        || (a == b.(stage := Abandoned, attested := true) && b.category == Storage && Lapsed(job, b.output.value, now))
        || (a == b.(stage := Abandoned) && b.category == Storage && !b.attested && b.output.value.expiresAt <= now))
    && (b.category == Storage && !b.attested && b.output.value.expiresAt <= now ==> !a.attested)
  }

  /** Where a pass without an error leaves a record: `tried` and `results` are what the starts of its
      work came to before and after. Work in doubt is given up, work that was never started is started
      once, and what it makes is delivered. */
  ghost predicate Ended(b: Record, tried: seq<Result<Output>>, a: Record, results: seq<Result<Output>>, job: Job, now: int) {
    match b.stage
    case Claimed =>
      && |results| == |tried| + 1 && results[..|tried|] == tried
      && (match results[|tried|]
          case Ok(output) => Delivered(b.(stage := Produced, output := Some(output)), a, job, now)
          case Threw => a == b.(stage := Abandoned)
          case Crashed => false)
    case Executing => results == tried && a == b.(stage := Abandoned)
    case Produced => results == tried && Delivered(b, a, job, now)
    case _ => results == tried && a == b
  }

  ghost predicate RowEnded(b: Row, a: Row, now: int) {
    b.record.Some? && a.record.Some? && a.job.Some? && Ended(b.record.value, b.runs, a.record.value, a.runs, a.job.value, now)
  }

  lemma EndedIsClosed(b: Row, a: Row, now: int)
    requires RowEnded(b, a, now)
    ensures Closed(a.record.value.stage)
  {
  }

  /** The row an order has before its first record. */
  ghost function Opened(r: Row): Row
    requires r.record.Some?
  {
    r.(record := Some(Record(r.record.value.category, r.record.value.token, Claimed, None, false, 0)), runs := [])
  }

  /** Storage whose failure the queue already knows of cannot be completed any more. */
  ghost predicate Refusable(r: Row) {
    r.record.Some? && r.record.value.stage == Produced && r.job.Some? && r.job.value.state == Failed
  }

  /** A job that can be claimed has no record yet. */
  lemma ClaimedIsNew(w: Plant, o: OrderId, token: string, now: int)
    requires Inv(w) && Enabled(w, Claim(o, token, now))
    ensures forall p | p in w.records :: RowOf(Step(w, Claim(o, token, now)), p) == RowOf(w, p)
  {
    RowsAreSafe(w, o);
    OnlyRowStep(w, Claim(o, token, now), o);
  }

  lemma LapsedStays(before: Job, after: Job, output: Output, now: int)
    requires JobKept(before, after) && before.token.Some? && Lapsed(before, output, now)
    ensures Lapsed(after, output, now)
  {
  }

  /** The record after its work: with the output it made, or given up if it threw. */
  ghost predicate Worked(b: Record, results: seq<Result<Output>>, a: Record) {
    results != [] &&
    match results[|results| - 1]
    case Ok(output) => a == b.(stage := Produced, output := Some(output))
    case Threw => a == b.(stage := Abandoned)
    case Crashed => false
  }

  /** A failed job of data, compute or verification that left neither output nor attestation. */
  ghost predicate MayRetry(records: map<OrderId, Record>, o: OrderId) {
    && o in records && records[o].stage == Abandoned && records[o].output.None? && !records[o].attested
    && !records[o].category.Inference? && !records[o].category.Storage?
  }

  /** Every record of `before` outside `names` has ended, and those in `names` have not been touched. */
  ghost predicate EndedOutside(before: Plant, after: Plant, names: set<OrderId>, now: int) {
    && after.records.Keys == before.records.Keys
    && (forall o | o in names :: RowOf(after, o) == RowOf(before, o))
    && (forall o | o in before.records && o !in names :: RowEnded(RowOf(before, o), RowOf(after, o), now))
  }

  lemma OneMoreEnded(start: Plant, before: Plant, after: Plant, names: set<OrderId>, o: OrderId, now: int)
    requires EndedOutside(start, before, names, now) && o in names && o in start.records && o in before.records && o in after.records
    requires OnlyRow(before, after, o) && RowEnded(RowOf(before, o), RowOf(after, o), now)
    ensures EndedOutside(start, after, names - {o}, now)
  {
    hide RowEnded;
    assert forall p | p != o :: RowOf(after, p) == RowOf(before, p);
    assert forall p :: p in after.records <==> RowOf(after, p).record.Some?;
    assert forall p :: p in before.records <==> RowOf(before, p).record.Some?;
  }

  lemma NothingEnded(start: Plant, now: int)
    ensures EndedOutside(start, start, start.records.Keys, now)
  {
  }

  lemma Untouched(start: Plant, w: Plant, names: set<OrderId>, o: OrderId, now: int)
    requires EndedOutside(start, w, names, now) && o in names
    ensures RowOf(w, o) == RowOf(start, o)
  {
  }

  lemma SameKeys(before: Plant, after: Plant, o: OrderId)
    requires OnlyRow(before, after, o) && o in before.records && o in after.records
    ensures after.records.Keys == before.records.Keys
  {
    assert forall p :: p in after.records <==> RowOf(after, p).record.Some?;
    assert forall p :: p in before.records <==> RowOf(before, p).record.Some?;
  }

  lemma ClosedIsEnded(w: Plant, o: OrderId, now: int)
    requires RowInv(RowOf(w, o), w.claim) && o in w.records && Closed(w.records[o].stage)
    ensures RowEnded(RowOf(w, o), RowOf(w, o), now) && OnlyRow(w, w, o)
  {
  }

  /** What a pass without an error has done: `mid` is the plant after the claim. */
  lemma SavedEnded(start: Plant, saved: Plant, mid: Plant, claimed: Option<OrderId>, now: int)
    requires EndedOutside(start, saved, {}, now)
    requires forall p | p in saved.records :: p in mid.records && RowOf(mid, p) == RowOf(saved, p)
    requires forall p | p in mid.records && p !in saved.records :: claimed == Some(p) && mid.records[p].stage == Claimed
    requires claimed.Some? ==> claimed.value in mid.records && Closed(mid.records[claimed.value].stage)
    ensures mid.records.Keys == start.records.Keys
    ensures forall p | p in start.records :: RowEnded(RowOf(start, p), RowOf(mid, p), now)
  {
    hide RowEnded;
  }

  /** An open record is the one just created: all others have ended. */
  lemma NewlyClaimed(start: Plant, saved: Plant, mid: Plant, o: OrderId, now: int)
    requires EndedOutside(start, saved, {}, now) && o in mid.records && !Closed(mid.records[o].stage)
    requires forall p | p in saved.records :: p in mid.records && RowOf(mid, p) == RowOf(saved, p)
    requires forall p | p in mid.records && p !in saved.records :: mid.records[p].stage == Claimed
    ensures o !in saved.records && o !in start.records && !Refusable(RowOf(mid, o))
  {
    hide RowEnded;
    if o in saved.records {
      assert RowOf(mid, o) == RowOf(saved, o);
      EndedIsClosed(RowOf(start, o), RowOf(saved, o), now);
    }
  }

  lemma ClaimedEnded(start: Plant, saved: Plant, mid: Plant, after: Plant, o: OrderId, now: int)
    requires EndedOutside(start, saved, {}, now) && o !in saved.records && o in mid.records && o in after.records
    requires forall p | p in saved.records :: p in mid.records && RowOf(mid, p) == RowOf(saved, p)
    requires forall p | p in mid.records && p !in saved.records :: p == o
    requires mid.records[o] == Record(mid.records[o].category, mid.records[o].token, Claimed, None, false, 0)
    requires RowOf(mid, o).runs == []
    requires OnlyRow(mid, after, o) && RowEnded(RowOf(mid, o), RowOf(after, o), now)
    ensures forall p | p in start.records :: RowEnded(RowOf(start, p), RowOf(after, p), now)
    ensures forall p | p in after.records && p !in start.records :: RowEnded(Opened(RowOf(after, p)), RowOf(after, p), now)
  {
    hide RowEnded, Opened;
    SameKeys(mid, after, o);
    OpenedEnded(RowOf(mid, o), RowOf(after, o), now);
    forall p | p in after.records && p !in start.records
      ensures p == o
    {
      assert p in mid.records;
    }
  }

  lemma OpenedEnded(b: Row, a: Row, now: int)
    requires RowEnded(b, a, now) && b.runs == []
    requires b.record.value == Record(b.record.value.category, b.record.value.token, Claimed, None, false, 0)
    ensures RowEnded(Opened(a), a, now)
  {
  }

  class Worker {
    const queue: JobQueue
    /** Whether files, replies and chain never fail. */
    const reliable: bool
    var records: map<OrderId, Record>
    var claimFile: Option<string>
    /** The signed delivery transaction of an order, and what the chain has of it. */
    var deliveries: map<OrderId, Digest>
    var onChain: map<OrderId, Digest>
    ghost var hand: Hand
    ghost var runs: map<OrderId, seq<Result<Output>>>
    ghost var log: seq<Action>

    ghost function View(): Plant
      reads this, queue
    {
      Plant(records, claimFile, queue.jobs, deliveries, onChain, hand, runs)
    }

    ghost predicate Valid()
      reads this, queue
    {
      queue.Valid() && Legal(log) && After(log) == View()
    }

    constructor (queue: JobQueue, reliable: bool)
      requires queue.Valid() && queue.jobs == map[]
      ensures Valid() && this.queue == queue && this.reliable == reliable && View() == EMPTY && log == []
    {
      this.queue, this.reliable := queue, reliable;
      records, claimFile, deliveries, onChain, hand, runs, log := map[], None, map[], map[], Idle, map[], [];
    }

    /** What the run so far says about one order. */
    lemma Facts(o: OrderId)
      requires Valid()
      ensures RowInv(RowOf(View(), o), claimFile) && HandInv(View())
    {
      RunSafe(log);
      RowsAreSafe(View(), o);
    }

    /** Files, queue and chain have taken one step of the protocol. */
    ghost method Remember(before: Plant, a: Action)
      requires queue.Valid() && Legal(log) && After(log) == before && Enabled(before, a)
      requires View().(hand := Step(before, a).hand, runs := Step(before, a).runs) == Step(before, a)
      modifies this`log, this`hand, this`runs
      ensures Valid() && log == old(log) + [a] && View() == Step(before, a)
    {
      Extend(log, a);
      hand, runs, log := Step(before, a).hand, Step(before, a).runs, log + [a];
    }

    /** A pass begins with the files only, and so does a new process. */
    method Restart()
      requires Valid()
      modifies this`log, this`hand, this`runs
      ensures Valid() && old(log) <= log && View() == old(View()).(hand := Idle)
    {
      Remember(View(), Start);
    }

    /** How an awaited effect ends. */
    method Mishap() returns (r: Result<()>)
      ensures reliable ==> r.Ok?
    {
      r := *;
      if reliable {
        r := Ok(());
      }
    }

    /** The platform queues paid orders at any time. */
    method PlatformQueues(o: OrderId, c: Category)
      requires Valid()
      modifies queue, this`log, this`hand, this`runs
      ensures Valid() && old(log) <= log && o in queue.jobs && OnlyRow(old(View()), View(), o)
      ensures o in old(queue.jobs) ==> View() == old(View())
    {
      ghost var before := View();
      queue.Enqueue(o, c);
      if o !in before.jobs {
        OnlyRowStep(before, Enqueue(o, c), o);
        Remember(before, Enqueue(o, c));
      }
    }

    /** A signed delivery may land long after it was broadcast. */
    method ChainLands(o: OrderId)
      requires Valid() && o in deliveries
      modifies this`onChain, this`log, this`hand, this`runs
      ensures Valid() && old(log) <= log && onChain == old(onChain)[o := deliveries[o]]
    {
      ghost var before := View();
      onChain := onChain[o := deliveries[o]];
      Remember(before, Land(o));
    }

    /** Changes the saved record of one order; a failure or a crash may come before the change or
        after it. */
    method Save(o: OrderId, record: Record, ghost a: Action) returns (r: Result<()>)
      requires Valid() && Enabled(View(), a) && (General(a) || a.order == o)
      requires Step(View(), a) == View().(records := records[o := record], hand := Step(View(), a).hand)
      modifies this`records, this`log, this`hand, this`runs
      ensures Valid() && old(log) <= log && OnlyRow(old(View()), View(), o)
      ensures View() == old(View()) || View() == Step(old(View()), a)
      ensures r.Ok? ==> View() == Step(old(View()), a)
      ensures reliable ==> r.Ok?
    {
      hide Enabled, Step;
      ghost var before := View();
      OnlyRowStep(before, a, o);
      r := Mishap();
      var late: bool := *;
      if r.Ok? || late {
        records := records[o := record];
        Remember(before, a);
      }
    }

    /** Tells the queue; the request may be lost, or its reply although the row changed. */
    method ReportFailure(o: OrderId, now: int) returns (r: Result<()>)
      requires Valid() && MayGiveUp(View(), o, now)
      modifies queue, this`log, this`hand, this`runs
      ensures Valid() && old(log) <= log
      ensures (View() == old(View()) && !r.Ok?) || Took(old(View()), Report(o, now), View())
      ensures reliable ==> r.Ok?
    {
      Facts(o);
      ghost var before := View();
      r := Mishap();
      var arrives: bool := *;
      if r.Ok? || arrives {
        var reply := queue.ReportFailed(o, records[o].token);
        Remember(before, Report(o, now));
      }
    }

    /** Reports failure and stores it; if the reply is lost the record stays as it was. */
    method GiveUp(o: OrderId, now: int) returns (r: Result<()>)
      requires Valid() && MayGiveUp(View(), o, now)
      modifies queue, this`records, this`log, this`hand, this`runs
      ensures Valid() && old(log) <= log && OnlyRow(old(View()), View(), o) && o in records && o in queue.jobs
      ensures r.Ok? ==> records[o] == old(records)[o].(stage := Abandoned)
      ensures o in old(queue.jobs) && JobKept(old(queue.jobs)[o], queue.jobs[o])
      ensures runs == old(runs) && (reliable ==> r.Ok?)
    {
      Facts(o);
      OnlyRowStep(View(), Report(o, now), o);
      r := ReportFailure(o, now);
      if r.Ok? {
        r := Save(o, records[o].(stage := Abandoned), Abandon(o, now));
      }
    }

    /** The work itself: inference, evidence or storage. It may be charged even if it throws. */
    method DoWork(o: OrderId) returns (r: Result<Output>)
      requires Valid() && hand == Ready(o)
      modifies this`log, this`hand, this`runs
      ensures Valid() && old(log) <= log
      ensures View() == Step(old(View()), Work(o, r))
      ensures reliable ==> !r.Crashed?
    {
      ghost var before := View();
      r := *;
      if reliable && r.Crashed? {
        r := Threw;
      }
      Remember(before, Work(o, r));
    }

    /** A stored executing stage may already have been charged: it is never run again. */
    method Execute(o: OrderId, now: int) returns (r: Result<()>)
      requires Valid() && InStage(View(), o, Claimed) && hand == Idle
      modifies queue, this`records, this`log, this`hand, this`runs
      ensures Valid() && old(log) <= log && OnlyRow(old(View()), View(), o) && o in records
      ensures RunsOf(runs, o) == RunsOf(old(runs), o) || (|RunsOf(runs, o)| == |RunsOf(old(runs), o)| + 1 && RunsOf(old(runs), o) <= RunsOf(runs, o))
      ensures r.Ok? ==> |RunsOf(runs, o)| == |RunsOf(old(runs), o)| + 1 && Worked(old(records)[o], RunsOf(runs, o), records[o])
      ensures r.Ok? ==> !Refusable(RowOf(View(), o))
      ensures reliable ==> r.Ok?
    {
      hide OnlyRow, RowOf;
      ghost var before := View();
      r := Save(o, records[o].(stage := Executing), Begin(o));
      if r.Ok? {
        ghost var saved := View();
        r := Produce(o, now);
        OnlyRowTwice(before, saved, View(), o);
      }
    }

    method Produce(o: OrderId, now: int) returns (r: Result<()>)
      requires Valid() && hand == Ready(o) && InStage(View(), o, Executing)
      modifies queue, this`records, this`log, this`hand, this`runs
      ensures Valid() && old(log) <= log && OnlyRow(old(View()), View(), o) && o in records
      ensures |RunsOf(runs, o)| == |RunsOf(old(runs), o)| + 1 && RunsOf(old(runs), o) <= RunsOf(runs, o)
      ensures r.Ok? ==> Worked(old(records)[o], RunsOf(runs, o), records[o])
      ensures r.Ok? ==> !Refusable(RowOf(View(), o))
      ensures reliable ==> r.Ok?
    {
      hide OnlyRow, RowInv;
      Facts(o);
      ghost var before := View();
      var output := DoWork(o);
      OnlyRowStep(before, Work(o, output), o);
      ghost var worked := View();
      if output.Crashed? {
        return Crashed;
      }
      if output.Ok? {
        r := Save(o, records[o].(stage := Produced, output := Some(output.value)), Keep(o));
      } else {
        r := GiveUp(o, now);
      }
      OnlyRowTwice(before, worked, View(), o);
    }

    /** The delivery is signed once for the stored output and rebroadcast until it lands. */
    method Attest(o: OrderId) returns (r: Result<()>)
      requires Valid() && o in records && records[o].output.Some?
      modifies this`deliveries, this`onChain, this`log, this`hand, this`runs
      ensures Valid() && old(log) <= log && hand == old(hand) && runs == old(runs) && OnlyRow(old(View()), View(), o)
      ensures r.Ok? ==> o in onChain && onChain[o] == Digest(records[o].output.value)
      ensures forall p | p in old(deliveries) :: p in deliveries && deliveries[p] == old(deliveries)[p]
      ensures reliable ==> r.Ok?
    {
      hide OnlyRow, RowOf;
      ghost var before := View();
      r := SignDelivery(o);
      if r.Ok? {
        ghost var signed := View();
        r := Broadcast(o);
        OnlyRowTwice(before, signed, View(), o);
      }
    }

    /** An existing signed transaction is kept. */
    method SignDelivery(o: OrderId) returns (r: Result<()>)
      requires Valid() && o in records && records[o].output.Some?
      modifies this`deliveries, this`log, this`hand, this`runs
      ensures Valid() && old(log) <= log && hand == old(hand) && runs == old(runs) && OnlyRow(old(View()), View(), o)
      ensures deliveries == old(deliveries) || (o !in old(deliveries) && deliveries == old(deliveries)[o := Digest(records[o].output.value)])
      ensures r.Ok? ==> o in deliveries
      ensures reliable ==> r.Ok?
    {
      ghost var before := View();
      r := Mishap();
      var late: bool := *;
      if o !in deliveries && (r.Ok? || late) {
        OnlyRowStep(before, Sign(o), o);
        deliveries := deliveries[o := Digest(records[o].output.value)];
        Remember(before, Sign(o));
      }
    }

    method Broadcast(o: OrderId) returns (r: Result<()>)
      requires Valid() && o in records && records[o].output.Some? && o in deliveries
      modifies this`onChain, this`log, this`hand, this`runs
      ensures Valid() && old(log) <= log && hand == old(hand) && runs == old(runs) && OnlyRow(old(View()), View(), o)
      ensures onChain == old(onChain) || onChain == old(onChain)[o := deliveries[o]]
      ensures r.Ok? ==> o in onChain && onChain[o] == Digest(records[o].output.value)
      ensures reliable ==> r.Ok?
    {
      ghost var before := View();
      Facts(o);
      r := Mishap();
      var lands: bool := *;
      if r.Ok? || lands {
        OnlyRowStep(before, Land(o), o);
        onChain := onChain[o := deliveries[o]];
        Remember(before, Land(o));
      }
    }

    /** Offers the stored output to the queue; the answer may be lost. */
    method Submit(o: OrderId, now: int) returns (r: Result<Reply>)
      requires Valid() && InStage(View(), o, Produced) && records[o].attested && records[o].output.Some?
      requires o in onChain
      modifies queue, this`log, this`hand, this`runs
      ensures Valid() && old(log) <= log && o in queue.jobs && OnlyRow(old(View()), View(), o) && runs == old(runs)
      ensures View() == old(View()) || Took(old(View()), Complete(o), View())
      ensures r == Ok(Done) ==> queue.jobs[o].state == Completed && queue.jobs[o].output == records[o].output
      ensures r == Ok(StorageExpired) ==> MayGiveUp(View(), o, now) && records[o].category == Storage
      ensures r == Ok(StorageExpired) ==> queue.jobs[o].token.Some? && Lapsed(queue.jobs[o], records[o].output.value, now)
      ensures o in old(queue.jobs) && (reliable && old(queue.jobs)[o].state != Failed ==> r == Ok(Done) || r == Ok(StorageExpired))
    {
      Facts(o);
      ghost var before := View();
      var reply := queue.Complete(o, records[o].token, records[o].output.value, Some(onChain[o]), now);
      if queue.jobs != before.jobs {
        OnlyRowStep(before, Complete(o), o);
        Remember(before, Complete(o));
      }
      var answered := Mishap();
      r := if answered.Ok? then Ok(reply) else answered.PropagateFailure();
    }

    method Finish(o: OrderId, now: int) returns (r: Result<()>)
      requires Valid() && InStage(View(), o, Produced) && records[o].attested && records[o].output.Some? && o in onChain
      modifies queue, this`records, this`log, this`hand, this`runs
      ensures Valid() && old(log) <= log && OnlyRow(old(View()), View(), o) && o in records && o in queue.jobs && runs == old(runs)
      ensures r.Ok? ==> Delivered(old(records)[o], records[o], queue.jobs[o], now) && records[o].attested
      ensures o in old(queue.jobs) && (reliable && old(queue.jobs)[o].state != Failed ==> r.Ok?)
    {
      hide OnlyRow, RowOf, Lapsed, JobKept, Delivered, MayGiveUp;
      ghost var before := View();
      var reply :- Submit(o, now);
      ghost var submitted := View();
      r := Conclude(o, reply, now);
      OnlyRowTwice(before, submitted, View(), o);
    }

    /** Stores what the queue has answered. */
    method Conclude(o: OrderId, reply: Reply, now: int) returns (r: Result<()>)
      requires Valid() && InStage(View(), o, Produced) && records[o].attested && records[o].output.Some? && o in queue.jobs
      requires reply == Done ==> queue.jobs[o].state == Completed && queue.jobs[o].output == records[o].output
      requires reply == StorageExpired ==> MayGiveUp(View(), o, now) && records[o].category == Storage
      requires reply == StorageExpired ==> queue.jobs[o].token.Some? && Lapsed(queue.jobs[o], records[o].output.value, now)
      modifies queue, this`records, this`log, this`hand, this`runs
      ensures Valid() && old(log) <= log && OnlyRow(old(View()), View(), o) && o in records && o in queue.jobs && runs == old(runs)
      ensures r.Ok? ==> Delivered(old(records)[o], records[o], queue.jobs[o], now) && records[o].attested
      ensures reliable && (reply == Done || reply == StorageExpired) ==> r.Ok?
    {
      hide OnlyRow, RowOf, RowInv, Lapsed, JobKept, MayGiveUp;
      if reply == Done {
        r := Save(o, records[o].(stage := Finished), Close(o));
      } else if reply == StorageExpired {
        ghost var job, output := queue.jobs[o], records[o].output.value;
        r := GiveUp(o, now);
        LapsedStays(job, queue.jobs[o], output, now);
      } else {
        r := Threw;
        SameRow(View(), o);
      }
    }

    method DeliverOutput(o: OrderId, now: int) returns (r: Result<()>)
      requires Valid() && InStage(View(), o, Produced)
      modifies queue, this`records, this`deliveries, this`onChain, this`log, this`hand, this`runs
      ensures Valid() && old(log) <= log && OnlyRow(old(View()), View(), o) && o in records && runs == old(runs)
      ensures r.Ok? ==> o in queue.jobs && Delivered(old(records)[o], records[o], queue.jobs[o], now)
      ensures reliable && !Refusable(RowOf(old(View()), o)) ==> r.Ok?
    {
      hide OnlyRow;
      Facts(o);
      if records[o].category == Storage && !records[o].attested && records[o].output.value.expiresAt <= now {
        r := GiveUp(o, now);
        return;
      }
      ghost var before := View();
      r := AttestOutput(o);
      if r.Ok? {
        ghost var attested := View();
        r := Finish(o, now);
        OnlyRowTwice(before, attested, View(), o);
      }
    }

    /** The record notes the delivery only once it is on chain. */
    method AttestOutput(o: OrderId) returns (r: Result<()>)
      requires Valid() && InStage(View(), o, Produced) && records[o].output.Some?
      modifies this`records, this`deliveries, this`onChain, this`log, this`hand, this`runs
      ensures Valid() && old(log) <= log && OnlyRow(old(View()), View(), o) && InStage(View(), o, Produced)
      ensures r.Ok? ==> records[o] == old(records)[o].(attested := true) && o in onChain
      ensures runs == old(runs) && (reliable ==> r.Ok?)
    {
      hide OnlyRow, RowInv, RowOf;
      ghost var before := View();
      r := Attest(o);
      if r.Ok? {
        ghost var attested := View();
        r := Save(o, records[o].(attested := true), Note(o));
        OnlyRowTwice(before, attested, View(), o);
      }
    }

    /** One saved record, taken as far as it goes; `checked` says how the checks of its paid request end. */
    method ProcessRecord(o: OrderId, now: int, checked: Result<()>) returns (r: Result<()>)
      requires Valid() && o in records && !Closed(records[o].stage)
      modifies queue, this`records, this`deliveries, this`onChain, this`log, this`hand, this`runs
      ensures Valid() && old(log) <= log && OnlyRow(old(View()), View(), o) && o in records
      ensures r.Ok? ==> RowEnded(RowOf(old(View()), o), RowOf(View(), o), now)
      ensures old(records)[o].stage != Claimed ==> runs == old(runs)
      ensures |RunsOf(runs, o)| <= |RunsOf(old(runs), o)| + 1
      ensures reliable && checked.Ok? && !Refusable(RowOf(old(View()), o)) ==> r.Ok?
      ensures !checked.Ok? ==> r == checked && View() == old(View()).(hand := Idle)
    {
      Restart();
      if !checked.Ok? {
        return checked;
      }
      match records[o].stage
      case Executing => r := GiveUp(o, now);
      case Produced => r := DeliverOutput(o, now);
      case Claimed => r := WorkAndDeliver(o, now);
    }

    method WorkAndDeliver(o: OrderId, now: int) returns (r: Result<()>)
      requires Valid() && InStage(View(), o, Claimed) && hand == Idle
      modifies queue, this`records, this`deliveries, this`onChain, this`log, this`hand, this`runs
      ensures Valid() && old(log) <= log && OnlyRow(old(View()), View(), o) && o in records
      ensures r.Ok? ==> o in queue.jobs && Ended(old(records)[o], RunsOf(old(runs), o), records[o], RunsOf(runs, o), queue.jobs[o], now)
      ensures |RunsOf(runs, o)| <= |RunsOf(old(runs), o)| + 1
      ensures reliable ==> r.Ok?
    {
      hide OnlyRow;
      ghost var before := View();
      r := Execute(o, now);
      Facts(o);
      if r.Ok? && records[o].stage == Produced {
        ghost var done := View();
        r := DeliverOutput(o, now);
        OnlyRowTwice(before, done, View(), o);
      }
    }

    /** The operator's read-only retry; its request reaches the queue before the record changes. */
    method RetryRead(o: OrderId) returns (r: Result<()>)
      requires Valid()
      modifies queue, this`records, this`log, this`hand, this`runs
      ensures Valid() && old(log) <= log && OnlyRow(old(View()), View(), o)
      ensures r.Ok? ==> MayRetry(old(records), o)
      ensures r.Ok? ==> records == old(records)[o := old(records)[o].(stage := Claimed, readRetries := old(records)[o].readRetries + 1)]
      ensures r.Ok? ==> o in queue.jobs && queue.jobs[o].state == Running
      ensures !MayRetry(old(records), o) ==> View() == old(View())
      ensures reliable && MayRetry(old(records), o) ==> r.Ok?
    {
      hide RowInv, OnlyRow, RowOf, JobInv, Retryable;
      SameRow(View(), o);
      if o !in records || records[o].stage != Abandoned || !ReadOnly(records[o].category) ||
         records[o].output.Some? || records[o].attested {
        return Threw;
      }
      ghost var before := View();
      r := AskRetry(o);
      if r.Ok? {
        ghost var asked := View();
        r := Save(o, records[o].(stage := Claimed, readRetries := records[o].readRetries + 1), Reopen(o));
        OnlyRowTwice(before, asked, View(), o);
      }
    }

    method AskRetry(o: OrderId) returns (r: Result<()>)
      requires Valid() && InStage(View(), o, Abandoned) && ReadOnly(records[o].category)
      modifies queue, this`log, this`hand, this`runs
      ensures Valid() && old(log) <= log && OnlyRow(old(View()), View(), o)
      ensures View() == old(View()) || Took(old(View()), Requeue(o), View())
      ensures r.Ok? ==> o in queue.jobs && queue.jobs[o].state == Running
      ensures reliable ==> r.Ok?
    {
      Facts(o);
      assert Holds(queue.jobs, o, records[o].token) && Retryable(queue.jobs[o]);
      ghost var before := View();
      var reply := queue.RetryRead(o, records[o].token);
      if reply == Done {
        OnlyRowStep(before, Requeue(o), o);
        Remember(before, Requeue(o));
      }
      r := Mishap();
      if r.Ok? && reply != Done {
        r := Threw;
      }
    }

    /** Asks the queue under the saved claim id, so that a lost reply is asked for again. */
    method AskWork(now: int) returns (r: Result<Option<OrderId>>)
      requires Valid() && claimFile.Some?
      modifies queue, this`log, this`hand, this`runs
      ensures Valid() && old(log) <= log && runs == old(runs)
      ensures r.Ok? && r.value.Some? ==> Holds(queue.jobs, r.value.value, claimFile.value)
      ensures r.Ok? && r.value.None? ==> Unclaimed(queue.jobs, claimFile.value) && forall o | o in queue.jobs :: queue.jobs[o].state != Queued
      ensures forall p | p in records :: RowOf(View(), p) == RowOf(old(View()), p)
      ensures reliable ==> r.Ok?
    {
      hide OnlyRow, RowInv, RowOf, JobKept;
      ghost var before := View();
      var claimed := queue.Claim(claimFile.value, now);
      if queue.jobs != before.jobs {
        RunSafe(log);
        ClaimedIsNew(before, claimed.value, claimFile.value, now);
        Remember(before, Claim(claimed.value, claimFile.value, now));
      }
      var reply := Mishap();
      r := if reply.Ok? then Ok(claimed) else reply.PropagateFailure();
    }

    /** The first record of a claimed order; an existing record is never replaced. */
    method AdoptJob(o: OrderId) returns (r: Result<()>)
      requires Valid() && claimFile.Some? && Holds(queue.jobs, o, claimFile.value)
      modifies this`records, this`log, this`hand, this`runs
      ensures Valid() && old(log) <= log && runs == old(runs)
      ensures r.Ok? ==> records == if o in old(records) then old(records)
                                   else old(records)[o := Record(queue.jobs[o].category, claimFile.value, Claimed, None, false, 0)]
      ensures forall p | p in old(records) :: p in records && records[p] == old(records)[p]
      ensures reliable ==> r.Ok?
    {
      if o in records {
        return Ok(());
      }
      r := Save(o, Record(queue.jobs[o].category, claimFile.value, Claimed, None, false, 0), Adopt(o));
    }

    /** The id is on disk before the first request made under it. */
    method SaveClaim(newId: string) returns (r: Result<()>)
      requires Valid()
      modifies this`claimFile, this`log, this`hand, this`runs
      ensures Valid() && old(log) <= log && runs == old(runs)
      ensures claimFile == old(claimFile) || (old(claimFile).None? && claimFile == Some(newId))
      ensures r.Ok? ==> claimFile.Some?
      ensures reliable ==> r.Ok?
    {
      if claimFile.Some? {
        return Ok(());
      }
      r := Mishap();
      var late: bool := *;
      if r.Ok? || late {
        ghost var before := View();
        claimFile := Some(newId);
        Remember(before, NewClaim(newId));
      }
    }

    /** The id is forgotten once nothing it was given is without a record. */
    method UnlinkClaim() returns (r: Result<()>)
      requires Valid() && forall o | o in queue.jobs && queue.jobs[o].token == claimFile :: o in records
      modifies this`claimFile, this`log, this`hand, this`runs
      ensures Valid() && old(log) <= log && runs == old(runs)
      ensures claimFile == None || (claimFile == old(claimFile) && !r.Ok?)
      ensures reliable ==> r.Ok?
    {
      r := Mishap();
      var late: bool := *;
      if r.Ok? || late {
        ghost var before := View();
        claimFile := None;
        Remember(before, DropClaim);
      }
    }

    /** Claims at most one job; it has its record before the claim id is forgotten. */
    method ClaimWork(newId: string, now: int) returns (r: Result<Option<OrderId>>)
      requires Valid()
      modifies queue, this`records, this`claimFile, this`log, this`hand, this`runs
      ensures Valid() && old(log) <= log && runs == old(runs)
      ensures r.Ok? && r.value.Some? ==> r.value.value in records && (r.value.value !in old(records) ==> RowOf(View(), r.value.value).runs == [])
      ensures r.Ok? && r.value.None? ==> forall o | o in queue.jobs :: queue.jobs[o].state != Queued
      ensures r.Ok? ==> claimFile == None
      ensures old(claimFile).Some? ==> claimFile == old(claimFile) || (claimFile == None && forall o | Holds(queue.jobs, o, old(claimFile).value) :: o in records)
      ensures forall p | p in old(records) :: p in records && RowOf(View(), p) == RowOf(old(View()), p)
      ensures r.Ok? ==> forall p | p in records && p !in old(records) :: r.value == Some(p) && records[p] == Record(records[p].category, records[p].token, Claimed, None, false, 0)
      ensures reliable ==> r.Ok?
    {
      hide RowInv;
      var saved :- SaveClaim(newId);
      r := TakeJob(now);
    }

    method TakeJob(now: int) returns (r: Result<Option<OrderId>>)
      requires Valid() && claimFile.Some?
      modifies queue, this`records, this`claimFile, this`log, this`hand, this`runs
      ensures Valid() && old(log) <= log && runs == old(runs)
      ensures r.Ok? && r.value.Some? ==> r.value.value in records && (r.value.value !in old(records) ==> RowOf(View(), r.value.value).runs == [])
      ensures r.Ok? && r.value.None? ==> forall o | o in queue.jobs :: queue.jobs[o].state != Queued
      ensures r.Ok? ==> claimFile == None
      ensures claimFile == old(claimFile) || (claimFile == None && forall o | Holds(queue.jobs, o, old(claimFile).value) :: o in records)
      ensures forall p | p in old(records) :: p in records && RowOf(View(), p) == RowOf(old(View()), p)
      ensures r.Ok? ==> forall p | p in records && p !in old(records) :: r.value == Some(p) && records[p] == Record(records[p].category, records[p].token, Claimed, None, false, 0)
      ensures reliable ==> r.Ok?
    {
      hide RowInv;
      r := AskWork(now);
      if !r.Ok? {
        return;
      }
      if r.value.Some? {
        NoRunsWithoutRecord(r.value.value);
        var adopted :- AdoptJob(r.value.value);
      }
      var gone := UnlinkClaim();
      if !gone.Ok? {
        return gone.PropagateFailure();
      }
    }

    lemma NoRunsWithoutRecord(o: OrderId)
      requires Valid()
      ensures o !in records ==> RunsOf(runs, o) == []
    {
      Facts(o);
    }

    /** The saved records that are not closed yet, one after the other. */
    method ProcessSaved(now: int, checks: OrderId -> Result<()>) returns (r: Result<()>)
      requires Valid()
      modifies queue, this`records, this`deliveries, this`onChain, this`log, this`hand, this`runs
      ensures Valid() && old(log) <= log && records.Keys == old(records).Keys
      ensures r.Ok? ==> EndedOutside(old(View()), View(), {}, now)
      ensures reliable && (forall o :: checks(o).Ok? && !Refusable(RowOf(old(View()), o))) ==> r.Ok?
    {
      hide OnlyRow, RowEnded, Refusable, RowInv, EndedOutside, RowOf;
      var names := records.Keys;
      ghost var start := View();
      r := Ok(());
      NothingEnded(start, now);
      while names != {} && r.Ok?
        invariant Valid() && old(log) <= log && names <= records.Keys == old(records).Keys
        invariant r.Ok? ==> EndedOutside(start, View(), names, now)
        invariant reliable && (forall o :: checks(o).Ok? && !Refusable(RowOf(start, o))) ==> r.Ok?
        decreases names
      {
        var o :| o in names;
        ghost var before := View();
        Untouched(start, before, names, o, now);
        if !Closed(records[o].stage) {
          r := ProcessRecord(o, now, checks(o));
          SameKeys(before, View(), o);
        } else {
          Facts(o);
          ClosedIsEnded(View(), o, now);
        }
        if r.Ok? {
          OneMoreEnded(start, before, View(), names, o, now);
        }
        names := names - {o};
      }
    }

    /** One pass of the polling loop: unfinished records first, then one claim. Without an error every
        record known before and the claimed one have come to their end. */
    method Poll(newId: string, now: int, checks: OrderId -> Result<()>) returns (r: Result<()>)
      requires Valid()
      modifies queue, this
      ensures Valid() && old(log) <= log
      ensures r.Ok? ==> claimFile == None
      ensures r.Ok? ==> forall o | o in old(records) :: RowEnded(RowOf(old(View()), o), RowOf(View(), o), now)
      ensures r.Ok? ==> forall o | o in records && o !in old(records) :: RowEnded(Opened(RowOf(View(), o)), RowOf(View(), o), now)
      ensures reliable && (forall o :: checks(o).Ok? && !Refusable(RowOf(old(View()), o))) ==> r.Ok?
    {
      hide OnlyRow, RowEnded, RowInv, RowOf, EndedOutside;
      ghost var start := View();
      r := ProcessSaved(now, checks);
      if !r.Ok? {
        return;
      }
      ghost var saved := View();
      var claimed :- ClaimWork(newId, now);
      ghost var before := View();
      if claimed.Some? && !Closed(records[claimed.value].stage) {
        NewlyClaimed(start, saved, before, claimed.value, now);
        r := ProcessRecord(claimed.value, now, checks(claimed.value));
        if r.Ok? {
          ClaimedEnded(start, saved, before, View(), claimed.value, now);
        }
      } else {
        SavedEnded(start, saved, before, claimed, now);
      }
    }
  }
}
