/** Provider worker and job queue as one machine: what either side, the chain or a restart may do,
    and what holds after any sequence of it. */
module ProviderProtocol {
  import opened Effects
  import opened ProviderQueue

  datatype Stage = Claimed | Executing | Produced | Finished | Abandoned
  datatype Record = Record(category: Category, token: string, stage: Stage, output: Option<Output>,
                           attested: bool, readRetries: nat)

  /** What the running process remembers: an order it has just marked as executing, or the result
      of the work it has just done. */
  datatype Hand = Idle | Ready(order: OrderId) | Made(of: OrderId, output: Output)

  /** Saved records, the saved claim id, queue rows, signed deliveries, what of them is on chain, and
      memory. `runs` only remembers what each start of the work came to; no step looks at it. */
  datatype Plant = Plant(records: map<OrderId, Record>, claim: Option<string>, jobs: map<OrderId, Job>,
                         deliveries: map<OrderId, Digest>, onChain: map<OrderId, Digest>, hand: Hand, runs: map<OrderId, seq<Result<Output>>>)

  const EMPTY := Plant(map[], None, map[], map[], map[], Idle, map[])

  predicate Closed(s: Stage) {
    s == Finished || s == Abandoned
  }

  /** How every start of an order's work ended. */
  ghost function RunsOf(runs: map<OrderId, seq<Result<Output>>>, o: OrderId): seq<Result<Output>> {
    if o in runs then runs[o] else []
  }

  datatype Action =
    | Start
    | NewClaim(id: string)
    | DropClaim
    | Enqueue(order: OrderId, category: Category)
    | Claim(order: OrderId, token: string, now: int)
    | Adopt(order: OrderId)
    | Begin(order: OrderId)
    | Work(order: OrderId, result: Result<Output>)
    | Keep(order: OrderId)
    | Sign(order: OrderId)
    | Land(order: OrderId)
    | Note(order: OrderId)
    | Report(order: OrderId, now: int)
    | Abandon(order: OrderId, now: int)
    | Requeue(order: OrderId)
    | Reopen(order: OrderId)
    | Complete(order: OrderId)
    | Close(order: OrderId)

  ghost predicate InStage(w: Plant, o: OrderId, s: Stage) {
    o in w.records && w.records[o].stage == s
  }

  ghost predicate Unclaimed(jobs: map<OrderId, Job>, token: string) {
    forall o | o in jobs :: jobs[o].token != Some(token)
  }

  /** Work in doubt whose result is not at hand, or storage that has run out. */
  ghost predicate MayGiveUp(w: Plant, o: OrderId, now: int) {
    || (InStage(w, o, Executing) && w.hand == Idle)
    || (InStage(w, o, Produced) && w.records[o].category == Storage && w.records[o].output.Some? && o in w.jobs && w.jobs[o].state != Completed &&
        if w.records[o].attested then Lapsed(w.jobs[o], w.records[o].output.value, now) else w.records[o].output.value.expiresAt <= now)
  }

  ghost predicate Enabled(w: Plant, a: Action) {
    match a
    case Start => true
    case NewClaim(_) => w.claim == None
    case DropClaim => forall o | o in w.jobs && w.jobs[o].token == w.claim :: o in w.records
    case Enqueue(o, _) => o !in w.jobs
    case Claim(o, t, _) => w.claim == Some(t) && o in w.jobs && w.jobs[o].state == Queued && Unclaimed(w.jobs, t)
    case Adopt(o) => o !in w.records && o in w.jobs && w.jobs[o].token.Some?
    case Begin(o) => InStage(w, o, Claimed) && w.hand == Idle
    case Work(o, _) => w.hand == Ready(o)
    case Keep(o) => w.hand.Made? && w.hand.of == o && InStage(w, o, Executing)
    case Sign(o) => o in w.records && w.records[o].output.Some? && o !in w.deliveries
    case Land(o) => o in w.deliveries
    case Note(o) => InStage(w, o, Produced) && o in w.onChain
    case Report(o, now) => MayGiveUp(w, o, now) && o in w.jobs
    case Abandon(o, now) => MayGiveUp(w, o, now) && o in w.jobs && w.jobs[o].state == Failed
    case Requeue(o) => InStage(w, o, Abandoned) && o in w.jobs && Retryable(w.jobs[o])
    case Reopen(o) =>
      InStage(w, o, Abandoned) && ReadOnly(w.records[o].category) && w.records[o].output == None && !w.records[o].attested &&
      o in w.jobs && w.jobs[o].state == Running
    case Complete(o) =>
      InStage(w, o, Produced) && w.records[o].attested && w.records[o].output.Some? && o in w.jobs && w.jobs[o].state == Running &&
      o in w.onChain && w.onChain[o] == Digest(w.records[o].output.value)
    case Close(o) => InStage(w, o, Produced) && o in w.jobs && w.jobs[o].state == Completed && w.jobs[o].output == w.records[o].output
  }

  ghost function Step(w: Plant, a: Action): Plant
    requires Enabled(w, a)
  {
    match a
    case Start => w.(hand := Idle)
    case NewClaim(id) => w.(claim := Some(id))
    case DropClaim => w.(claim := None)
    case Enqueue(o, c) => w.(jobs := w.jobs[o := Job(c, Queued, None, 0, None, None)])
    case Claim(o, t, now) => w.(jobs := w.jobs[o := w.jobs[o].(state := Running, token := Some(t), leaseStartedAt := now)])
    case Adopt(o) => w.(records := w.records[o := Record(w.jobs[o].category, w.jobs[o].token.value, Claimed, None, false, 0)])
    case Begin(o) => w.(records := w.records[o := w.records[o].(stage := Executing)], hand := Ready(o))
    case Work(o, result) =>
      w.(runs := w.runs[o := RunsOf(w.runs, o) + [result]], hand := if result.Ok? then Made(o, result.value) else Idle)
    case Keep(o) => w.(records := w.records[o := w.records[o].(stage := Produced, output := Some(w.hand.output))], hand := Idle)
    case Sign(o) => w.(deliveries := w.deliveries[o := Digest(w.records[o].output.value)])
    case Land(o) => w.(onChain := w.onChain[o := w.deliveries[o]])
    case Note(o) => w.(records := w.records[o := w.records[o].(attested := true)])
    case Report(o, _) => w.(jobs := if w.jobs[o].state == Running then w.jobs[o := w.jobs[o].(state := Failed)] else w.jobs)
    case Abandon(o, _) => w.(records := w.records[o := w.records[o].(stage := Abandoned)])
    case Requeue(o) => w.(jobs := w.jobs[o := w.jobs[o].(state := Running)])
    case Reopen(o) => w.(records := w.records[o := w.records[o].(stage := Claimed, readRetries := w.records[o].readRetries + 1)])
    case Complete(o) =>
      var output := w.records[o].output.value;
      w.(jobs := w.jobs[o := w.jobs[o].(state := Completed, output := Some(output), attestation := Some(Digest(output)))])
    case Close(o) => w.(records := w.records[o := w.records[o].(stage := Finished)])
  }

  ghost predicate Took(before: Plant, a: Action, after: Plant) {
    Enabled(before, a) && after == Step(before, a)
  }

  // ---------------------------------------------------------------- what every run keeps, per order

  /** Everything the plant has about one order. */
  datatype Row = Row(record: Option<Record>, job: Option<Job>, delivery: Option<Digest>, landed: Option<Digest>, runs: seq<Result<Output>>)

  ghost function Look<T>(m: map<OrderId, T>, o: OrderId): Option<T> {
    if o in m then Some(m[o]) else None
  }

  ghost function RowOf(w: Plant, o: OrderId): Row {
    Row(Look(w.records, o), Look(w.jobs, o), Look(w.deliveries, o), Look(w.onChain, o), RunsOf(w.runs, o))
  }

  /** What a saved record says about its queue row and about the work already done for it. */
  ghost predicate RecordInv(r: Record, j: Job, runs: seq<Result<Output>>) {
    && j.token == Some(r.token) && j.category == r.category && j.state != Queued
    && (r.readRetries > 0 ==> ReadOnly(r.category))
    && (if r.stage == Claimed then |runs| <= r.readRetries else |runs| <= 1 + r.readRetries)
    && (r.output.Some? ==> runs != [] && runs[|runs| - 1] == Ok(r.output.value))
    && match r.stage
       case Claimed => r.output == None && !r.attested && j.state == Running
       case Executing => r.output == None && !r.attested && j.state != Completed
       case Produced => r.output.Some? && (j.state == Completed ==> j.output == r.output && r.attested) && (j.state == Failed ==> r.category == Storage)
       case Finished => r.output.Some? && j.state == Completed && j.output == r.output
       case Abandoned => (j.state == Failed || (j.state == Running && ReadOnly(r.category))) && (r.output.Some? ==> r.category == Storage)
  }

  /** A claimed job has a record, or its claim id is still on file and it waits. */
  ghost predicate RowInv(r: Row, claim: Option<string>) {
    && (r.job.Some? && r.job.value.token.Some? ==> r.record.Some? || (r.job.value.token == claim && r.job.value.state == Running))
    && (r.record.Some? ==> r.job.Some? && RecordInv(r.record.value, r.job.value, r.runs))
    && (r.job.Some? ==> JobInv(r.job.value))
    && (r.job.Some? && r.job.value.state == Completed ==> r.record.Some? && r.landed == r.job.value.attestation)
    && (r.runs != [] ==> r.record.Some?)
    && (r.delivery.Some? ==> r.record.Some? && r.record.value.output.Some? && r.delivery.value == Digest(r.record.value.output.value))
    && (r.landed.Some? ==> r.delivery == r.landed)
  }

  /** Work that is still to be started has not been started under the record's present retry, and the
      queue still waits for what is at hand. */
  ghost predicate HandInv(w: Plant) {
    match w.hand
    case Idle => true
    case Ready(o) => InStage(w, o, Executing) && o in w.jobs && w.jobs[o].state == Running && |RunsOf(w.runs, o)| <= w.records[o].readRetries
    case Made(o, output) =>
      InStage(w, o, Executing) && o in w.jobs && w.jobs[o].state == Running &&
      RunsOf(w.runs, o) != [] && RunsOf(w.runs, o)[|RunsOf(w.runs, o)| - 1] == Ok(output)
  }

  ghost predicate Inv(w: Plant) {
    HandInv(w) && forall o :: RowInv(RowOf(w, o), w.claim)
  }

  ghost predicate General(a: Action) {
    a.Start? || a.NewClaim? || a.DropClaim?
  }

  ghost predicate About(a: Action, o: OrderId) {
    !General(a) && a.order == o
  }

  lemma StepElsewhere(w: Plant, a: Action, o: OrderId)
    requires Enabled(w, a) && !About(a, o)
    ensures RowOf(Step(w, a), o) == RowOf(w, o)
    ensures !a.NewClaim? && !a.DropClaim? ==> Step(w, a).claim == w.claim
  {
  }

  lemma ClaimFileSafe(w: Plant, a: Action, o: OrderId)
    requires Enabled(w, a) && (a.NewClaim? || a.DropClaim?) && RowInv(RowOf(w, o), w.claim)
    ensures RowInv(RowOf(Step(w, a), o), Step(w, a).claim)
  {
  }

  lemma QueueRowSafe(w: Plant, a: Action)
    requires Enabled(w, a) && (a.Enqueue? || a.Claim? || a.Report? || a.Requeue? || a.Complete?) && RowInv(RowOf(w, a.order), w.claim)
    ensures RowInv(RowOf(Step(w, a), a.order), Step(w, a).claim)
  {
  }

  lemma RecordRowSafe(w: Plant, a: Action)
    requires Enabled(w, a) && (a.Adopt? || a.Begin? || a.Keep? || a.Note? || a.Abandon? || a.Reopen? || a.Close?)
    requires RowInv(RowOf(w, a.order), w.claim) && HandInv(w)
    ensures RowInv(RowOf(Step(w, a), a.order), Step(w, a).claim)
  {
  }

  lemma WorkRowSafe(w: Plant, a: Action)
    requires Enabled(w, a) && (a.Work? || a.Sign? || a.Land?) && RowInv(RowOf(w, a.order), w.claim) && HandInv(w)
    ensures RowInv(RowOf(Step(w, a), a.order), Step(w, a).claim)
  {
  }

  lemma HandSafe(w: Plant, a: Action)
    requires Enabled(w, a) && HandInv(w) && (!General(a) ==> RowInv(RowOf(w, a.order), w.claim))
    ensures HandInv(Step(w, a))
  {
  }

  lemma StepSafe(w: Plant, a: Action)
    requires Inv(w) && Enabled(w, a)
    ensures Inv(Step(w, a))
  {
    hide RowInv, HandInv, Enabled, Step, RowOf;
    HandSafe(w, a);
    forall o
      ensures RowInv(RowOf(Step(w, a), o), Step(w, a).claim)
    {
      if a.NewClaim? || a.DropClaim? {
        ClaimFileSafe(w, a, o);
      } else if !About(a, o) {
        StepElsewhere(w, a, o);
      } else if a.Enqueue? || a.Claim? || a.Report? || a.Requeue? || a.Complete? {
        QueueRowSafe(w, a);
      } else if a.Work? || a.Sign? || a.Land? {
        WorkRowSafe(w, a);
      } else {
        RecordRowSafe(w, a);
      }
    }
  }

  // ---------------------------------------------------------------- whole runs

  ghost predicate Legal(log: seq<Action>)
    decreases log, 0
  {
    log == [] || (Legal(log[..|log| - 1]) && Enabled(After(log[..|log| - 1]), log[|log| - 1]))
  }

  ghost function After(log: seq<Action>): Plant
    requires Legal(log)
    decreases log, 1
  {
    if log == [] then EMPTY else Step(After(log[..|log| - 1]), log[|log| - 1])
  }

  lemma Extend(log: seq<Action>, a: Action)
    requires Legal(log) && Enabled(After(log), a)
    ensures Legal(log + [a]) && After(log + [a]) == Step(After(log), a)
  {
    assert (log + [a])[..|log|] == log;
  }

  lemma EmptyIsSafe()
    ensures Inv(EMPTY)
  {
  }

  lemma {:induction false} RunSafe(log: seq<Action>)
    requires Legal(log)
    ensures Inv(After(log))
  {
    hide Inv, Step, Enabled;
    if log == [] {
      EmptyIsSafe();
    } else {
      RunSafe(log[..|log| - 1]);
      StepSafe(After(log[..|log| - 1]), log[|log| - 1]);
    }
  }

  /** What the work of an order came to, each time it was started. */
  ghost function Results(log: seq<Action>, o: OrderId): seq<Result<Output>> {
    if log == [] then []
    else Results(log[..|log| - 1], o) + match log[|log| - 1] case Work(p, result) => (if p == o then [result] else []) case _ => []
  }

  lemma {:induction false} RunsAreResults(log: seq<Action>, o: OrderId)
    requires Legal(log)
    ensures RunsOf(After(log).runs, o) == Results(log, o)
  {
    hide Enabled, Step;
    if log != [] {
      RunsAreResults(log[..|log| - 1], o);
      StepRuns(After(log[..|log| - 1]), log[|log| - 1], o);
    }
  }

  lemma StepRuns(w: Plant, a: Action, o: OrderId)
    requires Enabled(w, a)
    ensures RunsOf(Step(w, a).runs, o) == RunsOf(w.runs, o) + match a case Work(p, result) => (if p == o then [result] else []) case _ => []
  {
  }

  /** After any sequence of worker steps, queue steps, chain events and restarts: the work of an order
      was started at most once plus once per recorded read retry, so at most once where a run is
      charged; what is stored is what the last start came to; a finished record has its output in the
      queue and its digest on chain; a completed row holds the stored output; an abandoned record has
      a failed row, unless a read retry is under way, and no output, unless it is storage. */
  lemma WorkerAgreesWithQueue(log: seq<Action>, o: OrderId)
    requires Legal(log) && o in After(log).records
    ensures var w, tried := After(log), Results(log, o);
      var r := w.records[o];
      && |tried| <= 1 + r.readRetries
      && (r.category == Inference || r.category == Storage ==> |tried| <= 1)
      && (r.output.Some? ==> tried != [] && tried[|tried| - 1] == Ok(r.output.value))
      && o in w.jobs && w.jobs[o].token == Some(r.token) && w.jobs[o].category == r.category
      && (r.stage == Finished ==> w.jobs[o].state == Completed && w.jobs[o].output == r.output)
      && (r.stage == Abandoned ==> w.jobs[o].state == Failed || (w.jobs[o].state == Running && ReadOnly(r.category)))
      && (r.stage == Abandoned && r.output.Some? ==> r.category == Storage)
      && (w.jobs[o].state == Completed ==> w.jobs[o].output == r.output && r.output.Some? && Look(w.onChain, o) == Some(Digest(r.output.value)))
  {
    hide Enabled, Step, Legal, After;
    RunSafe(log);
    RunsAreResults(log, o);
    assert RowInv(RowOf(After(log), o), After(log).claim);
  }

  /** A stored output that is no storage is never given up, whatever happens after. */
  lemma OutputIsNeverAbandoned(log: seq<Action>, k: nat, o: OrderId)
    requires Legal(log) && k <= |log| && Legal(log[..k])
    requires o in After(log[..k]).records && After(log[..k]).records[o].output.Some? && After(log[..k]).records[o].category != Storage
    ensures o in After(log).records && After(log).records[o].stage != Abandoned && After(log).records[o].stage != Claimed
  {
    hide Enabled, Step, Legal, After, RowInv;
    StoredOutputStays(log, k, o);
    WorkerAgreesWithQueue(log, o);
    RunSafe(log);
    RowsAreSafe(After(log), o);
    OutputIsProduced(RowOf(After(log), o), After(log).claim);
  }

  lemma HandStep(w: Plant, a: Action, o: OrderId, output: Output)
    requires HandInv(w) && Enabled(w, a) && w.hand == Made(o, output) && a != Start
    ensures Step(w, a).hand == Made(o, output) || (o in Step(w, a).records && Step(w, a).records[o].output == Some(output))
  {
  }

  /** A result the process has in memory is stored, unless the process starts over. */
  lemma {:induction false} ResultIsKept(log: seq<Action>, k: nat, o: OrderId, output: Output)
    requires Legal(log) && k <= |log| && Legal(log[..k]) && After(log[..k]).hand == Made(o, output)
    requires forall i | k <= i < |log| :: log[i] != Start
    ensures After(log).hand == Made(o, output) || (o in After(log).records && After(log).records[o].output == Some(output))
    decreases |log|
  {
    hide Enabled, Step, HandInv, RowKept;
    if k < |log| {
      var rest := log[..|log| - 1];
      assert rest[..k] == log[..k];
      ResultIsKept(rest, k, o, output);
      RunSafe(rest);
      if After(rest).hand == Made(o, output) {
        HandStep(After(rest), log[|log| - 1], o, output);
      } else {
        StepKeepsRow(After(rest), log[|log| - 1], o);
        OutputKept(RowOf(After(rest), o), RowOf(After(log), o));
      }
    } else {
      assert log[..k] == log;
    }
  }

  lemma OutputKept(r: Row, s: Row)
    requires RowKept(r, s) && r.record.Some? && r.record.value.output.Some?
    ensures s.record.Some? && s.record.value.output == r.record.value.output
  {
  }

  lemma OutputIsProduced(r: Row, claim: Option<string>)
    requires RowInv(r, claim) && r.record.Some? && r.record.value.output.Some?
    ensures r.record.value.stage != Claimed && r.record.value.stage != Executing
  {
  }

  /** However replies are lost, a job the queue has given away has a record, or the worker still
      holds the claim id that gets it the same job again. */
  lemma NoClaimIsLost(log: seq<Action>, o: OrderId)
    requires Legal(log) && o in After(log).jobs && After(log).jobs[o].token.Some?
    ensures o in After(log).records || After(log).claim == After(log).jobs[o].token
  {
    hide Enabled, Step, Legal, After;
    RunSafe(log);
    assert RowInv(RowOf(After(log), o), After(log).claim);
  }

  /** Nothing was started or completed for an order the worker has no record of. */
  lemma NoRecordNoWork(log: seq<Action>, o: OrderId)
    requires Legal(log) && o !in After(log).records
    ensures Results(log, o) == [] && (o in After(log).jobs ==> After(log).jobs[o].state != Completed)
    ensures o !in After(log).deliveries && o !in After(log).onChain
  {
    hide Enabled, Step, Legal, After;
    RunSafe(log);
    RunsAreResults(log, o);
    assert RowInv(RowOf(After(log), o), After(log).claim);
  }

  /** A record only moves forward, and what it has stored or what the queue has completed is final. */
  ghost predicate RowKept(r: Row, s: Row) {
    && (r.record.Some? ==> s.record.Some? && s.record.value.category == r.record.value.category
                           && s.record.value.token == r.record.value.token && r.record.value.readRetries <= s.record.value.readRetries)
    && (r.record.Some? && r.record.value.output.Some? ==> s.record.value.output == r.record.value.output)
    && (r.record.Some? && r.record.value.stage == Finished ==> s.record == r.record)
    && (r.delivery.Some? ==> s.delivery == r.delivery) && (r.landed.Some? ==> s.landed == r.landed)
    && (r.job.Some? ==> s.job.Some? && JobKept(r.job.value, s.job.value))
  }

  lemma StepKeepsRow(w: Plant, a: Action, o: OrderId)
    requires Inv(w) && Enabled(w, a)
    ensures RowKept(RowOf(w, o), RowOf(Step(w, a), o))
  {
    hide RowInv, HandInv, RowKept, Enabled, Step, RowOf;
    RowsAreSafe(w, o);
    if !About(a, o) {
      StepElsewhere(w, a, o);
      RowHasJobInv(RowOf(w, o), w.claim);
      KeptSame(RowOf(w, o));
    } else {
      OwnRowKept(w, a);
    }
  }

  lemma RowHasJobInv(r: Row, claim: Option<string>)
    requires RowInv(r, claim)
    ensures r.job.Some? ==> JobInv(r.job.value)
  {
  }

  lemma OwnRowKept(w: Plant, a: Action)
    requires Enabled(w, a) && !General(a) && RowInv(RowOf(w, a.order), w.claim) && HandInv(w)
    ensures RowKept(RowOf(w, a.order), RowOf(Step(w, a), a.order))
  {
  }

  lemma KeptTwice(r: Row, s: Row, t: Row)
    requires RowKept(r, s) && RowKept(s, t)
    ensures RowKept(r, t)
  {
  }

  lemma KeptSame(r: Row)
    requires r.job.Some? ==> JobInv(r.job.value)
    ensures RowKept(r, r)
  {
  }

  /** A stored output, a signed delivery, a finished record and a completed row never change again. */
  lemma {:induction false} StoredOutputStays(log: seq<Action>, k: nat, o: OrderId)
    requires Legal(log) && k <= |log| && Legal(log[..k])
    ensures RowKept(RowOf(After(log[..k]), o), RowOf(After(log), o))
    decreases |log|
  {
    hide RowKept, RowOf, Enabled, Step, Inv;
    if k < |log| {
      var rest := log[..|log| - 1];
      assert rest[..k] == log[..k];
      StoredOutputStays(rest, k, o);
      RunSafe(rest);
      StepKeepsRow(After(rest), log[|log| - 1], o);
      KeptTwice(RowOf(After(log[..k]), o), RowOf(After(rest), o), RowOf(After(log), o));
    } else {
      assert log[..k] == log;
      RunSafe(log);
      RowsAreSafe(After(log), o);
      RowHasJobInv(RowOf(After(log), o), After(log).claim);
      KeptSame(RowOf(After(log), o));
    }
  }

  lemma RowsAreSafe(w: Plant, o: OrderId)
    requires Inv(w)
    ensures RowInv(RowOf(w, o), w.claim)
  {
  }
}
