/** The file of runs: every action is announced on disk before it starts, and an announced action
    found at start-up counts as failed. */
module RunStore {
  import opened Effects
  import opened Policy
  import opened RunEngine
  import opened Engine

  datatype Stored = Stored(owner: string, run: Job, inFlight: Option<Stage>)

  /** The file and the paid calls made so far. */
  datatype Disk = Disk(records: seq<Stored>, calls: seq<Call>)

  function Interrupted(v: Job, stage: Stage): Job {
    v.(status := Failed, events := AppendAudit(v.events, Broker, Blocked, "Interrupted operation", ""))
  }

  /** The run a reader gets. */
  function Recover(x: Stored): Job {
    if x.inFlight.Some? then Interrupted(x.run, x.inFlight.value) else x.run
  }

  /** An announced operation reads as failed, and the log says why; nothing else changes. */
  lemma AnnouncedReadsFailed(x: Stored)
    requires x.inFlight.Some?
    ensures Recover(x) == x.run.(status := Failed, events := Recover(x).events)
    ensures Notes(Recover(x).events) == Notes(x.run.events) + [Note(Broker, Blocked, "Interrupted operation")]
  {
  }

  ghost predicate DistinctIds(records: seq<Stored>) {
    forall i, j | 0 <= i < j < |records| :: records[i].run.id != records[j].run.id
  }

  /** Records hold only sound runs, and no run has paid twice for anything. */
  ghost predicate Consistent(d: Disk) {
    && DistinctIds(d.records)
    && (forall k | 0 <= k < |d.records| :: Sound(d.records[k].run) && Counted(Recover(d.records[k]), d.calls))
    && (forall c | c in d.calls :: exists k | 0 <= k < |d.records| :: d.records[k].run.id == c.runId)
  }

  // ---------------------------------------------------------------- what one operation does to the disk

  ghost predicate Inserted(d: Disk, e: Disk) {
    && |e.records| == |d.records| + 1 && e.records[..|d.records|] == d.records && e.calls == d.calls
    && var x := e.records[|d.records|];
       x.inFlight.None? && Sound(x.run) && x.run.status.Ready? && x.run.stage.MandateStage?
       && forall k | 0 <= k < |d.records| :: d.records[k].run.id != x.run.id
  }

  /** An action on record `k` that reached its final write. */
  ghost predicate Finished(d: Disk, e: Disk, k: nat) {
    && k < |d.records| == |e.records|
    && e.records == d.records[k := Stored(d.records[k].owner, e.records[k].run, None)]
    && d.calls <= e.calls && EngineStep(Recover(d.records[k]), e.records[k].run, e.calls[|d.calls|..])
  }

  /** An action on record `k` that did not: its announcement stays, and so do its calls. */
  ghost predicate CutOff(d: Disk, e: Disk, k: nat) {
    && k < |d.records| && d.calls <= e.calls
    && e.records == d.records[k := Stored(d.records[k].owner, Recover(d.records[k]), Some(Recover(d.records[k]).stage))]
    && exists w :: EngineStep(Recover(d.records[k]), w, e.calls[|d.calls|..])
  }

  ghost predicate DiskStep(d: Disk, e: Disk) {
    e == d || Inserted(d, e) || exists k: nat :: Finished(d, e, k) || CutOff(d, e, k)
  }

  lemma InterruptedIsSound(x: Stored)
    requires Sound(x.run)
    ensures Sound(Recover(x))
  {
  }

  lemma {:induction false} CallsOfOthers(calls: seq<Call>, id: string, rail: Rail)
    requires forall c | c in calls :: c.runId != id
    ensures CallsFor(calls, id, rail) == []
  {
    if calls != [] {
      CallsOfOthers(calls[..|calls| - 1], id, rail);
    }
  }

  lemma OwnCalls(v: Job, w: Job, calls: seq<Call>)
    requires EngineStep(v, w, calls)
    ensures forall c | c in calls :: c.runId == v.id
    ensures w.id == v.id
  {
    hide Fits, SameMoney, Settles, Covers, Chained;
  }

  lemma OthersUncounted(x: Job, before: seq<Call>, calls: seq<Call>, id: string)
    requires Counted(x, before) && x.id != id && forall c | c in calls :: c.runId == id
    ensures Counted(x, before + calls)
  {
    CallsForAdds(before, calls, x.id, Hedera);
    CallsForAdds(before, calls, x.id, Arc);
    CallsOfOthers(calls, x.id, Hedera);
    CallsOfOthers(calls, x.id, Arc);
  }

  lemma InsertKeeps(d: Disk, e: Disk)
    requires Consistent(d) && Inserted(d, e)
    ensures Consistent(e)
  {
    hide Sound, CallsFor;
    var n := |d.records|;
    var x := e.records[n];
    assert forall k | 0 <= k < n :: e.records[k] == e.records[..n][k];
    CallsOfOthers(d.calls, x.run.id, Hedera);
    CallsOfOthers(d.calls, x.run.id, Arc);
  }

  lemma ActionKeeps(d: Disk, e: Disk, k: nat, w: Job, x: Stored)
    requires Consistent(d) && k < |d.records| && d.calls <= e.calls
    requires EngineStep(Recover(d.records[k]), w, e.calls[|d.calls|..])
    requires e.records == d.records[k := x] && Sound(x.run) && x.run.id == w.id
    requires Counted(Recover(x), e.calls)
    ensures Consistent(e)
  {
    hide Sound, CallsFor, Counted, EngineStep;
    var v, calls := Recover(d.records[k]), e.calls[|d.calls|..];
    OwnCalls(v, w, calls);
    assert e.calls == d.calls + calls;
    forall j | 0 <= j < |e.records|
      ensures Sound(e.records[j].run) && Counted(Recover(e.records[j]), e.calls)
    {
      if j != k {
        assert e.records[j] == d.records[j];
        OthersUncounted(Recover(d.records[j]), d.calls, calls, v.id);
      }
    }
    forall c | c in e.calls
      ensures exists j | 0 <= j < |e.records| :: e.records[j].run.id == c.runId
    {
      if c in d.calls {
        var j :| 0 <= j < |d.records| && d.records[j].run.id == c.runId;
        assert e.records[j].run.id == c.runId;
      } else {
        assert c in calls && e.records[k].run.id == c.runId;
      }
    }
  }

  lemma FinishedKeeps(d: Disk, e: Disk, k: nat)
    requires Consistent(d) && Finished(d, e, k)
    ensures Consistent(e)
  {
    hide Sound, Counted, EngineStep;
    var v, w := Recover(d.records[k]), e.records[k].run;
    var calls := e.calls[|d.calls|..];
    InterruptedIsSound(d.records[k]);
    StepKeepsSound(v, w, calls);
    StepKeepsCount(v, w, calls, d.calls);
    assert e.calls == d.calls + calls;
    OwnCalls(v, w, calls);
    ActionKeeps(d, e, k, w, e.records[k]);
  }

  lemma CutOffKeeps(d: Disk, e: Disk, k: nat)
    requires Consistent(d) && CutOff(d, e, k)
    ensures Consistent(e)
  {
    hide Sound, EngineStep;
    var v := Recover(d.records[k]);
    var calls := e.calls[|d.calls|..];
    var w :| EngineStep(v, w, calls);
    InterruptedIsSound(d.records[k]);
    StepKeepsCount(v, w, calls, d.calls);
    assert e.calls == d.calls + calls;
    OwnCalls(v, w, calls);
    ActionKeeps(d, e, k, w, e.records[k]);
  }

  lemma DiskStepKeeps(d: Disk, e: Disk)
    requires Consistent(d) && DiskStep(d, e)
    ensures Consistent(e)
  {
    hide Consistent, Finished, CutOff, Inserted;
    if e != d {
      if Inserted(d, e) {
        InsertKeeps(d, e);
      } else {
        var k: nat :| Finished(d, e, k) || CutOff(d, e, k);
        if Finished(d, e, k) {
          FinishedKeeps(d, e, k);
        } else {
          CutOffKeeps(d, e, k);
        }
      }
    }
  }

  // ---------------------------------------------------------------- every run of the server

  ghost predicate Life(ds: seq<Disk>) {
    ds != [] && ds[0] == Disk([], []) && forall k | 0 < k < |ds| :: DiskStep(ds[k - 1], ds[k])
  }

  lemma {:induction false} LifeIsConsistent(ds: seq<Disk>)
    requires Life(ds)
    ensures Consistent(ds[|ds| - 1])
    decreases |ds|
  {
    hide DiskStep;
    if |ds| > 1 {
      var before := ds[..|ds| - 1];
      assert forall k | 0 <= k < |before| :: before[k] == ds[k];
      LifeIsConsistent(before);
      DiskStepKeeps(ds[|ds| - 2], ds[|ds| - 1]);
    }
  }

  /** At any moment of any life with any number of crashes: each run has called for its data at most
      once and for its verification at most once, what it has booked is what its receipts add up to,
      within the mandate its controller signed for, and its log verifies. */
  lemma LifeIsSafe(ds: seq<Disk>, k: nat)
    requires Life(ds) && k < |ds[|ds| - 1].records|
    ensures var d := ds[|ds| - 1];
      var v := Recover(d.records[k]);
      && |CallsFor(d.calls, v.id, Hedera)| <= 1 && |CallsFor(d.calls, v.id, Arc)| <= 1
      && v.dataSpent == Spent(v.receipts, Hedera) <= v.mandate.dataBudget
      && v.verificationSpent == Spent(v.receipts, Arc) <= v.mandate.verificationBudget
      && Signed(v.authorizations, v.mandate) && Chained(v.events)
  {
    LifeIsConsistent(ds);
    InterruptedIsSound(ds[|ds| - 1].records[k]);
  }

  lemma {:induction false} RecordsStay(ds: seq<Disk>, i: nat, j: nat, k: nat)
    requires Life(ds) && i <= j < |ds| && k < |ds[i].records|
    ensures k < |ds[j].records|
    decreases j
  {
    hide EngineStep, Recover;
    if i < j {
      RecordsStay(ds, i, j - 1, k);
      assert DiskStep(ds[j - 1], ds[j]);
    }
  }

  /** A failed run stays failed, whatever happens to the server. */
  lemma {:induction false} FailedStays(ds: seq<Disk>, i: nat, j: nat, k: nat)
    requires Life(ds) && i <= j < |ds| && k < |ds[i].records| && Recover(ds[i].records[k]).status.Failed?
    ensures k < |ds[j].records| && Recover(ds[j].records[k]).status.Failed?
    ensures SameMoney(Recover(ds[i].records[k]), Recover(ds[j].records[k]))
    decreases j
  {
    hide EngineStep, AppendAudit, DiskStep;
    if i < j {
      FailedStays(ds, i, j - 1, k);
      assert DiskStep(ds[j - 1], ds[j]);
      EndedStep(ds[j - 1], ds[j], k);
      assert CutOff(ds[j - 1], ds[j], k) || Recover(ds[j].records[k]) == Recover(ds[j - 1].records[k]);
    }
  }

  /** A step leaves an ended run as it reads, or cuts an action on it off. */
  lemma EndedStep(d: Disk, e: Disk, k: nat)
    requires DiskStep(d, e) && k < |d.records|
    requires Recover(d.records[k]).status.Failed? || Recover(d.records[k]).status.Completed?
    ensures k < |e.records| && SameMoney(Recover(d.records[k]), Recover(e.records[k]))
    ensures CutOff(d, e, k) ==> Recover(e.records[k]).status.Failed?
    ensures !CutOff(d, e, k) ==> Recover(e.records[k]) == Recover(d.records[k])
  {
    hide EngineStep, AppendAudit;
    var v := Recover(d.records[k]);
    if e != d && !Inserted(d, e) {
      var j: nat :| Finished(d, e, j) || CutOff(d, e, j);
      if j == k && Finished(d, e, j) {
        EndedStays(v, e.records[k].run, e.calls[|d.calls|..]);
      }
    }
  }

  /** In every life a completed run stays completed exactly as long as no action on it is cut off. */
  lemma {:induction false} CompletedUntilCutOff(ds: seq<Disk>, i: nat, j: nat, k: nat)
    requires Life(ds) && i <= j < |ds| && k < |ds[i].records| && Recover(ds[i].records[k]).status.Completed?
    ensures k < |ds[j].records|
    ensures Recover(ds[j].records[k]).status.Completed? <==> forall m | i < m <= j :: !CutOff(ds[m - 1], ds[m], k)
    ensures Recover(ds[j].records[k]).status.Completed? || Recover(ds[j].records[k]).status.Failed?
    decreases j
  {
    hide CutOff, Recover, DiskStep;
    if i < j {
      CompletedUntilCutOff(ds, i, j - 1, k);
      assert DiskStep(ds[j - 1], ds[j]);
      EndedStep(ds[j - 1], ds[j], k);
    }
  }

  lemma LifeExtends(ds: seq<Disk>, e: Disk)
    requires Life(ds) && DiskStep(ds[|ds| - 1], e)
    ensures Life(ds + [e])
  {
    hide DiskStep;
    var longer := ds + [e];
    forall m | 0 < m < |longer|
      ensures DiskStep(longer[m - 1], longer[m])
    {
      assert longer[m - 1] == ds[m - 1];
      if m < |ds| {
        assert longer[m] == ds[m];
      }
    }
  }

  /** From every life with a completed run, one interrupted click leads to a life in which it failed. */
  lemma CompletedCanFail(ds: seq<Disk>, k: nat) returns (e: Disk)
    requires Life(ds) && k < |ds[|ds| - 1].records| && Recover(ds[|ds| - 1].records[k]).status.Completed?
    ensures Life(ds + [e]) && k < |e.records| && Recover(e.records[k]).status.Failed?
    ensures e.calls == ds[|ds| - 1].calls && SameMoney(Recover(ds[|ds| - 1].records[k]), Recover(e.records[k]))
  {
    hide EngineStep, AppendAudit, DiskStep;
    var d := ds[|ds| - 1];
    var v := Recover(d.records[k]);
    e := Disk(d.records[k := Stored(d.records[k].owner, v, Some(v.stage))], d.calls);
    NothingDone(v);
    assert e.calls[|d.calls|..] == [];
    CutOffIsStep(d, e, k);
    LifeExtends(ds, e);
  }

  lemma CutOffIsStep(d: Disk, e: Disk, k: nat)
    requires CutOff(d, e, k)
    ensures DiskStep(d, e)
  {
  }

  // ---------------------------------------------------------------- a life that completes a run

  const SAMPLE_MANDATE := Mandate(2000000, 150000, 100000, ["repo-standard"], 1000, 1, None)
  const SAMPLE_RUN := Job("run", true, ["a/b"], Ready, MandateStage, SAMPLE_MANDATE, [], None, 0, 0, [], [], [], false, None, None, [])
  const SAMPLE_PROVIDER := Provider("repo-standard", "hedera:testnet", "HBAR", 100000)

  ghost function SampleReceipts(): seq<Receipt> {
    [Receipt(DataRequest("run"), Hedera, "HBAR", 100000, true, true, Some("paid")),
     Receipt(VerificationRequest("run"), Arc, "USDC", 50000, true, true, Some("paid"))]
  }

  ghost function SampleCalls(): seq<Call> {
    [BuyData("run", DataRequest("run"), "repo-standard", 100000, 100000, 0), BuyVerification("run", VerificationRequest("run"), 50000)]
  }

  /** The run before each of its five steps and after the last. */
  ghost function SampleRun(n: nat): Job
    requires n <= 5
  {
    var bought := SAMPLE_RUN.(status := Running, providers := [SAMPLE_PROVIDER], selected := Some("repo-standard"),
                              dataSpent := 100000, evidence := ["a/b"], receipts := SampleReceipts()[..1]);
    if n == 0 then SAMPLE_RUN
    else if n == 1 then SAMPLE_RUN.(status := Running, stage := Discovery)
    else if n == 2 then SAMPLE_RUN.(status := Running, stage := Purchase)
    else if n == 3 then bought.(stage := ReportStage)
    else if n == 4 then bought.(stage := Verification, report := Some(Report(["a/b"], false)))
    else bought.(status := Completed, stage := Complete, report := Some(Report(["a/b"], true)),
                 verificationSpent := 50000, receipts := SampleReceipts())
  }

  ghost function CallsBefore(n: nat): nat {
    if n <= 2 then 0 else if n <= 4 then 1 else 2
  }

  ghost function SampleDisk(owner: string, n: nat): Disk
    requires n <= 5
  {
    Disk([Stored(owner, SampleRun(n), None)], SampleCalls()[..CallsBefore(n)])
  }

  lemma SampleStarts()
    ensures Sound(SAMPLE_RUN)
  {
  }

  lemma SampleBuys()
    ensures BoughtData(SampleRun(2), SampleRun(3), [SampleCalls()[0]])
  {
    assert SampleRun(3).evidence == ["a/b"];
    assert (set e | e in ["a/b"]) == {"a/b"};
  }

  lemma SampleVerifies()
    ensures BoughtVerification(SampleRun(4), SampleRun(5), [SampleCalls()[1]])
  {
  }

  lemma SampleSteps(n: nat)
    requires n < 5
    ensures EngineStep(SampleRun(n), SampleRun(n + 1), SampleCalls()[CallsBefore(n)..CallsBefore(n + 1)])
  {
    var calls := SampleCalls()[CallsBefore(n)..CallsBefore(n + 1)];
    assert SameRun(SampleRun(n), SampleRun(n + 1));
    if n == 2 {
      assert calls == [SampleCalls()[0]];
      SampleBuys();
    } else if n == 4 {
      assert calls == [SampleCalls()[1]];
      SampleVerifies();
    } else {
      assert MovedOn(SampleRun(n), SampleRun(n + 1), calls);
    }
  }

  lemma SampleDiskSteps(owner: string, n: nat)
    requires n < 5
    ensures DiskStep(SampleDisk(owner, n), SampleDisk(owner, n + 1))
  {
    hide EngineStep, SampleRun, SampleCalls;
    SampleSteps(n);
    var d, e := SampleDisk(owner, n), SampleDisk(owner, n + 1);
    SampleCallCount();
    assert e.calls[|d.calls|..] == SampleCalls()[CallsBefore(n)..CallsBefore(n + 1)];
    assert Finished(d, e, 0);
  }

  lemma SampleCallCount()
    ensures |SampleCalls()| == 2
  {
  }

  /** A life in which a run is created, pays for its data and its verification, and completes. */
  lemma {:induction false} SampleLife(owner: string, n: nat) returns (ds: seq<Disk>)
    requires n <= 5
    ensures Life(ds) && ds[|ds| - 1] == SampleDisk(owner, n)
    decreases n
  {
    hide DiskStep, SampleRun, SampleCalls;
    if n == 0 {
      SampleBegins(owner);
      LifeExtends([Disk([], [])], SampleDisk(owner, 0));
      ds := [Disk([], [])] + [SampleDisk(owner, 0)];
    } else {
      ds := SampleLife(owner, n - 1);
      SampleDiskSteps(owner, n - 1);
      LifeExtends(ds, SampleDisk(owner, n));
      ds := ds + [SampleDisk(owner, n)];
    }
  }

  lemma SampleBegins(owner: string)
    ensures DiskStep(Disk([], []), SampleDisk(owner, 0))
  {
    hide Sound;
    SampleStarts();
    assert SampleCalls()[..0] == [];
    assert Inserted(Disk([], []), SampleDisk(owner, 0));
  }

  /** Completion is reached in some life and lost in the next moment of another. */
  lemma CompletedIsReachedAndLost(owner: string) returns (ds: seq<Disk>, e: Disk)
    ensures Life(ds) && |ds[|ds| - 1].records| == 1 && Recover(ds[|ds| - 1].records[0]).status.Completed?
    ensures ds[|ds| - 1].calls == SampleCalls()
    ensures Life(ds + [e]) && |e.records| == 1 && Recover(e.records[0]).status.Failed?
  {
    ds := SampleLife(owner, 5);
    assert SampleCalls()[..2] == SampleCalls();
    e := CompletedCanFail(ds, 0);
    RecordsStay(ds + [e], |ds| - 1, |ds|, 0);
  }

  // ---------------------------------------------------------------- the store

  datatype Action = Advance(answers: Answers, now: int) | Pause | Approve(signed: bool, now: int) | Shock(quotes: seq<Provider>)

  /** The runs an action may be used on. */
  ghost predicate Permitted(v: Job, action: Action) {
    && v.live
    && match action
       case Advance(_, _) => true
       case Pause => Active(v.status) || v.status.Paused?
       case Approve(signed, now) =>
         && signed && v.status.AwaitingApproval? && v.approval.Some? && now < v.approval.value.expiresAt
         && v.approval.value.proposed.version == v.mandate.version + 1
       case Shock(quotes) => quotes != [] && BeforePurchase(v.stage) && (Active(v.status) || v.status.Paused?)
  }

  /** Record `k` is the one of this owner and id, and the action has made `result` of it. */
  ghost predicate TookEffect(d: Disk, e: Disk, k: nat, owner: string, id: string, action: Action, result: Job) {
    && k < |d.records| && k < |e.records| && d.calls <= e.calls
    && d.records[k].owner == owner && d.records[k].run.id == id && e.records[k].run == result
    && Did(Recover(d.records[k]), action, result, e.calls[|d.calls|..])
  }

  /** What an action makes of a run. */
  ghost predicate Did(v: Job, action: Action, w: Job, calls: seq<Call>) {
    match action
    case Advance(answers, now) => if Active(v.status) then Outcome(v, w, calls, answers, now) else w == v && calls == []
    case Pause => PauseFlipped(v, w, calls)
    case Approve(_, _) => WasApproved(v, w, calls)
    case Shock(quotes) => Repriced(v, w, calls) && w.providers == quotes
  }

  function RunsOf(records: seq<Stored>, owner: string): seq<Job> {
    if records == [] then []
    else
      var last := records[|records| - 1];
      (if last.owner == owner then [Recover(last)] else []) + RunsOf(records[..|records| - 1], owner)
  }

  function OwnedBy(records: seq<Stored>, owner: string): nat {
    |set k | 0 <= k < |records| && records[k].owner == owner|
  }

  /** The first record of this owner with this id, if any. */
  method Find(records: seq<Stored>, owner: string, id: string) returns (found: Option<nat>)
    ensures found.Some? ==> found.value < |records| && records[found.value].owner == owner && records[found.value].run.id == id
    ensures found.None? ==> forall k | 0 <= k < |records| :: records[k].owner != owner || records[k].run.id != id
  {
    for k := 0 to |records|
      invariant forall j | 0 <= j < k :: records[j].owner != owner || records[j].run.id != id
    {
      if records[k].owner == owner && records[k].run.id == id {
        return Some(k);
      }
    }
    return None;
  }

  class Store {
    /** The file; `g` is the outside world, which is never rolled back. A reliable disk fails no
        read and no write. */
    var file: seq<Stored>
    const g: Gateway
    const reliable: bool

    ghost function View(): Disk
      reads this, g
    {
      Disk(file, g.calls)
    }

    constructor (reliable: bool)
      ensures fresh(g) && View() == Disk([], []) && this.reliable == reliable
    {
      file := [];
      this.reliable := reliable;
      g := new Gateway();
    }

    /** Written beside the file and renamed over it. */
    method Write(records: seq<Stored>) returns (r: Result<()>)
      modifies this`file
      ensures file == records || (file == old(file) && !r.Ok?)
      ensures reliable ==> r.Ok?
    {
      r := *;
      if reliable {
        r := Ok(());
      }
      var renamed: bool := *;
      if r.Ok? || renamed {
        file := records;
      }
    }

    method Read() returns (r: Result<seq<Stored>>)
      ensures r.Ok? ==> r.value == file
      ensures reliable ==> r.Ok?
    {
      var failed: bool := *;
      return if failed && !reliable then Threw else Ok(file);
    }

    method List(owner: string) returns (r: Result<seq<Job>>)
      ensures r.Ok? ==> r.value == RunsOf(file, owner)
      ensures reliable ==> r.Ok?
    {
      var records :- Read();
      var runs: seq<Job> := [];
      for k := 0 to |records|
        invariant runs == RunsOf(records[..k], owner)
      {
        assert records[..k + 1][..k] == records[..k];
        if records[k].owner == owner {
          runs := [Recover(records[k])] + runs;
        }
      }
      assert records[..|records|] == records;
      return Ok(runs);
    }

    method Get(owner: string, id: string) returns (r: Result<Job>)
      ensures r.Ok? ==> exists k | 0 <= k < |file| :: file[k].owner == owner && file[k].run.id == id && r.value == Recover(file[k])
      ensures reliable ==> (r.Ok? <==> exists k | 0 <= k < |file| :: file[k].owner == owner && file[k].run.id == id)
    {
      var records :- Read();
      var k := Find(records, owner, id);
      if k.None? {
        return Threw;
      }
      return Ok(Recover(records[k.value]));
    }

    method Insert(owner: string, run: Job) returns (r: Result<Job>)
      requires Consistent(View())
      requires Sound(run) && run.status.Ready? && run.stage.MandateStage?
      requires forall k | 0 <= k < |file| :: file[k].run.id != run.id
      modifies this`file
      ensures Consistent(View()) && DiskStep(old(View()), View())
      ensures r.Ok? ==> Inserted(old(View()), View()) && file[|old(file)|] == Stored(owner, run, None)
      ensures r.Ok? ==> |set k | 0 <= k < |old(file)| && old(file)[k].owner == owner| < 50 && |old(file)| < 500
      ensures reliable ==> (r.Ok? <==> |set k | 0 <= k < |old(file)| && old(file)[k].owner == owner| < 50 && |old(file)| < 500)
      ensures r.Ok? ==> r.value == run
    {
      hide Consistent, Sound;
      ghost var d := View();
      var records :- Read();
      if OwnedBy(records, owner) >= 50 || |records| >= 500 {
        return Threw;
      }
      var w := Write(records + [Stored(owner, run, None)]);
      if file != d.records {
        assert Inserted(d, View());
      }
      DiskStepKeeps(d, View());
      if !w.Ok? {
        return if w.Threw? then Threw else Crashed;
      }
      return Ok(run);
    }

    method Perform(run: Run, action: Action) returns (r: Result<()>)
      requires Sound(run.View())
      modifies run, g
      ensures old(g.calls) <= g.calls
      ensures r.Ok? ==> Permitted(old(run.View()), action) && Did(old(run.View()), action, run.View(), g.calls[|old(g.calls)|..])
      ensures r.Threw? <==> !Permitted(old(run.View()), action)
      ensures r.Threw? ==> run.View() == old(run.View()) && g.calls == old(g.calls)
      ensures !r.Crashed? ==> EngineStep(old(run.View()), run.View(), g.calls[|old(g.calls)|..])
      ensures r.Crashed? ==> exists w :: EngineStep(old(run.View()), w, g.calls[|old(g.calls)|..])
      ensures r.Crashed? ==> action.Advance? && DiedIn(old(run.stage), action.answers)
    {
      hide Sound, Outcome;
      ghost var v, before := run.View(), g.calls;
      assert before[|before|..] == [];
      match action
      case Advance(answers, now) =>
        r := run.AdvanceRun(g, answers, now);
        CallsAreAStep(v, before, g.calls);
      case Pause =>
        r := run.PauseRun();
      case Approve(signed, now) =>
        r := run.ApproveRun(signed, now);
      case Shock(quotes) =>
        r := run.ApplyShock(quotes);
    }

    /** The action is announced on disk before it starts; its result is written when it ends. */
    method Mutate(owner: string, id: string, action: Action) returns (r: Result<Job>)
      requires Consistent(View())
      modifies this`file, g
      ensures Consistent(View()) && DiskStep(old(View()), View())
      ensures r.Ok? ==> exists k: nat :: Finished(old(View()), View(), k) && TookEffect(old(View()), View(), k, owner, id, action, r.value)
      ensures reliable && !r.Crashed? ==> (r.Ok? <==> exists x :: x in old(file) && x.owner == owner && x.run.id == id && Permitted(Recover(x), action))
      ensures r.Threw? && reliable ==> |file| == |old(file)| && forall k | 0 <= k < |file| :: Recover(file[k]) == Recover(old(file)[k])
    {
      hide Consistent, Sound, Finished, CutOff, Did, Permitted, Recover;
      ghost var d := View();
      var records :- Read();
      var found := Find(records, owner, id);
      if found.None? {
        return Threw;
      }
      var k := found.value;
      OnlyThatId(d, k);
      var v := Recover(records[k]);
      var w := Write(records[k := Stored(owner, v, Some(v.stage))]);
      if !w.Ok? {
        if View() != d {
          AnnouncedKeeps(d, View(), k);
        }
        return if w.Threw? then Threw else Crashed;
      }
      r := PerformAnnounced(k, action, d);
    }

    /** The announcement of an action on record `k` of `d` is on disk. */
    method PerformAnnounced(k: nat, action: Action, ghost d: Disk) returns (r: Result<Job>)
      requires Consistent(d) && k < |d.records| && g.calls == d.calls
      requires file == d.records[k := Stored(d.records[k].owner, Recover(d.records[k]), Some(Recover(d.records[k]).stage))]
      modifies this`file, g
      ensures Consistent(View()) && DiskStep(d, View())
      ensures r.Ok? ==> Finished(d, View(), k) && TookEffect(d, View(), k, d.records[k].owner, d.records[k].run.id, action, r.value)
      ensures r.Ok? ==> Permitted(Recover(d.records[k]), action)
      ensures |file| == |d.records| && file[k].owner == d.records[k].owner && file[k].run.id == d.records[k].run.id
      ensures reliable ==> (r.Threw? <==> !Permitted(Recover(d.records[k]), action))
      ensures r.Threw? && reliable ==> forall j | 0 <= j < |file| :: Recover(file[j]) == Recover(d.records[j])
    {
      hide Consistent, Sound, EngineStep, Did, Permitted, AppendAudit;
      var v, announced := file[k].run, file;
      var run := new Run(v);
      ConsistentIsSound(d, k);
      var done := Perform(run, action);
      ghost var during := View();
      assert CutOff(d, during, k);
      if done.Crashed? {
        DiskStepKeeps(d, View());
        return Crashed;
      }
      var result := run.View();
      OwnCalls(v, result, g.calls[|d.calls|..]);
      var w := Write(announced[k := Stored(announced[k].owner, result, None)]);
      if w.Threw? {
        w := Write(announced[k := Stored(announced[k].owner, result, None)]);
        w := if w.Crashed? then w else Threw;
      }
      assert View() == during || Finished(d, View(), k);
      DiskStepKeeps(d, View());
      if w.Crashed? {
        return Crashed;
      }
      return if w.Threw? || done.Threw? then Threw else Ok(result);
    }
  }

  lemma AnnouncedKeeps(d: Disk, e: Disk, k: nat)
    requires Consistent(d) && k < |d.records| && e.calls == d.calls
    requires e.records == d.records[k := Stored(d.records[k].owner, Recover(d.records[k]), Some(Recover(d.records[k]).stage))]
    ensures Consistent(e) && DiskStep(d, e)
  {
    hide Consistent, EngineStep, AppendAudit;
    NothingDone(Recover(d.records[k]));
    assert e.calls[|d.calls|..] == [];
    CutOffIsStep(d, e, k);
    DiskStepKeeps(d, e);
  }

  lemma OnlyThatId(d: Disk, k: nat)
    requires Consistent(d) && k < |d.records|
    ensures forall j | 0 <= j < |d.records| && d.records[j].run.id == d.records[k].run.id :: j == k
  {
  }

  lemma NothingDone(v: Job)
    ensures EngineStep(v, v, [])
  {
  }

  lemma ConsistentIsSound(d: Disk, k: nat)
    requires Consistent(d) && k < |d.records|
    ensures Sound(Recover(d.records[k]))
  {
    InterruptedIsSound(d.records[k]);
  }

  /** Calls made before a crash are those of an action that failed. */
  lemma CallsAreAStep(v: Job, before: seq<Call>, after: seq<Call>)
    requires OneCallAtMost(v, before, after)
    ensures before <= after && (v.live ==> exists w :: EngineStep(v, w, after[|before|..]))
  {
    hide MayBuyData, MayBuyVerification, Chained;
    if after == before {
      assert after[|before|..] == [];
      NothingDone(v);
    } else if v.live {
      var w := v.(status := Failed);
      assert after[|before|..] == [after[|before|]];
      CallMeansActive(v, after[|before|]);
      assert Stopped(v, w, [after[|before|]]);
      assert EngineStep(v, w, after[|before|..]);
    }
  }

  lemma CallMeansActive(v: Job, c: Call)
    requires MayBuyData(v, c) || MayBuyVerification(v, c)
    ensures Active(v.status)
  {
  }
}
