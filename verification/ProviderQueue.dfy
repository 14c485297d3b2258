/** The platform's job queue: every call is one guarded update of one row. */
module ProviderQueue {
  import opened Effects

  type OrderId = string

  datatype Category = Data | Compute | Inference | Verification | Storage
  datatype Output = Output(body: string, expiresAt: int)
  datatype Digest = Digest(of: Output)
  datatype State = Queued | Running | Completed | Failed
  datatype Job = Job(category: Category, state: State, token: Option<string>, leaseStartedAt: int,
                     output: Option<Output>, attestation: Option<Digest>)

  datatype Reply = Done | Missing | Refused | StorageExpired

  const LEASE_SECONDS := 3600

  predicate ReadOnly(c: Category) {
    c == Data || c == Compute || c == Verification
  }

  predicate Holds(jobs: map<OrderId, Job>, o: OrderId, token: string) {
    o in jobs && jobs[o].token == Some(token)
  }

  /** Work that may run again: it charges nobody and has neither output nor attestation. */
  ghost predicate Retryable(j: Job) {
    !j.category.Inference? && !j.category.Storage? && (j.state == Failed || j.state == Running)
  }

  /** An hour of storage starts with the claim: the output must end it to the second, and it must
      not be over. */
  ghost predicate Lapsed(j: Job, output: Output, now: int) {
    j.category == Storage && (output.expiresAt != j.leaseStartedAt + 60 * 60 || j.leaseStartedAt + 60 * 60 <= now)
  }

  /** Rows only move forward: terms and claim are permanent, a completed row is final. */
  ghost predicate JobKept(before: Job, after: Job) {
    && after.category == before.category
    && (before.token.Some? ==> after.token == before.token && after.leaseStartedAt == before.leaseStartedAt &&
                               after.state != Queued)
    && (before.state == Completed ==> after == before)
    && (before.output.Some? ==> after.output == before.output && after.attestation == before.attestation)
  }

  ghost predicate JobsKept(before: map<OrderId, Job>, after: map<OrderId, Job>) {
    forall o | o in before :: o in after && JobKept(before[o], after[o])
  }

  /** A row is queued without a claim, and has an output exactly when it is completed. */
  ghost predicate JobInv(j: Job) {
    && (j.state == Queued <==> j.token == None)
    && (j.state == Completed <==> j.output.Some?)
    && j.attestation == (if j.output.Some? then Some(Digest(j.output.value)) else None)
  }

  class JobQueue {
    var jobs: map<OrderId, Job>

    ghost predicate Valid()
      reads this
    {
      (forall o | o in jobs :: JobInv(jobs[o])) &&
      (forall o, p | o in jobs && p in jobs && o != p :: jobs[o].token == None || jobs[o].token != jobs[p].token)
    }

    constructor ()
      ensures Valid() && jobs == map[]
    {
      jobs := map[];
    }

    /** A paid order is queued once; the same order again changes nothing. */
    method Enqueue(o: OrderId, c: Category)
      requires Valid()
      modifies this
      ensures Valid() && jobs == if o in old(jobs) then old(jobs)
                                 else old(jobs)[o := Job(c, Queued, None, 0, None, None)]
    {
      if o !in jobs {
        jobs := jobs[o := Job(c, Queued, None, 0, None, None)];
      }
    }

    /** The same claim id always gets the same job back, whatever happened to the first reply. */
    method Claim(claimId: string, now: int) returns (claimed: Option<OrderId>)
      requires Valid()
      modifies this
      ensures Valid() && JobsKept(old(jobs), jobs) && jobs.Keys == old(jobs).Keys
      ensures claimed.Some? ==> Holds(jobs, claimed.value, claimId)
      ensures forall o | o in jobs && Some(o) != claimed :: jobs[o] == old(jobs)[o]
      ensures claimed.Some? && Holds(old(jobs), claimed.value, claimId) ==> jobs == old(jobs)
      ensures claimed.Some? && !Holds(old(jobs), claimed.value, claimId) ==> claimed.value in old(jobs) && old(jobs)[claimed.value].state == Queued && (forall o | o in old(jobs) :: old(jobs)[o].token != Some(claimId))
      ensures claimed.Some? && !Holds(old(jobs), claimed.value, claimId) ==> jobs == old(jobs)[claimed.value := old(jobs)[claimed.value].(state := Running, token := Some(claimId), leaseStartedAt := now)]
      ensures claimed == None ==> jobs == old(jobs) && forall o | o in jobs :: jobs[o].state != Queued && jobs[o].token != Some(claimId)
    {
      if exists o :: o in jobs && jobs[o].token == Some(claimId) {
        var o :| o in jobs && jobs[o].token == Some(claimId);
        return Some(o);
      }
      if exists o :: o in jobs && jobs[o].state == Queued {
        var o :| o in jobs && jobs[o].state == Queued;
        jobs := jobs[o := jobs[o].(state := Running, token := Some(claimId), leaseStartedAt := now)];
        return Some(o);
      }
      return None;
    }

    method RetryRead(o: OrderId, token: string) returns (reply: Reply)
      requires Valid()
      modifies this
      ensures Valid() && JobsKept(old(jobs), jobs) && jobs.Keys == old(jobs).Keys
      ensures forall p | p in jobs && p != o :: jobs[p] == old(jobs)[p]
      ensures reply == Done <==> Holds(old(jobs), o, token) && Retryable(old(jobs)[o])
      ensures reply == Done ==> jobs == old(jobs)[o := old(jobs)[o].(state := Running)]
      ensures reply != Done ==> jobs == old(jobs)
    {
      if !Holds(jobs, o, token) {
        return Missing;
      }
      var job := jobs[o];
      if !ReadOnly(job.category) || (job.state != Failed && job.state != Running) || job.output.Some? || job.attestation.Some? {
        return Refused;
      }
      jobs := jobs[o := job.(state := Running)];
      return Done;
    }

    /** Reporting failure never undoes a completion. */
    method ReportFailed(o: OrderId, token: string) returns (reply: Reply)
      requires Valid()
      modifies this
      ensures Valid() && JobsKept(old(jobs), jobs) && jobs.Keys == old(jobs).Keys
      ensures forall p | p in jobs && p != o :: jobs[p] == old(jobs)[p]
      ensures reply == Done <==> Holds(old(jobs), o, token)
      ensures reply == Done ==> jobs == if old(jobs)[o].state == Running then old(jobs)[o := old(jobs)[o].(state := Failed)] else old(jobs)
      ensures reply != Done ==> jobs == old(jobs)
    {
      if !Holds(jobs, o, token) {
        return Missing;
      }
      if jobs[o].state == Running {
        jobs := jobs[o := jobs[o].(state := Failed)];
      }
      return Done;
    }

    /** `attested` is what the finalized chain says about the order's delivery. */
    method Complete(o: OrderId, token: string, output: Output, attested: Option<Digest>, now: int) returns (reply: Reply)
      requires Valid()
      modifies this
      ensures Valid() && JobsKept(old(jobs), jobs) && jobs.Keys == old(jobs).Keys
      ensures forall p | p in jobs && p != o :: jobs[p] == old(jobs)[p]
      ensures reply == Missing <==> !Holds(old(jobs), o, token)
      ensures reply == StorageExpired <==> Holds(old(jobs), o, token) && old(jobs)[o].state != Completed && Lapsed(old(jobs)[o], output, now)
      ensures reply == Done <==>
                && Holds(old(jobs), o, token)
                && if old(jobs)[o].state == Completed then old(jobs)[o].output == Some(output)
                   else old(jobs)[o].state == Running && !Lapsed(old(jobs)[o], output, now) && attested == Some(Digest(output))
      ensures jobs == if reply == Done && old(jobs)[o].state == Running
                      then old(jobs)[o := old(jobs)[o].(state := Completed, output := Some(output), attestation := Some(Digest(output)))]
                      else old(jobs)
    {
      if !Holds(jobs, o, token) {
        return Missing;
      }
      var job := jobs[o];
      if job.state == Completed {
        return if job.output == Some(output) then Done else Refused;
      }
      if job.category == Storage && (output.expiresAt != job.leaseStartedAt + LEASE_SECONDS || job.leaseStartedAt + LEASE_SECONDS <= now) {
        return StorageExpired;
      }
      if attested != Some(Digest(output)) || job.state != Running {
        return Refused;
      }
      jobs := jobs[o := job.(state := Completed, output := Some(output), attestation := Some(Digest(output)))];
      return Done;
    }
  }
}
