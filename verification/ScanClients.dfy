/** The two programs that run scans: the queue worker and the synchronous service. Both share the
    workspaces' capacity counters with every other client. */
module ScanClients {
  import opened Common
  import opened ScanQueue
  import opened ScanQueueColumns
  import opened ScanQueueRely
  import opened ScanQueueFairness
  import opened ScanStore

  /** What executing the scan comes to. A failure is retryable when it is an I/O or database
      error and not a scan error. */
  datatype ScanOutcome = Findings(count: nat) | Failure(retryable: bool, message: string)

  ghost predicate NoLeases(db: ScanDatabase, me: ClientId)
    reads db
  {
    forall id :: id in db.queue ==> db.queue[id].leaseOwner != Some(me)
  }

  /** All leases of `me` are on `id`. */
  ghost predicate OnlyLease(s: Sys, me: ClientId, id: JobId) {
    forall k :: k in s.queue && s.queue[k].leaseOwner == Some(me) ==> k == id
  }

  lemma OnlyLeaseKept(s: Sys, t: Sys, me: ClientId, id: JobId)
    requires OnlyLease(s, me, id) && Keeps(s, t, me)
    ensures OnlyLease(t, me, id)
  {
  }

  lemma OnlyLeaseClaimed(s: Sys, t: Sys, me: ClientId, id: JobId)
    requires forall k :: k in s.queue ==> s.queue[k].leaseOwner != Some(me)
    requires KeepsWorkExcept(s, t, me, {id})
    ensures OnlyLease(t, me, id)
  {
  }

  /** What a worker makes of a claimed job: the given outcome, unless the asset is gone or is
      source code. */
  function Effective(assets: map<(WorkspaceId, AssetId), ScanKind>, job: Job, outcome: ScanOutcome): ScanOutcome {
    var asset := (job.workspace, job.asset);
    if asset !in assets then Failure(false, "managed asset no longer exists")
    else if assets[asset].Source? then Failure(false, "durable source scans require a repository-backed source collector")
    else outcome
  }

  /** The job holds an uncancelled lease of the worker. */
  predicate Undisturbed(s: Sys, id: JobId, me: ClientId) {
    LeasedBy(s, id, me) && !s.queue[id].cancelRequested
  }

  /** An attempt has ended as its outcome says: succeeded with the findings' count, back in the
      queue after the backoff while it is retryable and attempts are left, failed otherwise. */
  predicate Ended(s: Sys, id: JobId, outcome: ScanOutcome, attempts: nat, backoff: nat, now: Time) {
    && id in s.jobs && id in s.queue && s.queue[id].attempts == attempts && s.queue[id].leaseOwner.None?
    && match outcome
       case Findings(count) =>
         && s.jobs[id].status.Succeeded? && s.jobs[id].findingsCount == count
         && s.jobs[id].finishedAt == Some(now) && s.jobs[id].errorMessage.None?
       case Failure(retryable, message) =>
         if retryable && attempts < s.queue[id].maxAttempts then
           s.jobs[id].status.Queued? && s.queue[id].nextAttemptAt == now + backoff
         else
           s.jobs[id].status.Failed? && s.jobs[id].finishedAt == Some(now) && s.jobs[id].errorMessage == Stored(Some(message))
  }

  /** A worker can bring the scan of the job to its end: the asset is there and is not source code. */
  predicate Runnable(assets: map<(WorkspaceId, AssetId), ScanKind>, job: Job) {
    (job.workspace, job.asset) in assets && assets[(job.workspace, job.asset)] != Source
  }

  /** What an ended attempt has stored. The job succeeded with its findings exactly if the scan of a
      runnable job had some; it waits for its next attempt after the backoff exactly if that scan
      failed retryably with attempts left; otherwise it failed, with the reason. */
  lemma OutcomeExactly(assets: map<(WorkspaceId, AssetId), ScanKind>, lease: Job, s: Sys, id: JobId, outcome: ScanOutcome,
                       attempts: nat, backoff: nat, now: Time)
    requires Ended(s, id, Effective(assets, lease, outcome), attempts, backoff, now)
    ensures id in s.jobs && id in s.queue && s.queue[id].attempts == attempts && s.queue[id].leaseOwner == None
    ensures var job, row := s.jobs[id], s.queue[id];
            && (job.status == Succeeded <==> Runnable(assets, lease) && outcome.Findings?)
            && (job.status == Queued <==> Runnable(assets, lease) && outcome.Failure? && outcome.retryable && attempts < row.maxAttempts)
            && (job.status == Failed <==> job.status != Succeeded && job.status != Queued)
            && (job.status == Succeeded ==> job.findingsCount == outcome.count && job.errorMessage == None)
            && (job.status == Queued ==> row.nextAttemptAt == now + backoff)
            && (job.status != Queued ==> job.finishedAt == Some(now))
            && (job.status == Failed && Runnable(assets, lease) && outcome.message != "" ==> job.errorMessage == Some(Cut(outcome.message)))
            && (job.status == Failed && !Runnable(assets, lease) ==> job.errorMessage.Some?)
  {
  }

  /** The job holds a lease of the worker, and its cancellation was requested. */
  predicate CancelPending(s: Sys, id: JobId, me: ClientId) {
    LeasedBy(s, id, me) && s.queue[id].cancelRequested
  }

  /** The worker has ended the job as cancelled, without findings and without a message. */
  predicate Acknowledged(s: Sys, t: Sys, id: JobId, now: Time) {
    && id in s.jobs && id in t.jobs && id in t.queue && t.queue[id].leaseOwner == None && t.queue[id].leaseExpiresAt == None
    && t.jobs[id] == s.jobs[id].(status := Canceled, finishedAt := Some(now), findingsCount := 0, errorMessage := None)
  }

  lemma CancelIsAcknowledged(s: Sys, me: ClientId, id: JobId, now: Time)
    requires CancelPending(s, id, me)
    ensures Acknowledged(s, ReleaseSlot(FinishJob(s, me, id, Canceled, 0, None, now), me, s.jobs[id].workspace), id, now)
  {
  }

  lemma ClaimIsUndisturbed(s: Sys, t: Sys, me: ClientId, id: JobId, limit: nat, now: Time, expires: Time)
    requires FairChoice(s, now, limit, Some(id))
    requires id in s.jobs ==> t == ClaimedAlone(s, me, id, limit, now, expires)
    ensures Undisturbed(t, id, me) && id in s.queue && t.queue[id].attempts == s.queue[id].attempts + 1
  {
  }

  lemma SuccessEnds(s: Sys, t: Sys, me: ClientId, id: JobId, count: nat, backoff: nat, now: Time, expires: Time)
    requires Undisturbed(s, id, me)
    requires t == ReleaseSlot(FinishJob(RenewLease(s, me, id, now, expires), me, id, Succeeded, count, None, now), me, s.jobs[id].workspace)
    ensures Ended(t, id, Findings(count), s.queue[id].attempts, backoff, now)
  {
  }

  lemma RetryEnds(u: Sys, t: Sys, me: ClientId, id: JobId, outcome: ScanOutcome, backoff: nat, now: Time, ws: WorkspaceId)
    requires LeasedBy(u, id, me) && outcome.Failure? && outcome.retryable && u.queue[id].attempts < u.queue[id].maxAttempts
    requires t == ReleaseSlot(RetryJob(u, me, id, now + backoff), me, ws)
    ensures Ended(t, id, outcome, u.queue[id].attempts, backoff, now)
  {
    hide Stored;
  }

  lemma LastFailureEnds(u: Sys, t: Sys, me: ClientId, id: JobId, outcome: ScanOutcome, backoff: nat, now: Time, ws: WorkspaceId)
    requires LeasedBy(u, id, me) && outcome.Failure? && !(outcome.retryable && u.queue[id].attempts < u.queue[id].maxAttempts)
    requires t == ReleaseSlot(FinishJob(u, me, id, Failed, 0, Some(outcome.message), now), me, ws)
    ensures Ended(t, id, outcome, u.queue[id].attempts, backoff, now)
  {
    hide Stored;
  }

  lemma FailureEnds(s: Sys, u: Sys, t: Sys, me: ClientId, id: JobId, outcome: ScanOutcome, backoff: nat, now: Time, expires: Time,
                    ws: WorkspaceId)
    requires Undisturbed(s, id, me) && outcome.Failure? && (u == s || u == RenewLease(s, me, id, now, expires))
    requires t == ReleaseSlot(if outcome.retryable && u.queue[id].attempts < u.queue[id].maxAttempts
                              then RetryJob(u, me, id, now + backoff)
                              else FinishJob(u, me, id, Failed, 0, Some(outcome.message), now), me, ws)
    ensures LeasedBy(u, id, me)
    ensures Ended(t, id, outcome, s.queue[id].attempts, backoff, now)
  {
    assert LeasedBy(u, id, me) && u.queue[id].attempts == s.queue[id].attempts;
    hide LeasedBy, Undisturbed, RenewLease, Ended, ReleaseSlot, RetryJob, FinishJob;
    if outcome.retryable && u.queue[id].attempts < u.queue[id].maxAttempts {
      RetryEnds(u, t, me, id, outcome, backoff, now, ws);
    } else {
      LastFailureEnds(u, t, me, id, outcome, backoff, now, ws);
    }
  }

  class ScanWorker {
    const db: ScanDatabase
    const id: ClientId
    const leaseSeconds: int
    const retryBackoffSeconds: nat

    constructor (db: ScanDatabase, id: ClientId, leaseSeconds: int, retryBackoffSeconds: nat)
      requires 5 <= leaseSeconds <= 3600
      ensures this.db == db && this.id == id && this.leaseSeconds == leaseSeconds
      ensures this.retryBackoffSeconds == retryBackoffSeconds
    {
      this.db, this.id, this.leaseSeconds, this.retryBackoffSeconds := db, id, leaseSeconds, retryBackoffSeconds;
    }

    /** One poll. Whichever way it ends, by a return or by an exception, under any interleaving
        with other clients: the worker holds no lease and no slot it did not hold before, and the
        capacity and lease invariants stand. Undisturbed, a claimed job has ended as the scan's
        outcome says. */
    method RunOnce(now: Time, outcome: ScanOutcome, ghost alone: bool) returns (r: Result<bool>, ghost claimed: Option<Lease>)
      requires db.Valid() && NoLeases(db, id) && 1 <= db.cap && 5 <= leaseSeconds <= 3600
      modifies db
      ensures db.Valid() && NoLeases(db, id)
      ensures Hand(db.slots, id) == Hand(old(db.slots), id)
      ensures alone ==> r == Ok(claimed.Some?)
      ensures alone && claimed.Some? ==>
                var lease := claimed.value;
                Ended(db.S(), lease.id, Effective(db.assets, lease.job, outcome), lease.attempt, retryBackoffSeconds, now)
    {
      hide KeepsWorkExcept, Keeps, KeepsSync, Inv, FairChoice, ClaimedAlone, Ended, Undisturbed, Effective;
      claimed := None;
      ghost var s := db.S();
      var requeued, failed := db.RecoverExpiredLeases(now, id, alone);
      NoLeasesKept(s, db.S(), id);
      ghost var s1 := db.S();
      db.Yield(id, alone);
      NoLeasesKept(s1, db.S(), id);
      ghost var s2 := db.S();
      var claim := db.ClaimNext(id, leaseSeconds, db.cap, now, alone);
      if claim.Err? {
        NoLeasesKept(s2, db.S(), id);
        r := Err(claim.error);
        return;
      }
      if claim.value.None? {
        NoLeasesKept(s2, db.S(), id);
        r := Ok(false);
        return;
      }
      var lease := claim.value.value;
      claimed := Some(lease);
      if alone { ClaimIsUndisturbed(s2, db.S(), id, lease.id, db.cap, now, now + leaseSeconds); }
      OnlyLeaseClaimed(s2, db.S(), id, lease.id);
      ghost var s3 := db.S();
      db.Yield(id, alone);
      OnlyLeaseKept(s3, db.S(), id, lease.id);
      ghost var s4 := db.S();
      r := Attempt(lease, now, outcome, alone);
      OnlyLeaseKept(s4, db.S(), id, lease.id);
    }

    /** One attempt on a claimed job: the scan, and the failure handling around it. */
    method Attempt(lease: Lease, now: Time, outcome: ScanOutcome, ghost alone: bool) returns (r: Result<bool>)
      requires db.Valid() && 5 <= leaseSeconds <= 3600
      modifies db
      ensures db.Valid() && Keeps(old(db.S()), db.S(), id)
      ensures Hand(db.slots, id) == Hand(old(db.slots), id)
      ensures db.NoLeaseOf(id, lease.id)
      ensures alone && Undisturbed(old(db.S()), lease.id, id) ==>
                && r == Ok(true)
                && Ended(db.S(), lease.id, Effective(db.assets, lease.job, outcome), old(db.queue)[lease.id].attempts,
                         retryBackoffSeconds, now)
      ensures alone && CancelPending(old(db.S()), lease.id, id) ==>
                r == Ok(true) && Acknowledged(old(db.S()), db.S(), lease.id, now)
    {
      hide KeepsWorkExcept, Keeps, KeepsSync, Inv, Ended, Undisturbed, ReleaseSlot, FinishJob, RetryJob, RenewLease, Effective;
      ghost var s := db.S();
      ghost var effective := Effective(db.assets, lease.job, outcome);
      var failure := Execute(lease, now, outcome, alone);
      if failure.None? {
        if alone && Undisturbed(s, lease.id, id) {
          SuccessEnds(s, db.S(), id, lease.id, effective.count, retryBackoffSeconds, now, now + leaseSeconds);
        }
        return Ok(true);
      }
      ghost var s1 := db.S();
      db.Yield(id, alone);
      KeepsTransitive(s, s1, db.S(), id);
      ghost var s2 := db.S();
      var ended := db.Fail(lease.id, id, failure.value.message, failure.value.retryable, retryBackoffSeconds, now, alone);
      KeepsTransitive(s, s2, db.S(), id);
      if alone && Undisturbed(s, lease.id, id) {
        FailureEndsAlone(s, s2, db.S(), lease.id, failure.value, ended, now);
      }
      r := if ended.Ok? then Ok(true) else Err(ended.error);
    }

    lemma FailureEndsAlone(s: Sys, u: Sys, t: Sys, job: JobId, outcome: ScanOutcome, ended: Result<Job>, now: Time)
      requires Undisturbed(s, job, id) && outcome.Failure?
      requires u == s || u == RenewLease(s, id, job, now, now + leaseSeconds)
      requires ended.Ok? <==> LeasedBy(u, job, id)
      requires ended.Ok? ==> job in u.queue && t == ReleaseSlot(
                 if outcome.retryable && u.queue[job].attempts < u.queue[job].maxAttempts
                 then RetryJob(u, id, job, now + retryBackoffSeconds)
                 else FinishJob(u, id, job, Failed, 0, Some(outcome.message), now), id, ended.value.workspace)
      ensures ended.Ok? && Ended(t, job, outcome, s.queue[job].attempts, retryBackoffSeconds, now)
    {
      StillLeased(s, u, job, now);
      hide RetryJob, FinishJob, RenewLease, ReleaseSlot, Ended, Undisturbed;
      FailureEnds(s, u, t, id, job, outcome, retryBackoffSeconds, now, now + leaseSeconds, ended.value.workspace);
    }

    lemma StillLeased(s: Sys, u: Sys, job: JobId, now: Time)
      requires Undisturbed(s, job, id) && (u == s || u == RenewLease(s, id, job, now, now + leaseSeconds))
      ensures LeasedBy(u, job, id)
    {
    }

    lemma NoLeasesKept(s: Sys, t: Sys, me: ClientId)
      requires forall k :: k in s.queue ==> s.queue[k].leaseOwner != Some(me)
      requires Keeps(s, t, me)
      ensures forall k :: k in t.queue ==> t.queue[k].leaseOwner != Some(me)
    {
    }

    /** The body of the try block: nothing when the job was ended here, otherwise the exception. */
    method Execute(lease: Lease, now: Time, outcome: ScanOutcome, ghost alone: bool)
      returns (failure: Option<ScanOutcome>)
      requires db.Valid() && 5 <= leaseSeconds <= 3600
      modifies db
      ensures db.Valid() && Keeps(old(db.S()), db.S(), id)
      ensures Hand(db.slots, id) == Hand(old(db.slots), id)
      ensures failure.None? ==> db.NoLeaseOf(id, lease.id)
      ensures failure.Some? ==> failure.value.Failure?
      ensures alone && Undisturbed(old(db.S()), lease.id, id) ==>
                var effective := Effective(db.assets, lease.job, outcome);
                var renewed := RenewLease(old(db.S()), id, lease.id, now, now + leaseSeconds);
                && (effective.Findings? ==>
                      && failure.None?
                      && db.S() == ReleaseSlot(FinishJob(renewed, id, lease.id, Succeeded, effective.count, None, now),
                                               id, old(db.jobs)[lease.id].workspace))
                && (effective.Failure? ==> failure == Some(effective) && (db.S() == old(db.S()) || db.S() == renewed))
      ensures alone && CancelPending(old(db.S()), lease.id, id) ==>
                failure.None? && Acknowledged(old(db.S()), db.S(), lease.id, now)
    {
      hide KeepsWorkExcept, Keeps, KeepsSync, Inv, ReleaseSlot, FinishJob, Acknowledged;
      ghost var s := db.S();
      RelyReflexive(s, id);
      var cancel := db.ShouldCancel(lease.id, id);
      if cancel.Err? {
        return Some(Failure(false, "scan lease is not owned by worker"));
      }
      if cancel.value {
        failure := AcknowledgeCancel(lease.id, now, alone);
        return;
      }
      var asset := (lease.job.workspace, lease.job.asset);
      if asset !in db.assets {
        return Some(Failure(false, "managed asset no longer exists"));
      }
      if db.assets[asset].Source? {
        return Some(Failure(false, "durable source scans require a repository-backed source collector"));
      }
      db.Yield(id, alone);
      ghost var s1 := db.S();
      var canceled;
      canceled, failure := HeartbeatOrCancel(lease.id, now, alone);
      KeepsTransitive(s, s1, db.S(), id);
      if canceled || failure.Some? {
        return;
      }
      ghost var s2 := db.S();
      db.Yield(id, alone);
      KeepsTransitive(s, s2, db.S(), id);
      if outcome.Failure? {
        return Some(outcome);
      }
      ghost var s3 := db.S();
      failure := Conclude(lease.id, now, outcome.count, alone);
      KeepsTransitive(s, s3, db.S(), id);
    }

    /** Renews the lease; when that fails, finds out whether a cancellation is the reason. */
    method HeartbeatOrCancel(job: JobId, now: Time, ghost alone: bool)
      returns (canceled: bool, failure: Option<ScanOutcome>)
      requires db.Valid() && 5 <= leaseSeconds <= 3600
      modifies db
      ensures db.Valid() && Keeps(old(db.S()), db.S(), id)
      ensures Hand(db.slots, id) == Hand(old(db.slots), id)
      ensures canceled ==> failure.None? && db.NoLeaseOf(id, job)
      ensures failure.Some? ==> failure.value.Failure?
      ensures alone && Undisturbed(old(db.S()), job, id) ==>
                !canceled && failure.None? && db.S() == RenewLease(old(db.S()), id, job, now, now + leaseSeconds)
      ensures alone && CancelPending(old(db.S()), job, id) ==>
                canceled && failure.None? && Acknowledged(old(db.S()), db.S(), job, now)
    {
      hide KeepsWorkExcept, Keeps, KeepsSync, Inv, Acknowledged;
      ghost var s := db.S();
      var renewed := db.Heartbeat(job, id, leaseSeconds, now, alone);
      if renewed.Ok? {
        return false, None;
      }
      ghost var s1 := db.S();
      db.Yield(id, alone);
      KeepsTransitive(s, s1, db.S(), id);
      var cancel := db.ShouldCancel(job, id);
      if cancel.Ok? && cancel.value {
        ghost var s2 := db.S();
        failure := AcknowledgeCancel(job, now, alone);
        KeepsTransitive(s, s2, db.S(), id);
        return failure.None?, failure;
      }
      return false, Some(Failure(false, "scan lease is not owned by worker or cancellation was requested"));
    }

    /** Honours a late cancellation, or completes the job with its findings. */
    method Conclude(job: JobId, now: Time, findings: nat, ghost alone: bool) returns (failure: Option<ScanOutcome>)
      requires db.Valid()
      modifies db
      ensures db.Valid() && Keeps(old(db.S()), db.S(), id)
      ensures Hand(db.slots, id) == Hand(old(db.slots), id)
      ensures failure.None? ==> db.NoLeaseOf(id, job)
      ensures failure.Some? ==> failure.value.Failure?
      ensures alone && Undisturbed(old(db.S()), job, id) ==>
                && failure.None?
                && db.S() == ReleaseSlot(FinishJob(old(db.S()), id, job, Succeeded, findings, None, now),
                                         id, old(db.jobs)[job].workspace)
      ensures alone && CancelPending(old(db.S()), job, id) ==>
                failure.None? && Acknowledged(old(db.S()), db.S(), job, now)
    {
      hide KeepsWorkExcept, Keeps, KeepsSync, Inv, ReleaseSlot, Acknowledged;
      ghost var s := db.S();
      var cancel := db.ShouldCancel(job, id);
      if cancel.Err? {
        RelyReflexive(s, id);
        return Some(Failure(false, "scan lease is not owned by worker"));
      }
      if cancel.value {
        failure := AcknowledgeCancel(job, now, alone);
        return;
      }
      db.Yield(id, alone);
      ghost var s1 := db.S();
      var done := db.Finish(job, id, Succeeded, findings, None, now, alone);
      KeepsTransitive(s, s1, db.S(), id);
      failure := if done.Ok? then None
                 else Some(Failure(false, "scan job or lease ownership changed before completion"));
    }

    method AcknowledgeCancel(job: JobId, now: Time, ghost alone: bool) returns (failure: Option<ScanOutcome>)
      requires db.Valid()
      modifies db
      ensures db.Valid() && Keeps(old(db.S()), db.S(), id)
      ensures Hand(db.slots, id) == Hand(old(db.slots), id)
      ensures db.NoLeaseOf(id, job)
      ensures failure.Some? ==> failure.value.Failure?
      ensures alone && CancelPending(old(db.S()), job, id) ==>
                failure.None? && Acknowledged(old(db.S()), db.S(), job, now)
    {
      if CancelPending(db.S(), job, id) { CancelIsAcknowledged(db.S(), id, job, now); }
      hide KeepsWorkExcept, Keeps, KeepsSync, Inv, ReleaseSlot, FinishJob, Acknowledged;
      ghost var s := db.S();
      db.Yield(id, alone);
      ghost var s1 := db.S();
      var done := db.Finish(job, id, Canceled, 0, None, now, alone);
      KeepsTransitive(s, s1, db.S(), id);
      failure := if done.Ok? then None
                 else Some(Failure(false, "scan job or lease ownership changed before completion"));
    }
  }

  /** A synchronous scan of the asset, requested, started and ended now, that came to the outcome. */
  predicate IsScanOf(job: Job, ws: WorkspaceId, asset: AssetId, kind: ScanKind, now: Time, outcome: ScanOutcome) {
    && job.workspace == ws && job.asset == asset && job.kind == kind
    && job.requestedAt == now && job.startedAt == Some(now) && job.finishedAt == Some(now)
    && (outcome.Findings? ==> job.status == Succeeded && job.findingsCount == outcome.count && job.errorMessage == None)
    && (outcome.Failure? ==> job.status == Failed && job.findingsCount == 0 && job.errorMessage == Some(Cut(outcome.message)))
  }

  class ScanJobService {
    const db: ScanDatabase

    constructor (db: ScanDatabase)
      ensures this.db == db
    {
      this.db := db;
    }

    /** A synchronous scan. It leaves its caller with the slots it had, on a return and on an
        exception alike, and a job it created is never left running. */
    method Run(ws: WorkspaceId, asset: AssetId, now: Time, outcome: ScanOutcome, ghost me: ClientId, ghost alone: bool)
      returns (id: Option<JobId>, r: Result<Job>)
      requires db.Valid() && 1 <= db.cap
      modifies db
      ensures db.Valid() && Hand(db.slots, me) == Hand(old(db.slots), me)
      ensures (ws, asset) !in db.assets ==> r == Err(LookupError)
      ensures id.None? ==> r.Err? && Keeps(old(db.S()), db.S(), me)
      ensures id.Some? ==> id.value !in old(db.jobs) && id.value in db.jobs && Terminal(db.jobs[id.value].status)
      ensures id.Some? && r.Err? ==> outcome.Failure? && db.jobs[id.value].status.Failed?
      ensures r.Ok? ==> id.Some? && outcome.Findings? && db.jobs[id.value] == r.value
                        && r.value.status.Succeeded? && r.value.findingsCount == outcome.count
      ensures id.Some? ==> (ws, asset) in db.assets && IsScanOf(db.jobs[id.value], ws, asset, db.assets[(ws, asset)], now, outcome)
      ensures alone && (ws, asset) in db.assets ==> (id.Some? <==> Active(old(db.runtime), ws) < db.cap)
    {
      hide KeepsWorkExcept, Keeps, KeepsWork, KeepsSync, Inv;
      ghost var s, hand := db.S(), Hand(db.slots, me);
      RelyReflexive(s, me);
      if (ws, asset) !in db.assets {
        return None, Err(LookupError);
      }
      var kind := db.assets[(ws, asset)];
      assert ws in db.workspaces;
      assert hand + multiset{ws} - multiset{ws} == hand;
      var slot := db.AcquireScanSlot(ws, db.cap, me, alone);
      KeptJobs(s, db.S(), me);
      if slot != Ok(true) {
        return None, Err(RuntimeError);
      }
      ghost var s1 := db.S();
      db.Yield(me, alone);
      KeptJobs(s1, db.S(), me);
      var job;
      job, r := RunHoldingSlot(ws, asset, kind, now, outcome, me, alone);
      id := Some(job);
      ghost var s3 := db.S();
      db.Yield(me, alone);
      KeptJob(s3, db.S(), me, job);
      KeptJobs(s3, db.S(), me);
      ghost var s4 := db.S();
      var released := db.ReleaseScanSlot(ws, me, alone);
      KeptJob(s4, db.S(), me, job);
      KeptJobs(s4, db.S(), me);
    }

    lemma KeptJobs(s: Sys, t: Sys, me: ClientId)
      requires Keeps(s, t, me)
      ensures t.workspaces == s.workspaces
      ensures forall id :: id in s.jobs ==> id in t.jobs
    {
    }

    /** The try block: the slot goes into the job and comes back when the job has ended. */
    method RunHoldingSlot(ws: WorkspaceId, asset: AssetId, kind: ScanKind, now: Time, outcome: ScanOutcome,
                          ghost me: ClientId, ghost alone: bool)
      returns (id: JobId, r: Result<Job>)
      requires db.Valid() && ws in Hand(db.slots, me)
      requires (ws, asset) in db.assets && db.assets[(ws, asset)] == kind
      modifies db
      ensures db.Valid() && Hand(db.slots, me) == Hand(old(db.slots), me)
      ensures id !in old(db.jobs) && id in db.jobs && Terminal(db.jobs[id].status)
      ensures r.Ok? ==> r.value == db.jobs[id] && r.value.status.Succeeded?
                        && outcome.Findings? && r.value.findingsCount == outcome.count
      ensures r.Err? ==> outcome.Failure? && db.jobs[id].status.Failed?
      ensures IsScanOf(db.jobs[id], ws, asset, kind, now, outcome)
    {
      hide KeepsWorkExcept, Keeps, KeepsWork, KeepsSync, Inv, Rely, StartSync, FinishSync, IsScanOf;
      ghost var hand := Hand(db.slots, me);
      assert Random(RandomBound(db.jobs.Keys)) !in db.jobs;
      id :| id.Random? && id !in db.jobs;
      var created := db.CreateScanJob(ws, asset, kind, id, true, now, me);
      ghost var s1 := db.S();
      assert s1.jobs[id] == Job(ws, asset, kind, Queued, now, None, None, 0, None);
      hide InsertJob;
      db.Yield(me, alone);
      KeptSync(s1, db.S(), me, id);
      StartsAsQueued(db.S(), me, id, now);
      var started := db.MoveSyncJob(id, Queued, Running, None, None, now, me);
      assert db.jobs[id].workspace == ws && db.jobs[id].status.Running?;
      assert Hand(db.slots, me) == hand - multiset{ws};
      ghost var s2 := db.S();
      db.Yield(me, alone);
      KeptSync(s2, db.S(), me, id);
      EndsAsScanned(db.S(), me, id, ws, asset, kind, now, outcome);
      if outcome.Failure? {
        var failed := db.MoveSyncJob(id, Running, Failed, None, Some(outcome.message), now, me);
        r := Err(RuntimeError);
      } else {
        r := db.MoveSyncJob(id, Running, Succeeded, Some(outcome.count), None, now, me);
      }
      assert hand - multiset{ws} + multiset{ws} == hand;
    }

    lemma StartsAsQueued(s: Sys, me: ClientId, id: JobId, now: Time)
      requires id in s.jobs && s.jobs[id].status.Queued?
      ensures var t := StartSync(s, me, id, now);
              id in t.jobs && t.jobs[id] == s.jobs[id].(status := Running, startedAt := Some(now))
    {
    }

    lemma EndsAsScanned(s: Sys, me: ClientId, id: JobId, ws: WorkspaceId, asset: AssetId, kind: ScanKind, now: Time, outcome: ScanOutcome)
      requires id in s.jobs && s.jobs[id] == Job(ws, asset, kind, Running, now, Some(now), None, 0, None)
      ensures outcome.Failure? ==>
                var t := FinishSync(s, me, id, Failed, None, Some(outcome.message), now);
                id in t.jobs && IsScanOf(t.jobs[id], ws, asset, kind, now, outcome)
      ensures outcome.Findings? ==>
                var t := FinishSync(s, me, id, Succeeded, Some(outcome.count), None, now);
                id in t.jobs && IsScanOf(t.jobs[id], ws, asset, kind, now, outcome)
    {
    }

    lemma KeptSync(s: Sys, t: Sys, me: ClientId, id: JobId)
      requires Rely(s, t, me) && id in s.sync && s.sync[id] == me && id in s.jobs
      ensures id in t.sync && t.sync[id] == me && id in t.jobs && t.jobs[id] == s.jobs[id]
      ensures Hand(t.slots, me) == Hand(s.slots, me)
    {
    }
  }
}
