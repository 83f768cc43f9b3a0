/** What one client of the scan queue may rely on while other clients run. */
module ScanQueueRely {
  import opened Common
  import opened ScanQueue
  import opened ScanQueueRuns

  predicate SameWork(a: Job, b: Job) {
    a.workspace == b.workspace && a.asset == b.asset && a.kind == b.kind && a.requestedAt == b.requestedAt
  }

  /** Nothing `me` works on is taken over between `s` and `s'`, and `me` gains no lease except
      on the jobs in `mine`. */
  ghost predicate KeepsWorkExcept(s: Sys, s': Sys, me: ClientId, mine: set<JobId>) {
    && s'.workspaces == s.workspaces
    && (forall ws :: ws in s.runtime ==> ws in s'.runtime)
    && (forall id :: id in s.jobs ==>
          && id in s'.jobs && SameWork(s.jobs[id], s'.jobs[id])
          && (Terminal(s.jobs[id].status) ==> s'.jobs[id] == s.jobs[id])
          && (id in s'.sync ==> id in s.sync))
    && (forall id :: id in s.queue ==>
          && id in s'.queue && s'.queue[id].maxAttempts == s.queue[id].maxAttempts
          && s.queue[id].attempts <= s'.queue[id].attempts
          && (s.queue[id].cancelRequested ==> s'.queue[id].cancelRequested))
    && (forall id :: id in s'.queue && s'.queue[id].leaseOwner == Some(me) && id !in mine ==>
          id in s.queue && s.queue[id].leaseOwner == Some(me) && s.queue[id].attempts == s'.queue[id].attempts)
    && (forall id :: id in s.sync && s.sync[id] == me ==> id in s'.sync && s'.sync[id] == me)
  }

  ghost predicate KeepsWork(s: Sys, s': Sys, me: ClientId) {
    KeepsWorkExcept(s, s', me, {})
  }

  /** The synchronous jobs of `me` are as they were. */
  ghost predicate KeepsSync(s: Sys, s': Sys, me: ClientId) {
    && (forall id :: id in s.sync && s.sync[id] == me && id in s.jobs ==> id in s'.jobs && s'.jobs[id] == s.jobs[id])
    && (forall id :: id in s'.sync && s'.sync[id] == me ==> id in s.sync && s.sync[id] == me)
  }

  ghost predicate Keeps(s: Sys, s': Sys, me: ClientId) {
    KeepsWork(s, s', me) && KeepsSync(s, s', me)
  }

  /** What other clients' steps cannot do to `me`. */
  ghost predicate Rely(s: Sys, s': Sys, me: ClientId) {
    Keeps(s, s', me) && Hand(s'.slots, me) == Hand(s.slots, me)
  }

  predicate ByOther(step: Step, me: ClientId) {
    match step
    case EnsureRuntime(_) => true
    case AddQueueRow(_, _, _) => true
    case RequestCancel(_, _) => true
    case _ => step.c != me
  }

  lemma RelyTransitive(s: Sys, t: Sys, u: Sys, me: ClientId)
    requires Rely(s, t, me) && Rely(t, u, me)
    ensures Rely(s, u, me)
  {
  }

  lemma KnownWorkspace(s: Sys, limit: nat, id: JobId)
    requires Inv(s, limit) && id in s.jobs
    ensures s.jobs[id].workspace in s.workspaces
  {
  }

  lemma KeptJob(s: Sys, s': Sys, me: ClientId, id: JobId)
    requires Keeps(s, s', me)
    ensures id in s.jobs ==> id in s'.jobs && JobGrows(s.jobs[id], s'.jobs[id])
    ensures id in s.queue ==> id in s'.queue && RowGrows(s.queue[id], s'.queue[id])
    ensures id in s'.queue && s'.queue[id].leaseOwner == Some(me) ==>
              id in s.queue && s.queue[id].leaseOwner == Some(me) && s.queue[id].attempts == s'.queue[id].attempts
  {
  }

  lemma KeepsTransitive(s: Sys, t: Sys, u: Sys, me: ClientId)
    requires Keeps(s, t, me) && Keeps(t, u, me)
    ensures Keeps(s, u, me)
  {
  }

  lemma ExceptAfterKeeps(s: Sys, t: Sys, u: Sys, me: ClientId, id: JobId)
    requires Keeps(s, t, me) && KeepsWorkExcept(t, u, me, {id}) && KeepsSync(t, u, me)
    ensures KeepsWorkExcept(s, u, me, {id}) && KeepsSync(s, u, me)
  {
  }

  /** What a step may do to a queue row: attempts and a cancellation request only accumulate. */
  predicate RowGrows(a: QueueRow, b: QueueRow) {
    b.maxAttempts == a.maxAttempts && a.attempts <= b.attempts && (a.cancelRequested ==> b.cancelRequested)
  }

  predicate JobGrows(a: Job, b: Job) {
    SameWork(a, b) && (Terminal(a.status) ==> b == a)
  }

  lemma OwnRowKeeps(s: Sys, id: JobId, row: QueueRow, me: ClientId)
    requires id in s.queue && RowGrows(s.queue[id], row)
    ensures KeepsWorkExcept(s, SetRow(s, id, row), me, {id}) && KeepsSync(s, SetRow(s, id, row), me)
  {
  }

  lemma OwnJobKeeps(s: Sys, id: JobId, job: Job, m: multiset<WorkspaceId>, me: ClientId)
    requires id in s.jobs && id !in s.sync && JobGrows(s.jobs[id], job)
    ensures Keeps(s, SetHand(SetJob(s, id, job), me, m), me)
  {
  }

  lemma OwnSyncKeeps(s: Sys, id: JobId, job: Job, m: multiset<WorkspaceId>, me: ClientId)
    requires id in s.jobs && JobGrows(s.jobs[id], job)
    ensures KeepsWork(s, SetHand(SetJob(s, id, job), me, m), me)
  {
  }

  /** A step of `me` that leaves it without a lease on the job keeps everything. */
  lemma OwnWorkKeeps(s: Sys, u: Sys, limit: nat, me: ClientId, id: JobId)
    requires Inv(s, limit) && id in s.jobs && id in s.queue && id in u.jobs && id in u.queue && me in u.slots
    requires JobGrows(s.jobs[id], u.jobs[id]) && RowGrows(s.queue[id], u.queue[id])
    requires u.queue[id].leaseOwner != Some(me)
    requires u == SetHand(SetJob(SetRow(s, id, u.queue[id]), id, u.jobs[id]), me, u.slots[me])
    ensures Keeps(s, u, me)
  {
    var t := SetRow(s, id, u.queue[id]);
    OwnRowKeeps(s, id, u.queue[id], me);
    OwnJobKeeps(t, id, u.jobs[id], u.slots[me], me);
    KeepsExceptThen(s, t, u, me, id);
  }

  /** Claiming a job keeps everything but the lease on that job. */
  lemma ClaimKeepsExcept(s: Sys, u: Sys, limit: nat, me: ClientId, id: JobId, now: Time, expires: Time)
    requires Inv(s, limit) && ClaimTakes(s, id, now) && u == ClaimJob(s, me, id, now, expires)
    ensures KeepsWorkExcept(s, u, me, {id}) && KeepsSync(s, u, me)
  {
    var t := SetRow(s, id, u.queue[id]);
    OwnRowKeeps(s, id, u.queue[id], me);
    OwnJobKeeps(t, id, u.jobs[id], u.slots[me], me);
    assert u == SetHand(SetJob(t, id, u.jobs[id]), me, u.slots[me]);
    KeepsExceptThen(s, t, u, me, id);
  }

  lemma KeepsExceptThen(s: Sys, t: Sys, u: Sys, me: ClientId, id: JobId)
    requires KeepsWorkExcept(s, t, me, {id}) && KeepsSync(s, t, me) && Keeps(t, u, me)
    ensures KeepsWorkExcept(s, u, me, {id}) && KeepsSync(s, u, me)
    ensures (id in u.queue ==> u.queue[id].leaseOwner != Some(me)) ==> Keeps(s, u, me)
  {
  }

  lemma RelyReflexive(s: Sys, me: ClientId)
    ensures Rely(s, s, me)
  {
  }

  lemma RowRely(s: Sys, id: JobId, row: QueueRow, me: ClientId)
    requires id in s.queue && RowGrows(s.queue[id], row)
    requires row.leaseOwner == Some(me) ==>
               s.queue[id].leaseOwner == Some(me) && s.queue[id].attempts == row.attempts
    ensures Rely(s, SetRow(s, id, row), me)
  {
  }

  lemma JobRely(s: Sys, id: JobId, job: Job, me: ClientId)
    requires id in s.jobs && JobGrows(s.jobs[id], job)
    requires id in s.sync ==> s.sync[id] != me
    ensures Rely(s, SetJob(s, id, job), me)
  {
  }

  lemma HandRely(s: Sys, c: ClientId, m: multiset<WorkspaceId>, me: ClientId)
    requires c != me
    ensures Rely(s, SetHand(s, c, m), me)
  {
  }

  /** A job, its queue row and another client's hand change together. */
  lemma WorkRely(s: Sys, c: ClientId, id: JobId, job: Job, row: QueueRow, m: multiset<WorkspaceId>, me: ClientId)
    requires c != me && id in s.jobs && id in s.queue && id !in s.sync && JobGrows(s.jobs[id], job)
    requires RowGrows(s.queue[id], row) && row.leaseOwner != Some(me)
    ensures Rely(s, SetHand(SetJob(SetRow(s, id, row), id, job), c, m), me)
  {
    var s1 := SetRow(s, id, row);
    var s2 := SetJob(s1, id, job);
    RowRely(s, id, row, me);
    JobRely(s1, id, job, me);
    HandRely(s2, c, m, me);
    RelyTransitive(s, s1, s2, me);
    RelyTransitive(s, s2, SetHand(s2, c, m), me);
  }

  /** Taking and giving back a slot touches no work. */
  lemma OwnSlotKeeps(s: Sys, s': Sys, me: ClientId)
    requires s'.workspaces == s.workspaces && s'.jobs == s.jobs && s'.queue == s.queue && s'.sync == s.sync
    requires forall ws :: ws in s.runtime ==> ws in s'.runtime
    ensures Keeps(s, s', me)
  {
  }

  lemma ClaimRely(s: Sys, c: ClientId, id: JobId, now: Time, expires: Time, me: ClientId)
    requires Leases(s) && c != me
    ensures Rely(s, ClaimJob(s, c, id, now, expires), me)
  {
    var s' := ClaimJob(s, c, id, now, expires);
    if ClaimTakes(s, id, now) {
      WorkRely(s, c, id, s'.jobs[id], s'.queue[id], s'.slots[c], me);
    } else {
      RelyReflexive(s, me);
    }
  }

  lemma RetryRely(s: Sys, c: ClientId, id: JobId, nextAttempt: Time, me: ClientId)
    requires Leases(s) && c != me
    ensures Rely(s, RetryJob(s, c, id, nextAttempt), me)
  {
    var s' := RetryJob(s, c, id, nextAttempt);
    if LeasedBy(s, id, c) {
      WorkRely(s, c, id, s'.jobs[id], s'.queue[id], s'.slots[c], me);
    } else {
      RelyReflexive(s, me);
    }
  }

  lemma FinishRely(s: Sys, c: ClientId, id: JobId, status: ScanStatus, findings: nat,
                   error: Option<string>, now: Time, me: ClientId)
    requires Leases(s) && c != me
    ensures Rely(s, FinishJob(s, c, id, status, findings, error, now), me)
  {
    var s' := FinishJob(s, c, id, status, findings, error, now);
    if LeasedBy(s, id, c) {
      WorkRely(s, c, id, s'.jobs[id], s'.queue[id], s'.slots[c], me);
    } else {
      RelyReflexive(s, me);
    }
  }

  lemma RecoverRely(s: Sys, c: ClientId, id: JobId, now: Time, me: ClientId)
    requires Leases(s) && c != me
    ensures Rely(s, RecoverJob(s, c, id, now), me)
  {
    var s' := RecoverJob(s, c, id, now);
    if Expired(s, id, now) {
      WorkRely(s, c, id, s'.jobs[id], s'.queue[id], s'.slots[c], me);
    } else {
      RelyReflexive(s, me);
    }
  }

  lemma CancelRely(s: Sys, id: JobId, now: Time, me: ClientId)
    requires Leases(s)
    ensures Rely(s, CancelJob(s, id, now), me)
  {
    var s' := CancelJob(s, id, now);
    if s' == s {
      RelyReflexive(s, me);
    } else {
      var s1 := SetRow(s, id, s'.queue[id]);
      RowRely(s, id, s'.queue[id], me);
      if s.jobs[id].status.Queued? {
        JobRely(s1, id, s'.jobs[id], me);
        RelyTransitive(s, s1, s', me);
      }
    }
  }

  lemma SyncRely(s: Sys, s': Sys, c: ClientId, id: JobId, me: ClientId)
    requires c != me && id in s.sync && s.sync[id] == c
    requires s' == s || (id in s.jobs && id in s'.jobs && c in s'.slots && JobGrows(s.jobs[id], s'.jobs[id])
                         && s' == SetHand(SetJob(s, id, s'.jobs[id]), c, s'.slots[c]))
    ensures Rely(s, s', me)
  {
    if s' == s {
      RelyReflexive(s, me);
    } else {
      var s1 := SetJob(s, id, s'.jobs[id]);
      JobRely(s, id, s'.jobs[id], me);
      HandRely(s1, c, s'.slots[c], me);
      RelyTransitive(s, s1, s', me);
    }
  }

  lemma HeartbeatRely(s: Sys, c: ClientId, id: JobId, now: Time, expires: Time, me: ClientId)
    requires c != me
    ensures Rely(s, RenewLease(s, c, id, now, expires), me)
  {
    var s' := RenewLease(s, c, id, now, expires);
    if s' == s { RelyReflexive(s, me); } else { RowRely(s, id, s'.queue[id], me); }
  }

  lemma CreateRely(s: Sys, c: ClientId, id: JobId, job: Job, forSync: bool, me: ClientId)
    requires Leases(s) && c != me
    ensures Rely(s, InsertJob(s, c, id, job, forSync), me)
  {
    var s' := InsertJob(s, c, id, job, forSync);
    CreateKeepsWork(s, c, id, job, forSync, me);
    assert KeepsSync(s, s', me);
    hide InsertJob, KeepsWork, KeepsSync;
  }

  lemma CreateKeepsWork(s: Sys, c: ClientId, id: JobId, job: Job, forSync: bool, me: ClientId)
    requires Leases(s) && c != me
    ensures KeepsWork(s, InsertJob(s, c, id, job, forSync), me)
    ensures Hand(InsertJob(s, c, id, job, forSync).slots, me) == Hand(s.slots, me)
  {
    hide RowOk;
  }

  lemma InsertRowRely(s: Sys, id: JobId, maxAttempts: nat, now: Time, me: ClientId)
    ensures Rely(s, InsertRow(s, id, maxAttempts, now), me)
  {
  }

  lemma CounterRely(s: Sys, ws: WorkspaceId, n: nat, me: ClientId)
    ensures Rely(s, s.(runtime := s.runtime[ws := n]), me)
  {
  }

  lemma SlotRely(s: Sys, s': Sys, c: ClientId, ws: WorkspaceId, me: ClientId)
    requires c != me
    requires s' == s || (ws in s'.runtime && c in s'.slots
                         && s' == SetHand(s.(runtime := s.runtime[ws := s'.runtime[ws]]), c, s'.slots[c]))
    ensures Rely(s, s', me)
  {
    if s' == s {
      RelyReflexive(s, me);
    } else {
      var s1 := s.(runtime := s.runtime[ws := s'.runtime[ws]]);
      CounterRely(s, ws, s'.runtime[ws], me);
      HandRely(s1, c, s'.slots[c], me);
      RelyTransitive(s, s1, s', me);
    }
  }

  /** One step of another client, whatever it is. */
  lemma OtherStepRely(s: Sys, step: Step, limit: nat, me: ClientId)
    requires Inv(s, limit) && Enabled(s, step) && ByOther(step, me)
    ensures Rely(s, Apply(s, step, limit), me)
  {
    match step {
      case Claim(c, id, now, expires) => ClaimRely(s, c, id, now, expires, me);
      case Retry(c, id, nextAttempt) => RetryRely(s, c, id, nextAttempt, me);
      case Finish(c, id, status, findings, error, now) => FinishRely(s, c, id, status, findings, error, now, me);
      case RecoverRow(c, id, now) => RecoverRely(s, c, id, now, me);
      case RequestCancel(id, now) => CancelRely(s, id, now, me);
      case SyncStart(c, id, now) => SyncRely(s, StartSync(s, c, id, now), c, id, me);
      case SyncFinish(c, id, status, count, error, now) =>
        SyncRely(s, FinishSync(s, c, id, status, count, error, now), c, id, me);
      case Heartbeat(c, id, now, expires) => HeartbeatRely(s, c, id, now, expires, me);
      case CreateJob(c, id, job, forSync) => CreateRely(s, c, id, job, forSync, me);
      case AddQueueRow(id, maxAttempts, now) => InsertRowRely(s, id, maxAttempts, now, me);
      case Acquire(c, ws, room) => SlotRely(s, AcquireSlot(s, c, ws, if room < limit then room else limit), c, ws, me);
      case Release(c, ws) => SlotRely(s, ReleaseSlot(s, c, ws), c, ws, me);
      case EnsureRuntime(ws) => if ws in s.runtime { RelyReflexive(s, me); } else { CounterRely(s, ws, 0, me); }
    }
  }

  /** Any run of other clients between two of `me`'s transactions keeps the invariant and what
      `me` relies on. */
  lemma {:induction false} OthersRely(s: Sys, steps: seq<Step>, limit: nat, me: ClientId)
    requires Inv(s, limit) && ValidRun(s, steps, limit)
    requires forall i :: 0 <= i < |steps| ==> ByOther(steps[i], me)
    ensures Inv(After(s, steps, limit), limit) && Rely(s, After(s, steps, limit), me)
  {
    RunPreserves(s, steps, limit);
    if steps != [] {
      var before := steps[..|steps| - 1];
      OthersRely(s, before, limit, me);
      OtherStepRely(After(s, before, limit), steps[|steps| - 1], limit, me);
      RelyTransitive(s, After(s, before, limit), After(s, steps, limit), me);
    }
  }
}
