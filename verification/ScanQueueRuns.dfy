/** Whole runs of the scan queue: any list of steps by any number of clients. */
module ScanQueueRuns {
  import opened Common
  import opened ScanQueue

  function After(s: Sys, steps: seq<Step>, limit: nat): Sys {
    if steps == [] then s
    else Apply(After(s, steps[..|steps| - 1], limit), steps[|steps| - 1], limit)
  }

  ghost predicate ValidRun(s: Sys, steps: seq<Step>, limit: nat) {
    steps == [] ||
    var before := steps[..|steps| - 1];
    ValidRun(s, before, limit) && Enabled(After(s, before, limit), steps[|steps| - 1])
  }

  // ---------------------------------------------------------------- safety over whole runs

  lemma {:induction false} RunPreserves(s: Sys, steps: seq<Step>, limit: nat)
    requires Inv(s, limit) && ValidRun(s, steps, limit)
    ensures Inv(After(s, steps, limit), limit)
  {
    if steps != [] {
      var before := steps[..|steps| - 1];
      RunPreserves(s, before, limit);
      StepPreserves(After(s, before, limit), steps[|steps| - 1], limit);
    }
  }

  /** Capacity: on every run from the empty database a workspace's counter is exactly its
      running jobs plus the slots in hand, and its running jobs stay within the limit. */
  lemma CapacityOnEveryRun(s: Sys, steps: seq<Step>, limit: nat, ws: WorkspaceId)
    requires Initial(s) && ValidRun(s, steps, limit)
    ensures var s' := After(s, steps, limit);
            && Active(s'.runtime, ws) == |RunningJobs(s'.jobs, ws)| + InHand(s'.slots, ws)
            && |RunningJobs(s'.jobs, ws)| <= limit
  {
    InitialInv(s, limit);
    RunPreserves(s, steps, limit);
    var s' := After(s, steps, limit);
    assert Active(s'.runtime, ws) <= limit;
  }

  /** The lease invariant on every run from the empty database. */
  lemma LeasesOnEveryRun(s: Sys, steps: seq<Step>, limit: nat, id: JobId)
    requires Initial(s) && ValidRun(s, steps, limit)
    requires id in After(s, steps, limit).queue
    ensures var s' := After(s, steps, limit);
            && id in s'.jobs
            && (s'.jobs[id].status.Running? <==> s'.queue[id].leaseOwner.Some?)
            && (s'.jobs[id].status.Running? <==> s'.queue[id].leaseExpiresAt.Some?)
            && (s'.jobs[id].status.Queued? ==> s'.queue[id].attempts < s'.queue[id].maxAttempts)
            && s'.queue[id].attempts <= s'.queue[id].maxAttempts <= 20
  {
    InitialInv(s, limit);
    RunPreserves(s, steps, limit);
  }

  /** The one job a step works on. */
  predicate Touches(step: Step, id: JobId) {
    match step
    case EnsureRuntime(_) => false
    case Acquire(_, _, _) => false
    case Release(_, _) => false
    case _ => step.id == id
  }

  lemma OthersStay(s: Sys, step: Step, limit: nat, id: JobId)
    requires !Touches(step, id)
    ensures var s' := Apply(s, step, limit);
            && (id in s'.jobs <==> id in s.jobs) && (id in s.jobs ==> s'.jobs[id] == s.jobs[id])
            && (id in s'.queue <==> id in s.queue) && (id in s.queue ==> s'.queue[id] == s.queue[id])
  {
    match step
    case Finish(_, _, _, _, _, _) => EndingStays(s, step, limit, id); hide Apply;
    case Retry(_, _, _) => EndingStays(s, step, limit, id); hide Apply;
    case RecoverRow(_, _, _) => EndingStays(s, step, limit, id); hide Apply;
    case SyncFinish(_, _, _, _, _, _) => EndingStays(s, step, limit, id); hide Apply;
    case Claim(_, _, _, _) => StartingStays(s, step, limit, id); hide Apply;
    case Heartbeat(_, _, _, _) => StartingStays(s, step, limit, id); hide Apply;
    case RequestCancel(_, _) => StartingStays(s, step, limit, id); hide Apply;
    case SyncStart(_, _, _) => StartingStays(s, step, limit, id); hide Apply;
    case _ =>
  }

  predicate SameRowsAt(s: Sys, s': Sys, id: JobId) {
    && (id in s'.jobs <==> id in s.jobs) && (id in s.jobs ==> s'.jobs[id] == s.jobs[id])
    && (id in s'.queue <==> id in s.queue) && (id in s.queue ==> s'.queue[id] == s.queue[id])
  }

  lemma StartingStays(s: Sys, step: Step, limit: nat, id: JobId)
    requires (step.Claim? || step.Heartbeat? || step.RequestCancel? || step.SyncStart?) && step.id != id
    ensures SameRowsAt(s, Apply(s, step, limit), id)
  {
    hide SameRowsAt, ClaimJob, RenewLease, CancelJob, StartSync;
    match step
    case Claim(c, other, now, expires) => ClaimStays(s, c, other, now, expires, id);
    case Heartbeat(c, other, now, expires) => RenewalStays(s, c, other, now, expires, id);
    case RequestCancel(other, now) => CancelStays(s, other, now, id);
    case SyncStart(c, other, now) => SyncStartStays(s, c, other, now, id);
  }

  lemma ClaimStays(s: Sys, c: ClientId, other: JobId, now: Time, expires: Time, id: JobId)
    requires id != other
    ensures SameRowsAt(s, ClaimJob(s, c, other, now, expires), id)
  {
    hide Claimable;
  }

  lemma RenewalStays(s: Sys, c: ClientId, other: JobId, now: Time, expires: Time, id: JobId)
    requires id != other
    ensures SameRowsAt(s, RenewLease(s, c, other, now, expires), id)
  {
  }

  lemma CancelStays(s: Sys, other: JobId, now: Time, id: JobId)
    requires id != other
    ensures SameRowsAt(s, CancelJob(s, other, now), id)
  {
  }

  lemma SyncStartStays(s: Sys, c: ClientId, other: JobId, now: Time, id: JobId)
    requires id != other
    ensures SameRowsAt(s, StartSync(s, c, other, now), id)
  {
  }

  lemma EndingStays(s: Sys, step: Step, limit: nat, id: JobId)
    requires (step.Finish? || step.Retry? || step.RecoverRow? || step.SyncFinish?) && step.id != id
    ensures var s' := Apply(s, step, limit);
            && (id in s'.jobs <==> id in s.jobs) && (id in s.jobs ==> s'.jobs[id] == s.jobs[id])
            && (id in s'.queue <==> id in s.queue) && (id in s.queue ==> s'.queue[id] == s.queue[id])
  {
    hide Stored, RecoveredJob, Claimable, ClaimJob, CancelJob, RenewLease, StartSync, AcquireSlot, ReleaseSlot, InsertJob;
  }

  /** Terminal states are absorbing and carry no lease. */
  lemma {:induction false} TerminalIsAbsorbing(s: Sys, steps: seq<Step>, limit: nat, id: JobId)
    requires Inv(s, limit) && ValidRun(s, steps, limit)
    requires id in s.jobs && Terminal(s.jobs[id].status)
    ensures var s' := After(s, steps, limit);
            && id in s'.jobs && s'.jobs[id] == s.jobs[id]
            && (id in s'.queue ==> s'.queue[id].leaseOwner.None? && s'.queue[id].leaseExpiresAt.None?)
  {
    if steps != [] {
      var before := steps[..|steps| - 1];
      TerminalIsAbsorbing(s, before, limit, id);
      RunPreserves(s, before, limit);
      StepKeepsTerminal(After(s, before, limit), steps[|steps| - 1], limit, id);
    }
    RunPreserves(s, steps, limit);
  }

  lemma StepKeepsTerminal(s: Sys, step: Step, limit: nat, id: JobId)
    requires Inv(s, limit) && id in s.jobs && Terminal(s.jobs[id].status)
    ensures id in Apply(s, step, limit).jobs && Apply(s, step, limit).jobs[id] == s.jobs[id]
  {
    if !Touches(step, id) {
      OthersStay(s, step, limit, id);
      hide Apply, Enabled, Inv;
    }
  }

  // ---------------------------------------------------------------- who may end an attempt

  predicate TakingClaim(s: Sys, step: Step, id: JobId) {
    step.Claim? && step.id == id && ClaimTakes(s, id, step.now)
  }

  /** The client of the most recent claim of `id` that took effect. */
  function LastClaimer(s: Sys, steps: seq<Step>, limit: nat, id: JobId): Option<ClientId> {
    if steps == [] then None
    else
      var before := steps[..|steps| - 1];
      var last := steps[|steps| - 1];
      if TakingClaim(After(s, before, limit), last, id) then Some(last.c)
      else LastClaimer(s, before, limit, id)
  }

  /** Only a claim that takes effect gives a lease to a new owner. */
  lemma OwnerStep(s: Sys, step: Step, limit: nat, id: JobId)
    requires id in Apply(s, step, limit).queue && Apply(s, step, limit).queue[id].leaseOwner.Some?
    ensures var owner := Apply(s, step, limit).queue[id].leaseOwner;
            if TakingClaim(s, step, id) then owner == Some(step.c)
            else id in s.queue && s.queue[id].leaseOwner == owner
  {
    if !Touches(step, id) {
      OthersStay(s, step, limit, id);
      hide Apply;
    }
  }

  lemma {:induction false} OwnerIsLastClaimer(s: Sys, steps: seq<Step>, limit: nat, id: JobId)
    requires Initial(s) && id in After(s, steps, limit).queue
    requires After(s, steps, limit).queue[id].leaseOwner.Some?
    ensures LastClaimer(s, steps, limit, id) == After(s, steps, limit).queue[id].leaseOwner
  {
    if steps != [] {
      var before := steps[..|steps| - 1];
      OwnerStep(After(s, before, limit), steps[|steps| - 1], limit, id);
      if !TakingClaim(After(s, before, limit), steps[|steps| - 1], id) {
        OwnerIsLastClaimer(s, before, limit, id);
      }
    }
  }

  /** A running queue-managed job stops running in one of three ways: its lease has expired and
      a recovery ends it, or the client of the most recent claim finishes it or retries it. */
  lemma OnlyLastClaimerEnds(s: Sys, steps: seq<Step>, step: Step, limit: nat, id: JobId)
    requires Initial(s) && ValidRun(s, steps + [step], limit)
    requires var t := After(s, steps, limit);
             && id in t.queue && id in t.jobs && t.jobs[id].status.Running?
             && !Apply(t, step, limit).jobs[id].status.Running?
    ensures var t := After(s, steps, limit);
            || (step.RecoverRow? && step.id == id && Expired(t, id, step.now))
            || ((step.Finish? || step.Retry?) && step.id == id && LastClaimer(s, steps, limit, id) == Some(step.c))
  {
    hide Inv, Apply, Enabled, Initial, LastClaimer, Expired;
    var t := After(s, steps, limit);
    assert (steps + [step])[..|steps|] == steps;
    InitialInv(s, limit);
    RunPreserves(s, steps, limit);
    JobIsKept(t, step, limit, id);
    StopsRunning(t, step, limit, id);
    if LeasedBy(t, id, step.c) { OwnerIsLastClaimer(s, steps, limit, id); }
  }

  lemma JobIsKept(t: Sys, step: Step, limit: nat, id: JobId)
    requires Enabled(t, step) && id in t.jobs
    ensures id in Apply(t, step, limit).jobs
  {
  }

  lemma StopsRunning(t: Sys, step: Step, limit: nat, id: JobId)
    requires Inv(t, limit) && Enabled(t, step)
    requires id in t.queue && id in t.jobs && t.jobs[id].status.Running?
    requires id in Apply(t, step, limit).jobs && !Apply(t, step, limit).jobs[id].status.Running?
    ensures || (step.RecoverRow? && step.id == id && Expired(t, id, step.now))
            || ((step.Finish? || step.Retry?) && step.id == id && LeasedBy(t, id, step.c))
  {
    if !Touches(step, id) {
      OthersStay(t, step, limit, id);
      hide Apply, Enabled, Inv;
    }
  }

  // ---------------------------------------------------------------- bounded work

  function AttemptsLeft(s: Sys): map<JobId, nat> {
    map id | id in s.queue && id in s.jobs && !Terminal(s.jobs[id].status) :: Left(s.queue[id])
  }

  function Left(row: QueueRow): nat {
    if row.attempts <= row.maxAttempts then row.maxAttempts - row.attempts else 0
  }

  ghost function WorkLeft(s: Sys): nat { SumOf(AttemptsLeft(s)) }

  function Claims(s: Sys, steps: seq<Step>, limit: nat): nat {
    if steps == [] then 0
    else
      var before := steps[..|steps| - 1];
      var last := steps[|steps| - 1];
      Claims(s, before, limit) +
      if last.Claim? && ClaimTakes(After(s, before, limit), last.id, last.now) then 1 else 0
  }

  lemma ClaimSpendsAttempt(s: Sys, c: ClientId, id: JobId, now: Time, expires: Time)
    requires ClaimTakes(s, id, now)
    ensures WorkLeft(ClaimJob(s, c, id, now, expires)) == WorkLeft(s) - 1
  {
    ClaimedRows(s, c, id, now, expires);
    hide ClaimJob, ClaimTakes;
    var s' := ClaimJob(s, c, id, now, expires);
    var left, left' := AttemptsLeft(s), AttemptsLeft(s');
    SumUpdate(left, id, left[id] - 1);
    assert left' == left[id := left[id] - 1];
  }

  lemma ClaimedRows(s: Sys, c: ClientId, id: JobId, now: Time, expires: Time)
    requires ClaimTakes(s, id, now)
    ensures var s' := ClaimJob(s, c, id, now, expires);
            && id in s'.queue && id in s'.jobs && id in AttemptsLeft(s)
            && s'.queue == s.queue[id := s'.queue[id]] && s'.jobs == s.jobs[id := s'.jobs[id]]
            && !Terminal(s'.jobs[id].status) && AttemptsLeft(s)[id] >= 1 && Left(s'.queue[id]) == AttemptsLeft(s)[id] - 1
  {
  }

  lemma StepSpendsNoMore(s: Sys, step: Step, limit: nat)
    requires Inv(s, limit) && Enabled(s, step) && !step.AddQueueRow?
    ensures WorkLeft(Apply(s, step, limit)) + (if step.Claim? && ClaimTakes(s, step.id, step.now) then 1 else 0)
         <= WorkLeft(s)
  {
    if step.Claim? && ClaimTakes(s, step.id, step.now) {
      ClaimSpendsAttempt(s, step.c, step.id, step.now, step.expires);
    } else {
      var s' := Apply(s, step, limit);
      forall id | id in AttemptsLeft(s')
        ensures id in AttemptsLeft(s) && AttemptsLeft(s')[id] <= AttemptsLeft(s)[id]
      {
        NoNewAttempts(s, step, limit, id);
      }
      SumShrinks(AttemptsLeft(s'), AttemptsLeft(s));
    }
  }

  lemma NoNewAttempts(s: Sys, step: Step, limit: nat, id: JobId)
    requires Leases(s) && Enabled(s, step) && !step.AddQueueRow?
    requires var s' := Apply(s, step, limit);
             id in s'.queue && id in s'.jobs && !Terminal(s'.jobs[id].status)
    ensures id in s.queue && id in s.jobs && !Terminal(s.jobs[id].status)
    ensures Left(Apply(s, step, limit).queue[id]) <= Left(s.queue[id])
  {
    if !Touches(step, id) {
      OthersStay(s, step, limit, id);
      hide Apply, Leases, Enabled;
    } else {
      hide EnsureCounter, AcquireSlot, ReleaseSlot;
    }
  }

  /** Bounded work: without new enqueues, the claims that succeed on any run are at most the
      attempts that the unfinished jobs have left. */
  lemma {:induction false} ClaimsAreBounded(s: Sys, steps: seq<Step>, limit: nat)
    requires Inv(s, limit) && ValidRun(s, steps, limit)
    requires forall i :: 0 <= i < |steps| ==> !steps[i].AddQueueRow?
    ensures Claims(s, steps, limit) + WorkLeft(After(s, steps, limit)) <= WorkLeft(s)
  {
    if steps != [] {
      var before := steps[..|steps| - 1];
      ClaimsAreBounded(s, before, limit);
      RunPreserves(s, before, limit);
      StepSpendsNoMore(After(s, before, limit), steps[|steps| - 1], limit);
    }
  }

  // ---------------------------------------------------------------- cancellation and retry

  /** A cancelled job that is back in the queue: no claim takes it and nothing cancels it. */
  predicate Stranded(s: Sys, id: JobId) {
    id in s.queue && s.queue[id].cancelRequested && id in s.jobs && s.jobs[id].status.Queued?
  }

  /** Cancelling a job that has been queued leaves it cancelled, so the one step that strands a
      job is the retry of a running job whose cancellation was requested. */
  lemma StrandedExactlyByRetry(s: Sys, step: Step, limit: nat, id: JobId)
    requires Inv(s, limit) && Enabled(s, step) && !Stranded(s, id)
    ensures Stranded(Apply(s, step, limit), id)
       <==> step.Retry? && step.id == id && LeasedBy(s, id, step.c) && s.queue[id].cancelRequested
  {
    if !Touches(step, id) {
      OthersStay(s, step, limit, id);
      hide Apply, Enabled, Inv;
    }
  }

  /** A stranded job stays stranded on every run in which nobody asks for its cancellation again. */
  lemma {:induction false} StrandedStays(s: Sys, steps: seq<Step>, limit: nat, id: JobId)
    requires Inv(s, limit) && ValidRun(s, steps, limit) && Stranded(s, id)
    requires forall i :: 0 <= i < |steps| ==> !(steps[i].RequestCancel? && steps[i].id == id)
    ensures Stranded(After(s, steps, limit), id)
  {
    if steps != [] {
      var before := steps[..|steps| - 1];
      StrandedStays(s, before, limit, id);
      RunPreserves(s, before, limit);
      StrandedStep(After(s, before, limit), steps[|steps| - 1], limit, id);
    }
  }

  lemma StrandedStep(s: Sys, step: Step, limit: nat, id: JobId)
    requires Inv(s, limit) && Enabled(s, step) && Stranded(s, id)
    ensures if step.RequestCancel? && step.id == id
            then Apply(s, step, limit).jobs[id].status.Canceled?
            else Stranded(Apply(s, step, limit), id)
  {
    if !Touches(step, id) {
      OthersStay(s, step, limit, id);
      hide Apply, Enabled, Inv;
    }
  }

  /** It takes three steps from any claim with an attempt left: the claim, a cancellation while
      the job runs, and a retryable failure. */
  lemma CancelThenRetryStrands(s: Sys, c: ClientId, id: JobId, now: Time, expires: Time, limit: nat)
    requires Inv(s, limit) && Enabled(s, Claim(c, id, now, expires)) && ClaimTakes(s, id, now)
    requires s.queue[id].attempts + 1 < s.queue[id].maxAttempts
    ensures var steps := [Claim(c, id, now, expires), RequestCancel(id, now), Retry(c, id, now)];
            ValidRun(s, steps, limit) && Stranded(After(s, steps, limit), id)
  {
    ClaimedAndCanceled(s, c, id, now, expires, limit);
    hide ClaimJob, CancelJob, RetryJob, Stranded, Inv, ClaimTakes, Apply, Enabled;
    var s1 := ClaimJob(s, c, id, now, expires);
    var s2 := CancelJob(s1, id, now);
    var one := Extend(s, [], s, Claim(c, id, now, expires), limit);
    var two := Extend(s, one, s1, RequestCancel(id, now), limit);
    var three := Extend(s, two, s2, Retry(c, id, now), limit);
    assert three == [Claim(c, id, now, expires), RequestCancel(id, now), Retry(c, id, now)];
  }

  lemma ClaimedAndCanceled(s: Sys, c: ClientId, id: JobId, now: Time, expires: Time, limit: nat)
    requires Inv(s, limit) && Enabled(s, Claim(c, id, now, expires)) && ClaimTakes(s, id, now)
    requires s.queue[id].attempts + 1 < s.queue[id].maxAttempts
    ensures var s1 := ClaimJob(s, c, id, now, expires);
            var s2 := CancelJob(s1, id, now);
            && Apply(s, Claim(c, id, now, expires), limit) == s1
            && Enabled(s1, RequestCancel(id, now)) && Apply(s1, RequestCancel(id, now), limit) == s2
            && Enabled(s2, Retry(c, id, now)) && Stranded(Apply(s2, Retry(c, id, now), limit), id)
  {
    var s1 := ClaimJob(s, c, id, now, expires);
    var s2 := CancelJob(s1, id, now);
    assert s1.jobs[id].status.Running? && s2.jobs[id] == s1.jobs[id];
    assert s2.queue[id] == s1.queue[id].(cancelRequested := true);
  }

  lemma Extend(s: Sys, steps: seq<Step>, t: Sys, step: Step, limit: nat) returns (more: seq<Step>)
    requires ValidRun(s, steps, limit) && After(s, steps, limit) == t && Enabled(t, step)
    ensures more == steps + [step]
    ensures ValidRun(s, more, limit) && After(s, more, limit) == Apply(t, step, limit)
  {
    more := steps + [step];
    assert more[..|more| - 1] == steps;
  }

  // ---------------------------------------------------------------- reconciliation

  /** The counters after a reconciliation: every workspace's counter is its running jobs. */
  function Reconciled(s: Sys): Sys {
    s.(runtime := s.runtime + map ws | ws in s.workspaces :: |RunningJobs(s.jobs, ws)|)
  }

  lemma ReconciledRuntime(s: Sys, runtime: map<WorkspaceId, nat>)
    requires forall ws :: ws in runtime <==> ws in s.runtime || ws in s.workspaces
    requires forall ws :: ws in s.workspaces ==> runtime[ws] == |RunningJobs(s.jobs, ws)|
    requires forall ws :: ws in s.runtime && ws !in s.workspaces ==> runtime[ws] == s.runtime[ws]
    ensures runtime == Reconciled(s).runtime
  {
  }

  /** The workspaces whose counter row is missing or differs from the running jobs. */
  function MisCounted(s: Sys): set<WorkspaceId> {
    set ws | ws in s.workspaces && !(ws in s.runtime && s.runtime[ws] == |RunningJobs(s.jobs, ws)|)
  }

  /** Reconciliation keeps the counters right exactly when no client holds a slot of any
      workspace it reconciles; in that case it alters no counter that exists. */
  lemma ReconcileIsExact(s: Sys, limit: nat)
    requires Inv(s, limit)
    ensures Conserved(Reconciled(s)) <==> forall ws :: ws in s.workspaces ==> InHand(s.slots, ws) == 0
    ensures Conserved(Reconciled(s)) ==>
              && (forall ws :: ws in s.runtime ==> Reconciled(s).runtime[ws] == s.runtime[ws])
              && (forall ws :: ws in MisCounted(s) ==> ws !in s.runtime)
  {
    var r := Reconciled(s);
    forall ws: WorkspaceId
      ensures Active(r.runtime, ws) == |RunningJobs(r.jobs, ws)| + InHand(r.slots, ws)
         <==> (ws in s.workspaces ==> InHand(s.slots, ws) == 0)
    {
      assert Active(s.runtime, ws) == |RunningJobs(s.jobs, ws)| + InHand(s.slots, ws);
    }
    if Conserved(r) {
      forall ws | ws in s.runtime
        ensures r.runtime[ws] == s.runtime[ws]
      {
        assert Active(s.runtime, ws) == |RunningJobs(s.jobs, ws)| + InHand(s.slots, ws);
        assert Active(r.runtime, ws) == |RunningJobs(r.jobs, ws)| + InHand(r.slots, ws);
      }
    }
  }

  /** Reconciling while one slot is in hand can put two jobs in a workspace limited to one. */
  lemma ReconcileInFlightOverAdmits(s: Sys, a: JobId, b: JobId)
    requires Inv(s, 1) && 0 in s.workspaces && a != b && 0 in Hand(s.slots, 1)
    requires ClaimTakes(s, a, 0) && ClaimTakes(s, b, 0) && s.jobs[a].workspace == 0 == s.jobs[b].workspace
    ensures var t := AcquireSlot(Reconciled(s), 2, 0, 1);
            && 0 in Hand(t.slots, 1) && 0 in Hand(t.slots, 2)
            && |RunningJobs(ClaimJob(ClaimJob(t, 1, a, 0, 60), 2, b, 0, 60).jobs, 0)| >= 2
  {
    SumBound(Loads(s.slots, 0), 1);
    assert Active(s.runtime, 0) == |RunningJobs(s.jobs, 0)| + InHand(s.slots, 0);
    assert Active(s.runtime, 0) <= 1;
    var t := AcquireSlot(Reconciled(s), 2, 0, 1);
    assert Reconciled(s).runtime[0] == 0;
    assert t.jobs == s.jobs && t.queue == s.queue;
    TwoClaimsRunTwo(t, a, b);
  }

  lemma TwoClaimsRunTwo(t: Sys, a: JobId, b: JobId)
    requires a != b && ClaimTakes(t, a, 0) && ClaimTakes(t, b, 0)
    requires t.jobs[a].workspace == 0 == t.jobs[b].workspace
    ensures |RunningJobs(ClaimJob(ClaimJob(t, 1, a, 0, 60), 2, b, 0, 60).jobs, 0)| >= 2
  {
    var t1 := ClaimJob(t, 1, a, 0, 60);
    RunningUpdate(t.jobs, a, t1.jobs[a], 0);
    assert ClaimTakes(t1, b, 0) && t1.jobs[b] == t.jobs[b];
    var t2 := ClaimJob(t1, 2, b, 0, 60);
    assert t2.jobs == t1.jobs[b := t2.jobs[b]];
    RunningUpdate(t1.jobs, b, t2.jobs[b], 0);
  }

  /** A database with one workspace, two queued jobs and one slot taken, step by step. */
  const ONE_WORKSPACE := Sys({0}, map[], map[], map[], map[], map[])
  const QUEUED_JOB := Job(0, 0, Source, Queued, 0, None, None, 0, None)
  const NEW_ROW := QueueRow(0, 1, None, None, None, 0, false)
  const TWO_QUEUED := Sys({0}, map[Random(0) := QUEUED_JOB, Random(1) := QUEUED_JOB],
                          map[Random(0) := NEW_ROW, Random(1) := NEW_ROW], map[0 := 1], map[1 := multiset{0}], map[])

  const COUNTED := ONE_WORKSPACE.(runtime := map[0 := 0])
  const ONE_CREATED := COUNTED.(jobs := map[Random(0) := QUEUED_JOB])
  const ONE_IN_QUEUE := ONE_CREATED.(queue := map[Random(0) := NEW_ROW])
  const TWO_CREATED := ONE_IN_QUEUE.(jobs := map[Random(0) := QUEUED_JOB, Random(1) := QUEUED_JOB])

  lemma CreatedInTurn()
    ensures Enabled(ONE_WORKSPACE, EnsureRuntime(0)) && EnsureCounter(ONE_WORKSPACE, 0) == COUNTED
    ensures InsertJob(COUNTED, 1, Random(0), QUEUED_JOB, false) == ONE_CREATED
    ensures InsertJob(ONE_IN_QUEUE, 1, Random(1), QUEUED_JOB, false) == TWO_CREATED
    ensures Enabled(COUNTED, CreateJob(1, Random(0), QUEUED_JOB, false)) && Enabled(ONE_IN_QUEUE, CreateJob(1, Random(1), QUEUED_JOB, false))
  {
    assert ONE_IN_QUEUE.jobs[Random(1) := QUEUED_JOB] == TWO_CREATED.jobs;
  }

  lemma QueuedInTurn()
    ensures InsertRow(ONE_CREATED, Random(0), 1, 0) == ONE_IN_QUEUE
    ensures InsertRow(TWO_CREATED, Random(1), 1, 0) == TWO_QUEUED.(runtime := map[0 := 0], slots := map[])
    ensures Enabled(ONE_CREATED, AddQueueRow(Random(0), 1, 0)) && Enabled(TWO_CREATED, AddQueueRow(Random(1), 1, 0))
  {
    assert TWO_CREATED.queue[Random(1) := NEW_ROW] == TWO_QUEUED.queue;
  }

  lemma TwoAreQueued() returns (steps: seq<Step>)
    ensures ValidRun(ONE_WORKSPACE, steps, 1)
    ensures After(ONE_WORKSPACE, steps, 1) == TWO_QUEUED.(runtime := map[0 := 0], slots := map[])
  {
    assert ValidRun(ONE_WORKSPACE, [], 1) && After(ONE_WORKSPACE, [], 1) == ONE_WORKSPACE;
    hide Enabled, EnsureCounter, InsertJob, InsertRow, AcquireSlot, ReleaseSlot, ClaimJob, RetryJob, FinishJob, RecoverJob,
         CancelJob, StartSync, FinishSync, RenewLease, ValidRun, After;
    CreatedInTurn();
    QueuedInTurn();
    steps := Extend(ONE_WORKSPACE, [], ONE_WORKSPACE, EnsureRuntime(0), 1);
    steps := Extend(ONE_WORKSPACE, steps, COUNTED, CreateJob(1, Random(0), QUEUED_JOB, false), 1);
    steps := Extend(ONE_WORKSPACE, steps, ONE_CREATED, AddQueueRow(Random(0), 1, 0), 1);
    steps := Extend(ONE_WORKSPACE, steps, ONE_IN_QUEUE, CreateJob(1, Random(1), QUEUED_JOB, false), 1);
    steps := Extend(ONE_WORKSPACE, steps, TWO_CREATED, AddQueueRow(Random(1), 1, 0), 1);
  }

  lemma InFlightIsReached() returns (steps: seq<Step>)
    ensures Initial(ONE_WORKSPACE) && ValidRun(ONE_WORKSPACE, steps, 1) && After(ONE_WORKSPACE, steps, 1) == TWO_QUEUED
  {
    steps := TwoAreQueued();
    var queued := TWO_QUEUED.(runtime := map[0 := 0], slots := map[]);
    var t := AcquireSlot(queued, 1, 0, 1);
    assert t.runtime == map[0 := 1];
    assert Hand(queued.slots, 1) + multiset{0} == multiset{0};
    assert t.slots == map[1 := multiset{0}];
    assert t == TWO_QUEUED;
    hide AcquireSlot, ValidRun, After;
    steps := Extend(ONE_WORKSPACE, steps, queued, Acquire(1, 0, 1), 1);
  }

  /** From the empty database: two jobs are queued in a workspace limited to one, a worker takes
      the slot, reconciliation clears the counter before the worker's claim, a second worker takes
      the slot again, and both claim. */
  lemma ReconcileInFlightFromEmpty() returns (steps: seq<Step>)
    ensures Initial(ONE_WORKSPACE) && ValidRun(ONE_WORKSPACE, steps, 1)
    ensures var t := AcquireSlot(Reconciled(After(ONE_WORKSPACE, steps, 1)), 2, 0, 1);
            && Enabled(t, Claim(1, Random(0), 0, 60))
            && var u := ClaimJob(t, 1, Random(0), 0, 60);
               && Enabled(u, Claim(2, Random(1), 0, 60))
               && |RunningJobs(ClaimJob(u, 2, Random(1), 0, 60).jobs, 0)| >= 2
  {
    hide After, ValidRun, Inv, Reconciled, AcquireSlot, RunningJobs;
    steps := InFlightIsReached();
    InitialInv(ONE_WORKSPACE, 1);
    RunPreserves(ONE_WORKSPACE, steps, 1);
    hide Initial;
    ReconcileInFlightOverAdmits(TWO_QUEUED, Random(0), Random(1));
    SlotsStay(Reconciled(TWO_QUEUED), 2, 0, 1);
    ReconciledKeeps(TWO_QUEUED);
  }

  lemma SlotsStay(s: Sys, c: ClientId, ws: WorkspaceId, limit: int)
    ensures AcquireSlot(s, c, ws, limit).jobs == s.jobs && AcquireSlot(s, c, ws, limit).queue == s.queue
    ensures AcquireSlot(s, c, ws, limit).sync == s.sync
  {
  }

  // ---------------------------------------------------------------- clients that have stopped

  predicate ActsFor(step: Step, c: ClientId) {
    match step
    case EnsureRuntime(_) => false
    case AddQueueRow(_, _, _) => false
    case RequestCancel(_, _) => false
    case _ => step.c == c
  }

  lemma HandStays(s: Sys, step: Step, limit: nat, c: ClientId)
    requires !ActsFor(step, c)
    ensures Hand(Apply(s, step, limit).slots, c) == Hand(s.slots, c)
  {
    hide Stored, RecoveredJob, Claimable;
  }

  /** A client that has stopped keeps its slots, and they stay counted: without reconciliation the
      capacity is lost on every run. */
  lemma {:induction false} StoppedKeepsSlots(s: Sys, steps: seq<Step>, limit: nat, c: ClientId, ws: WorkspaceId)
    requires Inv(s, limit) && ValidRun(s, steps, limit)
    requires forall i :: 0 <= i < |steps| ==> !ActsFor(steps[i], c)
    ensures var t := After(s, steps, limit);
            && Hand(t.slots, c) == Hand(s.slots, c)
            && Active(t.runtime, ws) >= |RunningJobs(t.jobs, ws)| + Hand(s.slots, c)[ws]
  {
    StoppedKeepsHand(s, steps, limit, c);
    RunPreserves(s, steps, limit);
    var t := After(s, steps, limit);
    assert Active(t.runtime, ws) == |RunningJobs(t.jobs, ws)| + InHand(t.slots, ws);
    if c in t.slots { SumBound(Loads(t.slots, ws), c); }
    hide Inv, After, ValidRun;
  }

  lemma {:induction false} StoppedKeepsHand(s: Sys, steps: seq<Step>, limit: nat, c: ClientId)
    requires forall i :: 0 <= i < |steps| ==> !ActsFor(steps[i], c)
    ensures Hand(After(s, steps, limit).slots, c) == Hand(s.slots, c)
  {
    if steps != [] {
      StoppedKeepsHand(s, steps[..|steps| - 1], limit, c);
      HandStays(After(s, steps[..|steps| - 1], limit), steps[|steps| - 1], limit, c);
      hide Apply, Hand;
    }
  }

  /** Counters exist for workspaces only. */
  predicate CountersKnown(s: Sys) { s.runtime.Keys <= s.workspaces }

  lemma StepKeepsCounters(s: Sys, step: Step, limit: nat)
    requires CountersKnown(s) && Enabled(s, step)
    ensures CountersKnown(Apply(s, step, limit))
  {
    hide Stored, RecoveredJob, Claimable, LeasedBy, Expired, ClaimTakes;
  }

  lemma {:induction false} CountersOnEveryRun(s: Sys, steps: seq<Step>, limit: nat)
    requires CountersKnown(s) && ValidRun(s, steps, limit)
    ensures CountersKnown(After(s, steps, limit))
  {
    if steps != [] {
      CountersOnEveryRun(s, steps[..|steps| - 1], limit);
      StepKeepsCounters(After(s, steps[..|steps| - 1], limit), steps[|steps| - 1], limit);
      hide Apply, Enabled, CountersKnown;
    }
  }

  /** The bookkeeping without the slots of clients that have stopped for good. */
  function WithoutClients(s: Sys, stopped: set<ClientId>): Sys { s.(slots := s.slots - stopped) }

  /** What reconciliation is for: on every run, reconciling after
      some clients have stopped restores the invariant for the others, limit included, exactly
      when none of these holds a slot. */
  lemma ReconcileRestores(s: Sys, steps: seq<Step>, limit: nat, stopped: set<ClientId>)
    requires Initial(s) && ValidRun(s, steps, limit)
    ensures var left := WithoutClients(After(s, steps, limit), stopped);
            Inv(Reconciled(left), limit) <==> forall ws :: InHand(left.slots, ws) == 0
  {
    InitialInv(s, limit);
    RunPreserves(s, steps, limit);
    CountersOnEveryRun(s, steps, limit);
    hide After, ValidRun, Initial;
    RestoresExactly(After(s, steps, limit), limit, stopped);
  }

  lemma RestoresExactly(s: Sys, limit: nat, stopped: set<ClientId>)
    requires Inv(s, limit) && CountersKnown(s)
    ensures var left := WithoutClients(s, stopped);
            Inv(Reconciled(left), limit) <==> forall ws :: InHand(left.slots, ws) == 0
  {
    var left := WithoutClients(s, stopped);
    var r := Reconciled(left);
    assert Leases(r);
    ReconciledKeeps(left);
    forall ws: WorkspaceId ensures Active(r.runtime, ws) == |RunningJobs(r.jobs, ws)| <= limit {
      RecountedRunning(s, limit, stopped, ws);
    }
    hide Leases, Active, InHand, RunningJobs, Reconciled, CountersKnown;
    ConservedExactly(r);
  }

  /** Reconciling counts the running jobs of every workspace, which are within the limit. */
  lemma RecountedRunning(s: Sys, limit: nat, stopped: set<ClientId>, ws: WorkspaceId)
    requires Inv(s, limit) && CountersKnown(s)
    ensures Active(Reconciled(WithoutClients(s, stopped)).runtime, ws) == |RunningJobs(s.jobs, ws)| <= limit
  {
    assert Active(s.runtime, ws) == |RunningJobs(s.jobs, ws)| + InHand(s.slots, ws);
    assert Active(s.runtime, ws) <= limit;
    hide Leases, InHand, RunningJobs;
  }

  lemma ConservedExactly(s: Sys)
    requires forall ws :: Active(s.runtime, ws) == |RunningJobs(s.jobs, ws)|
    ensures Conserved(s) <==> forall ws :: InHand(s.slots, ws) == 0
  {
    hide Active, InHand, RunningJobs;
    forall ws: WorkspaceId
      ensures Active(s.runtime, ws) == |RunningJobs(s.jobs, ws)| + InHand(s.slots, ws) <==> InHand(s.slots, ws) == 0
    {
    }
    if Conserved(s) {
      forall ws ensures InHand(s.slots, ws) == 0 {
        assert Active(s.runtime, ws) == |RunningJobs(s.jobs, ws)| + InHand(s.slots, ws);
      }
    }
  }

  lemma ReconciledKeeps(s: Sys)
    ensures Reconciled(s).jobs == s.jobs && Reconciled(s).slots == s.slots && Reconciled(s).queue == s.queue
  {
  }
}
