/** The scan queue column by column: which transactions change a column of a job or of its queue
    row, and to what, and what the columns therefore say on every run. */
module ScanQueueColumns {
  import opened Common
  import opened ScanQueue
  import opened ScanQueueRuns
  import opened ScanQueueRely

  // ---------------------------------------------------------------- when a transaction takes effect

  /** The job runs under a lease of client `c`. */
  predicate Holds(s: Sys, id: JobId, c: ClientId) {
    id in s.jobs && id in s.queue && s.jobs[id].status.Running? && s.queue[id].leaseOwner == Some(c)
  }

  /** The job runs under a lease that is over by `now`. */
  predicate LeaseOver(s: Sys, id: JobId, now: Time) {
    && id in s.jobs && id in s.queue && s.jobs[id].status.Running?
    && s.queue[id].leaseExpiresAt.Some? && s.queue[id].leaseExpiresAt.value <= now
  }

  /** The job waits and may be claimed at `now`. */
  predicate Waits(s: Sys, id: JobId, now: Time) {
    && id in s.jobs && id in s.queue && s.jobs[id].status.Queued?
    && s.queue[id].leaseOwner.None? && !s.queue[id].cancelRequested
    && s.queue[id].nextAttemptAt <= now && s.queue[id].attempts < s.queue[id].maxAttempts
  }

  predicate ClaimsJob(s: Sys, step: Step, id: JobId) { step.Claim? && step.id == id && Waits(s, id, step.now) }

  predicate Renews(s: Sys, step: Step, id: JobId) {
    step.Heartbeat? && step.id == id && id in s.queue && s.queue[id].leaseOwner == Some(step.c) && !s.queue[id].cancelRequested
  }

  predicate Finishes(s: Sys, step: Step, id: JobId) { step.Finish? && step.id == id && Holds(s, id, step.c) }

  predicate Retries(s: Sys, step: Step, id: JobId) { step.Retry? && step.id == id && Holds(s, id, step.c) }

  predicate Recovers(s: Sys, step: Step, id: JobId) { step.RecoverRow? && step.id == id && LeaseOver(s, id, step.now) }

  predicate Cancels(s: Sys, step: Step, id: JobId) {
    step.RequestCancel? && step.id == id && id in s.queue && id in s.jobs && !s.jobs[id].finishedAt.Some?
  }

  predicate StartsSync(s: Sys, step: Step, id: JobId) {
    step.SyncStart? && step.id == id && id in s.jobs && s.jobs[id].status.Queued?
  }

  predicate EndsSync(s: Sys, step: Step, id: JobId) {
    step.SyncFinish? && step.id == id && id in s.jobs && s.jobs[id].status.Running?
  }

  /** A recovered job goes back to the queue: no cancellation was requested, attempts are left. */
  predicate GoesBack(row: QueueRow) { !row.cancelRequested && row.attempts != row.maxAttempts }

  /** Text of at most 4000 characters. */
  function Cut(text: string): string { if |text| <= 4000 then text else text[..4000] }

  // ---------------------------------------------------------------- the columns of a job

  function NextStatus(s: Sys, step: Step, id: JobId): ScanStatus
    requires id in s.jobs
  {
    if ClaimsJob(s, step, id) || StartsSync(s, step, id) then Running
    else if Finishes(s, step, id) || EndsSync(s, step, id) then step.status
    else if Retries(s, step, id) then Queued
    else if Recovers(s, step, id) then
      if s.queue[id].cancelRequested then Canceled else if GoesBack(s.queue[id]) then Queued else Failed
    else if Cancels(s, step, id) && s.jobs[id].status.Queued? then Canceled
    else s.jobs[id].status
  }

  /** The time a transaction that can end a job is given. */
  function Clock(step: Step): Option<Time> {
    match step
    case RequestCancel(_, now) => Some(now)
    case RecoverRow(_, _, now) => Some(now)
    case Finish(_, _, _, _, _, now) => Some(now)
    case SyncFinish(_, _, _, _, _, now) => Some(now)
    case _ => None
  }

  predicate JobColumns(s: Sys, step: Step, id: JobId, job: Job)
    requires id in s.jobs
  {
    var was := s.jobs[id];
    && SameWork(was, job) && job.status == NextStatus(s, step, id)
    && job.startedAt == (if ClaimsJob(s, step, id) || StartsSync(s, step, id) then Some(step.now) else was.startedAt)
    && job.finishedAt == (if Terminal(job.status) && !Terminal(was.status) then Clock(step) else was.finishedAt)
    && job.findingsCount == (if Finishes(s, step, id) then step.findings
                             else if EndsSync(s, step, id) && step.count.Some? then step.count.value
                             else was.findingsCount)
    && job.errorMessage == (if Finishes(s, step, id) then
                              if step.error.None? || step.error.value == "" then None else Some(Cut(step.error.value))
                            else if EndsSync(s, step, id) && step.error.Some? then Some(Cut(step.error.value))
                            else if Recovers(s, step, id) && job.status.Failed? then Some("worker lease expired after final attempt")
                            else was.errorMessage)
  }

  // ---------------------------------------------------------------- the columns of a queue row

  predicate RowColumns(s: Sys, step: Step, id: JobId, row: QueueRow)
    requires id in s.queue
  {
    var was := s.queue[id];
    var freed := Finishes(s, step, id) || Retries(s, step, id) || Recovers(s, step, id);
    && row.maxAttempts == was.maxAttempts
    && row.attempts == was.attempts + (if ClaimsJob(s, step, id) then 1 else 0)
    && row.cancelRequested == (was.cancelRequested || Cancels(s, step, id))
    && row.leaseOwner == (if ClaimsJob(s, step, id) then Some(step.c) else if freed then None else was.leaseOwner)
    && row.leaseExpiresAt == (if ClaimsJob(s, step, id) || Renews(s, step, id) then Some(step.expires)
                              else if freed then None else was.leaseExpiresAt)
    && row.lastHeartbeatAt == (if ClaimsJob(s, step, id) || Renews(s, step, id) then Some(step.now)
                               else if freed then None else was.lastHeartbeatAt)
    && row.nextAttemptAt == (if Retries(s, step, id) then step.nextAttempt
                             else if Recovers(s, step, id) && GoesBack(was) then step.now
                             else was.nextAttemptAt)
  }

  /** The columns of one job and its queue row after a transaction. */
  ghost predicate Columns(s: Sys, step: Step, id: JobId, t: Sys)
    requires id in s.jobs
  {
    && id in t.jobs && JobColumns(s, step, id, t.jobs[id])
    && (id in s.queue ==> id in t.queue && RowColumns(s, step, id, t.queue[id]))
  }

  /** What the invariant says about one job. */
  ghost predicate RowsOk(s: Sys, id: JobId) {
    && id in s.jobs && (Terminal(s.jobs[id].status) <==> s.jobs[id].finishedAt.Some?)
    && (id in s.queue ==> id !in s.sync && RowOk(s.jobs[id], s.queue[id]))
  }

  lemma InvRows(s: Sys, limit: nat, id: JobId)
    requires Inv(s, limit) && id in s.jobs
    ensures RowsOk(s, id)
  {
  }

  lemma ClaimColumns(s: Sys, c: ClientId, id: JobId, now: Time, expires: Time)
    requires RowsOk(s, id)
    ensures Columns(s, Claim(c, id, now, expires), id, ClaimJob(s, c, id, now, expires))
  {
    ClaimColumnsOfJob(s, c, id, now, expires);
    ClaimColumnsOfRow(s, c, id, now, expires);
    hide JobColumns, RowColumns, ClaimJob, RowsOk;
  }

  lemma ClaimColumnsOfJob(s: Sys, c: ClientId, id: JobId, now: Time, expires: Time)
    requires RowsOk(s, id)
    ensures id in ClaimJob(s, c, id, now, expires).jobs && JobColumns(s, Claim(c, id, now, expires), id, ClaimJob(s, c, id, now, expires).jobs[id])
  {
  }

  lemma ClaimColumnsOfRow(s: Sys, c: ClientId, id: JobId, now: Time, expires: Time)
    requires RowsOk(s, id)
    ensures id in s.queue ==> id in ClaimJob(s, c, id, now, expires).queue && RowColumns(s, Claim(c, id, now, expires), id, ClaimJob(s, c, id, now, expires).queue[id])
  {
  }

  lemma RenewColumns(s: Sys, c: ClientId, id: JobId, now: Time, expires: Time)
    requires RowsOk(s, id)
    ensures Columns(s, Heartbeat(c, id, now, expires), id, RenewLease(s, c, id, now, expires))
  {
  }

  lemma RetryColumns(s: Sys, c: ClientId, id: JobId, nextAttempt: Time)
    requires RowsOk(s, id)
    ensures Columns(s, Retry(c, id, nextAttempt), id, RetryJob(s, c, id, nextAttempt))
  {
    RetryColumnsOfJob(s, c, id, nextAttempt);
    RetryColumnsOfRow(s, c, id, nextAttempt);
    hide JobColumns, RowColumns, RetryJob, RowsOk;
  }

  lemma RetryColumnsOfJob(s: Sys, c: ClientId, id: JobId, nextAttempt: Time)
    requires RowsOk(s, id)
    ensures id in RetryJob(s, c, id, nextAttempt).jobs && JobColumns(s, Retry(c, id, nextAttempt), id, RetryJob(s, c, id, nextAttempt).jobs[id])
  {
  }

  lemma RetryColumnsOfRow(s: Sys, c: ClientId, id: JobId, nextAttempt: Time)
    requires RowsOk(s, id)
    ensures id in s.queue ==> id in RetryJob(s, c, id, nextAttempt).queue && RowColumns(s, Retry(c, id, nextAttempt), id, RetryJob(s, c, id, nextAttempt).queue[id])
  {
  }

  lemma FinishColumns(s: Sys, c: ClientId, id: JobId, status: ScanStatus, findings: nat, error: Option<string>, now: Time)
    requires RowsOk(s, id) && Terminal(status)
    ensures Columns(s, Finish(c, id, status, findings, error, now), id, FinishJob(s, c, id, status, findings, error, now))
  {
    FinishColumnsOfJob(s, c, id, status, findings, error, now);
    FinishColumnsOfRow(s, c, id, status, findings, error, now);
    hide JobColumns, RowColumns, FinishJob, RowsOk;
  }

  lemma FinishColumnsOfJob(s: Sys, c: ClientId, id: JobId, status: ScanStatus, findings: nat, error: Option<string>, now: Time)
    requires RowsOk(s, id) && Terminal(status)
    ensures id in FinishJob(s, c, id, status, findings, error, now).jobs && JobColumns(s, Finish(c, id, status, findings, error, now), id, FinishJob(s, c, id, status, findings, error, now).jobs[id])
  {
  }

  lemma FinishColumnsOfRow(s: Sys, c: ClientId, id: JobId, status: ScanStatus, findings: nat, error: Option<string>, now: Time)
    requires RowsOk(s, id) && Terminal(status)
    ensures id in s.queue ==> id in FinishJob(s, c, id, status, findings, error, now).queue && RowColumns(s, Finish(c, id, status, findings, error, now), id, FinishJob(s, c, id, status, findings, error, now).queue[id])
  {
  }

  lemma CancelColumns(s: Sys, id: JobId, now: Time)
    requires RowsOk(s, id)
    ensures Columns(s, RequestCancel(id, now), id, CancelJob(s, id, now))
  {
  }

  lemma RecoverColumns(s: Sys, c: ClientId, id: JobId, now: Time)
    requires RowsOk(s, id)
    ensures Columns(s, RecoverRow(c, id, now), id, RecoverJob(s, c, id, now))
  {
    RecoverColumnsOfJob(s, c, id, now);
    RecoverColumnsOfRow(s, c, id, now);
    hide JobColumns, RowColumns, RecoverJob, RowsOk;
  }

  lemma RecoverColumnsOfJob(s: Sys, c: ClientId, id: JobId, now: Time)
    requires RowsOk(s, id)
    ensures id in RecoverJob(s, c, id, now).jobs && JobColumns(s, RecoverRow(c, id, now), id, RecoverJob(s, c, id, now).jobs[id])
  {
  }

  lemma RecoverColumnsOfRow(s: Sys, c: ClientId, id: JobId, now: Time)
    requires RowsOk(s, id)
    ensures id in s.queue ==> id in RecoverJob(s, c, id, now).queue && RowColumns(s, RecoverRow(c, id, now), id, RecoverJob(s, c, id, now).queue[id])
  {
  }

  lemma SyncStartColumns(s: Sys, c: ClientId, id: JobId, now: Time)
    requires RowsOk(s, id)
    ensures Columns(s, SyncStart(c, id, now), id, StartSync(s, c, id, now))
  {
  }

  lemma SyncEndColumns(s: Sys, c: ClientId, id: JobId, status: ScanStatus, count: Option<nat>, error: Option<string>, now: Time)
    requires RowsOk(s, id) && Terminal(status)
    ensures Columns(s, SyncFinish(c, id, status, count, error, now), id, FinishSync(s, c, id, status, count, error, now))
  {
    SyncEndColumnsOfJob(s, c, id, status, count, error, now);
    SyncEndColumnsOfRow(s, c, id, status, count, error, now);
    hide JobColumns, RowColumns, FinishSync, RowsOk;
  }

  lemma SyncEndColumnsOfJob(s: Sys, c: ClientId, id: JobId, status: ScanStatus, count: Option<nat>, error: Option<string>, now: Time)
    requires RowsOk(s, id) && Terminal(status)
    ensures id in FinishSync(s, c, id, status, count, error, now).jobs && JobColumns(s, SyncFinish(c, id, status, count, error, now), id, FinishSync(s, c, id, status, count, error, now).jobs[id])
  {
  }

  lemma SyncEndColumnsOfRow(s: Sys, c: ClientId, id: JobId, status: ScanStatus, count: Option<nat>, error: Option<string>, now: Time)
    requires RowsOk(s, id) && Terminal(status)
    ensures id in s.queue ==> id in FinishSync(s, c, id, status, count, error, now).queue && RowColumns(s, SyncFinish(c, id, status, count, error, now), id, FinishSync(s, c, id, status, count, error, now).queue[id])
  {
  }

  lemma UntouchedColumns(s: Sys, step: Step, id: JobId, t: Sys)
    requires RowsOk(s, id) && SameRowsAt(s, t, id) && !Touches(step, id)
    ensures Columns(s, step, id, t)
  {
  }

  /** What every transaction does to every column of a job and its queue row. */
  lemma StepColumns(s: Sys, step: Step, limit: nat, id: JobId)
    requires Inv(s, limit) && Enabled(s, step) && id in s.jobs
    ensures Columns(s, step, id, Apply(s, step, limit))
  {
    InvRows(s, limit, id);
    assert step.Finish? || step.SyncFinish? ==> Terminal(step.status);
    hide Inv, Enabled, RowsOk, Columns, ClaimJob, RenewLease, RetryJob, FinishJob, CancelJob, RecoverJob, StartSync, FinishSync;
    if !Touches(step, id) {
      OthersStay(s, step, limit, id);
      hide Apply;
      UntouchedColumns(s, step, id, Apply(s, step, limit));
    } else {
      match step
      case Claim(c, _, now, expires) => ClaimColumns(s, c, id, now, expires);
      case Heartbeat(c, _, now, expires) => RenewColumns(s, c, id, now, expires);
      case Retry(c, _, nextAttempt) => RetryColumns(s, c, id, nextAttempt);
      case Finish(c, _, status, findings, error, now) => FinishColumns(s, c, id, status, findings, error, now);
      case RequestCancel(_, now) => CancelColumns(s, id, now);
      case RecoverRow(c, _, now) => RecoverColumns(s, c, id, now);
      case SyncStart(c, _, now) => SyncStartColumns(s, c, id, now);
      case SyncFinish(c, _, status, count, error, now) => SyncEndColumns(s, c, id, status, count, error, now);
      case CreateJob(_, _, _, _) => InsertedColumns(s, step, limit, id);
      case AddQueueRow(_, _, _) => InsertedColumns(s, step, limit, id);
    }
  }

  lemma InsertedColumns(s: Sys, step: Step, limit: nat, id: JobId)
    requires RowsOk(s, id) && (step.CreateJob? || step.AddQueueRow?)
    ensures Columns(s, step, id, Apply(s, step, limit))
  {
  }

  // ---------------------------------------------------------------- new rows

  /** A queue row starts without attempts and lease, due at once. */
  lemma NewRow(s: Sys, step: Step, limit: nat, id: JobId)
    requires id !in s.queue && id in Apply(s, step, limit).queue
    ensures step.AddQueueRow? && step.id == id
    ensures Apply(s, step, limit).queue[id] == QueueRow(0, step.maxAttempts, None, None, None, step.now, false)
  {
    if !Touches(step, id) {
      OthersStay(s, step, limit, id);
      hide Apply;
    }
  }

  /** A job starts as it was given, queued. */
  lemma NewJob(s: Sys, step: Step, limit: nat, id: JobId)
    requires Enabled(s, step) && id !in s.jobs && id in Apply(s, step, limit).jobs
    ensures step.CreateJob? && step.id == id && Apply(s, step, limit).jobs[id] == step.job && step.job.status.Queued?
  {
    if !Touches(step, id) {
      OthersStay(s, step, limit, id);
      hide Apply, Enabled;
    }
  }

  lemma RowStays(s: Sys, step: Step, limit: nat, id: JobId)
    requires Inv(s, limit) && Enabled(s, step) && id in s.queue
    ensures id in s.jobs && id in Apply(s, step, limit).queue && RowColumns(s, step, id, Apply(s, step, limit).queue[id])
    ensures id in Apply(s, step, limit).jobs && JobColumns(s, step, id, Apply(s, step, limit).jobs[id])
  {
    assert id in s.jobs;
    hide Inv, Apply, Enabled, RowColumns, JobColumns;
    StepColumns(s, step, limit, id);
  }

  // ---------------------------------------------------------------- attempts and leases on every run

  /** The claims of a job that took effect on a run. */
  function ClaimsOf(s: Sys, steps: seq<Step>, limit: nat, id: JobId): nat {
    if steps == [] then 0 else
    var before := steps[..|steps| - 1];
    ClaimsOf(s, before, limit, id) + if ClaimsJob(After(s, before, limit), steps[|steps| - 1], id) then 1 else 0
  }

  /** On every run from the empty database a job's attempts are its claims that took effect. */
  lemma {:induction false} AttemptsAreClaims(s: Sys, steps: seq<Step>, limit: nat, id: JobId)
    requires Initial(s) && ValidRun(s, steps, limit)
    ensures id in After(s, steps, limit).queue ==> After(s, steps, limit).queue[id].attempts == ClaimsOf(s, steps, limit, id)
    ensures id !in After(s, steps, limit).queue ==> ClaimsOf(s, steps, limit, id) == 0
  {
    if steps != [] {
      var before, step := steps[..|steps| - 1], steps[|steps| - 1];
      var t := After(s, before, limit);
      AttemptsAreClaims(s, before, limit, id);
      InitialInv(s, limit);
      RunPreserves(s, before, limit);
      hide Inv, Initial, Apply, Enabled;
      if id in t.queue { RowStays(t, step, limit, id); } else if id in Apply(t, step, limit).queue { NewRow(t, step, limit, id); }
    }
  }

  /** The last claim or heartbeat of a job that took effect, as it set the lease. */
  datatype Renewal = Renewal(now: Time, expires: Time)

  function LastRenewal(s: Sys, steps: seq<Step>, limit: nat, id: JobId): Option<Renewal> {
    if steps == [] then None else
    var before, step := steps[..|steps| - 1], steps[|steps| - 1];
    var t := After(s, before, limit);
    if ClaimsJob(t, step, id) || Renews(t, step, id) then Some(Renewal(step.now, step.expires))
    else LastRenewal(s, before, limit, id)
  }

  /** On every run from the empty database a lease expires when its last claim or heartbeat said,
      and its last sign of life is the time of that claim or heartbeat. */
  lemma {:induction false} LeaseIsLastRenewal(s: Sys, steps: seq<Step>, limit: nat, id: JobId)
    requires Initial(s) && ValidRun(s, steps, limit)
    requires id in After(s, steps, limit).queue && After(s, steps, limit).queue[id].leaseExpiresAt.Some?
    ensures var row, renewal := After(s, steps, limit).queue[id], LastRenewal(s, steps, limit, id);
            renewal.Some? && row.leaseExpiresAt == Some(renewal.value.expires) && row.lastHeartbeatAt == Some(renewal.value.now)
  {
    if steps != [] {
      var before, step := steps[..|steps| - 1], steps[|steps| - 1];
      var t := After(s, before, limit);
      InitialInv(s, limit);
      RunPreserves(s, before, limit);
      hide Inv, Initial, Apply, Enabled;
      if id in t.queue {
        RowStays(t, step, limit, id);
        if t.queue[id].leaseExpiresAt.Some? { LeaseIsLastRenewal(s, before, limit, id); }
      } else {
        NewRow(t, step, limit, id);
      }
    }
  }

  /** The recoveries of a run all happen before a time. */
  predicate RecoversBefore(steps: seq<Step>, time: Time) {
    forall i :: 0 <= i < |steps| && steps[i].RecoverRow? ==> steps[i].now < time
  }

  /** A lease of `c` that lasts until `expires`. */
  predicate LeasedUntil(s: Sys, id: JobId, c: ClientId, expires: Time) {
    Holds(s, id, c) && s.queue[id].leaseExpiresAt == Some(expires)
  }

  /** A lease holds: no run of other clients whose recoveries all happen before its expiry ends or
      requeues the job, and lease and attempts stay as they are. */
  lemma {:induction false} LeaseHolds(s: Sys, steps: seq<Step>, limit: nat, id: JobId, me: ClientId, expires: Time)
    requires Inv(s, limit) && ValidRun(s, steps, limit) && LeasedUntil(s, id, me, expires)
    requires RecoversBefore(steps, expires) && forall i :: 0 <= i < |steps| ==> ByOther(steps[i], me)
    ensures var t := After(s, steps, limit);
            LeasedUntil(t, id, me, expires) && t.queue[id].attempts == s.queue[id].attempts && t.jobs[id] == s.jobs[id]
  {
    if steps != [] {
      var before, step := steps[..|steps| - 1], steps[|steps| - 1];
      LeaseHolds(s, before, limit, id, me, expires);
      RunPreserves(s, before, limit);
      assert step == steps[|steps| - 1] && ByOther(step, me) && (step.RecoverRow? ==> step.now < expires);
      LeaseOutlives(After(s, before, limit), step, limit, id, me, expires);
    }
  }

  lemma LeaseOutlives(t: Sys, step: Step, limit: nat, id: JobId, me: ClientId, expires: Time)
    requires Inv(t, limit) && Enabled(t, step) && LeasedUntil(t, id, me, expires)
    requires ByOther(step, me) && (step.RecoverRow? ==> step.now < expires)
    ensures var u := Apply(t, step, limit);
            LeasedUntil(u, id, me, expires) && u.queue[id].attempts == t.queue[id].attempts && u.jobs[id] == t.jobs[id]
  {
    RowStays(t, step, limit, id);
    assert id !in t.sync;
    assert step.SyncFinish? && step.id == id ==> id in t.sync;
    NoneOfTheirs(t, step, id, me, expires);
    hide Inv, Apply, Enabled, ClaimsJob, Renews, Finishes, Retries, Recovers, StartsSync, EndsSync, Cancels;
  }

  /** What another client cannot do to a lease before it expires. */
  lemma NoneOfTheirs(t: Sys, step: Step, id: JobId, me: ClientId, expires: Time)
    requires LeasedUntil(t, id, me, expires) && ByOther(step, me) && (step.RecoverRow? ==> step.now < expires)
    requires step.SyncFinish? ==> step.id != id
    ensures !ClaimsJob(t, step, id) && !StartsSync(t, step, id) && !Finishes(t, step, id) && !EndsSync(t, step, id)
    ensures !Retries(t, step, id) && !Recovers(t, step, id) && !Renews(t, step, id)
  {
  }

  /** A claim at `now` that takes effect, and a heartbeat of the holder without a request to
      cancel, start such a lease with the expiry they are given. */
  lemma RenewalStartsLease(s: Sys, step: Step, limit: nat, id: JobId)
    requires Inv(s, limit) && Enabled(s, step) && (ClaimsJob(s, step, id) || Renews(s, step, id))
    ensures var t := Apply(s, step, limit);
            && LeasedUntil(t, id, step.c, step.expires) && t.queue[id].lastHeartbeatAt == Some(step.now)
            && t.queue[id].nextAttemptAt == s.queue[id].nextAttemptAt && t.queue[id].cancelRequested == s.queue[id].cancelRequested
            && t.queue[id].attempts == s.queue[id].attempts + if step.Claim? then 1 else 0
  {
    RowStays(s, step, limit, id);
    hide Apply, Enabled, Conserved, WithinLimit;
  }

  /** From its expiry on a recovery does end it. */
  lemma LeaseEndsAtExpiry(s: Sys, limit: nat, id: JobId, me: ClientId, expires: Time, c: ClientId, now: Time)
    requires Inv(s, limit) && LeasedUntil(s, id, me, expires) && expires <= now
    ensures var t := Apply(s, RecoverRow(c, id, now), limit);
            !t.jobs[id].status.Running? && t.queue[id].leaseOwner.None?
  {
    RowStays(s, RecoverRow(c, id, now), limit, id);
    hide Inv, Apply;
  }

  // ---------------------------------------------------------------- waiting for the next attempt

  /** No claim of the job takes effect on the run. */
  predicate Unclaimed(s: Sys, steps: seq<Step>, limit: nat, id: JobId) {
    ClaimsOf(s, steps, limit, id) == 0
  }

  /** While a queued job is not claimed its due time stands. */
  lemma {:induction false} DueTimeStands(s: Sys, steps: seq<Step>, limit: nat, id: JobId)
    requires Inv(s, limit) && ValidRun(s, steps, limit) && Unclaimed(s, steps, limit, id)
    requires id in s.queue && id in s.jobs && !s.jobs[id].status.Running?
    ensures var t := After(s, steps, limit);
            && id in t.queue && id in t.jobs && !t.jobs[id].status.Running?
            && t.queue[id].nextAttemptAt == s.queue[id].nextAttemptAt && t.queue[id].attempts == s.queue[id].attempts
  {
    if steps != [] {
      var before, step := steps[..|steps| - 1], steps[|steps| - 1];
      DueTimeStands(s, before, limit, id);
      RunPreserves(s, before, limit);
      RowStays(After(s, before, limit), step, limit, id);
      assert id !in After(s, before, limit).sync;
      assert step.SyncStart? && step.id == id ==> id in After(s, before, limit).sync;
      assert step.Finish? || step.SyncFinish? ==> Terminal(step.status);
      hide Inv, Apply, Enabled;
    }
  }

  /** A retry is waited out: whatever happens in between, the job's next claim that takes effect
      happens at or after the time the retry set. */
  lemma BackoffIsWaitedOut(s: Sys, retry: Step, steps: seq<Step>, claim: Step, limit: nat, id: JobId)
    requires Inv(s, limit) && Enabled(s, retry) && Retries(s, retry, id)
    requires var t := Apply(s, retry, limit);
             ValidRun(t, steps, limit) && Unclaimed(t, steps, limit, id) && ClaimsJob(After(t, steps, limit), claim, id)
    ensures retry.nextAttempt <= claim.now
  {
    RowStays(s, retry, limit, id);
    StepPreserves(s, retry, limit);
    hide Inv, Apply, Enabled, ValidRun;
    DueTimeStands(Apply(s, retry, limit), steps, limit, id);
  }

  // ---------------------------------------------------------------- how a job ends

  /** The step ends the job with this status, and may: its last claimer or its synchronous owner
      says so, a cancellation reaches it in the queue, or its lease is over and it was to be
      cancelled or has no attempt left. */
  predicate EndsAs(t: Sys, step: Step, id: JobId, status: ScanStatus, claimer: Option<ClientId>) {
    match step
    case Finish(c, other, given, _, _, _) => other == id && status == given && claimer == Some(c) && Holds(t, id, c)
    case SyncFinish(c, other, given, _, _, _) => other == id && status == given && id in t.sync && t.sync[id] == c
    case RequestCancel(other, _) => other == id && status.Canceled? && id in t.jobs && t.jobs[id].status.Queued?
    case RecoverRow(_, other, now) =>
      && other == id && LeaseOver(t, id, now)
      && (status.Canceled? <==> t.queue[id].cancelRequested)
      && (status.Failed? <==> !t.queue[id].cancelRequested && t.queue[id].attempts == t.queue[id].maxAttempts)
      && (status.Canceled? || status.Failed?)
    case _ => false
  }

  lemma StepEnds(t: Sys, step: Step, limit: nat, id: JobId)
    requires Inv(t, limit) && Enabled(t, step) && id in t.jobs && !Terminal(t.jobs[id].status)
    requires id in Apply(t, step, limit).jobs && Terminal(Apply(t, step, limit).jobs[id].status)
    ensures EndsAs(t, step, id, Apply(t, step, limit).jobs[id].status, if step.Finish? then Some(step.c) else None)
  {
    StepColumns(t, step, limit, id);
    InvRows(t, limit, id);
    assert step.SyncFinish? ==> step.id in t.sync && t.sync[step.id] == step.c;
    hide Inv, Apply, Enabled, RowColumns;
  }

  /** On every run from the empty database a job ends only so. In particular it succeeds only by
      its last claimer's word or its synchronous owner's. */
  lemma EndsOnlyByItsOwner(s: Sys, steps: seq<Step>, step: Step, limit: nat, id: JobId)
    requires Initial(s) && ValidRun(s, steps + [step], limit) && id in After(s, steps, limit).jobs
    requires !Terminal(After(s, steps, limit).jobs[id].status)
    requires id in Apply(After(s, steps, limit), step, limit).jobs
    requires Terminal(Apply(After(s, steps, limit), step, limit).jobs[id].status)
    ensures var status := Apply(After(s, steps, limit), step, limit).jobs[id].status;
            && EndsAs(After(s, steps, limit), step, id, status, LastClaimer(s, steps, limit, id))
            && (status.Succeeded? ==> step.Finish? || step.SyncFinish?)
  {
    hide Inv, Initial, Apply, Enabled, LastClaimer, After, LeaseOver;
    var t := After(s, steps, limit);
    assert (steps + [step])[..|steps|] == steps;
    InitialInv(s, limit);
    RunPreserves(s, steps, limit);
    StepEnds(t, step, limit, id);
    if step.Finish? { OwnerIsLastClaimer(s, steps, limit, id); }
  }

  // ---------------------------------------------------------------- recovering all expired leases

  /** Every job and every queue row is as the recovery of the one job leaves it. */
  ghost predicate AllRecovered(s: Sys, now: Time, jobs: map<JobId, Job>, queue: map<JobId, QueueRow>) {
    && jobs.Keys == s.jobs.Keys && queue.Keys == s.queue.Keys
    && (forall id :: id in s.jobs ==> JobColumns(s, RecoverRow(0, id, now), id, jobs[id]))
    && (forall id :: id in s.queue ==> RowColumns(s, RecoverRow(0, id, now), id, queue[id]))
  }

  /** The jobs whose lease is over, and those of them that go back to the queue. */
  function Overdue(s: Sys, now: Time): set<JobId> { set id | id in s.jobs && LeaseOver(s, id, now) }

  function GoingBack(s: Sys, now: Time): set<JobId> { set id | id in s.jobs && LeaseOver(s, id, now) && GoesBack(s.queue[id]) }

  /** What a recovery at `now` means for a job whose lease is over: it is cancelled exactly if its
      cancellation was requested, it has failed exactly if not and no attempt is left, and else it
      waits and may be claimed at `now`. Nothing else about it changes, and no other job does. */
  lemma RecoveryOutcome(s: Sys, limit: nat, now: Time, jobs: map<JobId, Job>, queue: map<JobId, QueueRow>, id: JobId)
    requires Inv(s, limit) && AllRecovered(s, now, jobs, queue) && id in s.jobs
    ensures id in jobs && SameWork(s.jobs[id], jobs[id])
    ensures jobs[id].startedAt == s.jobs[id].startedAt && jobs[id].findingsCount == s.jobs[id].findingsCount
    ensures LeaseOver(s, id, now) ==>
              && id in queue
              && (jobs[id].status.Canceled? <==> s.queue[id].cancelRequested)
              && (jobs[id].status.Failed? <==> !s.queue[id].cancelRequested && s.queue[id].attempts == s.queue[id].maxAttempts)
              && (jobs[id].status.Canceled? || jobs[id].status.Failed? || Waits(s.(jobs := jobs, queue := queue), id, now))
              && (jobs[id].status.Queued? ==> jobs[id].finishedAt.None?)
              && (!jobs[id].status.Queued? ==> jobs[id].finishedAt == Some(now))
              && jobs[id].errorMessage == (if jobs[id].status.Failed? then Some("worker lease expired after final attempt")
                                           else s.jobs[id].errorMessage)
              && queue[id] == s.queue[id].(leaseOwner := None, leaseExpiresAt := None, lastHeartbeatAt := None,
                                           nextAttemptAt := if jobs[id].status.Queued? then now else s.queue[id].nextAttemptAt)
    ensures !LeaseOver(s, id, now) ==> jobs[id] == s.jobs[id] && (id in s.queue ==> id in queue && queue[id] == s.queue[id])
  {
    InvRows(s, limit, id);
    assert JobColumns(s, RecoverRow(0, id, now), id, jobs[id]);
    if id in s.queue { assert RowColumns(s, RecoverRow(0, id, now), id, queue[id]) && id in queue; }
    hide Inv, AllRecovered, JobColumns, RowColumns, RowsOk;
    if LeaseOver(s, id, now) {
      RecoveryOfRow(s, now, id, queue[id]);
      RecoveryOfJob(s, now, id, jobs[id]);
      assert s.queue[id].attempts <= s.queue[id].maxAttempts by { RowsAreOk(s, id); }
    } else {
      hide LeaseOver;
      NotRecovered(s, now, id, jobs[id]);
      if id in s.queue { RowNotRecovered(s, now, id, queue[id]); }
    }
  }

  lemma RowsAreOk(s: Sys, id: JobId)
    requires RowsOk(s, id) && id in s.queue
    ensures s.queue[id].attempts <= s.queue[id].maxAttempts
  {
  }

  lemma NotRecovered(s: Sys, now: Time, id: JobId, job: Job)
    requires id in s.jobs && !LeaseOver(s, id, now) && JobColumns(s, RecoverRow(0, id, now), id, job)
    ensures job == s.jobs[id]
  {
    hide LeaseOver;
  }

  lemma RowNotRecovered(s: Sys, now: Time, id: JobId, row: QueueRow)
    requires id in s.queue && !LeaseOver(s, id, now) && RowColumns(s, RecoverRow(0, id, now), id, row)
    ensures row == s.queue[id]
  {
    hide LeaseOver;
  }

  lemma RecoveryOfJob(s: Sys, now: Time, id: JobId, job: Job)
    requires LeaseOver(s, id, now) && RowsOk(s, id) && JobColumns(s, RecoverRow(0, id, now), id, job)
    ensures SameWork(s.jobs[id], job) && job.startedAt == s.jobs[id].startedAt && job.findingsCount == s.jobs[id].findingsCount
    ensures job.status == (if s.queue[id].cancelRequested then Canceled else if GoesBack(s.queue[id]) then Queued else Failed)
    ensures job.finishedAt == if job.status.Queued? then None else Some(now)
    ensures job.errorMessage == if job.status.Failed? then Some("worker lease expired after final attempt") else s.jobs[id].errorMessage
  {
  }

  lemma RecoveryOfRow(s: Sys, now: Time, id: JobId, row: QueueRow)
    requires LeaseOver(s, id, now) && RowColumns(s, RecoverRow(0, id, now), id, row)
    ensures row == s.queue[id].(leaseOwner := None, leaseExpiresAt := None, lastHeartbeatAt := None,
                                nextAttemptAt := if GoesBack(s.queue[id]) then now else s.queue[id].nextAttemptAt)
  {
  }
}
