/** The durable scan queue as a state machine. One step is one database transaction; any
    number of clients (workers, synchronous scans, schedulers) interleave their steps.

    `slots` is bookkeeping the database does not hold: the capacity slots a client has taken
    from a workspace's counter and neither turned into a running job nor given back. A client
    that stops simply takes no further step and keeps its slots in hand. */
module ScanQueue {
  import opened Common

  /** A client of the queue. A worker's lease owner name is its client id. */
  type ClientId = nat

  datatype ScanKind = Source | Repository | Container | Tls | Certificate | Ssh

  datatype ScanStatus = Queued | Running | Succeeded | Failed | Canceled

  datatype Job = Job(
    workspace: WorkspaceId, asset: AssetId, kind: ScanKind, status: ScanStatus,
    requestedAt: Time, startedAt: Option<Time>, finishedAt: Option<Time>,
    findingsCount: nat, errorMessage: Option<string>)

  datatype QueueRow = QueueRow(
    attempts: nat, maxAttempts: nat, leaseOwner: Option<ClientId>, leaseExpiresAt: Option<Time>,
    lastHeartbeatAt: Option<Time>, nextAttemptAt: Time, cancelRequested: bool)

  datatype Sys = Sys(
    workspaces: set<WorkspaceId>,
    jobs: map<JobId, Job>,
    queue: map<JobId, QueueRow>,
    runtime: map<WorkspaceId, nat>,
    slots: map<ClientId, multiset<WorkspaceId>>,
    sync: map<JobId, ClientId>)

  predicate Terminal(status: ScanStatus) {
    status.Succeeded? || status.Failed? || status.Canceled?
  }

  // ---------------------------------------------------------------- the counted quantities

  function Active(runtime: map<WorkspaceId, nat>, ws: WorkspaceId): nat {
    if ws in runtime then runtime[ws] else 0
  }

  function RunningJobs(jobs: map<JobId, Job>, ws: WorkspaceId): set<JobId> {
    set id | id in jobs && jobs[id].status.Running? && jobs[id].workspace == ws
  }

  function Hand(slots: map<ClientId, multiset<WorkspaceId>>, c: ClientId): multiset<WorkspaceId> {
    if c in slots then slots[c] else multiset{}
  }

  ghost function Loads(slots: map<ClientId, multiset<WorkspaceId>>, ws: WorkspaceId): map<ClientId, nat> {
    map c | c in slots :: slots[c][ws]
  }

  ghost function InHand(slots: map<ClientId, multiset<WorkspaceId>>, ws: WorkspaceId): nat {
    SumOf(Loads(slots, ws))
  }

  // ---------------------------------------------------------------- the invariant

  /** Every workspace's counter is its running jobs plus the slots in clients' hands. */
  ghost predicate Conserved(s: Sys) {
    forall ws: WorkspaceId ::
      Active(s.runtime, ws) == |RunningJobs(s.jobs, ws)| + InHand(s.slots, ws)
  }

  ghost predicate WithinLimit(s: Sys, limit: nat) {
    forall ws: WorkspaceId :: Active(s.runtime, ws) <= limit
  }

  predicate RowOk(job: Job, row: QueueRow) {
    && 1 <= row.maxAttempts <= 20
    && row.attempts <= row.maxAttempts
    && (job.status.Running? <==> row.leaseOwner.Some?)
    && (row.leaseOwner.Some? <==> row.leaseExpiresAt.Some?)
    && (job.status.Queued? ==> row.attempts < row.maxAttempts)
    && (job.status.Running? ==> 1 <= row.attempts)
  }

  /** The lease invariant of queue-managed jobs, and what every job row satisfies. */
  ghost predicate Leases(s: Sys) {
    && (forall id :: id in s.queue ==> id in s.jobs && id !in s.sync && RowOk(s.jobs[id], s.queue[id]))
    && (forall id :: id in s.jobs ==>
          && s.jobs[id].workspace in s.workspaces
          && (Terminal(s.jobs[id].status) <==> s.jobs[id].finishedAt.Some?)
          && (id in s.queue || id in s.sync || s.jobs[id].status.Queued?))
    && (forall id :: id in s.sync ==> id in s.jobs && id.Random?)
  }

  ghost predicate Inv(s: Sys, limit: nat) {
    Conserved(s) && WithinLimit(s, limit) && Leases(s)
  }

  ghost predicate Initial(s: Sys) {
    s.jobs == map[] && s.queue == map[] && s.runtime == map[] && s.slots == map[] && s.sync == map[]
  }

  // ---------------------------------------------------------------- the steps

  datatype Step =
    | EnsureRuntime(ws: WorkspaceId)
    | Acquire(c: ClientId, ws: WorkspaceId, room: nat)
    | Release(c: ClientId, ws: WorkspaceId)
    | CreateJob(c: ClientId, id: JobId, job: Job, forSync: bool)
    | AddQueueRow(id: JobId, maxAttempts: nat, now: Time)
    | Claim(c: ClientId, id: JobId, now: Time, expires: Time)
    | Heartbeat(c: ClientId, id: JobId, now: Time, expires: Time)
    | Retry(c: ClientId, id: JobId, nextAttempt: Time)
    | Finish(c: ClientId, id: JobId, status: ScanStatus, findings: nat, error: Option<string>, now: Time)
    | RequestCancel(id: JobId, now: Time)
    | RecoverRow(c: ClientId, id: JobId, now: Time)
    | SyncStart(c: ClientId, id: JobId, now: Time)
    | SyncFinish(c: ClientId, id: JobId, status: ScanStatus, count: Option<nat>, error: Option<string>, now: Time)

  function Unleased(row: QueueRow): QueueRow {
    row.(leaseOwner := None, leaseExpiresAt := None, lastHeartbeatAt := None)
  }

  /** Stored error text is cut at 4000 characters; an empty message is stored as none. */
  function Stored(error: Option<string>): Option<string> {
    match error
    case None => None
    case Some(text) =>
      if text == "" then None else Some(if |text| > 4000 then text[..4000] else text)
  }

  predicate Claimable(row: QueueRow, now: Time) {
    row.leaseOwner.None? && !row.cancelRequested && row.nextAttemptAt <= now && row.attempts < row.maxAttempts
  }

  /** The job is running under a lease of client `c`: what a finish or a retry must match. */
  predicate LeasedBy(s: Sys, id: JobId, c: ClientId) {
    && id in s.jobs && s.jobs[id].status.Running?
    && id in s.queue && s.queue[id].leaseOwner == Some(c)
  }

  predicate Expired(s: Sys, id: JobId, now: Time) {
    && id in s.jobs && s.jobs[id].status.Running?
    && id in s.queue && s.queue[id].leaseExpiresAt.Some? && s.queue[id].leaseExpiresAt.value <= now
  }

  predicate ClaimTakes(s: Sys, id: JobId, now: Time) {
    id in s.queue && Claimable(s.queue[id], now) && id in s.jobs && s.jobs[id].status.Queued?
  }

  function SetJob(s: Sys, id: JobId, job: Job): Sys { s.(jobs := s.jobs[id := job]) }

  function SetRow(s: Sys, id: JobId, row: QueueRow): Sys { s.(queue := s.queue[id := row]) }

  function SetHand(s: Sys, c: ClientId, m: multiset<WorkspaceId>): Sys { s.(slots := s.slots[c := m]) }

  function Give(s: Sys, c: ClientId, ws: WorkspaceId): Sys {
    SetHand(s, c, Hand(s.slots, c) + multiset{ws})
  }

  function Take(s: Sys, c: ClientId, ws: WorkspaceId): Sys {
    SetHand(s, c, Hand(s.slots, c) - multiset{ws})
  }

  function EnsureCounter(s: Sys, ws: WorkspaceId): Sys {
    if ws in s.runtime then s else s.(runtime := s.runtime[ws := 0])
  }

  function InsertJob(s: Sys, c: ClientId, id: JobId, job: Job, forSync: bool): Sys {
    if id in s.jobs then s
    else SetJob(s, id, job).(sync := if forSync then s.sync[id := c] else s.sync)
  }

  function InsertRow(s: Sys, id: JobId, maxAttempts: nat, now: Time): Sys {
    if id in s.queue then s
    else SetRow(s, id, QueueRow(0, maxAttempts, None, None, None, now, false))
  }

  /** Counting up is conditional on room below the limit, counting down on a positive count. */
  function AcquireSlot(s: Sys, c: ClientId, ws: WorkspaceId, limit: int): Sys {
    if ws in s.runtime && s.runtime[ws] < limit
    then Give(s.(runtime := s.runtime[ws := s.runtime[ws] + 1]), c, ws)
    else s
  }

  function ReleaseSlot(s: Sys, c: ClientId, ws: WorkspaceId): Sys {
    if ws in s.runtime && s.runtime[ws] > 0
    then Take(s.(runtime := s.runtime[ws := s.runtime[ws] - 1]), c, ws)
    else s
  }

  function ClaimJob(s: Sys, c: ClientId, id: JobId, now: Time, expires: Time): Sys {
    if ClaimTakes(s, id, now) then
      var row := s.queue[id].(leaseOwner := Some(c), leaseExpiresAt := Some(expires),
                              lastHeartbeatAt := Some(now), attempts := s.queue[id].attempts + 1);
      var job := s.jobs[id].(status := Running, startedAt := Some(now));
      Take(SetJob(SetRow(s, id, row), id, job), c, job.workspace)
    else s
  }

  function RenewLease(s: Sys, c: ClientId, id: JobId, now: Time, expires: Time): Sys {
    if id in s.queue && s.queue[id].leaseOwner == Some(c) && !s.queue[id].cancelRequested
    then SetRow(s, id, s.queue[id].(leaseExpiresAt := Some(expires), lastHeartbeatAt := Some(now)))
    else s
  }

  function RetryJob(s: Sys, c: ClientId, id: JobId, nextAttempt: Time): Sys {
    if LeasedBy(s, id, c) then
      Give(SetJob(SetRow(s, id, Unleased(s.queue[id]).(nextAttemptAt := nextAttempt)),
                  id, s.jobs[id].(status := Queued)),
           c, s.jobs[id].workspace)
    else s
  }

  function FinishJob(s: Sys, c: ClientId, id: JobId, status: ScanStatus, findings: nat,
                     error: Option<string>, now: Time): Sys {
    if LeasedBy(s, id, c) then
      Give(SetJob(SetRow(s, id, Unleased(s.queue[id])), id,
                  s.jobs[id].(status := status, finishedAt := Some(now), findingsCount := findings,
                              errorMessage := Stored(error))),
           c, s.jobs[id].workspace)
    else s
  }

  function CancelJob(s: Sys, id: JobId, now: Time): Sys {
    if id in s.jobs && id in s.queue && !Terminal(s.jobs[id].status) then
      if s.jobs[id].status.Queued? then
        SetJob(SetRow(s, id, s.queue[id].(cancelRequested := true, leaseOwner := None, leaseExpiresAt := None)),
               id, s.jobs[id].(status := Canceled, finishedAt := Some(now)))
      else SetRow(s, id, s.queue[id].(cancelRequested := true))
    else s
  }

  /** Recovery ends an expired lease by the first rule that applies: a requested cancellation,
      no attempt left, or back into the queue at once. */
  function RecoveredJob(job: Job, row: QueueRow, now: Time): Job {
    if row.cancelRequested then job.(status := Canceled, finishedAt := Some(now))
    else if row.attempts >= row.maxAttempts then
      job.(status := Failed, finishedAt := Some(now),
           errorMessage := Some("worker lease expired after final attempt"))
    else job.(status := Queued)
  }

  function RecoverJob(s: Sys, c: ClientId, id: JobId, now: Time): Sys {
    if Expired(s, id, now) then
      var job := RecoveredJob(s.jobs[id], s.queue[id], now);
      var row := Unleased(s.queue[id]);
      Give(SetJob(SetRow(s, id, if job.status.Queued? then row.(nextAttemptAt := now) else row), id, job),
           c, job.workspace)
    else s
  }

  function StartSync(s: Sys, c: ClientId, id: JobId, now: Time): Sys {
    if id in s.jobs && s.jobs[id].status.Queued?
    then Take(SetJob(s, id, s.jobs[id].(status := Running, startedAt := Some(now))), c, s.jobs[id].workspace)
    else s
  }

  function FinishSync(s: Sys, c: ClientId, id: JobId, status: ScanStatus, findings: Option<nat>,
                      error: Option<string>, now: Time): Sys {
    if id in s.jobs && s.jobs[id].status.Running? then
      var job := s.jobs[id].(status := status, finishedAt := Some(now));
      var job' := if findings.Some? then job.(findingsCount := findings.value) else job;
      var job'' := if error.Some?
        then job'.(errorMessage := Some(if |error.value| > 4000 then error.value[..4000] else error.value))
        else job';
      Give(SetJob(s, id, job''), c, job.workspace)
    else s
  }

  /** `limit` is the greatest running-scan limit any client passes; a client may pass less. What a
      step does, including the case in which its guard matches no row and the
      transaction rolls back. */
  function Apply(s: Sys, step: Step, limit: nat): Sys {
    match step
    case EnsureRuntime(ws) => EnsureCounter(s, ws)
    case Acquire(c, ws, room) => AcquireSlot(s, c, ws, if room < limit then room else limit)
    case Release(c, ws) => ReleaseSlot(s, c, ws)
    case CreateJob(c, id, job, forSync) => InsertJob(s, c, id, job, forSync)
    case AddQueueRow(id, maxAttempts, now) => InsertRow(s, id, maxAttempts, now)
    case Claim(c, id, now, expires) => ClaimJob(s, c, id, now, expires)
    case Heartbeat(c, id, now, expires) => RenewLease(s, c, id, now, expires)
    case Retry(c, id, nextAttempt) => RetryJob(s, c, id, nextAttempt)
    case Finish(c, id, status, findings, error, now) => FinishJob(s, c, id, status, findings, error, now)
    case RequestCancel(id, now) => CancelJob(s, id, now)
    case RecoverRow(c, id, now) => RecoverJob(s, c, id, now)
    case SyncStart(c, id, now) => StartSync(s, c, id, now)
    case SyncFinish(c, id, status, findings, error, now) => FinishSync(s, c, id, status, findings, error, now)
  }

  /** What the programs establish before they issue a step. */
  predicate Enabled(s: Sys, step: Step) {
    match step
    case EnsureRuntime(ws) => ws in s.workspaces
    case Acquire(c, ws, room) => true
    case Release(c, ws) => ws in Hand(s.slots, c)
    case CreateJob(c, id, job, forSync) =>
      && job.workspace in s.workspaces && job.status.Queued? && job.finishedAt.None?
      && (forSync ==> id !in s.jobs && id.Random?)
    case AddQueueRow(id, maxAttempts, now) => id in s.jobs && id !in s.sync && 1 <= maxAttempts <= 20
    case Claim(c, id, now, expires) => id in s.jobs && s.jobs[id].workspace in Hand(s.slots, c)
    case Heartbeat(c, id, now, expires) => true
    case Retry(c, id, nextAttempt) =>
      LeasedBy(s, id, c) ==> s.queue[id].attempts < s.queue[id].maxAttempts
    case Finish(c, id, status, findings, error, now) => Terminal(status)
    case RequestCancel(id, now) => true
    case RecoverRow(c, id, now) => true
    case SyncStart(c, id, now) =>
      id in s.sync && s.sync[id] == c && id in s.jobs && s.jobs[id].workspace in Hand(s.slots, c)
    case SyncFinish(c, id, status, findings, error, now) =>
      id in s.sync && s.sync[id] == c && Terminal(status)
  }

  // ---------------------------------------------------------------- how a step moves the counts

  function Counts(job: Job, ws: WorkspaceId): nat {
    if job.status.Running? && job.workspace == ws then 1 else 0
  }

  lemma RunningUpdate(jobs: map<JobId, Job>, id: JobId, job: Job, ws: WorkspaceId)
    ensures |RunningJobs(jobs[id := job], ws)|
         == |RunningJobs(jobs, ws)| - (if id in jobs then Counts(jobs[id], ws) else 0) + Counts(job, ws)
  {
    hide RunningJobs;
    RunningMembers(jobs, id, job, ws);
    SizeWithoutOne(RunningJobs(jobs, ws), id);
    SizeWithoutOne(RunningJobs(jobs[id := job], ws), id);
  }

  lemma RunningMembers(jobs: map<JobId, Job>, id: JobId, job: Job, ws: WorkspaceId)
    ensures var before, after := RunningJobs(jobs, ws), RunningJobs(jobs[id := job], ws);
            && before - {id} == after - {id}
            && (id in before <==> id in jobs && Counts(jobs[id], ws) == 1)
            && (id in after <==> Counts(job, ws) == 1)
  {
  }

  lemma {:induction false} SizeWithoutOne<T>(s: set<T>, x: T)
    ensures |s| == |s - {x}| + if x in s then 1 else 0
  {
    if x in s { assert s == (s - {x}) + {x}; } else { assert s == s - {x}; }
  }

  lemma HandUpdate(slots: map<ClientId, multiset<WorkspaceId>>, c: ClientId, m: multiset<WorkspaceId>, ws: WorkspaceId)
    ensures InHand(slots[c := m], ws) == InHand(slots, ws) - Hand(slots, c)[ws] + m[ws]
  {
    SumUpdate(Loads(slots, ws), c, m[ws]);
    assert Loads(slots, ws)[c := m[ws]] == Loads(slots[c := m], ws);
  }

  /** A slot in hand is counted, so the `> 0` guard of a release cannot block it. */
  lemma SlotIsCounted(s: Sys, limit: nat, c: ClientId, ws: WorkspaceId)
    requires Inv(s, limit) && ws in Hand(s.slots, c)
    ensures ws in s.runtime && s.runtime[ws] > 0
    ensures Apply(s, Release(c, ws), limit).runtime == s.runtime[ws := s.runtime[ws] - 1]
  {
    SumBound(Loads(s.slots, ws), c);
    assert Active(s.runtime, ws) > 0;
  }

  /** A step that starts or stops one job moves one slot between the job and its client. */
  lemma MoveSlot(s: Sys, s': Sys, limit: nat, c: ClientId, id: JobId)
    requires Inv(s, limit)
    requires id in s.jobs && id in s'.jobs && s'.jobs == s.jobs[id := s'.jobs[id]]
    requires s'.runtime == s.runtime && s'.slots == s.slots[c := Hand(s'.slots, c)]
    requires forall ws: WorkspaceId ::
      Hand(s'.slots, c)[ws] + Counts(s'.jobs[id], ws) == Hand(s.slots, c)[ws] + Counts(s.jobs[id], ws)
    ensures Conserved(s') && WithinLimit(s', limit)
  {
    forall ws: WorkspaceId
      ensures Active(s'.runtime, ws) == |RunningJobs(s'.jobs, ws)| + InHand(s'.slots, ws)
      ensures Active(s'.runtime, ws) <= limit
    {
      RunningUpdate(s.jobs, id, s'.jobs[id], ws);
      HandUpdate(s.slots, c, Hand(s'.slots, c), ws);
      assert Active(s.runtime, ws) <= limit;
    }
  }

  /** A job that does not run before or after leaves every count alone. */
  lemma IdleJob(s: Sys, s': Sys, limit: nat, id: JobId)
    requires Inv(s, limit)
    requires id in s'.jobs && !s'.jobs[id].status.Running? && s'.jobs == s.jobs[id := s'.jobs[id]]
    requires id in s.jobs ==> !s.jobs[id].status.Running?
    requires s'.runtime == s.runtime && s'.slots == s.slots
    ensures Conserved(s') && WithinLimit(s', limit)
  {
    forall ws: WorkspaceId
      ensures Active(s'.runtime, ws) == |RunningJobs(s'.jobs, ws)| + InHand(s'.slots, ws)
      ensures Active(s'.runtime, ws) <= limit
    {
      RunningUpdate(s.jobs, id, s'.jobs[id], ws);
      assert Active(s.runtime, ws) <= limit;
    }
  }

  /** Counting and holding move together in an acquire and in a release. */
  lemma CountSlot(s: Sys, s': Sys, limit: nat, c: ClientId, ws: WorkspaceId)
    requires Inv(s, limit) && s'.jobs == s.jobs && ws in s.runtime && ws in s'.runtime
    requires s'.runtime == s.runtime[ws := s'.runtime[ws]] && s'.slots == s.slots[c := Hand(s'.slots, c)]
    requires s'.runtime[ws] <= limit
    requires s'.runtime[ws] + Hand(s.slots, c)[ws] == s.runtime[ws] + Hand(s'.slots, c)[ws]
    requires forall w: WorkspaceId :: w != ws ==> Hand(s'.slots, c)[w] == Hand(s.slots, c)[w]
    ensures Conserved(s') && WithinLimit(s', limit)
  {
    forall w: WorkspaceId
      ensures Active(s'.runtime, w) == |RunningJobs(s'.jobs, w)| + InHand(s'.slots, w)
      ensures Active(s'.runtime, w) <= limit
    {
      HandUpdate(s.slots, c, Hand(s'.slots, c), w);
      assert Active(s.runtime, w) <= limit;
      assert Active(s.runtime, w) == |RunningJobs(s.jobs, w)| + InHand(s.slots, w);
    }
  }

  lemma SameCounts(s: Sys, s': Sys, limit: nat)
    requires Inv(s, limit) && s'.jobs == s.jobs && s'.slots == s.slots
    requires forall ws: WorkspaceId :: Active(s'.runtime, ws) == Active(s.runtime, ws)
    ensures Conserved(s') && WithinLimit(s', limit)
  {
    forall ws: WorkspaceId
      ensures Active(s'.runtime, ws) == |RunningJobs(s'.jobs, ws)| + InHand(s'.slots, ws)
      ensures Active(s'.runtime, ws) <= limit
    {
      assert Active(s.runtime, ws) <= limit;
    }
  }

  /** Replacing one job and its queue row keeps the lease invariant when the new pair fits. */
  lemma LeasesAfter(s: Sys, s': Sys, id: JobId)
    requires Leases(s) && s'.workspaces == s.workspaces && id in s'.jobs
    requires s'.jobs == s.jobs[id := s'.jobs[id]]
    requires s'.queue == s.queue || (id in s'.queue && s'.queue == s.queue[id := s'.queue[id]])
    requires s'.sync == s.sync || (id.Random? && id in s'.sync && s'.sync == s.sync[id := s'.sync[id]])
    requires id in s'.queue ==> id !in s'.sync && RowOk(s'.jobs[id], s'.queue[id])
    requires s'.jobs[id].workspace in s.workspaces
    requires Terminal(s'.jobs[id].status) <==> s'.jobs[id].finishedAt.Some?
    requires id in s'.queue || id in s'.sync || s'.jobs[id].status.Queued?
    ensures Leases(s')
  {
  }

  lemma AcquireKeeps(s: Sys, c: ClientId, ws: WorkspaceId, room: int, limit: nat)
    requires Inv(s, limit) && room <= limit
    ensures Inv(AcquireSlot(s, c, ws, room), limit)
  {
    var s' := AcquireSlot(s, c, ws, room);
    if s' != s { CountSlot(s, s', limit, c, ws); }
  }

  lemma ReleaseKeeps(s: Sys, c: ClientId, ws: WorkspaceId, limit: nat)
    requires Inv(s, limit) && ws in Hand(s.slots, c)
    ensures Inv(ReleaseSlot(s, c, ws), limit)
  {
    SlotIsCounted(s, limit, c, ws);
    assert Active(s.runtime, ws) <= limit;
    CountSlot(s, ReleaseSlot(s, c, ws), limit, c, ws);
  }

  lemma ClaimKeeps(s: Sys, c: ClientId, id: JobId, now: Time, expires: Time, limit: nat)
    requires Inv(s, limit) && id in s.jobs && s.jobs[id].workspace in Hand(s.slots, c)
    ensures Inv(ClaimJob(s, c, id, now, expires), limit)
  {
    var s' := ClaimJob(s, c, id, now, expires);
    if ClaimTakes(s, id, now) {
      MoveSlot(s, s', limit, c, id);
      LeasesAfter(s, s', id);
    }
  }

  lemma RetryKeeps(s: Sys, c: ClientId, id: JobId, nextAttempt: Time, limit: nat)
    requires Inv(s, limit)
    requires LeasedBy(s, id, c) ==> s.queue[id].attempts < s.queue[id].maxAttempts
    ensures Inv(RetryJob(s, c, id, nextAttempt), limit)
  {
    var s' := RetryJob(s, c, id, nextAttempt);
    if LeasedBy(s, id, c) {
      MoveSlot(s, s', limit, c, id);
      LeasesAfter(s, s', id);
    }
  }

  lemma FinishKeeps(s: Sys, c: ClientId, id: JobId, status: ScanStatus, findings: nat,
                    error: Option<string>, now: Time, limit: nat)
    requires Inv(s, limit) && Terminal(status)
    ensures Inv(FinishJob(s, c, id, status, findings, error, now), limit)
  {
    var s' := FinishJob(s, c, id, status, findings, error, now);
    if LeasedBy(s, id, c) {
      MoveSlot(s, s', limit, c, id);
      LeasesAfter(s, s', id);
    }
  }

  lemma RecoverKeeps(s: Sys, c: ClientId, id: JobId, now: Time, limit: nat)
    requires Inv(s, limit)
    ensures Inv(RecoverJob(s, c, id, now), limit)
  {
    var s' := RecoverJob(s, c, id, now);
    if Expired(s, id, now) {
      MoveSlot(s, s', limit, c, id);
      LeasesAfter(s, s', id);
    }
  }

  lemma CancelKeeps(s: Sys, id: JobId, now: Time, limit: nat)
    requires Inv(s, limit)
    ensures Inv(CancelJob(s, id, now), limit)
  {
    var s' := CancelJob(s, id, now);
    if s' != s {
      if s.jobs[id].status.Queued? { IdleJob(s, s', limit, id); } else { SameCounts(s, s', limit); }
      LeasesAfter(s, s', id);
    }
  }

  lemma StartSyncKeeps(s: Sys, c: ClientId, id: JobId, now: Time, limit: nat)
    requires Inv(s, limit) && id in s.sync && id in s.jobs && s.jobs[id].workspace in Hand(s.slots, c)
    ensures Inv(StartSync(s, c, id, now), limit)
  {
    var s' := StartSync(s, c, id, now);
    if s.jobs[id].status.Queued? {
      MoveSlot(s, s', limit, c, id);
      LeasesAfter(s, s', id);
    }
  }

  lemma FinishSyncKeeps(s: Sys, c: ClientId, id: JobId, status: ScanStatus, findings: Option<nat>,
                        error: Option<string>, now: Time, limit: nat)
    requires Inv(s, limit) && id in s.sync && Terminal(status)
    ensures Inv(FinishSync(s, c, id, status, findings, error, now), limit)
  {
    var s' := FinishSync(s, c, id, status, findings, error, now);
    if id in s.jobs && s.jobs[id].status.Running? {
      MoveSlot(s, s', limit, c, id);
      LeasesAfter(s, s', id);
    }
  }

  lemma CreateKeeps(s: Sys, c: ClientId, id: JobId, job: Job, forSync: bool, limit: nat)
    requires Inv(s, limit)
    requires job.workspace in s.workspaces && job.status.Queued? && job.finishedAt.None? && (forSync ==> id.Random?)
    ensures Inv(InsertJob(s, c, id, job, forSync), limit)
  {
    var s' := InsertJob(s, c, id, job, forSync);
    if id !in s.jobs {
      IdleJob(s, s', limit, id);
      LeasesAfter(s, s', id);
    }
  }

  lemma InsertRowKeeps(s: Sys, id: JobId, maxAttempts: nat, now: Time, limit: nat)
    requires Inv(s, limit) && id in s.jobs && id !in s.sync && 1 <= maxAttempts <= 20
    ensures Inv(InsertRow(s, id, maxAttempts, now), limit)
  {
    var s' := InsertRow(s, id, maxAttempts, now);
    SameCounts(s, s', limit);
    LeasesAfter(s, s', id);
  }

  lemma EnsureCounterKeeps(s: Sys, ws: WorkspaceId, limit: nat)
    requires Inv(s, limit)
    ensures Inv(EnsureCounter(s, ws), limit)
  {
    SameCounts(s, EnsureCounter(s, ws), limit);
  }

  lemma RenewKeeps(s: Sys, c: ClientId, id: JobId, now: Time, expires: Time, limit: nat)
    requires Inv(s, limit)
    ensures Inv(RenewLease(s, c, id, now, expires), limit)
  {
    var s' := RenewLease(s, c, id, now, expires);
    SameCounts(s, s', limit);
    if s' != s { LeasesAfter(s, s', id); }
  }

  /** What every step keeps. */
  lemma StepPreserves(s: Sys, step: Step, limit: nat)
    requires Inv(s, limit) && Enabled(s, step)
    ensures Inv(Apply(s, step, limit), limit)
  {
    match step {
      case Acquire(c, ws, room) => AcquireKeeps(s, c, ws, if room < limit then room else limit, limit);
      case Release(c, ws) => ReleaseKeeps(s, c, ws, limit);
      case CreateJob(c, id, job, forSync) => CreateKeeps(s, c, id, job, forSync, limit);
      case Claim(c, id, now, expires) => ClaimKeeps(s, c, id, now, expires, limit);
      case Retry(c, id, nextAttempt) => RetryKeeps(s, c, id, nextAttempt, limit);
      case Finish(c, id, status, findings, error, now) =>
        FinishKeeps(s, c, id, status, findings, error, now, limit);
      case RequestCancel(id, now) => CancelKeeps(s, id, now, limit);
      case RecoverRow(c, id, now) => RecoverKeeps(s, c, id, now, limit);
      case SyncStart(c, id, now) => StartSyncKeeps(s, c, id, now, limit);
      case SyncFinish(c, id, status, count, error, now) =>
        FinishSyncKeeps(s, c, id, status, count, error, now, limit);
      case EnsureRuntime(ws) => EnsureCounterKeeps(s, ws, limit);
      case AddQueueRow(id, maxAttempts, now) => InsertRowKeeps(s, id, maxAttempts, now, limit);
      case Heartbeat(c, id, now, expires) => RenewKeeps(s, c, id, now, expires, limit);
    }
  }

  /** Giving a slot back keeps the counters right exactly when the client holds one or there is
      nothing to count down. */
  lemma ReleaseKeepsExactly(s: Sys, c: ClientId, ws: WorkspaceId, limit: nat)
    requires Inv(s, limit)
    ensures Conserved(ReleaseSlot(s, c, ws)) <==> ws in Hand(s.slots, c) || Active(s.runtime, ws) == 0
  {
    var s' := ReleaseSlot(s, c, ws);
    if ws in Hand(s.slots, c) {
      ReleaseKeeps(s, c, ws, limit);
    } else if Active(s.runtime, ws) == 0 {
      assert s' == s;
    } else {
      HandUpdate(s.slots, c, Hand(s'.slots, c), ws);
      assert Active(s.runtime, ws) == |RunningJobs(s.jobs, ws)| + InHand(s.slots, ws);
      assert Active(s'.runtime, ws) != |RunningJobs(s'.jobs, ws)| + InHand(s'.slots, ws);
    }
  }

  lemma InitialInv(s: Sys, limit: nat)
    requires Initial(s)
    ensures Inv(s, limit)
  {
    forall ws: WorkspaceId
      ensures Active(s.runtime, ws) == |RunningJobs(s.jobs, ws)| + InHand(s.slots, ws)
    {
      assert RunningJobs(s.jobs, ws) == {};
      assert Loads(s.slots, ws) == map[];
    }
  }
}
