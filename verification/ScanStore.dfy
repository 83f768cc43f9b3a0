/** The repositories over the scan tables. A method whose comment says "one transaction" is one
    session block; a method made of several transactions lets other clients run in between.

    `me` names the calling client. `alone` is true when no other client runs during the call;
    what a method ensures under `alone` is its sequential contract, the rest holds under any
    interleaving. */
module ScanStore {
  import opened Common
  import opened ScanQueue
  import opened ScanQueueRuns
  import opened ScanQueueRely
  import opened ScanQueueFairness
  import opened ScanQueueColumns

  datatype Lease = Lease(id: JobId, job: Job, attempt: nat, maxAttempts: nat, expiresAt: Time)

  /** A lease tells its attempt, the limit of attempts and its expiry as they are stored. */
  predicate Describes(lease: Lease, s: Sys) {
    && lease.id in s.queue
    && lease.attempt == s.queue[lease.id].attempts && lease.maxAttempts == s.queue[lease.id].maxAttempts
    && Some(lease.expiresAt) == s.queue[lease.id].leaseExpiresAt
  }

  /** The rows a recovery at `now` leaves behind. */
  function RecoveredJobs(s: Sys, now: Time): map<JobId, Job> {
    map id | id in s.jobs ::
      if Expired(s, id, now) then RecoveredJob(s.jobs[id], s.queue[id], now) else s.jobs[id]
  }

  function RecoveredRow(job: Job, row: QueueRow, now: Time): QueueRow {
    if RecoveredJob(job, row, now).status.Queued? then Unleased(row).(nextAttemptAt := now) else Unleased(row)
  }

  function RecoveredRows(s: Sys, now: Time): map<JobId, QueueRow> {
    map id | id in s.queue ::
      if Expired(s, id, now) then RecoveredRow(s.jobs[id], s.queue[id], now) else s.queue[id]
  }

  function ExpiredJobs(s: Sys, now: Time): set<JobId> {
    set id | id in s.jobs && Expired(s, id, now)
  }

  /** The expired jobs that go back to the queue. */
  function Requeued(s: Sys, now: Time): set<JobId> {
    set id | id in s.jobs && Expired(s, id, now) && RecoveredJob(s.jobs[id], s.queue[id], now).status.Queued?
  }

  /** Half way through a recovery of `s`: the rows in `done` are recovered, the others untouched. */
  ghost predicate Recovering(s: Sys, t: Sys, now: Time, done: set<JobId>) {
    && (forall id :: id in t.jobs <==> id in s.jobs)
    && (forall id :: id in t.queue <==> id in s.queue)
    && (forall id :: id in s.jobs ==> t.jobs[id] == if id in done then RecoveredJobs(s, now)[id] else s.jobs[id])
    && (forall id :: id in s.queue ==> t.queue[id] == if id in done then RecoveredRows(s, now)[id] else s.queue[id])
  }

  lemma RecoveringStep(s: Sys, t: Sys, u: Sys, now: Time, done: set<JobId>, id: JobId)
    requires Recovering(s, t, now, done) && id !in done && id in ExpiredJobs(s, now)
    ensures Expired(t, id, now)
    ensures RecoveredJob(t.jobs[id], t.queue[id], now).status.Queued? <==> id in Requeued(s, now)
    ensures u.jobs == t.jobs[id := RecoveredJob(t.jobs[id], t.queue[id], now)]
         && u.queue == t.queue[id := RecoveredRow(t.jobs[id], t.queue[id], now)]
         ==> Recovering(s, u, now, done + {id})
  {
  }

  lemma ExpiredInTables(s: Sys, t: Sys, now: Time)
    requires s.jobs == t.jobs && s.queue == t.queue
    ensures ExpiredJobs(s, now) == ExpiredJobs(t, now)
  {
  }

  lemma RecoveringStart(s: Sys, now: Time)
    ensures Recovering(s, s, now, {})
  {
  }

  lemma RequeuedAreExpired(s: Sys, now: Time)
    ensures Requeued(s, now) <= ExpiredJobs(s, now)
  {
  }

  lemma RecoveringDone(s: Sys, t: Sys, now: Time)
    requires Recovering(s, t, now, ExpiredJobs(s, now))
    ensures t.jobs == RecoveredJobs(s, now) && t.queue == RecoveredRows(s, now)
  {
  }

  /** The recovered tables, column by column. */
  lemma RecoveryColumns(s: Sys, limit: nat, now: Time)
    requires Inv(s, limit)
    ensures AllRecovered(s, now, RecoveredJobs(s, now), RecoveredRows(s, now))
    ensures ExpiredJobs(s, now) == Overdue(s, now) && Requeued(s, now) == GoingBack(s, now)
  {
    forall id | id in s.jobs
      ensures JobColumns(s, RecoverRow(0, id, now), id, RecoveredJobs(s, now)[id])
      ensures id in s.queue ==> RowColumns(s, RecoverRow(0, id, now), id, RecoveredRows(s, now)[id])
      ensures id in Requeued(s, now) <==> id in GoingBack(s, now)
    {
      InvRows(s, limit, id);
      hide *;
      RecoveryColumnsAt(s, now, id);
    }
    assert forall id :: id in s.queue ==> id in s.jobs;
    OverdueIs(s, now);
    hide RecoveredJob, RecoveredRow, JobColumns, RowColumns, Inv, Expired, LeaseOver, Requeued, GoingBack, ExpiredJobs, Overdue;
    assert Requeued(s, now) == GoingBack(s, now) by { OnlyJobs(s, now); }
  }

  lemma OverdueIs(s: Sys, now: Time)
    ensures ExpiredJobs(s, now) == Overdue(s, now)
  {
  }

  lemma OnlyJobs(s: Sys, now: Time)
    ensures Requeued(s, now) <= s.jobs.Keys && GoingBack(s, now) <= s.jobs.Keys
  {
    hide Expired, LeaseOver, RecoveredJob, GoesBack;
  }

  lemma RecoveryColumnsAt(s: Sys, now: Time, id: JobId)
    requires RowsOk(s, id)
    ensures JobColumns(s, RecoverRow(0, id, now), id, RecoveredJobs(s, now)[id])
    ensures id in s.queue ==> RowColumns(s, RecoverRow(0, id, now), id, RecoveredRows(s, now)[id])
    ensures id in Requeued(s, now) <==> id in GoingBack(s, now)
  {
    RecoverColumns(s, 0, id, now);
    hide JobColumns, RowColumns;
  }

  lemma OneMoreReleased(hand: multiset<WorkspaceId>, released: seq<WorkspaceId>, ws: WorkspaceId)
    ensures hand + multiset(released + [ws]) == hand + multiset(released) + multiset{ws}
    ensures |released + [ws]| == |released| + 1
  {
  }

  lemma OneSlotLess(released: seq<WorkspaceId>, i: nat, hand: multiset<WorkspaceId>)
    requires i < |released|
    ensures released[i] in hand + multiset(released[i..])
    ensures hand + multiset(released[i..]) - multiset{released[i]} == hand + multiset(released[i + 1..])
  {
    assert released[i..] == [released[i]] + released[i + 1..];
  }

  /** What a recovery has counted after the rows in `done`, with the rows in `todo` to come. */
  ghost predicate Tally(s: Sys, now: Time, todo: set<JobId>, done: set<JobId>, released: nat, requeued: nat, failed: nat) {
    && done + todo == ExpiredJobs(s, now) && (forall id :: id in done ==> id !in todo)
    && released == |done| == requeued + failed && requeued == |done * Requeued(s, now)|
  }

  lemma TallyStart(s: Sys, now: Time)
    ensures Tally(s, now, ExpiredJobs(s, now), {}, 0, 0, 0)
  {
    hide ExpiredJobs, Requeued;
    assert {} * Requeued(s, now) == {};
    assert {} + ExpiredJobs(s, now) == ExpiredJobs(s, now);
  }

  lemma TallyStep(s: Sys, now: Time, todo: set<JobId>, done: set<JobId>, released: nat, requeued: nat, failed: nat, id: JobId)
    requires Tally(s, now, todo, done, released, requeued, failed) && id in todo
    ensures id !in done && id in ExpiredJobs(s, now)
    ensures id in Requeued(s, now) ==> Tally(s, now, todo - {id}, done + {id}, released + 1, requeued + 1, failed)
    ensures id !in Requeued(s, now) ==> Tally(s, now, todo - {id}, done + {id}, released + 1, requeued, failed + 1)
  {
    hide ExpiredJobs, Requeued;
    assert done + {id} + (todo - {id}) == done + todo;
    if id in Requeued(s, now) {
      assert (done + {id}) * Requeued(s, now) == done * Requeued(s, now) + {id};
    } else {
      assert (done + {id}) * Requeued(s, now) == done * Requeued(s, now);
    }
  }

  lemma TallyDone(s: Sys, now: Time, done: set<JobId>, released: nat, requeued: nat, failed: nat)
    requires Tally(s, now, {}, done, released, requeued, failed)
    ensures done == ExpiredJobs(s, now) && requeued + failed == released == |ExpiredJobs(s, now)|
    ensures requeued == |Requeued(s, now)|
  {
    RequeuedAreExpired(s, now);
    hide ExpiredJobs, Requeued;
    assert done * Requeued(s, now) == Requeued(s, now);
  }

  /** Where a recovery of `s` stands at `t`, with the rows in `todo` to come. */
  ghost predicate Halfway(s: Sys, t: Sys, now: Time, me: ClientId, todo: set<JobId>, done: set<JobId>,
                          released: seq<WorkspaceId>, requeued: nat, failed: nat) {
    && Keeps(s, t, me) && Recovering(s, t, now, done) && Tally(s, now, todo, done, |released|, requeued, failed)
    && Hand(t.slots, me) == Hand(s.slots, me) + multiset(released)
    && forall ws :: ws in released ==> ws in s.workspaces
  }

  lemma HalfwayStart(s: Sys, now: Time, me: ClientId)
    ensures Halfway(s, s, now, me, ExpiredJobs(s, now), {}, [], 0, 0)
  {
    RelyReflexive(s, me);
    RecoveringStart(s, now);
    TallyStart(s, now);
    hide Keeps, Recovering, Tally, ExpiredJobs, Hand;
  }

  lemma HalfwayDone(s: Sys, t: Sys, now: Time, me: ClientId, done: set<JobId>, released: seq<WorkspaceId>, requeued: nat, failed: nat)
    requires Halfway(s, t, now, me, {}, done, released, requeued, failed)
    ensures Keeps(s, t, me) && t.jobs == RecoveredJobs(s, now) && t.queue == RecoveredRows(s, now)
    ensures Hand(t.slots, me) == Hand(s.slots, me) + multiset(released)
    ensures forall ws :: ws in released ==> ws in s.workspaces
    ensures requeued + failed == |released| == |ExpiredJobs(s, now)| && requeued == |Requeued(s, now)|
  {
    hide Keeps, Recovering, Tally, ExpiredJobs, Requeued, RecoveredJobs, RecoveredRows, Hand;
    TallyDone(s, now, done, |released|, requeued, failed);
    RecoveringDone(s, t, now);
  }

  /** The transition table of job statuses. */
  predicate Allowed(expected: ScanStatus, target: ScanStatus) {
    match expected
    case Queued => target.Running? || target.Canceled?
    case Running => Terminal(target)
    case _ => false
  }

  /** The row a status change leaves. */
  function Moved(job: Job, target: ScanStatus, findings: Option<nat>, error: Option<string>, now: Time): Job {
    job.(status := target,
         startedAt := if target.Running? then Some(now) else job.startedAt,
         finishedAt := if Terminal(target) then Some(now) else job.finishedAt,
         findingsCount := if findings.Some? then findings.value else job.findingsCount,
         errorMessage := if error.Some? then Some(if |error.value| > 4000 then error.value[..4000] else error.value)
                         else job.errorMessage)
  }

  ghost function RandomBound(ids: set<JobId>): (bound: nat)
    ensures forall n :: n >= bound ==> Random(n) !in ids
  {
    if ids == {} then 0 else
    var id :| id in ids;
    var rest := RandomBound(ids - {id});
    if id.Random? && id.n >= rest then id.n + 1 else rest
  }

  class ScanDatabase {
    /** The greatest running-scan limit per workspace that any caller passes. */
    const cap: nat
    const workspaces: set<WorkspaceId>
    /** The managed assets of each workspace, with the scan kind their asset kind maps to. */
    const assets: map<(WorkspaceId, AssetId), ScanKind>

    var jobs: map<JobId, Job>
    var queue: map<JobId, QueueRow>
    var runtime: map<WorkspaceId, nat>

    ghost var slots: map<ClientId, multiset<WorkspaceId>>
    ghost var sync: map<JobId, ClientId>

    constructor (cap: nat, workspaces: set<WorkspaceId>, assets: map<(WorkspaceId, AssetId), ScanKind>)
      requires forall a :: a in assets ==> a.0 in workspaces
      ensures Valid() && Initial(S())
      ensures this.cap == cap && this.workspaces == workspaces && this.assets == assets
    {
      this.cap, this.workspaces, this.assets := cap, workspaces, assets;
      jobs, queue, runtime := map[], map[], map[];
      slots, sync := map[], map[];
      new;
      InitialInv(S(), cap);
    }

    ghost function S(): Sys
      reads this
    {
      Sys(workspaces, jobs, queue, runtime, slots, sync)
    }

    /** The stored tables, without the bookkeeping. */
    function Tables(): Sys
      reads this
    {
      Sys(workspaces, jobs, queue, runtime, map[], map[])
    }

    ghost predicate Valid()
      reads this
    {
      Inv(S(), cap) && forall a :: a in assets ==> a.0 in workspaces
    }

    ghost predicate NoLeaseOf(me: ClientId, id: JobId)
      reads this
    {
      id in queue ==> queue[id].leaseOwner != Some(me)
    }

    /** Between two transactions other clients may run any number of steps: `OthersRely` shows
        that every such run stays within this contract. */
    method Yield(ghost me: ClientId, ghost alone: bool)
      requires Valid()
      modifies this
      ensures Valid() && Rely(old(S()), S(), me)
      ensures alone ==> S() == old(S())
    {
      RelyReflexive(S(), me);
    }

    // -------------------------------------------------------------- capacity slots

    /** One transaction. */
    method EnsureWorkspaceRuntime(ws: WorkspaceId, ghost me: ClientId) returns (found: bool)
      requires Valid()
      modifies this`runtime
      ensures Valid() && Rely(old(S()), S(), me)
      ensures found <==> ws in workspaces
      ensures S() == if found then EnsureCounter(old(S()), ws) else old(S())
    {
      EnsureCounterKeeps(S(), ws, cap);
      if ws in S().runtime { RelyReflexive(S(), me); } else { CounterRely(S(), ws, 0, me); }
      RelyReflexive(S(), me);
      found := ws in workspaces;
      if found && ws !in runtime {
        runtime := runtime[ws := 0];
      }
    }

    /** One transaction: the conditional increment. */
    method IncrementActive(ws: WorkspaceId, limit: int, ghost me: ClientId) returns (updated: bool)
      requires Valid() && limit <= cap
      modifies this`runtime, this`slots
      ensures Valid() && S() == AcquireSlot(old(S()), me, ws, limit)
      ensures updated <==> ws in old(runtime) && old(runtime)[ws] < limit
    {
      AcquireKeeps(S(), me, ws, limit, cap);
      updated := ws in runtime && runtime[ws] < limit;
      if updated {
        runtime := runtime[ws := runtime[ws] + 1];
        slots := slots[me := Hand(slots, me) + multiset{ws}];
      }
    }

    /** One transaction: the conditional decrement. A slot in hand makes the condition true. */
    method DecrementActive(ws: WorkspaceId, ghost me: ClientId)
      modifies this`runtime, this`slots
      ensures S() == ReleaseSlot(old(S()), me, ws)
      ensures old(Valid()) && ws in Hand(old(slots), me) ==> Valid() && ws in old(runtime) && old(runtime)[ws] > 0
    {
      if Valid() && ws in Hand(slots, me) {
        ReleaseKeeps(S(), me, ws, cap);
        SlotIsCounted(S(), cap, me, ws);
      }
      if ws in runtime && runtime[ws] > 0 {
        runtime := runtime[ws := runtime[ws] - 1];
        slots := slots[me := Hand(slots, me) - multiset{ws}];
      }
    }

    method AcquireScanSlot(ws: WorkspaceId, limit: int, ghost me: ClientId, ghost alone: bool)
      returns (r: Result<bool>)
      requires Valid() && limit <= cap
      modifies this
      ensures Valid() && Keeps(old(S()), S(), me)
      ensures limit < 1 ==> r == Err(ValueError)
      ensures limit >= 1 && ws !in workspaces ==> r == Err(LookupError)
      ensures limit >= 1 && ws in workspaces ==> r.Ok?
      ensures Hand(slots, me) == Hand(old(slots), me) + if r == Ok(true) then multiset{ws} else multiset{}
      ensures alone && r.Ok? ==>
                && S() == AcquireSlot(EnsureCounter(old(S()), ws), me, ws, limit)
                && (r.value <==> Active(old(runtime), ws) < limit)
      ensures alone && r.Err? ==> S() == old(S())
    {
      if limit < 1 {
        RelyReflexive(S(), me);
        return Err(ValueError);
      }
      var found := EnsureWorkspaceRuntime(ws, me);
      if !found {
        return Err(LookupError);
      }
      ghost var ensured := S();
      Yield(me, alone);
      RelyTransitive(old(S()), ensured, S(), me);
      ghost var yielded := S();
      var updated := IncrementActive(ws, limit, me);
      OwnSlotKeeps(yielded, S(), me);
      KeepsTransitive(old(S()), yielded, S(), me);
      r := Ok(updated);
    }

    /** Gives a slot back. The source lets anyone call it; `ReleaseKeepsExactly` says when a caller
        without a slot does no harm. */
    method ReleaseScanSlot(ws: WorkspaceId, ghost me: ClientId, ghost alone: bool) returns (r: Result<bool>)
      requires Valid()
      modifies this
      ensures ws !in workspaces ==> r == Err(LookupError) && S() == old(S())
      ensures ws in workspaces ==> r.Ok?
      ensures ws in workspaces && ws in Hand(old(slots), me) ==>
                && Valid() && Keeps(old(S()), S(), me)
                && Hand(slots, me) == Hand(old(slots), me) - multiset{ws}
                && (alone ==> S() == ReleaseSlot(old(S()), me, ws))
      ensures alone && ws in workspaces ==> S() == ReleaseSlot(EnsureCounter(old(S()), ws), me, ws)
    {
      ghost var held := ws in Hand(slots, me);
      if held { SlotIsCounted(S(), cap, me, ws); }
      var found := EnsureWorkspaceRuntime(ws, me);
      if !found {
        return Err(LookupError);
      }
      ghost var ensured := S();
      Yield(me, alone);
      RelyTransitive(old(S()), ensured, S(), me);
      ghost var yielded := S();
      DecrementActive(ws, me);
      if held {
        OwnSlotKeeps(yielded, S(), me);
        KeepsTransitive(old(S()), yielded, S(), me);
      }
      r := Ok(true);
    }

    /** One transaction. The count returned is the number of workspaces whose counter row was
        missing or wrong. */
    method ReconcileScanSlots() returns (changed: nat)
      modifies this`runtime
      ensures S() == Reconciled(old(S()))
      ensures changed == |MisCounted(old(S()))|
      ensures forall ws :: ws in MisCounted(old(S())) <==>
                ws in workspaces && !(ws in old(runtime) && ws in runtime && runtime[ws] == old(runtime)[ws])
    {
      ghost var s := S();
      var targets := map ws | ws in workspaces :: |RunningJobs(jobs, ws)|;
      var todo := workspaces;
      changed := 0;
      ghost var wrong := {};
      while todo != {}
        invariant todo <= workspaces
        invariant forall ws :: ws in runtime <==> ws in s.runtime || (ws in workspaces && ws !in todo)
        invariant forall ws :: ws in workspaces && ws !in todo ==> runtime[ws] == targets[ws]
        invariant forall ws :: ws in s.runtime && (ws in todo || ws !in workspaces) ==> runtime[ws] == s.runtime[ws]
        invariant changed == |wrong|
        invariant forall ws :: ws in wrong <==>
                    ws in workspaces && ws !in todo && !(ws in s.runtime && s.runtime[ws] == targets[ws])
      {
        var ws :| ws in todo;
        if ws !in runtime || runtime[ws] != targets[ws] {
          runtime := runtime[ws := targets[ws]];
          changed := changed + 1;
          wrong := wrong + {ws};
        }
        todo := todo - {ws};
      }
      assert forall ws :: ws in wrong <==> ws in MisCounted(s);
      assert wrong == MisCounted(s);
      ReconciledRuntime(s, runtime);
    }

    // -------------------------------------------------------------- creating work

    /** One transaction: the job with this id, created unless it is already there. An existing id
        bound to other work is refused. */
    method CreateScanJob(ws: WorkspaceId, asset: AssetId, kind: ScanKind, id: JobId, forSync: bool,
                         requestedAt: Time, ghost me: ClientId)
      returns (r: Result<Job>)
      requires Valid() && (forSync ==> id.Random? && id !in jobs)
      modifies this`jobs, this`sync
      ensures Valid()
      ensures (ws, asset) !in assets ==> r == Err(LookupError)
      ensures (ws, asset) in assets && id in old(jobs) ==>
                r == (var j := old(jobs)[id];
                      if j.workspace == ws && j.asset == asset && j.kind == kind then Ok(j) else Err(ValueError))
      ensures (ws, asset) in assets && id !in old(jobs) ==>
                r == Ok(Job(ws, asset, kind, Queued, requestedAt, None, None, 0, None))
      ensures S() == if r.Ok? then InsertJob(old(S()), me, id, r.value, forSync) else old(S())
    {
      if (ws, asset) !in assets {
        return Err(LookupError);
      }
      if id in jobs {
        var existing := jobs[id];
        if existing.workspace != ws || existing.asset != asset || existing.kind != kind {
          return Err(ValueError);
        }
        return Ok(existing);
      }
      var job := Job(ws, asset, kind, Queued, requestedAt, None, None, 0, None);
      CreateKeeps(S(), me, id, job, forSync, cap);
      jobs := jobs[id := job];
      if forSync { sync := sync[id := me]; }
      r := Ok(job);
    }

    /** One transaction: the queue row of a job, added unless it is already there. */
    method AddToQueue(id: JobId, maxAttempts: int, now: Time) returns (r: Result<bool>)
      requires Valid() && id in jobs && id !in sync && 1 <= maxAttempts <= 20
      modifies this`queue
      ensures Valid() && S() == InsertRow(old(S()), id, maxAttempts, now)
      ensures r == if id !in old(queue) then Ok(true)
                   else if old(queue)[id].maxAttempts == maxAttempts then Ok(false) else Err(ValueError)
    {
      InsertRowKeeps(S(), id, maxAttempts, now, cap);
      if id in queue {
        return if queue[id].maxAttempts == maxAttempts then Ok(false) else Err(ValueError);
      }
      queue := queue[id := QueueRow(0, maxAttempts, None, None, None, now, false)];
      r := Ok(true);
    }

    /** Queues a job. A caller that names the id does not name a synchronous job; otherwise the id
        is fresh. */
    method Enqueue(ws: WorkspaceId, asset: AssetId, kind: ScanKind, maxAttempts: int, now: Time,
                   jobId: Option<JobId>, ghost me: ClientId, ghost alone: bool)
      returns (id: JobId, r: Result<Job>)
      requires Valid() && (jobId.Some? ==> jobId.value !in sync)
      modifies this
      ensures Valid()
      ensures !(1 <= maxAttempts <= 20) ==> r == Err(ValueError) && S() == old(S())
      ensures 1 <= maxAttempts <= 20 && (ws, asset) !in assets ==> r == Err(LookupError)
      ensures r.Ok? ==>
                && (if jobId.Some? then id == jobId.value else id !in old(jobs))
                && id in jobs && id in queue && queue[id].maxAttempts == maxAttempts
                && jobs[id].workspace == ws && jobs[id].asset == asset && jobs[id].kind == kind
      ensures r.Ok? && alone ==>
                && S() == InsertRow(InsertJob(old(S()), me, id, r.value, false), id, maxAttempts, now)
                && (id in old(jobs) && id in old(queue) ==> S() == old(S()) && r.value == old(jobs)[id])
    {
      id := Random(0);
      if !(1 <= maxAttempts <= 20) {
        return id, Err(ValueError);
      }
      if jobId.Some? {
        id := jobId.value;
      } else {
        assert Random(RandomBound(jobs.Keys)) !in jobs;
        id :| id.Random? && id !in jobs;
      }
      r := CreateScanJob(ws, asset, kind, id, false, now, me);
      if r.Err? {
        return;
      }
      assert id !in sync;
      ghost var created := S();
      Yield(me, alone);
      var added := AddToQueue(id, maxAttempts, now);
      if added.Err? {
        r := Err(added.error);
      }
    }

    // -------------------------------------------------------------- claiming

    /** One transaction: the selection query. */
    method SelectCandidates(now: Time) returns (candidates: seq<JobId>)
      ensures IsCandidates(S(), now, candidates)
      ensures forall i :: 0 <= i < |candidates| ==> candidates[i] in jobs
    {
      var heads := Heads(Tables(), now);
      candidates := [];
      var rest := heads;
      while rest != {} && |candidates| < 20
        invariant rest <= heads && |candidates| <= 20
        invariant forall i :: 0 <= i < |candidates| ==> candidates[i] in heads && candidates[i] in jobs
        invariant forall h :: h in heads && h !in rest ==> h in candidates
        invariant forall i, k :: 0 <= i < k < |candidates| ==> Older(Tables(), candidates[i], candidates[k])
        invariant forall i, h :: 0 <= i < |candidates| && h in rest ==> Older(Tables(), candidates[i], h)
        decreases rest
      {
        ghost var oldest := OldestExists(Tables(), rest);
        var id :| id in rest && forall k :: k in rest && k != id ==> Older(Tables(), id, k);
        candidates := candidates + [id];
        rest := rest - {id};
      }
      HeadsOfTables(now);
    }

    lemma HeadsOfTables(now: Time)
      ensures Heads(Tables(), now) == Heads(S(), now)
      ensures forall a, b :: a in jobs && b in jobs ==> (Older(Tables(), a, b) <==> Older(S(), a, b))
    {
      assert EligibleJobs(Tables(), now) == EligibleJobs(S(), now);
    }

    /** One transaction: two guarded updates, rolled back together unless both match. */
    method TryClaim(id: JobId, me: ClientId, now: Time, expires: Time) returns (claimed: bool)
      requires Valid() && id in jobs && jobs[id].workspace in Hand(slots, me)
      modifies this`jobs, this`queue, this`slots
      ensures Valid() && S() == ClaimJob(old(S()), me, id, now, expires)
      ensures claimed <==> ClaimTakes(old(S()), id, now)
      ensures if claimed then LeasedBy(S(), id, me) else S() == old(S())
      ensures Hand(slots, me) == Hand(old(slots), me) - if claimed then multiset{old(jobs)[id].workspace} else multiset{}
    {
      ClaimKeeps(S(), me, id, now, expires, cap);
      if id !in queue || !Claimable(queue[id], now) {
        return false;
      }
      if !jobs[id].status.Queued? {
        return false;
      }
      queue := queue[id := queue[id].(leaseOwner := Some(me), leaseExpiresAt := Some(expires),
                                      lastHeartbeatAt := Some(now), attempts := queue[id].attempts + 1)];
      jobs := jobs[id := jobs[id].(status := Running, startedAt := Some(now))];
      slots := slots[me := Hand(slots, me) - multiset{jobs[id].workspace}];
      claimed := true;
    }

    /** Reads the job and then its lease; by then the lease may be gone again. */
    method LeaseFromJobId(id: JobId, me: ClientId, ghost alone: bool) returns (r: Result<Lease>)
      requires Valid() && id in jobs && id in queue
      modifies this
      ensures Valid() && Rely(old(S()), S(), me) && (alone ==> S() == old(S()))
      ensures r.Err? ==> r == Err(RuntimeError) && NoLeaseOf(me, id)
      ensures r.Ok? ==>
                && r.value.id == id && id in jobs && SameWork(r.value.job, jobs[id])
                && LeasedBy(S(), id, me)
                && r.value.attempt == queue[id].attempts && r.value.maxAttempts == queue[id].maxAttempts
                && Some(r.value.expiresAt) == queue[id].leaseExpiresAt
    {
      var job := jobs[id];
      Yield(me, alone);
      var row := queue[id];
      if row.leaseOwner != Some(me) || row.leaseExpiresAt.None? {
        return Err(RuntimeError);
      }
      r := Ok(Lease(id, job, row.attempts, row.maxAttempts, row.leaseExpiresAt.value));
    }

    /** One candidate: a slot, the claim, and the slot back if the claim was lost. */
    method ClaimCandidate(id: JobId, ws: WorkspaceId, me: ClientId, limit: int, now: Time, expires: Time,
                          ghost alone: bool)
      returns (r: Result<Option<Lease>>)
      requires Valid() && 1 <= limit <= cap && id in jobs && id in queue
      requires jobs[id].workspace == ws && ws in workspaces
      modifies this
      ensures Valid() && Hand(slots, me) == Hand(old(slots), me)
      ensures !(r.Ok? && r.value.Some?) ==> Keeps(old(S()), S(), me)
      ensures r.Ok? && r.value.Some? ==>
                && r.value.value.id == id
                && KeepsWorkExcept(old(S()), S(), me, {id}) && KeepsSync(old(S()), S(), me)
                && LeasedBy(S(), id, me) && SameWork(r.value.value.job, jobs[id]) && Describes(r.value.value, S())
      ensures alone && ClaimTakes(old(S()), id, now) && Full(old(S()), id, limit) ==>
                r == Ok(None) && S() == old(S())
      ensures alone && ClaimTakes(old(S()), id, now) && !Full(old(S()), id, limit) ==>
                && r.Ok? && r.value.Some?
                && S() == ClaimedAlone(old(S()), me, id, limit, now, expires)
    {
      hide KeepsWorkExcept, Keeps, KeepsSync, Inv, AcquireSlot, EnsureCounter, ClaimJob, ClaimTakes, Full, LeasedBy;
      SlotTried(S(), me, id, limit, now);
      ghost var s, hand := S(), Hand(slots, me);
      assert hand + multiset{ws} - multiset{ws} == hand;
      var slot := AcquireScanSlot(ws, limit, me, alone);
      if slot != Ok(true) {
        return Ok(None);
      }
      ghost var s2 := S();
      Yield(me, alone);
      KeepsTransitive(s, s2, S(), me);
      ghost var s3 := S();
      KeptJob(s, s3, me, id);
      r := ClaimWithSlot(id, ws, me, now, expires, alone);
      if r.Ok? && r.value.Some? { ExceptAfterKeeps(s, s3, S(), me, id); } else { KeepsTransitive(s, s3, S(), me); }
    }

    /** The claim itself, with the slot in hand: it goes into the job or back to the workspace. */
    method ClaimWithSlot(id: JobId, ws: WorkspaceId, me: ClientId, now: Time, expires: Time, ghost alone: bool)
      returns (r: Result<Option<Lease>>)
      requires Valid() && id in jobs && id in queue && jobs[id].workspace == ws && ws in workspaces
      requires ws in Hand(slots, me)
      modifies this
      ensures Valid() && Hand(slots, me) == Hand(old(slots), me) - multiset{ws}
      ensures !(r.Ok? && r.value.Some?) ==> Keeps(old(S()), S(), me)
      ensures r.Ok? && r.value.Some? ==>
                && r.value.value.id == id
                && KeepsWorkExcept(old(S()), S(), me, {id}) && KeepsSync(old(S()), S(), me)
                && LeasedBy(S(), id, me) && SameWork(r.value.value.job, jobs[id]) && Describes(r.value.value, S())
      ensures alone && ClaimTakes(old(S()), id, now) ==>
                r.Ok? && r.value.Some? && S() == ClaimJob(old(S()), me, id, now, expires)
    {
      hide KeepsWorkExcept, Keeps, KeepsSync, Inv, ReleaseSlot, ClaimJob, ClaimTakes;
      ghost var s := S();
      var claimed := TryClaim(id, me, now, expires);
      ghost var s4 := S();
      if !claimed {
        Yield(me, alone);
        ghost var s5 := S();
        var released := ReleaseScanSlot(ws, me, alone);
        KeepsTransitive(s, s5, S(), me);
        return Ok(None);
      }
      ClaimKeepsExcept(s, s4, cap, me, id, now, expires);
      r := LoadClaim(id, me, alone);
      KeepsExceptThen(s, s4, S(), me, id);
    }

    method LoadClaim(id: JobId, me: ClientId, ghost alone: bool) returns (r: Result<Option<Lease>>)
      requires Valid() && id in jobs && id in queue
      modifies this
      ensures Valid() && Rely(old(S()), S(), me) && (alone ==> S() == old(S()))
      ensures r.Err? ==> NoLeaseOf(me, id)
      ensures r.Ok? ==>
                && r.value.Some? && r.value.value.id == id && id in jobs && SameWork(r.value.value.job, jobs[id])
                && LeasedBy(S(), id, me) && Describes(r.value.value, S())
      ensures alone && LeasedBy(old(S()), id, me) ==> r.Ok?
    {
      Yield(me, alone);
      ghost var s7 := S();
      var lease := LeaseFromJobId(id, me, alone);
      RelyTransitive(old(S()), s7, S(), me);
      r := if lease.Ok? then Ok(Some(lease.value)) else Err(lease.error);
    }

    /** Offers a worker the oldest eligible job of a workspace that has room. Every slot taken
        for a candidate that is then lost to another worker is given back. */
    method ClaimNext(me: ClientId, leaseSeconds: int, limit: int, now: Time, ghost alone: bool)
      returns (r: Result<Option<Lease>>)
      requires Valid() && limit <= cap
      modifies this
      ensures Valid() && Hand(slots, me) == Hand(old(slots), me)
      ensures !(5 <= leaseSeconds <= 3600) || limit < 1 ==> r == Err(ValueError) && S() == old(S())
      ensures !(r.Ok? && r.value.Some?) ==> Keeps(old(S()), S(), me)
      ensures r.Ok? && r.value.Some? ==>
                && KeepsWorkExcept(old(S()), S(), me, {r.value.value.id}) && KeepsSync(old(S()), S(), me)
                && LeasedBy(S(), r.value.value.id, me)
                && SameWork(r.value.value.job, jobs[r.value.value.id]) && Describes(r.value.value, S())
      ensures alone && 5 <= leaseSeconds <= 3600 && limit >= 1 ==>
                && r.Ok?
                && (if r.value.None? then
                      FairChoice(old(S()), now, limit, None) && S() == old(S())
                    else
                      var id := r.value.value.id;
                      && FairChoice(old(S()), now, limit, Some(id))
                      && S() == ClaimedAlone(old(S()), me, id, limit, now, now + leaseSeconds)
                      && r.value.value.expiresAt == now + leaseSeconds && r.value.value.attempt == old(queue)[id].attempts + 1)
    {
      hide KeepsWorkExcept, Keeps, KeepsSync, Inv, ClaimedAlone, IsCandidates, FairChoice, Full;
      ghost var s := S();
      RelyReflexive(s, me);
      if !(5 <= leaseSeconds <= 3600) || limit < 1 {
        return Err(ValueError);
      }
      var candidates := SelectCandidates(now);
      var workspaceOf := map id | id in candidates && id in jobs :: jobs[id].workspace;
      var i := 0;
      while i < |candidates|
        invariant 0 <= i <= |candidates|
        invariant Valid() && Rely(s, S(), me)
        invariant alone ==> S() == s
        invariant forall k :: 0 <= k < |candidates| ==> candidates[k] in s.jobs
        invariant alone ==> forall k :: 0 <= k < i ==> Full(s, candidates[k], limit)
      {
        var id := candidates[i];
        CandidateIsEligible(s, now, candidates, i);
        ghost var s0 := S();
        Yield(me, alone);
        RelyTransitive(s, s0, S(), me);
        ghost var s1 := S();
        KeptJob(s, s1, me, id);
        KnownWorkspace(s1, cap, id);
        r := ClaimCandidate(id, workspaceOf[id], me, limit, now, now + leaseSeconds, alone);
        if r != Ok(None) {
          if r.Ok? { ExceptAfterKeeps(s, s1, S(), me, id); } else { KeepsTransitive(s, s1, S(), me); }
          if alone {
            ChoiceIsFair(s, now, limit, candidates, i);
            ClaimedLease(s, me, id, limit, now, now + leaseSeconds);
          }
          return;
        }
        i := i + 1;
        KeepsTransitive(s, s1, S(), me);
      }
      if alone { NoChoiceIsFair(s, now, limit, candidates); }
      r := Ok(None);
    }

    // -------------------------------------------------------------- holding a lease

    /** One guarded update, then a read of the renewed lease. */
    method Heartbeat(id: JobId, me: ClientId, leaseSeconds: int, now: Time, ghost alone: bool)
      returns (r: Result<Lease>)
      requires Valid()
      modifies this
      ensures Valid() && Rely(old(S()), S(), me)
      ensures !(5 <= leaseSeconds <= 3600) ==> r == Err(ValueError)
      ensures r.Ok? ==> r.value.id == id && LeasedBy(S(), id, me) && SameWork(r.value.job, jobs[id]) && Describes(r.value, S())
      ensures alone && r.Ok? ==>
                && r.value.expiresAt == now + leaseSeconds && r.value.attempt == old(queue)[id].attempts
                && queue[id] == old(queue)[id].(leaseExpiresAt := Some(now + leaseSeconds), lastHeartbeatAt := Some(now))
      ensures alone && 5 <= leaseSeconds <= 3600 ==>
                && S() == RenewLease(old(S()), me, id, now, now + leaseSeconds)
                && (r.Ok? <==> id in old(queue) && old(queue)[id].leaseOwner == Some(me) && !old(queue)[id].cancelRequested)
    {
      hide KeepsWorkExcept, Keeps, KeepsSync, Inv;
      ghost var s := S();
      RelyReflexive(s, me);
      if !(5 <= leaseSeconds <= 3600) {
        return Err(ValueError);
      }
      var renewed := RenewRow(id, me, now, now + leaseSeconds);
      if !renewed {
        return Err(RuntimeError);
      }
      ghost var s1 := S();
      Yield(me, alone);
      RelyTransitive(s, s1, S(), me);
      ghost var s2 := S();
      KeptJob(s1, s2, me, id);
      r := LeaseFromJobId(id, me, alone);
      RelyTransitive(s, s2, S(), me);
    }

    /** One transaction. */
    method RenewRow(id: JobId, me: ClientId, now: Time, expires: Time) returns (renewed: bool)
      requires Valid()
      modifies this`queue
      ensures Valid() && Rely(old(S()), S(), me) && S() == RenewLease(old(S()), me, id, now, expires)
      ensures renewed <==> id in old(queue) && old(queue)[id].leaseOwner == Some(me) && !old(queue)[id].cancelRequested
      ensures renewed ==> LeasedBy(S(), id, me)
    {
      ghost var s := S();
      RenewKeeps(s, me, id, now, expires, cap);
      LeaseMeansRunning(s, cap, id, me);
      if id !in queue || queue[id].leaseOwner != Some(me) || queue[id].cancelRequested {
        RelyReflexive(s, me);
        return false;
      }
      queue := queue[id := queue[id].(leaseExpiresAt := Some(expires), lastHeartbeatAt := Some(now))];
      RowRely(s, id, queue[id], me);
      renewed := true;
    }

    /** One transaction. */
    method ShouldCancel(id: JobId, me: ClientId) returns (r: Result<bool>)
      ensures r == if id in queue && queue[id].leaseOwner == Some(me) then Ok(queue[id].cancelRequested)
                   else Err(RuntimeError)
    {
      if id !in queue || queue[id].leaseOwner != Some(me) {
        return Err(RuntimeError);
      }
      r := Ok(queue[id].cancelRequested);
    }

    // -------------------------------------------------------------- ending an attempt

    /** One transaction: both rows change or neither does. */
    method FinishRows(id: JobId, me: ClientId, status: ScanStatus, findings: nat, error: Option<string>, now: Time)
      returns (finished: bool)
      requires Valid() && Terminal(status)
      modifies this`jobs, this`queue, this`slots
      ensures Valid() && Keeps(old(S()), S(), me)
      ensures S() == FinishJob(old(S()), me, id, status, findings, error, now)
      ensures finished <==> LeasedBy(old(S()), id, me)
    {
      ghost var s := S();
      FinishKeeps(s, me, id, status, findings, error, now, cap);
      if id !in jobs || !jobs[id].status.Running? || id !in queue || queue[id].leaseOwner != Some(me) {
        RelyReflexive(s, me);
        return false;
      }
      jobs := jobs[id := jobs[id].(status := status, finishedAt := Some(now), findingsCount := findings,
                                   errorMessage := Stored(error))];
      queue := queue[id := Unleased(queue[id])];
      slots := slots[me := Hand(slots, me) + multiset{jobs[id].workspace}];
      OwnWorkKeeps(s, S(), cap, me, id);
      finished := true;
    }

    /** One transaction: both rows change or neither does. */
    method RetryRows(id: JobId, me: ClientId, nextAttempt: Time) returns (requeued: bool)
      requires Valid()
      requires LeasedBy(S(), id, me) ==> queue[id].attempts < queue[id].maxAttempts
      modifies this`jobs, this`queue, this`slots
      ensures Valid() && Keeps(old(S()), S(), me)
      ensures S() == RetryJob(old(S()), me, id, nextAttempt)
      ensures requeued <==> LeasedBy(old(S()), id, me)
    {
      ghost var s := S();
      RetryKeeps(s, me, id, nextAttempt, cap);
      if id !in jobs || !jobs[id].status.Running? || id !in queue || queue[id].leaseOwner != Some(me) {
        RelyReflexive(s, me);
        return false;
      }
      jobs := jobs[id := jobs[id].(status := Queued)];
      queue := queue[id := Unleased(queue[id]).(nextAttemptAt := nextAttempt)];
      slots := slots[me := Hand(slots, me) + multiset{jobs[id].workspace}];
      OwnWorkKeeps(s, S(), cap, me, id);
      requeued := true;
    }

    /** Gives back the slot of a job that has just stopped running, then reads the job. */
    method ReleaseAndRead(id: JobId, me: ClientId, ghost alone: bool) returns (job: Job)
      requires Valid() && id in jobs && jobs[id].workspace in Hand(slots, me)
      modifies this
      ensures Valid() && Keeps(old(S()), S(), me)
      ensures Hand(slots, me) == Hand(old(slots), me) - multiset{old(jobs)[id].workspace}
      ensures id in jobs && job == jobs[id]
      ensures alone ==> S() == ReleaseSlot(old(S()), me, old(jobs)[id].workspace)
    {
      hide KeepsWorkExcept, Keeps, KeepsSync, Inv;
      ghost var s := S();
      var ws := jobs[id].workspace;
      Yield(me, alone);
      KnownWorkspace(s, cap, id);
      ghost var s1 := S();
      var released := ReleaseScanSlot(ws, me, alone);
      KeepsTransitive(s, s1, S(), me);
      ghost var s2 := S();
      Yield(me, alone);
      KeepsTransitive(s, s2, S(), me);
      KeptJob(s, S(), me, id);
      job := jobs[id];
    }

    /** Ends a running job. Whatever comes back, the caller holds no lease on the job and no slot
        of it afterwards. */
    method Finish(id: JobId, me: ClientId, status: ScanStatus, findings: nat, error: Option<string>, now: Time,
                  ghost alone: bool)
      returns (r: Result<Job>)
      requires Valid() && Terminal(status)
      modifies this
      ensures Valid() && Keeps(old(S()), S(), me) && Hand(slots, me) == Hand(old(slots), me)
      ensures NoLeaseOf(me, id)
      ensures r.Ok? <==> LeasedBy(old(S()), id, me)
      ensures r.Ok? ==>
                && id in jobs && r.value == jobs[id]
                && r.value == FinishJob(old(S()), me, id, status, findings, error, now).jobs[id]
      ensures alone && r.Ok? ==>
                S() == ReleaseSlot(FinishJob(old(S()), me, id, status, findings, error, now), me, r.value.workspace)
    {
      hide KeepsWorkExcept, Keeps, KeepsSync, Inv, ReleaseSlot, Stored;
      ghost var s, hand := S(), Hand(slots, me);
      LeaseMeansRunning(s, cap, id, me);
      if id !in jobs {
        RelyReflexive(s, me);
        return Err(LookupError);
      }
      var ws := jobs[id].workspace;
      assert hand + multiset{ws} - multiset{ws} == hand;
      var finished := FinishRows(id, me, status, findings, error, now);
      if !finished {
        return Err(RuntimeError);
      }
      ghost var s1 := S();
      var job := ReleaseAndRead(id, me, alone);
      KeepsTransitive(s, s1, S(), me);
      KeptJob(s1, S(), me, id);
      r := Ok(job);
    }

    lemma LeaseMeansRunning(s: Sys, limit: nat, id: JobId, me: ClientId)
      requires Inv(s, limit)
      ensures id in s.queue && s.queue[id].leaseOwner == Some(me) <==> LeasedBy(s, id, me)
    {
    }

    /** Puts a leased job with attempts left back into the queue and gives its slot back. */
    method Requeue(id: JobId, me: ClientId, nextAttempt: Time, ghost alone: bool) returns (r: Result<Job>)
      requires Valid() && id in jobs
      requires LeasedBy(S(), id, me) ==> queue[id].attempts < queue[id].maxAttempts
      modifies this
      ensures Valid() && Keeps(old(S()), S(), me) && Hand(slots, me) == Hand(old(slots), me)
      ensures NoLeaseOf(me, id)
      ensures r.Ok? <==> LeasedBy(old(S()), id, me)
      ensures r.Ok? ==> id in jobs && r.value == jobs[id]
      ensures alone && r.Ok? ==> S() == ReleaseSlot(RetryJob(old(S()), me, id, nextAttempt), me, r.value.workspace)
    {
      hide KeepsWorkExcept, Keeps, KeepsSync, Inv, ReleaseSlot, Stored;
      ghost var s, hand := S(), Hand(slots, me);
      LeaseMeansRunning(s, cap, id, me);
      var ws := jobs[id].workspace;
      assert hand + multiset{ws} - multiset{ws} == hand;
      var requeued := RetryRows(id, me, nextAttempt);
      if !requeued {
        return Err(RuntimeError);
      }
      ghost var s1 := S();
      var job := ReleaseAndRead(id, me, alone);
      KeepsTransitive(s, s1, S(), me);
      KeptJob(s1, S(), me, id);
      r := Ok(job);
    }

    /** A failed attempt goes back to the queue while it is retryable and attempts are left, and
        ends the job otherwise. Cancellation requests play no part in the choice. */
    method Fail(id: JobId, me: ClientId, error: string, retryable: bool, backoffSeconds: int, now: Time,
                ghost alone: bool)
      returns (r: Result<Job>)
      requires Valid()
      modifies this
      ensures Valid() && Keeps(old(S()), S(), me) && Hand(slots, me) == Hand(old(slots), me)
      ensures backoffSeconds < 0 ==> r == Err(ValueError)
      ensures backoffSeconds >= 0 ==> NoLeaseOf(me, id)
      ensures backoffSeconds >= 0 && alone ==>
                && (r.Ok? <==> LeasedBy(old(S()), id, me))
                && (r.Ok? ==>
                      && id in old(queue) && id in jobs && r.value == jobs[id]
                      && S() == ReleaseSlot(
                           if retryable && old(queue)[id].attempts < old(queue)[id].maxAttempts
                           then RetryJob(old(S()), me, id, now + backoffSeconds)
                           else FinishJob(old(S()), me, id, Failed, 0, Some(error), now),
                           me, r.value.workspace))
    {
      hide KeepsWorkExcept, Keeps, KeepsSync, Inv, ReleaseSlot, Stored;
      ghost var s, hand := S(), Hand(slots, me);
      RelyReflexive(s, me);
      LeaseMeansRunning(s, cap, id, me);
      if backoffSeconds < 0 {
        return Err(ValueError);
      }
      if id !in queue || queue[id].leaseOwner != Some(me) {
        return Err(RuntimeError);
      }
      var row := queue[id];
      Yield(me, alone);
      ghost var s1 := S();
      KeptJob(s, s1, me, id);
      if retryable && row.attempts < row.maxAttempts {
        LeaseMeansRunning(s1, cap, id, me);
        r := Requeue(id, me, now + backoffSeconds, alone);
      } else {
        r := Finish(id, me, Failed, 0, Some(error), now, alone);
      }
      KeepsTransitive(s, s1, S(), me);
    }

    /** Cancels a job that waits, and asks the worker of a running job to stop. */
    method RequestCancel(id: JobId, now: Time, ghost me: ClientId, ghost alone: bool) returns (r: Result<Job>)
      requires Valid()
      modifies this
      ensures Valid() && Rely(old(S()), S(), me)
      ensures r.Err? <==> !(id in old(jobs) && id in old(queue))
      ensures r.Ok? ==> id in jobs && id in queue && (Terminal(jobs[id].status) || queue[id].cancelRequested)
      ensures r.Ok? && old(jobs)[id].status.Queued? ==> jobs[id].status.Canceled?
      ensures alone ==> S() == CancelJob(old(S()), id, now) && (r.Ok? ==> r.value == jobs[id])
    {
      hide KeepsWorkExcept, Keeps, KeepsSync, Inv;
      ghost var s := S();
      RelyReflexive(s, me);
      if id !in jobs || id !in queue {
        return Err(LookupError);
      }
      if Terminal(jobs[id].status) {
        return Ok(jobs[id]);
      }
      CancelRows(id, now, me);
      ghost var s1 := S();
      Yield(me, alone);
      RelyTransitive(s, s1, S(), me);
      KeptJob(s1, S(), me, id);
      r := Ok(jobs[id]);
    }

    lemma CancelRowsKeeps(s: Sys, limit: nat, id: JobId, now: Time, me: ClientId)
      requires Inv(s, limit)
      ensures Inv(CancelJob(s, id, now), limit) && Rely(s, CancelJob(s, id, now), me)
    {
      CancelKeeps(s, id, now, limit);
      CancelRely(s, id, now, me);
    }

    /** One transaction. */
    method CancelRows(id: JobId, now: Time, ghost me: ClientId)
      requires Valid() && id in jobs && id in queue && !Terminal(jobs[id].status)
      modifies this`jobs, this`queue
      ensures Valid() && Rely(old(S()), S(), me) && S() == CancelJob(old(S()), id, now)
    {
      hide KeepsWorkExcept, Keeps, KeepsSync, Inv;
      ghost var s := S();
      CancelRowsKeeps(s, cap, id, now, me);
      queue := queue[id := queue[id].(cancelRequested := true)];
      if jobs[id].status.Queued? {
        jobs := jobs[id := jobs[id].(status := Canceled, finishedAt := Some(now))];
        queue := queue[id := queue[id].(leaseOwner := None, leaseExpiresAt := None)];
      }
      assert S() == CancelJob(s, id, now);
    }

    // -------------------------------------------------------------- expired leases

    /** One transaction: every running job whose lease has expired by `now` is ended or requeued.
        `released` lists the workspaces of these jobs. */
    method RecoverRows(now: Time, ghost me: ClientId)
      returns (released: seq<WorkspaceId>, requeued: nat, failed: nat)
      requires Valid()
      modifies this`jobs, this`queue, this`slots
      ensures Valid() && Keeps(old(S()), S(), me)
      ensures jobs == RecoveredJobs(old(S()), now) && queue == RecoveredRows(old(S()), now)
      ensures AllRecovered(old(S()), now, jobs, queue)
      ensures Hand(slots, me) == Hand(old(slots), me) + multiset(released)
      ensures forall ws :: ws in released ==> ws in workspaces
      ensures requeued + failed == |released| == |Overdue(old(S()), now)|
      ensures requeued == |GoingBack(old(S()), now)|
    {
      hide Keeps, KeepsWork, KeepsSync, KeepsWorkExcept, Inv, Hand, ExpiredJobs, Requeued, RecoveredJobs, RecoveredRows, Halfway;
      hide AllRecovered, Overdue, GoingBack;
      ghost var s := S();
      RecoveryColumns(s, cap, now);
      var todo := ExpiredJobs(Tables(), now);
      ghost var done: set<JobId> := {};
      ExpiredInTables(s, Tables(), now);
      released, requeued, failed := [], 0, 0;
      HalfwayStart(s, now, me);
      while todo != {}
        invariant Valid() && workspaces == s.workspaces
        invariant Halfway(s, S(), now, me, todo, done, released, requeued, failed)
        decreases |todo|
      {
        var id :| id in todo;
        var outcome, ws := RecoverNext(id, now, me, s, todo, done, released, requeued, failed);
        released := released + [ws];
        if outcome { requeued := requeued + 1; } else { failed := failed + 1; }
        todo, done := todo - {id}, done + {id};
      }
      HalfwayDone(s, S(), now, me, done, released, requeued, failed);
    }

    /** The next row of a recovery of `s`, after the rows in `done`. */
    method RecoverNext(id: JobId, now: Time, ghost me: ClientId, ghost s: Sys, ghost todo: set<JobId>, ghost done: set<JobId>,
                       ghost released: seq<WorkspaceId>, ghost requeued: nat, ghost failed: nat)
      returns (again: bool, ws: WorkspaceId)
      requires Valid() && workspaces == s.workspaces && id in todo
      requires Halfway(s, S(), now, me, todo, done, released, requeued, failed)
      modifies this`jobs, this`queue, this`slots
      ensures Valid()
      ensures Halfway(s, S(), now, me, todo - {id}, done + {id}, released + [ws],
                      if again then requeued + 1 else requeued, if again then failed else failed + 1)
    {
      hide KeepsWorkExcept, Keeps, KeepsSync, Inv, RecoveredJob, RecoveredRow, RecoverJob, Recovering, Requeued, ExpiredJobs, Tally, Hand;
      ghost var t := S();
      TallyStep(s, now, todo, done, |released|, requeued, failed, id);
      RecoveringStep(s, t, t, now, done, id);
      KnownWorkspace(t, cap, id);
      again := RecoverRow(id, now, me);
      RecoveringStep(s, t, S(), now, done, id);
      KeepsTransitive(s, t, S(), me);
      ws := jobs[id].workspace;
      OneMoreReleased(Hand(s.slots, me), released, ws);
    }

    /** One row of a recovery. */
    method RecoverRow(id: JobId, now: Time, ghost me: ClientId) returns (requeued: bool)
      requires Valid() && Expired(S(), id, now)
      modifies this`jobs, this`queue, this`slots
      ensures Valid() && Keeps(old(S()), S(), me) && S() == RecoverJob(old(S()), me, id, now)
      ensures jobs == old(jobs)[id := RecoveredJob(old(jobs)[id], old(queue)[id], now)]
      ensures queue == old(queue)[id := RecoveredRow(old(jobs)[id], old(queue)[id], now)]
      ensures Hand(slots, me) == Hand(old(slots), me) + multiset{old(jobs)[id].workspace}
      ensures jobs[id].workspace == old(jobs)[id].workspace
      ensures requeued <==> RecoveredJob(old(jobs)[id], old(queue)[id], now).status.Queued?
    {
      hide KeepsWorkExcept, Keeps, KeepsSync, Inv;
      ghost var s := S();
      RecoverRowKeeps(s, cap, id, now, me);
      var row, job := queue[id], jobs[id];
      var freed := Unleased(row);
      requeued := false;
      if row.cancelRequested {
        job := job.(status := Canceled, finishedAt := Some(now));
      } else if row.attempts >= row.maxAttempts {
        job := job.(status := Failed, finishedAt := Some(now),
                    errorMessage := Some("worker lease expired after final attempt"));
      } else {
        job := job.(status := Queued);
        freed := freed.(nextAttemptAt := now);
        requeued := true;
      }
      jobs := jobs[id := job];
      queue := queue[id := freed];
      slots := slots[me := Hand(slots, me) + multiset{job.workspace}];
      assert S() == RecoverJob(s, me, id, now);
    }

    lemma RecoverRowKeeps(s: Sys, limit: nat, id: JobId, now: Time, me: ClientId)
      requires Inv(s, limit) && Expired(s, id, now)
      ensures var u := RecoverJob(s, me, id, now);
              && Inv(u, limit) && Keeps(s, u, me)
              && u.jobs == s.jobs[id := RecoveredJob(s.jobs[id], s.queue[id], now)]
              && u.queue == s.queue[id := RecoveredRow(s.jobs[id], s.queue[id], now)]
    {
      RecoverKeeps(s, me, id, now, limit);
      OwnWorkKeeps(s, RecoverJob(s, me, id, now), limit, me, id);
    }

    /** Recovers expired leases and then gives back the slot of each recovered job. */
    method RecoverExpiredLeases(now: Time, ghost me: ClientId, ghost alone: bool)
      returns (requeued: nat, failed: nat)
      requires Valid()
      modifies this
      ensures Valid() && Keeps(old(S()), S(), me) && Hand(slots, me) == Hand(old(slots), me)
      ensures requeued + failed == |Overdue(old(S()), now)| && requeued == |GoingBack(old(S()), now)|
      ensures alone ==> AllRecovered(old(S()), now, jobs, queue)
    {
      hide KeepsWorkExcept, Keeps, KeepsSync, Inv, RecoveredJobs, RecoveredRows, AllRecovered, Overdue, GoingBack;
      ghost var s, hand := S(), Hand(slots, me);
      var released;
      released, requeued, failed := RecoverRows(now, me);
      ghost var s1 := S();
      ReleaseAll(released, hand, me, alone);
      KeepsTransitive(s, s1, S(), me);
    }

    method ReleaseAll(released: seq<WorkspaceId>, ghost hand: multiset<WorkspaceId>, ghost me: ClientId,
                      ghost alone: bool)
      requires Valid() && Hand(slots, me) == hand + multiset(released)
      requires forall ws :: ws in released ==> ws in workspaces
      modifies this
      ensures Valid() && Keeps(old(S()), S(), me) && Hand(slots, me) == hand
      ensures alone ==> jobs == old(jobs) && queue == old(queue)
    {
      hide KeepsWorkExcept, Keeps, KeepsSync, Inv;
      ghost var s := S();
      RelyReflexive(s, me);
      var i := 0;
      while i < |released|
        invariant 0 <= i <= |released|
        invariant Valid() && Keeps(s, S(), me)
        invariant Hand(slots, me) == hand + multiset(released[i..])
        invariant alone ==> jobs == s.jobs && queue == s.queue
      {
        hide Hand;
        ghost var s1 := S();
        Yield(me, alone);
        KeepsTransitive(s, s1, S(), me);
        ghost var s2 := S();
        OneSlotLess(released, i, hand);
        var given := ReleaseScanSlot(released[i], me, alone);
        KeepsTransitive(s, s2, S(), me);
        i := i + 1;
      }
    }

    // -------------------------------------------------------------- synchronous scans

    /** One transaction: the compare-and-set of a job status, for any job and any caller. */
    method TransitionScanJob(ws: WorkspaceId, id: JobId, expected: ScanStatus, target: ScanStatus, findings: Option<nat>,
                             error: Option<string>, now: Time)
      returns (r: Result<Job>)
      modifies this`jobs
      ensures r == if !Allowed(expected, target) then Err(ValueError)
                   else if !(id in old(jobs) && old(jobs)[id].workspace == ws && old(jobs)[id].status == expected)
                     then Err(RuntimeError)
                   else Ok(Moved(old(jobs)[id], target, findings, error, now))
      ensures jobs == if r.Ok? then old(jobs)[id := r.value] else old(jobs)
      ensures r == Err(ValueError) <==>
                if expected.Queued? then !target.Running? && !target.Canceled?
                else if expected.Running? then !target.Succeeded? && !target.Failed? && !target.Canceled?
                else true
      ensures r.Ok? ==>
                && SameWork(old(jobs)[id], r.value) && r.value.status == target
                && r.value.startedAt == (if target.Running? then Some(now) else old(jobs)[id].startedAt)
                && r.value.finishedAt == (if target.Running? then old(jobs)[id].finishedAt else Some(now))
                && r.value.findingsCount == (if findings.Some? then findings.value else old(jobs)[id].findingsCount)
                && r.value.errorMessage == (if error.Some? then Some(Cut(error.value)) else old(jobs)[id].errorMessage)
    {
      if !Allowed(expected, target) {
        return Err(ValueError);
      }
      if id !in jobs || jobs[id].workspace != ws || jobs[id].status != expected {
        return Err(RuntimeError);
      }
      var job := jobs[id].(status := target);
      if target.Running? { job := job.(startedAt := Some(now)); }
      if target.Succeeded? || target.Failed? || target.Canceled? { job := job.(finishedAt := Some(now)); }
      if findings.Some? { job := job.(findingsCount := findings.value); }
      if error.Some? {
        job := job.(errorMessage := Some(if |error.value| > 4000 then error.value[..4000] else error.value));
      }
      jobs := jobs[id := job];
      r := Ok(job);
    }

    /** The owner of a synchronous job starts or ends it: its slot goes into the job and back. */
    method MoveSyncJob(id: JobId, expected: ScanStatus, target: ScanStatus, findings: Option<nat>,
                       error: Option<string>, now: Time, ghost me: ClientId)
      returns (r: Result<Job>)
      requires Valid() && id in sync && sync[id] == me && id in jobs
      requires target.Running? && expected.Queued? ==>
                 findings.None? && error.None? && jobs[id].workspace in Hand(slots, me)
      requires expected.Queued? ==> target.Running?
      modifies this`jobs, this`slots
      ensures Valid() && KeepsWork(old(S()), S(), me)
      ensures !Allowed(expected, target) ==> r == Err(ValueError) && S() == old(S())
      ensures Allowed(expected, target) && old(jobs)[id].status != expected ==> r == Err(RuntimeError) && S() == old(S())
      ensures Allowed(expected, target) && old(jobs)[id].status == expected ==>
                && r.Ok? && id in jobs && r.value == jobs[id] && r.value.status == target
                && r.value.workspace == old(jobs)[id].workspace
                && (findings.Some? ==> r.value.findingsCount == findings.value)
                && S() == if target.Running? then StartSync(old(S()), me, id, now)
                          else FinishSync(old(S()), me, id, target, findings, error, now)
      ensures r.Ok? ==> sync == old(sync)
                        && Hand(slots, me) == if target.Running? then Hand(old(slots), me) - multiset{r.value.workspace}
                                              else Hand(old(slots), me) + multiset{r.value.workspace}
    {
      hide KeepsWorkExcept, KeepsSync, Inv;
      ghost var s := S();
      TransitionKeeps(s, cap, id, target, findings, error, now, me);
      r := TransitionScanJob(jobs[id].workspace, id, expected, target, findings, error, now);
      if r.Ok? {
        var ws := r.value.workspace;
        slots := slots[me := if target.Running? then Hand(slots, me) - multiset{ws} else Hand(slots, me) + multiset{ws}];
        assert S() == if target.Running? then StartSync(s, me, id, now)
                      else FinishSync(s, me, id, target, findings, error, now);
      }
    }

    lemma TransitionKeeps(s: Sys, limit: nat, id: JobId, target: ScanStatus, findings: Option<nat>,
                          error: Option<string>, now: Time, me: ClientId)
      requires Inv(s, limit) && id in s.sync && id in s.jobs
      ensures KeepsWork(s, s, me)
      ensures s.jobs[id].status.Queued? && s.jobs[id].workspace in Hand(s.slots, me) ==>
                Inv(StartSync(s, me, id, now), limit) && KeepsWork(s, StartSync(s, me, id, now), me)
      ensures s.jobs[id].status.Running? && Terminal(target) ==>
                var u := FinishSync(s, me, id, target, findings, error, now);
                Inv(u, limit) && KeepsWork(s, u, me)
    {
      RelyReflexive(s, me);
      if s.jobs[id].status.Queued? && s.jobs[id].workspace in Hand(s.slots, me) {
        var u := StartSync(s, me, id, now);
        StartSyncKeeps(s, me, id, now, limit);
        OwnSyncKeeps(s, id, u.jobs[id], u.slots[me], me);
      }
      if s.jobs[id].status.Running? && Terminal(target) {
        var u := FinishSync(s, me, id, target, findings, error, now);
        FinishSyncKeeps(s, me, id, target, findings, error, now, limit);
        OwnSyncKeeps(s, id, u.jobs[id], u.slots[me], me);
      }
    }
  }
}
