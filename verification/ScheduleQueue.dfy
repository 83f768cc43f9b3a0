/** The scan queue and the schedules work on the same job and queue tables. The state machine of
    the schedules keeps of a job what it is bound to and of a queue row its retry policy; this
    relates it to the state machine of the queue, step by step and run by run. */
module ScheduleQueue {
  import opened Common
  import Q = ScanQueue
  import QR = ScanQueueRuns
  import S = ScanSchedule

  function WorkOfJob(job: Q.Job): S.Work { S.Work(job.workspace, job.asset, job.kind) }

  function Works(jobs: map<JobId, Q.Job>): map<JobId, S.Work> { map id | id in jobs :: WorkOfJob(jobs[id]) }

  function Policies(queue: map<JobId, Q.QueueRow>): map<JobId, nat> { map id | id in queue :: queue[id].maxAttempts }

  /** The two state machines show the same tables. */
  predicate Matches(q: Q.Sys, s: S.Sys) {
    s.jobs == Works(q.jobs) && s.queue == Policies(q.queue)
  }

  /** The schedule steps a queue step amounts to: creating a job and adding a row. */
  function StepOf(step: Q.Step): seq<S.Step> {
    match step
    case CreateJob(_, Random(n), job, _) => [S.CreateOtherJob(n, WorkOfJob(job))]
    case CreateJob(_, Scheduled(schedule, at), _, _) => [S.CreateJob(S.Occurrence(schedule, at))]
    case AddQueueRow(Random(n), maxAttempts, _) => [S.AddOtherRow(n, maxAttempts)]
    case AddQueueRow(Scheduled(schedule, at), _, _) => [S.AddQueueRow(S.Occurrence(schedule, at))]
    case _ => []
  }

  /** Jobs with scheduled ids and their rows come from schedulers, under the terms of the
      schedule of an occurrence they have read as due. */
  predicate FromScheduler(s: S.Sys, step: Q.Step) {
    match step
    case CreateJob(_, Scheduled(schedule, at), job, _) =>
      S.Occurrence(schedule, at) in s.due && schedule in s.created && WorkOfJob(job) == S.WorkOf(s.created[schedule])
    case AddQueueRow(Scheduled(schedule, at), maxAttempts, _) =>
      S.Occurrence(schedule, at) in s.due && schedule in s.created && maxAttempts == s.created[schedule].maxAttempts
    case _ => true
  }

  // ---------------------------------------------------------------- steps

  predicate SameBinding(q: Q.Sys, q': Q.Sys, id: JobId) {
    && (id in q'.jobs <==> id in q.jobs) && (id in q.jobs ==> WorkOfJob(q'.jobs[id]) == WorkOfJob(q.jobs[id]))
    && (id in q'.queue <==> id in q.queue) && (id in q.queue ==> q'.queue[id].maxAttempts == q.queue[id].maxAttempts)
  }

  lemma {:induction false} BindingStays(q: Q.Sys, step: Q.Step, limit: nat, id: JobId)
    requires !step.CreateJob? && !step.AddQueueRow?
    ensures SameBinding(q, Q.Apply(q, step, limit), id)
  {
    if !QR.Touches(step, id) {
      QR.OthersStay(q, step, limit, id);
      hide Q.Apply;
    } else if step.Claim? || step.Heartbeat? || step.RequestCancel? || step.SyncStart? {
      StartedBindingStays(q, step, limit);
      hide Q.Apply, SameBinding;
    } else {
      EndedBindingStays(q, step, limit);
      hide Q.Apply, SameBinding;
    }
  }

  lemma {:induction false} StartedBindingStays(q: Q.Sys, step: Q.Step, limit: nat)
    requires step.Claim? || step.Heartbeat? || step.RequestCancel? || step.SyncStart?
    ensures SameBinding(q, Q.Apply(q, step, limit), step.id)
  {
    hide Q.Stored, Q.Claimable, Q.FinishJob, Q.RetryJob, Q.RecoverJob, Q.FinishSync, Q.AcquireSlot, Q.ReleaseSlot, Q.InsertJob;
  }

  lemma {:induction false} EndedBindingStays(q: Q.Sys, step: Q.Step, limit: nat)
    requires step.Finish? || step.Retry? || step.RecoverRow? || step.SyncFinish?
    ensures SameBinding(q, Q.Apply(q, step, limit), step.id)
  {
    hide SameBinding, Q.FinishJob, Q.RetryJob, Q.RecoverJob, Q.FinishSync;
    match step
    case Finish(c, id, status, findings, error, now) => FinishedBindingStays(q, c, id, status, findings, error, now);
    case Retry(c, id, nextAttempt) => RetriedBindingStays(q, c, id, nextAttempt);
    case RecoverRow(c, id, now) => RecoveredBindingStays(q, c, id, now);
    case SyncFinish(c, id, status, findings, error, now) => EndedSyncBindingStays(q, c, id, status, findings, error, now);
  }

  lemma {:induction false} FinishedBindingStays(q: Q.Sys, c: Q.ClientId, id: JobId, status: Q.ScanStatus, findings: nat,
                                                error: Option<string>, now: Time)
    ensures SameBinding(q, Q.FinishJob(q, c, id, status, findings, error, now), id)
  {
    hide Q.Stored;
  }

  lemma {:induction false} RetriedBindingStays(q: Q.Sys, c: Q.ClientId, id: JobId, nextAttempt: Time)
    ensures SameBinding(q, Q.RetryJob(q, c, id, nextAttempt), id)
  {
  }

  lemma {:induction false} RecoveredBindingStays(q: Q.Sys, c: Q.ClientId, id: JobId, now: Time)
    ensures SameBinding(q, Q.RecoverJob(q, c, id, now), id)
  {
  }

  lemma {:induction false} EndedSyncBindingStays(q: Q.Sys, c: Q.ClientId, id: JobId, status: Q.ScanStatus, findings: Option<nat>,
                                                 error: Option<string>, now: Time)
    ensures SameBinding(q, Q.FinishSync(q, c, id, status, findings, error, now), id)
  {
  }

  /** No step of the queue but the two insertions changes what a job is bound to or a row's retry
      policy. */
  lemma {:induction false} BindingsStay(q: Q.Sys, step: Q.Step, limit: nat)
    requires !step.CreateJob? && !step.AddQueueRow?
    ensures Works(Q.Apply(q, step, limit).jobs) == Works(q.jobs)
    ensures Policies(Q.Apply(q, step, limit).queue) == Policies(q.queue)
  {
    hide Q.Apply;
    var q' := Q.Apply(q, step, limit);
    forall id ensures SameBinding(q, q', id) { BindingStays(q, step, limit, id); }
    SameBindings(q, q');
  }

  lemma {:induction false} SameBindings(q: Q.Sys, q': Q.Sys)
    requires forall id :: SameBinding(q, q', id)
    ensures Works(q'.jobs) == Works(q.jobs) && Policies(q'.queue) == Policies(q.queue)
  {
    forall id
      ensures id in Works(q'.jobs) <==> id in Works(q.jobs)
      ensures id in Works(q.jobs) ==> Works(q'.jobs)[id] == Works(q.jobs)[id]
      ensures id in Policies(q'.queue) <==> id in Policies(q.queue)
      ensures id in Policies(q.queue) ==> Policies(q'.queue)[id] == Policies(q.queue)[id]
    {
      assert SameBinding(q, q', id);
    }
  }

  lemma {:induction false} WorksOfOneMore(jobs: map<JobId, Q.Job>, id: JobId, job: Q.Job)
    ensures Works(jobs[id := job]) == Works(jobs)[id := WorkOfJob(job)]
  {
  }

  lemma {:induction false} PoliciesOfOneMore(queue: map<JobId, Q.QueueRow>, id: JobId, row: Q.QueueRow)
    ensures Policies(queue[id := row]) == Policies(queue)[id := row.maxAttempts]
  {
  }

  lemma {:induction false} SameIds(q: Q.Sys, s: S.Sys, id: JobId)
    requires Matches(q, s)
    ensures (id in s.jobs <==> id in q.jobs) && (id in s.queue <==> id in q.queue)
  {
  }

  /** Inserting a job is the schedule step that creates it. */
  lemma {:induction false} CreationMatches(q: Q.Sys, s: S.Sys, step: Q.Step, limit: nat)
    requires Matches(q, s) && step.CreateJob? && FromScheduler(s, step)
    ensures var steps := StepOf(step);
            |steps| == 1 && S.Enabled(s, steps[0]) && Matches(Q.Apply(q, step, limit), S.Apply(s, steps[0]))
  {
    hide S.Apply, S.Enabled, S.WorkOf, Works, Policies, Q.Apply, WorkOfJob;
    InsertedJob(q, step, limit);
    WorksOfOneMore(q.jobs, step.id, step.job);
    SameIds(q, s, step.id);
    match step.id
    case Random(n) => CreatedOther(s, n, WorkOfJob(step.job));
    case Scheduled(schedule, at) => CreatedScheduled(s, S.Occurrence(schedule, at));
  }

  lemma {:induction false} InsertedJob(q: Q.Sys, step: Q.Step, limit: nat)
    requires step.CreateJob?
    ensures var q' := Q.Apply(q, step, limit);
            q'.jobs == (if step.id in q.jobs then q.jobs else q.jobs[step.id := step.job]) && q'.queue == q.queue
  {
    hide Q.FinishJob, Q.RetryJob, Q.RecoverJob, Q.ClaimJob, Q.CancelJob, Q.FinishSync, Q.StartSync, Q.RenewLease;
  }

  lemma {:induction false} CreatedOther(s: S.Sys, n: nat, work: S.Work)
    ensures S.Enabled(s, S.CreateOtherJob(n, work))
    ensures S.Apply(s, S.CreateOtherJob(n, work)) == if Random(n) in s.jobs then s else s.(jobs := s.jobs[Random(n) := work])
  {
  }

  lemma {:induction false} CreatedScheduled(s: S.Sys, o: S.Occurrence)
    requires o in s.due && o.schedule in s.created
    ensures S.Enabled(s, S.CreateJob(o))
    ensures S.Apply(s, S.CreateJob(o))
            == if S.JobOf(o) in s.jobs then s else s.(jobs := s.jobs[S.JobOf(o) := S.WorkOf(s.created[o.schedule])])
  {
  }

  /** Adding a queue row is the schedule step that adds it. */
  lemma {:induction false} RowMatches(q: Q.Sys, s: S.Sys, step: Q.Step, limit: nat)
    requires Matches(q, s) && step.AddQueueRow? && step.id in q.jobs && FromScheduler(s, step)
    ensures var steps := StepOf(step);
            |steps| == 1 && S.Enabled(s, steps[0]) && Matches(Q.Apply(q, step, limit), S.Apply(s, steps[0]))
  {
    hide S.Apply, S.Enabled, S.WorkOf, Works, Policies, Q.Apply;
    InsertedRow(q, step, limit);
    PoliciesOfOneMore(q.queue, step.id, Q.QueueRow(0, step.maxAttempts, None, None, None, step.now, false));
    SameIds(q, s, step.id);
    match step.id
    case Random(n) => AddedOther(s, n, step.maxAttempts);
    case Scheduled(schedule, at) => AddedScheduled(s, S.Occurrence(schedule, at));
  }

  lemma {:induction false} InsertedRow(q: Q.Sys, step: Q.Step, limit: nat)
    requires step.AddQueueRow?
    ensures var q' := Q.Apply(q, step, limit);
            && q'.jobs == q.jobs
            && q'.queue == if step.id in q.queue then q.queue
                           else q.queue[step.id := Q.QueueRow(0, step.maxAttempts, None, None, None, step.now, false)]
  {
    hide Q.FinishJob, Q.RetryJob, Q.RecoverJob, Q.ClaimJob, Q.CancelJob, Q.FinishSync, Q.StartSync, Q.RenewLease;
  }

  lemma {:induction false} AddedOther(s: S.Sys, n: nat, maxAttempts: nat)
    requires Random(n) in s.jobs
    ensures S.Enabled(s, S.AddOtherRow(n, maxAttempts))
    ensures S.Apply(s, S.AddOtherRow(n, maxAttempts)) == if Random(n) in s.queue then s else s.(queue := s.queue[Random(n) := maxAttempts])
  {
  }

  lemma {:induction false} AddedScheduled(s: S.Sys, o: S.Occurrence)
    requires o in s.due && o.schedule in s.created && S.JobOf(o) in s.jobs
    ensures S.Enabled(s, S.AddQueueRow(o))
    ensures S.Apply(s, S.AddQueueRow(o))
            == if S.JobOf(o) in s.queue then s else s.(queue := s.queue[S.JobOf(o) := s.created[o.schedule].maxAttempts])
  {
  }

  /** Every step of the queue is a step of the schedules' machine or leaves its tables alone. */
  lemma {:induction false} StepMatches(q: Q.Sys, s: S.Sys, step: Q.Step, limit: nat)
    requires Matches(q, s) && Q.Enabled(q, step) && FromScheduler(s, step)
    ensures S.Possible(s, StepOf(step)) && Matches(Q.Apply(q, step, limit), S.After(s, StepOf(step)))
  {
    if step.CreateJob? {
      CreationMatches(q, s, step, limit);
      OneStep(s, StepOf(step));
      hide Q.Apply, S.Apply, S.Enabled, Matches, StepOf;
    } else if step.AddQueueRow? {
      RowMatches(q, s, step, limit);
      OneStep(s, StepOf(step));
      hide Q.Apply, S.Apply, S.Enabled, Matches, StepOf;
    } else {
      BindingsStay(q, step, limit);
      hide Q.Apply, S.Apply, S.Enabled, Works, Policies;
    }
  }

  lemma {:induction false} OneStep(s: S.Sys, steps: seq<S.Step>)
    requires |steps| == 1 && S.Enabled(s, steps[0])
    ensures S.Possible(s, steps) && S.After(s, steps) == S.Apply(s, steps[0])
  {
    hide S.Apply, S.Enabled;
    assert steps[1..] == [];
  }

  /** Queueing an occurrence leaves the same tables in both machines: a scheduler's two
      transactions are the queue's. */
  lemma {:induction false} EnqueueAgrees(q: Q.Sys, s: S.Sys, c: Q.ClientId, o: S.Occurrence, job: Q.Job, now: Time, limit: nat)
    requires Matches(q, s) && o in s.due && o.schedule in s.created && WorkOfJob(job) == S.WorkOf(s.created[o.schedule])
    ensures S.Enabled(s, S.CreateJob(o)) && S.Enabled(S.Apply(s, S.CreateJob(o)), S.AddQueueRow(o))
    ensures Matches(Q.InsertRow(Q.InsertJob(q, c, S.JobOf(o), job, false), S.JobOf(o), s.created[o.schedule].maxAttempts, now),
                    S.Apply(S.Apply(s, S.CreateJob(o)), S.AddQueueRow(o)))
  {
    var create := Q.CreateJob(c, S.JobOf(o), job, false);
    var add := Q.AddQueueRow(S.JobOf(o), s.created[o.schedule].maxAttempts, now);
    CreationMatches(q, s, create, limit);
    CreatedScheduled(s, o);
    InsertedJob(q, create, limit);
    hide S.Apply, S.Enabled, S.WorkOf, WorkOfJob, Matches;
    RowMatches(Q.Apply(q, create, limit), S.Apply(s, S.CreateJob(o)), add, limit);
    InsertionsAre(q, create, add, limit);
  }

  lemma {:induction false} InsertionsAre(q: Q.Sys, create: Q.Step, add: Q.Step, limit: nat)
    requires create.CreateJob? && add.AddQueueRow?
    ensures Q.Apply(q, create, limit) == Q.InsertJob(q, create.c, create.id, create.job, create.forSync)
    ensures Q.Apply(q, add, limit) == Q.InsertRow(q, add.id, add.maxAttempts, add.now)
    ensures Q.Apply(Q.Apply(q, create, limit), add, limit)
            == Q.InsertRow(Q.InsertJob(q, create.c, create.id, create.job, create.forSync), add.id, add.maxAttempts, add.now)
  {
    hide Q.InsertJob, Q.InsertRow, Q.FinishJob, Q.RetryJob, Q.RecoverJob, Q.ClaimJob, Q.CancelJob, Q.FinishSync, Q.StartSync, Q.RenewLease;
  }

  // ---------------------------------------------------------------- runs

  /** A transaction on the queue tables, or one that touches schedules and executions only. */
  datatype Step = OnQueue(step: Q.Step) | OnSchedules(change: S.Step)

  predicate TablesApart(step: S.Step) {
    !step.CreateJob? && !step.CreateOtherJob? && !step.AddQueueRow? && !step.AddOtherRow?
  }

  predicate Can(q: Q.Sys, s: S.Sys, step: Step) {
    match step
    case OnQueue(st) => Q.Enabled(q, st) && FromScheduler(s, st)
    case OnSchedules(st) => S.Enabled(s, st) && TablesApart(st)
  }

  function QueueAfter(q: Q.Sys, step: Step, limit: nat): Q.Sys {
    if step.OnQueue? then Q.Apply(q, step.step, limit) else q
  }

  function SchedulesAfter(s: S.Sys, step: Step): S.Sys {
    match step
    case OnQueue(st) => if S.Possible(s, StepOf(st)) then S.After(s, StepOf(st)) else s
    case OnSchedules(st) => if S.Enabled(s, st) then S.Apply(s, st) else s
  }

  ghost predicate JointInv(q: Q.Sys, s: S.Sys, limit: nat) {
    Q.Inv(q, limit) && S.Inv(s) && Matches(q, s)
  }

  lemma {:induction false} TablesApartStay(s: S.Sys, step: S.Step)
    requires S.Enabled(s, step) && TablesApart(step)
    ensures S.Apply(s, step).jobs == s.jobs && S.Apply(s, step).queue == s.queue
  {
    hide S.CatchUp, S.Repeats, S.Changed, S.WithoutSchedule, S.IsDue, S.Advances;
  }

  /** Every transaction on either side keeps both invariants and the tables in agreement. */
  lemma {:induction false} JointStepKeeps(q: Q.Sys, s: S.Sys, step: Step, limit: nat)
    requires JointInv(q, s, limit) && Can(q, s, step)
    ensures JointInv(QueueAfter(q, step, limit), SchedulesAfter(s, step), limit)
  {
    match step
    case OnQueue(st) =>
      Q.StepPreserves(q, st, limit);
      StepMatches(q, s, st, limit);
      KeptByFew(s, StepOf(st));
      hide Q.Apply, Q.Inv, S.Inv, Matches, S.Possible, S.After, Q.Enabled, FromScheduler, StepOf;
    case OnSchedules(st) =>
      S.StepKeeps(s, st);
      TablesApartStay(s, st);
      hide Q.Inv, S.Inv, S.Apply, S.Enabled, TablesApart;
  }

  lemma {:induction false} KeptByFew(s: S.Sys, steps: seq<S.Step>)
    requires S.Inv(s) && S.Possible(s, steps)
    ensures S.Inv(S.After(s, steps))
  {
    S.RunKeeps(s, steps, S.Occurrence(0, 0));
    hide S.Inv, S.Possible, S.After;
  }

  predicate CanRun(q: Q.Sys, s: S.Sys, steps: seq<Step>, limit: nat)
    decreases |steps|
  {
    steps == [] ||
    (Can(q, s, steps[0]) && CanRun(QueueAfter(q, steps[0], limit), SchedulesAfter(s, steps[0]), steps[1..], limit))
  }

  function After(q: Q.Sys, s: S.Sys, steps: seq<Step>, limit: nat): (Q.Sys, S.Sys)
    decreases |steps|
  {
    if steps == [] then (q, s)
    else After(QueueAfter(q, steps[0], limit), SchedulesAfter(s, steps[0]), steps[1..], limit)
  }

  lemma {:induction false} JointRunKeeps(q: Q.Sys, s: S.Sys, steps: seq<Step>, limit: nat)
    requires JointInv(q, s, limit) && CanRun(q, s, steps, limit)
    ensures var r := After(q, s, steps, limit); JointInv(r.0, r.1, limit)
    decreases |steps|
  {
    if steps != [] {
      hide JointInv, Can, QueueAfter, SchedulesAfter;
      JointStepKeeps(q, s, steps[0], limit);
      JointRunKeeps(QueueAfter(q, steps[0], limit), SchedulesAfter(s, steps[0]), steps[1..], limit);
    }
  }

  /** Workers, synchronous scans and schedulers together, from the empty database: a job under the
      id of a scheduled occurrence is bound to the work of its schedule for good, whatever the
      queue does to it, and its queue row has the schedule's retry policy; a recorded occurrence
      has both. */
  lemma {:induction false} ScheduledJobsOnEveryRun(q: Q.Sys, enforced: bool, steps: seq<Step>, limit: nat, o: S.Occurrence)
    requires Q.Initial(q) && CanRun(q, S.Empty(enforced), steps, limit)
    ensures var (queue, schedules) := After(q, S.Empty(enforced), steps, limit);
            && (S.JobOf(o) in queue.jobs ==>
                  o.schedule in schedules.created
                  && WorkOfJob(queue.jobs[S.JobOf(o)]) == S.WorkOf(schedules.created[o.schedule]))
            && (S.JobOf(o) in queue.queue ==>
                  o.schedule in schedules.created
                  && queue.queue[S.JobOf(o)].maxAttempts == schedules.created[o.schedule].maxAttempts)
            && (o in schedules.recorded ==> S.JobOf(o) in queue.jobs && S.JobOf(o) in queue.queue)
  {
    Q.InitialInv(q, limit);
    S.EmptyInv(enforced);
    assert Matches(q, S.Empty(enforced));
    JointRunKeeps(q, S.Empty(enforced), steps, limit);
    hide Q.Inv, Q.Initial, CanRun, After, S.Forward, S.WorkOf, WorkOfJob, S.TermsOk;
  }
}
