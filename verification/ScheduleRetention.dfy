/** Schedules while retention sweeps delete the jobs, queue rows and executions of their occurrences
    at any time: the schedules do not notice, and a job is created again exactly after a sweep. */
module ScheduleRetention {
  import opened Common
  import opened ScanSchedule

  /** A transaction of the schedules' machine, or a sweep that deletes the rows of some jobs and
      some executions. */
  datatype Event = Take(step: Step) | Sweep(gone: set<JobId>, aged: set<Occurrence>)

  function KeptExecutions(s: Sys, gone: set<JobId>, aged: set<Occurrence>): map<Occurrence, JobId> {
    map o | o in s.executions && o !in aged && !(s.enforced && s.executions[o] in gone) :: s.executions[o]
  }

  /** A job goes with its queue row and, where foreign keys are enforced, with its execution. */
  function Swept(s: Sys, gone: set<JobId>, aged: set<Occurrence>): Sys {
    s.(jobs := s.jobs - gone, queue := s.queue - gone, executions := KeptExecutions(s, gone, aged))
  }

  function Next(t: Sys, e: Event): Sys
    requires e.Take? ==> Enabled(t, e.step)
  {
    match e
    case Take(step) => Apply(t, step)
    case Sweep(gone, aged) => Swept(t, gone, aged)
  }

  /** The queue rows of jobs that no schedule made have their jobs, and go with them. */
  ghost predicate OtherRows(b: Sys, t: Sys) {
    forall n :: Random(n) in b.queue ==> Random(n) in b.jobs && (Random(n) in t.jobs <==> Random(n) in t.queue)
  }

  /** `t` is `b` after sweeps: nothing but jobs, queue rows and executions is missing. */
  ghost predicate Trims(b: Sys, t: Sys) {
    && t == b.(jobs := t.jobs, queue := t.queue, executions := t.executions)
    && Submap(t.jobs, b.jobs) && Submap(t.queue, b.queue) && Submap(t.executions, b.executions) && OtherRows(b, t)
  }

  /** What the swept system can do; random job ids are never used twice. */
  predicate CanTake(b: Sys, t: Sys, step: Step) {
    Enabled(t, step) && (step.CreateOtherJob? && Random(step.n) in b.jobs ==> Random(step.n) in t.jobs)
  }

  lemma {:induction false} EnabledInBoth(b: Sys, t: Sys, step: Step)
    requires Trims(b, t) && Enabled(t, step)
    ensures Enabled(b, step)
  {
  }

  lemma {:induction false} SweepTrims(b: Sys, t: Sys, gone: set<JobId>, aged: set<Occurrence>)
    requires Trims(b, t)
    ensures Trims(b, Swept(t, gone, aged))
  {
  }

  // ---------------------------------------------------------------- one step

  lemma {:induction false} ManagedTrims(b: Sys, t: Sys, step: Step)
    requires Trims(b, t) && Enabled(t, step) && Enabled(b, step) && Manages(step)
    ensures Trims(Managed(b, step), Managed(t, step))
  {
    assert forall id, at :: Repeats(t, id, at) == Repeats(b, id, at);
    hide Repeats, Changed, JobOf, IsDue, Advances;
  }

  lemma {:induction false} AdvanceTrims(b: Sys, t: Sys, o: Occurrence, now: Time)
    requires Trims(b, t) && Enabled(t, Advance(o, now)) && Enabled(b, Advance(o, now))
    ensures Trims(Progressed(b, Advance(o, now)), Progressed(t, Advance(o, now)))
  {
    hide CatchUp, Submap;
  }

  function WithJob(s: Sys, id: JobId, work: Work): Sys { if id in s.jobs then s else s.(jobs := s.jobs[id := work]) }

  function WithRow(s: Sys, id: JobId, maxAttempts: nat): Sys { if id in s.queue then s else s.(queue := s.queue[id := maxAttempts]) }

  lemma {:induction false} JobTrims(b: Sys, t: Sys, id: JobId, work: Work)
    requires Trims(b, t) && (id in b.jobs ==> id in t.jobs || (id.Scheduled? && b.jobs[id] == work))
    ensures Trims(WithJob(b, id, work), WithJob(t, id, work))
  {
  }

  lemma {:induction false} RowTrims(b: Sys, t: Sys, id: JobId, maxAttempts: nat)
    requires Trims(b, t) && id in t.jobs && (id.Scheduled? && id in b.queue ==> b.queue[id] == maxAttempts)
    ensures Trims(WithRow(b, id, maxAttempts), WithRow(t, id, maxAttempts))
  {
    assert id in b.jobs && (id in t.queue ==> id in b.queue && b.queue[id] == t.queue[id]);
    assert OtherRows(WithRow(b, id, maxAttempts), WithRow(t, id, maxAttempts));
    hide OtherRows, Submap;
    if id !in t.queue {
      if id in b.queue {
        SubmapInto(t.queue, b.queue, id, maxAttempts);
      } else {
        SubmapUpdated(t.queue, b.queue, id, maxAttempts);
      }
    }
  }

  lemma {:induction false} WorkTrims(b: Sys, t: Sys, step: Step)
    requires Bound(b) && Trims(b, t) && CanTake(b, t, step) && Enabled(b, step)
    requires step.CreateJob? || step.AddQueueRow? || step.CreateOtherJob? || step.AddOtherRow?
    ensures Trims(Progressed(b, step), Progressed(t, step))
  {
    hide WorkOf, OtherRows, Submap;
    match step
    case CreateJob(o) => JobTrims(b, t, JobOf(o), WorkOf(b.created[o.schedule]));
    case CreateOtherJob(n, work) => JobTrims(b, t, Random(n), work);
    case AddQueueRow(o) => RowTrims(b, t, JobOf(o), b.created[o.schedule].maxAttempts);
    case AddOtherRow(n, maxAttempts) => RowTrims(b, t, Random(n), maxAttempts);
  }

  function WithExecution(s: Sys, o: Occurrence): Sys {
    if o in s.executions || KeyViolated(s, o) then s
    else s.(executions := s.executions[o := JobOf(o)], recorded := s.recorded + {o})
  }

  lemma {:induction false} ExecutionTrims(b: Sys, t: Sys, o: Occurrence)
    requires Trims(b, t) && (o in b.executions ==> o in b.recorded && b.executions[o] == JobOf(o))
    ensures Trims(WithExecution(b, o), WithExecution(t, o))
  {
    assert o in t.executions ==> o in b.executions;
    hide OtherRows, Submap;
    if o !in t.executions && !KeyViolated(t, o) {
      if o in b.executions {
        assert b.recorded + {o} == b.recorded;
        SubmapInto(t.executions, b.executions, o, JobOf(o));
      } else {
        SubmapUpdated(t.executions, b.executions, o, JobOf(o));
      }
    }
  }

  lemma {:induction false} RecordTrims(b: Sys, t: Sys, o: Occurrence)
    requires Evidence(b) && Trims(b, t) && Enabled(t, RecordExecution(o)) && Enabled(b, RecordExecution(o))
    ensures Trims(Progressed(b, RecordExecution(o)), Progressed(t, RecordExecution(o)))
  {
    assert o in b.executions ==> o in b.recorded && b.executions[o] == JobOf(o);
    hide Evidence, Trims, JobOf, KeyViolated, Advanced, Advances;
    ExecutionTrims(b, t, o);
  }

  lemma {:induction false} StepTrims(b: Sys, t: Sys, step: Step)
    requires Inv(b) && Trims(b, t) && CanTake(b, t, step)
    ensures Enabled(b, step) && Trims(Apply(b, step), Apply(t, step))
  {
    EnabledInBoth(b, t, step);
    hide Bound, Evidence, KnownSchedules, Forward, CanTake, Managed, Progressed, Trims, Submap;
    if Manages(step) { ManagedTrims(b, t, step); }
    else if step.Advance? { AdvanceTrims(b, t, step.o, step.now); }
    else if step.RecordExecution? { RecordTrims(b, t, step.o); }
    else if step.Read? { ReadTrims(b, t, step.id, step.now); }
    else { WorkTrims(b, t, step); }
  }

  lemma {:induction false} ReadTrims(b: Sys, t: Sys, id: ScheduleId, now: Time)
    requires Trims(b, t) && Enabled(t, Read(id, now)) && Enabled(b, Read(id, now))
    ensures Trims(Progressed(b, Read(id, now)), Progressed(t, Read(id, now)))
  {
    hide Submap;
  }

  /** A call is answered the same with and without the sweeps. */
  lemma {:induction false} SameAnswer(b: Sys, t: Sys, step: Step)
    requires Inv(b) && Trims(b, t) && Enabled(t, step)
    ensures AnswerOf(t, step) == AnswerOf(b, step)
  {
    EnabledInBoth(b, t, step);
    hide Forward, KnownSchedules;
  }

  // ---------------------------------------------------------------- runs

  function Unswept(b: Sys, e: Event): Sys { if e.Take? && Enabled(b, e.step) then Apply(b, e.step) else b }

  /** The events can happen one after the other in `t`; `b` is the system without the sweeps. */
  ghost predicate Happens(b: Sys, t: Sys, events: seq<Event>)
    decreases |events|
  {
    events != [] ==>
      && (events[0].Take? ==> CanTake(b, t, events[0].step))
      && Happens(Unswept(b, events[0]), Next(t, events[0]), events[1..])
  }

  function AfterAll(t: Sys, events: seq<Event>): Sys
    decreases |events|
  {
    if events == [] || (events[0].Take? && !Enabled(t, events[0].step)) then t
    else AfterAll(Next(t, events[0]), events[1..])
  }

  function Steps(events: seq<Event>): seq<Step> {
    if events == [] then []
    else (if events[0].Take? then [events[0].step] else []) + Steps(events[1..])
  }

  function Answers(t: Sys, events: seq<Event>): seq<Answer>
    decreases |events|
  {
    if events == [] || (events[0].Take? && !Enabled(t, events[0].step)) then []
    else (if events[0].Take? then [AnswerOf(t, events[0].step)] else []) + Answers(Next(t, events[0]), events[1..])
  }

  function AnswersTo(b: Sys, steps: seq<Step>): seq<Answer>
    requires Possible(b, steps)
    decreases |steps|
  {
    if steps == [] then [] else [AnswerOf(b, steps[0])] + AnswersTo(Apply(b, steps[0]), steps[1..])
  }

  lemma {:induction false} NextTrims(b: Sys, t: Sys, e: Event)
    requires Inv(b) && Trims(b, t) && (e.Take? ==> CanTake(b, t, e.step))
    ensures Inv(Unswept(b, e)) && Trims(Unswept(b, e), Next(t, e))
    ensures e.Take? ==> Enabled(b, e.step) && Enabled(t, e.step) && AnswerOf(t, e.step) == AnswerOf(b, e.step)
  {
    assert e.Take? ==> Enabled(t, e.step);
    hide Inv, Trims, CanTake, Swept, Apply, Enabled, AnswerOf;
    if e.Take? {
      StepTrims(b, t, e.step);
      SameAnswer(b, t, e.step);
      StepKeeps(b, e.step);
    } else {
      SweepTrims(b, t, e.gone, e.aged);
    }
  }

  /** Schedules do not notice retention. On every run with sweeps, of any jobs and executions at
      any points of it, every call is answered as in the run without the sweeps, and schedules,
      the occurrences read, recorded and passed, and how often, end up the same. */
  lemma {:induction false} SchedulesIgnoreSweeps(b: Sys, t: Sys, events: seq<Event>)
    requires Inv(b) && Trims(b, t) && Happens(b, t, events)
    ensures Possible(b, Steps(events)) && Answers(t, events) == AnswersTo(b, Steps(events))
    ensures Inv(After(b, Steps(events))) && Trims(After(b, Steps(events)), AfterAll(t, events))
    decreases |events|
  {
    if events != [] {
      var e := events[0];
      NextTrims(b, t, e);
      hide Inv, Trims, CanTake, Apply, Enabled, AnswerOf, Swept;
      SchedulesIgnoreSweeps(Unswept(b, e), Next(t, e), events[1..]);
      if e.Take? {
        assert ([e.step] + Steps(events[1..]))[1..] == Steps(events[1..]);
      } else {
        assert [] + Steps(events[1..]) == Steps(events[1..]);
        assert [] + Answers(Next(t, e), events[1..]) == Answers(Next(t, e), events[1..]);
      }
    }
  }

  /** Also with sweeps an occurrence is passed at most once unless a resume has taken its schedule
      back, and only after its execution was recorded; its job, while it is there, does the
      schedule's work, and its execution, while it is there, names that job. */
  lemma {:induction false} ExactlyOnceWithSweeps(enforced: bool, events: seq<Event>, o: Occurrence)
    requires Happens(Empty(enforced), Empty(enforced), events)
    ensures var t := AfterAll(Empty(enforced), events);
            && (o.schedule !in t.rewound ==> Times(t, o) <= 1)
            && (Times(t, o) > 0 ==> o in t.recorded && o.schedule in t.created)
            && (o in t.executions ==> o in t.recorded && t.executions[o] == JobOf(o))
            && (o.schedule in t.created && JobOf(o) in t.jobs ==> t.jobs[JobOf(o)] == WorkOf(t.created[o.schedule]))
  {
    EmptyInv(enforced);
    assert Trims(Empty(enforced), Empty(enforced));
    SchedulesIgnoreSweeps(Empty(enforced), Empty(enforced), events);
    hide Happens, AfterAll, Possible, After;
    TrimmedOnce(After(Empty(enforced), Steps(events)), AfterAll(Empty(enforced), events), o);
  }

  lemma {:induction false} TrimmedOnce(b: Sys, t: Sys, o: Occurrence)
    requires Inv(b) && Trims(b, t)
    ensures o.schedule !in t.rewound ==> Times(t, o) <= 1
    ensures Times(t, o) > 0 ==> o in t.recorded && o.schedule in t.created
    ensures o in t.executions ==> o in t.recorded && t.executions[o] == JobOf(o)
    ensures o.schedule in t.created && JobOf(o) in t.jobs ==> t.jobs[JobOf(o)] == WorkOf(t.created[o.schedule])
  {
    if o in b.recorded { assert JobOf(o) in b.queue; }
    hide Behind;
  }

  // ---------------------------------------------------------------- when a job is created again

  predicate Creates(t: Sys, e: Event, o: Occurrence) { e == Take(CreateJob(o)) && JobOf(o) !in t.jobs }

  predicate Removes(t: Sys, e: Event, o: Occurrence) { e.Sweep? && JobOf(o) in e.gone && JobOf(o) in t.jobs }

  function Creations(t: Sys, events: seq<Event>, o: Occurrence): nat
    decreases |events|
  {
    if events == [] || (events[0].Take? && !Enabled(t, events[0].step)) then 0
    else (if Creates(t, events[0], o) then 1 else 0) + Creations(Next(t, events[0]), events[1..], o)
  }

  function Removals(t: Sys, events: seq<Event>, o: Occurrence): nat
    decreases |events|
  {
    if events == [] || (events[0].Take? && !Enabled(t, events[0].step)) then 0
    else (if Removes(t, events[0], o) then 1 else 0) + Removals(Next(t, events[0]), events[1..], o)
  }

  function Present(t: Sys, o: Occurrence): nat { if JobOf(o) in t.jobs then 1 else 0 }

  lemma {:induction false} NextPresent(t: Sys, e: Event, o: Occurrence)
    requires e.Take? ==> Enabled(t, e.step)
    ensures Present(Next(t, e), o) + (if Removes(t, e, o) then 1 else 0) == Present(t, o) + (if Creates(t, e, o) then 1 else 0)
  {
    if e.Take? {
      StepJobs(t, e.step);
      if e.step.CreateJob? && e.step.o != o { assert JobOf(e.step.o) != JobOf(o); }
      hide Apply;
    } else {
      hide KeptExecutions;
    }
  }

  lemma {:induction false} StepJobs(t: Sys, step: Step)
    requires Enabled(t, step)
    ensures Apply(t, step).jobs.Keys == t.jobs.Keys + if step.CreateJob? then {JobOf(step.o)} else if step.CreateOtherJob? then {Random(step.n)} else {}
  {
    if step.CreateJob? || step.CreateOtherJob? {
      hide Managed, Advanced, WorkOf, JobOf, KeyViolated, Advances;
    } else {
      OtherStepLeavesJobs(t, step);
      hide Apply;
    }
  }

  lemma {:induction false} OtherStepLeavesJobs(t: Sys, step: Step)
    requires Enabled(t, step) && !step.CreateJob? && !step.CreateOtherJob?
    ensures Apply(t, step).jobs == t.jobs
  {
    if Manages(step) {
      hide Changed, WithoutSchedule, Repeats, Progressed, JobOf;
    } else if step.Advance? {
      hide Managed, CatchUp, Times;
    } else {
      hide Managed, Advanced, JobOf, KeyViolated, Advances;
    }
  }

  /** The job of an occurrence is created once for every sweep that deleted it, and once more if it
      is there at the end: a job that is there is created again exactly after a sweep has deleted
      it, whatever schedulers, pauses, resumes and deletions do. */
  lemma {:induction false} CreationsFollowSweeps(t: Sys, events: seq<Event>, o: Occurrence)
    ensures Present(t, o) + Creations(t, events, o) == Removals(t, events, o) + Present(AfterAll(t, events), o)
    decreases |events|
  {
    if events == [] || (events[0].Take? && !Enabled(t, events[0].step)) {
    } else {
      NextPresent(t, events[0], o);
      hide Present, Creates, Removes, Next, Enabled;
      CreationsFollowSweeps(Next(t, events[0]), events[1..], o);
    }
  }

  // ---------------------------------------------------------------- resuming at a swept slot

  /** The slots from `at` on come to an occurrence the schedule has passed and whose job is gone. */
  predicate ComesToSwept(t: Sys, id: ScheduleId, at: Time) {
    id in t.schedules && exists o: Occurrence ::
      o in t.advances && o.schedule == id && Hits(at, t.schedules[id].terms.interval, o.at) && JobOf(o) !in t.jobs
  }

  /** A run that goes past an occurrence of the schedule again, without another timed resume, and
      on the way creates its job, which was gone. */
  ghost predicate ScansAgain(t: Sys, id: ScheduleId, u: Sys, steps: seq<Step>, o: Occurrence) {
    PassesAgain(t, id, u, steps, o) && JobOf(o) !in u.jobs && JobOf(o) in After(u, steps).jobs
  }

  /** `b` without the jobs of no schedule that are gone from `t`. */
  function Scheduling(b: Sys, t: Sys): Sys {
    b.(jobs := map id | id in b.jobs && (id.Scheduled? || id in t.jobs) :: b.jobs[id],
       queue := map id | id in b.queue && (id.Scheduled? || id in t.jobs) :: b.queue[id])
  }

  ghost predicate OthersStay(b: Sys, t: Sys) {
    forall n :: Random(n) in b.jobs ==> Random(n) in t.jobs
  }

  lemma {:induction false} SchedulingTrims(b: Sys, t: Sys)
    requires Inv(b) && Trims(b, t)
    ensures Inv(Scheduling(b, t)) && Trims(Scheduling(b, t), t) && OthersStay(Scheduling(b, t), t)
  {
    SchedulingInv(b, t);
    hide Inv;
  }

  lemma {:induction false} SchedulingInv(b: Sys, t: Sys)
    requires Inv(b)
    ensures Inv(Scheduling(b, t))
  {
    hide TermsOk, Hits;
  }

  lemma {:induction false} StepOthersStay(b: Sys, t: Sys, step: Step)
    requires OthersStay(b, t) && Enabled(b, step) && Enabled(t, step)
    ensures OthersStay(Apply(b, step), Apply(t, step))
  {
    StepJobs(b, step);
    StepJobs(t, step);
    hide Apply, Enabled;
    forall n | Random(n) in Apply(b, step).jobs ensures Random(n) in Apply(t, step).jobs {
      assert Random(n) in Apply(b, step).jobs.Keys;
      assert Random(n) in Apply(t, step).jobs.Keys;
    }
  }

  /** Without further sweeps the swept system goes past the same occurrences. */
  lemma {:induction false} SameSuccesses(b: Sys, t: Sys, steps: seq<Step>, o: Occurrence)
    requires Inv(b) && Trims(b, t) && OthersStay(b, t) && Possible(t, steps)
    ensures Possible(b, steps) && Successes(b, steps, o) == Successes(t, steps, o)
    decreases |steps|
  {
    if steps != [] {
      assert CanTake(b, t, steps[0]);
      assert Advances(b, o) == Advances(t, o);
      StepTrims(b, t, steps[0]);
      StepKeeps(b, steps[0]);
      StepOthersStay(b, t, steps[0]);
      hide Inv, Trims, OthersStay, Apply, Enabled, Advances;
      SameSuccesses(Apply(b, steps[0]), Apply(t, steps[0]), steps[1..], o);
    }
  }

  /** After a resume that does not come back to an occurrence it stays behind, in the system
      without sweeps just as in the swept one. */
  lemma {:induction false} ResumeStaysBehind(b: Sys, t: Sys, id: ScheduleId, at: Time, o: Occurrence) returns (c: Sys)
    requires Inv(b) && Trims(b, t) && id in t.schedules
    requires o in t.advances && o.schedule == id && !Hits(at, t.schedules[id].terms.interval, o.at)
    ensures Inv(c) && Trims(c, Apply(t, Resume(id, Some(at)))) && OthersStay(c, Apply(t, Resume(id, Some(at))))
    ensures o in c.advances && Behind(c, o)
  {
    var resume := Resume(id, Some(at));
    SchedulingTrims(b, t);
    var s := Scheduling(b, t);
    assert Enabled(s, resume) && CanTake(s, t, resume) && s.schedules == t.schedules && s.advances == t.advances;
    c := Apply(s, resume);
    assert o in c.advances && Behind(c, o) by { hide Inv, Trims, OthersStay, Scheduling, Hits, Repeats; }
    hide *;
    StepTrims(s, t, resume);
    StepKeeps(s, resume);
    StepOthersStay(s, t, resume);
  }

  lemma {:induction false} NothingComesToSwept(b: Sys, t: Sys, id: ScheduleId, at: Time, steps: seq<Step>, o: Occurrence)
    requires Inv(b) && Trims(b, t) && id in t.schedules && !ComesToSwept(t, id, at)
    ensures !ScansAgain(t, id, Apply(t, Resume(id, Some(at))), steps, o)
  {
    var u := Apply(t, Resume(id, Some(at)));
    if o in t.advances && o.schedule == id && JobOf(o) !in u.jobs && NoTimedResume(steps, id) && Possible(u, steps) {
      assert u.jobs == t.jobs && !Hits(at, t.schedules[id].terms.interval, o.at);
      hide *;
      var c := ResumeStaysBehind(b, t, id, at, o);
      SameSuccesses(c, u, steps, o);
      BehindIsNotPassed(c, steps, o);
      NotPassedAgain(t, id, u, steps, o);
      PassesToScan(t, id, u, steps, o);
    }
  }

  lemma {:induction false} PassesToScan(t: Sys, id: ScheduleId, u: Sys, steps: seq<Step>, o: Occurrence)
    requires !PassesAgain(t, id, u, steps, o)
    ensures !ScansAgain(t, id, u, steps, o)
  {
    hide PassesAgain;
  }

  // ---------------------------------------------------------------- serving an occurrence anew

  function Took(s: Sys, step: Step): Sys { if Enabled(s, step) then Apply(s, step) else s }

  /** One scheduler's transactions for an occurrence. */
  function Serving(q: Occurrence, now: Time): seq<Step> {
    [Read(q.schedule, q.at), CreateJob(q), AddQueueRow(q), RecordExecution(q), Advance(q, now)]
  }

  function ServedBy(s: Sys, q: Occurrence, now: Time): Sys {
    Took(Took(Took(Took(Took(s, Read(q.schedule, q.at)), CreateJob(q)), AddQueueRow(q)), RecordExecution(q)), Advance(q, now))
  }

  /** What a swept system keeps of the invariant. */
  ghost predicate Sound(s: Sys) {
    KnownSchedules(s) && forall o :: o in s.executions ==> o in s.recorded
  }

  /** Schedules and recorded occurrences are the same. */
  predicate SameSchedules(s: Sys, t: Sys) { t.schedules == s.schedules && t.created == s.created }

  lemma {:induction false} ReadServes(s: Sys, q: Occurrence)
    requires Sound(s) && Advances(s, q)
    ensures Enabled(s, Read(q.schedule, q.at))
    ensures var t := Apply(s, Read(q.schedule, q.at));
            Sound(t) && SameSchedules(s, t) && q in t.due && t.jobs == s.jobs
  {
    hide TermsOk, Managed, Advanced;
  }

  lemma {:induction false} JobServes(s: Sys, q: Occurrence)
    requires Sound(s) && q in s.due
    ensures Enabled(s, CreateJob(q))
    ensures var t := Apply(s, CreateJob(q));
            Sound(t) && SameSchedules(s, t) && q in t.due && t.jobs.Keys == s.jobs.Keys + {JobOf(q)}
  {
    hide TermsOk, Managed, Advanced;
  }

  lemma {:induction false} RowServes(s: Sys, q: Occurrence)
    requires Sound(s) && q in s.due && JobOf(q) in s.jobs
    ensures Enabled(s, AddQueueRow(q))
    ensures var t := Apply(s, AddQueueRow(q));
            Sound(t) && SameSchedules(s, t) && q in t.due && JobOf(q) in t.queue && t.jobs == s.jobs
  {
    hide TermsOk, Managed, Advanced;
  }

  lemma {:induction false} RecordServes(s: Sys, q: Occurrence)
    requires Sound(s) && q in s.due && JobOf(q) in s.queue && q.schedule in s.schedules
    ensures Enabled(s, RecordExecution(q))
    ensures var t := Apply(s, RecordExecution(q));
            Sound(t) && SameSchedules(s, t) && q in t.recorded && t.jobs == s.jobs
  {
    hide TermsOk, Managed, Advanced;
  }

  lemma {:induction false} AdvanceServes(s: Sys, q: Occurrence, now: Time)
    requires Sound(s) && q in s.recorded && Advances(s, q)
    ensures Enabled(s, Advance(q, now)) && s.schedules[q.schedule].terms.interval > 0
    ensures var t := Apply(s, Advance(q, now));
            && Sound(t) && t.jobs == s.jobs && q in t.advances && q.schedule in t.schedules
            && t.schedules[q.schedule].terms == s.schedules[q.schedule].terms && t.schedules[q.schedule].enabled
            && t.schedules[q.schedule].nextRunAt == CatchUp(q.at, s.schedules[q.schedule].terms.interval, now)
  {
    assert TermsOk(s.created[q.schedule]);
    hide Managed, CatchUp;
  }

  lemma {:induction false} ServesAnew(s: Sys, q: Occurrence, now: Time)
    requires Sound(s) && Advances(s, q)
    ensures s.schedules[q.schedule].terms.interval > 0
    ensures var t := ServedBy(s, q, now);
            && Sound(t) && t.jobs.Keys == s.jobs.Keys + {JobOf(q)} && q in t.advances && q.schedule in t.schedules
            && t.schedules[q.schedule].terms == s.schedules[q.schedule].terms && t.schedules[q.schedule].enabled
            && t.schedules[q.schedule].nextRunAt == CatchUp(q.at, s.schedules[q.schedule].terms.interval, now)
  {
    var s1 := Apply(s, Read(q.schedule, q.at));
    ReadServes(s, q);
    var s2 := Apply(s1, CreateJob(q));
    JobServes(s1, q);
    var s3 := Apply(s2, AddQueueRow(q));
    hide Sound, Apply, Enabled, CatchUp;
    RowServes(s2, q);
    var s4 := Apply(s3, RecordExecution(q));
    RecordServes(s3, q);
    AdvanceServes(s4, q, now);
  }

  /** They can be taken one after the other. */
  lemma {:induction false} ServingIsEnabled(s: Sys, q: Occurrence, now: Time)
    requires Sound(s) && Advances(s, q)
    ensures Enabled(s, Read(q.schedule, q.at))
    ensures var s1 := Apply(s, Read(q.schedule, q.at));
            Enabled(s1, CreateJob(q)) &&
            var s2 := Apply(s1, CreateJob(q));
            Enabled(s2, AddQueueRow(q)) &&
            var s3 := Apply(s2, AddQueueRow(q));
            Enabled(s3, RecordExecution(q)) &&
            var s4 := Apply(s3, RecordExecution(q));
            Enabled(s4, Advance(q, now)) && Advances(s4, q) && Apply(s4, Advance(q, now)) == ServedBy(s, q, now)
  {
    var s1 := Apply(s, Read(q.schedule, q.at));
    ReadServes(s, q);
    var s2 := Apply(s1, CreateJob(q));
    JobServes(s1, q);
    var s3 := Apply(s2, AddQueueRow(q));
    hide Sound, Apply, Enabled, CatchUp;
    RowServes(s2, q);
    var s4 := Apply(s3, RecordExecution(q));
    RecordServes(s3, q);
    AdvanceServes(s4, q, now);
  }

  /** The five transactions, followed by more. */
  lemma {:induction false} ServingRun(s: Sys, q: Occurrence, now: Time, rest: seq<Step>, o: Occurrence)
    requires Sound(s) && Advances(s, q) && Possible(ServedBy(s, q, now), rest)
    ensures Possible(s, Serving(q, now) + rest) && After(s, Serving(q, now) + rest) == After(ServedBy(s, q, now), rest)
    ensures Successes(s, Serving(q, now) + rest, o) == Successes(ServedBy(s, q, now), rest, o) + if q == o then 1 else 0
  {
    var read, create, enqueue, record, advance := Read(q.schedule, q.at), CreateJob(q), AddQueueRow(q), RecordExecution(q), Advance(q, now);
    assert [read] + ([create] + ([enqueue] + ([record] + ([advance] + rest)))) == Serving(q, now) + rest;
    hide *;
    ServingIsEnabled(s, q, now);
    var s1 := Apply(s, read);
    var s2 := Apply(s1, create);
    var s3 := Apply(s2, enqueue);
    var s4 := Apply(s3, record);
    RunOf(s4, advance, rest, o);
    RunOf(s3, record, [advance] + rest, o);
    RunOf(s2, enqueue, [record] + ([advance] + rest), o);
    RunOf(s1, create, [enqueue] + ([record] + ([advance] + rest)), o);
    RunOf(s, read, [create] + ([enqueue] + ([record] + ([advance] + rest))), o);
  }

  /** Serves the resumed schedule until it has gone past the occurrence. */
  function Rescan(o: Occurrence, at: Time): seq<Step> {
    if at == o.at then Serving(o, o.at) + []
    else Serving(Occurrence(o.schedule, at), o.at - 1) + (Serving(o, o.at) + [])
  }

  lemma {:induction false} RescanPasses(u: Sys, o: Occurrence, at: Time)
    requires Sound(u) && Advances(u, Occurrence(o.schedule, at)) && Hits(at, u.schedules[o.schedule].terms.interval, o.at)
    ensures Possible(u, Rescan(o, at)) && Successes(u, Rescan(o, at), o) > 0 && JobOf(o) in After(u, Rescan(o, at)).jobs
  {
    hide Sound, Advances, Possible, After, Successes, Serving, JobOf, Hits;
    if at == o.at {
      LastServing(u, o);
    } else {
      hide Rescan;
      CatchesUpThenServes(u, o, at);
      RescanIs(o, at);
    }
  }

  lemma {:induction false} RescanIs(o: Occurrence, at: Time)
    requires at != o.at
    ensures Rescan(o, at) == Serving(Occurrence(o.schedule, at), o.at - 1) + (Serving(o, o.at) + [])
  {
    hide Serving;
  }

  lemma {:induction false} CatchesUpThenServes(u: Sys, o: Occurrence, at: Time)
    requires Sound(u) && Advances(u, Occurrence(o.schedule, at)) && Hits(at, u.schedules[o.schedule].terms.interval, o.at) && at != o.at
    ensures var steps := Serving(Occurrence(o.schedule, at), o.at - 1) + (Serving(o, o.at) + []);
            Possible(u, steps) && Successes(u, steps, o) > 0 && JobOf(o) in After(u, steps).jobs
  {
    hide *;
    ServedCatchesUp(u, o, at);
    LastServing(ServedBy(u, Occurrence(o.schedule, at), o.at - 1), o);
    ServingRun(u, Occurrence(o.schedule, at), o.at - 1, Serving(o, o.at) + [], o);
  }

  lemma {:induction false} ServedCatchesUp(u: Sys, o: Occurrence, at: Time)
    requires Sound(u) && Advances(u, Occurrence(o.schedule, at)) && Hits(at, u.schedules[o.schedule].terms.interval, o.at) && at != o.at
    ensures var v := ServedBy(u, Occurrence(o.schedule, at), o.at - 1); Sound(v) && Advances(v, o)
  {
    hide Sound, ServedBy, Hits, CatchUp;
    CatchesUpTo(at, u.schedules[o.schedule].terms.interval, o.at);
    ServesAnew(u, Occurrence(o.schedule, at), o.at - 1);
  }

  lemma {:induction false} LastServing(v: Sys, o: Occurrence)
    requires Sound(v) && Advances(v, o)
    ensures Possible(v, Serving(o, o.at) + []) && Successes(v, Serving(o, o.at) + [], o) == 1
    ensures JobOf(o) in After(v, Serving(o, o.at) + []).jobs
  {
    var w := ServedBy(v, o, o.at);
    assert Possible(w, []) && After(w, []) == w && Successes(w, [], o) == 0;
    hide *;
    ServesAnew(v, o, o.at);
    ServingRun(v, o, o.at, [], o);
    assert JobOf(o) in w.jobs.Keys;
  }

  lemma {:induction false} RescanIsUntimed(o: Occurrence, at: Time)
    ensures NoTimedResume(Rescan(o, at), o.schedule)
  {
  }

  lemma {:induction false} TrimmedIsSound(b: Sys, t: Sys)
    requires Inv(b) && Trims(b, t)
    ensures Sound(t)
  {
    hide Bound, Forward, OtherRows;
  }

  lemma {:induction false} ResumedIsSound(t: Sys, id: ScheduleId, at: Time)
    requires Sound(t) && id in t.schedules
    ensures var u := Apply(t, Resume(id, Some(at)));
            Sound(u) && Advances(u, Occurrence(id, at)) && u.schedules[id].terms == t.schedules[id].terms && u.jobs == t.jobs
  {
    hide TermsOk, Repeats, Progressed;
  }

  lemma {:induction false} SomethingScansAgain(b: Sys, t: Sys, id: ScheduleId, at: Time)
    requires Inv(b) && Trims(b, t) && ComesToSwept(t, id, at)
    ensures exists steps, o :: ScansAgain(t, id, Apply(t, Resume(id, Some(at))), steps, o)
  {
    var o: Occurrence :| o in t.advances && o.schedule == id && Hits(at, t.schedules[id].terms.interval, o.at) && JobOf(o) !in t.jobs;
    var u := Apply(t, Resume(id, Some(at)));
    hide Inv, Trims, Apply, Hits, Sound, Advances, Possible, After, Successes, Rescan, NoTimedResume, JobOf;
    TrimmedIsSound(b, t);
    ResumedIsSound(t, id, at);
    RescanPasses(u, o, at);
    RescanIsUntimed(o, at);
    assert ScansAgain(t, id, u, Rescan(o, at), o);
  }

  /** A timed resume can make a schedule go past an occurrence again and create its job anew, so
      that it scans again, exactly when the slots from that time on come to an occurrence it has
      passed and whose job row is gone; by `CreationsFollowSweeps` a sweep has deleted it. */
  lemma {:induction false} ResumeScansAgainExactly(b: Sys, t: Sys, id: ScheduleId, at: Time)
    requires Inv(b) && Trims(b, t) && id in t.schedules
    ensures ComesToSwept(t, id, at) <==> exists steps, o :: ScansAgain(t, id, Apply(t, Resume(id, Some(at))), steps, o)
  {
    var u := Apply(t, Resume(id, Some(at)));
    hide *;
    if ComesToSwept(t, id, at) {
      SomethingScansAgain(b, t, id, at);
    } else {
      forall steps, o ensures !ScansAgain(t, id, u, steps, o) {
        NothingComesToSwept(b, t, id, at, steps, o);
      }
    }
  }

  // ---------------------------------------------------------------- a run from the empty database

  function Takes(steps: seq<Step>): seq<Event> {
    if steps == [] then [] else [Take(steps[0])] + Takes(steps[1..])
  }

  lemma {:induction false} StepsThen(s: Sys, steps: seq<Step>, last: Event)
    requires Possible(s, steps) && last.Sweep?
    ensures Happens(s, s, Takes(steps) + [last]) && AfterAll(s, Takes(steps) + [last]) == Next(After(s, steps), last)
    decreases |steps|
  {
    if steps == [] {
      assert Takes(steps) + [last] == [last];
      assert [last][1..] == [];
    } else {
      var events := Takes(steps) + [last];
      assert events[0] == Take(steps[0]) && events[1..] == Takes(steps[1..]) + [last];
      hide Enabled, Apply, Swept;
      StepsThen(Apply(s, steps[0]), steps[1..], last);
    }
  }

  /** A schedule is created and serves its first occurrence, and a sweep deletes the job: a resume
      back to that slot then comes to a swept job. */
  lemma {:induction false} SweptSlotComesBack(enforced: bool, id: ScheduleId, terms: Terms, first: Time)
    requires MIN_INTERVAL <= terms.interval <= MAX_INTERVAL && 1 <= terms.maxAttempts <= 20
    ensures var o := Occurrence(id, first);
            var events := Takes([Create(id, terms, first)] + (Serving(o, first) + [])) + [Sweep({JobOf(o)}, {})];
            Happens(Empty(enforced), Empty(enforced), events) && ComesToSwept(AfterAll(Empty(enforced), events), id, first)
  {
    var o, create := Occurrence(id, first), Create(id, terms, first);
    var s := Empty(enforced);
    var s1 := Apply(s, create);
    assert Enabled(s, create) && Sound(s1) && Advances(s1, o);
    var t := ServedBy(s1, o, first);
    assert Possible(t, []) && After(t, []) == t && Successes(t, [], o) == 0;
    ServedSlotIsSwept(s1, t, o, first);
    var steps := [create] + (Serving(o, first) + []);
    hide *;
    ServingRun(s1, o, first, [], o);
    RunOf(s, create, Serving(o, first) + [], o);
    StepsThen(s, steps, Sweep({JobOf(o)}, {}));
    NextIsSwept(t, {JobOf(o)}, {});
  }

  lemma {:induction false} NextIsSwept(t: Sys, gone: set<JobId>, aged: set<Occurrence>)
    ensures Next(t, Sweep(gone, aged)) == Swept(t, gone, aged)
  {
  }

  lemma {:induction false} ServedSlotIsSwept(s: Sys, t: Sys, o: Occurrence, now: Time)
    requires Sound(s) && Advances(s, o) && t == ServedBy(s, o, now)
    ensures ComesToSwept(Swept(t, {JobOf(o)}, {}), o.schedule, o.at)
  {
    ServesAnew(s, o, now);
    ModUnique(0, 0, s.schedules[o.schedule].terms.interval);
    hide ServedBy, Sound, CatchUp, KeptExecutions;
    var u := Swept(t, {JobOf(o)}, {});
    assert o in u.advances && Hits(o.at, u.schedules[o.schedule].terms.interval, o.at) && JobOf(o) !in u.jobs;
  }
}
