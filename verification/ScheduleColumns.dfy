/** What the schedulers' transactions write, column by column, and what it means for whole runs:
    slots keep their phase, a paused schedule stands still, and nothing runs before its time. */
module ScheduleColumns {
  import opened Common
  import opened ScanSchedule
  import Q = ScanQueue

  function At<K, V>(m: map<K, V>, k: K): Option<V> { if k in m then Some(m[k]) else None }

  // ---------------------------------------------------------------- the columns

  /** The first slot after `at` in steps of `interval` that is later than `now`. */
  predicate NextSlot(at: Time, interval: int, now: Time, next: Time) {
    && interval > 0 && at < next && now < next && (next - at) % interval == 0
    && (next - interval <= at || next - interval <= now)
  }

  /** The advance past an occurrence: its schedule is enabled and stands at it. */
  predicate Passes(before: Schedule, o: Occurrence) { before.enabled && before.nextRunAt == o.at }

  /** One schedule before and after a transaction. */
  predicate ScheduleRow(before: Option<Schedule>, after: Option<Schedule>, step: Step, id: ScheduleId) {
    match step
    case Create(i, terms, first) =>
      if i == id then
        after.Some? && after.value.terms == terms && after.value.enabled
        && after.value.nextRunAt == first && after.value.lastRunAt == None
      else after == before
    case Delete(i) => after == if i == id then None else before
    case Pause(i) =>
      if i == id && before.Some? then
        after.Some? && SameBut(before.value, after.value, false, before.value.nextRunAt, before.value.lastRunAt)
      else after == before
    case Resume(i, at) =>
      if i == id && before.Some? then
        && after.Some?
        && SameBut(before.value, after.value, true, if at.Some? then at.value else before.value.nextRunAt, before.value.lastRunAt)
      else after == before
    case Advance(o, now) =>
      if o.schedule == id && before.Some? && Passes(before.value, o) then
        && after.Some? && SameBut(before.value, after.value, true, after.value.nextRunAt, Some(o.at))
        && NextSlot(o.at, before.value.terms.interval, now, after.value.nextRunAt)
      else after == before
    case _ => after == before
  }

  predicate SameBut(before: Schedule, after: Schedule, enabled: bool, nextRunAt: Time, lastRunAt: Option<Time>) {
    after.terms == before.terms && after.enabled == enabled && after.nextRunAt == nextRunAt && after.lastRunAt == lastRunAt
  }

  lemma {:induction false} SlotIsNext(at: Time, interval: int, now: Time)
    requires interval > 0
    ensures NextSlot(at, interval, now, CatchUp(at, interval, now))
  {
    var next := CatchUp(at, interval, now);
    CatchUpIsLeast(at, interval, now, 1);
    var n: nat :| n >= 1 && next == at + n * interval;
    Multiples(n, 1, interval);
    ModUnique(n, 0, interval);
    if n > 1 {
      CatchUpIsLeast(at, interval, now, n - 1);
      assert n * interval == (n - 1) * interval + interval;
    }
  }

  /** Every column of every schedule after a transaction. */
  lemma {:induction false} StepSchedules(s: Sys, step: Step, id: ScheduleId)
    requires Inv(s) && Enabled(s, step)
    ensures ScheduleRow(At(s.schedules, id), At(Apply(s, step).schedules, id), step, id)
  {
    if step.Advance? {
      if Advances(s, step.o) {
        assert TermsOk(s.created[step.o.schedule]);
        SlotIsNext(step.o.at, s.schedules[step.o.schedule].terms.interval, step.now);
      }
      hide CatchUp, Inv, NextSlot, TermsOk;
    } else {
      hide Inv, CatchUp, Repeats, WithoutSchedule, Advances, Advanced, JobOf, WorkOf, KeyViolated, IsDue, TermsOk;
    }
  }

  /** The job, the queue row and the execution of an occurrence after a transaction; a job is for
      the workspace, the asset and the scan kind its schedule was created with, and is tried as
      often as its schedule says. */
  function JobAfter(s: Sys, step: Step, o: Occurrence): Option<Work> {
    if step == CreateJob(o) && Scheduled(o.schedule, o.at) !in s.jobs && o.schedule in s.created
    then Some(Work(s.created[o.schedule].ws, s.created[o.schedule].asset, s.created[o.schedule].kind))
    else At(s.jobs, Scheduled(o.schedule, o.at))
  }

  function QueueRowAfter(s: Sys, step: Step, o: Occurrence): Option<nat> {
    if step == AddQueueRow(o) && Scheduled(o.schedule, o.at) !in s.queue && o.schedule in s.created
    then Some(s.created[o.schedule].maxAttempts)
    else At(s.queue, Scheduled(o.schedule, o.at))
  }

  function ExecutionAfter(s: Sys, step: Step, o: Occurrence): Option<JobId> {
    if step == RecordExecution(o) && o !in s.executions && (s.enforced ==> o.schedule in s.schedules)
    then Some(Scheduled(o.schedule, o.at))
    else if step == Delete(o.schedule) && s.enforced then None
    else At(s.executions, o)
  }

  lemma {:induction false} StepWork(s: Sys, step: Step, o: Occurrence)
    requires Enabled(s, step)
    ensures At(Apply(s, step).jobs, Scheduled(o.schedule, o.at)) == JobAfter(s, step, o)
    ensures At(Apply(s, step).queue, Scheduled(o.schedule, o.at)) == QueueRowAfter(s, step, o)
    ensures At(Apply(s, step).executions, o) == ExecutionAfter(s, step, o)
  {
    hide Changed, Repeats, IsDue, CatchUp, Advances, At, JobAfter, QueueRowAfter, ExecutionAfter;
    if Manages(step) {
      hide Progressed;
      ManagedWork(s, step, o);
    } else {
      hide Managed, Progressed;
      JobColumn(s, step, o);
      QueueColumn(s, step, o);
      ExecutionColumn(s, step, o);
    }
  }

  lemma {:induction false} ManagedWork(s: Sys, step: Step, o: Occurrence)
    requires Enabled(s, step) && Manages(step)
    ensures At(Managed(s, step).jobs, Scheduled(o.schedule, o.at)) == JobAfter(s, step, o)
    ensures At(Managed(s, step).queue, Scheduled(o.schedule, o.at)) == QueueRowAfter(s, step, o)
    ensures At(Managed(s, step).executions, o) == ExecutionAfter(s, step, o)
  {
    hide Changed, Repeats, IsDue;
  }

  lemma {:induction false} JobColumn(s: Sys, step: Step, o: Occurrence)
    requires Enabled(s, step) && !Manages(step)
    ensures At(Progressed(s, step).jobs, Scheduled(o.schedule, o.at)) == JobAfter(s, step, o)
  {
    hide Advances, IsDue, CatchUp, KeyViolated;
  }

  lemma {:induction false} QueueColumn(s: Sys, step: Step, o: Occurrence)
    requires Enabled(s, step) && !Manages(step)
    ensures At(Progressed(s, step).queue, Scheduled(o.schedule, o.at)) == QueueRowAfter(s, step, o)
  {
    hide Advances, IsDue, CatchUp, KeyViolated, WorkOf;
  }

  lemma {:induction false} ExecutionColumn(s: Sys, step: Step, o: Occurrence)
    requires Enabled(s, step) && !Manages(step)
    ensures At(Progressed(s, step).executions, o) == ExecutionAfter(s, step, o)
  {
    hide Advances, IsDue, CatchUp, WorkOf;
  }

  // ---------------------------------------------------------------- the phase is kept

  /** The step starts the schedule anew or gives it another next run. */
  predicate Restarts(step: Step, id: ScheduleId) {
    (step.Create? && step.id == id) || (step.Resume? && step.id == id && step.at.Some?)
  }

  predicate NeverRestarts(steps: seq<Step>, id: ScheduleId) { forall step :: step in steps ==> !Restarts(step, id) }

  /** A whole number of intervals on. */
  predicate SlotFrom(first: Time, interval: int, at: Time) { interval > 0 && first <= at && (at - first) % interval == 0 }

  /** The schedule is still in the phase of `first`, and its last run lies before its next one. */
  predicate InPhase(first: Time, schedule: Schedule) {
    && SlotFrom(first, schedule.terms.interval, schedule.nextRunAt)
    && (schedule.lastRunAt.Some? ==>
          SlotFrom(first, schedule.terms.interval, schedule.lastRunAt.value) && schedule.lastRunAt.value < schedule.nextRunAt)
  }

  lemma {:induction false} SlotsAdd(first: Time, interval: int, at: Time, next: Time)
    requires SlotFrom(first, interval, at) && at < next && (next - at) % interval == 0
    ensures SlotFrom(first, interval, next)
  {
    var p, q := (at - first) / interval, (next - at) / interval;
    assert at - first == p * interval && next - at == q * interval;
    assert next - first == (p + q) * interval;
    ModUnique(p + q, 0, interval);
  }

  lemma {:induction false} StepInPhase(before: Schedule, after: Schedule, step: Step, id: ScheduleId, first: Time)
    requires ScheduleRow(Some(before), Some(after), step, id) && !Restarts(step, id) && InPhase(first, before)
    ensures InPhase(first, after) && after.terms == before.terms
  {
    if step.Advance? && step.o.schedule == id && Passes(before, step.o) {
      SlotsAdd(first, before.terms.interval, step.o.at, after.nextRunAt);
    }
    hide SlotFrom;
  }

  lemma {:induction false} Gone(s: Sys, steps: seq<Step>, id: ScheduleId)
    requires Inv(s) && Possible(s, steps) && id !in s.schedules && NeverRestarts(steps, id)
    ensures id !in After(s, steps).schedules && NeverReads(steps, id)
    decreases |steps|
  {
    if steps != [] {
      assert steps[0] in steps && !Restarts(steps[0], id) && forall step :: step in steps[1..] ==> step in steps;
      assert steps[0].Read? ==> steps[0].id != id;
      StepKeeps(s, steps[0]);
      StepSchedules(s, steps[0], id);
      hide Inv, Apply, Enabled;
      Gone(Apply(s, steps[0]), steps[1..], id);
      assert forall step :: step in steps ==> step == steps[0] || step in steps[1..];
    }
  }

  /** No scheduler reads the schedule as due. */
  predicate NeverReads(steps: seq<Step>, id: ScheduleId) { forall step :: step in steps && step.Read? ==> step.id != id }

  /** Whatever schedulers, pauses, plain resumes and missed slots there are: on every run a schedule
      stays in the phase it was started in, and its last run lies before its next one. */
  lemma {:induction false} PhaseIsKept(s: Sys, steps: seq<Step>, id: ScheduleId, first: Time)
    requires Inv(s) && Possible(s, steps) && NeverRestarts(steps, id)
    requires id in s.schedules && InPhase(first, s.schedules[id])
    ensures id in After(s, steps).schedules ==>
              InPhase(first, After(s, steps).schedules[id]) && After(s, steps).schedules[id].terms == s.schedules[id].terms
    decreases |steps|
  {
    if steps != [] {
      var t := Apply(s, steps[0]);
      assert steps[0] in steps && !Restarts(steps[0], id) && forall step :: step in steps[1..] ==> step in steps;
      StepKeeps(s, steps[0]);
      StepSchedules(s, steps[0], id);
      hide Inv, Apply, Enabled, ScheduleRow, InPhase;
      if id in t.schedules {
        StepInPhase(s.schedules[id], t.schedules[id], steps[0], id, first);
        PhaseIsKept(t, steps[1..], id, first);
      } else {
        Gone(t, steps[1..], id);
      }
    }
  }

  // ---------------------------------------------------------------- pauses

  predicate Resumes(step: Step, id: ScheduleId) { (step.Create? || step.Resume?) && step.id == id }

  predicate NeverResumes(steps: seq<Step>, id: ScheduleId) { forall step :: step in steps ==> !Resumes(step, id) }

  /** While a schedule is paused no scheduler reads it as due or passes one of its occurrences: until
      somebody resumes it, on every run, its row stays as it is or is deleted. */
  lemma {:induction false} PausedStands(s: Sys, steps: seq<Step>, id: ScheduleId)
    requires Inv(s) && Possible(s, steps) && NeverResumes(steps, id)
    requires id in s.schedules && !s.schedules[id].enabled
    ensures id in After(s, steps).schedules ==> After(s, steps).schedules[id] == s.schedules[id]
    ensures NeverReads(steps, id)
    decreases |steps|
  {
    if steps != [] {
      var t := Apply(s, steps[0]);
      assert steps[0] in steps && !Resumes(steps[0], id) && forall step :: step in steps[1..] ==> step in steps;
      StepKeeps(s, steps[0]);
      StepSchedules(s, steps[0], id);
      assert steps[0].Read? ==> steps[0].id != id;
      hide Inv, Apply, Enabled, IsDue;
      if id in t.schedules {
        PausedStands(t, steps[1..], id);
      } else {
        Gone(t, steps[1..], id);
      }
      assert forall step :: step in steps ==> step == steps[0] || step in steps[1..];
    }
  }

  // ---------------------------------------------------------------- nothing before its time

  /** At this point of the run a scheduler reads the occurrence as due. */
  predicate ReadsDue(s: Sys, step: Step, o: Occurrence) {
    && step.Read? && step.id == o.schedule && o.at <= step.now
    && o.schedule in s.schedules && s.schedules[o.schedule].enabled && s.schedules[o.schedule].nextRunAt == o.at
  }

  lemma {:induction false} StepDue(s: Sys, step: Step, o: Occurrence)
    requires Enabled(s, step)
    ensures o in Apply(s, step).due <==> o in s.due || ReadsDue(s, step, o)
  {
    hide CatchUp, Repeats, Changed, WithoutSchedule, Advances;
    if Manages(step) {
      hide Progressed;
    } else {
      hide Managed, Advanced;
    }
  }

  lemma {:induction false} AfterFirst(s: Sys, steps: seq<Step>, n: nat)
    requires Possible(s, steps) && 1 <= n <= |steps|
    ensures Possible(Apply(s, steps[0]), steps[1..][..n - 1]) && Possible(s, steps[..n])
    ensures After(s, steps[..n]) == After(Apply(s, steps[0]), steps[1..][..n - 1])
    decreases n
  {
    hide Apply, Enabled;
    assert steps[..n][1..] == steps[1..][..n - 1];
    if n > 1 {
      AfterFirst(Apply(s, steps[0]), steps[1..], n - 1);
    } else {
      assert steps[1..][..0] == [];
    }
  }

  lemma {:induction false} WasReadAsDue(s: Sys, steps: seq<Step>, o: Occurrence) returns (n: nat)
    requires Inv(s) && Possible(s, steps) && o !in s.due && o in After(s, steps).due
    ensures n < |steps| && Possible(s, steps[..n]) && ReadsDue(After(s, steps[..n]), steps[n], o)
    decreases |steps|
  {
    hide Inv, Apply, Enabled, ReadsDue;
    StepKeeps(s, steps[0]);
    StepDue(s, steps[0], o);
    if ReadsDue(s, steps[0], o) {
      n := 0;
      assert steps[..0] == [];
    } else {
      n := WasReadAsDue(Apply(s, steps[0]), steps[1..], o);
      AfterFirst(s, steps, n + 1);
      n := n + 1;
    }
  }

  /** On every run every job of a schedule was created after some scheduler had read its occurrence
      at or after its time, as the next run of the schedule while that was enabled. */
  lemma {:induction false} NothingBeforeItsTime(s: Sys, steps: seq<Step>, o: Occurrence) returns (n: nat)
    requires Inv(s) && Possible(s, steps) && o !in s.due && Scheduled(o.schedule, o.at) in After(s, steps).jobs
    ensures n < |steps| && Possible(s, steps[..n]) && ReadsDue(After(s, steps[..n]), steps[n], o)
  {
    RunKeeps(s, steps, o);
    assert JobOf(o) == Scheduled(o.schedule, o.at) && JobOf(o) in After(s, steps).jobs;
    assert o in After(s, steps).due;
    hide *;
    n := WasReadAsDue(s, steps, o);
  }
}
