/** Scan schedules under any number of racing schedulers, each of which may stop between any two
    transactions. A scheduler that has read an occurrence as due creates its job, adds the queue
    row, records the execution and advances the schedule, one transaction each. */
module ScanSchedule {
  import opened Common
  import Q = ScanQueue

  const MIN_INTERVAL := 60
  const MAX_INTERVAL := 2592000

  /** What never changes about a schedule. Schedule ids are not reused. */
  datatype Terms = Terms(ws: WorkspaceId, asset: AssetId, kind: Q.ScanKind, interval: int, maxAttempts: nat)

  datatype Schedule = Schedule(terms: Terms, enabled: bool, nextRunAt: Time, lastRunAt: Option<Time>)

  datatype Occurrence = Occurrence(schedule: ScheduleId, at: Time)

  /** What a job is bound to. */
  datatype Work = Work(ws: WorkspaceId, asset: AssetId, kind: Q.ScanKind)

  /** `enforced` says whether the database enforces foreign keys, which PostgreSQL does and SQLite
      does only on request. The fields from `created` on are bookkeeping: the terms of every
      schedule ever created, every occurrence a scheduler has read as due, the occurrences whose
      execution was ever recorded, the occurrences an advance has gone past and how often, and
      the schedules a resume has taken back to a slot before a passed occurrence. */
  datatype Sys = Sys(
    enforced: bool,
    schedules: map<ScheduleId, Schedule>,
    jobs: map<JobId, Work>,
    queue: map<JobId, nat>,
    executions: map<Occurrence, JobId>,
    created: map<ScheduleId, Terms>,
    due: set<Occurrence>,
    recorded: set<Occurrence>,
    advances: map<Occurrence, nat>,
    rewound: set<ScheduleId>)

  /** The id of an occurrence's job hashes the schedule and the time. */
  function JobOf(o: Occurrence): JobId { Scheduled(o.schedule, o.at) }

  function WorkOf(terms: Terms): Work { Work(terms.ws, terms.asset, terms.kind) }

  // ---------------------------------------------------------------- catching up

  /** The time of the next run: the first slot of the schedule's phase after `now`, at least one
      interval on. */
  function CatchUp(scheduledFor: Time, interval: int, now: Time): Time
    requires interval > 0
  {
    if now < scheduledFor + interval then scheduledFor + interval
    else scheduledFor + ((now - scheduledFor) / interval + 1) * interval
  }

  /** It is the least of the slots `scheduledFor + k * interval`, k at least 1, that lies after
      `now`: however many slots were missed, they collapse into one run and the phase is kept. */
  lemma {:induction false} CatchUpIsLeast(scheduledFor: Time, interval: int, now: Time, k: nat)
    requires interval > 0 && k >= 1
    ensures var next := CatchUp(scheduledFor, interval, now);
            && now < next
            && (exists n: nat :: n >= 1 && next == scheduledFor + n * interval)
            && (now < scheduledFor + k * interval ==> next <= scheduledFor + k * interval)
  {
    var next := CatchUp(scheduledFor, interval, now);
    if now < scheduledFor + interval {
      assert next == scheduledFor + 1 * interval;
      assert k * interval >= interval by { Multiples(k, 1, interval); }
    } else {
      var late := now - scheduledFor;
      var q := late / interval;
      assert late == q * interval + late % interval;
      assert (q + 1) * interval == q * interval + interval;
      assert q >= 1 by { if q <= 0 { Multiples(0, q, interval); } }
      if now < scheduledFor + k * interval && k < q + 1 {
        Multiples(q, k, interval);
      } else if now < scheduledFor + k * interval {
        Multiples(k, q + 1, interval);
      }
    }
  }

  /** The loop that finds the next run. */
  method FindNextRun(scheduledFor: Time, interval: int, now: Time) returns (next: Time)
    requires interval > 0
    ensures next == CatchUp(scheduledFor, interval, now)
  {
    next := scheduledFor + interval;
    ghost var k: nat := 1;
    while next <= now
      invariant k >= 1 && next == scheduledFor + k * interval
      invariant k > 1 ==> scheduledFor + (k - 1) * interval <= now
      decreases now - next
    {
      assert (k + 1) * interval == k * interval + interval;
      next := next + interval;
      k := k + 1;
    }
    FirstSlotIsNext(scheduledFor, interval, now, k);
  }

  lemma {:induction false} FirstSlotIsNext(scheduledFor: Time, interval: int, now: Time, k: nat)
    requires interval > 0 && k >= 1 && now < scheduledFor + k * interval
    requires k > 1 ==> scheduledFor + (k - 1) * interval <= now
    ensures CatchUp(scheduledFor, interval, now) == scheduledFor + k * interval
  {
    CatchUpIsLeast(scheduledFor, interval, now, k);
    var next := CatchUp(scheduledFor, interval, now);
    var n: nat :| n >= 1 && next == scheduledFor + n * interval;
    hide CatchUp;
    if n < k {
      Multiples(k - 1, n, interval);
    } else {
      Multiples(n, k, interval);
    }
  }

  /** `at` is one of the slots that start at `start`. */
  predicate Hits(start: Time, interval: int, at: Time) {
    interval > 0 && start <= at && (at - start) % interval == 0
  }

  lemma {:induction false} ModUnique(q: int, m: int, n: int)
    requires 0 <= m < n
    ensures (q * n + m) % n == m
  {
    var x := q * n + m;
    var d, r := x / n, x % n;
    assert x == d * n + r;
    assert (q + 1) * n == q * n + n && (d + 1) * n == d * n + n;
    if d > q { Multiples(d, q + 1, n); }
    if d < q { Multiples(q, d + 1, n); }
    assert d == q;
  }

  /** A later start of the same phase hits no slot that the earlier one does not. */
  lemma {:induction false} HitsFromEarlier(start: Time, interval: int, n: nat, at: Time)
    requires Hits(start + n * interval, interval, at)
    ensures Hits(start, interval, at)
  {
    Multiples(n, 0, interval);
    var x := at - (start + n * interval);
    var q := x / interval;
    assert x == q * interval;
    assert (q + n) * interval == q * interval + n * interval;
    ModUnique(q + n, 0, interval);
  }

  // ---------------------------------------------------------------- the steps

  datatype Step =
    | Create(id: ScheduleId, terms: Terms, first: Time)
    | Delete(id: ScheduleId)
    | Pause(id: ScheduleId)
    | Resume(id: ScheduleId, at: Option<Time>)
    | Read(id: ScheduleId, now: Time)
    | CreateJob(o: Occurrence)
    | CreateOtherJob(n: nat, work: Work)
    | AddOtherRow(n: nat, maxAttempts: nat)
    | AddQueueRow(o: Occurrence)
    | RecordExecution(o: Occurrence)
    | Advance(o: Occurrence, now: Time)

  /** What a repository call of a scheduler answers. */
  datatype Answer = Fine | Refused(error: Error)

  /** The foreign key of an execution on its schedule stands in the way of the insertion. */
  predicate KeyViolated(s: Sys, o: Occurrence) { s.enforced && o.schedule !in s.schedules }

  /** Resuming at this time takes the schedule back to a slot before an occurrence it has passed. */
  predicate Repeats(s: Sys, id: ScheduleId, at: Time) {
    id in s.schedules && exists o: Occurrence :: o in s.advances && o.schedule == id && Hits(at, s.schedules[id].terms.interval, o.at)
  }

  predicate IsDue(schedule: Schedule, now: Time) { schedule.enabled && schedule.nextRunAt <= now }

  /** The advance is a compare-and-set on the occurrence. */
  predicate Advances(s: Sys, o: Occurrence) {
    && o.schedule in s.schedules
    && s.schedules[o.schedule].enabled && s.schedules[o.schedule].nextRunAt == o.at
  }

  function Times(s: Sys, o: Occurrence): nat { if o in s.advances then s.advances[o] else 0 }

  function Advanced(s: Sys, o: Occurrence, now: Time): Sys
    requires Advances(s, o) && s.schedules[o.schedule].terms.interval > 0
  {
    var schedule := s.schedules[o.schedule];
    s.(schedules := s.schedules[o.schedule := schedule.(
         nextRunAt := CatchUp(o.at, schedule.terms.interval, now), lastRunAt := Some(o.at))],
       advances := s.advances[o := Times(s, o) + 1])
  }

  /** The answer to the call for an occurrence's job, its queue row or its execution, and to the
      calls that name a schedule. */
  function AnswerOf(s: Sys, step: Step): Answer {
    match step
    case CreateJob(o) =>
      if JobOf(o) in s.jobs && o.schedule in s.created && s.jobs[JobOf(o)] != WorkOf(s.created[o.schedule])
      then Refused(ValueError) else Fine
    case AddQueueRow(o) =>
      if JobOf(o) in s.queue && o.schedule in s.created && s.queue[JobOf(o)] != s.created[o.schedule].maxAttempts
      then Refused(ValueError) else Fine
    case RecordExecution(o) =>
      if o in s.executions then (if s.executions[o] != JobOf(o) then Refused(RuntimeError) else Fine)
      else if KeyViolated(s, o) then Refused(IntegrityError) else Fine
    case Delete(id) => if id !in s.schedules then Refused(LookupError) else Fine
    case Pause(id) => if id !in s.schedules then Refused(LookupError) else Fine
    case Resume(id, _) => if id !in s.schedules then Refused(LookupError) else Fine
    case _ => Fine
  }

  /** When a step can be taken. A scheduler works on an occurrence it has read, in order: each of
      its transactions follows the one before, whoever else runs in between. */
  predicate Enabled(s: Sys, step: Step) {
    match step
    case Create(id, terms, _) =>
      && id !in s.created && MIN_INTERVAL <= terms.interval <= MAX_INTERVAL && 1 <= terms.maxAttempts <= 20
    case Read(id, now) => id in s.schedules && IsDue(s.schedules[id], now)
    case CreateJob(o) => o in s.due && o.schedule in s.created
    case AddQueueRow(o) => o in s.due && JobOf(o) in s.jobs && o.schedule in s.created
    case AddOtherRow(n, _) => Random(n) in s.jobs
    case RecordExecution(o) => o in s.due && JobOf(o) in s.queue
    case Advance(o, _) =>
      o in s.recorded && (o.schedule in s.schedules ==> s.schedules[o.schedule].terms.interval > 0)
    case _ => true
  }

  /** The executions that a deletion with its cascade leaves. */
  function WithoutSchedule(executions: map<Occurrence, JobId>, id: ScheduleId): map<Occurrence, JobId> {
    map o | o in executions && o.schedule != id :: executions[o]
  }

  /** Creating, deleting, pausing and resuming schedules, as against the scheduler's own calls. */
  predicate Manages(step: Step) { step.Create? || step.Delete? || step.Pause? || step.Resume? }

  /** The schedules after a deletion, a pause or a resume. */
  function Changed(schedules: map<ScheduleId, Schedule>, step: Step): map<ScheduleId, Schedule> {
    match step
    case Delete(id) => schedules - {id}
    case Pause(id) => if id in schedules then schedules[id := schedules[id].(enabled := false)] else schedules
    case Resume(id, at) =>
      if id !in schedules then schedules
      else if at.None? then schedules[id := schedules[id].(enabled := true)]
      else schedules[id := schedules[id].(enabled := true, nextRunAt := at.value)]
    case _ => schedules
  }

  function Managed(s: Sys, step: Step): Sys
    requires Manages(step)
  {
    match step
    case Create(id, terms, first) =>
      s.(schedules := s.schedules[id := Schedule(terms, true, first, None)], created := s.created[id := terms])
    case Delete(id) =>
      s.(schedules := Changed(s.schedules, step),
         executions := if s.enforced then WithoutSchedule(s.executions, id) else s.executions)
    case Pause(_) => s.(schedules := Changed(s.schedules, step))
    case Resume(id, at) =>
      s.(schedules := Changed(s.schedules, step),
         rewound := if at.Some? && Repeats(s, id, at.value) then s.rewound + {id} else s.rewound)
  }

  function Progressed(s: Sys, step: Step): Sys
    requires !Manages(step) && Enabled(s, step)
  {
    match step
    case Read(id, _) => s.(due := s.due + {Occurrence(id, s.schedules[id].nextRunAt)})
    case CreateJob(o) =>
      if JobOf(o) in s.jobs then s else s.(jobs := s.jobs[JobOf(o) := WorkOf(s.created[o.schedule])])
    case CreateOtherJob(n, work) =>
      if Random(n) in s.jobs then s else s.(jobs := s.jobs[Random(n) := work])
    case AddOtherRow(n, maxAttempts) =>
      if Random(n) in s.queue then s else s.(queue := s.queue[Random(n) := maxAttempts])
    case AddQueueRow(o) =>
      if JobOf(o) in s.queue then s else s.(queue := s.queue[JobOf(o) := s.created[o.schedule].maxAttempts])
    case RecordExecution(o) =>
      if o in s.executions || KeyViolated(s, o) then s
      else s.(executions := s.executions[o := JobOf(o)], recorded := s.recorded + {o})
    case Advance(o, now) =>
      if Advances(s, o) then Advanced(s, o, now) else s
  }

  function Apply(s: Sys, step: Step): Sys
    requires Enabled(s, step)
  {
    if Manages(step) then Managed(s, step) else Progressed(s, step)
  }

  // ---------------------------------------------------------------- the invariant

  predicate TermsOk(terms: Terms) { MIN_INTERVAL <= terms.interval && 1 <= terms.maxAttempts <= 20 }

  /** Jobs and queue rows of occurrences are what their schedule says. */
  ghost predicate Bound(s: Sys) {
    && (forall o: Occurrence :: JobOf(o) in s.jobs ==>
          o in s.due && o.schedule in s.created && s.jobs[JobOf(o)] == WorkOf(s.created[o.schedule]))
    && (forall o: Occurrence :: JobOf(o) in s.queue ==>
          JobOf(o) in s.jobs && o.schedule in s.created && s.queue[JobOf(o)] == s.created[o.schedule].maxAttempts)
  }

  ghost predicate KnownSchedules(s: Sys) {
    && (forall id :: id in s.schedules ==> id in s.created && s.created[id] == s.schedules[id].terms)
    && (forall id :: id in s.created ==> TermsOk(s.created[id]))
    && (forall o :: o in s.due ==> o.schedule in s.created)
  }

  /** Executions are recorded for enqueued jobs, they stay until a cascade takes them with their
      schedule, and only recorded occurrences have been passed. */
  ghost predicate Evidence(s: Sys) {
    && (forall o :: o in s.executions ==> o in s.recorded && s.executions[o] == JobOf(o))
    && (forall o :: o in s.recorded ==> JobOf(o) in s.queue && (o in s.executions <==> !KeyViolated(s, o)))
    && (forall o :: o in s.advances ==> o in s.recorded)
  }

  /** The next runs of the occurrence's schedule do not come to the occurrence. */
  ghost predicate Behind(s: Sys, o: Occurrence) {
    o.schedule in s.schedules ==>
      !Hits(s.schedules[o.schedule].nextRunAt, s.schedules[o.schedule].terms.interval, o.at)
  }

  /** Unless a resume has taken the schedule back, its passed occurrences stay behind it. */
  ghost predicate Forward(s: Sys) {
    forall o :: o in s.advances && o.schedule !in s.rewound ==> s.advances[o] == 1 && Behind(s, o)
  }

  ghost predicate Inv(s: Sys) {
    KnownSchedules(s) && Bound(s) && Evidence(s) && Forward(s)
  }

  function Empty(enforced: bool): Sys { Sys(enforced, map[], map[], map[], map[], map[], {}, {}, map[], {}) }

  lemma {:induction false} EmptyInv(enforced: bool)
    ensures Inv(Empty(enforced))
  {
  }

  lemma {:induction false} AdvanceMovesOn(s: Sys, o: Occurrence, now: Time)
    requires Inv(s) && Advances(s, o)
    ensures s.schedules[o.schedule].terms.interval > 0
    ensures var next := Advanced(s, o, now).schedules[o.schedule].nextRunAt; o.at < next && now < next
  {
    assert TermsOk(s.created[o.schedule]);
    CatchUpIsLeast(o.at, s.schedules[o.schedule].terms.interval, now, 1);
    var interval := s.schedules[o.schedule].terms.interval;
    var n: nat :| n >= 1 && CatchUp(o.at, interval, now) == o.at + n * interval;
    Multiples(n, 1, interval);
  }

  /** An advance leaves everything behind that was behind, and the occurrence it passes. */
  lemma {:induction false} AdvanceLeavesBehind(s: Sys, o: Occurrence, now: Time, p: Occurrence)
    requires Inv(s) && Advances(s, o) && s.schedules[o.schedule].terms.interval > 0
    requires p == o || Behind(s, p)
    ensures Behind(Advanced(s, o, now), p)
  {
    AdvanceMovesOn(s, o, now);
    var interval, next := s.schedules[o.schedule].terms.interval, CatchUp(o.at, s.schedules[o.schedule].terms.interval, now);
    CatchUpIsLeast(o.at, interval, now, 1);
    var n: nat :| n >= 1 && next == o.at + n * interval;
    hide CatchUp;
    if p.schedule == o.schedule && Hits(next, interval, p.at) {
      HitsFromEarlier(o.at, interval, n, p.at);
    }
  }

  lemma {:induction false} AdvanceForward(s: Sys, o: Occurrence, now: Time)
    requires Inv(s) && Advances(s, o) && s.schedules[o.schedule].terms.interval > 0
    ensures Forward(Advanced(s, o, now))
  {
    var s' := Advanced(s, o, now);
    ModUnique(0, 0, s.schedules[o.schedule].terms.interval);
    assert !Behind(s, o);
    forall p | p in s'.advances && p.schedule !in s'.rewound
      ensures s'.advances[p] == 1 && Behind(s', p)
    {
      AdvanceLeavesBehind(s, o, now, p);
    }
  }

  lemma {:induction false} AdvanceKeeps(s: Sys, o: Occurrence, now: Time)
    requires Inv(s) && Enabled(s, Advance(o, now))
    ensures Inv(Apply(s, Advance(o, now)))
  {
    if Advances(s, o) {
      AdvanceForward(s, o, now);
      hide CatchUp, Forward;
    }
  }

  /** Every step of every scheduler, pauses, resumes and deletions included, keeps the invariant. */
  lemma {:induction false} StepKeeps(s: Sys, step: Step)
    requires Inv(s) && Enabled(s, step)
    ensures Inv(Apply(s, step))
  {
    if step.Advance? {
      AdvanceKeeps(s, step.o, step.now);
    } else if Manages(step) {
      ManagedKnown(s, step);
      ManagedBound(s, step);
      ManagedEvidence(s, step);
      ManagedForward(s, step);
      hide KnownSchedules, Bound, Evidence, Forward, Managed, Progressed;
    } else {
      ProgressedKnown(s, step);
      ProgressedBound(s, step);
      ProgressedEvidence(s, step);
      ProgressedForward(s, step);
      hide KnownSchedules, Bound, Evidence, Forward, Managed, Progressed;
    }
  }

  lemma {:induction false} ManagedKnown(s: Sys, step: Step)
    requires KnownSchedules(s) && Enabled(s, step) && Manages(step)
    ensures KnownSchedules(Managed(s, step))
  {
    hide Repeats, WithoutSchedule, CatchUp, IsDue, Advances, Advanced, JobOf;
    if step.Create? {
    } else {
      hide TermsOk, Enabled;
      ChangeKnown(s, step);
    }
  }

  lemma {:induction false} TermsStay(schedules: map<ScheduleId, Schedule>, step: Step)
    ensures var changed := Changed(schedules, step);
            forall id :: id in changed ==> id in schedules && changed[id].terms == schedules[id].terms
  {
  }

  lemma {:induction false} ChangeKnown(s: Sys, step: Step)
    requires KnownSchedules(s) && Manages(step) && !step.Create?
    ensures KnownSchedules(Managed(s, step))
  {
    TermsStay(s.schedules, step);
    hide TermsOk, Changed;
  }

  lemma {:induction false} ManagedBound(s: Sys, step: Step)
    requires KnownSchedules(s) && Bound(s) && Enabled(s, step) && Manages(step)
    ensures Bound(Managed(s, step))
  {
    hide Repeats, WithoutSchedule, TermsOk, CatchUp, IsDue, Advances, Advanced;
  }

  lemma {:induction false} ManagedEvidence(s: Sys, step: Step)
    requires Inv(s) && Enabled(s, step) && Manages(step)
    ensures Evidence(Managed(s, step))
  {
    forall o | o in s.recorded ensures o.schedule in s.created {
      assert JobOf(o) in s.queue;
    }
    hide Bound, KnownSchedules, Forward, Repeats, CatchUp, IsDue, Advances, Advanced;
  }

  lemma {:induction false} ManagedForward(s: Sys, step: Step)
    requires Inv(s) && Enabled(s, step) && Manages(step)
    ensures Forward(Managed(s, step))
  {
    forall o | o in s.advances ensures o.schedule in s.created {
      assert JobOf(o) in s.queue;
    }
    hide WithoutSchedule, Bound, Evidence, KnownSchedules, Hits, CatchUp, IsDue, Advances, Advanced;
  }

  lemma {:induction false} ProgressedKnown(s: Sys, step: Step)
    requires KnownSchedules(s) && !Manages(step) && Enabled(s, step) && !step.Advance?
    ensures KnownSchedules(Progressed(s, step))
  {
    hide TermsOk, CatchUp, IsDue, Advances, Advanced;
  }

  lemma {:induction false} ProgressedBound(s: Sys, step: Step)
    requires KnownSchedules(s) && Bound(s) && !Manages(step) && Enabled(s, step) && !step.Advance?
    ensures Bound(Progressed(s, step))
  {
    hide TermsOk, CatchUp, IsDue, Advances, Advanced;
  }

  lemma {:induction false} ProgressedEvidence(s: Sys, step: Step)
    requires Evidence(s) && !Manages(step) && Enabled(s, step) && !step.Advance?
    ensures Evidence(Progressed(s, step))
  {
    hide CatchUp, IsDue, Advances, Advanced;
  }

  lemma {:induction false} ProgressedForward(s: Sys, step: Step)
    requires Forward(s) && !Manages(step) && Enabled(s, step) && !step.Advance?
    ensures Forward(Progressed(s, step))
  {
    hide Hits, CatchUp, IsDue, Advances, Advanced;
  }

  // ---------------------------------------------------------------- what every step promises

  /** The calls that name a schedule are refused exactly when there is none. Of a scheduler's
      other calls none is refused for other work, another retry policy or another job; the
      recording of an execution is refused exactly when the foreign key is enforced, the schedule
      has been deleted since the scheduler read it and no execution is recorded. */
  lemma {:induction false} RefusedExactlyWhenDeleted(s: Sys, step: Step)
    requires Inv(s) && Enabled(s, step)
    ensures AnswerOf(s, step).Refused? <==>
              match step
              case Delete(id) => id !in s.schedules
              case Pause(id) => id !in s.schedules
              case Resume(id, _) => id !in s.schedules
              case RecordExecution(o) =>
                s.enforced && o.schedule in s.created && o.schedule !in s.schedules && o !in s.executions
              case _ => false
    ensures AnswerOf(s, step).Refused? ==>
              AnswerOf(s, step).error == if step.RecordExecution? then IntegrityError else LookupError
  {
    if step.RecordExecution? { assert step.o.schedule in s.created; }
    hide CatchUp, Forward;
  }

  /** The next run changes only by a resume or by an advance past an occurrence whose job has
      been enqueued and recorded, and then it lies after that occurrence and after now. */
  lemma {:induction false} NextRunPassesOnlyRecorded(s: Sys, step: Step, id: ScheduleId)
    requires Inv(s) && Enabled(s, step)
    requires id in s.schedules && id in Apply(s, step).schedules
    requires Apply(s, step).schedules[id].nextRunAt != s.schedules[id].nextRunAt
    ensures (step.Resume? && step.id == id && step.at.Some?)
            || var o := Occurrence(id, s.schedules[id].nextRunAt);
               var next := Apply(s, step).schedules[id].nextRunAt;
               && step.Advance? && step.o == o && o in s.executions && s.executions[o] == JobOf(o)
               && o in s.recorded && JobOf(o) in s.queue && JobOf(o) in s.jobs
               && o.at < next && step.now < next
  {
    hide Repeats, WithoutSchedule;
    if step.Advance? && Advances(s, step.o) { AdvanceMovesOn(s, step.o, step.now); }
    hide CatchUp;
  }

  /** A deleted schedule never comes back. */
  ghost predicate StaysDeleted(s: Sys, t: Sys) {
    && (forall id :: id in s.schedules ==> id in t.created)
    && (forall id :: id in s.created && id in t.schedules ==> id in s.schedules)
  }

  /** A recorded execution goes only with its schedule. */
  ghost predicate ExecutionsStay(s: Sys, t: Sys) {
    forall o :: o in s.executions && (s.enforced ==> o.schedule in s.schedules && o.schedule in t.schedules) ==>
      o in t.executions && t.executions[o] == s.executions[o]
  }

  ghost predicate TablesGrow(s: Sys, t: Sys) {
    && s.enforced == t.enforced && s.due <= t.due && s.recorded <= t.recorded
    && (forall id :: id in s.created ==> id in t.created && t.created[id] == s.created[id])
    && (forall id :: id in s.jobs ==> id in t.jobs && t.jobs[id] == s.jobs[id])
    && (forall id :: id in s.queue ==> id in t.queue && t.queue[id] == s.queue[id])
  }

  /** Nothing that has been done for an occurrence is undone, and its job never changes. */
  ghost predicate Grows(s: Sys, t: Sys) {
    TablesGrow(s, t) && ExecutionsStay(s, t) && StaysDeleted(s, t)
  }

  lemma {:induction false} StepGrows(s: Sys, step: Step)
    requires Inv(s) && Enabled(s, step)
    ensures Grows(s, Apply(s, step))
  {
    TablesStay(s, step);
    ExecutionsStand(s, step);
    SchedulesStand(s, step);
    hide TablesGrow, ExecutionsStay, StaysDeleted, Inv, Apply, Enabled;
  }

  lemma {:induction false} TablesStay(s: Sys, step: Step)
    requires Inv(s) && Enabled(s, step)
    ensures TablesGrow(s, Apply(s, step))
  {
    if Manages(step) {
      hide Progressed, CatchUp, Advances, Advanced, IsDue, Inv, Repeats;
    } else {
      ProgressedTables(s, step);
      hide TablesGrow;
    }
  }

  lemma {:induction false} ProgressedTables(s: Sys, step: Step)
    requires !Manages(step) && Enabled(s, step)
    ensures TablesGrow(s, Progressed(s, step))
  {
    hide Managed, JobOf, WorkOf, KeyViolated, Times, CatchUp, Advances, IsDue, Repeats;
    if step.Advance? {
      hide TermsOk;
    } else if step.CreateJob? || step.AddQueueRow? || step.CreateOtherJob? || step.AddOtherRow? {
      WorkTables(s, step);
    } else {
      hide Advanced;
    }
  }

  lemma {:induction false} WorkTables(s: Sys, step: Step)
    requires (step.CreateJob? || step.AddQueueRow? || step.CreateOtherJob? || step.AddOtherRow?) && Enabled(s, step)
    ensures TablesGrow(s, Progressed(s, step))
  {
    hide JobOf, WorkOf, KeyViolated, Times, CatchUp, Advances, Advanced, IsDue, TablesGrow;
    match step
    case CreateJob(o) => JobGrows(s, JobOf(o), WorkOf(s.created[o.schedule]));
    case CreateOtherJob(n, work) => JobGrows(s, Random(n), work);
    case AddQueueRow(o) => RowGrows(s, JobOf(o), s.created[o.schedule].maxAttempts);
    case AddOtherRow(n, maxAttempts) => RowGrows(s, Random(n), maxAttempts);
  }

  lemma {:induction false} JobGrows(s: Sys, id: JobId, work: Work)
    ensures TablesGrow(s, if id in s.jobs then s else s.(jobs := s.jobs[id := work]))
  {
  }

  lemma {:induction false} RowGrows(s: Sys, id: JobId, maxAttempts: nat)
    ensures TablesGrow(s, if id in s.queue then s else s.(queue := s.queue[id := maxAttempts]))
  {
  }

  lemma {:induction false} ExecutionsStand(s: Sys, step: Step)
    requires Inv(s) && Enabled(s, step)
    ensures ExecutionsStay(s, Apply(s, step))
  {
    if Manages(step) {
      hide Progressed, CatchUp, Advances, Advanced, IsDue, Inv, Repeats;
    } else {
      hide Managed, CatchUp, Advances, IsDue, Inv, Repeats;
    }
  }

  lemma {:induction false} SchedulesStand(s: Sys, step: Step)
    requires Inv(s) && Enabled(s, step)
    ensures StaysDeleted(s, Apply(s, step))
  {
    hide CatchUp, IsDue, Repeats, Bound, Evidence, Forward, TermsOk;
    if step.Create? {
      hide Progressed;
    } else if Manages(step) {
      TermsStay(s.schedules, step);
      hide Changed, Progressed;
    } else {
      hide Managed;
    }
  }

  // ---------------------------------------------------------------- runs

  function After(s: Sys, steps: seq<Step>): Sys
    requires Possible(s, steps)
    decreases |steps|
  {
    if steps == [] then s else After(Apply(s, steps[0]), steps[1..])
  }

  predicate Possible(s: Sys, steps: seq<Step>)
    decreases |steps|
  {
    steps == [] || (Enabled(s, steps[0]) && Possible(Apply(s, steps[0]), steps[1..]))
  }

  /** How many advances of an occurrence succeed in a run. */
  function Successes(s: Sys, steps: seq<Step>, o: Occurrence): nat
    requires Possible(s, steps)
    decreases |steps|
  {
    if steps == [] then 0
    else (if steps[0].Advance? && steps[0].o == o && Advances(s, o) then 1 else 0)
         + Successes(Apply(s, steps[0]), steps[1..], o)
  }

  lemma {:induction false} StepCounts(s: Sys, step: Step, o: Occurrence)
    requires Enabled(s, step)
    ensures Times(Apply(s, step), o) == Times(s, o) + if step.Advance? && step.o == o && Advances(s, o) then 1 else 0
  {
    if step.Advance? {
      AdvanceCounts(s, step.o, step.now, o);
    } else {
      AdvancesStay(s, step);
    }
    hide Apply, Enabled, Advances;
  }

  lemma {:induction false} AdvanceCounts(s: Sys, o: Occurrence, now: Time, p: Occurrence)
    requires Enabled(s, Advance(o, now))
    ensures Times(Apply(s, Advance(o, now)), p) == Times(s, p) + if o == p && Advances(s, p) then 1 else 0
  {
    hide CatchUp, Managed;
  }

  lemma {:induction false} AdvancesStay(s: Sys, step: Step)
    requires Enabled(s, step) && !step.Advance?
    ensures Apply(s, step).advances == s.advances
  {
    if Manages(step) {
      hide Changed, Repeats, WithoutSchedule, Progressed;
    } else {
      hide Managed, Advanced, JobOf, WorkOf, KeyViolated, IsDue;
    }
  }

  lemma {:induction false} RunKeeps(s: Sys, steps: seq<Step>, o: Occurrence)
    requires Inv(s) && Possible(s, steps)
    ensures Inv(After(s, steps))
    ensures Times(After(s, steps), o) == Times(s, o) + Successes(s, steps, o)
    decreases |steps|
  {
    if steps != [] {
      StepKeeps(s, steps[0]);
      StepCounts(s, steps[0], o);
      hide Inv, Apply, Enabled, Advances, Times;
      RunKeeps(Apply(s, steps[0]), steps[1..], o);
    }
  }

  /** In every run, however many schedulers race and wherever they stop, the advance of an
      occurrence succeeds at most once unless a resume has taken its schedule back, and only after
      its one job was enqueued and its execution recorded; the execution is there until the
      schedule is deleted. */
  lemma {:induction false} ExactlyOnce(s: Sys, steps: seq<Step>, o: Occurrence)
    requires Inv(s) && Possible(s, steps)
    ensures var t := After(s, steps);
            && (o.schedule !in t.rewound ==> Times(s, o) + Successes(s, steps, o) <= 1)
            && (Successes(s, steps, o) > 0 ==>
                  && o in t.recorded && JobOf(o) in t.queue && JobOf(o) in t.jobs
                  && o.schedule in t.created && t.jobs[JobOf(o)] == WorkOf(t.created[o.schedule])
                  && (o in t.executions <==> !KeyViolated(t, o))
                  && (o in t.executions ==> t.executions[o] == JobOf(o)))
  {
    RunKeeps(s, steps, o);
    hide After, Successes, Behind;
  }

  /** For a recorded occurrence the earlier transactions of another scheduler change nothing. */
  lemma {:induction false} AgainChangesNothing(s: Sys, o: Occurrence)
    requires Inv(s) && o in s.recorded
    ensures Enabled(s, CreateJob(o)) && Apply(s, CreateJob(o)) == s
    ensures Enabled(s, AddQueueRow(o)) && Apply(s, AddQueueRow(o)) == s
    ensures Enabled(s, RecordExecution(o)) && Apply(s, RecordExecution(o)) == s
  {
    assert JobOf(o) in s.queue;
    hide Forward, CatchUp;
  }

  lemma {:induction false} RunOf(s: Sys, step: Step, rest: seq<Step>, o: Occurrence)
    requires Enabled(s, step) && Possible(Apply(s, step), rest)
    ensures Possible(s, [step] + rest) && After(s, [step] + rest) == After(Apply(s, step), rest)
    ensures Successes(s, [step] + rest, o)
            == Successes(Apply(s, step), rest, o) + if step.Advance? && step.o == o && Advances(s, o) then 1 else 0
  {
    hide Enabled, Apply, Advances;
    assert ([step] + rest)[1..] == rest;
  }

  // ---------------------------------------------------------------- deleting a schedule in use

  /** From the empty database with enforced keys: a scheduler reads a new schedule as due and
      enqueues its occurrence, the schedule is deleted, and recording the execution is refused
      although job and queue row are there to stay. */
  lemma {:induction false} DeleteThenRecordIsRefused(id: ScheduleId, terms: Terms, first: Time)
    requires MIN_INTERVAL <= terms.interval <= MAX_INTERVAL && 1 <= terms.maxAttempts <= 20
    ensures var o := Occurrence(id, first);
            var steps := [Create(id, terms, first), Read(id, first), CreateJob(o), AddQueueRow(o), Delete(id)];
            && Possible(Empty(true), steps)
            && var t := After(Empty(true), steps);
               && Enabled(t, RecordExecution(o)) && AnswerOf(t, RecordExecution(o)) == Refused(IntegrityError)
               && Apply(t, RecordExecution(o)) == t && JobOf(o) in t.jobs && JobOf(o) in t.queue
  {
    hide *;
    var o := Occurrence(id, first);
    DeletionRun(id, terms, first);
    var s0 := Empty(true);
    var s1 := Apply(s0, Create(id, terms, first));
    var s2 := Apply(s1, Read(id, first));
    var s3 := Apply(s2, CreateJob(o));
    var s4 := Apply(s3, AddQueueRow(o));
    var s5 := Apply(s4, Delete(id));
    EmptyRun(s5);
    RunOf(s4, Delete(id), [], o);
    RunOf(s3, AddQueueRow(o), [Delete(id)] + [], o);
    RunOf(s2, CreateJob(o), [AddQueueRow(o)] + ([Delete(id)] + []), o);
    RunOf(s1, Read(id, first), [CreateJob(o)] + ([AddQueueRow(o)] + ([Delete(id)] + [])), o);
    RunOf(s0, Create(id, terms, first), [Read(id, first)] + ([CreateJob(o)] + ([AddQueueRow(o)] + ([Delete(id)] + []))), o);
    assert [Create(id, terms, first)] + ([Read(id, first)] + ([CreateJob(o)] + ([AddQueueRow(o)] + ([Delete(id)] + []))))
           == [Create(id, terms, first), Read(id, first), CreateJob(o), AddQueueRow(o), Delete(id)];
  }

  lemma {:induction false} EmptyRun(s: Sys)
    ensures Possible(s, []) && After(s, []) == s
  {
  }

  lemma {:induction false} DeletionRun(id: ScheduleId, terms: Terms, first: Time)
    requires MIN_INTERVAL <= terms.interval <= MAX_INTERVAL && 1 <= terms.maxAttempts <= 20
    ensures var o := Occurrence(id, first);
            Enabled(Empty(true), Create(id, terms, first)) &&
            var s1 := Apply(Empty(true), Create(id, terms, first));
            Enabled(s1, Read(id, first)) &&
            var s2 := Apply(s1, Read(id, first));
            Enabled(s2, CreateJob(o)) &&
            var s3 := Apply(s2, CreateJob(o));
            Enabled(s3, AddQueueRow(o)) &&
            var s4 := Apply(s3, AddQueueRow(o));
            Enabled(s4, Delete(id)) &&
            var s5 := Apply(s4, Delete(id));
            && Enabled(s5, RecordExecution(o)) && AnswerOf(s5, RecordExecution(o)) == Refused(IntegrityError)
            && Apply(s5, RecordExecution(o)) == s5 && JobOf(o) in s5.jobs && JobOf(o) in s5.queue
  {
    hide CatchUp, Advanced, Advances, Repeats;
    var o := Occurrence(id, first);
    var s0 := Empty(true);
    var s1 := Apply(s0, Create(id, terms, first));
    var s2 := Apply(s1, Read(id, first));
    assert s2.schedules == map[id := Schedule(terms, true, first, None)] && s2.due == {o} && s2.created == map[id := terms];
    var s3 := Apply(s2, CreateJob(o));
    var s4 := Apply(s3, AddQueueRow(o));
    var s5 := Apply(s4, Delete(id));
    assert s5.schedules == map[] && s5.executions == map[] && JobOf(o) in s5.jobs && JobOf(o) in s5.queue && o in s5.due;
  }

  // ---------------------------------------------------------------- resuming at a time

  predicate NoTimedResume(steps: seq<Step>, id: ScheduleId) {
    forall i :: 0 <= i < |steps| ==> !(steps[i].Resume? && steps[i].id == id && steps[i].at.Some?)
  }

  /** A run that goes past an occurrence of the schedule again without another timed resume. */
  ghost predicate PassesAgain(s: Sys, id: ScheduleId, t: Sys, steps: seq<Step>, o: Occurrence) {
    && o in s.advances && o.schedule == id && NoTimedResume(steps, id)
    && Possible(t, steps) && Successes(t, steps, o) > 0
  }

  /** A resume at a time can make a schedule go past an occurrence a second time exactly when the
      slots from that time on come to an occurrence it has passed: then some continuation does
      so, and otherwise none does. */
  lemma {:induction false} RepeatsExactly(s: Sys, id: ScheduleId, at: Time)
    requires Inv(s) && id in s.schedules
    ensures Repeats(s, id, at)
            <==> exists steps, o :: PassesAgain(s, id, Apply(s, Resume(id, Some(at))), steps, o)
  {
    var t := Apply(s, Resume(id, Some(at)));
    hide *;
    if Repeats(s, id, at) {
      SomeRunRepeats(s, id, at);
    } else {
      forall steps, o ensures !PassesAgain(s, id, t, steps, o) {
        NoRunRepeats(s, id, at, steps, o);
      }
    }
  }

  lemma {:induction false} SomeRunRepeats(s: Sys, id: ScheduleId, at: Time)
    requires Inv(s) && Repeats(s, id, at)
    ensures exists steps, o :: PassesAgain(s, id, Apply(s, Resume(id, Some(at))), steps, o)
  {
    var o: Occurrence :| o in s.advances && o.schedule == id && Hits(at, s.schedules[id].terms.interval, o.at);
    hide Inv, Apply, Possible, Successes;
    RepetitionPasses(s, o, at);
    assert PassesAgain(s, id, Apply(s, Resume(id, Some(at))), Repetition(o, at), o);
  }

  lemma {:induction false} NoRunRepeats(s: Sys, id: ScheduleId, at: Time, steps: seq<Step>, o: Occurrence)
    requires Inv(s) && id in s.schedules && !Repeats(s, id, at)
    ensures !PassesAgain(s, id, Apply(s, Resume(id, Some(at))), steps, o)
  {
    var t := Apply(s, Resume(id, Some(at)));
    if o in s.advances && o.schedule == id && NoTimedResume(steps, id) && Possible(t, steps) {
      StepKeeps(s, Resume(id, Some(at)));
      assert Behind(t, o) && o in t.advances;
      hide *;
      BehindIsNotPassed(t, steps, o);
      NotPassedAgain(s, id, t, steps, o);
    }
  }

  lemma {:induction false} NotPassedAgain(s: Sys, id: ScheduleId, t: Sys, steps: seq<Step>, o: Occurrence)
    requires Possible(t, steps) && Successes(t, steps, o) == 0
    ensures !PassesAgain(s, id, t, steps, o)
  {
    hide Possible, Successes;
  }

  lemma {:induction false} BehindIsNotPassed(s: Sys, steps: seq<Step>, o: Occurrence)
    requires Inv(s) && Possible(s, steps) && NoTimedResume(steps, o.schedule)
    requires o in s.advances && Behind(s, o)
    ensures Successes(s, steps, o) == 0
    decreases |steps|
  {
    if steps != [] {
      StepKeeps(s, steps[0]);
      StaysBehind(s, steps[0], o);
      hide Inv, Apply, Enabled, Advances, Behind;
      BehindIsNotPassed(Apply(s, steps[0]), steps[1..], o);
    }
  }

  lemma {:induction false} StaysBehind(s: Sys, step: Step, o: Occurrence)
    requires Inv(s) && Enabled(s, step) && o in s.advances && Behind(s, o)
    requires !(step.Resume? && step.id == o.schedule && step.at.Some?)
    ensures o in Apply(s, step).advances && Behind(Apply(s, step), o)
    ensures !(step.Advance? && step.o == o && Advances(s, o))
  {
    if step.Advance? {
      AdvanceStaysBehind(s, step.o, step.now, o);
      hide Inv, Behind, Enabled, Advances, Apply;
    } else if Manages(step) {
      ManagedStaysBehind(s, step, o);
      hide Inv, Behind, Enabled, Managed, Progressed;
    } else {
      hide CatchUp, Hits, Inv, Managed, Advanced;
    }
  }

  lemma {:induction false} AdvanceStaysBehind(s: Sys, o: Occurrence, now: Time, p: Occurrence)
    requires Inv(s) && Enabled(s, Advance(o, now)) && p in s.advances && Behind(s, p)
    ensures p in Apply(s, Advance(o, now)).advances && Behind(Apply(s, Advance(o, now)), p)
    ensures !(o == p && Advances(s, p))
  {
    if Advances(s, o) {
      AdvanceLeavesBehind(s, o, now, p);
      ModUnique(0, 0, s.schedules[o.schedule].terms.interval);
    }
    hide CatchUp, Inv, Managed;
  }

  lemma {:induction false} ManagedStaysBehind(s: Sys, step: Step, o: Occurrence)
    requires Inv(s) && Enabled(s, step) && Manages(step) && o in s.advances && Behind(s, o)
    requires !(step.Resume? && step.id == o.schedule && step.at.Some?)
    ensures o in Managed(s, step).advances && Behind(Managed(s, step), o)
  {
    assert JobOf(o) in s.queue && o.schedule in s.created;
    hide CatchUp, Hits, Inv, Repeats, WithoutSchedule;
  }

  /** After a resume at `at`: the occurrence at that time is served by a pass that catches up to
      the occurrence `o`, which is then passed again. */
  function Repetition(o: Occurrence, at: Time): seq<Step> {
    if at == o.at then [Advance(o, o.at)]
    else
      var q := Occurrence(o.schedule, at);
      [Read(o.schedule, at), CreateJob(q), AddQueueRow(q), RecordExecution(q), Advance(q, o.at - 1), Advance(o, o.at)]
  }

  lemma {:induction false} RepetitionPasses(s: Sys, o: Occurrence, at: Time)
    requires Inv(s) && o.schedule in s.schedules && o in s.advances
    requires Hits(at, s.schedules[o.schedule].terms.interval, o.at)
    ensures var t := Apply(s, Resume(o.schedule, Some(at)));
            Possible(t, Repetition(o, at)) && Successes(t, Repetition(o, at), o) > 0
  {
    var t := Apply(s, Resume(o.schedule, Some(at)));
    StepKeeps(s, Resume(o.schedule, Some(at)));
    var schedule := t.schedules[o.schedule];
    if at == o.at {
      assert Advances(t, o);
      PassesNow(t, o);
    } else {
      hide *;
      PassesNext(t, o, at);
    }
  }

  lemma {:induction false} PassesNow(s: Sys, o: Occurrence)
    requires Inv(s) && o in s.recorded && Advances(s, o)
    ensures Possible(s, [Advance(o, o.at)]) && Successes(s, [Advance(o, o.at)], o) == 1
  {
    assert TermsOk(s.created[o.schedule]);
    var t := Apply(s, Advance(o, o.at));
    assert Possible(t, []) && Successes(t, [], o) == 0;
    assert Enabled(s, Advance(o, o.at));
    hide *;
    RunOf(s, Advance(o, o.at), [], o);
    assert [Advance(o, o.at)] + [] == [Advance(o, o.at)];
  }

  lemma {:induction false} CatchesUpTo(start: Time, interval: int, at: Time)
    requires Hits(start, interval, at) && start != at
    ensures CatchUp(start, interval, at - 1) == at
  {
    var k := (at - start) / interval;
    assert at - start == k * interval;
    if k <= 0 { Multiples(0, k, interval); }
    assert (k - 1) * interval == k * interval - interval;
    FirstSlotIsNext(start, interval, at - 1, k);
  }

  /** The four transactions before the advance leave the schedules as they are. */
  lemma {:induction false} ReadyToAdvance(s: Sys, q: Occurrence)
    requires Inv(s) && Advances(s, q)
    ensures Enabled(s, Read(q.schedule, q.at))
    ensures var s1 := Apply(s, Read(q.schedule, q.at));
            Enabled(s1, CreateJob(q)) &&
            var s2 := Apply(s1, CreateJob(q));
            Enabled(s2, AddQueueRow(q)) &&
            var s3 := Apply(s2, AddQueueRow(q));
            Enabled(s3, RecordExecution(q)) &&
            var s4 := Apply(s3, RecordExecution(q));
            Inv(s4) && s4.schedules == s.schedules && s.recorded <= s4.recorded && q in s4.recorded
  {
    hide *;
    ReadReady(s, q);
    var s1 := Apply(s, Read(q.schedule, q.at));
    JobReady(s1, q);
    var s2 := Apply(s1, CreateJob(q));
    RowReady(s2, q);
    var s3 := Apply(s2, AddQueueRow(q));
    RecordReady(s3, q);
  }

  lemma {:induction false} ReadReady(s: Sys, q: Occurrence)
    requires Inv(s) && Advances(s, q)
    ensures Enabled(s, Read(q.schedule, q.at))
    ensures var t := Apply(s, Read(q.schedule, q.at));
            Inv(t) && q in t.due && t.schedules == s.schedules && t.recorded == s.recorded && q.schedule in t.schedules
  {
    StepKeeps(s, Read(q.schedule, q.at));
    hide Inv, CatchUp, Advanced, Managed;
  }

  lemma {:induction false} JobReady(s: Sys, q: Occurrence)
    requires Inv(s) && q in s.due
    ensures Enabled(s, CreateJob(q))
    ensures var t := Apply(s, CreateJob(q));
            Inv(t) && q in t.due && JobOf(q) in t.jobs && t.schedules == s.schedules && t.recorded == s.recorded
  {
    StepKeeps(s, CreateJob(q));
    hide Forward, Bound, Evidence, CatchUp, Advanced, Managed;
  }

  lemma {:induction false} RowReady(s: Sys, q: Occurrence)
    requires Inv(s) && q in s.due && JobOf(q) in s.jobs
    ensures Enabled(s, AddQueueRow(q))
    ensures var t := Apply(s, AddQueueRow(q));
            Inv(t) && q in t.due && JobOf(q) in t.queue && t.schedules == s.schedules && t.recorded == s.recorded
  {
    StepKeeps(s, AddQueueRow(q));
    hide Forward, Bound, Evidence, CatchUp, Advanced, Managed;
  }

  lemma {:induction false} RecordReady(s: Sys, q: Occurrence)
    requires Inv(s) && q in s.due && JobOf(q) in s.queue && q.schedule in s.schedules
    ensures Enabled(s, RecordExecution(q))
    ensures var t := Apply(s, RecordExecution(q));
            Inv(t) && t.schedules == s.schedules && s.recorded <= t.recorded && q in t.recorded
  {
    StepKeeps(s, RecordExecution(q));
    hide Forward, Bound, CatchUp, Advanced, Managed;
  }

  lemma {:induction false} PassesNext(s: Sys, o: Occurrence, at: Time)
    requires Inv(s) && o in s.recorded && Advances(s, Occurrence(o.schedule, at)) && at != o.at
    requires Hits(at, s.schedules[o.schedule].terms.interval, o.at)
    ensures Possible(s, Repetition(o, at)) && Successes(s, Repetition(o, at), o) > 0
  {
    var q := Occurrence(o.schedule, at);
    ReadyToAdvance(s, q);
    hide *;
    var s1 := Apply(s, Read(q.schedule, at));
    var s2 := Apply(s1, CreateJob(q));
    var s3 := Apply(s2, AddQueueRow(q));
    var s4 := Apply(s3, RecordExecution(q));
    CatchesUpThenPasses(s, s4, o, at);
    var last := [Advance(q, o.at - 1)] + [Advance(o, o.at)];
    RunOfFour(s, Read(q.schedule, at), CreateJob(q), AddQueueRow(q), RecordExecution(q), last, o);
    RepetitionIs(o, at);
  }

  lemma {:induction false} RunOfFour(s: Sys, a: Step, b: Step, c: Step, d: Step, rest: seq<Step>, o: Occurrence)
    requires Enabled(s, a) && Enabled(Apply(s, a), b) && Enabled(Apply(Apply(s, a), b), c)
    requires Enabled(Apply(Apply(Apply(s, a), b), c), d)
    requires Possible(Apply(Apply(Apply(Apply(s, a), b), c), d), rest)
    ensures Possible(s, [a, b, c, d] + rest)
    ensures Successes(s, [a, b, c, d] + rest, o) >= Successes(Apply(Apply(Apply(Apply(s, a), b), c), d), rest, o)
  {
    hide *;
    RunOf(Apply(Apply(Apply(s, a), b), c), d, rest, o);
    RunOf(Apply(Apply(s, a), b), c, [d] + rest, o);
    RunOf(Apply(s, a), b, [c] + ([d] + rest), o);
    RunOf(s, a, [b] + ([c] + ([d] + rest)), o);
    assert [a] + ([b] + ([c] + ([d] + rest))) == [a, b, c, d] + rest;
  }

  lemma {:induction false} CatchesUpThenPasses(s: Sys, t: Sys, o: Occurrence, at: Time)
    requires o in s.recorded && Advances(s, Occurrence(o.schedule, at)) && at != o.at
    requires Hits(at, s.schedules[o.schedule].terms.interval, o.at)
    requires Inv(t) && t.schedules == s.schedules && s.recorded <= t.recorded && Occurrence(o.schedule, at) in t.recorded
    ensures var steps := [Advance(Occurrence(o.schedule, at), o.at - 1)] + [Advance(o, o.at)];
            Possible(t, steps) && Successes(t, steps, o) > 0
  {
    var q := Occurrence(o.schedule, at);
    CatchesUpTo(at, s.schedules[o.schedule].terms.interval, o.at);
    assert Enabled(t, Advance(q, o.at - 1));
    StepKeeps(t, Advance(q, o.at - 1));
    var u := Apply(t, Advance(q, o.at - 1));
    assert Advances(u, o) && o in u.recorded;
    hide *;
    PassesNow(u, o);
    RunOf(t, Advance(q, o.at - 1), [Advance(o, o.at)], o);
  }

  lemma {:induction false} RepetitionIs(o: Occurrence, at: Time)
    requires at != o.at
    ensures var q := Occurrence(o.schedule, at);
            Repetition(o, at)
            == [Read(q.schedule, at), CreateJob(q), AddQueueRow(q), RecordExecution(q)] + ([Advance(q, o.at - 1)] + [Advance(o, o.at)])
  {
  }

  // ---------------------------------------------------------------- resuming in time order

  /** A timed resume of the schedule names a time after its last run. */
  predicate LandsAfter(s: Sys, step: Step, id: ScheduleId) {
    step.Resume? && step.id == id && step.at.Some? && id in s.schedules && s.schedules[id].lastRunAt.Some? ==>
      s.schedules[id].lastRunAt.value < step.at.value
  }

  predicate AlwaysAfter(s: Sys, steps: seq<Step>, id: ScheduleId)
    requires Possible(s, steps)
    decreases |steps|
  {
    steps == [] || (LandsAfter(s, steps[0], id) && AlwaysAfter(Apply(s, steps[0]), steps[1..], id))
  }

  /** What the schedule has passed lies up to its last run, and its next run lies after. */
  ghost predicate InOrder(s: Sys, id: ScheduleId) {
    && id !in s.rewound
    && (id in s.schedules ==>
          && (s.schedules[id].lastRunAt.Some? ==> s.schedules[id].lastRunAt.value < s.schedules[id].nextRunAt)
          && (forall o :: o in s.advances && o.schedule == id ==>
                s.schedules[id].lastRunAt.Some? && o.at <= s.schedules[id].lastRunAt.value))
  }

  lemma {:induction false} StepInOrder(s: Sys, step: Step, id: ScheduleId)
    requires Inv(s) && Enabled(s, step) && InOrder(s, id) && LandsAfter(s, step, id)
    ensures InOrder(Apply(s, step), id)
  {
    if step.Advance? && Advances(s, step.o) {
      AdvanceMovesOn(s, step.o, step.now);
      hide Managed, CatchUp, Forward, Bound, Evidence, Repeats;
    } else if Manages(step) {
      ManagedInOrder(s, step, id);
      hide Managed, InOrder;
    } else {
      hide Managed, CatchUp, Advanced, Forward, Bound, Evidence, KeyViolated;
    }
  }

  lemma {:induction false} ManagedInOrder(s: Sys, step: Step, id: ScheduleId)
    requires Inv(s) && Enabled(s, step) && Manages(step) && InOrder(s, id) && LandsAfter(s, step, id)
    ensures InOrder(Managed(s, step), id)
  {
    hide CatchUp, Advanced, Forward, WithoutSchedule;
    forall o | o in s.advances ensures o.schedule in s.created { assert JobOf(o) in s.queue; }
    hide Bound, Evidence;
  }

  lemma {:induction false} RunInOrder(s: Sys, steps: seq<Step>, id: ScheduleId)
    requires Inv(s) && Possible(s, steps) && InOrder(s, id) && AlwaysAfter(s, steps, id)
    ensures Inv(After(s, steps)) && InOrder(After(s, steps), id)
    decreases |steps|
  {
    if steps != [] {
      StepKeeps(s, steps[0]);
      StepInOrder(s, steps[0], id);
      hide Inv, Apply, Enabled, InOrder, LandsAfter;
      RunInOrder(Apply(s, steps[0]), steps[1..], id);
    }
  }

  /** As long as every timed resume of a schedule lands after its last run, as a resume at the
      current time does once the clock has moved on from that run, none of its occurrences is
      passed twice. */
  lemma {:induction false} LaterResumesRepeatNothing(enforced: bool, steps: seq<Step>, o: Occurrence)
    requires Possible(Empty(enforced), steps) && AlwaysAfter(Empty(enforced), steps, o.schedule)
    ensures o.schedule !in After(Empty(enforced), steps).rewound
    ensures Successes(Empty(enforced), steps, o) <= 1
  {
    EmptyInv(enforced);
    assert InOrder(Empty(enforced), o.schedule);
    RunInOrder(Empty(enforced), steps, o.schedule);
    hide Possible, AlwaysAfter, After, Successes;
    ExactlyOnce(Empty(enforced), steps, o);
  }

  /** A second pass after a resume finds the job, the row and the execution of the first. */
  lemma {:induction false} ResumeRepeatsAdvance(s: Sys, o: Occurrence, now: Time)
    requires Inv(s) && o in s.recorded && Advances(s, o)
    ensures var steps := [Advance(o, now), Resume(o.schedule, Some(o.at)), Advance(o, now)];
            && Possible(s, steps) && Successes(s, steps, o) == 2
            && After(s, steps).jobs == s.jobs && After(s, steps).queue == s.queue && After(s, steps).executions == s.executions
  {
    assert TermsOk(s.created[o.schedule]);
    var advance, back := Advance(o, now), Resume(o.schedule, Some(o.at));
    var s1 := Apply(s, advance);
    var s2 := Apply(s1, back);
    var s3 := Apply(s2, advance);
    assert Advances(s2, o) && Enabled(s2, advance);
    assert s3.jobs == s.jobs && s3.queue == s.queue && s3.executions == s.executions;
    assert Possible(s3, []) && After(s3, []) == s3 && Successes(s3, [], o) == 0;
    hide *;
    RunOf(s2, advance, [], o);
    RunOf(s1, back, [advance] + [], o);
    RunOf(s, advance, [back] + ([advance] + []), o);
    assert [advance] + ([back] + ([advance] + [])) == [advance, back, advance];
  }
}
