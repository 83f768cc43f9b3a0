/** The scheduler: the repositories it calls, one transaction a method, and its pass over the due
    schedules. Other schedulers may run between any two transactions. */
module ScanScheduler {
  import opened Common
  import opened ScanSchedule
  import C = ScheduleColumns
  import Q = ScanQueue

  /** An asset; no kind means its asset kind has no collector, and source code is uploaded by
      hand and never scheduled. */
  datatype Asset = Asset(ws: WorkspaceId, enabled: bool, kind: Option<Q.ScanKind>)

  const MAX_BATCH := 1000

  /** What the configuration of a scheduler admits. */
  type BatchSize = n: nat | 1 <= n <= MAX_BATCH witness 100

  predicate Schedulable(asset: Asset) {
    asset.enabled && asset.kind.Some? && !asset.kind.value.Source?
  }

  /** Due schedules come by their next run, then by id. */
  predicate Before(schedules: map<ScheduleId, Schedule>, a: ScheduleId, b: ScheduleId)
    requires a in schedules && b in schedules
  {
    schedules[a].nextRunAt < schedules[b].nextRunAt || (schedules[a].nextRunAt == schedules[b].nextRunAt && a < b)
  }

  ghost predicate IsFirst(schedules: map<ScheduleId, Schedule>, ids: set<ScheduleId>, first: ScheduleId)
    requires ids <= schedules.Keys
  {
    first in ids && forall id :: id in ids && id != first ==> Before(schedules, first, id)
  }

  lemma {:induction false} FirstExists(schedules: map<ScheduleId, Schedule>, ids: set<ScheduleId>)
    requires ids <= schedules.Keys && ids != {}
    ensures exists first :: IsFirst(schedules, ids, first)
  {
    var some :| some in ids;
    if ids == {some} {
      assert IsFirst(schedules, ids, some);
    } else {
      FirstExists(schedules, ids - {some});
      var other :| IsFirst(schedules, ids - {some}, other);
      assert forall id :: id in ids ==> id == some || id in ids - {some};
      if Before(schedules, some, other) {
        forall id | id in ids && id != some ensures Before(schedules, some, id) {
          assert id == other || Before(schedules, other, id);
        }
        assert IsFirst(schedules, ids, some);
      } else {
        assert IsFirst(schedules, ids, other);
      }
    }
  }

  /** A batch of due schedules as they were read. */
  datatype Due = Due(id: ScheduleId, schedule: Schedule)

  predicate InBatch(batch: seq<Due>, id: ScheduleId) { exists i :: 0 <= i < |batch| && batch[i].id == id }

  ghost predicate AllDue(schedules: map<ScheduleId, Schedule>, now: Time, batch: seq<Due>) {
    forall i :: 0 <= i < |batch| ==>
      batch[i].id in schedules && batch[i].schedule == schedules[batch[i].id] && IsDue(batch[i].schedule, now)
  }

  /** The earliest due schedules, in order; a due schedule is left out only when the batch is
      full and everything in it comes before. */
  ghost predicate IsBatch(schedules: map<ScheduleId, Schedule>, now: Time, limit: nat, batch: seq<Due>) {
    && |batch| <= limit && AllDue(schedules, now, batch)
    && (forall i, k :: 0 <= i < k < |batch| ==> Before(schedules, batch[i].id, batch[k].id))
    && (forall id :: id in schedules && IsDue(schedules[id], now) && !InBatch(batch, id) ==>
          |batch| == limit && forall i :: 0 <= i < |batch| ==> Before(schedules, batch[i].id, id))
  }

  /** What a pass that nobody disturbs leaves of one due schedule: an asset that cannot be
      scheduled pauses it; otherwise its occurrence is enqueued and recorded and its next run
      is caught up. */
  ghost predicate Served(s: Sys, assets: map<AssetId, Asset>, due: Due, now: Time)
    requires due.schedule.terms.interval > 0
  {
    var terms, o := due.schedule.terms, Occurrence(due.id, due.schedule.nextRunAt);
    due.id in s.schedules &&
    if !(terms.asset in assets && assets[terms.asset].ws == terms.ws) then s.schedules[due.id] == due.schedule
    else if !Schedulable(assets[terms.asset]) then s.schedules[due.id] == due.schedule.(enabled := false)
    else
      && s.schedules[due.id] == due.schedule.(nextRunAt := CatchUp(o.at, terms.interval, now), lastRunAt := Some(o.at))
      && JobOf(o) in s.jobs && s.jobs[JobOf(o)] == WorkOf(terms)
      && JobOf(o) in s.queue && s.queue[JobOf(o)] == terms.maxAttempts
      && o in s.recorded && o in s.executions && s.executions[o] == JobOf(o)
  }

  predicate Serves(assets: map<AssetId, Asset>, due: Due) {
    var terms := due.schedule.terms;
    terms.asset in assets && assets[terms.asset].ws == terms.ws && Schedulable(assets[terms.asset])
  }

  class ScheduleDatabase {
    const assets: map<AssetId, Asset>
    const enforced: bool
    var schedules: map<ScheduleId, Schedule>
    var jobs: map<JobId, Work>
    var queue: map<JobId, nat>
    var executions: map<Occurrence, JobId>
    ghost var created: map<ScheduleId, Terms>
    ghost var due: set<Occurrence>
    ghost var recorded: set<Occurrence>
    ghost var advances: map<Occurrence, nat>
    ghost var rewound: set<ScheduleId>

    constructor (assets: map<AssetId, Asset>, enforced: bool)
      ensures S() == Empty(enforced) && Valid() && this.assets == assets
    {
      this.assets, this.enforced := assets, enforced;
      schedules, jobs, queue, executions := map[], map[], map[], map[];
      created, due, recorded, advances, rewound := map[], {}, {}, map[], {};
      new;
      EmptyInv(enforced);
    }

    ghost function S(): Sys
      reads this
    {
      Sys(enforced, schedules, jobs, queue, executions, created, due, recorded, advances, rewound)
    }

    lemma {:induction false} SchedulesOfS()
      ensures S().schedules == schedules
    {
    }

    /** The invariant, and every schedule scans its asset with the asset's scan kind. */
    ghost predicate Valid()
      reads this
    {
      Inv(S()) && KindsMatch(S(), assets)
    }

    /** Other schedulers, pauses, resumes and deletions take any number of steps: `OthersGrow`
        shows that every such run stays within this contract. */
    method Yield(ghost alone: bool)
      requires Valid()
      modifies this
      ensures Valid() && Grows(old(S()), S())
      ensures alone ==> S() == old(S())
    {
    }

    /** One transaction: the due schedules, earliest first, at most `limit`. */
    method ListDueSchedules(now: Time, limit: int) returns (r: Result<seq<Due>>)
      requires Valid()
      modifies this`due
      ensures Valid() && Grows(old(S()), S()) && S() == old(S()).(due := due)
      ensures r.Ok? <==> 1 <= limit <= MAX_BATCH
      ensures r.Ok? ==> IsBatch(schedules, now, limit, r.value) && AllKnown(S(), r.value)
      ensures r.Err? ==> r.error == ValueError && due == old(due)
    {
      if !(1 <= limit <= MAX_BATCH) {
        GrowsItself(S());
        return Err(ValueError);
      }
      var batch := SelectDue(now, limit);
      ReadAll(now, batch);
      r := Ok(batch);
    }

    method SelectDue(now: Time, limit: nat) returns (batch: seq<Due>)
      ensures IsBatch(schedules, now, limit, batch)
    {
      batch := [];
      var left := set id | id in schedules && IsDue(schedules[id], now);
      ghost var all := left;
      while left != {} && |batch| < limit
        invariant left <= all && |batch| <= limit && AllDue(schedules, now, batch)
        invariant forall i, k :: 0 <= i < k < |batch| ==> Before(schedules, batch[i].id, batch[k].id)
        invariant forall i, id :: 0 <= i < |batch| && id in left ==> Before(schedules, batch[i].id, id)
        invariant forall id :: id in all && id !in left ==> InBatch(batch, id)
        decreases |left|
      {
        FirstExists(schedules, left);
        var first :| first in left && forall id :: id in left && id != first ==> Before(schedules, first, id);
        InBatchGrows(batch, Due(first, schedules[first]));
        hide InBatch;
        batch := batch + [Due(first, schedules[first])];
        left := left - {first};
      }
    }

    /** Notes the occurrences a batch has read as due. */
    ghost method ReadAll(now: Time, batch: seq<Due>)
      requires Valid() && AllDue(schedules, now, batch)
      modifies this`due
      ensures Valid() && Grows(old(S()), S()) && AllKnown(S(), batch)
    {
      hide Inv, KindsMatch, Grows, Known, AllKnown, IsDue;
      GrowsItself(S());
      NoneKnown(S(), batch);
      for n := 0 to |batch|
        invariant Valid() && Grows(old(S()), S()) && AllKnown(S(), batch[..n])
      {
        ghost var s := S();
        ReadOne(s, assets, batch[n], now);
        due := due + {Occurrence(batch[n].id, batch[n].schedule.nextRunAt)};
        GrowsTransitive(old(S()), s, S());
        StillAllKnown(s, S(), batch[..n]);
        KnownOneMore(S(), batch, n);
      }
      assert batch[..|batch|] == batch;
    }

    // -------------------------------------------------------------- one transaction each

    method CreateScanJob(o: Occurrence, work: Work, ghost terms: Terms) returns (r: Result<JobId>)
      requires Valid() && Known(S(), o, terms) && work == WorkOf(terms)
      modifies this`jobs
      ensures Valid() && S() == Did(old(S()), CreateJob(o)) && Grows(old(S()), S())
      ensures r == Ok(JobOf(o)) && HasJob(S(), o)
    {
      ghost var s := S();
      RefusedExactlyWhenDeleted(s, CreateJob(o));
      StepKeeps(s, CreateJob(o));
      StepGrows(s, CreateJob(o));
      hide Inv, Grows;
      var id := JobOf(o);
      if id in jobs {
        if jobs[id] != work { return Err(ValueError); }
      } else {
        jobs := jobs[id := work];
      }
      r := Ok(id);
    }

    method AddToQueue(o: Occurrence, terms: Terms) returns (r: Result<JobId>)
      requires Valid() && Known(S(), o, terms) && HasJob(S(), o)
      modifies this`queue
      ensures Valid() && S() == Did(old(S()), AddQueueRow(o)) && Grows(old(S()), S())
      ensures r == Ok(JobOf(o)) && HasRow(S(), o)
    {
      ghost var s := S();
      RefusedExactlyWhenDeleted(s, AddQueueRow(o));
      StepKeeps(s, AddQueueRow(o));
      StepGrows(s, AddQueueRow(o));
      hide Inv, Grows;
      var id := JobOf(o);
      if id in queue {
        if queue[id] != terms.maxAttempts { return Err(ValueError); }
      } else {
        queue := queue[id := terms.maxAttempts];
      }
      r := Ok(id);
    }

    /** Creates the job, then its queue row: two transactions. */
    method Enqueue(o: Occurrence, work: Work, terms: Terms, ghost alone: bool) returns (r: Result<JobId>)
      requires Valid() && Known(S(), o, terms) && work == WorkOf(terms)
      modifies this
      ensures Valid() && Grows(old(S()), S()) && Known(S(), o, terms) && HasRow(S(), o)
      ensures r == Ok(JobOf(o))
      ensures alone ==> S() == Did(Did(old(S()), CreateJob(o)), AddQueueRow(o))
    {
      hide *;
      ghost var s := S();
      r := CreateScanJob(o, work, terms);
      ghost var s1 := S();
      Yield(alone);
      ghost var t1 := S();
      StillKnown(s, s1, o, terms);
      StillKnown(s1, t1, o, terms);
      r := AddToQueue(o, terms);
      StillKnown(t1, S(), o, terms);
      GrowsTransitive(s, s1, t1);
      GrowsTransitive(s, t1, S());
    }

    /** Binds the occurrence to its job, once. A schedule deleted in the meantime makes the
        insertion violate an enforced foreign key, and then there is no row to fall back on. */
    method RecordScheduledExecution(o: Occurrence, job: JobId) returns (r: Result<bool>)
      requires Valid() && o in S().due && job == JobOf(o) && HasRow(S(), o)
      modifies this`executions, this`recorded
      ensures Valid() && S() == Did(old(S()), RecordExecution(o)) && Grows(old(S()), S())
      ensures r == if enforced && o.schedule !in schedules then Err(IntegrityError) else Ok(o !in old(executions))
      ensures r.Ok? ==> HasRecord(S(), o) && o in executions && executions[o] == job
    {
      ghost var s := S();
      RefusedExactlyWhenDeleted(s, RecordExecution(o));
      StepKeeps(s, RecordExecution(o));
      StepGrows(s, RecordExecution(o));
      StaysRecorded(s, o);
      hide Inv, Grows, Managed, Advanced;
      if o in executions {
        if executions[o] != job { return Err(RuntimeError); }
        return Ok(false);
      }
      if enforced && o.schedule !in schedules { return Err(IntegrityError); }
      executions := executions[o := job];
      recorded := recorded + {o};
      r := Ok(true);
    }

    /** Compare-and-set of the next run: succeeds for at most one scheduler. */
    method AdvanceSchedule(o: Occurrence, terms: Terms, now: Time) returns (advanced: bool)
      requires Valid() && HasRecord(S(), o) && Known(S(), o, terms)
      modifies this`schedules, this`advances
      ensures Valid() && S() == Did(old(S()), Advance(o, now)) && Grows(old(S()), S())
      ensures advanced == Advances(old(S()), o)
    {
      ghost var s := S();
      AdvanceIsEnabled(s, o, terms, now);
      var nextRun := FindNextRun(o.at, terms.interval, now);
      DidAdvance(s, o, terms, now, nextRun);
      hide Did, Apply, Enabled, Inv, Grows, CatchUp, HasRecord, Known;
      advanced := o.schedule in schedules && schedules[o.schedule].enabled && schedules[o.schedule].nextRunAt == o.at;
      if advanced {
        advances := advances[o := Times(s, o) + 1];
        schedules := schedules[o.schedule := schedules[o.schedule].(nextRunAt := nextRun, lastRunAt := Some(o.at))];
      }
    }

    /** Deletes a schedule; under enforced foreign keys the cascade takes its executions along. */
    method DeleteSchedule(id: ScheduleId) returns (r: Result<bool>)
      requires Valid()
      modifies this`schedules, this`executions
      ensures Valid() && S() == Apply(old(S()), Delete(id)) && Grows(old(S()), S())
      ensures r == if id in old(schedules) then Ok(true) else Err(LookupError)
      ensures id !in schedules && (enforced ==> forall o :: o in executions ==> o.schedule != id)
    {
      ghost var s := S();
      StepKeeps(s, Delete(id));
      StepGrows(s, Delete(id));
      AbsentHasNoExecutions(s, id);
      hide Inv, Grows, Progressed, Repeats;
      if id !in schedules { return Err(LookupError); }
      schedules := schedules - {id};
      if enforced { executions := WithoutSchedule(executions, id); }
      r := Ok(true);
    }

    /** One transaction: the update of a schedule's row, if there is one. */
    method UpdateEnabled(id: ScheduleId, enabled: bool, resumeAt: Option<Time>) returns (found: bool)
      requires Valid()
      modifies this`schedules, this`rewound
      ensures Valid() && Grows(old(S()), S())
      ensures S() == Apply(old(S()), if enabled then Resume(id, resumeAt) else Pause(id))
      ensures found == (id in old(schedules)) && found == (id in schedules)
    {
      ghost var s := S();
      StepKeeps(s, if enabled then Resume(id, resumeAt) else Pause(id));
      StepGrows(s, if enabled then Resume(id, resumeAt) else Pause(id));
      hide Inv, Grows, Progressed, Repeats;
      found := id in schedules;
      if !found { return; }
      var row := schedules[id].(enabled := enabled);
      if enabled && resumeAt.Some? {
        row := row.(nextRunAt := resumeAt.value);
        if Repeats(s, id, resumeAt.value) { rewound := rewound + {id}; }
      }
      schedules := schedules[id := row];
    }

    /** Updates the row and reads it again, in two transactions: an unknown schedule is refused,
        and so is one that is deleted in between. */
    method SetScheduleEnabled(id: ScheduleId, enabled: bool, resumeAt: Option<Time>, ghost alone: bool)
      returns (r: Result<Schedule>)
      requires Valid()
      modifies this
      ensures Valid() && Grows(old(S()), S())
      ensures r == if id in schedules then Ok(schedules[id])
                   else if id in old(schedules) then Err(RuntimeError) else Err(LookupError)
      ensures alone ==> S() == Apply(old(S()), if enabled then Resume(id, resumeAt) else Pause(id))
      ensures alone ==> (r.Ok? <==> id in old(schedules))
    {
      ghost var s := S();
      var found := UpdateEnabled(id, enabled, resumeAt);
      hide Inv, Grows, Apply, KindsMatch;
      if !found { return Err(LookupError); }
      ghost var t := S();
      Yield(alone);
      GrowsTransitive(s, t, S());
      if id !in schedules { return Err(RuntimeError); }
      r := Ok(schedules[id]);
    }
  }

  class ScanScheduler {
    const db: ScheduleDatabase
    const batchSize: BatchSize

    constructor (db: ScheduleDatabase, batchSize: BatchSize)
      ensures this.db == db && this.batchSize == batchSize
    {
      this.db, this.batchSize := db, batchSize;
    }

    /** The transactions for an occurrence that can be scheduled. They fail exactly when the
        schedule has been deleted before its execution could be recorded. */
    method EnqueueAndAdvance(o: Occurrence, work: Work, terms: Terms, now: Time, ghost alone: bool) returns (r: Result<bool>)
      requires db.Valid() && Known(db.S(), o, terms) && work == WorkOf(terms)
      modifies db
      ensures db.Valid() && Grows(old(db.S()), db.S())
      ensures r.Ok? ==> HasRecord(db.S(), o)
      ensures r.Err? ==> r.error == IntegrityError && db.enforced && o.schedule !in db.schedules && HasRow(db.S(), o)
      ensures alone && o.schedule in old(db.schedules) ==>
                db.S() == AllDone(old(db.S()), o, now) && r == Ok(Advances(old(db.S()), o))
    {
      ghost var s := db.S();
      assert AllDone(s, o, now) == Did(Did(Did(Did(s, CreateJob(o)), AddQueueRow(o)), RecordExecution(o)), Advance(o, now));
      hide *;
      var job := db.Enqueue(o, work, terms, alone);
      ghost var s2 := db.S();
      db.Yield(alone);
      ghost var t2 := db.S();
      StillKnown(s2, t2, o, terms);
      if alone { SchedulesStayTwice(s, o); }
      var recorded := db.RecordScheduledExecution(o, job.value);
      ghost var s3 := db.S();
      StillKnown(t2, s3, o, terms);
      GrowsThrice(s, s2, t2, s3);
      if recorded.Err? { return Err(recorded.error); }
      db.Yield(alone);
      ghost var t3 := db.S();
      StillKnown(s3, t3, o, terms);
      var advanced := db.AdvanceSchedule(o, terms, now);
      r := Ok(advanced);
      StillKnown(t3, db.S(), o, terms);
      AdvancesAlike(s, o);
      GrowsThrice(s, s3, t3, db.S());
    }

    /** One due schedule, after others have run: enqueue its occurrence, record the execution,
        advance the schedule. The result tells whether this scheduler's advance succeeded; a call is refused only after the
        schedule was deleted. */
    method Serve(due: Due, now: Time, ghost alone: bool) returns (r: Result<bool>)
      requires db.Valid() && Known(db.S(), Occurrence(due.id, due.schedule.nextRunAt), due.schedule.terms)
      requires alone ==> due.id in db.schedules && db.schedules[due.id] == due.schedule && due.schedule.enabled
      modifies db
      ensures db.Valid() && Grows(old(db.S()), db.S())
      ensures r.Ok? ==> (r.value ==> Serves(db.assets, due))
                        && (Serves(db.assets, due) ==> HasRecord(db.S(), Occurrence(due.id, due.schedule.nextRunAt)))
      ensures r.Err? ==> due.id !in db.schedules
      ensures r.Err? ==> if Serves(db.assets, due) then r.error == IntegrityError && db.enforced else r.error in {LookupError, RuntimeError}
      ensures due.schedule.terms.interval > 0
      ensures alone ==>
                && Served(db.S(), db.assets, due, now) && r == Ok(Serves(db.assets, due))
                && db.schedules == old(db.schedules)[due.id := db.schedules[due.id]]
    {
      var terms, o := due.schedule.terms, Occurrence(due.id, due.schedule.nextRunAt);
      ghost var before := db.S();
      db.Yield(alone);
      ghost var s := db.S();
      StillKnown(before, s, o, terms);
      assert TermsOk(db.created[due.id]);
      if terms.asset in db.assets && db.assets[terms.asset].kind.Some? {
        assert terms.kind == db.assets[terms.asset].kind.value;
      }
      if alone && Serves(db.assets, due) { AllDoneServes(s, db.assets, due, now); }
      hide Inv, KindsMatch, AllDone, CatchUp, Progressed, HasRecord, Grows;
      if terms.asset !in db.assets || db.assets[terms.asset].ws != terms.ws {
        return Ok(false);
      }
      var asset := db.assets[terms.asset];
      if !asset.enabled || asset.kind.None? || asset.kind.value.Source? {
        var paused := db.SetScheduleEnabled(due.id, false, None, alone);
        GrowsTransitive(before, s, db.S());
        return if paused.Ok? then Ok(false) else Err(paused.error);
      }
      r := EnqueueAndAdvance(o, Work(terms.ws, terms.asset, asset.kind.value), terms, now, alone);
      GrowsTransitive(before, s, db.S());
    }

    /** One pass over the due schedules. Undisturbed, it serves every schedule of the batch,
        leaves all others alone, and returns how many occurrences it enqueued and passed.
        Disturbed, it stops at a schedule that was deleted after the batch was read, with the
        occurrences before it recorded; otherwise it records them all. */
    method RunOnce(now: Time, ghost alone: bool) returns (r: Result<nat>, ghost batch: seq<Due>)
      requires db.Valid()
      modifies db
      ensures db.Valid() && Grows(old(db.S()), db.S())
      ensures IsBatch(old(db.schedules), now, batchSize, batch)
      ensures r.Ok? ==> r.value <= Servable(db.assets, batch) && AllRecorded(db.S(), db.assets, batch)
      ensures r.Err? ==> exists n :: StoppedAt(db.S(), db.assets, batch, n)
      ensures alone ==>
                && r == Ok(Servable(db.assets, batch))
                && AllServed(db.S(), db.assets, batch, now)
                && SameElsewhere(old(db.schedules), db.schedules, batch)
    {
      var enqueued := 0;
      ghost var s, before := db.S(), db.schedules;
      var due := db.ListDueSchedules(now, batchSize);
      var list := due.value;
      batch := list;
      NothingServed(db.S(), db.assets, list, now);
      assert list[..0] == [] && list[..|list|] == list;
      for n := 0 to |list|
        invariant db.Valid() && Grows(s, db.S()) && AllKnown(db.S(), list)
        invariant enqueued <= Servable(db.assets, list[..n]) && AllRecorded(db.S(), db.assets, list[..n])
        invariant alone ==> enqueued == Servable(db.assets, list[..n])
        invariant alone ==> AllServed(db.S(), db.assets, list[..n], now) && SameElsewhere(before, db.schedules, list[..n])
      {
        ghost var t := db.S();
        KnownAt(t, list, n);
        if alone { NotYetServed(before, db.schedules, now, batchSize, list, n); }
        hide *;
        db.SchedulesOfS();
        var advanced := Serve(list[n], now, alone);
        db.SchedulesOfS();
        StillAllKnown(t, db.S(), list);
        GrowsTransitive(s, t, db.S());
        StillRecorded(t, db.S(), db.assets, list[..n]);
        if advanced.Err? {
          ItStopped(db.S(), db.assets, list, n);
          return Err(advanced.error), batch;
        }
        RecordedOneMore(db.S(), db.assets, list, n);
        ServableOneMore(db.assets, list, n);
        if alone { ServedOneMore(before, t, db.S(), db.assets, list, n, now, batchSize); }
        if advanced.value { enqueued := enqueued + 1; }
      }
      r := Ok(enqueued);
    }
  }

  /** One run of a schedule is due no later than the other, the smaller id first on a tie. */
  predicate NotLater(at: Time, id: ScheduleId, other: Time, otherId: ScheduleId) {
    at < other || (at == other && id < otherId)
  }

  /** A batch holds enabled schedules whose time has come, by their times and then by their ids;
      one that is enabled and whose time has come is left out only when the batch is full and it
      comes after all of it. */
  lemma {:induction false} BatchIsEarliest(schedules: map<ScheduleId, Schedule>, now: Time, limit: nat, batch: seq<Due>)
    requires IsBatch(schedules, now, limit, batch)
    ensures |batch| <= limit
    ensures forall i :: 0 <= i < |batch| ==>
              && batch[i].id in schedules && batch[i].schedule == schedules[batch[i].id]
              && batch[i].schedule.enabled && batch[i].schedule.nextRunAt <= now
    ensures forall i, k :: 0 <= i < k < |batch| ==>
              NotLater(batch[i].schedule.nextRunAt, batch[i].id, batch[k].schedule.nextRunAt, batch[k].id)
    ensures forall id :: id in schedules && schedules[id].enabled && schedules[id].nextRunAt <= now
                         && (forall i :: 0 <= i < |batch| ==> batch[i].id != id) ==>
              && |batch| == limit
              && forall i :: 0 <= i < |batch| ==> NotLater(batch[i].schedule.nextRunAt, batch[i].id, schedules[id].nextRunAt, id)
  {
    forall id | id in schedules && schedules[id].enabled && schedules[id].nextRunAt <= now
                && (forall i :: 0 <= i < |batch| ==> batch[i].id != id)
      ensures |batch| == limit && forall i :: 0 <= i < |batch| ==> Before(schedules, batch[i].id, id)
    {
      assert IsDue(schedules[id], now) && !InBatch(batch, id);
    }
  }

  /** The asset a schedule scans can be scanned: it is there, in the schedule's workspace, enabled,
      and has a collector that is not an upload of source code. */
  predicate CanScan(assets: map<AssetId, Asset>, terms: Terms) {
    && terms.asset in assets && assets[terms.asset].ws == terms.ws && assets[terms.asset].enabled
    && assets[terms.asset].kind.Some? && assets[terms.asset].kind != Some(Q.Source)
  }

  /** What serving a due schedule undisturbed leaves: its occurrence has its job, queue row and
      execution and the schedule stands at the next slot after now; if its asset cannot be scanned
      the schedule is paused, unless the asset is gone or belongs to another workspace. */
  lemma {:induction false} ServedExactly(s: Sys, assets: map<AssetId, Asset>, due: Due, now: Time)
    requires due.schedule.terms.interval > 0 && Served(s, assets, due, now)
    ensures due.id in s.schedules
    ensures var row, terms, at := s.schedules[due.id], due.schedule.terms, due.schedule.nextRunAt;
            var id := Scheduled(due.id, at);
            if CanScan(assets, terms) then
              && C.SameBut(due.schedule, row, due.schedule.enabled, row.nextRunAt, Some(at))
              && C.NextSlot(at, terms.interval, now, row.nextRunAt)
              && id in s.jobs && s.jobs[id] == Work(terms.ws, terms.asset, terms.kind)
              && id in s.queue && s.queue[id] == terms.maxAttempts
              && Occurrence(due.id, at) in s.executions && s.executions[Occurrence(due.id, at)] == id
            else
              C.SameBut(due.schedule, row, due.schedule.enabled && !(terms.asset in assets && assets[terms.asset].ws == terms.ws),
                        at, due.schedule.lastRunAt)
  {
    C.SlotIsNext(due.schedule.nextRunAt, due.schedule.terms.interval, now);
    hide CatchUp, C.NextSlot;
  }

  /** The occurrences of the schedules that can be scheduled are all recorded. */
  ghost predicate AllRecorded(s: Sys, assets: map<AssetId, Asset>, batch: seq<Due>) {
    forall i :: 0 <= i < |batch| && Serves(assets, batch[i]) ==>
      HasRecord(s, Occurrence(batch[i].id, batch[i].schedule.nextRunAt))
  }

  /** A pass has ended at a schedule of its batch that is gone. */
  ghost predicate StoppedAt(s: Sys, assets: map<AssetId, Asset>, batch: seq<Due>, n: nat) {
    n < |batch| && batch[n].id !in s.schedules && AllRecorded(s, assets, batch[..n])
  }

  lemma {:induction false} ItStopped(s: Sys, assets: map<AssetId, Asset>, batch: seq<Due>, n: nat)
    requires n < |batch| && batch[n].id !in s.schedules && AllRecorded(s, assets, batch[..n])
    ensures exists m :: StoppedAt(s, assets, batch, m)
  {
    assert StoppedAt(s, assets, batch, n);
  }

  lemma {:induction false} StillRecorded(s: Sys, t: Sys, assets: map<AssetId, Asset>, batch: seq<Due>)
    requires AllRecorded(s, assets, batch) && Grows(s, t)
    ensures AllRecorded(t, assets, batch)
  {
  }

  lemma {:induction false} RecordedOneMore(s: Sys, assets: map<AssetId, Asset>, batch: seq<Due>, n: nat)
    requires n < |batch| && AllRecorded(s, assets, batch[..n])
    requires Serves(assets, batch[n]) ==> HasRecord(s, Occurrence(batch[n].id, batch[n].schedule.nextRunAt))
    ensures AllRecorded(s, assets, batch[..n + 1])
  {
    hide Serves, HasRecord;
    assert batch[..n + 1] == batch[..n] + [batch[n]];
  }

  /** How many schedules of a batch can be scheduled. */
  function Servable(assets: map<AssetId, Asset>, batch: seq<Due>): nat {
    if batch == [] then 0
    else Servable(assets, batch[..|batch| - 1]) + if Serves(assets, batch[|batch| - 1]) then 1 else 0
  }

  ghost predicate AllServed(s: Sys, assets: map<AssetId, Asset>, batch: seq<Due>, now: Time) {
    forall i :: 0 <= i < |batch| ==> batch[i].schedule.terms.interval > 0 && Served(s, assets, batch[i], now)
  }

  predicate SameElsewhere(before: map<ScheduleId, Schedule>, after: map<ScheduleId, Schedule>, batch: seq<Due>) {
    before.Keys == after.Keys && forall id :: id in before && !InBatch(batch, id) ==> after[id] == before[id]
  }

  /** Every occurrence of the batch has been read as due. */
  ghost predicate AllKnown(s: Sys, batch: seq<Due>) {
    forall i :: 0 <= i < |batch| ==>
      Known(s, Occurrence(batch[i].id, batch[i].schedule.nextRunAt), batch[i].schedule.terms)
  }

  lemma {:induction false} NoneKnown(s: Sys, batch: seq<Due>)
    ensures AllKnown(s, batch[..0])
  {
  }

  lemma {:induction false} KnownOneMore(s: Sys, batch: seq<Due>, n: nat)
    requires n < |batch| && AllKnown(s, batch[..n])
    requires Known(s, Occurrence(batch[n].id, batch[n].schedule.nextRunAt), batch[n].schedule.terms)
    ensures AllKnown(s, batch[..n + 1])
  {
    hide Known;
    assert batch[..n + 1] == batch[..n] + [batch[n]];
  }

  lemma {:induction false} ReadOne(s: Sys, assets: map<AssetId, Asset>, due: Due, now: Time)
    requires Inv(s) && KindsMatch(s, assets)
    requires due.id in s.schedules && due.schedule == s.schedules[due.id] && IsDue(due.schedule, now)
    ensures var o := Occurrence(due.id, due.schedule.nextRunAt);
            var t := s.(due := s.due + {o});
            Inv(t) && KindsMatch(t, assets) && Grows(s, t) && Known(t, o, due.schedule.terms)
  {
    StepKeeps(s, Read(due.id, now));
    StepGrows(s, Read(due.id, now));
    hide Inv, Grows, Managed, Advanced;
    assert due.id in s.created && s.created[due.id] == due.schedule.terms by { KnownTerms(s, due.id); }
  }

  lemma {:induction false} KnownTerms(s: Sys, id: ScheduleId)
    requires Inv(s) && id in s.schedules
    ensures id in s.created && s.created[id] == s.schedules[id].terms
  {
  }

  lemma {:induction false} KnownAt(s: Sys, batch: seq<Due>, n: nat)
    requires AllKnown(s, batch) && n < |batch|
    ensures Known(s, Occurrence(batch[n].id, batch[n].schedule.nextRunAt), batch[n].schedule.terms)
  {
  }

  lemma {:induction false} StillAllKnown(s: Sys, t: Sys, batch: seq<Due>)
    requires AllKnown(s, batch) && Grows(s, t)
    ensures AllKnown(t, batch)
  {
  }

  lemma {:induction false} NothingServed(s: Sys, assets: map<AssetId, Asset>, batch: seq<Due>, now: Time)
    ensures AllServed(s, assets, batch[..0], now) && SameElsewhere(s.schedules, s.schedules, batch[..0])
    ensures Servable(assets, batch[..0]) == 0
  {
  }

  lemma {:induction false} NotYetServed(before: map<ScheduleId, Schedule>, after: map<ScheduleId, Schedule>, now: Time, limit: nat,
                                        batch: seq<Due>, n: nat)
    requires IsBatch(before, now, limit, batch) && n < |batch| && SameElsewhere(before, after, batch[..n])
    ensures batch[n].id in after && after[batch[n].id] == batch[n].schedule && batch[n].schedule.enabled
  {
    assert !InBatch(batch[..n], batch[n].id) by {
      forall i | 0 <= i < n ensures batch[..n][i].id != batch[n].id {
        assert Before(before, batch[i].id, batch[n].id);
      }
    }
  }

  lemma {:induction false} ServableOneMore(assets: map<AssetId, Asset>, batch: seq<Due>, n: nat)
    requires n < |batch|
    ensures Servable(assets, batch[..n + 1]) == Servable(assets, batch[..n]) + if Serves(assets, batch[n]) then 1 else 0
  {
    assert batch[..n + 1][..n] == batch[..n];
  }

  /** Serving one schedule more leaves the schedules served before as they are. */
  lemma {:induction false} ServedOneMore(before: map<ScheduleId, Schedule>, s: Sys, t: Sys, assets: map<AssetId, Asset>,
                                         batch: seq<Due>, n: nat, now: Time, limit: nat)
    requires IsBatch(before, now, limit, batch) && n < |batch|
    requires AllServed(s, assets, batch[..n], now) && SameElsewhere(before, s.schedules, batch[..n])
    requires batch[n].schedule.terms.interval > 0 && Served(t, assets, batch[n], now)
    requires Grows(s, t) && batch[n].id in s.schedules && t.schedules == s.schedules[batch[n].id := t.schedules[batch[n].id]]
    ensures AllServed(t, assets, batch[..n + 1], now) && SameElsewhere(before, t.schedules, batch[..n + 1])
  {
    assert batch[n].id in t.schedules;
    ServedBefore(before, s, t, assets, batch, n, now, limit);
    assert batch[..n + 1] == batch[..n] + [batch[n]];
    hide *;
    ServedAppend(t, assets, batch[..n], batch[n], now);
    ElsewhereAppend(before, s.schedules, t.schedules, batch[..n], batch[n]);
  }

  lemma {:induction false} ServedAppend(s: Sys, assets: map<AssetId, Asset>, batch: seq<Due>, due: Due, now: Time)
    requires AllServed(s, assets, batch, now) && due.schedule.terms.interval > 0 && Served(s, assets, due, now)
    ensures AllServed(s, assets, batch + [due], now)
  {
    hide Served;
  }

  lemma {:induction false} ElsewhereAppend(before: map<ScheduleId, Schedule>, s: map<ScheduleId, Schedule>, t: map<ScheduleId, Schedule>,
                                           batch: seq<Due>, due: Due)
    requires SameElsewhere(before, s, batch) && due.id in t && t == s[due.id := t[due.id]] && due.id in s
    ensures SameElsewhere(before, t, batch + [due])
  {
    InBatchGrows(batch, due);
    hide InBatch;
  }

  lemma {:induction false} ServedBefore(before: map<ScheduleId, Schedule>, s: Sys, t: Sys, assets: map<AssetId, Asset>,
                                        batch: seq<Due>, n: nat, now: Time, limit: nat)
    requires IsBatch(before, now, limit, batch) && n < |batch| && AllServed(s, assets, batch[..n], now)
    requires Grows(s, t) && batch[n].id in t.schedules && t.schedules == s.schedules[batch[n].id := t.schedules[batch[n].id]]
    ensures AllServed(t, assets, batch[..n], now)
  {
    forall i | 0 <= i < n ensures batch[i].schedule.terms.interval > 0 && Served(t, assets, batch[i], now) {
      assert batch[..n][i] == batch[i];
      assert Before(before, batch[i].id, batch[n].id);
      assert batch[i].id in s.schedules;
      hide IsBatch, Grows;
      StillServed(s, t, assets, batch[i], now);
    }
  }

  lemma {:induction false} StillServed(s: Sys, t: Sys, assets: map<AssetId, Asset>, due: Due, now: Time)
    requires due.schedule.terms.interval > 0 && Served(s, assets, due, now) && Grows(s, t)
    requires due.id in t.schedules && t.schedules[due.id] == s.schedules[due.id]
    ensures Served(t, assets, due, now)
  {
    hide CatchUp;
  }

  // ---------------------------------------------------------------- one scheduler's steps

  /** An occurrence that a scheduler has read as due, under the terms of its schedule. */
  ghost predicate Known(s: Sys, o: Occurrence, terms: Terms) {
    o in s.due && o.schedule in s.created && s.created[o.schedule] == terms
  }

  ghost predicate HasJob(s: Sys, o: Occurrence) { JobOf(o) in s.jobs }

  ghost predicate HasRow(s: Sys, o: Occurrence) { JobOf(o) in s.queue }

  ghost predicate HasRecord(s: Sys, o: Occurrence) { o in s.recorded }

  function Did(s: Sys, step: Step): Sys { if Enabled(s, step) then Apply(s, step) else s }

  /** The four transactions of one scheduler with nothing in between. */
  function AllDone(s: Sys, o: Occurrence, now: Time): Sys {
    Did(Did(Did(Did(s, CreateJob(o)), AddQueueRow(o)), RecordExecution(o)), Advance(o, now))
  }

  lemma {:induction false} AdvanceIsEnabled(s: Sys, o: Occurrence, terms: Terms, now: Time)
    requires Inv(s) && HasRecord(s, o) && Known(s, o, terms)
    ensures Enabled(s, Advance(o, now)) && terms.interval > 0
    ensures o.schedule in s.schedules ==> s.schedules[o.schedule].terms == terms
  {
    assert TermsOk(s.created[o.schedule]);
  }

  lemma {:induction false} DidAdvance(s: Sys, o: Occurrence, terms: Terms, now: Time, nextRun: Time)
    requires Inv(s) && HasRecord(s, o) && Known(s, o, terms)
    requires terms.interval > 0 && nextRun == CatchUp(o.at, terms.interval, now)
    ensures var t := Did(s, Advance(o, now));
            && Inv(t) && Grows(s, t)
            && t == if Advances(s, o) then
                      s.(schedules := s.schedules[o.schedule := s.schedules[o.schedule].(nextRunAt := nextRun, lastRunAt := Some(o.at))],
                         advances := s.advances[o := Times(s, o) + 1])
                    else s
  {
    AdvanceIsEnabled(s, o, terms, now);
    StepKeeps(s, Advance(o, now));
    StepGrows(s, Advance(o, now));
    hide Inv, Grows, CatchUp;
  }

  lemma {:induction false} AdvancesAlike(s: Sys, o: Occurrence)
    ensures Advances(Did(Did(Did(s, CreateJob(o)), AddQueueRow(o)), RecordExecution(o)), o) == Advances(s, o)
  {
    SchedulesStayTwice(s, o);
    SchedulesStay(Did(Did(s, CreateJob(o)), AddQueueRow(o)), RecordExecution(o));
    hide Did;
  }

  lemma {:induction false} SchedulesStay(s: Sys, step: Step)
    requires step.CreateJob? || step.AddQueueRow? || step.RecordExecution?
    ensures Did(s, step).schedules == s.schedules
  {
    hide CatchUp, Advanced;
  }

  lemma {:induction false} AllDoneServes(s: Sys, assets: map<AssetId, Asset>, due: Due, now: Time)
    requires Inv(s) && due.id in s.schedules && s.schedules[due.id] == due.schedule && due.schedule.enabled
    requires Occurrence(due.id, due.schedule.nextRunAt) in s.due && Serves(assets, due)
    ensures due.schedule.terms.interval > 0
    ensures var t := AllDone(s, Occurrence(due.id, due.schedule.nextRunAt), now);
            Served(t, assets, due, now) && t.schedules == s.schedules[due.id := t.schedules[due.id]]
  {
    assert TermsOk(s.created[due.id]);
    var o := Occurrence(due.id, due.schedule.nextRunAt);
    ThreeDone(s, o, due.schedule.terms);
    hide CatchUp, Inv, Did, Served, JobOf, WorkOf, Serves, IsDue;
    AdvanceServes(s, Did(Did(Did(s, CreateJob(o)), AddQueueRow(o)), RecordExecution(o)), assets, due, now);
  }

  lemma {:induction false} AdvanceServes(s: Sys, t: Sys, assets: map<AssetId, Asset>, due: Due, now: Time)
    requires due.id in s.schedules && s.schedules[due.id] == due.schedule && due.schedule.enabled && t.schedules == s.schedules
    requires due.schedule.terms.interval > 0 && Serves(assets, due)
    requires var o := Occurrence(due.id, due.schedule.nextRunAt);
             && JobOf(o) in t.jobs && t.jobs[JobOf(o)] == WorkOf(due.schedule.terms)
             && JobOf(o) in t.queue && t.queue[JobOf(o)] == due.schedule.terms.maxAttempts
             && o in t.recorded && o in t.executions && t.executions[o] == JobOf(o)
    ensures var u := Did(t, Advance(Occurrence(due.id, due.schedule.nextRunAt), now));
            Served(u, assets, due, now) && u.schedules == s.schedules[due.id := u.schedules[due.id]]
  {
    hide CatchUp, JobOf, WorkOf, Managed, Times;
    assert Enabled(t, Advance(Occurrence(due.id, due.schedule.nextRunAt), now));
  }

  lemma {:induction false} ThreeDone(s: Sys, o: Occurrence, terms: Terms)
    requires Inv(s) && Known(s, o, terms) && o.schedule in s.schedules
    ensures var t := Did(Did(Did(s, CreateJob(o)), AddQueueRow(o)), RecordExecution(o));
            && t.schedules == s.schedules
            && JobOf(o) in t.jobs && t.jobs[JobOf(o)] == WorkOf(terms)
            && JobOf(o) in t.queue && t.queue[JobOf(o)] == terms.maxAttempts
            && o in t.recorded && o in t.executions && t.executions[o] == JobOf(o)
  {
    var s1 := Did(s, CreateJob(o));
    var s2 := Did(s1, AddQueueRow(o));
    JobDone(s, o, terms);
    RowDone(s1, o, terms);
    ExecutionDone(s2, o, terms);
    hide Did, Inv;
  }

  lemma {:induction false} JobDone(s: Sys, o: Occurrence, terms: Terms)
    requires Inv(s) && Known(s, o, terms)
    ensures var t := Did(s, CreateJob(o));
            && Inv(t) && Known(t, o, terms) && t.schedules == s.schedules
            && JobOf(o) in t.jobs && t.jobs[JobOf(o)] == WorkOf(terms)
  {
    StepKeeps(s, CreateJob(o));
    hide CatchUp, Forward, Evidence, TermsOk;
  }

  lemma {:induction false} RowDone(s: Sys, o: Occurrence, terms: Terms)
    requires Inv(s) && Known(s, o, terms) && JobOf(o) in s.jobs
    ensures var t := Did(s, AddQueueRow(o));
            && Inv(t) && Known(t, o, terms) && t.schedules == s.schedules && t.jobs == s.jobs
            && JobOf(o) in t.queue && t.queue[JobOf(o)] == terms.maxAttempts
  {
    StepKeeps(s, AddQueueRow(o));
    hide CatchUp, Forward, Evidence, TermsOk;
  }

  lemma {:induction false} ExecutionDone(s: Sys, o: Occurrence, terms: Terms)
    requires Inv(s) && Known(s, o, terms) && JobOf(o) in s.queue && o.schedule in s.schedules
    ensures var t := Did(s, RecordExecution(o));
            && t.schedules == s.schedules && t.jobs == s.jobs && t.queue == s.queue
            && o in t.recorded && o in t.executions && t.executions[o] == JobOf(o)
  {
    hide CatchUp, Forward, TermsOk;
  }

  lemma {:induction false} StillKnown(s: Sys, t: Sys, o: Occurrence, terms: Terms)
    requires Grows(s, t)
    ensures Known(s, o, terms) ==> Known(t, o, terms) && o in t.due
    ensures HasJob(s, o) ==> HasJob(t, o)
    ensures HasRow(s, o) ==> HasRow(t, o)
    ensures HasRecord(s, o) ==> HasRecord(t, o)
  {
  }

  lemma {:induction false} GrowsTransitive(s: Sys, t: Sys, u: Sys)
    requires Grows(s, t) && Grows(t, u)
    ensures Grows(s, u)
  {
  }

  lemma {:induction false} GrowsItself(s: Sys)
    requires Inv(s)
    ensures Grows(s, s)
  {
  }

  lemma {:induction false} GrowsThrice(s: Sys, t: Sys, u: Sys, v: Sys)
    requires Grows(s, t) && Grows(t, u) && Grows(u, v)
    ensures Grows(s, v)
  {
    hide Grows;
    GrowsTransitive(s, t, u);
    GrowsTransitive(s, u, v);
  }

  lemma {:induction false} AbsentHasNoExecutions(s: Sys, id: ScheduleId)
    requires Inv(s)
    ensures id !in s.schedules ==> Apply(s, Delete(id)) == s
  {
    if id !in s.schedules {
      assert s.schedules - {id} == s.schedules;
      if s.enforced {
        forall o | o in s.executions ensures o.schedule != id { assert o in s.recorded; }
        assert WithoutSchedule(s.executions, id) == s.executions;
      }
    }
  }

  /** A recorded occurrence has its execution, unless a cascade took it with the schedule. */
  lemma {:induction false} StaysRecorded(s: Sys, o: Occurrence)
    requires Inv(s)
    ensures o in s.executions ==> o in s.recorded && s.executions[o] == JobOf(o) && !KeyViolated(s, o)
  {
  }

  lemma {:induction false} SchedulesStayTwice(s: Sys, o: Occurrence)
    ensures Did(Did(s, CreateJob(o)), AddQueueRow(o)).schedules == s.schedules
  {
    SchedulesStay(s, CreateJob(o));
    SchedulesStay(Did(s, CreateJob(o)), AddQueueRow(o));
    hide Did;
  }

  lemma {:induction false} InBatchGrows(batch: seq<Due>, due: Due)
    ensures forall id :: InBatch(batch + [due], id) <==> InBatch(batch, id) || id == due.id
  {
    forall id ensures InBatch(batch + [due], id) <==> InBatch(batch, id) || id == due.id {
      if InBatch(batch, id) {
        var i :| 0 <= i < |batch| && batch[i].id == id;
        assert (batch + [due])[i].id == id;
      }
      assert (batch + [due])[|batch|].id == due.id;
    }
  }

  /** Every schedule scans its asset with the scan kind its asset kind maps to. */
  ghost predicate KindsMatch(s: Sys, assets: map<AssetId, Asset>) {
    forall id :: id in s.created && s.created[id].asset in assets && assets[s.created[id].asset].kind.Some? ==>
      s.created[id].kind == assets[s.created[id].asset].kind.value
  }

  predicate RightKind(step: Step, assets: map<AssetId, Asset>) {
    step.Create? && step.terms.asset in assets && assets[step.terms.asset].kind.Some? ==>
      step.terms.kind == assets[step.terms.asset].kind.value
  }

  lemma {:induction false} OthersGrow(s: Sys, steps: seq<Step>, assets: map<AssetId, Asset>)
    requires Inv(s) && KindsMatch(s, assets) && Possible(s, steps)
    requires forall i :: 0 <= i < |steps| ==> RightKind(steps[i], assets)
    ensures Inv(After(s, steps)) && KindsMatch(After(s, steps), assets) && Grows(s, After(s, steps))
    decreases |steps|
  {
    if steps != [] {
      StepKeeps(s, steps[0]);
      StepGrows(s, steps[0]);
      KindsStay(s, steps[0], assets);
      hide Inv, Apply, Enabled, KindsMatch, Grows, RightKind;
      OthersGrow(Apply(s, steps[0]), steps[1..], assets);
      GrowsTransitive(s, Apply(s, steps[0]), After(s, steps));
    }
  }

  lemma {:induction false} KindsStay(s: Sys, step: Step, assets: map<AssetId, Asset>)
    requires KindsMatch(s, assets) && Enabled(s, step) && RightKind(step, assets)
    ensures KindsMatch(Apply(s, step), assets)
  {
    hide CatchUp, Advanced, Advances;
    if step.Create? {
    } else {
      CreatedStays(s, step);
      hide Apply;
    }
  }

  lemma {:induction false} CreatedStays(s: Sys, step: Step)
    requires Enabled(s, step) && !step.Create?
    ensures Apply(s, step).created == s.created
  {
    hide CatchUp;
  }
}
