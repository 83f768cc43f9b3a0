/** Runs of the ledger: scans, jobs, remediation work and retention sweeps in any order. */
module LedgerRuns {
  import opened Common
  import opened Ledger
  import opened LedgerInvariant
  import opened LedgerPruning
  import Q = ScanQueue

  datatype Op =
    | Record(ws: WorkspaceId, asset: AssetId, job: JobId, findings: seq<Finding>, now: Time)
    | AddJob(job: JobId, row: JobRow)
    | SetStatus(job: JobId, status: Q.ScanStatus, finishedAt: Option<Time>)
    | StoreFinding(id: ObservationId, finding: FindingRow)
    | NoteExecution(job: JobId, execution: ScheduledExecution)
    | NoteRepositoryRun(job: JobId, run: RepositoryRun)
    | OpenItem(item: ItemId, work: Item)
    | Update(ws: WorkspaceId, item: ItemId, target: Option<ItemStatus>, reason: TextChange, changes: Changes, now: Time)
    | Verify(ws: WorkspaceId, item: ItemId, job: JobId, now: Time)
    | Sweep(ws: WorkspaceId, cutoff: Time, cascade: bool)

  /** What the caller of an operation gets back. */
  datatype Output = Done | Drift(events: seq<Event>) | Updated(outcome: Result<Item>) | Checked(verdict: Result<Evidence>)

  function Do(b: Book, op: Op): Book {
    match op
    case Record(ws, asset, job, findings, now) => Recorded(b, ws, asset, job, findings, now)
    case AddJob(job, row) => b.(jobs := b.jobs[job := row], queueRows := b.queueRows + {job})
    case SetStatus(job, status, finishedAt) =>
      if job in b.jobs then b.(jobs := b.jobs[job := b.jobs[job].(status := status, finishedAt := finishedAt)]) else b
    case StoreFinding(id, finding) => b.(findings := b.findings[id := finding])
    case NoteExecution(job, execution) => b.(executions := b.executions[job := execution])
    case NoteRepositoryRun(job, run) => b.(repositoryRuns := b.repositoryRuns[job := run])
    case OpenItem(item, work) => b.(items := b.items[item := work])
    case Update(ws, item, target, reason, changes, now) => UpdateItem(b, ws, item, target, reason, changes, now)
    case Verify(ws, item, job, now) => VerifyItem(b, ws, item, job, now)
    case Sweep(ws, cutoff, cascade) => Pruned(b, ws, cutoff, cascade)
  }

  function OutputOf(b: Book, op: Op): Output {
    match op
    case Record(ws, asset, job, findings, now) => Drift(RecordedEvents(b, ws, asset, job, findings, now))
    case Update(ws, item, target, reason, changes, now) => Updated(UpdateOutcome(b, ws, item, target, reason, changes, now))
    case Verify(ws, item, job, now) => Checked(Verdict(b, ws, item, job))
    case _ => Done
  }

  /** The circumstances an operation is carried out in. A scan is recorded for a job of the asset,
      at first after every earlier scan of the asset; a job may record again. Executions and
      repository runs are noted for a job of their scope, item ids are new, work items come from a
      recorded scan, and finished jobs stay finished. A job id is new or, as the id of a scheduled
      job is computed from its schedule and slot, stands for the same scope as before. A sweep may
      happen at any time. */
  ghost predicate Enabled(b: Book, op: Op) {
    match op
    case Record(ws, asset, job, _, now) =>
      && job in b.jobs && b.jobs[job].ws == ws && b.jobs[job].asset == asset
      && (job in b.snapshots || FreshScan(b, ws, asset, job, now))
    case AddJob(job, row) =>
      if job in b.jobs then row.ws == b.jobs[job].ws && row.asset == b.jobs[job].asset
      else job !in b.snapshots && job !in b.executions && job !in b.repositoryRuns
    case SetStatus(job, _, _) => job in b.jobs && !Q.Terminal(b.jobs[job].status)
    case NoteExecution(job, execution) => job in b.jobs && execution.ws == b.jobs[job].ws
    case NoteRepositoryRun(job, run) => job in b.jobs && run.ws == b.jobs[job].ws && run.asset == b.jobs[job].asset
    case OpenItem(item, work) =>
      && item !in b.items && work.status.Open? && work.acceptanceReason.None?
      && work.verificationJob.None? && work.evidence.None? && work.verifiedAt.None?
      && FromScan(b, work)
    case _ => true
  }

  ghost predicate FromScan(b: Book, row: Item) {
    row.sourceJob in b.snapshots && InScope(b.snapshots[row.sourceJob], row.ws, row.asset)
  }

  ghost predicate Sourced(b: Book) {
    forall i :: i in b.items ==> FromScan(b, b.items[i])
  }

  // ---------------------------------------------------------------- items

  lemma {:induction false} UpdateKeepsItemOk(row: Item, target: Option<ItemStatus>, reason: TextChange, changes: Changes, now: Time)
    requires ItemOk(row)
    ensures var outcome := UpdatedItem(row, target, reason, changes, now);
            outcome.Ok? ==>
              && ItemOk(outcome.value)
              && outcome.value.ws == row.ws && outcome.value.asset == row.asset && outcome.value.fp == row.fp
              && outcome.value.sourceJob == row.sourceJob && outcome.value.verificationJob == row.verificationJob
  {
  }

  lemma {:induction false} VerifyKeepsItemOk(row: Item, evidence: Evidence, now: Time)
    requires ItemOk(row) && row.status.ReadyForVerification? && evidence.fp == row.fp && evidence.sourceJob == row.sourceJob
    ensures ItemOk(VerifiedItem(row, evidence, now))
  {
  }

  /** The evidence is the same in both books and no job row of a snapshot was lost. */
  ghost predicate SameEvidence(b: Book, b': Book) {
    && b'.states == b.states && b'.snapshots == b.snapshots && b'.occurrences == b.occurrences && b'.events == b.events
    && forall j :: j in b.snapshots && HasJob(b, j) ==> HasJob(b', j)
  }

  lemma {:induction false} SameLinked(b: Book, b': Book)
    requires SameEvidence(b, b') && Linked(b) && LinkedEvents(b)
    ensures Linked(b') && LinkedEvents(b')
  {
    forall k: OccurrenceKey ensures LinkedAt(b', k) { assert LinkedAt(b, k); }
    forall e | e in b'.events ensures LinkedEvent(b', e) { assert LinkedEvent(b, e); }
  }

  lemma {:induction false} SameAgrees(b: Book, b': Book, j: JobId)
    requires SameEvidence(b, b')
    ensures IsLatest(b', j) <==> IsLatest(b, j)
    ensures j in b.snapshots && Agrees(b, j) ==> Agrees(b', j)
  {
    if j in b.snapshots && Agrees(b, j) {
      var s := b.snapshots[j];
      assert ActiveSet(b', s.ws, s.asset) == ActiveSet(b, s.ws, s.asset);
      forall k | k in b.states && k.ws == s.ws && k.asset == s.asset && b.states[k].active
        ensures ShowsOccurrence(b', k, j)
      {
        assert ShowsOccurrence(b, k, j);
      }
    }
    assert forall i, k :: i in b.snapshots && k in b.snapshots ==> Newer(b, i, k) == Newer(b', i, k);
  }

  lemma {:induction false} SameGood(b: Book, b': Book)
    requires SameEvidence(b, b') && Good(b) && Scoped(b')
    requires forall i :: i in b'.items ==> ItemOk(b'.items[i])
    ensures Good(b')
  {
    hide Scoped;
    SameLinked(b, b');
    assert DistinctTimes(b');
    hide Linked, LinkedEvents, DistinctTimes, ItemOk;
    forall j | IsLatest(b', j) ensures Agrees(b', j) { SameAgrees(b, b', j); }
    hide IsLatest, Agrees;
    forall k | k in b'.states ensures HasBaseline(b', k.ws, k.asset) {
      assert HasBaseline(b, k.ws, k.asset);
      var j :| j in b.snapshots && InScope(b.snapshots[j], k.ws, k.asset);
      assert j in b'.snapshots && InScope(b'.snapshots[j], k.ws, k.asset);
    }
  }

  /** Only the work items change, and they stay as they should be. */
  lemma {:induction false} ItemsKeepGood(b: Book, items: map<ItemId, Item>)
    requires Good(b) && Sourced(b)
    requires forall i :: i in items ==> ItemOk(items[i]) && FromScan(b, items[i])
    ensures Good(b.(items := items)) && Sourced(b.(items := items))
  {
    var b' := b.(items := items);
    assert Scoped(b');
    forall i | i in items ensures FromScan(b', items[i]) { assert FromScan(b, items[i]); }
    hide ItemOk, Linked, LinkedEvents, DistinctTimes, Scoped, IsLatest, Agrees, HasBaseline, Sourced, FromScan;
    SameGood(b, b');
  }

  lemma {:induction false} UpdateKeepsGood(b: Book, op: Op)
    requires Good(b) && Sourced(b) && op.Update?
    ensures Good(Do(b, op)) && Sourced(Do(b, op))
  {
    UpdateTouchesItems(b, op);
    UpdateKeepsItems(b, op.ws, op.item, op.target, op.reason, op.changes, op.now);
    hide Good, Sourced, UpdateItem;
    ItemsKeepGood(b, Do(b, op).items);
  }

  lemma {:induction false} UpdateKeepsItems(b: Book, ws: WorkspaceId, item: ItemId, target: Option<ItemStatus>, reason: TextChange, changes: Changes, now: Time)
    requires Good(b) && Sourced(b)
    ensures var items := UpdateItem(b, ws, item, target, reason, changes, now).items;
            forall i :: i in items ==> ItemOk(items[i]) && FromScan(b, items[i])
  {
    if item in b.items { UpdateKeepsItemOkIn(b, item, target, reason, changes, now); }
    hide ItemOk, UpdatedItem, Linked, LinkedEvents, DistinctTimes, Scoped, IsLatest, Agrees, HasBaseline;
    forall i | i in b.items ensures ItemOk(b.items[i]) && FromScan(b, b.items[i]) { }
  }

  lemma {:induction false} UpdateKeepsItemOkIn(b: Book, item: ItemId, target: Option<ItemStatus>, reason: TextChange, changes: Changes, now: Time)
    requires Good(b) && item in b.items
    ensures var outcome := UpdatedItem(b.items[item], target, reason, changes, now);
            outcome.Ok? ==>
              && ItemOk(outcome.value)
              && outcome.value.ws == b.items[item].ws && outcome.value.asset == b.items[item].asset
              && outcome.value.sourceJob == b.items[item].sourceJob
  {
    UpdateKeepsItemOk(b.items[item], target, reason, changes, now);
  }

  lemma {:induction false} VerifyKeepsGood(b: Book, op: Op)
    requires Good(b) && Sourced(b) && op.Verify?
    ensures Good(Do(b, op)) && Sourced(Do(b, op))
  {
    VerifyTouchesItems(b, op);
    VerifyKeepsItems(b, op.ws, op.item, op.job, op.now);
    hide Good, Sourced, VerifyItem;
    ItemsKeepGood(b, Do(b, op).items);
  }

  lemma {:induction false} VerifyKeepsItems(b: Book, ws: WorkspaceId, item: ItemId, job: JobId, now: Time)
    requires Good(b) && Sourced(b)
    ensures var items := VerifyItem(b, ws, item, job, now).items;
            forall i :: i in items ==> ItemOk(items[i]) && FromScan(b, items[i])
  {
    var verdict := Verdict(b, ws, item, job);
    if verdict.Ok? { VerifyKeepsItemOk(b.items[item], verdict.value, now); }
    hide ItemOk, Verdict, Linked, LinkedEvents, DistinctTimes, Scoped, IsLatest, Agrees, HasBaseline;
    forall i | i in b.items ensures ItemOk(b.items[i]) && FromScan(b, b.items[i]) { }
  }

  lemma {:induction false} StillSourced(b: Book, b': Book)
    requires Sourced(b) && b'.items == b.items
    requires forall j :: j in b.snapshots ==> j in b'.snapshots && InScope(b'.snapshots[j], b.snapshots[j].ws, b.snapshots[j].asset)
    ensures Sourced(b')
  {
    forall i | i in b.items ensures FromScan(b', b.items[i]) { assert FromScan(b, b.items[i]); }
  }

  lemma {:induction false} RecordStepKeepsGood(b: Book, op: Op)
    requires Good(b) && Sourced(b) && op.Record? && Enabled(b, op)
    ensures Good(Do(b, op)) && Sourced(Do(b, op))
  {
    hide Good, Sourced, Recorded, PreparedFindings, CurrentMap, OccurrencesOf, FreshScan;
    if op.job in b.snapshots {
      assert Do(b, op) == b by { AgainTheSame(b, op); }
    } else {
      RecordKeepsGood(b, op.ws, op.asset, op.job, op.findings, op.now);
      RecordedRows(b, op.ws, op.asset, op.job, op.findings, op.now);
      StillSourced(b, Do(b, op));
    }
  }

  lemma {:induction false} AgainTheSame(b: Book, op: Op)
    requires op.Record? && op.job in b.snapshots
    ensures Do(b, op) == b
  {
  }

  /** Every operation but a sweep keeps the agreement and the origin of the work items. */
  lemma {:induction false} StepKeepsGood(b: Book, op: Op)
    requires Good(b) && Sourced(b) && Enabled(b, op) && !op.Sweep?
    ensures Good(Do(b, op)) && Sourced(Do(b, op))
  {
    if op.Record? { RecordStepKeepsGood(b, op); }
    else if op.Update? { UpdateKeepsGood(b, op); }
    else if op.Verify? { VerifyKeepsGood(b, op); }
    else {
      StepKeepsScoped(b, op);
      PlainKeepsItems(b, op);
      StepLeavesEvidence(b, op);
      JobsKeepScope(b, op);
      hide Do, JobsAfter, ItemOk, FromScan, Linked, LinkedEvents, DistinctTimes, Scoped, IsLatest, Agrees, HasBaseline, HasJob;
      SameGood(b, Do(b, op));
    }
  }

  lemma {:induction false} PlainKeepsItems(b: Book, op: Op)
    requires Good(b) && Sourced(b) && Enabled(b, op) && !op.Sweep? && !op.Record? && !op.Update? && !op.Verify?
    ensures forall i :: i in Do(b, op).items ==> ItemOk(Do(b, op).items[i])
    ensures Sourced(Do(b, op))
  {
    hide FreshScan, Recorded, Pruned, UpdateItem, VerifyItem, Linked, LinkedEvents, DistinctTimes, Scoped, IsLatest, Agrees, HasBaseline;
  }

  lemma {:induction false} JobsKeepScope(b: Book, op: Op)
    requires Enabled(b, op) && !op.Sweep? && !op.Record? && !op.Update? && !op.Verify?
    ensures forall j :: j in b.snapshots && j in b.jobs && HasJob(b, j) ==> j in Do(b, op).snapshots && HasJob(Do(b, op), j)
  {
    StepLeavesEvidence(b, op);
    hide Do, FreshScan, FromScan;
  }

  lemma {:induction false} StepKeepsScoped(b: Book, op: Op)
    requires Scoped(b) && Enabled(b, op) && !op.Sweep? && !op.Record? && !op.Update? && !op.Verify?
    ensures Scoped(Do(b, op))
  {
    hide FreshScan, Recorded, Pruned, UpdateItem, VerifyItem;
  }

  // ---------------------------------------------------------------- runs

  function After(b: Book, ops: seq<Op>): Book
    decreases |ops|
  {
    if ops == [] then b else After(Do(b, ops[0]), ops[1..])
  }

  /** The outputs of the operations that have one, in order. */
  function Outputs(b: Book, ops: seq<Op>): seq<Output>
    decreases |ops|
  {
    if ops == [] then []
    else (if ops[0].Sweep? then [] else [OutputOf(b, ops[0])]) + Outputs(Do(b, ops[0]), ops[1..])
  }

  function WithoutSweeps(ops: seq<Op>): seq<Op> {
    if ops == [] then []
    else (if ops[0].Sweep? then [] else [ops[0]]) + WithoutSweeps(ops[1..])
  }

  // ---------------------------------------------------------------- the ledger without the sweeps

  /** The ledger without the evidence of one scan. */
  function Forgotten(b: Book, job: JobId): Book {
    b.(snapshots := b.snapshots - {job}, occurrences := OccurrencesNotOf(b.occurrences, {job}),
       events := EventsNotOf(b.events, {job}))
  }

  /** A repeated recording that finds the first one swept, with the ledger `b` without sweeps and
      the ledger `t` with them. */
  predicate Lost(b: Book, t: Book, op: Op) {
    op.Record? && op.job in b.snapshots && op.job !in t.snapshots
  }

  /** A job is created under the id of a job whose row was swept. */
  predicate Recreates(b: Book, op: Op) { op.AddJob? && op.job in b.jobs }

  /** What stands for the unswept ledger when an operation is carried out: itself, except that a
      repeated recording that finds the first one swept is a new one there, too. */
  function Reference(b: Book, t: Book, op: Op): Book {
    if Lost(b, t, op) then Forgotten(b, op.job) else b
  }

  function Unswept(b: Book, t: Book, op: Op): Book {
    if op.Sweep? then b else Do(Reference(b, t, op), op)
  }

  function UnsweptAfter(b: Book, t: Book, ops: seq<Op>): Book
    decreases |ops|
  {
    if ops == [] then b else UnsweptAfter(Unswept(b, t, ops[0]), Do(t, ops[0]), ops[1..])
  }

  function UnsweptOutputs(b: Book, t: Book, ops: seq<Op>): seq<Output>
    decreases |ops|
  {
    if ops == [] then []
    else (if ops[0].Sweep? then [] else [OutputOf(Reference(b, t, ops[0]), ops[0])])
         + UnsweptOutputs(Unswept(b, t, ops[0]), Do(t, ops[0]), ops[1..])
  }

  predicate RefersToJob(op: Op) { op.Record? || op.NoteExecution? || op.NoteRepositoryRun? }

  /** Rows that refer to a job need its row in the ledger as it is, and a job is created where
      there is none; new ids differ from all ids ever used, which the unswept ledger knows. */
  ghost predicate CanDo(b: Book, t: Book, op: Op) {
    Enabled(if RefersToJob(op) then t else b, op) && (op.AddJob? ==> op.job !in t.jobs)
  }

  /** The run can happen. */
  ghost predicate Possible(b: Book, t: Book, ops: seq<Op>)
    decreases |ops|
  {
    ops != [] ==> CanDo(b, t, ops[0]) && Possible(Unswept(b, t, ops[0]), Do(t, ops[0]), ops[1..])
  }

  /** No recording of the run finds an earlier one of its job swept, and no swept job is created
      again. */
  predicate NothingLost(b: Book, t: Book, ops: seq<Op>)
    decreases |ops|
  {
    ops != [] ==> !Lost(b, t, ops[0]) && !Recreates(b, ops[0]) && NothingLost(Unswept(b, t, ops[0]), Do(t, ops[0]), ops[1..])
  }

  /** `t` is the ledger with sweeps, `b` the same ledger without any. */
  ghost predicate Simulates(t: Book, b: Book) {
    Good(b) && Sourced(b) && Trimmed(b, t)
  }

  lemma {:induction false} SimulatesItself(b: Book)
    requires Good(b) && Sourced(b)
    ensures Simulates(b, b)
  {
    hide Sourced, LinkedEvents, DistinctTimes, ItemOk, HasBaseline, ActiveSet, EventsOf;
    forall k | k in b.occurrences ensures k.job in b.snapshots { assert LinkedAt(b, k); }
    assert KeepsEvents(b, b) by {
      forall e | e in b.events ensures e.job in b.snapshots { EventInScan(b, e); }
    }
  }

  lemma {:induction false} EventInScan(b: Book, e: Event)
    requires Good(b) && e in b.events
    ensures e.job in b.snapshots
  {
    assert LinkedEvent(b, e);
  }

  // ---------------------------------------------------------------- same outputs

  lemma {:induction false} SameObservedEvents(b: Book, t: Book, ws: WorkspaceId, asset: AssetId, job: JobId, prepared: seq<Finding>, now: Time)
    requires t.states == b.states && (HasBaseline(b, ws, asset) <==> HasBaseline(t, ws, asset))
    ensures ObservedEvents(t, ws, asset, job, prepared, now) == ObservedEvents(b, ws, asset, job, prepared, now)
  {
    hide HasBaseline, NewEvent, EvidenceChanged;
    if prepared != [] {
      SameObservedEvents(b, t, ws, asset, job, prepared[..|prepared| - 1], now);
    }
  }

  lemma {:induction false} SameResolvedEvents(b: Book, t: Book, ws: WorkspaceId, asset: AssetId, job: JobId, gone: seq<Fingerprint>, now: Time)
    requires t.states == b.states && (HasBaseline(b, ws, asset) <==> HasBaseline(t, ws, asset))
    requires forall i :: 0 <= i < |gone| ==> StateKey(ws, asset, gone[i]) in b.states
    ensures ResolvedEvents(t, ws, asset, job, gone, now) == ResolvedEvents(b, ws, asset, job, gone, now)
  {
    hide HasBaseline, NewEvent;
    if gone != [] {
      SameResolvedEvents(b, t, ws, asset, job, gone[..|gone| - 1], now);
    }
  }

  lemma {:induction false} SameScanEvents(b: Book, t: Book, ws: WorkspaceId, asset: AssetId, job: JobId, prepared: seq<Finding>, now: Time)
    requires t.states == b.states && (HasBaseline(b, ws, asset) <==> HasBaseline(t, ws, asset))
    ensures ScanEvents(t, ws, asset, job, prepared, now) == ScanEvents(b, ws, asset, job, prepared, now)
  {
    hide HasBaseline, ObservedEvents, ResolvedEvents;
    SameObservedEvents(b, t, ws, asset, job, prepared, now);
    assert ActiveSet(t, ws, asset) == ActiveSet(b, ws, asset);
    var gone := Sorted(Gone(b, ws, asset, CurrentMap(prepared)));
    assert forall i :: 0 <= i < |gone| ==> gone[i] in gone;
    SameResolvedEvents(b, t, ws, asset, job, gone, now);
  }

  /** A recording returns the same events with and without the sweeps, as long as both or none of
      the ledgers have an earlier one. */
  lemma {:induction false} SameRecording(b: Book, t: Book, op: Op)
    requires Trimmed(b, t) && op.Record? && (op.job in b.snapshots <==> op.job in t.snapshots)
    ensures OutputOf(t, op) == OutputOf(b, op)
  {
    hide KeepsLinks, KeepsUnfinished, EventsOf, ScanEvents, PreparedFindings;
    if op.job !in b.snapshots {
      TrimmedBaseline(b, t, op.ws, op.asset);
      SameScanEvents(b, t, op.ws, op.asset, op.job, PreparedFindings(op.job, op.findings), op.now);
    }
  }

  /** The scan an item comes from is older than the asset's latest scan, unless it is that scan. */
  lemma {:induction false} SourceIsOlder(b: Book, job: JobId, i: ItemId)
    requires Good(b) && Sourced(b) && i in b.items && IsLatest(b, job)
    requires InScope(b.snapshots[job], b.items[i].ws, b.items[i].asset)
    ensures b.items[i].sourceJob in b.snapshots
    ensures b.items[i].sourceJob != job ==> b.snapshots[b.items[i].sourceJob].completedAt < b.snapshots[job].completedAt
  {
    hide Linked, LinkedEvents, Agrees, HasBaseline, ItemOk;
    assert FromScan(b, b.items[i]);
    var source := b.items[i].sourceJob;
    if source != job {
      assert Newer(b, job, source);
    }
  }

  /** A verification reaches the same verdict on the same evidence with and without the sweeps. */
  lemma {:induction false} SameVerdict(b: Book, t: Book, ws: WorkspaceId, item: ItemId, job: JobId)
    requires Simulates(t, b)
    ensures Verdict(t, ws, item, job) == Verdict(b, ws, item, job)
  {
    SimulatesRows(b, t);
    if item in b.items && b.items[item].ws == ws {
      TrimmedLatest(b, t, job);
      hide Simulates, Trimmed, KeepsLinks, KeepsLatest, IsLatest;
      if IsLatest(b, job) && InScope(b.snapshots[job], ws, b.items[item].asset) {
        SameVerdictOfLatest(b, t, ws, item, job);
      }
    }
  }

  lemma {:induction false} SameVerdictOfLatest(b: Book, t: Book, ws: WorkspaceId, item: ItemId, job: JobId)
    requires Simulates(t, b) && item in b.items && b.items[item].ws == ws
    requires IsLatest(b, job) && InScope(b.snapshots[job], ws, b.items[item].asset)
    ensures Verdict(t, ws, item, job) == Verdict(b, ws, item, job)
  {
    SimulatesRows(b, t);
    TrimmedLatest(b, t, job);
    SourceIsOlder(b, job, item);
    hide Simulates, Trimmed, IsLatest, Good, Sourced;
    assert OccurrenceKey(job, b.items[item].fp) in t.occurrences <==> OccurrenceKey(job, b.items[item].fp) in b.occurrences;
  }

  lemma {:induction false} SimulatesRows(b: Book, t: Book)
    requires Simulates(t, b)
    ensures Good(b) && Sourced(b) && Trimmed(b, t)
    ensures t.items == b.items && Submap(t.snapshots, b.snapshots) && Submap(t.jobs, b.jobs) && Submap(t.occurrences, b.occurrences)
    ensures KeepsLinks(b, t) && KeepsLatest(b, t)
  {
  }

  // ---------------------------------------------------------------- the simulation is kept

  lemma {:induction false} EventsOfConcat(x: seq<Event>, y: seq<Event>, j: JobId)
    ensures EventsOf(x + y, j) == EventsOf(x, j) + EventsOf(y, j)
  {
    if y == [] {
      assert x + y == x;
    } else {
      EventsOfConcat(x, y[..|y| - 1], j);
      assert (x + y)[..|x + y| - 1] == x + y[..|y| - 1];
    }
  }

  lemma {:induction false} NoEventsOf(events: seq<Event>, j: JobId)
    requires forall e :: e in events ==> e.job != j
    ensures EventsOf(events, j) == []
  {
    if events != [] {
      assert events[|events| - 1] in events;
      NoEventsOf(events[..|events| - 1], j);
    }
  }

  /** Both ledgers got the same new scan. */
  lemma {:induction false} RecordKeepsEventSplit(b: Book, t: Book, b': Book, t': Book, more: seq<Event>, job: JobId)
    requires LinkedEvents(b) && KeepsEvents(b, t) && job !in b.snapshots && Submap(t.snapshots, b.snapshots)
    requires b'.events == b.events + more && t'.events == t.events + more
    requires t'.snapshots.Keys == t.snapshots.Keys + {job}
    requires forall e :: e in more ==> e.job == job
    ensures KeepsEvents(b', t')
  {
    forall e | e in t'.events ensures e in b'.events && e.job in t'.snapshots { }
    forall j | j in t'.snapshots
      ensures EventsOf(t'.events, j) == EventsOf(b'.events, j)
    {
      EventsOfConcat(b.events, more, j);
      EventsOfConcat(t.events, more, j);
      if j == job {
        forall e | e in b.events ensures e.job != job { assert LinkedEvent(b, e); }
        NoEventsOf(b.events, job);
        NoEventsOf(t.events, job);
      }
    }
  }

  /** The ledgers with and without sweeps are about to get the same new scan. */
  ghost predicate NewScan(b: Book, t: Book, op: Op) {
    && Good(b) && Trimmed(b, t) && op.Record? && FreshScan(b, op.ws, op.asset, op.job, op.now)
    && op.job !in b.snapshots && op.job !in t.snapshots && op.job in t.jobs
  }

  lemma {:induction false} RecordKeepsKept(b: Book, t: Book, op: Op)
    requires NewScan(b, t, op)
    ensures KeepsEvents(Do(b, op), Do(t, op))
  {
    var more := RecordedEvents(b, op.ws, op.asset, op.job, op.findings, op.now);
    NewScanEvents(b, t, op);
    SameRecording(b, t, op);
    RecordAddsEvents(b, op.ws, op.asset, op.job, op.findings, op.now);
    RecordAddsEvents(t, op.ws, op.asset, op.job, op.findings, op.now);
    RecordedKeys(t, op.ws, op.asset, op.job, op.findings, op.now);
    hide Recorded, RecordedEvents, NewScan, KeepsEvents, LinkedEvents, Submap;
    RecordKeepsEventSplit(b, t, Do(b, op), Do(t, op), more, op.job);
  }

  lemma {:induction false} NewScanEvents(b: Book, t: Book, op: Op)
    requires NewScan(b, t, op)
    ensures LinkedEvents(b) && KeepsEvents(b, t) && Submap(t.snapshots, b.snapshots)
  {
  }

  lemma {:induction false} RecordedKeys(b: Book, ws: WorkspaceId, asset: AssetId, job: JobId, findings: seq<Finding>, now: Time)
    requires job !in b.snapshots
    ensures Recorded(b, ws, asset, job, findings, now).snapshots.Keys == b.snapshots.Keys + {job}
  {
    RecordedRows(b, ws, asset, job, findings, now);
    hide Recorded, PreparedFindings, CurrentMap, OccurrencesOf;
  }

  lemma {:induction false} RecordKeepsKeptLatest(b: Book, t: Book, op: Op)
    requires NewScan(b, t, op)
    ensures KeepsLatest(Do(b, op), Do(t, op))
  {
    hide Good, KeepsEvents, KeepsLinks, KeepsUnfinished, Recorded, IsLatest, CurrentMap, PreparedFindings, OccurrencesOf;
    RecordedRows(b, op.ws, op.asset, op.job, op.findings, op.now);
    RecordedRows(t, op.ws, op.asset, op.job, op.findings, op.now);
    RecordedIsLatest(b, op.ws, op.asset, op.job, op.findings, op.now);
    forall j | IsLatest(Do(b, op), j)
      ensures j in Do(t, op).snapshots && j in Do(t, op).jobs
    {
      if j != op.job { assert IsLatest(b, j); }
    }
  }

  lemma {:induction false} RecordKeepsLinkSplit(b: Book, t: Book, b': Book, t': Book, job: JobId, snapshot: Snapshot,
                                                more: map<OccurrenceKey, Occurrence>)
    requires KeepsLinks(b, t) && Submap(t.snapshots, b.snapshots) && Submap(t.occurrences, b.occurrences)
    requires b'.occurrences == b.occurrences + more && t'.occurrences == t.occurrences + more
    requires b'.snapshots == b.snapshots[job := snapshot] && t'.snapshots == t.snapshots[job := snapshot]
    requires forall k :: k in more ==> k.job == job
    requires forall k :: k in b.occurrences ==> k.job != job
    ensures KeepsLinks(b', t') && Submap(t'.occurrences, b'.occurrences) && Submap(t'.snapshots, b'.snapshots)
  {
    forall k | k in b'.occurrences
      ensures k in t'.occurrences <==> k.job in t'.snapshots
    {
      if k in b.occurrences { assert k.job != job; }
    }
  }

  lemma {:induction false} NoOccurrencesYet(b: Book, job: JobId)
    requires Good(b) && job !in b.snapshots
    ensures forall k :: k in b.occurrences ==> k.job != job
  {
    forall k | k in b.occurrences ensures k.job != job { assert LinkedAt(b, k); }
  }

  lemma {:induction false} RecordKeepsKeptLinks(b: Book, t: Book, op: Op)
    requires NewScan(b, t, op)
    ensures KeepsLinks(Do(b, op), Do(t, op))
    ensures Submap(Do(t, op).occurrences, Do(b, op).occurrences) && Submap(Do(t, op).snapshots, Do(b, op).snapshots)
  {
    SameRecording(b, t, op);
    RecordedRows(b, op.ws, op.asset, op.job, op.findings, op.now);
    RecordedRows(t, op.ws, op.asset, op.job, op.findings, op.now);
    NoOccurrencesYet(b, op.job);
    hide Good, Recorded, RecordedEvents, CurrentMap, PreparedFindings, OccurrencesOf, OccurrenceKeys;
    hide KeepsLinks, KeepsEvents, KeepsLatest, KeepsUnfinished, Submap, FreshScan;
    var current := CurrentMap(PreparedFindings(op.job, op.findings));
    var more := OccurrencesOf(op.ws, op.asset, op.job, current, op.now);
    forall k | k in more ensures k.job == op.job { OccurrencesAt(op.ws, op.asset, op.job, current, op.now, k); }
    RecordKeepsLinkSplit(b, t, Do(b, op), Do(t, op), op.job, Snapshot(op.ws, op.asset, op.now, |current|, current.Keys), more);
  }

  lemma {:induction false} SameStates(b: Book, t: Book, op: Op)
    requires t.states == b.states && op.Record? && (op.job in b.snapshots <==> op.job in t.snapshots)
    ensures Do(t, op).states == Do(b, op).states
  {
    hide PreparedFindings, CurrentMap, ScanEvents, OccurrencesOf;
    if op.job !in b.snapshots {
      SameStatesAfter(b, t, op.ws, op.asset, op.job, CurrentMap(PreparedFindings(op.job, op.findings)), op.now);
    }
    hide StatesAfter;
  }

  lemma {:induction false} SameStatesAfter(b: Book, t: Book, ws: WorkspaceId, asset: AssetId, job: JobId,
                                           current: map<Fingerprint, Finding>, now: Time)
    requires t.states == b.states
    ensures StatesAfter(t, ws, asset, job, current, now) == StatesAfter(b, ws, asset, job, current, now)
  {
    hide SeenKeys;
  }

  lemma {:induction false} RecordKeepsKeptJobs(b: Book, t: Book, op: Op)
    requires NewScan(b, t, op)
    ensures Submap(Do(t, op).jobs, Do(b, op).jobs) && Do(t, op).items == Do(b, op).items
    ensures KeepsUnfinished(Do(b, op), Do(t, op))
    ensures Submap(Do(t, op).executions, Do(b, op).executions) && Submap(Do(t, op).repositoryRuns, Do(b, op).repositoryRuns)
  {
    RecordedRows(b, op.ws, op.asset, op.job, op.findings, op.now);
    RecordedRows(t, op.ws, op.asset, op.job, op.findings, op.now);
    hide Recorded, RecordedEvents, Good, CurrentMap, PreparedFindings, OccurrencesOf, KeepsEvents, KeepsLinks, KeepsLatest;
  }

  lemma {:induction false} NewScanStaysTrimmed(b: Book, t: Book, op: Op)
    requires NewScan(b, t, op)
    ensures Good(Do(b, op)) && Trimmed(Do(b, op), Do(t, op)) && OutputOf(t, op) == OutputOf(b, op)
  {
    hide Good, KeepsEvents, KeepsLinks, KeepsLatest, KeepsUnfinished, Submap, FreshScan, Recorded, RecordedEvents;
    SameRecording(b, t, op);
    RecordKeepsGood(b, op.ws, op.asset, op.job, op.findings, op.now);
    RecordKeepsKept(b, t, op);
    RecordKeepsKeptLatest(b, t, op);
    RecordKeepsKeptLinks(b, t, op);
    RecordKeepsKeptJobs(b, t, op);
    SameStates(b, t, op);
  }

  // ---------------------------------------------------------------- forgetting one scan

  /** A scan later than all of the swept ledger is later than all of the unswept one: the latest
      scan is in both. */
  lemma {:induction false} FreshInBoth(b: Book, t: Book, ws: WorkspaceId, asset: AssetId, job: JobId, now: Time)
    requires Trimmed(b, t) && FreshScan(t, ws, asset, job, now) && job !in b.snapshots
    ensures FreshScan(b, ws, asset, job, now)
  {
    forall j | j in b.snapshots && InScope(b.snapshots[j], ws, asset)
      ensures b.snapshots[j].completedAt < now
    {
      var latest := LatestOf(b, ws, asset);
      assert j == latest || Newer(b, latest, j);
    }
  }

  lemma {:induction false} ForgottenEvents(b: Book, job: JobId)
    requires LinkedEvents(b)
    ensures KeepsEvents(b, Forgotten(b, job))
  {
    EventsNotOfAre(b.events, {job});
    hide EventsNotOf, EventsOf;
    forall e | e in Forgotten(b, job).events
      ensures e in b.events && e.job in Forgotten(b, job).snapshots
    {
      assert LinkedEvent(b, e);
    }
    forall j | j in Forgotten(b, job).snapshots
      ensures EventsOf(Forgotten(b, job).events, j) == EventsOf(b.events, j)
    {
      EventsNotOfOf(b.events, {job}, j);
    }
  }

  lemma {:induction false} ForgottenRows(b: Book, job: JobId)
    ensures var f := Forgotten(b, job);
            && f.states == b.states && f.items == b.items && f.jobs == b.jobs
            && f.executions == b.executions && f.repositoryRuns == b.repositoryRuns
            && Submap(f.snapshots, b.snapshots) && Submap(f.occurrences, b.occurrences)
            && (forall j :: j in f.snapshots <==> j in b.snapshots && j != job)
            && (forall k :: k in f.occurrences <==> k in b.occurrences && k.job != job)
  {
    hide EventsNotOf;
  }

  lemma {:induction false} ForgettingTrims(b: Book, job: JobId)
    requires Good(b) && !IsLatest(b, job)
    ensures Trimmed(b, Forgotten(b, job))
  {
    ForgottenRows(b, job);
    ForgottenEvents(b, job);
    ForgottenLinks(b, job);
    hide Forgotten, KeepsEvents, KeepsLinks, Linked, LinkedEvents, DistinctTimes, Scoped, HasBaseline, ItemOk, ActiveSet, Submap;
    forall j | IsLatest(b, j) ensures j in Forgotten(b, job).snapshots && j in Forgotten(b, job).jobs {
      assert Agrees(b, j);
    }
    assert KeepsLatest(b, Forgotten(b, job));
    hide IsLatest, Agrees, KeepsLatest;
    SubmapItself(b.executions);
    SubmapItself(b.repositoryRuns);
    SubmapItself(b.jobs);
  }

  lemma {:induction false} ForgottenLinks(b: Book, job: JobId)
    requires Linked(b)
    ensures KeepsLinks(b, Forgotten(b, job))
  {
    ForgottenRows(b, job);
    hide Forgotten;
    forall k | k in b.occurrences ensures k in Forgotten(b, job).occurrences <==> k.job in Forgotten(b, job).snapshots {
      assert LinkedAt(b, k);
    }
  }

  /** What was swept from `t` can be forgotten in `b`. */
  lemma {:induction false} ForgottenStaysTrimmed(b: Book, t: Book, job: JobId)
    requires Good(b) && Trimmed(b, t) && job in b.snapshots && job !in t.snapshots
    ensures !IsLatest(b, job) && Good(Forgotten(b, job)) && Trimmed(Forgotten(b, job), t)
  {
    assert !IsLatest(b, job);
    hide Good, IsLatest, Forgotten, Submap, KeepsLinks, KeepsEvents, KeepsUnfinished;
    ForgettingTrims(b, job);
    ForgottenKeepsLatest(b, t, job);
    ForgottenRows(b, job);
    hide KeepsLatest;
    TrimmedIsGood(b, Forgotten(b, job));
    ForgottenKeepsEvents(b, t, job);
    ForgottenKeepsRows(b, t, job);
    ForgottenKeepsLinks(b, t, job);
  }

  lemma {:induction false} ForgottenKeepsLatest(b: Book, t: Book, job: JobId)
    requires Trimmed(b, t) && Trimmed(b, Forgotten(b, job))
    ensures KeepsLatest(Forgotten(b, job), t)
  {
    hide Forgotten, IsLatest, Submap, KeepsLinks, KeepsEvents, KeepsUnfinished;
    forall j | IsLatest(Forgotten(b, job), j) ensures j in t.snapshots && j in t.jobs {
      TrimmedLatest(b, Forgotten(b, job), j);
    }
  }

  lemma {:induction false} ForgottenKeepsRows(b: Book, t: Book, job: JobId)
    requires Good(b) && Trimmed(b, t) && job !in t.snapshots
    ensures Submap(t.snapshots, Forgotten(b, job).snapshots) && Submap(t.occurrences, Forgotten(b, job).occurrences)
    ensures KeepsUnfinished(Forgotten(b, job), t)
  {
    forall k | k in t.occurrences ensures k.job != job { assert LinkedAt(b, k); }
    hide Good;
    ForgottenRows(b, job);
    hide Forgotten, KeepsLinks, KeepsEvents, KeepsLatest;
  }

  lemma {:induction false} ForgottenKeepsLinks(b: Book, t: Book, job: JobId)
    requires KeepsLinks(b, t)
    ensures KeepsLinks(Forgotten(b, job), t)
  {
    ForgottenRows(b, job);
    hide Forgotten;
  }

  lemma {:induction false} ForgottenKeepsEvents(b: Book, t: Book, job: JobId)
    requires KeepsEvents(b, t) && job !in t.snapshots
    ensures KeepsEvents(Forgotten(b, job), t)
  {
    EventsNotOfAre(b.events, {job});
    hide EventsNotOf, EventsOf;
    forall j | j in t.snapshots
      ensures EventsOf(t.events, j) == EventsOf(Forgotten(b, job).events, j)
    {
      EventsNotOfOf(b.events, {job}, j);
    }
  }

  /** Work items whose source was recorded again still come from a recorded scan. */
  lemma {:induction false} RecordStaysSourced(b: Book, t: Book, op: Op)
    requires Scoped(b) && Sourced(b) && op.Record? && op.job in b.jobs && b.jobs[op.job].ws == op.ws && b.jobs[op.job].asset == op.asset
    requires op.job !in b.snapshots || Lost(b, t, op)
    ensures Sourced(Do(Reference(b, t, op), op))
  {
    hide Forgotten, Reference, Recorded, OccurrencesOf, PreparedFindings, CurrentMap, Sourced;
    var f := Reference(b, t, op);
    ReferenceRows(b, t, op);
    RecordedRows(f, op.ws, op.asset, op.job, op.findings, op.now);
    StillSourced(b, Do(f, op));
  }

  lemma {:induction false} ReferenceRows(b: Book, t: Book, op: Op)
    requires op.Record? && (op.job !in b.snapshots || Lost(b, t, op))
    ensures var f := Reference(b, t, op);
            && f.items == b.items && op.job !in f.snapshots
            && forall j :: j in b.snapshots && j != op.job ==> j in f.snapshots && f.snapshots[j] == b.snapshots[j]
  {
    ForgottenRows(b, op.job);
    hide Forgotten;
  }

  lemma {:induction false} RepeatStaysSimulated(b: Book, t: Book, op: Op)
    requires Simulates(t, b) && op.Record? && op.job in t.snapshots
    ensures Simulates(Do(t, op), Unswept(b, t, op)) && OutputOf(t, op) == OutputOf(Reference(b, t, op), op)
  {
    assert op.job in b.snapshots;
    SameRecording(b, t, op);
    AgainTheSame(b, op);
    AgainTheSame(t, op);
    hide Simulates, Do, OutputOf;
  }

  lemma {:induction false} NewStaysSimulated(b: Book, t: Book, op: Op)
    requires Simulates(t, b) && op.Record? && Enabled(t, op) && op.job !in t.snapshots
    ensures Simulates(Do(t, op), Unswept(b, t, op)) && OutputOf(t, op) == OutputOf(Reference(b, t, op), op)
  {
    RecordStaysSourced(b, t, op);
    if op.job in b.snapshots { ForgottenStaysTrimmed(b, t, op.job); }
    hide Good, Sourced, Forgotten;
    var f := Reference(b, t, op);
    NotInReference(b, t, op);
    FreshInBoth(f, t, op.ws, op.asset, op.job, op.now);
    hide Trimmed, FreshScan, Do, Reference, OutputOf;
    NewScanStaysTrimmed(f, t, op);
  }

  lemma {:induction false} RecordStaysSimulated(b: Book, t: Book, op: Op)
    requires Simulates(t, b) && op.Record? && Enabled(t, op)
    ensures Simulates(Do(t, op), Unswept(b, t, op)) && OutputOf(t, op) == OutputOf(Reference(b, t, op), op)
  {
    hide *;
    if op.job in t.snapshots { RepeatStaysSimulated(b, t, op); } else { NewStaysSimulated(b, t, op); }
  }

  lemma {:induction false} NotInReference(b: Book, t: Book, op: Op)
    requires op.Record? && op.job !in t.snapshots
    ensures op.job !in Reference(b, t, op).snapshots
  {
    hide OccurrencesNotOf, EventsNotOf;
  }

  /** What an operation other than a scan or a sweep leaves alone. */
  predicate EvidenceUntouched(b: Book, b': Book) {
    && b'.states == b.states && b'.snapshots == b.snapshots && b'.occurrences == b.occurrences && b'.events == b.events
    && b.jobs.Keys <= b'.jobs.Keys
  }

  function JobsAfter(jobs: map<JobId, JobRow>, op: Op): map<JobId, JobRow> {
    match op
    case AddJob(job, row) => jobs[job := row]
    case SetStatus(job, status, finishedAt) =>
      if job in jobs then jobs[job := jobs[job].(status := status, finishedAt := finishedAt)] else jobs
    case _ => jobs
  }

  lemma {:induction false} UpdateTouchesItems(b: Book, op: Op)
    requires op.Update?
    ensures Do(b, op) == b.(items := Do(b, op).items)
  {
    hide UpdateOutcome;
  }

  lemma {:induction false} VerifyTouchesItems(b: Book, op: Op)
    requires op.Verify?
    ensures Do(b, op) == b.(items := Do(b, op).items)
  {
    hide Verdict, VerifiedItem;
  }

  lemma {:induction false} StepLeavesEvidence(b: Book, op: Op)
    requires !op.Record? && !op.Sweep?
    ensures EvidenceUntouched(b, Do(b, op))
    ensures Do(b, op).jobs == JobsAfter(b.jobs, op)
  {
    if op.Verify? {
      VerifyTouchesItems(b, op);
      hide Do;
    } else if op.Update? {
      UpdateTouchesItems(b, op);
      hide Do;
    } else {
      hide Do;
      PlainLeavesEvidence(b, op);
    }
  }

  lemma {:induction false} PlainLeavesEvidence(b: Book, op: Op)
    requires !op.Record? && !op.Sweep? && !op.Verify? && !op.Update?
    ensures EvidenceUntouched(b, Do(b, op)) && Do(b, op).jobs == JobsAfter(b.jobs, op)
  {
    hide Recorded, Pruned, UpdateItem, VerifyItem;
    if op.AddJob? || op.SetStatus? {
      JobsLeaveEvidence(b, op);
    } else {
    }
  }

  lemma {:induction false} JobsLeaveEvidence(b: Book, op: Op)
    requires op.AddJob? || op.SetStatus?
    ensures EvidenceUntouched(b, Do(b, op)) && Do(b, op).jobs == JobsAfter(b.jobs, op)
  {
    hide Recorded, Pruned, UpdateItem, VerifyItem;
  }

  lemma {:induction false} LatestUntouched(b: Book, t: Book, b': Book, t': Book)
    requires KeepsLatest(b, t) && EvidenceUntouched(b, b') && EvidenceUntouched(t, t')
    ensures KeepsLatest(b', t')
  {
    forall j | IsLatest(b', j)
      ensures j in t'.snapshots && j in t'.jobs
    {
      assert IsLatest(b, j) by {
        forall k | k in b.snapshots && k != j && InScope(b.snapshots[k], b.snapshots[j].ws, b.snapshots[j].asset)
          ensures Newer(b, j, k)
        {
          assert Newer(b', j, k);
        }
      }
    }
  }

  /** The job tables of the two ledgers move together, and so do the notes on jobs. */
  lemma {:induction false} SameJobs(b: Book, t: Book, op: Op)
    requires Trimmed(b, t) && Enabled(b, op) && !op.Record? && !op.Sweep?
    ensures Submap(Do(t, op).jobs, Do(b, op).jobs) && KeepsUnfinished(Do(b, op), Do(t, op))
  {
    StepLeavesEvidence(b, op);
    StepLeavesEvidence(t, op);
    hide Do, KeepsLinks, KeepsEvents, KeepsLatest, FreshScan;
  }

  function ExecutionsAfter(executions: map<JobId, ScheduledExecution>, op: Op): map<JobId, ScheduledExecution> {
    if op.NoteExecution? then executions[op.job := op.execution] else executions
  }

  function RunsAfter(runs: map<JobId, RepositoryRun>, op: Op): map<JobId, RepositoryRun> {
    if op.NoteRepositoryRun? then runs[op.job := op.run] else runs
  }

  lemma {:induction false} StepNotes(b: Book, op: Op)
    requires !op.Record? && !op.Sweep?
    ensures Do(b, op).executions == ExecutionsAfter(b.executions, op)
    ensures Do(b, op).repositoryRuns == RunsAfter(b.repositoryRuns, op)
  {
    if op.Verify? {
      VerifyTouchesItems(b, op);
      hide Do;
    } else if op.Update? {
      UpdateTouchesItems(b, op);
      hide Do;
    } else {
      hide Recorded, Pruned, UpdateItem, VerifyItem;
    }
  }

  lemma {:induction false} SameNotes(b: Book, t: Book, op: Op)
    requires Trimmed(b, t) && !op.Record? && !op.Sweep?
    ensures Submap(Do(t, op).executions, Do(b, op).executions) && Submap(Do(t, op).repositoryRuns, Do(b, op).repositoryRuns)
  {
    StepNotes(b, op);
    StepNotes(t, op);
    hide Do, Submap, KeepsLinks, KeepsEvents, KeepsLatest, KeepsUnfinished;
    if op.NoteExecution? { SubmapUpdated(t.executions, b.executions, op.job, op.execution); }
    if op.NoteRepositoryRun? { SubmapUpdated(t.repositoryRuns, b.repositoryRuns, op.job, op.run); }
  }

  lemma {:induction false} SameItems(b: Book, t: Book, op: Op)
    requires Simulates(t, b) && !op.Record? && !op.Sweep?
    ensures Do(t, op).items == Do(b, op).items
  {
    hide *;
    SimulatesSameItems(b, t);
    if op.Verify? { SameVerdict(b, t, op.ws, op.item, op.job); }
    SameItemsOf(b, t, op);
  }

  lemma {:induction false} SameItemsOf(b: Book, t: Book, op: Op)
    requires t.items == b.items && !op.Record? && !op.Sweep?
    requires op.Verify? ==> Verdict(t, op.ws, op.item, op.job) == Verdict(b, op.ws, op.item, op.job)
    ensures Do(t, op).items == Do(b, op).items
  {
    hide Verdict, Recorded, Pruned, UpdateItem, VerifyItem;
    if op.Verify? {
      SameVerified(b, t, op.ws, op.item, op.job, op.now);
    } else if op.Update? {
      SameUpdated(b, t, op.ws, op.item, op.target, op.reason, op.changes, op.now);
    }
  }

  lemma {:induction false} SameVerified(b: Book, t: Book, ws: WorkspaceId, item: ItemId, job: JobId, now: Time)
    requires t.items == b.items && Verdict(t, ws, item, job) == Verdict(b, ws, item, job)
    ensures VerifyItem(t, ws, item, job, now).items == VerifyItem(b, ws, item, job, now).items
  {
    hide VerifiedItem;
  }

  lemma {:induction false} SameUpdated(b: Book, t: Book, ws: WorkspaceId, item: ItemId, status: Option<ItemStatus>, reason: TextChange, changes: Changes, now: Time)
    requires t.items == b.items
    ensures UpdateItem(t, ws, item, status, reason, changes, now).items == UpdateItem(b, ws, item, status, reason, changes, now).items
  {
    hide UpdatedItem;
  }

  lemma {:induction false} OtherStaysSimulated(b: Book, t: Book, op: Op)
    requires Simulates(t, b) && Enabled(b, op) && !op.Record? && !op.Sweep?
    ensures Simulates(Do(t, op), Do(b, op))
  {
    StepKeepsGood(b, op);
    StepLeavesEvidence(b, op);
    StepLeavesEvidence(t, op);
    LatestUntouched(b, t, Do(b, op), Do(t, op));
    SameJobs(b, t, op);
    SameNotes(b, t, op);
    SameItems(b, t, op);
    hide Do, JobsAfter, EvidenceUntouched, Enabled, Good, Sourced, KeepsLatest, KeepsUnfinished;
    StaysTrimmed(b, t, Do(b, op), Do(t, op));
  }

  lemma {:induction false} StaysTrimmed(b: Book, t: Book, b': Book, t': Book)
    requires Trimmed(b, t) && EvidenceUntouched(b, b') && EvidenceUntouched(t, t')
    requires t'.items == b'.items && Submap(t'.jobs, b'.jobs) && KeepsLatest(b', t') && KeepsUnfinished(b', t')
    requires Submap(t'.executions, b'.executions) && Submap(t'.repositoryRuns, b'.repositoryRuns)
    ensures Trimmed(b', t')
  {
    hide KeepsLatest, KeepsUnfinished, EventsOf;
  }

  lemma {:induction false} SweepStaysSimulated(b: Book, t: Book, op: Op)
    requires Simulates(t, b) && op.Sweep?
    ensures Simulates(Do(t, op), b)
  {
    var t' := Do(t, op);
    TrimmedIsGood(b, t);
    PruneTrims(t, op.ws, op.cutoff, op.cascade);
    TrimmedTwice(b, t, t');
    hide Do, Good, Sourced, Trimmed;
  }

  /** What can be done to the swept ledger can be done to the unswept one. */
  lemma {:induction false} EnabledInBoth(b: Book, t: Book, op: Op)
    requires Trimmed(b, t) && CanDo(b, t, op) && !op.Record?
    ensures Enabled(b, op)
  {
    hide KeepsLinks, KeepsEvents, KeepsLatest, KeepsUnfinished, FreshScan, FromScan;
  }

  lemma {:induction false} StaysSimulated(b: Book, t: Book, op: Op)
    requires Simulates(t, b) && CanDo(b, t, op)
    ensures Simulates(Do(t, op), Unswept(b, t, op))
    ensures !op.Sweep? ==> OutputOf(t, op) == OutputOf(Reference(b, t, op), op)
  {
    hide Simulates, Do, OutputOf, Enabled, CanDo, Trimmed;
    if op.Record? {
      RecordCanBe(b, t, op);
      RecordStaysSimulated(b, t, op);
    } else if op.Sweep? {
      SweepStaysSimulated(b, t, op);
    } else {
      OtherCanBe(b, t, op);
      OtherStaysSimulated(b, t, op);
      OtherOutputs(b, t, op);
    }
  }

  lemma {:induction false} RecordCanBe(b: Book, t: Book, op: Op)
    requires CanDo(b, t, op) && op.Record?
    ensures Enabled(t, op)
  {
    hide Enabled;
  }

  lemma {:induction false} OtherCanBe(b: Book, t: Book, op: Op)
    requires Simulates(t, b) && CanDo(b, t, op) && !op.Record?
    ensures Enabled(b, op)
  {
    hide Good, Sourced, Trimmed, CanDo, Enabled;
    EnabledInBoth(b, t, op);
  }

  lemma {:induction false} OtherOutputs(b: Book, t: Book, op: Op)
    requires Simulates(t, b) && !op.Record? && !op.Sweep?
    ensures OutputOf(t, op) == OutputOf(b, op)
  {
    hide Simulates, Verdict, UpdatedItem;
    SimulatesSameItems(b, t);
    if op.Verify? { SameVerdict(b, t, op.ws, op.item, op.job); }
  }

  lemma {:induction false} SimulatesSameItems(b: Book, t: Book)
    requires Simulates(t, b)
    ensures t.items == b.items && t.states == b.states
  {
  }

  /** Sweeps only make the ledger forget scans that are recorded again. In every run, with
      retention sweeps of any workspace, at any cutoff, at any points of it: every recording
      returns the drift events, every verification the verdict, and every update the outcome it
      has in the run without the sweeps in which a repeated recording that finds the first one
      swept counts as a new one, and so does a job created again under the id of a swept one; the
      states and the work items end up the same. */
  lemma {:induction false} SweepsOnlyForget(b: Book, t: Book, ops: seq<Op>)
    requires Simulates(t, b) && Possible(b, t, ops)
    ensures Outputs(t, ops) == UnsweptOutputs(b, t, ops)
    ensures Simulates(After(t, ops), UnsweptAfter(b, t, ops))
    ensures After(t, ops).states == UnsweptAfter(b, t, ops).states
    ensures After(t, ops).items == UnsweptAfter(b, t, ops).items
    decreases |ops|
  {
    if ops == [] {
      SimulatesSameItems(b, t);
    } else {
      StaysSimulated(b, t, ops[0]);
      hide Simulates, Do, OutputOf, CanDo, Unswept, Reference;
      SweepsOnlyForget(Unswept(b, t, ops[0]), Do(t, ops[0]), ops[1..]);
    }
  }

  lemma {:induction false} UnsweptIsWithoutSweeps(b: Book, t: Book, ops: seq<Op>)
    requires NothingLost(b, t, ops)
    ensures UnsweptOutputs(b, t, ops) == Outputs(b, WithoutSweeps(ops))
    ensures UnsweptAfter(b, t, ops) == After(b, WithoutSweeps(ops))
    decreases |ops|
  {
    if ops != [] {
      assert Reference(b, t, ops[0]) == b;
      UnsweptIsWithoutSweeps(Unswept(b, t, ops[0]), Do(t, ops[0]), ops[1..]);
      hide Do, OutputOf, Lost;
      if !ops[0].Sweep? {
        assert ([ops[0]] + WithoutSweeps(ops[1..]))[1..] == WithoutSweeps(ops[1..]);
      } else {
        assert [] + WithoutSweeps(ops[1..]) == WithoutSweeps(ops[1..]);
        assert [] + UnsweptOutputs(b, Do(t, ops[0]), ops[1..]) == UnsweptOutputs(b, Do(t, ops[0]), ops[1..]);
      }
    }
  }

  /** Pruning is invisible: in every run, with sweeps as above, in which no recording finds an
      earlier one of its own job swept and no swept job is created again, all outputs, the states
      and the work items are those of the run without the sweeps. */
  lemma {:induction false} PruningIsInvisible(b: Book, t: Book, ops: seq<Op>)
    requires Simulates(t, b) && Possible(b, t, ops) && NothingLost(b, t, ops)
    ensures Outputs(t, ops) == Outputs(b, WithoutSweeps(ops))
    ensures Simulates(After(t, ops), After(b, WithoutSweeps(ops)))
    ensures After(t, ops).states == After(b, WithoutSweeps(ops)).states
    ensures After(t, ops).items == After(b, WithoutSweeps(ops)).items
  {
    hide *;
    SweepsOnlyForget(b, t, ops);
    UnsweptIsWithoutSweeps(b, t, ops);
  }

  /** The views of the ledger agree in every reachable state, sweeps included. */
  lemma {:induction false} GoodOnEveryRun(b: Book, ops: seq<Op>)
    requires Good(b) && Sourced(b) && Possible(b, b, ops)
    ensures Good(After(b, ops))
  {
    SimulatesItself(b);
    SweepsOnlyForget(b, b, ops);
    TrimmedIsGood(UnsweptAfter(b, b, ops), After(b, ops));
  }
}
