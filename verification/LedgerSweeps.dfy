/** When a retention sweep shows after all: recordings that find an earlier one of their own job
    swept, and collections whose base run is gone. */
module LedgerSweeps {
  import opened Common
  import opened Ledger
  import opened LedgerInvariant
  import opened LedgerPruning
  import opened LedgerRuns
  import opened LedgerViews
  import Q = ScanQueue

  // ---------------------------------------------------------------- one repeated recording

  lemma {:induction false} NoFindingsSelected(job: JobId)
    ensures Selected([]) == map[] && CurrentMap(PreparedFindings(job, [])).Keys == {}
  {
    PreparedMap(job, []);
    hide PreparedFindings, CurrentMap;
    assert Selected([]) == map[];
  }

  lemma {:induction false} EmptyScanOfQuietAsset(b: Book, op: Op)
    requires op.Record? && op.findings == [] && op.job !in b.snapshots && ActiveSet(b, op.ws, op.asset) == {}
    ensures Do(b, op).states == b.states
  {
    NoFindingsSelected(op.job);
    hide PreparedFindings, CurrentMap, ScanEvents, OccurrencesOf;
    QuietStates(b, op.ws, op.asset, op.job, CurrentMap(PreparedFindings(op.job, [])), op.now);
    hide StatesAfter;
  }

  lemma {:induction false} QuietStates(b: Book, ws: WorkspaceId, asset: AssetId, job: JobId, current: map<Fingerprint, Finding>, now: Time)
    requires current.Keys == {} && ActiveSet(b, ws, asset) == {}
    ensures StatesAfter(b, ws, asset, job, current, now) == b.states
  {
    forall k | k in b.states && k.ws == ws && k.asset == asset ensures !b.states[k].active {
      assert k == StateKey(ws, asset, k.fp);
      assert k.fp !in ActiveSet(b, ws, asset);
    }
    hide ActiveSet;
  }

  lemma {:induction false} ScanShows(b: Book, op: Op)
    requires op.Record? && op.job !in b.snapshots && !(op.findings == [] && ActiveSet(b, op.ws, op.asset) == {})
    ensures Do(b, op).states != b.states
  {
    if op.findings == [] {
      NoFindingsSelected(op.job);
      ActiveAfterScan(b, op.ws, op.asset, op.job, op.findings, op.now);
      RecordedRows(b, op.ws, op.asset, op.job, op.findings, op.now);
      hide Recorded, PreparedFindings, CurrentMap, OccurrencesOf;
      assert ActiveSet(Do(b, op), op.ws, op.asset) == {};
    } else {
      SelectedFps(op.findings);
      assert op.findings[0] in op.findings;
      var k := StateKey(op.ws, op.asset, Fp(op.findings[0]));
      hide Do, Selected;
      StepCounts(b, op, k);
    }
  }

  lemma {:induction false} EmptyScanIsSilent(b: Book, op: Op)
    requires op.Record? && op.findings == [] && op.job !in b.snapshots && ActiveSet(b, op.ws, op.asset) == {}
    ensures OutputOf(b, op) == Drift([])
  {
    NoFindingsSelected(op.job);
    var prepared := PreparedFindings(op.job, []);
    assert prepared == [];
    hide PreparedFindings, ObservedEvents, ResolvedEvents;
    assert Gone(b, op.ws, op.asset, CurrentMap(prepared)) == {};
    assert ObservedEvents(b, op.ws, op.asset, op.job, [], op.now) == [] by { NothingObserved(b, op); }
  }

  lemma {:induction false} NothingObserved(b: Book, op: Op)
    requires op.Record?
    ensures ObservedEvents(b, op.ws, op.asset, op.job, [], op.now) == []
    ensures ResolvedEvents(b, op.ws, op.asset, op.job, [], op.now) == []
  {
  }

  /** An empty scan of an asset with nothing active. */
  predicate ChangesNothing(b: Book, op: Op) {
    op.Record? && op.findings == [] && ActiveSet(b, op.ws, op.asset) == {}
  }

  lemma {:induction false} LostShows(b: Book, t: Book, op: Op)
    requires t.states == b.states && Lost(b, t, op)
    ensures Do(t, op).states == Do(b, op).states <==> ChangesNothing(b, op)
    ensures ChangesNothing(b, op) ==> (OutputOf(t, op) == OutputOf(b, op) <==> EventsOf(b.events, op.job) == [])
  {
    AgainTheSame(b, op);
    assert OutputOf(b, op) == Drift(EventsOf(b.events, op.job));
    hide OutputOf, Do;
    assert ActiveSet(t, op.ws, op.asset) == ActiveSet(b, op.ws, op.asset);
    if ChangesNothing(b, op) {
      EmptyScanOfQuietAsset(t, op);
      EmptyScanIsSilent(t, op);
    } else {
      ScanShows(t, op);
    }
  }

  lemma {:induction false} KeptIsSame(b: Book, t: Book, op: Op)
    requires Trimmed(b, t) && op.Record? && !Lost(b, t, op)
    ensures Do(t, op).states == Do(b, op).states && OutputOf(t, op) == OutputOf(b, op)
  {
    assert op.job in t.snapshots ==> op.job in b.snapshots;
    hide Do, OutputOf, KeepsLinks, KeepsEvents, KeepsLatest, KeepsUnfinished, Submap;
    SameStates(b, t, op);
    SameRecording(b, t, op);
  }

  /** A recording leaves the swept ledger with the states and returns the events of the unswept
      one, unless it finds an earlier recording of its own job swept. Then the states differ
      exactly unless it found nothing in an asset that has nothing active, and in that case the
      events differ exactly unless the earlier recording had none. */
  lemma {:induction false} RepeatShows(b: Book, t: Book, op: Op)
    requires Simulates(t, b) && op.Record?
    ensures Do(t, op).states == Do(b, op).states <==> !Lost(b, t, op) || ChangesNothing(b, op)
    ensures Do(t, op).states == Do(b, op).states && OutputOf(t, op) == OutputOf(b, op)
            <==> !Lost(b, t, op) || (ChangesNothing(b, op) && EventsOf(b.events, op.job) == [])
  {
    hide *;
    SimulatesSameItems(b, t);
    SimulatesRows(b, t);
    if Lost(b, t, op) { LostShows(b, t, op); } else { KeptIsSame(b, t, op); }
  }

  // ---------------------------------------------------------------- scans shorter than the retention period

  /** An unfinished job that has recorded its scan keeps its snapshot. */
  ghost predicate KeepsRetries(b: Book, t: Book) {
    forall j :: j in b.jobs && !Q.Terminal(b.jobs[j].status) && j in b.snapshots ==> j in t.snapshots
  }

  /** Scans are recorded by unfinished jobs, no sweep reaches back to the scan of one, and no swept
      job is created again. */
  ghost predicate PatientStep(b: Book, op: Op) {
    && !Recreates(b, op)
    && (op.Record? ==> op.job in b.jobs && !Q.Terminal(b.jobs[op.job].status))
    && (op.Sweep? ==> forall j :: j in b.jobs && !Q.Terminal(b.jobs[j].status) && j in b.snapshots ==>
          op.cutoff <= b.snapshots[j].completedAt)
  }

  ghost predicate Patient(b: Book, t: Book, ops: seq<Op>)
    decreases |ops|
  {
    ops != [] ==> PatientStep(b, ops[0]) && Patient(Unswept(b, t, ops[0]), Do(t, ops[0]), ops[1..])
  }

  lemma {:induction false} SweepKeepsRetries(b: Book, t: Book, op: Op)
    requires Simulates(t, b) && KeepsRetries(b, t) && op.Sweep? && PatientStep(b, op)
    ensures KeepsRetries(b, Do(t, op))
  {
    SimulatesRows(b, t);
    hide Pruned, SweptJobs, ProtectedJobs, Good, Sourced, Simulates, Trimmed, KeepsLinks, KeepsLatest;
    PrunedRows(t, op.ws, op.cutoff, op.cascade);
    SweepIs(t, op.ws, op.cutoff, op.cascade);
    hide Do;
    forall j | j in b.jobs && !Q.Terminal(b.jobs[j].status) && j in b.snapshots
      ensures j in Do(t, op).snapshots
    {
      if j in SweptJobs(t, op.ws, op.cutoff) { SweptAreStale(t, op.ws, op.cutoff, j); }
    }
  }

  lemma {:induction false} RecordKeepsRetries(b: Book, t: Book, op: Op)
    requires Simulates(t, b) && KeepsRetries(b, t) && op.Record? && PatientStep(b, op)
    ensures !Lost(b, t, op) && KeepsRetries(Do(b, op), Do(t, op))
  {
    SimulatesRows(b, t);
    hide Simulates, Good, Sourced, Trimmed, KeepsLinks, KeepsLatest;
    if op.job in b.snapshots {
      AgainTheSame(b, op);
      AgainTheSame(t, op);
      hide Do;
    } else {
      RecordedRows(b, op.ws, op.asset, op.job, op.findings, op.now);
      RecordedRows(t, op.ws, op.asset, op.job, op.findings, op.now);
      hide Recorded, PreparedFindings, CurrentMap, OccurrencesOf;
    }
  }

  lemma {:induction false} OtherKeepsRetries(b: Book, t: Book, op: Op)
    requires Simulates(t, b) && CanDo(b, t, op) && KeepsRetries(b, t) && PatientStep(b, op) && !op.Record? && !op.Sweep?
    ensures KeepsRetries(Do(b, op), Do(t, op))
  {
    StepLeavesEvidence(b, op);
    StepLeavesEvidence(t, op);
    OtherCanBe(b, t, op);
    NoRetryYet(b, op);
    hide Do, Simulates, CanDo, Enabled, PatientStep;
  }

  /** A job that gets another row, or a new one, is not one whose finished scan could be gone. */
  lemma {:induction false} NoRetryYet(b: Book, op: Op)
    requires Enabled(b, op) && PatientStep(b, op)
    ensures op.AddJob? ==> op.job !in b.snapshots
    ensures op.SetStatus? ==> op.job in b.jobs && !Q.Terminal(b.jobs[op.job].status)
  {
  }

  lemma {:induction false} StepKeepsRetries(b: Book, t: Book, op: Op)
    requires Simulates(t, b) && CanDo(b, t, op) && KeepsRetries(b, t) && PatientStep(b, op)
    ensures !Lost(b, t, op) && !Recreates(b, op) && KeepsRetries(Unswept(b, t, op), Do(t, op))
  {
    assert !Recreates(b, op);
    hide Simulates, KeepsRetries, CanDo, PatientStep, Recreates, Do;
    if op.Sweep? {
      SweepKeepsRetries(b, t, op);
    } else if op.Record? {
      RecordKeepsRetries(b, t, op);
    } else {
      OtherKeepsRetries(b, t, op);
    }
  }

  /** Where scans are recorded by unfinished jobs and take no longer than the retention period,
      no recording finds an earlier one of its job swept, so that pruning is invisible. */
  lemma {:induction false} PatientRunsLoseNothing(b: Book, t: Book, ops: seq<Op>)
    requires Simulates(t, b) && KeepsRetries(b, t) && Possible(b, t, ops) && Patient(b, t, ops)
    ensures NothingLost(b, t, ops)
    decreases |ops|
  {
    if ops != [] {
      StaysSimulated(b, t, ops[0]);
      StepKeepsRetries(b, t, ops[0]);
      hide Simulates, KeepsRetries, Do, CanDo, Unswept, PatientStep, Lost, Recreates;
      PatientRunsLoseNothing(Unswept(b, t, ops[0]), Do(t, ops[0]), ops[1..]);
    }
  }

  // ---------------------------------------------------------------- runs one operation longer

  lemma {:induction false} OneMore(b: Book, t: Book, ops: seq<Op>, op: Op)
    requires Possible(b, t, ops) && CanDo(UnsweptAfter(b, t, ops), After(t, ops), op)
    ensures Possible(b, t, ops + [op]) && After(t, ops + [op]) == Do(After(t, ops), op)
    ensures UnsweptAfter(b, t, ops + [op]) == Unswept(UnsweptAfter(b, t, ops), After(t, ops), op)
    decreases |ops|
  {
    hide Do, CanDo, Unswept;
    if ops == [] {
      assert ops + [op] == [op];
    } else {
      assert (ops + [op])[1..] == ops[1..] + [op];
      OneMore(Unswept(b, t, ops[0]), Do(t, ops[0]), ops[1..], op);
    }
  }

  /** Without a sweep so far the two ledgers are one. */
  lemma {:induction false} OneMoreUnswept(b: Book, ops: seq<Op>, op: Op)
    requires Possible(b, b, ops) && UnsweptAfter(b, b, ops) == After(b, ops) && !op.Sweep?
    requires CanDo(After(b, ops), After(b, ops), op)
    ensures Possible(b, b, ops + [op]) && After(b, ops + [op]) == Do(After(b, ops), op)
    ensures UnsweptAfter(b, b, ops + [op]) == After(b, ops + [op])
  {
    hide Do, CanDo, Possible, After, UnsweptAfter;
    OneMore(b, b, ops, op);
  }

  lemma {:induction false} WithoutSweepsOneMore(ops: seq<Op>, op: Op)
    ensures WithoutSweeps(ops + [op]) == WithoutSweeps(ops) + if op.Sweep? then [] else [op]
  {
    if ops == [] {
      assert ops + [op] == [op];
    } else {
      assert (ops + [op])[1..] == ops[1..] + [op];
      WithoutSweepsOneMore(ops[1..], op);
    }
  }

  // ---------------------------------------------------------------- scans of an asset with little to find

  /** Nothing is active in any asset. */
  ghost predicate Quiet(b: Book) {
    forall k :: k in b.states ==> !b.states[k].active
  }

  lemma {:induction false} QuietMeans(b: Book)
    ensures Quiet(b) <==> forall ws, asset :: ActiveSet(b, ws, asset) == {}
  {
    if forall ws, asset :: ActiveSet(b, ws, asset) == {} {
      forall k | k in b.states ensures !b.states[k].active {
        assert k.fp !in ActiveSet(b, k.ws, k.asset);
      }
    }
  }

  /** What only a scan changes. */
  predicate SameTables(b: Book, b': Book) {
    && b'.jobs == b.jobs && b'.items == b.items && b'.findings == b.findings
    && b'.repositoryRuns == b.repositoryRuns && b'.executions == b.executions
  }

  lemma {:induction false} ScanLeavesTables(b: Book, ws: WorkspaceId, asset: AssetId, job: JobId, findings: seq<Finding>, now: Time)
    requires job !in b.snapshots
    ensures SameTables(b, Recorded(b, ws, asset, job, findings, now))
  {
    RecordedRows(b, ws, asset, job, findings, now);
    hide Recorded;
  }

  /** Nothing is active outside one asset. */
  ghost predicate QuietElsewhere(b: Book, ws: WorkspaceId, asset: AssetId) {
    forall w, a :: w != ws || a != asset ==> ActiveSet(b, w, a) == {}
  }

  /** Recording a scan when nothing is active in any other asset. */
  lemma {:induction false} OnlyScan(b: Book, ws: WorkspaceId, asset: AssetId, job: JobId, findings: seq<Finding>, now: Time)
    requires job !in b.snapshots && QuietElsewhere(b, ws, asset)
    ensures var b' := Recorded(b, ws, asset, job, findings, now);
            var found := Selected(findings).Keys;
            && QuietElsewhere(b', ws, asset) && ActiveSet(b', ws, asset) == found && SameTables(b, b')
            && b'.snapshots == b.snapshots[job := Snapshot(ws, asset, now, |found|, found)]
  {
    ScanLeavesTables(b, ws, asset, job, findings, now);
    ActiveAfterScan(b, ws, asset, job, findings, now);
    RecordedRows(b, ws, asset, job, findings, now);
    FoundIs(job, findings);
    hide Recorded, PreparedFindings, CurrentMap, OccurrencesOf, ActiveSet, Selected;
  }

  lemma {:induction false} FoundIs(job: JobId, findings: seq<Finding>)
    ensures var current := CurrentMap(PreparedFindings(job, findings));
            current.Keys == Selected(findings).Keys && |current| == |Selected(findings).Keys|
  {
    PreparedMap(job, findings);
    hide PreparedFindings, CurrentMap, Selected;
    var current := CurrentMap(PreparedFindings(job, findings));
    assert current.Keys == Selected(findings).Keys;
    assert |current| == |current.Keys|;
  }

  lemma {:induction false} OneSelected(f: Finding)
    ensures Selected([f]).Keys == {Fp(f)}
  {
    assert [f][..0] == [];
    assert Selected([f]) == map[Fp(f) := f];
  }

  lemma {:induction false} QuietIs(b: Book, ws: WorkspaceId, asset: AssetId)
    ensures Quiet(b) <==> QuietElsewhere(b, ws, asset) && ActiveSet(b, ws, asset) == {}
  {
    QuietMeans(b);
    hide Quiet, ActiveSet;
  }

  /** Two scans of the only asset scanned, the later one its newest. */
  ghost predicate OlderAndNewer(b: Book, ws: WorkspaceId, asset: AssetId, older: JobId, newer: JobId, cutoff: Time) {
    && older in b.snapshots && newer in b.snapshots
    && b.snapshots[older].completedAt < cutoff <= b.snapshots[newer].completedAt
    && forall k :: k in b.snapshots ==>
         InScope(b.snapshots[k], ws, asset) && (k != newer ==> b.snapshots[k].completedAt < b.snapshots[newer].completedAt)
  }

  /** In a quiet ledger without repository runs and work items nothing protects the older one. */
  lemma {:induction false} OlderIsUnprotected(b: Book, ws: WorkspaceId, asset: AssetId, older: JobId, newer: JobId, cutoff: Time)
    requires OlderAndNewer(b, ws, asset, older, newer, cutoff) && Quiet(b) && b.items == map[] && b.repositoryRuns == map[]
    ensures older !in ProtectedJobs(b, ws)
  {
    assert older !in JobsOfNewestSnapshots(b, ws) by {
      assert forall k :: NewestSnapshot(b, ws, k) ==> k == newer;
    }
    assert LastJobsOfActive(b, ws) == {};
    assert JobsOfNewestRuns(b, ws) == {} && JobsOfUnfinishedItems(b, ws) == {};
    hide LastJobsOfActive, JobsOfNewestSnapshots, JobsOfNewestRuns, JobsOfUnfinishedItems;
  }

  /** So a sweep of its workspace takes it away. */
  lemma {:induction false} OlderIsSwept(b: Book, ws: WorkspaceId, asset: AssetId, older: JobId, newer: JobId, cutoff: Time, cascade: bool)
    requires OlderAndNewer(b, ws, asset, older, newer, cutoff) && Quiet(b) && b.items == map[] && b.repositoryRuns == map[]
    ensures older !in Pruned(b, ws, cutoff, cascade).snapshots
  {
    OlderIsUnprotected(b, ws, asset, older, newer, cutoff);
    PrunedRows(b, ws, cutoff, cascade);
    hide Pruned, SweptJobs, ProtectedJobs, Quiet;
  }

  // ---------------------------------------------------------------- runs from the empty ledger

  /** A run without sweeps from the empty ledger leads to `b`. */
  ghost predicate Reached(ops: seq<Op>, b: Book) {
    Possible(EMPTY, EMPTY, ops) && After(EMPTY, ops) == b && UnsweptAfter(EMPTY, EMPTY, ops) == b
  }

  lemma {:induction false} ReachedBy(ops: seq<Op>, b: Book, op: Op)
    requires Reached(ops, b) && CanDo(b, b, op) && !op.Sweep?
    ensures Reached(ops + [op], Do(b, op))
  {
    hide Do, CanDo, Possible, After, UnsweptAfter;
    OneMoreUnswept(EMPTY, ops, op);
  }

  function WithJob(b: Book, job: JobId, row: JobRow): Book {
    b.(jobs := b.jobs[job := row], queueRows := b.queueRows + {job})
  }

  lemma {:induction false} ReachedByJob(ops: seq<Op>, b: Book, job: JobId, row: JobRow)
    requires Reached(ops, b) && job !in b.jobs && job !in b.snapshots && job !in b.executions && job !in b.repositoryRuns
    ensures Reached(ops + [AddJob(job, row)], WithJob(b, job, row))
  {
    hide Reached;
    ReachedBy(ops, b, AddJob(job, row));
  }

  lemma {:induction false} ReachedByScan(ops: seq<Op>, b: Book, ws: WorkspaceId, asset: AssetId, job: JobId, findings: seq<Finding>, now: Time)
    requires Reached(ops, b) && FreshScan(b, ws, asset, job, now)
    ensures Reached(ops + [Record(ws, asset, job, findings, now)], Recorded(b, ws, asset, job, findings, now))
  {
    hide Reached, Recorded;
    ReachedBy(ops, b, Record(ws, asset, job, findings, now));
  }

  // ---------------------------------------------------------------- a repeated recording that shows

  function RunningJob(ws: WorkspaceId, asset: AssetId): JobRow { JobRow(ws, asset, Q.Running, None) }

  /** Two scans of one asset: the first found something, the second nothing. */
  function TwoScans(ws: WorkspaceId, asset: AssetId, first: JobId, second: JobId, f: Finding): seq<Op> {
    [] + [AddJob(first, RunningJob(ws, asset))] + [Record(ws, asset, first, [f], 10)]
    + [AddJob(second, RunningJob(ws, asset))] + [Record(ws, asset, second, [], 20)]
  }

  ghost predicate HasTwoScans(b: Book, ws: WorkspaceId, asset: AssetId, first: JobId, second: JobId, f: Finding) {
    && Quiet(b) && b.items == map[] && b.repositoryRuns == map[]
    && b.jobs == map[first := RunningJob(ws, asset), second := RunningJob(ws, asset)]
    && b.snapshots == map[first := Snapshot(ws, asset, 10, 1, {Fp(f)}), second := Snapshot(ws, asset, 20, 0, {})]
  }

  lemma {:induction false} FirstJobLeaves(ws: WorkspaceId, asset: AssetId, job: JobId)
    ensures var b := WithJob(EMPTY, job, RunningJob(ws, asset));
            && Reached([] + [AddJob(job, RunningJob(ws, asset))], b)
            && FreshScan(b, ws, asset, job, 10) && QuietElsewhere(b, ws, asset)
  {
    assert Reached([], EMPTY);
    ReachedByJob([], EMPTY, job, RunningJob(ws, asset));
    hide Reached;
  }

  lemma {:induction false} FirstScanLeaves(ws: WorkspaceId, asset: AssetId, job: JobId, f: Finding) returns (b: Book)
    ensures Reached([] + [AddJob(job, RunningJob(ws, asset))] + [Record(ws, asset, job, [f], 10)], b)
    ensures b.jobs == map[job := RunningJob(ws, asset)] && b.snapshots == map[job := Snapshot(ws, asset, 10, 1, {Fp(f)})]
    ensures b.items == map[] && b.repositoryRuns == map[] && b.executions == map[] && b.findings == map[]
    ensures QuietElsewhere(b, ws, asset) && ActiveSet(b, ws, asset) == {Fp(f)}
  {
    FirstJobLeaves(ws, asset, job);
    hide Recorded, ActiveSet, QuietElsewhere, Reached, FreshScan, Selected;
    var b1 := WithJob(EMPTY, job, RunningJob(ws, asset));
    b := Recorded(b1, ws, asset, job, [f], 10);
    ReachedByScan([] + [AddJob(job, RunningJob(ws, asset))], b1, ws, asset, job, [f], 10);
    OneSelected(f);
    OnlyScan(b1, ws, asset, job, [f], 10);
  }

  lemma {:induction false} TwoScansLeave(ws: WorkspaceId, asset: AssetId, first: JobId, second: JobId, f: Finding) returns (b: Book)
    requires first != second
    ensures Reached(TwoScans(ws, asset, first, second, f), b) && HasTwoScans(b, ws, asset, first, second, f)
  {
    hide Reached, QuietElsewhere, Quiet;
    var b2 := FirstScanLeaves(ws, asset, first, f);
    var ops2 := [] + [AddJob(first, RunningJob(ws, asset))] + [Record(ws, asset, first, [f], 10)];
    b := EmptyScanLeaves(ops2, b2, ws, asset, second, 20);
  }

  /** A new job that finds nothing in the only asset with anything active. */
  lemma {:induction false} EmptyScanLeaves(ops: seq<Op>, b: Book, ws: WorkspaceId, asset: AssetId, job: JobId, at: Time) returns (b': Book)
    requires Reached(ops, b) && QuietElsewhere(b, ws, asset) && b.executions == map[] && b.repositoryRuns == map[]
    requires job !in b.jobs && job !in b.snapshots && forall j :: j in b.snapshots ==> b.snapshots[j].completedAt < at
    ensures Reached(ops + [AddJob(job, RunningJob(ws, asset))] + [Record(ws, asset, job, [], at)], b') && Quiet(b')
    ensures b'.jobs == b.jobs[job := RunningJob(ws, asset)] && b'.snapshots == b.snapshots[job := Snapshot(ws, asset, at, 0, {})]
    ensures b'.items == b.items && b'.repositoryRuns == map[] && b'.findings == b.findings && b'.occurrences == b.occurrences
    ensures b'.executions == map[] && b.events <= b'.events
    ensures HasBaseline(b, ws, asset) && ActiveSet(b, ws, asset) != {} ==> EventsOf(b'.events, job) != []
  {
    hide Reached, ActiveSet, Recorded, Selected, Quiet, HasBaseline, OccurrencesOf, CurrentMap, PreparedFindings, EventsOf;
    var b1 := WithJob(b, job, RunningJob(ws, asset));
    ReachedByJob(ops, b, job, RunningJob(ws, asset));
    SameActiveSets(b, b1);
    assert FreshScan(b1, ws, asset, job, at);
    b' := Recorded(b1, ws, asset, job, [], at);
    hide FreshScan;
    ReachedByScan(ops + [AddJob(job, RunningJob(ws, asset))], b1, ws, asset, job, [], at);
    OnlyScan(b1, ws, asset, job, [], at);
    NoFindingsSelected(job);
    QuietIs(b', ws, asset);
    NoNewOccurrences(b1, ws, asset, job, at);
    EmptyScanEvents(b1, ws, asset, job, at);
    assert HasBaseline(b1, ws, asset) <==> HasBaseline(b, ws, asset) by { SameBaselines(b, b1, ws, asset); }
  }

  lemma {:induction false} SameBaselines(b: Book, b': Book, ws: WorkspaceId, asset: AssetId)
    requires b'.snapshots == b.snapshots
    ensures HasBaseline(b', ws, asset) <==> HasBaseline(b, ws, asset)
  {
  }

  /** An empty scan resolves what was active, and says so unless it is the first. */
  lemma {:induction false} EmptyScanResolves(b: Book, ws: WorkspaceId, asset: AssetId, job: JobId, at: Time)
    requires job !in b.snapshots && HasBaseline(b, ws, asset) && ActiveSet(b, ws, asset) != {}
    ensures RecordedEvents(b, ws, asset, job, [], at) != []
  {
    NoFindingsSelected(job);
    var prepared := PreparedFindings(job, []);
    hide PreparedFindings, CurrentMap, ActiveSet, HasBaseline, ObservedEvents, NewEvent;
    var gone := Sorted(Gone(b, ws, asset, CurrentMap(prepared)));
    assert gone != [] && forall i :: 0 <= i < |gone| ==> gone[i] in gone;
    assert ResolvedEvents(b, ws, asset, job, gone, at) != [];
  }

  lemma {:induction false} EmptyScanEvents(b: Book, ws: WorkspaceId, asset: AssetId, job: JobId, at: Time)
    requires job !in b.snapshots
    ensures var b' := Recorded(b, ws, asset, job, [], at);
            && b.events <= b'.events
            && (HasBaseline(b, ws, asset) && ActiveSet(b, ws, asset) != {} ==> EventsOf(b'.events, job) != [])
  {
    var more := RecordedEvents(b, ws, asset, job, [], at);
    hide *;
    RecordAddsEvents(b, ws, asset, job, [], at);
    if HasBaseline(b, ws, asset) && ActiveSet(b, ws, asset) != {} { EmptyScanResolves(b, ws, asset, job, at); }
    AllEventsOf(more, job);
    EventsOfConcat(b.events, more, job);
  }

  lemma {:induction false} NoNewOccurrences(b: Book, ws: WorkspaceId, asset: AssetId, job: JobId, at: Time)
    requires job !in b.snapshots
    ensures Recorded(b, ws, asset, job, [], at).occurrences == b.occurrences
  {
    RecordedRows(b, ws, asset, job, [], at);
    NoFindingsSelected(job);
    hide Recorded, PreparedFindings, CurrentMap;
    assert OccurrencesOf(ws, asset, job, CurrentMap(PreparedFindings(job, [])), at) == map[];
  }

  lemma {:induction false} SameActiveSets(b: Book, b': Book)
    requires b'.states == b.states
    ensures forall ws, asset :: ActiveSet(b', ws, asset) == ActiveSet(b, ws, asset)
  {
  }

  /** The sweep takes the first of the two scans away, and its job may record it again. */
  lemma {:induction false} SweptThenAgain(b: Book, ws: WorkspaceId, asset: AssetId, first: JobId, second: JobId, f: Finding, cascade: bool)
    requires first != second && HasTwoScans(b, ws, asset, first, second, f)
    ensures var t := Pruned(b, ws, 15, cascade);
            && FreshScan(t, ws, asset, first, 30)
            && ActiveSet(Recorded(t, ws, asset, first, [f], 30), ws, asset) == {Fp(f)}
    ensures ActiveSet(b, ws, asset) == {}
  {
    hide Recorded, ActiveSet, Pruned, ProtectedJobs, SweptJobs, Old, Selected;
    QuietIs(b, ws, asset);
    var t := Pruned(b, ws, 15, cascade);
    OlderIsSwept(b, ws, asset, first, second, 15, cascade);
    PrunedRows(b, ws, 15, cascade);
    if first in SweptJobs(b, ws, 15) { SweptAreStale(b, ws, 15, first); }
    assert Quiet(t);
    QuietIs(t, ws, asset);
    OneSelected(f);
    OnlyScan(t, ws, asset, first, [f], 30);
  }

  lemma {:induction false} TwoScansUnswept(ws: WorkspaceId, asset: AssetId, first: JobId, second: JobId, f: Finding)
    ensures WithoutSweeps(TwoScans(ws, asset, first, second, f)) == TwoScans(ws, asset, first, second, f)
  {
    var a, b, c, d := AddJob(first, RunningJob(ws, asset)), Record(ws, asset, first, [f], 10), AddJob(second, RunningJob(ws, asset)), Record(ws, asset, second, [], 20);
    WithoutSweepsOneMore([], a);
    WithoutSweepsOneMore([] + [a], b);
    WithoutSweepsOneMore([] + [a] + [b], c);
    WithoutSweepsOneMore([] + [a] + [b] + [c], d);
    assert WithoutSweeps([]) == [];
    hide WithoutSweeps;
  }

  /** From the empty ledger: a scan finds something, the next one does not, a sweep takes the first
      scan away, and its job, still unfinished, records it again. Without the sweep the repetition
      changes nothing; with it the finding is active again. */
  lemma {:induction false} RepeatAfterSweepShows(ws: WorkspaceId, asset: AssetId, first: JobId, second: JobId, f: Finding, cascade: bool)
    requires first != second
    ensures var again := Record(ws, asset, first, [f], 30);
            var ops := TwoScans(ws, asset, first, second, f) + [Sweep(ws, 15, cascade)] + [again];
            && Possible(EMPTY, EMPTY, ops) && !NothingLost(EMPTY, EMPTY, ops)
            && ActiveSet(After(EMPTY, ops), ws, asset) == {Fp(f)}
            && ActiveSet(After(EMPTY, WithoutSweeps(ops)), ws, asset) == {}
  {
    hide *;
    var again := Record(ws, asset, first, [f], 30);
    var base, sweep := TwoScans(ws, asset, first, second, f), Sweep(ws, 15, cascade);
    var b := TwoScansLeave(ws, asset, first, second, f);
    var t := Pruned(b, ws, 15, cascade);
    ReachedMeans(base, b);
    SweepIs(b, ws, 15, cascade);
    SweepAtAnyTime(b, sweep);
    SweptThenAgain(b, ws, asset, first, second, f, cascade);
    AgainIs(b, t, ws, asset, first, second, f);
    OneMore(EMPTY, EMPTY, base, sweep);
    OneMore(EMPTY, EMPTY, base + [sweep], again);
    OneMore(EMPTY, EMPTY, base, again);
    TwoScansUnswept(ws, asset, first, second, f);
    WithoutSweepsOneMore(base, sweep);
    WithoutSweepsOneMore(base + [sweep], again);
    assert base + [] == base;
    ShowsMeansLost(base + [sweep] + [again], ws, asset);
  }

  lemma {:induction false} ReachedMeans(ops: seq<Op>, b: Book)
    requires Reached(ops, b)
    ensures Possible(EMPTY, EMPTY, ops) && After(EMPTY, ops) == b && UnsweptAfter(EMPTY, EMPTY, ops) == b
  {
    hide Possible, After, UnsweptAfter;
  }

  lemma {:induction false} SweepAtAnyTime(b: Book, sweep: Op)
    requires sweep.Sweep?
    ensures CanDo(b, b, sweep) && Unswept(b, b, sweep) == b
  {
    hide Do;
  }

  lemma {:induction false} AgainIs(b: Book, t: Book, ws: WorkspaceId, asset: AssetId, first: JobId, second: JobId, f: Finding)
    requires HasTwoScans(b, ws, asset, first, second, f) && FreshScan(t, ws, asset, first, 30)
    ensures var again := Record(ws, asset, first, [f], 30);
            && CanDo(b, b, again) && Do(b, again) == b
            && CanDo(b, t, again) && Do(t, again) == Recorded(t, ws, asset, first, [f], 30)
  {
    assert first in b.snapshots;
    AgainTheSame(b, Record(ws, asset, first, [f], 30));
    hide Recorded, Quiet;
  }

  lemma {:induction false} ShowsMeansLost(ops: seq<Op>, ws: WorkspaceId, asset: AssetId)
    requires Possible(EMPTY, EMPTY, ops)
    requires ActiveSet(After(EMPTY, ops), ws, asset) != ActiveSet(After(EMPTY, WithoutSweeps(ops)), ws, asset)
    ensures !NothingLost(EMPTY, EMPTY, ops)
  {
    hide *;
    EmptyLedger();
    if NothingLost(EMPTY, EMPTY, ops) {
      PruningIsInvisible(EMPTY, EMPTY, ops);
      SameActiveSets(After(EMPTY, ops), After(EMPTY, WithoutSweeps(ops)));
    }
  }

  // ---------------------------------------------------------------- a repeated recording that only answers otherwise

  /** Three scans of one asset: only the first found something. */
  function ThreeScans(ws: WorkspaceId, asset: AssetId, first: JobId, second: JobId, third: JobId, f: Finding): seq<Op> {
    TwoScans(ws, asset, first, second, f) + [AddJob(third, RunningJob(ws, asset))] + [Record(ws, asset, third, [], 30)]
  }

  ghost predicate HasThreeScans(b: Book, ws: WorkspaceId, asset: AssetId, first: JobId, second: JobId, third: JobId, f: Finding) {
    && Quiet(b) && b.items == map[] && b.repositoryRuns == map[] && EventsOf(b.events, second) != []
    && second in b.jobs && b.jobs[second] == RunningJob(ws, asset)
    && b.snapshots == map[first := Snapshot(ws, asset, 10, 1, {Fp(f)}), second := Snapshot(ws, asset, 20, 0, {}),
                          third := Snapshot(ws, asset, 30, 0, {})]
  }

  lemma {:induction false} ThreeScansLeave(ws: WorkspaceId, asset: AssetId, first: JobId, second: JobId, third: JobId, f: Finding)
      returns (b: Book)
    requires first != second && first != third && second != third
    ensures Reached(ThreeScans(ws, asset, first, second, third, f), b) && HasThreeScans(b, ws, asset, first, second, third, f)
  {
    hide Reached, QuietElsewhere, Quiet, EventsOf, ActiveSet;
    var b2 := FirstScanLeaves(ws, asset, first, f);
    var ops2 := [] + [AddJob(first, RunningJob(ws, asset))] + [Record(ws, asset, first, [f], 10)];
    assert HasBaseline(b2, ws, asset) by { assert first in b2.snapshots && InScope(b2.snapshots[first], ws, asset); }
    var b4 := EmptyScanLeaves(ops2, b2, ws, asset, second, 20);
    QuietIs(b4, ws, asset);
    b := EmptyScanLeaves(TwoScans(ws, asset, first, second, f), b4, ws, asset, third, 30);
    EventsOfConcat(b4.events, b.events[|b4.events|..], second);
    assert b.events == b4.events + b.events[|b4.events|..];
  }

  lemma {:induction false} SecondIsSwept(b: Book, ws: WorkspaceId, asset: AssetId, first: JobId, second: JobId, third: JobId, f: Finding,
                                         cascade: bool)
    requires first != second && first != third && second != third && HasThreeScans(b, ws, asset, first, second, third, f)
    ensures var t := Pruned(b, ws, 25, cascade);
            var again := Record(ws, asset, second, [], 40);
            Lost(b, t, again) && Enabled(t, again) && ChangesNothing(b, again)
  {
    hide ActiveSet, Pruned, ProtectedJobs, SweptJobs, Old, EventsOf;
    QuietIs(b, ws, asset);
    hide Quiet;
    OlderIsSwept(b, ws, asset, second, third, 25, cascade);
    PrunedRows(b, ws, 25, cascade);
    if second in SweptJobs(b, ws, 25) { SweptAreStale(b, ws, 25, second); }
  }

  /** From the empty ledger: a scan finds something, the next one does not and returns it as
      resolved, a third one finds nothing either, and a sweep takes the second scan away. When its
      job, still unfinished, records again, the states are what they are without the sweep, but
      no event is returned. */
  lemma {:induction false} SilentRepeatAfterSweep(ws: WorkspaceId, asset: AssetId, first: JobId, second: JobId, third: JobId, f: Finding,
                                                  cascade: bool)
    requires first != second && first != third && second != third
    ensures var base := ThreeScans(ws, asset, first, second, third, f);
            var swept, again := base + [Sweep(ws, 25, cascade)], Record(ws, asset, second, [], 40);
            && Possible(EMPTY, EMPTY, swept + [again])
            && After(EMPTY, swept + [again]).states == After(EMPTY, base + [again]).states
            && OutputOf(After(EMPTY, swept), again) != OutputOf(After(EMPTY, base), again)
  {
    hide *;
    var base, sweep := ThreeScans(ws, asset, first, second, third, f), Sweep(ws, 25, cascade);
    var again := Record(ws, asset, second, [], 40);
    var b := ThreeScansLeave(ws, asset, first, second, third, f);
    var t := Pruned(b, ws, 25, cascade);
    ReachedMeans(base, b);
    SweepIs(b, ws, 25, cascade);
    SweepAtAnyTime(b, sweep);
    OneMore(EMPTY, EMPTY, base, sweep);
    EmptyLedger();
    SweepsOnlyForget(EMPTY, EMPTY, base + [sweep]);
    SecondIsSwept(b, ws, asset, first, second, third, f, cascade);
    RepeatShows(b, t, again);
    HadEvents(b, ws, asset, first, second, third, f);
    AgainCanBe(b, t, again);
    OneMore(EMPTY, EMPTY, base + [sweep], again);
    AfterOneMore(EMPTY, base, again);
    AfterOneMore(EMPTY, base + [sweep], again);
  }

  lemma {:induction false} HadEvents(b: Book, ws: WorkspaceId, asset: AssetId, first: JobId, second: JobId, third: JobId, f: Finding)
    requires HasThreeScans(b, ws, asset, first, second, third, f)
    ensures EventsOf(b.events, second) != []
  {
    hide EventsOf;
  }

  lemma {:induction false} AgainCanBe(b: Book, t: Book, again: Op)
    requires again.Record? && Enabled(t, again)
    ensures CanDo(b, t, again)
  {
    hide Enabled;
  }

  // ---------------------------------------------------------------- a finished job that is created again

  /** The same with the first job finished, as a scheduled one is. */
  function FinishedThenGone(ws: WorkspaceId, asset: AssetId, first: JobId, second: JobId, f: Finding): seq<Op> {
    [] + [AddJob(first, RunningJob(ws, asset))] + [Record(ws, asset, first, [f], 10)]
    + [SetStatus(first, Q.Succeeded, Some(11))]
    + [AddJob(second, RunningJob(ws, asset))] + [Record(ws, asset, second, [], 20)]
  }

  ghost predicate HasFinished(b: Book, ws: WorkspaceId, asset: AssetId, first: JobId, second: JobId, f: Finding) {
    && Quiet(b) && b.items == map[] && b.repositoryRuns == map[] && b.findings == map[]
    && b.jobs == map[first := JobRow(ws, asset, Q.Succeeded, Some(11)), second := RunningJob(ws, asset)]
    && b.snapshots == map[first := Snapshot(ws, asset, 10, 1, {Fp(f)}), second := Snapshot(ws, asset, 20, 0, {})]
  }

  lemma {:induction false} FinishedThenGoneLeaves(ws: WorkspaceId, asset: AssetId, first: JobId, second: JobId, f: Finding) returns (b: Book)
    requires first != second
    ensures Reached(FinishedThenGone(ws, asset, first, second, f), b) && HasFinished(b, ws, asset, first, second, f)
  {
    var b2 := FirstScanLeaves(ws, asset, first, f);
    var ops2 := [] + [AddJob(first, RunningJob(ws, asset))] + [Record(ws, asset, first, [f], 10)];
    var end := SetStatus(first, Q.Succeeded, Some(11));
    var b3 := Do(b2, end);
    hide Reached, ActiveSet, Quiet;
    ReachedBy(ops2, b2, end);
    SameActiveSets(b2, b3);
    b := EmptyScanLeaves(ops2 + [end], b3, ws, asset, second, 20);
  }

  lemma {:induction false} FinishedIsStale(b: Book, ws: WorkspaceId, asset: AssetId, first: JobId, second: JobId, f: Finding)
    requires first != second && HasFinished(b, ws, asset, first, second, f)
    ensures first !in ProtectedJobs(b, ws) && first in SweptJobs(b, ws, 15) && second !in SweptJobs(b, ws, 15)
  {
    OlderIsUnprotected(b, ws, asset, first, second, 15);
    hide ProtectedJobs, KeptEvents, KeptOccurrences, KeptSnapshots, KeptExecutions, KeptRuns, StaleFindings, Quiet;
    var safe := ProtectedJobs(b, ws);
    var aged := AgedOut(b, ws, 15, safe);
    assert aged.findings - StaleFindings(aged, ws, 15) == map[];
  }

  lemma {:induction false} FinishedIsSwept(b: Book, ws: WorkspaceId, asset: AssetId, first: JobId, second: JobId, f: Finding, cascade: bool)
    requires first != second && HasFinished(b, ws, asset, first, second, f)
    ensures var t := Pruned(b, ws, 15, cascade);
            && first !in t.jobs && t.snapshots == map[second := b.snapshots[second]] && t.states == b.states
  {
    FinishedIsStale(b, ws, asset, first, second, f);
    assert b.snapshots.Keys == {first, second} && Old(b, ws, 15, first) && !Old(b, ws, 15, second);
    hide *;
    PrunedRows(b, ws, 15, cascade);
    OneRow(Pruned(b, ws, 15, cascade).snapshots, second, b.snapshots[second]);
  }

  lemma {:induction false} OneRow<K, V>(rows: map<K, V>, k: K, v: V)
    requires (forall j :: j in rows <==> j == k) && rows[k] == v
    ensures rows == map[k := v]
  {
  }

  /** From the empty ledger: a job finds something, finishes, and is swept after a later scan that
      found nothing. Created again under its id, as a scheduled job is by a resume back to its
      slot, it scans again. */
  lemma {:induction false} RecreatedJobScansAgain(ws: WorkspaceId, asset: AssetId, first: JobId, second: JobId, f: Finding, cascade: bool)
    requires first != second
    ensures var swept := FinishedThenGone(ws, asset, first, second, f) + [Sweep(ws, 15, cascade)];
            var ops := swept + [AddJob(first, RunningJob(ws, asset))] + [Record(ws, asset, first, [f], 30)];
            && Possible(EMPTY, EMPTY, ops)
            && first !in After(EMPTY, swept).jobs && ActiveSet(After(EMPTY, swept), ws, asset) == {}
            && first in After(EMPTY, ops).snapshots && After(EMPTY, ops).snapshots[first].completedAt == 30
            && ActiveSet(After(EMPTY, ops), ws, asset) == {Fp(f)}
  {
    hide *;
    var base, sweep := FinishedThenGone(ws, asset, first, second, f), Sweep(ws, 15, cascade);
    var add, again := AddJob(first, RunningJob(ws, asset)), Record(ws, asset, first, [f], 30);
    var b := FinishedThenGoneLeaves(ws, asset, first, second, f);
    var t := Pruned(b, ws, 15, cascade);
    ReachedMeans(base, b);
    SweepIs(b, ws, 15, cascade);
    SweepAtAnyTime(b, sweep);
    OneMore(EMPTY, EMPTY, base, sweep);
    FinishedIsSwept(b, ws, asset, first, second, f, cascade);
    CreatedAgain(b, t, ws, asset, first, second, f);
    OneMore(EMPTY, EMPTY, base + [sweep], add);
    OneMore(EMPTY, EMPTY, base + [sweep] + [add], again);
  }

  lemma {:induction false} CreatedAgain(b: Book, t: Book, ws: WorkspaceId, asset: AssetId, first: JobId, second: JobId, f: Finding)
    requires first != second && HasFinished(b, ws, asset, first, second, f)
    requires first !in t.jobs && t.snapshots == map[second := b.snapshots[second]] && t.states == b.states
    ensures var add, again := AddJob(first, RunningJob(ws, asset)), Record(ws, asset, first, [f], 30);
            && ActiveSet(t, ws, asset) == {}
            && CanDo(b, t, add) && CanDo(Unswept(b, t, add), Do(t, add), again)
            && var u := Do(Do(t, add), again);
               && first in u.snapshots && u.snapshots[first].completedAt == 30 && ActiveSet(u, ws, asset) == {Fp(f)}
  {
    var t' := WithJob(t, first, RunningJob(ws, asset));
    assert QuietElsewhere(t', ws, asset) && ActiveSet(t, ws, asset) == {} by {
      hide ActiveSet;
      SameQuiet(b, t');
      SameActiveSets(t, t');
      QuietIs(t', ws, asset);
    }
    hide Recorded, ActiveSet, Selected, Quiet, QuietElsewhere;
    CanScanAgain(b, t, ws, asset, first, second, f);
    OneSelected(f);
    OnlyScan(t', ws, asset, first, [f], 30);
  }

  lemma {:induction false} CanScanAgain(b: Book, t: Book, ws: WorkspaceId, asset: AssetId, first: JobId, second: JobId, f: Finding)
    requires first != second && HasFinished(b, ws, asset, first, second, f)
    requires first !in t.jobs && t.snapshots == map[second := b.snapshots[second]]
    ensures var add, again := AddJob(first, RunningJob(ws, asset)), Record(ws, asset, first, [f], 30);
            && CanDo(b, t, add) && CanDo(Unswept(b, t, add), Do(t, add), again)
            && Do(t, add) == WithJob(t, first, RunningJob(ws, asset))
            && Do(Do(t, add), again) == Recorded(WithJob(t, first, RunningJob(ws, asset)), ws, asset, first, [f], 30)
  {
    hide Recorded, Quiet, Pruned, UpdateItem, VerifyItem, Unswept;
    assert FreshScan(WithJob(t, first, RunningJob(ws, asset)), ws, asset, first, 30);
  }

  lemma {:induction false} SameQuiet(b: Book, b': Book)
    requires b'.states == b.states && Quiet(b)
    ensures Quiet(b')
  {
  }

  // ---------------------------------------------------------------- work that can no longer be opened

  /** A scan that finds something and stores it, and a later one that finds nothing. */
  function StoredThenGone(ws: WorkspaceId, asset: AssetId, first: JobId, second: JobId, f: Finding): seq<Op> {
    [] + [AddJob(first, RunningJob(ws, asset))] + [StoreFinding(Prepared(first, Fp(f)), FindingRow(ws, asset, first, 10))]
    + [Record(ws, asset, first, [f], 10)] + [AddJob(second, RunningJob(ws, asset))] + [Record(ws, asset, second, [], 20)]
  }

  /** The finding of the first scan, to open work from. */
  ghost predicate HasFinding(b: Book, ws: WorkspaceId, asset: AssetId, job: JobId, f: Finding) {
    var id, o := Prepared(job, Fp(f)), OccurrenceKey(job, Fp(f));
    && b.findings == map[id := FindingRow(ws, asset, job, 10)]
    && o in b.occurrences && b.occurrences[o].ws == ws && b.occurrences[o].asset == asset && b.occurrences[o].findingId == id
  }

  lemma {:induction false} OneOccurrence(b: Book, ws: WorkspaceId, asset: AssetId, job: JobId, f: Finding, at: Time)
    requires job !in b.snapshots && b.findings == map[Prepared(job, Fp(f)) := FindingRow(ws, asset, job, 10)]
    ensures HasFinding(Recorded(b, ws, asset, job, [f], at), ws, asset, job, f)
  {
    RecordedRows(b, ws, asset, job, [f], at);
    FoundIs(job, [f]);
    OneSelected(f);
    hide Recorded, PreparedFindings, CurrentMap, Selected, OccurrencesOf;
    OccurrencesAt(ws, asset, job, CurrentMap(PreparedFindings(job, [f])), at, OccurrenceKey(job, Fp(f)));
  }

  lemma {:induction false} StoredScanLeaves(ws: WorkspaceId, asset: AssetId, job: JobId, f: Finding) returns (b: Book)
    ensures Reached([] + [AddJob(job, RunningJob(ws, asset))] + [StoreFinding(Prepared(job, Fp(f)), FindingRow(ws, asset, job, 10))]
                    + [Record(ws, asset, job, [f], 10)], b)
    ensures b.jobs == map[job := RunningJob(ws, asset)] && b.snapshots == map[job := Snapshot(ws, asset, 10, 1, {Fp(f)})]
    ensures b.items == map[] && b.repositoryRuns == map[] && b.executions == map[] && QuietElsewhere(b, ws, asset)
    ensures HasFinding(b, ws, asset, job, f)
  {
    FirstJobLeaves(ws, asset, job);
    var b1 := WithJob(EMPTY, job, RunningJob(ws, asset));
    var id, row := Prepared(job, Fp(f)), FindingRow(ws, asset, job, 10);
    var b2 := b1.(findings := map[id := row]);
    assert FreshScan(b2, ws, asset, job, 10);
    hide Recorded, ActiveSet, Reached, FreshScan, Selected, HasFinding;
    ReachedBy([] + [AddJob(job, RunningJob(ws, asset))], b1, StoreFinding(id, row));
    SameActiveSets(b1, b2);
    b := Recorded(b2, ws, asset, job, [f], 10);
    ReachedByScan([] + [AddJob(job, RunningJob(ws, asset))] + [StoreFinding(id, row)], b2, ws, asset, job, [f], 10);
    OneSelected(f);
    OnlyScan(b2, ws, asset, job, [f], 10);
    OneOccurrence(b2, ws, asset, job, f, 10);
  }

  lemma {:induction false} StoredThenGoneLeaves(ws: WorkspaceId, asset: AssetId, first: JobId, second: JobId, f: Finding) returns (b: Book)
    requires first != second
    ensures Reached(StoredThenGone(ws, asset, first, second, f), b)
    ensures HasTwoScans(b, ws, asset, first, second, f) && HasFinding(b, ws, asset, first, f)
  {
    hide Reached, QuietElsewhere, Quiet;
    var b2 := StoredScanLeaves(ws, asset, first, f);
    var ops2 := [] + [AddJob(first, RunningJob(ws, asset))] + [StoreFinding(Prepared(first, Fp(f)), FindingRow(ws, asset, first, 10))]
                + [Record(ws, asset, first, [f], 10)];
    b := EmptyScanLeaves(ops2, b2, ws, asset, second, 20);
  }

  /** The sweep takes the first of the two scans away, but not its unfinished job. */
  lemma {:induction false} FirstIsOld(b: Book, ws: WorkspaceId, asset: AssetId, first: JobId, second: JobId, f: Finding)
    requires first != second && HasTwoScans(b, ws, asset, first, second, f)
    ensures Old(b, ws, 15, first) && first !in SweptJobs(b, ws, 15)
  {
    OlderIsSwept(b, ws, asset, first, second, 15, false);
    PrunedRows(b, ws, 15, false);
    if first in SweptJobs(b, ws, 15) { SweptAreStale(b, ws, 15, first); }
    hide Pruned, ProtectedJobs, SweptJobs, Old, Quiet;
  }

  lemma {:induction false} NothingLeftToOpen(b: Book, ws: WorkspaceId, asset: AssetId, first: JobId, second: JobId, f: Finding, cascade: bool)
    requires Good(b) && first != second && HasTwoScans(b, ws, asset, first, second, f) && HasFinding(b, ws, asset, first, f)
    ensures CanOpen(b, ws, Prepared(first, Fp(f)), OccurrenceKey(first, Fp(f)))
    ensures !CanOpen(Pruned(b, ws, 15, cascade), ws, Prepared(first, Fp(f)), OccurrenceKey(first, Fp(f)))
  {
    FirstIsOld(b, ws, asset, first, second, f);
    hide Good, Pruned, SweptJobs, Old, Quiet;
    assert CanOpen(b, ws, Prepared(first, Fp(f)), OccurrenceKey(first, Fp(f)));
    hide CanOpen;
    OpeningSurvivesSweep(b, ws, Prepared(first, Fp(f)), OccurrenceKey(first, Fp(f)), ws, 15, cascade);
  }

  /** From the empty ledger: a scan stores what it finds, the next one finds nothing, and a sweep
      takes the first scan away. Migration work could be opened from its finding before the sweep,
      and cannot after it. */
  lemma {:induction false} OpeningIsLost(ws: WorkspaceId, asset: AssetId, first: JobId, second: JobId, f: Finding, cascade: bool)
    requires first != second
    ensures var ops := StoredThenGone(ws, asset, first, second, f);
            var id, o := Prepared(first, Fp(f)), OccurrenceKey(first, Fp(f));
            && Possible(EMPTY, EMPTY, ops + [Sweep(ws, 15, cascade)])
            && CanOpen(After(EMPTY, ops), ws, id, o)
            && !CanOpen(After(EMPTY, ops + [Sweep(ws, 15, cascade)]), ws, id, o)
  {
    hide *;
    var ops := StoredThenGone(ws, asset, first, second, f);
    var b := StoredThenGoneLeaves(ws, asset, first, second, f);
    ReachedMeans(ops, b);
    EmptyLedger();
    GoodOnEveryRun(EMPTY, ops);
    NothingLeftToOpen(b, ws, asset, first, second, f, cascade);
    SweepIs(b, ws, 15, cascade);
    SweepAtAnyTime(b, Sweep(ws, 15, cascade));
    OneMore(EMPTY, EMPTY, ops, Sweep(ws, 15, cascade));
  }

  // ---------------------------------------------------------------- a collection whose base is swept

  /** One repository collection: provenance, recording, end. */
  function Collection(ws: WorkspaceId, asset: AssetId, job: JobId, at: Time, findings: seq<Finding>, status: Q.ScanStatus): seq<Op> {
    [AddJob(job, RunningJob(ws, asset)), NoteRepositoryRun(job, RepositoryRun(ws, asset, at)),
     Record(ws, asset, job, findings, at + 1), SetStatus(job, status, Some(at + 2))]
  }

  lemma {:induction false} CollectionLeaves(ops: seq<Op>, b: Book, ws: WorkspaceId, asset: AssetId, job: JobId, at: Time,
                                            findings: seq<Finding>, status: Q.ScanStatus) returns (b': Book)
    requires Reached(ops, b) && QuietElsewhere(b, ws, asset) && b.executions == map[]
    requires job !in b.jobs && job !in b.snapshots && job !in b.repositoryRuns
    requires forall j :: j in b.snapshots ==> b.snapshots[j].completedAt <= at
    ensures Reached(ops + Collection(ws, asset, job, at, findings, status), b') && b'.items == b.items && b'.executions == map[]
    ensures QuietElsewhere(b', ws, asset) && ActiveSet(b', ws, asset) == Selected(findings).Keys
    ensures b'.jobs == b.jobs[job := JobRow(ws, asset, status, Some(at + 2))]
    ensures b'.repositoryRuns == b.repositoryRuns[job := RepositoryRun(ws, asset, at)]
    ensures b'.snapshots == b.snapshots[job := Snapshot(ws, asset, at + 1, |Selected(findings).Keys|, Selected(findings).Keys)]
  {
    var start, note := AddJob(job, RunningJob(ws, asset)), NoteRepositoryRun(job, RepositoryRun(ws, asset, at));
    var scan, end := Record(ws, asset, job, findings, at + 1), SetStatus(job, status, Some(at + 2));
    hide Reached, Recorded, ActiveSet, Selected;
    var b1 := WithJob(b, job, RunningJob(ws, asset));
    ReachedByJob(ops, b, job, RunningJob(ws, asset));
    var b2 := b1.(repositoryRuns := b1.repositoryRuns[job := RepositoryRun(ws, asset, at)]);
    ReachedBy(ops + [start], b1, note);
    assert FreshScan(b2, ws, asset, job, at + 1);
    ReachedByScan(ops + [start] + [note], b2, ws, asset, job, findings, at + 1);
    SameActiveSets(b, b2);
    OnlyScan(b2, ws, asset, job, findings, at + 1);
    var b3 := Recorded(b2, ws, asset, job, findings, at + 1);
    ReachedBy(ops + [start] + [note] + [scan], b3, end);
    b' := Do(b3, end);
    SameActiveSets(b3, b');
    assert ops + [start] + [note] + [scan] + [end] == ops + Collection(ws, asset, job, at, findings, status);
  }

  /** A collection that succeeded and a later one that failed. */
  ghost predicate HasTwoRuns(b: Book, ws: WorkspaceId, asset: AssetId, first: JobId, second: JobId) {
    && Quiet(b) && b.items == map[]
    && b.jobs == map[first := JobRow(ws, asset, Q.Succeeded, Some(12)), second := JobRow(ws, asset, Q.Failed, Some(22))]
    && b.repositoryRuns == map[first := RepositoryRun(ws, asset, 10), second := RepositoryRun(ws, asset, 20)]
    && b.snapshots == map[first := Snapshot(ws, asset, 11, 0, {}), second := Snapshot(ws, asset, 21, 0, {})]
  }

  lemma {:induction false} FirstIsUnprotected(b: Book, ws: WorkspaceId, asset: AssetId, first: JobId, second: JobId)
    requires first != second && HasTwoRuns(b, ws, asset, first, second)
    ensures LastSuccessfulRun(b, ws, asset, first) && first !in ProtectedJobs(b, ws)
  {
    assert first !in JobsOfNewestSnapshots(b, ws) by {
      assert first in b.snapshots && second in b.snapshots;
      assert forall k :: NewestSnapshot(b, ws, k) ==> k == second;
    }
    assert first !in JobsOfNewestRuns(b, ws) by {
      assert first in b.repositoryRuns && second in b.repositoryRuns;
      assert forall k :: NewestRun(b, ws, k) ==> k == second;
    }
    assert LastJobsOfActive(b, ws) == {} && JobsOfUnfinishedItems(b, ws) == {};
    hide LastJobsOfActive, JobsOfNewestSnapshots, JobsOfNewestRuns, JobsOfUnfinishedItems;
  }

  lemma {:induction false} NoBaseLeft(b: Book, ws: WorkspaceId, asset: AssetId, first: JobId, second: JobId, cascade: bool)
    requires first != second && HasTwoRuns(b, ws, asset, first, second)
    ensures LastSuccessfulRun(b, ws, asset, first)
    ensures forall j :: !SucceededRun(Pruned(b, ws, 15, cascade), ws, asset, j)
  {
    FirstIsUnprotected(b, ws, asset, first, second);
    PrunedRows(b, ws, 15, cascade);
    PrunedNotes(b, ws, 15, cascade);
    hide Pruned, ProtectedJobs, SweptJobs, Old, Quiet;
  }

  /** From the empty ledger: a repository collection succeeds, a later one records its run and its
      scan but ends failed, as when its lease expires before completion. The code protects the
      later run; a sweep then takes the run the next collection would have started from, and no
      successful run is left. */
  lemma {:induction false} IncrementalBaseIsLost(ws: WorkspaceId, asset: AssetId, first: JobId, second: JobId, cascade: bool)
    requires first != second
    ensures var ops := Collection(ws, asset, first, 10, [], Q.Succeeded) + Collection(ws, asset, second, 20, [], Q.Failed);
            && Possible(EMPTY, EMPTY, ops + [Sweep(ws, 15, cascade)])
            && LastSuccessfulRun(After(EMPTY, ops), ws, asset, first)
            && forall j :: !SucceededRun(After(EMPTY, ops + [Sweep(ws, 15, cascade)]), ws, asset, j)
  {
    hide *;
    var ops := Collection(ws, asset, first, 10, [], Q.Succeeded) + Collection(ws, asset, second, 20, [], Q.Failed);
    var b := TwoRunsLeave(ws, asset, first, second);
    NoBaseLeft(b, ws, asset, first, second, cascade);
    ReachedMeans(ops, b);
    SweepIs(b, ws, 15, cascade);
    SweepAtAnyTime(b, Sweep(ws, 15, cascade));
    OneMore(EMPTY, EMPTY, ops, Sweep(ws, 15, cascade));
  }

  lemma {:induction false} TwoRunsLeave(ws: WorkspaceId, asset: AssetId, first: JobId, second: JobId) returns (b: Book)
    requires first != second
    ensures Reached(Collection(ws, asset, first, 10, [], Q.Succeeded) + Collection(ws, asset, second, 20, [], Q.Failed), b)
    ensures HasTwoRuns(b, ws, asset, first, second)
  {
    var b1 := FirstCollectionLeaves(ws, asset, first);
    hide Reached, Collection, ActiveSet, Selected, Quiet;
    b := CollectionLeaves(Collection(ws, asset, first, 10, [], Q.Succeeded), b1, ws, asset, second, 20, [], Q.Failed);
    NoFindingsSelected(second);
    QuietIs(b, ws, asset);
  }

  /** A first collection that finds nothing and succeeds. */
  lemma {:induction false} FirstCollectionLeaves(ws: WorkspaceId, asset: AssetId, job: JobId) returns (b: Book)
    ensures Reached(Collection(ws, asset, job, 10, [], Q.Succeeded), b)
    ensures QuietElsewhere(b, ws, asset) && b.items == map[] && b.executions == map[]
    ensures b.jobs == map[job := JobRow(ws, asset, Q.Succeeded, Some(12))]
    ensures b.repositoryRuns == map[job := RepositoryRun(ws, asset, 10)]
    ensures b.snapshots == map[job := Snapshot(ws, asset, 11, 0, {})]
  {
    assert Reached([], EMPTY) && QuietElsewhere(EMPTY, ws, asset);
    hide Reached, Collection, ActiveSet, Selected;
    b := CollectionLeaves([], EMPTY, ws, asset, job, 10, [], Q.Succeeded);
    NoFindingsSelected(job);
    assert [] + Collection(ws, asset, job, 10, [], Q.Succeeded) == Collection(ws, asset, job, 10, [], Q.Succeeded);
  }
}
