/** What a retention sweep keeps and what it deletes, row by row, and what unfinished work can rely
    on while sweeps run. */
module LedgerKeeps {
  import opened Common
  import opened Ledger
  import opened LedgerInvariant
  import opened LedgerPruning
  import opened LedgerRuns
  import opened LedgerViews
  import Q = ScanQueue

  // ---------------------------------------------------------------- the jobs something needs

  /** Work that is neither verified nor accepted. */
  predicate StillOpen(row: Item) { row.status != Verified && row.status != AcceptedRisk }

  predicate RefersTo(row: Item, j: JobId) { row.sourceJob == j || row.verificationJob == Some(j) }

  ghost predicate NeededByWork(b: Book, ws: WorkspaceId, j: JobId) {
    exists i :: i in b.items && b.items[i].ws == ws && StillOpen(b.items[i]) && RefersTo(b.items[i], j)
  }

  ghost predicate ShownByState(b: Book, ws: WorkspaceId, j: JobId) {
    exists k :: k in b.states && k.ws == ws && b.states[k].active && b.states[k].lastJob == j
  }

  /** No snapshot of the workspace and the asset is younger. */
  ghost predicate NoYoungerSnapshot(b: Book, ws: WorkspaceId, asset: AssetId, at: Time) {
    forall k :: k in b.snapshots && b.snapshots[k].ws == ws && b.snapshots[k].asset == asset ==> b.snapshots[k].completedAt <= at
  }

  ghost predicate NoYoungerRun(b: Book, ws: WorkspaceId, asset: AssetId, at: Time) {
    forall k :: k in b.repositoryRuns && b.repositoryRuns[k].ws == ws && b.repositoryRuns[k].asset == asset ==>
      b.repositoryRuns[k].collectedAt <= at
  }

  /** The job of the youngest snapshot the workspace has of an asset, or of another one of the asset
      and the time. */
  ghost predicate YoungestSnapshot(b: Book, ws: WorkspaceId, j: JobId) {
    && j in b.snapshots
    && NoYoungerSnapshot(b, ws, b.snapshots[j].asset, b.snapshots[j].completedAt)
    && exists k :: k in b.snapshots && b.snapshots[k].ws == ws && b.snapshots[k].asset == b.snapshots[j].asset
                   && b.snapshots[k].completedAt == b.snapshots[j].completedAt
  }

  ghost predicate YoungestRun(b: Book, ws: WorkspaceId, j: JobId) {
    && j in b.repositoryRuns
    && NoYoungerRun(b, ws, b.repositoryRuns[j].asset, b.repositoryRuns[j].collectedAt)
    && exists k :: k in b.repositoryRuns && b.repositoryRuns[k].ws == ws && b.repositoryRuns[k].asset == b.repositoryRuns[j].asset
                   && b.repositoryRuns[k].collectedAt == b.repositoryRuns[j].collectedAt
  }

  ghost predicate Needed(b: Book, ws: WorkspaceId, j: JobId) {
    ShownByState(b, ws, j) || YoungestSnapshot(b, ws, j) || YoungestRun(b, ws, j) || NeededByWork(b, ws, j)
  }

  lemma {:induction false} WorkExactly(b: Book, ws: WorkspaceId, j: JobId)
    ensures j in JobsOfUnfinishedItems(b, ws) <==> NeededByWork(b, ws, j)
  {
    if i :| i in b.items && b.items[i].ws == ws && StillOpen(b.items[i]) && RefersTo(b.items[i], j) {
      assert Unfinished(b.items[i].status);
      assert b.items[i].verificationJob == Some(j) ==> b.items[i].verificationJob.value == j;
    }
  }

  lemma {:induction false} StatesExactly(b: Book, ws: WorkspaceId, j: JobId)
    ensures j in LastJobsOfActive(b, ws) <==> ShownByState(b, ws, j)
  {
  }

  lemma {:induction false} SnapshotsExactly(b: Book, ws: WorkspaceId, j: JobId)
    ensures j in JobsOfNewestSnapshots(b, ws) <==> YoungestSnapshot(b, ws, j)
  {
    if YoungestSnapshot(b, ws, j) {
      var k :| k in b.snapshots && b.snapshots[k].ws == ws && b.snapshots[k].asset == b.snapshots[j].asset
               && b.snapshots[k].completedAt == b.snapshots[j].completedAt;
      assert NewestSnapshot(b, ws, k);
    }
  }

  lemma {:induction false} RunsExactly(b: Book, ws: WorkspaceId, j: JobId)
    ensures j in JobsOfNewestRuns(b, ws) <==> YoungestRun(b, ws, j)
  {
    if YoungestRun(b, ws, j) {
      var k :| k in b.repositoryRuns && b.repositoryRuns[k].ws == ws && b.repositoryRuns[k].asset == b.repositoryRuns[j].asset
               && b.repositoryRuns[k].collectedAt == b.repositoryRuns[j].collectedAt;
      assert NewestRun(b, ws, k);
    }
  }

  /** A sweep protects exactly the jobs that something needs. */
  lemma {:induction false} ProtectedExactly(b: Book, ws: WorkspaceId, j: JobId)
    ensures j in ProtectedJobs(b, ws) <==> Needed(b, ws, j)
  {
    hide LastJobsOfActive, JobsOfNewestSnapshots, JobsOfNewestRuns, JobsOfUnfinishedItems;
    hide ShownByState, YoungestSnapshot, YoungestRun, NeededByWork;
    StatesExactly(b, ws, j);
    SnapshotsExactly(b, ws, j);
    RunsExactly(b, ws, j);
    WorkExactly(b, ws, j);
  }

  // ---------------------------------------------------------------- what a sweep keeps

  ghost predicate SameAt<K, V>(m: map<K, V>, m': map<K, V>, k: K) {
    (k in m <==> k in m') && (k in m ==> m'[k] == m[k])
  }

  /** What is recorded of the scan of one job is in both ledgers the same. */
  ghost predicate SameScan(b: Book, t: Book, j: JobId) {
    && SameAt(b.snapshots, t.snapshots, j)
    && (forall k: OccurrenceKey :: k.job == j ==> SameAt(b.occurrences, t.occurrences, k))
    && EventsOf(t.events, j) == EventsOf(b.events, j)
  }

  /** And so is everything else that is kept under the job. */
  ghost predicate SameJob(b: Book, t: Book, j: JobId) {
    && SameAt(b.jobs, t.jobs, j) && (j in b.queueRows <==> j in t.queueRows)
    && SameAt(b.executions, t.executions, j) && SameAt(b.repositoryRuns, t.repositoryRuns, j)
  }

  lemma {:induction false} NotSwept(b: Book, ws: WorkspaceId, cutoff: Time, j: JobId)
    requires Needed(b, ws, j)
    ensures j in ProtectedJobs(b, ws) && j !in SweptJobs(b, ws, cutoff)
  {
    hide Needed, ProtectedJobs, SweptJobs;
    ProtectedExactly(b, ws, j);
    if j in SweptJobs(b, ws, cutoff) { SweptAreStale(b, ws, cutoff, j); }
  }

  lemma {:induction false} NeededEvents(b: Book, ws: WorkspaceId, cutoff: Time, cascade: bool, j: JobId)
    requires Needed(b, ws, j)
    ensures EventsOf(Pruned(b, ws, cutoff, cascade).events, j) == EventsOf(b.events, j)
  {
    hide Needed, Pruned, ProtectedJobs, SweptJobs, KeptEvents, EventsNotOf, EventsOf;
    NotSwept(b, ws, cutoff, j);
    PrunedEvents(b, ws, cutoff, cascade);
    KeptEventsOf(b.events, ws, cutoff, ProtectedJobs(b, ws), j);
    if cascade { EventsNotOfOf(KeptEvents(b.events, ws, cutoff, ProtectedJobs(b, ws)), SweptJobs(b, ws, cutoff), j); }
  }

  /** A sweep leaves everything alone that is kept under a job something needs. */
  lemma {:induction false} NeededStays(b: Book, ws: WorkspaceId, cutoff: Time, cascade: bool, j: JobId)
    requires Needed(b, ws, j)
    ensures var t := Pruned(b, ws, cutoff, cascade);
            SameScan(b, t, j) && SameJob(b, t, j)
  {
    hide Needed, Pruned, ProtectedJobs, SweptJobs, EventsOf;
    NotSwept(b, ws, cutoff, j);
    NeededEvents(b, ws, cutoff, cascade, j);
    PrunedRows(b, ws, cutoff, cascade);
    PrunedNotes(b, ws, cutoff, cascade);
  }

  /** Whatever work is still to be done in the workspace, a sweep keeps the scan it comes from and
      the scan it was last checked against, with all their rows. */
  lemma {:induction false} WorkKeepsEvidence(b: Book, ws: WorkspaceId, cutoff: Time, cascade: bool, i: ItemId)
    requires i in b.items && b.items[i].ws == ws && b.items[i].status != Verified && b.items[i].status != AcceptedRisk
    ensures var t, row := Pruned(b, ws, cutoff, cascade), b.items[i];
            && SameScan(b, t, row.sourceJob) && SameJob(b, t, row.sourceJob)
            && (row.verificationJob.Some? ==>
                  SameScan(b, t, row.verificationJob.value) && SameJob(b, t, row.verificationJob.value))
  {
    hide Pruned, SameScan, SameJob;
    var row := b.items[i];
    assert StillOpen(row) && RefersTo(row, row.sourceJob);
    assert NeededByWork(b, ws, row.sourceJob);
    NeededStays(b, ws, cutoff, cascade, row.sourceJob);
    if row.verificationJob.Some? {
      assert RefersTo(row, row.verificationJob.value);
      assert NeededByWork(b, ws, row.verificationJob.value);
      NeededStays(b, ws, cutoff, cascade, row.verificationJob.value);
    }
  }

  /** It keeps the scan every active state shows. */
  lemma {:induction false} ActiveKeepsScan(b: Book, ws: WorkspaceId, cutoff: Time, cascade: bool, k: StateKey)
    requires k in b.states && k.ws == ws && b.states[k].active
    ensures var t := Pruned(b, ws, cutoff, cascade);
            SameScan(b, t, b.states[k].lastJob) && SameJob(b, t, b.states[k].lastJob)
  {
    hide Pruned, SameScan, SameJob;
    assert ShownByState(b, ws, b.states[k].lastJob);
    NeededStays(b, ws, cutoff, cascade, b.states[k].lastJob);
  }

  /** And the youngest snapshot and the youngest repository run of every asset. */
  lemma {:induction false} YoungestStay(b: Book, ws: WorkspaceId, cutoff: Time, cascade: bool, j: JobId)
    requires || (j in b.snapshots && b.snapshots[j].ws == ws
                 && NoYoungerSnapshot(b, ws, b.snapshots[j].asset, b.snapshots[j].completedAt))
             || (j in b.repositoryRuns && b.repositoryRuns[j].ws == ws
                 && NoYoungerRun(b, ws, b.repositoryRuns[j].asset, b.repositoryRuns[j].collectedAt))
    ensures var t := Pruned(b, ws, cutoff, cascade);
            SameScan(b, t, j) && SameJob(b, t, j)
  {
    hide Pruned, SameScan, SameJob, NoYoungerSnapshot, NoYoungerRun;
    assert YoungestSnapshot(b, ws, j) || YoungestRun(b, ws, j);
    NeededStays(b, ws, cutoff, cascade, j);
  }

  // ---------------------------------------------------------------- what a sweep deletes

  /** A row of the swept workspace that is older than the cutoff, under a job that nothing needs. */
  ghost predicate Aged(b: Book, ws: WorkspaceId, cutoff: Time, of: WorkspaceId, at: Time, j: JobId) {
    of == ws && at < cutoff && !Needed(b, ws, j)
  }

  ghost predicate OccurrenceGoes(b: Book, ws: WorkspaceId, cutoff: Time, k: OccurrenceKey) {
    k in b.occurrences && Aged(b, ws, cutoff, b.occurrences[k].ws, b.occurrences[k].observedAt, k.job)
  }

  /** An old finding goes when no item comes from it and its occurrences go. */
  ghost predicate FindingGoes(b: Book, ws: WorkspaceId, cutoff: Time, f: ObservationId) {
    && f in b.findings && b.findings[f].ws == ws && b.findings[f].discoveredAt < cutoff
    && (forall i :: i in b.items ==> b.items[i].sourceFinding != f)
    && (forall k :: k in b.occurrences && b.occurrences[k].findingId == f ==> OccurrenceGoes(b, ws, cutoff, k))
  }

  /** An old finished job goes when nothing needs it, no item refers to it and its findings go. */
  ghost predicate JobGoes(b: Book, ws: WorkspaceId, cutoff: Time, j: JobId) {
    && j in b.jobs && b.jobs[j].ws == ws && !Needed(b, ws, j)
    && (b.jobs[j].status == Q.Succeeded || b.jobs[j].status == Q.Failed || b.jobs[j].status == Q.Canceled)
    && b.jobs[j].finishedAt.Some? && b.jobs[j].finishedAt.value < cutoff
    && (forall i :: i in b.items ==> !RefersTo(b.items[i], j))
    && (forall f :: f in b.findings && b.findings[f].job == j ==> FindingGoes(b, ws, cutoff, f))
  }

  lemma {:induction false} AgedOccurrence(b: Book, ws: WorkspaceId, cutoff: Time, k: OccurrenceKey)
    requires k in b.occurrences
    ensures var aged := AgedOut(b, ws, cutoff, ProtectedJobs(b, ws));
            && (k in aged.occurrences <==> !OccurrenceGoes(b, ws, cutoff, k))
            && (k in aged.occurrences ==> aged.occurrences[k] == b.occurrences[k])
  {
    hide ProtectedJobs, AgedOut, Needed;
    ProtectedExactly(b, ws, k.job);
    AgedRows(b, ws, cutoff, k);
  }

  lemma {:induction false} AgedTables(b: Book, ws: WorkspaceId, cutoff: Time)
    ensures var aged := AgedOut(b, ws, cutoff, ProtectedJobs(b, ws));
            && aged.findings == b.findings && aged.items == b.items && aged.jobs == b.jobs
            && Submap(aged.occurrences, b.occurrences)
  {
    hide ProtectedJobs, KeptEvents;
  }

  lemma {:induction false} StaleExactly(b: Book, ws: WorkspaceId, cutoff: Time, f: ObservationId)
    ensures f in StaleFindings(AgedOut(b, ws, cutoff, ProtectedJobs(b, ws)), ws, cutoff) <==> FindingGoes(b, ws, cutoff, f)
  {
    hide ProtectedJobs, AgedOut, OccurrenceGoes;
    var aged := AgedOut(b, ws, cutoff, ProtectedJobs(b, ws));
    AgedTables(b, ws, cutoff);
    forall k | k in b.occurrences
      ensures k in aged.occurrences <==> !OccurrenceGoes(b, ws, cutoff, k)
      ensures k in aged.occurrences ==> aged.occurrences[k] == b.occurrences[k]
    {
      AgedOccurrence(b, ws, cutoff, k);
    }
  }

  /** A job as the last step of a sweep sees it, when the findings it deletes are gone. */
  lemma {:induction false} StaleJobExactly(b: Book, ws: WorkspaceId, cutoff: Time, safe: set<JobId>, j: JobId)
    ensures j in StaleJobs(b, ws, cutoff, safe) <==>
            && j in b.jobs && b.jobs[j].ws == ws && j !in safe
            && (b.jobs[j].status == Q.Succeeded || b.jobs[j].status == Q.Failed || b.jobs[j].status == Q.Canceled)
            && b.jobs[j].finishedAt.Some? && b.jobs[j].finishedAt.value < cutoff
            && (forall i :: i in b.items ==> !RefersTo(b.items[i], j))
            && (forall f :: f in b.findings ==> b.findings[f].job != j)
  {
    if forall i :: i in b.items ==> !RefersTo(b.items[i], j) {
      forall i | i in b.items ensures b.items[i].sourceJob != j && b.items[i].verificationJob != Some(j) {
        assert !RefersTo(b.items[i], j);
      }
    }
  }

  lemma {:induction false} SweptExactly(b: Book, ws: WorkspaceId, cutoff: Time, j: JobId)
    ensures j in SweptJobs(b, ws, cutoff) <==> JobGoes(b, ws, cutoff, j)
  {
    hide ProtectedJobs, AgedOut, StaleFindings, StaleJobs, FindingGoes, Needed, RefersTo;
    var safe := ProtectedJobs(b, ws);
    var aged := AgedOut(b, ws, cutoff, safe);
    var trimmed := aged.(findings := aged.findings - StaleFindings(aged, ws, cutoff));
    AgedTables(b, ws, cutoff);
    ProtectedExactly(b, ws, j);
    forall f ensures f in StaleFindings(aged, ws, cutoff) <==> FindingGoes(b, ws, cutoff, f) { StaleExactly(b, ws, cutoff, f); }
    StaleJobExactly(trimmed, ws, cutoff, safe, j);
    if forall f :: f in trimmed.findings ==> trimmed.findings[f].job != j {
      forall f | f in b.findings && b.findings[f].job == j ensures FindingGoes(b, ws, cutoff, f) {
        assert f !in trimmed.findings;
      }
    }
  }

  /** The row a table has under a key after a sweep is the row it had, or none if it goes. */
  ghost predicate GoesIf<K, V>(m: map<K, V>, m': map<K, V>, k: K, goes: bool) {
    (k in m' <==> k in m && !goes) && (k in m' ==> m'[k] == m[k])
  }

  /** What a sweep deletes under a job: the job with its queue row, and of the rows that tell of it
      those that are old or go by cascade. */
  ghost predicate SweptRows(b: Book, t: Book, ws: WorkspaceId, cutoff: Time, cascade: bool, j: JobId) {
    var ends := JobGoes(b, ws, cutoff, j);
    && GoesIf(b.jobs, t.jobs, j, ends) && (j in t.queueRows <==> j in b.queueRows && !ends)
    && GoesIf(b.snapshots, t.snapshots, j, (cascade && ends)
         || (j in b.snapshots && Aged(b, ws, cutoff, b.snapshots[j].ws, b.snapshots[j].completedAt, j)))
    && GoesIf(b.executions, t.executions, j, (cascade && ends)
         || (j in b.executions && Aged(b, ws, cutoff, b.executions[j].ws, b.executions[j].scheduledFor, j)))
    && GoesIf(b.repositoryRuns, t.repositoryRuns, j, (cascade && ends)
         || (j in b.repositoryRuns && Aged(b, ws, cutoff, b.repositoryRuns[j].ws, b.repositoryRuns[j].collectedAt, j)))
  }

  lemma {:induction false} SweepExactly(b: Book, ws: WorkspaceId, cutoff: Time, cascade: bool, j: JobId)
    ensures SweptRows(b, Pruned(b, ws, cutoff, cascade), ws, cutoff, cascade, j)
  {
    hide Pruned, ProtectedJobs, SweptJobs, JobGoes, Needed;
    PrunedRows(b, ws, cutoff, cascade);
    PrunedNotes(b, ws, cutoff, cascade);
    ProtectedExactly(b, ws, j);
    SweptExactly(b, ws, cutoff, j);
  }

  /** What a sweep deletes of the occurrences, the findings and the events. */
  lemma {:induction false} SweepOccurrences(b: Book, ws: WorkspaceId, cutoff: Time, cascade: bool, k: OccurrenceKey)
    ensures GoesIf(b.occurrences, Pruned(b, ws, cutoff, cascade).occurrences, k,
                   OccurrenceGoes(b, ws, cutoff, k) || (cascade && JobGoes(b, ws, cutoff, k.job)))
  {
    hide Pruned, ProtectedJobs, SweptJobs, JobGoes, Needed;
    PrunedRows(b, ws, cutoff, cascade);
    ProtectedExactly(b, ws, k.job);
    SweptExactly(b, ws, cutoff, k.job);
  }

  lemma {:induction false} SweepFindings(b: Book, ws: WorkspaceId, cutoff: Time, cascade: bool, f: ObservationId)
    ensures GoesIf(b.findings, Pruned(b, ws, cutoff, cascade).findings, f, FindingGoes(b, ws, cutoff, f))
  {
    hide Pruned, AgedOut, ProtectedJobs, SweptJobs, FindingGoes, StaleFindings;
    PrunedFindings(b, ws, cutoff, cascade, f);
    StaleExactly(b, ws, cutoff, f);
  }

  lemma {:induction false} SweepEvents(b: Book, ws: WorkspaceId, cutoff: Time, cascade: bool, e: Event)
    ensures e in Pruned(b, ws, cutoff, cascade).events <==>
            e in b.events && !Aged(b, ws, cutoff, e.ws, e.occurredAt, e.job) && !(cascade && JobGoes(b, ws, cutoff, e.job))
  {
    hide Pruned, ProtectedJobs, SweptJobs, JobGoes, Needed, KeptEvents, EventsNotOf;
    PrunedEvents(b, ws, cutoff, cascade);
    KeptEventsAre(b.events, ws, cutoff, ProtectedJobs(b, ws));
    EventsNotOfAre(KeptEvents(b.events, ws, cutoff, ProtectedJobs(b, ws)), SweptJobs(b, ws, cutoff));
    ProtectedExactly(b, ws, e.job);
    SweptExactly(b, ws, cutoff, e.job);
  }

  // ---------------------------------------------------------------- unfinished work on every run

  /** Before and after every operation of the run the work is still to be done and refers to the
      job. */
  predicate StaysOpen(b: Book, ops: seq<Op>, i: ItemId, j: JobId)
    decreases |ops|
  {
    && i in b.items && StillOpen(b.items[i]) && RefersTo(b.items[i], j)
    && (ops != [] ==> StaysOpen(Do(b, ops[0]), ops[1..], i, j))
  }

  lemma {:induction false} TrimmedScan(t: Book, t': Book, j: JobId)
    requires Trimmed(t, t') && j in t'.snapshots && Good(t)
    ensures SameScan(t, t', j)
  {
    hide KeepsLatest, KeepsUnfinished, EventsOf, IsLatest, Agrees, HasBaseline, ItemOk, DistinctTimes, LinkedEvents;
    forall k: OccurrenceKey | k.job == j ensures SameAt(t.occurrences, t'.occurrences, k) {
      assert k in t.occurrences ==> (k in t'.occurrences <==> k.job in t'.snapshots);
    }
  }

  /** A sweep of any workspace keeps the scan that open work refers to. */
  lemma {:induction false} SweepKeepsScan(t: Book, op: Op, i: ItemId, j: JobId)
    requires Good(t) && op.Sweep? && i in t.items && StillOpen(t.items[i]) && RefersTo(t.items[i], j)
    requires j in t.snapshots && t.snapshots[j].ws == t.items[i].ws
    ensures SameScan(t, Do(t, op), j)
  {
    hide Good, Pruned, SameScan, SweptJobs;
    SweepIs(t, op.ws, op.cutoff, op.cascade);
    if t.items[i].ws == op.ws {
      assert NeededByWork(t, op.ws, j);
      NeededStays(t, op.ws, op.cutoff, op.cascade, j);
    } else {
      PrunedRows(t, op.ws, op.cutoff, op.cascade);
      SweptLeaveOthers(t, op.ws, op.cutoff, t.items[i].ws);
      PruneTrims(t, op.ws, op.cutoff, op.cascade);
      hide Trimmed;
      TrimmedScan(t, Do(t, op), j);
    }
  }

  lemma {:induction false} RecordKeepsScan(t: Book, op: Op, j: JobId)
    requires op.Record? && j in t.snapshots
    ensures SameScan(t, Do(t, op), j)
  {
    hide Recorded;
    if op.job in t.snapshots {
      AgainTheSame(t, op);
    } else {
      NewRecordKeepsScan(t, op.ws, op.asset, op.job, op.findings, op.now, j);
    }
  }

  lemma {:induction false} NewRecordKeepsScan(t: Book, ws: WorkspaceId, asset: AssetId, job: JobId, findings: seq<Finding>, now: Time, j: JobId)
    requires j in t.snapshots && job !in t.snapshots
    ensures SameScan(t, Recorded(t, ws, asset, job, findings, now), j)
  {
    hide Recorded, RecordedEvents, EventsOf, OccurrencesOf, PreparedFindings, CurrentMap;
    RecordedRows(t, ws, asset, job, findings, now);
    NewEventsOf(t, ws, asset, job, findings, now, j);
    forall k: OccurrenceKey | k.job == j ensures SameAt(t.occurrences, Recorded(t, ws, asset, job, findings, now).occurrences, k) {
      OccurrencesAt(ws, asset, job, CurrentMap(PreparedFindings(job, findings)), now, k);
    }
  }

  lemma {:induction false} NewEventsOf(t: Book, ws: WorkspaceId, asset: AssetId, job: JobId, findings: seq<Finding>, now: Time, j: JobId)
    requires j in t.snapshots && job !in t.snapshots
    ensures EventsOf(Recorded(t, ws, asset, job, findings, now).events, j) == EventsOf(t.events, j)
  {
    hide *;
    RecordAddsEvents(t, ws, asset, job, findings, now);
    var more := RecordedEvents(t, ws, asset, job, findings, now);
    EventsOfConcat(t.events, more, j);
    NoEventsOf(more, j);
    assert EventsOf(t.events, j) + [] == EventsOf(t.events, j);
  }

  lemma {:induction false} StepKeepsScan(t: Book, op: Op, i: ItemId, j: JobId)
    requires Good(t) && i in t.items && StillOpen(t.items[i]) && RefersTo(t.items[i], j)
    requires j in t.snapshots && t.snapshots[j].ws == t.items[i].ws
    ensures SameScan(t, Do(t, op), j)
  {
    hide Good, Do, EventsOf;
    if op.Sweep? {
      SweepKeepsScan(t, op, i, j);
    } else if op.Record? {
      RecordKeepsScan(t, op, j);
    } else {
      StepLeavesEvidence(t, op);
    }
  }

  /** No operation moves a work item to another workspace. */
  lemma {:induction false} StepKeepsWorkspace(t: Book, op: Op, i: ItemId)
    requires i in t.items && (op.OpenItem? ==> op.item != i)
    ensures i in Do(t, op).items && Do(t, op).items[i].ws == t.items[i].ws
  {
    if op.Record? {
      RecordedItems(t, op.ws, op.asset, op.job, op.findings, op.now);
      hide Recorded;
    } else if op.Sweep? {
      PrunedRows(t, op.ws, op.cutoff, op.cascade);
      hide Pruned;
    } else if op.Update? {
      UpdateKeepsWorkspace(t, op.ws, op.item, op.target, op.reason, op.changes, op.now, i);
      hide UpdateItem;
    } else {
      hide Recorded, Pruned, UpdateItem, Verdict;
    }
  }

  lemma {:induction false} UpdateKeepsWorkspace(t: Book, ws: WorkspaceId, item: ItemId, target: Option<ItemStatus>, reason: TextChange,
                                                changes: Changes, now: Time, i: ItemId)
    requires i in t.items
    ensures var t' := UpdateItem(t, ws, item, target, reason, changes, now);
            i in t'.items && t'.items[i].ws == t.items[i].ws
  {
    hide Reason, PlanAfter, AllowedItemTransition;
  }

  lemma {:induction false} SameScanTwice(b: Book, t: Book, u: Book, j: JobId)
    requires SameScan(b, t, j) && SameScan(t, u, j)
    ensures SameScan(b, u, j)
  {
    hide EventsOf;
    forall k: OccurrenceKey | k.job == j ensures SameAt(b.occurrences, u.occurrences, k) {
      assert SameAt(b.occurrences, t.occurrences, k) && SameAt(t.occurrences, u.occurrences, k);
    }
  }

  lemma {:induction false} SimulatesGood(b: Book, t: Book, op: Op, i: ItemId)
    requires Simulates(t, b) && CanDo(b, t, op)
    ensures Good(t) && (i in t.items && op.OpenItem? ==> op.item != i)
  {
    hide Good, Trimmed, FromScan, FreshScan;
    TrimmedIsGood(b, t);
    SimulatesSameItems(b, t);
  }

  /** On every run with sweeps of any workspace, at any cutoffs: as long as a work item is neither
      verified nor accepted, the snapshot, the occurrences and the events of a scan it refers to
      stay what they are. */
  lemma {:induction false} WorkKeepsItsScan(b: Book, t: Book, ops: seq<Op>, i: ItemId, j: JobId)
    requires Simulates(t, b) && Possible(b, t, ops) && StaysOpen(t, ops, i, j)
    requires j in t.snapshots && t.snapshots[j].ws == t.items[i].ws
    ensures SameScan(t, After(t, ops), j)
    decreases |ops|
  {
    if ops == [] {
      hide EventsOf;
    } else {
      var t' := Do(t, ops[0]);
      hide Simulates, Good, CanDo, Do, Unswept, StillOpen, RefersTo, SameScan;
      SimulatesGood(b, t, ops[0], i);
      StaysSimulated(b, t, ops[0]);
      StepKeepsScan(t, ops[0], i, j);
      StepKeepsWorkspace(t, ops[0], i);
      SnapshotStays(t, t', j);
      WorkKeepsItsScan(Unswept(b, t, ops[0]), t', ops[1..], i, j);
      SameScanTwice(t, t', After(t', ops[1..]), j);
    }
  }

  lemma {:induction false} SnapshotStays(t: Book, t': Book, j: JobId)
    requires SameScan(t, t', j) && j in t.snapshots
    ensures j in t'.snapshots && t'.snapshots[j] == t.snapshots[j]
  {
  }
}
