/** The questions put to the ledger have the same answer in every view of it: reports read the
    states, verification reads occurrences and snapshots, counters summarise occurrence rows. */
module LedgerViews {
  import opened Common
  import opened Ledger
  import opened LedgerInvariant
  import opened LedgerPruning
  import opened LedgerRuns
  import Q = ScanQueue

  // ---------------------------------------------------------------- states and occurrences

  /** A fingerprint is active exactly when the asset's latest scan has an occurrence of it, and
      then the state shows that scan and that occurrence's finding. */
  lemma {:induction false} ActiveMeansObserved(b: Book, j: JobId, fp: Fingerprint)
    requires Good(b) && IsLatest(b, j)
    ensures var k := StateKey(b.snapshots[j].ws, b.snapshots[j].asset, fp);
            && (k in b.states && b.states[k].active <==> OccurrenceKey(j, fp) in b.occurrences)
            && (OccurrenceKey(j, fp) in b.occurrences ==>
                  && b.states[k].lastJob == j && b.states[k].payload == b.occurrences[OccurrenceKey(j, fp)].payload
                  && b.states[k].lastSeen == b.snapshots[j].completedAt)
  {
    assert Agrees(b, j);
    assert j in b.snapshots;
    hide LinkedEvents, DistinctTimes, HasBaseline, ItemOk, IsLatest;
    assert LinkedAt(b, OccurrenceKey(j, fp));
    var k := StateKey(b.snapshots[j].ws, b.snapshots[j].asset, fp);
    assert fp in ActiveSet(b, k.ws, k.asset) <==> k in b.states && b.states[k].active;
    if k in b.states && b.states[k].active { assert ShowsOccurrence(b, k, j); }
  }

  /** A verification that passes its guards marks the item verified exactly when its exposure is
      inactive in the states that reports read, and otherwise notes what these states show of it. */
  lemma {:induction false} VerificationIsSound(b: Book, ws: WorkspaceId, item: ItemId, job: JobId, now: Time)
    requires Good(b) && Verdict(b, ws, item, job).Ok?
    ensures var row := VerifyItem(b, ws, item, job, now).items[item];
            var inactive := b.items[item].fp !in ActiveSet(b, ws, b.items[item].asset);
            && row.evidence == Some(Verdict(b, ws, item, job).value) && row.evidence.value.job == job
            && (row.evidence.value.found.None? <==> inactive)
            && (!inactive ==>
                  row.evidence.value.found == Some(FoundIn(b.states[StateKey(ws, b.items[item].asset, b.items[item].fp)].payload)))
            && (row.status.Verified? <==> inactive)
            && (row.status.InProgress? <==> !inactive)
            && row.verificationJob == Some(job)
            && row.verifiedAt == (if inactive then Some(now) else None)
  {
    ActiveMeansObserved(b, job, b.items[item].fp);
    hide Good, IsLatest;
  }

  /** What a caller can check beforehand decides whether a verification passes its guards: the
      item waits for it, the scan succeeded, is the asset's latest and is not the item's source. */
  lemma {:induction false} VerificationGuards(b: Book, ws: WorkspaceId, item: ItemId, job: JobId)
    requires Good(b) && Sourced(b) && item in b.items && b.items[item].ws == ws
    ensures Verdict(b, ws, item, job).Ok? <==>
            && b.items[item].status.ReadyForVerification?
            && job in b.jobs && b.jobs[job].status.Succeeded?
            && IsLatest(b, job) && InScope(b.snapshots[job], ws, b.items[item].asset)
            && job != b.items[item].sourceJob
  {
    if IsLatest(b, job) && InScope(b.snapshots[job], ws, b.items[item].asset) {
      assert Agrees(b, job);
      SourceIsOlder(b, job, item);
    }
    hide Good, IsLatest, Sourced;
  }

  // ---------------------------------------------------------------- repeated recordings

  lemma {:induction false} AllEventsOf(events: seq<Event>, j: JobId)
    requires forall e :: e in events ==> e.job == j
    ensures EventsOf(events, j) == events
  {
    if events != [] {
      assert events[|events| - 1] in events;
      AllEventsOf(events[..|events| - 1], j);
    }
  }

  /** Recording for a job that already has a snapshot changes nothing and returns the events of
      the first recording, whatever is passed in the second time. */
  lemma {:induction false} RecordTwiceIsOnce(b: Book, ws: WorkspaceId, asset: AssetId, job: JobId, findings: seq<Finding>, now: Time,
                                             ws': WorkspaceId, asset': AssetId, findings': seq<Finding>, now': Time)
    requires Good(b) && job !in b.snapshots
    ensures var once := Recorded(b, ws, asset, job, findings, now);
            && Recorded(once, ws', asset', job, findings', now') == once
            && RecordedEvents(once, ws', asset', job, findings', now') == RecordedEvents(b, ws, asset, job, findings, now)
  {
    hide *;
    var once := Recorded(b, ws, asset, job, findings, now);
    var more := RecordedEvents(b, ws, asset, job, findings, now);
    RecordedRows(b, ws, asset, job, findings, now);
    RecordAddsEvents(b, ws, asset, job, findings, now);
    forall e | e in b.events ensures e.job != job { EventInScan(b, e); }
    NoEventsOf(b.events, job);
    AllEventsOf(more, job);
    EventsOfConcat(b.events, more, job);
    assert [] + more == more;
    RecordedAgain(once, ws', asset', job, findings', now');
  }

  lemma {:induction false} RecordedAgain(b: Book, ws: WorkspaceId, asset: AssetId, job: JobId, findings: seq<Finding>, now: Time)
    requires job in b.snapshots
    ensures Recorded(b, ws, asset, job, findings, now) == b
    ensures RecordedEvents(b, ws, asset, job, findings, now) == EventsOf(b.events, job)
  {
  }

  // ---------------------------------------------------------------- occurrence counts

  /** The occurrence rows of one exposure. */
  ghost function Rows(b: Book, k: StateKey): set<OccurrenceKey> {
    set o | o in b.occurrences && o.fp == k.fp && b.occurrences[o].ws == k.ws && b.occurrences[o].asset == k.asset
  }

  ghost predicate CountOk(b: Book, k: StateKey) {
    if k in b.states then b.states[k].occurrences == |Rows(b, k)| else Rows(b, k) == {}
  }

  /** Every state counts its occurrence rows, and every occurrence row has a state. */
  ghost predicate Counted(b: Book) {
    forall k: StateKey :: CountOk(b, k)
  }

  lemma {:induction false} RowAfterScan(b: Book, ws: WorkspaceId, asset: AssetId, job: JobId, findings: seq<Finding>, now: Time,
                                        k: StateKey, o: OccurrenceKey)
    requires Good(b) && job !in b.snapshots
    ensures var observed := k.ws == ws && k.asset == asset && k.fp in CurrentMap(PreparedFindings(job, findings));
            o in Rows(Recorded(b, ws, asset, job, findings, now), k) <==>
            o in Rows(b, k) || (observed && o == OccurrenceKey(job, k.fp))
  {
    RecordedRows(b, ws, asset, job, findings, now);
    NoOccurrencesYet(b, job);
    OccurrencesAt(ws, asset, job, CurrentMap(PreparedFindings(job, findings)), now, o);
    hide Good, Recorded, PreparedFindings, CurrentMap, OccurrencesOf;
  }

  lemma {:induction false} NoRowYet(b: Book, job: JobId, k: StateKey)
    requires Good(b) && job !in b.snapshots
    ensures OccurrenceKey(job, k.fp) !in Rows(b, k)
  {
    NoOccurrencesYet(b, job);
    hide Good;
  }

  lemma {:induction false} RowsAfterScan(b: Book, ws: WorkspaceId, asset: AssetId, job: JobId, findings: seq<Finding>, now: Time, k: StateKey)
    requires Good(b) && job !in b.snapshots
    ensures var observed := k.ws == ws && k.asset == asset && k.fp in CurrentMap(PreparedFindings(job, findings));
            Rows(Recorded(b, ws, asset, job, findings, now), k) == Rows(b, k) + if observed then {OccurrenceKey(job, k.fp)} else {}
  {
    hide *;
    var after := Rows(Recorded(b, ws, asset, job, findings, now), k);
    var before := Rows(b, k);
    var observed := k.ws == ws && k.asset == asset && k.fp in CurrentMap(PreparedFindings(job, findings));
    var added := if observed then {OccurrenceKey(job, k.fp)} else {};
    forall o: OccurrenceKey
      ensures o in after <==> o in before + added
    {
      RowAfterScan(b, ws, asset, job, findings, now, k, o);
    }
  }

  /** What a scan does to one state. */
  lemma {:induction false} StateAfterScan(b: Book, ws: WorkspaceId, asset: AssetId, job: JobId, findings: seq<Finding>, now: Time, k: StateKey)
    requires job !in b.snapshots
    ensures var b' := Recorded(b, ws, asset, job, findings, now);
            var observed := k.ws == ws && k.asset == asset && k.fp in CurrentMap(PreparedFindings(job, findings));
            && (k in b'.states <==> k in b.states || observed)
            && var before := if k in b.states then b.states[k].occurrences else 0;
               (k in b'.states ==> b'.states[k].occurrences == before + if observed then 1 else 0)
  {
    hide PreparedFindings, CurrentMap, ScanEvents, OccurrencesOf, SeenKeys;
  }

  lemma {:induction false} ScanKeepsCount(b: Book, ws: WorkspaceId, asset: AssetId, job: JobId, findings: seq<Finding>, now: Time, k: StateKey)
    requires Good(b) && job !in b.snapshots && CountOk(b, k)
    ensures CountOk(Recorded(b, ws, asset, job, findings, now), k)
  {
    hide Good, Recorded, PreparedFindings, CurrentMap, Rows;
    RowsAfterScan(b, ws, asset, job, findings, now, k);
    NoRowYet(b, job, k);
    StateAfterScan(b, ws, asset, job, findings, now, k);
  }

  lemma {:induction false} StepKeepsCounts(b: Book, op: Op)
    requires Good(b) && Counted(b) && !op.Sweep?
    ensures Counted(Do(b, op))
  {
    forall k: StateKey ensures CountOk(Do(b, op), k) {
      assert CountOk(b, k);
      if op.Record? {
        hide Good, CountOk;
        if op.job !in b.snapshots { ScanKeepsCount(b, op.ws, op.asset, op.job, op.findings, op.now, k); }
      } else {
        StepLeavesEvidence(b, op);
        hide Do, Good;
        assert Rows(Do(b, op), k) == Rows(b, k);
      }
    }
  }

  /** As long as nothing recorded again was swept, the unswept ledger counts its rows. */
  lemma {:induction false} UnsweptKeepsCounts(b: Book, t: Book, ops: seq<Op>)
    requires Simulates(t, b) && Counted(b) && Possible(b, t, ops) && NothingLost(b, t, ops)
    ensures Counted(UnsweptAfter(b, t, ops))
    decreases |ops|
  {
    if ops != [] {
      StaysSimulated(b, t, ops[0]);
      assert Reference(b, t, ops[0]) == b;
      if !ops[0].Sweep? { StepKeepsCounts(b, ops[0]); }
      hide Good, Sourced, Counted, Do, CanDo, Trimmed, Lost;
      UnsweptKeepsCounts(Unswept(b, t, ops[0]), Do(t, ops[0]), ops[1..]);
    }
  }

  /** A count that covers the rows there are. */
  ghost predicate CoversRows(b: Book, k: StateKey) {
    if k in b.states then |Rows(b, k)| <= b.states[k].occurrences else Rows(b, k) == {}
  }

  lemma {:induction false} FewerRowsCovered(b: Book, f: Book, k: StateKey)
    requires CoversRows(b, k) && f.states == b.states && Submap(f.occurrences, b.occurrences)
    ensures CoversRows(f, k)
  {
    assert Rows(f, k) <= Rows(b, k);
    SubsetSize(Rows(f, k), Rows(b, k));
  }

  lemma {:induction false} ScanKeepsCover(b: Book, ws: WorkspaceId, asset: AssetId, job: JobId, findings: seq<Finding>, now: Time, k: StateKey)
    requires Good(b) && job !in b.snapshots && CoversRows(b, k)
    ensures CoversRows(Recorded(b, ws, asset, job, findings, now), k)
  {
    hide Good, Recorded, PreparedFindings, CurrentMap, Rows;
    RowsAfterScan(b, ws, asset, job, findings, now, k);
    NoRowYet(b, job, k);
    StateAfterScan(b, ws, asset, job, findings, now, k);
  }

  lemma {:induction false} RecordingKeepsCover(b: Book, t: Book, op: Op, k: StateKey)
    requires Simulates(t, b) && op.Record? && CoversRows(b, k)
    ensures CoversRows(Unswept(b, t, op), k)
  {
    hide Good, CoversRows, Forgotten, Recorded, Trimmed;
    if Lost(b, t, op) {
      ForgottenStaysTrimmed(b, t, op.job);
      ForgottenRows(b, op.job);
      FewerRowsCovered(b, Forgotten(b, op.job), k);
      ScanKeepsCover(Forgotten(b, op.job), op.ws, op.asset, op.job, op.findings, op.now, k);
    } else if op.job in b.snapshots {
      RecordedAgain(b, op.ws, op.asset, op.job, op.findings, op.now);
    } else {
      ScanKeepsCover(b, op.ws, op.asset, op.job, op.findings, op.now, k);
    }
  }

  lemma {:induction false} UnsweptKeepsCover(b: Book, t: Book, op: Op, k: StateKey)
    requires Simulates(t, b) && CoversRows(b, k)
    ensures CoversRows(Unswept(b, t, op), k)
  {
    hide Good, Do;
    if op.Record? {
      RecordingKeepsCover(b, t, op, k);
    } else if !op.Sweep? {
      StepLeavesEvidence(b, op);
      assert Rows(Do(b, op), k) == Rows(b, k);
    }
  }

  lemma {:induction false} CoveredOnEveryRun(b: Book, t: Book, ops: seq<Op>, k: StateKey)
    requires Simulates(t, b) && CoversRows(b, k) && Possible(b, t, ops)
    ensures CoversRows(UnsweptAfter(b, t, ops), k)
    decreases |ops|
  {
    if ops != [] {
      hide Simulates, CoversRows, Do, CanDo, Unswept;
      StaysSimulated(b, t, ops[0]);
      UnsweptKeepsCover(b, t, ops[0], k);
      CoveredOnEveryRun(Unswept(b, t, ops[0]), Do(t, ops[0]), ops[1..], k);
    }
  }

  function Count(b: Book, k: StateKey): nat { if k in b.states then b.states[k].occurrences else 0 }

  /** The operation records a scan in which the exposure was seen. */
  predicate Sights(b: Book, op: Op, k: StateKey) {
    op.Record? && op.job !in b.snapshots && op.ws == k.ws && op.asset == k.asset && k.fp in Selected(op.findings)
  }

  function Sightings(b: Book, ops: seq<Op>, k: StateKey): nat
    decreases |ops|
  {
    if ops == [] then 0 else (if Sights(b, ops[0], k) then 1 else 0) + Sightings(Do(b, ops[0]), ops[1..], k)
  }

  lemma {:induction false} StepCounts(b: Book, op: Op, k: StateKey)
    ensures Count(Do(b, op), k) == Count(b, k) + if Sights(b, op, k) then 1 else 0
  {
    if op.Record? {
      if op.job !in b.snapshots {
        PreparedMap(op.job, op.findings);
        hide Recorded, PreparedFindings, CurrentMap, Selected;
        StateAfterScan(b, op.ws, op.asset, op.job, op.findings, op.now, k);
      }
    } else if op.Sweep? {
      PrunedRows(b, op.ws, op.cutoff, op.cascade);
      hide Pruned;
    } else {
      StepLeavesEvidence(b, op);
      hide Do;
    }
  }

  lemma {:induction false} CountsSightings(b: Book, ops: seq<Op>, k: StateKey)
    ensures Count(After(b, ops), k) == Count(b, k) + Sightings(b, ops, k)
    decreases |ops|
  {
    if ops != [] {
      StepCounts(b, ops[0], k);
      hide Do, Sights, Count;
      CountsSightings(Do(b, ops[0]), ops[1..], k);
    }
  }

  /** On every run a state counts the recorded scans that saw its exposure. It never counts fewer
      than the occurrence rows the ledger holds, and exactly the rows it would hold without the
      sweeps unless a recording found an earlier one of its own job swept. */
  lemma {:induction false} CountsOnEveryRun(b: Book, ops: seq<Op>, k: StateKey)
    requires Good(b) && Sourced(b) && Counted(b) && Possible(b, b, ops)
    ensures Count(After(b, ops), k) == Count(b, k) + Sightings(b, ops, k)
    ensures |Rows(After(b, ops), k)| <= Count(After(b, ops), k)
    ensures NothingLost(b, b, ops) ==>
              CountOk(After(b, WithoutSweeps(ops)), k) && Count(After(b, ops), k) == |Rows(After(b, WithoutSweeps(ops)), k)|
  {
    CountsSightings(b, ops, k);
    assert CountOk(b, k);
    assert CoversRows(b, k);
    hide Good, Sourced, CountOk, CoversRows, Possible, NothingLost, Trimmed, Rows;
    SimulatesItself(b);
    hide Simulates;
    SweepsOnlyForget(b, b, ops);
    CoveredOnEveryRun(b, b, ops, k);
    CoverSwept(UnsweptAfter(b, b, ops), After(b, ops), k);
    if NothingLost(b, b, ops) {
      UnsweptKeepsCounts(b, b, ops);
      UnsweptIsWithoutSweeps(b, b, ops);
      CountIs(UnsweptAfter(b, b, ops), k);
    }
  }

  lemma {:induction false} CountIs(b: Book, k: StateKey)
    requires Counted(b)
    ensures CountOk(b, k) && Count(b, k) == |Rows(b, k)|
  {
    assert CountOk(b, k);
  }

  lemma {:induction false} CoverSwept(b: Book, t: Book, k: StateKey)
    requires Simulates(t, b) && CoversRows(b, k)
    ensures |Rows(t, k)| <= Count(t, k)
  {
    hide Good, Sourced, KeepsLinks, KeepsEvents, KeepsLatest, KeepsUnfinished;
    FewerRowsCovered(b, t, k);
  }

  const EMPTY := Book(map[], {}, map[], map[], map[], [], map[], map[], map[], map[])

  /** The empty ledger satisfies everything the run theorems start from. */
  lemma {:induction false} EmptyLedger()
    ensures Good(EMPTY) && Sourced(EMPTY) && Counted(EMPTY) && Simulates(EMPTY, EMPTY)
  {
    assert Good(EMPTY) && Sourced(EMPTY);
    SimulatesItself(EMPTY);
  }

  // ---------------------------------------------------------------- what a sweep leaves in place

  /** Migration work can be opened from a finding when the finding and its occurrence are still
      there and no item covers the exposure yet. */
  predicate CanOpen(b: Book, ws: WorkspaceId, f: ObservationId, k: OccurrenceKey) {
    && f in b.findings && b.findings[f].ws == ws
    && k in b.occurrences && b.occurrences[k].findingId == f
    && b.occurrences[k].ws == ws && b.occurrences[k].asset == b.findings[f].asset
    && forall i :: i in b.items ==> !(b.items[i].ws == ws && b.items[i].asset == b.findings[f].asset && b.items[i].fp == k.fp)
  }

  lemma {:induction false} PrunedFindings(b: Book, ws: WorkspaceId, cutoff: Time, cascade: bool, f: ObservationId)
    ensures var t := Pruned(b, ws, cutoff, cascade);
            var aged := AgedOut(b, ws, cutoff, ProtectedJobs(b, ws));
            && (f in t.findings <==> f in b.findings && f !in StaleFindings(aged, ws, cutoff))
            && (f in t.findings ==> t.findings[f] == b.findings[f] && b.findings[f].job !in SweptJobs(b, ws, cutoff))
  {
    hide ProtectedJobs, StaleFindings, KeptEvents, EventsNotOf;
  }

  lemma {:induction false} AgedRows(b: Book, ws: WorkspaceId, cutoff: Time, k: OccurrenceKey)
    requires k in b.occurrences
    ensures var aged := AgedOut(b, ws, cutoff, ProtectedJobs(b, ws));
            && aged.findings == b.findings && aged.items == b.items
            && (k in aged.occurrences <==>
                  !(b.occurrences[k].ws == ws && b.occurrences[k].observedAt < cutoff && k.job !in ProtectedJobs(b, ws)))
            && (k in aged.occurrences ==> aged.occurrences[k] == b.occurrences[k])
  {
    hide ProtectedJobs, KeptEvents;
  }

  /** A sweep takes away the chance to open work from a finding exactly when it deletes the scan
      the finding was observed in: old, in the swept workspace and not protected. */
  lemma {:induction false} OpeningSurvivesSweep(b: Book, ws: WorkspaceId, f: ObservationId, k: OccurrenceKey,
                                                swept: WorkspaceId, cutoff: Time, cascade: bool)
    requires Good(b) && CanOpen(b, ws, f, k) && b.findings[f].job == k.job && k.job in b.snapshots
    ensures CanOpen(Pruned(b, swept, cutoff, cascade), ws, f, k) <==> !Old(b, swept, cutoff, k.job)
  {
    assert LinkedAt(b, k);
    PrunedRows(b, swept, cutoff, cascade);
    PrunedFindings(b, swept, cutoff, cascade, f);
    AgedRows(b, swept, cutoff, k);
    hide Good, Pruned, ProtectedJobs, SweptJobs, AgedOut;
  }

  /** The finding an active state shows stays available: its occurrence, its finding row and so
      the chance to open work from it survive every sweep. */
  lemma {:induction false} ActiveKeepsEvidence(b: Book, k: StateKey, swept: WorkspaceId, cutoff: Time, cascade: bool)
    requires Good(b) && k in b.states && b.states[k].active
    ensures var o := OccurrenceKey(b.states[k].lastJob, k.fp);
            var t := Pruned(b, swept, cutoff, cascade);
            && o in b.occurrences && o in t.occurrences && t.occurrences[o].payload == t.states[k].payload
            && (forall f :: CanOpen(b, k.ws, f, o) && b.findings[f].job == o.job ==> CanOpen(t, k.ws, f, o))
  {
    var o := OccurrenceKey(b.states[k].lastJob, k.fp);
    var t := Pruned(b, swept, cutoff, cascade);
    var latest := LatestOf(b, k.ws, k.asset);
    assert Agrees(b, latest) && ShowsOccurrence(b, k, latest);
    PruneTrims(b, swept, cutoff, cascade);
    hide Pruned;
    NotOld(b, latest, swept, cutoff);
    forall f | CanOpen(b, k.ws, f, o) && b.findings[f].job == o.job
      ensures CanOpen(t, k.ws, f, o)
    {
      OpeningSurvivesSweep(b, k.ws, f, o, swept, cutoff, cascade);
    }
  }

  lemma {:induction false} NotOld(b: Book, j: JobId, swept: WorkspaceId, cutoff: Time)
    requires IsLatest(b, j)
    ensures !Old(b, swept, cutoff, j)
  {
    if b.snapshots[j].ws == swept { LatestIsProtected(b, swept, j); }
    hide ProtectedJobs;
  }

  // ---------------------------------------------------------------- incremental collection

  /** A repository run of the asset whose job succeeded. */
  predicate SucceededRun(b: Book, ws: WorkspaceId, asset: AssetId, j: JobId) {
    && j in b.repositoryRuns && b.repositoryRuns[j].ws == ws && b.repositoryRuns[j].asset == asset
    && j in b.jobs && b.jobs[j].status.Succeeded? && b.jobs[j].finishedAt.Some?
  }

  /** `j` is the run the next collection starts from: the last one to finish, ties by id. */
  ghost predicate LastSuccessfulRun(b: Book, ws: WorkspaceId, asset: AssetId, j: JobId) {
    && SucceededRun(b, ws, asset, j)
    && forall k :: SucceededRun(b, ws, asset, k) && k != j ==>
         b.jobs[k].finishedAt.value < b.jobs[j].finishedAt.value
         || (b.jobs[k].finishedAt.value == b.jobs[j].finishedAt.value && IdBefore(j, k))
  }

  /** A sweep takes away the run the next collection starts from exactly when it deletes that run
      as old and unprotected, or its job. */
  lemma {:induction false} IncrementalBaseSurvives(b: Book, ws: WorkspaceId, asset: AssetId, j: JobId,
                                                   swept: WorkspaceId, cutoff: Time, cascade: bool)
    requires LastSuccessfulRun(b, ws, asset, j)
    ensures LastSuccessfulRun(Pruned(b, swept, cutoff, cascade), ws, asset, j) <==>
            && !(swept == ws && b.repositoryRuns[j].collectedAt < cutoff && j !in ProtectedJobs(b, ws))
            && j !in SweptJobs(b, swept, cutoff)
  {
    PrunedRows(b, swept, cutoff, cascade);
    PrunedNotes(b, swept, cutoff, cascade);
    hide Pruned, ProtectedJobs, SweptJobs, Old;
    var t := Pruned(b, swept, cutoff, cascade);
    forall k | SucceededRun(t, ws, asset, k) ensures SucceededRun(b, ws, asset, k) { }
  }

  /** In particular it stays while it is the scan that made the asset's latest snapshot. */
  lemma {:induction false} LatestBaseSurvives(b: Book, ws: WorkspaceId, asset: AssetId, j: JobId,
                                              swept: WorkspaceId, cutoff: Time, cascade: bool)
    requires Good(b) && LastSuccessfulRun(b, ws, asset, j) && IsLatest(b, j) && InScope(b.snapshots[j], ws, asset)
    ensures LastSuccessfulRun(Pruned(b, swept, cutoff, cascade), ws, asset, j)
  {
    assert Agrees(b, j);
    LatestIsProtected(b, ws, j);
    if j in SweptJobs(b, swept, cutoff) { SweptAreStale(b, swept, cutoff, j); }
    hide Good, Pruned, ProtectedJobs, SweptJobs, IsLatest;
    IncrementalBaseSurvives(b, ws, asset, j, swept, cutoff, cascade);
  }

  // ---------------------------------------------------------------- other workspaces

  /** The events of one workspace, in order. */
  function EventsIn(events: seq<Event>, ws: WorkspaceId): seq<Event> {
    if events == [] then [] else
    EventsIn(events[..|events| - 1], ws) + if events[|events| - 1].ws == ws then [events[|events| - 1]] else []
  }

  lemma {:induction false} EventsInMore(events: seq<Event>, e: Event, ws: WorkspaceId)
    ensures EventsIn(events + [e], ws) == EventsIn(events, ws) + if e.ws == ws then [e] else []
  {
    assert (events + [e])[..|events|] == events;
  }

  lemma {:induction false} KeptEventsIn(events: seq<Event>, ws: WorkspaceId, cutoff: Time, safe: set<JobId>, other: WorkspaceId)
    requires other != ws
    ensures EventsIn(KeptEvents(events, ws, cutoff, safe), other) == EventsIn(events, other)
  {
    if events != [] {
      var before := events[..|events| - 1];
      KeptEventsIn(before, ws, cutoff, safe, other);
      EventsInMore(KeptEvents(before, ws, cutoff, safe), events[|events| - 1], other);
      assert KeptEvents(before, ws, cutoff, safe) + [] == KeptEvents(before, ws, cutoff, safe);
      assert EventsIn(before, other) + [] == EventsIn(before, other);
    }
  }

  lemma {:induction false} EventsNotOfIn(events: seq<Event>, jobs: set<JobId>, other: WorkspaceId)
    requires forall e :: e in events && e.ws == other ==> e.job !in jobs
    ensures EventsIn(EventsNotOf(events, jobs), other) == EventsIn(events, other)
  {
    if events != [] {
      var before := events[..|events| - 1];
      assert events[|events| - 1] in events;
      EventsNotOfIn(before, jobs, other);
      EventsInMore(EventsNotOf(before, jobs), events[|events| - 1], other);
      assert EventsNotOf(before, jobs) + [] == EventsNotOf(before, jobs);
      assert EventsIn(before, other) + [] == EventsIn(before, other);
    }
  }

  /** `t` has the rows of one workspace that `b` has, in every table. */
  ghost predicate SameRowsOf(b: Book, t: Book, ws: WorkspaceId) {
    && SameJobsOf(b, t, ws) && SameEvidenceOf(b, t, ws) && SameNotesOf(b, t, ws)
    && EventsIn(t.events, ws) == EventsIn(b.events, ws)
    && (forall f :: f in b.findings && b.findings[f].ws == ws ==> f in t.findings && t.findings[f] == b.findings[f])
    && t.states == b.states && t.items == b.items
  }

  ghost predicate SameJobsOf(b: Book, t: Book, ws: WorkspaceId) {
    && (forall j :: j in b.jobs && b.jobs[j].ws == ws ==> j in t.jobs && t.jobs[j] == b.jobs[j])
    && (forall j :: j in b.queueRows && j in b.jobs && b.jobs[j].ws == ws ==> j in t.queueRows)
  }

  ghost predicate SameEvidenceOf(b: Book, t: Book, ws: WorkspaceId) {
    && (forall j :: j in b.snapshots && b.snapshots[j].ws == ws ==> j in t.snapshots && t.snapshots[j] == b.snapshots[j])
    && (forall k :: k in b.occurrences && b.occurrences[k].ws == ws ==> k in t.occurrences && t.occurrences[k] == b.occurrences[k])
  }

  ghost predicate SameNotesOf(b: Book, t: Book, ws: WorkspaceId) {
    && (forall j :: j in b.executions && b.executions[j].ws == ws ==> j in t.executions && t.executions[j] == b.executions[j])
    && (forall j :: j in b.repositoryRuns && b.repositoryRuns[j].ws == ws ==>
          j in t.repositoryRuns && t.repositoryRuns[j] == b.repositoryRuns[j])
  }

  /** A sweep of one workspace leaves every row of every other workspace alone, deletions that
      cascade from its jobs included. */
  lemma {:induction false} OtherWorkspacesUntouched(b: Book, ws: WorkspaceId, cutoff: Time, cascade: bool, other: WorkspaceId)
    requires Good(b) && other != ws
    ensures SameRowsOf(b, Pruned(b, ws, cutoff, cascade), other)
  {
    hide Good, Pruned, EventsIn, SameJobsOf, SameEvidenceOf, SameNotesOf;
    OtherEvents(b, ws, cutoff, cascade, other);
    OtherFindings(b, ws, cutoff, cascade, other);
    OtherJobs(b, ws, cutoff, cascade, other);
    OtherEvidence(b, ws, cutoff, cascade, other);
    OtherNotes(b, ws, cutoff, cascade, other);
    PruneDeletes(b, ws, cutoff, cascade);
  }

  lemma {:induction false} OtherJobs(b: Book, ws: WorkspaceId, cutoff: Time, cascade: bool, other: WorkspaceId)
    requires Good(b) && other != ws
    ensures SameJobsOf(b, Pruned(b, ws, cutoff, cascade), other)
  {
    hide Good, Pruned, ProtectedJobs, SweptJobs, Old;
    SweptLeaveOthers(b, ws, cutoff, other);
    PrunedRows(b, ws, cutoff, cascade);
    PrunedNotes(b, ws, cutoff, cascade);
  }

  lemma {:induction false} OtherEvidence(b: Book, ws: WorkspaceId, cutoff: Time, cascade: bool, other: WorkspaceId)
    requires Good(b) && other != ws
    ensures SameEvidenceOf(b, Pruned(b, ws, cutoff, cascade), other)
  {
    hide Good, Pruned, ProtectedJobs, SweptJobs;
    SweptLeaveOthers(b, ws, cutoff, other);
    PrunedRows(b, ws, cutoff, cascade);
  }

  lemma {:induction false} OtherNotes(b: Book, ws: WorkspaceId, cutoff: Time, cascade: bool, other: WorkspaceId)
    requires Good(b) && other != ws
    ensures SameNotesOf(b, Pruned(b, ws, cutoff, cascade), other)
  {
    hide Good, Pruned, ProtectedJobs, SweptJobs;
    SweptLeaveOthers(b, ws, cutoff, other);
    PrunedNotes(b, ws, cutoff, cascade);
  }

  /** The deleted jobs have left nothing in another workspace. */
  lemma {:induction false} SweptLeaveOthers(b: Book, ws: WorkspaceId, cutoff: Time, other: WorkspaceId)
    requires Good(b) && other != ws
    ensures var swept := SweptJobs(b, ws, cutoff);
            && (forall j :: j in swept ==> j in b.jobs && b.jobs[j].ws != other)
            && (forall j :: j in b.snapshots && b.snapshots[j].ws == other ==> j !in swept)
            && (forall j :: j in b.executions && b.executions[j].ws == other ==> j !in swept)
            && (forall j :: j in b.repositoryRuns && b.repositoryRuns[j].ws == other ==> j !in swept)
            && (forall k :: k in b.occurrences && b.occurrences[k].ws == other ==> k.job !in swept)
            && (forall e :: e in b.events && e.ws == other ==> e.job !in swept)
  {
    hide SweptJobs, IsLatest, Agrees, HasBaseline, ItemOk, DistinctTimes;
    forall j | j in SweptJobs(b, ws, cutoff) ensures j in b.jobs && b.jobs[j].ws == ws { SweptAreStale(b, ws, cutoff, j); }
    forall k | k in b.occurrences && b.occurrences[k].ws == other ensures k.job !in SweptJobs(b, ws, cutoff) {
      assert LinkedAt(b, k);
    }
    forall e | e in b.events && e.ws == other ensures e.job !in SweptJobs(b, ws, cutoff) {
      assert LinkedEvent(b, e);
    }
  }

  lemma {:induction false} OtherEvents(b: Book, ws: WorkspaceId, cutoff: Time, cascade: bool, other: WorkspaceId)
    requires Good(b) && other != ws
    ensures EventsIn(Pruned(b, ws, cutoff, cascade).events, other) == EventsIn(b.events, other)
  {
    SweptLeaveOthers(b, ws, cutoff, other);
    PrunedEvents(b, ws, cutoff, cascade);
    hide Good, Pruned, SweptJobs, ProtectedJobs, KeptEvents, EventsNotOf, EventsIn;
    var safe := ProtectedJobs(b, ws);
    KeptEventsIn(b.events, ws, cutoff, safe, other);
    KeptEventsAre(b.events, ws, cutoff, safe);
    if cascade { EventsNotOfIn(KeptEvents(b.events, ws, cutoff, safe), SweptJobs(b, ws, cutoff), other); }
  }

  lemma {:induction false} OtherFindings(b: Book, ws: WorkspaceId, cutoff: Time, cascade: bool, other: WorkspaceId)
    requires other != ws
    ensures var t := Pruned(b, ws, cutoff, cascade);
            forall f :: f in b.findings && b.findings[f].ws == other ==> f in t.findings && t.findings[f] == b.findings[f]
  {
    hide Pruned, ProtectedJobs, SweptJobs, StaleFindings, AgedOut;
    forall f | f in b.findings && b.findings[f].ws == other
      ensures f in Pruned(b, ws, cutoff, cascade).findings && Pruned(b, ws, cutoff, cascade).findings[f] == b.findings[f]
    {
      PrunedFindings(b, ws, cutoff, cascade, f);
      StaleFindingsAreOf(AgedOut(b, ws, cutoff, ProtectedJobs(b, ws)), ws, cutoff, f);
      AgedFindings(b, ws, cutoff);
    }
  }

  lemma {:induction false} StaleFindingsAreOf(b: Book, ws: WorkspaceId, cutoff: Time, f: ObservationId)
    ensures f in StaleFindings(b, ws, cutoff) ==> f in b.findings && b.findings[f].ws == ws
  {
  }

  lemma {:induction false} AgedFindings(b: Book, ws: WorkspaceId, cutoff: Time)
    ensures AgedOut(b, ws, cutoff, ProtectedJobs(b, ws)).findings == b.findings
  {
    hide ProtectedJobs, KeptEvents;
  }

  /** So it is in every ledger a run can reach. */
  lemma {:induction false} OtherWorkspacesOnEveryRun(b: Book, ops: seq<Op>, ws: WorkspaceId, cutoff: Time, cascade: bool, other: WorkspaceId)
    requires Good(b) && Sourced(b) && Possible(b, b, ops) && other != ws
    ensures SameRowsOf(After(b, ops), After(b, ops + [Sweep(ws, cutoff, cascade)]), other)
  {
    hide *;
    GoodOnEveryRun(b, ops);
    AfterOneMore(b, ops, Sweep(ws, cutoff, cascade));
    SweepIs(After(b, ops), ws, cutoff, cascade);
    OtherWorkspacesUntouched(After(b, ops), ws, cutoff, cascade, other);
  }

  lemma {:induction false} SweepIs(b: Book, ws: WorkspaceId, cutoff: Time, cascade: bool)
    ensures Do(b, Sweep(ws, cutoff, cascade)) == Pruned(b, ws, cutoff, cascade)
  {
    hide Pruned;
  }

  lemma {:induction false} AfterOneMore(b: Book, ops: seq<Op>, op: Op)
    ensures After(b, ops + [op]) == Do(After(b, ops), op)
    decreases |ops|
  {
    hide Do;
    if ops == [] {
      assert ops + [op] == [op];
    } else {
      assert (ops + [op])[1..] == ops[1..] + [op];
      AfterOneMore(Do(b, ops[0]), ops[1..], op);
    }
  }
}
