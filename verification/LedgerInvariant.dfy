/** What the observation ledger keeps in every reachable state, with retention sweeps running. */
module LedgerInvariant {
  import opened Common
  import opened Ledger
  import Q = ScanQueue

  // ---------------------------------------------------------------- the invariant

  /** Occurrence rows and snapshots are two views of the same scans. */
  ghost predicate LinkedAt(b: Book, k: OccurrenceKey) {
    && (k in b.occurrences <==> k.job in b.snapshots && k.fp in b.snapshots[k.job].fingerprints)
    && (k in b.occurrences ==>
          && InScope(b.snapshots[k.job], b.occurrences[k].ws, b.occurrences[k].asset)
          && b.occurrences[k].observedAt == b.snapshots[k.job].completedAt
          && b.occurrences[k].findingId == Prepared(k.job, k.fp)
          && Fp(b.occurrences[k].payload) == k.fp)
  }

  ghost predicate Linked(b: Book) {
    forall k: OccurrenceKey :: LinkedAt(b, k)
  }

  ghost predicate DistinctTimes(b: Book) {
    forall j, k :: j in b.snapshots && k in b.snapshots && j != k
                   && InScope(b.snapshots[j], b.snapshots[k].ws, b.snapshots[k].asset)
      ==> b.snapshots[j].completedAt != b.snapshots[k].completedAt
  }

  ghost predicate HasJob(b: Book, j: JobId)
    requires j in b.snapshots
  {
    j in b.jobs && InScope(b.snapshots[j], b.jobs[j].ws, b.jobs[j].asset)
  }

  /** The states of an asset agree with its latest scan `j`. */
  ghost predicate Agrees(b: Book, j: JobId)
    requires j in b.snapshots
  {
    var s := b.snapshots[j];
    && HasJob(b, j)
    && ActiveSet(b, s.ws, s.asset) == s.fingerprints
    && forall k :: k in b.states && k.ws == s.ws && k.asset == s.asset && b.states[k].active ==> ShowsOccurrence(b, k, j)
  }

  /** The state shows what scan `j` observed. */
  ghost predicate ShowsOccurrence(b: Book, k: StateKey, j: JobId)
    requires k in b.states
  {
    && b.states[k].lastJob == j
    && OccurrenceKey(j, k.fp) in b.occurrences
    && b.occurrences[OccurrenceKey(j, k.fp)].payload == b.states[k].payload
    && b.occurrences[OccurrenceKey(j, k.fp)].observedAt == b.states[k].lastSeen
  }

  /** The evidence on an item is that of its verification; a verified item's shows no trace. */
  predicate EvidenceOk(row: Item) {
    && (row.evidence.Some? <==> row.verificationJob.Some?)
    && (row.evidence.Some? ==>
          && row.evidence.value.job == row.verificationJob.value
          && row.evidence.value.fp == row.fp && row.evidence.value.sourceJob == row.sourceJob)
    && (row.status.Verified? ==> row.evidence.Some? && row.evidence.value.found.None?)
  }

  predicate ItemOk(row: Item) {
    && EvidenceOk(row)
    && (row.status.Verified? <==> row.verifiedAt.Some?)
    && (row.status.AcceptedRisk? <==> row.acceptanceReason.Some?)
    && (row.acceptanceReason.Some? ==> |row.acceptanceReason.value| >= 5)
  }

  /** A stored event belongs to a recorded scan. */
  ghost predicate LinkedEvent(b: Book, e: Event) {
    && e.job in b.snapshots && InScope(b.snapshots[e.job], e.ws, e.asset)
    && e.occurredAt == b.snapshots[e.job].completedAt
  }

  ghost predicate LinkedEvents(b: Book) {
    forall e :: e in b.events ==> LinkedEvent(b, e)
  }

  /** What a job leaves behind lies in its own workspace, and its scans in its own asset. */
  ghost predicate Scoped(b: Book) {
    && (forall j :: j in b.snapshots && j in b.jobs ==> InScope(b.snapshots[j], b.jobs[j].ws, b.jobs[j].asset))
    && (forall j :: j in b.executions && j in b.jobs ==> b.executions[j].ws == b.jobs[j].ws)
    && (forall j :: j in b.repositoryRuns && j in b.jobs ==>
          b.repositoryRuns[j].ws == b.jobs[j].ws && b.repositoryRuns[j].asset == b.jobs[j].asset)
  }

  ghost predicate Good(b: Book) {
    && Linked(b) && LinkedEvents(b) && DistinctTimes(b) && Scoped(b)
    && (forall j :: IsLatest(b, j) ==> Agrees(b, j))
    && (forall k :: k in b.states ==> HasBaseline(b, k.ws, k.asset))
    && (forall i :: i in b.items ==> ItemOk(b.items[i]))
  }

  /** An asset that has been scanned has exactly one latest snapshot. */
  lemma {:induction false} LatestAmong(b: Book, js: set<JobId>) returns (latest: JobId)
    requires js != {} && js <= b.snapshots.Keys
    ensures latest in js && forall k :: k in js && k != latest ==> Newer(b, latest, k)
  {
    latest :| latest in js;
    if js != {latest} {
      var other := LatestAmong(b, js - {latest});
      var one := latest;
      latest := if Newer(b, other, one) then other else one;
      forall k | k in js && k != latest ensures Newer(b, latest, k) {
        NewerIsTotal(b, one, other, k);
        NewerIsTotal(b, other, one, k);
      }
    }
  }

  lemma {:induction false} NewerIsTotal(b: Book, i: JobId, j: JobId, k: JobId)
    requires i in b.snapshots && j in b.snapshots && k in b.snapshots
    ensures i != j ==> Newer(b, i, j) || Newer(b, j, i)
    ensures !(Newer(b, i, j) && Newer(b, j, i))
    ensures Newer(b, i, j) && Newer(b, j, k) ==> Newer(b, i, k)
  {
  }

  lemma {:induction false} LatestOf(b: Book, ws: WorkspaceId, asset: AssetId) returns (latest: JobId)
    requires HasBaseline(b, ws, asset)
    ensures IsLatest(b, latest) && InScope(b.snapshots[latest], ws, asset)
  {
    var js := set j | j in b.snapshots && InScope(b.snapshots[j], ws, asset);
    var some :| some in b.snapshots && InScope(b.snapshots[some], ws, asset);
    assert some in js;
    latest := LatestAmong(b, js);
  }

  lemma {:induction false} LatestIsUnique(b: Book, i: JobId, j: JobId)
    requires IsLatest(b, i) && IsLatest(b, j) && InScope(b.snapshots[i], b.snapshots[j].ws, b.snapshots[j].asset)
    ensures i == j
  {
    NewerIsTotal(b, i, j, i);
  }

  // ---------------------------------------------------------------- prepared findings

  lemma {:induction false} CurrentMapOf(prepared: seq<Finding>, i: nat)
    requires i < |prepared|
    requires forall a, c :: 0 <= a < c < |prepared| ==> Fp(prepared[a]) != Fp(prepared[c])
    ensures Fp(prepared[i]) in CurrentMap(prepared) && CurrentMap(prepared)[Fp(prepared[i])] == prepared[i]
  {
    if i < |prepared| - 1 { CurrentMapOf(prepared[..|prepared| - 1], i); }
  }

  lemma {:induction false} CurrentMapFrom(prepared: seq<Finding>, fp: Fingerprint) returns (i: nat)
    requires fp in CurrentMap(prepared)
    ensures i < |prepared| && Fp(prepared[i]) == fp
  {
    if Fp(prepared[|prepared| - 1]) == fp {
      i := |prepared| - 1;
    } else {
      i := CurrentMapFrom(prepared[..|prepared| - 1], fp);
    }
  }

  lemma {:induction false} SelectedFps(findings: seq<Finding>)
    ensures forall fp :: fp in Selected(findings) ==> Fp(Selected(findings)[fp]) == fp && Selected(findings)[fp] in findings
    ensures forall f :: f in findings ==>
              Fp(f) in Selected(findings) && f.risk.score <= Selected(findings)[Fp(f)].risk.score
  {
    if findings != [] {
      var before := findings[..|findings| - 1];
      SelectedFps(before);
      forall f | f in findings
        ensures Fp(f) in Selected(findings) && f.risk.score <= Selected(findings)[Fp(f)].risk.score
      {
        if f != findings[|findings| - 1] { assert f in before; }
      }
    }
  }

  /** The prepared findings, as the map the recording loop reads them into. */
  lemma {:induction false} PreparedMap(job: JobId, findings: seq<Finding>)
    ensures var selected := Selected(findings);
            var prepared := PreparedFindings(job, findings);
            && |prepared| == |selected|
            && (forall i :: 0 <= i < |prepared| ==> Fp(prepared[i]) in selected)
            && (forall i, k :: 0 <= i < k < |prepared| ==> Fp(prepared[i]) < Fp(prepared[k]))
            && CurrentMap(prepared) == map fp | fp in selected :: Stamp(job, selected[fp])
  {
    PreparedRows(job, findings);
    var selected := Selected(findings);
    var fps := Sorted(selected.Keys);
    var prepared := PreparedFindings(job, findings);
    hide PreparedFindings, Selected, Sorted, CurrentMap;
    forall fp | fp in selected
      ensures fp in CurrentMap(prepared) && CurrentMap(prepared)[fp] == Stamp(job, selected[fp])
    {
      var i :| 0 <= i < |fps| && fps[i] == fp;
      CurrentMapOf(prepared, i);
    }
    forall fp | fp in CurrentMap(prepared)
      ensures fp in selected
    {
      var i := CurrentMapFrom(prepared, fp);
      assert fps[i] in fps;
    }
  }

  lemma {:induction false} PreparedRows(job: JobId, findings: seq<Finding>)
    ensures var selected := Selected(findings);
            var fps, prepared := Sorted(selected.Keys), PreparedFindings(job, findings);
            && |prepared| == |fps| == |selected|
            && (forall i :: 0 <= i < |fps| ==> fps[i] in selected && prepared[i] == Stamp(job, selected[fps[i]]))
            && (forall i :: 0 <= i < |prepared| ==> Fp(prepared[i]) == fps[i])
  {
    SelectedFps(findings);
    var fps := Sorted(Selected(findings).Keys);
    hide Selected, Sorted;
    assert forall i :: 0 <= i < |fps| ==> fps[i] in fps;
  }

  /** Preparing keeps, for every finding given, one of its fingerprint with at least its score. */
  lemma {:induction false} PreparedIsMaximal(job: JobId, findings: seq<Finding>, f: Finding)
    requires f in findings
    ensures var prepared := PreparedFindings(job, findings);
            exists i :: 0 <= i < |prepared| && Fp(prepared[i]) == Fp(f) && f.risk.score <= prepared[i].risk.score
  {
    SelectedFps(findings);
    var selected := Selected(findings);
    var fps := Sorted(selected.Keys);
    hide Selected, Sorted;
    var i :| 0 <= i < |fps| && fps[i] == Fp(f);
    assert PreparedFindings(job, findings)[i] == Stamp(job, selected[fps[i]]);
  }

  /** A prepared finding is one of those given, under the id of its job and fingerprint; ids are
      unique because fingerprints strictly increase. */
  lemma {:induction false} PreparedIsGiven(job: JobId, findings: seq<Finding>, i: nat)
    requires i < |PreparedFindings(job, findings)|
    ensures var prepared := PreparedFindings(job, findings);
            && (exists f :: f in findings && prepared[i] == Stamp(job, f))
            && prepared[i].observation.id == Prepared(job, Fp(prepared[i]))
            && (forall k :: 0 <= k < i ==> Fp(prepared[k]) < Fp(prepared[i]))
  {
    SelectedFps(findings);
    PreparedMap(job, findings);
    var selected := Selected(findings);
    var fps := Sorted(selected.Keys);
    hide Selected, Sorted;
    assert fps[i] in fps;
    assert selected[fps[i]] in findings;
  }

  lemma {:induction false} SelectedOfDistinct(findings: seq<Finding>)
    requires forall i, k :: 0 <= i < k < |findings| ==> Fp(findings[i]) != Fp(findings[k])
    ensures Selected(findings) == CurrentMap(findings)
  {
    if findings != [] {
      var before := findings[..|findings| - 1];
      SelectedOfDistinct(before);
      if Fp(findings[|findings| - 1]) in CurrentMap(before) {
        var i := CurrentMapFrom(before, Fp(findings[|findings| - 1]));
      }
    }
  }

  /** Selecting from prepared findings selects all of them. */
  lemma {:induction false} SelectedOfPrepared(job: JobId, findings: seq<Finding>)
    ensures var selected, again := Selected(findings), Selected(PreparedFindings(job, findings));
            again.Keys == selected.Keys && forall fp :: fp in selected ==> again[fp] == Stamp(job, selected[fp])
  {
    PreparedMap(job, findings);
    hide Selected, PreparedFindings, CurrentMap;
    SelectedOfDistinct(PreparedFindings(job, findings));
  }

  /** Preparing prepared findings again changes nothing, so the recording that prepares what the
      worker has already prepared records the same findings. */
  lemma {:induction false} PrepareTwiceIsOnce(job: JobId, findings: seq<Finding>)
    ensures PreparedFindings(job, PreparedFindings(job, findings)) == PreparedFindings(job, findings)
  {
    hide *;
    var once := PreparedFindings(job, findings);
    var twice := PreparedFindings(job, once);
    SelectedOfPrepared(job, findings);
    PreparedRows(job, findings);
    PreparedRows(job, once);
    var fps := Sorted(Selected(findings).Keys);
    forall i | 0 <= i < |fps| ensures twice[i] == once[i] {
      StampTwice(job, Selected(findings)[fps[i]]);
    }
  }

  lemma {:induction false} StampTwice(job: JobId, f: Finding)
    ensures Stamp(job, Stamp(job, f)) == Stamp(job, f)
  {
  }

  // ---------------------------------------------------------------- recording

  /** A scan is recorded for a job of the asset that has none yet, after every earlier scan of it. */
  ghost predicate FreshScan(b: Book, ws: WorkspaceId, asset: AssetId, job: JobId, now: Time) {
    && job !in b.snapshots && job in b.jobs && b.jobs[job].ws == ws && b.jobs[job].asset == asset
    && forall j :: j in b.snapshots && InScope(b.snapshots[j], ws, asset) ==> b.snapshots[j].completedAt < now
  }

  lemma {:induction false} RecordedIsLatest(b: Book, ws: WorkspaceId, asset: AssetId, job: JobId, findings: seq<Finding>, now: Time)
    requires FreshScan(b, ws, asset, job, now)
    ensures var b' := Recorded(b, ws, asset, job, findings, now);
            && IsLatest(b', job)
            && forall j :: IsLatest(b', j) && j != job ==> IsLatest(b, j) && !InScope(b.snapshots[j], ws, asset)
  {
    RecordedRows(b, ws, asset, job, findings, now);
    hide Recorded, PreparedFindings, CurrentMap, OccurrencesOf;
    NewIsLatest(b, Recorded(b, ws, asset, job, findings, now), ws, asset, job, now);
  }

  lemma {:induction false} NewIsLatest(b: Book, b': Book, ws: WorkspaceId, asset: AssetId, job: JobId, now: Time)
    requires FreshScan(b, ws, asset, job, now)
    requires job in b'.snapshots && b'.snapshots == b.snapshots[job := b'.snapshots[job]]
    requires InScope(b'.snapshots[job], ws, asset) && b'.snapshots[job].completedAt == now
    ensures IsLatest(b', job)
    ensures forall j :: IsLatest(b', j) && j != job ==> IsLatest(b, j) && !InScope(b.snapshots[j], ws, asset)
  {
    forall j | IsLatest(b', j) && j != job
      ensures IsLatest(b, j) && !InScope(b.snapshots[j], ws, asset)
    {
      if InScope(b.snapshots[j], ws, asset) { NewerIsTotal(b', j, job, j); }
      forall k | k in b.snapshots && k != j && InScope(b.snapshots[k], b.snapshots[j].ws, b.snapshots[j].asset)
        ensures Newer(b, j, k)
      {
        assert Newer(b', j, k);
      }
    }
  }

  /** After a scan the active states of the asset are exactly the scan's fingerprints. */
  lemma {:induction false} ActiveAfterScan(b: Book, ws: WorkspaceId, asset: AssetId, job: JobId, findings: seq<Finding>, now: Time)
    requires job !in b.snapshots
    ensures var b' := Recorded(b, ws, asset, job, findings, now);
            && ActiveSet(b', ws, asset) == b'.snapshots[job].fingerprints
            && (forall w, a :: w != ws || a != asset ==> ActiveSet(b', w, a) == ActiveSet(b, w, a))
            && (forall k :: k in b'.states && k.ws == ws && k.asset == asset && b'.states[k].active ==>
                  b'.states[k].lastJob == job && k.fp in CurrentMap(PreparedFindings(job, findings))
                  && b'.states[k].payload == CurrentMap(PreparedFindings(job, findings))[k.fp] && b'.states[k].lastSeen == now)
  {
    hide SeenKeys, PreparedFindings, CurrentMap, ScanEvents, OccurrencesOf;
    var b' := Recorded(b, ws, asset, job, findings, now);
    var current := CurrentMap(PreparedFindings(job, findings));
    forall w, a | w != ws || a != asset
      ensures ActiveSet(b', w, a) == ActiveSet(b, w, a)
    {
      forall fp ensures fp in ActiveSet(b', w, a) <==> fp in ActiveSet(b, w, a) {
        var k := StateKey(w, a, fp);
        assert k !in SeenKeys(ws, asset, current);
      }
    }
    forall fp ensures fp in ActiveSet(b', ws, asset) <==> fp in current { }
  }

  /** What recording a new scan adds, apart from the states and the events. */
  lemma {:induction false} RecordedRows(b: Book, ws: WorkspaceId, asset: AssetId, job: JobId, findings: seq<Finding>, now: Time)
    requires job !in b.snapshots
    ensures var b' := Recorded(b, ws, asset, job, findings, now);
            var current := CurrentMap(PreparedFindings(job, findings));
            && b'.occurrences == b.occurrences + OccurrencesOf(ws, asset, job, current, now)
            && b'.snapshots == b.snapshots[job := Snapshot(ws, asset, now, |current|, current.Keys)]
            && (forall fp :: fp in current ==> current[fp].observation.id == Prepared(job, fp) && Fp(current[fp]) == fp)
            && b' == b.(states := b'.states, events := b'.events, occurrences := b'.occurrences, snapshots := b'.snapshots)
  {
    hide StatesAfter, ScanEvents, OccurrencesOf;
    PreparedMap(job, findings);
    SelectedFps(findings);
    hide PreparedFindings, Selected, CurrentMap;
    assert CurrentMap(PreparedFindings(job, findings)).Keys == Selected(findings).Keys;
  }

  lemma {:induction false} RecordKeepsLinkedAt(b: Book, ws: WorkspaceId, asset: AssetId, job: JobId, findings: seq<Finding>, now: Time, k: OccurrenceKey)
    requires LinkedAt(b, k) && job !in b.snapshots
    ensures LinkedAt(Recorded(b, ws, asset, job, findings, now), k)
  {
    RecordedRows(b, ws, asset, job, findings, now);
    hide Recorded, PreparedFindings, CurrentMap, OccurrencesOf, OccurrenceKeys;
    var current := CurrentMap(PreparedFindings(job, findings));
    OccurrencesAt(ws, asset, job, current, now, k);
  }

  lemma {:induction false} OccurrencesAt(ws: WorkspaceId, asset: AssetId, job: JobId, current: map<Fingerprint, Finding>,
                                         now: Time, k: OccurrenceKey)
    ensures var added := OccurrencesOf(ws, asset, job, current, now);
            && (k in added <==> k.job == job && k.fp in current)
            && (k in added ==> added[k] == Occurrence(ws, asset, current[k.fp].observation.id, now, current[k.fp]))
  {
  }

  lemma {:induction false} RecordKeepsLinked(b: Book, ws: WorkspaceId, asset: AssetId, job: JobId, findings: seq<Finding>, now: Time)
    requires Linked(b) && job !in b.snapshots
    ensures Linked(Recorded(b, ws, asset, job, findings, now))
  {
    hide Recorded, LinkedAt;
    forall k: OccurrenceKey
      ensures LinkedAt(Recorded(b, ws, asset, job, findings, now), k)
    {
      RecordKeepsLinkedAt(b, ws, asset, job, findings, now, k);
    }
  }

  /** Every event of a scan carries its scope, its job and its time. */
  lemma {:induction false} ObservedEventsOf(b: Book, ws: WorkspaceId, asset: AssetId, job: JobId, prepared: seq<Finding>, now: Time)
    ensures forall e :: e in ObservedEvents(b, ws, asset, job, prepared, now) ==>
              e.ws == ws && e.asset == asset && e.job == job && e.occurredAt == now
  {
    if prepared != [] { ObservedEventsOf(b, ws, asset, job, prepared[..|prepared| - 1], now); }
  }

  lemma {:induction false} ResolvedEventsOf(b: Book, ws: WorkspaceId, asset: AssetId, job: JobId, gone: seq<Fingerprint>, now: Time)
    requires forall i :: 0 <= i < |gone| ==> StateKey(ws, asset, gone[i]) in b.states
    ensures forall e :: e in ResolvedEvents(b, ws, asset, job, gone, now) ==>
              e.ws == ws && e.asset == asset && e.job == job && e.occurredAt == now
  {
    if gone != [] { ResolvedEventsOf(b, ws, asset, job, gone[..|gone| - 1], now); }
  }

  lemma {:induction false} ScanEventsOf(b: Book, ws: WorkspaceId, asset: AssetId, job: JobId, prepared: seq<Finding>, now: Time)
    ensures forall e :: e in ScanEvents(b, ws, asset, job, prepared, now) ==>
              e.ws == ws && e.asset == asset && e.job == job && e.occurredAt == now
  {
    hide Gone;
    ObservedEventsOf(b, ws, asset, job, prepared, now);
    var gone := Sorted(Gone(b, ws, asset, CurrentMap(prepared)));
    assert forall i :: 0 <= i < |gone| ==> gone[i] in gone;
    ResolvedEventsOf(b, ws, asset, job, gone, now);
  }

  lemma {:induction false} RecordAddsEvents(b: Book, ws: WorkspaceId, asset: AssetId, job: JobId, findings: seq<Finding>, now: Time)
    requires job !in b.snapshots
    ensures var b' := Recorded(b, ws, asset, job, findings, now);
            && b'.events == b.events + RecordedEvents(b, ws, asset, job, findings, now)
            && forall e :: e in RecordedEvents(b, ws, asset, job, findings, now) ==>
                 e.ws == ws && e.asset == asset && e.job == job && e.occurredAt == now
  {
    hide StatesAfter, OccurrencesOf, PreparedFindings, ScanEvents;
    ScanEventsOf(b, ws, asset, job, PreparedFindings(job, findings), now);
  }

  lemma {:induction false} RecordKeepsEvents(b: Book, ws: WorkspaceId, asset: AssetId, job: JobId, findings: seq<Finding>, now: Time)
    requires LinkedEvents(b) && job !in b.snapshots
    ensures LinkedEvents(Recorded(b, ws, asset, job, findings, now))
  {
    RecordAddsEvents(b, ws, asset, job, findings, now);
    RecordedRows(b, ws, asset, job, findings, now);
    hide Recorded, RecordedEvents, PreparedFindings, CurrentMap, OccurrencesOf, LinkedEvents;
    LinkedEventsGrow(b, Recorded(b, ws, asset, job, findings, now), RecordedEvents(b, ws, asset, job, findings, now), job);
  }

  lemma {:induction false} LinkedEventsGrow(b: Book, b': Book, more: seq<Event>, job: JobId)
    requires LinkedEvents(b) && b'.events == b.events + more
    requires job !in b.snapshots && job in b'.snapshots && b'.snapshots == b.snapshots[job := b'.snapshots[job]]
    requires forall e :: e in more ==>
               e.job == job && InScope(b'.snapshots[job], e.ws, e.asset) && e.occurredAt == b'.snapshots[job].completedAt
    ensures LinkedEvents(b')
  {
    forall e | e in b'.events
      ensures LinkedEvent(b', e)
    {
      assert e in b.events ==> LinkedEvent(b, e);
    }
  }

  lemma {:induction false} RecordKeepsTimes(b: Book, ws: WorkspaceId, asset: AssetId, job: JobId, findings: seq<Finding>, now: Time)
    requires DistinctTimes(b) && FreshScan(b, ws, asset, job, now)
    ensures DistinctTimes(Recorded(b, ws, asset, job, findings, now))
  {
    RecordedRows(b, ws, asset, job, findings, now);
    hide Recorded, PreparedFindings, CurrentMap, OccurrencesOf;
  }

  lemma {:induction false} RecordKeepsBaselines(b: Book, ws: WorkspaceId, asset: AssetId, job: JobId, findings: seq<Finding>, now: Time)
    requires job !in b.snapshots
    requires forall k :: k in b.states ==> HasBaseline(b, k.ws, k.asset)
    ensures var b' := Recorded(b, ws, asset, job, findings, now);
            forall k :: k in b'.states ==> HasBaseline(b', k.ws, k.asset)
  {
    hide PreparedFindings, CurrentMap, ScanEvents, OccurrencesOf, SeenKeys;
    var b' := Recorded(b, ws, asset, job, findings, now);
    forall k | k in b'.states
      ensures HasBaseline(b', k.ws, k.asset)
    {
      if k.ws == ws && k.asset == asset {
        assert InScope(b'.snapshots[job], ws, asset);
      } else {
        assert k !in SeenKeys(ws, asset, CurrentMap(PreparedFindings(job, findings))) && k in b.states;
        var j :| j in b.snapshots && InScope(b.snapshots[j], k.ws, k.asset);
        assert j in b'.snapshots && InScope(b'.snapshots[j], k.ws, k.asset);
      }
    }
  }

  lemma {:induction false} RecordKeepsAgreement(b: Book, ws: WorkspaceId, asset: AssetId, job: JobId, findings: seq<Finding>, now: Time, j: JobId)
    requires FreshScan(b, ws, asset, job, now)
    requires forall i :: IsLatest(b, i) ==> Agrees(b, i)
    requires IsLatest(Recorded(b, ws, asset, job, findings, now), j)
    ensures Agrees(Recorded(b, ws, asset, job, findings, now), j)
  {
    RecordedIsLatest(b, ws, asset, job, findings, now);
    if j == job {
      ActiveAfterScan(b, ws, asset, job, findings, now);
      RecordedRows(b, ws, asset, job, findings, now);
      hide Recorded, PreparedFindings, CurrentMap, OccurrencesOf, ActiveSet, IsLatest;
      var b' := Recorded(b, ws, asset, job, findings, now);
      forall k | k in b'.states && k.ws == ws && k.asset == asset && b'.states[k].active
        ensures ShowsOccurrence(b', k, job)
      {
        OccurrencesAt(ws, asset, job, CurrentMap(PreparedFindings(job, findings)), now, OccurrenceKey(job, k.fp));
      }
    } else {
      hide Recorded, ActiveSet, IsLatest;
      AgreesElsewhere(b, ws, asset, job, findings, now, j);
    }
  }

  /** Recording a new scan keeps the ledger's views in agreement. */
  lemma {:induction false} RecordKeepsGood(b: Book, ws: WorkspaceId, asset: AssetId, job: JobId, findings: seq<Finding>, now: Time)
    requires Good(b) && FreshScan(b, ws, asset, job, now)
    ensures Good(Recorded(b, ws, asset, job, findings, now))
  {
    hide Recorded, Linked, LinkedEvents, DistinctTimes, Scoped, HasBaseline, ItemOk, Agrees, FreshScan;
    FreshScanIsNew(b, ws, asset, job, now);
    RecordKeepsLinked(b, ws, asset, job, findings, now);
    RecordKeepsEvents(b, ws, asset, job, findings, now);
    RecordKeepsTimes(b, ws, asset, job, findings, now);
    RecordKeepsBaselines(b, ws, asset, job, findings, now);
    RecordedItems(b, ws, asset, job, findings, now);
    RecordKeepsScoped(b, ws, asset, job, findings, now);
    forall j | IsLatest(Recorded(b, ws, asset, job, findings, now), j)
      ensures Agrees(Recorded(b, ws, asset, job, findings, now), j)
    {
      RecordKeepsAgreement(b, ws, asset, job, findings, now, j);
    }
  }

  lemma {:induction false} FreshScanIsNew(b: Book, ws: WorkspaceId, asset: AssetId, job: JobId, now: Time)
    requires FreshScan(b, ws, asset, job, now)
    ensures job !in b.snapshots && job in b.jobs
  {
  }

  lemma {:induction false} RecordKeepsScoped(b: Book, ws: WorkspaceId, asset: AssetId, job: JobId, findings: seq<Finding>, now: Time)
    requires Scoped(b) && FreshScan(b, ws, asset, job, now)
    ensures Scoped(Recorded(b, ws, asset, job, findings, now))
  {
    hide Recorded, PreparedFindings, CurrentMap, OccurrencesOf;
    RecordedRows(b, ws, asset, job, findings, now);
  }

  lemma {:induction false} RecordedItems(b: Book, ws: WorkspaceId, asset: AssetId, job: JobId, findings: seq<Finding>, now: Time)
    ensures Recorded(b, ws, asset, job, findings, now).items == b.items
  {
    hide StatesAfter, ScanEvents, OccurrencesOf, PreparedFindings, CurrentMap;
  }

  lemma {:induction false} AgreesElsewhere(b: Book, ws: WorkspaceId, asset: AssetId, job: JobId, findings: seq<Finding>, now: Time, j: JobId)
    requires FreshScan(b, ws, asset, job, now) && j in b.snapshots && Agrees(b, j)
    requires !InScope(b.snapshots[j], ws, asset)
    ensures Agrees(Recorded(b, ws, asset, job, findings, now), j)
  {
    var b' := Recorded(b, ws, asset, job, findings, now);
    var s := b.snapshots[j];
    var current := CurrentMap(PreparedFindings(job, findings));
    ActiveAfterScan(b, ws, asset, job, findings, now);
    RecordedRows(b, ws, asset, job, findings, now);
    forall k | k in b'.states && k.ws == s.ws && k.asset == s.asset && b'.states[k].active
      ensures ShowsOccurrence(b', k, j)
    {
      StatesElsewhere(b, ws, asset, job, findings, now, k);
      OccurrencesAt(ws, asset, job, current, now, OccurrenceKey(j, k.fp));
    }
    hide Recorded, PreparedFindings, CurrentMap, OccurrencesOf, ActiveSet, ShowsOccurrence;
  }

  /** States outside the scanned asset are not touched. */
  lemma {:induction false} StatesElsewhere(b: Book, ws: WorkspaceId, asset: AssetId, job: JobId, findings: seq<Finding>, now: Time, k: StateKey)
    requires k.ws != ws || k.asset != asset
    ensures var b' := Recorded(b, ws, asset, job, findings, now);
            && (k in b'.states <==> k in b.states)
            && (k in b.states ==> b'.states[k] == b.states[k])
  {
    hide PreparedFindings, CurrentMap, ScanEvents, OccurrencesOf, SeenKeys;
  }
}
