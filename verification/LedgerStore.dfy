/** The repositories that change the ledger's tables row by row, proved against the functions
    on `Book`. */
module LedgerStore {
  import opened Common
  import opened Ledger
  import opened LedgerInvariant
  import opened LedgerKeeps
  import Q = ScanQueue

  const SECONDS_PER_DAY := 86400
  const SECONDS_PER_HOUR := 3600

  datatype RetentionPolicy = RetentionPolicy(
    enabled: bool, evidenceDays: nat, auditDays: nat, sweepIntervalHours: nat, lastRunAt: Option<Time>)

  /** How many rows the deletions of a sweep report, table by table. Rows that go by cascade are
      not reported. */
  datatype Deleted = Deleted(
    occurrences: int, events: int, snapshots: int, executions: int, repositoryRuns: int,
    findings: int, queueRows: int, jobs: int)

  datatype SweepResult = SweepResult(cutoff: Time, auditCutoff: Time, deleted: Deleted, audits: int, protectedJobs: nat)

  datatype AuditRow = AuditRow(ws: WorkspaceId, createdAt: Time)

  function EvidenceDeleted(b: Book, aged: Book): Deleted {
    Deleted(|b.occurrences| - |aged.occurrences|, |b.events| - |aged.events|, |b.snapshots| - |aged.snapshots|,
            |b.executions| - |aged.executions|, |b.repositoryRuns| - |aged.repositoryRuns|, 0, 0, 0)
  }

  /** Old evidence goes, then findings, then jobs with their queue rows. */
  function RowsDeleted(b: Book, ws: WorkspaceId, cutoff: Time): Deleted {
    var safe := ProtectedJobs(b, ws);
    var aged := AgedOut(b, ws, cutoff, safe);
    var stale := StaleFindings(aged, ws, cutoff);
    var ended := StaleJobs(aged.(findings := aged.findings - stale), ws, cutoff, safe);
    EvidenceDeleted(b, aged).(findings := |stale|, queueRows := |b.queueRows * ended|, jobs := |ended|)
  }

  lemma {:induction false} SizeWithout<K, V>(m: map<K, V>, gone: set<K>)
    requires gone <= m.Keys
    ensures |m - gone| == |m| - |gone|
  {
    assert (m - gone).Keys == m.Keys - gone;
    assert |m.Keys - gone| == |m.Keys| - |gone|;
    assert |m - gone| == |(m - gone).Keys| && |m| == |m.Keys|;
  }

  /** The reported numbers are the rows lost: in every table when nothing cascades, and at any rate
      in the tables of findings, queue rows and jobs. */
  lemma {:induction false} RowsDeletedAreLost(b: Book, ws: WorkspaceId, cutoff: Time, cascade: bool)
    ensures var t, d := Pruned(b, ws, cutoff, cascade), RowsDeleted(b, ws, cutoff);
            && |t.findings| == |b.findings| - d.findings
            && |t.queueRows| == |b.queueRows| - d.queueRows
            && |t.jobs| == |b.jobs| - d.jobs
            && (!cascade ==> d == EvidenceDeleted(b, t).(findings := d.findings, queueRows := d.queueRows, jobs := d.jobs))
  {
    hide ProtectedJobs, StaleFindings, StaleJobs, AgedOut, EvidenceDeleted;
    var safe := ProtectedJobs(b, ws);
    var aged := AgedOut(b, ws, cutoff, safe);
    var stale := StaleFindings(aged, ws, cutoff);
    var trimmed := aged.(findings := aged.findings - stale);
    var ended := StaleJobs(trimmed, ws, cutoff, safe);
    AgedKeeps(b, ws, cutoff, safe);
    StaleAreRows(aged, trimmed, ws, cutoff, safe);
    JobsDeleted(trimmed, ended, cascade);
    SizeWithout(b.findings, stale);
    SizeWithout(b.jobs, ended);
    SetSizeWithout(b.queueRows, ended);
    SameEvidenceDeleted(b, aged, WithoutJobs(trimmed, ended, cascade), cascade);
    hide WithoutJobs;
  }

  lemma {:induction false} SetSizeWithout<T>(s: set<T>, gone: set<T>)
    ensures |s - gone| == |s| - |s * gone|
  {
    assert s - gone == s - s * gone;
  }

  lemma {:induction false} AgedKeeps(b: Book, ws: WorkspaceId, cutoff: Time, safe: set<JobId>)
    ensures var aged := AgedOut(b, ws, cutoff, safe);
            aged.findings == b.findings && aged.jobs == b.jobs && aged.queueRows == b.queueRows
  {
    hide KeptEvents, KeptOccurrences, KeptSnapshots, KeptExecutions, KeptRuns;
  }

  lemma {:induction false} StaleAreRows(aged: Book, trimmed: Book, ws: WorkspaceId, cutoff: Time, safe: set<JobId>)
    ensures StaleFindings(aged, ws, cutoff) <= aged.findings.Keys
    ensures StaleJobs(trimmed, ws, cutoff, safe) <= trimmed.jobs.Keys
  {
  }

  lemma {:induction false} JobsDeleted(b: Book, ended: set<JobId>, cascade: bool)
    ensures var t := WithoutJobs(b, ended, cascade);
            t.jobs == b.jobs - ended && t.queueRows == b.queueRows - ended && t.findings == b.findings
  {
    hide EventsNotOf, OccurrencesNotOf;
  }

  lemma {:induction false} SameEvidenceDeleted(b: Book, aged: Book, t: Book, cascade: bool)
    requires !cascade ==> t.occurrences == aged.occurrences && t.events == aged.events && t.snapshots == aged.snapshots
                          && t.executions == aged.executions && t.repositoryRuns == aged.repositoryRuns
    ensures !cascade ==> EvidenceDeleted(b, t) == EvidenceDeleted(b, aged)
  {
  }

  /** The time of the next sweep: at once if there was none, else when the interval has passed. */
  function NextSweep(policy: RetentionPolicy, now: Time): Time {
    if policy.lastRunAt.None? then now else policy.lastRunAt.value + policy.sweepIntervalHours * SECONDS_PER_HOUR
  }

  // ---------------------------------------------------------------- partly recorded scans

  /** The states after some of the scan's findings have been observed. */
  function SeenStates(b: Book, ws: WorkspaceId, asset: AssetId, job: JobId, current: map<Fingerprint, Finding>,
                      now: Time): map<StateKey, State> {
    map k | k in b.states.Keys + SeenKeys(ws, asset, current) ::
      if k.ws == ws && k.asset == asset && k.fp in current then Seen(b, k, job, current[k.fp], now) else b.states[k]
  }

  ghost function Members(fps: seq<Fingerprint>): set<Fingerprint> { set fp | fp in fps }

  function Inactive(state: State, job: JobId, now: Time): State {
    state.(active := false, lastJob := job, updatedAt := now)
  }

  function Resolving(state: State, k: StateKey, ws: WorkspaceId, asset: AssetId, gone: set<Fingerprint>, job: JobId, now: Time): State {
    if k.ws == ws && k.asset == asset && k.fp in gone then Inactive(state, job, now) else state
  }

  lemma {:induction false} SeenStatesGrow(b: Book, ws: WorkspaceId, asset: AssetId, job: JobId, current: map<Fingerprint, Finding>,
                                          f: Finding, now: Time)
    requires Fp(f) !in current
    ensures var k := StateKey(ws, asset, Fp(f));
            SeenStates(b, ws, asset, job, current[Fp(f) := f], now)
            == SeenStates(b, ws, asset, job, current, now)[k := Seen(b, k, job, f, now)]
  {
    hide SeenKeys;
  }

  lemma {:induction false} OccurrencesGrow(ws: WorkspaceId, asset: AssetId, job: JobId, current: map<Fingerprint, Finding>,
                                           f: Finding, now: Time)
    requires Fp(f) !in current
    ensures OccurrencesOf(ws, asset, job, current[Fp(f) := f], now)
            == OccurrencesOf(ws, asset, job, current, now)[OccurrenceKey(job, Fp(f)) := Occurrence(ws, asset, f.observation.id, now, f)]
  {
    hide OccurrenceKeys;
  }

  /** Deactivating what is gone completes the states. */
  lemma {:induction false} StatesComplete(b: Book, ws: WorkspaceId, asset: AssetId, job: JobId, current: map<Fingerprint, Finding>,
                                          now: Time, gone: set<Fingerprint>, states: map<StateKey, State>)
    requires gone == Gone(b, ws, asset, current)
    requires states.Keys == SeenStates(b, ws, asset, job, current, now).Keys
    requires forall k :: k in states ==>
               states[k] == Resolving(SeenStates(b, ws, asset, job, current, now)[k], k, ws, asset, gone, job, now)
    ensures states == StatesAfter(b, ws, asset, job, current, now)
  {
    hide SeenKeys;
  }

  class LedgerDatabase {
    var jobs: map<JobId, JobRow>
    var queueRows: set<JobId>
    var snapshots: map<JobId, Snapshot>
    var states: map<StateKey, State>
    var occurrences: map<OccurrenceKey, Occurrence>
    var events: seq<Event>
    var executions: map<JobId, ScheduledExecution>
    var repositoryRuns: map<JobId, RepositoryRun>
    var findings: map<ObservationId, FindingRow>
    var items: map<ItemId, Item>
    var workspaces: set<WorkspaceId>
    var policies: map<WorkspaceId, RetentionPolicy>
    var audits: map<nat, AuditRow>
    /** Whether deleting a job row deletes the rows that refer to it. */
    const cascade: bool

    constructor (cascade: bool)
      ensures Tables() == Book(map[], {}, map[], map[], map[], [], map[], map[], map[], map[])
      ensures policies == map[] && workspaces == {} && audits == map[] && this.cascade == cascade
    {
      jobs, queueRows, snapshots, states, occurrences := map[], {}, map[], map[], map[];
      events, executions, repositoryRuns, findings, items := [], map[], map[], map[], map[];
      workspaces, policies, audits := {}, map[], map[];
      this.cascade := cascade;
    }

    function Tables(): Book
      reads this
    {
      Book(jobs, queueRows, snapshots, states, occurrences, events, executions, repositoryRuns, findings, items)
    }

    // -------------------------------------------------------------- recording

    method SelectFindings(given: seq<Finding>) returns (selected: map<Fingerprint, Finding>)
      ensures selected == Selected(given)
    {
      selected := map[];
      for i := 0 to |given|
        invariant selected == Selected(given[..i])
      {
        var f := given[i];
        assert given[..i + 1][..i] == given[..i];
        if Fp(f) !in selected || f.risk.score > selected[Fp(f)].risk.score {
          selected := selected[Fp(f) := f];
        }
      }
      assert given[..|given|] == given;
    }

    /** One finding per fingerprint, the highest score first come, in fingerprint order, under
        the ids of this job. */
    method PrepareFindings(job: JobId, given: seq<Finding>) returns (prepared: seq<Finding>)
      ensures prepared == PreparedFindings(job, given)
    {
      var selected := SelectFindings(given);
      var fps := Sorted(selected.Keys);
      hide Sorted, Selected, Stamp;
      assert forall i :: 0 <= i < |fps| ==> fps[i] in fps;
      prepared := [];
      for i := 0 to |fps|
        invariant |prepared| == i
        invariant forall n :: 0 <= n < i ==> prepared[n] == Stamp(job, selected[fps[n]])
      {
        prepared := prepared + [Stamp(job, selected[fps[i]])];
      }
    }

    /** The drift events of one observed finding, from the row it updates. */
    method ObserveOne(k: StateKey, job: JobId, f: Finding, now: Time, baseline: bool, ghost b: Book)
        returns (drift: seq<Event>)
      requires baseline == HasBaseline(b, k.ws, k.asset)
      requires (k in states <==> k in b.states) && (k in states ==> states[k] == b.states[k])
      modifies this`states
      ensures states == old(states)[k := Seen(b, k, job, f, now)]
      ensures drift == SeenEvents(b, k, job, f, now)
    {
      hide HasBaseline;
      drift := [];
      if k !in states {
        states := states[k := State(true, now, now, job, job, 1, f, now)];
        if baseline {
          drift := drift + [NewEvent(k, job, Introduced, f, None, now)];
        }
      } else {
        var row := states[k];
        var wasActive := row.active;
        var previous := row.payload.risk;
        var changed := EvidenceChanged(row.payload, f);
        if baseline && !wasActive {
          drift := drift + [NewEvent(k, job, Introduced, f, Some(previous), now)];
        }
        if baseline && wasActive && changed {
          drift := drift + [NewEvent(k, job, Changed, f, Some(previous), now)];
        }
        if baseline && wasActive && f.risk.score > previous.score {
          drift := drift + [NewEvent(k, job, RiskIncreased, f, Some(previous), now)];
        } else if baseline && wasActive && f.risk.score < previous.score {
          drift := drift + [NewEvent(k, job, RiskDecreased, f, Some(previous), now)];
        }
        states := states[k := row.(active := true, lastSeen := now, lastJob := job, occurrences := row.occurrences + 1,
                                   payload := f, updatedAt := now)];
      }
    }

    /** The loop over the scan's findings: states, occurrences and events, row by row. */
    method ObserveAll(ws: WorkspaceId, asset: AssetId, job: JobId, prepared: seq<Finding>, now: Time, baseline: bool, ghost b: Book)
        returns (drift: seq<Event>)
      requires b.states == states && b.occurrences == occurrences && baseline == HasBaseline(b, ws, asset)
      requires forall i, n :: 0 <= i < n < |prepared| ==> Fp(prepared[i]) != Fp(prepared[n])
      modifies this`states, this`occurrences
      ensures states == SeenStates(b, ws, asset, job, CurrentMap(prepared), now)
      ensures occurrences == b.occurrences + OccurrencesOf(ws, asset, job, CurrentMap(prepared), now)
      ensures drift == ObservedEvents(b, ws, asset, job, prepared, now)
    {
      hide HasBaseline, SeenStates, OccurrencesOf, CurrentMap, ObservedEvents, SeenEvents, Seen;
      NothingObservedYet(b, ws, asset, job, now);
      assert prepared[..0] == [] && prepared[..|prepared|] == prepared;
      drift := [];
      assert Observing(b, ws, asset, job, prepared, 0, now, states, occurrences, drift);
      for i := 0 to |prepared|
        invariant Observing(b, ws, asset, job, prepared, i, now, states, occurrences, drift)
      {
        hide *;
        var f := prepared[i];
        var k := StateKey(ws, asset, Fp(f));
        RowOfNext(b, ws, asset, job, prepared, i, now, states, occurrences, drift);
        ObservingOneMore(b, ws, asset, job, prepared, i, now, states, occurrences, drift);
        var more := ObserveOne(k, job, f, now, baseline, b);
        drift := drift + more;
        occurrences := occurrences[OccurrenceKey(job, Fp(f)) := Occurrence(ws, asset, f.observation.id, now, f)];
      }
    }

    /** The loop over the fingerprints that are gone, in order. */
    method ResolveGone(ws: WorkspaceId, asset: AssetId, job: JobId, gone: seq<Fingerprint>, now: Time, baseline: bool, ghost b: Book)
        returns (drift: seq<Event>)
      requires baseline == HasBaseline(b, ws, asset)
      requires forall i, n :: 0 <= i < n < |gone| ==> gone[i] != gone[n]
      requires forall i :: 0 <= i < |gone| ==> StateKey(ws, asset, gone[i]) in b.states && StateKey(ws, asset, gone[i]) in states
      requires forall i :: 0 <= i < |gone| ==> states[StateKey(ws, asset, gone[i])] == b.states[StateKey(ws, asset, gone[i])]
      modifies this`states
      ensures states.Keys == old(states.Keys)
      ensures forall k :: k in states ==> states[k] == Resolving(old(states)[k], k, ws, asset, Members(gone), job, now)
      ensures drift == ResolvedEvents(b, ws, asset, job, gone, now)
    {
      ghost var before := states;
      assert gone[..0] == [] && gone[..|gone|] == gone;
      assert Members([]) == {};
      drift := [];
      for i := 0 to |gone|
        invariant states.Keys == before.Keys
        invariant forall k :: k in states ==> states[k] == Resolving(before[k], k, ws, asset, Members(gone[..i]), job, now)
        invariant drift == ResolvedEvents(b, ws, asset, job, gone[..i], now)
      {
        hide HasBaseline, Resolving, Members;
        var k := StateKey(ws, asset, gone[i]);
        var row := states[k];
        ResolvingOneMore(b, ws, asset, job, gone, i, now, before, states);
        assert gone[..i + 1][..i] == gone[..i];
        if baseline {
          drift := drift + [NewEvent(k, job, Resolved, row.payload, Some(row.payload.risk), now)];
        }
        states := states[k := row.(active := false, lastJob := job, updatedAt := now)];
      }
    }

    /** The two loops of a recording, on states and occurrences. */
    method RecordRows(ws: WorkspaceId, asset: AssetId, job: JobId, prepared: seq<Finding>, now: Time, baseline: bool,
                      gone: seq<Fingerprint>, ghost b: Book)
        returns (drift: seq<Event>)
      requires forall i, n :: 0 <= i < n < |prepared| ==> Fp(prepared[i]) != Fp(prepared[n])
      requires b.states == states && b.occurrences == occurrences && baseline == HasBaseline(b, ws, asset)
      requires gone == Sorted(Gone(b, ws, asset, CurrentMap(prepared)))
      modifies this`states, this`occurrences
      ensures drift == ScanEvents(b, ws, asset, job, prepared, now)
      ensures states == StatesAfter(b, ws, asset, job, CurrentMap(prepared), now)
      ensures occurrences == b.occurrences + OccurrencesOf(ws, asset, job, CurrentMap(prepared), now)
    {
      ghost var current := CurrentMap(prepared);
      GoneRows(b, ws, asset, job, current, now, gone);
      assert ScanEvents(b, ws, asset, job, prepared, now)
             == ObservedEvents(b, ws, asset, job, prepared, now) + ResolvedEvents(b, ws, asset, job, gone, now);
      hide *;
      drift := ObserveAll(ws, asset, job, prepared, now, baseline, b);
      var resolved := ResolveGone(ws, asset, job, gone, now, baseline, b);
      StatesComplete(b, ws, asset, job, current, now, Members(gone), states);
      drift := drift + resolved;
    }

    /** The rows of a scan that has not been recorded. */
    method RecordNew(ws: WorkspaceId, asset: AssetId, job: JobId, prepared: seq<Finding>, now: Time)
        returns (drift: seq<Event>)
      requires forall i, n :: 0 <= i < n < |prepared| ==> Fp(prepared[i]) != Fp(prepared[n])
      modifies this`states, this`occurrences, this`events, this`snapshots
      ensures drift == ScanEvents(old(Tables()), ws, asset, job, prepared, now)
      ensures states == StatesAfter(old(Tables()), ws, asset, job, CurrentMap(prepared), now)
      ensures occurrences == old(occurrences) + OccurrencesOf(ws, asset, job, CurrentMap(prepared), now)
      ensures events == old(events) + drift
      ensures snapshots == old(snapshots)[job := Snapshot(ws, asset, now, |prepared|, CurrentMap(prepared).Keys)]
    {
      ghost var b := Tables();
      var baseline := HasBaseline(Tables(), ws, asset);
      var current := CurrentMap(prepared);
      var gone := Sorted(ActiveSet(Tables(), ws, asset) - current.Keys);
      hide HasBaseline, Sorted, ActiveSet, CurrentMap, ScanEvents, StatesAfter, OccurrencesOf;
      drift := RecordRows(ws, asset, job, prepared, now, baseline, gone, b);
      events := events + drift;
      snapshots := snapshots[job := Snapshot(ws, asset, now, |prepared|, current.Keys)];
    }

    /** Records a successful scan and returns its drift events. A job that already has a snapshot
        changes nothing and gets the stored events back. */
    method RecordSuccessfulScan(ws: WorkspaceId, asset: AssetId, job: JobId, given: seq<Finding>, now: Time)
        returns (drift: seq<Event>)
      modifies this`states, this`occurrences, this`events, this`snapshots
      ensures Tables() == Recorded(old(Tables()), ws, asset, job, given, now)
      ensures drift == RecordedEvents(old(Tables()), ws, asset, job, given, now)
    {
      hide CurrentMap, StatesAfter, OccurrencesOf, ScanEvents;
      var prepared := PrepareFindings(job, given);
      if job in snapshots {
        return EventsOf(events, job);
      }
      PreparedMap(job, given);
      hide PreparedFindings, Selected;
      drift := RecordNew(ws, asset, job, prepared, now);
    }

    // -------------------------------------------------------------- remediation

    /** Checks an item against the asset's latest scan. */
    method Verify(ws: WorkspaceId, item: ItemId, job: JobId, now: Time) returns (r: Result<Evidence>)
      modifies this`items
      ensures r == Verdict(old(Tables()), ws, item, job)
      ensures Tables() == VerifyItem(old(Tables()), ws, item, job, now)
    {
      if item !in items || items[item].ws != ws { return Err(LookupError); }
      var row := items[item];
      if !row.status.ReadyForVerification? { return Err(ValueError); }
      if !(job in jobs && jobs[job].ws == ws && jobs[job].asset == row.asset && jobs[job].status.Succeeded?) {
        return Err(ValueError);
      }
      if job !in snapshots { return Err(ValueError); }
      if !(InScope(snapshots[job], ws, row.asset) && IsLatest(Tables(), job)) { return Err(ValueError); }
      if row.sourceJob in snapshots && snapshots[job].completedAt <= snapshots[row.sourceJob].completedAt {
        return Err(ValueError);
      }
      var found: Option<Found> := None;
      if OccurrenceKey(job, row.fp) in occurrences {
        var payload := occurrences[OccurrenceKey(job, row.fp)].payload;
        found := Some(Found(payload.risk.score, payload.risk.severity, payload.observation.evidence));
      }
      var evidence := Evidence(job, snapshots[job].completedAt, row.sourceJob, row.fp, found);
      row := row.(verificationJob := Some(job), evidence := Some(evidence), updatedAt := now);
      if found.None? {
        row := row.(status := Verified, verifiedAt := Some(now));
      } else {
        row := row.(status := InProgress, verifiedAt := None);
      }
      items := items[item := row];
      r := Ok(evidence);
    }

    /** Changes the status, the acceptance reason and the notes on an item; a refused update changes
        nothing. */
    method UpdateItem(ws: WorkspaceId, item: ItemId, target: Option<ItemStatus>, reason: TextChange, changes: Changes, now: Time)
        returns (r: Result<Item>)
      modifies this`items
      ensures r == UpdateOutcome(old(Tables()), ws, item, target, reason, changes, now)
      ensures Tables() == Ledger.UpdateItem(old(Tables()), ws, item, target, reason, changes, now)
    {
      if changes.unknown { return Err(ValueError); }
      if item !in items || items[item].ws != ws { return Err(LookupError); }
      var row := items[item];
      if target.Some? {
        if target.value.Verified? { return Err(ValueError); }
        if target.value != row.status && !AllowedItemTransition(row.status, target.value) { return Err(ValueError); }
        row := row.(status := target.value);
        if target.value.AcceptedRisk? {
          var text := Reason(reason, row.acceptanceReason);
          if text.None? { return Err(ValueError); }
          row := row.(acceptanceReason := text);
        } else {
          row := row.(acceptanceReason := None);
        }
        row := row.(verifiedAt := None);
      }
      var plan := NotePlan(row.plan, changes);
      if plan.Err? { return Err(plan.error); }
      row := row.(plan := plan.value);
      if !reason.Absent? && row.status.AcceptedRisk? {
        var text := Reason(reason, None);
        if text.None? { return Err(ValueError); }
        row := row.(acceptanceReason := text);
      }
      row := row.(updatedAt := now);
      items := items[item := row];
      r := Ok(row);
    }

    /** The fields people note, one by one. */
    method NotePlan(before: Plan, changes: Changes) returns (r: Result<Plan>)
      ensures r == PlanAfter(before, changes)
    {
      var plan := before;
      if !changes.owner.Absent? {
        plan := plan.(owner := Noted(changes.owner, None, 200));
      }
      if changes.priority.UnknownPriority? { return Err(ValueError); }
      if changes.priority.Set? { plan := plan.(priority := changes.priority.priority); }
      if !changes.algorithm.Absent? {
        plan := plan.(algorithm := Noted(changes.algorithm, None, 200));
      }
      if changes.due.NotADate? { return Err(ValueError); }
      if changes.due.Date? { plan := plan.(due := Some(changes.due.at)); }
      if changes.due.NullDate? { plan := plan.(due := None); }
      if changes.notes.Text? && changes.notes.text != "" {
        ghost var start := StripExactly(changes.notes.text);
        plan := plan.(notes := Some(Strip(changes.notes.text)));
      } else if !changes.notes.Absent? {
        plan := plan.(notes := None);
      }
      r := Ok(plan);
    }

    // -------------------------------------------------------------- retention

    /** The jobs unfinished work refers to, row by row. */
    method CollectFromItems(ws: WorkspaceId) returns (safe: set<JobId>)
      ensures safe == JobsOfUnfinishedItems(Tables(), ws)
    {
      safe := {};
      var rows := set i | i in items && items[i].ws == ws && Unfinished(items[i].status);
      ghost var all, done: set<ItemId> := rows, {};
      assert forall j :: j !in safe && !NeededBy(items, done, j);
      while rows != {}
        invariant done + rows == all && done <= items.Keys
        invariant forall j :: j in safe <==> NeededBy(items, done, j)
        decreases |rows|
      {
        var i :| i in rows;
        forall j ensures NeededBy(items, done + {i}, j) <==> NeededBy(items, done, j) || j in ItemJobs(items[i]) {
          NeededByOneMore(items, done, i, j);
        }
        hide NeededBy;
        safe := safe + {items[i].sourceJob};
        if items[i].verificationJob.Some? {
          safe := safe + {items[i].verificationJob.value};
        }
        rows, done := rows - {i}, done + {i};
      }
      forall j ensures NeededBy(items, all, j) <==> j in JobsOfUnfinishedItems(Tables(), ws) {
        NeededByUnfinished(Tables(), ws, all, j);
      }
    }

    /** The jobs a sweep must keep: shown by an active state, newest of an asset, or needed by
        unfinished work. */
    method CollectProtected(ws: WorkspaceId) returns (safe: set<JobId>)
      ensures safe == ProtectedJobs(Tables(), ws)
      ensures forall j :: j in safe <==> Needed(Tables(), ws, j)
    {
      hide Needed;
      forall j ensures j in ProtectedJobs(Tables(), ws) <==> Needed(Tables(), ws, j) { ProtectedExactly(Tables(), ws, j); }
      hide LastJobsOfActive, JobsOfNewestSnapshots, JobsOfNewestRuns, JobsOfUnfinishedItems;
      safe := LastJobsOfActive(Tables(), ws);
      safe := safe + JobsOfNewestSnapshots(Tables(), ws);
      safe := safe + JobsOfNewestRuns(Tables(), ws);
      var needed := CollectFromItems(ws);
      safe := safe + needed;
    }

    /** One sweep under the workspace's policy; `locked` says that another sweep holds its row.
        Without a policy, nothing is deleted, nor by a due-only sweep that is not due or finds the
        row locked; any other sweep waits for the row. A disabled policy refuses even a due-only
        sweep. */
    method PruneWorkspaceHistory(ws: WorkspaceId, now: Time, onlyIfDue: bool, locked: bool) returns (r: Result<Option<SweepResult>>)
      modifies this
      ensures ws !in old(policies) || (locked && onlyIfDue) ==>
                r == (if onlyIfDue then Ok(None) else if ws !in old(workspaces) then Err(LookupError) else Err(ValueError))
      ensures ws in old(policies) && !(locked && onlyIfDue) && !old(policies)[ws].enabled ==> r == Err(ValueError)
      ensures ws in old(policies) && !locked && onlyIfDue && old(policies)[ws].enabled ==>
                var policy := old(policies)[ws];
                (r == Ok(None) <==> policy.lastRunAt.Some? && now < policy.lastRunAt.value + policy.sweepIntervalHours * 3600)
      ensures (r.Err? || r.value.None?) ==> Tables() == old(Tables()) && policies == old(policies) && audits == old(audits)
      ensures ws in old(policies) && old(policies)[ws].enabled && (!onlyIfDue || (!locked && NextSweep(old(policies)[ws], now) <= now)) ==>
                && r.Ok? && r.value.Some?
                && var policy, sweep := old(policies)[ws], r.value.value;
                   && sweep.cutoff == now - policy.evidenceDays * SECONDS_PER_DAY
                   && sweep.auditCutoff == now - policy.auditDays * SECONDS_PER_DAY
                   && sweep.protectedJobs == |ProtectedJobs(old(Tables()), ws)|
                   && sweep.deleted == RowsDeleted(old(Tables()), ws, sweep.cutoff)
                   && sweep.audits == |old(audits)| - |audits|
                   && Tables() == Pruned(old(Tables()), ws, sweep.cutoff, cascade)
                   && audits == (map n | n in old(audits) && !(old(audits)[n].ws == ws && old(audits)[n].createdAt < sweep.auditCutoff) :: old(audits)[n])
                   && policies == old(policies)[ws := policy.(lastRunAt := Some(now))]
      ensures workspaces == old(workspaces)
    {
      if ws !in policies || (locked && onlyIfDue) {
        if onlyIfDue { return Ok(None); }
        if ws !in workspaces { return Err(LookupError); }
        return Err(ValueError);
      }
      var policy := policies[ws];
      if !policy.enabled { return Err(ValueError); }
      if onlyIfDue && now < NextSweep(policy, now) { return Ok(None); }
      var sweep := Sweep(ws, policy, now);
      r := Ok(Some(sweep));
    }

    /** The sweep itself: evidence and jobs, then audit rows, then the time of the sweep. */
    method Sweep(ws: WorkspaceId, policy: RetentionPolicy, now: Time) returns (sweep: SweepResult)
      requires ws in policies && policies[ws] == policy
      modifies this
      ensures sweep.cutoff == now - policy.evidenceDays * SECONDS_PER_DAY
      ensures sweep.auditCutoff == now - policy.auditDays * SECONDS_PER_DAY
      ensures sweep.protectedJobs == |ProtectedJobs(old(Tables()), ws)|
      ensures sweep.deleted == RowsDeleted(old(Tables()), ws, sweep.cutoff)
      ensures sweep.audits == |old(audits)| - |audits|
      ensures Tables() == Pruned(old(Tables()), ws, sweep.cutoff, cascade)
      ensures audits == map n | n in old(audits) && !(old(audits)[n].ws == ws && old(audits)[n].createdAt < sweep.auditCutoff) :: old(audits)[n]
      ensures policies == old(policies)[ws := policy.(lastRunAt := Some(now))] && workspaces == old(workspaces)
    {
      hide ProtectedJobs, RowsDeleted, Pruned;
      var cutoff := now - policy.evidenceDays * SECONDS_PER_DAY;
      var auditCutoff := now - policy.auditDays * SECONDS_PER_DAY;
      var safe := CollectProtected(ws);
      var deleted := DeleteAged(ws, cutoff, safe);
      var removed := DeleteAudits(ws, auditCutoff);
      policies := policies[ws := policy.(lastRunAt := Some(now))];
      sweep := SweepResult(cutoff, auditCutoff, deleted, removed, |safe|);
    }

    method DeleteAudits(ws: WorkspaceId, cutoff: Time) returns (removed: int)
      modifies this`audits
      ensures audits == map n | n in old(audits) && !(old(audits)[n].ws == ws && old(audits)[n].createdAt < cutoff) :: old(audits)[n]
      ensures removed == |old(audits)| - |audits|
    {
      var before := |audits|;
      audits := map n | n in audits && !(audits[n].ws == ws && audits[n].createdAt < cutoff) :: audits[n];
      removed := before - |audits|;
    }

    /** The evidence a sweep deletes by age, table by table. */
    method DeleteEvidence(ws: WorkspaceId, cutoff: Time, safe: set<JobId>) returns (rows: Deleted)
      modifies this`occurrences, this`events, this`snapshots, this`executions, this`repositoryRuns
      ensures Tables() == AgedOut(old(Tables()), ws, cutoff, safe)
      ensures rows == EvidenceDeleted(old(Tables()), Tables())
    {
      hide KeptEvents, KeptOccurrences, KeptSnapshots, KeptExecutions, KeptRuns;
      var before := Deleted(|occurrences|, |events|, |snapshots|, |executions|, |repositoryRuns|, 0, 0, 0);
      occurrences, events := KeptOccurrences(occurrences, ws, cutoff, safe), KeptEvents(events, ws, cutoff, safe);
      snapshots := KeptSnapshots(snapshots, ws, cutoff, safe);
      executions, repositoryRuns := KeptExecutions(executions, ws, cutoff, safe), KeptRuns(repositoryRuns, ws, cutoff, safe);
      rows := Deleted(before.occurrences - |occurrences|, before.events - |events|, before.snapshots - |snapshots|,
                      before.executions - |executions|, before.repositoryRuns - |repositoryRuns|, 0, 0, 0);
    }

    /** The deletions of a sweep: aged evidence, then findings and jobs nothing refers to. */
    method DeleteAged(ws: WorkspaceId, cutoff: Time, safe: set<JobId>) returns (deleted: Deleted)
      requires safe == ProtectedJobs(Tables(), ws)
      modifies this`jobs, this`queueRows, this`snapshots, this`occurrences, this`events, this`executions, this`repositoryRuns, this`findings
      ensures Tables() == Pruned(old(Tables()), ws, cutoff, cascade)
      ensures deleted == RowsDeleted(old(Tables()), ws, cutoff)
    {
      ghost var b := Tables();
      hide ProtectedJobs, StaleFindings, StaleJobs, AgedOut, WithoutJobs, EvidenceDeleted;
      deleted := DeleteEvidence(ws, cutoff, safe);
      ghost var aged := AgedOut(b, ws, cutoff, safe);
      AgedKeeps(b, ws, cutoff, safe);
      var stale := StaleFindings(Tables(), ws, cutoff);
      if stale != {} { findings := findings - stale; }
      ghost var trimmed := aged.(findings := aged.findings - stale);
      assert Tables() == trimmed;
      var ended := StaleJobs(Tables(), ws, cutoff, safe);
      deleted := deleted.(findings := |stale|, queueRows := |queueRows * ended|, jobs := |ended|);
      if ended != {} {
        DeleteJobs(ended);
      } else {
        NothingDeleted(trimmed, cascade);
      }
    }

    method DeleteJobs(ended: set<JobId>)
      modifies this`jobs, this`queueRows, this`snapshots, this`occurrences, this`events, this`executions, this`repositoryRuns
      ensures Tables() == WithoutJobs(old(Tables()), ended, cascade)
    {
      hide OccurrencesNotOf, EventsNotOf;
      queueRows := queueRows - ended;
      jobs := jobs - ended;
      if cascade {
        occurrences := OccurrencesNotOf(occurrences, ended);
        snapshots := snapshots - ended;
        executions := executions - ended;
        repositoryRuns := repositoryRuns - ended;
        events := EventsNotOf(events, ended);
      }
    }
  }

  ghost function ItemJobs(row: Item): set<JobId> {
    {row.sourceJob} + if row.verificationJob.Some? then {row.verificationJob.value} else {}
  }

  ghost predicate NeededBy(items: map<ItemId, Item>, among: set<ItemId>, j: JobId) {
    exists i :: i in among && i in items && j in ItemJobs(items[i])
  }

  lemma {:induction false} NeededByOneMore(items: map<ItemId, Item>, among: set<ItemId>, i: ItemId, j: JobId)
    requires i in items
    ensures NeededBy(items, among + {i}, j) <==> NeededBy(items, among, j) || j in ItemJobs(items[i])
  {
    hide ItemJobs;
    if n :| n in among && n in items && j in ItemJobs(items[n]) { assert n in among + {i}; }
    assert i in among + {i};
  }

  lemma {:induction false} NeededByUnfinished(b: Book, ws: WorkspaceId, all: set<ItemId>, j: JobId)
    requires all == set i | i in b.items && b.items[i].ws == ws && Unfinished(b.items[i].status)
    ensures NeededBy(b.items, all, j) <==> j in JobsOfUnfinishedItems(b, ws)
  {
    if NeededBy(b.items, all, j) {
      var i :| i in all && i in b.items && j in ItemJobs(b.items[i]);
      assert b.items[i].sourceJob == j || b.items[i].verificationJob == Some(j);
    }
  }

  lemma {:induction false} NothingDeleted(b: Book, cascade: bool)
    ensures WithoutJobs(b, {}, cascade) == b
  {
    hide EventsNotOf;
    NoEventsDeleted(b.events);
    assert b.jobs - {} == b.jobs && b.queueRows - {} == b.queueRows && b.snapshots - {} == b.snapshots;
    assert b.executions - {} == b.executions && b.repositoryRuns - {} == b.repositoryRuns;
    assert OccurrencesNotOf(b.occurrences, {}) == b.occurrences;
  }

  lemma {:induction false} NoEventsDeleted(events: seq<Event>)
    ensures EventsNotOf(events, {}) == events
  {
    if events != [] { NoEventsDeleted(events[..|events| - 1]); }
  }

  /** The rows of what is gone have not been touched by what is observed. */
  lemma {:induction false} GoneRows(b: Book, ws: WorkspaceId, asset: AssetId, job: JobId, current: map<Fingerprint, Finding>,
                                    now: Time, gone: seq<Fingerprint>)
    requires gone == Sorted(Gone(b, ws, asset, current))
    ensures Members(gone) == Gone(b, ws, asset, current)
    ensures forall i, n :: 0 <= i < n < |gone| ==> gone[i] != gone[n]
    ensures forall i :: 0 <= i < |gone| ==> StateKey(ws, asset, gone[i]) in b.states
    ensures var seen := SeenStates(b, ws, asset, job, current, now);
            forall i :: 0 <= i < |gone| ==>
              StateKey(ws, asset, gone[i]) in seen && seen[StateKey(ws, asset, gone[i])] == b.states[StateKey(ws, asset, gone[i])]
  {
    hide Sorted, SeenKeys;
    assert forall i :: 0 <= i < |gone| ==> gone[i] in gone;
  }

  lemma {:induction false} NothingObservedYet(b: Book, ws: WorkspaceId, asset: AssetId, job: JobId, now: Time)
    ensures SeenStates(b, ws, asset, job, CurrentMap([]), now) == b.states
    ensures b.occurrences + OccurrencesOf(ws, asset, job, CurrentMap([]), now) == b.occurrences
    ensures ObservedEvents(b, ws, asset, job, [], now) == []
  {
  }

  lemma {:induction false} NotSeenBefore(b: Book, ws: WorkspaceId, asset: AssetId, job: JobId, prepared: seq<Finding>, i: nat, now: Time)
    requires i < |prepared|
    requires forall n, m :: 0 <= n < m < |prepared| ==> Fp(prepared[n]) != Fp(prepared[m])
    ensures var current, k := CurrentMap(prepared[..i]), StateKey(ws, asset, Fp(prepared[i]));
            var seen := SeenStates(b, ws, asset, job, current, now);
            && Fp(prepared[i]) !in current
            && CurrentMap(prepared[..i + 1]) == current[Fp(prepared[i]) := prepared[i]]
            && ObservedEvents(b, ws, asset, job, prepared[..i + 1], now)
               == ObservedEvents(b, ws, asset, job, prepared[..i], now) + SeenEvents(b, k, job, prepared[i], now)
            && (k in seen <==> k in b.states) && (k in seen ==> seen[k] == b.states[k])
  {
    hide SeenKeys, SeenEvents;
    assert prepared[..i + 1][..i] == prepared[..i];
    if Fp(prepared[i]) in CurrentMap(prepared[..i]) {
      var n := CurrentMapFrom(prepared[..i], Fp(prepared[i]));
    }
  }

  /** The tables and the events after the first `i` findings of a scan. */
  ghost predicate Observing(b: Book, ws: WorkspaceId, asset: AssetId, job: JobId, prepared: seq<Finding>, i: nat, now: Time,
                            states: map<StateKey, State>, occurrences: map<OccurrenceKey, Occurrence>, drift: seq<Event>)
    requires i <= |prepared|
  {
    && states == SeenStates(b, ws, asset, job, CurrentMap(prepared[..i]), now)
    && occurrences == b.occurrences + OccurrencesOf(ws, asset, job, CurrentMap(prepared[..i]), now)
    && drift == ObservedEvents(b, ws, asset, job, prepared[..i], now)
  }

  lemma {:induction false} AddOne<K, V>(m: map<K, V>, n: map<K, V>, k: K, v: V)
    ensures m + n[k := v] == (m + n)[k := v]
  {
  }

  lemma {:induction false} RowOfNext(b: Book, ws: WorkspaceId, asset: AssetId, job: JobId, prepared: seq<Finding>, i: nat, now: Time,
                                     states: map<StateKey, State>, occurrences: map<OccurrenceKey, Occurrence>, drift: seq<Event>)
    requires i < |prepared|
    requires forall n, m :: 0 <= n < m < |prepared| ==> Fp(prepared[n]) != Fp(prepared[m])
    requires Observing(b, ws, asset, job, prepared, i, now, states, occurrences, drift)
    ensures var k := StateKey(ws, asset, Fp(prepared[i]));
            (k in states <==> k in b.states) && (k in states ==> states[k] == b.states[k])
  {
    hide SeenStates, OccurrencesOf, CurrentMap, ObservedEvents, SeenEvents;
    NotSeenBefore(b, ws, asset, job, prepared, i, now);
  }

  /** One round of the loop over the scan's findings. */
  lemma {:induction false} ObservingOneMore(b: Book, ws: WorkspaceId, asset: AssetId, job: JobId, prepared: seq<Finding>, i: nat, now: Time,
                                            states: map<StateKey, State>, occurrences: map<OccurrenceKey, Occurrence>, drift: seq<Event>)
    requires i < |prepared|
    requires forall n, m :: 0 <= n < m < |prepared| ==> Fp(prepared[n]) != Fp(prepared[m])
    requires Observing(b, ws, asset, job, prepared, i, now, states, occurrences, drift)
    ensures var f, k := prepared[i], StateKey(ws, asset, Fp(prepared[i]));
            var o := Occurrence(ws, asset, f.observation.id, now, f);
            Observing(b, ws, asset, job, prepared, i + 1, now, states[k := Seen(b, k, job, f, now)],
                      occurrences[OccurrenceKey(job, Fp(f)) := o], drift + SeenEvents(b, k, job, f, now))
  {
    var current, f := CurrentMap(prepared[..i]), prepared[i];
    hide SeenStates, OccurrencesOf, CurrentMap, ObservedEvents, SeenEvents, Seen;
    NotSeenBefore(b, ws, asset, job, prepared, i, now);
    SeenStatesGrow(b, ws, asset, job, current, f, now);
    OccurrencesGrow(ws, asset, job, current, f, now);
    AddOne(b.occurrences, OccurrencesOf(ws, asset, job, current, now), OccurrenceKey(job, Fp(f)),
           Occurrence(ws, asset, f.observation.id, now, f));
  }

  lemma {:induction false} ResolvingOneMore(b: Book, ws: WorkspaceId, asset: AssetId, job: JobId, gone: seq<Fingerprint>, i: nat, now: Time,
                                            before: map<StateKey, State>, states: map<StateKey, State>)
    requires i < |gone|
    requires forall n, m :: 0 <= n < m < |gone| ==> gone[n] != gone[m]
    requires forall n :: 0 <= n < |gone| ==> StateKey(ws, asset, gone[n]) in b.states && StateKey(ws, asset, gone[n]) in before
    requires states.Keys == before.Keys
    requires forall k :: k in states ==> states[k] == Resolving(before[k], k, ws, asset, Members(gone[..i]), job, now)
    ensures var k := StateKey(ws, asset, gone[i]);
            var states' := states[k := Inactive(states[k], job, now)];
            && states[k] == before[k]
            && states'.Keys == before.Keys
            && (forall n :: n in states' ==> states'[n] == Resolving(before[n], n, ws, asset, Members(gone[..i + 1]), job, now))
  {
    assert gone[i] !in gone[..i];
    assert Members(gone[..i + 1]) == Members(gone[..i]) + {gone[i]} by { assert gone[..i + 1] == gone[..i] + [gone[i]]; }
    hide Members;
  }
}
