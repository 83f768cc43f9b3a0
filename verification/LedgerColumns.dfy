/** What recording a scan does, column by column and event by event, in terms of the findings it
    is given and the rows that were there before. */
module LedgerColumns {
  import opened Common
  import opened Ledger
  import opened LedgerInvariant
  import opened LedgerPruning
  import opened LedgerRuns
  import opened LedgerDrift

  // ---------------------------------------------------------------- which finding counts

  /** A finding with this fingerprint is given. */
  ghost predicate Given(findings: seq<Finding>, fp: Fingerprint) {
    exists i :: 0 <= i < |findings| && findings[i].observation.identity == fp
  }

  /** Of the findings with its fingerprint the first one with the highest score. */
  ghost predicate StandsFor(findings: seq<Finding>, i: int, fp: Fingerprint) {
    && 0 <= i < |findings| && findings[i].observation.identity == fp
    && forall n :: 0 <= n < |findings| && findings[n].observation.identity == fp ==>
         && findings[n].risk.score <= findings[i].risk.score
         && (n < i ==> findings[n].risk.score < findings[i].risk.score)
  }

  /** `g` says what `f` says, under the id of the job and the fingerprint. */
  predicate StoredAs(f: Finding, job: JobId, g: Finding) {
    && g.observation.identity == f.observation.identity && g.observation.evidence == f.observation.evidence
    && g.risk.score == f.risk.score && g.risk.severity == f.risk.severity && g.risk.quantum == f.risk.quantum
    && g.observation.id == g.risk.observationId == Prepared(job, f.observation.identity)
  }

  lemma {:induction false} SelectedExactly(findings: seq<Finding>, i: int, fp: Fingerprint)
    requires StandsFor(findings, i, fp)
    ensures fp in Selected(findings) && Selected(findings)[fp] == findings[i]
  {
    var before := findings[..|findings| - 1];
    SelectedFps(before);
    if i < |before| {
      assert StandsFor(before, i, fp);
      SelectedExactly(before, i, fp);
    } else if fp in Selected(before) {
      var n :| 0 <= n < |before| && before[n] == Selected(before)[fp];
      assert findings[n].observation.identity == fp;
    }
  }

  lemma {:induction false} SelectedGiven(findings: seq<Finding>, fp: Fingerprint)
    ensures fp in Selected(findings) <==> Given(findings, fp)
  {
    SelectedFps(findings);
    if fp in Selected(findings) {
      var n :| 0 <= n < |findings| && findings[n] == Selected(findings)[fp];
      assert findings[n].observation.identity == fp;
    }
    if n :| 0 <= n < |findings| && findings[n].observation.identity == fp {
      assert findings[n] in findings;
    }
  }

  lemma {:induction false} OneStandsFor(findings: seq<Finding>, i: int, n: int, fp: Fingerprint)
    requires StandsFor(findings, i, fp) && StandsFor(findings, n, fp)
    ensures i == n
  {
  }

  /** Some finding stands for every fingerprint that is given. */
  lemma {:induction false} StandInExists(findings: seq<Finding>, fp: Fingerprint) returns (i: int)
    requires Given(findings, fp)
    ensures StandsFor(findings, i, fp)
  {
    var before, last := findings[..|findings| - 1], findings[|findings| - 1];
    if Given(before, fp) {
      i := StandInExists(before, fp);
      assert forall n :: 0 <= n < |before| ==> before[n] == findings[n];
      if last.observation.identity == fp && last.risk.score > findings[i].risk.score { i := |before|; }
    } else {
      i := |before|;
      assert forall n :: 0 <= n < |before| ==> before[n] == findings[n];
    }
  }

  /** The findings a recording reads, by fingerprint. */
  lemma {:induction false} CurrentExactly(job: JobId, findings: seq<Finding>, fp: Fingerprint)
    ensures var current := CurrentMap(PreparedFindings(job, findings));
            && (fp in current <==> Given(findings, fp))
            && forall i :: StandsFor(findings, i, fp) ==> fp in current && StoredAs(findings[i], job, current[fp])
  {
    PreparedMap(job, findings);
    hide PreparedFindings, CurrentMap;
    SelectedGiven(findings, fp);
    var current := CurrentMap(PreparedFindings(job, findings));
    forall i | StandsFor(findings, i, fp)
      ensures fp in current && StoredAs(findings[i], job, current[fp])
    {
      SelectedExactly(findings, i, fp);
    }
  }

  // ---------------------------------------------------------------- states

  function StateAt(b: Book, k: StateKey): Option<State> {
    if k in b.states then Some(b.states[k]) else None
  }

  predicate ActiveAt(b: Book, k: StateKey) { k in b.states && b.states[k].active }

  /** The state of an exposure that a scan at `now` found as `f`. */
  predicate SeenColumns(before: Option<State>, job: JobId, f: Finding, now: Time, s: State) {
    && s.active && s.lastSeen == now && s.lastJob == job && s.updatedAt == now && StoredAs(f, job, s.payload)
    && (before.None? ==> s.firstSeen == now && s.firstJob == job && s.occurrences == 1)
    && (before.Some? ==> s.firstSeen == before.value.firstSeen && s.firstJob == before.value.firstJob
                         && s.occurrences == before.value.occurrences + 1)
  }

  /** The state of an exposure that was active and that the scan did not find. */
  predicate GoneColumns(before: State, job: JobId, now: Time, s: State) {
    && !s.active && s.lastJob == job && s.updatedAt == now
    && s.firstSeen == before.firstSeen && s.lastSeen == before.lastSeen && s.firstJob == before.firstJob
    && s.occurrences == before.occurrences && s.payload == before.payload
  }

  /** One state before and after a scan; `here` when it belongs to the scanned asset. */
  ghost predicate StateRow(before: Option<State>, after: Option<State>, here: bool, fp: Fingerprint, job: JobId,
                           findings: seq<Finding>, now: Time) {
    if here && Given(findings, fp) then
      after.Some? && forall i :: StandsFor(findings, i, fp) ==> SeenColumns(before, job, findings[i], now, after.value)
    else if here && before.Some? && before.value.active then after.Some? && GoneColumns(before.value, job, now, after.value)
    else after == before
  }

  /** Every column of every state after a new recording. */
  lemma {:induction false} StateColumns(b: Book, ws: WorkspaceId, asset: AssetId, job: JobId, findings: seq<Finding>, now: Time, k: StateKey)
    requires job !in b.snapshots
    ensures StateRow(StateAt(b, k), StateAt(Recorded(b, ws, asset, job, findings, now), k), k.ws == ws && k.asset == asset,
                     k.fp, job, findings, now)
  {
    CurrentExactly(job, findings, k.fp);
    hide PreparedFindings, CurrentMap, ScanEvents, OccurrencesOf, SeenKeys, StandsFor, Given;
  }

  // ---------------------------------------------------------------- snapshots and occurrences

  predicate OccurrenceColumns(ws: WorkspaceId, asset: AssetId, job: JobId, f: Finding, now: Time, o: Occurrence) {
    && o.ws == ws && o.asset == asset && o.findingId == Prepared(job, f.observation.identity) && o.observedAt == now
    && StoredAs(f, job, o.payload)
  }

  ghost predicate SnapshotColumns(ws: WorkspaceId, asset: AssetId, findings: seq<Finding>, now: Time, s: Snapshot) {
    && s.ws == ws && s.asset == asset && s.completedAt == now && s.findingCount == |s.fingerprints|
    && forall fp :: fp in s.fingerprints <==> Given(findings, fp)
  }

  /** The snapshot a new recording adds; everything but the snapshots, the occurrences, the states
      and the events stays as it is. */
  lemma {:induction false} ScanRows(b: Book, ws: WorkspaceId, asset: AssetId, job: JobId, findings: seq<Finding>, now: Time)
    requires job !in b.snapshots
    ensures var b' := Recorded(b, ws, asset, job, findings, now);
            && job in b'.snapshots && b'.snapshots - {job} == b.snapshots
            && SnapshotColumns(ws, asset, findings, now, b'.snapshots[job])
            && b' == b.(states := b'.states, events := b'.events, occurrences := b'.occurrences, snapshots := b'.snapshots)
  {
    hide *;
    SnapshotIs(b, ws, asset, job, findings, now);
    OtherTables(b, ws, asset, job, findings, now);
  }

  lemma {:induction false} OtherTables(b: Book, ws: WorkspaceId, asset: AssetId, job: JobId, findings: seq<Finding>, now: Time)
    requires job !in b.snapshots
    ensures var b' := Recorded(b, ws, asset, job, findings, now);
            b' == b.(states := b'.states, events := b'.events, occurrences := b'.occurrences, snapshots := b'.snapshots)
  {
    hide *;
    RecordedRows(b, ws, asset, job, findings, now);
  }

  lemma {:induction false} SnapshotIs(b: Book, ws: WorkspaceId, asset: AssetId, job: JobId, findings: seq<Finding>, now: Time)
    requires job !in b.snapshots
    ensures var b' := Recorded(b, ws, asset, job, findings, now);
            && job in b'.snapshots && b'.snapshots - {job} == b.snapshots
            && SnapshotColumns(ws, asset, findings, now, b'.snapshots[job])
  {
    hide *;
    var current := CurrentMap(PreparedFindings(job, findings));
    SnapshotAdded(b, ws, asset, job, findings, now);
    CurrentColumns(ws, asset, job, findings, now, current);
    AddThenRemove(b.snapshots, job, Snapshot(ws, asset, now, |current|, current.Keys));
  }

  lemma {:induction false} SnapshotAdded(b: Book, ws: WorkspaceId, asset: AssetId, job: JobId, findings: seq<Finding>, now: Time)
    requires job !in b.snapshots
    ensures var current := CurrentMap(PreparedFindings(job, findings));
            Recorded(b, ws, asset, job, findings, now).snapshots == b.snapshots[job := Snapshot(ws, asset, now, |current|, current.Keys)]
  {
    hide *;
    RecordedRows(b, ws, asset, job, findings, now);
  }

  lemma {:induction false} CurrentColumns(ws: WorkspaceId, asset: AssetId, job: JobId, findings: seq<Finding>, now: Time,
                                          current: map<Fingerprint, Finding>)
    requires current == CurrentMap(PreparedFindings(job, findings))
    ensures SnapshotColumns(ws, asset, findings, now, Snapshot(ws, asset, now, |current|, current.Keys))
  {
    hide PreparedFindings, CurrentMap, Given;
    assert |current| == |current.Keys|;
    forall fp ensures fp in current <==> Given(findings, fp) { CurrentExactly(job, findings, fp); }
  }

  lemma {:induction false} AddThenRemove<K, V>(m: map<K, V>, k: K, v: V)
    requires k !in m
    ensures m[k := v] - {k} == m
  {
  }

  lemma {:induction false} OccurrencesAdded(b: Book, ws: WorkspaceId, asset: AssetId, job: JobId, findings: seq<Finding>, now: Time)
    requires job !in b.snapshots
    ensures var current := CurrentMap(PreparedFindings(job, findings));
            Recorded(b, ws, asset, job, findings, now).occurrences == b.occurrences + OccurrencesOf(ws, asset, job, current, now)
  {
    hide *;
    RecordedRows(b, ws, asset, job, findings, now);
  }

  function OccurrenceAt(b: Book, k: OccurrenceKey): Option<Occurrence> {
    if k in b.occurrences then Some(b.occurrences[k]) else None
  }

  /** Every occurrence row after a new recording: one of the scan for each fingerprint given, and
      the others as they were. */
  lemma {:induction false} ScanOccurrences(b: Book, ws: WorkspaceId, asset: AssetId, job: JobId, findings: seq<Finding>, now: Time, k: OccurrenceKey)
    requires job !in b.snapshots
    ensures var after := OccurrenceAt(Recorded(b, ws, asset, job, findings, now), k);
            if k.job == job && Given(findings, k.fp) then
              after.Some? && forall i :: StandsFor(findings, i, k.fp) ==>
                OccurrenceColumns(ws, asset, job, findings[i], now, after.value)
            else after == OccurrenceAt(b, k)
  {
    var current := CurrentMap(PreparedFindings(job, findings));
    hide Recorded, PreparedFindings, CurrentMap, OccurrencesOf, StandsFor, Given;
    OccurrencesAdded(b, ws, asset, job, findings, now);
    CurrentExactly(job, findings, k.fp);
    OccurrencesAt(ws, asset, job, current, now, k);
  }

  // ---------------------------------------------------------------- how often an event occurs

  function Once(p: bool): nat { if p then 1 else 0 }

  /** How many of the events tell this kind of change of this fingerprint. */
  function Times(events: seq<Event>, fp: Fingerprint, kind: EventKind): nat {
    if events == [] then 0 else
    var e := events[|events| - 1];
    Times(events[..|events| - 1], fp, kind) + Once(e.fp == fp && e.kind == kind)
  }

  lemma {:induction false} TimesConcat(x: seq<Event>, y: seq<Event>, fp: Fingerprint, kind: EventKind)
    ensures Times(x + y, fp, kind) == Times(x, fp, kind) + Times(y, fp, kind)
  {
    if y == [] {
      assert x + y == x;
    } else {
      TimesConcat(x, y[..|y| - 1], fp, kind);
      assert (x + y)[..|x + y| - 1] == x + y[..|y| - 1];
    }
  }

  lemma {:induction false} TimesOne(e: Event, fp: Fingerprint, kind: EventKind)
    ensures Times([e], fp, kind) == Once(e.fp == fp && e.kind == kind)
  {
    assert [e][..0] == [];
  }

  lemma {:induction false} TimesNone(events: seq<Event>, fp: Fingerprint, kind: EventKind)
    ensures Times(events, fp, kind) == 0 <==> forall e :: e in events ==> e.fp != fp || e.kind != kind
  {
    if events != [] {
      assert events[|events| - 1] in events;
      TimesNone(events[..|events| - 1], fp, kind);
      assert forall e :: e in events[..|events| - 1] ==> e in events;
      assert forall e :: e in events ==> e in events[..|events| - 1] || e == events[|events| - 1];
    }
  }

  /** Which changes a scan announces of an exposure it found as `f`, once there is a baseline. */
  predicate Announced(before: Option<State>, f: Finding, kind: EventKind) {
    var active := before.Some? && before.value.active;
    match kind
    case Introduced => !active
    case Changed => active && !(f.observation.evidence == before.value.payload.observation.evidence
                                && f.risk.severity == before.value.payload.risk.severity
                                && f.risk.quantum == before.value.payload.risk.quantum)
    case RiskIncreased => active && before.value.payload.risk.score < f.risk.score
    case RiskDecreased => active && before.value.payload.risk.score > f.risk.score
    case Resolved => false
  }

  lemma {:induction false} TimesSeen(b: Book, k: StateKey, job: JobId, f: Finding, now: Time, fp: Fingerprint, kind: EventKind)
    requires HasBaseline(b, k.ws, k.asset)
    ensures Times(SeenEvents(b, k, job, f, now), fp, kind) == Once(fp == k.fp && Announced(StateAt(b, k), f, kind))
  {
    hide HasBaseline, Times;
    var events := SeenEvents(b, k, job, f, now);
    if !ActiveAt(b, k) {
      TimesOne(events[0], fp, kind);
    } else {
      var was := b.states[k].payload;
      var previous := Some(was.risk);
      var changed := if EvidenceChanged(was, f) then [NewEvent(k, job, Changed, f, previous, now)] else [];
      var moved := if f.risk.score > was.risk.score then [NewEvent(k, job, RiskIncreased, f, previous, now)]
                   else if f.risk.score < was.risk.score then [NewEvent(k, job, RiskDecreased, f, previous, now)]
                   else [];
      assert events == changed + moved;
      TimesConcat(changed, moved, fp, kind);
      if changed == [] { TimesNone(changed, fp, kind); } else { TimesOne(changed[0], fp, kind); }
      if moved == [] { TimesNone(moved, fp, kind); } else { TimesOne(moved[0], fp, kind); }
    }
  }

  lemma {:induction false} TimesObserved(b: Book, ws: WorkspaceId, asset: AssetId, job: JobId, prepared: seq<Finding>, now: Time,
                                         fp: Fingerprint, kind: EventKind)
    requires HasBaseline(b, ws, asset)
    requires forall i, n :: 0 <= i < n < |prepared| ==> Fp(prepared[i]) != Fp(prepared[n])
    ensures Times(ObservedEvents(b, ws, asset, job, prepared, now), fp, kind) ==
            Once(fp in CurrentMap(prepared) && Announced(StateAt(b, StateKey(ws, asset, fp)), CurrentMap(prepared)[fp], kind))
  {
    if prepared != [] {
      var before, f := prepared[..|prepared| - 1], prepared[|prepared| - 1];
      TimesObserved(b, ws, asset, job, before, now, fp, kind);
      if Fp(f) in CurrentMap(before) { var i := CurrentMapFrom(before, Fp(f)); }
      hide SeenEvents, HasBaseline, Times, Announced;
      TimesSeen(b, StateKey(ws, asset, Fp(f)), job, f, now, fp, kind);
      TimesConcat(ObservedEvents(b, ws, asset, job, before, now), SeenEvents(b, StateKey(ws, asset, Fp(f)), job, f, now), fp, kind);
    }
  }

  lemma {:induction false} TimesResolved(b: Book, ws: WorkspaceId, asset: AssetId, job: JobId, gone: seq<Fingerprint>, now: Time,
                                         fp: Fingerprint, kind: EventKind)
    requires HasBaseline(b, ws, asset)
    requires forall i :: 0 <= i < |gone| ==> StateKey(ws, asset, gone[i]) in b.states
    requires forall i, n :: 0 <= i < n < |gone| ==> gone[i] != gone[n]
    ensures Times(ResolvedEvents(b, ws, asset, job, gone, now), fp, kind) == Once(kind.Resolved? && fp in gone)
  {
    if gone != [] {
      var before := gone[..|gone| - 1];
      TimesResolved(b, ws, asset, job, before, now, fp, kind);
      hide HasBaseline, Times;
      var events := ResolvedEvents(b, ws, asset, job, gone, now);
      TimesConcat(ResolvedEvents(b, ws, asset, job, before, now), [events[|events| - 1]], fp, kind);
      TimesOne(events[|events| - 1], fp, kind);
      assert gone == before + [gone[|gone| - 1]];
    }
  }

  lemma {:induction false} GoneExactly(b: Book, ws: WorkspaceId, asset: AssetId, current: map<Fingerprint, Finding>, fp: Fingerprint)
    ensures var gone := Sorted(Gone(b, ws, asset, current));
            && (forall i :: 0 <= i < |gone| ==> StateKey(ws, asset, gone[i]) in b.states)
            && (forall i, n :: 0 <= i < n < |gone| ==> gone[i] < gone[n])
            && (fp in gone <==> ActiveAt(b, StateKey(ws, asset, fp)) && fp !in current)
  {
    hide Sorted;
    var gone := Sorted(Gone(b, ws, asset, current));
    assert forall i :: 0 <= i < |gone| ==> gone[i] in gone;
  }

  lemma {:induction false} TimesScan(b: Book, ws: WorkspaceId, asset: AssetId, job: JobId, prepared: seq<Finding>, now: Time,
                                     fp: Fingerprint, kind: EventKind)
    requires HasBaseline(b, ws, asset)
    requires forall i, n :: 0 <= i < n < |prepared| ==> Fp(prepared[i]) != Fp(prepared[n])
    ensures var current, k := CurrentMap(prepared), StateKey(ws, asset, fp);
            Times(ScanEvents(b, ws, asset, job, prepared, now), fp, kind) ==
            if fp in current then Once(Announced(StateAt(b, k), current[fp], kind)) else Once(kind.Resolved? && ActiveAt(b, k))
  {
    GoneExactly(b, ws, asset, CurrentMap(prepared), fp);
    var gone := Sorted(Gone(b, ws, asset, CurrentMap(prepared)));
    hide HasBaseline, ActiveSet, Times, ObservedEvents, ResolvedEvents, CurrentMap, Sorted, Gone;
    TimesObserved(b, ws, asset, job, prepared, now, fp, kind);
    TimesResolved(b, ws, asset, job, gone, now, fp, kind);
    TimesConcat(ObservedEvents(b, ws, asset, job, prepared, now), ResolvedEvents(b, ws, asset, job, gone, now), fp, kind);
    hide Announced;
  }

  /** How often a scan tells one kind of change of one fingerprint. */
  ghost predicate TellsExactly(b: Book, k: StateKey, findings: seq<Finding>, kind: EventKind, times: nat) {
    && (forall i :: StandsFor(findings, i, k.fp) ==> times == Once(Announced(StateAt(b, k), findings[i], kind)))
    && (!Given(findings, k.fp) ==> times == Once(kind.Resolved? && ActiveAt(b, k)))
  }

  /** Recording a new scan of an asset that has been scanned before emits, of each fingerprint and
      each kind, one event or none: what is found again and was active is announced as changed
      exactly when its evidence, severity or quantum status differ and as risen or fallen exactly
      when its score did; what was not active is announced as introduced, and what was active and
      is not found as resolved. */
  lemma {:induction false} DriftExactly(b: Book, ws: WorkspaceId, asset: AssetId, job: JobId, findings: seq<Finding>, now: Time,
                                        fp: Fingerprint, kind: EventKind)
    requires job !in b.snapshots
    requires exists j :: j in b.snapshots && b.snapshots[j].ws == ws && b.snapshots[j].asset == asset
    ensures TellsExactly(b, StateKey(ws, asset, fp), findings, kind,
                         Times(RecordedEvents(b, ws, asset, job, findings, now), fp, kind))
  {
    assert HasBaseline(b, ws, asset);
    CurrentExactly(job, findings, fp);
    PreparedDistinct(job, findings);
    hide HasBaseline, PreparedFindings, CurrentMap, ScanEvents, Times, StandsFor, Given, ActiveAt;
    TimesScan(b, ws, asset, job, PreparedFindings(job, findings), now, fp, kind);
  }

  /** The first recording of an asset is its baseline and emits nothing. */
  lemma {:induction false} BaselineIsSilent(b: Book, ws: WorkspaceId, asset: AssetId, job: JobId, findings: seq<Finding>, now: Time)
    requires job !in b.snapshots
    requires forall j :: j in b.snapshots ==> b.snapshots[j].ws != ws || b.snapshots[j].asset != asset
    ensures RecordedEvents(b, ws, asset, job, findings, now) == []
  {
    assert !HasBaseline(b, ws, asset);
    hide HasBaseline, PreparedFindings, ScanEvents;
    NothingEmitted(b, ws, asset, job, PreparedFindings(job, findings), now);
  }

  // ---------------------------------------------------------------- what the events carry

  /** The scores and severities before and after; none where there was or is no finding. */
  predicate EventColumns(before: Option<State>, f: Option<Finding>, e: Event) {
    && e.previousScore == (if before.Some? then Some(before.value.payload.risk.score) else None)
    && e.previousSeverity == (if before.Some? then Some(before.value.payload.risk.severity) else None)
    && e.newScore == (if f.Some? then Some(f.value.risk.score) else None)
    && e.newSeverity == (if f.Some? then Some(f.value.risk.severity) else None)
  }

  ghost predicate CarriesExactly(before: Option<State>, findings: seq<Finding>, e: Event) {
    && (forall i :: StandsFor(findings, i, e.fp) ==> EventColumns(before, Some(findings[i]), e))
    && (!Given(findings, e.fp) ==> EventColumns(before, None, e))
  }

  lemma {:induction false} SeenCarry(b: Book, k: StateKey, job: JobId, f: Finding, now: Time, e: Event)
    requires e in SeenEvents(b, k, job, f, now)
    ensures e.fp == k.fp && !e.kind.Resolved? && EventColumns(StateAt(b, k), Some(f), e)
  {
    hide HasBaseline, EvidenceChanged;
  }

  lemma {:induction false} ObservedCarry(b: Book, ws: WorkspaceId, asset: AssetId, job: JobId, prepared: seq<Finding>, now: Time, e: Event)
    requires forall i, n :: 0 <= i < n < |prepared| ==> Fp(prepared[i]) != Fp(prepared[n])
    requires e in ObservedEvents(b, ws, asset, job, prepared, now)
    ensures e.fp in CurrentMap(prepared) && !e.kind.Resolved?
    ensures EventColumns(StateAt(b, StateKey(ws, asset, e.fp)), Some(CurrentMap(prepared)[e.fp]), e)
  {
    hide SeenEvents, EventColumns;
    var before, f := prepared[..|prepared| - 1], prepared[|prepared| - 1];
    if e in ObservedEvents(b, ws, asset, job, before, now) {
      ObservedCarry(b, ws, asset, job, before, now, e);
      if Fp(f) in CurrentMap(before) { var i := CurrentMapFrom(before, Fp(f)); }
    } else {
      SeenCarry(b, StateKey(ws, asset, Fp(f)), job, f, now, e);
    }
  }

  lemma {:induction false} ResolvedCarry(b: Book, ws: WorkspaceId, asset: AssetId, job: JobId, gone: seq<Fingerprint>, now: Time, e: Event)
    requires forall i :: 0 <= i < |gone| ==> StateKey(ws, asset, gone[i]) in b.states
    requires e in ResolvedEvents(b, ws, asset, job, gone, now)
    ensures e.fp in gone && e.kind.Resolved?
    ensures EventColumns(StateAt(b, StateKey(ws, asset, e.fp)), None, e)
  {
    hide HasBaseline;
    var before := gone[..|gone| - 1];
    if e in ResolvedEvents(b, ws, asset, job, before, now) { ResolvedCarry(b, ws, asset, job, before, now, e); }
  }

  lemma {:induction false} ScanCarry(b: Book, ws: WorkspaceId, asset: AssetId, job: JobId, prepared: seq<Finding>, now: Time, e: Event)
    requires forall i, n :: 0 <= i < n < |prepared| ==> Fp(prepared[i]) != Fp(prepared[n])
    requires e in ScanEvents(b, ws, asset, job, prepared, now)
    ensures var current, before := CurrentMap(prepared), StateAt(b, StateKey(ws, asset, e.fp));
            EventColumns(before, if e.fp in current then Some(current[e.fp]) else None, e)
  {
    GoneExactly(b, ws, asset, CurrentMap(prepared), e.fp);
    var gone := Sorted(Gone(b, ws, asset, CurrentMap(prepared)));
    hide ActiveSet, ObservedEvents, ResolvedEvents, CurrentMap, Sorted, EventColumns;
    if e in ObservedEvents(b, ws, asset, job, prepared, now) {
      ObservedCarry(b, ws, asset, job, prepared, now, e);
    } else {
      ResolvedCarry(b, ws, asset, job, gone, now, e);
    }
  }

  /** Every event of a new recording carries its scope, its job and its time, the score and the
      severity stored before, and those of the finding that stands for its fingerprint now. */
  lemma {:induction false} DriftCarries(b: Book, ws: WorkspaceId, asset: AssetId, job: JobId, findings: seq<Finding>, now: Time, e: Event)
    requires job !in b.snapshots && e in RecordedEvents(b, ws, asset, job, findings, now)
    ensures e.ws == ws && e.asset == asset && e.job == job && e.occurredAt == now
    ensures CarriesExactly(StateAt(b, StateKey(ws, asset, e.fp)), findings, e)
  {
    RecordAddsEvents(b, ws, asset, job, findings, now);
    CurrentExactly(job, findings, e.fp);
    PreparedDistinct(job, findings);
    hide Recorded, PreparedFindings, CurrentMap, ScanEvents, StandsFor, Given;
    ScanCarry(b, ws, asset, job, PreparedFindings(job, findings), now, e);
  }

  // ---------------------------------------------------------------- the order of the events

  /** What is found comes before what is resolved, each in fingerprint order, and a change of the
      evidence before the change of the score. */
  predicate ComesBefore(e: Event, later: Event) {
    if e.kind.Resolved? != later.kind.Resolved? then later.kind.Resolved?
    else e.fp < later.fp
         || (e.fp == later.fp && e.kind.Changed? && (later.kind.RiskIncreased? || later.kind.RiskDecreased?))
  }

  ghost predicate InOrder(events: seq<Event>) {
    forall i, n :: 0 <= i < n < |events| ==> ComesBefore(events[i], events[n])
  }

  lemma {:induction false} OrderConcat(x: seq<Event>, y: seq<Event>)
    requires InOrder(x) && InOrder(y)
    requires forall e, later :: e in x && later in y ==> ComesBefore(e, later)
    ensures InOrder(x + y)
  {
    hide ComesBefore;
    forall i, n | 0 <= i < n < |x + y| ensures ComesBefore((x + y)[i], (x + y)[n]) {
      if i < |x| <= n { assert x[i] in x && y[n - |x|] in y; }
    }
  }

  lemma {:induction false} ObservedInOrder(b: Book, ws: WorkspaceId, asset: AssetId, job: JobId, prepared: seq<Finding>, now: Time)
    requires forall i, n :: 0 <= i < n < |prepared| ==> Fp(prepared[i]) < Fp(prepared[n])
    ensures InOrder(ObservedEvents(b, ws, asset, job, prepared, now))
  {
    if prepared != [] {
      var before, f := prepared[..|prepared| - 1], prepared[|prepared| - 1];
      var earlier, seen := ObservedEvents(b, ws, asset, job, before, now), SeenEvents(b, StateKey(ws, asset, Fp(f)), job, f, now);
      ObservedInOrder(b, ws, asset, job, before, now);
      hide HasBaseline, EvidenceChanged, CurrentMap, EventColumns;
      forall e, later | e in earlier && later in seen ensures ComesBefore(e, later) {
        ObservedCarry(b, ws, asset, job, before, now, e);
        var i := CurrentMapFrom(before, e.fp);
      }
      assert InOrder(seen);
      hide SeenEvents, InOrder;
      OrderConcat(earlier, seen);
    }
  }

  lemma {:induction false} ResolvedInOrder(b: Book, ws: WorkspaceId, asset: AssetId, job: JobId, gone: seq<Fingerprint>, now: Time)
    requires forall i :: 0 <= i < |gone| ==> StateKey(ws, asset, gone[i]) in b.states
    requires forall i, n :: 0 <= i < n < |gone| ==> gone[i] < gone[n]
    ensures InOrder(ResolvedEvents(b, ws, asset, job, gone, now))
  {
    if gone != [] {
      var before := gone[..|gone| - 1];
      var earlier, events := ResolvedEvents(b, ws, asset, job, before, now), ResolvedEvents(b, ws, asset, job, gone, now);
      ResolvedInOrder(b, ws, asset, job, before, now);
      hide HasBaseline, EventColumns;
      if events != earlier {
        var last := events[|events| - 1];
        forall e, later | e in earlier && later in [last] ensures ComesBefore(e, later) {
          ResolvedCarry(b, ws, asset, job, before, now, e);
        }
        assert events == earlier + [last];
        OrderConcat(earlier, [last]);
      }
    }
  }

  /** The events of a recording are stored and returned in order; two events that may both occur
      have only one order. */
  lemma {:induction false} DriftInOrder(b: Book, ws: WorkspaceId, asset: AssetId, job: JobId, findings: seq<Finding>, now: Time)
    requires job !in b.snapshots
    ensures InOrder(RecordedEvents(b, ws, asset, job, findings, now))
  {
    var prepared := PreparedFindings(job, findings);
    PreparedMap(job, findings);
    GoneExactly(b, ws, asset, CurrentMap(prepared), 0);
    var gone := Sorted(Gone(b, ws, asset, CurrentMap(prepared)));
    var observed, resolved := ObservedEvents(b, ws, asset, job, prepared, now), ResolvedEvents(b, ws, asset, job, gone, now);
    assert RecordedEvents(b, ws, asset, job, findings, now) == observed + resolved;
    hide PreparedFindings, Selected, ActiveSet, ObservedEvents, ResolvedEvents, CurrentMap, Sorted, InOrder, EventColumns;
    ObservedInOrder(b, ws, asset, job, prepared, now);
    ResolvedInOrder(b, ws, asset, job, gone, now);
    forall e, later | e in observed && later in resolved ensures ComesBefore(e, later) {
      ObservedCarry(b, ws, asset, job, prepared, now, e);
      ResolvedCarry(b, ws, asset, job, gone, now, later);
    }
    OrderConcat(observed, resolved);
  }

  // ---------------------------------------------------------------- scans that say nothing new

  /** The scan finds exactly what is active, as it is stored. */
  ghost predicate NothingNew(b: Book, ws: WorkspaceId, asset: AssetId, findings: seq<Finding>) {
    forall fp: Fingerprint :: AsStored(b, StateKey(ws, asset, fp), findings)
  }

  ghost predicate AsStored(b: Book, k: StateKey, findings: seq<Finding>) {
    && (ActiveAt(b, k) <==> Given(findings, k.fp))
    && forall i :: ActiveAt(b, k) && StandsFor(findings, i, k.fp) ==> SameRisk(b.states[k].payload, findings[i])
  }

  predicate SameRisk(f: Finding, g: Finding) {
    && f.observation.evidence == g.observation.evidence && f.risk.score == g.risk.score
    && f.risk.severity == g.risk.severity && f.risk.quantum == g.risk.quantum
  }

  ghost predicate Tells(events: seq<Event>, fp: Fingerprint, kind: EventKind) {
    exists e :: e in events && e.fp == fp && e.kind == kind
  }

  ghost predicate TellsNothing(events: seq<Event>, fp: Fingerprint) {
    forall kind :: !Tells(events, fp, kind)
  }

  lemma {:induction false} TellsAnnounced(b: Book, k: StateKey, findings: seq<Finding>, events: seq<Event>, kind: EventKind)
    requires TellsExactly(b, k, findings, kind, Times(events, k.fp, kind))
    ensures forall i :: StandsFor(findings, i, k.fp) ==> (Tells(events, k.fp, kind) <==> Announced(StateAt(b, k), findings[i], kind))
    ensures !Given(findings, k.fp) ==> (Tells(events, k.fp, kind) <==> kind.Resolved? && ActiveAt(b, k))
  {
    TimesNone(events, k.fp, kind);
    hide Times, StandsFor, Given, Announced;
  }

  lemma {:induction false} SameTellings(events: seq<Event>, fp: Fingerprint, before: Option<State>, f: Finding)
    requires forall kind :: Tells(events, fp, kind) <==> Announced(before, f, kind)
    ensures TellsNothing(events, fp) <==> Quiet(before, f)
  {
    hide Tells, Announced;
    if TellsNothing(events, fp) {
      forall kind ensures !Announced(before, f, kind) { assert !Tells(events, fp, kind); }
    }
    if Quiet(before, f) {
      forall kind ensures !Tells(events, fp, kind) { assert !Announced(before, f, kind); }
    }
  }

  lemma {:induction false} SilentOn(b: Book, job: JobId, findings: seq<Finding>, now: Time, k: StateKey)
    requires job !in b.snapshots
    requires exists j :: j in b.snapshots && b.snapshots[j].ws == k.ws && b.snapshots[j].asset == k.asset
    ensures TellsNothing(RecordedEvents(b, k.ws, k.asset, job, findings, now), k.fp) <==> AsStored(b, k, findings)
  {
    hide RecordedEvents, Tells, TellsExactly, Announced, SameRisk, Times;
    var events := RecordedEvents(b, k.ws, k.asset, job, findings, now);
    forall kind
      ensures forall i :: StandsFor(findings, i, k.fp) ==> (Tells(events, k.fp, kind) <==> Announced(StateAt(b, k), findings[i], kind))
      ensures !Given(findings, k.fp) ==> (Tells(events, k.fp, kind) <==> kind.Resolved? && ActiveAt(b, k))
    {
      DriftExactly(b, k.ws, k.asset, job, findings, now, k.fp, kind);
      TellsAnnounced(b, k, findings, events, kind);
    }
    if Given(findings, k.fp) {
      var n := StandInExists(findings, k.fp);
      forall i | StandsFor(findings, i, k.fp) ensures i == n { OneStandsFor(findings, i, n, k.fp); }
      hide StandsFor, Given;
      NothingAnnounced(StateAt(b, k), findings[n]);
      hide TellsNothing, Quiet, NothingNew;
      SameTellings(events, k.fp, StateAt(b, k), findings[n]);
    } else {
      hide Given;
      assert Tells(events, k.fp, Resolved) <==> ActiveAt(b, k);
    }
  }

  ghost predicate Quiet(before: Option<State>, f: Finding) { forall kind :: !Announced(before, f, kind) }

  lemma {:induction false} NothingAnnounced(before: Option<State>, f: Finding)
    ensures Quiet(before, f) <==> before.Some? && before.value.active && SameRisk(before.value.payload, f)
  {
    if Quiet(before, f) {
      assert !Announced(before, f, Introduced) && !Announced(before, f, Changed);
      assert !Announced(before, f, RiskIncreased) && !Announced(before, f, RiskDecreased);
    }
  }

  /** After the baseline a scan is silent exactly when it finds what is active, as it is stored. */
  lemma {:induction false} SilentExactly(b: Book, ws: WorkspaceId, asset: AssetId, job: JobId, findings: seq<Finding>, now: Time)
    requires job !in b.snapshots
    requires exists j :: j in b.snapshots && b.snapshots[j].ws == ws && b.snapshots[j].asset == asset
    ensures RecordedEvents(b, ws, asset, job, findings, now) == [] <==> NothingNew(b, ws, asset, findings)
  {
    hide RecordedEvents, AsStored;
    var events := RecordedEvents(b, ws, asset, job, findings, now);
    forall fp: Fingerprint ensures TellsNothing(events, fp) <==> AsStored(b, StateKey(ws, asset, fp), findings) {
      SilentOn(b, job, findings, now, StateKey(ws, asset, fp));
    }
    if events != [] {
      assert events[0] in events && Tells(events, events[0].fp, events[0].kind);
      assert !TellsNothing(events, events[0].fp);
    }
  }

  lemma {:induction false} StoredAfterScan(b: Book, ws: WorkspaceId, asset: AssetId, job: JobId, findings: seq<Finding>, now: Time, fp: Fingerprint)
    requires job !in b.snapshots
    ensures AsStored(Recorded(b, ws, asset, job, findings, now), StateKey(ws, asset, fp), findings)
  {
    StateColumns(b, ws, asset, job, findings, now, StateKey(ws, asset, fp));
    hide Recorded, StandsFor, Given;
    if Given(findings, fp) { var n := StandInExists(findings, fp); }
  }

  /** Scanning an asset again with the same result emits nothing. */
  lemma {:induction false} RescanIsSilent(b: Book, ws: WorkspaceId, asset: AssetId, job: JobId, now: Time, again: JobId, later: Time, findings: seq<Finding>)
    requires job !in b.snapshots && again !in b.snapshots && again != job
    ensures RecordedEvents(Recorded(b, ws, asset, job, findings, now), ws, asset, again, findings, later) == []
  {
    var b' := Recorded(b, ws, asset, job, findings, now);
    ScanRows(b, ws, asset, job, findings, now);
    hide Recorded, RecordedEvents, AsStored;
    assert job in b'.snapshots && b'.snapshots[job].ws == ws && b'.snapshots[job].asset == asset;
    assert again !in b'.snapshots by { assert again !in b'.snapshots - {job}; }
    forall fp: Fingerprint ensures AsStored(b', StateKey(ws, asset, fp), findings) {
      StoredAfterScan(b, ws, asset, job, findings, now, fp);
    }
    SilentExactly(b', ws, asset, again, findings, later);
  }

  // ---------------------------------------------------------------- when an exposure was first seen

  /** The operation records a scan that finds the exposure. */
  ghost predicate Finds(b: Book, op: Op, k: StateKey) {
    op.Record? && op.job !in b.snapshots && op.ws == k.ws && op.asset == k.asset && Given(op.findings, k.fp)
  }

  lemma {:induction false} RecordKeepsFirst(b: Book, op: Op, k: StateKey)
    requires op.Record? && op.job !in b.snapshots
    ensures FirstColumns(StateAt(b, k), StateAt(Do(b, op), k), Finds(b, op, k), op)
  {
    hide Recorded, StandsFor, Given;
    StateColumns(b, op.ws, op.asset, op.job, op.findings, op.now, k);
    if Given(op.findings, k.fp) { var n := StandInExists(op.findings, k.fp); }
  }

  /** A state stays, and it keeps when and by which scan its exposure was first seen; a new one
      comes from a scan that finds the exposure. */
  predicate FirstColumns(before: Option<State>, after: Option<State>, finds: bool, op: Op) {
    && (before.Some? ==> after.Some? && after.value.firstSeen == before.value.firstSeen && after.value.firstJob == before.value.firstJob)
    && (before.None? ==> (after.Some? <==> finds))
    && (before.None? && finds && op.Record? ==> after.value.firstSeen == op.now && after.value.firstJob == op.job)
  }

  lemma {:induction false} StepKeepsFirst(b: Book, op: Op, k: StateKey)
    ensures FirstColumns(StateAt(b, k), StateAt(Do(b, op), k), Finds(b, op, k), op)
  {
    if op.Record? {
      hide Recorded, StandsFor, Given;
      if op.job in b.snapshots { AgainTheSame(b, op); } else { RecordKeepsFirst(b, op, k); }
    } else if op.Sweep? {
      PrunedRows(b, op.ws, op.cutoff, op.cascade);
      hide Pruned;
    } else {
      StepLeavesEvidence(b, op);
      hide Do;
    }
  }

  /** When and by which scan an exposure was first seen never changes. */
  lemma {:induction false} FirstSightingStands(b: Book, ops: seq<Op>, k: StateKey)
    requires k in b.states
    ensures k in After(b, ops).states
    ensures After(b, ops).states[k].firstSeen == b.states[k].firstSeen && After(b, ops).states[k].firstJob == b.states[k].firstJob
    decreases |ops|
  {
    if ops != [] {
      StepKeepsFirst(b, ops[0], k);
      hide Do, Finds;
      FirstSightingStands(Do(b, ops[0]), ops[1..], k);
    }
  }

  lemma {:induction false} AfterFirst(b: Book, ops: seq<Op>, i: nat)
    requires 1 <= i <= |ops|
    ensures After(b, ops[..i]) == After(Do(b, ops[0]), ops[1..][..i - 1])
  {
    hide Do;
    assert ops[..i][1..] == ops[1..][..i - 1];
  }

  /** It is the time and the job of the first recorded scan that finds the exposure: on every run
      an exposure has a state afterwards exactly when there was such a scan. */
  lemma {:induction false} FirstSightingIsRecorded(b: Book, ops: seq<Op>, k: StateKey) returns (n: nat)
    requires k !in b.states
    ensures n <= |ops| && (forall i :: 0 <= i < n ==> !Finds(After(b, ops[..i]), ops[i], k))
    ensures k in After(b, ops).states <==> n < |ops|
    ensures n < |ops| ==>
              && Finds(After(b, ops[..n]), ops[n], k)
              && After(b, ops).states[k].firstSeen == ops[n].now && After(b, ops).states[k].firstJob == ops[n].job
    decreases |ops|
  {
    if ops == [] {
      n := 0;
    } else {
      hide Do, Finds;
      StepKeepsFirst(b, ops[0], k);
      assert ops[..0] == [] && After(b, []) == b;
      if Finds(b, ops[0], k) {
        n := 0;
        FirstSightingStands(Do(b, ops[0]), ops[1..], k);
      } else {
        n := FirstSightingIsRecorded(Do(b, ops[0]), ops[1..], k);
        forall i | 1 <= i <= |ops| ensures After(b, ops[..i]) == After(Do(b, ops[0]), ops[1..][..i - 1]) {
          AfterFirst(b, ops, i);
        }
        hide After;
        forall i | 1 <= i <= n ensures !Finds(After(b, ops[..i]), ops[i], k) {
          assert ops[1..][i - 1] == ops[i];
        }
        n := n + 1;
      }
    }
  }
}
