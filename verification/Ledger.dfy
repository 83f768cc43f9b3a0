/** The observation ledger: what a recorded scan, a remediation check and a retention sweep do to
    the tables, as functions on a `Book` of all of them.

    Fingerprints and evidence hashes are injective, so a finding carries what they hash: its
    `identity` is its fingerprint. Columns copied from a finding are read off the stored payload. */
module Ledger {
  import opened Common
  import Q = ScanQueue

  type Fingerprint = nat
  type ItemId = nat

  datatype Severity = Info | Low | Medium | High | Critical
  datatype QuantumStatus = Safe | Transition | Vulnerable | Unknown

  /** A raw observation id is random; a prepared one hashes the job and the fingerprint. */
  datatype ObservationId = Raw(n: nat) | Prepared(job: JobId, fingerprint: Fingerprint)

  datatype Observation = Observation(id: ObservationId, identity: Fingerprint, evidence: nat)
  datatype Risk = Risk(observationId: ObservationId, score: int, severity: Severity, quantum: QuantumStatus)
  datatype Finding = Finding(observation: Observation, risk: Risk)

  function Fp(f: Finding): Fingerprint { f.observation.identity }

  datatype StateKey = StateKey(ws: WorkspaceId, asset: AssetId, fp: Fingerprint)
  datatype OccurrenceKey = OccurrenceKey(job: JobId, fp: Fingerprint)

  datatype State = State(
    active: bool, firstSeen: Time, lastSeen: Time, firstJob: JobId, lastJob: JobId,
    occurrences: nat, payload: Finding, updatedAt: Time)

  datatype Occurrence = Occurrence(
    ws: WorkspaceId, asset: AssetId, findingId: ObservationId, observedAt: Time, payload: Finding)

  datatype Snapshot = Snapshot(
    ws: WorkspaceId, asset: AssetId, completedAt: Time, findingCount: nat, fingerprints: set<Fingerprint>)

  datatype EventKind = Introduced | Changed | Resolved | RiskIncreased | RiskDecreased

  datatype Event = Event(
    ws: WorkspaceId, asset: AssetId, job: JobId, fp: Fingerprint, kind: EventKind,
    previousScore: Option<int>, newScore: Option<int>,
    previousSeverity: Option<Severity>, newSeverity: Option<Severity>, occurredAt: Time)

  datatype JobRow = JobRow(ws: WorkspaceId, asset: AssetId, status: Q.ScanStatus, finishedAt: Option<Time>)
  datatype ScheduledExecution = ScheduledExecution(ws: WorkspaceId, scheduledFor: Time)
  datatype RepositoryRun = RepositoryRun(ws: WorkspaceId, asset: AssetId, collectedAt: Time)
  /** A finding joined with its scope. */
  datatype FindingRow = FindingRow(ws: WorkspaceId, asset: AssetId, job: JobId, discoveredAt: Time)

  datatype ItemStatus = Open | Planned | InProgress | Blocked | ReadyForVerification | Verified | AcceptedRisk

  datatype Priority = Urgent | Important | Normal | Minor

  /** What people note on a work item. */
  datatype Plan = Plan(owner: Option<string>, priority: Priority, algorithm: Option<string>, due: Option<Time>, notes: Option<string>)

  /** What a verification found of the exposure, if it is still there. */
  datatype Found = Found(score: int, severity: Severity, hash: nat)

  /** The evidence a verification leaves on its item. */
  datatype Evidence = Evidence(job: JobId, completedAt: Time, sourceJob: JobId, fp: Fingerprint, found: Option<Found>)

  datatype Item = Item(
    ws: WorkspaceId, asset: AssetId, fp: Fingerprint, sourceFinding: ObservationId, sourceJob: JobId, plan: Plan,
    status: ItemStatus, acceptanceReason: Option<string>, verificationJob: Option<JobId>, evidence: Option<Evidence>,
    verifiedAt: Option<Time>, updatedAt: Time)

  datatype Book = Book(
    jobs: map<JobId, JobRow>,
    queueRows: set<JobId>,
    snapshots: map<JobId, Snapshot>,
    states: map<StateKey, State>,
    occurrences: map<OccurrenceKey, Occurrence>,
    events: seq<Event>,
    executions: map<JobId, ScheduledExecution>,
    repositoryRuns: map<JobId, RepositoryRun>,
    findings: map<ObservationId, FindingRow>,
    items: map<ItemId, Item>)

  // ---------------------------------------------------------------- sorted fingerprints

  predicate IsLeast(s: set<nat>, x: nat) {
    x in s && forall y :: y in s ==> x <= y
  }

  lemma {:induction false} LeastExists(s: set<nat>)
    requires s != {}
    ensures exists x :: IsLeast(s, x)
  {
    var x :| x in s;
    if s == {x} {
      assert IsLeast(s, x);
    } else {
      LeastExists(s - {x});
      var y :| IsLeast(s - {x}, y);
      assert forall z :: z in s ==> z == x || z in s - {x};
      assert IsLeast(s, if x < y then x else y);
    }
  }

  function Least(s: set<nat>): (least: nat)
    requires s != {}
    ensures least in s && forall x :: x in s ==> least <= x
  {
    LeastExists(s);
    var x :| IsLeast(s, x);
    x
  }

  function Sorted(s: set<nat>): (r: seq<nat>)
    ensures forall i, k :: 0 <= i < k < |r| ==> r[i] < r[k]
    ensures forall x :: x in s <==> x in r
    ensures |r| == |s|
  {
    if s == {} then [] else
    var x := Least(s);
    [x] + Sorted(s - {x})
  }

  // ---------------------------------------------------------------- preparing findings

  /** Per fingerprint the finding with the highest score, the first one on a tie. */
  function Selected(findings: seq<Finding>): map<Fingerprint, Finding> {
    if findings == [] then map[] else
    var before := Selected(findings[..|findings| - 1]);
    var f := findings[|findings| - 1];
    if Fp(f) !in before || f.risk.score > before[Fp(f)].risk.score then before[Fp(f) := f] else before
  }

  function Stamp(job: JobId, f: Finding): Finding {
    var id := Prepared(job, Fp(f));
    Finding(f.observation.(id := id), f.risk.(observationId := id))
  }

  function PreparedFrom(job: JobId, selected: map<Fingerprint, Finding>, fps: seq<Fingerprint>): (r: seq<Finding>)
    requires forall i :: 0 <= i < |fps| ==> fps[i] in selected
    ensures |r| == |fps|
    ensures forall i :: 0 <= i < |r| ==> r[i] == Stamp(job, selected[fps[i]])
  {
    seq(|fps|, i requires 0 <= i < |fps| => Stamp(job, selected[fps[i]]))
  }

  function PreparedFindings(job: JobId, findings: seq<Finding>): seq<Finding> {
    var selected := Selected(findings);
    PreparedFrom(job, selected, Sorted(selected.Keys))
  }

  // ---------------------------------------------------------------- recording a scan

  predicate InScope(snapshot: Snapshot, ws: WorkspaceId, asset: AssetId) {
    snapshot.ws == ws && snapshot.asset == asset
  }

  predicate HasBaseline(b: Book, ws: WorkspaceId, asset: AssetId) {
    exists j :: j in b.snapshots && InScope(b.snapshots[j], ws, asset)
  }

  /** The fingerprints of the active states of an asset. */
  function ActiveSet(b: Book, ws: WorkspaceId, asset: AssetId): (r: set<Fingerprint>)
    ensures forall fp :: fp in r <==> StateKey(ws, asset, fp) in b.states && b.states[StateKey(ws, asset, fp)].active
  {
    set k | k in b.states && k.ws == ws && k.asset == asset && b.states[k].active :: k.fp
  }

  function Seen(b: Book, k: StateKey, job: JobId, f: Finding, now: Time): State {
    if k in b.states then
      b.states[k].(active := true, lastSeen := now, lastJob := job,
                   occurrences := b.states[k].occurrences + 1, payload := f, updatedAt := now)
    else State(true, now, now, job, job, 1, f, now)
  }

  function NewEvent(k: StateKey, job: JobId, kind: EventKind, f: Finding, previous: Option<Risk>, now: Time): Event {
    Event(k.ws, k.asset, job, k.fp, kind,
          if previous.Some? then Some(previous.value.score) else None,
          if kind.Resolved? then None else Some(f.risk.score),
          if previous.Some? then Some(previous.value.severity) else None,
          if kind.Resolved? then None else Some(f.risk.severity),
          now)
  }

  predicate EvidenceChanged(was: Finding, f: Finding) {
    was.observation.evidence != f.observation.evidence
    || was.risk.severity != f.risk.severity || was.risk.quantum != f.risk.quantum
  }

  /** The drift events one observed finding gives rise to. The first scan of an asset is the
      baseline and gives rise to none. */
  function SeenEvents(b: Book, k: StateKey, job: JobId, f: Finding, now: Time): seq<Event> {
    if !HasBaseline(b, k.ws, k.asset) then []
    else if k !in b.states then [NewEvent(k, job, Introduced, f, None, now)]
    else
      var was := b.states[k].payload;
      var previous := Some(was.risk);
      if !b.states[k].active then [NewEvent(k, job, Introduced, f, previous, now)]
      else
        (if EvidenceChanged(was, f) then [NewEvent(k, job, Changed, f, previous, now)] else [])
        + (if f.risk.score > was.risk.score then [NewEvent(k, job, RiskIncreased, f, previous, now)]
           else if f.risk.score < was.risk.score then [NewEvent(k, job, RiskDecreased, f, previous, now)]
           else [])
  }

  function ObservedEvents(b: Book, ws: WorkspaceId, asset: AssetId, job: JobId, prepared: seq<Finding>, now: Time): seq<Event> {
    if prepared == [] then [] else
    var f := prepared[|prepared| - 1];
    ObservedEvents(b, ws, asset, job, prepared[..|prepared| - 1], now)
    + SeenEvents(b, StateKey(ws, asset, Fp(f)), job, f, now)
  }

  function ResolvedEvents(b: Book, ws: WorkspaceId, asset: AssetId, job: JobId, gone: seq<Fingerprint>, now: Time): seq<Event>
    requires forall i :: 0 <= i < |gone| ==> StateKey(ws, asset, gone[i]) in b.states
  {
    if gone == [] then [] else
    var k := StateKey(ws, asset, gone[|gone| - 1]);
    var was := b.states[k].payload;
    ResolvedEvents(b, ws, asset, job, gone[..|gone| - 1], now)
    + if HasBaseline(b, ws, asset) then [NewEvent(k, job, Resolved, was, Some(was.risk), now)] else []
  }

  function CurrentMap(prepared: seq<Finding>): map<Fingerprint, Finding>
  {
    if prepared == [] then map[] else
    var f := prepared[|prepared| - 1];
    CurrentMap(prepared[..|prepared| - 1])[Fp(f) := f]
  }

  /** The fingerprints that were active and are not observed any more. */
  function Gone(b: Book, ws: WorkspaceId, asset: AssetId, current: map<Fingerprint, Finding>): (r: set<Fingerprint>)
    ensures forall fp :: fp in r ==> StateKey(ws, asset, fp) in b.states
  {
    ActiveSet(b, ws, asset) - current.Keys
  }

  function ScanEvents(b: Book, ws: WorkspaceId, asset: AssetId, job: JobId, prepared: seq<Finding>, now: Time): seq<Event> {
    var gone := Sorted(Gone(b, ws, asset, CurrentMap(prepared)));
    assert forall i :: 0 <= i < |gone| ==> gone[i] in gone;
    ObservedEvents(b, ws, asset, job, prepared, now) + ResolvedEvents(b, ws, asset, job, gone, now)
  }

  function SeenKeys(ws: WorkspaceId, asset: AssetId, current: map<Fingerprint, Finding>): (r: set<StateKey>)
    ensures forall k :: k in r <==> k.ws == ws && k.asset == asset && k.fp in current
  {
    set fp | fp in current :: StateKey(ws, asset, fp)
  }

  function StatesAfter(b: Book, ws: WorkspaceId, asset: AssetId, job: JobId, current: map<Fingerprint, Finding>,
                       now: Time): map<StateKey, State> {
    map k | k in b.states.Keys + SeenKeys(ws, asset, current) ::
      if k.ws == ws && k.asset == asset && k.fp in current then Seen(b, k, job, current[k.fp], now)
      else if k.ws == ws && k.asset == asset && b.states[k].active then
        b.states[k].(active := false, lastJob := job, updatedAt := now)
      else b.states[k]
  }

  function OccurrenceKeys(job: JobId, current: map<Fingerprint, Finding>): (r: set<OccurrenceKey>)
    ensures forall k :: k in r <==> k.job == job && k.fp in current
  {
    set fp | fp in current :: OccurrenceKey(job, fp)
  }

  function OccurrencesOf(ws: WorkspaceId, asset: AssetId, job: JobId, current: map<Fingerprint, Finding>,
                         now: Time): map<OccurrenceKey, Occurrence> {
    map k | k in OccurrenceKeys(job, current) ::
      Occurrence(ws, asset, current[k.fp].observation.id, now, current[k.fp])
  }

  function EventsOf(events: seq<Event>, job: JobId): seq<Event> {
    if events == [] then [] else
    EventsOf(events[..|events| - 1], job)
    + if events[|events| - 1].job == job then [events[|events| - 1]] else []
  }

  /** The tables after a scan is recorded; a job that already has a snapshot changes nothing. */
  function Recorded(b: Book, ws: WorkspaceId, asset: AssetId, job: JobId, findings: seq<Finding>, now: Time): Book {
    if job in b.snapshots then b else
    var prepared := PreparedFindings(job, findings);
    var current := CurrentMap(prepared);
    b.(states := StatesAfter(b, ws, asset, job, current, now),
       occurrences := b.occurrences + OccurrencesOf(ws, asset, job, current, now),
       events := b.events + ScanEvents(b, ws, asset, job, prepared, now),
       snapshots := b.snapshots[job := Snapshot(ws, asset, now, |prepared|, current.Keys)])
  }

  function RecordedEvents(b: Book, ws: WorkspaceId, asset: AssetId, job: JobId, findings: seq<Finding>, now: Time): seq<Event> {
    if job in b.snapshots then EventsOf(b.events, job)
    else ScanEvents(b, ws, asset, job, PreparedFindings(job, findings), now)
  }

  // ---------------------------------------------------------------- remediation

  /** Completion order, ties broken by job id: the order that picks the latest snapshot. */
  predicate Newer(b: Book, j: JobId, k: JobId)
    requires j in b.snapshots && k in b.snapshots
  {
    b.snapshots[j].completedAt > b.snapshots[k].completedAt
    || (b.snapshots[j].completedAt == b.snapshots[k].completedAt && IdBefore(k, j))
  }

  /** `j` is the snapshot the latest-first query for its workspace and asset returns. */
  predicate IsLatest(b: Book, j: JobId) {
    && j in b.snapshots
    && forall k :: k in b.snapshots && k != j && InScope(b.snapshots[k], b.snapshots[j].ws, b.snapshots[j].asset)
         ==> Newer(b, j, k)
  }

  /** The evidence of scan `job` on an item's exposure, read off the scan's occurrences. */
  function EvidenceOf(b: Book, row: Item, job: JobId): Evidence
    requires job in b.snapshots
  {
    var o := OccurrenceKey(job, row.fp);
    Evidence(job, b.snapshots[job].completedAt, row.sourceJob, row.fp,
             if o in b.occurrences then Some(FoundIn(b.occurrences[o].payload)) else None)
  }

  function FoundIn(f: Finding): Found { Found(f.risk.score, f.risk.severity, f.observation.evidence) }

  /** What a verification by scan `job` decides: an error, or the evidence on the exposure. */
  function Verdict(b: Book, ws: WorkspaceId, item: ItemId, job: JobId): Result<Evidence> {
    if !(item in b.items && b.items[item].ws == ws) then Err(LookupError)
    else
      var row := b.items[item];
      if !row.status.ReadyForVerification? then Err(ValueError)
      else if !(job in b.jobs && b.jobs[job].ws == ws && b.jobs[job].asset == row.asset
                && b.jobs[job].status.Succeeded?) then Err(ValueError)
      else if job !in b.snapshots then Err(ValueError)
      else if !(InScope(b.snapshots[job], ws, row.asset) && IsLatest(b, job)) then Err(ValueError)
      else if row.sourceJob in b.snapshots
              && b.snapshots[job].completedAt <= b.snapshots[row.sourceJob].completedAt then Err(ValueError)
      else Ok(EvidenceOf(b, row, job))
  }

  /** Without a trace of the exposure the item is verified, otherwise work on it goes on. */
  function VerifiedItem(row: Item, evidence: Evidence, now: Time): Item {
    var row' := row.(verificationJob := Some(evidence.job), evidence := Some(evidence), updatedAt := now);
    if evidence.found.None? then row'.(status := Verified, verifiedAt := Some(now))
    else row'.(status := InProgress, verifiedAt := None)
  }

  function VerifyItem(b: Book, ws: WorkspaceId, item: ItemId, job: JobId, now: Time): Book {
    var verdict := Verdict(b, ws, item, job);
    if verdict.Ok? then b.(items := b.items[item := VerifiedItem(b.items[item], verdict.value, now)]) else b
  }

  /** A field of an update: not given, given as null, or given as text. */
  datatype TextChange = Absent | Null | Text(text: string)

  predicate AllowedItemTransition(from: ItemStatus, to: ItemStatus) {
    match from
    case Open => to.Planned? || to.InProgress? || to.AcceptedRisk?
    case Planned => to.InProgress? || to.Blocked? || to.AcceptedRisk?
    case InProgress => to.Blocked? || to.ReadyForVerification? || to.AcceptedRisk?
    case Blocked => to.InProgress? || to.AcceptedRisk?
    case ReadyForVerification => to.InProgress? || to.Blocked?
    case Verified => to.Open?
    case AcceptedRisk => to.Open? || to.Planned?
  }

  /** The acceptance reason an update leaves behind, if the text given is long enough. */
  function Reason(change: TextChange, current: Option<string>): Option<string> {
    var text := match change
                case Absent => current
                case Null => None
                case Text(t) => Some(t);
    if text.Some? && |Strip(text.value)| >= 5 then Some(Strip(text.value)) else None
  }

  /** A due date that is not given, given as null, as a date, or as anything else. */
  datatype DateChange = NoDate | NullDate | Date(at: Time) | NotADate

  /** A priority that is not given or null, known, or none of the four. */
  datatype PriorityChange = Keep | Set(priority: Priority) | UnknownPriority

  /** The other fields of an update; `unknown` when it names one that does not exist. */
  datatype Changes = Changes(
    owner: TextChange, priority: PriorityChange, algorithm: TextChange, due: DateChange, notes: TextChange, unknown: bool)

  /** Text is stripped and cut; an empty one is stored as none. */
  function Noted(change: TextChange, current: Option<string>, longest: nat): Option<string> {
    match change
    case Absent => current
    case Null => None
    case Text(text) =>
      if text == "" then None
      else if |Strip(text)| > longest then Some(Strip(text)[..longest]) else Some(Strip(text))
  }

  function PlanAfter(plan: Plan, changes: Changes): Result<Plan> {
    if changes.priority.UnknownPriority? || changes.due.NotADate? then Err(ValueError)
    else Ok(Plan(
      Noted(changes.owner, plan.owner, 200),
      if changes.priority.Set? then changes.priority.priority else plan.priority,
      Noted(changes.algorithm, plan.algorithm, 200),
      match changes.due case Date(at) => Some(at) case NullDate => None case _ => plan.due,
      if changes.notes.Text? then Noted(changes.notes, plan.notes, |changes.notes.text|) else Noted(changes.notes, plan.notes, 0)))
  }

  /** The row after an update: its status and acceptance reason, and what is noted on it. */
  function UpdatedItem(row: Item, status: Option<ItemStatus>, reason: TextChange, changes: Changes, now: Time): Result<Item> {
    var moved := UpdatedStatus(row, status, reason, now);
    var plan := PlanAfter(row.plan, changes);
    if moved.Err? then moved else if plan.Err? then Err(plan.error) else Ok(moved.value.(plan := plan.value))
  }

  /** The row after an update of its status and acceptance reason. */
  function UpdatedStatus(row: Item, status: Option<ItemStatus>, reason: TextChange, now: Time): Result<Item> {
    if status.None? then
      if reason.Absent? || !row.status.AcceptedRisk? then Ok(row.(updatedAt := now))
      else if Reason(reason, None).None? then Err(ValueError)
      else Ok(row.(acceptanceReason := Reason(reason, None), updatedAt := now))
    else
      var target := status.value;
      if target.Verified? || (target != row.status && !AllowedItemTransition(row.status, target)) then Err(ValueError)
      else if !target.AcceptedRisk? then
        Ok(row.(status := target, acceptanceReason := None, verifiedAt := None, updatedAt := now))
      else if Reason(reason, row.acceptanceReason).None? then Err(ValueError)
      else Ok(row.(status := target, acceptanceReason := Reason(reason, row.acceptanceReason), verifiedAt := None,
                   updatedAt := now))
  }

  function UpdateOutcome(b: Book, ws: WorkspaceId, item: ItemId, status: Option<ItemStatus>, reason: TextChange,
                         changes: Changes, now: Time): Result<Item> {
    if changes.unknown then Err(ValueError)
    else if item in b.items && b.items[item].ws == ws then UpdatedItem(b.items[item], status, reason, changes, now)
    else Err(LookupError)
  }

  function UpdateItem(b: Book, ws: WorkspaceId, item: ItemId, status: Option<ItemStatus>, reason: TextChange,
                      changes: Changes, now: Time): Book {
    var outcome := UpdateOutcome(b, ws, item, status, reason, changes, now);
    if outcome.Ok? then b.(items := b.items[item := outcome.value]) else b
  }

  // ---------------------------------------------------------------- retention

  predicate Unfinished(status: ItemStatus) {
    status.Open? || status.Planned? || status.InProgress? || status.Blocked? || status.ReadyForVerification?
  }

  function LastJobsOfActive(b: Book, ws: WorkspaceId): set<JobId> {
    set k | k in b.states && k.ws == ws && b.states[k].active :: b.states[k].lastJob
  }

  /** `k` has the greatest completion time of its asset among the snapshots of `ws`. */
  predicate NewestSnapshot(b: Book, ws: WorkspaceId, k: JobId) {
    && k in b.snapshots && b.snapshots[k].ws == ws
    && forall j :: j in b.snapshots && InScope(b.snapshots[j], ws, b.snapshots[k].asset)
         ==> b.snapshots[j].completedAt <= b.snapshots[k].completedAt
  }

  /** The join of the snapshots with the newest time per asset matches on asset and time only. */
  function JobsOfNewestSnapshots(b: Book, ws: WorkspaceId): set<JobId> {
    set j | j in b.snapshots
            && exists k :: k in b.snapshots && NewestSnapshot(b, ws, k) && b.snapshots[k].asset == b.snapshots[j].asset
                           && b.snapshots[k].completedAt == b.snapshots[j].completedAt
  }

  predicate NewestRun(b: Book, ws: WorkspaceId, k: JobId) {
    && k in b.repositoryRuns && b.repositoryRuns[k].ws == ws
    && forall j :: j in b.repositoryRuns && b.repositoryRuns[j].ws == ws
                   && b.repositoryRuns[j].asset == b.repositoryRuns[k].asset
         ==> b.repositoryRuns[j].collectedAt <= b.repositoryRuns[k].collectedAt
  }

  function JobsOfNewestRuns(b: Book, ws: WorkspaceId): set<JobId> {
    set j | j in b.repositoryRuns
            && exists k :: k in b.repositoryRuns && NewestRun(b, ws, k) && b.repositoryRuns[k].asset == b.repositoryRuns[j].asset
                           && b.repositoryRuns[k].collectedAt == b.repositoryRuns[j].collectedAt
  }

  function JobsOfUnfinishedItems(b: Book, ws: WorkspaceId): set<JobId> {
    (set i | i in b.items && b.items[i].ws == ws && Unfinished(b.items[i].status) :: b.items[i].sourceJob)
    + (set i | i in b.items && b.items[i].ws == ws && Unfinished(b.items[i].status)
               && b.items[i].verificationJob.Some? :: b.items[i].verificationJob.value)
  }

  function ProtectedJobs(b: Book, ws: WorkspaceId): set<JobId> {
    LastJobsOfActive(b, ws) + JobsOfNewestSnapshots(b, ws) + JobsOfNewestRuns(b, ws) + JobsOfUnfinishedItems(b, ws)
  }

  function KeptEvents(events: seq<Event>, ws: WorkspaceId, cutoff: Time, safe: set<JobId>): seq<Event> {
    if events == [] then [] else
    var e := events[|events| - 1];
    KeptEvents(events[..|events| - 1], ws, cutoff, safe)
    + if e.ws == ws && e.occurredAt < cutoff && e.job !in safe then [] else [e]
  }

  function KeptOccurrences(rows: map<OccurrenceKey, Occurrence>, ws: WorkspaceId, cutoff: Time, safe: set<JobId>): map<OccurrenceKey, Occurrence> {
    map k | k in rows && !(rows[k].ws == ws && rows[k].observedAt < cutoff && k.job !in safe) :: rows[k]
  }

  function KeptSnapshots(rows: map<JobId, Snapshot>, ws: WorkspaceId, cutoff: Time, safe: set<JobId>): map<JobId, Snapshot> {
    map j | j in rows && !(rows[j].ws == ws && rows[j].completedAt < cutoff && j !in safe) :: rows[j]
  }

  function KeptExecutions(rows: map<JobId, ScheduledExecution>, ws: WorkspaceId, cutoff: Time, safe: set<JobId>): map<JobId, ScheduledExecution> {
    map j | j in rows && !(rows[j].ws == ws && rows[j].scheduledFor < cutoff && j !in safe) :: rows[j]
  }

  function KeptRuns(rows: map<JobId, RepositoryRun>, ws: WorkspaceId, cutoff: Time, safe: set<JobId>): map<JobId, RepositoryRun> {
    map j | j in rows && !(rows[j].ws == ws && rows[j].collectedAt < cutoff && j !in safe) :: rows[j]
  }

  /** The age-based deletions of one workspace, table by table. */
  function AgedOut(b: Book, ws: WorkspaceId, cutoff: Time, safe: set<JobId>): Book {
    b.(occurrences := KeptOccurrences(b.occurrences, ws, cutoff, safe),
       events := KeptEvents(b.events, ws, cutoff, safe),
       snapshots := KeptSnapshots(b.snapshots, ws, cutoff, safe),
       executions := KeptExecutions(b.executions, ws, cutoff, safe),
       repositoryRuns := KeptRuns(b.repositoryRuns, ws, cutoff, safe))
  }

  /** Findings of the workspace that are old and that no occurrence and no item refers to. */
  function StaleFindings(b: Book, ws: WorkspaceId, cutoff: Time): set<ObservationId> {
    set f | f in b.findings && b.findings[f].ws == ws && b.findings[f].discoveredAt < cutoff
            && (forall k :: k in b.occurrences ==> b.occurrences[k].findingId != f)
            && (forall i :: i in b.items ==> b.items[i].sourceFinding != f)
  }

  /** Finished jobs of the workspace that are old, unprotected, and not referred to. */
  function StaleJobs(b: Book, ws: WorkspaceId, cutoff: Time, safe: set<JobId>): set<JobId> {
    set j | j in b.jobs && b.jobs[j].ws == ws && Q.Terminal(b.jobs[j].status)
            && b.jobs[j].finishedAt.Some? && b.jobs[j].finishedAt.value < cutoff && j !in safe
            && (forall f :: f in b.findings ==> b.findings[f].job != j)
            && (forall i :: i in b.items ==> b.items[i].sourceJob != j && b.items[i].verificationJob != Some(j))
  }

  function EventsNotOf(events: seq<Event>, jobs: set<JobId>): seq<Event> {
    if events == [] then [] else
    var e := events[|events| - 1];
    EventsNotOf(events[..|events| - 1], jobs) + if e.job in jobs then [] else [e]
  }

  function OccurrencesNotOf(rows: map<OccurrenceKey, Occurrence>, jobs: set<JobId>): map<OccurrenceKey, Occurrence> {
    map k | k in rows && k.job !in jobs :: rows[k]
  }

  /** Deleting job rows. A database that enforces the foreign keys also deletes the rows that
      refer to them. */
  function WithoutJobs(b: Book, jobs: set<JobId>, cascade: bool): Book {
    var b' := b.(jobs := b.jobs - jobs, queueRows := b.queueRows - jobs);
    if cascade then
      b'.(occurrences := OccurrencesNotOf(b.occurrences, jobs),
          snapshots := b.snapshots - jobs, executions := b.executions - jobs,
          repositoryRuns := b.repositoryRuns - jobs, events := EventsNotOf(b.events, jobs))
    else b'
  }

  /** One retention sweep of a workspace. */
  function Pruned(b: Book, ws: WorkspaceId, cutoff: Time, cascade: bool): Book {
    var safe := ProtectedJobs(b, ws);
    var aged := AgedOut(b, ws, cutoff, safe);
    var trimmed := aged.(findings := aged.findings - StaleFindings(aged, ws, cutoff));
    WithoutJobs(trimmed, StaleJobs(trimmed, ws, cutoff, safe), cascade)
  }
}
