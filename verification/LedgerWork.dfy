/** Work items: what an update accepts and stores, what a verification finds and leaves behind,
    field by field, and how an item's status moves on every run. */
module LedgerWork {
  import opened Common
  import opened Ledger
  import opened LedgerInvariant
  import opened LedgerPruning
  import opened LedgerRuns
  import opened LedgerViews
  import Q = ScanQueue

  // ---------------------------------------------------------------- updates

  /** The changes of status that people can make. */
  const MOVES: set<(ItemStatus, ItemStatus)> := {
    (Open, Planned), (Open, InProgress), (Open, AcceptedRisk),
    (Planned, InProgress), (Planned, Blocked), (Planned, AcceptedRisk),
    (InProgress, Blocked), (InProgress, ReadyForVerification), (InProgress, AcceptedRisk),
    (Blocked, InProgress), (Blocked, AcceptedRisk),
    (ReadyForVerification, InProgress), (ReadyForVerification, Blocked),
    (Verified, Open), (AcceptedRisk, Open), (AcceptedRisk, Planned)}

  lemma {:induction false} MovesExactly(from: ItemStatus, to: ItemStatus)
    ensures AllowedItemTransition(from, to) <==> (from, to) in MOVES
  {
  }

  function StatusAfter(row: Item, target: Option<ItemStatus>): ItemStatus {
    if target.Some? then target.value else row.status
  }

  /** The item would be accepted without a reason of at least five characters. */
  predicate LacksReason(row: Item, target: Option<ItemStatus>, reason: TextChange) {
    && StatusAfter(row, target) == AcceptedRisk
    && match reason
       case Text(text) => |Strip(text)| < 5
       case Null => true
       case Absent => target.Some? && (row.acceptanceReason.None? || |Strip(row.acceptanceReason.value)| < 5)
  }

  predicate Refused(row: Item, target: Option<ItemStatus>, reason: TextChange, changes: Changes) {
    || (target.Some? && (target.value == Verified || (target.value != row.status && (row.status, target.value) !in MOVES)))
    || LacksReason(row, target, reason) || changes.priority == UnknownPriority || changes.due == NotADate
  }

  /** A reason given replaces the stored one and one that is carried over is stripped; an item moved
      to another status than accepted loses its reason. */
  predicate ReasonAfter(row: Item, target: Option<ItemStatus>, reason: TextChange, after: Option<string>) {
    if StatusAfter(row, target) == AcceptedRisk then
      match reason
      case Text(text) => after == Some(Strip(text))
      case Null => false
      case Absent =>
        if target.None? then after == row.acceptanceReason
        else row.acceptanceReason.Some? && after == Some(Strip(row.acceptanceReason.value))
    else after == if target.Some? then None else row.acceptanceReason
  }

  /** Text that is given is stored stripped, up to its longest length if it has one. */
  predicate NoteAfter(change: TextChange, before: Option<string>, after: Option<string>, longest: Option<nat>) {
    match change
    case Absent => after == before
    case Null => after == None
    case Text(text) =>
      if text == "" then after == None
      else
        && after.Some? && after.value <= Strip(text)
        && |after.value| == if longest.Some? && |Strip(text)| > longest.value then longest.value else |Strip(text)|
  }

  predicate PlanColumns(before: Plan, changes: Changes, after: Plan) {
    && NoteAfter(changes.owner, before.owner, after.owner, Some(200))
    && NoteAfter(changes.algorithm, before.algorithm, after.algorithm, Some(200))
    && NoteAfter(changes.notes, before.notes, after.notes, None)
    && after.priority == (match changes.priority case Set(priority) => priority case _ => before.priority)
    && (match changes.due
        case NoDate => after.due == before.due
        case NullDate => after.due == None
        case Date(at) => after.due == Some(at)
        case NotADate => false)
  }

  /** Where the item comes from and what it was last checked against. */
  predicate SameOrigin(row: Item, row': Item) {
    && row'.ws == row.ws && row'.asset == row.asset && row'.fp == row.fp
    && row'.sourceFinding == row.sourceFinding && row'.sourceJob == row.sourceJob
  }

  predicate UpdateColumns(row: Item, target: Option<ItemStatus>, reason: TextChange, changes: Changes, now: Time, row': Item) {
    && SameOrigin(row, row') && row'.verificationJob == row.verificationJob && row'.evidence == row.evidence
    && row'.status == StatusAfter(row, target) && row'.updatedAt == now
    && row'.verifiedAt == (if target.Some? then None else row.verifiedAt)
    && ReasonAfter(row, target, reason, row'.acceptanceReason)
    && PlanColumns(row.plan, changes, row'.plan)
  }

  lemma {:induction false} PlanExactly(before: Plan, changes: Changes)
    ensures PlanAfter(before, changes) ==
            if changes.priority == UnknownPriority || changes.due == NotADate then Err(ValueError)
            else Ok(PlanAfter(before, changes).value)
    ensures PlanAfter(before, changes).Ok? ==> PlanColumns(before, changes, PlanAfter(before, changes).value)
  {
    if changes.notes.Text? { var start := StripExactly(changes.notes.text); }
    hide Strip;
  }

  lemma {:induction false} StatusExactly(row: Item, target: Option<ItemStatus>, reason: TextChange, now: Time)
    ensures var outcome := UpdatedStatus(row, target, reason, now);
            if (target.Some? && (target.value == Verified || (target.value != row.status && (row.status, target.value) !in MOVES)))
               || LacksReason(row, target, reason)
            then outcome == Err(ValueError)
            else
              && outcome.Ok? && ReasonAfter(row, target, reason, outcome.value.acceptanceReason)
              && outcome.value == row.(status := StatusAfter(row, target), acceptanceReason := outcome.value.acceptanceReason,
                                       verifiedAt := if target.Some? then None else row.verifiedAt, updatedAt := now)
  {
    if target.Some? { MovesExactly(row.status, target.value); }
    hide Strip, AllowedItemTransition;
  }

  /** An update names known fields of an item of the workspace and is not refused, or it is an error
      and changes nothing; every field it stores is determined. */
  lemma {:induction false} UpdateExactly(b: Book, ws: WorkspaceId, item: ItemId, target: Option<ItemStatus>, reason: TextChange,
                                         changes: Changes, now: Time)
    ensures var outcome, b' := UpdateOutcome(b, ws, item, target, reason, changes, now),
                               UpdateItem(b, ws, item, target, reason, changes, now);
            && (outcome.Err? ==> b' == b)
            && if changes.unknown then outcome == Err(ValueError)
               else if !(item in b.items && b.items[item].ws == ws) then outcome == Err(LookupError)
               else if Refused(b.items[item], target, reason, changes) then outcome == Err(ValueError)
               else
                 && outcome.Ok? && UpdateColumns(b.items[item], target, reason, changes, now, outcome.value)
                 && b' == b.(items := b.items[item := outcome.value])
  {
    if item in b.items {
      StatusExactly(b.items[item], target, reason, now);
      PlanExactly(b.items[item].plan, changes);
    }
    hide UpdatedStatus, PlanAfter, PlanColumns, ReasonAfter, LacksReason;
  }

  // ---------------------------------------------------------------- verifications

  /** No other snapshot of the workspace and the asset comes after this one. */
  ghost predicate NoneAfter(b: Book, ws: WorkspaceId, asset: AssetId, j: JobId)
    requires j in b.snapshots
  {
    forall k :: k in b.snapshots && k != j && b.snapshots[k].ws == ws && b.snapshots[k].asset == asset ==>
      b.snapshots[k].completedAt < b.snapshots[j].completedAt
      || (b.snapshots[k].completedAt == b.snapshots[j].completedAt && IdBefore(k, j))
  }

  ghost predicate Passes(b: Book, row: Item, job: JobId) {
    && row.status == ReadyForVerification
    && job in b.jobs && b.jobs[job].ws == row.ws && b.jobs[job].asset == row.asset && b.jobs[job].status == Q.Succeeded
    && job in b.snapshots && b.snapshots[job].ws == row.ws && b.snapshots[job].asset == row.asset
    && NoneAfter(b, row.ws, row.asset, job)
    && (row.sourceJob in b.snapshots ==> b.snapshots[row.sourceJob].completedAt < b.snapshots[job].completedAt)
  }

  /** What the scan says of the exposure. */
  predicate EvidenceColumns(b: Book, row: Item, job: JobId, e: Evidence)
    requires job in b.snapshots
  {
    var o := OccurrenceKey(job, row.fp);
    && e.job == job && e.completedAt == b.snapshots[job].completedAt && e.sourceJob == row.sourceJob && e.fp == row.fp
    && (e.found.Some? <==> o in b.occurrences)
    && (o in b.occurrences ==>
          && e.found.value.score == b.occurrences[o].payload.risk.score
          && e.found.value.severity == b.occurrences[o].payload.risk.severity
          && e.found.value.hash == b.occurrences[o].payload.observation.evidence)
  }

  predicate VerifiedColumns(row: Item, e: Evidence, now: Time, row': Item) {
    && SameOrigin(row, row') && row'.plan == row.plan && row'.acceptanceReason == row.acceptanceReason
    && row'.verificationJob == Some(e.job) && row'.evidence == Some(e) && row'.updatedAt == now
    && row'.status == (if e.found.None? then Verified else InProgress)
    && row'.verifiedAt == (if e.found.None? then Some(now) else None)
  }

  lemma {:induction false} LatestExactly(b: Book, job: JobId)
    ensures IsLatest(b, job) <==> job in b.snapshots && NoneAfter(b, b.snapshots[job].ws, b.snapshots[job].asset, job)
  {
    if job in b.snapshots {
      if NoneAfter(b, b.snapshots[job].ws, b.snapshots[job].asset, job) {
        forall k | k in b.snapshots && k != job && InScope(b.snapshots[k], b.snapshots[job].ws, b.snapshots[job].asset)
          ensures Newer(b, job, k)
        {
        }
      }
      if IsLatest(b, job) {
        forall k | k in b.snapshots && k != job && b.snapshots[k].ws == b.snapshots[job].ws && b.snapshots[k].asset == b.snapshots[job].asset
          ensures b.snapshots[k].completedAt < b.snapshots[job].completedAt
                  || (b.snapshots[k].completedAt == b.snapshots[job].completedAt && IdBefore(k, job))
        {
          assert Newer(b, job, k);
        }
      }
    }
  }

  /** A verification passes, stores what the scan says of the exposure and moves the item on, or it
      is an error and changes nothing. */
  lemma {:induction false} VerifyExactly(b: Book, ws: WorkspaceId, item: ItemId, job: JobId, now: Time)
    ensures var r, b' := Verdict(b, ws, item, job), VerifyItem(b, ws, item, job, now);
            && (r.Err? ==> b' == b)
            && if !(item in b.items && b.items[item].ws == ws) then r == Err(LookupError)
               else if !Passes(b, b.items[item], job) then r == Err(ValueError)
               else
                 && r.Ok? && EvidenceColumns(b, b.items[item], job, r.value)
                 && item in b'.items && VerifiedColumns(b.items[item], r.value, now, b'.items[item])
                 && b' == b.(items := b.items[item := b'.items[item]])
  {
    LatestExactly(b, job);
    hide IsLatest, NoneAfter;
  }

  // ---------------------------------------------------------------- how a status moves

  /** The operation opens this item. */
  predicate Opens(op: Op, i: ItemId) { op.OpenItem? && op.item == i }

  /** A scan that a waiting item is checked against shows no trace of the exposure. */
  ghost predicate ChecksOff(b: Book, op: Op, i: ItemId) {
    && op.Verify? && op.item == i && i in b.items
    && Passes(b, b.items[i], op.job) && OccurrenceKey(op.job, b.items[i].fp) !in b.occurrences
  }

  /** A status moves by an update along one of the moves, or from waiting by a verification; the
      verification that checks the item off is the only way to be verified. */
  lemma {:induction false} StatusMoves(b: Book, op: Op, i: ItemId)
    requires i in b.items && !Opens(op, i)
    ensures i in Do(b, op).items
    ensures var row, row' := b.items[i], Do(b, op).items[i];
            && (row'.status == row.status
                || (op.Update? && op.item == i && (row.status, row'.status) in MOVES)
                || (op.Verify? && op.item == i && row.status == ReadyForVerification
                    && row'.status == (if ChecksOff(b, op, i) then Verified else InProgress)))
            && (row'.status == Verified ==>
                  if row.status == Verified then row'.verifiedAt == row.verifiedAt
                  else ChecksOff(b, op, i) && row'.verifiedAt == Some(op.now))
  {
    hide Passes;
    if op.Update? {
      UpdateExactly(b, op.ws, op.item, op.target, op.reason, op.changes, op.now);
      hide UpdateOutcome, UpdateItem, PlanColumns, ReasonAfter, LacksReason;
    } else if op.Verify? {
      VerifyExactly(b, op.ws, op.item, op.job, op.now);
      if i in b.items && b.items[i].status != ReadyForVerification { NotWaiting(b, b.items[i], op.job); }
      hide Verdict, VerifyItem;
      if op.item == i && !Passes(b, b.items[i], op.job) { }
    } else {
      OtherItems(b, op, i);
      hide Do;
    }
  }

  lemma {:induction false} NotWaiting(b: Book, row: Item, job: JobId)
    requires row.status != ReadyForVerification
    ensures !Passes(b, row, job)
  {
  }

  lemma {:induction false} OtherItems(b: Book, op: Op, i: ItemId)
    requires i in b.items && !Opens(op, i) && !op.Update? && !op.Verify?
    ensures i in Do(b, op).items && Do(b, op).items[i] == b.items[i]
  {
    if op.Record? {
      RecordedItems(b, op.ws, op.asset, op.job, op.findings, op.now);
      hide Recorded;
    } else if op.Sweep? {
      PrunedRows(b, op.ws, op.cutoff, op.cascade);
      hide Pruned;
    } else {
      hide Recorded, Pruned;
    }
  }

  lemma {:induction false} ItemStays(b: Book, ops: seq<Op>, i: ItemId)
    requires i in b.items && forall op :: op in ops ==> !Opens(op, i)
    ensures i in After(b, ops).items
    decreases |ops|
  {
    if ops != [] {
      assert ops[0] in ops;
      StatusMoves(b, ops[0], i);
      hide Do;
      ItemStays(Do(b, ops[0]), ops[1..], i);
    }
  }

  lemma {:induction false} AfterNothing(b: Book)
    ensures After(b, []) == b
  {
  }

  /** On every run an item that ends up verified was checked off: at some point it waited for
      verification and the asset's latest succeeded scan, younger than the item's source, had no
      occurrence of the exposure; the item is verified since then. */
  lemma {:induction false} VerifiedWasCheckedOff(b: Book, ops: seq<Op>, i: ItemId) returns (n: nat)
    requires i in b.items && b.items[i].status != Verified && forall op :: op in ops ==> !Opens(op, i)
    requires i in After(b, ops).items && After(b, ops).items[i].status == Verified
    ensures n < |ops| && ChecksOff(After(b, ops[..n]), ops[n], i)
    ensures After(b, ops).items[i].verifiedAt == Some(ops[n].now)
    decreases |ops|
  {
    hide *;
    if ops == [] { AfterNothing(b); }
    var before, op := ops[..|ops| - 1], ops[|ops| - 1];
    assert ops == before + [op] && op in ops;
    assert !Opens(op, i);
    AfterOneMore(b, before, op);
    ItemStays(b, before, i);
    StatusMoves(After(b, before), op, i);
    if After(b, before).items[i].status == Verified {
      n := VerifiedWasCheckedOff(b, before, i);
      assert before[..n] == ops[..n];
    } else {
      n := |before|;
    }
  }
}
