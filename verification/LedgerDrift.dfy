/** Drift events account for every change of the active set and of the risk scores. */
module LedgerDrift {
  import opened Common
  import opened Ledger
  import opened LedgerInvariant
  import opened LedgerPruning
  import opened LedgerRuns

  // ---------------------------------------------------------------- replaying events

  predicate About(e: Event, ws: WorkspaceId, asset: AssetId) { e.ws == ws && e.asset == asset }

  /** The fingerprints active after the events of one asset, in order. */
  function Replay(active: set<Fingerprint>, events: seq<Event>, ws: WorkspaceId, asset: AssetId): set<Fingerprint> {
    if events == [] then active else
    var e := events[|events| - 1];
    var before := Replay(active, events[..|events| - 1], ws, asset);
    if !About(e, ws, asset) then before
    else if e.kind.Introduced? then before + {e.fp}
    else if e.kind.Resolved? then before - {e.fp}
    else before
  }

  lemma {:induction false} ReplayConcat(active: set<Fingerprint>, x: seq<Event>, y: seq<Event>, ws: WorkspaceId, asset: AssetId)
    ensures Replay(active, x + y, ws, asset) == Replay(Replay(active, x, ws, asset), y, ws, asset)
  {
    if y == [] {
      assert x + y == x;
    } else {
      ReplayConcat(active, x, y[..|y| - 1], ws, asset);
      assert (x + y)[..|x + y| - 1] == x + y[..|y| - 1];
    }
  }

  /** Events of other assets do not matter. */
  lemma {:induction false} ReplayOthers(active: set<Fingerprint>, events: seq<Event>, ws: WorkspaceId, asset: AssetId)
    requires forall e :: e in events ==> !About(e, ws, asset)
    ensures Replay(active, events, ws, asset) == active
  {
    if events != [] {
      assert events[|events| - 1] in events;
      ReplayOthers(active, events[..|events| - 1], ws, asset);
    }
  }

  function FpsOf(prepared: seq<Finding>): set<Fingerprint> {
    if prepared == [] then {} else FpsOf(prepared[..|prepared| - 1]) + {Fp(prepared[|prepared| - 1])}
  }

  lemma {:induction false} FpsAre(prepared: seq<Finding>, fp: Fingerprint)
    ensures fp in FpsOf(prepared) <==> exists i :: 0 <= i < |prepared| && Fp(prepared[i]) == fp
  {
    if prepared != [] {
      var before := prepared[..|prepared| - 1];
      FpsAre(before, fp);
      if fp in FpsOf(before) {
        var i :| 0 <= i < |before| && Fp(before[i]) == fp;
        assert Fp(prepared[i]) == fp;
      }
      if i :| 0 <= i < |prepared| && Fp(prepared[i]) == fp {
        if i < |before| { assert Fp(before[i]) == fp; }
      }
    }
  }

  lemma {:induction false} ReplayOne(active: set<Fingerprint>, e: Event, ws: WorkspaceId, asset: AssetId)
    ensures Replay(active, [e], ws, asset) ==
            if !About(e, ws, asset) then active
            else if e.kind.Introduced? then active + {e.fp}
            else if e.kind.Resolved? then active - {e.fp}
            else active
  {
    assert [e][..0] == [];
  }

  /** Events of one fingerprint that neither introduce nor resolve it change nothing. */
  lemma {:induction false} ReplayQuiet(active: set<Fingerprint>, events: seq<Event>, ws: WorkspaceId, asset: AssetId)
    requires forall e :: e in events ==> !e.kind.Introduced? && !e.kind.Resolved?
    ensures Replay(active, events, ws, asset) == active
  {
    if events != [] {
      assert events[|events| - 1] in events;
      ReplayQuiet(active, events[..|events| - 1], ws, asset);
    }
  }

  lemma {:induction false} ReplaySeen(b: Book, ws: WorkspaceId, asset: AssetId, job: JobId, f: Finding, now: Time, active: set<Fingerprint>)
    requires HasBaseline(b, ws, asset)
    requires Fp(f) in active <==> Fp(f) in ActiveSet(b, ws, asset)
    ensures Replay(active, SeenEvents(b, StateKey(ws, asset, Fp(f)), job, f, now), ws, asset) == active + {Fp(f)}
  {
    hide EvidenceChanged, HasBaseline;
    var k := StateKey(ws, asset, Fp(f));
    var events := SeenEvents(b, k, job, f, now);
    if k in b.states && b.states[k].active {
      hide Replay;
      ReplayQuiet(active, events, ws, asset);
      assert active + {Fp(f)} == active;
    } else {
      ReplayOne(active, events[0], ws, asset);
      hide Replay;
      assert events == [events[0]];
    }
  }

  lemma {:induction false} ObservedSplit(b: Book, ws: WorkspaceId, asset: AssetId, job: JobId, prepared: seq<Finding>, now: Time)
    requires prepared != []
    requires forall i, k :: 0 <= i < k < |prepared| ==> Fp(prepared[i]) != Fp(prepared[k])
    ensures var before, f := prepared[..|prepared| - 1], prepared[|prepared| - 1];
            && ObservedEvents(b, ws, asset, job, prepared, now)
               == ObservedEvents(b, ws, asset, job, before, now) + SeenEvents(b, StateKey(ws, asset, Fp(f)), job, f, now)
            && FpsOf(prepared) == FpsOf(before) + {Fp(f)} && Fp(f) !in FpsOf(before)
  {
    hide SeenEvents;
    FpsAre(prepared[..|prepared| - 1], Fp(prepared[|prepared| - 1]));
  }

  lemma {:induction false} ReplayObserved(b: Book, ws: WorkspaceId, asset: AssetId, job: JobId, prepared: seq<Finding>, now: Time)
    requires HasBaseline(b, ws, asset)
    requires forall i, k :: 0 <= i < k < |prepared| ==> Fp(prepared[i]) != Fp(prepared[k])
    ensures Replay(ActiveSet(b, ws, asset), ObservedEvents(b, ws, asset, job, prepared, now), ws, asset)
            == ActiveSet(b, ws, asset) + FpsOf(prepared)
  {
    var active := ActiveSet(b, ws, asset);
    if prepared == [] {
      assert active + {} == active;
    } else {
      hide *;
      var before, f := prepared[..|prepared| - 1], prepared[|prepared| - 1];
      var earlier, events := ObservedEvents(b, ws, asset, job, before, now), SeenEvents(b, StateKey(ws, asset, Fp(f)), job, f, now);
      ReplayObserved(b, ws, asset, job, before, now);
      ObservedSplit(b, ws, asset, job, prepared, now);
      ReplayConcat(active, earlier, events, ws, asset);
      ReplaySeen(b, ws, asset, job, f, now, active + FpsOf(before));
      assert active + FpsOf(prepared) == active + FpsOf(before) + {Fp(f)};
    }
  }

  lemma {:induction false} ReplayResolved(b: Book, ws: WorkspaceId, asset: AssetId, job: JobId, gone: seq<Fingerprint>, now: Time, active: set<Fingerprint>)
    requires HasBaseline(b, ws, asset)
    requires forall i :: 0 <= i < |gone| ==> StateKey(ws, asset, gone[i]) in b.states
    ensures Replay(active, ResolvedEvents(b, ws, asset, job, gone, now), ws, asset) == active - set fp | fp in gone
  {
    if gone != [] {
      var before, fp := gone[..|gone| - 1], gone[|gone| - 1];
      ReplayResolved(b, ws, asset, job, before, now, active);
      hide HasBaseline;
      var last := NewEvent(StateKey(ws, asset, fp), job, Resolved, b.states[StateKey(ws, asset, fp)].payload,
                           Some(b.states[StateKey(ws, asset, fp)].payload.risk), now);
      assert ResolvedEvents(b, ws, asset, job, gone, now) == ResolvedEvents(b, ws, asset, job, before, now) + [last];
      assert (set x | x in gone) == (set x | x in before) + {fp} by { assert gone == before + [fp]; }
    }
  }

  lemma {:induction false} ReplayScanEvents(b: Book, ws: WorkspaceId, asset: AssetId, job: JobId, prepared: seq<Finding>, now: Time)
    requires HasBaseline(b, ws, asset)
    requires forall i, k :: 0 <= i < k < |prepared| ==> Fp(prepared[i]) != Fp(prepared[k])
    ensures Replay(ActiveSet(b, ws, asset), ScanEvents(b, ws, asset, job, prepared, now), ws, asset) == CurrentMap(prepared).Keys
  {
    var gone := Sorted(Gone(b, ws, asset, CurrentMap(prepared)));
    assert forall i :: 0 <= i < |gone| ==> gone[i] in gone;
    var active, current := ActiveSet(b, ws, asset), FpsOf(prepared);
    CurrentFps(prepared);
    SetsCancel(active, current, gone);
    hide HasBaseline, ActiveSet, ObservedEvents, ResolvedEvents, Replay, CurrentMap, FpsOf, Gone, Sorted;
    ReplayObserved(b, ws, asset, job, prepared, now);
    ReplayResolved(b, ws, asset, job, gone, now, active + current);
    ReplayConcat(active, ObservedEvents(b, ws, asset, job, prepared, now), ResolvedEvents(b, ws, asset, job, gone, now), ws, asset);
  }

  lemma {:induction false} SetsCancel(active: set<Fingerprint>, current: set<Fingerprint>, gone: seq<Fingerprint>)
    requires forall fp :: fp in gone <==> fp in active - current
    ensures (active + current) - (set fp | fp in gone) == current
  {
  }

  lemma {:induction false} PreparedDistinct(job: JobId, findings: seq<Finding>)
    ensures var prepared := PreparedFindings(job, findings);
            forall i, k :: 0 <= i < k < |prepared| ==> Fp(prepared[i]) != Fp(prepared[k])
  {
    PreparedMap(job, findings);
  }

  /** The events of a scan turn the active set before it into the one after it. */
  lemma {:induction false} ReplayScan(b: Book, ws: WorkspaceId, asset: AssetId, job: JobId, findings: seq<Finding>, now: Time)
    requires HasBaseline(b, ws, asset) && job !in b.snapshots
    ensures Replay(ActiveSet(b, ws, asset), RecordedEvents(b, ws, asset, job, findings, now), ws, asset)
            == ActiveSet(Recorded(b, ws, asset, job, findings, now), ws, asset)
  {
    ActiveAfterScan(b, ws, asset, job, findings, now);
    RecordedRows(b, ws, asset, job, findings, now);
    PreparedDistinct(job, findings);
    hide HasBaseline, Recorded, ActiveSet, PreparedFindings, CurrentMap, ScanEvents, Replay, OccurrencesOf;
    ReplayScanEvents(b, ws, asset, job, PreparedFindings(job, findings), now);
  }

  lemma {:induction false} CurrentFps(prepared: seq<Finding>)
    ensures CurrentMap(prepared).Keys == FpsOf(prepared)
  {
    if prepared != [] { CurrentFps(prepared[..|prepared| - 1]); }
  }

  // ---------------------------------------------------------------- drift over runs

  /** The events an operation adds to the ledger. */
  function StepEvents(b: Book, op: Op): seq<Event> {
    if op.Record? && op.job !in b.snapshots then RecordedEvents(b, op.ws, op.asset, op.job, op.findings, op.now) else []
  }

  function NewEvents(b: Book, ops: seq<Op>): seq<Event>
    decreases |ops|
  {
    if ops == [] then [] else StepEvents(b, ops[0]) + NewEvents(Do(b, ops[0]), ops[1..])
  }

  predicate NoSweeps(ops: seq<Op>) { forall op :: op in ops ==> !op.Sweep? }

  lemma {:induction false} BaselineSurvives(b: Book, b': Book, ws: WorkspaceId, asset: AssetId)
    requires HasBaseline(b, ws, asset)
    requires forall j :: j in b.snapshots ==> j in b'.snapshots && b'.snapshots[j] == b.snapshots[j]
    ensures HasBaseline(b', ws, asset)
  {
    var j :| j in b.snapshots && InScope(b.snapshots[j], ws, asset);
    assert InScope(b'.snapshots[j], ws, asset);
  }

  lemma {:induction false} BaselineStays(b: Book, op: Op, ws: WorkspaceId, asset: AssetId)
    requires HasBaseline(b, ws, asset) && !op.Sweep?
    ensures HasBaseline(Do(b, op), ws, asset)
  {
    hide HasBaseline, Recorded, PreparedFindings, CurrentMap, OccurrencesOf, UpdateItem, VerifyItem, Pruned;
    if op.Record? {
      if op.job in b.snapshots { AgainTheSame(b, op); } else { RecordedRows(b, op.ws, op.asset, op.job, op.findings, op.now); }
    } else {
      StepLeavesEvidence(b, op);
      hide Do;
    }
    BaselineSurvives(b, Do(b, op), ws, asset);
  }

  lemma {:induction false} ReplayStep(b: Book, op: Op, ws: WorkspaceId, asset: AssetId)
    requires HasBaseline(b, ws, asset) && !op.Sweep?
    ensures Replay(ActiveSet(b, ws, asset), StepEvents(b, op), ws, asset) == ActiveSet(Do(b, op), ws, asset)
  {
    if op.Record? && op.job !in b.snapshots {
      if op.ws == ws && op.asset == asset {
        ReplayScan(b, ws, asset, op.job, op.findings, op.now);
      } else {
        ActiveAfterScan(b, op.ws, op.asset, op.job, op.findings, op.now);
        RecordAddsEvents(b, op.ws, op.asset, op.job, op.findings, op.now);
        hide Recorded, RecordedEvents, HasBaseline, ActiveSet, PreparedFindings, CurrentMap;
        ReplayOthers(ActiveSet(b, ws, asset), StepEvents(b, op), ws, asset);
      }
    } else if !op.Record? {
      StepLeavesEvidence(b, op);
      hide Do, HasBaseline;
      assert ActiveSet(Do(b, op), ws, asset) == ActiveSet(b, ws, asset);
    }
  }

  /** Replaying the events a run adds, from the active set it starts with, gives the active set
      it ends with. */
  lemma {:induction false} DriftReplays(b: Book, ops: seq<Op>, ws: WorkspaceId, asset: AssetId)
    requires HasBaseline(b, ws, asset) && NoSweeps(ops)
    ensures Replay(ActiveSet(b, ws, asset), NewEvents(b, ops), ws, asset) == ActiveSet(After(b, ops), ws, asset)
    decreases |ops|
  {
    if ops != [] {
      var b' := Do(b, ops[0]);
      assert ops[0] in ops;
      assert forall op :: op in ops[1..] ==> op in ops;
      ReplayStep(b, ops[0], ws, asset);
      BaselineStays(b, ops[0], ws, asset);
      hide Do, HasBaseline, ActiveSet, StepEvents, Replay;
      DriftReplays(b', ops[1..], ws, asset);
      ReplayConcat(ActiveSet(b, ws, asset), StepEvents(b, ops[0]), NewEvents(b', ops[1..]), ws, asset);
    }
  }

  /** A sweep emits nothing, leaves the active set alone and keeps the baseline. */
  lemma {:induction false} SweepIsSilent(b: Book, t: Book, op: Op, ws: WorkspaceId, asset: AssetId)
    requires Simulates(t, b) && op.Sweep? && HasBaseline(t, ws, asset)
    ensures HasBaseline(Do(t, op), ws, asset) && Do(t, op).states == t.states && StepEvents(t, op) == []
  {
    SweepStaysSimulated(b, t, op);
    hide Do;
    TrimmedBaseline(b, t, ws, asset);
    TrimmedBaseline(b, Do(t, op), ws, asset);
  }

  /** The same for every run with sweeps: the active set at its end is the replay of the events it
      emitted, repeated recordings after a sweep included. */
  lemma {:induction false} DriftReplaysWithSweeps(b: Book, t: Book, ops: seq<Op>, ws: WorkspaceId, asset: AssetId)
    requires Simulates(t, b) && Possible(b, t, ops) && HasBaseline(t, ws, asset)
    ensures Replay(ActiveSet(t, ws, asset), NewEvents(t, ops), ws, asset) == ActiveSet(After(t, ops), ws, asset)
    decreases |ops|
  {
    if ops != [] {
      hide Simulates, CanDo, Unswept, Do, HasBaseline, ActiveSet, StepEvents, Replay;
      var t' := Do(t, ops[0]);
      StaysSimulated(b, t, ops[0]);
      if ops[0].Sweep? {
        SweepIsSilent(b, t, ops[0], ws, asset);
        SameActive(t, t', ws, asset);
        ReplayNothing(ActiveSet(t, ws, asset), ws, asset);
      } else {
        ReplayStep(t, ops[0], ws, asset);
        BaselineStays(t, ops[0], ws, asset);
      }
      DriftReplaysWithSweeps(Unswept(b, t, ops[0]), t', ops[1..], ws, asset);
      ReplayConcat(ActiveSet(t, ws, asset), StepEvents(t, ops[0]), NewEvents(t', ops[1..]), ws, asset);
    }
  }

  lemma {:induction false} SameActive(b: Book, b': Book, ws: WorkspaceId, asset: AssetId)
    requires b'.states == b.states
    ensures ActiveSet(b', ws, asset) == ActiveSet(b, ws, asset)
  {
  }

  lemma {:induction false} ReplayNothing(active: set<Fingerprint>, ws: WorkspaceId, asset: AssetId)
    ensures Replay(active, [], ws, asset) == active
  {
  }

  /** The first scan of an asset is its baseline: it emits nothing and makes exactly its own
      fingerprints active. */
  lemma {:induction false} FirstScanIsBaseline(b: Book, ws: WorkspaceId, asset: AssetId, job: JobId, findings: seq<Finding>, now: Time)
    requires Good(b) && !HasBaseline(b, ws, asset) && job !in b.snapshots
    ensures RecordedEvents(b, ws, asset, job, findings, now) == []
    ensures var b' := Recorded(b, ws, asset, job, findings, now);
            ActiveSet(b', ws, asset) == b'.snapshots[job].fingerprints == Selected(findings).Keys
  {
    ActiveAfterScan(b, ws, asset, job, findings, now);
    RecordedRows(b, ws, asset, job, findings, now);
    PreparedMap(job, findings);
    hide Recorded, Good, PreparedFindings, CurrentMap, Selected, OccurrencesOf, HasBaseline, ActiveSet, ScanEvents;
    NothingEmitted(b, ws, asset, job, PreparedFindings(job, findings), now);
  }

  lemma {:induction false} NothingEmitted(b: Book, ws: WorkspaceId, asset: AssetId, job: JobId, prepared: seq<Finding>, now: Time)
    requires !HasBaseline(b, ws, asset)
    ensures ScanEvents(b, ws, asset, job, prepared, now) == []
  {
    var gone := Sorted(Gone(b, ws, asset, CurrentMap(prepared)));
    assert forall i :: 0 <= i < |gone| ==> gone[i] in gone;
    hide HasBaseline, ActiveSet, ObservedEvents, ResolvedEvents, CurrentMap, Sorted, Gone;
    NothingObserved(b, ws, asset, job, prepared, now);
    NothingResolved(b, ws, asset, job, gone, now);
  }

  lemma {:induction false} NothingObserved(b: Book, ws: WorkspaceId, asset: AssetId, job: JobId, prepared: seq<Finding>, now: Time)
    requires !HasBaseline(b, ws, asset)
    ensures ObservedEvents(b, ws, asset, job, prepared, now) == []
  {
    hide HasBaseline;
    if prepared != [] { NothingObserved(b, ws, asset, job, prepared[..|prepared| - 1], now); }
  }

  lemma {:induction false} NothingResolved(b: Book, ws: WorkspaceId, asset: AssetId, job: JobId, gone: seq<Fingerprint>, now: Time)
    requires !HasBaseline(b, ws, asset)
    requires forall i :: 0 <= i < |gone| ==> StateKey(ws, asset, gone[i]) in b.states
    ensures ResolvedEvents(b, ws, asset, job, gone, now) == []
  {
    hide HasBaseline;
    if gone != [] { NothingResolved(b, ws, asset, job, gone[..|gone| - 1], now); }
  }

  // ---------------------------------------------------------------- risk deltas telescope

  function Delta(e: Event, k: StateKey): int {
    if About(e, k.ws, k.asset) && e.fp == k.fp && (e.kind.RiskIncreased? || e.kind.RiskDecreased?)
       && e.newScore.Some? && e.previousScore.Some?
    then e.newScore.value - e.previousScore.value
    else 0
  }

  /** The sum of the risk changes the events announce for one exposure. */
  function Deltas(events: seq<Event>, k: StateKey): int {
    if events == [] then 0 else Deltas(events[..|events| - 1], k) + Delta(events[|events| - 1], k)
  }

  lemma {:induction false} DeltasConcat(x: seq<Event>, y: seq<Event>, k: StateKey)
    ensures Deltas(x + y, k) == Deltas(x, k) + Deltas(y, k)
  {
    if y == [] {
      assert x + y == x;
    } else {
      DeltasConcat(x, y[..|y| - 1], k);
      assert (x + y)[..|x + y| - 1] == x + y[..|y| - 1];
    }
  }

  lemma {:induction false} DeltasOthers(events: seq<Event>, k: StateKey)
    requires forall e :: e in events ==> Delta(e, k) == 0
    ensures Deltas(events, k) == 0
  {
    if events != [] {
      assert events[|events| - 1] in events;
      DeltasOthers(events[..|events| - 1], k);
    }
  }

  lemma {:induction false} DeltaOne(e: Event, k: StateKey)
    ensures Deltas([e], k) == Delta(e, k)
  {
    assert [e][..0] == [];
  }

  lemma {:induction false} DeltaSeen(b: Book, k: StateKey, seen: StateKey, job: JobId, f: Finding, now: Time)
    requires HasBaseline(b, k.ws, k.asset) && k in b.states && b.states[k].active
    requires seen.ws == k.ws && seen.asset == k.asset && seen.fp == Fp(f)
    ensures Deltas(SeenEvents(b, seen, job, f, now), k) ==
            if seen == k then f.risk.score - b.states[k].payload.risk.score else 0
  {
    hide EvidenceChanged, HasBaseline, Deltas;
    var was := b.states[k].payload;
    if seen != k {
      DeltasOthers(SeenEvents(b, seen, job, f, now), k);
    } else {
      var previous := Some(was.risk);
      var changed := if EvidenceChanged(was, f) then [NewEvent(k, job, Changed, f, previous, now)] else [];
      var moved := if f.risk.score > was.risk.score then [NewEvent(k, job, RiskIncreased, f, previous, now)]
                   else if f.risk.score < was.risk.score then [NewEvent(k, job, RiskDecreased, f, previous, now)]
                   else [];
      assert SeenEvents(b, seen, job, f, now) == changed + moved;
      DeltasConcat(changed, moved, k);
      DeltasOthers(changed, k);
      if moved == [] { DeltasOthers(moved, k); } else { DeltaOne(moved[0], k); }
    }
  }

  lemma {:induction false} DeltaObserved(b: Book, k: StateKey, job: JobId, prepared: seq<Finding>, now: Time)
    requires HasBaseline(b, k.ws, k.asset) && k in b.states && b.states[k].active
    requires forall i, n :: 0 <= i < n < |prepared| ==> Fp(prepared[i]) != Fp(prepared[n])
    ensures Deltas(ObservedEvents(b, k.ws, k.asset, job, prepared, now), k) ==
            if k.fp in CurrentMap(prepared) then CurrentMap(prepared)[k.fp].risk.score - b.states[k].payload.risk.score else 0
  {
    if prepared != [] {
      var before, f := prepared[..|prepared| - 1], prepared[|prepared| - 1];
      var seen := StateKey(k.ws, k.asset, Fp(f));
      DeltaObserved(b, k, job, before, now);
      if Fp(f) in CurrentMap(before) { var i := CurrentMapFrom(before, Fp(f)); }
      hide SeenEvents, HasBaseline, Deltas;
      DeltaSeen(b, k, seen, job, f, now);
      DeltasConcat(ObservedEvents(b, k.ws, k.asset, job, before, now), SeenEvents(b, seen, job, f, now), k);
    }
  }

  lemma {:induction false} NoDeltaResolved(b: Book, k: StateKey, job: JobId, gone: seq<Fingerprint>, now: Time)
    requires forall i :: 0 <= i < |gone| ==> StateKey(k.ws, k.asset, gone[i]) in b.states
    ensures Deltas(ResolvedEvents(b, k.ws, k.asset, job, gone, now), k) == 0
  {
    hide HasBaseline;
    if gone != [] {
      NoDeltaResolved(b, k, job, gone[..|gone| - 1], now);
      var events := ResolvedEvents(b, k.ws, k.asset, job, gone, now);
      var before := ResolvedEvents(b, k.ws, k.asset, job, gone[..|gone| - 1], now);
      if HasBaseline(b, k.ws, k.asset) {
        DeltasConcat(before, [events[|events| - 1]], k);
        DeltaOne(events[|events| - 1], k);
      } else {
        assert before + [] == before;
      }
    }
  }

  lemma {:induction false} DeltaScanEvents(b: Book, k: StateKey, job: JobId, prepared: seq<Finding>, now: Time)
    requires HasBaseline(b, k.ws, k.asset) && k in b.states && b.states[k].active
    requires forall i, n :: 0 <= i < n < |prepared| ==> Fp(prepared[i]) != Fp(prepared[n])
    ensures Deltas(ScanEvents(b, k.ws, k.asset, job, prepared, now), k) ==
            if k.fp in CurrentMap(prepared) then CurrentMap(prepared)[k.fp].risk.score - b.states[k].payload.risk.score else 0
  {
    var gone := Sorted(Gone(b, k.ws, k.asset, CurrentMap(prepared)));
    assert forall i :: 0 <= i < |gone| ==> gone[i] in gone;
    hide HasBaseline, ActiveSet, Deltas, ObservedEvents, ResolvedEvents, CurrentMap, Sorted, Gone;
    DeltaObserved(b, k, job, prepared, now);
    NoDeltaResolved(b, k, job, gone, now);
    DeltasConcat(ObservedEvents(b, k.ws, k.asset, job, prepared, now), ResolvedEvents(b, k.ws, k.asset, job, gone, now), k);
  }

  lemma {:induction false} DeltaScan(b: Book, k: StateKey, job: JobId, findings: seq<Finding>, now: Time)
    requires HasBaseline(b, k.ws, k.asset) && k in b.states && b.states[k].active && job !in b.snapshots
    requires var b' := Recorded(b, k.ws, k.asset, job, findings, now); k in b'.states && b'.states[k].active
    ensures Deltas(RecordedEvents(b, k.ws, k.asset, job, findings, now), k) ==
            Recorded(b, k.ws, k.asset, job, findings, now).states[k].payload.risk.score - b.states[k].payload.risk.score
  {
    ActiveAfterScan(b, k.ws, k.asset, job, findings, now);
    PreparedDistinct(job, findings);
    hide Recorded, HasBaseline, ActiveSet, PreparedFindings, Deltas, ScanEvents, CurrentMap;
    DeltaScanEvents(b, k, job, PreparedFindings(job, findings), now);
  }

  /** The exposure is active before and after every operation of the run. */
  predicate StaysActive(b: Book, ops: seq<Op>, k: StateKey)
    decreases |ops|
  {
    && k in b.states && b.states[k].active
    && (ops != [] ==> StaysActive(Do(b, ops[0]), ops[1..], k))
  }

  lemma {:induction false} DeltaStep(b: Book, op: Op, k: StateKey)
    requires HasBaseline(b, k.ws, k.asset) && !op.Sweep?
    requires k in b.states && b.states[k].active && k in Do(b, op).states && Do(b, op).states[k].active
    ensures Do(b, op).states[k].payload.risk.score == b.states[k].payload.risk.score + Deltas(StepEvents(b, op), k)
  {
    if op.Record? && op.job !in b.snapshots {
      if op.ws == k.ws && op.asset == k.asset {
        DeltaScan(b, k, op.job, op.findings, op.now);
      } else {
        StatesElsewhere(b, op.ws, op.asset, op.job, op.findings, op.now, k);
        RecordAddsEvents(b, op.ws, op.asset, op.job, op.findings, op.now);
        hide Recorded, RecordedEvents, HasBaseline;
        DeltasOthers(StepEvents(b, op), k);
      }
    } else if !op.Record? {
      StepLeavesEvidence(b, op);
      hide Do;
    }
  }

  /** Along an active stretch the announced risk changes add up: the stored score at the end is
      the score at the start plus every increase and decrease announced in between. */
  lemma {:induction false} RiskTelescopes(b: Book, ops: seq<Op>, k: StateKey)
    requires HasBaseline(b, k.ws, k.asset) && NoSweeps(ops) && StaysActive(b, ops, k)
    ensures k in After(b, ops).states
    ensures After(b, ops).states[k].payload.risk.score == b.states[k].payload.risk.score + Deltas(NewEvents(b, ops), k)
    decreases |ops|
  {
    if ops != [] {
      assert ops[0] in ops;
      assert forall op :: op in ops[1..] ==> op in ops;
      DeltaStep(b, ops[0], k);
      BaselineStays(b, ops[0], k.ws, k.asset);
      hide Do, HasBaseline, StepEvents, Deltas;
      RiskTelescopes(Do(b, ops[0]), ops[1..], k);
      DeltasConcat(StepEvents(b, ops[0]), NewEvents(Do(b, ops[0]), ops[1..]), k);
    }
  }

  /** The same for every run with sweeps. */
  lemma {:induction false} RiskTelescopesWithSweeps(b: Book, t: Book, ops: seq<Op>, k: StateKey)
    requires Simulates(t, b) && Possible(b, t, ops) && HasBaseline(t, k.ws, k.asset) && StaysActive(t, ops, k)
    ensures k in After(t, ops).states
    ensures After(t, ops).states[k].payload.risk.score == t.states[k].payload.risk.score + Deltas(NewEvents(t, ops), k)
    decreases |ops|
  {
    if ops != [] {
      hide Simulates, CanDo, Unswept, Do, HasBaseline, StepEvents;
      var t' := Do(t, ops[0]);
      StaysSimulated(b, t, ops[0]);
      if ops[0].Sweep? {
        SweepIsSilent(b, t, ops[0], k.ws, k.asset);
      } else {
        DeltaStep(t, ops[0], k);
        BaselineStays(t, ops[0], k.ws, k.asset);
      }
      RiskTelescopesWithSweeps(Unswept(b, t, ops[0]), t', ops[1..], k);
      DeltasConcat(StepEvents(t, ops[0]), NewEvents(t', ops[1..]), k);
    }
  }
}
