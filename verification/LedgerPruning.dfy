/** What a retention sweep keeps: the latest evidence of every asset, unfinished jobs, and
    everything that later scans and verifications read. */
module LedgerPruning {
  import opened Common
  import opened Ledger
  import opened LedgerInvariant
  import Q = ScanQueue

  ghost predicate KeepsLinks(b: Book, t: Book) {
    forall k :: k in b.occurrences ==> (k in t.occurrences <==> k.job in t.snapshots)
  }

  ghost predicate KeepsLatest(b: Book, t: Book) {
    forall j :: IsLatest(b, j) ==> j in t.snapshots && j in t.jobs
  }

  ghost predicate KeepsUnfinished(b: Book, t: Book) {
    forall j :: j in b.jobs && !Q.Terminal(b.jobs[j].status) ==> j in t.jobs
  }

  /** The events of a scan are deleted with its snapshot or not at all. */
  ghost predicate KeepsEvents(b: Book, t: Book) {
    && (forall e :: e in t.events ==> e in b.events && e.job in t.snapshots)
    && (forall j :: j in t.snapshots ==> EventsOf(t.events, j) == EventsOf(b.events, j))
  }

  /** `t` is `b` after some old evidence and old jobs were deleted. */
  ghost predicate Trimmed(b: Book, t: Book) {
    && t.states == b.states && t.items == b.items
    && Submap(t.snapshots, b.snapshots) && Submap(t.jobs, b.jobs) && Submap(t.occurrences, b.occurrences)
    && Submap(t.executions, b.executions) && Submap(t.repositoryRuns, b.repositoryRuns)
    && KeepsLinks(b, t) && KeepsEvents(b, t) && KeepsLatest(b, t) && KeepsUnfinished(b, t)
  }

  lemma {:induction false} TrimmedLatest(b: Book, t: Book, j: JobId)
    requires Trimmed(b, t)
    ensures IsLatest(b, j) <==> IsLatest(t, j)
  {
    hide ProtectedJobs;
    if IsLatest(t, j) {
      assert HasBaseline(b, b.snapshots[j].ws, b.snapshots[j].asset);
      var latest := LatestOf(b, b.snapshots[j].ws, b.snapshots[j].asset);
      LatestStays(b, t, latest);
      LatestIsUnique(t, j, latest);
    }
    if IsLatest(b, j) { LatestStays(b, t, j); }
  }

  lemma {:induction false} LatestStays(b: Book, t: Book, j: JobId)
    requires Submap(t.snapshots, b.snapshots) && IsLatest(b, j) && j in t.snapshots
    ensures IsLatest(t, j)
  {
    forall k | k in t.snapshots && k != j && InScope(t.snapshots[k], t.snapshots[j].ws, t.snapshots[j].asset)
      ensures Newer(t, j, k)
    {
      assert Newer(b, j, k);
    }
  }

  lemma {:induction false} TrimmedBaseline(b: Book, t: Book, ws: WorkspaceId, asset: AssetId)
    requires Trimmed(b, t)
    ensures HasBaseline(b, ws, asset) <==> HasBaseline(t, ws, asset)
  {
    if HasBaseline(b, ws, asset) {
      var latest := LatestOf(b, ws, asset);
      assert latest in t.snapshots && InScope(t.snapshots[latest], ws, asset);
    }
    if HasBaseline(t, ws, asset) {
      var j :| j in t.snapshots && InScope(t.snapshots[j], ws, asset);
      assert j in b.snapshots && InScope(b.snapshots[j], ws, asset);
    }
  }

  lemma {:induction false} LatestTwice(b: Book, t: Book, u: Book)
    requires Trimmed(b, t) && Trimmed(t, u)
    ensures KeepsLatest(b, u)
  {
    hide Submap, KeepsLinks, KeepsEvents, KeepsUnfinished;
    forall j | IsLatest(b, j)
      ensures j in u.snapshots && j in u.jobs
    {
      TrimmedLatest(b, t, j);
    }
  }

  lemma {:induction false} TrimmedTwice(b: Book, t: Book, u: Book)
    requires Trimmed(b, t) && Trimmed(t, u)
    ensures Trimmed(b, u)
  {
    LatestTwice(b, t, u);
    LinksTwice(b, t, u);
    EventsTwice(b, t, u);
    hide KeepsLatest, KeepsLinks, KeepsEvents;
    assert KeepsUnfinished(b, u);
    hide KeepsUnfinished;
    SubmapTwice(b.executions, t.executions, u.executions);
    SubmapTwice(b.repositoryRuns, t.repositoryRuns, u.repositoryRuns);
    SubmapTwice(b.snapshots, t.snapshots, u.snapshots);
    SubmapTwice(b.jobs, t.jobs, u.jobs);
    SubmapTwice(b.occurrences, t.occurrences, u.occurrences);
    hide Submap;
  }

  lemma {:induction false} LinksTwice(b: Book, t: Book, u: Book)
    requires Trimmed(b, t) && Trimmed(t, u)
    ensures KeepsLinks(b, u)
  {
    hide KeepsLatest, KeepsEvents, KeepsUnfinished;
    forall k | k in b.occurrences
      ensures k in u.occurrences <==> k.job in u.snapshots
    {
      assert k.job in u.snapshots ==> k.job in t.snapshots;
    }
  }

  lemma {:induction false} EventsTwice(b: Book, t: Book, u: Book)
    requires Trimmed(b, t) && Trimmed(t, u)
    ensures KeepsEvents(b, u)
  {
    hide KeepsLatest, KeepsLinks, KeepsUnfinished, EventsOf;
  }

  // ---------------------------------------------------------------- a trimmed ledger is still good

  lemma {:induction false} TrimmedLinked(b: Book, t: Book, k: OccurrenceKey)
    requires Trimmed(b, t) && LinkedAt(b, k)
    ensures LinkedAt(t, k)
  {
  }

  lemma {:induction false} TrimmedAgrees(b: Book, t: Book, j: JobId)
    requires Trimmed(b, t) && IsLatest(b, j) && Agrees(b, j)
    ensures j in t.snapshots && Agrees(t, j)
  {
    hide IsLatest;
    var s := b.snapshots[j];
    assert ActiveSet(t, s.ws, s.asset) == ActiveSet(b, s.ws, s.asset);
    forall k | k in t.states && k.ws == s.ws && k.asset == s.asset && t.states[k].active
      ensures ShowsOccurrence(t, k, j)
    {
      assert ShowsOccurrence(b, k, j);
    }
  }

  lemma {:induction false} TrimmedIsGood(b: Book, t: Book)
    requires Good(b) && Trimmed(b, t)
    ensures Good(t)
  {
    assert Linked(t) by {
      forall k: OccurrenceKey ensures LinkedAt(t, k) {
        assert LinkedAt(b, k);
        TrimmedLinked(b, t, k);
      }
    }
    assert DistinctTimes(t);
    assert LinkedEvents(t) by {
      forall e | e in t.events ensures LinkedEvent(t, e) {
        assert LinkedEvent(b, e);
      }
    }
    hide Linked, LinkedAt, LinkedEvents, DistinctTimes, KeepsEvents;
    assert Scoped(t);
    hide Scoped;
    forall j | IsLatest(t, j)
      ensures Agrees(t, j)
    {
      TrimmedLatest(b, t, j);
      TrimmedAgrees(b, t, j);
    }
    hide IsLatest, Agrees;
    forall k | k in t.states
      ensures HasBaseline(t, k.ws, k.asset)
    {
      TrimmedBaseline(b, t, k.ws, k.asset);
    }
  }

  // ---------------------------------------------------------------- one sweep

  ghost predicate Old(b: Book, ws: WorkspaceId, cutoff: Time, j: JobId)
    requires j in b.snapshots
  {
    b.snapshots[j].ws == ws && b.snapshots[j].completedAt < cutoff && j !in ProtectedJobs(b, ws)
  }

  /** The jobs one sweep deletes. */
  ghost function SweptJobs(b: Book, ws: WorkspaceId, cutoff: Time): set<JobId> {
    var safe := ProtectedJobs(b, ws);
    var aged := AgedOut(b, ws, cutoff, safe);
    StaleJobs(aged.(findings := aged.findings - StaleFindings(aged, ws, cutoff)), ws, cutoff, safe)
  }

  lemma {:induction false} SweptAreStale(b: Book, ws: WorkspaceId, cutoff: Time, j: JobId)
    requires j in SweptJobs(b, ws, cutoff)
    ensures j in b.jobs && b.jobs[j].ws == ws && Q.Terminal(b.jobs[j].status) && j !in ProtectedJobs(b, ws)
    ensures forall i :: i in b.items ==> b.items[i].sourceJob != j
  {
    hide ProtectedJobs, StaleFindings, KeptEvents;
  }

  lemma {:induction false} PrunedRows(b: Book, ws: WorkspaceId, cutoff: Time, cascade: bool)
    ensures var t := Pruned(b, ws, cutoff, cascade);
            var swept := SweptJobs(b, ws, cutoff);
            && t.states == b.states && t.items == b.items
            && t.jobs == b.jobs - swept
            && (forall j :: j in t.snapshots <==> j in b.snapshots && !Old(b, ws, cutoff, j) && !(cascade && j in swept))
            && (forall j :: j in t.snapshots ==> t.snapshots[j] == b.snapshots[j])
            && (forall k :: k in t.occurrences <==>
                  k in b.occurrences && !(cascade && k.job in swept)
                  && !(b.occurrences[k].ws == ws && b.occurrences[k].observedAt < cutoff && k.job !in ProtectedJobs(b, ws)))
            && (forall k :: k in t.occurrences ==> t.occurrences[k] == b.occurrences[k])
  {
    hide ProtectedJobs, StaleFindings, StaleJobs, KeptEvents, EventsNotOf;
  }

  /** The same for executions, repository runs, queue rows and findings. */
  lemma {:induction false} PrunedNotes(b: Book, ws: WorkspaceId, cutoff: Time, cascade: bool)
    ensures var t := Pruned(b, ws, cutoff, cascade);
            var swept, safe := SweptJobs(b, ws, cutoff), ProtectedJobs(b, ws);
            && t.queueRows == b.queueRows - swept
            && (forall j :: j in t.executions <==>
                  j in b.executions && !(b.executions[j].ws == ws && b.executions[j].scheduledFor < cutoff && j !in safe)
                  && !(cascade && j in swept))
            && (forall j :: j in t.executions ==> t.executions[j] == b.executions[j])
            && (forall j :: j in t.repositoryRuns <==>
                  j in b.repositoryRuns && !(b.repositoryRuns[j].ws == ws && b.repositoryRuns[j].collectedAt < cutoff && j !in safe)
                  && !(cascade && j in swept))
            && (forall j :: j in t.repositoryRuns ==> t.repositoryRuns[j] == b.repositoryRuns[j])
  {
    hide ProtectedJobs, StaleFindings, StaleJobs, KeptEvents, EventsNotOf;
  }

  /** The latest scan of an asset is protected, whichever workspace is swept. */
  lemma {:induction false} LatestIsProtected(b: Book, ws: WorkspaceId, j: JobId)
    requires IsLatest(b, j) && b.snapshots[j].ws == ws
    ensures j in ProtectedJobs(b, ws)
  {
    hide LastJobsOfActive, JobsOfNewestRuns, JobsOfUnfinishedItems;
    assert NewestSnapshot(b, ws, j) by {
      forall k | k in b.snapshots && InScope(b.snapshots[k], ws, b.snapshots[j].asset)
        ensures b.snapshots[k].completedAt <= b.snapshots[j].completedAt
      {
        if k != j { assert Newer(b, j, k); }
      }
    }
    hide NewestSnapshot;
    assert j in JobsOfNewestSnapshots(b, ws);
  }

  lemma {:induction false} PruneKeepsLatest(b: Book, ws: WorkspaceId, cutoff: Time, cascade: bool, j: JobId)
    requires IsLatest(b, j) && Agrees(b, j)
    ensures var t := Pruned(b, ws, cutoff, cascade);
            j in t.snapshots && j in t.jobs
  {
    PrunedRows(b, ws, cutoff, cascade);
    if b.snapshots[j].ws == ws { LatestIsProtected(b, ws, j); }
    hide Pruned, ProtectedJobs, SweptJobs, IsLatest, ShowsOccurrence, ActiveSet;
    if j in SweptJobs(b, ws, cutoff) { SweptAreStale(b, ws, cutoff, j); }
  }

  lemma {:induction false} PruneKeepsLinks(b: Book, ws: WorkspaceId, cutoff: Time, cascade: bool)
    requires Linked(b)
    ensures KeepsLinks(b, Pruned(b, ws, cutoff, cascade))
  {
    PrunedRows(b, ws, cutoff, cascade);
    hide Pruned, ProtectedJobs, SweptJobs;
    forall k | k in b.occurrences
      ensures k in Pruned(b, ws, cutoff, cascade).occurrences <==> k.job in Pruned(b, ws, cutoff, cascade).snapshots
    {
      assert LinkedAt(b, k);
    }
  }

  lemma {:induction false} KeptEventsAre(events: seq<Event>, ws: WorkspaceId, cutoff: Time, safe: set<JobId>)
    ensures forall e :: e in KeptEvents(events, ws, cutoff, safe) <==>
              e in events && !(e.ws == ws && e.occurredAt < cutoff && e.job !in safe)
  {
    if events != [] { KeptEventsAre(events[..|events| - 1], ws, cutoff, safe); }
  }

  lemma {:induction false} EventsNotOfAre(events: seq<Event>, jobs: set<JobId>)
    ensures forall e :: e in EventsNotOf(events, jobs) <==> e in events && e.job !in jobs
  {
    if events != [] { EventsNotOfAre(events[..|events| - 1], jobs); }
  }

  lemma {:induction false} EventsOfMore(events: seq<Event>, e: Event, j: JobId)
    ensures EventsOf(events + [e], j) == EventsOf(events, j) + if e.job == j then [e] else []
  {
    assert (events + [e])[..|events|] == events;
  }

  lemma {:induction false} KeptEventsOf(events: seq<Event>, ws: WorkspaceId, cutoff: Time, safe: set<JobId>, j: JobId)
    requires forall e :: e in events && e.job == j ==> !(e.ws == ws && e.occurredAt < cutoff && j !in safe)
    ensures EventsOf(KeptEvents(events, ws, cutoff, safe), j) == EventsOf(events, j)
  {
    if events != [] {
      var before := events[..|events| - 1];
      KeptEventsOf(before, ws, cutoff, safe, j);
      EventsOfMore(KeptEvents(before, ws, cutoff, safe), events[|events| - 1], j);
      assert events[|events| - 1] in events;
      assert KeptEvents(before, ws, cutoff, safe) + [] == KeptEvents(before, ws, cutoff, safe);
      assert EventsOf(before, j) + [] == EventsOf(before, j);
    }
  }

  lemma {:induction false} EventsNotOfOf(events: seq<Event>, jobs: set<JobId>, j: JobId)
    requires j !in jobs
    ensures EventsOf(EventsNotOf(events, jobs), j) == EventsOf(events, j)
  {
    if events != [] {
      var before := events[..|events| - 1];
      EventsNotOfOf(before, jobs, j);
      EventsOfMore(EventsNotOf(before, jobs), events[|events| - 1], j);
      assert EventsNotOf(before, jobs) + [] == EventsNotOf(before, jobs);
      assert EventsOf(before, j) + [] == EventsOf(before, j);
    }
  }

  lemma {:induction false} PrunedEvents(b: Book, ws: WorkspaceId, cutoff: Time, cascade: bool)
    ensures var kept := KeptEvents(b.events, ws, cutoff, ProtectedJobs(b, ws));
            Pruned(b, ws, cutoff, cascade).events == if cascade then EventsNotOf(kept, SweptJobs(b, ws, cutoff)) else kept
  {
    hide ProtectedJobs, StaleFindings, StaleJobs, KeptEvents, EventsNotOf;
  }

  lemma {:induction false} PruneKeepsEvents(b: Book, ws: WorkspaceId, cutoff: Time, cascade: bool)
    requires LinkedEvents(b)
    ensures KeepsEvents(b, Pruned(b, ws, cutoff, cascade))
  {
    var t := Pruned(b, ws, cutoff, cascade);
    var safe, swept := ProtectedJobs(b, ws), SweptJobs(b, ws, cutoff);
    var kept := KeptEvents(b.events, ws, cutoff, safe);
    PrunedRows(b, ws, cutoff, cascade);
    PrunedEvents(b, ws, cutoff, cascade);
    KeptEventsAre(b.events, ws, cutoff, safe);
    EventsNotOfAre(kept, swept);
    hide Pruned, ProtectedJobs, SweptJobs, KeptEvents, EventsNotOf, EventsOf;
    forall e | e in t.events
      ensures e in b.events && e.job in t.snapshots
    {
      assert LinkedEvent(b, e);
    }
    forall j | j in t.snapshots
      ensures EventsOf(t.events, j) == EventsOf(b.events, j)
    {
      forall e | e in b.events && e.job == j
        ensures !(e.ws == ws && e.occurredAt < cutoff && j !in safe)
      {
        assert LinkedEvent(b, e);
      }
      KeptEventsOf(b.events, ws, cutoff, safe, j);
      if cascade { EventsNotOfOf(kept, swept, j); }
    }
  }

  lemma {:induction false} PruneKeepsUnfinished(b: Book, ws: WorkspaceId, cutoff: Time, cascade: bool)
    ensures KeepsUnfinished(b, Pruned(b, ws, cutoff, cascade))
  {
    PrunedRows(b, ws, cutoff, cascade);
    hide Pruned, ProtectedJobs, SweptJobs;
    forall j | j in b.jobs && !Q.Terminal(b.jobs[j].status)
      ensures j in Pruned(b, ws, cutoff, cascade).jobs
    {
      if j in SweptJobs(b, ws, cutoff) { SweptAreStale(b, ws, cutoff, j); }
    }
  }

  lemma {:induction false} PruneDeletes(b: Book, ws: WorkspaceId, cutoff: Time, cascade: bool)
    ensures var t := Pruned(b, ws, cutoff, cascade);
            && t.states == b.states && t.items == b.items
            && Submap(t.snapshots, b.snapshots) && Submap(t.jobs, b.jobs) && Submap(t.occurrences, b.occurrences)
            && Submap(t.executions, b.executions) && Submap(t.repositoryRuns, b.repositoryRuns)
  {
    PrunedRows(b, ws, cutoff, cascade);
    PrunedNotes(b, ws, cutoff, cascade);
    hide Pruned, ProtectedJobs, SweptJobs, Old;
  }

  /** A sweep only trims, whatever its workspace and cutoff. */
  lemma {:induction false} PruneTrims(b: Book, ws: WorkspaceId, cutoff: Time, cascade: bool)
    requires Good(b)
    ensures Trimmed(b, Pruned(b, ws, cutoff, cascade))
  {
    PruneDeletes(b, ws, cutoff, cascade);
    PruneKeepsLinks(b, ws, cutoff, cascade);
    PruneKeepsEvents(b, ws, cutoff, cascade);
    PruneKeepsUnfinished(b, ws, cutoff, cascade);
    hide Pruned, Submap, KeepsLinks, KeepsEvents, KeepsUnfinished, Linked, LinkedEvents, DistinctTimes, HasBaseline, ItemOk, Agrees;
    forall j | IsLatest(b, j)
      ensures j in Pruned(b, ws, cutoff, cascade).snapshots && j in Pruned(b, ws, cutoff, cascade).jobs
    {
      PruneKeepsLatest(b, ws, cutoff, cascade, j);
    }
  }

  /** A sweep keeps the views of the ledger in agreement. */
  lemma {:induction false} PruneKeepsGood(b: Book, ws: WorkspaceId, cutoff: Time, cascade: bool)
    requires Good(b)
    ensures Good(Pruned(b, ws, cutoff, cascade))
  {
    hide Good, Pruned, Trimmed;
    PruneTrims(b, ws, cutoff, cascade);
    TrimmedIsGood(b, Pruned(b, ws, cutoff, cascade));
  }
}
