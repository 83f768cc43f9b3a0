/** Which job a worker should be offered: the oldest eligible job of each workspace, oldest first. */
module ScanQueueFairness {
  import opened Common
  import opened ScanQueue
  import opened ScanQueueColumns

  predicate Eligible(s: Sys, id: JobId, now: Time) { ClaimTakes(s, id, now) }

  /** Request order, ties broken by id. */
  predicate Older(s: Sys, a: JobId, b: JobId)
    requires a in s.jobs && b in s.jobs
  {
    s.jobs[a].requestedAt < s.jobs[b].requestedAt
    || (s.jobs[a].requestedAt == s.jobs[b].requestedAt && IdBefore(a, b))
  }

  predicate SameWorkspace(s: Sys, a: JobId, b: JobId)
    requires a in s.jobs && b in s.jobs
  {
    s.jobs[a].workspace == s.jobs[b].workspace
  }

  /** Older is a strict total order. */
  lemma OlderIsTotal(s: Sys, a: JobId, b: JobId, c: JobId)
    requires a in s.jobs && b in s.jobs && c in s.jobs
    ensures a != b ==> Older(s, a, b) || Older(s, b, a)
    ensures !(Older(s, a, b) && Older(s, b, a))
    ensures Older(s, a, b) && Older(s, b, c) ==> Older(s, a, c)
  {
  }

  function EligibleJobs(s: Sys, now: Time): set<JobId> {
    set id | id in s.jobs && Eligible(s, id, now)
  }

  /** The eligible jobs that no older eligible job of the same workspace precedes. */
  function Heads(s: Sys, now: Time): set<JobId> {
    set id | id in s.jobs && Eligible(s, id, now)
             && forall k :: k in EligibleJobs(s, now) && k != id && SameWorkspace(s, k, id) ==> Older(s, id, k)
  }

  /** What the selection query returns: the first heads in order, at most 20 of them. */
  ghost predicate IsCandidates(s: Sys, now: Time, cs: seq<JobId>) {
    && (forall i :: 0 <= i < |cs| ==> cs[i] in Heads(s, now))
    && (forall i, k :: 0 <= i < k < |cs| ==> Older(s, cs[i], cs[k]))
    && |cs| <= 20
    && (forall h :: h in Heads(s, now) && h !in cs ==>
          |cs| == 20 && forall i :: 0 <= i < |cs| ==> Older(s, cs[i], h))
  }

  /** Any non-empty set of jobs has an oldest one. */
  lemma {:induction false} OldestExists(s: Sys, ids: set<JobId>) returns (oldest: JobId)
    requires ids != {} && ids <= s.jobs.Keys
    ensures oldest in ids && forall k :: k in ids && k != oldest ==> Older(s, oldest, k)
  {
    var id :| id in ids;
    if ids == {id} {
      oldest := id;
    } else {
      var rest := OldestExists(s, ids - {id});
      oldest := if Older(s, id, rest) then id else rest;
      forall k | k in ids && k != oldest ensures Older(s, oldest, k) {
        OlderIsTotal(s, id, rest, k);
        OlderIsTotal(s, rest, id, k);
      }
    }
  }

  /** Every workspace with an eligible job has exactly one head. */
  lemma HeadOfWorkspace(s: Sys, now: Time, id: JobId) returns (head: JobId)
    requires id in s.jobs && Eligible(s, id, now)
    ensures head in Heads(s, now) && s.jobs[head].workspace == s.jobs[id].workspace
    ensures forall h :: h in Heads(s, now) && s.jobs[h].workspace == s.jobs[id].workspace ==> h == head
  {
    var peers := set k | k in s.jobs && Eligible(s, k, now) && s.jobs[k].workspace == s.jobs[id].workspace;
    assert id in peers;
    head := OldestExists(s, peers);
    forall h | h in Heads(s, now) && s.jobs[h].workspace == s.jobs[id].workspace
      ensures h == head
    {
      if h != head { OlderIsTotal(s, h, head, h); }
    }
  }

  predicate Full(s: Sys, id: JobId, limit: nat)
    requires id in s.jobs
  {
    Active(s.runtime, s.jobs[id].workspace) >= limit
  }

  /** The tables after an undisturbed claim of `id`: its workspace's counter is one up, the job
      runs under a fresh lease, and nothing else has moved. */
  function ClaimedAlone(s: Sys, me: ClientId, id: JobId, limit: nat, now: Time, expires: Time): Sys
    requires id in s.jobs
  {
    var ws := s.jobs[id].workspace;
    ClaimJob(AcquireSlot(EnsureCounter(s, ws), me, ws, limit), me, id, now, expires)
  }

  /** The lease of an undisturbed claim: one attempt more, the expiry it was given, and no other
      job or queue row touched. */
  lemma ClaimedLease(s: Sys, me: ClientId, id: JobId, limit: nat, now: Time, expires: Time)
    requires id in s.jobs && ClaimTakes(s, id, now) && !Full(s, id, limit)
    ensures var t := ClaimedAlone(s, me, id, limit, now, expires);
            && t.queue == s.queue[id := s.queue[id].(leaseOwner := Some(me), leaseExpiresAt := Some(expires), lastHeartbeatAt := Some(now),
                                                     attempts := s.queue[id].attempts + 1)]
            && t.jobs == s.jobs[id := s.jobs[id].(status := Running, startedAt := Some(now))]
            && t.runtime == s.runtime[s.jobs[id].workspace := Active(s.runtime, s.jobs[id].workspace) + 1]
  {
    var ws := s.jobs[id].workspace;
    SlotTaken(s, me, ws, limit);
    hide AcquireSlot, EnsureCounter;
    var u := AcquireSlot(EnsureCounter(s, ws), me, ws, limit);
    ClaimedRows(u, me, id, now, expires);
    hide ClaimJob;
  }

  lemma ClaimedRows(s: Sys, me: ClientId, id: JobId, now: Time, expires: Time)
    requires ClaimTakes(s, id, now)
    ensures var t := ClaimJob(s, me, id, now, expires);
            && t.queue == s.queue[id := s.queue[id].(leaseOwner := Some(me), leaseExpiresAt := Some(expires), lastHeartbeatAt := Some(now),
                                                     attempts := s.queue[id].attempts + 1)]
            && t.jobs == s.jobs[id := s.jobs[id].(status := Running, startedAt := Some(now))]
            && t.runtime == s.runtime
  {
  }

  lemma SlotTaken(s: Sys, me: ClientId, ws: WorkspaceId, limit: nat)
    requires Active(s.runtime, ws) < limit
    ensures var t := AcquireSlot(EnsureCounter(s, ws), me, ws, limit);
            t.jobs == s.jobs && t.queue == s.queue && t.runtime == s.runtime[ws := Active(s.runtime, ws) + 1]
  {
  }

  /** Fairness of an undisturbed claim: the outcome `taken` is a head whose workspace has room,
      and every head before it belongs to a full workspace; no outcome means the first heads, up
      to 20, all belong to full workspaces. */
  ghost predicate FairChoice(s: Sys, now: Time, limit: nat, taken: Option<JobId>) {
    match taken
    case Some(id) =>
      && id in Heads(s, now) && !Full(s, id, limit)
      && forall h :: h in Heads(s, now) && Older(s, h, id) ==> Full(s, h, limit)
    case None =>
      exists cs :: IsCandidates(s, now, cs) && forall i :: 0 <= i < |cs| ==> Full(s, cs[i], limit)
  }

  /** Trying for a slot leaves eligibility alone, and in a full workspace changes nothing. */
  lemma SlotTried(s: Sys, me: ClientId, id: JobId, limit: nat, now: Time)
    requires id in s.jobs && limit >= 1
    ensures var ws := s.jobs[id].workspace;
            var t := AcquireSlot(EnsureCounter(s, ws), me, ws, limit);
            && (ClaimTakes(t, id, now) <==> ClaimTakes(s, id, now))
            && (Full(s, id, limit) <==> !(Active(s.runtime, ws) < limit))
            && (Full(s, id, limit) ==> t == s)
  {
  }

  lemma CandidateIsEligible(s: Sys, now: Time, candidates: seq<JobId>, i: nat)
    requires IsCandidates(s, now, candidates) && i < |candidates|
    ensures ClaimTakes(s, candidates[i], now)
  {
  }

  lemma NoChoiceIsFair(s: Sys, now: Time, limit: nat, candidates: seq<JobId>)
    requires IsCandidates(s, now, candidates)
    requires forall k :: 0 <= k < |candidates| ==> Full(s, candidates[k], limit)
    ensures FairChoice(s, now, limit, None)
  {
  }

  lemma ChoiceIsFair(s: Sys, now: Time, limit: nat, candidates: seq<JobId>, i: nat)
    requires IsCandidates(s, now, candidates) && i < |candidates|
    requires forall k :: 0 <= k < i ==> Full(s, candidates[k], limit)
    requires !Full(s, candidates[i], limit)
    ensures FairChoice(s, now, limit, Some(candidates[i]))
  {
    forall h | h in Heads(s, now) && Older(s, h, candidates[i])
      ensures Full(s, h, limit)
    {
      if h in candidates {
        var k :| 0 <= k < |candidates| && candidates[k] == h;
        OlderComesFirst(s, now, candidates, i, k);
      } else {
        OlderIsTotal(s, h, candidates[i], h);
      }
    }
  }

  lemma OlderComesFirst(s: Sys, now: Time, candidates: seq<JobId>, i: nat, k: nat)
    requires IsCandidates(s, now, candidates) && i < |candidates| && k < |candidates|
    ensures Older(s, candidates[k], candidates[i]) ==> k < i
  {
    OlderIsTotal(s, candidates[i], candidates[k], candidates[i]);
  }

  /** With at most 20 workspaces that have an eligible job, an undisturbed claim comes back empty
      exactly when every workspace with an eligible job is at its limit. */
  lemma EmptyClaimMeansAllFull(s: Sys, now: Time, limit: nat, taken: Option<JobId>)
    requires FairChoice(s, now, limit, taken) && |Heads(s, now)| <= 20
    ensures taken.None? <==>
              forall id :: id in s.jobs && Eligible(s, id, now) ==> Full(s, id, limit)
  {
    if taken.None? {
      var cs :| IsCandidates(s, now, cs) && forall i :: 0 <= i < |cs| ==> Full(s, cs[i], limit);
      forall id | id in s.jobs && Eligible(s, id, now)
        ensures Full(s, id, limit)
      {
        var head := HeadOfWorkspace(s, now, id);
        if head !in cs { CandidatesOverflow(s, now, cs, head); }
      }
    } else {
      assert Eligible(s, taken.value, now) && !Full(s, taken.value, limit);
    }
  }

  /** A head left out of the candidates means there are more than 20 heads. */
  lemma CandidatesOverflow(s: Sys, now: Time, cs: seq<JobId>, h: JobId)
    requires IsCandidates(s, now, cs) && h in Heads(s, now) && h !in cs
    ensures |Heads(s, now)| > 20
  {
    DistinctCount(cs);
    var members := set c | c in cs;
    assert members + {h} <= Heads(s, now);
    SubsetSize(members + {h}, Heads(s, now));
  }

  lemma {:induction false} DistinctCount(cs: seq<JobId>)
    requires forall i, k :: 0 <= i < k < |cs| ==> cs[i] != cs[k]
    ensures |set c | c in cs| == |cs|
  {
    if cs != [] {
      var rest := cs[..|cs| - 1];
      DistinctCount(rest);
      assert (set c | c in cs) == (set c | c in rest) + {cs[|cs| - 1]};
    } else {
      assert (set c | c in cs) == {};
    }
  }

  /** A fair choice in terms of the tables: the job taken may be claimed and its workspace has
      room; no job that may be claimed was requested earlier in its workspace, nor in any other
      workspace that has room. */
  lemma ChoiceIsOldest(s: Sys, now: Time, limit: nat, id: JobId, k: JobId)
    requires FairChoice(s, now, limit, Some(id)) && Waits(s, k, now)
    ensures Waits(s, id, now) && Active(s.runtime, s.jobs[id].workspace) < limit
    ensures s.jobs[k].requestedAt < s.jobs[id].requestedAt ==>
              s.jobs[k].workspace != s.jobs[id].workspace && Active(s.runtime, s.jobs[k].workspace) >= limit
    ensures s.jobs[k].workspace == s.jobs[id].workspace && s.jobs[k].requestedAt == s.jobs[id].requestedAt ==>
              k == id || IdBefore(id, k)
  {
    var head := HeadOfWorkspace(s, now, k);
    if head != k { assert k in EligibleJobs(s, now) && Older(s, head, k); }
    assert k in EligibleJobs(s, now);
  }
}
