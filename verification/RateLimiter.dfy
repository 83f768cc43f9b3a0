/** The fixed-window limiter: sequential calls, and calls whose statements interleave. */
module RateLimiter {
  import opened Common

  const MICROS := 1000000

  datatype Key = Key(scope: string, action: string, window: nat)

  /** Times are microseconds since the epoch; windows and reset times are whole seconds. */
  datatype Decision = Decision(allowed: bool, limit: nat, remaining: nat, resetAt: nat, retryAfter: nat)

  /** The start of the window a moment falls into. */
  function WindowOf(now: nat, seconds: nat): (start: nat)
    requires seconds > 0
    ensures start <= now / MICROS < start + seconds
  {
    var epoch := now / MICROS;
    epoch - epoch % seconds
  }

  lemma {:induction false} WindowIsMultiple(now: nat, seconds: nat) returns (q: nat)
    requires seconds > 0
    ensures WindowOf(now, seconds) == q * seconds
  {
    q := (now / MICROS) / seconds;
  }

  function Ceiling(micros: int): int { -((-micros) / MICROS) }

  // ---------------------------------------------------------------- sequential calls

  /** What one undisturbed call answers and leaves in the bucket. */
  function CountAfter(stored: Option<nat>, limit: nat): nat {
    if stored.None? then 1 else if stored.value < limit then stored.value + 1 else stored.value
  }

  function CountSeen(stored: Option<nat>): nat {
    if stored.None? then 1 else stored.value + 1
  }

  class RateLimitRepository {
    var buckets: map<Key, nat>

    constructor ()
      ensures buckets == map[]
    {
      buckets := map[];
    }

    function Stored(key: Key): Option<nat>
      reads this
    {
      if key in buckets then Some(buckets[key]) else None
    }

    /** The conditional update: counts one more below the limit. */
    method IncrementBelow(key: Key, limit: nat) returns (updated: bool)
      modifies this
      ensures updated <==> key in old(buckets) && old(buckets)[key] < limit
      ensures buckets == if updated then old(buckets)[key := old(buckets)[key] + 1] else old(buckets)
    {
      updated := key in buckets && buckets[key] < limit;
      if updated { buckets := buckets[key := buckets[key] + 1]; }
    }

    /** Insert; a bucket that is already there is a conflict. */
    method InsertFirst(key: Key) returns (inserted: bool)
      modifies this
      ensures inserted <==> key !in old(buckets)
      ensures buckets == if inserted then old(buckets)[key := 1] else old(buckets)
    {
      inserted := key !in buckets;
      if inserted { buckets := buckets[key := 1]; }
    }

    ghost predicate Capped(key: Key, limit: nat)
      reads this
    {
      key in buckets ==> 1 <= buckets[key] <= limit
    }

    /** Other calls may run between two statements. Calls for the same key have the same limit. */
    method Yield(key: Key, limit: nat, ghost alone: bool)
      modifies this
      ensures old(Capped(key, limit)) ==> Capped(key, limit)
      ensures alone ==> buckets == old(buckets)
    {
    }

    /** The count a call sees. Undisturbed it counts itself while the limit is not reached; in
        any case the stored count stays within the limit. */
    method IncrementOrCreate(key: Key, limit: nat, ghost alone: bool) returns (count: nat)
      requires limit >= 1
      modifies this
      ensures old(Capped(key, limit)) ==> Capped(key, limit)
      ensures alone ==> count == CountSeen(old(Stored(key)))
      ensures alone ==> buckets == old(buckets)[key := CountAfter(old(Stored(key)), limit)]
    {
      var updated := IncrementBelow(key, limit);
      Yield(key, limit, alone);
      if updated {
        return if key in buckets then buckets[key] else 0;
      }
      if key in buckets { return buckets[key] + 1; }
      Yield(key, limit, alone);
      var inserted := InsertFirst(key);
      if inserted { return 1; }
      Yield(key, limit, alone);
      var again := IncrementBelow(key, limit);
      Yield(key, limit, alone);
      if again {
        return if key in buckets then buckets[key] else 0;
      }
      count := limit + 1;
    }

    /** One call: counts it in its window and decides. */
    method Consume(scope: string, action: string, limit: int, windowSeconds: int, now: nat, ghost alone: bool)
      returns (r: Result<Decision>)
      modifies this
      ensures !(1 <= |scope| <= 300 && 1 <= |action| <= 100 && limit >= 1 && windowSeconds >= 1) ==>
                r == Err(ValueError) && buckets == old(buckets)
      ensures 1 <= |scope| <= 300 && 1 <= |action| <= 100 && limit >= 1 && windowSeconds >= 1 ==>
                var key := Key(scope, action, WindowOf(now, windowSeconds));
                && (old(Capped(key, limit)) ==> Capped(key, limit))
                && r.Ok? && r.value.limit == limit && r.value.resetAt == key.window + windowSeconds
                && (r.value.allowed ==> r.value.retryAfter == 0)
                && (!r.value.allowed ==>
                      1 <= r.value.retryAfter <= windowSeconds
                      && now + (r.value.retryAfter - 1) * MICROS < r.value.resetAt * MICROS <= now + r.value.retryAfter * MICROS)
      ensures alone && 1 <= |scope| <= 300 && 1 <= |action| <= 100 && limit >= 1 && windowSeconds >= 1 ==>
                var key := Key(scope, action, WindowOf(now, windowSeconds));
                var stored := old(Stored(key));
                && r.Ok?
                && buckets == old(buckets)[key := CountAfter(stored, limit)]
                && (r.value.allowed <==> stored.None? || stored.value < limit)
                && r.value.remaining == (if r.value.allowed && CountAfter(stored, limit) < limit then limit - CountAfter(stored, limit) else 0)
    {
      if scope == "" || |scope| > 300 { return Err(ValueError); }
      if action == "" || |action| > 100 { return Err(ValueError); }
      if limit < 1 { return Err(ValueError); }
      if windowSeconds < 1 { return Err(ValueError); }
      var windowStart := WindowOf(now, windowSeconds);
      var resetEpoch := windowStart + windowSeconds;
      var wait := Ceiling(resetEpoch * MICROS - now);
      var retryAfter := if wait > 0 then wait else 0;
      var count := IncrementOrCreate(Key(scope, action, windowStart), limit, alone);
      var allowed := count <= limit;
      r := Ok(Decision(allowed, limit, if count < limit then limit - count else 0, resetEpoch, if allowed then 0 else retryAfter));
    }
  }

  /** A caller's calls in one scope and action, under one limit and window, by their times. */
  function CallsIn(calls: seq<nat>, seconds: nat, window: nat): nat
    requires seconds > 0
  {
    if calls == [] then 0
    else CallsIn(calls[..|calls| - 1], seconds, window) + if WindowOf(calls[|calls| - 1], seconds) == window then 1 else 0
  }

  /** The stored counts after the calls, window by window, starting from none. */
  function StoredAfter(calls: seq<nat>, seconds: nat, limit: nat): map<nat, nat>
    requires seconds > 0
  {
    if calls == [] then map[] else
    var before := StoredAfter(calls[..|calls| - 1], seconds, limit);
    var window := WindowOf(calls[|calls| - 1], seconds);
    before[window := CountAfter(if window in before then Some(before[window]) else None, limit)]
  }

  /** Whether call `i` is allowed. */
  predicate AllowedAt(calls: seq<nat>, seconds: nat, limit: nat, i: nat)
    requires seconds > 0 && i < |calls|
  {
    var before, window := StoredAfter(calls[..i], seconds, limit), WindowOf(calls[i], seconds);
    window !in before || before[window] < limit
  }

  function Min(a: nat, b: nat): nat { if a < b then a else b }

  /** The stored count of a window is the number of its calls, capped at the limit. */
  lemma {:induction false} StoredIsCapped(calls: seq<nat>, seconds: nat, limit: nat, window: nat)
    requires seconds > 0 && limit >= 1
    ensures var stored := StoredAfter(calls, seconds, limit);
            (if window in stored then stored[window] else 0) == Min(CallsIn(calls, seconds, window), limit)
    ensures window in StoredAfter(calls, seconds, limit) <==> CallsIn(calls, seconds, window) > 0
  {
    hide WindowOf;
    if calls != [] { StoredIsCapped(calls[..|calls| - 1], seconds, limit, window); }
  }

  /** Exactly the first `limit` calls of a window are allowed. */
  lemma {:induction false} FirstCallsAreAllowed(calls: seq<nat>, seconds: nat, limit: nat, i: nat)
    requires seconds > 0 && limit >= 1 && i < |calls|
    ensures AllowedAt(calls, seconds, limit, i) <==> CallsIn(calls[..i + 1], seconds, WindowOf(calls[i], seconds)) <= limit
  {
    assert calls[..i + 1][..i] == calls[..i];
    StoredIsCapped(calls[..i], seconds, limit, WindowOf(calls[i], seconds));
    hide WindowOf;
  }

  /** The allowed calls of a run with a time in [from, to). */
  function AllowedBetween(calls: seq<nat>, seconds: nat, limit: nat, from: nat, to: nat): nat
    requires seconds > 0
  {
    if calls == [] then 0 else
    var n := |calls| - 1;
    AllowedBetween(calls[..n], seconds, limit, from, to)
    + if from <= calls[n] < to && AllowedAt(calls, seconds, limit, n) then 1 else 0
  }

  function AllowedOf(calls: seq<nat>, seconds: nat, limit: nat, window: nat): nat
    requires seconds > 0
  {
    if calls == [] then 0 else
    var n := |calls| - 1;
    AllowedOf(calls[..n], seconds, limit, window)
    + if WindowOf(calls[n], seconds) == window && AllowedAt(calls, seconds, limit, n) then 1 else 0
  }

  lemma {:induction false} AllowedOfWindow(calls: seq<nat>, seconds: nat, limit: nat, window: nat)
    requires seconds > 0 && limit >= 1
    ensures AllowedOf(calls, seconds, limit, window) == Min(CallsIn(calls, seconds, window), limit)
  {
    hide WindowOf, AllowedAt;
    if calls != [] {
      var n := |calls| - 1;
      AllowedOfWindow(calls[..n], seconds, limit, window);
      FirstCallsAreAllowed(calls, seconds, limit, n);
      assert calls[..n + 1] == calls;
    }
  }

  /** An interval one window long meets at most two windows. */
  lemma {:induction false} TwoWindows(from: nat, now: nat, seconds: nat)
    requires seconds > 0 && from <= now < from + seconds * MICROS
    ensures WindowOf(now, seconds) == WindowOf(from, seconds) || WindowOf(now, seconds) == WindowOf(from, seconds) + seconds
  {
    var m := WindowIsMultiple(from, seconds);
    var n := WindowIsMultiple(now, seconds);
    assert from / MICROS <= now / MICROS <= from / MICROS + seconds;
    hide WindowOf;
    Apart(m, n, seconds);
    Apart(n, m + 2, seconds);
    assert (m + 2) * seconds == m * seconds + 2 * seconds;
    if n == m + 1 { assert (m + 1) * seconds == m * seconds + seconds; }
  }

  lemma {:induction false} Apart(a: int, b: int, n: int)
    requires n > 0
    ensures a > b ==> a * n >= b * n + n
    ensures a >= b ==> a * n >= b * n
  {
    if a > b {
      Multiples(a, b + 1, n);
      assert (b + 1) * n == b * n + n;
    }
  }

  lemma {:induction false} BetweenIsWithinTwo(calls: seq<nat>, seconds: nat, limit: nat, from: nat)
    requires seconds > 0
    ensures AllowedBetween(calls, seconds, limit, from, from + seconds * MICROS)
            <= AllowedOf(calls, seconds, limit, WindowOf(from, seconds)) + AllowedOf(calls, seconds, limit, WindowOf(from, seconds) + seconds)
  {
    hide WindowOf, AllowedAt;
    if calls != [] {
      var n := |calls| - 1;
      BetweenIsWithinTwo(calls[..n], seconds, limit, from);
      if from <= calls[n] < from + seconds * MICROS { TwoWindows(from, calls[n], seconds); }
    }
  }

  /** Any half-open interval one window long allows at most twice the limit. */
  lemma {:induction false} AtMostTwiceTheLimit(calls: seq<nat>, seconds: nat, limit: nat, from: nat)
    requires seconds > 0 && limit >= 1
    ensures AllowedBetween(calls, seconds, limit, from, from + seconds * MICROS) <= 2 * limit
  {
    BetweenIsWithinTwo(calls, seconds, limit, from);
    AllowedOfWindow(calls, seconds, limit, WindowOf(from, seconds));
    AllowedOfWindow(calls, seconds, limit, WindowOf(from, seconds) + seconds);
  }

  // ---------------------------------------------------------------- interleaved statements

  /** Where a call stands: before its update, after an update that matched nothing, after a
      select that found no bucket, after an insert that met one, after it has counted itself, or
      decided on the count it saw. */
  datatype Stage = Start | Missed | Absent | Conflict | Counted | Decided(count: nat)

  /** One bucket and the calls on it. `leaked` is bookkeeping: the calls whose select found a
      bucket below the limit that their update had not found. */
  datatype Race = Race(count: Option<nat>, calls: map<nat, Stage>, leaked: set<nat>)

  datatype Statement = Update(call: nat) | Select(call: nat) | Insert(call: nat) | UpdateAgain(call: nat) | ReadBack(call: nat)

  function StageOf(r: Race, call: nat): Stage { if call in r.calls then r.calls[call] else Start }

  predicate Follows(r: Race, st: Statement) {
    match st
    case Update(c) => StageOf(r, c).Start?
    case Select(c) => StageOf(r, c).Missed?
    case Insert(c) => StageOf(r, c).Absent?
    case UpdateAgain(c) => StageOf(r, c).Conflict?
    case ReadBack(c) => StageOf(r, c).Counted?
  }

  predicate Below(r: Race, limit: nat) { r.count.Some? && r.count.value < limit }

  function Run(r: Race, st: Statement, limit: nat): Race {
    match st
    case Update(c) =>
      if Below(r, limit) then r.(count := Some(r.count.value + 1), calls := r.calls[c := Counted])
      else r.(calls := r.calls[c := Missed])
    case Select(c) =>
      if r.count.None? then r.(calls := r.calls[c := Absent])
      else r.(calls := r.calls[c := Decided(r.count.value + 1)], leaked := if Below(r, limit) then r.leaked + {c} else r.leaked)
    case Insert(c) =>
      if r.count.None? then r.(count := Some(1), calls := r.calls[c := Decided(1)]) else r.(calls := r.calls[c := Conflict])
    case UpdateAgain(c) =>
      if Below(r, limit) then r.(count := Some(r.count.value + 1), calls := r.calls[c := Counted])
      else r.(calls := r.calls[c := Decided(limit + 1)])
    case ReadBack(c) => r.(calls := r.calls[c := Decided(if r.count.Some? then r.count.value else 0)])
  }

  /** The calls that are allowed or, having counted themselves, will be. */
  function Admitted(r: Race, limit: nat): set<nat> {
    set c | c in r.calls && (r.calls[c].Counted? || (r.calls[c].Decided? && r.calls[c].count <= limit))
  }

  function Total(r: Race): nat { if r.count.Some? then r.count.value else 0 }

  /** The stored count is within the limit, and the admitted calls are those counted and those
      leaked. */
  ghost predicate RaceInv(r: Race, limit: nat) {
    && (r.count.Some? ==> 1 <= r.count.value <= limit)
    && r.leaked <= Admitted(r, limit)
    && |Admitted(r, limit)| == Total(r) + |r.leaked|
  }

  lemma {:induction false} AdmittedAfter(r: Race, st: Statement, limit: nat)
    requires RaceInv(r, limit) && Follows(r, st) && limit >= 1
    ensures var r' := Run(r, st, limit);
            var grows := match st
                         case Update(_) => Below(r, limit)
                         case Select(_) => Below(r, limit)
                         case Insert(_) => r.count.None?
                         case UpdateAgain(_) => Below(r, limit)
                         case ReadBack(_) => false;
            && Admitted(r', limit) == Admitted(r, limit) + (if grows then {st.call} else {})
            && (grows ==> st.call !in Admitted(r, limit))
  {
  }

  /** Every statement of every call keeps it. */
  lemma {:induction false} StatementKeeps(r: Race, st: Statement, limit: nat)
    requires RaceInv(r, limit) && Follows(r, st) && limit >= 1
    ensures RaceInv(Run(r, st, limit), limit)
  {
    AdmittedAfter(r, st, limit);
    hide Admitted;
  }

  function AfterAll(r: Race, sts: seq<Statement>, limit: nat): Race
    decreases |sts|
  {
    if sts == [] then r else AfterAll(Run(r, sts[0], limit), sts[1..], limit)
  }

  predicate Interleaving(r: Race, sts: seq<Statement>, limit: nat)
    decreases |sts|
  {
    sts == [] || (Follows(r, sts[0]) && Interleaving(Run(r, sts[0], limit), sts[1..], limit))
  }

  const FRESH := Race(None, map[], {})

  /** Under every interleaving the stored count stays within the limit, and the admitted calls
      exceed it by exactly the leaked ones. */
  lemma {:induction false} StoredStaysCapped(r: Race, sts: seq<Statement>, limit: nat)
    requires limit >= 1 && RaceInv(r, limit) && Interleaving(r, sts, limit)
    ensures var t := AfterAll(r, sts, limit);
            && Total(t) <= limit
            && |Admitted(t, limit)| == Total(t) + |t.leaked|
            && RaceInv(t, limit)
    decreases |sts|
  {
    if sts != [] {
      StatementKeeps(r, sts[0], limit);
      hide RaceInv, Run, Follows, Admitted, Total;
      StoredStaysCapped(Run(r, sts[0], limit), sts[1..], limit);
    }
  }

  lemma {:induction false} FreshRace(limit: nat)
    ensures RaceInv(FRESH, limit)
  {
    assert Admitted(FRESH, limit) == {};
  }

  lemma {:induction false} OneNeverLeaks(r: Race, sts: seq<Statement>)
    requires RaceInv(r, 1) && r.leaked == {} && Interleaving(r, sts, 1)
    ensures AfterAll(r, sts, 1).leaked == {}
    decreases |sts|
  {
    if sts != [] {
      StatementKeeps(r, sts[0], 1);
      hide Admitted;
      OneNeverLeaks(Run(r, sts[0], 1), sts[1..]);
    }
  }

  lemma {:induction false} OneMore(r: Race, st: Statement, rest: seq<Statement>, limit: nat)
    requires Follows(r, st) && Interleaving(Run(r, st, limit), rest, limit)
    ensures Interleaving(r, [st] + rest, limit)
    ensures AfterAll(r, [st] + rest, limit) == AfterAll(Run(r, st, limit), rest, limit)
  {
    hide Follows, Run;
    assert ([st] + rest)[1..] == rest;
  }

  /** Further calls fill the bucket up to the limit. */
  lemma {:induction false} FillUp(r: Race, limit: nat, next: nat) returns (sts: seq<Statement>)
    requires r.count.Some? && r.count.value <= limit && forall c :: c in r.calls ==> c < next
    ensures Interleaving(r, sts, limit)
    ensures var t := AfterAll(r, sts, limit); t.count == Some(limit) && t.leaked == r.leaked
    decreases limit - r.count.value
  {
    if r.count.value == limit {
      sts := [];
    } else {
      var rest := FillUp(Run(r, Update(next), limit), limit, next + 1);
      OneMore(r, Update(next), rest, limit);
      sts := [Update(next)] + rest;
    }
  }

  function FirstCalls(n: nat): (r: set<nat>)
    ensures forall c: nat :: c in r <==> c < n
    ensures |r| == n
  {
    if n == 0 then {} else FirstCalls(n - 1) + {n - 1}
  }

  /** The waiting calls from `k` on select the bucket that has just been created and leak. */
  lemma {:induction false} LeakRest(r: Race, k: nat, extra: nat, limit: nat) returns (sts: seq<Statement>)
    requires limit >= 2 && r.count == Some(1) && k <= extra && r.leaked == FirstCalls(k)
    requires forall c :: k <= c < extra ==> c in r.calls && r.calls[c].Missed?
    requires forall c :: c in r.calls ==> c <= extra
    ensures Interleaving(r, sts, limit)
    ensures var t := AfterAll(r, sts, limit); t.count == Some(limit) && t.leaked == FirstCalls(extra)
    decreases extra - k
  {
    if k == extra {
      sts := FillUp(r, limit, extra + 1);
    } else {
      var r' := Run(r, Select(k), limit);
      assert r'.leaked == FirstCalls(k + 1);
      var rest := LeakRest(r', k + 1, extra, limit);
      OneMore(r, Select(k), rest, limit);
      sts := [Select(k)] + rest;
    }
  }

  /** The updates from `k` on find no bucket; one more call creates it, and the others leak. */
  lemma {:induction false} MissRest(r: Race, k: nat, extra: nat, limit: nat) returns (sts: seq<Statement>)
    requires limit >= 2 && r.count.None? && k <= extra && r.leaked == {}
    requires forall c: nat :: c in r.calls <==> c < k
    requires forall c :: c in r.calls ==> r.calls[c].Missed?
    ensures Interleaving(r, sts, limit)
    ensures var t := AfterAll(r, sts, limit); t.count == Some(limit) && t.leaked == FirstCalls(extra)
    decreases extra - k
  {
    var r1 := Run(r, Update(k), limit);
    if k == extra {
      var r2 := Run(r1, Select(k), limit);
      var r3 := Run(r2, Insert(k), limit);
      assert FirstCalls(0) == {};
      var rest := LeakRest(r3, 0, extra, limit);
      OneMore(r2, Insert(k), rest, limit);
      OneMore(r1, Select(k), [Insert(k)] + rest, limit);
      OneMore(r, Update(k), [Select(k)] + ([Insert(k)] + rest), limit);
      sts := [Update(k)] + ([Select(k)] + ([Insert(k)] + rest));
    } else {
      var rest := MissRest(r1, k + 1, extra, limit);
      OneMore(r, Update(k), rest, limit);
      sts := [Update(k)] + rest;
    }
  }

  /** For every limit above one the excess is unbounded: for any number of extra calls some
      interleaving admits that many more than the limit. Their updates find no bucket, one more
      call creates it, and each of them then selects a bucket below the limit. */
  lemma {:induction false} SomeRaceOverAdmits(limit: nat, extra: nat) returns (sts: seq<Statement>)
    requires limit >= 2
    ensures Interleaving(FRESH, sts, limit) && |Admitted(AfterAll(FRESH, sts, limit), limit)| == limit + extra
  {
    sts := MissRest(FRESH, 0, extra, limit);
    FreshRace(limit);
    StoredStaysCapped(FRESH, sts, limit);
    hide Admitted;
  }

  /** The bound on admitted calls holds under every interleaving exactly when the limit is one. */
  lemma {:induction false} BoundHoldsOnlyForOne(limit: nat)
    requires limit >= 1
    ensures (forall sts :: Interleaving(FRESH, sts, limit) ==> |Admitted(AfterAll(FRESH, sts, limit), limit)| <= limit)
            <==> limit == 1
  {
    if limit >= 2 {
      var sts := SomeRaceOverAdmits(limit, 1);
    } else {
      forall sts | Interleaving(FRESH, sts, 1) ensures |Admitted(AfterAll(FRESH, sts, 1), 1)| <= 1 {
        FreshRace(1);
        StoredStaysCapped(FRESH, sts, 1);
        OneNeverLeaks(FRESH, sts);
      }
    }
  }
}
