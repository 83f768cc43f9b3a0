/** Shared vocabulary: optional values, outcomes of repository calls, and finite sums. */
module Common {

  datatype Option<+T> = None | Some(value: T)

  /** The exception families the storage layer raises, the last one for a violated constraint. */
  datatype Error = ValueError | LookupError | RuntimeError | IntegrityError

  datatype Result<+T> = Ok(value: T) | Err(error: Error)

  /** Seconds since the epoch. */
  type Time = int

  type WorkspaceId = nat
  type AssetId = nat
  type ScheduleId = nat

  /** Scan job ids are random, except that a scheduled occurrence hashes its schedule and its
      time. Reading the hash as injective makes it a constructor. */
  datatype JobId = Random(n: nat) | Scheduled(schedule: ScheduleId, at: Time)

  /** A fixed total order on job ids, standing for the string order the database uses. */
  predicate IdBefore(a: JobId, b: JobId) {
    match (a, b)
    case (Random(x), Random(y)) => x < y
    case (Random(_), Scheduled(_, _)) => true
    case (Scheduled(_, _), Random(_)) => false
    case (Scheduled(s, t), Scheduled(s', t')) => s < s' || (s == s' && t < t')
  }

  /** The characters that Python's strip takes off. */
  predicate Space(c: char) {
    || '\U{9}' <= c <= '\U{d}' || '\U{1c}' <= c <= '\U{20}' || c == '\U{85}' || c == '\U{a0}' || c == '\U{1680}'
    || '\U{2000}' <= c <= '\U{200a}' || c == '\U{2028}' || c == '\U{2029}' || c == '\U{202f}' || c == '\U{205f}'
    || c == '\U{3000}'
  }

  /** Text without the white space around it. */
  function Strip(s: string): (r: string)
    ensures r != "" ==> !Space(r[0]) && !Space(r[|r| - 1])
    decreases |s|
  {
    if s == "" then ""
    else if Space(s[0]) then Strip(s[1..])
    else if Space(s[|s| - 1]) then Strip(s[..|s| - 1])
    else s
  }

  /** Stripping takes white space off both ends and nothing else. */
  lemma {:induction false} StripExactly(s: string) returns (start: nat)
    ensures start + |Strip(s)| <= |s| && Strip(s) == s[start..start + |Strip(s)|]
    ensures forall i :: 0 <= i < start || start + |Strip(s)| <= i < |s| ==> Space(s[i])
    decreases |s|
  {
    hide Space;
    if s == "" {
      start := 0;
    } else if Space(s[0]) {
      start := StripExactly(s[1..]);
      assert forall i :: 1 <= i < |s| ==> s[i] == s[1..][i - 1];
      start := start + 1;
    } else if Space(s[|s| - 1]) {
      start := StripExactly(s[..|s| - 1]);
      assert forall i :: 0 <= i < |s| - 1 ==> s[i] == s[..|s| - 1][i];
    } else {
      start := 0;
    }
  }

  /** The sum of the values of a finite map. */
  ghost function SumOf<K(!new)>(m: map<K, nat>): nat {
    if m == map[] then 0 else
    var k :| k in m;
    m[k] + SumOf(m - {k})
  }

  lemma {:induction false} SumSplit<K(!new)>(m: map<K, nat>, k: K)
    requires k in m
    ensures SumOf(m) == m[k] + SumOf(m - {k})
    decreases |m|
  {
    var j :| j in m && SumOf(m) == m[j] + SumOf(m - {j});
    if j != k {
      SumSplit(m - {j}, k);
      SumSplit(m - {k}, j);
      assert m - {j} - {k} == m - {k} - {j};
    }
  }

  /** Replacing one value moves the sum by the difference of the two values. */
  lemma SumUpdate<K(!new)>(m: map<K, nat>, k: K, v: nat)
    ensures SumOf(m[k := v]) == SumOf(m) - (if k in m then m[k] else 0) + v
  {
    var m' := m[k := v];
    SumSplit(m', k);
    if k in m {
      SumSplit(m, k);
      assert m' - {k} == m - {k};
    } else {
      assert m' - {k} == m;
    }
  }

  /** One value never exceeds the whole sum. */
  lemma SumBound<K(!new)>(m: map<K, nat>, k: K)
    requires k in m
    ensures m[k] <= SumOf(m)
  {
    SumSplit(m, k);
  }

  /** Fewer keys and smaller values make a smaller sum. */
  lemma {:induction false} SumShrinks<K(!new)>(small: map<K, nat>, large: map<K, nat>)
    requires forall k :: k in small ==> k in large && small[k] <= large[k]
    ensures SumOf(small) <= SumOf(large)
    decreases |small|
  {
    if small != map[] {
      var k :| k in small;
      SumSplit(small, k);
      SumSplit(large, k);
      SumShrinks(small - {k}, large - {k});
    }
  }

  lemma {:induction false} SubsetSize<T>(small: set<T>, large: set<T>)
    requires small <= large
    ensures |small| <= |large|
  {
    assert large == small + (large - small);
  }

  lemma {:induction false} Multiples(a: int, b: int, n: int)
    requires a >= b && n > 0
    ensures a * n >= b * n
  {
    assert (a - b) * n >= 0;
  }

  // ---------------------------------------------------------------- tables with fewer rows

  ghost predicate Submap<K, V>(small: map<K, V>, large: map<K, V>) {
    forall k :: k in small ==> k in large && small[k] == large[k]
  }

  lemma {:induction false} SubmapItself<K, V>(m: map<K, V>)
    ensures Submap(m, m)
  {
  }

  lemma {:induction false} SubmapTwice<K, V>(large: map<K, V>, middle: map<K, V>, small: map<K, V>)
    requires Submap(middle, large) && Submap(small, middle)
    ensures Submap(small, large)
  {
  }

  lemma {:induction false} SubmapInto<K, V>(small: map<K, V>, large: map<K, V>, k: K, v: V)
    requires Submap(small, large) && k in large && large[k] == v
    ensures Submap(small[k := v], large)
  {
  }

  lemma {:induction false} SubmapUpdated<K, V>(small: map<K, V>, large: map<K, V>, k: K, v: V)
    requires Submap(small, large)
    ensures Submap(small[k := v], large[k := v])
  {
  }
}
