/** The latency statistics of the load tester, over exact reals: interpolated
    order statistics and the summary built on them. */
module LoadTest {

  /***** Order statistics *****/

  predicate IsSorted(s: seq<real>) {
    forall i, j :: 0 <= i < j < |s| ==> s[i] <= s[j]
  }

  lemma ConsSorted(x: real, s: seq<real>)
    requires IsSorted(s) && (s != [] ==> x <= s[0])
    ensures IsSorted([x] + s)
  {
  }

  function Insert(x: real, s: seq<real>): (r: seq<real>)
    requires IsSorted(s)
    ensures IsSorted(r) && |r| == |s| + 1
    ensures r[0] == x || (s != [] && r[0] == s[0] < x)
  {
    if s == [] || x <= s[0] then
      ConsSorted(x, s);
      [x] + s
    else
      var rest := Insert(x, s[1..]);
      ConsSorted(s[0], rest);
      [s[0]] + rest
  }

  lemma {:induction false} InsertAdds(x: real, s: seq<real>)
    requires IsSorted(s)
    ensures multiset(Insert(x, s)) == multiset(s) + multiset{x}
  {
    if s != [] && s[0] < x {
      InsertAdds(x, s[1..]);
      assert s == [s[0]] + s[1..];
    }
  }

  function Sorted(values: seq<real>): (r: seq<real>)
    ensures IsSorted(r) && |r| == |values| && multiset(r) == multiset(values)
  {
    if values == [] then []
    else
      var (rest, last) := (Sorted(values[..|values| - 1]), values[|values| - 1]);
      assert values == values[..|values| - 1] + [last];
      InsertAdds(last, rest);
      Insert(last, rest)
  }

  lemma SameMembers(a: seq<real>, b: seq<real>, x: real)
    requires multiset(a) == multiset(b)
    ensures x in a <==> x in b
  {
    assert x in a <==> x in multiset(a);
    assert x in b <==> x in multiset(b);
  }

  lemma FirstIsLeast(s: seq<real>, values: seq<real>, low: real)
    requires IsSorted(s) && s != [] && multiset(s) == multiset(values)
    requires low in values && forall i :: 0 <= i < |values| ==> low <= values[i]
    ensures s[0] == low
  {
    SameMembers(s, values, s[0]);
    SameMembers(s, values, low);
    var i :| 0 <= i < |s| && s[i] == low;
    assert s[0] <= s[i];
  }

  lemma SameSize(a: seq<real>, b: seq<real>)
    requires multiset(a) == multiset(b)
    ensures |a| == |b|
  {
    assert |multiset(a)| == |a| && |multiset(b)| == |b|;
  }

  lemma TailElements(s: seq<real>)
    requires s != []
    ensures multiset(s[1..]) == multiset(s) - multiset{s[0]}
  {
    assert s == [s[0]] + s[1..];
  }

  lemma TailsAgree(a: seq<real>, b: seq<real>)
    requires multiset(a) == multiset(b) && a != [] && b != [] && a[0] == b[0]
    ensures multiset(a[1..]) == multiset(b[1..])
  {
    TailElements(a);
    TailElements(b);
  }

  lemma SameHeadAndTail(a: seq<real>, b: seq<real>)
    requires a != [] && b != [] && a[0] == b[0] && a[1..] == b[1..]
    ensures a == b
  {
    assert a == [a[0]] + a[1..] && b == [b[0]] + b[1..];
  }

  /** A multiset has only one sorted arrangement. */
  lemma {:induction false} SortedIsUnique(a: seq<real>, b: seq<real>)
    requires IsSorted(a) && IsSorted(b) && multiset(a) == multiset(b)
    ensures a == b
    decreases |a|
  {
    SameSize(a, b);
    if a != [] {
      FirstIsLeast(a, b, b[0]);
      TailsAgree(a, b);
      SortedIsUnique(a[1..], b[1..]);
      SameHeadAndTail(a, b);
    }
  }

  predicate Below(a: seq<real>, b: seq<real>) {
    |a| == |b| && forall i :: 0 <= i < |a| ==> a[i] <= b[i]
  }

  lemma BelowCons(x: real, a: seq<real>, y: real, b: seq<real>)
    requires x <= y && Below(a, b)
    ensures Below([x] + a, [y] + b)
  {
  }

  lemma {:induction false} InsertMonotone(x: real, s: seq<real>, y: real, t: seq<real>)
    requires IsSorted(s) && IsSorted(t) && Below(s, t) && x <= y
    ensures Below(Insert(x, s), Insert(y, t))
    decreases |s|
  {
    if s != [] {
      var (p, v) := if x <= s[0] then (x, s[0]) else (s[0], x);
      var (q, w) := if y <= t[0] then (y, t[0]) else (t[0], y);
      InsertMonotone(v, s[1..], w, t[1..]);
      InsertSplits(x, s);
      InsertSplits(y, t);
      BelowCons(p, Insert(v, s[1..]), q, Insert(w, t[1..]));
    }
  }

  /** Inserting puts the smaller of `x` and the head first. */
  lemma InsertSplits(x: real, s: seq<real>)
    requires IsSorted(s) && s != []
    ensures var (low, high) := if x <= s[0] then (x, s[0]) else (s[0], x);
            Insert(x, s) == [low] + Insert(high, s[1..])
  {
    assert s == [s[0]] + s[1..];
    if x <= s[0] {
      assert Insert(s[0], s[1..]) == [s[0]] + s[1..];
    }
  }

  /** Larger samples have larger order statistics, rank by rank. */
  lemma {:induction false} SortedMonotone(a: seq<real>, b: seq<real>)
    requires Below(a, b)
    ensures Below(Sorted(a), Sorted(b))
    decreases |a|
  {
    if a != [] {
      var n := |a| - 1;
      SortedMonotone(a[..n], b[..n]);
      InsertMonotone(a[n], Sorted(a[..n]), b[n], Sorted(b[..n]));
    }
  }

  /***** Interpolation *****/

  function Blend(a: real, b: real, weight: real): real {
    a * (1.0 - weight) + b * weight
  }

  lemma Nonnegative(x: real, y: real)
    requires x >= 0.0 && y >= 0.0
    ensures x * y >= 0.0
  {
  }

  lemma BlendBetween(a: real, b: real, weight: real)
    requires a <= b && 0.0 <= weight <= 1.0
    ensures a <= Blend(a, b, weight) <= b
  {
    Nonnegative(b - a, weight);
    Nonnegative(b - a, 1.0 - weight);
    assert Blend(a, b, weight) - a == (b - a) * weight;
    assert b - Blend(a, b, weight) == (b - a) * (1.0 - weight);
  }

  lemma BlendMonotone(a: real, b: real, v: real, w: real)
    requires a <= b && v <= w
    ensures Blend(a, b, v) <= Blend(a, b, w)
  {
    Nonnegative(b - a, w - v);
    assert Blend(a, b, w) - Blend(a, b, v) == (b - a) * (w - v);
  }

  lemma BlendPointwise(a: real, b: real, c: real, d: real, weight: real)
    requires a <= c && b <= d && 0.0 <= weight <= 1.0
    ensures Blend(a, b, weight) <= Blend(c, d, weight)
  {
    Nonnegative(c - a, 1.0 - weight);
    Nonnegative(d - b, weight);
    assert Blend(c, d, weight) - Blend(a, b, weight) == (c - a) * (1.0 - weight) + (d - b) * weight;
  }

  function Upper(lower: int, n: nat): int {
    if lower + 1 < n - 1 then lower + 1 else n - 1
  }

  /** The value at a fractional rank. */
  function AtRank(ordered: seq<real>, index: real): real
    requires ordered != [] && 0.0 <= index <= (|ordered| - 1) as real
  {
    var lower := index.Floor;
    Blend(ordered[lower], ordered[Upper(lower, |ordered|)], index - lower as real)
  }

  /** The fractional rank a percentage points to. */
  function Rank(n: nat, percent: real): (r: real)
    requires n > 0 && 0.0 <= percent <= 1.0
    ensures 0.0 <= r <= (n - 1) as real
    ensures percent == 0.0 ==> r == 0.0
    ensures percent == 1.0 ==> r == (n - 1) as real
  {
    var m := (n - 1) as real;
    Nonnegative(m, percent);
    Nonnegative(m, 1.0 - percent);
    assert m - m * percent == m * (1.0 - percent);
    m * percent
  }

  lemma RankMonotone(n: nat, low: real, high: real)
    requires n > 0 && 0.0 <= low <= high <= 1.0
    ensures Rank(n, low) <= Rank(n, high)
  {
    var m := (n - 1) as real;
    Nonnegative(m, high - low);
    assert m * high - m * low == m * (high - low);
  }

  function Percentile(values: seq<real>, percent: real): real
    requires 0.0 <= percent <= 1.0
  {
    if values == [] then 0.0 else AtRank(Sorted(values), Rank(|values|, percent))
  }

  /** `p` lies between the samples of the two ranks around `index`. */
  predicate Bracketed(s: seq<real>, index: real, p: real)
    requires s != [] && 0.0 <= index <= (|s| - 1) as real
  {
    var k := index.Floor;
    && s[k] <= p <= s[|s| - 1]
    && if k + 1 < |s| then p <= s[k + 1] else p == s[k]
  }

  lemma AtRankBetween(s: seq<real>, index: real)
    requires IsSorted(s) && s != [] && 0.0 <= index <= (|s| - 1) as real
    ensures Bracketed(s, index, AtRank(s, index))
  {
    var lower := index.Floor;
    BlendBetween(s[lower], s[Upper(lower, |s|)], index - lower as real);
  }

  /** The interpolation never falls, across rank boundaries included. */
  lemma AtRankMonotone(s: seq<real>, x: real, y: real)
    requires IsSorted(s) && s != [] && 0.0 <= x <= y <= (|s| - 1) as real
    ensures AtRank(s, x) <= AtRank(s, y)
  {
    if x.Floor == y.Floor {
      var lower := x.Floor;
      var upper := Upper(lower, |s|);
      BlendMonotone(s[lower], s[upper], x - lower as real, y - lower as real);
    } else {
      AtRankBetween(s, x);
      AtRankBetween(s, y);
      assert x.Floor + 1 <= y.Floor;
    }
  }

  lemma AtRankPointwise(s: seq<real>, t: seq<real>, index: real)
    requires Below(s, t) && s != [] && 0.0 <= index <= (|s| - 1) as real
    ensures AtRank(s, index) <= AtRank(t, index)
  {
    var lower := index.Floor;
    var upper := Upper(lower, |s|);
    BlendPointwise(s[lower], s[upper], t[lower], t[upper], index - lower as real);
  }

  /***** What the percentile promises *****/

  lemma SortedIgnoresOrder(a: seq<real>, b: seq<real>)
    requires multiset(a) == multiset(b)
    ensures Sorted(a) == Sorted(b) && |a| == |b|
  {
    SameSize(a, b);
    SortedIsUnique(Sorted(a), Sorted(b));
  }

  /** The order of the samples does not matter. */
  lemma PercentileIgnoresOrder(a: seq<real>, b: seq<real>, percent: real)
    requires multiset(a) == multiset(b) && 0.0 <= percent <= 1.0
    ensures Percentile(a, percent) == Percentile(b, percent)
  {
    SortedIgnoresOrder(a, b);
  }

  /** It lies between two samples that are neighbours in rank. */
  lemma PercentileIsBracketed(values: seq<real>, percent: real)
    requires values != [] && 0.0 <= percent <= 1.0
    ensures Bracketed(Sorted(values), Rank(|values|, percent), Percentile(values, percent))
  {
    AtRankBetween(Sorted(values), Rank(|values|, percent));
  }

  lemma PercentileMonotone(values: seq<real>, low: real, high: real)
    requires 0.0 <= low <= high <= 1.0
    ensures Percentile(values, low) <= Percentile(values, high)
  {
    if values != [] {
      RankMonotone(|values|, low, high);
      AtRankMonotone(Sorted(values), Rank(|values|, low), Rank(|values|, high));
    }
  }

  /** Slower samples never lower a percentile. */
  lemma PercentilePointwise(a: seq<real>, b: seq<real>, percent: real)
    requires Below(a, b) && 0.0 <= percent <= 1.0
    ensures Percentile(a, percent) <= Percentile(b, percent)
  {
    if a != [] {
      SortedMonotone(a, b);
      AtRankPointwise(Sorted(a), Sorted(b), Rank(|a|, percent));
    }
  }

  lemma BlendMixes(a: real, b: real, v: real, w: real, mix: real)
    ensures Blend(a, b, Blend(v, w, mix)) == Blend(Blend(a, b, v), Blend(a, b, w), mix)
  {
    var d := b - a;
    BlendIs(a, b, v);
    BlendIs(a, b, w);
    BlendIs(a, b, Blend(v, w, mix));
    BlendIs(v, w, mix);
    BlendIs(Blend(a, b, v), Blend(a, b, w), mix);
    calc {
      d * (v + (w - v) * mix);
      d * v + d * ((w - v) * mix);
      { Regroup(d, w - v, mix); }
      d * v + (d * (w - v)) * mix;
      { assert d * (w - v) == d * w - d * v; }
      d * v + (d * w - d * v) * mix;
    }
  }

  lemma Regroup(x: real, y: real, z: real)
    ensures x * (y * z) == (x * y) * z
  {
  }

  lemma BlendIs(a: real, b: real, weight: real)
    ensures Blend(a, b, weight) == a + (b - a) * weight
  {
  }

  /** A rank within one step above `lower` blends the samples at its ends. */
  lemma AtRankBlends(s: seq<real>, lower: nat, index: real)
    requires lower + 1 < |s| && lower as real <= index <= (lower + 1) as real
    ensures AtRank(s, index) == Blend(s[lower], s[lower + 1], index - lower as real)
  {
    if index == (lower + 1) as real {
      assert index.Floor == lower + 1;
    }
  }

  lemma BlendShift(x: real, y: real, mix: real, base: real)
    ensures Blend(x, y, mix) - base == Blend(x - base, y - base, mix)
  {
    BlendIs(x, y, mix);
    BlendIs(x - base, y - base, mix);
  }

  lemma AtRankMixes(s: seq<real>, lower: nat, x: real, y: real, m: real, mix: real)
    requires lower + 1 < |s| && lower as real <= x <= y <= (lower + 1) as real && 0.0 <= mix <= 1.0
    requires m == Blend(x, y, mix)
    ensures 0.0 <= m <= (|s| - 1) as real && AtRank(s, m) == Blend(AtRank(s, x), AtRank(s, y), mix)
  {
    var base := lower as real;
    BlendBetween(x, y, mix);
    AtRankBlends(s, lower, x);
    AtRankBlends(s, lower, y);
    AtRankBlends(s, lower, m);
    BlendShift(x, y, mix, base);
    BlendMixes(s[lower], s[lower + 1], x - base, y - base, mix);
  }

  lemma RankMixes(n: nat, low: real, high: real, mix: real)
    requires n > 0 && 0.0 <= low <= high <= 1.0 && 0.0 <= mix <= 1.0
    ensures 0.0 <= Blend(low, high, mix) <= 1.0
    ensures Rank(n, Blend(low, high, mix)) == Blend(Rank(n, low), Rank(n, high), mix)
  {
    var m := (n - 1) as real;
    BlendBetween(low, high, mix);
    ScaledBlend(m, low, high, mix);
  }

  lemma ScaledBlend(m: real, x: real, y: real, mix: real)
    ensures m * Blend(x, y, mix) == Blend(m * x, m * y, mix)
  {
    Regroup(m, x, 1.0 - mix);
    Regroup(m, y, mix);
    assert m * (x * (1.0 - mix) + y * mix) == m * (x * (1.0 - mix)) + m * (y * mix);
  }

  /** From a rank to the next the percentile is linear, both ranks included. */
  lemma PercentileIsLinear(values: seq<real>, k: nat, low: real, high: real, mix: real)
    requires k + 1 < |values| && 0.0 <= low <= high <= 1.0 && 0.0 <= mix <= 1.0
    requires k as real <= Rank(|values|, low) && Rank(|values|, high) <= (k + 1) as real
    ensures 0.0 <= Blend(low, high, mix) <= 1.0
    ensures Percentile(values, Blend(low, high, mix)) == Blend(Percentile(values, low), Percentile(values, high), mix)
  {
    RankMonotone(|values|, low, high);
    RankMixes(|values|, low, high, mix);
    AtRankMixes(Sorted(values), k, Rank(|values|, low), Rank(|values|, high),
                Rank(|values|, Blend(low, high, mix)), mix);
  }

  lemma AtRankExact(s: seq<real>, k: nat)
    requires k < |s|
    ensures AtRank(s, k as real) == s[k]
  {
  }

  /** At a rank it is the sample of that rank. */
  lemma PercentileAtRank(values: seq<real>, percent: real, k: nat)
    requires 0.0 <= percent <= 1.0 && k < |values| && Rank(|values|, percent) == k as real
    ensures Percentile(values, percent) == Sorted(values)[k]
  {
    AtRankExact(Sorted(values), k);
  }

  /***** The summary *****/

  function Least(values: seq<real>): (r: real)
    ensures values != [] ==> r in values && forall i :: 0 <= i < |values| ==> r <= values[i]
  {
    if values == [] then 0.0
    else if |values| == 1 then values[0]
    else
      var rest := Least(values[1..]);
      assert forall i :: 0 < i < |values| ==> values[i] == values[1..][i - 1];
      if values[0] <= rest then values[0] else rest
  }

  function Greatest(values: seq<real>): (r: real)
    ensures values != [] ==> r in values && forall i :: 0 <= i < |values| ==> values[i] <= r
  {
    if values == [] then 0.0
    else if |values| == 1 then values[0]
    else
      var rest := Greatest(values[1..]);
      assert forall i :: 0 < i < |values| ==> values[i] == values[1..][i - 1];
      if rest <= values[0] then values[0] else rest
  }

  function Sum(values: seq<real>): real {
    if values == [] then 0.0 else Sum(values[..|values| - 1]) + values[|values| - 1]
  }

  function Mean(values: seq<real>): real {
    if values == [] then 0.0 else Sum(values) / |values| as real
  }

  lemma LastIsGreatest(s: seq<real>, values: seq<real>, high: real)
    requires IsSorted(s) && s != [] && multiset(s) == multiset(values)
    requires high in values && forall i :: 0 <= i < |values| ==> values[i] <= high
    ensures s[|s| - 1] == high
  {
    var last := s[|s| - 1];
    SameMembers(s, values, last);
    SameMembers(s, values, high);
    var i :| 0 <= i < |s| && s[i] == high;
    assert s[i] <= last;
  }

  lemma SortedEnds(values: seq<real>)
    requires values != []
    ensures Sorted(values)[0] == Least(values) && Sorted(values)[|values| - 1] == Greatest(values)
  {
    FirstIsLeast(Sorted(values), values, Least(values));
    LastIsGreatest(Sorted(values), values, Greatest(values));
  }

  lemma AtRankEnds(s: seq<real>)
    requires s != []
    ensures AtRank(s, 0.0) == s[0] && AtRank(s, (|s| - 1) as real) == s[|s| - 1]
  {
  }

  /** The extreme percentiles are the extreme samples. */
  lemma PercentileEnds(values: seq<real>)
    ensures Percentile(values, 0.0) == Least(values)
    ensures Percentile(values, 1.0) == Greatest(values)
  {
    if values != [] {
      SortedEnds(values);
      AtRankEnds(Sorted(values));
      assert Rank(|values|, 0.0) == 0.0;
      assert Rank(|values|, 1.0) == (|values| - 1) as real;
    }
  }

  lemma {:induction false} SumBetween(values: seq<real>, low: real, high: real)
    requires forall i :: 0 <= i < |values| ==> low <= values[i] <= high
    ensures low * |values| as real <= Sum(values) <= high * |values| as real
  {
    if values != [] {
      var n := |values| - 1;
      SumBetween(values[..n], low, high);
      assert |values| as real == n as real + 1.0;
    }
  }

  lemma DivideBetween(low: real, total: real, high: real, n: real)
    requires n > 0.0 && low * n <= total <= high * n
    ensures low <= total / n <= high
  {
    assert total == total / n * n;
  }

  lemma MeanWithin(values: seq<real>, low: real, high: real)
    requires values != [] && forall i :: 0 <= i < |values| ==> low <= values[i] <= high
    ensures low <= Mean(values) <= high
  {
    SumBetween(values, low, high);
    DivideBetween(low, Sum(values), high, |values| as real);
  }

  lemma MeanBetween(values: seq<real>)
    ensures Least(values) <= Mean(values) <= Greatest(values)
  {
    if values != [] {
      MeanWithin(values, Least(values), Greatest(values));
    }
  }

  /** One submission; `error` is empty for none. */
  datatype Submission = Submission(success: bool, latency: real, error: string)

  datatype Summary = Summary(
    attempted: nat, successful: nat, failed: int, perSecond: real,
    min: real, mean: real, p50: real, p95: real, p99: real, max: real, errors: seq<string>)

  const ERRORS_SHOWN: nat := 10

  function Latencies(results: seq<Submission>): seq<real> {
    seq(|results|, i requires 0 <= i < |results| => results[i].latency)
  }

  function Successes(results: seq<Submission>): (r: nat)
    ensures r <= |results|
  {
    if results == [] then 0
    else Successes(results[..|results| - 1]) + if results[|results| - 1].success then 1 else 0
  }

  function SuccessfulAt(results: seq<Submission>): set<nat> {
    set i | 0 <= i < |results| && results[i].success
  }

  lemma {:induction false} SuccessesCounts(results: seq<Submission>)
    ensures Successes(results) == |SuccessfulAt(results)|
  {
    if results != [] {
      var n := |results| - 1;
      SuccessesCounts(results[..n]);
      assert SuccessfulAt(results) == SuccessfulAt(results[..n]) + if results[n].success then {n} else {};
    }
  }

  function Errors(results: seq<Submission>): seq<string> {
    if results == [] then []
    else
      var last := results[|results| - 1].error;
      Errors(results[..|results| - 1]) + if last != "" then [last] else []
  }

  /** Where the errors are, in order. */
  function ErrorsAt(results: seq<Submission>): seq<nat> {
    if results == [] then []
    else
      var n := |results| - 1;
      ErrorsAt(results[..n]) + if results[n].error != "" then [n] else []
  }

  /** `at` lists exactly the submissions with an error, each once and in order. */
  ghost predicate LocatesErrors(results: seq<Submission>, at: seq<nat>) {
    && (forall j :: 0 <= j < |at| ==> at[j] < |results| && results[at[j]].error != "")
    && (forall i, j :: 0 <= i < j < |at| ==> at[i] < at[j])
    && (forall i :: 0 <= i < |results| && results[i].error != "" ==> i in at)
  }

  lemma {:induction false} ErrorsAreLocated(results: seq<Submission>)
    ensures LocatesErrors(results, ErrorsAt(results))
  {
    if results != [] {
      var n := |results| - 1;
      var rest := ErrorsAt(results[..n]);
      ErrorsAreLocated(results[..n]);
      forall i | 0 <= i < |results| && results[i].error != "" ensures i in ErrorsAt(results) {
        assert i < n ==> results[..n][i] == results[i];
      }
      assert forall j :: 0 <= j < |rest| ==> results[..n][rest[j]] == results[rest[j]];
    }
  }

  lemma {:induction false} ErrorsAreThere(results: seq<Submission>)
    ensures |Errors(results)| == |ErrorsAt(results)|
    ensures forall j :: 0 <= j < |Errors(results)| ==>
              ErrorsAt(results)[j] < |results| && Errors(results)[j] == results[ErrorsAt(results)[j]].error
  {
    if results != [] {
      ErrorsAreThere(results[..|results| - 1]);
    }
  }

  function Summarize(results: seq<Submission>, duration: real): Summary {
    var latencies := Latencies(results);
    var errors := Errors(results);
    Summary(
      |results|, Successes(results), |results| - Successes(results),
      if duration != 0.0 then |results| as real / duration else 0.0,
      Least(latencies), Mean(latencies),
      Percentile(latencies, 0.50), Percentile(latencies, 0.95), Percentile(latencies, 0.99),
      Greatest(latencies),
      if |errors| <= ERRORS_SHOWN then errors else errors[..ERRORS_SHOWN])
  }

  /** The summary shows the first ten errors, in the order of the submissions. */
  lemma SummaryShowsErrors(results: seq<Submission>, duration: real)
    ensures var (shown, at) := (Summarize(results, duration).errors, ErrorsAt(results));
            && LocatesErrors(results, at)
            && |shown| == (if |at| < ERRORS_SHOWN then |at| else ERRORS_SHOWN)
            && forall j :: 0 <= j < |shown| ==> shown[j] == results[at[j]].error
  {
    ErrorsAreLocated(results);
    ErrorsAreThere(results);
  }

  /***** What the reported numbers mean *****/

  function CountAtMost(values: seq<real>, p: real): nat {
    if values == [] then 0
    else CountAtMost(values[..|values| - 1], p) + if values[|values| - 1] <= p then 1 else 0
  }

  function CountAtLeast(values: seq<real>, p: real): nat {
    if values == [] then 0
    else CountAtLeast(values[..|values| - 1], p) + if p <= values[|values| - 1] then 1 else 0
  }

  lemma {:induction false} CountInserted(s: seq<real>, x: real, p: real)
    requires IsSorted(s)
    ensures CountAtMost(Insert(x, s), p) == CountAtMost(s, p) + if x <= p then 1 else 0
    ensures CountAtLeast(Insert(x, s), p) == CountAtLeast(s, p) + if p <= x then 1 else 0
  {
    if s == [] || x <= s[0] {
      CountJoined([x], s, p);
    } else {
      var rest := Insert(x, s[1..]);
      CountInserted(s[1..], x, p);
      CountJoined([s[0]], rest, p);
      CountJoined([s[0]], s[1..], p);
      assert s == [s[0]] + s[1..];
    }
  }

  lemma {:induction false} CountJoined(a: seq<real>, b: seq<real>, p: real)
    ensures CountAtMost(a + b, p) == CountAtMost(a, p) + CountAtMost(b, p)
    ensures CountAtLeast(a + b, p) == CountAtLeast(a, p) + CountAtLeast(b, p)
    decreases |b|
  {
    if b == [] {
      assert a + b == a;
    } else {
      var n := |b| - 1;
      assert (a + b)[..|a + b| - 1] == a + b[..n];
      CountJoined(a, b[..n], p);
    }
  }

  lemma {:induction false} CountSorted(values: seq<real>, p: real)
    ensures CountAtMost(Sorted(values), p) == CountAtMost(values, p)
    ensures CountAtLeast(Sorted(values), p) == CountAtLeast(values, p)
    decreases |values|
  {
    if values != [] {
      var n := |values| - 1;
      CountSorted(values[..n], p);
      CountInserted(Sorted(values[..n]), values[n], p);
    }
  }

  lemma {:induction false} AllAtMost(s: seq<real>, p: real)
    requires forall i :: 0 <= i < |s| ==> s[i] <= p
    ensures CountAtMost(s, p) == |s|
  {
    if s != [] {
      AllAtMost(s[..|s| - 1], p);
    }
  }

  lemma {:induction false} AllAtLeast(s: seq<real>, p: real)
    requires forall i :: 0 <= i < |s| ==> p <= s[i]
    ensures CountAtLeast(s, p) == |s|
  {
    if s != [] {
      AllAtLeast(s[..|s| - 1], p);
    }
  }

  lemma CountUpTo(s: seq<real>, k: nat, p: real)
    requires IsSorted(s) && k < |s| && s[k] <= p
    ensures CountAtMost(s, p) >= k + 1
  {
    var (low, high) := (s[..k + 1], s[k + 1..]);
    assert forall i :: 0 <= i < |low| ==> low[i] <= p by {
      assert forall i :: 0 <= i < |low| ==> low[i] == s[i] <= s[k];
    }
    AllAtMost(low, p);
    CountJoined(low, high, p);
    assert s == low + high;
  }

  lemma CountFrom(s: seq<real>, k: nat, p: real)
    requires IsSorted(s) && k < |s| && p <= s[k]
    ensures CountAtLeast(s, p) >= |s| - k
  {
    var (low, high) := (s[..k], s[k..]);
    assert forall i :: 0 <= i < |high| ==> p <= high[i] by {
      assert forall i :: 0 <= i < |high| ==> high[i] == s[k + i] >= s[k];
    }
    AllAtLeast(high, p);
    CountJoined(low, high, p);
    assert s == low + high;
  }

  function Ceiling(x: real): int {
    if x.Floor as real == x then x.Floor else x.Floor + 1
  }

  lemma BracketCounts(s: seq<real>, index: real, p: real)
    requires IsSorted(s) && s != [] && 0.0 <= index <= (|s| - 1) as real && p == AtRank(s, index)
    ensures CountAtMost(s, p) >= index.Floor + 1
    ensures CountAtLeast(s, p) >= |s| - Ceiling(index)
  {
    var k := index.Floor;
    AtRankBetween(s, index);
    CountUpTo(s, k, p);
    if k as real == index {
      AtRankExact(s, k);
      CountFrom(s, k, p);
    } else {
      CountFrom(s, k + 1, p);
    }
  }

  /** Enough samples for `rank`, counted from 0, are at most `p`, and the rest at
      least. */
  predicate ValuesAround(values: seq<real>, p: real, rank: real) {
    CountAtMost(values, p) >= rank.Floor + 1 && CountAtLeast(values, p) >= |values| - Ceiling(rank)
  }

  /** The place of the share `percent` among `n` samples, counted from 0. */
  function Place(n: nat, percent: real): real {
    (n - 1) as real * percent
  }

  /** `p` splits the samples at the share `percent`. */
  predicate SplitsValues(values: seq<real>, p: real, percent: real) {
    ValuesAround(values, p, Place(|values|, percent))
  }

  lemma PercentileSplits(values: seq<real>, percent: real)
    requires values != [] && 0.0 <= percent <= 1.0
    ensures SplitsValues(values, Percentile(values, percent), percent)
  {
    var p := Percentile(values, percent);
    BracketCounts(Sorted(values), Rank(|values|, percent), p);
    CountSorted(values, p);
  }

  /** The submissions with these latencies. */
  function AtMost(results: seq<Submission>, p: real): set<nat> {
    set i | 0 <= i < |results| && results[i].latency <= p
  }

  function AtLeast(results: seq<Submission>, p: real): set<nat> {
    set i | 0 <= i < |results| && p <= results[i].latency
  }

  lemma {:induction false} AtMostCounted(results: seq<Submission>, p: real)
    ensures CountAtMost(Latencies(results), p) == |AtMost(results, p)|
  {
    if results != [] {
      var n := |results| - 1;
      assert Latencies(results)[..n] == Latencies(results[..n]);
      AtMostCounted(results[..n], p);
      assert AtMost(results, p) == AtMost(results[..n], p) + if results[n].latency <= p then {n} else {};
    }
  }

  lemma {:induction false} AtLeastCounted(results: seq<Submission>, p: real)
    ensures CountAtLeast(Latencies(results), p) == |AtLeast(results, p)|
  {
    if results != [] {
      var n := |results| - 1;
      assert Latencies(results)[..n] == Latencies(results[..n]);
      AtLeastCounted(results[..n], p);
      assert AtLeast(results, p) == AtLeast(results[..n], p) + if p <= results[n].latency then {n} else {};
    }
  }

  ghost predicate ResultsAround(results: seq<Submission>, p: real, rank: real) {
    |AtMost(results, p)| >= rank.Floor + 1 && |AtLeast(results, p)| >= |results| - Ceiling(rank)
  }

  /** `p` splits the latencies at the share `percent`: of n, at least as many as the
      rank (n - 1) * percent rounded down and one more are at most `p`, and at least n
      less that rank rounded up are at least `p`. */
  ghost predicate SplitsAt(results: seq<Submission>, p: real, percent: real) {
    ResultsAround(results, p, Place(|results|, percent))
  }

  lemma AroundCounted(results: seq<Submission>, p: real, rank: real)
    requires ValuesAround(Latencies(results), p, rank)
    ensures ResultsAround(results, p, rank)
  {
    AtMostCounted(results, p);
    AtLeastCounted(results, p);
  }

  lemma SplitCounted(results: seq<Submission>, p: real, percent: real)
    requires SplitsValues(Latencies(results), p, percent)
    ensures SplitsAt(results, p, percent)
  {
    AroundCounted(results, p, Place(|results|, percent));
  }

  lemma LatenciesSplit(results: seq<Submission>, percent: real)
    requires results != [] && 0.0 <= percent <= 1.0
    ensures SplitsAt(results, Percentile(Latencies(results), percent), percent)
  {
    PercentileSplits(Latencies(results), percent);
    SplitCounted(results, Percentile(Latencies(results), percent), percent);
  }

  /** The median, 95th and 99th percentile of the summary split the latencies at
      their shares. */
  lemma SummarySplits(results: seq<Submission>, duration: real)
    requires results != []
    ensures var s := Summarize(results, duration);
            SplitsAt(results, s.p50, 0.50) && SplitsAt(results, s.p95, 0.95) && SplitsAt(results, s.p99, 0.99)
  {
    LatenciesSplit(results, 0.50);
    LatenciesSplit(results, 0.95);
    LatenciesSplit(results, 0.99);
  }

  /** `total` adds up the latencies from the first to the last. */
  ghost predicate AddsUp(results: seq<Submission>, totals: seq<real>) {
    && |totals| == |results| + 1 && totals[0] == 0.0
    && forall i :: 0 <= i < |results| ==> totals[i + 1] == totals[i] + results[i].latency
  }

  lemma {:induction false} SumAddsUp(results: seq<Submission>) returns (totals: seq<real>)
    ensures AddsUp(results, totals) && totals[|results|] == Sum(Latencies(results))
  {
    if results == [] {
      totals := [0.0];
    } else {
      var n := |results| - 1;
      assert Latencies(results)[..n] == Latencies(results[..n]);
      var rest := SumAddsUp(results[..n]);
      totals := rest + [rest[n] + results[n].latency];
    }
  }

  lemma Quotient(x: real, y: real)
    requires y != 0.0
    ensures x / y * y == x
  {
  }

  /** The total of the latencies is `mean` for each submission. */
  ghost predicate IsMean(results: seq<Submission>, totals: seq<real>, mean: real) {
    AddsUp(results, totals) && mean * |results| as real == totals[|results|]
  }

  lemma MeanIsMean(results: seq<Submission>) returns (totals: seq<real>)
    ensures IsMean(results, totals, Mean(Latencies(results)))
  {
    totals := SumAddsUp(results);
    if results != [] {
      Quotient(Sum(Latencies(results)), |results| as real);
    }
  }

  lemma SummaryMean(results: seq<Submission>, duration: real) returns (totals: seq<real>)
    ensures IsMean(results, totals, Summarize(results, duration).mean)
  {
    totals := MeanIsMean(results);
  }

  /** `rate` submissions in each unit of `duration`; none if no time passed. */
  predicate IsRate(n: nat, duration: real, rate: real) {
    if duration == 0.0 then rate == 0.0 else rate * duration == n as real
  }

  lemma RateIsRate(n: nat, duration: real)
    ensures IsRate(n, duration, if duration != 0.0 then n as real / duration else 0.0)
  {
    if duration != 0.0 {
      Quotient(n as real, duration);
    }
  }

  lemma SummaryRate(results: seq<Submission>, duration: real)
    ensures Summarize(results, duration).attempted == |results|
    ensures IsRate(|results|, duration, Summarize(results, duration).perSecond)
  {
    RateIsRate(|results|, duration);
  }

  predicate Extremes(results: seq<Submission>, low: real, high: real) {
    && (forall i :: 0 <= i < |results| ==> low <= results[i].latency <= high)
    && (exists i :: 0 <= i < |results| && results[i].latency == low)
    && (exists i :: 0 <= i < |results| && results[i].latency == high)
  }

  lemma LatenciesExtremes(results: seq<Submission>)
    requires results != []
    ensures Extremes(results, Least(Latencies(results)), Greatest(Latencies(results)))
  {
    var latencies := Latencies(results);
    var i :| 0 <= i < |latencies| && latencies[i] == Least(latencies);
    var j :| 0 <= j < |latencies| && latencies[j] == Greatest(latencies);
    assert results[i].latency == Least(latencies) && results[j].latency == Greatest(latencies);
    forall k | 0 <= k < |results| ensures Least(latencies) <= results[k].latency <= Greatest(latencies) {
      assert latencies[k] == results[k].latency;
    }
  }

  /** The least and the greatest latency are attained; without submissions all
      statistics are zero. */
  lemma SummaryExtremes(results: seq<Submission>, duration: real)
    ensures var s := Summarize(results, duration);
            if results == [] then s.min == s.mean == s.p50 == s.p95 == s.p99 == s.max == 0.0
            else Extremes(results, s.min, s.max)
  {
    if results != [] {
      LatenciesExtremes(results);
    }
  }

  /** The reported statistics are in order, for no samples at all too. */
  lemma SummaryIsOrdered(results: seq<Submission>, duration: real)
    ensures var s := Summarize(results, duration);
            && s.min <= s.p50 <= s.p95 <= s.p99 <= s.max
            && s.min <= s.mean <= s.max
            && 0 <= s.failed && s.successful + s.failed == s.attempted && s.successful == |SuccessfulAt(results)|
  {
    SuccessesCounts(results);
    var latencies := Latencies(results);
    PercentileEnds(latencies);
    PercentileMonotone(latencies, 0.0, 0.50);
    PercentileMonotone(latencies, 0.50, 0.95);
    PercentileMonotone(latencies, 0.95, 0.99);
    PercentileMonotone(latencies, 0.99, 1.0);
    MeanBetween(latencies);
  }
}
