/** The statistics `main` keeps over completed probes (http_ping.c:255-259, 314-325) and
    the percentages of its report (340-342).  Elapsed times are whole microseconds here
    where the source keeps `float` milliseconds (`delta_timeval(...) / 1000.0`). */
module Stats {

  /** The initial minimum and negated initial maximum: 1e9 ms, in microseconds. */
  const Sentinel: int := 1_000_000_000_000

  /** Running minimum, maximum and sum of one phase. */
  datatype PhaseStats = PhaseStats(min: int, max: int, sum: int)

  /** `min_* = 1000000000.0`, `max_* = -1000000000.0`, `sum_* = 0.0`. */
  const Initial: PhaseStats := PhaseStats(Sentinel, -Sentinel, 0)

  function Min(a: int, b: int): int { if a <= b then a else b }
  function Max(a: int, b: int): int { if a >= b then a else b }

  /** `min_x = min( min_x, e ); max_x = max( max_x, e ); sum_x += e;` */
  function Record(s: PhaseStats, e: int): PhaseStats {
    PhaseStats(Min(s.min, e), Max(s.max, e), s.sum + e)
  }

  /** The statistics after recording each of `es` in order. */
  function RecordAll(s: PhaseStats, es: seq<int>): PhaseStats
    decreases |es|
  {
    if es == [] then s else Record(RecordAll(s, es[..|es| - 1]), es[|es| - 1])
  }

  function Sum(es: seq<int>): int
    decreases |es|
  {
    if es == [] then 0 else Sum(es[..|es| - 1]) + es[|es| - 1]
  }

  function MinOf(es: seq<int>): int
    requires es != []
    decreases |es|
  {
    if |es| == 1 then es[0] else Min(MinOf(es[..|es| - 1]), es[|es| - 1])
  }

  function MaxOf(es: seq<int>): int
    requires es != []
    decreases |es|
  {
    if |es| == 1 then es[0] else Max(MaxOf(es[..|es| - 1]), es[|es| - 1])
  }

  lemma {:induction false} MinMaxOfBound(es: seq<int>)
    requires es != []
    ensures forall i :: 0 <= i < |es| ==> MinOf(es) <= es[i] <= MaxOf(es)
    ensures exists i :: 0 <= i < |es| && es[i] == MinOf(es)
    ensures exists i :: 0 <= i < |es| && es[i] == MaxOf(es)
    decreases |es|
  {
    if |es| > 1 {
      var init := es[..|es| - 1];
      MinMaxOfBound(init);
      assert forall i :: 0 <= i < |init| ==> es[i] == init[i];
      var last := |es| - 1;
      assert MinOf(es) == Min(MinOf(init), es[last]);
      assert MaxOf(es) == Max(MaxOf(init), es[last]);
      var j :| 0 <= j < |init| && init[j] == MinOf(init);
      var jm := if MinOf(es) == es[last] then last else j;
      assert es[jm] == MinOf(es);
      var k :| 0 <= k < |init| && init[k] == MaxOf(init);
      var km := if MaxOf(es) == es[last] then last else k;
      assert es[km] == MaxOf(es);
    } else {
      assert es[0] == MinOf(es) == MaxOf(es);
    }
  }

  /** The running values are the sentinels folded with the exact minimum, maximum and
      total of the recorded values. */
  lemma {:induction false} RecordAllIsExact(es: seq<int>)
    ensures RecordAll(Initial, es).sum == Sum(es)
    ensures es != [] ==> RecordAll(Initial, es).min == Min(Sentinel, MinOf(es))
    ensures es != [] ==> RecordAll(Initial, es).max == Max(-Sentinel, MaxOf(es))
    ensures es == [] ==> RecordAll(Initial, es) == Initial
    decreases |es|
  {
    if es != [] {
      RecordAllIsExact(es[..|es| - 1]);
    }
  }

  /** After k >= 1 completions: min <= every recorded value <= max, and the average
      sum / k lies between min and max (stated without division: min * k <= sum <= max * k). */
  lemma Bounds(es: seq<int>)
    requires es != []
    ensures var s := RecordAll(Initial, es);
            (forall i :: 0 <= i < |es| ==> s.min <= es[i] <= s.max) &&
            s.min * |es| <= s.sum <= s.max * |es|
  {
    RecordAllIsExact(es);
    MinMaxOfBound(es);
    SumBetween(es, MinOf(es), MaxOf(es));
  }

  lemma {:induction false} SumBetween(es: seq<int>, lo: int, hi: int)
    requires forall i :: 0 <= i < |es| ==> lo <= es[i] <= hi
    ensures lo * |es| <= Sum(es) <= hi * |es|
    decreases |es|
  {
    if es != [] {
      var init := es[..|es| - 1];
      var n := |init|;
      assert forall i :: 0 <= i < n ==> init[i] == es[i];
      SumBetween(init, lo, hi);
      assert Sum(es) == Sum(init) + es[n];
      assert lo * |es| == lo * n + lo;
      assert hi * |es| == hi * n + hi;
    }
  }

  /** When every value lies strictly between the sentinels, the reported minimum and
      maximum are the true ones; a value beyond 1e9 ms would be hidden by a sentinel. */
  lemma ExactWithinSentinels(es: seq<int>)
    requires es != []
    requires forall i :: 0 <= i < |es| ==> -Sentinel < es[i] < Sentinel
    ensures RecordAll(Initial, es).min == MinOf(es)
    ensures RecordAll(Initial, es).max == MaxOf(es)
  {
    RecordAllIsExact(es);
    MinMaxOfBound(es);
  }

  /** `n * 100 / count_started`: C integer division, which for these non-negative
      operands agrees with Dafny's. */
  function Percent(n: nat, started: nat): int
    requires started > 0
  {
    n * 100 / started
  }

  /** Each percentage is between 0 and 100, and the three of the report add up to at
      most 100 when the counters partition the started probes. */
  lemma PercentBounds(completed: nat, failures: nat, timeouts: nat, started: nat)
    requires started > 0 && started == completed + failures + timeouts
    ensures 0 <= Percent(completed, started) <= 100
    ensures 0 <= Percent(failures, started) <= 100
    ensures 0 <= Percent(timeouts, started) <= 100
    ensures Percent(completed, started) + Percent(failures, started) + Percent(timeouts, started) <= 100
  {
    DivAtMost(completed, started);
    DivAtMost(failures, started);
    DivAtMost(timeouts, started);
    PercentSum(completed, failures, timeouts, started);
  }

  lemma PercentSum(completed: nat, failures: nat, timeouts: nat, started: nat)
    requires started > 0 && started == completed + failures + timeouts
    ensures Percent(completed, started) + Percent(failures, started) + Percent(timeouts, started) <= 100
  {
    var a, b, c := completed * 100, failures * 100, timeouts * 100;
    assert a + b + c == started * 100;
    DivSum(a, b, c, started);
    DivAtMost(started, started);
  }

  lemma DivAtMost(n: nat, d: nat)
    requires d > 0 && n <= d
    ensures 0 <= n * 100 / d <= 100
  {
    assert d * (n * 100 / d) <= n * 100 <= d * 100;
    MulCancel(d, n * 100 / d, 101);
  }

  /** A positive factor can be cancelled from a strict inequality. */
  lemma MulCancel(d: int, q: int, m: int)
    requires d > 0 && d * q < d * m
    ensures q < m
  {
    assert d * (m - q) == d * m - d * q;
    assert d * (m - q) > 0;
  }

  /** `q` at most the quotient when `d * q` does not exceed the dividend. */
  lemma BelowQuotient(q: int, n: nat, d: nat)
    requires d > 0 && d * q <= n
    ensures q <= n / d
  {
    assert n < d * (n / d + 1);
    MulCancel(d, q, n / d + 1);
  }

  lemma DivSum(a: nat, b: nat, c: nat, d: nat)
    requires d > 0
    ensures a / d + b / d + c / d <= (a + b + c) / d
  {
    var q := a / d + b / d + c / d;
    assert d * q == d * (a / d) + d * (b / d) + d * (c / d);
    BelowQuotient(q, a + b + c, d);
  }
}
