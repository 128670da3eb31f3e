// Spending statistics: the trend loop and the anomaly threshold, in exact arithmetic.
module Nudge {
  import opened Wrappers
  import opened Money
  import opened Sums

  // ---------- Trends ----------

  /** The moving average of three values from k on. */
  function Average(x: seq<real>, k: nat): real
    requires k + 3 <= |x|
  {
    (x[k] + x[k + 1] + x[k + 2]) / 3.0
  }

  lemma AverageRises(x: seq<real>, k: nat)
    requires k + 4 <= |x|
    ensures Average(x, k + 1) > Average(x, k) <==> x[k + 3] > x[k]
  {
  }

  /** How the counter stands after the first i averages were compared. */
  predicate Counted(ma: seq<real>, i: nat, consecutive: nat)
    requires 1 <= i <= |ma|
  {
    && (consecutive >= 1 <==> i >= 2 && ma[i - 1] > ma[i - 2])
    && (consecutive >= 2 <==> i >= 3 && ma[i - 1] > ma[i - 2] && ma[i - 2] > ma[i - 3])
  }

  method CountRises(ma: seq<real>) returns (consecutive: nat)
    requires |ma| >= 2
    ensures Counted(ma, |ma|, consecutive)
  {
    consecutive := 0;
    var i := 1;
    while i < |ma|
      invariant 1 <= i <= |ma| && Counted(ma, i, consecutive)
    {
      if ma[i] > ma[i - 1] {
        consecutive := consecutive + 1;
      } else {
        consecutive := 0;
      }
      i := i + 1;
    }
  }

  /**
   * Flags an upward trend. The loop over moving averages with its resetting counter comes to this: the list has
   * five values at least, the last exceeds the fourth last, and the one before it the fifth last.
   */
  method TrendDetection(dailyAvg: seq<real>) returns (flagged: bool)
    ensures var n := |dailyAvg|;
            flagged <==> n >= 5 && dailyAvg[n - 1] > dailyAvg[n - 4] && dailyAvg[n - 2] > dailyAvg[n - 5]
  {
    if |dailyAvg| < 4 {
      return false;
    }
    var ma: seq<real> := [];
    var i := 0;
    while i <= |dailyAvg| - 3
      invariant 0 <= i <= |dailyAvg| - 2 && |ma| == i
      invariant forall k :: 0 <= k < i ==> ma[k] == Average(dailyAvg, k)
    {
      ma := ma + [Average(dailyAvg, i)];
      i := i + 1;
    }
    if |ma| < 2 {
      return false;
    }
    var consecutive := CountRises(ma);
    AverageRises(dailyAvg, |dailyAvg| - 4);
    if |dailyAvg| >= 5 {
      AverageRises(dailyAvg, |dailyAvg| - 5);
    }
    flagged := consecutive >= 2;
  }

  // ---------- Mean and variance ----------

  function Total(vals: seq<Sen>): int {
    if vals == [] then 0 else Total(vals[..|vals| - 1]) + vals[|vals| - 1]
  }

  /** The sum of squared deviations from m. */
  function Squares(vals: seq<Sen>, m: real): real {
    if vals == [] then 0.0
    else Squares(vals[..|vals| - 1], m) + Deviation(vals[|vals| - 1], m)
  }

  /** The squared deviation of one value. */
  function Deviation(v: Sen, m: real): real {
    var d := v as real - m;
    d * d
  }

  /** The mean, and the variance whose root is the sample standard deviation. */
  datatype Stats = Stats(mean: real, variance: real)

  function Product(x: real, y: real): real {
    x * y
  }

  function Quotient(x: real, n: real): (r: real)
    requires n != 0.0
    ensures Product(n, r) == x
  {
    QuotientTimes(x, n);
    x / n
  }

  /** The total is a wrapping 64-bit sum. */
  function MeanOf(vals: seq<Sen>): real
    requires |vals| >= 2
  {
    Quotient(Wrap64(Total(vals)) as real, |vals| as real)
  }

  function VarianceAround(vals: seq<Sen>, mean: real): real
    requires |vals| >= 2
  {
    Quotient(Squares(vals, mean), |vals| as real - 1.0)
  }

  function StatsOf(vals: seq<Sen>): Stats {
    if |vals| < 2 then Stats(0.0, 0.0) else Stats(MeanOf(vals), VarianceAround(vals, MeanOf(vals)))
  }

  method ComputeStats(vals: seq<Sen>) returns (s: Stats)
    ensures s == StatsOf(vals)
  {
    if |vals| < 2 {
      return Stats(0.0, 0.0);
    }
    var sum: Sen := 0;
    var i := 0;
    while i < |vals|
      invariant 0 <= i <= |vals| && sum == Wrap64(Total(vals[..i]))
    {
      assert vals[..i + 1][..i] == vals[..i];
      WrapAdd(Total(vals[..i]), vals[i]);
      sum := Wrap64(sum + vals[i]);
      i := i + 1;
    }
    assert vals[..|vals|] == vals;
    var mean := Quotient(sum as real, |vals| as real);
    var sumSq := 0.0;
    i := 0;
    while i < |vals|
      invariant 0 <= i <= |vals| && sumSq == Squares(vals[..i], mean)
    {
      assert vals[..i + 1][..i] == vals[..i];
      var d := vals[i] as real - mean;
      assert d * d == Deviation(vals[i], mean);
      sumSq := sumSq + d * d;
      i := i + 1;
    }
    return Stats(mean, Quotient(sumSq, |vals| as real - 1.0));
  }

  // ---------- What mean and variance are ----------

  function Value(): (f: Sen -> int)
    ensures forall v: Sen :: f(v) == v
  {
    (v: Sen) => v
  }

  function Square(): (f: Sen -> int)
    ensures forall v: Sen :: f(v) == v * v
  {
    (v: Sen) => v as int * v as int
  }

  lemma {:induction false} TotalIsSum(vals: seq<Sen>)
    ensures Total(vals) == Sum(vals, Value())
  {
    if vals != [] {
      TotalIsSum(vals[..|vals| - 1]);
    }
  }

  /** The sum of n squared deviations from m, from the sum and the sum of squares of the values. */
  function Expanded(n: real, squares: real, sum: real, m: real): real {
    squares - 2.0 * (m * sum) + n * (m * m)
  }

  lemma ExpandedStep(n: real, squares: real, sum: real, m: real, v: real, d: real)
    requires d == v - m
    ensures Expanded(n + 1.0, squares + v * v, sum + v, m) == Expanded(n, squares, sum, m) + d * d
  {
    assert d * d == v * v - 2.0 * (m * v) + m * m;
    assert m * (sum + v) == m * sum + m * v;
    OneMore(n, m * m);
  }

  lemma ExpandedNone(m: real)
    ensures Expanded(0.0, 0.0, 0.0, m) == 0.0
  {
    assert m * 0.0 == 0.0;
    assert 0.0 * (m * m) == 0.0;
  }

  /**
   * The sum of the squared deviations from any m is the sum of the squares, less twice m times the sum, plus n times
   * the square of m.
   */
  lemma {:induction false} SquaresExpand(vals: seq<Sen>, m: real)
    ensures Squares(vals, m) == Expanded(|vals| as real, Sum(vals, Square()) as real, Sum(vals, Value()) as real, m)
  {
    if vals != [] {
      var n, v := |vals| - 1, vals[|vals| - 1];
      SquaresExpand(vals[..n], m);
      ExpandStep(vals[..n], v, m, Sum(vals[..n], Square()), Sum(vals[..n], Value()));
      assert |vals[..n]| == n;
    } else {
      ExpandedNone(m);
    }
  }

  lemma RealSquare(v: int)
    ensures (v * v) as real == v as real * v as real
  {
  }

  lemma ExpandStep(front: seq<Sen>, v: Sen, m: real, squares: int, sum: int)
    ensures Expanded((|front| + 1) as real, (squares + v * v) as real, (sum + v) as real, m) ==
            Expanded(|front| as real, squares as real, sum as real, m) + Deviation(v, m)
  {
    var n, q, s, x, xx := |front| as real, squares as real, sum as real, v as real, (v * v) as real;
    var d := x - m;
    RealSquare(v);
    ExpandedStep(n, q, s, m, x, d);
    assert (squares + v * v) as real == q + xx;
    assert Deviation(v, m) == d * d;
  }

  /** The mean times the count is the sum, in the 64 bits that it is computed in. */
  lemma MeanMeaning(vals: seq<Sen>)
    requires |vals| >= 2
    ensures Product(|vals| as real, StatsOf(vals).mean) == Wrap64(Sum(vals, Value())) as real
  {
    TotalIsSum(vals);
  }

  /** The variance times n - 1 is the sum of the squared deviations from that mean. */
  lemma VarianceMeaning(vals: seq<Sen>)
    requires |vals| >= 2
    ensures Product(|vals| as real - 1.0, StatsOf(vals).variance) == Squares(vals, StatsOf(vals).mean)
  {
  }

  /** Fewer than two values have no statistics, and the order of the values does not matter. */
  lemma OrderDoesNotMatter(a: seq<Sen>, b: seq<Sen>)
    requires multiset(a) == multiset(b)
    ensures StatsOf(a) == StatsOf(b) && (|a| < 2 ==> StatsOf(a) == Stats(0.0, 0.0))
  {
    assert |a| == |multiset(a)| == |b|;
    TotalIsSum(a);
    TotalIsSum(b);
    SumPermutation(a, b, Value());
    SumPermutation(a, b, Square());
    SquaresExpand(a, StatsOf(a).mean);
    SquaresExpand(b, StatsOf(a).mean);
  }

  // ---------- Anomalies ----------

  /** The value lies more than two standard deviations above the mean, without taking the root. */
  predicate Above(v: Sen, s: Stats) {
    var d := v as real - s.mean;
    d > 0.0 && d * d > 4.0 * s.variance
  }

  lemma PositiveProduct(x: real, y: real)
    requires x > 0.0 && y > 0.0
    ensures x * y > 0.0
  {
  }

  lemma DifferenceOfSquares(x: real, y: real)
    ensures x * x - y * y == (x - y) * (x + y)
  {
  }

  lemma SquareOrder(x: real, y: real)
    requires x > 0.0 && y >= 0.0
    ensures x > y <==> x * x > y * y
  {
    DifferenceOfSquares(x, y);
    if x > y {
      PositiveProduct(x - y, x + y);
    } else if x < y {
      PositiveProduct(y - x, x + y);
    }
  }

  /** With the standard deviation itself, it is the comparison with mean + 2 * stddev. */
  lemma AboveIsTwoDeviations(v: Sen, s: Stats, stddev: real)
    requires stddev >= 0.0 && stddev * stddev == s.variance
    ensures Above(v, s) <==> v as real > s.mean + 2.0 * stddev
  {
    var d := v as real - s.mean;
    assert (2.0 * stddev) * (2.0 * stddev) == 4.0 * s.variance;
    if d > 0.0 {
      SquareOrder(d, 2.0 * stddev);
    }
  }

  /** The first anomalous value, if there is one. */
  method AnomalyFlagging(transactions: seq<Sen>) returns (flagged: Option<Sen>)
    ensures flagged.Some? ==> exists k :: FirstAnomalous(transactions, k) && flagged.value == transactions[k]
    ensures flagged == None ==> forall v :: v in transactions ==> !Anomalous(transactions, v)
  {
    if |transactions| < 2 {
      return None;
    }
    var stats := ComputeStats(transactions);
    if stats.variance <= 0.0 {
      return None;
    }
    var i := 0;
    while i < |transactions|
      invariant 0 <= i <= |transactions|
      invariant forall k :: 0 <= k < i ==> !Above(transactions[k], stats)
    {
      if Above(transactions[i], stats) {
        assert FirstAnomalous(transactions, i);
        return Some(transactions[i]);
      }
      i := i + 1;
    }
    return None;
  }

  predicate Anomalous(vals: seq<Sen>, v: Sen) {
    |vals| >= 2 && StatsOf(vals).variance > 0.0 && Above(v, StatsOf(vals))
  }

  predicate FirstAnomalous(vals: seq<Sen>, k: int) {
    0 <= k < |vals| && Anomalous(vals, vals[k]) && forall j :: 0 <= j < k ==> !Anomalous(vals, vals[j])
  }

  function CountAbove(vals: seq<Sen>, s: Stats): nat {
    if vals == [] then 0
    else CountAbove(vals[..|vals| - 1], s) + if Above(vals[|vals| - 1], s) then 1 else 0
  }

  lemma SquareNonNegative(d: real)
    ensures d * d >= 0.0
  {
  }

  lemma OneMore(count: real, cost: real)
    ensures (count + 1.0) * cost == count * cost + cost
  {
  }

  function Times(k: nat, q: real): real {
    if k == 0 then 0.0 else Times(k - 1, q) + q
  }

  lemma {:induction false} TimesIsProduct(k: nat, q: real)
    ensures Times(k, q) == k as real * q
  {
    if k > 0 {
      TimesIsProduct(k - 1, q);
      OneMore((k - 1) as real, q);
    }
  }

  lemma DeviationCost(v: Sen, s: Stats)
    ensures Deviation(v, s.mean) >= 0.0
    ensures Above(v, s) ==> Deviation(v, s.mean) > 4.0 * s.variance
  {
    SquareNonNegative(v as real - s.mean);
  }

  /** Every value above the threshold contributes more than four variances to the sum of squares. */
  lemma {:induction false} AnomaliesCost(vals: seq<Sen>, s: Stats, cost: real)
    requires cost == 4.0 * s.variance && cost > 0.0
    ensures Squares(vals, s.mean) >= Times(CountAbove(vals, s), cost)
    ensures CountAbove(vals, s) > 0 ==> Squares(vals, s.mean) > Times(CountAbove(vals, s), cost)
  {
    if vals != [] {
      var n := |vals| - 1;
      var count := CountAbove(vals[..n], s);
      AnomaliesCost(vals[..n], s, cost);
      DeviationCost(vals[n], s);
      assert Times(count + 1, cost) == Times(count, cost) + cost;
      assert CountAbove(vals, s) == if Above(vals[n], s) then count + 1 else count;
    }
  }

  lemma QuotientTimes(x: real, n: real)
    requires n != 0.0
    ensures n * (x / n) == x
  {
  }

  lemma FewWhenCheap(count: int, n: int, cost: real)
    requires cost > 0.0 && count as real * (4.0 * cost) < n as real * cost
    ensures 4 * count < n
  {
    var gap := (4 * count - n) as real;
    assert gap * cost == count as real * (4.0 * cost) - n as real * cost;
    if gap > 0.0 {
      PositiveProduct(gap, cost);
    }
  }

  lemma FewFromSquares(count: nat, n: nat, squares: real, variance: real)
    requires n > 0 && variance > 0.0 && variance == squares / n as real
    requires squares > count as real * (4.0 * variance)
    ensures 4 * count < n
  {
    QuotientTimes(squares, n as real);
    FewWhenCheap(count, n, variance);
  }

  lemma FewAbove(vals: seq<Sen>, s: Stats)
    requires |vals| >= 2 && s.variance > 0.0 && s.variance == Squares(vals, s.mean) / (|vals| - 1) as real
    ensures 4 * CountAbove(vals, s) < |vals| - 1
  {
    if CountAbove(vals, s) > 0 {
      AnomaliesCost(vals, s, 4.0 * s.variance);
      TimesIsProduct(CountAbove(vals, s), 4.0 * s.variance);
      FewFromSquares(CountAbove(vals, s), |vals| - 1, Squares(vals, s.mean), s.variance);
    }
  }

  /** Fewer than a quarter of n - 1 values are anomalous. */
  lemma AnomaliesAreFew(vals: seq<Sen>)
    requires |vals| >= 2 && StatsOf(vals).variance > 0.0
    ensures 4 * CountAbove(vals, StatsOf(vals)) < |vals| - 1
  {
    FewAbove(vals, StatsOf(vals));
  }

  lemma {:induction false} CountedWhenAbove(vals: seq<Sen>, s: Stats, i: nat)
    requires i < |vals| && Above(vals[i], s)
    ensures CountAbove(vals, s) > 0
  {
    if i < |vals| - 1 {
      CountedWhenAbove(vals[..|vals| - 1], s, i);
    }
  }

  /** A list of five or fewer values never has an anomaly. */
  lemma ShortListsAreNeverFlagged(vals: seq<Sen>, i: nat)
    requires i < |vals| <= 5
    ensures !Anomalous(vals, vals[i])
  {
    if Anomalous(vals, vals[i]) {
      AnomaliesAreFew(vals);
      CountedWhenAbove(vals, StatsOf(vals), i);
    }
  }

  // ---------- When a list can be flagged at all ----------

  /** All values zero but the last, which is one. */
  function Spike(n: nat): seq<Sen>
    requires n > 0
  {
    Zeros(n - 1) + [1]
  }

  function Zeros(k: nat): seq<Sen> {
    if k == 0 then [] else Zeros(k - 1) + [0]
  }

  lemma SumsAppend(vals: seq<Sen>, v: Sen, m: real)
    ensures Total(vals + [v]) == Total(vals) + v
    ensures Squares(vals + [v], m) == Squares(vals, m) + (v as real - m) * (v as real - m)
  {
    assert (vals + [v])[..|vals|] == vals;
  }

  lemma ZeroDeviation(m: real)
    ensures (0.0 - m) * (0.0 - m) == m * m
  {
  }

  lemma {:induction false} ZerosSum(k: nat, m: real, q: real)
    requires q == (0.0 - m) * (0.0 - m)
    ensures |Zeros(k)| == k && Total(Zeros(k)) == 0 && Squares(Zeros(k), m) == Times(k, q)
  {
    if k > 0 {
      ZerosSum(k - 1, m, q);
      SumsAppend(Zeros(k - 1), 0, m);
    }
  }

  lemma SpikeTotals(n: nat)
    requires n > 0
    ensures |Spike(n)| == n && Total(Spike(n)) == 1
  {
    ZerosSum(n - 1, 0.0, 0.0);
    SumsAppend(Zeros(n - 1), 1, 0.0);
  }

  lemma SpikeSquares(n: nat, m: real, q: real, e: real)
    requires n > 0 && q == (0.0 - m) * (0.0 - m) && e == (1.0 - m) * (1.0 - m)
    ensures Squares(Spike(n), m) == Times(n - 1, q) + e
  {
    ZerosSum(n - 1, m, q);
    SumsAppend(Zeros(n - 1), 1, m);
  }

  lemma TimesQuotient(x: real, n: real)
    requires n != 0.0
    ensures (n * x) / n == x
  {
  }

  /** With m = 1/n, k = n - 1 zeros and a one: the squares add up to k * m. */
  lemma SpikeAlgebra(k: real, m: real)
    requires k * m == 1.0 - m
    ensures k * (m * m) + (1.0 - m) * (1.0 - m) == k * m
  {
    Associate(k, m, m);
    assert (1.0 - m) * m + (1.0 - m) * (1.0 - m) == (1.0 - m) * (m + (1.0 - m));
  }

  lemma Associate(x: real, y: real, z: real)
    ensures x * (y * z) == (x * y) * z
  {
  }

  /** The squared deviations of k zeros and a one from their mean m. */
  lemma SpikeSum(n: nat, k: real, m: real)
    requires n >= 2 && k == (n - 1) as real && k * m == 1.0 - m
    ensures Squares(Spike(n), m) == k * m
  {
    var q, e := m * m, (1.0 - m) * (1.0 - m);
    ZeroDeviation(m);
    SpikeSquares(n, m, q, e);
    TimesIsProduct(n - 1, q);
    SpikeAlgebra(k, m);
  }

  lemma SpikeVariance(n: nat, m: real)
    requires n >= 2 && n as real * m == 1.0
    ensures Squares(Spike(n), m) / (n - 1) as real == m
  {
    var k := (n - 1) as real;
    OneMore(k, m);
    SpikeSum(n, k, m);
    TimesQuotient(m, k);
  }

  /** A spike has mean and variance 1/n. */
  lemma SpikeStats(n: nat)
    requires n >= 2
    ensures StatsOf(Spike(n)) == Stats(1.0 / n as real, 1.0 / n as real)
  {
    SpikeTotals(n);
    QuotientTimes(1.0, n as real);
    SpikeVariance(n, 1.0 / n as real);
  }

  lemma SpikeStandsOut(n: real, m: real)
    requires n >= 6.0 && n * m == 1.0
    ensures m > 0.0 && 1.0 - m > 0.0 && (1.0 - m) * (1.0 - m) > 4.0 * m
  {
    if m <= 0.0 {
      NegativeProduct(n, m);
    }
    assert 6.0 * m <= 1.0 by { MoreCostsMore(6.0, n, m); }
    PositiveProduct(m, m);
    assert (1.0 - m) * (1.0 - m) == 1.0 - 2.0 * m + m * m;
  }

  lemma NegativeProduct(x: real, y: real)
    requires x >= 0.0 && y <= 0.0
    ensures x * y <= 0.0
  {
  }

  lemma MoreCostsMore(x: real, y: real, cost: real)
    requires x <= y && cost >= 0.0
    ensures x * cost <= y * cost
  {
    NegativeProduct(y - x, -cost);
  }

  lemma SpikeIsFlagged(n: nat)
    requires n >= 6
    ensures Spike(n) != [] && Anomalous(Spike(n), Spike(n)[|Spike(n)| - 1])
  {
    SpikeTotals(n);
    SpikeStats(n);
    QuotientTimes(1.0, n as real);
    SpikeStandsOut(n as real, 1.0 / n as real);
  }

  /** Some value of the list is flagged. */
  ghost predicate Flagged(vals: seq<Sen>) {
    exists i :: 0 <= i < |vals| && Anomalous(vals, vals[i])
  }

  /** Lists of length n can be flagged exactly when n is at least 6. */
  lemma FlaggableFromSixOn(n: nat)
    ensures (exists vals: seq<Sen> :: |vals| == n && Flagged(vals)) <==> n >= 6
  {
    if n >= 6 {
      SpikeTotals(n);
      SpikeIsFlagged(n);
      assert |Spike(n)| == n && Flagged(Spike(n));
    } else {
      forall vals: seq<Sen> | |vals| == n ensures !Flagged(vals) {
        forall i | 0 <= i < |vals| ensures !Anomalous(vals, vals[i]) {
          ShortListsAreNeverFlagged(vals, i);
        }
      }
    }
  }
}
