// Transfer fees: flat for basic users, a percentage held as a reduced fraction for verified ones.
module Fees {
  import opened Wrappers
  import opened Money
  import opened Arithmetic

  datatype KYCLevel = Basic | Verified | Unknown

  /** basis is the percentage times 10000, already rounded to an integer. */
  datatype FeeConfig = FeeConfig(flatBasic: Sen, basis: Sen, minFee: Sen)

  /** What a configuration file must satisfy to be loaded. */
  predicate ValidConfig(cfg: FeeConfig) {
    cfg.flatBasic > 0 && cfg.minFee > 0
  }

  const BaseDen: int := 1_000_000

  datatype FeeError = InvalidAmount | Internal

  // ---------- Reduced fractions ----------

  function Gcd(a: nat, b: nat): (g: nat)
    ensures a > 0 || b > 0 ==> g > 0
    decreases b
  {
    if b == 0 then a else Gcd(b, a % b)
  }

  /** Gcd divides both of its arguments; the quotients are the results. */
  lemma {:induction false} GcdDivides(a: nat, b: nat) returns (i: nat, j: nat)
    ensures a == Gcd(a, b) * i && b == Gcd(a, b) * j
    ensures a > 0 || b > 0 ==> Gcd(a, b) > 0
    decreases b
  {
    if b == 0 {
      i, j := 1, 0;
    } else {
      var bj, mi := GcdDivides(b, a % b);
      var g, q := Gcd(b, a % b), a / b;
      MulNonNegative(bj, q);
      i, j := bj * q + mi, bj;
      CommonFactor(g, bj, mi, q, a);
    }
  }

  /** Every common divisor d of a = d*i and b = d*j divides Gcd(a, b). */
  lemma {:induction false} GcdIsGreatest(a: nat, b: nat, d: nat, i: int, j: int) returns (k: int)
    requires a == d * i && b == d * j
    ensures Gcd(a, b) == d * k
    decreases b
  {
    if b == 0 {
      k := i;
    } else {
      var q := a / b;
      var m := i - j * q;
      CommonFactor(d, -j, i, q, a % b);
      k := GcdIsGreatest(b, a % b, d, j, m);
    }
  }

  /** What dividing two positive numbers by their gcd leaves. */
  lemma GcdParts(a: nat, b: nat)
    requires a > 0 && b > 0
    ensures 0 < Gcd(a, b) <= a && Gcd(a, b) <= b
    ensures a == Gcd(a, b) * (a / Gcd(a, b)) && 1 <= a / Gcd(a, b) <= a
    ensures b == Gcd(a, b) * (b / Gcd(a, b)) && 1 <= b / Gcd(a, b) <= b
  {
    var i, j := GcdDivides(a, b);
    var g := Gcd(a, b);
    DivExact(g, i);
    DivExact(g, j);
    MulAtLeast(g, i);
    MulAtLeast(g, j);
    MulAtLeast(i, g);
    MulAtLeast(j, g);
  }

  method Gcd64(a0: Sen, b0: Sen) returns (g: Sen)
    requires a0 >= 0 && b0 >= 0
    ensures g == Gcd(a0, b0)
  {
    var a, b := a0, b0;
    while b != 0
      invariant a >= 0 && b >= 0
      invariant Gcd(a, b) == Gcd(a0, b0)
      decreases b
    {
      a, b := b, a % b;
    }
    g := a;
  }

  function Basis(cfg: FeeConfig): (b: Sen)
    ensures b >= 1
  {
    if cfg.basis <= 0 then 1 else cfg.basis
  }

  function Divisor(cfg: FeeConfig): (g: nat)
    ensures g > 0
  {
    GcdParts(Basis(cfg), BaseDen);
    Gcd(Basis(cfg), BaseDen)
  }

  function Num(cfg: FeeConfig): (n: Sen)
    ensures Divisor(cfg) * n == Basis(cfg) && n >= 1
  {
    GcdParts(Basis(cfg), BaseDen);
    Basis(cfg) / Divisor(cfg)
  }

  function Den(cfg: FeeConfig): (d: Sen)
    ensures Divisor(cfg) * d == BaseDen && 1 <= d <= BaseDen
  {
    GcdParts(Basis(cfg), BaseDen);
    BaseDen / Divisor(cfg)
  }

  /** The reduced pair has the same ratio; by LowestTerms no common factor is left. */
  method ReduceFraction(num: Sen, den: Sen) returns (n: Sen, d: Sen)
    requires num > 0 && den > 0
    ensures n > 0 && d > 0 && n * den == num * d
    ensures n == num / Gcd(num, den) && d == den / Gcd(num, den)
  {
    var g := Gcd64(num, den);
    GcdParts(num, den);
    n, d := num / g, den / g;
    assert n * den == num * d by {
      assert n * (g * d) == (g * n) * d;
    }
  }

  /** A common factor of both parts of the reduced fraction is 1. */
  lemma LowestTerms(num: nat, den: nat, e: nat, x: nat, y: nat)
    requires num > 0 && den > 0
    requires num / Gcd(num, den) == e * x && den / Gcd(num, den) == e * y
    ensures e == 1
  {
    GcdParts(num, den);
    var g := Gcd(num, den);
    MulAssoc(g, e, x);
    MulAssoc(g, e, y);
    var k := GcdIsGreatest(num, den, g * e, x, y);
    MulAssoc(g, e, k);
    MulCancel(g, e * k, 1);
    FactorOfOne(e, k);
  }

  lemma FactorOfOne(e: nat, k: int)
    requires e * k == 1
    ensures e == 1
  {
    if k <= 0 {
      MulNonNegative(e, -k);
      assert false;
    }
    MulAtLeast(k, e);
  }

  // ---------- The fee of a verified user ----------

  function Max(a: Sen, b: Sen): Sen {
    if a < b then b else a
  }

  /** True when amount * num would not fit, so that the code divides first. */
  predicate DividesFirst(amount: Sen, cfg: FeeConfig) {
    amount > MaxInt64 / Num(cfg)
  }

  function DividedFee(amount: Sen, num: Sen, den: Sen): Sen
    requires den > 0
  {
    Wrap64((amount / den) * num)
  }

  function MultipliedFee(amount: Sen, num: Sen, den: Sen): Sen
    requires den > 0
  {
    Wrap64(amount * num) / den
  }

  function RawFee(amount: Sen, cfg: FeeConfig): Sen {
    if DividesFirst(amount, cfg) then DividedFee(amount, Num(cfg), Den(cfg))
    else MultipliedFee(amount, Num(cfg), Den(cfg))
  }

  function VerifiedFee(amount: Sen, cfg: FeeConfig): Sen
    requires amount > 0
  {
    Max(cfg.minFee, RawFee(amount, cfg))
  }

  method CalcVerifiedFee(amount: Sen, cfg: FeeConfig) returns (fee: Sen)
    requires amount > 0
    ensures fee == VerifiedFee(amount, cfg)
  {
    var pctBasis := cfg.basis;
    if pctBasis <= 0 {
      pctBasis := 1;
    }
    var num, den := ReduceFraction(pctBasis, BaseDen);
    assert num == Num(cfg) && den == Den(cfg);
    var maxSafeAmount := MaxInt64 / num;
    if amount > maxSafeAmount {
      fee := DividedFee(amount, num, den);
    } else {
      fee := MultipliedFee(amount, num, den);
    }
    if fee < cfg.minFee {
      fee := cfg.minFee;
    }
  }

  /** The fee on the exact rational rate, rounded down. */
  function ExactFee(amount: Sen, cfg: FeeConfig): int {
    (amount * Basis(cfg)) / BaseDen
  }

  lemma ExactOnReduced(amount: Sen, cfg: FeeConfig)
    ensures ExactFee(amount, cfg) == (amount * Num(cfg)) / Den(cfg)
  {
    MulSwap(amount, Divisor(cfg), Num(cfg));
    ScaledQuotient(Divisor(cfg), amount * Num(cfg), Den(cfg));
  }

  /** A product that is known to fit does not wrap. */
  lemma FittingProduct(amount: Sen, num: Sen, den: Sen)
    requires amount > 0 && num > 0 && den > 0 && amount <= MaxInt64 / num
    ensures 0 <= amount * num <= MaxInt64 && MultipliedFee(amount, num, den) == (amount * num) / den
  {
    MulNonNegative(amount, num);
    MulMono(num, amount, MaxInt64 / num);
  }

  /** Below the threshold the code multiplies first and the fee is the exact one: nothing overflows. */
  lemma FastBranchIsExact(amount: Sen, cfg: FeeConfig)
    requires amount > 0 && !DividesFirst(amount, cfg)
    ensures InRange(amount * Num(cfg))
    ensures RawFee(amount, cfg) == ExactFee(amount, cfg)
    ensures Charged(amount, cfg) == if ExactFee(amount, cfg) < cfg.minFee then cfg.minFee else ExactFee(amount, cfg)
  {
    FittingProduct(amount, Num(cfg), Den(cfg));
    ExactOnReduced(amount, cfg);
  }

  /** Above the threshold the fee may lose up to Num - 1 sen against the exact one, and does not overflow. */
  lemma DivideFirstLoses(amount: Sen, cfg: FeeConfig)
    requires amount > 0 && Basis(cfg) <= BaseDen
    ensures InRange((amount / Den(cfg)) * Num(cfg))
    ensures 0 <= ExactFee(amount, cfg) - (amount / Den(cfg)) * Num(cfg) <= Num(cfg) - 1
    ensures ExactFee(amount, cfg) <= amount
  {
    RateAtMostOne(cfg);
    ExactOnReduced(amount, cfg);
    SplitBounds(amount, Num(cfg), Den(cfg));
  }

  lemma RateAtMostOne(cfg: FeeConfig)
    ensures Basis(cfg) <= BaseDen <==> Num(cfg) <= Den(cfg)
  {
    ScaledOrder(Divisor(cfg), Num(cfg), Den(cfg));
  }

  /** No amount overflows the divide-first branch exactly when the rate is at most 100 percent. */
  lemma OverflowFreeIffRateAtMost100(cfg: FeeConfig)
    ensures (forall amount: Sen :: amount > 0 && DividesFirst(amount, cfg) ==> InRange((amount / Den(cfg)) * Num(cfg)))
       <==> Basis(cfg) <= BaseDen
  {
    if Basis(cfg) <= BaseDen {
      forall amount: Sen | amount > 0 && DividesFirst(amount, cfg)
        ensures InRange((amount / Den(cfg)) * Num(cfg))
      {
        DivideFirstLoses(amount, cfg);
      }
    } else {
      TopOverflows(cfg);
    }
  }

  lemma TopOverflows(cfg: FeeConfig)
    requires Basis(cfg) > BaseDen
    ensures DividesFirst(MaxInt64, cfg) && !InRange((MaxInt64 / Den(cfg)) * Num(cfg))
  {
    RateAtMostOne(cfg);
    QuotientInside(MaxInt64, Num(cfg));
    LargeProduct(MaxInt64, Num(cfg), Den(cfg), MaxInt64 / Den(cfg), MaxInt64 % Den(cfg), BaseDen);
  }

  /** Fees are not monotone, but a larger amount never costs Num or more sen less. */
  lemma NearlyMonotone(a: Sen, b: Sen, cfg: FeeConfig)
    requires 0 < a <= b && Basis(cfg) <= BaseDen
    ensures Charged(a, cfg) <= Charged(b, cfg) + Num(cfg) - 1
  {
    RawFeeNearExact(a, cfg);
    RawFeeNearExact(b, cfg);
    MulMono(Basis(cfg), a, b);
    DivMono(a * Basis(cfg), b * Basis(cfg), BaseDen);
  }

  lemma RawFeeNearExact(amount: Sen, cfg: FeeConfig)
    requires amount > 0 && Basis(cfg) <= BaseDen
    ensures ExactFee(amount, cfg) - Num(cfg) + 1 <= RawFee(amount, cfg) <= ExactFee(amount, cfg) <= amount
  {
    DivideFirstLoses(amount, cfg);
    if !DividesFirst(amount, cfg) {
      FastBranchIsExact(amount, cfg);
    }
  }

  /** At 0.7 percent, one sen more crosses the branch and lowers the fee by 2 sen. */
  lemma FeeDips()
    ensures var cfg, a: Sen := FeeConfig(2500, 7000, 1000), 1317624576693539401;
            Charged(a, cfg) == Charged(a + 1, cfg) + 2
  {
    var cfg := FeeConfig(2500, 7000, 1000);
    GcdOfDefault();
    assert Num(cfg) == 7 && Den(cfg) == 1000;
  }

  lemma GcdOfDefault()
    ensures Gcd(7000, 1000000) == 1000
  {
    assert 7000 % 1000000 == 7000 && 1000000 % 7000 == 6000 && 7000 % 6000 == 1000 && 6000 % 1000 == 0;
    assert Gcd(1000, 0) == 1000;
    assert Gcd(6000, 1000) == 1000;
    assert Gcd(7000, 6000) == 1000;
    assert Gcd(1000000, 7000) == 1000;
  }

  // ---------- When the fee is monotone ----------

  /** The largest amount of the multiply-first branch. */
  function Threshold(cfg: FeeConfig): (t: Sen)
    ensures 0 < t
  {
    QuotientInside(MaxInt64, Num(cfg));
    MaxInt64 / Num(cfg)
  }

  /** The fee of the first amount of the divide-first branch, before the minimum. */
  function FirstDivided(cfg: FeeConfig): int {
    ((Threshold(cfg) + 1) / Den(cfg)) * Num(cfg)
  }

  lemma RawAbove(amount: Sen, cfg: FeeConfig)
    requires amount > 0 && DividesFirst(amount, cfg) && Basis(cfg) <= BaseDen
    ensures RawFee(amount, cfg) == (amount / Den(cfg)) * Num(cfg)
  {
    DivideFirstLoses(amount, cfg);
  }

  lemma OrderedAbove(a: Sen, b: Sen, cfg: FeeConfig)
    requires 0 < a <= b && DividesFirst(a, cfg) && InRange((b / Den(cfg)) * Num(cfg))
    ensures InRange((a / Den(cfg)) * Num(cfg)) && RawFee(a, cfg) <= RawFee(b, cfg)
  {
    QuotientMono(a, b, Num(cfg), Den(cfg));
    QuotientMono(0, a, Num(cfg), Den(cfg));
  }

  lemma OrderedBelow(a: Sen, b: Sen, cfg: FeeConfig)
    requires 0 < a <= b && !DividesFirst(b, cfg)
    ensures RawFee(a, cfg) <= RawFee(b, cfg)
  {
    FastBranchIsExact(a, cfg);
    FastBranchIsExact(b, cfg);
    ProductMono(a, b, Basis(cfg), BaseDen);
  }

  /** Two amounts on the same side of the branch are charged in order. */
  lemma OrderedOnOneSide(a: Sen, b: Sen, cfg: FeeConfig)
    requires 0 < a <= b && Basis(cfg) <= BaseDen && (DividesFirst(a, cfg) <==> DividesFirst(b, cfg))
    ensures Charged(a, cfg) <= Charged(b, cfg)
  {
    if DividesFirst(a, cfg) {
      DivideFirstLoses(b, cfg);
      OrderedAbove(a, b, cfg);
    } else {
      OrderedBelow(a, b, cfg);
    }
  }

  /** There are amounts on both sides of the branch unless the numerator is 1. */
  lemma ThresholdInside(cfg: FeeConfig)
    requires Basis(cfg) <= BaseDen
    ensures 0 < Threshold(cfg) && (Num(cfg) > 1 <==> Threshold(cfg) < MaxInt64)
  {
    RateAtMostOne(cfg);
    QuotientInside(MaxInt64, Num(cfg));
  }

  /** The fees on the two sides of the threshold are in order. */
  predicate StepUp(cfg: FeeConfig) {
    ExactFee(Threshold(cfg), cfg) <= cfg.minFee || ExactFee(Threshold(cfg), cfg) <= FirstDivided(cfg)
  }

  lemma StepUpAtThreshold(cfg: FeeConfig)
    requires Basis(cfg) <= BaseDen && Num(cfg) > 1
    ensures 0 < Threshold(cfg) < MaxInt64
    ensures StepUp(cfg) <==> Charged(Threshold(cfg), cfg) <= Charged(Threshold(cfg) + 1, cfg)
  {
    ThresholdInside(cfg);
    FastBranchIsExact(Threshold(cfg), cfg);
    RawAbove(Threshold(cfg) + 1, cfg);
  }

  /** A larger amount never costs less. */
  ghost predicate Monotone(cfg: FeeConfig) {
    forall a: Sen, b: Sen :: 0 < a <= b ==> Charged(a, cfg) <= Charged(b, cfg)
  }

  lemma MonotoneUpTo100(cfg: FeeConfig)
    requires Basis(cfg) <= BaseDen
    ensures Monotone(cfg) <==> Num(cfg) == 1 || StepUp(cfg)
  {
    ThresholdInside(cfg);
    if Num(cfg) == 1 || StepUp(cfg) {
      forall a: Sen, b: Sen | 0 < a <= b ensures Charged(a, cfg) <= Charged(b, cfg) {
        if Num(cfg) > 1 { StepUpAtThreshold(cfg); }
        OrderedThroughout(a, b, cfg);
      }
    } else {
      StepUpAtThreshold(cfg);
      var t := Threshold(cfg);
      assert !(Charged(t, cfg) <= Charged(t + 1, cfg));
    }
  }

  lemma OrderedThroughout(a: Sen, b: Sen, cfg: FeeConfig)
    requires 0 < a <= b && 0 < Threshold(cfg) && Basis(cfg) <= BaseDen
    requires Threshold(cfg) < MaxInt64 ==> Charged(Threshold(cfg), cfg) <= Charged(Threshold(cfg) + 1, cfg)
    ensures Charged(a, cfg) <= Charged(b, cfg)
  {
    if DividesFirst(b, cfg) && !DividesFirst(a, cfg) {
      OrderedOnOneSide(a, Threshold(cfg), cfg);
      OrderedOnOneSide(Threshold(cfg) + 1, b, cfg);
    } else {
      OrderedOnOneSide(a, b, cfg);
    }
  }

  // ---------- Rates above 100 percent ----------

  /** How often the denominator goes into the largest amount. */
  function LastQuotient(cfg: FeeConfig): (q: Sen)
    ensures 0 <= q
  {
    DivMono(0, MaxInt64, Den(cfg));
    MaxInt64 / Den(cfg)
  }

  /** The raw fee of a multiple of the denominator. */
  function WrappedFee(q: int, cfg: FeeConfig): Sen {
    Wrap64(q * Num(cfg))
  }

  /** Apart from the last quotient, no wrapped fee exceeds the minimum. */
  ghost predicate MinimumCovers(cfg: FeeConfig) {
    forall q :: 0 <= q < LastQuotient(cfg) ==> WrappedFee(q, cfg) <= cfg.minFee
  }

  /** The products at the threshold and one above, on either side of the largest 64-bit number. */
  lemma AtThreshold(cfg: FeeConfig)
    ensures Threshold(cfg) >= 1
    ensures 0 < Threshold(cfg) * Num(cfg) <= MaxInt64 < Threshold(cfg) * Num(cfg) + Num(cfg)
  {
    QuotientInside(MaxInt64, Num(cfg));
    MulAtLeast(Threshold(cfg), Num(cfg));
  }

  lemma ThresholdBeforeLast(cfg: FeeConfig)
    requires Basis(cfg) > BaseDen
    ensures Threshold(cfg) < LastQuotient(cfg)
  {
    TopOverflows(cfg);
    AtThreshold(cfg);
    MulNonNegative(LastQuotient(cfg), Num(cfg));
    if LastQuotient(cfg) <= Threshold(cfg) {
      MulMono(Num(cfg), LastQuotient(cfg), Threshold(cfg));
    }
  }

  lemma MultipleInRange(q: nat, cfg: FeeConfig)
    requires 0 < q <= LastQuotient(cfg)
    ensures 0 < q * Den(cfg) <= MaxInt64 && (q * Den(cfg)) / Den(cfg) == q
  {
    FittingMultiple(q, Den(cfg));
  }

  lemma FittingMultiple(q: nat, d: nat)
    requires d > 0 && 0 < q <= MaxInt64 / d
    ensures 0 < q * d <= MaxInt64 && (q * d) / d == q
  {
    MulMono(d, q, MaxInt64 / d);
    MulAtLeast(q, d);
    DivExact(d, q);
  }

  lemma FeeOfMultiple(q: nat, cfg: FeeConfig)
    requires 0 < q <= LastQuotient(cfg)
    ensures 0 < q * Den(cfg) <= MaxInt64 && RawFee(q * Den(cfg), cfg) == WrappedFee(q, cfg)
  {
    MultipleInRange(q, cfg);
    if !DividesFirst(q * Den(cfg), cfg) {
      FastMultiple(q, cfg);
    }
  }

  lemma FastMultiple(q: nat, cfg: FeeConfig)
    requires 0 < q * Den(cfg) <= MaxInt64 && !DividesFirst(q * Den(cfg), cfg)
    ensures RawFee(q * Den(cfg), cfg) == WrappedFee(q, cfg)
  {
    FittingProduct(q * Den(cfg), Num(cfg), Den(cfg));
    MultipleTimes(q, Num(cfg), Den(cfg));
  }

  lemma MultipleTimes(q: nat, n: nat, d: nat)
    requires d > 0
    ensures ((q * d) * n) / d == q * n && 0 <= q * n <= (q * d) * n
  {
    MulAssoc(d, q, n);
    DivExact(d, q * n);
    MulNonNegative(q, n);
    MulAtLeast(q * n, d);
  }

  /** A wrapped fee close to the largest number is followed by a negative one. */
  lemma NextWraps(q: int, cfg: FeeConfig)
    requires WrappedFee(q, cfg) > MaxInt64 - Num(cfg)
    ensures WrappedFee(q + 1, cfg) < 0
  {
    var n := Num(cfg);
    assert (q + 1) * n == q * n + n;
    WrapAdd(q * n, n);
    WrapUnique(WrappedFee(q, cfg) + n, WrappedFee(q, cfg) + n - TwoTo64, 1);
  }

  /** A multiple of the denominator that costs more than the minimum and is not the last comes before a cheaper one. */
  lemma FallsAt(q: nat, cfg: FeeConfig)
    requires ValidConfig(cfg) && q < LastQuotient(cfg)
    requires WrappedFee(q, cfg) > cfg.minFee && WrappedFee(q, cfg) > MaxInt64 - Num(cfg)
    ensures !Monotone(cfg)
  {
    var a, b := q * Den(cfg), (q + 1) * Den(cfg);
    assert q > 0 by {
      assert q == 0 ==> q * Num(cfg) == 0;
    }
    FeeOfMultiple(q, cfg);
    FeeOfMultiple(q + 1, cfg);
    NextWraps(q, cfg);
    MulMono(Den(cfg), q, q + 1);
    assert Charged(a, cfg) > Charged(b, cfg);
  }

  /** When the minimum covers every other fee, only the amounts of the last quotient can cost more. */
  lemma MinimumBefore(a: Sen, cfg: FeeConfig)
    requires a > 0 && Basis(cfg) > BaseDen && MinimumCovers(cfg) && ValidConfig(cfg)
    requires !DividesFirst(a, cfg) || a / Den(cfg) < LastQuotient(cfg)
    ensures Charged(a, cfg) == cfg.minFee
  {
    if DividesFirst(a, cfg) {
      DivMono(0, a, Den(cfg));
      assert RawFee(a, cfg) == WrappedFee(a / Den(cfg), cfg);
    } else {
      var t := Threshold(cfg);
      ThresholdBeforeLast(cfg);
      AtThreshold(cfg);
      FastBranchIsExact(a, cfg);
      ExactOnReduced(a, cfg);
      MulMono(Num(cfg), a, t);
      MulNonNegative(a, Num(cfg));
      QuotientAtMost(a * Num(cfg), Den(cfg));
      assert WrappedFee(t, cfg) == t * Num(cfg);
    }
  }

  lemma MonotoneAbove100(cfg: FeeConfig)
    requires ValidConfig(cfg) && Basis(cfg) > BaseDen
    ensures Monotone(cfg) <==> MinimumCovers(cfg)
  {
    ThresholdBeforeLast(cfg);
    AtThreshold(cfg);
    if MinimumCovers(cfg) {
      forall a: Sen, b: Sen | 0 < a <= b ensures Charged(a, cfg) <= Charged(b, cfg) {
        if !DividesFirst(a, cfg) || a / Den(cfg) < LastQuotient(cfg) {
          MinimumBefore(a, cfg);
        } else {
          DivMono(a, b, Den(cfg));
          DivMono(b, MaxInt64, Den(cfg));
        }
      }
    } else {
      var q :| 0 <= q < LastQuotient(cfg) && WrappedFee(q, cfg) > cfg.minFee;
      var t := Threshold(cfg);
      assert WrappedFee(t, cfg) == t * Num(cfg);
      FallsAt(if t * Num(cfg) > cfg.minFee then t else q, cfg);
    }
  }

  /**
   * For every configuration that is loaded: up to 100 percent the verified fee is monotone in the amount if and only
   * if there is no divide-first branch, or the minimum covers the fee at the threshold, or the fee does not fall from
   * the threshold to the next sen. Above 100 percent the fee wraps around, and it is monotone if and only if the
   * minimum covers every wrapped fee but that of the last quotient.
   */
  lemma MonotoneIff(cfg: FeeConfig)
    requires ValidConfig(cfg)
    ensures Monotone(cfg) <==> if Basis(cfg) <= BaseDen then Num(cfg) == 1 || StepUp(cfg) else MinimumCovers(cfg)
  {
    if Basis(cfg) <= BaseDen {
      MonotoneUpTo100(cfg);
    } else {
      MonotoneAbove100(cfg);
    }
  }

  /** In particular, above 100 percent it is not monotone unless the minimum is within the numerator of 2^63. */
  lemma NotMonotoneAbove100(cfg: FeeConfig)
    requires ValidConfig(cfg) && Basis(cfg) > BaseDen && cfg.minFee <= MaxInt64 - Num(cfg)
    ensures !Monotone(cfg)
  {
    ThresholdBeforeLast(cfg);
    AtThreshold(cfg);
    FallsAt(Threshold(cfg), cfg);
  }

  // ---------- Fee per transfer and per batch ----------

  function CalcFee(amount: Sen, kyc: KYCLevel, cfg: FeeConfig): (r: Result<Sen, FeeError>)
    ensures r.Ok? <==> amount > 0
    ensures r.Ok? && ValidConfig(cfg) ==> r.value > 0
    ensures r.Ok? && kyc != Verified ==> r.value == cfg.flatBasic
    ensures r.Ok? && kyc == Verified ==> r.value == VerifiedFee(amount, cfg) >= cfg.minFee
  {
    if amount <= 0 then Err(InvalidAmount)
    else if kyc == Verified then Ok(VerifiedFee(amount, cfg))
    else Ok(cfg.flatBasic)
  }

  /** What a verified user is charged for a transfer. */
  function Charged(amount: Sen, cfg: FeeConfig): (r: Sen)
    requires amount > 0
    ensures r == VerifiedFee(amount, cfg)
  {
    CalcFee(amount, Verified, cfg).value
  }

  /**
   * In the configuration's own terms: with the percentage as the lowest-terms fraction num / den, a verified user pays
   * the amount's exact share, rounded down, while amount * num fits 64 bits, and above that the wrapped product of num
   * and the quotient by den; never less than the minimum.
   */
  lemma ChargeInFull(amount: Sen, cfg: FeeConfig)
    requires amount > 0
    ensures var basis := if cfg.basis <= 0 then 1 else cfg.basis;
            var g := Gcd(basis, 1_000_000);
            var num, den := basis / g, 1_000_000 / g;
            && num > 0 && den > 0
            && var share := if amount <= MaxInt64 / num then amount * basis / 1_000_000 else Wrap64(amount / den * num);
               CalcFee(amount, Verified, cfg) == Ok(if share < cfg.minFee then cfg.minFee else share)
  {
    GcdParts(Basis(cfg), BaseDen);
    if !DividesFirst(amount, cfg) {
      FastBranchIsExact(amount, cfg);
    }
  }

  /** No fee exceeds the amount plus the two configured constants. */
  lemma FeeBounded(amount: Sen, kyc: KYCLevel, cfg: FeeConfig)
    requires amount > 0 && ValidConfig(cfg) && Basis(cfg) <= BaseDen
    ensures CalcFee(amount, kyc, cfg).value <= amount + cfg.flatBasic + cfg.minFee
  {
    RawFeeNearExact(amount, cfg);
  }

  // ---------- Charges that fit ----------

  /** The product that the fee of a verified user takes does not overflow. */
  predicate FeeFits(amount: Sen, cfg: FeeConfig) {
    InRange(if DividesFirst(amount, cfg) then (amount / Den(cfg)) * Num(cfg) else amount * Num(cfg))
  }

  /** Neither that product nor the sum of amount and fee overflows, for any level. */
  predicate ChargeFits(amount: Sen, cfg: FeeConfig)
    requires amount > 0
  {
    FeeFits(amount, cfg) && amount + cfg.flatBasic <= MaxInt64 && amount + Charged(amount, cfg) <= MaxInt64
  }

  lemma MaxNeverFits(cfg: FeeConfig)
    requires ValidConfig(cfg)
    ensures !ChargeFits(MaxInt64, cfg)
  {
  }

  /** Every charge up to this amount fits. */
  ghost predicate Roomy(total: int, cfg: FeeConfig) {
    forall a: Sen :: 0 < a <= total ==> ChargeFits(a, cfg)
  }

  lemma SmallerFitsAbove(a: Sen, b: Sen, cfg: FeeConfig)
    requires 0 < a <= b && DividesFirst(a, cfg) && ChargeFits(b, cfg)
    ensures ChargeFits(a, cfg)
  {
    OrderedAbove(a, b, cfg);
  }

  lemma SmallerFitsBelow(a: Sen, b: Sen, cfg: FeeConfig)
    requires 0 < a <= b && !DividesFirst(b, cfg) && ChargeFits(b, cfg)
    ensures ChargeFits(a, cfg)
  {
    OrderedBelow(a, b, cfg);
    FittingProduct(a, Num(cfg), Den(cfg));
  }

  /** It is enough to look at the largest amount, and at the threshold when that is smaller. */
  lemma RoomyIff(total: int, cfg: FeeConfig)
    requires ValidConfig(cfg)
    ensures Roomy(total, cfg) <==>
            || total <= 0
            || (total <= MaxInt64 && ChargeFits(total, cfg)
                && (DividesFirst(total, cfg) ==> ChargeFits(Threshold(cfg), cfg)))
  {
    MaxNeverFits(cfg);
    if 0 < total <= MaxInt64 && ChargeFits(total, cfg) {
      if DividesFirst(total, cfg) && !ChargeFits(Threshold(cfg), cfg) {
        assert 0 < Threshold(cfg) <= total;
      } else {
        forall a: Sen | 0 < a <= total ensures ChargeFits(a, cfg) {
          if DividesFirst(a, cfg) {
            SmallerFitsAbove(a, total, cfg);
          } else {
            SmallerFitsBelow(a, if DividesFirst(total, cfg) then Threshold(cfg) else total, cfg);
          }
        }
      }
    }
  }

  /** Up to 100 percent, twice the amount and both constants are more than enough. */
  lemma RoomyUpTo100(total: int, cfg: FeeConfig)
    requires ValidConfig(cfg) && Basis(cfg) <= BaseDen && 2 * total + cfg.flatBasic + cfg.minFee <= MaxInt64
    ensures Roomy(total, cfg)
  {
    forall a: Sen | 0 < a <= total ensures ChargeFits(a, cfg) {
      RawFeeNearExact(a, cfg);
      DivideFirstLoses(a, cfg);
      if !DividesFirst(a, cfg) {
        FastBranchIsExact(a, cfg);
      }
    }
  }

  // ---------- Batches ----------

  datatype TransferInput = TransferInput(amount: Sen, kyc: KYCLevel)

  predicate AllValid(inputs: seq<TransferInput>) {
    forall i :: 0 <= i < |inputs| ==> inputs[i].amount > 0
  }

  /** The exact sum of the fees of a batch. */
  function ExactTotal(inputs: seq<TransferInput>, cfg: FeeConfig): int
    requires AllValid(inputs)
  {
    if inputs == [] then 0
    else
      var last := inputs[|inputs| - 1];
      ExactTotal(inputs[..|inputs| - 1], cfg) + CalcFee(last.amount, last.kyc, cfg).value
  }

  lemma {:induction false} TotalGrows(inputs: seq<TransferInput>, k: nat, cfg: FeeConfig)
    requires AllValid(inputs) && ValidConfig(cfg) && k <= |inputs|
    ensures 0 <= ExactTotal(inputs[..k], cfg) <= ExactTotal(inputs, cfg)
  {
    if inputs != [] {
      var front := inputs[..|inputs| - 1];
      if k == |inputs| {
        TotalGrows(front, |front|, cfg);
        assert front[..|front|] == front && inputs[..k] == inputs;
      } else {
        TotalGrows(front, k, cfg);
        assert front[..k] == inputs[..k];
      }
    }
  }

  /** The first transfer whose amount is refused, or the length of the batch. */
  function FirstInvalid(inputs: seq<TransferInput>): (n: nat)
    ensures n <= |inputs| && AllValid(inputs[..n])
    ensures n < |inputs| ==> inputs[n].amount <= 0
  {
    if inputs == [] then 0
    else
      var front := inputs[..|inputs| - 1];
      var n := FirstInvalid(front);
      assert inputs[..n] == front[..n];
      if n < |front| then n else if inputs[|front|].amount <= 0 then |front| else |inputs|
  }

  /**
   * Overflow is reported exactly when the fees before the first refused amount
   * sum to more than 64 bits hold; otherwise the refused amount is reported, or the exact total.
   */
  method CalcFees(inputs: seq<TransferInput>, cfg: FeeConfig) returns (r: Result<Sen, FeeError>)
    requires ValidConfig(cfg)
    ensures var n := FirstInvalid(inputs);
            var total := ExactTotal(inputs[..n], cfg);
            r == if total > MaxInt64 then Err(Internal) else if n < |inputs| then Err(InvalidAmount) else Ok(total)
  {
    var total: Sen := 0;
    ghost var n := FirstInvalid(inputs);
    var i := 0;
    while i < |inputs|
      invariant 0 <= i <= n
      invariant total == ExactTotal(inputs[..i], cfg)
    {
      var fee := CalcFee(inputs[i].amount, inputs[i].kyc, cfg);
      if fee.Err? {
        return Err(fee.error);
      }
      NextFee(inputs, i, cfg);
      var sum := SafeAdd(total, fee.value);
      if sum.failed {
        return Err(Internal);
      }
      total := sum.value;
      i := i + 1;
    }
    return Ok(total);
  }

  /** An accepted transfer comes before the first refused one, and its fee adds to a total that only grows. */
  lemma NextFee(inputs: seq<TransferInput>, i: nat, cfg: FeeConfig)
    requires ValidConfig(cfg) && i < |inputs| && i <= FirstInvalid(inputs) && inputs[i].amount > 0
    ensures i < FirstInvalid(inputs)
    ensures var n := FirstInvalid(inputs);
            var fee := CalcFee(inputs[i].amount, inputs[i].kyc, cfg).value;
            && fee > 0
            && ExactTotal(inputs[..i + 1], cfg) == ExactTotal(inputs[..i], cfg) + fee <= ExactTotal(inputs[..n], cfg)
  {
    var n := FirstInvalid(inputs);
    FirstInvalidIsFirst(inputs, i);
    assert inputs[..i + 1][..i] == inputs[..i];
    assert inputs[..n][..i + 1] == inputs[..i + 1];
    TotalGrows(inputs[..n], i + 1, cfg);
  }

  lemma {:induction false} FirstInvalidIsFirst(inputs: seq<TransferInput>, i: nat)
    requires i < |inputs| && i <= FirstInvalid(inputs) && inputs[i].amount > 0
    ensures i < FirstInvalid(inputs)
  {
  }

  // ---------- Promo codes ----------

  datatype Window = Window(start: int, end: int)

  /** discountPct is the configured percentage. */
  datatype PromoConfig = PromoConfig(discountPct: real, window: Window, codes: seq<string>)

  datatype PromoOutcome = PromoOutcome(fee: Sen, warned: bool, applied: bool)

  predicate CodeChar(c: char) {
    'a' <= c <= 'z' || 'A' <= c <= 'Z' || '0' <= c <= '9' || c == '-'
  }

  predicate WellFormedCode(code: string) {
    code != "" && forall i :: 0 <= i < |code| ==> CodeChar(code[i])
  }

  predicate InWindow(w: Window, t: int) {
    w.start <= t <= w.end
  }

  /** The discount is computed in floating point; discount is what that computation returned. */
  function ApplyDiscount(cfg: PromoConfig, fee: Sen, discount: Sen): (r: Sen)
    requires fee >= 0 && discount >= 0
    ensures 0 <= r <= fee
    ensures cfg.discountPct <= 0.0 ==> r == fee
    ensures cfg.discountPct >= 100.0 ==> r == 0
    ensures 0.0 < cfg.discountPct < 100.0 && discount <= fee ==> r + discount == fee
  {
    if cfg.discountPct >= 100.0 then 0
    else if cfg.discountPct <= 0.0 then fee
    else if discount >= fee then 0
    else fee - discount
  }

  /** The percentage that counts: from 0 to 100. */
  function Percent(cfg: PromoConfig): real {
    if cfg.discountPct <= 0.0 then 0.0 else if cfg.discountPct >= 100.0 then 100.0 else cfg.discountPct
  }

  lemma ProductNonNegative(x: real, y: real)
    requires x >= 0.0 && y >= 0.0
    ensures x * y >= 0.0
  {
  }

  /** That percentage of a number, and what is left of it. */
  function Share(x: real, pct: real): (r: real)
    requires x >= 0.0 && 0.0 <= pct <= 100.0
    ensures 0.0 <= r <= x
    ensures pct == 0.0 ==> r == 0.0
    ensures pct == 100.0 ==> r == x
  {
    ProductNonNegative(x, pct);
    ProductNonNegative(x, 100.0 - pct);
    x * pct / 100.0
  }

  lemma ShareComplement(x: real, pct: real)
    requires x >= 0.0 && 0.0 <= pct <= 100.0
    ensures Share(x, pct) + Share(x, 100.0 - pct) == x
  {
  }

  /** The discount without floating-point error: the percentage of the fee, cut to whole sen. */
  function ExactDiscount(cfg: PromoConfig, fee: Sen): int
    requires fee >= 0
  {
    Share(fee as real, Percent(cfg)).Floor
  }

  /** With that discount, what remains is the rest of the percentage, rounded up to whole sen. */
  lemma DiscountedFee(cfg: PromoConfig, fee: Sen)
    requires fee >= 0
    ensures 0 <= ExactDiscount(cfg, fee) <= fee
    ensures var rest := Share(fee as real, 100.0 - Percent(cfg));
            rest <= ApplyDiscount(cfg, fee, ExactDiscount(cfg, fee)) as real < rest + 1.0
  {
    ShareComplement(fee as real, Percent(cfg));
    CutShare(cfg, fee, Share(fee as real, Percent(cfg)));
  }

  /** Cutting a share of the fee to whole sen rounds the rest up. */
  lemma CutShare(cfg: PromoConfig, fee: Sen, share: real)
    requires 0.0 <= share <= fee as real
    requires Percent(cfg) == 0.0 ==> share == 0.0
    requires Percent(cfg) == 100.0 ==> share == fee as real
    ensures 0 <= share.Floor <= fee
    ensures fee as real - share <= ApplyDiscount(cfg, fee, share.Floor) as real < fee as real - share + 1.0
  {
  }

  function ApplyPromoCode(cfg: PromoConfig, code: string, fee: Sen, now: int, discount: Sen): (r: PromoOutcome)
    requires fee >= 0 && discount >= 0
    ensures 0 <= r.fee <= fee
    ensures r.applied <==> WellFormedCode(code) && code in cfg.codes && cfg.window.start <= now <= cfg.window.end
    ensures r.applied ==> r.fee == ApplyDiscount(cfg, fee, discount)
    ensures r.warned <==> code != "" && !r.applied
    ensures !r.applied ==> r.fee == fee
  {
    if code == "" then PromoOutcome(fee, false, false)
    else if !WellFormedCode(code) then PromoOutcome(fee, true, false)
    else if code !in cfg.codes then PromoOutcome(fee, true, false)
    else if !InWindow(cfg.window, now) then PromoOutcome(fee, true, false)
    else PromoOutcome(ApplyDiscount(cfg, fee, discount), false, true)
  }

  /**
   * A code is applied if and only if it is a listed word of letters, digits and hyphens, between start and end
   * inclusive.
   */
  lemma PromoMeaning(cfg: PromoConfig, code: string, fee: Sen, now: int, discount: Sen)
    requires fee >= 0 && discount >= 0
    ensures ApplyPromoCode(cfg, code, fee, now, discount).applied <==>
              && code != "" && code in cfg.codes && cfg.window.start <= now <= cfg.window.end
              && forall c :: c in code ==> c == '-' || 'a' <= c <= 'z' || 'A' <= c <= 'Z' || '0' <= c <= '9'
  {
    if WellFormedCode(code) {
      forall c | c in code ensures CodeChar(c) {
        var i :| 0 <= i < |code| && code[i] == c;
      }
    } else if code != "" {
      var i :| 0 <= i < |code| && !CodeChar(code[i]);
      assert code[i] in code;
    }
  }
}
