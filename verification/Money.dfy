// Amounts of money in sen, with the 64-bit arithmetic of the services.
module Money {
  const MaxInt64: int := 0x7FFF_FFFF_FFFF_FFFF
  const MinInt64: int := -0x8000_0000_0000_0000
  const TwoTo64: int := 0x1_0000_0000_0000_0000

  type Sen = x: int | MinInt64 <= x <= MaxInt64

  predicate InRange(x: int) {
    MinInt64 <= x <= MaxInt64
  }

  /** Two's complement wrap-around: the 64-bit value the unchecked operators + - * leave behind. */
  function Wrap64(x: int): (r: Sen)
    ensures InRange(x) ==> r == x
  {
    (x - MinInt64) % TwoTo64 + MinInt64
  }

  /** The number of times x wraps around. */
  lemma Carry(x: int) returns (k: int)
    ensures x == Wrap64(x) + TwoTo64 * k
  {
    k := (x - MinInt64) / TwoTo64;
  }

  /** Wrapped values that differ by a multiple of 2^64 are equal. */
  lemma WrapUnique(x: int, r: Sen, k: int)
    requires x == r + TwoTo64 * k
    ensures Wrap64(x) == r
  {
    var j := Carry(x);
  }

  /** Wrapping an operand first does not change a wrapped sum: snapshots may be updated step by step. */
  lemma WrapAdd(x: int, y: int)
    ensures Wrap64(Wrap64(x) + y) == Wrap64(x + y)
  {
    var i := Carry(x);
    var j := Carry(x + y);
    WrapUnique(Wrap64(x) + y, Wrap64(x + y), j - i);
  }

  lemma WrapSub(x: int, y: int)
    ensures Wrap64(Wrap64(x) - Wrap64(y)) == Wrap64(x - y)
  {
    var v: int := Wrap64(y);
    var i := Carry(y);
    WrapAdd(x, 0 - v);
    var j := Carry(x - y);
    WrapUnique(x - v, Wrap64(x - y), j + i);
  }

  datatype Checked = Checked(value: Sen, failed: bool)

  /** Addition with an overflow report: the report is exact for every pair of 64-bit operands. */
  function SafeAdd(a: Sen, b: Sen): (r: Checked)
    ensures r.failed <==> !InRange(a + b)
    ensures r.value == if r.failed then 0 else a + b
  {
    if a > 0 && b > 0 && a > MaxInt64 - b then Checked(0, true)
    else if a < 0 && b < 0 && a < MinInt64 - b then Checked(0, true)
    else Checked(Wrap64(a + b), false)
  }

  /** Subtraction that refuses negative results, and also results above 64 bits. */
  function SafeSub(a: Sen, b: Sen): (r: Checked)
    ensures r.failed <==> !(0 <= a - b <= MaxInt64)
    ensures r.value == if r.failed then 0 else a - b
  {
    if b > a then Checked(0, true)
    else
      var result := Wrap64(a - b);
      assert a - b > MaxInt64 ==> result < 0 by {
        if a - b > MaxInt64 { WrapUnique(a - b, a - b - TwoTo64, 1); }
      }
      if result < 0 then Checked(0, true) else Checked(result, false)
  }
}
