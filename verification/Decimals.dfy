/** Rounding of decimal amounts. One unit is 0.0001, so a four-decimal amount is an
    integer number of units and an amount with more digits is a real number of units. */
module Decimals {

  /** What the ledger needs of the database's conversion to four decimals: it is monotone
      and odd, and it leaves an amount with at most four decimals alone. */
  ghost predicate IsStorageRounding(store: real -> int) {
    && (forall x: real, y: real :: x <= y ==> store(x) <= store(y))
    && (forall x: real :: store(-x) == -store(x))
    && (forall n: int :: store(Units(n)) == n)
  }

  /** A whole number of units, as an amount. */
  function Units(n: int): real {
    n as real
  }

  predicate Within(x: real, y: real, distance: real) {
    y - distance <= x <= y + distance
  }

  /** Rounding to the nearest unit with ties to even, as `quantize` does by default. */
  function HalfEven(x: real): int {
    var low := x.Floor;
    var rest := x - low as real;
    if rest < 0.5 || (rest == 0.5 && low % 2 == 0) then low else low + 1
  }

  /** Rounding to the nearest unit with ties away from zero, as a numeric column does. */
  function HalfAwayFromZero(x: real): int {
    if x < 0.0 then -((-x + 0.5).Floor) else (x + 0.5).Floor
  }

  /** What an exchange pays out: the converted amount, quantized to four decimals. */
  function TargetAmount(amount: real, rate: real): int {
    HalfEven(amount * rate)
  }

  /** `n` is a nearest unit to `x`, and it is the even one when there are two. */
  ghost predicate IsNearestTiesToEven(n: int, x: real) {
    && Within(Units(n), x, 0.5)
    && (Units(n) == x - 0.5 || Units(n) == x + 0.5 ==> n % 2 == 0)
  }

  /** Section 4.3.1 of IEEE 754-2008 determines the result, and `HalfEven` is that result. */
  lemma HalfEvenIsTheNearest(x: real, n: int)
    ensures IsNearestTiesToEven(n, x) <==> n == HalfEven(x)
  {
    var low := x.Floor;
    assert low as real <= x < low as real + 1.0;
    if IsNearestTiesToEven(n, x) {
      assert low as real - 0.5 <= n as real <= low as real + 1.5;
      assert n == low || n == low + 1;
    }
  }

  lemma HalfEvenMonotone(x: real, y: real)
    requires x <= y
    ensures HalfEven(x) <= HalfEven(y)
  {
    HalfEvenIsTheNearest(x, HalfEven(x));
    HalfEvenIsTheNearest(y, HalfEven(y));
  }

  lemma HalfEvenIsStorageRounding()
    ensures IsStorageRounding(HalfEven)
  {
    forall x: real, y: real | x <= y ensures HalfEven(x) <= HalfEven(y) {
      HalfEvenMonotone(x, y);
    }
    forall x: real ensures HalfEven(-x) == -HalfEven(x) {
      HalfEvenIsTheNearest(x, HalfEven(x));
      HalfEvenIsTheNearest(-x, -HalfEven(x));
    }
    forall n: int ensures HalfEven(Units(n)) == n {
      HalfEvenIsTheNearest(Units(n), n);
    }
  }

  lemma FloorMonotone(x: real, y: real)
    requires x <= y
    ensures x.Floor <= y.Floor
  {
    assert x.Floor as real <= x && y < y.Floor as real + 1.0;
  }

  lemma HalfAwayFromZeroIsStorageRounding()
    ensures IsStorageRounding(HalfAwayFromZero)
  {
    forall x: real, y: real | x <= y ensures HalfAwayFromZero(x) <= HalfAwayFromZero(y) {
      if x < 0.0 && y < 0.0 {
        FloorMonotone(-y + 0.5, -x + 0.5);
      } else if 0.0 <= x {
        FloorMonotone(x + 0.5, y + 0.5);
      } else {
        FloorMonotone(0.5, -x + 0.5);
        FloorMonotone(0.5, y + 0.5);
      }
    }
    forall n: int ensures HalfAwayFromZero(Units(n)) == n {
      if n < 0 {
        assert (-(n as real) + 0.5).Floor == -n;
      } else {
        assert (n as real + 0.5).Floor == n;
      }
    }
  }

  /** `n` is a nearest unit to `x`, and the one further from zero when there are two. */
  ghost predicate IsNearestTiesAway(n: int, x: real) {
    && Within(Units(n), x, 0.5)
    && (Units(n) == x - 0.5 ==> x < 0.0)
    && (Units(n) == x + 0.5 ==> 0.0 < x)
  }

  lemma HalfAwayFromZeroIsTheNearest(x: real, n: int)
    ensures IsNearestTiesAway(n, x) <==> n == HalfAwayFromZero(x)
  {
    var m := if x < 0.0 then -x else x;
    var low := (m + 0.5).Floor;
    assert low as real <= m + 0.5 < low as real + 1.0;
    if IsNearestTiesAway(n, x) {
      var k := if x < 0.0 then -n else n;
      assert m - 0.5 < k as real <= m + 0.5;
      assert k == low;
    }
  }

  /** An amount that the unrounded funds check lets through leaves a non-negative stored
      balance, and the stored debit and credit cancel exactly. */
  lemma StorageKeepsFunds(store: real -> int, balance: int, amount: real)
    requires IsStorageRounding(store)
    requires 0.0 < amount <= Units(balance)
    ensures balance + store(-amount) >= 0
    ensures store(-amount) + store(amount) == 0
    ensures store(amount) >= 0
  {
    assert store(Units(0)) <= store(amount) <= store(Units(balance));
  }

  /** The quantized conversion is within half a unit of the exact one and never negative. */
  lemma ExchangeWithinHalfUnit(amount: real, rate: real)
    ensures Within(Units(TargetAmount(amount, rate)), amount * rate, 0.5)
    ensures 0.0 < amount && 0.0 < rate ==> TargetAmount(amount, rate) >= 0
  {
    HalfEvenIsTheNearest(amount * rate, HalfEven(amount * rate));
    if 0.0 < amount && 0.0 < rate {
      assert 0.0 < amount * rate;
    }
  }

  lemma ExchangeMonotone(less: real, more: real, rate: real)
    requires less <= more && 0.0 < rate
    ensures TargetAmount(less, rate) <= TargetAmount(more, rate)
  {
    assert (more - less) * rate >= 0.0;
    assert less * rate <= more * rate;
    HalfEvenMonotone(less * rate, more * rate);
  }

  function SumOf(parts: seq<real>): real {
    if parts == [] then 0.0 else SumOf(parts[..|parts| - 1]) + parts[|parts| - 1]
  }

  /** What is received when each part is exchanged on its own. */
  function ReceivedInParts(parts: seq<real>, rate: real): int {
    if parts == [] then 0
    else ReceivedInParts(parts[..|parts| - 1], rate) + TargetAmount(parts[|parts| - 1], rate)
  }

  lemma WithinSum(x: real, y: real, d: real, x': real, y': real, d': real)
    requires Within(x, y, d) && Within(x', y', d')
    ensures Within(x + x', y + y', d + d')
  {
  }

  lemma WithinTriangle(x: real, y: real, z: real, d: real, d': real, total: real)
    requires Within(x, y, d) && Within(y, z, d') && d + d' == total
    ensures Within(x, z, total)
  {
  }

  lemma WithinScaled(x: real, y: real, d: real, factor: real)
    requires Within(x, y, d) && 0.0 <= factor
    ensures Within(x * factor, y * factor, d * factor)
  {
    assert 0.0 <= (x - (y - d)) * factor && 0.0 <= (y + d - x) * factor;
    assert (x - (y - d)) * factor == x * factor - (y * factor - d * factor);
    assert (y + d - x) * factor == y * factor + d * factor - x * factor;
  }

  lemma {:induction false} PartsDrift(parts: seq<real>, rate: real)
    ensures Within(Units(ReceivedInParts(parts, rate)), SumOf(parts) * rate, Units(|parts|) / 2.0)
  {
    if parts == [] {
      assert SumOf(parts) * rate == 0.0;
    } else {
      var init, last := parts[..|parts| - 1], parts[|parts| - 1];
      PartsDrift(init, rate);
      ExchangeWithinHalfUnit(last, rate);
      WithinSum(Units(ReceivedInParts(init, rate)), SumOf(init) * rate, Units(|init|) / 2.0,
                Units(TargetAmount(last, rate)), last * rate, 0.5);
      assert SumOf(parts) * rate == SumOf(init) * rate + last * rate;
    }
  }

  /** Splitting an exchange into n parts moves what is received by at most (n + 1) / 2 units. */
  lemma SplittingAnExchange(parts: seq<real>, rate: real)
    ensures Within(Units(ReceivedInParts(parts, rate)), Units(TargetAmount(SumOf(parts), rate)),
                   Units(|parts| + 1) / 2.0)
  {
    PartsDrift(parts, rate);
    ExchangeWithinHalfUnit(SumOf(parts), rate);
  }

  lemma BackFromMiddle(product: real, middle: int, back: real)
    requires 0.0 < back && Within(Units(middle), product, 0.5)
    ensures Within(Units(TargetAmount(Units(middle), back)), product * back, (back + 1.0) / 2.0)
  {
    var m := Units(middle);
    ExchangeWithinHalfUnit(m, back);
    WithinScaled(m, product, 0.5, back);
    WithinTriangle(Units(TargetAmount(m, back)), m * back, product * back, 0.5, 0.5 * back, (back + 1.0) / 2.0);
  }

  /** Converting there and back differs from the exact product by at most (s + 1) / 2 units. */
  lemma ThereAndBack(amount: real, there: real, back: real)
    requires 0.0 < back
    ensures Within(Units(TargetAmount(Units(TargetAmount(amount, there)), back)), amount * there * back,
                   (back + 1.0) / 2.0)
  {
    ExchangeWithinHalfUnit(amount, there);
    BackFromMiddle(amount * there, TargetAmount(amount, there), back);
  }
}
