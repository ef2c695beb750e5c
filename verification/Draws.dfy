/**
 RandomNumber, NonUniformRandom and the id generators built on them. A call to
 next_uniform is the exact fraction k / 2^53 of its 53-bit numerator k.
 */
module Draws {
  import opened Bits
  import opened Lcg

  const ONE: nat := 0x20_0000_0000_0000

  /** The denominator of a uniform draw is the bound of the generator's numerators. */
  lemma OneIsPow2()
    ensures ONE == Pow2(53)
  {
    assert Pow2(13) == 8192;
    Pow2Sum(13, 13);
    assert Pow2(27) == 2 * Pow2(26);
    Pow2Sum(26, 27);
  }

  /** C++ integer conversion and division round toward zero. */
  function TruncDiv(n: int, d: int): int
    requires d > 0
  {
    if n >= 0 then n / d else -((-n) / d)
  }

  function TruncMod(n: int, d: int): int
    requires d > 0
  {
    n - d * TruncDiv(n, d)
  }

  /** (int)(k / 2^53 * (max - min + 1) + min). */
  function RandomNumber(k: nat, min: int, max: int): int {
    TruncDiv(k * (max - min + 1) + min * ONE, ONE)
  }

  lemma QuotientBetween(n: int, d: int, lo: int, hi: int)
    requires d > 0 && n >= 0 && lo * d <= n < (hi + 1) * d
    ensures lo <= n / d <= hi
  {
    var q := n / d;
    assert d * q <= n < d * q + d;
    if q < lo {
      MulNonneg(lo - q - 1, d);
      Distribute(d, lo, q + 1);
      Distribute(d, q, 1);
    }
    if q > hi {
      MulNonneg(q - hi - 1, d);
      Distribute(d, q, hi + 1);
    }
  }

  lemma RandomNumberInRange(k: nat, min: int, max: int)
    requires k < ONE && min <= max && 0 <= max
    ensures min <= RandomNumber(k, min, max) <= max
  {
    var w := max - min + 1;
    var n := k * w + min * ONE;
    MulNonneg(k, w);
    MulNonneg(ONE - 1 - k, w);
    Distribute(w, ONE - 1, k);
    Distribute(ONE, max + 1, min);
    assert min * ONE <= n < (max + 1) * ONE;
    if n >= 0 {
      QuotientBetween(n, ONE, min, max);
    } else {
      QuotientBetween(-n, ONE, 0, -min);
    }
  }

  lemma RandomNumberAtZero(min: int, max: int)
    ensures RandomNumber(0, min, max) == min
  {
  }

  /**
   The assertion inside RandomNumber holds of every draw exactly when max is not negative:
   rounding toward zero carries the largest draw of a negative interval past max.
   */
  lemma RandomNumberExactly(min: int, max: int)
    requires min <= max && max - min + 1 < ONE
    ensures (forall k: nat :: k < ONE ==> min <= RandomNumber(k, min, max) <= max) <==> 0 <= max
  {
    if 0 <= max {
      forall k: nat | k < ONE
        ensures min <= RandomNumber(k, min, max) <= max
      {
        RandomNumberInRange(k, min, max);
      }
    } else {
      var w := max - min + 1;
      var n := (ONE - 1) * w + min * ONE;
      assert n == (max + 1) * ONE - w;
      QuotientBetween(-n, ONE, -max - 1, -max - 1);
      assert RandomNumber(ONE - 1, min, max) == max + 1;
    }
  }

  /** On a non-negative interval a draw is min plus the exact floor of the fraction of the interval's size. */
  lemma RandomNumberIsFloor(k: nat, min: nat, max: nat)
    requires k < ONE && min <= max
    ensures var moved := RandomNumber(k, min, max) - min;
            moved * ONE <= k * (max - min + 1) < (moved + 1) * ONE
  {
    var w := max - min + 1;
    var n := k * w + min * ONE;
    MulNonneg(k, w);
    MulNonneg(min, ONE);
    var r := n / ONE;
    assert RandomNumber(k, min, max) == r;
    assert ONE * r <= n < ONE * r + ONE;
    Distribute(ONE, r, min);
    Distribute(ONE, r - min, 1);
  }

  /** Every value of a non-negative interval is drawn by some 53-bit numerator. */
  lemma RandomNumberCovers(min: nat, max: nat, v: nat) returns (k: nat)
    requires min <= v <= max && max - min + 1 <= ONE
    ensures k < ONE && RandomNumber(k, min, max) == v
  {
    var w := max - min + 1;
    var t := (v - min) * ONE;
    // the least k with k * w >= t
    k := (t + w - 1) / w;
    var r := (t + w - 1) % w;
    assert t + w - 1 == w * k + r;
    assert t <= k * w < t + w;
    MulNonneg(w - 1 - (v - min), ONE);
    Distribute(ONE, w - 1, v - min);
    if k >= ONE {
      MulNonneg(w, k - ONE);
      Distribute(w, k, ONE);
      assert false;
    }
    Distribute(ONE, v, min);
    QuotientBetween(k * w + min * ONE, ONE, v, v);
  }

  function NonUniformRandom(k1: nat, k2: nat, A: int, C: int, min: int, max: int): int
    requires min <= max
  {
    TruncMod(Or(RandomNumber(k1, 0, A), RandomNumber(k2, min, max)) + C, max - min + 1) + min
  }

  lemma TruncModNonneg(n: int, d: int)
    requires d > 0 && n >= 0
    ensures 0 <= TruncMod(n, d) < d
  {
  }

  lemma TruncModNegative(n: int, d: int)
    requires d > 0 && n < 0
    ensures TruncMod(n, d) == -((-n) % d)
  {
  }

  /** Rounding toward zero never takes a draw below min, not even on a negative interval. */
  lemma RandomNumberFromMin(k: nat, min: int, max: int)
    requires k < ONE && min <= max
    ensures min <= RandomNumber(k, min, max)
  {
    if 0 <= max {
      RandomNumberInRange(k, min, max);
    } else {
      var w := max - min + 1;
      var n := k * w + min * ONE;
      MulNonneg(k, w);
      if n < 0 {
        QuotientBetween(-n, ONE, 0, -min);
      } else {
        QuotientBetween(n, ONE, 0, n);
      }
    }
  }

  /** On a negative interval the second smallest numerator draws a value above min. */
  lemma RandomNumberAtOne(min: int, max: int)
    requires min < max < 0
    ensures min < RandomNumber(1, min, max) <= max
  {
    var w := max - min + 1;
    Distribute(ONE, -min, 1);
    MulNonneg(w - 2, ONE - 1);
    Distribute(ONE, w, 1);
    Distribute(ONE, -max, 1);
    assert RandomNumber(1, min, max) == -((-min * ONE - w) / ONE);
    QuotientBetween(-min * ONE - w, ONE, -max, -min - 1);
  }

  ghost predicate InRangeForAllDraws(A: int, C: int, min: int, max: int)
    requires min <= max
  {
    forall k1: nat, k2: nat {:trigger NonUniformRandom(k1, k2, A, C, min, max)} :: k1 < ONE && k2 < ONE ==>
      min <= NonUniformRandom(k1, k2, A, C, min, max) <= max
  }

  lemma NonUniformRandomInRange(A: nat, C: nat, min: int, max: int, k1: nat, k2: nat)
    requires min <= max && (0 <= min + C || min == max) && k1 < ONE && k2 < ONE
    ensures min <= NonUniformRandom(k1, k2, A, C, min, max) <= max
  {
    var a, b := RandomNumber(k1, 0, A), RandomNumber(k2, min, max);
    RandomNumberInRange(k1, 0, A);
    RandomNumberFromMin(k2, min, max);
    OrRaises(a, b);
    var n := Or(a, b) + C;
    if n >= 0 {
      TruncModNonneg(n, max - min + 1);
    } else {
      TruncModNegative(n, 1);
    }
  }

  lemma SmallestMultiple(n: nat, w: nat)
    requires n > 0 && w > 0 && n % w == 0
    ensures n >= w
  {
  }

  lemma BelowMultiple(n: nat, w: nat, t: nat)
    requires 0 < t < w <= n && n % w == 0
    ensures (n - t) % w == w - t
  {
    Distribute(w, n / w, 1);
    ModUnique(n - t, w, n / w - 1, w - t);
  }

  /** When min + C is negative and the interval has more than one value, some draw falls below min. */
  lemma NonUniformRandomFails(A: nat, C: nat, min: int, max: int) returns (k2: nat)
    requires min < max && min + C < 0
    ensures k2 < ONE && NonUniformRandom(0, k2, A, C, min, max) < min
  {
    var w, n := max - min + 1, -(min + C);
    RandomNumberAtZero(0, A);
    RandomNumberAtZero(min, max);
    TruncModNegative(min + C, w);
    hide TruncMod, TruncDiv, RandomNumber;
    k2 := 0;
    if n % w == 0 {
      SmallestMultiple(n, w);
      k2 := 1;
      RandomNumberAtOne(min, max);
      var y := RandomNumber(1, min, max);
      BelowMultiple(n, w, y - min);
      assert -(y + C) == n - (y - min);
      TruncModNegative(y + C, w);
    }
  }

  /**
   With A and C non-negative, NonUniformRandom stays in [min, max] for every pair of draws
   exactly when min + C is not negative or the interval is a single value.
   */
  lemma NonUniformRandomExactly(A: nat, C: nat, min: int, max: int)
    requires min <= max
    ensures InRangeForAllDraws(A, C, min, max) <==> 0 <= min + C || min == max
  {
    if 0 <= min + C || min == max {
      forall k1: nat, k2: nat | k1 < ONE && k2 < ONE
        ensures min <= NonUniformRandom(k1, k2, A, C, min, max) <= max
      {
        NonUniformRandomInRange(A, C, min, max, k1, k2);
      }
    } else {
      var k2 := NonUniformRandomFails(A, C, min, max);
    }
  }

  /** x has exactly the bits of a and those of b. */
  ghost predicate HasBitsOf(x: int, a: int, b: int) {
    forall j: nat :: BitAt(x, j) <==> BitAt(a, j) || BitAt(b, j)
  }

  /**
   A draw is the sum of C and a number, reduced and shifted into the interval; that number has exactly the bits that are
   set in one of the two uniform draws, and no other number has.
   */
  lemma NonUniformRandomBits(k1: nat, k2: nat, A: nat, C: nat, min: nat, max: nat) returns (x: nat)
    requires min <= max && k1 < ONE && k2 < ONE
    ensures NonUniformRandom(k1, k2, A, C, min, max) == (x + C) % (max - min + 1) + min
    ensures HasBitsOf(x, RandomNumber(k1, 0, A), RandomNumber(k2, min, max))
    ensures forall y: nat :: HasBitsOf(y, RandomNumber(k1, 0, A), RandomNumber(k2, min, max)) ==> y == x
  {
    var a, b := RandomNumber(k1, 0, A), RandomNumber(k2, min, max);
    RandomNumberInRange(k1, 0, A);
    RandomNumberInRange(k2, min, max);
    OrSign(a, b);
    x := Or(a, b);
    TruncModIsMod(x + C, max - min + 1);
    hide RandomNumber, Or, TruncMod, BitAt;
    forall j: nat
      ensures BitAt(x, j) <==> BitAt(a, j) || BitAt(b, j)
    {
      OrBits(a, b, j);
    }
    forall y: nat | HasBitsOf(y, a, b)
      ensures y == x
    {
      assert forall j: nat :: BitAt(y, j) <==> BitAt(x, j);
      BitsDetermine(y, x);
    }
  }

  lemma TruncModIsMod(n: nat, d: nat)
    requires d > 0
    ensures TruncMod(n, d) == n % d
  {
  }

  const NUM_CUSTOMER: nat := 3000
  const NUM_ITEM: nat := 100000

  function GetCustomerId(k1: nat, k2: nat): int {
    NonUniformRandom(k1, k2, 1023, 259, 1, NUM_CUSTOMER)
  }

  function GetItemId(uniform: bool, k1: nat, k2: nat): int {
    if uniform then RandomNumber(k1, 1, NUM_ITEM) else NonUniformRandom(k1, k2, 8191, 7911, 1, NUM_ITEM)
  }

  /** The customer id of TPC-C section 2.1.6: NURand(1023, 1, 3000) with constant 259. */
  lemma CustomerIdBits(k1: nat, k2: nat) returns (x: nat)
    requires k1 < ONE && k2 < ONE
    ensures GetCustomerId(k1, k2) == (x + 259) % 3000 + 1
    ensures HasBitsOf(x, RandomNumber(k1, 0, 1023), RandomNumber(k2, 1, 3000))
  {
    hide NonUniformRandom, RandomNumber, HasBitsOf;
    x := NonUniformRandomBits(k1, k2, 1023, 259, 1, NUM_CUSTOMER);
  }

  /** The item id: NURand(8191, 1, 100000) with constant 7911, or a plain uniform draw. */
  lemma ItemIdBits(uniform: bool, k1: nat, k2: nat) returns (x: nat)
    requires k1 < ONE && k2 < ONE
    ensures uniform ==> GetItemId(uniform, k1, k2) == RandomNumber(k1, 1, 100000)
    ensures !uniform ==> GetItemId(uniform, k1, k2) == (x + 7911) % 100000 + 1
    ensures HasBitsOf(x, RandomNumber(k1, 0, 8191), RandomNumber(k2, 1, 100000))
  {
    hide NonUniformRandom, RandomNumber, HasBitsOf;
    x := NonUniformRandomBits(k1, k2, 8191, 7911, 1, NUM_ITEM);
  }

  /** Every generated customer and item id names a loaded row. */
  lemma GeneratedIdsAreLoaded(uniform: bool, k1: nat, k2: nat)
    requires k1 < ONE && k2 < ONE
    ensures 1 <= GetCustomerId(k1, k2) <= NUM_CUSTOMER
    ensures 1 <= GetItemId(uniform, k1, k2) <= NUM_ITEM
  {
    NonUniformRandomInRange(1023, 259, 1, NUM_CUSTOMER, k1, k2);
    NonUniformRandomInRange(8191, 7911, 1, NUM_ITEM, k1, k2);
    RandomNumberInRange(k1, 1, NUM_ITEM);
  }

  /** On the numerators the 48-bit generator delivers from any two states, the ids drawn are loaded ones. */
  lemma EverySeedDrawsLoadedIds(uniform: bool, seed1: nat, seed2: nat)
    ensures 1 <= GetCustomerId(UniformNumerator(seed1), UniformNumerator(seed2)) <= NUM_CUSTOMER
    ensures 1 <= GetItemId(uniform, UniformNumerator(seed1), UniformNumerator(seed2)) <= NUM_ITEM
  {
    OneIsPow2();
    UniformRange(seed1);
    UniformRange(seed2);
    GeneratedIdsAreLoaded(uniform, UniformNumerator(seed1), UniformNumerator(seed2));
  }
}
