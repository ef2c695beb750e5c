/**
 The 48-bit linear congruential generator behind fast_random and FastRandom,
 and the Hull-Dobell period argument for a modulus that is a power of two.
 */
module Lcg {
  import opened Bits

  const MULTIPLIER: nat := 0x5DEECE66D
  const INCREMENT: nat := 0xB
  const STATE_BITS: nat := 48
  const WORD: nat := 0x1_0000_0000_0000_0000

  /** One exact step of x -> a x + c modulo 2^e. */
  function Step(a: nat, c: nat, e: nat, x: nat): nat {
    (a * x + c) % Pow2(e)
  }

  function Iterate(a: nat, c: nat, e: nat, x: nat, n: nat): nat {
    if n == 0 then x else Step(a, c, e, Iterate(a, c, e, x, n - 1))
  }

  /** The n-th iterate before reduction is Slope(n) * x + Offset(n). */
  ghost function Slope(a: nat, n: nat): nat {
    if n == 0 then 1 else a * Slope(a, n - 1)
  }

  ghost function Offset(a: nat, c: nat, n: nat): nat {
    if n == 0 then 0 else a * Offset(a, c, n - 1) + c
  }

  lemma {:induction false} IterateIsAffine(a: nat, c: nat, e: nat, x: nat, n: nat)
    requires x < Pow2(e)
    ensures Iterate(a, c, e, x, n) == (Slope(a, n) * x + Offset(a, c, n)) % Pow2(e)
  {
    if n == 0 {
      ModUnique(x, Pow2(e), 0, x);
    } else {
      IterateIsAffine(a, c, e, x, n - 1);
      ReduceInside(a, c, Pow2(e), Slope(a, n - 1) * x + Offset(a, c, n - 1));
      AffineStep(a, c, Slope(a, n - 1), Offset(a, c, n - 1), x);
    }
  }

  lemma AffineStep(a: int, c: int, s: int, o: int, x: int)
    ensures a * (s * x + o) + c == (a * s) * x + (a * o + c)
  {
    Distribute(a, s * x, o);
  }

  lemma ReduceInside(a: int, c: int, m: int, y: int)
    requires m >= 1
    ensures (a * (y % m) + c) % m == (a * y + c) % m
  {
    var q, r := y / m, y % m;
    AffineStep(a, c, m, r, q);
    assert (a * m) * q == m * (a * q);
    SameResidue(a * y + c, a * r + c, m, a * q);
  }

  lemma SameResidue(x: int, y: int, m: int, q: int)
    requires m >= 1 && x == y + m * q
    ensures x % m == y % m
  {
    Distribute(m, y / m, q);
    ModUnique(x, m, y / m + q, y % m);
  }

  lemma {:induction false} Compose(a: nat, c: nat, m: nat, n: nat)
    ensures Slope(a, m + n) == Slope(a, m) * Slope(a, n)
    ensures Offset(a, c, m + n) == Slope(a, m) * Offset(a, c, n) + Offset(a, c, m)
  {
    if m > 0 {
      Compose(a, c, m - 1, n);
      AffineStep(a, 0, Slope(a, m - 1), 0, Slope(a, n));
      AffineStep(a, c, Slope(a, m - 1), Offset(a, c, m - 1), Offset(a, c, n));
      assert Slope(a, m + n) == a * Slope(a, m - 1 + n);
      assert Offset(a, c, m + n) == a * Offset(a, c, m - 1 + n) + c;
    }
  }

  /** 2-adic shape of 2^k steps: slope 1 modulo 4 * 2^k, offset an odd multiple of 2^k. */
  lemma {:induction false} PowerSteps(a: nat, c: nat, k: nat) returns (t: int, u: int)
    requires a % 4 == 1 && c % 2 == 1
    ensures Slope(a, Pow2(k)) == 1 + 4 * (Pow2(k) * t)
    ensures Offset(a, c, Pow2(k)) == Pow2(k) * (1 + 2 * u)
  {
    if k == 0 {
      assert Slope(a, 1) == a * Slope(a, 0) == a;
      assert Offset(a, c, 1) == a * Offset(a, c, 0) + c == c;
      t, u := a / 4, c / 2;
    } else {
      var t0, u0 := PowerSteps(a, c, k - 1);
      Compose(a, c, Pow2(k - 1), Pow2(k - 1));
      t, u := SquareShape(Pow2(k - 1), t0, u0);
    }
  }

  lemma SquareShape(p: int, t: int, u: int) returns (t': int, u': int)
    ensures (1 + 4 * (p * t)) * (1 + 4 * (p * t)) == 1 + 4 * ((2 * p) * t')
    ensures (1 + 4 * (p * t)) * (p * (1 + 2 * u)) + p * (1 + 2 * u) == (2 * p) * (1 + 2 * u')
  {
    t' := SquareSlope(p, t);
    u' := DoubleOffset(p, p * t, u);
  }

  lemma SquareSlope(p: int, t: int) returns (t': int)
    ensures (1 + 4 * (p * t)) * (1 + 4 * (p * t)) == 1 + 4 * ((2 * p) * t')
  {
    var q := p * t;
    t' := t + 2 * (t * q);
    assert (1 + 4 * q) * (1 + 4 * q) == 1 + 8 * q + 16 * (q * q);
    Distribute(p, t, 2 * (t * q));
    Twice(p, t * q);
    Associate(p, t, q);
    Associate(2, p, t');
  }

  lemma DoubleOffset(p: int, q: int, u: int) returns (u': int)
    ensures (1 + 4 * q) * (p * (1 + 2 * u)) + p * (1 + 2 * u) == (2 * p) * (1 + 2 * u')
  {
    var v := 1 + 2 * u;
    u' := u + q + 2 * (q * u);
    Distribute(q, 1, 2 * u);
    Twice(q, u);
    assert 1 + 2 * u' == v + 2 * (q * v);
    var w := p * v;
    Distribute(w, 1, 4 * q);
    Distribute(p, v, 2 * (q * v));
    Twice(p, q * v);
    Associate(2, p, v + 2 * (q * v));
    Associate(p, v, q);
    Associate(w, 4, q);
  }

  lemma Twice(a: int, b: int)
    ensures a * (2 * b) == 2 * (a * b)
  {
  }

  lemma Associate(a: int, b: int, c: int)
    ensures (a * b) * c == a * (b * c) && a * b == b * a && b * c == c * b
  {
  }

  /** m * 2^k steps add an odd or even multiple of 2^k, following the parity of m. */
  lemma {:induction false} MultipleSteps(a: nat, c: nat, k: nat, m: nat) returns (t: int, u: int)
    requires a % 4 == 1 && c % 2 == 1
    ensures Slope(a, Pow2(k) * m) == 1 + 4 * (Pow2(k) * t)
    ensures Offset(a, c, Pow2(k) * m) == Pow2(k) * (m + 2 * u)
  {
    var p := Pow2(k);
    if m == 0 {
      t, u := 0, 0;
    } else {
      var t0, u0 := MultipleSteps(a, c, k, m - 1);
      var t1, u1 := PowerSteps(a, c, k);
      Distribute(p, m - 1, 1);
      MulNonneg(p, m - 1);
      Compose(a, c, p, p * (m - 1));
      t, u := ProductShape(p, t1, u1, t0, m - 1, u0);
    }
  }

  lemma ProductShape(p: int, t1: int, u1: int, t0: int, m: int, u0: int) returns (t: int, u: int)
    ensures (1 + 4 * (p * t1)) * (1 + 4 * (p * t0)) == 1 + 4 * (p * t)
    ensures (1 + 4 * (p * t1)) * (p * (m + 2 * u0)) + p * (1 + 2 * u1) == p * (m + 1 + 2 * u)
  {
    var q, r := p * t1, p * t0;
    t := t1 + t0 + 4 * (t1 * r);
    Distribute(p, t1 + t0, 4 * (t1 * r));
    assert p * (4 * (t1 * r)) == 4 * (q * r);
    var v := m + 2 * u0;
    u := u0 + u1 + 2 * (q * v);
    assert (1 + 4 * q) * (p * v) == p * v + 4 * (q * (p * v));
    assert q * (p * v) == p * (q * v);
    Distribute(p, v + (1 + 2 * u1), 4 * (q * v));
  }

  /** Every positive n is an odd multiple of a power of two. */
  lemma {:induction false} OddPart(n: nat) returns (k: nat, m: nat)
    requires n > 0
    ensures n == Pow2(k) * m && m % 2 == 1
  {
    if n % 2 == 1 {
      k, m := 0, n;
    } else {
      var k0, m0 := OddPart(n / 2);
      k, m := k0 + 1, m0;
      assert Pow2(k) * m == 2 * (Pow2(k0) * m0);
    }
  }

  /** After n = m * 2^k steps the state has moved by 2^k * (m + 2 z) modulo 2^e. */
  lemma Displacement(a: nat, c: nat, e: nat, x: nat, k: nat, m: nat) returns (z: int)
    requires a % 4 == 1 && c % 2 == 1 && x < Pow2(e)
    ensures Pow2(k) * m >= 0
    ensures Iterate(a, c, e, x, Pow2(k) * m) == (x + Pow2(k) * (m + 2 * z)) % Pow2(e)
  {
    var p := Pow2(k);
    MulNonneg(p, m);
    var t, u := MultipleSteps(a, c, k, m);
    IterateIsAffine(a, c, e, x, p * m);
    z := MoveShape(p, t, x, m, u);
  }

  lemma MoveShape(p: int, t: int, x: int, m: int, u: int) returns (z: int)
    ensures (1 + 4 * (p * t)) * x + p * (m + 2 * u) == x + p * (m + 2 * z)
  {
    z := u + 2 * (t * x);
    Distribute(p, m + 2 * u, 4 * (t * x));
    Distribute(x, 1, 4 * (p * t));
    assert x * (4 * (p * t)) == 4 * (p * (t * x));
  }

  /** Hull-Dobell for modulus 2^e: every state returns after exactly 2^e steps, and no earlier. */
  lemma FullPeriod(a: nat, c: nat, e: nat, x: nat)
    requires a % 4 == 1 && c % 2 == 1 && x < Pow2(e)
    ensures Iterate(a, c, e, x, Pow2(e)) == x
    ensures forall n: nat :: 0 < n < Pow2(e) ==> Iterate(a, c, e, x, n) != x
  {
    var z := Displacement(a, c, e, x, e, 1);
    ModUnique(x + Pow2(e) * (1 + 2 * z), Pow2(e), 1 + 2 * z, x);
    forall n: nat | 0 < n < Pow2(e)
      ensures Iterate(a, c, e, x, n) != x
    {
      NoEarlyReturn(a, c, e, x, n);
    }
  }

  lemma NoEarlyReturn(a: nat, c: nat, e: nat, x: nat, n: nat)
    requires a % 4 == 1 && c % 2 == 1 && x < Pow2(e) && 0 < n < Pow2(e)
    ensures Iterate(a, c, e, x, n) != x
  {
    var k, m := OddPart(n);
    OddPartIsSmall(e, k, m);
    var z := Displacement(a, c, e, x, k, m);
    PowerSplit(e, k);
    OddMoveIsSeen(Pow2(k), Pow2(e - k - 1), m, z, x, Pow2(e));
  }

  lemma PowerSplit(e: nat, k: nat)
    requires k < e
    ensures Pow2(e) == Pow2(k) * (2 * Pow2(e - k - 1))
  {
    Pow2Sum(k, e - k);
  }

  lemma OddPartIsSmall(e: nat, k: nat, m: nat)
    requires m >= 1 && Pow2(k) * m < Pow2(e)
    ensures k < e
  {
    MulNonneg(Pow2(k), m - 1);
    Distribute(Pow2(k), m, 1);
    if k > e { Pow2Monotone(e, k); }
  }

  lemma OddMoveIsSeen(p: int, h: int, m: int, z: int, x: int, w: int)
    requires p >= 1 && h >= 1 && m % 2 == 1 && w == p * (2 * h) && w >= 1
    ensures (x + p * (m + 2 * z)) % w != x
  {
    var move := m + 2 * z;
    if (x + p * move) % w == x {
      var q := (x + p * move) / w;
      assert p * move == w * q;
      Regroup(p, h, q);
      Distribute(p, move, 2 * (h * q));
      CancelFactor(p, move - 2 * (h * q));
      assert false;
    }
  }

  lemma Regroup(p: int, h: int, q: int)
    ensures (p * (2 * h)) * q == p * (2 * (h * q))
  {
    assert (p * (2 * h)) * q == 2 * ((p * h) * q);
  }

  lemma CancelFactor(p: int, d: int)
    requires p >= 1 && p * d == 0
    ensures d == 0
  {
    if d > 0 {
      MulNonneg(p - 1, d);
      Distribute(d, p, 1);
    } else if d < 0 {
      MulNonneg(p - 1, -d);
      Distribute(-d, p, 1);
    }
  }

  lemma {:induction false} IterateSum(a: nat, c: nat, e: nat, x: nat, m: nat, n: nat)
    ensures Iterate(a, c, e, x, m + n) == Iterate(a, c, e, Iterate(a, c, e, x, n), m)
  {
    if m > 0 {
      IterateSum(a, c, e, x, m - 1, n);
    }
  }

  /** One step is a bijection of the states: 2^e - 1 further steps undo it, on either side. */
  lemma StepIsBijection(a: nat, c: nat, e: nat, x: nat)
    requires a % 4 == 1 && c % 2 == 1 && x < Pow2(e)
    ensures Iterate(a, c, e, Step(a, c, e, x), Pow2(e) - 1) == x
    ensures Step(a, c, e, Iterate(a, c, e, x, Pow2(e) - 1)) == x
  {
    FullPeriod(a, c, e, x);
    IterateSum(a, c, e, x, Pow2(e) - 1, 1);
    assert Iterate(a, c, e, x, 1) == Step(a, c, e, Iterate(a, c, e, x, 0));
  }

  // ------------------------------------------------------------------ the 48-bit instance

  /** The assignment in next(bits): wrapping 64-bit multiply and add, then the 48-bit mask. */
  function WrappingStep(seed: nat): nat {
    And((seed * MULTIPLIER % WORD + INCREMENT) % WORD, Pow2(STATE_BITS) - 1)
  }

  lemma WordIsMultiple()
    ensures WORD == Pow2(STATE_BITS) * 65536
  {
    assert Pow2(12) == 4096;
    Pow2Sum(12, 12);
    Pow2Sum(24, 24);
  }

  lemma DropHighBits(x: nat, m: nat, f: nat)
    requires m >= 1 && f >= 1
    ensures m * f >= 1 && (x % (m * f)) % m == x % m
  {
    MulNonneg(m - 1, f);
    Distribute(f, m, 1);
    var q := x / (m * f);
    assert (m * f) * q == m * (f * q);
    SameResidue(x, x % (m * f), m, f * q);
  }

  /** Wrap-around at 2^64 is invisible: the masked word is the exact recurrence modulo 2^48. */
  lemma WrappingStepIsExact(seed: nat)
    ensures WrappingStep(seed) == Step(MULTIPLIER, INCREMENT, STATE_BITS, seed) < Pow2(STATE_BITS)
  {
    var m := Pow2(STATE_BITS);
    var y := seed * MULTIPLIER;
    MaskIsMod((y % WORD + INCREMENT) % WORD, STATE_BITS);
    WordIsMultiple();
    DropHighBits(y % WORD + INCREMENT, m, 65536);
    SameResidue(y + INCREMENT, y % WORD + INCREMENT, m, 65536 * (y / WORD));
  }

  /** The generator visits all 2^48 states from every seed before it repeats. */
  lemma SeedPeriod(seed: nat)
    requires seed < Pow2(STATE_BITS)
    ensures Iterate(MULTIPLIER, INCREMENT, STATE_BITS, seed, Pow2(STATE_BITS)) == seed
    ensures forall n: nat :: 0 < n < Pow2(STATE_BITS) ==>
              Iterate(MULTIPLIER, INCREMENT, STATE_BITS, seed, n) != seed
  {
    FullPeriod(MULTIPLIER, INCREMENT, STATE_BITS, seed);
  }

  class FastRandom {
    var seed: nat

    /** next(bits): advance the state and return its top bits. */
    method Next(bits: nat) returns (r: nat)
      requires bits <= STATE_BITS
      modifies this
      ensures seed == Step(MULTIPLIER, INCREMENT, STATE_BITS, old(seed))
      ensures seed == (0x5DEECE66D * old(seed) + 0xB) % Pow2(48)
      ensures r == seed / Pow2(STATE_BITS - bits) && r < Pow2(bits)
    {
      WrappingStepIsExact(seed);
      seed := WrappingStep(seed);
      ShrDivides(seed, STATE_BITS - bits);
      ShrBound(seed, bits, STATE_BITS - bits);
      r := Shr(seed, STATE_BITS - bits);
    }

    /** The numerator of next_uniform: 26 and 27 fresh bits make a 53-bit integer. */
    method NextUniform() returns (k: nat)
      modifies this
      ensures seed == Step(MULTIPLIER, INCREMENT, STATE_BITS, Step(MULTIPLIER, INCREMENT, STATE_BITS, old(seed)))
      ensures k == UniformNumerator(old(seed)) && k < Pow2(53)
      ensures k / Pow2(27) == Step(MULTIPLIER, INCREMENT, STATE_BITS, old(seed)) / Pow2(22)
      ensures k % Pow2(27) == seed / Pow2(21)
    {
      UniformRange(seed);
      UniformBits(seed);
      var hi := Next(26);
      ShrDivides(seed, STATE_BITS - 26);
      var lo := Next(27);
      ShrDivides(seed, STATE_BITS - 27);
      k := Shl(hi, 27) + lo;
    }
  }

  function UniformNumerator(seed: nat): nat {
    var s1 := Step(MULTIPLIER, INCREMENT, STATE_BITS, seed);
    var s2 := Step(MULTIPLIER, INCREMENT, STATE_BITS, s1);
    Shl(Shr(s1, STATE_BITS - 26), 27) + Shr(s2, STATE_BITS - 27)
  }

  lemma UniformRange(seed: nat)
    ensures UniformNumerator(seed) < Pow2(53)
  {
    var s1 := Step(MULTIPLIER, INCREMENT, STATE_BITS, seed);
    var s2 := Step(MULTIPLIER, INCREMENT, STATE_BITS, s1);
    ShrBound(s1, 26, STATE_BITS - 26);
    ShrBound(s2, 27, STATE_BITS - 27);
    ShlMultiplies(Shr(s1, STATE_BITS - 26), 27);
    Pow2Sum(26, 27);
    TwoDigits(Shr(s1, STATE_BITS - 26), Shr(s2, STATE_BITS - 27), Pow2(26), Pow2(27));
  }

  /** The high 26 bits of a numerator are the top bits of the first new state, the low 27 those of the second. */
  lemma UniformBits(seed: nat)
    ensures var s1 := Step(MULTIPLIER, INCREMENT, STATE_BITS, seed);
            && UniformNumerator(seed) / Pow2(27) == s1 / Pow2(22)
            && UniformNumerator(seed) % Pow2(27) == Step(MULTIPLIER, INCREMENT, STATE_BITS, s1) / Pow2(21)
  {
    hide Step, Pow2, Shr, Shl;
    var s1 := Step(MULTIPLIER, INCREMENT, STATE_BITS, seed);
    var s2 := Step(MULTIPLIER, INCREMENT, STATE_BITS, s1);
    StepIsState(seed);
    StepIsState(s1);
    NumeratorSplits(s1, s2, 26, 27);
  }

  lemma NumeratorSplits(s1: nat, s2: nat, j: nat, k: nat)
    requires s1 < Pow2(STATE_BITS) && s2 < Pow2(STATE_BITS) && j <= STATE_BITS && k <= STATE_BITS
    ensures var n := Shl(Shr(s1, STATE_BITS - j), k) + Shr(s2, STATE_BITS - k);
            n / Pow2(k) == s1 / Pow2(STATE_BITS - j) && n % Pow2(k) == s2 / Pow2(STATE_BITS - k)
  {
    hide *;
    var hi, lo := Shr(s1, STATE_BITS - j), Shr(s2, STATE_BITS - k);
    ShrDivides(s1, STATE_BITS - j);
    ShrDivides(s2, STATE_BITS - k);
    ShrBound(s2, k, STATE_BITS - k);
    ShlMultiplies(hi, k);
    ModUnique(Shl(hi, k) + lo, Pow2(k), hi, lo);
  }

  lemma StepIsState(seed: nat)
    ensures Step(MULTIPLIER, INCREMENT, STATE_BITS, seed) < Pow2(STATE_BITS)
  {
  }

  lemma TwoDigits(hi: int, lo: int, p: int, q: int)
    requires hi < p && lo < q && q >= 0
    ensures hi * q + lo < p * q
  {
    MulNonneg(p - 1 - hi, q);
    Distribute(q, p - 1, hi);
    Distribute(q, p, 1);
  }
}
