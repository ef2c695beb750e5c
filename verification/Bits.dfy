/**
 Powers of two, and the bitwise operators of the C++ code on mathematical integers.
 A negative integer is read as its infinite two's complement expansion.
 */
module Bits {

  function Pow2(k: nat): (p: nat)
    ensures p >= 1
  {
    if k == 0 then 1 else 2 * Pow2(k - 1)
  }

  lemma {:induction false} Pow2Sum(j: nat, k: nat)
    ensures Pow2(j + k) == Pow2(j) * Pow2(k)
  {
    if j > 0 {
      Pow2Sum(j - 1, k);
    }
  }

  lemma {:induction false} Pow2Monotone(j: nat, k: nat)
    requires j < k
    ensures Pow2(j) < Pow2(k)
  {
    if j + 1 < k {
      Pow2Monotone(j, k - 1);
    }
  }

  /** Bitwise and of two naturals, least significant bit first. */
  function And(x: nat, y: nat): nat {
    if x == 0 then 0 else (if x % 2 == 1 && y % 2 == 1 then 1 else 0) + 2 * And(x / 2, y / 2)
  }

  /** Masking with k ones keeps the residue modulo 2^k. */
  lemma MaskIsMod(x: nat, k: nat)
    ensures And(x, Pow2(k) - 1) == x % Pow2(k)
  {
    var q := MaskSplits(x, k);
    ModUnique(x, Pow2(k), q, And(x, Pow2(k) - 1));
  }

  lemma {:induction false} MaskSplits(x: nat, k: nat) returns (q: nat)
    ensures x == Pow2(k) * q + And(x, Pow2(k) - 1)
    ensures And(x, Pow2(k) - 1) < Pow2(k)
  {
    if x == 0 {
      q := 0;
    } else if k == 0 {
      MaskZero(x);
      q := x;
    } else {
      q := MaskSplits(x / 2, k - 1);
      OddHalf(Pow2(k - 1));
      DoubleProduct(Pow2(k - 1), q);
    }
  }

  lemma DoubleProduct(p: int, q: int)
    ensures (2 * p) * q == 2 * (p * q)
  {
  }

  lemma {:induction false} MaskZero(x: nat)
    ensures And(x, 0) == 0
  {
    if x > 0 {
      MaskZero(x / 2);
    }
  }

  lemma OddHalf(p: nat)
    requires p >= 1
    ensures (2 * p - 1) % 2 == 1 && (2 * p - 1) / 2 == p - 1
  {
  }

  lemma MulNonneg(a: int, b: int)
    requires a >= 0 && b >= 0
    ensures a * b >= 0
  {
  }

  lemma Distribute(a: int, b: int, c: int)
    ensures a * (b + c) == a * b + a * c && a * (b - c) == a * b - a * c
  {
  }

  lemma ModUnique(x: int, m: int, q: int, r: int)
    requires 0 <= r < m && x == m * q + r
    ensures x % m == r && x / m == q
  {
    var q' := x / m;
    var d := q - q';
    Distribute(m, q, q');
    assert -m < m * d < m;
    if d > 0 {
      MulNonneg(m, d - 1);
      Distribute(m, d, 1);
    } else if d < 0 {
      MulNonneg(m, -1 - d);
      Distribute(m, -1, d);
    }
  }

  /** Bitwise or of two (possibly negative) integers; x / 2 and x % 2 are the shift and the low bit. */
  function Or(x: int, y: int): int
    decreases if x < 0 then -x else x, if y < 0 then -y else y
  {
    if x == 0 then y
    else if x == -1 then -1
    else (if x % 2 == 1 || y % 2 == 1 then 1 else 0) + 2 * Or(x / 2, y / 2)
  }

  /** The sign of an or: it is negative as soon as one operand is. */
  lemma {:induction false} OrSign(x: int, y: int)
    ensures Or(x, y) >= 0 <==> x >= 0 && y >= 0
    decreases if x < 0 then -x else x
  {
    if x != 0 && x != -1 {
      OrSign(x / 2, y / 2);
    }
  }

  /** Setting bits can only raise a number, whatever its sign. */
  lemma {:induction false} OrRaises(x: nat, y: int)
    ensures Or(x, y) >= y
    decreases x
  {
    if x != 0 {
      OrRaises(x / 2, y / 2);
    }
  }

  /** Bit j of the two's complement expansion. */
  predicate BitAt(x: int, j: nat)
    decreases j
  {
    if j == 0 then x % 2 == 1 else BitAt(x / 2, j - 1)
  }

  lemma {:induction false} ConstantBits(j: nat)
    ensures !BitAt(0, j) && BitAt(-1, j)
  {
    if j > 0 {
      ConstantBits(j - 1);
    }
  }

  /** A bit of an or is set exactly when it is set in one of the operands, whatever their signs. */
  lemma {:induction false} OrBits(x: int, y: int, j: nat)
    ensures BitAt(Or(x, y), j) <==> BitAt(x, j) || BitAt(y, j)
    decreases j
  {
    if x == 0 || x == -1 {
      ConstantBits(j);
    } else if j > 0 {
      OrBits(x / 2, y / 2, j - 1);
    }
  }

  /** A natural number is determined by its bits. */
  lemma {:induction false} BitsDetermine(x: nat, y: nat)
    requires forall j: nat :: BitAt(x, j) <==> BitAt(y, j)
    ensures x == y
    decreases x + y
  {
    assert BitAt(x, 0) <==> BitAt(y, 0);
    if x != 0 || y != 0 {
      forall j: nat
        ensures BitAt(x / 2, j) <==> BitAt(y / 2, j)
      {
        assert BitAt(x, j + 1) <==> BitAt(y, j + 1);
      }
      BitsDetermine(x / 2, y / 2);
    }
  }

  /** The right and left shifts of an unsigned word, without a width. */
  function Shr(x: nat, k: nat): nat {
    if k == 0 then x else Shr(x / 2, k - 1)
  }

  function Shl(x: nat, k: nat): nat {
    if k == 0 then x else 2 * Shl(x, k - 1)
  }

  lemma {:induction false} ShlMultiplies(x: nat, k: nat)
    ensures Shl(x, k) == x * Pow2(k)
  {
    if k > 0 {
      ShlMultiplies(x, k - 1);
    }
  }

  /** Shifting out the low k of j + k bits leaves j bits. */
  lemma {:induction false} ShrBound(x: nat, j: nat, k: nat)
    requires x < Pow2(j + k)
    ensures Shr(x, k) < Pow2(j)
  {
    if k > 0 {
      ShrBound(x / 2, j, k - 1);
    }
  }

  lemma {:induction false} ShrDivides(x: nat, k: nat)
    ensures Shr(x, k) == x / Pow2(k)
    decreases k
  {
    if k > 0 {
      ShrDivides(x / 2, k - 1);
      HalfThenDivide(x, Pow2(k - 1));
    }
  }

  lemma HalfThenDivide(x: nat, p: nat)
    requires p >= 1
    ensures x / 2 / p == x / (2 * p)
  {
    var q, r := x / 2 / p, x / 2 % p;
    assert x / 2 == p * q + r;
    assert (2 * p) * q == 2 * (p * q);
    ModUnique(x, 2 * p, q, 2 * r + x % 2);
  }
}
