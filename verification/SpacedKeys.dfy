/**
 The evenly spaced key sets: existing keys at even multiples of a step, spare keys at odd
 multiples, computed in wrapping 64-bit arithmetic.
 */
module SpacedKeys {
  import opened Bits

  const WORD: nat := 0x1_0000_0000_0000_0000

  function Step(size: nat): nat
    requires 0 < size
  {
    (WORD - 1) / (2 * size)
  }

  /**
   For every table size for which the doubled size is a 64-bit number, the step is positive and all the multiples the
   loops store fit into 64 bits; no larger step would keep twice the size of it in 64 bits.
   */
  lemma StepFits(size: nat, m: nat)
    requires 0 < size < WORD / 2 && m <= 2 * size
    ensures Step(size) >= 1 && m * Step(size) < WORD
    ensures 2 * size * Step(size) < WORD && forall t: nat :: t > Step(size) ==> (2 * size) * t >= WORD
  {
    var s := Step(size);
    assert 2 * size * s <= WORD - 1;
    forall t: nat | t > s
      ensures (2 * size) * t >= WORD
    {
      MulNonneg(2 * size, t - s - 1);
      Distribute(2 * size, t, s + 1);
      Distribute(2 * size, s, 1);
    }
    if s == 0 {
      ModUnique(WORD - 1, 2 * size, 0, WORD - 1);
    }
    MulNonneg(2 * size - m, s);
    Distribute(s, 2 * size, m);
  }

  function Multiple(size: nat, m: nat): nat
    requires 0 < size
  {
    MulNonneg(m, Step(size));
    m * Step(size)
  }

  lemma NextMultiple(size: nat, m: nat)
    requires 0 < size < WORD / 2 && m + 2 <= 2 * size
    ensures (Multiple(size, m) + (Step(size) * 2) % WORD) % WORD == Multiple(size, m + 2)
  {
    StepFits(size, m + 2);
    StepFits(size, 2);
    AddTwo(Step(size), m);
  }

  lemma AddTwo(step: nat, m: nat)
    requires 2 * step < WORD && (m + 2) * step < WORD
    ensures (m * step + (step * 2) % WORD) % WORD == (m + 2) * step
  {
    Distribute(step, m, 2);
  }

  /** The multiples start, start + 2, ... of the step. */
  function Multiples(size: nat, start: nat): (r: seq<nat>)
    requires 0 < size
    ensures |r| == size
  {
    seq(size, i requires 0 <= i < size => Multiple(size, start + 2 * i))
  }

  /** One of the two loops: size keys from seed on, adding step * 2 in uint64_t. */
  method PushKeys(size: nat, step: nat, start: nat) returns (keys: seq<nat>)
    requires 0 < size < WORD / 2 && step == Step(size) && start <= 1
    ensures keys == Multiples(size, start)
  {
    keys := [];
    var seed := start * step;
    var i := 0;
    StepFits(size, start);
    while i < size
      invariant 0 <= i <= size && |keys| == i
      invariant i < size ==> seed == Multiple(size, start + 2 * i)
      invariant forall j :: 0 <= j < i ==> keys[j] == Multiple(size, start + 2 * j)
    {
      keys := keys + [seed];
      if i + 1 < size {
        NextMultiple(size, start + 2 * i);
      }
      seed := (seed + (step * 2) % WORD) % WORD;
      i := i + 1;
    }
  }

  method PrepareData(size: nat) returns (existing: seq<nat>, others: seq<nat>)
    requires 0 < size < WORD / 2
    ensures existing == Multiples(size, 0) && others == Multiples(size, 1)
  {
    var step := (WORD - 1) / (size * 2);
    existing := PushKeys(size, step, 0);
    others := PushKeys(size, step, 1);
  }

  lemma MultiplesOrdered(step: nat, a: nat, b: nat)
    requires step >= 1 && a < b
    ensures a * step < b * step
  {
    Distribute(step, b, a);
    MulNonneg(b - a - 1, step);
    Distribute(step, b - a, 1);
  }

  /**
   Both key sets are strictly increasing, strictly interleaved and made of 64-bit keys: an existing key equals no
   spare key, and they compare like their positions in existing[0], others[0], existing[1], others[1], ...
   */
  lemma KeysInterleave(size: nat, i: nat, j: nat)
    requires 0 < size < WORD / 2 && i < size && j < size
    ensures Multiples(size, 0)[i] < WORD && Multiples(size, 1)[i] < WORD
    ensures Multiples(size, 0)[i] < Multiples(size, 1)[j] <==> i <= j
    ensures Multiples(size, 0)[i] != Multiples(size, 1)[j]
    ensures Multiples(size, 0)[i] < Multiples(size, 0)[j] <==> i < j
    ensures Multiples(size, 1)[i] < Multiples(size, 1)[j] <==> i < j
  {
    var s := Step(size);
    StepFits(size, 2 * i);
    StepFits(size, 2 * i + 1);
    Compare(s, 2 * i, 2 * j + 1);
    Compare(s, 2 * i, 2 * j);
    Compare(s, 2 * i + 1, 2 * j + 1);
  }

  lemma Compare(step: nat, a: nat, b: nat)
    requires step >= 1
    ensures (a * step < b * step <==> a < b) && (a * step == b * step <==> a == b)
  {
    if a < b {
      MultiplesOrdered(step, a, b);
    } else if b < a {
      MultiplesOrdered(step, b, a);
    }
  }
}
