/**
 The hot-range workloads: a slice of the sorted keys is moved to the front, hot draws take
 an index inside it and cold draws one behind it. The key array is the result of
 std::sort; real_range and real_start, which C++ computes in floating point, are given.
 */
module HotCold {
  import opened Bits

  type Key = nat

  predicate StrictlySorted(s: seq<Key>) {
    forall i, j :: 0 <= i < j < |s| ==> s[i] < s[j]
  }

  // ------------------------------------------------------------------ the three copies

  /** The slice first, then what preceded it, then what followed it. */
  function Rearranged(s: seq<Key>, start: nat, range: nat): (r: seq<Key>)
    requires start + range <= |s|
  {
    s[start..start + range] + s[..start] + s[start + range..]
  }

  lemma RearrangedIsPermutation(s: seq<Key>, start: nat, range: nat)
    requires start + range <= |s|
    ensures multiset(Rearranged(s, start, range)) == multiset(s)
  {
    var a, b, c := s[..start], s[start..start + range], s[start + range..];
    assert s == (a + b) + c;
    assert multiset(s) == multiset(a + b) + multiset(c);
  }

  /** Index by index: where each key of the rearranged array comes from. */
  lemma RearrangedAt(s: seq<Key>, start: nat, range: nat, i: nat)
    requires start + range <= |s| && i < |s|
    ensures |Rearranged(s, start, range)| == |s|
    ensures Rearranged(s, start, range)[i]
              == s[if i < range then start + i else if i < start + range then i - range else i]
  {
  }

  /** Indices below range hold exactly the keys between the slice's ends, the others exactly the keys outside. */
  lemma HotIsInside(s: seq<Key>, start: nat, range: nat, i: nat)
    requires StrictlySorted(s) && 1 <= range && start + range <= |s| && i < |s|
    ensures |Rearranged(s, start, range)| == |s|
    ensures i < range <==> s[start] <= Rearranged(s, start, range)[i] <= s[start + range - 1]
  {
    RearrangedAt(s, start, range, i);
  }

  function Overlaid(s: seq<Key>, from: seq<Key>, lo: nat, hi: nat, at: nat): seq<Key>
    requires lo <= hi <= |from| && at + (hi - lo) <= |s|
  {
    s[..at] + from[lo..hi] + s[at + (hi - lo)..]
  }

  /** std::copy of from[lo .. hi] to to[at ..]. */
  method Copy(from: array<Key>, lo: nat, hi: nat, to: array<Key>, at: nat)
    requires from != to && lo <= hi <= from.Length && at + (hi - lo) <= to.Length
    modifies to
    ensures to[..] == Overlaid(old(to[..]), from[..], lo, hi, at)
  {
    var i := lo;
    while i < hi
      invariant lo <= i <= hi
      invariant forall j :: 0 <= j < at ==> to[j] == old(to[j])
      invariant forall j :: lo <= j < i ==> to[at + (j - lo)] == from[j]
      invariant forall j :: at + (hi - lo) <= j < to.Length ==> to[j] == old(to[j])
    {
      to[at + (i - lo)] := from[i];
      i := i + 1;
    }
    assert to[at..at + (hi - lo)] == from[lo..hi] by {
      forall j | 0 <= j < hi - lo
        ensures to[at..at + (hi - lo)][j] == from[lo..hi][j]
      {
        assert to[at + (lo + j - lo)] == from[lo + j];
      }
    }
    assert to[..at] == old(to[..at]) && to[at + (hi - lo)..] == old(to[at + (hi - lo)..]);
    assert to[..] == to[..at] + to[at..at + (hi - lo)] + to[at + (hi - lo)..];
  }

  lemma ThreeCopies(s: seq<Key>, start: nat, range: nat)
    requires start + range <= |s|
    ensures |Overlaid(s, s, start, start + range, 0)| == |s|
    ensures |Overlaid(Overlaid(s, s, start, start + range, 0), s, 0, start, range)| == |s|
    ensures Overlaid(Overlaid(Overlaid(s, s, start, start + range, 0), s, 0, start, range), s, start + range, |s|,
                     start + range)
         == Rearranged(s, start, range)
  {
    var t1 := Overlaid(s, s, start, start + range, 0);
    var t2 := Overlaid(t1, s, 0, start, range);
    assert t1[..range] == s[start..start + range];
    assert t2[..start + range] == s[start..start + range] + s[..start];
  }

  method Duplicate(keys: array<Key>) returns (temp: array<Key>)
    ensures fresh(temp) && temp[..] == keys[..]
  {
    temp := new Key[keys.Length](i requires 0 <= i < keys.Length reads keys => keys[i]);
  }

  /** The temporary array with the hot keys in front. */
  method Rearrange(keys: array<Key>, start: nat, range: nat) returns (temp: array<Key>)
    requires start + range <= keys.Length
    ensures fresh(temp) && temp[..] == Rearranged(keys[..], start, range)
  {
    hide Rearranged, Overlaid;
    temp := Duplicate(keys);
    Copy(keys, start, start + range, temp, 0);
    Copy(keys, 0, start, temp, range);
    Copy(keys, start + range, keys.Length, temp, start + range);
    ThreeCopies(keys[..], start, range);
  }

  // ------------------------------------------------------------------ slices

  /** real_start of hot range k after clamping; size_t subtraction, so real_range must not exceed the size. */
  function ClampedStart(size: nat, start: nat, range: nat, k: nat): (r: nat)
    requires range <= size
  {
    if start + range * k > size - range then size - range else start + range * k
  }

  /** Every clamped slice is inside the key array: one that was already is not moved, any other ends at the last key. */
  lemma ClampedSliceFits(size: nat, start: nat, range: nat, k: nat)
    requires range <= size
    ensures ClampedStart(size, start, range, k) + range <= size
    ensures start + range * k + range <= size ==> ClampedStart(size, start, range, k) == start + range * k
    ensures start + range * k + range > size ==> ClampedStart(size, start, range, k) + range == size
  {
    MulNonneg(range, k);
  }

  // ------------------------------------------------------------------ the draws

  /** What the generators deliver for one position: a percentage, and an index from the distribution it selects. */
  datatype Draw = Draw(percent: nat, index: nat)

  predicate IsDraw(d: Draw, ratio: nat, range: nat, size: nat) {
    d.percent < 100 && if d.percent < ratio then d.index < range else range <= d.index < size
  }

  predicate IsDraws(draws: seq<Draw>, ratio: nat, range: nat, size: nat) {
    |draws| == size && forall i :: 0 <= i < size ==> IsDraw(draws[i], ratio, range, size)
  }

  /** The key a position must get: a key of the slice when the draw is hot, one outside when it is cold. */
  predicate Fits(s: seq<Key>, start: nat, range: nat, hot: bool, key: Key)
    requires start + range <= |s|
  {
    key in s && if hot then range > 0 && s[start] <= key <= s[start + range - 1]
                else range > 0 ==> key < s[start] || key > s[start + range - 1]
  }

  lemma DrawFits(s: seq<Key>, start: nat, range: nat, ratio: nat, d: Draw)
    requires StrictlySorted(s) && start + range <= |s| && IsDraw(d, ratio, range, |s|)
    ensures |Rearranged(s, start, range)| == |s|
    ensures Fits(s, start, range, d.percent < ratio, Rearranged(s, start, range)[d.index])
  {
    RearrangedAt(s, start, range, d.index);
    if range > 0 {
      HotIsInside(s, start, range, d.index);
    }
  }

  function HotCount(draws: seq<Draw>, ratio: nat): nat {
    if draws == [] then 0
    else HotCount(draws[..|draws| - 1], ratio) + if draws[|draws| - 1].percent < ratio then 1 else 0
  }

  lemma {:induction false} HotCountIsSize(draws: seq<Draw>, ratio: nat)
    ensures HotCount(draws, ratio) == |set i: nat | i < |draws| && draws[i].percent < ratio|
  {
    var hot := set i: nat | i < |draws| && draws[i].percent < ratio;
    if draws == [] {
      assert hot == {};
    } else {
      var last := |draws| - 1;
      HotCountIsSize(draws[..last], ratio);
      var before := set i: nat | i < |draws[..last]| && draws[..last][i].percent < ratio;
      if draws[last].percent < ratio {
        assert hot == before + {last};
      } else {
        assert hot == before;
      }
    }
  }

  /**
   A workload over the sorted keys s: every position got the key its draw selects, from inside or outside the slice.
   */
  ghost predicate Skewed(s: seq<Key>, start: nat, range: nat, ratio: nat, draws: seq<Draw>, row: seq<Key>) {
    start + range <= |s| == |row| == |draws| &&
    forall i :: 0 <= i < |row| ==>
      0 <= draws[i].index < |s| && row[i] == Rearranged(s, start, range)[draws[i].index]
      && Fits(s, start, range, draws[i].percent < ratio, row[i])
  }

  lemma DrawsSkew(s: seq<Key>, start: nat, range: nat, ratio: nat, draws: seq<Draw>, row: seq<Key>)
    requires StrictlySorted(s) && start + range <= |s| == |row| && IsDraws(draws, ratio, range, |s|)
    requires forall i :: 0 <= i < |row| ==> row[i] == Rearranged(s, start, range)[draws[i].index]
    ensures Skewed(s, start, range, ratio, draws, row)
  {
    forall i | 0 <= i < |row|
      ensures draws[i].index < |s| && Fits(s, start, range, draws[i].percent < ratio, row[i])
    {
      DrawFits(s, start, range, ratio, draws[i]);
    }
  }

  /** The drawing loop. */
  method Fill(temp: array<Key>, range: nat, ratio: nat, draws: seq<Draw>, row: array<Key>)
    returns (hotKeys: nat, coldKeys: nat)
    requires temp != row && temp.Length == row.Length && IsDraws(draws, ratio, range, row.Length) && range <= row.Length
    modifies row
    ensures forall i :: 0 <= i < row.Length ==> row[i] == temp[draws[i].index]
    ensures hotKeys == HotCount(draws, ratio) && hotKeys + coldKeys == row.Length
  {
    hotKeys, coldKeys := 0, 0;
    var i := 0;
    while i < row.Length
      invariant 0 <= i <= row.Length && temp[..] == old(temp[..])
      invariant forall j :: 0 <= j < i ==> row[j] == temp[draws[j].index]
      invariant hotKeys == HotCount(draws[..i], ratio) && hotKeys + coldKeys == i
    {
      assert draws[..i + 1][..i] == draws[..i];
      assert IsDraw(draws[i], ratio, range, row.Length);
      if draws[i].percent < ratio {
        hotKeys := hotKeys + 1;
      } else {
        coldKeys := coldKeys + 1;
      }
      row[i] := temp[draws[i].index];
      i := i + 1;
    }
    assert draws[..i] == draws;
  }

  /** The in-place version: the sorted keys are overwritten with the workload. */
  method SkewInPlace(keys: array<Key>, start: nat, range: nat, ratio: nat, draws: seq<Draw>)
    returns (hotKeys: nat, coldKeys: nat)
    requires StrictlySorted(keys[..]) && start + range <= keys.Length && IsDraws(draws, ratio, range, keys.Length)
    modifies keys
    ensures Skewed(old(keys[..]), start, range, ratio, draws, keys[..])
    ensures hotKeys == |set i: nat | i < |draws| && draws[i].percent < ratio| && hotKeys + coldKeys == keys.Length
  {
    HotCountIsSize(draws, ratio);
    ghost var s := keys[..];
    var temp := Rearrange(keys, start, range);
    hotKeys, coldKeys := Fill(temp, range, ratio, draws, keys);
    forall i | 0 <= i < keys.Length
      ensures keys[..][i] == Rearranged(s, start, range)[draws[i].index]
    {
      assert IsDraw(draws[i], ratio, range, |s|);
      assert temp[..][draws[i].index] == temp[draws[i].index];
    }
    DrawsSkew(s, start, range, ratio, draws, keys[..]);
  }

  /** One hot range of the version with several: the slice is clamped into the key array. */
  method SkewRow(keys: array<Key>, start: nat, range: nat, ratio: nat, k: nat, draws: seq<Draw>, row: array<Key>)
    requires StrictlySorted(keys[..]) && range <= keys.Length == row.Length && keys != row
    requires IsDraws(draws, ratio, range, keys.Length)
    modifies row
    ensures Skewed(keys[..], ClampedStart(keys.Length, start, range, k), range, ratio, draws, row[..])
  {
    ghost var s := keys[..];
    ClampedSliceFits(keys.Length, start, range, k);
    MulNonneg(range, k);
    var realStart := start + range * k;
    if realStart > keys.Length - range {
      realStart := keys.Length - range;
    }
    assert realStart == ClampedStart(keys.Length, start, range, k);
    hide ClampedStart, Rearranged, Skewed, StrictlySorted, HotCount;
    var temp := Rearrange(keys, realStart, range);
    var _, _ := Fill(temp, range, ratio, draws, row);
    forall i | 0 <= i < row.Length
      ensures row[..][i] == Rearranged(s, realStart, range)[draws[i].index]
    {
      assert IsDraw(draws[i], ratio, range, |s|);
      assert temp[..][draws[i].index] == temp[draws[i].index];
    }
    DrawsSkew(s, realStart, range, ratio, draws, row[..]);
  }

  /** targets[k] is the workload of hot range k. */
  method SkewTargets(keys: array<Key>, start: nat, range: nat, ratio: nat, draws: seq<seq<Draw>>,
                     targets: seq<array<Key>>)
    requires StrictlySorted(keys[..]) && range <= keys.Length && |draws| == |targets|
    requires forall k :: 0 <= k < |targets| ==>
               targets[k] != keys && targets[k].Length == keys.Length && IsDraws(draws[k], ratio, range, keys.Length)
    requires forall k, l :: 0 <= k < l < |targets| ==> targets[k] != targets[l]
    modifies targets
    ensures forall k :: 0 <= k < |targets| ==>
              Skewed(keys[..], ClampedStart(keys.Length, start, range, k), range, ratio, draws[k], targets[k][..])
  {
    hide StrictlySorted, IsDraws, Skewed, ClampedStart;
    var k := 0;
    while k < |targets|
      invariant 0 <= k <= |targets| && keys[..] == old(keys[..])
      invariant forall l :: 0 <= l < k ==>
                  Skewed(keys[..], ClampedStart(keys.Length, start, range, l), range, ratio, draws[l], targets[l][..])
    {
      SkewRow(keys, start, range, ratio, k, draws[k], targets[k]);
      k := k + 1;
    }
  }
}
