/**
 The order-preserving key codec. A key struct is a packed record: its fields follow each
 other in declaration order, each stored least significant byte first. to_str_key reverses
 the bytes; the index compares the result with memcmp.
 */
module KeyCodec {
  import opened Bits

  type Byte = b: nat | b < 256

  datatype Field = Field(width: nat, value: nat)

  function Pow256(w: nat): (p: nat)
    ensures p >= 1
  {
    if w == 0 then 1 else 256 * Pow256(w - 1)
  }

  predicate Fits(f: Field) {
    f.value < Pow256(f.width)
  }

  predicate AllFit(fs: seq<Field>) {
    forall i :: 0 <= i < |fs| ==> Fits(fs[i])
  }

  predicate SameLayout(a: seq<Field>, b: seq<Field>) {
    |a| == |b| && forall i :: 0 <= i < |a| ==> a[i].width == b[i].width
  }

  function LittleEndian(w: nat, v: nat): (s: seq<Byte>)
    ensures |s| == w
  {
    if w == 0 then [] else [v % 256] + LittleEndian(w - 1, v / 256)
  }

  function Pack(fs: seq<Field>): seq<Byte> {
    if fs == [] then [] else LittleEndian(fs[0].width, fs[0].value) + Pack(fs[1..])
  }

  function Reversed(s: seq<Byte>): (r: seq<Byte>)
    ensures |r| == |s|
  {
    if s == [] then [] else Reversed(s[1..]) + [s[0]]
  }

  /** memcmp(a, b, n) < 0. */
  predicate MemLess(a: seq<Byte>, b: seq<Byte>)
    requires |a| == |b|
  {
    a != [] && (a[0] < b[0] || (a[0] == b[0] && MemLess(a[1..], b[1..])))
  }

  /** The unsigned integer a little-endian machine reads from the bytes. */
  function Word(s: seq<Byte>): nat {
    if s == [] then 0 else s[0] + 256 * Word(s[1..])
  }

  /** Tuple order of the fields, the last declared field being the most significant. */
  predicate FieldsLess(a: seq<Field>, b: seq<Field>)
    requires SameLayout(a, b)
  {
    a != [] &&
    (FieldsLess(a[1..], b[1..]) || (a[1..] == b[1..] && a[0].value < b[0].value))
  }

  // ------------------------------------------------------------------ reversal

  lemma {:induction false} ReversedAt(s: seq<Byte>, k: nat)
    requires k < |s|
    ensures Reversed(s)[k] == s[|s| - 1 - k]
  {
    if k < |s| - 1 {
      ReversedAt(s[1..], k);
    }
  }

  /** to_normal_key is to_str_key applied again, and it restores the key. */
  lemma ReverseTwice(s: seq<Byte>)
    ensures Reversed(Reversed(s)) == s
  {
    forall k | 0 <= k < |s|
      ensures Reversed(Reversed(s))[k] == s[k]
    {
      ReversedAt(Reversed(s), k);
      ReversedAt(s, |s| - 1 - k);
    }
  }

  /** The byte loop of to_str_key. */
  method ToStrKey(bytes: seq<Byte>) returns (key: array<Byte>)
    ensures fresh(key) && key[..] == Reversed(bytes)
  {
    var n := |bytes|;
    key := new Byte[n](_ => 0);
    var i := 0;
    while i < n
      invariant 0 <= i <= n
      invariant forall k :: 0 <= k < i ==> key[k] == bytes[n - k - 1]
    {
      key[i] := bytes[n - i - 1];
      i := i + 1;
    }
    forall k | 0 <= k < n
      ensures key[k] == Reversed(bytes)[k]
    {
      ReversedAt(bytes, k);
    }
  }

  // ------------------------------------------------------------------ memcmp is numeric

  lemma {:induction false} WordInjective(a: seq<Byte>, b: seq<Byte>)
    requires |a| == |b| && Word(a) == Word(b)
    ensures a == b
  {
    if a != [] {
      WordInjective(a[1..], b[1..]);
      assert a == [a[0]] + a[1..] && b == [b[0]] + b[1..];
    }
  }

  lemma {:induction false} MemLessAppend(p: seq<Byte>, x: Byte, q: seq<Byte>, y: Byte)
    requires |p| == |q|
    ensures MemLess(p + [x], q + [y]) <==> MemLess(p, q) || (p == q && x < y)
  {
    if p != [] {
      MemLessAppend(p[1..], x, q[1..], y);
      assert (p + [x])[1..] == p[1..] + [x] && (q + [y])[1..] == q[1..] + [y];
      assert p == [p[0]] + p[1..] && q == [q[0]] + q[1..];
    } else {
      assert p + [x] == [x] && q + [y] == [y];
    }
  }

  /** memcmp of the reversed bytes is the numeric order of the little-endian words. */
  lemma {:induction false} ReversedOrderIsNumeric(a: seq<Byte>, b: seq<Byte>)
    requires |a| == |b|
    ensures MemLess(Reversed(a), Reversed(b)) <==> Word(a) < Word(b)
  {
    if a != [] {
      ReversedOrderIsNumeric(a[1..], b[1..]);
      MemLessAppend(Reversed(a[1..]), a[0], Reversed(b[1..]), b[0]);
      if Reversed(a[1..]) == Reversed(b[1..]) {
        ReverseTwice(a[1..]);
        ReverseTwice(b[1..]);
      }
      if Word(a[1..]) == Word(b[1..]) {
        WordInjective(a[1..], b[1..]);
      }
    }
  }

  // ------------------------------------------------------------------ packed records

  lemma {:induction false} WordOfField(w: nat, v: nat, rest: seq<Byte>)
    requires v < Pow256(w)
    ensures Word(LittleEndian(w, v) + rest) == v + Pow256(w) * Word(rest)
  {
    var s := LittleEndian(w, v);
    if w == 0 {
      assert s + rest == rest;
    } else {
      WordOfField(w - 1, v / 256, rest);
      assert (s + rest)[1..] == LittleEndian(w - 1, v / 256) + rest;
      TimesByte(Pow256(w - 1), Word(rest));
    }
  }

  lemma TimesByte(p: int, x: int)
    ensures (256 * p) * x == 256 * (p * x)
  {
  }

  lemma MixedRadixLess(p: int, x: int, r: int, y: int, t: int)
    requires 0 <= x < p && 0 <= y < p
    ensures x + p * r < y + p * t <==> r < t || (r == t && x < y)
  {
    if r < t {
      MulNonneg(p, t - r - 1);
      Distribute(p, t, r + 1);
      Distribute(p, r, 1);
    } else if t < r {
      MulNonneg(p, r - t - 1);
      Distribute(p, r, t + 1);
      Distribute(p, t, 1);
    }
  }

  lemma MixedRadixEqual(p: int, x: int, r: int, y: int, t: int)
    requires 0 <= x < p && 0 <= y < p && x + p * r == y + p * t
    ensures x == y && r == t
  {
    MixedRadixLess(p, x, r, y, t);
    MixedRadixLess(p, y, t, x, r);
  }

  lemma WordOfPack(fs: seq<Field>)
    requires fs != [] && AllFit(fs)
    ensures fs[0].value < Pow256(fs[0].width)
    ensures Word(Pack(fs)) == fs[0].value + Pow256(fs[0].width) * Word(Pack(fs[1..]))
  {
    assert Fits(fs[0]);
    WordOfField(fs[0].width, fs[0].value, Pack(fs[1..]));
  }

  lemma {:induction false} PackInjective(a: seq<Field>, b: seq<Field>)
    requires SameLayout(a, b) && AllFit(a) && AllFit(b) && Word(Pack(a)) == Word(Pack(b))
    ensures a == b
  {
    if a != [] {
      WordOfPack(a);
      WordOfPack(b);
      MixedRadixEqual(Pow256(a[0].width), a[0].value, Word(Pack(a[1..])), b[0].value, Word(Pack(b[1..])));
      PackInjective(a[1..], b[1..]);
      assert a == [a[0]] + a[1..] && b == [b[0]] + b[1..];
    }
  }

  /** The struct read as one integer orders keys by their fields, last declared first. */
  lemma {:induction false} WordOrderIsFieldOrder(a: seq<Field>, b: seq<Field>)
    requires SameLayout(a, b) && AllFit(a) && AllFit(b)
    ensures Word(Pack(a)) < Word(Pack(b)) <==> FieldsLess(a, b)
  {
    if a != [] {
      WordOrderIsFieldOrder(a[1..], b[1..]);
      WordOfPack(a);
      WordOfPack(b);
      MixedRadixLess(Pow256(a[0].width), a[0].value, Word(Pack(a[1..])), b[0].value, Word(Pack(b[1..])));
      if Word(Pack(a[1..])) == Word(Pack(b[1..])) {
        PackInjective(a[1..], b[1..]);
      }
    }
  }

  lemma {:induction false} PackLength(a: seq<Field>, b: seq<Field>)
    requires SameLayout(a, b)
    ensures |Pack(a)| == |Pack(b)|
  {
    if a != [] {
      PackLength(a[1..], b[1..]);
    }
  }

  /** What the index sees: memcmp of the string keys is the tuple order of the fields. */
  lemma StrKeyOrderIsFieldOrder(a: seq<Field>, b: seq<Field>)
    requires SameLayout(a, b) && AllFit(a) && AllFit(b)
    ensures |Reversed(Pack(a))| == |Reversed(Pack(b))|
    ensures MemLess(Reversed(Pack(a)), Reversed(Pack(b))) <==> FieldsLess(a, b)
  {
    PackLength(a, b);
    ReversedOrderIsNumeric(Pack(a), Pack(b));
    WordOrderIsFieldOrder(a, b);
  }

  function Unpack(widths: seq<nat>, s: seq<Byte>): seq<Field> {
    if widths == [] || |s| < widths[0] then []
    else [Field(widths[0], Word(s[..widths[0]]))] + Unpack(widths[1..], s[widths[0]..])
  }

  function Widths(fs: seq<Field>): seq<nat> {
    if fs == [] then [] else [fs[0].width] + Widths(fs[1..])
  }

  lemma UnpackOne(w: nat, widths: seq<nat>, head: seq<Byte>, rest: seq<Byte>)
    requires |head| == w
    ensures Unpack([w] + widths, head + rest) == [Field(w, Word(head))] + Unpack(widths, rest)
  {
    var s, ws := head + rest, [w] + widths;
    assert s[..w] == head && s[w..] == rest;
    assert ws[0] == w && ws[1..] == widths;
  }

  lemma WordOfLittleEndian(f: Field)
    requires Fits(f)
    ensures Word(LittleEndian(f.width, f.value)) == f.value
  {
    WordOfField(f.width, f.value, []);
    assert LittleEndian(f.width, f.value) + [] == LittleEndian(f.width, f.value);
  }

  lemma {:induction false} UnpackPack(fs: seq<Field>)
    requires AllFit(fs)
    ensures Unpack(Widths(fs), Pack(fs)) == fs
  {
    if fs != [] {
      UnpackPack(fs[1..]);
      WordOfLittleEndian(fs[0]);
      UnpackOne(fs[0].width, Widths(fs[1..]), LittleEndian(fs[0].width, fs[0].value), Pack(fs[1..]));
      assert fs == [fs[0]] + fs[1..];
    }
  }

  /** Encoding for the index and decoding a scanned key restores every field. */
  lemma KeyRoundTrip(fs: seq<Field>)
    requires AllFit(fs)
    ensures Unpack(Widths(fs), Reversed(Reversed(Pack(fs)))) == fs
  {
    ReverseTwice(Pack(fs));
    UnpackPack(fs);
  }

  // ------------------------------------------------------------------ H_key::smaller

  /** Lexicographic order of the model key, first component most significant. */
  predicate ModelLess(a: seq<nat>, b: seq<nat>)
    requires |a| == |b|
  {
    a != [] && (a[0] < b[0] || (a[0] == b[0] && ModelLess(a[1..], b[1..])))
  }

  lemma {:induction false} ModelLessPrefix(a: seq<nat>, b: seq<nat>, i: nat)
    requires |a| == |b| && i <= |a| && a[..i] == b[..i]
    ensures ModelLess(a, b) == ModelLess(a[i..], b[i..])
  {
    if i == 0 {
      assert a[0..] == a && b[0..] == b;
    } else {
      assert a[0] == a[..i][0] && b[0] == b[..i][0];
      assert a[1..][..i - 1] == a[..i][1..] && b[1..][..i - 1] == b[..i][1..];
      ModelLessPrefix(a[1..], b[1..], i - 1);
      assert a[1..][i - 1..] == a[i..] && b[1..][i - 1..] == b[i..];
    }
  }

  /** The comparison loop of H_key::smaller. */
  method Smaller(k1: seq<nat>, k2: seq<nat>) returns (less: bool)
    requires |k1| == |k2|
    ensures less == ModelLess(k1, k2)
  {
    var i := 0;
    while i < |k1|
      invariant 0 <= i <= |k1|
      invariant k1[..i] == k2[..i]
    {
      ModelLessPrefix(k1, k2, i);
      if k1[i] > k2[i] { return false; }
      if k1[i] < k2[i] { return true; }
      assert k1[..i + 1] == k1[..i] + [k1[i]] && k2[..i + 1] == k2[..i] + [k2[i]];
      i := i + 1;
    }
    ModelLessPrefix(k1, k2, i);
    return false;
  }

  function Values(fs: seq<Field>): (v: seq<nat>)
    ensures |v| == |fs|
  {
    if fs == [] then [] else Values(fs[1..]) + [fs[0].value]
  }

  lemma {:induction false} ModelLessAppend(p: seq<nat>, x: nat, q: seq<nat>, y: nat)
    requires |p| == |q|
    ensures ModelLess(p + [x], q + [y]) <==> ModelLess(p, q) || (p == q && x < y)
  {
    if p != [] {
      ModelLessAppend(p[1..], x, q[1..], y);
      assert (p + [x])[1..] == p[1..] + [x] && (q + [y])[1..] == q[1..] + [y];
      assert p == [p[0]] + p[1..] && q == [q[0]] + q[1..];
    } else {
      assert p + [x] == [x] && q + [y] == [y];
    }
  }

  lemma {:induction false} ValuesInjective(a: seq<Field>, b: seq<Field>)
    requires SameLayout(a, b) && Values(a) == Values(b)
    ensures a == b
  {
    if a != [] {
      var va, vb := Values(a[1..]), Values(b[1..]);
      assert (va + [a[0].value])[..|va|] == va && (vb + [b[0].value])[..|vb|] == vb;
      assert (va + [a[0].value])[|va|] == a[0].value && (vb + [b[0].value])[|vb|] == b[0].value;
      ValuesInjective(a[1..], b[1..]);
      assert a == [a[0]] + a[1..] && b == [b[0]] + b[1..];
    }
  }

  /** Comparing the fields from the last declared to the first is the field order of the index. */
  lemma {:induction false} ModelOrderIsFieldOrder(a: seq<Field>, b: seq<Field>)
    requires SameLayout(a, b)
    ensures ModelLess(Values(a), Values(b)) <==> FieldsLess(a, b)
  {
    if a != [] {
      ModelOrderIsFieldOrder(a[1..], b[1..]);
      ModelLessAppend(Values(a[1..]), a[0].value, Values(b[1..]), b[0].value);
      if Values(a[1..]) == Values(b[1..]) {
        ValuesInjective(a[1..], b[1..]);
      }
    }
  }
}
