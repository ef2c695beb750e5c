/**
 Ordered scans of the ORDER-LINE table: scan(k, n) returns the first n rows whose key is
 not below k in the order of the index.
 */
module Scans {
  import opened Tables
  import opened KeyCodec

  datatype Line = Line(key: OLKey, val: OLVal)

  predicate Less(a: OLKey, b: OLKey) {
    a.w < b.w || (a.w == b.w && (a.d < b.d || (a.d == b.d && (a.o < b.o || (a.o == b.o && a.n < b.n)))))
  }

  /** The packed OL_key: ol_number, ol_o_id, ol_d_id, ol_w_id. */
  function OlFields(k: OLKey): seq<Field> {
    [Field(1, k.n), Field(4, k.o), Field(1, k.d), Field(2, k.w)]
  }

  predicate OlFits(k: OLKey) {
    k.n < 0x100 && k.o < 0x1_0000_0000 && k.d < 0x100 && k.w < 0x1_0000
  }

  lemma OlAllFit(k: OLKey)
    requires OlFits(k)
    ensures AllFit(OlFields(k))
  {
    assert Pow256(1) == 0x100 && Pow256(2) == 0x1_0000;
    assert Pow256(4) == 0x1_0000_0000;
  }

  lemma OlFieldsLess(a: OLKey, b: OLKey)
    ensures FieldsLess(OlFields(a), OlFields(b)) <==> Less(a, b)
  {
    var x, y := OlFields(a), OlFields(b);
    assert x[1..] == y[1..] <==> (x[1] == y[1] && x[2] == y[2] && x[3] == y[3]);
    assert x[1..][1..] == x[2..] && y[1..][1..] == y[2..];
    assert x[2..][1..] == x[3..] && y[2..][1..] == y[3..];
    assert x[3..][1..] == [] && y[3..][1..] == [];
    assert x[2..] == y[2..] <==> (x[2] == y[2] && x[3] == y[3]);
    assert x[3..] == y[3..] <==> x[3] == y[3];
    FieldsLessStep(x[3..], y[3..]);
    FieldsLessStep(x[2..], y[2..]);
    FieldsLessStep(x[1..], y[1..]);
    FieldsLessStep(x, y);
  }

  lemma FieldsLessStep(x: seq<Field>, y: seq<Field>)
    requires SameLayout(x, y) && x != []
    ensures FieldsLess(x, y) <==> FieldsLess(x[1..], y[1..]) || (x[1..] == y[1..] && x[0].value < y[0].value)
  {
  }

  /**
   The three orders of an order-line key agree: the tuple order used by scans here, the
   uint64 comparison of OL_key, and memcmp on the string keys of the index.
   */
  lemma OlOrdersAgree(a: OLKey, b: OLKey)
    requires OlFits(a) && OlFits(b)
    ensures Less(a, b) <==> Word(Pack(OlFields(a))) < Word(Pack(OlFields(b)))
    ensures |Reversed(Pack(OlFields(a)))| == |Reversed(Pack(OlFields(b)))|
    ensures Less(a, b) <==> MemLess(Reversed(Pack(OlFields(a))), Reversed(Pack(OlFields(b))))
    ensures a == b <==> Word(Pack(OlFields(a))) == Word(Pack(OlFields(b)))
  {
    OlAllFit(a);
    OlAllFit(b);
    OlFieldsLess(a, b);
    WordOrderIsFieldOrder(OlFields(a), OlFields(b));
    StrKeyOrderIsFieldOrder(OlFields(a), OlFields(b));
    if Word(Pack(OlFields(a))) == Word(Pack(OlFields(b))) {
      PackInjective(OlFields(a), OlFields(b));
      assert OlFields(a)[0].value == OlFields(b)[0].value && OlFields(a)[1].value == OlFields(b)[1].value;
      assert OlFields(a)[2].value == OlFields(b)[2].value && OlFields(a)[3].value == OlFields(b)[3].value;
    }
  }

  /** The packed H_key: h_c_id, h_c_d_id, h_c_w_id, h_date, h_d_id, h_w_id. */
  function HFields(k: HKey): seq<Field> {
    [Field(2, k.c), Field(1, k.cd), Field(2, k.cw), Field(4, k.date), Field(1, k.d), Field(2, k.w)]
  }

  predicate HFits(k: HKey) {
    k.c < 0x1_0000 && k.cd < 0x100 && k.cw < 0x1_0000 && k.date < 0x1_0000_0000 && k.d < 0x100 && k.w < 0x1_0000
  }

  /** OL_key as the uint64 its comparison reads: 8, 32, 8 and 16 bits from the low end. */
  lemma OlWord(k: OLKey)
    requires OlFits(k)
    ensures |Pack(OlFields(k))| == 8
    ensures Word(Pack(OlFields(k))) == k.n + 0x100 * (k.o + 0x1_0000_0000 * (k.d + 0x100 * k.w))
  {
    var x := OlFields(k);
    OlAllFit(k);
    PowersOf256();
    assert x[1..][0] == x[1] && x[2..][0] == x[2] && x[3..][0] == x[3];
    assert x[1..][1..] == x[2..] && x[2..][1..] == x[3..] && x[3..][1..] == [];
    WordOfPack(x);
    WordOfPack(x[1..]);
    WordOfPack(x[2..]);
    WordOfPack(x[3..]);
  }

  lemma PowersOf256()
    ensures Pow256(1) == 0x100 && Pow256(2) == 0x1_0000 && Pow256(4) == 0x1_0000_0000
  {
    assert Pow256(2) == 256 * Pow256(1);
    assert Pow256(4) == 256 * (256 * Pow256(2));
  }

  /** H_key as one little-endian number of twelve bytes. */
  lemma HWord(k: HKey)
    requires HFits(k)
    ensures |Pack(HFields(k))| == 12
    ensures Word(Pack(HFields(k)))
         == k.c + 0x1_0000 * (k.cd + 0x100 * (k.cw + 0x1_0000 * (k.date + 0x1_0000_0000 * (k.d + 0x100 * k.w))))
  {
    var x := HFields(k);
    PowersOf256();
    assert x[1..][1..] == x[2..] && x[2..][1..] == x[3..] && x[3..][1..] == x[4..] && x[4..][1..] == x[5..];
    assert x[5..][1..] == [];
    assert AllFit(x);
    WordOfPack(x);
    WordOfPack(x[1..]);
    WordOfPack(x[2..]);
    WordOfPack(x[3..]);
    WordOfPack(x[4..]);
    WordOfPack(x[5..]);
  }

  /** to_model_key of H_key. */
  function HModelKey(k: HKey): seq<nat> {
    [k.w, k.d, k.date, k.cw, k.cd, k.c]
  }

  lemma HValues(k: HKey)
    ensures Values(HFields(k)) == HModelKey(k)
  {
    var x := HFields(k);
    assert x[1..][1..] == x[2..] && x[2..][1..] == x[3..] && x[3..][1..] == x[4..] && x[4..][1..] == x[5..];
    assert x[5..][1..] == [];
    assert Values(x[5..]) == [k.w];
    assert Values(x[4..]) == [k.w, k.d];
    assert Values(x[3..]) == [k.w, k.d, k.date];
    assert Values(x[2..]) == [k.w, k.d, k.date, k.cw];
    assert Values(x[1..]) == [k.w, k.d, k.date, k.cw, k.cd];
  }

  /** H_key::smaller, which std::map uses at load time, is the order the index uses at run time. */
  lemma HistoryOrdersAgree(a: HKey, b: HKey)
    requires HFits(a) && HFits(b)
    ensures |Reversed(Pack(HFields(a)))| == |Reversed(Pack(HFields(b)))|
    ensures ModelLess(HModelKey(a), HModelKey(b))
       <==> MemLess(Reversed(Pack(HFields(a))), Reversed(Pack(HFields(b))))
  {
    assert Pow256(1) == 0x100 && Pow256(2) == 0x1_0000;
    assert Pow256(4) == 0x1_0000_0000;
    HValues(a);
    HValues(b);
    ModelOrderIsFieldOrder(HFields(a), HFields(b));
    StrKeyOrderIsFieldOrder(HFields(a), HFields(b));
  }

  // ------------------------------------------------------------------ the scan

  ghost predicate IsFirst(k: OLKey, s: set<OLKey>) {
    k in s && forall x :: x in s ==> x == k || Less(k, x)
  }

  lemma {:induction false} FirstExists(s: set<OLKey>)
    requires s != {}
    ensures exists k :: IsFirst(k, s)
    decreases |s|
  {
    var x :| x in s;
    if s == {x} {
      assert IsFirst(x, s);
    } else {
      FirstExists(s - {x});
      var k :| IsFirst(k, s - {x});
      if Less(x, k) {
        forall y | y in s
          ensures y == x || Less(x, y)
        {
          assert y == x || y in s - {x};
        }
        assert IsFirst(x, s);
      } else {
        assert IsFirst(k, s);
      }
    }
  }

  function First(s: set<OLKey>): (k: OLKey)
    requires s != {}
    ensures IsFirst(k, s)
  {
    FirstExists(s);
    assert exists k :: k in s && forall x :: x in s ==> x == k || Less(k, x) by {
      var k :| IsFirst(k, s);
    }
    var k :| k in s && forall x :: x in s ==> x == k || Less(k, x);
    k
  }

  /** The n smallest keys in ascending order (all keys when there are fewer). */
  function Smallest(s: set<OLKey>, n: nat): (r: seq<OLKey>)
    ensures |r| <= n
    ensures forall k :: k in r ==> k in s
    decreases n
  {
    if n == 0 || s == {} then [] else [First(s)] + Smallest(s - {First(s)}, n - 1)
  }

  function NotBelow(table: map<OLKey, OLVal>, lower: OLKey): set<OLKey> {
    set k | k in table && !Less(k, lower)
  }

  function LinesOf(table: map<OLKey, OLVal>, keys: seq<OLKey>): (r: seq<Line>)
    requires forall k :: k in keys ==> k in table
    ensures |r| == |keys|
    ensures forall i :: 0 <= i < |keys| ==> r[i] == Line(keys[i], table[keys[i]])
  {
    if keys == [] then [] else [Line(keys[0], table[keys[0]])] + LinesOf(table, keys[1..])
  }

  /** scan(lower, n). */
  function Scan(table: map<OLKey, OLVal>, lower: OLKey, n: nat): (r: seq<Line>)
    ensures |r| <= n
    ensures forall i :: 0 <= i < |r| ==> r[i].key in table && r[i].val == table[r[i].key]
  {
    LinesOf(table, Smallest(NotBelow(table, lower), n))
  }

  /** The scan returns min(n, |s|) keys, ascending, and skips only keys above all of them. */
  lemma {:induction false} SmallestIsOrdered(s: set<OLKey>, n: nat)
    ensures |Smallest(s, n)| == if |s| < n then |s| else n
    ensures forall i, j :: 0 <= i < j < |Smallest(s, n)| ==> Less(Smallest(s, n)[i], Smallest(s, n)[j])
    ensures forall k, x :: k in Smallest(s, n) && x in s && x !in Smallest(s, n) ==> Less(k, x)
    decreases n
  {
    if n != 0 && s != {} {
      var f := First(s);
      SmallestIsOrdered(s - {f}, n - 1);
      var rest := Smallest(s - {f}, n - 1);
      assert Smallest(s, n) == [f] + rest;
      assert |s - {f}| == |s| - 1;
      forall i, j | 0 <= i < j < |[f] + rest|
        ensures Less(([f] + rest)[i], ([f] + rest)[j])
      {
        assert rest[j - 1] in rest;
      }
    } else if s == {} {
      assert |s| == 0;
    }
  }

  predicate HasRow(rows: seq<Line>, k: OLKey) {
    exists j :: 0 <= j < |rows| && rows[j].key == k
  }

  /** What scan(lower, n) promises: the first n rows of the table from key lower on, or all of them, ascending. */
  ghost predicate NextRows(rows: seq<Line>, table: map<OLKey, OLVal>, lower: OLKey, n: nat) {
    var available := |set k | k in table && (k == lower || Less(lower, k))|;
    && |rows| == (if available < n then available else n)
    && (forall j :: 0 <= j < |rows| ==> rows[j].key in table && rows[j].val == table[rows[j].key])
    && (forall j :: 0 <= j < |rows| ==> rows[j].key == lower || Less(lower, rows[j].key))
    && (forall i, j :: 0 <= i < j < |rows| ==> Less(rows[i].key, rows[j].key))
    && (forall k, j :: k in table && (k == lower || Less(lower, k)) && !HasRow(rows, k) && 0 <= j < |rows| ==>
          Less(rows[j].key, k))
  }

  lemma AtLeastLower(table: map<OLKey, OLVal>, lower: OLKey)
    ensures NotBelow(table, lower) == set k | k in table && (k == lower || Less(lower, k))
  {
  }

  lemma ScanIsNextRows(table: map<OLKey, OLVal>, lower: OLKey, n: nat)
    ensures NextRows(Scan(table, lower, n), table, lower, n)
  {
    var s, rows := NotBelow(table, lower), Scan(table, lower, n);
    var keys := Smallest(s, n);
    AtLeastLower(table, lower);
    SmallestIsOrdered(s, n);
    assert forall j :: 0 <= j < |rows| ==> rows[j].key == keys[j];
    hide Smallest, NotBelow, Less, Scan;
    forall j | 0 <= j < |rows|
      ensures rows[j].key == lower || Less(lower, rows[j].key)
    {
      assert keys[j] in s;
    }
    forall k, j | k in table && (k == lower || Less(lower, k)) && !HasRow(rows, k) && 0 <= j < |rows|
      ensures Less(rows[j].key, k)
    {
      assert k !in keys;
      assert keys[j] in keys;
    }
  }
}
