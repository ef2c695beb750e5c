/**
 The read-latest workload on consecutive integer keys: how main deals the keys out, and
 the operation list a worker prepares.
 */
module ReadLatest {
  import opened Bits
  import opened Shares

  // ------------------------------------------------------------------ the segments

  /** n consecutive keys. */
  function Count(first: nat, n: nat): (r: seq<nat>)
    ensures |r| == n
  {
    seq(n, j requires 0 <= j < n => first + j)
  }

  function SegmentStart(per: nat, i: nat): (r: nat)
    ensures r == 1 + 2 * per * i
  {
    MulNonneg(2 * per, i);
    1 + 2 * per * i
  }

  /** The existing keys (skip == 0) or the spare ones (skip == per) of the first n segments, as main pushes them. */
  function Dealt(per: nat, n: nat, skip: nat): seq<nat> {
    if n == 0 then [] else Dealt(per, n - 1, skip) + Count(SegmentStart(per, n - 1) + skip, per)
  }

  lemma CountGrows(first: nat, n: nat)
    ensures Count(first, n + 1) == Count(first, n) + [first + n]
  {
  }

  lemma NextSegment(per: nat, i: nat)
    ensures SegmentStart(per, i + 1) == SegmentStart(per, i) + 2 * per
  {
    Distribute(2 * per, i, 1);
  }

  /** One of main's inner loops: per keys from key on, appended to the list. */
  method DealSegment(keys: seq<nat>, first: nat, per: nat) returns (r: seq<nat>, key: nat)
    ensures r == keys + Count(first, per) && key == first + per
  {
    r, key := keys, first;
    var j := 0;
    while j < per
      invariant 0 <= j <= per && key == first + j
      invariant r == keys + Count(first, j)
    {
      CountGrows(first, j);
      r, key, j := r + [key], key + 1, j + 1;
    }
  }

  /** main's loops over segments. */
  method DealKeys(tableSize: nat, workers: nat) returns (existing: seq<nat>, others: seq<nat>)
    requires workers > 0
    ensures existing == Dealt(tableSize / workers, workers, 0)
    ensures others == Dealt(tableSize / workers, workers, tableSize / workers)
  {
    var per, key := tableSize / workers, 1;
    existing, others := [], [];
    var i := 0;
    while i < workers
      invariant 0 <= i <= workers && key == SegmentStart(per, i)
      invariant existing == Dealt(per, i, 0) && others == Dealt(per, i, per)
    {
      NextSegment(per, i);
      hide Count, SegmentStart;
      existing, key := DealSegment(existing, key, per);
      others, key := DealSegment(others, key, per);
      i := i + 1;
    }
  }

  lemma {:induction false} DealtSize(per: nat, n: nat, skip: nat)
    ensures |Dealt(per, n, skip)| == n * per
  {
    if n > 0 {
      DealtSize(per, n - 1, skip);
      Distribute(per, n, 1);
    }
  }

  lemma {:induction false} DealtSegment(per: nat, n: nat, skip: nat, i: nat)
    requires i < n
    ensures 0 <= i * per <= (i + 1) * per <= |Dealt(per, n, skip)|
    ensures Dealt(per, n, skip)[i * per..(i + 1) * per] == Count(SegmentStart(per, i) + skip, per)
  {
    DealtSize(per, n, skip);
    DealtSize(per, n - 1, skip);
    MulNonneg(i, per);
    Distribute(per, n, 1);
    Distribute(per, i, 1);
    if i < n - 1 {
      DealtSegment(per, n - 1, skip, i);
    }
  }

  /** op_keys of worker t. */
  function OpKeys(tableSize: nat, workers: nat, t: nat): seq<nat>
    requires t < workers
  {
    var per := tableSize / workers;
    Share(Dealt(per, workers, 0), workers, t) + Share(Dealt(per, workers, per), workers, t)
  }

  lemma EvenShares(per: nat, workers: nat)
    requires workers > 0
    ensures (workers * per) / workers == per
  {
    ModUnique(workers * per, workers, per, 0);
  }

  lemma ShareIsSegment(per: nat, workers: nat, skip: nat, t: nat)
    requires t < workers
    ensures Share(Dealt(per, workers, skip), workers, t) == Count(SegmentStart(per, t) + skip, per)
  {
    DealtSegment(per, workers, skip, t);
    DealtSize(per, workers, skip);
    EvenShares(per, workers);
    hide Dealt, Count, SegmentStart;
    var keys := Dealt(per, workers, skip);
    assert |keys| / workers == per;
    assert Share(keys, workers, t) == keys[t * per..(t + 1) * per];
  }

  lemma CountsJoin(first: nat, n: nat)
    ensures Count(first, n) + Count(first + n, n) == Count(first, 2 * n)
  {
  }

  /** Each worker's keys are consecutive integers. */
  lemma OpKeysAreConsecutive(tableSize: nat, workers: nat, t: nat)
    requires t < workers
    ensures OpKeys(tableSize, workers, t) == Count(SegmentStart(tableSize / workers, t), 2 * (tableSize / workers))
    ensures |OpKeys(tableSize, workers, t)| == 2 * (tableSize / workers)
    ensures forall j :: 0 <= j < |OpKeys(tableSize, workers, t)| ==>
              OpKeys(tableSize, workers, t)[j] == 1 + 2 * (tableSize / workers) * t + j
  {
    var per := tableSize / workers;
    hide Dealt, Count, SegmentStart, Share;
    ShareIsSegment(per, workers, 0, t);
    ShareIsSegment(per, workers, per, t);
    CountsJoin(SegmentStart(per, t), per);
    CountAt(SegmentStart(per, t), 2 * per);
  }

  lemma CountAt(first: nat, n: nat)
    ensures forall j :: 0 <= j < n ==> Count(first, n)[j] == first + j
  {
  }

  lemma InCount(first: nat, n: nat, key: nat)
    ensures key in Count(first, n) <==> first <= key < first + n
  {
    if first <= key < first + n {
      assert Count(first, n)[key - first] == key;
    }
  }

  lemma QuotientIs(x: nat, n: nat, q: nat)
    requires n > 0
    ensures x / n == q <==> n * q <= x < n * q + n
  {
    if n * q <= x < n * q + n {
      ModUnique(x, n, q, x - n * q);
    }
  }

  /** The workers' keys partition 1 .. 2 * k_n_per_seg * fg_n. */
  lemma OpKeysPartition(tableSize: nat, workers: nat, t: nat, key: nat)
    requires t < workers && tableSize / workers > 0
    ensures key in OpKeys(tableSize, workers, t)
       <==> 1 <= key <= 2 * (tableSize / workers) * workers && t == (key - 1) / (2 * (tableSize / workers))
  {
    var n := 2 * (tableSize / workers);
    OpKeysAreConsecutive(tableSize, workers, t);
    InCount(SegmentStart(tableSize / workers, t), n, key);
    hide OpKeys, Count;
    MulNonneg(n, t);
    MulNonneg(n, workers - t - 1);
    Distribute(n, workers, t + 1);
    Distribute(n, t, 1);
    if key >= 1 {
      QuotientIs(key - 1, n, t);
    }
  }

  // ------------------------------------------------------------------ the operation list

  /** What one turn of the generating loop draws; the offset comes from the Zipfian generator. */
  datatype Draw = Read(offset: nat) | Insert | Remove

  datatype Op = Get(key: nat) | Put(key: nat) | Delete(key: nat)

  /** The state of the generating loop; failed: one of its assertions did not hold. */
  datatype Gen = Gen(ops: seq<Op>, insertI: nat, deleteI: nat, failed: bool)

  function GenStart(loaded: nat): Gen {
    Gen([], loaded, 0, false)
  }

  /** One turn; it does nothing once insert_i has reached the end or an assertion has failed. */
  function GenNext(g: Gen, keys: seq<nat>, d: Draw): Gen {
    if g.failed || g.insertI >= |keys| || g.deleteI >= |keys| then g
    else
      match d
      case Read(offset) =>
        if offset > g.insertI then g.(failed := true)
        else g.(ops := g.ops + [Get(keys[g.insertI - offset])])
      case Insert => g.(ops := g.ops + [Put(keys[g.insertI])], insertI := g.insertI + 1)
      case Remove =>
        g.(ops := g.ops + [Delete(keys[g.deleteI])], deleteI := g.deleteI + 1, failed := g.deleteI + 1 >= g.insertI)
  }

  function Generated(keys: seq<nat>, loaded: nat, draws: seq<Draw>): Gen {
    if draws == [] then GenStart(loaded)
    else GenNext(Generated(keys, loaded, draws[..|draws| - 1]), keys, draws[|draws| - 1])
  }

  /** The generating loop of run_fg on the draws it is given. */
  method Generate(keys: seq<nat>, loaded: nat, draws: seq<Draw>) returns (ops: seq<Op>, insertI: nat, failed: bool)
    requires 1 <= loaded <= |keys|
    ensures var g := Generated(keys, loaded, draws); ops == g.ops && insertI == g.insertI && failed == g.failed
  {
    ops, insertI, failed := [], loaded, false;
    var deleteI, i := 0, 0;
    while insertI < |keys| && i < |draws| && !failed
      invariant 0 <= i <= |draws| && Generated(keys, loaded, draws[..i]) == Gen(ops, insertI, deleteI, failed)
      invariant insertI <= |keys| && (!failed ==> deleteI < insertI)
    {
      assert draws[..i + 1][..i] == draws[..i];
      match draws[i] {
        case Read(offset) =>
          if insertI >= offset {
            ops := ops + [Get(keys[insertI - offset])];
          } else {
            failed := true;
          }
        case Insert =>
          ops := ops + [Put(keys[insertI])];
          insertI := insertI + 1;
        case Remove =>
          ops := ops + [Delete(keys[deleteI])];
          deleteI := deleteI + 1;
          failed := deleteI >= insertI;
      }
      i := i + 1;
    }
    StoppedStays(keys, loaded, draws, i);
  }

  lemma {:induction false} StoppedStays(keys: seq<nat>, loaded: nat, draws: seq<Draw>, i: nat)
    requires i <= |draws|
    requires var g := Generated(keys, loaded, draws[..i]); g.failed || g.insertI >= |keys| || i == |draws|
    ensures Generated(keys, loaded, draws) == Generated(keys, loaded, draws[..i])
    decreases |draws|
  {
    if i == |draws| {
      assert draws[..i] == draws;
    } else {
      var rest := draws[..|draws| - 1];
      assert rest[..i] == draws[..i];
      StoppedStays(keys, loaded, rest, i);
    }
  }

  // ------------------------------------------------------------------ what the list does

  function Apply(table: set<nat>, op: Op): set<nat> {
    match op
    case Get(key) => table
    case Put(key) => table + {key}
    case Delete(key) => table - {key}
  }

  /** The table after a worker's operations; other workers have other keys. */
  function Play(table: set<nat>, ops: seq<Op>): set<nat> {
    if ops == [] then table else Apply(Play(table, ops[..|ops| - 1]), ops[|ops| - 1])
  }

  ghost predicate KeyWasThere(loaded: seq<nat>, ops: seq<Op>, key: nat, p: nat)
    requires p <= |ops|
  {
    key in loaded || exists q :: 0 <= q < p && ops[q] == Put(key)
  }

  /** Every read is for a key loaded at the start or inserted earlier in the list. */
  ghost predicate ReadsServed(loaded: seq<nat>, ops: seq<Op>) {
    forall p :: 0 <= p < |ops| && ops[p].Get? ==> KeyWasThere(loaded, ops, ops[p].key, p)
  }

  ghost predicate InsertsDone(loaded: seq<nat>, g: Gen, keys: seq<nat>) {
    g.insertI <= |keys| && forall j :: 0 <= j < g.insertI ==> KeyWasThere(loaded, g.ops, keys[j], |g.ops|)
  }

  predicate Backward(draws: seq<Draw>) {
    forall i :: 0 <= i < |draws| && draws[i].Read? ==> draws[i].offset >= 1
  }

  lemma LongerListsServe(loaded: seq<nat>, ops: seq<Op>, op: Op, key: nat)
    requires KeyWasThere(loaded, ops, key, |ops|)
    ensures KeyWasThere(loaded, ops + [op], key, |ops|) && KeyWasThere(loaded, ops + [op], key, |ops| + 1)
  {
    if key !in loaded {
      var q :| 0 <= q < |ops| && ops[q] == Put(key);
      assert (ops + [op])[q] == Put(key);
    }
  }

  lemma GenKeepsServed(keys: seq<nat>, loaded: seq<nat>, g: Gen, d: Draw)
    requires ReadsServed(loaded, g.ops) && InsertsDone(loaded, g, keys)
    requires d.Read? ==> d.offset >= 1
    ensures ReadsServed(loaded, GenNext(g, keys, d).ops) && InsertsDone(loaded, GenNext(g, keys, d), keys)
  {
    var r := GenNext(g, keys, d);
    if |r.ops| > |g.ops| {
      var op := r.ops[|g.ops|];
      assert r.ops == g.ops + [op];
      forall p | 0 <= p < |r.ops| && r.ops[p].Get?
        ensures KeyWasThere(loaded, r.ops, r.ops[p].key, p)
      {
        if p < |g.ops| {
          EarlierServes(loaded, g.ops, op, p);
        } else {
          LongerListsServe(loaded, g.ops, op, op.key);
        }
      }
      forall j | 0 <= j < r.insertI
        ensures KeyWasThere(loaded, r.ops, keys[j], |r.ops|)
      {
        if j < g.insertI {
          LongerListsServe(loaded, g.ops, op, keys[j]);
        } else {
          assert r.ops[|g.ops|] == Put(keys[j]);
        }
      }
    }
  }

  lemma EarlierServes(loaded: seq<nat>, ops: seq<Op>, op: Op, p: nat)
    requires ReadsServed(loaded, ops) && p < |ops| && ops[p].Get?
    ensures KeyWasThere(loaded, ops + [op], ops[p].key, p)
  {
    assert KeyWasThere(loaded, ops, ops[p].key, p);
    if ops[p].key !in loaded {
      var q :| 0 <= q < p && ops[q] == Put(ops[p].key);
      assert (ops + [op])[q] == Put(ops[p].key);
    }
  }

  /**
   With offsets of at least 1, whatever the draws, every read of the list targets a key loaded at the start or
   inserted earlier in the list.
   */
  lemma {:induction false} EveryReadIsServed(keys: seq<nat>, loaded: nat, draws: seq<Draw>)
    requires 1 <= loaded <= |keys| && Backward(draws)
    ensures ReadsServed(keys[..loaded], Generated(keys, loaded, draws).ops)
    ensures InsertsDone(keys[..loaded], Generated(keys, loaded, draws), keys)
    decreases |draws|
  {
    if draws == [] {
      assert forall j :: 0 <= j < loaded ==> keys[j] == keys[..loaded][j];
    } else {
      var rest := draws[..|draws| - 1];
      EveryReadIsServed(keys, loaded, rest);
      hide ReadsServed, InsertsDone, GenNext;
      GenKeepsServed(keys, keys[..loaded], Generated(keys, loaded, rest), draws[|draws| - 1]);
    }
  }

  lemma {:induction false} ThereIsInTable(table: set<nat>, loaded: seq<nat>, ops: seq<Op>, key: nat)
    requires forall k :: k in loaded ==> k in table
    requires KeyWasThere(loaded, ops, key, |ops|) && forall q :: 0 <= q < |ops| ==> !ops[q].Delete?
    ensures key in Play(table, ops)
    decreases |ops|
  {
    if ops != [] {
      var last := |ops| - 1;
      if KeyWasThere(loaded, ops[..last], key, last) {
        ThereIsInTable(table, loaded, ops[..last], key);
      } else {
        forall q | 0 <= q < last
          ensures ops[q] != Put(key)
        {
          assert ops[..last][q] == ops[q];
        }
      }
    }
  }

  lemma {:induction false} NoDeletes(keys: seq<nat>, loaded: nat, draws: seq<Draw>)
    requires Remove !in draws
    ensures forall q :: 0 <= q < |Generated(keys, loaded, draws).ops| ==> !Generated(keys, loaded, draws).ops[q].Delete?
    decreases |draws|
  {
    if draws != [] {
      NoDeletes(keys, loaded, draws[..|draws| - 1]);
      assert draws[|draws| - 1] != Remove;
    }
  }

  /**
   Without removals (delete_ratio is 0 under ORIGIN_YCSB) every read of the list, executed in its place over any
   table that has the worker's loaded keys, finds its key.
   */
  lemma EveryReadHits(keys: seq<nat>, loaded: nat, draws: seq<Draw>, table: set<nat>, p: nat)
    requires 1 <= loaded <= |keys| && Backward(draws) && Remove !in draws
    requires forall k :: k in keys[..loaded] ==> k in table
    requires p < |Generated(keys, loaded, draws).ops| && Generated(keys, loaded, draws).ops[p].Get?
    ensures Generated(keys, loaded, draws).ops[p].key in Play(table, Generated(keys, loaded, draws).ops[..p])
  {
    var ops := Generated(keys, loaded, draws).ops;
    EveryReadIsServed(keys, loaded, draws);
    NoDeletes(keys, loaded, draws);
    hide InsertsDone, Generated;
    var there := ops[..p];
    assert KeyWasThere(keys[..loaded], ops, ops[p].key, p);
    assert KeyWasThere(keys[..loaded], there, ops[p].key, p) by {
      if ops[p].key !in keys[..loaded] {
        var q :| 0 <= q < p && ops[q] == Put(ops[p].key);
        assert there[q] == Put(ops[p].key);
      }
    }
    ThereIsInTable(table, keys[..loaded], there, ops[p].key);
  }

  predicate DistinctKeys(keys: seq<nat>) {
    forall i, j :: 0 <= i < j < |keys| ==> keys[i] != keys[j]
  }

  /** Nothing from insert_i on has been inserted. */
  lemma {:induction false} InsertsGoUpwards(keys: seq<nat>, loaded: nat, draws: seq<Draw>, j: nat)
    requires 1 <= loaded <= |keys| && DistinctKeys(keys)
    requires Generated(keys, loaded, draws).insertI <= j < |keys|
    ensures loaded <= Generated(keys, loaded, draws).insertI
    ensures forall q :: 0 <= q < |Generated(keys, loaded, draws).ops| ==>
              Generated(keys, loaded, draws).ops[q] != Put(keys[j])
    decreases |draws|
  {
    if draws != [] {
      InsertsGoUpwards(keys, loaded, draws[..|draws| - 1], j);
    }
  }

  /**
   The next read is for a key that is there exactly when its offset is at least 1: offset 0 names the key that the
   next insert will add.
   */
  lemma ReadIsServedExactly(keys: seq<nat>, loaded: nat, draws: seq<Draw>, offset: nat)
    requires 1 <= loaded <= |keys| && DistinctKeys(keys) && Backward(draws)
    requires Generated(keys, loaded, draws).insertI < |keys| && offset <= Generated(keys, loaded, draws).insertI
    ensures var g := Generated(keys, loaded, draws);
            KeyWasThere(keys[..loaded], g.ops, keys[g.insertI - offset], |g.ops|) <==> offset >= 1
  {
    var g := Generated(keys, loaded, draws);
    EveryReadIsServed(keys, loaded, draws);
    InsertsGoUpwards(keys, loaded, draws, g.insertI);
    hide ReadsServed, Generated;
    if offset == 0 {
      assert keys[g.insertI] !in keys[..loaded];
    }
  }

  // ------------------------------------------------------------------ with removals

  /** Of the worker's keys the table holds those in the window [from, to). */
  ghost predicate Holds(table: set<nat>, keys: seq<nat>, from: int, to: int) {
    forall j :: 0 <= j < |keys| ==> (keys[j] in table <==> from <= j < to)
  }

  lemma TurnMovesWindow(table: set<nat>, keys: seq<nat>, g: Gen, d: Draw)
    requires DistinctKeys(keys) && Holds(Play(table, g.ops), keys, g.deleteI, g.insertI)
    requires !g.failed ==> g.deleteI < g.insertI
    ensures var r := GenNext(g, keys, d);
            Holds(Play(table, r.ops), keys, r.deleteI, r.insertI) && (!r.failed ==> r.deleteI < r.insertI)
  {
    var r := GenNext(g, keys, d);
    if |r.ops| > |g.ops| {
      var op := r.ops[|g.ops|];
      assert r.ops == g.ops + [op] && r.ops[..|g.ops|] == g.ops;
      assert Play(table, r.ops) == Apply(Play(table, g.ops), op);
    }
  }

  /** At the end of every list the table holds exactly the worker's keys from delete_i up to insert_i. */
  lemma {:induction false} WindowOfKeys(table: set<nat>, keys: seq<nat>, loaded: nat, draws: seq<Draw>)
    requires 1 <= loaded <= |keys| && DistinctKeys(keys) && Holds(table, keys, 0, loaded)
    ensures var g := Generated(keys, loaded, draws);
            Holds(Play(table, g.ops), keys, g.deleteI, g.insertI) && (!g.failed ==> g.deleteI < g.insertI)
    decreases |draws|
  {
    if draws != [] {
      var rest := draws[..|draws| - 1];
      WindowOfKeys(table, keys, loaded, rest);
      hide Holds, Play, GenNext, DistinctKeys;
      TurnMovesWindow(table, keys, Generated(keys, loaded, rest), draws[|draws| - 1]);
    }
  }

  lemma {:induction false} ListsGrow(keys: seq<nat>, loaded: nat, draws: seq<Draw>, i: nat)
    requires i <= |draws|
    ensures |Generated(keys, loaded, draws[..i]).ops| <= |Generated(keys, loaded, draws).ops|
    ensures Generated(keys, loaded, draws).ops[..|Generated(keys, loaded, draws[..i]).ops|]
         == Generated(keys, loaded, draws[..i]).ops
    decreases |draws|
  {
    if i == |draws| {
      assert draws[..i] == draws;
    } else {
      var rest := draws[..|draws| - 1];
      assert rest[..i] == draws[..i];
      ListsGrow(keys, loaded, rest, i);
    }
  }

  /**
   The exact condition, removals included. The i-th draw, a read, becomes one operation of the list; executed in its
   place it finds its key exactly when its offset is at least 1 and its index has not been passed by delete_i.
   */
  lemma ReadHitsExactly(table: set<nat>, keys: seq<nat>, loaded: nat, draws: seq<Draw>, i: nat)
    requires 1 <= loaded <= |keys| && DistinctKeys(keys) && Holds(table, keys, 0, loaded)
    requires i < |draws| && draws[i].Read?
    requires var g := Generated(keys, loaded, draws[..i]);
             !g.failed && g.insertI < |keys| && draws[i].offset <= g.insertI
    ensures var g, ops := Generated(keys, loaded, draws[..i]), Generated(keys, loaded, draws).ops;
            var index := g.insertI - draws[i].offset;
            && |g.ops| < |ops| && ops[|g.ops|] == Get(keys[index])
            && (keys[index] in Play(table, ops[..|g.ops|]) <==> draws[i].offset >= 1 && index >= g.deleteI)
  {
    var g, ops := Generated(keys, loaded, draws[..i]), Generated(keys, loaded, draws).ops;
    var next := Generated(keys, loaded, draws[..i + 1]);
    hide Generated, Play, Holds;
    WindowOfKeys(table, keys, loaded, draws[..i]);
    ReadAppends(keys, loaded, draws, i);
    ListsGrow(keys, loaded, draws, i);
    ListsGrow(keys, loaded, draws, i + 1);
    assert ops[|g.ops|] == ops[..|next.ops|][|g.ops|];
    AtIndex(Play(table, ops[..|g.ops|]), keys, g.deleteI, g.insertI, g.insertI - draws[i].offset);
  }

  lemma AtIndex(table: set<nat>, keys: seq<nat>, from: int, to: int, j: nat)
    requires Holds(table, keys, from, to) && j < |keys|
    ensures keys[j] in table <==> from <= j < to
  {
  }

  lemma ReadAppends(keys: seq<nat>, loaded: nat, draws: seq<Draw>, i: nat)
    requires i < |draws| && draws[i].Read?
    requires var g := Generated(keys, loaded, draws[..i]);
             !g.failed && g.insertI < |keys| && g.deleteI < g.insertI && draws[i].offset <= g.insertI
    ensures var g := Generated(keys, loaded, draws[..i]);
            Generated(keys, loaded, draws[..i + 1]).ops == g.ops + [Get(keys[g.insertI - draws[i].offset])]
  {
    assert draws[..i + 1][..i] == draws[..i];
  }

  /** Two removals, then a read of the second loaded key, which an offset of loaded - 1 names: the key is gone. */
  lemma RemovedReadMisses(table: set<nat>, keys: seq<nat>, loaded: nat)
    requires 3 <= loaded < |keys| && DistinctKeys(keys) && Holds(table, keys, 0, loaded)
    ensures var ops := Generated(keys, loaded, [Remove, Remove, Read(loaded - 1)]).ops;
            |ops| == 3 && ops[2] == Get(keys[1]) && keys[1] !in Play(table, ops[..2])
  {
    var draws := [Remove, Remove, Read(loaded - 1)];
    assert draws[..2] == [Remove, Remove] && draws[..1] == [Remove] && draws[..0] == [];
    assert draws[..2][..1] == draws[..1] && draws[..1][..0] == [];
    assert Generated(keys, loaded, draws[..1]) == GenNext(GenStart(loaded), keys, Remove);
    assert Generated(keys, loaded, draws[..2]) == GenNext(Generated(keys, loaded, draws[..1]), keys, Remove);
    assert Generated(keys, loaded, draws) == GenNext(Generated(keys, loaded, draws[..2]), keys, draws[2]);
    ReadHitsExactly(table, keys, loaded, draws, 2);
  }

  // ------------------------------------------------------------------ the assertions of the loop

  function DrawnOf(draws: seq<Draw>, d: Draw): nat {
    if draws == [] then 0
    else DrawnOf(draws[..|draws| - 1], d) + if draws[|draws| - 1] == d then 1 else 0
  }

  /** Draw i asserts something false: an offset past the inserts so far, or a removal that catches up with them. */
  predicate Trips(loaded: nat, draws: seq<Draw>, i: nat)
    requires i < |draws|
  {
    var inserted := loaded + DrawnOf(draws[..i], Insert);
    match draws[i]
    case Read(offset) => offset > inserted
    case Insert => false
    case Remove => DrawnOf(draws[..i], Remove) + 1 >= inserted
  }

  /** The cursors count what was drawn. */
  lemma {:induction false} CursorsCount(keys: seq<nat>, loaded: nat, draws: seq<Draw>)
    requires 1 <= loaded <= |keys|
    ensures var g := Generated(keys, loaded, draws);
            && g.insertI <= |keys| && (!g.failed ==> g.deleteI < g.insertI)
            && (!g.failed ==> g.insertI == |keys| || g.insertI == loaded + DrawnOf(draws, Insert))
            && (!g.failed ==> g.insertI <= loaded + DrawnOf(draws, Insert))
            && (!g.failed && g.insertI < |keys| ==> g.deleteI == DrawnOf(draws, Remove))
    decreases |draws|
  {
    if draws != [] {
      CursorsCount(keys, loaded, draws[..|draws| - 1]);
    }
  }

  /** An assertion of the generating loop fails exactly when some draw before the list is complete trips it. */
  lemma {:induction false} FailsExactly(keys: seq<nat>, loaded: nat, draws: seq<Draw>)
    requires 1 <= loaded <= |keys|
    ensures Generated(keys, loaded, draws).failed
       <==> exists i :: 0 <= i < |draws| && Trips(loaded, draws, i) && loaded + DrawnOf(draws[..i], Insert) < |keys|
    decreases |draws|
  {
    if draws != [] {
      var last := |draws| - 1;
      var rest := draws[..last];
      FailsExactly(keys, loaded, rest);
      CursorsCount(keys, loaded, rest);
      assert forall i :: 0 <= i < last ==> rest[..i] == draws[..i];
      assert Generated(keys, loaded, draws) == GenNext(Generated(keys, loaded, rest), keys, draws[last]);
      hide Generated, DrawnOf;
      assert forall i :: 0 <= i < last ==> (Trips(loaded, draws, i) <==> Trips(loaded, rest, i));
    }
  }
}
