/**
 The read/write mix. Every worker circulates through its own array of keys, half of them
 loaded: it inserts at one cursor and removes at another, half the array behind.
 */
module RwMix {
  import opened Bits
  import opened Shares

  type Key = nat

  /** The branch a draw selects; RangeScan only when the scan ratio is positive. */
  datatype Op = Read | InPlace | Swap | RangeScan

  /** A worker's cursors; mid: it has inserted query_keys[insert_i] and not yet removed query_keys[delete_i]. */
  datatype Mixer = Mixer(keys: seq<Key>, queryI: nat, insertI: nat, deleteI: nat, updateI: nat, mid: bool) {
    function Half(): nat {
      |keys| / 2
    }
  }

  datatype State = State(table: set<Key>, ws: seq<Mixer>)

  datatype Move = Pick(i: nat, op: Op) | Finish(i: nat)

  /** (i + delete_i) % query_keys.size() */
  function Around(w: Mixer, i: nat): nat {
    if w.keys == [] then 0 else (i + w.deleteI) % |w.keys|
  }

  /** query_keys[p]. Shape keeps every cursor but query_i below the size; InBounds speaks of query_i. */
  function KeyAt(w: Mixer, p: nat): Key {
    if p < |w.keys| then w.keys[p] else 0
  }

  /** i + 1, reset when it reaches the end. */
  function Bump(i: nat, end: nat): nat {
    if i + 1 == end then 0 else i + 1
  }

  predicate Enabled(s: State, m: Move) {
    m.i < |s.ws| && s.ws[m.i].mid == m.Finish?
  }

  /** A range scan starts at query_keys[query_i]; nothing in the code keeps that inside the vector. */
  predicate InBounds(s: State, m: Move)
    requires Enabled(s, m)
  {
    m.Pick? && m.op.RangeScan? ==> s.ws[m.i].queryI < |s.ws[m.i].keys|
  }

  ghost predicate Shape(w: Mixer) {
    |w.keys| == 2 * w.Half() && w.Half() >= 1 && w.deleteI < |w.keys| && w.updateI < w.Half()
    && w.insertI == if w.deleteI < w.Half() then w.deleteI + w.Half() else w.deleteI - w.Half()
  }

  /** The worker's first table operation in this turn, or the removal that completes a swap. */
  function Perform(s: State, m: Move): State
    requires Enabled(s, m)
  {
    var w := s.ws[m.i];
    match m
    case Pick(i, Read) => s.(ws := s.ws[i := w.(queryI := Bump(w.queryI, w.Half()))])
    case Pick(i, InPlace) =>
      State(s.table + {KeyAt(w, Around(w, w.updateI))}, s.ws[i := w.(updateI := Bump(w.updateI, w.Half()))])
    case Pick(i, Swap) => State(s.table + {KeyAt(w, w.insertI)}, s.ws[i := w.(mid := true)])
    case Pick(i, RangeScan) => s.(ws := s.ws[i := w.(queryI := Bump(w.queryI, |w.keys|))])
    case Finish(i) =>
      State(s.table - {KeyAt(w, w.deleteI)},
            s.ws[i := w.(insertI := Bump(w.insertI, |w.keys|), deleteI := Bump(w.deleteI, |w.keys|), mid := false)])
  }

  // ------------------------------------------------------------------ the window

  /** How far position p lies behind the delete cursor, going round. */
  function Behind(w: Mixer, p: nat): nat
    requires w.deleteI < |w.keys| && p < |w.keys|
  {
    if p >= w.deleteI then p - w.deleteI else p + |w.keys| - w.deleteI
  }

  /** The circular window of live positions: half the array, one more in the middle of a swap. */
  predicate Live(w: Mixer, p: nat)
    requires w.deleteI < |w.keys| && p < |w.keys|
  {
    Behind(w, p) < w.Half() + if w.mid then 1 else 0
  }

  lemma WrapOnce(x: nat, n: nat)
    requires n > 0 && x < 2 * n
    ensures x % n == if x < n then x else x - n
  {
    if x < n {
      ModUnique(x, n, 0, x);
    } else {
      ModUnique(x, n, 1, x - n);
    }
  }

  lemma ModShift(x: nat, d: nat, n: nat)
    requires n > 0
    ensures (x + d) % n == (x % n + d) % n
  {
    var q, r := x / n, (x % n + d) % n;
    var q2 := (x % n + d) / n;
    Distribute(n, q, q2);
    ModUnique(x + d, n, q + q2, r);
  }

  /** Cursor i, read around the delete cursor, stands at the position i % size behind it. */
  lemma AroundIsBehind(w: Mixer, i: nat)
    requires w.deleteI < |w.keys|
    ensures Around(w, i) < |w.keys| && Behind(w, Around(w, i)) == i % |w.keys|
  {
    ModShift(i, w.deleteI, |w.keys|);
    WrapOnce(i % |w.keys| + w.deleteI, |w.keys|);
  }

  // ------------------------------------------------------------------ the invariant

  ghost predicate Distinct(ws: seq<Mixer>) {
    forall i, j, p, q ::
      0 <= i < |ws| && 0 <= j < |ws| && 0 <= p < |ws[i].keys| && 0 <= q < |ws[j].keys| && (i != j || p != q) ==>
        ws[i].keys[p] != ws[j].keys[q]
  }

  ghost predicate Shapes(ws: seq<Mixer>) {
    forall i :: 0 <= i < |ws| ==> Shape(ws[i])
  }

  /** A worker's keys are in the table exactly when their positions are live. */
  ghost predicate LiveKeys(table: set<Key>, w: Mixer)
    requires Shape(w)
  {
    forall p :: 0 <= p < |w.keys| ==> (w.keys[p] in table <==> Live(w, p))
  }

  /** How many workers are in the middle of a swap. */
  function Mids(ws: seq<Mixer>): nat {
    if ws == [] then 0 else (if ws[|ws| - 1].mid then 1 else 0) + Mids(ws[..|ws| - 1])
  }

  ghost predicate Ok(s: State, size: nat) {
    && Shapes(s.ws) && Distinct(s.ws)
    && (forall i :: 0 <= i < |s.ws| ==> LiveKeys(s.table, s.ws[i]))
    && |s.table| == size + Mids(s.ws)
  }

  lemma {:induction false} MidsUpdate(ws: seq<Mixer>, i: nat, w: Mixer)
    requires i < |ws|
    ensures Mids(ws[i := w]) == Mids(ws) - (if ws[i].mid then 1 else 0) + if w.mid then 1 else 0
  {
    var last := |ws| - 1;
    if i < last {
      assert ws[i := w][..last] == ws[..last][i := w];
      MidsUpdate(ws[..last], i, w);
    } else {
      assert ws[i := w][..last] == ws[..last];
    }
  }

  lemma {:induction false} MidsBound(ws: seq<Mixer>)
    ensures Mids(ws) <= |ws|
  {
    if ws != [] {
      MidsBound(ws[..|ws| - 1]);
    }
  }

  /** Removing behind the window and moving both cursors slides the window by one. */
  lemma SlideWindow(w: Mixer, p: nat)
    requires Shape(w) && w.mid && p < |w.keys|
    ensures var n := w.(insertI := Bump(w.insertI, |w.keys|), deleteI := Bump(w.deleteI, |w.keys|), mid := false);
            Shape(n) && (Live(n, p) <==> Live(w, p) && p != w.deleteI)
  {
  }

  /** Inserting ahead of the window lengthens it by one. */
  lemma GrowWindow(w: Mixer, p: nat)
    requires Shape(w) && !w.mid && p < |w.keys|
    ensures Shape(w.(mid := true)) && (Live(w.(mid := true), p) <==> Live(w, p) || p == w.insertI)
    ensures !Live(w, w.insertI) && Live(w.(mid := true), w.deleteI)
  {
  }

  /** Every in-place update hits a live key. */
  lemma UpdateHits(s: State, i: nat, size: nat)
    requires Ok(s, size) && i < |s.ws|
    ensures s.ws[i].keys[Around(s.ws[i], s.ws[i].updateI)] in s.table
  {
    var w := s.ws[i];
    AroundIsBehind(w, w.updateI);
    WrapOnce(w.updateI, |w.keys|);
    assert LiveKeys(s.table, w);
  }

  /** What one move does to the table and to its worker. */
  ghost predicate Effect(table: set<Key>, w: Mixer, table': set<Key>, w': Mixer) {
    && w'.keys == w.keys && Shape(w') && LiveKeys(table', w')
    && |table'| - |table| == (if w'.mid then 1 else 0) - (if w.mid then 1 else 0)
    && (forall k :: (k in table) != (k in table') ==> k in w.keys)
  }

  lemma SwapEffect(s: State, i: nat, size: nat)
    requires Ok(s, size) && Enabled(s, Pick(i, Swap))
    ensures Effect(s.table, s.ws[i], Perform(s, Pick(i, Swap)).table, Perform(s, Pick(i, Swap)).ws[i])
  {
    var w, next := s.ws[i], s.ws[i].(mid := true);
    assert LiveKeys(s.table, w);
    GrowWindow(w, 0);
    hide Live;
    forall p | 0 <= p < |w.keys|
      ensures w.keys[p] in s.table + {w.keys[w.insertI]} <==> Live(next, p)
    {
      GrowWindow(w, p);
    }
  }

  lemma FinishEffect(s: State, i: nat, size: nat)
    requires Ok(s, size) && Enabled(s, Finish(i))
    ensures Effect(s.table, s.ws[i], Perform(s, Finish(i)).table, Perform(s, Finish(i)).ws[i])
  {
    var w, next := s.ws[i], Perform(s, Finish(i)).ws[i];
    assert LiveKeys(s.table, w);
    assert Live(w, w.deleteI);
    SlideWindow(w, 0);
    hide Live;
    forall p | 0 <= p < |w.keys|
      ensures w.keys[p] in s.table - {w.keys[w.deleteI]} <==> Live(next, p)
    {
      SlideWindow(w, p);
    }
  }

  /** Reads, updates and scans leave the window where it is. */
  lemma CursorKeepsWindow(table: set<Key>, w: Mixer, q: nat, u: nat)
    requires Shape(w) && LiveKeys(table, w) && u < w.Half()
    ensures Effect(table, w, table, w.(queryI := q, updateI := u))
  {
    var w' := w.(queryI := q, updateI := u);
    assert forall p :: 0 <= p < |w.keys| ==> Live(w, p) == Live(w', p);
  }

  lemma MoveEffect(s: State, m: Move, size: nat)
    requires Ok(s, size) && Enabled(s, m)
    ensures Perform(s, m).ws == s.ws[m.i := Perform(s, m).ws[m.i]]
    ensures Effect(s.table, s.ws[m.i], Perform(s, m).table, Perform(s, m).ws[m.i])
  {
    var w := s.ws[m.i];
    assert LiveKeys(s.table, w);
    hide Effect, LiveKeys;
    match m
    case Pick(i, Read) => CursorKeepsWindow(s.table, w, Bump(w.queryI, w.Half()), w.updateI);
    case Pick(i, RangeScan) => CursorKeepsWindow(s.table, w, Bump(w.queryI, |w.keys|), w.updateI);
    case Pick(i, InPlace) =>
      UpdateHits(s, i, size);
      assert Perform(s, m).table == s.table;
      CursorKeepsWindow(s.table, w, w.queryI, Bump(w.updateI, w.Half()));
    case Pick(i, Swap) => SwapEffect(s, i, size);
    case Finish(i) => FinishEffect(s, i, size);
  }

  /** A get hits exactly when its cursor, modulo the array, is inside the window; before a scan it always is. */
  lemma ReadHitsExactly(s: State, i: nat, size: nat)
    requires Ok(s, size) && i < |s.ws| && !s.ws[i].mid
    ensures s.ws[i].keys[Around(s.ws[i], s.ws[i].queryI)] in s.table
       <==> s.ws[i].queryI % |s.ws[i].keys| < s.ws[i].Half()
  {
    var w := s.ws[i];
    AroundIsBehind(w, w.queryI);
    assert LiveKeys(s.table, w);
  }

  lemma OthersKeepKeys(s: State, m: Move, size: nat, j: nat)
    requires Ok(s, size) && Enabled(s, m) && j < |s.ws| && j != m.i
    ensures LiveKeys(Perform(s, m).table, s.ws[j])
  {
    MoveEffect(s, m, size);
    hide Perform, Live;
    var w, r := s.ws[j], Perform(s, m);
    assert LiveKeys(s.table, w);
    forall p | 0 <= p < |w.keys|
      ensures w.keys[p] in r.table <==> Live(w, p)
    {
      assert w.keys[p] !in s.ws[m.i].keys;
    }
  }

  lemma MoveKeepsOk(s: State, m: Move, size: nat)
    requires Ok(s, size) && Enabled(s, m)
    ensures Ok(Perform(s, m), size)
  {
    var r := Perform(s, m);
    MoveEffect(s, m, size);
    MidsUpdate(s.ws, m.i, r.ws[m.i]);
    hide Perform, Mids, LiveKeys, Shape;
    assert forall i :: 0 <= i < |r.ws| ==> r.ws[i].keys == s.ws[i].keys;
    forall j | 0 <= j < |r.ws|
      ensures Shape(r.ws[j]) && LiveKeys(r.table, r.ws[j])
    {
      if j != m.i {
        OthersKeepKeys(s, m, size, j);
      }
    }
  }

  // ------------------------------------------------------------------ start and runs

  /** A worker before its first operation. */
  function Fresh(existing: seq<Key>, others: seq<Key>, workers: nat, i: nat): Mixer
    requires i < workers
  {
    var keys := Share(existing, workers, i) + Share(others, workers, i);
    Mixer(keys, 0, |keys| / 2, 0, 0, false)
  }

  function KeySet(keys: seq<Key>): set<Key> {
    set k | k in keys
  }

  function Initial(existing: seq<Key>, others: seq<Key>, workers: nat): State {
    State(KeySet(existing), seq(workers, i requires 0 <= i < workers => Fresh(existing, others, workers, i)))
  }

  /** What the benchmark is run on: distinct keys, as many spare as loaded, at least one for every worker. */
  ghost predicate Prepared(existing: seq<Key>, others: seq<Key>, workers: nat) {
    && 1 <= workers <= |existing| && |others| == |existing|
    && (forall p, q :: 0 <= p < q < |existing + others| ==> (existing + others)[p] != (existing + others)[q])
  }

  /** Where position p of worker i's array lies in existing + others. */
  function Place(size: nat, n: nat, i: nat, p: nat): nat {
    if p < n then i * n + p else size + (i * n + (p - n))
  }

  lemma FreshKeyAt(existing: seq<Key>, others: seq<Key>, workers: nat, i: nat, p: nat)
    requires i < workers && |others| == |existing| && p < 2 * (|existing| / workers)
    ensures |Fresh(existing, others, workers, i).keys| == 2 * (|existing| / workers)
    ensures var n := |existing| / workers; var at := Place(|existing|, n, i, p);
            at < |existing + others| && (at < |existing| <==> p < n)
            && Fresh(existing, others, workers, i).keys[p] == (existing + others)[at]
  {
    var n := |existing| / workers;
    ShareFits(|existing|, workers, i);
    var a, b := Share(existing, workers, i), Share(others, workers, i);
    assert Fresh(existing, others, workers, i).keys == a + b;
    hide Share, Fresh;
    if p < n {
      assert (a + b)[p] == a[p];
    } else {
      assert (a + b)[p] == b[p - n];
    }
  }

  lemma PlaceInjective(size: nat, n: nat, i: nat, p: nat, j: nat, q: nat)
    requires p < 2 * n && q < 2 * n && (p < n <==> q < n) && Place(size, n, i, p) == Place(size, n, j, q)
    ensures i == j && p == q
  {
    if p < n {
      SharesApart(n, i, j, p, q);
    } else {
      SharesApart(n, i, j, p - n, q - n);
    }
  }

  lemma InitialIsDistinct(existing: seq<Key>, others: seq<Key>, workers: nat)
    requires Prepared(existing, others, workers)
    ensures Distinct(Initial(existing, others, workers).ws)
  {
    var ws, n := Initial(existing, others, workers).ws, |existing| / workers;
    forall i, j, p, q | 0 <= i < |ws| && 0 <= j < |ws| && 0 <= p < |ws[i].keys| && 0 <= q < |ws[j].keys|
                        && ws[i].keys[p] == ws[j].keys[q]
      ensures i == j && p == q
    {
      FreshKeyAt(existing, others, workers, i, p);
      FreshKeyAt(existing, others, workers, j, q);
      hide Share, Fresh;
      var a, b := Place(|existing|, n, i, p), Place(|existing|, n, j, q);
      assert a == b by {
        hide Place;
        assert (existing + others)[a] == (existing + others)[b];
      }
      PlaceInjective(|existing|, n, i, p, j, q);
    }
  }

  lemma InitialWorker(existing: seq<Key>, others: seq<Key>, workers: nat, i: nat)
    requires Prepared(existing, others, workers) && i < workers
    ensures Shape(Fresh(existing, others, workers, i))
    ensures LiveKeys(Initial(existing, others, workers).table, Fresh(existing, others, workers, i))
  {
    var w, n := Fresh(existing, others, workers, i), |existing| / workers;
    SharesNonEmpty(|existing|, workers);
    FreshKeyAt(existing, others, workers, i, 0);
    assert Shape(w) && w.deleteI == 0 && !w.mid && w.Half() == n;
    hide Share, Fresh, KeySet, Place;
    forall p | 0 <= p < |w.keys|
      ensures w.keys[p] in KeySet(existing) <==> Live(w, p)
    {
      FreshKeyAt(existing, others, workers, i, p);
      LoadedPart(existing, others, Place(|existing|, n, i, p));
    }
  }

  /** Of all keys, exactly the existing ones are loaded. */
  lemma LoadedPart(existing: seq<Key>, others: seq<Key>, at: nat)
    requires at < |existing + others|
    requires forall p, q :: 0 <= p < q < |existing + others| ==> (existing + others)[p] != (existing + others)[q]
    ensures (existing + others)[at] in KeySet(existing) <==> at < |existing|
  {
    var all := existing + others;
    if at >= |existing| {
      forall q | 0 <= q < |existing|
        ensures existing[q] != all[at]
      {
        assert existing[q] == all[q] != all[at];
      }
    }
  }

  lemma {:induction false} DistinctSize(keys: seq<Key>)
    requires forall p, q :: 0 <= p < q < |keys| ==> keys[p] != keys[q]
    ensures |KeySet(keys)| == |keys|
  {
    if keys == [] {
      assert KeySet(keys) == {};
    } else {
      var last := |keys| - 1;
      DistinctSize(keys[..last]);
      assert KeySet(keys) == KeySet(keys[..last]) + {keys[last]} by {
        assert keys == keys[..last] + [keys[last]];
      }
      assert keys[last] !in KeySet(keys[..last]);
    }
  }

  lemma {:induction false} NoMids(ws: seq<Mixer>)
    requires forall i :: 0 <= i < |ws| ==> !ws[i].mid
    ensures Mids(ws) == 0
  {
    if ws != [] {
      NoMids(ws[..|ws| - 1]);
    }
  }

  lemma InitialIsOk(existing: seq<Key>, others: seq<Key>, workers: nat)
    requires Prepared(existing, others, workers)
    ensures Ok(Initial(existing, others, workers), |existing|)
  {
    var s := Initial(existing, others, workers);
    InitialIsDistinct(existing, others, workers);
    assert forall p, q :: 0 <= p < q < |existing| ==>
      existing[p] == (existing + others)[p] && existing[q] == (existing + others)[q];
    DistinctSize(existing);
    NoMids(s.ws);
    forall i | 0 <= i < |s.ws|
      ensures Shape(s.ws[i]) && LiveKeys(s.table, s.ws[i])
    {
      InitialWorker(existing, others, workers, i);
    }
  }

  // ------------------------------------------------------------------ every interleaving

  /** A run of the workers: ss[j + 1] is what move ms[j] makes of ss[j], and no move reads past its worker's array. */
  ghost predicate Behaviour(existing: seq<Key>, others: seq<Key>, workers: nat, ss: seq<State>, ms: seq<Move>) {
    && |ss| == |ms| + 1 && ss[0] == Initial(existing, others, workers)
    && forall j {:trigger ms[j]} :: 0 <= j < |ms| ==>
         Enabled(ss[j], ms[j]) && InBounds(ss[j], ms[j]) && ss[j + 1] == Perform(ss[j], ms[j])
  }

  ghost predicate SameKeys(a: seq<Mixer>, b: seq<Mixer>) {
    |a| == |b| && forall i :: 0 <= i < |a| ==> a[i].keys == b[i].keys
  }

  lemma {:induction false} StatesAreOk(existing: seq<Key>, others: seq<Key>, workers: nat, ss: seq<State>,
                                       ms: seq<Move>, k: nat)
    requires Prepared(existing, others, workers) && Behaviour(existing, others, workers, ss, ms) && k < |ss|
    ensures Ok(ss[k], |existing|) && SameKeys(ss[k].ws, ss[0].ws)
  {
    hide Ok, Perform, Prepared, Initial;
    if k == 0 {
      InitialIsOk(existing, others, workers);
    } else {
      StatesAreOk(existing, others, workers, ss, ms, k - 1);
      var m := ms[k - 1];
      MoveEffect(ss[k - 1], m, |existing|);
      MoveKeepsOk(ss[k - 1], m, |existing|);
    }
  }

  ghost predicate ScanFree(ms: seq<Move>) {
    forall j :: 0 <= j < |ms| ==> ms[j] != Pick(ms[j].i, RangeScan)
  }

  ghost predicate QueriesInWindow(s: State) {
    forall i :: 0 <= i < |s.ws| ==> s.ws[i].queryI < s.ws[i].Half()
  }

  lemma MoveKeepsQueries(s: State, m: Move)
    requires Enabled(s, m) && Shape(s.ws[m.i]) && QueriesInWindow(s) && m != Pick(m.i, RangeScan)
    ensures QueriesInWindow(Perform(s, m))
  {
  }

  lemma InitialQueries(existing: seq<Key>, others: seq<Key>, workers: nat)
    requires Prepared(existing, others, workers)
    ensures QueriesInWindow(Initial(existing, others, workers))
  {
    forall i | 0 <= i < workers
      ensures 0 < Fresh(existing, others, workers, i).Half()
    {
      InitialWorker(existing, others, workers, i);
    }
  }

  lemma {:induction false} ScanFreeQueries(existing: seq<Key>, others: seq<Key>, workers: nat, ss: seq<State>,
                                           ms: seq<Move>, k: nat)
    requires Prepared(existing, others, workers) && Behaviour(existing, others, workers, ss, ms) && k < |ss|
    requires ScanFree(ms)
    ensures QueriesInWindow(ss[k])
  {
    if k == 0 {
      InitialQueries(existing, others, workers);
    } else {
      var m := ms[k - 1];
      StatesAreOk(existing, others, workers, ss, ms, k - 1);
      assert Shape(ss[k - 1].ws[m.i]);
      hide Prepared, Initial, Perform, Ok, Shape, QueriesInWindow;
      ScanFreeQueries(existing, others, workers, ss, ms, k - 1);
      MoveKeepsQueries(ss[k - 1], m);
    }
  }

  /** At any point of any interleaving the table holds between table_size and table_size + fg_n keys. */
  lemma TableSizeIsStable(existing: seq<Key>, others: seq<Key>, workers: nat, ss: seq<State>, ms: seq<Move>, k: nat)
    requires Prepared(existing, others, workers) && Behaviour(existing, others, workers, ss, ms) && k < |ss|
    ensures |existing| <= |ss[k].table| <= |existing| + workers
  {
    StatesAreOk(existing, others, workers, ss, ms, k);
    MidsBound(ss[k].ws);
  }

  /**
   Of its own keys, a worker has exactly the circular window in the table that starts at delete_i and is half the
   array long, one longer between the insert and the remove; insert_i stays half the array ahead of delete_i.
   */
  lemma WindowIsLive(existing: seq<Key>, others: seq<Key>, workers: nat, ss: seq<State>, ms: seq<Move>, k: nat, i: nat)
    requires Prepared(existing, others, workers) && Behaviour(existing, others, workers, ss, ms) && k < |ss|
    requires i < workers
    ensures |ss[k].ws| == workers
    ensures var w, n := ss[k].ws[i], |existing| / workers;
            w.deleteI < |w.keys| == 2 * n && w.insertI == (w.deleteI + n) % |w.keys|
            && forall p :: 0 <= p < |w.keys| ==>
                 (w.keys[p] in ss[k].table <==> Behind(w, p) < n + if w.mid then 1 else 0)
  {
    StatesAreOk(existing, others, workers, ss, ms, k);
    var w := ss[k].ws[i];
    assert Shape(w) && LiveKeys(ss[k].table, w);
    assert w.keys == Fresh(existing, others, workers, i).keys;
    hide Behaviour, Ok, Fresh;
    InitialWorker(existing, others, workers, i);
    FreshKeyAt(existing, others, workers, i, 0);
    WrapOnce(w.deleteI + w.Half(), |w.keys|);
  }

  /** Keys of no worker stay as loaded: they are left over when the key list is divided among the workers. */
  lemma {:induction false} SpareKeysStayLoaded(existing: seq<Key>, others: seq<Key>, workers: nat, ss: seq<State>,
                                               ms: seq<Move>, k: nat, key: Key)
    requires Prepared(existing, others, workers) && Behaviour(existing, others, workers, ss, ms) && k < |ss|
    requires forall i :: 0 <= i < workers ==> key !in Fresh(existing, others, workers, i).keys
    ensures key in ss[k].table <==> key in existing
  {
    if k > 0 {
      var m := ms[k - 1];
      StatesAreOk(existing, others, workers, ss, ms, k - 1);
      MoveEffect(ss[k - 1], m, |existing|);
      assert key !in ss[k - 1].ws[m.i].keys;
      hide Perform, Ok, Prepared, Initial, LiveKeys, Shape, Fresh;
      SpareKeysStayLoaded(existing, others, workers, ss, ms, k - 1, key);
    }
  }

  /** Every in-place update hits a live key; so does every get, as long as no range scan is drawn. */
  lemma OperationsHit(existing: seq<Key>, others: seq<Key>, workers: nat, ss: seq<State>, ms: seq<Move>, k: nat, i: nat)
    requires Prepared(existing, others, workers) && Behaviour(existing, others, workers, ss, ms) && k < |ss|
    requires i < workers
    ensures |ss[k].ws| == workers
    ensures KeyAt(ss[k].ws[i], Around(ss[k].ws[i], ss[k].ws[i].updateI)) in ss[k].table
    ensures ScanFree(ms) && !ss[k].ws[i].mid ==>
              KeyAt(ss[k].ws[i], Around(ss[k].ws[i], ss[k].ws[i].queryI)) in ss[k].table
  {
    StatesAreOk(existing, others, workers, ss, ms, k);
    var s, w := ss[k], ss[k].ws[i];
    assert Shape(w);
    UpdateHits(s, i, |existing|);
    AroundIsBehind(w, w.updateI);
    if ScanFree(ms) && !w.mid {
      ScanFreeQueries(existing, others, workers, ss, ms, k);
      ReadHitsExactly(s, i, |existing|);
      AroundIsBehind(w, w.queryI);
      assert w.queryI < w.Half();
      WrapOnce(w.queryI, |w.keys|);
    }
  }

  // ------------------------------------------------------------------ how the cursors go round

  /** How often m is among the first k moves. */
  function Times(ms: seq<Move>, k: nat, m: Move): nat
    requires k <= |ms|
  {
    if k == 0 then 0 else Times(ms, k - 1, m) + if ms[k - 1] == m then 1 else 0
  }

  /** Where a cursor stands that has gone round n positions, one at a time, count times. */
  function Round(count: nat, n: nat): nat
    requires n > 0
  {
    count % n
  }

  lemma BumpCounts(c: nat, n: nat)
    requires n > 0
    ensures Bump(Round(c, n), n) == Round(c + 1, n)
  {
    Distribute(n, c / n, 1);
    if c % n + 1 == n {
      ModUnique(c + 1, n, c / n + 1, 0);
    } else {
      ModUnique(c + 1, n, c / n, c % n + 1);
    }
  }

  /** What the moves so far say about a worker's cursors. */
  ghost predicate CursorsAre(w: Mixer, ms: seq<Move>, k: nat, i: nat)
    requires k <= |ms|
  {
    && w.Half() >= 1
    && w.updateI == Round(Times(ms, k, Pick(i, InPlace)), w.Half())
    && w.deleteI == Round(Times(ms, k, Finish(i)), |w.keys|)
    && (Times(ms, k, Pick(i, RangeScan)) == 0 ==> w.queryI == Round(Times(ms, k, Pick(i, Read)), w.Half()))
    && (Times(ms, k, Pick(i, Read)) == 0 ==> w.queryI == Round(Times(ms, k, Pick(i, RangeScan)), |w.keys|))
    && Times(ms, k, Pick(i, Swap)) == Times(ms, k, Finish(i)) + if w.mid then 1 else 0
  }

  lemma OthersMoveCounts(s: State, ms: seq<Move>, k: nat, i: nat)
    requires k < |ms| && Enabled(s, ms[k]) && i < |s.ws| && CursorsAre(s.ws[i], ms, k, i) && ms[k].i != i
    ensures |Perform(s, ms[k]).ws| == |s.ws| && CursorsAre(Perform(s, ms[k]).ws[i], ms, k + 1, i)
  {
    assert Perform(s, ms[k]).ws[i] == s.ws[i];
    hide Perform, Round;
  }

  /** How often worker i's five kinds of moves have been made, before and after its next one. */
  lemma OwnMoveCounts(w: Mixer, next: Mixer, ms: seq<Move>, k: nat, i: nat)
    requires k < |ms| && CursorsAre(w, ms, k, i) && ms[k].i == i && w.mid == ms[k].Finish?
    requires next == match ms[k]
                     case Pick(_, Read) => w.(queryI := Bump(w.queryI, w.Half()))
                     case Pick(_, InPlace) => w.(updateI := Bump(w.updateI, w.Half()))
                     case Pick(_, Swap) => w.(mid := true)
                     case Pick(_, RangeScan) => w.(queryI := Bump(w.queryI, |w.keys|))
                     case Finish(_) => w.(insertI := Bump(w.insertI, |w.keys|), deleteI := Bump(w.deleteI, |w.keys|),
                                          mid := false)
    ensures CursorsAre(next, ms, k + 1, i)
  {
    hide Times, Bump, Round;
    assert next.Half() == w.Half();
    TimesNext(ms, k, Pick(i, InPlace));
    TimesNext(ms, k, Pick(i, Read));
    TimesNext(ms, k, Finish(i));
    TimesNext(ms, k, Pick(i, RangeScan));
    TimesNext(ms, k, Pick(i, Swap));
    match ms[k]
    case Pick(_, Read) => BumpCounts(Times(ms, k, Pick(i, Read)), w.Half());
    case Pick(_, InPlace) => BumpCounts(Times(ms, k, Pick(i, InPlace)), w.Half());
    case Pick(_, Swap) =>
    case Pick(_, RangeScan) => BumpCounts(Times(ms, k, Pick(i, RangeScan)), |w.keys|);
    case Finish(_) => BumpCounts(Times(ms, k, Finish(i)), |w.keys|);
  }

  lemma MoveCounts(s: State, ms: seq<Move>, k: nat, i: nat)
    requires k < |ms| && Enabled(s, ms[k]) && i < |s.ws| && CursorsAre(s.ws[i], ms, k, i)
    ensures |Perform(s, ms[k]).ws| == |s.ws| && CursorsAre(Perform(s, ms[k]).ws[i], ms, k + 1, i)
  {
    hide CursorsAre, Bump, Around, KeyAt;
    if ms[k].i == i {
      OwnMoveCounts(s.ws[i], Perform(s, ms[k]).ws[i], ms, k, i);
    } else {
      OthersMoveCounts(s, ms, k, i);
    }
  }

  lemma TimesNext(ms: seq<Move>, k: nat, m: Move)
    requires k < |ms|
    ensures Times(ms, k + 1, m) == Times(ms, k, m) + if ms[k] == m then 1 else 0
  {
  }

  lemma InitialCursors(existing: seq<Key>, others: seq<Key>, workers: nat, ms: seq<Move>, i: nat)
    requires Prepared(existing, others, workers) && i < workers
    ensures |Initial(existing, others, workers).ws| == workers
    ensures CursorsAre(Initial(existing, others, workers).ws[i], ms, 0, i)
  {
    InitialWorker(existing, others, workers, i);
    assert Initial(existing, others, workers).ws[i] == Fresh(existing, others, workers, i);
    assert Shape(Fresh(existing, others, workers, i));
    hide Prepared, CursorsAre, KeySet, Share, LiveKeys;
    ZeroCursors(Fresh(existing, others, workers, i), ms, i);
  }

  lemma ZeroCursors(w: Mixer, ms: seq<Move>, i: nat)
    requires w.Half() >= 1 && w.updateI == w.deleteI == w.queryI == 0 && !w.mid
    ensures CursorsAre(w, ms, 0, i)
  {
  }

  /**
   In every interleaving a worker's cursors count its operations: in-place updates and, without range scans, gets go
   round half the array, swaps and, without gets, range scans go round all of it. So none is ever skipped.
   */
  lemma {:induction false} CursorsCount(existing: seq<Key>, others: seq<Key>, workers: nat, ss: seq<State>,
                                        ms: seq<Move>, k: nat, i: nat)
    requires Prepared(existing, others, workers) && Behaviour(existing, others, workers, ss, ms) && k < |ss|
    requires i < workers
    ensures |ss[k].ws| == workers && CursorsAre(ss[k].ws[i], ms, k, i)
  {
    if k == 0 {
      InitialCursors(existing, others, workers, ms, i);
    } else {
      hide *;
      BehaviourStep(existing, others, workers, ss, ms, k - 1);
      CursorsCount(existing, others, workers, ss, ms, k - 1, i);
      MoveCounts(ss[k - 1], ms, k - 1, i);
    }
  }

  // ------------------------------------------------------------------ range scans

  /** Only operations of the set are drawn. */
  ghost predicate Uses(ms: seq<Move>, ops: set<Op>) {
    forall j :: 0 <= j < |ms| && ms[j].Pick? ==> ms[j].op in ops
  }

  /** In no run over these operations can a worker draw a range scan that reads past its array. */
  ghost predicate ScansInBounds(existing: seq<Key>, others: seq<Key>, workers: nat, ops: set<Op>) {
    forall ss: seq<State>, ms: seq<Move>, k: nat, i: nat
      {:trigger Behaviour(existing, others, workers, ss, ms), ss[k].ws[i]} ::
      && Behaviour(existing, others, workers, ss, ms) && Uses(ms, ops) && RangeScan in ops
      && k < |ss| && i < |ss[k].ws| ==>
        ss[k].ws[i].queryI < |ss[k].ws[i].keys|
  }

  /** State j of the witness: j range scans and gets of worker 0 have moved its query cursor to j. */
  function CursorAt(s: State, j: nat): State
    requires |s.ws| > 0
  {
    s.(ws := s.ws[0 := s.ws[0].(queryI := j)])
  }

  function Climb(s: State, steps: nat): seq<State>
    requires |s.ws| > 0
  {
    seq(steps + 1, j requires 0 <= j <= steps => CursorAt(s, j))
  }

  /** half range scans, then gets. */
  function ClimbMoves(half: nat, steps: nat): seq<Move> {
    seq(steps, j requires 0 <= j < steps => Pick(0, if j < half then RangeScan else Read))
  }

  lemma ClimbStep(s: State, j: nat)
    requires |s.ws| > 0 && Shape(s.ws[0]) && !s.ws[0].mid && j < |s.ws[0].keys|
    ensures var m := Pick(0, if j < s.ws[0].Half() then RangeScan else Read);
            Enabled(CursorAt(s, j), m) && InBounds(CursorAt(s, j), m)
            && Perform(CursorAt(s, j), m) == CursorAt(s, j + 1)
  {
  }

  /** After half the array in range scans, gets push the query cursor on without a reset. */
  lemma Climbs(existing: seq<Key>, others: seq<Key>, workers: nat, steps: nat)
    requires Prepared(existing, others, workers) && steps <= 2 * (|existing| / workers)
    ensures var s := Initial(existing, others, workers);
            |s.ws| > 0 && Behaviour(existing, others, workers, Climb(s, steps), ClimbMoves(|existing| / workers, steps))
    ensures Shape(Initial(existing, others, workers).ws[0])
    ensures |Initial(existing, others, workers).ws[0].keys| == 2 * (|existing| / workers)
  {
    var s, half := Initial(existing, others, workers), |existing| / workers;
    var ss, ms := Climb(s, steps), ClimbMoves(half, steps);
    SharesNonEmpty(|existing|, workers);
    InitialWorker(existing, others, workers, 0);
    FreshKeyAt(existing, others, workers, 0, 0);
    assert CursorAt(s, 0) == s;
    hide Prepared, Fresh, Initial, CursorAt, Perform;
    forall j {:trigger ms[j]} | 0 <= j < |ms|
      ensures Enabled(ss[j], ms[j]) && InBounds(ss[j], ms[j]) && ss[j + 1] == Perform(ss[j], ms[j])
    {
      ClimbStep(s, j);
    }
  }

  lemma {:induction false} ScansAloneStayInside(existing: seq<Key>, others: seq<Key>, workers: nat, ss: seq<State>,
                                                ms: seq<Move>, ops: set<Op>, k: nat, i: nat)
    requires Prepared(existing, others, workers) && Behaviour(existing, others, workers, ss, ms) && Uses(ms, ops)
    requires Read !in ops && k < |ss| && i < |ss[k].ws|
    ensures ss[k].ws[i].queryI < |ss[k].ws[i].keys|
    decreases k
  {
    if k == 0 {
      InitialWorker(existing, others, workers, i);
    } else {
      var m := ms[k - 1];
      hide Prepared, Initial, Fresh, Behaviour;
      BehaviourStep(existing, others, workers, ss, ms, k - 1);
      ScansAloneStayInside(existing, others, workers, ss, ms, ops, k - 1, i);
    }
  }

  lemma BehaviourStep(existing: seq<Key>, others: seq<Key>, workers: nat, ss: seq<State>, ms: seq<Move>, k: nat)
    requires Behaviour(existing, others, workers, ss, ms) && k < |ms|
    ensures |ss| == |ms| + 1 && Enabled(ss[k], ms[k]) && ss[k + 1] == Perform(ss[k], ms[k])
  {
    var m := ms[k];
  }

  /**
   Range scans read inside query_keys in every run over a set of operations exactly when the set lacks gets or lacks
   range scans: gets reset the query cursor at half the array, range scans only at its end.
   */
  lemma ScansInBoundsExactly(existing: seq<Key>, others: seq<Key>, workers: nat, ops: set<Op>)
    requires Prepared(existing, others, workers)
    ensures ScansInBounds(existing, others, workers, ops) <==> Read !in ops || RangeScan !in ops
  {
    if Read !in ops {
      forall ss: seq<State>, ms: seq<Move>, k: nat, i: nat
        {:trigger Behaviour(existing, others, workers, ss, ms), ss[k].ws[i]}
        | Behaviour(existing, others, workers, ss, ms) && Uses(ms, ops) && k < |ss| && i < |ss[k].ws|
        ensures ss[k].ws[i].queryI < |ss[k].ws[i].keys|
      {
        ScansAloneStayInside(existing, others, workers, ss, ms, ops, k, i);
      }
    } else if RangeScan in ops {
      var s, half := Initial(existing, others, workers), |existing| / workers;
      var ss, ms := Climb(s, 2 * half), ClimbMoves(half, 2 * half);
      Climbs(existing, others, workers, 2 * half);
      hide Initial, Prepared, Behaviour;
      assert Uses(ms, ops);
      assert ss[2 * half].ws[0].queryI == 2 * half == |ss[2 * half].ws[0].keys|;
    }
  }

  /**
   With range scans gets can miss: on every input, half the array in range scans moves the query cursor out of the
   window.
   */
  lemma RangeScanBreaksReads(existing: seq<Key>, others: seq<Key>, workers: nat)
      returns (ss: seq<State>, ms: seq<Move>)
    requires Prepared(existing, others, workers)
    ensures Behaviour(existing, others, workers, ss, ms) && Uses(ms, {RangeScan})
    ensures var s := ss[|ms|];
            |s.ws| > 0 && !s.ws[0].mid && KeyAt(s.ws[0], Around(s.ws[0], s.ws[0].queryI)) !in s.table
  {
    var s0, half := Initial(existing, others, workers), |existing| / workers;
    ss, ms := Climb(s0, half), ClimbMoves(half, half);
    Climbs(existing, others, workers, half);
    var s := ss[|ms|];
    StatesAreOk(existing, others, workers, ss, ms, |ms|);
    var w := s.ws[0];
    assert w.queryI == half && !w.mid;
    assert Shape(w);
    ReadHitsExactly(s, 0, |existing|);
    AroundIsBehind(w, w.queryI);
    WrapOnce(half, |w.keys|);
    assert w.Half() == half;
  }

  // ------------------------------------------------------------------ the loop of one worker

  /** One turn of the loop of worker i: a swap is an insert followed by a remove. */
  function Turn(s: State, i: nat, op: Op): (r: State)
    requires i < |s.ws| && !s.ws[i].mid
    ensures |r.ws| == |s.ws| && !r.ws[i].mid
  {
    var t := Perform(s, Pick(i, op));
    if op.Swap? then Perform(t, Finish(i)) else t
  }

  function Turns(s: State, ops: seq<Op>): (r: State)
    requires |s.ws| == 1 && !s.ws[0].mid
    ensures |r.ws| == 1 && !r.ws[0].mid
  {
    if ops == [] then s else Turn(Turns(s, ops[..|ops| - 1]), 0, ops[|ops| - 1])
  }

  lemma TurnKeepsOk(s: State, i: nat, op: Op, size: nat)
    requires Ok(s, size) && i < |s.ws| && !s.ws[i].mid
    ensures Ok(Turn(s, i, op), size)
  {
    hide Ok;
    MoveKeepsOk(s, Pick(i, op), size);
    if op.Swap? {
      MoveKeepsOk(Perform(s, Pick(i, op)), Finish(i), size);
    }
  }

  /** run_fg with the table to itself. */
  class Runner {
    var table: set<Key>
    const keys: seq<Key>
    var queryI: nat
    var insertI: nat
    var deleteI: nat
    var updateI: nat

    ghost function Seen(): State
      reads this
    {
      State(table, [Mixer(keys, queryI, insertI, deleteI, updateI, false)])
    }

    constructor (existing: seq<Key>, others: seq<Key>)
      requires Prepared(existing, others, 1)
      ensures Seen() == Initial(existing, others, 1)
    {
      var share := Share(existing, 1, 0) + Share(others, 1, 0);
      table := KeySet(existing);
      keys := share;
      queryI, insertI, deleteI, updateI := 0, |share| / 2, 0, 0;
    }

    /**
     The get branch. It reads the key that stands query_i behind the delete cursor, going round, and hits exactly when
     that is inside the window.
     */
    method Get(ghost size: nat) returns (hit: bool, at: nat)
      requires Ok(Seen(), size)
      modifies this`queryI
      ensures Seen() == Turn(old(Seen()), 0, Read)
      ensures deleteI < |keys| && at < |keys| && Behind(Seen().ws[0], at) == old(queryI) % |keys|
      ensures hit <==> keys[at] in table
      ensures hit <==> old(queryI) % |keys| < |keys| / 2
      ensures old(queryI) < |keys| / 2 ==> hit && queryI < |keys| / 2
    {
      assert Shape(Seen().ws[0]);
      AroundIsBehind(Seen().ws[0], queryI);
      ReadHitsExactly(Seen(), 0, size);
      if queryI < |keys| / 2 {
        WrapOnce(queryI, |keys|);
      }
      hide Ok;
      at := (queryI + deleteI) % |keys|;
      hit := keys[at] in table;
      queryI := queryI + 1;
      if queryI == |keys| / 2 { queryI := 0; }
    }

    /** The in-place branch; it always hits, so the insert adds no key. */
    method Update(ghost size: nat) returns (hit: bool, at: nat)
      requires Ok(Seen(), size)
      modifies this`table, this`updateI
      ensures Seen() == Turn(old(Seen()), 0, InPlace)
      ensures deleteI < |keys| && at < |keys| && Behind(Seen().ws[0], at) == old(updateI) && keys[at] in table
      ensures hit && table == old(table)
    {
      assert Shape(Seen().ws[0]);
      AroundIsBehind(Seen().ws[0], updateI);
      WrapOnce(updateI, |keys|);
      UpdateHits(Seen(), 0, size);
      hide Ok;
      at := (updateI + deleteI) % |keys|;
      hit := keys[at] in table;
      table := table + {keys[at]};
      updateI := updateI + 1;
      if updateI == |keys| / 2 { updateI := 0; }
    }

    /** The insert + remove branch. */
    method InsertRemove(ghost size: nat)
      requires Ok(Seen(), size)
      modifies this`table, this`insertI, this`deleteI
      ensures Seen() == Turn(old(Seen()), 0, Swap)
    {
      assert Shape(Seen().ws[0]);
      hide Ok;
      table := table + {keys[insertI]};
      table := table - {keys[deleteI]};
      insertI, deleteI := insertI + 1, deleteI + 1;
      if insertI == |keys| { insertI := 0; }
      if deleteI == |keys| { deleteI := 0; }
    }

    /** The scan branch: it reads query_keys[query_i], so the cursor must stand inside the vector. */
    method RangeQuery(ghost size: nat) returns (start: Key)
      requires Ok(Seen(), size) && queryI < |keys|
      modifies this`queryI
      ensures Seen() == Turn(old(Seen()), 0, RangeScan) && start == keys[old(queryI)]
      ensures queryI < |keys|
    {
      assert Shape(Seen().ws[0]);
      hide Ok;
      start := keys[queryI];
      queryI := queryI + 1;
      if queryI == |keys| { queryI := 0; }
    }

    /**
     The whole loop, up to the first range scan that would read past the vector. A lone worker keeps the table at
     its size, the table is what the turns make of it, without range scans no get and no update misses, and without
     gets or without range scans the loop makes all its turns.
     */
    method RunFg(draws: seq<Op>, ghost size: nat) returns (turns: nat, misses: nat)
      requires Ok(Seen(), size)
      modifies this
      ensures turns <= |draws| && Ok(Seen(), size) && Seen() == Turns(old(Seen()), draws[..turns]) && |table| == size
      ensures turns < |draws| ==> draws[turns] == RangeScan && queryI >= |keys|
      ensures old(queryI) < |keys| / 2 && RangeScan !in draws ==> misses == 0
      ensures old(queryI) < |keys| / 2 && (RangeScan !in draws || Read !in draws) ==> turns == |draws|
    {
      misses := 0;
      turns := 0;
      assert Shape(Seen().ws[0]);
      while turns < |draws|
        invariant turns <= |draws| && |keys| >= 2
        invariant Ok(Seen(), size) && Seen() == Turns(old(Seen()), draws[..turns])
        invariant old(queryI) < |keys| / 2 && RangeScan !in draws ==> misses == 0 && queryI < |keys| / 2
        invariant old(queryI) < |keys| / 2 && Read !in draws ==> queryI < |keys|
      {
        assert draws[..turns + 1][..turns] == draws[..turns];
        assert draws[turns] in draws;
        TurnKeepsOk(Seen(), 0, draws[turns], size);
        hide Ok, Turn;
        var hit, at := true, 0;
        match draws[turns] {
          case Read => hit, at := Get(size);
          case InPlace => hit, at := Update(size);
          case Swap => InsertRemove(size);
          case RangeScan =>
            if queryI >= |keys| {
              break;
            }
            var _ := RangeQuery(size);
        }
        if !hit {
          misses := misses + 1;
        }
        turns := turns + 1;
      }
      assert Mids(Seen().ws) == 0;
    }
  }
}
