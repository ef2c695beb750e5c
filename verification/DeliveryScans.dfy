/**
 What the ten-row scans of delivery and order-status return. The scan has no upper bound, so what follows an order with
 fewer than ten lines is scanned as well: for delivery, which takes the newest order, the first lines of order 1 of the
 next district.
 */
module DeliveryScans {
  import opened Partition
  import opened Tables
  import opened Scans
  import opened Transactions
  import opened Consistency

  predicate LaterDistrict(k: OLKey, w: nat, d: nat) {
    k.w > w || (k.w == w && k.d > d)
  }

  predicate LaterOrder(k: OLKey, ko: OKey) {
    LaterDistrict(k, ko.w, ko.d) || (k.w == ko.w && k.d == ko.d && k.o > ko.o)
  }

  /** A set holding lines i + 1 .. last of an order and otherwise only lines of later orders. */
  ghost predicate LinesThenLater(s: set<OLKey>, ko: OKey, i: nat, last: nat) {
    && (forall k: OLKey :: NewLineKey(k, ko, i, last) ==> k in s)
    && (forall k: OLKey :: k in s ==> NewLineKey(k, ko, i, last) || LaterOrder(k, ko))
  }

  lemma FirstOfLines(s: set<OLKey>, ko: OKey, i: nat, last: nat)
    requires LinesThenLater(s, ko, i, last) && i < last
    ensures s != {} && First(s) == OLKey(ko.w, ko.d, ko.o, i + 1)
    ensures LinesThenLater(s - {First(s)}, ko, i + 1, last)
  {
    var x := OLKey(ko.w, ko.d, ko.o, i + 1);
    assert NewLineKey(x, ko, i, last);
    assert First(s) == x;
    forall k: OLKey | NewLineKey(k, ko, i + 1, last)
      ensures k in s - {x}
    {
      assert NewLineKey(k, ko, i, last);
    }
  }

  lemma {:induction false} SmallestOfLines(s: set<OLKey>, ko: OKey, i: nat, last: nat, n: nat)
    requires LinesThenLater(s, ko, i, last) && i <= last
    ensures var r := Smallest(s, n);
            && |r| >= (if n < last - i then n else last - i)
            && (forall j :: 0 <= j < |r| && j < last - i ==> r[j] == OLKey(ko.w, ko.d, ko.o, i + 1 + j))
            && (forall j :: last - i <= j < |r| ==> LaterOrder(r[j], ko))
    decreases n
  {
    if n != 0 && i < last {
      FirstOfLines(s, ko, i, last);
      SmallestOfLines(s - {First(s)}, ko, i + 1, last, n - 1);
    } else {
      forall j | last - i <= j < |Smallest(s, n)|
        ensures LaterOrder(Smallest(s, n)[j], ko)
      {
        assert Smallest(s, n)[j] in Smallest(s, n);
        assert !NewLineKey(Smallest(s, n)[j], ko, i, last);
      }
    }
  }

  /** The lines of order ko are numbered 1 .. cnt. */
  ghost predicate OwnLinesNumbered(lines: map<OLKey, OLVal>, ko: OKey, cnt: nat) {
    forall k: OLKey :: OKey(k.w, k.d, k.o) == ko ==> (k in lines <==> 1 <= k.n <= cnt)
  }

  /** From line number 0 of an order on, the index has the order's lines and then those of later orders. */
  lemma LinesFromOrder(lines: map<OLKey, OLVal>, ko: OKey, cnt: nat)
    requires OwnLinesNumbered(lines, ko, cnt)
    ensures LinesThenLater(NotBelow(lines, OLKey(ko.w, ko.d, ko.o, 0)), ko, 0, cnt)
  {
    forall k: OLKey | NewLineKey(k, ko, 0, cnt)
      ensures k in NotBelow(lines, OLKey(ko.w, ko.d, ko.o, 0))
    {
      assert OKey(k.w, k.d, k.o) == ko;
    }
    forall k: OLKey | k in NotBelow(lines, OLKey(ko.w, ko.d, ko.o, 0))
      ensures NewLineKey(k, ko, 0, cnt) || LaterOrder(k, ko)
    {
      assert OKey(k.w, k.d, k.o) == ko ==> 1 <= k.n <= cnt;
    }
  }

  /** Rows that are first the lines of ko in number order and then lines of later orders. */
  ghost predicate OrderShape(rows: seq<Line>, ko: OKey, cnt: nat, n: nat) {
    && (if cnt < n then cnt else n) <= |rows| <= n
    && (forall j :: 0 <= j < |rows| && j < cnt ==> rows[j].key == OLKey(ko.w, ko.d, ko.o, j + 1))
    && (forall j :: cnt <= j < |rows| ==> LaterOrder(rows[j].key, ko))
  }

  /** Order 1 of the district whose rows follow those of an order's district in the index. */
  function FirstOfNext(ko: OKey): OKey {
    if ko.d < DISTRICTS then OKey(ko.w, ko.d + 1, 1) else OKey(ko.w + 1, 1, 1)
  }

  predicate HasNext(cfg: Config, w: nat, d: nat) {
    d < DISTRICTS || w < cfg.warehouses
  }

  /**
   The ten rows of a delivery, one by one: the lines of the order with cnt lines in number order and then, if the order
   has fewer than ten and there is a next district, the first lines of order 1 of that district.
   */
  ghost predicate ScanShape(cfg: Config, rows: seq<Line>, ko: OKey, cnt: nat) {
    var kn := FirstOfNext(ko);
    && |rows| == (if cnt >= 10 || HasNext(cfg, ko.w, ko.d) then 10 else cnt)
    && (forall j :: 0 <= j < |rows| && j < cnt ==> rows[j].key == OLKey(ko.w, ko.d, ko.o, j + 1))
    && (forall j :: cnt <= j < |rows| ==> rows[j].key == OLKey(kn.w, kn.d, kn.o, j - cnt + 1))
  }

  lemma ScanFromLines(lines: map<OLKey, OLVal>, ko: OKey, cnt: nat, n: nat)
    requires OwnLinesNumbered(lines, ko, cnt)
    ensures OrderShape(Scan(lines, OLKey(ko.w, ko.d, ko.o, 0), n), ko, cnt, n)
  {
    var lower := OLKey(ko.w, ko.d, ko.o, 0);
    LinesFromOrder(lines, ko, cnt);
    hide NotBelow, Scan, Smallest, LinesThenLater, OwnLinesNumbered;
    SmallestOfLines(NotBelow(lines, lower), ko, 0, cnt, n);
    ScanKeys(lines, lower, n);
  }

  /**
   A scan from an existing order returns its lines 1 .. min(n, O_OL_CNT), in order, and then lines of later orders.
   */
  lemma ScanFromOrder(db: Db, ko: OKey, n: nat)
    requires LinesNumbered(db) && ko in db.order
    ensures OrderShape(Scan(db.orderLine, OLKey(ko.w, ko.d, ko.o, 0), n), ko, db.order[ko].olCnt, n)
  {
    hide OrderShape, Scan;
    ScanFromLines(db.orderLine, ko, db.order[ko].olCnt, n);
  }

  function WithoutLines(s: set<OLKey>, ko: OKey, i: nat, last: nat): set<OLKey> {
    set k | k in s && !NewLineKey(k, ko, i, last)
  }

  /** Past the lines of the order, the scan goes on with the smallest of the rest. */
  lemma {:induction false} SmallestPastLines(s: set<OLKey>, ko: OKey, i: nat, last: nat, n: nat)
    requires LinesThenLater(s, ko, i, last) && i <= last && last - i <= n
    ensures |Smallest(s, n)| >= last - i
    ensures Smallest(s, n)[last - i..] == Smallest(WithoutLines(s, ko, i, last), n - (last - i))
    decreases n
  {
    if i < last {
      FirstOfLines(s, ko, i, last);
      var rest := s - {First(s)};
      SmallestPastLines(rest, ko, i + 1, last, n - 1);
      assert WithoutLines(rest, ko, i + 1, last) == WithoutLines(s, ko, i, last) by {
        assert forall k: OLKey :: NewLineKey(k, ko, i, last) <==> NewLineKey(k, ko, i + 1, last) || k == First(s);
      }
      assert Smallest(s, n) == [First(s)] + Smallest(rest, n - 1);
    } else {
      assert WithoutLines(s, ko, i, last) == s;
    }
  }

  /** The keys left past the lines of an order begin with order 1 of the next district, if there is one. */
  ghost predicate NextFollows(db: Db, ko: OKey, rest: set<OLKey>) {
    var kn := FirstOfNext(ko);
    if HasNext(db.cfg, ko.w, ko.d)
    then kn in db.order && db.order[kn].olCnt >= 5 && LinesThenLater(rest, kn, 0, db.order[kn].olCnt)
    else rest == {}
  }

  lemma BeyondNewest(db: Db, ko: OKey)
    requires Consistent(db) && ko in db.order && ko.o == NewestOid(db.district[DKey(ko.w, ko.d)].nextOid)
    ensures NextFollows(db, ko, WithoutLines(NotBelow(db.orderLine, OLKey(ko.w, ko.d, ko.o, 0)), ko, 0,
                                             db.order[ko].olCnt))
  {
    var cnt, lower, kn := db.order[ko].olCnt, OLKey(ko.w, ko.d, ko.o, 0), FirstOfNext(ko);
    var rest := WithoutLines(NotBelow(db.orderLine, lower), ko, 0, cnt);
    assert DKey(ko.w, ko.d) in db.district && IsDistrict(db.cfg, ko.w, ko.d);
    forall k: OLKey | k in rest
      ensures LaterDistrict(k, ko.w, ko.d) && IsDistrict(db.cfg, k.w, k.d) && k.o >= 1 && k.n >= 1
    {
      assert OKey(k.w, k.d, k.o) in db.order && DKey(k.w, k.d) in db.district;
      assert NewLineKey(k, ko, 0, cnt) <==> OKey(k.w, k.d, k.o) == ko;
    }
    if HasNext(db.cfg, ko.w, ko.d) {
      assert IsDistrict(db.cfg, kn.w, kn.d) && DKey(kn.w, kn.d) in db.district && kn in db.order;
      assert OrderRow(db.order[kn]);
      NextBegins(db, ko, kn, rest);
    } else {
      assert rest == {};
    }
  }

  lemma NextBegins(db: Db, ko: OKey, kn: OKey, rest: set<OLKey>)
    requires LinesNumbered(db) && kn in db.order && kn == FirstOfNext(ko)
    requires 1 <= ko.d <= DISTRICTS && ko in db.order
    requires rest == WithoutLines(NotBelow(db.orderLine, OLKey(ko.w, ko.d, ko.o, 0)), ko, 0, db.order[ko].olCnt)
    requires forall k: OLKey :: k in rest ==>
               LaterDistrict(k, ko.w, ko.d) && IsDistrict(db.cfg, k.w, k.d) && k.o >= 1 && k.n >= 1
    ensures LinesThenLater(rest, kn, 0, db.order[kn].olCnt)
  {
    forall k: OLKey | NewLineKey(k, kn, 0, db.order[kn].olCnt)
      ensures k in rest
    {
      assert OKey(k.w, k.d, k.o) == kn && k in db.orderLine;
    }
    forall k: OLKey | k in rest
      ensures NewLineKey(k, kn, 0, db.order[kn].olCnt) || LaterOrder(k, kn)
    {
      assert k in db.orderLine;
    }
  }

  /** The same ten rows by their keys. */
  ghost predicate KeysShape(cfg: Config, keys: seq<OLKey>, ko: OKey, cnt: nat) {
    var kn := FirstOfNext(ko);
    && |keys| == (if cnt >= 10 || HasNext(cfg, ko.w, ko.d) then 10 else cnt)
    && (forall j :: 0 <= j < |keys| && j < cnt ==> keys[j] == OLKey(ko.w, ko.d, ko.o, j + 1))
    && (forall j :: cnt <= j < |keys| ==> keys[j] == OLKey(kn.w, kn.d, kn.o, j - cnt + 1))
  }

  lemma TenOwnRows(cfg: Config, s: set<OLKey>, ko: OKey, cnt: nat)
    requires LinesThenLater(s, ko, 0, cnt) && cnt >= 10
    ensures KeysShape(cfg, Smallest(s, 10), ko, cnt)
  {
    hide LinesThenLater, HasNext, FirstOfNext, Smallest, LaterOrder;
    SmallestOfLines(s, ko, 0, cnt, 10);
  }

  lemma OnlyOwnRows(cfg: Config, s: set<OLKey>, ko: OKey, cnt: nat)
    requires LinesThenLater(s, ko, 0, cnt) && cnt < 10 && !HasNext(cfg, ko.w, ko.d)
    requires WithoutLines(s, ko, 0, cnt) == {}
    ensures KeysShape(cfg, Smallest(s, 10), ko, cnt)
  {
    hide LinesThenLater, WithoutLines, HasNext;
    SmallestOfLines(s, ko, 0, cnt, 10);
    SmallestPastLines(s, ko, 0, cnt, 10);
    assert Smallest(s, 10)[cnt - 0..] == [];
  }

  /** The rows after the lines of an order with fewer than ten. */
  lemma FurtherRows(cfg: Config, s: set<OLKey>, ko: OKey, cnt: nat, last: nat, n: nat)
    requires LinesThenLater(s, ko, 0, cnt) && 5 <= cnt < 10 && last >= 5 && HasNext(cfg, ko.w, ko.d) && n == 10
    requires LinesThenLater(WithoutLines(s, ko, 0, cnt), FirstOfNext(ko), 0, last)
    ensures KeysShape(cfg, Smallest(s, n), ko, cnt)
  {
    hide *;
    var rest := WithoutLines(s, ko, 0, cnt);
    SmallestPastLines(s, ko, 0, cnt, n);
    OwnKeys(s, ko, cnt, n);
    OwnKeys(rest, FirstOfNext(ko), last, n - cnt);
    JoinRows(cfg, Smallest(s, n), Smallest(rest, n - cnt), ko, cnt, last);
  }

  lemma JoinRows(cfg: Config, keys: seq<OLKey>, tail: seq<OLKey>, ko: OKey, cnt: nat, last: nat)
    requires cnt < 10 && last >= 5 && cnt >= 5 && HasNext(cfg, ko.w, ko.d) && cnt <= |keys| && keys[cnt..] == tail
    requires StartsWithLines(keys, ko, cnt, 10) && StartsWithLines(tail, FirstOfNext(ko), last, 10 - cnt)
    ensures KeysShape(cfg, keys, ko, cnt)
  {
    var kn := FirstOfNext(ko);
    forall j | cnt <= j < |keys|
      ensures keys[j] == OLKey(kn.w, kn.d, kn.o, j - cnt + 1)
    {
      assert keys[j] == tail[j - cnt];
    }
  }

  ghost predicate StartsWithLines(keys: seq<OLKey>, ko: OKey, last: nat, n: nat) {
    && (n <= last ==> |keys| == n)
    && (forall j :: 0 <= j < |keys| && j < last ==> keys[j] == OLKey(ko.w, ko.d, ko.o, j + 1))
  }

  lemma OwnKeys(s: set<OLKey>, ko: OKey, last: nat, n: nat)
    requires LinesThenLater(s, ko, 0, last)
    ensures StartsWithLines(Smallest(s, n), ko, last, n)
  {
    hide LinesThenLater, Smallest, LaterOrder;
    SmallestOfLines(s, ko, 0, last, n);
  }

  lemma DeliveryKeysShape(db: Db, ko: OKey, s: set<OLKey>)
    requires ko in db.order && db.order[ko].olCnt >= 5
    requires LinesThenLater(s, ko, 0, db.order[ko].olCnt)
    requires NextFollows(db, ko, WithoutLines(s, ko, 0, db.order[ko].olCnt))
    ensures KeysShape(db.cfg, Smallest(s, 10), ko, db.order[ko].olCnt)
  {
    hide LinesThenLater, WithoutLines, HasNext, Smallest, KeysShape;
    var cnt, kn := db.order[ko].olCnt, FirstOfNext(ko);
    if cnt >= 10 {
      TenOwnRows(db.cfg, s, ko, cnt);
    } else if HasNext(db.cfg, ko.w, ko.d) {
      FurtherRows(db.cfg, s, ko, cnt, db.order[kn].olCnt, 10);
    } else {
      OnlyOwnRows(db.cfg, s, ko, cnt);
    }
  }

  /**
   Delivery's scan returns first exactly lines 1 .. min(10, O_OL_CNT) of the delivered order, in order; every further
   row is a line of order 1 of the next district, in order as well.
   */
  lemma DeliveryScanShape(db: Db, ko: OKey)
    requires Consistent(db) && ko in db.order && ko.o == NewestOid(db.district[DKey(ko.w, ko.d)].nextOid)
    ensures ScanShape(db.cfg, DeliveryScan(db, ko), ko, db.order[ko].olCnt)
  {
    var lower := OLKey(ko.w, ko.d, ko.o, 0);
    assert OrderRow(db.order[ko]);
    assert OwnLinesNumbered(db.orderLine, ko, db.order[ko].olCnt);
    hide *;
    LinesFromOrder(db.orderLine, ko, db.order[ko].olCnt);
    BeyondNewest(db, ko);
    DeliveryKeysShape(db, ko, NotBelow(db.orderLine, lower));
    RowsShape(db, ko);
  }

  lemma RowsShape(db: Db, ko: OKey)
    requires ko in db.order
    requires KeysShape(db.cfg, Smallest(NotBelow(db.orderLine, OLKey(ko.w, ko.d, ko.o, 0)), 10), ko, db.order[ko].olCnt)
    ensures ScanShape(db.cfg, DeliveryScan(db, ko), ko, db.order[ko].olCnt)
  {
    hide Smallest, NotBelow, Scan, FirstOfNext, HasNext;
    ScanKeys(db.orderLine, OLKey(ko.w, ko.d, ko.o, 0), 10);
  }

  lemma ScanKeys(table: map<OLKey, OLVal>, lower: OLKey, n: nat)
    ensures |Scan(table, lower, n)| == |Smallest(NotBelow(table, lower), n)|
    ensures forall j :: 0 <= j < |Scan(table, lower, n)| ==>
              Scan(table, lower, n)[j].key == Smallest(NotBelow(table, lower), n)[j]
  {
  }

  /** The key order-status scans from: the customer's entry of the side array. */
  function StatusKey(db: Db, w: nat, d: nat, c: nat): OKey {
    OKey(w, d, Row(db.latest, CKey(w, d, c), LOADED_ORDERS))
  }

  /**
   Order-status reads an order of the customer it was asked about exactly when the customer
   has ordered during the run, or happens to own loaded order 3000 of the district.
   */
  lemma OrderStatusReadsOwnOrder(db: Db, w: nat, d: nat, c: nat)
    requires Consistent(db) && Drawn(db.cfg, OrderStatus(w, d, c))
    ensures StatusKey(db, w, d, c) in db.order
    ensures db.order[StatusKey(db, w, d, c)].c == c <==>
              (exists k: OKey :: k in db.order && k.w == w && k.d == d && k.o > LOADED_ORDERS && db.order[k].c == c)
              || db.order[OKey(w, d, LOADED_ORDERS)].c == c
  {
    var kc := CKey(w, d, c);
    assert IsCustomer(db.cfg, kc) && kc in db.latest && DKey(w, d) in db.district;
    assert LatestIsOwn(db.order, kc, db.latest[kc]);
    assert OKey(w, d, LOADED_ORDERS) in db.order;
    if k: OKey :| k in db.order && k.w == w && k.d == d && k.o > LOADED_ORDERS && db.order[k].c == c {
      assert k.o <= db.latest[kc];
    }
  }

  /** An order of the customer that was placed in the run. */
  predicate PlacedBy(order: map<OKey, OVal>, k: OKey, kc: CKey) {
    k in order && k.w == kc.w && k.d == kc.d && order[k].c == kc.c && k.o > LOADED_ORDERS
  }

  /** ko is the newest order the customer has placed in the run, or loaded order 3000 if there is none. */
  ghost predicate IsNewestOf(order: map<OKey, OVal>, ko: OKey, kc: CKey) {
    && ko in order && ko.w == kc.w && ko.d == kc.d
    && (forall k: OKey :: PlacedBy(order, k, kc) ==> k.o <= ko.o)
    && (PlacedBy(order, ko, kc) || (ko.o == LOADED_ORDERS && forall k: OKey :: !PlacedBy(order, k, kc)))
  }

  /** Order-status reads the customer's newest order. */
  lemma OrderStatusReadsNewest(db: Db, w: nat, d: nat, c: nat)
    requires Consistent(db) && Drawn(db.cfg, OrderStatus(w, d, c))
    ensures IsNewestOf(db.order, StatusKey(db, w, d, c), CKey(w, d, c))
  {
    var kc := CKey(w, d, c);
    assert IsCustomer(db.cfg, kc) && kc in db.latest && DKey(w, d) in db.district;
    assert LatestIsOwn(db.order, kc, db.latest[kc]);
    assert OKey(w, d, LOADED_ORDERS) in db.order;
    forall k: OKey | PlacedBy(db.order, k, kc)
      ensures k.o <= db.latest[kc]
    {
    }
    hide Complete, OrderIds, RowsOk, Undelivered, LinesNumbered, PendingIsNewest, LatestIsNewest;
  }

  /** What order-status returns: the lines of the cached order, up to ten, and then lines of later orders. */
  lemma OrderStatusShape(db: Db, w: nat, d: nat, c: nat)
    requires Consistent(db) && Drawn(db.cfg, OrderStatus(w, d, c))
    ensures var ko := StatusKey(db, w, d, c);
            ko in db.order && OrderShape(Scan(db.orderLine, OLKey(w, d, ko.o, 0), 10), ko, db.order[ko].olCnt, 10)
  {
    var ko := StatusKey(db, w, d, c);
    OrderStatusReadsOwnOrder(db, w, d, c);
    hide OrderShape, Scan;
    ScanFromOrder(db, ko, 10);
  }

  /** A line of the last twenty ids of district (w, d) when its counter stands at next, or of a later district. */
  predicate RecentOrLater(k: OLKey, w: nat, d: nat, next: nat) {
    LaterDistrict(k, w, d) || (k.w == w && k.d == d && k.o + 20 >= next)
  }

  /**
   The first 200 of those lines, or all of them, ascending. A line of the last twenty ids is missing only if 200 lines
   with smaller keys are there, and no line of an earlier order is there.
   */
  ghost predicate RecentRows(rows: seq<Line>, lines: map<OLKey, OLVal>, w: nat, d: nat, next: nat) {
    var available := |set k | k in lines && RecentOrLater(k, w, d, next)|;
    && |rows| == (if available < 200 then available else 200)
    && (forall j :: 0 <= j < |rows| ==> rows[j].key in lines && rows[j].val == lines[rows[j].key])
    && (forall j :: 0 <= j < |rows| ==> RecentOrLater(rows[j].key, w, d, next))
    && (forall i, j :: 0 <= i < j < |rows| ==> Less(rows[i].key, rows[j].key))
    && (forall k, j :: k in lines && RecentOrLater(k, w, d, next) && !HasRow(rows, k) && 0 <= j < |rows| ==>
          Less(rows[j].key, k))
  }

  function StockLevelScan(db: Db, w: nat, d: nat): seq<Line> {
    var next := Row(db.district, DKey(w, d), NO_DISTRICT).nextOid;
    Scan(db.orderLine, OLKey(w, d, if next >= 20 then next - 20 else 0, 0), 10 * 20)
  }

  lemma RecentIsFromLower(k: OLKey, w: nat, d: nat, next: nat)
    ensures var lower := OLKey(w, d, if next >= 20 then next - 20 else 0, 0);
            RecentOrLater(k, w, d, next) <==> k == lower || Less(lower, k)
  {
  }

  lemma RecentFromScan(lines: map<OLKey, OLVal>, w: nat, d: nat, next: nat, lower: OLKey, n: nat)
    requires n == 200 && forall k: OLKey :: RecentOrLater(k, w, d, next) <==> k == lower || Less(lower, k)
    ensures RecentRows(Scan(lines, lower, n), lines, w, d, next)
  {
    hide RecentOrLater, Less, Scan;
    ScanIsNextRows(lines, lower, n);
    assert (set k | k in lines && RecentOrLater(k, w, d, next)) == set k | k in lines && (k == lower || Less(lower, k));
  }

  /** Stock-level reads the lines of the last twenty ids of the district, unless 200 lines come before them. */
  lemma StockLevelReadsRecent(db: Db, w: nat, d: nat)
    ensures RecentRows(StockLevelScan(db, w, d), db.orderLine, w, d, Row(db.district, DKey(w, d), NO_DISTRICT).nextOid)
  {
    hide Scan, Smallest, RecentOrLater, Less, RecentRows;
    var next := Row(db.district, DKey(w, d), NO_DISTRICT).nextOid;
    var lower := OLKey(w, d, if next >= 20 then next - 20 else 0, 0);
    forall k: OLKey
      ensures RecentOrLater(k, w, d, next) <==> k == lower || Less(lower, k)
    {
      RecentIsFromLower(k, w, d, next);
    }
    RecentFromScan(db.orderLine, w, d, next, lower, 10 * 20);
  }

  /** The stock rows of the scanned lines exist: every get of stock-level hits. */
  lemma StockLevelHits(db: Db, w: nat, d: nat, threshold: nat, lower: nat)
    requires Consistent(db) && Drawn(db.cfg, StockLevel(w, d, threshold))
    ensures DKey(w, d) in db.district
    ensures forall i :: 0 <= i < |Scan(db.orderLine, OLKey(w, d, lower, 0), 200)| ==>
              SKey(w, Scan(db.orderLine, OLKey(w, d, lower, 0), 200)[i].val.i) in db.stock
  {
    var rows := Scan(db.orderLine, OLKey(w, d, lower, 0), 200);
    forall i | 0 <= i < |rows|
      ensures SKey(w, rows[i].val.i) in db.stock
    {
      assert LineRow(db.cfg, db.orderLine[rows[i].key]);
      assert IsStock(db.cfg, SKey(w, rows[i].val.i));
    }
  }
}
