/**
 What a delivery adds up and dates. The ten-row scan misses the lines of an order past the tenth, and the further rows
 of a short order are lines of an order that was loaded as delivered, whose amounts are 0 and which have a date. So
 the total is that of the first ten lines, and clause 3.3.2.7 fails exactly of the longer orders.
 */
module DeliveryTotals {
  import opened MapSum
  import opened Partition
  import opened Tables
  import opened Scans
  import opened Transactions
  import opened Consistency
  import opened CustomerLaws
  import opened DeliveryScans
  import opened Deliveries
  import opened Clauses

  function OrderOf(k: OLKey): OKey {
    OKey(k.w, k.d, k.o)
  }

  predicate AmountOk(k: OLKey, v: OLVal) {
    if k.o < FIRST_OPEN then v.amount == 0 else v.amount >= 1
  }

  /** Lines loaded as delivered amount to 0, all others to at least 1. */
  ghost predicate AmountsOk(db: Db) {
    && (forall k: OLKey :: k in db.orderLine ==> AmountOk(k, db.orderLine[k]))
    && (forall i: nat :: i in db.item ==> db.item[i].price >= 1)
  }

  /** No clock ever shows 0, the null date. */
  ghost predicate ClocksOk(db: Db) {
    forall i: nat :: i in db.clock ==> db.clock[i] >= FIRST_NEXT
  }

  predicate DateOk(order: map<OKey, OVal>, k: OLKey, v: OLVal) {
    v.deliveryD != 0 <==>
      OrderOf(k) in order && order[OrderOf(k)].carrier != 0 && (k.o < FIRST_OPEN || k.n <= 10)
  }

  /**
   A line has a date exactly when its order has a carrier, unless it is past the tenth of an order the run delivered.
   */
  ghost predicate DatesOk(db: Db) {
    forall k: OLKey :: k in db.orderLine ==> DateOk(db.order, k, db.orderLine[k])
  }

  ghost predicate LinesOk(db: Db) {
    AmountsOk(db) && ClocksOk(db) && DatesOk(db)
  }

  // ------------------------------------------------------------------ the total

  /** OL_AMOUNT of lines i + 1 .. last of an order. */
  ghost function Amounts(lines: map<OLKey, OLVal>, ko: OKey, i: nat, last: nat): map<OLKey, int> {
    map x | x in lines && NewLineKey(x, ko, i, last) :: lines[x].amount
  }

  function AtMostTen(n: nat): nat {
    if n < 10 then n else 10
  }

  lemma {:induction false} NothingToAdd(rows: seq<Line>)
    requires forall j :: 0 <= j < |rows| ==> rows[j].val.amount == 0
    ensures Total(rows) == 0
    decreases |rows|
  {
    if rows != [] {
      NothingToAdd(rows[1..]);
    }
  }

  lemma FirstAmount(lines: map<OLKey, OLVal>, ko: OKey, i: nat, last: nat)
    requires OLKey(ko.w, ko.d, ko.o, i + 1) in lines && i < last
    ensures Sum(Amounts(lines, ko, i, last))
         == lines[OLKey(ko.w, ko.d, ko.o, i + 1)].amount + Sum(Amounts(lines, ko, i + 1, last))
  {
    var x := OLKey(ko.w, ko.d, ko.o, i + 1);
    assert Amounts(lines, ko, i, last) - {x} == Amounts(lines, ko, i + 1, last);
    SumRemove(Amounts(lines, ko, i, last), x);
  }

  /** Rows that hold lines of one order first and otherwise amount to nothing. */
  ghost predicate OwnAmounts(lines: map<OLKey, OLVal>, rows: seq<Line>, ko: OKey, last: nat) {
    && last <= |rows|
    && (forall j :: 0 <= j < last ==>
          rows[j].key == OLKey(ko.w, ko.d, ko.o, j + 1) && rows[j].key in lines && rows[j].val == lines[rows[j].key])
    && (forall j :: last <= j < |rows| ==> rows[j].val.amount == 0)
  }

  lemma {:induction false} TotalFrom(lines: map<OLKey, OLVal>, rows: seq<Line>, ko: OKey, i: nat, last: nat)
    requires OwnAmounts(lines, rows, ko, last) && i <= last
    ensures Total(rows[i..]) == Sum(Amounts(lines, ko, i, last))
    decreases last - i
  {
    if i == last {
      forall j | 0 <= j < |rows[i..]|
        ensures rows[i..][j].val.amount == 0
      {
        assert rows[i..][j] == rows[i + j];
      }
      NothingToAdd(rows[i..]);
      assert Amounts(lines, ko, i, last) == map[];
    } else {
      assert rows[i..][1..] == rows[i + 1..] && rows[i].key == OLKey(ko.w, ko.d, ko.o, i + 1);
      FirstAmount(lines, ko, i, last);
      TotalFrom(lines, rows, ko, i + 1, last);
    }
  }

  lemma ScannedAmounts(db: Db, rows: seq<Line>, ko: OKey, cnt: nat)
    requires AmountsOk(db) && ScanShape(db.cfg, rows, ko, cnt)
    requires forall j :: 0 <= j < |rows| ==> rows[j].key in db.orderLine && rows[j].val == db.orderLine[rows[j].key]
    ensures OwnAmounts(db.orderLine, rows, ko, AtMostTen(cnt))
  {
    forall j | AtMostTen(cnt) <= j < |rows|
      ensures rows[j].val.amount == 0
    {
      assert AmountOk(rows[j].key, db.orderLine[rows[j].key]);
    }
  }

  lemma AmountsToTen(db: Db, ko: OKey)
    requires LinesNumbered(db) && ko in db.order
    ensures Amounts(db.orderLine, ko, 0, AtMostTen(db.order[ko].olCnt)) == Amounts(db.orderLine, ko, 0, 10)
  {
    forall k: OLKey | k in db.orderLine
      ensures NewLineKey(k, ko, 0, AtMostTen(db.order[ko].olCnt)) <==> NewLineKey(k, ko, 0, 10)
    {
      assert OrderOf(k) in db.order;
    }
  }

  /** The ol_total of a delivery is the sum of the order's lines 1 .. 10. */
  lemma DeliveryTotal(db: Db, ko: OKey)
    requires Consistent(db) && AmountsOk(db)
    requires ko in db.order && ko.o == NewestOid(db.district[DKey(ko.w, ko.d)].nextOid)
    ensures Total(DeliveryScan(db, ko)) == Sum(Amounts(db.orderLine, ko, 0, 10))
  {
    var rows, cnt := DeliveryScan(db, ko), db.order[ko].olCnt;
    DeliveryScanShape(db, ko);
    AmountsToTen(db, ko);
    hide Consistent, AmountsOk, Amounts, Scan, ScanShape, Total, AtMostTen;
    ScannedAmounts(db, rows, ko, cnt);
    TotalFrom(db.orderLine, rows, ko, 0, AtMostTen(cnt));
    assert rows[0..] == rows;
  }

  lemma TenAndTheRest(lines: map<OLKey, OLVal>, ko: OKey, last: nat)
    requires last > 10 && forall n: nat :: 10 < n <= last ==> OLKey(ko.w, ko.d, ko.o, n) in lines
    requires forall k: OLKey :: k in lines && NewLineKey(k, ko, 0, last) ==> lines[k].amount >= 1
    ensures Sum(Amounts(lines, ko, 0, 10)) < Sum(Amounts(lines, ko, 0, last))
  {
    var first, rest := Amounts(lines, ko, 0, 10), Amounts(lines, ko, 10, last);
    assert Amounts(lines, ko, 0, last) == first + rest;
    assert OLKey(ko.w, ko.d, ko.o, 11) in rest;
    SumUnion(first, rest);
    SumAtLeastSize(rest);
  }

  /** It is the sum of all lines of the order exactly when the order has at most ten. */
  lemma WholeTotalExactly(db: Db, ko: OKey)
    requires Consistent(db) && AmountsOk(db)
    requires ko in db.order && ko.o == NewestOid(db.district[DKey(ko.w, ko.d)].nextOid)
    ensures Total(DeliveryScan(db, ko)) == Sum(Amounts(db.orderLine, ko, 0, db.order[ko].olCnt))
       <==> db.order[ko].olCnt <= 10
  {
    var cnt := db.order[ko].olCnt;
    assert DKey(ko.w, ko.d) in db.district;
    hide Total, Scan;
    DeliveryTotal(db, ko);
    if cnt <= 10 {
      assert Amounts(db.orderLine, ko, 0, cnt) == Amounts(db.orderLine, ko, 0, 10);
    } else {
      forall k: OLKey | k in db.orderLine && NewLineKey(k, ko, 0, cnt)
        ensures db.orderLine[k].amount >= 1
      {
        assert AmountOk(k, db.orderLine[k]);
      }
      TenAndTheRest(db.orderLine, ko, cnt);
    }
  }

  // ------------------------------------------------------------------ the dates

  /** Clause 3.3.2.7 of one order: a line lacks a date exactly when the order lacks a carrier. */
  ghost predicate DatesClause(db: Db, ko: OKey) {
    ko in db.order && forall n: nat :: OLKey(ko.w, ko.d, ko.o, n) in db.orderLine ==>
      (db.orderLine[OLKey(ko.w, ko.d, ko.o, n)].deliveryD == 0 <==> db.order[ko].carrier == 0)
  }

  /**
   Clause 3.3.2.7 holds of an order exactly when it is undelivered, was loaded as delivered, or has at most ten lines.
   */
  lemma DatesClauseExactly(db: Db, ko: OKey)
    requires Consistent(db) && DatesOk(db) && ko in db.order
    ensures DatesClause(db, ko) <==> db.order[ko].carrier == 0 || ko.o < FIRST_OPEN || db.order[ko].olCnt <= 10
  {
    forall n: nat | OLKey(ko.w, ko.d, ko.o, n) in db.orderLine
      ensures DateOk(db.order, OLKey(ko.w, ko.d, ko.o, n), db.orderLine[OLKey(ko.w, ko.d, ko.o, n)])
      ensures OrderOf(OLKey(ko.w, ko.d, ko.o, n)) == ko && n <= db.order[ko].olCnt
    {
    }
    if db.order[ko].olCnt > 10 {
      assert OrderOf(OLKey(ko.w, ko.d, ko.o, 11)) == ko && OLKey(ko.w, ko.d, ko.o, 11) in db.orderLine;
    }
  }

  // ------------------------------------------------------------------ what a delivery stamps

  predicate Scanned(rows: seq<Line>, k: OLKey) {
    exists j :: 0 <= j < |rows| && rows[j].key == k
  }

  lemma {:induction false} StampRowsDates(db: Db, w: nat, rows: seq<Line>)
    requires Complete(db) && ClocksOk(db) && 1 <= w <= db.cfg.warehouses
    ensures ClocksOk(StampRows(db, w, rows))
    ensures forall k: OLKey :: Scanned(rows, k) ==>
              k in StampRows(db, w, rows).orderLine && StampRows(db, w, rows).orderLine[k].deliveryD != 0
    ensures forall k: OLKey :: k in db.orderLine && !Scanned(rows, k) ==>
              k in StampRows(db, w, rows).orderLine && StampRows(db, w, rows).orderLine[k] == db.orderLine[k]
    decreases |rows|
  {
    if rows != [] {
      var stamped := rows[0].val.(deliveryD := Now(db, w));
      var next := db.(orderLine := db.orderLine[rows[0].key := stamped], clock := Tick(db, w));
      OwnerIsUnique(db.cfg, w);
      assert Owns(db.cfg, Owner(db.cfg, w), w);
      assert next.clock.Keys == db.clock.Keys;
      StampRowsDates(next, w, rows[1..]);
      assert forall k: OLKey :: Scanned(rows, k) <==> k == rows[0].key || Scanned(rows[1..], k);
    }
  }

  /** What a delivery does to the dates, given the rows it scanned. */
  ghost predicate Dated(old_: map<OLKey, OLVal>, new_: map<OLKey, OLVal>, rows: seq<Line>) {
    && new_.Keys == old_.Keys
    && (forall k: OLKey :: k in old_ && Scanned(rows, k) ==> new_[k].deliveryD != 0)
    && (forall k: OLKey :: k in old_ && !Scanned(rows, k) ==> new_[k] == old_[k])
  }

  lemma DeliverOrderDates(db: Db, ko: OKey, carrier: nat)
    requires Complete(db) && ClocksOk(db) && 1 <= ko.w <= db.cfg.warehouses && ko in db.newOrder && ko in db.order
    ensures ClocksOk(DeliverOrder(db, ko, carrier))
    ensures Dated(db.orderLine, DeliverOrder(db, ko, carrier).orderLine, DeliveryScan(db, ko))
  {
    MarkKeepsKeys(db, ko, carrier);
    DeliverOrderEffect(db, ko, carrier);
    hide Complete, Scan, Total, StampRows, CreditCustomer, Scanned;
    StampRowsDates(MarkDelivered(db, ko, carrier), ko.w, DeliveryScan(db, ko));
  }

  lemma ScannedRows(cfg: Config, rows: seq<Line>, ko: OKey, cnt: nat, k: OLKey)
    requires ScanShape(cfg, rows, ko, cnt) && cnt >= 5
    ensures OrderOf(k) == ko && 1 <= k.n <= cnt ==> (Scanned(rows, k) <==> k.n <= 10)
    ensures OrderOf(k) != ko && Scanned(rows, k) ==> k.o == 1
  {
    if OrderOf(k) == ko && 1 <= k.n <= cnt && k.n <= 10 {
      assert rows[k.n - 1].key == k;
    }
  }

  /** A delivery gives a date to the first ten lines of its order, and otherwise to lines that have one. */
  lemma DeliveryKeepsDates(db: Db, r: Db, ko: OKey, carrier: nat, rows: seq<Line>)
    requires LinesNumbered(db) && Undelivered(db) && BacklogStays(db) && DatesOk(db) && ko in db.order
    requires carrier != 0 && ko.o >= FIRST_OPEN && db.order[ko].olCnt >= 5 && db.order[ko].carrier == 0
    requires ScanShape(db.cfg, rows, ko, db.order[ko].olCnt)
    requires r.order == db.order[ko := db.order[ko].(carrier := carrier)] && Dated(db.orderLine, r.orderLine, rows)
    ensures DatesOk(r)
  {
    forall k: OLKey | k in r.orderLine
      ensures DateOk(r.order, k, r.orderLine[k])
    {
      assert DateOk(db.order, k, db.orderLine[k]);
      assert OrderOf(k) in db.order && 1 <= k.n <= db.order[OrderOf(k)].olCnt;
      hide ScanShape;
      ScannedRows(db.cfg, rows, ko, db.order[ko].olCnt, k);
    }
  }

  lemma StampKeepsAmounts(db: Db, r: Db)
    requires AmountsOk(db) && OnlyStamped(db.orderLine, r.orderLine) && r.item == db.item
    ensures AmountsOk(r)
  {
    forall k: OLKey | k in r.orderLine
      ensures AmountOk(k, r.orderLine[k])
    {
      assert AmountOk(k, db.orderLine[k]);
    }
  }

  lemma DeliverDistrictKeepsLines(db: Db, w: nat, d: nat, carrier: nat)
    requires Consistent(db) && BacklogStays(db) && LinesOk(db) && 1 <= carrier <= DISTRICTS
    ensures LinesOk(DeliverDistrict(db, w, d, carrier).db)
  {
    var ko := DeliveredKey(db, w, d);
    if ko in db.newOrder {
      DeliveredIsOpen(db, w, d);
      assert OrderRow(db.order[ko]);
      var r := DeliverOrder(db, ko, carrier);
      DeliveryScanShape(db, ko);
      hide RowsOk, OrderIds, PendingIsNewest, LatestIsNewest, DeliverOrder, Scan, ScanShape, DatesOk, AmountsOk,
           ClocksOk, OnlyStamped, BacklogStays, LinesNumbered, Undelivered;
      DeliverOrderEffect(db, ko, carrier);
      hide Total, CreditCustomer;
      DeliverOrderDates(db, ko, carrier);
      hide Complete;
      StampKeepsAmounts(db, r);
      DeliveryKeepsDates(db, r, ko, carrier, DeliveryScan(db, ko));
    }
  }

  lemma {:induction false} DeliverFromKeepsLines(db: Db, w: nat, d: nat, carrier: nat)
    requires Consistent(db) && BacklogStays(db) && LinesOk(db) && 1 <= carrier <= DISTRICTS
    ensures LinesOk(DeliverFrom(db, w, d, carrier).db)
    decreases DISTRICTS + 1 - d
  {
    hide Consistent, BacklogStays, LinesOk, DeliverDistrict;
    if d <= DISTRICTS {
      DeliverDistrictKeepsConsistent(db, w, d, carrier);
      DeliverDistrictKeepsBacklog(db, w, d, carrier);
      DeliverDistrictKeepsLines(db, w, d, carrier);
      DeliverFromKeepsLines(DeliverDistrict(db, w, d, carrier).db, w, d + 1, carrier);
    }
  }

  lemma {:induction false} TurnKeepsLines(db: Db, w: nat, d: nat, carrier: nat)
    requires Consistent(db) && BacklogStays(db) && LinesOk(db) && 1 <= carrier <= DISTRICTS && 1 <= d <= DISTRICTS
    ensures LinesOk(Turned(db, w, d, carrier)) && BacklogStays(Turned(db, w, d, carrier))
    decreases d
  {
    hide Consistent, BacklogStays, LinesOk, DeliverDistrict;
    if d > 1 {
      TurnKeepsLines(db, w, d - 1, carrier);
      LoopTurns(db, w, d - 1, carrier);
      DeliverDistrictKeepsLines(Turned(db, w, d - 1, carrier), w, d - 1, carrier);
      DeliverDistrictKeepsBacklog(Turned(db, w, d - 1, carrier), w, d - 1, carrier);
    }
  }

  /** The total in the database in which a delivery turns to district d and takes order ko there. */
  lemma TurnTotal(db: Db, w: nat, d: nat, carrier: nat)
    requires Consistent(db) && BacklogStays(db) && LinesOk(db) && 1 <= carrier <= DISTRICTS && 1 <= d <= DISTRICTS
    requires var mid := Turned(db, w, d, carrier); DeliveredKey(mid, w, d) in mid.newOrder
    ensures var mid := Turned(db, w, d, carrier);
            var ko := DeliveredKey(mid, w, d);
            && ko in mid.order
            && Total(DeliveryScan(mid, ko)) == Sum(Amounts(mid.orderLine, ko, 0, 10))
            && (Total(DeliveryScan(mid, ko)) == Sum(Amounts(mid.orderLine, ko, 0, mid.order[ko].olCnt))
                <==> mid.order[ko].olCnt <= 10)
  {
    var mid := Turned(db, w, d, carrier);
    LoopTurns(db, w, d, carrier);
    TurnKeepsLines(db, w, d, carrier);
    hide Turned, Total, Scan, Amounts, Consistent, AmountsOk;
    DeliveredIsOpen(mid, w, d);
    DeliveryTotal(mid, DeliveredKey(mid, w, d));
    WholeTotalExactly(mid, DeliveredKey(mid, w, d));
  }

  // ------------------------------------------------------------------ every transaction

  lemma NewOrderKeepsDates(db: Db, r: Db, ko: OKey, c: nat, items: seq<Item>)
    requires LinesNumbered(db) && DatesOk(db) && ko !in db.order && NewOrderEffect(db, r, ko, c, items)
    ensures DatesOk(r)
  {
    forall k: OLKey | k in r.orderLine
      ensures DateOk(r.order, k, r.orderLine[k])
    {
      if k in db.orderLine {
        assert DateOk(db.order, k, db.orderLine[k]) && OrderOf(k) in db.order;
      } else {
        assert NewLineKey(k, ko, 0, |items|) && OrderOf(k) == ko;
      }
    }
  }

  lemma Priced(v: OLVal, it: Item, price: int)
    requires IsLineOf(v, it, price) && it.qty >= 1 && price >= 1
    ensures v.amount >= 1
  {
    assert it.qty * price >= 1 by {
      assert it.qty * price - price == (it.qty - 1) * price;
      assert (it.qty - 1) * price >= 0;
    }
  }

  lemma NewOrderKeepsAmounts(db: Db, r: Db, ko: OKey, c: nat, items: seq<Item>)
    requires Complete(db) && AmountsOk(db) && ko.o >= FIRST_OPEN && NewOrderEffect(db, r, ko, c, items)
    requires forall j :: 0 <= j < |items| ==> DrawnItem(db.cfg, items[j])
    ensures AmountsOk(r)
  {
    hide IsLineOf;
    forall k: OLKey | k in r.orderLine
      ensures AmountOk(k, r.orderLine[k])
    {
      if k in db.orderLine {
        assert AmountOk(k, db.orderLine[k]);
      } else {
        var it := items[k.n - 1];
        assert DrawnItem(db.cfg, it) && it.i in db.item;
        Priced(r.orderLine[k], it, db.item[it.i].price);
      }
    }
  }

  lemma TickKeepsClocks(db: Db, r: Db, w: nat)
    requires ClocksOk(db) && r.clock == Tick(db, w)
    ensures ClocksOk(r)
  {
  }

  lemma PlaceOrderKeepsLines(db: Db, w: nat, d: nat, c: nat, items: seq<Item>)
    requires Consistent(db) && LinesOk(db) && Drawn(db.cfg, NewOrder(w, d, c, items))
    ensures LinesOk(PlaceOrder(db, w, d, c, items).db)
  {
    var ko, r := OKey(w, d, NextOid(db, w, d)), PlaceOrder(db, w, d, c, items).db;
    NewOrderIsFresh(db, w, d);
    assert DKey(w, d) in db.district && ko.o > FIRST_NEXT;
    hide PlaceOrder, DatesOk, AmountsOk, OrderIds, RowsOk, Undelivered, LinesNumbered, PendingIsNewest, LatestIsNewest,
         ClocksOk, Complete, IsLineOf, AllLocal;
    NewOrderCommits(db, w, d, c, items);
    assert ClocksOk(r) by { TickKeepsClocks(db, r, w); }
    NewOrderKeepsDates(db, r, ko, c, items);
    NewOrderKeepsAmounts(db, r, ko, c, items);
  }

  lemma ExecuteKeepsLines(db: Db, t: Txn)
    requires Consistent(db) && BacklogStays(db) && LinesOk(db) && Drawn(db.cfg, t)
    ensures LinesOk(Execute(db, t).db)
  {
    hide Consistent, BacklogStays, PlaceOrder, DeliverFrom;
    match t
    case NewOrder(w, d, c, items) => PlaceOrderKeepsLines(db, w, d, c, items);
    case Payment(w, d, cw, cd, c, amount) =>
    case Delivery(w, carrier) => DeliverFromKeepsLines(db, w, 1, carrier);
    case OrderStatus(w, d, c) =>
    case StockLevel(w, d, threshold) =>
  }

  // ------------------------------------------------------------------ the next order of a district

  lemma NextTotal(db: Db, w: nat, d: nat, carrier: nat, ko: OKey, vo: OVal)
    requires Consistent(db) && BacklogStays(db) && LinesOk(db) && 1 <= carrier <= DISTRICTS && 1 <= d <= DISTRICTS
    requires IsNext(db, w, d, ko, vo)
    ensures var mid := Turned(db, w, d, carrier);
            && ko == DeliveredKey(mid, w, d) && ko in mid.newOrder
            && (Total(DeliveryScan(mid, ko)) == Sum(Amounts(mid.orderLine, ko, 0, vo.olCnt)) <==> vo.olCnt <= 10)
  {
    hide Turned, Total, Scan, Amounts, Consistent, BacklogStays, LinesOk;
    TurnKeepsNext(db, w, d, carrier, d, ko, vo);
    TurnTotal(db, w, d, carrier);
  }

  lemma NextDates(db: Db, w: nat, d: nat, carrier: nat, ko: OKey, vo: OVal)
    requires Consistent(db) && BacklogStays(db) && LinesOk(db) && 1 <= carrier <= DISTRICTS && 1 <= d <= DISTRICTS
    requires IsNext(db, w, d, ko, vo) && ko.o >= FIRST_OPEN
    ensures DatesClause(DeliverFrom(db, w, 1, carrier).db, ko) <==> vo.olCnt <= 10
  {
    hide DeliverFrom, Consistent, BacklogStays, DatesClause, AmountsOk, ClocksOk, DatesOk, IsNext;
    DeliverFromKeepsConsistent(db, w, 1, carrier);
    DeliverFromKeepsLines(db, w, 1, carrier);
    DeliveryDelivers(db, w, d, carrier, ko, vo);
    DatesClauseExactly(DeliverFrom(db, w, 1, carrier).db, ko);
  }
}
