/**
 The benchmark process: shared tables and side arrays that the five transactions read and
 update in place. Each method computes the function of Transactions of the same step.
 */
module Benchmark {
  import opened Partition
  import opened Tables
  import opened Scans
  import opened Transactions
  import opened Consistency
  import opened DeliveryScans

  /** stock-level counts the scanned lines whose item is below the threshold. */
  function LowLines(stock: map<SKey, SVal>, w: nat, threshold: nat, rows: seq<Line>): nat
    decreases |rows|
  {
    if rows == [] then 0
    else (if Row(stock, SKey(w, rows[0].val.i), NO_STOCK).quantity < threshold then 1 else 0)
         + LowLines(stock, w, threshold, rows[1..])
  }

  /** The scanned lines whose stock row in warehouse w is below the threshold, by their index. */
  ghost function LowIndices(stock: map<SKey, SVal>, w: nat, threshold: nat, rows: seq<Line>): set<nat> {
    set j: nat | j < |rows| && SKey(w, rows[j].val.i) in stock && stock[SKey(w, rows[j].val.i)].quantity < threshold
  }

  lemma {:induction false} LowLinesAreIndices(stock: map<SKey, SVal>, w: nat, threshold: nat, rows: seq<Line>, i: nat)
    requires i <= |rows| && forall j :: 0 <= j < |rows| ==> SKey(w, rows[j].val.i) in stock
    ensures LowLines(stock, w, threshold, rows[i..]) == |set j | j in LowIndices(stock, w, threshold, rows) && j >= i|
    decreases |rows| - i
  {
    var low := set j | j in LowIndices(stock, w, threshold, rows) && j >= i;
    if i == |rows| {
      assert low == {};
    } else {
      LowLinesStep(stock, w, threshold, rows, i);
      LowLinesAreIndices(stock, w, threshold, rows, i + 1);
      var rest := set j | j in LowIndices(stock, w, threshold, rows) && j >= i + 1;
      if stock[SKey(w, rows[i].val.i)].quantity < threshold {
        assert low == rest + {i};
      } else {
        assert low == rest;
      }
    }
  }

  /** stock-level's count is the number of those lines. */
  lemma LowLinesCount(stock: map<SKey, SVal>, w: nat, threshold: nat, rows: seq<Line>)
    requires forall j :: 0 <= j < |rows| ==> SKey(w, rows[j].val.i) in stock
    ensures LowLines(stock, w, threshold, rows) == |LowIndices(stock, w, threshold, rows)|
  {
    LowLinesAreIndices(stock, w, threshold, rows, 0);
    assert rows[0..] == rows;
    assert (set j | j in LowIndices(stock, w, threshold, rows) && j >= 0) == LowIndices(stock, w, threshold, rows);
  }

  lemma DrawnRows(db: Db, w: nat, d: nat, c: nat, items: seq<Item>, n: nat)
    requires Consistent(db) && Drawn(db.cfg, Txn.NewOrder(w, d, c, items)) && n < |items|
    ensures items[n].i in db.item && SKey(items[n].supply, items[n].i) in db.stock
  {
    assert DrawnItem(db.cfg, items[n]);
  }

  lemma CompleteRows(db: Db, w: nat, d: nat, c: nat, items: seq<Item>)
    ensures Consistent(db) && Drawn(db.cfg, Txn.NewOrder(w, d, c, items)) ==>
              w in db.warehouse && DKey(w, d) in db.district && CKey(w, d, c) in db.customer
  {
    if Consistent(db) && Drawn(db.cfg, Txn.NewOrder(w, d, c, items)) {
      assert IsCustomer(db.cfg, CKey(w, d, c));
    }
  }

  lemma OpenOrderSteps(s0: Db, s1: Db, s2: Db, s3: Db, s4: Db, s5: Db, ko: OKey, vd: DVal, vo: OVal, items: seq<Item>)
    requires ko.o == NextOid(s0, ko.w, ko.d) && vd == Row(s0.district, DKey(ko.w, ko.d), NO_DISTRICT).(nextOid := ko.o)
    requires vo == OVal(vo.c, 0, |items|, AllLocal(ko.w, items), Now(s3, ko.w))
    requires s1 == s0.(district := s0.district[DKey(ko.w, ko.d) := vd])
    requires s2 == s1.(newOrder := s1.newOrder + {ko})
    requires s3 == s2.(pending := s2.pending[DKey(ko.w, ko.d) := ko.o],
                       latest := s2.latest[CKey(ko.w, ko.d, vo.c) := ko.o])
    requires s4 == s3.(clock := Tick(s3, ko.w))
    requires s5 == s4.(order := s4.order[ko := vo])
    ensures s5 == OpenOrder(s0, ko.w, ko.d, vo.c, items)
  {
  }

  lemma LowLinesStep(stock: map<SKey, SVal>, w: nat, threshold: nat, rows: seq<Line>, i: nat)
    requires i < |rows|
    ensures LowLines(stock, w, threshold, rows[i..]) == LowLines(stock, w, threshold, rows[i + 1..])
              + if Row(stock, SKey(w, rows[i].val.i), NO_STOCK).quantity < threshold then 1 else 0
  {
    assert rows[i..][0] == rows[i] && rows[i..][1..] == rows[i + 1..];
  }

  lemma LowLinesEnd(stock: map<SKey, SVal>, w: nat, threshold: nat, rows: seq<Line>)
    ensures LowLines(stock, w, threshold, rows[|rows|..]) == 0
  {
  }

  lemma PaymentRows(db: Db, w: nat, d: nat, cw: nat, cd: nat, c: nat, amount: int)
    ensures Complete(db) && Drawn(db.cfg, Txn.Payment(w, d, cw, cd, c, amount)) ==>
              w in db.warehouse && DKey(w, d) in db.district && CKey(cw, cd, c) in db.customer
  {
    if Complete(db) && Drawn(db.cfg, Txn.Payment(w, d, cw, cd, c, amount)) {
      assert IsCustomer(db.cfg, CKey(cw, cd, c));
    }
  }

  lemma ChargeHomeKeepsCustomers(db: Db, w: nat, d: nat, amount: int)
    ensures ChargeHome(db, w, d, amount).customer == db.customer
  {
  }

  lemma StampStep(db: Db, w: nat, rows: seq<Line>, i: nat)
    requires i < |rows|
    ensures StampRows(db, w, rows[i..])
         == StampRows(db.(orderLine := db.orderLine[rows[i].key := rows[i].val.(deliveryD := Now(db, w))],
                          clock := Tick(db, w)), w, rows[i + 1..])
    ensures Total(rows[i..]) == rows[i].val.amount + Total(rows[i + 1..])
  {
    assert rows[i..][0] == rows[i] && rows[i..][1..] == rows[i + 1..];
  }

  lemma StampEnd(db: Db, w: nat, rows: seq<Line>)
    ensures StampRows(db, w, rows[|rows|..]) == db && Total(rows[|rows|..]) == 0
  {
  }

  lemma {:induction false} StampKeepsCustomers(db: Db, w: nat, rows: seq<Line>)
    ensures StampRows(db, w, rows).customer == db.customer
    decreases |rows|
  {
    if rows != [] {
      var stamped := rows[0].val.(deliveryD := Now(db, w));
      StampKeepsCustomers(db.(orderLine := db.orderLine[rows[0].key := stamped], clock := Tick(db, w)), w, rows[1..]);
    }
  }

  lemma DeliveryRows(db: Db, w: nat, d: nat)
    requires Consistent(db)
    ensures var ko := DeliveredKey(db, w, d);
            ko in db.newOrder ==> ko in db.order && CKey(w, d, db.order[ko].c) in db.customer
  {
    var ko := DeliveredKey(db, w, d);
    if ko in db.newOrder {
      assert ko in db.order && DKey(w, d) in db.district;
      assert OrderRow(db.order[ko]);
      assert IsCustomer(db.cfg, CKey(w, d, db.order[ko].c));
    }
  }

  lemma DeliverSteps(s0: Db, s1: Db, s2: Db, s3: Db, s4: Db, ko: OKey, carrier: nat)
    requires ko in s0.order && s1 == s0.(newOrder := s0.newOrder - {ko})
    requires s2 == s1.(order := s1.order[ko := s0.order[ko].(carrier := carrier)])
    requires s3 == StampRows(s2, ko.w, DeliveryScan(s0, ko))
    requires s4 == s3.(customer := CreditCustomer(s3, CKey(ko.w, ko.d, s0.order[ko].c), Total(DeliveryScan(s0, ko))))
    ensures s4 == DeliverOrder(s0, ko, carrier)
  {
    hide StampRows, Total, Scan, CreditCustomer;
  }

  lemma DeliverFromStep(db: Db, w: nat, d: nat, carrier: nat)
    requires d <= DISTRICTS
    ensures var r := DeliverDistrict(db, w, d, carrier);
            DeliverFrom(db, w, d, carrier) == if r.done then DeliverFrom(r.db, w, d + 1, carrier) else r
  {
    hide DeliverDistrict;
  }

  lemma DeliverFromEnd(db: Db, w: nat, carrier: nat)
    ensures DeliverFrom(db, w, DISTRICTS + 1, carrier) == Outcome(db, true)
  {
  }

  lemma OpenOrderKeepsRows(db: Db, w: nat, d: nat, c: nat, items: seq<Item>)
    ensures OpenOrder(db, w, d, c, items).item == db.item && OpenOrder(db, w, d, c, items).stock == db.stock
    ensures OpenOrder(db, w, d, c, items).district
         == db.district[DKey(w, d) := Row(db.district, DKey(w, d), NO_DISTRICT).(nextOid := NextOid(db, w, d))]
  {
  }

  lemma PlaceOrderOpens(db: Db, w: nat, d: nat, c: nat, items: seq<Item>)
    ensures PlaceOrder(db, w, d, c, items)
         == AddLines(OpenOrder(db, w, d, c, items), OKey(w, d, NextOid(db, w, d)), items, 0)
  {
  }

  lemma AddLinesEnd(db: Db, ko: OKey, items: seq<Item>)
    ensures AddLines(db, ko, items, |items|) == Outcome(db, true)
  {
  }

  lemma AddLinesStep(db: Db, ko: OKey, items: seq<Item>, n: nat)
    requires n < |items|
    ensures AddLines(db, ko, items, n) ==
              if items[n].i in db.item then AddLines(AddLine(db, ko, n + 1, items[n]), ko, items, n + 1)
              else Outcome(AbandonOrder(db, ko), false)
  {
  }

  lemma ConsistentIsComplete(db: Db)
    ensures Consistent(db) ==> Complete(db)
  {
  }

  class Tpcc {
    const cfg: Config
    var warehouse: map<nat, WVal>
    var district: map<DKey, DVal>
    var customer: map<CKey, CVal>
    var history: map<HKey, int>
    var item: map<nat, IVal>
    var stock: map<SKey, SVal>
    var order: map<OKey, OVal>
    var newOrder: set<OKey>
    var orderLine: map<OLKey, OLVal>
    var pending: map<DKey, nat>
    var latest: map<CKey, nat>
    var clock: map<nat, nat>

    constructor (db: Db)
      ensures Snapshot() == db
    {
      cfg, warehouse, district, customer := db.cfg, db.warehouse, db.district, db.customer;
      history, item := db.history, db.item;
      stock, order, newOrder, orderLine := db.stock, db.order, db.newOrder, db.orderLine;
      pending, latest, clock := db.pending, db.latest, db.clock;
    }

    function Snapshot(): Db
      reads this
    {
      Db(cfg, warehouse, district, customer, history, item, stock, order, newOrder, orderLine, pending, latest, clock)
    }

    /** GetCurrentTimeMillis: the thread-local counter, then its increment. */
    method CurrentTime(worker: nat, w: nat) returns (ts: nat)
      requires worker == Worker(cfg, w)
      modifies this`clock
      ensures ts == Now(old(Snapshot()), w)
      ensures Snapshot() == old(Snapshot()).(clock := Tick(old(Snapshot()), w))
    {
      ts := Row(clock, worker, FIRST_NEXT);
      clock := clock[worker := ts + 1];
    }

    // The insert and remove calls on the shared tables, and the writes to the side arrays.

    method InsertWarehouse(k: nat, v: WVal)
      modifies this`warehouse
      ensures Snapshot() == old(Snapshot()).(warehouse := old(warehouse)[k := v])
    {
      warehouse := warehouse[k := v];
    }

    method InsertDistrict(k: DKey, v: DVal)
      modifies this`district
      ensures Snapshot() == old(Snapshot()).(district := old(district)[k := v])
    {
      district := district[k := v];
    }

    method InsertCustomer(k: CKey, v: CVal)
      modifies this`customer
      ensures Snapshot() == old(Snapshot()).(customer := old(customer)[k := v])
    {
      customer := customer[k := v];
    }

    method InsertHistory(k: HKey, v: int)
      modifies this`history
      ensures Snapshot() == old(Snapshot()).(history := old(history)[k := v])
    {
      history := history[k := v];
    }

    method InsertStock(k: SKey, v: SVal)
      modifies this`stock
      ensures Snapshot() == old(Snapshot()).(stock := old(stock)[k := v])
    {
      stock := stock[k := v];
    }

    method InsertOrder(k: OKey, v: OVal)
      modifies this`order
      ensures Snapshot() == old(Snapshot()).(order := old(order)[k := v])
    {
      order := order[k := v];
    }

    method InsertNewOrder(k: OKey)
      modifies this`newOrder
      ensures Snapshot() == old(Snapshot()).(newOrder := old(newOrder) + {k})
    {
      newOrder := newOrder + {k};
    }

    method InsertOrderLine(k: OLKey, v: OLVal)
      modifies this`orderLine
      ensures Snapshot() == old(Snapshot()).(orderLine := old(orderLine)[k := v])
    {
      orderLine := orderLine[k := v];
    }

    method RemoveOrder(k: OKey)
      modifies this`order
      ensures Snapshot() == old(Snapshot()).(order := old(order) - {k})
    {
      order := order - {k};
    }

    method RemoveNewOrder(k: OKey)
      modifies this`newOrder
      ensures Snapshot() == old(Snapshot()).(newOrder := old(newOrder) - {k})
    {
      newOrder := newOrder - {k};
    }

    method SetNewest(w: nat, d: nat, c: nat, o: nat)
      modifies this`pending, this`latest
      ensures Snapshot() == old(Snapshot()).(pending := old(pending)[DKey(w, d) := o],
                                             latest := old(latest)[CKey(w, d, c) := o])
    {
      pending := pending[DKey(w, d) := o];
      latest := latest[CKey(w, d, c) := o];
    }

    /** txn_new_order up to the item loop. */
    method OpenNewOrder(worker: nat, w: nat, d: nat, c: nat, items: seq<Item>) returns (vd: DVal, allHit: bool)
      requires worker == Worker(cfg, w)
      modifies this
      ensures Snapshot() == OpenOrder(old(Snapshot()), w, d, c, items)
      ensures vd == Row(old(district), DKey(w, d), NO_DISTRICT).(nextOid := NextOid(old(Snapshot()), w, d))
      ensures allHit == (w in old(warehouse) && DKey(w, d) in old(district) && CKey(w, d, c) in old(customer))
    {
      hide Worker, AllLocal, OpenOrder, Tick, Now;
      ghost var s0 := Snapshot();
      var kd, kc := DKey(w, d), CKey(w, d, c);
      allHit := w in warehouse && kd in district;
      vd := Row(district, kd, NO_DISTRICT);
      vd := vd.(nextOid := vd.nextOid + 1);
      var ko := OKey(w, d, vd.nextOid);
      InsertDistrict(kd, vd);
      ghost var s1 := Snapshot();
      allHit := allHit && kc in customer;
      InsertNewOrder(ko);
      ghost var s2 := Snapshot();
      SetNewest(w, d, c, ko.o);
      ghost var s3 := Snapshot();
      var now := CurrentTime(worker, w);
      ghost var s4 := Snapshot();
      var vo := OVal(c, 0, |items|, AllLocal(w, items), now);
      InsertOrder(ko, vo);
      OpenOrderSteps(s0, s1, s2, s3, s4, Snapshot(), ko, vd, vo, items);
    }

    /** One turn of the item loop, after the item was read. */
    method AddItem(ko: OKey, n: nat, it: Item, price: int) returns (hit: bool)
      requires price == Row(item, it.i, NO_ITEM).price
      modifies this
      ensures Snapshot() == AddLine(old(Snapshot()), ko, n, it)
      ensures hit == (SKey(it.supply, it.i) in old(stock))
    {
      hide Restock;
      var ks := SKey(it.supply, it.i);
      hit := ks in stock;
      var v := Row(stock, ks, NO_STOCK);
      var quantity := Restock(v.quantity, it.qty);
      var remote := if it.supply == ko.w then 0 else 1;
      InsertStock(ks, SVal(quantity, v.ytd + it.qty, v.orderCnt + 1, v.remoteCnt + remote));
      InsertOrderLine(OLKey(ko.w, ko.d, ko.o, n), OLVal(it.i, 0, it.qty * price, it.supply, it.qty));
    }

    /** The abort branch of the item loop. */
    method Abandon(ko: OKey, vd: DVal)
      requires DKey(ko.w, ko.d) in district && district[DKey(ko.w, ko.d)] == vd && vd.nextOid == ko.o
      modifies this
      ensures Snapshot() == AbandonOrder(old(Snapshot()), ko)
    {
      InsertDistrict(DKey(ko.w, ko.d), vd.(nextOid := if vd.nextOid > 0 then vd.nextOid - 1 else 0));
      RemoveNewOrder(ko);
      RemoveOrder(ko);
    }

    /** txn_new_order. allHit collects the results of the gets. */
    method NewOrder(worker: nat, w: nat, d: nat, c: nat, items: seq<Item>) returns (committed: bool, allHit: bool)
      requires worker == Worker(cfg, w)
      modifies this
      ensures Outcome(Snapshot(), committed) == PlaceOrder(old(Snapshot()), w, d, c, items)
      ensures Consistent(old(Snapshot())) && Drawn(cfg, Txn.NewOrder(w, d, c, items)) ==> committed && allHit
    {
      hide Consistent, OpenOrder, AddLines, AddLine, AbandonOrder, PlaceOrder, Drawn, Worker;
      ghost var start := Snapshot();
      ghost var good := Consistent(start) && Drawn(cfg, Txn.NewOrder(w, d, c, items));
      CompleteRows(start, w, d, c, items);
      var vd;
      vd, allHit := OpenNewOrder(worker, w, d, c, items);
      OpenOrderKeepsRows(start, w, d, c, items);
      PlaceOrderOpens(start, w, d, c, items);
      var ko := OKey(w, d, vd.nextOid);
      var n := 0;
      while n < |items|
        invariant 0 <= n <= |items|
        invariant AddLines(Snapshot(), ko, items, n) == PlaceOrder(start, w, d, c, items)
        invariant DKey(w, d) in district && district[DKey(w, d)] == vd
        invariant good ==> allHit && stock.Keys == start.stock.Keys
        invariant item == start.item
      {
        var it := items[n];
        ghost var before := Snapshot();
        AddLinesStep(before, ko, items, n);
        if good { DrawnRows(start, w, d, c, items, n); }
        if it.i !in item {
          Abandon(ko, vd);
          return false, false;
        }
        var price := item[it.i].price;
        var hit := AddItem(ko, n + 1, it, price);
        AddLineTouches(before, ko, n + 1, it);
        allHit := allHit && hit;
        n := n + 1;
      }
      committed := true;
      AddLinesEnd(Snapshot(), ko, items);
    }

    /** The warehouse and district updates of txn_payment. */
    method PayHome(w: nat, d: nat, amount: int) returns (hit: bool)
      modifies this
      ensures Snapshot() == ChargeHome(old(Snapshot()), w, d, amount)
      ensures hit == (w in old(warehouse) && DKey(w, d) in old(district))
    {
      hit := w in warehouse;
      var vw := Row(warehouse, w, NO_WAREHOUSE);
      InsertWarehouse(w, WVal(vw.ytd + amount));
      var kd := DKey(w, d);
      hit := hit && kd in district;
      var vd := Row(district, kd, NO_DISTRICT);
      InsertDistrict(kd, vd.(ytd := vd.ytd + amount));
    }

    /** The customer update of txn_payment. */
    method PayCustomer(kc: CKey, amount: int) returns (hit: bool)
      modifies this
      ensures Snapshot() == ChargeCustomer(old(Snapshot()), kc, amount)
      ensures hit == (kc in old(customer))
    {
      hit := kc in customer;
      var vc := Row(customer, kc, NO_CUSTOMER);
      vc := vc.(balance := vc.balance - amount, ytdPayment := vc.ytdPayment + amount, paymentCnt := vc.paymentCnt + 1);
      InsertCustomer(kc, vc);
    }

    /** txn_payment. */
    method Payment(worker: nat, w: nat, d: nat, cw: nat, cd: nat, c: nat, amount: int) returns (allHit: bool)
      requires worker == Worker(cfg, w)
      modifies this
      ensures Snapshot() == Pay(old(Snapshot()), w, d, cw, cd, c, amount)
      ensures Complete(old(Snapshot())) && Drawn(cfg, Txn.Payment(w, d, cw, cd, c, amount)) ==> allHit
    {
      hide Worker, ChargeHome, ChargeCustomer, Tick, Now, Complete, Drawn;
      PaymentRows(Snapshot(), w, d, cw, cd, c, amount);
      var ts := CurrentTime(worker, w);
      ChargeHomeKeepsCustomers(Snapshot(), w, d, amount);
      allHit := PayHome(w, d, amount);
      var hit := PayCustomer(CKey(cw, cd, c), amount);
      allHit := allHit && hit;
      InsertHistory(HKey(w, d, cw, cd, c, ts), amount);
    }

    /** The row loop of txn_delivery: sums the amounts and stamps the rows. */
    method StampScanned(worker: nat, w: nat, rows: seq<Line>) returns (total: int)
      requires worker == Worker(cfg, w)
      modifies this
      ensures Snapshot() == StampRows(old(Snapshot()), w, rows)
      ensures total == Total(rows)
    {
      hide Worker, Tick, Now, StampRows, Total;
      ghost var s0 := Snapshot();
      total := 0;
      var i := 0;
      assert rows[0..] == rows;
      while i < |rows|
        invariant 0 <= i <= |rows|
        invariant StampRows(Snapshot(), w, rows[i..]) == StampRows(s0, w, rows)
        invariant total + Total(rows[i..]) == Total(rows)
      {
        ghost var s1 := Snapshot();
        StampStep(s1, w, rows, i);
        total := total + rows[i].val.amount;
        var now := CurrentTime(worker, w);
        ghost var s2 := Snapshot();
        InsertOrderLine(rows[i].key, rows[i].val.(deliveryD := now));
        assert Snapshot() == s1.(orderLine := s1.orderLine[rows[i].key := rows[i].val.(deliveryD := Now(s1, w))],
                                 clock := Tick(s1, w));
        i := i + 1;
      }
      StampEnd(Snapshot(), w, rows);
    }

    /** One turn of the district loop of txn_delivery; false where the transaction gives up. */
    method DeliverNewest(worker: nat, w: nat, d: nat, carrier: nat) returns (goOn: bool, hit: bool)
      requires worker == Worker(cfg, w)
      modifies this
      ensures Outcome(Snapshot(), goOn) == DeliverDistrict(old(Snapshot()), w, d, carrier)
      ensures Consistent(old(Snapshot())) ==> goOn && hit
    {
      hide Worker, Scan, Total, StampRows, Consistent;
      ghost var s0 := Snapshot();
      if Consistent(s0) { DeliveryRows(s0, w, d); }
      var ko := OKey(w, d, Row(pending, DKey(w, d), 0));
      if ko !in newOrder { return true, true; }
      if ko !in order { return false, false; }
      var vo := order[ko];
      RemoveNewOrder(ko);
      ghost var s1 := Snapshot();
      InsertOrder(ko, vo.(carrier := carrier));
      ghost var s2 := Snapshot();
      var rows := Scan(orderLine, OLKey(w, d, ko.o, 0), 10);
      var total := StampScanned(worker, w, rows);
      ghost var s3 := Snapshot();
      StampKeepsCustomers(s2, w, rows);
      var kc := CKey(w, d, vo.c);
      hit := kc in customer;
      var vc := Row(customer, kc, NO_CUSTOMER);
      InsertCustomer(kc, vc.(balance := vc.balance + total, deliveryCnt := vc.deliveryCnt + 1));
      goOn := true;
      DeliverSteps(s0, s1, s2, s3, Snapshot(), ko, carrier);
    }

    /** txn_delivery. */
    method Delivery(worker: nat, w: nat, carrier: nat) returns (finished: bool, allHit: bool)
      requires worker == Worker(cfg, w)
      modifies this
      ensures Outcome(Snapshot(), finished) == DeliverFrom(old(Snapshot()), w, 1, carrier)
      ensures Consistent(old(Snapshot())) && 1 <= carrier <= DISTRICTS ==> finished && allHit
    {
      hide Worker, DeliverDistrict, DeliverFrom, Consistent;
      ghost var s0 := Snapshot();
      var d := 1;
      allHit := true;
      while d <= DISTRICTS
        invariant 1 <= d <= DISTRICTS + 1
        invariant DeliverFrom(Snapshot(), w, d, carrier) == DeliverFrom(s0, w, 1, carrier)
        invariant Consistent(s0) && 1 <= carrier <= DISTRICTS ==> Consistent(Snapshot()) && allHit
      {
        ghost var s1 := Snapshot();
        DeliverFromStep(s1, w, d, carrier);
        if Consistent(s1) && 1 <= carrier <= DISTRICTS { DeliverDistrictKeepsConsistent(s1, w, d, carrier); }
        var goOn, hit := DeliverNewest(worker, w, d, carrier);
        allHit := allHit && hit;
        if !goOn { return false, false; }
        d := d + 1;
      }
      DeliverFromEnd(Snapshot(), w, carrier);
      finished := true;
    }

    /**
     txn_order_status. It returns at most ten rows; from a consistent database these are lines 1, 2, .. of the newest
     order of the customer, in number order and as stored, followed only by lines of later orders.
     */
    method OrderStatus(w: nat, d: nat, c: nat) returns (rows: seq<Line>)
      ensures rows == Scan(orderLine, OLKey(w, d, StatusKey(Snapshot(), w, d, c).o, 0), 10)
      ensures |rows| <= 10
      ensures forall j :: 0 <= j < |rows| ==> rows[j].key in orderLine && orderLine[rows[j].key] == rows[j].val
      ensures Consistent(Snapshot()) && Drawn(cfg, Txn.OrderStatus(w, d, c)) ==>
                exists ko: OKey :: IsNewestOf(order, ko, CKey(w, d, c)) && OrderShape(rows, ko, order[ko].olCnt, 10)
    {
      hide Consistent, Drawn, OrderShape, Scan, IsNewestOf;
      var newest := Row(latest, CKey(w, d, c), LOADED_ORDERS);
      rows := Scan(orderLine, OLKey(w, d, newest, 0), 10);
      if Consistent(Snapshot()) && Drawn(cfg, Txn.OrderStatus(w, d, c)) {
        OrderStatusShape(Snapshot(), w, d, c);
        OrderStatusReadsNewest(Snapshot(), w, d, c);
        assert IsNewestOf(order, StatusKey(Snapshot(), w, d, c), CKey(w, d, c));
      }
    }

    /** The row loop of txn_stock_level. */
    method CountLow(w: nat, threshold: nat, rows: seq<Line>) returns (low: nat, allHit: bool)
      ensures low == LowLines(stock, w, threshold, rows)
      ensures allHit <==> forall i :: 0 <= i < |rows| ==> SKey(w, rows[i].val.i) in stock
    {
      hide LowLines;
      low, allHit := 0, true;
      var i := 0;
      assert rows[0..] == rows;
      while i < |rows|
        invariant 0 <= i <= |rows|
        invariant low + LowLines(stock, w, threshold, rows[i..]) == LowLines(stock, w, threshold, rows)
        invariant allHit <==> forall j :: 0 <= j < i ==> SKey(w, rows[j].val.i) in stock
      {
        var ks := SKey(w, rows[i].val.i);
        allHit := allHit && ks in stock;
        if Row(stock, ks, NO_STOCK).quantity < threshold {
          low := low + 1;
        }
        LowLinesStep(stock, w, threshold, rows, i);
        i := i + 1;
      }
      LowLinesEnd(stock, w, threshold, rows);
    }

    /**
     txn_stock_level: how many of the scanned lines are short of stock. The lines are those of the last twenty order ids
     of the district on, 200 at most.
     */
    method StockLevel(w: nat, d: nat, threshold: nat) returns (low: nat, allHit: bool)
      ensures low == LowLines(stock, w, threshold, StockLevelScan(Snapshot(), w, d))
      ensures Consistent(Snapshot()) && Drawn(cfg, Txn.StockLevel(w, d, threshold)) ==>
                allHit && DKey(w, d) in district &&
                exists rows :: RecentRows(rows, orderLine, w, d, district[DKey(w, d)].nextOid)
                               && low == |LowIndices(stock, w, threshold, rows)|
    {
      hide Consistent, Drawn, Scan, LowLines, RecentRows, LowIndices;
      var hit := DKey(w, d) in district;
      var next := Row(district, DKey(w, d), NO_DISTRICT).nextOid;
      var lower := if next >= 20 then next - 20 else 0;
      var rows := Scan(orderLine, OLKey(w, d, lower, 0), 10 * 20);
      low, allHit := CountLow(w, threshold, rows);
      allHit := allHit && hit;
      if Consistent(Snapshot()) && Drawn(cfg, Txn.StockLevel(w, d, threshold)) {
        StockLevelHits(Snapshot(), w, d, threshold, lower);
        StockLevelReadsRecent(Snapshot(), w, d);
        LowLinesCount(stock, w, threshold, rows);
      }
    }

    /**
     A schedule of atomic transactions, each run by the owner of its warehouse; from a consistent database every get
     of the whole run hits.
     */
    method RunAll(ts: seq<Txn>) returns (allHit: bool)
      modifies this
      ensures Snapshot() == Run(old(Snapshot()), ts)
      ensures Consistent(old(Snapshot())) && (forall i :: 0 <= i < |ts| ==> Drawn(cfg, ts[i])) ==> allHit
    {
      hide PlaceOrder, Pay, DeliverFrom, Worker, Consistent, Complete, Drawn;
      ghost var s0 := Snapshot();
      ghost var good := Consistent(s0) && forall i :: 0 <= i < |ts| ==> Drawn(cfg, ts[i]);
      var i := 0;
      allHit := true;
      assert ts[0..] == ts;
      while i < |ts|
        invariant 0 <= i <= |ts|
        invariant Run(Snapshot(), ts[i..]) == Run(s0, ts)
        invariant good ==> Consistent(Snapshot()) && allHit
      {
        var t := ts[i];
        assert ts[i..][0] == t && ts[i..][1..] == ts[i + 1..];
        ghost var s1 := Snapshot();
        assert Run(s1, ts[i..]) == Run(Execute(s1, t).db, ts[i + 1..]);
        if good {
          ExecuteKeepsConsistent(s1, t);
        }
        var hit := RunOne(t);
        allHit := allHit && hit;
        i := i + 1;
      }
    }

    /** One transaction; hit collects the results of its gets. */
    method RunOne(t: Txn) returns (hit: bool)
      modifies this
      ensures Snapshot() == Execute(old(Snapshot()), t).db
      ensures Consistent(old(Snapshot())) && Drawn(cfg, t) ==> hit
    {
      hide PlaceOrder, Pay, DeliverFrom, Worker, Consistent, Complete;
      var worker := Worker(cfg, t.w);
      assert Consistent(Snapshot()) ==> Complete(Snapshot()) by { ConsistentIsComplete(Snapshot()); }
      match t {
        case NewOrder(w, d, c, items) =>
          var done;
          done, hit := NewOrder(worker, w, d, c, items);
        case Payment(w, d, cw, cd, c, amount) => hit := Payment(worker, w, d, cw, cd, c, amount);
        case Delivery(w, carrier) =>
          var done;
          done, hit := Delivery(worker, w, carrier);
        case OrderStatus(w, d, c) =>
          var rows := OrderStatus(w, d, c);
          hit := true;
        case StockLevel(w, d, threshold) =>
          var low;
          low, hit := StockLevel(w, d, threshold);
      }
    }
  }
}
