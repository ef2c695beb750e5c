/**
 Consistency of the order tables and the side arrays, and its preservation by every
 transaction (clauses 3.3.2.5 and 3.3.2.6 of TPC-C among others).
 */
module Consistency {
  import opened Partition
  import opened Tables
  import opened Scans
  import opened Transactions

  /** Every row a transaction can ask for is loaded. */
  ghost predicate Complete(db: Db) {
    && db.cfg.Ok()
    && (forall w: nat :: w in db.warehouse <==> 1 <= w <= db.cfg.warehouses)
    && (forall k: DKey :: k in db.district <==> IsDistrict(db.cfg, k.w, k.d))
    && (forall k: CKey :: k in db.customer <==> IsCustomer(db.cfg, k))
    && (forall i: nat :: i in db.item <==> 1 <= i <= ITEMS)
    && (forall k: SKey :: k in db.stock <==> IsStock(db.cfg, k))
    && db.pending.Keys == db.district.Keys
    && db.latest.Keys == db.customer.Keys
    && (forall i: nat :: i in db.clock <==> i < db.cfg.workers)
  }

  predicate OrderRow(v: OVal) {
    1 <= v.c <= CUSTOMERS && v.carrier <= DISTRICTS && 5 <= v.olCnt <= 15
  }

  predicate LineRow(cfg: Config, v: OLVal) {
    1 <= v.i <= ITEMS && 1 <= v.supply <= cfg.warehouses && 1 <= v.qty <= 10
  }

  /** Each district holds exactly the ids {1..3000} and {3002..D_NEXT_O_ID}. */
  ghost predicate OrderIds(db: Db) {
    && (forall k: DKey :: k in db.district ==> FIRST_NEXT <= db.district[k].nextOid)
    && (forall k: OKey :: k in db.order <==>
          DKey(k.w, k.d) in db.district && Allocated(k.o, db.district[DKey(k.w, k.d)].nextOid))
  }

  ghost predicate RowsOk(db: Db) {
    && (forall k: OKey :: k in db.order ==> OrderRow(db.order[k]))
    && (forall k: OLKey :: k in db.orderLine ==> LineRow(db.cfg, db.orderLine[k]))
  }

  /** Clause 3.3.2.5: O_CARRIER_ID is null exactly when the NEW-ORDER row exists. */
  ghost predicate Undelivered(db: Db) {
    forall k: OKey :: k in db.newOrder <==> k in db.order && db.order[k].carrier == 0
  }

  /** Clause 3.3.2.6: the lines of an order are numbered 1 .. O_OL_CNT without gaps. */
  ghost predicate LinesNumbered(db: Db) {
    forall k: OLKey :: k in db.orderLine <==>
      OKey(k.w, k.d, k.o) in db.order && 1 <= k.n <= db.order[OKey(k.w, k.d, k.o)].olCnt
  }

  /** pending_new_order_per_dis is the district's largest order id. */
  ghost predicate PendingIsNewest(db: Db) {
    forall k: DKey :: k in db.district ==> k in db.pending && db.pending[k] == NewestOid(db.district[k].nextOid)
  }

  predicate LatestIsOwn(order: map<OKey, OVal>, k: CKey, o: nat) {
    o == LOADED_ORDERS ||
    (o > LOADED_ORDERS && OKey(k.w, k.d, o) in order && order[OKey(k.w, k.d, o)].c == k.c)
  }

  /** latest_order_id_per_customer is the customer's largest id above 3000, or 3000. */
  ghost predicate LatestIsNewest(db: Db) {
    && (forall k: CKey :: k in db.latest ==> LatestIsOwn(db.order, k, db.latest[k]))
    && (forall k: OKey :: k in db.order && k.o > LOADED_ORDERS ==>
          CKey(k.w, k.d, db.order[k].c) in db.latest && k.o <= db.latest[CKey(k.w, k.d, db.order[k].c)])
  }

  ghost predicate Consistent(db: Db) {
    && Complete(db) && OrderIds(db) && RowsOk(db) && Undelivered(db)
    && LinesNumbered(db) && PendingIsNewest(db) && LatestIsNewest(db)
  }

  // ------------------------------------------------------------------ new order

  /** The keys the item loop adds from items[n] on. */
  predicate NewLineKey(k: OLKey, ko: OKey, n: nat, last: nat) {
    k.w == ko.w && k.d == ko.d && k.o == ko.o && n < k.n <= last
  }

  predicate ItemsFrom(db: Db, items: seq<Item>, n: nat) {
    forall j :: n <= j < |items| ==> items[j].i in db.item && SKey(items[j].supply, items[j].i) in db.stock
  }

  lemma AddLineTouches(db: Db, ko: OKey, n: nat, it: Item)
    ensures var r := AddLine(db, ko, n, it);
            r == db.(stock := r.stock, orderLine := r.orderLine)
            && r.orderLine.Keys == db.orderLine.Keys + {OLKey(ko.w, ko.d, ko.o, n)}
            && r.stock.Keys == db.stock.Keys + {SKey(it.supply, it.i)}
  {
  }

  /** The item loop commits, writes only STOCK and ORDER-LINE, and inserts exactly its lines. */
  lemma {:induction false} AddLinesTouches(db: Db, ko: OKey, items: seq<Item>, n: nat)
    requires n <= |items| && ItemsFrom(db, items, n)
    ensures AddLines(db, ko, items, n).done
    ensures var r := AddLines(db, ko, items, n).db;
            r == db.(stock := r.stock, orderLine := r.orderLine) && r.stock.Keys == db.stock.Keys
    ensures var r := AddLines(db, ko, items, n).db;
            forall k: OLKey :: k in r.orderLine <==> k in db.orderLine || NewLineKey(k, ko, n, |items|)
    decreases |items| - n
  {
    if n < |items| {
      var next := AddLine(db, ko, n + 1, items[n]);
      AddLineTouches(db, ko, n + 1, items[n]);
      assert next.stock.Keys == db.stock.Keys;
      AddLinesTouches(next, ko, items, n + 1);
      var r := AddLines(db, ko, items, n).db;
      assert r == AddLines(next, ko, items, n + 1).db;
      forall k: OLKey
        ensures k in r.orderLine <==> k in db.orderLine || NewLineKey(k, ko, n, |items|)
      {
        assert k in next.orderLine <==> k in db.orderLine || k == OLKey(ko.w, ko.d, ko.o, n + 1);
      }
    }
  }

  /** The row of an item in an order that is not delivered: its amount is the quantity times the price. */
  predicate IsLineOf(v: OLVal, it: Item, price: int) {
    v.i == it.i && v.supply == it.supply && v.qty == it.qty && v.deliveryD == 0 && v.amount == it.qty * price
  }

  /** Old lines keep their row; line j + 1 gets the row of items[j], priced from ITEM. */
  lemma {:induction false} AddLinesRows(db: Db, ko: OKey, items: seq<Item>, n: nat)
    requires n <= |items| && ItemsFrom(db, items, n)
    requires forall k: OLKey :: k in db.orderLine ==> !NewLineKey(k, ko, n, |items|)
    ensures var r := AddLines(db, ko, items, n).db;
            forall k: OLKey :: k in db.orderLine ==> k in r.orderLine && r.orderLine[k] == db.orderLine[k]
    ensures var r := AddLines(db, ko, items, n).db;
            forall k: OLKey :: NewLineKey(k, ko, n, |items|) ==>
              k in r.orderLine
              && IsLineOf(r.orderLine[k], items[k.n - 1], Row(db.item, items[k.n - 1].i, NO_ITEM).price)
    decreases |items| - n
  {
    if n < |items| {
      var next := AddLine(db, ko, n + 1, items[n]);
      AddLineTouches(db, ko, n + 1, items[n]);
      assert next.stock.Keys == db.stock.Keys;
      forall k: OLKey | k in next.orderLine
        ensures !NewLineKey(k, ko, n + 1, |items|)
      {
        assert k in db.orderLine || k == OLKey(ko.w, ko.d, ko.o, n + 1);
      }
      AddLinesRows(next, ko, items, n + 1);
      var r := AddLines(db, ko, items, n).db;
      assert r == AddLines(next, ko, items, n + 1).db;
      forall k: OLKey | NewLineKey(k, ko, n, |items|)
        ensures k in r.orderLine
        ensures IsLineOf(r.orderLine[k], items[k.n - 1], Row(db.item, items[k.n - 1].i, NO_ITEM).price)
      {
        if k.n != n + 1 {
          assert NewLineKey(k, ko, n + 1, |items|);
        } else {
          assert k == OLKey(ko.w, ko.d, ko.o, n + 1);
          assert k in next.orderLine;
        }
      }
    }
  }

  /** Tables and side arrays but for STOCK and ORDER-LINE: as before, or those the abort branch leaves. */
  ghost predicate LoopLeaves(db: Db, ko: OKey, r: Outcome) {
    && r.db.pending == db.pending && r.db.latest == db.latest
    && (!r.done ==> r.db.district == AbandonOrder(db, ko).district && r.db.newOrder == db.newOrder - {ko}
                    && r.db.order == db.order - {ko})
  }

  lemma AddLineKeepsOrders(db: Db, ko: OKey, n: nat, it: Item, r: Outcome)
    requires LoopLeaves(AddLine(db, ko, n, it), ko, r)
    ensures LoopLeaves(db, ko, r)
  {
  }

  lemma AddLineKeepsItems(db: Db, ko: OKey, n: nat, it: Item)
    ensures AddLine(db, ko, n, it).item == db.item
  {
  }

  lemma {:induction false} AddLinesAbort(db: Db, ko: OKey, items: seq<Item>, n: nat)
    requires n <= |items|
    ensures AddLines(db, ko, items, n).done <==> forall j :: n <= j < |items| ==> items[j].i in db.item
    ensures LoopLeaves(db, ko, AddLines(db, ko, items, n))
    decreases |items| - n
  {
    if n < |items| && items[n].i in db.item {
      var next := AddLine(db, ko, n + 1, items[n]);
      AddLineKeepsItems(db, ko, n + 1, items[n]);
      hide AddLine, LoopLeaves;
      AddLinesAbort(next, ko, items, n + 1);
      AddLineKeepsOrders(db, ko, n + 1, items[n], AddLines(next, ko, items, n + 1));
    }
  }

  /**
   On any database in which the id is unused: a new order commits exactly when all its items are loaded, and an abort
   undoes the counter and both inserts. The side arrays keep naming the order that is gone.
   */
  lemma AbortUndoes(db: Db, w: nat, d: nat, c: nat, items: seq<Item>)
    requires DKey(w, d) in db.district
    requires OKey(w, d, NextOid(db, w, d)) !in db.order && OKey(w, d, NextOid(db, w, d)) !in db.newOrder
    ensures PlaceOrder(db, w, d, c, items).done <==> forall j :: 0 <= j < |items| ==> items[j].i in db.item
    ensures var r := PlaceOrder(db, w, d, c, items);
            && (!r.done ==> r.db.district == db.district && r.db.order == db.order && r.db.newOrder == db.newOrder)
            && r.db.pending == db.pending[DKey(w, d) := NextOid(db, w, d)]
            && r.db.latest == db.latest[CKey(w, d, c) := NextOid(db, w, d)]
  {
    var ko, mid := OKey(w, d, NextOid(db, w, d)), OpenOrder(db, w, d, c, items);
    AddLinesAbort(mid, ko, items, 0);
    assert AbandonOrder(mid, ko).district == db.district;
    hide AddLines, AllLocal;
  }

  /** The id of a new order is unused in ORDER, NEW-ORDER and ORDER-LINE. */
  lemma NewOrderIsFresh(db: Db, w: nat, d: nat)
    requires Consistent(db) && IsDistrict(db.cfg, w, d)
    ensures OKey(w, d, NextOid(db, w, d)) !in db.order && OKey(w, d, NextOid(db, w, d)) !in db.newOrder
    ensures forall k: OLKey :: k in db.orderLine ==> !NewLineKey(k, OKey(w, d, NextOid(db, w, d)), 0, 15)
  {
    var ko := OKey(w, d, NextOid(db, w, d));
    assert DKey(w, d) in db.district;
    assert ko !in db.order;
    forall k: OLKey | k in db.orderLine
      ensures !NewLineKey(k, ko, 0, 15)
    {
      assert OKey(k.w, k.d, k.o) in db.order;
    }
  }

  function CountedUp(db: Db, ko: OKey): map<DKey, DVal> {
    var kd := DKey(ko.w, ko.d);
    db.district[kd := Row(db.district, kd, NO_DISTRICT).(nextOid := ko.o)]
  }

  /** What a committed new order changes; the values of STOCK are in StockLaws. */
  ghost predicate NewOrderEffect(db: Db, r: Db, ko: OKey, c: nat, items: seq<Item>) {
    && r == db.(district := CountedUp(db, ko),
                newOrder := db.newOrder + {ko},
                pending := db.pending[DKey(ko.w, ko.d) := ko.o],
                latest := db.latest[CKey(ko.w, ko.d, c) := ko.o],
                order := db.order[ko := OVal(c, 0, |items|, AllLocal(ko.w, items), Now(db, ko.w))],
                clock := Tick(db, ko.w),
                stock := r.stock, orderLine := r.orderLine)
    && r.stock.Keys == db.stock.Keys
    && (forall k: OLKey :: k in r.orderLine <==> k in db.orderLine || NewLineKey(k, ko, 0, |items|))
    && (forall k: OLKey :: k in db.orderLine ==> r.orderLine[k] == db.orderLine[k])
    && (forall k: OLKey :: NewLineKey(k, ko, 0, |items|) ==>
          IsLineOf(r.orderLine[k], items[k.n - 1], Row(db.item, items[k.n - 1].i, NO_ITEM).price))
  }

  /** A new order always commits: the abort branch is unreachable from a consistent database. */
  lemma NewOrderCommits(db: Db, w: nat, d: nat, c: nat, items: seq<Item>)
    requires Consistent(db) && Drawn(db.cfg, NewOrder(w, d, c, items))
    ensures PlaceOrder(db, w, d, c, items).done
    ensures NewOrderEffect(db, PlaceOrder(db, w, d, c, items).db, OKey(w, d, NextOid(db, w, d)), c, items)
  {
    var ko := OKey(w, d, NextOid(db, w, d));
    var mid := OpenOrder(db, w, d, c, items);
    forall j | 0 <= j < |items|
      ensures items[j].i in mid.item && SKey(items[j].supply, items[j].i) in mid.stock
    {
      assert DrawnItem(db.cfg, items[j]);
    }
    NewOrderIsFresh(db, w, d);
    AddLinesTouches(mid, ko, items, 0);
    AddLinesRows(mid, ko, items, 0);
  }

  lemma NewOrderKeepsKeys(db: Db, r: Db, ko: OKey, c: nat, items: seq<Item>)
    requires Consistent(db) && IsDistrict(db.cfg, ko.w, ko.d) && 1 <= c <= CUSTOMERS
    requires NewOrderEffect(db, r, ko, c, items)
    ensures Complete(r)
  {
    hide OrderIds, RowsOk, Undelivered, LinesNumbered, PendingIsNewest, LatestIsNewest, IsLineOf, AllLocal;
    OwnerIsUnique(db.cfg, ko.w);
    assert Owns(db.cfg, Owner(db.cfg, ko.w), ko.w);
    assert IsCustomer(db.cfg, CKey(ko.w, ko.d, c));
    assert DKey(ko.w, ko.d) in db.district;
    assert r.clock.Keys == db.clock.Keys;
  }

  /** Counting up by one allocates exactly one id. */
  lemma CountingAllocatesOne(db: Db, r: Db, ko: OKey, vd: DVal)
    requires OrderIds(db) && DKey(ko.w, ko.d) in db.district && ko.o == db.district[DKey(ko.w, ko.d)].nextOid + 1
    requires vd.nextOid == ko.o && r.district == db.district[DKey(ko.w, ko.d) := vd]
    requires r.order.Keys == db.order.Keys + {ko}
    ensures OrderIds(r)
  {
    forall k: OKey
      ensures k in r.order <==> DKey(k.w, k.d) in r.district && Allocated(k.o, r.district[DKey(k.w, k.d)].nextOid)
    {
      assert k in r.order <==> k in db.order || k == ko;
      if DKey(k.w, k.d) == DKey(ko.w, ko.d) {
        assert Allocated(k.o, ko.o) <==> Allocated(k.o, ko.o - 1) || k.o == ko.o;
      }
    }
  }

  lemma NewOrderKeepsIds(db: Db, r: Db, ko: OKey, c: nat, items: seq<Item>)
    requires Consistent(db) && IsDistrict(db.cfg, ko.w, ko.d) && 1 <= c <= CUSTOMERS
    requires ko.o == NextOid(db, ko.w, ko.d)
    requires NewOrderEffect(db, r, ko, c, items)
    ensures OrderIds(r)
  {
    assert DKey(ko.w, ko.d) in db.district;
    hide Complete, OrderIds, RowsOk, Undelivered, LinesNumbered, PendingIsNewest, LatestIsNewest, IsLineOf, AllLocal;
    assert r.order.Keys == db.order.Keys + {ko};
    CountingAllocatesOne(db, r, ko, r.district[DKey(ko.w, ko.d)]);
  }

  lemma NewOrderKeepsOpen(db: Db, r: Db, ko: OKey, c: nat, items: seq<Item>)
    requires Consistent(db) && IsDistrict(db.cfg, ko.w, ko.d) && ko.o == NextOid(db, ko.w, ko.d)
    requires NewOrderEffect(db, r, ko, c, items)
    ensures Undelivered(r) && PendingIsNewest(r)
  {
    assert DKey(ko.w, ko.d) in db.district;
    hide Complete, RowsOk, LinesNumbered, LatestIsNewest, IsLineOf, AllLocal;
  }

  lemma NewLinesAreRows(db: Db, r: Db, ko: OKey, c: nat, items: seq<Item>)
    requires RowsOk(db) && Drawn(db.cfg, NewOrder(ko.w, ko.d, c, items)) && NewOrderEffect(db, r, ko, c, items)
    ensures RowsOk(r)
  {
    hide AllLocal;
    forall k: OLKey | k in r.orderLine
      ensures LineRow(r.cfg, r.orderLine[k])
    {
      if k !in db.orderLine {
        assert DrawnItem(db.cfg, items[k.n - 1]);
      }
    }
  }

  /** A fresh order with lines 1 .. n keeps the lines of every order numbered. */
  lemma FreshOrderIsNumbered(db: Db, r: Db, ko: OKey, v: OVal)
    requires LinesNumbered(db) && ko !in db.order && r.order == db.order[ko := v]
    requires forall k: OLKey :: k in r.orderLine <==> k in db.orderLine || NewLineKey(k, ko, 0, v.olCnt)
    ensures LinesNumbered(r)
  {
    forall k: OLKey
      ensures k in r.orderLine <==>
        OKey(k.w, k.d, k.o) in r.order && 1 <= k.n <= r.order[OKey(k.w, k.d, k.o)].olCnt
    {
      if OKey(k.w, k.d, k.o) == ko {
        assert k !in db.orderLine;
        assert NewLineKey(k, ko, 0, v.olCnt) <==> 1 <= k.n <= v.olCnt;
      } else {
        assert !NewLineKey(k, ko, 0, v.olCnt);
      }
    }
  }

  lemma NewOrderKeepsLines(db: Db, r: Db, ko: OKey, c: nat, items: seq<Item>)
    requires Consistent(db) && Drawn(db.cfg, NewOrder(ko.w, ko.d, c, items))
    requires ko.o == NextOid(db, ko.w, ko.d)
    requires NewOrderEffect(db, r, ko, c, items)
    ensures RowsOk(r) && LinesNumbered(r)
  {
    NewOrderIsFresh(db, ko.w, ko.d);
    hide Complete, OrderIds, RowsOk, Undelivered, LinesNumbered, PendingIsNewest, LatestIsNewest, IsLineOf, AllLocal;
    NewLinesAreRows(db, r, ko, c, items);
    FreshOrderIsNumbered(db, r, ko, r.order[ko]);
  }

  /** An order with the largest id of its district becomes its customer's latest. */
  lemma NewestBecomesLatest(db: Db, r: Db, ko: OKey, v: OVal)
    requires LatestIsNewest(db) && CKey(ko.w, ko.d, v.c) in db.latest
    requires ko !in db.order && ko.o > LOADED_ORDERS
    requires forall k: OKey :: k in db.order && k.w == ko.w && k.d == ko.d ==> k.o < ko.o
    requires r.order == db.order[ko := v] && r.latest == db.latest[CKey(ko.w, ko.d, v.c) := ko.o]
    ensures LatestIsNewest(r)
  {
    forall k: CKey | k in r.latest
      ensures LatestIsOwn(r.order, k, r.latest[k])
    {
      if k != CKey(ko.w, ko.d, v.c) {
        assert LatestIsOwn(db.order, k, db.latest[k]);
      }
    }
  }

  lemma NewOrderKeepsLatest(db: Db, r: Db, ko: OKey, c: nat, items: seq<Item>)
    requires Consistent(db) && IsDistrict(db.cfg, ko.w, ko.d) && 1 <= c <= CUSTOMERS
    requires ko.o == NextOid(db, ko.w, ko.d)
    requires NewOrderEffect(db, r, ko, c, items)
    ensures LatestIsNewest(r)
  {
    NewOrderIsFresh(db, ko.w, ko.d);
    assert DKey(ko.w, ko.d) in db.district;
    assert IsCustomer(db.cfg, CKey(ko.w, ko.d, c)) && CKey(ko.w, ko.d, c) in db.latest;
    hide Complete, RowsOk, Undelivered, LinesNumbered, PendingIsNewest, LatestIsNewest, IsLineOf, AllLocal;
    NewestBecomesLatest(db, r, ko, r.order[ko]);
  }

  lemma NewOrderKeepsConsistent(db: Db, w: nat, d: nat, c: nat, items: seq<Item>)
    requires Consistent(db) && Drawn(db.cfg, NewOrder(w, d, c, items))
    ensures Consistent(PlaceOrder(db, w, d, c, items).db)
  {
    var ko := OKey(w, d, NextOid(db, w, d));
    var r := PlaceOrder(db, w, d, c, items).db;
    NewOrderCommits(db, w, d, c, items);
    NewOrderKeepsKeys(db, r, ko, c, items);
    NewOrderKeepsIds(db, r, ko, c, items);
    NewOrderKeepsOpen(db, r, ko, c, items);
    NewOrderKeepsLines(db, r, ko, c, items);
    NewOrderKeepsLatest(db, r, ko, c, items);
  }

  // ------------------------------------------------------------------ payment

  /** A payment leaves the order tables, their counters and the side arrays alone. */
  ghost predicate PaymentEffect(db: Db, r: Db) {
    && r == db.(warehouse := r.warehouse, district := r.district, customer := r.customer,
                history := r.history, clock := r.clock)
    && r.warehouse.Keys == db.warehouse.Keys && r.district.Keys == db.district.Keys
    && r.customer.Keys == db.customer.Keys && r.clock.Keys == db.clock.Keys
    && (forall k: DKey :: k in db.district ==> r.district[k].nextOid == db.district[k].nextOid)
  }

  lemma PayEffect(db: Db, w: nat, d: nat, cw: nat, cd: nat, c: nat, amount: int)
    requires Complete(db) && Drawn(db.cfg, Payment(w, d, cw, cd, c, amount))
    ensures PaymentEffect(db, Pay(db, w, d, cw, cd, c, amount))
  {
    OwnerIsUnique(db.cfg, w);
    assert Owns(db.cfg, Owner(db.cfg, w), w);
    assert IsCustomer(db.cfg, CKey(cw, cd, c));
    assert DKey(w, d) in db.district;
  }

  lemma PaymentKeepsKeys(db: Db, r: Db)
    requires Complete(db) && PaymentEffect(db, r)
    ensures Complete(r)
  {
  }

  lemma PaymentKeepsOrders(db: Db, r: Db)
    requires OrderIds(db) && PendingIsNewest(db) && PaymentEffect(db, r)
    ensures OrderIds(r) && PendingIsNewest(r)
  {
  }

  lemma PayKeepsConsistent(db: Db, r: Db)
    requires Consistent(db) && PaymentEffect(db, r)
    ensures Consistent(r)
  {
    hide Complete, OrderIds, PendingIsNewest;
    PaymentKeepsKeys(db, r);
    PaymentKeepsOrders(db, r);
  }

  // ------------------------------------------------------------------ delivery

  /** A delivery rewrites rows that exist, and nothing of them but the delivery date. */
  ghost predicate OnlyStamped(old_: map<OLKey, OLVal>, new_: map<OLKey, OLVal>) {
    new_.Keys == old_.Keys &&
    forall k: OLKey :: k in old_ ==> new_[k] == old_[k].(deliveryD := new_[k].deliveryD)
  }

  ghost predicate Stampable(table: map<OLKey, OLVal>, row: Line) {
    row.key in table && row.val == table[row.key].(deliveryD := row.val.deliveryD)
  }

  lemma {:induction false} StampRowsTouches(db: Db, w: nat, rows: seq<Line>)
    requires Complete(db) && 1 <= w <= db.cfg.warehouses
    requires forall i :: 0 <= i < |rows| ==> Stampable(db.orderLine, rows[i])
    ensures var r := StampRows(db, w, rows);
            r == db.(orderLine := r.orderLine, clock := r.clock)
            && r.clock.Keys == db.clock.Keys && OnlyStamped(db.orderLine, r.orderLine)
            && (forall i :: i in db.clock ==> db.clock[i] <= r.clock[i])
    decreases |rows|
  {
    if rows != [] {
      var stamped := rows[0].val.(deliveryD := Now(db, w));
      var next := db.(orderLine := db.orderLine[rows[0].key := stamped], clock := Tick(db, w));
      OwnerIsUnique(db.cfg, w);
      assert Owns(db.cfg, Owner(db.cfg, w), w);
      assert next.clock.Keys == db.clock.Keys;
      assert OnlyStamped(db.orderLine, next.orderLine);
      StampRowsTouches(next, w, rows[1..]);
    }
  }

  ghost predicate DeliveryEffect(db: Db, r: Db, ko: OKey, carrier: nat) {
    && ko in db.order && ko in db.newOrder
    && r == db.(newOrder := db.newOrder - {ko}, order := db.order[ko := db.order[ko].(carrier := carrier)],
                customer := CreditCustomer(db, CKey(ko.w, ko.d, db.order[ko].c), Total(DeliveryScan(db, ko))),
                orderLine := r.orderLine, clock := r.clock)
    && r.clock.Keys == db.clock.Keys
    && (forall i :: i in db.clock ==> db.clock[i] <= r.clock[i])
    && OnlyStamped(db.orderLine, r.orderLine)
  }

  lemma ScanIsStampable(table: map<OLKey, OLVal>, lower: OLKey, n: nat)
    ensures forall i :: 0 <= i < |Scan(table, lower, n)| ==> Stampable(table, Scan(table, lower, n)[i])
  {
  }

  function MarkDelivered(db: Db, ko: OKey, carrier: nat): Db
    requires ko in db.order
  {
    db.(newOrder := db.newOrder - {ko}, order := db.order[ko := db.order[ko].(carrier := carrier)])
  }

  lemma MarkKeepsKeys(db: Db, ko: OKey, carrier: nat)
    requires Complete(db) && ko in db.order
    ensures Complete(MarkDelivered(db, ko, carrier))
  {
  }

  lemma DeliverOrderEffect(db: Db, ko: OKey, carrier: nat)
    requires Complete(db) && 1 <= ko.w <= db.cfg.warehouses && ko in db.newOrder && ko in db.order
    ensures DeliveryEffect(db, DeliverOrder(db, ko, carrier), ko, carrier)
  {
    var marked := MarkDelivered(db, ko, carrier);
    MarkKeepsKeys(db, ko, carrier);
    ScanIsStampable(db.orderLine, OLKey(ko.w, ko.d, ko.o, 0), 10);
    hide Complete, OnlyStamped, Stampable, Scan, Total, StampRows, CreditCustomer;
    StampRowsTouches(marked, ko.w, DeliveryScan(db, ko));
    assert CreditCustomer(StampRows(marked, ko.w, DeliveryScan(db, ko)), CKey(ko.w, ko.d, db.order[ko].c),
                          Total(DeliveryScan(db, ko)))
        == CreditCustomer(db, CKey(ko.w, ko.d, db.order[ko].c), Total(DeliveryScan(db, ko))) by {
      CreditDependsOnCustomers(StampRows(marked, ko.w, DeliveryScan(db, ko)), db,
                               CKey(ko.w, ko.d, db.order[ko].c), Total(DeliveryScan(db, ko)));
    }
  }

  lemma CreditDependsOnCustomers(a: Db, b: Db, kc: CKey, total: int)
    requires a.customer == b.customer
    ensures CreditCustomer(a, kc, total) == CreditCustomer(b, kc, total)
  {
  }

  lemma DeliveryKeepsKeys(db: Db, r: Db, ko: OKey, carrier: nat)
    requires Complete(db) && IsDistrict(db.cfg, ko.w, ko.d) && DeliveryEffect(db, r, ko, carrier)
    requires OrderRow(db.order[ko])
    ensures Complete(r)
  {
    assert IsCustomer(db.cfg, CKey(ko.w, ko.d, db.order[ko].c));
    assert r.customer.Keys == db.customer.Keys;
  }

  lemma DeliveryKeepsOrders(db: Db, r: Db, ko: OKey, carrier: nat)
    requires OrderIds(db) && Undelivered(db) && PendingIsNewest(db)
    requires 1 <= carrier <= DISTRICTS && DeliveryEffect(db, r, ko, carrier)
    ensures OrderIds(r) && Undelivered(r) && PendingIsNewest(r)
  {
    assert r.order.Keys == db.order.Keys;
    hide CreditCustomer, OnlyStamped, DeliveryScan;
  }

  lemma DeliveryKeepsLines(db: Db, r: Db, ko: OKey, carrier: nat)
    requires RowsOk(db) && LinesNumbered(db)
    requires 1 <= carrier <= DISTRICTS && DeliveryEffect(db, r, ko, carrier)
    ensures RowsOk(r) && LinesNumbered(r)
  {
    assert r.order.Keys == db.order.Keys;
    assert forall k: OKey :: k in db.order ==> r.order[k].olCnt == db.order[k].olCnt;
    hide CreditCustomer, DeliveryScan;
  }

  lemma DeliveryKeepsLatest(db: Db, r: Db, ko: OKey, carrier: nat)
    requires LatestIsNewest(db) && DeliveryEffect(db, r, ko, carrier)
    ensures LatestIsNewest(r)
  {
    assert r.order.Keys == db.order.Keys;
    assert forall k: OKey :: k in db.order ==> r.order[k].c == db.order[k].c;
    forall k: CKey | k in r.latest
      ensures LatestIsOwn(r.order, k, r.latest[k])
    {
      assert LatestIsOwn(db.order, k, db.latest[k]);
    }
  }

  lemma DeliveryKeepsConsistent(db: Db, r: Db, ko: OKey, carrier: nat)
    requires Consistent(db) && 1 <= carrier <= DISTRICTS && DeliveryEffect(db, r, ko, carrier)
    ensures Consistent(r)
  {
    assert OrderRow(db.order[ko]) && DKey(ko.w, ko.d) in db.district;
    DeliveryKeepsKeys(db, r, ko, carrier);
    DeliveryKeepsOrders(db, r, ko, carrier);
    DeliveryKeepsLines(db, r, ko, carrier);
    DeliveryKeepsLatest(db, r, ko, carrier);
  }

  /** A delivery to one district never bails out and keeps the database consistent. */
  lemma DeliverDistrictKeepsConsistent(db: Db, w: nat, d: nat, carrier: nat)
    requires Consistent(db) && 1 <= carrier <= DISTRICTS
    ensures DeliverDistrict(db, w, d, carrier).done
    ensures Consistent(DeliverDistrict(db, w, d, carrier).db)
  {
    var ko := DeliveredKey(db, w, d);
    if ko in db.newOrder {
      assert ko in db.order && DKey(w, d) in db.district;
      DeliverOrderEffect(db, ko, carrier);
      DeliveryKeepsConsistent(db, DeliverOrder(db, ko, carrier), ko, carrier);
    }
  }

  lemma {:induction false} DeliverFromKeepsConsistent(db: Db, w: nat, d: nat, carrier: nat)
    requires Consistent(db) && 1 <= carrier <= DISTRICTS
    ensures DeliverFrom(db, w, d, carrier).done
    ensures Consistent(DeliverFrom(db, w, d, carrier).db)
    decreases DISTRICTS + 1 - d
  {
    hide Consistent, DeliverDistrict;
    if d <= DISTRICTS {
      DeliverDistrictKeepsConsistent(db, w, d, carrier);
      DeliverFromKeepsConsistent(DeliverDistrict(db, w, d, carrier).db, w, d + 1, carrier);
    }
  }

  // ------------------------------------------------------------------ every transaction

  lemma ExecuteKeepsConsistent(db: Db, t: Txn)
    requires Consistent(db) && Drawn(db.cfg, t)
    ensures Execute(db, t).done && Consistent(Execute(db, t).db)
    ensures Execute(db, t).db.cfg == db.cfg
  {
    match t
    case NewOrder(w, d, c, items) =>
      NewOrderCommits(db, w, d, c, items);
      NewOrderKeepsConsistent(db, w, d, c, items);
    case Payment(w, d, cw, cd, c, amount) =>
      PayEffect(db, w, d, cw, cd, c, amount);
      PayKeepsConsistent(db, Pay(db, w, d, cw, cd, c, amount));
    case Delivery(w, carrier) =>
      DeliverFromKeepsConsistent(db, w, 1, carrier);
      DeliverFromKeepsConfig(db, w, 1, carrier);
    case OrderStatus(w, d, c) =>
    case StockLevel(w, d, threshold) =>
  }

  lemma {:induction false} StampRowsKeepsConfig(db: Db, w: nat, rows: seq<Line>)
    ensures StampRows(db, w, rows).cfg == db.cfg
    decreases |rows|
  {
    if rows != [] {
      var stamped := rows[0].val.(deliveryD := Now(db, w));
      StampRowsKeepsConfig(db.(orderLine := db.orderLine[rows[0].key := stamped], clock := Tick(db, w)), w, rows[1..]);
    }
  }

  lemma DeliverDistrictKeepsConfig(db: Db, w: nat, d: nat, carrier: nat)
    ensures DeliverDistrict(db, w, d, carrier).db.cfg == db.cfg
  {
    var ko := DeliveredKey(db, w, d);
    if ko in db.newOrder && ko in db.order {
      StampRowsKeepsConfig(MarkDelivered(db, ko, carrier), ko.w, DeliveryScan(db, ko));
    }
  }

  lemma {:induction false} DeliverFromKeepsConfig(db: Db, w: nat, d: nat, carrier: nat)
    ensures DeliverFrom(db, w, d, carrier).db.cfg == db.cfg
    decreases DISTRICTS + 1 - d
  {
    hide DeliverDistrict;
    if d <= DISTRICTS {
      DeliverDistrictKeepsConfig(db, w, d, carrier);
      var r := DeliverDistrict(db, w, d, carrier);
      if r.done {
        DeliverFromKeepsConfig(r.db, w, d + 1, carrier);
      }
    }
  }
}
