/**
 What the rows of the order lines say: OL_AMOUNT of a line of the run is its quantity times the price of its item, and
 O_ALL_LOCAL is set exactly when the order's own warehouse supplies all its lines.
 */
module LineLaws {
  import opened Partition
  import opened Tables
  import opened Scans
  import opened Transactions
  import opened Consistency
  import opened CustomerLaws

  predicate IsPriced(item: map<nat, IVal>, v: OLVal) {
    v.i in item && v.amount == v.qty * item[v.i].price
  }

  /** The loader draws the amounts of its lines; those of the run are computed. */
  ghost predicate PricesOk(db: Db) {
    forall k: OLKey :: k in db.orderLine && k.o > LOADED_ORDERS ==> IsPriced(db.item, db.orderLine[k])
  }

  /** The order's own warehouse supplies all its lines. */
  ghost predicate SuppliedAtHome(lines: map<OLKey, OLVal>, ko: OKey) {
    forall n: nat :: OLKey(ko.w, ko.d, ko.o, n) in lines ==> lines[OLKey(ko.w, ko.d, ko.o, n)].supply == ko.w
  }

  ghost predicate LocalOk(db: Db) {
    forall ko: OKey :: ko in db.order ==> (db.order[ko].allLocal <==> SuppliedAtHome(db.orderLine, ko))
  }

  ghost predicate RowsSay(db: Db) {
    PricesOk(db) && LocalOk(db)
  }

  // ------------------------------------------------------------------ new order

  lemma NewOrderKeepsPrices(db: Db, r: Db, ko: OKey, c: nat, items: seq<Item>)
    requires Complete(db) && PricesOk(db) && NewOrderEffect(db, r, ko, c, items)
    requires forall j :: 0 <= j < |items| ==> DrawnItem(db.cfg, items[j])
    ensures PricesOk(r)
  {
    hide IsLineOf;
    forall k: OLKey | k in r.orderLine && k.o > LOADED_ORDERS
      ensures IsPriced(r.item, r.orderLine[k])
    {
      if k in db.orderLine {
        assert IsPriced(db.item, db.orderLine[k]);
      } else {
        var it := items[k.n - 1];
        assert DrawnItem(db.cfg, it) && it.i in db.item;
        LineIsPriced(db.item, r.orderLine[k], it);
      }
    }
  }

  lemma LineIsPriced(item: map<nat, IVal>, v: OLVal, it: Item)
    requires it.i in item && IsLineOf(v, it, item[it.i].price)
    ensures IsPriced(item, v)
  {
  }

  /** The flag of the new order is that of its items, whose lines are all there. */
  lemma NewOrderIsLocal(db: Db, r: Db, ko: OKey, c: nat, items: seq<Item>)
    requires NewOrderEffect(db, r, ko, c, items) && forall n: nat :: OLKey(ko.w, ko.d, ko.o, n) !in db.orderLine
    ensures r.order[ko].allLocal <==> SuppliedAtHome(r.orderLine, ko)
  {
    forall n: nat | OLKey(ko.w, ko.d, ko.o, n) in r.orderLine
      ensures 1 <= n <= |items| && r.orderLine[OLKey(ko.w, ko.d, ko.o, n)].supply == items[n - 1].supply
    {
      assert NewLineKey(OLKey(ko.w, ko.d, ko.o, n), ko, 0, |items|);
    }
    forall n: nat | 1 <= n <= |items|
      ensures OLKey(ko.w, ko.d, ko.o, n) in r.orderLine
    {
      assert NewLineKey(OLKey(ko.w, ko.d, ko.o, n), ko, 0, |items|);
    }
    if SuppliedAtHome(r.orderLine, ko) {
      forall j | 0 <= j < |items|
        ensures items[j].supply == ko.w
      {
        assert OLKey(ko.w, ko.d, ko.o, j + 1) in r.orderLine;
      }
    }
  }

  lemma NewOrderKeepsLocal(db: Db, r: Db, ko: OKey, c: nat, items: seq<Item>)
    requires LinesNumbered(db) && LocalOk(db) && ko !in db.order && NewOrderEffect(db, r, ko, c, items)
    ensures LocalOk(r)
  {
    forall n: nat
      ensures OLKey(ko.w, ko.d, ko.o, n) !in db.orderLine
    {
      var k := OLKey(ko.w, ko.d, ko.o, n);
      assert OKey(k.w, k.d, k.o) == ko;
    }
    NewOrderIsLocal(db, r, ko, c, items);
    forall k: OKey | k in r.order
      ensures r.order[k].allLocal <==> SuppliedAtHome(r.orderLine, k)
    {
      if k != ko {
        OldOrderStays(db, r, ko, c, items, k);
      }
    }
  }

  lemma OldOrderStays(db: Db, r: Db, ko: OKey, c: nat, items: seq<Item>, k: OKey)
    requires NewOrderEffect(db, r, ko, c, items) && k != ko
    ensures SuppliedAtHome(db.orderLine, k) <==> SuppliedAtHome(r.orderLine, k)
  {
    forall n: nat
      ensures OLKey(k.w, k.d, k.o, n) in db.orderLine <==> OLKey(k.w, k.d, k.o, n) in r.orderLine
      ensures OLKey(k.w, k.d, k.o, n) in db.orderLine ==>
                db.orderLine[OLKey(k.w, k.d, k.o, n)] == r.orderLine[OLKey(k.w, k.d, k.o, n)]
    {
      assert !NewLineKey(OLKey(k.w, k.d, k.o, n), ko, 0, |items|);
    }
    hide NewOrderEffect;
  }

  lemma PlaceOrderKeepsRows(db: Db, w: nat, d: nat, c: nat, items: seq<Item>)
    requires Consistent(db) && RowsSay(db) && Drawn(db.cfg, NewOrder(w, d, c, items))
    ensures RowsSay(PlaceOrder(db, w, d, c, items).db)
  {
    var ko, r := OKey(w, d, NextOid(db, w, d)), PlaceOrder(db, w, d, c, items).db;
    NewOrderIsFresh(db, w, d);
    NewOrderCommits(db, w, d, c, items);
    hide PlaceOrder, PricesOk, LocalOk, Complete, OrderIds, RowsOk, Undelivered, LinesNumbered, PendingIsNewest,
         LatestIsNewest, NewOrderEffect, NewLineKey;
    NewOrderKeepsPrices(db, r, ko, c, items);
    NewOrderKeepsLocal(db, r, ko, c, items);
  }

  // ------------------------------------------------------------------ the other transactions

  lemma StampKeepsRows(db: Db, r: Db)
    requires RowsSay(db) && OnlyStamped(db.orderLine, r.orderLine) && r.item == db.item
    requires r.order.Keys == db.order.Keys
    requires forall k: OKey :: k in db.order ==> r.order[k].allLocal == db.order[k].allLocal
    ensures RowsSay(r)
  {
    forall k: OLKey | k in r.orderLine && k.o > LOADED_ORDERS
      ensures IsPriced(r.item, r.orderLine[k])
    {
      assert IsPriced(db.item, db.orderLine[k]);
    }
    forall k: OKey | k in r.order
      ensures r.order[k].allLocal <==> SuppliedAtHome(r.orderLine, k)
    {
      assert db.order[k].allLocal <==> SuppliedAtHome(db.orderLine, k);
    }
  }

  lemma DeliveryKeepsFlags(db: Db, r: Db, ko: OKey, carrier: nat)
    requires DeliveryEffect(db, r, ko, carrier)
    ensures OnlyStamped(db.orderLine, r.orderLine) && r.item == db.item && r.order.Keys == db.order.Keys
    ensures forall k: OKey :: k in db.order ==> r.order[k].allLocal == db.order[k].allLocal
  {
    hide OnlyStamped, CreditCustomer, Scan, Total;
  }

  lemma DeliverDistrictKeepsRows(db: Db, w: nat, d: nat, carrier: nat)
    requires Consistent(db) && RowsSay(db) && 1 <= carrier <= DISTRICTS
    ensures RowsSay(DeliverDistrict(db, w, d, carrier).db)
  {
    var ko := DeliveredKey(db, w, d);
    if ko in db.newOrder {
      DeliveredIsOpen(db, w, d);
      DeliverOrderEffect(db, ko, carrier);
      hide *;
      DeliveryKeepsFlags(db, DeliverOrder(db, ko, carrier), ko, carrier);
      StampKeepsRows(db, DeliverOrder(db, ko, carrier));
    }
  }

  lemma {:induction false} DeliverFromKeepsRows(db: Db, w: nat, d: nat, carrier: nat)
    requires Consistent(db) && RowsSay(db) && 1 <= carrier <= DISTRICTS
    ensures RowsSay(DeliverFrom(db, w, d, carrier).db)
    decreases DISTRICTS + 1 - d
  {
    hide Consistent, RowsSay, DeliverDistrict;
    if d <= DISTRICTS {
      DeliverDistrictKeepsConsistent(db, w, d, carrier);
      DeliverDistrictKeepsRows(db, w, d, carrier);
      DeliverFromKeepsRows(DeliverDistrict(db, w, d, carrier).db, w, d + 1, carrier);
    }
  }

  lemma ExecuteKeepsRows(db: Db, t: Txn)
    requires Consistent(db) && RowsSay(db) && Drawn(db.cfg, t)
    ensures RowsSay(Execute(db, t).db)
  {
    hide Consistent, PlaceOrder, DeliverFrom;
    match t
    case NewOrder(w, d, c, items) => PlaceOrderKeepsRows(db, w, d, c, items);
    case Payment(w, d, cw, cd, c, amount) =>
    case Delivery(w, carrier) => DeliverFromKeepsRows(db, w, 1, carrier);
    case OrderStatus(w, d, c) =>
    case StockLevel(w, d, threshold) =>
  }

  // ------------------------------------------------------------------ prices stay

  lemma {:induction false} DeliverFromKeepsItems(db: Db, w: nat, d: nat, carrier: nat)
    requires Consistent(db) && 1 <= carrier <= DISTRICTS
    ensures DeliverFrom(db, w, d, carrier).db.item == db.item
    decreases DISTRICTS + 1 - d
  {
    hide Consistent, DeliverDistrict;
    if d <= DISTRICTS {
      DeliverDistrictKeepsConsistent(db, w, d, carrier);
      DeliverDistrictKeepsItems(db, w, d, carrier);
      DeliverFromKeepsItems(DeliverDistrict(db, w, d, carrier).db, w, d + 1, carrier);
    }
  }

  lemma DeliverDistrictKeepsItems(db: Db, w: nat, d: nat, carrier: nat)
    requires Consistent(db) && 1 <= carrier <= DISTRICTS
    ensures DeliverDistrict(db, w, d, carrier).db.item == db.item
  {
    var ko := DeliveredKey(db, w, d);
    if ko in db.newOrder {
      DeliveredIsOpen(db, w, d);
      DeliverOrderEffect(db, ko, carrier);
      hide Consistent, DeliverOrder, OnlyStamped, CreditCustomer, Scan, Total;
    }
  }

  /** No transaction changes a price. */
  lemma ExecuteKeepsItems(db: Db, t: Txn)
    requires Consistent(db) && Drawn(db.cfg, t)
    ensures Execute(db, t).db.item == db.item
  {
    hide Consistent, PlaceOrder, DeliverFrom, NewLineKey, IsLineOf, AllLocal;
    match t
    case NewOrder(w, d, c, items) => NewOrderCommits(db, w, d, c, items);
    case Payment(w, d, cw, cd, c, amount) =>
    case Delivery(w, carrier) => DeliverFromKeepsItems(db, w, 1, carrier);
    case OrderStatus(w, d, c) =>
    case StockLevel(w, d, threshold) =>
  }
}
