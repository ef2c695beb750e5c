/**
 An order is delivered at most once: nothing rewrites or removes an order that carries a
 carrier. And the databases a delivery passes through, district by district.
 */
module Deliveries {
  import opened Partition
  import opened Tables
  import opened Scans
  import opened Transactions
  import opened Consistency
  import opened CustomerLaws
  import opened DeliveryScans

  /** The ORDER row of ko is a delivered one and no delivery can find it again. */
  ghost predicate IsDelivered(db: Db, ko: OKey, vo: OVal) {
    ko in db.order && db.order[ko] == vo && vo.carrier != 0 && ko !in db.newOrder
  }

  lemma DeliverDistrictKeepsDelivered(db: Db, w: nat, d: nat, carrier: nat, ko: OKey, vo: OVal)
    requires Consistent(db) && 1 <= carrier <= DISTRICTS && IsDelivered(db, ko, vo)
    ensures IsDelivered(DeliverDistrict(db, w, d, carrier).db, ko, vo)
  {
    var taken := DeliveredKey(db, w, d);
    if taken in db.newOrder {
      DeliveredIsOpen(db, w, d);
      DeliverOrderEffect(db, taken, carrier);
      hide DeliverOrder, Consistent, OnlyStamped, CreditCustomer;
    }
  }

  lemma {:induction false} DeliverFromKeepsDelivered(db: Db, w: nat, d: nat, carrier: nat, ko: OKey, vo: OVal)
    requires Consistent(db) && 1 <= carrier <= DISTRICTS && IsDelivered(db, ko, vo)
    ensures IsDelivered(DeliverFrom(db, w, d, carrier).db, ko, vo)
    decreases DISTRICTS + 1 - d
  {
    hide Consistent, IsDelivered, DeliverDistrict;
    if d <= DISTRICTS {
      DeliverDistrictKeepsConsistent(db, w, d, carrier);
      DeliverDistrictKeepsDelivered(db, w, d, carrier, ko, vo);
      DeliverFromKeepsDelivered(DeliverDistrict(db, w, d, carrier).db, w, d + 1, carrier, ko, vo);
    }
  }

  lemma PlaceOrderKeepsDelivered(db: Db, w: nat, d: nat, c: nat, items: seq<Item>, ko: OKey, vo: OVal)
    requires Consistent(db) && Drawn(db.cfg, NewOrder(w, d, c, items)) && IsDelivered(db, ko, vo)
    ensures IsDelivered(PlaceOrder(db, w, d, c, items).db, ko, vo)
  {
    NewOrderIsFresh(db, w, d);
    hide Consistent, PlaceOrder, IsLineOf, AllLocal;
    NewOrderCommits(db, w, d, c, items);
  }

  /** No transaction touches a delivered order. */
  lemma ExecuteKeepsDelivered(db: Db, t: Txn, ko: OKey, vo: OVal)
    requires Consistent(db) && Drawn(db.cfg, t) && IsDelivered(db, ko, vo)
    ensures IsDelivered(Execute(db, t).db, ko, vo)
  {
    hide Consistent, PlaceOrder, DeliverFrom;
    match t
    case NewOrder(w, d, c, items) => PlaceOrderKeepsDelivered(db, w, d, c, items, ko, vo);
    case Payment(w, d, cw, cd, c, amount) =>
    case Delivery(w, carrier) => DeliverFromKeepsDelivered(db, w, 1, carrier, ko, vo);
    case OrderStatus(w, d, c) =>
    case StockLevel(w, d, threshold) =>
  }

  // ------------------------------------------------------------------ inside a delivery

  /** The database in which a delivery to warehouse w turns to district d. */
  function Turned(db: Db, w: nat, d: nat, carrier: nat): Db
    requires d >= 1
  {
    if d == 1 then db else DeliverDistrict(Turned(db, w, d - 1, carrier), w, d - 1, carrier).db
  }

  /** These are the databases the district loop passes through. */
  lemma {:induction false} LoopTurns(db: Db, w: nat, d: nat, carrier: nat)
    requires Consistent(db) && 1 <= carrier <= DISTRICTS && 1 <= d <= DISTRICTS + 1
    ensures Consistent(Turned(db, w, d, carrier)) && Turned(db, w, d, carrier).cfg == db.cfg
    ensures DeliverFrom(db, w, 1, carrier) == DeliverFrom(Turned(db, w, d, carrier), w, d, carrier)
    decreases d
  {
    hide Consistent, DeliverDistrict;
    if d > 1 {
      LoopTurns(db, w, d - 1, carrier);
      var before := Turned(db, w, d - 1, carrier);
      DeliverDistrictKeepsConsistent(before, w, d - 1, carrier);
      DeliverDistrictKeepsConfig(before, w, d - 1, carrier);
    }
  }

  /** The ten rows a delivery scans in district d, after it has been through the districts before. */
  lemma TurnScanShape(db: Db, w: nat, d: nat, carrier: nat)
    requires Consistent(db) && 1 <= carrier <= DISTRICTS && 1 <= d <= DISTRICTS
    requires var mid := Turned(db, w, d, carrier); DeliveredKey(mid, w, d) in mid.newOrder
    ensures var mid := Turned(db, w, d, carrier);
            var ko := DeliveredKey(mid, w, d);
            ko in mid.order && ScanShape(mid.cfg, DeliveryScan(mid, ko), ko, mid.order[ko].olCnt)
  {
    var mid := Turned(db, w, d, carrier);
    LoopTurns(db, w, d, carrier);
    hide Turned, ScanShape;
    DeliveredIsOpen(mid, w, d);
    DeliveryScanShape(mid, DeliveredKey(mid, w, d));
  }

  // ------------------------------------------------------------------ what a delivery delivers

  /** ko is the order a delivery would take from district (w, d), and vo its row. */
  ghost predicate IsNext(db: Db, w: nat, d: nat, ko: OKey, vo: OVal) {
    ko == DeliveredKey(db, w, d) && ko in db.newOrder && ko in db.order && db.order[ko] == vo
  }

  lemma DeliverDistrictKeepsNext(db: Db, w: nat, e: nat, carrier: nat, d: nat, ko: OKey, vo: OVal)
    requires Consistent(db) && 1 <= carrier <= DISTRICTS && e != d && IsNext(db, w, d, ko, vo)
    ensures IsNext(DeliverDistrict(db, w, e, carrier).db, w, d, ko, vo)
  {
    var taken := DeliveredKey(db, w, e);
    if taken in db.newOrder {
      DeliveredIsOpen(db, w, e);
      DeliverOrderEffect(db, taken, carrier);
      hide DeliverOrder, Consistent, OnlyStamped, CreditCustomer;
    }
  }

  /** The districts before leave a district's next order alone. */
  lemma {:induction false} TurnKeepsNext(db: Db, w: nat, e: nat, carrier: nat, d: nat, ko: OKey, vo: OVal)
    requires Consistent(db) && 1 <= carrier <= DISTRICTS && 1 <= e <= d <= DISTRICTS && IsNext(db, w, d, ko, vo)
    ensures IsNext(Turned(db, w, e, carrier), w, d, ko, vo)
    decreases e
  {
    hide Consistent, DeliverDistrict, IsNext;
    if e > 1 {
      LoopTurns(db, w, e - 1, carrier);
      TurnKeepsNext(db, w, e - 1, carrier, d, ko, vo);
      DeliverDistrictKeepsNext(Turned(db, w, e - 1, carrier), w, e - 1, carrier, d, ko, vo);
    }
  }

  lemma DeliverDistrictDelivers(db: Db, w: nat, d: nat, carrier: nat, ko: OKey, vo: OVal)
    requires Consistent(db) && 1 <= carrier <= DISTRICTS && IsNext(db, w, d, ko, vo)
    ensures IsDelivered(DeliverDistrict(db, w, d, carrier).db, ko, vo.(carrier := carrier))
  {
    DeliveredIsOpen(db, w, d);
    DeliverOrderEffect(db, ko, carrier);
    hide DeliverOrder, Consistent, OnlyStamped, CreditCustomer;
  }

  lemma LoopDelivers(db: Db, w: nat, d: nat, carrier: nat, ko: OKey, vo: OVal)
    requires Consistent(db) && 1 <= carrier <= DISTRICTS && d <= DISTRICTS && IsNext(db, w, d, ko, vo)
    ensures IsDelivered(DeliverFrom(db, w, d, carrier).db, ko, vo.(carrier := carrier))
  {
    hide Consistent, DeliverDistrict, IsNext, IsDelivered;
    DeliverDistrictKeepsConsistent(db, w, d, carrier);
    DeliverDistrictDelivers(db, w, d, carrier, ko, vo);
    DeliverFromKeepsDelivered(DeliverDistrict(db, w, d, carrier).db, w, d + 1, carrier, ko, vo.(carrier := carrier));
  }

  /** A delivery delivers the newest order of every district in which that order is undelivered. */
  lemma DeliveryDelivers(db: Db, w: nat, d: nat, carrier: nat, ko: OKey, vo: OVal)
    requires Consistent(db) && 1 <= carrier <= DISTRICTS && 1 <= d <= DISTRICTS && IsNext(db, w, d, ko, vo)
    ensures IsDelivered(DeliverFrom(db, w, 1, carrier).db, ko, vo.(carrier := carrier))
  {
    hide *;
    LoopTurns(db, w, d, carrier);
    TurnKeepsNext(db, w, d, carrier, d, ko, vo);
    LoopDelivers(Turned(db, w, d, carrier), w, d, carrier, ko, vo);
  }
}
