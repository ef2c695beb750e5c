/**
 C_DELIVERY_CNT counts a customer's delivered orders; C_BALANCE + C_YTD_PAYMENT is what
 deliveries credited to the customer, whatever was paid.
 */
module CustomerLaws {
  import opened Partition
  import opened Tables
  import opened Scans
  import opened Transactions
  import opened Consistency

  /** The customer's orders that a delivery of the run, not the loader, has marked. */
  ghost function DeliveredTo(order: map<OKey, OVal>, kc: CKey): set<OKey> {
    set k | k in order && k.w == kc.w && k.d == kc.d && k.o >= FIRST_OPEN
            && order[k].c == kc.c && order[k].carrier != 0
  }

  ghost predicate CountsOk(db: Db) {
    forall k: CKey :: k in db.customer ==> db.customer[k].deliveryCnt == |DeliveredTo(db.order, k)|
  }

  function Account(db: Db, k: CKey): int {
    var v := Row(db.customer, k, NO_CUSTOMER);
    v.balance + v.ytdPayment
  }

  // ------------------------------------------------------------------ delivery counts

  lemma NewOrderKeepsCounts(db: Db, r: Db, ko: OKey, c: nat, items: seq<Item>)
    requires CountsOk(db) && ko !in db.order && NewOrderEffect(db, r, ko, c, items)
    ensures CountsOk(r)
  {
    forall k: CKey | k in r.customer
      ensures r.customer[k].deliveryCnt == |DeliveredTo(r.order, k)|
    {
      assert DeliveredTo(r.order, k) == DeliveredTo(db.order, k);
    }
  }

  lemma PayKeepsCounts(db: Db, w: nat, d: nat, cw: nat, cd: nat, c: nat, amount: int)
    requires CountsOk(db) && CKey(cw, cd, c) in db.customer
    ensures CountsOk(Pay(db, w, d, cw, cd, c, amount))
  {
  }

  lemma MarkingCounts(order: map<OKey, OVal>, ko: OKey, carrier: nat, k: CKey)
    requires ko in order && order[ko].carrier == 0 && carrier != 0 && ko.o >= FIRST_OPEN
    ensures |DeliveredTo(order[ko := order[ko].(carrier := carrier)], k)|
         == |DeliveredTo(order, k)| + if k == CKey(ko.w, ko.d, order[ko].c) then 1 else 0
  {
    var marked := order[ko := order[ko].(carrier := carrier)];
    if k == CKey(ko.w, ko.d, order[ko].c) {
      assert DeliveredTo(marked, k) == DeliveredTo(order, k) + {ko};
    } else {
      assert DeliveredTo(marked, k) == DeliveredTo(order, k);
    }
  }

  lemma DeliveryKeepsCounts(db: Db, r: Db, ko: OKey, carrier: nat)
    requires CountsOk(db) && Undelivered(db) && ko.o >= FIRST_OPEN && carrier != 0 && DeliveryEffect(db, r, ko, carrier)
    requires CKey(ko.w, ko.d, db.order[ko].c) in db.customer
    ensures CountsOk(r)
  {
    hide DeliveredTo, OnlyStamped, Total, DeliveryScan;
    forall k: CKey | k in r.customer
      ensures r.customer[k].deliveryCnt == |DeliveredTo(r.order, k)|
    {
      MarkingCounts(db.order, ko, carrier, k);
    }
  }

  /** The order a delivery takes is the newest of its district and not yet delivered. */
  lemma DeliveredIsOpen(db: Db, w: nat, d: nat)
    requires Consistent(db) && DeliveredKey(db, w, d) in db.newOrder
    ensures Delivers(db, w, d) && IsDistrict(db.cfg, w, d) && DeliveredKey(db, w, d).o >= LOADED_ORDERS
    ensures DeliveredKey(db, w, d).o == NewestOid(db.district[DKey(w, d)].nextOid)
    ensures CKey(w, d, db.order[DeliveredKey(db, w, d)].c) in db.customer
    ensures db.order[DeliveredKey(db, w, d)].carrier == 0
  {
    var ko := DeliveredKey(db, w, d);
    assert ko in db.order && DKey(w, d) in db.district;
    assert OrderRow(db.order[ko]);
    assert IsCustomer(db.cfg, CKey(w, d, db.order[ko].c));
  }

  lemma DeliverDistrictKeepsCounts(db: Db, w: nat, d: nat, carrier: nat)
    requires Consistent(db) && CountsOk(db) && 1 <= carrier <= DISTRICTS
    ensures CountsOk(DeliverDistrict(db, w, d, carrier).db)
  {
    var ko := DeliveredKey(db, w, d);
    if ko in db.newOrder {
      DeliveredIsOpen(db, w, d);
      DeliverOrderEffect(db, ko, carrier);
      hide CountsOk, DeliverOrder;
      DeliveryKeepsCounts(db, DeliverOrder(db, ko, carrier), ko, carrier);
    }
  }

  lemma {:induction false} DeliverFromKeepsCounts(db: Db, w: nat, d: nat, carrier: nat)
    requires Consistent(db) && CountsOk(db) && 1 <= carrier <= DISTRICTS
    ensures CountsOk(DeliverFrom(db, w, d, carrier).db)
    decreases DISTRICTS + 1 - d
  {
    hide Consistent, CountsOk, DeliverDistrict;
    if d <= DISTRICTS {
      DeliverDistrictKeepsConsistent(db, w, d, carrier);
      DeliverDistrictKeepsCounts(db, w, d, carrier);
      DeliverFromKeepsCounts(DeliverDistrict(db, w, d, carrier).db, w, d + 1, carrier);
    }
  }

  lemma ExecuteKeepsCounts(db: Db, t: Txn)
    requires Consistent(db) && Drawn(db.cfg, t) && CountsOk(db)
    ensures CountsOk(Execute(db, t).db)
  {
    match t
    case NewOrder(w, d, c, items) =>
      NewOrderIsFresh(db, w, d);
      hide CountsOk, PlaceOrder, NewOrderEffect;
      NewOrderCommits(db, w, d, c, items);
      NewOrderKeepsCounts(db, PlaceOrder(db, w, d, c, items).db, OKey(w, d, NextOid(db, w, d)), c, items);
    case Payment(w, d, cw, cd, c, amount) =>
      assert IsCustomer(db.cfg, CKey(cw, cd, c));
      PayKeepsCounts(db, w, d, cw, cd, c, amount);
    case Delivery(w, carrier) =>
      DeliverFromKeepsCounts(db, w, 1, carrier);
    case OrderStatus(w, d, c) =>
    case StockLevel(w, d, threshold) =>
  }

  // ------------------------------------------------------------------ credits

  /** What the delivery to one district credits to a customer. */
  function DistrictCredit(db: Db, w: nat, d: nat, kc: CKey): int {
    var ko := DeliveredKey(db, w, d);
    if Delivers(db, w, d) && kc == CKey(w, d, db.order[ko].c) then Total(DeliveryScan(db, ko)) else 0
  }

  function CreditFrom(db: Db, w: nat, d: nat, carrier: nat, kc: CKey): int
    decreases DISTRICTS + 1 - d
  {
    if d > DISTRICTS then 0
    else
      var r := DeliverDistrict(db, w, d, carrier);
      DistrictCredit(db, w, d, kc) + if r.done then CreditFrom(r.db, w, d + 1, carrier, kc) else 0
  }

  /** The ol_total amounts a transaction credits to a customer. */
  function Credit(db: Db, t: Txn, kc: CKey): int {
    if t.Delivery? then CreditFrom(db, t.w, 1, t.carrier, kc) else 0
  }

  /** What the first k transactions of a run credit to a customer. */
  function RunCredit(dbs: seq<Db>, ts: seq<Txn>, k: nat, kc: CKey): int
    requires k <= |ts| < |dbs|
  {
    if k == 0 then 0 else RunCredit(dbs, ts, k - 1, kc) + Credit(dbs[k - 1], ts[k - 1], kc)
  }

  lemma DeliverDistrictCredits(db: Db, w: nat, d: nat, carrier: nat, kc: CKey)
    requires Consistent(db) && 1 <= carrier <= DISTRICTS
    ensures Account(DeliverDistrict(db, w, d, carrier).db, kc) == Account(db, kc) + DistrictCredit(db, w, d, kc)
  {
    var ko := DeliveredKey(db, w, d);
    if ko in db.newOrder {
      DeliveredIsOpen(db, w, d);
      DeliverOrderEffect(db, ko, carrier);
      hide DeliverOrder, Consistent, Total;
    }
  }

  lemma {:induction false} DeliverFromCredits(db: Db, w: nat, d: nat, carrier: nat, kc: CKey)
    requires Consistent(db) && 1 <= carrier <= DISTRICTS
    ensures Account(DeliverFrom(db, w, d, carrier).db, kc) == Account(db, kc) + CreditFrom(db, w, d, carrier, kc)
    decreases DISTRICTS + 1 - d
  {
    hide Consistent, Account, DistrictCredit, DeliverDistrict;
    if d <= DISTRICTS {
      DeliverDistrictKeepsConsistent(db, w, d, carrier);
      DeliverDistrictCredits(db, w, d, carrier, kc);
      DeliverFromCredits(DeliverDistrict(db, w, d, carrier).db, w, d + 1, carrier, kc);
    }
  }

  /** Payments and new orders leave an account alone; a delivery adds its credits. */
  lemma ExecuteCredits(db: Db, t: Txn, kc: CKey)
    requires Consistent(db) && Drawn(db.cfg, t)
    ensures Account(Execute(db, t).db, kc) == Account(db, kc) + Credit(db, t, kc)
  {
    match t
    case NewOrder(w, d, c, items) => NewOrderCommits(db, w, d, c, items);
    case Payment(w, d, cw, cd, c, amount) => assert IsCustomer(db.cfg, CKey(cw, cd, c));
    case Delivery(w, carrier) => DeliverFromCredits(db, w, 1, carrier, kc);
    case OrderStatus(w, d, c) =>
    case StockLevel(w, d, threshold) =>
  }
}
