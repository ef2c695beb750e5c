/**
 C_BALANCE + C_YTD_PAYMENT as a law over the tables: it is the total of the ORDER-LINE rows numbered 1 .. 10 of the
 customer's orders that a delivery of the run has marked. This is what the code makes of clauses 3.3.2.10 and 3.3.2.12.
 */
module AccountLaws {
  import opened MapSum
  import opened Partition
  import opened Tables
  import opened Scans
  import opened Transactions
  import opened Consistency
  import opened CustomerLaws
  import opened DeliveryScans
  import opened Clauses
  import opened DeliveryTotals

  ghost predicate IsCredited(order: map<OKey, OVal>, kc: CKey, x: OLKey) {
    x.o >= FIRST_OPEN && x.n <= 10 && OrderOf(x) in DeliveredTo(order, kc)
  }

  /** OL_AMOUNT of the lines 1 .. 10 of the customer's delivered orders from id 2101 on. */
  ghost function Credited(lines: map<OLKey, OLVal>, order: map<OKey, OVal>, kc: CKey): map<OLKey, int> {
    map x | x in lines && IsCredited(order, kc, x) :: lines[x].amount
  }

  ghost predicate AccountOk(db: Db, kc: CKey) {
    Account(db, kc) == Sum(Credited(db.orderLine, db.order, kc))
  }

  ghost predicate AccountsOk(db: Db) {
    forall kc: CKey :: kc in db.customer ==> AccountOk(db, kc)
  }

  // ------------------------------------------------------------------ delivery

  lemma MarkedOrders(order: map<OKey, OVal>, ko: OKey, carrier: nat, kc: CKey, k: OKey)
    requires ko in order && order[ko].carrier == 0 && carrier != 0 && ko.o >= FIRST_OPEN
    ensures k in DeliveredTo(order[ko := order[ko].(carrier := carrier)], kc)
       <==> k in DeliveredTo(order, kc) || (k == ko && kc == CKey(ko.w, ko.d, order[ko].c))
    ensures ko !in DeliveredTo(order, kc)
  {
  }

  /** Marking an order credits its customer, and nobody else, with the lines 1 .. 10 of the order. */
  lemma MarkingCredits(old_: map<OLKey, OLVal>, new_: map<OLKey, OLVal>, order: map<OKey, OVal>, ko: OKey,
                       carrier: nat, kc: CKey)
    requires ko in order && order[ko].carrier == 0 && carrier != 0 && ko.o >= FIRST_OPEN
    requires OnlyStamped(old_, new_) && forall k: OLKey :: k in old_ ==> k.n >= 1
    ensures var r := Credited(new_, order[ko := order[ko].(carrier := carrier)], kc);
            var own := Amounts(old_, ko, 0, 10);
            if kc == CKey(ko.w, ko.d, order[ko].c)
            then r == Credited(old_, order, kc) + own && Credited(old_, order, kc).Keys !! own.Keys
            else r == Credited(old_, order, kc)
  {
    var marked := order[ko := order[ko].(carrier := carrier)];
    forall x: OLKey | x in old_
      ensures IsCredited(marked, kc, x) <==> IsCredited(order, kc, x)
                                             || (NewLineKey(x, ko, 0, 10) && kc == CKey(ko.w, ko.d, order[ko].c))
      ensures NewLineKey(x, ko, 0, 10) ==> !IsCredited(order, kc, x)
      ensures new_[x].amount == old_[x].amount
    {
      MarkedOrders(order, ko, carrier, kc, OrderOf(x));
      hide DeliveredTo;
    }
    hide IsCredited;
  }

  lemma DeliveryKeepsAccount(db: Db, r: Db, ko: OKey, carrier: nat, kc: CKey)
    requires AccountOk(db, kc) && DeliveryEffect(db, r, ko, carrier) && db.order[ko].carrier == 0 && carrier != 0
    requires ko.o >= FIRST_OPEN && Total(DeliveryScan(db, ko)) == Sum(Amounts(db.orderLine, ko, 0, 10))
    requires forall k: OLKey :: k in db.orderLine ==> k.n >= 1
    ensures AccountOk(r, kc)
  {
    hide OnlyStamped, Credited, Amounts, DeliveryScan, Total;
    MarkingCredits(db.orderLine, r.orderLine, db.order, ko, carrier, kc);
    if kc == CKey(ko.w, ko.d, db.order[ko].c) {
      SumUnion(Credited(db.orderLine, db.order, kc), Amounts(db.orderLine, ko, 0, 10));
    }
  }

  lemma DeliveryKeepsAccounts(db: Db, r: Db, ko: OKey, carrier: nat)
    requires AccountsOk(db) && DeliveryEffect(db, r, ko, carrier) && db.order[ko].carrier == 0 && carrier != 0
    requires CKey(ko.w, ko.d, db.order[ko].c) in db.customer
    requires ko.o >= FIRST_OPEN && Total(DeliveryScan(db, ko)) == Sum(Amounts(db.orderLine, ko, 0, 10))
    requires forall k: OLKey :: k in db.orderLine ==> k.n >= 1
    ensures AccountsOk(r)
  {
    assert r.customer.Keys == db.customer.Keys;
    hide AccountOk, Scan, Total, DeliveryEffect, Amounts;
    forall kc: CKey | kc in r.customer
      ensures AccountOk(r, kc)
    {
      DeliveryKeepsAccount(db, r, ko, carrier, kc);
    }
  }

  lemma DeliverDistrictKeepsAccounts(db: Db, w: nat, d: nat, carrier: nat)
    requires Consistent(db) && AmountsOk(db) && AccountsOk(db) && 1 <= carrier <= DISTRICTS
    ensures AccountsOk(DeliverDistrict(db, w, d, carrier).db)
  {
    var ko := DeliveredKey(db, w, d);
    if ko in db.newOrder {
      DeliveredIsOpen(db, w, d);
      DeliveryTotal(db, ko);
      DeliverOrderEffect(db, ko, carrier);
      var r := DeliverOrder(db, ko, carrier);
      assert forall k: OLKey :: k in db.orderLine ==> k.n >= 1;
      hide Consistent, AmountsOk, AccountsOk, Scan, Total, DeliverOrder, DeliveryEffect, Amounts;
      DeliveryKeepsAccounts(db, r, ko, carrier);
    }
  }

  lemma {:induction false} DeliverFromKeepsAccounts(db: Db, w: nat, d: nat, carrier: nat)
    requires Consistent(db) && BacklogStays(db) && LinesOk(db) && AccountsOk(db) && 1 <= carrier <= DISTRICTS
    ensures AccountsOk(DeliverFrom(db, w, d, carrier).db)
    decreases DISTRICTS + 1 - d
  {
    hide Consistent, BacklogStays, AmountsOk, ClocksOk, DatesOk, AccountsOk, DeliverDistrict;
    if d <= DISTRICTS {
      DeliverDistrictKeepsConsistent(db, w, d, carrier);
      DeliverDistrictKeepsBacklog(db, w, d, carrier);
      DeliverDistrictKeepsLines(db, w, d, carrier);
      DeliverDistrictKeepsAccounts(db, w, d, carrier);
      DeliverFromKeepsAccounts(DeliverDistrict(db, w, d, carrier).db, w, d + 1, carrier);
    }
  }

  // ------------------------------------------------------------------ every transaction

  /** An order without a carrier credits nobody with its lines. */
  lemma OpenOrderCreditsNobody(db: Db, r: Db, ko: OKey, c: nat, items: seq<Item>, kc: CKey, x: OLKey)
    requires LinesNumbered(db) && ko !in db.order && NewOrderEffect(db, r, ko, c, items)
    ensures x in r.orderLine && IsCredited(r.order, kc, x) <==> x in db.orderLine && IsCredited(db.order, kc, x)
    ensures x in db.orderLine ==> r.orderLine[x] == db.orderLine[x]
  {
    if x in r.orderLine && x !in db.orderLine {
      assert NewLineKey(x, ko, 0, |items|) && OrderOf(x) == ko;
    }
  }

  lemma NewOrderKeepsCredited(db: Db, r: Db, ko: OKey, c: nat, items: seq<Item>, kc: CKey)
    requires LinesNumbered(db) && ko !in db.order && NewOrderEffect(db, r, ko, c, items)
    ensures Credited(r.orderLine, r.order, kc) == Credited(db.orderLine, db.order, kc)
  {
    hide IsCredited, LinesNumbered, NewOrderEffect;
    LinesStay(db, r, ko, c, items);
    forall x: OLKey
      ensures x in r.orderLine && IsCredited(r.order, kc, x) <==> x in db.orderLine && IsCredited(db.order, kc, x)
      ensures x in db.orderLine ==> x in r.orderLine && r.orderLine[x] == db.orderLine[x]
    {
      OpenOrderCreditsNobody(db, r, ko, c, items, kc, x);
    }
  }

  lemma LinesStay(db: Db, r: Db, ko: OKey, c: nat, items: seq<Item>)
    requires NewOrderEffect(db, r, ko, c, items)
    ensures r.customer == db.customer && forall x: OLKey :: x in db.orderLine ==> x in r.orderLine
  {
  }

  lemma NewOrderKeepsAccounts(db: Db, r: Db, ko: OKey, c: nat, items: seq<Item>)
    requires AccountsOk(db) && LinesNumbered(db) && ko !in db.order && NewOrderEffect(db, r, ko, c, items)
    ensures AccountsOk(r)
  {
    hide Credited, LinesNumbered, NewOrderEffect;
    LinesStay(db, r, ko, c, items);
    forall kc: CKey | kc in r.customer
      ensures AccountOk(r, kc)
    {
      assert AccountOk(db, kc);
      NewOrderKeepsCredited(db, r, ko, c, items, kc);
    }
  }

  lemma PlaceOrderKeepsAccounts(db: Db, w: nat, d: nat, c: nat, items: seq<Item>)
    requires Consistent(db) && AccountsOk(db) && Drawn(db.cfg, NewOrder(w, d, c, items))
    ensures AccountsOk(PlaceOrder(db, w, d, c, items).db)
  {
    NewOrderIsFresh(db, w, d);
    NewOrderCommits(db, w, d, c, items);
    hide Complete, OrderIds, RowsOk, Undelivered, LinesNumbered, PendingIsNewest, LatestIsNewest, PlaceOrder,
         AccountsOk, NewOrderEffect;
    NewOrderKeepsAccounts(db, PlaceOrder(db, w, d, c, items).db, OKey(w, d, NextOid(db, w, d)), c, items);
  }

  /** A payment moves an amount from the balance to the paid total and leaves their sum alone. */
  lemma PayKeepsAccounts(db: Db, w: nat, d: nat, cw: nat, cd: nat, c: nat, amount: int)
    requires AccountsOk(db) && CKey(cw, cd, c) in db.customer
    ensures AccountsOk(Pay(db, w, d, cw, cd, c, amount))
  {
    var r := Pay(db, w, d, cw, cd, c, amount);
    forall kc: CKey | kc in r.customer
      ensures AccountOk(r, kc)
    {
      assert AccountOk(db, kc);
      assert Account(r, kc) == Account(db, kc);
      hide Credited;
    }
  }

  lemma ExecuteKeepsAccounts(db: Db, t: Txn)
    requires Consistent(db) && BacklogStays(db) && LinesOk(db) && AccountsOk(db) && Drawn(db.cfg, t)
    ensures AccountsOk(Execute(db, t).db)
  {
    assert forall k: CKey :: k in db.customer <==> IsCustomer(db.cfg, k);
    hide Consistent, BacklogStays, PlaceOrder, Pay, DeliverFrom, AccountsOk, LinesOk;
    match t
    case NewOrder(w, d, c, items) => PlaceOrderKeepsAccounts(db, w, d, c, items);
    case Payment(w, d, cw, cd, c, amount) =>
      assert IsCustomer(db.cfg, CKey(cw, cd, c));
      PayKeepsAccounts(db, w, d, cw, cd, c, amount);
    case Delivery(w, carrier) => DeliverFromKeepsAccounts(db, w, 1, carrier);
    case OrderStatus(w, d, c) =>
    case StockLevel(w, d, threshold) =>
  }

  // ------------------------------------------------------------------ the credits of one delivery

  /** What a delivery to a district credits: the lines 1 .. 10 of the order it takes, to the order's customer. */
  lemma CreditIsTenLines(db: Db, w: nat, d: nat, kc: CKey)
    requires Consistent(db) && AmountsOk(db) && DeliveredKey(db, w, d) in db.newOrder
    ensures Delivers(db, w, d)
    ensures var ko := DeliveredKey(db, w, d);
            DistrictCredit(db, w, d, kc) ==
            if kc == CKey(w, d, db.order[ko].c) then Sum(Amounts(db.orderLine, ko, 0, 10)) else 0
  {
    DeliveredIsOpen(db, w, d);
    DeliveryTotal(db, DeliveredKey(db, w, d));
    hide Consistent, AmountsOk, Scan, Total, Amounts;
  }
}
