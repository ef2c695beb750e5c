/**
 C_YTD_PAYMENT and C_PAYMENT_CNT are the sum and the number of the HISTORY rows that name
 the customer.
 */
module PaymentLaws {
  import opened MapSum
  import opened Partition
  import opened Tables
  import opened Scans
  import opened Transactions
  import opened Consistency
  import opened MoneyLaws

  /** H_AMOUNT of the rows of one customer, whatever warehouse they were paid at. */
  ghost function PaidBy(h: map<HKey, int>, kc: CKey): map<HKey, int> {
    map k | k in h && k.cw == kc.w && k.cd == kc.d && k.c == kc.c :: h[k]
  }

  ghost predicate PaymentsOk(db: Db) {
    forall kc: CKey :: kc in db.customer ==>
      && db.customer[kc].ytdPayment == Sum(PaidBy(db.history, kc))
      && db.customer[kc].paymentCnt == |PaidBy(db.history, kc)|
  }

  lemma PaidByInsert(h: map<HKey, int>, x: HKey, v: int, kc: CKey)
    requires x !in h
    ensures Sum(PaidBy(h[x := v], kc)) == Sum(PaidBy(h, kc)) + if kc == CKey(x.cw, x.cd, x.c) then v else 0
    ensures |PaidBy(h[x := v], kc)| == |PaidBy(h, kc)| + if kc == CKey(x.cw, x.cd, x.c) then 1 else 0
  {
    if kc == CKey(x.cw, x.cd, x.c) {
      assert PaidBy(h[x := v], kc) == PaidBy(h, kc)[x := v];
      SumInsert(PaidBy(h, kc), x, v);
      assert PaidBy(h, kc)[x := v].Keys == PaidBy(h, kc).Keys + {x};
    } else {
      assert PaidBy(h[x := v], kc) == PaidBy(h, kc);
    }
  }

  /** What a payment does to the customer rows. */
  ghost predicate PaidBack(db: Db, r: Db, x: HKey, amount: int) {
    var kc := CKey(x.cw, x.cd, x.c);
    && kc in db.customer && kc in r.customer && x !in db.history && r.history == db.history[x := amount]
    && r.customer == db.customer[kc := r.customer[kc]]
    && r.customer[kc].ytdPayment == db.customer[kc].ytdPayment + amount
    && r.customer[kc].paymentCnt == db.customer[kc].paymentCnt + 1
  }

  lemma PaidBackKeepsPayments(db: Db, r: Db, x: HKey, amount: int)
    requires PaymentsOk(db) && PaidBack(db, r, x, amount)
    ensures PaymentsOk(r)
  {
    forall kc: CKey | kc in r.customer
      ensures r.customer[kc].ytdPayment == Sum(PaidBy(r.history, kc))
      ensures r.customer[kc].paymentCnt == |PaidBy(r.history, kc)|
    {
      PaidByInsert(db.history, x, amount, kc);
      hide PaidBy;
    }
  }

  lemma PayKeepsPayments(db: Db, w: nat, d: nat, cw: nat, cd: nat, c: nat, amount: int)
    requires Complete(db) && HistoryStamped(db) && PaymentsOk(db) && Drawn(db.cfg, Payment(w, d, cw, cd, c, amount))
    ensures PaymentsOk(Pay(db, w, d, cw, cd, c, amount))
  {
    PaymentKeyIsFresh(db, w, d, cw, cd, c);
    assert IsCustomer(db.cfg, CKey(cw, cd, c));
    hide PaymentsOk, PaidBy, Complete, HistoryStamped;
    PaidBackKeepsPayments(db, Pay(db, w, d, cw, cd, c, amount), HKey(w, d, cw, cd, c, Now(db, w)), amount);
  }

  lemma CreditKeepsPayments(db: Db, r: Db, kc: CKey, total: int)
    requires PaymentsOk(db) && kc in db.customer && r.history == db.history
    requires r.customer == CreditCustomer(db, kc, total)
    ensures PaymentsOk(r)
  {
  }

  lemma DeliverDistrictKeepsPayments(db: Db, w: nat, d: nat, carrier: nat)
    requires Consistent(db) && PaymentsOk(db) && 1 <= carrier <= DISTRICTS
    ensures PaymentsOk(DeliverDistrict(db, w, d, carrier).db)
  {
    var ko := DeliveredKey(db, w, d);
    if ko in db.newOrder {
      assert ko in db.order && DKey(w, d) in db.district && OrderRow(db.order[ko]);
      assert IsCustomer(db.cfg, CKey(w, d, db.order[ko].c));
      DeliverOrderEffect(db, ko, carrier);
      hide PaymentsOk, DeliverOrder, Consistent, OnlyStamped, CreditCustomer;
      CreditKeepsPayments(db, DeliverOrder(db, ko, carrier), CKey(w, d, db.order[ko].c), Total(DeliveryScan(db, ko)));
    }
  }

  lemma {:induction false} DeliverFromKeepsPayments(db: Db, w: nat, d: nat, carrier: nat)
    requires Consistent(db) && PaymentsOk(db) && 1 <= carrier <= DISTRICTS
    ensures PaymentsOk(DeliverFrom(db, w, d, carrier).db)
    decreases DISTRICTS + 1 - d
  {
    hide Consistent, PaymentsOk, DeliverDistrict;
    if d <= DISTRICTS {
      DeliverDistrictKeepsConsistent(db, w, d, carrier);
      DeliverDistrictKeepsPayments(db, w, d, carrier);
      DeliverFromKeepsPayments(DeliverDistrict(db, w, d, carrier).db, w, d + 1, carrier);
    }
  }

  lemma PlaceOrderKeepsPayments(db: Db, w: nat, d: nat, c: nat, items: seq<Item>)
    requires Consistent(db) && PaymentsOk(db) && Drawn(db.cfg, NewOrder(w, d, c, items))
    ensures PaymentsOk(PlaceOrder(db, w, d, c, items).db)
  {
    hide Consistent, PlaceOrder, PaidBy;
    NewOrderCommits(db, w, d, c, items);
  }

  /** Every transaction keeps the customers' payment columns equal to the history. */
  lemma ExecuteKeepsPayments(db: Db, t: Txn)
    requires Consistent(db) && HistoryStamped(db) && PaymentsOk(db) && Drawn(db.cfg, t)
    ensures PaymentsOk(Execute(db, t).db)
  {
    hide PaymentsOk, PlaceOrder, Pay, DeliverFrom, HistoryStamped, Complete, OrderIds, RowsOk, Undelivered,
         LinesNumbered, PendingIsNewest, LatestIsNewest;
    match t
    case NewOrder(w, d, c, items) => PlaceOrderKeepsPayments(db, w, d, c, items);
    case Payment(w, d, cw, cd, c, amount) => PayKeepsPayments(db, w, d, cw, cd, c, amount);
    case Delivery(w, carrier) => DeliverFromKeepsPayments(db, w, 1, carrier);
    case OrderStatus(w, d, c) =>
    case StockLevel(w, d, threshold) =>
  }

  /**
   What a payment makes of every table: the amount moves into warehouse and district, from the balance to the payments
   of the customer, who may be another warehouse's, and into one new history row; everything else stays.
   */
  lemma PaymentMovesAmount(db: Db, w: nat, d: nat, cw: nat, cd: nat, c: nat, amount: int)
    requires Consistent(db) && HistoryStamped(db) && Drawn(db.cfg, Payment(w, d, cw, cd, c, amount))
    ensures w in db.warehouse && DKey(w, d) in db.district && CKey(cw, cd, c) in db.customer
    ensures var r, kd, kc := Execute(db, Payment(w, d, cw, cd, c, amount)).db, DKey(w, d), CKey(cw, cd, c);
            var v, x := db.customer[kc], HKey(w, d, cw, cd, c, Now(db, w));
            && x !in db.history && r.history == db.history[x := amount]
            && r.warehouse == db.warehouse[w := WVal(db.warehouse[w].ytd + amount)]
            && r.district == db.district[kd := DVal(db.district[kd].ytd + amount, db.district[kd].nextOid)]
            && r.customer == db.customer[kc := CVal(v.balance - amount, v.ytdPayment + amount, v.paymentCnt + 1,
                                                    v.deliveryCnt)]
            && r == db.(warehouse := r.warehouse, district := r.district, customer := r.customer,
                        history := r.history, clock := r.clock)
  {
    PaymentKeyIsFresh(db, w, d, cw, cd, c);
    assert w in db.warehouse && DKey(w, d) in db.district;
    assert CKey(cw, cd, c) in db.customer by { assert IsCustomer(db.cfg, CKey(cw, cd, c)); }
    hide Consistent, HistoryStamped, Drawn, Now, Worker;
    PayIs(db, w, d, cw, cd, c, amount);
  }

  lemma PayIs(db: Db, w: nat, d: nat, cw: nat, cd: nat, c: nat, amount: int)
    requires w in db.warehouse && DKey(w, d) in db.district && CKey(cw, cd, c) in db.customer
    ensures var v := db.customer[CKey(cw, cd, c)];
            Pay(db, w, d, cw, cd, c, amount) ==
            db.(warehouse := db.warehouse[w := WVal(db.warehouse[w].ytd + amount)],
                district := db.district[DKey(w, d) := DVal(db.district[DKey(w, d)].ytd + amount,
                                                           db.district[DKey(w, d)].nextOid)],
                customer := db.customer[CKey(cw, cd, c) := CVal(v.balance - amount, v.ytdPayment + amount,
                                                                v.paymentCnt + 1, v.deliveryCnt)],
                history := db.history[HKey(w, d, cw, cd, c, Now(db, w)) := amount], clock := Tick(db, w))
  {
    hide Now, Worker;
  }
}
