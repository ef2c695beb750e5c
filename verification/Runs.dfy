/**
 The laws over every run of atomic transactions that starts from a loaded database.
 */
module Runs {
  import opened MapSum
  import opened Partition
  import opened Tables
  import opened Scans
  import opened Transactions
  import opened Consistency
  import opened StockLaws
  import opened MoneyLaws
  import opened CustomerLaws
  import opened DeliveryScans
  import opened Deliveries
  import opened PaymentLaws
  import opened Clauses
  import opened DeliveryTotals
  import opened AccountLaws
  import opened LineLaws
  import opened Loader

  /** Everything that holds between two transactions of a run. */
  ghost predicate Laws(loaded: Db, db: Db) {
    && Consistent(db) && StockOk(loaded.stock, db) && MoneyOk(db) && CountsOk(db) && PaymentsOk(db)
    && BacklogStays(db) && LinesOk(db) && AccountsOk(db) && RowsSay(db) && db.item == loaded.item
  }

  // ------------------------------------------------------------------ the loaded database

  lemma LoadedIdsAreOk(db: Db)
    requires Loaded(db)
    ensures Complete(db) && OrderIds(db) && Undelivered(db) && PendingIsNewest(db) && BacklogStays(db)
  {
    hide Dealt;
    assert Complete(db);
    assert OrderIds(db) && Undelivered(db);
  }

  lemma LoadedRowsAreOk(db: Db)
    requires Loaded(db)
    ensures RowsOk(db) && LinesNumbered(db) && LatestIsNewest(db)
  {
    hide Dealt;
    assert RowsOk(db) && LinesNumbered(db);
  }

  lemma LoadedIsConsistent(db: Db)
    requires Loaded(db)
    ensures Consistent(db) && BacklogStays(db)
  {
    hide Loaded, Complete, OrderIds, RowsOk, Undelivered, LinesNumbered, PendingIsNewest, LatestIsNewest, BacklogStays;
    LoadedIdsAreOk(db);
    LoadedRowsAreOk(db);
  }

  lemma LoadedStockIsOk(db: Db)
    requires Loaded(db)
    ensures StockOk(db.stock, db)
  {
    forall k: SKey | k in db.stock
      ensures StockRowOk(db.stock[k], db.stock[k], db.orderLine, k)
    {
      assert LoadedStockRow(db.stock[k]);
      assert Ordered(db.orderLine, k) == map[];
      assert OrderedRemotely(db.orderLine, k) == map[];
    }
  }

  lemma LoadedCountsAreOk(db: Db)
    requires Loaded(db)
    ensures CountsOk(db)
    ensures forall k: CKey :: Account(db, k) == 0
  {
    forall k: CKey | k in db.customer
      ensures db.customer[k].deliveryCnt == |DeliveredTo(db.order, k)|
    {
      assert DeliveredTo(db.order, k) == {};
    }
  }

  ghost function HistoryPrefix(h: map<HKey, int>, w: nat, d: nat, n: nat): map<HKey, int> {
    map k | k in h && k.w == w && k.d == d && k.c <= n :: h[k]
  }

  lemma {:induction false} PrefixTotal(cfg: Config, h: map<HKey, int>, w: nat, d: nat, n: nat)
    requires LoadedHistory(cfg, h) && IsDistrict(cfg, w, d) && n <= CUSTOMERS
    ensures Sum(HistoryPrefix(h, w, d, n)) == FIRST_PAYMENT * n
  {
    if n == 0 {
      assert HistoryPrefix(h, w, d, 0) == map[];
    } else {
      var x := HKey(w, d, w, d, n, n);
      PrefixTotal(cfg, h, w, d, n - 1);
      assert HistoryPrefix(h, w, d, n) == HistoryPrefix(h, w, d, n - 1)[x := FIRST_PAYMENT];
      SumInsert(HistoryPrefix(h, w, d, n - 1), x, FIRST_PAYMENT);
    }
  }

  lemma {:induction false} LoadedYtd(cfg: Config, district: map<DKey, DVal>, w: nat, n: nat)
    requires LoadedDistrict(cfg, district) && 1 <= w <= cfg.warehouses && n <= DISTRICTS
    ensures DistrictsYtd(district, w, n) == DISTRICT_YTD * n
  {
    if n > 0 {
      LoadedYtd(cfg, district, w, n - 1);
      assert DKey(w, n) in district;
    }
  }

  lemma LoadedMoneyIsOk(db: Db)
    requires Loaded(db)
    ensures MoneyOk(db)
  {
    forall k: DKey | k in db.district
      ensures db.district[k].ytd == Sum(DistrictHistory(db.history, k.w, k.d))
    {
      PrefixTotal(db.cfg, db.history, k.w, k.d, CUSTOMERS);
      assert DistrictHistory(db.history, k.w, k.d) == HistoryPrefix(db.history, k.w, k.d, CUSTOMERS);
    }
    forall w: nat | w in db.warehouse
      ensures db.warehouse[w].ytd == DistrictsYtd(db.district, w, DISTRICTS)
    {
      LoadedYtd(db.cfg, db.district, w, DISTRICTS);
    }
    forall k: HKey | k in db.history
      ensures Owner(db.cfg, k.w) in db.clock && k.date < db.clock[Owner(db.cfg, k.w)]
    {
      OwnerIsUnique(db.cfg, k.w);
      assert Owns(db.cfg, Owner(db.cfg, k.w), k.w);
    }
  }

  lemma LoadedPaymentsAreOk(db: Db)
    requires Loaded(db)
    ensures PaymentsOk(db)
  {
    forall k: CKey | k in db.customer
      ensures db.customer[k].ytdPayment == Sum(PaidBy(db.history, k))
      ensures db.customer[k].paymentCnt == |PaidBy(db.history, k)|
    {
      var x := HKey(k.w, k.d, k.w, k.d, k.c, k.c);
      assert IsLoadedHistory(db.cfg, x);
      assert PaidBy(db.history, k) == map[][x := FIRST_PAYMENT];
      SumInsert(map[], x, FIRST_PAYMENT);
    }
  }

  lemma LoadedLinesAreOk(db: Db)
    requires Loaded(db)
    ensures LinesOk(db)
  {
    forall k: OLKey | k in db.orderLine
      ensures AmountOk(k, db.orderLine[k]) && DateOk(db.order, k, db.orderLine[k])
    {
      assert LoadedLineRow(k, db.orderLine[k]);
      assert OrderOf(k) in db.order && LoadedOrderRow(OrderOf(k), db.order[OrderOf(k)]);
    }
  }

  lemma LoadedAccountsAreOk(db: Db)
    requires Loaded(db)
    ensures AccountsOk(db)
  {
    forall kc: CKey | kc in db.customer
      ensures AccountOk(db, kc)
    {
      assert forall k: OKey :: k in db.order ==> LoadedOrderRow(k, db.order[k]);
      assert DeliveredTo(db.order, kc) == {};
      assert Credited(db.orderLine, db.order, kc) == map[];
    }
  }

  lemma LoadedRowsSay(db: Db)
    requires Loaded(db)
    ensures RowsSay(db)
  {
    forall k: OLKey | k in db.orderLine
      ensures k.o <= LOADED_ORDERS
    {
      assert OrderOf(k) in db.order;
    }
    forall ko: OKey | ko in db.order
      ensures db.order[ko].allLocal <==> SuppliedAtHome(db.orderLine, ko)
    {
      assert LoadedOrderRow(ko, db.order[ko]);
      forall n: nat | OLKey(ko.w, ko.d, ko.o, n) in db.orderLine
        ensures db.orderLine[OLKey(ko.w, ko.d, ko.o, n)].supply == ko.w
      {
        assert LoadedLineRow(OLKey(ko.w, ko.d, ko.o, n), db.orderLine[OLKey(ko.w, ko.d, ko.o, n)]);
      }
    }
  }

  lemma LoadedKeepsLaws(db: Db)
    requires Loaded(db)
    ensures Laws(db, db)
  {
    hide *;
    LoadedIsConsistent(db);
    LoadedStockIsOk(db);
    LoadedCountsAreOk(db);
    LoadedMoneyIsOk(db);
    LoadedPaymentsAreOk(db);
    LoadedLinesAreOk(db);
    LoadedAccountsAreOk(db);
    LoadedRowsSay(db);
    assert Laws(db, db) by { LawsHold(db, db); }
  }

  lemma LawsHold(loaded: Db, db: Db)
    requires Consistent(db) && StockOk(loaded.stock, db) && MoneyOk(db) && CountsOk(db) && PaymentsOk(db)
    requires BacklogStays(db) && LinesOk(db) && AccountsOk(db) && RowsSay(db) && db.item == loaded.item
    ensures Laws(loaded, db)
  {
  }

  // ------------------------------------------------------------------ every run

  lemma ExecuteKeepsLaws(loaded: Db, db: Db, t: Txn)
    requires Laws(loaded, db) && Drawn(db.cfg, t)
    ensures Execute(db, t).done && Laws(loaded, Execute(db, t).db)
    ensures Execute(db, t).db.cfg == db.cfg
  {
    hide Consistent, StockOk, HistoryStamped, DistrictMoney, WarehouseMoney, CountsOk, PaymentsOk, BacklogStays,
         LinesOk, AccountsOk, RowsSay, Execute, Drawn;
    ExecuteKeepsConsistent(db, t);
    ExecuteKeepsStock(loaded.stock, db, t);
    ExecuteKeepsMoney(db, t);
    ExecuteKeepsCounts(db, t);
    ExecuteKeepsPayments(db, t);
    ExecuteKeepsBacklog(db, t);
    ExecuteKeepsLines(db, t);
    ExecuteKeepsAccounts(db, t);
    ExecuteKeepsRows(db, t);
    ExecuteKeepsItems(db, t);
  }

  /** Every database of every run from a loaded one satisfies all the laws. */
  lemma {:induction false} EveryRunKeepsLaws(dbs: seq<Db>, ts: seq<Txn>, k: nat)
    requires Atomic(dbs, ts) && Loaded(dbs[0]) && k < |dbs|
    ensures Laws(dbs[0], dbs[k]) && dbs[k].cfg == dbs[0].cfg
  {
    hide Laws, Loaded, Execute, Drawn;
    if k == 0 {
      LoadedKeepsLaws(dbs[0]);
    } else {
      EveryRunKeepsLaws(dbs, ts, k - 1);
      ExecuteKeepsLaws(dbs[0], dbs[k - 1], ts[k - 1]);
    }
  }

  /** Clauses 3.3.2.1, 3.3.2.8 and 3.3.2.9 over every run. */
  lemma RunBalances(dbs: seq<Db>, ts: seq<Txn>, k: nat, w: nat, d: nat)
    requires Atomic(dbs, ts) && Loaded(dbs[0]) && k < |dbs| && IsDistrict(dbs[0].cfg, w, d)
    ensures w in dbs[k].warehouse && DKey(w, d) in dbs[k].district
    ensures dbs[k].warehouse[w].ytd == DistrictsYtd(dbs[k].district, w, DISTRICTS)
    ensures dbs[k].warehouse[w].ytd == Sum(WarehouseHistory(dbs[k].history, w))
    ensures dbs[k].district[DKey(w, d)].ytd == Sum(DistrictHistory(dbs[k].history, w, d))
  {
    EveryRunKeepsLaws(dbs, ts, k);
    hide Atomic, Loaded;
    WarehouseBalances(dbs[k], w);
    assert DKey(w, d) in dbs[k].district;
  }

  /** The stock counters over every run: s_ytd, s_order_cnt, s_remote_cnt and s_quantity of a row. */
  lemma RunStock(dbs: seq<Db>, ts: seq<Txn>, k: nat, ks: SKey)
    requires Atomic(dbs, ts) && Loaded(dbs[0]) && k < |dbs| && IsStock(dbs[0].cfg, ks)
    ensures ks in dbs[0].stock && ks in dbs[k].stock
    ensures StockRowOk(dbs[0].stock[ks], dbs[k].stock[ks], dbs[k].orderLine, ks)
  {
    EveryRunKeepsLaws(dbs, ts, k);
    hide Atomic, Loaded, StockRowOk;
    StockRowLoaded(dbs[0], dbs[k], ks);
  }

  lemma StockRowLoaded(loaded: Db, db: Db, k: SKey)
    requires Laws(loaded, db) && IsStock(db.cfg, k)
    ensures k in db.stock && k in loaded.stock
    ensures StockRowOk(loaded.stock[k], db.stock[k], db.orderLine, k)
  {
    hide StockRowOk;
    assert Complete(db);
  }

  lemma RunIsConsistent(dbs: seq<Db>, ts: seq<Txn>, k: nat)
    requires Atomic(dbs, ts) && Loaded(dbs[0]) && k < |dbs|
    ensures Consistent(dbs[k])
  {
    EveryRunKeepsLaws(dbs, ts, k);
    hide Atomic, Loaded, Consistent;
  }

  /** An account holds what the deliveries of the run have credited. */
  lemma {:induction false} RunCredits(dbs: seq<Db>, ts: seq<Txn>, k: nat, kc: CKey)
    requires Atomic(dbs, ts) && Loaded(dbs[0]) && k < |dbs|
    ensures Account(dbs[k], kc) == RunCredit(dbs, ts, k, kc)
  {
    hide Loaded, Execute, Drawn, Account, Credit, Consistent;
    if k == 0 {
      LoadedCountsAreOk(dbs[0]);
    } else {
      RunIsConsistent(dbs, ts, k - 1);
      RunCredits(dbs, ts, k - 1, kc);
      ExecuteCredits(dbs[k - 1], ts[k - 1], kc);
    }
  }

  /**
   The customer counters over every run. An account, balance plus payments, holds the lines 1 .. 10 of the customer's
   delivered orders, which is what the deliveries of the run have credited.
   */
  lemma RunCustomers(dbs: seq<Db>, ts: seq<Txn>, k: nat, kc: CKey)
    requires Atomic(dbs, ts) && Loaded(dbs[0]) && k < |dbs| && IsCustomer(dbs[0].cfg, kc)
    ensures kc in dbs[k].customer
    ensures dbs[k].customer[kc].deliveryCnt == |DeliveredTo(dbs[k].order, kc)|
    ensures dbs[k].customer[kc].balance + dbs[k].customer[kc].ytdPayment
         == Sum(Credited(dbs[k].orderLine, dbs[k].order, kc))
    ensures Sum(Credited(dbs[k].orderLine, dbs[k].order, kc)) == RunCredit(dbs, ts, k, kc)
  {
    EveryRunKeepsLaws(dbs, ts, k);
    RunCredits(dbs, ts, k, kc);
    hide Atomic, Loaded, RunCredit, OrderIds, RowsOk, Undelivered, LinesNumbered, PendingIsNewest, LatestIsNewest,
         MoneyOk, StockOk, BacklogStays, LinesOk, PaymentsOk, DeliveredTo, Credited;
    assert Complete(dbs[k]) && kc in dbs[k].customer;
    assert AccountOk(dbs[k], kc);
  }

  /**
   The payment columns over every run; so a balance is the total of the lines 1 .. 10 of the customer's delivered
   orders minus what the history says was paid.
   */
  lemma RunPayments(dbs: seq<Db>, ts: seq<Txn>, k: nat, kc: CKey)
    requires Atomic(dbs, ts) && Loaded(dbs[0]) && k < |dbs| && IsCustomer(dbs[0].cfg, kc)
    ensures kc in dbs[k].customer
    ensures dbs[k].customer[kc].ytdPayment == Sum(PaidBy(dbs[k].history, kc))
    ensures dbs[k].customer[kc].paymentCnt == |PaidBy(dbs[k].history, kc)|
    ensures dbs[k].customer[kc].balance
         == Sum(Credited(dbs[k].orderLine, dbs[k].order, kc)) - Sum(PaidBy(dbs[k].history, kc))
  {
    EveryRunKeepsLaws(dbs, ts, k);
    RunCustomers(dbs, ts, k, kc);
    hide Atomic, Loaded, RunCredit, Consistent, MoneyOk, StockOk, CountsOk, BacklogStays, LinesOk, AccountsOk, PaidBy,
         Credited;
  }

  /**
   The order lines over every run: the amount of a line of the run is its quantity times the price its item was loaded
   with, and an order is marked local exactly when its own warehouse supplies all its lines.
   */
  lemma RunLines(dbs: seq<Db>, ts: seq<Txn>, k: nat, x: OLKey, ko: OKey)
    requires Atomic(dbs, ts) && Loaded(dbs[0]) && k < |dbs|
    ensures x in dbs[k].orderLine && x.o > LOADED_ORDERS ==>
              var v := dbs[k].orderLine[x]; v.i in dbs[0].item && v.amount == v.qty * dbs[0].item[v.i].price
    ensures ko in dbs[k].order ==>
              (dbs[k].order[ko].allLocal <==>
               forall n: nat :: OLKey(ko.w, ko.d, ko.o, n) in dbs[k].orderLine ==>
                 dbs[k].orderLine[OLKey(ko.w, ko.d, ko.o, n)].supply == ko.w)
  {
    EveryRunKeepsLaws(dbs, ts, k);
    hide Atomic, Loaded, Consistent, StockOk, MoneyOk, CountsOk, PaymentsOk, BacklogStays, LinesOk, AccountsOk;
    if x in dbs[k].orderLine && x.o > LOADED_ORDERS {
      assert IsPriced(dbs[k].item, dbs[k].orderLine[x]);
    }
    if ko in dbs[k].order {
      assert dbs[k].order[ko].allLocal <==> SuppliedAtHome(dbs[k].orderLine, ko);
    }
  }

  lemma {:induction false} StaysDelivered(dbs: seq<Db>, ts: seq<Txn>, j: nat, k: nat, ko: OKey, vo: OVal)
    requires Atomic(dbs, ts) && Loaded(dbs[0]) && j <= k < |dbs| && IsDelivered(dbs[j], ko, vo)
    ensures IsDelivered(dbs[k], ko, vo)
    decreases k
  {
    hide IsDelivered, Loaded, Consistent, Execute, Drawn;
    if j < k {
      RunIsConsistent(dbs, ts, k - 1);
      StaysDelivered(dbs, ts, j, k - 1, ko, vo);
      ExecuteKeepsDelivered(dbs[k - 1], ts[k - 1], ko, vo);
    }
  }

  /**
   An order is delivered at most once: as soon as it has a carrier, its row never changes and no NEW-ORDER row names
   it.
   */
  lemma DeliveredOnce(dbs: seq<Db>, ts: seq<Txn>, j: nat, k: nat, ko: OKey)
    requires Atomic(dbs, ts) && Loaded(dbs[0]) && j <= k < |dbs|
    requires ko in dbs[j].order && dbs[j].order[ko].carrier != 0
    ensures ko in dbs[k].order && dbs[k].order[ko] == dbs[j].order[ko] && ko !in dbs[k].newOrder
  {
    RunIsConsistent(dbs, ts, j);
    assert IsDelivered(dbs[j], ko, dbs[j].order[ko]) by {
      hide Atomic, Loaded, Complete, OrderIds, RowsOk, LinesNumbered, PendingIsNewest, LatestIsNewest;
    }
    hide Atomic, Loaded, Consistent;
    StaysDelivered(dbs, ts, j, k, ko, dbs[j].order[ko]);
  }

  /** The delivery scan over every run, in every database in which a delivery turns to a district and finds an order. */
  lemma RunDeliveryScan(dbs: seq<Db>, ts: seq<Txn>, k: nat, carrier: nat, w: nat, d: nat)
    requires Atomic(dbs, ts) && Loaded(dbs[0]) && k < |dbs| && IsDistrict(dbs[0].cfg, w, d) && 1 <= carrier <= DISTRICTS
    requires DeliveredKey(Turned(dbs[k], w, d, carrier), w, d) in Turned(dbs[k], w, d, carrier).newOrder
    ensures var mid := Turned(dbs[k], w, d, carrier);
            var ko := DeliveredKey(mid, w, d);
            ko in mid.order && ScanShape(mid.cfg, DeliveryScan(mid, ko), ko, mid.order[ko].olCnt)
    ensures DeliverFrom(dbs[k], w, 1, carrier) == DeliverFrom(Turned(dbs[k], w, d, carrier), w, d, carrier)
  {
    RunIsConsistent(dbs, ts, k);
    hide Atomic, Loaded, Consistent, ScanShape, Turned, DeliverFrom;
    TurnScanShape(dbs[k], w, d, carrier);
    LoopTurns(dbs[k], w, d, carrier);
  }

  /**
   The total of every delivery over every run: the lines 1 .. 10 of the order, so all of its lines exactly when it has
   at most ten.
   */
  lemma RunDeliveryTotal(dbs: seq<Db>, ts: seq<Txn>, k: nat, carrier: nat, w: nat, d: nat)
    requires Atomic(dbs, ts) && Loaded(dbs[0]) && k < |dbs| && IsDistrict(dbs[0].cfg, w, d) && 1 <= carrier <= DISTRICTS
    requires DeliveredKey(Turned(dbs[k], w, d, carrier), w, d) in Turned(dbs[k], w, d, carrier).newOrder
    ensures var mid := Turned(dbs[k], w, d, carrier);
            var ko := DeliveredKey(mid, w, d);
            && ko in mid.order
            && Total(DeliveryScan(mid, ko)) == Sum(Amounts(mid.orderLine, ko, 0, 10))
            && (Total(DeliveryScan(mid, ko)) == Sum(Amounts(mid.orderLine, ko, 0, mid.order[ko].olCnt))
                <==> mid.order[ko].olCnt <= 10)
  {
    EveryRunKeepsLaws(dbs, ts, k);
    hide Atomic, Loaded, Consistent, StockOk, MoneyOk, CountsOk, PaymentsOk, BacklogStays, LinesOk, AccountsOk, Turned,
         Scan, Total, Amounts;
    TurnTotal(dbs[k], w, d, carrier);
  }

  /** Clause 3.3.2.7 over every run: it fails of exactly the delivered orders of more than ten lines. */
  lemma RunDates(dbs: seq<Db>, ts: seq<Txn>, k: nat, ko: OKey)
    requires Atomic(dbs, ts) && Loaded(dbs[0]) && k < |dbs| && ko in dbs[k].order
    ensures DatesClause(dbs[k], ko)
       <==> dbs[k].order[ko].carrier == 0 || ko.o < FIRST_OPEN || dbs[k].order[ko].olCnt <= 10
  {
    EveryRunKeepsLaws(dbs, ts, k);
    hide Atomic, Loaded, Consistent, StockOk, MoneyOk, CountsOk, PaymentsOk, BacklogStays, AccountsOk, DatesClause,
         DatesOk;
    DatesClauseExactly(dbs[k], ko);
  }

  /**
   Clause 3.3.2.2 holds of a loaded district, and its first delivery breaks it although there is no order of the
   run.
   */
  lemma FirstDeliveryBreaksNextId(db: Db, w: nat, d: nat, carrier: nat)
    requires Loaded(db) && IsDistrict(db.cfg, w, d) && 1 <= carrier <= DISTRICTS
    ensures NextIdHolds(db, w, d) && !NextIdHolds(DeliverDistrict(db, w, d, carrier).db, w, d)
    ensures forall k: OKey :: k in DeliverDistrict(db, w, d, carrier).db.order && k.w == w && k.d == d ==>
              k.o <= LOADED_ORDERS
  {
    LoadedIsConsistent(db);
    assert DKey(w, d) in db.district && db.district[DKey(w, d)].nextOid == FIRST_NEXT;
    assert OKey(w, d, LOADED_ORDERS) in db.newOrder;
    hide Loaded, Consistent, BacklogStays, NextIdHolds, DeliverDistrict;
    NextIdClause(db, w, d);
    DeliveryBreaksNextId(db, w, d, carrier);
  }
}
