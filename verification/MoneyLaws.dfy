/**
 W_YTD, D_YTD and the HISTORY table (clauses 3.3.2.1, 3.3.2.8 and 3.3.2.9 of TPC-C). The
 laws rest on no history row ever being overwritten.
 */
module MoneyLaws {
  import opened MapSum
  import opened Partition
  import opened Tables
  import opened Scans
  import opened Transactions
  import opened Consistency

  /** H_AMOUNT of the rows of one district. */
  ghost function DistrictHistory(h: map<HKey, int>, w: nat, d: nat): map<HKey, int> {
    map k | k in h && k.w == w && k.d == d :: h[k]
  }

  /** H_AMOUNT of the rows of a warehouse, districts 1 .. n. */
  ghost function HistoryUpTo(h: map<HKey, int>, w: nat, n: nat): map<HKey, int> {
    map k | k in h && k.w == w && k.d <= n :: h[k]
  }

  ghost function WarehouseHistory(h: map<HKey, int>, w: nat): map<HKey, int> {
    map k | k in h && k.w == w :: h[k]
  }

  /** The sum of D_YTD over districts 1 .. n. */
  function DistrictsYtd(district: map<DKey, DVal>, w: nat, n: nat): int {
    if n == 0 then 0 else DistrictsYtd(district, w, n - 1) + Row(district, DKey(w, n), NO_DISTRICT).ytd
  }

  /** Every row was stamped by the owner of its warehouse, before the owner's clock. */
  ghost predicate HistoryStamped(db: Db) {
    db.cfg.workers > 0 &&
    forall k: HKey :: k in db.history ==>
      IsDistrict(db.cfg, k.w, k.d) && Owner(db.cfg, k.w) in db.clock && k.date < db.clock[Owner(db.cfg, k.w)]
  }

  ghost predicate DistrictMoney(db: Db) {
    forall k: DKey :: k in db.district ==> db.district[k].ytd == Sum(DistrictHistory(db.history, k.w, k.d))
  }

  ghost predicate WarehouseMoney(db: Db) {
    forall w: nat :: w in db.warehouse ==> db.warehouse[w].ytd == DistrictsYtd(db.district, w, DISTRICTS)
  }

  ghost predicate MoneyOk(db: Db) {
    HistoryStamped(db) && DistrictMoney(db) && WarehouseMoney(db)
  }

  /** A payment's history key is unused. */
  lemma PaymentKeyIsFresh(db: Db, w: nat, d: nat, cw: nat, cd: nat, c: nat)
    requires Complete(db) && HistoryStamped(db) && 1 <= w <= db.cfg.warehouses
    ensures HKey(w, d, cw, cd, c, Now(db, w)) !in db.history
  {
  }

  lemma HistoryInsert(h: map<HKey, int>, x: HKey, v: int, w: nat, d: nat)
    requires x !in h
    ensures Sum(DistrictHistory(h[x := v], w, d))
         == Sum(DistrictHistory(h, w, d)) + if x.w == w && x.d == d then v else 0
  {
    if x.w == w && x.d == d {
      assert DistrictHistory(h[x := v], w, d) == DistrictHistory(h, w, d)[x := v];
      SumInsert(DistrictHistory(h, w, d), x, v);
    } else {
      assert DistrictHistory(h[x := v], w, d) == DistrictHistory(h, w, d);
    }
  }

  lemma {:induction false} YtdUpdate(district: map<DKey, DVal>, k: DKey, v: DVal, w: nat, n: nat)
    requires 1 <= k.d && k in district
    ensures DistrictsYtd(district[k := v], w, n)
         == DistrictsYtd(district, w, n) + if k.w == w && k.d <= n then v.ytd - district[k].ytd else 0
  {
    if n > 0 {
      YtdUpdate(district, k, v, w, n - 1);
      assert k == DKey(w, n) <==> k.w == w && k.d == n;
    }
  }

  lemma OwnerClock(db: Db, w: nat)
    requires Complete(db) && 1 <= w <= db.cfg.warehouses
    ensures Worker(db.cfg, w) == Owner(db.cfg, w) && Owner(db.cfg, w) in db.clock
    ensures Now(db, w) == db.clock[Owner(db.cfg, w)]
  {
    OwnerIsUnique(db.cfg, w);
    assert Owns(db.cfg, Owner(db.cfg, w), w);
  }

  lemma PayKeepsStamps(db: Db, w: nat, d: nat, cw: nat, cd: nat, c: nat, amount: int)
    requires Complete(db) && HistoryStamped(db) && Drawn(db.cfg, Payment(w, d, cw, cd, c, amount))
    ensures HistoryStamped(Pay(db, w, d, cw, cd, c, amount))
  {
    OwnerClock(db, w);
    hide Complete;
    assert IsDistrict(db.cfg, w, d);
  }

  /** What a payment does to the three balances. */
  ghost predicate PaidInto(db: Db, r: Db, kd: DKey, x: HKey, amount: int) {
    && kd in db.district && kd.w in db.warehouse && x !in db.history && x.w == kd.w && x.d == kd.d
    && r.warehouse == db.warehouse[kd.w := WVal(db.warehouse[kd.w].ytd + amount)]
    && r.district == db.district[kd := db.district[kd].(ytd := db.district[kd].ytd + amount)]
    && r.history == db.history[x := amount]
  }

  lemma PayShape(db: Db, w: nat, d: nat, cw: nat, cd: nat, c: nat, amount: int)
    requires Complete(db) && HistoryStamped(db) && Drawn(db.cfg, Payment(w, d, cw, cd, c, amount))
    ensures PaidInto(db, Pay(db, w, d, cw, cd, c, amount), DKey(w, d), HKey(w, d, cw, cd, c, Now(db, w)), amount)
  {
    PaymentKeyIsFresh(db, w, d, cw, cd, c);
    assert DKey(w, d) in db.district && w in db.warehouse;
  }

  lemma PaidKeepsBalances(db: Db, r: Db, kd: DKey, x: HKey, amount: int)
    requires DistrictMoney(db) && WarehouseMoney(db) && 1 <= kd.d <= DISTRICTS && PaidInto(db, r, kd, x, amount)
    ensures DistrictMoney(r) && WarehouseMoney(r)
  {
    hide DistrictHistory, DistrictsYtd;
    forall k: DKey | k in r.district
      ensures r.district[k].ytd == Sum(DistrictHistory(r.history, k.w, k.d))
    {
      HistoryInsert(db.history, x, amount, k.w, k.d);
    }
    forall w: nat | w in r.warehouse
      ensures r.warehouse[w].ytd == DistrictsYtd(r.district, w, DISTRICTS)
    {
      YtdUpdate(db.district, kd, r.district[kd], w, DISTRICTS);
    }
  }

  lemma PayKeepsMoney(db: Db, w: nat, d: nat, cw: nat, cd: nat, c: nat, amount: int)
    requires Complete(db) && MoneyOk(db) && Drawn(db.cfg, Payment(w, d, cw, cd, c, amount))
    ensures MoneyOk(Pay(db, w, d, cw, cd, c, amount))
  {
    PayKeepsStamps(db, w, d, cw, cd, c, amount);
    PayShape(db, w, d, cw, cd, c, amount);
    hide Complete, HistoryStamped, DistrictMoney, WarehouseMoney, Pay, PaidInto;
    PaidKeepsBalances(db, Pay(db, w, d, cw, cd, c, amount), DKey(w, d), HKey(w, d, cw, cd, c, Now(db, w)), amount);
  }

  /** Steps that keep HISTORY, W_YTD and D_YTD, and only advance clocks, keep the laws. */
  lemma UntouchedMoney(db: Db, r: Db)
    requires MoneyOk(db) && r.cfg == db.cfg && r.warehouse == db.warehouse && r.history == db.history
    requires r.district.Keys == db.district.Keys
    requires forall k: DKey :: k in db.district ==> r.district[k].ytd == db.district[k].ytd
    requires forall i :: i in db.clock ==> i in r.clock && db.clock[i] <= r.clock[i]
    ensures MoneyOk(r)
  {
    assert HistoryStamped(r) && DistrictMoney(r);
    hide HistoryStamped, DistrictMoney;
    forall w: nat | w in r.warehouse
      ensures r.warehouse[w].ytd == DistrictsYtd(r.district, w, DISTRICTS)
    {
      SameYtd(db.district, r.district, w, DISTRICTS);
    }
  }

  lemma {:induction false} SameYtd(a: map<DKey, DVal>, b: map<DKey, DVal>, w: nat, n: nat)
    requires a.Keys == b.Keys && forall k: DKey :: k in a ==> a[k].ytd == b[k].ytd
    ensures DistrictsYtd(a, w, n) == DistrictsYtd(b, w, n)
  {
    if n > 0 {
      SameYtd(a, b, w, n - 1);
    }
  }

  lemma NewOrderKeepsMoney(db: Db, r: Db, ko: OKey, c: nat, items: seq<Item>)
    requires Complete(db) && MoneyOk(db) && IsDistrict(db.cfg, ko.w, ko.d) && NewOrderEffect(db, r, ko, c, items)
    ensures MoneyOk(r)
  {
    assert DKey(ko.w, ko.d) in db.district;
    OwnerClock(db, ko.w);
    assert r.district.Keys == db.district.Keys;
    hide MoneyOk, Complete;
    UntouchedMoney(db, r);
  }

  lemma PlaceOrderKeepsMoney(db: Db, w: nat, d: nat, c: nat, items: seq<Item>)
    requires Consistent(db) && MoneyOk(db) && Drawn(db.cfg, NewOrder(w, d, c, items))
    ensures MoneyOk(PlaceOrder(db, w, d, c, items).db)
  {
    assert Complete(db);
    hide MoneyOk, Consistent, Complete, PlaceOrder, NewOrderEffect;
    NewOrderCommits(db, w, d, c, items);
    NewOrderKeepsMoney(db, PlaceOrder(db, w, d, c, items).db, OKey(w, d, NextOid(db, w, d)), c, items);
  }

  lemma DeliverDistrictKeepsMoney(db: Db, w: nat, d: nat, carrier: nat)
    requires Consistent(db) && MoneyOk(db) && 1 <= carrier <= DISTRICTS
    ensures MoneyOk(DeliverDistrict(db, w, d, carrier).db)
  {
    var ko := DeliveredKey(db, w, d);
    if ko in db.newOrder {
      assert ko in db.order && DKey(w, d) in db.district;
      DeliverOrderEffect(db, ko, carrier);
      hide MoneyOk, Consistent, DeliverOrder;
      UntouchedMoney(db, DeliverOrder(db, ko, carrier));
    }
  }

  lemma {:induction false} DeliverFromKeepsMoney(db: Db, w: nat, d: nat, carrier: nat)
    requires Consistent(db) && MoneyOk(db) && 1 <= carrier <= DISTRICTS
    ensures MoneyOk(DeliverFrom(db, w, d, carrier).db)
    decreases DISTRICTS + 1 - d
  {
    hide Consistent, MoneyOk, DeliverDistrict;
    if d <= DISTRICTS {
      DeliverDistrictKeepsConsistent(db, w, d, carrier);
      DeliverDistrictKeepsMoney(db, w, d, carrier);
      DeliverFromKeepsMoney(DeliverDistrict(db, w, d, carrier).db, w, d + 1, carrier);
    }
  }

  lemma ExecuteKeepsMoney(db: Db, t: Txn)
    requires Consistent(db) && Drawn(db.cfg, t) && MoneyOk(db)
    ensures MoneyOk(Execute(db, t).db)
  {
    hide MoneyOk, PlaceOrder, Pay, DeliverFrom;
    match t
    case NewOrder(w, d, c, items) => PlaceOrderKeepsMoney(db, w, d, c, items);
    case Payment(w, d, cw, cd, c, amount) => PayKeepsMoney(db, w, d, cw, cd, c, amount);
    case Delivery(w, carrier) => DeliverFromKeepsMoney(db, w, 1, carrier);
    case OrderStatus(w, d, c) =>
    case StockLevel(w, d, threshold) =>
  }

  // ------------------------------------------------------------------ the warehouse total

  lemma HistorySplit(h: map<HKey, int>, w: nat, n: nat)
    requires n > 0
    ensures HistoryUpTo(h, w, n) == HistoryUpTo(h, w, n - 1) + DistrictHistory(h, w, n)
    ensures HistoryUpTo(h, w, n - 1).Keys !! DistrictHistory(h, w, n).Keys
  {
  }

  lemma {:induction false} HistoryTotal(db: Db, w: nat, n: nat)
    requires Complete(db) && MoneyOk(db) && 1 <= w <= db.cfg.warehouses && n <= DISTRICTS
    ensures Sum(HistoryUpTo(db.history, w, n)) == DistrictsYtd(db.district, w, n)
  {
    if n == 0 {
      assert HistoryUpTo(db.history, w, 0) == map[];
    } else {
      assert DKey(w, n) in db.district;
      HistorySplit(db.history, w, n);
      hide Complete, HistoryStamped, WarehouseMoney, DistrictHistory, HistoryUpTo;
      SumUnion(HistoryUpTo(db.history, w, n - 1), DistrictHistory(db.history, w, n));
      HistoryTotal(db, w, n - 1);
    }
  }

  lemma AllHistory(db: Db, w: nat)
    requires MoneyOk(db)
    ensures WarehouseHistory(db.history, w) == HistoryUpTo(db.history, w, DISTRICTS)
  {
  }

  /** W_YTD is both the sum of the districts' D_YTD and the sum of the warehouse's H_AMOUNT. */
  lemma WarehouseBalances(db: Db, w: nat)
    requires Complete(db) && MoneyOk(db) && 1 <= w <= db.cfg.warehouses
    ensures w in db.warehouse && db.warehouse[w].ytd == DistrictsYtd(db.district, w, DISTRICTS)
    ensures db.warehouse[w].ytd == Sum(WarehouseHistory(db.history, w))
  {
    AllHistory(db, w);
    HistoryTotal(db, w, DISTRICTS);
    hide WarehouseHistory, HistoryUpTo, HistoryStamped;
  }
}
