/**
 The initial database: the loader's loops, and the side arrays and clocks run_tpcc sets up.
 Generated numbers are chosen freely from the ranges of their RandomNumber calls; the
 shuffled customer ids are an argument.
 */
module Loader {
  import opened Partition
  import opened Tables
  import opened Scans
  import opened Transactions
  import opened Consistency

  /** std::map::emplace keeps a row that is already there. */
  function Emplace<K, V>(m: map<K, V>, k: K, v: V): map<K, V> {
    if k in m then m else m[k := v]
  }

  const WAREHOUSE_YTD: int := 30000000
  const DISTRICT_YTD: int := 3000000
  const FIRST_PAYMENT: int := 1000

  // ------------------------------------------------------------------ what is loaded

  ghost predicate LoadedWarehouse(cfg: Config, m: map<nat, WVal>) {
    && (forall w: nat :: w in m <==> 1 <= w <= cfg.warehouses)
    && (forall w: nat :: w in m ==> m[w] == WVal(WAREHOUSE_YTD))
  }

  ghost predicate LoadedDistrict(cfg: Config, m: map<DKey, DVal>) {
    && (forall k: DKey :: k in m <==> IsDistrict(cfg, k.w, k.d))
    && (forall k: DKey :: k in m ==> m[k] == DVal(DISTRICT_YTD, FIRST_NEXT))
  }

  ghost predicate LoadedCustomer(cfg: Config, m: map<CKey, CVal>) {
    && (forall k: CKey :: k in m <==> IsCustomer(cfg, k))
    && (forall k: CKey :: k in m ==> m[k] == CVal(-FIRST_PAYMENT, FIRST_PAYMENT, 1, 0))
  }

  predicate IsLoadedHistory(cfg: Config, k: HKey) {
    IsDistrict(cfg, k.w, k.d) && k.cw == k.w && k.cd == k.d && 1 <= k.c <= CUSTOMERS && k.date == k.c
  }

  ghost predicate LoadedHistory(cfg: Config, m: map<HKey, int>) {
    && (forall k: HKey :: k in m <==> IsLoadedHistory(cfg, k))
    && (forall k: HKey :: k in m ==> m[k] == FIRST_PAYMENT)
  }

  ghost predicate LoadedItem(m: map<nat, IVal>) {
    && (forall i: nat :: i in m <==> 1 <= i <= ITEMS)
    && (forall i: nat :: i in m ==> 100 <= m[i].price <= 10000)
  }

  predicate LoadedStockRow(v: SVal) {
    10 <= v.quantity <= 100 && v.ytd == 0 && v.orderCnt == 0 && v.remoteCnt == 0
  }

  ghost predicate LoadedStock(cfg: Config, m: map<SKey, SVal>) {
    && (forall k: SKey :: k in m <==> IsStock(cfg, k))
    && (forall k: SKey :: k in m ==> LoadedStockRow(m[k]))
  }

  /** The place of an order in the order of loading, over all districts; its entry date. */
  function EntryNumber(w: nat, d: nat, o: int): int {
    ((w - 1) * DISTRICTS + d - 1) * LOADED_ORDERS + o
  }

  predicate LoadedOrderRow(k: OKey, v: OVal) {
    OrderRow(v) && (v.carrier == 0 <==> k.o >= FIRST_OPEN) && v.allLocal && v.entryD == EntryNumber(k.w, k.d, k.o)
  }

  /** A line loaded as delivered has its order's entry date. */
  predicate LoadedLineRow(k: OLKey, v: OLVal) {
    1 <= v.i <= ITEMS && v.supply == k.w && v.qty == 5 &&
    if k.o < FIRST_OPEN then v.amount == 0 && v.deliveryD == EntryNumber(k.w, k.d, k.o)
    else v.deliveryD == 0 && 1 <= v.amount <= 999999
  }

  predicate KeyBefore(k: OKey, stop: OKey) {
    k.w < stop.w || (k.w == stop.w && (k.d < stop.d || (k.d == stop.d && k.o < stop.o)))
  }

  predicate IsLoadedOrder(cfg: Config, k: OKey) {
    IsDistrict(cfg, k.w, k.d) && 1 <= k.o <= LOADED_ORDERS
  }

  /** The order tables hold exactly the loaded orders before stop, with their lines. */
  ghost predicate OrdersBefore(cfg: Config, order: map<OKey, OVal>, newOrder: set<OKey>,
                               lines: map<OLKey, OLVal>, stop: OKey) {
    && (forall k: OKey :: k in order <==> IsLoadedOrder(cfg, k) && KeyBefore(k, stop))
    && (forall k: OKey :: k in order ==> LoadedOrderRow(k, order[k]))
    && (forall k: OKey :: k in newOrder <==> k in order && k.o >= FIRST_OPEN)
    && (forall k: OLKey :: k in lines <==>
          OKey(k.w, k.d, k.o) in order && 1 <= k.n <= order[OKey(k.w, k.d, k.o)].olCnt)
    && (forall k: OLKey :: k in lines ==> LoadedLineRow(k, lines[k]))
  }

  ghost predicate LoadedOrders(cfg: Config, order: map<OKey, OVal>, newOrder: set<OKey>, lines: map<OLKey, OLVal>) {
    OrdersBefore(cfg, order, newOrder, lines, OKey(cfg.warehouses + 1, 0, 0))
  }

  /** What std::shuffle makes of the ids 1 .. 3000: each of them once. */
  ghost predicate IsShuffle(p: seq<nat>) {
    && |p| == CUSTOMERS
    && (forall i :: 0 <= i < CUSTOMERS ==> 1 <= p[i] <= CUSTOMERS)
    && (forall i, j :: 0 <= i < j < CUSTOMERS ==> p[i] != p[j])
  }

  /** Order o of every district is the order of customer p[o - 1]. */
  ghost predicate DealtBy(order: map<OKey, OVal>, p: seq<nat>) {
    forall k: OKey :: k in order ==> 1 <= k.o <= |p| && order[k].c == p[k.o - 1]
  }

  ghost predicate Dealt(order: map<OKey, OVal>) {
    exists p: seq<nat> :: IsShuffle(p) && DealtBy(order, p)
  }

  /** Entry dates number the orders as they are loaded; a line loaded as delivered has the date of its order. */
  ghost predicate DatedByEntry(order: map<OKey, OVal>, lines: map<OLKey, OLVal>) {
    && (forall k: OKey :: k in order ==> order[k].entryD == ((k.w - 1) * 10 + k.d - 1) * 3000 + k.o)
    && (forall k: OLKey :: k in lines && k.o < FIRST_OPEN ==>
          OKey(k.w, k.d, k.o) in order && lines[k].deliveryD == order[OKey(k.w, k.d, k.o)].entryD)
  }

  /** The loops of load_order have come to order stop, having counted ts orders. */
  ghost predicate LoadedUpTo(cfg: Config, order: map<OKey, OVal>, newOrder: set<OKey>, lines: map<OLKey, OLVal>,
                             stop: OKey, p: seq<nat>, ts: nat) {
    && IsShuffle(p) && OrdersBefore(cfg, order, newOrder, lines, stop) && DealtBy(order, p)
    && ts == EntryNumber(stop.w, stop.d, stop.o - 1)
  }

  /** The side arrays and the thread clocks before the workers start. */
  ghost predicate InitialCaches(db: Db) {
    && (forall k: DKey :: k in db.pending <==> IsDistrict(db.cfg, k.w, k.d))
    && (forall k: DKey :: k in db.pending ==> db.pending[k] == LOADED_ORDERS)
    && (forall k: CKey :: k in db.latest <==> IsCustomer(db.cfg, k))
    && (forall k: CKey :: k in db.latest ==> db.latest[k] == LOADED_ORDERS)
    && (forall i: nat :: i in db.clock <==> i < db.cfg.workers)
    && (forall i: nat :: i in db.clock ==> db.clock[i] == FIRST_NEXT)
  }

  ghost predicate Loaded(db: Db) {
    && db.cfg.Ok()
    && LoadedWarehouse(db.cfg, db.warehouse) && LoadedDistrict(db.cfg, db.district)
    && LoadedCustomer(db.cfg, db.customer) && LoadedHistory(db.cfg, db.history)
    && LoadedItem(db.item) && LoadedStock(db.cfg, db.stock)
    && LoadedOrders(db.cfg, db.order, db.newOrder, db.orderLine) && Dealt(db.order)
    && InitialCaches(db)
  }

  // ------------------------------------------------------------------ the loops

  method LoadWarehouse(cfg: Config) returns (kv: map<nat, WVal>)
    ensures LoadedWarehouse(cfg, kv)
  {
    kv := map[];
    for i := 1 to cfg.warehouses + 1
      invariant forall w: nat :: w in kv <==> 1 <= w < i
      invariant forall w: nat :: w in kv ==> kv[w] == WVal(WAREHOUSE_YTD)
    {
      kv := Emplace(kv, i, WVal(WAREHOUSE_YTD));
    }
  }

  method LoadDistrict(cfg: Config) returns (kv: map<DKey, DVal>)
    ensures LoadedDistrict(cfg, kv)
  {
    kv := map[];
    for w := 1 to cfg.warehouses + 1
      invariant forall k: DKey :: k in kv <==> IsDistrict(cfg, k.w, k.d) && k.w < w
      invariant forall k: DKey :: k in kv ==> kv[k] == DVal(DISTRICT_YTD, FIRST_NEXT)
    {
      for d := 1 to DISTRICTS + 1
        invariant forall k: DKey :: k in kv <==> IsDistrict(cfg, k.w, k.d) && (k.w < w || (k.w == w && k.d < d))
        invariant forall k: DKey :: k in kv ==> kv[k] == DVal(DISTRICT_YTD, FIRST_NEXT)
      {
        kv := Emplace(kv, DKey(w, d), DVal(DISTRICT_YTD, FIRST_NEXT));
      }
    }
  }

  method LoadCustomer(cfg: Config) returns (kv: map<CKey, CVal>)
    ensures LoadedCustomer(cfg, kv)
  {
    kv := map[];
    var v := CVal(-FIRST_PAYMENT, FIRST_PAYMENT, 1, 0);
    for w := 1 to cfg.warehouses + 1
      invariant forall k: CKey :: k in kv <==> IsCustomer(cfg, k) && k.w < w
      invariant forall k: CKey :: k in kv ==> kv[k] == v
    {
      for d := 1 to DISTRICTS + 1
        invariant forall k: CKey :: k in kv <==> IsCustomer(cfg, k) && (k.w < w || (k.w == w && k.d < d))
        invariant forall k: CKey :: k in kv ==> kv[k] == v
      {
        for c := 1 to CUSTOMERS + 1
          invariant forall k: CKey :: k in kv <==>
                      IsCustomer(cfg, k) && (k.w < w || (k.w == w && (k.d < d || (k.d == d && k.c < c))))
          invariant forall k: CKey :: k in kv ==> kv[k] == v
        {
          kv := Emplace(kv, CKey(w, d, c), v);
        }
      }
    }
  }

  method LoadHistory(cfg: Config) returns (kv: map<HKey, int>)
    ensures LoadedHistory(cfg, kv)
  {
    kv := map[];
    for w := 1 to cfg.warehouses + 1
      invariant forall k: HKey :: k in kv <==> IsLoadedHistory(cfg, k) && k.w < w
      invariant forall k: HKey :: k in kv ==> kv[k] == FIRST_PAYMENT
    {
      for d := 1 to DISTRICTS + 1
        invariant forall k: HKey :: k in kv <==> IsLoadedHistory(cfg, k) && (k.w < w || (k.w == w && k.d < d))
        invariant forall k: HKey :: k in kv ==> kv[k] == FIRST_PAYMENT
      {
        var ts := 0;
        for c := 1 to CUSTOMERS + 1
          invariant ts == c - 1
          invariant forall k: HKey :: k in kv <==>
                      IsLoadedHistory(cfg, k) && (k.w < w || (k.w == w && (k.d < d || (k.d == d && k.c < c))))
          invariant forall k: HKey :: k in kv ==> kv[k] == FIRST_PAYMENT
        {
          ts := ts + 1;
          kv := Emplace(kv, HKey(w, d, w, d, c, ts), FIRST_PAYMENT);
        }
      }
    }
  }

  method LoadItem() returns (kv: map<nat, IVal>)
    ensures LoadedItem(kv)
  {
    kv := map[];
    for i := 1 to ITEMS + 1
      invariant forall j: nat :: j in kv <==> 1 <= j < i
      invariant forall j: nat :: j in kv ==> 100 <= kv[j].price <= 10000
    {
      var price: int :| 100 <= price <= 10000;
      kv := Emplace(kv, i, IVal(price));
    }
  }

  method LoadStock(cfg: Config) returns (kv: map<SKey, SVal>)
    ensures LoadedStock(cfg, kv)
  {
    kv := map[];
    for w := 1 to cfg.warehouses + 1
      invariant forall k: SKey :: k in kv <==> IsStock(cfg, k) && k.w < w
      invariant forall k: SKey :: k in kv ==> LoadedStockRow(kv[k])
    {
      for i := 1 to ITEMS + 1
        invariant forall k: SKey :: k in kv <==> IsStock(cfg, k) && (k.w < w || (k.w == w && k.i < i))
        invariant forall k: SKey :: k in kv ==> LoadedStockRow(kv[k])
      {
        var quantity: nat :| 10 <= quantity <= 100;
        kv := Emplace(kv, SKey(w, i), SVal(quantity, 0, 0, 0));
      }
    }
  }

  /** load_order and the two loads that drain its temporary maps. */
  class OrderLoader {
    var tempNewOrder: set<OKey>
    var tempLines: map<OLKey, OLVal>

    /** The innermost loop: the lines of one order. */
    method AddLoadedLines(ko: OKey, vo: OVal)
      requires forall k: OLKey :: k in tempLines ==> !NewLineKey(k, ko, 0, vo.olCnt)
      requires vo.entryD == EntryNumber(ko.w, ko.d, ko.o)
      modifies this`tempLines
      ensures forall k: OLKey :: k in tempLines <==> k in old(tempLines) || NewLineKey(k, ko, 0, vo.olCnt)
      ensures forall k: OLKey :: k in old(tempLines) ==> tempLines[k] == old(tempLines)[k]
      ensures forall k: OLKey :: NewLineKey(k, ko, 0, vo.olCnt) ==> LoadedLineRow(k, tempLines[k])
    {
      for l := 1 to vo.olCnt + 1
        invariant forall k: OLKey :: k in tempLines <==> k in old(tempLines) || NewLineKey(k, ko, 0, l - 1)
        invariant forall k: OLKey :: k in old(tempLines) ==> tempLines[k] == old(tempLines)[k]
        invariant forall k: OLKey :: NewLineKey(k, ko, 0, l - 1) ==> LoadedLineRow(k, tempLines[k])
      {
        var k := OLKey(ko.w, ko.d, ko.o, l);
        assert NewLineKey(k, ko, 0, vo.olCnt);
        var i: nat :| 1 <= i <= ITEMS;
        var v := OLVal(i, vo.entryD, 0, ko.w, 5);
        if ko.o >= FIRST_OPEN {
          var amount: int :| 1 <= amount <= 999999;
          v := OLVal(i, 0, amount, ko.w, 5);
        }
        tempLines := Emplace(tempLines, k, v);
      }
    }

    /** One turn of the order loop. */
    method AddLoadedOrder(cfg: Config, ghost order: map<OKey, OVal>, ko: OKey, c: nat, ts: nat) returns (vo: OVal)
      requires OrdersBefore(cfg, order, tempNewOrder, tempLines, ko) && IsLoadedOrder(cfg, ko)
      requires 1 <= c <= CUSTOMERS && ts == EntryNumber(ko.w, ko.d, ko.o)
      modifies this
      ensures OrdersBefore(cfg, order[ko := vo], tempNewOrder, tempLines, OKey(ko.w, ko.d, ko.o + 1)) && vo.c == c
    {
      var carrier: nat := 0;
      if ko.o < FIRST_OPEN {
        carrier :| 1 <= carrier <= 10;
      }
      var olCnt: nat :| 5 <= olCnt <= 15;
      vo := OVal(c, carrier, olCnt, true, ts);
      ghost var before := tempLines;
      if ko.o >= FIRST_OPEN {
        tempNewOrder := tempNewOrder + {ko};
      }
      AddLoadedLines(ko, vo);
      OneMoreOrder(cfg, order, tempNewOrder, before, tempLines, ko, vo);
    }

    /** The loop over the orders of one district. */
    method LoadDistrictOrders(cfg: Config, before: map<OKey, OVal>, w: nat, d: nat, shuffled: seq<nat>, count: nat)
      returns (kv: map<OKey, OVal>, ts: nat)
      requires 1 <= w <= cfg.warehouses && 1 <= d <= DISTRICTS
      requires LoadedUpTo(cfg, before, tempNewOrder, tempLines, OKey(w, d, 1), shuffled, count)
      modifies this
      ensures LoadedUpTo(cfg, kv, tempNewOrder, tempLines, OKey(w, d, CUSTOMERS + 1), shuffled, ts)
    {
      hide LoadedUpTo, OrdersBefore, DealtBy, IsShuffle, EntryNumber, Emplace;
      kv, ts := before, count;
      for o := 1 to CUSTOMERS + 1
        invariant LoadedUpTo(cfg, kv, tempNewOrder, tempLines, OKey(w, d, o), shuffled, ts)
      {
        ts := ts + 1;
        var ko := OKey(w, d, o);
        NextIsReady(cfg, kv, tempNewOrder, tempLines, ko, shuffled, ts);
        var vo := AddLoadedOrder(cfg, kv, ko, shuffled[o - 1], ts);
        NextIsDone(cfg, kv, tempNewOrder, tempLines, ko, vo, shuffled, ts);
        kv := Emplace(kv, ko, vo);
      }
    }

    method LoadOrder(cfg: Config, shuffled: seq<nat>) returns (kv: map<OKey, OVal>)
      requires IsShuffle(shuffled)
      modifies this
      ensures LoadedOrders(cfg, kv, tempNewOrder, tempLines) && DealtBy(kv, shuffled) && DatedByEntry(kv, tempLines)
    {
      tempNewOrder, tempLines := {}, map[];
      kv := map[];
      hide LoadedUpTo, OrdersBefore, DealtBy, IsShuffle, LoadedOrders, DatedByEntry;
      NothingLoaded(cfg, shuffled);
      var ts := 0;
      for w := 1 to cfg.warehouses + 1
        invariant LoadedUpTo(cfg, kv, tempNewOrder, tempLines, OKey(w, 1, 1), shuffled, ts)
      {
        for d := 1 to DISTRICTS + 1
          invariant LoadedUpTo(cfg, kv, tempNewOrder, tempLines, OKey(w, d, 1), shuffled, ts)
        {
          kv, ts := LoadDistrictOrders(cfg, kv, w, d, shuffled, ts);
          DistrictEnds(cfg, kv, tempNewOrder, tempLines, w, d, shuffled, ts);
        }
        WarehouseEnds(cfg, kv, tempNewOrder, tempLines, w, shuffled, ts);
      }
      LoadingEnds(cfg, kv, tempNewOrder, tempLines, shuffled, ts);
    }

    method LoadNewOrder() returns (kv: set<OKey>)
      modifies this`tempNewOrder
      ensures kv == old(tempNewOrder) && tempNewOrder == {}
    {
      kv := {};
      var rest := tempNewOrder;
      while rest != {}
        invariant rest <= tempNewOrder && kv == tempNewOrder - rest
        decreases |rest|
      {
        var k :| k in rest;
        kv := kv + {k};
        rest := rest - {k};
      }
      tempNewOrder := {};
    }

    method LoadOnlineOrder() returns (kv: map<OLKey, OLVal>)
      modifies this`tempLines
      ensures kv == old(tempLines) && tempLines == map[]
    {
      kv := map[];
      var rest := tempLines.Keys;
      while rest != {}
        invariant rest <= tempLines.Keys && kv.Keys == tempLines.Keys - rest
        invariant forall k :: k in kv ==> kv[k] == tempLines[k]
        decreases |rest|
      {
        var k :| k in rest;
        kv := Emplace(kv, k, tempLines[k]);
        rest := rest - {k};
      }
      tempLines := map[];
    }
  }

  lemma OneMoreOrder(cfg: Config, order: map<OKey, OVal>, newOrder: set<OKey>, before: map<OLKey, OLVal>,
                     lines: map<OLKey, OLVal>, ko: OKey, vo: OVal)
    requires OrdersBefore(cfg, order, newOrder - {ko}, before, ko) && IsLoadedOrder(cfg, ko) && LoadedOrderRow(ko, vo)
    requires ko in newOrder <==> ko.o >= FIRST_OPEN
    requires forall k: OLKey :: k in lines <==> k in before || NewLineKey(k, ko, 0, vo.olCnt)
    requires forall k: OLKey :: k in before ==> lines[k] == before[k]
    requires forall k: OLKey :: NewLineKey(k, ko, 0, vo.olCnt) ==> LoadedLineRow(k, lines[k])
    ensures OrdersBefore(cfg, order[ko := vo], newOrder, lines, OKey(ko.w, ko.d, ko.o + 1))
  {
    var r := order[ko := vo];
    forall k: OKey
      ensures k in r <==> IsLoadedOrder(cfg, k) && KeyBefore(k, OKey(ko.w, ko.d, ko.o + 1))
    {
      assert k == ko <==> k.w == ko.w && k.d == ko.d && k.o == ko.o;
    }
    forall k: OLKey
      ensures k in lines <==> OKey(k.w, k.d, k.o) in r && 1 <= k.n <= r[OKey(k.w, k.d, k.o)].olCnt
    {
      var k' := OKey(k.w, k.d, k.o);
      assert k' == ko ==> k !in before;
    }
  }

  lemma NextIsReady(cfg: Config, order: map<OKey, OVal>, newOrder: set<OKey>, lines: map<OLKey, OLVal>, ko: OKey,
                    p: seq<nat>, ts: nat)
    requires ts > 0 && LoadedUpTo(cfg, order, newOrder, lines, ko, p, ts - 1) && 1 <= ko.o <= CUSTOMERS
    requires 1 <= ko.w <= cfg.warehouses && 1 <= ko.d <= DISTRICTS
    ensures OrdersBefore(cfg, order, newOrder, lines, ko) && ko !in order && IsLoadedOrder(cfg, ko)
    ensures |p| == CUSTOMERS && 1 <= p[ko.o - 1] <= CUSTOMERS && ts == EntryNumber(ko.w, ko.d, ko.o)
    ensures IsShuffle(p) && DealtBy(order, p)
  {
  }

  lemma NextIsDone(cfg: Config, order: map<OKey, OVal>, newOrder: set<OKey>, lines: map<OLKey, OLVal>, ko: OKey,
                   vo: OVal, p: seq<nat>, ts: nat)
    requires IsShuffle(p) && DealtBy(order, p) && ts == EntryNumber(ko.w, ko.d, ko.o)
    requires 1 <= ko.o <= |p| && vo.c == p[ko.o - 1] && ko !in order
    requires OrdersBefore(cfg, order[ko := vo], newOrder, lines, OKey(ko.w, ko.d, ko.o + 1))
    ensures LoadedUpTo(cfg, Emplace(order, ko, vo), newOrder, lines, OKey(ko.w, ko.d, ko.o + 1), p, ts)
  {
    hide OrdersBefore;
  }

  lemma SameStop(cfg: Config, order: map<OKey, OVal>, newOrder: set<OKey>, lines: map<OLKey, OLVal>, a: OKey, b: OKey)
    requires OrdersBefore(cfg, order, newOrder, lines, a)
    requires forall k: OKey :: IsLoadedOrder(cfg, k) ==> (KeyBefore(k, a) <==> KeyBefore(k, b))
    ensures OrdersBefore(cfg, order, newOrder, lines, b)
  {
  }

  lemma NothingLoaded(cfg: Config, p: seq<nat>)
    requires IsShuffle(p)
    ensures LoadedUpTo(cfg, map[], {}, map[], OKey(1, 1, 1), p, 0)
  {
  }

  lemma LoadingEnds(cfg: Config, order: map<OKey, OVal>, newOrder: set<OKey>, lines: map<OLKey, OLVal>, p: seq<nat>,
                    ts: nat)
    requires LoadedUpTo(cfg, order, newOrder, lines, OKey(cfg.warehouses + 1, 1, 1), p, ts)
    ensures LoadedOrders(cfg, order, newOrder, lines) && DealtBy(order, p) && DatedByEntry(order, lines)
  {
    hide OrdersBefore, DatedByEntry;
    LoadedDates(cfg, order, newOrder, lines);
    SameStop(cfg, order, newOrder, lines, OKey(cfg.warehouses + 1, 1, 1), OKey(cfg.warehouses + 1, 0, 0));
  }

  lemma LoadedDates(cfg: Config, order: map<OKey, OVal>, newOrder: set<OKey>, lines: map<OLKey, OLVal>)
    requires OrdersBefore(cfg, order, newOrder, lines, OKey(cfg.warehouses + 1, 1, 1))
    ensures DatedByEntry(order, lines)
  {
    forall k: OKey | k in order
      ensures order[k].entryD == ((k.w - 1) * 10 + k.d - 1) * 3000 + k.o
    {
      assert LoadedOrderRow(k, order[k]);
    }
    forall k: OLKey | k in lines && k.o < FIRST_OPEN
      ensures OKey(k.w, k.d, k.o) in order && lines[k].deliveryD == order[OKey(k.w, k.d, k.o)].entryD
    {
      assert LoadedLineRow(k, lines[k]);
      assert LoadedOrderRow(OKey(k.w, k.d, k.o), order[OKey(k.w, k.d, k.o)]);
    }
  }

  lemma DistrictEnds(cfg: Config, order: map<OKey, OVal>, newOrder: set<OKey>, lines: map<OLKey, OLVal>, w: nat, d: nat,
                     p: seq<nat>, ts: nat)
    requires LoadedUpTo(cfg, order, newOrder, lines, OKey(w, d, CUSTOMERS + 1), p, ts)
    ensures LoadedUpTo(cfg, order, newOrder, lines, OKey(w, d + 1, 1), p, ts)
  {
    hide OrdersBefore;
    SameStop(cfg, order, newOrder, lines, OKey(w, d, CUSTOMERS + 1), OKey(w, d + 1, 1));
  }

  lemma WarehouseEnds(cfg: Config, order: map<OKey, OVal>, newOrder: set<OKey>, lines: map<OLKey, OLVal>, w: nat,
                      p: seq<nat>, ts: nat)
    requires LoadedUpTo(cfg, order, newOrder, lines, OKey(w, DISTRICTS + 1, 1), p, ts)
    ensures LoadedUpTo(cfg, order, newOrder, lines, OKey(w + 1, 1, 1), p, ts)
  {
    hide OrdersBefore;
    SameStop(cfg, order, newOrder, lines, OKey(w, DISTRICTS + 1, 1), OKey(w + 1, 1, 1));
  }

  /** The side arrays of run_tpcc, all entries 3000, and the clocks of the worker threads. */
  method InitialCachesOf(cfg: Config) returns (pending: map<DKey, nat>, latest: map<CKey, nat>, clock: map<nat, nat>)
    ensures forall k: DKey :: k in pending <==> IsDistrict(cfg, k.w, k.d)
    ensures forall k: DKey :: k in pending ==> pending[k] == LOADED_ORDERS
    ensures forall k: CKey :: k in latest <==> IsCustomer(cfg, k)
    ensures forall k: CKey :: k in latest ==> latest[k] == LOADED_ORDERS
    ensures forall i: nat :: i in clock <==> i < cfg.workers
    ensures forall i: nat :: i in clock ==> clock[i] == FIRST_NEXT
  {
    pending, latest := map[], map[];
    for w := 1 to cfg.warehouses + 1
      invariant forall k: DKey :: k in pending <==> IsDistrict(cfg, k.w, k.d) && k.w < w
      invariant forall k: DKey :: k in pending ==> pending[k] == LOADED_ORDERS
      invariant forall k: CKey :: k in latest <==> IsCustomer(cfg, k) && k.w < w
      invariant forall k: CKey :: k in latest ==> latest[k] == LOADED_ORDERS
    {
      for d := 1 to DISTRICTS + 1
        invariant forall k: DKey :: k in pending <==> IsDistrict(cfg, k.w, k.d) && (k.w < w || (k.w == w && k.d < d))
        invariant forall k: DKey :: k in pending ==> pending[k] == LOADED_ORDERS
        invariant forall k: CKey :: k in latest <==> IsCustomer(cfg, k) && (k.w < w || (k.w == w && k.d < d))
        invariant forall k: CKey :: k in latest ==> latest[k] == LOADED_ORDERS
      {
        pending := pending[DKey(w, d) := LOADED_ORDERS];
        for c := 1 to CUSTOMERS + 1
          invariant forall k: CKey :: k in latest <==>
                      IsCustomer(cfg, k) && (k.w < w || (k.w == w && (k.d < d || (k.d == d && k.c < c))))
          invariant forall k: CKey :: k in latest ==> latest[k] == LOADED_ORDERS
        {
          latest := latest[CKey(w, d, c) := LOADED_ORDERS];
        }
      }
    }
    clock := map[];
    for i := 0 to cfg.workers
      invariant forall j: nat :: j in clock <==> j < i
      invariant forall j: nat :: j in clock ==> clock[j] == FIRST_NEXT
    {
      clock := clock[i := FIRST_NEXT];
    }
  }

  /** prepare_kvs: every table, then the state the workers start from. */
  method PrepareKvs(cfg: Config, shuffled: seq<nat>) returns (db: Db)
    requires cfg.Ok()
    requires IsShuffle(shuffled)
    ensures db.cfg == cfg && Loaded(db) && DealtBy(db.order, shuffled) && DatedByEntry(db.order, db.orderLine)
  {
    var pending, latest, clock := InitialCachesOf(cfg);
    var warehouse := LoadWarehouse(cfg);
    var district := LoadDistrict(cfg);
    var customer := LoadCustomer(cfg);
    var history := LoadHistory(cfg);
    var item := LoadItem();
    var stock := LoadStock(cfg);
    var loader := new OrderLoader;
    var order := loader.LoadOrder(cfg, shuffled);
    var newOrder := loader.LoadNewOrder();
    var lines := loader.LoadOnlineOrder();
    db := Db(cfg, warehouse, district, customer, history, item, stock, order, newOrder, lines, pending, latest, clock);
  }

  // ------------------------------------------------------------------ one loaded order for every customer

  lemma {:induction false} DistinctValues(p: seq<nat>, n: nat)
    requires n <= |p| && forall i, j :: 0 <= i < j < |p| ==> p[i] != p[j]
    ensures |set i | 0 <= i < n :: p[i]| == n
  {
    if n > 0 {
      DistinctValues(p, n - 1);
      assert (set i | 0 <= i < n :: p[i]) == (set i | 0 <= i < n - 1 :: p[i]) + {p[n - 1]};
    }
  }

  function Ids(n: nat): set<nat> {
    if n == 0 then {} else Ids(n - 1) + {n}
  }

  lemma {:induction false} IdsCount(n: nat)
    ensures |Ids(n)| == n && forall c: nat :: c in Ids(n) <==> 1 <= c <= n
  {
    if n > 0 {
      IdsCount(n - 1);
    }
  }

  lemma EqualSize(a: set<nat>, b: set<nat>)
    requires a <= b && |a| == |b|
    ensures a == b
  {
    assert |b - a| == 0;
    assert b == a + (b - a);
  }

  /** A shuffle has every customer id. */
  lemma ShuffleCovers(p: seq<nat>, c: nat)
    requires IsShuffle(p) && 1 <= c <= CUSTOMERS
    ensures exists i :: 0 <= i < CUSTOMERS && p[i] == c
  {
    var values := set i | 0 <= i < CUSTOMERS :: p[i];
    hide Ids;
    DistinctValues(p, CUSTOMERS);
    IdsCount(CUSTOMERS);
    EqualSize(values, Ids(CUSTOMERS));
    assert c in values;
  }

  /** Order o, and no other, is the customer's in every district. */
  ghost predicate OwnsOnly(cfg: Config, order: map<OKey, OVal>, c: nat, o: nat) {
    forall k: OKey :: IsLoadedOrder(cfg, k) ==> k in order && (order[k].c == c <==> k.o == o)
  }

  /** Every customer owns exactly one loaded order, under the same number in every district. */
  lemma OneLoadedOrderEach(db: Db, c: nat)
    requires Loaded(db) && 1 <= c <= CUSTOMERS
    ensures exists o: nat :: 1 <= o <= LOADED_ORDERS && OwnsOnly(db.cfg, db.order, c, o)
  {
    var p: seq<nat> :| IsShuffle(p) && DealtBy(db.order, p);
    ShuffleCovers(p, c);
    var i :| 0 <= i < CUSTOMERS && p[i] == c;
    var o: nat := i + 1;
    forall k: OKey | IsLoadedOrder(db.cfg, k)
      ensures k in db.order && (db.order[k].c == c <==> k.o == o)
    {
      assert k in db.order && db.order[k].c == p[k.o - 1];
    }
    assert OwnsOnly(db.cfg, db.order, c, o);
  }
}
