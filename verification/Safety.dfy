/**
 What the workers can rely on in every interleaving of their table operations, starting
 from a loaded database.
 */
module Safety {
  import opened Partition
  import opened Tables
  import opened Scans
  import opened Transactions
  import opened Consistency
  import opened StockLaws
  import opened DeliveryScans
  import opened Deliveries
  import opened Workers
  import opened Interleaving
  import opened Loader
  import opened Runs

  /** A consistent database with all workers between transactions satisfies the invariant. */
  lemma QuiescentIsOk(db: Db)
    requires Consistent(db) && StockInRange(db.stock)
    ensures SysOk(InitialSys(db))
  {
    var s := InitialSys(db);
    assert SharedOk(db);
    forall w: nat | 1 <= w <= db.cfg.warehouses && Owner(db.cfg, w) < |s.pcs|
      ensures HomeOk(s.db, s.pcs[Owner(db.cfg, w)], w)
    {
      QuiescentHome(db, w);
    }
  }

  lemma QuiescentHome(db: Db, w: nat)
    requires Consistent(db)
    ensures HomeOk(db, Idle, w)
  {
    assert HomeIds(db, Idle, w) && HomeOpen(db, Idle, w);
    assert HomeLines(db, Idle, w) && HomePending(db, Idle, w);
  }

  /** Every state of every interleaving after loading satisfies the invariant. */
  lemma StatesAreOk(db: Db, ss: seq<Sys>, ms: seq<Move>, k: nat)
    requires Loaded(db) && Behaviour(db, ss, ms) && k < |ss|
    ensures SysOk(ss[k]) && ss[k].db.cfg == db.cfg
  {
    hide SysOk;
    LoadedIsConsistent(db);
    LoadedStockIsOk(db);
    assert StockInRange(db.stock) by {
      forall j: SKey | j in db.stock
        ensures 10 <= db.stock[j].quantity <= 100
      {
        assert StockRowOk(db.stock[j], db.stock[j], db.orderLine, j);
      }
    }
    QuiescentIsOk(db);
    BehaviourKeepsSys(db, ss, ms, k);
  }

  lemma HomeOfOwner(s: Sys, i: nat, w: nat)
    requires SysOk(s) && i < |s.pcs| && s.db.cfg.workers > 0 && Owns(s.db.cfg, i, w)
    ensures HomeOk(s.db, s.pcs[i], w) && 1 <= w <= s.db.cfg.warehouses
  {
    OwnedExists(s.db.cfg, i, w);
    OwnerIsUnique(s.db.cfg, w);
    HomeOf(s, w);
    hide HomeOk;
  }

  /**
   Order ids are allocated without a race: between two transactions of a warehouse's owner i, each district holds
   exactly the orders 1 .. 3000 and 3002 .. D_NEXT_O_ID, whatever the other workers are doing.
   */
  lemma IdleOwnerDistricts(db: Db, ss: seq<Sys>, ms: seq<Move>, k: nat, i: nat, w: nat, d: nat)
    requires Loaded(db) && Behaviour(db, ss, ms) && k < |ss|
    requires i < |ss[k].pcs| && ss[k].pcs[i].Idle? && Owns(db.cfg, i, w) && 1 <= d <= 10
    ensures DKey(w, d) in ss[k].db.district
    ensures forall o: nat :: OKey(w, d, o) in ss[k].db.order <==>
              1 <= o <= 3000 || 3002 <= o <= ss[k].db.district[DKey(w, d)].nextOid
  {
    var s := ss[k];
    StatesAreOk(db, ss, ms, k);
    HomeOfOwner(s, i, w);
    hide Loaded, Behaviour, HomeOpen, HomeLines, HomePending, PcsOk, HomesOk;
    forall o: nat
      ensures OKey(w, d, o) in s.db.order <==> 1 <= o <= 3000 || 3002 <= o <= s.db.district[DKey(w, d)].nextOid
    {
      assert OKey(w, d, o).w == w;
    }
  }

  /** Clauses 3.3.2.5 and 3.3.2.6 hold for a warehouse whenever its owner i is between transactions. */
  lemma IdleOwnerOrders(db: Db, ss: seq<Sys>, ms: seq<Move>, k: nat, i: nat, w: nat, d: nat, o: nat)
    requires Loaded(db) && Behaviour(db, ss, ms) && k < |ss|
    requires i < |ss[k].pcs| && ss[k].pcs[i].Idle? && Owns(db.cfg, i, w)
    ensures OKey(w, d, o) in ss[k].db.newOrder
       <==> OKey(w, d, o) in ss[k].db.order && ss[k].db.order[OKey(w, d, o)].carrier == 0
    ensures forall n: nat :: OLKey(w, d, o, n) in ss[k].db.orderLine <==>
              OKey(w, d, o) in ss[k].db.order && 1 <= n <= ss[k].db.order[OKey(w, d, o)].olCnt
  {
    var s := ss[k];
    StatesAreOk(db, ss, ms, k);
    HomeOfOwner(s, i, w);
    hide Loaded, Behaviour, HomeIds, HomePending, PcsOk, HomesOk, SharedOk;
    assert OKey(w, d, o).w == w;
    forall n: nat
      ensures OLKey(w, d, o, n) in s.db.orderLine <==>
              OKey(w, d, o) in s.db.order && 1 <= n <= s.db.order[OKey(w, d, o)].olCnt
    {
      assert OLKey(w, d, o, n).w == w;
    }
  }

  /** At every point of every interleaving the next insert of txn_new_order hits a fresh key. */
  lemma InsertsAreFresh(db: Db, ss: seq<Sys>, ms: seq<Move>, k: nat, i: nat)
    requires Loaded(db) && Behaviour(db, ss, ms) && k < |ss| && i < |ss[k].pcs| && ss[k].pcs[i].Ordering?
    ensures var s, pc := ss[k], ss[k].pcs[i];
            (pc.oa.PutNewOrder? ==> Taken(pc) !in s.db.newOrder) && (pc.oa.PutOrder? ==> Taken(pc) !in s.db.order)
            && (pc.oa.PutLine? ==> OLKey(pc.w, pc.d, pc.oa.vd.nextOid, pc.oa.n + 1) !in s.db.orderLine)
  {
    var s, pc := ss[k], ss[k].pcs[i];
    StatesAreOk(db, ss, ms, k);
    ActsForOwn(s, i);
    HomeOf(s, pc.w);
    assert PcOk(s.db, i, pc);
    hide Loaded, Behaviour, PcsOk, HomesOk, SharedOk, HomeIds, HomeLines, HomePending;
    if pc.oa.PutNewOrder? || pc.oa.PutOrder? {
      TakenIsFresh(s.db, pc);
    } else if pc.oa.PutLine? {
      LineIsFresh(s.db, pc);
    }
  }

  /** Racing remote orders never push a stock row out of [10, 100], and the restock test, on whatever row the worker
      read, never wraps. */
  lemma StockStaysInRange(db: Db, ss: seq<Sys>, ms: seq<Move>, k: nat, i: nat)
    requires Loaded(db) && Behaviour(db, ss, ms) && k < |ss| && i < |ss[k].pcs|
    ensures forall x: SKey :: x in ss[k].db.stock ==> 10 <= ss[k].db.stock[x].quantity <= 100
    ensures var pc := ss[k].pcs[i];
            pc.Ordering? && pc.oa.PutStock? ==>
              OnItem(pc) && Sub32(pc.oa.s.quantity, pc.items[pc.oa.n].qty) == pc.oa.s.quantity - pc.items[pc.oa.n].qty
  {
    var s, pc := ss[k], ss[k].pcs[i];
    StatesAreOk(db, ss, ms, k);
    hide Loaded, Behaviour, HomesOk, Sub32;
    if pc.Ordering? && pc.oa.PutStock? {
      assert PcOk(s.db, i, pc);
      StockTakenInRange(s.db, pc);
    }
  }

  /** No worker ever reaches the abort branch of txn_new_order or the bail-out of txn_delivery. */
  lemma NoWorkerBailsOut(db: Db, ss: seq<Sys>, ms: seq<Move>, k: nat, i: nat)
    requires Loaded(db) && Behaviour(db, ss, ms) && k < |ss| && i < |ss[k].pcs|
    ensures var pc := ss[k].pcs[i];
            pc.Ordering? ==> !pc.oa.UndoDistrict? && !pc.oa.UndoNewOrder? && !pc.oa.UndoOrder?
                             && (OnItem(pc) ==> pc.items[pc.oa.n].i in ss[k].db.item)
    ensures ss[k].pcs[i].Delivering? && ss[k].pcs[i].da.FindOrder? ==> ss[k].pcs[i].da.ko in ss[k].db.order
  {
    var s, pc := ss[k], ss[k].pcs[i];
    StatesAreOk(db, ss, ms, k);
    assert PcOk(s.db, i, pc);
    hide Loaded, Behaviour, PcsOk, HomesOk;
    if pc.Ordering? && OnItem(pc) {
      ItemHits(s.db, pc);
    }
    if pc.Delivering? && pc.da.FindOrder? {
      ActsForOwn(s, i);
      HomeOf(s, pc.w);
      OrderHits(s.db, pc);
    }
  }

  /** Two workers never work for the same warehouse at the same time. */
  lemma OneWorkerPerWarehouse(db: Db, ss: seq<Sys>, ms: seq<Move>, k: nat, i: nat, j: nat)
    requires Loaded(db) && Behaviour(db, ss, ms) && k < |ss| && i < |ss[k].pcs| && j < |ss[k].pcs|
    requires i != j && !ss[k].pcs[i].Idle? && !ss[k].pcs[j].Idle?
    ensures ss[k].pcs[i].w != ss[k].pcs[j].w
  {
    StatesAreOk(db, ss, ms, k);
    WorkersApart(ss[k], i, j);
  }

  // ------------------------------------------------------------------ the newest order of a district

  /** Whenever a warehouse's owner is between transactions, its side array holds each district's largest O_ID. */
  lemma IdleOwnerPending(db: Db, ss: seq<Sys>, ms: seq<Move>, k: nat, i: nat, w: nat, d: nat)
    requires Loaded(db) && Behaviour(db, ss, ms) && k < |ss|
    requires i < |ss[k].pcs| && ss[k].pcs[i].Idle? && Owns(db.cfg, i, w) && 1 <= d <= DISTRICTS
    ensures DKey(w, d) in ss[k].db.pending && OKey(w, d, ss[k].db.pending[DKey(w, d)]) in ss[k].db.order
    ensures forall x: OKey :: x in ss[k].db.order && x.w == w && x.d == d ==> x.o <= ss[k].db.pending[DKey(w, d)]
  {
    var s := ss[k];
    StatesAreOk(db, ss, ms, k);
    HomeOfOwner(s, i, w);
    hide Loaded, Behaviour, HomeOpen, HomeLines, PcsOk, HomesOk;
    assert DKey(w, d) in s.db.district;
    assert OKey(w, d, s.db.pending[DKey(w, d)]).w == w;
  }

  // ------------------------------------------------------------------ delivered at most once

  lemma OrderingKeepsDelivered(db: Db, me: nat, pc: Pc, ko: OKey, vo: OVal)
    requires pc.Ordering? && OrderingOk(db, pc) && HomeOk(db, pc, pc.w) && IsDelivered(db, ko, vo)
    ensures IsDelivered(OrderingWrite(db, me, pc), ko, vo)
  {
    if OrderDue(pc, pc.w, pc.d) {
      TakenIsFresh(db, pc);
    }
    hide HomeOk, DistrictIs, LinesBegun, StockTaken, LineAdded, TickOf, OrderInserted;
  }

  lemma DeliveringKeepsDelivered(db: Db, me: nat, pc: Pc, ko: OKey, vo: OVal)
    requires pc.Delivering? && DeliveringOk(db, pc) && IsDelivered(db, ko, vo)
    ensures IsDelivered(DeliveringWrite(db, me, pc), ko, vo)
  {
    hide TickOf, Clock;
  }

  /** No operation of any worker touches a delivered order. */
  lemma StepKeepsDelivered(s: Sys, i: nat, ko: OKey, vo: OVal)
    requires SysOk(s) && i < |s.pcs| && !s.pcs[i].Idle? && IsDelivered(s.db, ko, vo)
    ensures IsDelivered(Step(s.db, i, s.pcs[i]).db, ko, vo)
  {
    var pc := s.pcs[i];
    ActsForOwn(s, i);
    HomeOf(s, pc.w);
    assert PcOk(s.db, i, pc);
    hide HomesOk, PcsOk, SharedOk, HomeOk, OrderingOk, DeliveringOk, PayingOk, OrderingWrite, DeliveringWrite,
         OrderingNext, DeliveringNext, PayingNext, QueryingStep;
    match pc
    case Idle =>
    case Ordering(_, _, _, _, _) => OrderingKeepsDelivered(s.db, i, pc, ko, vo);
    case Paying(_, _, _, _, _, _, _) =>
    case Delivering(_, _, _) => DeliveringKeepsDelivered(s.db, i, pc, ko, vo);
    case Querying(_, _, _, _) =>
  }

  lemma MoveKeepsDelivered(s: Sys, m: Move, ko: OKey, vo: OVal)
    requires SysOk(s) && Enabled(s, m) && IsDelivered(s.db, ko, vo)
    ensures IsDelivered(Perform(s, m).db, ko, vo)
  {
    hide SysOk, IsDelivered, Step;
    match m
    case Start(i, t) =>
    case Go(i) => StepKeepsDelivered(s, i, ko, vo);
  }

  lemma {:induction false} StatesKeepDelivered(db: Db, ss: seq<Sys>, ms: seq<Move>, j: nat, k: nat, ko: OKey, vo: OVal)
    requires Loaded(db) && Behaviour(db, ss, ms) && j <= k < |ss| && IsDelivered(ss[j].db, ko, vo)
    ensures IsDelivered(ss[k].db, ko, vo)
    decreases k
  {
    hide Loaded, SysOk, IsDelivered, Perform, Enabled, Behaviour;
    if j < k {
      BehaviourStarts(db, ss, ms);
      BehaviourMoves(db, ss, ms, k - 1);
      StatesAreOk(db, ss, ms, k - 1);
      StatesKeepDelivered(db, ss, ms, j, k - 1, ko, vo);
      MoveKeepsDelivered(ss[k - 1], ms[k - 1], ko, vo);
    }
  }

  /** An order that has a carrier is not in NEW-ORDER, wherever the owner of its warehouse is. */
  lemma CarrierLeftNewOrder(s: Sys, ko: OKey)
    requires SysOk(s) && 1 <= ko.w <= s.db.cfg.warehouses && ko in s.db.order && s.db.order[ko].carrier != 0
    ensures ko !in s.db.newOrder
  {
    HomeOf(s, ko.w);
    var pc := s.pcs[Owner(s.db.cfg, ko.w)];
    hide HomesOk, SharedOk;
    if Announced(pc, ko) {
      assert PcOk(s.db, Owner(s.db.cfg, ko.w), pc) && OrderDue(pc, pc.w, pc.d);
      TakenIsFresh(s.db, pc);
    }
    hide HomeIds, HomeLines, HomePending, PcsOk;
  }

  /**
   An order is delivered at most once in every interleaving: as soon as it has a carrier, whatever the workers do, its
   row never changes and no NEW-ORDER row names it.
   */
  lemma DeliveredAtMostOnce(db: Db, ss: seq<Sys>, ms: seq<Move>, j: nat, k: nat, ko: OKey)
    requires Loaded(db) && Behaviour(db, ss, ms) && j <= k < |ss| && 1 <= ko.w <= db.cfg.warehouses
    requires ko in ss[j].db.order && ss[j].db.order[ko].carrier != 0
    ensures ko in ss[k].db.order && ss[k].db.order[ko] == ss[j].db.order[ko] && ko !in ss[k].db.newOrder
  {
    StatesAreOk(db, ss, ms, j);
    hide Loaded, Behaviour, SysOk;
    CarrierLeftNewOrder(ss[j], ko);
    StatesKeepDelivered(db, ss, ms, j, k, ko, ss[j].db.order[ko]);
  }

  // ------------------------------------------------------------------ the delivery scan

  /**
   In every interleaving, when a delivery is about to scan, the scan returns first exactly lines 1 .. min(10, O_OL_CNT)
   of its order, in order, and then lines of later orders.
   */
  lemma ScanFindsOwnLines(db: Db, ss: seq<Sys>, ms: seq<Move>, k: nat, i: nat)
    requires Loaded(db) && Behaviour(db, ss, ms) && k < |ss|
    requires i < |ss[k].pcs| && ss[k].pcs[i].Delivering? && ss[k].pcs[i].da.ScanLines?
    ensures var ko := ss[k].pcs[i].da.ko;
            ko in ss[k].db.order && OrderShape(DeliveryScan(ss[k].db, ko), ko, ss[k].db.order[ko].olCnt, 10)
  {
    var s, pc := ss[k], ss[k].pcs[i];
    StatesAreOk(db, ss, ms, k);
    ActsForOwn(s, i);
    HomeOf(s, pc.w);
    assert PcOk(s.db, i, pc);
    hide Loaded, Behaviour, PcsOk, HomesOk, SharedOk, HomeOk, OrderShape, Scan, OwnLinesNumbered;
    DeliveryFindsLines(s.db, pc);
    ScanFromLines(s.db.orderLine, pc.da.ko, s.db.order[pc.da.ko].olCnt, 10);
  }

  lemma DeliveryFindsLines(db: Db, pc: Pc)
    requires pc.Delivering? && pc.da.ScanLines? && DeliveringOk(db, pc) && HomeOk(db, pc, pc.w)
    ensures pc.da.ko in db.order && OwnLinesNumbered(db.orderLine, pc.da.ko, db.order[pc.da.ko].olCnt)
  {
    hide HomeIds, HomeOpen, HomePending;
  }
}
