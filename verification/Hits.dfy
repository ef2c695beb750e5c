/**
 Every get of every worker hits, in every interleaving: the keys of WAREHOUSE and CUSTOMER
 stay as loaded, every order line names an item, and the registers hold rows that existed.
 */
module Hits {
  import opened Partition
  import opened Tables
  import opened Scans
  import opened Transactions
  import opened Consistency
  import opened Workers
  import opened Interleaving
  import opened Loader
  import opened Safety

  predicate IsItem(i: nat) {
    1 <= i <= ITEMS
  }

  ghost predicate LinesName(lines: map<OLKey, OLVal>) {
    forall k: OLKey :: k in lines ==> IsItem(lines[k].i)
  }

  ghost predicate KeysOk(db: Db) {
    && (forall w: nat :: w in db.warehouse <==> 1 <= w <= db.cfg.warehouses)
    && (forall k: CKey :: k in db.customer <==> IsCustomer(db.cfg, k))
    && LinesName(db.orderLine)
  }

  predicate RowsName(rows: seq<Line>) {
    forall j :: 0 <= j < |rows| ==> IsItem(rows[j].val.i)
  }

  /** The registers of delivery and of the queries hold arguments and rows that were once read. */
  predicate LocalOk(pc: Pc) {
    match pc
    case Idle => true
    case Ordering(_, _, _, _, _) => true
    case Paying(_, _, _, _, _, _, _) => true
    case Delivering(_, _, da) =>
      (da.ReadPending? ==> da.d >= 1)
      && (!da.ReadPending? ==> 1 <= da.ko.d <= DISTRICTS && da.ko.w == pc.w)
      && (!da.ReadPending? && !da.FindNewOrder? && !da.FindOrder? ==> OrderRow(da.vo))
      && (da.StampLine? ==> RowsName(da.rows))
    case Querying(_, d, _, qa) => 1 <= d <= DISTRICTS && (qa.ReadStock? ==> RowsName(qa.rows))
  }

  /** If the worker's next operation is a get on which the code relies, its key is in the table. */
  predicate GetHits(db: Db, pc: Pc) {
    match pc
    case Idle => true
    case Ordering(w, d, c, items, oa) =>
      (oa.GetWarehouse? ==> w in db.warehouse) && (oa.GetDistrict? ==> DKey(w, d) in db.district)
      && (oa.GetCustomer? ==> CKey(w, d, c) in db.customer)
      && (oa.GetItem? && OnItem(pc) ==> items[oa.n].i in db.item)
      && (oa.GetStock? && OnItem(pc) ==> SKey(items[oa.n].supply, items[oa.n].i) in db.stock)
    case Paying(w, d, cw, cd, c, _, pa) =>
      (pa.ReadWarehouse? ==> w in db.warehouse) && (pa.ReadDistrict? ==> DKey(w, d) in db.district)
      && (pa.ReadCustomer? ==> CKey(cw, cd, c) in db.customer)
    case Delivering(_, _, da) =>
      (da.FindOrder? ==> da.ko in db.order)
      && (da.FindCustomer? ==> CKey(da.ko.w, da.ko.d, da.vo.c) in db.customer)
    case Querying(w, d, _, qa) =>
      (qa.ReadNext? ==> DKey(w, d) in db.district)
      && (qa.ReadStock? && qa.rows != [] ==> SKey(w, qa.rows[0].val.i) in db.stock)
  }

  /** What the invariants say of a worker in the middle of a transaction. */
  ghost predicate Busy(db: Db, me: nat, pc: Pc) {
    !pc.Idle? && SharedOk(db) && PcOk(db, me, pc) && HomeOk(db, pc, pc.w) && 1 <= pc.w <= db.cfg.warehouses
  }

  lemma BusyWorker(s: Sys, i: nat)
    requires SysOk(s) && i < |s.pcs| && !s.pcs[i].Idle?
    ensures Busy(s.db, i, s.pcs[i])
  {
    ActsForOwn(s, i);
    HomeOf(s, s.pcs[i].w);
    hide HomeOk, SharedOk, HomesOk, PcOk;
  }

  // ------------------------------------------------------------------ one step

  lemma LineNames(lines: map<OLKey, OLVal>, k: OLKey, v: OLVal)
    requires LinesName(lines) && IsItem(v.i)
    ensures LinesName(lines[k := v])
  {
  }

  lemma OrderingLinesName(db: Db, me: nat, pc: Pc)
    requires pc.Ordering? && Arguments(db.cfg, pc) && LinesName(db.orderLine)
    ensures LinesName(OrderingWrite(db, me, pc).orderLine)
  {
    if pc.oa.PutLine? && OnItem(pc) {
      var it := pc.items[pc.oa.n];
      assert DrawnItem(db.cfg, it);
      LineNames(db.orderLine, OLKey(pc.w, pc.d, pc.oa.vd.nextOid, pc.oa.n + 1), NewLine(it, pc.oa.price));
    }
    hide StockTaken, TickOf, OrderInserted, LinesName;
  }

  lemma OrderingKeepsKeysOk(db: Db, me: nat, pc: Pc)
    requires pc.Ordering? && Busy(db, me, pc) && KeysOk(db)
    ensures KeysOk(OrderingWrite(db, me, pc))
  {
    OrderingLinesName(db, me, pc);
    var r := OrderingWrite(db, me, pc);
    assert r.warehouse == db.warehouse && r.customer == db.customer && r.cfg == db.cfg;
    hide Busy, OrderingWrite, LinesName;
  }

  lemma PayingKeepsKeysOk(db: Db, me: nat, pc: Pc)
    requires pc.Paying? && Busy(db, me, pc) && KeysOk(db)
    ensures KeysOk(PayingWrite(db, me, pc))
  {
    assert IsCustomer(db.cfg, CKey(pc.cw, pc.cd, pc.c));
    hide SharedOk, HomeOk, TickOf;
  }

  lemma DeliveringLinesName(db: Db, me: nat, pc: Pc)
    requires pc.Delivering? && LinesName(db.orderLine)
    requires pc.da.StampLine? ==> RowsName(pc.da.rows)
    ensures LinesName(DeliveringWrite(db, me, pc).orderLine)
  {
    hide TickOf, Clock, LinesName;
    if pc.da.StampLine? && pc.da.rows != [] {
      var row := pc.da.rows[0];
      LineNames(db.orderLine, row.key, row.val.(deliveryD := Clock(db, me)));
    } else {
      assert DeliveringWrite(db, me, pc).orderLine == db.orderLine;
    }
  }

  lemma CreditedIsCustomer(cfg: Config, pc: Pc)
    requires pc.Delivering? && pc.da.CreditTo? && LocalOk(pc) && 1 <= pc.w <= cfg.warehouses
    ensures IsCustomer(cfg, CKey(pc.da.ko.w, pc.da.ko.d, pc.da.vo.c))
  {
  }

  lemma DeliveringKeepsKeysOk(db: Db, me: nat, pc: Pc)
    requires pc.Delivering? && Busy(db, me, pc) && KeysOk(db) && LocalOk(pc)
    ensures KeysOk(DeliveringWrite(db, me, pc))
  {
    DeliveringLinesName(db, me, pc);
    if pc.da.CreditTo? {
      CreditedIsCustomer(db.cfg, pc);
    }
    var r := DeliveringWrite(db, me, pc);
    assert r.warehouse == db.warehouse && r.cfg == db.cfg && r.customer.Keys == db.customer.Keys by {
      hide LocalOk, Busy;
    }
    hide Busy, LocalOk, DeliveringWrite, LinesName;
  }

  lemma StepKeepsKeysOk(db: Db, me: nat, pc: Pc)
    requires Busy(db, me, pc) && KeysOk(db) && LocalOk(pc)
    ensures KeysOk(Step(db, me, pc).db)
  {
    hide KeysOk, LocalOk, OrderingWrite, PayingWrite, DeliveringWrite, SharedOk, PcOk, HomeOk;
    match pc
    case Idle =>
    case Ordering(_, _, _, _, _) => OrderingKeepsKeysOk(db, me, pc);
    case Paying(_, _, _, _, _, _, _) => PayingKeepsKeysOk(db, me, pc);
    case Delivering(_, _, _) => DeliveringKeepsKeysOk(db, me, pc);
    case Querying(_, _, _, _) =>
  }

  /** Scanned rows name items. */
  lemma ScanNames(db: Db, lower: OLKey, n: nat)
    requires KeysOk(db)
    ensures RowsName(Scan(db.orderLine, lower, n))
  {
    hide IsItem;
  }

  lemma DeliveringKeepsLocal(db: Db, me: nat, pc: Pc)
    requires pc.Delivering? && Busy(db, me, pc) && KeysOk(db) && LocalOk(pc)
    ensures LocalOk(DeliveringNext(db, pc))
  {
    if pc.da.FindOrder? {
      OrderHits(db, pc);
      assert OrderRow(db.order[pc.da.ko]);
    }
    if pc.da.ScanLines? {
      ScanNames(db, OLKey(pc.da.ko.w, pc.da.ko.d, pc.da.ko.o, 0), 10);
    }
    hide SharedOk, HomeOk, KeysOk, PcOk, Scan, IsItem;
  }

  lemma QueryingKeepsLocal(db: Db, pc: Pc)
    requires pc.Querying? && KeysOk(db) && LocalOk(pc)
    ensures LocalOk(QueryingStep(db, pc))
  {
    if pc.qa.ScanRecent? {
      ScanNames(db, OLKey(pc.w, pc.d, pc.qa.lower, 0), 200);
    }
    hide KeysOk, Scan, IsItem;
  }

  lemma StepKeepsLocal(db: Db, me: nat, pc: Pc)
    requires Busy(db, me, pc) && KeysOk(db) && LocalOk(pc)
    ensures LocalOk(Step(db, me, pc).pc)
  {
    match pc
    case Ordering(_, _, _, _, _) =>
      assert OrderingNext(db, pc).Idle? || OrderingNext(db, pc).Ordering?;
    case Paying(_, _, _, _, _, _, _) =>
      assert PayingNext(db, me, pc).Idle? || PayingNext(db, me, pc).Paying?;
    case Delivering(_, _, _) =>
      hide Busy, KeysOk, LocalOk, DeliveringNext;
      DeliveringKeepsLocal(db, me, pc);
    case Querying(_, _, _, _) =>
      hide Busy, KeysOk, LocalOk;
      QueryingKeepsLocal(db, pc);
  }

  lemma BusyGetHits(db: Db, me: nat, pc: Pc)
    requires Busy(db, me, pc) && KeysOk(db) && LocalOk(pc)
    ensures GetHits(db, pc)
  {
    match pc
    case Ordering(w, d, c, items, oa) =>
      if OnItem(pc) {
        ItemHits(db, pc);
      }
      assert IsCustomer(db.cfg, CKey(w, d, c));
      hide HomeOk, OrderingOk, StockInRange;
    case Paying(w, d, cw, cd, c, _, _) =>
      assert IsCustomer(db.cfg, CKey(cw, cd, c));
      hide HomeOk, PayingOk, StockInRange;
    case Delivering(_, _, da) =>
      if da.FindOrder? {
        OrderHits(db, pc);
      }
      assert da.FindCustomer? ==> IsCustomer(db.cfg, CKey(da.ko.w, da.ko.d, da.vo.c));
      hide HomeOk, DeliveringOk, StockInRange;
    case Querying(w, d, _, qa) =>
      assert qa.ReadStock? && qa.rows != [] ==> IsStock(db.cfg, SKey(w, qa.rows[0].val.i));
      hide HomeOk, StockInRange;
  }

  // ------------------------------------------------------------------ every interleaving

  ghost predicate HitsOk(s: Sys) {
    KeysOk(s.db) && forall i :: 0 <= i < |s.pcs| ==> LocalOk(s.pcs[i])
  }

  lemma MoveKeepsHits(s: Sys, m: Move)
    requires SysOk(s) && HitsOk(s) && Enabled(s, m)
    ensures HitsOk(Perform(s, m))
  {
    hide SysOk, Busy, KeysOk;
    match m
    case Start(i, t) =>
      assert LocalOk(Begin(t));
      hide LocalOk;
    case Go(i) =>
      BusyWorker(s, i);
      hide LocalOk, Step;
      StepKeepsKeysOk(s.db, i, s.pcs[i]);
      StepKeepsLocal(s.db, i, s.pcs[i]);
  }

  lemma LoadedHits(db: Db)
    requires Loaded(db)
    ensures HitsOk(InitialSys(db))
  {
    assert forall k: OLKey :: k in db.orderLine ==> LoadedLineRow(k, db.orderLine[k]);
  }

  lemma {:induction false} StatesHit(db: Db, ss: seq<Sys>, ms: seq<Move>, k: nat)
    requires Loaded(db) && Behaviour(db, ss, ms) && k < |ss|
    ensures HitsOk(ss[k])
  {
    hide SysOk, HitsOk, Perform, Enabled, Loaded, Behaviour;
    BehaviourStarts(db, ss, ms);
    if k == 0 {
      LoadedHits(db);
    } else {
      BehaviourMoves(db, ss, ms, k - 1);
      StatesAreOk(db, ss, ms, k - 1);
      StatesHit(db, ss, ms, k - 1);
      MoveKeepsHits(ss[k - 1], ms[k - 1]);
    }
  }

  /** In every interleaving, whatever get a worker does next hits. */
  lemma EveryGetHits(db: Db, ss: seq<Sys>, ms: seq<Move>, k: nat, i: nat)
    requires Loaded(db) && Behaviour(db, ss, ms) && k < |ss| && i < |ss[k].pcs|
    ensures GetHits(ss[k].db, ss[k].pcs[i])
  {
    StatesAreOk(db, ss, ms, k);
    StatesHit(db, ss, ms, k);
    if !ss[k].pcs[i].Idle? {
      BusyWorker(ss[k], i);
      hide Loaded, SysOk, Behaviour, KeysOk, Busy, LocalOk, GetHits;
      BusyGetHits(ss[k].db, i, ss[k].pcs[i]);
    }
  }
}
