/**
 The two queries in every interleaving: a query runs for a warehouse of its own worker, so what it has read of a cached
 id or a counter is still true when it scans.
 */
module OwnedQueries {
  import opened Partition
  import opened Tables
  import opened Scans
  import opened Transactions
  import opened Consistency
  import opened DeliveryScans
  import opened Workers
  import opened Interleaving
  import opened Loader
  import opened Safety
  import opened Hits
  import opened OwnedLatest

  /** The last twenty ids begin at lower when the counter stands at next. */
  predicate BeginsRecent(lower: nat, next: nat) {
    if next >= 20 then lower + 20 == next else lower == 0
  }

  ghost predicate QueryTrue(db: Db, pc: Pc) {
    pc.Querying? ==>
      && (pc.qa.ReadLatest? || pc.qa.ScanStatus? ==> 1 <= pc.d <= DISTRICTS && 1 <= pc.c <= CUSTOMERS)
      && (pc.qa.ScanStatus? ==> IsNewestOf(db.order, OKey(pc.w, pc.d, pc.qa.o), CKey(pc.w, pc.d, pc.c)))
      && (pc.qa.ScanRecent? ==>
            DKey(pc.w, pc.d) in db.district && BeginsRecent(pc.qa.lower, db.district[DKey(pc.w, pc.d)].nextOid))
  }

  /** The cached id names the customer's newest order. */
  lemma CachedIsNewest(db: Db, pc: Pc)
    requires pc.Querying? && SharedOk(db) && HomeIds(db, pc, pc.w) && HomeLatest(db, pc, pc.w)
    requires 1 <= pc.w <= db.cfg.warehouses && 1 <= pc.d <= DISTRICTS && 1 <= pc.c <= CUSTOMERS
    ensures IsNewestOf(db.order, OKey(pc.w, pc.d, Row(db.latest, CKey(pc.w, pc.d, pc.c), LOADED_ORDERS)),
                       CKey(pc.w, pc.d, pc.c))
  {
    var kc := CKey(pc.w, pc.d, pc.c);
    assert IsCustomer(db.cfg, kc) && kc in db.latest && DKey(pc.w, pc.d) in db.district;
    assert LatestIsOwn(db.order, kc, db.latest[kc]);
    assert OKey(pc.w, pc.d, LOADED_ORDERS) in db.order;
    hide HomeIds, SharedOk, EntriesOwn;
    forall k: OKey | PlacedBy(db.order, k, kc)
      ensures k.o <= db.latest[kc]
    {
      assert k in db.order && k.w == pc.w;
    }
    hide HomeLatest;
  }

  lemma QueryingKeepsTrue(db: Db, me: nat, pc: Pc)
    requires pc.Querying? && Busy(db, me, pc) && LocalOk(pc) && HomeLatest(db, pc, pc.w) && QueryTrue(db, pc)
    ensures QueryTrue(db, QueryingStep(db, pc))
  {
    if pc.qa.ReadLatest? {
      assert HomeIds(db, pc, pc.w);
      hide Busy, HomeLatest, HomeIds, SharedOk, IsNewestOf;
      assert Busy(db, me, pc);
      BusyShared(db, me, pc);
      CachedIsNewest(db, pc);
    } else {
      assert DKey(pc.w, pc.d) in db.district;
      hide HomeOk, HomeLatest, IsNewestOf, PcOk, SharedOk;
    }
  }

  lemma BusyShared(db: Db, me: nat, pc: Pc)
    requires Busy(db, me, pc)
    ensures SharedOk(db) && !pc.Idle? && 1 <= pc.w <= db.cfg.warehouses
  {
  }

  lemma OtherKindsAreTrue(db: Db, me: nat, pc: Pc)
    requires !pc.Querying?
    ensures QueryTrue(Step(db, me, pc).db, Step(db, me, pc).pc)
  {
    hide OrderingWrite, PayingWrite, DeliveringWrite;
    assert !Step(db, me, pc).pc.Querying?;
  }

  /** What another worker does leaves it true. */
  lemma TrueFrame(a: Db, b: Db, pc: Pc)
    requires QueryTrue(a, pc) && (!pc.Idle? ==> SameHome(a, b, pc.w))
    ensures QueryTrue(b, pc)
  {
    if pc.Querying? && pc.qa.ScanStatus? {
      NewestFrame(a, b, OKey(pc.w, pc.d, pc.qa.o), CKey(pc.w, pc.d, pc.c));
    }
    hide IsNewestOf;
  }

  lemma NewestFrame(a: Db, b: Db, ko: OKey, kc: CKey)
    requires IsNewestOf(a.order, ko, kc) && SameHome(a, b, kc.w)
    ensures IsNewestOf(b.order, ko, kc)
  {
    forall k: OKey
      ensures PlacedBy(a.order, k, kc) <==> PlacedBy(b.order, k, kc)
    {
    }
    assert ko in b.order;
    hide SameHome, PlacedBy;
  }

  // ------------------------------------------------------------------ every interleaving

  ghost predicate QueriesTrue(s: Sys) {
    forall i :: 0 <= i < |s.pcs| ==> QueryTrue(s.db, s.pcs[i])
  }

  lemma BeginIsTrue(db: Db, t: Txn)
    requires Drawn(db.cfg, t)
    ensures QueryTrue(db, Begin(t))
  {
  }

  lemma OwnStepKeepsTrue(s: Sys, i: nat)
    requires SysOk(s) && HitsOk(s) && LatestsOk(s) && QueriesTrue(s) && i < |s.pcs| && !s.pcs[i].Idle?
    ensures QueryTrue(Step(s.db, i, s.pcs[i]).db, Step(s.db, i, s.pcs[i]).pc)
  {
    var pc := s.pcs[i];
    if pc.Querying? {
      BusyWorker(s, i);
      ActsForOwn(s, i);
      assert LocalOk(pc) && HomeLatest(s.db, pc, pc.w);
      assert QueryTrue(s.db, pc);
      hide SysOk, HitsOk, LatestsOk, QueriesTrue, Busy, LocalOk, HomeLatest, QueryTrue, QueryingStep;
      QueryingKeepsTrue(s.db, i, pc);
    } else {
      OtherKindsAreTrue(s.db, i, pc);
    }
  }

  lemma MoveKeepsQueries(s: Sys, m: Move)
    requires SysOk(s) && HitsOk(s) && LatestsOk(s) && QueriesTrue(s) && Enabled(s, m)
    ensures QueriesTrue(Perform(s, m))
  {
    var r := Perform(s, m);
    hide SysOk, HitsOk, LatestsOk, QueryTrue, Step, SameHome;
    forall j | 0 <= j < |r.pcs|
      ensures QueryTrue(r.db, r.pcs[j])
    {
      match m
      case Start(i, t) =>
        if j == i {
          BeginIsTrue(s.db, t);
        }
      case Go(i) =>
        if j == i {
          OwnStepKeepsTrue(s, i);
        } else {
          OthersKeepTrue(s, i, j);
        }
    }
  }

  lemma OthersKeepTrue(s: Sys, i: nat, j: nat)
    requires SysOk(s) && i < |s.pcs| && j < |s.pcs| && i != j && !s.pcs[i].Idle? && QueryTrue(s.db, s.pcs[j])
    ensures QueryTrue(Step(s.db, i, s.pcs[i]).db, s.pcs[j])
  {
    hide SysOk, Step, SameHome, IsNewestOf;
    if !s.pcs[j].Idle? {
      OthersLeaveHome(s, i, j);
      TrueFrame(s.db, Step(s.db, i, s.pcs[i]).db, s.pcs[j]);
    }
  }

  lemma OthersLeaveHome(s: Sys, i: nat, j: nat)
    requires SysOk(s) && i < |s.pcs| && j < |s.pcs| && i != j && !s.pcs[i].Idle? && !s.pcs[j].Idle?
    ensures SameHome(s.db, Step(s.db, i, s.pcs[i]).db, s.pcs[j].w)
  {
    WorkersApart(s, i, j);
    assert PcOk(s.db, i, s.pcs[i]);
    hide Step, Registers, SameHome, SameDistricts, SameLatest, HomesOk, SharedOk;
    StepKeepsOtherHomes(s.db, i, s.pcs[i], s.pcs[j].w);
  }

  lemma LoadedQueries(db: Db)
    ensures QueriesTrue(InitialSys(db))
  {
  }

  lemma {:induction false} StatesQueryTrue(db: Db, ss: seq<Sys>, ms: seq<Move>, k: nat)
    requires Loaded(db) && Behaviour(db, ss, ms) && k < |ss|
    ensures QueriesTrue(ss[k])
  {
    hide SysOk, HitsOk, LatestsOk, QueriesTrue, Perform, Enabled, Loaded, Behaviour;
    BehaviourStarts(db, ss, ms);
    if k == 0 {
      LoadedQueries(db);
    } else {
      BehaviourMoves(db, ss, ms, k - 1);
      StatesAreOk(db, ss, ms, k - 1);
      StatesHit(db, ss, ms, k - 1);
      StatesCacheLatest(db, ss, ms, k - 1);
      StatesQueryTrue(db, ss, ms, k - 1);
      MoveKeepsQueries(ss[k - 1], ms[k - 1]);
    }
  }

  /**
   In every interleaving, when order-status is about to scan, it scans from the newest order the customer has placed in
   the run, or from order 3000 if there is none.
   */
  lemma StatusScansNewest(db: Db, ss: seq<Sys>, ms: seq<Move>, k: nat, i: nat)
    requires Loaded(db) && Behaviour(db, ss, ms) && k < |ss|
    requires i < |ss[k].pcs| && ss[k].pcs[i].Querying? && ss[k].pcs[i].qa.ScanStatus?
    ensures var pc := ss[k].pcs[i];
            IsNewestOf(ss[k].db.order, OKey(pc.w, pc.d, pc.qa.o), CKey(pc.w, pc.d, pc.c))
  {
    StatesQueryTrue(db, ss, ms, k);
    hide Loaded, Behaviour, IsNewestOf;
    assert QueryTrue(ss[k].db, ss[k].pcs[i]);
  }

  /** In every interleaving, when stock-level is about to scan, it scans the lines from the last twenty ids on. */
  lemma StockLevelScansRecent(db: Db, ss: seq<Sys>, ms: seq<Move>, k: nat, i: nat)
    requires Loaded(db) && Behaviour(db, ss, ms) && k < |ss|
    requires i < |ss[k].pcs| && ss[k].pcs[i].Querying? && ss[k].pcs[i].qa.ScanRecent?
    ensures var pc, s := ss[k].pcs[i], ss[k];
            && Step(s.db, i, pc).pc.Querying? && Step(s.db, i, pc).pc.qa.ReadStock?
            && DKey(pc.w, pc.d) in s.db.district
            && RecentRows(Step(s.db, i, pc).pc.qa.rows, s.db.orderLine, pc.w, pc.d,
                          s.db.district[DKey(pc.w, pc.d)].nextOid)
  {
    var s, pc := ss[k], ss[k].pcs[i];
    StatesQueryTrue(db, ss, ms, k);
    assert QueryTrue(s.db, pc);
    assert Step(s.db, i, pc) == After(s.db, QueryingStep(s.db, pc));
    hide Loaded, Behaviour, RecentRows, QueryingStep, IsNewestOf, StockLevelScan;
    ScanStepIs(s.db, pc);
    StockLevelReadsRecent(s.db, pc.w, pc.d);
  }

  lemma ScanStepIs(db: Db, pc: Pc)
    requires pc.Querying? && pc.qa.ScanRecent? && DKey(pc.w, pc.d) in db.district
    requires BeginsRecent(pc.qa.lower, db.district[DKey(pc.w, pc.d)].nextOid)
    ensures QueryingStep(db, pc) == pc.(qa := ReadStock(StockLevelScan(db, pc.w, pc.d)))
  {
    hide Scan;
  }
}
