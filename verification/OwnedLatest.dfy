/**
 latest_order_id_per_customer in every interleaving: only the owner of a warehouse writes
 the entries of its customers, so between two of its transactions they are maxima.
 */
module OwnedLatest {
  import opened Partition
  import opened Tables
  import opened Scans
  import opened Transactions
  import opened Consistency
  import opened Workers
  import opened Interleaving
  import opened Loader
  import opened Safety
  import opened Hits

  /** The entry of customer k is already set to an order whose ORDER row is not yet inserted. */
  predicate LatestDue(pc: Pc, k: CKey, o: nat) {
    pc.Ordering? && pc.oa.PutOrder? && k == CKey(pc.w, pc.d, pc.c) && o == pc.oa.vd.nextOid
  }

  /** Entries name own orders. */
  ghost predicate EntriesOwn(db: Db, pc: Pc, w: nat) {
    && (forall k: CKey :: k.w == w ==> (k in db.latest <==> IsCustomer(db.cfg, k)))
    && (forall k: CKey :: k.w == w && k in db.latest ==>
          LatestIsOwn(db.order, k, db.latest[k]) || LatestDue(pc, k, db.latest[k]))
  }

  /** Entries are not below any order of the run. */
  ghost predicate EntriesCover(db: Db, pc: Pc, w: nat) {
    && (forall k: OKey :: k in db.order && k.w == w && k.o > LOADED_ORDERS ==>
          CKey(k.w, k.d, db.order[k].c) in db.latest && k.o <= db.latest[CKey(k.w, k.d, db.order[k].c)])
    && (pc.Ordering? && pc.oa.PutOrder? && pc.w == w ==>
          CKey(w, pc.d, pc.c) in db.latest && db.latest[CKey(w, pc.d, pc.c)] == pc.oa.vd.nextOid)
  }

  ghost predicate HomeLatest(db: Db, pc: Pc, w: nat) {
    EntriesOwn(db, pc, w) && EntriesCover(db, pc, w)
  }

  // ------------------------------------------------------------------ the owner's steps

  lemma CachingKeepsLatest(db: Db, me: nat, pc: Pc)
    requires Busy(db, me, pc) && pc.Ordering? && pc.oa.SetLatest? && HomeLatest(db, pc, pc.w)
    ensures HomeLatest(db.(latest := db.latest[CKey(pc.w, pc.d, pc.c) := pc.oa.vd.nextOid]),
                       pc.(oa := PutOrder(pc.oa.vd)), pc.w)
  {
    assert IsCustomer(db.cfg, CKey(pc.w, pc.d, pc.c));
    assert HomeIds(db, pc, pc.w) && DistrictIs(db, pc, pc.oa.vd);
    hide SharedOk, HomeOk, PcOk;
    var r, next := db.(latest := db.latest[CKey(pc.w, pc.d, pc.c) := pc.oa.vd.nextOid]), pc.(oa := PutOrder(pc.oa.vd));
    assert EntriesOwn(r, next, pc.w) by { hide EntriesCover, HomeIds; }
    assert EntriesCover(r, next, pc.w) by { hide EntriesOwn; }
  }

  lemma InsertKeepsLatest(db: Db, pc: Pc, ko: OKey, v: OVal, next: Pc)
    requires pc.Ordering? && pc.oa.PutOrder? && ko == Taken(pc) && v.c == pc.c && ko !in db.order
    requires ko.o > LOADED_ORDERS
    requires HomeLatest(db, pc, pc.w) && !(next.Ordering? && next.oa.PutOrder?)
    ensures HomeLatest(db.(order := db.order[ko := v]), next, pc.w)
  {
    var r := db.(order := db.order[ko := v]);
    assert EntriesOwn(r, next, pc.w) by { hide EntriesCover; }
    assert EntriesCover(r, next, pc.w) by { hide EntriesOwn; }
  }

  /** Rows of ORDER keep their customer, and no row of the warehouse comes or goes. */
  ghost predicate SameCustomers(a: Db, b: Db, w: nat) {
    && a.cfg == b.cfg && (forall k: OKey :: k.w == w ==> (k in a.order <==> k in b.order))
    && (forall k: OKey :: k.w == w && k in a.order ==> a.order[k].c == b.order[k].c)
  }

  lemma LatestFrame(a: Db, b: Db, pc: Pc, next: Pc, w: nat)
    requires HomeLatest(a, pc, w) && SameCustomers(a, b, w) && SameLatest(a, b, w)
    requires (pc.Ordering? && pc.oa.PutOrder? && pc.w == w) ==> next == pc
    requires (next.Ordering? && next.oa.PutOrder? && next.w == w) ==> next == pc
    ensures HomeLatest(b, next, w)
  {
    assert EntriesOwn(b, next, w) by { hide EntriesCover; }
    assert EntriesCover(b, next, w) by { hide EntriesOwn; }
  }

  lemma OrderInsertKeepsLatest(db: Db, me: nat, pc: Pc)
    requires Busy(db, me, pc) && pc.Ordering? && pc.oa.PutOrder? && HomeLatest(db, pc, pc.w)
    ensures HomeLatest(Step(db, me, pc).db, Step(db, me, pc).pc, pc.w)
  {
    assert HomeIds(db, pc, pc.w) && HomeLines(db, pc, pc.w) && DistrictIs(db, pc, pc.oa.vd);
    TakenIsFresh(db, pc);
    var ko, v, next := Taken(pc), OrderInserted(db, me, pc), pc.(oa := GetItem(pc.oa.vd, 0));
    assert ko.o > LOADED_ORDERS;
    var mid, r := db.(order := db.order[ko := v]), Step(db, me, pc);
    assert r == After(mid.(clock := TickOf(db, me)), next);
    hide Busy, HomeLatest, TickOf, Step, HomeIds, HomeLines, AllLocal;
    InsertKeepsLatest(db, pc, ko, v, next);
    LatestFrame(mid, r.db, next, next, pc.w);
  }

  lemma QuietOrdering(db: Db, me: nat, pc: Pc)
    requires pc.Ordering? && OrderingOk(db, pc) && !pc.oa.SetLatest? && !pc.oa.PutOrder?
    ensures OrderingWrite(db, me, pc).order == db.order && OrderingWrite(db, me, pc).latest == db.latest
    ensures !(OrderingNext(db, pc).Ordering? && OrderingNext(db, pc).oa.PutOrder?)
  {
    hide StockTaken, LineAdded, OrderInserted, TickOf;
  }

  lemma QuietDelivering(db: Db, me: nat, pc: Pc)
    requires pc.Delivering? && DeliveringOk(db, pc)
    ensures SameCustomers(db, DeliveringWrite(db, me, pc), pc.w) && DeliveringWrite(db, me, pc).latest == db.latest
    ensures !DeliveringNext(db, pc).Ordering?
  {
    assert !DeliveringNext(db, pc).Ordering? by { hide DeliveringOk, DeliveringWrite; }
    hide DeliveringNext, TickOf, Clock;
  }

  /** The other operations leave the cached ids and the customers of the orders as they are. */
  lemma QuietStep(db: Db, me: nat, pc: Pc)
    requires !pc.Idle? && Busy(db, me, pc) && !(pc.Ordering? && (pc.oa.SetLatest? || pc.oa.PutOrder?))
    ensures SameCustomers(db, Step(db, me, pc).db, pc.w) && SameLatest(db, Step(db, me, pc).db, pc.w)
    ensures !(Step(db, me, pc).pc.Ordering? && Step(db, me, pc).pc.oa.PutOrder?)
  {
    assert Registers(db, pc);
    hide SharedOk, HomeOk, OrderingWrite, OrderingNext, DeliveringWrite, DeliveringNext, OrderingOk, DeliveringOk, PcOk;
    match pc
    case Ordering(_, _, _, _, _) =>
      QuietOrdering(db, me, pc);
      assert OrderingWrite(db, me, pc).cfg == db.cfg by { OrderingKeepsConfig(db, me, pc); }
    case Paying(_, _, _, _, _, _, _) =>
      assert !PayingNext(db, me, pc).Ordering?;
    case Delivering(_, _, _) => QuietDelivering(db, me, pc);
    case Querying(_, _, _, _) =>
  }

  lemma OrderingKeepsConfig(db: Db, me: nat, pc: Pc)
    requires pc.Ordering?
    ensures OrderingWrite(db, me, pc).cfg == db.cfg
  {
  }

  lemma OwnStepKeepsLatest(db: Db, me: nat, pc: Pc)
    requires !pc.Idle? && Busy(db, me, pc) && HomeLatest(db, pc, pc.w)
    ensures HomeLatest(Step(db, me, pc).db, Step(db, me, pc).pc, pc.w)
  {
    hide Busy, HomeLatest, SameCustomers, SameLatest;
    if pc.Ordering? && pc.oa.SetLatest? {
      CachingKeepsLatest(db, me, pc);
      hide StockTaken, LineAdded, OrderInserted, TickOf;
    } else if pc.Ordering? && pc.oa.PutOrder? {
      hide Step;
      OrderInsertKeepsLatest(db, me, pc);
    } else {
      hide Step;
      QuietStep(db, me, pc);
      LatestFrame(db, Step(db, me, pc).db, pc, Step(db, me, pc).pc, pc.w);
    }
  }

  // ------------------------------------------------------------------ every worker's steps

  lemma SameHomeSameCustomers(a: Db, b: Db, w: nat)
    requires SameHome(a, b, w) && a.cfg == b.cfg
    ensures SameCustomers(a, b, w)
  {
  }

  /** A step for one warehouse leaves the cached ids of another one right, whoever owns it. */
  lemma AwayKeepsLatest(db: Db, me: nat, pc: Pc, owner: Pc, next: Pc, w: nat)
    requires !pc.Idle? && Busy(db, me, pc) && pc.w != w && HomeLatest(db, owner, w)
    requires owner == next || ((owner.Idle? || owner.w != w) && (next.Idle? || next.w != w))
    ensures HomeLatest(Step(db, me, pc).db, next, w)
  {
    assert Registers(db, pc);
    NextKeepsArguments(db, me, pc);
    hide Busy, HomeLatest, SameCustomers, SameLatest, SameHome, SameDistricts, Step, Registers, Arguments;
    StepKeepsOtherHomes(db, me, pc, w);
    SameHomeSameCustomers(db, Step(db, me, pc).db, w);
    LatestFrame(db, Step(db, me, pc).db, owner, next, w);
  }

  ghost predicate LatestsOk(s: Sys) {
    s.db.cfg.workers > 0 &&
    forall w: nat :: 1 <= w <= s.db.cfg.warehouses && Owner(s.db.cfg, w) < |s.pcs| ==>
      HomeLatest(s.db, s.pcs[Owner(s.db.cfg, w)], w)
  }

  lemma GoKeepsLatest(s: Sys, i: nat, w: nat)
    requires SysOk(s) && LatestsOk(s) && Enabled(s, Go(i)) && 1 <= w <= s.db.cfg.warehouses
    requires Owner(s.db.cfg, w) < |s.pcs|
    ensures HomeLatest(Step(s.db, i, s.pcs[i]).db, Perform(s, Go(i)).pcs[Owner(s.db.cfg, w)], w)
  {
    var o, pc := Owner(s.db.cfg, w), s.pcs[i];
    var r := Step(s.db, i, pc);
    BusyWorker(s, i);
    ActsForOwn(s, i);
    OwnStep(s.db, i, pc);
    hide SysOk, HomeLatest, Step, Owner, HomeOk, SharedOk, PcOk;
    if w == pc.w {
      OwnStepKeepsLatest(s.db, i, pc);
    } else if o == i {
      AwayKeepsLatest(s.db, i, pc, pc, r.pc, w);
    } else {
      AwayKeepsLatest(s.db, i, pc, s.pcs[o], s.pcs[o], w);
    }
  }

  lemma BeginIsQuiet(db: Db, t: Txn, w: nat)
    requires HomeLatest(db, Idle, w)
    ensures HomeLatest(db, Begin(t), w)
  {
  }

  lemma MoveKeepsLatest(s: Sys, m: Move)
    requires SysOk(s) && LatestsOk(s) && Enabled(s, m)
    ensures LatestsOk(Perform(s, m))
  {
    MoveKeepsSys(s, m);
    var r := Perform(s, m);
    hide SysOk, HomeLatest, Owner, Step;
    forall w: nat | 1 <= w <= r.db.cfg.warehouses && Owner(r.db.cfg, w) < |r.pcs|
      ensures HomeLatest(r.db, r.pcs[Owner(r.db.cfg, w)], w)
    {
      match m
      case Start(i, t) =>
        if Owner(s.db.cfg, w) == i {
          BeginIsQuiet(s.db, t, w);
        }
      case Go(i) => GoKeepsLatest(s, i, w);
    }
  }

  lemma LoadedLatests(db: Db)
    requires Loaded(db)
    ensures LatestsOk(InitialSys(db))
  {
    forall w: nat
      ensures HomeLatest(db, Idle, w)
    {
    }
  }

  lemma {:induction false} StatesCacheLatest(db: Db, ss: seq<Sys>, ms: seq<Move>, k: nat)
    requires Loaded(db) && Behaviour(db, ss, ms) && k < |ss|
    ensures LatestsOk(ss[k])
  {
    hide SysOk, LatestsOk, Perform, Enabled, Loaded, Behaviour;
    BehaviourStarts(db, ss, ms);
    if k == 0 {
      LoadedLatests(db);
    } else {
      BehaviourMoves(db, ss, ms, k - 1);
      StatesAreOk(db, ss, ms, k - 1);
      StatesCacheLatest(db, ss, ms, k - 1);
      MoveKeepsLatest(ss[k - 1], ms[k - 1]);
    }
  }

  /**
   Whenever the owner i of a warehouse is between transactions, the side array holds for each of its customers the
   largest id above 3000 of an order of the customer, or 3000 if there is none.
   */
  lemma IdleOwnerLatest(db: Db, ss: seq<Sys>, ms: seq<Move>, k: nat, i: nat, kc: CKey)
    requires Loaded(db) && Behaviour(db, ss, ms) && k < |ss|
    requires i < |ss[k].pcs| && ss[k].pcs[i].Idle? && Owns(db.cfg, i, kc.w) && IsCustomer(db.cfg, kc)
    ensures kc in ss[k].db.latest && LatestIsOwn(ss[k].db.order, kc, ss[k].db.latest[kc])
    ensures forall x: OKey :: x in ss[k].db.order && x.w == kc.w && x.d == kc.d && ss[k].db.order[x].c == kc.c ==>
              x.o <= ss[k].db.latest[kc]
  {
    StatesAreOk(db, ss, ms, k);
    StatesCacheLatest(db, ss, ms, k);
    OwnerIsUnique(db.cfg, kc.w);
    assert HomeLatest(ss[k].db, Idle, kc.w);
    hide Loaded, Behaviour, SysOk, LatestsOk, Owner, Owns;
  }
}
