/**
 O_ALL_LOCAL in every interleaving: while an order is filled its flag is that of its items, and afterwards it is set
 exactly when the order's own warehouse supplies all its lines.
 */
module OwnedFlags {
  import opened Partition
  import opened Tables
  import opened Scans
  import opened Transactions
  import opened Consistency
  import opened LineLaws
  import opened Workers
  import opened Interleaving
  import opened Loader
  import opened Runs
  import opened Safety
  import opened Hits
  import opened OwnedLines

  /** The lines of an order in progress are those of its first items. */
  ghost predicate FilledSoFar(lines: map<OLKey, OLVal>, ko: OKey, items: seq<Item>, n: nat) {
    n <= |items| && forall j: nat :: OLKey(ko.w, ko.d, ko.o, j) in lines ==>
      1 <= j <= n && lines[OLKey(ko.w, ko.d, ko.o, j)].supply == items[j - 1].supply
  }

  ghost predicate FlagAt(db: Db, pc: Pc, ko: OKey)
    requires ko in db.order
  {
    if Filling(pc, ko)
    then (db.order[ko].allLocal <==> AllLocal(ko.w, pc.items)) && FilledSoFar(db.orderLine, ko, pc.items, pc.oa.n)
    else db.order[ko].allLocal <==> SuppliedAtHome(db.orderLine, ko)
  }

  ghost predicate HomeFlags(db: Db, pc: Pc, w: nat) {
    forall ko: OKey :: ko in db.order && ko.w == w ==> FlagAt(db, pc, ko)
  }

  // ------------------------------------------------------------------ steps that leave flags alone

  /** Orders of the warehouse keep their flags, and their lines come and go in no way and keep their suppliers. */
  ghost predicate SameFlags(a: Db, b: Db, w: nat) {
    && (forall k: OKey :: k.w == w ==> (k in a.order <==> k in b.order))
    && (forall k: OKey :: k.w == w && k in a.order ==> a.order[k].allLocal == b.order[k].allLocal)
    && (forall k: OLKey :: k.w == w ==> (k in a.orderLine <==> k in b.orderLine))
    && (forall k: OLKey :: k.w == w && k in a.orderLine ==> a.orderLine[k].supply == b.orderLine[k].supply)
  }

  ghost predicate SameFilling(pc: Pc, next: Pc, w: nat) {
    forall k: OKey :: k.w == w ==>
      Filling(pc, k) == Filling(next, k) && (Filling(pc, k) ==> pc.items == next.items && pc.oa.n == next.oa.n)
  }

  lemma FlagFrame(a: Db, b: Db, pc: Pc, next: Pc, ko: OKey)
    requires ko in a.order && ko in b.order && FlagAt(a, pc, ko)
    requires SameFlags(a, b, ko.w) && SameFilling(pc, next, ko.w)
    ensures FlagAt(b, next, ko)
  {
    forall j: nat
      ensures OLKey(ko.w, ko.d, ko.o, j) in a.orderLine <==> OLKey(ko.w, ko.d, ko.o, j) in b.orderLine
      ensures OLKey(ko.w, ko.d, ko.o, j) in a.orderLine ==>
                a.orderLine[OLKey(ko.w, ko.d, ko.o, j)].supply == b.orderLine[OLKey(ko.w, ko.d, ko.o, j)].supply
    {
      assert OLKey(ko.w, ko.d, ko.o, j).w == ko.w;
    }
    assert a.order[ko].allLocal == b.order[ko].allLocal;
    hide SameFlags, AllLocal, Filling;
  }

  lemma FlagsFrame(a: Db, b: Db, pc: Pc, next: Pc, w: nat)
    requires HomeFlags(a, pc, w) && SameFlags(a, b, w) && SameFilling(pc, next, w)
    ensures HomeFlags(b, next, w)
  {
    forall ko: OKey | ko in b.order && ko.w == w
      ensures FlagAt(b, next, ko)
    {
      assert ko in a.order;
      hide FlagAt, SameFlags, SameFilling;
      FlagFrame(a, b, pc, next, ko);
    }
  }

  // ------------------------------------------------------------------ the owner's steps

  lemma InsertKeepsFlags(db: Db, pc: Pc, ko: OKey, v: OVal, next: Pc)
    requires pc.Ordering? && pc.oa.PutOrder? && ko == Taken(pc) && ko !in db.order && HomeFlags(db, pc, pc.w)
    requires next == pc.(oa := GetItem(pc.oa.vd, 0)) && v.allLocal == AllLocal(pc.w, pc.items)
    requires forall n: nat :: OLKey(pc.w, pc.d, pc.oa.vd.nextOid, n) !in db.orderLine
    ensures HomeFlags(db.(order := db.order[ko := v]), next, pc.w)
  {
    var r := db.(order := db.order[ko := v]);
    hide AllLocal;
    forall k: OKey | k in r.order && k.w == pc.w
      ensures FlagAt(r, next, k)
    {
      if k != ko {
        assert FlagAt(db, pc, k) && !Filling(pc, k) && !Filling(next, k);
      } else {
        assert FilledSoFar(r.orderLine, ko, pc.items, 0);
      }
    }
  }

  lemma LineKeepsFlags(db: Db, pc: Pc, next: Pc)
    requires pc.Ordering? && pc.oa.PutLine? && OnItem(pc) && HomeFlags(db, pc, pc.w)
    requires next == pc.(oa := GetItem(pc.oa.vd, pc.oa.n + 1))
    ensures HomeFlags(db.(orderLine := LineAdded(db, pc)), next, pc.w)
  {
    var r, mine := db.(orderLine := LineAdded(db, pc)), Taken(pc);
    hide AllLocal;
    forall k: OKey | k in r.order && k.w == pc.w
      ensures FlagAt(r, next, k)
    {
      assert FlagAt(db, pc, k);
      if k == mine {
        NextFilled(db.orderLine, k, pc.items, pc.oa.n, NewLine(pc.items[pc.oa.n], pc.oa.price));
      } else {
        assert !Filling(pc, k) && !Filling(next, k);
        OtherLinesStay(db.orderLine, k, OLKey(mine.w, mine.d, mine.o, pc.oa.n + 1),
                       NewLine(pc.items[pc.oa.n], pc.oa.price));
      }
    }
  }

  lemma NextFilled(lines: map<OLKey, OLVal>, ko: OKey, items: seq<Item>, n: nat, v: OLVal)
    requires n < |items| && FilledSoFar(lines, ko, items, n) && v.supply == items[n].supply
    ensures FilledSoFar(lines[OLKey(ko.w, ko.d, ko.o, n + 1) := v], ko, items, n + 1)
  {
  }

  lemma OtherLinesStay(lines: map<OLKey, OLVal>, ko: OKey, x: OLKey, v: OLVal)
    requires OKey(x.w, x.d, x.o) != ko
    ensures SuppliedAtHome(lines[x := v], ko) <==> SuppliedAtHome(lines, ko)
  {
    forall n: nat
      ensures OLKey(ko.w, ko.d, ko.o, n) != x
    {
    }
  }

  /** When the last item is done, all lines of the order are there. */
  lemma DoneKeepsFlags(db: Db, pc: Pc)
    requires pc.Ordering? && pc.oa.GetItem? && pc.oa.n == |pc.items| && HomeFlags(db, pc, pc.w)
    requires HomeLines(db, pc, pc.w)
    ensures HomeFlags(db, Idle, pc.w)
  {
    forall k: OKey | k in db.order && k.w == pc.w
      ensures FlagAt(db, Idle, k)
    {
      assert FlagAt(db, pc, k);
      if Filling(pc, k) {
        forall n: nat | 1 <= n <= |pc.items|
          ensures OLKey(k.w, k.d, k.o, n) in db.orderLine
        {
          assert OKey(OLKey(k.w, k.d, k.o, n).w, k.d, k.o) == k;
        }
        hide HomeLines, HomeFlags;
        AllFilled(db.orderLine, k, pc.items);
      }
    }
  }

  lemma AllFilled(lines: map<OLKey, OLVal>, ko: OKey, items: seq<Item>)
    requires FilledSoFar(lines, ko, items, |items|)
    requires forall n: nat :: 1 <= n <= |items| ==> OLKey(ko.w, ko.d, ko.o, n) in lines
    ensures AllLocal(ko.w, items) <==> SuppliedAtHome(lines, ko)
  {
    if SuppliedAtHome(lines, ko) {
      forall j | 0 <= j < |items|
        ensures items[j].supply == ko.w
      {
        assert OLKey(ko.w, ko.d, ko.o, j + 1) in lines;
      }
    }
  }

  predicate Changes(pc: Pc) {
    pc.Ordering? && (pc.oa.PutOrder? || pc.oa.PutLine? || (pc.oa.GetItem? && !OnItem(pc)))
  }

  lemma QuietOrderingWrite(db: Db, me: nat, pc: Pc)
    requires pc.Ordering? && OrderingOk(db, pc) && !Changes(pc)
    ensures OrderingWrite(db, me, pc).order == db.order && OrderingWrite(db, me, pc).orderLine == db.orderLine
  {
    hide StockTaken, LineAdded, OrderInserted, TickOf;
  }

  lemma QuietOrderingNext(db: Db, pc: Pc)
    requires OrderingReady(db, pc) && !Changes(pc)
    ensures SameFilling(pc, OrderingNext(db, pc), pc.w)
  {
    if OnItem(pc) {
      ItemHits(db, pc);
    }
    hide SharedOk, StockInRange;
  }

  lemma QuietDelivering(db: Db, me: nat, pc: Pc)
    requires pc.Delivering? && DeliveringOk(db, pc) && RegistersTrue(db, pc)
    ensures SameFlags(db, DeliveringWrite(db, me, pc), pc.w) && SameFilling(pc, DeliveringNext(db, pc), pc.w)
  {
    StampingKeepsLines(db, me, pc);
    var r := DeliveringWrite(db, me, pc);
    assert forall k: OKey :: k in db.order <==> k in r.order by { hide RegistersTrue, TickOf, Clock; }
    assert forall k: OKey :: k in db.order ==> r.order[k].allLocal == db.order[k].allLocal by {
      hide RegistersTrue, TickOf, Clock;
    }
    assert !DeliveringNext(db, pc).Ordering? by { hide RegistersTrue, DeliveringOk; }
    hide DeliveringWrite, DeliveringNext, RegistersTrue, DeliveringOk;
  }

  lemma QuietStep(db: Db, me: nat, pc: Pc)
    requires Busy(db, me, pc) && RegistersTrue(db, pc) && !Changes(pc)
    ensures SameFlags(db, Step(db, me, pc).db, pc.w) && SameFilling(pc, Step(db, me, pc).pc, pc.w)
  {
    assert Registers(db, pc) && Arguments(db.cfg, pc);
    hide SharedOk, HomeOk, OrderingWrite, OrderingNext, DeliveringWrite, DeliveringNext, OrderingOk, DeliveringOk, PcOk,
         RegistersTrue, Drawn;
    match pc
    case Idle =>
    case Ordering(_, _, _, _, _) =>
      QuietOrderingWrite(db, me, pc);
      QuietOrderingNext(db, pc);
    case Paying(_, _, _, _, _, _, _) =>
      assert !PayingNext(db, me, pc).Ordering?;
    case Delivering(_, _, _) => QuietDelivering(db, me, pc);
    case Querying(_, _, _, _) =>
      assert !QueryingStep(db, pc).Ordering?;
  }

  lemma OrderInsertKeepsFlags(db: Db, me: nat, pc: Pc)
    requires Busy(db, me, pc) && pc.Ordering? && pc.oa.PutOrder? && HomeFlags(db, pc, pc.w)
    ensures HomeFlags(Step(db, me, pc).db, Step(db, me, pc).pc, pc.w)
  {
    assert HomeIds(db, pc, pc.w) && HomeLines(db, pc, pc.w) && OrderingOk(db, pc);
    TakenIsFresh(db, pc);
    var ko, v, next := Taken(pc), OrderInserted(db, me, pc), pc.(oa := GetItem(pc.oa.vd, 0));
    var mid, r := db.(order := db.order[ko := v]), Step(db, me, pc);
    assert r == After(mid.(clock := TickOf(db, me)), next) && v.allLocal == AllLocal(pc.w, pc.items);
    hide Busy, HomeFlags, TickOf, Step, HomeIds, HomeLines, AllLocal, OrderingOk;
    InsertKeepsFlags(db, pc, ko, v, next);
    ClockKeepsFlags(mid, TickOf(db, me), next, pc.w);
  }

  lemma ClockKeepsFlags(db: Db, clock: map<nat, nat>, pc: Pc, w: nat)
    requires HomeFlags(db, pc, w)
    ensures HomeFlags(db.(clock := clock), pc, w)
  {
    hide FlagAt;
    forall ko: OKey | ko in db.order && ko.w == w
      ensures FlagAt(db.(clock := clock), pc, ko)
    {
      ClockKeepsFlag(db, clock, pc, ko);
    }
  }

  lemma ClockKeepsFlag(db: Db, clock: map<nat, nat>, pc: Pc, ko: OKey)
    requires ko in db.order && FlagAt(db, pc, ko)
    ensures FlagAt(db.(clock := clock), pc, ko)
  {
    hide AllLocal, SuppliedAtHome, FilledSoFar;
  }

  lemma ChangeKeepsFlags(db: Db, me: nat, pc: Pc)
    requires Busy(db, me, pc) && Changes(pc) && !pc.oa.PutOrder? && HomeFlags(db, pc, pc.w)
    ensures HomeFlags(Step(db, me, pc).db, Step(db, me, pc).pc, pc.w)
  {
    assert OrderingOk(db, pc) && HomeLines(db, pc, pc.w);
    if pc.oa.PutLine? {
      assert OnItem(pc);
      LineStepIs(db, me, pc);
      hide Busy, HomeFlags, OrderingOk, HomeLines, LineAdded, Step;
      LineKeepsFlags(db, pc, pc.(oa := GetItem(pc.oa.vd, pc.oa.n + 1)));
    } else {
      EndStepIs(db, me, pc);
      hide Busy, HomeFlags, OrderingNext, OrderingWrite, HomeLines, Step;
      DoneKeepsFlags(db, pc);
    }
  }

  lemma LineStepIs(db: Db, me: nat, pc: Pc)
    requires pc.Ordering? && pc.oa.PutLine? && OnItem(pc)
    ensures Step(db, me, pc) == After(db.(orderLine := LineAdded(db, pc)), pc.(oa := GetItem(pc.oa.vd, pc.oa.n + 1)))
  {
    hide LineAdded;
  }

  lemma EndStepIs(db: Db, me: nat, pc: Pc)
    requires pc.Ordering? && pc.oa.GetItem? && !OnItem(pc)
    ensures Step(db, me, pc) == After(db, Idle)
  {
  }

  lemma OwnStepKeepsFlags(db: Db, me: nat, pc: Pc)
    requires !pc.Idle? && Busy(db, me, pc) && RegistersTrue(db, pc) && HomeFlags(db, pc, pc.w)
    ensures HomeFlags(Step(db, me, pc).db, Step(db, me, pc).pc, pc.w)
  {
    hide Busy, HomeFlags, RegistersTrue, SameFlags, SameFilling, Step;
    if !Changes(pc) {
      QuietStep(db, me, pc);
      FlagsFrame(db, Step(db, me, pc).db, pc, Step(db, me, pc).pc, pc.w);
    } else if pc.oa.PutOrder? {
      OrderInsertKeepsFlags(db, me, pc);
    } else {
      ChangeKeepsFlags(db, me, pc);
    }
  }

  // ------------------------------------------------------------------ every worker's steps

  lemma SameHomeSameFlags(a: Db, b: Db, w: nat)
    requires SameHome(a, b, w) && LinesStay(a.orderLine, b.orderLine)
    ensures SameFlags(a, b, w)
  {
  }

  lemma AwayIsUnfilled(owner: Pc, next: Pc, w: nat)
    requires owner == next || ((owner.Idle? || owner.w != w) && (next.Idle? || next.w != w))
    ensures SameFilling(owner, next, w)
  {
  }

  /** A step for one warehouse leaves the flags of another one right, whoever owns it. */
  lemma AwayKeepsFlags(db: Db, me: nat, pc: Pc, owner: Pc, next: Pc, w: nat)
    requires !pc.Idle? && Busy(db, me, pc) && RegistersTrue(db, pc) && PricesOk(db)
    requires pc.w != w && HomeFlags(db, owner, w)
    requires owner == next || ((owner.Idle? || owner.w != w) && (next.Idle? || next.w != w))
    ensures HomeFlags(Step(db, me, pc).db, next, w)
  {
    assert Registers(db, pc);
    AwayIsUnfilled(owner, next, w);
    StepKeepsLines(db, me, pc);
    hide Busy, HomeFlags, SameFlags, SameFilling, SameLatest, SameHome, SameDistricts, Step, Registers, LinesStay,
         RegistersTrue, PricesOk;
    StepKeepsOtherHomes(db, me, pc, w);
    SameHomeSameFlags(db, Step(db, me, pc).db, w);
    FlagsFrame(db, Step(db, me, pc).db, owner, next, w);
  }

  ghost predicate FlagsOk(s: Sys) {
    s.db.cfg.workers > 0 &&
    forall w: nat :: 1 <= w <= s.db.cfg.warehouses && Owner(s.db.cfg, w) < |s.pcs| ==>
      HomeFlags(s.db, s.pcs[Owner(s.db.cfg, w)], w)
  }

  lemma GoKeepsFlags(s: Sys, i: nat, w: nat)
    requires SysOk(s) && LinesTrue(s) && FlagsOk(s) && Enabled(s, Go(i)) && 1 <= w <= s.db.cfg.warehouses
    requires Owner(s.db.cfg, w) < |s.pcs|
    ensures HomeFlags(Step(s.db, i, s.pcs[i]).db, Perform(s, Go(i)).pcs[Owner(s.db.cfg, w)], w)
  {
    var o, pc := Owner(s.db.cfg, w), s.pcs[i];
    var r := Step(s.db, i, pc);
    BusyWorker(s, i);
    ActsForOwn(s, i);
    OwnStep(s.db, i, pc);
    hide SysOk, HomeFlags, Step, Owner, HomeOk, SharedOk, PcOk, RegistersTrue, PricesOk;
    if w == pc.w {
      OwnStepKeepsFlags(s.db, i, pc);
    } else if o == i {
      AwayKeepsFlags(s.db, i, pc, pc, r.pc, w);
    } else {
      AwayKeepsFlags(s.db, i, pc, s.pcs[o], s.pcs[o], w);
    }
  }

  lemma BeginIsUnfilled(db: Db, t: Txn, w: nat)
    requires HomeFlags(db, Idle, w)
    ensures HomeFlags(db, Begin(t), w)
  {
    assert SameFilling(Idle, Begin(t), w);
    assert SameFlags(db, db, w);
    hide HomeFlags, SameFilling, SameFlags;
    FlagsFrame(db, db, Idle, Begin(t), w);
  }

  lemma MoveKeepsFlags(s: Sys, m: Move)
    requires SysOk(s) && LinesTrue(s) && FlagsOk(s) && Enabled(s, m)
    ensures FlagsOk(Perform(s, m))
  {
    MoveKeepsSys(s, m);
    var r := Perform(s, m);
    hide SysOk, LinesTrue, HomeFlags, Owner, Step;
    forall w: nat | 1 <= w <= r.db.cfg.warehouses && Owner(r.db.cfg, w) < |r.pcs|
      ensures HomeFlags(r.db, r.pcs[Owner(r.db.cfg, w)], w)
    {
      match m
      case Start(i, t) =>
        if Owner(s.db.cfg, w) == i {
          BeginIsUnfilled(s.db, t, w);
        }
      case Go(i) => GoKeepsFlags(s, i, w);
    }
  }

  lemma LoadedFlags(db: Db)
    requires Loaded(db)
    ensures FlagsOk(InitialSys(db))
  {
    LoadedRowsSay(db);
    assert db.cfg.workers > 0;
    hide Loaded;
    forall w: nat
      ensures HomeFlags(db, Idle, w)
    {
    }
  }

  lemma {:induction false} StatesKeepFlags(db: Db, ss: seq<Sys>, ms: seq<Move>, k: nat)
    requires Loaded(db) && Behaviour(db, ss, ms) && k < |ss|
    ensures FlagsOk(ss[k])
  {
    hide SysOk, LinesTrue, FlagsOk, Perform, Enabled, Loaded, Behaviour;
    BehaviourStarts(db, ss, ms);
    if k == 0 {
      LoadedFlags(db);
    } else {
      BehaviourMoves(db, ss, ms, k - 1);
      StatesAreOk(db, ss, ms, k - 1);
      StatesAreTrue(db, ss, ms, k - 1);
      StatesKeepFlags(db, ss, ms, k - 1);
      MoveKeepsFlags(ss[k - 1], ms[k - 1]);
    }
  }

  /**
   Whenever the owner i of a warehouse is between transactions, each of its orders is marked local exactly when the
   warehouse itself supplies all the lines of the order.
   */
  lemma IdleOwnerLocal(db: Db, ss: seq<Sys>, ms: seq<Move>, k: nat, i: nat, ko: OKey)
    requires Loaded(db) && Behaviour(db, ss, ms) && k < |ss|
    requires i < |ss[k].pcs| && ss[k].pcs[i].Idle? && Owns(db.cfg, i, ko.w) && ko in ss[k].db.order
    ensures ss[k].db.order[ko].allLocal <==>
              forall n: nat :: OLKey(ko.w, ko.d, ko.o, n) in ss[k].db.orderLine ==>
                ss[k].db.orderLine[OLKey(ko.w, ko.d, ko.o, n)].supply == ko.w
  {
    StatesAreOk(db, ss, ms, k);
    StatesKeepFlags(db, ss, ms, k);
    OwnedExists(db.cfg, i, ko.w);
    OwnerIsUnique(db.cfg, ko.w);
    assert HomeFlags(ss[k].db, Idle, ko.w);
    hide Loaded, Behaviour, SysOk, FlagsOk, Owner, Owns;
    assert FlagAt(ss[k].db, Idle, ko);
  }
}
