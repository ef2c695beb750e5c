/**
 W_YTD, D_YTD and HISTORY in every interleaving: the rows of a warehouse are written by its
 owner alone, so clauses 3.3.2.1, 3.3.2.8 and 3.3.2.9 of TPC-C hold whenever the owner is
 between transactions, and no history row is ever overwritten.
 */
module OwnedMoney {
  import opened MapSum
  import opened Partition
  import opened Tables
  import opened Scans
  import opened Transactions
  import opened Consistency
  import opened MoneyLaws
  import opened Workers
  import opened Interleaving
  import opened Loader
  import opened Runs
  import opened Safety
  import opened Hits

  /** What a payment has added to W_YTD and not yet to D_YTD. */
  function Charged(pc: Pc, w: nat): int {
    if pc.Paying? && pc.w == w && (pc.pa.ReadDistrict? || pc.pa.WriteDistrict?) then pc.amount else 0
  }

  /** What a payment has added to D_YTD and not yet to HISTORY. */
  function Unrecorded(pc: Pc, w: nat, d: nat): int {
    if pc.Paying? && pc.w == w && pc.d == d && (pc.pa.ReadCustomer? || pc.pa.WriteCustomer? || pc.pa.WriteHistory?)
    then pc.amount else 0
  }

  /** Every history row of worker me's warehouses is stamped below this. */
  function StampLimit(db: Db, me: nat, pc: Pc): nat {
    if pc.Paying? && !pc.pa.ReadWarehouse? then pc.pa.ts else Clock(db, me)
  }

  ghost predicate HomeYtd(db: Db, pc: Pc, w: nat) {
    w in db.warehouse && db.warehouse[w].ytd == DistrictsYtd(db.district, w, DISTRICTS) + Charged(pc, w)
  }

  ghost predicate HomeHistory(db: Db, pc: Pc, w: nat) {
    forall k: DKey :: k in db.district && k.w == w ==>
      db.district[k].ytd == Sum(DistrictHistory(db.history, w, k.d)) + Unrecorded(pc, w, k.d)
  }

  ghost predicate HomeStamps(db: Db, limit: nat, w: nat) {
    forall k: HKey :: k in db.history && k.w == w ==> k.date < limit && 1 <= k.d <= DISTRICTS
  }

  ghost predicate HomeMoney(db: Db, me: nat, pc: Pc, w: nat) {
    HomeYtd(db, pc, w) && HomeHistory(db, pc, w) && HomeStamps(db, StampLimit(db, me, pc), w)
  }

  /** What the registers of a payment have to do with the rows they were computed from. */
  ghost predicate MoneyRegisters(db: Db, me: nat, pc: Pc) {
    pc.Paying? ==>
      (!pc.pa.ReadWarehouse? ==> pc.pa.ts < Clock(db, me))
      && (pc.pa.WriteWarehouse? ==> pc.w in db.warehouse && pc.pa.vw.ytd == db.warehouse[pc.w].ytd + pc.amount)
      && (pc.pa.WriteDistrict? ==> DKey(pc.w, pc.d) in db.district
                                   && pc.pa.vd.ytd == db.district[DKey(pc.w, pc.d)].ytd + pc.amount)
  }

  // ------------------------------------------------------------------ frames

  ghost predicate SameMoney(a: Db, b: Db, w: nat) {
    && (w in a.warehouse <==> w in b.warehouse) && (w in a.warehouse ==> a.warehouse[w] == b.warehouse[w])
    && (forall k: DKey :: k.w == w ==> (k in a.district <==> k in b.district))
    && (forall k: DKey :: k.w == w && k in a.district ==> a.district[k].ytd == b.district[k].ytd)
    && SameHistory(a.history, b.history, w)
  }

  ghost predicate SameHistory(a: map<HKey, int>, b: map<HKey, int>, w: nat) {
    && (forall k: HKey :: k.w == w ==> (k in a <==> k in b))
    && (forall k: HKey :: k.w == w && k in a ==> a[k] == b[k])
  }

  lemma {:induction false} SameDistrictsYtd(a: Db, b: Db, w: nat, n: nat)
    requires SameMoney(a, b, w)
    ensures DistrictsYtd(a.district, w, n) == DistrictsYtd(b.district, w, n)
  {
    if n > 0 {
      assert DKey(w, n) in a.district <==> DKey(w, n) in b.district;
      SameDistrictsYtd(a, b, w, n - 1);
    }
  }

  lemma HistoryFrame(a: map<HKey, int>, b: map<HKey, int>, w: nat, d: nat)
    requires SameHistory(a, b, w)
    ensures DistrictHistory(a, w, d) == DistrictHistory(b, w, d)
  {
  }

  lemma MoneyFrame(a: Db, b: Db, me: nat, pc: Pc, next: Pc, w: nat)
    requires HomeMoney(a, me, pc, w) && SameMoney(a, b, w)
    requires Charged(pc, w) == Charged(next, w) && forall d: nat :: Unrecorded(pc, w, d) == Unrecorded(next, w, d)
    requires StampLimit(a, me, pc) <= StampLimit(b, me, next)
    ensures HomeMoney(b, me, next, w)
  {
    hide Charged, Unrecorded, StampLimit, DistrictHistory, DistrictsYtd;
    SameDistrictsYtd(a, b, w, DISTRICTS);
    forall k: DKey | k in b.district && k.w == w
      ensures b.district[k].ytd == Sum(DistrictHistory(b.history, w, k.d)) + Unrecorded(next, w, k.d)
    {
      HistoryFrame(a.history, b.history, w, k.d);
    }
    assert HomeYtd(b, next, w);
  }

  lemma RegistersOfMoneyFrame(a: Db, b: Db, me: nat, pc: Pc)
    requires MoneyRegisters(a, me, pc) && (pc.Paying? ==> SameMoney(a, b, pc.w)) && Clock(a, me) == Clock(b, me)
    ensures MoneyRegisters(b, me, pc)
  {
  }

  // ------------------------------------------------------------------ what a step leaves alone

  lemma OrderingKeepsMoney(db: Db, me: nat, pc: Pc, w: nat)
    requires pc.Ordering? && OrderingOk(db, pc)
    ensures SameMoney(db, OrderingWrite(db, me, pc), w)
  {
    hide StockTaken, LineAdded, OrderInserted, TickOf, LinesBegun;
  }

  lemma PayingKeepsOtherMoney(db: Db, me: nat, pc: Pc, w: nat)
    requires pc.Paying? && pc.w != w
    ensures SameMoney(db, PayingWrite(db, me, pc), w)
  {
    hide TickOf;
  }

  lemma DeliveringKeepsMoney(db: Db, me: nat, pc: Pc, w: nat)
    requires pc.Delivering?
    ensures SameMoney(db, DeliveringWrite(db, me, pc), w)
  {
    var r := DeliveringWrite(db, me, pc);
    assert r.warehouse == db.warehouse && r.district == db.district && r.history == db.history;
    hide DeliveringWrite;
  }

  /** Only payments move money, and only that of the warehouse they are for. */
  lemma StepKeepsMoney(db: Db, me: nat, pc: Pc, w: nat)
    requires !pc.Idle? && Registers(db, pc) && (pc.Paying? ==> pc.w != w)
    ensures SameMoney(db, Step(db, me, pc).db, w)
  {
    hide OrderingWrite, PayingWrite, DeliveringWrite, SameMoney, OrderingOk, DeliveringOk, PayingOk;
    match pc
    case Ordering(_, _, _, _, _) => OrderingKeepsMoney(db, me, pc, w);
    case Paying(_, _, _, _, _, _, _) => PayingKeepsOtherMoney(db, me, pc, w);
    case Delivering(_, _, _) => DeliveringKeepsMoney(db, me, pc, w);
    case Querying(_, _, _, _) => SameMoneyItself(db, w);
  }

  lemma SameMoneyItself(db: Db, w: nat)
    ensures SameMoney(db, db, w)
  {
  }

  /** A worker's clock is ticked by its own operations only, and never set back. */
  lemma StepTicks(db: Db, me: nat, pc: Pc, other: nat)
    ensures Clock(Step(db, me, pc).db, other) >= Clock(db, other)
    ensures other != me ==> Clock(Step(db, me, pc).db, other) == Clock(db, other)
    ensures pc.Paying? ==> Clock(Step(db, me, pc).db, me) == Clock(db, me) + if pc.pa.ReadWarehouse? then 1 else 0
  {
    hide StockTaken, LineAdded, OrderInserted, OrderingNext, PayingNext, DeliveringNext, QueryingStep;
  }

  /** The limit of the stamps rises. */
  lemma LimitRises(db: Db, me: nat, pc: Pc)
    requires !pc.Idle? && MoneyRegisters(db, me, pc)
    ensures StampLimit(db, me, pc) <= StampLimit(Step(db, me, pc).db, me, Step(db, me, pc).pc)
  {
    StepTicks(db, me, pc, me);
    NextKind(db, me, pc);
    hide Step, Clock;
  }

  /** A worker goes on with the kind of transaction it is in; a payment carries its stamp. */
  lemma NextKind(db: Db, me: nat, pc: Pc)
    requires !pc.Idle?
    ensures var next := Step(db, me, pc).pc;
            (next.Paying? ==> pc.Paying? && !next.pa.ReadWarehouse?
                              && next.pa.ts == if pc.pa.ReadWarehouse? then Clock(db, me) else pc.pa.ts)
  {
    hide OrderingWrite, PayingWrite, DeliveringWrite, Clock;
  }

  // ------------------------------------------------------------------ the owner's payment

  lemma ChargeKeepsYtd(db: Db, pc: Pc, vd: DVal)
    requires pc.Paying? && pc.pa.WriteDistrict? && 1 <= pc.d <= DISTRICTS && DKey(pc.w, pc.d) in db.district
    requires vd.ytd == db.district[DKey(pc.w, pc.d)].ytd + pc.amount && HomeYtd(db, pc, pc.w)
    ensures HomeYtd(db.(district := db.district[DKey(pc.w, pc.d) := vd]), pc.(pa := ReadCustomer(pc.pa.ts)), pc.w)
  {
    hide DistrictsYtd;
    YtdUpdate(db.district, DKey(pc.w, pc.d), vd, pc.w, DISTRICTS);
  }

  lemma ChargeKeepsHistory(db: Db, pc: Pc, vd: DVal)
    requires pc.Paying? && pc.pa.WriteDistrict? && DKey(pc.w, pc.d) in db.district
    requires vd.ytd == db.district[DKey(pc.w, pc.d)].ytd + pc.amount && HomeHistory(db, pc, pc.w)
    ensures HomeHistory(db.(district := db.district[DKey(pc.w, pc.d) := vd]), pc.(pa := ReadCustomer(pc.pa.ts)), pc.w)
  {
    hide DistrictHistory;
  }

  /** The key a payment is about to insert into HISTORY is unused. */
  lemma HistoryKeyIsFresh(db: Db, me: nat, pc: Pc)
    requires pc.Paying? && pc.pa.WriteHistory? && HomeMoney(db, me, pc, pc.w)
    ensures HKey(pc.w, pc.d, pc.cw, pc.cd, pc.c, pc.pa.ts) !in db.history
  {
    hide HomeYtd, HomeHistory;
  }

  lemma RecordKeepsHistory(db: Db, pc: Pc, x: HKey)
    requires pc.Paying? && pc.pa.WriteHistory? && x !in db.history && x.w == pc.w && x.d == pc.d
    requires HomeHistory(db, pc, pc.w)
    ensures HomeHistory(db.(history := db.history[x := pc.amount]), Idle, pc.w)
  {
    var r := db.(history := db.history[x := pc.amount]);
    hide DistrictHistory;
    forall k: DKey | k in r.district && k.w == pc.w
      ensures r.district[k].ytd == Sum(DistrictHistory(r.history, pc.w, k.d)) + Unrecorded(Idle, pc.w, k.d)
    {
      HistoryInsert(db.history, x, pc.amount, pc.w, k.d);
    }
  }

  lemma RecordKeepsStamps(db: Db, x: HKey, v: int, ts: nat, limit: nat, w: nat)
    requires HomeStamps(db, ts, w) && ts < limit && x.date == ts && 1 <= x.d <= DISTRICTS
    ensures HomeStamps(db.(history := db.history[x := v]), limit, w)
  {
  }

  ghost predicate PayingReady(db: Db, me: nat, pc: Pc) {
    pc.Paying? && Busy(db, me, pc) && MoneyRegisters(db, me, pc) && HomeMoney(db, me, pc, pc.w)
  }

  lemma WarehouseWriteKeepsMoney(db: Db, me: nat, pc: Pc)
    requires PayingReady(db, me, pc) && pc.pa.WriteWarehouse?
    ensures HomeMoney(db.(warehouse := db.warehouse[pc.w := pc.pa.vw]), me, pc.(pa := ReadDistrict(pc.pa.ts)), pc.w)
  {
    hide Busy, DistrictHistory, DistrictsYtd;
    var r, next := db.(warehouse := db.warehouse[pc.w := pc.pa.vw]), pc.(pa := ReadDistrict(pc.pa.ts));
    assert HomeYtd(r, next, pc.w) by { hide HomeHistory, HomeStamps; }
    assert HomeHistory(r, next, pc.w) by { hide HomeYtd, HomeStamps; }
    assert HomeStamps(r, StampLimit(r, me, next), pc.w) by { hide HomeYtd, HomeHistory; }
  }

  lemma DistrictWriteKeepsMoney(db: Db, me: nat, pc: Pc)
    requires PayingReady(db, me, pc) && pc.pa.WriteDistrict?
    ensures HomeMoney(db.(district := db.district[DKey(pc.w, pc.d) := pc.pa.vd]), me,
                      pc.(pa := ReadCustomer(pc.pa.ts)), pc.w)
  {
    assert 1 <= pc.d <= DISTRICTS;
    hide Busy;
    ChargeKeepsYtd(db, pc, pc.pa.vd);
    ChargeKeepsHistory(db, pc, pc.pa.vd);
    hide HomeYtd, HomeHistory;
  }

  lemma HistoryWriteKeepsMoney(db: Db, me: nat, pc: Pc)
    requires PayingReady(db, me, pc) && pc.pa.WriteHistory?
    ensures var x := HKey(pc.w, pc.d, pc.cw, pc.cd, pc.c, pc.pa.ts);
            HomeMoney(db.(history := db.history[x := pc.amount]), me, Idle, pc.w)
  {
    assert 1 <= pc.d <= DISTRICTS;
    HistoryKeyIsFresh(db, me, pc);
    hide Busy, DistrictHistory, DistrictsYtd;
    var x := HKey(pc.w, pc.d, pc.cw, pc.cd, pc.c, pc.pa.ts);
    RecordKeepsHistory(db, pc, x);
    RecordKeepsStamps(db, x, pc.amount, pc.pa.ts, Clock(db, me), pc.w);
    assert HomeYtd(db.(history := db.history[x := pc.amount]), Idle, pc.w);
    hide HomeHistory, HomeStamps;
  }

  /** Reads move nothing. */
  lemma ReadKeepsMoney(db: Db, me: nat, pc: Pc)
    requires PayingReady(db, me, pc) && !pc.pa.WriteWarehouse? && !pc.pa.WriteDistrict? && !pc.pa.WriteHistory?
    ensures HomeMoney(PayingWrite(db, me, pc), me, PayingNext(db, me, pc), pc.w)
  {
    var r, next := PayingWrite(db, me, pc), PayingNext(db, me, pc);
    LimitRises(db, me, pc);
    assert SameMoney(db, r, pc.w) by {
      assert r.warehouse == db.warehouse && r.district == db.district && r.history == db.history by {
        hide Busy, HomeMoney;
      }
      hide PayingWrite, HomeMoney, Busy;
    }
    assert Charged(pc, pc.w) == Charged(next, pc.w)
        && forall d: nat :: Unrecorded(pc, pc.w, d) == Unrecorded(next, pc.w, d) by {
      hide HomeMoney, Busy, PayingWrite;
    }
    hide PayingWrite, PayingNext, HomeMoney, SameMoney, Busy, Charged, Unrecorded, StampLimit;
    MoneyFrame(db, r, me, pc, next, pc.w);
  }

  lemma OwnStepKeepsMoney(db: Db, me: nat, pc: Pc)
    requires !pc.Idle? && Busy(db, me, pc) && MoneyRegisters(db, me, pc) && HomeMoney(db, me, pc, pc.w)
    ensures HomeMoney(Step(db, me, pc).db, me, Step(db, me, pc).pc, pc.w)
  {
    if pc.Paying? {
      OwnPaymentKeepsMoney(db, me, pc);
    } else {
      assert Registers(db, pc);
      NextKind(db, me, pc);
      LimitRises(db, me, pc);
      hide Busy, HomeMoney, Step, SameMoney, Registers, StampLimit;
      StepKeepsMoney(db, me, pc, pc.w);
      MoneyFrame(db, Step(db, me, pc).db, me, pc, Step(db, me, pc).pc, pc.w);
    }
  }

  lemma OwnPaymentKeepsMoney(db: Db, me: nat, pc: Pc)
    requires pc.Paying? && PayingReady(db, me, pc)
    ensures HomeMoney(Step(db, me, pc).db, me, Step(db, me, pc).pc, pc.w)
  {
    hide PayingReady, HomeMoney, TickOf, Clock;
    if pc.pa.WriteWarehouse? {
      WarehouseWriteKeepsMoney(db, me, pc);
    } else if pc.pa.WriteDistrict? {
      DistrictWriteKeepsMoney(db, me, pc);
    } else if pc.pa.WriteHistory? {
      HistoryWriteKeepsMoney(db, me, pc);
    } else {
      hide PayingWrite, PayingNext;
      ReadKeepsMoney(db, me, pc);
    }
  }

  lemma OwnStepKeepsRegisters(db: Db, me: nat, pc: Pc)
    requires !pc.Idle? && Busy(db, me, pc) && MoneyRegisters(db, me, pc) && HomeMoney(db, me, pc, pc.w)
    ensures MoneyRegisters(Step(db, me, pc).db, me, Step(db, me, pc).pc)
  {
    StepTicks(db, me, pc, me);
    NextKind(db, me, pc);
    if pc.Paying? {
      assert DKey(pc.w, pc.d) in db.district && pc.w in db.warehouse;
      hide Busy, HomeMoney, TickOf, Clock;
    } else {
      hide Busy, HomeMoney, Step;
    }
  }

  // ------------------------------------------------------------------ every worker's steps

  ghost predicate MoneysOk(s: Sys) {
    && s.db.cfg.workers > 0
    && (forall i :: 0 <= i < |s.pcs| ==> MoneyRegisters(s.db, i, s.pcs[i]))
    && (forall w: nat :: 1 <= w <= s.db.cfg.warehouses && Owner(s.db.cfg, w) < |s.pcs| ==>
          HomeMoney(s.db, Owner(s.db.cfg, w), s.pcs[Owner(s.db.cfg, w)], w))
  }

  lemma OwnsHome(s: Sys, i: nat)
    requires SysOk(s) && MoneysOk(s) && i < |s.pcs| && !s.pcs[i].Idle?
    ensures Busy(s.db, i, s.pcs[i]) && MoneyRegisters(s.db, i, s.pcs[i]) && HomeMoney(s.db, i, s.pcs[i], s.pcs[i].w)
  {
    BusyWorker(s, i);
    ActsForOwn(s, i);
    hide SysOk, Busy, HomeMoney, MoneyRegisters;
  }

  /** The owner is busy with another warehouse. */
  lemma AwayKeepsMoney(db: Db, me: nat, pc: Pc, w: nat)
    requires !pc.Idle? && Busy(db, me, pc) && MoneyRegisters(db, me, pc) && pc.w != w && HomeMoney(db, me, pc, w)
    ensures HomeMoney(Step(db, me, pc).db, me, Step(db, me, pc).pc, w)
  {
    assert Registers(db, pc);
    NextKeepsArguments(db, me, pc);
    LimitRises(db, me, pc);
    hide Busy, HomeMoney, Step, SameMoney, Registers, StampLimit, Arguments;
    StepKeepsMoney(db, me, pc, w);
    MoneyFrame(db, Step(db, me, pc).db, me, pc, Step(db, me, pc).pc, w);
  }

  /** Another worker makes a step. */
  lemma OtherKeepsMoney(db: Db, me: nat, pc: Pc, o: nat, owner: Pc, w: nat)
    requires !pc.Idle? && Busy(db, me, pc) && pc.w != w && o != me && HomeMoney(db, o, owner, w)
    ensures HomeMoney(Step(db, me, pc).db, o, owner, w)
  {
    assert Registers(db, pc);
    StepTicks(db, me, pc, o);
    hide Busy, HomeMoney, Step, SameMoney, Registers, Clock;
    StepKeepsMoney(db, me, pc, w);
    MoneyFrame(db, Step(db, me, pc).db, o, owner, owner, w);
  }

  lemma GoKeepsMoney(s: Sys, i: nat, w: nat)
    requires SysOk(s) && MoneysOk(s) && Enabled(s, Go(i)) && 1 <= w <= s.db.cfg.warehouses
    requires Owner(s.db.cfg, w) < |s.pcs|
    ensures HomeMoney(Step(s.db, i, s.pcs[i]).db, Owner(s.db.cfg, w), Perform(s, Go(i)).pcs[Owner(s.db.cfg, w)], w)
  {
    var o, pc := Owner(s.db.cfg, w), s.pcs[i];
    OwnsHome(s, i);
    ActsForOwn(s, i);
    hide SysOk, HomeMoney, Step, Owner, Busy, MoneyRegisters;
    if w == pc.w {
      OwnStepKeepsMoney(s.db, i, pc);
    } else if o == i {
      AwayKeepsMoney(s.db, i, pc, w);
    } else {
      OtherKeepsMoney(s.db, i, pc, o, s.pcs[o], w);
    }
  }

  lemma GoKeepsRegisters(s: Sys, i: nat, j: nat)
    requires SysOk(s) && MoneysOk(s) && Enabled(s, Go(i)) && j < |s.pcs|
    ensures MoneyRegisters(Step(s.db, i, s.pcs[i]).db, j, Perform(s, Go(i)).pcs[j])
  {
    var pc := s.pcs[i];
    OwnsHome(s, i);
    if j == i {
      hide SysOk, MoneysOk, HomeMoney, Step, Busy, MoneyRegisters;
      OwnStepKeepsRegisters(s.db, i, pc);
    } else {
      assert Registers(s.db, pc);
      StepTicks(s.db, i, pc, j);
      if s.pcs[j].Paying? {
        WorkersApart(s, i, j);
        hide SysOk, HomeMoney, Step, Busy, MoneyRegisters, SameMoney, Registers, Clock;
        StepKeepsMoney(s.db, i, pc, s.pcs[j].w);
      }
      hide SysOk, HomeMoney, Step, Busy, MoneyRegisters, SameMoney, Registers, Clock;
      RegistersOfMoneyFrame(s.db, Step(s.db, i, pc).db, j, s.pcs[j]);
    }
  }

  lemma BeginMovesNothing(db: Db, me: nat, t: Txn, w: nat)
    requires HomeMoney(db, me, Idle, w)
    ensures HomeMoney(db, me, Begin(t), w) && MoneyRegisters(db, me, Begin(t))
  {
    assert Charged(Begin(t), w) == 0 && forall d: nat :: Unrecorded(Begin(t), w, d) == 0;
    assert StampLimit(db, me, Begin(t)) == Clock(db, me);
    hide DistrictHistory, DistrictsYtd, Begin, Charged, Unrecorded, StampLimit;
    assert HomeYtd(db, Begin(t), w) && HomeHistory(db, Begin(t), w);
  }

  lemma MoveKeepsMoneys(s: Sys, m: Move)
    requires SysOk(s) && MoneysOk(s) && Enabled(s, m)
    ensures MoneysOk(Perform(s, m))
  {
    MoveKeepsSys(s, m);
    var r := Perform(s, m);
    hide SysOk, HomeMoney, MoneyRegisters, Owner, Step, Begin;
    forall w: nat | 1 <= w <= r.db.cfg.warehouses && Owner(r.db.cfg, w) < |r.pcs|
      ensures HomeMoney(r.db, Owner(r.db.cfg, w), r.pcs[Owner(r.db.cfg, w)], w)
    {
      match m
      case Start(i, t) =>
        if Owner(s.db.cfg, w) == i {
          BeginMovesNothing(s.db, i, t, w);
        }
      case Go(i) => GoKeepsMoney(s, i, w);
    }
    forall j | 0 <= j < |r.pcs|
      ensures MoneyRegisters(r.db, j, r.pcs[j])
    {
      match m
      case Start(i, t) =>
        if i == j {
          BeginHasNoRegisters(s.db, i, t);
        }
      case Go(i) => GoKeepsRegisters(s, i, j);
    }
  }

  lemma BeginHasNoRegisters(db: Db, me: nat, t: Txn)
    ensures MoneyRegisters(db, me, Begin(t))
  {
  }

  lemma QuietHome(db: Db, me: nat, w: nat)
    requires DistrictMoney(db) && WarehouseMoney(db) && w in db.warehouse
    requires HomeStamps(db, Clock(db, me), w)
    ensures HomeMoney(db, me, Idle, w)
  {
    hide DistrictHistory, DistrictsYtd;
    assert HomeYtd(db, Idle, w) && HomeHistory(db, Idle, w);
  }

  lemma LoadedStamps(db: Db, w: nat)
    requires Loaded(db) && 1 <= w <= db.cfg.warehouses
    ensures Clock(db, Owner(db.cfg, w)) == FIRST_NEXT && HomeStamps(db, FIRST_NEXT, w) && w in db.warehouse
  {
    OwnerIsUnique(db.cfg, w);
    assert Owns(db.cfg, Owner(db.cfg, w), w);
    assert LoadedHistory(db.cfg, db.history) && LoadedWarehouse(db.cfg, db.warehouse) && InitialCaches(db);
    hide Loaded, Owner, LoadedOrders;
  }

  lemma LoadedMoneys(db: Db)
    requires Loaded(db)
    ensures MoneysOk(InitialSys(db))
  {
    LoadedMoneyIsOk(db);
    var s := InitialSys(db);
    hide Loaded, Owner, HomeMoney, HomeStamps, HistoryStamped, DistrictMoney, WarehouseMoney;
    forall w: nat | 1 <= w <= db.cfg.warehouses && Owner(db.cfg, w) < |s.pcs|
      ensures HomeMoney(db, Owner(db.cfg, w), Idle, w)
    {
      LoadedStamps(db, w);
      QuietHome(db, Owner(db.cfg, w), w);
    }
    assert db.cfg.workers > 0 by { LoadedHasWorkers(db); }
  }

  lemma LoadedHasWorkers(db: Db)
    requires Loaded(db)
    ensures db.cfg.workers > 0
  {
  }

  lemma {:induction false} StatesBalance(db: Db, ss: seq<Sys>, ms: seq<Move>, k: nat)
    requires Loaded(db) && Behaviour(db, ss, ms) && k < |ss|
    ensures MoneysOk(ss[k])
  {
    hide SysOk, MoneysOk, Perform, Enabled, Loaded, Behaviour;
    BehaviourStarts(db, ss, ms);
    if k == 0 {
      LoadedMoneys(db);
    } else {
      BehaviourMoves(db, ss, ms, k - 1);
      StatesAreOk(db, ss, ms, k - 1);
      StatesBalance(db, ss, ms, k - 1);
      MoveKeepsMoneys(ss[k - 1], ms[k - 1]);
    }
  }

  // ------------------------------------------------------------------ the laws

  lemma {:induction false} OwnHistoryTotal(db: Db, w: nat, n: nat)
    requires HomeHistory(db, Idle, w)
    requires forall d: nat :: 1 <= d <= DISTRICTS ==> DKey(w, d) in db.district
    requires forall k: HKey :: k in db.history && k.w == w ==> 1 <= k.d
    requires n <= DISTRICTS
    ensures Sum(HistoryUpTo(db.history, w, n)) == DistrictsYtd(db.district, w, n)
  {
    if n == 0 {
      assert HistoryUpTo(db.history, w, 0) == map[];
    } else {
      assert DKey(w, n) in db.district;
      HistorySplit(db.history, w, n);
      SumUnion(HistoryUpTo(db.history, w, n - 1), DistrictHistory(db.history, w, n));
      OwnHistoryTotal(db, w, n - 1);
    }
  }

  lemma WholeHistory(h: map<HKey, int>, w: nat)
    requires forall k: HKey :: k in h && k.w == w ==> k.d <= DISTRICTS
    ensures WarehouseHistory(h, w) == HistoryUpTo(h, w, DISTRICTS)
  {
  }

  /** Whenever the owner i of a warehouse is between transactions, W_YTD is the sum of the districts' D_YTD and of the
      warehouse's H_AMOUNT, and each D_YTD is its district's sum of H_AMOUNT, whatever the other workers are doing. */
  lemma IdleOwnerBalances(db: Db, ss: seq<Sys>, ms: seq<Move>, k: nat, i: nat, w: nat, d: nat)
    requires Loaded(db) && Behaviour(db, ss, ms) && k < |ss|
    requires i < |ss[k].pcs| && ss[k].pcs[i].Idle? && Owns(db.cfg, i, w) && 1 <= d <= DISTRICTS
    ensures w in ss[k].db.warehouse && DKey(w, d) in ss[k].db.district
    ensures ss[k].db.warehouse[w].ytd == DistrictsYtd(ss[k].db.district, w, DISTRICTS)
    ensures ss[k].db.warehouse[w].ytd == Sum(WarehouseHistory(ss[k].db.history, w))
    ensures ss[k].db.district[DKey(w, d)].ytd == Sum(DistrictHistory(ss[k].db.history, w, d))
  {
    var s := ss[k];
    StatesAreOk(db, ss, ms, k);
    StatesBalance(db, ss, ms, k);
    OwnedExists(db.cfg, i, w);
    OwnerIsUnique(db.cfg, w);
    assert HomeMoney(s.db, i, Idle, w);
    assert forall e: nat :: 1 <= e <= DISTRICTS ==> DKey(w, e) in s.db.district;
    hide Loaded, Behaviour, SysOk, MoneysOk, Owner, Owns, DistrictHistory, WarehouseHistory, HistoryUpTo, DistrictsYtd;
    OwnHistoryTotal(s.db, w, DISTRICTS);
    WholeHistory(s.db.history, w);
  }

  /** At every point of every interleaving the history row a payment is about to insert is new. */
  lemma HistoryInsertsAreFresh(db: Db, ss: seq<Sys>, ms: seq<Move>, k: nat, i: nat)
    requires Loaded(db) && Behaviour(db, ss, ms) && k < |ss| && i < |ss[k].pcs|
    requires ss[k].pcs[i].Paying? && ss[k].pcs[i].pa.WriteHistory?
    ensures var pc := ss[k].pcs[i];
            HKey(pc.w, pc.d, pc.cw, pc.cd, pc.c, pc.pa.ts) !in ss[k].db.history
  {
    StatesAreOk(db, ss, ms, k);
    StatesBalance(db, ss, ms, k);
    OwnsHome(ss[k], i);
    hide Loaded, Behaviour, SysOk, MoneysOk, Busy, HomeMoney, MoneyRegisters;
    HistoryKeyIsFresh(ss[k].db, i, ss[k].pcs[i]);
  }
}
