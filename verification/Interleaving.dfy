/**
 Safety of every interleaving of single table operations. The rows of a warehouse are
 written only by its owner, so what they look like depends on the owner's program point
 alone; stock rows race, but their bound survives.
 */
module Interleaving {
  import opened Partition
  import opened Tables
  import opened Scans
  import opened Transactions
  import opened Consistency
  import opened StockLaws
  import opened Workers

  // ------------------------------------------------------------------ one warehouse

  /** The counter of district (w, d) stands at an order whose ORDER row is not yet inserted. */
  predicate OrderDue(pc: Pc, w: nat, d: nat) {
    pc.Ordering? && pc.w == w && pc.d == d &&
    (pc.oa.GetCustomer? || pc.oa.PutNewOrder? || pc.oa.SetPending? || pc.oa.SetLatest? || pc.oa.PutOrder?)
  }

  predicate PendingDue(pc: Pc, w: nat, d: nat) {
    pc.Ordering? && pc.w == w && pc.d == d && (pc.oa.GetCustomer? || pc.oa.PutNewOrder? || pc.oa.SetPending?)
  }

  function OrderLimit(pc: Pc, w: nat, d: nat, next: nat): nat {
    if OrderDue(pc, w, d) && next > 0 then next - 1 else next
  }

  function PendingLimit(pc: Pc, w: nat, d: nat, next: nat): nat {
    if PendingDue(pc, w, d) && next > 0 then next - 1 else next
  }

  /** The NEW-ORDER row of k is inserted, its ORDER row is not. */
  predicate Announced(pc: Pc, k: OKey) {
    pc.Ordering? && pc.w == k.w && pc.d == k.d &&
    (pc.oa.SetPending? || pc.oa.SetLatest? || pc.oa.PutOrder?) && pc.oa.vd.nextOid == k.o
  }

  /** The NEW-ORDER row of k is removed, its carrier is not yet written. */
  predicate Handed(pc: Pc, k: OKey) {
    pc.Delivering? && pc.da.MarkOrder? && pc.da.ko == k
  }

  predicate Filling(pc: Pc, k: OKey) {
    pc.Ordering? && pc.w == k.w && pc.d == k.d &&
    (pc.oa.GetItem? || pc.oa.GetStock? || pc.oa.PutStock? || pc.oa.PutLine?) && pc.oa.vd.nextOid == k.o
  }

  /** How many lines of order k are in the table. */
  function LineLimit(pc: Pc, k: OKey, olCnt: nat): nat {
    if Filling(pc, k) then pc.oa.n else olCnt
  }

  ghost predicate HomeIds(db: Db, pc: Pc, w: nat) {
    && (forall k: DKey :: k in db.district && k.w == w ==> FIRST_NEXT <= OrderLimit(pc, w, k.d, db.district[k].nextOid))
    && (forall k: OKey :: k.w == w ==> (k in db.order <==>
          DKey(w, k.d) in db.district && Allocated(k.o, OrderLimit(pc, w, k.d, db.district[DKey(w, k.d)].nextOid))))
    && (forall k: OKey :: k in db.order && k.w == w ==> OrderRow(db.order[k]))
  }

  ghost predicate HomeOpen(db: Db, pc: Pc, w: nat) {
    forall k: OKey :: k.w == w ==>
      (k in db.newOrder <==> Announced(pc, k) || (k in db.order && db.order[k].carrier == 0 && !Handed(pc, k)))
  }

  ghost predicate HomeLines(db: Db, pc: Pc, w: nat) {
    forall k: OLKey :: k.w == w ==> (k in db.orderLine <==>
      OKey(w, k.d, k.o) in db.order && 1 <= k.n <= LineLimit(pc, OKey(w, k.d, k.o), db.order[OKey(w, k.d, k.o)].olCnt))
  }

  ghost predicate HomePending(db: Db, pc: Pc, w: nat) {
    forall k: DKey :: k in db.district && k.w == w ==>
      k in db.pending && db.pending[k] == NewestOid(PendingLimit(pc, w, k.d, db.district[k].nextOid))
  }

  ghost predicate HomeOk(db: Db, pc: Pc, w: nat) {
    HomeIds(db, pc, w) && HomeOpen(db, pc, w) && HomeLines(db, pc, w) && HomePending(db, pc, w)
  }

  // ------------------------------------------------------------------ one worker, shared rows

  ghost predicate DistrictIs(db: Db, pc: Pc, vd: DVal)
    requires pc.Ordering?
  {
    DKey(pc.w, pc.d) in db.district && db.district[DKey(pc.w, pc.d)] == vd
  }

  /** The ORDER row of the order in progress promises all its lines. */
  ghost predicate LinesBegun(db: Db, pc: Pc, vd: DVal)
    requires pc.Ordering?
  {
    var ko := OKey(pc.w, pc.d, vd.nextOid);
    ko in db.order && db.order[ko].olCnt == |pc.items|
  }

  /** What the registers of txn_new_order have to do with the tables. */
  ghost predicate OrderingOk(db: Db, pc: Pc)
    requires pc.Ordering?
  {
    match pc.oa
    case GetWarehouse => true
    case GetDistrict => true
    case PutDistrict(vd) =>
      DKey(pc.w, pc.d) in db.district
      && vd == db.district[DKey(pc.w, pc.d)].(nextOid := db.district[DKey(pc.w, pc.d)].nextOid + 1)
    case GetCustomer(vd) => DistrictIs(db, pc, vd)
    case PutNewOrder(vd) => DistrictIs(db, pc, vd)
    case SetPending(vd) => DistrictIs(db, pc, vd)
    case SetLatest(vd) => DistrictIs(db, pc, vd)
    case PutOrder(vd) => DistrictIs(db, pc, vd)
    case GetItem(vd, n) => DistrictIs(db, pc, vd) && LinesBegun(db, pc, vd) && n <= |pc.items|
    case GetStock(vd, n, price) => DistrictIs(db, pc, vd) && LinesBegun(db, pc, vd) && n < |pc.items|
    case PutStock(vd, n, price, s) =>
      DistrictIs(db, pc, vd) && LinesBegun(db, pc, vd) && n < |pc.items| && 10 <= s.quantity <= 100
    case PutLine(vd, n, price) => DistrictIs(db, pc, vd) && LinesBegun(db, pc, vd) && n < |pc.items|
    case UndoDistrict(vd) => false
    case UndoNewOrder(vd) => false
    case UndoOrder(vd) => false
  }

  ghost predicate PayingOk(db: Db, pc: Pc)
    requires pc.Paying?
  {
    pc.pa.WriteDistrict? ==>
      DKey(pc.w, pc.d) in db.district && pc.pa.vd.nextOid == db.district[DKey(pc.w, pc.d)].nextOid
  }

  ghost predicate DeliveringOk(db: Db, pc: Pc)
    requires pc.Delivering?
  {
    match pc.da
    case ReadPending(d) => true
    case FindNewOrder(ko) => ko.w == pc.w
    case FindOrder(ko) => ko.w == pc.w && ko in db.newOrder
    case DropNewOrder(ko, vo) => ko.w == pc.w && ko in db.newOrder && ko in db.order && db.order[ko] == vo
    case MarkOrder(ko, vo) => ko.w == pc.w && ko in db.order && db.order[ko] == vo && vo.carrier == 0
    case ScanLines(ko, vo) => ko.w == pc.w && ko in db.order && db.order[ko] == vo.(carrier := pc.carrier)
    case StampLine(ko, vo, rows, total) =>
      ko.w == pc.w && forall i :: 0 <= i < |rows| ==> rows[i].key in db.orderLine
    case FindCustomer(ko, vo, total) => ko.w == pc.w
    case CreditTo(ko, vo, vc) => ko.w == pc.w
  }

  ghost predicate Registers(db: Db, pc: Pc) {
    match pc
    case Idle => true
    case Ordering(_, _, _, _, _) => OrderingOk(db, pc)
    case Paying(_, _, _, _, _, _, _) => PayingOk(db, pc)
    case Delivering(_, _, _) => DeliveringOk(db, pc)
    case Querying(_, _, _, _) => true
  }

  /** The arguments of the transaction in progress, as they were drawn. */
  predicate Arguments(cfg: Config, pc: Pc) {
    match pc
    case Idle => true
    case Ordering(w, d, c, items, _) => Drawn(cfg, NewOrder(w, d, c, items))
    case Paying(w, d, cw, cd, c, amount, _) => Drawn(cfg, Payment(w, d, cw, cd, c, amount))
    case Delivering(w, carrier, _) => Drawn(cfg, Delivery(w, carrier))
    case Querying(w, d, c, _) => true
  }

  ghost predicate PcOk(db: Db, i: nat, pc: Pc) {
    Arguments(db.cfg, pc) && Registers(db, pc) && (!pc.Idle? ==> db.cfg.workers > 0 && Owns(db.cfg, i, pc.w))
  }

  ghost predicate StockInRange(stock: map<SKey, SVal>) {
    forall k: SKey :: k in stock ==> 10 <= stock[k].quantity <= 100
  }

  ghost predicate SharedOk(db: Db) {
    && db.cfg.Ok()
    && (forall k: DKey :: k in db.district <==> IsDistrict(db.cfg, k.w, k.d))
    && (forall i: nat :: i in db.item <==> 1 <= i <= ITEMS)
    && (forall k: SKey :: k in db.stock <==> IsStock(db.cfg, k))
    && StockInRange(db.stock)
  }

  ghost predicate PcsOk(s: Sys) {
    forall i :: 0 <= i < |s.pcs| ==> PcOk(s.db, i, s.pcs[i])
  }

  ghost predicate HomesOk(s: Sys) {
    s.db.cfg.workers > 0 && |s.pcs| == s.db.cfg.workers &&
    forall w: nat :: 1 <= w <= s.db.cfg.warehouses && Owner(s.db.cfg, w) < |s.pcs| ==>
      HomeOk(s.db, s.pcs[Owner(s.db.cfg, w)], w)
  }

  ghost predicate SysOk(s: Sys) {
    SharedOk(s.db) && PcsOk(s) && HomesOk(s)
  }

  // ------------------------------------------------------------------ what a step leaves alone

  /** The rows of warehouse w that only its owner writes, and the set of its order lines. */
  ghost predicate SameHome(a: Db, b: Db, w: nat) {
    && (forall k: DKey :: k.w == w ==> (k in a.district <==> k in b.district) && (k in a.pending <==> k in b.pending))
    && (forall k: DKey :: k.w == w && k in a.district ==> a.district[k].nextOid == b.district[k].nextOid)
    && (forall k: DKey :: k.w == w && k in a.pending ==> a.pending[k] == b.pending[k])
    && (forall k: OKey :: k.w == w ==> (k in a.order <==> k in b.order) && (k in a.newOrder <==> k in b.newOrder))
    && (forall k: OKey :: k.w == w && k in a.order ==> a.order[k] == b.order[k])
    && (forall k: OLKey :: k.w == w ==> (k in a.orderLine <==> k in b.orderLine))
  }

  /** The cached order ids of the customers of warehouse w. */
  ghost predicate SameLatest(a: Db, b: Db, w: nat) {
    && (forall k: CKey :: k.w == w ==> (k in a.latest <==> k in b.latest))
    && (forall k: CKey :: k.w == w && k in a.latest ==> a.latest[k] == b.latest[k])
  }

  ghost predicate SameDistricts(a: Db, b: Db, w: nat) {
    forall k: DKey :: k.w == w && k in a.district ==> k in b.district && a.district[k] == b.district[k]
  }

  lemma OrderingKeepsOtherHomes(db: Db, me: nat, pc: Pc, w: nat)
    requires pc.Ordering? && w != pc.w
    ensures SameHome(db, OrderingStep(db, me, pc).db, w) && SameDistricts(db, OrderingStep(db, me, pc).db, w)
  {
    hide OrderingNext, OrderInserted, NewLine, StockTaken, TickOf, Undone;
  }

  lemma PayingKeepsOtherHomes(db: Db, me: nat, pc: Pc, w: nat)
    requires pc.Paying? && w != pc.w
    ensures SameHome(db, PayingStep(db, me, pc).db, w) && SameDistricts(db, PayingStep(db, me, pc).db, w)
  {
    hide PayingNext, TickOf;
  }

  lemma DeliveringKeepsOtherHomes(db: Db, me: nat, pc: Pc, w: nat)
    requires pc.Delivering? && DeliveringOk(db, pc) && w != pc.w
    ensures SameHome(db, DeliveringStep(db, me, pc).db, w) && SameDistricts(db, DeliveringStep(db, me, pc).db, w)
  {
    hide DeliveringNext, Clock, TickOf;
  }

  lemma OrderingKeepsOtherLatest(db: Db, me: nat, pc: Pc, w: nat)
    requires pc.Ordering? && w != pc.w
    ensures SameLatest(db, OrderingWrite(db, me, pc), w)
  {
    hide OrderInserted, StockTaken, LineAdded, TickOf;
  }

  lemma StepKeepsOtherLatest(db: Db, me: nat, pc: Pc, w: nat)
    requires !pc.Idle? && w != pc.w
    ensures SameLatest(db, Step(db, me, pc).db, w)
  {
    match pc
    case Idle =>
    case Ordering(_, _, _, _, _) => OrderingKeepsOtherLatest(db, me, pc, w);
    case Paying(_, _, _, _, _, _, _) => assert Step(db, me, pc).db.latest == db.latest;
    case Delivering(_, _, _) => assert Step(db, me, pc).db.latest == db.latest;
    case Querying(_, _, _, _) =>
  }

  /** A step on behalf of one warehouse leaves the rows and the cached ids of every other warehouse alone. */
  lemma StepKeepsOtherHomes(db: Db, me: nat, pc: Pc, w: nat)
    requires !pc.Idle? && Registers(db, pc) && w != pc.w
    ensures SameHome(db, Step(db, me, pc).db, w) && SameDistricts(db, Step(db, me, pc).db, w)
    ensures SameLatest(db, Step(db, me, pc).db, w)
  {
    StepKeepsOtherLatest(db, me, pc, w);
    hide SameLatest;
    hide OrderingStep, PayingStep, DeliveringStep, QueryingStep, OrderingOk, PayingOk, DeliveringOk;
    match pc
    case Ordering(_, _, _, _, _) => OrderingKeepsOtherHomes(db, me, pc, w);
    case Paying(_, _, _, _, _, _, _) => PayingKeepsOtherHomes(db, me, pc, w);
    case Delivering(_, _, _) => DeliveringKeepsOtherHomes(db, me, pc, w);
    case Querying(_, _, _, _) =>
  }

  lemma HomeIdsFrame(a: Db, b: Db, pc: Pc, w: nat)
    requires HomeIds(a, pc, w) && SameHome(a, b, w)
    ensures HomeIds(b, pc, w)
  {
    hide OrderLimit, OrderRow, Allocated;
  }

  lemma HomeOpenFrame(a: Db, b: Db, pc: Pc, w: nat)
    requires HomeOpen(a, pc, w) && SameHome(a, b, w)
    ensures HomeOpen(b, pc, w)
  {
    hide Announced, Handed;
  }

  lemma HomeLinesFrame(a: Db, b: Db, pc: Pc, w: nat)
    requires HomeLines(a, pc, w) && SameHome(a, b, w)
    ensures HomeLines(b, pc, w)
  {
    hide LineLimit;
  }

  lemma HomePendingFrame(a: Db, b: Db, pc: Pc, w: nat)
    requires HomePending(a, pc, w) && SameHome(a, b, w)
    ensures HomePending(b, pc, w)
  {
    hide PendingLimit;
  }

  lemma HomeFrame(a: Db, b: Db, pc: Pc, w: nat)
    requires HomeOk(a, pc, w) && SameHome(a, b, w)
    ensures HomeOk(b, pc, w)
  {
    HomeIdsFrame(a, b, pc, w);
    HomeOpenFrame(a, b, pc, w);
    HomeLinesFrame(a, b, pc, w);
    HomePendingFrame(a, b, pc, w);
    hide HomeIds, HomeOpen, HomeLines, HomePending, SameHome;
  }

  lemma RegistersFrame(a: Db, b: Db, pc: Pc)
    requires Registers(a, pc) && (!pc.Idle? ==> SameHome(a, b, pc.w) && SameDistricts(a, b, pc.w))
    requires forall k :: k in a.orderLine ==> k in b.orderLine
    ensures Registers(b, pc)
  {
  }

  // ------------------------------------------------------------------ the owner's own steps: new order

  /** pc and next say the same about warehouse w: no row is half way there in one and not in the other. */
  ghost predicate SameView(pc: Pc, next: Pc, w: nat) {
    && (forall d: nat :: OrderDue(pc, w, d) == OrderDue(next, w, d) && PendingDue(pc, w, d) == PendingDue(next, w, d))
    && (forall k: OKey :: k.w == w ==> Announced(pc, k) == Announced(next, k) && Handed(pc, k) == Handed(next, k))
    && (forall k: OKey :: k.w == w ==> Filling(pc, k) == Filling(next, k) && (Filling(pc, k) ==> pc.oa.n == next.oa.n))
  }

  lemma ViewIds(db: Db, pc: Pc, next: Pc, w: nat)
    requires HomeIds(db, pc, w) && SameView(pc, next, w)
    ensures HomeIds(db, next, w)
  {
    assert forall d: nat, n: nat :: OrderLimit(pc, w, d, n) == OrderLimit(next, w, d, n);
    hide OrderLimit, OrderRow, Allocated;
  }

  lemma ViewOpen(db: Db, pc: Pc, next: Pc, w: nat)
    requires HomeOpen(db, pc, w) && SameView(pc, next, w)
    ensures HomeOpen(db, next, w)
  {
    hide Announced, Handed, OrderDue, PendingDue, Filling;
  }

  lemma ViewLines(db: Db, pc: Pc, next: Pc, w: nat)
    requires HomeLines(db, pc, w) && SameView(pc, next, w)
    ensures HomeLines(db, next, w)
  {
    assert forall k: OKey, n: nat :: k.w == w ==> LineLimit(pc, k, n) == LineLimit(next, k, n);
    hide LineLimit;
  }

  lemma ViewPending(db: Db, pc: Pc, next: Pc, w: nat)
    requires HomePending(db, pc, w) && SameView(pc, next, w)
    ensures HomePending(db, next, w)
  {
    assert forall d: nat, n: nat :: PendingLimit(pc, w, d, n) == PendingLimit(next, w, d, n);
    hide PendingLimit;
  }

  lemma HomeView(db: Db, pc: Pc, next: Pc, w: nat)
    requires HomeOk(db, pc, w) && SameView(pc, next, w)
    ensures HomeOk(db, next, w)
  {
    ViewIds(db, pc, next, w);
    ViewOpen(db, pc, next, w);
    ViewLines(db, pc, next, w);
    ViewPending(db, pc, next, w);
    hide HomeIds, HomeOpen, HomeLines, HomePending, SameView;
  }

  /** A warehouse looks the same whatever its owner does on behalf of another one. */
  lemma HomeElsewhere(db: Db, pc: Pc, w: nat)
    requires !pc.Idle? && pc.w != w && Registers(db, pc)
    ensures HomeOk(db, pc, w) <==> HomeOk(db, Idle, w)
  {
    assert SameView(pc, Idle, w) && SameView(Idle, pc, w);
    hide HomeOk, SameView;
    if HomeOk(db, pc, w) {
      HomeView(db, pc, Idle, w);
    }
    if HomeOk(db, Idle, w) {
      HomeView(db, Idle, pc, w);
    }
  }

  /** The NEW-ORDER and ORDER inserts hit fresh keys, and no order line waits for them. */
  lemma TakenIsFresh(db: Db, pc: Pc)
    requires pc.Ordering? && OrderDue(pc, pc.w, pc.d) && OrderingOk(db, pc)
    requires HomeIds(db, pc, pc.w) && HomeLines(db, pc, pc.w)
    ensures Taken(pc) !in db.order
    ensures forall n: nat :: OLKey(pc.w, pc.d, pc.oa.vd.nextOid, n) !in db.orderLine
  {
    assert DistrictIs(db, pc, pc.oa.vd);
    hide LineLimit;
  }

  /** The ORDER-LINE insert hits a fresh key. */
  lemma LineIsFresh(db: Db, pc: Pc)
    requires pc.Ordering? && pc.oa.PutLine? && OrderingOk(db, pc) && HomeLines(db, pc, pc.w)
    ensures OLKey(pc.w, pc.d, pc.oa.vd.nextOid, pc.oa.n + 1) !in db.orderLine
  {
  }

  ghost predicate OrderingReady(db: Db, pc: Pc) {
    pc.Ordering? && SharedOk(db) && Arguments(db.cfg, pc) && OrderingOk(db, pc)
  }

  /** The item the draw names is loaded, so the abort branch is not taken. */
  lemma ItemHits(db: Db, pc: Pc)
    requires OrderingReady(db, pc) && OnItem(pc)
    ensures pc.items[pc.oa.n].i in db.item
    ensures SKey(pc.items[pc.oa.n].supply, pc.items[pc.oa.n].i) in db.stock
  {
    assert DrawnItem(db.cfg, pc.items[pc.oa.n]);
    hide StockInRange, OrderingOk;
  }

  // One lemma for every insert or update of txn_new_order; r and next are what the operation leaves.

  lemma CountingKeepsIds(db: Db, pc: Pc)
    requires pc.Ordering? && pc.oa.PutDistrict? && OrderingOk(db, pc) && HomeIds(db, pc, pc.w)
    ensures HomeIds(db.(district := db.district[DKey(pc.w, pc.d) := pc.oa.vd]), pc.(oa := GetCustomer(pc.oa.vd)), pc.w)
  {
  }

  lemma CountingKeepsPending(db: Db, pc: Pc)
    requires pc.Ordering? && pc.oa.PutDistrict? && OrderingOk(db, pc) && HomePending(db, pc, pc.w)
    ensures HomePending(db.(district := db.district[DKey(pc.w, pc.d) := pc.oa.vd]), pc.(oa := GetCustomer(pc.oa.vd)),
                        pc.w)
  {
  }

  lemma CountingKeepsHome(db: Db, pc: Pc)
    requires pc.Ordering? && pc.oa.PutDistrict? && OrderingOk(db, pc) && HomeOk(db, pc, pc.w)
    ensures HomeOk(db.(district := db.district[DKey(pc.w, pc.d) := pc.oa.vd]), pc.(oa := GetCustomer(pc.oa.vd)), pc.w)
  {
    CountingKeepsIds(db, pc);
    CountingKeepsPending(db, pc);
    hide HomeIds, HomePending;
  }

  lemma AnnouncingKeepsOpen(db: Db, pc: Pc)
    requires pc.Ordering? && pc.oa.PutNewOrder? && OrderingOk(db, pc) && HomeOk(db, pc, pc.w)
    ensures HomeOpen(db.(newOrder := db.newOrder + {Taken(pc)}), pc.(oa := SetPending(pc.oa.vd)), pc.w)
  {
    TakenIsFresh(db, pc);
    hide HomeIds, HomeLines, HomePending;
  }

  lemma AnnouncingKeepsHome(db: Db, pc: Pc)
    requires pc.Ordering? && pc.oa.PutNewOrder? && OrderingOk(db, pc) && HomeOk(db, pc, pc.w)
    ensures HomeOk(db.(newOrder := db.newOrder + {Taken(pc)}), pc.(oa := SetPending(pc.oa.vd)), pc.w)
  {
    AnnouncingKeepsOpen(db, pc);
    hide HomeOpen;
  }

  lemma CachingKeepsHome(db: Db, pc: Pc)
    requires pc.Ordering? && pc.oa.SetPending? && OrderingOk(db, pc) && HomeOk(db, pc, pc.w)
    ensures HomeOk(db.(pending := db.pending[DKey(pc.w, pc.d) := pc.oa.vd.nextOid]), pc.(oa := SetLatest(pc.oa.vd)),
                   pc.w)
  {
    var r, next := db.(pending := db.pending[DKey(pc.w, pc.d) := pc.oa.vd.nextOid]), pc.(oa := SetLatest(pc.oa.vd));
    assert HomePending(r, next, pc.w) by { hide HomeOpen, HomeLines; }
    hide HomePending;
  }

  lemma OrderInsertKeepsHome(db: Db, pc: Pc, v: OVal, clock: map<nat, nat>)
    requires pc.Ordering? && pc.oa.PutOrder? && OrderingOk(db, pc) && HomeOk(db, pc, pc.w)
    requires OrderRow(v) && v.carrier == 0
    ensures HomeOk(db.(order := db.order[Taken(pc) := v], clock := clock), pc.(oa := GetItem(pc.oa.vd, 0)), pc.w)
  {
    TakenIsFresh(db, pc);
    var r, next := db.(order := db.order[Taken(pc) := v], clock := clock), pc.(oa := GetItem(pc.oa.vd, 0));
    assert HomeIds(r, next, pc.w) by { hide HomeOpen, HomeLines, HomePending; }
    assert HomeOpen(r, next, pc.w) by { hide HomeIds, HomeLines, HomePending; }
    assert HomeLines(r, next, pc.w) by { hide HomeIds, HomeOpen, HomePending; }
    assert HomePending(r, next, pc.w) by { hide HomeIds, HomeLines, HomeOpen; }
  }

  lemma LineInsertKeepsLines(db: Db, pc: Pc)
    requires pc.Ordering? && pc.oa.PutLine? && OrderingOk(db, pc) && HomeLines(db, pc, pc.w)
    ensures HomeLines(db.(orderLine := LineAdded(db, pc)), pc.(oa := GetItem(pc.oa.vd, pc.oa.n + 1)), pc.w)
  {
  }

  lemma LineInsertKeepsHome(db: Db, pc: Pc)
    requires pc.Ordering? && pc.oa.PutLine? && OrderingOk(db, pc) && HomeOk(db, pc, pc.w)
    ensures HomeOk(db.(orderLine := LineAdded(db, pc)), pc.(oa := GetItem(pc.oa.vd, pc.oa.n + 1)), pc.w)
  {
    LineInsertKeepsLines(db, pc);
    hide HomeLines, OrderingOk, LineAdded;
  }

  predicate OpensOrder(oa: OrderAt) {
    oa.PutDistrict? || oa.PutNewOrder? || oa.SetPending? || oa.PutOrder? || oa.PutLine?
  }

  lemma OpeningKeepsHome(db: Db, me: nat, pc: Pc)
    requires OrderingReady(db, pc) && HomeOk(db, pc, pc.w) && OpensOrder(pc.oa)
    ensures HomeOk(OrderingStep(db, me, pc).db, OrderingStep(db, me, pc).pc, pc.w)
  {
    hide HomeOk, LineAdded, SharedOk;
    match pc.oa
    case PutDistrict(vd) => CountingKeepsHome(db, pc);
    case PutNewOrder(vd) => AnnouncingKeepsHome(db, pc);
    case SetPending(vd) => CachingKeepsHome(db, pc);
    case PutOrder(vd) => OrderInsertKeepsHome(db, pc, OrderInserted(db, me, pc), TickOf(db, me));
    case PutLine(vd, n, price) => LineInsertKeepsHome(db, pc);
  }

  lemma LookingWritesNoHome(db: Db, me: nat, pc: Pc)
    requires OrderingReady(db, pc) && !OpensOrder(pc.oa)
    ensures SameHome(db, OrderingStep(db, me, pc).db, pc.w)
  {
    hide StockTaken, SharedOk;
  }

  lemma LookingLooksTheSame(db: Db, pc: Pc)
    requires OrderingReady(db, pc) && !OpensOrder(pc.oa) && !(pc.oa.GetItem? && !OnItem(pc))
    ensures SameView(pc, OrderingNext(db, pc), pc.w)
  {
    if OnItem(pc) {
      ItemHits(db, pc);
    }
    hide SharedOk;
  }

  /** The other operations change nothing a home consists of. */
  lemma LookingKeepsHome(db: Db, me: nat, pc: Pc)
    requires OrderingReady(db, pc) && HomeOk(db, pc, pc.w) && !OpensOrder(pc.oa)
    ensures HomeOk(OrderingStep(db, me, pc).db, OrderingStep(db, me, pc).pc, pc.w)
  {
    var next := OrderingNext(db, pc);
    LookingWritesNoHome(db, me, pc);
    if pc.oa.GetItem? && !OnItem(pc) {
      FilledIsDone(db, pc);
    } else {
      LookingLooksTheSame(db, pc);
      hide SameView, SharedOk, OrderingOk, OrderingNext, HomeOk;
      HomeView(db, pc, next, pc.w);
    }
    hide HomeOk, SameHome, OrderingWrite;
    HomeFrame(db, OrderingWrite(db, me, pc), next, pc.w);
  }

  /** When the item loop ends, the order has all its lines. */
  lemma FilledIsDone(db: Db, pc: Pc)
    requires OrderingReady(db, pc) && HomeOk(db, pc, pc.w) && pc.oa.GetItem? && !OnItem(pc)
    ensures HomeOk(db, Idle, pc.w)
  {
    hide SharedOk;
    assert HomeIds(db, Idle, pc.w) by { hide HomeOpen, HomeLines, HomePending; }
    assert HomeOpen(db, Idle, pc.w) by { hide HomeIds, HomeLines, HomePending; }
    assert HomeLines(db, Idle, pc.w) by { hide HomeIds, HomeOpen, HomePending; }
    assert HomePending(db, Idle, pc.w) by { hide HomeIds, HomeLines, HomeOpen; }
  }

  lemma TakingKeepsRegisters(db: Db, me: nat, pc: Pc)
    requires OrderingReady(db, pc)
    requires pc.oa.GetWarehouse? || pc.oa.GetDistrict? || pc.oa.PutDistrict? || pc.oa.GetCustomer?
    ensures Registers(OrderingStep(db, me, pc).db, OrderingStep(db, me, pc).pc)
  {
    assert pc.oa.GetDistrict? ==> DKey(pc.w, pc.d) in db.district;
    hide SharedOk;
  }

  lemma InsertingKeepsRegisters(db: Db, me: nat, pc: Pc)
    requires OrderingReady(db, pc) && (pc.oa.PutNewOrder? || pc.oa.SetPending? || pc.oa.SetLatest? || pc.oa.PutOrder?)
    ensures Registers(OrderingStep(db, me, pc).db, OrderingStep(db, me, pc).pc)
  {
    hide SharedOk, TickOf;
  }

  lemma FillingKeepsRegisters(db: Db, me: nat, pc: Pc)
    requires OrderingReady(db, pc) && (pc.oa.GetItem? || pc.oa.GetStock? || pc.oa.PutStock? || pc.oa.PutLine?)
    ensures Registers(OrderingStep(db, me, pc).db, OrderingStep(db, me, pc).pc)
  {
    if OnItem(pc) {
      ItemHits(db, pc);
    }
    hide TickOf, StockTaken, LineAdded;
  }

  lemma OrderingKeepsRegisters(db: Db, me: nat, pc: Pc)
    requires OrderingReady(db, pc)
    ensures Registers(OrderingStep(db, me, pc).db, OrderingStep(db, me, pc).pc)
  {
    if pc.oa.GetWarehouse? || pc.oa.GetDistrict? || pc.oa.PutDistrict? || pc.oa.GetCustomer? {
      TakingKeepsRegisters(db, me, pc);
    } else if pc.oa.PutNewOrder? || pc.oa.SetPending? || pc.oa.SetLatest? || pc.oa.PutOrder? {
      InsertingKeepsRegisters(db, me, pc);
    } else {
      FillingKeepsRegisters(db, me, pc);
    }
    hide SharedOk, OrderingStep, Registers;
  }

  /** Whatever the races did to a stock row between the read and the write, its quantity stays in [10, 100]. */
  lemma StockTakenInRange(db: Db, pc: Pc)
    requires OrderingReady(db, pc) && pc.oa.PutStock?
    ensures OnItem(pc) && StockInRange(StockTaken(db, pc)) && StockTaken(db, pc).Keys == db.stock.Keys
    ensures Sub32(pc.oa.s.quantity, pc.items[pc.oa.n].qty) == pc.oa.s.quantity - pc.items[pc.oa.n].qty
  {
    var it := pc.items[pc.oa.n];
    assert DrawnItem(db.cfg, it);
    RestockStaysInRange(pc.oa.s.quantity, it.qty);
    RestockTestDoesNotWrap(pc.oa.s.quantity, it.qty);
    ItemHits(db, pc);
    hide Restock, Sub32;
  }

  lemma OrderingKeepsKeys(db: Db, me: nat, pc: Pc)
    requires OrderingReady(db, pc)
    ensures OrderingWrite(db, me, pc).district.Keys == db.district.Keys
  {
    hide StockTaken, StockInRange, TickOf;
  }

  lemma OrderingKeepsShared(db: Db, me: nat, pc: Pc)
    requires OrderingReady(db, pc)
    ensures SharedOk(OrderingStep(db, me, pc).db)
  {
    var r := OrderingWrite(db, me, pc);
    OrderingKeepsKeys(db, me, pc);
    if pc.oa.PutStock? {
      StockTakenInRange(db, pc);
    }
    assert r.stock.Keys == db.stock.Keys && StockInRange(r.stock) && r.item == db.item && r.cfg == db.cfg;
    hide OrderingWrite, StockInRange;
  }

  // ------------------------------------------------------------------ the owner's own steps: payment

  /** A payment carries the counter of the district row it read. */
  lemma PayingWritesNoHome(db: Db, me: nat, pc: Pc)
    requires pc.Paying? && PayingOk(db, pc)
    ensures SameHome(db, PayingWrite(db, me, pc), pc.w)
  {
    hide TickOf;
  }

  lemma PayingKeepsHome(db: Db, me: nat, pc: Pc)
    requires pc.Paying? && PayingOk(db, pc) && HomeOk(db, pc, pc.w)
    ensures HomeOk(PayingStep(db, me, pc).db, PayingStep(db, me, pc).pc, pc.w)
  {
    PayingWritesNoHome(db, me, pc);
    assert SameView(pc, PayingNext(db, me, pc), pc.w);
    hide PayingNext, PayingWrite, HomeOk, SameHome, SameView, PayingOk;
    HomeView(db, pc, PayingNext(db, me, pc), pc.w);
    HomeFrame(db, PayingWrite(db, me, pc), PayingNext(db, me, pc), pc.w);
  }

  lemma PayingKeepsRegisters(db: Db, me: nat, pc: Pc)
    requires pc.Paying? && SharedOk(db) && Arguments(db.cfg, pc) && PayingOk(db, pc)
    ensures Registers(PayingStep(db, me, pc).db, PayingStep(db, me, pc).pc)
  {
    assert DKey(pc.w, pc.d) in db.district;
    hide SharedOk;
  }

  lemma PayingKeepsShared(db: Db, me: nat, pc: Pc)
    requires pc.Paying? && SharedOk(db) && PayingOk(db, pc)
    ensures SharedOk(PayingStep(db, me, pc).db)
  {
    hide PayingNext, StockInRange;
  }

  // ------------------------------------------------------------------ the owner's own steps: delivery

  ghost predicate DeliveringReady(db: Db, pc: Pc) {
    pc.Delivering? && SharedOk(db) && Arguments(db.cfg, pc) && DeliveringOk(db, pc) && HomeOk(db, pc, pc.w)
  }

  /** The pending order exists whenever its NEW-ORDER row does: the bail-out is not taken. */
  lemma OrderHits(db: Db, pc: Pc)
    requires DeliveringReady(db, pc) && (pc.da.FindOrder? || pc.da.DropNewOrder?)
    ensures pc.da.ko in db.newOrder && pc.da.ko in db.order && db.order[pc.da.ko].carrier == 0
  {
    hide HomeIds, HomeLines, HomePending, SharedOk;
  }

  lemma DroppingKeepsHome(db: Db, pc: Pc)
    requires DeliveringReady(db, pc) && pc.da.DropNewOrder?
    ensures HomeOk(db.(newOrder := db.newOrder - {pc.da.ko}), pc.(da := MarkOrder(pc.da.ko, pc.da.vo)), pc.w)
  {
    var r, next := db.(newOrder := db.newOrder - {pc.da.ko}), pc.(da := MarkOrder(pc.da.ko, pc.da.vo));
    hide SharedOk;
    assert HomeOpen(r, next, pc.w) by { hide HomeIds, HomeLines, HomePending; }
    hide HomeOpen;
  }

  lemma MarkingKeepsHome(db: Db, pc: Pc)
    requires DeliveringReady(db, pc) && pc.da.MarkOrder?
    ensures HomeOk(db.(order := db.order[pc.da.ko := pc.da.vo.(carrier := pc.carrier)]),
                   pc.(da := ScanLines(pc.da.ko, pc.da.vo)), pc.w)
  {
    var r := db.(order := db.order[pc.da.ko := pc.da.vo.(carrier := pc.carrier)]);
    var next := pc.(da := ScanLines(pc.da.ko, pc.da.vo));
    hide SharedOk;
    assert HomeIds(r, next, pc.w) by { hide HomeOpen, HomeLines, HomePending; }
    assert HomeOpen(r, next, pc.w) by { hide HomeIds, HomeLines, HomePending; }
    assert HomeLines(r, next, pc.w) by { hide HomeIds, HomeOpen, HomePending; }
    assert HomePending(r, next, pc.w) by { hide HomeIds, HomeLines, HomeOpen; }
  }

  lemma StampingWritesNoHome(db: Db, me: nat, pc: Pc)
    requires pc.Delivering? && DeliveringOk(db, pc) && !pc.da.DropNewOrder? && !pc.da.MarkOrder?
    ensures SameHome(db, DeliveringWrite(db, me, pc), pc.w)
  {
    hide TickOf, Clock;
  }

  lemma StampingLooksTheSame(db: Db, pc: Pc)
    requires pc.Delivering? && !pc.da.DropNewOrder? && !pc.da.MarkOrder?
    ensures SameView(pc, DeliveringNext(db, pc), pc.w)
  {
    assert !DeliveringNext(db, pc).Ordering?;
    assert DeliveringNext(db, pc).Delivering? ==> !DeliveringNext(db, pc).da.MarkOrder?;
    hide DeliveringNext;
  }

  lemma DeliveringKeepsHome(db: Db, me: nat, pc: Pc)
    requires DeliveringReady(db, pc)
    ensures HomeOk(DeliveringStep(db, me, pc).db, DeliveringStep(db, me, pc).pc, pc.w)
  {
    hide HomeOk, SharedOk, SameHome, SameView, TickOf, Clock;
    if pc.da.DropNewOrder? {
      DroppingKeepsHome(db, pc);
    } else if pc.da.MarkOrder? {
      MarkingKeepsHome(db, pc);
    } else {
      StampingWritesNoHome(db, me, pc);
      StampingLooksTheSame(db, pc);
      hide DeliveringWrite, DeliveringNext;
      HomeView(db, pc, DeliveringNext(db, pc), pc.w);
      HomeFrame(db, DeliveringWrite(db, me, pc), DeliveringNext(db, pc), pc.w);
    }
  }

  lemma ScanningKeepsRegisters(db: Db, me: nat, pc: Pc)
    requires pc.Delivering? && DeliveringOk(db, pc) && (pc.da.ScanLines? || pc.da.StampLine?)
    ensures Registers(DeliveringStep(db, me, pc).db, DeliveringStep(db, me, pc).pc)
  {
    hide TickOf, Clock;
  }

  lemma FindingKeepsRegisters(db: Db, me: nat, pc: Pc)
    requires DeliveringReady(db, pc) && (pc.da.FindOrder? || pc.da.DropNewOrder?)
    ensures Registers(DeliveringStep(db, me, pc).db, DeliveringStep(db, me, pc).pc)
  {
    OrderHits(db, pc);
    hide SharedOk, HomeOk;
  }

  lemma PassingKeepsRegisters(db: Db, me: nat, pc: Pc)
    requires pc.Delivering? && DeliveringOk(db, pc)
    requires pc.da.ReadPending? || pc.da.FindNewOrder? || pc.da.MarkOrder? || pc.da.FindCustomer? || pc.da.CreditTo?
    ensures Registers(DeliveringStep(db, me, pc).db, DeliveringStep(db, me, pc).pc)
  {
  }

  lemma DeliveringKeepsRegisters(db: Db, me: nat, pc: Pc)
    requires DeliveringReady(db, pc)
    ensures Registers(DeliveringStep(db, me, pc).db, DeliveringStep(db, me, pc).pc)
  {
    hide SharedOk, HomeOk, Scan, TickOf, Clock, DeliveringWrite;
    if pc.da.ScanLines? || pc.da.StampLine? {
      hide DeliveringOk, DeliveringNext;
      ScanningKeepsRegisters(db, me, pc);
    } else if pc.da.FindOrder? || pc.da.DropNewOrder? {
      hide DeliveringOk, DeliveringNext;
      FindingKeepsRegisters(db, me, pc);
    } else {
      PassingKeepsRegisters(db, me, pc);
    }
  }

  lemma DeliveringKeepsShared(db: Db, me: nat, pc: Pc)
    requires pc.Delivering? && SharedOk(db)
    ensures SharedOk(DeliveringStep(db, me, pc).db)
  {
    hide DeliveringNext, StockInRange;
  }

  // ------------------------------------------------------------------ one step of the system

  lemma OwnStep(db: Db, me: nat, pc: Pc)
    requires SharedOk(db) && PcOk(db, me, pc) && !pc.Idle? && HomeOk(db, pc, pc.w)
    ensures var r := Step(db, me, pc);
            HomeOk(r.db, r.pc, pc.w) && SharedOk(r.db) && PcOk(r.db, me, r.pc) && r.db.cfg == db.cfg
            && (!r.pc.Idle? ==> r.pc.w == pc.w)
  {
    var r := Step(db, me, pc);
    NextKeepsArguments(db, me, pc);
    hide HomeOk, SharedOk, OrderingStep, PayingStep, DeliveringStep, OrderingOk, PayingOk, DeliveringOk;
    match pc
    case Ordering(_, _, _, _, oa) =>
      if OpensOrder(oa) {
        OpeningKeepsHome(db, me, pc);
      } else {
        LookingKeepsHome(db, me, pc);
      }
      OrderingKeepsRegisters(db, me, pc);
      OrderingKeepsShared(db, me, pc);
    case Paying(_, _, _, _, _, _, _) =>
      PayingKeepsHome(db, me, pc);
      PayingKeepsRegisters(db, me, pc);
      PayingKeepsShared(db, me, pc);
    case Delivering(_, _, _) =>
      DeliveringKeepsHome(db, me, pc);
      DeliveringKeepsRegisters(db, me, pc);
      DeliveringKeepsShared(db, me, pc);
    case Querying(_, _, _, _) =>
      QueryingKeepsHome(db, pc);
  }

  lemma NextKeepsArguments(db: Db, me: nat, pc: Pc)
    requires Arguments(db.cfg, pc) && !pc.Idle?
    ensures Step(db, me, pc).db.cfg == db.cfg && Arguments(db.cfg, Step(db, me, pc).pc)
    ensures !Step(db, me, pc).pc.Idle? ==> Step(db, me, pc).pc.w == pc.w
    ensures forall k :: k in db.orderLine ==> k in Step(db, me, pc).db.orderLine
  {
  }

  lemma QueryingKeepsHome(db: Db, pc: Pc)
    requires pc.Querying? && HomeOk(db, pc, pc.w)
    ensures HomeOk(db, QueryingStep(db, pc), pc.w)
  {
    assert SameView(pc, QueryingStep(db, pc), pc.w);
    HomeView(db, pc, QueryingStep(db, pc), pc.w);
  }

  // ------------------------------------------------------------------ runs of the system

  /** Two workers never act for the same warehouse. */
  lemma WorkersApart(s: Sys, i: nat, j: nat)
    requires PcsOk(s) && i < |s.pcs| && j < |s.pcs| && i != j && !s.pcs[i].Idle? && !s.pcs[j].Idle?
    ensures s.pcs[i].w != s.pcs[j].w
    ensures 1 <= s.pcs[i].w <= s.db.cfg.warehouses && Owner(s.db.cfg, s.pcs[i].w) == i
  {
    OwnedExists(s.db.cfg, i, s.pcs[i].w);
    OwnerIsUnique(s.db.cfg, s.pcs[i].w);
  }

  lemma ActsForOwn(s: Sys, i: nat)
    requires PcsOk(s) && i < |s.pcs| && !s.pcs[i].Idle?
    ensures s.db.cfg.workers > 0 && 1 <= s.pcs[i].w <= s.db.cfg.warehouses && Owner(s.db.cfg, s.pcs[i].w) == i
  {
    OwnedExists(s.db.cfg, i, s.pcs[i].w);
    OwnerIsUnique(s.db.cfg, s.pcs[i].w);
  }

  lemma GoKeepsPcs(s: Sys, i: nat)
    requires SysOk(s) && Enabled(s, Go(i))
    ensures PcsOk(Perform(s, Go(i))) && SharedOk(Perform(s, Go(i)).db)
  {
    ActsForOwn(s, i);
    OwnStep(s.db, i, s.pcs[i]);
    var r := Perform(s, Go(i));
    hide HomeOk, SharedOk, Step, Registers, Arguments;
    forall j | 0 <= j < |r.pcs|
      ensures PcOk(r.db, j, r.pcs[j])
    {
      if j != i {
        OtherKeepsPc(s, i, j);
      }
    }
  }

  lemma OtherKeepsPc(s: Sys, i: nat, j: nat)
    requires PcsOk(s) && i < |s.pcs| && j < |s.pcs| && i != j && !s.pcs[i].Idle?
    ensures PcOk(Step(s.db, i, s.pcs[i]).db, j, s.pcs[j])
  {
    NextKeepsArguments(s.db, i, s.pcs[i]);
    hide Step, Registers, Arguments, SameHome, SameDistricts;
    if !s.pcs[j].Idle? {
      WorkersApart(s, i, j);
      StepKeepsOtherHomes(s.db, i, s.pcs[i], s.pcs[j].w);
    }
    RegistersFrame(s.db, Step(s.db, i, s.pcs[i]).db, s.pcs[j]);
  }

  /** While its owner works for another warehouse, a warehouse stays as it is. */
  lemma AwayKeepsHome(db: Db, me: nat, pc: Pc, w: nat)
    requires SharedOk(db) && PcOk(db, me, pc) && !pc.Idle? && pc.w != w && HomeOk(db, pc, w) && HomeOk(db, pc, pc.w)
    ensures HomeOk(Step(db, me, pc).db, Step(db, me, pc).pc, w)
  {
    var r := Step(db, me, pc);
    OwnStep(db, me, pc);
    hide HomeOk, SharedOk, Step, Registers, Arguments, SameHome, SameDistricts;
    StepKeepsOtherHomes(db, me, pc, w);
    HomeElsewhere(db, pc, w);
    HomeFrame(db, r.db, Idle, w);
    if !r.pc.Idle? {
      HomeElsewhere(r.db, r.pc, w);
    }
  }

  lemma HomeOf(s: Sys, w: nat)
    requires HomesOk(s) && 1 <= w <= s.db.cfg.warehouses
    ensures Owner(s.db.cfg, w) < |s.pcs| && HomeOk(s.db, s.pcs[Owner(s.db.cfg, w)], w)
  {
    OwnerIsUnique(s.db.cfg, w);
    assert Owns(s.db.cfg, Owner(s.db.cfg, w), w);
    hide HomeOk;
  }

  lemma GoKeepsHome(s: Sys, i: nat, w: nat)
    requires SysOk(s) && Enabled(s, Go(i)) && 1 <= w <= s.db.cfg.warehouses
    ensures Owner(s.db.cfg, w) < |s.pcs|
    ensures HomeOk(Step(s.db, i, s.pcs[i]).db, Perform(s, Go(i)).pcs[Owner(s.db.cfg, w)], w)
  {
    var o, pc := Owner(s.db.cfg, w), s.pcs[i];
    var r := Step(s.db, i, pc);
    HomeOf(s, w);
    ActsForOwn(s, i);
    HomeOf(s, pc.w);
    hide HomeOk, SharedOk, Step, Registers, Arguments, SameHome, SameDistricts, HomesOk, Owner, Owns;
    if w == pc.w {
      OwnStep(s.db, i, pc);
    } else if o == i {
      AwayKeepsHome(s.db, i, pc, w);
    } else {
      StepKeepsOtherHomes(s.db, i, pc, w);
      HomeFrame(s.db, r.db, s.pcs[o], w);
    }
  }

  lemma GoKeepsSys(s: Sys, i: nat)
    requires SysOk(s) && Enabled(s, Go(i))
    ensures SysOk(Perform(s, Go(i)))
  {
    var r := Perform(s, Go(i));
    GoKeepsPcs(s, i);
    NextKeepsArguments(s.db, i, s.pcs[i]);
    hide HomeOk, SharedOk, Step, PcOk, Owner;
    forall w: nat | 1 <= w <= r.db.cfg.warehouses && Owner(r.db.cfg, w) < |r.pcs|
      ensures HomeOk(r.db, r.pcs[Owner(r.db.cfg, w)], w)
    {
      GoKeepsHome(s, i, w);
    }
  }

  lemma BeginIsOk(db: Db, i: nat, t: Txn, w: nat)
    requires Drawn(db.cfg, t) && db.cfg.workers > 0 && Owns(db.cfg, i, t.w)
    ensures PcOk(db, i, Begin(t)) && SameView(Idle, Begin(t), w)
  {
  }

  lemma StartKeepsSys(s: Sys, i: nat, t: Txn)
    requires SysOk(s) && Enabled(s, Start(i, t))
    ensures SysOk(Perform(s, Start(i, t)))
  {
    var r := Perform(s, Start(i, t));
    hide HomeOk, SharedOk, PcOk, Owner, Owns, SameView;
    forall w: nat | 1 <= w <= r.db.cfg.warehouses && Owner(r.db.cfg, w) < |r.pcs|
      ensures HomeOk(r.db, r.pcs[Owner(r.db.cfg, w)], w)
    {
      BeginIsOk(s.db, i, t, w);
      if Owner(s.db.cfg, w) == i {
        HomeView(s.db, Idle, Begin(t), w);
      }
    }
    BeginIsOk(s.db, i, t, 0);
  }

  lemma MoveKeepsSys(s: Sys, m: Move)
    requires SysOk(s) && Enabled(s, m)
    ensures SysOk(Perform(s, m)) && Perform(s, m).db.cfg == s.db.cfg
  {
    match m
    case Start(i, t) => StartKeepsSys(s, i, t);
    case Go(i) =>
      GoKeepsSys(s, i);
      NextKeepsArguments(s.db, i, s.pcs[i]);
  }

  /** Every state of every interleaving of single table operations satisfies the invariant. */
  lemma {:induction false} BehaviourKeepsSys(db: Db, ss: seq<Sys>, ms: seq<Move>, k: nat)
    requires Behaviour(db, ss, ms) && SysOk(InitialSys(db)) && k < |ss|
    ensures SysOk(ss[k]) && ss[k].db.cfg == db.cfg
  {
    hide SysOk, Perform, Enabled, Behaviour;
    BehaviourStarts(db, ss, ms);
    if k > 0 {
      BehaviourMoves(db, ss, ms, k - 1);
      BehaviourKeepsSys(db, ss, ms, k - 1);
      MoveKeepsSys(ss[k - 1], ms[k - 1]);
    }
  }
}
