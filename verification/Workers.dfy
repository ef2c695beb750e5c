/**
 The worker threads at the grain of single table operations. Between two operations of one
 worker any number of operations of the others may happen. A worker's local variables are
 the registers of its program point.
 */
module Workers {
  import opened Partition
  import opened Tables
  import opened Scans
  import opened Transactions

  /** The next operation of txn_new_order; vd is the incremented district row. */
  datatype OrderAt =
    | GetWarehouse
    | GetDistrict
    | PutDistrict(vd: DVal)
    | GetCustomer(vd: DVal)
    | PutNewOrder(vd: DVal)
    | SetPending(vd: DVal)
    | SetLatest(vd: DVal)
    | PutOrder(vd: DVal)
    | GetItem(vd: DVal, n: nat)
    | GetStock(vd: DVal, n: nat, price: int)
    | PutStock(vd: DVal, n: nat, price: int, s: SVal)
    | PutLine(vd: DVal, n: nat, price: int)
    | UndoDistrict(vd: DVal)
    | UndoNewOrder(vd: DVal)
    | UndoOrder(vd: DVal)

  datatype PayAt =
    | ReadWarehouse
    | WriteWarehouse(ts: nat, vw: WVal)
    | ReadDistrict(ts: nat)
    | WriteDistrict(ts: nat, vd: DVal)
    | ReadCustomer(ts: nat)
    | WriteCustomer(ts: nat, vc: CVal)
    | WriteHistory(ts: nat)

  datatype DeliverAt =
    | ReadPending(d: nat)
    | FindNewOrder(ko: OKey)
    | FindOrder(ko: OKey)
    | DropNewOrder(ko: OKey, vo: OVal)
    | MarkOrder(ko: OKey, vo: OVal)
    | ScanLines(ko: OKey, vo: OVal)
    | StampLine(ko: OKey, vo: OVal, rows: seq<Line>, total: int)
    | FindCustomer(ko: OKey, vo: OVal, total: int)
    | CreditTo(ko: OKey, vo: OVal, vc: CVal)

  datatype QueryAt = ReadLatest | ScanStatus(o: nat) | ReadNext | ScanRecent(lower: nat) | ReadStock(rows: seq<Line>)

  datatype Pc =
    | Idle
    | Ordering(w: nat, d: nat, c: nat, items: seq<Item>, oa: OrderAt)
    | Paying(w: nat, d: nat, cw: nat, cd: nat, c: nat, amount: int, pa: PayAt)
    | Delivering(w: nat, carrier: nat, da: DeliverAt)
    | Querying(w: nat, d: nat, c: nat, qa: QueryAt)

  function Begin(t: Txn): Pc {
    match t
    case NewOrder(w, d, c, items) => Ordering(w, d, c, items, GetWarehouse)
    case Payment(w, d, cw, cd, c, amount) => Paying(w, d, cw, cd, c, amount, ReadWarehouse)
    case Delivery(w, carrier) => Delivering(w, carrier, ReadPending(1))
    case OrderStatus(w, d, c) => Querying(w, d, c, ReadLatest)
    case StockLevel(w, d, _) => Querying(w, d, 0, ReadNext)
  }

  datatype After = After(db: Db, pc: Pc)

  function Clock(db: Db, me: nat): nat {
    Row(db.clock, me, FIRST_NEXT)
  }

  function TickOf(db: Db, me: nat): map<nat, nat> {
    db.clock[me := Clock(db, me) + 1]
  }

  /** The order id txn_new_order took from the counter. */
  function Taken(pc: Pc): OKey
    requires pc.Ordering? && !pc.oa.GetWarehouse? && !pc.oa.GetDistrict?
  {
    OKey(pc.w, pc.d, pc.oa.vd.nextOid)
  }

  function Undone(vd: DVal): DVal {
    vd.(nextOid := if vd.nextOid > 0 then vd.nextOid - 1 else 0)
  }

  /** The operation works on an item of the list. */
  predicate OnItem(pc: Pc)
    requires pc.Ordering?
  {
    (pc.oa.GetItem? || pc.oa.GetStock? || pc.oa.PutStock? || pc.oa.PutLine?) && pc.oa.n < |pc.items|
  }

  function OrderInserted(db: Db, me: nat, pc: Pc): OVal
    requires pc.Ordering?
  {
    OVal(pc.c, 0, |pc.items|, AllLocal(pc.w, pc.items), Clock(db, me))
  }

  function StockTaken(db: Db, pc: Pc): map<SKey, SVal>
    requires pc.Ordering? && pc.oa.PutStock? && OnItem(pc)
  {
    var it := pc.items[pc.oa.n];
    db.stock[SKey(it.supply, it.i) := TakeStock(pc.oa.s, it, pc.w)]
  }

  function LineAdded(db: Db, pc: Pc): map<OLKey, OLVal>
    requires pc.Ordering? && pc.oa.PutLine? && OnItem(pc)
  {
    db.orderLine[OLKey(pc.w, pc.d, pc.oa.vd.nextOid, pc.oa.n + 1) := NewLine(pc.items[pc.oa.n], pc.oa.price)]
  }

  /** The tables and side arrays after one operation of txn_new_order; an operation writes at most one of them. */
  function OrderingWrite(db: Db, me: nat, pc: Pc): Db
    requires pc.Ordering?
  {
    var oa, kd := pc.oa, DKey(pc.w, pc.d);
    db.(district := if oa.PutDistrict? then db.district[kd := oa.vd]
                    else if oa.UndoDistrict? then db.district[kd := Undone(oa.vd)] else db.district,
        newOrder := if oa.PutNewOrder? then db.newOrder + {Taken(pc)}
                    else if oa.UndoNewOrder? then db.newOrder - {Taken(pc)} else db.newOrder,
        pending := if oa.SetPending? then db.pending[kd := oa.vd.nextOid] else db.pending,
        latest := if oa.SetLatest? then db.latest[CKey(pc.w, pc.d, pc.c) := oa.vd.nextOid] else db.latest,
        order := if oa.PutOrder? then db.order[Taken(pc) := OrderInserted(db, me, pc)]
                 else if oa.UndoOrder? then db.order - {Taken(pc)} else db.order,
        clock := if oa.PutOrder? then TickOf(db, me) else db.clock,
        stock := if oa.PutStock? && OnItem(pc) then StockTaken(db, pc) else db.stock,
        orderLine := if oa.PutLine? && OnItem(pc) then LineAdded(db, pc) else db.orderLine)
  }

  function OrderingNext(db: Db, pc: Pc): Pc
    requires pc.Ordering?
  {
    match pc.oa
    case GetWarehouse => pc.(oa := GetDistrict)
    case GetDistrict =>
      var vd := Row(db.district, DKey(pc.w, pc.d), NO_DISTRICT);
      pc.(oa := PutDistrict(vd.(nextOid := vd.nextOid + 1)))
    case PutDistrict(vd) => pc.(oa := GetCustomer(vd))
    case GetCustomer(vd) => pc.(oa := PutNewOrder(vd))
    case PutNewOrder(vd) => pc.(oa := SetPending(vd))
    case SetPending(vd) => pc.(oa := SetLatest(vd))
    case SetLatest(vd) => pc.(oa := PutOrder(vd))
    case PutOrder(vd) => pc.(oa := GetItem(vd, 0))
    case GetItem(vd, n) =>
      if !OnItem(pc) then Idle
      else if pc.items[n].i !in db.item then pc.(oa := UndoDistrict(vd))
      else pc.(oa := GetStock(vd, n, db.item[pc.items[n].i].price))
    case GetStock(vd, n, price) =>
      if !OnItem(pc) then Idle
      else pc.(oa := PutStock(vd, n, price, Row(db.stock, SKey(pc.items[n].supply, pc.items[n].i), NO_STOCK)))
    case PutStock(vd, n, price, s) => if !OnItem(pc) then Idle else pc.(oa := PutLine(vd, n, price))
    case PutLine(vd, n, price) => if !OnItem(pc) then Idle else pc.(oa := GetItem(vd, n + 1))
    case UndoDistrict(vd) => pc.(oa := UndoNewOrder(vd))
    case UndoNewOrder(vd) => pc.(oa := UndoOrder(vd))
    case UndoOrder(vd) => Idle
  }

  /** One operation of txn_new_order by worker me. */
  function OrderingStep(db: Db, me: nat, pc: Pc): After
    requires pc.Ordering?
  {
    After(OrderingWrite(db, me, pc), OrderingNext(db, pc))
  }

  /** The tables after one operation of txn_payment; an operation writes at most one. */
  function PayingWrite(db: Db, me: nat, pc: Pc): Db
    requires pc.Paying?
  {
    var kd, kc := DKey(pc.w, pc.d), CKey(pc.cw, pc.cd, pc.c);
    db.(clock := if pc.pa.ReadWarehouse? then TickOf(db, me) else db.clock,
        warehouse := if pc.pa.WriteWarehouse? then db.warehouse[pc.w := pc.pa.vw] else db.warehouse,
        district := if pc.pa.WriteDistrict? then db.district[kd := pc.pa.vd] else db.district,
        customer := if pc.pa.WriteCustomer? then db.customer[kc := pc.pa.vc] else db.customer,
        history := if pc.pa.WriteHistory?
                   then db.history[HKey(pc.w, pc.d, pc.cw, pc.cd, pc.c, pc.pa.ts) := pc.amount] else db.history)
  }

  function PayingNext(db: Db, me: nat, pc: Pc): Pc
    requires pc.Paying?
  {
    match pc.pa
    case ReadWarehouse =>
      pc.(pa := WriteWarehouse(Clock(db, me), WVal(Row(db.warehouse, pc.w, NO_WAREHOUSE).ytd + pc.amount)))
    case WriteWarehouse(ts, vw) => pc.(pa := ReadDistrict(ts))
    case ReadDistrict(ts) =>
      var vd := Row(db.district, DKey(pc.w, pc.d), NO_DISTRICT);
      pc.(pa := WriteDistrict(ts, vd.(ytd := vd.ytd + pc.amount)))
    case WriteDistrict(ts, vd) => pc.(pa := ReadCustomer(ts))
    case ReadCustomer(ts) =>
      var vc := Row(db.customer, CKey(pc.cw, pc.cd, pc.c), NO_CUSTOMER);
      pc.(pa := WriteCustomer(ts, vc.(balance := vc.balance - pc.amount, ytdPayment := vc.ytdPayment + pc.amount,
                                      paymentCnt := vc.paymentCnt + 1)))
    case WriteCustomer(ts, vc) => pc.(pa := WriteHistory(ts))
    case WriteHistory(ts) => Idle
  }

  function PayingStep(db: Db, me: nat, pc: Pc): After
    requires pc.Paying?
  {
    After(PayingWrite(db, me, pc), PayingNext(db, me, pc))
  }

  /** The tables after one operation of txn_delivery; an operation writes at most one. */
  function DeliveringWrite(db: Db, me: nat, pc: Pc): Db
    requires pc.Delivering?
  {
    var da := pc.da;
    db.(newOrder := if da.DropNewOrder? then db.newOrder - {da.ko} else db.newOrder,
        order := if da.MarkOrder? then db.order[da.ko := da.vo.(carrier := pc.carrier)] else db.order,
        orderLine := if da.StampLine? && da.rows != []
                     then db.orderLine[da.rows[0].key := da.rows[0].val.(deliveryD := Clock(db, me))] else db.orderLine,
        clock := if da.StampLine? && da.rows != [] then TickOf(db, me) else db.clock,
        customer := if da.CreditTo? then db.customer[CKey(da.ko.w, da.ko.d, da.vo.c) := da.vc] else db.customer)
  }

  function DeliveringNext(db: Db, pc: Pc): Pc
    requires pc.Delivering?
  {
    match pc.da
    case ReadPending(d) =>
      if d > DISTRICTS then Idle else pc.(da := FindNewOrder(OKey(pc.w, d, Row(db.pending, DKey(pc.w, d), 0))))
    case FindNewOrder(ko) =>
      if ko !in db.newOrder then pc.(da := ReadPending(ko.d + 1)) else pc.(da := FindOrder(ko))
    case FindOrder(ko) => if ko !in db.order then Idle else pc.(da := DropNewOrder(ko, db.order[ko]))
    case DropNewOrder(ko, vo) => pc.(da := MarkOrder(ko, vo))
    case MarkOrder(ko, vo) => pc.(da := ScanLines(ko, vo))
    case ScanLines(ko, vo) => pc.(da := StampLine(ko, vo, DeliveryScan(db, ko), 0))
    case StampLine(ko, vo, rows, total) =>
      if rows == [] then pc.(da := FindCustomer(ko, vo, total))
      else pc.(da := StampLine(ko, vo, rows[1..], total + rows[0].val.amount))
    case FindCustomer(ko, vo, total) =>
      var vc := Row(db.customer, CKey(ko.w, ko.d, vo.c), NO_CUSTOMER);
      pc.(da := CreditTo(ko, vo, vc.(balance := vc.balance + total, deliveryCnt := vc.deliveryCnt + 1)))
    case CreditTo(ko, vo, vc) => pc.(da := ReadPending(ko.d + 1))
  }

  function DeliveringStep(db: Db, me: nat, pc: Pc): After
    requires pc.Delivering?
  {
    After(DeliveringWrite(db, me, pc), DeliveringNext(db, pc))
  }

  /** order-status and stock-level write nothing. */
  function QueryingStep(db: Db, pc: Pc): Pc
    requires pc.Querying?
  {
    match pc.qa
    case ReadLatest => pc.(qa := ScanStatus(Row(db.latest, CKey(pc.w, pc.d, pc.c), LOADED_ORDERS)))
    case ScanStatus(o) => Idle
    case ReadNext =>
      var next := Row(db.district, DKey(pc.w, pc.d), NO_DISTRICT).nextOid;
      pc.(qa := ScanRecent(if next >= 20 then next - 20 else 0))
    case ScanRecent(lower) => pc.(qa := ReadStock(Scan(db.orderLine, OLKey(pc.w, pc.d, lower, 0), 10 * 20)))
    case ReadStock(rows) => if rows == [] then Idle else pc.(qa := ReadStock(rows[1..]))
  }

  function Step(db: Db, me: nat, pc: Pc): After {
    match pc
    case Idle => After(db, Idle)
    case Ordering(_, _, _, _, _) => OrderingStep(db, me, pc)
    case Paying(_, _, _, _, _, _, _) => PayingStep(db, me, pc)
    case Delivering(_, _, _) => DeliveringStep(db, me, pc)
    case Querying(_, _, _, _) => After(db, QueryingStep(db, pc))
  }

  // ------------------------------------------------------------------ interleavings

  datatype Sys = Sys(db: Db, pcs: seq<Pc>)

  /** A worker starts a transaction on a warehouse of its range, or performs its next operation. */
  datatype Move = Start(i: nat, t: Txn) | Go(i: nat)

  predicate Enabled(s: Sys, m: Move) {
    m.i < |s.pcs| &&
    match m
    case Start(i, t) => s.pcs[i].Idle? && Drawn(s.db.cfg, t) && s.db.cfg.workers > 0 && Owns(s.db.cfg, i, t.w)
    case Go(i) => !s.pcs[i].Idle?
  }

  function Perform(s: Sys, m: Move): Sys
    requires Enabled(s, m)
  {
    match m
    case Start(i, t) => s.(pcs := s.pcs[i := Begin(t)])
    case Go(i) =>
      var r := Step(s.db, i, s.pcs[i]);
      Sys(r.db, s.pcs[i := r.pc])
  }

  /** The workers before their first transaction. */
  function InitialSys(db: Db): Sys {
    Sys(db, seq(db.cfg.workers, _ => Idle))
  }

  /** A run of the system: from quiescent workers on the database db, ss[j + 1] is what move ms[j] makes of ss[j]. */
  ghost predicate Behaviour(db: Db, ss: seq<Sys>, ms: seq<Move>) {
    && |ss| == |ms| + 1 && ss[0] == InitialSys(db)
    && forall j {:trigger ms[j]} :: 0 <= j < |ms| ==> Enabled(ss[j], ms[j]) && ss[j + 1] == Perform(ss[j], ms[j])
  }

  lemma BehaviourStarts(db: Db, ss: seq<Sys>, ms: seq<Move>)
    requires Behaviour(db, ss, ms)
    ensures |ss| == |ms| + 1 && ss[0] == InitialSys(db)
  {
  }

  lemma BehaviourMoves(db: Db, ss: seq<Sys>, ms: seq<Move>, j: nat)
    requires Behaviour(db, ss, ms) && j < |ms|
    ensures |ss| == |ms| + 1 && Enabled(ss[j], ms[j]) && ss[j + 1] == Perform(ss[j], ms[j])
  {
    var m := ms[j];
  }
}
