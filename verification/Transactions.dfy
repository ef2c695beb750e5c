/**
 The five transactions as functions of the database. A random draw of the C++ code is an
 argument; Drawn says which arguments the generators can produce.
 */
module Transactions {
  import opened Partition
  import opened Tables
  import opened Scans

  const UINT32: nat := 0x1_0000_0000

  datatype Item = Item(i: nat, supply: nat, qty: nat)

  datatype Txn =
    | NewOrder(w: nat, d: nat, c: nat, items: seq<Item>)
    | Payment(w: nat, d: nat, cw: nat, cd: nat, c: nat, amount: int)
    | Delivery(w: nat, carrier: nat)
    | OrderStatus(w: nat, d: nat, c: nat)
    | StockLevel(w: nat, d: nat, threshold: nat)

  predicate DrawnItem(cfg: Config, it: Item) {
    1 <= it.i <= ITEMS && 1 <= it.supply <= cfg.warehouses && 1 <= it.qty <= 10
  }

  predicate Drawn(cfg: Config, t: Txn) {
    1 <= t.w <= cfg.warehouses &&
    match t
    case NewOrder(w, d, c, items) =>
      1 <= d <= DISTRICTS && 1 <= c <= CUSTOMERS && 5 <= |items| <= 15 &&
      forall n :: 0 <= n < |items| ==> DrawnItem(cfg, items[n])
    case Payment(w, d, cw, cd, c, amount) =>
      1 <= d <= DISTRICTS && 1 <= c <= CUSTOMERS && 100 <= amount <= 500000 &&
      ((cw == w && cd == d) || (1 <= cw <= cfg.warehouses && cw != w && 1 <= cd <= DISTRICTS))
    case Delivery(w, carrier) => 1 <= carrier <= DISTRICTS
    case OrderStatus(w, d, c) => 1 <= d <= DISTRICTS && 1 <= c <= CUSTOMERS
    case StockLevel(w, d, threshold) => 1 <= d <= DISTRICTS && 10 <= threshold <= 20
  }

  /** What a transaction leaves, and whether it ran to its end. */
  datatype Outcome = Outcome(db: Db, done: bool)

  // ------------------------------------------------------------------ thread clocks

  function Worker(cfg: Config, w: nat): nat {
    if cfg.workers > 0 then Owner(cfg, w) else 0
  }

  function Now(db: Db, w: nat): nat {
    Row(db.clock, Worker(db.cfg, w), FIRST_NEXT)
  }

  function Tick(db: Db, w: nat): map<nat, nat> {
    db.clock[Worker(db.cfg, w) := Now(db, w) + 1]
  }

  // ------------------------------------------------------------------ new order

  function AllLocal(w: nat, items: seq<Item>): bool {
    forall n :: 0 <= n < |items| ==> items[n].supply == w
  }

  /** The id a new order takes: the counter after its increment. */
  function NextOid(db: Db, w: nat, d: nat): nat {
    Row(db.district, DKey(w, d), NO_DISTRICT).nextOid + 1
  }

  /** The statements before the item loop. */
  function OpenOrder(db: Db, w: nat, d: nat, c: nat, items: seq<Item>): Db {
    var kd, ko := DKey(w, d), OKey(w, d, NextOid(db, w, d));
    db.(district := db.district[kd := Row(db.district, kd, NO_DISTRICT).(nextOid := ko.o)],
        newOrder := db.newOrder + {ko},
        pending := db.pending[kd := ko.o],
        latest := db.latest[CKey(w, d, c) := ko.o],
        order := db.order[ko := OVal(c, 0, |items|, AllLocal(w, items), Now(db, w))],
        clock := Tick(db, w))
  }

  /** uint32 subtraction. */
  function Sub32(a: int, b: int): nat {
    (a - b) % UINT32
  }

  /** The restock rule on unsigned quantities. */
  function Restock(quantity: nat, ordered: nat): nat {
    if Sub32(quantity, ordered) >= 10 then Sub32(quantity, ordered)
    else (quantity + (91 - ordered)) % UINT32
  }

  function TakeStock(s: SVal, it: Item, home: nat): SVal {
    SVal(Restock(s.quantity, it.qty), s.ytd + it.qty, s.orderCnt + 1,
         s.remoteCnt + if it.supply == home then 0 else 1)
  }

  function NewLine(it: Item, price: int): OLVal {
    OLVal(it.i, 0, it.qty * price, it.supply, it.qty)
  }

  /** One turn of the item loop whose item was found; n is ol_number. */
  function AddLine(db: Db, ko: OKey, n: nat, it: Item): Db {
    var ks := SKey(it.supply, it.i);
    db.(stock := db.stock[ks := TakeStock(Row(db.stock, ks, NO_STOCK), it, ko.w)],
        orderLine := db.orderLine[OLKey(ko.w, ko.d, ko.o, n) := NewLine(it, Row(db.item, it.i, NO_ITEM).price)])
  }

  /** The abort branch: it undoes the counter and the two inserts, nothing else. */
  function AbandonOrder(db: Db, ko: OKey): Db {
    var kd := DKey(ko.w, ko.d);
    db.(district := db.district[kd := Row(db.district, kd, NO_DISTRICT).(nextOid := if ko.o > 0 then ko.o - 1 else 0)],
        newOrder := db.newOrder - {ko},
        order := db.order - {ko})
  }

  /** The item loop from items[n] on. */
  function AddLines(db: Db, ko: OKey, items: seq<Item>, n: nat): Outcome
    decreases |items| - n
  {
    if n >= |items| then Outcome(db, true)
    else if items[n].i !in db.item then Outcome(AbandonOrder(db, ko), false)
    else AddLines(AddLine(db, ko, n + 1, items[n]), ko, items, n + 1)
  }

  function PlaceOrder(db: Db, w: nat, d: nat, c: nat, items: seq<Item>): Outcome {
    AddLines(OpenOrder(db, w, d, c, items), OKey(w, d, NextOid(db, w, d)), items, 0)
  }

  // ------------------------------------------------------------------ payment

  function ChargeHome(db: Db, w: nat, d: nat, amount: int): Db {
    var kd := DKey(w, d);
    var vw, vd := Row(db.warehouse, w, NO_WAREHOUSE), Row(db.district, kd, NO_DISTRICT);
    db.(warehouse := db.warehouse[w := WVal(vw.ytd + amount)],
        district := db.district[kd := vd.(ytd := vd.ytd + amount)])
  }

  function ChargeCustomer(db: Db, kc: CKey, amount: int): Db {
    var vc := Row(db.customer, kc, NO_CUSTOMER);
    db.(customer := db.customer[kc := vc.(balance := vc.balance - amount, ytdPayment := vc.ytdPayment + amount,
                                          paymentCnt := vc.paymentCnt + 1)])
  }

  function Pay(db: Db, w: nat, d: nat, cw: nat, cd: nat, c: nat, amount: int): Db {
    var charged := ChargeCustomer(ChargeHome(db.(clock := Tick(db, w)), w, d, amount), CKey(cw, cd, c), amount);
    charged.(history := charged.history[HKey(w, d, cw, cd, c, Now(db, w)) := amount])
  }

  // ------------------------------------------------------------------ delivery

  /** The rows delivery finds for an order: it asks for ten from line number 0. */
  function DeliveryScan(db: Db, ko: OKey): seq<Line> {
    Scan(db.orderLine, OLKey(ko.w, ko.d, ko.o, 0), 10)
  }

  function Total(rows: seq<Line>): int
    decreases |rows|
  {
    if rows == [] then 0 else rows[0].val.amount + Total(rows[1..])
  }

  /** Rewrites every scanned row with a delivery date. */
  function StampRows(db: Db, w: nat, rows: seq<Line>): Db
    decreases |rows|
  {
    if rows == [] then db
    else
      var stamped := rows[0].val.(deliveryD := Now(db, w));
      StampRows(db.(orderLine := db.orderLine[rows[0].key := stamped], clock := Tick(db, w)), w, rows[1..])
  }

  /** The order a delivery takes from a district. */
  function DeliveredKey(db: Db, w: nat, d: nat): OKey {
    OKey(w, d, Row(db.pending, DKey(w, d), 0))
  }

  predicate Delivers(db: Db, w: nat, d: nat) {
    DeliveredKey(db, w, d) in db.newOrder && DeliveredKey(db, w, d) in db.order
  }

  function CreditCustomer(db: Db, kc: CKey, total: int): map<CKey, CVal> {
    var vc := Row(db.customer, kc, NO_CUSTOMER);
    db.customer[kc := vc.(balance := vc.balance + total, deliveryCnt := vc.deliveryCnt + 1)]
  }

  function DeliverOrder(db: Db, ko: OKey, carrier: nat): Db
    requires ko in db.order
  {
    var vo, rows := db.order[ko], DeliveryScan(db, ko);
    var marked := db.(newOrder := db.newOrder - {ko}, order := db.order[ko := vo.(carrier := carrier)]);
    var stamped := StampRows(marked, ko.w, rows);
    stamped.(customer := CreditCustomer(stamped, CKey(ko.w, ko.d, vo.c), Total(rows)))
  }

  /** One turn of the district loop: skip, bail out of the whole delivery, or deliver. */
  function DeliverDistrict(db: Db, w: nat, d: nat, carrier: nat): Outcome {
    var ko := DeliveredKey(db, w, d);
    if ko !in db.newOrder then Outcome(db, true)
    else if ko !in db.order then Outcome(db, false)
    else Outcome(DeliverOrder(db, ko, carrier), true)
  }

  /** The district loop from district d on. */
  function DeliverFrom(db: Db, w: nat, d: nat, carrier: nat): Outcome
    decreases DISTRICTS + 1 - d
  {
    if d > DISTRICTS then Outcome(db, true)
    else
      var r := DeliverDistrict(db, w, d, carrier);
      if r.done then DeliverFrom(r.db, w, d + 1, carrier) else r
  }

  // ------------------------------------------------------------------ runs

  function Execute(db: Db, t: Txn): Outcome {
    match t
    case NewOrder(w, d, c, items) => PlaceOrder(db, w, d, c, items)
    case Payment(w, d, cw, cd, c, amount) => Outcome(Pay(db, w, d, cw, cd, c, amount), true)
    case Delivery(w, carrier) => DeliverFrom(db, w, 1, carrier)
    case OrderStatus(w, d, c) => Outcome(db, true)
    case StockLevel(w, d, threshold) => Outcome(db, true)
  }

  /** The database after a sequence of atomic transactions. */
  function Run(db: Db, ts: seq<Txn>): Db
    decreases |ts|
  {
    if ts == [] then db else Run(Execute(db, ts[0]).db, ts[1..])
  }

  /** A run: each database is what the next transaction, on arguments that can be drawn, makes of the one before. */
  ghost predicate Atomic(dbs: seq<Db>, ts: seq<Txn>) {
    && |dbs| == |ts| + 1
    && forall j {:trigger ts[j]} :: 0 <= j < |ts| ==>
         Drawn(dbs[j].cfg, ts[j]) && dbs[j + 1] == Execute(dbs[j], ts[j]).db
  }

  lemma {:induction false} AtomicEndsInRun(dbs: seq<Db>, ts: seq<Txn>)
    requires Atomic(dbs, ts)
    ensures Run(dbs[0], ts) == dbs[|ts|]
    decreases |ts|
  {
    hide Execute, Drawn;
    if ts != [] {
      var t := ts[0];
      assert dbs[1] == Execute(dbs[0], t).db;
      forall j | 0 <= j < |ts[1..]|
        ensures Drawn(dbs[1..][j].cfg, ts[1..][j]) && dbs[1..][j + 1] == Execute(dbs[1..][j], ts[1..][j]).db
      {
        assert ts[1..][j] == ts[j + 1];
      }
      AtomicEndsInRun(dbs[1..], ts[1..]);
    }
  }
}
