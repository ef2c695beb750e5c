/**
 With two workers or more, remote updates are lost: a worker writes a STOCK or CUSTOMER row that it computed from what
 it read before another worker's whole transaction. So the conservation laws hold of every state in which all workers
 are between transactions exactly when there is a single worker.
 */
module LostUpdates {
  import opened MapSum
  import opened Partition
  import opened Tables
  import opened Scans
  import opened Transactions
  import opened Consistency
  import opened StockLaws
  import opened MoneyLaws
  import opened CustomerLaws
  import opened PaymentLaws
  import opened DeliveryScans
  import opened Deliveries
  import opened Clauses
  import opened DeliveryTotals
  import opened AccountLaws
  import opened Workers
  import opened Solo
  import opened Loader
  import opened Runs
  import opened Counterexamples
  import opened SingleWorker

  // ------------------------------------------------------------------ reached states

  /** Some behaviour from the database db ends in s. */
  ghost predicate Reaches(db: Db, s: Sys) {
    exists ss: seq<Sys>, ms: seq<Move> :: Behaviour(db, ss, ms) && ss[|ms|] == s
  }

  ghost predicate Quiet(s: Sys) {
    forall i :: 0 <= i < |s.pcs| ==> s.pcs[i].Idle?
  }

  lemma ReachesInitial(db: Db)
    ensures Reaches(db, InitialSys(db))
  {
    var ss: seq<Sys>, ms: seq<Move> := [InitialSys(db)], [];
    assert Behaviour(db, ss, ms) && ss[|ms|] == InitialSys(db);
  }

  lemma ReachesNext(db: Db, s: Sys, m: Move)
    requires Reaches(db, s) && Enabled(s, m)
    ensures Reaches(db, Perform(s, m))
  {
    hide Perform, Enabled;
    var ss: seq<Sys>, ms: seq<Move> :| Behaviour(db, ss, ms) && ss[|ms|] == s;
    var longer, more := ss + [Perform(s, m)], ms + [m];
    forall j | 0 <= j < |more|
      ensures Enabled(longer[j], more[j]) && longer[j + 1] == Perform(longer[j], more[j])
    {
      if j < |ms| {
        assert more[j] == ms[j];
      }
    }
    assert Behaviour(db, longer, more) && longer[|more|] == Perform(s, m);
  }

  /** The system after n operations of worker i alone. */
  function Alone(s: Sys, i: nat, n: nat): Sys
    requires i < |s.pcs|
  {
    var r := Steps(i, After(s.db, s.pcs[i]), n);
    Sys(r.db, s.pcs[i := r.pc])
  }

  lemma {:induction false} ReachesAlone(db: Db, s: Sys, i: nat, n: nat)
    requires Reaches(db, s) && i < |s.pcs|
    ensures Reaches(db, Alone(s, i, n))
    decreases n
  {
    hide Reaches, Step;
    if n == 0 {
      assert Alone(s, i, n) == s;
    } else if s.pcs[i].Idle? {
      IdleStays(i, s.db, n);
      assert Alone(s, i, n) == s;
    } else {
      var next := Perform(s, Go(i));
      ReachesNext(db, s, Go(i));
      ReachesAlone(db, next, i, n - 1);
      assert Alone(next, i, n - 1) == Alone(s, i, n);
    }
  }

  lemma ReachesLed(db: Db, s: Sys, i: nat, a: After)
    requires Reaches(db, s) && i < |s.pcs| && Leads(i, After(s.db, s.pcs[i]), a)
    ensures Reaches(db, Sys(a.db, s.pcs[i := a.pc]))
  {
    hide Reaches, Steps;
    var n: nat :| Steps(i, After(s.db, s.pcs[i]), n) == a;
    ReachesAlone(db, s, i, n);
  }

  lemma ReachesBegun(db: Db, s: Sys, i: nat, t: Txn, a: After)
    requires Reaches(db, s) && Enabled(s, Start(i, t)) && Leads(i, After(s.db, Begin(t)), a)
    ensures Reaches(db, Sys(a.db, s.pcs[i := a.pc]))
  {
    hide Reaches, Leads, Begin;
    var begun := Perform(s, Start(i, t));
    ReachesNext(db, s, Start(i, t));
    assert begun.pcs[i := a.pc] == s.pcs[i := a.pc];
    ReachesLed(db, begun, i, a);
  }

  /**
   Worker i gets from the start of its transaction to pc, worker j performs a whole transaction, and worker i goes on to
   the end.
   */
  lemma ReachesAround(db: Db, i: nat, t: Txn, mid: Db, pc: Pc, j: nat, u: Txn, end: Db)
    requires db.cfg.workers > 0 && i < db.cfg.workers && j < db.cfg.workers && i != j && mid.cfg == db.cfg
    requires Drawn(db.cfg, t) && Owns(db.cfg, i, t.w) && Drawn(db.cfg, u) && Owns(db.cfg, j, u.w)
    requires Worker(db.cfg, u.w) == j
    requires Leads(i, After(db, Begin(t)), After(mid, pc)) && Leads(i, After(Execute(mid, u).db, pc), After(end, Idle))
    ensures Reaches(db, Sys(end, InitialSys(db).pcs))
  {
    hide Reaches, Leads, Begin, Drawn, Owns, Execute, Worker;
    var s0 := InitialSys(db);
    ReachesInitial(db);
    ReachesBegun(db, s0, i, t, After(mid, pc));
    var s1 := Sys(mid, s0.pcs[i := pc]);
    SoloIsAtomic(mid, u);
    ReachesBegun(db, s1, j, u, After(Execute(mid, u).db, Idle));
    var s2 := Sys(Execute(mid, u).db, s1.pcs[j := Idle]);
    ReachesLed(db, s2, i, After(end, Idle));
    assert s2.pcs[i := Idle] == s0.pcs;
  }

  // ------------------------------------------------------------------ the first two workers

  /** A warehouse of worker i. */
  function HomeOfWorker(cfg: Config, i: nat): nat
    requires cfg.workers > 0
  {
    Bound(cfg, i) + 1
  }

  lemma FirstTwo(cfg: Config)
    requires cfg.Ok() && cfg.workers >= 2
    ensures forall i: nat :: i < 2 ==> Owns(cfg, i, HomeOfWorker(cfg, i)) && Worker(cfg, HomeOfWorker(cfg, i)) == i
    ensures forall i: nat :: i < 2 ==> 1 <= HomeOfWorker(cfg, i) <= cfg.warehouses
    ensures HomeOfWorker(cfg, 0) != HomeOfWorker(cfg, 1)
  {
    forall i: nat | i < 2
      ensures Owns(cfg, i, HomeOfWorker(cfg, i)) && Worker(cfg, HomeOfWorker(cfg, i)) == i
      ensures 1 <= HomeOfWorker(cfg, i) <= cfg.warehouses
    {
      RangesAreNonEmpty(cfg, i);
      OwnedExists(cfg, i, HomeOfWorker(cfg, i));
      OwnerIsUnique(cfg, HomeOfWorker(cfg, i));
    }
  }

  // ------------------------------------------------------------------ a payment that is overtaken

  /** The customer row a payment writes when it has read row v. */
  function PaidRow(v: CVal, amount: int): CVal {
    v.(balance := v.balance - amount, ytdPayment := v.ytdPayment + amount, paymentCnt := v.paymentCnt + 1)
  }

  function Charged(db: Db, p: Txn): Db
    requires p.Payment?
  {
    ChargeHome(db.(clock := Tick(db, p.w)), p.w, p.d, p.amount)
  }

  /** A payment about to write the customer row, whatever has happened since it read v. */
  function WritingBack(db: Db, p: Txn, v: CVal): Pc
    requires p.Payment?
  {
    Paying(p.w, p.d, p.cw, p.cd, p.c, p.amount, WriteCustomer(Now(db, p.w), PaidRow(v, p.amount)))
  }

  function WrittenBack(db: Db, p: Txn, v: CVal, ts: nat): Db
    requires p.Payment?
  {
    db.(customer := db.customer[CKey(p.cw, p.cd, p.c) := PaidRow(v, p.amount)],
        history := db.history[HKey(p.w, p.d, p.cw, p.cd, p.c, ts) := p.amount])
  }

  lemma LedToWriteBack(me: nat, db: Db, p: Txn, v: CVal)
    requires p.Payment? && Worker(db.cfg, p.w) == me && v == Row(db.customer, CKey(p.cw, p.cd, p.c), NO_CUSTOMER)
    ensures Leads(me, After(db, Begin(p)), After(Charged(db, p), WritingBack(db, p, v)))
  {
    var reading := Paying(p.w, p.d, p.cw, p.cd, p.c, p.amount, ReadCustomer(Now(db, p.w)));
    var end := After(Charged(db, p), WritingBack(db, p, v));
    hide Leads;
    SoloCharges(me, db, p.w, p.d, p.cw, p.cd, p.c, p.amount);
    Stay(me, end);
    LeadsOn(me, After(Charged(db, p), reading), end);
    Join(me, After(db, Begin(p)), After(Charged(db, p), reading), end);
  }

  lemma LedFromWriteBack(me: nat, before: Db, db: Db, p: Txn, v: CVal)
    requires p.Payment?
    ensures Leads(me, After(db, WritingBack(before, p, v)), After(WrittenBack(db, p, v, Now(before, p.w)), Idle))
  {
    var ts := Now(before, p.w);
    var written := db.(customer := db.customer[CKey(p.cw, p.cd, p.c) := PaidRow(v, p.amount)]);
    var end := After(WrittenBack(db, p, v, ts), Idle);
    hide Leads;
    Stay(me, end);
    LeadsOn(me, After(written, Paying(p.w, p.d, p.cw, p.cd, p.c, p.amount, WriteHistory(ts))), end);
    LeadsOn(me, After(db, WritingBack(before, p, v)), end);
  }

  /** Worker i pays; between its read and its write of the customer, worker j performs a whole transaction u. */
  lemma ReachesOvertaken(db: Db, i: nat, p: Txn, v: CVal, j: nat, u: Txn)
    requires db.cfg.workers > 0 && i < db.cfg.workers && j < db.cfg.workers && i != j
    requires p.Payment? && Drawn(db.cfg, p) && Owns(db.cfg, i, p.w) && Worker(db.cfg, p.w) == i
    requires Drawn(db.cfg, u) && Owns(db.cfg, j, u.w) && Worker(db.cfg, u.w) == j
    requires v == Row(db.customer, CKey(p.cw, p.cd, p.c), NO_CUSTOMER)
    ensures Reaches(db, Sys(WrittenBack(Execute(Charged(db, p), u).db, p, v, Now(db, p.w)), InitialSys(db).pcs))
  {
    hide Drawn, Execute, Leads, Reaches, Owns, Worker, Begin, Now, WrittenBack;
    var over := Execute(Charged(db, p), u).db;
    LedToWriteBack(i, db, p, v);
    LedFromWriteBack(i, db, over, p, v);
    ReachesAround(db, i, p, Charged(db, p), WritingBack(db, p, v), j, u, WrittenBack(over, p, v, Now(db, p.w)));
  }

  lemma ThreeMembers<T>(s: set<T>, x: T, y: T, z: T)
    requires x in s && y in s && z in s && x != y && y != z && x != z
    ensures |s| >= 3
  {
    assert |s - {x} - {y} - {z}| == |s| - 3;
  }

  lemma OvertakenRows(db: Db, w0: nat, w1: nat)
    requires Loaded(db) && IsDistrict(db.cfg, w0, 1) && w0 != w1
    requires CKey(w0, 1, 1) in db.customer
    ensures var p, kc := Payment(w0, 1, w0, 1, 1, 100), CKey(w0, 1, 1);
            var over := Execute(Charged(db, p), Payment(w1, 1, w0, 1, 1, 100)).db;
            var end := WrittenBack(over, p, db.customer[kc], Now(db, w0));
            && Now(db, w0) == FIRST_NEXT && end.customer[kc].paymentCnt == 2
            && end.history == db.history[HKey(w1, 1, w0, 1, 1, Now(Charged(db, p), w1)) := 100]
                                        [HKey(w0, 1, w0, 1, 1, FIRST_NEXT) := 100]
  {
  }

  /** After both payments the history has three rows of the customer, the customer row counts two. */
  lemma OvertakenPayment(db: Db, w0: nat, w1: nat)
    requires Loaded(db) && IsDistrict(db.cfg, w0, 1) && w0 != w1
    requires CKey(w0, 1, 1) in db.customer
    ensures var p, kc := Payment(w0, 1, w0, 1, 1, 100), CKey(w0, 1, 1);
            var over := Execute(Charged(db, p), Payment(w1, 1, w0, 1, 1, 100)).db;
            !PaymentsOk(WrittenBack(over, p, db.customer[kc], Now(db, w0)))
  {
    var p, kc := Payment(w0, 1, w0, 1, 1, 100), CKey(w0, 1, 1);
    var over := Execute(Charged(db, p), Payment(w1, 1, w0, 1, 1, 100)).db;
    var end := WrittenBack(over, p, db.customer[kc], Now(db, w0));
    assert HKey(w0, 1, w0, 1, 1, 1) in db.history by { assert IsLoadedHistory(db.cfg, HKey(w0, 1, w0, 1, 1, 1)); }
    assert kc in end.customer;
    hide *;
    OvertakenRows(db, w0, w1);
    ThreePaid(db.history, w0, w1, FIRST_NEXT, Now(Charged(db, p), w1));
    PaymentCountsDiffer(end, kc);
  }

  lemma ThreePaid(h: map<HKey, int>, w0: nat, w1: nat, mine: nat, theirs: nat)
    requires HKey(w0, 1, w0, 1, 1, 1) in h && w0 != w1 && mine != 1
    ensures |PaidBy(h[HKey(w1, 1, w0, 1, 1, theirs) := 100][HKey(w0, 1, w0, 1, 1, mine) := 100], CKey(w0, 1, 1))| >= 3
  {
    var all := h[HKey(w1, 1, w0, 1, 1, theirs) := 100][HKey(w0, 1, w0, 1, 1, mine) := 100];
    ThreeMembers(PaidBy(all, CKey(w0, 1, 1)).Keys, HKey(w0, 1, w0, 1, 1, 1), HKey(w0, 1, w0, 1, 1, mine),
                 HKey(w1, 1, w0, 1, 1, theirs));
  }

  lemma PaymentCountsDiffer(db: Db, kc: CKey)
    requires kc in db.customer && db.customer[kc].paymentCnt != |PaidBy(db.history, kc)|
    ensures !PaymentsOk(db)
  {
  }

  lemma InitialIsQuiet(db: Db, end: Db)
    ensures Quiet(Sys(end, InitialSys(db).pcs))
  {
  }

  lemma LoadedCustomerRow(db: Db, kc: CKey)
    requires Loaded(db) && IsCustomer(db.cfg, kc)
    ensures kc in db.customer && db.customer[kc] == CVal(-FIRST_PAYMENT, FIRST_PAYMENT, 1, 0)
    ensures Row(db.customer, kc, NO_CUSTOMER) == db.customer[kc]
  {
  }

  /** Two payments of one customer: both are in the history, one of them is in the customer row. */
  lemma PaymentsAreLost(db: Db)
    requires Loaded(db) && db.cfg.workers >= 2
    ensures exists s: Sys :: Reaches(db, s) && Quiet(s) && !PaymentsOk(s.db)
  {
    var w0, w1 := HomeOfWorker(db.cfg, 0), HomeOfWorker(db.cfg, 1);
    var p, u, kc := Payment(w0, 1, w0, 1, 1, 100), Payment(w1, 1, w0, 1, 1, 100), CKey(w0, 1, 1);
    FirstTwo(db.cfg);
    LoadedCustomerRow(db, kc);
    assert Drawn(db.cfg, p) && Drawn(db.cfg, u) && IsDistrict(db.cfg, w0, 1);
    var end := WrittenBack(Execute(Charged(db, p), u).db, p, db.customer[kc], Now(db, w0));
    hide *;
    OvertakenPayment(db, w0, w1);
    ReachesOvertaken(db, 0, p, db.customer[kc], 1, u);
    InitialIsQuiet(db, end);
  }

  // ------------------------------------------------------------------ a delivery that is overwritten

  lemma ChargingPays(db: Db, p: Txn)
    requires Complete(db) && p.Payment? && Drawn(db.cfg, p)
    ensures PaymentEffect(db, Charged(db, p)) && Charged(db, p).clock == Tick(db, p.w)
    ensures Charged(db, p).customer == db.customer
  {
    OwnerIsUnique(db.cfg, p.w);
    assert Owns(db.cfg, Owner(db.cfg, p.w), p.w);
    assert DKey(p.w, p.d) in db.district;
  }

  lemma PayingKeepsOrderLaws(db: Db, r: Db, w: nat)
    requires BacklogStays(db) && LinesOk(db) && PaymentEffect(db, r) && r.clock == Tick(db, w)
    ensures BacklogStays(r) && LinesOk(r)
    ensures r.cfg == db.cfg && r.order == db.order && r.newOrder == db.newOrder && r.pending == db.pending
  {
    TickKeepsClocks(db, r, w);
    hide ClocksOk;
  }

  /** Charging warehouse and district leaves the order tables in order. */
  lemma ChargedIsLawful(db: Db, p: Txn)
    requires Consistent(db) && BacklogStays(db) && LinesOk(db) && p.Payment? && Drawn(db.cfg, p)
    ensures Consistent(Charged(db, p)) && BacklogStays(Charged(db, p)) && LinesOk(Charged(db, p))
    ensures Charged(db, p).cfg == db.cfg && Charged(db, p).customer == db.customer
    ensures Charged(db, p).order == db.order && Charged(db, p).newOrder == db.newOrder
    ensures Charged(db, p).pending == db.pending
  {
    assert Complete(db);
    hide *;
    ChargingPays(db, p);
    PayKeepsConsistent(db, Charged(db, p));
    PayingKeepsOrderLaws(db, Charged(db, p), p.w);
  }

  /** A delivered order from id 2101 on has credited something to its customer. */
  lemma CreditIsPositive(db: Db, ko: OKey, vo: OVal, kc: CKey)
    requires LinesNumbered(db) && AmountsOk(db) && IsDelivered(db, ko, vo) && ko.o >= FIRST_OPEN && vo.olCnt >= 1
    requires kc == CKey(ko.w, ko.d, vo.c)
    ensures Sum(Credited(db.orderLine, db.order, kc)) >= 1 && |DeliveredTo(db.order, kc)| >= 1
  {
    var x, credited := OLKey(ko.w, ko.d, ko.o, 1), Credited(db.orderLine, db.order, kc);
    assert ko in DeliveredTo(db.order, kc) && OrderOf(x) == ko;
    assert x in credited;
    forall k | k in credited
      ensures credited[k] >= 1
    {
      assert AmountOk(k, db.orderLine[k]);
    }
    SumAtLeastSize(credited);
  }

  /** The customer's row as it was loaded, whatever has been delivered to it. */
  lemma StaleRowBreaksAccount(db: Db, p: Txn, v: CVal, ts: nat)
    requires p.Payment? && v.balance + v.ytdPayment == 0 && v.deliveryCnt == 0
    requires var kc := CKey(p.cw, p.cd, p.c);
             Sum(Credited(db.orderLine, db.order, kc)) >= 1 && |DeliveredTo(db.order, kc)| >= 1
    ensures !AccountsOk(WrittenBack(db, p, v, ts)) && !CountsOk(WrittenBack(db, p, v, ts))
  {
    var kc, end := CKey(p.cw, p.cd, p.c), WrittenBack(db, p, v, ts);
    hide Credited, DeliveredTo;
    assert kc in end.customer && Account(end, kc) == 0;
    assert !AccountOk(end, kc);
  }

  /** A delivery of the loaded order 3000 that a payment has overtaken. */
  lemma DeliveredMeanwhile(db: Db, p: Txn, w: nat, ko: OKey)
    requires Loaded(db) && p.Payment? && Drawn(db.cfg, p) && IsDistrict(db.cfg, w, 1) && ko == OKey(w, 1, LOADED_ORDERS)
    requires ko in db.order && p.cw == w && p.cd == 1 && p.c == db.order[ko].c
    ensures var over := Execute(Charged(db, p), Delivery(w, 1)).db;
            var kc := CKey(p.cw, p.cd, p.c);
            Sum(Credited(over.orderLine, over.order, kc)) >= 1 && |DeliveredTo(over.order, kc)| >= 1
  {
    var mid, vo := Charged(db, p), db.order[ko];
    LoadedIsConsistent(db);
    LoadedLinesAreOk(db);
    assert ko in db.newOrder && db.pending[DKey(w, 1)] == LOADED_ORDERS && OrderRow(vo);
    hide Loaded, Consistent, BacklogStays, LinesOk, Credited, DeliveredTo, Charged, DeliverFrom, Drawn, IsDelivered;
    ChargedIsLawful(db, p);
    assert IsNext(mid, w, 1, ko, vo);
    DeliveryKeepsAll(mid, w, 1, ko, vo);
    CreditIsPositive(Execute(mid, Delivery(w, 1)).db, ko, vo.(carrier := 1), CKey(w, 1, vo.c));
  }

  lemma DeliveryKeepsAll(db: Db, w: nat, carrier: nat, ko: OKey, vo: OVal)
    requires Consistent(db) && BacklogStays(db) && LinesOk(db) && IsNext(db, w, 1, ko, vo) && 1 <= carrier <= DISTRICTS
    ensures var r := Execute(db, Delivery(w, carrier)).db;
            LinesNumbered(r) && AmountsOk(r) && IsDelivered(r, ko, vo.(carrier := carrier))
  {
    hide *;
    DeliverFromKeepsConsistent(db, w, 1, carrier);
    DeliverFromKeepsLines(db, w, 1, carrier);
    DeliveryDelivers(db, w, 1, carrier, ko, vo);
    ExecuteIsDelivery(db, w, carrier);
    LawsOfLines(Execute(db, Delivery(w, carrier)).db);
  }

  lemma LawsOfLines(db: Db)
    requires Consistent(db) && LinesOk(db)
    ensures LinesNumbered(db) && AmountsOk(db)
  {
  }

  /** A payment by a remote worker overwrites what a delivery credited: account and delivery count are both short. */
  lemma CreditsAreLost(db: Db)
    requires Loaded(db) && db.cfg.workers >= 2
    ensures exists s: Sys :: Reaches(db, s) && Quiet(s) && !AccountsOk(s.db) && !CountsOk(s.db)
  {
    var w0, w1 := HomeOfWorker(db.cfg, 0), HomeOfWorker(db.cfg, 1);
    var ko, u := OKey(w0, 1, LOADED_ORDERS), Delivery(w0, 1);
    FirstTwo(db.cfg);
    assert IsLoadedOrder(db.cfg, ko) && LoadedOrderRow(ko, db.order[ko]);
    var c := db.order[ko].c;
    var p, kc := Payment(w1, 1, w0, 1, c, 100), CKey(w0, 1, c);
    LoadedCustomerRow(db, kc);
    assert Drawn(db.cfg, p) && Drawn(db.cfg, u) && IsDistrict(db.cfg, w0, 1);
    var over := Execute(Charged(db, p), u).db;
    var end := WrittenBack(over, p, db.customer[kc], Now(db, w1));
    hide *;
    DeliveredMeanwhile(db, p, w0, ko);
    StaleRowBreaksAccount(over, p, db.customer[kc], Now(db, w1));
    ReachesOvertaken(db, 1, p, db.customer[kc], 0, u);
    InitialIsQuiet(db, end);
  }

  // ------------------------------------------------------------------ an order that is overtaken

  function FirstKey(items: seq<Item>): SKey
    requires |items| > 0
  {
    SKey(items[0].supply, items[0].i)
  }

  /** A new order about to write the stock row of its first item, which it read as s. */
  function WritingStock(w: nat, d: nat, c: nat, items: seq<Item>, vd: DVal, price: int, s: SVal): Pc {
    Ordering(w, d, c, items, PutStock(vd, 0, price, s))
  }

  /** What the first turn of the item loop then leaves, whatever has become of the stock row. */
  function FirstTaken(db: Db, ko: OKey, items: seq<Item>, price: int, s: SVal): Db
    requires |items| > 0
  {
    db.(stock := db.stock[FirstKey(items) := TakeStock(s, items[0], ko.w)],
        orderLine := db.orderLine[OLKey(ko.w, ko.d, ko.o, 1) := NewLine(items[0], price)])
  }

  lemma LedToStock(me: nat, db: Db, w: nat, d: nat, c: nat, items: seq<Item>)
    requires Worker(db.cfg, w) == me && |items| > 0 && items[0].i in db.item
    ensures Leads(me, After(db, Begin(NewOrder(w, d, c, items))),
                  After(OpenOrder(db, w, d, c, items),
                        WritingStock(w, d, c, items, Counted(db, w, d), Row(db.item, items[0].i, NO_ITEM).price,
                                     Row(db.stock, FirstKey(items), NO_STOCK))))
  {
    var begun, vd, price := OpenOrder(db, w, d, c, items), Counted(db, w, d), db.item[items[0].i].price;
    var pc0 := Ordering(w, d, c, items, GetItem(vd, 0));
    var pc1 := Ordering(w, d, c, items, GetStock(vd, 0, price));
    var end := After(begun, WritingStock(w, d, c, items, vd, price, Row(db.stock, FirstKey(items), NO_STOCK)));
    assert begun.item == db.item && begun.stock == db.stock;
    SoloOpens(me, db, w, d, c, items);
    ItemStep(me, begun, pc0);
    StockReadStep(me, begun, pc1);
    hide Leads, Step, OpenOrder, Counted;
    Stay(me, end);
    LeadsOn(me, After(begun, pc1), end);
    LeadsOn(me, After(begun, pc0), end);
    Join(me, After(db, Begin(NewOrder(w, d, c, items))), After(begun, pc0), end);
  }

  lemma LedFromStock(me: nat, db: Db, w: nat, d: nat, c: nat, items: seq<Item>, vd: DVal, price: int, s: SVal)
    requires |items| > 0 && Row(db.district, DKey(w, d), NO_DISTRICT) == vd
    ensures var ko := OKey(w, d, vd.nextOid);
            Leads(me, After(db, WritingStock(w, d, c, items, vd, price, s)),
                  After(AddLines(FirstTaken(db, ko, items, price, s), ko, items, 1).db, Idle))
  {
    var ko, pc := OKey(w, d, vd.nextOid), WritingStock(w, d, c, items, vd, price, s);
    var taken, first := db.(stock := StockTaken(db, pc)), FirstTaken(db, ko, items, price, s);
    var pc1, pc2 := Ordering(w, d, c, items, PutLine(vd, 0, price)), Ordering(w, d, c, items, GetItem(vd, 1));
    var end := After(AddLines(first, ko, items, 1).db, Idle);
    StockWriteStep(me, db, pc);
    LineStep(me, taken, pc1);
    assert taken.(orderLine := LineAdded(taken, pc1)) == first && Taken(pc2) == ko;
    SoloAddsLines(me, first, pc2);
    hide Leads, Step, AddLines, StockTaken, LineAdded, FirstTaken;
    LeadsOn(me, After(taken, pc1), end);
    LeadsOn(me, After(db, pc), end);
  }

  lemma {:induction false} AllNamed(items: seq<Item>, k: SKey, n: nat)
    requires n <= |items| && forall j :: 0 <= j < |items| ==> Names(items[j], k)
    ensures CountOf(items, k, n) == |items| - n
    decreases |items| - n
  {
    if n < |items| {
      AllNamed(items, k, n + 1);
    }
  }

  /** Order ko has put its lines into the table on top of another line that names the same stock row. */
  lemma OneLineTooMany(lines: map<OLKey, OLVal>, ko: OKey, n: nat, other: OLKey, k: SKey)
    requires OrderOf(other) != ko && other in lines && Supplies(k, other, lines[other])
    requires forall x: OLKey :: NewLineKey(x, ko, 0, n) ==> x in lines && Supplies(k, x, lines[x])
    ensures |Ordered(lines, k)| > n
  {
    FirstLinesCount(ko, n);
    var mine := FirstLines(ko, n);
    assert other !in mine;
    assert mine + {other} <= Ordered(lines, k).Keys;
    SubsetSize(mine + {other}, Ordered(lines, k).Keys);
  }

  lemma SubsetSize<T>(a: set<T>, b: set<T>)
    requires a <= b
    ensures |a| <= |b|
  {
    assert b == a + (b - a);
  }

  /** The rest of the loop counts on from the stale row. */
  lemma StaleCount(over: Db, ko: OKey, items: seq<Item>, price: int, s: SVal)
    requires |items| > 0 && ItemsFrom(over, items, 0)
    requires forall j :: 0 <= j < |items| ==> Names(items[j], FirstKey(items)) && 1 <= items[j].qty <= 10
    requires 10 <= s.quantity <= 100 && s.orderCnt == 0
    ensures var end := AddLines(FirstTaken(over, ko, items, price, s), ko, items, 1).db;
            FirstKey(items) in end.stock && end.stock[FirstKey(items)].orderCnt == |items|
  {
    var key, first := FirstKey(items), FirstTaken(over, ko, items, price, s);
    assert Names(items[0], key) && first.stock[key] == TakeStock(s, items[0], ko.w);
    assert ItemsFrom(first, items, 1);
    hide AddLines, FirstTaken, ItemsFrom, TakeStock;
    assert TakeStock(s, items[0], ko.w).orderCnt == 1 by { TakeCounts(s, items[0], ko.w); }
    TakeInRange(s, items[0], ko.w);
    AddLinesMoveStock(first, ko, items, 1, key);
    AllNamed(items, key, 1);
  }

  lemma TakeCounts(s: SVal, it: Item, home: nat)
    ensures TakeStock(s, it, home).orderCnt == s.orderCnt + 1
  {
  }

  lemma CountsDiffer(loaded: map<SKey, SVal>, db: Db, k: SKey)
    requires k in db.stock && db.stock[k].orderCnt != |Ordered(db.orderLine, k)|
    ensures !StockOk(loaded, db)
  {
  }

  /** So its counter is short by the other order's lines. */
  lemma StaleRowBreaksStock(loaded: map<SKey, SVal>, over: Db, ko: OKey, items: seq<Item>, price: int, s: SVal,
                            other: OLKey)
    requires |items| > 0 && ItemsFrom(over, items, 0) && ko.o > LOADED_ORDERS
    requires forall j :: 0 <= j < |items| ==> Names(items[j], FirstKey(items)) && 1 <= items[j].qty <= 10
    requires 10 <= s.quantity <= 100 && s.orderCnt == 0
    requires forall k: OLKey :: k in over.orderLine ==> OrderOf(k) != ko
    requires other in over.orderLine && Supplies(FirstKey(items), other, over.orderLine[other])
    ensures !StockOk(loaded, AddLines(FirstTaken(over, ko, items, price, s), ko, items, 1).db)
  {
    hide *;
    var end := AddLines(FirstTaken(over, ko, items, price, s), ko, items, 1).db;
    StaleCount(over, ko, items, price, s);
    FirstTakenRows(over, ko, items, price, s, other);
    OneLineTooMany(end.orderLine, ko, |items|, other, FirstKey(items));
    CountsDiffer(loaded, end, FirstKey(items));
  }

  lemma FirstTakenRows(over: Db, ko: OKey, items: seq<Item>, price: int, s: SVal, other: OLKey)
    requires |items| > 0 && ItemsFrom(over, items, 0) && ko.o > LOADED_ORDERS
    requires forall j :: 0 <= j < |items| ==> Names(items[j], FirstKey(items))
    requires forall k: OLKey :: k in over.orderLine ==> OrderOf(k) != ko
    requires other in over.orderLine
    ensures var end := AddLines(FirstTaken(over, ko, items, price, s), ko, items, 1).db;
            && other in end.orderLine && end.orderLine[other] == over.orderLine[other] && OrderOf(other) != ko
            && (forall x: OLKey :: NewLineKey(x, ko, 0, |items|) ==>
                  x in end.orderLine && Supplies(FirstKey(items), x, end.orderLine[x]))
  {
    var first := FirstTaken(over, ko, items, price, s);
    var end := AddLines(first, ko, items, 1).db;
    assert ItemsFrom(first, items, 1);
    AddLinesRows(first, ko, items, 1);
    hide AddLines;
    forall x: OLKey | NewLineKey(x, ko, 0, |items|)
      ensures x in end.orderLine && Supplies(FirstKey(items), x, end.orderLine[x])
    {
      assert Names(items[x.n - 1], FirstKey(items));
      if x.n == 1 {
        assert x == OLKey(ko.w, ko.d, ko.o, 1) && x in first.orderLine;
      } else {
        assert NewLineKey(x, ko, 1, |items|);
      }
    }
  }

  /** What two orders have in common here: five times the first item, supplied by warehouse w. */
  function FiveTimes(w: nat): seq<Item> {
    seq(5, _ => Item(1, w, 1))
  }

  /** Two orders opened one after the other in districts that have had none, the second of them with all its lines. */
  lemma SecondOrder(db: Db, w0: nat, w1: nat, items: seq<Item>)
    requires DKey(w0, 1) in db.district && db.district[DKey(w0, 1)].nextOid == FIRST_NEXT
    requires DKey(w1, 1) in db.district && db.district[DKey(w1, 1)].nextOid == FIRST_NEXT
    requires w0 != w1 && |items| > 0 && ItemsFrom(db, items, 0)
    requires forall k: OLKey :: k in db.orderLine ==> k.o <= LOADED_ORDERS
    ensures var over := PlaceOrder(OpenOrder(db, w0, 1, 1, items), w1, 1, 1, items).db;
            var other := OLKey(w1, 1, FIRST_NEXT + 1, 1);
            && ItemsFrom(over, items, 0) && Row(over.district, DKey(w0, 1), NO_DISTRICT) == Counted(db, w0, 1)
            && (forall k: OLKey :: k in over.orderLine ==> OrderOf(k) != OKey(w0, 1, FIRST_NEXT + 1))
            && other in over.orderLine && Supplies(FirstKey(items), other, over.orderLine[other])
  {
    var ko, other := OKey(w1, 1, FIRST_NEXT + 1), OLKey(w1, 1, FIRST_NEXT + 1, 1);
    var first := OpenOrder(db, w0, 1, 1, items);
    var second := OpenOrder(first, w1, 1, 1, items);
    var over := PlaceOrder(first, w1, 1, 1, items).db;
    assert NextOid(first, w1, 1) == FIRST_NEXT + 1;
    assert over == AddLines(second, ko, items, 0).db && second.orderLine == db.orderLine;
    assert Row(second.district, DKey(w0, 1), NO_DISTRICT) == Counted(db, w0, 1);
    assert ItemsFrom(second, items, 0);
    hide PlaceOrder, OpenOrder, AddLines, Counted, AllLocal;
    AddLinesTouches(second, ko, items, 0);
    AddLinesRows(second, ko, items, 0);
    assert NewLineKey(other, ko, 0, |items|);
    forall k: OLKey | k in over.orderLine
      ensures OrderOf(k) != OKey(w0, 1, FIRST_NEXT + 1)
    {
      assert k in db.orderLine || NewLineKey(k, ko, 0, |items|);
    }
  }

  /** What the witness uses of a loaded database. */
  lemma LoadedForOrders(db: Db, w0: nat, w1: nat)
    requires Loaded(db) && 1 <= w0 <= db.cfg.warehouses && 1 <= w1 <= db.cfg.warehouses
    ensures DKey(w0, 1) in db.district && db.district[DKey(w0, 1)].nextOid == FIRST_NEXT
    ensures DKey(w1, 1) in db.district && db.district[DKey(w1, 1)].nextOid == FIRST_NEXT
    ensures forall k: OLKey :: k in db.orderLine ==> k.o <= LOADED_ORDERS
    ensures 1 in db.item && SKey(w0, 1) in db.stock
    ensures var s := Row(db.stock, SKey(w0, 1), NO_STOCK); 10 <= s.quantity <= 100 && s.orderCnt == 0
  {
    assert IsStock(db.cfg, SKey(w0, 1));
    forall k: OLKey | k in db.orderLine
      ensures k.o <= LOADED_ORDERS
    {
      assert OKey(k.w, k.d, k.o) in db.order;
    }
  }

  lemma FiveTimesIsDrawn(db: Db, w0: nat, w1: nat)
    requires 1 <= w0 <= db.cfg.warehouses && 1 <= w1 <= db.cfg.warehouses && 1 in db.item && SKey(w0, 1) in db.stock
    ensures Drawn(db.cfg, NewOrder(w0, 1, 1, FiveTimes(w0))) && Drawn(db.cfg, NewOrder(w1, 1, 1, FiveTimes(w0)))
    ensures var items := FiveTimes(w0);
            && |items| == 5 && FirstKey(items) == SKey(w0, 1) && ItemsFrom(db, items, 0) && items[0].i in db.item
            && (forall j :: 0 <= j < |items| ==> Names(items[j], FirstKey(items)) && 1 <= items[j].qty <= 10)
  {
  }

  lemma SecondIsOrder(db: Db, w0: nat, w1: nat, items: seq<Item>)
    requires DKey(w0, 1) in db.district && db.district[DKey(w0, 1)].nextOid == FIRST_NEXT
    ensures OpenOrder(db, w0, 1, 1, items).cfg == db.cfg && Counted(db, w0, 1).nextOid == FIRST_NEXT + 1
    ensures Execute(OpenOrder(db, w0, 1, 1, items), NewOrder(w1, 1, 1, items)).db
         == PlaceOrder(OpenOrder(db, w0, 1, 1, items), w1, 1, 1, items).db
  {
    hide PlaceOrder;
  }

  /** The database in which the second order is done and the first one has yet to write the stock row. */
  function SecondDone(db: Db, w0: nat, w1: nat, items: seq<Item>): Db {
    Execute(OpenOrder(db, w0, 1, 1, items), NewOrder(w1, 1, 1, items)).db
  }

  /** The database in which the first order is done as well. */
  function BothDone(db: Db, w0: nat, w1: nat, items: seq<Item>): Db
    requires |items| > 0
  {
    var ko := OKey(w0, 1, FIRST_NEXT + 1);
    var price, s := Row(db.item, items[0].i, NO_ITEM).price, Row(db.stock, FirstKey(items), NO_STOCK);
    AddLines(FirstTaken(SecondDone(db, w0, w1, items), ko, items, price, s), ko, items, 1).db
  }

  /** The first order takes from the stock row as it was loaded. */
  lemma BothBreakStock(db: Db, w0: nat, w1: nat)
    requires Loaded(db) && 1 <= w0 <= db.cfg.warehouses && 1 <= w1 <= db.cfg.warehouses && w0 != w1
    ensures |FiveTimes(w0)| == 5 && !StockOk(db.stock, BothDone(db, w0, w1, FiveTimes(w0)))
  {
    hide Loaded, FiveTimes, Execute, OpenOrder, PlaceOrder, AddLines, FirstTaken, Supplies, StockOk, ItemsFrom, Names,
         Counted, Drawn;
    LoadedForOrders(db, w0, w1);
    FiveTimesIsDrawn(db, w0, w1);
    var items, other := FiveTimes(w0), OLKey(w1, 1, FIRST_NEXT + 1, 1);
    SecondIsOrder(db, w0, w1, items);
    SecondOrder(db, w0, w1, items);
    StaleRowBreaksStock(db.stock, SecondDone(db, w0, w1, items), OKey(w0, 1, FIRST_NEXT + 1), items,
                        Row(db.item, items[0].i, NO_ITEM).price, Row(db.stock, FirstKey(items), NO_STOCK), other);
  }

  lemma BothFinish(db: Db, w0: nat, w1: nat, items: seq<Item>)
    requires |items| > 0 && ItemsFrom(db, items, 0) && w0 != w1
    requires DKey(w0, 1) in db.district && db.district[DKey(w0, 1)].nextOid == FIRST_NEXT
    requires DKey(w1, 1) in db.district && db.district[DKey(w1, 1)].nextOid == FIRST_NEXT
    requires forall k: OLKey :: k in db.orderLine ==> k.o <= LOADED_ORDERS
    ensures var price, s := Row(db.item, items[0].i, NO_ITEM).price, Row(db.stock, FirstKey(items), NO_STOCK);
            Leads(0, After(SecondDone(db, w0, w1, items), WritingStock(w0, 1, 1, items, Counted(db, w0, 1), price, s)),
                  After(BothDone(db, w0, w1, items), Idle))
  {
    hide Execute, OpenOrder, PlaceOrder, AddLines, FirstTaken, Supplies, ItemsFrom, Counted, Leads, WritingStock;
    SecondIsOrder(db, w0, w1, items);
    SecondOrder(db, w0, w1, items);
    LedFromStock(0, SecondDone(db, w0, w1, items), w0, 1, 1, items, Counted(db, w0, 1),
                 Row(db.item, items[0].i, NO_ITEM).price, Row(db.stock, FirstKey(items), NO_STOCK));
  }

  /** Two orders of one item: the lines of both are there, the stock row has counted one of them. */
  lemma StockIsLost(db: Db)
    requires Loaded(db) && db.cfg.workers >= 2
    ensures exists s: Sys :: Reaches(db, s) && Quiet(s) && !StockOk(db.stock, s.db)
  {
    var w0, w1 := HomeOfWorker(db.cfg, 0), HomeOfWorker(db.cfg, 1);
    var items := FiveTimes(w0);
    var t, u := NewOrder(w0, 1, 1, items), NewOrder(w1, 1, 1, items);
    FirstTwo(db.cfg);
    LoadedForOrders(db, w0, w1);
    FiveTimesIsDrawn(db, w0, w1);
    var s, price := Row(db.stock, FirstKey(items), NO_STOCK), Row(db.item, items[0].i, NO_ITEM).price;
    var first, end := OpenOrder(db, w0, 1, 1, items), BothDone(db, w0, w1, items);
    assert Execute(first, u).db == SecondDone(db, w0, w1, items);
    hide *;
    SecondIsOrder(db, w0, w1, items);
    BothBreakStock(db, w0, w1);
    LedToStock(0, db, w0, 1, 1, items);
    BothFinish(db, w0, w1, items);
    ReachesAround(db, 0, t, first, WritingStock(w0, 1, 1, items, Counted(db, w0, 1), price, s), 1, u, end);
    InitialIsQuiet(db, end);
  }

  // ------------------------------------------------------------------ exactly when updates are conserved

  /** The stock counters are those of the order lines whenever all workers are between transactions. */
  ghost predicate StockConserved(db: Db) {
    forall s: Sys :: Reaches(db, s) && Quiet(s) ==> StockOk(db.stock, s.db)
  }

  /** The payment columns are those of the history whenever all workers are between transactions. */
  ghost predicate PaymentsConserved(db: Db) {
    forall s: Sys :: Reaches(db, s) && Quiet(s) ==> PaymentsOk(s.db)
  }

  /** Accounts and delivery counts are those of the delivered orders whenever all workers are between transactions. */
  ghost predicate CreditsConserved(db: Db) {
    forall s: Sys :: Reaches(db, s) && Quiet(s) ==> AccountsOk(s.db) && CountsOk(s.db)
  }

  lemma SingleWorkerConserves(db: Db, s: Sys)
    requires Loaded(db) && db.cfg.workers == 1 && Reaches(db, s) && Quiet(s)
    ensures StockOk(db.stock, s.db) && PaymentsOk(s.db) && AccountsOk(s.db) && CountsOk(s.db)
  {
    var ss: seq<Sys>, ms: seq<Move> :| Behaviour(db, ss, ms) && ss[|ms|] == s;
    BehaviourStarts(db, ss, ms);
    hide Loaded, Behaviour, StockOk, PaymentsOk, AccountsOk, CountsOk, Consistent, MoneyOk, BacklogStays, LinesOk;
    SingleWorkerKeepsLaws(db, ss, ms, |ms|);
  }

  /**
   Over all interleavings from a loaded database, stock, payments and credits are conserved exactly when there is one
   worker.
   */
  lemma ConservationExactly(db: Db)
    requires Loaded(db)
    ensures StockConserved(db) <==> db.cfg.workers == 1
    ensures PaymentsConserved(db) <==> db.cfg.workers == 1
    ensures CreditsConserved(db) <==> db.cfg.workers == 1
  {
    assert db.cfg.workers >= 1;
    hide Loaded, Reaches, Quiet, StockOk, PaymentsOk, AccountsOk, CountsOk;
    if db.cfg.workers == 1 {
      forall s: Sys | Reaches(db, s) && Quiet(s)
        ensures StockOk(db.stock, s.db) && PaymentsOk(s.db) && AccountsOk(s.db) && CountsOk(s.db)
      {
        SingleWorkerConserves(db, s);
      }
    } else {
      StockIsLost(db);
      PaymentsAreLost(db);
      CreditsAreLost(db);
    }
  }
}
