/**
 The two grains agree: the single operations of a transaction, performed by its worker
 without interruption, amount to the atomic transaction.
 */
module Solo {
  import opened Partition
  import opened Tables
  import opened Scans
  import opened Transactions
  import opened Consistency
  import opened Workers

  function Steps(me: nat, a: After, n: nat): After
    decreases n
  {
    if n == 0 then a else Steps(me, Step(a.db, me, a.pc), n - 1)
  }

  /** Worker me, alone, gets from a to b. */
  ghost predicate Leads(me: nat, a: After, b: After) {
    exists n: nat :: Steps(me, a, n) == b
  }

  lemma Stay(me: nat, a: After)
    ensures Leads(me, a, a)
  {
    assert Steps(me, a, 0) == a;
  }

  lemma LeadsOn(me: nat, a: After, b: After)
    requires Leads(me, Step(a.db, me, a.pc), b)
    ensures Leads(me, a, b)
  {
    var n: nat :| Steps(me, Step(a.db, me, a.pc), n) == b;
    assert Steps(me, a, n + 1) == b;
  }

  lemma {:induction false} StepsAdd(me: nat, a: After, m: nat, n: nat)
    ensures Steps(me, a, m + n) == Steps(me, Steps(me, a, m), n)
    decreases m
  {
    if m > 0 {
      StepsAdd(me, Step(a.db, me, a.pc), m - 1, n);
    }
  }

  lemma Join(me: nat, a: After, b: After, c: After)
    requires Leads(me, a, b) && Leads(me, b, c)
    ensures Leads(me, a, c)
  {
    var m: nat :| Steps(me, a, m) == b;
    var n: nat :| Steps(me, b, n) == c;
    StepsAdd(me, a, m, n);
  }

  // ------------------------------------------------------------------ new order

  /** The district row txn_new_order keeps in its buffer. */
  function Counted(db: Db, w: nat, d: nat): DVal {
    Row(db.district, DKey(w, d), NO_DISTRICT).(nextOid := NextOid(db, w, d))
  }

  lemma SoloCounts(me: nat, db: Db, w: nat, d: nat, c: nat, items: seq<Item>)
    ensures Leads(me, After(db, Begin(NewOrder(w, d, c, items))),
                  After(db.(district := db.district[DKey(w, d) := Counted(db, w, d)]),
                        Ordering(w, d, c, items, PutNewOrder(Counted(db, w, d)))))
  {
    var vd := Counted(db, w, d);
    var db1 := db.(district := db.district[DKey(w, d) := vd]);
    var end := After(db1, Ordering(w, d, c, items, PutNewOrder(vd)));
    hide Leads, OrderInserted, StockTaken, LineAdded, Undone;
    Stay(me, end);
    LeadsOn(me, After(db1, Ordering(w, d, c, items, GetCustomer(vd))), end);
    LeadsOn(me, After(db, Ordering(w, d, c, items, PutDistrict(vd))), end);
    LeadsOn(me, After(db, Ordering(w, d, c, items, GetDistrict)), end);
    LeadsOn(me, After(db, Ordering(w, d, c, items, GetWarehouse)), end);
  }

  lemma SoloAnnounces(me: nat, db: Db, w: nat, d: nat, c: nat, items: seq<Item>, vd: DVal)
    ensures var ko := OKey(w, d, vd.nextOid);
            Leads(me, After(db, Ordering(w, d, c, items, PutNewOrder(vd))),
                  After(db.(newOrder := db.newOrder + {ko}, pending := db.pending[DKey(w, d) := ko.o],
                            latest := db.latest[CKey(w, d, c) := ko.o]), Ordering(w, d, c, items, PutOrder(vd))))
  {
    var ko := OKey(w, d, vd.nextOid);
    var db2 := db.(newOrder := db.newOrder + {ko});
    var db3 := db2.(pending := db.pending[DKey(w, d) := ko.o]);
    var db4 := db3.(latest := db.latest[CKey(w, d, c) := ko.o]);
    var end := After(db4, Ordering(w, d, c, items, PutOrder(vd)));
    hide Leads, OrderInserted, StockTaken, LineAdded, Undone;
    Stay(me, end);
    LeadsOn(me, After(db3, Ordering(w, d, c, items, SetLatest(vd))), end);
    LeadsOn(me, After(db2, Ordering(w, d, c, items, SetPending(vd))), end);
    LeadsOn(me, After(db, Ordering(w, d, c, items, PutNewOrder(vd))), end);
  }

  lemma SoloOpens(me: nat, db: Db, w: nat, d: nat, c: nat, items: seq<Item>)
    requires Worker(db.cfg, w) == me
    ensures Leads(me, After(db, Begin(NewOrder(w, d, c, items))),
                  After(OpenOrder(db, w, d, c, items), Ordering(w, d, c, items, GetItem(Counted(db, w, d), 0))))
  {
    var vd, ko := Counted(db, w, d), OKey(w, d, NextOid(db, w, d));
    var begin, put := Begin(NewOrder(w, d, c, items)), Ordering(w, d, c, items, PutNewOrder(vd));
    var db1 := db.(district := db.district[DKey(w, d) := vd]);
    var db4 := db1.(newOrder := db.newOrder + {ko}, pending := db.pending[DKey(w, d) := ko.o],
                    latest := db.latest[CKey(w, d, c) := ko.o]);
    var end := After(OpenOrder(db, w, d, c, items), Ordering(w, d, c, items, GetItem(vd, 0)));
    hide Leads, AllLocal, StockTaken, LineAdded, Undone;
    SoloCounts(me, db, w, d, c, items);
    SoloAnnounces(me, db1, w, d, c, items, vd);
    Join(me, After(db, begin), After(db1, put), After(db4, Ordering(w, d, c, items, PutOrder(vd))));
    Stay(me, end);
    LeadsOn(me, After(db4, Ordering(w, d, c, items, PutOrder(vd))), end);
    Join(me, After(db, begin), After(db4, Ordering(w, d, c, items, PutOrder(vd))), end);
  }

  // The three steps of an item whose price is known, one equality each.

  lemma ItemStep(me: nat, db: Db, pc: Pc)
    requires pc.Ordering? && pc.oa.GetItem? && OnItem(pc) && pc.items[pc.oa.n].i in db.item
    ensures Step(db, me, pc) == After(db, pc.(oa := GetStock(pc.oa.vd, pc.oa.n, db.item[pc.items[pc.oa.n].i].price)))
  {
  }

  lemma StockReadStep(me: nat, db: Db, pc: Pc)
    requires pc.Ordering? && pc.oa.GetStock? && OnItem(pc)
    ensures var ks := SKey(pc.items[pc.oa.n].supply, pc.items[pc.oa.n].i);
            Step(db, me, pc) == After(db, pc.(oa := PutStock(pc.oa.vd, pc.oa.n, pc.oa.price,
                                                             Row(db.stock, ks, NO_STOCK))))
  {
  }

  lemma StockWriteStep(me: nat, db: Db, pc: Pc)
    requires pc.Ordering? && pc.oa.PutStock? && OnItem(pc)
    ensures Step(db, me, pc) == After(db.(stock := StockTaken(db, pc)),
                                      pc.(oa := PutLine(pc.oa.vd, pc.oa.n, pc.oa.price)))
  {
  }

  lemma LineStep(me: nat, db: Db, pc: Pc)
    requires pc.Ordering? && pc.oa.PutLine? && OnItem(pc)
    ensures Step(db, me, pc) == After(db.(orderLine := LineAdded(db, pc)), pc.(oa := GetItem(pc.oa.vd, pc.oa.n + 1)))
  {
  }

  lemma SoloAddsLine(me: nat, db: Db, pc: Pc)
    requires pc.Ordering? && pc.oa.GetItem? && OnItem(pc) && pc.items[pc.oa.n].i in db.item
    ensures Leads(me, After(db, pc), After(AddLine(db, Taken(pc), pc.oa.n + 1, pc.items[pc.oa.n]),
                                           pc.(oa := GetItem(pc.oa.vd, pc.oa.n + 1))))
  {
    var vd, n, it := pc.oa.vd, pc.oa.n, pc.items[pc.oa.n];
    var price := db.item[it.i].price;
    var s := Row(db.stock, SKey(it.supply, it.i), NO_STOCK);
    var pc1, pc2 := pc.(oa := GetStock(vd, n, price)), pc.(oa := PutStock(vd, n, price, s));
    var pc3, taken := pc.(oa := PutLine(vd, n, price)), db.(stock := StockTaken(db, pc2));
    var end := After(AddLine(db, Taken(pc), n + 1, it), pc.(oa := GetItem(vd, n + 1)));
    ItemStep(me, db, pc);
    StockReadStep(me, db, pc1);
    StockWriteStep(me, db, pc2);
    LineStep(me, taken, pc3);
    assert taken.(orderLine := LineAdded(taken, pc3)) == end.db;
    hide Leads, Step, AddLine, StockTaken, LineAdded;
    Stay(me, end);
    LeadsOn(me, After(taken, pc3), end);
    LeadsOn(me, After(db, pc2), end);
    LeadsOn(me, After(db, pc1), end);
    LeadsOn(me, After(db, pc), end);
  }

  lemma SoloUndoes(me: nat, db: Db, pc: Pc)
    requires pc.Ordering? && pc.oa.UndoDistrict?
    requires Row(db.district, DKey(pc.w, pc.d), NO_DISTRICT) == pc.oa.vd
    ensures Leads(me, After(db, pc), After(AbandonOrder(db, Taken(pc)), Idle))
  {
    var vd := pc.oa.vd;
    var db1 := db.(district := db.district[DKey(pc.w, pc.d) := Undone(vd)]);
    var db2 := db1.(newOrder := db.newOrder - {Taken(pc)});
    var end := After(AbandonOrder(db, Taken(pc)), Idle);
    hide Leads, OrderInserted, StockTaken, LineAdded, OnItem, TickOf, AllLocal;
    Stay(me, end);
    LeadsOn(me, After(db2, pc.(oa := UndoOrder(vd))), end);
    LeadsOn(me, After(db1, pc.(oa := UndoNewOrder(vd))), end);
    LeadsOn(me, After(db, pc), end);
  }

  lemma {:induction false} SoloAddsLines(me: nat, db: Db, pc: Pc)
    requires pc.Ordering? && pc.oa.GetItem? && pc.oa.n <= |pc.items|
    requires Row(db.district, DKey(pc.w, pc.d), NO_DISTRICT) == pc.oa.vd
    ensures Leads(me, After(db, pc), After(AddLines(db, Taken(pc), pc.items, pc.oa.n).db, Idle))
    decreases |pc.items| - pc.oa.n
  {
    var end := After(AddLines(db, Taken(pc), pc.items, pc.oa.n).db, Idle);
    hide Leads, AddLine, AbandonOrder;
    if !OnItem(pc) {
      Stay(me, end);
      LeadsOn(me, After(db, pc), end);
    } else if pc.items[pc.oa.n].i !in db.item {
      SoloUndoes(me, db, pc.(oa := UndoDistrict(pc.oa.vd)));
      LeadsOn(me, After(db, pc), end);
    } else {
      var next := AddLine(db, Taken(pc), pc.oa.n + 1, pc.items[pc.oa.n]);
      SoloAddsLine(me, db, pc);
      LineKeepsDistrict(db, Taken(pc), pc.oa.n + 1, pc.items[pc.oa.n]);
      SoloAddsLines(me, next, pc.(oa := GetItem(pc.oa.vd, pc.oa.n + 1)));
      Join(me, After(db, pc), After(next, pc.(oa := GetItem(pc.oa.vd, pc.oa.n + 1))), end);
    }
  }

  lemma LineKeepsDistrict(db: Db, ko: OKey, n: nat, it: Item)
    ensures AddLine(db, ko, n, it).district == db.district
  {
  }

  lemma SoloOrders(me: nat, db: Db, w: nat, d: nat, c: nat, items: seq<Item>)
    requires Worker(db.cfg, w) == me
    ensures Leads(me, After(db, Begin(NewOrder(w, d, c, items))), After(PlaceOrder(db, w, d, c, items).db, Idle))
  {
    var pc := Ordering(w, d, c, items, GetItem(Counted(db, w, d), 0));
    SoloOpens(me, db, w, d, c, items);
    SoloAddsLines(me, OpenOrder(db, w, d, c, items), pc);
    hide Leads;
    Join(me, After(db, Begin(NewOrder(w, d, c, items))), After(OpenOrder(db, w, d, c, items), pc),
         After(PlaceOrder(db, w, d, c, items).db, Idle));
  }

  // ------------------------------------------------------------------ payment

  lemma SoloCharges(me: nat, db: Db, w: nat, d: nat, cw: nat, cd: nat, c: nat, amount: int)
    requires Worker(db.cfg, w) == me
    ensures Leads(me, After(db, Begin(Payment(w, d, cw, cd, c, amount))),
                  After(ChargeHome(db.(clock := Tick(db, w)), w, d, amount),
                        Paying(w, d, cw, cd, c, amount, ReadCustomer(Now(db, w)))))
  {
    var ts, vw := Now(db, w), WVal(Row(db.warehouse, w, NO_WAREHOUSE).ytd + amount);
    var old_ := Row(db.district, DKey(w, d), NO_DISTRICT);
    var vd := old_.(ytd := old_.ytd + amount);
    var db1 := db.(clock := Tick(db, w));
    var db2 := db1.(warehouse := db.warehouse[w := vw]);
    var end := After(ChargeHome(db1, w, d, amount), Paying(w, d, cw, cd, c, amount, ReadCustomer(ts)));
    hide Leads;
    Stay(me, end);
    LeadsOn(me, After(db2, Paying(w, d, cw, cd, c, amount, WriteDistrict(ts, vd))), end);
    LeadsOn(me, After(db2, Paying(w, d, cw, cd, c, amount, ReadDistrict(ts))), end);
    LeadsOn(me, After(db1, Paying(w, d, cw, cd, c, amount, WriteWarehouse(ts, vw))), end);
    LeadsOn(me, After(db, Paying(w, d, cw, cd, c, amount, ReadWarehouse)), end);
  }

  lemma SoloRecords(me: nat, db: Db, w: nat, d: nat, cw: nat, cd: nat, c: nat, amount: int, ts: nat)
    ensures var charged := ChargeCustomer(db, CKey(cw, cd, c), amount);
            Leads(me, After(db, Paying(w, d, cw, cd, c, amount, ReadCustomer(ts))),
                  After(charged.(history := charged.history[HKey(w, d, cw, cd, c, ts) := amount]), Idle))
  {
    var kc := CKey(cw, cd, c);
    var charged, old_ := ChargeCustomer(db, kc, amount), Row(db.customer, kc, NO_CUSTOMER);
    var vc := old_.(balance := old_.balance - amount, ytdPayment := old_.ytdPayment + amount,
                    paymentCnt := old_.paymentCnt + 1);
    var end := After(charged.(history := charged.history[HKey(w, d, cw, cd, c, ts) := amount]), Idle);
    hide Leads;
    Stay(me, end);
    LeadsOn(me, After(charged, Paying(w, d, cw, cd, c, amount, WriteHistory(ts))), end);
    LeadsOn(me, After(db, Paying(w, d, cw, cd, c, amount, WriteCustomer(ts, vc))), end);
    LeadsOn(me, After(db, Paying(w, d, cw, cd, c, amount, ReadCustomer(ts))), end);
  }

  lemma SoloPays(me: nat, db: Db, w: nat, d: nat, cw: nat, cd: nat, c: nat, amount: int)
    requires Worker(db.cfg, w) == me
    ensures Leads(me, After(db, Begin(Payment(w, d, cw, cd, c, amount))), After(Pay(db, w, d, cw, cd, c, amount), Idle))
  {
    var charged := ChargeHome(db.(clock := Tick(db, w)), w, d, amount);
    hide Leads, ChargeHome, ChargeCustomer, Tick, Now;
    SoloCharges(me, db, w, d, cw, cd, c, amount);
    SoloRecords(me, charged, w, d, cw, cd, c, amount, Now(db, w));
    Join(me, After(db, Begin(Payment(w, d, cw, cd, c, amount))),
         After(charged, Paying(w, d, cw, cd, c, amount, ReadCustomer(Now(db, w)))),
         After(Pay(db, w, d, cw, cd, c, amount), Idle));
  }

  // ------------------------------------------------------------------ delivery

  /** The database after the first of the rows is stamped. */
  function Stamped(db: Db, w: nat, row: Line): Db {
    db.(orderLine := db.orderLine[row.key := row.val.(deliveryD := Now(db, w))], clock := Tick(db, w))
  }

  lemma StampStep(me: nat, db: Db, pc: Pc)
    requires pc.Delivering? && pc.da.StampLine? && pc.da.rows != [] && Worker(db.cfg, pc.w) == me
    ensures Step(db, me, pc)
         == After(Stamped(db, pc.w, pc.da.rows[0]),
                  pc.(da := StampLine(pc.da.ko, pc.da.vo, pc.da.rows[1..], pc.da.total + pc.da.rows[0].val.amount)))
  {
  }

  lemma StampEndStep(me: nat, db: Db, pc: Pc)
    requires pc.Delivering? && pc.da.StampLine? && pc.da.rows == []
    ensures Step(db, me, pc) == After(db, pc.(da := FindCustomer(pc.da.ko, pc.da.vo, pc.da.total)))
  {
  }

  lemma StampRowsStep(db: Db, w: nat, rows: seq<Line>)
    requires rows != []
    ensures StampRows(db, w, rows) == StampRows(Stamped(db, w, rows[0]), w, rows[1..])
    ensures Total(rows) == rows[0].val.amount + Total(rows[1..])
  {
  }

  lemma {:induction false} SoloStamps(me: nat, db: Db, pc: Pc, rows: seq<Line>, total: int)
    requires pc.Delivering? && pc.da.StampLine? && pc.da.rows == rows && pc.da.total == total
    requires Worker(db.cfg, pc.w) == me
    ensures Leads(me, After(db, pc), After(StampRows(db, pc.w, rows),
                                           pc.(da := FindCustomer(pc.da.ko, pc.da.vo, total + Total(rows)))))
    decreases |rows|
  {
    var end := After(StampRows(db, pc.w, rows), pc.(da := FindCustomer(pc.da.ko, pc.da.vo, total + Total(rows))));
    if rows == [] {
      StampEndStep(me, db, pc);
      Stay(me, end);
    } else {
      StampStep(me, db, pc);
      StampRowsStep(db, pc.w, rows);
      hide Leads, Step, StampRows, Total;
      var next, total1 := Stamped(db, pc.w, rows[0]), total + rows[0].val.amount;
      SoloStamps(me, next, pc.(da := StampLine(pc.da.ko, pc.da.vo, rows[1..], total1)), rows[1..], total1);
    }
    hide Leads, Step, StampRows, Total;
    LeadsOn(me, After(db, pc), end);
  }

  lemma SoloCredits(me: nat, db: Db, pc: Pc, total: int)
    requires pc.Delivering? && pc.da.FindCustomer? && pc.da.total == total
    ensures Leads(me, After(db, pc),
                  After(db.(customer := CreditCustomer(db, CKey(pc.da.ko.w, pc.da.ko.d, pc.da.vo.c), total)),
                        pc.(da := ReadPending(pc.da.ko.d + 1))))
  {
    var ko, vo := pc.da.ko, pc.da.vo;
    var kc := CKey(ko.w, ko.d, vo.c);
    var old_ := Row(db.customer, kc, NO_CUSTOMER);
    var vc := old_.(balance := old_.balance + total, deliveryCnt := old_.deliveryCnt + 1);
    var end := After(db.(customer := CreditCustomer(db, kc, total)), pc.(da := ReadPending(ko.d + 1)));
    hide Leads;
    Stay(me, end);
    LeadsOn(me, After(db, pc.(da := CreditTo(ko, vo, vc))), end);
    LeadsOn(me, After(db, pc), end);
  }

  /** From the NEW-ORDER row found to the customer row credited. */
  lemma SoloMarks(me: nat, db: Db, pc: Pc, ko: OKey)
    requires pc.Delivering? && pc.da == FindNewOrder(ko) && ko in db.newOrder && ko in db.order
    ensures var marked := db.(newOrder := db.newOrder - {ko},
                              order := db.order[ko := db.order[ko].(carrier := pc.carrier)]);
            Leads(me, After(db, pc), After(marked, pc.(da := StampLine(ko, db.order[ko], DeliveryScan(db, ko), 0))))
  {
    var vo := db.order[ko];
    var dropped := db.(newOrder := db.newOrder - {ko});
    var marked := dropped.(order := db.order[ko := vo.(carrier := pc.carrier)]);
    var end := After(marked, pc.(da := StampLine(ko, vo, DeliveryScan(db, ko), 0)));
    hide Leads, Scan;
    Stay(me, end);
    LeadsOn(me, After(marked, pc.(da := ScanLines(ko, vo))), end);
    LeadsOn(me, After(dropped, pc.(da := MarkOrder(ko, vo))), end);
    LeadsOn(me, After(db, pc.(da := DropNewOrder(ko, vo))), end);
    LeadsOn(me, After(db, pc.(da := FindOrder(ko))), end);
    LeadsOn(me, After(db, pc), end);
  }

  lemma SoloDelivers(me: nat, db: Db, pc: Pc, ko: OKey)
    requires pc.Delivering? && pc.da == FindNewOrder(ko) && ko in db.newOrder && ko in db.order
    requires ko.w == pc.w && Worker(db.cfg, pc.w) == me
    ensures Leads(me, After(db, pc), After(DeliverOrder(db, ko, pc.carrier), pc.(da := ReadPending(ko.d + 1))))
  {
    var vo, rows := db.order[ko], DeliveryScan(db, ko);
    var marked := db.(newOrder := db.newOrder - {ko}, order := db.order[ko := vo.(carrier := pc.carrier)]);
    var stamped := StampRows(marked, ko.w, rows);
    var pc1 := pc.(da := StampLine(ko, vo, rows, 0));
    var pc2 := pc.(da := FindCustomer(ko, vo, Total(rows)));
    hide Leads, DeliveryScan, StampRows, CreditCustomer, Total;
    SoloMarks(me, db, pc, ko);
    SoloStamps(me, marked, pc1, rows, 0);
    Join(me, After(db, pc), After(marked, pc1), After(stamped, pc2));
    SoloCredits(me, stamped, pc2, Total(rows));
    Join(me, After(db, pc), After(stamped, pc2),
         After(DeliverOrder(db, ko, pc.carrier), pc.(da := ReadPending(ko.d + 1))));
  }

  lemma {:induction false} SoloDeliversFrom(me: nat, db: Db, w: nat, d: nat, carrier: nat)
    requires Worker(db.cfg, w) == me
    ensures Leads(me, After(db, Delivering(w, carrier, ReadPending(d))), After(DeliverFrom(db, w, d, carrier).db, Idle))
    decreases DISTRICTS + 1 - d
  {
    var ko, pc := DeliveredKey(db, w, d), Delivering(w, carrier, ReadPending(d));
    var found, next := pc.(da := FindNewOrder(ko)), pc.(da := ReadPending(d + 1));
    var end := After(DeliverFrom(db, w, d, carrier).db, Idle);
    hide Leads, DeliverOrder;
    Stay(me, end);
    if d <= DISTRICTS {
      if ko !in db.newOrder {
        SoloDeliversFrom(me, db, w, d + 1, carrier);
        LeadsOn(me, After(db, found), end);
      } else if ko !in db.order {
        LeadsOn(me, After(db, pc.(da := FindOrder(ko))), end);
        LeadsOn(me, After(db, found), end);
      } else {
        SoloDelivers(me, db, found, ko);
        DeliveryKeepsConfig(db, ko, carrier);
        SoloDeliversFrom(me, DeliverOrder(db, ko, carrier), w, d + 1, carrier);
        Join(me, After(db, found), After(DeliverOrder(db, ko, carrier), next), end);
      }
    }
    LeadsOn(me, After(db, pc), end);
  }

  lemma DeliveryKeepsConfig(db: Db, ko: OKey, carrier: nat)
    requires ko in db.order
    ensures DeliverOrder(db, ko, carrier).cfg == db.cfg
  {
    StampRowsKeepsConfig(db.(newOrder := db.newOrder - {ko},
                             order := db.order[ko := db.order[ko].(carrier := carrier)]),
                         ko.w, DeliveryScan(db, ko));
  }

  // ------------------------------------------------------------------ queries

  lemma {:induction false} SoloReads(me: nat, db: Db, pc: Pc, rows: seq<Line>)
    requires pc.Querying? && pc.qa == ReadStock(rows)
    ensures Leads(me, After(db, pc), After(db, Idle))
    decreases |rows|
  {
    hide Leads;
    if rows == [] {
      Stay(me, After(db, Idle));
    } else {
      SoloReads(me, db, pc.(qa := ReadStock(rows[1..])), rows[1..]);
    }
    LeadsOn(me, After(db, pc), After(db, Idle));
  }

  lemma SoloQueries(me: nat, db: Db, t: Txn)
    requires t.OrderStatus? || t.StockLevel?
    ensures Leads(me, After(db, Begin(t)), After(db, Idle))
  {
    var end, pc := After(db, Idle), Begin(t);
    hide Leads, Scan;
    if t.OrderStatus? {
      Stay(me, end);
      LeadsOn(me, After(db, QueryingStep(db, pc)), end);
    } else {
      var scanning := QueryingStep(db, pc);
      var reading := QueryingStep(db, scanning);
      SoloReads(me, db, reading, reading.qa.rows);
      LeadsOn(me, After(db, scanning), end);
    }
    LeadsOn(me, After(db, pc), end);
  }

  /** A transaction whose operations are not interleaved with others is the atomic transaction. */
  lemma SoloIsAtomic(db: Db, t: Txn)
    ensures Leads(Worker(db.cfg, t.w), After(db, Begin(t)), After(Execute(db, t).db, Idle))
  {
    var me := Worker(db.cfg, t.w);
    hide Leads, PlaceOrder, Pay, DeliverFrom;
    match t
    case NewOrder(w, d, c, items) => SoloOrders(me, db, w, d, c, items);
    case Payment(w, d, cw, cd, c, amount) => SoloPays(me, db, w, d, cw, cd, c, amount);
    case Delivery(w, carrier) => SoloDeliversFrom(me, db, w, 1, carrier);
    case OrderStatus(w, d, c) => SoloQueries(me, db, t);
    case StockLevel(w, d, threshold) => SoloQueries(me, db, t);
  }
}
