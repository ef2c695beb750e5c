/**
 The order lines in every interleaving. A line, once inserted, never changes but for its date, although deliveries of a
 neighbour write back rows they read earlier; so what it says of price and supplier lasts.
 */
module OwnedLines {
  import opened Partition
  import opened Tables
  import opened Scans
  import opened Transactions
  import opened Consistency
  import opened LineLaws
  import opened Workers
  import opened Interleaving
  import opened Loader
  import opened Runs
  import opened Safety
  import opened Hits

  /** Every line of a is in b, with at most another date. */
  ghost predicate LinesStay(a: map<OLKey, OLVal>, b: map<OLKey, OLVal>) {
    forall k: OLKey :: k in a ==> k in b && b[k] == a[k].(deliveryD := b[k].deliveryD)
  }

  /** A price that was read is the price of the item; rows that were read are those of the table but for dates. */
  ghost predicate RegistersTrue(db: Db, pc: Pc) {
    match pc
    case Idle => true
    case Ordering(_, _, _, items, oa) =>
      (oa.GetStock? || oa.PutStock? || oa.PutLine?) && OnItem(pc) ==>
        items[oa.n].i in db.item && oa.price == db.item[items[oa.n].i].price
    case Paying(_, _, _, _, _, _, _) => true
    case Delivering(_, _, da) =>
      da.StampLine? ==> forall j :: 0 <= j < |da.rows| ==> Stampable(db.orderLine, da.rows[j])
    case Querying(_, _, _, _) => true
  }

  // ------------------------------------------------------------------ one operation

  lemma OrderingKeepsLines(db: Db, me: nat, pc: Pc)
    requires pc.Ordering? && Busy(db, me, pc)
    ensures LinesStay(db.orderLine, OrderingWrite(db, me, pc).orderLine)
    ensures OrderingWrite(db, me, pc).item == db.item
  {
    if pc.oa.PutLine? && OnItem(pc) {
      LineIsFresh(db, pc);
    }
    hide Busy, StockTaken, TickOf, OrderInserted, NewLine;
  }

  lemma AddedIsPriced(db: Db, pc: Pc)
    requires pc.Ordering? && pc.oa.PutLine? && OnItem(pc) && RegistersTrue(db, pc)
    ensures IsPriced(db.item, NewLine(pc.items[pc.oa.n], pc.oa.price))
  {
  }

  lemma OrderingKeepsPrices(db: Db, me: nat, pc: Pc)
    requires pc.Ordering? && RegistersTrue(db, pc) && PricesOk(db)
    ensures PricesOk(OrderingWrite(db, me, pc))
  {
    var r := OrderingWrite(db, me, pc);
    if pc.oa.PutLine? && OnItem(pc) {
      AddedIsPriced(db, pc);
    }
    hide IsPriced, NewLine, StockTaken, TickOf, OrderInserted, RegistersTrue;
    forall k: OLKey | k in r.orderLine && k.o > LOADED_ORDERS
      ensures IsPriced(r.item, r.orderLine[k])
    {
      assert k in db.orderLine ==> IsPriced(db.item, db.orderLine[k]);
    }
  }

  lemma OrderingKeepsTrue(db: Db, me: nat, pc: Pc)
    requires pc.Ordering? && RegistersTrue(db, pc)
    ensures RegistersTrue(db, OrderingNext(db, pc))
  {
  }

  lemma DatingKeepsLines(lines: map<OLKey, OLVal>, row: Line, date: nat)
    requires Stampable(lines, row)
    ensures LinesStay(lines, lines[row.key := row.val.(deliveryD := date)])
    ensures lines[row.key := row.val.(deliveryD := date)].Keys == lines.Keys
  {
  }

  lemma StampingKeepsLines(db: Db, me: nat, pc: Pc)
    requires pc.Delivering? && RegistersTrue(db, pc)
    ensures LinesStay(db.orderLine, DeliveringWrite(db, me, pc).orderLine)
    ensures DeliveringWrite(db, me, pc).orderLine.Keys == db.orderLine.Keys
    ensures DeliveringWrite(db, me, pc).item == db.item
  {
    DeliveringWritesRow(db, me, pc);
    hide DeliveringWrite, Clock, LinesStay, Stampable;
    if pc.da.StampLine? && pc.da.rows != [] {
      DatingKeepsLines(db.orderLine, pc.da.rows[0], Clock(db, me));
    } else {
      NothingChanges(db.orderLine);
    }
  }

  lemma DeliveringWritesRow(db: Db, me: nat, pc: Pc)
    requires pc.Delivering?
    ensures DeliveringWrite(db, me, pc).item == db.item
    ensures DeliveringWrite(db, me, pc).orderLine
         == if pc.da.StampLine? && pc.da.rows != []
            then db.orderLine[pc.da.rows[0].key := pc.da.rows[0].val.(deliveryD := Clock(db, me))]
            else db.orderLine
  {
  }

  lemma NothingChanges(lines: map<OLKey, OLVal>)
    ensures LinesStay(lines, lines)
  {
  }

  lemma DeliveringKeepsTrue(db: Db, pc: Pc)
    requires pc.Delivering? && RegistersTrue(db, pc)
    ensures RegistersTrue(db, DeliveringNext(db, pc))
  {
    if pc.da.ScanLines? {
      ScanIsStampable(db.orderLine, OLKey(pc.da.ko.w, pc.da.ko.d, pc.da.ko.o, 0), 10);
    }
    hide Scan, Stampable;
  }

  lemma StayKeepsPrices(a: Db, b: Db)
    requires PricesOk(a) && a.item == b.item && LinesStay(a.orderLine, b.orderLine)
    requires forall k: OLKey :: k in b.orderLine ==> k in a.orderLine
    ensures PricesOk(b)
  {
    forall k: OLKey | k in b.orderLine && k.o > LOADED_ORDERS
      ensures IsPriced(b.item, b.orderLine[k])
    {
      assert IsPriced(a.item, a.orderLine[k]);
    }
  }

  lemma StayKeepsTrue(a: Db, b: Db, pc: Pc)
    requires RegistersTrue(a, pc) && a.item == b.item && LinesStay(a.orderLine, b.orderLine)
    ensures RegistersTrue(b, pc)
  {
    match pc
    case Delivering(_, _, da) =>
      if da.StampLine? {
        forall j | 0 <= j < |da.rows|
          ensures Stampable(b.orderLine, da.rows[j])
        {
          assert Stampable(a.orderLine, da.rows[j]);
        }
      }
    case _ =>
  }

  lemma StepKeepsLines(db: Db, me: nat, pc: Pc)
    requires Busy(db, me, pc) && RegistersTrue(db, pc) && PricesOk(db)
    ensures var r := Step(db, me, pc);
            LinesStay(db.orderLine, r.db.orderLine) && r.db.item == db.item && PricesOk(r.db)
            && RegistersTrue(r.db, r.pc)
  {
    var r := Step(db, me, pc);
    hide Busy, RegistersTrue, PricesOk, OrderingWrite, OrderingNext, PayingWrite, PayingNext, DeliveringWrite,
         DeliveringNext, QueryingStep;
    match pc
    case Idle => NothingChanges(db.orderLine);
    case Ordering(_, _, _, _, _) =>
      OrderingKeepsLines(db, me, pc);
      OrderingKeepsPrices(db, me, pc);
      OrderingKeepsTrue(db, me, pc);
      StayKeepsTrue(db, r.db, r.pc);
    case Paying(_, _, _, _, _, _, _) => PayingKeepsRows(db, me, pc);
    case Delivering(_, _, _) =>
      StampingKeepsLines(db, me, pc);
      DeliveringKeepsTrue(db, pc);
      StayKeepsPrices(db, r.db);
      StayKeepsTrue(db, r.db, r.pc);
    case Querying(_, _, _, _) => QueryingKeepsTrue(db, pc);
  }

  lemma PayingKeepsRows(db: Db, me: nat, pc: Pc)
    requires pc.Paying? && PricesOk(db)
    ensures var r := PayingWrite(db, me, pc);
            r.orderLine == db.orderLine && r.item == db.item && PricesOk(r) && RegistersTrue(r, PayingNext(db, me, pc))
  {
    assert !PayingNext(db, me, pc).Ordering? && !PayingNext(db, me, pc).Delivering?;
    hide PayingNext, TickOf;
  }

  lemma QueryingKeepsTrue(db: Db, pc: Pc)
    requires pc.Querying?
    ensures RegistersTrue(db, QueryingStep(db, pc))
  {
  }

  // ------------------------------------------------------------------ every interleaving

  ghost predicate LinesTrue(s: Sys) {
    PricesOk(s.db) && forall i :: 0 <= i < |s.pcs| ==> RegistersTrue(s.db, s.pcs[i])
  }

  lemma MoveKeepsLines(s: Sys, m: Move)
    requires SysOk(s) && LinesTrue(s) && Enabled(s, m)
    ensures LinesTrue(Perform(s, m)) && LinesStay(s.db.orderLine, Perform(s, m).db.orderLine)
    ensures Perform(s, m).db.item == s.db.item
  {
    hide SysOk, Busy, PricesOk;
    match m
    case Start(i, t) =>
      assert RegistersTrue(s.db, Begin(t));
      hide RegistersTrue;
    case Go(i) =>
      BusyWorker(s, i);
      hide RegistersTrue, LinesStay, Step;
      StepKeepsLines(s.db, i, s.pcs[i]);
      var r := Perform(s, Go(i));
      forall j | 0 <= j < |r.pcs|
        ensures RegistersTrue(r.db, r.pcs[j])
      {
        if j != i {
          StayKeepsTrue(s.db, r.db, s.pcs[j]);
        }
      }
  }

  lemma LoadedTrue(db: Db)
    requires Loaded(db)
    ensures LinesTrue(InitialSys(db))
  {
    LoadedRowsSay(db);
  }

  lemma {:induction false} StatesAreTrue(db: Db, ss: seq<Sys>, ms: seq<Move>, k: nat)
    requires Loaded(db) && Behaviour(db, ss, ms) && k < |ss|
    ensures LinesTrue(ss[k]) && ss[k].db.item == db.item
  {
    hide SysOk, LinesTrue, Perform, Enabled, Loaded, Behaviour, LinesStay;
    BehaviourStarts(db, ss, ms);
    if k == 0 {
      LoadedTrue(db);
    } else {
      BehaviourMoves(db, ss, ms, k - 1);
      StatesAreOk(db, ss, ms, k - 1);
      StatesAreTrue(db, ss, ms, k - 1);
      MoveKeepsLines(ss[k - 1], ms[k - 1]);
    }
  }

  /** In every interleaving a line that is in the table stays there, and nothing of it but its date ever changes. */
  lemma {:induction false} LinesNeverChange(db: Db, ss: seq<Sys>, ms: seq<Move>, j: nat, k: nat, x: OLKey)
    requires Loaded(db) && Behaviour(db, ss, ms) && j <= k < |ss| && x in ss[j].db.orderLine
    ensures x in ss[k].db.orderLine
    ensures ss[k].db.orderLine[x] == ss[j].db.orderLine[x].(deliveryD := ss[k].db.orderLine[x].deliveryD)
    decreases k
  {
    hide SysOk, LinesTrue, Perform, Enabled, Loaded, Behaviour;
    if j < k {
      BehaviourStarts(db, ss, ms);
      BehaviourMoves(db, ss, ms, k - 1);
      StatesAreOk(db, ss, ms, k - 1);
      StatesAreTrue(db, ss, ms, k - 1);
      MoveKeepsLines(ss[k - 1], ms[k - 1]);
      LinesNeverChange(db, ss, ms, j, k - 1, x);
    }
  }

  /** At every point of every interleaving, the amount of a line of the run is its quantity times its item's price. */
  lemma EveryLineIsPriced(db: Db, ss: seq<Sys>, ms: seq<Move>, k: nat, x: OLKey)
    requires Loaded(db) && Behaviour(db, ss, ms) && k < |ss| && x in ss[k].db.orderLine && x.o > LOADED_ORDERS
    ensures var v := ss[k].db.orderLine[x]; v.i in db.item && v.amount == v.qty * db.item[v.i].price
  {
    StatesAreTrue(db, ss, ms, k);
    hide Loaded, Behaviour;
    assert IsPriced(ss[k].db.item, ss[k].db.orderLine[x]);
  }
}
