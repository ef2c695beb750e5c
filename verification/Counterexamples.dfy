/**
 Runs that leave the properties the code keeps only conditionally, each from any loaded database.
 */
module Counterexamples {
  import opened MapSum
  import opened Partition
  import opened Tables
  import opened Scans
  import opened Transactions
  import opened Consistency
  import opened DeliveryScans
  import opened Deliveries
  import opened Clauses
  import opened StockLaws
  import opened MoneyLaws
  import opened CustomerLaws
  import opened PaymentLaws
  import opened AccountLaws
  import opened DeliveryTotals
  import opened Loader
  import opened Runs

  // ------------------------------------------------------------------ an order of more than ten lines

  /** A new order is what the next delivery takes from its district. */
  lemma NewOrderIsNext(db: Db, w: nat, d: nat, c: nat, items: seq<Item>)
    requires Consistent(db) && Drawn(db.cfg, NewOrder(w, d, c, items))
    ensures var r, ko := PlaceOrder(db, w, d, c, items).db, OKey(w, d, NextOid(db, w, d));
            IsNext(r, w, d, ko, OVal(c, 0, |items|, AllLocal(w, items), Now(db, w)))
  {
    hide Consistent, PlaceOrder, IsLineOf, AllLocal;
    NewOrderCommits(db, w, d, c, items);
  }

  /**
   A new order followed by a delivery: the total credited for the order is that of its lines, and clause 3.3.2.7 holds
   of it afterwards, exactly when the order has at most ten lines. Here mid is the database in which the delivery
   turns to the order's district.
   */
  lemma OrderThenDelivery(loaded: Db, db: Db, w: nat, d: nat, c: nat, items: seq<Item>, carrier: nat)
    requires Laws(loaded, db) && Drawn(db.cfg, NewOrder(w, d, c, items)) && 1 <= carrier <= DISTRICTS
    ensures var ordered, ko := Execute(db, NewOrder(w, d, c, items)).db, OKey(w, d, NextOid(db, w, d));
            var mid := Turned(ordered, w, d, carrier);
            && ko == DeliveredKey(mid, w, d) && ko in mid.newOrder
            && (Total(DeliveryScan(mid, ko)) == Sum(Amounts(mid.orderLine, ko, 0, |items|)) <==> |items| <= 10)
            && (DatesClause(Execute(ordered, Delivery(w, carrier)).db, ko) <==> |items| <= 10)
  {
    var ko, vo := OKey(w, d, NextOid(db, w, d)), OVal(c, 0, |items|, AllLocal(w, items), Now(db, w));
    var ordered := Execute(db, NewOrder(w, d, c, items)).db;
    assert DKey(w, d) in db.district && ko.o > FIRST_NEXT;
    hide *;
    ExecuteKeepsLaws(loaded, db, NewOrder(w, d, c, items));
    OrderIsNext(loaded, db, w, d, c, items);
    NextTotal(ordered, w, d, carrier, ko, vo);
    NextDates(ordered, w, d, carrier, ko, vo);
    ExecuteIsDelivery(ordered, w, carrier);
  }

  lemma ExecuteIsDelivery(db: Db, w: nat, carrier: nat)
    ensures Execute(db, Delivery(w, carrier)) == DeliverFrom(db, w, 1, carrier)
  {
    hide DeliverFrom;
  }

  lemma OrderIsNext(loaded: Db, db: Db, w: nat, d: nat, c: nat, items: seq<Item>)
    requires Laws(loaded, db) && Laws(loaded, Execute(db, NewOrder(w, d, c, items)).db)
    requires Drawn(db.cfg, NewOrder(w, d, c, items))
    ensures var r, ko := Execute(db, NewOrder(w, d, c, items)).db, OKey(w, d, NextOid(db, w, d));
            && Consistent(r) && BacklogStays(r) && LinesOk(r) && 1 <= d <= DISTRICTS
            && IsNext(r, w, d, ko, OVal(c, 0, |items|, AllLocal(w, items), Now(db, w)))
  {
    hide Consistent, StockOk, MoneyOk, CountsOk, PaymentsOk, BacklogStays, AccountsOk, LinesOk, PlaceOrder, AllLocal,
         IsNext;
    NewOrderIsNext(db, w, d, c, items);
  }

  /** Eleven lines suffice, after any loading: the total misses the last one, and it stays without a date. */
  lemma ElevenLinesBreakBoth(db: Db, w: nat, d: nat, carrier: nat)
    requires Loaded(db) && IsDistrict(db.cfg, w, d) && 1 <= carrier <= DISTRICTS
    ensures var t, ko := NewOrder(w, d, 1, seq(11, _ => Item(1, w, 1))), OKey(w, d, FIRST_NEXT + 1);
            var mid := Turned(Execute(db, t).db, w, d, carrier);
            && Drawn(db.cfg, t)
            && Total(DeliveryScan(mid, ko)) != Sum(Amounts(mid.orderLine, ko, 0, 11))
            && !DatesClause(Execute(Execute(db, t).db, Delivery(w, carrier)).db, ko)
  {
    var items := seq(11, _ => Item(1, w, 1));
    assert NextOid(db, w, d) == FIRST_NEXT + 1 by { assert DKey(w, d) in db.district; }
    assert Drawn(db.cfg, NewOrder(w, d, 1, items));
    hide Loaded, Turned, DatesClause, Scan, Total, Amounts, Execute, Laws, Drawn;
    LoadedKeepsLaws(db);
    OrderThenDelivery(db, db, w, d, 1, items, carrier);
  }

  // ------------------------------------------------------------------ clause 3.3.2.3

  /** The undelivered ids of a loaded district have no gap; its first new order, whatever its arguments, makes one. */
  lemma FirstOrderBreaksNoGaps(db: Db, w: nat, d: nat, c: nat, items: seq<Item>)
    requires Loaded(db) && Drawn(db.cfg, NewOrder(w, d, c, items))
    ensures NoGaps(db, w, d) && !NoGaps(Execute(db, NewOrder(w, d, c, items)).db, w, d)
  {
    var t, ko := NewOrder(w, d, c, items), OKey(w, d, FIRST_NEXT + 1);
    var r := Execute(db, t).db;
    LoadedIsConsistent(db);
    assert NextOid(db, w, d) == FIRST_NEXT + 1 by { assert DKey(w, d) in db.district; }
    assert forall k: OKey :: k in db.newOrder && k.w == w && k.d == d ==> k.o <= LOADED_ORDERS;
    hide Loaded, Consistent, PlaceOrder, BacklogStays, NoGaps, AllLocal;
    NewOrderIsNext(db, w, d, c, items);
    ExecuteKeepsConsistent(db, t);
    ExecuteKeepsBacklog(db, t);
    NoGapsClause(db, w, d);
    NoGapsClause(r, w, d);
    assert ko in r.newOrder;
  }

  // ------------------------------------------------------------------ order-status

  /**
   After loading, order-status shows loaded order 3000 of the district to every customer; so to all but its owner,
   and there are such customers, it shows the order of another.
   */
  lemma StatusShowsAnothersOrder(db: Db, w: nat, d: nat)
    requires Loaded(db) && IsDistrict(db.cfg, w, d)
    ensures OKey(w, d, LOADED_ORDERS) in db.order
    ensures forall c: nat :: 1 <= c <= CUSTOMERS ==> StatusKey(db, w, d, c) == OKey(w, d, LOADED_ORDERS)
    ensures exists c: nat :: Drawn(db.cfg, OrderStatus(w, d, c)) && db.order[StatusKey(db, w, d, c)].c != c
  {
    var owner := db.order[OKey(w, d, LOADED_ORDERS)].c;
    var c: nat := if owner == 1 then 2 else 1;
    forall c: nat | 1 <= c <= CUSTOMERS
      ensures StatusKey(db, w, d, c) == OKey(w, d, LOADED_ORDERS)
    {
      assert IsCustomer(db.cfg, CKey(w, d, c));
    }
    assert Drawn(db.cfg, OrderStatus(w, d, c)) && db.order[StatusKey(db, w, d, c)].c != c;
  }
}
