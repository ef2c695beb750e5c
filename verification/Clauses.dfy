/**
 The counting clauses of TPC-C section 3.3.2 over a consistent database, the maxima the
 side arrays cache, and the two clauses the code keeps only conditionally.
 */
module Clauses {
  import opened MapSum
  import opened Partition
  import opened Tables
  import opened Scans
  import opened Transactions
  import opened Consistency

  // ------------------------------------------------------------------ clauses 3.3.2.4 and 3.3.2.6

  ghost function LinesOfOrders(lines: map<OLKey, OLVal>, orders: set<OKey>): set<OLKey> {
    set k | k in lines && OKey(k.w, k.d, k.o) in orders
  }

  ghost function LineCounts(order: map<OKey, OVal>, orders: set<OKey>): map<OKey, int> {
    map k | k in order && k in orders :: order[k].olCnt
  }

  ghost function DistrictOrders(order: map<OKey, OVal>, w: nat, d: nat): set<OKey> {
    set k | k in order && k.w == w && k.d == d
  }

  ghost function FirstLines(ko: OKey, n: nat): set<OLKey> {
    if n == 0 then {} else FirstLines(ko, n - 1) + {OLKey(ko.w, ko.d, ko.o, n)}
  }

  lemma {:induction false} FirstLinesCount(ko: OKey, n: nat)
    ensures |FirstLines(ko, n)| == n
    ensures forall k: OLKey :: k in FirstLines(ko, n) <==> NewLineKey(k, ko, 0, n)
  {
    if n > 0 {
      FirstLinesCount(ko, n - 1);
      assert !NewLineKey(OLKey(ko.w, ko.d, ko.o, n), ko, 0, n - 1);
      assert OLKey(ko.w, ko.d, ko.o, n) !in FirstLines(ko, n - 1);
    }
  }

  /** Clause 3.3.2.6: O_OL_CNT is the number of ORDER-LINE rows of the order. */
  lemma OrderLineCount(db: Db, ko: OKey)
    requires LinesNumbered(db) && ko in db.order
    ensures |LinesOfOrders(db.orderLine, {ko})| == db.order[ko].olCnt
  {
    FirstLinesCount(ko, db.order[ko].olCnt);
    forall k: OLKey
      ensures k in LinesOfOrders(db.orderLine, {ko}) <==> k in FirstLines(ko, db.order[ko].olCnt)
    {
      assert OKey(k.w, k.d, k.o) == ko <==> k.w == ko.w && k.d == ko.d && k.o == ko.o;
    }
    assert LinesOfOrders(db.orderLine, {ko}) == FirstLines(ko, db.order[ko].olCnt);
  }

  lemma TakeOrder(lines: map<OLKey, OLVal>, order: map<OKey, OVal>, orders: set<OKey>, ko: OKey)
    requires ko in orders && ko in order
    ensures |LinesOfOrders(lines, orders)| == |LinesOfOrders(lines, orders - {ko})| + |LinesOfOrders(lines, {ko})|
    ensures Sum(LineCounts(order, orders)) == Sum(LineCounts(order, orders - {ko})) + order[ko].olCnt
  {
    var a, b := LinesOfOrders(lines, orders - {ko}), LinesOfOrders(lines, {ko});
    assert LinesOfOrders(lines, orders) == a + b && a !! b;
    SumRemove(LineCounts(order, orders), ko);
    assert LineCounts(order, orders) - {ko} == LineCounts(order, orders - {ko});
  }

  lemma {:induction false} LineTotal(db: Db, orders: set<OKey>)
    requires LinesNumbered(db) && forall k :: k in orders ==> k in db.order
    ensures Sum(LineCounts(db.order, orders)) == |LinesOfOrders(db.orderLine, orders)|
    decreases |orders|
  {
    if orders == {} {
      assert LineCounts(db.order, orders) == map[];
      assert LinesOfOrders(db.orderLine, orders) == {};
    } else {
      var ko :| ko in orders;
      TakeOrder(db.orderLine, db.order, orders, ko);
      OrderLineCount(db, ko);
      LineTotal(db, orders - {ko});
    }
  }

  /** Clause 3.3.2.4: a district's O_OL_CNT add up to its number of ORDER-LINE rows. */
  lemma DistrictLineTotal(db: Db, w: nat, d: nat)
    requires LinesNumbered(db)
    ensures Sum(LineCounts(db.order, DistrictOrders(db.order, w, d)))
         == |set k: OLKey | k in db.orderLine && k.w == w && k.d == d|
  {
    LineTotal(db, DistrictOrders(db.order, w, d));
    assert LinesOfOrders(db.orderLine, DistrictOrders(db.order, w, d))
        == set k: OLKey | k in db.orderLine && k.w == w && k.d == d;
  }

  // ------------------------------------------------------------------ the cached maxima

  /** The side array holds the largest O_ID of the district. */
  lemma PendingIsMaximum(db: Db, w: nat, d: nat)
    requires Consistent(db) && IsDistrict(db.cfg, w, d)
    ensures DKey(w, d) in db.pending && OKey(w, d, db.pending[DKey(w, d)]) in db.order
    ensures forall k: OKey :: k in db.order && k.w == w && k.d == d ==> k.o <= db.pending[DKey(w, d)]
  {
    assert DKey(w, d) in db.district;
  }

  /** The side array holds the largest O_ID above 3000 of the customer, or 3000. */
  lemma LatestIsMaximum(db: Db, kc: CKey)
    requires Consistent(db) && IsCustomer(db.cfg, kc)
    ensures kc in db.latest && db.latest[kc] >= LOADED_ORDERS
    ensures forall k: OKey :: k in db.order && k.w == kc.w && k.d == kc.d && db.order[k].c == kc.c ==>
              k.o <= db.latest[kc]
    ensures db.latest[kc] > LOADED_ORDERS ==>
              OKey(kc.w, kc.d, db.latest[kc]) in db.order && db.order[OKey(kc.w, kc.d, db.latest[kc])].c == kc.c
  {
    assert kc in db.latest && LatestIsOwn(db.order, kc, db.latest[kc]);
  }

  // ------------------------------------------------------------------ the loaded backlog

  /** Deliveries take the newest order, so the loaded orders 2101 .. 2999 stay undelivered. */
  ghost predicate BacklogStays(db: Db) {
    && (forall k: OKey :: k in db.newOrder ==> k.o >= FIRST_OPEN)
    && (forall k: OKey :: IsDistrict(db.cfg, k.w, k.d) && FIRST_OPEN <= k.o < LOADED_ORDERS ==> k in db.newOrder)
  }

  lemma {:induction false} DeliverFromKeepsBacklog(db: Db, w: nat, d: nat, carrier: nat)
    requires Consistent(db) && 1 <= carrier <= DISTRICTS && BacklogStays(db)
    ensures BacklogStays(DeliverFrom(db, w, d, carrier).db)
    decreases DISTRICTS + 1 - d
  {
    hide Consistent, BacklogStays, DeliverDistrict;
    if d <= DISTRICTS {
      DeliverDistrictKeepsConsistent(db, w, d, carrier);
      DeliverDistrictKeepsBacklog(db, w, d, carrier);
      DeliverFromKeepsBacklog(DeliverDistrict(db, w, d, carrier).db, w, d + 1, carrier);
    }
  }

  lemma DeliverDistrictKeepsBacklog(db: Db, w: nat, d: nat, carrier: nat)
    requires Consistent(db) && 1 <= carrier <= DISTRICTS && BacklogStays(db)
    ensures BacklogStays(DeliverDistrict(db, w, d, carrier).db)
  {
    var ko := DeliveredKey(db, w, d);
    if ko in db.newOrder {
      assert ko in db.order && DKey(w, d) in db.district;
      DeliverOrderEffect(db, ko, carrier);
      hide DeliverOrder, OnlyStamped, Consistent;
    }
  }

  lemma NewestJoinsBacklog(db: Db, r: Db, ko: OKey)
    requires BacklogStays(db) && ko.o > FIRST_NEXT && r.newOrder == db.newOrder + {ko} && r.cfg == db.cfg
    ensures BacklogStays(r)
  {
  }

  lemma OrderKeepsBacklog(db: Db, w: nat, d: nat, c: nat, items: seq<Item>)
    requires Consistent(db) && Drawn(db.cfg, NewOrder(w, d, c, items)) && BacklogStays(db)
    ensures BacklogStays(PlaceOrder(db, w, d, c, items).db)
  {
    assert DKey(w, d) in db.district && NextOid(db, w, d) > FIRST_NEXT;
    hide Consistent, BacklogStays, PlaceOrder, IsLineOf, AllLocal;
    NewOrderCommits(db, w, d, c, items);
    NewestJoinsBacklog(db, PlaceOrder(db, w, d, c, items).db, OKey(w, d, NextOid(db, w, d)));
  }

  lemma ExecuteKeepsBacklog(db: Db, t: Txn)
    requires Consistent(db) && Drawn(db.cfg, t) && BacklogStays(db)
    ensures BacklogStays(Execute(db, t).db)
  {
    hide Complete, RowsOk, Undelivered, LinesNumbered, PendingIsNewest, LatestIsNewest, PlaceOrder, DeliverFrom;
    match t
    case NewOrder(w, d, c, items) =>
      OrderKeepsBacklog(db, w, d, c, items);
    case Payment(w, d, cw, cd, c, amount) =>
    case Delivery(w, carrier) => DeliverFromKeepsBacklog(db, w, 1, carrier);
    case OrderStatus(w, d, c) =>
    case StockLevel(w, d, threshold) =>
  }

  /** The undelivered ids of a district form an interval. */
  ghost predicate NoGaps(db: Db, w: nat, d: nat) {
    forall a: nat, b: nat, c: nat :: a < b < c && OKey(w, d, a) in db.newOrder && OKey(w, d, c) in db.newOrder
      ==> OKey(w, d, b) in db.newOrder
  }

  /**
   Clause 3.3.2.3 asks that NO_O_ID has no gaps. Id 3001 is never used and orders leave from
   the top, so the clause holds exactly while no order of the run is undelivered.
   */
  lemma NoGapsClause(db: Db, w: nat, d: nat)
    requires Consistent(db) && BacklogStays(db) && IsDistrict(db.cfg, w, d)
    ensures NoGaps(db, w, d) <==> (forall k: OKey :: k in db.newOrder && k.w == w && k.d == d ==> k.o <= LOADED_ORDERS)
  {
    assert OKey(w, d, FIRST_OPEN) in db.newOrder;
    assert OKey(w, d, FIRST_NEXT) !in db.newOrder;
    if NoGaps(db, w, d) {
      forall k: OKey | k in db.newOrder && k.w == w && k.d == d
        ensures k.o <= LOADED_ORDERS
      {
        assert k == OKey(w, d, k.o);
        assert k.o != FIRST_NEXT;
      }
    }
  }

  // ------------------------------------------------------------------ clause 3.3.2.2

  ghost predicate IsLargestOrder(db: Db, w: nat, d: nat, o: int) {
    o >= 0 && OKey(w, d, o) in db.order && forall k: OKey :: k in db.order && k.w == w && k.d == d ==> k.o <= o
  }

  ghost predicate IsLargestNewOrder(db: Db, w: nat, d: nat, o: int) {
    o >= 0 && OKey(w, d, o) in db.newOrder && forall k: OKey :: k in db.newOrder && k.w == w && k.d == d ==> k.o <= o
  }

  /** D_NEXT_O_ID - 1 = max(O_ID) = max(NO_O_ID), the latter unless the district has no outstanding new order. */
  ghost predicate NextIdHolds(db: Db, w: nat, d: nat) {
    DKey(w, d) in db.district && IsLargestOrder(db, w, d, db.district[DKey(w, d)].nextOid - 1) &&
    ((exists k: OKey :: k in db.newOrder && k.w == w && k.d == d) ==>
       IsLargestNewOrder(db, w, d, db.district[DKey(w, d)].nextOid - 1))
  }

  /**
   Clause 3.3.2.2. The code increments the counter before it uses it, and delivers the newest
   order first; so the clause holds of a district exactly as long as the counter stands where
   it was loaded and loaded order 3000 is still undelivered.
   */
  lemma NextIdClause(db: Db, w: nat, d: nat)
    requires Consistent(db) && BacklogStays(db) && IsDistrict(db.cfg, w, d)
    ensures DKey(w, d) in db.district
    ensures NextIdHolds(db, w, d)
       <==> db.district[DKey(w, d)].nextOid == FIRST_NEXT && OKey(w, d, LOADED_ORDERS) in db.newOrder
  {
    PendingIsMaximum(db, w, d);
    var next := db.district[DKey(w, d)].nextOid;
    assert OKey(w, d, FIRST_OPEN) in db.newOrder;
    if next == FIRST_NEXT && OKey(w, d, LOADED_ORDERS) in db.newOrder {
      assert IsLargestOrder(db, w, d, LOADED_ORDERS) && IsLargestNewOrder(db, w, d, LOADED_ORDERS);
    }
    if NextIdHolds(db, w, d) {
      assert IsLargestOrder(db, w, d, next - 1) && IsLargestNewOrder(db, w, d, next - 1);
      assert next - 1 == db.pending[DKey(w, d)];
    }
  }

  /** The first delivery to a freshly loaded district, of its order 3000, already breaks the clause. */
  lemma DeliveryBreaksNextId(db: Db, w: nat, d: nat, carrier: nat)
    requires Consistent(db) && BacklogStays(db) && IsDistrict(db.cfg, w, d) && 1 <= carrier <= DISTRICTS
    requires NextIdHolds(db, w, d)
    ensures !NextIdHolds(DeliverDistrict(db, w, d, carrier).db, w, d)
    ensures forall k: OKey :: k in DeliverDistrict(db, w, d, carrier).db.order && k.w == w && k.d == d ==>
              k.o <= LOADED_ORDERS
  {
    NextIdClause(db, w, d);
    var ko, r := DeliveredKey(db, w, d), DeliverDistrict(db, w, d, carrier).db;
    assert ko == OKey(w, d, LOADED_ORDERS) && ko in db.order;
    DeliverDistrictKeepsConsistent(db, w, d, carrier);
    DeliverDistrictKeepsBacklog(db, w, d, carrier);
    DeliverDistrictKeepsConfig(db, w, d, carrier);
    DeliverOrderEffect(db, ko, carrier);
    assert r.district == db.district && ko !in r.newOrder;
    hide DeliverDistrict, DeliverOrder, DeliveryEffect, NextIdHolds, BacklogStays;
    NextIdClause(r, w, d);
    PendingIsMaximum(r, w, d);
  }
}
