/**
 Conservation of the STOCK counters over the order lines of the run, the restock rule,
 and the exact shape of S_QUANTITY.
 */
module StockLaws {
  import opened MapSum
  import opened Partition
  import opened Tables
  import opened Scans
  import opened Transactions
  import opened Consistency

  predicate Supplies(k: SKey, x: OLKey, v: OLVal) {
    x.o > LOADED_ORDERS && v.supply == k.w && v.i == k.i
  }

  /** The quantities of the run's order lines that name a stock row. */
  ghost function Ordered(lines: map<OLKey, OLVal>, k: SKey): map<OLKey, int> {
    map x | x in lines && Supplies(k, x, lines[x]) :: lines[x].qty
  }

  /** Those of them whose order belongs to another warehouse. */
  ghost function OrderedRemotely(lines: map<OLKey, OLVal>, k: SKey): map<OLKey, int> {
    map x | x in lines && Supplies(k, x, lines[x]) && x.w != k.w :: lines[x].qty
  }

  ghost predicate StockRowOk(loaded: SVal, s: SVal, lines: map<OLKey, OLVal>, k: SKey) {
    && 10 <= s.quantity <= 100
    && s.ytd == Sum(Ordered(lines, k))
    && s.orderCnt == |Ordered(lines, k)|
    && s.remoteCnt == |OrderedRemotely(lines, k)|
    && (s.quantity + s.ytd - loaded.quantity) % 91 == 0
  }

  ghost predicate StockOk(loaded: map<SKey, SVal>, db: Db) {
    forall k: SKey :: k in db.stock ==> k in loaded && StockRowOk(loaded[k], db.stock[k], db.orderLine, k)
  }

  /** The uint32 subtraction of the restock test does not wrap on a valid row. */
  lemma RestockTestDoesNotWrap(quantity: nat, ordered: nat)
    requires 10 <= quantity <= 100 && 1 <= ordered <= 10
    ensures Sub32(quantity, ordered) == quantity - ordered
  {
  }

  /** Restocking keeps a quantity in [10, 100] and moves it by -ordered modulo 91. */
  lemma RestockStaysInRange(quantity: nat, ordered: nat)
    requires 10 <= quantity <= 100 && 1 <= ordered <= 10
    ensures 10 <= Restock(quantity, ordered) <= 100
    ensures Restock(quantity, ordered) == quantity - ordered || Restock(quantity, ordered) == quantity - ordered + 91
  {
    RestockTestDoesNotWrap(quantity, ordered);
  }

  lemma Shift91(a: int, b: int)
    requires a % 91 == 0 && (b == a || b == a + 91)
    ensures b % 91 == 0
  {
  }

  lemma OrderedInsert(lines: map<OLKey, OLVal>, x: OLKey, v: OLVal, k: SKey)
    requires x !in lines
    ensures Ordered(lines[x := v], k) == if Supplies(k, x, v) then Ordered(lines, k)[x := v.qty] else Ordered(lines, k)
    ensures OrderedRemotely(lines[x := v], k)
         == if Supplies(k, x, v) && x.w != k.w then OrderedRemotely(lines, k)[x := v.qty] else OrderedRemotely(lines, k)
  {
  }

  /** A fresh line of the run adds its quantity and itself to the totals of its stock row only. */
  lemma LineTotals(lines: map<OLKey, OLVal>, x: OLKey, v: OLVal, k: SKey)
    requires x !in lines
    ensures Sum(Ordered(lines[x := v], k)) == Sum(Ordered(lines, k)) + if Supplies(k, x, v) then v.qty else 0
    ensures |Ordered(lines[x := v], k)| == |Ordered(lines, k)| + if Supplies(k, x, v) then 1 else 0
    ensures |OrderedRemotely(lines[x := v], k)|
         == |OrderedRemotely(lines, k)| + if Supplies(k, x, v) && x.w != k.w then 1 else 0
  {
    OrderedInsert(lines, x, v, k);
    assert x !in Ordered(lines, k) && x !in OrderedRemotely(lines, k);
    SumInsert(Ordered(lines, k), x, v.qty);
  }

  /** Inserting a fresh line of the run and updating its stock row keeps the row's laws. */
  lemma LineKeepsStockRow(loaded: SVal, s: SVal, lines: map<OLKey, OLVal>, k: SKey, x: OLKey, it: Item, v: OLVal)
    requires StockRowOk(loaded, s, lines, k) && x !in lines && x.o > LOADED_ORDERS
    requires 1 <= it.qty <= 10 && v.i == it.i && v.supply == it.supply && v.qty == it.qty
    ensures Supplies(k, x, v) ==> StockRowOk(loaded, TakeStock(s, it, x.w), lines[x := v], k)
    ensures !Supplies(k, x, v) ==> StockRowOk(loaded, s, lines[x := v], k)
  {
    hide Ordered, OrderedRemotely, Restock;
    LineTotals(lines, x, v, k);
    RestockStaysInRange(s.quantity, it.qty);
    Shift91(s.quantity + s.ytd - loaded.quantity, Restock(s.quantity, it.qty) + (s.ytd + it.qty) - loaded.quantity);
  }

  lemma AddLineKeepsStock(loaded: map<SKey, SVal>, db: Db, ko: OKey, n: nat, it: Item)
    requires StockOk(loaded, db) && ko.o > LOADED_ORDERS && OLKey(ko.w, ko.d, ko.o, n) !in db.orderLine
    requires 1 <= it.qty <= 10 && SKey(it.supply, it.i) in db.stock
    ensures StockOk(loaded, AddLine(db, ko, n, it))
  {
    var x := OLKey(ko.w, ko.d, ko.o, n);
    var v := NewLine(it, Row(db.item, it.i, NO_ITEM).price);
    var r := AddLine(db, ko, n, it);
    hide StockRowOk;
    forall k: SKey | k in r.stock
      ensures k in loaded && StockRowOk(loaded[k], r.stock[k], r.orderLine, k)
    {
      LineKeepsStockRow(loaded[k], db.stock[k], db.orderLine, k, x, it, v);
    }
  }

  lemma {:induction false} AddLinesKeepsStock(loaded: map<SKey, SVal>, db: Db, ko: OKey, items: seq<Item>, n: nat)
    requires n <= |items| && ItemsFrom(db, items, n) && StockOk(loaded, db) && ko.o > LOADED_ORDERS
    requires forall j :: 0 <= j < |items| ==> 1 <= items[j].qty <= 10
    requires forall k: OLKey :: k in db.orderLine ==> !NewLineKey(k, ko, n, |items|)
    ensures StockOk(loaded, AddLines(db, ko, items, n).db)
    decreases |items| - n
  {
    hide StockOk;
    if n < |items| {
      var next := AddLine(db, ko, n + 1, items[n]);
      AddLineTouches(db, ko, n + 1, items[n]);
      assert next.stock.Keys == db.stock.Keys;
      assert NewLineKey(OLKey(ko.w, ko.d, ko.o, n + 1), ko, n, |items|);
      AddLineKeepsStock(loaded, db, ko, n + 1, items[n]);
      forall k: OLKey | k in next.orderLine
        ensures !NewLineKey(k, ko, n + 1, |items|)
      {
        assert k in db.orderLine || k == OLKey(ko.w, ko.d, ko.o, n + 1);
      }
      AddLinesKeepsStock(loaded, next, ko, items, n + 1);
    }
  }

  lemma PlaceOrderKeepsStock(loaded: map<SKey, SVal>, db: Db, w: nat, d: nat, c: nat, items: seq<Item>)
    requires Consistent(db) && Drawn(db.cfg, NewOrder(w, d, c, items)) && StockOk(loaded, db)
    ensures StockOk(loaded, PlaceOrder(db, w, d, c, items).db)
  {
    var ko := OKey(w, d, NextOid(db, w, d));
    var mid := OpenOrder(db, w, d, c, items);
    assert DKey(w, d) in db.district;
    NewOrderIsFresh(db, w, d);
    forall j | 0 <= j < |items|
      ensures items[j].i in mid.item && SKey(items[j].supply, items[j].i) in mid.stock && 1 <= items[j].qty <= 10
    {
      assert DrawnItem(db.cfg, items[j]);
    }
    AddLinesKeepsStock(loaded, mid, ko, items, 0);
  }

  // ------------------------------------------------------------------ the stock rows of one order

  predicate Names(it: Item, k: SKey) {
    SKey(it.supply, it.i) == k
  }

  /** The quantity, the number and the remote number of the items from n on that name stock row k. */
  function QtyOf(items: seq<Item>, k: SKey, n: nat): nat
    decreases |items| - n
  {
    if n >= |items| then 0 else (if Names(items[n], k) then items[n].qty else 0) + QtyOf(items, k, n + 1)
  }

  function CountOf(items: seq<Item>, k: SKey, n: nat): nat
    decreases |items| - n
  {
    if n >= |items| then 0 else (if Names(items[n], k) then 1 else 0) + CountOf(items, k, n + 1)
  }

  /** Row b is row a after the items of the order from n on; in [10, 100] the congruence fixes the quantity. */
  ghost predicate Moved(a: SVal, b: SVal, items: seq<Item>, n: nat, k: SKey, home: nat) {
    && b.ytd == a.ytd + QtyOf(items, k, n) && b.orderCnt == a.orderCnt + CountOf(items, k, n)
    && b.remoteCnt == a.remoteCnt + (if k.w == home then 0 else CountOf(items, k, n))
    && 10 <= b.quantity <= 100 && (b.quantity + QtyOf(items, k, n) - a.quantity) % 91 == 0
  }

  /** There is one quantity in [10, 100] with a given residue modulo 91. */
  lemma QuantityIsFixed(p: nat, q: nat, moved: int)
    requires 10 <= p <= 100 && 10 <= q <= 100 && (p + moved) % 91 == 0 && (q + moved) % 91 == 0
    ensures p == q
  {
  }

  lemma TakeMoves(a: SVal, b: SVal, c: SVal, items: seq<Item>, n: nat, k: SKey, home: nat)
    requires n < |items| && 10 <= a.quantity <= 100 && 1 <= items[n].qty <= 10
    requires b == if Names(items[n], k) then TakeStock(a, items[n], home) else a
    requires Moved(b, c, items, n + 1, k, home)
    ensures Moved(a, c, items, n, k, home)
  {
    if Names(items[n], k) {
      RestockStaysInRange(a.quantity, items[n].qty);
    }
    hide Restock;
  }

  lemma {:induction false} AddLinesMoveStock(db: Db, ko: OKey, items: seq<Item>, n: nat, k: SKey)
    requires n <= |items| && ItemsFrom(db, items, n) && k in db.stock && 10 <= db.stock[k].quantity <= 100
    requires forall j :: 0 <= j < |items| ==> 1 <= items[j].qty <= 10
    ensures k in AddLines(db, ko, items, n).db.stock
    ensures Moved(db.stock[k], AddLines(db, ko, items, n).db.stock[k], items, n, k, ko.w)
    decreases |items| - n
  {
    if n < |items| {
      var next := AddLine(db, ko, n + 1, items[n]);
      AddLineTouches(db, ko, n + 1, items[n]);
      assert next.stock[k] == if Names(items[n], k) then TakeStock(db.stock[k], items[n], ko.w) else db.stock[k];
      hide Moved, TakeStock, Restock;
      assert 10 <= next.stock[k].quantity <= 100 by { TakeInRange(db.stock[k], items[n], ko.w); }
      AddLinesMoveStock(next, ko, items, n + 1, k);
      TakeMoves(db.stock[k], next.stock[k], AddLines(next, ko, items, n + 1).db.stock[k], items, n, k, ko.w);
    }
  }

  lemma TakeInRange(s: SVal, it: Item, home: nat)
    requires 10 <= s.quantity <= 100 && 1 <= it.qty <= 10
    ensures 10 <= TakeStock(s, it, home).quantity <= 100
  {
    RestockStaysInRange(s.quantity, it.qty);
  }

  /** What a new order makes of every stock row. */
  lemma NewOrderMovesStock(db: Db, w: nat, d: nat, c: nat, items: seq<Item>, k: SKey)
    requires Consistent(db) && Drawn(db.cfg, NewOrder(w, d, c, items))
    requires k in db.stock && 10 <= db.stock[k].quantity <= 100
    ensures k in PlaceOrder(db, w, d, c, items).db.stock
    ensures Moved(db.stock[k], PlaceOrder(db, w, d, c, items).db.stock[k], items, 0, k, w)
  {
    var ko := OKey(w, d, NextOid(db, w, d));
    var mid := OpenOrder(db, w, d, c, items);
    forall j | 0 <= j < |items|
      ensures items[j].i in mid.item && SKey(items[j].supply, items[j].i) in mid.stock && 1 <= items[j].qty <= 10
    {
      assert DrawnItem(db.cfg, items[j]);
    }
    hide Consistent, Moved;
    AddLinesMoveStock(mid, ko, items, 0, k);
  }

  /** Delivery dates do not enter the stock laws. */
  lemma StampKeepsOrdered(a: map<OLKey, OLVal>, b: map<OLKey, OLVal>, k: SKey)
    requires OnlyStamped(a, b)
    ensures Ordered(a, k) == Ordered(b, k) && OrderedRemotely(a, k) == OrderedRemotely(b, k)
  {
  }

  lemma StampKeepsStock(loaded: map<SKey, SVal>, db: Db, r: Db)
    requires StockOk(loaded, db) && r.stock == db.stock && OnlyStamped(db.orderLine, r.orderLine)
    ensures StockOk(loaded, r)
  {
    forall k: SKey | k in r.stock
      ensures k in loaded && StockRowOk(loaded[k], r.stock[k], r.orderLine, k)
    {
      StampKeepsOrdered(db.orderLine, r.orderLine, k);
    }
  }

  lemma DeliverDistrictKeepsStock(loaded: map<SKey, SVal>, db: Db, w: nat, d: nat, carrier: nat)
    requires Consistent(db) && 1 <= carrier <= DISTRICTS && StockOk(loaded, db)
    ensures StockOk(loaded, DeliverDistrict(db, w, d, carrier).db)
  {
    var ko := DeliveredKey(db, w, d);
    if ko in db.newOrder {
      assert ko in db.order && DKey(w, d) in db.district;
      DeliverOrderEffect(db, ko, carrier);
      hide StockOk, OnlyStamped, DeliverOrder;
      StampKeepsStock(loaded, db, DeliverOrder(db, ko, carrier));
    }
  }

  lemma {:induction false} DeliverFromKeepsStock(loaded: map<SKey, SVal>, db: Db, w: nat, d: nat, carrier: nat)
    requires Consistent(db) && 1 <= carrier <= DISTRICTS && StockOk(loaded, db)
    ensures StockOk(loaded, DeliverFrom(db, w, d, carrier).db)
    decreases DISTRICTS + 1 - d
  {
    hide Consistent, StockOk, DeliverDistrict;
    if d <= DISTRICTS {
      DeliverDistrictKeepsConsistent(db, w, d, carrier);
      DeliverDistrictKeepsStock(loaded, db, w, d, carrier);
      DeliverFromKeepsStock(loaded, DeliverDistrict(db, w, d, carrier).db, w, d + 1, carrier);
    }
  }

  lemma ExecuteKeepsStock(loaded: map<SKey, SVal>, db: Db, t: Txn)
    requires Consistent(db) && Drawn(db.cfg, t) && StockOk(loaded, db)
    ensures StockOk(loaded, Execute(db, t).db)
  {
    match t
    case NewOrder(w, d, c, items) => PlaceOrderKeepsStock(loaded, db, w, d, c, items);
    case Payment(w, d, cw, cd, c, amount) =>
    case Delivery(w, carrier) => DeliverFromKeepsStock(loaded, db, w, 1, carrier);
    case OrderStatus(w, d, c) =>
    case StockLevel(w, d, threshold) =>
  }
}
