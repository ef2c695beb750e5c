/**
 The tables of the benchmark, keyed and valued as in the key and row structs, and the
 two side arrays. Money is in cents. Text columns and the unused tax and discount rates
 are not modelled.
 */
module Tables {
  import opened Partition

  const DISTRICTS: nat := 10
  const CUSTOMERS: nat := 3000
  const ITEMS: nat := 100000

  /** The highest order id the loader creates, and the initial D_NEXT_O_ID. */
  const LOADED_ORDERS: nat := 3000
  const FIRST_NEXT: nat := 3001
  /** Loaded orders from this id on are undelivered. */
  const FIRST_OPEN: nat := 2101

  datatype DKey = DKey(w: nat, d: nat)
  datatype CKey = CKey(w: nat, d: nat, c: nat)
  datatype OKey = OKey(w: nat, d: nat, o: nat)
  datatype OLKey = OLKey(w: nat, d: nat, o: nat, n: nat)
  datatype SKey = SKey(w: nat, i: nat)
  datatype HKey = HKey(w: nat, d: nat, cw: nat, cd: nat, c: nat, date: nat)

  datatype WVal = WVal(ytd: int)
  datatype DVal = DVal(ytd: int, nextOid: nat)
  datatype CVal = CVal(balance: int, ytdPayment: int, paymentCnt: nat, deliveryCnt: nat)
  datatype OVal = OVal(c: nat, carrier: nat, olCnt: nat, allLocal: bool, entryD: nat)
  datatype OLVal = OLVal(i: nat, deliveryD: nat, amount: int, supply: nat, qty: nat)
  datatype SVal = SVal(quantity: nat, ytd: int, orderCnt: nat, remoteCnt: nat)
  datatype IVal = IVal(price: int)

  datatype Db = Db(
    cfg: Config,
    warehouse: map<nat, WVal>,
    district: map<DKey, DVal>,
    customer: map<CKey, CVal>,
    history: map<HKey, int>,
    item: map<nat, IVal>,
    stock: map<SKey, SVal>,
    order: map<OKey, OVal>,
    newOrder: set<OKey>,
    orderLine: map<OLKey, OLVal>,
    pending: map<DKey, nat>,   // pending_new_order_per_dis
    latest: map<CKey, nat>,    // latest_order_id_per_customer
    clock: map<nat, nat>       // tl_hack of every worker thread
  )

  /** A get: the row, or the unspecified content of the caller's buffer on a miss. */
  function Row<K, V>(table: map<K, V>, key: K, missing: V): V {
    if key in table then table[key] else missing
  }

  const NO_WAREHOUSE := WVal(0)
  const NO_DISTRICT := DVal(0, 0)
  const NO_CUSTOMER := CVal(0, 0, 0, 0)
  const NO_STOCK := SVal(0, 0, 0, 0)
  const NO_ITEM := IVal(0)

  predicate IsDistrict(cfg: Config, w: nat, d: nat) {
    1 <= w <= cfg.warehouses && 1 <= d <= DISTRICTS
  }

  predicate IsCustomer(cfg: Config, k: CKey) {
    IsDistrict(cfg, k.w, k.d) && 1 <= k.c <= CUSTOMERS
  }

  predicate IsStock(cfg: Config, k: SKey) {
    1 <= k.w <= cfg.warehouses && 1 <= k.i <= ITEMS
  }

  /** The ids a district has handed out when its counter stands at next; 3001 is skipped. */
  predicate Allocated(o: nat, next: nat) {
    1 <= o <= LOADED_ORDERS || FIRST_NEXT < o <= next
  }

  /** The largest allocated id. */
  function NewestOid(next: nat): nat {
    if next <= FIRST_NEXT then LOADED_ORDERS else next
  }
}
