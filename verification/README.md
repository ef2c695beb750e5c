# A verified model of the SIDLE benchmark programs

The repository benchmarks an ordered key-value index with a TPC-C program and with several
synthetic workloads. This project models what those programs do above the index and proves
what they rely on: the transactions and the tables they keep consistent, the order-preserving
key codec, the random arithmetic, and the workload generators.

The index is an ordered map with atomic `get`, `insert`, `remove` and `scan`
(`src/kv/masstree.h:151-213`, the configuration selected at `benchmark/real_world/tpcc_loader.h:30`).

## TPC-C

- `Tables` holds the keys, the rows and the database: nine tables, the two side arrays that cache
  the latest order ids, and the thread-local clocks. Money is in cents.
- `Loader` contains the loading loops and proves the exact contents they leave (`Loaded`).
- `Transactions` gives the five transactions as functions of the database; a random draw of the
  C++ code is an argument, and `Drawn` says which arguments the generators can produce. `Benchmark`
  has the transactions as methods of a class that updates its tables and side arrays in place,
  each proved to leave exactly the database its function says.
- `Consistency`, `StockLaws`, `MoneyLaws`, `CustomerLaws`, `PaymentLaws`, `AccountLaws`, `LineLaws`,
  `Deliveries`, `DeliveryScans`, `DeliveryTotals` and `Clauses` prove what every transaction keeps; `Runs` lifts this to every
  run that starts from a loaded database. `Counterexamples` has runs, from any loaded database, that leave the
  properties the code keeps only conditionally.
- `Workers` is the finer grain: worker threads interleave single table operations, a worker's
  local variables being registers of its program point. `Interleaving` proves the invariant of
  every step; `Safety`, `Hits`, `OwnedMoney`, `OwnedLatest`, `OwnedLines`, `OwnedFlags` and `OwnedQueries` state what
  follows for every interleaving: ids, the stock bound, gets that hit, money, cached ids, order lines and their
  flags, and what the queries scan. `Solo` proves that the
  operations of a transaction that is not interleaved amount to the atomic transaction, so the
  two grains are models of one program. `SingleWorker` refines the fine grain to the coarse one for one worker;
  `LostUpdates` shows that with two or more the remote updates of STOCK and CUSTOMER rows are lost, so that
  conservation holds exactly with one worker (`ConservationExactly`).

What the code does where the TPC-C specification or its own comments say otherwise (the model
follows the code):

- `D_NEXT_O_ID` is incremented before it is used, so id 3001 is never taken. Clause 3.3.2.2, which
  relates the counter to both the largest O_ID and the largest NO_O_ID, holds of a district exactly as
  long as the counter stands where it was loaded and loaded order 3000 is undelivered (`NextIdClause`);
  the first delivery to a loaded district breaks it (`FirstDeliveryBreaksNextId`). Clause 3.3.2.3 holds
  exactly while no order of the run is undelivered (`NoGapsClause`); the first new order breaks it
  (`FirstOrderBreaksNoGaps`).
- Delivery takes the newest order of a district, not the oldest, so the loaded orders 2101 to 2999 stay
  undelivered for ever (`ExecuteKeepsBacklog`).
- Delivery asks the index for ten rows. When the order has fewer lines, the further rows are lines of order 1
  of the next district (`DeliveryScanShape`), which is loaded as delivered: they add nothing to the total, and
  their dates, which are rewritten, are not null before either. When the order has more lines, those past the
  tenth are missed. So what is credited is the total of lines 1 to 10; it is the order's total, and clause 3.3.2.7
  (OL_DELIVERY_D is null exactly when O_CARRIER_ID is) holds of the order once it is delivered, exactly when the
  order has at most ten lines (`RunDeliveryTotal`, `RunDates`, with `ElevenLinesBreakBoth`). Clauses 3.3.2.10 and
  3.3.2.12, which relate a customer's balance to the delivered lines, hold with those lines (`RunCustomers`,
  `RunPayments`).
- Order-status of a customer that has not ordered reads loaded order 3000 of the district, whoever
  owns it (`OrderStatusReadsOwnOrder`, `StatusShowsAnothersOrder`).
- The loader shuffles the customer ids with a default-seeded engine anew for every district, so every district
  gets the same permutation; the model takes one permutation as an argument.
- With `delete_ratio` positive, `read_latest` can read keys that its own list has removed (`ReadHitsExactly`,
  `RemovedReadMisses`).
- The running loop of `rw_mix` takes its in-place branch with the insert ratio, the warm-up loop with the
  in-place ratio; the model lets every draw select any branch. The scan branch resets its cursor only
  at the end of the key array, the get branch only at half of it. So with range scans gets can leave
  the live window (`RangeScanBreaksReads`), and with both range scans and gets a range scan can start
  past the array (`ScansInBoundsExactly`); a run of the model ends before such a read.

## Codec, arithmetic and workloads

- `KeyCodec` treats packed little-endian records with any list of field widths; `Scans` applies it to
  the order-line and history keys and defines the index scan.
- `Lcg` and `Draws` treat the 48-bit generator in wrapping 64-bit arithmetic and the draws made from it;
  `Bits` and `MapSum` are the bit and finite-map facts they and others need.
- `RwMix`, `HotCold`, `SpacedKeys`, `ReadLatest` and `Shares` treat the synthetic workloads.

## Model

| member | source | states |
|---|---|---|
| Safety.IdleOwnerDistricts | benchmark/real_world/tpcc.cpp:106-143 | in every interleaving of single table operations, while a warehouse's owner is between transactions each of its districts holds exactly order ids {1..3000} and {3002..d_next_o_id} |
| Safety.InsertsAreFresh | benchmark/real_world/tpcc.cpp:122-211 | in every interleaving no insert of new-order into NEW-ORDER, ORDER or ORDER-LINE overwrites a row |
| Safety.IdleOwnerOrders | benchmark/real_world/tpcc.cpp:353-382 | in every interleaving, while a warehouse's owner is between transactions, clauses 3.3.2.5 and 3.3.2.6 hold of its orders |
| Safety.StockStaysInRange | benchmark/real_world/tpcc.cpp:176-196 | in every interleaving, racing remote updates included, every stock row is in [10,100] at every step and the unsigned restock test never wraps |
| Safety.NoWorkerBailsOut | benchmark/real_world/tpcc.cpp:161-174 | in every interleaving the abort branch of new-order and the early return of delivery are unreachable |
| Hits.EveryGetHits | benchmark/real_world/tpcc.cpp:98-559 | in every interleaving every get of WAREHOUSE, DISTRICT, CUSTOMER, ITEM, STOCK and ORDER on which the code relies hits, whatever the other workers are doing |
| OwnedMoney.IdleOwnerBalances | benchmark/real_world/tpcc.cpp:283-342 | in every interleaving, while a warehouse's owner is between transactions, clauses 3.3.2.1, 3.3.2.8 and 3.3.2.9 hold of the warehouse and its districts |
| OwnedMoney.HistoryInsertsAreFresh | benchmark/real_world/tpcc.cpp:324-342 | in every interleaving the history insert of a payment hits a fresh key |
| OwnedLatest.IdleOwnerLatest | benchmark/real_world/tpcc.cpp:132-143 | in every interleaving, while a warehouse's owner is between transactions, latest_order_id_per_customer is each of its customers' largest id above 3000, or 3000 |
| OwnedLines.LinesNeverChange | benchmark/real_world/tpcc.cpp:198-210 | in every interleaving an order line that is in the table stays there and nothing of it but its date ever changes, although deliveries write back rows they read earlier |
| OwnedLines.EveryLineIsPriced | benchmark/real_world/tpcc.cpp:204 | at every point of every interleaving ol_amount of a line of the run is its quantity times the loaded price of its item |
| OwnedFlags.IdleOwnerLocal | benchmark/real_world/tpcc.cpp:84-97 | in every interleaving, while a warehouse's owner is between transactions, o_all_local of each of its orders is set if and only if the warehouse supplies all the lines of the order |
| OwnedQueries.StatusScansNewest | benchmark/real_world/tpcc.cpp:493-505 | in every interleaving order-status scans from the newest order its customer has placed, or from 3000 if there is none |
| OwnedQueries.StockLevelScansRecent | benchmark/real_world/tpcc.cpp:527-542 | in every interleaving stock-level scans the lines of the district's last twenty ids and then later ones, 200 at most |
| Safety.OneWorkerPerWarehouse | benchmark/real_world/tpcc.cpp:619 | two workers never act for the same warehouse |
| Safety.IdleOwnerPending | benchmark/real_world/tpcc.cpp:131 | in every interleaving, while a warehouse's owner is between transactions, pending_new_order_per_dis is the largest order id of each of its districts |
| Safety.DeliveredAtMostOnce | benchmark/real_world/tpcc.cpp:353-383 | in every interleaving an order that has a carrier keeps its row for ever and is never again in NEW-ORDER |
| Safety.ScanFindsOwnLines | benchmark/real_world/tpcc.cpp:385-397 | in every interleaving, whenever a delivery is about to scan, the scan returns first exactly lines 1..min(10, o_ol_cnt) of its order, then only lines of later orders |
| Interleaving.BehaviourKeepsSys | benchmark/real_world/tpcc.cpp:612-677 | the invariant of tables and program points holds of every state of every interleaving |
| Interleaving.OwnStep | benchmark/real_world/tpcc.cpp:98-424 | one operation keeps the state of the worker's warehouse, its registers and the shared rows in step |
| Interleaving.StepKeepsOtherHomes | benchmark/real_world/tpcc.cpp:403-412 | an operation on behalf of one warehouse leaves the order rows, counters and cached ids of every other alone, even when delivery rewrites a neighbour's order lines |
| Interleaving.StockTakenInRange | benchmark/real_world/tpcc.cpp:182-196 | a stock write computed from any row read earlier keeps the table in range |
| Interleaving.TakenIsFresh | benchmark/real_world/tpcc.cpp:111-143 | the counter value a worker holds names no order and no order line until it inserts them |
| Interleaving.OrderHits | benchmark/real_world/tpcc.cpp:359-374 | a NEW-ORDER row that delivery found still has an undelivered ORDER row when delivery reads it and when it removes the NEW-ORDER row |
| Solo.SoloIsAtomic | benchmark/real_world/tpcc.cpp:620-675 | for any database, the single operations of a transaction performed without interruption end in exactly the atomic transaction's database |
| SingleWorker.SingleWorkerIsAtomic | benchmark/real_world/tpcc.cpp:612-677 | with one worker every state of every behaviour of single operations is the end of a run of atomic transactions or a number of operations into the next one |
| SingleWorker.SingleWorkerKeepsLaws | benchmark/real_world/tpcc.cpp:612-677 | with one worker all laws of atomic runs hold whenever the worker is between transactions |
| LostUpdates.ConservationExactly | benchmark/real_world/tpcc.cpp:176-421 | over all interleavings from a loaded database, the stock counters, the payment columns and the accounts with the delivery counts are conserved in all states with idle workers if and only if there is one worker |
| LostUpdates.StockIsLost | benchmark/real_world/tpcc.cpp:176-196 | with two workers or more, two orders of one item can both read its stock row before either writes it, and s_order_cnt stays short of the order lines |
| LostUpdates.PaymentsAreLost | benchmark/real_world/tpcc.cpp:310-342 | with two workers or more, two payments of a customer can leave two HISTORY rows and one payment in the customer row |
| LostUpdates.CreditsAreLost | benchmark/real_world/tpcc.cpp:310-421 | with two workers or more, a remote payment can overwrite what a delivery credited and counted |
| Runs.EveryRunKeepsLaws | benchmark/real_world/tpcc.cpp:612-677 | all laws hold of every database of every run of transactions from a loaded one |
| Transactions.AtomicEndsInRun | benchmark/real_world/tpcc.cpp:612-677 | the run as a sequence of databases ends where the function `Run`, which the class is proved against, ends |
| Runs.RunBalances | benchmark/real_world/tpcc.cpp:283-342 | clauses 3.3.2.1, 3.3.2.8, 3.3.2.9: W_YTD is the sum of D_YTD and of H_AMOUNT, D_YTD is its district's sum of H_AMOUNT, after every run |
| Runs.RunStock | benchmark/real_world/tpcc.cpp:176-211 | after every run s_ytd, s_order_cnt and s_remote_cnt are the total, the count and the remote count of the run's order lines for the row, and s_quantity is the loaded value minus s_ytd modulo 91, within [10,100] |
| Runs.RunLines | benchmark/real_world/tpcc.cpp:199-210 | after every run ol_amount of a line of the run is its quantity times the loaded price of its item, and o_all_local is set if and only if the order's warehouse supplies all its lines |
| Runs.RunCustomers | benchmark/real_world/tpcc.cpp:414-421 | after every run c_delivery_cnt counts the customer's delivered orders from id 2101 on, and c_balance + c_ytd_payment is the sum of ol_amount over the lines 1..10 of those orders, which is what the deliveries of the run have credited |
| Runs.RunPayments | benchmark/real_world/tpcc.cpp:310-342 | after every run c_ytd_payment is the sum and c_payment_cnt the number of the HISTORY rows that name the customer, and c_balance is the sum of ol_amount over the lines 1..10 of the customer's delivered orders minus that sum |
| Runs.DeliveredOnce | benchmark/real_world/tpcc.cpp:353-383 | over every run an order that has a carrier keeps its row for ever and is never again in NEW-ORDER, so it is delivered at most once |
| Runs.RunDeliveryScan | benchmark/real_world/tpcc.cpp:351-397 | the scan shape below, in every database a delivery passes through, district by district, after any run |
| Runs.RunDeliveryTotal | benchmark/real_world/tpcc.cpp:385-411 | in those databases ol_total is the sum of ol_amount over lines 1..10 of the order, and it is the sum over all its lines if and only if o_ol_cnt is at most 10 |
| Runs.RunDates | benchmark/real_world/tpcc.cpp:385-411 | after every run clause 3.3.2.7 holds of an order if and only if it is undelivered, was loaded as delivered, or has at most ten lines |
| Runs.FirstDeliveryBreaksNextId | benchmark/real_world/tpcc.cpp:352-377 | clause 3.3.2.2 holds of every loaded district, and the first delivery to it breaks the clause although there is no order of the run |
| Runs.LoadedKeepsLaws | benchmark/real_world/tpcc_loader.h:515-558 | the loaded database satisfies all the laws |
| Consistency.ExecuteKeepsConsistent | benchmark/real_world/tpcc.cpp:76-424 | every transaction runs to its end and keeps loaded keys, id ranges, clauses 3.3.2.5 and 3.3.2.6 and both side arrays consistent |
| Consistency.NewOrderCommits | benchmark/real_world/tpcc.cpp:111-211 | from a consistent database new-order never aborts, and the new state of every table, every line row with its item, supplier, quantity, null date and quantity times price; of STOCK the keys, the values being the next row |
| StockLaws.NewOrderMovesStock | benchmark/real_world/tpcc.cpp:176-196 | what a new order makes of every stock row: the quantities, the number and the remote number of its items that name the row are added, and the quantity in [10,100] moves by the ordered total modulo 91 |
| StockLaws.QuantityIsFixed | benchmark/real_world/tpcc.cpp:188-192 | in [10,100] that congruence leaves one quantity, so the new row is determined |
| LineLaws.ExecuteKeepsRows | benchmark/real_world/tpcc.cpp:81-97 | every transaction keeps line amounts equal to quantity times price, and o_all_local equivalent to all suppliers being the order's warehouse |
| Consistency.NewOrderIsFresh | benchmark/real_world/tpcc.cpp:122-143 | the id new-order takes is unused in ORDER, NEW-ORDER and ORDER-LINE |
| Consistency.AddLinesTouches | benchmark/real_world/tpcc.cpp:155-211 | the item loop commits when its items are loaded, writes only STOCK and ORDER-LINE and inserts exactly its lines |
| Consistency.AddLinesRows | benchmark/real_world/tpcc.cpp:199-210 | old lines keep their row; line j has the item, supplier and quantity of item j, no date, and the quantity times the item's price as its amount |
| Consistency.AbortUndoes | benchmark/real_world/tpcc.cpp:161-174 | on any database in which the id is unused, new-order commits if and only if all its items are loaded, and the abort restores DISTRICT, ORDER and NEW-ORDER while both side arrays keep naming the order |
| Consistency.DeliverDistrictKeepsConsistent | benchmark/real_world/tpcc.cpp:351-423 | delivering in a district never bails out and keeps the database consistent |
| Consistency.DeliverOrderEffect | benchmark/real_world/tpcc.cpp:376-421 | what a delivery changes: the NEW-ORDER row, the carrier, the customer, and only dates of existing order lines |
| StockLaws.ExecuteKeepsStock | benchmark/real_world/tpcc.cpp:155-211 | every transaction keeps the stock counters equal to the sums over order lines, and the quantity congruence |
| StockLaws.RestockStaysInRange | benchmark/real_world/tpcc.cpp:188-192 | the restock rule in uint32 arithmetic maps [10,100] into [10,100] and moves the quantity by -ordered or 91 - ordered |
| StockLaws.RestockTestDoesNotWrap | benchmark/real_world/tpcc.cpp:188 | the unsigned subtraction of the test is exact on valid rows |
| MoneyLaws.ExecuteKeepsMoney | benchmark/real_world/tpcc.cpp:283-342 | every transaction keeps the year-to-date and history sums, and all history stamps below the owner's clock |
| MoneyLaws.PaymentKeyIsFresh | benchmark/real_world/tpcc.cpp:324-342 | a payment's history key is unused, so no history row is overwritten |
| MoneyLaws.WarehouseBalances | benchmark/real_world/tpcc.cpp:288-301 | W_YTD equals both the districts' sum and the warehouse's history sum |
| CustomerLaws.ExecuteKeepsCounts | benchmark/real_world/tpcc.cpp:380-421 | every transaction keeps c_delivery_cnt equal to the number of the customer's delivered orders from id 2101 on |
| CustomerLaws.ExecuteCredits | benchmark/real_world/tpcc.cpp:310-321 | a transaction moves c_balance + c_ytd_payment by exactly what its deliveries credit to the customer |
| AccountLaws.CreditIsTenLines | benchmark/real_world/tpcc.cpp:414-421 | what the delivery to a district credits is the sum of ol_amount over lines 1..10 of the order it takes, and only to that order's customer |
| AccountLaws.ExecuteKeepsAccounts | benchmark/real_world/tpcc.cpp:385-421 | every transaction keeps c_balance + c_ytd_payment equal to the sum of ol_amount over the lines 1..10 of the customer's delivered orders |
| CustomerLaws.DeliveredIsOpen | benchmark/real_world/tpcc.cpp:353-381 | the order a delivery takes exists, is the district's largest id and carries no carrier |
| Deliveries.ExecuteKeepsDelivered | benchmark/real_world/tpcc.cpp:376-383 | no transaction touches an order that has a carrier, nor puts it back into NEW-ORDER |
| Deliveries.TurnScanShape | benchmark/real_world/tpcc.cpp:385-397 | the scan shape in the database in which a delivery turns to a district, the districts before having been delivered |
| Deliveries.LoopTurns | benchmark/real_world/tpcc.cpp:351-423 | those databases are the ones the district loop passes through |
| Deliveries.DeliveryDelivers | benchmark/real_world/tpcc.cpp:351-383 | a delivery delivers the newest order of every district in which that order is undelivered, with the carrier drawn |
| PaymentLaws.ExecuteKeepsPayments | benchmark/real_world/tpcc.cpp:310-342 | every transaction keeps the payment columns of the customers equal to the sum and the number of their HISTORY rows |
| PaymentLaws.PaymentMovesAmount | benchmark/real_world/tpcc.cpp:283-342 | what a payment makes of every table: the amount goes to warehouse and district, from balance to payments of the customer named, and into one fresh history row |
| DeliveryScans.DeliveryScanShape | benchmark/real_world/tpcc.cpp:385-397 | delivery's scan returns first exactly lines 1..min(10, o_ol_cnt) of the order in number order; if these are fewer than ten and there is a next district, the rest of the ten rows are the first lines of order 1 of that district, and otherwise there is no further row |
| DeliveryTotals.DeliveryTotal | benchmark/real_world/tpcc.cpp:385-411 | ol_total is the sum of ol_amount over lines 1..10 of the order: further rows contribute nothing |
| DeliveryTotals.WholeTotalExactly | benchmark/real_world/tpcc.cpp:385-411 | ol_total is the sum over all lines of the order if and only if the order has at most ten |
| DeliveryTotals.DatesClauseExactly | benchmark/real_world/tpcc.cpp:385-411 | the exact condition of clause 3.3.2.7 for an order |
| DeliveryTotals.ExecuteKeepsLines | benchmark/real_world/tpcc.cpp:385-411 | every transaction keeps the date of every line null or not as its order, its number and the loading demand, amounts 0 below id 2101 and positive from there on, and clocks positive |
| DeliveryScans.ScanFromOrder | src/kv/masstree.h:197-213 | a scan from line number 0 of any existing order returns its lines 1..min(n, o_ol_cnt) in number order and then only lines of later orders |
| DeliveryScans.OrderStatusReadsOwnOrder | benchmark/real_world/tpcc.cpp:493-509 | order-status reads an order of its customer if and only if the customer ordered in the run or owns loaded order 3000 |
| DeliveryScans.OrderStatusReadsNewest | benchmark/real_world/tpcc.cpp:493-505 | the order read is one its customer placed in the run and none of the customer's is newer, or it is 3000 and the customer placed none |
| DeliveryScans.StockLevelReadsRecent | benchmark/real_world/tpcc.cpp:527-542 | the rows scanned are the first min(200, available) of the lines of the district's ids from next - 20 on and of later districts, ascending; none of an earlier id is among them, and one that is missing has 200 before it |
| DeliveryScans.StockLevelHits | benchmark/real_world/tpcc.cpp:521-559 | every district and stock get of stock-level hits |
| Clauses.OrderLineCount | benchmark/real_world/tpcc.cpp:136-143 | clause 3.3.2.6: O_OL_CNT is the number of the order's ORDER-LINE rows |
| Clauses.DistrictLineTotal | benchmark/real_world/tpcc.cpp:155-211 | clause 3.3.2.4: per district the sum of O_OL_CNT is the number of ORDER-LINE rows |
| Clauses.PendingIsMaximum | benchmark/real_world/tpcc.cpp:131 | pending_new_order_per_dis is the district's largest order id |
| Clauses.LatestIsMaximum | benchmark/real_world/tpcc.cpp:132-133 | latest_order_id_per_customer is the customer's largest id above 3000, or 3000 |
| Clauses.NextIdClause | benchmark/real_world/tpcc.cpp:111-131 | the whole of clause 3.3.2.2 (D_NEXT_O_ID - 1 = max(O_ID) = max(NO_O_ID)) holds of a district if and only if D_NEXT_O_ID is as loaded and order 3000 is still in NEW-ORDER |
| Clauses.DeliveryBreaksNextId | benchmark/real_world/tpcc.cpp:352-377 | from any database that satisfies the clause, a delivery in the district breaks it |
| Clauses.ExecuteKeepsBacklog | benchmark/real_world/tpcc.cpp:352-361 | loaded orders 2101..2999 are never delivered |
| Clauses.NoGapsClause | benchmark/real_world/tpcc.cpp:352-377 | clause 3.3.2.3 holds of a district if and only if no order of the run is undelivered |
| Counterexamples.OrderThenDelivery | benchmark/real_world/tpcc.cpp:385-411 | after any run, a new order followed by a delivery: the total is that of its lines, and clause 3.3.2.7 holds of it, if and only if it has at most ten lines |
| Counterexamples.ElevenLinesBreakBoth | benchmark/real_world/tpcc.cpp:385-411 | from any loaded database, district and carrier, a drawn order of eleven lines and a delivery falsify both |
| Counterexamples.FirstOrderBreaksNoGaps | benchmark/real_world/tpcc.cpp:111-131 | clause 3.3.2.3 holds of every loaded district, and any first new order to it breaks the clause |
| Counterexamples.StatusShowsAnothersOrder | benchmark/real_world/tpcc.cpp:493-509 | after loading, order-status shows every customer of a district its order 3000, and some customer therefore another's order |
| Loader.PrepareKvs | benchmark/real_world/tpcc_loader.h:515-558 | the loading loops leave exactly the tables of `Loaded`, for any customer permutation that is drawn |
| Loader.LoadHistory | benchmark/real_world/tpcc_loader.h:194-218 | one history row of ten currency units per customer, stamped 1..3000 per district |
| Loader.LoadStock | benchmark/real_world/tpcc_loader.h:242-255 | one stock row per warehouse and item, quantity in [10,100], counters 0 |
| Loader.LoadCustomer | benchmark/real_world/tpcc_loader.h:96-181 | every customer starts with balance -10.00, year-to-date payment 10.00, one payment and no delivery |
| Loader.OrderLoader.LoadOrder | benchmark/real_world/tpcc_loader.h:289-359 | orders 1..3000 per district, the last 900 undelivered, order o that of customer shuffled[o - 1]; entry dates number the orders as they are loaded and a line loaded as delivered has the date of its order; the order lines and new-order rows are kept for the two later tables |
| Loader.OneLoadedOrderEach | benchmark/real_world/tpcc_loader.h:306-317 | every customer owns exactly one loaded order, under the same number in every district |
| Loader.OrderLoader.LoadOnlineOrder | benchmark/real_world/tpcc_loader.h:373-383 | the kept order lines are handed over and the temporary map is cleared |
| Loader.InitialCachesOf | benchmark/real_world/tpcc.cpp:706-716 | both side arrays start at 3000 everywhere, the clocks at 3001 |
| Benchmark.Tpcc.NewOrder | benchmark/real_world/tpcc.cpp:76-217 | the in-place transaction leaves the database and outcome of its function; from a consistent database it commits and every get hits |
| Benchmark.Tpcc.Payment | benchmark/real_world/tpcc.cpp:219-344 | the same for payment |
| Benchmark.Tpcc.Delivery | benchmark/real_world/tpcc.cpp:346-424 | the same for delivery |
| Benchmark.Tpcc.OrderStatus | benchmark/real_world/tpcc.cpp:426-514 | changes nothing and returns at most ten stored rows; from a consistent database lines 1..min(10, o_ol_cnt) of the newest order of the customer, in number order, and then only lines of later orders |
| Benchmark.Tpcc.StockLevel | benchmark/real_world/tpcc.cpp:516-560 | from a consistent database the number of the lines scanned, the first 200 from the last twenty ids on, whose stock row is below the threshold; all gets hit |
| Benchmark.Tpcc.RunAll | benchmark/real_world/tpcc.cpp:612-677 | a sequence of transactions, each by its warehouse's owner, leaves the database of `Run`; from a consistent database every get of the whole run hits |
| Partition.OwnerIsUnique | benchmark/real_world/tpcc.cpp:737-750 | the ranges are disjoint and cover 1..warehouse_num |
| Partition.AssignWarehouses | benchmark/real_world/tpcc.cpp:737-750 | the loop with prev_end_i and trailing_warehouse computes those ranges: contiguous from 1 to warehouse_num, each of the quotient's size, the first remainder-many one larger |
| Partition.RangesAreNonEmpty | benchmark/real_world/tpcc.cpp:619 | with at most as many workers as warehouses, every worker has a warehouse to draw |
| KeyCodec.StrKeyOrderIsFieldOrder | benchmark/real_world/tpcc.h:1012-1023 | for any field widths, memcmp order of the byte-reversed packed record is tuple order from the last declared field to the first |
| KeyCodec.ReversedOrderIsNumeric | benchmark/synthetic/micro_base.h:265-280 | memcmp order of reversed bytes is the numeric order of the little-endian word |
| KeyCodec.WordOrderIsFieldOrder | benchmark/real_world/tpcc.h:1025-1027 | the integer comparison of the raw struct is tuple order as well |
| KeyCodec.KeyRoundTrip | benchmark/real_world/tpcc.h:1023 | to_normal_key undoes to_str_key: every field comes back |
| KeyCodec.ReverseTwice | benchmark/real_world/tpcc.h:749-759 | byte reversal is an involution |
| KeyCodec.ToStrKey | benchmark/real_world/tpcc.h:749-758 | the byte loop computes the reversal |
| KeyCodec.Smaller | benchmark/real_world/tpcc.h:761-769 | the comparison loop decides lexicographic order |
| KeyCodec.ModelOrderIsFieldOrder | benchmark/real_world/tpcc.h:761-769 | lexicographic order of the field values, most significant first, is tuple order |
| Scans.OlOrdersAgree | benchmark/real_world/tpcc.h:1012-1027 | OL_key's uint64 comparison, the order of the index and (w, d, o, number) order agree |
| Scans.OlWord | benchmark/real_world/tpcc.h:976-1027 | the packed OL_key is eight bytes and the uint64 they make is number, order, district, warehouse at bits 0, 8, 40 and 48 |
| Scans.HistoryOrdersAgree | benchmark/real_world/tpcc.h:749-773 | H_key::smaller agrees with the order of the index |
| Scans.HWord | benchmark/real_world/tpcc.h:706-712 | the packed H_key is twelve bytes, its fields at byte 0, 2, 3, 5, 9 and 10 |
| Scans.SmallestIsOrdered | src/kv/masstree.h:197-213 | a scan returns min(n, available) rows, ascending, and skips only larger keys |
| Scans.ScanIsNextRows | src/kv/masstree.h:197-213 | scan(k, n) returns the first min(n, available) rows whose key is k or greater, ascending and as stored |
| Lcg.WrappingStepIsExact | benchmark/real_world/tpcc.h:1361-1364 | the step in wrapping 64-bit arithmetic is the exact recurrence modulo 2^48 |
| Lcg.FullPeriod | benchmark/real_world/tpcc.h:1357-1364 | for every modulus 2^e, multiplier 1 mod 4 and odd increment: back after 2^e steps and never earlier, from every state |
| Lcg.SeedPeriod | benchmark/real_world/tpcc.h:1361-1364 | the generator's period is exactly 2^48 from every seed |
| Lcg.StepIsBijection | benchmark/real_world/tpcc.h:1361-1364 | the step has a two-sided inverse |
| Lcg.FastRandom.Next | benchmark/real_world/tpcc.h:1361-1364 | the method leaves (0x5DEECE66D * seed + 0xB) mod 2^48 and returns the quotient of it by 2^(48 - bits) |
| Lcg.FastRandom.NextUniform | benchmark/real_world/tpcc.h:1328-1330 | two steps; the numerator over 2^53 is below 2^53, its high 26 bits are the top bits of the first new state and its low 27 those of the second |
| Draws.RandomNumberExactly | benchmark/real_world/tpcc.h:1405-1409 | with truncation toward zero, every draw lies in [min,max] if and only if max is not negative |
| Draws.RandomNumberCovers | benchmark/real_world/tpcc.h:1405-1409 | every value of the range is drawn by some k/2^53 |
| Draws.NonUniformRandomExactly | benchmark/real_world/tpcc.h:1411-1416 | for all min <= max, NURand with its bitwise OR stays in [min,max] for all draws if and only if min + C is not negative or min = max |
| Draws.NonUniformRandomBits | benchmark/real_world/tpcc.h:1411-1416 | on a non-negative interval the result is (x + C) mod (max - min + 1) + min for the one x whose bits are exactly those set in one of the two uniform draws |
| Draws.RandomNumberIsFloor | benchmark/real_world/tpcc.h:1405-1409 | on a non-negative interval a uniform draw is min plus the floor of the fraction times the size of the interval |
| Draws.CustomerIdBits | benchmark/real_world/tpcc.h:1471-1473 | the customer id is (x + 259) mod 3000 + 1 with x the bits of a draw from 0..1023 and one from 1..3000 |
| Draws.ItemIdBits | benchmark/real_world/tpcc.h:1475-1478 | the item id is (x + 7911) mod 100000 + 1 with x the bits of a draw from 0..8191 and one from 1..100000, or one uniform draw |
| Draws.EverySeedDrawsLoadedIds | benchmark/real_world/tpcc.h:1328-1330 | on the numerators the 48-bit generator delivers from any states, the customer and item ids drawn are loaded ones |
| Draws.GeneratedIdsAreLoaded | benchmark/real_world/tpcc.h:1471-1478 | every customer and item id drawn is a loaded one |
| RwMix.WindowIsLive | benchmark/synthetic/rw_mix.cpp:89-128 | in every interleaving of the workers, of a worker's keys exactly the circular half-length window from delete_i is live, one key longer between insert and remove, and insert_i is half the array ahead |
| RwMix.TableSizeIsStable | benchmark/synthetic/rw_mix.cpp:114-128 | in every interleaving the table holds between table_size and table_size + fg_n keys |
| RwMix.OperationsHit | benchmark/synthetic/rw_mix.cpp:94-113 | in every interleaving in-place updates hit live keys, and gets do as long as no range scan is drawn |
| RwMix.CursorsCount | benchmark/synthetic/rw_mix.cpp:89-128 | in every interleaving the cursors count the operations drawn: updates and, without range scans, gets go round half the array, swaps and, without gets, range scans round all of it |
| RwMix.ScansInBoundsExactly | benchmark/synthetic/rw_mix.cpp:240-247 | over every run on a set of operations each range scan starts inside query_keys if and only if the set lacks gets or lacks range scans |
| RwMix.ReadHitsExactly | benchmark/synthetic/rw_mix.cpp:94-103 | a get hits if and only if query_i modulo the array length is inside the half-length window |
| RwMix.RangeScanBreaksReads | benchmark/synthetic/rw_mix.cpp:240-247 | on every input, half the array in range scans makes the next get miss |
| RwMix.SpareKeysStayLoaded | benchmark/synthetic/rw_mix.cpp:51-68 | keys that belong to no worker stay as loaded |
| RwMix.Runner.RunFg | benchmark/synthetic/rw_mix.cpp:89-128 | the loop on its cursors and table makes the turns of the model up to the first range scan that would start past the array, keeps the table size, never misses without range scans, and makes all turns without gets or without range scans |
| HotCold.SkewTargets | benchmark/synthetic/micro_common.h:620-674 | every target row is filled as drawn: hot keys from inside the clamped slice's key interval and cold keys from outside |
| HotCold.SkewInPlace | benchmark/synthetic/micro_common.h:677-726 | the same for the version that overwrites the keys; it counts exactly the draws below the ratio as hot |
| HotCold.HotIsInside | benchmark/synthetic/micro_common.h:694-707 | for distinct sorted keys, indices below real_range hold exactly the keys between the slice's ends |
| HotCold.RearrangedIsPermutation | benchmark/synthetic/micro_common.h:694-699 | the three copies permute the keys |
| HotCold.Rearrange | benchmark/synthetic/micro_common.h:641-646 | the three copies put the slice first |
| HotCold.ClampedSliceFits | benchmark/synthetic/micro_common.h:628-639 | with real_range at most the size, every clamped slice is in bounds, one that was is not moved, and any other ends at the last key |
| SpacedKeys.KeysInterleave | benchmark/synthetic/micro_common.h:458-470 | for every table size with a step of at least 1, existing and spare keys are 64-bit numbers, strictly increasing, disjoint and strictly interleaved |
| SpacedKeys.PrepareData | benchmark/synthetic/micro_common.h:458-470 | the wrapping loops compute the multiples without a wrap in any stored key |
| SpacedKeys.StepFits | benchmark/synthetic/micro_common.h:460 | the step is at least 1, no multiple up to twice the size overflows, and with any larger step twice the size of it would |
| ReadLatest.OpKeysAreConsecutive | benchmark/synthetic/read_latest.cpp:50-68 | every worker's keys are consecutive integers, from 1 + 2 * k_n_per_seg * thread_id on |
| ReadLatest.OpKeysPartition | benchmark/synthetic/read_latest.cpp:338-363 | the workers' keys partition 1..2 * k_n_per_seg * fg_n |
| ReadLatest.DealKeys | benchmark/synthetic/read_latest.cpp:356-363 | main's loops deal the segments |
| ReadLatest.EveryReadIsServed | benchmark/synthetic/read_latest.cpp:71-91 | with offsets of at least 1, every read of a generated list names a key loaded at the start or inserted earlier in the list |
| ReadLatest.EveryReadHits | benchmark/synthetic/read_latest.cpp:71-91 | without removals, every read executed in its place finds its key, whatever other keys the table holds |
| ReadLatest.ReadHitsExactly | benchmark/synthetic/read_latest.cpp:71-91 | removals included, a read executed in its place finds its key if and only if its offset is at least 1 and insert_i - offset is at least delete_i |
| ReadLatest.RemovedReadMisses | benchmark/synthetic/read_latest.cpp:84-91 | two removals and a read of the second loaded key: the read misses |
| ReadLatest.ReadIsServedExactly | benchmark/synthetic/read_latest.cpp:77-80 | the next read names an available key if and only if its offset is at least 1 |
| ReadLatest.Generate | benchmark/synthetic/read_latest.cpp:71-91 | the generating loop, its assertions included, computes the list the lemmas are about |
| ReadLatest.FailsExactly | benchmark/synthetic/read_latest.cpp:76-90 | an assertion of the generating loop fails if and only if, before the list is complete, an offset exceeds the keys inserted so far or a removal catches up with them |

## Left out

- The internals of Masstree, ART and SIDLE (migration, cooling, RCU epochs, the CXL allocator), and the ART backend of TPC-C.
- A scan is one atomic operation here; Masstree's may see inserts of other threads between rows.
- IEEE rounding: amounts are integer cents, uniform draws are k/2^53 with an exact floor, `real_range` and `real_start` are given; discount and tax rates only feed an unused total and are not modelled.
- uint32 exhaustion of order ids and of the thread clocks: both are unbounded naturals in the tables. The codec lemmas take the field widths as they are.
- `num_district_per_warehouse` is 10, and there are at most as many workers as warehouses; with more, the code would draw from an empty range.
- A get that misses leaves the C++ row buffer unspecified; the model then reads a default row, and proves that no get the code relies on misses.
- Draws are arguments: the supplier and customer-warehouse loops that redraw, which branch of `run_worker` is taken, shuffles, `std::sort`, and the Zipfian generator.
- Text columns, the customer credit data, and the history text.
- The `ORIGIN_TPCC` paths and the last-name lookups, which are disabled or exit.
- Rollback of the side arrays on new-order abort: the branch undoes only the counter, NEW-ORDER and ORDER (`AbortUndoes`); it is proved unreachable from a loaded database.
- What the stock counters and customer columns hold when updates of several workers have raced, beyond the stock range.
- `rw_mix`: values stored under the keys; the workload after a hot-range or Zipfian rearrangement, whose keys repeat; the rows a range scan returns (its start key is modelled).
- The random-key, ordered-key and file branches of `prepare_data`, and the ART branch of `read_latest`'s segmentation.
- Thread creation and pinning, timing, latency statistics, argument and trace parsing.
