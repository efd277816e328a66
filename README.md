# Warehouse backend: stock ledger and fulfilment workflows, in Dafny

This project models the core of a multi-tenant warehouse management backend.
It covers the stock ledger (`ProductStock` rows keyed by product, warehouse,
location and batch number, each holding a `quantity` and a `reserved` count)
and every service that writes to it:

- manual inventory adjustments;
- cycle-count reconciliation;
- location-to-location movements;
- the batch-to-stock sync;
- bulk product import;
- goods-receipt crediting;
- replenishment transfers;
- the shipment deduction.

It also models the order-fulfilment pipeline around the ledger:

- sales order, then pick list, then packing task, then shipment;
- on the supply side, purchase orders and reorder-point settings;
- the return (RMA) lifecycle.

The persistence layer becomes one in-memory store, the class `Store.Db`. It
holds every table as a field:

- A table the services search with `findOne` on non-key columns is a `seq` in
  insertion order. These are the stock ledger, warehouses, order items, pick
  lists, receipts, replenishment settings, movements and adjustments. "The row
  `findOne` returns" is the first match in table order (`Ledger.FirstMatch`).
- A table addressed by primary key is a `map<int, Row>`.
- `nextId` hands out fresh ids. `Db.Valid()` says that every stored id lies
  below it.

Each service operation is a method on the store with a field-granular
`modifies` frame. Its contract has two parts:

- On every error path, the guard function of the operation (`CheckX`) names
  the error, and the tables are unchanged.
- On success, the new table contents equal a function of the old ones.

Lemmas then prove what the services promise about those functions:

- totals per product move by exactly the quantity credited or deducted;
- a transfer conserves stock;
- a receipt re-sent unchanged credits nothing;
- a shipment deducts stock once on its way out;
- the RMA lifecycle only moves forward;
- numbering yields fresh numbers;
- a partial update changes only the fields supplied.

Callers, roles and tenants are explicit values (`Common.Caller`). Clock
readings (the order-number stamp, the batch-number default, the year in RMA
numbers) and generated references are parameters. Money is integer minor
units.

## Model

| member | source | states |
|---|---|---|
| Ledger.FirstMatch | services/inventoryService.js:570-576 | the index found matches the query and no earlier row does; none is found exactly when no row matches |
| Ledger.FindFirst | services/inventoryService.js:570-576 | the table scan returns the same row as the `findOne` specification |
| Ledger.TotalUpdate | models/ProductStock.js:6-13 | replacing one row changes each product's total by that row's difference only |
| Ledger.TotalAppend | models/ProductStock.js:6-13 | creating a row adds exactly that row to its product's total |
| Ledger.AddAtTotals | services/inventoryService.js:1024-1059 | an increment of one record moves its product's on-hand total by the increment; reserved totals stay |
| Ledger.FirstMatchAddAt | services/inventoryService.js:1024-1059 | changing a quantity never changes which record a later lookup finds |
| Ledger.FirstMatchAppend | services/inventoryService.js:1024-1059 | a created record is the one a later lookup finds when none matched before |
| Ledger.AddAtHeldAt | services/inventoryService.js:1024-1059 | incrementing the record a query finds moves the quantity held there by the same amount |
| Ledger.CreditTotals | services/inventoryService.js:874-895 | find-or-create crediting raises the product's on-hand total by the amount and leaves reserved totals |
| Ledger.CreditKeepsSound | services/inventoryService.js:874-895 | crediting a non-negative amount keeps every record at 0 <= reserved <= quantity |
| Ledger.CreditHeldAt | services/inventoryService.js:874-895 | after find-or-create, the quantity held under the key rose by the amount |
| Numbering.DigitChar | services/goodsReceiptService.js:77 | the character printed for a digit is a digit and reads back as it |
| Numbering.Decimal | services/goodsReceiptService.js:77 | `String(n)` is non-empty and all digits |
| Numbering.DecimalValue | services/goodsReceiptService.js:75-77 | `parseInt(String(n))` is n |
| Numbering.ZerosShape | services/goodsReceiptService.js:77 | the padding is k zeros and reads as 0 |
| Numbering.LeadingZerosValue | services/goodsReceiptService.js:75-77 | leading zeros do not change the value `parseInt` reads |
| Numbering.PaddedValue | services/goodsReceiptService.js:77 | `padStart(width, '0')` yields all digits, at least width long, reading back as n |
| Numbering.NumberedRoundTrip | services/goodsReceiptService.js:75-77 | a printed prefix-plus-counter number parses back to the counter |
| Numbering.NumberedInjective | services/replenishmentTaskService.js:40 | distinct counters print as distinct numbers |
| Numbering.MaxNumber | services/goodsReceiptService.js:75-76 | the maximum is attained by some matching number and bounds every matching number; none exactly when nothing matches |
| Numbering.NextNumber | services/goodsReceiptService.js:76 | the next counter is 1 or one above an existing counter, and exceeds every existing counter |
| Numbering.NextNumberIsFresh | services/goodsReceiptService.js:74-77 | the next number differs from every existing string |
| Adjustments.CheckAdjustment | services/inventoryService.js:548-560 | admitted exactly when role, company context, product and tenant checks pass and the quantity is non-zero; the admitted quantity is abs(quantity) >= 1 |
| Adjustments.IncreaseAddsQuantity | services/inventoryService.js:592-608 | an INCREASE is never refused; when applied, the product's on-hand total rises by qty and nothing else changes |
| Adjustments.DecreaseRemovesQuantity | services/inventoryService.js:577-594 | a DECREASE is refused exactly when no record is found or available < qty; otherwise the total falls by qty and the ledger stays sound |
| Adjustments.IncreaseKeepsSound | services/inventoryService.js:592-608 | an applied INCREASE keeps 0 <= reserved <= quantity on every record |
| Adjustments.AsWrittenIncreaseIsLost | services/inventoryService.js:592-608 | counterexample: an INCREASE into a named warehouse with no record completes and credits nothing |
| Adjustments.CreateAdjustment | services/inventoryService.js:547-624 | corrected: an INCREASE into a named warehouse without a record creates that record, where the source credits nothing; failed checks and refusals write nothing, an applied adjustment sets the ledger to the effect and logs a COMPLETED row, a stranded one keeps its PENDING row; as written: Adjustments.AsWrittenIncreaseIsLost |
| Batches.CheckBatch | services/inventoryService.js:841-858 | admitted exactly when role, company, product tenant and warehouse are present; the batch copies the request, with the stamp as default batch number |
| Batches.SyncBatchCredits | services/inventoryService.js:874-896 | a non-positive batch leaves the ledger; a positive one raises the quantity at its (product, warehouse, location, batch) key and the product total by its quantity |
| Batches.SyncBatchKeepsSound | services/inventoryService.js:874-896 | the sync keeps every record sound |
| Batches.CreateBatch | services/inventoryService.js:840-899 | on a failed check nothing is written; otherwise the batch is stored under a fresh id and the ledger is synced |
| CycleCounts.CountStepSetsQuantity | services/inventoryService.js:738-788 | after one line, the quantity held at the counted key is the counted value (0 when absent and counted negative) |
| CycleCounts.CountStepLogsDifference | services/inventoryService.js:756-788 | a discrepancy and one adjustment are logged exactly when counted differs from system; INCREASE iff counted > system, by abs(diff) |
| CycleCounts.CountStepMovesTotal | services/inventoryService.js:756-788 | the product's on-hand total moves by exactly the change at the counted key |
| CycleCounts.ReconcileCountsDiscrepancies | services/inventoryService.js:706-789 | the loop only appends adjustments, at most one per line, and the discrepancy count grows by exactly the number appended |
| CycleCounts.CheckCompletion | services/inventoryService.js:687-697 | admitted exactly for an allowed role, an existing count not yet COMPLETED, in the caller's company |
| CycleCounts.ReconcileLine | services/inventoryService.js:738-788 | one loop iteration on the store equals the line step on ledger, adjustments and counter |
| CycleCounts.ReconcileAll | services/inventoryService.js:706-789 | the loop on the store equals the reconciliation of all lines |
| CycleCounts.CompleteCycleCount | services/inventoryService.js:686-810 | rejected counts change nothing; a count without location makes no stock change and completes with itemsCount = lines; otherwise stock and adjustments are the reconciliation and the count is COMPLETED with its discrepancies |
| Movements.CheckMovement | services/inventoryService.js:973-982 | admitted exactly for an allowed role with a company context, a product of that company (any for a super admin) and quantity > 0; the result is that company |
| Movements.AddStockGives | services/inventoryService.js:1024-1059 | addStock fails exactly for a missing location; otherwise the key's quantity and the product total rise by q |
| Movements.RemoveStockTakes | services/inventoryService.js:1062-1080 | removeStock fails exactly when there is no location, no record or quantity < q; otherwise the key's quantity and the product total fall by q |
| Movements.MoveStockTotals | services/inventoryService.js:1082-1091 | TRANSFER keeps the product total, RECEIVE and RETURN add q, PICK removes q |
| Movements.MoveStockKeepsNonNegative | services/inventoryService.js:1062-1091 | a movement of a positive quantity never drives a record negative |
| Movements.AddKeepsNonNegative | services/inventoryService.js:1024-1059 | adding a positive quantity keeps quantities non-negative |
| Movements.RemoveKeepsNonNegative | services/inventoryService.js:1062-1080 | removing only what the record holds keeps quantities non-negative |
| Movements.AddStockAt | services/inventoryService.js:1024-1059 | the store's ledger becomes the addStock result, or stays on error |
| Movements.RemoveStockAt | services/inventoryService.js:1062-1080 | the store's ledger becomes the removeStock result, or stays on error |
| Movements.ApplyMove | services/inventoryService.js:1082-1091 | the type dispatch on the store yields the movement's ledger, or its error |
| Movements.CreateMovement | services/inventoryService.js:972-1100 | failed checks and failed stock steps roll back both tables; success sets the ledger and logs exactly one movement row |
| ProductImport.CheckImport | services/inventoryService.js:147-154 | admitted exactly for an allowed role with a company and a non-empty row list |
| ProductImport.ImportedIsFresh | services/inventoryService.js:159-207 | created products carry new SKUs, pairwise distinct, in the company; every usable row's SKU ends up existing or created |
| ProductImport.CreatedPlusSkipped | services/inventoryService.js:156-211 | created + skipped = rows submitted |
| ProductImport.CompanySkusInsert | services/inventoryService.js:170-207 | storing a product adds its SKU to the company's SKUs |
| ProductImport.ImportStep | services/inventoryService.js:159-207 | row i is created exactly when usable and its SKU is new, otherwise recorded as skipped by row number |
| ProductImport.ImportRowInto | services/inventoryService.js:159-207 | a row is stored under a fresh id exactly when usable with a new SKU; otherwise nothing changes |
| ProductImport.ImportNext | services/inventoryService.js:159-207 | one round keeps the loop invariant: the rows so far are stored or skipped exactly as the import specification says |
| ProductImport.ImportAll | services/inventoryService.js:156-211 | the loop stores exactly the imported products under consecutive ids and reports the skipped rows |
| ProductImport.BulkCreateProducts | services/inventoryService.js:146-214 | failed checks write nothing; otherwise products grow by the imported ones and the summary counts created and skipped rows |
| GoodsReceipts.CompanyNumbers | services/goodsReceiptService.js:74 | exactly the numbers of the company's receipts |
| GoodsReceipts.NextGrNumberIsFresh | services/goodsReceiptService.js:74-77 | the new GRN number is carried by no receipt of the company |
| GoodsReceipts.SnapshotCopiesItems | services/goodsReceiptService.js:79-99 | one line per PO item with its product and expected quantity, received 0; totalExpected is the items' sum, totalReceived 0 |
| GoodsReceipts.CheckCreate | services/goodsReceiptService.js:64-71 | admitted exactly when a company context exists and the PO is the company's and approved |
| GoodsReceipts.CreateReceipt | services/goodsReceiptService.js:63-103 | rejected creates write nothing; otherwise one pending receipt with the next GRN number and the snapshot lines is appended |
| GoodsReceipts.LineFor | services/goodsReceiptService.js:119 | the line found matches the row's product or line id; none only when no line does |
| GoodsReceipts.ApplyRows | services/goodsReceiptService.js:117-124 | the rows change received quantities and quality only, line by line |
| GoodsReceipts.Receive | services/goodsReceiptService.js:117-131 | status is completed iff every line is fully received, else in_progress; totalReceived is the received sum; nothing else changes |
| GoodsReceipts.CreditLinesTotals | services/goodsReceiptService.js:142-173 | crediting raises each product total by the credited deltas only and keeps the ledger sound |
| GoodsReceipts.NothingNewCreditsNothing | services/goodsReceiptService.js:145-151 | lines at or below their bases credit nothing and report no update |
| GoodsReceipts.Baseline | services/goodsReceiptService.js:112-115 | each line's base is what that same line had received before |
| GoodsReceipts.ResendCreditsNothing | services/goodsReceiptService.js:145-151 | re-sending quantities that do not grow leaves the ledger unchanged |
| GoodsReceipts.ReceiptCreditTotals | services/goodsReceiptService.js:142-173 | the product total rises by exactly the positive, non-damaged per-line deltas |
| GoodsReceipts.BaselineAsWritten | services/goodsReceiptService.js:112-146 | the as-written bases, keyed by product, one per line after the update |
| GoodsReceipts.AsWrittenCreditsUnchangedReceipt | services/goodsReceiptService.js:112-146 | counterexample: two lines of one product, re-sent unchanged, credit 10 units as written and none when corrected |
| GoodsReceipts.FindReceipt | services/goodsReceiptService.js:106 | the index found carries the id; none only when no receipt does |
| GoodsReceipts.CheckReceive | services/goodsReceiptService.js:106-109 | admitted exactly for an existing receipt in the caller's company that is not completed |
| GoodsReceipts.UpdateLines | services/goodsReceiptService.js:117-124 | the row loop yields the specified line updates |
| GoodsReceipts.CreditReceivedLines | services/goodsReceiptService.js:142-173 | the crediting loop on the store yields the specified ledger and reports whether anything was credited |
| GoodsReceipts.UpdateReceived | services/goodsReceiptService.js:105-178 | corrected: each line's delta is taken against that line's own previous quantity, where the source keys the base by product; rejected updates change nothing, otherwise the receipt is re-totalled and the ledger gets those deltas, and the warning is raised exactly when there is no warehouse and something was received; as written: GoodsReceipts.AsWrittenCreditsUnchangedReceipt |
| GoodsReceipts.Normalize | services/goodsReceiptService.js:25-43 | one displayed receipt per stored receipt, in place |
| GoodsReceipts.RankStrict | services/goodsReceiptService.js:36-41 | a legacy receipt that precedes another of the company gets a strictly smaller counter |
| GoodsReceipts.NormalizeDistinct | services/goodsReceiptService.js:25-43 | renumbering changes only legacy numbers and gives a legacy receipt a number no other receipt of its company shows |
| GoodsReceipts.NormalizeNumbers | services/goodsReceiptService.js:25-43 | the in-place pass over the array leaves exactly the normalized receipts |
| Orders.OrderItemsForSound | services/orderService.js:62-77 | items are only the accepted rows' (the company's products, non-zero quantity), and every accepted row has its item |
| Orders.OrderItemsSplit | services/orderService.js:63-75 | the item loop distributes over concatenated rows |
| Orders.AmountSplit | services/orderService.js:74 | the total of two item lists is the sum of their totals |
| Orders.RowContribution | services/orderService.js:64-74 | a skipped row adds nothing; an accepted row adds (quantity or 1) * (unitPrice or product price) to the total |
| Orders.OrderNumberInjective | services/orderService.js:44-45 | under one clock reading, different counts give different order numbers |
| Orders.FirstWarehouseOfCompany | services/orderService.js:78 | a warehouse is found exactly when the company has one, and it is the company's |
| Orders.PickItemsAsWritten | services/orderService.js:85-92 | as written: one pick item per raw row, quantityRequired = quantity or 1, picked 0 |
| Orders.AsWrittenPicksSkippedRow | services/orderService.js:64-92 | counterexample: a row of another company's product yields no order item but a pick item and a CONFIRMED order |
| Orders.PickItemsShape | services/orderService.js:85-92 | one pick item per order item with its product and quantity, picked 0 |
| Orders.PickItemsMirrorOrder | services/orderService.js:79-92 | pick items mirror the order's accepted items, and no pick list is spawned when every row was skipped |
| Orders.NoKeptRowNoItem | services/orderService.js:64-65 | no accepted row, no item |
| Orders.CheckCreate | services/orderService.js:42-43 | admitted exactly for super or company admins with a company |
| Orders.AddOrderItems | services/orderService.js:61-77 | the item loop appends the accepted items and returns their total |
| Orders.AddPickItem | services/orderService.js:86-91 | one round adds the next pick item under the next id |
| Orders.AddPickItems | services/orderService.js:85-92 | the loop stores all pick items under consecutive ids |
| Orders.SpawnPickList | services/orderService.js:79-99 | one NOT_STARTED pick list, its items and one NOT_STARTED packing task are added and the order becomes CONFIRMED |
| Orders.AddDraftOrder | services/orderService.js:46-77 | a DRAFT order under a fresh id with its accepted items and their total |
| Orders.PlaceOrder | services/orderService.js:46-99 | the order and items are stored; a pick list and packing task are spawned exactly when the company has a warehouse and items exist |
| Orders.ConfirmIfPickable | services/orderService.js:78-99 | the draft is confirmed with its pick list and task when pickable, else all tables stay |
| Orders.CreateOrder | services/orderService.js:41-101 | corrected: the pick list is spawned only when accepted items exist and its items mirror them, where the source uses the raw rows; role failure writes nothing, otherwise the numbered order, its items and, when pickable, its pick list and packing task are stored; as written: Orders.AsWrittenPicksSkippedRow |
| Orders.WithoutOrder | services/orderService.js:122 | exactly the items of other orders remain |
| Orders.ItemsOfWithout | services/orderService.js:122 | deleting one order's items leaves no item of it and every other order's items |
| Orders.ItemsOfAppend | services/orderService.js:129-134 | appending an item adds it to its own order's items only |
| Orders.ItemsOfConcat | services/orderService.js:121-138 | an order's items over two lists are its items in each |
| Orders.ReplaceItems | services/orderService.js:121-138 | after replacement the order's items are exactly the new ones and other orders' are unchanged |
| Orders.AllOfOneOrder | services/orderService.js:129-134 | newly created items all belong to the edited order |
| Orders.CheckEdit | services/orderService.js:104-110 | admitted exactly for a visible order in DRAFT or CONFIRMED; a visible order in another status fails as an invalid transition |
| Orders.UpdateOrder | services/orderService.js:103-140 | rejected edits change nothing; otherwise the customer is set and, when items are supplied, they replace the order's items and the total is recomputed |
| Orders.PickListsOf | services/orderService.js:153 | exactly the order's pick lists |
| Orders.OtherPickLists | services/orderService.js:157 | exactly the other orders' pick lists |
| Orders.DropStep | services/orderService.js:154-158 | deleting list by list equals deleting all the lists' items and tasks at once |
| Orders.RemoveLeavesNoTrace | services/orderService.js:152-161 | after removal no item, pick list, pick item, packing task or shipment refers to the order |
| Orders.DropPickLists | services/orderService.js:154-158 | the loop deletes the pick items and packing tasks of the given lists |
| Orders.RemoveOrder | services/orderService.js:142-163 | rejected removals change nothing; otherwise the order and all dependent rows are deleted |
| Picking.FindPickList | services/pickingService.js:54-55 | the position found carries the id; none only when no pick list does |
| Picking.AssignTo | services/pickingService.js:61 | ASSIGNED to the picker, same list |
| Picking.Started | services/pickingService.js:72 | PARTIALLY_PICKED, assignee kept |
| Picking.AfterPick | services/pickingService.js:86-89 | NOT_STARTED or ASSIGNED become PARTIALLY_PICKED; other statuses stay |
| Picking.Completed | services/pickingService.js:103 | PICKED, assignee kept |
| Picking.Rejected | services/pickingService.js:127 | NOT_STARTED with no assignee |
| Picking.RejectThenAssign | services/pickingService.js:122-133 | rejecting returns the list to an assignable state, and rejecting or completing twice is the same as once |
| Picking.CheckAssign | services/pickingService.js:51-59 | admitted exactly for a manager role, an existing list, a company admin only of the order's company, and an assignee who is a picker of that company |
| Picking.CheckWork | services/pickingService.js:68-70 | admitted exactly for an existing list the caller may work: a picker only on a list assigned to them |
| Picking.AssignPicker | services/pickingService.js:50-65 | rejected calls change nothing; otherwise the list is ASSIGNED and the order PICKING_IN_PROGRESS |
| Picking.StartPicking | services/pickingService.js:67-76 | the list becomes PARTIALLY_PICKED and the order PICKING_IN_PROGRESS; the trailing visibility check decides the result |
| Picking.CheckPick | services/pickingService.js:79-82 | admitted exactly for an existing item whose list the caller may work |
| Picking.Picked | services/pickingService.js:84 | the picked quantity is the one given, else the full requirement |
| Picking.UpdatePickedQuantity | services/pickingService.js:78-92 | records the picked quantity, and moves a waiting list and its order forward |
| Picking.SpawnKeepsOnePerPickList | services/pickingService.js:109-117 | completion leaves exactly one packing task per pick list, and spawning again changes nothing |
| Picking.CompletePicking | services/pickingService.js:94-120 | a PICKED list changes nothing; otherwise list and order become PICKED and a packing task exists once |
| Picking.RejectAssignment | services/pickingService.js:122-133 | the list is NOT_STARTED with no picker and the order CONFIRMED |
| Packing.AssignTo | services/packingService.js:65 | ASSIGNED to the packer |
| Packing.Started | services/packingService.js:83 | PACKING, assignee kept |
| Packing.Packed | services/packingService.js:115 | PACKED, assignee kept |
| Packing.Rejected | services/packingService.js:126 | NOT_STARTED with no packer |
| Packing.ShipmentFor | services/packingService.js:107-113 | a READY_TO_SHIP shipment of the task's order and company, packed by the caller |
| Packing.ShipmentAddsOne | services/packingService.js:107-113 | completion adds exactly one shipment to the order |
| Packing.RejectReopensCompletion | services/packingService.js:99-130 | after rejecting a packed task the idempotence guard no longer holds, and a second completion makes two shipments |
| Packing.CheckAssign | services/packingService.js:56-63 | admitted exactly for a manager role, an existing task of an existing order, a caller of the order's company unless super admin, and an assignee who is a packer of that company |
| Packing.CheckWork | services/packingService.js:71-73 | admitted exactly for an existing task the caller may work: a packer only on a task assigned to them |
| Packing.AssignPacker | services/packingService.js:55-68 | rejected calls change nothing; otherwise the task is ASSIGNED |
| Packing.StartPacking | services/packingService.js:70-97 | task PACKING and order PACKING_IN_PROGRESS; the trailing visibility check decides the result |
| Packing.CompletePacking | services/packingService.js:99-118 | a PACKED task is returned unchanged with no shipment, a task whose order is gone fails with nothing written; otherwise one READY_TO_SHIP shipment is added under a fresh id and task and order become PACKED |
| Packing.RejectAssignment | services/packingService.js:120-130 | the task is NOT_STARTED with no packer |
| Shipments.OrderStatusAfter | services/shipmentService.js:77-86 | DELIVERED makes the order DELIVERED, any other requested status except READY_TO_SHIP makes it SHIPPED, and no status or READY_TO_SHIP keeps the order's status |
| Shipments.ItemsOf | services/shipmentService.js:90 | exactly the order's items |
| Shipments.PickWarehouse | services/shipmentService.js:97-100 | the warehouse of one of the order's pick lists, none when it has none |
| Shipments.Source | services/shipmentService.js:96-112 | the pick-list warehouse's record first, then a company warehouse's, then any record of the product |
| Shipments.DeductItemBounds | services/shipmentService.js:113-121 | one item deducts at most its quantity, never below zero, and keeps reserved <= quantity |
| Shipments.DeductAllBounds | services/shipmentService.js:89-127 | the loop deducts at most each product's demand, keeps the ledger non-negative and sound, and counts at most one per item |
| Shipments.OnTheRoadDeductsOnce | services/shipmentService.js:65-89 | updates that stay among SHIPPED, IN_TRANSIT, DELIVERED deduct once at most, and only when entering from outside |
| Shipments.ReturnedAndReshippedDeductsTwice | services/shipmentService.js:65-67 | leaving the set and re-entering it deducts again |
| Shipments.CheckCreate | services/shipmentService.js:35-41 | admitted exactly for a visible PACKED order without a shipment; the shipment is READY_TO_SHIP |
| Shipments.CreateKeepsOneShipmentPerOrder | services/shipmentService.js:40-52 | creation keeps at most one shipment per order |
| Shipments.CreateShipment | services/shipmentService.js:34-58 | rejected creates write nothing; otherwise the shipment is stored under a fresh id |
| Shipments.CheckUpdate | services/shipmentService.js:61-66 | admitted exactly for a visible shipment and a known status |
| Shipments.DeductItems | services/shipmentService.js:89-127 | the deduction loop on the store yields the specified ledger and count |
| Shipments.UpdateShipment | services/shipmentService.js:60-130 | the status is stored, the order follows it, and stock is deducted exactly on entering the on-the-road set |
| Shipments.CheckDeduct | services/shipmentService.js:133-143 | admitted exactly for a visible on-the-road shipment of an existing order with items |
| Shipments.DeductStockForShipment | services/shipmentService.js:132-180 | deducts as the update does and returns the number of products deducted, with no once-only guard |
| PurchaseOrders.ItemsOf | services/purchaseOrderService.js:61-69 | one stored item per line, missing numbers as 0, totalPrice = quantity * unitPrice |
| PurchaseOrders.AmountIsSumOfItems | services/purchaseOrderService.js:49-69 | totalAmount equals the sum of the items' totalPrice |
| PurchaseOrders.LinesAmountSplit | services/purchaseOrderService.js:49 | the total of joined line lists is the sum of their totals |
| PurchaseOrders.AsWrittenRepeatsAfterDelete | services/purchaseOrderService.js:43-44 | counterexample: after a delete, the count-based number repeats a stored number |
| PurchaseOrders.NextCounterUnique | services/purchaseOrderService.js:43-44 | the corrected next counter is determined by the stored orders |
| PurchaseOrders.NextCounterIsFresh | services/purchaseOrderService.js:43-44 | the corrected number is carried by no order of the company |
| PurchaseOrders.NextPoCounter | services/purchaseOrderService.js:43-44 | the scan computes the corrected next counter |
| PurchaseOrders.CorrectedNumberAfterDelete | services/purchaseOrderService.js:43-44 | on the counterexample the corrected number is new |
| PurchaseOrders.CheckCreate | services/purchaseOrderService.js:36-47 | admitted exactly for an allowed role with a company and a supplier of that company; wrong roles are forbidden |
| PurchaseOrders.NewPo | services/purchaseOrderService.js:49-69 | numbered with the counter, total equals the items' sum, one item per line, pending by default |
| PurchaseOrders.CreatePurchaseOrder | services/purchaseOrderService.js:35-73 | corrected: the number is one above the company's largest counter, where the source uses count + 1; rejected creates write nothing, otherwise the new order carries that fresh counter under a fresh id; as written: PurchaseOrders.AsWrittenRepeatsAfterDelete |
| PurchaseOrders.ConsecutiveNumbersDiffer | services/purchaseOrderService.js:43-44 | after one create the next counter is one higher |
| PurchaseOrders.CheckOpen | services/purchaseOrderService.js:76-79 | admitted exactly for a visible pending or draft order; a visible order in another status fails as an invalid transition |
| PurchaseOrders.Patch | services/purchaseOrderService.js:81-102 | company and number stay; items and total are replaced only by a non-empty item list |
| PurchaseOrders.PatchLaws | services/purchaseOrderService.js:81-102 | an empty patch, or one with an empty item list, changes nothing; patching twice is patching once |
| PurchaseOrders.UpdatePurchaseOrder | services/purchaseOrderService.js:75-104 | rejected updates change nothing; otherwise the order is patched |
| PurchaseOrders.ApprovePurchaseOrder | services/purchaseOrderService.js:106-113 | an open order becomes approved; otherwise nothing changes |
| PurchaseOrders.ApprovalGatesReceipts | services/purchaseOrderService.js:110-111 | no goods receipt can be opened for an open order; once approved the order is no longer open to change, and a company user who could change it can open a receipt for it |
| PurchaseOrders.RemovePurchaseOrder | services/purchaseOrderService.js:115-123 | only an open order is deleted |
| PurchaseOrders.RemoveKeepsNumberingFresh | services/purchaseOrderService.js:115-123 | after a delete the corrected next counter does not grow and its number still collides with no stored order |
| ReplenishmentConfigs.CheckCreate | services/replenishmentConfigService.js:28-29 | admitted exactly when the caller or the body names a company |
| ReplenishmentConfigs.NewConfig | services/replenishmentConfigService.js:31-40 | missing thresholds are 0, autoCreateTasks is false only when given false, and status defaults to ACTIVE |
| ReplenishmentConfigs.CreateConfig | services/replenishmentConfigService.js:27-42 | rejected creates write nothing; otherwise the setting is appended under a fresh id and the read-back decides visibility |
| ReplenishmentConfigs.Patch | services/replenishmentConfigService.js:49-57 | id and company stay |
| ReplenishmentConfigs.PatchLaws | services/replenishmentConfigService.js:49-57 | an empty patch changes nothing; patching twice is patching once |
| ReplenishmentConfigs.FindConfig | services/replenishmentConfigService.js:45-47 | the position found is a visible setting with the id; an error only when none is visible |
| ReplenishmentConfigs.UpdateConfig | services/replenishmentConfigService.js:44-59 | only the found setting changes, by the patch |
| ReplenishmentConfigs.SuggestionsExactly | services/replenishmentConfigService.js:93-108 | a suggestion is emitted exactly for each watched setting with reorderPoint > 0 and available below it, carrying its figures |
| ReplenishmentConfigs.WatchedConfigs | services/replenishmentConfigService.js:71-77 | exactly the ACTIVE settings with autoCreateTasks in the caller's scope |
| ReplenishmentConfigs.SuggestionsOfWatched | services/replenishmentConfigService.js:71-77 | selecting the watched settings first changes no suggestion |
| ReplenishmentConfigs.SelectWatched | services/replenishmentConfigService.js:71-77 | the query returns the watched settings |
| ReplenishmentConfigs.SumByProduct | services/replenishmentConfigService.js:85-91 | the dictionary holds each wanted product's on-hand and reserved totals |
| ReplenishmentConfigs.Emit | services/replenishmentConfigService.js:93-108 | the emission loop yields the specified suggestions |
| ReplenishmentConfigs.RunAutoCheck | services/replenishmentConfigService.js:70-110 | the auto-check returns the specified suggestions |
| ReplenishmentTasks.OrIfEmpty | services/replenishmentTaskService.js:51 | `value or fallback` with an empty string counting as absent |
| ReplenishmentTasks.NewTask | services/replenishmentTaskService.js:39-53 | number RPL- and count + 1, PENDING, quantityCompleted 0, priority MEDIUM by default |
| ReplenishmentTasks.NextTaskNumberIsFresh | services/replenishmentTaskService.js:39-40 | on dense numbering the next number is used by no task of the company |
| ReplenishmentTasks.CountAfterInsert | services/replenishmentTaskService.js:39 | storing a task adds one to the company count |
| ReplenishmentTasks.CreateKeepsDense | services/replenishmentTaskService.js:39-53 | creation keeps numbering dense |
| ReplenishmentTasks.CheckCreate | services/replenishmentTaskService.js:36-37 | admitted exactly when the caller or the body names a company |
| ReplenishmentTasks.CreateTask | services/replenishmentTaskService.js:35-55 | rejected creates write nothing; otherwise the new task is stored under a fresh id |
| ReplenishmentTasks.Patch | services/replenishmentTaskService.js:62-71 | company and number stay |
| ReplenishmentTasks.PatchLaws | services/replenishmentTaskService.js:62-71 | an empty patch changes nothing; patching twice is patching once |
| ReplenishmentTasks.CheckTask | services/replenishmentTaskService.js:58-60 | admitted exactly for a visible task |
| ReplenishmentTasks.UpdateTask | services/replenishmentTaskService.js:57-73 | only the patched task changes |
| ReplenishmentTasks.PatchKeepsDense | services/replenishmentTaskService.js:62-71 | a patch keeps numbering dense |
| ReplenishmentTasks.Transfer | services/replenishmentTaskService.js:97-102 | refused exactly when there is no source record or available < qty |
| ReplenishmentTasks.TransferConserves | services/replenishmentTaskService.js:103-120 | a transfer conserves every product's on-hand and reserved totals |
| ReplenishmentTasks.TransferMovesHeld | services/replenishmentTaskService.js:103-120 | source quantity falls by qty, destination rises by qty |
| ReplenishmentTasks.TransferKeepsSound | services/replenishmentTaskService.js:97-120 | a transfer keeps every record sound |
| ReplenishmentTasks.CheckComplete | services/replenishmentTaskService.js:82-94 | admitted exactly for a visible, not completed task with positive quantity and both locations known |
| ReplenishmentTasks.MoveStock | services/replenishmentTaskService.js:97-120 | the store's ledger becomes the transfer, or stays on refusal |
| ReplenishmentTasks.CompleteTask | services/replenishmentTaskService.js:75-138 | refusals change nothing; success transfers stock, logs one TRANSFER movement and marks the task COMPLETED with quantityCompleted = quantityNeeded |
| Returns.RmaNumberRoundTrip | controllers/ReturnController.js:29 | the number printed for count reads back, in its year, as count + 1 |
| Returns.YearsDoNotOverlap | controllers/ReturnController.js:29 | one year's numbers never read as another year's |
| Returns.RmaNumberInjective | controllers/ReturnController.js:29 | equal RMA numbers mean equal year and count |
| Returns.OrderShipmentUnique | controllers/ReturnController.js:13 | with one shipment per order, the order's shipment is determined |
| Returns.FindOrderShipment | controllers/ReturnController.js:13 | the scan returns the order's shipment, or none when it has none |
| Returns.AdmitIff | controllers/ReturnController.js:11-25 | admitted exactly for a visible, returnable order and a resolvable shipment of its company with type and reason |
| Returns.AdmitRespectsTenant | controllers/ReturnController.js:11-14 | a caller of another company gets "Sales Order not found" |
| Returns.CreateAsWritten | controllers/ReturnController.js:28-43 | as written: the company-count number, refused by the global unique index when taken |
| Returns.AsWrittenSecondCompanyBlocked | controllers/ReturnController.js:28-29 | counterexample: a second company's first RMA in a year collides with the first company's |
| Returns.CheckCreate | controllers/ReturnController.js:28-43 | the corrected number never collides with a stored one |
| Returns.CreateNeverConflicts | controllers/ReturnController.js:16-43 | on dense numbering creation fails only on admission, and the RMA is RMA_CREATED with the order's data and the next counter |
| Returns.CreateKeepsDense | controllers/ReturnController.js:28-43 | creation keeps every year's numbering dense |
| Returns.CreateRma | controllers/ReturnController.js:3-51 | the stored RMA is the corrected create's result for the order's shipment; a failed create writes nothing |
| Returns.NextFollowsTable | controllers/ReturnController.js:99-182 | an action succeeds exactly from its predecessor statuses, yields its target, and otherwise fails as an invalid transition |
| Returns.NextKeepsIdentity | controllers/ReturnController.js:103-182 | a step changes only status, recoveryValue on inspection and refundAmount on refund |
| Returns.ClosedIsTerminal | controllers/ReturnController.js:178-182 | nothing leaves CLOSED |
| Returns.NeverEntered | models/Return.js:29-31 | no action leads into RMA_CREATED, AWAITING_RETURN or IN_INSPECTION |
| Returns.NextAdvances | controllers/ReturnController.js:99-182 | every step strictly advances the lifecycle rank |
| Returns.RunAdvances | controllers/ReturnController.js:99-182 | each step of a run adds at least one rank |
| Returns.RunIsShort | controllers/ReturnController.js:99-182 | a run has at most four steps, fewer the further the RMA has advanced |
| Returns.RefundNeedsApproval | controllers/ReturnController.js:128-156 | a refund is reached only through an APPROVED inspection |
| Returns.RejectedNeverRefunded | controllers/ReturnController.js:156-178 | from REJECTED no run reaches REFUNDED |
| Returns.StepTenancy | controllers/ReturnController.js:93-96 | another company's caller gets "RMA not found"; a caller without a company sees every RMA |
| Returns.Apply | controllers/ReturnController.js:95-106 | the store holds the stepped RMA, or stays on error; stock never changes |
| Returns.ReceiveItem | controllers/ReturnController.js:90-112 | on success the RMA is RECEIVED; otherwise nothing changes |
| Returns.InspectRma | controllers/ReturnController.js:114-144 | on success the RMA takes the outcome, which is APPROVED or REJECTED |
| Returns.ProcessRefund | controllers/ReturnController.js:146-168 | on success the RMA is REFUNDED with the amount |
| Returns.CloseRma | controllers/ReturnController.js:170-187 | on success the RMA is CLOSED |
| Store.Db.NewId | services/orderService.js:46 | the id handed out is unused in every table and `nextId` advances |
| Store.Db.CreditStock | services/goodsReceiptService.js:154-167 | the ledger becomes the find-or-create credit |

## Left out

- HTTP handling, routing, response shapes and the error-to-status mapping are left out. Errors are a `Result` datatype whose variants name the source's messages.
- Authentication (JWT, bcrypt) is left out. Role and tenant checks are equalities on `Common.Caller`.
- Transactions are left out. Each operation is all-or-nothing where the source wraps it in a transaction or rolls back. Where the source writes before it fails (the PENDING adjustment before "No warehouse found"; the picking and packing writes before the trailing read-back), the model keeps those writes.
- `warehouseService.validateCapacity` is not defined in services/warehouseService.js and is not modelled.
- Clocks and random values are parameters. This covers the adjustment reference, the order-number stamp, the batch-number default, the RMA year, and dates such as `packedAt`, `receivedAt` and `dispatchDate`.
- `parseInt`, `Number(...)`, NaN and string trimming are not modelled. Request numbers arrive as integers or as absent values.
- Status strings outside each model's vocabulary cannot be stored. `Shipments.CheckUpdate` rejects an unknown delivery status instead of storing it.
- Descriptive columns without invariants are not modelled. These are names, SKU snapshots on lines, notes, courier and tracking data, weight, `expectedDelivery`, priority and sales channel of orders, and RMA notes and timestamps.
- A location's warehouse is read through its zone, as `replenishmentTaskService.complete` does. The inventory service reads `loc.warehouseId`, a column `Location` does not have.
- Adjustments.CreateAdjustment: applies the corrected INCREASE of the third finding below, so on that input it stores a stock record the source does not create.
- GoodsReceipts.UpdateReceived: credits the corrected per-line deltas of the first finding below, so on that input it credits nothing where the source credits 10 units.
- Orders.CreateOrder: spawns the pick list from the accepted items, as in the second finding below, so on that input the order stays DRAFT with no pick list where the source confirms it.
- PurchaseOrders.CreatePurchaseOrder: numbers with the corrected counter of the fourth finding below, so after a delete it can differ from the source's count + 1.
- Movements.CreateMovement: PICK and TRANSFER check `quantity < qty` on the source record, not available stock, as the code does. So `reserved` may exceed `quantity` afterwards, and only non-negativity is proved.
- CycleCounts.CompleteCycleCount: a counted value below `reserved`, or negative, is written as given, so soundness is not claimed after a count.
- Picking.AssignPicker: this and the other picking methods require that the pick list's order exists (`Linked`). The source dereferences the order without checking.
- Orders.CheckEdit: `remove` also admits PICK_LIST_CREATED. No order can hold that status, because it is missing from models/SalesOrder.js:19, so the guard is shared with `update`.
- Orders.UpdateOrder: replacing the items does not rebuild the order's pick list, as in the source. The stale pick list is kept.
- Orders.CreateOrder: order numbers are unique only per clock reading (`Orders.OrderNumberInjective`). Their uniqueness across readings depends on the clock and is not claimed.
- PurchaseOrders.UpdatePurchaseOrder: the supplier is not re-checked on update, and the supplier and status fields of the patch are stored as given.
- ReplenishmentTasks.CreateTask: numbering is fresh only while no task is deleted (the `Dense` hypothesis). Deletion is outside the core.
- Returns.CreateRma: the shipment given in the body is checked for its company but not for its order, as in the source.
- Returns.StepTenancy: a non-super-admin caller without a company reaches every RMA, as the `where` clause allows.
- Returns.FindOrderShipment: the `Shipment` association is `hasOne`, so with several shipments for one order the loaded shipment is unspecified. The model states the result relationally and is exact only under one shipment per order.
- Returns.InspectRma: an inspection without `recoveryValue` stores 0. A refund without an amount is not modelled.
- No RMA transition touches stock. `Returns.Apply` states that the ledger is unchanged.
- Cron jobs, scripts, reports, analytics, predictions and plain CRUD services are left out.

## Findings

| source | as written | input that shows it | evidently intended | confidence | as-written member | corrected member |
|---|---|---|---|---|---|---|
| services/goodsReceiptService.js:112-146 | the credit baseline is keyed by product id, so the last line of a product supplies the base for every line of that product | a receipt with two lines of product 5, received 10 and 0, re-sent unchanged: the first line's delta is 10 - 0, so 10 units are credited | each line's delta against its own previous received quantity, so a re-send credits nothing | not executed | GoodsReceipts.AsWrittenCreditsUnchangedReceipt | GoodsReceipts.ResendCreditsNothing |
| services/orderService.js:79-92 | the pick list and its items are built from all request rows, including rows skipped because the product is missing or foreign | company 1 with a warehouse orders one row of product 7 of company 2, quantity 3: no order item, total 0, yet the order is CONFIRMED with a pick item for product 7 | pick items mirror the accepted order items, and an order with no item stays DRAFT | not executed | Orders.AsWrittenPicksSkippedRow | Orders.PickItemsMirrorOrder |
| services/inventoryService.js:592-608 | an INCREASE that names a warehouse holding no record of the product creates nothing but still completes | empty ledger, INCREASE of 5 units of product 1 into warehouse 3: the adjustment is COMPLETED and product 1 holds 0 | create the record in the named warehouse, as the branch without a warehouse does | not executed | Adjustments.AsWrittenIncreaseIsLost | Adjustments.IncreaseAddsQuantity |
| services/purchaseOrderService.js:43-44 | the PO number is the company's order count + 1, which repeats after a pending order is deleted | PO001 and PO002 exist, PO001 is removed; the next number is PO002 again | one above the largest existing counter, like the GRN numbering | not executed | PurchaseOrders.AsWrittenRepeatsAfterDelete | PurchaseOrders.NextCounterIsFresh |
| controllers/ReturnController.js:28-29 | the RMA counter counts the company's returns while `rmaNumber` is unique across companies (models/Return.js:10) | company 1 holds RMA-2026-0001; company 2 opens its first RMA in 2026, numbered RMA-2026-0001 again, and the unique index refuses it | a counter in the scope of the unique index, so creation never conflicts | not executed | Returns.AsWrittenSecondCompanyBlocked | Returns.CreateNeverConflicts |
