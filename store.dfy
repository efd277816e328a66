/** The rows of the warehouse backend's tables and the in-memory database that
    holds them. Every service operation takes the database and says, with field
    frames, which tables it may change. */
module Store {
  import opened Common
  import opened Statuses
  import opened Ledger

  datatype Product = Product(companyId: int, sku: string, name: string, price: int)

  datatype Warehouse = Warehouse(id: int, companyId: int)

  /** A storage location. `warehouseId` is the warehouse of the location's zone. */
  datatype Location = Location(warehouseId: int)

  datatype User = User(role: Role, companyId: Option<int>)

  datatype Supplier = Supplier(companyId: int)

  datatype Batch = Batch(
    companyId: int, batchNumber: string, productId: int,
    warehouseId: int, locationId: Option<int>, quantity: int)

  /** One entry of the movement log. */
  datatype Movement = Movement(
    companyId: int, kind: MovementType, productId: int, batchId: Option<int>,
    fromLocationId: Option<int>, toLocationId: Option<int>, quantity: int, createdBy: int)

  datatype Adjustment = Adjustment(
    reference: string, companyId: int, productId: int, warehouseId: Option<int>,
    kind: AdjustmentType, quantity: int, reason: Option<string>,
    status: AdjustmentStatus, createdBy: int)

  datatype CycleCount = CycleCount(
    companyId: int, referenceNumber: string, locationId: Option<int>,
    status: CountStatus, itemsCount: int, discrepancies: int, countedBy: Option<int>)

  datatype SalesOrder = SalesOrder(
    companyId: int, orderNumber: string, customerId: Option<int>,
    status: OrderStatus, totalAmount: int, createdBy: int)

  datatype OrderItem = OrderItem(salesOrderId: int, productId: int, quantity: int, unitPrice: int)

  datatype PickList = PickList(
    id: int, salesOrderId: int, warehouseId: int,
    assignedTo: Option<int>, status: PickListStatus)

  datatype PickListItem = PickListItem(
    pickListId: int, productId: int, quantityRequired: int, quantityPicked: int)

  datatype PackingTask = PackingTask(
    salesOrderId: int, pickListId: Option<int>, assignedTo: Option<int>, status: PackingStatus)

  datatype Shipment = Shipment(
    salesOrderId: int, companyId: int, packedBy: int, deliveryStatus: DeliveryStatus)

  datatype PoItem = PoItem(productId: int, quantity: int, unitPrice: int, totalPrice: int)

  datatype PurchaseOrder = PurchaseOrder(
    companyId: int, supplierId: int, poNumber: string, status: PoStatus,
    totalAmount: int, items: seq<PoItem>)

  datatype ReceiptLine = ReceiptLine(
    id: int, productId: int, expectedQty: int, receivedQty: int, quality: Option<Quality>)

  datatype GoodsReceipt = GoodsReceipt(
    id: int, companyId: int, purchaseOrderId: int, grNumber: string, status: ReceiptStatus,
    totalExpected: int, totalReceived: int, lines: seq<ReceiptLine>, createdAt: int)

  datatype ReplenishmentTask = ReplenishmentTask(
    companyId: int, productId: int, fromLocationId: int, toLocationId: int,
    taskNumber: string, quantityNeeded: int, quantityCompleted: int,
    priority: string, notes: Option<string>, status: TaskStatus)

  datatype ReplenishmentConfig = ReplenishmentConfig(
    id: int, companyId: int, productId: int, minStockLevel: int, maxStockLevel: int,
    reorderPoint: int, reorderQuantity: int, autoCreateTasks: bool, status: ConfigStatus)

  datatype Rma = Rma(
    companyId: int, rmaNumber: string, salesOrderId: int, shipmentId: int,
    customerId: Option<int>, status: RmaStatus, returnType: ReturnType,
    reason: string, recoveryValue: int, refundAmount: int, createdBy: int)

  predicate KeysBelow<T>(m: map<int, T>, bound: int)
  {
    forall k :: k in m ==> k < bound
  }

  predicate Ascending(ws: seq<Warehouse>)
  {
    forall i, j :: 0 <= i < j < |ws| ==> ws[i].id < ws[j].id
  }

  predicate PickListIdsBelow(pls: seq<PickList>, bound: int)
  {
    forall i :: 0 <= i < |pls| ==> pls[i].id < bound
  }

  predicate ReceiptIdsBelow(rs: seq<GoodsReceipt>, bound: int)
  {
    forall i :: 0 <= i < |rs| ==> rs[i].id < bound
  }

  predicate ConfigIdsBelow(cs: seq<ReplenishmentConfig>, bound: int)
  {
    forall i :: 0 <= i < |cs| ==> cs[i].id < bound
  }

  /** The database: reference tables the core only reads, the stock ledger and the
      workflow tables. Tables searched with `findOne` on other columns than the
      key are sequences in insertion order; the others are maps from id to row. */
  class Db {
    var nextId: int

    var products: map<int, Product>
    var warehouses: seq<Warehouse>
    var locations: map<int, Location>
    var users: map<int, User>
    var suppliers: map<int, Supplier>

    var stock: seq<StockRecord>
    var batches: map<int, Batch>
    var movements: seq<Movement>
    var adjustments: seq<Adjustment>
    var cycleCounts: map<int, CycleCount>

    var orders: map<int, SalesOrder>
    var orderItems: seq<OrderItem>
    var pickLists: seq<PickList>
    var pickListItems: map<int, PickListItem>
    var packingTasks: map<int, PackingTask>
    var shipments: map<int, Shipment>

    var purchaseOrders: map<int, PurchaseOrder>
    var receipts: seq<GoodsReceipt>
    var replenishmentTasks: map<int, ReplenishmentTask>
    var replenishmentConfigs: seq<ReplenishmentConfig>
    var rmas: map<int, Rma>

    /** Auto-increment: every id in use lies below `nextId`, and warehouses are
        kept in ascending id order. */
    ghost predicate Valid()
      reads this`nextId, this`warehouses, this`pickLists, this`receipts, this`replenishmentConfigs
      reads this`products, this`locations, this`users, this`suppliers, this`batches, this`cycleCounts
      reads this`orders, this`pickListItems, this`packingTasks, this`shipments
      reads this`purchaseOrders, this`replenishmentTasks, this`rmas
    {
      && nextId >= 1
      && Ascending(warehouses)
      && PickListIdsBelow(pickLists, nextId)
      && ReceiptIdsBelow(receipts, nextId)
      && ConfigIdsBelow(replenishmentConfigs, nextId)
      && KeysBelow(products, nextId) && KeysBelow(locations, nextId)
      && KeysBelow(users, nextId) && KeysBelow(suppliers, nextId)
      && KeysBelow(batches, nextId) && KeysBelow(cycleCounts, nextId)
      && KeysBelow(orders, nextId) && KeysBelow(pickListItems, nextId)
      && KeysBelow(packingTasks, nextId) && KeysBelow(shipments, nextId)
      && KeysBelow(purchaseOrders, nextId)
      && KeysBelow(replenishmentTasks, nextId)
      && KeysBelow(rmas, nextId)
    }

    constructor ()
      ensures Valid() && nextId == 1
      ensures stock == [] && warehouses == [] && pickLists == [] && orderItems == [] && receipts == []
      ensures movements == [] && adjustments == []
      ensures products == map[] && orders == map[] && shipments == map[] && rmas == map[]
    {
      nextId := 1;
      products, warehouses, locations, users, suppliers := map[], [], map[], map[], map[];
      stock, batches, movements, adjustments, cycleCounts := [], map[], [], [], map[];
      orders, orderItems, pickLists, pickListItems, packingTasks, shipments := map[], [], [], map[], map[], map[];
      purchaseOrders, receipts, replenishmentTasks, replenishmentConfigs, rmas := map[], [], map[], [], map[];
    }

    /** The id the next insert receives: unused in every table. */
    method NewId() returns (id: int)
      requires Valid()
      modifies this`nextId
      ensures Valid() && id == old(nextId) && nextId == id + 1
      ensures id !in products && id !in orders && id !in shipments && id !in rmas
      ensures id !in batches && id !in cycleCounts && id !in pickListItems && id !in packingTasks
      ensures id !in purchaseOrders && id !in replenishmentTasks
      ensures forall i :: 0 <= i < |pickLists| ==> pickLists[i].id != id
      ensures forall i :: 0 <= i < |receipts| ==> receipts[i].id != id
      ensures forall i :: 0 <= i < |replenishmentConfigs| ==> replenishmentConfigs[i].id != id
    {
      id := nextId;
      nextId := nextId + 1;
    }

    /** Appends a pick list under the next id. */
    method AddPickList(pl: PickList) returns (id: int)
      requires Valid()
      modifies this`nextId, this`pickLists
      ensures Valid() && id == old(nextId) && nextId == id + 1
      ensures forall i :: 0 <= i < |old(pickLists)| ==> old(pickLists)[i].id != id
      ensures pickLists == old(pickLists) + [pl.(id := id)]
    {
      id := nextId;
      nextId := nextId + 1;
      pickLists := pickLists + [pl.(id := id)];
    }

    /** Inserts an order under the next id. */
    method AddOrder(o: SalesOrder) returns (id: int)
      requires Valid()
      modifies this`nextId, this`orders
      ensures Valid() && id == old(nextId) && nextId == id + 1
      ensures id !in old(orders) && orders == old(orders)[id := o]
    {
      id := nextId;
      nextId := nextId + 1;
      orders := orders[id := o];
    }

    /** Rewrites an existing order. */
    method SetOrder(id: int, o: SalesOrder)
      requires Valid() && id in orders
      modifies this`orders
      ensures Valid() && orders == old(orders)[id := o]
    {
      orders := orders[id := o];
    }

    /** Rewrites the pick list at position `i`, keeping its id. */
    method SetPickList(i: nat, pl: PickList)
      requires Valid() && i < |pickLists| && pl.id == pickLists[i].id
      modifies this`pickLists
      ensures Valid() && pickLists == old(pickLists)[i := pl]
    {
      pickLists := pickLists[i := pl];
    }

    /** Inserts a pick-list item under the next id. */
    method AddPickListItem(item: PickListItem) returns (id: int)
      requires Valid()
      modifies this`nextId, this`pickListItems
      ensures Valid() && id == old(nextId) && nextId == id + 1
      ensures id !in old(pickListItems) && pickListItems == old(pickListItems)[id := item]
    {
      id := nextId;
      nextId := nextId + 1;
      pickListItems := pickListItems[id := item];
    }

    /** Inserts a packing task under the next id. */
    method AddPackingTask(task: PackingTask) returns (id: int)
      requires Valid()
      modifies this`nextId, this`packingTasks
      ensures Valid() && id == old(nextId) && nextId == id + 1
      ensures id !in old(packingTasks) && packingTasks == old(packingTasks)[id := task]
    {
      id := nextId;
      nextId := nextId + 1;
      packingTasks := packingTasks[id := task];
    }

    /** Rewrites an existing packing task. */
    method SetPackingTask(id: int, task: PackingTask)
      requires Valid() && id in packingTasks
      modifies this`packingTasks
      ensures Valid() && packingTasks == old(packingTasks)[id := task]
    {
      packingTasks := packingTasks[id := task];
    }

    /** Inserts a shipment under the next id. */
    method AddShipment(sh: Shipment) returns (id: int)
      requires Valid()
      modifies this`nextId, this`shipments
      ensures Valid() && id == old(nextId) && nextId == id + 1
      ensures id !in old(shipments) && shipments == old(shipments)[id := sh]
    {
      id := nextId;
      nextId := nextId + 1;
      shipments := shipments[id := sh];
    }

    /** Inserts an RMA under the next id. */
    method AddRma(x: Rma) returns (id: int)
      requires Valid()
      modifies this`nextId, this`rmas
      ensures Valid() && id == old(nextId) && nextId == id + 1
      ensures id !in old(rmas) && rmas == old(rmas)[id := x]
    {
      id := nextId;
      nextId := nextId + 1;
      rmas := rmas[id := x];
    }

    /** Inserts a product under the next id. */
    method AddProduct(x: Product) returns (id: int)
      requires Valid()
      modifies this`nextId, this`products
      ensures Valid() && id == old(nextId) && nextId == id + 1
      ensures id !in old(products) && products == old(products)[id := x]
    {
      id := nextId;
      nextId := nextId + 1;
      products := products[id := x];
    }

    /** Inserts a purchase order under the next id. */
    method AddPurchaseOrder(x: PurchaseOrder) returns (id: int)
      requires Valid()
      modifies this`nextId, this`purchaseOrders
      ensures Valid() && id == old(nextId) && nextId == id + 1
      ensures id !in old(purchaseOrders) && purchaseOrders == old(purchaseOrders)[id := x]
    {
      id := nextId;
      nextId := nextId + 1;
      purchaseOrders := purchaseOrders[id := x];
    }

    /** Inserts a replenishment task under the next id. */
    method AddReplenishmentTask(x: ReplenishmentTask) returns (id: int)
      requires Valid()
      modifies this`nextId, this`replenishmentTasks
      ensures Valid() && id == old(nextId) && nextId == id + 1
      ensures id !in old(replenishmentTasks) && replenishmentTasks == old(replenishmentTasks)[id := x]
    {
      id := nextId;
      nextId := nextId + 1;
      replenishmentTasks := replenishmentTasks[id := x];
    }

    /** Inserts a batch under the next id. */
    method AddBatch(b: Batch) returns (id: int)
      requires Valid()
      modifies this`nextId, this`batches
      ensures Valid() && id == old(nextId) && nextId == id + 1
      ensures id !in old(batches) && batches == old(batches)[id := b]
    {
      id := nextId;
      nextId := nextId + 1;
      batches := batches[id := b];
    }

    /** The find-or-create write on the ledger: add `amount` to the first
        record the query finds, or append `created`. */
    method CreditStock(q: StockQuery, created: StockRecord, amount: int)
      modifies this`stock
      ensures stock == Credit(old(stock), q, created, amount)
    {
      var found := FindFirst(stock, q);
      if found.Some? {
        var i := found.value;
        stock := stock[i := stock[i].(quantity := stock[i].quantity + amount)];
      } else {
        stock := stock + [created];
      }
    }

    /** `k` consecutive ids for a bulk insert: `first`, ..., `first + k - 1`. */
    method NewIds(k: nat) returns (first: int)
      requires Valid()
      modifies this`nextId
      ensures Valid() && first == old(nextId) && nextId == first + k
    {
      first := nextId;
      nextId := nextId + k;
    }
  }

  /** The rows of `rows` stored under consecutive ids from `start`. */
  function Placed<T>(start: int, rows: seq<T>): map<int, T>
  {
    if rows == [] then map[]
    else Placed(start, rows[..|rows| - 1])[start + |rows| - 1 := rows[|rows| - 1]]
  }

  /** The placed rows occupy exactly the ids `start .. start + |rows| - 1`,
      the `i`-th row under `start + i`. */
  lemma {:induction false} PlacedLookup<T>(start: int, rows: seq<T>)
    ensures forall k :: k in Placed(start, rows) <==> start <= k < start + |rows|
    ensures forall i :: 0 <= i < |rows| ==> Placed(start, rows)[start + i] == rows[i]
  {
    if rows != [] {
      var n := |rows| - 1;
      PlacedLookup(start, rows[..n]);
      assert forall i :: 0 <= i < n ==> rows[..n][i] == rows[i];
    }
  }

  /** Storing one more row after those already placed. */
  lemma PlacedAppend<T>(before: map<int, T>, start: int, rows: seq<T>, r: T)
    ensures (before + Placed(start, rows))[start + |rows| := r] == before + Placed(start, rows + [r])
  {
    assert (rows + [r])[..|rows|] == rows;
  }

  /** The ids of one company's warehouses, in table (ascending id) order. */
  function CompanyWarehouses(ws: seq<Warehouse>, companyId: int): seq<int>
  {
    if ws == [] then []
    else
      var rest := CompanyWarehouses(ws[1..], companyId);
      if ws[0].companyId == companyId then [ws[0].id] + rest else rest
  }

  /** Exactly the company's warehouses are listed. */
  lemma {:induction false} CompanyWarehousesMembers(ws: seq<Warehouse>, companyId: int)
    ensures forall w :: w in CompanyWarehouses(ws, companyId) <==>
              exists i :: 0 <= i < |ws| && ws[i].companyId == companyId && ws[i].id == w
    ensures |CompanyWarehouses(ws, companyId)| <= |ws|
  {
    if ws != [] {
      CompanyWarehousesMembers(ws[1..], companyId);
      assert forall i :: 1 <= i < |ws| ==> ws[i] == ws[1..][i - 1];
      forall w | exists i :: 0 <= i < |ws| && ws[i].companyId == companyId && ws[i].id == w
        ensures w in CompanyWarehouses(ws, companyId)
      {
        var i :| 0 <= i < |ws| && ws[i].companyId == companyId && ws[i].id == w;
        if i > 0 {
          assert ws[1..][i - 1] == ws[i];
        }
      }
    }
  }
}
