/** Batch creation with its stock sync (`createBatch` in
    services/inventoryService.js): a batch row, and for a positive quantity the
    stock record of exactly that product, warehouse, location and batch number is
    incremented or created. */
module Batches {
  import opened Common
  import opened Ledger
  import opened Store

  /** The request body; absent or empty fields are `None`, `quantity` is
      `parseInt(quantity) || 0`. */
  datatype BatchRequest = BatchRequest(
    productId: int, companyId: Option<int>, batchNumber: Option<string>,
    warehouseId: Option<int>, locationId: Option<int>, quantity: int)

  predicate MayCreateBatch(role: Role)
  {
    role == SuperAdmin || role == CompanyAdmin || role == InventoryManager || role == WarehouseManager
  }

  /** The checks, and the batch row they admit. `stamp` stands for
      `String(Date.now())`, the batch number used when none is given; a missing
      warehouse fails the row's not-null constraint. */
  function CheckBatch(products: map<int, Product>, caller: Caller, req: BatchRequest, stamp: string): (r: Result<Batch>)
    ensures r.Ok? <==>
      && MayCreateBatch(caller.role)
      && OrElse(caller.companyId, req.companyId).Some?
      && req.productId in products
      && (caller.role == SuperAdmin || products[req.productId].companyId == OrElse(caller.companyId, req.companyId).value)
      && req.warehouseId.Some?
    ensures r.Ok? ==>
      && Some(r.value.companyId) == OrElse(caller.companyId, req.companyId)
      && r.value.productId == req.productId
      && Some(r.value.warehouseId) == req.warehouseId
      && r.value.locationId == req.locationId
      && r.value.quantity == req.quantity
      && r.value.batchNumber == (if req.batchNumber.Some? then req.batchNumber.value else stamp)
  {
    if !MayCreateBatch(caller.role) then Err(Forbidden("Not allowed to create batch"))
    else
      var companyId := OrElse(caller.companyId, req.companyId);
      if companyId.None? then Err(Validation("Company context required"))
      else if req.productId !in products then Err(NotFound("Product not found"))
      else if products[req.productId].companyId != companyId.value && caller.role != SuperAdmin then
        Err(NotFound("Product not found"))
      else if req.warehouseId.None? then Err(Validation("warehouseId cannot be null"))
      else
        var number := if req.batchNumber.Some? then req.batchNumber.value else stamp;
        Ok(Batch(companyId.value, number, req.productId, req.warehouseId.value, req.locationId, req.quantity))
  }

  /** The exact key of a batch's stock: product, warehouse, location or null,
      batch number. */
  function BatchKey(b: Batch): StockQuery
  {
    StockQuery(b.productId, InWarehouse(b.warehouseId), Is(b.locationId), Is(Some(b.batchNumber)))
  }

  function BatchRecord(b: Batch): StockRecord
  {
    StockRecord(b.productId, b.warehouseId, b.locationId, Some(b.batchNumber), b.quantity, 0)
  }

  /** The stock sync: a positive quantity is credited at the batch's key. */
  function SyncBatch(stock: seq<StockRecord>, b: Batch): seq<StockRecord>
  {
    if b.quantity > 0 then Credit(stock, BatchKey(b), BatchRecord(b), b.quantity) else stock
  }

  /** The record at the batch's key gains the batch quantity when it is
      positive, and so does the product's total on hand; a batch of zero or
      negative quantity leaves the ledger as it was. Reservations never change. */
  lemma SyncBatchCredits(stock: seq<StockRecord>, b: Batch, p: int)
    ensures b.quantity <= 0 ==> SyncBatch(stock, b) == stock
    ensures b.quantity > 0 ==> HeldAt(SyncBatch(stock, b), BatchKey(b)) == HeldAt(stock, BatchKey(b)) + b.quantity
    ensures Total(SyncBatch(stock, b), p, OnHand)
         == Total(stock, p, OnHand) + (if p == b.productId && b.quantity > 0 then b.quantity else 0)
    ensures Total(SyncBatch(stock, b), p, Reserved) == Total(stock, p, Reserved)
  {
    if b.quantity > 0 {
      CreditHeldAt(stock, BatchKey(b), BatchRecord(b), b.quantity);
      CreditTotals(stock, BatchKey(b), BatchRecord(b), b.quantity, p);
    }
  }

  /** The sync keeps a sound ledger sound. */
  lemma SyncBatchKeepsSound(stock: seq<StockRecord>, b: Batch)
    requires Sound(stock)
    ensures Sound(SyncBatch(stock, b))
  {
    if b.quantity > 0 {
      CreditKeepsSound(stock, BatchKey(b), BatchRecord(b), b.quantity);
    }
  }

  /** `createBatch`: the batch row gets a fresh id, then the ledger is synced. */
  method CreateBatch(db: Db, caller: Caller, req: BatchRequest, stamp: string) returns (r: Result<int>)
    requires db.Valid()
    modifies db`nextId, db`batches, db`stock
    ensures db.Valid()
    ensures CheckBatch(db.products, caller, req, stamp).Err? ==>
              && r == Err(CheckBatch(db.products, caller, req, stamp).error)
              && db.nextId == old(db.nextId) && db.batches == old(db.batches) && db.stock == old(db.stock)
    ensures CheckBatch(db.products, caller, req, stamp).Ok? ==>
              var b := CheckBatch(db.products, caller, req, stamp).value;
              && r == Ok(old(db.nextId)) && r.value !in old(db.batches)
              && db.batches == old(db.batches)[r.value := b]
              && db.stock == SyncBatch(old(db.stock), b)
  {
    var check := CheckBatch(db.products, caller, req, stamp);
    if check.Err? {
      return Err(check.error);
    }
    var b := check.value;
    var id := db.AddBatch(b);
    if b.quantity > 0 {
      db.CreditStock(BatchKey(b), BatchRecord(b), b.quantity);
    }
    return Ok(id);
  }
}
