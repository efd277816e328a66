/** Manual stock adjustments (`createAdjustment` of services/inventoryService.js):
    an INCREASE or DECREASE of one product's stock, logged as an adjustment row
    that is created PENDING and completed once the ledger has been written. */
module Adjustments {
  import opened Common
  import opened Statuses
  import opened Ledger
  import opened Store

  /** The request body. `quantity` is what `parseInt` read (0 when unreadable);
      `warehouseId` is `None` when absent or 0. */
  datatype AdjustmentRequest = AdjustmentRequest(
    productId: int, companyId: Option<int>, quantity: int, kind: AdjustmentType,
    warehouseId: Option<int>, reason: Option<string>)

  predicate MayAdjust(role: Role)
  {
    role == SuperAdmin || role == CompanyAdmin || role == InventoryManager
  }

  /** A request that passed the checks: the company it is booked to and the
      quantity `|parseInt(quantity)|`. */
  datatype Admitted = Admitted(companyId: int, quantity: nat)

  /** The checks made before the ledger is read: role, company context, product
      and tenant, then the quantity. */
  function CheckAdjustment(products: map<int, Product>, caller: Caller, req: AdjustmentRequest): (r: Result<Admitted>)
    ensures r.Ok? <==>
      && MayAdjust(caller.role)
      && req.productId in products
      && (caller.companyId.Some? || req.companyId.Some? || caller.role == SuperAdmin)
      && (caller.role == SuperAdmin || Some(products[req.productId].companyId) == OrElse(caller.companyId, req.companyId))
      && req.quantity != 0
    ensures r.Ok? ==> r.value.quantity == Abs(req.quantity) && r.value.quantity >= 1
  {
    if !MayAdjust(caller.role) then Err(Forbidden("Not allowed to create adjustment"))
    else
      var companyId := OrElse(caller.companyId, req.companyId);
      if companyId.None? && caller.role != SuperAdmin then Err(Validation("Company context required"))
      else
        var effective := if companyId.Some? then companyId
                         else if req.productId in products then Some(products[req.productId].companyId)
                         else None;
        if effective.None? then Err(Validation("Company context required"))
        else if req.productId !in products then Err(NotFound("Product not found"))
        else if products[req.productId].companyId != effective.value && caller.role != SuperAdmin then
          Err(NotFound("Product not found"))
        else if Abs(req.quantity) < 1 then Err(Validation("Quantity must be at least 1"))
        else Ok(Admitted(effective.value, Abs(req.quantity)))
  }

  /** What an admitted adjustment does: refused before anything is written,
      applied (the new ledger and the warehouse logged on the row), or stranded
      (the PENDING row was written, then the operation failed). */
  datatype Effect =
    | Refused(error: Error)
    | Applied(stock: seq<StockRecord>, warehouseId: Option<int>)
    | Stranded(error: Error)

  /** The record an adjustment works on: the product's first record, in the
      given warehouse when one is given. */
  function AdjustmentQuery(productId: int, warehouseId: Option<int>): StockQuery
  {
    StockQuery(productId, if warehouseId.Some? then InWarehouse(warehouseId.value) else AnyWarehouse, Any, Any)
  }

  /** The ledger effect. A found record gets `quantity + qty` (INCREASE) or
      `max(0, quantity - qty)` (DECREASE); a DECREASE needs a record whose
      available stock covers it; an INCREASE with no record creates one in the
      given warehouse, or else in the company's first warehouse. */
  function AdjustmentEffect(stock: seq<StockRecord>, companyWarehouses: seq<int>, productId: int,
                            warehouseId: Option<int>, kind: AdjustmentType, qty: nat): Effect
  {
    match FirstMatch(stock, AdjustmentQuery(productId, warehouseId))
    case Some(i) =>
      if kind == Decrease && stock[i].quantity - stock[i].reserved < qty then
        Refused(InsufficientStock("Insufficient available stock for decrease"))
      else
        var newQty := if kind == Increase then stock[i].quantity + qty else Max(0, stock[i].quantity - qty);
        Applied(stock[i := stock[i].(quantity := newQty)], OrElse(warehouseId, Some(stock[i].warehouseId)))
    case None =>
      if kind == Decrease then Refused(InsufficientStock("Insufficient available stock for decrease"))
      else if warehouseId.Some? then
        Applied(stock + [StockRecord(productId, warehouseId.value, None, None, qty, 0)], warehouseId)
      else if companyWarehouses == [] then Stranded(NotFound("No warehouse found for company"))
      else Applied(stock + [StockRecord(productId, companyWarehouses[0], None, None, qty, 0)], None)
  }

  /** The effect as services/inventoryService.js:592-608 writes it: an INCREASE
      that names a warehouse holding no record of the product completes without
      touching the ledger. */
  function AdjustmentEffectAsWritten(stock: seq<StockRecord>, companyWarehouses: seq<int>, productId: int,
                                     warehouseId: Option<int>, kind: AdjustmentType, qty: nat): Effect
  {
    if FirstMatch(stock, AdjustmentQuery(productId, warehouseId)).None? && kind == Increase && warehouseId.Some? then
      Applied(stock, warehouseId)
    else AdjustmentEffect(stock, companyWarehouses, productId, warehouseId, kind, qty)
  }

  /** The as-written effect logs a COMPLETED increase of 5 units while the
      product's stock stays 0. */
  lemma AsWrittenIncreaseIsLost()
    ensures AdjustmentEffectAsWritten([], [3], 1, Some(3), Increase, 5) == Applied([], Some(3))
    ensures Total(AdjustmentEffectAsWritten([], [3], 1, Some(3), Increase, 5).stock, 1, OnHand) == 0
  {
  }

  /** An INCREASE is never refused; when it applies it adds exactly `qty` to the
      product's stock and changes no reservation and no other product. */
  lemma IncreaseAddsQuantity(stock: seq<StockRecord>, whs: seq<int>, productId: int,
                             warehouseId: Option<int>, qty: nat, p: int, col: Column)
    ensures !AdjustmentEffect(stock, whs, productId, warehouseId, Increase, qty).Refused?
    ensures var e := AdjustmentEffect(stock, whs, productId, warehouseId, Increase, qty);
            e.Applied? ==>
              Total(e.stock, p, col) == Total(stock, p, col) + (if p == productId && col == OnHand then qty else 0)
  {
    var e := AdjustmentEffect(stock, whs, productId, warehouseId, Increase, qty);
    match FirstMatch(stock, AdjustmentQuery(productId, warehouseId))
    case Some(i) =>
      TotalUpdate(stock, i, e.stock[i], p, col);
    case None =>
      if e.Applied? {
        TotalAppend(stock, e.stock[|stock|], p, col);
        assert e.stock == stock + [e.stock[|stock|]];
      }
  }

  /** A DECREASE is refused exactly when the product has no record (in the given
      warehouse) or the record's available stock is below `qty`. On a sound
      ledger an applied DECREASE removes exactly `qty`, never clamps, and keeps
      the ledger sound. */
  lemma DecreaseRemovesQuantity(stock: seq<StockRecord>, whs: seq<int>, productId: int,
                                warehouseId: Option<int>, qty: nat, p: int, col: Column)
    requires Sound(stock)
    ensures var e := AdjustmentEffect(stock, whs, productId, warehouseId, Decrease, qty);
            var found := FirstMatch(stock, AdjustmentQuery(productId, warehouseId));
            && !e.Stranded?
            && (e.Refused? <==> found.None? || stock[found.value].quantity - stock[found.value].reserved < qty)
    ensures var e := AdjustmentEffect(stock, whs, productId, warehouseId, Decrease, qty);
            e.Applied? ==>
              && Sound(e.stock)
              && Total(e.stock, p, col) == Total(stock, p, col) - (if p == productId && col == OnHand then qty else 0)
  {
    var e := AdjustmentEffect(stock, whs, productId, warehouseId, Decrease, qty);
    match FirstMatch(stock, AdjustmentQuery(productId, warehouseId))
    case Some(i) =>
      if e.Applied? {
        assert e.stock[i].quantity == stock[i].quantity - qty;
        TotalUpdate(stock, i, e.stock[i], p, col);
      }
    case None =>
  }

  /** An INCREASE keeps a sound ledger sound. */
  lemma IncreaseKeepsSound(stock: seq<StockRecord>, whs: seq<int>, productId: int, warehouseId: Option<int>, qty: nat)
    requires Sound(stock)
    ensures var e := AdjustmentEffect(stock, whs, productId, warehouseId, Increase, qty);
            e.Applied? ==> Sound(e.stock)
  {
    var e := AdjustmentEffect(stock, whs, productId, warehouseId, Increase, qty);
    if e.Applied? {
      forall k | 0 <= k < |e.stock|
        ensures 0 <= e.stock[k].reserved <= e.stock[k].quantity
      {
        if k < |stock| {
          assert e.stock[k].reserved == stock[k].reserved && e.stock[k].quantity >= stock[k].quantity;
        }
      }
    }
  }

  /** `createAdjustment`. A refused request writes nothing; an applied one logs a
      COMPLETED adjustment; a stranded one leaves its PENDING row behind. */
  method CreateAdjustment(db: Db, caller: Caller, req: AdjustmentRequest, reference: string) returns (r: Result<Adjustment>)
    modifies db`stock, db`adjustments
    ensures CheckAdjustment(db.products, caller, req).Err? ==>
              && r == Err(CheckAdjustment(db.products, caller, req).error)
              && db.stock == old(db.stock) && db.adjustments == old(db.adjustments)
    ensures CheckAdjustment(db.products, caller, req).Ok? ==>
              var a := CheckAdjustment(db.products, caller, req).value;
              var row := Adjustment(reference, a.companyId, req.productId, None, req.kind, a.quantity,
                                    req.reason, AdjustmentStatus.Pending, caller.id);
              match AdjustmentEffect(old(db.stock), CompanyWarehouses(db.warehouses, a.companyId),
                                     req.productId, req.warehouseId, req.kind, a.quantity)
              case Refused(e) =>
                r == Err(e) && db.stock == old(db.stock) && db.adjustments == old(db.adjustments)
              case Applied(s, w) =>
                && db.stock == s
                && r == Ok(row.(warehouseId := w, status := AdjustmentStatus.Completed))
                && db.adjustments == old(db.adjustments) + [r.value]
              case Stranded(e) =>
                r == Err(e) && db.stock == old(db.stock) && db.adjustments == old(db.adjustments) + [row]
  {
    var check := CheckAdjustment(db.products, caller, req);
    if check.Err? {
      return Err(check.error);
    }
    var a := check.value;
    var found := FindFirst(db.stock, AdjustmentQuery(req.productId, req.warehouseId));
    if req.kind == Decrease && (found.None? || db.stock[found.value].quantity - db.stock[found.value].reserved < a.quantity) {
      return Err(InsufficientStock("Insufficient available stock for decrease"));
    }
    var logged := OrElse(req.warehouseId, if found.Some? then Some(db.stock[found.value].warehouseId) else None);
    var pending := Adjustment(reference, a.companyId, req.productId, logged, req.kind, a.quantity,
                              req.reason, AdjustmentStatus.Pending, caller.id);
    var before := db.adjustments;
    db.adjustments := before + [pending];
    if found.Some? {
      var i := found.value;
      var newQty := if req.kind == Increase then db.stock[i].quantity + a.quantity
                    else Max(0, db.stock[i].quantity - a.quantity);
      db.stock := db.stock[i := db.stock[i].(quantity := newQty)];
    } else if req.kind == Increase {
      if req.warehouseId.Some? {
        db.stock := db.stock + [StockRecord(req.productId, req.warehouseId.value, None, None, a.quantity, 0)];
      } else {
        var ids := CompanyWarehouses(db.warehouses, a.companyId);
        if ids == [] {
          return Err(NotFound("No warehouse found for company"));
        }
        db.stock := db.stock + [StockRecord(req.productId, ids[0], None, None, a.quantity, 0)];
      }
    }
    var done := pending.(status := AdjustmentStatus.Completed);
    db.adjustments := before + [done];
    return Ok(done);
  }
}
