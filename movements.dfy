/** Location-to-location movements (`createMovement` and its `addStock` /
    `removeStock` helpers in services/inventoryService.js): a movement-log row
    plus the ledger change its type calls for, in one transaction. */
module Movements {
  import opened Common
  import opened Statuses
  import opened Ledger
  import opened Store

  /** The request body. `quantity` is what `parseInt` read (0 when unreadable);
      absent ids are `None`. */
  datatype MovementRequest = MovementRequest(
    productId: int, companyId: Option<int>, quantity: int, kind: MovementType,
    batchId: Option<int>, fromLocationId: Option<int>, toLocationId: Option<int>)

  predicate MayMove(role: Role)
  {
    role == SuperAdmin || role == CompanyAdmin || role == InventoryManager || role == WarehouseManager
  }

  /** The checks before the transaction: role, company context, product and
      tenant, and a positive quantity. The result is the company booked. */
  function CheckMovement(products: map<int, Product>, caller: Caller, req: MovementRequest): (r: Result<int>)
    ensures r.Ok? <==>
      && MayMove(caller.role)
      && OrElse(caller.companyId, req.companyId).Some?
      && req.productId in products
      && (caller.role == SuperAdmin || products[req.productId].companyId == OrElse(caller.companyId, req.companyId).value)
      && req.quantity > 0
    ensures r.Ok? ==> Some(r.value) == OrElse(caller.companyId, req.companyId)
  {
    if !MayMove(caller.role) then Err(Forbidden("Not allowed to create movement"))
    else
      var companyId := OrElse(caller.companyId, req.companyId);
      if companyId.None? then Err(Validation("Company context required"))
      else if req.productId !in products then Err(NotFound("Product not found"))
      else if products[req.productId].companyId != companyId.value && caller.role != SuperAdmin then
        Err(NotFound("Product not found"))
      else if req.quantity <= 0 then Err(Validation("Quantity must be greater than 0"))
      else Ok(companyId.value)
  }

  /** The batch number of the request's batch, when it names an existing one. */
  function BatchNumberOf(batches: map<int, Batch>, batchId: Option<int>): Option<string>
  {
    if batchId.Some? && batchId.value in batches then Some(batches[batchId.value].batchNumber) else None
  }

  /** The exact ledger key of a product at a location: the location's warehouse,
      the location, and the batch number or null. */
  function LocationKey(locations: map<int, Location>, productId: int, loc: int, batch: Option<string>): StockQuery
    requires loc in locations
  {
    StockQuery(productId, InWarehouse(locations[loc].warehouseId), Is(Some(loc)), Is(batch))
  }

  /** `addStock`: increment the record at the key, or create it. */
  function AddStock(stock: seq<StockRecord>, locations: map<int, Location>, productId: int,
                    loc: Option<int>, q: int, batch: Option<string>): Result<seq<StockRecord>>
  {
    if loc.None? then Err(Validation("Destination location required"))
    else if loc.value !in locations then Err(NotFound("Location not found"))
    else
      var key := LocationKey(locations, productId, loc.value, batch);
      Ok(Credit(stock, key, StockRecord(productId, locations[loc.value].warehouseId, loc, batch, q, 0), q))
  }

  /** `removeStock`: decrement the record at the key, which must exist and hold
      at least `q` on hand (reservations are not consulted). */
  function RemoveStock(stock: seq<StockRecord>, locations: map<int, Location>, productId: int,
                       loc: Option<int>, q: int, batch: Option<string>): Result<seq<StockRecord>>
  {
    if loc.None? then Err(Validation("Source location required"))
    else if loc.value !in locations then Err(NotFound("Location not found"))
    else
      match FirstMatch(stock, LocationKey(locations, productId, loc.value, batch))
      case None => Err(InsufficientStock("Insufficient stock at location"))
      case Some(i) =>
        if stock[i].quantity < q then Err(InsufficientStock("Insufficient stock at location"))
        else Ok(AddAt(stock, i, -q))
  }

  /** The ledger change of a movement type: RECEIVE and RETURN add at the
      destination, PICK removes at the source, TRANSFER removes then adds, ADJUST
      changes nothing. */
  function MoveStock(stock: seq<StockRecord>, locations: map<int, Location>, productId: int,
                     kind: MovementType, from: Option<int>, to: Option<int>, q: int,
                     batch: Option<string>): Result<seq<StockRecord>>
  {
    match kind
    case Receive => AddStock(stock, locations, productId, to, q, batch)
    case Return => AddStock(stock, locations, productId, to, q, batch)
    case Pick => RemoveStock(stock, locations, productId, from, q, batch)
    case Transfer =>
      (match RemoveStock(stock, locations, productId, from, q, batch)
       case Err(e) => Err(e)
       case Ok(s) => AddStock(s, locations, productId, to, q, batch))
    case Adjust => Ok(stock)
  }

  /** How much a movement type changes the product's total on hand. */
  function NetChange(kind: MovementType, q: int): int
  {
    match kind
    case Receive => q
    case Return => q
    case Pick => -q
    case Transfer => 0
    case Adjust => 0
  }

  /** Adding at a location raises the quantity held at its key by `q`, and the
      product's total by `q`. */
  lemma AddStockGives(stock: seq<StockRecord>, locations: map<int, Location>, productId: int,
                      loc: Option<int>, q: int, batch: Option<string>, p: int, col: Column)
    ensures AddStock(stock, locations, productId, loc, q, batch).Ok? <==> loc.Some? && loc.value in locations
    ensures var r := AddStock(stock, locations, productId, loc, q, batch);
            r.Ok? ==>
              && HeldAt(r.value, LocationKey(locations, productId, loc.value, batch))
                   == HeldAt(stock, LocationKey(locations, productId, loc.value, batch)) + q
              && Total(r.value, p, col) == Total(stock, p, col) + (if p == productId && col == OnHand then q else 0)
  {
    if loc.Some? && loc.value in locations {
      var key := LocationKey(locations, productId, loc.value, batch);
      var created := StockRecord(productId, locations[loc.value].warehouseId, loc, batch, q, 0);
      CreditHeldAt(stock, key, created, q);
      CreditTotals(stock, key, created, q, p);
    }
  }

  /** Removing at a location succeeds exactly when the record at its key holds at
      least `q`; it then lowers that record, and the product's total, by `q`. */
  lemma RemoveStockTakes(stock: seq<StockRecord>, locations: map<int, Location>, productId: int,
                         loc: Option<int>, q: int, batch: Option<string>, p: int, col: Column)
    ensures RemoveStock(stock, locations, productId, loc, q, batch).Ok? <==>
              && loc.Some? && loc.value in locations
              && FirstMatch(stock, LocationKey(locations, productId, loc.value, batch)).Some?
              && HeldAt(stock, LocationKey(locations, productId, loc.value, batch)) >= q
    ensures var r := RemoveStock(stock, locations, productId, loc, q, batch);
            r.Ok? ==>
              && HeldAt(r.value, LocationKey(locations, productId, loc.value, batch))
                   == HeldAt(stock, LocationKey(locations, productId, loc.value, batch)) - q
              && Total(r.value, p, col) == Total(stock, p, col) - (if p == productId && col == OnHand then q else 0)
  {
    if loc.Some? && loc.value in locations {
      var key := LocationKey(locations, productId, loc.value, batch);
      match FirstMatch(stock, key)
      case None =>
      case Some(i) =>
        if stock[i].quantity >= q {
          AddAtHeldAt(stock, key, -q);
          AddAtTotals(stock, i, -q, p);
        }
    }
  }

  /** A movement changes the product's total on hand by its net change only:
      RECEIVE and RETURN add `q`, PICK removes `q`, TRANSFER conserves the total.
      No reservation total and no other product changes. */
  lemma MoveStockTotals(stock: seq<StockRecord>, locations: map<int, Location>, productId: int,
                        kind: MovementType, from: Option<int>, to: Option<int>, q: int,
                        batch: Option<string>, p: int, col: Column)
    ensures var r := MoveStock(stock, locations, productId, kind, from, to, q, batch);
            r.Ok? ==>
              Total(r.value, p, col) == Total(stock, p, col) + (if p == productId && col == OnHand then NetChange(kind, q) else 0)
  {
    match kind
    case Receive => AddStockGives(stock, locations, productId, to, q, batch, p, col);
    case Return => AddStockGives(stock, locations, productId, to, q, batch, p, col);
    case Pick => RemoveStockTakes(stock, locations, productId, from, q, batch, p, col);
    case Transfer =>
      RemoveStockTakes(stock, locations, productId, from, q, batch, p, col);
      var r1 := RemoveStock(stock, locations, productId, from, q, batch);
      if r1.Ok? {
        AddStockGives(r1.value, locations, productId, to, q, batch, p, col);
      }
    case Adjust =>
  }

  /** A movement of a positive quantity never drives a record negative. */
  lemma MoveStockKeepsNonNegative(stock: seq<StockRecord>, locations: map<int, Location>, productId: int,
                                  kind: MovementType, from: Option<int>, to: Option<int>, q: int,
                                  batch: Option<string>)
    requires NonNegative(stock) && q > 0
    ensures var r := MoveStock(stock, locations, productId, kind, from, to, q, batch);
            r.Ok? ==> NonNegative(r.value)
  {
    var r1 := RemoveStock(stock, locations, productId, from, q, batch);
    if r1.Ok? {
      RemoveKeepsNonNegative(stock, locations, productId, from, q, batch);
      AddKeepsNonNegative(r1.value, locations, productId, to, q, batch);
    }
    AddKeepsNonNegative(stock, locations, productId, to, q, batch);
  }

  lemma AddKeepsNonNegative(stock: seq<StockRecord>, locations: map<int, Location>, productId: int,
                            loc: Option<int>, q: int, batch: Option<string>)
    requires NonNegative(stock) && q > 0
    ensures var r := AddStock(stock, locations, productId, loc, q, batch);
            r.Ok? ==> NonNegative(r.value)
  {
    var r := AddStock(stock, locations, productId, loc, q, batch);
    if r.Ok? {
      assert forall k :: 0 <= k < |stock| ==> r.value[k].quantity >= stock[k].quantity;
    }
  }

  lemma RemoveKeepsNonNegative(stock: seq<StockRecord>, locations: map<int, Location>, productId: int,
                               loc: Option<int>, q: int, batch: Option<string>)
    requires NonNegative(stock)
    ensures var r := RemoveStock(stock, locations, productId, loc, q, batch);
            r.Ok? ==> NonNegative(r.value)
  {
  }

  /** `addStock` on the database. */
  method AddStockAt(db: Db, productId: int, loc: Option<int>, q: int, batch: Option<string>)
    returns (err: Option<Error>)
    modifies db`stock
    ensures AddStock(old(db.stock), db.locations, productId, loc, q, batch)
         == if err.Some? then Err(err.value) else Ok(db.stock)
    ensures err.Some? ==> db.stock == old(db.stock)
  {
    if loc.None? {
      return Some(Validation("Destination location required"));
    }
    if loc.value !in db.locations {
      return Some(NotFound("Location not found"));
    }
    var w := db.locations[loc.value].warehouseId;
    var key := LocationKey(db.locations, productId, loc.value, batch);
    var found := FindFirst(db.stock, key);
    if found.Some? {
      var i := found.value;
      db.stock := db.stock[i := db.stock[i].(quantity := db.stock[i].quantity + q)];
    } else {
      db.stock := db.stock + [StockRecord(productId, w, loc, batch, q, 0)];
    }
    return None;
  }

  /** `removeStock` on the database. */
  method RemoveStockAt(db: Db, productId: int, loc: Option<int>, q: int, batch: Option<string>)
    returns (err: Option<Error>)
    modifies db`stock
    ensures RemoveStock(old(db.stock), db.locations, productId, loc, q, batch)
         == if err.Some? then Err(err.value) else Ok(db.stock)
    ensures err.Some? ==> db.stock == old(db.stock)
  {
    if loc.None? {
      return Some(Validation("Source location required"));
    }
    if loc.value !in db.locations {
      return Some(NotFound("Location not found"));
    }
    var found := FindFirst(db.stock, LocationKey(db.locations, productId, loc.value, batch));
    if found.None? || db.stock[found.value].quantity < q {
      return Some(InsufficientStock("Insufficient stock at location"));
    }
    var i := found.value;
    db.stock := db.stock[i := db.stock[i].(quantity := db.stock[i].quantity - q)];
    return None;
  }

  /** The ledger dispatch of `createMovement`. On an error the ledger may hold a
      partial TRANSFER; the caller rolls it back. */
  method ApplyMove(db: Db, productId: int, kind: MovementType, from: Option<int>, to: Option<int>,
                   q: int, batch: Option<string>) returns (err: Option<Error>)
    modifies db`stock
    ensures MoveStock(old(db.stock), db.locations, productId, kind, from, to, q, batch)
         == if err.Some? then Err(err.value) else Ok(db.stock)
  {
    match kind {
      case Receive =>
        err := AddStockAt(db, productId, to, q, batch);
      case Return =>
        err := AddStockAt(db, productId, to, q, batch);
      case Pick =>
        err := RemoveStockAt(db, productId, from, q, batch);
      case Transfer =>
        err := RemoveStockAt(db, productId, from, q, batch);
        if err.None? {
          err := AddStockAt(db, productId, to, q, batch);
        }
      case Adjust =>
        err := None;
    }
  }

  /** `createMovement`. Failures before the transaction write nothing; a failure
      inside it rolls back both the log row and the ledger. */
  method CreateMovement(db: Db, caller: Caller, req: MovementRequest) returns (r: Result<Movement>)
    modifies db`stock, db`movements
    ensures CheckMovement(db.products, caller, req).Err? ==>
              && r == Err(CheckMovement(db.products, caller, req).error)
              && db.stock == old(db.stock) && db.movements == old(db.movements)
    ensures CheckMovement(db.products, caller, req).Ok? ==>
              var row := Movement(CheckMovement(db.products, caller, req).value, req.kind, req.productId,
                                  req.batchId, req.fromLocationId, req.toLocationId, req.quantity, caller.id);
              match MoveStock(old(db.stock), db.locations, req.productId, req.kind, req.fromLocationId,
                              req.toLocationId, req.quantity, BatchNumberOf(db.batches, req.batchId))
              case Err(e) => r == Err(e) && db.stock == old(db.stock) && db.movements == old(db.movements)
              case Ok(s) => r == Ok(row) && db.stock == s && db.movements == old(db.movements) + [row]
  {
    var check := CheckMovement(db.products, caller, req);
    if check.Err? {
      return Err(check.error);
    }
    var batch := BatchNumberOf(db.batches, req.batchId);
    var row := Movement(check.value, req.kind, req.productId, req.batchId, req.fromLocationId,
                        req.toLocationId, req.quantity, caller.id);
    var snapshot, logged := db.stock, db.movements;
    db.movements := db.movements + [row];
    var err := ApplyMove(db, req.productId, req.kind, req.fromLocationId, req.toLocationId, req.quantity, batch);
    if err.Some? {
      db.stock, db.movements := snapshot, logged;
      return Err(err.value);
    }
    return Ok(row);
  }
}
