/** Shipments (services/shipmentService.js): creation from a PACKED order, status
    updates that move the order along and deduct the order's stock once, on the
    update that first puts the shipment on the road, and the explicit deduction
    call, which has no such guard. */
module Shipments {
  import opened Common
  import opened Statuses
  import opened Ledger
  import opened Store

  /** SHIPPED, IN_TRANSIT or DELIVERED: the goods have left the warehouse. */
  predicate OnTheRoad(s: DeliveryStatus)
  {
    s == DeliveryStatus.Shipped || s == InTransit || s == DeliveryStatus.Delivered
  }

  /** An update deducts stock exactly when it moves the shipment onto the road. */
  predicate Crosses(before: DeliveryStatus, after: DeliveryStatus)
  {
    OnTheRoad(after) && !OnTheRoad(before)
  }

  /** A status written into a request: one of the six, or any other text, which
      the shipment row's validation refuses. */
  datatype StatusInput = Known(status: DeliveryStatus) | Unknown(text: string)

  /** The order status an update writes: SHIPPED, IN_TRANSIT, FAILED and RETURNED
      give SHIPPED, DELIVERED gives DELIVERED; READY_TO_SHIP or no status leaves
      the order as it is. */
  function OrderStatusAfter(requested: Option<DeliveryStatus>, current: OrderStatus): (s: OrderStatus)
    ensures requested == Some(DeliveryStatus.Delivered) ==> s == OrderStatus.Delivered
    ensures requested.Some? && requested.value != DeliveryStatus.Delivered && requested.value != ReadyToShip ==>
              s == OrderStatus.Shipped
    ensures requested.None? || requested == Some(ReadyToShip) ==> s == current
  {
    match requested
    case None => current
    case Some(d) =>
      match d
      case ReadyToShip => current
      case Delivered => OrderStatus.Delivered
      case _ => OrderStatus.Shipped
  }

  /** The items of one order, in table order. */
  function ItemsOf(items: seq<OrderItem>, orderId: int): (r: seq<OrderItem>)
    ensures forall x :: x in r <==> x in items && x.salesOrderId == orderId
    ensures |r| <= |items|
  {
    if items == [] then []
    else
      var rest := ItemsOf(items[..|items| - 1], orderId);
      var last := items[|items| - 1];
      assert items == items[..|items| - 1] + [last];
      if last.salesOrderId == orderId then rest + [last] else rest
  }

  /** The warehouse of the order's first pick list, when it has one. */
  function PickWarehouse(pickLists: seq<PickList>, orderId: int): (w: Option<int>)
    ensures w.Some? ==> exists i :: 0 <= i < |pickLists| && pickLists[i].salesOrderId == orderId && pickLists[i].warehouseId == w.value
    ensures (forall i :: 0 <= i < |pickLists| ==> pickLists[i].salesOrderId != orderId) ==> w.None?
  {
    if pickLists == [] then None
    else if pickLists[0].salesOrderId == orderId then (if pickLists[0].warehouseId != 0 then Some(pickLists[0].warehouseId) else None)
    else
      var w := PickWarehouse(pickLists[1..], orderId);
      assert forall i :: 1 <= i < |pickLists| ==> pickLists[i] == pickLists[1..][i - 1];
      w
  }

  function ProductQuery(productId: int, scope: WarehouseScope): StockQuery
  {
    StockQuery(productId, scope, Any, Any)
  }

  /** The record a shipped item is taken from: the product's first record in the
      pick list's warehouse, else in any of the company's warehouses, else
      anywhere. */
  function Source(stock: seq<StockRecord>, pickWh: Option<int>, whs: seq<int>, productId: int): (r: Option<nat>)
    ensures r.Some? ==> r.value < |stock| && stock[r.value].productId == productId
    ensures r.None? <==> forall j :: 0 <= j < |stock| ==> stock[j].productId != productId
    ensures pickWh.Some? && FirstMatch(stock, ProductQuery(productId, InWarehouse(pickWh.value))).Some? ==>
              r == FirstMatch(stock, ProductQuery(productId, InWarehouse(pickWh.value)))
    ensures (pickWh.None? || FirstMatch(stock, ProductQuery(productId, InWarehouse(pickWh.value))).None?)
            && FirstMatch(stock, ProductQuery(productId, AmongWarehouses(whs))).Some? ==>
              r.Some? && stock[r.value].warehouseId in whs
  {
    var first := if pickWh.Some? then FirstMatch(stock, ProductQuery(productId, InWarehouse(pickWh.value))) else None;
    var second := if first.None? && whs != [] then FirstMatch(stock, ProductQuery(productId, AmongWarehouses(whs))) else first;
    if second.Some? then second
    else
      var any := FirstMatch(stock, ProductQuery(productId, AnyWarehouse));
      assert forall j :: 0 <= j < |stock| ==> (Matches(stock[j], ProductQuery(productId, AnyWarehouse)) <==> stock[j].productId == productId);
      any
  }

  /** The deduction from one record: `d` units off the quantity and, clamped at
      zero, off the reservation. */
  function Take(stock: seq<StockRecord>, i: nat, d: int): seq<StockRecord>
    requires i < |stock|
  {
    stock[i := stock[i].(quantity := stock[i].quantity - d, reserved := Max(0, stock[i].reserved - d))]
  }

  /** The ledger after one item, and whether anything was deducted for it. */
  datatype Deduction = Deduction(stock: seq<StockRecord>, deducted: nat)

  /** One item: skipped without a product or a positive quantity; otherwise
      `min(quantity, record quantity)` is taken from its source record when that
      is positive. */
  function DeductItem(stock: seq<StockRecord>, pickWh: Option<int>, whs: seq<int>, item: OrderItem): Deduction
  {
    if item.productId == 0 || item.quantity <= 0 then Deduction(stock, 0)
    else
      match Source(stock, pickWh, whs, item.productId)
      case None => Deduction(stock, 0)
      case Some(i) =>
        var d := Min(item.quantity, stock[i].quantity);
        if d > 0 then Deduction(Take(stock, i, d), 1) else Deduction(stock, 0)
  }

  /** The deduction loop over the order's items, counting the items deducted. */
  function DeductAll(stock: seq<StockRecord>, pickWh: Option<int>, whs: seq<int>, items: seq<OrderItem>): Deduction
  {
    if items == [] then Deduction(stock, 0)
    else
      var before := DeductAll(stock, pickWh, whs, items[..|items| - 1]);
      var step := DeductItem(before.stock, pickWh, whs, items[|items| - 1]);
      Deduction(step.stock, before.deducted + step.deducted)
  }

  /** The units of one product that the items ask for. */
  function Demand(items: seq<OrderItem>, productId: int): nat
  {
    if items == [] then 0
    else
      var last := items[|items| - 1];
      Demand(items[..|items| - 1], productId)
        + (if last.productId == productId && last.productId != 0 && last.quantity > 0 then last.quantity else 0)
  }

  /** One item never takes more than it asks for nor more than the record holds:
      the record's quantity stays at or above zero, its reservation stays within
      it, and the product's total drops by at most the item's quantity. */
  lemma DeductItemBounds(stock: seq<StockRecord>, pickWh: Option<int>, whs: seq<int>, item: OrderItem, p: int)
    ensures var r := DeductItem(stock, pickWh, whs, item);
            && (NonNegative(stock) ==> NonNegative(r.stock))
            && (Sound(stock) ==> Sound(r.stock))
            && Total(r.stock, p, OnHand) <= Total(stock, p, OnHand)
            && Total(r.stock, p, OnHand)
                 >= Total(stock, p, OnHand) - (if item.productId == p && p != 0 && item.quantity > 0 then item.quantity else 0)
            && |r.stock| == |stock|
  {
    if item.productId != 0 && item.quantity > 0 {
      match Source(stock, pickWh, whs, item.productId)
      case None =>
      case Some(i) =>
        var d := Min(item.quantity, stock[i].quantity);
        if d > 0 {
          TotalUpdate(stock, i, Take(stock, i, d)[i], p, OnHand);
        }
    }
  }

  /** The whole loop keeps the ledger non-negative and sound, and takes from
      each product at most what the order asks for. */
  lemma {:induction false} DeductAllBounds(stock: seq<StockRecord>, pickWh: Option<int>, whs: seq<int>,
                                           items: seq<OrderItem>, p: int)
    ensures var r := DeductAll(stock, pickWh, whs, items);
            && (NonNegative(stock) ==> NonNegative(r.stock))
            && (Sound(stock) ==> Sound(r.stock))
            && Total(stock, p, OnHand) - Demand(items, p) <= Total(r.stock, p, OnHand) <= Total(stock, p, OnHand)
            && r.deducted <= |items|
  {
    if items != [] {
      var init := items[..|items| - 1];
      DeductAllBounds(stock, pickWh, whs, init, p);
      DeductItemBounds(DeductAll(stock, pickWh, whs, init).stock, pickWh, whs, items[|items| - 1], p);
    }
  }

  /** The number of deductions a run of status updates triggers. */
  function Crossings(start: DeliveryStatus, updates: seq<DeliveryStatus>): nat
  {
    if updates == [] then 0
    else
      var before := if |updates| == 1 then start else updates[|updates| - 2];
      Crossings(start, updates[..|updates| - 1]) + (if Crosses(before, updates[|updates| - 1]) then 1 else 0)
  }

  /** Updates that stay on the road deduct at most once: once, on the first of
      them, when the shipment was not already on the road. */
  lemma {:induction false} OnTheRoadDeductsOnce(start: DeliveryStatus, updates: seq<DeliveryStatus>)
    requires forall k :: 0 <= k < |updates| ==> OnTheRoad(updates[k])
    ensures Crossings(start, updates) == (if updates != [] && !OnTheRoad(start) then 1 else 0)
  {
    if updates != [] {
      OnTheRoadDeductsOnce(start, updates[..|updates| - 1]);
    }
  }

  /** Leaving the road and coming back deducts again: a shipment marked
      SHIPPED, then RETURNED, then SHIPPED deducts its stock twice. */
  lemma ReturnedAndReshippedDeductsTwice()
    ensures Crossings(ReadyToShip, [DeliveryStatus.Shipped, DeliveryStatus.Returned, DeliveryStatus.Shipped]) == 2
  {
    var u := [DeliveryStatus.Shipped, DeliveryStatus.Returned, DeliveryStatus.Shipped];
    assert u[..2] == [DeliveryStatus.Shipped, DeliveryStatus.Returned];
    assert u[..2][..1] == [DeliveryStatus.Shipped];
    assert u[..2][..1][..0] == [];
    assert Crossings(ReadyToShip, u[..2][..1]) == 1;
    assert Crossings(ReadyToShip, u[..2]) == 1;
  }

  /** At most one shipment per order. */
  predicate OneShipmentPerOrder(shipments: map<int, Shipment>)
  {
    forall a, b :: a in shipments && b in shipments && shipments[a].salesOrderId == shipments[b].salesOrderId ==> a == b
  }

  predicate HasShipment(shipments: map<int, Shipment>, orderId: int)
  {
    exists s :: s in shipments && shipments[s].salesOrderId == orderId
  }

  /** The checks of `create`: the order exists and is PACKED, belongs to the
      caller's company, and has no shipment yet. */
  function CheckCreate(orders: map<int, SalesOrder>, shipments: map<int, Shipment>, caller: Caller, orderId: int): (r: Result<Shipment>)
    ensures r.Ok? <==>
      && orderId in orders
      && orders[orderId].status == OrderStatus.Packed
      && SeesCompany(caller, orders[orderId].companyId)
      && !HasShipment(shipments, orderId)
    ensures r.Ok? ==> r.value == Shipment(orderId, orders[orderId].companyId, caller.id, ReadyToShip)
  {
    if orderId !in orders then Err(NotFound("Order not found"))
    else if orders[orderId].status != OrderStatus.Packed then Err(InvalidTransition("Order must be packed first"))
    else if !SeesCompany(caller, orders[orderId].companyId) then Err(NotFound("Order not found"))
    else if HasShipment(shipments, orderId) then Err(Conflict("This order already has a shipment"))
    else Ok(Shipment(orderId, orders[orderId].companyId, caller.id, ReadyToShip))
  }

  /** A shipment admitted by `create`, stored under a new id, keeps at most one
      shipment per order. */
  lemma CreateKeepsOneShipmentPerOrder(orders: map<int, SalesOrder>, shipments: map<int, Shipment>,
                                       caller: Caller, orderId: int, id: int)
    requires OneShipmentPerOrder(shipments) && id !in shipments
    requires CheckCreate(orders, shipments, caller, orderId).Ok?
    ensures OneShipmentPerOrder(shipments[id := CheckCreate(orders, shipments, caller, orderId).value])
  {
    assert !HasShipment(shipments, orderId);
  }

  /** `create`: a READY_TO_SHIP shipment under a new id; the order stays PACKED. */
  method CreateShipment(db: Db, caller: Caller, orderId: int) returns (r: Result<int>)
    requires db.Valid()
    modifies db`nextId, db`shipments
    ensures db.Valid()
    ensures match CheckCreate(db.orders, old(db.shipments), caller, orderId)
            case Err(e) => r == Err(e) && db.shipments == old(db.shipments) && db.nextId == old(db.nextId)
            case Ok(s) => r == Ok(old(db.nextId)) && r.value !in old(db.shipments) && db.shipments == old(db.shipments)[r.value := s]
  {
    var check := CheckCreate(db.orders, db.shipments, caller, orderId);
    if check.Err? {
      return Err(check.error);
    }
    var id := db.AddShipment(check.value);
    return Ok(id);
  }

  /** The request of `update`; only the status matters to the core. */
  datatype ShipmentUpdate = ShipmentUpdate(deliveryStatus: Option<StatusInput>)

  /** The checks of `update`: the shipment exists in the caller's company and a
      given status is one of the six. The result is the requested status. */
  function CheckUpdate(shipments: map<int, Shipment>, caller: Caller, id: int, req: ShipmentUpdate): (r: Result<Option<DeliveryStatus>>)
    ensures r.Ok? <==>
      && id in shipments && SeesCompany(caller, shipments[id].companyId)
      && (req.deliveryStatus.None? || req.deliveryStatus.value.Known?)
    ensures r.Ok? ==> (r.value.Some? <==> req.deliveryStatus.Some?)
    ensures r.Ok? && r.value.Some? ==> req.deliveryStatus == Some(Known(r.value.value))
  {
    if id !in shipments || !SeesCompany(caller, shipments[id].companyId) then Err(NotFound("Shipment not found"))
    else match req.deliveryStatus
      case None => Ok(None)
      case Some(Known(s)) => Ok(Some(s))
      case Some(Unknown(_)) => Err(Validation("Invalid delivery status"))
  }

  /** The deduction loop on the database. */
  method DeductItems(db: Db, pickWh: Option<int>, whs: seq<int>, items: seq<OrderItem>) returns (deducted: nat)
    modifies db`stock
    ensures DeductAll(old(db.stock), pickWh, whs, items) == Deduction(db.stock, deducted)
  {
    deducted := 0;
    var i := 0;
    while i < |items|
      invariant 0 <= i <= |items|
      invariant DeductAll(old(db.stock), pickWh, whs, items[..i]) == Deduction(db.stock, deducted)
    {
      var item := items[i];
      assert items[..i + 1][..i] == items[..i];
      if item.productId != 0 && item.quantity > 0 {
        var found := Source(db.stock, pickWh, whs, item.productId);
        if found.Some? {
          var k := found.value;
          var d := Min(item.quantity, db.stock[k].quantity);
          if d > 0 {
            db.stock := Take(db.stock, k, d);
            deducted := deducted + 1;
          }
        }
      }
      i := i + 1;
    }
    assert items[..i] == items;
  }

  /** The warehouses an order's deduction may read: its pick list's, and its
      company's (none for company 0). */
  function CompanyScope(ws: seq<Warehouse>, companyId: int): seq<int>
  {
    if companyId != 0 then CompanyWarehouses(ws, companyId) else []
  }

  /** `update`. The shipment takes the requested status; when its order exists,
      the order follows the request, and the order's stock is deducted exactly
      when the update crosses onto the road. */
  method UpdateShipment(db: Db, caller: Caller, id: int, req: ShipmentUpdate) returns (r: Result<Shipment>)
    modifies db`shipments, db`orders, db`stock
    ensures CheckUpdate(old(db.shipments), caller, id, req).Err? ==>
              && r == Err(CheckUpdate(old(db.shipments), caller, id, req).error)
              && db.shipments == old(db.shipments) && db.orders == old(db.orders) && db.stock == old(db.stock)
    ensures CheckUpdate(old(db.shipments), caller, id, req).Ok? ==>
              var requested := CheckUpdate(old(db.shipments), caller, id, req).value;
              var s := old(db.shipments)[id];
              var s' := s.(deliveryStatus := GetOr(requested, s.deliveryStatus));
              && r == Ok(s')
              && db.shipments == old(db.shipments)[id := s']
              && (s.salesOrderId !in old(db.orders) ==> db.orders == old(db.orders) && db.stock == old(db.stock))
              && (s.salesOrderId in old(db.orders) ==>
                    var o := old(db.orders)[s.salesOrderId];
                    && db.orders == old(db.orders)[s.salesOrderId := o.(status := OrderStatusAfter(requested, o.status))]
                    && db.stock == (if Crosses(s.deliveryStatus, s'.deliveryStatus)
                                    then DeductAll(old(db.stock), PickWarehouse(db.pickLists, s.salesOrderId),
                                                   CompanyScope(db.warehouses, o.companyId),
                                                   ItemsOf(db.orderItems, s.salesOrderId)).stock
                                    else old(db.stock)))
  {
    var check := CheckUpdate(db.shipments, caller, id, req);
    if check.Err? {
      return Err(check.error);
    }
    var requested := check.value;
    var s := db.shipments[id];
    var s' := s.(deliveryStatus := GetOr(requested, s.deliveryStatus));
    var crossing := Crosses(s.deliveryStatus, s'.deliveryStatus);
    db.shipments := db.shipments[id := s'];
    var orderId := s.salesOrderId;
    if orderId !in db.orders {
      return Ok(s');
    }
    var o := db.orders[orderId];
    db.orders := db.orders[orderId := o.(status := OrderStatusAfter(requested, o.status))];
    if crossing {
      var _ := DeductItems(db, PickWarehouse(db.pickLists, orderId), CompanyScope(db.warehouses, o.companyId),
                           ItemsOf(db.orderItems, orderId));
    }
    return Ok(s');
  }

  /** The checks of `deductStockForShipment`: the shipment exists in the caller's
      company and is on the road, its order exists and has items. */
  function CheckDeduct(shipments: map<int, Shipment>, orders: map<int, SalesOrder>, orderItems: seq<OrderItem>,
                       caller: Caller, id: int): (r: Result<int>)
    ensures r.Ok? <==>
      && id in shipments && SeesCompany(caller, shipments[id].companyId)
      && OnTheRoad(shipments[id].deliveryStatus)
      && shipments[id].salesOrderId in orders
      && ItemsOf(orderItems, shipments[id].salesOrderId) != []
    ensures r.Ok? ==> r.value == shipments[id].salesOrderId
  {
    if id !in shipments || !SeesCompany(caller, shipments[id].companyId) then Err(NotFound("Shipment not found"))
    else if !OnTheRoad(shipments[id].deliveryStatus) then Err(InvalidTransition("Only shipped/delivered shipments can deduct stock"))
    else if shipments[id].salesOrderId !in orders then Err(NotFound("Order not found"))
    else if ItemsOf(orderItems, shipments[id].salesOrderId) == [] then Err(Validation("No order items found for this shipment"))
    else Ok(shipments[id].salesOrderId)
  }

  /** `deductStockForShipment`: the same loop, with no once-only guard; the
      result is the number of items deducted. */
  method DeductStockForShipment(db: Db, caller: Caller, id: int) returns (r: Result<nat>)
    modifies db`stock
    ensures CheckDeduct(db.shipments, db.orders, db.orderItems, caller, id).Err? ==>
              r == Err(CheckDeduct(db.shipments, db.orders, db.orderItems, caller, id).error) && db.stock == old(db.stock)
    ensures CheckDeduct(db.shipments, db.orders, db.orderItems, caller, id).Ok? ==>
              var orderId := CheckDeduct(db.shipments, db.orders, db.orderItems, caller, id).value;
              var d := DeductAll(old(db.stock), PickWarehouse(db.pickLists, orderId),
                                 CompanyScope(db.warehouses, db.orders[orderId].companyId), ItemsOf(db.orderItems, orderId));
              r == Ok(d.deducted) && db.stock == d.stock
  {
    var check := CheckDeduct(db.shipments, db.orders, db.orderItems, caller, id);
    if check.Err? {
      return Err(check.error);
    }
    var orderId := check.value;
    var deducted := DeductItems(db, PickWarehouse(db.pickLists, orderId),
                                CompanyScope(db.warehouses, db.orders[orderId].companyId), ItemsOf(db.orderItems, orderId));
    return Ok(deducted);
  }
}
