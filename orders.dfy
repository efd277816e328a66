/** Sales orders (services/orderService.js): creation with its items, total and
    the pick list and packing task of a confirmed order; editing and deleting,
    both allowed only before picking starts. */
module Orders {
  import opened Common
  import opened Statuses
  import opened Numbering
  import opened Store
  import opened Shipments

  // ------------------------------------------------------------------ items

  /** One requested line; a missing quantity is 0, a missing unit price `None`. */
  datatype OrderRow = OrderRow(productId: int, quantity: int, unitPrice: Option<int>)

  /** `row.quantity || 1`. */
  function RowQuantity(row: OrderRow): int
  {
    if row.quantity != 0 then row.quantity else 1
  }

  /** A row is kept when its product exists and belongs to the order's company. */
  predicate Accepted(products: map<int, Product>, companyId: int, row: OrderRow)
  {
    row.productId in products && products[row.productId].companyId == companyId
  }

  /** The item a kept row becomes; the unit price defaults to the product's. */
  function ItemFor(products: map<int, Product>, orderId: int, row: OrderRow): OrderItem
    requires row.productId in products
  {
    OrderItem(orderId, row.productId, RowQuantity(row), GetOr(row.unitPrice, products[row.productId].price))
  }

  /** The items of the kept rows, in row order. */
  function OrderItemsFor(products: map<int, Product>, companyId: int, orderId: int, rows: seq<OrderRow>): seq<OrderItem>
  {
    if rows == [] then []
    else
      var rest := OrderItemsFor(products, companyId, orderId, rows[..|rows| - 1]);
      if Accepted(products, companyId, rows[|rows| - 1]) then rest + [ItemFor(products, orderId, rows[|rows| - 1])] else rest
  }

  /** Every item is a non-zero quantity of a product of the company, belonging
      to the order, and every kept row has its item. */
  lemma {:induction false} OrderItemsForSound(products: map<int, Product>, companyId: int, orderId: int, rows: seq<OrderRow>)
    ensures var items := OrderItemsFor(products, companyId, orderId, rows);
            && |items| <= |rows|
            && (forall k :: 0 <= k < |items| ==>
                  && items[k].salesOrderId == orderId && items[k].quantity != 0
                  && items[k].productId in products && products[items[k].productId].companyId == companyId)
            && (forall k :: 0 <= k < |rows| && Accepted(products, companyId, rows[k]) ==> ItemFor(products, orderId, rows[k]) in items)
  {
    if rows != [] {
      var n := |rows| - 1;
      OrderItemsForSound(products, companyId, orderId, rows[..n]);
      assert forall k :: 0 <= k < n ==> rows[..n][k] == rows[k];
    }
  }

  /** The rows of two requests together give the items of each, one after the
      other: each row is judged on its own. */
  lemma {:induction false} OrderItemsSplit(products: map<int, Product>, companyId: int, orderId: int, a: seq<OrderRow>, b: seq<OrderRow>)
    ensures OrderItemsFor(products, companyId, orderId, a + b)
         == OrderItemsFor(products, companyId, orderId, a) + OrderItemsFor(products, companyId, orderId, b)
  {
    if b != [] {
      var n := |b| - 1;
      assert (a + b)[..|a + b| - 1] == a + b[..n];
      OrderItemsSplit(products, companyId, orderId, a, b[..n]);
    } else {
      assert a + b == a;
    }
  }

  /** Σ unitPrice × quantity. */
  function Amount(items: seq<OrderItem>): int
  {
    if items == [] then 0
    else Amount(items[..|items| - 1]) + items[|items| - 1].unitPrice * items[|items| - 1].quantity
  }

  /** The amount of two item lists together is the sum of their amounts. */
  lemma {:induction false} AmountSplit(a: seq<OrderItem>, b: seq<OrderItem>)
    ensures Amount(a + b) == Amount(a) + Amount(b)
  {
    if b != [] {
      var n := |b| - 1;
      assert (a + b)[..|a + b| - 1] == a + b[..n];
      AmountSplit(a, b[..n]);
    } else {
      assert a + b == a;
    }
  }

  /** The order total counts only kept rows: appending a row whose product is
      missing or foreign changes neither the items nor the total, and a kept
      row adds its quantity times its price. */
  lemma RowContribution(products: map<int, Product>, companyId: int, orderId: int, rows: seq<OrderRow>, row: OrderRow)
    ensures !Accepted(products, companyId, row) ==>
              OrderItemsFor(products, companyId, orderId, rows + [row]) == OrderItemsFor(products, companyId, orderId, rows)
    ensures Accepted(products, companyId, row) ==>
              Amount(OrderItemsFor(products, companyId, orderId, rows + [row]))
              == Amount(OrderItemsFor(products, companyId, orderId, rows))
                 + RowQuantity(row) * GetOr(row.unitPrice, products[row.productId].price)
  {
    assert (rows + [row])[..|rows|] == rows;
    if Accepted(products, companyId, row) {
      var items := OrderItemsFor(products, companyId, orderId, rows) + [ItemFor(products, orderId, row)];
      assert items[..|items| - 1] == OrderItemsFor(products, companyId, orderId, rows);
    }
  }

  // ------------------------------------------------------------- numbering

  /** `ORD-<clock>-<count + 1 padded to 4>`; `stamp` stands for `Date.now()`. */
  function OrderNumber(stamp: string, count: nat): string
  {
    Numbered("ORD-" + stamp + "-", count + 1, 4)
  }

  /** Under one clock reading, different counts give different numbers. */
  lemma OrderNumberInjective(stamp: string, a: nat, b: nat)
    requires OrderNumber(stamp, a) == OrderNumber(stamp, b)
    ensures a == b
  {
    NumberedInjective("ORD-" + stamp + "-", a + 1, b + 1, 4);
  }

  function CompanyOrderCount(orders: map<int, SalesOrder>, companyId: int): nat
  {
    |set id | id in orders && orders[id].companyId == companyId|
  }

  // ------------------------------------------------------- pick list spawn

  /** The company's first warehouse in table order, if any. */
  function FirstWarehouse(ws: seq<Warehouse>, companyId: int): Option<int>
  {
    var ids := CompanyWarehouses(ws, companyId);
    if ids == [] then None else Some(ids[0])
  }

  /** There is a first warehouse exactly when the company has one, and it is
      one of the company's. */
  lemma FirstWarehouseOfCompany(ws: seq<Warehouse>, companyId: int)
    ensures FirstWarehouse(ws, companyId).Some? <==> exists i :: 0 <= i < |ws| && ws[i].companyId == companyId
    ensures FirstWarehouse(ws, companyId).Some? ==>
              exists i :: 0 <= i < |ws| && ws[i].companyId == companyId && ws[i].id == FirstWarehouse(ws, companyId).value
  {
    var ids := CompanyWarehouses(ws, companyId);
    CompanyWarehousesMembers(ws, companyId);
    assert forall i :: 0 <= i < |ws| && ws[i].companyId == companyId ==> ws[i].id in ids;
    if ids != [] {
      assert ids[0] in ids;
      var i :| 0 <= i < |ws| && ws[i].companyId == companyId && ws[i].id == ids[0];
      assert FirstWarehouse(ws, companyId) == Some(ws[i].id);
    }
  }

  /** As written: one pick-list item per requested row, whether or not the row
      was kept, requiring `row.quantity || 1`. */
  function PickItemsAsWritten(pickListId: int, rows: seq<OrderRow>): (ps: seq<PickListItem>)
    ensures |ps| == |rows|
    ensures forall k :: 0 <= k < |rows| ==> ps[k] == PickListItem(pickListId, rows[k].productId, RowQuantity(rows[k]), 0)
  {
    if rows == [] then []
    else PickItemsAsWritten(pickListId, rows[..|rows| - 1]) + [PickListItem(pickListId, rows[|rows| - 1].productId, RowQuantity(rows[|rows| - 1]), 0)]
  }

  /** As written, a pick list is spawned and the order confirmed when the
      company has a warehouse and the request had rows. */
  predicate SpawnsAsWritten(ws: seq<Warehouse>, companyId: int, rows: seq<OrderRow>)
  {
    FirstWarehouse(ws, companyId).Some? && |rows| > 0
  }

  /** An order whose only row names another company's product: as written it
      has no items, yet it is confirmed and its pick list asks for that foreign
      product. */
  lemma AsWrittenPicksSkippedRow()
    ensures var products := map[7 := Product(2, "SKU-7", "Other", 100)];
            var rows := [OrderRow(7, 3, None)];
            var ws := [Warehouse(1, 1)];
            && OrderItemsFor(products, 1, 10, rows) == []
            && SpawnsAsWritten(ws, 1, rows)
            && PickItemsAsWritten(11, rows) == [PickListItem(11, 7, 3, 0)]
            && products[7].companyId != 1
  {
    var products := map[7 := Product(2, "SKU-7", "Other", 100)];
    var rows := [OrderRow(7, 3, None)];
    assert rows[..0] == [];
    assert CompanyWarehouses([Warehouse(1, 1)], 1) == [1];
  }

  /** The pick-list items of a confirmed order: one per order item, same
      product, the item's quantity required, nothing picked. */
  function PickItems(pickListId: int, items: seq<OrderItem>): seq<PickListItem>
  {
    if items == [] then []
    else PickItems(pickListId, items[..|items| - 1]) + [PickListItem(pickListId, items[|items| - 1].productId, items[|items| - 1].quantity, 0)]
  }

  /** One pick-list item per order item, in order: same product, the item's
      quantity required, nothing picked. */
  lemma {:induction false} PickItemsShape(pickListId: int, items: seq<OrderItem>)
    ensures |PickItems(pickListId, items)| == |items|
    ensures forall k :: 0 <= k < |items| ==>
              PickItems(pickListId, items)[k] == PickListItem(pickListId, items[k].productId, items[k].quantity, 0)
  {
    if items != [] {
      var n := |items| - 1;
      PickItemsShape(pickListId, items[..n]);
      assert forall k :: 0 <= k < n ==> items[..n][k] == items[k];
    }
  }

  /** A pick list is spawned and the order confirmed when the company has a
      warehouse and at least one row was kept. */
  predicate Spawns(ws: seq<Warehouse>, companyId: int, items: seq<OrderItem>)
  {
    FirstWarehouse(ws, companyId).Some? && |items| > 0
  }

  /** With the correction, every pick-list item asks for a product of the
      order's company, in the quantity of an order item, and a request whose
      rows were all skipped confirms nothing. */
  lemma PickItemsMirrorOrder(products: map<int, Product>, companyId: int, orderId: int, rows: seq<OrderRow>,
                             ws: seq<Warehouse>, pickListId: int)
    ensures var items := OrderItemsFor(products, companyId, orderId, rows);
            var ps := PickItems(pickListId, items);
            && |ps| == |items|
            && (forall k :: 0 <= k < |items| ==>
                  ps[k].productId in products && products[ps[k].productId].companyId == companyId
                  && ps[k].quantityRequired == items[k].quantity && ps[k].quantityPicked == 0)
            && ((forall k :: 0 <= k < |rows| ==> !Accepted(products, companyId, rows[k])) ==> !Spawns(ws, companyId, items))
  {
    var items := OrderItemsFor(products, companyId, orderId, rows);
    OrderItemsForSound(products, companyId, orderId, rows);
    PickItemsShape(pickListId, items);
    if (forall k :: 0 <= k < |rows| ==> !Accepted(products, companyId, rows[k])) && |items| > 0 {
      NoKeptRowNoItem(products, companyId, orderId, rows);
    }
  }

  /** No kept row, no item. */
  lemma {:induction false} NoKeptRowNoItem(products: map<int, Product>, companyId: int, orderId: int, rows: seq<OrderRow>)
    requires forall k :: 0 <= k < |rows| ==> !Accepted(products, companyId, rows[k])
    ensures OrderItemsFor(products, companyId, orderId, rows) == []
  {
    if rows != [] {
      var n := |rows| - 1;
      assert forall k :: 0 <= k < n ==> rows[..n][k] == rows[k];
      NoKeptRowNoItem(products, companyId, orderId, rows[..n]);
    }
  }

  // --------------------------------------------------------------- creation

  datatype OrderRequest = OrderRequest(customerId: Option<int>, rows: seq<OrderRow>)

  /** The checks of `create`: a company admin or super admin, with a company of
      their own (the order's company is always the caller's). */
  function CheckCreate(caller: Caller): (r: Result<int>)
    ensures r.Ok? <==> (caller.role == SuperAdmin || caller.role == CompanyAdmin) && caller.companyId.Some?
    ensures r.Ok? ==> caller.companyId == Some(r.value)
  {
    if caller.role != SuperAdmin && caller.role != CompanyAdmin then Err(Forbidden("Only Company Admin can create sales orders"))
    else if caller.companyId.None? then Err(Validation("companyId cannot be null"))
    else Ok(caller.companyId.value)
  }

  /** The item loop: the kept rows become items of the order. */
  method AddOrderItems(db: Db, companyId: int, orderId: int, rows: seq<OrderRow>) returns (total: int)
    modifies db`orderItems
    ensures db.orderItems == old(db.orderItems) + OrderItemsFor(db.products, companyId, orderId, rows)
    ensures total == Amount(OrderItemsFor(db.products, companyId, orderId, rows))
  {
    ghost var before := db.orderItems;
    total := 0;
    var i := 0;
    while i < |rows|
      invariant 0 <= i <= |rows|
      invariant db.orderItems == before + OrderItemsFor(db.products, companyId, orderId, rows[..i])
      invariant total == Amount(OrderItemsFor(db.products, companyId, orderId, rows[..i]))
    {
      var row := rows[i];
      assert rows[..i + 1] == rows[..i] + [row];
      RowContribution(db.products, companyId, orderId, rows[..i], row);
      if Accepted(db.products, companyId, row) {
        var item := ItemFor(db.products, orderId, row);
        db.orderItems := db.orderItems + [item];
        total := total + item.unitPrice * item.quantity;
      }
      i := i + 1;
    }
    assert rows[..i] == rows;
  }

  /** One round of the pick-list item loop. */
  method AddPickItem(db: Db, pickListId: int, items: seq<OrderItem>, i: nat, ghost start: int, ghost before: map<int, PickListItem>)
    requires db.Valid() && i < |items| && db.nextId == start + i
    requires db.pickListItems == before + Placed(start, PickItems(pickListId, items[..i]))
    modifies db`nextId, db`pickListItems
    ensures db.Valid() && db.nextId == start + i + 1
    ensures db.pickListItems == before + Placed(start, PickItems(pickListId, items[..i + 1]))
  {
    var p := PickListItem(pickListId, items[i].productId, items[i].quantity, 0);
    assert PickItems(pickListId, items[..i + 1]) == PickItems(pickListId, items[..i]) + [p] by {
      assert items[..i + 1][..i] == items[..i];
    }
    PickItemsShape(pickListId, items[..i]);
    PlacedAppend(before, start, PickItems(pickListId, items[..i]), p);
    var k := db.AddPickListItem(p);
  }

  /** The pick-list item loop: one row per order item, under consecutive ids. */
  method AddPickItems(db: Db, pickListId: int, items: seq<OrderItem>)
    requires db.Valid()
    modifies db`nextId, db`pickListItems
    ensures db.Valid() && db.nextId == old(db.nextId) + |items|
    ensures db.pickListItems == old(db.pickListItems) + Placed(old(db.nextId), PickItems(pickListId, items))
  {
    ghost var start := db.nextId;
    ghost var before := db.pickListItems;
    assert items[..0] == [];
    assert before + map[] == before;
    var i := 0;
    while i < |items|
      invariant 0 <= i <= |items|
      invariant db.Valid() && db.nextId == start + i
      invariant db.pickListItems == before + Placed(start, PickItems(pickListId, items[..i]))
    {
      AddPickItem(db, pickListId, items, i, start, before);
      i := i + 1;
    }
    assert items[..i] == items;
  }

  /** The pick list of an order being confirmed, inserted right after the
      order: the list (id `oid + 1`), one item per order item (the ids after
      it), the order CONFIRMED and a packing task for the list (the id after
      those, unused). */
  method SpawnPickList(db: Db, oid: int, warehouseId: int, items: seq<OrderItem>)
    requires db.Valid() && oid in db.orders && db.nextId == oid + 1
    modifies db`nextId, db`orders, db`pickLists, db`pickListItems, db`packingTasks
    ensures db.Valid() && db.nextId == oid + 3 + |items|
    ensures db.orders == old(db.orders)[oid := old(db.orders)[oid].(status := OrderStatus.Confirmed)]
    ensures db.pickLists == old(db.pickLists) + [PickList(oid + 1, oid, warehouseId, None, PickListStatus.NotStarted)]
    ensures db.pickListItems == old(db.pickListItems) + Placed(oid + 2, PickItems(oid + 1, items))
    ensures oid + 2 + |items| !in old(db.packingTasks)
    ensures db.packingTasks == old(db.packingTasks)[oid + 2 + |items| := PackingTask(oid, Some(oid + 1), None, PackingStatus.NotStarted)]
  {
    var plId := db.AddPickList(PickList(0, oid, warehouseId, None, PickListStatus.NotStarted));
    assert plId == oid + 1 && db.nextId == oid + 2;
    AddPickItems(db, plId, items);
    db.SetOrder(oid, db.orders[oid].(status := OrderStatus.Confirmed));
    var ptId := db.AddPackingTask(PackingTask(oid, Some(plId), None, PackingStatus.NotStarted));
    assert ptId == oid + 2 + |items|;
  }

  /** The first half of `create`: the DRAFT order under the next id, its kept
      rows as items, and their amount as its total. */
  method AddDraftOrder(db: Db, draft: SalesOrder, rows: seq<OrderRow>) returns (oid: int, order: SalesOrder)
    requires db.Valid()
    modifies db`nextId, db`orders, db`orderItems
    ensures db.Valid() && oid == old(db.nextId) && db.nextId == oid + 1 && oid !in old(db.orders)
    ensures order == draft.(totalAmount := Amount(OrderItemsFor(db.products, draft.companyId, oid, rows)))
    ensures db.orders == old(db.orders)[oid := order]
    ensures db.orderItems == old(db.orderItems) + OrderItemsFor(db.products, draft.companyId, oid, rows)
  {
    oid := db.AddOrder(draft);
    var total := AddOrderItems(db, draft.companyId, oid, rows);
    order := draft.(totalAmount := total);
    db.SetOrder(oid, order);
    assert db.orders == old(db.orders)[oid := order];
  }

  /** The order `create` stores: CONFIRMED when it spawns a pick list, DRAFT
      otherwise, with the amount of its items as total. */
  function NewOrder(ws: seq<Warehouse>, caller: Caller, companyId: int, number: string, customerId: Option<int>,
                    items: seq<OrderItem>): SalesOrder
  {
    SalesOrder(companyId, number, customerId,
               if Spawns(ws, companyId, items) then OrderStatus.Confirmed else OrderStatus.Draft,
               Amount(items), caller.id)
  }

  /** The pick-list tables before and after `create` confirms order `oid`:
      with a company warehouse and at least one item, a NOT_STARTED pick list
      at the company's first warehouse (id `oid + 1`), one pick-list item per
      order item (the ids after it) and a NOT_STARTED packing task (the id
      after those); otherwise all three unchanged. */
  predicate PickListSpawned(ws: seq<Warehouse>, companyId: int, oid: int, items: seq<OrderItem>,
                            lists0: seq<PickList>, lists: seq<PickList>,
                            listItems0: map<int, PickListItem>, listItems: map<int, PickListItem>,
                            tasks0: map<int, PackingTask>, tasks: map<int, PackingTask>)
  {
    if Spawns(ws, companyId, items) then
      && lists == lists0 + [PickList(oid + 1, oid, FirstWarehouse(ws, companyId).value, None, PickListStatus.NotStarted)]
      && listItems == listItems0 + Placed(oid + 2, PickItems(oid + 1, items))
      && oid + 2 + |items| !in tasks0
      && tasks == tasks0[oid + 2 + |items| := PackingTask(oid, Some(oid + 1), None, PackingStatus.NotStarted)]
    else
      lists == lists0 && listItems == listItems0 && tasks == tasks0
  }

  /** The successful path of `create` for company `companyId`: the DRAFT
      order with its items and total, then, with a company warehouse and at
      least one item, the order CONFIRMED with a NOT_STARTED pick list at that
      warehouse (next id), one pick-list item per order item (the ids after
      it) and a NOT_STARTED packing task (the id after those). */
  method PlaceOrder(db: Db, caller: Caller, companyId: int, number: string, customerId: Option<int>, rows: seq<OrderRow>)
    returns (r: SalesOrder, items: seq<OrderItem>)
    requires db.Valid()
    modifies db`nextId, db`orders, db`orderItems, db`pickLists, db`pickListItems, db`packingTasks
    ensures db.Valid()
    ensures items == OrderItemsFor(db.products, companyId, old(db.nextId), rows)
    ensures old(db.nextId) !in old(db.orders) && r == NewOrder(db.warehouses, caller, companyId, number, customerId, items)
    ensures db.orders == old(db.orders)[old(db.nextId) := r] && db.orderItems == old(db.orderItems) + items
    ensures PickListSpawned(db.warehouses, companyId, old(db.nextId), items, old(db.pickLists), db.pickLists,
                            old(db.pickListItems), db.pickListItems, old(db.packingTasks), db.packingTasks)
  {
    var oid, draft := AddDraftOrder(db, SalesOrder(companyId, number, customerId, OrderStatus.Draft, 0, caller.id), rows);
    items := OrderItemsFor(db.products, companyId, oid, rows);
    r := ConfirmIfPickable(db, caller, oid, companyId, number, customerId, items);
  }

  /** The second half of `create`: with a company warehouse and at least one
      item, the pick list, its items and packing task, and the order CONFIRMED;
      otherwise nothing. */
  method ConfirmIfPickable(db: Db, caller: Caller, oid: int, companyId: int, number: string, customerId: Option<int>,
                           items: seq<OrderItem>) returns (r: SalesOrder)
    requires db.Valid() && oid in db.orders && db.nextId == oid + 1
    requires db.orders[oid] == SalesOrder(companyId, number, customerId, OrderStatus.Draft, Amount(items), caller.id)
    modifies db`nextId, db`orders, db`pickLists, db`pickListItems, db`packingTasks
    ensures db.Valid()
    ensures r == NewOrder(db.warehouses, caller, companyId, number, customerId, items)
    ensures db.orders == old(db.orders)[oid := r]
    ensures PickListSpawned(db.warehouses, companyId, oid, items, old(db.pickLists), db.pickLists,
                            old(db.pickListItems), db.pickListItems, old(db.packingTasks), db.packingTasks)
  {
    r := db.orders[oid];
    var wh := FirstWarehouse(db.warehouses, companyId);
    if wh.Some? && |items| > 0 {
      SpawnPickList(db, oid, wh.value, items);
      r := r.(status := OrderStatus.Confirmed);
    } else {
      assert db.orders == old(db.orders)[oid := r];
    }
  }

  /** `create`: the caller's checks, then the order numbered after the
      company's existing orders. */
  method CreateOrder(db: Db, caller: Caller, req: OrderRequest, stamp: string) returns (r: Result<SalesOrder>)
    requires db.Valid()
    modifies db`nextId, db`orders, db`orderItems, db`pickLists, db`pickListItems, db`packingTasks
    ensures db.Valid()
    ensures CheckCreate(caller).Err? ==>
              && r == Err(CheckCreate(caller).error) && db.nextId == old(db.nextId)
              && db.orders == old(db.orders) && db.orderItems == old(db.orderItems) && db.pickLists == old(db.pickLists)
              && db.pickListItems == old(db.pickListItems) && db.packingTasks == old(db.packingTasks)
    ensures CheckCreate(caller).Ok? ==>
              var items := OrderItemsFor(db.products, CheckCreate(caller).value, old(db.nextId), req.rows);
              var order := NewOrder(db.warehouses, caller, CheckCreate(caller).value, OrderNumber(stamp, CompanyOrderCount(old(db.orders), CheckCreate(caller).value)), req.customerId, items);
              && old(db.nextId) !in old(db.orders) && r == Ok(order)
              && db.orders == old(db.orders)[old(db.nextId) := order]
              && db.orderItems == old(db.orderItems) + items
    ensures CheckCreate(caller).Ok? ==>
              PickListSpawned(db.warehouses, CheckCreate(caller).value, old(db.nextId),
                              OrderItemsFor(db.products, CheckCreate(caller).value, old(db.nextId), req.rows),
                              old(db.pickLists), db.pickLists, old(db.pickListItems), db.pickListItems,
                              old(db.packingTasks), db.packingTasks)
  {
    var check := CheckCreate(caller);
    if check.Err? {
      return Err(check.error);
    }
    var order, _ := PlaceOrder(db, caller, check.value, OrderNumber(stamp, CompanyOrderCount(db.orders, check.value)), req.customerId, req.rows);
    return Ok(order);
  }

  // ----------------------------------------------------------------- update

  /** The items of every other order. */
  function WithoutOrder(items: seq<OrderItem>, orderId: int): (r: seq<OrderItem>)
    ensures forall x :: x in r <==> x in items && x.salesOrderId != orderId
  {
    if items == [] then []
    else
      var rest := WithoutOrder(items[..|items| - 1], orderId);
      var last := items[|items| - 1];
      assert items == items[..|items| - 1] + [last];
      if last.salesOrderId != orderId then rest + [last] else rest
  }

  /** Items of other orders only. */
  lemma {:induction false} ItemsOfWithout(items: seq<OrderItem>, orderId: int, other: int)
    ensures other != orderId ==> ItemsOf(WithoutOrder(items, orderId), other) == ItemsOf(items, other)
    ensures ItemsOf(WithoutOrder(items, orderId), orderId) == []
  {
    if items != [] {
      var n := |items| - 1;
      ItemsOfWithout(items[..n], orderId, other);
      var rest := WithoutOrder(items[..n], orderId);
      if items[n].salesOrderId != orderId {
        ItemsOfAppend(rest, items[n], other);
        ItemsOfAppend(rest, items[n], orderId);
      }
    }
  }

  lemma ItemsOfAppend(items: seq<OrderItem>, x: OrderItem, orderId: int)
    ensures ItemsOf(items + [x], orderId) == ItemsOf(items, orderId) + (if x.salesOrderId == orderId then [x] else [])
  {
    assert (items + [x])[..|items|] == items;
  }

  lemma SplitLast(a: seq<OrderItem>, b: seq<OrderItem>)
    requires b != []
    ensures a + b == (a + b[..|b| - 1]) + [b[|b| - 1]] && b == b[..|b| - 1] + [b[|b| - 1]]
  {
  }

  /** Concatenation distributes over the items of one order. */
  lemma {:induction false} ItemsOfConcat(a: seq<OrderItem>, b: seq<OrderItem>, orderId: int)
    ensures ItemsOf(a + b, orderId) == ItemsOf(a, orderId) + ItemsOf(b, orderId)
  {
    if b != [] {
      var n := |b| - 1;
      ItemsOfConcat(a, b[..n], orderId);
      SplitLast(a, b);
      ItemsOfAppend(a + b[..n], b[n], orderId);
      ItemsOfAppend(b[..n], b[n], orderId);
    } else {
      assert a + b == a;
    }
  }

  /** Replacing an order's items: afterwards the order has exactly the new items,
      and every other order keeps its own. */
  lemma ReplaceItems(items: seq<OrderItem>, orderId: int, newItems: seq<OrderItem>, other: int)
    requires forall k :: 0 <= k < |newItems| ==> newItems[k].salesOrderId == orderId
    ensures ItemsOf(WithoutOrder(items, orderId) + newItems, orderId) == newItems
    ensures other != orderId ==> ItemsOf(WithoutOrder(items, orderId) + newItems, other) == ItemsOf(items, other)
  {
    var kept := WithoutOrder(items, orderId);
    ItemsOfWithout(items, orderId, other);
    AllOfOneOrder(newItems, orderId, other);
    ItemsOfConcat(kept, newItems, orderId);
    assert ItemsOf(kept + newItems, orderId) == [] + newItems;
    if other != orderId {
      ItemsOfConcat(kept, newItems, other);
      assert ItemsOf(kept + newItems, other) == ItemsOf(items, other) + [];
    }
  }

  /** A list of one order's items is its own selection, and has nothing of any
      other order. */
  lemma {:induction false} AllOfOneOrder(items: seq<OrderItem>, orderId: int, other: int)
    requires forall k :: 0 <= k < |items| ==> items[k].salesOrderId == orderId
    ensures ItemsOf(items, orderId) == items
    ensures other != orderId ==> ItemsOf(items, other) == []
  {
    if items != [] {
      var n := |items| - 1;
      AllOfOneOrder(items[..n], orderId, other);
      ItemsOfAppend(items[..n], items[n], orderId);
      ItemsOfAppend(items[..n], items[n], other);
      assert items[..n] + [items[n]] == items;
    }
  }

  /** An order may be edited or deleted only before picking starts. */
  predicate Editable(s: OrderStatus)
  {
    s == OrderStatus.Draft || s == OrderStatus.Confirmed
  }

  /** The checks of `update` and `remove`: the order, its tenant, its status.
      (`remove` also admits PICK_LIST_CREATED, a status no order can hold.) */
  function CheckEdit(orders: map<int, SalesOrder>, caller: Caller, id: int): (r: Result<SalesOrder>)
    ensures r.Ok? <==> id in orders && SeesCompany(caller, orders[id].companyId) && Editable(orders[id].status)
    ensures r.Ok? ==> r.value == orders[id]
    ensures r.Err? && id in orders && SeesCompany(caller, orders[id].companyId) ==> r.error.InvalidTransition?
  {
    if id !in orders || !SeesCompany(caller, orders[id].companyId) then Err(NotFound("Order not found"))
    else if !Editable(orders[id].status) then Err(InvalidTransition("Only DRAFT or CONFIRMED orders can be edited"))
    else Ok(orders[id])
  }

  /** The fields an update may supply; `customerId` distinguishes absent from an
      explicit null. */
  datatype OrderUpdate = OrderUpdate(customerId: Option<Option<int>>, rows: Option<seq<OrderRow>>)

  /** `update`. The customer changes if supplied. Supplied rows replace the
      order's items by the kept rows and the total by their amount; the pick
      list is left as it was. */
  method UpdateOrder(db: Db, caller: Caller, id: int, u: OrderUpdate) returns (r: Result<SalesOrder>)
    modifies db`orders, db`orderItems
    ensures match CheckEdit(old(db.orders), caller, id)
            case Err(e) => r == Err(e) && db.orders == old(db.orders) && db.orderItems == old(db.orderItems)
            case Ok(o) =>
              var o1 := o.(customerId := GetOr(u.customerId, o.customerId));
              if u.rows.None? then
                r == Ok(o1) && db.orders == old(db.orders)[id := o1] && db.orderItems == old(db.orderItems)
              else
                var items := OrderItemsFor(db.products, o.companyId, id, u.rows.value);
                && r == Ok(o1.(totalAmount := Amount(items)))
                && db.orders == old(db.orders)[id := o1.(totalAmount := Amount(items))]
                && db.orderItems == WithoutOrder(old(db.orderItems), id) + items
  {
    var check := CheckEdit(db.orders, caller, id);
    if check.Err? {
      return Err(check.error);
    }
    var o := check.value.(customerId := GetOr(u.customerId, check.value.customerId));
    db.orders := db.orders[id := o];
    if u.rows.Some? {
      db.orderItems := WithoutOrder(db.orderItems, id);
      var total := AddOrderItems(db, o.companyId, id, u.rows.value);
      o := o.(totalAmount := total);
      db.orders := db.orders[id := o];
    }
    return Ok(o);
  }

  // ----------------------------------------------------------------- remove

  /** The order's pick lists, in table order. */
  function PickListsOf(pls: seq<PickList>, orderId: int): (r: seq<PickList>)
    ensures forall x :: x in r <==> x in pls && x.salesOrderId == orderId
  {
    if pls == [] then []
    else
      var rest := PickListsOf(pls[..|pls| - 1], orderId);
      var last := pls[|pls| - 1];
      assert pls == pls[..|pls| - 1] + [last];
      if last.salesOrderId == orderId then rest + [last] else rest
  }

  /** Every other order's pick lists, in table order. */
  function OtherPickLists(pls: seq<PickList>, orderId: int): (r: seq<PickList>)
    ensures forall x :: x in r <==> x in pls && x.salesOrderId != orderId
  {
    if pls == [] then []
    else
      var rest := OtherPickLists(pls[..|pls| - 1], orderId);
      var last := pls[|pls| - 1];
      assert pls == pls[..|pls| - 1] + [last];
      if last.salesOrderId != orderId then rest + [last] else rest
  }

  function IdsOf(pls: seq<PickList>): set<int>
  {
    set k | 0 <= k < |pls| :: pls[k].id
  }

  /** Pick-list items of lists outside `ids`. */
  function DropItems(m: map<int, PickListItem>, ids: set<int>): map<int, PickListItem>
  {
    map k | k in m && m[k].pickListId !in ids :: m[k]
  }

  /** Packing tasks not attached to a list in `ids`. */
  function DropListTasks(m: map<int, PackingTask>, ids: set<int>): map<int, PackingTask>
  {
    map k | k in m && !(m[k].pickListId.Some? && m[k].pickListId.value in ids) :: m[k]
  }

  /** Packing tasks of other orders. */
  function DropOrderTasks(m: map<int, PackingTask>, orderId: int): map<int, PackingTask>
  {
    map k | k in m && m[k].salesOrderId != orderId :: m[k]
  }

  /** Shipments of other orders. */
  function DropShipments(m: map<int, Shipment>, orderId: int): map<int, Shipment>
  {
    map k | k in m && m[k].salesOrderId != orderId :: m[k]
  }

  /** Dropping list by list is dropping them all at once. */
  lemma DropStep(items: map<int, PickListItem>, tasks: map<int, PackingTask>, done: seq<PickList>, pl: PickList)
    ensures DropItems(DropItems(items, IdsOf(done)), {pl.id}) == DropItems(items, IdsOf(done + [pl]))
    ensures DropListTasks(DropListTasks(tasks, IdsOf(done)), {pl.id}) == DropListTasks(tasks, IdsOf(done + [pl]))
  {
    var all := done + [pl];
    assert IdsOf(all) == IdsOf(done) + {pl.id} by {
      forall x | x in IdsOf(all) ensures x in IdsOf(done) + {pl.id} {
        var k :| 0 <= k < |all| && all[k].id == x;
        if k < |done| {
          assert done[k] == all[k];
        }
      }
      forall x | x in IdsOf(done) ensures x in IdsOf(all) {
        var k :| 0 <= k < |done| && done[k].id == x;
        assert all[k] == done[k];
      }
      assert all[|done|] == pl;
    }
  }

  /** After a deletion nothing refers to the order: no item, pick list, packing
      task or shipment of it is left, no pick-list item of a deleted list, and
      every remaining pick list's order still exists when it did before. */
  lemma RemoveLeavesNoTrace(orders: map<int, SalesOrder>, items: seq<OrderItem>, pls: seq<PickList>,
                            plItems: map<int, PickListItem>, tasks: map<int, PackingTask>, shipments: map<int, Shipment>, id: int)
    requires forall k :: 0 <= k < |pls| ==> pls[k].salesOrderId in orders
    ensures forall x :: x in WithoutOrder(items, id) ==> x.salesOrderId != id
    ensures forall x :: x in OtherPickLists(pls, id) ==> x.salesOrderId != id && x.salesOrderId in orders - {id}
    ensures var ids := IdsOf(PickListsOf(pls, id));
            forall k :: k in DropItems(plItems, ids) ==> DropItems(plItems, ids)[k].pickListId !in ids
    ensures var t := DropOrderTasks(DropListTasks(tasks, IdsOf(PickListsOf(pls, id))), id);
            forall k :: k in t ==> t[k].salesOrderId != id
    ensures forall k :: k in DropShipments(shipments, id) ==> DropShipments(shipments, id)[k].salesOrderId != id
  {
    forall x | x in OtherPickLists(pls, id) ensures x.salesOrderId in orders - {id} {
      var k :| 0 <= k < |pls| && pls[k] == x;
    }
  }

  /** The deletion loop over the order's pick lists: each one's items and
      packing tasks go. */
  method DropPickLists(db: Db, mine: seq<PickList>)
    modifies db`pickListItems, db`packingTasks
    ensures db.pickListItems == DropItems(old(db.pickListItems), IdsOf(mine))
    ensures db.packingTasks == DropListTasks(old(db.packingTasks), IdsOf(mine))
  {
    ghost var items0 := db.pickListItems;
    ghost var tasks0 := db.packingTasks;
    assert IdsOf(mine[..0]) == {};
    assert DropItems(items0, {}) == items0;
    assert DropListTasks(tasks0, {}) == tasks0;
    var i := 0;
    while i < |mine|
      invariant 0 <= i <= |mine|
      invariant db.pickListItems == DropItems(items0, IdsOf(mine[..i]))
      invariant db.packingTasks == DropListTasks(tasks0, IdsOf(mine[..i]))
    {
      var pl := mine[i];
      DropStep(items0, tasks0, mine[..i], pl);
      assert mine[..i] + [pl] == mine[..i + 1];
      db.pickListItems := DropItems(db.pickListItems, {pl.id});
      db.packingTasks := DropListTasks(db.packingTasks, {pl.id});
      i := i + 1;
    }
    assert mine[..i] == mine;
  }

  /** `remove`: the order's items, pick lists with their items and packing
      tasks, its remaining packing tasks, its shipment and the order itself are
      deleted. */
  method RemoveOrder(db: Db, caller: Caller, id: int) returns (r: Result<int>)
    modifies db`orders, db`orderItems, db`pickLists, db`pickListItems, db`packingTasks, db`shipments
    ensures match CheckEdit(old(db.orders), caller, id)
            case Err(e) =>
              && r == Err(e) && db.orders == old(db.orders) && db.orderItems == old(db.orderItems)
              && db.pickLists == old(db.pickLists) && db.pickListItems == old(db.pickListItems)
              && db.packingTasks == old(db.packingTasks) && db.shipments == old(db.shipments)
            case Ok(_) =>
              var ids := IdsOf(PickListsOf(old(db.pickLists), id));
              && r == Ok(id)
              && db.orders == old(db.orders) - {id}
              && db.orderItems == WithoutOrder(old(db.orderItems), id)
              && db.pickLists == OtherPickLists(old(db.pickLists), id)
              && db.pickListItems == DropItems(old(db.pickListItems), ids)
              && db.packingTasks == DropOrderTasks(DropListTasks(old(db.packingTasks), ids), id)
              && db.shipments == DropShipments(old(db.shipments), id)
  {
    var check := CheckEdit(db.orders, caller, id);
    if check.Err? {
      return Err(check.error);
    }
    db.orderItems := WithoutOrder(db.orderItems, id);
    var mine := PickListsOf(db.pickLists, id);
    DropPickLists(db, mine);
    db.pickLists := OtherPickLists(db.pickLists, id);
    db.packingTasks := DropOrderTasks(db.packingTasks, id);
    db.shipments := DropShipments(db.shipments, id);
    db.orders := db.orders - {id};
    return Ok(id);
  }
}
