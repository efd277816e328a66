/** Picking (services/pickingService.js): a pick list is assigned to a picker,
    picked, completed (which spawns the order's packing task) or handed back.
    Every step also moves the parent sales order's status. */
module Picking {
  import opened Common
  import opened Statuses
  import opened Store

  /** The position of the pick list with id `id`. */
  function FindPickList(pls: seq<PickList>, id: int): (r: Option<nat>)
    ensures r.Some? ==> r.value < |pls| && pls[r.value].id == id
    ensures r.None? <==> forall i :: 0 <= i < |pls| ==> pls[i].id != id
  {
    if pls == [] then None
    else if pls[0].id == id then Some(0)
    else
      match FindPickList(pls[1..], id)
      case None => None
      case Some(k) => Some(k + 1)
  }

  // ------------------------------------------------------------ transitions

  /** The status and the assignee agree: a list not started has no picker, an
      assigned list has one. */
  predicate WellAssigned(pl: PickList)
  {
    && (pl.status == PickListStatus.NotStarted ==> pl.assignedTo.None?)
    && (pl.status == PickListStatus.Assigned ==> pl.assignedTo.Some?)
  }

  /** Assignment: ASSIGNED to the picker. */
  function AssignTo(pl: PickList, userId: int): (pl': PickList)
    ensures WellAssigned(pl') && pl'.assignedTo == Some(userId) && pl'.status == PickListStatus.Assigned
    ensures pl'.id == pl.id && pl'.salesOrderId == pl.salesOrderId && pl'.warehouseId == pl.warehouseId
  {
    pl.(assignedTo := Some(userId), status := PickListStatus.Assigned)
  }

  /** Starting: PARTIALLY_PICKED, whatever the list's status was. */
  function Started(pl: PickList): (pl': PickList)
    ensures WellAssigned(pl') && pl'.status == PickListStatus.PartiallyPicked && pl'.assignedTo == pl.assignedTo
    ensures pl'.id == pl.id && pl'.salesOrderId == pl.salesOrderId && pl'.warehouseId == pl.warehouseId
  {
    pl.(status := PickListStatus.PartiallyPicked)
  }

  /** A list is still waiting to be picked. */
  predicate Waiting(s: PickListStatus)
  {
    s == PickListStatus.NotStarted || s == PickListStatus.Assigned
  }

  /** Recording a picked quantity: a waiting list becomes PARTIALLY_PICKED, any
      other keeps its status. */
  function AfterPick(pl: PickList): (pl': PickList)
    ensures Waiting(pl.status) ==> pl'.status == PickListStatus.PartiallyPicked
    ensures !Waiting(pl.status) ==> pl' == pl
    ensures WellAssigned(pl) ==> WellAssigned(pl')
    ensures pl'.assignedTo == pl.assignedTo && pl'.id == pl.id && pl'.salesOrderId == pl.salesOrderId
  {
    if Waiting(pl.status) then pl.(status := PickListStatus.PartiallyPicked) else pl
  }

  /** Completion: PICKED. */
  function Completed(pl: PickList): (pl': PickList)
    ensures WellAssigned(pl') && pl'.status == PickListStatus.Picked && pl'.assignedTo == pl.assignedTo
    ensures pl'.id == pl.id && pl'.salesOrderId == pl.salesOrderId && pl'.warehouseId == pl.warehouseId
  {
    pl.(status := PickListStatus.Picked)
  }

  /** Handing back: NOT_STARTED with no picker. */
  function Rejected(pl: PickList): (pl': PickList)
    ensures WellAssigned(pl') && pl'.status == PickListStatus.NotStarted && pl'.assignedTo.None?
    ensures pl'.id == pl.id && pl'.salesOrderId == pl.salesOrderId && pl'.warehouseId == pl.warehouseId
  {
    pl.(status := PickListStatus.NotStarted, assignedTo := None)
  }

  /** Picking after a hand-back needs a new assignment: a rejected list is not
      waiting for anyone in particular, and assigning it again gives exactly the
      assignment a fresh list would get. */
  lemma RejectThenAssign(pl: PickList, userId: int)
    ensures Waiting(Rejected(pl).status) && Rejected(pl).assignedTo.None?
    ensures AssignTo(Rejected(pl), userId) == AssignTo(pl, userId)
    ensures Rejected(Rejected(pl)) == Rejected(pl) && Completed(Completed(pl)) == Completed(pl)
  {
  }

  /** The order with a new status. */
  function WithStatus(orders: map<int, SalesOrder>, orderId: int, s: OrderStatus): map<int, SalesOrder>
    requires orderId in orders
  {
    orders[orderId := orders[orderId].(status := s)]
  }

  // ----------------------------------------------------------------- guards

  predicate MayAssign(role: Role)
  {
    role == WarehouseManager || role == CompanyAdmin || role == SuperAdmin
  }

  /** A picker may act only on a list assigned to them; other roles on any. */
  predicate MayWork(caller: Caller, pl: PickList)
  {
    caller.role != Picker || pl.assignedTo == Some(caller.id)
  }

  /** The lookup every operation ends with: a picker sees only their lists, a
      company admin only lists of their company's orders. */
  predicate Visible(caller: Caller, pl: PickList, order: SalesOrder)
  {
    && MayWork(caller, pl)
    && (caller.role != CompanyAdmin || caller.companyId == Some(order.companyId))
  }

  /** The checks of `assignPicker`: role, the list, the company admin's tenant,
      and an assignee who is a picker of the order's company. */
  function CheckAssign(pls: seq<PickList>, orders: map<int, SalesOrder>, users: map<int, User>,
                       caller: Caller, id: int, userId: int): (r: Result<nat>)
    requires FindPickList(pls, id).Some? ==> pls[FindPickList(pls, id).value].salesOrderId in orders
    ensures r.Ok? <==>
      && MayAssign(caller.role)
      && FindPickList(pls, id).Some?
      && var order := orders[pls[FindPickList(pls, id).value].salesOrderId];
         && (caller.role != CompanyAdmin || caller.companyId == Some(order.companyId))
         && userId in users && users[userId].role == Picker && users[userId].companyId == Some(order.companyId)
    ensures r.Ok? ==> r == Ok(FindPickList(pls, id).value)
  {
    if !MayAssign(caller.role) then Err(Forbidden("Only Warehouse Manager can assign picker"))
    else match FindPickList(pls, id)
      case None => Err(NotFound("Pick list not found"))
      case Some(i) =>
        var order := orders[pls[i].salesOrderId];
        if caller.role == CompanyAdmin && caller.companyId != Some(order.companyId) then Err(NotFound("Pick list not found"))
        else if userId !in users || users[userId].role != Picker || users[userId].companyId != Some(order.companyId) then
          Err(Validation("Invalid picker"))
        else Ok(i)
  }

  /** The checks of the picker's own steps: the list, and the assignee guard. */
  function CheckWork(pls: seq<PickList>, caller: Caller, id: int): (r: Result<nat>)
    ensures r.Ok? <==> FindPickList(pls, id).Some? && MayWork(caller, pls[FindPickList(pls, id).value])
    ensures r.Ok? ==> r == Ok(FindPickList(pls, id).value)
  {
    match FindPickList(pls, id)
    case None => Err(NotFound("Pick list not found"))
    case Some(i) => if MayWork(caller, pls[i]) then Ok(i) else Err(Forbidden("Not assigned to you"))
  }

  /** The pick list at `id` exists only with its order: the foreign key of the
      table. */
  predicate Linked(pls: seq<PickList>, orders: map<int, SalesOrder>, id: int)
  {
    FindPickList(pls, id).Some? ==> pls[FindPickList(pls, id).value].salesOrderId in orders
  }

  // ------------------------------------------------------------- operations

  /** `assignPicker`: the list is ASSIGNED to the picker and its order is
      PICKING_IN_PROGRESS. */
  method AssignPicker(db: Db, caller: Caller, id: int, userId: int) returns (r: Result<PickList>)
    requires Linked(db.pickLists, db.orders, id)
    modifies db`pickLists, db`orders
    ensures match CheckAssign(old(db.pickLists), old(db.orders), db.users, caller, id, userId)
            case Err(e) => r == Err(e) && db.pickLists == old(db.pickLists) && db.orders == old(db.orders)
            case Ok(i) =>
              var pl := old(db.pickLists)[i];
              && r == Ok(AssignTo(pl, userId))
              && db.pickLists == old(db.pickLists)[i := AssignTo(pl, userId)]
              && db.orders == WithStatus(old(db.orders), pl.salesOrderId, PickingInProgress)
  {
    var check := CheckAssign(db.pickLists, db.orders, db.users, caller, id, userId);
    if check.Err? {
      return Err(check.error);
    }
    var i := check.value;
    var pl := AssignTo(db.pickLists[i], userId);
    db.pickLists := db.pickLists[i := pl];
    db.orders := WithStatus(db.orders, pl.salesOrderId, PickingInProgress);
    return Ok(pl);
  }

  /** `startPicking`: the list is PARTIALLY_PICKED and its order
      PICKING_IN_PROGRESS. The tenant is checked only by the trailing lookup,
      after the writes. */
  method StartPicking(db: Db, caller: Caller, id: int) returns (r: Result<PickList>)
    requires Linked(db.pickLists, db.orders, id)
    modifies db`pickLists, db`orders
    ensures match CheckWork(old(db.pickLists), caller, id)
            case Err(e) => r == Err(e) && db.pickLists == old(db.pickLists) && db.orders == old(db.orders)
            case Ok(i) =>
              var pl := Started(old(db.pickLists)[i]);
              && db.pickLists == old(db.pickLists)[i := pl]
              && db.orders == WithStatus(old(db.orders), pl.salesOrderId, PickingInProgress)
              && r == (if Visible(caller, pl, db.orders[pl.salesOrderId]) then Ok(pl) else Err(NotFound("Pick list not found")))
  {
    var check := CheckWork(db.pickLists, caller, id);
    if check.Err? {
      return Err(check.error);
    }
    var i := check.value;
    var pl := Started(db.pickLists[i]);
    db.pickLists := db.pickLists[i := pl];
    db.orders := WithStatus(db.orders, pl.salesOrderId, PickingInProgress);
    if Visible(caller, pl, db.orders[pl.salesOrderId]) {
      r := Ok(pl);
    } else {
      r := Err(NotFound("Pick list not found"));
    }
  }

  /** The checks of `updatePickedQuantity`: the item, and the assignee guard on
      its list. */
  function CheckPick(items: map<int, PickListItem>, pls: seq<PickList>, caller: Caller, itemId: int): (r: Result<nat>)
    requires itemId in items ==> FindPickList(pls, items[itemId].pickListId).Some?
    ensures r.Ok? <==> itemId in items && MayWork(caller, pls[FindPickList(pls, items[itemId].pickListId).value])
    ensures r.Ok? ==> r == Ok(FindPickList(pls, items[itemId].pickListId).value)
  {
    if itemId !in items then Err(NotFound("Item not found"))
    else
      var i := FindPickList(pls, items[itemId].pickListId).value;
      if MayWork(caller, pls[i]) then Ok(i) else Err(Forbidden("Not assigned to you"))
  }

  /** The picked quantity recorded: the one given, else the full requirement. */
  function Picked(item: PickListItem, quantityPicked: Option<int>): (item': PickListItem)
    ensures item'.quantityPicked == (if quantityPicked.Some? then quantityPicked.value else item.quantityRequired)
    ensures item'.pickListId == item.pickListId && item'.productId == item.productId
    ensures item'.quantityRequired == item.quantityRequired
  {
    item.(quantityPicked := GetOr(quantityPicked, item.quantityRequired))
  }

  /** `updatePickedQuantity`: the item's picked quantity is recorded; a waiting
      list becomes PARTIALLY_PICKED and its order PICKING_IN_PROGRESS, any other
      list and its order stay as they are. */
  method UpdatePickedQuantity(db: Db, caller: Caller, itemId: int, quantityPicked: Option<int>) returns (r: Result<PickListItem>)
    requires itemId in db.pickListItems ==>
               FindPickList(db.pickLists, db.pickListItems[itemId].pickListId).Some?
               && Linked(db.pickLists, db.orders, db.pickListItems[itemId].pickListId)
    modifies db`pickListItems, db`pickLists, db`orders
    ensures match CheckPick(old(db.pickListItems), old(db.pickLists), caller, itemId)
            case Err(e) =>
              r == Err(e) && db.pickListItems == old(db.pickListItems)
              && db.pickLists == old(db.pickLists) && db.orders == old(db.orders)
            case Ok(i) =>
              var pl := old(db.pickLists)[i];
              var item := Picked(old(db.pickListItems)[itemId], quantityPicked);
              && r == Ok(item)
              && db.pickListItems == old(db.pickListItems)[itemId := item]
              && db.pickLists == old(db.pickLists)[i := AfterPick(pl)]
              && db.orders == (if Waiting(pl.status) then WithStatus(old(db.orders), pl.salesOrderId, PickingInProgress)
                               else old(db.orders))
  {
    var check := CheckPick(db.pickListItems, db.pickLists, caller, itemId);
    if check.Err? {
      return Err(check.error);
    }
    var i := check.value;
    var item := Picked(db.pickListItems[itemId], quantityPicked);
    db.pickListItems := db.pickListItems[itemId := item];
    var pl := db.pickLists[i];
    if Waiting(pl.status) {
      db.pickLists := db.pickLists[i := AfterPick(pl)];
      db.orders := WithStatus(db.orders, pl.salesOrderId, PickingInProgress);
    } else {
      db.pickLists := db.pickLists[i := AfterPick(pl)];
    }
    return Ok(item);
  }

  // --------------------------------------------------- packing task spawn

  /** Some packing task belongs to the pick list. */
  predicate HasPackingTask(tasks: map<int, PackingTask>, pickListId: int)
  {
    exists k :: k in tasks && tasks[k].pickListId == Some(pickListId)
  }

  /** At most one packing task per pick list. */
  predicate OnePackingTaskPerPickList(tasks: map<int, PackingTask>)
  {
    forall a, b :: a in tasks && b in tasks && a != b && tasks[a].pickListId.Some? ==> tasks[a].pickListId != tasks[b].pickListId
  }

  /** The packing task completion spawns under `id`, unless the list has one. */
  function Spawn(tasks: map<int, PackingTask>, id: int, pl: PickList): map<int, PackingTask>
  {
    if HasPackingTask(tasks, pl.id) then tasks
    else tasks[id := PackingTask(pl.salesOrderId, Some(pl.id), None, PackingStatus.NotStarted)]
  }

  /** After a spawn the list has a packing task, still only one, and a second
      spawn changes nothing. */
  lemma SpawnKeepsOnePerPickList(tasks: map<int, PackingTask>, id: int, id2: int, pl: PickList)
    requires OnePackingTaskPerPickList(tasks) && id !in tasks
    ensures HasPackingTask(Spawn(tasks, id, pl), pl.id)
    ensures OnePackingTaskPerPickList(Spawn(tasks, id, pl))
    ensures Spawn(Spawn(tasks, id, pl), id2, pl) == Spawn(tasks, id, pl)
  {
    var s := Spawn(tasks, id, pl);
    if !HasPackingTask(tasks, pl.id) {
      assert s[id].pickListId == Some(pl.id);
    }
  }

  /** `completePicking`. A list already PICKED is returned as it is, through the
      trailing lookup. Otherwise the list and its order become PICKED and the
      packing task is spawned under the next id if the list has none. */
  method CompletePicking(db: Db, caller: Caller, id: int) returns (r: Result<PickList>)
    requires db.Valid() && Linked(db.pickLists, db.orders, id)
    modifies db`nextId, db`pickLists, db`orders, db`packingTasks
    ensures db.Valid()
    ensures match CheckWork(old(db.pickLists), caller, id)
            case Err(e) =>
              r == Err(e) && db.pickLists == old(db.pickLists) && db.orders == old(db.orders)
              && db.packingTasks == old(db.packingTasks)
            case Ok(i) =>
              var pl := old(db.pickLists)[i];
              if pl.status == PickListStatus.Picked then
                && db.pickLists == old(db.pickLists) && db.orders == old(db.orders)
                && db.packingTasks == old(db.packingTasks)
                && r == (if Visible(caller, pl, db.orders[pl.salesOrderId]) then Ok(pl) else Err(NotFound("Pick list not found")))
              else
                && old(db.nextId) !in old(db.packingTasks)
                && db.pickLists == old(db.pickLists)[i := Completed(pl)]
                && db.orders == WithStatus(old(db.orders), pl.salesOrderId, OrderStatus.Picked)
                && db.packingTasks == Spawn(old(db.packingTasks), old(db.nextId), pl)
                && r == (if Visible(caller, Completed(pl), db.orders[pl.salesOrderId]) then Ok(Completed(pl))
                         else Err(NotFound("Pick list not found")))
  {
    var check := CheckWork(db.pickLists, caller, id);
    if check.Err? {
      return Err(check.error);
    }
    var i := check.value;
    var pl := db.pickLists[i];
    if pl.status == PickListStatus.Picked {
      if Visible(caller, pl, db.orders[pl.salesOrderId]) {
        return Ok(pl);
      }
      return Err(NotFound("Pick list not found"));
    }
    var done := Completed(pl);
    db.SetPickList(i, done);
    db.SetOrder(pl.salesOrderId, db.orders[pl.salesOrderId].(status := OrderStatus.Picked));
    if !HasPackingTask(db.packingTasks, pl.id) {
      var k := db.AddPackingTask(PackingTask(pl.salesOrderId, Some(pl.id), None, PackingStatus.NotStarted));
    }
    if Visible(caller, done, db.orders[pl.salesOrderId]) {
      r := Ok(done);
    } else {
      r := Err(NotFound("Pick list not found"));
    }
  }

  /** `rejectAssignment`: the list goes back to NOT_STARTED with no picker and its
      order to CONFIRMED; the result is only the list's id. */
  method RejectAssignment(db: Db, caller: Caller, id: int) returns (r: Result<int>)
    requires Linked(db.pickLists, db.orders, id)
    modifies db`pickLists, db`orders
    ensures match CheckWork(old(db.pickLists), caller, id)
            case Err(e) => r == Err(e) && db.pickLists == old(db.pickLists) && db.orders == old(db.orders)
            case Ok(i) =>
              var pl := old(db.pickLists)[i];
              && r == Ok(id)
              && db.pickLists == old(db.pickLists)[i := Rejected(pl)]
              && db.orders == WithStatus(old(db.orders), pl.salesOrderId, Confirmed)
  {
    var check := CheckWork(db.pickLists, caller, id);
    if check.Err? {
      return Err(check.error);
    }
    var i := check.value;
    var pl := db.pickLists[i];
    db.pickLists := db.pickLists[i := Rejected(pl)];
    db.orders := WithStatus(db.orders, pl.salesOrderId, Confirmed);
    return Ok(id);
  }
}
