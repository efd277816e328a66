/** Packing (services/packingService.js): a packing task is assigned to a packer,
    started, completed (which creates the order's shipment) or handed back. */
module Packing {
  import opened Common
  import opened Statuses
  import opened Store

  // ------------------------------------------------------------ transitions

  /** The status and the assignee agree: a task not started has no packer, an
      assigned task has one. */
  predicate WellAssigned(t: PackingTask)
  {
    && (t.status == PackingStatus.NotStarted ==> t.assignedTo.None?)
    && (t.status == PackingStatus.Assigned ==> t.assignedTo.Some?)
  }

  /** Assignment: ASSIGNED to the packer. */
  function AssignTo(t: PackingTask, userId: int): (t': PackingTask)
    ensures WellAssigned(t') && t'.assignedTo == Some(userId) && t'.status == PackingStatus.Assigned
    ensures t'.salesOrderId == t.salesOrderId && t'.pickListId == t.pickListId
  {
    t.(assignedTo := Some(userId), status := PackingStatus.Assigned)
  }

  /** Starting: PACKING, whatever the task's status was. */
  function Started(t: PackingTask): (t': PackingTask)
    ensures WellAssigned(t') && t'.status == PackingStatus.Packing && t'.assignedTo == t.assignedTo
    ensures t'.salesOrderId == t.salesOrderId && t'.pickListId == t.pickListId
  {
    t.(status := PackingStatus.Packing)
  }

  /** Completion: PACKED. */
  function Packed(t: PackingTask): (t': PackingTask)
    ensures WellAssigned(t') && t'.status == PackingStatus.Packed && t'.assignedTo == t.assignedTo
    ensures t'.salesOrderId == t.salesOrderId && t'.pickListId == t.pickListId
  {
    t.(status := PackingStatus.Packed)
  }

  /** Handing back: NOT_STARTED with no packer, from any status. */
  function Rejected(t: PackingTask): (t': PackingTask)
    ensures WellAssigned(t') && t'.status == PackingStatus.NotStarted && t'.assignedTo.None?
    ensures t'.salesOrderId == t.salesOrderId && t'.pickListId == t.pickListId
  {
    t.(status := PackingStatus.NotStarted, assignedTo := None)
  }

  /** The shipment completion creates: READY_TO_SHIP, for the task's order and
      that order's company, packed by the caller. */
  function ShipmentFor(t: PackingTask, order: SalesOrder, caller: Caller): (s: Shipment)
    ensures s.salesOrderId == t.salesOrderId && s.companyId == order.companyId
    ensures s.packedBy == caller.id && s.deliveryStatus == ReadyToShip
  {
    Shipment(t.salesOrderId, order.companyId, caller.id, ReadyToShip)
  }

  /** The number of shipments of one order. */
  function ShipmentCount(shipments: map<int, Shipment>, orderId: int): nat
  {
    |set k | k in shipments && shipments[k].salesOrderId == orderId|
  }

  /** Each completion that is not skipped adds one shipment of the order: a
      shipment stored under a new id raises the order's count by one. */
  lemma ShipmentAddsOne(shipments: map<int, Shipment>, id: int, s: Shipment)
    requires id !in shipments
    ensures ShipmentCount(shipments[id := s], s.salesOrderId) == ShipmentCount(shipments, s.salesOrderId) + 1
  {
    var m := shipments[id := s];
    assert (set k | k in m && m[k].salesOrderId == s.salesOrderId)
        == (set k | k in shipments && shipments[k].salesOrderId == s.salesOrderId) + {id};
  }

  /** Only a PACKED task skips completion, and a hand-back leaves no task PACKED:
      complete, reject, complete is two completions that are not skipped, so the
      order ends up with two shipments. */
  lemma RejectReopensCompletion(t: PackingTask, order: SalesOrder, caller: Caller,
                                shipments: map<int, Shipment>, id1: int, id2: int)
    requires id1 !in shipments && id2 !in shipments && id1 != id2
    ensures Rejected(Packed(t)).status != PackingStatus.Packed
    ensures var s := ShipmentFor(t, order, caller);
            ShipmentCount(shipments[id1 := s][id2 := s], t.salesOrderId) == ShipmentCount(shipments, t.salesOrderId) + 2
  {
    var s := ShipmentFor(t, order, caller);
    ShipmentAddsOne(shipments, id1, s);
    ShipmentAddsOne(shipments[id1 := s], id2, s);
  }

  // ----------------------------------------------------------------- guards

  predicate MayAssign(role: Role)
  {
    role == WarehouseManager || role == CompanyAdmin || role == SuperAdmin
  }

  /** A packer may act only on a task assigned to them; other roles on any. */
  predicate MayWork(caller: Caller, t: PackingTask)
  {
    caller.role != Packer || t.assignedTo == Some(caller.id)
  }

  /** The lookup that ends assignment, start and completion: a packer sees only
      their tasks, a company admin only tasks of their company's orders; an
      order that is gone fails that lookup for a company admin. */
  predicate Visible(caller: Caller, t: PackingTask, orders: map<int, SalesOrder>)
  {
    && MayWork(caller, t)
    && (caller.role != CompanyAdmin || (t.salesOrderId in orders && caller.companyId == Some(orders[t.salesOrderId].companyId)))
  }

  /** The checks of `assignPacker`: role, the task, its order's company (for
      everyone but a super admin), and an assignee who is a packer of that
      company. A task without its order fails the company read. */
  function CheckAssign(tasks: map<int, PackingTask>, orders: map<int, SalesOrder>, users: map<int, User>,
                       caller: Caller, id: int, userId: int): (r: Result<PackingTask>)
    ensures r.Ok? <==>
      && MayAssign(caller.role)
      && id in tasks && tasks[id].salesOrderId in orders
      && var c := orders[tasks[id].salesOrderId].companyId;
         && (caller.role == SuperAdmin || caller.companyId == Some(c))
         && userId in users && users[userId].role == Packer && users[userId].companyId == Some(c)
    ensures r.Ok? ==> r.value == tasks[id]
  {
    if !MayAssign(caller.role) then Err(Forbidden("Only Warehouse Manager can assign packer"))
    else if id !in tasks || tasks[id].salesOrderId !in orders then Err(NotFound("Packing task not found"))
    else
      var c := orders[tasks[id].salesOrderId].companyId;
      if caller.role != SuperAdmin && caller.companyId != Some(c) then Err(NotFound("Packing task not found"))
      else if userId !in users || users[userId].role != Packer || users[userId].companyId != Some(c) then
        Err(Validation("Invalid packer"))
      else Ok(tasks[id])
  }

  /** The checks of the packer's own steps: the task, and the assignee guard. */
  function CheckWork(tasks: map<int, PackingTask>, caller: Caller, id: int): (r: Result<PackingTask>)
    ensures r.Ok? <==> id in tasks && MayWork(caller, tasks[id])
    ensures r.Ok? ==> r.value == tasks[id]
  {
    if id !in tasks then Err(NotFound("Packing task not found"))
    else if !MayWork(caller, tasks[id]) then Err(Forbidden("Not assigned to you"))
    else Ok(tasks[id])
  }

  // ------------------------------------------------------------- operations

  /** `assignPacker`: the task is ASSIGNED to the packer; the order is untouched. */
  method AssignPacker(db: Db, caller: Caller, id: int, userId: int) returns (r: Result<PackingTask>)
    modifies db`packingTasks
    ensures match CheckAssign(old(db.packingTasks), db.orders, db.users, caller, id, userId)
            case Err(e) => r == Err(e) && db.packingTasks == old(db.packingTasks)
            case Ok(t) => r == Ok(AssignTo(t, userId)) && db.packingTasks == old(db.packingTasks)[id := AssignTo(t, userId)]
  {
    var check := CheckAssign(db.packingTasks, db.orders, db.users, caller, id, userId);
    if check.Err? {
      return Err(check.error);
    }
    var t := AssignTo(check.value, userId);
    db.packingTasks := db.packingTasks[id := t];
    return Ok(t);
  }

  /** `startPacking`: the task is PACKING and its order, when it exists,
      PACKING_IN_PROGRESS; the tenant is checked only by the trailing lookup. */
  method StartPacking(db: Db, caller: Caller, id: int) returns (r: Result<PackingTask>)
    modifies db`packingTasks, db`orders
    ensures match CheckWork(old(db.packingTasks), caller, id)
            case Err(e) => r == Err(e) && db.packingTasks == old(db.packingTasks) && db.orders == old(db.orders)
            case Ok(t) =>
              && db.packingTasks == old(db.packingTasks)[id := Started(t)]
              && db.orders == (if t.salesOrderId in old(db.orders)
                               then old(db.orders)[t.salesOrderId := old(db.orders)[t.salesOrderId].(status := PackingInProgress)]
                               else old(db.orders))
              && r == (if Visible(caller, Started(t), db.orders) then Ok(Started(t)) else Err(NotFound("Packing task not found")))
  {
    var check := CheckWork(db.packingTasks, caller, id);
    if check.Err? {
      return Err(check.error);
    }
    var t := Started(check.value);
    db.packingTasks := db.packingTasks[id := t];
    if t.salesOrderId in db.orders {
      db.orders := db.orders[t.salesOrderId := db.orders[t.salesOrderId].(status := PackingInProgress)];
    }
    if Visible(caller, t, db.orders) {
      r := Ok(t);
    } else {
      r := Err(NotFound("Packing task not found"));
    }
  }

  /** `completePacking`. A PACKED task is returned as it is and nothing is
      written. Otherwise one READY_TO_SHIP shipment is created under the next id
      (reading the order's company, so a task without its order fails first),
      and the task and the order become PACKED. */
  method CompletePacking(db: Db, caller: Caller, id: int) returns (r: Result<PackingTask>)
    requires db.Valid()
    modifies db`nextId, db`packingTasks, db`orders, db`shipments
    ensures db.Valid()
    ensures match CheckWork(old(db.packingTasks), caller, id)
            case Err(e) =>
              r == Err(e) && db.packingTasks == old(db.packingTasks) && db.orders == old(db.orders)
              && db.shipments == old(db.shipments)
            case Ok(t) =>
              if t.status == PackingStatus.Packed || t.salesOrderId !in old(db.orders) then
                && r == (if t.status == PackingStatus.Packed then Ok(t) else Err(NotFound("Sales order not found")))
                && db.packingTasks == old(db.packingTasks) && db.orders == old(db.orders)
                && db.shipments == old(db.shipments)
              else
                var order := old(db.orders)[t.salesOrderId];
                && old(db.nextId) !in old(db.shipments)
                && db.shipments == old(db.shipments)[old(db.nextId) := ShipmentFor(t, order, caller)]
                && db.packingTasks == old(db.packingTasks)[id := Packed(t)]
                && db.orders == old(db.orders)[t.salesOrderId := order.(status := OrderStatus.Packed)]
                && r == (if Visible(caller, Packed(t), db.orders) then Ok(Packed(t)) else Err(NotFound("Packing task not found")))
  {
    var check := CheckWork(db.packingTasks, caller, id);
    if check.Err? {
      return Err(check.error);
    }
    var t := check.value;
    if t.status == PackingStatus.Packed {
      return Ok(t);
    }
    if t.salesOrderId !in db.orders {
      return Err(NotFound("Sales order not found"));
    }
    var order := db.orders[t.salesOrderId];
    var sid := db.AddShipment(ShipmentFor(t, order, caller));
    var done := Packed(t);
    db.SetPackingTask(id, done);
    db.SetOrder(t.salesOrderId, order.(status := OrderStatus.Packed));
    if Visible(caller, done, db.orders) {
      r := Ok(done);
    } else {
      r := Err(NotFound("Packing task not found"));
    }
  }

  /** `rejectAssignment`: the task goes back to NOT_STARTED with no packer; the
      order is untouched and the result is only the task's id. */
  method RejectAssignment(db: Db, caller: Caller, id: int) returns (r: Result<int>)
    modifies db`packingTasks
    ensures match CheckWork(old(db.packingTasks), caller, id)
            case Err(e) => r == Err(e) && db.packingTasks == old(db.packingTasks)
            case Ok(t) => r == Ok(id) && db.packingTasks == old(db.packingTasks)[id := Rejected(t)]
  {
    var check := CheckWork(db.packingTasks, caller, id);
    if check.Err? {
      return Err(check.error);
    }
    db.packingTasks := db.packingTasks[id := Rejected(check.value)];
    return Ok(id);
  }
}
