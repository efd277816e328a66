/** Replenishment tasks (services/replenishmentTaskService.js): numbered tasks to
    move a quantity of one product from a source location to a destination
    location, completed by a stock transfer and a TRANSFER movement. */
module ReplenishmentTasks {
  import opened Common
  import opened Statuses
  import opened Numbering
  import opened Ledger
  import opened Store

  // ---------------------------------------------------------------- creation

  /** The request body; `quantityNeeded` is `Number(...) || 0`. */
  datatype TaskRequest = TaskRequest(
    companyId: Option<int>, productId: int, fromLocationId: int, toLocationId: int,
    quantityNeeded: int, priority: Option<string>, notes: Option<string>)

  /** How many tasks the company has. */
  function CompanyTaskCount(tasks: map<int, ReplenishmentTask>, companyId: int): nat
  {
    |set id | id in tasks && tasks[id].companyId == companyId|
  }

  /** `RPL-` followed by the count plus one, padded to six digits. */
  function TaskNumber(count: nat): string
  {
    Numbered("RPL-", count + 1, 6)
  }

  /** `value || fallback` on an optional string: an empty string counts as absent. */
  function OrIfEmpty(value: Option<string>, fallback: Option<string>): (r: Option<string>)
    ensures r == value || r == fallback
    ensures r.None? ==> fallback.None?
    ensures r.Some? ==> r.value != "" || r == fallback
  {
    if value.Some? && value.value != "" then value else fallback
  }

  /** The new task: PENDING, nothing completed, the requested quantity, the
      next number, priority MEDIUM unless one is given. */
  function NewTask(companyId: int, req: TaskRequest, count: nat): (t: ReplenishmentTask)
    ensures t.companyId == companyId && t.productId == req.productId
    ensures t.fromLocationId == req.fromLocationId && t.toLocationId == req.toLocationId
    ensures t.status == TaskStatus.Pending && t.quantityCompleted == 0 && t.quantityNeeded == req.quantityNeeded
    ensures ParseNumbered("RPL-", false, t.taskNumber) == Some(count + 1)
    ensures req.priority.None? ==> t.priority == "MEDIUM"
    ensures t.notes.Some? ==> t.notes == req.notes && t.notes.value != ""
  {
    NumberedRoundTrip("RPL-", false, count + 1, 6);
    ReplenishmentTask(companyId, req.productId, req.fromLocationId, req.toLocationId, TaskNumber(count),
                      req.quantityNeeded, 0, OrIfEmpty(req.priority, Some("MEDIUM")).value, OrIfEmpty(req.notes, None), TaskStatus.Pending)
  }

  /** The counter a task number carries, if it is well formed. */
  function Counter(number: string): Option<nat>
  {
    ParseNumbered("RPL-", false, number)
  }

  /** Every task of the company carries a counter no larger than the company's
      task count: numbers were handed out one after another and none was freed. */
  predicate Dense(tasks: map<int, ReplenishmentTask>, companyId: int)
  {
    forall id :: id in tasks && tasks[id].companyId == companyId ==>
      Counter(tasks[id].taskNumber).Some? && Counter(tasks[id].taskNumber).value <= CompanyTaskCount(tasks, companyId)
  }

  /** On dense numbering the next number is used by no task of the company. */
  lemma NextTaskNumberIsFresh(tasks: map<int, ReplenishmentTask>, companyId: int)
    requires Dense(tasks, companyId)
    ensures forall k :: k in tasks && tasks[k].companyId == companyId ==>
              tasks[k].taskNumber != TaskNumber(CompanyTaskCount(tasks, companyId))
  {
    var n := CompanyTaskCount(tasks, companyId);
    NumberedRoundTrip("RPL-", false, n + 1, 6);
    assert Counter(TaskNumber(n)) == Some(n + 1);
  }

  /** A task of the company stored under a new id adds one to its count. */
  lemma CountAfterInsert(tasks: map<int, ReplenishmentTask>, companyId: int, id: int, t: ReplenishmentTask)
    requires id !in tasks && t.companyId == companyId
    ensures CompanyTaskCount(tasks[id := t], companyId) == CompanyTaskCount(tasks, companyId) + 1
  {
    var m := tasks[id := t];
    var before := set k | k in tasks && tasks[k].companyId == companyId;
    var after := set k | k in m && m[k].companyId == companyId;
    assert after == before + {id};
  }

  /** Storing the new task under a new id adds one to the company's count and
      keeps its numbering dense. */
  lemma CreateKeepsDense(tasks: map<int, ReplenishmentTask>, companyId: int, req: TaskRequest, id: int)
    requires Dense(tasks, companyId) && id !in tasks
    ensures var t := NewTask(companyId, req, CompanyTaskCount(tasks, companyId));
            && CompanyTaskCount(tasks[id := t], companyId) == CompanyTaskCount(tasks, companyId) + 1
            && Dense(tasks[id := t], companyId)
  {
    var n := CompanyTaskCount(tasks, companyId);
    var t := NewTask(companyId, req, n);
    var m := tasks[id := t];
    CountAfterInsert(tasks, companyId, id, t);
    assert Counter(t.taskNumber) == Some(n + 1);
    forall k | k in m && m[k].companyId == companyId
      ensures Counter(m[k].taskNumber).Some? && Counter(m[k].taskNumber).value <= n + 1
    {
      if k != id {
        assert m[k] == tasks[k];
      }
    }
  }

  /** The checks of `create`: a company context, from the caller or the body. */
  function CheckCreate(caller: Caller, req: TaskRequest): (r: Result<int>)
    ensures r.Ok? <==> OrElse(caller.companyId, req.companyId).Some?
    ensures r.Ok? ==> Some(r.value) == OrElse(caller.companyId, req.companyId)
  {
    match OrElse(caller.companyId, req.companyId)
    case None => Err(Validation("companyId required"))
    case Some(c) => Ok(c)
  }

  /** `create`: a PENDING task with nothing completed under the next number.
      The row is stored once a company is known; it is returned only when the
      caller may read it back, as the trailing lookup checks the tenant. */
  method CreateTask(db: Db, caller: Caller, req: TaskRequest) returns (r: Result<ReplenishmentTask>)
    requires db.Valid()
    modifies db`nextId, db`replenishmentTasks
    ensures db.Valid()
    ensures CheckCreate(caller, req).Err? ==>
              r == Err(CheckCreate(caller, req).error)
              && db.replenishmentTasks == old(db.replenishmentTasks) && db.nextId == old(db.nextId)
    ensures CheckCreate(caller, req).Ok? ==>
              var c := CheckCreate(caller, req).value;
              var t := NewTask(c, req, CompanyTaskCount(old(db.replenishmentTasks), c));
              && old(db.nextId) !in old(db.replenishmentTasks)
              && db.replenishmentTasks == old(db.replenishmentTasks)[old(db.nextId) := t]
              && r == (if SeesCompany(caller, c) then Ok(t) else Err(NotFound("Replenishment task not found")))
  {
    var check := CheckCreate(caller, req);
    if check.Err? {
      return Err(check.error);
    }
    var c := check.value;
    var t := NewTask(c, req, CompanyTaskCount(db.replenishmentTasks, c));
    var id := db.AddReplenishmentTask(t);
    if SeesCompany(caller, c) {
      r := Ok(t);
    } else {
      r := Err(NotFound("Replenishment task not found"));
    }
  }

  // ------------------------------------------------------------------ update

  /** The fields an update may supply; `notes` distinguishes absent (`None`)
      from an explicit null (`Some(None)`). */
  datatype TaskPatch = TaskPatch(
    productId: Option<int>, fromLocationId: Option<int>, toLocationId: Option<int>,
    quantityNeeded: Option<int>, quantityCompleted: Option<int>, priority: Option<string>,
    notes: Option<Option<string>>, status: Option<TaskStatus>)

  /** The task with the supplied fields replaced. */
  function Patch(t: ReplenishmentTask, p: TaskPatch): (t': ReplenishmentTask)
    ensures t'.companyId == t.companyId && t'.taskNumber == t.taskNumber
  {
    t.(productId := GetOr(p.productId, t.productId),
       fromLocationId := GetOr(p.fromLocationId, t.fromLocationId),
       toLocationId := GetOr(p.toLocationId, t.toLocationId),
       quantityNeeded := GetOr(p.quantityNeeded, t.quantityNeeded),
       quantityCompleted := GetOr(p.quantityCompleted, t.quantityCompleted),
       priority := GetOr(p.priority, t.priority),
       notes := GetOr(p.notes, t.notes),
       status := GetOr(p.status, t.status))
  }

  /** An update that supplies nothing changes nothing, and applying the same
      update twice is applying it once. */
  lemma PatchLaws(t: ReplenishmentTask, p: TaskPatch)
    ensures Patch(t, TaskPatch(None, None, None, None, None, None, None, None)) == t
    ensures Patch(Patch(t, p), p) == Patch(t, p)
  {
  }

  /** A task of the caller's company, by id. */
  function CheckTask(tasks: map<int, ReplenishmentTask>, caller: Caller, id: int): (r: Result<ReplenishmentTask>)
    ensures r.Ok? <==> id in tasks && SeesCompany(caller, tasks[id].companyId)
    ensures r.Ok? ==> r.value == tasks[id]
  {
    if id in tasks && SeesCompany(caller, tasks[id].companyId) then Ok(tasks[id])
    else Err(NotFound("Replenishment task not found"))
  }

  /** `update`: only the supplied fields change; numbering stays dense. */
  method UpdateTask(db: Db, caller: Caller, id: int, p: TaskPatch) returns (r: Result<ReplenishmentTask>)
    modifies db`replenishmentTasks
    ensures match CheckTask(old(db.replenishmentTasks), caller, id)
            case Err(e) => r == Err(e) && db.replenishmentTasks == old(db.replenishmentTasks)
            case Ok(t) => r == Ok(Patch(t, p)) && db.replenishmentTasks == old(db.replenishmentTasks)[id := Patch(t, p)]
  {
    var check := CheckTask(db.replenishmentTasks, caller, id);
    if check.Err? {
      return Err(check.error);
    }
    var t := Patch(check.value, p);
    db.replenishmentTasks := db.replenishmentTasks[id := t];
    return Ok(t);
  }

  /** Replacing a task by an update of itself keeps every company's numbering
      dense. */
  lemma PatchKeepsDense(tasks: map<int, ReplenishmentTask>, companyId: int, id: int, p: TaskPatch)
    requires Dense(tasks, companyId) && id in tasks
    ensures Dense(tasks[id := Patch(tasks[id], p)], companyId)
  {
    var m := tasks[id := Patch(tasks[id], p)];
    assert (set k | k in m && m[k].companyId == companyId) == (set k | k in tasks && tasks[k].companyId == companyId);
  }

  // -------------------------------------------------------------- completion

  /** The record a transfer draws on or feeds: the product at the location, in
      the warehouse of the location's zone, whatever the batch. */
  function AtLocation(locations: map<int, Location>, productId: int, loc: int): StockQuery
    requires loc in locations
  {
    StockQuery(productId, InWarehouse(locations[loc].warehouseId), Is(Some(loc)), Any)
  }

  /** The transfer: the source record must exist and have `qty` available
      (quantity less reserved); it loses `qty`, and the destination record gains
      it, or is created with it. It is refused exactly when there is no source
      record or too little is available there. */
  function Transfer(stock: seq<StockRecord>, src: StockQuery, dst: StockQuery, created: StockRecord, qty: int): (r: Result<seq<StockRecord>>)
    ensures r.Err? <==>
              FirstMatch(stock, src).None?
              || stock[FirstMatch(stock, src).value].quantity - stock[FirstMatch(stock, src).value].reserved < qty
  {
    match FirstMatch(stock, src)
    case None => Err(InsufficientStock("No stock at source location"))
    case Some(i) =>
      if stock[i].quantity - stock[i].reserved < qty then Err(InsufficientStock("Insufficient stock at source"))
      else Ok(Credit(AddAt(stock, i, -qty), dst, created, qty))
  }

  /** An accepted transfer conserves every product's total on hand and
      reserved. */
  lemma TransferConserves(stock: seq<StockRecord>, src: StockQuery, dst: StockQuery, created: StockRecord, qty: int, p: int)
    requires src.productId == dst.productId && FreshRow(created, dst, qty)
    requires Transfer(stock, src, dst, created, qty).Ok?
    ensures Total(Transfer(stock, src, dst, created, qty).value, p, OnHand) == Total(stock, p, OnHand)
    ensures Total(Transfer(stock, src, dst, created, qty).value, p, Reserved) == Total(stock, p, Reserved)
  {
    var i := FirstMatch(stock, src).value;
    var taken := AddAt(stock, i, -qty);
    assert Transfer(stock, src, dst, created, qty).value == Credit(taken, dst, created, qty);
    AddAtTotals(stock, i, -qty, p);
    CreditTotals(taken, dst, created, qty, p);
  }

  /** An accepted transfer takes `qty` from what the source query finds, then
      gives `qty` to what the destination query finds. */
  lemma TransferMovesHeld(stock: seq<StockRecord>, src: StockQuery, dst: StockQuery, created: StockRecord, qty: int)
    requires FreshRow(created, dst, qty) && Matches(created, dst)
    requires Transfer(stock, src, dst, created, qty).Ok?
    ensures var taken := AddAt(stock, FirstMatch(stock, src).value, -qty);
            && HeldAt(taken, src) == HeldAt(stock, src) - qty
            && HeldAt(Transfer(stock, src, dst, created, qty).value, dst) == HeldAt(taken, dst) + qty
  {
    var taken := AddAt(stock, FirstMatch(stock, src).value, -qty);
    assert Transfer(stock, src, dst, created, qty).value == Credit(taken, dst, created, qty);
    AddAtHeldAt(stock, src, -qty);
    CreditHeldAt(taken, dst, created, qty);
  }

  /** An accepted transfer of a non-negative quantity keeps a sound ledger
      sound: the source had that much available. */
  lemma TransferKeepsSound(stock: seq<StockRecord>, src: StockQuery, dst: StockQuery, created: StockRecord, qty: int)
    requires FreshRow(created, dst, qty) && Sound(stock) && qty >= 0
    requires Transfer(stock, src, dst, created, qty).Ok?
    ensures Sound(Transfer(stock, src, dst, created, qty).value)
  {
    var i := FirstMatch(stock, src).value;
    var taken := AddAt(stock, i, -qty);
    forall k | 0 <= k < |taken|
      ensures 0 <= taken[k].reserved <= taken[k].quantity
    {
      if k != i {
        assert taken[k] == stock[k];
      }
    }
    CreditKeepsSound(taken, dst, created, qty);
  }

  /** The checks of `complete`, in the order they are made: the task, its
      status, a positive quantity, and both locations. */
  function CheckComplete(tasks: map<int, ReplenishmentTask>, locations: map<int, Location>, caller: Caller, id: int): (r: Result<ReplenishmentTask>)
    ensures r.Ok? <==>
      && id in tasks && SeesCompany(caller, tasks[id].companyId)
      && tasks[id].status != TaskStatus.Completed
      && tasks[id].quantityNeeded > 0
      && tasks[id].fromLocationId in locations && tasks[id].toLocationId in locations
    ensures r.Ok? ==> r.value == tasks[id]
  {
    if id !in tasks || !SeesCompany(caller, tasks[id].companyId) then Err(NotFound("Replenishment task not found"))
    else
      var t := tasks[id];
      if t.status == TaskStatus.Completed then Err(InvalidTransition("Task already completed"))
      else if t.quantityNeeded <= 0 then Err(Validation("Invalid quantity"))
      else if t.fromLocationId !in locations || t.toLocationId !in locations then Err(NotFound("From/To location not found"))
      else Ok(t)
  }

  /** The transfer of a task. */
  function TaskTransfer(stock: seq<StockRecord>, locations: map<int, Location>, t: ReplenishmentTask): Result<seq<StockRecord>>
    requires t.fromLocationId in locations && t.toLocationId in locations
  {
    Transfer(stock, AtLocation(locations, t.productId, t.fromLocationId), AtLocation(locations, t.productId, t.toLocationId),
             StockRecord(t.productId, locations[t.toLocationId].warehouseId, Some(t.toLocationId), None, t.quantityNeeded, 0),
             t.quantityNeeded)
  }

  /** The movement a completion logs. */
  function TransferMovement(t: ReplenishmentTask, caller: Caller): Movement
  {
    Movement(t.companyId, MovementType.Transfer, t.productId, None, Some(t.fromLocationId), Some(t.toLocationId), t.quantityNeeded, caller.id)
  }

  /** The stock side of `complete`: debit the row the source query finds, then
      credit the row the destination query finds or append `created`. */
  method MoveStock(db: Db, src: StockQuery, dst: StockQuery, created: StockRecord, qty: int) returns (r: Result<seq<StockRecord>>)
    modifies db`stock
    ensures r == Transfer(old(db.stock), src, dst, created, qty)
    ensures r.Ok? ==> db.stock == r.value
    ensures r.Err? ==> db.stock == old(db.stock)
  {
    var from := FindFirst(db.stock, src);
    if from.None? {
      return Err(InsufficientStock("No stock at source location"));
    }
    var i := from.value;
    if db.stock[i].quantity - db.stock[i].reserved < qty {
      return Err(InsufficientStock("Insufficient stock at source"));
    }
    db.stock := db.stock[i := db.stock[i].(quantity := db.stock[i].quantity - qty)];
    var to := FindFirst(db.stock, dst);
    if to.Some? {
      var j := to.value;
      db.stock := db.stock[j := db.stock[j].(quantity := db.stock[j].quantity + qty)];
    } else {
      db.stock := db.stock + [created];
    }
    return Ok(db.stock);
  }

  /** `complete`. A refused completion changes nothing; a successful one moves
      the stock, logs one TRANSFER of the task's quantity, and marks the task
      COMPLETED with all of it done. */
  method CompleteTask(db: Db, caller: Caller, id: int) returns (r: Result<ReplenishmentTask>)
    modifies db`stock, db`movements, db`replenishmentTasks
    ensures CheckComplete(old(db.replenishmentTasks), db.locations, caller, id).Err? ==>
              && r == Err(CheckComplete(old(db.replenishmentTasks), db.locations, caller, id).error)
              && db.stock == old(db.stock) && db.movements == old(db.movements)
              && db.replenishmentTasks == old(db.replenishmentTasks)
    ensures CheckComplete(old(db.replenishmentTasks), db.locations, caller, id).Ok? ==>
              var t := old(db.replenishmentTasks)[id];
              match TaskTransfer(old(db.stock), db.locations, t)
              case Err(e) =>
                r == Err(e) && db.stock == old(db.stock) && db.movements == old(db.movements)
                && db.replenishmentTasks == old(db.replenishmentTasks)
              case Ok(s) =>
                var done := t.(status := TaskStatus.Completed, quantityCompleted := t.quantityNeeded);
                && r == Ok(done) && db.stock == s
                && db.movements == old(db.movements) + [TransferMovement(t, caller)]
                && db.replenishmentTasks == old(db.replenishmentTasks)[id := done]
  {
    var check := CheckComplete(db.replenishmentTasks, db.locations, caller, id);
    if check.Err? {
      return Err(check.error);
    }
    var t := check.value;
    var qty := t.quantityNeeded;
    var src := AtLocation(db.locations, t.productId, t.fromLocationId);
    var dst := AtLocation(db.locations, t.productId, t.toLocationId);
    var moved := MoveStock(db, src, dst, StockRecord(t.productId, db.locations[t.toLocationId].warehouseId, Some(t.toLocationId), None, qty, 0), qty);
    if moved.Err? {
      return Err(moved.error);
    }
    db.movements := db.movements + [TransferMovement(t, caller)];
    var done := t.(status := TaskStatus.Completed, quantityCompleted := qty);
    db.replenishmentTasks := db.replenishmentTasks[id := done];
    return Ok(done);
  }
}
