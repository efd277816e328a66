/** Returns (controllers/ReturnController.js): an RMA is opened against a shipped
    or delivered sales order and then moves through a fixed lifecycle —
    received, inspected (approved or rejected), refunded, closed. */
module Returns {
  import opened Common
  import opened Statuses
  import opened Numbering
  import opened Store
  import Shipments

  // ------------------------------------------------------------- numbering

  /** `RMA-<year>-`, the part of an RMA number before its counter. */
  function YearPrefix(year: nat): string
  {
    "RMA-" + Decimal(year) + "-"
  }

  /** `RMA-${year}-${String(count + 1).padStart(4, '0')}`. */
  function RmaNumber(year: nat, count: nat): string
  {
    Numbered(YearPrefix(year), count + 1, 4)
  }

  /** The counter an RMA number carries for the given year, if it has that form. */
  function Counter(year: nat, number: string): Option<nat>
  {
    ParseNumbered(YearPrefix(year), false, number)
  }

  /** An RMA number reads back as its year and counter. */
  lemma RmaNumberRoundTrip(year: nat, count: nat)
    ensures Counter(year, RmaNumber(year, count)) == Some(count + 1)
  {
    NumberedRoundTrip(YearPrefix(year), false, count + 1, 4);
  }

  /** A number printed for one year does not read as a number of another year. */
  lemma YearsDoNotOverlap(year: nat, other: nat, count: nat)
    ensures year != other ==> Counter(other, RmaNumber(year, count)).None?
  {
    if year == other {
      return;
    }
    var s := RmaNumber(year, count);
    var p := YearPrefix(other);
    var d, e := Decimal(year), Decimal(other);
    PaddedValue(count + 1, 4);
    assert s == "RMA-" + d + "-" + Padded(count + 1, 4);
    if |e| < |d| {
      assert s[4 + |e|] == d[|e|];
      assert p[4 + |e|] == '-';
      if |s| >= |p| {
        assert s[..|p|][4 + |e|] != p[4 + |e|];
      }
    } else if |e| > |d| {
      assert s[4 + |d|] == '-';
      assert p[4 + |d|] == e[|d|];
      if |s| >= |p| {
        assert s[..|p|][4 + |d|] != p[4 + |d|];
      }
    } else {
      DecimalValue(year);
      DecimalValue(other);
      assert d != e;
      if |s| >= |p| {
        assert s[..|p|][4..4 + |d|] == d;
        assert p[4..4 + |e|] == e;
      }
    }
  }

  /** Two RMA numbers are equal only for the same year and the same count. */
  lemma RmaNumberInjective(y1: nat, c1: nat, y2: nat, c2: nat)
    requires RmaNumber(y1, c1) == RmaNumber(y2, c2)
    ensures y1 == y2 && c1 == c2
  {
    RmaNumberRoundTrip(y1, c1);
    RmaNumberRoundTrip(y2, c2);
    YearsDoNotOverlap(y2, y1, c2);
  }

  /** How many RMAs the company has (`Return.count({ where: { companyId } })`). */
  function CompanyRmaCount(rmas: map<int, Rma>, companyId: int): nat
  {
    |set id | id in rmas && rmas[id].companyId == companyId|
  }

  /** Every RMA numbered for `year` carries a counter no larger than the number
      of RMAs stored: numbers were handed out one after another from one count. */
  predicate Dense(rmas: map<int, Rma>, year: nat)
  {
    forall id :: id in rmas && Counter(year, rmas[id].rmaNumber).Some? ==>
      Counter(year, rmas[id].rmaNumber).value <= |rmas|
  }

  /** Dense for every year. */
  ghost predicate AllDense(rmas: map<int, Rma>)
  {
    forall year: nat :: Dense(rmas, year)
  }

  // -------------------------------------------------------------- creation

  /** The request body. `shipmentId` is `None` when absent or 0 (`shipmentId ||`);
      `returnType` and `reason` are `None` when missing, which the non-null
      columns refuse. */
  datatype RmaRequest = RmaRequest(
    salesOrderId: int, shipmentId: Option<int>, returnType: Option<ReturnType>, reason: Option<string>)

  /** The shipment an order's `Shipment` association loads: one of the order's
      shipments, or none when it has none. */
  predicate IsOrderShipment(shipments: map<int, Shipment>, orderId: int, found: Option<int>)
  {
    && (found.None? <==> forall s :: s in shipments ==> shipments[s].salesOrderId != orderId)
    && (found.Some? ==> found.value in shipments && shipments[found.value].salesOrderId == orderId)
  }

  /** With at most one shipment per order, the association is determined. */
  lemma OrderShipmentUnique(shipments: map<int, Shipment>, orderId: int, a: Option<int>, b: Option<int>)
    requires Shipments.OneShipmentPerOrder(shipments)
    requires IsOrderShipment(shipments, orderId, a) && IsOrderShipment(shipments, orderId, b)
    ensures a == b
  {
    if a.Some? {
      assert shipments[a.value].salesOrderId == orderId;
      assert b.Some?;
      assert b.value in shipments && shipments[b.value].salesOrderId == orderId;
      assert a.value == b.value;
    }
  }

  /** Load the order's shipment by scanning the shipments table. */
  method FindOrderShipment(shipments: map<int, Shipment>, orderId: int) returns (found: Option<int>)
    ensures IsOrderShipment(shipments, orderId, found)
  {
    var todo := shipments.Keys;
    while todo != {}
      invariant todo <= shipments.Keys
      invariant forall s :: s in shipments && s !in todo ==> shipments[s].salesOrderId != orderId
      decreases |todo|
    {
      if forall s :: s !in todo {
        assert false;
      }
      var s :| s in todo;
      if shipments[s].salesOrderId == orderId {
        return Some(s);
      }
      todo := todo - {s};
    }
    return None;
  }

  /** What the order and its loaded shipment admit, before a number is chosen:
      the company the RMA belongs to and the shipment it refers to. */
  datatype Admission = Admission(companyId: int, shipmentId: int, returnType: ReturnType, reason: string)

  /** The order's shipment is on its way or delivered, or the order itself is
      DELIVERED. */
  predicate Returnable(shipments: map<int, Shipment>, order: SalesOrder, orderShipment: Option<int>)
  {
    || (orderShipment.Some? && orderShipment.value in shipments
        && shipments[orderShipment.value].deliveryStatus in {DeliveryStatus.Delivered, DeliveryStatus.Shipped, InTransit})
    || order.status == OrderStatus.Delivered
  }

  /** The checks of `createRMA` up to the numbering: the order, visible to the
      caller; a returnable order; the given shipment or else the order's own,
      of the order's company unless the caller is a super admin; then the
      non-null columns. */
  function Admit(orders: map<int, SalesOrder>, shipments: map<int, Shipment>, caller: Caller,
                 req: RmaRequest, orderShipment: Option<int>): (r: Result<Admission>)
  {
    if req.salesOrderId !in orders || !SeesCompany(caller, orders[req.salesOrderId].companyId) then
      Err(NotFound("Sales Order not found"))
    else
      var order := orders[req.salesOrderId];
      var shipmentId := OrElse(req.shipmentId, orderShipment);
      if !Returnable(shipments, order, orderShipment) then
        Err(InvalidTransition("RMA can only be created for shipped/delivered orders"))
      else if shipmentId.None? || shipmentId.value !in shipments
              || (caller.role != SuperAdmin && shipments[shipmentId.value].companyId != order.companyId) then
        Err(NotFound("Shipment record not found"))
      else if req.returnType.None? then Err(Validation("returnType cannot be null"))
      else if req.reason.None? then Err(Validation("reason cannot be null"))
      else Ok(Admission(order.companyId, shipmentId.value, req.returnType.value, req.reason.value))
  }

  /** Both directions of `Admit`: it succeeds exactly when every check passes,
      and then names the order's company and the resolved shipment. */
  lemma AdmitIff(orders: map<int, SalesOrder>, shipments: map<int, Shipment>, caller: Caller,
                 req: RmaRequest, orderShipment: Option<int>)
    ensures var r := Admit(orders, shipments, caller, req, orderShipment);
            var s := OrElse(req.shipmentId, orderShipment);
            && (r.Ok? <==>
                 && req.salesOrderId in orders && SeesCompany(caller, orders[req.salesOrderId].companyId)
                 && Returnable(shipments, orders[req.salesOrderId], orderShipment)
                 && s.Some? && s.value in shipments
                 && (caller.role == SuperAdmin || shipments[s.value].companyId == orders[req.salesOrderId].companyId)
                 && req.returnType.Some? && req.reason.Some?)
            && (r.Ok? ==> r.value.companyId == orders[req.salesOrderId].companyId
                          && Some(r.value.shipmentId) == s && s.value in shipments)
  {
  }

  /** A caller of another company never opens an RMA on an order: the order
      lookup already fails. */
  lemma AdmitRespectsTenant(orders: map<int, SalesOrder>, shipments: map<int, Shipment>, caller: Caller,
                            req: RmaRequest, orderShipment: Option<int>)
    requires caller.role != SuperAdmin
    requires req.salesOrderId in orders && caller.companyId != Some(orders[req.salesOrderId].companyId)
    ensures Admit(orders, shipments, caller, req, orderShipment) == Err(NotFound("Sales Order not found"))
  {
  }

  /** The new row: RMA_CREATED, nothing recovered or refunded yet, the order's
      customer, the caller as author. */
  function NewRma(order: SalesOrder, req: RmaRequest, a: Admission, number: string, createdBy: int): Rma
  {
    Rma(a.companyId, number, req.salesOrderId, a.shipmentId, order.customerId, RmaCreated,
        a.returnType, a.reason, 0, 0, createdBy)
  }

  /** Whether some stored RMA already carries the number (the unique index on
      `rmaNumber`, across all companies). */
  predicate NumberTaken(rmas: map<int, Rma>, number: string)
  {
    exists id :: id in rmas && rmas[id].rmaNumber == number
  }

  /** `createRMA` as written: the counter is the count of the company's RMAs,
      while the unique index spans every company. */
  function CreateAsWritten(orders: map<int, SalesOrder>, shipments: map<int, Shipment>, rmas: map<int, Rma>,
                           caller: Caller, req: RmaRequest, orderShipment: Option<int>, year: nat): (r: Result<Rma>)
    ensures r.Ok? ==> !NumberTaken(rmas, r.value.rmaNumber)
  {
    match Admit(orders, shipments, caller, req, orderShipment)
    case Err(e) => Err(e)
    case Ok(a) =>
      var number := RmaNumber(year, CompanyRmaCount(rmas, a.companyId));
      if NumberTaken(rmas, number) then Err(Conflict("rmaNumber must be unique"))
      else Ok(NewRma(orders[req.salesOrderId], req, a, number, caller.id))
  }

  /** Once one company has opened an RMA in a year, another company that has
      none cannot open its first one that year: both count to one, and the
      number is refused by the unique index. */
  lemma AsWrittenSecondCompanyBlocked()
    ensures var orders := map[1 := SalesOrder(1, "ORD-a", None, OrderStatus.Delivered, 0, 9),
                              2 := SalesOrder(2, "ORD-b", None, OrderStatus.Delivered, 0, 9)];
            var shipments := map[3 := Shipment(2, 2, 9, DeliveryStatus.Delivered)];
            var rmas := map[4 := Rma(1, RmaNumber(2026, 0), 1, 5, None, RmaCreated, ReturnType.Refund, "Damaged", 0, 0, 9)];
            var req := RmaRequest(2, None, Some(ReturnType.Refund), Some("Damaged"));
            var caller := Caller(9, CompanyAdmin, Some(2));
            && AllDense(rmas)
            && Admit(orders, shipments, caller, req, Some(3)).Ok?
            && CreateAsWritten(orders, shipments, rmas, caller, req, Some(3), 2026) == Err(Conflict("rmaNumber must be unique"))
  {
    var rmas := map[4 := Rma(1, RmaNumber(2026, 0), 1, 5, None, RmaCreated, ReturnType.Refund, "Damaged", 0, 0, 9)];
    assert (set id | id in rmas && rmas[id].companyId == 2) == {};
    assert rmas[4].rmaNumber == RmaNumber(2026, CompanyRmaCount(rmas, 2));
    forall year: nat
      ensures Dense(rmas, year)
    {
      if year == 2026 {
        RmaNumberRoundTrip(2026, 0);
      } else {
        YearsDoNotOverlap(2026, year, 0);
      }
    }
  }

  /** `createRMA` with the counter taken over every RMA, so that it agrees with
      the scope of the unique index. */
  function CheckCreate(orders: map<int, SalesOrder>, shipments: map<int, Shipment>, rmas: map<int, Rma>,
                       caller: Caller, req: RmaRequest, orderShipment: Option<int>, year: nat): (r: Result<Rma>)
    ensures r.Ok? ==> !NumberTaken(rmas, r.value.rmaNumber)
  {
    match Admit(orders, shipments, caller, req, orderShipment)
    case Err(e) => Err(e)
    case Ok(a) =>
      var number := RmaNumber(year, |rmas|);
      if NumberTaken(rmas, number) then Err(Conflict("rmaNumber must be unique"))
      else Ok(NewRma(orders[req.salesOrderId], req, a, number, caller.id))
  }

  /** On dense numbering the next number is free, so creation fails only on the
      checks of `Admit`, and the new RMA is RMA_CREATED with the admitted
      company, shipment and the order's customer. */
  lemma CreateNeverConflicts(orders: map<int, SalesOrder>, shipments: map<int, Shipment>, rmas: map<int, Rma>,
                             caller: Caller, req: RmaRequest, orderShipment: Option<int>, year: nat)
    requires Dense(rmas, year)
    ensures var r := CheckCreate(orders, shipments, rmas, caller, req, orderShipment, year);
            var a := Admit(orders, shipments, caller, req, orderShipment);
            && (r.Ok? <==> a.Ok?)
            && (a.Err? ==> r == Err(a.error))
            && (r.Ok? ==> && r.value.status == RmaCreated && r.value.companyId == a.value.companyId
                          && r.value.shipmentId == a.value.shipmentId && r.value.salesOrderId == req.salesOrderId
                          && r.value.customerId == orders[req.salesOrderId].customerId
                          && r.value.createdBy == caller.id
                          && r.value.recoveryValue == 0 && r.value.refundAmount == 0
                          && Counter(year, r.value.rmaNumber) == Some(|rmas| + 1))
  {
    var number := RmaNumber(year, |rmas|);
    RmaNumberRoundTrip(year, |rmas|);
    forall id | id in rmas
      ensures rmas[id].rmaNumber != number
    {
      assert Counter(year, number) == Some(|rmas| + 1);
    }
  }

  /** Storing the created RMA under a new id keeps the numbering of every year
      dense. */
  lemma CreateKeepsDense(rmas: map<int, Rma>, x: Rma, id: int, year: nat)
    requires AllDense(rmas) && id !in rmas
    requires Counter(year, x.rmaNumber) == Some(|rmas| + 1) && x.rmaNumber == RmaNumber(year, |rmas|)
    ensures AllDense(rmas[id := x])
  {
    var m := rmas[id := x];
    assert m.Keys == rmas.Keys + {id};
    assert |m| == |rmas| + 1;
    forall y: nat
      ensures Dense(m, y)
    {
      forall k | k in m && Counter(y, m[k].rmaNumber).Some?
        ensures Counter(y, m[k].rmaNumber).value <= |m|
      {
        if k == id {
          if y != year {
            YearsDoNotOverlap(year, y, |rmas|);
          }
        } else {
          assert Dense(rmas, y);
          assert m[k] == rmas[k];
        }
      }
    }
  }

  /** `createRMA`: load the order's shipment, check, and store the RMA under a
      new id. Nothing is written when a check fails. */
  method CreateRma(db: Db, caller: Caller, req: RmaRequest, year: nat) returns (r: Result<Rma>)
    requires db.Valid()
    modifies db`nextId, db`rmas
    ensures db.Valid()
    ensures exists found :: IsOrderShipment(old(db.shipments), req.salesOrderId, found)
              && r == CheckCreate(old(db.orders), old(db.shipments), old(db.rmas), caller, req, found, year)
    ensures r.Err? ==> db.rmas == old(db.rmas) && db.nextId == old(db.nextId)
    ensures r.Ok? ==> old(db.nextId) !in old(db.rmas) && db.rmas == old(db.rmas)[old(db.nextId) := r.value]
  {
    var found := FindOrderShipment(db.shipments, req.salesOrderId);
    r := CheckCreate(db.orders, db.shipments, db.rmas, caller, req, found, year);
    if r.Ok? {
      var id := db.AddRma(r.value);
    }
  }

  // ------------------------------------------------------------ transitions

  /** The four workflow actions: `receiveItem`, `inspectRMA` with its outcome
      and recovery value, `processRefund` with its amount, `closeRMA`. */
  datatype Action =
    | Receive
    | Inspect(outcome: RmaStatus, recoveryValue: Option<int>)
    | Refund(amount: int)
    | Close

  /** One action on an RMA: the status guard first, then the inspection outcome;
      on success the new status and the amounts the action records. */
  function Next(x: Rma, a: Action): Result<Rma>
  {
    match a
    case Receive =>
      if x.status in {RmaCreated, AwaitingReturn} then Ok(x.(status := RmaStatus.Received))
      else Err(InvalidTransition("Cannot receive item"))
    case Inspect(outcome, recovery) =>
      if x.status != RmaStatus.Received && x.status != InInspection then
        Err(InvalidTransition("Item must be RECEIVED before inspection"))
      else if outcome != RmaStatus.Approved && outcome != RmaStatus.Rejected then
        Err(Validation("Invalid inspection outcome"))
      else Ok(x.(status := outcome, recoveryValue := GetOr(recovery, 0)))
    case Refund(amount) =>
      if x.status == RmaStatus.Approved then Ok(x.(status := Refunded, refundAmount := amount))
      else Err(InvalidTransition("RMA must be APPROVED before refund"))
    case Close =>
      if x.status in {Refunded, RmaStatus.Rejected} then Ok(x.(status := Closed))
      else Err(InvalidTransition("RMA can only be closed after Refund or Rejection"))
  }

  /** The statuses an action may start from. */
  function Sources(a: Action): set<RmaStatus>
  {
    match a
    case Receive => {RmaCreated, AwaitingReturn}
    case Inspect(_, _) => {RmaStatus.Received, InInspection}
    case Refund(_) => {RmaStatus.Approved}
    case Close => {Refunded, RmaStatus.Rejected}
  }

  /** The status an accepted action leads to. */
  function Target(a: Action): RmaStatus
  {
    match a
    case Receive => RmaStatus.Received
    case Inspect(outcome, _) => outcome
    case Refund(_) => Refunded
    case Close => Closed
  }

  /** An inspection must name APPROVED or REJECTED; the other actions carry no
      choice. */
  predicate WellFormed(a: Action)
  {
    a.Inspect? ==> a.outcome in {RmaStatus.Approved, RmaStatus.Rejected}
  }

  /** Both directions of the transition table: an action is accepted exactly
      from its source statuses (with a valid outcome), and then leads to its
      target; a refused action reports the status guard before the outcome. */
  lemma NextFollowsTable(x: Rma, a: Action)
    ensures Next(x, a).Ok? <==> x.status in Sources(a) && WellFormed(a)
    ensures Next(x, a).Ok? ==> Next(x, a).value.status == Target(a)
    ensures x.status !in Sources(a) ==> Next(x, a).error.InvalidTransition?
  {
  }

  /** A transition touches only the status and the amount the action records:
      the RMA's identity, order, shipment, customer and reason stay. */
  lemma NextKeepsIdentity(x: Rma, a: Action)
    requires Next(x, a).Ok?
    ensures var y := Next(x, a).value;
            && y.companyId == x.companyId && y.rmaNumber == x.rmaNumber
            && y.salesOrderId == x.salesOrderId && y.shipmentId == x.shipmentId
            && y.customerId == x.customerId && y.returnType == x.returnType
            && y.reason == x.reason && y.createdBy == x.createdBy
            && (!a.Inspect? ==> y.recoveryValue == x.recoveryValue)
            && (a.Inspect? ==> y.recoveryValue == GetOr(a.recoveryValue, 0))
            && (a.Refund? ==> y.refundAmount == a.amount)
            && (!a.Refund? ==> y.refundAmount == x.refundAmount)
  {
  }

  /** A closed RMA accepts no further action. */
  lemma ClosedIsTerminal(x: Rma, a: Action)
    requires x.status == Closed
    ensures Next(x, a).Err?
  {
  }

  /** AWAITING_RETURN and IN_INSPECTION are accepted as sources but no action
      leads to them, nor back to RMA_CREATED. */
  lemma NeverEntered(x: Rma, a: Action)
    requires Next(x, a).Ok?
    ensures Next(x, a).value.status !in {RmaCreated, AwaitingReturn, InInspection}
  {
  }

  /** Progress along the lifecycle. */
  function Rank(s: RmaStatus): nat
  {
    match s
    case RmaCreated => 0
    case AwaitingReturn => 0
    case Received => 1
    case InInspection => 1
    case Approved => 2
    case Rejected => 2
    case Refunded => 3
    case Closed => 4
  }

  /** Every accepted action moves strictly forward. */
  lemma NextAdvances(x: Rma, a: Action)
    requires Next(x, a).Ok?
    ensures Rank(Next(x, a).value.status) > Rank(x.status)
  {
  }

  /** A sequence of actions applied one after another, stopping at the first
      refusal. */
  function Run(x: Rma, actions: seq<Action>): Result<Rma>
    decreases |actions|
  {
    if actions == [] then Ok(x)
    else
      match Next(x, actions[0])
      case Err(e) => Err(e)
      case Ok(y) => Run(y, actions[1..])
  }

  /** Each accepted action of a run adds at least one to the rank. */
  lemma {:induction false} RunAdvances(x: Rma, actions: seq<Action>)
    requires Run(x, actions).Ok?
    ensures Rank(Run(x, actions).value.status) >= Rank(x.status) + |actions|
    decreases |actions|
  {
    if actions != [] {
      var y := Next(x, actions[0]).value;
      NextAdvances(x, actions[0]);
      RunAdvances(y, actions[1..]);
    }
  }

  /** No RMA goes through more than four accepted actions: the workflow always
      ends. */
  lemma RunIsShort(x: Rma, actions: seq<Action>)
    requires Run(x, actions).Ok?
    ensures |actions| <= 4 - Rank(x.status)
  {
    RunAdvances(x, actions);
  }

  /** A run that starts before inspection and ends REFUNDED contains an
      inspection with outcome APPROVED. */
  lemma {:induction false} RefundNeedsApproval(x: Rma, actions: seq<Action>)
    requires Rank(x.status) <= 1
    requires Run(x, actions).Ok? && Run(x, actions).value.status == Refunded
    ensures exists i :: 0 <= i < |actions| && actions[i].Inspect? && actions[i].outcome == RmaStatus.Approved
    decreases |actions|
  {
    if actions == [] {
    } else {
      var y := Next(x, actions[0]).value;
      if actions[0].Inspect? {
        assert y.status == actions[0].outcome;
        if actions[0].outcome == RmaStatus.Approved {
          assert actions[0].Inspect? && actions[0].outcome == RmaStatus.Approved;
        } else {
          RunAdvances(y, actions[1..]);
          var z := Run(y, actions[1..]).value;
          assert z.status == Run(x, actions).value.status;
          assert Rank(y.status) == 2;
          // From REJECTED only CLOSE is accepted, which never reaches REFUNDED.
          RejectedNeverRefunded(y, actions[1..]);
        }
      } else {
        assert Rank(y.status) <= 1;
        RefundNeedsApproval(y, actions[1..]);
        var i :| 0 <= i < |actions[1..]| && actions[1..][i].Inspect? && actions[1..][i].outcome == RmaStatus.Approved;
        assert actions[i + 1] == actions[1..][i];
      }
    }
  }

  /** From REJECTED a run can only close; it never reaches REFUNDED. */
  lemma {:induction false} RejectedNeverRefunded(x: Rma, actions: seq<Action>)
    requires x.status in {RmaStatus.Rejected, Closed}
    requires Run(x, actions).Ok?
    ensures Run(x, actions).value.status != Refunded
    decreases |actions|
  {
    if actions != [] {
      RejectedNeverRefunded(Next(x, actions[0]).value, actions[1..]);
    }
  }

  /** The RMA lookup of the transition handlers: the company filter applies
      only when the caller is not a super admin and has a company. */
  predicate Visible(caller: Caller, x: Rma)
  {
    caller.role == SuperAdmin || caller.companyId.None? || caller.companyId == Some(x.companyId)
  }

  /** The RMA with the given id if the caller sees it, then the action on it. */
  function Step(rmas: map<int, Rma>, caller: Caller, id: int, a: Action): (r: Result<Rma>)
  {
    if id !in rmas || !Visible(caller, rmas[id]) then Err(NotFound("RMA not found"))
    else Next(rmas[id], a)
  }

  /** A caller of another company gets "not found" whatever the status; a
      caller with no company reaches every RMA. */
  lemma StepTenancy(rmas: map<int, Rma>, caller: Caller, id: int, a: Action)
    requires id in rmas
    ensures caller.role != SuperAdmin && caller.companyId.Some? && caller.companyId != Some(rmas[id].companyId) ==>
              Step(rmas, caller, id, a) == Err(NotFound("RMA not found"))
    ensures caller.companyId.None? ==> Step(rmas, caller, id, a) == Next(rmas[id], a)
  {
  }

  /** One handler: look the RMA up, apply the action, write it back. Only the
      returns table changes; stock is not touched. */
  method Apply(db: Db, caller: Caller, id: int, a: Action) returns (r: Result<Rma>)
    modifies db`rmas
    ensures r == Step(old(db.rmas), caller, id, a)
    ensures r.Err? ==> db.rmas == old(db.rmas)
    ensures r.Ok? ==> db.rmas == old(db.rmas)[id := r.value]
    ensures db.stock == old(db.stock)
  {
    r := Step(db.rmas, caller, id, a);
    if r.Ok? {
      db.rmas := db.rmas[id := r.value];
    }
  }

  /** `receiveItem`: RMA_CREATED or AWAITING_RETURN to RECEIVED. */
  method ReceiveItem(db: Db, caller: Caller, id: int) returns (r: Result<Rma>)
    modifies db`rmas
    ensures r == Step(old(db.rmas), caller, id, Action.Receive)
    ensures r.Ok? ==> db.rmas == old(db.rmas)[id := r.value] && r.value.status == RmaStatus.Received
    ensures r.Err? ==> db.rmas == old(db.rmas)
  {
    r := Apply(db, caller, id, Action.Receive);
  }

  /** `inspectRMA`: RECEIVED or IN_INSPECTION to the outcome, APPROVED or
      REJECTED, recording the recovery value. */
  method InspectRma(db: Db, caller: Caller, id: int, outcome: RmaStatus, recoveryValue: Option<int>) returns (r: Result<Rma>)
    modifies db`rmas
    ensures r == Step(old(db.rmas), caller, id, Inspect(outcome, recoveryValue))
    ensures r.Ok? ==> db.rmas == old(db.rmas)[id := r.value] && r.value.status == outcome
                      && outcome in {RmaStatus.Approved, RmaStatus.Rejected}
    ensures r.Err? ==> db.rmas == old(db.rmas)
  {
    r := Apply(db, caller, id, Inspect(outcome, recoveryValue));
  }

  /** `processRefund`: APPROVED to REFUNDED, recording the amount. */
  method ProcessRefund(db: Db, caller: Caller, id: int, amount: int) returns (r: Result<Rma>)
    modifies db`rmas
    ensures r == Step(old(db.rmas), caller, id, Action.Refund(amount))
    ensures r.Ok? ==> db.rmas == old(db.rmas)[id := r.value] && r.value.status == Refunded
                      && r.value.refundAmount == amount
    ensures r.Err? ==> db.rmas == old(db.rmas)
  {
    r := Apply(db, caller, id, Action.Refund(amount));
  }

  /** `closeRMA`: REFUNDED or REJECTED to CLOSED. */
  method CloseRma(db: Db, caller: Caller, id: int) returns (r: Result<Rma>)
    modifies db`rmas
    ensures r == Step(old(db.rmas), caller, id, Close)
    ensures r.Ok? ==> db.rmas == old(db.rmas)[id := r.value] && r.value.status == Closed
    ensures r.Err? ==> db.rmas == old(db.rmas)
  {
    r := Apply(db, caller, id, Close);
  }
}
