/** Purchase orders (services/purchaseOrderService.js): creation with its
    number, supplier check and totals; editing, approval and deletion, all
    three allowed only while the order is pending or draft. */
module PurchaseOrders {
  import opened Common
  import opened Statuses
  import opened Numbering
  import opened Store
  import GoodsReceipts

  // ------------------------------------------------------------------ lines

  /** One requested line; `Number(x) || 0` turns a missing or unreadable
      quantity or price into 0, written here as `None`. */
  datatype PoLine = PoLine(productId: int, quantity: Option<int>, unitPrice: Option<int>)

  /** The stored item of a line: its line total is quantity × unit price. */
  function ItemOf(l: PoLine): PoItem
  {
    var q := GetOr(l.quantity, 0);
    var p := GetOr(l.unitPrice, 0);
    PoItem(l.productId, q, p, q * p)
  }

  function ItemsOf(lines: seq<PoLine>): (items: seq<PoItem>)
    ensures |items| == |lines|
    ensures forall k :: 0 <= k < |lines| ==>
              && items[k].productId == lines[k].productId
              && items[k].quantity == GetOr(lines[k].quantity, 0) && items[k].unitPrice == GetOr(lines[k].unitPrice, 0)
              && items[k].totalPrice == items[k].quantity * items[k].unitPrice
  {
    if lines == [] then [] else ItemsOf(lines[..|lines| - 1]) + [ItemOf(lines[|lines| - 1])]
  }

  /** The order total as `create` and `update` compute it, straight from the
      request lines: Σ unitPrice × quantity. */
  function LinesAmount(lines: seq<PoLine>): int
  {
    if lines == [] then 0
    else
      var l := lines[|lines| - 1];
      LinesAmount(lines[..|lines| - 1]) + GetOr(l.unitPrice, 0) * GetOr(l.quantity, 0)
  }

  /** Σ totalPrice over stored items. */
  function ItemsTotal(items: seq<PoItem>): int
  {
    if items == [] then 0 else ItemsTotal(items[..|items| - 1]) + items[|items| - 1].totalPrice
  }

  /** The stored order total is the sum of its stored line totals. */
  lemma {:induction false} AmountIsSumOfItems(lines: seq<PoLine>)
    ensures LinesAmount(lines) == ItemsTotal(ItemsOf(lines))
  {
    if lines != [] {
      var n := |lines| - 1;
      AmountIsSumOfItems(lines[..n]);
      var items := ItemsOf(lines);
      assert items[..n] == ItemsOf(lines[..n]);
    }
  }

  /** Joining two requests adds their totals. */
  lemma {:induction false} LinesAmountSplit(a: seq<PoLine>, b: seq<PoLine>)
    ensures LinesAmount(a + b) == LinesAmount(a) + LinesAmount(b)
  {
    if b != [] {
      var n := |b| - 1;
      assert (a + b)[..|a + b| - 1] == a + b[..n];
      LinesAmountSplit(a, b[..n]);
    } else {
      assert a + b == a;
    }
  }

  // ------------------------------------------------------------- numbering

  /** The company's purchase orders. */
  function CompanyPoCount(pos: map<int, PurchaseOrder>, companyId: int): nat
  {
    |set id | id in pos && pos[id].companyId == companyId|
  }

  /** As written: `PO` followed by the company's order count plus one, padded
      to three digits. */
  function PoNumberAsWritten(pos: map<int, PurchaseOrder>, companyId: int): string
  {
    Numbered("PO", CompanyPoCount(pos, companyId) + 1, 3)
  }

  /** The counter a number carries, when it reads as `PO<digits>`. */
  function Counter(poNumber: string): Option<nat>
  {
    ParseNumbered("PO", false, poNumber)
  }

  /** Deleting a pending order and creating another: after PO001 and PO002,
      removing PO001 leaves one order, so the next number as written is PO002
      again, the number of the order still stored. */
  lemma AsWrittenRepeatsAfterDelete()
    ensures var a := PurchaseOrder(1, 5, "PO001", PoStatus.Pending, 0, []);
            var b := PurchaseOrder(1, 5, "PO002", PoStatus.Pending, 0, []);
            var after := map[10 := a, 11 := b] - {10};
            && PoNumberAsWritten(map[10 := a], 1) == "PO002"
            && 11 in after && PoNumberAsWritten(after, 1) == after[11].poNumber
  {
    var a := PurchaseOrder(1, 5, "PO001", PoStatus.Pending, 0, []);
    var b := PurchaseOrder(1, 5, "PO002", PoStatus.Pending, 0, []);
    var after := map[10 := a, 11 := b] - {10};
    assert (set id | id in map[10 := a] && map[10 := a][id].companyId == 1) == {10};
    assert (set id | id in after && after[id].companyId == 1) == {11};
    assert Decimal(2) == "2";
    assert Padded(2, 3) == "002";
  }

  /** `n` is the next counter of the company: one more than the largest counter
      among its orders' numbers, or 1 when none reads as a counter. Only the
      orders with ids in `ids` are looked at. */
  ghost predicate NextCounterAmong(pos: map<int, PurchaseOrder>, ids: set<int>, companyId: int, n: nat)
  {
    && n >= 1
    && (forall id :: id in ids && id in pos && pos[id].companyId == companyId && Counter(pos[id].poNumber).Some? ==>
          Counter(pos[id].poNumber).value < n)
    && (n == 1 || exists id :: id in ids && id in pos && pos[id].companyId == companyId && Counter(pos[id].poNumber) == Some(n - 1))
  }

  ghost predicate IsNextCounter(pos: map<int, PurchaseOrder>, companyId: int, n: nat)
  {
    NextCounterAmong(pos, pos.Keys, companyId, n)
  }

  /** The next counter is determined by the stored orders. */
  lemma NextCounterUnique(pos: map<int, PurchaseOrder>, companyId: int, a: nat, b: nat)
    requires IsNextCounter(pos, companyId, a) && IsNextCounter(pos, companyId, b)
    ensures a == b
  {
    if a != 1 {
      var i :| i in pos && pos[i].companyId == companyId && Counter(pos[i].poNumber) == Some(a - 1);
    }
    if b != 1 {
      var j :| j in pos && pos[j].companyId == companyId && Counter(pos[j].poNumber) == Some(b - 1);
    }
  }

  /** The number printed from the next counter belongs to no stored order of
      the company, deletions or not. */
  lemma NextCounterIsFresh(pos: map<int, PurchaseOrder>, companyId: int, n: nat)
    requires IsNextCounter(pos, companyId, n)
    ensures forall id :: id in pos && pos[id].companyId == companyId ==> pos[id].poNumber != Numbered("PO", n, 3)
  {
    NumberedRoundTrip("PO", false, n, 3);
  }

  /** The corrected numbering: a scan of the company's orders for the largest
      counter in use. */
  method NextPoCounter(pos: map<int, PurchaseOrder>, companyId: int) returns (n: nat)
    ensures IsNextCounter(pos, companyId, n)
  {
    n := 1;
    var todo := pos.Keys;
    ghost var seen: set<int> := {};
    while todo != {}
      invariant todo + seen == pos.Keys && todo !! seen
      invariant NextCounterAmong(pos, seen, companyId, n)
      decreases |todo|
    {
      if forall x :: x !in todo {
        assert false;
      }
      var id :| id in todo;
      var k := Counter(pos[id].poNumber);
      if pos[id].companyId == companyId && k.Some? && k.value >= n {
        n := k.value + 1;
      }
      todo := todo - {id};
      seen := seen + {id};
    }
  }

  /** After the deletion of the counterexample, the corrected numbering moves
      on to PO003 instead of repeating PO002. */
  lemma CorrectedNumberAfterDelete()
    ensures var b := PurchaseOrder(1, 5, "PO002", PoStatus.Pending, 0, []);
            IsNextCounter(map[11 := b], 1, 3) && Numbered("PO", 3, 3) != b.poNumber
  {
    var b := PurchaseOrder(1, 5, "PO002", PoStatus.Pending, 0, []);
    NumberedRoundTrip("PO", false, 2, 3);
    assert Numbered("PO", 2, 3) == "PO002" by {
      assert Decimal(2) == "2";
      assert Padded(2, 3) == "002";
    }
    assert Counter(map[11 := b][11].poNumber) == Some(2);
    NumberedRoundTrip("PO", false, 3, 3);
  }

  // --------------------------------------------------------------- creation

  /** The request body of `create`. */
  datatype PoRequest = PoRequest(companyId: Option<int>, supplierId: int, status: Option<PoStatus>, lines: seq<PoLine>)

  predicate MayCreate(role: Role)
  {
    role == SuperAdmin || role == CompanyAdmin || role == WarehouseManager || role == InventoryManager
  }

  /** A super admin may name the company in the body, everyone else works in
      their own. */
  function CreateCompany(caller: Caller, req: PoRequest): Option<int>
  {
    if caller.role == SuperAdmin then OrElse(req.companyId, caller.companyId) else caller.companyId
  }

  /** The checks of `create`: the role, a company, and a supplier of that
      company. */
  function CheckCreate(suppliers: map<int, Supplier>, caller: Caller, req: PoRequest): (r: Result<int>)
    ensures r.Ok? <==>
              && MayCreate(caller.role) && CreateCompany(caller, req).Some?
              && req.supplierId in suppliers && suppliers[req.supplierId].companyId == CreateCompany(caller, req).value
    ensures r.Ok? ==> CreateCompany(caller, req) == Some(r.value)
    ensures !MayCreate(caller.role) ==> r.Err? && r.error.Forbidden?
  {
    if !MayCreate(caller.role) then Err(Forbidden("Not allowed to create purchase orders"))
    else match CreateCompany(caller, req)
      case None => Err(Validation("Company context required"))
      case Some(c) =>
        if req.supplierId !in suppliers || suppliers[req.supplierId].companyId != c then Err(Validation("Invalid supplier"))
        else Ok(c)
  }

  /** The stored order: the requested status or PENDING, the lines' total. */
  function NewPo(companyId: int, req: PoRequest, counter: nat): (po: PurchaseOrder)
    ensures Counter(po.poNumber) == Some(counter)
    ensures po.totalAmount == ItemsTotal(po.items) && |po.items| == |req.lines|
    ensures req.status.None? ==> po.status == PoStatus.Pending
  {
    NumberedRoundTrip("PO", false, counter, 3);
    AmountIsSumOfItems(req.lines);
    PurchaseOrder(companyId, req.supplierId, Numbered("PO", counter, 3), GetOr(req.status, PoStatus.Pending),
                  LinesAmount(req.lines), ItemsOf(req.lines))
  }

  /** `create`, numbered with the corrected counter. */
  method CreatePurchaseOrder(db: Db, caller: Caller, req: PoRequest) returns (r: Result<PurchaseOrder>)
    requires db.Valid()
    modifies db`nextId, db`purchaseOrders
    ensures db.Valid()
    ensures CheckCreate(db.suppliers, caller, req).Err? ==>
              r == Err(CheckCreate(db.suppliers, caller, req).error)
              && db.purchaseOrders == old(db.purchaseOrders) && db.nextId == old(db.nextId)
    ensures CheckCreate(db.suppliers, caller, req).Ok? ==>
              var c := CheckCreate(db.suppliers, caller, req).value;
              && r.Ok? && Counter(r.value.poNumber).Some?
              && IsNextCounter(old(db.purchaseOrders), c, Counter(r.value.poNumber).value)
              && r.value == NewPo(c, req, Counter(r.value.poNumber).value)
              && old(db.nextId) !in old(db.purchaseOrders)
              && db.purchaseOrders == old(db.purchaseOrders)[old(db.nextId) := r.value]
  {
    var check := CheckCreate(db.suppliers, caller, req);
    if check.Err? {
      return Err(check.error);
    }
    var counter := NextPoCounter(db.purchaseOrders, check.value);
    var po := NewPo(check.value, req, counter);
    var id := db.AddPurchaseOrder(po);
    return Ok(po);
  }

  /** Two orders created one after the other for the same company get
      different numbers. */
  lemma ConsecutiveNumbersDiffer(pos: map<int, PurchaseOrder>, companyId: int, id: int, po: PurchaseOrder, n: nat, m: nat)
    requires IsNextCounter(pos, companyId, n) && Counter(po.poNumber) == Some(n) && po.companyId == companyId
    requires IsNextCounter(pos[id := po], companyId, m)
    ensures m == n + 1
  {
    if m != 1 {
      var j :| j in pos[id := po] && pos[id := po][j].companyId == companyId && Counter(pos[id := po][j].poNumber) == Some(m - 1);
    }
    assert Counter(pos[id := po][id].poNumber) == Some(n);
  }

  // ---------------------------------------------------------- status gates

  /** An order may be edited, approved or deleted while pending or draft. */
  predicate Open(s: PoStatus)
  {
    s == PoStatus.Pending || s == PoStatus.Draft
  }

  /** The checks shared by `update`, `approve` and `remove`. */
  function CheckOpen(pos: map<int, PurchaseOrder>, caller: Caller, id: int): (r: Result<PurchaseOrder>)
    ensures r.Ok? <==> id in pos && SeesCompany(caller, pos[id].companyId) && Open(pos[id].status)
    ensures r.Ok? ==> r.value == pos[id]
    ensures r.Err? && id in pos && SeesCompany(caller, pos[id].companyId) ==> r.error.InvalidTransition?
  {
    if id !in pos || !SeesCompany(caller, pos[id].companyId) then Err(NotFound("Purchase order not found"))
    else if !Open(pos[id].status) then Err(InvalidTransition("Only pending/draft PO can be changed"))
    else Ok(pos[id])
  }

  /** The fields `update` may supply; the lines replace the items only when
      given and not empty. */
  datatype PoPatch = PoPatch(supplierId: Option<int>, status: Option<PoStatus>, lines: Option<seq<PoLine>>)

  function ReplacesItems(p: PoPatch): bool
  {
    p.lines.Some? && |p.lines.value| > 0
  }

  function Patch(po: PurchaseOrder, p: PoPatch): (r: PurchaseOrder)
    ensures r.companyId == po.companyId && r.poNumber == po.poNumber
    ensures ReplacesItems(p) ==> r.items == ItemsOf(p.lines.value) && r.totalAmount == ItemsTotal(r.items)
    ensures !ReplacesItems(p) ==> r.items == po.items && r.totalAmount == po.totalAmount
  {
    var q := po.(supplierId := GetOr(p.supplierId, po.supplierId), status := GetOr(p.status, po.status));
    if ReplacesItems(p) then
      AmountIsSumOfItems(p.lines.value);
      q.(totalAmount := LinesAmount(p.lines.value), items := ItemsOf(p.lines.value))
    else q
  }

  /** An empty patch changes nothing, and a patch applied twice is applied
      once. */
  lemma PatchLaws(po: PurchaseOrder, p: PoPatch)
    ensures Patch(po, PoPatch(None, None, None)) == po
    ensures Patch(po, PoPatch(None, None, Some([]))) == po
    ensures Patch(Patch(po, p), p) == Patch(po, p)
  {
  }

  /** `update`. */
  method UpdatePurchaseOrder(db: Db, caller: Caller, id: int, p: PoPatch) returns (r: Result<PurchaseOrder>)
    modifies db`purchaseOrders
    ensures match CheckOpen(old(db.purchaseOrders), caller, id)
            case Err(e) => r == Err(e) && db.purchaseOrders == old(db.purchaseOrders)
            case Ok(po) => r == Ok(Patch(po, p)) && db.purchaseOrders == old(db.purchaseOrders)[id := Patch(po, p)]
  {
    var check := CheckOpen(db.purchaseOrders, caller, id);
    if check.Err? {
      return Err(check.error);
    }
    var po := Patch(check.value, p);
    db.purchaseOrders := db.purchaseOrders[id := po];
    return Ok(po);
  }

  /** `approve`. */
  method ApprovePurchaseOrder(db: Db, caller: Caller, id: int) returns (r: Result<PurchaseOrder>)
    modifies db`purchaseOrders
    ensures match CheckOpen(old(db.purchaseOrders), caller, id)
            case Err(e) => r == Err(e) && db.purchaseOrders == old(db.purchaseOrders)
            case Ok(po) =>
              r == Ok(po.(status := PoStatus.Approved))
              && db.purchaseOrders == old(db.purchaseOrders)[id := po.(status := PoStatus.Approved)]
  {
    var check := CheckOpen(db.purchaseOrders, caller, id);
    if check.Err? {
      return Err(check.error);
    }
    var po := check.value.(status := PoStatus.Approved);
    db.purchaseOrders := db.purchaseOrders[id := po];
    return Ok(po);
  }

  /** Approval closes the order to further edits, approval and deletion, and
      opens it to goods receipts: before approval a receipt is refused, after
      it a caller of the order's company may create one. */
  lemma ApprovalGatesReceipts(pos: map<int, PurchaseOrder>, caller: Caller, id: int, bodyCompany: Option<int>)
    requires CheckOpen(pos, caller, id).Ok?
    ensures GoodsReceipts.CheckCreate(pos, caller, id, bodyCompany).Err?
    ensures var after := pos[id := pos[id].(status := PoStatus.Approved)];
            && CheckOpen(after, caller, id).Err?
            && (caller.role != SuperAdmin ==> GoodsReceipts.CheckCreate(after, caller, id, bodyCompany).Ok?)
  {
  }

  /** `remove`: the order and, with it, its items. */
  method RemovePurchaseOrder(db: Db, caller: Caller, id: int) returns (r: Result<int>)
    modifies db`purchaseOrders
    ensures match CheckOpen(old(db.purchaseOrders), caller, id)
            case Err(e) => r == Err(e) && db.purchaseOrders == old(db.purchaseOrders)
            case Ok(_) => r == Ok(id) && db.purchaseOrders == old(db.purchaseOrders) - {id}
  {
    var check := CheckOpen(db.purchaseOrders, caller, id);
    if check.Err? {
      return Err(check.error);
    }
    db.purchaseOrders := db.purchaseOrders - {id};
    return Ok(id);
  }

  /** Deleting an order never makes the corrected numbering reuse a number
      still stored: the next counter after a removal is at most the one
      before, and its number is still fresh. */
  lemma RemoveKeepsNumberingFresh(pos: map<int, PurchaseOrder>, companyId: int, id: int, n: nat, m: nat)
    requires IsNextCounter(pos, companyId, n) && IsNextCounter(pos - {id}, companyId, m)
    ensures m <= n
    ensures forall j :: j in pos - {id} && pos[j].companyId == companyId ==> pos[j].poNumber != Numbered("PO", m, 3)
  {
    NextCounterIsFresh(pos - {id}, companyId, m);
    if m != 1 {
      var j :| j in pos - {id} && (pos - {id})[j].companyId == companyId && Counter((pos - {id})[j].poNumber) == Some(m - 1);
    }
  }
}
