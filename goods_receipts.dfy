/** Goods receipts (services/goodsReceiptService.js): a receipt snapshots an
    approved purchase order's lines under the next GRN number; receiving updates
    the lines, the totals and the status, and credits the stock with what was
    received since the last update; legacy `GRN-x-y` numbers are renumbered for
    display. */
module GoodsReceipts {
  import opened Common
  import opened Statuses
  import opened Numbering
  import opened Ledger
  import opened Store

  // ---------------------------------------------------------------- numbering

  /** The GRN numbers of one company's receipts, in table order. */
  function CompanyNumbers(rs: seq<GoodsReceipt>, companyId: int): (ns: seq<string>)
    ensures forall x :: x in ns <==> exists i :: 0 <= i < |rs| && rs[i].companyId == companyId && rs[i].grNumber == x
  {
    if rs == [] then []
    else
      var init := rs[..|rs| - 1];
      var last := rs[|rs| - 1];
      var ns := CompanyNumbers(init, companyId);
      assert forall i :: 0 <= i < |init| ==> init[i] == rs[i];
      if last.companyId == companyId then ns + [last.grNumber] else ns
  }

  /** The number a new receipt of the company gets: GRN followed by one more than
      the largest `GRN<digits>` counter in use (1 when there is none), padded to
      three digits. */
  function NextGrNumber(rs: seq<GoodsReceipt>, companyId: int): string
  {
    Numbered("GRN", NextNumber("GRN", true, CompanyNumbers(rs, companyId)), 3)
  }

  /** The new number is not the number of any receipt of the company. */
  lemma NextGrNumberIsFresh(rs: seq<GoodsReceipt>, companyId: int)
    ensures forall i :: 0 <= i < |rs| && rs[i].companyId == companyId ==> rs[i].grNumber != NextGrNumber(rs, companyId)
  {
    var ns := CompanyNumbers(rs, companyId);
    NextNumberIsFresh("GRN", true, ns, 3);
    forall i | 0 <= i < |rs| && rs[i].companyId == companyId
      ensures rs[i].grNumber != NextGrNumber(rs, companyId)
    {
      assert rs[i].grNumber in ns;
    }
  }

  // ----------------------------------------------------------------- creation

  /** The sum of the purchase order's item quantities. */
  function ExpectedTotal(items: seq<PoItem>): int
  {
    if items == [] then 0 else ExpectedTotal(items[..|items| - 1]) + items[|items| - 1].quantity
  }

  function ReceivedTotal(lines: seq<ReceiptLine>): int
  {
    if lines == [] then 0 else ReceivedTotal(lines[..|lines| - 1]) + lines[|lines| - 1].receivedQty
  }

  function LinesExpected(lines: seq<ReceiptLine>): int
  {
    if lines == [] then 0 else LinesExpected(lines[..|lines| - 1]) + lines[|lines| - 1].expectedQty
  }

  /** One receipt line per purchase-order item, with ids from `firstId`. */
  function Snapshot(items: seq<PoItem>, firstId: int): (lines: seq<ReceiptLine>)
  {
    seq(|items|, k requires 0 <= k < |items| => ReceiptLine(firstId + k, items[k].productId, items[k].quantity, 0, None))
  }

  /** Each line copies its item's product and quantity and has received nothing;
      the lines expect, together, the receipt's expected total. */
  lemma {:induction false} SnapshotCopiesItems(items: seq<PoItem>, firstId: int)
    ensures var lines := Snapshot(items, firstId);
            && |lines| == |items|
            && (forall k :: 0 <= k < |items| ==>
                  lines[k].productId == items[k].productId && lines[k].expectedQty == items[k].quantity
                  && lines[k].receivedQty == 0 && lines[k].quality.None?)
            && LinesExpected(lines) == ExpectedTotal(items)
            && ReceivedTotal(lines) == 0
  {
    if items != [] {
      var n := |items| - 1;
      SnapshotCopiesItems(items[..n], firstId);
      assert Snapshot(items, firstId)[..n] == Snapshot(items[..n], firstId);
    }
  }

  /** The checks of `create`: a company context (a super admin may name one),
      then a purchase order of that company whose status is approved. */
  function CheckCreate(pos: map<int, PurchaseOrder>, caller: Caller, poId: int, bodyCompany: Option<int>): (r: Result<int>)
    ensures r.Ok? <==>
      var c := if caller.role == SuperAdmin then OrElse(bodyCompany, caller.companyId) else caller.companyId;
      && c.Some? && poId in pos && pos[poId].companyId == c.value && pos[poId].status == PoStatus.Approved
    ensures r.Ok? ==> r.value == pos[poId].companyId
  {
    var c := if caller.role == SuperAdmin then OrElse(bodyCompany, caller.companyId) else caller.companyId;
    if c.None? then Err(Validation("Company context required"))
    else if poId !in pos || pos[poId].companyId != c.value then Err(NotFound("Purchase order not found"))
    else if pos[poId].status != PoStatus.Approved then Err(InvalidTransition("Only approved purchase orders can be received"))
    else Ok(c.value)
  }

  /** `create`: a PENDING receipt under the next GRN number, expecting the order's
      quantities, with one line per order item. `createdAt` is the clock. */
  method CreateReceipt(db: Db, caller: Caller, poId: int, bodyCompany: Option<int>, createdAt: int) returns (r: Result<GoodsReceipt>)
    requires db.Valid()
    modifies db`nextId, db`receipts
    ensures db.Valid()
    ensures CheckCreate(db.purchaseOrders, caller, poId, bodyCompany).Err? ==>
              && r == Err(CheckCreate(db.purchaseOrders, caller, poId, bodyCompany).error)
              && db.receipts == old(db.receipts) && db.nextId == old(db.nextId)
    ensures CheckCreate(db.purchaseOrders, caller, poId, bodyCompany).Ok? ==>
              var c := CheckCreate(db.purchaseOrders, caller, poId, bodyCompany).value;
              var items := db.purchaseOrders[poId].items;
              && r == Ok(GoodsReceipt(old(db.nextId), c, poId, NextGrNumber(old(db.receipts), c), ReceiptStatus.Pending,
                                      ExpectedTotal(items), 0, Snapshot(items, old(db.nextId) + 1), createdAt))
              && db.receipts == old(db.receipts) + [r.value]
  {
    var check := CheckCreate(db.purchaseOrders, caller, poId, bodyCompany);
    if check.Err? {
      return Err(check.error);
    }
    var c := check.value;
    var items := db.purchaseOrders[poId].items;
    var number := NextGrNumber(db.receipts, c);
    var id := db.NewId();
    var first := db.NewIds(|items|);
    var g := GoodsReceipt(id, c, poId, number, ReceiptStatus.Pending, ExpectedTotal(items), 0, Snapshot(items, first), createdAt);
    db.receipts := db.receipts + [g];
    return Ok(g);
  }

  // ---------------------------------------------------------------- receiving

  /** One row of the request: it names a line by product or by line id, and
      gives the quantity received so far and, optionally, the quality. */
  datatype ReceiveRow = ReceiveRow(productId: Option<int>, lineId: Option<int>, receivedQty: int, quality: Option<Quality>)

  /** The first line with the row's product or the row's line id. */
  function LineFor(lines: seq<ReceiptLine>, row: ReceiveRow): (r: Option<nat>)
    ensures r.Some? ==> r.value < |lines| && (row.productId == Some(lines[r.value].productId) || row.lineId == Some(lines[r.value].id))
    ensures r.None? ==> forall i :: 0 <= i < |lines| ==> row.productId != Some(lines[i].productId) && row.lineId != Some(lines[i].id)
  {
    if lines == [] then None
    else if row.productId == Some(lines[0].productId) || row.lineId == Some(lines[0].id) then Some(0)
    else
      assert forall i :: 1 <= i < |lines| ==> lines[i] == lines[1..][i - 1];
      match LineFor(lines[1..], row)
      case None => None
      case Some(k) => Some(k + 1)
  }

  /** Lines that differ at most in their received quantity and quality. */
  predicate SameShape(a: seq<ReceiptLine>, b: seq<ReceiptLine>)
  {
    && |a| == |b|
    && forall i :: 0 <= i < |a| ==>
         a[i].id == b[i].id && a[i].productId == b[i].productId && a[i].expectedQty == b[i].expectedQty
  }

  /** The rows applied in order: a row sets its line's received quantity and,
      when it gives one, its quality; a row matching no line is ignored. */
  function ApplyRows(lines: seq<ReceiptLine>, rows: seq<ReceiveRow>): (after: seq<ReceiptLine>)
    ensures SameShape(lines, after)
  {
    if rows == [] then lines
    else
      var before := ApplyRows(lines, rows[..|rows| - 1]);
      var row := rows[|rows| - 1];
      match LineFor(before, row)
      case None => before
      case Some(i) => before[i := before[i].(receivedQty := row.receivedQty, quality := OrElse(row.quality, before[i].quality))]
  }

  /** Every line has received at least what it expects. */
  predicate AllReceived(lines: seq<ReceiptLine>)
  {
    forall i :: 0 <= i < |lines| ==> lines[i].receivedQty >= lines[i].expectedQty
  }

  /** The receipt after the rows: new lines, their received total, and COMPLETED
      exactly when every line is fully received, IN_PROGRESS otherwise. */
  function Receive(g: GoodsReceipt, rows: seq<ReceiveRow>): (g': GoodsReceipt)
    ensures SameShape(g.lines, g'.lines)
    ensures g'.status == ReceiptStatus.Completed <==> AllReceived(g'.lines)
    ensures g'.status != ReceiptStatus.Completed ==> g'.status == ReceiptStatus.InProgress
    ensures g'.totalReceived == ReceivedTotal(g'.lines)
    ensures g' == g.(lines := g'.lines, totalReceived := g'.totalReceived, status := g'.status)
  {
    var after := ApplyRows(g.lines, rows);
    g.(lines := after, totalReceived := ReceivedTotal(after),
       status := if AllReceived(after) then ReceiptStatus.Completed else ReceiptStatus.InProgress)
  }

  /** What a line adds to stock given the quantity it had received before: the
      increase, unless it is not positive or the line is DAMAGED. */
  function ToAdd(line: ReceiptLine, base: int): int
  {
    if line.receivedQty - base > 0 && line.quality != Some(Damaged) then line.receivedQty - base else 0
  }

  /** Where received stock goes: the product's first record in any of the
      company's warehouses, else a new record in the lowest-id warehouse. */
  function ReceiptQuery(productId: int, ids: seq<int>): StockQuery
  {
    StockQuery(productId, AmongWarehouses(ids), Any, Any)
  }

  function ReceiptRecord(productId: int, warehouseId: int, amount: int): StockRecord
  {
    StockRecord(productId, warehouseId, None, None, amount, 0)
  }

  /** The crediting loop: each line credits `ToAdd(line, base)` against its base. */
  function CreditLines(stock: seq<StockRecord>, ids: seq<int>, lines: seq<ReceiptLine>, bases: seq<int>): seq<StockRecord>
    requires |bases| == |lines| && ids != []
  {
    if lines == [] then stock
    else
      var n := |lines| - 1;
      var s := CreditLines(stock, ids, lines[..n], bases[..n]);
      var add := ToAdd(lines[n], bases[n]);
      if add > 0 then Credit(s, ReceiptQuery(lines[n].productId, ids), ReceiptRecord(lines[n].productId, ids[0], add), add)
      else s
  }

  /** The units of one product that the lines credit. */
  function Credited(lines: seq<ReceiptLine>, bases: seq<int>, productId: int): int
    requires |bases| == |lines|
  {
    if lines == [] then 0
    else
      var n := |lines| - 1;
      Credited(lines[..n], bases[..n], productId) + (if lines[n].productId == productId then ToAdd(lines[n], bases[n]) else 0)
  }

  /** Whether some line credits anything. */
  function AnyCredit(lines: seq<ReceiptLine>, bases: seq<int>): bool
    requires |bases| == |lines|
  {
    lines != [] && (AnyCredit(lines[..|lines| - 1], bases[..|lines| - 1]) || ToAdd(lines[|lines| - 1], bases[|lines| - 1]) > 0)
  }

  /** Crediting adds to each product exactly what its lines credit, changes no
      reservation, and keeps a sound ledger sound. */
  lemma {:induction false} CreditLinesTotals(stock: seq<StockRecord>, ids: seq<int>, lines: seq<ReceiptLine>, bases: seq<int>, p: int)
    requires |bases| == |lines| && ids != []
    ensures Total(CreditLines(stock, ids, lines, bases), p, OnHand) == Total(stock, p, OnHand) + Credited(lines, bases, p)
    ensures Total(CreditLines(stock, ids, lines, bases), p, Reserved) == Total(stock, p, Reserved)
    ensures Sound(stock) ==> Sound(CreditLines(stock, ids, lines, bases))
  {
    if lines != [] {
      var n := |lines| - 1;
      CreditLinesTotals(stock, ids, lines[..n], bases[..n], p);
      var s := CreditLines(stock, ids, lines[..n], bases[..n]);
      var add := ToAdd(lines[n], bases[n]);
      if add > 0 {
        var q := ReceiptQuery(lines[n].productId, ids);
        CreditTotals(s, q, ReceiptRecord(lines[n].productId, ids[0], add), add, p);
        if Sound(s) {
          CreditKeepsSound(s, q, ReceiptRecord(lines[n].productId, ids[0], add), add);
        }
      }
    }
  }

  /** Lines that received nothing beyond their bases credit nothing. */
  lemma {:induction false} NothingNewCreditsNothing(stock: seq<StockRecord>, ids: seq<int>, lines: seq<ReceiptLine>, bases: seq<int>)
    requires |bases| == |lines| && ids != []
    requires forall i :: 0 <= i < |lines| ==> lines[i].receivedQty <= bases[i]
    ensures CreditLines(stock, ids, lines, bases) == stock
    ensures !AnyCredit(lines, bases)
  {
    if lines != [] {
      var n := |lines| - 1;
      NothingNewCreditsNothing(stock, ids, lines[..n], bases[..n]);
    }
  }

  /** Each line's base is what that same line had received before the update. */
  function Baseline(before: seq<ReceiptLine>): (bases: seq<int>)
    ensures |bases| == |before| && forall i :: 0 <= i < |before| ==> bases[i] == before[i].receivedQty
  {
    seq(|before|, i requires 0 <= i < |before| => before[i].receivedQty)
  }

  /** The stock after receiving: nothing without a company warehouse or without
      lines, otherwise each line credits what it received since the update
      before. */
  function ReceiptCredit(stock: seq<StockRecord>, ids: seq<int>, before: seq<ReceiptLine>, after: seq<ReceiptLine>): seq<StockRecord>
    requires |before| == |after|
  {
    if ids == [] || after == [] then stock else CreditLines(stock, ids, after, Baseline(before))
  }

  /** Re-sending quantities no larger than those already received credits
      nothing; in particular an update that changes no line credits nothing. */
  lemma ResendCreditsNothing(stock: seq<StockRecord>, ids: seq<int>, before: seq<ReceiptLine>, after: seq<ReceiptLine>)
    requires |before| == |after|
    requires forall i :: 0 <= i < |after| ==> after[i].receivedQty <= before[i].receivedQty
    ensures ReceiptCredit(stock, ids, before, after) == stock
  {
    if ids != [] && after != [] {
      NothingNewCreditsNothing(stock, ids, after, Baseline(before));
    }
  }

  /** Receiving moves each product's stock by what its lines received since the
      update before, when the company has a warehouse. */
  lemma ReceiptCreditTotals(stock: seq<StockRecord>, ids: seq<int>, before: seq<ReceiptLine>, after: seq<ReceiptLine>, p: int)
    requires |before| == |after| && ids != [] && after != []
    ensures Total(ReceiptCredit(stock, ids, before, after), p, OnHand)
         == Total(stock, p, OnHand) + Credited(after, Baseline(before), p)
  {
    CreditLinesTotals(stock, ids, after, Baseline(before), p);
  }

  /** The base as services/goodsReceiptService.js:112-115 and 146 compute it:
      what the LAST line of the same product had received. */
  function LastReceived(before: seq<ReceiptLine>, productId: int): int
  {
    if before == [] then 0
    else if before[|before| - 1].productId == productId then before[|before| - 1].receivedQty
    else LastReceived(before[..|before| - 1], productId)
  }

  function BaselineAsWritten(before: seq<ReceiptLine>, after: seq<ReceiptLine>): (bases: seq<int>)
    ensures |bases| == |after|
  {
    seq(|after|, i requires 0 <= i < |after| => LastReceived(before, after[i].productId))
  }

  function ReceiptCreditAsWritten(stock: seq<StockRecord>, ids: seq<int>, before: seq<ReceiptLine>, after: seq<ReceiptLine>): seq<StockRecord>
    requires |before| == |after|
  {
    if ids == [] || after == [] then stock else CreditLines(stock, ids, after, BaselineAsWritten(before, after))
  }

  /** Two lines of product 5, the first fully received (10) and the second not
      (0): an update with no rows changes no line, yet the as-written crediting
      adds 10 units of product 5, while the per-line crediting adds none. */
  lemma AsWrittenCreditsUnchangedReceipt()
    ensures var before := [ReceiptLine(1, 5, 10, 10, None), ReceiptLine(2, 5, 5, 0, None)];
            && ApplyRows(before, []) == before
            && ReceiptCreditAsWritten([], [3], before, before) == [StockRecord(5, 3, None, None, 10, 0)]
            && ReceiptCredit([], [3], before, before) == []
  {
    var before := [ReceiptLine(1, 5, 10, 10, None), ReceiptLine(2, 5, 5, 0, None)];
    var bases := BaselineAsWritten(before, before);
    assert bases == [0, 0];
    assert before[..1] == [before[0]];
    assert bases[..1] == [0];
    assert before[..1][..0] == [];
    assert CreditLines([], [3], before[..1], bases[..1]) == [StockRecord(5, 3, None, None, 10, 0)];
    ResendCreditsNothing([], [3], before, before);
  }

  /** The result of `updateReceived`: the receipt, whether stock was credited,
      and whether the no-warehouse warning was raised. */
  datatype ReceiveOutcome = ReceiveOutcome(receipt: GoodsReceipt, stockUpdated: bool, warning: bool)

  /** Some line has received a positive quantity. */
  predicate AnyReceived(lines: seq<ReceiptLine>)
  {
    exists i :: 0 <= i < |lines| && lines[i].receivedQty > 0
  }

  /** The index of the receipt with the id. */
  function FindReceipt(rs: seq<GoodsReceipt>, id: int): (r: Option<nat>)
    ensures r.Some? ==> r.value < |rs| && rs[r.value].id == id
    ensures r.None? ==> forall i :: 0 <= i < |rs| ==> rs[i].id != id
  {
    if rs == [] then None
    else if rs[0].id == id then Some(0)
    else
      assert forall i :: 1 <= i < |rs| ==> rs[i] == rs[1..][i - 1];
      match FindReceipt(rs[1..], id)
      case None => None
      case Some(k) => Some(k + 1)
  }

  /** The checks of `updateReceived`: the receipt exists in the caller's company
      and is not completed. */
  function CheckReceive(rs: seq<GoodsReceipt>, caller: Caller, id: int): (r: Result<nat>)
    ensures r.Ok? <==>
      && FindReceipt(rs, id).Some?
      && SeesCompany(caller, rs[FindReceipt(rs, id).value].companyId)
      && rs[FindReceipt(rs, id).value].status != ReceiptStatus.Completed
    ensures r.Ok? ==> r == Ok(FindReceipt(rs, id).value)
  {
    match FindReceipt(rs, id)
    case None => Err(NotFound("Goods receipt not found"))
    case Some(k) =>
      if !SeesCompany(caller, rs[k].companyId) then Err(NotFound("Goods receipt not found"))
      else if rs[k].status == ReceiptStatus.Completed then Err(InvalidTransition("Receipt already completed"))
      else Ok(k)
  }

  /** The row loop: each row updates its line. */
  method UpdateLines(lines: seq<ReceiptLine>, rows: seq<ReceiveRow>) returns (after: seq<ReceiptLine>)
    ensures after == ApplyRows(lines, rows)
  {
    after := lines;
    var j := 0;
    while j < |rows|
      invariant 0 <= j <= |rows|
      invariant after == ApplyRows(lines, rows[..j])
    {
      assert rows[..j + 1][..j] == rows[..j];
      var row := rows[j];
      var found := LineFor(after, row);
      if found.Some? {
        var i := found.value;
        after := after[i := after[i].(receivedQty := row.receivedQty, quality := OrElse(row.quality, after[i].quality))];
      }
      j := j + 1;
    }
    assert rows[..j] == rows;
  }

  /** The crediting loop on the database. */
  method CreditReceivedLines(db: Db, ids: seq<int>, lines: seq<ReceiptLine>, bases: seq<int>) returns (updated: bool)
    requires |bases| == |lines| && ids != []
    modifies db`stock
    ensures db.stock == CreditLines(old(db.stock), ids, lines, bases)
    ensures updated == AnyCredit(lines, bases)
  {
    updated := false;
    var i := 0;
    while i < |lines|
      invariant 0 <= i <= |lines|
      invariant db.stock == CreditLines(old(db.stock), ids, lines[..i], bases[..i])
      invariant updated == AnyCredit(lines[..i], bases[..i])
    {
      assert lines[..i + 1][..i] == lines[..i] && bases[..i + 1][..i] == bases[..i];
      var line := lines[i];
      var add := ToAdd(line, bases[i]);
      if add > 0 {
        var q := ReceiptQuery(line.productId, ids);
        var found := FindFirst(db.stock, q);
        if found.Some? {
          var k := found.value;
          db.stock := db.stock[k := db.stock[k].(quantity := db.stock[k].quantity + add)];
        } else {
          db.stock := db.stock + [ReceiptRecord(line.productId, ids[0], add)];
        }
        updated := true;
      }
      i := i + 1;
    }
    assert lines[..i] == lines && bases[..i] == bases;
  }

  /** `updateReceived`. The receipt takes the received lines, their total and its
      new status; the stock is credited with what each line received since the
      update before (per line: see the findings). */
  method UpdateReceived(db: Db, caller: Caller, id: int, rows: seq<ReceiveRow>) returns (r: Result<ReceiveOutcome>)
    modifies db`receipts, db`stock
    ensures CheckReceive(old(db.receipts), caller, id).Err? ==>
              && r == Err(CheckReceive(old(db.receipts), caller, id).error)
              && db.receipts == old(db.receipts) && db.stock == old(db.stock)
    ensures CheckReceive(old(db.receipts), caller, id).Ok? ==>
              var k := CheckReceive(old(db.receipts), caller, id).value;
              var g := old(db.receipts)[k];
              var g' := Receive(g, rows);
              var ids := CompanyWarehouses(db.warehouses, g.companyId);
              && db.receipts == old(db.receipts)[k := g']
              && db.stock == ReceiptCredit(old(db.stock), ids, g.lines, g'.lines)
              && r == Ok(ReceiveOutcome(g', ids != [] && g'.lines != [] && AnyCredit(g'.lines, Baseline(g.lines)),
                                        ids == [] && AnyReceived(g'.lines)))
  {
    var check := CheckReceive(db.receipts, caller, id);
    if check.Err? {
      return Err(check.error);
    }
    var k := check.value;
    var g := db.receipts[k];
    var after := UpdateLines(g.lines, rows);
    var g' := g.(lines := after, totalReceived := ReceivedTotal(after),
                 status := if AllReceived(after) then ReceiptStatus.Completed else ReceiptStatus.InProgress);
    db.receipts := db.receipts[k := g'];
    var ids := CompanyWarehouses(db.warehouses, g.companyId);
    var updated := false;
    if ids != [] && after != [] {
      updated := CreditReceivedLines(db, ids, after, Baseline(g.lines));
    }
    return Ok(ReceiveOutcome(g', updated, ids == [] && AnyReceived(after)));
  }

  // ------------------------------------------------------- display numbering

  /** A legacy number `GRN-<digits>-<digits>`, in any letter case. */
  predicate IsLegacy(s: string)
  {
    && SamePrefix(s, "GRN-", true)
    && exists k | 4 < k < |s| - 1 :: s[k] == '-' && AllDigits(s[4..k]) && AllDigits(s[k + 1..])
  }

  /** Receipt `j` comes before receipt `i` in creation order, ties broken by
      list position (the sort is stable). */
  predicate Precedes(rs: seq<GoodsReceipt>, j: nat, i: nat)
    requires j < |rs| && i < |rs|
  {
    rs[j].createdAt < rs[i].createdAt || (rs[j].createdAt == rs[i].createdAt && j < i)
  }

  /** How many legacy receipts of receipt `i`'s company, among the first `n`,
      come before it. */
  function Rank(rs: seq<GoodsReceipt>, i: nat, n: nat): nat
    requires i < |rs| && n <= |rs|
  {
    if n == 0 then 0
    else
      var j := n - 1;
      Rank(rs, i, j) + (if rs[j].companyId == rs[i].companyId && IsLegacy(rs[j].grNumber) && Precedes(rs, j, i) then 1 else 0)
  }

  /** A receipt as displayed: a legacy number becomes GRN followed by the
      company's next counter plus the receipt's rank among the company's legacy
      receipts, padded to three digits. */
  function Displayed(rs: seq<GoodsReceipt>, i: nat): GoodsReceipt
    requires i < |rs|
  {
    if IsLegacy(rs[i].grNumber)
    then rs[i].(grNumber := Numbered("GRN", NextNumber("GRN", true, CompanyNumbers(rs, rs[i].companyId)) + Rank(rs, i, |rs|), 3))
    else rs[i]
  }

  function Normalize(rs: seq<GoodsReceipt>): (out: seq<GoodsReceipt>)
    ensures |out| == |rs|
    ensures forall i :: 0 <= i < |rs| ==> out[i] == Displayed(rs, i)
  {
    seq(|rs|, i requires 0 <= i < |rs| => Displayed(rs, i))
  }

  /** A legacy receipt that comes before another of the same company has a
      strictly smaller rank. */
  lemma {:induction false} RankStrict(rs: seq<GoodsReceipt>, i: nat, j: nat, n: nat)
    requires i < |rs| && j < |rs| && n <= |rs|
    requires rs[i].companyId == rs[j].companyId && IsLegacy(rs[i].grNumber) && Precedes(rs, i, j)
    ensures Rank(rs, i, n) + (if n > i then 1 else 0) <= Rank(rs, j, n)
  {
    if n > 0 {
      RankStrict(rs, i, j, n - 1);
    }
  }

  /** Display numbering leaves every other field and every non-legacy number as
      it was, and gives each legacy receipt a number that no other receipt of
      its company shows. */
  lemma NormalizeDistinct(rs: seq<GoodsReceipt>, i: nat, j: nat)
    requires i < |rs| && j < |rs| && i != j && rs[i].companyId == rs[j].companyId
    requires IsLegacy(rs[i].grNumber)
    ensures Normalize(rs)[i] == rs[i].(grNumber := Normalize(rs)[i].grNumber)
    ensures !IsLegacy(rs[j].grNumber) ==> Normalize(rs)[j] == rs[j]
    ensures Normalize(rs)[i].grNumber != Normalize(rs)[j].grNumber
  {
    var c := rs[i].companyId;
    var ns := CompanyNumbers(rs, c);
    var next := NextNumber("GRN", true, ns);
    var mi := next + Rank(rs, i, |rs|);
    if IsLegacy(rs[j].grNumber) {
      var mj := next + Rank(rs, j, |rs|);
      if Precedes(rs, i, j) {
        RankStrict(rs, i, j, |rs|);
      } else {
        RankStrict(rs, j, i, |rs|);
      }
      if Numbered("GRN", mi, 3) == Numbered("GRN", mj, 3) {
        NumberedInjective("GRN", mi, mj, 3);
      }
    } else {
      NumberedRoundTrip("GRN", true, mi, 3);
      assert rs[j].grNumber in ns;
      var k :| 0 <= k < |ns| && ns[k] == rs[j].grNumber;
      assert ParseNumbered("GRN", true, ns[k]) != Some(mi);
    }
  }

  /** `applyGrnDisplayNormalization`: the numbers are rewritten in place, from a
      snapshot taken before the first rewrite. */
  method NormalizeNumbers(rs: array<GoodsReceipt>)
    modifies rs
    ensures rs[..] == Normalize(old(rs[..]))
  {
    var snapshot := rs[..];
    var i := 0;
    while i < rs.Length
      invariant 0 <= i <= rs.Length
      invariant forall k :: 0 <= k < i ==> rs[k] == Displayed(snapshot, k)
      invariant forall k :: i <= k < rs.Length ==> rs[k] == snapshot[k]
    {
      rs[i] := Displayed(snapshot, i);
      i := i + 1;
    }
  }
}
