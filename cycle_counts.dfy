/** Cycle-count reconciliation (`completeCycleCount` of
    services/inventoryService.js): each counted product's stock record at the
    count's location is brought to the counted quantity, and every difference is
    logged as a COMPLETED adjustment. The whole completion is one transaction. */
module CycleCounts {
  import opened Common
  import opened Statuses
  import opened Ledger
  import opened Store

  /** One submitted line: `countedQty` as `parseInt` read it (0 when unreadable). */
  datatype CountedProduct = CountedProduct(productId: int, countedQty: int, batchNumber: Option<string>)

  /** Where a count with a location is reconciled, and what its adjustment rows
      carry. */
  datatype CountSite = CountSite(companyId: int, warehouseId: int, locationId: int, reason: string, countedBy: int)

  /** The record a counted line is compared with: the product at the count's
      location (and warehouse), in the submitted batch when one is given. */
  function CountQuery(site: CountSite, p: CountedProduct): StockQuery
  {
    StockQuery(p.productId, InWarehouse(site.warehouseId), Is(Some(site.locationId)),
               if p.batchNumber.Some? then Is(p.batchNumber) else Any)
  }

  /** The ledger, the adjustment log and the discrepancy counter as the loop
      carries them. */
  datatype Tally = Tally(stock: seq<StockRecord>, adjustments: seq<Adjustment>, discrepancies: nat)

  /** One loop iteration: when the counted quantity differs from the system
      quantity, count a discrepancy, log an adjustment and increment the record
      by the difference (or create it when the difference is positive). */
  function CountStep(t: Tally, site: CountSite, p: CountedProduct, reference: string): Tally
  {
    var q := CountQuery(site, p);
    var diff := p.countedQty - HeldAt(t.stock, q);
    if diff == 0 then t
    else
      var adj := Adjustment(reference, site.companyId, p.productId, Some(site.warehouseId),
                            if diff > 0 then Increase else Decrease, Abs(diff), Some(site.reason),
                            AdjustmentStatus.Completed, site.countedBy);
      var stock := match FirstMatch(t.stock, q)
                   case Some(i) => AddAt(t.stock, i, diff)
                   case None =>
                     if diff > 0 then
                       t.stock + [StockRecord(p.productId, site.warehouseId, Some(site.locationId), p.batchNumber, diff, 0)]
                     else t.stock;
      Tally(stock, t.adjustments + [adj], t.discrepancies + 1)
  }

  /** The loop over the submitted lines, in order; `references` are the
      generated adjustment references, one per line. */
  function Reconcile(t: Tally, site: CountSite, ps: seq<CountedProduct>, references: seq<string>): Tally
    requires |references| == |ps|
  {
    if ps == [] then t
    else CountStep(Reconcile(t, site, ps[..|ps| - 1], references[..|ps| - 1]), site, ps[|ps| - 1], references[|ps| - 1])
  }

  /** After a line is reconciled the system holds the counted quantity, except
      that a negative count of a product with no record creates nothing. */
  lemma CountStepSetsQuantity(t: Tally, site: CountSite, p: CountedProduct, reference: string)
    ensures var q := CountQuery(site, p);
            HeldAt(CountStep(t, site, p, reference).stock, q)
              == if FirstMatch(t.stock, q).None? && p.countedQty < 0 then 0 else p.countedQty
  {
    var q := CountQuery(site, p);
    var diff := p.countedQty - HeldAt(t.stock, q);
    if diff != 0 {
      match FirstMatch(t.stock, q)
      case Some(i) =>
        FirstMatchAddAt(t.stock, i, diff, q);
      case None =>
        if diff > 0 {
          var r := StockRecord(p.productId, site.warehouseId, Some(site.locationId), p.batchNumber, diff, 0);
          FirstMatchAppend(t.stock, r, q);
        }
    }
  }

  /** A line logs a discrepancy exactly when its count differs from the system
      quantity; the adjustment it logs is an INCREASE when the count is higher,
      and its signed quantity carries the system quantity onto the count. */
  lemma CountStepLogsDifference(t: Tally, site: CountSite, p: CountedProduct, reference: string)
    ensures var t' := CountStep(t, site, p, reference);
            var system := HeldAt(t.stock, CountQuery(site, p));
            && (t'.discrepancies == t.discrepancies + 1 <==> p.countedQty != system)
            && (p.countedQty == system ==> t' == t)
            && (p.countedQty != system ==>
                  && |t'.adjustments| == |t.adjustments| + 1
                  && t'.adjustments[..|t.adjustments|] == t.adjustments
                  && var a := t'.adjustments[|t.adjustments|];
                     && a.quantity >= 1
                     && (a.kind == Increase <==> p.countedQty > system)
                     && system + (if a.kind == Increase then a.quantity else -a.quantity) == p.countedQty)
  {
    var t' := CountStep(t, site, p, reference);
    if p.countedQty != HeldAt(t.stock, CountQuery(site, p)) {
      assert t'.adjustments[..|t.adjustments|] == t.adjustments;
    }
  }

  /** The product's stock total moves by exactly the change in the quantity held
      at the counted key; reservations do not move. */
  lemma CountStepMovesTotal(t: Tally, site: CountSite, p: CountedProduct, reference: string, col: Column)
    ensures var q := CountQuery(site, p);
            var t' := CountStep(t, site, p, reference);
            Total(t'.stock, p.productId, col)
              == Total(t.stock, p.productId, col)
                 + (if col == OnHand then HeldAt(t'.stock, q) - HeldAt(t.stock, q) else 0)
  {
    var q := CountQuery(site, p);
    var diff := p.countedQty - HeldAt(t.stock, q);
    CountStepSetsQuantity(t, site, p, reference);
    if diff != 0 {
      match FirstMatch(t.stock, q)
      case Some(i) =>
        AddAtTotals(t.stock, i, diff, p.productId);
      case None =>
        if diff > 0 {
          var r := StockRecord(p.productId, site.warehouseId, Some(site.locationId), p.batchNumber, diff, 0);
          TotalAppend(t.stock, r, p.productId, col);
        }
    }
  }

  /** Over a whole count, the discrepancy counter grows by the number of
      adjustment rows logged, which is at most the number of lines, and earlier
      rows of the log are kept. */
  lemma {:induction false} ReconcileCountsDiscrepancies(t: Tally, site: CountSite, ps: seq<CountedProduct>, references: seq<string>)
    requires |references| == |ps|
    ensures var t' := Reconcile(t, site, ps, references);
            && |t.adjustments| <= |t'.adjustments| <= |t.adjustments| + |ps|
            && t'.adjustments[..|t.adjustments|] == t.adjustments
            && t'.discrepancies == t.discrepancies + (|t'.adjustments| - |t.adjustments|)
  {
    if ps != [] {
      var n := |ps| - 1;
      var mid := Reconcile(t, site, ps[..n], references[..n]);
      ReconcileCountsDiscrepancies(t, site, ps[..n], references[..n]);
      CountStepLogsDifference(mid, site, ps[n], references[n]);
      var t' := CountStep(mid, site, ps[n], references[n]);
      assert t'.adjustments[..|mid.adjustments|] == mid.adjustments;
      assert t'.adjustments[..|t.adjustments|] == mid.adjustments[..|t.adjustments|];
    }
  }

  predicate MayCount(role: Role)
  {
    role == SuperAdmin || role == CompanyAdmin || role == InventoryManager
  }

  /** The guards before the loop: role, existence, not yet completed, tenant. */
  function CheckCompletion(counts: map<int, CycleCount>, caller: Caller, id: int): (r: Result<CycleCount>)
    ensures r.Ok? <==> MayCount(caller.role) && id in counts && counts[id].status != CountStatus.Completed
                       && SeesCompany(caller, counts[id].companyId)
    ensures r.Ok? ==> r.value == counts[id]
  {
    if !MayCount(caller.role) then Err(Forbidden("Not allowed to complete cycle count"))
    else if id !in counts then Err(NotFound("Cycle count not found"))
    else if counts[id].status == CountStatus.Completed then Err(InvalidTransition("Cycle count already completed"))
    else if !SeesCompany(caller, counts[id].companyId) then Err(NotFound("Cycle count not found"))
    else Ok(counts[id])
  }

  /** The count as it is saved at the end. */
  function Finished(c: CycleCount, items: int, discrepancies: int, caller: Caller): CycleCount
  {
    c.(status := CountStatus.Completed, itemsCount := items, discrepancies := discrepancies, countedBy := Some(caller.id))
  }

  /** One iteration of the reconciliation loop, on the database. */
  method ReconcileLine(db: Db, site: CountSite, p: CountedProduct, reference: string, discrepancies: nat)
    returns (after: nat)
    modifies db`stock, db`adjustments
    ensures Tally(db.stock, db.adjustments, after)
         == CountStep(Tally(old(db.stock), old(db.adjustments), discrepancies), site, p, reference)
  {
    var found := FindFirst(db.stock, CountQuery(site, p));
    var system := if found.Some? then db.stock[found.value].quantity else 0;
    var diff := p.countedQty - system;
    after := discrepancies;
    if diff != 0 {
      after := discrepancies + 1;
      db.adjustments := db.adjustments + [Adjustment(reference, site.companyId, p.productId,
                          Some(site.warehouseId), if diff > 0 then Increase else Decrease, Abs(diff),
                          Some(site.reason), AdjustmentStatus.Completed, site.countedBy)];
      if found.Some? {
        var k := found.value;
        db.stock := db.stock[k := db.stock[k].(quantity := db.stock[k].quantity + diff)];
      } else if diff > 0 {
        db.stock := db.stock + [StockRecord(p.productId, site.warehouseId, Some(site.locationId), p.batchNumber, diff, 0)];
      }
    }
  }

  /** The reconciliation loop over every submitted line. */
  method ReconcileAll(db: Db, site: CountSite, ps: seq<CountedProduct>, references: seq<string>)
    returns (discrepancies: nat)
    requires |references| == |ps|
    modifies db`stock, db`adjustments
    ensures Tally(db.stock, db.adjustments, discrepancies)
         == Reconcile(Tally(old(db.stock), old(db.adjustments), 0), site, ps, references)
  {
    discrepancies := 0;
    var i := 0;
    while i < |ps|
      invariant 0 <= i <= |ps|
      invariant Tally(db.stock, db.adjustments, discrepancies)
             == Reconcile(Tally(old(db.stock), old(db.adjustments), 0), site, ps[..i], references[..i])
    {
      discrepancies := ReconcileLine(db, site, ps[i], references[i], discrepancies);
      assert ps[..i + 1][..i] == ps[..i] && references[..i + 1][..i] == references[..i];
      i := i + 1;
    }
    assert ps[..|ps|] == ps && references[..|ps|] == references;
  }

  /** `completeCycleCount`. A count without a location (or with no lines) only
      completes; a count whose location row is missing fails and, being one
      transaction, writes nothing; otherwise every line is reconciled. */
  method CompleteCycleCount(db: Db, caller: Caller, id: int, ps: seq<CountedProduct>, references: seq<string>)
    returns (r: Result<CycleCount>)
    requires |references| == |ps|
    modifies db`stock, db`adjustments, db`cycleCounts
    ensures CheckCompletion(old(db.cycleCounts), caller, id).Err? ==>
              && r == Err(CheckCompletion(old(db.cycleCounts), caller, id).error)
              && db.stock == old(db.stock) && db.adjustments == old(db.adjustments)
              && db.cycleCounts == old(db.cycleCounts)
    ensures CheckCompletion(old(db.cycleCounts), caller, id).Ok? ==>
              var c := old(db.cycleCounts)[id];
              if c.locationId.None? || ps == [] then
                && db.stock == old(db.stock) && db.adjustments == old(db.adjustments)
                && r == Ok(Finished(c, |ps|, 0, caller))
                && db.cycleCounts == old(db.cycleCounts)[id := r.value]
              else if c.locationId.value !in db.locations then
                && r.Err? && db.stock == old(db.stock) && db.adjustments == old(db.adjustments)
                && db.cycleCounts == old(db.cycleCounts)
              else
                var site := CountSite(c.companyId, db.locations[c.locationId.value].warehouseId,
                                      c.locationId.value, "Cycle Count #" + c.referenceNumber, caller.id);
                var t := Reconcile(Tally(old(db.stock), old(db.adjustments), 0), site, ps, references);
                && db.stock == t.stock && db.adjustments == t.adjustments
                && r == Ok(Finished(c, |ps|, t.discrepancies, caller))
                && db.cycleCounts == old(db.cycleCounts)[id := r.value]
  {
    var check := CheckCompletion(db.cycleCounts, caller, id);
    if check.Err? {
      return Err(check.error);
    }
    var c := check.value;
    if c.locationId.None? || ps == [] {
      var done := Finished(c, |ps|, 0, caller);
      db.cycleCounts := db.cycleCounts[id := done];
      return Ok(done);
    }
    var loc := c.locationId.value;
    if loc !in db.locations {
      return Err(NotFound("Location not found"));
    }
    var site := CountSite(c.companyId, db.locations[loc].warehouseId, loc, "Cycle Count #" + c.referenceNumber, caller.id);
    var discrepancies := ReconcileAll(db, site, ps, references);
    var done := Finished(c, |ps|, discrepancies, caller);
    db.cycleCounts := db.cycleCounts[id := done];
    return Ok(done);
  }
}
