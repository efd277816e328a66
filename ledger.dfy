/** The stock ledger (ProductStock): one row per (product, warehouse, location,
    batch) key holding the quantity on hand and the quantity reserved. The table is a
    sequence in insertion order; `findOne` is the first row a query matches. */
module Ledger {
  import opened Common

  datatype StockRecord = StockRecord(
    productId: int,
    warehouseId: int,
    locationId: Option<int>,
    batchNumber: Option<string>,
    quantity: int,
    reserved: int)

  /** A column left out of a where clause (`Any`), or compared with a value, where
      `Is(None)` is the comparison with SQL null. */
  datatype Match<T> = Any | Is(value: Option<T>)

  /** The warehouse part of a where clause: absent, one id, or `Op.in` a list. */
  datatype WarehouseScope = AnyWarehouse | InWarehouse(id: int) | AmongWarehouses(ids: seq<int>)

  datatype StockQuery = StockQuery(
    productId: int,
    warehouse: WarehouseScope,
    location: Match<int>,
    batch: Match<string>)

  predicate InScope(w: int, scope: WarehouseScope)
  {
    match scope
    case AnyWarehouse => true
    case InWarehouse(id) => w == id
    case AmongWarehouses(ids) => w in ids
  }

  predicate Fits<T(==)>(v: Option<T>, m: Match<T>)
  {
    m.Any? || v == m.value
  }

  predicate Matches(r: StockRecord, q: StockQuery)
  {
    && r.productId == q.productId
    && InScope(r.warehouseId, q.warehouse)
    && Fits(r.locationId, q.location)
    && Fits(r.batchNumber, q.batch)
  }

  /** The row `findOne` returns: the first row the query matches. */
  function FirstMatch(rows: seq<StockRecord>, q: StockQuery): (r: Option<nat>)
    ensures r.Some? ==> r.value < |rows| && Matches(rows[r.value], q)
    ensures r.Some? ==> forall j :: 0 <= j < r.value ==> !Matches(rows[j], q)
    ensures r.None? <==> forall j :: 0 <= j < |rows| ==> !Matches(rows[j], q)
  {
    if rows == [] then None
    else if Matches(rows[0], q) then Some(0)
    else
      assert forall j :: 1 <= j < |rows| ==> rows[j] == rows[1..][j - 1];
      match FirstMatch(rows[1..], q)
      case None => None
      case Some(k) => Some(k + 1)
  }

  /** The table scan behind `findOne`. */
  method FindFirst(rows: seq<StockRecord>, q: StockQuery) returns (r: Option<nat>)
    ensures r == FirstMatch(rows, q)
  {
    var i := 0;
    while i < |rows|
      invariant 0 <= i <= |rows|
      invariant forall j :: 0 <= j < i ==> !Matches(rows[j], q)
    {
      if Matches(rows[i], q) {
        return Some(i);
      }
      i := i + 1;
    }
    return None;
  }

  datatype Column = OnHand | Reserved

  function Cell(r: StockRecord, productId: int, col: Column): int
  {
    if r.productId != productId then 0
    else if col == OnHand then r.quantity
    else r.reserved
  }

  /** Sum of a column over every row of one product, whatever its warehouse,
      location or batch. */
  function Total(rows: seq<StockRecord>, productId: int, col: Column): int
  {
    if rows == [] then 0
    else Total(rows[..|rows| - 1], productId, col) + Cell(rows[|rows| - 1], productId, col)
  }

  /** Replacing one row changes each product's total by the difference of that row. */
  lemma {:induction false} TotalUpdate(rows: seq<StockRecord>, i: nat, r: StockRecord, productId: int, col: Column)
    requires i < |rows|
    ensures Total(rows[i := r], productId, col)
         == Total(rows, productId, col) - Cell(rows[i], productId, col) + Cell(r, productId, col)
  {
    var n := |rows|;
    var s := rows[i := r];
    if i == n - 1 {
      assert s[..n - 1] == rows[..n - 1];
    } else {
      assert s[..n - 1] == rows[..n - 1][i := r];
      TotalUpdate(rows[..n - 1], i, r, productId, col);
    }
  }

  /** Appending a row adds that row to each product's total. */
  lemma TotalAppend(rows: seq<StockRecord>, r: StockRecord, productId: int, col: Column)
    ensures Total(rows + [r], productId, col) == Total(rows, productId, col) + Cell(r, productId, col)
  {
    assert (rows + [r])[..|rows|] == rows;
  }

  /** Every row's reservation lies between zero and its quantity on hand. */
  predicate Sound(rows: seq<StockRecord>)
  {
    forall i :: 0 <= i < |rows| ==> 0 <= rows[i].reserved <= rows[i].quantity
  }

  /** No row holds a negative quantity. */
  predicate NonNegative(rows: seq<StockRecord>)
  {
    forall i :: 0 <= i < |rows| ==> rows[i].quantity >= 0
  }

  /** The ledger with `delta` added to the quantity of row `i`. */
  function AddAt(rows: seq<StockRecord>, i: nat, delta: int): seq<StockRecord>
    requires i < |rows|
  {
    rows[i := rows[i].(quantity := rows[i].quantity + delta)]
  }

  /** Adding to one row moves that product's on-hand total by `delta` and leaves
      every reservation total and every other product alone. */
  lemma AddAtTotals(rows: seq<StockRecord>, i: nat, delta: int, productId: int)
    requires i < |rows|
    ensures Total(AddAt(rows, i, delta), productId, OnHand)
         == Total(rows, productId, OnHand) + (if rows[i].productId == productId then delta else 0)
    ensures Total(AddAt(rows, i, delta), productId, Reserved) == Total(rows, productId, Reserved)
  {
    var r := rows[i].(quantity := rows[i].quantity + delta);
    TotalUpdate(rows, i, r, productId, OnHand);
    TotalUpdate(rows, i, r, productId, Reserved);
  }

  /** Changing a quantity does not change which row a query finds. */
  lemma FirstMatchAddAt(rows: seq<StockRecord>, i: nat, delta: int, q: StockQuery)
    requires i < |rows|
    ensures FirstMatch(AddAt(rows, i, delta), q) == FirstMatch(rows, q)
  {
    var s := AddAt(rows, i, delta);
    assert forall j :: 0 <= j < |rows| ==> (Matches(s[j], q) <==> Matches(rows[j], q));
  }

  /** A row appended to a ledger where the query found nothing is the row it
      finds next. */
  lemma FirstMatchAppend(rows: seq<StockRecord>, r: StockRecord, q: StockQuery)
    requires Matches(r, q) && FirstMatch(rows, q).None?
    ensures FirstMatch(rows + [r], q) == Some(|rows|)
  {
    var s := rows + [r];
    assert forall j :: 0 <= j < |rows| ==> s[j] == rows[j];
    assert Matches(s[|rows|], q);
  }

  /** The quantity a query finds: its first row's, or 0 when there is none. */
  function HeldAt(rows: seq<StockRecord>, q: StockQuery): int
  {
    match FirstMatch(rows, q)
    case Some(i) => rows[i].quantity
    case None => 0
  }

  /** Adding to the row a query finds moves the quantity it finds by as much. */
  lemma AddAtHeldAt(rows: seq<StockRecord>, q: StockQuery, delta: int)
    requires FirstMatch(rows, q).Some?
    ensures HeldAt(AddAt(rows, FirstMatch(rows, q).value, delta), q) == HeldAt(rows, q) + delta
  {
    FirstMatchAddAt(rows, FirstMatch(rows, q).value, delta, q);
  }

  /** The find-or-create idiom: add `amount` to the first row the query matches,
      or append `created` when none does. */
  function Credit(rows: seq<StockRecord>, q: StockQuery, created: StockRecord, amount: int): seq<StockRecord>
  {
    match FirstMatch(rows, q)
    case Some(i) => AddAt(rows, i, amount)
    case None => rows + [created]
  }

  /** A new row for `amount` units of the queried product, nothing reserved. */
  predicate FreshRow(created: StockRecord, q: StockQuery, amount: int)
  {
    created.productId == q.productId && created.quantity == amount && created.reserved == 0
  }

  /** Crediting adds exactly `amount` to the product's on-hand total, whether a row
      was found or created, and changes nothing else that is summed. */
  lemma CreditTotals(rows: seq<StockRecord>, q: StockQuery, created: StockRecord, amount: int, productId: int)
    requires FreshRow(created, q, amount)
    ensures Total(Credit(rows, q, created, amount), productId, OnHand)
         == Total(rows, productId, OnHand) + (if productId == q.productId then amount else 0)
    ensures Total(Credit(rows, q, created, amount), productId, Reserved) == Total(rows, productId, Reserved)
  {
    match FirstMatch(rows, q)
    case Some(i) => AddAtTotals(rows, i, amount, productId);
    case None =>
      TotalAppend(rows, created, productId, OnHand);
      TotalAppend(rows, created, productId, Reserved);
  }

  /** Crediting a positive amount keeps every row sound. */
  lemma CreditKeepsSound(rows: seq<StockRecord>, q: StockQuery, created: StockRecord, amount: int)
    requires Sound(rows) && FreshRow(created, q, amount) && amount >= 0
    ensures Sound(Credit(rows, q, created, amount))
  {
    var s := Credit(rows, q, created, amount);
    forall k | 0 <= k < |s|
      ensures 0 <= s[k].reserved <= s[k].quantity
    {
      if k < |rows| {
        assert s[k].reserved == rows[k].reserved && s[k].quantity >= rows[k].quantity;
      }
    }
  }

  /** Crediting with a new row that the query itself would find moves the
      quantity the query finds by exactly `amount`. */
  lemma CreditHeldAt(rows: seq<StockRecord>, q: StockQuery, created: StockRecord, amount: int)
    requires FreshRow(created, q, amount) && Matches(created, q)
    ensures HeldAt(Credit(rows, q, created, amount), q) == HeldAt(rows, q) + amount
  {
    match FirstMatch(rows, q)
    case Some(i) => AddAtHeldAt(rows, q, amount);
    case None => FirstMatchAppend(rows, created, q);
  }
}
