/** Bulk product import (`bulkCreateProducts` in services/inventoryService.js):
    each row with a SKU and a name becomes a product of the caller's company
    unless that company already has the SKU; every other row is skipped and
    counted. */
module ProductImport {
  import opened Common
  import opened Store

  /** One spreadsheet row; an empty or missing cell is `None`. */
  datatype ImportRow = ImportRow(sku: Option<string>, name: Option<string>, price: Option<int>)

  /** The counts the import reports; `errors` holds the 1-based row numbers of
      the skipped rows. */
  datatype Summary = Summary(created: nat, skipped: nat, errors: seq<nat>)

  predicate MayImport(role: Role)
  {
    role == SuperAdmin || role == CompanyAdmin || role == InventoryManager
  }

  /** The checks before any row is read: role, the caller's own company (a super
      admin needs one too), and a non-empty list. */
  function CheckImport(caller: Caller, rows: seq<ImportRow>): (r: Result<int>)
    ensures r.Ok? <==> MayImport(caller.role) && caller.companyId.Some? && rows != []
    ensures r.Ok? ==> caller.companyId == Some(r.value)
  {
    if !MayImport(caller.role) then Err(Forbidden("Not allowed to import products"))
    else if caller.companyId.None? then Err(Validation("Company required"))
    else if rows == [] then Err(Validation("No products to import"))
    else Ok(caller.companyId.value)
  }

  /** A row carries both required cells. */
  predicate Usable(row: ImportRow)
  {
    row.sku.Some? && row.name.Some? && row.sku.value != [] && row.name.value != []
  }

  /** The SKUs one company already holds. */
  function CompanySkus(products: map<int, Product>, companyId: int): set<string>
  {
    set id | id in products && products[id].companyId == companyId :: products[id].sku
  }

  /** The products the rows create, in row order, given the SKUs already taken;
      a SKU created by an earlier row counts as taken for later rows. */
  function Imported(taken: set<string>, companyId: int, rows: seq<ImportRow>): seq<Product>
    decreases |rows|
  {
    if rows == [] then []
    else
      var row := rows[0];
      if Usable(row) && row.sku.value !in taken then
        [Product(companyId, row.sku.value, row.name.value, GetOr(row.price, 0))]
          + Imported(taken + {row.sku.value}, companyId, rows[1..])
      else Imported(taken, companyId, rows[1..])
  }

  /** The import never creates a product with a SKU that was taken, never creates
      the same SKU twice, creates only products of the importing company, and
      covers every usable row: its SKU was taken or it is created. */
  lemma {:induction false} ImportedIsFresh(taken: set<string>, companyId: int, rows: seq<ImportRow>)
    ensures var ps := Imported(taken, companyId, rows);
            && |ps| <= |rows|
            && (forall i :: 0 <= i < |ps| ==> ps[i].sku !in taken && ps[i].companyId == companyId)
            && (forall i, j :: 0 <= i < j < |ps| ==> ps[i].sku != ps[j].sku)
            && (forall k :: 0 <= k < |rows| && Usable(rows[k]) ==>
                  rows[k].sku.value in taken || exists i :: 0 <= i < |ps| && ps[i].sku == rows[k].sku.value)
    decreases |rows|
  {
    if rows != [] {
      var row := rows[0];
      var ps := Imported(taken, companyId, rows);
      if Usable(row) && row.sku.value !in taken {
        var t' := taken + {row.sku.value};
        ImportedIsFresh(t', companyId, rows[1..]);
        var rest := Imported(t', companyId, rows[1..]);
        assert ps == [ps[0]] + rest;
        forall k | 0 <= k < |rows| && Usable(rows[k])
          ensures rows[k].sku.value in taken || exists i :: 0 <= i < |ps| && ps[i].sku == rows[k].sku.value
        {
          if k == 0 || rows[k].sku.value == row.sku.value {
            assert ps[0].sku == rows[k].sku.value;
          } else {
            assert rows[k] == rows[1..][k - 1];
            if rows[k].sku.value !in taken {
              var i :| 0 <= i < |rest| && rest[i].sku == rows[k].sku.value;
              assert ps[i + 1] == rest[i];
            }
          }
        }
      } else {
        ImportedIsFresh(taken, companyId, rows[1..]);
        forall k | 0 <= k < |rows| && Usable(rows[k])
          ensures rows[k].sku.value in taken || exists i :: 0 <= i < |ps| && ps[i].sku == rows[k].sku.value
        {
          if k > 0 {
            assert rows[k] == rows[1..][k - 1];
          }
        }
      }
    }
  }

  /** The rows that are skipped, as 1-based row numbers counted from `first`. */
  function Skipped(taken: set<string>, rows: seq<ImportRow>, first: nat): seq<nat>
    decreases |rows|
  {
    if rows == [] then []
    else
      var row := rows[0];
      if Usable(row) && row.sku.value !in taken then Skipped(taken + {row.sku.value}, rows[1..], first + 1)
      else [first] + Skipped(taken, rows[1..], first + 1)
  }

  /** Every row is either created or skipped, never both. */
  lemma {:induction false} CreatedPlusSkipped(taken: set<string>, companyId: int, rows: seq<ImportRow>, first: nat)
    ensures |Imported(taken, companyId, rows)| + |Skipped(taken, rows, first)| == |rows|
    decreases |rows|
  {
    if rows != [] {
      var row := rows[0];
      if Usable(row) && row.sku.value !in taken {
        CreatedPlusSkipped(taken + {row.sku.value}, companyId, rows[1..], first + 1);
      } else {
        CreatedPlusSkipped(taken, companyId, rows[1..], first + 1);
      }
    }
  }

  function NewProduct(companyId: int, row: ImportRow): Product
    requires Usable(row)
  {
    Product(companyId, row.sku.value, row.name.value, GetOr(row.price, 0))
  }

  /** Inserting a product under a new id adds its SKU to its company's SKUs. */
  lemma CompanySkusInsert(products: map<int, Product>, id: int, p: Product)
    requires id !in products
    ensures CompanySkus(products[id := p], p.companyId) == CompanySkus(products, p.companyId) + {p.sku}
  {
    var m := products[id := p];
    forall s | s in CompanySkus(products, p.companyId)
      ensures s in CompanySkus(m, p.companyId)
    {
      var k :| k in products && products[k].companyId == p.companyId && products[k].sku == s;
      assert m[k] == products[k];
    }
    assert m[id] == p;
  }

  /** Unfolding the import at row `i`. */
  lemma ImportStep(taken: set<string>, companyId: int, rows: seq<ImportRow>, i: nat)
    requires i < |rows|
    ensures var row := rows[i];
            Usable(row) && row.sku.value !in taken ==>
              && Imported(taken, companyId, rows[i..])
                   == [NewProduct(companyId, row)] + Imported(taken + {row.sku.value}, companyId, rows[i + 1..])
              && Skipped(taken, rows[i..], i + 1) == Skipped(taken + {row.sku.value}, rows[i + 1..], i + 2)
    ensures var row := rows[i];
            !(Usable(row) && row.sku.value !in taken) ==>
              && Imported(taken, companyId, rows[i..]) == Imported(taken, companyId, rows[i + 1..])
              && Skipped(taken, rows[i..], i + 1) == [i + 1] + Skipped(taken, rows[i + 1..], i + 2)
  {
    assert rows[i..][1..] == rows[i + 1..];
  }

  /** One row of the import loop: create the product when the row is usable and
      its SKU is new to the company. */
  method ImportRowInto(db: Db, companyId: int, row: ImportRow) returns (made: bool)
    requires db.Valid()
    modifies db`nextId, db`products
    ensures db.Valid()
    ensures made <==> Usable(row) && row.sku.value !in CompanySkus(old(db.products), companyId)
    ensures made ==>
              && db.nextId == old(db.nextId) + 1
              && db.products == old(db.products)[old(db.nextId) := NewProduct(companyId, row)]
              && CompanySkus(db.products, companyId) == CompanySkus(old(db.products), companyId) + {row.sku.value}
    ensures !made ==> db.nextId == old(db.nextId) && db.products == old(db.products)
  {
    made := Usable(row) && row.sku.value !in CompanySkus(db.products, companyId);
    if made {
      var p := NewProduct(companyId, row);
      CompanySkusInsert(db.products, db.nextId, p);
      var id := db.AddProduct(p);
    }
  }

  /** The import state after the rows before `i`: products created so far
      under consecutive ids, the SKUs then taken, the rows skipped so far. */
  ghost predicate ImportedUpTo(db: Db, companyId: int, rows: seq<ImportRow>, i: nat,
                               before: map<int, Product>, start: int, taken0: set<string>, taken: set<string>,
                               created: seq<Product>, errors: seq<nat>)
    reads db
  {
    && i <= |rows|
    && db.Valid() && db.nextId == start + |created|
    && db.products == before + Placed(start, created)
    && taken == CompanySkus(db.products, companyId)
    && created + Imported(taken, companyId, rows[i..]) == Imported(taken0, companyId, rows)
    && errors + Skipped(taken, rows[i..], i + 1) == Skipped(taken0, rows, 1)
  }

  /** One step of the import loop: row `i` is created or skipped. */
  method ImportNext(db: Db, companyId: int, rows: seq<ImportRow>, i: nat,
                    ghost before: map<int, Product>, ghost start: int, ghost taken0: set<string>, ghost taken: set<string>,
                    created: seq<Product>, errors: seq<nat>)
    returns (created': seq<Product>, errors': seq<nat>, ghost taken': set<string>)
    requires i < |rows| && ImportedUpTo(db, companyId, rows, i, before, start, taken0, taken, created, errors)
    modifies db`nextId, db`products
    ensures ImportedUpTo(db, companyId, rows, i + 1, before, start, taken0, taken', created', errors')
  {
    var row := rows[i];
    ImportStep(taken, companyId, rows, i);
    var made := ImportRowInto(db, companyId, row);
    if made {
      var p := NewProduct(companyId, row);
      PlacedAppend(before, start, created, p);
      assert created + Imported(taken, companyId, rows[i..])
          == (created + [p]) + Imported(taken + {row.sku.value}, companyId, rows[i + 1..]);
      created', errors', taken' := created + [p], errors, taken + {row.sku.value};
    } else {
      assert errors + Skipped(taken, rows[i..], i + 1) == (errors + [i + 1]) + Skipped(taken, rows[i + 1..], i + 2);
      created', errors', taken' := created, errors + [i + 1], taken;
    }
  }

  /** The import loop over every row. */
  method ImportAll(db: Db, companyId: int, rows: seq<ImportRow>) returns (created: seq<Product>, errors: seq<nat>)
    requires db.Valid()
    modifies db`nextId, db`products
    ensures db.Valid()
    ensures created == Imported(CompanySkus(old(db.products), companyId), companyId, rows)
    ensures errors == Skipped(CompanySkus(old(db.products), companyId), rows, 1)
    ensures db.products == old(db.products) + Placed(old(db.nextId), created)
  {
    ghost var start := db.nextId;
    ghost var taken0 := CompanySkus(db.products, companyId);
    ghost var before := db.products;
    ghost var taken := taken0;
    created, errors := [], [];
    var i := 0;
    while i < |rows|
      invariant ImportedUpTo(db, companyId, rows, i, before, start, taken0, taken, created, errors)
    {
      created, errors, taken := ImportNext(db, companyId, rows, i, before, start, taken0, taken, created, errors);
      i := i + 1;
    }
    assert rows[i..] == [];
  }

  /** `bulkCreateProducts`. The products table gains exactly the imported
      products under fresh ids; the summary counts them and the skipped rows. */
  method BulkCreateProducts(db: Db, caller: Caller, rows: seq<ImportRow>) returns (r: Result<Summary>)
    requires db.Valid()
    modifies db`nextId, db`products
    ensures db.Valid()
    ensures CheckImport(caller, rows).Err? ==>
              r == Err(CheckImport(caller, rows).error) && db.products == old(db.products) && db.nextId == old(db.nextId)
    ensures CheckImport(caller, rows).Ok? ==>
              var companyId := CheckImport(caller, rows).value;
              var taken := CompanySkus(old(db.products), companyId);
              var ps := Imported(taken, companyId, rows);
              && db.products == old(db.products) + Placed(old(db.nextId), ps)
              && r == Ok(Summary(|ps|, |Skipped(taken, rows, 1)|, Skipped(taken, rows, 1)))
  {
    var check := CheckImport(caller, rows);
    if check.Err? {
      return Err(check.error);
    }
    var created, errors := ImportAll(db, check.value, rows);
    return Ok(Summary(|created|, |errors|, errors));
  }
}
