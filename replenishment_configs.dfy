/** Replenishment settings (services/replenishmentConfigService.js): per-product
    reorder thresholds, and the reorder-point check that suggests which products
    to replenish. */
module ReplenishmentConfigs {
  import opened Common
  import opened Statuses
  import opened Ledger
  import opened Store

  // ---------------------------------------------------------------- creation

  /** The request body. A threshold that is absent, not a number or zero is
      `None`; `autoCreateTasks` is `None` when absent. */
  datatype ConfigRequest = ConfigRequest(
    companyId: Option<int>, productId: int,
    minStockLevel: Option<int>, maxStockLevel: Option<int>,
    reorderPoint: Option<int>, reorderQuantity: Option<int>,
    autoCreateTasks: Option<bool>, status: Option<ConfigStatus>)

  /** The checks of `create`: a company context, from the caller or the body. */
  function CheckCreate(caller: Caller, req: ConfigRequest): (r: Result<int>)
    ensures r.Ok? <==> OrElse(caller.companyId, req.companyId).Some?
    ensures r.Ok? ==> Some(r.value) == OrElse(caller.companyId, req.companyId)
  {
    match OrElse(caller.companyId, req.companyId)
    case None => Err(Validation("companyId required"))
    case Some(c) => Ok(c)
  }

  /** The stored setting: thresholds default to 0, automatic tasks are on unless
      explicitly switched off, and the status defaults to ACTIVE. */
  function NewConfig(id: int, companyId: int, req: ConfigRequest): (c: ReplenishmentConfig)
    ensures c.id == id && c.companyId == companyId && c.productId == req.productId
    ensures req.reorderPoint.None? ==> c.reorderPoint == 0
    ensures req.reorderQuantity.None? ==> c.reorderQuantity == 0
    ensures req.minStockLevel.None? ==> c.minStockLevel == 0
    ensures req.maxStockLevel.None? ==> c.maxStockLevel == 0
    ensures !c.autoCreateTasks <==> req.autoCreateTasks == Some(false)
    ensures req.status.None? ==> c.status == ConfigStatus.Active
  {
    ReplenishmentConfig(id, companyId, req.productId,
                        GetOr(req.minStockLevel, 0), GetOr(req.maxStockLevel, 0),
                        GetOr(req.reorderPoint, 0), GetOr(req.reorderQuantity, 0),
                        req.autoCreateTasks != Some(false), GetOr(req.status, ConfigStatus.Active))
  }

  /** `create`. The row is stored once a company is known; it is returned only
      when the caller may read it back, as the trailing lookup checks the tenant. */
  method CreateConfig(db: Db, caller: Caller, req: ConfigRequest) returns (r: Result<ReplenishmentConfig>)
    requires db.Valid()
    modifies db`nextId, db`replenishmentConfigs
    ensures db.Valid()
    ensures CheckCreate(caller, req).Err? ==>
              r == Err(CheckCreate(caller, req).error)
              && db.replenishmentConfigs == old(db.replenishmentConfigs) && db.nextId == old(db.nextId)
    ensures CheckCreate(caller, req).Ok? ==>
              var c := NewConfig(old(db.nextId), CheckCreate(caller, req).value, req);
              && (forall i :: 0 <= i < |old(db.replenishmentConfigs)| ==> old(db.replenishmentConfigs)[i].id != c.id)
              && db.replenishmentConfigs == old(db.replenishmentConfigs) + [c]
              && r == (if SeesCompany(caller, c.companyId) then Ok(c) else Err(NotFound("Replenishment config not found")))
  {
    var check := CheckCreate(caller, req);
    if check.Err? {
      return Err(check.error);
    }
    var id := db.NewId();
    var c := NewConfig(id, check.value, req);
    db.replenishmentConfigs := db.replenishmentConfigs + [c];
    if SeesCompany(caller, c.companyId) {
      r := Ok(c);
    } else {
      r := Err(NotFound("Replenishment config not found"));
    }
  }

  // ------------------------------------------------------------------ update

  /** The fields an update may supply. */
  datatype ConfigPatch = ConfigPatch(
    productId: Option<int>, minStockLevel: Option<int>, maxStockLevel: Option<int>,
    reorderPoint: Option<int>, reorderQuantity: Option<int>,
    autoCreateTasks: Option<bool>, status: Option<ConfigStatus>)

  /** The setting with the supplied fields replaced; its id and company stay. */
  function Patch(c: ReplenishmentConfig, p: ConfigPatch): (c': ReplenishmentConfig)
    ensures c'.id == c.id && c'.companyId == c.companyId
  {
    c.(productId := GetOr(p.productId, c.productId),
       minStockLevel := GetOr(p.minStockLevel, c.minStockLevel),
       maxStockLevel := GetOr(p.maxStockLevel, c.maxStockLevel),
       reorderPoint := GetOr(p.reorderPoint, c.reorderPoint),
       reorderQuantity := GetOr(p.reorderQuantity, c.reorderQuantity),
       autoCreateTasks := GetOr(p.autoCreateTasks, c.autoCreateTasks),
       status := GetOr(p.status, c.status))
  }

  /** An update that supplies nothing changes nothing, and applying the same
      update twice is applying it once. */
  lemma PatchLaws(c: ReplenishmentConfig, p: ConfigPatch)
    ensures Patch(c, ConfigPatch(None, None, None, None, None, None, None)) == c
    ensures Patch(Patch(c, p), p) == Patch(c, p)
  {
  }

  /** The position of the setting with id `id` that the caller may see. */
  function FindConfig(configs: seq<ReplenishmentConfig>, caller: Caller, id: int): (r: Result<nat>)
    ensures r.Ok? ==> r.value < |configs| && configs[r.value].id == id && SeesCompany(caller, configs[r.value].companyId)
    ensures r.Err? <==> forall i :: 0 <= i < |configs| && configs[i].id == id ==> !SeesCompany(caller, configs[i].companyId)
  {
    if configs == [] then Err(NotFound("Replenishment config not found"))
    else
      var last := |configs| - 1;
      if configs[last].id == id && SeesCompany(caller, configs[last].companyId) then Ok(last)
      else FindConfig(configs[..last], caller, id)
  }

  /** `update`: the setting found gets the supplied fields; no other row changes. */
  method UpdateConfig(db: Db, caller: Caller, id: int, p: ConfigPatch) returns (r: Result<ReplenishmentConfig>)
    modifies db`replenishmentConfigs
    ensures match FindConfig(old(db.replenishmentConfigs), caller, id)
            case Err(e) => r == Err(e) && db.replenishmentConfigs == old(db.replenishmentConfigs)
            case Ok(i) =>
              var c := Patch(old(db.replenishmentConfigs)[i], p);
              r == Ok(c) && db.replenishmentConfigs == old(db.replenishmentConfigs)[i := c]
  {
    var found := FindConfig(db.replenishmentConfigs, caller, id);
    if found.Err? {
      return Err(found.error);
    }
    var i := found.value;
    var c := Patch(db.replenishmentConfigs[i], p);
    db.replenishmentConfigs := db.replenishmentConfigs[i := c];
    return Ok(c);
  }

  // -------------------------------------------------------- reorder-point check

  /** One suggestion; product name and SKU are display data and left out. */
  datatype Suggestion = Suggestion(configId: int, productId: int, currentStock: int, reorderPoint: int, reorderQuantity: int)

  /** The settings the check looks at: ACTIVE, with automatic tasks, and of the
      caller's company unless the caller is a super admin. */
  predicate Watched(c: ReplenishmentConfig, caller: Caller)
  {
    c.status == ConfigStatus.Active && c.autoCreateTasks && SeesCompany(caller, c.companyId)
  }

  /** What is available of a product: the sum of its quantities less the sum of
      its reservations, over every stock record of it. */
  function Available(stock: seq<StockRecord>, productId: int): int
  {
    Total(stock, productId, OnHand) - Total(stock, productId, Reserved)
  }

  /** A product needs replenishing when its reorder point is positive and
      available stock is below it. */
  predicate BelowReorderPoint(c: ReplenishmentConfig, stock: seq<StockRecord>)
  {
    c.reorderPoint > 0 && Available(stock, c.productId) < c.reorderPoint
  }

  function SuggestionFor(c: ReplenishmentConfig, stock: seq<StockRecord>): Suggestion
  {
    Suggestion(c.id, c.productId, Available(stock, c.productId), c.reorderPoint, c.reorderQuantity)
  }

  /** The suggestions, in table order of the settings. */
  function Suggestions(configs: seq<ReplenishmentConfig>, stock: seq<StockRecord>, caller: Caller): seq<Suggestion>
  {
    if configs == [] then []
    else
      var c := configs[|configs| - 1];
      Suggestions(configs[..|configs| - 1], stock, caller)
        + (if Watched(c, caller) && BelowReorderPoint(c, stock) then [SuggestionFor(c, stock)] else [])
  }

  /** A suggestion is made exactly for each watched setting whose product is
      below its reorder point, and carries that product's available stock, the
      reorder point and the reorder quantity. */
  lemma {:induction false} SuggestionsExactly(configs: seq<ReplenishmentConfig>, stock: seq<StockRecord>, caller: Caller, s: Suggestion)
    ensures s in Suggestions(configs, stock, caller) <==>
              exists i :: 0 <= i < |configs| && Watched(configs[i], caller) && BelowReorderPoint(configs[i], stock)
                          && s == SuggestionFor(configs[i], stock)
    ensures |Suggestions(configs, stock, caller)| <= |configs|
  {
    if configs != [] {
      var n := |configs| - 1;
      SuggestionsExactly(configs[..n], stock, caller, s);
      if s in Suggestions(configs, stock, caller) && s !in Suggestions(configs[..n], stock, caller) {
        assert Watched(configs[n], caller) && BelowReorderPoint(configs[n], stock) && s == SuggestionFor(configs[n], stock);
      }
      if exists i :: 0 <= i < |configs| && Watched(configs[i], caller) && BelowReorderPoint(configs[i], stock)
                     && s == SuggestionFor(configs[i], stock) {
        var i :| 0 <= i < |configs| && Watched(configs[i], caller) && BelowReorderPoint(configs[i], stock)
                 && s == SuggestionFor(configs[i], stock);
        if i < n {
          assert configs[..n][i] == configs[i];
        }
      }
    }
  }

  /** The settings the check looks at, in table order. */
  function WatchedConfigs(configs: seq<ReplenishmentConfig>, caller: Caller): (ws: seq<ReplenishmentConfig>)
    ensures forall c :: c in ws <==> c in configs && Watched(c, caller)
  {
    if configs == [] then []
    else
      var c := configs[|configs| - 1];
      WatchedConfigs(configs[..|configs| - 1], caller) + (if Watched(c, caller) then [c] else [])
  }

  /** Only watched settings contribute, so the check may first select them. */
  lemma {:induction false} SuggestionsOfWatched(configs: seq<ReplenishmentConfig>, stock: seq<StockRecord>, caller: Caller)
    ensures Suggestions(WatchedConfigs(configs, caller), stock, caller) == Suggestions(configs, stock, caller)
  {
    if configs != [] {
      var n := |configs| - 1;
      var c := configs[n];
      SuggestionsOfWatched(configs[..n], stock, caller);
      var tail := if Watched(c, caller) && BelowReorderPoint(c, stock) then [SuggestionFor(c, stock)] else [];
      assert Suggestions(configs, stock, caller) == Suggestions(configs[..n], stock, caller) + tail;
      if Watched(c, caller) {
        var ws := WatchedConfigs(configs[..n], caller) + [c];
        assert WatchedConfigs(configs, caller) == ws;
        assert ws[..|ws| - 1] == WatchedConfigs(configs[..n], caller);
        assert Suggestions(ws, stock, caller) == Suggestions(WatchedConfigs(configs[..n], caller), stock, caller) + tail;
      } else {
        assert WatchedConfigs(configs, caller) == WatchedConfigs(configs[..n], caller);
      }
    }
  }

  /** The running sums per product: quantity and reservation. */
  function SumsOf(sums: map<int, (int, int)>, productId: int): (int, int)
  {
    if productId in sums then sums[productId] else (0, 0)
  }

  /** The selection of the watched settings. */
  method SelectWatched(all: seq<ReplenishmentConfig>, caller: Caller) returns (configs: seq<ReplenishmentConfig>)
    ensures configs == WatchedConfigs(all, caller)
  {
    configs := [];
    var i := 0;
    while i < |all|
      invariant 0 <= i <= |all|
      invariant configs == WatchedConfigs(all[..i], caller)
    {
      assert all[..i + 1][..i] == all[..i];
      if Watched(all[i], caller) {
        configs := configs + [all[i]];
      }
      i := i + 1;
    }
    assert all[..i] == all;
  }

  /** The sums per product, for the products in `wanted`. */
  method SumByProduct(stock: seq<StockRecord>, wanted: set<int>) returns (sums: map<int, (int, int)>)
    ensures forall p :: p in wanted ==> SumsOf(sums, p) == (Total(stock, p, OnHand), Total(stock, p, Reserved))
  {
    sums := map[];
    var j := 0;
    while j < |stock|
      invariant 0 <= j <= |stock|
      invariant forall p :: p in wanted ==> SumsOf(sums, p) == (Total(stock[..j], p, OnHand), Total(stock[..j], p, Reserved))
    {
      var s := stock[j];
      assert stock[..j + 1][..j] == stock[..j];
      if s.productId in wanted {
        var (q, res) := SumsOf(sums, s.productId);
        sums := sums[s.productId := (q + s.quantity, res + s.reserved)];
      }
      j := j + 1;
    }
    assert stock[..j] == stock;
  }

  /** The suggestions for the selected settings, reading available stock from
      the sums. */
  method Emit(configs: seq<ReplenishmentConfig>, stock: seq<StockRecord>, caller: Caller, sums: map<int, (int, int)>)
    returns (suggestions: seq<Suggestion>)
    requires forall k :: 0 <= k < |configs| ==> Watched(configs[k], caller)
    requires forall k :: 0 <= k < |configs| ==>
               SumsOf(sums, configs[k].productId) == (Total(stock, configs[k].productId, OnHand), Total(stock, configs[k].productId, Reserved))
    ensures suggestions == Suggestions(configs, stock, caller)
  {
    suggestions := [];
    var k := 0;
    while k < |configs|
      invariant 0 <= k <= |configs|
      invariant suggestions == Suggestions(configs[..k], stock, caller)
    {
      var c := configs[k];
      assert configs[..k + 1][..k] == configs[..k];
      var (q, res) := SumsOf(sums, c.productId);
      var total := q - res;
      if c.reorderPoint > 0 && total < c.reorderPoint {
        suggestions := suggestions + [Suggestion(c.id, c.productId, total, c.reorderPoint, c.reorderQuantity)];
      }
      k := k + 1;
    }
    assert configs[..k] == configs;
  }

  /** `runAutoCheck`: select the watched settings, sum quantity and reservation
      per product over the stock records of their products, then emit a
      suggestion for each setting below its reorder point. */
  method RunAutoCheck(db: Db, caller: Caller) returns (suggestions: seq<Suggestion>)
    ensures suggestions == Suggestions(db.replenishmentConfigs, db.stock, caller)
  {
    var configs := SelectWatched(db.replenishmentConfigs, caller);
    SuggestionsOfWatched(db.replenishmentConfigs, db.stock, caller);
    var wanted := set k | 0 <= k < |configs| :: configs[k].productId;
    var sums := SumByProduct(db.stock, wanted);
    assert forall k :: 0 <= k < |configs| ==> configs[k] in db.replenishmentConfigs && configs[k].productId in wanted;
    suggestions := Emit(configs, db.stock, caller, sums);
  }
}
