/** The manufacturing calculator: the cost of one unit of a product from its
    recipe of raw materials (currency and unit conversion, fallbacks from the
    recipe line to the material), and the in-memory lists the screen keeps
    (recipes, the manufacturing catalogue, the raw-material catalogue) as its
    handlers change them after the database call succeeds.

    A `null`/`undefined` text field is the empty string and a missing price
    is 0: the code reads all of them through `||`, which treats those alike. */
module Manufacturing {
  import opened Wrappers
  import opened Seqs
  import opened Text

  datatype RawMaterial = RawMaterial(
    id: string, name: string, unit: string, unitPrice: real, currency: string, priceUnit: string)

  /** A recipe line: `quantityPerUnit` of a material per unit of a product. */
  datatype ProductMaterial = ProductMaterial(
    id: string, productId: string, materialId: string, quantityPerUnit: real,
    unit: string, unitPrice: real, currency: string, priceUnit: string,
    material: Option<RawMaterial>)

  datatype Product = Product(id: string, name: string, barcode: string, isActive: bool)

  datatype CatalogEntry = CatalogEntry(id: string, productId: string, createdAt: int, product: Option<Product>)

  /** A recipe line with everything the cost table shows about it. */
  datatype CostedRow = CostedRow(
    item: ProductMaterial, material: Option<RawMaterial>, basePrice: real, currency: string,
    priceInTry: real, usageUnit: string, baseUnit: string, pricePerUsage: real, rowCost: real)

  /** `a || b` on text. */
  function OrText(a: string, b: string): string {
    if a != "" then a else b
  }

  /** `a || b` on numbers. */
  function OrNumber(a: real, b: real): real {
    if a != 0.0 then a else b
  }

  // ---------------------------------------------------------------------------
  // Unit conversion and the cost of a recipe line
  // ---------------------------------------------------------------------------

  /** Conversion of each unit to its base unit (metre, kilogram, piece). */
  const Factors: map<string, real> :=
    map["metre" := 1.0, "cm" := 0.01, "kg" := 1.0, "gr" := 0.001, "adet" := 1.0, "top" := 1.0, "set" := 1.0]

  /** `factors[unit] || 1`: only centimetres and grams differ from 1. */
  function UnitFactor(unit: string): (r: real)
    ensures r > 0.0
  {
    if unit == "cm" then 0.01 else if unit == "gr" then 0.001 else 1.0
  }

  /** The factor is the table's entry, and 1 for a unit the table lacks. */
  lemma UnitFactorIsTable(unit: string)
    ensures UnitFactor(unit) == (if unit in Factors && Factors[unit] != 0.0 then Factors[unit] else 1.0)
  {
  }

  /** A metre is a hundred centimetres, a kilogram a thousand grams, and a
      unit the table does not know counts as one base unit. */
  lemma UnitFactorsConsistent(unit: string)
    ensures UnitFactor("metre") == 100.0 * UnitFactor("cm")
    ensures UnitFactor("kg") == 1000.0 * UnitFactor("gr")
    ensures UnitFactor("adet") == UnitFactor("top") == UnitFactor("set") == 1.0
    ensures unit !in Factors ==> UnitFactor(unit) == 1.0
  {
  }

  /** The price of one usage unit, from a price per price unit. */
  function PricePerUsage(priceInTry: real, usageUnit: string, priceUnit: string): real {
    priceInTry * (UnitFactor(usageUnit) / UnitFactor(priceUnit))
  }

  /** Measured in the unit it is priced in, a material keeps its price; at
      200 TL a metre, a centimetre costs 2 TL. */
  lemma PricePerUsageExamples(priceInTry: real, unit: string)
    ensures PricePerUsage(priceInTry, unit, unit) == priceInTry
    ensures PricePerUsage(200.0, "cm", "metre") == 2.0
  {
  }

  /** The cost of a line depends only on the amount of material it uses, not
      on the unit that amount is written in. */
  lemma {:induction false} CostIndependentOfUsageUnit(price: real, priceUnit: string, q1: real, u1: string, q2: real, u2: string)
    requires q1 * UnitFactor(u1) == q2 * UnitFactor(u2)
    ensures q1 * PricePerUsage(price, u1, priceUnit) == q2 * PricePerUsage(price, u2, priceUnit)
  {
    var a, b, f := UnitFactor(u1), UnitFactor(u2), UnitFactor(priceUnit);
    SameAmountSameCost(price, f, q1, a, q2, b);
  }

  lemma SameAmountSameCost(price: real, f: real, q1: real, a: real, q2: real, b: real)
    requires f > 0.0 && q1 * a == q2 * b
    ensures q1 * (price * (a / f)) == q2 * (price * (b / f))
  {
    var g := price / f;
    assert price * (a / f) == g * a;
    assert price * (b / f) == g * b;
    calc {
      q1 * (g * a);
      g * (q1 * a);
      g * (q2 * b);
      q2 * (g * b);
    }
  }

  lemma PositiveQuotient(x: real, y: real)
    requires x > 0.0 && y > 0.0
    ensures x / y > 0.0
  {
  }

  lemma NonnegativeProduct(x: real, y: real)
    requires x >= 0.0 && y >= 0.0
    ensures x * y >= 0.0
  {
  }

  /** `rawMaterials.find(rm => rm.id === id)` */
  function FindMaterial(raws: seq<RawMaterial>, id: string): (r: Option<RawMaterial>)
    ensures r.Some? ==> r.value in raws && r.value.id == id
    ensures r.None? <==> forall m :: m in raws ==> m.id != id
    ensures r.Some? ==> exists i :: 0 <= i < |raws| && raws[i] == r.value && forall j :: 0 <= j < i ==> raws[j].id != id
  {
    if raws == [] then None
    else if raws[0].id == id then Some(raws[0])
    else
      var r := FindMaterial(raws[1..], id);
      assert r.Some? ==> exists i :: 0 <= i < |raws| && raws[i] == r.value && forall j :: 0 <= j < i ==> raws[j].id != id by {
        if r.Some? {
          var i :| 0 <= i < |raws[1..]| && raws[1..][i] == r.value && forall j :: 0 <= j < i ==> raws[1..][j].id != id;
          assert raws[i + 1] == r.value;
        }
      }
      r
  }

  /** `pm.material || rawMaterials.find(rm => rm.id === pm.material_id)` */
  function MaterialOf(pm: ProductMaterial, raws: seq<RawMaterial>): Option<RawMaterial> {
    if pm.material.Some? then pm.material else FindMaterial(raws, pm.materialId)
  }

  function MaterialPrice(m: Option<RawMaterial>): real {
    if m.Some? then m.value.unitPrice else 0.0
  }

  function MaterialCurrency(m: Option<RawMaterial>): string {
    if m.Some? then m.value.currency else ""
  }

  function MaterialUnit(m: Option<RawMaterial>): string {
    if m.Some? then m.value.unit else ""
  }

  function MaterialPriceUnit(m: Option<RawMaterial>): string {
    if m.Some? then m.value.priceUnit else ""
  }

  /** `pm.unit_price || material?.unit_price || 0` */
  function BasePrice(pm: ProductMaterial, m: Option<RawMaterial>): real {
    OrNumber(pm.unitPrice, OrNumber(MaterialPrice(m), 0.0))
  }

  /** `pm.currency || material?.currency || 'TRY'` */
  function CurrencyOf(pm: ProductMaterial, m: Option<RawMaterial>): string {
    OrText(pm.currency, OrText(MaterialCurrency(m), "TRY"))
  }

  /** A dollar price at the given rate; any other currency is taken as lira. */
  function InTry(price: real, currency: string, usdRate: real): real {
    if currency == "USD" then price * usdRate else price
  }

  /** `pm.unit || material?.unit || 'adet'` */
  function UsageUnitOf(pm: ProductMaterial, m: Option<RawMaterial>): string {
    OrText(pm.unit, OrText(MaterialUnit(m), "adet"))
  }

  /** `pm.price_unit || material?.price_unit || material?.unit || 'adet'` */
  function PriceUnitOf(pm: ProductMaterial, m: Option<RawMaterial>): string {
    OrText(pm.priceUnit, OrText(MaterialPriceUnit(m), OrText(MaterialUnit(m), "adet")))
  }

  /** The price of one usage unit of the line, in lira. */
  function LinePricePerUsage(pm: ProductMaterial, m: Option<RawMaterial>, usdRate: real): real {
    PricePerUsage(InTry(BasePrice(pm, m), CurrencyOf(pm, m), usdRate), UsageUnitOf(pm, m), PriceUnitOf(pm, m))
  }

  /** `pm.quantity_per_unit * finalPricePerUsageUnit` */
  function LineCost(pm: ProductMaterial, m: Option<RawMaterial>, usdRate: real): real {
    pm.quantityPerUnit * LinePricePerUsage(pm, m, usdRate)
  }

  /** One row of `recipeWithCosts` at the given dollar rate. */
  function CostRow(pm: ProductMaterial, raws: seq<RawMaterial>, usdRate: real): CostedRow {
    var m := MaterialOf(pm, raws);
    CostedRow(pm, m, BasePrice(pm, m), CurrencyOf(pm, m), InTry(BasePrice(pm, m), CurrencyOf(pm, m), usdRate),
              UsageUnitOf(pm, m), OrText(MaterialUnit(m), "adet"), LinePricePerUsage(pm, m, usdRate),
              LineCost(pm, m, usdRate))
  }

  /** The price, currency and unit of a line are its own when set, else the
      material's, else a default (0, Turkish lira, piece); dollar prices are
      converted at the given rate and any other currency is taken as lira. */
  lemma CostRowFallbacks(pm: ProductMaterial, raws: seq<RawMaterial>, usdRate: real)
    ensures var r := CostRow(pm, raws, usdRate); var m := r.material;
      && (m == pm.material || (pm.material.None? && m == FindMaterial(raws, pm.materialId)))
      && (pm.unitPrice != 0.0 ==> r.basePrice == pm.unitPrice)
      && (pm.unitPrice == 0.0 && m.Some? ==> r.basePrice == m.value.unitPrice)
      && (pm.unitPrice == 0.0 && m.None? ==> r.basePrice == 0.0)
      && (pm.currency != "" ==> r.currency == pm.currency)
      && (pm.currency == "" && m.Some? && m.value.currency != "" ==> r.currency == m.value.currency)
      && (pm.currency == "" && MaterialCurrency(m) == "" ==> r.currency == "TRY")
      && r.priceInTry == (if r.currency == "USD" then r.basePrice * usdRate else r.basePrice)
      && (pm.unit != "" ==> r.usageUnit == pm.unit)
      && (pm.unit == "" && m.Some? && m.value.unit != "" ==> r.usageUnit == m.value.unit)
      && (pm.unit == "" && MaterialUnit(m) == "" ==> r.usageUnit == "adet")
  {
  }

  /** The unit a line is priced in: the line's, else the material's pricing
      unit, else the material's own unit, else a piece. */
  lemma CostRowPriceUnit(pm: ProductMaterial, raws: seq<RawMaterial>, usdRate: real)
    ensures var r := CostRow(pm, raws, usdRate); var m := r.material;
      && (pm.priceUnit != "" ==> r.pricePerUsage == PricePerUsage(r.priceInTry, r.usageUnit, pm.priceUnit))
      && (pm.priceUnit == "" && MaterialPriceUnit(m) != "" ==>
            r.pricePerUsage == PricePerUsage(r.priceInTry, r.usageUnit, MaterialPriceUnit(m)))
      && (pm.priceUnit == "" && MaterialPriceUnit(m) == "" ==>
            r.pricePerUsage == PricePerUsage(r.priceInTry, r.usageUnit, r.baseUnit))
      && r.rowCost == pm.quantityPerUnit * r.pricePerUsage
  {
  }

  /** With non-negative quantity, prices and dollar rate a line never costs
      less than nothing. */
  lemma CostRowNonnegative(pm: ProductMaterial, raws: seq<RawMaterial>, usdRate: real)
    requires pm.quantityPerUnit >= 0.0 && pm.unitPrice >= 0.0 && usdRate >= 0.0
    requires forall m :: m in raws ==> m.unitPrice >= 0.0
    requires pm.material.Some? ==> pm.material.value.unitPrice >= 0.0
    ensures CostRow(pm, raws, usdRate).rowCost >= 0.0
  {
    MaterialPriceNonnegative(pm, raws);
    LineCostNonnegative(pm, MaterialOf(pm, raws), usdRate);
  }

  lemma MaterialPriceNonnegative(pm: ProductMaterial, raws: seq<RawMaterial>)
    requires forall m :: m in raws ==> m.unitPrice >= 0.0
    requires pm.material.Some? ==> pm.material.value.unitPrice >= 0.0
    ensures MaterialPrice(MaterialOf(pm, raws)) >= 0.0
  {
    if pm.material.None? {
      var found := FindMaterial(raws, pm.materialId);
      assert found.Some? ==> found.value in raws;
    }
  }

  lemma LineCostNonnegative(pm: ProductMaterial, m: Option<RawMaterial>, usdRate: real)
    requires pm.quantityPerUnit >= 0.0 && pm.unitPrice >= 0.0 && usdRate >= 0.0 && MaterialPrice(m) >= 0.0
    ensures LineCost(pm, m, usdRate) >= 0.0
  {
    var base := BasePrice(pm, m);
    var priceInTry := InTry(base, CurrencyOf(pm, m), usdRate);
    if CurrencyOf(pm, m) == "USD" {
      NonnegativeProduct(base, usdRate);
    }
    var a, f := UnitFactor(UsageUnitOf(pm, m)), UnitFactor(PriceUnitOf(pm, m));
    PositiveQuotient(a, f);
    NonnegativeProduct(priceInTry, a / f);
    var perUsage := PricePerUsage(priceInTry, UsageUnitOf(pm, m), PriceUnitOf(pm, m));
    NonnegativeProduct(pm.quantityPerUnit, perUsage);
  }

  /** `productMaterials.filter(pm => pm.product_id === productId)` */
  function Recipe(pms: seq<ProductMaterial>, productId: string): (r: seq<ProductMaterial>)
    ensures forall pm :: pm in r <==> pm in pms && pm.productId == productId
  {
    Filter(pms, (pm: ProductMaterial) => pm.productId == productId)
  }

  /** `recipeWithCosts` */
  function RecipeWithCosts(recipe: seq<ProductMaterial>, raws: seq<RawMaterial>, usdRate: real): (r: seq<CostedRow>)
    ensures |r| == |recipe|
    ensures forall i :: 0 <= i < |r| ==> r[i] == CostRow(recipe[i], raws, usdRate)
  {
    seq(|recipe|, i requires 0 <= i < |recipe| => CostRow(recipe[i], raws, usdRate))
  }

  /** `rows.reduce((sum, item) => sum + item.rowCost, 0)` */
  function TotalCost(rows: seq<CostedRow>): real {
    if rows == [] then 0.0 else TotalCost(rows[..|rows| - 1]) + rows[|rows| - 1].rowCost
  }

  /** The total of a recipe is the sum of the totals of its parts. */
  lemma {:induction false} TotalCostAppend(a: seq<CostedRow>, b: seq<CostedRow>)
    ensures TotalCost(a + b) == TotalCost(a) + TotalCost(b)
    decreases |b|
  {
    if b != [] {
      var init := b[..|b| - 1];
      assert (a + b)[..|a + b| - 1] == a + init;
      TotalCostAppend(a, init);
    } else {
      assert a + b == a;
    }
  }

  /** The total is at least nothing when no line costs less than nothing. */
  lemma {:induction false} TotalCostNonnegative(rows: seq<CostedRow>)
    requires forall i :: 0 <= i < |rows| ==> rows[i].rowCost >= 0.0
    ensures TotalCost(rows) >= 0.0
  {
    if rows != [] {
      TotalCostNonnegative(rows[..|rows| - 1]);
    }
  }

  /** A recipe none of whose lines costs less than nothing costs at least 0
      in total. */
  lemma RecipeTotalNonnegative(recipe: seq<ProductMaterial>, raws: seq<RawMaterial>, usdRate: real)
    ensures (forall pm :: pm in recipe ==> CostRow(pm, raws, usdRate).rowCost >= 0.0) ==>
              TotalCost(RecipeWithCosts(recipe, raws, usdRate)) >= 0.0
  {
    var rows := RecipeWithCosts(recipe, raws, usdRate);
    if forall pm :: pm in recipe ==> CostRow(pm, raws, usdRate).rowCost >= 0.0 {
      forall i | 0 <= i < |rows|
        ensures rows[i].rowCost >= 0.0
      {
        assert recipe[i] in recipe;
      }
      TotalCostNonnegative(rows);
    }
  }

  /** The batch costs shown per line (`rowCost * manufacturingCount`). */
  function BatchCosts(rows: seq<CostedRow>, count: real): (r: seq<real>)
    ensures |r| == |rows| && forall i :: 0 <= i < |rows| ==> r[i] == rows[i].rowCost * count
  {
    seq(|rows|, i requires 0 <= i < |rows| => rows[i].rowCost * count)
  }

  function SumFromLeft(xs: seq<real>): real {
    if xs == [] then 0.0 else SumFromLeft(xs[..|xs| - 1]) + xs[|xs| - 1]
  }

  /** The per-line batch costs add up to the headline batch total
      `totalCostPerUnit * manufacturingCount`. */
  lemma {:induction false} BatchCostsAddUp(rows: seq<CostedRow>, count: real)
    ensures SumFromLeft(BatchCosts(rows, count)) == TotalCost(rows) * count
  {
    if rows != [] {
      var init := rows[..|rows| - 1];
      BatchCostsAddUp(init, count);
      var b, c := BatchCosts(rows, count)[..|rows| - 1], BatchCosts(init, count);
      assert |b| == |c|;
      forall i | 0 <= i < |b|
        ensures b[i] == c[i]
      {
        assert init[i] == rows[i];
      }
      assert b == c;
    }
  }

  // ---------------------------------------------------------------------------
  // Product search and catalogue filter
  // ---------------------------------------------------------------------------

  /** `initialProducts.filter(p => p.is_active)` */
  function ActiveProducts(products: seq<Product>): (r: seq<Product>)
    ensures forall p :: p in r <==> p in products && p.isActive
  {
    Filter(products, (p: Product) => p.isActive)
  }

  predicate MatchesTerm(p: Product, term: string) {
    Contains(Lower(p.name), Lower(term)) || Contains(Lower(p.barcode), Lower(term))
  }

  /** `catalog.some(entry => entry.product_id === id)` */
  predicate Catalogued(catalog: seq<CatalogEntry>, id: string) {
    exists i :: 0 <= i < |catalog| && catalog[i].productId == id
  }

  predicate Eligible(p: Product, catalog: seq<CatalogEntry>, term: string) {
    MatchesTerm(p, term) && !Catalogued(catalog, p.id)
  }

  /** `searchResults`: matching products not yet in the catalogue, at most five. */
  function SearchResults(products: seq<Product>, catalog: seq<CatalogEntry>, term: string): (r: seq<Product>)
    ensures |r| <= 5
    ensures forall p :: p in r ==> p in products && MatchesTerm(p, term) && !Catalogued(catalog, p.id)
  {
    var all := Filter(products, (p: Product) => Eligible(p, catalog, term));
    if |all| <= 5 then all else all[..5]
  }

  /** Every eligible product is offered while at most five are eligible; the
      offer always keeps the list's order. */
  lemma SearchResultsComplete(products: seq<Product>, catalog: seq<CatalogEntry>, term: string)
    ensures IsSubsequence(SearchResults(products, catalog, term), products)
    ensures Count(products, (p: Product) => Eligible(p, catalog, term)) <= 5 ==>
              forall p :: p in products && Eligible(p, catalog, term) ==> p in SearchResults(products, catalog, term)
  {
    var f := (p: Product) => Eligible(p, catalog, term);
    var all := Filter(products, f);
    FilterIsSubsequence(products, f);
    if |all| > 5 {
      PrefixIsSubsequence(all, 5);
      SubsequenceTrans(all[..5], all, products);
    }
  }

  /** `filteredCatalog`: entries whose product's name or barcode contains the
      term, ignoring case; an entry without a product never matches. */
  function FilteredCatalog(catalog: seq<CatalogEntry>, term: string): (r: seq<CatalogEntry>)
    ensures forall e :: e in r <==> e in catalog && e.product.Some? && MatchesTerm(e.product.value, term)
  {
    Filter(catalog, (e: CatalogEntry) => e.product.Some? && MatchesTerm(e.product.value, term))
  }

  // ---------------------------------------------------------------------------
  // The screen's lists and their handlers
  // ---------------------------------------------------------------------------

  /** No two recipe lines share a product and a material. */
  predicate OnePerPair(pms: seq<ProductMaterial>) {
    forall i, j :: 0 <= i < j < |pms| ==>
      !(pms[i].productId == pms[j].productId && pms[i].materialId == pms[j].materialId)
  }

  /** The last line is the only one for the pair. */
  predicate OnlyLastHasPair(pms: seq<ProductMaterial>, productId: string, materialId: string) {
    pms != [] &&
    forall i :: 0 <= i < |pms| - 1 ==> !(pms[i].productId == productId && pms[i].materialId == materialId)
  }

  /** `pms.filter(pm => !(pm.product_id === productId && pm.material_id === materialId))` */
  function WithoutPair(pms: seq<ProductMaterial>, productId: string, materialId: string): (r: seq<ProductMaterial>)
    ensures forall pm :: pm in r <==> pm in pms && !(pm.productId == productId && pm.materialId == materialId)
    ensures IsSubsequence(r, pms)
  {
    var f := (pm: ProductMaterial) => !(pm.productId == productId && pm.materialId == materialId);
    FilterIsSubsequence(pms, f);
    Filter(pms, f)
  }

  lemma {:induction false} SubsequenceOnePerPair(sub: seq<ProductMaterial>, pms: seq<ProductMaterial>)
    requires IsSubsequence(sub, pms) && OnePerPair(pms)
    ensures OnePerPair(sub)
    decreases |pms|
  {
    if sub != [] {
      if sub[0] == pms[0] && IsSubsequence(sub[1..], pms[1..]) {
        SubsequenceOnePerPair(sub[1..], pms[1..]);
        forall j | 0 < j < |sub|
          ensures !(sub[0].productId == sub[j].productId && sub[0].materialId == sub[j].materialId)
        {
          assert sub[j] in sub[1..];
          SubsequenceIn(sub[1..], pms[1..], sub[j]);
          var k :| 0 <= k < |pms[1..]| && pms[1..][k] == sub[j];
          assert pms[k + 1] == sub[j];
        }
      } else {
        SubsequenceOnePerPair(sub, pms[1..]);
      }
    }
  }

  /** Replacing the line of a pair keeps one line per pair. */
  lemma ReplacePairKeepsOnePerPair(pms: seq<ProductMaterial>, entry: ProductMaterial)
    requires OnePerPair(pms)
    ensures OnePerPair(WithoutPair(pms, entry.productId, entry.materialId) + [entry])
  {
    var rest := WithoutPair(pms, entry.productId, entry.materialId);
    SubsequenceOnePerPair(rest, pms);
    var all := rest + [entry];
    forall i, j | 0 <= i < j < |all|
      ensures !(all[i].productId == all[j].productId && all[i].materialId == all[j].materialId)
    {
      if j == |rest| {
        assert all[i] in rest;
      }
    }
  }

  /** `pms.filter(pm => pm.id !== id)` */
  function WithoutId(pms: seq<ProductMaterial>, id: string): (r: seq<ProductMaterial>)
    ensures forall pm :: pm in r <==> pm in pms && pm.id != id
    ensures IsSubsequence(r, pms)
  {
    var f := (pm: ProductMaterial) => pm.id != id;
    FilterIsSubsequence(pms, f);
    Filter(pms, f)
  }

  /** The single-field changes the recipe table makes to a line. */
  datatype Patch =
    | SetQuantity(quantity: real)
    | SetUnit(unit: string)
    | SetUnitPrice(unitPrice: real)
    | SetCurrency(currency: string)
    | SetPriceUnit(priceUnit: string)

  /** `{ ...pm, ...updates }` */
  function ApplyPatch(pm: ProductMaterial, patch: Patch): (r: ProductMaterial)
    ensures r.id == pm.id && r.productId == pm.productId && r.materialId == pm.materialId
    ensures r.material == pm.material
  {
    match patch
    case SetQuantity(q) => pm.(quantityPerUnit := q)
    case SetUnit(u) => pm.(unit := u)
    case SetUnitPrice(p) => pm.(unitPrice := p)
    case SetCurrency(c) => pm.(currency := c)
    case SetPriceUnit(u) => pm.(priceUnit := u)
  }

  /** What the recipe form holds when a material is added. */
  datatype RecipeForm = RecipeForm(
    materialId: string, quantity: real, unit: string, unitPrice: real, currency: string, priceUnit: string)

  /** The row sent to the database; an empty text and `None` are `undefined`. */
  datatype NewRecipeLine = NewRecipeLine(
    productId: string, materialId: string, quantityPerUnit: real, unit: string,
    unitPrice: Option<real>, currency: string, priceUnit: string)

  /** The row `handleAddMaterialToRecipe` sends: the form's unit, else the
      material's, else a piece; the form's price only when it is positive. */
  function AddRequest(productId: string, form: RecipeForm, material: Option<RawMaterial>): (r: NewRecipeLine)
    ensures r.productId == productId && r.materialId == form.materialId && r.quantityPerUnit == form.quantity
    ensures r.unit != ""
    ensures form.unit != "" ==> r.unit == form.unit
    ensures form.unit == "" && MaterialUnit(material) != "" ==> r.unit == MaterialUnit(material)
    ensures r.unitPrice.Some? <==> form.unitPrice > 0.0
    ensures r.unitPrice.Some? ==> r.unitPrice.value == form.unitPrice
  {
    NewRecipeLine(productId, form.materialId, form.quantity,
                  OrText(form.unit, OrText(MaterialUnit(material), "adet")),
                  if form.unitPrice > 0.0 then Some(form.unitPrice) else None,
                  form.currency, form.priceUnit)
  }

  /** A raw-material form: the fields the user has filled in. */
  datatype MaterialForm = MaterialForm(
    name: Option<string>, unit: Option<string>, unitPrice: Option<real>, currency: Option<string>, priceUnit: Option<string>)

  /** `{ ...m, ...form }` */
  function MergeMaterial(m: RawMaterial, form: MaterialForm): (r: RawMaterial)
    ensures r.id == m.id
    ensures form.name.Some? ==> r.name == form.name.value
    ensures form.name.None? ==> r.name == m.name
    ensures form.unit.Some? ==> r.unit == form.unit.value
    ensures form.unit.None? ==> r.unit == m.unit
  {
    RawMaterial(m.id, form.name.GetOr(m.name), form.unit.GetOr(m.unit), form.unitPrice.GetOr(m.unitPrice),
                form.currency.GetOr(m.currency), form.priceUnit.GetOr(m.priceUnit))
  }

  /** `allProducts.find(p => p.id === id)` */
  function FindProduct(products: seq<Product>, id: string): (r: Option<Product>)
    ensures r.Some? ==> r.value in products && r.value.id == id
    ensures r.None? ==> forall p :: p in products ==> p.id != id
  {
    if products == [] then None
    else if products[0].id == id then Some(products[0])
    else FindProduct(products[1..], id)
  }

  /** `catalog.find(entry => entry.id === id)` */
  function FindEntry(catalog: seq<CatalogEntry>, id: string): (r: Option<CatalogEntry>)
    ensures r.Some? ==> r.value in catalog && r.value.id == id
    ensures r.None? ==> forall e :: e in catalog ==> e.id != id
  {
    if catalog == [] then None
    else if catalog[0].id == id then Some(catalog[0])
    else FindEntry(catalog[1..], id)
  }

  const SelectPrompt := "Lütfen malzeme ve miktar seçiniz."
  const RequiredFields := "Lütfen zorunlu alanları doldurun."

  /** The state of the manufacturing screen. Each handler first calls the
      database; that call is a parameter, and when it reports an error the
      handler changes nothing and returns the error. */
  class Workshop {
    const allProducts: seq<Product>
    var catalog: seq<CatalogEntry>
    var rawMaterials: seq<RawMaterial>
    var productMaterials: seq<ProductMaterial>
    var selectedProductId: string

    constructor(initialProducts: seq<Product>, initialRawMaterials: seq<RawMaterial>,
                initialProductMaterials: seq<ProductMaterial>, initialCatalog: seq<CatalogEntry>)
      ensures allProducts == ActiveProducts(initialProducts)
      ensures catalog == initialCatalog && rawMaterials == initialRawMaterials
      ensures productMaterials == initialProductMaterials && selectedProductId == ""
    {
      allProducts := ActiveProducts(initialProducts);
      catalog := initialCatalog;
      rawMaterials := initialRawMaterials;
      productMaterials := initialProductMaterials;
      selectedProductId := "";
    }

    /** The selected product's recipe with its costs. */
    function CurrentCosts(usdRate: real): (r: seq<CostedRow>)
      reads this
      ensures |r| == |Recipe(productMaterials, selectedProductId)|
      ensures forall i :: 0 <= i < |r| ==> r[i].item.productId == selectedProductId
    {
      var recipe := Recipe(productMaterials, selectedProductId);
      assert forall i :: 0 <= i < |recipe| ==> recipe[i] in recipe;
      RecipeWithCosts(recipe, rawMaterials, usdRate)
    }

    /** `totalCostPerUnit`: never negative while no line of the recipe is. */
    function TotalCostPerUnit(usdRate: real): (r: real)
      reads this
      ensures (forall pm :: pm in Recipe(productMaterials, selectedProductId) ==>
                 CostRow(pm, rawMaterials, usdRate).rowCost >= 0.0) ==> r >= 0.0
    {
      RecipeTotalNonnegative(Recipe(productMaterials, selectedProductId), rawMaterials, usdRate);
      TotalCost(CurrentCosts(usdRate))
    }

    /** `handleAddMaterialToRecipe`: rejected unless a product is selected, a
        material is chosen and the quantity is positive; otherwise the row the
        database returns, with its material attached, replaces any line of the
        same product and material. */
    method AddMaterialToRecipe(form: RecipeForm, insert: NewRecipeLine -> Result<ProductMaterial, string>)
      returns (r: Result<string, string>)
      modifies this
      ensures var material := FindMaterial(old(rawMaterials), form.materialId);
        var res := insert(AddRequest(old(selectedProductId), form, material));
        if old(selectedProductId) == "" || form.materialId == "" || form.quantity <= 0.0 then
          r == Err(SelectPrompt) && productMaterials == old(productMaterials)
        else if res.Err? then
          r == Err(res.error) && productMaterials == old(productMaterials)
        else
          r.Ok? &&
          productMaterials == WithoutPair(old(productMaterials), old(selectedProductId), form.materialId)
                              + [res.value.(material := material)]
      ensures r.Ok? ==> OnlyLastHasPair(productMaterials, old(selectedProductId), form.materialId)
      ensures (r.Ok? && OnePerPair(old(productMaterials)) &&
               productMaterials[|productMaterials| - 1].productId == old(selectedProductId) &&
               productMaterials[|productMaterials| - 1].materialId == form.materialId) ==> OnePerPair(productMaterials)
      ensures catalog == old(catalog) && rawMaterials == old(rawMaterials) && selectedProductId == old(selectedProductId)
    {
      if selectedProductId == "" || form.materialId == "" || form.quantity <= 0.0 {
        r := Err(SelectPrompt);
        return;
      }
      var material := FindMaterial(rawMaterials, form.materialId);
      var res := insert(AddRequest(selectedProductId, form, material));
      if res.Err? {
        r := Err(res.error);
        return;
      }
      var entry := res.value.(material := material);
      if OnePerPair(productMaterials) && entry.productId == selectedProductId && entry.materialId == form.materialId {
        ReplacePairKeepsOnePerPair(productMaterials, entry);
      }
      var rest := WithoutPair(productMaterials, selectedProductId, form.materialId);
      assert forall i :: 0 <= i < |rest| ==> rest[i] in rest;
      productMaterials := rest + [entry];
      r := Ok("Malzeme reçeteye eklendi.");
    }

    /** `handleRemoveMaterialFromRecipe`: drops exactly the line with that id. */
    method RemoveMaterialFromRecipe(id: string, remove: string -> Option<string>) returns (r: Result<string, string>)
      modifies this
      ensures remove(id).Some? ==> r == Err(remove(id).value) && productMaterials == old(productMaterials)
      ensures remove(id).None? ==> r.Ok? && productMaterials == WithoutId(old(productMaterials), id)
      ensures OnePerPair(old(productMaterials)) ==> OnePerPair(productMaterials)
      ensures catalog == old(catalog) && rawMaterials == old(rawMaterials) && selectedProductId == old(selectedProductId)
    {
      var error := remove(id);
      if error.Some? {
        r := Err(error.value);
        return;
      }
      if OnePerPair(productMaterials) {
        SubsequenceOnePerPair(WithoutId(productMaterials, id), productMaterials);
      }
      productMaterials := WithoutId(productMaterials, id);
      r := Ok("Reçeteden kaldırıldı.");
    }

    /** `handleUpdateRecipeItem`: the lines with that id get the change, every
        other line stays as it was, and the order is kept. */
    method UpdateRecipeItem(id: string, patch: Patch, update: (string, Patch) -> Option<string>)
      returns (r: Result<string, string>)
      modifies this
      ensures update(id, patch).Some? ==> r == Err(update(id, patch).value) && productMaterials == old(productMaterials)
      ensures update(id, patch).None? ==> r.Ok? && |productMaterials| == |old(productMaterials)|
      ensures update(id, patch).None? ==> forall i :: 0 <= i < |productMaterials| ==>
                productMaterials[i] == (if old(productMaterials)[i].id == id then ApplyPatch(old(productMaterials)[i], patch)
                                        else old(productMaterials)[i])
      ensures OnePerPair(old(productMaterials)) ==> OnePerPair(productMaterials)
      ensures catalog == old(catalog) && rawMaterials == old(rawMaterials) && selectedProductId == old(selectedProductId)
    {
      var error := update(id, patch);
      if error.Some? {
        r := Err(error.value);
        return;
      }
      var pms := productMaterials;
      productMaterials := seq(|pms|, i requires 0 <= i < |pms| => if pms[i].id == id then ApplyPatch(pms[i], patch) else pms[i]);
      r := Ok("Güncellendi.");
    }

    /** `handleAddToCatalog`: the product goes to the front of the catalogue
        and becomes the selected one, so the search stops offering it. */
    method AddToCatalog(productId: string, entryId: string, now: int, add: string -> Option<string>)
      returns (r: Result<string, string>)
      modifies this
      ensures add(productId).Some? ==>
                (r == Err(add(productId).value) && catalog == old(catalog) && selectedProductId == old(selectedProductId))
      ensures add(productId).None? ==>
                (r.Ok? && selectedProductId == productId &&
                 catalog == [CatalogEntry(entryId, productId, now, FindProduct(allProducts, productId))] + old(catalog))
      ensures add(productId).None? ==> forall term :: (forall p :: p in SearchResults(allProducts, catalog, term) ==> p.id != productId)
      ensures productMaterials == old(productMaterials) && rawMaterials == old(rawMaterials)
    {
      var error := add(productId);
      if error.Some? {
        r := Err(error.value);
        return;
      }
      catalog := [CatalogEntry(entryId, productId, now, FindProduct(allProducts, productId))] + catalog;
      assert catalog[0].productId == productId;
      selectedProductId := productId;
      r := Ok("Ürün imalat listesine eklendi.");
    }

    /** `handleRemoveFromCatalog`: drops the entries with that id, and clears
        the selection when the first of them was the selected product. */
    method RemoveFromCatalog(id: string, remove: string -> Option<string>) returns (r: Result<string, string>)
      modifies this
      ensures remove(id).Some? ==>
                (r == Err(remove(id).value) && catalog == old(catalog) && selectedProductId == old(selectedProductId))
      ensures remove(id).None? ==> r.Ok? && catalog == Filter(old(catalog), (e: CatalogEntry) => e.id != id)
      ensures remove(id).None? ==> forall e :: e in catalog ==> e.id != id
      ensures remove(id).None? ==> var found := FindEntry(old(catalog), id);
                selectedProductId == (if found.Some? && found.value.productId == old(selectedProductId) then "" else old(selectedProductId))
      ensures productMaterials == old(productMaterials) && rawMaterials == old(rawMaterials)
    {
      var error := remove(id);
      if error.Some? {
        r := Err(error.value);
        return;
      }
      var found := FindEntry(catalog, id);
      catalog := Filter(catalog, (e: CatalogEntry) => e.id != id);
      if found.Some? && found.value.productId == selectedProductId {
        selectedProductId := "";
      }
      r := Ok("Ürün listeden çıkarıldı.");
    }

    /** `handleDeleteRawMaterial` (once confirmed): drops the materials with that id. */
    method DeleteRawMaterial(id: string, delete: string -> Option<string>) returns (r: Result<string, string>)
      modifies this
      ensures delete(id).Some? ==> r == Err(delete(id).value) && rawMaterials == old(rawMaterials)
      ensures delete(id).None? ==> r.Ok? && rawMaterials == Filter(old(rawMaterials), (m: RawMaterial) => m.id != id)
      ensures delete(id).None? ==> forall m :: m in rawMaterials <==> m in old(rawMaterials) && m.id != id
      ensures productMaterials == old(productMaterials) && catalog == old(catalog) && selectedProductId == old(selectedProductId)
    {
      var error := delete(id);
      if error.Some? {
        r := Err(error.value);
        return;
      }
      rawMaterials := Filter(rawMaterials, (m: RawMaterial) => m.id != id);
      r := Ok("Hammadde silindi.");
    }

    /** `handleSaveRawMaterial`: a name and a unit are required; when editing,
        the form is merged into the materials with that id, otherwise the
        material the database creates (if it returns one) is appended. */
    method SaveRawMaterial(editing: string, form: MaterialForm,
                           update: (string, MaterialForm) -> Option<string>,
                           create: MaterialForm -> Result<Option<RawMaterial>, string>)
      returns (r: Result<string, string>)
      modifies this
      ensures form.name.None? || form.name == Some("") || form.unit.None? || form.unit == Some("") ==>
                r == Err(RequiredFields) && rawMaterials == old(rawMaterials)
      ensures r.Err? <==> form.name.None? || form.name == Some("") || form.unit.None? || form.unit == Some("")
                          || (editing != "" && update(editing, form).Some?)
                          || (editing == "" && create(form).Err?)
      ensures r.Ok? && editing != "" ==>
                (update(editing, form).None? && |rawMaterials| == |old(rawMaterials)| &&
                 forall i :: 0 <= i < |rawMaterials| ==>
                   rawMaterials[i] == (if old(rawMaterials)[i].id == editing then MergeMaterial(old(rawMaterials)[i], form)
                                       else old(rawMaterials)[i]))
      ensures r.Ok? && editing == "" ==>
                (create(form).Ok? &&
                 rawMaterials == old(rawMaterials) + (if create(form).value.Some? then [create(form).value.value] else []))
      ensures r.Err? ==> rawMaterials == old(rawMaterials)
      ensures productMaterials == old(productMaterials) && catalog == old(catalog) && selectedProductId == old(selectedProductId)
    {
      if form.name.GetOr("") == "" || form.unit.GetOr("") == "" {
        r := Err(RequiredFields);
        return;
      }
      if editing != "" {
        var error := update(editing, form);
        if error.Some? {
          r := Err(error.value);
          return;
        }
        var ms := rawMaterials;
        rawMaterials := seq(|ms|, i requires 0 <= i < |ms| => if ms[i].id == editing then MergeMaterial(ms[i], form) else ms[i]);
        r := Ok("Hammadde güncellendi.");
      } else {
        var res := create(form);
        if res.Err? {
          r := Err(res.error);
          return;
        }
        if res.value.Some? {
          rawMaterials := rawMaterials + [res.value.value];
        }
        r := Ok("Hammadde eklendi.");
      }
    }
  }
}
