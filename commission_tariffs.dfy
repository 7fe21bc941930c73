/** The commission-tariffs page: a VAT-exclusive profit simulation per
    product, products grouped by their Trendyol model, a search over the
    groups, the expanded-group set, the summary counters and the manual
    price field of each row. */
module CommissionTariffs {
  import opened Wrappers
  import opened Text
  import opened Seqs
  import opened JsNumbers
  import TrendyolCalculator
  import Grouping

  // ---------------------------------------------------------------------
  // calculateProfit

  const SaleVatFactor: real := 1.10
  const CostVatFactor: real := 1.10
  const ShippingVatFactor: real := 1.20
  const CommVatFactor: real := 1.20
  /** The withholding share applied to the VAT-exclusive sale. The page also
      declares a 2% ratio that no formula uses. */
  const StopajShare: real := 0.01
  /** Below this profit percentage a product counts as low-profit. */
  const LowProfitPercent: real := 5.0

  datatype Profit = Profit(netProfit: real, profitPercent: real)

  /** `net` as a percentage of `base`, 0 for a base that is not positive. */
  function PercentOf(net: real, base: real): (r: real)
    ensures base > 0.0 ==> r * base == net * 100.0
    ensures base > 0.0 ==> (r > 0.0 <==> net > 0.0) && (r < 0.0 <==> net < 0.0)
    ensures base <= 0.0 ==> r == 0.0
  {
    if base > 0.0 then net / base * 100.0 else 0.0
  }

  /** `calculateProfit`: every amount without its VAT, no service fee. */
  function CalculateProfit(salePrice: real, cost: real, shipping: real, commissionRate: real): (r: Profit)
    ensures salePrice <= 0.0 ==> r.profitPercent == 0.0
    ensures salePrice > 0.0 ==> r.profitPercent * (salePrice / SaleVatFactor) == r.netProfit * 100.0
    ensures salePrice > 0.0 ==> (r.profitPercent > 0.0 <==> r.netProfit > 0.0)
  {
    var saleExcl := salePrice / SaleVatFactor;
    var costExcl := cost / CostVatFactor;
    var shippingExcl := shipping / ShippingVatFactor;
    var commExcl := salePrice * (commissionRate / 100.0) / CommVatFactor;
    var net := saleExcl - costExcl - shippingExcl - commExcl - saleExcl * StopajShare;
    Profit(net, PercentOf(net, saleExcl))
  }

  /** The page's profit is the offline script's profit without its 15 (plus
      VAT) service fee, with the same percentage rule. */
  lemma CalculateProfitWithoutServiceFee(salePrice: real, cost: real, shipping: real, commissionRate: real)
    ensures CalculateProfit(salePrice, cost, shipping, commissionRate).netProfit ==
      TrendyolCalculator.MelontikNet(salePrice, cost, shipping, commissionRate) + 15.0 / 1.20
    ensures var net := CalculateProfit(salePrice, cost, shipping, commissionRate).netProfit;
      CalculateProfit(salePrice, cost, shipping, commissionRate).profitPercent ==
      TrendyolCalculator.MelontikPct(salePrice, net)
  {
  }

  /** A higher commission rate or a higher cost never raises the profit. */
  lemma CalculateProfitMonotone(salePrice: real, cost: real, cost': real, shipping: real,
                                rate: real, rate': real)
    requires salePrice >= 0.0 && rate <= rate' && cost <= cost'
    ensures CalculateProfit(salePrice, cost', shipping, rate').netProfit <=
            CalculateProfit(salePrice, cost, shipping, rate).netProfit
  {
    var comm := salePrice * (rate / 100.0);
    var comm' := salePrice * (rate' / 100.0);
    assert comm' - comm == salePrice * ((rate' - rate) / 100.0);
    assert comm / CommVatFactor <= comm' / CommVatFactor;
    assert cost / CostVatFactor <= cost' / CostVatFactor;
  }

  // ---------------------------------------------------------------------
  // Products and their grouping by model

  /** A product row of the page (the image and the last transaction date
      are only displayed). `modelId` and `commissionRate` may be null. */
  datatype ProductData = ProductData(id: string, barcode: string, name: string, sku: string,
                                     stock: int, salePrice: real, cost: real, shipping: real,
                                     desi: real, modelId: Option<string>,
                                     commissionRate: Option<real>)

  /** `p.modelId || p.name` */
  function GroupKey(p: ProductData): (k: string)
    ensures p.modelId.Some? && p.modelId.value != [] ==> k == p.modelId.value
    ensures p.modelId.None? || p.modelId.value == [] ==> k == p.name
  {
    if p.modelId.Some? && p.modelId.value != [] then p.modelId.value else p.name
  }

  /** `items.reduce((sum, item) => sum + item.stock, 0)` */
  function StockSum(items: seq<ProductData>): int {
    if items == [] then 0 else StockSum(items[..|items| - 1]) + items[|items| - 1].stock
  }

  lemma {:induction false} StockSumAppend(a: seq<ProductData>, b: seq<ProductData>)
    ensures StockSum(a + b) == StockSum(a) + StockSum(b)
    decreases |b|
  {
    if b != [] {
      assert (a + b)[..|a + b| - 1] == a + b[..|b| - 1];
      StockSumAppend(a, b[..|b| - 1]);
    } else {
      assert a + b == a;
    }
  }

  /** `items.some(item => item.commissionRate === null)` */
  predicate HasWarning(items: seq<ProductData>) {
    exists i :: 0 <= i < |items| && items[i].commissionRate.None?
  }

  datatype Group = Group(key: string, items: seq<ProductData>, main: ProductData,
                         totalStock: int, hasWarning: bool)

  function MakeGroup(key: string, items: seq<ProductData>): (g: Group)
    requires items != []
    ensures g.key == key && g.items == items && g.main == items[0]
    ensures g.totalStock == StockSum(items) && g.hasWarning == HasWarning(items)
  {
    Group(key, items, items[0], StockSum(items), HasWarning(items))
  }

  /** The keys of the products in first-seen order. */
  function GroupKeys(products: seq<ProductData>): seq<string> {
    Grouping.InsertionOrder(products, GroupKey)
  }

  /** `g` is the group of `key`: the products with that key in input order,
      the first of them as the main product, their stock total and their
      warning flag. */
  predicate IsGroup(products: seq<ProductData>, key: string, g: Group) {
    g.key == key &&
    g.items == Grouping.Members(products, GroupKey, key) &&
    g.items != [] && g.main == g.items[0] &&
    g.totalStock == StockSum(g.items) && g.hasWarning == HasWarning(g.items)
  }

  /** What `groupedProducts` holds: one group per key, in the order the keys
      first appeared. */
  predicate GroupsOf(products: seq<ProductData>, groups: seq<Group>) {
    |groups| == |GroupKeys(products)| &&
    forall k :: 0 <= k < |groups| ==> IsGroup(products, GroupKeys(products)[k], groups[k])
  }

  /** The entry of a key that occurs makes its group. */
  lemma EntryMakesGroup(products: seq<ProductData>, byKey: map<string, seq<ProductData>>, key: string)
    requires byKey == Grouping.MapOf(products, GroupKey) && key in GroupKeys(products)
    ensures key in byKey && byKey[key] != []
    ensures IsGroup(products, key, MakeGroup(key, byKey[key]))
  {
    Grouping.InsertionOrderDedup(products, GroupKey);
    Grouping.InsertionOrderDomain(products, GroupKey, key);
    Grouping.MapOfMembers(products, GroupKey, key);
    Grouping.KeyHasMembers(products, GroupKey, key);
  }

  /** `groupedProducts`: the products gathered in a `Map` by key, then one
      group built per entry. */
  method GroupProducts(products: seq<ProductData>) returns (groups: seq<Group>)
    ensures GroupsOf(products, groups)
  {
    var order, byKey := Grouping.GroupMap(products, GroupKey);
    groups := [];
    var k := 0;
    while k < |order|
      invariant 0 <= k <= |order| && |groups| == k
      invariant forall j :: 0 <= j < k ==> IsGroup(products, order[j], groups[j])
    {
      var key := order[k];
      EntryMakesGroup(products, byKey, key);
      var g := MakeGroup(key, byKey[key]);
      assert forall j :: 0 <= j < k ==> (groups + [g])[j] == groups[j];
      groups := groups + [g];
      k := k + 1;
    }
  }

  /** Every product is in the group of its key. */
  lemma GroupsHoldProducts(products: seq<ProductData>, groups: seq<Group>, i: int)
    requires GroupsOf(products, groups) && 0 <= i < |products|
    ensures exists k :: 0 <= k < |groups| && groups[k].key == GroupKey(products[i]) &&
                        products[i] in groups[k].items
  {
    var p := products[i];
    var keys := Grouping.KeysOf(products, GroupKey);
    assert keys[i] == GroupKey(p);
    Grouping.InsertionOrderDedup(products, GroupKey);
    var k :| 0 <= k < |GroupKeys(products)| && GroupKeys(products)[k] == GroupKey(p);
    Grouping.MembersIn(products, GroupKey, GroupKey(p));
    assert p in groups[k].items;
  }

  /** The number of products shown across the groups. */
  function ItemTotal(groups: seq<Group>): nat {
    if groups == [] then 0 else ItemTotal(groups[..|groups| - 1]) + |groups[|groups| - 1].items|
  }

  lemma {:induction false} ItemTotalPrefix(products: seq<ProductData>, groups: seq<Group>, n: nat)
    requires GroupsOf(products, groups) && n <= |groups|
    ensures ItemTotal(groups[..n]) == Grouping.GroupSizes(GroupKeys(products)[..n], products, GroupKey)
  {
    if n > 0 {
      ItemTotalPrefix(products, groups, n - 1);
      assert groups[..n][..n - 1] == groups[..n - 1];
      assert GroupKeys(products)[..n][..n - 1] == GroupKeys(products)[..n - 1];
    }
  }

  /** The groups partition the products: each product is in exactly one
      group, so the group sizes add up to the number of products. */
  lemma GroupsPartitionProducts(products: seq<ProductData>, groups: seq<Group>)
    requires GroupsOf(products, groups)
    ensures ItemTotal(groups) == |products|
  {
    ItemTotalPrefix(products, groups, |groups|);
    assert groups[..|groups|] == groups;
    assert GroupKeys(products)[..|groups|] == GroupKeys(products);
    Grouping.InsertionOrderDedup(products, GroupKey);
    Grouping.GroupsPartition(products, GroupKey);
  }

  // ---------------------------------------------------------------------
  // filteredGroups

  /** A variant matches on its barcode as typed (compared with the lower-cased
      term) or on its lower-cased SKU. */
  predicate ItemMatches(item: ProductData, lowerSearch: string) {
    Contains(item.barcode, lowerSearch) || (item.sku != [] && Contains(Lower(item.sku), lowerSearch))
  }

  predicate GroupMatches(g: Group, lowerSearch: string) {
    Contains(Lower(g.main.name), lowerSearch) ||
    exists i :: 0 <= i < |g.items| && ItemMatches(g.items[i], lowerSearch)
  }

  /** `filteredGroups`: all groups for an empty search, otherwise exactly the
      matching groups in their order. */
  function FilteredGroups(groups: seq<Group>, searchTerm: string): (r: seq<Group>)
    ensures searchTerm == [] ==> r == groups
    ensures searchTerm != [] ==>
      (forall i :: 0 <= i < |r| ==> GroupMatches(r[i], Lower(searchTerm))) &&
      (forall i :: 0 <= i < |groups| && GroupMatches(groups[i], Lower(searchTerm)) ==> groups[i] in r)
  {
    if searchTerm == [] then groups
    else Filter(groups, (g: Group) => GroupMatches(g, Lower(searchTerm)))
  }

  /** The search keeps the groups in their order. */
  lemma FilteredGroupsOrder(groups: seq<Group>, searchTerm: string)
    ensures IsSubsequence(FilteredGroups(groups, searchTerm), groups)
  {
    if searchTerm == [] {
      IsSubsequenceRefl(groups);
    } else {
      FilterIsSubsequence(groups, (g: Group) => GroupMatches(g, Lower(searchTerm)));
    }
  }

  // ---------------------------------------------------------------------
  // Summary counters

  predicate HasRate(p: ProductData) {
    p.commissionRate.Some?
  }

  predicate LacksRate(p: ProductData) {
    p.commissionRate.None?
  }

  predicate IsLowProfit(p: ProductData) {
    p.commissionRate.Some? &&
    CalculateProfit(p.salePrice, p.cost, p.shipping, p.commissionRate.value).profitPercent < LowProfitPercent
  }

  /** The "commission data", "data missing" and "low profit" cards. */
  function Counters(products: seq<ProductData>): (r: (nat, nat, nat))
    ensures r.0 + r.1 == |products|
    ensures r.2 <= r.0
  {
    CountComplement(products, HasRate, LacksRate);
    CountMonotone(products, IsLowProfit, HasRate);
    (Count(products, HasRate), Count(products, LacksRate), Count(products, IsLowProfit))
  }

  /** A product sold at no more than its VAT-exclusive costs counts as
      low-profit as soon as it has a rate. */
  lemma LowProfitWhenLoss(p: ProductData)
    requires p.commissionRate.Some? && p.salePrice > 0.0
    requires CalculateProfit(p.salePrice, p.cost, p.shipping, p.commissionRate.value).netProfit <= 0.0
    ensures IsLowProfit(p)
  {
  }

  // ---------------------------------------------------------------------
  // Manual price input

  /** `value.replace(/[^0-9.]/g, '')` */
  function KeepPriceChars(s: string): (r: string)
    ensures |r| <= |s|
    ensures forall i :: 0 <= i < |r| ==> IsDigit(r[i]) || r[i] == '.'
  {
    if s == [] then []
    else (if IsDigit(s[0]) || s[0] == '.' then [s[0]] else []) + KeepPriceChars(s[1..])
  }

  lemma {:induction false} KeepPriceCharsKeeps(s: string)
    requires forall i :: 0 <= i < |s| ==> IsDigit(s[i]) || s[i] == '.'
    ensures KeepPriceChars(s) == s
  {
    if s != [] {
      KeepPriceCharsKeeps(s[1..]);
    }
  }

  /** The manual price field of a row: an emptied field drops the barcode's
      entry, any other text stores its `parseFloat` (`None` for NaN). */
  function ManualPriceInput(prices: map<string, Option<real>>, barcode: string, text: string): (r: map<string, Option<real>>)
    ensures KeepPriceChars(text) == [] ==> barcode !in r
    ensures KeepPriceChars(text) != [] ==> barcode in r && r[barcode] == ParseFloat(KeepPriceChars(text))
    ensures forall b :: b != barcode ==> (b in r <==> b in prices) && (b in r ==> r[b] == prices[b])
  {
    var val := KeepPriceChars(text);
    if val != [] then prices[barcode := ParseFloat(val)] else prices - {barcode}
  }

  /** Typing digits stores their value. */
  lemma ManualPriceDigits(prices: map<string, Option<real>>, barcode: string, d: string)
    requires d != [] && AllDigits(d)
    ensures ManualPriceInput(prices, barcode, d)[barcode] == Some(DigitsValue(d) as real)
  {
    KeepPriceCharsKeeps(d);
    ParseFloatDigits(d);
  }
}
