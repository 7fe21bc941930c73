/** The server actions behind the commission-tariffs page: reading Trendyol
    settlements page by page, keeping the latest commission rate per barcode,
    the cheapest active wholesale price per product, and joining products with
    both. The Trendyol API and the database are parameters: `fetch` stands
    for one settlements request, and the rows handed to the upsert are
    returned. */
module CommissionActions {
  import opened Wrappers
  import opened Seqs
  import CalculationUtils
  import CommissionTariffs

  // ---------------------------------------------------------------------
  // Settlement paging

  /** Items requested per page. */
  const PageSize: nat := 500
  /** Once the page counter passes this value the loop stops. */
  const MaxPage: nat := 100

  /** One settlements request: an API error, or the response's `content`
      (absent when `None`). */
  type Fetch<S> = nat -> Result<Option<seq<S>>, string>

  function Content<S>(data: Option<seq<S>>): seq<S> {
    data.GetOr([])
  }

  /** A page after which the loop asks for the next one. */
  predicate Continues<S>(content: seq<S>, page: nat) {
    |content| == PageSize && page + 1 <= MaxPage
  }

  /** The settlements read from page `page` on, in page order; the first
      failing request ends everything with its error. */
  function SettlementsFrom<S>(fetch: Fetch<S>, page: nat): Result<seq<S>, string>
    decreases MaxPage - page
  {
    match fetch(page)
    case Err(e) => Err(e)
    case Ok(data) =>
      var content := Content(data);
      if Continues(content, page) then
        match SettlementsFrom(fetch, page + 1)
        case Err(e) => Err(e)
        case Ok(rest) => Ok(content + rest)
      else Ok(content)
  }

  /** The number of requests made from page `page` on. */
  function PagesRead<S>(fetch: Fetch<S>, page: nat): nat
    decreases MaxPage - page
  {
    match fetch(page)
    case Err(_) => 1
    case Ok(data) => if Continues(Content(data), page) then 1 + PagesRead(fetch, page + 1) else 1
  }

  /** At most 101 pages are requested, whatever the API answers. */
  lemma {:induction false} PagesReadBound<S>(fetch: Fetch<S>, page: nat)
    requires page <= MaxPage
    ensures 1 <= PagesRead(fetch, page) <= MaxPage + 1 - page
    decreases MaxPage - page
  {
    match fetch(page)
    case Err(_) =>
    case Ok(data) =>
      if Continues(Content(data), page) {
        PagesReadBound(fetch, page + 1);
      }
  }

  /** A short page ends the reading with it. */
  lemma ShortPageEnds<S>(fetch: Fetch<S>, page: nat)
    requires fetch(page).Ok? && |Content(fetch(page).value)| < PageSize
    ensures SettlementsFrom(fetch, page) == Ok(Content(fetch(page).value))
    ensures PagesRead(fetch, page) == 1
  {
  }

  /** A full page below the cap is followed by the next page's settlements. */
  lemma FullPageContinues<S>(fetch: Fetch<S>, page: nat)
    requires page < MaxPage && fetch(page).Ok? && |Content(fetch(page).value)| == PageSize
    requires SettlementsFrom(fetch, page + 1).Ok?
    ensures SettlementsFrom(fetch, page) ==
            Ok(Content(fetch(page).value) + SettlementsFrom(fetch, page + 1).value)
  {
  }

  function Prepend<S>(prefix: seq<S>, r: Result<seq<S>, string>): Result<seq<S>, string> {
    match r
    case Err(e) => Err(e)
    case Ok(v) => Ok(prefix + v)
  }

  /** The `while (hasMore)` loop of `fetchTrendyolCommissionRates`: the pages
      concatenated in page order, and the number of requests made. */
  method FetchSettlements<S>(fetch: Fetch<S>) returns (r: Result<seq<S>, string>, pages: nat)
    ensures r == SettlementsFrom(fetch, 0)
    ensures pages == PagesRead(fetch, 0) && 1 <= pages <= MaxPage + 1
  {
    PagesReadBound(fetch, 0);
    var page: nat := 0;
    var all: seq<S> := [];
    if SettlementsFrom(fetch, 0).Ok? {
      assert [] + SettlementsFrom(fetch, 0).value == SettlementsFrom(fetch, 0).value;
    }
    var hasMore := true;
    while hasMore
      invariant page <= MaxPage + 1
      invariant hasMore ==> page <= MaxPage
      invariant hasMore ==> SettlementsFrom(fetch, 0) == Prepend(all, SettlementsFrom(fetch, page))
      invariant hasMore ==> PagesRead(fetch, 0) == page + PagesRead(fetch, page)
      invariant !hasMore ==> SettlementsFrom(fetch, 0) == Ok(all) && PagesRead(fetch, 0) == page
      decreases MaxPage + 1 - page, hasMore
    {
      var response := fetch(page);
      if response.Err? {
        return Err(response.error), page + 1;
      }
      var content := Content(response.value);
      if Continues(content, page) && SettlementsFrom(fetch, page + 1).Ok? {
        assert all + (content + SettlementsFrom(fetch, page + 1).value) ==
               (all + content) + SettlementsFrom(fetch, page + 1).value;
      }
      all := all + content;
      hasMore := |content| == PageSize;
      page := page + 1;
      if page > MaxPage {
        break;
      }
    }
    r := Ok(all);
    pages := page;
  }

  // ---------------------------------------------------------------------
  // Latest commission rate per barcode

  /** A settlement as the loop reads it: an empty barcode stands for a
      missing one, `None` for a rate that is `null` or `undefined`, and a
      transaction date that does not parse is `None`. */
  datatype Settlement = Settlement(barcode: string, commissionRate: Option<real>,
                                   transactionDate: Option<int>)

  datatype RateEntry = RateEntry(commissionRate: real, transactionDate: Option<int>)

  /** Settlements without a barcode or a rate are skipped. */
  predicate Kept(s: Settlement) {
    s.barcode != [] && s.commissionRate.Some?
  }

  predicate RateOf(s: Settlement, barcode: string) {
    Kept(s) && s.barcode == barcode
  }

  function EntryOf(s: Settlement): RateEntry
    requires Kept(s)
  {
    RateEntry(s.commissionRate.value, s.transactionDate)
  }

  /** `new Date(a) > new Date(b)`: false as soon as either date is invalid. */
  predicate Later(a: Option<int>, b: Option<int>) {
    a.Some? && b.Some? && a.value > b.value
  }

  /** The loop overwrites the entry of a barcode it has not seen, or one whose
      date is strictly earlier. */
  predicate Replaces(m: map<string, RateEntry>, s: Settlement) {
    Kept(s) && (s.barcode !in m || Later(s.transactionDate, m[s.barcode].transactionDate))
  }

  /** `barcodeMap` after the settlements `ss`. */
  function RateMap(ss: seq<Settlement>): map<string, RateEntry> {
    if ss == [] then map[]
    else
      var m := RateMap(ss[..|ss| - 1]);
      var s := ss[|ss| - 1];
      if Replaces(m, s) then m[s.barcode := EntryOf(s)] else m
  }

  /** The keys of `barcodeMap` in insertion order. */
  function RateOrder(ss: seq<Settlement>): seq<string> {
    if ss == [] then []
    else
      var o := RateOrder(ss[..|ss| - 1]);
      var s := ss[|ss| - 1];
      if Kept(s) && s.barcode !in o then o + [s.barcode] else o
  }

  /** The insertion order lists exactly the keys of the map. */
  lemma {:induction false} RateOrderDomain(ss: seq<Settlement>, b: string)
    ensures b in RateOrder(ss) <==> b in RateMap(ss)
  {
    if ss != [] {
      RateOrderDomain(ss[..|ss| - 1], b);
    }
  }

  /** Each barcode is listed once. */
  lemma {:induction false} RateOrderDistinct(ss: seq<Settlement>)
    ensures Distinct(RateOrder(ss))
  {
    if ss != [] {
      var o := RateOrder(ss[..|ss| - 1]);
      RateOrderDistinct(ss[..|ss| - 1]);
      var s := ss[|ss| - 1];
      if Kept(s) && s.barcode !in o {
        forall i, j | 0 <= i < j < |o + [s.barcode]| ensures (o + [s.barcode])[i] != (o + [s.barcode])[j] {
          if j == |o| {
            assert (o + [s.barcode])[i] == o[i];
          } else {
            assert (o + [s.barcode])[i] == o[i] && (o + [s.barcode])[j] == o[j];
          }
        }
      }
    }
  }

  /** A barcode has an entry exactly when some kept settlement carries it. */
  lemma {:induction false} RateMapDomain(ss: seq<Settlement>, b: string)
    ensures b in RateMap(ss) <==> HasRate(ss, b)
  {
    if ss != [] {
      var init := ss[..|ss| - 1];
      RateMapDomain(init, b);
      if exists j :: 0 <= j < |init| && RateOf(init[j], b) {
        var j :| 0 <= j < |init| && RateOf(init[j], b);
        assert ss[j] == init[j];
      }
      if exists j :: 0 <= j < |ss| && RateOf(ss[j], b) {
        var j :| 0 <= j < |ss| && RateOf(ss[j], b);
        if j < |init| {
          assert init[j] == ss[j];
        }
      }
    }
  }

  /** The stored entry is that of a settlement of the barcode, and no later
      settlement of the barcode has a strictly later date. */
  lemma {:induction false} RateMapEntry(ss: seq<Settlement>, b: string)
    requires b in RateMap(ss)
    ensures exists j :: (0 <= j < |ss| && RateOf(ss[j], b) && EntryOf(ss[j]) == RateMap(ss)[b] &&
      forall k :: j < k < |ss| && RateOf(ss[k], b) ==>
        !Later(ss[k].transactionDate, RateMap(ss)[b].transactionDate))
  {
    var init := ss[..|ss| - 1];
    var s := ss[|ss| - 1];
    var m := RateMap(init);
    if Replaces(m, s) && s.barcode == b {
      assert RateOf(ss[|ss| - 1], b);
    } else {
      assert RateMap(ss)[b] == m[b];
      RateMapEntry(init, b);
      var j :| 0 <= j < |init| && RateOf(init[j], b) && EntryOf(init[j]) == m[b] &&
        forall k :: j < k < |init| && RateOf(init[k], b) ==> !Later(init[k].transactionDate, m[b].transactionDate);
      assert ss[j] == init[j];
      forall k | j < k < |ss| && RateOf(ss[k], b)
        ensures !Later(ss[k].transactionDate, RateMap(ss)[b].transactionDate)
      {
        if k < |init| {
          assert ss[k] == init[k];
        }
      }
    }
  }

  predicate Dated(ss: seq<Settlement>, b: string) {
    forall k :: 0 <= k < |ss| && RateOf(ss[k], b) ==> ss[k].transactionDate.Some?
  }

  function DateOf(s: Settlement): int {
    s.transactionDate.GetOr(0)
  }

  /** `ss[j]` is the first settlement of the barcode with its latest date. */
  predicate FirstLatest(ss: seq<Settlement>, b: string, j: int) {
    0 <= j < |ss| && RateOf(ss[j], b) &&
    (forall k :: 0 <= k < |ss| && RateOf(ss[k], b) ==> DateOf(ss[k]) <= DateOf(ss[j])) &&
    (forall k :: 0 <= k < j && RateOf(ss[k], b) ==> DateOf(ss[k]) < DateOf(ss[j]))
  }

  /** Adding a settlement that is not of the barcode, or not strictly later,
      keeps the first latest one. */
  lemma FirstLatestKeep(ss: seq<Settlement>, s: Settlement, b: string, j: int)
    requires FirstLatest(ss, b, j)
    requires RateOf(s, b) ==> DateOf(s) <= DateOf(ss[j])
    ensures FirstLatest(ss + [s], b, j)
  {
    var ss' := ss + [s];
    forall k | 0 <= k < |ss'| && RateOf(ss'[k], b) ensures DateOf(ss'[k]) <= DateOf(ss'[j]) {
      if k < |ss| {
        assert ss'[k] == ss[k];
      }
    }
    forall k | 0 <= k < j && RateOf(ss'[k], b) ensures DateOf(ss'[k]) < DateOf(ss'[j]) {
      assert ss'[k] == ss[k];
    }
  }

  /** A settlement strictly later than every earlier one of its barcode is
      the first latest one. */
  lemma FirstLatestNew(ss: seq<Settlement>, s: Settlement, b: string)
    requires RateOf(s, b)
    requires forall k :: 0 <= k < |ss| && RateOf(ss[k], b) ==> DateOf(ss[k]) < DateOf(s)
    ensures FirstLatest(ss + [s], b, |ss|)
  {
    var ss' := ss + [s];
    forall k | 0 <= k < |ss'| && RateOf(ss'[k], b) ensures DateOf(ss'[k]) <= DateOf(ss'[|ss|]) {
      if k < |ss| {
        assert ss'[k] == ss[k];
      }
    }
    forall k | 0 <= k < |ss| && RateOf(ss'[k], b) ensures DateOf(ss'[k]) < DateOf(ss'[|ss|]) {
      assert ss'[k] == ss[k];
    }
  }

  /** When every date of the barcode is valid, the stored entry is that of
      the first settlement with the latest date. */
  lemma {:induction false} RateMapLatest(ss: seq<Settlement>, b: string)
    requires Dated(ss, b) && b in RateMap(ss)
    ensures RateMap(ss)[b].transactionDate.Some?
    ensures exists j :: FirstLatest(ss, b, j) && EntryOf(ss[j]) == RateMap(ss)[b]
  {
    var init := ss[..|ss| - 1];
    var s := ss[|ss| - 1];
    assert ss == init + [s];
    var m := RateMap(init);
    assert Dated(init, b) by {
      forall k | 0 <= k < |init| && RateOf(init[k], b) ensures init[k].transactionDate.Some? {
        assert init[k] == ss[k];
      }
    }
    if b !in m {
      RateMapDomain(init, b);
      FirstLatestNew(init, s, b);
    } else {
      RateMapLatest(init, b);
      var j :| FirstLatest(init, b, j) && EntryOf(init[j]) == m[b];
      if RateOf(s, b) && Replaces(m, s) {
        FirstLatestNew(init, s, b);
      } else {
        assert RateOf(s, b) ==> s.transactionDate.Some?;
        FirstLatestKeep(init, s, b, j);
        assert ss[j] == init[j];
      }
    }
  }

  /** The `for (const settlement of allSettlements)` loop filling `barcodeMap`. */
  method LatestRates(ss: seq<Settlement>) returns (order: seq<string>, rates: map<string, RateEntry>)
    ensures order == RateOrder(ss)
    ensures rates == RateMap(ss)
  {
    order := [];
    rates := map[];
    var i := 0;
    while i < |ss|
      invariant 0 <= i <= |ss|
      invariant order == RateOrder(ss[..i])
      invariant rates == RateMap(ss[..i])
    {
      var s := ss[i];
      assert ss[..i + 1][..i] == ss[..i];
      assert ss[..i + 1][i] == s;
      if s.barcode != [] && s.commissionRate.Some? {
        RateOrderDomain(ss[..i], s.barcode);
        if s.barcode !in rates || Later(s.transactionDate, rates[s.barcode].transactionDate) {
          if s.barcode !in rates {
            order := order + [s.barcode];
          }
          rates := rates[s.barcode := RateEntry(s.commissionRate.value, s.transactionDate)];
        }
      }
      i := i + 1;
    }
    assert ss[..|ss|] == ss;
  }

  // ---------------------------------------------------------------------
  // Upsert rows

  /** One row of the `trendyol_commission_rates` upsert; `updatedAt` is the
      time of the call. */
  datatype UpsertRow = UpsertRow(barcode: string, commissionRate: real,
                                 lastTransactionDate: int, updatedAt: int)

  /** The error `toISOString` raises on an invalid date. */
  const InvalidTimeValue: string := "Invalid time value"
  const MissingCredentials: string := "Trendyol API bilgileri eksik. Ayarlar sayfasından doldurun."

  /** `Array.from(barcodeMap.entries()).map(...)`: one row per entry in
      insertion order; an entry whose date is invalid makes the conversion
      throw. */
  function UpsertRows(order: seq<string>, rates: map<string, RateEntry>, now: int): (r: Result<seq<UpsertRow>, string>)
    requires forall b :: b in order ==> b in rates
    ensures r.Ok? ==> (|r.value| == |order| &&
      forall k :: 0 <= k < |order| ==> (r.value[k].barcode == order[k] &&
        r.value[k].commissionRate == rates[order[k]].commissionRate &&
        Some(r.value[k].lastTransactionDate) == rates[order[k]].transactionDate))
    ensures r.Err? <==> exists k :: 0 <= k < |order| && rates[order[k]].transactionDate.None?
  {
    if order == [] then Ok([])
    else
      var e := rates[order[0]];
      if e.transactionDate.None? then Err(InvalidTimeValue)
      else
        match UpsertRows(order[1..], rates, now)
        case Err(msg) => Err(msg)
        case Ok(rest) =>
          assert forall k :: 1 <= k < |order| ==> order[k] == order[1..][k - 1];
          Ok([UpsertRow(order[0], e.commissionRate, e.transactionDate.value, now)] + rest)
  }

  /** The rows for the settlements `ss`. */
  function RatesToUpsert(ss: seq<Settlement>, now: int): Result<seq<UpsertRow>, string> {
    forall b | b in RateOrder(ss) ensures b in RateMap(ss) {
      RateOrderDomain(ss, b);
    }
    UpsertRows(RateOrder(ss), RateMap(ss), now)
  }

  predicate Listed(rows: seq<UpsertRow>, b: string) {
    exists k :: 0 <= k < |rows| && rows[k].barcode == b
  }

  predicate HasRate(ss: seq<Settlement>, b: string) {
    exists j :: 0 <= j < |ss| && RateOf(ss[j], b)
  }

  /** The upsert has exactly one row per distinct kept barcode, carrying that
      barcode's latest rate. */
  lemma UpsertOneRowPerBarcode(ss: seq<Settlement>, now: int)
    requires RatesToUpsert(ss, now).Ok?
    ensures var rows := RatesToUpsert(ss, now).value;
      (forall i, j :: 0 <= i < j < |rows| ==> rows[i].barcode != rows[j].barcode) &&
      (forall b :: Listed(rows, b) <==> HasRate(ss, b)) &&
      (forall k :: 0 <= k < |rows| ==> (rows[k].barcode in RateMap(ss) &&
         rows[k].commissionRate == RateMap(ss)[rows[k].barcode].commissionRate))
  {
    var rows := RatesToUpsert(ss, now).value;
    var order := RateOrder(ss);
    RateOrderDistinct(ss);
    forall b ensures Listed(rows, b) <==> HasRate(ss, b) {
      RateOrderDomain(ss, b);
      RateMapDomain(ss, b);
      if b in order {
        var k :| 0 <= k < |order| && order[k] == b;
        assert rows[k].barcode == b;
      }
    }
    forall k | 0 <= k < |rows| ensures rows[k].barcode in RateMap(ss) {
      RateOrderDomain(ss, rows[k].barcode);
    }
  }

  /** `fetchTrendyolCommissionRates`: credentials checked, settlements read,
      the latest rate per barcode kept and turned into upsert rows. */
  method FetchCommissionRates(sellerId: string, apiKey: string, apiSecret: string,
                              fetch: Fetch<Settlement>, now: int)
    returns (r: Result<seq<UpsertRow>, string>)
    ensures sellerId == [] || apiKey == [] || apiSecret == [] ==> r == Err(MissingCredentials)
    ensures sellerId != [] && apiKey != [] && apiSecret != [] ==>
      r == match SettlementsFrom(fetch, 0)
           case Err(e) => Err(e)
           case Ok(ss) => RatesToUpsert(ss, now)
  {
    if sellerId == [] || apiKey == [] || apiSecret == [] {
      return Err(MissingCredentials);
    }
    var settlements, _ := FetchSettlements(fetch);
    if settlements.Err? {
      return Err(settlements.error);
    }
    var order, rates := LatestRates(settlements.value);
    forall b | b in order ensures b in rates {
      RateOrderDomain(settlements.value, b);
    }
    r := UpsertRows(order, rates, now);
  }

  // ---------------------------------------------------------------------
  // Cheapest wholesale price per product

  /** An active wholesale price. */
  datatype WholesalePrice = WholesalePrice(productId: string, buyPrice: real)

  /** `productCosts.get(id) || Infinity`, with `None` for Infinity: an absent
      entry and a stored 0 both read as no value. */
  function CurrentMin(m: map<string, real>, productId: string): Option<real> {
    if productId in m && m[productId] != 0.0 then Some(m[productId]) else None
  }

  predicate Lowers(m: map<string, real>, p: WholesalePrice) {
    var cur := CurrentMin(m, p.productId);
    cur.None? || p.buyPrice < cur.value
  }

  /** `productCosts` after the prices `ps`. */
  function MinCostMap(ps: seq<WholesalePrice>): map<string, real> {
    if ps == [] then map[]
    else
      var m := MinCostMap(ps[..|ps| - 1]);
      var p := ps[|ps| - 1];
      if Lowers(m, p) then m[p.productId := p.buyPrice] else m
  }

  /** The `prices.forEach` loop filling `productCosts`. */
  method MinCosts(ps: seq<WholesalePrice>) returns (costs: map<string, real>)
    ensures costs == MinCostMap(ps)
  {
    costs := map[];
    var i := 0;
    while i < |ps|
      invariant 0 <= i <= |ps|
      invariant costs == MinCostMap(ps[..i])
    {
      var p := ps[i];
      assert ps[..i + 1][..i] == ps[..i];
      var currentMin := if p.productId in costs && costs[p.productId] != 0.0 then Some(costs[p.productId]) else None;
      if currentMin.None? || p.buyPrice < currentMin.value {
        costs := costs[p.productId := p.buyPrice];
      }
      i := i + 1;
    }
    assert ps[..|ps|] == ps;
  }

  predicate PositivePrices(ps: seq<WholesalePrice>, productId: string) {
    forall k :: 0 <= k < |ps| && ps[k].productId == productId ==> ps[k].buyPrice > 0.0
  }

  /** With positive prices the stored cost of a product is its cheapest
      price; a product without prices has no entry. */
  lemma {:induction false} MinCostIsMinimum(ps: seq<WholesalePrice>, productId: string)
    requires PositivePrices(ps, productId)
    ensures productId in MinCostMap(ps) <==> exists k :: 0 <= k < |ps| && ps[k].productId == productId
    ensures productId in MinCostMap(ps) ==>
      (exists k :: 0 <= k < |ps| && ps[k].productId == productId && ps[k].buyPrice == MinCostMap(ps)[productId]) &&
      (forall k :: 0 <= k < |ps| && ps[k].productId == productId ==> MinCostMap(ps)[productId] <= ps[k].buyPrice)
  {
    if ps != [] {
      var init := ps[..|ps| - 1];
      var p := ps[|ps| - 1];
      assert PositivePrices(init, productId) by {
        forall k | 0 <= k < |init| && init[k].productId == productId ensures init[k].buyPrice > 0.0 {
          assert init[k] == ps[k];
        }
      }
      MinCostIsMinimum(init, productId);
      var m := MinCostMap(init);
      if exists k :: 0 <= k < |init| && init[k].productId == productId {
        var k :| 0 <= k < |init| && init[k].productId == productId;
        assert ps[k] == init[k];
      }
      if productId in m {
        var k :| 0 <= k < |init| && init[k].productId == productId && init[k].buyPrice == m[productId];
        assert ps[k] == init[k];
      }
      forall k | 0 <= k < |ps| && ps[k].productId == productId
        ensures k < |init| ==> init[k] == ps[k]
      {
      }
      if p.productId == productId {
        assert ps[|ps| - 1] == p;
      }
    }
  }

  /** A stored 0 does not hold: the next price of that product replaces it,
      even a higher one. */
  lemma ZeroCostReplaced(ps: seq<WholesalePrice>, productId: string, price: real)
    requires productId in MinCostMap(ps) && MinCostMap(ps)[productId] == 0.0
    ensures MinCostMap(ps + [WholesalePrice(productId, price)])[productId] == price
  {
    assert (ps + [WholesalePrice(productId, price)])[..|ps|] == ps;
  }

  // ---------------------------------------------------------------------
  // joinedData

  /** A `products` row; a `None` field is `null`. */
  datatype DbProduct = DbProduct(id: string, barcode: string, name: string, sku: string,
                                 quantity: int, salePrice: Option<real>, cost: Option<real>,
                                 desi: Option<real>, modelId: Option<string>)

  /** A `trendyol_commission_rates` row. */
  datatype CommissionRecord = CommissionRecord(barcode: string, commissionRate: Option<real>)

  /** `v || d` for a nullable number. */
  function OrNumber(v: Option<real>, d: real): (r: real)
    ensures v.Some? && v.value != 0.0 ==> r == v.value
    ensures v.None? || v.value == 0.0 ==> r == d
  {
    if v.Some? && v.value != 0.0 then v.value else d
  }

  /** `commissions.find(c => c.barcode === barcode)` */
  function FindCommission(cs: seq<CommissionRecord>, barcode: string): (r: Option<CommissionRecord>)
    ensures r.Some? ==> r.value in cs && r.value.barcode == barcode
    ensures r.None? <==> forall k :: 0 <= k < |cs| ==> cs[k].barcode != barcode
  {
    if cs == [] then None
    else if cs[0].barcode == barcode then Some(cs[0])
    else
      var r := FindCommission(cs[1..], barcode);
      assert forall k :: 1 <= k < |cs| ==> cs[k] == cs[1..][k - 1];
      r
  }

  /** The page's product record built from one `products` row. */
  function JoinProduct(p: DbProduct, commissions: seq<CommissionRecord>, costs: map<string, real>)
    : CommissionTariffs.ProductData
  {
    var commission := FindCommission(commissions, p.barcode);
    var wholesale := OrNumber(if p.id in costs then Some(costs[p.id]) else None, 0.0);
    var desi := OrNumber(p.desi, 0.0);
    CommissionTariffs.ProductData(
      p.id, p.barcode, p.name, p.sku, p.quantity,
      OrNumber(p.salePrice, 0.0),
      OrNumber(p.cost, wholesale),
      CalculationUtils.ShippingRate(desi),
      desi,
      p.modelId,
      if commission.Some? && commission.value.commissionRate.Some? && commission.value.commissionRate.value != 0.0
      then commission.value.commissionRate else None)
  }

  /** The cost is the product's own cost when truthy, else its cheapest
      positive wholesale price, else 0. */
  lemma JoinedCost(p: DbProduct, commissions: seq<CommissionRecord>, ps: seq<WholesalePrice>)
    requires PositivePrices(ps, p.id)
    ensures var r := JoinProduct(p, commissions, MinCostMap(ps));
      (p.cost.Some? && p.cost.value != 0.0 ==> r.cost == p.cost.value) &&
      ((p.cost.None? || p.cost.value == 0.0) && (exists k :: 0 <= k < |ps| && ps[k].productId == p.id) ==>
        (exists k :: 0 <= k < |ps| && ps[k].productId == p.id && r.cost == ps[k].buyPrice) &&
        (forall k :: 0 <= k < |ps| && ps[k].productId == p.id ==> r.cost <= ps[k].buyPrice)) &&
      ((p.cost.None? || p.cost.value == 0.0) && (forall k :: 0 <= k < |ps| ==> ps[k].productId != p.id) ==>
        r.cost == 0.0)
  {
    MinCostIsMinimum(ps, p.id);
  }

  /** The rate is that of the first commission row with the barcode; a
      missing row and a 0% rate both read as no rate. */
  lemma JoinedRate(p: DbProduct, commissions: seq<CommissionRecord>, costs: map<string, real>)
    ensures var r := JoinProduct(p, commissions, costs);
      (r.commissionRate.Some? <==>
        exists k :: 0 <= k < |commissions| && commissions[k].barcode == p.barcode &&
          (forall j :: 0 <= j < k ==> commissions[j].barcode != p.barcode) &&
          commissions[k].commissionRate.Some? && commissions[k].commissionRate.value != 0.0) &&
      (r.commissionRate.Some? ==> (r.commissionRate.value != 0.0 &&
        exists k :: 0 <= k < |commissions| && commissions[k].barcode == p.barcode &&
          commissions[k].commissionRate == r.commissionRate))
  {
    FirstCommission(commissions, p.barcode);
  }

  lemma {:induction false} FirstCommission(cs: seq<CommissionRecord>, barcode: string)
    ensures FindCommission(cs, barcode).Some? ==>
      exists k :: 0 <= k < |cs| && cs[k] == FindCommission(cs, barcode).value &&
        forall j :: 0 <= j < k ==> cs[j].barcode != barcode
    ensures FindCommission(cs, barcode).None? ==> forall k :: 0 <= k < |cs| ==> cs[k].barcode != barcode
    ensures forall k :: (0 <= k < |cs| && cs[k].barcode == barcode &&
      (forall j :: 0 <= j < k ==> cs[j].barcode != barcode)) ==> FindCommission(cs, barcode) == Some(cs[k])
  {
    if cs != [] && cs[0].barcode != barcode {
      FirstCommission(cs[1..], barcode);
      var r := FindCommission(cs[1..], barcode);
      if r.Some? {
        var k :| 0 <= k < |cs[1..]| && cs[1..][k] == r.value && forall j :: 0 <= j < k ==> cs[1..][j].barcode != barcode;
        assert cs[k + 1] == r.value;
      }
      forall k | 0 <= k < |cs| && cs[k].barcode == barcode && (forall j :: 0 <= j < k ==> cs[j].barcode != barcode)
        ensures FindCommission(cs, barcode) == Some(cs[k])
      {
        assert k > 0 && cs[1..][k - 1] == cs[k];
        assert forall j :: 0 <= j < k - 1 ==> cs[1..][j] == cs[j + 1];
      }
    }
  }

  /** Shipping comes from the desi table at `desi || 0`, so it always lies
      between the table's first and last entries. */
  lemma JoinedShipping(p: DbProduct, commissions: seq<CommissionRecord>, costs: map<string, real>)
    ensures var r := JoinProduct(p, commissions, costs);
      r.desi == OrNumber(p.desi, 0.0) && r.shipping == CalculationUtils.ShippingRate(r.desi) &&
      93.05 <= r.shipping <= 837.88
  {
    CalculationUtils.ShippingRateBounds(OrNumber(p.desi, 0.0));
  }

  /** `products.map(...)`: one record per product, in order, carrying its
      identity fields. */
  function JoinedData(products: seq<DbProduct>, commissions: seq<CommissionRecord>, costs: map<string, real>)
    : (r: seq<CommissionTariffs.ProductData>)
    ensures |r| == |products|
    ensures forall k :: 0 <= k < |products| ==> r[k] == JoinProduct(products[k], commissions, costs)
    ensures forall k :: 0 <= k < |products| ==>
      r[k].id == products[k].id && r[k].barcode == products[k].barcode &&
      r[k].name == products[k].name && r[k].stock == products[k].quantity &&
      r[k].modelId == products[k].modelId
  {
    seq(|products|, k requires 0 <= k < |products| => JoinProduct(products[k], commissions, costs))
  }
}
