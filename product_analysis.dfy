/** The per-product campaign analysis of the dashboard: fuzzy column lookup in
    a commission spreadsheet row, price ranges, discount scenarios, the
    commission tiers (barems) of a product, the commission that applies to a
    price, the card status, the merge of spreadsheet barcodes with known
    products, and the participation selection. */
module ProductAnalysis {
  import opened Wrappers
  import opened Text
  import opened Seqs
  import opened JsNumbers
  import opened CalculationUtils

  /** A spreadsheet row: column name to cell value; an absent column reads as
      `undefined`. */
  type Row = map<string, JsValue>

  function Get(row: Row, key: string): JsValue {
    if key in row then row[key] else JUndefined
  }

  // ---------------------------------------------------------------------
  // getColumnValue

  /** The keys tried for one suffix, in order: "p.s", "p. s", "p s", "ps", "s". */
  function SuffixKeys(prefix: string, suffix: string): (ks: seq<string>)
    ensures |ks| == 5 && ks[4] == suffix
  {
    [prefix + "." + suffix, prefix + ". " + suffix, prefix + " " + suffix, prefix + suffix, suffix]
  }

  /** All keys tried, suffix by suffix. */
  function CandidateKeys(prefix: string, suffixes: seq<string>): (ks: seq<string>)
    ensures |ks| == 5 * |suffixes|
  {
    if suffixes == [] then []
    else CandidateKeys(prefix, suffixes[..|suffixes| - 1]) + SuffixKeys(prefix, suffixes[|suffixes| - 1])
  }

  /** The value under the first key whose value is not `undefined`. */
  function FirstDefined(row: Option<Row>, keys: seq<string>): (v: JsValue)
    ensures row.None? ==> v == JUndefined
  {
    if row.None? || keys == [] then JUndefined
    else if Get(row.value, keys[0]) != JUndefined then Get(row.value, keys[0])
    else FirstDefined(row, keys[1..])
  }

  /** `FirstDefined` is `undefined` exactly when every key is, and otherwise
      the value of the first key that is not. */
  lemma {:induction false} FirstDefinedFirst(row: Row, keys: seq<string>)
    ensures FirstDefined(Some(row), keys) == JUndefined ==>
      forall j :: 0 <= j < |keys| ==> Get(row, keys[j]) == JUndefined
    ensures FirstDefined(Some(row), keys) != JUndefined ==>
      exists j :: 0 <= j < |keys| && Get(row, keys[j]) == FirstDefined(Some(row), keys) &&
                  forall i :: 0 <= i < j ==> Get(row, keys[i]) == JUndefined
  {
    if keys != [] && Get(row, keys[0]) == JUndefined {
      FirstDefinedFirst(row, keys[1..]);
      var v := FirstDefined(Some(row), keys[1..]);
      assert forall j :: 1 <= j < |keys| ==> keys[j] == keys[1..][j - 1];
      if v != JUndefined {
        var j :| 0 <= j < |keys[1..]| && Get(row, keys[1..][j]) == v &&
          forall i :: 0 <= i < j ==> Get(row, keys[1..][i]) == JUndefined;
        assert Get(row, keys[j + 1]) == v;
        assert forall i :: 0 <= i < j + 1 ==> Get(row, keys[i]) == JUndefined;
      }
    }
  }

  lemma {:induction false} FirstDefinedAppend(row: Option<Row>, a: seq<string>, b: seq<string>)
    ensures FirstDefined(row, a + b) ==
      if FirstDefined(row, a) != JUndefined then FirstDefined(row, a) else FirstDefined(row, b)
  {
    if a == [] {
      assert a + b == b;
    } else if row.Some? {
      assert (a + b)[0] == a[0];
      assert (a + b)[1..] == a[1..] + b;
      FirstDefinedAppend(row, a[1..], b);
    }
  }

  lemma {:induction false} CandidateKeysAppend(prefix: string, a: seq<string>, b: seq<string>)
    ensures CandidateKeys(prefix, a + b) == CandidateKeys(prefix, a) + CandidateKeys(prefix, b)
    decreases |b|
  {
    if b == [] {
      assert a + b == a;
    } else {
      var b' := b[..|b| - 1];
      assert (a + b)[..|a + b| - 1] == a + b';
      assert (a + b)[|a + b| - 1] == b[|b| - 1];
      CandidateKeysAppend(prefix, a, b');
    }
  }

  /** An earlier suffix beats a later one: the keys of a later suffix are
      consulted only when no key of the earlier ones is defined. */
  lemma ColumnValueEarlierSuffix(row: Option<Row>, prefix: string, a: seq<string>, b: seq<string>)
    ensures FirstDefined(row, CandidateKeys(prefix, a + b)) ==
      if FirstDefined(row, CandidateKeys(prefix, a)) != JUndefined then FirstDefined(row, CandidateKeys(prefix, a))
      else FirstDefined(row, CandidateKeys(prefix, b))
  {
    CandidateKeysAppend(prefix, a, b);
    FirstDefinedAppend(row, CandidateKeys(prefix, a), CandidateKeys(prefix, b));
  }

  lemma CandidateKeysSnoc(prefix: string, suffixes: seq<string>, i: nat)
    requires i < |suffixes|
    ensures CandidateKeys(prefix, suffixes[..i + 1]) ==
      CandidateKeys(prefix, suffixes[..i]) + SuffixKeys(prefix, suffixes[i])
  {
    assert suffixes[..i + 1][..i] == suffixes[..i];
  }

  lemma KeysSnoc(row: Option<Row>, keys: seq<string>, k: nat)
    requires k < |keys| && row.Some? && FirstDefined(row, keys[..k]) == JUndefined
    requires Get(row.value, keys[k]) == JUndefined
    ensures FirstDefined(row, keys[..k + 1]) == JUndefined
  {
    assert keys[..k + 1] == keys[..k] + [keys[k]];
    FirstDefinedAppend(row, keys[..k], [keys[k]]);
  }

  lemma FoundAt(row: Option<Row>, prefix: string, suffixes: seq<string>, i: nat, k: nat)
    requires row.Some? && i < |suffixes| && k < 5
    requires FirstDefined(row, CandidateKeys(prefix, suffixes[..i])) == JUndefined
    requires FirstDefined(row, SuffixKeys(prefix, suffixes[i])[..k]) == JUndefined
    requires Get(row.value, SuffixKeys(prefix, suffixes[i])[k]) != JUndefined
    ensures FirstDefined(row, CandidateKeys(prefix, suffixes)) == Get(row.value, SuffixKeys(prefix, suffixes[i])[k])
  {
    var keys := SuffixKeys(prefix, suffixes[i]);
    assert keys == keys[..k] + keys[k..];
    FirstDefinedAppend(row, keys[..k], keys[k..]);
    CandidateKeysSnoc(prefix, suffixes, i);
    FirstDefinedAppend(row, CandidateKeys(prefix, suffixes[..i]), keys);
    assert suffixes == suffixes[..i + 1] + suffixes[i + 1..];
    ColumnValueEarlierSuffix(row, prefix, suffixes[..i + 1], suffixes[i + 1..]);
  }

  /** `getColumnValue`: for each suffix in order, the five key spellings in
      order; the first value that is not `undefined` is returned. */
  method ColumnValue(row: Option<Row>, prefix: string, suffixes: seq<string>) returns (v: JsValue)
    ensures v == FirstDefined(row, CandidateKeys(prefix, suffixes))
  {
    if row.None? {
      return JUndefined;
    }
    var i := 0;
    while i < |suffixes|
      invariant 0 <= i <= |suffixes|
      invariant FirstDefined(row, CandidateKeys(prefix, suffixes[..i])) == JUndefined
    {
      var keys := SuffixKeys(prefix, suffixes[i]);
      var k := 0;
      while k < 5
        invariant 0 <= k <= 5
        invariant FirstDefined(row, keys[..k]) == JUndefined
      {
        var value := Get(row.value, keys[k]);
        if value != JUndefined {
          FoundAt(row, prefix, suffixes, i, k);
          return value;
        }
        KeysSnoc(row, keys, k);
        k := k + 1;
      }
      assert keys[..5] == keys;
      CandidateKeysSnoc(prefix, suffixes, i);
      FirstDefinedAppend(row, CandidateKeys(prefix, suffixes[..i]), keys);
      i := i + 1;
    }
    assert suffixes[..i] == suffixes;
    return JUndefined;
  }

  // ---------------------------------------------------------------------
  // parsePriceRange

  datatype PriceRange = PriceRange(min: real, max: real)

  /** Two parts that both read as prices form a range. */
  function TwoParts(parts: seq<string>): Option<PriceRange> {
    if |parts| != 2 then None
    else
      match SafeParsePrice(JStr(Trim(parts[0])))
      case None => None
      case Some(a) =>
        match SafeParsePrice(JStr(Trim(parts[1])))
        case None => None
        case Some(b) => Some(PriceRange(a, b))
  }

  /** The "a-b" reading: exactly two parts around '-', both numbers. */
  function RangeParts(raw: string): Option<PriceRange> {
    if '-' !in raw then None else TwoParts(Split(raw, '-'))
  }

  /** `parsePriceRange`: null for a falsy value, the two parts of "a-b" when
      both are numbers, otherwise the whole text as a single price. */
  function ParsePriceRange(v: JsValue): (r: Option<PriceRange>)
    ensures !Truthy(v) ==> r == None
    ensures Truthy(v) && RangeParts(JsString(v)).None? ==>
      r == match SafeParsePrice(JStr(JsString(v))) case Some(n) => Some(PriceRange(n, n)) case None => None
  {
    if !Truthy(v) then None
    else
      var raw := JsString(v);
      var range := RangeParts(raw);
      if range.Some? then range
      else
        match SafeParsePrice(JStr(raw))
        case Some(n) => Some(PriceRange(n, n))
        case None => None
  }

  /** "a-b" with two numeric parts gives the range from a to b. */
  lemma ParsePriceRangeTwo(a: string, b: string, x: real, y: real)
    requires '-' !in a && '-' !in b
    requires SafeParsePrice(JStr(Trim(a))) == Some(x) && SafeParsePrice(JStr(Trim(b))) == Some(y)
    ensures ParsePriceRange(JStr(a + "-" + b)) == Some(PriceRange(x, y))
  {
    RangePartsTwo(a, b, x, y);
  }

  lemma RangePartsTwo(a: string, b: string, x: real, y: real)
    requires '-' !in a && '-' !in b
    requires SafeParsePrice(JStr(Trim(a))) == Some(x) && SafeParsePrice(JStr(Trim(b))) == Some(y)
    ensures RangeParts(a + "-" + b) == Some(PriceRange(x, y))
  {
    var raw := a + "-" + b;
    assert raw[|a|] == '-';
    SplitOnce(a, '-', b);
    assert TwoParts([a, b]) == Some(PriceRange(x, y));
  }

  /** Text without '-' is a single price. */
  lemma ParsePriceRangeSingle(s: string, n: real)
    requires s != [] && '-' !in s && SafeParsePrice(JStr(s)) == Some(n)
    ensures ParsePriceRange(JStr(s)) == Some(PriceRange(n, n))
  {
  }

  /** A positive whole number cell `n` is the range from n to n: its text
      reads back as the same number. */
  lemma ParsePriceRangeWhole(n: nat)
    requires n > 0
    ensures ParsePriceRange(JNum(n as real)) == Some(PriceRange(n as real, n as real))
  {
    var t := NatText(n);
    assert JsString(JNum(n as real)) == t;
    assert !IsDigit('-');
    assert '-' !in t;
    SafeParseDigits(t);
    NatTextValue(n);
  }

  // ---------------------------------------------------------------------
  // getEffectiveValues

  /** The preset scenario: a 10% or 20% discount, a 50 TL coupon that never
      goes below 0, or free shipping. Returns the price and the shipping. */
  function Preset(price: real, shipping: real, scenario: string): (r: (real, real))
    ensures scenario != "freeshipping" ==> r.1 == shipping
    ensures scenario == "freeshipping" ==> r == (price, 0.0)
    ensures scenario == "coupon50" ==> r.0 >= 0.0
    ensures price >= 0.0 ==> 0.0 <= r.0 <= price
  {
    if scenario == "discount10" then (price * 0.90, shipping)
    else if scenario == "discount20" then (price * 0.80, shipping)
    else if scenario == "coupon50" then (if price - 50.0 > 0.0 then price - 50.0 else 0.0, shipping)
    else if scenario == "freeshipping" then (price, 0.0)
    else (price, shipping)
  }

  /** A manual campaign: a percentage off or an amount off. */
  datatype Campaign = PercentOff(p: real) | AmountOff(a: real)

  /** A campaign text with white space removed and the first ',' read as the
      point: with a '%' it is a percentage, otherwise an amount (one '₺'
      dropped); text `parseFloat` cannot read is no campaign. */
  function ParseCampaign(cam: string): (c: Option<Campaign>)
    ensures cam == [] ==> c == None
  {
    if cam == [] then None
    else
      var clean := ReplaceFirst(RemoveSpaces(cam), ',', ".");
      if '%' in clean then
        match ParseFloat(ReplaceFirst(clean, '%', ""))
        case Some(p) => Some(PercentOff(p))
        case None => None
      else
        match ParseFloat(ReplaceFirst(clean, '₺', ""))
        case Some(a) => Some(AmountOff(a))
        case None => None
  }

  lemma NoSpaceInDigits(d: string)
    requires AllDigits(d)
    ensures forall i :: 0 <= i < |d| ==> !IsSpace(d[i])
  {
  }

  /** "d%" is a d percent discount. */
  lemma ParseCampaignPercent(d: string)
    requires AllDigits(d) && d != []
    ensures ParseCampaign(d + "%") == Some(PercentOff(DigitsValue(d) as real))
  {
    var s := d + "%";
    assert forall i :: 0 <= i < |s| ==> !IsSpace(s[i]) by {
      forall i | 0 <= i < |s| ensures !IsSpace(s[i]) {
        if i < |d| { assert s[i] == d[i]; } else { assert s[i] == '%'; }
      }
    }
    RemoveSpacesNone(s);
    assert !IsDigit(',') && !IsDigit('%');
    assert ',' !in s;
    ReplaceFirstAbsent(s, ',', ".");
    assert s[|d|] == '%';
    assert '%' !in d;
    ReplaceFirstSplit(d, '%', "", []);
    assert d + [] == d && d + [] + [] == d && d + ['%'] + [] == s;
    ParseFloatDigits(d);
  }

  /** "₺d" is an amount of d off. */
  lemma ParseCampaignAmount(d: string)
    requires AllDigits(d) && d != []
    ensures ParseCampaign("₺" + d) == Some(AmountOff(DigitsValue(d) as real))
  {
    var s := "₺" + d;
    assert forall i :: 0 <= i < |s| ==> !IsSpace(s[i]) by {
      forall i | 0 <= i < |s| ensures !IsSpace(s[i]) {
        if i == 0 { assert s[i] == '₺'; } else { assert s[i] == d[i - 1]; }
      }
    }
    RemoveSpacesNone(s);
    assert !IsDigit(',') && !IsDigit('%');
    assert ',' !in s && '%' !in s;
    ReplaceFirstAbsent(s, ',', ".");
    ReplaceFirstSplit([], '₺', "", d);
    assert [] + ['₺'] + d == s && [] + "" + d == d;
    ParseFloatDigits(d);
  }

  lemma ScaleBounds(ep: real, f: real)
    requires ep >= 0.0 && 0.0 <= f <= 1.0
    ensures 0.0 <= ep * f <= ep
  {
  }

  /** A parsed campaign applied to the running price: a percentage scales it,
      an amount is taken off but never below 0; no campaign leaves it. */
  function ApplyCampaign(ep: real, c: Option<Campaign>): (r: real)
    ensures c.None? ==> r == ep
    ensures c.Some? && c.value.AmountOff? ==> r >= 0.0 && (c.value.a >= 0.0 && ep >= 0.0 ==> r <= ep)
    ensures c.Some? && c.value.PercentOff? && 0.0 <= c.value.p <= 100.0 && ep >= 0.0 ==> 0.0 <= r <= ep
  {
    match c
    case None => ep
    case Some(PercentOff(p)) =>
      var f := 1.0 - p / 100.0;
      if 0.0 <= p <= 100.0 && ep >= 0.0 then ScaleBounds(ep, f); ep * f else ep * f
    case Some(AmountOff(a)) => if ep - a > 0.0 then ep - a else 0.0
  }

  /** One manual campaign applied to the running price. */
  function CampaignStep(ep: real, cam: string): real {
    ApplyCampaign(ep, ParseCampaign(cam))
  }

  /** The manual campaigns applied in list order. */
  function ApplyCampaigns(ep: real, cams: seq<string>): real {
    if cams == [] then ep else CampaignStep(ApplyCampaigns(ep, cams[..|cams| - 1]), cams[|cams| - 1])
  }

  /** Campaigns compose in list order: the first list, then the second. */
  lemma {:induction false} ApplyCampaignsAppend(ep: real, a: seq<string>, b: seq<string>)
    ensures ApplyCampaigns(ep, a + b) == ApplyCampaigns(ApplyCampaigns(ep, a), b)
    decreases |b|
  {
    if b == [] {
      assert a + b == a;
    } else {
      assert (a + b)[..|a + b| - 1] == a + b[..|b| - 1];
      assert (a + b)[|a + b| - 1] == b[|b| - 1];
      ApplyCampaignsAppend(ep, a, b[..|b| - 1]);
    }
  }

  /** A campaign is a discount of at most 100 percent, or an amount. */
  predicate AtMostFull(cam: string) {
    match ParseCampaign(cam)
    case Some(PercentOff(p)) => 0.0 <= p <= 100.0
    case _ => true
  }

  /** Discounts of at most 100% and amounts never take a price below 0. */
  lemma {:induction false} ApplyCampaignsNonNegative(ep: real, cams: seq<string>)
    requires ep >= 0.0
    requires forall i :: 0 <= i < |cams| ==> AtMostFull(cams[i])
    ensures ApplyCampaigns(ep, cams) >= 0.0
  {
    if cams != [] {
      var c := cams[|cams| - 1];
      assert AtMostFull(c);
      ApplyCampaignsNonNegative(ep, cams[..|cams| - 1]);
    }
  }

  /** The effective price and shipping: the preset first, then the manual
      campaigns in list order. */
  function Effective(price: real, shipping: real, scenario: string, cams: seq<string>): (r: (real, real))
    ensures scenario != "freeshipping" ==> r.1 == shipping
    ensures scenario == "freeshipping" ==> r.1 == 0.0
  {
    var p := Preset(price, shipping, scenario);
    (ApplyCampaigns(p.0, cams), p.1)
  }

  /** `getEffectiveValues` */
  method EffectiveValues(price: real, shipping: real, scenario: string, manualCams: seq<string>)
    returns (ep: real, es: real)
    ensures (ep, es) == Effective(price, shipping, scenario, manualCams)
  {
    ep := price;
    es := shipping;
    if scenario == "discount10" {
      ep := ep * 0.90;
    } else if scenario == "discount20" {
      ep := ep * 0.80;
    } else if scenario == "coupon50" {
      ep := if ep - 50.0 > 0.0 then ep - 50.0 else 0.0;
    } else if scenario == "freeshipping" {
      es := 0.0;
    }
    ghost var start := ep;
    assert (start, es) == Preset(price, shipping, scenario);
    var i := 0;
    while i < |manualCams|
      invariant 0 <= i <= |manualCams|
      invariant ep == ApplyCampaigns(start, manualCams[..i])
    {
      var cam := manualCams[i];
      assert manualCams[..i + 1][..i] == manualCams[..i];
      ep := ApplyCampaign(ep, ParseCampaign(cam));
      i := i + 1;
    }
    assert manualCams[..i] == manualCams;
  }

  // ---------------------------------------------------------------------
  // baremData

  const MinSuffixes: seq<string> :=
    ["Fiyat Alt Limit", "Fiyat Alt Limiti", "Alt Limit", "Alt Limiti", "Barem Alt Limit"]
  const MaxSuffixes: seq<string> :=
    ["Fiyat Üst Limit", "Fiyat Üst Limiti", "Üst Limit", "Üst Limiti", "Barem Üst Limit"]
  const CommissionSuffixes: seq<string> := ["KOMİSYON", "Komisyon", "Komisyon Oranı", "Oran"]
  const PriceSuffixes: seq<string> := ["Fiyat Aralığı", "Barem Fiyat", "Fiyat"]

  /** The commission used when a tier has none. */
  const DefaultCommission: real := 21.5
  /** The upper limit a tier without one is computed with. */
  const OpenUpperLimit: real := 999999.0

  /** What the analysis of one product needs besides its commission row. */
  datatype Context = Context(cost: real, shipping: real, trendyolPrice: Option<real>,
                             scenario: string, manualCams: seq<string>)

  /** The upper-limit cell of tier i; a positive Trendyol price replaces that
      of tier 1. */
  function UpperValue(row: Row, i: nat, trendyolPrice: Option<real>): (v: JsValue)
    ensures i == 1 && trendyolPrice.Some? && trendyolPrice.value > 0.0 ==> v == JNum(trendyolPrice.value)
    ensures !(i == 1 && trendyolPrice.Some? && trendyolPrice.value > 0.0) ==>
      v == FirstDefined(Some(row), CandidateKeys(NatText(i), MaxSuffixes))
  {
    if i == 1 && trendyolPrice.Some? && trendyolPrice.value > 0.0 then JNum(trendyolPrice.value)
    else FirstDefined(Some(row), CandidateKeys(NatText(i), MaxSuffixes))
  }

  /** The commission cell of tier i, 21.5 when it is falsy. */
  function CommissionValue(row: Row, i: nat): (v: JsValue)
    ensures Truthy(v)
    ensures var c := FirstDefined(Some(row), CandidateKeys(NatText(i), CommissionSuffixes));
      if Truthy(c) then v == c else v == JNum(DefaultCommission)
  {
    var c := FirstDefined(Some(row), CandidateKeys(NatText(i), CommissionSuffixes));
    if Truthy(c) then c else JNum(DefaultCommission)
  }

  /** The upper price a tier is computed with: a positive upper limit, or
      999999 for a missing, zero, negative or unreadable one. */
  function CalcMax(maxPrice: Option<real>): (r: real)
    ensures r > 0.0
    ensures maxPrice.Some? && maxPrice.value > 0.0 ==> r == maxPrice.value
    ensures !(maxPrice.Some? && maxPrice.value > 0.0) ==> r == OpenUpperLimit
  {
    if maxPrice.Some? && maxPrice.value > 0.0 then maxPrice.value else OpenUpperLimit
  }

  /** How a price bound is shown: "---" or "₺" followed by the amount. */
  datatype Label = Dash | PriceLabel(v: real)

  /** Profit and margin at one end of a tier; `None` is NaN. */
  datatype Side = Side(netProfit: Option<real>, margin: Option<real>)
  datatype Dual = Dual(min: Side, max: Side)
  datatype Barem = Barem(range: Option<(Label, Label)>, commission: string, dual: Dual)

  /** Net profit and margin of a sale with the default 10% sale VAT and no
      micro-export fee, as the tier cards show them. */
  function CardProfit(salePrice: real, cost: real, shipping: real, rate: real): (r: (real, real)) {
    var netProfit := salePrice - cost - salePrice * (rate / 100.0) - shipping
                     - ServiceFee(false) - Excl(salePrice, VatFactor(10.0)) * StopajRatio;
    (netProfit, Percent(netProfit, salePrice))
  }

  /** The card figures are those of `calculateTrendyolProfit`, whatever the
      cost VAT rate. */
  lemma CardProfitMatches(salePrice: real, cost: real, shipping: real, rate: real, costVatRate: real)
    requires VatFactor(costVatRate) != 0.0
    ensures var t := TrendyolProfit(salePrice, cost, shipping, rate, costVatRate, 10.0, false);
      CardProfit(salePrice, cost, shipping, rate) == (t.netProfit, t.margin)
  {
  }

  /** Profit and margin at an effective price. With a NaN commission the
      profit is NaN and so is the margin of a positive price. */
  function SideAt(ep: real, es: real, cost: real, rate: Option<real>): (s: Side)
    ensures rate.Some? ==> s.netProfit.Some? && s.margin.Some?
    ensures rate.None? ==> s.netProfit == None && (ep > 0.0 <==> s.margin == None)
  {
    match rate
    case Some(c) =>
      var r := CardProfit(ep, cost, es, c);
      Side(Some(r.0), Some(r.1))
    case None => Side(None, if ep > 0.0 then None else Some(0.0))
  }

  /** Profit and margin at a (possibly NaN) price bound after the scenarios. */
  function SideFor(price: Option<real>, ctx: Context, rate: Option<real>): Side {
    match price
    case None => Side(None, Some(0.0))
    case Some(p) =>
      var e := Effective(p, ctx.shipping, ctx.scenario, ctx.manualCams);
      SideAt(e.0, e.1, ctx.cost, rate)
  }

  /** The range a tier with limit cells shows: a positive lower limit and an
      upper limit strictly between 0 and 999999 are labelled, others show
      "---", and there is no range when neither is labelled. */
  function LimitsRange(minPrice: Option<real>, maxPrice: Option<real>): (r: Option<(Label, Label)>)
    ensures r.Some? ==>
      (r.value.0.PriceLabel? ==> r.value.0.v > 0.0) &&
      (r.value.1.PriceLabel? ==> 0.0 < r.value.1.v < OpenUpperLimit)
    ensures r.None? <==> !(minPrice.Some? && minPrice.value > 0.0) &&
                         !(maxPrice.Some? && 0.0 < maxPrice.value < OpenUpperLimit)
  {
    var minLabel := if minPrice.Some? && minPrice.value > 0.0 then PriceLabel(minPrice.value) else Dash;
    var maxLabel := if maxPrice.Some? && 0.0 < maxPrice.value < OpenUpperLimit then PriceLabel(maxPrice.value) else Dash;
    if minLabel.PriceLabel? || maxLabel.PriceLabel? then Some((minLabel, maxLabel)) else None
  }

  /** A tier read from its lower and upper limit cells; its maximum side is
      computed at the upper limit, or at 999999 when that is not positive. */
  function LimitsTier(minVal: JsValue, maxVal: JsValue, comm: JsValue, ctx: Context): (b: Barem)
    ensures b.commission == JsString(comm)
    ensures b.range == LimitsRange(SafeParsePrice(minVal), SafeParsePrice(maxVal))
    ensures b.dual.max == SideFor(Some(CalcMax(SafeParsePrice(maxVal))), ctx, JsToNumber(comm))
  {
    var rate := JsToNumber(comm);
    var minPrice := SafeParsePrice(minVal);
    var maxPrice := SafeParsePrice(maxVal);
    Barem(LimitsRange(minPrice, maxPrice), JsString(comm),
          Dual(SideFor(minPrice, ctx, rate), SideFor(Some(CalcMax(maxPrice)), ctx, rate)))
  }

  /** A tier read from a price (range) cell: present exactly when the cell
      reads as a price or a range, which it then shows. */
  function RangeTier(priceVal: JsValue, comm: JsValue, ctx: Context): (b: Option<Barem>)
    ensures b.Some? <==> ParsePriceRange(priceVal).Some?
    ensures b.Some? ==> (b.value.commission == JsString(comm) &&
                         b.value.range == Some((PriceLabel(ParsePriceRange(priceVal).value.min),
                                                PriceLabel(ParsePriceRange(priceVal).value.max))))
  {
    var rate := JsToNumber(comm);
    if !Truthy(priceVal) then None
    else
      match ParsePriceRange(priceVal)
      case None => None
      case Some(r) =>
        Some(Barem(Some((PriceLabel(r.min), PriceLabel(r.max))), JsString(comm),
                   Dual(SideFor(Some(r.min), ctx, rate), SideFor(Some(r.max), ctx, rate))))
  }

  /** Tier i of a commission row, if it has one. A tier with a lower or upper
      limit cell uses those; otherwise its price (range) cell is read. */
  function TierAt(row: Row, i: nat, ctx: Context): (b: Option<Barem>)
  {
    var minVal := FirstDefined(Some(row), CandidateKeys(NatText(i), MinSuffixes));
    var maxVal := UpperValue(row, i, ctx.trendyolPrice);
    var comm := CommissionValue(row, i);
    if minVal != JUndefined || maxVal != JUndefined then Some(LimitsTier(minVal, maxVal, comm, ctx))
    else RangeTier(FirstDefined(Some(row), CandidateKeys(NatText(i), PriceSuffixes)), comm, ctx)
  }

  /** A tier shows the commission cell of its number, and a tier with a
      lower or upper limit always exists. */
  lemma TierAtShape(row: Row, i: nat, ctx: Context)
    ensures TierAt(row, i, ctx).Some? ==>
      TierAt(row, i, ctx).value.commission == JsString(CommissionValue(row, i))
    ensures FirstDefined(Some(row), CandidateKeys(NatText(i), MinSuffixes)) != JUndefined ==>
      TierAt(row, i, ctx).Some?
    ensures UpperValue(row, i, ctx.trendyolPrice) != JUndefined ==> TierAt(row, i, ctx).Some?
  {
  }

  /** Tiers 1..n that exist, in ascending order. */
  function BaremsUpTo(row: Row, n: nat, ctx: Context): (r: seq<Barem>)
    ensures |r| <= n
  {
    if n == 0 then []
    else
      var b := TierAt(row, n, ctx);
      BaremsUpTo(row, n - 1, ctx) + (if b.Some? then [b.value] else [])
  }

  /** The tier list of a product: empty without a commission row or for a
      product that was not found, otherwise tiers 1..4. */
  function BaremList(commRow: Option<Row>, notFound: bool, ctx: Context): (r: seq<Barem>)
    ensures |r| <= 4
    ensures commRow.None? || notFound ==> r == []
  {
    if commRow.None? || notFound then [] else BaremsUpTo(commRow.value, 4, ctx)
  }

  /** Profit and margin at a price bound after the scenarios. */
  method SideOf(price: Option<real>, ctx: Context, rate: Option<real>) returns (side: Side)
    ensures side == SideFor(price, ctx, rate)
  {
    if price.None? {
      return Side(None, Some(0.0));
    }
    var ep, es := EffectiveValues(price.value, ctx.shipping, ctx.scenario, ctx.manualCams);
    side := SideAt(ep, es, ctx.cost, rate);
  }

  /** The tier of the limit-cells branch of `baremData`. */
  method TierFromLimits(minVal: JsValue, maxVal: JsValue, comm: JsValue, ctx: Context) returns (b: Barem)
    ensures b == LimitsTier(minVal, maxVal, comm, ctx)
  {
    var rate := JsToNumber(comm);
    var minPrice := SafeParsePrice(minVal);
    var maxPrice := SafeParsePrice(maxVal);
    var calcMax := CalcMax(maxPrice);
    var minSide := SideOf(minPrice, ctx, rate);
    var maxSide := SideOf(Some(calcMax), ctx, rate);
    b := Barem(LimitsRange(minPrice, maxPrice), JsString(comm), Dual(minSide, maxSide));
  }

  /** The tier of the price-cell branch of `baremData`. */
  method TierFromRange(priceVal: JsValue, comm: JsValue, ctx: Context) returns (b: Option<Barem>)
    ensures b == RangeTier(priceVal, comm, ctx)
  {
    var rate := JsToNumber(comm);
    if Truthy(priceVal) {
      var range := ParsePriceRange(priceVal);
      if range.Some? {
        var minSide := SideOf(Some(range.value.min), ctx, rate);
        var maxSide := SideOf(Some(range.value.max), ctx, rate);
        return Some(Barem(Some((PriceLabel(range.value.min), PriceLabel(range.value.max))), JsString(comm),
                          Dual(minSide, maxSide)));
      }
    }
    return None;
  }

  /** One iteration of the tier loop of `baremData`. */
  method Tier(row: Row, i: nat, ctx: Context) returns (b: Option<Barem>)
    ensures b == TierAt(row, i, ctx)
  {
    var prefix := NatText(i);
    var minVal := ColumnValue(Some(row), prefix, MinSuffixes);
    var maxVal := ColumnValue(Some(row), prefix, MaxSuffixes);
    if i == 1 && ctx.trendyolPrice.Some? && ctx.trendyolPrice.value > 0.0 {
      maxVal := JNum(ctx.trendyolPrice.value);
    }
    var comm := ColumnValue(Some(row), prefix, CommissionSuffixes);
    if !Truthy(comm) {
      comm := JNum(DefaultCommission);
    }
    if minVal != JUndefined || maxVal != JUndefined {
      var t := TierFromLimits(minVal, maxVal, comm, ctx);
      return Some(t);
    }
    var priceVal := ColumnValue(Some(row), prefix, PriceSuffixes);
    b := TierFromRange(priceVal, comm, ctx);
  }

  /** The tier loop of `baremData` over tier numbers 1..n, in ascending
      order. */
  method BaremLoop(row: Row, ctx: Context, n: nat) returns (scenarios: seq<Barem>)
    ensures scenarios == BaremsUpTo(row, n, ctx)
  {
    scenarios := [];
    var i := 1;
    while i <= n
      invariant 1 <= i <= n + 1
      // stated under a quantifier so that the tier list is unfolded only
      // where the proof needs it
      invariant forall k :: k == i - 1 ==> scenarios == BaremsUpTo(row, k, ctx)
    {
      var b := Tier(row, i, ctx);
      if b.Some? {
        scenarios := scenarios + [b.value];
      }
      i := i + 1;
    }
  }

  /** `baremData` */
  method BaremData(commRow: Option<Row>, notFound: bool, ctx: Context) returns (scenarios: seq<Barem>)
    ensures scenarios == BaremList(commRow, notFound, ctx)
  {
    if commRow.None? || notFound {
      return [];
    }
    scenarios := BaremLoop(commRow.value, ctx, 4);
  }

  // ---------------------------------------------------------------------
  // getCommissionForPrice

  /** The value a label reads back as; "---" reads as 0. */
  function LabelValue(l: Label): real {
    match l
    case Dash => 0.0
    case PriceLabel(v) => v
  }

  /** A tier covers a price when it shows a range whose lower bound is at most
      the price and whose upper bound (999999 for 0) is at least the price. */
  predicate Covers(b: Barem, price: real) {
    b.range.Some? &&
    var lo := LabelValue(b.range.value.0);
    var hi := if LabelValue(b.range.value.1) == 0.0 then OpenUpperLimit else LabelValue(b.range.value.1);
    lo <= price <= hi
  }

  /** The commission of the first tier, or 21.5 when it is 0 or unreadable. */
  function FirstTierCommission(b: Barem): (r: real)
    ensures r != 0.0
  {
    match SafeParsePrice(JStr(b.commission))
    case Some(c) => if c != 0.0 then c else DefaultCommission
    case None => DefaultCommission
  }

  /** The index of the first tier from `k` on that covers the price, or -1. */
  function FirstCover(barems: seq<Barem>, price: real, k: nat): (r: int)
    requires k <= |barems|
    ensures r == -1 || k <= r < |barems|
    decreases |barems| - k
  {
    if k == |barems| then -1
    else if Covers(barems[k], price) then k
    else FirstCover(barems, price, k + 1)
  }

  /** `FirstCover` finds the first covering tier at or after `k`, and -1
      exactly when none covers the price. */
  lemma {:induction false} FirstCoverMeans(barems: seq<Barem>, price: real, k: nat)
    requires k <= |barems|
    ensures FirstCover(barems, price, k) == -1 <==>
      forall j :: k <= j < |barems| ==> !Covers(barems[j], price)
    ensures FirstCover(barems, price, k) >= 0 ==>
      Covers(barems[FirstCover(barems, price, k)], price) &&
      forall j :: k <= j < FirstCover(barems, price, k) ==> !Covers(barems[j], price)
    decreases |barems| - k
  {
    if k < |barems| && !Covers(barems[k], price) {
      FirstCoverMeans(barems, price, k + 1);
    }
  }

  /** What `getCommissionForPrice` answers, with `None` for NaN. */
  function CommissionSpec(barems: seq<Barem>, price: real): Option<real> {
    if barems == [] then Some(DefaultCommission)
    else
      var k := FirstCover(barems, price, 0);
      if k >= 0 then SafeParsePrice(JStr(barems[k].commission))
      else Some(FirstTierCommission(barems[0]))
  }

  /** The commission is 21.5 without tiers, that of the first tier covering
      the price, and otherwise that of tier 1 (21.5 when it is 0 or NaN). */
  lemma CommissionSpecCases(barems: seq<Barem>, price: real)
    ensures barems == [] ==> CommissionSpec(barems, price) == Some(DefaultCommission)
    ensures forall k :: (0 <= k < |barems| && Covers(barems[k], price) &&
                         (forall j :: 0 <= j < k ==> !Covers(barems[j], price))) ==>
      CommissionSpec(barems, price) == SafeParsePrice(JStr(barems[k].commission))
    ensures barems != [] && (forall k :: 0 <= k < |barems| ==> !Covers(barems[k], price)) ==>
      CommissionSpec(barems, price) == Some(FirstTierCommission(barems[0]))
  {
    FirstCoverMeans(barems, price, 0);
  }

  /** `getCommissionForPrice`: the tiers are scanned in order and the first
      covering one answers. */
  method CommissionForPrice(barems: seq<Barem>, price: real) returns (r: Option<real>)
    ensures r == CommissionSpec(barems, price)
  {
    if |barems| == 0 {
      return Some(DefaultCommission);
    }
    var k := 0;
    while k < |barems|
      invariant 0 <= k <= |barems|
      invariant FirstCover(barems, price, k) == FirstCover(barems, price, 0)
    {
      var item := barems[k];
      if item.range.Some? {
        var min := LabelValue(item.range.value.0);
        var max := LabelValue(item.range.value.1);
        if max == 0.0 {
          max := OpenUpperLimit;
        }
        if price >= min && price <= max {
          return SafeParsePrice(JStr(item.commission));
        }
      }
      k := k + 1;
    }
    return Some(FirstTierCommission(barems[0]));
  }

  /** The dashes of an open bound ("---") read as 0. */
  lemma DashReadsZero(s: string)
    requires s != [] && forall i :: 0 <= i < |s| ==> s[i] == '-'
    ensures SafeParsePrice(JStr(s)) == Some(LabelValue(Dash))
  {
    assert '₺' !in s && ',' !in s && '.' !in s;
    ReplaceFirstAbsent(s, '₺', "");
    TrimNoSpaces(s);
    assert PriceText(s) == s;
    ParseFloatNoDigit(s);
  }

  // ---------------------------------------------------------------------
  // Card status

  datatype Color = Zinc | Rose | Amber | Emerald

  function ColorRank(c: Color): nat {
    match c
    case Zinc => 0
    case Rose => 1
    case Amber => 2
    case Emerald => 3
  }

  /** The card colour of a margin (in percent). */
  function StatusColor(margin: real): (c: Color)
    ensures c == Zinc <==> margin < 0.0
    ensures c == Rose <==> 0.0 <= margin < 10.0
    ensures c == Amber <==> 10.0 <= margin < 20.0
    ensures c == Emerald <==> margin >= 20.0
  {
    if margin < 0.0 then Zinc
    else if margin < 10.0 then Rose
    else if margin < 20.0 then Amber
    else Emerald
  }

  /** A higher margin never gets a worse colour. */
  lemma StatusColorMonotone(m1: real, m2: real)
    requires m1 <= m2
    ensures ColorRank(StatusColor(m1)) <= ColorRank(StatusColor(m2))
  {
  }

  /** The target margin: 0.15 only when none is set (`?? 0.15`). */
  function TargetMargin(target: Option<real>): real {
    target.GetOr(0.15)
  }

  /** `isPassing`: the margin (in percent) reaches the target (a fraction). */
  predicate IsPassing(margin: real, target: Option<real>) {
    margin / 100.0 >= TargetMargin(target)
  }

  /** Without a target a card passes from a 15% margin; a target of 0 is kept,
      so then it passes from 0%. */
  lemma IsPassingDefault(margin: real)
    ensures IsPassing(margin, None) <==> margin >= 15.0
    ensures IsPassing(margin, Some(0.0)) <==> margin >= 0.0
  {
  }

  lemma IsPassingMonotone(m1: real, m2: real, target: Option<real>)
    requires m1 <= m2 && IsPassing(m1, target)
    ensures IsPassing(m2, target)
  {
  }

  // ---------------------------------------------------------------------
  // allAnalyticProducts

  datatype Product = Product(
    id: string, name: string, barcode: string, stock: int, cost: real,
    costVatRate: Option<real>, shipping: real, desi: Option<real>, notFound: bool,
    targetProfitMargin: Option<real>)

  /** The three uploaded sheets; a sheet that was not uploaded is empty. */
  datatype ExcelData = ExcelData(commission: seq<Row>, advantage: seq<Row>, plus: seq<Row>)

  /** `String(r.Barkod || r.BARKOD)` */
  function RowBarcode(r: Row): string {
    JsString(if Truthy(Get(r, "Barkod")) then Get(r, "Barkod") else Get(r, "BARKOD"))
  }

  function SheetBarcodes(rows: seq<Row>): (r: seq<string>)
    ensures |r| == |rows| && forall i :: 0 <= i < |rows| ==> r[i] == RowBarcode(rows[i])
  {
    if rows == [] then [] else [RowBarcode(rows[0])] + SheetBarcodes(rows[1..])
  }

  /** The distinct non-empty barcodes of the sheets, in first-seen order over
      commission, then advantage, then plus rows. */
  function ExcelBarcodes(excel: Option<ExcelData>): (r: seq<string>)
    ensures Distinct(r)
    ensures forall i :: 0 <= i < |r| ==> r[i] != []
  {
    match excel
    case None => []
    case Some(x) =>
      var all := SheetBarcodes(x.commission) + SheetBarcodes(x.advantage) + SheetBarcodes(x.plus);
      Dedup(Filter(all, (s: string) => s != []))
  }

  /** The position of the last product with the barcode, or -1. */
  function LastBarcodeIndex(products: seq<Product>, bc: string): (k: int)
    ensures -1 <= k < |products|
    ensures k >= 0 ==> products[k].barcode == bc
    ensures forall j :: k < j < |products| ==> products[j].barcode != bc
  {
    if products == [] then -1
    else if products[|products| - 1].barcode == bc then |products| - 1
    else LastBarcodeIndex(products[..|products| - 1], bc)
  }

  /** The product a barcode maps to; the last one wins, as with `new Map`. */
  function LastWithBarcode(products: seq<Product>, bc: string): (r: Option<Product>)
    ensures r.Some? ==> r.value in products && r.value.barcode == bc
    ensures r.Some? ==> exists i :: 0 <= i < |products| && products[i] == r.value &&
                                    forall j :: i < j < |products| ==> products[j].barcode != bc
    ensures r.None? ==> forall i :: 0 <= i < |products| ==> products[i].barcode != bc
  {
    var k := LastBarcodeIndex(products, bc);
    if k < 0 then None else Some(products[k])
  }

  /** The placeholder for a spreadsheet barcode without product settings. */
  function GhostProduct(bc: string): (p: Product)
    ensures p.barcode == bc && p.notFound && p.cost == 0.0 && p.shipping == 93.05
  {
    Product("ghost-" + bc, "Ürün Ayarları Bulunamadı", bc, 0, 0.0, Some(10.0), 93.05, Some(0.0), true, None)
  }

  function ProductFor(products: seq<Product>, bc: string): (p: Product)
    ensures p.barcode == bc
  {
    match LastWithBarcode(products, bc)
    case Some(p) => p
    case None => GhostProduct(bc)
  }

  /** `allAnalyticProducts`: the products unchanged when the sheets hold no
      barcode; otherwise one product (or ghost) per spreadsheet barcode in
      first-seen order, followed by the other products in their order. */
  function AllAnalyticProducts(products: seq<Product>, excel: Option<ExcelData>): (r: seq<Product>)
    ensures ExcelBarcodes(excel) == [] ==> r == products
    ensures var bcs := ExcelBarcodes(excel);
      bcs != [] ==>
        |r| >= |bcs| &&
        (forall k :: 0 <= k < |bcs| ==> r[k].barcode == bcs[k]) &&
        r[|bcs|..] == Filter(products, (p: Product) => p.barcode !in bcs)
  {
    var bcs := ExcelBarcodes(excel);
    if bcs == [] then products
    else
      var combined := seq(|bcs|, k requires 0 <= k < |bcs| => ProductFor(products, bcs[k]));
      combined + Filter(products, (p: Product) => p.barcode !in bcs)
  }

  /** A spreadsheet barcode with product settings shows that product, one
      without shows a ghost. */
  lemma AllAnalyticGhosts(products: seq<Product>, excel: Option<ExcelData>, k: nat)
    requires k < |ExcelBarcodes(excel)|
    ensures var bc := ExcelBarcodes(excel)[k];
      var r := AllAnalyticProducts(products, excel);
      ((exists i :: 0 <= i < |products| && products[i].barcode == bc) ==> r[k] in products) &&
      ((forall i :: 0 <= i < |products| ==> products[i].barcode != bc) ==> r[k] == GhostProduct(bc))
  {
    var bcs := ExcelBarcodes(excel);
    var bc := bcs[k];
    assert AllAnalyticProducts(products, excel)[k] == ProductFor(products, bc);
    if exists i :: 0 <= i < |products| && products[i].barcode == bc {
      assert LastWithBarcode(products, bc).Some?;
    }
  }

  /** Every product keeps a place in the list: its barcode appears. */
  lemma AllAnalyticCovers(products: seq<Product>, excel: Option<ExcelData>, i: nat)
    requires i < |products|
    ensures exists k :: (0 <= k < |AllAnalyticProducts(products, excel)| &&
      AllAnalyticProducts(products, excel)[k].barcode == products[i].barcode)
  {
    var bcs := ExcelBarcodes(excel);
    var r := AllAnalyticProducts(products, excel);
    if bcs == [] {
      assert r[i].barcode == products[i].barcode;
    } else {
      var p := products[i];
      if p.barcode in bcs {
        var k :| 0 <= k < |bcs| && bcs[k] == p.barcode;
        assert r[k].barcode == p.barcode;
      } else {
        var others := Filter(products, (q: Product) => q.barcode !in bcs);
        assert p in others;
        var j :| 0 <= j < |others| && others[j] == p;
        assert r[|bcs| + j] == others[j];
      }
    }
  }

  // ---------------------------------------------------------------------
  // handleSelect

  datatype SelectionKind = BaremChoice | AdvantageChoice | PlusChoice
  datatype Selection = Selection(kind: SelectionKind, index: int, price: string, commission: string)

  /** `handleSelect`: choosing the current choice of a barcode again removes
      it; any other choice replaces it; other barcodes are untouched. */
  function HandleSelect(prev: map<string, Selection>, barcode: string, kind: SelectionKind, index: int)
    : (r: map<string, Selection>)
    ensures barcode in prev && prev[barcode].kind == kind && prev[barcode].index == index ==>
      barcode !in r
    ensures !(barcode in prev && prev[barcode].kind == kind && prev[barcode].index == index) ==>
      barcode in r && r[barcode] == Selection(kind, index, "Seçildi", "")
    ensures forall b :: b != barcode ==> (b in r <==> b in prev)
    ensures forall b :: b != barcode && b in prev ==> r[b] == prev[b]
  {
    if barcode in prev && prev[barcode].kind == kind && prev[barcode].index == index then
      prev - {barcode}
    else
      prev[barcode := Selection(kind, index, "Seçildi", "")]
  }

  /** Selecting a choice twice for an unselected barcode restores the
      selection. */
  lemma HandleSelectTwice(prev: map<string, Selection>, barcode: string, kind: SelectionKind, index: int)
    requires barcode !in prev
    ensures HandleSelect(HandleSelect(prev, barcode, kind, index), barcode, kind, index) == prev
  {
    var once := HandleSelect(prev, barcode, kind, index);
    var twice := HandleSelect(once, barcode, kind, index);
    assert twice.Keys == prev.Keys;
  }
}
