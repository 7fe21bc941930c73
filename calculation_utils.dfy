/** The shared pricing arithmetic of the dashboard: the desi-to-shipping
    table, the VAT-inclusive cash-flow profit of a Trendyol sale, its inverse
    (the sale price that reaches a target profit or margin), and the lenient
    price parser that reads Turkish and English number formats. */
module CalculationUtils {
  import opened Wrappers
  import opened Text
  import opened JsNumbers

  /** VAT-inclusive shipping price for desi 0..60, written ten desi per row. */
  const Desi0to9: seq<real> := [93.05, 93.05, 93.05, 112.36, 121.75, 129.58, 141.96, 150.79, 161.05, 170.90]
  const Desi10to19: seq<real> := [184.16, 194.56, 204.40, 213.65, 222.20, 231.37, 240.98, 251.64, 262.32, 272.95]
  const Desi20to29: seq<real> := [283.45, 293.98, 305.78, 317.96, 329.23, 340.43, 351.28, 362.12, 373.01, 383.87]
  const Desi30to39: seq<real> := [394.66, 473.27, 485.75, 498.25, 510.73, 523.25, 535.72, 548.23, 560.75, 573.23]
  const Desi40to49: seq<real> := [587.24, 599.76, 612.31, 624.82, 637.36, 649.91, 662.42, 674.96, 687.47, 700.02]
  const Desi50to59: seq<real> := [712.56, 725.08, 737.62, 750.13, 762.67, 775.21, 787.74, 800.28, 812.78, 825.32]
  const Desi60: seq<real> := [837.88]
  const TexVatInclusiveRates: seq<real> :=
    Desi0to9 + Desi10to19 + Desi20to29 + Desi30to39 + Desi40to49 + Desi50to59 + Desi60

  /** `Math.round`: halves round towards positive infinity. */
  function RoundHalfUp(x: real): (r: int)
    ensures r as real <= x + 0.5 < r as real + 1.0
  {
    (x + 0.5).Floor
  }

  lemma RoundHalfUpMonotone(x: real, y: real)
    requires x <= y
    ensures RoundHalfUp(x) <= RoundHalfUp(y)
  {
  }

  predicate Steps(s: seq<real>) {
    forall i :: 0 <= i < |s| - 1 ==> s[i] <= s[i + 1]
  }

  lemma StepsAppend(a: seq<real>, b: seq<real>)
    requires Steps(a) && Steps(b) && a != [] && b != [] && a[|a| - 1] <= b[0]
    ensures Steps(a + b) && (a + b)[|a + b| - 1] == b[|b| - 1]
  {
    var ab := a + b;
    forall i | 0 <= i < |ab| - 1 ensures ab[i] <= ab[i + 1] {
      if i < |a| - 1 {
        assert ab[i] == a[i] && ab[i + 1] == a[i + 1];
      } else if i == |a| - 1 {
        assert ab[i] == a[|a| - 1] && ab[i + 1] == b[0];
      } else {
        assert ab[i] == b[i - |a|] && ab[i + 1] == b[i + 1 - |a|];
      }
    }
  }

  lemma RowSteps()
    ensures Steps(Desi0to9) && Steps(Desi10to19) && Steps(Desi20to29) && Steps(Desi30to39)
    ensures Steps(Desi40to49) && Steps(Desi50to59) && Steps(Desi60)
  {
  }

  /** Every step of the table is non-decreasing. */
  lemma TableSteps()
    ensures |TexVatInclusiveRates| == 61
    ensures Steps(TexVatInclusiveRates)
  {
    RowSteps();
    var t1 := Desi0to9 + Desi10to19;
    StepsAppend(Desi0to9, Desi10to19);
    var t2 := t1 + Desi20to29;
    StepsAppend(t1, Desi20to29);
    var t3 := t2 + Desi30to39;
    StepsAppend(t2, Desi30to39);
    var t4 := t3 + Desi40to49;
    StepsAppend(t3, Desi40to49);
    var t5 := t4 + Desi50to59;
    StepsAppend(t4, Desi50to59);
    StepsAppend(t5, Desi60);
    assert TexVatInclusiveRates == t5 + Desi60;
  }

  lemma {:induction false} TableNondecreasing(i: int, j: int)
    requires 0 <= i <= j <= 60
    ensures TexVatInclusiveRates[i] <= TexVatInclusiveRates[j]
    decreases j - i
  {
    TableSteps();
    if i < j {
      TableNondecreasing(i, j - 1);
    }
  }

  /** `getShippingRate(desi)`: the table entry of the rounded desi; above the
      table the last entry, below it the first. */
  function ShippingRate(desi: real): (r: real)
    ensures 0 <= RoundHalfUp(desi) <= 60 ==> r == TexVatInclusiveRates[RoundHalfUp(desi)]
    ensures RoundHalfUp(desi) > 60 ==> r == 837.88
    ensures RoundHalfUp(desi) < 0 ==> r == 93.05
  {
    var d := RoundHalfUp(desi);
    assert 0 <= d <= 60 ==> TexVatInclusiveRates[d] >= 93.05 by {
      if 0 <= d <= 60 {
        TableNondecreasing(0, d);
      }
    }
    if 0 <= d <= 60 && TexVatInclusiveRates[d] != 0.0 then TexVatInclusiveRates[d]
    else if d > 60 then TexVatInclusiveRates[60]
    else TexVatInclusiveRates[0]
  }

  lemma ShippingRateBounds(desi: real)
    ensures 93.05 <= ShippingRate(desi) <= 837.88
  {
    var d := RoundHalfUp(desi);
    if 0 <= d <= 60 {
      TableNondecreasing(0, d);
      TableNondecreasing(d, 60);
    }
  }

  lemma ShippingRateMonotone(desi1: real, desi2: real)
    requires desi1 <= desi2
    ensures ShippingRate(desi1) <= ShippingRate(desi2)
  {
    var d1, d2 := RoundHalfUp(desi1), RoundHalfUp(desi2);
    RoundHalfUpMonotone(desi1, desi2);
    ShippingRateBounds(desi1);
    ShippingRateBounds(desi2);
    if 0 <= d1 && d2 <= 60 {
      TableNondecreasing(d1, d2);
    }
  }

  // ---------------------------------------------------------------------
  // Cash-flow profit

  const PlatformServiceFee: real := 13.19
  const IntlServiceFee: real := 47.71
  const StopajRatio: real := 0.01
  /** Shipping, commission and service fees always carry 20% VAT. */
  const ServiceVatFactor: real := 1.20

  datatype Breakdown = Breakdown(
    saleExcl: real, costExcl: real, shippingExcl: real, commExcl: real, feesExcl: real,
    stopajAmount: real, saleVat: real, costVat: real, shippingVat: real, commVat: real,
    netVat: real)

  datatype CalculationResult = CalculationResult(
    salePrice: real, netProfit: real, roi: real, margin: real,
    commissionAmount: real, shippingAmount: real, netVat: real, breakdown: Breakdown)

  /** The VAT-inclusive service fee of one sale. */
  function ServiceFee(isMicroExport: bool): (r: real)
    ensures r == if isMicroExport then 60.90 else 13.19
  {
    PlatformServiceFee + (if isMicroExport then IntlServiceFee else 0.0)
  }

  function VatFactor(rate: real): real {
    1.0 + rate / 100.0
  }

  /** The VAT-exclusive part of a VAT-inclusive amount. */
  function Excl(amount: real, factor: real): (r: real)
    requires factor != 0.0
    ensures r * factor == amount
  {
    amount / factor
  }

  /** `x / y * 100`, guarded the way the source guards it. */
  function Percent(x: real, y: real): (r: real)
    ensures y > 0.0 ==> r * y == x * 100.0
    ensures y <= 0.0 ==> r == 0.0
  {
    if y > 0.0 then x / y * 100.0 else 0.0
  }

  /** `calculateTrendyolProfit`: every amount is VAT-inclusive; only the 1%
      withholding (stopaj) is taken on the VAT-exclusive sale. */
  function TrendyolProfit(salePrice: real, cost: real, shipping: real, commissionRate: real,
                          costVatRate: real, saleVatRate: real, isMicroExport: bool): (r: CalculationResult)
    requires VatFactor(costVatRate) != 0.0 && VatFactor(saleVatRate) != 0.0
    ensures r.salePrice == salePrice && r.shippingAmount == shipping
    ensures r.commissionAmount * 100.0 == salePrice * commissionRate
    ensures r.breakdown.saleExcl * VatFactor(saleVatRate) == salePrice
    ensures r.breakdown.stopajAmount == StopajRatio * r.breakdown.saleExcl
    ensures r.netProfit == salePrice - cost - r.commissionAmount - shipping
                           - ServiceFee(isMicroExport) - r.breakdown.stopajAmount
    ensures salePrice > 0.0 ==> r.margin * salePrice == r.netProfit * 100.0
    ensures salePrice <= 0.0 ==> r.margin == 0.0
    ensures cost > 0.0 ==> r.roi * cost == r.netProfit * 100.0
    ensures cost <= 0.0 ==> r.roi == 0.0
  {
    var commAmount := salePrice * (commissionRate / 100.0);
    var totalServiceFee := ServiceFee(isMicroExport);
    var saleExcl := Excl(salePrice, VatFactor(saleVatRate));
    var stopajAmount := saleExcl * StopajRatio;
    var netProfit := salePrice - cost - commAmount - shipping - totalServiceFee - stopajAmount;
    var costExcl := Excl(cost, VatFactor(costVatRate));
    var shippingExcl := Excl(shipping, ServiceVatFactor);
    var commExcl := Excl(commAmount, ServiceVatFactor);
    var feesExcl := Excl(totalServiceFee, ServiceVatFactor);
    var saleVat := salePrice - saleExcl;
    var costVat := cost - costExcl;
    var shippingVat := shipping - shippingExcl;
    var commVat := commAmount - commExcl;
    var feeVat := totalServiceFee - feesExcl;
    var netVat := saleVat - (costVat + shippingVat + commVat + feeVat);
    CalculationResult(
      salePrice, netProfit, Percent(netProfit, cost), Percent(netProfit, salePrice),
      commAmount, shipping, netVat,
      Breakdown(saleExcl, costExcl, shippingExcl, commExcl, feesExcl, stopajAmount,
                saleVat, costVat, shippingVat, commVat, netVat))
  }

  /** The VAT breakdown of `calculateTrendyolProfit`: each amount splits into
      its VAT-exclusive part and its VAT, and the net VAT is the sale's VAT
      less the VAT of the costs. */
  lemma TrendyolProfitBreakdown(salePrice: real, cost: real, shipping: real, commissionRate: real,
                                costVatRate: real, saleVatRate: real, isMicroExport: bool)
    requires VatFactor(costVatRate) != 0.0 && VatFactor(saleVatRate) != 0.0
    ensures var r := TrendyolProfit(salePrice, cost, shipping, commissionRate, costVatRate, saleVatRate, isMicroExport);
      r.breakdown.costExcl * VatFactor(costVatRate) == cost &&
      r.breakdown.shippingExcl * ServiceVatFactor == shipping &&
      r.breakdown.commExcl * ServiceVatFactor == r.commissionAmount &&
      r.breakdown.feesExcl * ServiceVatFactor == ServiceFee(isMicroExport) &&
      r.breakdown.saleVat + r.breakdown.saleExcl == salePrice &&
      r.breakdown.costVat + r.breakdown.costExcl == cost &&
      r.breakdown.shippingVat + r.breakdown.shippingExcl == shipping &&
      r.breakdown.commVat + r.breakdown.commExcl == r.commissionAmount &&
      r.netVat == r.breakdown.netVat &&
      r.netVat == r.breakdown.saleVat - (r.breakdown.costVat + r.breakdown.shippingVat
                  + r.breakdown.commVat + (ServiceFee(isMicroExport) - r.breakdown.feesExcl))
  {
  }

  // ---------------------------------------------------------------------
  // Inverse: sale price from a target

  datatype TargetMode = Amount | Rate

  /** The share of the sale price left after commission and withholding. */
  function SalePriceFactor(commissionRate: real, saleVatRate: real): real
    requires VatFactor(saleVatRate) != 0.0
  {
    1.0 - commissionRate / 100.0 - StopajRatio / VatFactor(saleVatRate)
  }

  function FixedCosts(cost: real, shipping: real, isMicroExport: bool): real {
    cost + shipping + ServiceFee(isMicroExport)
  }

  /** The profit is linear in the sale price: factor times price, less the fixed costs. */
  lemma NetProfitLinear(salePrice: real, cost: real, shipping: real, commissionRate: real,
                        costVatRate: real, saleVatRate: real, isMicroExport: bool)
    requires VatFactor(costVatRate) != 0.0 && VatFactor(saleVatRate) != 0.0
    ensures TrendyolProfit(salePrice, cost, shipping, commissionRate, costVatRate, saleVatRate, isMicroExport).netProfit
            == salePrice * SalePriceFactor(commissionRate, saleVatRate) - FixedCosts(cost, shipping, isMicroExport)
  {
    var f := VatFactor(saleVatRate);
    assert salePrice / f * StopajRatio == salePrice * (StopajRatio / f);
  }

  /** The sale price `calculatePriceFromTarget` settles on; 0 when no
      positive price reaches the target. */
  function SalePriceForTarget(target: real, mode: TargetMode, cost: real, shipping: real,
                              commissionRate: real, saleVatRate: real, isMicroExport: bool): real
    requires VatFactor(saleVatRate) != 0.0
  {
    var factor := SalePriceFactor(commissionRate, saleVatRate);
    var fixed := FixedCosts(cost, shipping, isMicroExport);
    match mode
    case Amount => if factor > 0.0 then (target + fixed) / factor else 0.0
    case Rate =>
      var denominator := factor - target / 100.0;
      if denominator > 0.0 then fixed / denominator else 0.0
  }

  /** `calculatePriceFromTarget` */
  function PriceFromTarget(target: real, mode: TargetMode, cost: real, shipping: real, commissionRate: real,
                           costVatRate: real, saleVatRate: real, isMicroExport: bool): (r: CalculationResult)
    requires VatFactor(costVatRate) != 0.0 && VatFactor(saleVatRate) != 0.0
    ensures mode == Amount && SalePriceFactor(commissionRate, saleVatRate) <= 0.0 ==> r.salePrice == 0.0
    ensures mode == Rate && SalePriceFactor(commissionRate, saleVatRate) - target / 100.0 <= 0.0 ==> r.salePrice == 0.0
  {
    var sale := SalePriceForTarget(target, mode, cost, shipping, commissionRate, saleVatRate, isMicroExport);
    TrendyolProfit(sale, cost, shipping, commissionRate, costVatRate, saleVatRate, isMicroExport)
  }

  /** In amount mode the computed price earns exactly the target profit. */
  lemma PriceFromTargetAmount(target: real, cost: real, shipping: real, commissionRate: real,
                              costVatRate: real, saleVatRate: real, isMicroExport: bool)
    requires VatFactor(costVatRate) != 0.0 && VatFactor(saleVatRate) != 0.0
    requires SalePriceFactor(commissionRate, saleVatRate) > 0.0
    ensures PriceFromTarget(target, Amount, cost, shipping, commissionRate, costVatRate, saleVatRate, isMicroExport).netProfit == target
  {
    var sale := SalePriceForTarget(target, Amount, cost, shipping, commissionRate, saleVatRate, isMicroExport);
    var factor := SalePriceFactor(commissionRate, saleVatRate);
    var fixed := FixedCosts(cost, shipping, isMicroExport);
    NetProfitLinear(sale, cost, shipping, commissionRate, costVatRate, saleVatRate, isMicroExport);
    assert sale * factor == target + fixed;
  }

  /** The margin algebra of rate mode, on plain numbers. */
  lemma RateModeMargin(sale: real, factor: real, fixed: real, target: real, profit: real, margin: real)
    requires sale > 0.0 && sale * (factor - target / 100.0) == fixed
    requires profit == sale * factor - fixed
    requires margin * sale == profit * 100.0
    ensures margin == target
  {
    assert profit == sale * (target / 100.0);
    assert margin * sale == target * sale;
  }

  /** In rate mode with a positive denominator and positive fixed costs the
      price is positive and solves the margin equation. */
  lemma RateModeSale(target: real, cost: real, shipping: real, commissionRate: real,
                     saleVatRate: real, isMicroExport: bool)
    requires VatFactor(saleVatRate) != 0.0
    requires SalePriceFactor(commissionRate, saleVatRate) - target / 100.0 > 0.0
    requires FixedCosts(cost, shipping, isMicroExport) > 0.0
    ensures var sale := SalePriceForTarget(target, Rate, cost, shipping, commissionRate, saleVatRate, isMicroExport);
      sale > 0.0 &&
      sale * (SalePriceFactor(commissionRate, saleVatRate) - target / 100.0) == FixedCosts(cost, shipping, isMicroExport)
  {
    var denominator := SalePriceFactor(commissionRate, saleVatRate) - target / 100.0;
    var fixed := FixedCosts(cost, shipping, isMicroExport);
    assert SalePriceForTarget(target, Rate, cost, shipping, commissionRate, saleVatRate, isMicroExport) == Excl(fixed, denominator);
  }

  /** In rate mode, when a positive price exists, it has exactly the target margin. */
  lemma PriceFromTargetRate(target: real, cost: real, shipping: real, commissionRate: real,
                            costVatRate: real, saleVatRate: real, isMicroExport: bool)
    requires VatFactor(costVatRate) != 0.0 && VatFactor(saleVatRate) != 0.0
    requires SalePriceFactor(commissionRate, saleVatRate) - target / 100.0 > 0.0
    requires FixedCosts(cost, shipping, isMicroExport) > 0.0
    ensures PriceFromTarget(target, Rate, cost, shipping, commissionRate, costVatRate, saleVatRate, isMicroExport).salePrice > 0.0
    ensures PriceFromTarget(target, Rate, cost, shipping, commissionRate, costVatRate, saleVatRate, isMicroExport).margin == target
  {
    var sale := SalePriceForTarget(target, Rate, cost, shipping, commissionRate, saleVatRate, isMicroExport);
    RateModeSale(target, cost, shipping, commissionRate, saleVatRate, isMicroExport);
    NetProfitLinear(sale, cost, shipping, commissionRate, costVatRate, saleVatRate, isMicroExport);
    var r := PriceFromTarget(target, Rate, cost, shipping, commissionRate, costVatRate, saleVatRate, isMicroExport);
    RateModeMargin(sale, SalePriceFactor(commissionRate, saleVatRate), FixedCosts(cost, shipping, isMicroExport),
                   target, r.netProfit, r.margin);
  }

  // ---------------------------------------------------------------------
  // Lenient price parsing

  /** The text a string price is read from: one '₺' removed, then trimmed. */
  function PriceText(raw: string): string {
    Trim(ReplaceFirst(raw, '₺', ""))
  }

  /** `safeParsePrice` on a non-empty cleaned text. */
  function ParsePriceText(str: string): (r: Option<real>)
    ensures ',' !in str && '.' !in str ==> r.Some?
  {
    var hasComma := ',' in str;
    var hasDot := '.' in str;
    if hasComma && hasDot then
      if LastIndexOf(str, ',') > LastIndexOf(str, '.') then
        ParseFloat(ReplaceFirst(RemoveAll(str, '.'), ',', "."))
      else
        ParseFloat(RemoveAll(str, ','))
    else if hasComma then ParseFloat(ReplaceFirst(str, ',', "."))
    else if hasDot then
      var parts := Split(str, '.');
      if |parts| == 2 && |parts[1]| == 3 then ParseFloat(RemoveAll(str, '.')) else ParseFloat(str)
    else Some(ParseFloat(str).GetOr(0.0))
  }

  /** `safeParsePrice(val)`; `None` is NaN. */
  function SafeParsePrice(val: JsValue): (r: Option<real>)
    ensures val == JNull || val == JUndefined || val == JStr("") ==> r == Some(0.0)
    ensures val.JNum? ==> r == Some(val.n)
    ensures val.JStr? && PriceText(val.s) == [] ==> r == Some(0.0)
    ensures r.None? ==> val.JStr? && (',' in PriceText(val.s) || '.' in PriceText(val.s))
  {
    match val
    case JNull => Some(0.0)
    case JUndefined => Some(0.0)
    case JNum(n) => Some(n)
    case JStr(raw) =>
      if raw == [] then Some(0.0)
      else
        var str := PriceText(raw);
        if str == [] then Some(0.0) else ParsePriceText(str)
  }

  /** Digits and separators need no cleaning. */
  lemma PriceTextPlain(s: string)
    requires s != [] && IsDigit(s[0])
    requires s[|s| - 1] == ',' || s[|s| - 1] == '.' || IsDigit(s[|s| - 1])
    requires '₺' !in s
    ensures PriceText(s) == s
  {
    ReplaceFirstAbsent(s, '₺', "");
    TrimNoSpaces(s);
  }

  lemma NoSeparators(d: string)
    requires AllDigits(d)
    ensures ',' !in d && '.' !in d && '₺' !in d
  {
    assert !IsDigit(',') && !IsDigit('.') && !IsDigit('₺');
  }

  /** Regrouping `a x b y c` around the first and the second separator. */
  lemma Regroup(a: string, x: string, b: string, y: string, c: string)
    ensures a + x + b + y + c == a + x + (b + y + c)
    ensures a + (b + y + c) == (a + b) + y + c
  {
  }

  lemma AbsentFromThree(ch: char, b: string, y: string, c: string)
    requires ch !in b && ch !in y && ch !in c
    ensures ch !in b + y + c
  {
  }

  /** In `a x b y c` with separator-free parts, the last `x` sits right after `a`. */
  lemma LastFirstSeparator(a: string, x: char, b: string, y: char, c: string)
    requires x !in b && x !in c && x != y
    ensures LastIndexOf(a + [x] + b + [y] + c, x) == |a|
  {
    AbsentFromThree(x, b, [y], c);
    Regroup(a, [x], b, [y], c);
    LastIndexOfSplit(a, x, b + [y] + c);
  }

  /** In `a x b y c` with separator-free parts, the last `y` sits right after `a x b`. */
  lemma LastSecondSeparator(a: string, x: char, b: string, y: char, c: string)
    requires y !in c
    ensures LastIndexOf(a + [x] + b + [y] + c, y) == |a| + 1 + |b|
  {
    LastIndexOfSplit(a + [x] + b, y, c);
  }

  /** Dropping the first separator of `a x b y c` leaves `(a b) y c`. */
  lemma DropFirstSeparator(a: string, x: char, b: string, y: char, c: string)
    requires x !in a && x !in b && x !in c && x != y
    ensures RemoveAll(a + [x] + b + [y] + c, x) == (a + b) + [y] + c
  {
    AbsentFromThree(x, b, [y], c);
    Regroup(a, [x], b, [y], c);
    RemoveAllSep(a, x, b + [y] + c);
  }

  lemma HasBothSeparators(a: string, x: char, b: string, y: char, c: string)
    ensures x in a + [x] + b + [y] + c && y in a + [x] + b + [y] + c
  {
    var s := a + [x] + b + [y] + c;
    assert s[|a|] == x && s[|a| + 1 + |b|] == y;
  }

  /** The general shape `a x b y c` in which the second separator is the
      decimal point after `RemoveAll(x)` and `ReplaceFirst(y, ".")`. */
  lemma ParseTwoSeparators(a: string, x: char, b: string, y: char, c: string)
    requires AllDigits(a) && AllDigits(b) && AllDigits(c) && a != []
    requires x in ",." && y in ",." && x != y
    ensures AllDigits(a + b)
    ensures ParsePriceText(a + [x] + b + [y] + c) ==
      (if y == ',' then ParseFloat(ReplaceFirst(RemoveAll(a + [x] + b + [y] + c, '.'), ',', "."))
       else ParseFloat(RemoveAll(a + [x] + b + [y] + c, ',')))
  {
    AllDigitsAppend(a, b);
    NoSeparators(b); NoSeparators(c);
    HasBothSeparators(a, x, b, y, c);
    LastFirstSeparator(a, x, b, y, c);
    LastSecondSeparator(a, x, b, y, c);
  }

  /** Turkish format `1.000,29`: the dots group thousands, the comma is the decimal point. */
  lemma SafeParseTurkish(ip1: string, ip2: string, fp: string)
    requires AllDigits(ip1) && AllDigits(ip2) && AllDigits(fp) && ip1 != []
    ensures AllDigits(ip1 + ip2)
    ensures SafeParsePrice(JStr(ip1 + "." + ip2 + "," + fp)) == Some(DecimalValue(ip1 + ip2, fp))
  {
    var s := ip1 + "." + ip2 + "," + fp;
    NoSeparators(ip1); NoSeparators(ip2); NoSeparators(fp);
    PlainText(ip1, '.', ip2, ',', fp);
    ParseTwoSeparators(ip1, '.', ip2, ',', fp);
    DropFirstSeparator(ip1, '.', ip2, ',', fp);
    ReplaceFirstSplit(ip1 + ip2, ',', ".", fp);
    ParseFloatDecimal(ip1 + ip2, fp);
  }

  /** English format `1,000.29`: the commas group thousands. */
  lemma SafeParseEnglish(ip1: string, ip2: string, fp: string)
    requires AllDigits(ip1) && AllDigits(ip2) && AllDigits(fp) && ip1 != []
    ensures AllDigits(ip1 + ip2)
    ensures SafeParsePrice(JStr(ip1 + "," + ip2 + "." + fp)) == Some(DecimalValue(ip1 + ip2, fp))
  {
    NoSeparators(ip1); NoSeparators(ip2); NoSeparators(fp);
    PlainText(ip1, ',', ip2, '.', fp);
    ParseTwoSeparators(ip1, ',', ip2, '.', fp);
    DropFirstSeparator(ip1, ',', ip2, '.', fp);
    ParseFloatDecimal(ip1 + ip2, fp);
  }

  /** A string of digits and separators that starts with a digit is read as it is. */
  lemma PlainText(a: string, x: char, b: string, y: char, c: string)
    requires AllDigits(a) && AllDigits(b) && AllDigits(c) && a != [] && x in ",." && y in ",."
    ensures PriceText(a + [x] + b + [y] + c) == a + [x] + b + [y] + c
  {
    var s := a + [x] + b + [y] + c;
    NoSeparators(a); NoSeparators(b); NoSeparators(c);
    assert s[0] == a[0];
    assert s[|s| - 1] == if c == [] then y else c[|c| - 1];
    PriceTextPlain(s);
  }

  /** A single separator between digit strings needs no cleaning either. */
  lemma PlainText1(a: string, x: char, c: string)
    requires AllDigits(a) && AllDigits(c) && a != [] && x in ",."
    ensures PriceText(a + [x] + c) == a + [x] + c
    ensures x in a + [x] + c
  {
    var s := a + [x] + c;
    NoSeparators(a); NoSeparators(c);
    assert s[0] == a[0] && s[|a|] == x;
    assert s[|s| - 1] == if c == [] then x else c[|c| - 1];
    PriceTextPlain(s);
  }

  /** A lone comma is the decimal point: `1000,29`. */
  lemma SafeParseComma(ip: string, fp: string)
    requires AllDigits(ip) && AllDigits(fp) && ip != []
    ensures SafeParsePrice(JStr(ip + "," + fp)) == Some(DecimalValue(ip, fp))
  {
    NoSeparators(ip); NoSeparators(fp);
    PlainText1(ip, ',', fp);
    assert '.' !in ip + "," + fp;
    ReplaceFirstSplit(ip, ',', ".", fp);
    ParseFloatDecimal(ip, fp);
  }

  /** With a lone dot, the text splits into the parts around it. */
  lemma DotOnlyText(ip: string, fp: string)
    requires AllDigits(ip) && AllDigits(fp) && ip != []
    ensures PriceText(ip + "." + fp) == ip + "." + fp
    ensures ParsePriceText(ip + "." + fp) ==
      if |fp| == 3 then ParseFloat(ip + fp) else ParseFloat(ip + "." + fp)
  {
    NoSeparators(ip); NoSeparators(fp);
    PlainText1(ip, '.', fp);
    assert ',' !in ip + "." + fp;
    SplitOnce(ip, '.', fp);
    RemoveAllSep(ip, '.', fp);
  }

  /** A lone dot followed by exactly three digits groups thousands: `1.060`. */
  lemma SafeParseDotThousands(ip: string, fp: string)
    requires AllDigits(ip) && AllDigits(fp) && ip != [] && |fp| == 3
    ensures AllDigits(ip + fp)
    ensures SafeParsePrice(JStr(ip + "." + fp)) == Some(DigitsValue(ip + fp) as real)
  {
    AllDigitsAppend(ip, fp);
    DotOnlyText(ip, fp);
    ParseFloatDigits(ip + fp);
  }

  /** A lone dot followed by any other number of digits is the decimal point: `1060.29`. */
  lemma SafeParseDotDecimal(ip: string, fp: string)
    requires AllDigits(ip) && AllDigits(fp) && ip != [] && |fp| != 3
    ensures SafeParsePrice(JStr(ip + "." + fp)) == Some(DecimalValue(ip, fp))
  {
    DotOnlyText(ip, fp);
    ParseFloatDecimal(ip, fp);
  }

  /** Plain digits read as their value: `1060`. */
  lemma SafeParseDigits(d: string)
    requires AllDigits(d) && d != []
    ensures SafeParsePrice(JStr(d)) == Some(DigitsValue(d) as real)
  {
    NoSeparators(d);
    PriceTextPlain(d);
    ParseFloatDigits(d);
  }
}
