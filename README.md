# LiaBlancos Trendyol seller dashboard — a Dafny model of its business logic

LiaBlancos is a seller dashboard for the Trendyol marketplace: a Next.js
application with Supabase storage, plus one Python script that prepares
price-tier sheets offline. Most of the application is database and API I/O
and React rendering. This project models the deterministic rules inside it
and proves what they promise.

- **Profit arithmetic** (`CalculationUtils`, `TrendyolCalculator`,
  `CommissionTariffs`). The project models the three separate profit formulas:
  - the VAT-inclusive cash-flow profit of a sale, with its VAT breakdown;
  - the sale price that reaches a target profit or margin, proved to be its exact inverse;
  - the desi-to-shipping table, proved monotone and bounded;
  - the VAT-exclusive "Melontik" profit of the Python script, and the VAT-exclusive simulation of the commission-tariffs page.
- **Lenient parsers** (`CalculationUtils.SafeParsePrice`, `ProductAnalysis`,
  `ProductSettings`, `JsNumbers`):
  - Turkish and English thousands and decimal separators;
  - fuzzy spreadsheet column lookup and price ranges;
  - the target-margin text field, whose display and parse are round-tripped;
  - the JavaScript `parseFloat`, `parseInt`, `Number` and `String` conversions they rely on.
- **Commission tiers and campaigns** (`ProductAnalysis`):
  - the tier (barem) list and the commission for a price;
  - discount scenarios;
  - the merge of spreadsheet barcodes with "ghost" products;
  - the participation selection.
- **Aggregation and merge rules**:
  - `CommissionActions`: settlement paging, the latest commission per barcode, the cheapest wholesale price, and the joined product rows.
  - `CommissionTariffs`: grouping by model.
  - `ReturnReasons`: return-reason statistics.
  - `Actions`, `OrderImport` and `PaymentMatching`: the server actions, namely stock clamps, the returns list, order import grouping, and the payment-matching counters.
  - `Grouping`: the shared `Map` grouping.
- **Manufacturing** (`Manufacturing`):
  - unit and currency conversion and the cost of a unit;
  - the recipe, catalogue and raw-material lists as a class whose methods replace them.
- **Screens** (`FinancePayments`, `ProductSettings`, `Wholesalers`, `Payments`):
  - filter chains and pagination, including the page-number window;
  - expand toggles and due-date badges;
  - price selection.

Loops of the source are methods proved against recursive specification
functions, and the properties are lemmas about those functions. Timestamps
are integer milliseconds. Database reads, API answers, the clock and random
ids are parameters.

## Model

| member | source | states |
|---|---|---|
| CalculationUtils.RoundHalfUp | src/lib/calculation-utils.ts:12 | `Math.round` gives the integer `r` with `r <= x + 0.5 < r + 1` (halves round up) |
| CalculationUtils.RoundHalfUpMonotone | src/lib/calculation-utils.ts:12 | rounding is monotone in desi |
| CalculationUtils.TableSteps | src/lib/calculation-utils.ts:1-9 | the rate table has 61 entries (desi 0 to 60) and never decreases from one entry to the next |
| CalculationUtils.TableNondecreasing | src/lib/calculation-utils.ts:1-9 | any two table entries are ordered like their desi |
| CalculationUtils.ShippingRate | src/lib/calculation-utils.ts:11-14 | the entry of the rounded desi for 0..60; the desi-60 entry 837.88 above the table, the desi-0 entry 93.05 below it |
| CalculationUtils.ShippingRateBounds | src/lib/calculation-utils.ts:11-14 | every shipping rate lies in [93.05, 837.88] |
| CalculationUtils.ShippingRateMonotone | src/lib/calculation-utils.ts:11-14 | more desi never costs less shipping |
| CalculationUtils.ServiceFee | src/lib/calculation-utils.ts:59-61 | the service fee is 13.19, plus 47.71 for micro-export |
| CalculationUtils.Excl | src/lib/calculation-utils.ts:68 | the VAT-exclusive part times the VAT factor is the inclusive amount |
| CalculationUtils.Percent | src/lib/calculation-utils.ts:98-99 | `x / y * 100` when `y > 0`, else 0 |
| CalculationUtils.TrendyolProfit | src/lib/calculation-utils.ts:39-117 | net profit = sale − cost − sale·rate/100 − shipping − service fee − 1% of the VAT-exclusive sale; margin is profit per sale price in percent (0 for a sale ≤ 0), ROI is profit per cost in percent (0 for a cost ≤ 0) |
| CalculationUtils.TrendyolProfitBreakdown | src/lib/calculation-utils.ts:81-93 | every exclusive part times its VAT factor is the inclusive amount, each VAT plus its exclusive part is the amount, and the net VAT is the sale VAT less the VAT of cost, shipping, commission and fees |
| CalculationUtils.NetProfitLinear | src/lib/calculation-utils.ts:138-146 | net profit is the sale price times `1 − rate/100 − 0.01/saleVatFactor` less cost, shipping and fees |
| CalculationUtils.PriceFromTarget | src/lib/calculation-utils.ts:119-171 | the sale price is 0 when the factor (amount mode) or the denominator (rate mode) is not positive |
| CalculationUtils.PriceFromTargetAmount | src/lib/calculation-utils.ts:150-155 | in amount mode with a positive factor, the price found earns exactly the target profit: the inverse of `calculateTrendyolProfit` |
| CalculationUtils.RateModeSale | src/lib/calculation-utils.ts:157-167 | in rate mode with a positive denominator and positive fixed costs, the price is positive and solves `sale · (factor − target/100) = fixed costs` |
| CalculationUtils.PriceFromTargetRate | src/lib/calculation-utils.ts:157-170 | in rate mode with a positive denominator and positive fixed costs, the price found has exactly the target margin |
| CalculationUtils.ParsePriceText | src/lib/calculation-utils.ts:181-213 | text without any separator always yields a number (NaN becomes 0) |
| CalculationUtils.SafeParsePrice | src/lib/calculation-utils.ts:174-214 | null, undefined and '' read 0; numbers pass through; a text empty after removing '₺' and trimming reads 0; only a text with a separator can be NaN |
| CalculationUtils.ParseTwoSeparators | src/lib/calculation-utils.ts:185-194 | with both separators the later one is the decimal point and every copy of the other is deleted |
| CalculationUtils.SafeParseTurkish | src/lib/calculation-utils.ts:188-190 | `1.000,29` reads 1000.29: the dots group thousands and the comma is the decimal point |
| CalculationUtils.SafeParseEnglish | src/lib/calculation-utils.ts:191-194 | `1,000.29` reads 1000.29: the commas group thousands |
| CalculationUtils.SafeParseComma | src/lib/calculation-utils.ts:197-200 | `1000,29` reads 1000.29 |
| CalculationUtils.DotOnlyText | src/lib/calculation-utils.ts:202-210 | with one dot, the dot is deleted when exactly three digits follow it, and kept otherwise |
| CalculationUtils.SafeParseDotThousands | src/lib/calculation-utils.ts:206-209 | `1.060` reads 1060 |
| CalculationUtils.SafeParseDotDecimal | src/lib/calculation-utils.ts:210 | `1060.29` reads 1060.29 |
| CalculationUtils.SafeParseDigits | src/lib/calculation-utils.ts:213 | plain digits read as their value |
| JsNumbers.ParseFloatDecimal | src/lib/calculation-utils.ts:210 | `parseFloat("ip.fp")` is the decimal number `ip.fp` |
| JsNumbers.ParseFloatNoDigit | src/lib/calculation-utils.ts:213 | `parseFloat` of a text with no digit is NaN |
| TrendyolCalculator.Round2 | scripts/trendyol_calculator.py:39 | `round(x, 2)` lies within half a cent of `x` |
| TrendyolCalculator.MelontikPct | scripts/trendyol_calculator.py:37 | the percentage is the net profit per VAT-exclusive sale, in percent; 0 for a sale ≤ 0 |
| TrendyolCalculator.MelontikProfit | scripts/trendyol_calculator.py:16-39 | a text sale raises `TypeError`; (0, 0) for a sale ≤ 0; a text cost, shipping or rate reaching arithmetic raises `TypeError`; a NaN sale gives (NaN, 0) and any other NaN input (NaN, NaN); otherwise the profit is within half a cent of the exact net profit and the percentage within half a point of net/sale·100 |
| TrendyolCalculator.MelontikExample | scripts/trendyol_calculator.py:16-39 | inputs (110, 55, 24, 10) give 7.33 and 7.33% |
| TrendyolCalculator.JoinRow | scripts/trendyol_calculator.py:52-53 | a joined row keeps every left column and gains every renamed right-hand column; each right-hand column other than the key holds the matched row's cell (missing without a match) under its renamed name; a left cell that no right-hand column is renamed to keeps its value |
| TrendyolCalculator.JoinOne | scripts/trendyol_calculator.py:52-53 | a left row yields at least one joined row |
| TrendyolCalculator.JoinRows | scripts/trendyol_calculator.py:52-53 | a left join never loses a left row |
| TrendyolCalculator.LeftJoin | scripts/trendyol_calculator.py:52-53 | the left merge; TrendyolCalculator.LeftJoinKeepsRows proves its rows and cells |
| TrendyolCalculator.LeftJoinKeepsRows | scripts/trendyol_calculator.py:52-53 | with unique right-hand keys, the join has exactly one row per left row, in order; row k is left row k joined with its match, so it keeps left row k's cells and holds the match's cells (missing without one) under the renamed right-hand columns |
| TrendyolCalculator.JoinOneUnique | scripts/trendyol_calculator.py:52-53 | with unique right-hand keys, a left row turns into exactly one row: itself joined with its only match, or with none |
| TrendyolCalculator.JoinRowsUnique | scripts/trendyol_calculator.py:52-53 | with unique right-hand keys, the join has one row per left row and row k is what left row k alone turns into |
| TrendyolCalculator.JoinRowNoMatch | scripts/trendyol_calculator.py:52-53 | a row whose key matches no right-hand row has no match and gets a missing cell in every renamed right-hand column |
| TrendyolCalculator.MatchOf | scripts/trendyol_calculator.py:52-53 | the match is a right-hand row with the same key; there is none only when no right-hand row has that key |
| TrendyolCalculator.Get | scripts/trendyol_calculator.py:59-61 | `row.get(k, d)` is the cell when the column exists and the default only when it is absent |
| TrendyolCalculator.TierAt | scripts/trendyol_calculator.py:65-78 | index i contributes nothing unless both of its columns exist and hold a value; then it raises `TypeError` exactly when `melontik_profit` does on its price and rate, and otherwise contributes one tier with that price, that rate and the profit and percentage `melontik_profit` computes |
| TrendyolCalculator.QualifyingFrom | scripts/trendyol_calculator.py:65-71 | the qualifying indices, ascending, each in range and qualifying, none left out |
| TrendyolCalculator.BaremsAreQualifying | scripts/trendyol_calculator.py:65-78 | the tier list has one tier per qualifying index in ascending order, each with that index's price and rate cells and the profit and percentage `melontik_profit` gives for them |
| TrendyolCalculator.BaremsDone | scripts/trendyol_calculator.py:65-78 | building the tiers raises nothing exactly when no qualifying index makes `melontik_profit` raise |
| TrendyolCalculator.BaremsLength | scripts/trendyol_calculator.py:65 | at most one tier per remaining index |
| TrendyolCalculator.BuildBarems | scripts/trendyol_calculator.py:64-78 | the loop yields exactly the qualifying tiers, at most 4 |
| TrendyolCalculator.OfferFor | scripts/trendyol_calculator.py:80-94 | "Veri Yok" exactly when the price is missing or absent; a present price raises `TypeError` exactly when `melontik_profit` does and otherwise gives an offer; the offer carries the price, the rate cell (the default 18.8 / 11.9 only when the rate column is absent) and the profit and percentage `melontik_profit` computes at them |
| TrendyolCalculator.EntryOf | scripts/trendyol_calculator.py:57-105 | the entry of one row given its tiers; TrendyolCalculator.Assemble states its fields: the barcode, the defaulted name and cost, and the two offers at rates 18.8 and 11.9 with shipping 45 |
| TrendyolCalculator.Assemble | scripts/trendyol_calculator.py:57-105 | the name defaults to 'Tanımsız Ürün', the cost to 0 and the shipping to 45 only when the column is absent; the row raises `TypeError` exactly when its tiers, its advantage offer (default rate 18.8) or its plus offer (default rate 11.9) do; otherwise the entry holds the barcode cell, those tiers and those two offers, at most 4 tiers |
| TrendyolCalculator.AssembleAll | scripts/trendyol_calculator.py:55-106 | the entries of all rows or the first error; TrendyolCalculator.AssembleAllRows and TrendyolCalculator.AssembleAllPrefixError prove it |
| TrendyolCalculator.AssembleAllRows | scripts/trendyol_calculator.py:55-106 | exactly one entry per merged row, in row order |
| TrendyolCalculator.AssembleAllPrefixError | scripts/trendyol_calculator.py:57-104 | an error in any row aborts the whole run |
| TrendyolCalculator.ProcessTrendyolData | scripts/trendyol_calculator.py:41-106 | a read error returns the error text and no products; otherwise the products are the per-row entries of the merged sheet, or the run raises |
| CalculationUtils.RateModeMargin | src/lib/calculation-utils.ts:99-167 | a sale price solving the rate-mode equation yields exactly the target margin |
| JsNumbers.JsToNumber | src/components/ProductAnalysisTable.tsx:350-372 | `Number(comm)`: a number is itself, `null` is 0, `undefined` is NaN, and text reads as StrictNumber reads it |
| JsNumbers.StrictNumber | src/components/ProductAnalysisTable.tsx:350-372 | `Number` of blank text is 0, and a non-blank text it reads has the value `parseFloat` gives |
| JsNumbers.ParseIntDigits | src/lib/actions.ts:1483 | `parseInt` reads a run of digits as its value and stops at the first character that is not a digit |
| JsNumbers.ParseFloatDigits | src/components/ProductSettingsList.tsx:242 | `parseFloat` of a run of digits is its value |
| JsNumbers.ParseFloatNumberText | src/components/ProductSettingsList.tsx:237-242 | the text of a whole number reads back as that number |
| TrendyolCalculator.JoinedColumns | scripts/trendyol_calculator.py:52-53 | the join adds at most the right sheet's columns, the key not a second time |
| TrendyolCalculator.FilterUnique | scripts/trendyol_calculator.py:52-53 | with unique right-hand keys, a left row matches at most one right-hand row |
| ProductAnalysis.SuffixKeys | src/components/ProductAnalysisTable.tsx:39-52 | five spellings are tried per suffix, the bare suffix last |
| ProductAnalysis.FirstDefined | src/components/ProductAnalysisTable.tsx:36-56 | no row gives `undefined` |
| ProductAnalysis.FirstDefinedFirst | src/components/ProductAnalysisTable.tsx:36-56 | the lookup is `undefined` exactly when every key is, and otherwise the value of the first key that is not |
| ProductAnalysis.ColumnValueEarlierSuffix | src/components/ProductAnalysisTable.tsx:38-55 | an earlier suffix beats a later one: later keys are consulted only when no earlier key is defined |
| ProductAnalysis.ColumnValue | src/components/ProductAnalysisTable.tsx:36-57 | the early-return loop returns the value of the first defined key, suffix by suffix and spelling by spelling |
| ProductAnalysis.ParsePriceRange | src/components/ProductAnalysisTable.tsx:288-297 | a falsy value gives null; text that is not a two-part numeric range reads as the single price min = max, or null when that is NaN |
| ProductAnalysis.ParsePriceRangeTwo | src/components/ProductAnalysisTable.tsx:291-293 | "a-b" with two numeric parts gives {min: a, max: b} |
| ProductAnalysis.ParsePriceRangeSingle | src/components/ProductAnalysisTable.tsx:295-296 | text without '-' that reads as n gives {min: n, max: n} |
| ProductAnalysis.ParsePriceRangeWhole | src/components/ProductAnalysisTable.tsx:288-297 | a positive whole-number cell n gives {min: n, max: n} |
| ProductAnalysis.Preset | src/components/ProductAnalysisTable.tsx:304-308 | only 'freeshipping' changes shipping (to 0, leaving the price); the coupon never goes below 0; no preset raises a non-negative price |
| ProductAnalysis.ParseCampaign | src/components/ProductAnalysisTable.tsx:312-320 | an empty campaign is skipped |
| ProductAnalysis.ParseCampaignPercent | src/components/ProductAnalysisTable.tsx:313-316 | "d%" is a d percent discount |
| ProductAnalysis.ParseCampaignAmount | src/components/ProductAnalysisTable.tsx:317-319 | "₺d" is d off |
| ProductAnalysis.ApplyCampaign | src/components/ProductAnalysisTable.tsx:314-320 | an unreadable campaign leaves the price; an amount never takes it below 0; a discount of at most 100% keeps it in [0, price] |
| ProductAnalysis.ApplyCampaigns | src/components/ProductAnalysisTable.tsx:311-321 | the campaigns in list order; ProductAnalysis.ApplyCampaignsAppend and ProductAnalysis.ApplyCampaignsNonNegative prove the order and the sign |
| ProductAnalysis.ApplyCampaignsAppend | src/components/ProductAnalysisTable.tsx:311-321 | campaigns apply in list order: applying a + b is applying a, then b |
| ProductAnalysis.ApplyCampaignsNonNegative | src/components/ProductAnalysisTable.tsx:311-321 | discounts of at most 100% and amounts never take a price below 0 |
| ProductAnalysis.Effective | src/components/ProductAnalysisTable.tsx:300-323 | shipping changes only under 'freeshipping', and then to 0 |
| ProductAnalysis.EffectiveValues | src/components/ProductAnalysisTable.tsx:300-323 | the loop applies the preset first, then the manual campaigns in list order |
| ProductAnalysis.UpperValue | src/components/ProductAnalysisTable.tsx:331-336 | a positive Trendyol price replaces tier 1's upper limit; otherwise the upper-limit cell |
| ProductAnalysis.CommissionValue | src/components/ProductAnalysisTable.tsx:338 | the commission cell, or 21.5 when it is falsy |
| ProductAnalysis.CalcMax | src/components/ProductAnalysisTable.tsx:345 | a positive upper limit is kept; zero, negative or unreadable becomes 999999 |
| ProductAnalysis.CardProfitMatches | src/components/ProductAnalysisTable.tsx:350-351 | the tier figures are those of `calculateTrendyolProfit` with 10% sale VAT, whatever the cost VAT |
| ProductAnalysis.SideAt | src/components/ProductAnalysisTable.tsx:350-351 | a NaN commission makes the profit NaN, and the margin NaN exactly for a positive price |
| ProductAnalysis.LimitsRange | src/components/ProductAnalysisTable.tsx:353-358 | a bound is labelled only when positive (the upper one also below 999999); there is no range exactly when neither is labelled |
| ProductAnalysis.LimitsTier | src/components/ProductAnalysisTable.tsx:340-362 | a limits tier shows the commission text and the labelled range, with its maximum side computed at the effective upper price |
| ProductAnalysis.RangeTier | src/components/ProductAnalysisTable.tsx:365-380 | a price-cell tier exists exactly when the cell reads as a price or a range, which it then shows |
| ProductAnalysis.TierAt | src/components/ProductAnalysisTable.tsx:330-380 | one tier of a commission row; ProductAnalysis.TierAtShape proves its commission and when it exists |
| ProductAnalysis.TierAtShape | src/components/ProductAnalysisTable.tsx:330-380 | a tier shows the commission of its number, and a tier with a lower or upper limit cell always exists |
| ProductAnalysis.BaremsUpTo | src/components/ProductAnalysisTable.tsx:329 | at most one tier per number |
| ProductAnalysis.BaremList | src/components/ProductAnalysisTable.tsx:326-383 | at most 4 tiers; none without a commission row or for a product that was not found |
| ProductAnalysis.SideOf | src/components/ProductAnalysisTable.tsx:347-351 | the profit and margin at an effective price bound |
| ProductAnalysis.TierFromLimits | src/components/ProductAnalysisTable.tsx:340-362 | the limit-cells branch builds the limits tier |
| ProductAnalysis.TierFromRange | src/components/ProductAnalysisTable.tsx:365-380 | the price-cell branch builds the range tier |
| ProductAnalysis.Tier | src/components/ProductAnalysisTable.tsx:330-380 | one iteration of the tier loop builds tier i |
| ProductAnalysis.BaremLoop | src/components/ProductAnalysisTable.tsx:328-381 | the loop collects tiers 1..n in ascending order |
| ProductAnalysis.BaremData | src/components/ProductAnalysisTable.tsx:326-383 | `baremData` is the tier list of the product |
| ProductAnalysis.FirstTierCommission | src/components/ProductAnalysisTable.tsx:398 | tier 1's commission, or 21.5 when it is 0 or NaN; never 0 |
| ProductAnalysis.FirstCover | src/components/ProductAnalysisTable.tsx:388-397 | the index of a covering tier at or after k, or -1 |
| ProductAnalysis.Covers | src/components/ProductAnalysisTable.tsx:394 | whether a tier's range holds a price; ProductAnalysis.FirstCoverMeans and ProductAnalysis.CommissionSpecCases use it |
| ProductAnalysis.FirstCoverMeans | src/components/ProductAnalysisTable.tsx:388-397 | -1 exactly when no tier covers the price; otherwise the first covering tier |
| ProductAnalysis.CommissionSpec | src/components/ProductAnalysisTable.tsx:386-399 | the commission for a price; ProductAnalysis.CommissionSpecCases proves its three cases |
| ProductAnalysis.CommissionSpecCases | src/components/ProductAnalysisTable.tsx:386-399 | 21.5 without tiers; the commission of the first tier with min ≤ price ≤ max (max 0 or NaN read as 999999); otherwise tier 1's commission or 21.5 |
| ProductAnalysis.CommissionForPrice | src/components/ProductAnalysisTable.tsx:386-399 | the early-return loop answers the commission spec |
| ProductAnalysis.DashReadsZero | src/components/ProductAnalysisTable.tsx:358-392 | an open bound "---" reads as 0, so an open upper bound counts as 999999 |
| ProductAnalysis.StatusColor | src/components/ProductAnalysisTable.tsx:493-498 | zinc below 0, rose below 10, amber below 20, emerald from 20 (each an if-and-only-if) |
| ProductAnalysis.StatusColorMonotone | src/components/ProductAnalysisTable.tsx:493-498 | a higher margin never gets a worse colour |
| ProductAnalysis.IsPassing | src/components/ProductAnalysisTable.tsx:489-490 | whether a card passes; ProductAnalysis.IsPassingDefault and ProductAnalysis.IsPassingMonotone prove its default and monotonicity |
| ProductAnalysis.IsPassingDefault | src/components/ProductAnalysisTable.tsx:489-490 | without a target a card passes from 15%; a target of 0 is kept, not replaced by 0.15 |
| ProductAnalysis.IsPassingMonotone | src/components/ProductAnalysisTable.tsx:489-490 | a higher margin still passes |
| ProductAnalysis.SheetBarcodes | src/components/ProductAnalysisTable.tsx:863-865 | one barcode per sheet row, the Barkod column, or BARKOD when that is empty, as text |
| ProductAnalysis.ExcelBarcodes | src/components/ProductAnalysisTable.tsx:862-866 | the sheet barcodes are distinct and non-empty |
| ProductAnalysis.LastBarcodeIndex | src/components/ProductAnalysisTable.tsx:869 | the position of the last product with the barcode (none after it has it), or -1 when none has it |
| ProductAnalysis.LastWithBarcode | src/components/ProductAnalysisTable.tsx:869 | the product map returns the LAST product with that barcode (no later product has it), or nothing when none has it |
| ProductAnalysis.GhostProduct | src/components/ProductAnalysisTable.tsx:873-876 | a ghost has the barcode, cost 0, shipping 93.05 and is marked not found |
| ProductAnalysis.ProductFor | src/components/ProductAnalysisTable.tsx:870-877 | the product shown for a barcode has that barcode |
| ProductAnalysis.AllAnalyticProducts | src/components/ProductAnalysisTable.tsx:861-881 | no sheet barcodes: the products unchanged; otherwise the sheet barcodes first, in first-seen order, then the other products in their order |
| ProductAnalysis.AllAnalyticGhosts | src/components/ProductAnalysisTable.tsx:869-877 | a sheet barcode with product settings shows that product; one without shows a ghost |
| ProductAnalysis.AllAnalyticCovers | src/components/ProductAnalysisTable.tsx:861-881 | every product's barcode keeps a place in the list |
| ProductAnalysis.HandleSelect | src/components/ProductAnalysisTable.tsx:912-921 | re-selecting the current choice removes it; any other choice replaces it; other barcodes are unchanged |
| ProductAnalysis.HandleSelectTwice | src/components/ProductAnalysisTable.tsx:912-921 | selecting the same choice twice for an unselected barcode restores the selection |
| CommissionTariffs.PercentOf | src/components/CommissionTariffsContent.tsx:27 | the percentage of a positive base has the sign of the profit; 0 for a base that is not positive |
| CommissionTariffs.CalculateProfit | src/components/CommissionTariffsContent.tsx:10-30 | profitPercent is 0 for a sale ≤ 0, otherwise the net profit per VAT-exclusive sale in percent, positive exactly when the profit is |
| CommissionTariffs.CalculateProfitWithoutServiceFee | src/components/CommissionTariffsContent.tsx:10-30 | the page's profit is the script's `melontik_profit_calc` profit without its 15/1.20 service fee, with the same percentage rule; the unused 2% ratio has no effect |
| CommissionTariffs.CalculateProfitMonotone | src/components/CommissionTariffsContent.tsx:21-26 | a higher commission rate or cost never raises the profit |
| CommissionTariffs.GroupKey | src/components/CommissionTariffsContent.tsx:104 | the model id when it is non-empty, else the name |
| CommissionTariffs.StockSumAppend | src/components/CommissionTariffsContent.tsx:113 | the stock total is additive over the items |
| CommissionTariffs.MakeGroup | src/components/CommissionTariffsContent.tsx:109-115 | a group keeps its items, its main item is the first, its stock is their sum, and it warns iff some item lacks a rate |
| CommissionTariffs.EntryMakesGroup | src/components/CommissionTariffsContent.tsx:103-115 | the map entry of an occurring key is non-empty and makes that key's group |
| CommissionTariffs.GroupProducts | src/components/CommissionTariffsContent.tsx:100-116 | one group per key in first-appearance order, holding exactly the products with that key in input order |
| CommissionTariffs.GroupsHoldProducts | src/components/CommissionTariffsContent.tsx:100-116 | every product is in the group of its key |
| CommissionTariffs.GroupsPartitionProducts | src/components/CommissionTariffsContent.tsx:100-116 | the group sizes add up to the number of products |
| CommissionTariffs.FilteredGroups | src/components/CommissionTariffsContent.tsx:118-128 | an empty search keeps every group; otherwise exactly the groups whose main name, an item barcode (as typed) or an item SKU contains the lower-cased term |
| CommissionTariffs.FilteredGroupsOrder | src/components/CommissionTariffsContent.tsx:121 | the search keeps the groups in their order |
| Text.LowerChar | src/components/CommissionTariffsContent.tsx:120 | a character changes exactly when it is one of the folded capitals, and an ASCII capital moves 32 code points down |
| Text.TurkishCapitals | src/components/CommissionTariffsContent.tsx:120 | the Turkish capitals Ç Ğ Ö Ş Ü Â Î Û and I fold to ç ğ ö ş ü â î û and i |
| Text.Lower | src/components/CommissionTariffsContent.tsx:120 | the text keeps its length and each character is folded on its own |
| Seqs.Toggled | src/components/CommissionTariffsContent.tsx:130-135 | the key is in the new set exactly when it was not in the old one, and every other key is unchanged; the finance screen's toggle uses the same rule |
| Seqs.ToggledTwice | src/components/CommissionTariffsContent.tsx:130-135 | toggling the same key twice restores the set |
| Seqs.TotalPages | src/lib/actions.ts:987 | `Math.ceil(n / perPage)`: the fewest pages of `perPage` items that hold n items; the returns paging (the caller's `size`), the finance payments list (50 per page, src/components/FinancePaymentsContent.tsx:142) and the product settings list (20 per page, src/components/ProductSettingsList.tsx:41) all use it |
| CommissionTariffs.Counters | src/components/CommissionTariffsContent.tsx:183-189 | products with and without a rate add up to all products; low-profit ones have a rate |
| CommissionTariffs.LowProfitWhenLoss | src/components/CommissionTariffsContent.tsx:185-189 | a product with a rate that makes no profit is counted as low-profit |
| CommissionTariffs.KeepPriceChars | src/components/CommissionTariffsContent.tsx:337 | only digits and '.' remain |
| CommissionTariffs.KeepPriceCharsKeeps | src/components/CommissionTariffsContent.tsx:337 | text of digits and '.' is kept as typed |
| CommissionTariffs.ManualPriceInput | src/components/CommissionTariffsContent.tsx:336-342 | an emptied field deletes the barcode's entry; other text stores its `parseFloat`; other barcodes are unchanged |
| CommissionTariffs.ManualPriceDigits | src/components/CommissionTariffsContent.tsx:337-339 | typing digits stores their value |
| Grouping.MembersIn | src/components/CommissionTariffsContent.tsx:103-107 | a group holds exactly the elements with its key |
| Grouping.MapOfMembers | src/components/CommissionTariffsContent.tsx:101-107 | the `Map` has exactly the occurring keys, each holding its elements in list order |
| Grouping.InsertionOrderDedup | src/components/CommissionTariffsContent.tsx:109 | the `Map` iterates its keys once each, in first-occurrence order |
| Grouping.InsertionOrderDomain | src/components/CommissionTariffsContent.tsx:109 | the iteration order lists exactly the keys of the `Map` |
| Grouping.GroupMap | src/components/CommissionTariffsContent.tsx:101-107 | the `forEach` loop builds that `Map` and that key order |
| Grouping.GroupsPartition | src/components/CommissionTariffsContent.tsx:101-115 | the group sizes add up to the list length |
| CommissionActions.PagesReadBound | src/lib/commission-actions.ts:42-79 | at most 101 pages are requested, whatever the API answers |
| CommissionActions.ShortPageEnds | src/lib/commission-actions.ts:73-75 | a page shorter than 500 items ends the reading with it |
| CommissionActions.FullPageContinues | src/lib/commission-actions.ts:73-78 | a full page below the cap is followed by the next page's settlements, in page order |
| CommissionActions.FetchSettlements | src/lib/commission-actions.ts:42-79 | the paging loop returns the pages concatenated in page order, or the first failing request's error, after 1 to 101 requests |
| CommissionActions.RateOrderDomain | src/lib/commission-actions.ts:82-101 | the entries iterate exactly the keys of the barcode map |
| CommissionActions.RateOrderDistinct | src/lib/commission-actions.ts:101 | each barcode is listed once |
| CommissionActions.RateMap | src/lib/commission-actions.ts:82-98 | the barcode map after the settlements; CommissionActions.RateMapDomain, CommissionActions.RateMapEntry and CommissionActions.RateMapLatest prove its keys and entries |
| CommissionActions.RateMapDomain | src/lib/commission-actions.ts:84-97 | a barcode has an entry exactly when some settlement with a barcode and a rate carries it |
| CommissionActions.RateMapEntry | src/lib/commission-actions.ts:89-97 | the stored entry is that of a settlement of the barcode, and no later one of the barcode has a strictly later date |
| CommissionActions.FirstLatestKeep | src/lib/commission-actions.ts:92 | a settlement that is not strictly later keeps the stored one |
| CommissionActions.FirstLatestNew | src/lib/commission-actions.ts:92-96 | a strictly later settlement replaces the stored one |
| CommissionActions.RateMapLatest | src/lib/commission-actions.ts:84-98 | with valid dates, the stored entry is the first settlement carrying the latest date (ties keep the first seen) |
| CommissionActions.LatestRates | src/lib/commission-actions.ts:82-98 | the loop builds that map and its key order |
| CommissionActions.UpsertRows | src/lib/commission-actions.ts:101-106 | one row per map entry, in order, with its rate and date; an invalid date makes `toISOString` throw |
| CommissionActions.RatesToUpsert | src/lib/commission-actions.ts:101-106 | the upsert rows; CommissionActions.UpsertOneRowPerBarcode proves one row per kept barcode with its latest rate |
| CommissionActions.UpsertOneRowPerBarcode | src/lib/commission-actions.ts:101-106 | the upsert has exactly one row per distinct kept barcode, with that barcode's latest rate |
| CommissionActions.FetchCommissionRates | src/lib/commission-actions.ts:24-127 | missing credentials give the credentials error; otherwise a read error is returned, or the upsert rows of the settlements read |
| CommissionActions.MinCostMap | src/lib/commission-actions.ts:217-223 | the cheapest-price map; CommissionActions.MinCostIsMinimum proves each entry is the product's cheapest price |
| CommissionActions.MinCosts | src/lib/commission-actions.ts:217-223 | the `forEach` loop builds the min-cost map |
| CommissionActions.MinCostIsMinimum | src/lib/commission-actions.ts:217-223 | with positive prices, a product has an entry iff it has a price, and the entry is its cheapest price |
| CommissionActions.ZeroCostReplaced | src/lib/commission-actions.ts:219-221 | a stored 0 reads as no value (it falls back to Infinity), so the next price of that product replaces it, even a higher one |
| CommissionActions.OrNumber | src/lib/commission-actions.ts:228-242 | the value with its fallback: the value unless it is null or 0 |
| CommissionActions.FindCommission | src/lib/commission-actions.ts:227 | `find` returns a row with the barcode, or nothing when none has it |
| CommissionActions.FirstCommission | src/lib/commission-actions.ts:227 | `find` returns the first row with the barcode |
| CommissionActions.JoinProduct | src/lib/commission-actions.ts:226-256 | one product record; CommissionActions.JoinedCost, CommissionActions.JoinedRate, CommissionActions.JoinedShipping and CommissionActions.JoinedData prove its fields |
| CommissionActions.JoinedCost | src/lib/commission-actions.ts:228-242 | the product's own cost if truthy, else its cheapest wholesale price, else 0 |
| CommissionActions.JoinedRate | src/lib/commission-actions.ts:227-253 | the rate of the first commission row with the barcode; a missing row and a 0% rate both read as none |
| CommissionActions.JoinedShipping | src/lib/commission-actions.ts:231-232 | shipping is the table rate at the desi, or 0 when missing, and always within [93.05, 837.88] |
| CommissionActions.JoinedData | src/lib/commission-actions.ts:226-256 | one record per product, in order, carrying its id, barcode, name, stock and model id |
| Manufacturing.UnitFactor | src/components/ManufacturingCalculator.tsx:112-119 | the unit's conversion factor, or 1 when the unit has none, is always positive |
| Manufacturing.UnitFactorIsTable | src/components/ManufacturingCalculator.tsx:112-119 | the table's entry, and 1 for a unit it lacks |
| Manufacturing.UnitFactorsConsistent | src/components/ManufacturingCalculator.tsx:112-116 | metre = 100 cm, kg = 1000 gr, adet = top = set = 1, and an unknown unit counts 1 |
| Manufacturing.PricePerUsage | src/components/ManufacturingCalculator.tsx:121-125 | the price of one usage unit; Manufacturing.PricePerUsageExamples and Manufacturing.CostIndependentOfUsageUnit prove the unit conversion |
| Manufacturing.PricePerUsageExamples | src/components/ManufacturingCalculator.tsx:121-125 | identical units keep the price; 200 TL per metre used in cm costs 2 |
| Manufacturing.LineCost | src/components/ManufacturingCalculator.tsx:118-127 | quantity × price per usage unit; Manufacturing.CostIndependentOfUsageUnit proves it does not depend on the usage unit written, and Manufacturing.LineCostNonnegative that it is not negative for non-negative inputs |
| Manufacturing.CostIndependentOfUsageUnit | src/components/ManufacturingCalculator.tsx:118-127 | the line cost depends only on the amount of material used, not on the unit it is written in |
| Manufacturing.FindMaterial | src/components/ManufacturingCalculator.tsx:97 | `find` returns the first material with the id, or nothing when none has it |
| Manufacturing.CostRow | src/components/ManufacturingCalculator.tsx:97-127 | one costed line; Manufacturing.CostRowFallbacks and Manufacturing.CostRowPriceUnit prove its fallbacks and cost, Manufacturing.CostRowNonnegative its sign |
| Manufacturing.CostRowFallbacks | src/components/ManufacturingCalculator.tsx:97-105 | the material, price, currency and usage unit each fall back in the source's order (line, material, default); USD is multiplied by the dollar rate and any other currency is unchanged |
| Manufacturing.CostRowPriceUnit | src/components/ManufacturingCalculator.tsx:107-127 | the price unit falls back from the line to the material's price unit, its unit, then 'adet'; row cost = quantity × price per usage unit |
| Manufacturing.CostRowNonnegative | src/components/ManufacturingCalculator.tsx:95-139 | with non-negative quantity, prices and dollar rate a line never costs less than 0 |
| Manufacturing.Recipe | src/components/ManufacturingCalculator.tsx:89 | the current recipe is exactly the lines of the selected product |
| Manufacturing.RecipeWithCosts | src/components/ManufacturingCalculator.tsx:95-140 | one costed row per recipe line, in order |
| Manufacturing.TotalCost | src/components/ManufacturingCalculator.tsx:142-144 | the sum of the row costs; Manufacturing.TotalCostAppend proves it is additive and Manufacturing.TotalCostNonnegative its sign |
| Manufacturing.TotalCostAppend | src/components/ManufacturingCalculator.tsx:142-144 | the total is additive over the rows |
| Manufacturing.TotalCostNonnegative | src/components/ManufacturingCalculator.tsx:142-144 | the total is at least 0 when no row is negative |
| Manufacturing.BatchCosts | src/components/ManufacturingCalculator.tsx:953 | each line's batch cost is its row cost times the count |
| Manufacturing.BatchCostsAddUp | src/components/ManufacturingCalculator.tsx:919-953 | the per-line batch costs add up to `totalCostPerUnit * manufacturingCount` |
| Manufacturing.ActiveProducts | src/components/ManufacturingCalculator.tsx:52 | exactly the active products |
| Manufacturing.SearchResults | src/components/ManufacturingCalculator.tsx:82-86 | at most 5 products, each matching the term and not catalogued |
| Manufacturing.SearchResultsComplete | src/components/ManufacturingCalculator.tsx:82-86 | results keep the list order, and every eligible product is offered while at most five are eligible |
| Manufacturing.FilteredCatalog | src/components/ManufacturingCalculator.tsx:77-80 | entries whose product's name or barcode contains the term, ignoring case; an entry without a product never matches |
| Manufacturing.WithoutPair | src/components/ManufacturingCalculator.tsx:216 | exactly the lines of other (product, material) pairs, in order |
| Manufacturing.SubsequenceOnePerPair | src/components/ManufacturingCalculator.tsx:216-230 | dropping lines keeps one line per pair |
| Manufacturing.ReplacePairKeepsOnePerPair | src/components/ManufacturingCalculator.tsx:215-218 | replacing a pair's line keeps at most one line per pair |
| Manufacturing.WithoutId | src/components/ManufacturingCalculator.tsx:230 | exactly the lines with another id, in order |
| Manufacturing.ApplyPatch | src/components/ManufacturingCalculator.tsx:241 | an update never changes a line's id, product, material or attached material record |
| Manufacturing.AddRequest | src/components/ManufacturingCalculator.tsx:196-208 | the line sent: the form's unit, else the material's, else 'adet'; the form's price only when positive |
| Manufacturing.MergeMaterial | src/components/ManufacturingCalculator.tsx:159 | `{ ...m, ...form }`: filled-in fields win, the id is kept |
| Manufacturing.FindProduct | src/components/ManufacturingCalculator.tsx:254 | `find` returns a product with the id, or nothing when none has it |
| Manufacturing.FindEntry | src/components/ManufacturingCalculator.tsx:278 | `find` returns an entry with the id, or nothing when none has it |
| Manufacturing.Workshop.constructor | src/components/ManufacturingCalculator.tsx:52-61 | the page opens with the active products, the given lists and no selection |
| Manufacturing.RecipeTotalNonnegative | src/components/ManufacturingCalculator.tsx:142-144 | a recipe none of whose lines costs less than nothing costs at least 0 in total |
| Manufacturing.Workshop.CurrentCosts | src/components/ManufacturingCalculator.tsx:89-140 | one costed row per line of the selected product's recipe |
| Manufacturing.Workshop.TotalCostPerUnit | src/components/ManufacturingCalculator.tsx:142-144 | the unit cost of the selected product is never negative while no line of its recipe costs less than nothing |
| Manufacturing.Workshop.AddMaterialToRecipe | src/components/ManufacturingCalculator.tsx:190-224 | rejected without a product, a material or a positive quantity; a failed insert changes nothing; otherwise the pair's old line is replaced by the new one at the end, the only line of that pair |
| Manufacturing.Workshop.RemoveMaterialFromRecipe | src/components/ManufacturingCalculator.tsx:226-235 | removes exactly the line with that id, or nothing on error; one line per pair is kept |
| Manufacturing.Workshop.UpdateRecipeItem | src/components/ManufacturingCalculator.tsx:237-246 | only lines with that id change; order and length are kept |
| Manufacturing.Workshop.AddToCatalog | src/components/ManufacturingCalculator.tsx:249-269 | the new entry goes in front and its product becomes selected, so the search no longer offers it |
| Manufacturing.Workshop.RemoveFromCatalog | src/components/ManufacturingCalculator.tsx:271-285 | drops the entries with that id, clearing the selection when the first of them was the selected product |
| Manufacturing.Workshop.DeleteRawMaterial | src/components/ManufacturingCalculator.tsx:177-187 | drops exactly the materials with that id, or nothing on error |
| Manufacturing.Workshop.SaveRawMaterial | src/components/ManufacturingCalculator.tsx:149-175 | it fails exactly when the name or unit is missing or empty, the edit's database update fails or the insert fails; an edit merges the form into the materials with that id; a create appends the material the database returns |
| Actions.ClampedSum | src/lib/actions.ts:122 | `Math.max(0, q + c)`: never negative, and q + c unless that is negative |
| Actions.UpdateStock | src/lib/actions.ts:114-122 | a missing product is an error; otherwise the new quantity is q + change, or 0 when that is negative |
| Actions.StockChangeUndo | src/lib/actions.ts:122 | a change that keeps the stock non-negative is undone by the opposite change; one that is clamped is not |
| Actions.UpdateDamagedStock | src/lib/actions.ts:616-634 | DAMAGED_IN adds to the damaged count and takes from the stock (clamped at 0) only when `fromMainStock`; DAMAGED_OUT lowers the damaged count (clamped at 0) and leaves the stock; moving stock that exists keeps the total |
| Actions.LowStockCount | src/lib/actions.ts:41 | the count never exceeds the number of products |
| Actions.LowStockProducts | src/lib/actions.ts:77 | exactly the products with quantity ≤ min_stock, in order, as many as the count |
| Actions.LowStockMonotone | src/lib/actions.ts:41 | taking stock out never clears the low-stock mark and adding stock never sets it |
| Actions.FirstNonEmpty | src/lib/actions.ts:942-946 | null exactly when every candidate is empty, otherwise a non-empty candidate |
| Actions.ReasonCandidates | src/lib/actions.ts:943-945 | the three candidates the reason is chosen from |
| Actions.ReturnReason | src/lib/actions.ts:942-946 | the extracted reason; Actions.ReturnReasonOrder proves the order in which the candidates win |
| Actions.ReturnReasonOrder | src/lib/actions.ts:942-946 | the line's return reason wins, then the line's status, then the last package history entry; with none of them null |
| Actions.ChunkOrders | src/lib/actions.ts:936-950 | a failed chunk contributes nothing; a fetched chunk contributes each of its orders, in order, with its extracted reason |
| Actions.CollectOrders | src/lib/actions.ts:936-950 | the fetched chunks' orders with their reasons; Actions.CollectOrdersIn proves an order is collected exactly when it is in a fetched chunk |
| Actions.CollectOrdersIn | src/lib/actions.ts:936-950 | an order is collected exactly when it comes from one of the chunks |
| Actions.CollectOrdersMembers | src/lib/actions.ts:936-950 | every order of every fetched chunk is collected with its reason, and every collected order has its reason and comes from a fetched chunk |
| Actions.CollectOrdersAppend | src/lib/actions.ts:936-950 | collecting two runs of chunks concatenates their orders |
| Actions.CollectOne | src/lib/actions.ts:936-950 | collecting one chunk gives that chunk's orders |
| Actions.LastByKey | src/lib/actions.ts:977 | the de-duplicating `Map`; Actions.LastByKeySpec proves it holds each order number with the last order seen |
| Actions.LastByKeySpec | src/lib/actions.ts:977 | the `Map` holds the order numbers that occur, each with the last order seen |
| Actions.UniqueOrders | src/lib/actions.ts:977 | one order per number, in first-appearance order |
| Actions.UniqueOrdersDistinct | src/lib/actions.ts:977 | no order number appears twice |
| Actions.UniqueOrdersCover | src/lib/actions.ts:977 | every order number fetched is kept |
| Actions.UniqueOrdersLast | src/lib/actions.ts:977 | each kept order is the last one seen with its number |
| Actions.InsertNewest | src/lib/actions.ts:980-984 | inserting adds exactly that order (as a multiset) |
| Actions.InsertNewestSorted | src/lib/actions.ts:980-984 | inserting into a newest-first list keeps it newest-first |
| Actions.SortNewestFirst | src/lib/actions.ts:980-984 | the result is newest first and a permutation of the input |
| Actions.PageOf | src/lib/actions.ts:987-988 | the slice of one page; Actions.PageSpec proves its size, when it is non-empty, and which orders it holds |
| Actions.PageSpec | src/lib/actions.ts:987-988 | a page has at most `size` orders, is non-empty exactly before `totalPages`, and is the slice `page·size .. (page+1)·size` |
| Actions.ExtendedReturns | src/lib/actions.ts:907-999 | the page is the `page`-th window of `size` of the collected orders, de-duplicated by number and sorted newest first; it holds at most `size` orders and is newest first |
| Actions.ExtendedReturnsFetched | src/lib/actions.ts:936-990 | every order on the page carries its extracted reason and comes from a fetched chunk |
| Actions.ExtendedReturnsTotal | src/lib/actions.ts:977-987 | the total counts the distinct order numbers, and `totalPages` is its ceiling over `size` |
| Actions.SlicePreservesNewestFirst | src/lib/actions.ts:988 | a slice of a newest-first list is newest first |
| OrderImport.FirstText | src/lib/actions.ts:1473 | the chain of `?.toString()` alternatives is empty exactly when every listed cell is empty; otherwise it is the text of the first non-empty cell |
| OrderImport.FirstFilled | src/lib/actions.ts:1473 | the position where the `||` chain stops: every earlier cell is empty and the cell there is not |
| OrderImport.FirstTruthy | src/lib/actions.ts:1477-1487 | the chain of raw-cell alternatives gives the fallback when no listed cell is truthy, and otherwise the first truthy cell |
| OrderImport.DueAt | src/lib/actions.ts:1489-1495 | a due date exists exactly when the row has a delivery date and a delivered status ("Teslim Edildi", "Delivered" or any status containing "Teslim"); it is then 28 days after the delivery |
| OrderImport.DefaultQuantity | src/lib/actions.ts:1483 | a row with no quantity cell counts one piece |
| OrderImport.DefaultOrderDate | src/lib/actions.ts:1486 | a row with no order-date cell is dated at the time of the import |
| OrderImport.ReadRow | src/lib/actions.ts:1471-1495 | one row's order fields; OrderImport.DeliveryAndDue proves when it has a delivery and a due date, and OrderImport.ParseRows that every row is read this way |
| OrderImport.DeliveryAndDue | src/lib/actions.ts:1478-1495 | a row has a delivery date exactly when one of its delivery cells is set, and a due date exactly when it also counts as delivered |
| OrderImport.ParseRows | src/lib/actions.ts:1471-1487 | every spreadsheet row is read, position by position, into its order fields |
| OrderImport.ApplyRow | src/lib/actions.ts:1472-1527 | one loop step: a row without an order number is skipped, a new number creates its order, a known one merges the row's delivery data (only while the order has none) and its item |
| OrderImport.GroupRows | src/lib/actions.ts:1456-1528 | the grouping loop builds exactly the order map of the rows and the key sequence in `Map` iteration order |
| OrderImport.KeyOrderStep | src/lib/actions.ts:1497-1498 | one more row appends its order number to the iteration order exactly when the number is set and not yet a key |
| OrderImport.FirstDelivery | src/lib/actions.ts:1510-1516 | the index found is the first row with a delivery date, and no row has one when none is found |
| OrderImport.ItemsOf | src/lib/actions.ts:1519-1527 | an order has at most one item per row |
| OrderImport.SummarySnoc | src/lib/actions.ts:1509-1527 | merging one more row into an order gives the summary of its rows with that row added |
| OrderImport.OrdersOfDomain | src/lib/actions.ts:1474-1497 | an order number is a key exactly when it is non-empty and some row carries it |
| OrderImport.KeyOrderDomain | src/lib/actions.ts:1530-1533 | the iteration order lists exactly the keys of the map |
| OrderImport.OrdersOfSummary | src/lib/actions.ts:1497-1527 | every order is the summary of its own rows: the first row's fields, the first delivered row's delivery, status and due date, and the items of all its rows in order |
| OrderImport.GroupRowsSpec | src/lib/actions.ts:1470-1530 | the keys are distinct, the orders are exactly the non-empty numbers in the sheet, the iteration order lists each once, and each order summarises its own rows |
| OrderImport.RowsOfNonEmpty | src/lib/actions.ts:1497 | an order has rows exactly when some row carries its number |
| PaymentMatching.SettingValue | src/lib/actions.ts:1099-1101 | the trimmed value of the first setting with that key, or empty text when no setting has it |
| PaymentMatching.ReadCredentials | src/lib/actions.ts:1098-1105 | the credentials are read exactly when all three trimmed values are non-empty; otherwise the result is the "Trendyol API bilgileri eksik." error |
| PaymentMatching.ChunkWindow | src/lib/actions.ts:1109-1117 | each window is exactly seven days long |
| PaymentMatching.WindowsTile | src/lib/actions.ts:1109-1117 | the twelve windows are consecutive, newest first: the first ends now, each starts where the previous ends, and together they cover the last 84 days |
| PaymentMatching.Pulled | src/lib/actions.ts:1127-1132 | a transaction is pulled exactly when it is in the content of some fetched window |
| PaymentMatching.PulledAppend | src/lib/actions.ts:1127-1132 | pulling two runs of windows concatenates their transactions, in window order |
| PaymentMatching.PulledOne | src/lib/actions.ts:1127-1132 | one window pulls exactly its own content |
| PaymentMatching.LastError | src/lib/actions.ts:1133-1137 | the log carries an error exactly when some window failed, and then it is the message of the last failed window |
| PaymentMatching.LastFailed | src/lib/actions.ts:1133-1137 | the index of a failed window after which every window was fetched, or −1 |
| PaymentMatching.PullTransactions | src/lib/actions.ts:1108-1143 | the fetch loop collects the windows' transactions in window order and keeps the error of the last failed window |
| PaymentMatching.MatchTransactions | src/lib/actions.ts:1146-1215 | every transaction is counted once: matched and paid count those found by package id or by order number, the others are stored as unmatched, and matched plus unmatched is the number pulled |
| PaymentMatching.MatchedPackages | src/lib/actions.ts:1366-1412 | a row adds to `matched` exactly when it matches an order with packages or an existing package |
| PaymentMatching.ImportPaymentCounts | src/lib/actions.ts:1348-1436 | as written: `processed` counts the rows with an identifier, `matched` adds every package of a matched order, and `unmatched` is their difference |
| PaymentMatching.NegativeUnmatched | src/lib/actions.ts:1386-1436 | one row for an order shipped in two packages reports one processed, two matched and minus one unmatched |
| PaymentMatching.ImportPaymentCountsCorrected | src/lib/actions.ts:1360-1436 | counting matched rows instead of packages: matched and unmatched split the processed rows, so unmatched is never negative |
| PaymentMatching.CorrectedCountsOnExample | src/lib/actions.ts:1386-1436 | on the same single row the corrected counts are one matched and zero unmatched |
| ReturnReasons.EntryOf | src/components/ReturnReasonsAnalysis.tsx:32-46 | a line counts under its order's extracted reason, or "Belirtilmemiş" when there is none, with its quantity, or 1 when the quantity is missing |
| ReturnReasons.LineEntries | src/components/ReturnReasonsAnalysis.tsx:31 | every line of an order is visited once, in order |
| ReturnReasons.Record | src/components/ReturnReasonsAnalysis.tsx:35-46 | one line updates the statistics exactly as the aggregation function says: a new product gets empty statistics first, then the line's barcode, reason count and total are added |
| ReturnReasons.RecordLine | src/components/ReturnReasonsAnalysis.tsx:32-46 | one line keeps the statistics and the product order equal to those of all lines seen so far |
| ReturnReasons.RecordOrder | src/components/ReturnReasonsAnalysis.tsx:31-47 | the inner loop over an order's lines extends the statistics and product order by exactly that order's lines |
| ReturnReasons.Aggregate | src/components/ReturnReasonsAnalysis.tsx:27-48 | the nested loop yields the statistics of all lines of all orders and the products in order of first appearance |
| ReturnReasons.StatsDomain | src/components/ReturnReasonsAnalysis.tsx:35-42 | a product has statistics exactly when it is in the product order, and its statistics carry its own name |
| ReturnReasons.StatsOf | src/components/ReturnReasonsAnalysis.tsx:30-48 | the statistics after the lines; ReturnReasons.StatsDomain and ReturnReasons.StatsSpec prove which products have statistics and what each holds |
| ReturnReasons.StatsSpec | src/components/ReturnReasonsAnalysis.tsx:35-46 | a product's statistics describe its own lines: the distinct barcodes in order, the reasons in order, each reason's summed quantity, and the total quantity |
| ReturnReasons.ReasonsPartition | src/components/ReturnReasonsAnalysis.tsx:45-46 | the reasons partition the lines: summing the quantity per reason over the distinct reasons gives the total quantity |
| ReturnReasons.TotalIsSumOfCounts | src/components/ReturnReasonsAnalysis.tsx:45-46 | every product's total equals the sum of its per-reason counts |
| ReturnReasons.BarcodesDistinct | src/components/ReturnReasonsAnalysis.tsx:38-54 | the barcode set holds each barcode of the product's lines exactly once, in first-seen order |
| ReturnReasons.AggregateWellFormed | src/components/ReturnReasonsAnalysis.tsx:28-47 | the product order lists each product once, each with statistics under its own name and a duplicate-free reason list that names exactly its counted reasons |
| ReturnReasons.RowsForReasons | src/components/ReturnReasonsAnalysis.tsx:52-58 | one row per reason, carrying the product name, its barcodes joined with ", ", the reason's count and the product total |
| ReturnReasons.Flatten | src/components/ReturnReasonsAnalysis.tsx:51-59 | the flattened table; ReturnReasons.FlattenSpec and ReturnReasons.FlattenRows prove its rows are exactly the counted pairs with their barcodes, counts and totals |
| ReturnReasons.FlattenSpec | src/components/ReturnReasonsAnalysis.tsx:51-59 | the flattened table holds exactly one row for each product and reason that was counted, and none for any other pair; every row carries its product's barcodes joined with ", ", the reason's count and the product's total |
| ReturnReasons.FlattenRows | src/components/ReturnReasonsAnalysis.tsx:51-59 | every flattened row names a counted product and reason and carries the barcodes joined with ", ", that reason's count and the product total |
| ReturnReasons.FlattenCount | src/components/ReturnReasonsAnalysis.tsx:51-59 | flattening distinct products with distinct reasons gives each listed product-reason pair one row |
| ReturnReasons.ReasonRowsCount | src/components/ReturnReasonsAnalysis.tsx:52-58 | a product's rows hold a reason once when it is counted, otherwise not at all |
| ReturnReasons.SearchRows | src/components/ReturnReasonsAnalysis.tsx:61-65 | a row is kept exactly when its product name or reason contains the term (ignoring case) or its barcode contains the term as typed; the kept rows stay in order |
| ReturnReasons.EmptySearchKeepsAll | src/components/ReturnReasonsAnalysis.tsx:61-65 | an empty search keeps every row |
| ReturnReasons.StrLessTransitive | src/components/ReturnReasonsAnalysis.tsx:66 | string `<` is transitive |
| ReturnReasons.StrLessIrreflexive | src/components/ReturnReasonsAnalysis.tsx:66 | no string is `<` itself |
| ReturnReasons.BeforeTransitive | src/components/ReturnReasonsAnalysis.tsx:65-69 | the comparator's "goes first" relation is transitive for every key and direction |
| ReturnReasons.InsertRow | src/components/ReturnReasonsAnalysis.tsx:65-69 | inserting a row adds exactly that row |
| ReturnReasons.InsertRowSorted | src/components/ReturnReasonsAnalysis.tsx:65-69 | inserting into a sorted list keeps it sorted |
| ReturnReasons.SortRows | src/components/ReturnReasonsAnalysis.tsx:65-69 | the sorted rows are a permutation of the rows with no row after one the comparator puts after it |
| ReturnReasons.AnalysisRows | src/components/ReturnReasonsAnalysis.tsx:27-70 | the rows are a permutation of the table rows that match the search, sorted by the chosen column and direction; each shown row matches the search and carries its statistics' joined barcodes, count and total |
| ReturnReasons.TableRows | src/components/ReturnReasonsAnalysis.tsx:27-59 | the table holds exactly one row per product and reason present in the aggregated statistics, and no other row; each row carries the product's joined barcodes, the reason's count and the product total |
| ReturnReasons.HandleSort | src/components/ReturnReasonsAnalysis.tsx:72-77 | a click sorts by the clicked column, ascending exactly when that column was sorted descending |
| ReturnReasons.HandleSortToggles | src/components/ReturnReasonsAnalysis.tsx:72-77 | clicking the same column again flips the direction, and a third click is back to the first click's order |
| FinancePayments.StartOfDay | src/components/FinancePaymentsContent.tsx:119-120 | midnight of the same day, at or before the time and less than a day before it |
| FinancePayments.EndOfDay | src/components/FinancePaymentsContent.tsx:124-125 | the last millisecond of the same day, at or after the time and less than a day after it |
| FinancePayments.DayBounds | src/components/FinancePaymentsContent.tsx:118-127 | comparing with the start of the first day or the end of the last day is the same as comparing days |
| FinancePayments.FilterFuse | src/components/FinancePaymentsContent.tsx:105-139 | two successive filters are one filter on both conditions |
| FinancePayments.StageFuse | src/components/FinancePaymentsContent.tsx:107-137 | a stage that is switched off changes nothing, and one that is on adds its condition |
| FinancePayments.ByStatusSpec | src/components/FinancePaymentsContent.tsx:107-116 | the tab and status stages keep, in order, exactly the orders of the chosen tab and status (overdue: unpaid with a payout before now) |
| FinancePayments.ByDateSpec | src/components/FinancePaymentsContent.tsx:118-127 | the date stages then keep exactly those whose order date lies on the chosen days; an order without a date fails once a bound is set |
| FinancePayments.FilteredOrders | src/components/FinancePaymentsContent.tsx:104-140 | the status, date and search filters in turn; FinancePayments.FilteredOrdersSpec proves it lists, in order, exactly the orders passing the tab, status, date and search conditions |
| FinancePayments.FilteredOrdersSpec | src/components/FinancePaymentsContent.tsx:104-140 | the whole chain lists, in order, exactly the orders satisfying the tab, status, date and search conditions |
| FinancePayments.PageRows | src/components/FinancePaymentsContent.tsx:143-146 | the one-based page of 50 rows; FinancePayments.PageSpec proves a page within the page count is non-empty and holds the rows between the footer's positions |
| FinancePayments.ShownRange | src/components/FinancePaymentsContent.tsx:748 | the footer's first and last positions; FinancePayments.PageSpec proves 1 ≤ first ≤ last ≤ n on every page within range and that the page is exactly those rows |
| FinancePayments.PageSpec | src/components/FinancePaymentsContent.tsx:143-146 | a page holds between one and 50 rows exactly when it is within the page count; it then holds exactly the rows between the positions the footer prints |
| FinancePayments.Range | src/components/FinancePaymentsContent.tsx:762-763 | the page numbers from `lo` up to `hi`, one each |
| FinancePayments.Window | src/components/FinancePaymentsContent.tsx:762-791 | the page buttons and ellipses; FinancePayments.WindowEnds proves the first, last and current pages are buttons and FinancePayments.WindowBound that at most nine items are rendered |
| FinancePayments.WindowEnds | src/components/FinancePaymentsContent.tsx:762-791 | the first and last page are always buttons, and so is the current page when it is in range |
| FinancePayments.WindowBound | src/components/FinancePaymentsContent.tsx:762-791 | however many pages there are, at most nine buttons and ellipses are rendered |
| FinancePayments.CountWithin | src/components/FinancePaymentsContent.tsx:768 | at most `b - a + 1` page numbers lie between `a` and `b` |
| FinancePayments.RowNet | src/components/FinancePaymentsContent.tsx:716 | a detail row shows its own net amount when that is non-zero, otherwise the amount less commission, discount and penalty |
| FinancePayments.TotalAmount | src/components/FinancePaymentsContent.tsx:723 | the footer's amount column; FinancePayments.TotalNetColumns relates it to the net |
| FinancePayments.TotalCommission | src/components/FinancePaymentsContent.tsx:724 | the footer's commission column; FinancePayments.TotalNetColumns relates it to the net |
| FinancePayments.TotalDeductions | src/components/FinancePaymentsContent.tsx:722-727 | the footer's discounts and penalties; FinancePayments.TotalNetColumns relates them to the net |
| FinancePayments.TotalNet | src/components/FinancePaymentsContent.tsx:726 | the footer's net; FinancePayments.TotalNetColumns proves it is the amount less commission, discounts and penalties, and FinancePayments.TotalNetMatchesRows when it equals the rows' nets |
| FinancePayments.TotalNetColumns | src/components/FinancePaymentsContent.tsx:722-727 | the footer's net is its amount column less its commission column, the discounts and the penalties |
| FinancePayments.TotalNetMatchesRows | src/components/FinancePaymentsContent.tsx:716-726 | the footer's net equals the sum of the rows' nets whenever no row shows a net amount of its own that differs from its components |
| FinancePayments.NetAmountIgnoredInTotal | src/components/FinancePaymentsContent.tsx:716-726 | a row with amount 100, commission 10 and its own net of 85 shows 85 while the footer counts 90 |
| FinancePayments.RemainingDays | src/components/FinancePaymentsContent.tsx:213-222 | no payout date gives no count; otherwise the count is the payout day less today |
| FinancePayments.RowOverdue | src/components/FinancePaymentsContent.tsx:547-548 | the row's overdue mark; FinancePayments.OverdueMarkAndFilter proves every marked row passes the overdue filter, and that the filter also keeps one the row does not mark |
| FinancePayments.OverdueMarkAndFilter | src/components/FinancePaymentsContent.tsx:113-116 | a row marked overdue passes the overdue filter; the filter also keeps a payout due earlier today, which the row does not mark |
| FinancePayments.FinanceView.constructor | src/components/FinancePaymentsContent.tsx:72-76 | the page opens on page 1 with nothing expanded and no details loaded |
| FinancePayments.FinanceView.Prev | src/components/FinancePaymentsContent.tsx:754 | the previous button goes back one page but not below 1 |
| FinancePayments.FinanceView.Next | src/components/FinancePaymentsContent.tsx:751-795 | the next button goes forward one page but not past the last |
| FinancePayments.FinanceView.GoTo | src/components/FinancePaymentsContent.tsx:771-773 | a rendered page button moves to that page, which is within range |
| FinancePayments.FinanceView.ToggleExpand | src/components/FinancePaymentsContent.tsx:79-98 | an expanded order collapses; a collapsed one expands, fetching its details only when none are stored; a failing fetch changes nothing; the page stays the same |
| ProductSettings.FilteredProducts | src/components/ProductSettingsList.tsx:25-39 | the list keeps, in order, exactly the products whose name or SKU contains the term ignoring case, or whose barcode contains it as typed, and whose activity matches the status filter |
| ProductSettings.EmptySearch | src/components/ProductSettingsList.tsx:25-39 | with nothing typed the list is every product of the chosen status |
| ProductSettings.StatusPartition | src/components/ProductSettingsList.tsx:32-35 | the active and passive lists together are exactly as long as the list of all products |
| ProductSettings.FilterFuseCount | src/components/ProductSettingsList.tsx:32-37 | the active and passive filters split the all-products filter, for any search |
| ProductSettings.PageRows | src/components/ProductSettingsList.tsx:41-42 | the one-based page of 20 products; ProductSettings.PageSpec proves every page from 1 to the last holds one to twenty products in list order |
| ProductSettings.PageSpec | src/components/ProductSettingsList.tsx:41-42 | every page from 1 to the last holds between one and twenty products: positions (page − 1)·20 up to page·20 of the list |
| ProductSettings.PageButtons | src/components/ProductSettingsList.tsx:291-302 | the numbered buttons are pages 1, 2, … up to at most five and never more than there are pages |
| ProductSettings.PrevPage | src/components/ProductSettingsList.tsx:284 | the previous button goes back one page but never below 1 |
| ProductSettings.NextPage | src/components/ProductSettingsList.tsx:305-306 | as written: the next button goes forward one page but never past the page count, which is 0 for an empty list |
| ProductSettings.NextOnEmptyList | src/components/ProductSettingsList.tsx:305-306 | on an empty list, next moves from page 1 to page 0, and once 30 products are back that page shows none of them |
| ProductSettings.NextPageCorrected | src/components/ProductSettingsList.tsx:305 | corrected: the page never drops below 1, and from a real page it moves forward by one |
| ProductSettings.CorrectedNextShowsProducts | src/components/ProductSettingsList.tsx:305-306 | with the corrected button the page reached is never empty once the list has products again |
| ProductSettings.MarginInput | src/components/ProductSettingsList.tsx:239-247 | the margin after typing; ProductSettings.PercentOf, ProductSettings.Unreadable and ProductSettings.EmptyClears prove its three outcomes |
| ProductSettings.PercentOf | src/components/ProductSettingsList.tsx:240-244 | whenever the normalised text reads as a number, the stored margin is that number divided by 100 |
| ProductSettings.PercentOfParsed | src/components/ProductSettingsList.tsx:241-244 | the same, for a given parsed value |
| ProductSettings.Unreadable | src/components/ProductSettingsList.tsx:243-247 | text that does not read as a number keeps the stored margin, except an empty field, which clears it |
| ProductSettings.EmptyClears | src/components/ProductSettingsList.tsx:245-246 | an emptied field clears the margin |
| ProductSettings.BlankKeeps | src/components/ProductSettingsList.tsx:241-247 | a field of blanks keeps the stored margin |
| ProductSettings.NormalisedComma | src/components/ProductSettingsList.tsx:241 | digits with a decimal comma normalise to the same digits with a point |
| ProductSettings.CommaDecimal | src/components/ProductSettingsList.tsx:241-244 | a percentage typed with a decimal comma is stored as that decimal over 100 |
| ProductSettings.WholePercent | src/components/ProductSettingsList.tsx:241-244 | the digits of a whole number n are stored as n/100 |
| ProductSettings.FractionShape | src/components/ProductSettingsList.tsx:237-238 | the text of a non-whole percentage is its whole part, a point and a non-empty fraction |
| ProductSettings.MarginText | src/components/ProductSettingsList.tsx:235-238 | the field's text for a margin; ProductSettings.WholeMarginRoundTrip proves a whole percentage reads back as the same margin |
| ProductSettings.WholeMarginRoundTrip | src/components/ProductSettingsList.tsx:237-244 | a margin of a whole percentage, shown in the field and read back, is the same margin |
| ProductSettings.FractionRoundTrip | src/components/ProductSettingsList.tsx:237-244 | a percentage shown as `ip,fp` in the field reads back as the decimal `ip.fp` over 100 |
| ProductSettings.DotIsDeleted | src/components/ProductSettingsList.tsx:241 | the point is taken for a thousands separator: "12.5" stores 1.25 while "12,5" stores 0.125 |
| ProductSettings.TwelvePointFive | src/components/ProductSettingsList.tsx:242 | `parseFloat("12.5")` is 12.5 |
| ProductSettings.TwelveFive | src/components/ProductSettingsList.tsx:241-242 | "12.5" normalises to "125", which reads as 125 |
| ProductSettings.EmptyParses | src/components/ProductSettingsList.tsx:242 | `parseFloat("")` is NaN |
| Wholesalers.DefaultShowsEveryMatch | src/components/WholesalersContent.tsx:22-43 | the page opens on every status, so the products listed are, in order, exactly those the search matches |
| Wholesalers.OpensOnEverything | src/components/WholesalersContent.tsx:21-43 | with nothing typed and the opening status every product is listed |
| Wholesalers.PricesFor | src/components/WholesalersContent.tsx:145 | a card gets, in order, exactly the prices stored for its own product |
| Wholesalers.CardsDisjoint | src/components/WholesalersContent.tsx:145 | two different products share no price |
| Wholesalers.FindPrice | src/components/WholesalersContent.tsx:230 | no price is found exactly when none is at that wholesaler; a found price is one of the list at that wholesaler |
| Wholesalers.FindFirst | src/components/WholesalersContent.tsx:230 | the price found is the first one at that wholesaler, whatever follows it |
| Wholesalers.AvailableWholesalers | src/components/WholesalersContent.tsx:337 | the dropdown offers, in order, exactly the wholesalers with no price on the card |
| Wholesalers.OfferedOrPriced | src/components/WholesalersContent.tsx:337 | a wholesaler is offered exactly when it has no price on the card |
| Wholesalers.TargetWholesaler | src/components/WholesalersContent.tsx:227 | the wholesaler passed in, unless it is missing or empty, then the one chosen in the form |
| Wholesalers.SaveRequest | src/components/WholesalersContent.tsx:222-231 | the update names the product, the target wholesaler, the price passed in or else the typed one, the form's currency, and as old price the card's first price at that wholesaler, or none when it has none |
| Wholesalers.SaveEnabled | src/components/WholesalersContent.tsx:363 | whether the save button is enabled; Wholesalers.EnabledSaveNamesWholesaler proves what an enabled save sends |
| Wholesalers.EnabledSaveNamesWholesaler | src/components/WholesalersContent.tsx:361-363 | an enabled save button sends the chosen, non-empty wholesaler with the typed price |
| Wholesalers.NewWholesalerHasNoOldPrice | src/components/WholesalersContent.tsx:230 | saving for a wholesaler picked from the dropdown sends no old price |
| Wholesalers.OldPriceIsCardPrice | src/components/WholesalersContent.tsx:230 | saving for a wholesaler that has a price on the card sends its first such price as the old price |
| Payments.MatchesFilter | src/components/PaymentsContent.tsx:62 | the status filter; Payments.FilteredPackages proves the list keeps exactly the packages passing it and the search |
| Payments.FilteredPackages | src/components/PaymentsContent.tsx:61-68 | the list keeps, in order, exactly the packages of the chosen status whose order number, package id or customer name contains the search ignoring case |
| Payments.NoFieldsHidden | src/components/PaymentsContent.tsx:63-66 | a package with none of the three searched fields is never listed, not even with an empty search |
| Payments.EmptySearch | src/components/PaymentsContent.tsx:61-68 | with an empty search the list is every package of the chosen status that has at least one searched field |
| Payments.StatusSplit | src/components/PaymentsContent.tsx:62 | the paid and unpaid lists together are never longer than the list of all statuses |
| Payments.DaysLeft | src/components/PaymentsContent.tsx:377-378 | the day count is the due time less now in days, rounded up |
| Payments.Badge | src/components/PaymentsContent.tsx:374-379 | a package's badge; Payments.OverdueIffDayPassed proves it is overdue exactly when unpaid, dated and a whole day late, and Payments.NoBadgeWhenPaidOrUndated when there is none |
| Payments.OverdueIffDayPassed | src/components/PaymentsContent.tsx:374-379 | the badge reads overdue exactly when the package is unpaid, has a due date, and at least a whole day has passed since it |
| Payments.OverdueCount | src/components/PaymentsContent.tsx:379-397 | an overdue badge shows at least one day: the whole days late, rounded down |
| Payments.LessThanDayLate | src/components/PaymentsContent.tsx:377-397 | less than a day past the due time the badge still reads 0 days left |
| Payments.NoBadgeWhenPaidOrUndated | src/components/PaymentsContent.tsx:374 | a paid package, or one without a due date, has no badge |

## Left out

- Database reads and writes, the Trendyol HTTP API, Basic-auth header building and `revalidatePath` are left out. The answers of reads and requests are parameters. Writes are represented by the rows or counts they would store.
- Excel decoding (`XLSX.read`, `sheet_to_json`) and the pandas `read_excel`/`merge` internals are foreign library code. A sheet is a sequence of rows, each a map from column to cell, and the join is a key lookup.
- The server page files and the commission-tariffs page reader are left out: they fetch data, parse files with foreign code, persist to localStorage and render. `src/components/ReturnsContent.tsx` is only a tab switch and is left out too.
- React rendering, toasts, alerts, `confirm()`, `router.refresh`, loading flags and localStorage persistence are not modelled.
- `Promise.all` chunk fetching, the `setTimeout` throttle and async effects are not modelled. Fetches are treated as sequential and in order.
- Floating point is not modelled. Amounts are exact reals, so double rounding, Infinity and NaN propagation are absent, except where the code branches on NaN; there NaN is `None`.
- `toFixed`, `toLocaleString` and `Intl` currency formatting are left out; a price label is modelled by the number it shows.
- ProductAnalysis.Covers and ProductAnalysis.CommissionSpec: `getCommissionForPrice` (src/components/ProductAnalysisTable.tsx:390-391) reads each label back as text with `safeParsePrice`, and the model compares the label's number instead. So two effects are not captured. A limit label made with `toFixed(2)` compares at its value rounded to cents. A price-range label (`₺${range.min}`) whose number prints with exactly three decimals reads back a thousand times larger: "1.234" is taken as the thousands-separated 1234 (src/lib/calculation-utils.ts:206-209).
- Dates are integer milliseconds. `new Date(text)` parsing is a parameter. Days are counted in UTC: local time zones and daylight-saving shifts are not modelled.
- `getUSDExchangeRate`, `updateProductSettings`, `getRawMaterials`, `importFinanceOrdersExcel` and the other imported functions whose code is not shown are not part of this model.
- CalculationUtils.TrendyolProfit: requires both VAT rates to differ from −100 %. At −100 % the source divides by zero and returns Infinity or NaN.
- CalculationUtils.PriceFromTarget: carries the same requirement as `TrendyolProfit`.
- TrendyolCalculator.Round2: rounds halves upwards on exact reals. The contract states only that the result is within half a cent. Python's `round` on binary doubles (ties to even on the stored value) is not modelled.
- TrendyolCalculator.ProcessTrendyolData: the three file reads are given as results. Column presence follows each sheet's header, and the pandas dtype inference is not modelled.
- JsNumbers.StrictNumber: the contract states the blank-text case, and that a non-blank text it reads is read as `parseFloat` reads it. `Number` of hexadecimal, binary, octal, "Infinity" and exponent text is read as NaN, where JavaScript reads a number.
- JsNumbers.JsToNumber: text goes through StrictNumber and inherits its gap: hexadecimal, binary, octal, "Infinity" and exponent text read as NaN.
- JsNumbers.ParseFloat: reads the longest `digits[.digits]` prefix only. An exponent is not read, so `parseFloat("1e3")` gives 1 in the model and 1000 in JavaScript. "Infinity" gives NaN in the model and Infinity in JavaScript.
- JsNumbers.ParseInt: reads base 10 only. The `0x` prefix that `parseInt` accepts is not modelled.
- JsNumbers.NumberText: `String(x)` is modelled as the exact decimal expansion of the real, cut after 20 fraction digits. JavaScript's shortest round-trip double printing and exponent notation are not modelled.
- ProductSettings.WholeMarginRoundTrip: the display-then-parse round trip is proved exactly for whole percentages only. For other margins it is stated in two parts: `FractionShape` gives the text's shape and `FractionRoundTrip` reads that shape back. No single lemma covers every real margin.
- ProductSettings: negative margins and NaN typed into the field are not modelled. `handleUpdate`, which saves the margin to the database, is left out.
- ProductAnalysis: the localStorage persistence of scenarios and selections is not modelled. ProductAnalysis.ApplyCampaignsNonNegative assumes percentage campaigns of at most 100 %. A larger percentage makes the price negative, because the source clamps only amount reductions at 0.
- CommissionTariffs: the rendering of group rows and the saving of manual prices are left out.
- CommissionActions: a failed settlement request is an error text; the HTTP status inside the message is not modelled.
- Manufacturing: the random id and the creation time of a new entry are parameters. The `confirm()` before a delete is treated as accepted, and a failing database call leaves the lists unchanged. NaN from an emptied number field is not modelled. Unit factors cover the units the source lists; any other unit uses 1.
- Actions: `size > 0` is required by the paging functions, because the source divides by it. The quantity and stock fields read from the database are integers. The status cells of returns are text.
- Actions: the `maybeSingle` lookups are modelled as "found or not found"; a lookup error is not modelled. The `unpaid_count` query of the sync is left out.
- OrderImport.GroupRows: `parseDate` is a total function. An unparseable order or delivery date makes `toISOString()` throw the RangeError "Invalid time value" (src/lib/actions.ts:1494-1513), which aborts the whole import. That abort is not modelled, and neither is the same failure in OrderImport.ReadRow.
- PaymentMatching.PullTransactions: the `paid_at` and `transaction_date` conversions of the sync can throw the same RangeError on an unparseable `transactionDate`. That abort is not modelled, because those columns are not modelled. The same holds for PaymentMatching.ImportPaymentCounts and its `paid_at` from the Excel date.
- TrendyolCalculator.Assemble: the barcode is kept as the merged cell. `str(row['Barkod'])` turns it into text ("nan" for an empty cell, Python's float printing for a number), and that conversion is not modelled.
- Text.Lower: folds single-character capitals only: ASCII, Latin-1, Latin Extended-A (Turkish Ç Ğ Ö Ş Ü and I included), basic Greek and basic Cyrillic. 'İ', whose lower form has two characters, the final sigma and other scripts are not folded. The case-insensitive searches inherit this: CommissionTariffs.FilteredGroups, Manufacturing.FilteredCatalog, ReturnReasons.SearchRows, ProductSettings.FilteredProducts, Payments.FilteredPackages and the FinancePayments search.
- OrderImport: saving orders and items to the database and the processed counter of the save loop are left out.
- PaymentMatching: the `raw_data`, `paid_at` and amount columns of the writes are not modelled. The reference `EXCEL-<time>-<random>` of a row without one is not modelled either.
- ReturnReasons: the order in which JavaScript enumerates object keys is taken as insertion order, which holds for these non-numeric keys. `Array.prototype.sort` is modelled as a stable insertion sort, so equal rows keep their order.
- ReturnReasons: a quantity of 0 or a missing quantity counts as 1, as `|| 1` does; a negative quantity is counted as given.
- FinancePayments: the current page is not reset when a filter changes, as in the source. The loading indicator, the upload handlers, `formatCurrency` and the description column drawn from `raw_row_json` are not modelled.
- FinancePayments: an unparseable date is treated as absent.
- Wholesalers: the sync, add-wholesaler and delete handlers and the refresh after a save are left out. The date shown on a price is not modelled.
- Payments: `due_at` is given in milliseconds rather than parsed. The reset and import handlers and the summary statistics are left out.

## Findings

| source | as written | input that shows it | evidently intended | confidence | as-written member | corrected member |
|---|---|---|---|---|---|---|
| src/lib/actions.ts:1386-1436 | the payment import adds every package of a matched order to `matched`, and reports `unmatched` as `processed - matched` | one sheet row for order A1, which has two packages: processed 1, matched 2, unmatched −1 | count matched rows, so that matched and unmatched split the processed rows and unmatched is never negative | not executed | PaymentMatching.NegativeUnmatched | PaymentMatching.CorrectedCountsOnExample |
| src/components/ProductSettingsList.tsx:305-306 | the next button sets `Math.min(totalPages, page + 1)`, and `totalPages` is 0 for an empty list | an empty filter result, then a click on next: page 0; once 30 products match again, page 0 shows none of them | keep the page at 1 or more, so a non-empty list always shows products | not executed | ProductSettings.NextOnEmptyList | ProductSettings.CorrectedNextShowsProducts |
