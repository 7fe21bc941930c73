/** The offline price-tier script: the "Melontik" VAT-exclusive profit of a
    sale and the assembly of one product entry per row of the commission
    sheet left-joined with the advantage and plus sheets on the barcode. */
module TrendyolCalculator {
  import opened Wrappers
  import opened Seqs

  /** A spreadsheet cell: missing (NaN / empty), a number or text. A column
      that a row does not have at all is a key absent from the row's map. */
  datatype Cell = Missing | Num(x: real) | Text(s: string)

  type Row = map<string, Cell>

  /** A sheet: its column names and its rows. */
  datatype Table = Table(columns: seq<string>, rows: seq<Row>)

  /** The outcome of running Python code that may raise `TypeError` when a
      text cell reaches arithmetic. */
  datatype Outcome<+T> = Done(value: T) | TypeError

  const SaleVat: real := 1.10
  const CostVat: real := 1.10
  const ShippingVat: real := 1.20
  const CommissionVat: real := 1.20
  const ServiceVat: real := 1.20
  const StopajRate: real := 0.01
  const ServiceFee: real := 15.0

  /** `round(x, 2)`, halves upwards. */
  function Round2(x: real): (r: real)
    ensures -0.005 < r - x <= 0.005
  {
    (x * 100.0 + 0.5).Floor as real / 100.0
  }

  /** The net profit of a sale with every amount taken without its VAT. */
  function MelontikNet(sale: real, cost: real, shipping: real, rate: real): real {
    var saleNet := sale / SaleVat;
    saleNet - cost / CostVat - shipping / ShippingVat - sale * (rate / 100.0) / CommissionVat
      - ServiceFee / ServiceVat - saleNet * StopajRate
  }

  /** The profit percentage, measured against the VAT-exclusive sale. */
  function MelontikPct(sale: real, net: real): (r: real)
    ensures sale > 0.0 ==> r * (sale / SaleVat) == net * 100.0
    ensures sale <= 0.0 ==> r == 0.0
  {
    var saleNet := sale / SaleVat;
    if saleNet > 0.0 then net / saleNet * 100.0 else 0.0
  }

  /** `melontik_profit_calc(sale_price, cost, shipping, comm_rate)` on cells.
      A missing (NaN) sale passes the `sale_price <= 0` guard; its profit is
      NaN and, since `sale_net > 0` fails for NaN, its percentage is 0.
      OfferFor and the tier loop never pass a missing sale. */
  function MelontikProfit(sale: Cell, cost: Cell, shipping: Cell, rate: Cell): (r: Outcome<(Cell, Cell)>)
    ensures sale.Num? && sale.x <= 0.0 ==> r == Done((Num(0.0), Num(0.0)))
    ensures sale.Text? ==> r == TypeError
    ensures !(sale.Num? && sale.x <= 0.0) && (cost.Text? || shipping.Text? || rate.Text?) ==> r == TypeError
    ensures sale.Missing? && !(cost.Text? || shipping.Text? || rate.Text?) ==> r == Done((Missing, Num(0.0)))
    ensures sale.Num? && sale.x > 0.0 && !(cost.Text? || shipping.Text? || rate.Text?) && (cost.Missing? || shipping.Missing? || rate.Missing?) ==>
              r == Done((Missing, Missing))
    ensures sale.Num? && sale.x > 0.0 && cost.Num? && shipping.Num? && rate.Num? ==>
              r.Done? && r.value.0.Num? && r.value.1.Num? &&
              -0.005 < r.value.0.x - MelontikNet(sale.x, cost.x, shipping.x, rate.x) <= 0.005 &&
              -0.005 < r.value.1.x - MelontikPct(sale.x, MelontikNet(sale.x, cost.x, shipping.x, rate.x)) <= 0.005
  {
    if sale.Text? then TypeError
    else if sale.Num? && sale.x <= 0.0 then Done((Num(0.0), Num(0.0)))
    else if cost.Text? || shipping.Text? || rate.Text? then TypeError
    else if sale.Missing? then Done((Missing, Num(0.0)))
    else if cost.Missing? || shipping.Missing? || rate.Missing? then Done((Missing, Missing))
    else
      var net := MelontikNet(sale.x, cost.x, shipping.x, rate.x);
      Done((Num(Round2(net)), Num(Round2(MelontikPct(sale.x, net)))))
  }

  /** The worked example: a 110 sale of a 55 cost item with 24 shipping at 10%
      commission leaves 7.33, which is 7.33% of the 100 VAT-exclusive sale. */
  lemma MelontikExample()
    ensures MelontikNet(110.0, 55.0, 24.0, 10.0) == 22.0 / 3.0
    ensures MelontikProfit(Num(110.0), Num(55.0), Num(24.0), Num(10.0)) == Done((Num(7.33), Num(7.33)))
  {
    var net := MelontikNet(110.0, 55.0, 24.0, 10.0);
    assert net == 22.0 / 3.0;
    assert MelontikPct(110.0, net) == net;
    assert (net * 100.0 + 0.5).Floor == 733;
  }

  // ---------------------------------------------------------------------
  // Left joins on the barcode

  const Key: string := "Barkod"

  /** The name a right-hand column gets in the joined sheet. */
  function Renamed(c: string, leftColumns: seq<string>, suffix: string): string {
    if c in leftColumns then c + suffix else c
  }

  /** The right-hand columns, renamed, in their order; the key appears once. */
  function JoinedColumns(rightColumns: seq<string>, leftColumns: seq<string>, suffix: string): (r: seq<string>)
    ensures |r| <= |rightColumns|
  {
    if rightColumns == [] then []
    else
      (if rightColumns[0] == Key then [] else [Renamed(rightColumns[0], leftColumns, suffix)])
      + JoinedColumns(rightColumns[1..], leftColumns, suffix)
  }

  /** The cell a right-hand column contributes: the matched row's cell, or a
      missing cell when nothing matched or the matched row lacks the column. */
  function RightCell(match_: Option<Row>, c: string): Cell {
    if match_.Some? && c in match_.value then match_.value[c] else Missing
  }

  /** No other right-hand column is renamed to the name `c` gets. */
  predicate RenamedOnce(rightColumns: seq<string>, leftColumns: seq<string>, suffix: string, c: string) {
    forall d :: d in rightColumns && d != Key && Renamed(d, leftColumns, suffix) == Renamed(c, leftColumns, suffix) ==> d == c
  }

  /** No right-hand column is renamed to `name`. */
  predicate NotRenamedTo(rightColumns: seq<string>, leftColumns: seq<string>, suffix: string, name: string) {
    forall d :: d in rightColumns && d != Key ==> Renamed(d, leftColumns, suffix) != name
  }

  /** A left row extended with the right-hand columns of `match`, or with
      missing cells when nothing matched: each right-hand column's cell is
      copied under its renamed column, and the left cells no right-hand
      column is renamed to are kept. */
  function JoinRow(acc: Row, rightColumns: seq<string>, leftColumns: seq<string>, suffix: string,
                   match_: Option<Row>): (r: Row)
    ensures acc.Keys <= r.Keys
    ensures forall c :: c in rightColumns && c != Key ==> Renamed(c, leftColumns, suffix) in r
    ensures forall c :: c in rightColumns && c != Key && RenamedOnce(rightColumns, leftColumns, suffix, c) ==>
              r[Renamed(c, leftColumns, suffix)] == RightCell(match_, c)
    ensures forall name :: name in acc && NotRenamedTo(rightColumns, leftColumns, suffix, name) ==> r[name] == acc[name]
    decreases |rightColumns|
  {
    if rightColumns == [] then acc
    else
      var c := rightColumns[0];
      var rest := rightColumns[1..];
      var next := if c == Key then acc else acc[Renamed(c, leftColumns, suffix) := RightCell(match_, c)];
      var r := JoinRow(next, rest, leftColumns, suffix, match_);
      assert forall d :: d in rest ==> d in rightColumns;
      assert forall e :: e in rightColumns && e != Key && RenamedOnce(rightColumns, leftColumns, suffix, e) ==>
               r[Renamed(e, leftColumns, suffix)] == RightCell(match_, e) by {
        forall e | e in rightColumns && e != Key && RenamedOnce(rightColumns, leftColumns, suffix, e)
          ensures r[Renamed(e, leftColumns, suffix)] == RightCell(match_, e)
        {
          if e in rest {
            assert RenamedOnce(rest, leftColumns, suffix, e);
          } else {
            assert e == c;
            assert NotRenamedTo(rest, leftColumns, suffix, Renamed(c, leftColumns, suffix));
          }
        }
      }
      assert forall name :: name in acc && NotRenamedTo(rightColumns, leftColumns, suffix, name) ==> r[name] == acc[name] by {
        forall name | name in acc && NotRenamedTo(rightColumns, leftColumns, suffix, name)
          ensures r[name] == acc[name]
        {
          assert NotRenamedTo(rest, leftColumns, suffix, name);
        }
      }
      r
  }

  predicate SameKey(l: Row, r: Row) {
    Key in l && Key in r && l[Key] == r[Key]
  }

  /** The right rows whose key equals the left row's, in order. */
  function Matches(l: Row, right: Table): seq<Row> {
    Filter(right.rows, (m: Row) => SameKey(l, m))
  }

  /** The right row a left row is joined with when right keys are unique. */
  function MatchOf(l: Row, right: Table): (m: Option<Row>)
    ensures m.Some? ==> m.value in right.rows && SameKey(l, m.value)
    ensures m.None? ==> forall i :: 0 <= i < |right.rows| ==> !SameKey(l, right.rows[i])
  {
    var matches := Matches(l, right);
    if matches == [] then None else Some(matches[0])
  }

  /** The rows a left row turns into: one per matching right row, in order,
      or the row itself with missing right-hand cells. */
  function JoinOne(l: Row, right: Table, leftColumns: seq<string>, suffix: string): (r: seq<Row>)
    ensures |r| >= 1
  {
    var matches := Matches(l, right);
    if matches == [] then [JoinRow(l, right.columns, leftColumns, suffix, None)]
    else seq(|matches|, k requires 0 <= k < |matches| => JoinRow(l, right.columns, leftColumns, suffix, Some(matches[k])))
  }

  function JoinRows(lefts: seq<Row>, right: Table, leftColumns: seq<string>, suffix: string): (r: seq<Row>)
    ensures |r| >= |lefts|
  {
    if lefts == [] then []
    else JoinOne(lefts[0], right, leftColumns, suffix) + JoinRows(lefts[1..], right, leftColumns, suffix)
  }

  /** `left.merge(right, on='Barkod', how='left', suffixes=('', suffix))` */
  function LeftJoin(left: Table, right: Table, suffix: string): Table {
    Table(left.columns + JoinedColumns(right.columns, left.columns, suffix),
          JoinRows(left.rows, right, left.columns, suffix))
  }

  /** The right sheet has at most one row per key value. */
  predicate UniqueKeys(t: Table) {
    forall i, j :: 0 <= i < j < |t.rows| ==> !(Key in t.rows[i] && SameKey(t.rows[i], t.rows[j]))
  }

  lemma {:induction false} FilterUnique(rows: seq<Row>, l: Row)
    requires forall i, j :: 0 <= i < j < |rows| ==> !(Key in rows[i] && SameKey(rows[i], rows[j]))
    ensures |Filter(rows, (m: Row) => SameKey(l, m))| <= 1
  {
    if rows != [] {
      var f := (m: Row) => SameKey(l, m);
      FilterUnique(rows[1..], l);
      if f(rows[0]) {
        forall k | 0 <= k < |rows[1..]| ensures !f(rows[1..][k]) {
          assert rows[1..][k] == rows[k + 1];
          assert !(Key in rows[0] && SameKey(rows[0], rows[k + 1]));
        }
        FilterNone(rows[1..], f);
      }
    }
  }

  /** With unique keys on the right, a left join keeps every left row exactly
      once, in order: row k is left row k joined with its matching right row,
      so it keeps the left cells no right-hand column is renamed to, and holds
      the matched cell, or a missing one, under each renamed right column. */
  lemma LeftJoinKeepsRows(left: Table, right: Table, suffix: string)
    requires UniqueKeys(right)
    ensures var rows := LeftJoin(left, right, suffix).rows;
            |rows| == |left.rows| &&
            forall k :: 0 <= k < |left.rows| ==>
              rows[k] == JoinRow(left.rows[k], right.columns, left.columns, suffix, MatchOf(left.rows[k], right))
    ensures var rows := LeftJoin(left, right, suffix).rows;
            forall k, name :: 0 <= k < |left.rows| && name in left.rows[k] &&
                              NotRenamedTo(right.columns, left.columns, suffix, name) ==>
              name in rows[k] && rows[k][name] == left.rows[k][name]
    ensures var rows := LeftJoin(left, right, suffix).rows;
            forall k, c :: 0 <= k < |left.rows| && c in right.columns && c != Key &&
                           RenamedOnce(right.columns, left.columns, suffix, c) ==>
              rows[k][Renamed(c, left.columns, suffix)] == RightCell(MatchOf(left.rows[k], right), c)
  {
    JoinRowsUnique(left.rows, right, left.columns, suffix);
    forall k | 0 <= k < |left.rows|
      ensures LeftJoin(left, right, suffix).rows[k] ==
              JoinRow(left.rows[k], right.columns, left.columns, suffix, MatchOf(left.rows[k], right))
    {
      JoinOneUnique(left.rows[k], right, left.columns, suffix);
    }
  }

  /** With unique keys on the right, a left row turns into exactly one row:
      the row joined with its match. */
  lemma JoinOneUnique(l: Row, right: Table, leftColumns: seq<string>, suffix: string)
    requires UniqueKeys(right)
    ensures JoinOne(l, right, leftColumns, suffix) == [JoinRow(l, right.columns, leftColumns, suffix, MatchOf(l, right))]
  {
    FilterUnique(right.rows, l);
  }

  /** With unique keys on the right, row k of the join is the one row left
      row k turns into. */
  lemma {:induction false} JoinRowsUnique(lefts: seq<Row>, right: Table, leftColumns: seq<string>, suffix: string)
    requires UniqueKeys(right)
    ensures |JoinRows(lefts, right, leftColumns, suffix)| == |lefts|
    ensures forall k :: 0 <= k < |lefts| ==>
              [JoinRows(lefts, right, leftColumns, suffix)[k]] == JoinOne(lefts[k], right, leftColumns, suffix)
  {
    if lefts != [] {
      var one := JoinOne(lefts[0], right, leftColumns, suffix);
      var rest := JoinRows(lefts[1..], right, leftColumns, suffix);
      assert |one| == 1 by {
        FilterUnique(right.rows, lefts[0]);
      }
      JoinRowsUnique(lefts[1..], right, leftColumns, suffix);
      var all := JoinRows(lefts, right, leftColumns, suffix);
      assert all == one + rest;
      forall k | 0 <= k < |lefts|
        ensures [all[k]] == JoinOne(lefts[k], right, leftColumns, suffix)
      {
        if k > 0 {
          assert all[k] == rest[k - 1];
          assert lefts[k] == lefts[1..][k - 1];
        } else {
          assert [all[0]] == one;
        }
      }
    }
  }

  /** A left row whose key matches nothing gets missing cells in every
      right-hand column that no other column shares a name with. */
  lemma JoinRowNoMatch(l: Row, right: Table, leftColumns: seq<string>, suffix: string, c: string)
    requires forall i :: 0 <= i < |right.rows| ==> !SameKey(l, right.rows[i])
    requires c in right.columns && c != Key && RenamedOnce(right.columns, leftColumns, suffix, c)
    ensures MatchOf(l, right) == None
    ensures JoinRow(l, right.columns, leftColumns, suffix, MatchOf(l, right))[Renamed(c, leftColumns, suffix)] == Missing
  {
  }

  // ---------------------------------------------------------------------
  // Per-row assembly

  /** A price tier as the script emits it. */
  datatype Tier = Tier(price: Cell, rate: Cell, profit: Cell, pct: Cell)

  /** An advantage or plus tier, or "Veri Yok" when the sheet has no price. */
  datatype Offer = NoData | Offer(tier: Tier)

  datatype ProductEntry = ProductEntry(barcode: Cell, name: Cell, cost: Cell, barems: seq<Tier>,
                                       advantage: Offer, plus: Offer)

  /** `row.get(k, d)` */
  function Get(row: Row, k: string, d: Cell): (r: Cell)
    ensures k in row ==> r == row[k]
    ensures k !in row ==> r == d
  {
    if k in row then row[k] else d
  }

  function DigitChar(i: nat): char
    requires i <= 9
  {
    ('0' as int + i) as char
  }

  /** `f'{i}. Fiyat Aralığı'` */
  function PriceKey(i: nat): string
    requires i <= 9
  {
    [DigitChar(i)] + ". Fiyat Aralığı"
  }

  /** `f'{i}. Komisyon'` */
  function RateKey(i: nat): string
    requires i <= 9
  {
    [DigitChar(i)] + ". Komisyon"
  }

  /** Tier `i` is listed when both of its columns exist and hold a value. */
  predicate Qualifies(row: Row, i: nat)
    requires i <= 9
  {
    PriceKey(i) in row && RateKey(i) in row && !row[PriceKey(i)].Missing? && !row[RateKey(i)].Missing?
  }

  function Then<T>(a: Outcome<seq<T>>, b: Outcome<seq<T>>): (r: Outcome<seq<T>>)
    ensures r.Done? <==> a.Done? && b.Done?
    ensures r.Done? ==> r.value == a.value + b.value
  {
    if a.Done? && b.Done? then Done(a.value + b.value) else TypeError
  }

  lemma ThenNil<T>(b: Outcome<seq<T>>)
    ensures Then(Done([]), b) == b
  {
    if b.Done? {
      assert [] + b.value == b.value;
    }
  }

  lemma ThenAssoc<T>(a: Outcome<seq<T>>, b: Outcome<seq<T>>, c: Outcome<seq<T>>)
    ensures Then(Then(a, b), c) == Then(a, Then(b, c))
  {
    if a.Done? && b.Done? && c.Done? {
      assert (a.value + b.value) + c.value == a.value + (b.value + c.value);
    }
  }

  /** The tiers the loop body for index `i` appends. */
  function TierAt(row: Row, i: nat, cost: Cell, shipping: Cell): (r: Outcome<seq<Tier>>)
    requires i <= 9
    ensures !Qualifies(row, i) ==> r == Done([])
    ensures Qualifies(row, i) ==> (r.TypeError? <==> MelontikProfit(row[PriceKey(i)], cost, shipping, row[RateKey(i)]).TypeError?)
    ensures Qualifies(row, i) && r.Done? ==> |r.value| == 1 && TierOf(row, i, cost, shipping, r.value[0])
  {
    if Qualifies(row, i) then
      match MelontikProfit(row[PriceKey(i)], cost, shipping, row[RateKey(i)])
      case TypeError => TypeError
      case Done(pp) => Done([Tier(row[PriceKey(i)], row[RateKey(i)], pp.0, pp.1)])
    else Done([])
  }

  /** The tiers for indices `i` to 4. */
  function BaremsFrom(row: Row, i: nat, cost: Cell, shipping: Cell): Outcome<seq<Tier>>
    requires 1 <= i <= 5
    decreases 5 - i
  {
    if i == 5 then Done([]) else Then(TierAt(row, i, cost, shipping), BaremsFrom(row, i + 1, cost, shipping))
  }

  /** The indices from `i` to 4 whose tier qualifies, ascending. */
  function QualifyingFrom(row: Row, i: nat): (r: seq<nat>)
    requires 1 <= i <= 5
    ensures forall k :: 0 <= k < |r| ==> i <= r[k] <= 4 && Qualifies(row, r[k])
    ensures forall k, l :: 0 <= k < l < |r| ==> r[k] < r[l]
    ensures forall j :: i <= j <= 4 && Qualifies(row, j) ==> j in r
    ensures |r| <= 5 - i
    decreases 5 - i
  {
    if i == 5 then [] else (if Qualifies(row, i) then [i] else []) + QualifyingFrom(row, i + 1)
  }

  /** The tier of qualifying index `j`: its price and rate cells with the
      profit and percentage `melontik_profit_calc` gives for them. */
  predicate TierOf(row: Row, j: nat, cost: Cell, shipping: Cell, t: Tier)
    requires j <= 9 && Qualifies(row, j)
  {
    var m := MelontikProfit(row[PriceKey(j)], cost, shipping, row[RateKey(j)]);
    m.Done? && t == Tier(row[PriceKey(j)], row[RateKey(j)], m.value.0, m.value.1)
  }

  /** `ts` holds, position by position, the tier of each index of `q`. */
  predicate TiersOf(row: Row, q: seq<nat>, cost: Cell, shipping: Cell, ts: seq<Tier>) {
    |ts| == |q| && forall k :: 0 <= k < |q| ==> q[k] <= 9 && Qualifies(row, q[k]) && TierOf(row, q[k], cost, shipping, ts[k])
  }

  lemma TiersOfCons(row: Row, j: nat, q: seq<nat>, cost: Cell, shipping: Cell, t: Tier, ts: seq<Tier>)
    requires j <= 9 && Qualifies(row, j) && TierOf(row, j, cost, shipping, t)
    requires TiersOf(row, q, cost, shipping, ts)
    ensures TiersOf(row, [j] + q, cost, shipping, [t] + ts)
  {
    forall k | 0 < k < |q| + 1
      ensures ([j] + q)[k] == q[k - 1] && ([t] + ts)[k] == ts[k - 1]
    {
    }
  }

  /** The tier list holds one tier per qualifying index, in ascending index
      order, carrying that index's price and rate cells and the profit and
      percentage computed from them. */
  lemma {:induction false} BaremsAreQualifying(row: Row, i: nat, cost: Cell, shipping: Cell)
    requires 1 <= i <= 5
    requires BaremsFrom(row, i, cost, shipping).Done?
    ensures TiersOf(row, QualifyingFrom(row, i), cost, shipping, BaremsFrom(row, i, cost, shipping).value)
    decreases 5 - i
  {
    if i < 5 {
      BaremsAreQualifying(row, i + 1, cost, shipping);
      var here: seq<Tier> := TierAt(row, i, cost, shipping).value;
      var rest: seq<Tier> := BaremsFrom(row, i + 1, cost, shipping).value;
      var qr := QualifyingFrom(row, i + 1);
      assert BaremsFrom(row, i, cost, shipping).value == here + rest;
      if Qualifies(row, i) {
        assert here == [here[0]];
        TiersOfCons(row, i, qr, cost, shipping, here[0], rest);
        assert QualifyingFrom(row, i) == [i] + qr;
      } else {
        assert QualifyingFrom(row, i) == qr && here == [];
        assert here + rest == rest;
      }
    }
  }

  /** Tier `j`, when it qualifies, has arithmetic that does not raise. */
  predicate TierComputes(row: Row, j: nat, cost: Cell, shipping: Cell)
    requires j <= 9
  {
    Qualifies(row, j) ==> MelontikProfit(row[PriceKey(j)], cost, shipping, row[RateKey(j)]).Done?
  }

  /** The tiers are computed exactly when no qualifying tier's arithmetic
      raises. */
  lemma {:induction false} BaremsDone(row: Row, i: nat, cost: Cell, shipping: Cell)
    requires 1 <= i <= 5
    ensures BaremsFrom(row, i, cost, shipping).Done? <==> forall j :: i <= j <= 4 ==> TierComputes(row, j, cost, shipping)
    decreases 5 - i
  {
    if i < 5 {
      BaremsDone(row, i + 1, cost, shipping);
      assert TierAt(row, i, cost, shipping).Done? <==> TierComputes(row, i, cost, shipping);
      assert (forall j :: i <= j <= 4 ==> TierComputes(row, j, cost, shipping)) <==>
             TierComputes(row, i, cost, shipping) && forall j :: i + 1 <= j <= 4 ==> TierComputes(row, j, cost, shipping);
    }
  }

  lemma {:induction false} BaremsLength(row: Row, i: nat, cost: Cell, shipping: Cell)
    requires 1 <= i <= 5
    ensures BaremsFrom(row, i, cost, shipping).Done? ==> |BaremsFrom(row, i, cost, shipping).value| <= 5 - i
    decreases 5 - i
  {
    if i < 5 {
      BaremsLength(row, i + 1, cost, shipping);
    }
  }

  /** `process_trendyol_data`'s inner `for i in range(1, 5)` loop. */
  method BuildBarems(row: Row, cost: Cell, shipping: Cell) returns (out: Outcome<seq<Tier>>)
    ensures out == BaremsFrom(row, 1, cost, shipping)
    ensures out.Done? ==> |out.value| <= 4
  {
    var barems: seq<Tier> := [];
    var i := 1;
    ThenNil(BaremsFrom(row, 1, cost, shipping));
    while i <= 4
      invariant 1 <= i <= 5
      // stated under a quantifier so that the remaining tiers are unfolded
      // only where the proof needs them
      invariant forall k :: k == i ==> BaremsFrom(row, 1, cost, shipping) == Then(Done(barems), BaremsFrom(row, k, cost, shipping))
    {
      var t := TierAt(row, i, cost, shipping);
      ThenAssoc(Done(barems), t, BaremsFrom(row, i + 1, cost, shipping));
      if t.TypeError? {
        return TypeError;
      }
      barems := barems + t.value;
      i := i + 1;
    }
    assert BaremsFrom(row, i, cost, shipping) == Done([]);
    assert barems + [] == barems;
    out := Done(barems);
    BaremsLength(row, 1, cost, shipping);
  }

  /** An advantage or plus tier: computed only when the price column exists
      and holds a value; the default rate applies only when the rate column
      is absent. */
  function OfferFor(row: Row, priceKey: string, rateKey: string, defaultRate: real,
                    cost: Cell, shipping: Cell): (r: Outcome<Offer>)
    ensures priceKey !in row || row[priceKey].Missing? ==> r == Done(NoData)
    ensures priceKey in row && !row[priceKey].Missing? ==>
              r != Done(NoData) &&
              (r.TypeError? <==> MelontikProfit(row[priceKey], cost, shipping, Get(row, rateKey, Num(defaultRate))).TypeError?)
    ensures r.Done? && r.value.Offer? ==>
              r.value.tier.price == row[priceKey] &&
              r.value.tier.rate == (if rateKey in row then row[rateKey] else Num(defaultRate)) &&
              MelontikProfit(row[priceKey], cost, shipping, r.value.tier.rate) == Done((r.value.tier.profit, r.value.tier.pct))
  {
    if priceKey in row && !row[priceKey].Missing? then
      var rate := Get(row, rateKey, Num(defaultRate));
      match MelontikProfit(row[priceKey], cost, shipping, rate)
      case TypeError => TypeError
      case Done(pp) => Done(Offer(Tier(row[priceKey], rate, pp.0, pp.1)))
    else Done(NoData)
  }

  /** The product entry of one merged row, before its tiers. */
  function EntryOf(row: Row, barems: seq<Tier>): Outcome<ProductEntry> {
    var cost := Get(row, "Maliyet", Num(0.0));
    var shipping := Get(row, "Kargo", Num(45.0));
    var adv := OfferFor(row, "Avantajlı Fiyat", "Avantaj Oranı", 18.8, cost, shipping);
    var plus := OfferFor(row, "Plus Fiyat", "Plus Komisyon", 11.9, cost, shipping);
    if adv.TypeError? || plus.TypeError? then TypeError
    else Done(ProductEntry(Get(row, Key, Missing), Get(row, "Ürün Adı", Text("Tanımsız Ürün")), cost,
                           barems, adv.value, plus.value))
  }

  /** The entry of one merged row, or the error its arithmetic raises. */
  function Assemble(row: Row): (r: Outcome<ProductEntry>)
    ensures r.Done? ==> r.value.name == (if "Ürün Adı" in row then row["Ürün Adı"] else Text("Tanımsız Ürün"))
    ensures r.Done? ==> r.value.cost == (if "Maliyet" in row then row["Maliyet"] else Num(0.0))
    ensures r.Done? ==> |r.value.barems| <= 4
    ensures var cost, shipping := Get(row, "Maliyet", Num(0.0)), Get(row, "Kargo", Num(45.0));
            var barems := BaremsFrom(row, 1, cost, shipping);
            var adv := OfferFor(row, "Avantajlı Fiyat", "Avantaj Oranı", 18.8, cost, shipping);
            var plus := OfferFor(row, "Plus Fiyat", "Plus Komisyon", 11.9, cost, shipping);
            (r.TypeError? <==> barems.TypeError? || adv.TypeError? || plus.TypeError?) &&
            (r.Done? ==> r.value.barcode == Get(row, Key, Missing) && r.value.barems == barems.value &&
                         r.value.advantage == adv.value && r.value.plus == plus.value)
  {
    var cost := Get(row, "Maliyet", Num(0.0));
    var shipping := Get(row, "Kargo", Num(45.0));
    var barems := BaremsFrom(row, 1, cost, shipping);
    if barems.TypeError? then TypeError
    else
      BaremsLength(row, 1, cost, shipping);
      EntryOf(row, barems.value)
  }

  /** The entries of the rows, in order, or the first error. */
  function AssembleAll(rows: seq<Row>): (r: Outcome<seq<ProductEntry>>)
  {
    if rows == [] then Done([])
    else
      var init := AssembleAll(rows[..|rows| - 1]);
      var last := Assemble(rows[|rows| - 1]);
      if init.Done? && last.Done? then Done(init.value + [last.value]) else TypeError
  }

  /** Exactly one entry per merged row, in row order. */
  lemma {:induction false} AssembleAllRows(rows: seq<Row>)
    requires AssembleAll(rows).Done?
    ensures |AssembleAll(rows).value| == |rows|
    ensures forall k :: 0 <= k < |rows| ==> Assemble(rows[k]) == Done(AssembleAll(rows).value[k])
  {
    if rows != [] {
      var init := rows[..|rows| - 1];
      AssembleAllRows(init);
      forall k | 0 <= k < |rows| - 1 ensures rows[k] == init[k] { }
    }
  }

  /** What `process_trendyol_data` returns. */
  datatype ProcessResult = ReadError(message: string) | Products(entries: seq<ProductEntry>) | Raised

  function ErrorMessage(e: string): string {
    "Dosya Okuma Hatası: " + e
  }

  /** The merged sheet the row loop walks, or `None` when a sheet has no
      barcode column (the merge raises `KeyError`). */
  function Merged(comm: Table, adv: Table, plus: Table): Option<Table> {
    if Key in comm.columns && Key in adv.columns && Key in plus.columns then
      Some(LeftJoin(LeftJoin(comm, adv, "_adv"), plus, "_plus"))
    else None
  }

  /** `process_trendyol_data`: the files are read by the caller; `files` is
      the sheets or the reader's error message. */
  method ProcessTrendyolData(files: Result<(Table, Table, Table), string>) returns (out: ProcessResult)
    ensures files.Err? ==> out == ReadError(ErrorMessage(files.error))
    ensures files.Ok? && Merged(files.value.0, files.value.1, files.value.2).None? ==> out == Raised
    ensures files.Ok? && Merged(files.value.0, files.value.1, files.value.2).Some? ==>
      var rows := Merged(files.value.0, files.value.1, files.value.2).value.rows;
      (out.Products? <==> AssembleAll(rows).Done?) &&
      (out.Products? ==> out.entries == AssembleAll(rows).value) &&
      (out.Raised? <==> AssembleAll(rows).TypeError?)
  {
    if files.Err? {
      return ReadError(ErrorMessage(files.error));
    }
    var (comm, adv, plus) := files.value;
    var merged := Merged(comm, adv, plus);
    if merged.None? {
      return Raised;
    }
    var rows := merged.value.rows;
    var finalProducts: seq<ProductEntry> := [];
    var n := 0;
    while n < |rows|
      invariant 0 <= n <= |rows|
      invariant AssembleAll(rows[..n]) == Done(finalProducts)
    {
      var row := rows[n];
      var cost := Get(row, "Maliyet", Num(0.0));
      var shipping := Get(row, "Kargo", Num(45.0));
      var barems := BuildBarems(row, cost, shipping);
      AssembleAllSnoc(rows, n);
      AssembleSteps(row);
      if barems.TypeError? {
        AssembleAllPrefixError(rows, n + 1);
        return Raised;
      }
      var entry := EntryOf(row, barems.value);
      if entry.TypeError? {
        AssembleAllPrefixError(rows, n + 1);
        return Raised;
      }
      finalProducts := finalProducts + [entry.value];
      n := n + 1;
    }
    assert rows[..n] == rows;
    return Products(finalProducts);
  }

  lemma AssembleAllSnoc(rows: seq<Row>, n: nat)
    requires n < |rows|
    ensures AssembleAll(rows[..n + 1]) ==
      if AssembleAll(rows[..n]).Done? && Assemble(rows[n]).Done?
      then Done(AssembleAll(rows[..n]).value + [Assemble(rows[n]).value]) else TypeError
  {
    assert rows[..n + 1][..n] == rows[..n];
  }

  lemma AssembleSteps(row: Row)
    ensures Assemble(row) ==
      var barems := BaremsFrom(row, 1, Get(row, "Maliyet", Num(0.0)), Get(row, "Kargo", Num(45.0)));
      if barems.TypeError? then TypeError else EntryOf(row, barems.value)
  {
  }

  /** Once a prefix of the rows raises, so do all the rows. */
  lemma {:induction false} AssembleAllPrefixError(rows: seq<Row>, n: nat)
    requires n <= |rows| && AssembleAll(rows[..n]).TypeError?
    ensures AssembleAll(rows).TypeError?
    decreases |rows| - n
  {
    if n < |rows| {
      assert rows[..n + 1][..n] == rows[..n];
      AssembleAllPrefixError(rows, n + 1);
    } else {
      assert rows[..n] == rows;
    }
  }
}
