/** The return-reason analysis table: returned quantities per product and
    reason, flattened into rows, searched and sorted. */
module ReturnReasons {
  import opened Seqs
  import opened Text
  import Grouping

  /** A returned order line. A quantity of 0 stands for a missing one. */
  datatype ReasonLine = ReasonLine(productName: string, barcode: string, quantity: int)

  /** A returned order; "" stands for an order without an extracted reason. */
  datatype ReasonOrder = ReasonOrder(lines: seq<ReasonLine>, extractedReturnReason: string)

  const Unspecified := "Belirtilmemiş"

  /** One line as the aggregation sees it: product, barcode, the order's
      reason and the counted quantity. */
  datatype Entry = Entry(productName: string, barcode: string, reason: string, quantity: int)

  /** `order.extractedReturnReason || 'Belirtilmemiş'` and `line.quantity || 1` */
  function EntryOf(o: ReasonOrder, line: ReasonLine): (e: Entry)
    ensures e.reason == (if o.extractedReturnReason != "" then o.extractedReturnReason else Unspecified)
    ensures e.quantity == (if line.quantity != 0 then line.quantity else 1)
    ensures e.productName == line.productName && e.barcode == line.barcode
  {
    Entry(line.productName, line.barcode,
          if o.extractedReturnReason != "" then o.extractedReturnReason else Unspecified,
          if line.quantity != 0 then line.quantity else 1)
  }

  function LineEntries(o: ReasonOrder): (r: seq<Entry>)
    ensures |r| == |o.lines| && forall j :: 0 <= j < |r| ==> r[j] == EntryOf(o, o.lines[j])
  {
    seq(|o.lines|, j requires 0 <= j < |o.lines| => EntryOf(o, o.lines[j]))
  }

  /** Every line of every order, in order. */
  function EntriesOf(orders: seq<ReasonOrder>): seq<Entry> {
    if orders == [] then [] else EntriesOf(orders[..|orders| - 1]) + LineEntries(orders[|orders| - 1])
  }

  function Name(e: Entry): string {
    e.productName
  }

  function Reason(e: Entry): string {
    e.reason
  }

  function Barcode(e: Entry): string {
    e.barcode
  }

  /** The statistics of one product: its barcodes as a set in insertion
      order, its count per reason, the reasons in insertion order, and its
      total. */
  datatype ProductStats = ProductStats(productName: string, barcodes: seq<string>, reasons: map<string, int>,
                                       reasonOrder: seq<string>, total: int)

  /** A product before its first line. */
  function NoStats(name: string): ProductStats {
    ProductStats(name, [], map[], [], 0)
  }

  /** What one line of the product does to its statistics. */
  function ProductStep(p: ProductStats, e: Entry): ProductStats {
    ProductStats(
      p.productName,
      if e.barcode in p.barcodes then p.barcodes else p.barcodes + [e.barcode],
      p.reasons[e.reason := (if e.reason in p.reasons then p.reasons[e.reason] else 0) + e.quantity],
      if e.reason in p.reasonOrder then p.reasonOrder else p.reasonOrder + [e.reason],
      p.total + e.quantity)
  }

  /** What one line does to the statistics. */
  function AddEntry(stats: map<string, ProductStats>, e: Entry): map<string, ProductStats> {
    stats[e.productName := ProductStep(if e.productName in stats then stats[e.productName] else NoStats(e.productName), e)]
  }

  /** The `stats` record after the lines. */
  function StatsOf(entries: seq<Entry>): map<string, ProductStats> {
    if entries == [] then map[] else AddEntry(StatsOf(entries[..|entries| - 1]), entries[|entries| - 1])
  }

  /** One line: the body of the inner `forEach`. */
  method Record(stats: map<string, ProductStats>, e: Entry) returns (stats': map<string, ProductStats>)
    ensures stats' == AddEntry(stats, e)
  {
    var p;
    if e.productName !in stats {
      p := ProductStats(e.productName, [], map[], [], 0);
    } else {
      p := stats[e.productName];
    }
    if e.barcode !in p.barcodes {
      p := p.(barcodes := p.barcodes + [e.barcode]);
    }
    var count := if e.reason in p.reasons then p.reasons[e.reason] else 0;
    p := p.(reasons := p.reasons[e.reason := count + e.quantity]);
    if e.reason !in p.reasonOrder {
      p := p.(reasonOrder := p.reasonOrder + [e.reason]);
    }
    p := p.(total := p.total + e.quantity);
    stats' := stats[e.productName := p];
  }

  /** The aggregation of `analysisData`: the nested loops over orders and
      their lines, and the product order in which `Object.values` lists
      them. */
  method Aggregate(orders: seq<ReasonOrder>) returns (stats: map<string, ProductStats>, products: seq<string>)
    ensures stats == StatsOf(EntriesOf(orders))
    ensures products == Grouping.InsertionOrder(EntriesOf(orders), Name)
  {
    stats, products := map[], [];
    var i := 0;
    while i < |orders|
      invariant 0 <= i <= |orders|
      invariant stats == StatsOf(EntriesOf(orders[..i]))
      invariant products == Grouping.InsertionOrder(EntriesOf(orders[..i]), Name)
    {
      EntriesOfSnoc(orders, i);
      stats, products := RecordOrder(stats, products, EntriesOf(orders[..i]), orders[i]);
      i := i + 1;
    }
    assert orders[..i] == orders;
  }

  lemma EntriesOfSnoc(orders: seq<ReasonOrder>, i: nat)
    requires i < |orders|
    ensures EntriesOf(orders[..i + 1]) == EntriesOf(orders[..i]) + LineEntries(orders[i])
  {
    assert orders[..i + 1][..i] == orders[..i];
  }

  /** The lines of one order: the inner `forEach`. */
  method RecordOrder(stats: map<string, ProductStats>, products: seq<string>, ghost done: seq<Entry>, o: ReasonOrder)
    returns (stats': map<string, ProductStats>, products': seq<string>)
    requires stats == StatsOf(done) && products == Grouping.InsertionOrder(done, Name)
    ensures stats' == StatsOf(done + LineEntries(o)) && products' == Grouping.InsertionOrder(done + LineEntries(o), Name)
  {
    stats', products' := stats, products;
    ghost var es := LineEntries(o);
    assert done + es[..0] == done;
    var j := 0;
    while j < |o.lines|
      invariant 0 <= j <= |o.lines| == |es|
      invariant stats' == StatsOf(done + es[..j]) && products' == Grouping.InsertionOrder(done + es[..j], Name)
    {
      var e := EntryOf(o, o.lines[j]);
      PrefixSnoc(done, es, j);
      stats', products' := RecordLine(stats', products', done + es[..j], e);
      j := j + 1;
    }
    assert es[..j] == es;
  }

  lemma PrefixSnoc(done: seq<Entry>, es: seq<Entry>, j: nat)
    requires j < |es|
    ensures done + es[..j + 1] == (done + es[..j]) + [es[j]]
  {
    assert es[..j + 1] == es[..j] + [es[j]];
  }

  /** One line, with the product order kept beside the statistics. */
  method RecordLine(stats: map<string, ProductStats>, products: seq<string>, ghost before: seq<Entry>, e: Entry)
    returns (stats': map<string, ProductStats>, products': seq<string>)
    requires stats == StatsOf(before) && products == Grouping.InsertionOrder(before, Name)
    ensures stats' == StatsOf(before + [e]) && products' == Grouping.InsertionOrder(before + [e], Name)
  {
    assert (before + [e])[..|before|] == before;
    StatsDomain(before, e.productName);
    products' := products;
    if e.productName !in stats {
      products' := products + [e.productName];
    }
    stats' := Record(stats, e);
  }

  /** A product has statistics exactly when one of its lines was seen, and
      the product order lists exactly those products. */
  lemma {:induction false} StatsDomain(entries: seq<Entry>, k: string)
    ensures k in StatsOf(entries) <==> k in Grouping.InsertionOrder(entries, Name)
    ensures k in StatsOf(entries) ==> StatsOf(entries)[k].productName == k
  {
    if entries != [] {
      StatsDomain(entries[..|entries| - 1], k);
    }
  }

  /** The returned quantity of some lines. */
  function SumQty(es: seq<Entry>): int {
    if es == [] then 0 else SumQty(es[..|es| - 1]) + es[|es| - 1].quantity
  }

  lemma SumQtySnoc(es: seq<Entry>, e: Entry)
    ensures SumQty(es + [e]) == SumQty(es) + e.quantity
  {
    assert (es + [e])[..|es|] == es;
  }

  /** The statistics of a product stated on its own lines: the barcodes and
      reasons of those lines without repeats, each reason's count the summed
      quantity of the lines with that reason, and the total their summed
      quantity. */
  ghost predicate DescribesLines(p: ProductStats, es: seq<Entry>) {
    && p.barcodes == Grouping.InsertionOrder(es, Barcode)
    && p.reasonOrder == Grouping.InsertionOrder(es, Reason)
    && (forall r :: r in p.reasons <==> r in p.reasonOrder)
    && (forall r :: r in p.reasons ==> p.reasons[r] == SumQty(Grouping.Members(es, Reason, r)))
    && p.total == SumQty(es)
  }

  lemma {:induction false} StatsSpec(entries: seq<Entry>, k: string)
    requires k in StatsOf(entries)
    ensures DescribesLines(StatsOf(entries)[k], Grouping.Members(entries, Name, k))
  {
    var init := entries[..|entries| - 1];
    var e := entries[|entries| - 1];
    if e.productName != k {
      StatsSpec(init, k);
      OtherProduct(entries, k);
    } else if k in StatsOf(init) {
      StatsSpec(init, k);
      SameProduct(entries);
    } else {
      FirstOfProduct(entries);
    }
  }

  lemma SameProduct(entries: seq<Entry>)
    requires entries != []
    requires var e := entries[|entries| - 1]; var init := entries[..|entries| - 1];
      e.productName in StatsOf(init) && DescribesLines(StatsOf(init)[e.productName], Grouping.Members(init, Name, e.productName))
    ensures var e := entries[|entries| - 1];
      DescribesLines(StatsOf(entries)[e.productName], Grouping.Members(entries, Name, e.productName))
  {
    var init := entries[..|entries| - 1];
    var e := entries[|entries| - 1];
    var es := Grouping.Members(init, Name, e.productName);
    assert Grouping.Members(entries, Name, e.productName) == es + [e];
    StatsStep(StatsOf(init)[e.productName], es, e);
  }

  lemma OtherProduct(entries: seq<Entry>, k: string)
    requires entries != []
    requires var init := entries[..|entries| - 1];
      entries[|entries| - 1].productName != k && k in StatsOf(init)
      && DescribesLines(StatsOf(init)[k], Grouping.Members(init, Name, k))
    ensures DescribesLines(StatsOf(entries)[k], Grouping.Members(entries, Name, k))
  {
    var init := entries[..|entries| - 1];
    var e := entries[|entries| - 1];
    assert StatsOf(entries) == AddEntry(StatsOf(init), e);
    assert StatsOf(entries)[k] == StatsOf(init)[k];
    assert Name(e) != k;
    assert Grouping.Members(entries, Name, k) == Grouping.Members(init, Name, k) + [];
    assert Grouping.Members(init, Name, k) + [] == Grouping.Members(init, Name, k);
  }

  lemma FirstOfProduct(entries: seq<Entry>)
    requires entries != [] && entries[|entries| - 1].productName !in StatsOf(entries[..|entries| - 1])
    ensures var e := entries[|entries| - 1];
      DescribesLines(StatsOf(entries)[e.productName], Grouping.Members(entries, Name, e.productName))
  {
    var init := entries[..|entries| - 1];
    var e := entries[|entries| - 1];
    var k := e.productName;
    StatsDomain(init, k);
    NoMembers(init, k);
    assert Grouping.Members(entries, Name, k) == [] + [e];
    StatsStep(NoStats(k), [], e);
  }

  lemma NoMembers(entries: seq<Entry>, k: string)
    requires k !in Grouping.InsertionOrder(entries, Name)
    ensures Grouping.Members(entries, Name, k) == []
  {
    Grouping.InsertionOrderDedup(entries, Name);
    Grouping.AbsentKeyNoMembers(entries, Name, k);
  }

  /** One more line of the product keeps the statistics describing its lines. */
  lemma StatsStep(p: ProductStats, es: seq<Entry>, e: Entry)
    requires DescribesLines(p, es)
    ensures DescribesLines(ProductStep(p, e), es + [e])
  {
    var q := ProductStep(p, e);
    assert (es + [e])[..|es|] == es;
    assert q.barcodes == Grouping.InsertionOrder(es + [e], Barcode);
    assert q.reasonOrder == Grouping.InsertionOrder(es + [e], Reason);
    SumQtySnoc(es, e);
    forall r | r in q.reasons
      ensures q.reasons[r] == SumQty(Grouping.Members(es + [e], Reason, r))
    {
      ReasonStep(p, es, e, r);
    }
  }

  lemma ReasonStep(p: ProductStats, es: seq<Entry>, e: Entry, r: string)
    requires DescribesLines(p, es)
    requires r in ProductStep(p, e).reasons
    ensures ProductStep(p, e).reasons[r] == SumQty(Grouping.Members(es + [e], Reason, r))
  {
    Grouping.MembersSnoc(es, Reason, e);
    var m := Grouping.Members(es, Reason, r);
    if r == e.reason {
      assert Grouping.Members(es + [e], Reason, r) == m + [e];
      SumQtySnoc(m, e);
      if r !in p.reasons {
        Grouping.InsertionOrderDedup(es, Reason);
        Grouping.AbsentKeyNoMembers(es, Reason, r);
      }
    } else {
      assert Grouping.Members(es + [e], Reason, r) == m;
    }
  }

  /** The summed quantity of the given reasons' lines. */
  function ReasonSums(reasons: seq<string>, es: seq<Entry>): int {
    if reasons == [] then 0
    else ReasonSums(reasons[..|reasons| - 1], es) + SumQty(Grouping.Members(es, Reason, reasons[|reasons| - 1]))
  }

  lemma {:induction false} ReasonSumsSnoc(reasons: seq<string>, es: seq<Entry>, e: Entry)
    requires Distinct(reasons)
    ensures ReasonSums(reasons, es + [e]) == ReasonSums(reasons, es) + (if e.reason in reasons then e.quantity else 0)
  {
    if reasons != [] {
      var init := reasons[..|reasons| - 1];
      var last := reasons[|reasons| - 1];
      assert Distinct(init);
      ReasonSumsSnoc(init, es, e);
      Grouping.MembersSnoc(es, Reason, e);
      var m := Grouping.Members(es, Reason, last);
      if e.reason == last {
        assert Grouping.Members(es + [e], Reason, last) == m + [e];
        SumQtySnoc(m, e);
        assert e.reason !in init;
      } else {
        assert Grouping.Members(es + [e], Reason, last) == m;
      }
      assert e.reason in reasons <==> e.reason in init || e.reason == last;
    }
  }

  /** The reasons partition a product's lines: the per-reason counts add up
      to the total. */
  lemma {:induction false} ReasonsPartition(es: seq<Entry>)
    ensures ReasonSums(Grouping.InsertionOrder(es, Reason), es) == SumQty(es)
  {
    if es != [] {
      var init := es[..|es| - 1];
      var e := es[|es| - 1];
      assert init + [e] == es;
      ReasonsPartition(init);
      var d := Grouping.InsertionOrder(init, Reason);
      Grouping.InsertionOrderDedup(init, Reason);
      ReasonSumsSnoc(d, init, e);
      SumQtySnoc(init, e);
      if e.reason !in d {
        NewReasonLast(init, e);
        ReasonSumsLast(d, e.reason, es);
        OnlyLineOfReason(init, e);
        assert ReasonSums(Grouping.InsertionOrder(es, Reason), es) == ReasonSums(d, es) + e.quantity;
      } else {
        assert Grouping.InsertionOrder(es, Reason) == d;
      }
    }
  }

  /** A reason not seen before goes last in the reason order. */
  lemma NewReasonLast(init: seq<Entry>, e: Entry)
    requires e.reason !in Grouping.InsertionOrder(init, Reason)
    ensures Grouping.InsertionOrder(init + [e], Reason) == Grouping.InsertionOrder(init, Reason) + [e.reason]
  {
    assert (init + [e])[..|init|] == init;
  }

  /** The line that brings a new reason is that reason's only line. */
  lemma OnlyLineOfReason(init: seq<Entry>, e: Entry)
    requires e.reason !in Grouping.InsertionOrder(init, Reason)
    ensures SumQty(Grouping.Members(init + [e], Reason, e.reason)) == e.quantity
  {
    Grouping.InsertionOrderDedup(init, Reason);
    Grouping.AbsentKeyNoMembers(init, Reason, e.reason);
    assert (init + [e])[..|init|] == init;
    assert Grouping.Members(init + [e], Reason, e.reason) == [] + [e];
    SumQtySnoc([], e);
  }

  lemma ReasonSumsLast(reasons: seq<string>, r: string, es: seq<Entry>)
    ensures ReasonSums(reasons + [r], es) == ReasonSums(reasons, es) + SumQty(Grouping.Members(es, Reason, r))
  {
    assert (reasons + [r])[..|reasons|] == reasons;
  }

  /** The per-reason counts of a product, in its reason order. */
  function CountSum(p: ProductStats, reasons: seq<string>): int
    requires forall r :: r in reasons ==> r in p.reasons
  {
    if reasons == [] then 0 else CountSum(p, reasons[..|reasons| - 1]) + p.reasons[reasons[|reasons| - 1]]
  }

  lemma {:induction false} CountSumIsReasonSums(p: ProductStats, reasons: seq<string>, es: seq<Entry>)
    requires forall r :: r in reasons ==> r in p.reasons && p.reasons[r] == SumQty(Grouping.Members(es, Reason, r))
    ensures CountSum(p, reasons) == ReasonSums(reasons, es)
  {
    if reasons != [] {
      CountSumIsReasonSums(p, reasons[..|reasons| - 1], es);
    }
  }

  /** Every product's total is the sum of its per-reason counts. */
  lemma TotalIsSumOfCounts(orders: seq<ReasonOrder>, k: string)
    requires k in StatsOf(EntriesOf(orders))
    ensures var p := StatsOf(EntriesOf(orders))[k];
      (forall r :: r in p.reasonOrder ==> r in p.reasons) && p.total == CountSum(p, p.reasonOrder)
  {
    var entries := EntriesOf(orders);
    var p := StatsOf(entries)[k];
    var es := Grouping.Members(entries, Name, k);
    StatsSpec(entries, k);
    ReasonsPartition(es);
    CountSumIsReasonSums(p, p.reasonOrder, es);
  }

  /** The barcode cell lists each barcode of the product's lines once. */
  lemma BarcodesDistinct(orders: seq<ReasonOrder>, k: string)
    requires k in StatsOf(EntriesOf(orders))
    ensures var p := StatsOf(EntriesOf(orders))[k];
      p.barcodes == Dedup(Grouping.KeysOf(Grouping.Members(EntriesOf(orders), Name, k), Barcode))
  {
    StatsSpec(EntriesOf(orders), k);
    Grouping.InsertionOrderDedup(Grouping.Members(EntriesOf(orders), Name, k), Barcode);
  }

  // ---------------------------------------------------------------------------
  // Flattening, search and order
  // ---------------------------------------------------------------------------

  datatype ReasonRow = ReasonRow(productName: string, barcode: string, reason: string, count: int, totalForProduct: int)

  function RowsForReasons(p: ProductStats, reasons: seq<string>): (rows: seq<ReasonRow>)
    requires forall r :: r in reasons ==> r in p.reasons
    ensures |rows| == |reasons|
    ensures forall i :: 0 <= i < |rows| ==>
              rows[i] == ReasonRow(p.productName, Join(p.barcodes, ", "), reasons[i], p.reasons[reasons[i]], p.total)
  {
    seq(|reasons|, i requires 0 <= i < |reasons| =>
      ReasonRow(p.productName, Join(p.barcodes, ", "), reasons[i], p.reasons[reasons[i]], p.total))
  }

  /** The rows of one product: one per reason, in its reason order. */
  function RowsFor(p: ProductStats): seq<ReasonRow>
    requires forall r :: r in p.reasonOrder ==> r in p.reasons
  {
    RowsForReasons(p, p.reasonOrder)
  }

  /** Statistics whose reason lists and products are consistent. */
  ghost predicate WellFormed(stats: map<string, ProductStats>, products: seq<string>) {
    && Distinct(products)
    && (forall k :: k in stats <==> k in products)
    && (forall k :: k in stats ==>
          (stats[k].productName == k && Distinct(stats[k].reasonOrder)
           && forall r :: r in stats[k].reasonOrder <==> r in stats[k].reasons))
  }

  /** `Object.values(stats).flatMap(...)` */
  function Flatten(stats: map<string, ProductStats>, products: seq<string>): seq<ReasonRow>
    requires forall k :: k in products ==> k in stats && forall r :: r in stats[k].reasonOrder ==> r in stats[k].reasons
  {
    if products == [] then []
    else Flatten(stats, products[..|products| - 1]) + RowsFor(stats[products[|products| - 1]])
  }

  /** The aggregation is well formed. */
  lemma AggregateWellFormed(orders: seq<ReasonOrder>)
    ensures WellFormed(StatsOf(EntriesOf(orders)), Grouping.InsertionOrder(EntriesOf(orders), Name))
  {
    var entries := EntriesOf(orders);
    Grouping.InsertionOrderDedup(entries, Name);
    forall k
      ensures k in StatsOf(entries) <==> k in Grouping.InsertionOrder(entries, Name)
    {
      StatsDomain(entries, k);
    }
    forall k | k in StatsOf(entries)
      ensures StatsOf(entries)[k].productName == k && Distinct(StatsOf(entries)[k].reasonOrder)
    {
      StatsDomain(entries, k);
      StatsSpec(entries, k);
      Grouping.InsertionOrderDedup(Grouping.Members(entries, Name, k), Reason);
    }
    forall k | k in StatsOf(entries)
      ensures forall r :: r in StatsOf(entries)[k].reasonOrder <==> r in StatsOf(entries)[k].reasons
    {
      StatsSpec(entries, k);
    }
  }

  /** The rows for product `k` and reason `r`. */
  function RowIs(k: string, r: string): ReasonRow -> bool {
    (x: ReasonRow) => x.productName == k && x.reason == r
  }

  /** `x` is the row the table shows for its product and reason: the
      product's joined barcodes, the reason's count and the product's total. */
  predicate RowOf(stats: map<string, ProductStats>, x: ReasonRow) {
    && x.productName in stats
    && x.reason in stats[x.productName].reasons
    && x.barcode == Join(stats[x.productName].barcodes, ", ")
    && x.count == stats[x.productName].reasons[x.reason]
    && x.totalForProduct == stats[x.productName].total
  }

  /** Flattening gives exactly one row per product and reason, and each row
      carries its product's barcodes and total and its reason's count. */
  lemma FlattenSpec(stats: map<string, ProductStats>, products: seq<string>, k: string, r: string)
    requires WellFormed(stats, products)
    ensures Count(Flatten(stats, products), RowIs(k, r)) == (if k in stats && r in stats[k].reasons then 1 else 0)
    ensures forall x :: x in Flatten(stats, products) ==> RowOf(stats, x)
  {
    FlattenCount(stats, products, k, r);
    FlattenRows(stats, products);
  }

  lemma {:induction false} FlattenRows(stats: map<string, ProductStats>, products: seq<string>)
    requires forall k :: k in products ==>
               (k in stats && stats[k].productName == k && forall r :: r in stats[k].reasonOrder ==> r in stats[k].reasons)
    ensures forall x :: x in Flatten(stats, products) ==> RowOf(stats, x)
  {
    if products != [] {
      var init := products[..|products| - 1];
      var last := products[|products| - 1];
      FlattenRows(stats, init);
      var rows := RowsFor(stats[last]);
      forall x | x in rows ensures RowOf(stats, x) {
        var i :| 0 <= i < |rows| && rows[i] == x;
      }
    }
  }

  lemma {:induction false} FlattenCount(stats: map<string, ProductStats>, products: seq<string>, k: string, r: string)
    requires Distinct(products)
    requires forall k :: k in products ==>
               (k in stats && stats[k].productName == k && Distinct(stats[k].reasonOrder)
                && forall r :: r in stats[k].reasonOrder <==> r in stats[k].reasons)
    ensures Count(Flatten(stats, products), RowIs(k, r)) == (if k in products && r in stats[k].reasons then 1 else 0)
  {
    if products == [] {
      assert Filter([], RowIs(k, r)) == [];
    } else {
      var init := products[..|products| - 1];
      var last := products[|products| - 1];
      assert Distinct(init);
      FlattenCount(stats, init, k, r);
      CountAppend(Flatten(stats, init), RowsFor(stats[last]), RowIs(k, r));
      ReasonRowsCount(stats[last], stats[last].reasonOrder, k, r);
      assert k in products <==> k in init || k == last;
      if last == k {
        assert k !in init;
      }
    }
  }

  /** A product's rows for the given distinct reasons hold reason `r` once
      when it is among them. */
  lemma {:induction false} ReasonRowsCount(p: ProductStats, reasons: seq<string>, k: string, r: string)
    requires Distinct(reasons) && forall x :: x in reasons ==> x in p.reasons
    ensures Count(RowsForReasons(p, reasons), RowIs(k, r)) == (if p.productName == k && r in reasons then 1 else 0)
  {
    var rows := RowsForReasons(p, reasons);
    if reasons == [] {
      assert Filter(rows, RowIs(k, r)) == [];
    } else {
      var init := reasons[..|reasons| - 1];
      var last := reasons[|reasons| - 1];
      assert Distinct(init);
      ReasonRowsCount(p, init, k, r);
      assert rows == RowsForReasons(p, init) + [rows[|rows| - 1]];
      CountAppend(RowsForReasons(p, init), [rows[|rows| - 1]], RowIs(k, r));
      if p.productName == k && last == r {
        assert Filter([rows[|rows| - 1]], RowIs(k, r)) == [rows[|rows| - 1]];
        assert r !in init;
      } else {
        assert Filter([rows[|rows| - 1]], RowIs(k, r)) == [];
      }
      assert r in reasons <==> r in init || r == last;
    }
  }

  /** The search: product name or reason contain the lower-cased term after
      lower-casing, or the barcode contains the term as typed. */
  predicate MatchesSearch(row: ReasonRow, term: string) {
    || Contains(Lower(row.productName), Lower(term))
    || Contains(Lower(row.reason), Lower(term))
    || Contains(row.barcode, term)
  }

  function SearchRows(rows: seq<ReasonRow>, term: string): (r: seq<ReasonRow>)
    ensures forall x :: x in r <==> x in rows && MatchesSearch(x, term)
    ensures IsSubsequence(r, rows)
  {
    FilterIsSubsequence(rows, (x: ReasonRow) => MatchesSearch(x, term));
    Filter(rows, (x: ReasonRow) => MatchesSearch(x, term))
  }

  /** The empty search keeps every row. */
  lemma EmptySearchKeepsAll(rows: seq<ReasonRow>)
    ensures SearchRows(rows, "") == rows
  {
    forall x | x in rows
      ensures MatchesSearch(x, "")
    {
      ContainsEmpty(x.barcode);
    }
    FilterAll(rows, (x: ReasonRow) => MatchesSearch(x, ""));
  }

  datatype SortKey = ByProductName | ByReason | ByCount

  datatype Direction = Asc | Desc

  datatype SortConfig = SortConfig(key: SortKey, direction: Direction)

  const InitialSort := SortConfig(ByCount, Desc)

  /** JavaScript `<` on strings: by character, a proper prefix first. */
  predicate StrLess(a: string, b: string) {
    if a == [] then b != []
    else if b == [] then false
    else if a[0] != b[0] then a[0] < b[0]
    else StrLess(a[1..], b[1..])
  }

  lemma {:induction false} StrLessTransitive(a: string, b: string, c: string)
    requires StrLess(a, b) && StrLess(b, c)
    ensures StrLess(a, c)
  {
    if a != [] && b != [] && c != [] && a[0] == b[0] && b[0] == c[0] {
      StrLessTransitive(a[1..], b[1..], c[1..]);
    }
  }

  lemma {:induction false} StrLessIrreflexive(a: string)
    ensures !StrLess(a, a)
  {
    if a != [] {
      StrLessIrreflexive(a[1..]);
    }
  }

  /** `a[key] < b[key]` */
  predicate KeyLess(a: ReasonRow, b: ReasonRow, key: SortKey) {
    match key
    case ByProductName => StrLess(a.productName, b.productName)
    case ByReason => StrLess(a.reason, b.reason)
    case ByCount => a.count < b.count
  }

  /** The comparator returns a negative number: `a` goes before `b`. */
  predicate Before(a: ReasonRow, b: ReasonRow, c: SortConfig) {
    if c.direction == Asc then KeyLess(a, b, c.key) else KeyLess(b, a, c.key)
  }

  lemma BeforeTransitive(a: ReasonRow, b: ReasonRow, d: ReasonRow, c: SortConfig)
    requires Before(a, b, c) && Before(b, d, c)
    ensures Before(a, d, c)
  {
    match c.key
    case ByProductName =>
      if c.direction == Asc {
        StrLessTransitive(a.productName, b.productName, d.productName);
      } else {
        StrLessTransitive(d.productName, b.productName, a.productName);
      }
    case ByReason =>
      if c.direction == Asc {
        StrLessTransitive(a.reason, b.reason, d.reason);
      } else {
        StrLessTransitive(d.reason, b.reason, a.reason);
      }
    case ByCount =>
  }

  /** No row is placed after a row the comparator puts after it. */
  predicate SortedBy(rows: seq<ReasonRow>, c: SortConfig) {
    forall i, j :: 0 <= i < j < |rows| ==> !Before(rows[j], rows[i], c)
  }

  /** Inserts `x` before the first row it goes before. */
  function InsertRow(x: ReasonRow, rows: seq<ReasonRow>, c: SortConfig): (r: seq<ReasonRow>)
    ensures multiset(r) == multiset(rows) + multiset{x}
  {
    if rows == [] then [x]
    else if Before(x, rows[0], c) then [x] + rows
    else
      assert rows == [rows[0]] + rows[1..];
      [rows[0]] + InsertRow(x, rows[1..], c)
  }

  lemma {:induction false} InsertRowSorted(x: ReasonRow, rows: seq<ReasonRow>, c: SortConfig)
    requires SortedBy(rows, c)
    ensures SortedBy(InsertRow(x, rows, c), c)
  {
    if rows != [] {
      if Before(x, rows[0], c) {
        InsertFront(x, rows, c);
      } else {
        InsertRowSorted(x, rows[1..], c);
        InsertBehind(x, rows, c);
      }
    }
  }

  /** A row that goes before the first row goes before all of them. */
  lemma InsertFront(x: ReasonRow, rows: seq<ReasonRow>, c: SortConfig)
    requires SortedBy(rows, c) && rows != [] && Before(x, rows[0], c)
    ensures SortedBy([x] + rows, c)
  {
    forall j | 0 <= j < |rows|
      ensures !Before(rows[j], x, c)
    {
      if Before(rows[j], x, c) {
        BeforeTransitive(rows[j], x, rows[0], c);
        if j == 0 {
          IrreflexiveBefore(rows[0], c);
        }
      }
    }
    assert forall j :: 1 <= j < |[x] + rows| ==> ([x] + rows)[j] == rows[j - 1];
  }

  /** A row that does not go before the first row is inserted behind it. */
  lemma InsertBehind(x: ReasonRow, rows: seq<ReasonRow>, c: SortConfig)
    requires SortedBy(rows, c) && rows != [] && !Before(x, rows[0], c)
    requires SortedBy(InsertRow(x, rows[1..], c), c)
    ensures SortedBy([rows[0]] + InsertRow(x, rows[1..], c), c)
  {
    var rest := InsertRow(x, rows[1..], c);
    forall y | y in rest
      ensures !Before(y, rows[0], c)
    {
      assert y in multiset(rest);
      assert y == x || y in multiset(rows[1..]);
    }
  }

  lemma IrreflexiveBefore(a: ReasonRow, c: SortConfig)
    ensures !Before(a, a, c)
  {
    StrLessIrreflexive(a.productName);
    StrLessIrreflexive(a.reason);
  }

  /** `.sort(...)` with the chosen key and direction. */
  function SortRows(rows: seq<ReasonRow>, c: SortConfig): (r: seq<ReasonRow>)
    ensures SortedBy(r, c)
    ensures multiset(r) == multiset(rows)
  {
    if rows == [] then []
    else
      var init := rows[..|rows| - 1];
      assert rows == init + [rows[|rows| - 1]];
      InsertRowSorted(rows[|rows| - 1], SortRows(init, c), c);
      InsertRow(rows[|rows| - 1], SortRows(init, c), c)
  }

  /** The rows of the whole analysis, before the search: one per product and
      reason that occur, counted as the aggregation counts them. */
  function TableRows(orders: seq<ReasonOrder>): (rows: seq<ReasonRow>)
    ensures forall k, r :: Count(rows, RowIs(k, r)) ==
              (if k in StatsOf(EntriesOf(orders)) && r in StatsOf(EntriesOf(orders))[k].reasons then 1 else 0)
    ensures forall x :: x in rows ==> RowOf(StatsOf(EntriesOf(orders)), x)
  {
    var entries := EntriesOf(orders);
    AggregateWellFormed(orders);
    var rows := Flatten(StatsOf(entries), Grouping.InsertionOrder(entries, Name));
    FlattenRows(StatsOf(entries), Grouping.InsertionOrder(entries, Name));
    assert forall k, r :: Count(rows, RowIs(k, r)) ==
             (if k in StatsOf(entries) && r in StatsOf(entries)[k].reasons then 1 else 0) by {
      forall k, r
        ensures Count(rows, RowIs(k, r)) == (if k in StatsOf(entries) && r in StatsOf(entries)[k].reasons then 1 else 0)
      {
        FlattenSpec(StatsOf(entries), Grouping.InsertionOrder(entries, Name), k, r);
      }
    }
    rows
  }

  /** The table: the rows that match the search, sorted; exactly the matching
      rows of the analysis, each as often as there. */
  function AnalysisRows(orders: seq<ReasonOrder>, term: string, c: SortConfig): (r: seq<ReasonRow>)
    ensures SortedBy(r, c)
    ensures multiset(r) == multiset(SearchRows(TableRows(orders), term))
    ensures forall x :: x in r ==> MatchesSearch(x, term) && RowOf(StatsOf(EntriesOf(orders)), x)
  {
    var rows := SearchRows(TableRows(orders), term);
    var sorted := SortRows(rows, c);
    assert forall x :: x in sorted ==> x in multiset(rows);
    sorted
  }

  /** `handleSort`: a click on the column sorted descending switches to
      ascending, every other click sorts its column descending. */
  function HandleSort(current: SortConfig, key: SortKey): (r: SortConfig)
    ensures r.key == key
    ensures r.direction == Asc <==> current.key == key && current.direction == Desc
  {
    SortConfig(key, if current.key == key && current.direction == Desc then Asc else Desc)
  }

  /** Clicking the same column toggles between descending and ascending. */
  lemma HandleSortToggles(c: SortConfig, key: SortKey)
    ensures HandleSort(HandleSort(c, key), key).direction != HandleSort(c, key).direction
    ensures HandleSort(HandleSort(HandleSort(c, key), key), key) == HandleSort(c, key)
  {
  }
}
