/** The deterministic parts of the server actions: stock arithmetic, the
    low-stock rule, the returns list (reason extraction, de-duplication by
    order number, newest-first order, paging), the grouping of order
    spreadsheet rows into orders, and the counters of the two payment
    matching runs. Database reads are function parameters; database writes
    are not modelled. */
module Actions {
  import opened Wrappers
  import opened Seqs
  import opened Text
  import opened JsNumbers
  import Grouping

  const ProductNotFound := "Product not found"

  // ---------------------------------------------------------------------------
  // Stock
  // ---------------------------------------------------------------------------

  /** `Math.max(0, quantity + change)` */
  function ClampedSum(quantity: int, change: int): (r: int)
    ensures r >= 0 && r >= quantity + change
    ensures r == 0 || r == quantity + change
  {
    if quantity + change > 0 then quantity + change else 0
  }

  /** `updateStock`: the new quantity of a product, or the error when the
      product does not exist. */
  function UpdateStock(current: Option<int>, change: int): (r: Result<int, string>)
    ensures current.None? ==> r == Err(ProductNotFound)
    ensures current.Some? ==> r.Ok? && r.value >= 0
    ensures current.Some? && current.value + change >= 0 ==> r == Ok(current.value + change)
    ensures current.Some? && current.value + change < 0 ==> r == Ok(0)
  {
    match current
    case None => Err(ProductNotFound)
    case Some(q) => Ok(ClampedSum(q, change))
  }

  /** A change that does not run the stock below zero is undone by the
      opposite change; one that does is not. */
  lemma StockChangeUndo(quantity: int, change: int)
    requires quantity >= 0
    ensures quantity + change >= 0 ==> UpdateStock(Some(ClampedSum(quantity, change)), -change) == Ok(quantity)
    ensures quantity + change < 0 ==> UpdateStock(Some(ClampedSum(quantity, change)), -change) == Ok(-change)
  {
  }

  datatype StockLevel = StockLevel(quantity: int, damaged: int)

  datatype DamageKind = DamagedIn | DamagedOut

  /** `updateDamagedStock`: damaged goods come in (optionally taken from the
      sound stock) or go out; counts that would drop below zero stop at zero. */
  method UpdateDamagedStock(current: Option<StockLevel>, change: int, kind: DamageKind, fromMainStock: bool)
    returns (r: Result<StockLevel, string>)
    ensures current.None? ==> r == Err(ProductNotFound)
    ensures current.Some? && kind == DamagedIn ==>
              r == Ok(StockLevel(if fromMainStock then ClampedSum(current.value.quantity, -change) else current.value.quantity,
                                 current.value.damaged + change))
    ensures current.Some? && kind == DamagedOut ==>
              r == Ok(StockLevel(current.value.quantity, ClampedSum(current.value.damaged, -change)))
    ensures current.Some? && kind == DamagedIn && fromMainStock && change <= current.value.quantity ==>
              r.value.quantity + r.value.damaged == current.value.quantity + current.value.damaged
  {
    if current.None? {
      return Err(ProductNotFound);
    }
    var newQuantity := current.value.quantity;
    var newDamagedQuantity := current.value.damaged;
    if kind == DamagedIn {
      newDamagedQuantity := newDamagedQuantity + change;
      if fromMainStock {
        newQuantity := ClampedSum(newQuantity, -change);
      }
    } else {
      newDamagedQuantity := ClampedSum(newDamagedQuantity, -change);
    }
    r := Ok(StockLevel(newQuantity, newDamagedQuantity));
  }

  datatype StockProduct = StockProduct(id: string, quantity: int, minStock: int)

  /** A product is low on stock when it holds no more than its minimum. */
  predicate IsLowStock(p: StockProduct) {
    p.quantity <= p.minStock
  }

  /** `getLowStockCount` */
  function LowStockCount(products: seq<StockProduct>): (n: nat)
    ensures n <= |products|
  {
    Count(products, IsLowStock)
  }

  /** `getLowStockProducts`: the low-stock products in the order given. */
  function LowStockProducts(products: seq<StockProduct>): (r: seq<StockProduct>)
    ensures forall p :: p in r <==> p in products && IsLowStock(p)
    ensures IsSubsequence(r, products)
    ensures |r| == LowStockCount(products)
  {
    FilterIsSubsequence(products, IsLowStock);
    Filter(products, IsLowStock)
  }

  /** Taking stock out never clears the low-stock mark, and adding stock
      never sets it, as long as the minimum is not negative. */
  lemma LowStockMonotone(p: StockProduct, change: int)
    requires p.minStock >= 0
    ensures change <= 0 && IsLowStock(p) ==> IsLowStock(p.(quantity := UpdateStock(Some(p.quantity), change).value))
    ensures change >= 0 && p.quantity >= 0 && !IsLowStock(p) ==>
              !IsLowStock(p.(quantity := UpdateStock(Some(p.quantity), change).value))
  {
  }

  // ---------------------------------------------------------------------------
  // Returns
  // ---------------------------------------------------------------------------

  /** An absent text field is the empty string. */
  datatype ReturnLine = ReturnLine(returnReasonName: string, statusName: string)

  datatype ReturnPackage = ReturnPackage(historyDescriptions: seq<string>)

  datatype ReturnOrder = ReturnOrder(orderNumber: string, orderDate: int, lines: seq<ReturnLine>, packages: seq<ReturnPackage>)

  datatype ExtendedOrder = ExtendedOrder(order: ReturnOrder, extractedReturnReason: Option<string>)

  /** `a || b || c || null` over texts. */
  function FirstNonEmpty(candidates: seq<string>): (r: Option<string>)
    ensures r.None? <==> forall i :: 0 <= i < |candidates| ==> candidates[i] == ""
    ensures r.Some? ==> r.value != "" && r.value in candidates
  {
    if candidates == [] then None
    else if candidates[0] != "" then Some(candidates[0])
    else FirstNonEmpty(candidates[1..])
  }

  /** The places a return reason is looked for, in order: the first line's
      return reason, the first line's status, the first package's last
      history entry. */
  function ReasonCandidates(o: ReturnOrder): (r: seq<string>)
    ensures |r| == 3
  {
    var line := if o.lines != [] then o.lines[0] else ReturnLine("", "");
    var history := if o.packages != [] then o.packages[0].historyDescriptions else [];
    [line.returnReasonName, line.statusName, if history != [] then history[|history| - 1] else ""]
  }

  /** The extracted return reason: the first candidate that is set. */
  function ReturnReason(o: ReturnOrder): Option<string> {
    FirstNonEmpty(ReasonCandidates(o))
  }

  lemma ReturnReasonOrder(o: ReturnOrder)
    ensures o.lines != [] && o.lines[0].returnReasonName != "" ==> ReturnReason(o) == Some(o.lines[0].returnReasonName)
    ensures o.lines != [] && o.lines[0].returnReasonName == "" && o.lines[0].statusName != "" ==>
              ReturnReason(o) == Some(o.lines[0].statusName)
    ensures o.lines == [] && (o.packages == [] || o.packages[0].historyDescriptions == []) ==> ReturnReason(o) == None
  {
    var c := ReasonCandidates(o);
    if c[0] == "" {
      assert FirstNonEmpty(c) == FirstNonEmpty(c[1..]);
      assert c[1..][0] == c[1];
      if c[1] == "" {
        assert FirstNonEmpty(c[1..]) == FirstNonEmpty(c[1..][1..]);
      }
    }
  }

  /** An order with its extracted return reason. */
  function WithReason(o: ReturnOrder): ExtendedOrder {
    ExtendedOrder(o, ReturnReason(o))
  }

  /** The orders of one chunk, each with its reason, in the chunk's order; a
      chunk that failed adds nothing. */
  function ChunkOrders(chunk: Option<seq<ReturnOrder>>): (r: seq<ExtendedOrder>)
    ensures chunk.None? ==> r == []
    ensures chunk.Some? ==> |r| == |chunk.value|
    ensures chunk.Some? ==> forall k :: 0 <= k < |r| ==> r[k] == WithReason(chunk.value[k])
  {
    if chunk.None? then []
    else seq(|chunk.value|, k requires 0 <= k < |chunk.value| => WithReason(chunk.value[k]))
  }

  /** Each chunk's orders, chunk by chunk. */
  function ChunkList(chunks: seq<Option<seq<ReturnOrder>>>): (r: seq<seq<ExtendedOrder>>)
    ensures |r| == |chunks| && forall i :: 0 <= i < |chunks| ==> r[i] == ChunkOrders(chunks[i])
  {
    seq(|chunks|, i requires 0 <= i < |chunks| => ChunkOrders(chunks[i]))
  }

  /** The orders of the chunks that were fetched, each with its reason, in
      chunk order. */
  function CollectOrders(chunks: seq<Option<seq<ReturnOrder>>>): seq<ExtendedOrder> {
    Concat(ChunkList(chunks))
  }

  /** The collected orders are exactly those the chunks contribute. */
  lemma CollectOrdersIn(chunks: seq<Option<seq<ReturnOrder>>>, e: ExtendedOrder)
    ensures e in CollectOrders(chunks) <==> exists i :: 0 <= i < |chunks| && e in ChunkOrders(chunks[i])
  {
    ConcatIn(ChunkList(chunks), e);
  }

  /** Every order of a fetched chunk is collected with its reason, and
      nothing else is: failed chunks add nothing. */
  lemma CollectOrdersMembers(chunks: seq<Option<seq<ReturnOrder>>>)
    ensures forall i, o :: 0 <= i < |chunks| && chunks[i].Some? && o in chunks[i].value ==>
              ExtendedOrder(o, ReturnReason(o)) in CollectOrders(chunks)
    ensures forall e :: e in CollectOrders(chunks) ==>
              e.extractedReturnReason == ReturnReason(e.order)
              && exists i :: 0 <= i < |chunks| && chunks[i].Some? && e.order in chunks[i].value
  {
    forall i, o | 0 <= i < |chunks| && chunks[i].Some? && o in chunks[i].value
      ensures ExtendedOrder(o, ReturnReason(o)) in CollectOrders(chunks)
    {
      var k :| 0 <= k < |chunks[i].value| && chunks[i].value[k] == o;
      assert ChunkOrders(chunks[i])[k] == WithReason(o);
      CollectOrdersIn(chunks, WithReason(o));
    }
    forall e | e in CollectOrders(chunks)
      ensures e.extractedReturnReason == ReturnReason(e.order)
      ensures exists i :: 0 <= i < |chunks| && chunks[i].Some? && e.order in chunks[i].value
    {
      CollectOrdersIn(chunks, e);
      var i :| 0 <= i < |chunks| && e in ChunkOrders(chunks[i]);
      var k :| 0 <= k < |ChunkOrders(chunks[i])| && ChunkOrders(chunks[i])[k] == e;
      assert e.order == chunks[i].value[k];
    }
  }

  /** The chunks' orders follow each other in chunk order. */
  lemma CollectOrdersAppend(a: seq<Option<seq<ReturnOrder>>>, b: seq<Option<seq<ReturnOrder>>>)
    ensures CollectOrders(a + b) == CollectOrders(a) + CollectOrders(b)
  {
    assert ChunkList(a + b) == ChunkList(a) + ChunkList(b);
    ConcatAppend(ChunkList(a), ChunkList(b));
  }

  /** One chunk contributes its own orders. */
  lemma CollectOne(chunk: Option<seq<ReturnOrder>>)
    ensures CollectOrders([chunk]) == ChunkOrders(chunk)
  {
    assert ChunkList([chunk]) == [ChunkOrders(chunk)];
    ConcatOne(ChunkOrders(chunk));
  }

  function OrderKey(e: ExtendedOrder): string {
    e.order.orderNumber
  }

  /** `new Map(orders.map(o => [o.orderNumber, o]))` as a map: a later order
      with the same number overwrites an earlier one. */
  function LastByKey(xs: seq<ExtendedOrder>): map<string, ExtendedOrder> {
    if xs == [] then map[]
    else LastByKey(xs[..|xs| - 1])[OrderKey(xs[|xs| - 1]) := xs[|xs| - 1]]
  }

  /** `xs[j]` is the last order with number `k`. */
  predicate IsLastWithKey(xs: seq<ExtendedOrder>, k: string, j: int) {
    0 <= j < |xs| && OrderKey(xs[j]) == k && forall l :: j < l < |xs| ==> OrderKey(xs[l]) != k
  }

  /** The map holds the numbers that occur, each with its last order, and its
      keys are those of the insertion order. */
  lemma {:induction false} LastByKeySpec(xs: seq<ExtendedOrder>, k: string)
    ensures k in LastByKey(xs) <==> k in Grouping.InsertionOrder(xs, OrderKey)
    ensures k in LastByKey(xs) <==> exists i :: 0 <= i < |xs| && OrderKey(xs[i]) == k
    ensures k in LastByKey(xs) ==> exists j :: IsLastWithKey(xs, k, j) && LastByKey(xs)[k] == xs[j]
  {
    if xs != [] {
      var init := xs[..|xs| - 1];
      var x := xs[|xs| - 1];
      LastByKeySpec(init, k);
      assert forall i :: 0 <= i < |init| ==> init[i] == xs[i];
      if OrderKey(x) == k {
        assert IsLastWithKey(xs, k, |xs| - 1);
      } else if k in LastByKey(init) {
        var j :| IsLastWithKey(init, k, j) && LastByKey(init)[k] == init[j];
        assert IsLastWithKey(xs, k, j);
      }
    }
  }

  /** `Array.from(new Map(...).values())`: one order per number, in the order
      the numbers first appear, each the last order seen with its number. */
  function UniqueOrders(xs: seq<ExtendedOrder>): (r: seq<ExtendedOrder>)
    ensures |r| == |Grouping.InsertionOrder(xs, OrderKey)|
    ensures forall i :: 0 <= i < |r| ==> OrderKey(r[i]) == Grouping.InsertionOrder(xs, OrderKey)[i]
  {
    var keys := Grouping.InsertionOrder(xs, OrderKey);
    var m := LastByKey(xs);
    assert forall i :: 0 <= i < |keys| ==> keys[i] in m by {
      forall i | 0 <= i < |keys|
        ensures keys[i] in m
      {
        LastByKeySpec(xs, keys[i]);
      }
    }
    assert forall i :: 0 <= i < |keys| ==> OrderKey(m[keys[i]]) == keys[i] by {
      forall i | 0 <= i < |keys|
        ensures OrderKey(m[keys[i]]) == keys[i]
      {
        LastByKeySpec(xs, keys[i]);
      }
    }
    seq(|keys|, i requires 0 <= i < |keys| => m[keys[i]])
  }

  /** The de-duplicated list has each order number once. */
  lemma UniqueOrdersDistinct(xs: seq<ExtendedOrder>)
    ensures var r := UniqueOrders(xs);
      forall i, j :: 0 <= i < j < |r| ==> OrderKey(r[i]) != OrderKey(r[j])
  {
    Grouping.InsertionOrderDedup(xs, OrderKey);
  }

  /** Every order number of the input is kept. */
  lemma UniqueOrdersCover(xs: seq<ExtendedOrder>, i: int)
    requires 0 <= i < |xs|
    ensures exists j :: 0 <= j < |UniqueOrders(xs)| && OrderKey(UniqueOrders(xs)[j]) == OrderKey(xs[i])
  {
    var keys := Grouping.InsertionOrder(xs, OrderKey);
    Grouping.InsertionOrderDedup(xs, OrderKey);
    assert Grouping.KeysOf(xs, OrderKey)[i] == OrderKey(xs[i]);
    assert OrderKey(xs[i]) in keys;
    var j :| 0 <= j < |keys| && keys[j] == OrderKey(xs[i]);
    assert OrderKey(UniqueOrders(xs)[j]) == OrderKey(xs[i]);
  }

  /** Each kept order is the last one seen with its number. */
  lemma UniqueOrdersLast(xs: seq<ExtendedOrder>, j: int)
    requires 0 <= j < |UniqueOrders(xs)|
    ensures exists l :: IsLastWithKey(xs, OrderKey(UniqueOrders(xs)[j]), l) && UniqueOrders(xs)[j] == xs[l]
  {
    var keys := Grouping.InsertionOrder(xs, OrderKey);
    LastByKeySpec(xs, keys[j]);
  }

  function Date(e: ExtendedOrder): int {
    e.order.orderDate
  }

  predicate NewestFirst(s: seq<ExtendedOrder>) {
    forall i, j :: 0 <= i < j < |s| ==> Date(s[i]) >= Date(s[j])
  }

  /** Inserts `x` after every order at least as new, which keeps orders of
      equal date in their original order. */
  function InsertNewest(x: ExtendedOrder, s: seq<ExtendedOrder>): (r: seq<ExtendedOrder>)
    ensures |r| == |s| + 1 && multiset(r) == multiset(s) + multiset{x}
  {
    if s == [] then [x]
    else if Date(s[0]) >= Date(x) then
      assert s == [s[0]] + s[1..];
      [s[0]] + InsertNewest(x, s[1..])
    else [x] + s
  }

  /** Inserting into a newest-first list keeps it newest-first. */
  lemma {:induction false} InsertNewestSorted(x: ExtendedOrder, s: seq<ExtendedOrder>)
    requires NewestFirst(s)
    ensures NewestFirst(InsertNewest(x, s))
  {
    if s != [] && Date(s[0]) >= Date(x) {
      var rest := InsertNewest(x, s[1..]);
      InsertNewestSorted(x, s[1..]);
      forall e | e in rest
        ensures Date(e) <= Date(s[0])
      {
        assert e in multiset(rest);
        assert e == x || e in multiset(s[1..]);
      }
    }
  }

  /** `uniqueOrders.sort((a, b) => dateB - dateA)` */
  function SortNewestFirst(xs: seq<ExtendedOrder>): (r: seq<ExtendedOrder>)
    ensures NewestFirst(r)
    ensures multiset(r) == multiset(xs) && |r| == |xs|
  {
    if xs == [] then []
    else
      assert xs == xs[..|xs| - 1] + [xs[|xs| - 1]];
      InsertNewestSorted(xs[|xs| - 1], SortNewestFirst(xs[..|xs| - 1]));
      InsertNewest(xs[|xs| - 1], SortNewestFirst(xs[..|xs| - 1]))
  }

  /** `xs.slice(page * size, (page + 1) * size)` */
  function PageOf<T>(xs: seq<T>, page: int, size: int): seq<T> {
    Slice(xs, page * size, (page + 1) * size)
  }

  /** A page holds at most `size` items; a page before `totalPages` is full
      up to the end of the list, and the pages from `totalPages` on are empty. */
  lemma PageSpec<T>(xs: seq<T>, page: int, size: int)
    requires size > 0 && page >= 0
    ensures |PageOf(xs, page, size)| <= size
    ensures PageOf(xs, page, size) != [] <==> page < TotalPages(|xs|, size)
    ensures page < TotalPages(|xs|, size) ==>
              PageOf(xs, page, size) == xs[page * size .. if (page + 1) * size <= |xs| then (page + 1) * size else |xs|]
  {
    var t := TotalPages(|xs|, size);
    assert (page + 1) * size == page * size + size;
    if page < t {
      MulMonotone(page, t - 1, size);
      assert page * size < |xs|;
    } else {
      MulMonotone(t, page, size);
      assert page * size >= |xs|;
    }
  }

  lemma MulMonotone(a: int, b: int, size: int)
    requires a <= b && size > 0
    ensures a * size <= b * size
  {
  }

  datatype ReturnsPage = ReturnsPage(orders: seq<ExtendedOrder>, totalElements: nat, totalPages: int, page: int, size: int)

  /** `getExtendedTrendyolReturns(page, size)` after the chunks are fetched. */
  function ExtendedReturns(chunks: seq<Option<seq<ReturnOrder>>>, page: int, size: int): (r: ReturnsPage)
    requires size > 0
    ensures r.orders == PageOf(SortNewestFirst(UniqueOrders(CollectOrders(chunks))), page, size)
    ensures page >= 0 ==> |r.orders| <= size
    ensures NewestFirst(r.orders)
  {
    var sorted := SortNewestFirst(UniqueOrders(CollectOrders(chunks)));
    assert page >= 0 ==> |PageOf(sorted, page, size)| <= size by {
      if page >= 0 {
        PageSpec(sorted, page, size);
      }
    }
    SlicePreservesNewestFirst(sorted, page * size, (page + 1) * size);
    ReturnsPage(PageOf(sorted, page, size), |sorted|, TotalPages(|sorted|, size), page, size)
  }

  /** The total counts the distinct order numbers fetched, and the pages
      split exactly that many orders. */
  lemma ExtendedReturnsTotal(chunks: seq<Option<seq<ReturnOrder>>>, page: int, size: int)
    requires size > 0
    ensures var r := ExtendedReturns(chunks, page, size);
      && r.totalElements == |Dedup(Grouping.KeysOf(CollectOrders(chunks), OrderKey))|
      && r.totalPages == TotalPages(r.totalElements, size)
  {
    var all := CollectOrders(chunks);
    Grouping.InsertionOrderDedup(all, OrderKey);
    assert |SortNewestFirst(UniqueOrders(all))| == |Grouping.InsertionOrder(all, OrderKey)|;
  }

  /** Every order on a page was fetched and carries its own extracted
      reason. */
  lemma ExtendedReturnsFetched(chunks: seq<Option<seq<ReturnOrder>>>, page: int, size: int)
    requires size > 0
    ensures forall e :: e in ExtendedReturns(chunks, page, size).orders ==>
              e.extractedReturnReason == ReturnReason(e.order)
              && exists i :: 0 <= i < |chunks| && chunks[i].Some? && e.order in chunks[i].value
  {
    var all := CollectOrders(chunks);
    var unique := UniqueOrders(all);
    var sorted := SortNewestFirst(unique);
    CollectOrdersMembers(chunks);
    forall e | e in ExtendedReturns(chunks, page, size).orders
      ensures e in all
    {
      SliceIn(sorted, page * size, (page + 1) * size, e);
      assert e in multiset(sorted);
      var j :| 0 <= j < |unique| && unique[j] == e;
      UniqueOrdersLast(all, j);
    }
  }

  lemma SlicePreservesNewestFirst(s: seq<ExtendedOrder>, start: int, end: int)
    requires NewestFirst(s)
    ensures NewestFirst(Slice(s, start, end))
  {
    var a, b := SliceIndex(start, |s|), SliceIndex(end, |s|);
    if a < b {
      assert forall i :: 0 <= i < b - a ==> s[a..b][i] == s[a + i];
    }
  }
}
