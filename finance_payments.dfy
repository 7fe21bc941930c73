/** The finance payments page: the filter chain over the imported orders,
    fifty-row pages with their page-button window, the expandable payment
    details of an order with their net amounts, and the days left until the
    expected payout. Times are millisecond timestamps read in UTC. */
module FinancePayments {
  import opened Wrappers
  import opened Seqs
  import opened Text

  const DayMs := 86400000
  const ItemsPerPage := 50

  /** An imported order row as the page reads it; a missing text field is
      `None`, a missing or empty date is `None`. */
  datatype FinanceOrder = FinanceOrder(
    orderNumber: string,
    packageNo: Option<string>,
    barcode: Option<string>,
    productName: Option<string>,
    paymentStatus: string,
    expectedPayoutAt: Option<int>,
    orderDate: Option<int>)

  datatype Tab = AllTab | PaidTab

  datatype StatusFilter = AnyStatus | OnlyPaid | OnlyUnpaid | OnlyOverdue

  /** The filter controls: tab, status filter, search text, the chosen first
      and last days (any time within the day), and the current time. */
  datatype View = View(tab: Tab, filter: StatusFilter, search: string,
                       startDate: Option<int>, endDate: Option<int>, now: int)

  /** The day a timestamp falls on. */
  function Day(t: int): int {
    t / DayMs
  }

  /** `setHours(0, 0, 0, 0)` */
  function StartOfDay(t: int): (r: int)
    ensures r <= t < r + DayMs && Day(r) == Day(t)
  {
    Day(t) * DayMs
  }

  /** `setHours(23, 59, 59, 999)` */
  function EndOfDay(t: int): (r: int)
    ensures r - DayMs < t <= r && Day(r) == Day(t)
  {
    StartOfDay(t) + DayMs - 1
  }

  predicate IsPaid(o: FinanceOrder) {
    o.paymentStatus == "paid"
  }

  predicate IsUnpaid(o: FinanceOrder) {
    o.paymentStatus == "unpaid"
  }

  /** Unpaid with an expected payout before now. */
  predicate IsOverdue(o: FinanceOrder, now: int) {
    IsUnpaid(o) && o.expectedPayoutAt.Some? && o.expectedPayoutAt.value < now
  }

  predicate FieldMatches(field: Option<string>, term: string) {
    field.Some? && Contains(Lower(field.value), term)
  }

  /** The search over order number, package number, barcode and product name,
      with an already lower-cased term. */
  predicate SearchMatches(o: FinanceOrder, term: string) {
    Contains(Lower(o.orderNumber), term) || FieldMatches(o.packageNo, term)
    || FieldMatches(o.barcode, term) || FieldMatches(o.productName, term)
  }

  function PaidFn(): FinanceOrder -> bool {
    o => IsPaid(o)
  }

  function UnpaidFn(): FinanceOrder -> bool {
    o => IsUnpaid(o)
  }

  function OverdueFn(now: int): FinanceOrder -> bool {
    o => IsOverdue(o, now)
  }

  function FromFn(start: int): FinanceOrder -> bool {
    (o: FinanceOrder) => o.orderDate.Some? && o.orderDate.value >= StartOfDay(start)
  }

  function UntilFn(end: int): FinanceOrder -> bool {
    (o: FinanceOrder) => o.orderDate.Some? && o.orderDate.value <= EndOfDay(end)
  }

  function SearchFn(term: string): FinanceOrder -> bool {
    o => SearchMatches(o, term)
  }

  /** The tab and status-filter stages of `filteredOrders`. */
  function ByStatus(orders: seq<FinanceOrder>, v: View): seq<FinanceOrder> {
    var r1 := if v.tab == PaidTab then Filter(orders, PaidFn()) else orders;
    var r2 := if v.filter == OnlyPaid then Filter(r1, PaidFn()) else r1;
    var r3 := if v.filter == OnlyUnpaid then Filter(r2, UnpaidFn()) else r2;
    if v.filter == OnlyOverdue then Filter(r3, OverdueFn(v.now)) else r3
  }

  /** The date-range stages of `filteredOrders`. */
  function ByDate(orders: seq<FinanceOrder>, v: View): seq<FinanceOrder> {
    var r5 := if v.startDate.Some? then Filter(orders, FromFn(v.startDate.value)) else orders;
    if v.endDate.Some? then Filter(r5, UntilFn(v.endDate.value)) else r5
  }

  /** `filteredOrders`: status, then dates, then the search. */
  function FilteredOrders(orders: seq<FinanceOrder>, v: View): seq<FinanceOrder> {
    var r6 := ByDate(ByStatus(orders, v), v);
    if v.search != "" then Filter(r6, SearchFn(Lower(v.search))) else r6
  }

  predicate StatusKeeps(v: View, o: FinanceOrder) {
    && (v.tab == PaidTab ==> IsPaid(o))
    && (v.filter == OnlyPaid ==> IsPaid(o))
    && (v.filter == OnlyUnpaid ==> IsUnpaid(o))
    && (v.filter == OnlyOverdue ==> IsOverdue(o, v.now))
  }

  /** The date range on days: orders without a date fail once a bound is set. */
  predicate DateKeeps(v: View, o: FinanceOrder) {
    && (v.startDate.Some? ==> o.orderDate.Some? && Day(v.startDate.value) <= Day(o.orderDate.value))
    && (v.endDate.Some? ==> o.orderDate.Some? && Day(o.orderDate.value) <= Day(v.endDate.value))
  }

  /** Everything an order must satisfy to be listed. */
  predicate Keeps(v: View, o: FinanceOrder) {
    StatusKeeps(v, o) && DateKeeps(v, o) && (v.search != "" ==> SearchMatches(o, Lower(v.search)))
  }

  function KeepsFn(v: View): FinanceOrder -> bool {
    o => Keeps(v, o)
  }

  /** A day bound compares timestamps against the start or end of the day. */
  lemma DayBounds(t: int, start: int, end: int)
    ensures t >= StartOfDay(start) <==> Day(start) <= Day(t)
    ensures t <= EndOfDay(end) <==> Day(t) <= Day(end)
  {
    var s := StartOfDay(start);
    if Day(start) <= Day(t) {
      assert s == Day(start) * DayMs <= Day(t) * DayMs <= t;
    }
    if t >= s {
      assert Day(t) >= Day(s);
    }
    var e := EndOfDay(end);
    if Day(t) <= Day(end) {
      assert t < (Day(t) + 1) * DayMs <= (Day(end) + 1) * DayMs;
    }
    if t <= e {
      assert Day(t) <= Day(e);
    }
  }

  /** Two successive filters are one filter on both conditions. */
  lemma {:induction false} FilterFuse<T>(xs: seq<T>, f: T -> bool, g: T -> bool, h: T -> bool)
    requires forall x :: h(x) == (f(x) && g(x))
    ensures Filter(Filter(xs, f), g) == Filter(xs, h)
  {
    if xs != [] {
      var x, rest := xs[0], xs[1..];
      FilterFuse(rest, f, g, h);
      if f(x) {
        assert Filter(xs, f) == [x] + Filter(rest, f);
        assert Filter(xs, f)[0] == x && Filter(xs, f)[1..] == Filter(rest, f);
        if g(x) {
          assert Filter(Filter(xs, f), g) == [x] + Filter(Filter(rest, f), g);
        } else {
          assert Filter(Filter(xs, f), g) == Filter(Filter(rest, f), g);
        }
      } else {
        assert Filter(xs, f) == Filter(rest, f);
      }
    }
  }

  /** A stage that is switched off, or a filter that follows one keeping
      more, changes nothing to the fused filter. */
  lemma StageFuse<T>(xs: seq<T>, f: T -> bool, active: bool, g: T -> bool, h: T -> bool)
    requires forall x :: h(x) == (f(x) && (active ==> g(x)))
    ensures (if active then Filter(Filter(xs, f), g) else Filter(xs, f)) == Filter(xs, h)
  {
    if active {
      FilterFuse(xs, f, g, h);
    } else {
      var t := (x: T) => true;
      FilterFuse(xs, f, t, h);
      FilterAll(Filter(xs, f), t);
    }
  }

  function StatusFn(v: View): FinanceOrder -> bool {
    o => StatusKeeps(v, o)
  }

  function StatusDateFn(v: View): FinanceOrder -> bool {
    o => StatusKeeps(v, o) && DateKeeps(v, o)
  }

  lemma ByStatusSpec(orders: seq<FinanceOrder>, v: View)
    ensures ByStatus(orders, v) == Filter(orders, StatusFn(v))
  {
    var t := (o: FinanceOrder) => true;
    FilterAll(orders, t);
    var k1 := (o: FinanceOrder) => v.tab == PaidTab ==> IsPaid(o);
    StageFuse(orders, t, v.tab == PaidTab, PaidFn(), k1);
    var k2 := (o: FinanceOrder) => k1(o) && (v.filter == OnlyPaid ==> IsPaid(o));
    StageFuse(orders, k1, v.filter == OnlyPaid, PaidFn(), k2);
    var k3 := (o: FinanceOrder) => k2(o) && (v.filter == OnlyUnpaid ==> IsUnpaid(o));
    StageFuse(orders, k2, v.filter == OnlyUnpaid, UnpaidFn(), k3);
    StageFuse(orders, k3, v.filter == OnlyOverdue, OverdueFn(v.now), StatusFn(v));
  }

  lemma ByDateSpec(orders: seq<FinanceOrder>, v: View)
    ensures ByDate(Filter(orders, StatusFn(v)), v) == Filter(orders, StatusDateFn(v))
  {
    var k4 := StatusFn(v);
    var k5 := (o: FinanceOrder) => k4(o) && (v.startDate.Some? ==> o.orderDate.Some? && Day(v.startDate.value) <= Day(o.orderDate.value));
    forall o: FinanceOrder | v.startDate.Some? && o.orderDate.Some? {
      DayBounds(o.orderDate.value, v.startDate.value, v.startDate.value);
    }
    forall o: FinanceOrder | v.endDate.Some? && o.orderDate.Some? {
      DayBounds(o.orderDate.value, v.endDate.value, v.endDate.value);
    }
    if v.startDate.Some? {
      StageFuse(orders, k4, true, FromFn(v.startDate.value), k5);
    } else {
      StageFuse(orders, k4, false, k4, k5);
    }
    if v.endDate.Some? {
      StageFuse(orders, k5, true, UntilFn(v.endDate.value), StatusDateFn(v));
    } else {
      StageFuse(orders, k5, false, k5, StatusDateFn(v));
    }
  }

  /** The chain lists, in order, exactly the orders satisfying every stage. */
  lemma FilteredOrdersSpec(orders: seq<FinanceOrder>, v: View)
    ensures FilteredOrders(orders, v) == Filter(orders, KeepsFn(v))
  {
    ByStatusSpec(orders, v);
    ByDateSpec(orders, v);
    var k6 := StatusDateFn(v);
    StageFuse(orders, k6, v.search != "", SearchFn(Lower(v.search)), KeepsFn(v));
  }

  /** `paginatedOrders` for a one-based page. */
  function PageRows<T>(xs: seq<T>, page: int): seq<T> {
    Slice(xs, (page - 1) * ItemsPerPage, (page - 1) * ItemsPerPage + ItemsPerPage)
  }

  /** The first and last one-based positions the footer says are shown. */
  function ShownRange(page: int, n: nat): (int, int) {
    ((page - 1) * ItemsPerPage + 1, if page * ItemsPerPage < n then page * ItemsPerPage else n)
  }

  /** A page within range holds the rows between the footer's positions, and
      pages past the last are empty. */
  lemma PageSpec<T>(xs: seq<T>, page: int)
    requires page >= 1
    ensures 0 < |PageRows(xs, page)| <= ItemsPerPage <==> page <= TotalPages(|xs|, ItemsPerPage)
    ensures page <= TotalPages(|xs|, ItemsPerPage) ==>
              var (first, last) := ShownRange(page, |xs|);
              1 <= first <= last <= |xs| && PageRows(xs, page) == xs[first - 1..last]
  {
    var n := |xs|;
    var s := (page - 1) * ItemsPerPage;
    var t := TotalPages(n, ItemsPerPage);
    if page <= t {
      assert s <= (t - 1) * ItemsPerPage < n;
      if s + ItemsPerPage <= n {
        assert PageRows(xs, page) == xs[s..s + ItemsPerPage];
      } else {
        assert PageRows(xs, page) == xs[s..n];
      }
    } else {
      assert s >= t * ItemsPerPage >= n;
      assert PageRows(xs, page) == [];
    }
  }

  /** What the pagination shows for one page number. */
  datatype PageMark = Button | Ellipsis | Hidden

  function Mark(page: int, current: int, total: int): PageMark {
    if page == 1 || page == total || (current - 2 <= page <= current + 2) then Button
    else if page == current - 3 || page == current + 3 then Ellipsis
    else Hidden
  }

  function Rendered(current: int, total: int): int -> bool {
    p => Mark(p, current, total) != Hidden
  }

  /** The pages `lo` up to `hi`, excluding `hi`. */
  function Range(lo: int, hi: int): (r: seq<int>)
    ensures |r| == if lo < hi then hi - lo else 0
    ensures forall i :: 0 <= i < |r| ==> r[i] == lo + i
    decreases hi - lo
  {
    if lo >= hi then [] else [lo] + Range(lo + 1, hi)
  }

  /** The page numbers the pagination renders, in order. */
  function Window(current: int, total: nat): seq<int> {
    Filter(Range(1, total + 1), Rendered(current, total))
  }

  /** The first and last pages and the current page are buttons. */
  lemma WindowEnds(current: int, total: nat)
    requires total >= 1
    ensures 1 in Window(current, total) && total in Window(current, total)
    ensures Mark(1, current, total) == Button && Mark(total, current, total) == Button
    ensures 1 <= current <= total ==> current in Window(current, total) && Mark(current, current, total) == Button
  {
    assert Range(1, total + 1)[0] == 1;
    assert Range(1, total + 1)[total - 1] == total;
    if 1 <= current <= total {
      assert Range(1, total + 1)[current - 1] == current;
    }
  }

  /** The window never renders more than nine items however many pages
      there are: the first and last page and the seven around the current. */
  lemma WindowBound(current: int, total: nat)
    ensures |Window(current, total)| <= 9
  {
    var xs := Range(1, total + 1);
    CountCover(xs, Rendered(current, total), Within(1, 1), Within(total, total), Within(current - 3, current + 3));
    CountWithin(1, total + 1, 1, 1);
    CountWithin(1, total + 1, total, total);
    CountWithin(1, total + 1, current - 3, current + 3);
  }

  function Within(a: int, b: int): int -> bool {
    p => a <= p <= b
  }

  /** Counting under a condition covered by three others gives at most the
      sum of their counts. */
  lemma {:induction false} CountCover<T>(xs: seq<T>, f: T -> bool, g1: T -> bool, g2: T -> bool, g3: T -> bool)
    requires forall x :: f(x) ==> g1(x) || g2(x) || g3(x)
    ensures Count(xs, f) <= Count(xs, g1) + Count(xs, g2) + Count(xs, g3)
  {
    if xs != [] {
      CountCover(xs[1..], f, g1, g2, g3);
    }
  }

  /** At most `b - a + 1` of the pages lie between `a` and `b`. */
  lemma {:induction false} CountWithin(lo: int, hi: int, a: int, b: int)
    ensures Count(Range(lo, hi), Within(a, b)) <= if b - a + 1 > 0 then b - a + 1 else 0
    ensures lo > a ==> Count(Range(lo, hi), Within(a, b)) <= if b - lo + 1 > 0 then b - lo + 1 else 0
    decreases hi - lo
  {
    if lo < hi {
      CountWithin(lo + 1, hi, a, b);
      assert Range(lo, hi)[1..] == Range(lo + 1, hi);
    }
  }

  /** The key of an order's expanded details. */
  function DetailKey(orderNumber: string, packageNo: Option<string>): string {
    orderNumber + "_" + (if packageNo.Some? && packageNo.value != "" then packageNo.value else "HEAD")
  }

  /** One payment row of an order's details. */
  datatype PaymentDetail = PaymentDetail(amount: real, commission: Option<real>, discount: Option<real>,
                                         penalty: Option<real>, netAmount: Option<real>)

  /** `x || 0` */
  function OrZero(x: Option<real>): real {
    if x.Some? then x.value else 0.0
  }

  /** The amount less commission, discount and penalty. */
  function ComponentNet(d: PaymentDetail): real {
    d.amount - OrZero(d.commission) - OrZero(d.discount) - OrZero(d.penalty)
  }

  /** The net amount a detail row shows: its own net amount when non-zero. */
  function RowNet(d: PaymentDetail): (r: real)
    ensures d.netAmount.Some? && d.netAmount.value != 0.0 ==> r == d.netAmount.value
    ensures d.netAmount.None? || d.netAmount.value == 0.0 ==> r == ComponentNet(d)
  {
    if d.netAmount.Some? && d.netAmount.value != 0.0 then d.netAmount.value else ComponentNet(d)
  }

  /** The footer's amount, commission and net totals (0 when the details are
      not loaded). */
  function TotalAmount(ds: seq<PaymentDetail>): real {
    if ds == [] then 0.0 else TotalAmount(ds[..|ds| - 1]) + ds[|ds| - 1].amount
  }

  function TotalCommission(ds: seq<PaymentDetail>): real {
    if ds == [] then 0.0 else TotalCommission(ds[..|ds| - 1]) + OrZero(ds[|ds| - 1].commission)
  }

  function TotalDeductions(ds: seq<PaymentDetail>): real {
    if ds == [] then 0.0
    else TotalDeductions(ds[..|ds| - 1]) + OrZero(ds[|ds| - 1].discount) + OrZero(ds[|ds| - 1].penalty)
  }

  function TotalNet(ds: seq<PaymentDetail>): real {
    if ds == [] then 0.0 else TotalNet(ds[..|ds| - 1]) + ComponentNet(ds[|ds| - 1])
  }

  /** The sum of the nets the rows show. */
  function ShownNets(ds: seq<PaymentDetail>): real {
    if ds == [] then 0.0 else ShownNets(ds[..|ds| - 1]) + RowNet(ds[|ds| - 1])
  }

  /** The footer's net is its amount column less its commission column and
      the discounts and penalties. */
  lemma {:induction false} TotalNetColumns(ds: seq<PaymentDetail>)
    ensures TotalNet(ds) == TotalAmount(ds) - TotalCommission(ds) - TotalDeductions(ds)
  {
    if ds != [] {
      TotalNetColumns(ds[..|ds| - 1]);
    }
  }

  /** The footer's net agrees with the rows' nets when no row carries a
      non-zero net amount of its own that differs from its components. */
  lemma {:induction false} TotalNetMatchesRows(ds: seq<PaymentDetail>)
    requires forall i :: 0 <= i < |ds| ==> RowNet(ds[i]) == ComponentNet(ds[i])
    ensures TotalNet(ds) == ShownNets(ds)
  {
    if ds != [] {
      TotalNetMatchesRows(ds[..|ds| - 1]);
    }
  }

  /** A row's own net amount is shown on the row but not counted in the
      footer. */
  lemma NetAmountIgnoredInTotal()
    ensures var d := PaymentDetail(100.0, Some(10.0), None, None, Some(85.0));
            RowNet(d) == 85.0 && TotalNet([d]) == 90.0
  {
    var d := PaymentDetail(100.0, Some(10.0), None, None, Some(85.0));
    assert [d][..0] == [];
  }

  /** `getRemainingDays`: whole days from today to the payout day. */
  function RemainingDays(target: Option<int>, now: int): (r: Option<int>)
    ensures target.None? <==> r.None?
    ensures target.Some? ==> r.value == Day(target.value) - Day(now)
  {
    if target.None? then None
    else
      var diff := StartOfDay(target.value) - StartOfDay(now);
      assert diff == (Day(target.value) - Day(now)) * DayMs;
      Some(CeilDiv(diff, DayMs))
  }

  /** The row's overdue mark: unpaid with a payout day before today. */
  predicate RowOverdue(o: FinanceOrder, now: int) {
    var remaining := RemainingDays(o.expectedPayoutAt, now);
    IsUnpaid(o) && remaining.Some? && remaining.value < 0
  }

  /** A row marked overdue passes the overdue filter; the filter also keeps
      a payout due earlier today, which the row does not mark. */
  lemma OverdueMarkAndFilter(o: FinanceOrder, now: int)
    ensures RowOverdue(o, now) ==> IsOverdue(o, now)
    ensures var p := FinanceOrder("1", None, None, None, "unpaid", Some(DayMs), None);
            IsOverdue(p, DayMs + 1) && !RowOverdue(p, DayMs + 1)
  {
    if RowOverdue(o, now) {
      var t := o.expectedPayoutAt.value;
      assert Day(t) < Day(now);
      assert t < (Day(t) + 1) * DayMs <= Day(now) * DayMs <= now;
    }
  }

  /** The page's own state: the current page, the expanded orders and the
      payment details fetched so far. */
  class FinanceView {
    var currentPage: int
    var expanded: set<string>
    var details: map<string, seq<PaymentDetail>>

    predicate Valid()
      reads this
    {
      currentPage >= 1
    }

    constructor ()
      ensures Valid() && currentPage == 1 && expanded == {} && details == map[]
    {
      currentPage := 1;
      expanded := {};
      details := map[];
    }

    /** The previous-page button. */
    method Prev()
      requires Valid()
      modifies this
      ensures Valid()
      ensures currentPage == if old(currentPage) > 1 then old(currentPage) - 1 else 1
      ensures expanded == old(expanded) && details == old(details)
    {
      currentPage := if currentPage - 1 > 1 then currentPage - 1 else 1;
    }

    /** The next-page button, rendered only when there is more than one page. */
    method Next(totalPages: int)
      requires Valid() && totalPages > 1
      modifies this
      ensures Valid() && 1 <= currentPage <= totalPages
      ensures currentPage == if old(currentPage) + 1 < totalPages then old(currentPage) + 1 else totalPages
      ensures expanded == old(expanded) && details == old(details)
    {
      currentPage := if currentPage + 1 < totalPages then currentPage + 1 else totalPages;
    }

    /** A page button. */
    method GoTo(page: int, totalPages: nat)
      requires Valid() && page in Window(currentPage, totalPages) && Mark(page, currentPage, totalPages) == Button
      modifies this
      ensures Valid() && 1 <= currentPage <= totalPages && currentPage == page
      ensures expanded == old(expanded) && details == old(details)
    {
      currentPage := page;
    }

    /** `toggleExpand`: collapse an expanded order, or expand it and fetch its
        details once. A failing fetch leaves the state as it was. */
    method ToggleExpand(orderNumber: string, packageNo: Option<string>,
                        fetch: (string, Option<string>) -> Option<seq<PaymentDetail>>)
      modifies this
      ensures var key := DetailKey(orderNumber, packageNo);
              if key in old(expanded) || key in old(details) || fetch(orderNumber, packageNo).Some? then
                expanded == Toggled(old(expanded), key)
                && details == (if key in old(expanded) || key in old(details) then old(details)
                               else old(details)[key := fetch(orderNumber, packageNo).value])
              else expanded == old(expanded) && details == old(details)
      ensures currentPage == old(currentPage)
    {
      var key := DetailKey(orderNumber, packageNo);
      if key in expanded {
        expanded := expanded - {key};
      } else {
        if key !in details {
          var fetched := fetch(orderNumber, packageNo);
          if fetched.None? {
            return;
          }
          details := details[key := fetched.value];
        }
        expanded := expanded + {key};
      }
    }
  }
}
