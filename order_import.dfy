/** `importOrderExcel`: spreadsheet rows are read into order fields and grouped
    by order number into one order each, before the orders are saved. The
    spreadsheet reader, the date parser and the clock are parameters; saving
    to the database is not modelled. */
module OrderImport {
  import opened Wrappers
  import opened Seqs
  import opened Text
  import opened JsNumbers
  import Grouping

  /** A spreadsheet row: column header to cell value. */
  type Row = map<string, JsValue>

  const DayMs := 86400000

  /** Payments are due 28 days after delivery. */
  const PaymentDelayDays := 28

  function Cell(row: Row, header: string): JsValue {
    if header in row then row[header] else JUndefined
  }

  /** `row[header]?.toString()`, with "" standing for `undefined`. */
  function CellText(row: Row, header: string): string {
    match Cell(row, header)
    case JUndefined => ""
    case JNull => ""
    case v => JsString(v)
  }

  /** The position of the first header whose cell has non-empty text, or
      `|headers|` when there is none. */
  function FirstFilled(row: Row, headers: seq<string>): (k: nat)
    ensures k <= |headers|
    ensures forall j :: 0 <= j < k ==> CellText(row, headers[j]) == ""
    ensures k < |headers| ==> CellText(row, headers[k]) != ""
  {
    if headers == [] then 0
    else if CellText(row, headers[0]) != "" then 0
    else
      var k := FirstFilled(row, headers[1..]);
      assert forall j :: 1 <= j < k + 1 ==> headers[j] == headers[1..][j - 1];
      k + 1
  }

  /** `row[h1]?.toString() || row[h2]?.toString() || ...` */
  function FirstText(row: Row, headers: seq<string>): (r: string)
    ensures r == "" <==> forall i :: 0 <= i < |headers| ==> CellText(row, headers[i]) == ""
    ensures r != "" ==> exists i :: 0 <= i < |headers| && CellText(row, headers[i]) == r
                                     && forall j :: 0 <= j < i ==> CellText(row, headers[j]) == ""
  {
    var k := FirstFilled(row, headers);
    if k < |headers| then CellText(row, headers[k]) else ""
  }

  /** `row[h1] || row[h2] || ... || fallback` on the raw cell values: the
      first truthy cell, or the fallback when none is. */
  function FirstTruthy(row: Row, headers: seq<string>, fallback: JsValue): (r: JsValue)
    ensures (forall i :: 0 <= i < |headers| ==> !Truthy(Cell(row, headers[i]))) ==> r == fallback
    ensures (exists i :: 0 <= i < |headers| && Truthy(Cell(row, headers[i]))) ==>
              exists i :: 0 <= i < |headers| && r == Cell(row, headers[i]) && Truthy(r)
                          && forall j :: 0 <= j < i ==> !Truthy(Cell(row, headers[j]))
  {
    if headers == [] then fallback
    else if Truthy(Cell(row, headers[0])) then Cell(row, headers[0])
    else
      var r := FirstTruthy(row, headers[1..], fallback);
      assert forall i :: 1 <= i < |headers| ==> headers[1..][i - 1] == headers[i];
      assert (exists i :: 0 <= i < |headers| && Truthy(Cell(row, headers[i]))) ==>
              exists i :: 0 <= i < |headers| && r == Cell(row, headers[i]) && Truthy(r)
                          && forall j :: 0 <= j < i ==> !Truthy(Cell(row, headers[j])) by {
        if exists i :: 0 <= i < |headers| && Truthy(Cell(row, headers[i])) {
          var k :| 0 <= k < |headers| && Truthy(Cell(row, headers[k]));
          assert Truthy(Cell(row, headers[1..][k - 1]));
          var i :| 0 <= i < |headers[1..]| && r == Cell(row, headers[1..][i]) && Truthy(r)
                   && forall j :: 0 <= j < i ==> !Truthy(Cell(row, headers[1..][j]));
          assert forall j :: 0 <= j < i + 1 ==> !Truthy(Cell(row, headers[j])) by {
            forall j | 0 <= j < i + 1
              ensures !Truthy(Cell(row, headers[j]))
            {
              if j > 0 {
                assert headers[j] == headers[1..][j - 1];
              }
            }
          }
        }
      }
      r
  }

  datatype OrderItem = OrderItem(productName: string, barcode: string, quantity: Option<int>, price: Option<real>)

  /** One spreadsheet row read into order fields. Dates are milliseconds;
      `None` for a number is NaN. */
  datatype ParsedRow = ParsedRow(
    orderNumber: string,
    packageId: Option<string>,
    customer: string,
    total: Option<real>,
    orderDate: int,
    delivery: Option<int>,
    status: string,
    dueAt: Option<int>,
    item: Option<OrderItem>)

  /** A status that counts as delivered. */
  predicate IsDelivered(status: string) {
    status == "Teslim Edildi" || status == "Delivered" || Contains(status, "Teslim")
  }

  /** The payment due date: 28 days after a delivery, only for delivered orders. */
  function DueAt(delivery: Option<int>, status: string): (r: Option<int>)
    ensures r.Some? <==> delivery.Some? && IsDelivered(status)
    ensures r.Some? ==> r.value == delivery.value + PaymentDelayDays * DayMs
  {
    if delivery.Some? && IsDelivered(status) then Some(delivery.value + PaymentDelayDays * DayMs) else None
  }

  const QuantityHeaders := ["Adet", "Quantity"]
  const DeliveryHeaders := ["Teslim Tarihi", "Delivery Date"]
  const OrderDateHeaders := ["Sipariş Tarihi", "Order Date"]

  function Status(row: Row): string {
    JsString(FirstTruthy(row, ["Sipariş Statüsü", "Satır Statüsü", "Status"], JStr("")))
  }

  /** `parseInt(row['Adet'] || row['Quantity'] || '1')` */
  function Quantity(row: Row): Option<int> {
    ParseInt(JsString(FirstTruthy(row, QuantityHeaders, JStr("1"))))
  }

  /** The delivery date, when a delivery cell is set; `parseDate` is
      `new Date(value)`. */
  function Delivery(row: Row, parseDate: JsValue -> int): Option<int> {
    var cell := FirstTruthy(row, DeliveryHeaders, JNull);
    if Truthy(cell) then Some(parseDate(cell)) else None
  }

  /** The order date, or `now` when no order date cell is set. */
  function OrderDate(row: Row, now: int, parseDate: JsValue -> int): int {
    var cell := FirstTruthy(row, OrderDateHeaders, JNull);
    if Truthy(cell) then parseDate(cell) else now
  }

  /** The line item of the row, when it names a product. */
  function Item(row: Row): Option<OrderItem> {
    var productName := FirstTruthy(row, ["Ürün Adı", "Product Name"], JStr(""));
    var barcode := FirstTruthy(row, ["Barkod", "Barcode"], JStr(""));
    var price := ParseFloat(JsString(FirstTruthy(row, ["Satış Tutarı", "Birim Satış Fiyatı (KDV Dahil)", "Price"], JStr("0"))));
    if Truthy(productName) then Some(OrderItem(JsString(productName), JsString(barcode), Quantity(row), price)) else None
  }

  /** Reads the order fields of a row at import time `now`. */
  function ReadRow(row: Row, now: int, parseDate: JsValue -> int): ParsedRow {
    var packageId := FirstText(row, ["Paket No", "Paket Numarası"]);
    var customer := FirstTruthy(row, ["Müşteri Adı", "Customer Name"], JStr(""));
    var total := ParseFloat(JsString(FirstTruthy(row, ["Sipariş Tutarı", "Order Total"], JStr("0"))));
    ParsedRow(
      FirstText(row, ["Sipariş Numarası", "Order Number"]),
      if packageId != "" then Some(packageId) else None,
      JsString(customer),
      total,
      OrderDate(row, now, parseDate),
      Delivery(row, parseDate),
      Status(row),
      DueAt(Delivery(row, parseDate), Status(row)),
      Item(row))
  }

  /** A row without a quantity counts one piece. */
  lemma DefaultQuantity(row: Row)
    requires !Truthy(Cell(row, "Adet")) && !Truthy(Cell(row, "Quantity"))
    ensures Quantity(row) == Some(1)
  {
    assert FirstTruthy(row, QuantityHeaders, JStr("1")) == JStr("1");
    ParseIntDigits("1", "");
    assert "1" + "" == "1";
  }

  /** A row without an order date is dated at the import. */
  lemma DefaultOrderDate(row: Row, now: int, parseDate: JsValue -> int)
    requires !Truthy(Cell(row, "Sipariş Tarihi")) && !Truthy(Cell(row, "Order Date"))
    ensures OrderDate(row, now, parseDate) == now
  {
    assert FirstTruthy(row, OrderDateHeaders, JNull) == JNull;
  }

  /** A row has a delivery date exactly when one of its delivery cells is
      set, and a due date exactly when it also counts as delivered. */
  lemma DeliveryAndDue(row: Row, now: int, parseDate: JsValue -> int)
    ensures Delivery(row, parseDate).Some? <==> Truthy(Cell(row, "Teslim Tarihi")) || Truthy(Cell(row, "Delivery Date"))
    ensures var r := ReadRow(row, now, parseDate);
      r.dueAt.Some? <==> r.delivery.Some? && IsDelivered(r.status)
  {
    var cell := FirstTruthy(row, DeliveryHeaders, JNull);
    if !Truthy(Cell(row, "Teslim Tarihi")) {
      assert DeliveryHeaders[1..] == ["Delivery Date"];
      assert cell == FirstTruthy(row, ["Delivery Date"], JNull);
    }
  }

  function ParseRows(rows: seq<Row>, now: int, parseDate: JsValue -> int): (r: seq<ParsedRow>)
    ensures |r| == |rows| && forall i :: 0 <= i < |rows| ==> r[i] == ReadRow(rows[i], now, parseDate)
  {
    seq(|rows|, i requires 0 <= i < |rows| => ReadRow(rows[i], now, parseDate))
  }

  datatype ImportedOrder = ImportedOrder(
    orderNumber: string,
    packageId: Option<string>,
    customerName: string,
    totalPrice: Option<real>,
    orderDate: int,
    deliveryDate: Option<int>,
    status: string,
    dueAt: Option<int>,
    items: seq<OrderItem>)

  function ItemOf(r: ParsedRow): seq<OrderItem> {
    if r.item.Some? then [r.item.value] else []
  }

  /** The order a row creates when its number is first seen. */
  function NewOrder(r: ParsedRow): ImportedOrder {
    ImportedOrder(r.orderNumber, r.packageId, r.customer, r.total, r.orderDate, r.delivery, r.status, r.dueAt, [])
  }

  /** A later row of the same order: it fills in the delivery, status and due
      date only while the order has no delivery date yet, and adds its item. */
  function MergeRow(o: ImportedOrder, r: ParsedRow): ImportedOrder {
    var o' := if r.delivery.Some? && o.deliveryDate.None? then o.(deliveryDate := r.delivery, status := r.status, dueAt := r.dueAt) else o;
    o'.(items := o'.items + ItemOf(r))
  }

  /** The `orders` map after one more row: rows without an order number are
      skipped, a new number creates its order, a known one merges the row. */
  function AddRow(m: map<string, ImportedOrder>, r: ParsedRow): map<string, ImportedOrder> {
    if r.orderNumber == "" then m
    else if r.orderNumber !in m then m[r.orderNumber := NewOrder(r).(items := ItemOf(r))]
    else m[r.orderNumber := MergeRow(m[r.orderNumber], r)]
  }

  /** The `orders` map after the rows. */
  function OrdersOf(rows: seq<ParsedRow>): map<string, ImportedOrder> {
    if rows == [] then map[] else AddRow(OrdersOf(rows[..|rows| - 1]), rows[|rows| - 1])
  }

  predicate HasNumber(r: ParsedRow) {
    r.orderNumber != ""
  }

  function Number(r: ParsedRow): string {
    r.orderNumber
  }

  /** The order numbers in the order the `Map` iterates them: first
      appearance. */
  function KeyOrder(rows: seq<ParsedRow>): seq<string> {
    Grouping.InsertionOrder(Filter(rows, HasNumber), Number)
  }

  /** The body of the grouping loop for one row. */
  method ApplyRow(orders: map<string, ImportedOrder>, r: ParsedRow) returns (orders': map<string, ImportedOrder>)
    ensures orders' == AddRow(orders, r)
  {
    if r.orderNumber == "" {
      return orders;
    }
    var order;
    if r.orderNumber !in orders {
      order := NewOrder(r);
    } else {
      order := orders[r.orderNumber];
      if r.delivery.Some? && order.deliveryDate.None? {
        order := order.(deliveryDate := r.delivery, status := r.status, dueAt := r.dueAt);
      }
    }
    ghost var merged := order;
    if r.item.Some? {
      order := order.(items := order.items + [r.item.value]);
    }
    assert order == merged.(items := merged.items + ItemOf(r));
    assert r.orderNumber !in orders ==> merged.items + ItemOf(r) == ItemOf(r);
    orders' := orders[r.orderNumber := order];
  }

  /** The grouping loop of `importOrderExcel`, over the rows as read. */
  method GroupRows(parsed: seq<ParsedRow>) returns (orders: map<string, ImportedOrder>, keys: seq<string>)
    ensures orders == OrdersOf(parsed)
    ensures keys == KeyOrder(parsed)
  {
    orders, keys := map[], [];
    var i := 0;
    while i < |parsed|
      invariant 0 <= i <= |parsed|
      invariant orders == OrdersOf(parsed[..i])
      invariant keys == KeyOrder(parsed[..i])
    {
      var r := parsed[i];
      assert parsed[..i + 1] == parsed[..i] + [r];
      KeyOrderStep(parsed[..i], r);
      if r.orderNumber != "" && r.orderNumber !in orders {
        keys := keys + [r.orderNumber];
      }
      orders := ApplyRow(orders, r);
      i := i + 1;
    }
    assert parsed[..i] == parsed;
  }

  /** The iteration order after one more row. */
  lemma KeyOrderStep(rows: seq<ParsedRow>, r: ParsedRow)
    ensures KeyOrder(rows + [r]) ==
              if r.orderNumber != "" && r.orderNumber !in OrdersOf(rows) then KeyOrder(rows) + [r.orderNumber] else KeyOrder(rows)
  {
    FilterAppend(rows, [r], HasNumber);
    var f := Filter(rows, HasNumber);
    if r.orderNumber != "" {
      assert Filter([r], HasNumber) == [r];
      KeyOrderSnoc(f, r);
      KeyOrderDomain(rows, r.orderNumber);
    } else {
      assert Filter([r], HasNumber) == [];
      assert Filter(rows + [r], HasNumber) == f;
    }
  }

  lemma KeyOrderSnoc(rows: seq<ParsedRow>, r: ParsedRow)
    ensures Grouping.InsertionOrder(rows + [r], Number) ==
              var o := Grouping.InsertionOrder(rows, Number); if r.orderNumber in o then o else o + [r.orderNumber]
  {
    assert (rows + [r])[..|rows|] == rows;
  }

  /** The rows of one order, in spreadsheet order. */
  function RowsOf(rows: seq<ParsedRow>, k: string): seq<ParsedRow> {
    Filter(rows, NumberIs(k))
  }

  function NumberIs(k: string): ParsedRow -> bool {
    (r: ParsedRow) => r.orderNumber == k
  }

  /** The first row with a delivery date, if any. */
  function FirstDelivery(rs: seq<ParsedRow>): (d: Option<nat>)
    ensures d.Some? ==> d.value < |rs| && rs[d.value].delivery.Some? && forall j :: 0 <= j < d.value ==> rs[j].delivery.None?
    ensures d.None? ==> forall j :: 0 <= j < |rs| ==> rs[j].delivery.None?
  {
    if rs == [] then None
    else if rs[0].delivery.Some? then Some(0)
    else
      var d := FirstDelivery(rs[1..]);
      if d.Some? then Some(d.value + 1) else None
  }

  /** The items of the rows that name a product, in row order. */
  function ItemsOf(rs: seq<ParsedRow>): (items: seq<OrderItem>)
    ensures |items| <= |rs|
  {
    if rs == [] then [] else ItemOf(rs[0]) + ItemsOf(rs[1..])
  }

  /** What the grouping makes of the rows of one order, stated on the rows
      themselves: identity, customer, total and order date from the first
      row; delivery date, status and due date from the first row with a
      delivery date (the first row's when there is none); every named
      product as an item. */
  function Summary(rs: seq<ParsedRow>): ImportedOrder
    requires rs != []
  {
    var first := rs[0];
    var d := FirstDelivery(rs);
    var src := if d.Some? then rs[d.value] else first;
    ImportedOrder(first.orderNumber, first.packageId, first.customer, first.total, first.orderDate,
                  src.delivery, src.status, src.dueAt, ItemsOf(rs))
  }

  lemma {:induction false} FirstDeliverySnoc(rs: seq<ParsedRow>, x: ParsedRow)
    ensures FirstDelivery(rs + [x]) ==
              if FirstDelivery(rs).Some? then FirstDelivery(rs)
              else if x.delivery.Some? then Some(|rs|) else None
  {
    if rs != [] {
      assert (rs + [x])[1..] == rs[1..] + [x];
      FirstDeliverySnoc(rs[1..], x);
    }
  }

  lemma {:induction false} ItemsOfSnoc(rs: seq<ParsedRow>, x: ParsedRow)
    ensures ItemsOf(rs + [x]) == ItemsOf(rs) + ItemOf(x)
  {
    if rs == [] {
      assert ItemsOf([x]) == ItemOf(x) + ItemsOf([]);
    } else {
      assert (rs + [x])[1..] == rs[1..] + [x];
      ItemsOfSnoc(rs[1..], x);
    }
  }

  /** The summary of one more row of an order is the old summary with that
      row merged in. */
  lemma SummarySnoc(rs: seq<ParsedRow>, x: ParsedRow)
    requires rs != []
    ensures Summary(rs + [x]) == MergeRow(Summary(rs), x)
  {
    FirstDeliverySnoc(rs, x);
    ItemsOfSnoc(rs, x);
    var d := FirstDelivery(rs);
    assert (rs + [x])[0] == rs[0];
    if d.Some? {
      assert (rs + [x])[d.value] == rs[d.value];
    }
  }

  /** An order number is a key of the map exactly when it occurs in the
      rows. */
  lemma {:induction false} OrdersOfDomain(rows: seq<ParsedRow>, k: string)
    ensures k in OrdersOf(rows) <==> k != "" && RowsOf(rows, k) != []
  {
    if rows != [] {
      var init := rows[..|rows| - 1];
      var r := rows[|rows| - 1];
      OrdersOfDomain(init, k);
      assert rows == init + [r];
      FilterAppend(init, [r], NumberIs(k));
    }
  }

  /** The keys in iteration order are exactly the map's keys. */
  lemma {:induction false} KeyOrderDomain(rows: seq<ParsedRow>, k: string)
    ensures k in OrdersOf(rows) <==> k in KeyOrder(rows)
  {
    if rows != [] {
      var init := rows[..|rows| - 1];
      var r := rows[|rows| - 1];
      KeyOrderDomain(init, k);
      assert rows == init + [r];
      FilterAppend(init, [r], HasNumber);
      var f := Filter(init, HasNumber);
      if r.orderNumber == "" {
        assert Filter([r], HasNumber) == [];
        assert Filter(rows, HasNumber) == f;
      } else {
        assert Filter([r], HasNumber) == [r];
        assert Filter(rows, HasNumber) == f + [r];
        KeyOrderSnoc(f, r);
      }
    }
  }

  /** Every order is the summary of its own rows. */
  lemma {:induction false} OrdersOfSummary(rows: seq<ParsedRow>, k: string)
    requires k in OrdersOf(rows)
    ensures RowsOf(rows, k) != [] && OrdersOf(rows)[k] == Summary(RowsOf(rows, k))
  {
    var init := rows[..|rows| - 1];
    var r := rows[|rows| - 1];
    assert rows == init + [r];
    FilterAppend(init, [r], NumberIs(k));
    OrdersOfDomain(init, k);
    var m := OrdersOf(init);
    if r.orderNumber != k {
      assert Filter([r], NumberIs(k)) == [];
      assert RowsOf(rows, k) == RowsOf(init, k);
      assert OrdersOf(rows)[k] == m[k];
      OrdersOfSummary(init, k);
    } else if k in m {
      assert Filter([r], NumberIs(k)) == [r];
      assert RowsOf(rows, k) == RowsOf(init, k) + [r];
      assert OrdersOf(rows)[k] == MergeRow(m[k], r);
      OrdersOfSummary(init, k);
      SummarySnoc(RowsOf(init, k), r);
    } else {
      assert Filter([r], NumberIs(k)) == [r];
      assert RowsOf(rows, k) == [r];
      assert OrdersOf(rows)[k] == NewOrder(r).(items := ItemOf(r));
      SummaryOne(r);
    }
  }

  lemma SummaryOne(r: ParsedRow)
    ensures Summary([r]) == NewOrder(r).(items := ItemOf(r))
  {
    assert ItemsOf([r]) == ItemOf(r) + ItemsOf([]);
  }

  /** The result of the import grouping: each order number of the sheet
      once, in first-appearance order, each order summarising exactly its
      own rows. */
  lemma GroupRowsSpec(parsed: seq<ParsedRow>, k: string)
    ensures Distinct(KeyOrder(parsed))
    ensures k in OrdersOf(parsed) <==> k != "" && exists i :: 0 <= i < |parsed| && parsed[i].orderNumber == k
    ensures k in OrdersOf(parsed) <==> k in KeyOrder(parsed)
    ensures k in OrdersOf(parsed) ==> RowsOf(parsed, k) != [] && OrdersOf(parsed)[k] == Summary(RowsOf(parsed, k))
  {
    Grouping.InsertionOrderDedup(Filter(parsed, HasNumber), Number);
    OrdersOfDomain(parsed, k);
    KeyOrderDomain(parsed, k);
    if k in OrdersOf(parsed) {
      OrdersOfSummary(parsed, k);
    }
    RowsOfNonEmpty(parsed, k);
  }

  lemma RowsOfNonEmpty(rows: seq<ParsedRow>, k: string)
    ensures RowsOf(rows, k) != [] <==> exists i :: 0 <= i < |rows| && rows[i].orderNumber == k
  {
    if exists i :: 0 <= i < |rows| && rows[i].orderNumber == k {
      var i :| 0 <= i < |rows| && rows[i].orderNumber == k;
      assert NumberIs(k)(rows[i]);
    }
    if RowsOf(rows, k) != [] {
      assert RowsOf(rows, k)[0] in rows;
    }
  }
}
