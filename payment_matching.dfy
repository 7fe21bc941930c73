/** `syncTrendyolPayments` and `importPaymentExcel`: transactions from the
    settlement API or from a spreadsheet are matched to shipment packages,
    and the runs report how many were matched. The HTTP client and the
    database lookups are function parameters; the writes are not modelled. */
module PaymentMatching {
  import opened Wrappers
  import opened Seqs
  import opened Text
  import opened JsNumbers
  import OrderImport

  // ---------------------------------------------------------------------------
  // Credentials and the fetch windows
  // ---------------------------------------------------------------------------

  datatype Setting = Setting(key: string, value: Option<string>)

  datatype Credentials = Credentials(sellerId: string, apiKey: string, apiSecret: string)

  const MissingCredentials := "Trendyol API bilgileri eksik."

  /** The trimmed value of a setting, "" when it has none. */
  function TrimmedValue(s: Setting): string {
    if s.value.Some? then Trim(s.value.value) else ""
  }

  /** `settings.find(s => s.key === key)?.value?.trim()`, "" when absent: the
      value of the first setting with the key. */
  function SettingValue(settings: seq<Setting>, key: string): (r: string)
    ensures (forall i :: 0 <= i < |settings| ==> settings[i].key != key) ==> r == ""
    ensures forall i :: 0 <= i < |settings| && settings[i].key == key && (forall j :: 0 <= j < i ==> settings[j].key != key) ==>
              r == TrimmedValue(settings[i])
  {
    if settings == [] then ""
    else if settings[0].key == key then TrimmedValue(settings[0])
    else
      var rest := settings[1..];
      var r := SettingValue(rest, key);
      assert (forall i :: 0 <= i < |settings| ==> settings[i].key != key) ==> r == "" by {
        if forall i :: 0 <= i < |settings| ==> settings[i].key != key {
          assert forall i :: 0 <= i < |rest| ==> rest[i] == settings[i + 1];
        }
      }
      assert forall i :: 0 <= i < |settings| && settings[i].key == key && (forall j :: 0 <= j < i ==> settings[j].key != key) ==>
               r == TrimmedValue(settings[i]) by {
        forall i | 0 <= i < |settings| && settings[i].key == key && (forall j :: 0 <= j < i ==> settings[j].key != key)
          ensures r == TrimmedValue(settings[i])
        {
          assert rest[i - 1] == settings[i];
          assert forall j :: 0 <= j < i - 1 ==> rest[j] == settings[j + 1];
        }
      }
      r
  }

  /** The three trimmed credentials, or the error when one is empty. */
  function ReadCredentials(settings: seq<Setting>): (r: Result<Credentials, string>)
    ensures r.Ok? <==> SettingValue(settings, "trendyol_seller_id") != "" && SettingValue(settings, "trendyol_api_key") != ""
                       && SettingValue(settings, "trendyol_api_secret") != ""
    ensures r.Err? ==> r.error == MissingCredentials
    ensures r.Ok? ==> r.value.apiKey == SettingValue(settings, "trendyol_api_key")
  {
    var sellerId := SettingValue(settings, "trendyol_seller_id");
    var apiKey := SettingValue(settings, "trendyol_api_key");
    var apiSecret := SettingValue(settings, "trendyol_api_secret");
    if sellerId == "" || apiKey == "" || apiSecret == "" then Err(MissingCredentials)
    else Ok(Credentials(sellerId, apiKey, apiSecret))
  }

  /** The settlement history is read in 12 windows of 7 days. */
  const ChunkMs := 7 * 24 * 60 * 60 * 1000
  const ChunkCount := 12

  datatype Window = Window(startDate: int, endDate: int)

  /** Window `i` ends `i` windows before `now`. */
  function ChunkWindow(now: int, i: nat): (w: Window)
    ensures w.endDate - w.startDate == ChunkMs
  {
    Window(now - i * ChunkMs - ChunkMs, now - i * ChunkMs)
  }

  /** The windows are consecutive, newest first: each one starts where the
      previous one ends, and together they span the 84 days before `now`. */
  lemma WindowsTile(now: int, i: nat)
    ensures ChunkWindow(now, i + 1).endDate == ChunkWindow(now, i).startDate
    ensures ChunkWindow(now, 0).endDate == now
    ensures ChunkWindow(now, ChunkCount - 1).startDate == now - 84 * 24 * 60 * 60 * 1000
  {
  }

  // ---------------------------------------------------------------------------
  // Pulling the transactions
  // ---------------------------------------------------------------------------

  /** A settlement; the ids are raw JSON values. */
  datatype SyncTx = SyncTx(shipmentPackageId: JsValue, orderNumber: JsValue, reference: JsValue)

  /** The answer for one window: the page content (absent when the body has
      none), or the HTTP status and body of a failure. */
  datatype ChunkResponse = Fetched(content: Option<seq<SyncTx>>) | Failed(status: int, body: string)

  /** The transactions of one answer: the page content, if any. */
  function ContentOf(response: ChunkResponse): seq<SyncTx> {
    if response.Fetched? && response.content.Some? then response.content.value else []
  }

  /** The transactions of the fetched windows, in window order: exactly the
      transactions of the answered windows. */
  function Pulled(responses: seq<ChunkResponse>): (r: seq<SyncTx>)
    ensures forall t :: t in r <==> exists i :: 0 <= i < |responses| && t in ContentOf(responses[i])
  {
    if responses == [] then []
    else
      var init := responses[..|responses| - 1];
      var last := responses[|responses| - 1];
      assert forall i :: 0 <= i < |init| ==> init[i] == responses[i];
      Pulled(init) + ContentOf(last)
  }

  /** The windows' transactions follow each other in window order. */
  lemma {:induction false} PulledAppend(a: seq<ChunkResponse>, b: seq<ChunkResponse>)
    ensures Pulled(a + b) == Pulled(a) + Pulled(b)
    decreases |b|
  {
    if b == [] {
      assert a + b == a;
    } else {
      var init := b[..|b| - 1];
      assert (a + b)[..|a + b| - 1] == a + init;
      assert (a + b)[|a + b| - 1] == b[|b| - 1];
      PulledAppend(a, init);
    }
  }

  /** One window contributes its content. */
  lemma PulledOne(x: ChunkResponse)
    ensures Pulled([x]) == ContentOf(x)
  {
    assert [x][..0] == [];
  }

  /** The message a failed window leaves in the log. */
  function ErrorText(response: ChunkResponse): string
    requires response.Failed?
  {
    "API Error " + NatOrMinus(response.status) + ": " + response.body
  }

  /** The index of the last failed window, -1 when every window answered. */
  function LastFailed(responses: seq<ChunkResponse>): (k: int)
    ensures -1 <= k < |responses|
    ensures k >= 0 ==> responses[k].Failed?
    ensures forall j :: k < j < |responses| ==> responses[j].Fetched?
  {
    if responses == [] then -1
    else if responses[|responses| - 1].Failed? then |responses| - 1
    else
      var init := responses[..|responses| - 1];
      assert forall j :: 0 <= j < |init| ==> init[j] == responses[j];
      LastFailed(init)
  }

  /** The error the log keeps: that of the last failed window. */
  function LastError(responses: seq<ChunkResponse>): (r: Option<string>)
    ensures r.None? <==> forall i :: 0 <= i < |responses| ==> responses[i].Fetched?
    ensures r.Some? ==> LastFailed(responses) >= 0 && r.value == ErrorText(responses[LastFailed(responses)])
  {
    if responses == [] then None
    else
      var last := responses[|responses| - 1];
      var init := responses[..|responses| - 1];
      assert forall i :: 0 <= i < |init| ==> init[i] == responses[i];
      if last.Failed? then Some(ErrorText(last)) else LastError(init)
  }

  /** The decimal text of an HTTP status. */
  function NatOrMinus(n: int): string {
    if n >= 0 then NatText(n) else "-" + NatText(-n)
  }

  /** The fetch loop: every window is requested, newest first; the
      transactions of the answered windows are concatenated and a failure
      only sets the error. */
  method PullTransactions(now: int, fetch: Window -> ChunkResponse) returns (txs: seq<SyncTx>, error: Option<string>)
    ensures txs == Pulled(seq(ChunkCount, i requires 0 <= i => fetch(ChunkWindow(now, i))))
    ensures error == LastError(seq(ChunkCount, i requires 0 <= i => fetch(ChunkWindow(now, i))))
  {
    ghost var responses := seq(ChunkCount, i requires 0 <= i => fetch(ChunkWindow(now, i)));
    txs, error := [], None;
    var i := 0;
    while i < ChunkCount
      invariant 0 <= i <= ChunkCount
      invariant txs == Pulled(responses[..i])
      invariant error == LastError(responses[..i])
    {
      var response := fetch(ChunkWindow(now, i));
      assert responses[..i + 1][..i] == responses[..i];
      assert responses[..i + 1][i] == response;
      if response.Fetched? {
        if response.content.Some? {
          txs := txs + response.content.value;
        }
      } else {
        error := Some("API Error " + NatOrMinus(response.status) + ": " + response.body);
      }
      i := i + 1;
    }
    assert responses[..i] == responses;
  }

  // ---------------------------------------------------------------------------
  // Matching the pulled transactions
  // ---------------------------------------------------------------------------

  /** `value?.toString()`, "" for `undefined` and `null`. */
  function IdText(v: JsValue): string {
    match v
    case JUndefined => ""
    case JNull => ""
    case _ => JsString(v)
  }

  /** A transaction matches a package by its package id, or failing that by
      its order number; `byPackage` and `byOrder` say whether the lookup
      finds a single package. */
  predicate Matched(tx: SyncTx, byPackage: string -> bool, byOrder: string -> bool) {
    (IdText(tx.shipmentPackageId) != "" && byPackage(IdText(tx.shipmentPackageId)))
    || (IdText(tx.orderNumber) != "" && byOrder(IdText(tx.orderNumber)))
  }

  datatype SyncLog = SyncLog(pulled: nat, matched: nat, paid: nat, unmatched: nat)

  function MatchedFn(byPackage: string -> bool, byOrder: string -> bool): SyncTx -> bool {
    (t: SyncTx) => Matched(t, byPackage, byOrder)
  }

  function UnmatchedFn(byPackage: string -> bool, byOrder: string -> bool): SyncTx -> bool {
    (t: SyncTx) => !Matched(t, byPackage, byOrder)
  }

  /** The matching loop of `syncTrendyolPayments`: every matched transaction
      marks its package paid, every other one is stored as unmatched. */
  method MatchTransactions(txs: seq<SyncTx>, byPackage: string -> bool, byOrder: string -> bool)
    returns (log: SyncLog, unmatched: seq<SyncTx>)
    ensures log.pulled == |txs|
    ensures log.matched == log.paid == Count(txs, MatchedFn(byPackage, byOrder))
    ensures log.matched + log.unmatched == log.pulled
    ensures unmatched == Filter(txs, UnmatchedFn(byPackage, byOrder))
    ensures |unmatched| == log.unmatched
  {
    log := SyncLog(|txs|, 0, 0, 0);
    unmatched := [];
    var i := 0;
    while i < |txs|
      invariant 0 <= i <= |txs|
      invariant log.pulled == |txs|
      invariant log.matched == log.paid == Count(txs[..i], MatchedFn(byPackage, byOrder))
      invariant unmatched == Filter(txs[..i], UnmatchedFn(byPackage, byOrder))
      invariant log.unmatched == |unmatched|
      invariant log.matched + log.unmatched == i
    {
      var tx := txs[i];
      assert txs[..i + 1] == txs[..i] + [tx];
      MatchStep(txs[..i], tx, byPackage, byOrder);
      var packageId := IdText(tx.shipmentPackageId);
      var orderNumber := IdText(tx.orderNumber);
      var found := false;
      if packageId != "" && byPackage(packageId) {
        found := true;
        log := log.(matched := log.matched + 1, paid := log.paid + 1);
      }
      if !found && orderNumber != "" && byOrder(orderNumber) {
        found := true;
        log := log.(matched := log.matched + 1, paid := log.paid + 1);
      }
      if !found {
        unmatched := unmatched + [tx];
        log := log.(unmatched := log.unmatched + 1);
      }
      i := i + 1;
    }
    assert txs[..i] == txs;
  }

  /** The counters after one more transaction. */
  lemma MatchStep(done: seq<SyncTx>, tx: SyncTx, byPackage: string -> bool, byOrder: string -> bool)
    ensures Count(done + [tx], MatchedFn(byPackage, byOrder))
            == Count(done, MatchedFn(byPackage, byOrder)) + (if Matched(tx, byPackage, byOrder) then 1 else 0)
    ensures Filter(done + [tx], UnmatchedFn(byPackage, byOrder))
            == Filter(done, UnmatchedFn(byPackage, byOrder)) + (if Matched(tx, byPackage, byOrder) then [] else [tx])
  {
    var f := MatchedFn(byPackage, byOrder);
    var g := UnmatchedFn(byPackage, byOrder);
    CountAppend(done, [tx], f);
    FilterAppend(done, [tx], g);
    if Matched(tx, byPackage, byOrder) {
      assert Filter([tx], f) == [tx] && Filter([tx], g) == [];
    } else {
      assert Filter([tx], f) == [] && Filter([tx], g) == [tx];
    }
  }

  // ---------------------------------------------------------------------------
  // The spreadsheet import
  // ---------------------------------------------------------------------------

  /** The identifiers of one payment row. */
  datatype PaymentRow = PaymentRow(orderNumber: string, packageId: string)

  function ReadPaymentRow(row: OrderImport.Row): PaymentRow {
    PaymentRow(OrderImport.FirstText(row, ["Sipariş Numarası", "Sipariş No", "Order Number"]),
               OrderImport.FirstText(row, ["Paket Numarası", "Paket No", "Shipment Package ID"]))
  }

  /** A row with neither identifier is skipped. */
  predicate Usable(r: PaymentRow) {
    r.orderNumber != "" || r.packageId != ""
  }

  /** A usable row is matched through its order (when the order has packages)
      or else through its package id. `packagesOf(o)` is the number of
      packages of order `o`; `hasPackage(p)` whether package `p` exists. */
  predicate RowMatched(r: PaymentRow, packagesOf: string -> nat, hasPackage: string -> bool) {
    (r.orderNumber != "" && packagesOf(r.orderNumber) > 0) || (r.packageId != "" && hasPackage(r.packageId))
  }

  /** What one row adds to `matched` as the import counts it: every package
      of a matched order, or one for a package match. */
  function MatchedPackages(r: PaymentRow, packagesOf: string -> nat, hasPackage: string -> bool): (n: nat)
    ensures n > 0 <==> RowMatched(r, packagesOf, hasPackage)
  {
    if r.orderNumber != "" && packagesOf(r.orderNumber) > 0 then packagesOf(r.orderNumber)
    else if r.packageId != "" && hasPackage(r.packageId) then 1
    else 0
  }

  datatype ImportSummary = ImportSummary(processed: nat, matched: nat, unmatched: int)

  /** `importPaymentExcel` as written: `matched` adds up packages, while
      `unmatched` is `processed - matched`, a count of rows minus a count of
      packages. */
  method ImportPaymentCounts(rows: seq<PaymentRow>, packagesOf: string -> nat, hasPackage: string -> bool)
    returns (s: ImportSummary)
    ensures s.processed == Count(rows, Usable)
    ensures s.matched == SumMatchedPackages(rows, packagesOf, hasPackage)
    ensures s.unmatched == s.processed - s.matched
  {
    var processed, matched := 0, 0;
    var i := 0;
    while i < |rows|
      invariant 0 <= i <= |rows|
      invariant processed == Count(rows[..i], Usable)
      invariant matched == SumMatchedPackages(rows[..i], packagesOf, hasPackage)
    {
      var r := rows[i];
      assert rows[..i + 1] == rows[..i] + [r];
      assert rows[..i + 1][..i] == rows[..i];
      CountAppend(rows[..i], [r], Usable);
      if Usable(r) {
        assert Filter([r], Usable) == [r];
        processed := processed + 1;
        var found := false;
        if r.orderNumber != "" && packagesOf(r.orderNumber) > 0 {
          matched := matched + packagesOf(r.orderNumber);
          found := true;
        }
        if !found && r.packageId != "" && hasPackage(r.packageId) {
          matched := matched + 1;
          found := true;
        }
      } else {
        assert Filter([r], Usable) == [];
      }
      i := i + 1;
    }
    assert rows[..i] == rows;
    s := ImportSummary(processed, matched, processed - matched);
  }

  /** The `matched` counter of the import as written. A row without
      identifiers adds nothing: neither of its lookups can succeed. */
  function SumMatchedPackages(rows: seq<PaymentRow>, packagesOf: string -> nat, hasPackage: string -> bool): nat {
    if rows == [] then 0
    else SumMatchedPackages(rows[..|rows| - 1], packagesOf, hasPackage) + MatchedPackages(rows[|rows| - 1], packagesOf, hasPackage)
  }

  /** One payment row for an order shipped in two packages reports one
      processed row, two matched and minus one unmatched. */
  lemma NegativeUnmatched()
    ensures var rows := [PaymentRow("A1", "")];
      var packagesOf := (o: string) => if o == "A1" then 2 else 0;
      var hasPackage := (p: string) => false;
      && Count(rows, Usable) == 1
      && SumMatchedPackages(rows, packagesOf, hasPackage) == 2
      && Count(rows, Usable) - SumMatchedPackages(rows, packagesOf, hasPackage) == -1
  {
    var rows := [PaymentRow("A1", "")];
    assert rows[..0] == [];
    assert Filter(rows, Usable) == [rows[0]];
  }

  /** The import with the counters the report presents: `matched` counts the
      rows matched to an order or a package, and `unmatched` the remaining
      usable rows. */
  method ImportPaymentCountsCorrected(rows: seq<PaymentRow>, packagesOf: string -> nat, hasPackage: string -> bool)
    returns (s: ImportSummary)
    ensures s.processed == Count(rows, Usable)
    ensures s.matched == Count(rows, (r: PaymentRow) => RowMatched(r, packagesOf, hasPackage))
    ensures s.unmatched == Count(rows, (r: PaymentRow) => Usable(r) && !RowMatched(r, packagesOf, hasPackage))
    ensures 0 <= s.unmatched && s.matched <= s.processed
    ensures s.matched + s.unmatched == s.processed
  {
    ghost var isMatched := (r: PaymentRow) => RowMatched(r, packagesOf, hasPackage);
    ghost var isUnmatched := (r: PaymentRow) => Usable(r) && !RowMatched(r, packagesOf, hasPackage);
    var processed, matched, unmatched := 0, 0, 0;
    var i := 0;
    while i < |rows|
      invariant 0 <= i <= |rows|
      invariant processed == Count(rows[..i], Usable)
      invariant matched == Count(rows[..i], isMatched)
      invariant unmatched == Count(rows[..i], isUnmatched)
      invariant matched + unmatched == processed
    {
      var r := rows[i];
      assert rows[..i + 1] == rows[..i] + [r];
      CountAppend(rows[..i], [r], Usable);
      CountAppend(rows[..i], [r], isMatched);
      CountAppend(rows[..i], [r], isUnmatched);
      if Usable(r) {
        processed := processed + 1;
        var found := false;
        if r.orderNumber != "" && packagesOf(r.orderNumber) > 0 {
          found := true;
        }
        if !found && r.packageId != "" && hasPackage(r.packageId) {
          found := true;
        }
        if found {
          matched := matched + 1;
          assert Filter([r], isMatched) == [r] && Filter([r], isUnmatched) == [];
        } else {
          unmatched := unmatched + 1;
          assert Filter([r], isMatched) == [] && Filter([r], isUnmatched) == [r];
        }
        assert Filter([r], Usable) == [r];
      } else {
        assert Filter([r], Usable) == [] && Filter([r], isMatched) == [] && Filter([r], isUnmatched) == [];
      }
      i := i + 1;
    }
    assert rows[..i] == rows;
    s := ImportSummary(processed, matched, unmatched);
  }

  /** With the corrected counters a spreadsheet is never reported with a
      negative number of unmatched rows; as written it is whenever an order
      has more packages than there are unmatched rows. */
  lemma CorrectedCountsOnExample()
    ensures var rows := [PaymentRow("A1", "")];
      var packagesOf := (o: string) => if o == "A1" then 2 else 0;
      var hasPackage := (p: string) => false;
      && Count(rows, (r: PaymentRow) => RowMatched(r, packagesOf, hasPackage)) == 1
      && Count(rows, (r: PaymentRow) => Usable(r) && !RowMatched(r, packagesOf, hasPackage)) == 0
  {
    var rows := [PaymentRow("A1", "")];
    var packagesOf := (o: string) => if o == "A1" then 2 else 0;
    var hasPackage := (p: string) => false;
    assert Filter(rows, (r: PaymentRow) => RowMatched(r, packagesOf, hasPackage)) == rows;
    assert Filter(rows, (r: PaymentRow) => Usable(r) && !RowMatched(r, packagesOf, hasPackage)) == [];
  }
}
