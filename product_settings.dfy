/** The product settings list: the product search and status filter, twenty
    products per page, and the target-margin field, shown as a percentage
    with a decimal comma and read back from what the user types. */
module ProductSettings {
  import opened Wrappers
  import opened Seqs
  import opened Text
  import opened JsNumbers

  /** A catalogue product; the margin is a fraction (0.25 is 25 %). */
  datatype Product = Product(id: string, name: string, barcode: string, sku: Option<string>,
                             isActive: bool, targetProfitMargin: Option<real>)

  datatype StatusFilter = AllProducts | ActiveOnly | PassiveOnly

  /** The list opens on the active products. */
  const DefaultStatus := ActiveOnly

  const ItemsPerPage := 20

  /** Name and SKU case-insensitively, barcode as typed. */
  predicate MatchesSearch(p: Product, term: string) {
    Contains(Lower(p.name), Lower(term)) || Contains(p.barcode, term)
    || (p.sku.Some? && Contains(Lower(p.sku.value), Lower(term)))
  }

  predicate MatchesStatus(p: Product, status: StatusFilter) {
    status == AllProducts || (status == ActiveOnly && p.isActive) || (status == PassiveOnly && !p.isActive)
  }

  function Keeps(term: string, status: StatusFilter): Product -> bool {
    p => MatchesSearch(p, term) && MatchesStatus(p, status)
  }

  /** `filteredProducts` */
  function FilteredProducts(products: seq<Product>, term: string, status: StatusFilter): (r: seq<Product>)
    ensures IsSubsequence(r, products)
    ensures forall p :: p in r <==> p in products && MatchesSearch(p, term) && MatchesStatus(p, status)
  {
    FilterIsSubsequence(products, Keeps(term, status));
    Filter(products, Keeps(term, status))
  }

  /** With nothing typed, the list is the products of the chosen status. */
  lemma EmptySearch(products: seq<Product>, status: StatusFilter)
    ensures forall p :: p in FilteredProducts(products, "", status) <==> p in products && MatchesStatus(p, status)
  {
    forall p: Product {
      ContainsEmpty(Lower(p.name));
    }
  }

  /** The status filters split the products: every product is listed under
      exactly one of active and passive. */
  lemma StatusPartition(products: seq<Product>, term: string)
    ensures |FilteredProducts(products, term, ActiveOnly)| + |FilteredProducts(products, term, PassiveOnly)|
            == |FilteredProducts(products, term, AllProducts)|
  {
    var all := FilteredProducts(products, term, AllProducts);
    FilterFuseCount(products, term);
  }

  lemma {:induction false} FilterFuseCount(products: seq<Product>, term: string)
    ensures |Filter(products, Keeps(term, ActiveOnly))| + |Filter(products, Keeps(term, PassiveOnly))|
            == |Filter(products, Keeps(term, AllProducts))|
  {
    if products != [] {
      FilterFuseCount(products[1..], term);
    }
  }

  /** `paginatedProducts` */
  function PageRows<T>(xs: seq<T>, page: int): seq<T> {
    Slice(xs, (page - 1) * ItemsPerPage, page * ItemsPerPage)
  }

  /** The numbered buttons: pages 1 to 5 at most, whatever the current page. */
  function PageButtons(totalPages: nat): (r: seq<int>)
    ensures |r| <= 5 && |r| <= totalPages
    ensures forall i :: 0 <= i < |r| ==> r[i] == i + 1
  {
    var k := if totalPages < 5 then totalPages else 5;
    seq(k, i requires 0 <= i < k => i + 1)
  }

  /** The previous-page button. */
  function PrevPage(page: int): (r: int)
    ensures r >= 1 && (page > 1 ==> r == page - 1)
  {
    if page - 1 > 1 then page - 1 else 1
  }

  /** The next-page button as written: it stays enabled on an empty list,
      where it moves to page 0. */
  function NextPage(page: int, totalPages: nat): (r: int)
    ensures r <= totalPages && r <= page + 1
    ensures page < totalPages ==> r == page + 1
  {
    if totalPages < page + 1 then totalPages else page + 1
  }

  /** Every page from 1 to the last holds between one and twenty products,
      in list order, and together they cover the list. */
  lemma PageSpec<T>(xs: seq<T>, page: int)
    requires 1 <= page <= TotalPages(|xs|, ItemsPerPage)
    ensures 0 < |PageRows(xs, page)| <= ItemsPerPage
    ensures PageRows(xs, page) == xs[(page - 1) * ItemsPerPage..if page * ItemsPerPage < |xs| then page * ItemsPerPage else |xs|]
  {
    var t := TotalPages(|xs|, ItemsPerPage);
    assert (page - 1) * ItemsPerPage <= (t - 1) * ItemsPerPage < |xs|;
  }

  /** Clicking next on an empty list leaves page 0 selected, and once
      products come back that page shows none of them. */
  lemma NextOnEmptyList(xs: seq<int>)
    requires |xs| == 30
    ensures NextPage(1, TotalPages(0, ItemsPerPage)) == 0
    ensures PageRows(xs, NextPage(1, TotalPages(0, ItemsPerPage))) == []
  {
    assert TotalPages(0, ItemsPerPage) == 0;
  }

  /** The next-page button kept on real pages. */
  function NextPageCorrected(page: int, totalPages: nat): (r: int)
    ensures r >= 1
    ensures 1 <= page && totalPages >= 1 ==> r <= totalPages || r == page
    ensures 1 <= page < totalPages ==> r == page + 1
  {
    var n := NextPage(page, totalPages);
    if n < 1 then 1 else n
  }

  /** With the corrected button every reachable page number is a real page
      once the list is non-empty again. */
  lemma CorrectedNextShowsProducts<T>(xs: seq<T>, page: int, totalPages: nat)
    requires 1 <= page <= TotalPages(|xs|, ItemsPerPage) || (totalPages == 0 && page == 1)
    requires xs != []
    requires NextPageCorrected(page, totalPages) <= TotalPages(|xs|, ItemsPerPage)
    ensures PageRows(xs, NextPageCorrected(page, totalPages)) != []
  {
    PageSpec(xs, NextPageCorrected(page, totalPages));
  }

  // ---------------------------------------------------------------------
  // The target-margin field

  /** The field's text: the margin times 100, with the first '.' written as
      ','; an unset margin shows an empty field. */
  function MarginText(m: Option<real>): string {
    if m.None? then "" else ReplaceFirst(NumberText(m.value * 100.0), '.', ",")
  }

  /** The typed text as `parseFloat` receives it: trimmed, the first '.'
      deleted and the first ',' turned into '.'. */
  function Normalised(input: string): string {
    ReplaceFirst(ReplaceFirst(Trim(input), '.', ""), ',', ".")
  }

  /** What the field stores for the number `parseFloat` read (`parsed`):
      that number divided by 100; if nothing was read, an empty field clears
      the margin and any other text keeps `current`. */
  function Stored(parsed: Option<real>, input: string, current: Option<real>): Option<real> {
    match parsed
    case Some(v) => Some(v / 100.0)
    case None => if input == "" then None else current
  }

  /** The margin after typing `input` into the field. */
  function MarginInput(input: string, current: Option<real>): Option<real> {
    Stored(ParseFloat(Normalised(input)), input, current)
  }

  /** Whenever the normalised text reads as a number, the stored margin is
      that number divided by 100. */
  lemma PercentOf(input: string, text: string, current: Option<real>)
    requires Normalised(input) == text && ParseFloat(text).Some?
    ensures MarginInput(input, current) == Some(ParseFloat(text).value / 100.0)
  {
    var p := ParseFloat(text);
    PercentOfParsed(input, p.value, current);
  }

  lemma PercentOfParsed(input: string, v: real, current: Option<real>)
    requires ParseFloat(Normalised(input)) == Some(v)
    ensures MarginInput(input, current) == Some(v / 100.0)
  {
  }

  /** Text the normalisation leaves unreadable keeps the stored margin, except
      an empty field, which clears it. */
  lemma Unreadable(input: string, current: Option<real>)
    requires ParseFloat(Normalised(input)).None?
    ensures MarginInput(input, current) == if input == "" then None else current
  {
  }

  /** An emptied field clears the margin. */
  lemma EmptyClears(current: Option<real>)
    ensures MarginInput("", current) == None
  {
    assert Normalised("") == "";
    EmptyParses();
    Unreadable("", current);
  }

  lemma NoPointOrComma(d: string)
    requires AllDigits(d)
    ensures '.' !in d && ',' !in d
  {
    forall i | 0 <= i < |d| ensures d[i] != '.' && d[i] != ',' {
      assert IsDigit(d[i]);
    }
  }

  lemma NotInJoin(a: string, sep: char, b: string, c: char)
    requires c !in a && c !in b && c != sep
    ensures c !in a + [sep] + b
  {
    forall i | 0 <= i < |a + [sep] + b| ensures (a + [sep] + b)[i] != c {
      if i < |a| { assert (a + [sep] + b)[i] == a[i]; }
      else if i > |a| { assert (a + [sep] + b)[i] == b[i - |a| - 1]; }
    }
  }

  lemma TrimJoin(a: string, sep: char, b: string)
    requires a != [] && b != [] && !IsSpace(a[0]) && !IsSpace(b[|b| - 1])
    ensures Trim(a + [sep] + b) == a + [sep] + b
  {
    var s := a + [sep] + b;
    assert s[0] == a[0] && s[|s| - 1] == b[|b| - 1];
    TrimNoSpaces(s);
  }

  /** Text that needs no trimming and has no '.' only has its first ','
      turned into '.'. */
  lemma NormalisedSteps(s: string)
    requires Trim(s) == s && '.' !in s
    ensures Normalised(s) == ReplaceFirst(s, ',', ".")
  {
    ReplaceFirstAbsent(s, '.', "");
  }

  lemma NormalisedComma(ip: string, fp: string)
    requires AllDigits(ip) && AllDigits(fp) && ip != [] && fp != []
    ensures Normalised(ip + "," + fp) == ip + "." + fp
  {
    NoPointOrComma(ip);
    NoPointOrComma(fp);
    assert IsDigit(ip[0]) && IsDigit(fp[|fp| - 1]);
    NormalisedJoin(ip, fp);
  }

  lemma NormalisedJoin(ip: string, fp: string)
    requires '.' !in ip && ',' !in ip && '.' !in fp && ip != [] && fp != []
    requires !IsSpace(ip[0]) && !IsSpace(fp[|fp| - 1])
    ensures Normalised(ip + "," + fp) == ip + "." + fp
  {
    var s := ip + [','] + fp;
    TrimJoin(ip, ',', fp);
    NotInJoin(ip, ',', fp, '.');
    ReplaceFirstSplit(ip, ',', ".", fp);
    NormalisedSteps(s);
  }

  lemma NormalisedDigits(ip: string)
    requires AllDigits(ip) && ip != []
    ensures Normalised(ip) == ip
  {
    NoPointOrComma(ip);
    assert IsDigit(ip[0]) && IsDigit(ip[|ip| - 1]);
    NormalisedPlain(ip);
  }

  lemma NormalisedPlain(ip: string)
    requires '.' !in ip && ',' !in ip && ip != []
    requires !IsSpace(ip[0]) && !IsSpace(ip[|ip| - 1])
    ensures Normalised(ip) == ip
  {
    TrimNoSpaces(ip);
    NormalisedSteps(ip);
    ReplaceFirstAbsent(ip, ',', ".");
  }

  /** Text with a decimal comma reads as the same decimal written with a
      point. */
  lemma CommaDecimal(ip: string, fp: string, current: Option<real>)
    requires AllDigits(ip) && AllDigits(fp) && ip != [] && fp != []
    ensures ParseFloat(ip + "." + fp).Some?
    ensures MarginInput(ip + "," + fp, current) == Some(ParseFloat(ip + "." + fp).value / 100.0)
  {
    NormalisedComma(ip, fp);
    DecimalParses(ip, fp);
    PercentOf(ip + "," + fp, ip + "." + fp, current);
  }

  lemma DecimalParses(ip: string, fp: string)
    requires AllDigits(ip) && AllDigits(fp) && ip != [] && fp != []
    ensures ParseFloat(ip + "." + fp).Some?
  {
    ParseFloatDecimal(ip, fp);
  }

  /** The digits of a whole number n read as n percent. */
  lemma WholePercent(n: nat, current: Option<real>)
    ensures MarginInput(NatText(n), current) == Some(n as real / 100.0)
  {
    NatTextValue(n);
    DigitsPercent(NatText(n), n as real, current);
  }

  lemma DigitsPercent(ip: string, v: real, current: Option<real>)
    requires AllDigits(ip) && ip != [] && v == DigitsValue(ip) as real
    ensures MarginInput(ip, current) == Some(v / 100.0)
  {
    DigitsFacts(ip);
    PlainPercent(ip, v, current);
  }

  /** What the normalisation and `parseFloat` need to know of a digit string. */
  lemma DigitsFacts(ip: string)
    requires AllDigits(ip) && ip != []
    ensures '.' !in ip && ',' !in ip
    ensures !IsSpace(ip[0]) && !IsSpace(ip[|ip| - 1])
    ensures ParseFloat(ip) == Some(DigitsValue(ip) as real)
  {
    NoPointOrComma(ip);
    assert IsDigit(ip[0]) && IsDigit(ip[|ip| - 1]);
    ParseFloatDigits(ip);
  }

  lemma PlainPercent(ip: string, v: real, current: Option<real>)
    requires '.' !in ip && ',' !in ip && ip != []
    requires !IsSpace(ip[0]) && !IsSpace(ip[|ip| - 1])
    requires ParseFloat(ip) == Some(v)
    ensures MarginInput(ip, current) == Some(v / 100.0)
  {
    NormalisedPlain(ip);
    PercentOfParsed(ip, v, current);
  }

  /** `String(x)` of a non-negative number with a fractional part: the
      whole digits, a point and at least one fraction digit. The field then
      shows `ip,fp`, which `FractionRoundTrip` reads back. */
  lemma FractionShape(x: real)
    requires x >= 0.0 && x.Floor as real != x
    ensures NumberText(x) == NatText(x.Floor) + "." + FracText(x - x.Floor as real, 20)
    ensures FracText(x - x.Floor as real, 20) != []
  {
    var f := x - x.Floor as real;
    assert 0.0 < f < 1.0;
    assert NumberText(x) == UnsignedText(x);
    assert UnsignedText(x) == NatText(x.Floor) + "." + FracText(f, 20);
    assert |FracText(f, 20)| > 0;
  }

  /** A whole percentage survives the round trip exactly. */
  lemma WholeMarginRoundTrip(n: nat, current: Option<real>)
    ensures MarginInput(MarginText(Some(n as real / 100.0)), current) == Some(n as real / 100.0)
  {
    assert n as real / 100.0 * 100.0 == n as real;
    ShownWhole(MarginText(Some(n as real / 100.0)), NumberText(n as real), n, current);
  }

  /** The field showing `s`, the text of the whole number n. */
  lemma ShownWhole(s: string, t: string, n: nat, current: Option<real>)
    requires t == NumberText(n as real) && s == ReplaceFirst(t, '.', ",")
    ensures ParseFloat(t) == Some(n as real)
    ensures MarginInput(s, current) == Some(n as real / 100.0)
  {
    var ip := NatText(n);
    assert t == ip;
    NoPointOrComma(ip);
    ReplaceFirstAbsent(ip, '.', ",");
    WholePercent(n, current);
    ParseFloatNumberText(n);
  }

  /** The field showing `ip.fp` with its point made a comma reads back as
      the decimal `ip.fp` (its value `v`), divided by 100. */
  lemma FractionRoundTrip(ip: string, fp: string, v: real, current: Option<real>)
    requires AllDigits(ip) && AllDigits(fp) && ip != [] && fp != [] && v == DecimalValue(ip, fp)
    ensures MarginInput(ReplaceFirst(ip + "." + fp, '.', ","), current) == Some(v / 100.0)
  {
    ParseFloatDecimal(ip, fp);
    ShownFraction(ReplaceFirst(ip + "." + fp, '.', ","), ip + "." + fp, ip, fp, v, current);
  }

  lemma ShownFraction(s: string, t: string, ip: string, fp: string, v: real, current: Option<real>)
    requires AllDigits(ip) && AllDigits(fp) && ip != [] && fp != []
    requires t == ip + "." + fp && s == ReplaceFirst(t, '.', ",") && ParseFloat(t) == Some(v)
    ensures MarginInput(s, current) == Some(v / 100.0)
  {
    NoPointOrComma(ip);
    NoPointOrComma(fp);
    assert IsDigit(ip[0]) && IsDigit(fp[|fp| - 1]);
    CommaText(s, t, ip, fp, v, current);
  }

  lemma CommaText(s: string, t: string, ip: string, fp: string, v: real, current: Option<real>)
    requires '.' !in ip && ',' !in ip && '.' !in fp && ip != [] && fp != []
    requires !IsSpace(ip[0]) && !IsSpace(fp[|fp| - 1])
    requires t == ip + "." + fp && s == ReplaceFirst(t, '.', ",") && ParseFloat(t) == Some(v)
    ensures MarginInput(s, current) == Some(v / 100.0)
  {
    PointToComma(ip, fp);
    NormalisedJoin(ip, fp);
    PercentOfParsed(s, v, current);
  }

  /** `replace('.', ',')` on `ip.fp`. */
  lemma PointToComma(ip: string, fp: string)
    requires '.' !in ip
    ensures ReplaceFirst(ip + "." + fp, '.', ",") == ip + "," + fp
  {
    ReplaceFirstSplit(ip, '.', ",", fp);
  }

  /** The dot is taken for a thousands separator: typing "12.5" stores
      1.25, while "12,5" stores 0.125. */
  lemma DotIsDeleted(current: Option<real>)
    ensures MarginInput("12.5", current) == Some(1.25)
    ensures MarginInput("12,5", current) == Some(0.125)
  {
    PointTyped(current);
    CommaTyped(current);
  }

  lemma PointTyped(current: Option<real>)
    ensures MarginInput("12.5", current) == Some(1.25)
  {
    TwelveFive();
    PercentOf("12.5", "125", current);
  }

  lemma CommaTyped(current: Option<real>)
    ensures MarginInput("12,5", current) == Some(0.125)
  {
    assert "12,5" == "12" + "," + "5";
    assert "12.5" == "12" + "." + "5";
    CommaDecimal("12", "5", current);
    TwelvePointFive();
  }

  lemma TwelvePointFive()
    ensures ParseFloat("12.5") == Some(12.5)
  {
    TwelvePointFiveValue();
    DecimalText("12.5", "12", "5");
  }

  lemma TwelvePointFiveValue()
    ensures DecimalValue("12", "5") == 12.5
  {
    assert DigitsValue("12") == 12 by {
      assert "12"[..1] == "1" && "1"[..0] == [];
    }
    assert FracValue("5") == 0.5 by {
      assert "5"[1..] == [];
    }
  }

  /** `parseFloat` of a text written `ip.fp`. */
  lemma DecimalText(s: string, ip: string, fp: string)
    requires AllDigits(ip) && AllDigits(fp) && |ip| + |fp| > 0 && s == ip + "." + fp
    ensures ParseFloat(s) == Some(DecimalValue(ip, fp))
  {
    ParseFloatDecimal(ip, fp);
  }

  lemma TwelveFive()
    ensures Normalised("12.5") == "125" && ParseFloat("125") == Some(125.0)
  {
    NormalisedTwelveFive();
    OneTwoFive();
  }

  lemma OneTwoFive()
    ensures ParseFloat("125") == Some(125.0)
  {
    ParseFloatDigits("125");
    assert DigitsValue("125") == 125 by {
      assert "125"[..2] == "12" && "12"[..1] == "1" && "1"[..0] == [];
    }
  }

  lemma NormalisedTwelveFive()
    ensures Normalised("12.5") == "125"
  {
    TrimNoSpaces("12.5");
    assert "12.5" == "12" + ['.'] + "5";
    assert '.' !in "12";
    ReplaceFirstSplit("12", '.', "", "5");
    assert "12" + "" + "5" == "125";
    assert ',' !in "125";
    ReplaceFirstAbsent("125", ',', ".");
  }

  /** Blank text keeps the stored margin unless the field is empty. */
  lemma BlankKeeps(current: Option<real>)
    ensures MarginInput("  ", current) == current
  {
    assert TrimStart("  ") == [];
    assert Normalised("  ") == "";
    EmptyParses();
    Unreadable("  ", current);
  }

  lemma EmptyParses()
    ensures ParseFloat("") == None
  {
    ParseFloatNoDigit("");
  }
}
