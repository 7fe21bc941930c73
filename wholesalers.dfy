/** The wholesalers page: the product search and status filter, each product
    card with the wholesaler prices of that product, the choice of wholesalers
    a new price can be added for, and the price update a save sends. */
module Wholesalers {
  import opened Wrappers
  import opened Seqs
  import opened ProductSettings

  /** The page opens on every product, active or not. */
  const DefaultStatus := AllProducts

  datatype Wholesaler = Wholesaler(id: string, name: string)

  /** One stored purchase price of a product at a wholesaler. */
  datatype WholesalePrice = WholesalePrice(id: string, productId: string, wholesalerId: string,
                                           buyPrice: real, currency: string)

  /** The add-price form of a card; `parseFloat` of the typed price may be
      NaN (`None`). */
  datatype PriceForm = PriceForm(wholesalerId: string, buyPrice: Option<real>, currency: string)

  /** The form as it opens and as a successful save leaves it. */
  const EmptyForm := PriceForm("", Some(0.0), "TRY")

  /** What `updateWholesalePrice` receives; `oldPrice` is `undefined` (`None`)
      when the product had no price at that wholesaler. */
  datatype PriceUpdate = PriceUpdate(productId: string, wholesalerId: string, buyPrice: Option<real>,
                                     currency: string, oldPrice: Option<real>)

  /** The page's search and status filter are the product settings list's;
      with the default status every product the search matches is shown. */
  lemma DefaultShowsEveryMatch(products: seq<Product>, term: string)
    ensures IsSubsequence(FilteredProducts(products, term, DefaultStatus), products)
    ensures forall p :: p in FilteredProducts(products, term, DefaultStatus) <==> p in products && MatchesSearch(p, term)
  {
  }

  /** With nothing typed and the default status the page lists every product. */
  lemma OpensOnEverything(products: seq<Product>)
    ensures forall p :: p in FilteredProducts(products, "", DefaultStatus) <==> p in products
  {
    EmptySearch(products, DefaultStatus);
  }

  function OfProduct(productId: string): WholesalePrice -> bool {
    (w: WholesalePrice) => w.productId == productId
  }

  /** The prices handed to the card of `product`. */
  function PricesFor(product: Product, prices: seq<WholesalePrice>): (r: seq<WholesalePrice>)
    ensures IsSubsequence(r, prices)
    ensures forall w :: w in r <==> w in prices && w.productId == product.id
  {
    FilterIsSubsequence(prices, OfProduct(product.id));
    Filter(prices, OfProduct(product.id))
  }

  /** Two products with different ids share no price. */
  lemma CardsDisjoint(a: Product, b: Product, prices: seq<WholesalePrice>)
    requires a.id != b.id
    ensures forall w :: !(w in PricesFor(a, prices) && w in PricesFor(b, prices))
  {
  }

  /** `prices.find(p => p.wholesaler_id === wholesalerId)`: the first price
      at that wholesaler. */
  function FindPrice(prices: seq<WholesalePrice>, wholesalerId: string): (r: Option<WholesalePrice>)
    ensures r.None? <==> forall w :: w in prices ==> w.wholesalerId != wholesalerId
    ensures r.Some? ==> r.value in prices && r.value.wholesalerId == wholesalerId
  {
    if prices == [] then None
    else if prices[0].wholesalerId == wholesalerId then Some(prices[0])
    else FindPrice(prices[1..], wholesalerId)
  }

  /** `find` returns the first match: whatever follows it does not matter. */
  lemma {:induction false} FindFirst(before: seq<WholesalePrice>, w: WholesalePrice, after: seq<WholesalePrice>)
    requires forall v :: v in before ==> v.wholesalerId != w.wholesalerId
    ensures FindPrice(before + [w] + after, w.wholesalerId) == Some(w)
  {
    if before != [] {
      assert (before + [w] + after)[1..] == before[1..] + [w] + after;
      FindFirst(before[1..], w, after);
    } else {
      assert before + [w] + after == [w] + after;
    }
  }

  function Unpriced(prices: seq<WholesalePrice>): Wholesaler -> bool {
    (w: Wholesaler) => FindPrice(prices, w.id).None?
  }

  /** The wholesalers the add-price dropdown offers: those without a price
      for this product. */
  function AvailableWholesalers(wholesalers: seq<Wholesaler>, prices: seq<WholesalePrice>): (r: seq<Wholesaler>)
    ensures IsSubsequence(r, wholesalers)
    ensures forall w :: w in r <==> w in wholesalers && forall p :: p in prices ==> p.wholesalerId != w.id
  {
    FilterIsSubsequence(wholesalers, Unpriced(prices));
    Filter(wholesalers, Unpriced(prices))
  }

  /** Every wholesaler is either offered in the dropdown or already has a
      price on the card, never both. */
  lemma OfferedOrPriced(wholesalers: seq<Wholesaler>, prices: seq<WholesalePrice>, w: Wholesaler)
    requires w in wholesalers
    ensures w in AvailableWholesalers(wholesalers, prices) <==> FindPrice(prices, w.id).None?
  {
  }

  /** The wholesaler a save is for: the one passed in, unless it is missing
      or empty, then the one chosen in the form. */
  function TargetWholesaler(form: PriceForm, wholesalerId: Option<string>): (r: string)
    ensures wholesalerId.Some? && wholesalerId.value != "" ==> r == wholesalerId.value
    ensures (wholesalerId.None? || wholesalerId.value == "") ==> r == form.wholesalerId
  {
    if wholesalerId.Some? && wholesalerId.value != "" then wholesalerId.value else form.wholesalerId
  }

  /** `handleSavePrice(wholesalerId?, priceVal?)`: the request sent for the
      card of `product`, whose prices are `prices`. */
  function SaveRequest(product: Product, prices: seq<WholesalePrice>, form: PriceForm,
                       wholesalerId: Option<string>, priceVal: Option<real>): (r: PriceUpdate)
    ensures r.productId == product.id && r.currency == form.currency
    ensures r.wholesalerId == TargetWholesaler(form, wholesalerId)
    ensures r.buyPrice == if priceVal.Some? then priceVal else form.buyPrice
    ensures r.oldPrice.None? <==> forall w :: w in prices ==> w.wholesalerId != r.wholesalerId
    ensures r.oldPrice.Some? ==> exists w :: w in prices && w.wholesalerId == r.wholesalerId && w.buyPrice == r.oldPrice.value
  {
    var target := TargetWholesaler(form, wholesalerId);
    var existing := FindPrice(prices, target);
    PriceUpdate(product.id, target, if priceVal.Some? then priceVal else form.buyPrice, form.currency,
                if existing.Some? then Some(existing.value.buyPrice) else None)
  }

  /** The save button is enabled once a wholesaler is chosen and no save is
      running. */
  predicate SaveEnabled(form: PriceForm, saving: bool) {
    form.wholesalerId != "" && !saving
  }

  /** The button calls `handleSavePrice()` with no arguments: an enabled save
      always names the chosen wholesaler and the typed price. */
  lemma EnabledSaveNamesWholesaler(product: Product, prices: seq<WholesalePrice>, form: PriceForm, saving: bool)
    requires SaveEnabled(form, saving)
    ensures SaveRequest(product, prices, form, None, None).wholesalerId == form.wholesalerId != ""
    ensures SaveRequest(product, prices, form, None, None).buyPrice == form.buyPrice
  {
  }

  /** A wholesaler picked from the dropdown of a card has no old price. */
  lemma NewWholesalerHasNoOldPrice(product: Product, allPrices: seq<WholesalePrice>,
                                   wholesalers: seq<Wholesaler>, form: PriceForm, w: Wholesaler)
    requires w in AvailableWholesalers(wholesalers, PricesFor(product, allPrices))
    requires form.wholesalerId == w.id && w.id != ""
    ensures SaveRequest(product, PricesFor(product, allPrices), form, None, None).oldPrice == None
  {
  }

  /** Saving for a wholesaler that already has a price on the card sends the
      first such price of this product as the old price. */
  lemma {:induction false} OldPriceIsCardPrice(product: Product, before: seq<WholesalePrice>, w: WholesalePrice,
                                               after: seq<WholesalePrice>, form: PriceForm)
    requires forall v :: v in before ==> v.wholesalerId != w.wholesalerId
    requires w.wholesalerId != ""
    ensures SaveRequest(product, before + [w] + after, form, Some(w.wholesalerId), None).oldPrice == Some(w.buyPrice)
  {
    FindFirst(before, w, after);
  }
}
