/**
 * The "Top 3 Products" section of the cart widget template: shown only when
 * the recommendation list passes the same first-element check as
 * `get_products`, it displays the first three products in order, each with
 * fallbacks for missing fields. URL and attribute escaping is not modelled:
 * a card holds the values before escaping.
 */
module Widget {
  import opened Php
  import Api

  /** What one product tile displays. */
  datatype Card = Card(link: Value, image: Value, alt: Value, title: Value, price: string)

  const TopCount: nat := 3

  /** `isset($p[k]) ? $p[k] : fallback`. */
  function FieldOr(p: Value, k: string, fallback: Value): (r: Value)
    ensures r != Null || fallback == Null
  {
    if IsSet(p, StrKey(k)) then Index(p, StrKey(k)) else fallback
  }

  /**
   * One product tile: link, image, alt text and title fall back to "#", the
   * placeholder image, "Product" and "Unnamed Product"; a missing price shows
   * as the empty string and a present one is formatted by `wc_price`.
   */
  function ProductCard(p: Value, placeholder: string, formatPrice: Value -> string): (c: Card)
    ensures c.link != Null && c.image != Null && c.alt != Null && c.title != Null
    ensures IsSet(p, StrKey("url")) <==> c.link == Index(p, StrKey("url"))
    ensures !IsSet(p, StrKey("url")) ==> c.link == Str("#")
    ensures IsSet(p, StrKey("image")) ==> c.image == Index(p, StrKey("image"))
    ensures !IsSet(p, StrKey("image")) ==> c.image == Str(placeholder)
    ensures IsSet(p, StrKey("name")) <==> c.alt == c.title
    ensures IsSet(p, StrKey("name")) ==> c.title == Index(p, StrKey("name"))
    ensures !IsSet(p, StrKey("name")) ==> c.alt == Str("Product") && c.title == Str("Unnamed Product")
    ensures !IsSet(p, StrKey("price")) ==> c.price == ""
    ensures IsSet(p, StrKey("price")) ==> c.price == formatPrice(Index(p, StrKey("price")))
  {
    Card(
      FieldOr(p, "url", Str("#")),
      FieldOr(p, "image", Str(placeholder)),
      FieldOr(p, "name", Str("Product")),
      FieldOr(p, "name", Str("Unnamed Product")),
      if IsSet(p, StrKey("price")) then formatPrice(Index(p, StrKey("price"))) else "")
  }

  /** The tiles of a list, one per element, in order. */
  function Cards(v: Value, placeholder: string, formatPrice: Value -> string): (r: seq<Card>)
    requires v.Arr?
    ensures |r| == |v.entries|
    ensures forall i :: 0 <= i < |r| ==> r[i] == ProductCard(v.entries[i].val, placeholder, formatPrice)
  {
    seq(|v.entries|, i requires 0 <= i < |v.entries| => ProductCard(v.entries[i].val, placeholder, formatPrice))
  }

  /**
   * The section: `None` when it is not rendered; otherwise the tiles of the
   * first `min(3, n)` products, in their original order.
   */
  function TopProducts(products: Value, placeholder: string, formatPrice: Value -> string): (r: Option<seq<Card>>)
    ensures r.Some? <==> Api.ProductListAccepted(products)
    ensures r.Some? ==>
              |r.value| == (if |products.entries| < TopCount then |products.entries| else TopCount)
              && |r.value| >= 1
              && forall i :: 0 <= i < |r.value| ==>
                   r.value[i] == ProductCard(products.entries[i].val, placeholder, formatPrice)
  {
    if Api.ProductListAccepted(products) then
      Some(Cards(SliceFront(products, TopCount), placeholder, formatPrice))
    else
      None
  }

  /**
   * Over what `get_products` returns, the template's guard is equivalent to
   * "the list is not the empty fallback": it shows the section exactly when
   * an API URL is configured, the reply was 2xx and its first element has a
   * name and a price, and the tiles then come from the reply itself.
   */
  lemma SectionShownIffFetched(options: Value, http: Api.HttpOutcome, placeholder: string, formatPrice: Value -> string)
    ensures var products := Api.GetProducts(options, http).products;
            TopProducts(products, placeholder, formatPrice).Some? <==> products != Arr([])
    ensures TopProducts(Api.GetProducts(options, http).products, placeholder, formatPrice).Some? <==>
              !Empty(Index(options, Api.ApiUrlKey)) && http.HttpReply? && Api.IsSuccessStatus(http.status)
              && Api.ProductListAccepted(http.decoded)
    ensures TopProducts(Api.GetProducts(options, http).products, placeholder, formatPrice).Some? ==>
              TopProducts(Api.GetProducts(options, http).products, placeholder, formatPrice)
              == TopProducts(http.decoded, placeholder, formatPrice)
  {
    var products := Api.GetProducts(options, http).products;
    assert !Api.ProductListAccepted(Arr([]));
  }

  /**
   * The three-product limit is applied here and not by the client: a reply
   * of five products is returned whole and shown as three tiles.
   */
  lemma FiveProductsShowThree(options: Value, placeholder: string, formatPrice: Value -> string)
    requires !Empty(Index(options, Api.ApiUrlKey))
    ensures
      var p := Arr([Entry(StrKey("name"), Str("A")), Entry(StrKey("price"), Int(1))]);
      var five := Arr([Entry(IntKey(0), p), Entry(IntKey(1), p), Entry(IntKey(2), p),
                       Entry(IntKey(3), p), Entry(IntKey(4), p)]);
      var fetched := Api.GetProducts(options, Api.HttpReply(200, "", five)).products;
      fetched == five
      && TopProducts(fetched, placeholder, formatPrice).Some?
      && |TopProducts(fetched, placeholder, formatPrice).value| == 3
  {
    var p := Arr([Entry(StrKey("name"), Str("A")), Entry(StrKey("price"), Int(1))]);
    var five := Arr([Entry(IntKey(0), p), Entry(IntKey(1), p), Entry(IntKey(2), p),
                     Entry(IntKey(3), p), Entry(IntKey(4), p)]);
    assert Find(five.entries, IntKey(0)) == Some(p);
    assert Find(p.entries, StrKey("name")) == Some(Str("A"));
    assert Find(p.entries, StrKey("price")) == Some(Int(1));
    assert Api.ProductListAccepted(five);
    var fetched := Api.GetProducts(options, Api.HttpReply(200, "", five)).products;
    assert fetched == five;
    assert |five.entries| == 5;
  }
}
