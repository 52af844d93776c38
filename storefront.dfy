/**
 * The public side of the plugin (WPT_Public): the cart fragments refreshed
 * after WooCommerce AJAX calls, the rendering of the cart items list, the
 * three AJAX endpoints and the widget output. Markup is abstracted into
 * datatypes that record what each part displays; escaping is not modelled.
 * `wp_send_json_*` and a failed nonce check both end the request, so each
 * handler returns the response it sends.
 */
module Storefront {
  import opened Php
  import opened WooCommerce
  import opened Cart
  import Api
  import Widget

  const CountSelector := ".wpt-cart-count"
  const SubtotalSelector := ".wpt-cart-subtotal"
  const ItemsSelector := ".wpt-cart-items-container"

  const EmptyCartMessage := "Your cart is currently empty."
  const InvalidKeyMessage := "Invalid cart item key."
  const UpdateFailedMessage := "Failed to update quantity."
  const RemoveFailedMessage := "Failed to remove item."

  /** What one `<li class="wpt-cart-item">` shows. */
  datatype ItemRow = ItemRow(
    key: string,
    url: string,
    imageUrl: string,
    name: string,
    /** shown only when non-empty */
    attributes: seq<Attribute>,
    priceHtml: string,
    quantity: int,
    lineTotal: string)

  /** What `render_cart_items` prints: the empty-cart notice or the list of rows. */
  datatype ItemsMarkup = EmptyCartNotice(message: string) | ItemList(rows: seq<ItemRow>)

  /** One entry of the fragments map: the plugin's three, or markup from elsewhere. */
  datatype Fragment =
    | CountBadge(count: int)
    | SubtotalBadge(subtotal: string)
    | ItemsContainer(content: ItemsMarkup)
    | Markup(html: string)

  datatype Payload =
    | CartPayload(data: CartSnapshot)
    | MutationPayload(cartData: CartSnapshot, fragments: map<string, Fragment>)

  /** The response a handler ends the request with. */
  datatype Response = NonceRejected | JsonError(message: string) | JsonSuccess(payload: Payload)

  /** What `cart_widget` outputs. */
  datatype WidgetView = WidgetView(
    countBadge: int,
    items: ItemsMarkup,
    topProducts: Option<seq<Widget.Card>>,
    subtotal: string,
    cartUrl: string,
    checkoutUrl: string)

  function RenderRow(it: CartItem): (r: ItemRow)
    ensures r.key == it.key && r.quantity == it.quantity && r.name == it.name
  {
    ItemRow(it.key, it.url, it.imageUrl, it.name, it.attributes, it.priceHtml, it.quantity, it.lineTotal)
  }

  /**
   * `render_cart_items`: the notice exactly when there are no items,
   * otherwise one row per item, in order, carrying that item's key and
   * quantity.
   */
  function RenderCartItems(items: seq<CartItem>): (m: ItemsMarkup)
    ensures m.EmptyCartNotice? <==> items == []
    ensures m.EmptyCartNotice? ==> m.message == EmptyCartMessage
    ensures m.ItemList? ==>
              |m.rows| == |items|
              && forall i :: 0 <= i < |items| ==>
                   m.rows[i].key == items[i].key && m.rows[i].quantity == items[i].quantity
                   && m.rows[i].attributes == items[i].attributes
  {
    if items == [] then EmptyCartNotice(EmptyCartMessage)
    else ItemList(seq(|items|, i requires 0 <= i < |items| => RenderRow(items[i])))
  }

  /**
   * The fragments map after `cart_fragments`: the three selectors are set to
   * the count, the subtotal and the rendered items; every other entry of the
   * given map is kept as it was.
   */
  function WithCartFragments(f: map<string, Fragment>, count: int, subtotal: string, items: seq<CartItem>)
    : (r: map<string, Fragment>)
    ensures r.Keys == f.Keys + {CountSelector, SubtotalSelector, ItemsSelector}
    ensures forall k :: k in f && k !in {CountSelector, SubtotalSelector, ItemsSelector} ==> r[k] == f[k]
    ensures r[CountSelector] == CountBadge(count)
    ensures r[SubtotalSelector] == SubtotalBadge(subtotal)
    ensures r[ItemsSelector] == ItemsContainer(RenderCartItems(items))
  {
    f[CountSelector := CountBadge(count)]
     [SubtotalSelector := SubtotalBadge(subtotal)]
     [ItemsSelector := ItemsContainer(RenderCartItems(items))]
  }

  /** Building the fragments twice gives the same map as building them once. */
  lemma WithCartFragmentsIdempotent(f: map<string, Fragment>, count: int, subtotal: string, items: seq<CartItem>)
    ensures WithCartFragments(WithCartFragments(f, count, subtotal, items), count, subtotal, items)
            == WithCartFragments(f, count, subtotal, items)
  {
    var once := WithCartFragments(f, count, subtotal, items);
    var twice := WithCartFragments(once, count, subtotal, items);
    assert twice.Keys == once.Keys;
    forall k | k in once ensures twice[k] == once[k] {
      if k !in {CountSelector, SubtotalSelector, ItemsSelector} {
        assert twice[k] == once[k];
      }
    }
  }

  /** WPT_Public over its cart service, options and the WordPress helpers it calls. */
  class Frontend {
    const options: Value
    const cart: CartService
    /** `sanitize_text_field(wp_unslash(...))` */
    const sanitizeText: string -> string
    /** `wc_placeholder_img_src()` */
    const placeholderImage: string
    /** `wc_price` */
    const formatPrice: Value -> string

    constructor (options: Value, cart: CartService, sanitizeText: string -> string,
                 placeholderImage: string, formatPrice: Value -> string)
      ensures this.options == options && this.cart == cart && this.sanitizeText == sanitizeText
      ensures this.placeholderImage == placeholderImage && this.formatPrice == formatPrice
    {
      this.options := options;
      this.cart := cart;
      this.sanitizeText := sanitizeText;
      this.placeholderImage := placeholderImage;
      this.formatPrice := formatPrice;
    }

    ghost predicate Valid()
      reads this, cart, cart.wc
    {
      cart.Valid()
    }

    /** The sanitised `$_POST['key']`, or "" when it is absent. */
    function KeyParam(postKey: Option<string>): (r: string)
      reads this
      ensures postKey.None? ==> EmptyString(r)
      ensures postKey.Some? ==> r == sanitizeText(postKey.value)
    {
      if postKey.Some? then sanitizeText(postKey.value) else ""
    }

    /** `render_cart_items()`, over the items the cart service returns. */
    method RenderItems() returns (m: ItemsMarkup)
      requires Valid()
      ensures m == RenderCartItems(cart.CartItems())
    {
      var items := cart.GetCartItems();
      m := RenderCartItems(items);
    }

    /**
     * `cart_fragments($fragments)`: recalculates totals when the cart is
     * loaded, then sets the three entries from the state that leaves.
     */
    method CartFragments(fragments: map<string, Fragment>) returns (r: map<string, Fragment>)
      requires Valid()
      modifies cart.wc
      ensures Valid()
      ensures cart.wc != null ==>
                cart.wc.TotalsCurrent() && cart.wc.contents == old(cart.wc.contents)
                && cart.wc.calls == old(cart.wc.calls) + [CalculateTotalsCall]
      ensures r == WithCartFragments(fragments, cart.CartCount(), cart.CartSubtotal(), cart.CartItems())
    {
      if cart.wc != null {
        cart.wc.CalculateTotals();
      }
      r := fragments;
      r := r[CountSelector := CountBadge(cart.CartCount())];
      r := r[SubtotalSelector := SubtotalBadge(cart.CartSubtotal())];
      var items := RenderItems();
      r := r[ItemsSelector := ItemsContainer(items)];
    }

    /** `ajax_get_cart()`. */
    method AjaxGetCart(nonceValid: bool) returns (resp: Response)
      requires Valid()
      modifies cart.wc
      ensures Valid()
      ensures !nonceValid ==> resp == NonceRejected && (cart.wc != null ==> unchanged(cart.wc))
      ensures nonceValid ==> resp == JsonSuccess(CartPayload(cart.CartData()))
      ensures nonceValid && cart.wc != null ==>
                cart.wc.TotalsCurrent() && cart.wc.contents == old(cart.wc.contents)
                && cart.wc.calls == old(cart.wc.calls) + [CalculateTotalsCall]
    {
      if !nonceValid {
        return NonceRejected;
      }
      if cart.wc != null {
        cart.wc.CalculateTotals();
      }
      resp := JsonSuccess(CartPayload(cart.CartData()));
    }

    /**
     * `ajax_update_quantity()`: nonce, then key, then the update; a missing
     * quantity counts as 0. On success the response carries the cart data
     * and the fragments built from an empty map.
     */
    method AjaxUpdateQuantity(nonceValid: bool, postKey: Option<string>, postQuantity: Option<int>)
      returns (resp: Response)
      requires Valid()
      modifies cart.wc
      ensures Valid()
      ensures !nonceValid ==> resp == NonceRejected && (cart.wc != null ==> unchanged(cart.wc))
      ensures nonceValid && EmptyString(KeyParam(postKey)) ==>
                resp == JsonError(InvalidKeyMessage) && (cart.wc != null ==> unchanged(cart.wc))
      ensures nonceValid && !EmptyString(KeyParam(postKey))
              && (cart.wc == null || !HasKey(old(cart.wc.contents), KeyParam(postKey))) ==>
                resp == JsonError(UpdateFailedMessage) && (cart.wc != null ==> unchanged(cart.wc))
      ensures nonceValid && !EmptyString(KeyParam(postKey))
              && cart.wc != null && HasKey(old(cart.wc.contents), KeyParam(postKey)) ==>
                var key, q := KeyParam(postKey), NonNegative(postQuantity.GetOr(0));
                cart.wc.contents == AfterSetQuantity(old(cart.wc.contents), key, q)
                && cart.wc.calls == old(cart.wc.calls) + [SetQuantityCall(key, q), CalculateTotalsCall, CalculateTotalsCall]
                && cart.wc.TotalsCurrent()
                && resp == JsonSuccess(MutationPayload(cart.CartData(),
                             WithCartFragments(map[], cart.CartCount(), cart.CartSubtotal(), cart.CartItems())))
    {
      if !nonceValid {
        return NonceRejected;
      }
      var key := KeyParam(postKey);
      var quantity := postQuantity.GetOr(0);
      if EmptyString(key) {
        return JsonError(InvalidKeyMessage);
      }
      var updated := cart.UpdateCartItemQuantity(key, quantity);
      if updated {
        var data := cart.CartData();
        var fragments := CartFragments(map[]);
        resp := JsonSuccess(MutationPayload(data, fragments));
      } else {
        resp := JsonError(UpdateFailedMessage);
      }
    }

    /**
     * `ajax_remove_item()`: nonce, then key, then the removal. The cart data
     * is read before the fragments recalculate totals, so its subtotal is
     * whatever the cart held right after the removal.
     */
    method AjaxRemoveItem(nonceValid: bool, postKey: Option<string>) returns (resp: Response)
      requires Valid()
      modifies cart.wc
      ensures Valid()
      ensures !nonceValid ==> resp == NonceRejected && (cart.wc != null ==> unchanged(cart.wc))
      ensures nonceValid && EmptyString(KeyParam(postKey)) ==>
                resp == JsonError(InvalidKeyMessage) && (cart.wc != null ==> unchanged(cart.wc))
      ensures nonceValid && !EmptyString(KeyParam(postKey)) && cart.wc == null ==>
                resp == JsonError(RemoveFailedMessage)
      ensures nonceValid && !EmptyString(KeyParam(postKey)) && cart.wc != null ==>
                var key := KeyParam(postKey);
                cart.wc.contents == Without(old(cart.wc.contents), key)
                && (HasKey(old(cart.wc.contents), key) ==>
                      cart.wc.calls == old(cart.wc.calls) + [RemoveCall(key), CalculateTotalsCall]
                      && cart.wc.TotalsCurrent()
                      && resp.JsonSuccess? && resp.payload.MutationPayload?
                      && resp.payload.cartData.count == cart.CartCount()
                      && resp.payload.cartData.items == cart.CartItems()
                      && resp.payload.fragments
                         == WithCartFragments(map[], cart.CartCount(), cart.CartSubtotal(), cart.CartItems()))
                && (!HasKey(old(cart.wc.contents), key) ==>
                      cart.wc.calls == old(cart.wc.calls) + [RemoveCall(key)]
                      && resp == JsonError(RemoveFailedMessage))
    {
      if !nonceValid {
        return NonceRejected;
      }
      var key := KeyParam(postKey);
      if EmptyString(key) {
        return JsonError(InvalidKeyMessage);
      }
      var removed := cart.RemoveCartItem(key);
      if removed {
        var data := cart.CartData();
        var fragments := CartFragments(map[]);
        resp := JsonSuccess(MutationPayload(data, fragments));
      } else {
        resp := JsonError(RemoveFailedMessage);
      }
    }

    /**
     * `cart_widget()`: nothing on the cart and checkout pages; otherwise
     * totals are recalculated when the cart is loaded and the template shows
     * the count badge, the items, the recommended products and the subtotal.
     */
    method CartWidget(onCartOrCheckout: bool, http: Api.HttpOutcome) returns (view: Option<WidgetView>)
      requires Valid()
      modifies cart.wc
      ensures Valid()
      ensures onCartOrCheckout ==> view.None? && (cart.wc != null ==> unchanged(cart.wc))
      ensures !onCartOrCheckout && cart.wc != null ==>
                cart.wc.TotalsCurrent() && cart.wc.contents == old(cart.wc.contents)
                && cart.wc.calls == old(cart.wc.calls) + [CalculateTotalsCall]
      ensures !onCartOrCheckout ==>
                view == Some(WidgetView(
                  cart.CartCount(),
                  RenderCartItems(cart.CartItems()),
                  Widget.TopProducts(Api.GetProducts(options, http).products, placeholderImage, formatPrice),
                  cart.CartSubtotal(),
                  cart.env.cartUrl,
                  cart.env.checkoutUrl))
    {
      if onCartOrCheckout {
        return None;
      }
      if cart.wc != null {
        cart.wc.CalculateTotals();
      }
      var count := cart.CartCount();
      var items := RenderItems();
      var products := Api.GetProducts(options, http).products;
      var top := Widget.TopProducts(products, placeholderImage, formatPrice);
      view := Some(WidgetView(count, items, top, cart.CartSubtotal(), cart.env.cartUrl, cart.env.checkoutUrl));
    }
  }
}
