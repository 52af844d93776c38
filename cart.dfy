/**
 * The plugin's cart service (WPT_Cart): guarded reads that project the
 * WooCommerce session cart into view records, and a write-through gateway
 * for the two mutations the widget offers (set a quantity, remove a line).
 * When WooCommerce or its cart is not loaded the handle is null and every
 * read returns a fixed fallback.
 */
module Cart {
  import opened Php
  import opened WooCommerce

  /**
   * The WordPress and WooCommerce lookups the projection calls; none of them
   * is specified further here.
   */
  datatype Env = Env(
    /** `wc_placeholder_img_src('thumbnail')` */
    placeholderImage: string,
    /** product id to the URL of its post thumbnail, for products that have one */
    thumbnailOf: map<int, string>,
    /** `get_permalink($product_id)` */
    permalinkOf: int -> string,
    /** `wc_get_cart_remove_url($key)` */
    removeUrlOf: string -> string,
    /** `WC()->cart->get_product_subtotal($product, $quantity)` */
    productSubtotal: (Product, int) -> string,
    /** the existing attribute taxonomy named by a variation attribute, if any */
    taxonomyOf: string -> Option<string>,
    /** the name of the term with a given slug in a taxonomy; "" when there is none */
    termNameOf: (string, string) -> string,
    /** `wc_attribute_label` */
    attributeLabel: string -> string,
    /** `wc_get_cart_url()` and `wc_get_checkout_url()` */
    cartUrl: string,
    checkoutUrl: string)

  /** One displayed attribute of a line: a key (its label) and a value. */
  datatype Attribute = Attribute(key: string, value: Value)

  /** The view record of one cart line. */
  datatype CartItem = CartItem(
    key: string,
    productId: int,
    name: string,
    price: string,
    priceHtml: string,
    quantity: int,
    lineTotal: string,
    imageUrl: string,
    url: string,
    attributes: seq<Attribute>,
    removeUrl: string)

  /** The aggregate view returned by `get_cart_data`. */
  datatype CartSnapshot = CartSnapshot(
    count: int,
    subtotal: string,
    items: seq<CartItem>,
    cartUrl: string,
    checkoutUrl: string)

  /** `max(0, $quantity)`. */
  function NonNegative(q: int): nat {
    if q < 0 then 0 else q
  }

  /** `str_replace($pat, '', $s)`: removes every occurrence, scanning left to right. */
  function RemoveAll(s: string, pat: string): string
    requires pat != []
    decreases |s|
  {
    if |s| < |pat| then s
    else if s[..|pat|] == pat then RemoveAll(s[|pat|..], pat)
    else [s[0]] + RemoveAll(s[1..], pat)
  }

  /**
   * The attribute shown for one variation selection. For a taxonomy
   * attribute the stored slug is replaced by the term's name when the term
   * has a non-empty name; a custom attribute keeps its raw value.
   */
  function VariationAttribute(env: Env, name: string, value: string): Attribute {
    match env.taxonomyOf(name)
    case Some(taxonomy) =>
      var term := env.termNameOf(taxonomy, value);
      Attribute(env.attributeLabel(taxonomy), Str(if EmptyString(term) then value else term))
    case None =>
      Attribute(env.attributeLabel(RemoveAll(name, "attribute_")), Str(value))
  }

  /** The attributes for the variation selections; selections with an empty value are skipped. */
  function VariationAttributes(env: Env, vs: seq<(string, string)>): seq<Attribute> {
    if vs == [] then []
    else if vs[0].1 == "" then VariationAttributes(env, vs[1..])
    else [VariationAttribute(env, vs[0].0, vs[0].1)] + VariationAttributes(env, vs[1..])
  }

  /** `isset($meta->id, $meta->key, $meta->value)`. */
  predicate CompleteMeta(m: MetaRecord) {
    m.id.Some? && m.key.Some? && m.value != Null
  }

  /** The attributes for the product meta records that are complete, in order. */
  function MetaAttributes(ms: seq<MetaRecord>): seq<Attribute> {
    if ms == [] then []
    else if CompleteMeta(ms[0]) then [Attribute(ms[0].key.value, ms[0].value)] + MetaAttributes(ms[1..])
    else MetaAttributes(ms[1..])
  }

  /** `get_item_data`: variation attributes (only for a variation line), then meta attributes. */
  function ItemData(env: Env, line: Line): seq<Attribute>
    requires line.product.Some?
  {
    (if line.variationId != 0 && line.variation != [] then VariationAttributes(env, line.variation) else [])
    + MetaAttributes(line.product.value.meta)
  }

  /** The view record of one line whose product loads. */
  function ProjectLine(env: Env, e: CartEntry): CartItem
    requires e.line.product.Some?
  {
    var p := e.line.product.value;
    CartItem(
      e.key, e.line.productId, p.name, p.price, p.priceHtml, e.line.quantity,
      env.productSubtotal(p, e.line.quantity),
      if e.line.productId in env.thumbnailOf then env.thumbnailOf[e.line.productId] else env.placeholderImage,
      env.permalinkOf(e.line.productId),
      ItemData(env, e.line),
      env.removeUrlOf(e.key))
  }

  /** The view records of the lines whose product loads, in cart order. */
  function ProjectItems(env: Env, s: seq<CartEntry>): seq<CartItem> {
    if s == [] then []
    else if s[0].line.product.Some? then [ProjectLine(env, s[0])] + ProjectItems(env, s[1..])
    else ProjectItems(env, s[1..])
  }

  function ItemKeys(items: seq<CartItem>): (r: seq<string>)
    ensures |r| == |items| && forall i :: 0 <= i < |items| ==> r[i] == items[i].key
  {
    seq(|items|, i requires 0 <= i < |items| => items[i].key)
  }

  /** The keys of the lines whose product loads, in cart order. */
  function DisplayableKeys(s: seq<CartEntry>): seq<string> {
    if s == [] then []
    else if s[0].line.product.Some? then [s[0].key] + DisplayableKeys(s[1..])
    else DisplayableKeys(s[1..])
  }

  /** A variation attribute is never shown with an empty value. */
  lemma {:induction false} VariationValuesNonEmpty(env: Env, vs: seq<(string, string)>)
    ensures forall a :: a in VariationAttributes(env, vs) ==> a.value.Str? && a.value.s != ""
    ensures |VariationAttributes(env, vs)| <= |vs|
    ensures VariationAttributes(env, vs) == [] <==> forall i :: 0 <= i < |vs| ==> vs[i].1 == ""
  {
    if vs != [] {
      VariationValuesNonEmpty(env, vs[1..]);
      assert forall i :: 0 < i < |vs| ==> vs[i] == vs[1..][i - 1];
    }
  }

  /** Exactly the complete meta records are shown, and nothing else. */
  lemma {:induction false} MetaAttributesComplete(ms: seq<MetaRecord>)
    ensures |MetaAttributes(ms)| <= |ms|
    ensures forall a :: a in MetaAttributes(ms) <==>
              exists m :: m in ms && CompleteMeta(m) && a == Attribute(m.key.value, m.value)
  {
    if ms != [] {
      MetaAttributesComplete(ms[1..]);
      assert forall m :: m in ms <==> m == ms[0] || m in ms[1..];
    }
  }

  lemma {:induction false} DistinctTail(s: seq<CartEntry>)
    requires s != [] && DistinctKeys(s)
    ensures DistinctKeys(s[1..])
    ensures forall j :: 0 <= j < |s[1..]| ==> s[1..][j].key != s[0].key
  {
    forall i, j | 0 <= i < j < |s[1..]| ensures s[1..][i].key != s[1..][j].key {
      assert s[1..][i] == s[i + 1] && s[1..][j] == s[j + 1];
    }
    forall j | 0 <= j < |s[1..]| ensures s[1..][j].key != s[0].key {
      assert s[1..][j] == s[j + 1];
    }
  }

  /** Projection keeps exactly the lines whose product loads, in cart order. */
  lemma {:induction false} ProjectedKeys(env: Env, s: seq<CartEntry>)
    ensures |ProjectItems(env, s)| <= |s|
    ensures ItemKeys(ProjectItems(env, s)) == DisplayableKeys(s)
  {
    if s != [] {
      ProjectedKeys(env, s[1..]);
      var rest := ProjectItems(env, s[1..]);
      if s[0].line.product.Some? {
        assert ItemKeys([ProjectLine(env, s[0])] + rest) == [s[0].key] + ItemKeys(rest);
      }
    }
  }

  /** Every projected record is built from the cart's line under its key. */
  lemma {:induction false} ProjectedFromLine(env: Env, s: seq<CartEntry>)
    requires DistinctKeys(s)
    ensures forall it :: it in ProjectItems(env, s) ==>
              LineOf(s, it.key).Some? && LineOf(s, it.key).value.product.Some?
              && it == ProjectLine(env, CartEntry(it.key, LineOf(s, it.key).value))
  {
    if s != [] {
      DistinctTail(s);
      ProjectedFromLine(env, s[1..]);
      ProjectedKeys(env, s[1..]);
      var rest := ProjectItems(env, s[1..]);
      forall it | it in rest ensures it.key != s[0].key {
        var i :| 0 <= i < |rest| && rest[i] == it;
        assert ItemKeys(rest)[i] == it.key;
        DisplayableKeysFromLines(s[1..], i);
      }
    }
  }

  lemma {:induction false} DisplayableKeysFromLines(s: seq<CartEntry>, i: nat)
    requires i < |DisplayableKeys(s)|
    ensures exists j :: 0 <= j < |s| && s[j].key == DisplayableKeys(s)[i]
  {
    if s[0].line.product.Some? && i == 0 {
      assert s[0].key == DisplayableKeys(s)[i];
    } else {
      var i' := if s[0].line.product.Some? then i - 1 else i;
      DisplayableKeysFromLines(s[1..], i');
      var j :| 0 <= j < |s[1..]| && s[1..][j].key == DisplayableKeys(s[1..])[i'];
      assert s[j + 1].key == DisplayableKeys(s)[i];
    }
  }

  /** Every line whose product loads has its record among the projected ones. */
  lemma {:induction false} ProjectedAllLoadable(env: Env, s: seq<CartEntry>)
    ensures forall j :: 0 <= j < |s| && s[j].line.product.Some? ==> ProjectLine(env, s[j]) in ProjectItems(env, s)
  {
    if s != [] {
      ProjectedAllLoadable(env, s[1..]);
      assert forall j :: 0 < j < |s| ==> s[j] == s[1..][j - 1];
    }
  }

  /** Removing a line drops its record and keeps every other record. */
  lemma RemovalKeepsOtherItems(env: Env, s: seq<CartEntry>, k: string)
    requires DistinctKeys(s)
    ensures forall it :: it in ProjectItems(env, Without(s, k)) ==> it.key != k && it in ProjectItems(env, s)
    ensures forall it :: it in ProjectItems(env, s) && it.key != k ==> it in ProjectItems(env, Without(s, k))
  {
    var t := Without(s, k);
    WithoutLines(s, k);
    ProjectedFromLine(env, s);
    ProjectedFromLine(env, t);
    ProjectedAllLoadable(env, s);
    ProjectedAllLoadable(env, t);
    forall it | it in ProjectItems(env, s) && it.key != k ensures it in ProjectItems(env, t) {
      var j :| 0 <= j < |t| && t[j] == CartEntry(it.key, LineOf(s, it.key).value);
    }
    forall it | it in ProjectItems(env, t) ensures it.key != k && it in ProjectItems(env, s) {
      var j :| 0 <= j < |s| && s[j] == CartEntry(it.key, LineOf(t, it.key).value);
    }
  }

  /**
   * Setting a positive quantity changes the quantity (and the line total) of
   * that line's record and keeps every other record.
   */
  lemma QuantityKeepsOtherItems(env: Env, s: seq<CartEntry>, k: string, q: int)
    requires DistinctKeys(s)
    ensures ItemKeys(ProjectItems(env, WithQuantity(s, k, q))) == ItemKeys(ProjectItems(env, s))
    ensures forall it :: it in ProjectItems(env, s) && it.key != k ==> it in ProjectItems(env, WithQuantity(s, k, q))
    ensures forall it :: it in ProjectItems(env, WithQuantity(s, k, q)) ==>
              (it.key != k ==> it in ProjectItems(env, s)) && (it.key == k ==> it.quantity == q)
  {
    var t := WithQuantity(s, k, q);
    WithQuantityLines(s, k, q);
    SameDisplayableKeys(s, k, q);
    ProjectedKeys(env, s);
    ProjectedKeys(env, t);
    ProjectedFromLine(env, s);
    ProjectedFromLine(env, t);
    ProjectedAllLoadable(env, s);
    ProjectedAllLoadable(env, t);
    forall it | it in ProjectItems(env, s) && it.key != k ensures it in ProjectItems(env, t) {
      var j :| 0 <= j < |t| && t[j] == CartEntry(it.key, LineOf(s, it.key).value);
    }
    forall it | it in ProjectItems(env, t) && it.key != k ensures it in ProjectItems(env, s) {
      var j :| 0 <= j < |s| && s[j] == CartEntry(it.key, LineOf(t, it.key).value);
    }
  }

  lemma {:induction false} SameDisplayableKeys(s: seq<CartEntry>, k: string, q: int)
    ensures DisplayableKeys(WithQuantity(s, k, q)) == DisplayableKeys(s)
  {
    if s != [] {
      SameDisplayableKeys(s[1..], k, q);
    }
  }

  /** Every line's product loads. */
  predicate AllLoadable(s: seq<CartEntry>) {
    forall i :: 0 <= i < |s| ==> s[i].line.product.Some?
  }

  /** The sum of the quantities shown on the items. */
  function ItemsQuantity(items: seq<CartItem>): int {
    if items == [] then 0 else items[0].quantity + ItemsQuantity(items[1..])
  }

  /**
   * When every product loads, the quantities shown on the items add up to the
   * cart's own item count.
   */
  lemma {:induction false} ProjectedQuantities(env: Env, s: seq<CartEntry>)
    ensures AllLoadable(s) ==> ItemsQuantity(ProjectItems(env, s)) == TotalQuantity(s)
  {
    if s != [] && AllLoadable(s) {
      assert AllLoadable(s[1..]) by {
        forall i | 0 <= i < |s[1..]| ensures s[1..][i].line.product.Some? {
          assert s[1..][i] == s[i + 1];
        }
      }
      ProjectedQuantities(env, s[1..]);
      var items := ProjectItems(env, s);
      assert items == [ProjectLine(env, s[0])] + ProjectItems(env, s[1..]);
      assert items[1..] == ProjectItems(env, s[1..]);
    }
  }

  /**
   * A negative quantity is clamped to 0, which removes the line: a cart of one
   * line is empty afterwards, with a count of 0 and no items.
   */
  lemma NegativeQuantityEmptiesCart(env: Env, k: string, line: Line, q: int)
    requires q < 0
    ensures var after := AfterSetQuantity([CartEntry(k, line)], k, NonNegative(q));
            after == [] && TotalQuantity(after) == 0 && ProjectItems(env, after) == []
  {
    var s := [CartEntry(k, line)];
    assert s[1..] == [];
    assert Without(s, k) == Without([], k) == [];
  }

  /**
   * WPT_Cart over the injected session cart handle. `wc` is null when
   * WooCommerce or its cart is not loaded in the current request.
   */
  class CartService {
    const wc: SessionCart?
    const env: Env

    constructor (wc: SessionCart?, env: Env)
      ensures this.wc == wc && this.env == env
    {
      this.wc := wc;
      this.env := env;
    }

    ghost predicate Valid()
      reads this, wc
    {
      wc != null ==> wc.Valid()
    }

    /** `is_woocommerce_ready()`. */
    predicate IsReady(): (r: bool)
      reads this
      ensures r <==> wc != null
    {
      wc != null
    }

    /** `get_cart_count()`. */
    function CartCount(): (r: int)
      reads this, wc
      ensures !IsReady() ==> r == 0
      ensures IsReady() ==> r == TotalQuantity(wc.contents)
      ensures IsReady() && AllLoadable(wc.contents) ==> r == ItemsQuantity(CartItems())
    {
      if !IsReady() then 0
      else
        ProjectedQuantities(env, wc.contents);
        wc.ContentsCount()
    }

    /** `get_cart_subtotal()`. */
    function CartSubtotal(): (r: string)
      reads this, wc
      ensures !IsReady() ==> r == "0.00"
      ensures IsReady() ==> r == wc.subtotal
      ensures IsReady() && wc.TotalsCurrent() ==> r == wc.pricing(wc.contents)
    {
      if !IsReady() then "0.00" else wc.Subtotal()
    }

    /** What `get_cart_items()` returns. */
    function CartItems(): (r: seq<CartItem>)
      reads this, wc
      ensures !IsReady() ==> r == []
      ensures IsReady() ==> |r| <= |wc.contents| && ItemKeys(r) == DisplayableKeys(wc.contents)
    {
      if !IsReady() then []
      else
        ProjectedKeys(env, wc.contents);
        ProjectItems(env, wc.contents)
    }

    /** `get_cart_data()`: the snapshot, with its fixed fallback when the cart is not ready. */
    function CartData(): (r: CartSnapshot)
      reads this, wc
      ensures wc == null ==> r == CartSnapshot(0, "0.00", [], env.cartUrl, env.checkoutUrl)
      ensures wc != null ==>
                r.count == TotalQuantity(wc.contents) && r.subtotal == wc.subtotal
                && ItemKeys(r.items) == DisplayableKeys(wc.contents)
      ensures r.cartUrl == env.cartUrl && r.checkoutUrl == env.checkoutUrl
    {
      if !IsReady() then
        CartSnapshot(CartCount(), CartSubtotal(), CartItems(), env.cartUrl, env.checkoutUrl)
      else
        ProjectedKeys(env, wc.contents);
        CartSnapshot(CartCount(), CartSubtotal(), CartItems(), env.cartUrl, env.checkoutUrl)
    }

    /** `get_item_data($cart_item)`, built by appending in two loops. */
    method GetItemData(line: Line) returns (data: seq<Attribute>)
      requires line.product.Some?
      ensures data == ItemData(env, line)
    {
      data := [];
      if line.variationId != 0 && line.variation != [] {
        var vs := line.variation;
        var i := 0;
        while i < |vs|
          invariant 0 <= i <= |vs|
          invariant VariationAttributes(env, vs) == data + VariationAttributes(env, vs[i..])
        {
          assert vs[i..][1..] == vs[i + 1..];
          var (name, value) := vs[i];
          if value != "" {
            data := data + [VariationAttribute(env, name, value)];
          }
          i := i + 1;
        }
        assert vs[i..] == [];
        assert data == VariationAttributes(env, vs);
      }
      ghost var variations := data;
      assert ItemData(env, line) == variations + MetaAttributes(line.product.value.meta);
      var meta := line.product.value.meta;
      if meta != [] {
        var j := 0;
        while j < |meta|
          invariant 0 <= j <= |meta|
          invariant variations + MetaAttributes(meta) == data + MetaAttributes(meta[j..])
        {
          assert meta[j..][1..] == meta[j + 1..];
          var m := meta[j];
          if m.id.Some? && m.key.Some? && m.value != Null {
            data := data + [Attribute(m.key.value, m.value)];
          }
          j := j + 1;
        }
        assert meta[j..] == [];
      } else {
        assert data == variations + MetaAttributes(meta);
      }
    }

    /** `get_cart_items()`: one record per line whose product loads, appended in cart order. */
    method GetCartItems() returns (items: seq<CartItem>)
      requires Valid()
      ensures items == CartItems()
    {
      items := [];
      if !IsReady() {
        return;
      }
      var s := wc.contents;
      var i := 0;
      while i < |s|
        invariant 0 <= i <= |s|
        invariant ProjectItems(env, s) == items + ProjectItems(env, s[i..])
      {
        assert s[i..][1..] == s[i + 1..];
        var key, line := s[i].key, s[i].line;
        if line.product.Some? {
          var product := line.product.value;
          var imageUrl := if line.productId in env.thumbnailOf then env.thumbnailOf[line.productId]
                          else env.placeholderImage;
          var attributes := GetItemData(line);
          items := items + [CartItem(
            key, line.productId, product.name, product.price, product.priceHtml, line.quantity,
            env.productSubtotal(product, line.quantity), imageUrl, env.permalinkOf(line.productId),
            attributes, env.removeUrlOf(key))];
        }
        i := i + 1;
      }
    }

    /**
     * `update_cart_item_quantity($key, $quantity)`: fails without touching the
     * cart when it is not ready or has no such line; otherwise sets the clamped
     * quantity, then always recalculates totals.
     */
    method UpdateCartItemQuantity(key: string, quantity: int) returns (ok: bool)
      requires Valid()
      modifies wc
      ensures Valid()
      ensures wc == null ==> !ok
      ensures wc != null && !HasKey(old(wc.contents), key) ==> !ok && unchanged(wc)
      ensures wc != null && HasKey(old(wc.contents), key) ==>
                ok
                && wc.contents == AfterSetQuantity(old(wc.contents), key, NonNegative(quantity))
                && wc.calls == old(wc.calls) + [SetQuantityCall(key, NonNegative(quantity)), CalculateTotalsCall]
                && wc.TotalsCurrent()
    {
      if !IsReady() {
        return false;
      }
      var q := NonNegative(quantity);
      if !HasKey(wc.contents, key) {
        return false;
      }
      var result := wc.SetQuantity(key, q);
      wc.CalculateTotals();
      ok := result;
    }

    /** `remove_cart_item($key)`: false when the cart is not ready, else the cart's own answer. */
    method RemoveCartItem(key: string) returns (ok: bool)
      requires Valid()
      modifies wc
      ensures Valid()
      ensures wc == null ==> !ok
      ensures wc != null ==>
                ok == HasKey(old(wc.contents), key)
                && wc.contents == Without(old(wc.contents), key)
                && wc.calls == old(wc.calls) + [RemoveCall(key)]
    {
      if !IsReady() {
        return false;
      }
      ok := wc.RemoveCartItem(key);
    }
  }
}
