# woo-prueba-tecnica in Dafny

A model of the WordPress plugin "woo-prueba-tecnica", a floating mini-cart for
WooCommerce stores. The plugin adds a cart toggle with an item count, a modal
listing the session cart's lines with quantity controls and a remove link, a
"Top 3 Products" section filled from an external recommendation API, and an
admin settings page holding that API's URL, key and secret.

The model covers the decision logic around the WordPress and WooCommerce calls:

- `woocommerce.dfy` (module `WooCommerce`): the session cart that the plugin
  reads and mutates, as a class `SessionCart` whose contents are an ordered
  sequence of (line key, line) entries. A ghost call log records which
  mutators were called, in order, so that callers can state it.
- `cart.dfy` (module `Cart`): the cart service `WPT_Cart` as a class
  `CartService` over a possibly-null cart handle (null means WooCommerce or
  its cart is not loaded). Its reads project cart lines into view records,
  and its two mutators guard and forward to the session cart.
- `api.dfy` (module `Api`): the recommendation client `WPT_API`. The URL
  join, request arguments, status classification and the fail-closed
  validation of the product list are modelled. What the transport produced
  is an input.
- `widget.dfy` (module `Widget`): the "Top 3 Products" section of the widget
  template, with its guard, its slice and its per-product fallbacks.
- `storefront.dfy` (module `Storefront`): `WPT_Public`, with the cart
  fragments, the item list rendering, the three AJAX handlers and the widget
  output. Markup is represented by datatypes that record what is displayed.
- `admin.dfy` (module `Admin`): `WPT_Admin`, with option sanitisation and the
  "Settings" action link.
- `php.dfy` (module `Php`): the PHP values the plugin handles. Arrays are
  ordered key/value entries. The module also models `empty()`, `isset()`, and
  the key renumbering done by `array_slice` and `array_unshift`.

WordPress and WooCommerce lookups are parameters: `Cart.Env` for the
projection, and the `Frontend`, `Sanitizers` and `admin_url` parameters. These
cover permalinks, thumbnails, price formatting, attribute taxonomies and
labels, and sanitisers. None of them is specified further.

Two behaviours of the code are worth stating plainly:

- `get_products` returns an accepted reply whole; it does not cut the list
  down to any limit. The only limit is the widget's `array_slice(..., 0, 3)`.
- Only element 0 of the reply is checked for a name and a price. A list whose
  first element is complete is accepted even when later elements are not
  products.

## Model

| member | source | states |
|---|---|---|
| Php.SliceFront | public/widgets/cart-widget.php:51 | `array_slice($v, 0, n)` keeps the first `min(n, count)` values, in order |
| Php.Unshift | admin/class-woo-prueba-tecnica-admin.php:86 | `array_unshift` puts the new value first, keeps all others in order, and leaves string-keyed entries findable unchanged |
| WooCommerce.LineOf | includes/class-woo-prueba-tecnica-cart.php:179 | the line stored under a key is found exactly when some entry has that key, and it is that entry's line |
| WooCommerce.WithoutLines | includes/class-woo-prueba-tecnica-cart.php:205 | removing a key leaves no line under it and keeps every other key's line; keys stay distinct; the total quantity drops by the removed line's quantity; an absent key changes nothing |
| WooCommerce.WithQuantityLines | includes/class-woo-prueba-tecnica-cart.php:184 | setting a quantity changes only that line's quantity, keeps the keys and their order, and moves the total quantity by the difference; an absent key changes nothing |
| WooCommerce.SessionCart.SetQuantity | includes/class-woo-prueba-tecnica-cart.php:184 | `set_quantity` removes the line for a quantity of 0 or less, otherwise sets it; it returns false only when it removes a missing line; the call is logged |
| WooCommerce.SessionCart.RemoveCartItem | includes/class-woo-prueba-tecnica-cart.php:205 | `remove_cart_item` returns whether the line existed and removes it; the call is logged |
| WooCommerce.SessionCart.CalculateTotals | includes/class-woo-prueba-tecnica-cart.php:187 | `calculate_totals` makes the cached subtotal current and leaves the lines as they are |
| Cart.VariationValuesNonEmpty | includes/class-woo-prueba-tecnica-cart.php:122-144 | variation pairs whose value is "" are skipped; every produced attribute has a non-empty value; none are produced iff all values are "" |
| Cart.MetaAttributesComplete | includes/class-woo-prueba-tecnica-cart.php:148-157 | a meta record yields an attribute iff its id, key and value are all set, and the attribute is its key and value |
| Cart.CartService.GetItemData | includes/class-woo-prueba-tecnica-cart.php:118-160 | the two appending loops produce the variation attributes only when the variation id and variation are both non-empty, followed by the meta attributes, in source order |
| Cart.ProjectedKeys | includes/class-woo-prueba-tecnica-cart.php:82-107 | the projected items carry exactly the keys of the lines whose product loads, in cart order |
| Cart.ProjectedFromLine | includes/class-woo-prueba-tecnica-cart.php:94-106 | every projected item is the projection of the line stored under its key, so its quantity, product id and name are that line's |
| Cart.ProjectedAllLoadable | includes/class-woo-prueba-tecnica-cart.php:86-88 | every line whose product loads is projected; only lines without a product are skipped |
| Cart.CartService.GetCartItems | includes/class-woo-prueba-tecnica-cart.php:73-110 | the loop returns `[]` when the cart is not ready, otherwise the projection of the lines whose product loads, in order, with a placeholder image for a missing thumbnail |
| Cart.CartService.IsReady | includes/class-woo-prueba-tecnica-cart.php:228-230 | the cart service is ready exactly when the WooCommerce cart handle is present; every read and mutation of the service is guarded by it |
| Cart.CartService.CartCount | includes/class-woo-prueba-tecnica-cart.php:45-52 | 0 when the cart is not ready, otherwise the sum of the line quantities; when every product loads, this equals the sum of the quantities shown on the items |
| Cart.ProjectedQuantities | includes/class-woo-prueba-tecnica-cart.php:48 | when every line's product loads, the quantities of the projected items add up to the cart's item count |
| Cart.CartService.CartSubtotal | includes/class-woo-prueba-tecnica-cart.php:59-66 | "0.00" when the cart is not ready, otherwise the cart's cached subtotal, which is the pricing of the current lines once totals are current |
| Cart.CartService.CartItems | includes/class-woo-prueba-tecnica-cart.php:73-110 | `[]` when the cart is not ready, otherwise at most one item per line, carrying exactly the keys of the lines whose product loads, in cart order |
| Cart.CartService.CartData | includes/class-woo-prueba-tecnica-cart.php:213-221 | the snapshot is count 0, subtotal "0.00" and no items when the cart is not ready; otherwise the summed quantity, the cart subtotal and the displayable lines; both URLs in every case |
| Cart.CartService.UpdateCartItemQuantity | includes/class-woo-prueba-tecnica-cart.php:169-192 | false when the cart is not ready; false with the cart unchanged when the key is missing; otherwise `set_quantity` with `max(0, q)` followed by `calculate_totals`, returning true |
| Cart.CartService.RemoveCartItem | includes/class-woo-prueba-tecnica-cart.php:200-206 | false when the cart is not ready; otherwise the cart's own removal result, after removing the line |
| Cart.RemovalKeepsOtherItems | includes/class-woo-prueba-tecnica-cart.php:205 | after a removal, the displayed items are exactly the former items other than the removed key |
| Cart.QuantityKeepsOtherItems | includes/class-woo-prueba-tecnica-cart.php:184 | after a quantity change the displayed keys are the same, other items are unchanged, and the changed item shows the new quantity |
| Cart.NegativeQuantityEmptiesCart | includes/class-woo-prueba-tecnica-cart.php:176 | a negative quantity is clamped to 0, so it removes the line: any one-line cart ends up with no lines, count 0 and no items |
| Api.TrimTrailingSlashes | includes/class-woo-prueba-tecnica-api.php:49 | `rtrim(s, '/\\')` is a prefix of s that does not end in a slash and drops only slashes |
| Api.TrimLeadingSlashes | includes/class-woo-prueba-tecnica-api.php:49 | `ltrim(s, '/')` is a suffix of s that does not start with '/' and drops only '/' |
| Api.RequestUrlJoin | includes/class-woo-prueba-tecnica-api.php:49 | the URL join uses exactly one slash: trailing slashes on the base and leading slashes on the endpoint make no difference, and a clean base and endpoint are joined with one "/" |
| Api.BuildArgs | includes/class-woo-prueba-tecnica-api.php:52-66 | the request carries the method, both credentials, a 30 s timeout and no TLS verification, and a body iff the data is non-empty and the method is POST or PUT |
| Api.MakeRequest | includes/class-woo-prueba-tecnica-api.php:48-93 | only a 2xx status yields the decoded body; any other status gives an `api_error`; a transport error is passed through; an exception propagates |
| Api.ValidateProducts | includes/class-woo-prueba-tecnica-api.php:113-132 | fail-closed: the result is `[]` or the reply itself, and it is the reply iff the reply was decoded and passes the first-element check |
| Api.GetProducts | includes/class-woo-prueba-tecnica-api.php:100-133 | an empty API URL gives `[]` with no request; otherwise one GET of `<api_url>/products` with no body; the result is non-empty iff the reply was 2xx and its first element has a name and a price, and then it is the whole reply |
| Api.MissingPriceDropsList | includes/class-woo-prueba-tecnica-api.php:123-126 | a 2xx reply whose first element has a name but no price yields `[]` |
| Api.OnlyFirstElementChecked | includes/class-woo-prueba-tecnica-api.php:123-128 | a list with a complete first element is returned whole, even when a later element is not a product |
| Widget.ProductCard | public/widgets/cart-widget.php:59-68 | each tile falls back to "#", the placeholder image, "Product"/"Unnamed Product" and "" for a missing url, image, name and price; alt and title agree iff the name is set |
| Widget.Cards | public/widgets/cart-widget.php:57-72 | one tile per product of the slice, in order |
| Widget.TopProducts | public/widgets/cart-widget.php:50-51 | the section is shown iff the list is a non-empty array whose element 0 has a name and a price, and it then shows the first `min(3, n)` products in order |
| Widget.SectionShownIffFetched | public/widgets/cart-widget.php:47-51 | over what `get_products` returns, the section is shown iff that result is not `[]`, that is iff a URL is set, the reply was 2xx and passed the first-element check; the tiles come from the reply itself |
| Widget.FiveProductsShowThree | public/widgets/cart-widget.php:51 | a reply of five products is returned whole by the client and shown as three tiles |
| Storefront.RenderCartItems | public/class-woo-prueba-tecnica-public.php:181-234 | the empty-cart notice appears iff there are no items; otherwise there is one row per item, in order, with that item's key, quantity and attributes |
| Storefront.WithCartFragments | public/class-woo-prueba-tecnica-public.php:142-151 | exactly the three selectors are set, to the count, the subtotal and the rendered items; every other fragment is kept |
| Storefront.WithCartFragmentsIdempotent | public/class-woo-prueba-tecnica-public.php:142-151 | building the fragments again from the same cart state changes nothing |
| Storefront.Frontend.KeyParam | public/class-woo-prueba-tecnica-public.php:256 | a missing `key` parameter gives "", which the handlers reject as empty; a present one is passed through the sanitiser (the same parse is at line 283) |
| Storefront.Frontend.RenderItems | public/class-woo-prueba-tecnica-public.php:181-182 | the items are rendered from what `get_cart_items` returns |
| Storefront.Frontend.CartFragments | public/class-woo-prueba-tecnica-public.php:135-159 | totals are recalculated first when the cart is loaded; the fragments then embed the count, the subtotal and the items of that state |
| Storefront.Frontend.AjaxGetCart | public/class-woo-prueba-tecnica-public.php:239-249 | a bad nonce ends the request with the cart untouched; otherwise the totals are recalculated and the cart data is sent |
| Storefront.Frontend.AjaxUpdateQuantity | public/class-woo-prueba-tecnica-public.php:254-276 | checks the nonce, then the key, before any mutation; a missing quantity counts as 0; an unknown key or a cart that is not ready is an error and changes nothing; on success the calls are set-quantity then two recalculations, and the reply is the cart data plus fragments built from an empty map; the totals are current when the reply is sent |
| Storefront.Frontend.AjaxRemoveItem | public/class-woo-prueba-tecnica-public.php:281-302 | checks the nonce, then the key, before any mutation; a missing line is an error; on success the reply carries the new count and items and fragments built after a recalculation; the totals are current afterwards, so the subtotal fragment is the pricing of the remaining lines |
| Storefront.Frontend.CartWidget | public/class-woo-prueba-tecnica-public.php:164-176 | nothing is shown on the cart and checkout pages; otherwise totals are recalculated and the widget shows the count, the items, the top products from the API and the subtotal |
| Admin.SanitizeOptions | admin/class-woo-prueba-tecnica-admin.php:140-169 | the result holds only the three settings, each being the cleaned input if set, else the stored value if set, else absent |
| Admin.Settings | admin/class-woo-prueba-tecnica-admin.php:142-168 | the fresh array holds at most three entries, each under one of the three setting keys, and each setting is found with exactly the value it was resolved to |
| Admin.SanitizedField | admin/class-woo-prueba-tecnica-admin.php:147-166 | each of the three settings is its own three-way resolution, with `esc_url_raw` for the URL and `sanitize_text_field` for the key and the secret |
| Admin.FieldsIndependent | admin/class-woo-prueba-tecnica-admin.php:148-166 | a setting depends only on what the input and the stored options hold for it |
| Admin.ExtraKeysDropped | admin/class-woo-prueba-tecnica-admin.php:142-168 | an input key other than the three settings never reaches the result |
| Admin.AddActionLinks | admin/class-woo-prueba-tecnica-admin.php:83-88 | the settings link comes first, followed by the original links unchanged and in order; the length grows by one and named links keep their names |

## Left out

- HTTP transport (`wp_remote_request`, timeout and TLS handling) and JSON decoding: the outcome of the exchange, including the decoded body, is an input.
- JSON numbers that are not integers and PHP floats: `Php.Value` has no float case.
- Escaping and sanitising (`esc_html`, `esc_attr`, `esc_url`, `wp_kses_post`, `esc_url_raw`, `sanitize_text_field`, `wp_unslash`): they are parameters or left out, and rendered values are kept before escaping.
- The nonce check is a boolean input, and the early exit it causes is the `NonceRejected` response.
- The `(int)` cast of `$_POST['quantity']`: the handler receives the already-parsed integer, or none.
- Logging (`log_debug`, `log_error`, `error_log`), hook registration (`init`), asset enqueueing and the localised script parameters.
- The plugin bootstrap, activation defaults and uninstall script, which are not part of this model.
- The front-end script that drives the widget in the browser, which is not part of this model.
- The markup text of the widget, the item rows and the fragments: datatypes record which values each part shows, not the HTML around them.
- Storefront.WithCartFragments: the fragments are a map, so the position at which PHP appends new keys to the array is not modelled.
- WooCommerce.SessionCart.SetQuantity: modelled only on an existing line or a quantity of 0 or less, which is how the plugin calls it. Setting a positive quantity on a missing key is left out.
- WooCommerce.SessionCart.SetQuantity and WooCommerce.SessionCart.RemoveCartItem leave the cached subtotal unspecified. Whether WooCommerce refreshes its totals inside these calls is not modelled, so the subtotal in the `cart_data` of `ajax_remove_item` is not pinned down.
- WooCommerce hooks and filters that could veto or alter a quantity change, and cross-request concurrency on the shared session cart.
- Pricing (`get_cart_subtotal`, `get_product_subtotal`, `get_price_html`, `wc_price`) and attribute taxonomy lookups are opaque functions.
- `urldecode` and the `attribute_pa_` stripping done before a taxonomy lookup are part of that opaque lookup, and `wc_attribute_label` is modelled without the product it is given for a custom attribute.
- Api.MakeRequest: an `api_url` option holding an array is converted to the text "Array". PHP 8 would instead raise a TypeError that `get_products` does not catch.
