/**
 * The session cart owned by WooCommerce (`WC()->cart`), which the plugin
 * reads and mutates but does not own. Its lines form an ordered map from
 * line key to line record. Only the parts of WC_Cart that the plugin calls
 * are modelled: the contents, the item count, the cached subtotal and the
 * three mutators `set_quantity`, `remove_cart_item` and `calculate_totals`.
 * Pricing is a function the cart is created with and is never inspected.
 */
module WooCommerce {
  import opened Php

  /** A product meta record; `None`/`Null` stand for a property that is not set. */
  datatype MetaRecord = MetaRecord(id: Option<int>, key: Option<string>, value: Value)

  /** The product object stored in a line (`$cart_item['data']`). */
  datatype Product = Product(name: string, price: string, priceHtml: string, meta: seq<MetaRecord>)

  /**
   * One cart line. `product` is `None` when the product no longer loads;
   * `variation` holds the (attribute name, selected value) pairs in order.
   */
  datatype Line = Line(
    product: Option<Product>,
    productId: int,
    quantity: int,
    variationId: int,
    variation: seq<(string, string)>)

  datatype CartEntry = CartEntry(key: string, line: Line)

  /** A mutating call made on the cart, recorded in call order. */
  datatype CartCall =
    | SetQuantityCall(key: string, quantity: int)
    | RemoveCall(key: string)
    | CalculateTotalsCall

  ghost predicate DistinctKeys(s: seq<CartEntry>) {
    forall i, j :: 0 <= i < j < |s| ==> s[i].key != s[j].key
  }

  /** `$cart->cart_contents[$key]`, if set. */
  function LineOf(s: seq<CartEntry>, k: string): (r: Option<Line>)
    ensures r.Some? <==> exists i :: 0 <= i < |s| && s[i].key == k
    ensures r.Some? ==> exists i :: 0 <= i < |s| && s[i] == CartEntry(k, r.value)
  {
    if s == [] then None
    else if s[0].key == k then Some(s[0].line)
    else
      assert forall i :: 0 < i < |s| ==> s[i] == s[1..][i - 1];
      LineOf(s[1..], k)
  }

  predicate HasKey(s: seq<CartEntry>, k: string) {
    LineOf(s, k).Some?
  }

  /** `get_cart_contents_count()`: the sum of the line quantities. */
  function TotalQuantity(s: seq<CartEntry>): int {
    if s == [] then 0 else s[0].line.quantity + TotalQuantity(s[1..])
  }

  /** The contents after `unset($cart_contents[$k])`. */
  function Without(s: seq<CartEntry>, k: string): seq<CartEntry> {
    if s == [] then []
    else if s[0].key == k then Without(s[1..], k)
    else [s[0]] + Without(s[1..], k)
  }

  /** The contents after `$cart_contents[$k]['quantity'] = $q` on an existing line. */
  function WithQuantity(s: seq<CartEntry>, k: string, q: int): seq<CartEntry> {
    if s == [] then []
    else if s[0].key == k then [CartEntry(k, s[0].line.(quantity := q))] + WithQuantity(s[1..], k, q)
    else [s[0]] + WithQuantity(s[1..], k, q)
  }

  /** What `set_quantity($k, $q)` leaves: a quantity of zero or less removes the line. */
  function AfterSetQuantity(s: seq<CartEntry>, k: string, q: int): seq<CartEntry> {
    if q <= 0 then Without(s, k) else WithQuantity(s, k, q)
  }

  /** Removing a key removes exactly that line and keeps every other line. */
  lemma {:induction false} WithoutLines(s: seq<CartEntry>, k: string)
    ensures LineOf(Without(s, k), k) == None
    ensures forall k' :: k' != k ==> LineOf(Without(s, k), k') == LineOf(s, k')
    ensures DistinctKeys(s) ==> DistinctKeys(Without(s, k))
    ensures DistinctKeys(s) && HasKey(s, k) ==>
              TotalQuantity(Without(s, k)) == TotalQuantity(s) - LineOf(s, k).value.quantity
    ensures !HasKey(s, k) ==> Without(s, k) == s
  {
    if s != [] {
      WithoutLines(s[1..], k);
      var w := Without(s[1..], k);
      if DistinctKeys(s) {
        assert DistinctKeys(s[1..]) by {
          forall i, j | 0 <= i < j < |s[1..]| ensures s[1..][i].key != s[1..][j].key {
            assert s[1..][i] == s[i + 1] && s[1..][j] == s[j + 1];
          }
        }
        if s[0].key != k {
          forall i | 0 <= i < |w| ensures w[i].key != s[0].key {
            assert LineOf(w, s[0].key) == LineOf(s[1..], s[0].key) == None;
          }
          assert DistinctKeys([s[0]] + w) by {
            forall i, j | 0 <= i < j < |[s[0]] + w| ensures ([s[0]] + w)[i].key != ([s[0]] + w)[j].key {
              if i > 0 { assert ([s[0]] + w)[i] == w[i - 1]; }
              assert ([s[0]] + w)[j] == w[j - 1];
            }
          }
        } else {
          assert !HasKey(s[1..], k);
        }
      }
    }
  }

  /** Setting a quantity keeps the keys and their order; on an absent key it changes nothing. */
  lemma {:induction false} WithQuantityShape(s: seq<CartEntry>, k: string, q: int)
    ensures |WithQuantity(s, k, q)| == |s|
    ensures forall i :: 0 <= i < |s| ==> WithQuantity(s, k, q)[i].key == s[i].key
    ensures !HasKey(s, k) ==> WithQuantity(s, k, q) == s
  {
    if s != [] {
      WithQuantityShape(s[1..], k, q);
      var w := WithQuantity(s, k, q);
      assert w[1..] == WithQuantity(s[1..], k, q);
      forall i | 0 <= i < |s| ensures w[i].key == s[i].key {
        if i > 0 { assert w[i] == w[1..][i - 1] && s[i] == s[1..][i - 1]; }
      }
    }
  }

  /** Setting a quantity changes the line under that key only, and only its quantity. */
  lemma {:induction false} WithQuantityLookup(s: seq<CartEntry>, k: string, q: int)
    ensures forall k' :: k' != k ==> LineOf(WithQuantity(s, k, q), k') == LineOf(s, k')
    ensures LineOf(WithQuantity(s, k, q), k) ==
              if HasKey(s, k) then Some(LineOf(s, k).value.(quantity := q)) else None
  {
    if s != [] {
      WithQuantityLookup(s[1..], k, q);
    }
  }

  /** On distinct keys, setting a quantity keeps them distinct and moves the total by the difference. */
  lemma {:induction false} WithQuantityTotal(s: seq<CartEntry>, k: string, q: int)
    requires DistinctKeys(s)
    ensures DistinctKeys(WithQuantity(s, k, q))
    ensures HasKey(s, k) ==>
              TotalQuantity(WithQuantity(s, k, q)) == TotalQuantity(s) - LineOf(s, k).value.quantity + q
  {
    if s != [] {
      assert DistinctKeys(s[1..]) by {
        forall i, j | 0 <= i < j < |s[1..]| ensures s[1..][i].key != s[1..][j].key {
          assert s[1..][i] == s[i + 1] && s[1..][j] == s[j + 1];
        }
      }
      WithQuantityTotal(s[1..], k, q);
      WithQuantityShape(s, k, q);
      if s[0].key == k {
        assert !HasKey(s[1..], k);
        WithQuantityShape(s[1..], k, q);
      }
    }
  }

  /** Setting a positive quantity changes that line's quantity and nothing else. */
  lemma WithQuantityLines(s: seq<CartEntry>, k: string, q: int)
    ensures forall k' :: k' != k ==> LineOf(WithQuantity(s, k, q), k') == LineOf(s, k')
    ensures LineOf(WithQuantity(s, k, q), k) ==
              if HasKey(s, k) then Some(LineOf(s, k).value.(quantity := q)) else None
    ensures !HasKey(s, k) ==> WithQuantity(s, k, q) == s
    ensures |WithQuantity(s, k, q)| == |s|
    ensures forall i :: 0 <= i < |s| ==> WithQuantity(s, k, q)[i].key == s[i].key
    ensures DistinctKeys(s) ==> DistinctKeys(WithQuantity(s, k, q))
    ensures DistinctKeys(s) && HasKey(s, k) ==>
              TotalQuantity(WithQuantity(s, k, q)) == TotalQuantity(s) - LineOf(s, k).value.quantity + q
  {
    WithQuantityShape(s, k, q);
    WithQuantityLookup(s, k, q);
    if DistinctKeys(s) {
      WithQuantityTotal(s, k, q);
    }
  }

  /**
   * `WC()->cart`. The call log is the sequence of mutating calls made on it,
   * so that callers can state which calls they made and in which order.
   */
  class SessionCart {
    var contents: seq<CartEntry>
    /** The subtotal display as of the last `calculate_totals`. */
    var subtotal: string
    ghost var calls: seq<CartCall>
    /** The engine's pricing of a set of lines, as a formatted subtotal. */
    const pricing: seq<CartEntry> -> string

    ghost predicate Valid()
      reads this
    {
      DistinctKeys(contents)
    }

    /** The cached subtotal reflects the current contents. */
    predicate TotalsCurrent()
      reads this
    {
      subtotal == pricing(contents)
    }

    constructor (pricing: seq<CartEntry> -> string, contents: seq<CartEntry>)
      requires DistinctKeys(contents)
      ensures Valid() && TotalsCurrent() && calls == []
      ensures this.contents == contents && this.pricing == pricing
    {
      this.pricing := pricing;
      this.contents := contents;
      this.subtotal := pricing(contents);
      this.calls := [];
    }

    /** `get_cart_contents_count()`. */
    function ContentsCount(): int
      reads this
    {
      TotalQuantity(contents)
    }

    /** `get_cart_subtotal()`: the cached subtotal, current or not. */
    function Subtotal(): string
      reads this
    {
      subtotal
    }

    /**
     * `set_quantity($key, $quantity)`: a quantity of zero or less delegates to
     * `remove_cart_item` and returns its result; otherwise it sets the quantity
     * of the existing line and returns true. Whether the engine refreshes its
     * cached totals here is not promised: the subtotal afterwards is left open.
     */
    method SetQuantity(key: string, quantity: int) returns (r: bool)
      requires Valid()
      requires quantity > 0 ==> HasKey(contents, key)
      modifies this
      ensures Valid()
      ensures r == (quantity > 0 || HasKey(old(contents), key))
      ensures contents == AfterSetQuantity(old(contents), key, quantity)
      ensures calls == old(calls) + [SetQuantityCall(key, quantity)]
    {
      WithoutLines(contents, key);
      WithQuantityLines(contents, key, quantity);
      r := quantity > 0 || HasKey(contents, key);
      contents := AfterSetQuantity(contents, key, quantity);
      calls := calls + [SetQuantityCall(key, quantity)];
    }

    /**
     * `remove_cart_item($key)`: true iff the line existed. As for `SetQuantity`,
     * the cached subtotal afterwards is left open.
     */
    method RemoveCartItem(key: string) returns (r: bool)
      requires Valid()
      modifies this
      ensures Valid()
      ensures r == HasKey(old(contents), key)
      ensures contents == Without(old(contents), key)
      ensures calls == old(calls) + [RemoveCall(key)]
    {
      WithoutLines(contents, key);
      r := HasKey(contents, key);
      contents := Without(contents, key);
      calls := calls + [RemoveCall(key)];
    }

    /** `calculate_totals()`: refreshes the cached subtotal; the lines stay as they are. */
    method CalculateTotals()
      requires Valid()
      modifies this
      ensures Valid() && TotalsCurrent()
      ensures contents == old(contents)
      ensures calls == old(calls) + [CalculateTotalsCall]
    {
      subtotal := pricing(contents);
      calls := calls + [CalculateTotalsCall];
    }
  }
}
