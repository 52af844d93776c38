/**
 * PHP values as the plugin handles them: decoded JSON, option arrays and
 * request parameters. A PHP array is an ORDERED sequence of key/value
 * entries; reading a missing key yields null, as PHP does (with a notice).
 */
module Php {

  datatype Option<+T> = None | Some(value: T) {
    function GetOr(default: T): T {
      match this
      case Some(v) => v
      case None => default
    }
  }

  datatype Key = IntKey(n: int) | StrKey(s: string)

  /** Non-integer numbers are not part of this value model. */
  datatype Value =
    | Null
    | Bool(b: bool)
    | Int(n: int)
    | Str(s: string)
    | Arr(entries: seq<Entry>)

  datatype Entry = Entry(key: Key, val: Value)

  /** `empty()` on a string: both "" and "0" count as empty. */
  predicate EmptyString(s: string) {
    s == "" || s == "0"
  }

  /** `empty()`: the value is falsy. */
  predicate Empty(v: Value) {
    match v
    case Null => true
    case Bool(b) => !b
    case Int(n) => n == 0
    case Str(s) => EmptyString(s)
    case Arr(es) => es == []
  }

  /** The value stored under `k`, scanning the entries in order. */
  function Find(es: seq<Entry>, k: Key): (r: Option<Value>)
    ensures r.Some? <==> exists i :: 0 <= i < |es| && es[i].key == k
    ensures r.Some? ==> exists i :: 0 <= i < |es| && es[i].key == k && es[i].val == r.value
  {
    if es == [] then None
    else if es[0].key == k then Some(es[0].val)
    else
      var r := Find(es[1..], k);
      assert forall i :: 0 < i < |es| ==> es[i] == es[1..][i - 1];
      r
  }

  /** `$v[k]` when `$v` is an array; nothing otherwise. */
  function Lookup(v: Value, k: Key): Option<Value> {
    if v.Arr? then Find(v.entries, k) else None
  }

  /** A read `$v[k]`: null when the key is missing or `$v` is not an array. */
  function Index(v: Value, k: Key): Value {
    Lookup(v, k).GetOr(Null)
  }

  /** `isset($v[k])`: the key is present and its value is not null. */
  predicate IsSet(v: Value, k: Key) {
    Index(v, k) != Null
  }

  /** `isset($v[0][k])`. */
  predicate IsSetInFirst(v: Value, k: Key) {
    IsSet(Index(v, IntKey(0)), k)
  }

  lemma {:induction false} FindAppend(a: seq<Entry>, b: seq<Entry>, k: Key)
    ensures Find(a + b, k) == if Find(a, k).Some? then Find(a, k) else Find(b, k)
  {
    if a == [] {
      assert a + b == b;
    } else {
      assert (a + b)[0] == a[0] && (a + b)[1..] == a[1..] + b;
      FindAppend(a[1..], b, k);
    }
  }

  /** The values of an array, in order. */
  function Values(es: seq<Entry>): (r: seq<Value>)
    ensures |r| == |es|
    ensures forall i :: 0 <= i < |es| ==> r[i] == es[i].val
  {
    if es == [] then [] else [es[0].val] + Values(es[1..])
  }

  /**
   * The renumbering that `array_slice` and `array_unshift` apply: integer
   * keys become `next`, `next + 1`, ... in order; string keys and every
   * value are kept.
   */
  function Renumber(es: seq<Entry>, next: int): (r: seq<Entry>)
    ensures |r| == |es|
    ensures forall i :: 0 <= i < |es| ==> r[i].val == es[i].val
    ensures forall i :: 0 <= i < |es| ==> (r[i].key.StrKey? <==> es[i].key.StrKey?)
    ensures forall i :: 0 <= i < |es| && es[i].key.StrKey? ==> r[i].key == es[i].key
    ensures forall i :: 0 <= i < |es| && es[i].key.IntKey? ==> r[i].key.n >= next
  {
    if es == [] then []
    else if es[0].key.IntKey? then [Entry(IntKey(next), es[0].val)] + Renumber(es[1..], next + 1)
    else [es[0]] + Renumber(es[1..], next)
  }

  /** `array_slice($v, 0, $n)` on an array. */
  function SliceFront(v: Value, n: nat): (r: Value)
    requires v.Arr?
    ensures r.Arr?
    ensures |r.entries| == if |v.entries| < n then |v.entries| else n
    ensures forall i :: 0 <= i < |r.entries| ==> r.entries[i].val == v.entries[i].val
  {
    var m := if |v.entries| < n then |v.entries| else n;
    Arr(Renumber(v.entries[..m], 0))
  }

  /** `array_unshift($v, $x)` on an array, returning the updated array. */
  function Unshift(v: Value, x: Value): (r: Value)
    requires v.Arr?
    ensures r.Arr? && |r.entries| == |v.entries| + 1
    ensures Values(r.entries) == [x] + Values(v.entries)
    ensures forall s :: Lookup(r, StrKey(s)) == Lookup(v, StrKey(s))
  {
    var rest := Renumber(v.entries, 1);
    var r := Arr([Entry(IntKey(0), x)] + rest);
    forall s ensures Lookup(r, StrKey(s)) == Lookup(v, StrKey(s)) {
      FindRenumbered(v.entries, 1, s);
    }
    r
  }

  lemma {:induction false} FindRenumbered(es: seq<Entry>, next: int, s: string)
    ensures Find(Renumber(es, next), StrKey(s)) == Find(es, StrKey(s))
  {
    if es != [] {
      FindRenumbered(es[1..], if es[0].key.IntKey? then next + 1 else next, s);
    }
  }

  function Digit(d: nat): char
    requires d < 10
  {
    "0123456789"[d]
  }

  function DecimalDigits(n: nat): string
  {
    if n < 10 then [Digit(n)] else DecimalDigits(n / 10) + [Digit(n % 10)]
  }

  /** PHP's conversion of a value to a string. */
  function ToText(v: Value): string {
    match v
    case Null => ""
    case Bool(b) => if b then "1" else ""
    case Int(n) => if n < 0 then "-" + DecimalDigits(-n) else DecimalDigits(n)
    case Str(s) => s
    case Arr(_) => "Array"
  }
}
