/**
 * The admin side of the plugin (WPT_Admin): the sanitisation callback of the
 * `wpt_options` setting and the "Settings" link on the plugins screen. The
 * WordPress sanitisers and `admin_url` are parameters.
 */
module Admin {
  import opened Php
  import Api

  /** `esc_url_raw` and `sanitize_text_field`. */
  datatype Sanitizers = Sanitizers(url: Value -> string, text: Value -> string)

  const Fields: set<Key> := {Api.ApiUrlKey, Api.ApiKeyKey, Api.ApiSecretKey}

  /**
   * How one setting is resolved: the cleaned input value when the input sets
   * it, else the stored value when the stored options set it, else absent.
   */
  function Resolve(input: Value, existing: Value, k: Key, clean: Value -> string): Option<Value> {
    if IsSet(input, k) then Some(Str(clean(Index(input, k))))
    else if IsSet(existing, k) then Some(Index(existing, k))
    else None
  }

  /** Appends `k => v` to an array under construction when there is a value. */
  function Put(es: seq<Entry>, k: Key, v: Option<Value>): seq<Entry> {
    if v.Some? then es + [Entry(k, v.value)] else es
  }

  /**
   * `sanitize_options($input)` given the stored options: a fresh array holding
   * at most the three settings, in order, each resolved on its own.
   */
  function SanitizeOptions(input: Value, existing: Value, s: Sanitizers): (r: Value)
    ensures r.Arr? && |r.entries| <= 3
    ensures forall e :: e in r.entries ==> e.key in Fields
    ensures Lookup(r, Api.ApiUrlKey) == Resolve(input, existing, Api.ApiUrlKey, s.url)
    ensures Lookup(r, Api.ApiKeyKey) == Resolve(input, existing, Api.ApiKeyKey, s.text)
    ensures Lookup(r, Api.ApiSecretKey) == Resolve(input, existing, Api.ApiSecretKey, s.text)
  {
    var url := Resolve(input, existing, Api.ApiUrlKey, s.url);
    var key := Resolve(input, existing, Api.ApiKeyKey, s.text);
    var secret := Resolve(input, existing, Api.ApiSecretKey, s.text);
    Settings(url, key, secret)
  }

  /** The array `sanitize_options` fills: the three settings that have a value, in order. */
  function Settings(url: Option<Value>, key: Option<Value>, secret: Option<Value>): (r: Value)
    ensures r.Arr? && |r.entries| <= 3
    ensures forall e :: e in r.entries ==> e.key in Fields
    ensures Lookup(r, Api.ApiUrlKey) == url
    ensures Lookup(r, Api.ApiKeyKey) == key
    ensures Lookup(r, Api.ApiSecretKey) == secret
  {
    var e1 := Put([], Api.ApiUrlKey, url);
    var e2 := Put(e1, Api.ApiKeyKey, key);
    var e3 := Put(e2, Api.ApiSecretKey, secret);
    assert Api.ApiUrlKey != Api.ApiKeyKey by { assert "api_url"[4] != "api_key"[4]; }
    assert Api.ApiUrlKey != Api.ApiSecretKey by { assert |"api_url"| != |"api_secret"|; }
    assert Api.ApiKeyKey != Api.ApiSecretKey by { assert |"api_key"| != |"api_secret"|; }
    PutLookup([], Api.ApiUrlKey, url, Api.ApiUrlKey);
    PutLookup(e1, Api.ApiKeyKey, key, Api.ApiUrlKey);
    PutLookup(e1, Api.ApiKeyKey, key, Api.ApiKeyKey);
    PutLookup(e2, Api.ApiSecretKey, secret, Api.ApiUrlKey);
    PutLookup(e2, Api.ApiSecretKey, secret, Api.ApiKeyKey);
    PutLookup(e2, Api.ApiSecretKey, secret, Api.ApiSecretKey);
    Arr(e3)
  }

  /**
   * Appending a key the array does not hold yet makes it findable with its
   * value and leaves every other lookup as it was.
   */
  lemma PutLookup(es: seq<Entry>, k: Key, v: Option<Value>, k': Key)
    requires Find(es, k).None?
    ensures Find(Put(es, k, v), k') == if k' == k then v else Find(es, k')
  {
    if v.Some? {
      FindAppend(es, [Entry(k, v.value)], k');
    }
  }

  /** The clean-up function applied to a setting. */
  function CleanerOf(k: Key, s: Sanitizers): Value -> string {
    if k == Api.ApiUrlKey then s.url else s.text
  }

  /** Each setting of the result is its own resolution. */
  lemma SanitizedField(input: Value, existing: Value, s: Sanitizers, k: Key)
    requires k in Fields
    ensures Lookup(SanitizeOptions(input, existing, s), k) == Resolve(input, existing, k, CleanerOf(k, s))
  {
    assert k == Api.ApiUrlKey || k == Api.ApiKeyKey || k == Api.ApiSecretKey;
    var r := SanitizeOptions(input, existing, s);
    if k == Api.ApiUrlKey {
      assert Lookup(r, k) == Resolve(input, existing, k, s.url);
    } else {
      assert CleanerOf(k, s) == s.text;
    }
  }

  /**
   * The three settings are independent: what the input and the stored options
   * say about one setting decides it, whatever they say about the others.
   */
  lemma FieldsIndependent(input: Value, input': Value, existing: Value, existing': Value, s: Sanitizers, k: Key)
    requires k in Fields
    requires Index(input, k) == Index(input', k) && Index(existing, k) == Index(existing', k)
    ensures Lookup(SanitizeOptions(input, existing, s), k) == Lookup(SanitizeOptions(input', existing', s), k)
  {
    SanitizedField(input, existing, s, k);
    SanitizedField(input', existing', s, k);
  }

  /** Input keys other than the three settings never reach the stored options. */
  lemma ExtraKeysDropped(input: Value, existing: Value, s: Sanitizers, k: Key)
    requires k !in Fields
    ensures Lookup(SanitizeOptions(input, existing, s), k).None?
  {
  }

  /** The link prepended to the plugin's action links. */
  function SettingsLink(adminUrl: string -> string): string {
    "<a href=\"" + adminUrl("admin.php?page=woo-prueba-tecnica") + "\">Settings</a>"
  }

  /**
   * `add_action_links($links)`: the settings link first, then the original
   * links unchanged and in order; named links keep their names.
   */
  function AddActionLinks(links: Value, adminUrl: string -> string): (r: Value)
    requires links.Arr?
    ensures r.Arr? && |r.entries| == |links.entries| + 1
    ensures r.entries[0].val == Str(SettingsLink(adminUrl))
    ensures forall i :: 0 <= i < |links.entries| ==> r.entries[i + 1].val == links.entries[i].val
    ensures forall name :: Lookup(r, StrKey(name)) == Lookup(links, StrKey(name))
  {
    var r := Unshift(links, Str(SettingsLink(adminUrl)));
    assert Values(r.entries)[0] == Str(SettingsLink(adminUrl));
    assert forall i :: 0 <= i < |links.entries| ==> Values(r.entries)[i + 1] == Values(links.entries)[i];
    r
  }
}
