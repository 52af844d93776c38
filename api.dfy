/**
 * The recommendation client (WPT_API). The HTTP exchange itself is not
 * modelled: what `wp_remote_request` produced, including the decoded JSON
 * body, is an input. What is modelled is how the request is built (URL join,
 * headers, when a body is attached), how the reply is classified, and the
 * fail-closed validation of the product list.
 */
module Api {
  import opened Php

  datatype WpError = WpError(code: string, message: string)

  /** What sending the request produced. */
  datatype HttpOutcome =
    /** `wp_remote_request` returned a WP_Error */
    | TransportError(error: WpError)
    /** an exception escaped from the request */
    | Thrown(message: string)
    /** a reply; `decoded` is `json_decode($body, true)`, null when the body is not JSON */
    | HttpReply(status: int, body: string, decoded: Value)

  datatype RequestArgs = RequestArgs(
    verb: string,
    contentType: string,
    apiKey: Value,
    apiSecret: Value,
    timeout: int,
    sslVerify: bool,
    /** the data sent as the JSON body, if any */
    body: Option<Value>)

  datatype Request = Request(url: string, args: RequestArgs)

  /** What `make_request` returns, or the exception it lets through. */
  datatype RequestResult = Decoded(value: Value) | Failed(error: WpError) | Raised(message: string)

  datatype Exchange = Exchange(request: Request, result: RequestResult)

  /** What `get_products` did: the request it sent, if any, and the array it returns. */
  datatype Fetched = Fetched(request: Option<Request>, products: Value)

  const ApiUrlKey: Key := StrKey("api_url")
  const ApiKeyKey: Key := StrKey("api_key")
  const ApiSecretKey: Key := StrKey("api_secret")
  const TimeoutSeconds := 30

  predicate IsSlash(c: char) {
    c == '/' || c == '\\'
  }

  /** `rtrim($s, '/\\')`. */
  function TrimTrailingSlashes(s: string): (r: string)
    ensures r <= s
    ensures r == [] || !IsSlash(r[|r| - 1])
    ensures forall i :: |r| <= i < |s| ==> IsSlash(s[i])
  {
    if s != [] && IsSlash(s[|s| - 1]) then TrimTrailingSlashes(s[..|s| - 1]) else s
  }

  /** `ltrim($s, '/')`. */
  function TrimLeadingSlashes(s: string): (r: string)
    ensures |r| <= |s| && r == s[|s| - |r|..]
    ensures r == [] || r[0] != '/'
    ensures forall i :: 0 <= i < |s| - |r| ==> s[i] == '/'
  {
    if s != [] && s[0] == '/' then TrimLeadingSlashes(s[1..]) else s
  }

  /** `trailingslashit($s)`. */
  function TrailingSlashIt(s: string): string {
    TrimTrailingSlashes(s) + "/"
  }

  /** The URL `make_request` sends to. */
  function RequestUrl(apiUrl: string, endpoint: string): string {
    TrailingSlashIt(apiUrl) + TrimLeadingSlashes(endpoint)
  }

  lemma {:induction false} TrimTrailingIgnoresSlashes(s: string, tail: string)
    requires forall i :: 0 <= i < |tail| ==> IsSlash(tail[i])
    ensures TrimTrailingSlashes(s + tail) == TrimTrailingSlashes(s)
    decreases |tail|
  {
    if tail == [] {
      assert s + tail == s;
    } else {
      assert (s + tail)[..|s + tail| - 1] == s + tail[..|tail| - 1];
      TrimTrailingIgnoresSlashes(s, tail[..|tail| - 1]);
    }
  }

  lemma {:induction false} TrimLeadingIgnoresSlashes(head: string, s: string)
    requires forall i :: 0 <= i < |head| ==> head[i] == '/'
    ensures TrimLeadingSlashes(head + s) == TrimLeadingSlashes(s)
  {
    if head == [] {
      assert head + s == s;
    } else {
      assert (head + s)[1..] == head[1..] + s;
      TrimLeadingIgnoresSlashes(head[1..], s);
    }
  }

  /**
   * The join uses exactly one slash: slashes at the end of the base URL and
   * at the start of the endpoint make no difference, and a base and an
   * endpoint without them are joined with a single "/".
   */
  lemma RequestUrlJoin(apiUrl: string, tail: string, head: string, endpoint: string)
    requires forall i :: 0 <= i < |tail| ==> IsSlash(tail[i])
    requires forall i :: 0 <= i < |head| ==> head[i] == '/'
    ensures RequestUrl(apiUrl + tail, head + endpoint) == RequestUrl(apiUrl, endpoint)
    ensures (apiUrl == [] || !IsSlash(apiUrl[|apiUrl| - 1])) && (endpoint == [] || endpoint[0] != '/') ==>
              RequestUrl(apiUrl, endpoint) == apiUrl + "/" + endpoint
  {
    TrimTrailingIgnoresSlashes(apiUrl, tail);
    TrimLeadingIgnoresSlashes(head, endpoint);
  }

  /** The arguments `make_request` passes: a body only for POST or PUT with non-empty data. */
  function BuildArgs(options: Value, verb: string, data: Value): (a: RequestArgs)
    ensures a.verb == verb && a.timeout == TimeoutSeconds && !a.sslVerify
    ensures a.apiKey == Index(options, ApiKeyKey) && a.apiSecret == Index(options, ApiSecretKey)
    ensures a.body.Some? <==> !Empty(data) && (verb == "POST" || verb == "PUT")
    ensures a.body.Some? ==> a.body.value == data
  {
    RequestArgs(
      verb, "application/json", Index(options, ApiKeyKey), Index(options, ApiSecretKey),
      TimeoutSeconds, false,
      if !Empty(data) && (verb == "POST" || verb == "PUT") then Some(data) else None)
  }

  predicate IsSuccessStatus(status: int) {
    200 <= status < 300
  }

  /** The WP_Error built for a reply whose status is not 2xx. */
  function StatusError(status: int, body: string): WpError {
    WpError("api_error", "API Error (Code: " + ToText(Int(status)) + "): " + body)
  }

  /** `make_request($verb, $endpoint, $data)`, given what the transport produced. */
  function MakeRequest(options: Value, verb: string, endpoint: string, data: Value, http: HttpOutcome): (x: Exchange)
    ensures x.request.url == RequestUrl(ToText(Index(options, ApiUrlKey)), endpoint)
    ensures x.request.args == BuildArgs(options, verb, data)
    ensures x.result.Decoded? <==> http.HttpReply? && IsSuccessStatus(http.status)
    ensures x.result.Decoded? ==> x.result.value == http.decoded
    ensures http.HttpReply? && !IsSuccessStatus(http.status) ==>
              x.result.Failed? && x.result.error.code == "api_error"
    ensures http.TransportError? ==> x.result == Failed(http.error)
    ensures x.result.Raised? <==> http.Thrown?
  {
    var request := Request(RequestUrl(ToText(Index(options, ApiUrlKey)), endpoint), BuildArgs(options, verb, data));
    var result :=
      match http
      case TransportError(e) => Failed(e)
      case Thrown(m) => Raised(m)
      case HttpReply(status, body, decoded) =>
        if IsSuccessStatus(status) then Decoded(decoded) else Failed(StatusError(status, body));
    Exchange(request, result)
  }

  /**
   * The shape check of a product list: a non-empty array whose element 0 has
   * both `name` and `price` set. Only element 0 is inspected.
   */
  predicate ProductListAccepted(v: Value) {
    v.Arr? && !Empty(v) && IsSetInFirst(v, StrKey("name")) && IsSetInFirst(v, StrKey("price"))
  }

  /**
   * The guard chain of `get_products` after the request: an error, a reply
   * that is not a non-empty array, or a first element without `name` and
   * `price` all give the empty array; otherwise the reply is returned whole.
   */
  function ValidateProducts(result: RequestResult): (v: Value)
    ensures v == Arr([]) || (result.Decoded? && v == result.value)
    ensures v != Arr([]) <==> result.Decoded? && ProductListAccepted(result.value)
  {
    match result
    case Raised(_) => Arr([])
    case Failed(_) => Arr([])
    case Decoded(v) =>
      if !v.Arr? || Empty(v) then Arr([])
      else if !IsSetInFirst(v, StrKey("name")) || !IsSetInFirst(v, StrKey("price")) then Arr([])
      else v
  }

  lemma ProductsEndpoint()
    ensures TrimLeadingSlashes("/products") == "products"
  {
    assert "/products"[1..] == "products";
  }

  /** `get_products()`. */
  function GetProducts(options: Value, http: HttpOutcome): (f: Fetched)
    ensures Empty(Index(options, ApiUrlKey)) ==> f.request.None? && f.products == Arr([])
    ensures !Empty(Index(options, ApiUrlKey)) ==>
              f.request.Some?
              && f.request.value.url == TrailingSlashIt(ToText(Index(options, ApiUrlKey))) + "products"
              && f.request.value.args.verb == "GET" && f.request.value.args.body.None?
    ensures f.products == Arr([]) || (http.HttpReply? && IsSuccessStatus(http.status) && f.products == http.decoded)
    ensures f.products != Arr([]) <==>
              !Empty(Index(options, ApiUrlKey)) && http.HttpReply? && IsSuccessStatus(http.status)
              && ProductListAccepted(http.decoded)
  {
    if Empty(Index(options, ApiUrlKey)) then Fetched(None, Arr([]))
    else
      var x := MakeRequest(options, "GET", "/products", Null, http);
      ProductsEndpoint();
      Fetched(Some(x.request), ValidateProducts(x.result))
  }

  /** Fail-closed validation: a list whose first element lacks a price is dropped whole. */
  lemma MissingPriceDropsList(options: Value, body: string)
    requires !Empty(Index(options, ApiUrlKey))
    ensures
      var noPrice := Arr([Entry(IntKey(0), Arr([Entry(StrKey("name"), Str("A"))]))]);
      GetProducts(options, HttpReply(200, body, noPrice)).products == Arr([])
  {
    var named := Arr([Entry(StrKey("name"), Str("A"))]);
    assert Find(named.entries, StrKey("price")) == None;
  }

  /**
   * Only element 0 is inspected: a list whose first element is complete is
   * returned whole even when a later element is not a product at all.
   */
  lemma OnlyFirstElementChecked(options: Value, body: string)
    requires !Empty(Index(options, ApiUrlKey))
    ensures
      var mixed := Arr([
        Entry(IntKey(0), Arr([Entry(StrKey("name"), Str("A")), Entry(StrKey("price"), Int(10))])),
        Entry(IntKey(1), Str("B"))]);
      GetProducts(options, HttpReply(200, body, mixed)).products == mixed
  {
    var full := Arr([Entry(StrKey("name"), Str("A")), Entry(StrKey("price"), Int(10))]);
    var mixed := Arr([Entry(IntKey(0), full), Entry(IntKey(1), Str("B"))]);
    assert Find(mixed.entries, IntKey(0)) == Some(full);
    assert Find(full.entries, StrKey("name")) == Some(Str("A"));
    assert Find(full.entries, StrKey("price")) == Some(Int(10));
    assert ProductListAccepted(mixed);
  }
}
