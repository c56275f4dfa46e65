/**
 * The request client: its configuration, the header composer (`setHeaders`)
 * and the pure part of `request` (custom-header merge, body rule, result
 * shape). The credential stores and the UUID generator are parameters:
 * `jwts` is what `JwtTokenManager` holds, `storedKey` what
 * `KeyManager.getPublishableApiKey()` returns, `idempotencyId` what `uuidv4()`
 * returns for this call.
 */
module Requests {

  import opened Wrappers
  import opened JsValues
  import opened HeaderCase
  import opened HeaderMaps
  import opened Credentials

  const DefaultMaxRetries: int := 0
  const DefaultBaseUrl: string := "http://localhost:9000"

  /** The configuration handed to the constructor; an omitted field is None. */
  datatype ConfigInput = ConfigInput(
    baseUrl: Option<string>,
    maxRetries: Option<int>,
    apiKey: Option<string>,
    publishableApiKey: Option<string>,
    customHeaders: Option<Fields>)

  /** The configuration the client keeps. */
  datatype Config = Config(
    baseUrl: string,
    maxRetries: int,
    apiKey: Option<string>,
    publishableApiKey: Option<string>,
    customHeaders: Option<Fields>)

  /** `{...defaultConfig, ...config}`: every supplied field wins over its default. */
  function WithDefaults(input: ConfigInput): (c: Config)
    ensures input.baseUrl.Some? ==> c.baseUrl == input.baseUrl.value
    ensures input.baseUrl.None? ==> c.baseUrl == DefaultBaseUrl
    ensures input.maxRetries.Some? ==> c.maxRetries == input.maxRetries.value
    ensures input.maxRetries.None? ==> c.maxRetries == DefaultMaxRetries
    ensures c.apiKey == input.apiKey && c.publishableApiKey == input.publishableApiKey
    ensures c.customHeaders == input.customHeaders
  {
    Config(
      if input.baseUrl.Some? then input.baseUrl.value else DefaultBaseUrl,
      if input.maxRetries.Some? then input.maxRetries.value else DefaultMaxRetries,
      input.apiKey,
      input.publishableApiKey,
      input.customHeaders)
  }

  const AcceptHeader := "Accept"
  const ContentTypeHeader := "Content-Type"
  const AccessTokenHeader := "x-medusa-access-token"
  const AuthorizationHeader := "Authorization"
  const PublishableKeyHeader := "x-publishable-api-key"
  const IdempotencyKeyHeader := "Idempotency-Key"
  const ApplicationJson := Str("application/json")

  /** The six header names `setHeaders` generates are pairwise distinct, so no layer overwrites another. */
  lemma HeaderNamesDistinct()
    ensures AcceptHeader != ContentTypeHeader && AcceptHeader != AccessTokenHeader
    ensures AcceptHeader != AuthorizationHeader && AcceptHeader != PublishableKeyHeader
    ensures AcceptHeader != IdempotencyKeyHeader
    ensures ContentTypeHeader != AccessTokenHeader && ContentTypeHeader != AuthorizationHeader
    ensures ContentTypeHeader != PublishableKeyHeader && ContentTypeHeader != IdempotencyKeyHeader
    ensures AccessTokenHeader != AuthorizationHeader && AccessTokenHeader != PublishableKeyHeader
    ensures AccessTokenHeader != IdempotencyKeyHeader
    ensures AuthorizationHeader != PublishableKeyHeader && AuthorizationHeader != IdempotencyKeyHeader
    ensures PublishableKeyHeader != IdempotencyKeyHeader
  {
    assert |AcceptHeader| == 6 && |ContentTypeHeader| == 12 && |AuthorizationHeader| == 13;
    assert |IdempotencyKeyHeader| == 15 && |AccessTokenHeader| == 21 && |PublishableKeyHeader| == 21;
    assert AccessTokenHeader[2] != PublishableKeyHeader[2];
  }

  /** `this.config.publishableApiKey || KeyManager.getPublishableApiKey()`. */
  function PublishableKey(c: Config, storedKey: Option<string>): (key: Option<string>)
    ensures Truthy(key) <==> Truthy(c.publishableApiKey) || Truthy(storedKey)
    ensures Truthy(key) ==> key.value == if Truthy(c.publishableApiKey) then c.publishableApiKey.value else storedKey.value
  {
    if Truthy(c.publishableApiKey) then c.publishableApiKey else storedKey
  }

  /**
   * The headers `setHeaders` generates before the caller's headers are laid
   * over them; each generated key is guarded by its own condition.
   */
  function DefaultHeaders(c: Config, verb: Method, path: string, jwts: JwtStore,
                          storedKey: Option<string>, idempotencyId: string): (g: Fields)
    ensures AcceptHeader in g && g[AcceptHeader] == ApplicationJson
    ensures ContentTypeHeader in g && g[ContentTypeHeader] == ApplicationJson
    ensures g.Keys <= {AcceptHeader, ContentTypeHeader, AccessTokenHeader, AuthorizationHeader,
                       PublishableKeyHeader, IdempotencyKeyHeader}
  {
    HeaderNamesDistinct();
    WithIdempotencyKey(
      WithPublishableKey(
        WithBearer(WithAccessToken(BaseHeaders(), c, verb, path), jwts, path),
        c, storedKey),
      c, verb, idempotencyId)
  }

  /** The static key is sent when it is non-empty and the route needs it. */
  lemma DefaultHeadersAccessToken(c: Config, verb: Method, path: string, jwts: JwtStore,
                               storedKey: Option<string>, idempotencyId: string)
    ensures var g := DefaultHeaders(c, verb, path, jwts, storedKey, idempotencyId);
      && (AccessTokenHeader in g <==> Truthy(c.apiKey) && RequiresAuthentication(path, verb))
      && (AccessTokenHeader in g ==> g[AccessTokenHeader] == Str(c.apiKey.value))
  {
    HeaderNamesDistinct();
  }

  /** The bearer token is the non-empty token the store holds for the path's domain tag. */
  lemma DefaultHeadersBearer(c: Config, verb: Method, path: string, jwts: JwtStore,
                               storedKey: Option<string>, idempotencyId: string)
    ensures var g := DefaultHeaders(c, verb, path, jwts, storedKey, idempotencyId);
      && (AuthorizationHeader in g <==> Truthy(GetJwt(jwts, DomainOf(path))))
      && (AuthorizationHeader in g ==> g[AuthorizationHeader] == Str("Bearer " + GetJwt(jwts, DomainOf(path)).value))
  {
    HeaderNamesDistinct();
  }

  /** The configured publishable key wins over the stored one; neither being non-empty means no header. */
  lemma DefaultHeadersPublishableKey(c: Config, verb: Method, path: string, jwts: JwtStore,
                               storedKey: Option<string>, idempotencyId: string)
    ensures var g := DefaultHeaders(c, verb, path, jwts, storedKey, idempotencyId);
      && (PublishableKeyHeader in g <==> Truthy(c.publishableApiKey) || Truthy(storedKey))
      && (PublishableKeyHeader in g ==>
            g[PublishableKeyHeader] == Str(if Truthy(c.publishableApiKey) then c.publishableApiKey.value else storedKey.value))
  {
    HeaderNamesDistinct();
  }

  /** An idempotency key is generated exactly for POST when retries are enabled. */
  lemma DefaultHeadersIdempotencyKey(c: Config, verb: Method, path: string, jwts: JwtStore,
                               storedKey: Option<string>, idempotencyId: string)
    ensures var g := DefaultHeaders(c, verb, path, jwts, storedKey, idempotencyId);
      && (IdempotencyKeyHeader in g <==> c.maxRetries > 0 && verb == POST)
      && (IdempotencyKeyHeader in g ==> g[IdempotencyKeyHeader] == Str(idempotencyId))
  {
    HeaderNamesDistinct();
  }

  // The steps of `setHeaders`, one generated header each.

  function BaseHeaders(): Fields
  {
    map[AcceptHeader := ApplicationJson, ContentTypeHeader := ApplicationJson]
  }

  function WithAccessToken(h: Fields, c: Config, verb: Method, path: string): Fields
  {
    if Truthy(c.apiKey) && RequiresAuthentication(path, verb) then h[AccessTokenHeader := Str(c.apiKey.value)] else h
  }

  function WithBearer(h: Fields, jwts: JwtStore, path: string): Fields
  {
    var jwt := GetJwt(jwts, DomainOf(path));
    if Truthy(jwt) then h[AuthorizationHeader := Str("Bearer " + jwt.value)] else h
  }

  function WithPublishableKey(h: Fields, c: Config, storedKey: Option<string>): Fields
  {
    var key := PublishableKey(c, storedKey);
    if Truthy(key) then h[PublishableKeyHeader := Str(key.value)] else h
  }

  function WithIdempotencyKey(h: Fields, c: Config, verb: Method, idempotencyId: string): Fields
  {
    if c.maxRetries > 0 && verb == POST then h[IdempotencyKeyHeader := Str(idempotencyId)] else h
  }

  /** `{...this.config.customHeaders, ...customHeaders}`; an absent configured record spreads as `{}`. */
  function CustomHeaders(c: Config, callHeaders: Fields): (r: Fields)
    ensures r.Keys == callHeaders.Keys + (if c.customHeaders.Some? then c.customHeaders.value.Keys else {})
    ensures forall k :: k in callHeaders ==> r[k] == callHeaders[k]
    ensures forall k :: k !in callHeaders && c.customHeaders.Some? && k in c.customHeaders.value ==>
      r[k] == c.customHeaders.value[k]
  {
    Spread(if c.customHeaders.Some? then c.customHeaders.value else map[], callHeaders)
  }

  /** What `request` hands to `fetch`: the URL, the method, the header record and the payload under `data`. */
  datatype FetchCall = FetchCall(url: string, verb: Method, headers: Fields, data: Option<Fields>)

  /** `{...data, response}`: the parsed body's fields plus the raw response under `response`. */
  function MergeResult(data: Fields, response: JsValue): (r: Fields)
    ensures r.Keys == data.Keys + {"response"}
    ensures r["response"] == response
    ensures forall k :: k in data && k != "response" ==> r[k] == data[k]
  {
    Spread(data, map["response" := response])
  }

  class Client {
    /** Assigned once, by the constructor. */
    const config: Config

    constructor (input: ConfigInput)
      ensures config == WithDefaults(input)
    {
      config := WithDefaults(input);
    }

    /**
     * `setHeaders`: builds the generated headers one step at a time, then lays
     * what the normalised user headers spread to and the custom headers over
     * them. User headers that are not an object (`null`, say) contribute nothing.
     */
    method SetHeaders(userHeaders: JsValue, verb: Method, path: string, customHeaders: Fields,
                      jwts: JwtStore, storedKey: Option<string>, idempotencyId: string)
      returns (headers: Fields)
      requires userHeaders.Object? ==> WellFormed(userHeaders.obj)
      ensures headers == Spread(Spread(DefaultHeaders(config, verb, path, jwts, storedKey, idempotencyId), OwnFields(Normalized(userHeaders))), customHeaders)
      ensures forall k :: k in customHeaders ==> k in headers && headers[k] == customHeaders[k]
      ensures forall k :: k !in customHeaders && k in OwnFields(Normalized(userHeaders)) ==>
        k in headers && headers[k] == OwnFields(Normalized(userHeaders))[k]
      ensures forall k :: k !in customHeaders && k !in OwnFields(Normalized(userHeaders)) ==>
        (k in headers <==> k in DefaultHeaders(config, verb, path, jwts, storedKey, idempotencyId)) &&
        (k in headers ==> headers[k] == DefaultHeaders(config, verb, path, jwts, storedKey, idempotencyId)[k])
    {
      var defaultHeaders := BaseHeaders();
      defaultHeaders := WithAccessToken(defaultHeaders, config, verb, path);
      defaultHeaders := WithBearer(defaultHeaders, jwts, path);
      defaultHeaders := WithPublishableKey(defaultHeaders, config, storedKey);
      defaultHeaders := WithIdempotencyKey(defaultHeaders, config, verb, idempotencyId);
      var normalized := NormalizeHeaders(userHeaders);
      headers := Spread(Spread(defaultHeaders, OwnFields(normalized)), customHeaders);
    }

    /**
     * The pure part of `request`: omitted options default to `{}` (an explicit
     * `null` does not), the options are passed to `setHeaders` as its user
     * headers, and only POST and DELETE carry the payload.
     */
    method Request(verb: Method, path: string, payload: Fields, options: JsValue, customHeaders: Fields,
                   jwts: JwtStore, storedKey: Option<string>, idempotencyId: string)
      returns (call: FetchCall)
      requires options.Object? ==> WellFormed(options.obj)
      ensures call.url == config.baseUrl + path
      ensures call.verb == verb
      ensures call.headers == Spread(Spread(DefaultHeaders(config, verb, path, jwts, storedKey, idempotencyId),
                                            OwnFields(Normalized(options))),
                                     CustomHeaders(config, customHeaders))
      ensures forall k :: k in customHeaders ==> k in call.headers && call.headers[k] == customHeaders[k]
      ensures forall k :: k !in customHeaders && config.customHeaders.Some? && k in config.customHeaders.value ==>
        k in call.headers && call.headers[k] == config.customHeaders.value[k]
      ensures call.data.Some? <==> verb == POST || verb == DELETE
      ensures call.data.Some? ==> call.data.value == payload
    {
      var merged := CustomHeaders(config, customHeaders);
      var userHeaders := if options.Undefined? then Object(EmptyObject) else options;
      assert OwnFields(Normalized(userHeaders)) == OwnFields(Normalized(options));
      var headers := SetHeaders(userHeaders, verb, path, merged, jwts, storedKey, idempotencyId);
      var data: Option<Fields> := None;
      if verb == POST || verb == DELETE {
        data := Some(payload);
      }
      call := FetchCall(config.baseUrl + path, verb, headers, data);
    }
  }

  /**
   * `RequestOptions` reach `setHeaders` as its user headers, so the option
   * keys `timeout` and `numberOfRetries` are sent as the headers `Timeout`
   * and `Numberofretries`, each carrying the option's value.
   */
  lemma OptionsBecomeHeaders(timeout: JsValue, retries: JsValue)
    ensures Rekey(["timeout", "numberOfRetries"], map["timeout" := timeout, "numberOfRetries" := retries], NormalizeHeader).props
            == map["Timeout" := timeout, "Numberofretries" := retries]
  {
    OptionKeysExample();
    var keys := ["timeout", "numberOfRetries"];
    var props := map["timeout" := timeout, "numberOfRetries" := retries];
    assert keys[..1] == ["timeout"];
    assert keys[..1][..0] == [];
    assert Rekey(keys[..1], props, NormalizeHeader).props == map["Timeout" := timeout];
  }

  /**
   * The headers generated for a GET of `/admin/orders` with static key `K`,
   * no retries and no stored credentials: the JSON headers and the key.
   */
  lemma AdminOrdersHeaders(c: Config, idempotencyId: string)
    requires c.apiKey == Some("K") && c.publishableApiKey == None && c.maxRetries == 0
    ensures DefaultHeaders(c, GET, "/admin/orders", JwtStore(None, None), None, idempotencyId)
            == map[AcceptHeader := ApplicationJson, ContentTypeHeader := ApplicationJson,
                   AccessTokenHeader := Str("K")]
  {
    RequiresAuthenticationExamples();
    assert WithAccessToken(BaseHeaders(), c, GET, "/admin/orders")
           == map[AcceptHeader := ApplicationJson, ContentTypeHeader := ApplicationJson,
                  AccessTokenHeader := Str("K")];
  }

  /**
   * The end-to-end case with base URL `http://h`, no retries and static key
   * `K`: a GET of `/admin/orders` without stored credentials is sent to
   * `http://h/admin/orders` without a body, with exactly the JSON headers and
   * the static key, and no idempotency key.
   */
  method AdminOrdersScenario(idempotencyId: string) returns (call: FetchCall)
    ensures call.url == "http://h" + "/admin/orders"
    ensures call.data == None
    ensures call.headers == map[AcceptHeader := ApplicationJson, ContentTypeHeader := ApplicationJson,
                                AccessTokenHeader := Str("K")]
    ensures IdempotencyKeyHeader !in call.headers
  {
    var client := new Client(ConfigInput(Some("http://h"), Some(0), Some("K"), None, None));
    call := client.Request(GET, "/admin/orders", map[], Undefined, map[], JwtStore(None, None), None, idempotencyId);
    AdminOrdersHeaders(client.config, idempotencyId);
    assert CustomHeaders(client.config, map[]) == map[];
    HeaderNamesDistinct();
  }

  /**
   * Header names are compared exactly: a user header `x-medusa-access-token`
   * is re-keyed to `X-Medusa-Access-Token` and does not replace the generated
   * `x-medusa-access-token`, so both are sent.
   */
  method DuplicateAccessTokenScenario(userValue: JsValue, idempotencyId: string) returns (headers: Fields)
    ensures AccessTokenHeader in headers && headers[AccessTokenHeader] == Str("K")
    ensures "X-Medusa-Access-Token" in headers && headers["X-Medusa-Access-Token"] == userValue
  {
    var client := new Client(ConfigInput(Some("http://h"), Some(0), Some("K"), None, None));
    var user := JsObject([AccessTokenHeader], map[AccessTokenHeader := userValue], true);
    headers := client.SetHeaders(Object(user), GET, "/admin/orders", map[], JwtStore(None, None), None, idempotencyId);
    AdminOrdersHeaders(client.config, idempotencyId);
    AccessTokenHeaderExample();
    assert user.keys[..0] == [];
    assert Rekey(user.keys, user.props, NormalizeHeader).props == map["X-Medusa-Access-Token" := userValue];
    assert "X-Medusa-Access-Token"[0] != AccessTokenHeader[0];
  }

  /**
   * User headers `{__proto__: null, __PROTO__: v}` (as `JSON.parse` builds
   * them): the first key cuts the accumulator's prototype chain, so the
   * second is sent as a header named `__proto__` with value `v`.
   */
  method ProtoHeaderScenario(v: JsValue, idempotencyId: string) returns (headers: Fields)
    ensures ProtoKey in headers && headers[ProtoKey] == v
  {
    var client := new Client(ConfigInput(Some("http://h"), Some(0), None, None, None));
    var user := JsObject(["__proto__", "__PROTO__"], map["__proto__" := Null, "__PROTO__" := v], true);
    headers := client.SetHeaders(Object(user), GET, "/store/carts", map[], JwtStore(None, None), None, idempotencyId);
    ProtoAfterNullExample(v);
  }
}
