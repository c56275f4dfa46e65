# Request client of medusa-js-fetch, modelled in Dafny

This project models the core of the `Client` class in `src/request.ts`: the
request client of a JavaScript SDK for a commerce backend. The modelled parts are:

- the header-name case normaliser `normalizeHeader`;
- `normalizeHeaders`, which re-keys an object by normalised names;
- the static-key decision `requiresAuthentication` with its allow-list of
  public admin endpoints;
- the domain tag that selects the bearer token;
- the header composer `setHeaders`;
- the configuration defaults of the constructor;
- the pure part of `request`: merging the custom headers, the body rule and
  the shape of the result.

Modules, one per file:

- `Wrappers`: `Option`.
- `JsValues`: JavaScript values and plain objects. An object keeps its keys
  in `Object.keys` order together with a property map. Also defines
  assignment, object spread and the truthiness of an optional string. An
  object also records whether `__proto__` still reaches the setter it
  inherits from `Object.prototype`, which decides what assigning `__proto__`
  does.
- `HeaderCase`: `normalizeHeader` as split, capitalise and join. Beside it is
  `Recase`, a character-by-character reference definition, proved equal to the
  source's algorithm. ASCII case mapping.
- `HeaderMaps`: `normalizeHeaders`. `Rekey` is a left fold over the keys that
  specifies it. The fold is stated for any renaming callback, and
  `normalizeHeaders` passes `NormalizeHeader`. `NormalizeHeaders` is the
  method carrying the `reduce` loop.
- `Credentials`: `requiresAuthentication` and the allow-list; `includes` as
  substring containment; the domain tag; the JWT store as a value.
- `Requests`: configuration, the generated headers, and a `Client` class
  holding the configuration with `SetHeaders` and `Request`.

The two credential singletons and the UUID generator are parameters of the
operations that read them:

- `jwts` stands for the tokens `JwtTokenManager` holds;
- `storedKey` stands for what `KeyManager.getPublishableApiKey()` returns;
- `idempotencyId` stands for the value `uuidv4()` returns for the call.

`fetch` and the JSON decoding of the response are outside the model. `Request`
returns the `FetchCall` it would hand to `fetch`, and `MergeResult` models how
the decoded body and the response are combined.

Two behaviours of the code, as written, are worth knowing. The model states both:

- `request` passes its `options` argument to `setHeaders` as the user
  headers. The option keys `timeout` and `numberOfRetries` are therefore sent
  as the headers `Timeout` and `Numberofretries` (`Requests.OptionsBecomeHeaders`).
- The payload is stored under the `data` field of the request options, not
  as `body`. The model keeps the field the code writes.

In the code, the domain tag uses substring containment while the static-key
decision uses a prefix test. `Credentials.AuthenticatedPathsAreAdminDomain`
proves that the first always covers the second.
`Credentials.SubstringDomainExample` exhibits a store path that is tagged
admin yet needs no key.

## Model

| member | source | states |
|---|---|---|
| JsValues.Assign | src/request.ts:59 | `result[name] = value`: the property map gains `name := value`; an existing key keeps its place in key order, a new key is appended (integer-like names are the exception, see Left out); `__proto__` on an object without such an own key that still reaches the inherited setter creates no key and updates whether the setter stays reachable; once it does not, `__proto__` is created like any other key; a well-formed object stays well-formed |
| JsValues.KeepsProtoSetter | src/request.ts:59 | whether the `__proto__` setter stays reachable after being run with a value: not for `null` or for an object that has its own `__proto__` or lacks the accessor, yes for a primitive, which the setter ignores; a predicate without a contract of its own, used by `Assign` and `HeaderMaps.RekeyProtoSetter` |
| JsValues.Truthy | src/request.ts:101 | JavaScript truthiness of an optional string (`if (apiKey)`, lines 110 and 120 likewise): present and non-empty; a predicate without a contract of its own, used by the presence clauses of the `Requests.DefaultHeaders*` lemmas |
| JsValues.OwnFields | src/request.ts:129 | what `...v` copies: an object's own properties, nothing for `null`, `undefined`, booleans and numbers |
| JsValues.Spread | src/request.ts:129 | object spread `{...a, ...b}`: the keys of both, every key of `b` with `b`'s value, every other key of `a` with `a`'s value |
| HeaderCase.NormalizeHeader | src/request.ts:65-72 | `split('-')`, capitalise each segment, `join('-')`; no contract of its own: its properties are stated by `NormalizeHeaderIsRecase`, `NormalizeHeaderChars`, `NormalizeHeaderSegments`, `NormalizeHeaderIdempotent` and the examples below |
| HeaderCase.ToUpper | src/request.ts:69 | ASCII `toUpperCase()` of one character: the result is never a lower-case letter, and only lower-case letters change |
| HeaderCase.ToLower | src/request.ts:69 | ASCII `toLowerCase()` of one character: the result is never an upper-case letter, and only upper-case letters change |
| HeaderCase.LowerAll | src/request.ts:69 | `toLowerCase()` of a string: same length, each character lower-cased |
| HeaderCase.Join | src/request.ts:71 | `.join('-')`; no contract of its own: `JoinSplit` and `SplitJoin` tie it to `Split`, and `JoinFour` states it for four segments |
| HeaderCase.CapitalizeAll | src/request.ts:68-70 | the `.map(...)` over the segments: as many segments, segment j capitalised |
| HeaderCase.Capitalize | src/request.ts:69 | one segment keeps its length and stays free of dashes |
| HeaderCase.Split | src/request.ts:67 | `split('-')` yields at least one segment, and no segment holds a dash |
| HeaderCase.SplitCount | src/request.ts:67 | a name with d dashes splits into exactly d + 1 segments |
| HeaderCase.JoinSplit | src/request.ts:67-71 | joining the segments with `-` gives back the original name |
| HeaderCase.SplitJoin | src/request.ts:67-71 | splitting a join of dash-free segments gives back exactly those segments |
| HeaderCase.NormalizeHeaderIsRecase | src/request.ts:65-72 | split/capitalise/join equals the character-by-character reference definition |
| HeaderCase.NormalizeHeaderChars | src/request.ts:65-72 | the normalised name has the same length; at each position a dash stays a dash, a segment's first character is upper-cased and every other character lower-cased |
| HeaderCase.NormalizeHeaderSegments | src/request.ts:65-72 | the normalised name has as many `-`-separated segments as the input, and segment j is the capitalised segment j of the input |
| HeaderCase.NormalizeHeaderIdempotent | src/request.ts:65-72 | normalising twice equals normalising once, for every name |
| HeaderCase.JoinFour | src/request.ts:71 | `join('-')` of four segments is the segments with a dash between each pair |
| HeaderCase.AccessTokenJoins | src/request.ts:67-71 | the segments `x`, `medusa`, `access`, `token` join to `x-medusa-access-token`, their capitalised forms to `X-Medusa-Access-Token` |
| HeaderCase.ProtoCapitalized | src/request.ts:69 | the segment `__proto__` capitalises to itself |
| HeaderCase.UpperProtoCapitalized | src/request.ts:69 | the segment `__PROTO__` capitalises to `__proto__` |
| HeaderCase.ProtoNamesExample | src/request.ts:65-72 | `__proto__` and `__PROTO__` both normalise to `__proto__` |
| HeaderCase.AccessTokenHeaderExample | src/request.ts:65-72 | `x-medusa-access-token` normalises to `X-Medusa-Access-Token` |
| HeaderCase.OptionKeysExample | src/request.ts:65-72 | `timeout` normalises to `Timeout`, `numberOfRetries` to `Numberofretries` |
| HeaderMaps.Rekey | src/request.ts:58-61 | the `reduce` fold: starting from `{}`, assign each key's value under the callback's name for it, in key order; no contract of its own: its properties are stated by `RekeyWellFormed`, `RekeyHasName(s)`, `RekeyOnlyNames`, `RekeyNoProto`, `RekeyProtoSetter` and `RekeyLaterWins` |
| HeaderMaps.Normalized | src/request.ts:53-61 | the value `normalizeHeaders` returns: a non-object unchanged; for an object, a well-formed object holding the normalised name of every key whose name is not `__proto__` (the `__proto__` case is stated by `RekeyHasName`) |
| HeaderMaps.NormalizeHeaders | src/request.ts:53-61 | a value that is not an object comes back unchanged; an object comes back as the fold that assigns each key's value under its normalised name, in key order, starting from `{}`, which reaches the inherited `__proto__` setter |
| HeaderMaps.RekeyWellFormed | src/request.ts:58-61 | the re-keyed object has distinct keys, each with a property |
| HeaderMaps.RekeyHasName | src/request.ts:58-61 | for any renaming callback, the new name of the key at any position is a name of the result, unless that name is `__proto__` and the accumulator before it still reached the inherited setter |
| HeaderMaps.RekeyHasNames | src/request.ts:58-61 | for any renaming callback, the new name of every key is a name of the result, unless that name is `__proto__` |
| HeaderMaps.RekeyOnlyNames | src/request.ts:58-61 | every name of the result is the new name of some key; `__proto__` is one only if the result no longer reaches the inherited setter |
| HeaderMaps.RekeyNoProto | src/request.ts:59 | while the accumulator reaches the inherited setter, `__proto__` is not one of its keys |
| HeaderMaps.RekeyProtoSetter | src/request.ts:58-61 | the accumulator still reaches the setter exactly when every key renamed to `__proto__` carried a value that keeps it (not `null`, not an object without the accessor) |
| HeaderMaps.ProtoAfterNullExample | src/request.ts:58-61 | own keys `__proto__: null`, `__PROTO__: v` re-key to `{__proto__: v}` with a `null` prototype: the first runs the setter, the second creates the key |
| HeaderMaps.RekeyLaterWins | src/request.ts:58-61 | a name holds the value of the last key, in key order, that is renamed to it, unless that last key is `__proto__` assigned while the accumulator still reached the setter |
| Credentials.RequiresAuthentication | src/request.ts:74-79 | `path.startsWith('/admin')` and the allow-list `UnauthenticatedAdminEndpoints` (lines 6-11) does not map the path to this method; a predicate without a contract of its own, stated by `RequiresAuthenticationIff` and `RequiresAuthenticationExamples` |
| Credentials.RequiresAuthenticationIff | src/request.ts:74-79 | the static key is required iff the path starts with `/admin` and the call is not a POST to one of the four public admin endpoints |
| Credentials.RequiresAuthenticationExamples | src/request.ts:6-11 | POST `/admin/auth` needs no key, GET `/admin/auth` and GET `/admin/orders` do, `/store/orders` never does |
| Credentials.Contains | src/request.ts:108 | `includes`: the substring is a prefix of the string or of one of its suffixes; no contract of its own, tied to occurrence at an index by `ContainsIff` |
| Credentials.DomainOf | src/request.ts:108 | admin if the path contains `admin`, else store; no contract of its own, stated by `DomainOfIff`, `AuthenticatedPathsAreAdminDomain` and the examples |
| Credentials.GetJwt | src/request.ts:110-113 | `JwtTokenManager.getJwt(domain)`: the token the store holds for that domain; no contract of its own, used by `Requests.DefaultHeadersBearer` |
| Credentials.ContainsIff | src/request.ts:108 | `includes` holds iff the substring occurs at some index |
| Credentials.DomainOfIff | src/request.ts:108 | the domain tag is admin iff `admin` occurs anywhere in the path |
| Credentials.AuthenticatedPathsAreAdminDomain | src/request.ts:108 | every path that needs the static key is tagged admin |
| Credentials.SubstringDomainExample | src/request.ts:108 | `/store/admin-settings` is tagged admin, yet needs no key for any method |
| Credentials.DomainExamples | src/request.ts:108 | `/admin/orders` is tagged admin, `/store/carts` is tagged store |
| Requests.WithDefaults | src/request.ts:28-40 | every supplied field wins; an omitted base URL becomes `http://localhost:9000` and an omitted `maxRetries` becomes 0 |
| Requests.PublishableKey | src/request.ts:117-118 | a key is present iff the configured or the stored one is non-empty; the configured one wins |
| Requests.DefaultHeaders | src/request.ts:96-127 | `Accept` and `Content-Type` are always `application/json`; no header outside the six generated names appears |
| Requests.BaseHeaders | src/request.ts:96-99 | the starting record `{Accept, Content-Type}`; no contract of its own, stated by `Requests.DefaultHeaders` |
| Requests.WithAccessToken | src/request.ts:101-106 | adds `x-medusa-access-token` when the key is non-empty and the route requires it; no contract of its own, stated by `Requests.DefaultHeadersAccessToken` |
| Requests.WithBearer | src/request.ts:108-115 | adds `Authorization: Bearer <token>` when the domain's token is non-empty; no contract of its own, stated by `Requests.DefaultHeadersBearer` |
| Requests.WithPublishableKey | src/request.ts:117-122 | adds `x-publishable-api-key` when a key resolves; no contract of its own, stated by `Requests.DefaultHeadersPublishableKey` |
| Requests.WithIdempotencyKey | src/request.ts:124-127 | adds `Idempotency-Key` for POST with retries enabled; no contract of its own, stated by `Requests.DefaultHeadersIdempotencyKey` |
| Requests.DefaultHeadersAccessToken | src/request.ts:101-106 | `x-medusa-access-token` is present iff the static key is non-empty and the route requires it, and then carries that key |
| Requests.DefaultHeadersBearer | src/request.ts:108-115 | `Authorization` is present iff the store holds a non-empty token for the path's domain tag, and then is `Bearer ` followed by it |
| Requests.DefaultHeadersPublishableKey | src/request.ts:117-122 | `x-publishable-api-key` is present iff the configured or the stored key is non-empty, and carries the configured one when it is |
| Requests.DefaultHeadersIdempotencyKey | src/request.ts:124-127 | `Idempotency-Key` is present iff retries are enabled and the method is POST, and then carries the call's fresh id |
| Requests.CustomHeaders | src/request.ts:149 | call-level custom headers override the configured ones; an absent configured record contributes nothing |
| Requests.MergeResult | src/request.ts:165 | the result holds every body field, and `response` holds the response (over a body field of that name) |
| Requests.Client.constructor | src/request.ts:36-41 | the kept configuration is the input laid over the defaults |
| Requests.Client.SetHeaders | src/request.ts:90-130 | the headers are the generated ones, overridden by what the normalised user headers spread to (nothing for `null`), overridden by the custom headers; every custom header keeps its exact value, every user header not overridden keeps its value, and every other key keeps its generated value or stays absent |
| Requests.Client.Request | src/request.ts:141-159 | the URL is base URL plus path; omitted options become `{}` while an explicit `null` does not; the headers use the options as user headers and the merged custom headers; call-level and configured custom headers both survive with the call winning; a payload is attached iff the method is POST or DELETE |
| Requests.OptionsBecomeHeaders | src/request.ts:154 | the request options `timeout` and `numberOfRetries` become the headers `Timeout` and `Numberofretries`, values unchanged |
| Requests.AdminOrdersHeaders | src/request.ts:96-127 | GET `/admin/orders` with static key `K`, no retries and no stored credentials generates exactly the two JSON headers and `x-medusa-access-token: K` |
| Requests.DuplicateAccessTokenScenario | src/request.ts:101-129 | header names are compared exactly: with static key `K` and a user header `x-medusa-access-token`, both `x-medusa-access-token: K` and `X-Medusa-Access-Token: <user value>` are sent |
| Requests.ProtoHeaderScenario | src/request.ts:90-129 | user headers `{__proto__: null, __PROTO__: v}` send a header named `__proto__` with value `v` |
| Requests.AdminOrdersScenario | src/request.ts:141-159 | a client on `http://h` with key `K` and no retries sends GET `/admin/orders` to `http://h/admin/orders`, without a body, with exactly those three headers and no `Idempotency-Key` |

## Left out

- `fetch`, `response.json()`, `async`/`await` and `credentials: 'include'` (src/request.ts:151-166) are network I/O; `Request` stops at the call it would make.
- The `Headers` constructor (src/request.ts:154) merges names case-insensitively, converts every value to a string, and throws a `TypeError` for a name or value that is not a valid header; the model keeps the plain record `setHeaders` returns, so `Request` yields a call, with values as given, even where the constructor would throw.
- `uuidv4()` (src/request.ts:126) is randomness; the id is a parameter, so uniqueness across calls is not stated.
- `JwtTokenManager` and `KeyManager` (src/request.ts:3-4) are not part of this model; their answers are parameters. The two `getJwt` calls at lines 110 and 113 are taken to return the same token.
- `shouldRetryCondition` (src/request.ts:43-50) always answers "do not retry" and no code path calls it.
- The `timeout` option is never applied by the source; the model only shows that it travels as a header.
- Case mapping is ASCII only; JavaScript's full Unicode `toUpperCase`/`toLowerCase` is not modelled.
- Numbers are unbounded integers; floating point `maxRetries` values are not modelled.
- `normalizeHeaders` distinguishes only objects from non-objects; arrays and functions, which JavaScript also treats as objects, are not modelled.
- `Object.keys` places integer-like keys first; the model takes the key order of an input object as given.
- JsValues.Assign, HeaderMaps.NormalizeHeaders: a new integer-like name (`"10"`, say) is placed by JavaScript before the other keys, in ascending order; the model appends it. The key order of the re-keyed object is therefore not JavaScript's when such names occur. `setHeaders` spreads that object into a record, where key order plays no part.
- JsValues.Assign, HeaderMaps.Rekey, HeaderMaps.NormalizeHeaders: of the accumulator's prototype only whether `__proto__` still reaches the inherited setter is tracked. An object installed as prototype is assumed to reach that setter unless it has an own `__proto__` key or is itself marked as not reaching it, and its other inherited properties (a setter or read-only property under a header name) are not modelled; assignment is taken to create or update an own key for every other name.
- JsValues.OwnFields: spreading a string copies its characters under index keys; the model spreads a string as nothing. TypeScript's `RequestOptions` type rules a string out as options.
- A configuration field passed explicitly as `undefined` overrides its default in JavaScript; the model treats it as omitted.
- Response bodies that are not JSON objects, and the resulting parse errors, belong to the network layer and are left out.
- Requests.DefaultHeaders, Requests.Client.SetHeaders: state the key set and the values of the headers, not the key order of the returned record.
