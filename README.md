# Prokerala proxy: token cache and request forwarding

A Dafny model of the Vercel handler `api/prokerala.js`. The handler does four things:

- It takes a JSON request `{ path, method, payload }`.
- It gets an OAuth2 client-credentials bearer token from `https://api.prokerala.com/token` and keeps it in a process-wide, one-slot cache (`global._prokerala_token`, `global._prokerala_token_expires`).
- It forwards the request to `https://api.prokerala.com` + `path`.
- It relays the downstream status, with the body parsed as JSON if it parses and the raw text otherwise.

The model has three modules:

- `JsValues` (`js_values.dfy`): the JavaScript value rules the handler depends on. These are JSON values, truthiness, `a || b || c`, property access, `String(x)`, `Number(x)` and `toUpperCase`.
- `Prokerala` (`prokerala.dfy`): the request data and the pure specification of one invocation.
  - `Serve` is one invocation, given the cache contents and everything the invocation sees from outside (an `Exchange`).
  - `AcquireToken` is the token step; `Forward` and `BuildCall` are the downstream request.
  - The class `TokenCache` holds the two cache fields. Its methods `Acquire` and `Handle` run the handler step by step, with early returns and an in-place update of the cache and the header list. Each method is proved equal to its specification function.
  - `TokenCache.Valid` (the cached token is never falsy) is a fact the methods keep. No contract depends on it, because `Serve` checks the token's truthiness itself at line 25.
- `ProkeralaProperties` (`properties.dfy`): what the handler promises.
  - Lemmas about one invocation: the error cases, cache hit and miss, the expiry arithmetic, request construction, the relay, and the order of outbound calls.
  - `Replay`, which runs a sequence of invocations one after the other over the shared cache, and the lemmas about token calls inside a validity window.

Inputs that stand for the outside world:

- The network is two `Reply` values: the token endpoint's and the resource endpoint's. Each is either a status and a body text, or `NetworkFailure` when the `fetch` rejects. The outbound calls the handler makes come back as a trace of `Call`s.
- The clock is two readings: `Date.now()` at the cache check (line 25) and when the expiry is computed (line 47, after the token fetch has returned).
- `JSON.parse` is the function parameter `parse`; `None` means it throws.
- The environment variables are an `Env`.

The expiry field is an `int`, and 0 stands for every falsy value the JavaScript global can hold (undefined, 0 and NaN). Its only reader is the test at line 25, for which all of these behave alike. A NaN lifetime is stored as 0, so the token is used for the current request and refreshed on the next one, as in the code.

Behaviours of the code that a client of the proxy might not expect, all of which the model follows:

- For GET the payload is dropped. It is not turned into query parameters, and no default locale or ayanamsa parameters are added (line 61).
- `method` is not required; it defaults to `POST` (line 16). Only `path` is checked.
- Every inbound HTTP method other than OPTIONS is served the same way; there is no 405 answer (lines 12-14).
- A non-2xx token reply is always 502, never the upstream status (line 38); the upstream status and text are in the body. A rejected token fetch, a token reply that is not JSON and a `null` token reply reach the catch-all 500 instead (lines 27, 40, 41 and 73-76).
- A freshly fetched token is used for the current request even when its computed expiry is already past, which happens when `expires_in` is 60 or less (lines 47 and 53).
- The URL is the host and `path` concatenated as text (line 51). A path that does not start with `/` can change the host, and the bearer token goes with it: `.evil.example/x` gives `https://api.prokerala.com.evil.example/x`. (A path starting with `@` instead puts userinfo in the URL, which `fetch` refuses with a TypeError; the model folds that refusal into `NetworkFailure`.)
- `String` and `Number` throw a TypeError on a JSON object with its own `toString` key, and on an array holding one. The handler converts three values: `expires_in` (line 44, before the store), `path` (line 51) and the token (line 53). Each of these cases reaches the catch-all 500. A token like that, once cached, makes every invocation fail this way until it expires.
- The method is upper-cased only after the token step (line 56). So a non-string `method` such as `null` still refreshes and stores a token, and then fails with 500 without a resource call.

## Model

| member | source | states |
|---|---|---|
| `JsValues.FirstTruthy` | api/prokerala.js:41 | the chain of JavaScript ORs over object properties: the result is truthy and is the first truthy property in key order, and every earlier key is missing or falsy; `None` means every key is missing or falsy |
| `JsValues.ToUpperCase` | api/prokerala.js:56 | the result has the input's length; each character is upper-cased (ASCII letters) |
| `JsValues.IsUpperGet` | api/prokerala.js:56-61 | `method.toUpperCase() === 'GET'` holds exactly for the eight letter-case spellings of "get" |
| `JsValues.ToJsString` | api/prokerala.js:51-53 | `String(x)` throws exactly when `x` is not `Convertible` (an object with its own `toString` key, or an array holding one) |
| `JsValues.JoinItems` | api/prokerala.js:51-53 | `items.join(",")` throws exactly when some element is not `Convertible` |
| `JsValues.ToNumber` | api/prokerala.js:44 | `Number(x)` throws exactly when `x` is not `Convertible`; otherwise a number converts to itself, an object to NaN, and a decimal digit string to its value |
| `JsValues.StringToNumber` | api/prokerala.js:44 | no contract of its own: `Number` of a string, specified by `NumberOfIntToString` on the integers it reads |
| `JsValues.NumberOfIntToString` | api/prokerala.js:44 | `Number(String(n)) == n` for every integer, so a lifetime sent as a numeric string is read as that number |
| `Prokerala.ReadBody` | api/prokerala.js:15 | a missing or falsy body reads as `{}`; an object or array body is used as it is; a string body is parsed, and the read fails exactly when that parse fails |
| `Prokerala.Inbound` | api/prokerala.js:15-16 | the body is read and destructured; it fails exactly when the read fails or the body read is `null`, and then only with one of those two faults |
| `Prokerala.Destructure` | api/prokerala.js:16 | destructuring fails exactly on `null`; otherwise `path` and `payload` are the body's properties and `method` is the property, or `"POST"` when it is absent |
| `Prokerala.PickToken` | api/prokerala.js:41 | fails exactly when the token reply is `null`; otherwise picks the first truthy of `access_token`, `token`, `accessToken`, or reports that none is truthy |
| `Prokerala.Lifetime` | api/prokerala.js:44 | a missing or falsy `expires_in` gives 3600 seconds; a truthy one is converted by `Number`, which fails exactly when it is not `Convertible`; a non-zero number is used as it is |
| `Prokerala.Usable` | api/prokerala.js:25 | no contract of its own: the negation of the refresh test, specified by `UsableCacheIsKept`, `CacheMissCallsTokenEndpointOnce` and `RefreshWindowOfNextInvocation` |
| `Prokerala.StoredExpiry` | api/prokerala.js:47 | no contract of its own: `atStore + (lifetime - 60) * 1000`, with NaN as 0, specified by `RefreshWindowOfNextInvocation` |
| `Prokerala.TokenRequest` | api/prokerala.js:27-34 | no contract of its own: the POST of the client-credentials form, specified by `CacheMissCallsTokenEndpointOnce` |
| `Prokerala.AcquireToken` | api/prokerala.js:25-48 | a usable cached token is returned with the cache unchanged and no call made; otherwise exactly one token call is made, and either a truthy token is stored, or the invocation ends with 500 or 502 and the cache unchanged (also when `expires_in` throws) |
| `Prokerala.BuildCall` | api/prokerala.js:51-61 | fails exactly when `path` or the token is not `Convertible` or `method` is not a string, with the first of these faults in the order of lines 51, 53 and 56; else the URL is the host followed by `String(path)` and the method is passed through. The headers are exactly `Authorization: Bearer <token>` and `Accept: application/json`, followed by `Content-Type: application/json` when the method is not GET. For GET there is no body; otherwise the body is the payload, or `{}` when the payload is falsy |
| `Prokerala.Relay` | api/prokerala.js:64-71 | the status is the downstream status; the body is the parsed JSON when the text parses, and the text verbatim when it does not |
| `Prokerala.Forward` | api/prokerala.js:50-71 | the cache is untouched, and the calls already made are kept with at most one resource call after them |
| `Prokerala.Serve` | api/prokerala.js:6-77 | one invocation makes at most two calls; the cache either is unchanged or holds a truthy token after a token call made first |
| `Prokerala.TokenCache.constructor` | api/prokerala.js:25 | a cold start holds no token and no expiry |
| `Prokerala.TokenCache.Acquire` | api/prokerala.js:25-48 | the token step run on the object's fields equals `AcquireToken`; the fields change only when a token is stored, and the stored token is truthy |
| `Prokerala.TokenCache.Handle` | api/prokerala.js:6-77 | one invocation run on the object's fields gives the response, the outbound calls and the new cache that `Serve` specifies, and keeps the cached token truthy (`Valid`) |
| `ProkeralaProperties.OptionsIsAnsweredDirectly` | api/prokerala.js:12 | OPTIONS is answered 204 with no body, no call and the cache unchanged |
| `ProkeralaProperties.MissingPathIs400` | api/prokerala.js:18 | a missing or falsy `path` gives 400 with the error message. No call is made and the cache is unchanged, whatever the credentials |
| `ProkeralaProperties.MissingCredentialsIs500` | api/prokerala.js:20-22 | with a path but an absent or empty client id or secret, the answer is 500 with the configuration message; no call is made and the cache is unchanged |
| `ProkeralaProperties.UnreadableBodyIs500` | api/prokerala.js:15-16 | a string body that does not parse, or a body that parses to `null`, reaches the catch-all 500 with no call made |
| `ProkeralaProperties.NoCallBeforeValidation` | api/prokerala.js:18-27 | any outbound call implies the request passed the path and credentials checks |
| `ProkeralaProperties.CacheHitSkipsTokenCall` | api/prokerala.js:25-53 | with a usable cached token there is no token call and the cache is unchanged. When the request can be built, the single resource call carries `Bearer` + the cached token; otherwise the answer is 500 with the first build fault and no call |
| `ProkeralaProperties.CacheMissCallsTokenEndpointOnce` | api/prokerala.js:25-34 | when the cache is not usable, the first call is the POST of the client-credentials form to the token endpoint with `id:secret`, and there is exactly one token call |
| `ProkeralaProperties.RefreshStoresAndUsesToken` | api/prokerala.js:44-53 | after a successful refresh the cache holds the new token and `atStore + (lifetime - 60) * 1000`. The resource call uses the new token even when that expiry is past; a request that cannot be built gives 500 with the new token kept. An `expires_in` that throws gives 500 with nothing stored |
| `ProkeralaProperties.RefreshWindowOfNextInvocation` | api/prokerala.js:25-47 | after a successful refresh, the next admitted invocation makes a token call (and at most one) exactly when its clock reads at least `atStore + (lifetime - 60) * 1000`, or that expiry is 0; with no `expires_in` the bound is `atStore + 3540000`, and a NaN lifetime always refreshes; an `expires_in` that throws leaves the cache as it was |
| `ProkeralaProperties.ResponseIndependentOfSecret` | api/prokerala.js:20-47 | changing the client secret to any other non-empty value changes neither the response nor the cache: the secret reaches only the token call |
| `ProkeralaProperties.TokenRejectedIs502` | api/prokerala.js:36-39 | a non-2xx token reply gives 502 with the upstream status and raw text; only the token call is made and the cache is unchanged |
| `ProkeralaProperties.NoTokenFieldIs502` | api/prokerala.js:41-42 | a token reply with no truthy token field gives 502 echoing the reply; only the token call is made and the cache is unchanged |
| `ProkeralaProperties.CacheChangesOnlyOnRefresh` | api/prokerala.js:45-47 | the cache changes only when a validated request found it not usable and made a token call; the new cache then holds a truthy token |
| `ProkeralaProperties.CallOrder` | api/prokerala.js:25-62 | an invocation makes at most two calls; a token call can only come first and a resource call only last |
| `ProkeralaProperties.ResourceCallShape` | api/prokerala.js:51-61 | the resource call goes to the host followed by the path. Such a call implies that the path converted. Its headers are exactly `Authorization`, then `Accept: application/json`, then `Content-Type: application/json` for a method other than GET. It has a body exactly when the method is not GET, and that body is the payload or `{}` |
| `ProkeralaProperties.PathWithOwnToStringIs500` | api/prokerala.js:51 | the request `{"path":{"toString":1},"method":"POST"}` on a cache hit ends in the catch-all 500 with no call and the cache unchanged |
| `ProkeralaProperties.ExpiredTokenIsNeverUsed` | api/prokerala.js:25-53 | an invocation that calls the resource endpoint without a token call found the cached token usable, so a cached token is never sent once the clock has reached its expiry |
| `ProkeralaProperties.DownstreamIsRelayed` | api/prokerala.js:64-71 | whenever the resource endpoint was called and answered, the response has its status and its body, parsed or verbatim |
| `ProkeralaProperties.NatalChartByGet` | api/prokerala.js:51-68 | the natal-chart example by GET, with a usable cache: one call to `https://api.prokerala.com/v2/astrology/natal` with no query string and no body, and the 200 JSON relayed |
| `ProkeralaProperties.UsableCacheIsKept` | api/prokerala.js:25 | an invocation at a time when the cached token is usable makes no token call and leaves the cache as it is |
| `ProkeralaProperties.NoRefreshWithinWindow` | api/prokerala.js:24-25 | a sequence of invocations, all inside the cached token's validity window, makes no token call and leaves the cache unchanged |
| `ProkeralaProperties.AtMostOneRefreshPerWindow` | api/prokerala.js:24-48 | when every invocation after the first falls inside the window of the cache the first one leaves, the whole sequence makes at most one token call |

## Left out

- `api/get-token.js`: a passthrough of the token endpoint's status and JSON. Its only decision is the credentials check, which is modelled in the handler.
- The CORS headers (lines 8-10) and the `console.error` logging (line 74): they are constant plumbing with no effect on the handler's course.
- The text of the catch-all `detail` (line 75): it is the JavaScript engine's exception message. `ProxyError` records which exception it was instead.
- `fetch` and the network: each reply is an input, and a rejected `fetch` is `NetworkFailure`. This includes `fetch`'s own refusal of a body on a HEAD request, which the code sends because it only exempts GET. A failure while reading the reply text is folded into `NetworkFailure`.
- The base64 encoding of the Basic Authorization header (line 31): a `TokenCall` records the `id:secret` string it is built from, next to its URL `TokenUrl`, its method, its `Content-Type` `FormContentType` and its form body `GrantBody` (lines 27-33).
- `JSON.stringify` (line 61): a `ResourceCall` records the JSON value that would be serialised. The serialised text, and the serialisation done by `res.json`, are not modelled. `JSON.parse` is a parameter that is assumed to be a function of its input.
- Floating-point numbers: JSON numbers are integers. `JsValues.ToNumber`, and so `Prokerala.Lifetime`, parse only integer forms: an empty string, or decimal digits with an optional sign. Whitespace, fractions, exponents, hexadecimal and `Infinity` are treated as NaN, although JavaScript reads some of them as numbers. Large numbers that JavaScript would print in exponent notation are printed in full.
- `JsValues.ToUpperCase`: it maps ASCII letters only. As far as the Unicode case tables go, no other character upper-cases to G, E or T alone, so the GET test should be unaffected.
- Object key order, duplicate keys and inherited properties: objects are maps. The keys the handler reads by name (`path`, `method`, `payload`, the token fields, `expires_in`) are read as own keys, which matches JavaScript because a JSON object inherits none of them. The conversions at lines 44, 51 and 53 also consult the inherited `toString` and `valueOf`; `Convertible` models that.
- Request bodies that are not JSON values or strings, such as buffers.
- Concurrency: parallel or interleaved invocations, which may or may not share `global`, and persistence across cold starts. The model runs one invocation at a time.
