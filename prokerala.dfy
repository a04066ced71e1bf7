/**
  The Prokerala proxy handler: one inbound request is validated, a bearer
  token is taken from a process-wide one-slot cache or fetched anew from the
  token endpoint, the request is forwarded to the resource endpoint, and the
  downstream status and body are relayed back.

  The network and the clock are inputs: the two replies and the two clock
  readings are parameters, and the outbound calls the handler makes are
  returned as a trace. `JSON.parse` is the parameter `parse`.
 */
module Prokerala {
  import opened JsValues

  const BaseUrl := "https://api.prokerala.com"
  /** The token endpoint, and the form it is sent by POST. */
  const TokenUrl := "https://api.prokerala.com/token"
  const FormContentType := "application/x-www-form-urlencoded"
  const GrantBody := "grant_type=client_credentials"

  const DefaultMethod := "POST"
  /** Token lifetime in seconds when the token reply gives none. */
  const DefaultLifetime := 3600
  /** Seconds subtracted from the reported lifetime. */
  const SafetyMargin := 60
  const TokenFields := ["access_token", "token", "accessToken"]

  const MissingPathMessage := "Missing \"path\" in request body. Example: { path: \"/v2/astrology/natal\", method:\"POST\", payload:{...} }"
  const NotConfiguredMessage := "Server not configured. Set PROKERALA_CLIENT_ID and PROKERALA_CLIENT_SECRET in Vercel env vars."
  const TokenFetchFailedMessage := "Failed to fetch token from Prokerala"
  const NoAccessTokenMessage := "Token response did not include access_token"

  // ---------------------------------------------------------------------
  // Data model

  /** The inbound request: its HTTP method and `req.body`, which the platform
      hands over already parsed (or as a string, or not at all). */
  datatype Request = Request(httpMethod: string, body: Option<Json>)

  /** PROKERALA_CLIENT_ID and PROKERALA_CLIENT_SECRET from the environment. */
  datatype Env = Env(clientId: Option<string>, clientSecret: Option<string>)

  /** `Date.now()` in milliseconds when the cache is checked and when a
      refreshed token's expiry is computed (after the token fetch returns). */
  datatype Clock = Clock(atCheck: int, atStore: int)

  /** What a `fetch` produced: a status and the body text, or a rejection. */
  datatype Reply = Reply(status: int, text: string) | NetworkFailure

  /** The exceptions that reach the catch-all handler. */
  datatype Fault =
    | InvalidRequestBody   // JSON.parse of a string request body threw
    | RequestBodyNull      // destructuring a null body threw
    | TokenFetchFailed     // the token fetch rejected
    | TokenReplyNotJson    // tokenResp.json() threw
    | TokenReplyNull       // property access on a null token reply threw
    | ExpiresInNotConvertible // Number(tjson.expires_in) threw
    | PathNotConvertible   // the host + path concatenation threw
    | TokenNotConvertible  // the 'Bearer ' + token concatenation threw
    | MethodNotString      // method.toUpperCase is not a function
    | ResourceFetchFailed  // the resource fetch rejected

  datatype Body =
    | NoContent
    | JsonBody(value: Json)
    | TextBody(text: string)
    /** `{ error: 'Proxy server error', detail: <the exception's message> }` */
    | ProxyError(fault: Fault)

  datatype Response = Response(status: int, body: Body)

  type Header = (string, string)

  /** An outbound call. A `TokenCall` carries its URL, method, `Content-Type`,
      the `id:secret` string whose base64 form goes into its Basic
      Authorization header, and its form body. A `ResourceCall` carries the
      JSON value it serialises as its body, if it has one. */
  datatype Call =
    | TokenCall(url: string, verb: string, contentType: string, credentials: string, form: string)
    | ResourceCall(url: string, verb: string, headers: seq<Header>, body: Option<Json>)

  /** The process-wide token cache: `global._prokerala_token` (`None` is
      undefined) and `global._prokerala_token_expires` in milliseconds, where 0
      stands for every falsy value it can hold (undefined, 0 and NaN). */
  datatype Cache = Cache(token: Option<Json>, expires: int)

  /** `path`, `method` (defaulted) and `payload` from the request body. */
  datatype Params = Params(path: Option<Json>, verb: Json, payload: Option<Json>)

  /** Everything one invocation sees from outside. */
  datatype Exchange = Exchange(request: Request, env: Env, clock: Clock, tokenReply: Reply, resourceReply: Reply)

  datatype Outcome = Outcome(response: Response, trace: seq<Call>, cache: Cache)

  // ---------------------------------------------------------------------
  // Validation

  /** `req.body` when it is a non-null object, else `JSON.parse(req.body || '{}')`. */
  function ReadBody(body: Option<Json>, parse: string -> Option<Json>): (r: Result<Json, Fault>)
    ensures !Defined(body) ==> r == Success(JObj(map[]))
    ensures Defined(body) && (body.value.JObj? || body.value.JArr?) ==> r == Success(body.value)
    ensures r.Failure? <==> Defined(body) && body.value.JStr? && parse(body.value.s).None?
    ensures Defined(body) && body.value.JStr? && parse(body.value.s).Some? ==> r == Success(parse(body.value.s).value)
  {
    if !Defined(body) then Success(JObj(map[]))
    else
      var v := body.value;
      match v
      case JStr(s) =>
        (match parse(s)
         case Some(v) => Success(v)
         case None => Failure(InvalidRequestBody))
      // objects and arrays are used as they are; `true` and non-zero numbers
      // parse back from their string form to themselves
      case _ => Success(v)
  }

  /** `const { path, method = 'POST', payload } = body`. */
  function Destructure(body: Json): (r: Result<Params, Fault>)
    ensures r.Failure? <==> body.JNull?
    ensures r.Success? ==>
      r.value.path == Property(body, "path") && r.value.payload == Property(body, "payload") &&
      r.value.verb == (if Property(body, "method").Some? then Property(body, "method").value else JStr(DefaultMethod))
  {
    if body.JNull? then Failure(RequestBodyNull)
    else
      var verb := Property(body, "method");
      Success(Params(Property(body, "path"), if verb.Some? then verb.value else JStr(DefaultMethod), Property(body, "payload")))
  }

  /** Reading and destructuring the request body (api/prokerala.js, lines 15-16). */
  function Inbound(body: Option<Json>, parse: string -> Option<Json>): (r: Result<Params, Fault>)
    ensures r.Failure? <==> ReadBody(body, parse).Failure? || ReadBody(body, parse).value.JNull?
    ensures r.Failure? ==> r.error == InvalidRequestBody || r.error == RequestBodyNull
  {
    match ReadBody(body, parse)
    case Success(v) => Destructure(v)
    case Failure(f) => Failure(f)
  }

  predicate Configured(env: Env) {
    env.clientId.Some? && env.clientId.value != "" &&
    env.clientSecret.Some? && env.clientSecret.value != ""
  }

  function Credentials(env: Env): string
    requires Configured(env)
  {
    env.clientId.value + ":" + env.clientSecret.value
  }

  /** The client-credentials grant request to the token endpoint. */
  function TokenRequest(env: Env): Call
    requires Configured(env)
  {
    TokenCall(TokenUrl, "POST", FormContentType, Credentials(env), GrantBody)
  }

  // ---------------------------------------------------------------------
  // Token manager

  /** The cached token may be used at `now`: the negation of the refresh test. */
  predicate Usable(c: Cache, now: int) {
    Defined(c.token) && c.expires != 0 && now < c.expires
  }

  predicate IsOk(status: int) {
    200 <= status <= 299
  }

  /** `tjson.access_token || tjson.token || tjson.accessToken`, as far as it
      decides the handler's course: the first truthy field, `None` when the
      expression is falsy, and a fault when `tjson` is `null`. */
  function PickToken(tjson: Json): (r: Result<Option<Json>, Fault>)
    ensures r.Failure? <==> tjson.JNull?
    ensures r.Success? && r.value.Some? ==>
      Truthy(r.value.value) &&
      exists i :: 0 <= i < |TokenFields| && Property(tjson, TokenFields[i]) == r.value &&
        forall k :: 0 <= k < i ==> !Defined(Property(tjson, TokenFields[k]))
    ensures r.Success? && r.value.None? ==>
      forall i :: 0 <= i < |TokenFields| ==> !Defined(Property(tjson, TokenFields[i]))
  {
    if tjson.JNull? then Failure(TokenReplyNull) else Success(FirstTruthy(tjson, TokenFields))
  }

  /** `Number(tjson.expires_in || 3600)` in seconds; a successful `None` is
      NaN, and a failure is the TypeError the conversion throws. */
  function Lifetime(tjson: Json): (r: Result<Option<int>, Fault>)
    ensures !Defined(Property(tjson, "expires_in")) ==> r == Success(Some(DefaultLifetime))
    ensures r.Failure? <==> Defined(Property(tjson, "expires_in")) && !Convertible(Property(tjson, "expires_in").value)
    ensures r.Failure? ==> r.error == ExpiresInNotConvertible
    ensures Defined(Property(tjson, "expires_in")) && r.Success? ==>
      Success(r.value) == ToNumber(Property(tjson, "expires_in").value)
    ensures forall n :: n != 0 && Property(tjson, "expires_in") == Some(JNum(n)) ==> r == Success(Some(n))
  {
    var e := Property(tjson, "expires_in");
    if !Defined(e) then Success(Some(DefaultLifetime))
    else match ToNumber(e.value)
      case Success(n) => Success(n)
      case Failure(_) => Failure(ExpiresInNotConvertible)
  }

  /** `Date.now() + (expires_in - 60) * 1000`, with NaN stored as 0. */
  function StoredExpiry(now: int, lifetime: Option<int>): int {
    match lifetime
    case Some(l) => now + (l - SafetyMargin) * 1000
    case None => 0
  }

  // ---------------------------------------------------------------------
  // Request forwarder

  predicate IsGet(verb: string) {
    ToUpperCase(verb) == "GET"
  }

  function PayloadOrEmpty(payload: Option<Json>): Json {
    if Defined(payload) then payload.value else JObj(map[])
  }

  /** The exception that stops building the resource request, in the order
      of lines 51, 53 and 56. */
  function BuildFault(path: Json, token: Json): Fault {
    if !Convertible(path) then PathNotConvertible
    else if !Convertible(token) then TokenNotConvertible
    else MethodNotString
  }

  /** The downstream call for `token`: the URL (line 51), the headers (lines
      52-53) and the method test (line 56), each of which can throw, in that
      order. */
  function BuildCall(path: Json, verb: Json, payload: Option<Json>, token: Json): (r: Result<Call, Fault>)
    ensures r.Failure? <==> !Convertible(path) || !Convertible(token) || !verb.JStr?
    ensures r.Failure? ==> r.error == BuildFault(path, token)
    ensures r.Success? ==>
      var call := r.value;
      call.ResourceCall? &&
      call.url == BaseUrl + ToJsString(path).value &&
      call.verb == verb.s &&
      call.headers == [("Authorization", "Bearer " + ToJsString(token).value), ("Accept", "application/json")] +
                      (if IsGet(verb.s) then [] else [("Content-Type", "application/json")]) &&
      (IsGet(verb.s) ==> call.body.None?) &&
      (!IsGet(verb.s) ==> call.body == Some(PayloadOrEmpty(payload)))
  {
    match ToJsString(path)
    case Failure(_) => Failure(PathNotConvertible)
    case Success(p) =>
    match ToJsString(token)
    case Failure(_) => Failure(TokenNotConvertible)
    case Success(t) =>
    var url := BaseUrl + p;
    var headers := [("Authorization", "Bearer " + t), ("Accept", "application/json")];
    if !verb.JStr? then Failure(MethodNotString)
    else if IsGet(verb.s) then Success(ResourceCall(url, verb.s, headers, None))
    else Success(ResourceCall(url, verb.s, headers + [("Content-Type", "application/json")], Some(PayloadOrEmpty(payload))))
  }

  /** The downstream status with the parsed body, or the raw text when it does
      not parse. */
  function Relay(status: int, text: string, parse: string -> Option<Json>): (r: Response)
    ensures r.status == status
    ensures parse(text).Some? ==> r.body == JsonBody(parse(text).value)
    ensures parse(text).None? ==> r.body == TextBody(text)
  {
    match parse(text)
    case Some(j) => Response(status, JsonBody(j))
    case None => Response(status, TextBody(text))
  }

  // ---------------------------------------------------------------------
  // One invocation

  function ErrorJson(message: string): Json {
    JObj(map["error" := JStr(message)])
  }

  function Crash(f: Fault, trace: seq<Call>, cache: Cache): Outcome {
    Outcome(Response(500, ProxyError(f)), trace, cache)
  }

  /** Forward with `token` (already in `cache`) after the calls in `prior`. */
  function Forward(token: Json, p: Params, prior: seq<Call>, reply: Reply, parse: string -> Option<Json>, cache: Cache): (r: Outcome)
    requires Defined(p.path)
    ensures r.cache == cache
    ensures r.trace == prior || (|r.trace| == |prior| + 1 && r.trace[..|prior|] == prior && r.trace[|prior|].ResourceCall?)
  {
    match BuildCall(p.path.value, p.verb, p.payload, token)
    case Failure(f) => Crash(f, prior, cache)
    case Success(call) =>
      var trace := prior + [call];
      match reply
      case NetworkFailure => Crash(ResourceFetchFailed, trace, cache)
      case Reply(status, text) => Outcome(Relay(status, text, parse), trace, cache)
  }

  /** Where the token step leaves an invocation: holding a token (with the
      cache as it now stands and the calls made so far), or finished. */
  datatype TokenStep =
    | Acquired(token: Json, cache: Cache, prior: seq<Call>)
    | Stopped(outcome: Outcome)

  /** The token step: the cached token when it is usable, else a fetch from
      the token endpoint whose token is stored with its expiry. */
  function AcquireToken(c: Cache, env: Env, clock: Clock, reply: Reply, parse: string -> Option<Json>): (r: TokenStep)
    requires Configured(env)
    ensures Usable(c, clock.atCheck) ==> r == Acquired(c.token.value, c, [])
    ensures !Usable(c, clock.atCheck) ==>
      match r
      case Acquired(token, cache, prior) =>
        prior == [TokenRequest(env)] && Truthy(token) && cache.token == Some(token)
      case Stopped(o) =>
        o.trace == [TokenRequest(env)] && o.cache == c && o.response.status in {500, 502}
  {
    if Usable(c, clock.atCheck) then Acquired(c.token.value, c, [])
    else
      var prior := [TokenRequest(env)];
      match reply
      case NetworkFailure => Stopped(Crash(TokenFetchFailed, prior, c))
      case Reply(status, text) =>
        if !IsOk(status) then
          Stopped(Outcome(Response(502, JsonBody(JObj(map["error" := JStr(TokenFetchFailedMessage),
                                                         "status" := JNum(status),
                                                         "body" := JStr(text)]))), prior, c))
        else match parse(text)
          case None => Stopped(Crash(TokenReplyNotJson, prior, c))
          case Some(tjson) =>
            match PickToken(tjson)
            case Failure(f) => Stopped(Crash(f, prior, c))
            case Success(None) =>
              Stopped(Outcome(Response(502, JsonBody(JObj(map["error" := JStr(NoAccessTokenMessage), "body" := tjson]))), prior, c))
            case Success(Some(token)) =>
              match Lifetime(tjson)
              case Failure(f) => Stopped(Crash(f, prior, c))
              case Success(lifetime) =>
                Acquired(token, Cache(Some(token), StoredExpiry(clock.atStore, lifetime)), prior)
  }

  /** The whole handler, from cache `c`. */
  function Serve(c: Cache, x: Exchange, parse: string -> Option<Json>): (r: Outcome)
    ensures |r.trace| <= 2
    ensures r.cache == c || (Defined(r.cache.token) && r.trace != [] && r.trace[0].TokenCall?)
  {
    if x.request.httpMethod == "OPTIONS" then Outcome(Response(204, NoContent), [], c)
    else match Inbound(x.request.body, parse)
      case Failure(f) => Crash(f, [], c)
      case Success(p) =>
        if !Defined(p.path) then Outcome(Response(400, JsonBody(ErrorJson(MissingPathMessage))), [], c)
        else if !Configured(x.env) then Outcome(Response(500, JsonBody(ErrorJson(NotConfiguredMessage))), [], c)
        else match AcquireToken(c, x.env, x.clock, x.tokenReply, parse)
          case Stopped(o) => o
          case Acquired(token, cache, prior) => Forward(token, p, prior, x.resourceReply, parse, cache)
  }

  // ---------------------------------------------------------------------
  // The cache as the handler holds it

  class TokenCache {
    var token: Option<Json>
    var expires: int

    /** The cache never holds a falsy token. */
    ghost predicate Valid()
      reads this
    {
      token.Some? ==> Truthy(token.value)
    }

    function State(): Cache
      reads this
    {
      Cache(token, expires)
    }

    /** A cold start: nothing cached. */
    constructor ()
      ensures Valid() && State() == Cache(None, 0)
    {
      token := None;
      expires := 0;
    }

    /** The token step of one invocation, storing a newly fetched token. */
    method Acquire(env: Env, clock: Clock, tokenReply: Reply, parse: string -> Option<Json>)
      returns (step: TokenStep)
      requires Valid() && Configured(env)
      modifies this
      ensures Valid()
      ensures step == AcquireToken(old(State()), env, clock, tokenReply, parse)
      ensures State() == if step.Acquired? then step.cache else old(State())
    {
      if Defined(token) && expires != 0 && clock.atCheck < expires {
        return Acquired(token.value, State(), []);
      }
      var prior := [TokenRequest(env)];
      if tokenReply.NetworkFailure? {
        return Stopped(Crash(TokenFetchFailed, prior, State()));
      }
      if !IsOk(tokenReply.status) {
        return Stopped(Outcome(Response(502, JsonBody(JObj(map["error" := JStr(TokenFetchFailedMessage),
                                                                "status" := JNum(tokenReply.status),
                                                                "body" := JStr(tokenReply.text)]))),
                               prior, State()));
      }
      var tjson := parse(tokenReply.text);
      if tjson.None? {
        return Stopped(Crash(TokenReplyNotJson, prior, State()));
      }
      var picked := PickToken(tjson.value);
      if picked.Failure? {
        return Stopped(Crash(picked.error, prior, State()));
      }
      if picked.value.None? {
        return Stopped(Outcome(Response(502, JsonBody(JObj(map["error" := JStr(NoAccessTokenMessage), "body" := tjson.value]))),
                               prior, State()));
      }
      var lifetime := Lifetime(tjson.value);
      if lifetime.Failure? {
        return Stopped(Crash(lifetime.error, prior, State()));
      }
      token := picked.value;
      expires := StoredExpiry(clock.atStore, lifetime.value);
      step := Acquired(token.value, State(), prior);
    }

    /** One invocation of the handler. */
    method Handle(request: Request, env: Env, clock: Clock, tokenReply: Reply, resourceReply: Reply,
                  parse: string -> Option<Json>)
      returns (response: Response, trace: seq<Call>)
      requires Valid()
      modifies this
      ensures Valid()
      ensures Outcome(response, trace, State()) ==
              Serve(old(State()), Exchange(request, env, clock, tokenReply, resourceReply), parse)
    {
      trace := [];
      if request.httpMethod == "OPTIONS" {
        response := Response(204, NoContent);
        return;
      }
      var inbound := Inbound(request.body, parse);
      if inbound.Failure? {
        response := Response(500, ProxyError(inbound.error));
        return;
      }
      var p := inbound.value;
      if !Defined(p.path) {
        response := Response(400, JsonBody(ErrorJson(MissingPathMessage)));
        return;
      }
      if !Configured(env) {
        response := Response(500, JsonBody(ErrorJson(NotConfiguredMessage)));
        return;
      }

      var step := Acquire(env, clock, tokenReply, parse);
      if step.Stopped? {
        response, trace := step.outcome.response, step.outcome.trace;
        return;
      }
      trace := step.prior;

      var path := ToJsString(p.path.value);
      if path.Failure? {
        response := Response(500, ProxyError(PathNotConvertible));
        return;
      }
      var url := BaseUrl + path.value;
      var bearer := ToJsString(step.token);
      if bearer.Failure? {
        response := Response(500, ProxyError(TokenNotConvertible));
        return;
      }
      var headers := [("Authorization", "Bearer " + bearer.value), ("Accept", "application/json")];
      if !p.verb.JStr? {
        response := Response(500, ProxyError(MethodNotString));
        return;
      }
      var verb := p.verb.s;
      if !IsGet(verb) {
        headers := headers + [("Content-Type", "application/json")];
      }
      var body := if IsGet(verb) then None else Some(PayloadOrEmpty(p.payload));
      trace := trace + [ResourceCall(url, verb, headers, body)];
      if resourceReply.NetworkFailure? {
        response := Response(500, ProxyError(ResourceFetchFailed));
        return;
      }
      var text := resourceReply.text;
      var json := parse(text);
      if json.Some? {
        response := Response(resourceReply.status, JsonBody(json.value));
      } else {
        response := Response(resourceReply.status, TextBody(text));
      }
    }
  }
}
