/**
  What the handler guarantees, stated over `Serve` (one invocation) and over
  `Replay` (a sequence of invocations sharing the token cache one after the
  other).
 */
module ProkeralaProperties {
  import opened JsValues
  import opened Prokerala

  /** The request got past body parsing with parameters `p`. */
  predicate Parsed(x: Exchange, parse: string -> Option<Json>, p: Params) {
    x.request.httpMethod != "OPTIONS" && Inbound(x.request.body, parse) == Success(p)
  }

  /** The request got past every check before the token step. */
  predicate Admitted(x: Exchange, parse: string -> Option<Json>, p: Params) {
    Parsed(x, parse, p) && Defined(p.path) && Configured(x.env)
  }

  /** The resource request can be built with `token`: the path and the token
      convert to strings, and the method is a string. */
  predicate Forwardable(p: Params, token: Json) {
    p.path.Some? && Convertible(p.path.value) && Convertible(token) && p.verb.JStr?
  }

  function TokenCalls(trace: seq<Call>): nat {
    if trace == [] then 0
    else (if trace[0].TokenCall? then 1 else 0) + TokenCalls(trace[1..])
  }

  function ResourceCalls(trace: seq<Call>): nat {
    if trace == [] then 0
    else (if trace[0].ResourceCall? then 1 else 0) + ResourceCalls(trace[1..])
  }

  lemma {:induction false} TokenCallsAppend(a: seq<Call>, b: seq<Call>)
    ensures TokenCalls(a + b) == TokenCalls(a) + TokenCalls(b)
    decreases |a|
  {
    if a != [] {
      assert (a + b)[0] == a[0];
      assert (a + b)[1..] == a[1..] + b;
      TokenCallsAppend(a[1..], b);
    } else {
      assert a + b == b;
    }
  }

  /** The counts of a trace of one invocation, which is at most two calls long. */
  lemma ShortTraceCounts(t: seq<Call>)
    requires |t| <= 2
    ensures TokenCalls(t) == (if |t| > 0 && t[0].TokenCall? then 1 else 0) + (if |t| > 1 && t[1].TokenCall? then 1 else 0)
    ensures ResourceCalls(t) == (if |t| > 0 && t[0].ResourceCall? then 1 else 0) + (if |t| > 1 && t[1].ResourceCall? then 1 else 0)
  {
    if |t| > 0 {
      assert |t[1..]| <= 1;
      if |t| > 1 {
        assert t[1..][0] == t[1];
        assert t[1..][1..] == [];
      } else {
        assert t[1..] == [];
      }
    }
  }

  // ---------------------------------------------------------------------
  // Validation

  /** A preflight request is answered 204 with nothing called and nothing cached. */
  lemma OptionsIsAnsweredDirectly(c: Cache, x: Exchange, parse: string -> Option<Json>)
    requires x.request.httpMethod == "OPTIONS"
    ensures Serve(c, x, parse) == Outcome(Response(204, NoContent), [], c)
  {
  }

  /** A missing or falsy `path` is a 400 before anything else happens, so a
      request that also lacks credentials still gets 400. */
  lemma MissingPathIs400(c: Cache, x: Exchange, parse: string -> Option<Json>, p: Params)
    requires Parsed(x, parse, p) && !Defined(p.path)
    ensures var o := Serve(c, x, parse);
      o.response == Response(400, JsonBody(JObj(map["error" := JStr(MissingPathMessage)]))) &&
      o.trace == [] && o.cache == c
  {
  }

  /** Without both credentials the answer is 500, with no call made. */
  lemma MissingCredentialsIs500(c: Cache, x: Exchange, parse: string -> Option<Json>, p: Params)
    requires Parsed(x, parse, p) && Defined(p.path) && !Configured(x.env)
    ensures var o := Serve(c, x, parse);
      o.response == Response(500, JsonBody(JObj(map["error" := JStr(NotConfiguredMessage)]))) &&
      o.trace == [] && o.cache == c
  {
  }

  /** A request body that does not parse, or parses to `null`, reaches the
      catch-all 500 before any call. */
  lemma UnreadableBodyIs500(c: Cache, x: Exchange, parse: string -> Option<Json>, f: Fault)
    requires x.request.httpMethod != "OPTIONS" && Inbound(x.request.body, parse) == Failure(f)
    ensures f == InvalidRequestBody || f == RequestBodyNull
    ensures Serve(c, x, parse) == Outcome(Response(500, ProxyError(f)), [], c)
  {
  }

  /** Nothing is called before the request has been validated. */
  lemma NoCallBeforeValidation(c: Cache, x: Exchange, parse: string -> Option<Json>)
    ensures Serve(c, x, parse).trace != [] ==>
      exists p :: Admitted(x, parse, p)
  {
    if Serve(c, x, parse).trace != [] {
      var p := Inbound(x.request.body, parse).value;
      assert Admitted(x, parse, p);
    }
  }

  // ---------------------------------------------------------------------
  // Token manager

  /** Cache hit: no token call, the cache stays as it is, and the one
      resource call is authorised with the cached token; when the request
      cannot be built the answer is the catch-all 500 with no call. */
  lemma CacheHitSkipsTokenCall(c: Cache, x: Exchange, parse: string -> Option<Json>, p: Params)
    requires Admitted(x, parse, p) && Usable(c, x.clock.atCheck)
    ensures var o := Serve(c, x, parse);
      o.cache == c && TokenCalls(o.trace) == 0 &&
      (Forwardable(p, c.token.value) ==>
         |o.trace| == 1 && o.trace[0].ResourceCall? &&
         o.trace[0].headers[0] == ("Authorization", "Bearer " + ToJsString(c.token.value).value)) &&
      (!Forwardable(p, c.token.value) ==>
         o.response == Response(500, ProxyError(BuildFault(p.path.value, c.token.value))) && o.trace == [])
  {
  }

  /** Cache miss: exactly one token call, and it comes first. */
  lemma CacheMissCallsTokenEndpointOnce(c: Cache, x: Exchange, parse: string -> Option<Json>, p: Params)
    requires Admitted(x, parse, p) && !Usable(c, x.clock.atCheck)
    ensures var o := Serve(c, x, parse);
      o.trace != [] && o.trace[0] == TokenCall(TokenUrl, "POST", FormContentType, Credentials(x.env), GrantBody) && TokenCalls(o.trace) == 1
  {
    var o := Serve(c, x, parse);
    CallOrder(c, x, parse);
    ShortTraceCounts(o.trace);
  }

  /** A successful refresh stores the new token with its margin-adjusted
      expiry and forwards with it, even when that expiry is already past. An
      `expires_in` that cannot be converted throws before the store. */
  lemma RefreshStoresAndUsesToken(c: Cache, x: Exchange, parse: string -> Option<Json>, p: Params, tjson: Json, t: Json)
    requires Admitted(x, parse, p) && !Usable(c, x.clock.atCheck)
    requires x.tokenReply.Reply? && IsOk(x.tokenReply.status) && parse(x.tokenReply.text) == Some(tjson)
    requires PickToken(tjson) == Success(Some(t))
    ensures var o := Serve(c, x, parse);
      (Lifetime(tjson).Failure? ==>
         o == Outcome(Response(500, ProxyError(ExpiresInNotConvertible)), [TokenRequest(x.env)], c)) &&
      (Lifetime(tjson).Success? ==>
         o.cache == Cache(Some(t), StoredExpiry(x.clock.atStore, Lifetime(tjson).value)) &&
         (Forwardable(p, t) ==>
            |o.trace| == 2 && o.trace[1].ResourceCall? &&
            o.trace[1].headers[0] == ("Authorization", "Bearer " + ToJsString(t).value)) &&
         (!Forwardable(p, t) ==>
            o.response == Response(500, ProxyError(BuildFault(p.path.value, t))) && o.trace == [TokenRequest(x.env)]))
  {
  }

  /** After a refresh, the next admitted invocation calls the token endpoint
      exactly when its clock has reached the reported lifetime less the
      60-second margin after the store, or the stored expiry is the falsy 0;
      with no `expires_in` that is 3540 seconds after the store, and with a
      NaN lifetime it always refreshes. An `expires_in` that throws leaves
      the cache as it was. */
  lemma RefreshWindowOfNextInvocation(c: Cache, x: Exchange, y: Exchange, parse: string -> Option<Json>,
                                      p: Params, q: Params, tjson: Json, t: Json)
    requires Admitted(x, parse, p) && !Usable(c, x.clock.atCheck)
    requires x.tokenReply.Reply? && IsOk(x.tokenReply.status) && parse(x.tokenReply.text) == Some(tjson)
    requires PickToken(tjson) == Success(Some(t))
    requires Admitted(y, parse, q)
    ensures var next := Serve(Serve(c, x, parse).cache, y, parse);
      TokenCalls(next.trace) <= 1 &&
      (Lifetime(tjson).Failure? ==> Serve(c, x, parse).cache == c) &&
      (Lifetime(tjson) == Success(None) ==> TokenCalls(next.trace) == 1) &&
      (Lifetime(tjson).Success? && Lifetime(tjson).value.Some? ==>
         var expiry := x.clock.atStore + (Lifetime(tjson).value.value - SafetyMargin) * 1000;
         (TokenCalls(next.trace) == 1 <==> expiry == 0 || y.clock.atCheck >= expiry)) &&
      (!Defined(Property(tjson, "expires_in")) ==>
         (TokenCalls(next.trace) == 1 <==>
            x.clock.atStore + 3540000 == 0 || y.clock.atCheck >= x.clock.atStore + 3540000))
  {
    var c1 := Serve(c, x, parse).cache;
    RefreshStoresAndUsesToken(c, x, parse, p, tjson, t);
    assert Truthy(t);
    if Usable(c1, y.clock.atCheck) {
      UsableCacheIsKept(c1, y, parse);
    } else {
      CacheMissCallsTokenEndpointOnce(c1, y, parse, q);
    }
  }

  /** No response and no cache content depends on the client secret: the
      secret goes only into the token call. */
  lemma ResponseIndependentOfSecret(c: Cache, x: Exchange, s2: string, parse: string -> Option<Json>)
    requires x.env.clientSecret.Some? && x.env.clientSecret.value != "" && s2 != ""
    ensures var x2 := x.(env := x.env.(clientSecret := Some(s2)));
      Serve(c, x, parse).response == Serve(c, x2, parse).response &&
      Serve(c, x, parse).cache == Serve(c, x2, parse).cache
  {
  }

  /** A non-ok token reply is a 502 carrying the upstream status and text;
      nothing is forwarded and nothing is cached. */
  lemma TokenRejectedIs502(c: Cache, x: Exchange, parse: string -> Option<Json>, p: Params)
    requires Admitted(x, parse, p) && !Usable(c, x.clock.atCheck)
    requires x.tokenReply.Reply? && !IsOk(x.tokenReply.status)
    ensures var o := Serve(c, x, parse);
      o.response == Response(502, JsonBody(JObj(map["error" := JStr(TokenFetchFailedMessage),
                                                  "status" := JNum(x.tokenReply.status),
                                                  "body" := JStr(x.tokenReply.text)]))) &&
      o.trace == [TokenRequest(x.env)] && o.cache == c
  {
  }

  /** A token reply with none of the token fields truthy is a 502 echoing the
      reply; nothing is forwarded and nothing is cached. */
  lemma NoTokenFieldIs502(c: Cache, x: Exchange, parse: string -> Option<Json>, p: Params, tjson: Json)
    requires Admitted(x, parse, p) && !Usable(c, x.clock.atCheck)
    requires x.tokenReply.Reply? && IsOk(x.tokenReply.status) && parse(x.tokenReply.text) == Some(tjson)
    requires !tjson.JNull?
    requires forall i :: 0 <= i < |TokenFields| ==> !Defined(Property(tjson, TokenFields[i]))
    ensures var o := Serve(c, x, parse);
      o.response == Response(502, JsonBody(JObj(map["error" := JStr(NoAccessTokenMessage), "body" := tjson]))) &&
      o.trace == [TokenRequest(x.env)] && o.cache == c
  {
  }

  /** The cache changes only by a successful refresh, and then holds a truthy
      token: the class invariant `Valid` is kept. */
  lemma CacheChangesOnlyOnRefresh(c: Cache, x: Exchange, parse: string -> Option<Json>)
    ensures var o := Serve(c, x, parse);
      o.cache != c ==>
        o.trace != [] && o.trace[0].TokenCall? && Defined(o.cache.token) &&
        exists p :: Admitted(x, parse, p) && !Usable(c, x.clock.atCheck)
  {
    var o := Serve(c, x, parse);
    if o.cache != c {
      var p := Inbound(x.request.body, parse).value;
      assert Admitted(x, parse, p);
    }
  }

  // ---------------------------------------------------------------------
  // Request forwarder

  /** At most one token call and one resource call, in that order. */
  lemma CallOrder(c: Cache, x: Exchange, parse: string -> Option<Json>)
    ensures var o := Serve(c, x, parse);
      |o.trace| <= 2 &&
      (forall i :: 0 <= i < |o.trace| && o.trace[i].TokenCall? ==> i == 0) &&
      (forall i :: 0 <= i < |o.trace| && o.trace[i].ResourceCall? ==> i == |o.trace| - 1)
  {
  }

  /** The resource call goes to the fixed host followed by `path`, always asks
      for JSON, and carries a JSON body exactly when the method is not GET;
      for GET the payload is dropped. */
  lemma ResourceCallShape(c: Cache, x: Exchange, parse: string -> Option<Json>, p: Params)
    requires Admitted(x, parse, p) && p.verb.JStr?
    ensures var o := Serve(c, x, parse);
      forall i :: 0 <= i < |o.trace| && o.trace[i].ResourceCall? ==>
        var call := o.trace[i];
        Convertible(p.path.value) &&
        call.url == BaseUrl + ToJsString(p.path.value).value && call.verb == p.verb.s &&
        |call.headers| >= 2 && call.headers[0].0 == "Authorization" &&
        call.headers[1..] == [("Accept", "application/json")] +
                             (if IsGet(p.verb.s) then [] else [("Content-Type", "application/json")]) &&
        (IsGet(p.verb.s) <==> call.body.None?) &&
        (!IsGet(p.verb.s) ==> call.body == Some(PayloadOrEmpty(p.payload)))
  {
    var o := Serve(c, x, parse);
    var step := AcquireToken(c, x.env, x.clock, x.tokenReply, parse);
    if step.Acquired? {
      assert o == Forward(step.token, p, step.prior, x.resourceReply, parse, step.cache);
      var b := BuildCall(p.path.value, p.verb, p.payload, step.token);
      if b.Success? {
        assert o.trace == step.prior + [b.value];
      }
    }
  }

  /** A `path` object with its own `toString` key makes the URL
      concatenation throw: a cache hit ends in the catch-all 500 without
      calling anything. */
  lemma PathWithOwnToStringIs500(c: Cache, x: Exchange, parse: string -> Option<Json>)
    requires x.request == Request("POST", Some(JObj(map["path" := JObj(map["toString" := JNum(1)]),
                                                          "method" := JStr("POST")])))
    requires Configured(x.env) && Usable(c, x.clock.atCheck)
    ensures Serve(c, x, parse) == Outcome(Response(500, ProxyError(PathNotConvertible)), [], c)
  {
    var p := Params(Some(JObj(map["toString" := JNum(1)])), JStr("POST"), None);
    assert Inbound(x.request.body, parse) == Success(p);
    CacheHitSkipsTokenCall(c, x, parse, p);
  }

  /** A cached token is never used once the clock has reached its expiry:
      an invocation that calls the resource endpoint without calling the
      token endpoint found the cache usable. */
  lemma ExpiredTokenIsNeverUsed(c: Cache, x: Exchange, parse: string -> Option<Json>)
    ensures var o := Serve(c, x, parse);
      ResourceCalls(o.trace) > 0 && TokenCalls(o.trace) == 0 ==> Usable(c, x.clock.atCheck)
  {
    var o := Serve(c, x, parse);
    CallOrder(c, x, parse);
    ShortTraceCounts(o.trace);
    NoCallBeforeValidation(c, x, parse);
    if ResourceCalls(o.trace) > 0 && !Usable(c, x.clock.atCheck) {
      var p :| Admitted(x, parse, p);
      CacheMissCallsTokenEndpointOnce(c, x, parse, p);
    }
  }

  /** Whenever the resource endpoint answered, its status is relayed with its
      body, parsed when it is JSON and verbatim otherwise. */
  lemma DownstreamIsRelayed(c: Cache, x: Exchange, parse: string -> Option<Json>)
    requires x.resourceReply.Reply?
    ensures var o := Serve(c, x, parse);
      ResourceCalls(o.trace) > 0 ==>
        o.response.status == x.resourceReply.status &&
        (parse(x.resourceReply.text).Some? ==> o.response.body == JsonBody(parse(x.resourceReply.text).value)) &&
        (parse(x.resourceReply.text).None? ==> o.response.body == TextBody(x.resourceReply.text))
  {
    var o := Serve(c, x, parse);
    CallOrder(c, x, parse);
    ShortTraceCounts(o.trace);
  }

  /** The payload of the example natal-chart request. */
  function NatalPayload(): Json {
    JObj(map["datetime" := JStr("2024-01-01T00:00:00+00:00"), "latitude" := JStr("12.9"), "longitude" := JStr("77.6")])
  }

  /** The example natal-chart request body, asking for GET downstream. */
  function NatalBody(): Json {
    JObj(map["path" := JStr("/v2/astrology/natal"), "method" := JStr("GET"), "payload" := NatalPayload()])
  }

  function NatalParams(): Params {
    Params(Some(JStr("/v2/astrology/natal")), JStr("GET"), Some(NatalPayload()))
  }

  lemma NatalBodyIsRead(parse: string -> Option<Json>)
    ensures Inbound(Some(NatalBody()), parse) == Success(NatalParams())
  {
  }

  lemma NatalCallIsBuilt(token: string)
    ensures BuildCall(JStr("/v2/astrology/natal"), JStr("GET"), Some(NatalPayload()), JStr(token)) ==
      Success(ResourceCall("https://api.prokerala.com/v2/astrology/natal", "GET",
                           [("Authorization", "Bearer " + token), ("Accept", "application/json")], None))
  {
    var get := "GET";
    assert IsGet(get) by { IsUpperGet(get); }
    assert ToJsString(JStr(token)) == Success(token);
    assert ToJsString(JStr("/v2/astrology/natal")) == Success("/v2/astrology/natal");
    assert BaseUrl + ToJsString(JStr("/v2/astrology/natal")).value == "https://api.prokerala.com/v2/astrology/natal";
  }

  /** The example request of a natal chart by GET, served from a usable
      cache: the URL has no query string and the payload is not sent. */
  lemma NatalChartByGet(token: string, expires: int, now: int, parse: string -> Option<Json>, data: Json, text: string)
    requires token != "" && expires != 0 && now < expires && parse(text) == Some(data)
    ensures
      Serve(Cache(Some(JStr(token)), expires),
            Exchange(Request("POST", Some(NatalBody())), Env(Some("id"), Some("secret")), Clock(now, now),
                     NetworkFailure, Reply(200, text)),
            parse) ==
        Outcome(Response(200, JsonBody(data)),
                [ResourceCall("https://api.prokerala.com/v2/astrology/natal", "GET",
                              [("Authorization", "Bearer " + token), ("Accept", "application/json")], None)],
                Cache(Some(JStr(token)), expires))
  {
    var x := Exchange(Request("POST", Some(NatalBody())), Env(Some("id"), Some("secret")), Clock(now, now),
                      NetworkFailure, Reply(200, text));
    var c := Cache(Some(JStr(token)), expires);
    NatalBodyIsRead(parse);
    NatalCallIsBuilt(token);
    assert x.request.httpMethod != "OPTIONS";
    assert Configured(x.env);
    assert AcquireToken(c, x.env, x.clock, x.tokenReply, parse) == Acquired(JStr(token), c, []);
    assert Serve(c, x, parse) == Forward(JStr(token), NatalParams(), [], x.resourceReply, parse, c);
  }

  // ---------------------------------------------------------------------
  // Several invocations, one after the other

  datatype Session = Session(responses: seq<Response>, trace: seq<Call>, cache: Cache)

  /** The invocations `xs` run in order from cache `c`. */
  function Replay(c: Cache, xs: seq<Exchange>, parse: string -> Option<Json>): (s: Session)
    ensures |s.responses| == |xs|
    decreases |xs|
  {
    if xs == [] then Session([], [], c)
    else
      var o := Serve(c, xs[0], parse);
      var rest := Replay(o.cache, xs[1..], parse);
      Session([o.response] + rest.responses, o.trace + rest.trace, rest.cache)
  }

  /** A usable cached token is not affected by an invocation. */
  lemma UsableCacheIsKept(c: Cache, x: Exchange, parse: string -> Option<Json>)
    requires Usable(c, x.clock.atCheck)
    ensures Serve(c, x, parse).cache == c && TokenCalls(Serve(c, x, parse).trace) == 0
  {
    var o := Serve(c, x, parse);
    CallOrder(c, x, parse);
    ShortTraceCounts(o.trace);
  }

  /** Every invocation inside the validity window of the cached token is
      served without a token call, and the cache is left as it was. */
  lemma {:induction false} NoRefreshWithinWindow(c: Cache, xs: seq<Exchange>, parse: string -> Option<Json>)
    requires forall i :: 0 <= i < |xs| ==> Usable(c, xs[i].clock.atCheck)
    ensures TokenCalls(Replay(c, xs, parse).trace) == 0 && Replay(c, xs, parse).cache == c
    decreases |xs|
  {
    if xs != [] {
      var o := Serve(c, xs[0], parse);
      UsableCacheIsKept(c, xs[0], parse);
      assert forall i :: 0 <= i < |xs[1..]| ==> xs[1..][i] == xs[i + 1];
      NoRefreshWithinWindow(c, xs[1..], parse);
      TokenCallsAppend(o.trace, Replay(o.cache, xs[1..], parse).trace);
    }
  }

  /** When every invocation after the first falls inside the validity window
      of the cache the first one leaves behind, the whole sequence makes at
      most one token call. */
  lemma AtMostOneRefreshPerWindow(c: Cache, xs: seq<Exchange>, parse: string -> Option<Json>)
    requires |xs| > 0
    requires forall i :: 1 <= i < |xs| ==> Usable(Serve(c, xs[0], parse).cache, xs[i].clock.atCheck)
    ensures TokenCalls(Replay(c, xs, parse).trace) <= 1
  {
    var o := Serve(c, xs[0], parse);
    assert forall i :: 0 <= i < |xs[1..]| ==> xs[1..][i] == xs[i + 1];
    NoRefreshWithinWindow(o.cache, xs[1..], parse);
    TokenCallsAppend(o.trace, Replay(o.cache, xs[1..], parse).trace);
    CallOrder(c, xs[0], parse);
    ShortTraceCounts(o.trace);
  }
}
