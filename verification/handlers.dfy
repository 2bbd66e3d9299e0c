/** The three request handlers of each deployment, as pure functions from
    the cache, the clock, the request and the provider's reply to the new
    cache, the response, and `fetched`: whether the key missed and
    `skyscannerFetch` was invoked. (Whether that call then reached the
    network is `Upstream.Sends`: the serverless client without a usable
    credential throws before sending.)

    Every handler runs: validate, look the key up, and on a miss fetch,
    normalize and store. `now` is the clock when the cache is read;
    `storedAt` is the clock after the awaited provider call, when the
    result is written. */
module Handlers {
  import opened Wrappers
  import opened Common
  import opened Text
  import opened TtlCache
  import Upstream
  import Autosuggest
  import Nearest
  import Indicative

  /** What the shared cache holds: a response body of one of the three
      endpoints. */
  datatype Cached =
    | AirportsBody(suggestions: Autosuggest.Suggestions)
    | NearestBody(nearest: Nearest.NearestResult)
    | PriceBody(price: Indicative.PriceResult)

  /** A JSON body with status 200, or `{error}` with an error status. */
  datatype Response = Json(body: Cached) | Error(status: nat, message: string)

  datatype Request<B> = Request(httpMethod: string, body: B)

  /** `fetched` is true when the lookup missed and `skyscannerFetch` was
      invoked, whether or not that call went on to send a request. */
  datatype Outcome = Outcome(cache: Cache<Cached>, response: Response, fetched: bool)

  const METHOD_NOT_ALLOWED := "Method not allowed"

  /** The serverless functions answer 405 to anything but POST; the Express
      routes are registered for POST only, so their handlers never see
      another method. */
  predicate Accepts<B>(d: Deployment, req: Request<B>): (ok: bool)
    ensures d == ExpressServer ==> ok
    ensures d == Serverless ==> (ok <==> req.httpMethod == "POST")
  {
    d == ExpressServer || req.httpMethod == "POST"
  }

  /** The shared tail of every handler once the key is known. `upstream`
      is the normalized body, or the message of the error the provider call
      raised; it is consulted only on a miss. */
  function Serve(cache: Cache<Cached>, key: string, ttl: nat, now: int, storedAt: int,
                 upstream: Result<Cached, string>): (r: Outcome)
    ensures r.fetched <==> !Live(cache, key, now)
    ensures !r.fetched ==> r.cache == cache && r.response == Json(cache[key].value)
    ensures r.fetched && upstream.Failure? ==> r.cache == cache - {key} && r.response == Error(500, upstream.error)
    ensures r.fetched && upstream.Success? ==>
              r.cache == cache[key := Entry(upstream.value, storedAt + ttl)] && r.response == Json(upstream.value)
    ensures r.cache - {key} == cache - {key}
  {
    var lookup := Get(cache, key, now);
    match lookup.found
    case Some(v) => Outcome(lookup.cache, Json(v), false)
    case None =>
      match upstream
      case Failure(message) => Outcome(lookup.cache, Error(500, message), true)
      case Success(v) => Outcome(Set(lookup.cache, key, v, ttl, storedAt), Json(v), true)
  }

  /** The provider call of deployment `d` with its result normalized, or
      the message of the error it raised. */
  function Call<P>(d: Deployment, apiKey: Option<string>, reply: Upstream.Reply<P>, normalize: P -> Cached): (r: Result<Cached, string>)
    ensures r.Success? <==> Upstream.Fetch(d, apiKey, reply).Success?
    ensures r.Success? ==> r.value == normalize(reply.json)
    ensures !Upstream.Sends(d, apiKey) ==> r == Failure(Upstream.NOT_CONFIGURED)
    ensures r.Failure? ==> r.error == Upstream.Message(Upstream.Fetch(d, apiKey, reply).error)
  {
    match Upstream.Fetch(d, apiKey, reply)
    case Success(json) => Success(normalize(json))
    case Failure(e) => Failure(Upstream.Message(e))
  }

  // ---------------------------------------------------------------------
  // POST /api/autosuggest
  // ---------------------------------------------------------------------

  function HandleAutosuggest(d: Deployment, cache: Cache<Cached>, now: int, storedAt: int,
                             req: Request<Autosuggest.Body>, apiKey: Option<string>,
                             reply: Upstream.Reply<Autosuggest.Payload>): (r: Outcome)
    ensures !Accepts(d, req) ==> r == Outcome(cache, Error(405, METHOD_NOT_ALLOWED), false)
    ensures Accepts(d, req) && !Autosuggest.Valid(req.body) ==>
              r == Outcome(cache, Error(400, Autosuggest.QUERY_REQUIRED), false)
    ensures r.fetched <==> Accepts(d, req) && Autosuggest.Valid(req.body) && !Live(cache, Autosuggest.Key(req.body), now)
    ensures r.cache - {Autosuggest.Key(req.body)} == cache - {Autosuggest.Key(req.body)}
    ensures Accepts(d, req) && Autosuggest.Valid(req.body) && Live(cache, Autosuggest.Key(req.body), now) ==>
              r.cache == cache && r.response == Json(cache[Autosuggest.Key(req.body)].value)
    ensures r.response.Json? && !r.fetched ==>
              r.cache == cache && r.response.body == cache[Autosuggest.Key(req.body)].value
    ensures r.response.Json? && r.fetched ==>
              && Upstream.Fetch(d, apiKey, reply).Success?
              && r.response.body == AirportsBody(Autosuggest.Normalize(reply.json, d))
              && r.cache == cache[Autosuggest.Key(req.body) := Entry(r.response.body, storedAt + AUTOSUGGEST_TTL)]
    ensures r.fetched && !r.response.Json? ==>
              && Upstream.Fetch(d, apiKey, reply).Failure?
              && r.response.status == 500
              && r.response.message == Upstream.Message(Upstream.Fetch(d, apiKey, reply).error)
              && r.cache == cache - {Autosuggest.Key(req.body)}
  {
    if !Accepts(d, req) then Outcome(cache, Error(405, METHOD_NOT_ALLOWED), false)
    else if !Autosuggest.Valid(req.body) then Outcome(cache, Error(400, Autosuggest.QUERY_REQUIRED), false)
    else
      Serve(cache, Autosuggest.Key(req.body), AUTOSUGGEST_TTL, now, storedAt,
            Call(d, apiKey, reply, (p: Autosuggest.Payload) => AirportsBody(Autosuggest.Normalize(p, d))))
  }

  // ---------------------------------------------------------------------
  // POST /api/geo/nearest
  // ---------------------------------------------------------------------

  function HandleNearest(d: Deployment, cache: Cache<Cached>, now: int, storedAt: int,
                         req: Request<Nearest.Body>, apiKey: Option<string>,
                         reply: Upstream.Reply<Nearest.Payload>): (r: Outcome)
    ensures !Accepts(d, req) ==> r == Outcome(cache, Error(405, METHOD_NOT_ALLOWED), false)
    ensures Accepts(d, req) && !Nearest.Valid(req.body) ==>
              r == Outcome(cache, Error(400, Nearest.COORDINATES_REQUIRED), false)
    ensures r.fetched <==> Accepts(d, req) && Nearest.Valid(req.body) && !Live(cache, Nearest.Key(req.body), now)
    ensures r.cache - {Nearest.Key(req.body)} == cache - {Nearest.Key(req.body)}
    ensures Accepts(d, req) && Nearest.Valid(req.body) && Live(cache, Nearest.Key(req.body), now) ==>
              r.cache == cache && r.response == Json(cache[Nearest.Key(req.body)].value)
    ensures r.response.Json? && !r.fetched ==>
              r.cache == cache && r.response.body == cache[Nearest.Key(req.body)].value
    ensures r.response.Json? && r.fetched ==>
              && Upstream.Fetch(d, apiKey, reply).Success?
              && r.response.body == NearestBody(Nearest.Normalize(reply.json))
              && r.cache == cache[Nearest.Key(req.body) := Entry(r.response.body, storedAt + GEO_NEAREST_TTL)]
    ensures r.fetched && !r.response.Json? ==>
              && Upstream.Fetch(d, apiKey, reply).Failure?
              && r.response.status == 500
              && r.response.message == Upstream.Message(Upstream.Fetch(d, apiKey, reply).error)
              && r.cache == cache - {Nearest.Key(req.body)}
  {
    if !Accepts(d, req) then Outcome(cache, Error(405, METHOD_NOT_ALLOWED), false)
    else if !Nearest.Valid(req.body) then Outcome(cache, Error(400, Nearest.COORDINATES_REQUIRED), false)
    else
      Serve(cache, Nearest.Key(req.body), GEO_NEAREST_TTL, now, storedAt,
            Call(d, apiKey, reply, (p: Nearest.Payload) => NearestBody(Nearest.Normalize(p))))
  }

  // ---------------------------------------------------------------------
  // POST /api/flights/indicative
  // ---------------------------------------------------------------------

  function HandleIndicative(d: Deployment, cache: Cache<Cached>, now: int, storedAt: int,
                            req: Request<Indicative.Body>, apiKey: Option<string>,
                            reply: Upstream.Reply<Indicative.Payload>): (r: Outcome)
    ensures !Accepts(d, req) ==> r == Outcome(cache, Error(405, METHOD_NOT_ALLOWED), false)
    ensures Accepts(d, req) && !Indicative.Valid(req.body, d) ==>
              r == Outcome(cache, Error(400, Indicative.RequiredMessage(d)), false)
    ensures r.fetched <==> Accepts(d, req) && Indicative.Valid(req.body, d) && !Live(cache, Indicative.Key(req.body, d), now)
    ensures r.cache - {Indicative.Key(req.body, d)} == cache - {Indicative.Key(req.body, d)}
    ensures Accepts(d, req) && Indicative.Valid(req.body, d) && Live(cache, Indicative.Key(req.body, d), now) ==>
              r.cache == cache && r.response == Json(cache[Indicative.Key(req.body, d)].value)
    ensures r.response.Json? && !r.fetched ==>
              r.cache == cache && r.response.body == cache[Indicative.Key(req.body, d)].value
    ensures r.response.Json? && r.fetched ==>
              && Upstream.Fetch(d, apiKey, reply).Success?
              && r.response.body == PriceBody(Indicative.Normalize(reply.json, Indicative.Currency(req.body)))
              && r.cache == cache[Indicative.Key(req.body, d) := Entry(r.response.body, storedAt + FLIGHTS_TTL)]
    ensures r.fetched && !r.response.Json? ==>
              && Upstream.Fetch(d, apiKey, reply).Failure?
              && r.response.status == 500
              && r.response.message == Upstream.Message(Upstream.Fetch(d, apiKey, reply).error)
              && r.cache == cache - {Indicative.Key(req.body, d)}
  {
    if !Accepts(d, req) then Outcome(cache, Error(405, METHOD_NOT_ALLOWED), false)
    else if !Indicative.Valid(req.body, d) then Outcome(cache, Error(400, Indicative.RequiredMessage(d)), false)
    else
      var currency := Indicative.Currency(req.body);
      Serve(cache, Indicative.Key(req.body, d), FLIGHTS_TTL, now, storedAt,
            Call(d, apiKey, reply, (p: Indicative.Payload) => PriceBody(Indicative.Normalize(p, currency))))
  }

  // ---------------------------------------------------------------------
  // Properties across handlers and across calls
  // ---------------------------------------------------------------------

  /** The key an entry is filed under names the endpoint whose body it
      holds. */
  predicate Tagged(key: string, v: Cached) {
    match v
    case AirportsBody(_) => Split(key, ':')[0] == Autosuggest.KEY_TAG
    case NearestBody(_) => Split(key, ':')[0] == Nearest.KEY_TAG
    case PriceBody(_) => Split(key, ':')[0] == Indicative.KEY_TAG
  }

  /** Every entry of the shared cache is filed under its own endpoint's
      prefix. */
  predicate WellTyped(cache: Cache<Cached>) {
    forall k :: k in cache ==> Tagged(k, cache[k].value)
  }

  lemma WellTypedRemove(cache: Cache<Cached>, key: string)
    requires WellTyped(cache)
    ensures WellTyped(cache - {key})
  {
  }

  /** Each handler keeps the shared cache well typed, so that a hit always
      returns a body of the endpoint's own kind and never another
      endpoint's. */
  lemma AutosuggestKeepsCacheTyped(d: Deployment, cache: Cache<Cached>, now: int, storedAt: int,
                                   req: Request<Autosuggest.Body>, apiKey: Option<string>,
                                   reply: Upstream.Reply<Autosuggest.Payload>)
    requires WellTyped(cache)
    ensures var r := HandleAutosuggest(d, cache, now, storedAt, req, apiKey, reply);
            WellTyped(r.cache) && (r.response.Json? ==> r.response.body.AirportsBody?)
  {
    var r := HandleAutosuggest(d, cache, now, storedAt, req, apiKey, reply);
    var key := Autosuggest.Key(req.body);
    if r.response.Json? && !r.fetched {
      assert Tagged(key, cache[key].value);
    }
    WellTypedRemove(cache, key);
  }

  lemma NearestKeepsCacheTyped(d: Deployment, cache: Cache<Cached>, now: int, storedAt: int,
                               req: Request<Nearest.Body>, apiKey: Option<string>,
                               reply: Upstream.Reply<Nearest.Payload>)
    requires WellTyped(cache)
    ensures var r := HandleNearest(d, cache, now, storedAt, req, apiKey, reply);
            WellTyped(r.cache) && (r.response.Json? ==> r.response.body.NearestBody?)
  {
    var r := HandleNearest(d, cache, now, storedAt, req, apiKey, reply);
    var key := Nearest.Key(req.body);
    if r.response.Json? && !r.fetched {
      assert Tagged(key, cache[key].value);
    }
    WellTypedRemove(cache, key);
  }

  lemma IndicativeKeepsCacheTyped(d: Deployment, cache: Cache<Cached>, now: int, storedAt: int,
                                  req: Request<Indicative.Body>, apiKey: Option<string>,
                                  reply: Upstream.Reply<Indicative.Payload>)
    requires WellTyped(cache)
    ensures var r := HandleIndicative(d, cache, now, storedAt, req, apiKey, reply);
            WellTyped(r.cache) && (r.response.Json? ==> r.response.body.PriceBody?)
  {
    var r := HandleIndicative(d, cache, now, storedAt, req, apiKey, reply);
    var key := Indicative.Key(req.body, d);
    if r.response.Json? && !r.fetched {
      assert Tagged(key, cache[key].value);
    }
    WellTypedRemove(cache, key);
  }

  /** The three endpoints never share a cache key, whatever the requests. */
  lemma EndpointKeysDisjoint(a: Autosuggest.Body, g: Nearest.Body, f: Indicative.Body, d: Deployment)
    ensures Autosuggest.Key(a) != Nearest.Key(g)
    ensures Autosuggest.Key(a) != Indicative.Key(f, d)
    ensures Nearest.Key(g) != Indicative.Key(f, d)
  {
  }

  /** A result fetched and stored is served from the cache, without asking
      the provider, to the same request repeated at any time up to its
      time-to-live; the provider's later answer is irrelevant. */
  lemma AutosuggestRepeatHits(d: Deployment, cache: Cache<Cached>, now: int, storedAt: int,
                              req: Request<Autosuggest.Body>, apiKey: Option<string>,
                              reply: Upstream.Reply<Autosuggest.Payload>,
                              later: int, storedLater: int, apiKey': Option<string>,
                              reply': Upstream.Reply<Autosuggest.Payload>)
    requires HandleAutosuggest(d, cache, now, storedAt, req, apiKey, reply).fetched
    requires HandleAutosuggest(d, cache, now, storedAt, req, apiKey, reply).response.Json?
    requires later <= storedAt + AUTOSUGGEST_TTL
    ensures var first := HandleAutosuggest(d, cache, now, storedAt, req, apiKey, reply);
            var second := HandleAutosuggest(d, first.cache, later, storedLater, req, apiKey', reply');
            && !second.fetched
            && second.response == first.response
            && second.cache == first.cache
  {
  }

  lemma NearestRepeatHits(d: Deployment, cache: Cache<Cached>, now: int, storedAt: int,
                          req: Request<Nearest.Body>, apiKey: Option<string>,
                          reply: Upstream.Reply<Nearest.Payload>,
                          later: int, storedLater: int, apiKey': Option<string>,
                          reply': Upstream.Reply<Nearest.Payload>)
    requires HandleNearest(d, cache, now, storedAt, req, apiKey, reply).fetched
    requires HandleNearest(d, cache, now, storedAt, req, apiKey, reply).response.Json?
    requires later <= storedAt + GEO_NEAREST_TTL
    ensures var first := HandleNearest(d, cache, now, storedAt, req, apiKey, reply);
            var second := HandleNearest(d, first.cache, later, storedLater, req, apiKey', reply');
            && !second.fetched
            && second.response == first.response
            && second.cache == first.cache
  {
  }

  lemma IndicativeRepeatHits(d: Deployment, cache: Cache<Cached>, now: int, storedAt: int,
                             req: Request<Indicative.Body>, apiKey: Option<string>,
                             reply: Upstream.Reply<Indicative.Payload>,
                             later: int, storedLater: int, apiKey': Option<string>,
                             reply': Upstream.Reply<Indicative.Payload>)
    requires HandleIndicative(d, cache, now, storedAt, req, apiKey, reply).fetched
    requires HandleIndicative(d, cache, now, storedAt, req, apiKey, reply).response.Json?
    requires later <= storedAt + FLIGHTS_TTL
    ensures var first := HandleIndicative(d, cache, now, storedAt, req, apiKey, reply);
            var second := HandleIndicative(d, first.cache, later, storedLater, req, apiKey', reply');
            && !second.fetched
            && second.response == first.response
            && second.cache == first.cache
  {
  }

  /** A failed provider call leaves nothing behind: the same request made
      again still misses. */
  lemma FailureLeavesMiss(d: Deployment, cache: Cache<Cached>, now: int, storedAt: int,
                          req: Request<Indicative.Body>, apiKey: Option<string>,
                          reply: Upstream.Reply<Indicative.Payload>, later: int)
    requires HandleIndicative(d, cache, now, storedAt, req, apiKey, reply).fetched
    requires !HandleIndicative(d, cache, now, storedAt, req, apiKey, reply).response.Json?
    ensures var first := HandleIndicative(d, cache, now, storedAt, req, apiKey, reply);
            !Live(first.cache, Indicative.Key(req.body, d), later)
  {
  }

  /** Zero is a coordinate like any other: the equator at the prime
      meridian is looked up, not rejected. */
  lemma ZeroCoordinatesAccepted(d: Deployment, apiKey: Option<string>, reply: Upstream.Reply<Nearest.Payload>)
    ensures HandleNearest(d, map[], 0, 0, Request("POST", Nearest.Body(Some(0.0), Some(0.0))), apiKey, reply).fetched
  {
  }

  /** The serverless function with no credential answers 500 with the
      configuration message and stores nothing. */
  lemma UnconfiguredServerless(cache: Cache<Cached>, now: int, storedAt: int,
                               req: Request<Autosuggest.Body>, reply: Upstream.Reply<Autosuggest.Payload>)
    requires req.httpMethod == "POST" && Autosuggest.Valid(req.body)
    requires !Live(cache, Autosuggest.Key(req.body), now)
    ensures var r := HandleAutosuggest(Serverless, cache, now, storedAt, req, None, reply);
            r.response == Error(500, Upstream.NOT_CONFIGURED) && r.cache == cache - {Autosuggest.Key(req.body)}
  {
  }

  /** A well-formed price request whose answer holds no quotes is answered
      `{minPrice: null, currency: "GBP", hasData: false}`. */
  lemma NoQuotesExample(d: Deployment)
    ensures var body := Indicative.Body(Some("LHR"), Some("JFK"), Some("27544008"), Some(2025), Some(6), None, None);
            var reply := Upstream.Reply(200, "{}", Indicative.Payload(None, None, None));
            HandleIndicative(d, map[], 0, 0, Request("POST", body), Some("secret"), reply).response
              == Json(PriceBody(Indicative.NoPrice("GBP")))
  {
    var body := Indicative.Body(Some("LHR"), Some("JFK"), Some("27544008"), Some(2025), Some(6), None, None);
    var payload := Indicative.Payload(None, None, None);
    var reply := Upstream.Reply(200, "{}", payload);
    assert Indicative.Valid(body, d);
    assert Upstream.Fetch(d, Some("secret"), reply) == Success(payload);
    assert Indicative.Currency(body) == "GBP";
    assert Indicative.Quotes(payload) == [];
    assert Indicative.Normalize(payload, "GBP") == Indicative.NoPrice("GBP");
  }
}
