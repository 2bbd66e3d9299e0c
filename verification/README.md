# Flight-data caching proxy — Dafny model

This project models the core of a small caching proxy that sits in front of
the Skyscanner flight API. Clients send three simplified requests:

- an airport search by text (autosuggest);
- a nearest-airport lookup by coordinates;
- an indicative-price lookup for a route and month.

For each request the proxy validates the body and builds a cache key. It
serves a live cached result when there is one. Otherwise it calls the
provider, reduces the provider's verbose answer to a compact result, and
stores that result for a fixed time per endpoint.

The repository ships this logic twice, and the model keeps both copies:

- the Express server, `server.js`;
- the serverless functions, `api/*.js` with the client in `api/_lib/skyscanner.js`.

Every handler, and the autosuggest normalizer, takes a `Deployment` (`ExpressServer` or
`Serverless`), and each place where the copies differ is a match on it:

- the autosuggest filter reads `iata` in the Express copy (server.js:87) and `iataCode` in the serverless copy (api/autosuggest.js:25). Neither copy falls back to the other field (`Autosuggest.DeploymentsDisagreeOnIataField`);
- the price destination is `destinationEntityId` in the Express copy (server.js:169) and `destinationIata` in the serverless copy (api/flights/indicative.js:9). Each copy reads only its own field;
- only the serverless handlers answer 405 to a method other than POST;
- only the serverless client refuses to call the provider without a usable credential (api/_lib/skyscanner.js:28-29). The Express server only warns at startup (server.js:10-11) and sends the request anyway (`Upstream.ExpressSendsUnconfigured`).

Modules (one file each):

- `Wrappers`: `Option` and `Result`.
- `Common`: the deployment and JavaScript truthiness (`x || default`).
- `Text`: ASCII lower-casing, decimal rendering, and joining fields with a separator. `Split` is the inverse of joining and is used to prove which keys coincide.
- `TtlCache`: the map from key to `{value, expires}`, with lazy eviction on read and the three TTLs.
- `Upstream`: the credential check and the HTTP-status error of the provider call. The reply itself is a parameter.
- `Places`: the provider's place record, shared by two endpoints.
- `Autosuggest`, `Nearest`, `Indicative`: each endpoint's validation, cache key and normalizer.
- `Handlers`: the shared orchestration `Serve` and the three handlers. Each handler is a pure function `(cache, clock, request, credential, provider reply) -> (cache', response, fetched)`. Here `fetched` means the key missed and `skyscannerFetch` was invoked. Whether that call then sent a request is `Upstream.Sends`: the serverless client throws before sending when the credential is unusable.

The clock is read twice, as in the source. `now` is read at lookup and
`storedAt` after the awaited provider call, when the result is written.

A property the proofs bring out: a cache key is its fields joined with
`:`. Two different autosuggest requests share a key when the query or the
market contains a colon (`Autosuggest.KeyCollidesAcrossColon`). Key
injectivity is therefore proved only for colon-free fields
(`Autosuggest.KeyExact`, `Indicative.KeyExact`). Geo keys contain no
user text, so for them it holds unconditionally
(`Nearest.KeySharedIffSameTenths`).

## Model

| member | source | states |
|---|---|---|
| TtlCache.Get | api/_lib/skyscanner.js:6-14 | A value is returned iff the entry exists and `now <= expires`, and then the cache is untouched. Otherwise the key's entry is removed and every other key keeps its entry. |
| TtlCache.Set | api/_lib/skyscanner.js:16-18 | The key's entry becomes `{value, now + ttl}`, overwriting any earlier one. Every other key is unchanged. |
| TtlCache.SetThenGet | server.js:22-34 | A value written at `t` with `ttl` is read back unchanged at every time up to and including `t + ttl`, and the read leaves the cache as it is. |
| TtlCache.SetThenGetExpired | api/_lib/skyscanner.js:9-12 | After `t + ttl` the read returns nothing and removes the entry. The cache is then what it was before the write, minus that key. |
| TtlCache.ExpiryIsInclusive | api/_lib/skyscanner.js:9 | At `now == expires` the entry is still served. One millisecond later it is not. |
| TtlCache.SetIsolated | server.js:32-34 | Writing one key does not change what a read of any other key returns. |
| TtlCache.GetIdempotent | server.js:22-30 | A second read at the same instant returns the same thing and changes nothing further. |
| TtlCache.TtlOrdering | api/_lib/skyscanner.js:20-24 | The TTLs are 604800000, 86400000 and 21600000 ms, so GEO_NEAREST > AUTOSUGGEST > FLIGHTS. |
| Upstream.Fetch | api/_lib/skyscanner.js:26-49 | The call succeeds iff the client sends and the status is 2xx, and then yields the parsed body. The serverless client without a usable credential fails with the configuration error. A non-2xx status fails with that status and the raw body. A rejected `fetch` fails with the transport's own message. |
| Upstream.Message | api/_lib/skyscanner.js:28-46 | `err.message` of each failure: the configuration text when the credential is unusable, the transport's own message when `fetch` rejects, and for a non-2xx status a text that starts with `Skyscanner API ` and ends with the raw body. |
| Upstream.UnconfiguredNeverSends | api/_lib/skyscanner.js:27-30 | With the credential absent, empty or the placeholder, the serverless call fails with the configuration error whatever the provider would answer, so no request is made. |
| Upstream.ExpressSendsUnconfigured | server.js:45-63 | The Express client sends even without a credential, and the provider's status decides the outcome. |
| Upstream.HttpFailureMessageCarriesDetail | api/_lib/skyscanner.js:44-47 | The error message starts with `Skyscanner API `, the status parses back from the digits before the first colon, and the message ends with the raw body. |
| Text.ToLowerCaseInsensitive | api/autosuggest.js:12 | Lower-casing maps two strings to the same text iff they differ only in the case of their letters. |
| Text.NatToStringInjective | api/flights/indicative.js:16 | Distinct numbers render as distinct decimal texts. |
| Autosuggest.Key | api/autosuggest.js:12 | The key's first `:`-field is the `autosuggest` discriminator, whatever the query holds. |
| Autosuggest.KeyIgnoresCase | server.js:74 | Two valid queries that differ only in letter case, with the same market, give the same key. |
| Autosuggest.KeyDefaultsMarket | api/autosuggest.js:12 | A missing or empty market gives the same key as `UK`. |
| Autosuggest.KeyExact | api/autosuggest.js:12 | With colon-free query and market, two requests share a key iff the queries agree up to case and the defaulted markets agree. |
| Autosuggest.KeyCollidesAcrossColon | server.js:74 | Query `a:b` with market `UK` and query `a` with market `b:UK` share a key. |
| Autosuggest.Valid | api/autosuggest.js:10 | A request passes iff its query is present and non-empty, so `null`, absent and `""` are refused with 400. |
| Autosuggest.FilterPlaces | api/autosuggest.js:24-33 | The output is never longer than the input. Every suggestion has a non-empty IATA code and type AIRPORT or CITY. |
| Autosuggest.Project | api/autosuggest.js:26-33 | `entityId` and `name` are copied. For a kept place, `iata` is the deployment's code field, non-empty, and `type` is AIRPORT or CITY. `cityName` and `countryName` are empty iff the place's field is not truthy. |
| Autosuggest.Normalize | api/autosuggest.js:24-35 | A missing `places` array gives `{airports: []}`. Otherwise there are no more airports than places. |
| Autosuggest.KeptFromExact | api/autosuggest.js:25 | The kept indices are increasing, and an index is listed iff its place has a truthy code (`iata` or `iataCode` by deployment) and type AIRPORT or CITY. |
| Autosuggest.FilterIsOrderedProjection | server.js:86-95 | The output is exactly the kept places, in the provider's order, each projected. |
| Autosuggest.SuggestionFields | api/autosuggest.js:26-33 | Each suggestion's `iata` is the source record's code, `cityName` and `countryName` default to `''`, and `entityId` and `type` are copied. |
| Autosuggest.DeploymentsDisagreeOnIataField | api/autosuggest.js:25 | A place carrying only `iata` is kept by the Express server and dropped by the serverless function. |
| Autosuggest.FilterExample | server.js:86-95 | Of `LHR` (airport), an airport with an empty code and `PAR` (country), only LHR is kept. |
| Nearest.RoundTenths | api/geo/nearest.js:14-15 | The result `t` satisfies `t - 0.5 <= 10x < t + 0.5`, which is `Math.round(10x)` with halves rounded up. |
| Nearest.RoundingCell | api/geo/nearest.js:14 | Every coordinate in the half-open cell around `t/10` rounds to `t`. |
| Nearest.ParseRenderTenths | server.js:119 | The printed form of `t/10` (sign only when negative, no fraction for whole numbers) reads back as `t`. |
| Nearest.RenderTenthsInjective | api/geo/nearest.js:16 | Distinct rounded values print differently. |
| Nearest.Key | api/geo/nearest.js:16 | The key's first `:`-field is the `geo` discriminator. |
| Nearest.KeySharedIffSameTenths | server.js:117-119 | Two coordinate pairs share a key iff both latitudes and both longitudes round to the same tenth. |
| Nearest.RoundingExample | server.js:116-119 | 51.47/-0.4531 and 51.4699/-0.4539 both round to tenths 515 and -5, printed `51.5` and `-0.5`. |
| Nearest.Valid | api/geo/nearest.js:10-12 | A request passes iff both coordinates are present (any number, zero included), and then the key's fields are the two coordinates rounded to tenths. |
| Nearest.FirstFrom | api/geo/nearest.js:33-34 | Returns the first index from `k` on whose place is wanted, or none when there is no such place. |
| Nearest.Project | api/geo/nearest.js:36-41 | `entityId` is the place's `entityId` when truthy and the map key otherwise. `type` is the place's type, `name` is copied, and for a candidate `iata` is its non-empty code. |
| Nearest.Scan | api/geo/nearest.js:30-45 | Once something is held the loop ends holding something. With no candidate left it ends holding what it held. With an airport candidate left it ends holding an airport. |
| Nearest.ScanFrom | server.js:138-150 | From any point where no airport has been seen and the first candidate so far is held, the loop ends with the reference choice. |
| Nearest.ScanChoosesFirstAirportElseFirstCity | api/geo/nearest.js:30-45 | The loop (keep the first candidate, replace only with an airport, stop at the first airport) returns the first qualifying AIRPORT if any, else the first qualifying place (a CITY). |
| Nearest.Normalize | api/geo/nearest.js:47-49 | `hasResult` is true iff an airport object was selected. |
| Nearest.NormalizeChoice | server.js:135-154 | The selected place is the reference choice, with `entityId` falling back to the map key. `hasResult` holds iff some place has a truthy `iata` and type AIRPORT or CITY. |
| Nearest.ScanExample | server.js:138-150 | For LON (city), LHR and LGW (airports) in that order, the result is LHR. |
| Indicative.Key | api/flights/indicative.js:16 | The key's first `:`-field is the `flights` discriminator. |
| Indicative.YearMonthExact | server.js:176 | The `year-month` field has no colon, and it determines year and month. |
| Indicative.KeyExact | api/flights/indicative.js:14-16 | For valid requests with colon-free text fields, two requests share a key iff origin, destination (the deployment's field), year, month, defaulted market and defaulted currency agree. |
| Indicative.KeyDefaults | server.js:174-176 | A missing market and currency give the same key as `UK` and `GBP`. |
| Indicative.Valid | api/flights/indicative.js:10-12 | A request passes iff origin, the deployment's destination field, year and month are all present and non-empty or non-zero. The Express copy (server.js:170) checks `destinationEntityId` instead. |
| Indicative.Quotes | api/flights/indicative.js:39 | The nested `content.results.quotes` is used whenever present, even if empty. Otherwise the top-level `quotes` is used, or none. |
| Indicative.Carriers | api/flights/indicative.js:61 | The nested `content.results.carriers` is used whenever present, even if empty. Otherwise the top-level `carriers` map is used, or an empty map. The choice does not depend on where the quotes came from. |
| Indicative.Price | api/flights/indicative.js:45-49 | A quote has a price iff it has an amount. The price is the amount divided by 100 for `PRICE_UNIT_CENTI` and the amount itself otherwise. |
| Indicative.CarrierId | api/flights/indicative.js:54 | The id is the leg's `marketingCarrierId` exactly when the leg exists and that id is truthy; otherwise it is `null`. A returned id is never empty. |
| Indicative.Scan | api/flights/indicative.js:44-57 | A held price is never replaced by a dearer one, so the loop ends with a price no higher than the one it held. The final price is no higher than that of any priced quote it visited. |
| Indicative.ScanFrom | server.js:213-226 | From any state holding the earliest cheapest quote seen so far, the loop ends holding nothing iff no quote has an amount, and otherwise holds the earliest cheapest quote's data. |
| Indicative.ScanFindsFirstCheapest | api/flights/indicative.js:44-57 | The strict-`<` loop ends empty iff no quote has an amount. Otherwise it holds the price, `isDirect` and carrier id of the first quote reaching the minimum. |
| Indicative.ResolveCarrier | api/flights/indicative.js:59-64 | A name is returned only for a present id found in the carriers map (nested or top-level), and then it is that carrier's name. |
| Indicative.Normalize | api/flights/indicative.js:66-68 | The result's currency is always the request's value after its `GBP` default. |
| Indicative.NormalizeCharacterised | server.js:208-238 | `hasData` is false (minPrice null) iff no quote had an amount. Otherwise `minPrice`, `isDirect` and `carrier` come from the earliest cheapest quote. |
| Indicative.CentiExample | server.js:217-220 | 15000 hundredths (150) against 120 whole units gives 120. |
| Indicative.TieKeepsFirst | api/flights/indicative.js:51 | On equal prices, the first quote's `isDirect` and carrier are kept. |
| Handlers.Serve | api/geo/nearest.js:17-56 | `fetched` (the key missed and `skyscannerFetch` was invoked) holds iff the key is not live. A hit returns the stored body and leaves the cache as is. A failed call answers 500 and only evicts the stale key. A successful call stores `{body, storedAt + ttl}`. No other key changes. |
| Handlers.Call | api/autosuggest.js:38-41 | The normalized body is produced iff the provider call succeeds. Otherwise the error is `err.message` of the failure: the configuration message, `Skyscanner API <status>: <body>`, or the transport's message. |
| Handlers.Accepts | api/autosuggest.js:4-6 | The serverless handlers accept a request iff the method is POST; the Express handlers accept every request their route delivers. |
| Handlers.HandleAutosuggest | api/autosuggest.js:3-42 | Non-POST (serverless) gives 405 and a missing query gives 400, both with no cache or provider effect. Otherwise it follows `Serve` under the case-folded key with the AUTOSUGGEST TTL: an accepted, valid request whose key is live gets the stored body and leaves the cache unchanged, and it stores only after a successful call. A failed call answers 500 with `err.message` of the failure and evicts only the key. The Express copy (server.js:69-104) is the same function at `ExpressServer`. |
| Handlers.HandleNearest | api/geo/nearest.js:3-57 | Same shape: 405, then 400 only for a null/absent `lat` or `lng`, then the rounded-coordinate key with the GEO_NEAREST TTL. A live key is answered from the cache with no change. A failed call answers 500 with `err.message`. Also covers server.js:109-162. |
| Handlers.HandleIndicative | api/flights/indicative.js:3-76 | Same shape: 405, then 400 when any required field (deployment's destination field) is falsy, then the flights key with the FLIGHTS TTL and the defaulted currency. A live key is answered from the cache with no change. A failed call answers 500 with `err.message`. Also covers server.js:167-246. |
| Handlers.AutosuggestKeepsCacheTyped | server.js:74-98 | If every entry is filed under its own endpoint's prefix before the call, that still holds after it, and a JSON answer is an airports body. |
| Handlers.NearestKeepsCacheTyped | server.js:119-156 | The same invariant for the geo handler, whose JSON answer is a nearest-place body. |
| Handlers.IndicativeKeepsCacheTyped | server.js:176-240 | The same invariant for the price handler, whose JSON answer is a price body. |
| Handlers.EndpointKeysDisjoint | server.js:74-176 | Autosuggest, geo and flights keys never coincide, whatever the request fields. |
| Handlers.AutosuggestRepeatHits | api/autosuggest.js:13-14 | After a fetched and stored result, the same request up to the TTL is a hit. It returns the same body and changes nothing, whatever the provider would answer. |
| Handlers.NearestRepeatHits | api/geo/nearest.js:17-18 | The same for the geo handler and its 7-day TTL. |
| Handlers.IndicativeRepeatHits | api/flights/indicative.js:17-18 | The same for the price handler and its 6-hour TTL. |
| Handlers.FailureLeavesMiss | server.js:242-245 | After a failed provider call, the key is not live at any time. |
| Handlers.ZeroCoordinatesAccepted | server.js:112-114 | `lat = 0, lng = 0` passes validation and is looked up. |
| Handlers.UnconfiguredServerless | api/_lib/skyscanner.js:28-29 | A serverless miss without a credential answers 500 with `SKYSCANNER_API_KEY not configured` and stores nothing. |
| Handlers.NoQuotesExample | server.js:236-238 | A valid price request whose answer has no quotes gets `{minPrice: null, currency: "GBP", hasData: false}`. |

## Left out

- Express setup, static file serving, dotenv, the port and `listen` (server.js:1-15, 251-253): framework and process I/O. The startup warning about a missing credential is logging only.
- How Express treats a non-POST request on these paths: that is the router's business, not the handlers'. The model lets the Express handlers run for any method.
- The network exchange, headers and JSON encoding of `fetch`: the reply (status, raw text, parsed body, or a transport failure) is a parameter. A body that fails to parse as JSON is not modelled.
- The request bodies sent to the provider: these are opaque provider payloads. They differ between the copies: the Express copy asks for two legs grouped by month, the serverless copy for one leg grouped by date.
- Logging with `console.log` / `console.error`.
- Nearest.RoundTenths: computed over exact reals, so IEEE-754 rounding of `x * 10` is not modelled.
- Nearest.RenderTenths: covers the decimal form of tenths only, not the exponent form JavaScript uses for very large magnitudes.
- Indicative.Price: divides exactly instead of in floating point.
- Indicative.Price: amounts are the integer `parseInt` would read from a digit string. Non-digit amounts (NaN) are excluded.
- Indicative.Valid: year and month are taken to be non-negative integers. The source accepts any truthy JSON value there: a negative or fractional number, or a string such as `"06"` or `"0"`, is accepted and written verbatim into the key, where `"06"` and `6` give different keys.
- Text.NatToString: renders the plain decimal form only. JavaScript prints values of 1e21 and above in exponent form.
- Text.ToLower: lower-cases ASCII letters only. JavaScript's `toLowerCase` also folds other Unicode letters.
- Request and payload fields of the wrong JSON type: a numeric query, string coordinates, a non-array `places`. In the source these throw or coerce inside the `try`. The model types every field, and `null` and absent are both `None`.
- `carriers[carrierId]` resolving an inherited object property such as `constructor`: JavaScript prototype lookup.
- `carrier: undefined` and `carrier: null` are both `None`, although `JSON.stringify` drops the former.
- Concurrency: async interleaving between lookup and store, and duplicate provider calls for concurrent misses of one key. Each handler call is modelled as one atomic step.
- Unbounded cache growth: the source has no capacity policy to model.
