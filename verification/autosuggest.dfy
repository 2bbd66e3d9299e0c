/** Airport search by free text: request validation, the cache key, and the
    normalizer that keeps the airports and cities of the provider's answer. */
module Autosuggest {
  import opened Wrappers
  import opened Common
  import opened Text
  import opened Places

  /** The client's request body `{query, market?}`. */
  datatype Body = Body(query: Option<string>, market: Option<string>)

  /** The provider's answer: an array of places, possibly absent. */
  datatype Payload = Payload(places: Option<seq<Place>>)

  datatype Suggestion = Suggestion(
    entityId: Option<string>,
    name: Option<string>,
    iata: string,
    cityName: string,
    countryName: string,
    placeType: string)

  /** The response body `{airports}`. */
  datatype Suggestions = Suggestions(airports: seq<Suggestion>)

  const QUERY_REQUIRED := "query is required"
  const DEFAULT_MARKET := "UK"
  const KEY_TAG := "autosuggest"

  // ---------------------------------------------------------------------
  // Validation and cache key
  // ---------------------------------------------------------------------

  /** `if (!query)`: an absent, `null` or empty query is refused. */
  predicate Valid(body: Body): (ok: bool)
    ensures ok <==> body.query.Some? && |body.query.value| > 0
  {
    Truthy(body.query)
  }

  function Market(body: Body): string {
    OrElse(body.market, DEFAULT_MARKET)
  }

  /** `autosuggest:<query lower-cased>:<market or UK>`. */
  function Key(body: Body): (k: string)
    ensures Split(k, ':')[0] == KEY_TAG
  {
    SplitJoinHead([KEY_TAG, ToLower(OrElse(body.query, "")), Market(body)], ':');
    Join([KEY_TAG, ToLower(OrElse(body.query, "")), Market(body)], ':')
  }

  /** Queries that differ only in letter case, under the same market, share
      one cache entry. */
  lemma KeyIgnoresCase(a: Body, b: Body)
    requires Valid(a) && Valid(b)
    requires SameIgnoringCase(a.query.value, b.query.value)
    requires Market(a) == Market(b)
    ensures Key(a) == Key(b)
  {
    ToLowerCaseInsensitive(a.query.value, b.query.value);
  }

  /** A missing or empty market is the UK market. */
  lemma KeyDefaultsMarket(q: string)
    ensures Key(Body(Some(q), None)) == Key(Body(Some(q), Some(""))) == Key(Body(Some(q), Some(DEFAULT_MARKET)))
  {
  }

  /** When neither the query nor the market contains a colon, two requests
      share a key exactly when their queries agree up to case and their
      markets (after the default) agree. */
  lemma KeyExact(a: Body, b: Body)
    requires Valid(a) && Valid(b)
    requires ':' !in a.query.value && ':' !in b.query.value
    requires ':' !in Market(a) && ':' !in Market(b)
    ensures Key(a) == Key(b) <==> SameIgnoringCase(a.query.value, b.query.value) && Market(a) == Market(b)
  {
    var xs := [KEY_TAG, ToLower(a.query.value), Market(a)];
    var ys := [KEY_TAG, ToLower(b.query.value), Market(b)];
    assert FreeOf(xs, ':');
    assert FreeOf(ys, ':');
    JoinInjective(xs, ys, ':');
    ToLowerCaseInsensitive(a.query.value, b.query.value);
    if Key(a) == Key(b) {
      assert xs[1] == ys[1] && xs[2] == ys[2];
    }
  }

  /** Without that restriction two different requests can collide: the
      colon of the query is indistinguishable from the key's separator. */
  lemma KeyCollidesAcrossColon()
    ensures var a := Body(Some("a:b"), Some("UK"));
            var b := Body(Some("a"), Some("b:UK"));
            Valid(a) && Valid(b) && Key(a) == Key(b) && Market(a) != Market(b)
  {
    var a := Body(Some("a:b"), Some("UK"));
    var b := Body(Some("a"), Some("b:UK"));
    assert ToLower("a:b") == "a:b";
    assert ToLower("a") == "a";
    assert Market(a) == "UK" && Market(b) == "b:UK";
    assert Join(["a:b", "UK"], ':') == "a:b" + ":" + "UK";
    assert Join(["a", "b:UK"], ':') == "a" + ":" + "b:UK";
    assert Key(a) == KEY_TAG + ":" + ("a:b" + ":" + "UK");
    assert Key(b) == KEY_TAG + ":" + ("a" + ":" + "b:UK");
  }

  // ---------------------------------------------------------------------
  // Normalizer
  // ---------------------------------------------------------------------

  /** The Express server reads `iata`; the serverless function reads
      `iataCode`. */
  function IataOf(p: Place, d: Deployment): Option<string> {
    match d
    case ExpressServer => p.iata
    case Serverless => p.iataCode
  }

  predicate Keeps(p: Place, d: Deployment) {
    QualifiesWith(p, IataOf(p, d))
  }

  /** The projection of one kept place into the response shape. */
  function Project(p: Place, d: Deployment): (s: Suggestion)
    ensures s.entityId == p.entityId && s.name == p.name
    ensures Keeps(p, d) ==> Some(s.iata) == IataOf(p, d) && s.iata != "" && IsAirportOrCity(s.placeType)
    ensures s.cityName == "" <==> !Truthy(p.cityName)
    ensures s.countryName == "" <==> !Truthy(p.countryName)
  {
    Suggestion(
      p.entityId,
      p.name,
      OrElse(IataOf(p, d), ""),
      OrElse(p.cityName, ""),
      OrElse(p.countryName, ""),
      p.placeType.GetOr(""))
  }

  /** `places.filter(...).map(...)`. */
  function FilterPlaces(places: seq<Place>, d: Deployment): (r: seq<Suggestion>)
    ensures |r| <= |places|
    ensures forall s :: s in r ==> s.iata != "" && IsAirportOrCity(s.placeType)
  {
    if places == [] then []
    else (if Keeps(places[0], d) then [Project(places[0], d)] else []) + FilterPlaces(places[1..], d)
  }

  /** `{airports: (data.places || []).filter(...).map(...)}`. */
  function Normalize(payload: Payload, d: Deployment): (r: Suggestions)
    ensures payload.places.None? ==> r.airports == []
    ensures payload.places.Some? ==> |r.airports| <= |payload.places.value|
  {
    Suggestions(FilterPlaces(payload.places.GetOr([]), d))
  }

  /** The indices, from `k` on and in increasing order, of the places the
      filter keeps. */
  function KeptFrom(places: seq<Place>, d: Deployment, k: nat): (idx: seq<nat>)
    requires k <= |places|
    ensures forall j :: 0 <= j < |idx| ==> k <= idx[j] < |places|
    decreases |places| - k
  {
    if k == |places| then []
    else (if Keeps(places[k], d) then [k] else []) + KeptFrom(places, d, k + 1)
  }

  /** `KeptFrom` lists every kept place from `k` on, each once, in increasing
      order, and nothing else: an independent statement of which places
      survive the filter. */
  lemma {:induction false} KeptFromExact(places: seq<Place>, d: Deployment, k: nat)
    requires k <= |places|
    ensures var idx := KeptFrom(places, d, k);
            && (forall j :: 0 <= j < |idx| ==> Keeps(places[idx[j]], d))
            && (forall j, j' :: 0 <= j < j' < |idx| ==> idx[j] < idx[j'])
            && (forall i :: k <= i < |places| ==> (Keeps(places[i], d) <==> i in idx))
    decreases |places| - k
  {
    if k < |places| {
      KeptFromExact(places, d, k + 1);
    }
  }

  /** The response lists, in the provider's order, exactly the kept places,
      each projected field by field. */
  lemma {:induction false} FilterIsOrderedProjection(places: seq<Place>, d: Deployment, k: nat)
    requires k <= |places|
    ensures var idx := KeptFrom(places, d, k);
            var r := FilterPlaces(places[k..], d);
            && |r| == |idx|
            && forall j :: 0 <= j < |r| ==> r[j] == Project(places[idx[j]], d)
    decreases |places| - k
  {
    if k < |places| {
      FilterIsOrderedProjection(places, d, k + 1);
      var idx := KeptFrom(places, d, k);
      var rest := KeptFrom(places, d, k + 1);
      var r' := FilterPlaces(places[k + 1..], d);
      assert places[k..][1..] == places[k + 1..];
      assert places[k..][0] == places[k];
      var r := FilterPlaces(places[k..], d);
      if Keeps(places[k], d) {
        assert r == [Project(places[k], d)] + r';
        assert idx == [k] + rest;
        forall j | 0 <= j < |r|
          ensures r[j] == Project(places[idx[j]], d)
        {
          if j > 0 {
            assert r[j] == r'[j - 1];
            assert idx[j] == rest[j - 1];
          }
        }
      } else {
        assert r == r';
        assert idx == rest;
      }
    }
  }

  /** Field-by-field content of each suggestion: the IATA code is the one
      read from the source record, the city and country names default to
      the empty string, and the type is airport or city. */
  lemma SuggestionFields(payload: Payload, d: Deployment)
    requires payload.places.Some?
    ensures var places := payload.places.value;
            var idx := KeptFrom(places, d, 0);
            var r := Normalize(payload, d).airports;
            forall j :: 0 <= j < |r| ==>
              && j < |idx|
              && Keeps(places[idx[j]], d)
              && Some(r[j].iata) == IataOf(places[idx[j]], d)
              && r[j].cityName == OrElse(places[idx[j]].cityName, "")
              && r[j].countryName == OrElse(places[idx[j]].countryName, "")
              && Some(r[j].placeType) == places[idx[j]].placeType
              && r[j].entityId == places[idx[j]].entityId
  {
    var places := payload.places.value;
    FilterIsOrderedProjection(places, d, 0);
    KeptFromExact(places, d, 0);
    assert places[0..] == places;
  }

  /** A place that carries its code only under `iata` is an airport for
      the Express server and invisible to the serverless function. */
  lemma DeploymentsDisagreeOnIataField()
    ensures var p := Place(Some("95565050"), Some("London Heathrow"), Some("LHR"), None, None, None, Some(AIRPORT));
            && Normalize(Payload(Some([p])), ExpressServer).airports
                 == [Suggestion(Some("95565050"), Some("London Heathrow"), "LHR", "", "", AIRPORT)]
            && Normalize(Payload(Some([p])), Serverless).airports == []
  {
  }

  /** Of an airport with a code, an airport with an empty code and a country,
      only the first survives. */
  lemma FilterExample()
    ensures var lhr := Place(None, None, Some("LHR"), None, None, None, Some(AIRPORT));
            var blank := Place(None, None, Some(""), None, None, None, Some(AIRPORT));
            var par := Place(None, None, Some("PAR"), None, None, None, Some("PLACE_TYPE_COUNTRY"));
            Normalize(Payload(Some([lhr, blank, par])), ExpressServer).airports
              == [Suggestion(None, None, "LHR", "", "", AIRPORT)]
  {
    var lhr := Place(None, None, Some("LHR"), None, None, None, Some(AIRPORT));
    var blank := Place(None, None, Some(""), None, None, None, Some(AIRPORT));
    var par := Place(None, None, Some("PAR"), None, None, None, Some("PLACE_TYPE_COUNTRY"));
    var ps := [lhr, blank, par];
    assert Keeps(lhr, ExpressServer) && !Keeps(blank, ExpressServer) && !Keeps(par, ExpressServer);
    assert ps[1..] == [blank, par];
    assert ps[1..][1..] == [par];
    assert [par][1..] == [];
    assert FilterPlaces([par], ExpressServer) == [];
    assert FilterPlaces([blank, par], ExpressServer) == [];
  }
}
