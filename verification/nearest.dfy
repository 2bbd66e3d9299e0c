/** Nearest airport to a coordinate: request validation, the cache key built
    from coordinates rounded to a tenth of a degree, and the scan that picks
    the first airport, or failing that the first city, of the provider's
    place map. Both deployments read the `iata` field here. */
module Nearest {
  import opened Wrappers
  import opened Common
  import opened Text
  import opened Places

  /** The client's request body `{lat, lng}`; `None` is `null` or absent. */
  datatype Body = Body(lat: Option<real>, lng: Option<real>)

  /** The provider's `places` object, as the sequence of `[id, place]` pairs
      `Object.entries` yields, in that order. */
  datatype Payload = Payload(places: Option<seq<(string, Place)>>)

  datatype NearestAirport = NearestAirport(entityId: string, name: Option<string>, iata: string, placeType: string)

  /** The response body `{airport, hasResult}`. */
  datatype NearestResult = NearestResult(airport: Option<NearestAirport>, hasResult: bool)

  const COORDINATES_REQUIRED := "lat and lng are required"
  const KEY_TAG := "geo"

  // ---------------------------------------------------------------------
  // Validation and cache key
  // ---------------------------------------------------------------------

  /** `lat == null || lng == null` rejects; any number, zero included,
      passes. */
  predicate Valid(body: Body): (ok: bool)
    ensures ok <==> body.lat.Some? && body.lng.Some?
    ensures ok ==>
              KeyFields(body)[1] == RenderTenths(RoundTenths(body.lat.value)) && KeyFields(body)[2] == RenderTenths(RoundTenths(body.lng.value))
  {
    body.lat.Some? && body.lng.Some?
  }

  /** `Math.round(x * 10)`: the integer nearest to `10x`, halves rounded
      up. The result is the number of tenths. */
  function RoundTenths(x: real): (t: int)
    ensures t as real - 0.5 <= 10.0 * x < t as real + 0.5
  {
    (10.0 * x + 0.5).Floor
  }

  /** The text JavaScript prints for the number `t / 10`: a sign only when
      negative, no fractional part when `t` is a multiple of ten. */
  function RenderTenths(t: int): string {
    var m: nat := if t < 0 then -t else t;
    var digits := if m % 10 == 0 then NatToString(m / 10)
                  else Join([NatToString(m / 10), [DigitChar(m % 10)]], '.');
    if t < 0 then "-" + digits else digits
  }

  /** Reads a rendered number of tenths back. */
  function ParseTenths(s: string): int {
    var negative := |s| > 0 && s[0] == '-';
    var body := if negative then s[1..] else s;
    var parts := Split(body, '.');
    var whole := if AllDigits(parts[0]) then ParseNat(parts[0]) else 0;
    var frac := if |parts| > 1 && AllDigits(parts[1]) then ParseNat(parts[1]) else 0;
    var m := 10 * whole + frac;
    if negative then -m else m
  }

  lemma {:induction false} ParseRenderTenths(t: int)
    ensures ParseTenths(RenderTenths(t)) == t
  {
    var m: nat := if t < 0 then -t else t;
    var w := NatToString(m / 10);
    ParseNatToString(m / 10);
    DigitsAvoid(w, '.');
    var digits := if m % 10 == 0 then w else Join([w, [DigitChar(m % 10)]], '.');
    var frac: nat := 0;
    if m % 10 == 0 {
      SplitWithoutSeparator(w, '.');
      assert Split(digits, '.') == [w];
    } else {
      var f := [DigitChar(m % 10)];
      assert [w, f][1..] == [f];
      assert Join([f], '.') == f;
      assert digits == w + ['.'] + f;
      SplitAtFirstSeparator(w, f, '.');
      SplitWithoutSeparator(f, '.');
      assert f[..|f| - 1] == [];
      assert Split(digits, '.') == [w, f];
      assert ParseNat(f) == m % 10;
      frac := m % 10;
    }
    assert digits[0] == w[0];
    assert 10 * ParseNat(w) + frac == m;
    var s := RenderTenths(t);
    if t < 0 {
      assert s == "-" + digits;
      assert s[1..] == digits;
    } else {
      assert s == digits;
      assert s[0] != '-';
    }
  }

  /** Different numbers of tenths never print the same. */
  lemma RenderTenthsInjective(s: int, t: int)
    ensures RenderTenths(s) == RenderTenths(t) <==> s == t
  {
    ParseRenderTenths(s);
    ParseRenderTenths(t);
  }

  lemma RenderTenthsHasNoColon(t: int)
    ensures ':' !in RenderTenths(t)
  {
    var m: nat := if t < 0 then -t else t;
    var w := NatToString(m / 10);
    DigitsAvoid(w, ':');
    if m % 10 != 0 {
      JoinAvoids([w, [DigitChar(m % 10)]], '.', ':');
    }
  }

  /** The fields of the key: the tag and both coordinates in tenths. */
  function KeyFields(body: Body): seq<string> {
    [KEY_TAG, RenderTenths(RoundTenths(body.lat.GetOr(0.0))), RenderTenths(RoundTenths(body.lng.GetOr(0.0)))]
  }

  /** `geo:<lat rounded>:<lng rounded>`. */
  function Key(body: Body): (k: string)
    ensures Split(k, ':')[0] == KEY_TAG
  {
    SplitJoinHead(KeyFields(body), ':');
    Join(KeyFields(body), ':')
  }

  /** Two coordinate pairs share a cache entry exactly when both coordinates
      round to the same tenth. */
  lemma KeySharedIffSameTenths(a: Body, b: Body)
    requires Valid(a) && Valid(b)
    ensures Key(a) == Key(b) <==>
            RoundTenths(a.lat.value) == RoundTenths(b.lat.value) && RoundTenths(a.lng.value) == RoundTenths(b.lng.value)
  {
    var xs := KeyFields(a);
    var ys := KeyFields(b);
    RenderTenthsHasNoColon(RoundTenths(a.lat.value));
    RenderTenthsHasNoColon(RoundTenths(a.lng.value));
    RenderTenthsHasNoColon(RoundTenths(b.lat.value));
    RenderTenthsHasNoColon(RoundTenths(b.lng.value));
    assert FreeOf(xs, ':');
    assert FreeOf(ys, ':');
    JoinInjective(xs, ys, ':');
    RenderTenthsInjective(RoundTenths(a.lat.value), RoundTenths(b.lat.value));
    RenderTenthsInjective(RoundTenths(a.lng.value), RoundTenths(b.lng.value));
    if Key(a) == Key(b) {
      assert xs[1] == ys[1] && xs[2] == ys[2];
    }
  }

  /** Every coordinate within half a tenth below to just under half a tenth
      above `t / 10` rounds to `t`. */
  lemma RoundingCell(x: real, t: int)
    requires t as real - 0.5 <= 10.0 * x < t as real + 0.5
    ensures RoundTenths(x) == t
  {
  }

  /** Heathrow given to four decimals two ways lands in one cell, `51.5`
      by `-0.5`. */
  lemma RoundingExample()
    ensures RoundTenths(51.47) == RoundTenths(51.4699) == 515
    ensures RoundTenths(-0.4531) == RoundTenths(-0.4539) == -5
    ensures RenderTenths(515) == "51.5" && RenderTenths(-5) == "-0.5"
  {
    RoundingCell(51.47, 515);
    RoundingCell(51.4699, 515);
    RoundingCell(-0.4531, -5);
    RoundingCell(-0.4539, -5);
    assert NatToString(51) == "51";
    assert NatToString(0) == "0";
    assert Join(["51", "5"], '.') == "51" + "." + "5";
    assert Join(["0", "5"], '.') == "0" + "." + "5";
  }

  // ---------------------------------------------------------------------
  // Normalizer
  // ---------------------------------------------------------------------

  /** A place the scan considers: truthy `iata`, airport or city. */
  predicate Candidate(p: Place) {
    QualifiesWith(p, p.iata)
  }

  predicate AirportCandidate(p: Place) {
    Candidate(p) && p.placeType == Some(AIRPORT)
  }

  predicate Wanted(p: Place, airportsOnly: bool) {
    if airportsOnly then AirportCandidate(p) else Candidate(p)
  }

  /** The response shape of one place; the entity id falls back to the
      place's key in the map. */
  function Project(id: string, p: Place): (r: NearestAirport)
    ensures r.entityId != "" <==> Truthy(p.entityId) || id != ""
    ensures Candidate(p) ==> Some(r.iata) == p.iata && r.iata != "" && IsAirportOrCity(r.placeType)
    ensures r.name == p.name
    ensures r.entityId == (if Truthy(p.entityId) then p.entityId.value else id)
    ensures p.placeType.Some? ==> r.placeType == p.placeType.value
  {
    NearestAirport(OrElse(p.entityId, id), p.name, OrElse(p.iata, ""), p.placeType.GetOr(""))
  }

  /** The loop of the handler from entry `k` on, holding `held`: the first
      candidate is taken, a later one replaces it only if it is an airport,
      and the scan stops at the first airport taken. */
  function Scan(entries: seq<(string, Place)>, k: nat, held: Option<NearestAirport>): (r: Option<NearestAirport>)
    requires k <= |entries|
    ensures held.Some? ==> r.Some?
    ensures FirstFrom(entries, k, false).None? ==> r == held
    ensures FirstFrom(entries, k, true).Some? ==> r.Some? && r.value.placeType == AIRPORT
    decreases |entries| - k
  {
    if k == |entries| then held
    else
      var (id, p) := entries[k];
      if Candidate(p) && (held.None? || p.placeType == Some(AIRPORT)) then
        if p.placeType == Some(AIRPORT) then Some(Project(id, p))
        else Scan(entries, k + 1, Some(Project(id, p)))
      else Scan(entries, k + 1, held)
  }

  /** The first index from `k` on whose place is wanted. */
  function FirstFrom(entries: seq<(string, Place)>, k: nat, airportsOnly: bool): (r: Option<nat>)
    requires k <= |entries|
    ensures r.Some? ==> k <= r.value < |entries| && Wanted(entries[r.value].1, airportsOnly)
    ensures r.Some? ==> forall j :: k <= j < r.value ==> !Wanted(entries[j].1, airportsOnly)
    ensures r.None? ==> forall j :: k <= j < |entries| ==> !Wanted(entries[j].1, airportsOnly)
    decreases |entries| - k
  {
    if k == |entries| then None
    else if Wanted(entries[k].1, airportsOnly) then Some(k)
    else FirstFrom(entries, k + 1, airportsOnly)
  }

  /** The reference choice: the first airport candidate if there is one,
      otherwise the first candidate of any kind (necessarily a city). */
  function Choose(entries: seq<(string, Place)>): Option<NearestAirport> {
    match FirstFrom(entries, 0, true)
    case Some(i) => Some(Project(entries[i].0, entries[i].1))
    case None =>
      match FirstFrom(entries, 0, false)
      case Some(i) => Some(Project(entries[i].0, entries[i].1))
      case None => None
  }

  /** What the scan holds after the first `k` entries, stated without the
      scan: the first candidate among them, if any. */
  function HeldAfter(entries: seq<(string, Place)>, k: nat): Option<NearestAirport>
    requires k <= |entries|
  {
    var f := FirstFrom(entries, 0, false);
    if f.Some? && f.value < k then Some(Project(entries[f.value].0, entries[f.value].1)) else None
  }

  lemma {:induction false} ScanFrom(entries: seq<(string, Place)>, k: nat)
    requires k <= |entries|
    requires forall j :: 0 <= j < k ==> !AirportCandidate(entries[j].1)
    ensures Scan(entries, k, HeldAfter(entries, k)) == Choose(entries)
    decreases |entries| - k
  {
    var f := FirstFrom(entries, 0, false);
    var fa := FirstFrom(entries, 0, true);
    if k == |entries| {
      assert fa.None?;
    } else {
      var (id, p) := entries[k];
      var held := HeldAfter(entries, k);
      if Candidate(p) {
        assert f.Some? && f.value <= k;
        if held.None? {
          assert f.value == k;
        }
        if p.placeType == Some(AIRPORT) {
          assert fa.Some? && fa.value == k;
          if held.Some? {
            assert fa == Some(k);
          }
        } else {
          assert !AirportCandidate(p);
          assert HeldAfter(entries, k + 1) == (if held.None? then Some(Project(id, p)) else held);
          ScanFrom(entries, k + 1);
        }
      } else {
        assert HeldAfter(entries, k + 1) == held;
        ScanFrom(entries, k + 1);
      }
    }
  }

  /** The handler's selection picks the first airport in iteration order if
      there is one, otherwise the first city; a later city never displaces
      the held choice. */
  lemma ScanChoosesFirstAirportElseFirstCity(entries: seq<(string, Place)>)
    ensures Scan(entries, 0, None) == Choose(entries)
  {
    ScanFrom(entries, 0);
  }

  /** `{airport, hasResult: true}` or `{airport: null, hasResult: false}`. */
  function Normalize(payload: Payload): (r: NearestResult)
    ensures r.hasResult <==> r.airport.Some?
  {
    var airport := Scan(payload.places.GetOr([]), 0, None);
    NearestResult(airport, airport.Some?)
  }

  /** There is a result exactly when some place is a candidate, and then it
      is the projection of the chosen place. */
  lemma NormalizeChoice(payload: Payload)
    ensures var entries := payload.places.GetOr([]);
            && Normalize(payload).airport == Choose(entries)
            && (Normalize(payload).hasResult <==> exists i :: 0 <= i < |entries| && Candidate(entries[i].1))
  {
    var entries := payload.places.GetOr([]);
    ScanChoosesFirstAirportElseFirstCity(entries);
    var fa := FirstFrom(entries, 0, true);
    var f := FirstFrom(entries, 0, false);
    if fa.Some? {
      assert Candidate(entries[fa.value].1);
    }
  }

  /** A city first and two airports after it: the first airport wins. */
  lemma ScanExample()
    ensures var lon := Place(None, None, Some("LON"), None, None, None, Some(CITY));
            var lhr := Place(None, None, Some("LHR"), None, None, None, Some(AIRPORT));
            var lgw := Place(None, None, Some("LGW"), None, None, None, Some(AIRPORT));
            Normalize(Payload(Some([("1", lon), ("2", lhr), ("3", lgw)])))
              == NearestResult(Some(NearestAirport("2", None, "LHR", AIRPORT)), true)
  {
    var lon := Place(None, None, Some("LON"), None, None, None, Some(CITY));
    var lhr := Place(None, None, Some("LHR"), None, None, None, Some(AIRPORT));
    var lgw := Place(None, None, Some("LGW"), None, None, None, Some(AIRPORT));
    var entries := [("1", lon), ("2", lhr), ("3", lgw)];
    assert Candidate(lon) && Candidate(lhr);
    var held := Some(Project("1", lon));
    assert Scan(entries, 0, None) == Scan(entries, 1, held);
    assert Scan(entries, 1, held) == Some(Project("2", lhr));
  }
}
