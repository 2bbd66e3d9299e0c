/** The provider's place record, as both the autosuggest and the
    nearest-airport payloads carry it, and the test every normalizer applies
    before keeping a place. */
module Places {
  import opened Wrappers
  import opened Common

  const AIRPORT := "PLACE_TYPE_AIRPORT"
  const CITY := "PLACE_TYPE_CITY"

  /** Every field may be missing. The IATA code appears as `iata` or as
      `iataCode` depending on the endpoint that produced the record. */
  datatype Place = Place(
    entityId: Option<string>,
    name: Option<string>,
    iata: Option<string>,
    iataCode: Option<string>,
    cityName: Option<string>,
    countryName: Option<string>,
    placeType: Option<string>)

  predicate IsAirportOrCity(placeType: string) {
    placeType == AIRPORT || placeType == CITY
  }

  /** The place has a truthy IATA code (read from whichever field the caller
      names) and is an airport or a city. */
  predicate QualifiesWith(p: Place, code: Option<string>) {
    Truthy(code) && p.placeType.Some? && IsAirportOrCity(p.placeType.value)
  }
}
