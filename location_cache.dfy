/** The memo table both weather front ends keep from place names to
    coordinates: keyed by the lower-cased name, filled from the geocoder on a
    miss, never filled when the geocoder finds nothing. */
module LocationCache {
  import opened Outcomes
  import opened Text
  import opened JsonValue
  import opened OpenWeatherMap

  /** The geocoder's answer for a place name: its results, or the exception
      the request raised. */
  type Geocoder = string -> Result<seq<GeocodeResult>>

  type Coordinates = (Json, Json)

  function NotFound(location: string): Error {
    ValueError("Could not find location: " + location)
  }

  /** What a lookup of `location` misses into: the first result's
      coordinates, or the geocoder's exception, or not-found for no results. */
  function FromGeocoder(location: string, answer: Result<seq<GeocodeResult>>): (r: Result<Coordinates>)
    ensures answer.Err? ==> r == Err(answer.error)
    ensures answer == Ok([]) ==> r == Err(NotFound(location))
    ensures answer.Ok? && answer.value != [] ==> r == Ok((answer.value[0].lat, answer.value[0].lon))
  {
    var results :- answer;
    if results == [] then Err(NotFound(location)) else Ok((results[0].lat, results[0].lon))
  }

  /** How a lookup of `location` relates the table before, its result and the
      table after: a hit on the lower-cased name answers from the table and
      keeps it; a miss answers from the geocoder's reply for the name as
      given and caches a found pair under the lower-cased name. */
  ghost predicate LookedUp(before: map<string, Coordinates>, location: string, geocode: Geocoder,
                           r: Result<Coordinates>, after: map<string, Coordinates>)
  {
    && (Lower(location) in before ==> r == Ok(before[Lower(location)]) && after == before)
    && (Lower(location) !in before ==> r == FromGeocoder(location, geocode(location)))
    && (Lower(location) !in before && r.Ok? ==> after == before[Lower(location) := r.value])
    && (r.Err? ==> after == before)
  }

  /** The geocoder's query log after a lookup of `location`: a hit on the
      lower-cased name adds nothing, a miss adds the name as given. */
  ghost function QueriesAfter(before: map<string, Coordinates>, queries: seq<string>, location: string)
    : seq<string>
  {
    if Lower(location) in before then queries else queries + [location]
  }

  class LatLonCache {
    var entries: map<string, Coordinates>
    /** The place names the geocoder was asked about, in order. */
    ghost var geocodeQueries: seq<string>

    /** Every key is a lower-cased name. */
    ghost predicate Valid()
      reads this
    {
      forall k :: k in entries ==> Lower(k) == k
    }

    constructor()
      ensures entries == map[] && geocodeQueries == []
      ensures Valid()
    {
      entries := map[];
      geocodeQueries := [];
    }

    /** `_latlon(location)`: a hit on the lower-cased name answers without
        asking the geocoder; a miss asks it about the name as given and caches
        the first result's coordinates under the lower-cased name, or raises
        and leaves the table as it was. */
    method LatLon(location: string, geocode: Geocoder) returns (r: Result<Coordinates>)
      requires Valid()
      modifies this
      ensures Valid()
      ensures LookedUp(old(entries), location, geocode, r, entries)
      ensures geocodeQueries == QueriesAfter(old(entries), old(geocodeQueries), location)
    {
      var lower := Lower(location);
      if lower in entries {
        return Ok(entries[lower]);
      }
      geocodeQueries := geocodeQueries + [location];
      var response :- geocode(location);
      if response == [] {
        return Err(NotFound(location));
      }
      var result := (response[0].lat, response[0].lon);
      LowerIdempotent(location);
      entries := entries[lower := result];
      return Ok(result);
    }
  }

  /** After a lookup succeeds, any spelling of the name that differs only in
      case hits the table and gets the same coordinates, so the geocoder is
      not asked again. */
  lemma RepeatLookupHits(before: map<string, Coordinates>, location: string, geocode: Geocoder,
                         r: Result<Coordinates>, after: map<string, Coordinates>, again: string)
    requires LookedUp(before, location, geocode, r, after)
    requires r.Ok?
    requires EqualIgnoringCase(location, again)
    ensures Lower(again) in after && after[Lower(again)] == r.value
  {
    LowerIdentifiesCaseVariants(location, again);
  }
}
