/**
 * Nearest-city lookup over a fixed table of coordinates, as the ingest
 * service and the two NASA clients do it: a scan that keeps the first
 * entry whose planar degree distance is strictly below the best so far.
 *
 * Distances are compared squared: the square root the source takes is
 * strictly increasing on non-negative reals, so it orders candidates the
 * same way.
 */
module Geo {
  import opened Wrappers

  datatype City = City(name: string, lat: real, lon: real)

  /** Squared planar distance, in degrees², from `(lat, lon)` to a city. */
  function SqDistance(lat: real, lon: real, c: City): real {
    (lat - c.lat) * (lat - c.lat) + (lon - c.lon) * (lon - c.lon)
  }

  /**
   * The index the scan settles on after looking at the first `n` cities.
   * The first city always beats the initial infinite distance, and a later
   * city replaces the best only when strictly closer.
   */
  function NearestIn(cities: seq<City>, lat: real, lon: real, n: int): (i: int)
    requires 0 < n <= |cities|
    ensures 0 <= i < n
    ensures forall j :: 0 <= j < n ==> SqDistance(lat, lon, cities[i]) <= SqDistance(lat, lon, cities[j])
    ensures forall j :: 0 <= j < i ==> SqDistance(lat, lon, cities[i]) < SqDistance(lat, lon, cities[j])
  {
    if n == 1 then 0
    else
      var b := NearestIn(cities, lat, lon, n - 1);
      if SqDistance(lat, lon, cities[n - 1]) < SqDistance(lat, lon, cities[b]) then n - 1 else b
  }

  /** The index of the nearest city over the whole table. */
  function Nearest(cities: seq<City>, lat: real, lon: real): (i: int)
    requires cities != []
    ensures 0 <= i < |cities|
    ensures forall j :: 0 <= j < |cities| ==> SqDistance(lat, lon, cities[i]) <= SqDistance(lat, lon, cities[j])
    ensures forall j :: 0 <= j < i ==> SqDistance(lat, lon, cities[i]) < SqDistance(lat, lon, cities[j])
  {
    NearestIn(cities, lat, lon, |cities|)
  }

  /**
   * The scan's answer is the only index that is at least as close as every
   * city and strictly closer than every earlier one: ties go to the earlier
   * entry.
   */
  lemma {:induction false} NearestIsEarliestArgmin(cities: seq<City>, lat: real, lon: real, i: int)
    requires 0 <= i < |cities|
    requires forall j :: 0 <= j < |cities| ==> SqDistance(lat, lon, cities[i]) <= SqDistance(lat, lon, cities[j])
    requires forall j :: 0 <= j < i ==> SqDistance(lat, lon, cities[i]) < SqDistance(lat, lon, cities[j])
    ensures Nearest(cities, lat, lon) == i
  {
  }

  /** The name found by a scan seeded with `default` (returned when the table is empty). */
  function ClosestName(cities: seq<City>, lat: real, lon: real, default: string): (name: string)
    ensures cities == [] ==> name == default
    ensures cities != [] ==> exists c | c in cities :: c.name == name
  {
    if cities == [] then default else cities[Nearest(cities, lat, lon)].name
  }

  /** A non-empty table whose names all differ from the seed never answers with the seed. */
  lemma {:induction false} ClosestNameNeverDefault(cities: seq<City>, lat: real, lon: real, default: string)
    requires cities != [] && forall c | c in cities :: c.name != default
    ensures ClosestName(cities, lat, lon, default) != default
  {
    var c := cities[Nearest(cities, lat, lon)];
    assert c in cities;
  }

  /** Every other entry of the table lies at a positive distance from entry `i`. */
  predicate Isolated(cities: seq<City>, i: int)
    requires 0 <= i < |cities|
  {
    forall j :: 0 <= j < |cities| && j != i ==> SqDistance(cities[i].lat, cities[i].lon, cities[j]) > 0.0
  }

  /** The exact coordinates of an isolated entry find that entry. */
  lemma {:induction false} ExactCoordinatesFindEntry(cities: seq<City>, i: int)
    requires 0 <= i < |cities| && Isolated(cities, i)
    ensures Nearest(cities, cities[i].lat, cities[i].lon) == i
  {
    var lat, lon := cities[i].lat, cities[i].lon;
    assert SqDistance(lat, lon, cities[i]) == 0.0;
    NearestIsEarliestArgmin(cities, lat, lon, i);
  }
}
