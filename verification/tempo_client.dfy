/**
 * The TEMPO satellite reader: search defaults, the fifteen-city table its
 * records are attributed to, the unit label it writes, and the shapes of
 * its download and "recent data" results.
 */
module TempoClient {
  import opened Wrappers
  import opened Text
  import Geo
  import Granules
  import DataProcessor

  const DefaultParameters: seq<string> := ["NO2", "O3", "HCHO", "H2CO"]

  /** The default search box, `[west, south, east, north]` in degrees: North America. */
  const DefaultBoundingBox: seq<int> := [-180, 15, -50, 70]

  /**
   * The unit label this reader writes: the UTF-8 bytes of `mol/m²` read back
   * as Latin-1, so `Â²` where `²` was meant.
   */
  const MangledUnit: string := "mol/m\U{C2}\U{B2}"

  const Cities: seq<Geo.City> := [
    Geo.City("New York", 40.7128, -74.0060),
    Geo.City("Los Angeles", 34.0522, -118.2437),
    Geo.City("Chicago", 41.8781, -87.6298),
    Geo.City("Houston", 29.7604, -95.3698),
    Geo.City("Phoenix", 33.4484, -112.0740),
    Geo.City("Philadelphia", 39.9526, -75.1652),
    Geo.City("Dallas", 32.7767, -96.7970),
    Geo.City("San Francisco", 37.7749, -122.4194),
    Geo.City("Denver", 39.7392, -104.9903),
    Geo.City("Seattle", 47.6062, -122.3321),
    Geo.City("Miami", 25.7617, -80.1918),
    Geo.City("Boston", 42.3601, -71.0589),
    Geo.City("Toronto", 43.6532, -79.3832),
    Geo.City("Montreal", 45.5017, -73.5673),
    Geo.City("Vancouver", 49.2827, -123.1207)
  ]

  const Shape := Granules.Shape(Cities, MangledUnit, true)

  /** `_get_city_from_coords`. */
  function CityFromCoords(lat: real, lon: real): (name: string)
    ensures exists c | c in Cities :: c.name == name
  {
    Geo.ClosestName(Cities, lat, lon, "Unknown")
  }

  /** No two table entries coincide, so each entry is isolated from the rest. */
  lemma {:induction false} CitiesIsolated(i: int)
    requires 0 <= i < |Cities|
    ensures Geo.Isolated(Cities, i)
  {
  }

  /** The coordinates of a table entry name that entry. */
  lemma {:induction false} ExactCoordinatesName(i: int)
    requires 0 <= i < |Cities|
    ensures CityFromCoords(Cities[i].lat, Cities[i].lon) == Cities[i].name
  {
    CitiesIsolated(i);
    Geo.ExactCoordinatesFindEntry(Cities, i);
  }

  /** With real coordinates the seed `Unknown` is never the answer. */
  lemma {:induction false} NeverUnknown(lat: real, lon: real)
    ensures CityFromCoords(lat, lon) != "Unknown"
  {
    Geo.ClosestNameNeverDefault(Cities, lat, lon, "Unknown");
  }

  function ParametersOrDefault(parameters: Option<seq<string>>): (ps: seq<string>)
    ensures parameters.Some? ==> ps == parameters.value
    ensures parameters.None? ==> ps == DefaultParameters
  {
    match parameters
    case Some(p) => p
    case None => DefaultParameters
  }

  /** What the granule search is asked for: the parameters play no part in it. */
  datatype SearchRequest = SearchRequest(start: int, end: int, boundingBox: seq<int>)

  function SearchTempoData(start: int, end: int, bbox: Option<seq<int>>, parameters: Option<seq<string>>): (q: SearchRequest)
    ensures q.start == start && q.end == end
    ensures bbox.None? ==> q.boundingBox == DefaultBoundingBox
    ensures bbox.Some? ==> q.boundingBox == bbox.value
  {
    SearchRequest(start, end, if bbox.Some? then bbox.value else DefaultBoundingBox)
  }

  /** The requested parameters never change the search. */
  lemma {:induction false} SearchIgnoresParameters(start: int, end: int, bbox: Option<seq<int>>, a: Option<seq<string>>, b: Option<seq<string>>)
    ensures SearchTempoData(start, end, bbox, a) == SearchTempoData(start, end, bbox, b)
  {
  }

  /** `download_tempo_data`. */
  function DownloadTempoData(download: Result<seq<(string, Option<Granules.Dataset>)>, string>, parameters: Option<seq<string>>): (r: Granules.DownloadResult)
    ensures r.recordsProcessed == |r.measurements|
    ensures download.Err? ==> r.measurements == [] && r.error.Some?
    ensures forall m | m in r.measurements :: m.source == "tempo" && m.unit == MangledUnit
  {
    Granules.Download(Shape, download, ParametersOrDefault(parameters))
  }

  /**
   * `get_recent_tempo_data`: `granules` is what the search found and
   * `download` what fetching them gave.
   */
  function GetRecentTempoData(granules: seq<string>, download: Result<seq<(string, Option<Granules.Dataset>)>, string>, parameters: Option<seq<string>>): (r: Granules.DownloadResult)
    ensures r.recordsProcessed == |r.measurements|
    ensures granules == [] ==> r == Granules.DownloadResult([], [], 0, None)
  {
    if granules == [] then Granules.DownloadResult([], [], 0, None)
    else DownloadTempoData(download, parameters)
  }

  /** Every record of a processed file names its file and the parameter as requested, mapped. */
  lemma {:induction false} RecordsKeepOriginalParameter(path: string, ds: Granules.Dataset, parameters: seq<string>, m: Granules.Measurement)
    requires m in Granules.ProcessFile(Shape, path, Some(ds), parameters)
    ensures m.raw.Some? && m.raw.value.filePath == path
    ensures m.raw.value.originalParameter in parameters
    ensures m.parameter == Granules.MapParameter(m.raw.value.originalParameter)
    ensures m.city == CityFromCoords(m.latitude, m.longitude)
  {
  }

  /**
   * The label is not one the cleaner knows: it is neither `mol/m²` nor
   * `mol/m2`, so the cleaner passes such readings through with the label
   * merely lower-cased (`Â` becoming `â`).
   */
  lemma {:induction false} CleanerKeepsMangledUnit(value: real, parameter: string)
    ensures DataProcessor.UnitKey(MangledUnit) != DataProcessor.TempoUnit
    ensures DataProcessor.ConvertUnits(value, MangledUnit, parameter)
            == DataProcessor.Converted(Some(value), "mol/m\U{E2}\U{B2}")
  {
    var lowered := "mol/m\U{E2}\U{B2}";
    assert Lower(MangledUnit) == lowered;
    StripFixed(lowered);
    assert DataProcessor.UnitKey(MangledUnit) == lowered;
    assert lowered[5] != DataProcessor.TempoUnit[5];
    assert lowered !in DataProcessor.UnitConversions;
    DataProcessor.ConvertUnitsCases(value, MangledUnit, parameter);
  }
}
