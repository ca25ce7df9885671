/**
 * The multi-source NASA client: its own TEMPO reader (ten-city table,
 * `mol/m²` label, no `raw_data`), the three ground-network clients, which
 * return nothing, and the merge of all sources into one result.
 */
module NasaDataClient {
  import opened Wrappers
  import Geo
  import Granules
  import DataProcessor
  import TempoClient
  import Seqs

  const DefaultParameters: seq<string> := ["NO2", "O3", "HCHO", "PM2.5"]
  const DefaultSources: seq<string> := ["tempo", "pandora", "tolnet", "airnow"]

  const Cities: seq<Geo.City> := [
    Geo.City("New York", 40.7128, -74.0060),
    Geo.City("Los Angeles", 34.0522, -118.2437),
    Geo.City("Chicago", 41.8781, -87.6298),
    Geo.City("Houston", 29.7604, -95.3698),
    Geo.City("Phoenix", 33.4484, -112.0740),
    Geo.City("Philadelphia", 39.9526, -75.1652),
    Geo.City("Dallas", 32.7767, -96.7970),
    Geo.City("San Francisco", 37.7749, -122.4194),
    Geo.City("Denver", 39.7392, -104.9903),
    Geo.City("Seattle", 47.6062, -122.3321)
  ]

  const Shape := Granules.Shape(Cities, DataProcessor.TempoUnit, false)

  /** The ten cities are the first ten of the TEMPO reader's table. */
  lemma {:induction false} CitiesArePrefixOfTempoTable()
    ensures Cities == TempoClient.Cities[..10]
  {
  }

  /** `_get_city_from_coords`. */
  function CityFromCoords(lat: real, lon: real): (name: string)
    ensures exists c | c in Cities :: c.name == name
  {
    Geo.ClosestName(Cities, lat, lon, "Unknown")
  }

  lemma {:induction false} CitiesIsolated(i: int)
    requires 0 <= i < |Cities|
    ensures Geo.Isolated(Cities, i)
  {
  }

  /** The coordinates of a table entry name that entry. */
  lemma {:induction false} ExactCoordinatesName(i: int)
    requires 0 <= i < |Cities|
    ensures CityFromCoords(Cities[i].lat, Cities[i].lon) == Cities[i].name
  {
    CitiesIsolated(i);
    Geo.ExactCoordinatesFindEntry(Cities, i);
  }

  /** `TEMPOClient.download_tempo_data` of this client. */
  function DownloadTempoData(download: Result<seq<(string, Option<Granules.Dataset>)>, string>, parameters: Option<seq<string>>): (r: Granules.DownloadResult)
    ensures r.recordsProcessed == |r.measurements|
    ensures download.Err? ==> r.measurements == [] && r.files == [] && r.error.Some?
    ensures forall m | m in r.measurements ::
              m.source == "tempo" && m.unit == DataProcessor.TempoUnit && m.raw.None?
  {
    Granules.Download(Shape, download, TempoClient.ParametersOrDefault(parameters))
  }

  /** Each TEMPO record sits at its cell's coordinates, attributed to the nearest of the ten cities. */
  lemma {:induction false} TempoRecordShape(path: string, ds: Granules.Dataset, parameters: seq<string>, m: Granules.Measurement)
    requires m in Granules.ProcessFile(Shape, path, Some(ds), parameters)
    ensures m.city == CityFromCoords(m.latitude, m.longitude)
    ensures m.unit == DataProcessor.TempoUnit && m.source == "tempo" && m.raw.None?
    ensures exists p | p in parameters :: m.parameter == Granules.MapParameter(p)
  {
  }

  /**
   * `_get_tempo_data`: nothing when the search found no granules; otherwise
   * the downloaded measurements. The download is not handed the requested
   * parameters, so it always extracts the default four.
   */
  function TempoData(granules: seq<string>, download: Result<seq<(string, Option<Granules.Dataset>)>, string>): (ms: seq<Granules.Measurement>)
    ensures granules == [] ==> ms == []
    ensures granules != [] ==> ms == DownloadTempoData(download, None).measurements
  {
    if granules == [] then [] else DownloadTempoData(download, None).measurements
  }

  /** What `get_air_quality_data` records per source. */
  datatype SourceResult = SourceResult(measurements: seq<Granules.Measurement>, count: int)

  datatype AirQualityData = AirQualityData(
    allMeasurements: seq<Granules.Measurement>,
    sourceResults: map<string, SourceResult>,
    totalMeasurements: int,
    city: string,
    parameters: seq<string>)

  predicate KnownSource(source: string) {
    source == "tempo" || source == "pandora" || source == "tolnet" || source == "airnow"
  }

  /**
   * The measurements a source name yields: the TEMPO download for `tempo`,
   * nothing from the three ground-network clients (Pandora, TOLNet and
   * AirNow return empty lists), and `None` for a name the client does not
   * know. None of them raises: each catches every error itself.
   */
  function SourceData(source: string, tempo: seq<Granules.Measurement>): (r: Option<seq<Granules.Measurement>>)
    ensures r.Some? <==> KnownSource(source)
    ensures r.Some? && r.value != [] ==> source == "tempo" && r.value == tempo
  {
    if source == "tempo" then Some(tempo)
    else if KnownSource(source) then Some([])
    else None
  }

  /** The merged list and the per-source table after visiting `sources` in order. */
  function Merge(sources: seq<string>, tempo: seq<Granules.Measurement>): (r: (seq<Granules.Measurement>, map<string, SourceResult>))
    ensures forall s :: s in r.1 <==> s in sources && KnownSource(s)
    ensures forall s | s in r.1 :: r.1[s] == SourceResult(Yield(s, tempo), |Yield(s, tempo)|)
    decreases |sources|
  {
    if sources == [] then ([], map[])
    else
      var prev := Merge(sources[..|sources| - 1], tempo);
      var last := sources[|sources| - 1];
      assert forall s :: s in sources <==> s in sources[..|sources| - 1] || s == last by {
        assert sources == sources[..|sources| - 1] + [last];
      }
      match SourceData(last, tempo)
      case None => prev
      case Some(ms) => (prev.0 + ms, prev.1[last := SourceResult(ms, |ms|)])
  }

  /** `get_air_quality_data`: `granules` and `download` are what the TEMPO search and download gave. */
  function GetAirQualityData(
    city: string, parameters: Option<seq<string>>, sources: Option<seq<string>>,
    granules: seq<string>, download: Result<seq<(string, Option<Granules.Dataset>)>, string>): (r: AirQualityData)
    ensures r.totalMeasurements == |r.allMeasurements|
    ensures r.city == city
    ensures parameters.None? ==> r.parameters == DefaultParameters
  {
    var ss := if sources.Some? then sources.value else DefaultSources;
    var merged := Merge(ss, TempoData(granules, download));
    AirQualityData(merged.0, merged.1, |merged.0|, city, if parameters.Some? then parameters.value else DefaultParameters)
  }

  /** The list a source name adds to the merge; an unknown name adds nothing. */
  function Yield(source: string, tempo: seq<Granules.Measurement>): seq<Granules.Measurement> {
    match SourceData(source, tempo)
    case None => []
    case Some(ms) => ms
  }

  /** The merged list is the sources' lists concatenated in the order the sources are named. */
  function Concatenated(sources: seq<string>, tempo: seq<Granules.Measurement>): seq<Granules.Measurement> {
    if sources == [] then []
    else
      Yield(sources[0], tempo)
      + Concatenated(sources[1..], tempo)
  }

  lemma {:induction false} ConcatenatedSnoc(sources: seq<string>, tempo: seq<Granules.Measurement>)
    requires sources != []
    ensures Concatenated(sources, tempo)
            == Concatenated(sources[..|sources| - 1], tempo)
               + Yield(sources[|sources| - 1], tempo)
  {
    if |sources| > 1 {
      ConcatenatedSnoc(sources[1..], tempo);
      assert sources[1..][..|sources[1..]| - 1] == sources[..|sources| - 1][1..];
      Seqs.ConcatAssociative(
        Yield(sources[0], tempo),
        Concatenated(sources[1..][..|sources[1..]| - 1], tempo),
        Yield(sources[|sources| - 1], tempo));
    }
  }

  lemma {:induction false} MergeConcatenates(sources: seq<string>, tempo: seq<Granules.Measurement>)
    ensures Merge(sources, tempo).0 == Concatenated(sources, tempo)
    decreases |sources|
  {
    if sources != [] {
      MergeConcatenates(sources[..|sources| - 1], tempo);
      ConcatenatedSnoc(sources, tempo);
    }
  }

  /** Sum of the recorded counts, visiting each named source once. */
  function CountsOf(sources: seq<string>, results: map<string, SourceResult>): int {
    if sources == [] then 0
    else (if sources[0] in results then results[sources[0]].count else 0) + CountsOf(sources[1..], results)
  }

  lemma {:induction false} CountsMatchConcatenation(sources: seq<string>, tempo: seq<Granules.Measurement>, results: map<string, SourceResult>)
    requires forall s | s in results :: results[s] == SourceResult(Yield(s, tempo), |Yield(s, tempo)|)
    requires forall s | s in sources && KnownSource(s) :: s in results
    ensures CountsOf(sources, results) == |Concatenated(sources, tempo)|
  {
    if sources != [] {
      CountsMatchConcatenation(sources[1..], tempo, results);
    }
  }

  /**
   * The merged list is the sources' lists in the order named, the total is
   * the sum of the recorded counts over the names as given, every known
   * source named has an entry, and unknown names have none.
   */
  lemma {:induction false} TotalIsSumOfCounts(
    city: string, parameters: Option<seq<string>>, sources: seq<string>,
    granules: seq<string>, download: Result<seq<(string, Option<Granules.Dataset>)>, string>)
    ensures var r := GetAirQualityData(city, parameters, Some(sources), granules, download);
            && r.allMeasurements == Concatenated(sources, TempoData(granules, download))
            && r.totalMeasurements == CountsOf(sources, r.sourceResults)
            && (forall s :: s in r.sourceResults <==> s in sources && KnownSource(s))
  {
    var tempo := TempoData(granules, download);
    MergeConcatenates(sources, tempo);
    var m := Merge(sources, tempo);
    CountsMatchConcatenation(sources, tempo, m.1);
  }

  /**
   * A source named twice contributes its list twice to the total while the
   * per-source table holds it once.
   */
  lemma {:induction false} RepeatedSourceCountedTwice(
    city: string, parameters: Option<seq<string>>, sources: seq<string>,
    granules: seq<string>, download: Result<seq<(string, Option<Granules.Dataset>)>, string>)
    requires sources == ["tempo", "tempo"]
    ensures var r := GetAirQualityData(city, parameters, Some(sources), granules, download);
            r.sourceResults.Keys == {"tempo"} && r.totalMeasurements == 2 * r.sourceResults["tempo"].count
  {
    var tempo := TempoData(granules, download);
    assert sources[..1] == ["tempo"];
    assert Merge(sources[..1], tempo).0 == tempo by {
      assert sources[..1][..0] == [];
    }
  }
}
