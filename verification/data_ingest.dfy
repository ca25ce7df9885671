/**
 * The ingestion manager: pulling TOLNet ozone profiles, OpenAQ readings
 * and simulated Daymet weather into the database, and the unit and name
 * normalisation it applies on the way.
 *
 * HTTP responses are parameters (the decoded JSON body, or `None` when the
 * request, its status check or the decoding raised); the clock is the
 * parameter `now`, in seconds. The database session is modelled by the
 * rows each loop adds. Building an ORM object is modelled by the set of
 * keyword names passed to it: the declarative constructor raises
 * `TypeError` for a keyword that is not a mapped column.
 */
module Ingest {
  import opened Wrappers
  import opened Text
  import opened Py
  import opened Seqs
  import Geo
  import DataProcessor
  import OpenAqClient

  // ---------------------------------------------------------------------
  // Configuration.
  // ---------------------------------------------------------------------

  /** The built-in configuration's cities, used when no configuration file exists. */
  const DefaultCities: seq<Geo.City> := [
    Geo.City("New York", 40.7128, -74.0060),
    Geo.City("Los Angeles", 34.0522, -118.2437)
  ]

  datatype Config = Config(
    cities: seq<Geo.City>,
    daysBack: int,
    tolnetEnabled: bool,
    openaqEnabled: bool,
    weatherEnabled: bool)

  const DefaultConfig := Config(DefaultCities, 7, true, true, true)

  // ---------------------------------------------------------------------
  // The ORM constructors.
  // ---------------------------------------------------------------------

  /** The mapped attributes of the `measurements` table. */
  const MeasurementColumns: set<string> :=
    {"id", "city", "parameter", "value", "unit", "date_utc", "source", "created_at"}

  /** The mapped attributes of the `weather` table. */
  const WeatherColumns: set<string> :=
    {"id", "city", "temperature", "humidity", "wind_speed", "wind_direction", "precipitation",
     "pressure", "datetime_utc", "source", "latitude", "longitude", "raw_data", "created_at"}

  /** The keywords both measurement loops pass to `Measurement(...)`. */
  const IngestKeywords: set<string> :=
    {"city", "parameter", "value", "unit", "datetime_utc", "source", "latitude", "longitude", "raw_data"}

  /** The keywords the measurement loops would pass if they named the table's own columns. */
  const ColumnKeywords: set<string> := {"city", "parameter", "value", "unit", "date_utc", "source"}

  /** The keywords the weather loop passes to `Weather(...)`. */
  const WeatherKeywords: set<string> :=
    {"city", "temperature", "humidity", "wind_speed", "wind_direction", "precipitation",
     "pressure", "datetime_utc", "source", "latitude", "longitude", "raw_data"}

  /** Whether the declarative constructor accepts the keywords (it raises otherwise). */
  predicate Constructs(columns: set<string>, keywords: set<string>) {
    keywords <= columns
  }

  /**
   * The measurement keywords name three attributes the table lacks, and
   * the time under `datetime_utc` where the column is `date_utc`; the
   * weather keywords and the corrected measurement keywords are accepted.
   */
  lemma {:induction false} ConstructorVerdicts()
    ensures !Constructs(MeasurementColumns, IngestKeywords)
    ensures IngestKeywords - MeasurementColumns == {"datetime_utc", "latitude", "longitude", "raw_data"}
    ensures Constructs(MeasurementColumns, ColumnKeywords)
    ensures Constructs(WeatherColumns, WeatherKeywords)
  {
    assert "datetime_utc" in IngestKeywords - MeasurementColumns;
  }

  // ---------------------------------------------------------------------
  // Unit normalisation.
  // ---------------------------------------------------------------------

  /** Factors from ppm to µg/m³, by parameter name; other names use 1000. */
  const PpmFactors: map<string, real> := map[
    "NO2" := 1880.0,
    "O3" := 2000.0,
    "SO2" := 2620.0,
    "CO" := 1150.0
  ]

  function PpmFactor(parameter: string): (f: real)
    ensures f > 0.0
    ensures parameter !in PpmFactors ==> f == 1000.0
  {
    if parameter in PpmFactors then PpmFactors[parameter] else 1000.0
  }

  /** The ppb factor is the ppm factor over a thousand. */
  function PpbFactor(parameter: string): (f: real)
    ensures f * 1000.0 == PpmFactor(parameter)
  {
    PpmFactor(parameter) / 1000.0
  }

  /**
   * The factor table, keyed by the lower-cased trimmed unit: µg/m³ and
   * mg/m³ in either spelling, ppm and ppb; any other unit counts 1.
   */
  function UnitFactor(u: string, parameter: string): real {
    if u == DataProcessor.CanonicalUnit || u == "ug/m3" then 1.0
    else if u == "mg/m\U{B3}" || u == "mg/m3" then 1000.0
    else if u == "ppm" then PpmFactor(parameter)
    else if u == "ppb" then PpbFactor(parameter)
    else 1.0
  }

  /**
   * `_normalize_units`: the value times the unit's factor, always labelled
   * µg/m³.
   */
  function NormalizeUnits(value: real, unit: string, parameter: string): (r: (real, string))
    ensures r.1 == DataProcessor.CanonicalUnit
  {
    Scale(value, DataProcessor.UnitKey(unit), parameter)
  }

  /** The normalised reading for a unit already reduced to its lookup key. */
  function Scale(value: real, u: string, parameter: string): (real, string) {
    (value * UnitFactor(u, parameter), DataProcessor.CanonicalUnit)
  }

  /** The table's units are exactly the cleaner's mass units and ppm/ppb, with the same mass factors. */
  lemma {:induction false} UnitFactorKeys(u: string, parameter: string)
    ensures DataProcessor.MassUnit(u) <==> u == DataProcessor.CanonicalUnit || u == "ug/m3" || u == "mg/m\U{B3}" || u == "mg/m3"
    ensures DataProcessor.MassUnit(u) ==> UnitFactor(u, parameter) == DataProcessor.UnitConversions[u].value
  {
    if DataProcessor.MixingRatioUnit(u) {
      DataProcessor.MixingRatioNotMass(u);
    }
    if u == DataProcessor.TempoUnit {
      assert DataProcessor.UnitConversions[u] == None;
    }
  }

  /**
   * For the four mass units the ingest scales exactly as the cleaner's
   * conversion table does (whose own behaviour `ConvertUnitsCases` states).
   */
  lemma {:induction false} MassUnitsAgreeWithCleaner(value: real, u: string, parameter: string)
    requires DataProcessor.MassUnit(u)
    ensures Scale(value, u, parameter) == (value * DataProcessor.UnitConversions[u].value, DataProcessor.CanonicalUnit)
  {
    UnitFactorKeys(u, parameter);
  }

  /** A ppb reading normalises to a thousandth of the same number read as ppm. */
  lemma {:induction false} PpbIsThousandthOfPpm(value: real, ppb: string, ppm: string, parameter: string)
    requires DataProcessor.UnitKey(ppb) == "ppb" && DataProcessor.UnitKey(ppm) == "ppm"
    ensures NormalizeUnits(value, ppb, parameter).0 * 1000.0 == NormalizeUnits(value, ppm, parameter).0
  {
    assert NormalizeUnits(value, ppb, parameter) == Scale(value, "ppb", parameter);
    assert NormalizeUnits(value, ppm, parameter) == Scale(value, "ppm", parameter);
    ScalePpb(value, parameter);
  }

  lemma {:induction false} ScalePpb(value: real, parameter: string)
    ensures Scale(value, "ppb", parameter).0 * 1000.0 == Scale(value, "ppm", parameter).0
  {
    var f, g := PpmFactor(parameter), PpbFactor(parameter);
    assert g * 1000.0 == f;
    assert value * g * 1000.0 == value * (g * 1000.0);
  }

  /**
   * A unit neither table knows keeps its value in both, but the ingest
   * relabels it µg/m³ while the cleaner keeps the (lower-cased) label.
   */
  lemma {:induction false} UnknownUnitRelabelled(value: real, unit: string, parameter: string)
    requires var u := DataProcessor.UnitKey(unit);
             !DataProcessor.MassUnit(u) && !DataProcessor.MixingRatioUnit(u)
    ensures NormalizeUnits(value, unit, parameter) == (value, DataProcessor.CanonicalUnit)
    ensures DataProcessor.ConvertUnits(value, unit, parameter)
            == DataProcessor.Converted(Some(value), DataProcessor.UnitKey(unit))
    ensures DataProcessor.UnitKey(unit) != DataProcessor.CanonicalUnit
  {
    UnitFactorKeys(DataProcessor.UnitKey(unit), parameter);
    DataProcessor.ConvertUnitsCases(value, unit, parameter);
  }

  /** 50 ppb of ozone: 100 µg/m³ here, 2400 µg/m³ in the cleaner. */
  lemma {:induction false} OzonePpbDisagreesWithCleaner()
    ensures NormalizeUnits(50.0, "ppb", "O3") == (100.0, DataProcessor.CanonicalUnit)
    ensures DataProcessor.ConvertUnits(50.0, "ppb", "O3").value == Some(2400.0)
  {
    DataProcessor.UnitKeyOfPlainName("ppb");
    DataProcessor.PpbOzoneExample();
  }

  // ---------------------------------------------------------------------
  // Parameter names.
  // ---------------------------------------------------------------------

  /** Renames, keyed by the lower-cased name; other names are upper-cased. */
  const ParameterMapping: map<string, string> := map[
    "pm25" := "PM2.5",
    "pm2.5" := "PM2.5",
    "pm10" := "PM10",
    "no2" := "NO2",
    "o3" := "O3",
    "so2" := "SO2",
    "co" := "CO"
  ]

  function NormalizeParameter(parameter: string): (r: string)
    ensures Lower(parameter) in ParameterMapping ==> r == ParameterMapping[Lower(parameter)] && r in ParameterMapping.Values
    ensures Lower(parameter) !in ParameterMapping ==> r == Upper(parameter)
  {
    var key := Lower(parameter);
    if key in ParameterMapping then ParameterMapping[key] else Upper(parameter)
  }

  /**
   * The ingest names every parameter as the OpenAQ client does: its extra
   * entries (`pm10`, `so2`, `co`) are what upper-casing gives anyway.
   */
  lemma {:induction false} SameNamesAsClient(parameter: string)
    ensures NormalizeParameter(parameter) == OpenAqClient.NormalizeParameter(parameter)
  {
    var key := Lower(parameter);
    if key in ParameterMapping && key !in OpenAqClient.ParameterMapping {
      ExtraNameIsUpperCase(parameter);
    }
  }

  /** The three renames the client lacks agree with upper-casing. */
  lemma {:induction false} ExtraNameIsUpperCase(parameter: string)
    requires Lower(parameter) in {"pm10", "so2", "co"}
    ensures Upper(parameter) == ParameterMapping[Lower(parameter)]
  {
    var key := Lower(parameter);
    forall k | 0 <= k < |parameter| ensures PlainLowerChar(LowerChar(parameter[k])) {
      assert LowerChar(parameter[k]) == key[k];
    }
    UpperIgnoresCase(parameter);
    if key == "pm10" {
      assert Upper(key) == UpperChars('p') + Upper("m10");
    }
  }

  // ---------------------------------------------------------------------
  // Nearest configured city.
  // ---------------------------------------------------------------------

  /**
   * `_find_closest_city`: the scan is seeded with the first city's name,
   * so an empty configuration raises (`None`).
   */
  function ClosestCity(cities: seq<Geo.City>, lat: real, lon: real): (r: Option<string>)
    ensures r.Some? <==> cities != []
    ensures r.Some? ==> exists c | c in cities :: c.name == r.value
  {
    if cities == [] then None else Some(Geo.ClosestName(cities, lat, lon, cities[0].name))
  }

  /** The configured city whose coordinates are given is the one found. */
  lemma {:induction false} DefaultCitiesFoundAtTheirCoordinates(i: int)
    requires 0 <= i < |DefaultCities|
    ensures ClosestCity(DefaultCities, DefaultCities[i].lat, DefaultCities[i].lon) == Some(DefaultCities[i].name)
  {
    assert Geo.Isolated(DefaultCities, i);
    Geo.ExactCoordinatesFindEntry(DefaultCities, i);
  }

  // ---------------------------------------------------------------------
  // Rows and outcomes.
  // ---------------------------------------------------------------------

  /** A measurement as the table stores it. */
  datatype Row = Row(city: string, parameter: string, value: real, unit: string, date: Timestamp, source: string)

  /**
   * What an ingest function returns (`success`, `records`, whether `error`
   * is set; the message text is not modelled) and the rows it committed.
   */
  datatype Outcome = Outcome(success: bool, records: int, failed: bool)
  datatype Ingested = Ingested(outcome: Outcome, rows: seq<Row>)

  /** `value * factor`: numbers and booleans multiply, anything else raises. */
  function Numeric(v: Value): (r: Option<real>)
    ensures v.VNum? ==> r == Some(v.x)
    ensures r.Some? <==> v.VNum? || v.VBool?
  {
    match v
    case VNum(x) => Some(x)
    case VBool(b) => Some(if b then 1.0 else 0.0)
    case _ => None
  }

  // ---------------------------------------------------------------------
  // OpenAQ.
  // ---------------------------------------------------------------------

  /**
   * Whether the loop body gets past its guard: a value that is not `None`
   * and a truthy parameter, unit and `date.utc`.
   */
  predicate OpenAqGuard(m: Record) {
    match OpenAqClient.UtcField(m)
    case None => false
    case Some(date) =>
      Get(m, "value", VNone) != VNone && Truthy(Get(m, "parameter", VNone))
      && Truthy(Get(m, "unit", VNone)) && Truthy(date)
  }

  /**
   * The row the OpenAQ loop builds from one item, up to the constructor
   * call; `None` when the item is skipped or something before the
   * constructor raises: an item that is not a dictionary, a `date` that is
   * not one, a parameter or unit that is not a string, a value that cannot
   * be multiplied, a date that does not parse, a `location` that is not a
   * dictionary.
   */
  function OpenAqFields(item: Value, city: string, px: Parsers): (r: Option<Row>)
    ensures r.Some? ==> item.VDict? && OpenAqGuard(item.fields)
    ensures r.Some? ==> && r.value.city == city
                        && r.value.source == "openaq"
                        && r.value.unit == DataProcessor.CanonicalUnit
                        && item.fields["parameter"].VStr?
                        && r.value.parameter == NormalizeParameter(item.fields["parameter"].s)
  {
    if !item.VDict? then None
    else
      var m := item.fields;
      match OpenAqClient.UtcField(m)
      case None => None
      case Some(date) =>
        var value := Get(m, "value", VNone);
        var parameter := Get(m, "parameter", VNone);
        var unit := Get(m, "unit", VNone);
        var location := Get(m, "location", VDict(map[]));
        if !OpenAqGuard(m) then None
        else if !parameter.VStr? || !unit.VStr? then None
        else match Numeric(value)
          case None => None
          case Some(x) =>
            var p := NormalizeParameter(parameter.s);
            var normalized := NormalizeUnits(x, unit.s, p);
            if !date.VStr? then None
            else match ParseIsoUtc(date.s, px)
              case None => None
              case Some(t) =>
                if !location.VDict? then None
                else Some(Row(city, p, normalized.0, normalized.1, t, "openaq"))
  }

  /** The row stored for one item: the constructor must accept the keywords. */
  function OpenAqRow(item: Value, city: string, px: Parsers, keywords: set<string>): (r: Option<Row>)
    ensures r.Some? <==> OpenAqFields(item, city, px).Some? && Constructs(MeasurementColumns, keywords)
  {
    if Constructs(MeasurementColumns, keywords) then OpenAqFields(item, city, px) else None
  }

  /** A well-formed item yields the row of its normalised reading. */
  lemma {:induction false} OpenAqWellFormedItem(
    m: Record, city: string, px: Parsers, parameter: string, unit: string, x: real, s: string, t: Timestamp)
    requires Get(m, "value", VNone) == VNum(x)
    requires Get(m, "parameter", VNone) == VStr(parameter) && parameter != ""
    requires Get(m, "unit", VNone) == VStr(unit) && unit != ""
    requires OpenAqClient.UtcField(m) == Some(VStr(s)) && s != ""
    requires ParseIsoUtc(s, px) == Some(t)
    requires Get(m, "location", VDict(map[])).VDict?
    ensures var p := NormalizeParameter(parameter);
            OpenAqRow(VDict(m), city, px, ColumnKeywords)
            == Some(Row(city, p, NormalizeUnits(x, unit, p).0, DataProcessor.CanonicalUnit, t, "openaq"))
    ensures OpenAqRow(VDict(m), city, px, IngestKeywords) == None
  {
    ConstructorVerdicts();
    assert OpenAqGuard(m);
  }

  /** The rows one response's items yield, in order. */
  function ItemRows(items: seq<Value>, city: string, px: Parsers, keywords: set<string>): (r: seq<Row>)
    ensures |r| <= |items|
    ensures forall w | w in r :: w.city == city && w.source == "openaq" && w.unit == DataProcessor.CanonicalUnit
  {
    if items == [] then []
    else
      var rest := ItemRows(items[1..], city, px, keywords);
      match OpenAqRow(items[0], city, px, keywords)
      case None => rest
      case Some(w) => [w] + rest
  }

  /**
   * The rows of every configured city, city after city. A failed request,
   * or a body without a `results` list, contributes nothing.
   */
  function OpenAqRows(cities: seq<Geo.City>, fetch: string -> Option<Value>, px: Parsers, keywords: set<string>): (r: seq<Row>)
    ensures forall w | w in r :: w.source == "openaq" && w.unit == DataProcessor.CanonicalUnit
  {
    if cities == [] then []
    else
      ItemRows(OpenAqClient.ResultItems(fetch(cities[0].name)), cities[0].name, px, keywords)
      + OpenAqRows(cities[1..], fetch, px, keywords)
  }

  /** Each stored row names one of the configured cities. */
  lemma {:induction false} OpenAqRowsConfiguredCity(
    cities: seq<Geo.City>, fetch: string -> Option<Value>, px: Parsers, keywords: set<string>, w: Row)
    requires w in OpenAqRows(cities, fetch, px, keywords)
    ensures exists c | c in cities :: c.name == w.city
  {
    var head := ItemRows(OpenAqClient.ResultItems(fetch(cities[0].name)), cities[0].name, px, keywords);
    if w in head {
      assert cities[0] in cities;
    } else {
      OpenAqRowsConfiguredCity(cities[1..], fetch, px, keywords, w);
      var c :| c in cities[1..] && c.name == w.city;
      assert c in cities;
    }
  }

  /** `ingest_openaq_data`: per-city and per-item errors are skipped, so it always succeeds. */
  function IngestOpenAq(cities: seq<Geo.City>, fetch: string -> Option<Value>, px: Parsers, keywords: set<string>): (r: Ingested)
    ensures r.outcome == Outcome(true, |r.rows|, false)
    ensures forall w | w in r.rows :: w.source == "openaq" && w.unit == DataProcessor.CanonicalUnit
  {
    var rows := OpenAqRows(cities, fetch, px, keywords);
    Ingested(Outcome(true, |rows|, false), rows)
  }

  /** With the keywords as written every item's constructor raises: nothing is stored. */
  lemma {:induction false} ItemRowsAsWritten(items: seq<Value>, city: string, px: Parsers)
    ensures ItemRows(items, city, px, IngestKeywords) == []
  {
    ConstructorVerdicts();
    if items != [] {
      ItemRowsAsWritten(items[1..], city, px);
    }
  }

  lemma {:induction false} OpenAqAsWrittenStoresNothing(cities: seq<Geo.City>, fetch: string -> Option<Value>, px: Parsers)
    ensures IngestOpenAq(cities, fetch, px, IngestKeywords) == Ingested(Outcome(true, 0, false), [])
  {
    if cities != [] {
      ItemRowsAsWritten(OpenAqClient.ResultItems(fetch(cities[0].name)), cities[0].name, px);
      OpenAqAsWrittenStoresNothing(cities[1..], fetch, px);
    }
  }

  /** With the table's own column names, exactly the items that get past every step are stored. */
  lemma {:induction false} ItemRowsCorrected(items: seq<Value>, city: string, px: Parsers)
    ensures |ItemRows(items, city, px, ColumnKeywords)| == |Filter((v: Value) => OpenAqFields(v, city, px).Some?, items)|
  {
    ConstructorVerdicts();
    if items != [] {
      ItemRowsCorrected(items[1..], city, px);
    }
  }

  // ---------------------------------------------------------------------
  // TOLNet.
  // ---------------------------------------------------------------------

  const TolnetUnit: string := "molecules/cm\U{B3}"

  /** Why the per-pair loop of a dataset stopped: it ran out of pairs, or a pair raised. */
  datatype PairsOutcome = PairsOutcome(rows: seq<Row>, aborted: bool)

  /** Whether a `(value, timestamp)` pair passes the loop's guard. */
  predicate PairGuard(value: Value, stamp: Value) {
    value != VNone && Truthy(stamp)
  }

  /**
   * The row a guarded pair yields up to the constructor call, or `None`
   * when `float(value)` or the timestamp parse raises.
   */
  function PairFields(value: Value, stamp: Value, city: string, px: Parsers): (r: Option<Row>)
    ensures r.Some? ==> r.value == Row(city, "O3", r.value.value, TolnetUnit, r.value.date, "tolnet")
  {
    match ToFloat(value, px)
    case None => None
    case Some(x) =>
      if !stamp.VStr? then None
      else match ParseIsoUtc(stamp.s, px)
        case None => None
        case Some(t) => Some(Row(city, "O3", x, TolnetUnit, t, "tolnet"))
  }

  /**
   * The loop over `zip(o3_values, timestamps)`: guarded pairs are stored,
   * the others skipped, and the first pair that raises ends the dataset,
   * keeping the rows already added.
   */
  function PairRows(values: seq<Value>, stamps: seq<Value>, city: string, px: Parsers, keywords: set<string>): (r: PairsOutcome)
    ensures |r.rows| <= |values| && |r.rows| <= |stamps|
    ensures forall w | w in r.rows :: w.city == city && w.parameter == "O3" && w.unit == TolnetUnit && w.source == "tolnet"
  {
    if values == [] || stamps == [] then PairsOutcome([], false)
    else if !PairGuard(values[0], stamps[0]) then PairRows(values[1..], stamps[1..], city, px, keywords)
    else match PairFields(values[0], stamps[0], city, px)
      case None => PairsOutcome([], true)
      case Some(w) =>
        if !Constructs(MeasurementColumns, keywords) then PairsOutcome([], true)
        else
          var rest := PairRows(values[1..], stamps[1..], city, px, keywords);
          PairsOutcome([w] + rest.rows, rest.aborted)
  }

  /** Whether the pair at position `i` is one the loop stores or skips without raising. */
  predicate PairFine(values: seq<Value>, stamps: seq<Value>, city: string, px: Parsers, i: int)
    requires 0 <= i < |values| && i < |stamps|
  {
    !PairGuard(values[i], stamps[i]) || PairFields(values[i], stamps[i], city, px).Some?
  }

  /** The number of guarded pairs among the first `min(|values|, |stamps|)`. */
  function GuardedPairs(values: seq<Value>, stamps: seq<Value>): nat {
    if values == [] || stamps == [] then 0
    else (if PairGuard(values[0], stamps[0]) then 1 else 0) + GuardedPairs(values[1..], stamps[1..])
  }

  /**
   * With the table's own column names and no pair that raises, every
   * guarded pair is stored and the loop runs to the end.
   */
  lemma {:induction false} PairRowsCorrected(values: seq<Value>, stamps: seq<Value>, city: string, px: Parsers)
    requires forall i :: 0 <= i < |values| && i < |stamps| ==> PairFine(values, stamps, city, px, i)
    ensures var r := PairRows(values, stamps, city, px, ColumnKeywords);
            !r.aborted && |r.rows| == GuardedPairs(values, stamps)
  {
    ConstructorVerdicts();
    if values != [] && stamps != [] {
      assert PairFine(values, stamps, city, px, 0);
      forall i | 0 <= i < |values[1..]| && i < |stamps[1..]|
        ensures PairFine(values[1..], stamps[1..], city, px, i)
      {
        assert PairFine(values, stamps, city, px, i + 1);
      }
      PairRowsCorrected(values[1..], stamps[1..], city, px);
    }
  }

  /** With the keywords as written the first guarded pair raises, so no row survives. */
  lemma {:induction false} PairRowsAsWritten(values: seq<Value>, stamps: seq<Value>, city: string, px: Parsers)
    ensures PairRows(values, stamps, city, px, IngestKeywords).rows == []
  {
    ConstructorVerdicts();
    if values != [] && stamps != [] && !PairGuard(values[0], stamps[0]) {
      PairRowsAsWritten(values[1..], stamps[1..], city, px);
    }
  }

  /** A coordinate as the distance formula reads it: `dataset.get('latitude', 0)`. */
  function Coordinate(dataset: Record, key: string): Option<real> {
    Numeric(Get(dataset, key, VNum(0.0)))
  }

  /**
   * The rows of one dataset listed by TOLNet; the dataset itself must be a
   * dictionary (`Err` otherwise: its `.get` raises before `dataset_id` is
   * set). A falsy id, a failed request, a body without both series, a
   * coordinate that is not a number or an empty city list yield nothing;
   * series that are not lists are read as empty.
   */
  function DatasetRows(
    dataset: Value, fetch: Value -> Option<Value>, cities: seq<Geo.City>, px: Parsers, keywords: set<string>): (r: Result<seq<Row>, string>)
    ensures !dataset.VDict? <==> r.Err?
    ensures r.Ok? ==> forall w | w in r.value :: w.parameter == "O3" && w.unit == TolnetUnit && w.source == "tolnet"
                                                 && exists c | c in cities :: c.name == w.city
  {
    if !dataset.VDict? then Err("dataset is not a dictionary")
    else
      var id := Get(dataset.fields, "id", VNone);
      if !Truthy(id) then Ok([])
      else match fetch(id)
        case None => Ok([])
        case Some(data) =>
          if !(data.VDict? && "O3_Number_Density" in data.fields && "timestamps" in data.fields) then Ok([])
          else match (Coordinate(dataset.fields, "latitude"), Coordinate(dataset.fields, "longitude"))
            case (Some(lat), Some(lon)) =>
              (match ClosestCity(cities, lat, lon)
               case None => Ok([])
               case Some(city) =>
                 var values := data.fields["O3_Number_Density"];
                 var stamps := data.fields["timestamps"];
                 if values.VList? && stamps.VList? then
                   Ok(PairRows(values.items, stamps.items, city, px, keywords).rows)
                 else Ok([]))
            case _ => Ok([])
  }

  /**
   * The loop over the first datasets. `bound` says whether `dataset_id`
   * has been assigned: a dataset that is not a dictionary is skipped once
   * it has, but before that the handler's own reference to `dataset_id`
   * raises and ends the whole ingest (`None`).
   */
  function DatasetsRows(
    datasets: seq<Value>, bound: bool, fetch: Value -> Option<Value>, cities: seq<Geo.City>, px: Parsers, keywords: set<string>): (r: Option<seq<Row>>)
    ensures r.Some? ==> forall w | w in r.value :: w.parameter == "O3" && w.unit == TolnetUnit && w.source == "tolnet"
                                                   && exists c | c in cities :: c.name == w.city
    ensures r.None? <==> !bound && datasets != [] && !datasets[0].VDict?
  {
    if datasets == [] then Some([])
    else match DatasetRows(datasets[0], fetch, cities, px, keywords)
      case Err(_) =>
        if !bound then None else DatasetsRows(datasets[1..], bound, fetch, cities, px, keywords)
      case Ok(rows) =>
        match DatasetsRows(datasets[1..], true, fetch, cities, px, keywords)
        case None => None
        case Some(rest) => Some(rows + rest)
  }

  /**
   * `ingest_tolnet_data`: `listing` is the body of the dataset list. A
   * failed request, a body that is not a list or a string (neither `len`
   * nor slicing applies), or a fatal dataset fails the whole ingest.
   */
  function IngestTolnet(
    listing: Option<Value>, fetch: Value -> Option<Value>, cities: seq<Geo.City>, px: Parsers, keywords: set<string>): (r: Ingested)
    ensures r.outcome.success == !r.outcome.failed
    ensures r.outcome.records == |r.rows|
    ensures listing.None? ==> r == Ingested(Outcome(false, 0, true), [])
    ensures forall w | w in r.rows :: w.parameter == "O3" && w.unit == TolnetUnit && w.source == "tolnet"
  {
    var datasets :=
      match listing
      case Some(VList(items)) => Some(if |items| <= 10 then items else items[..10])
      case Some(VStr(s)) => Some(seq(|s|, k requires 0 <= k < |s| => VStr([s[k]])))
      case _ => None;
    match datasets
    case None => Ingested(Outcome(false, 0, true), [])
    case Some(ds) =>
      match DatasetsRows(ds, false, fetch, cities, px, keywords)
      case None => Ingested(Outcome(false, 0, true), [])
      case Some(rows) => Ingested(Outcome(true, |rows|, false), rows)
  }

  /** At most the first ten datasets are read: the rest of the listing plays no part. */
  lemma {:induction false} TolnetReadsTenDatasets(
    items: seq<Value>, extra: seq<Value>, fetch: Value -> Option<Value>, cities: seq<Geo.City>, px: Parsers, keywords: set<string>)
    requires |items| == 10
    ensures IngestTolnet(Some(VList(items + extra)), fetch, cities, px, keywords)
            == IngestTolnet(Some(VList(items)), fetch, cities, px, keywords)
  {
    if extra == [] {
      assert items + extra == items;
    } else {
      assert (items + extra)[..10] == items;
    }
  }

  /** With the keywords as written no dataset yields a row. */
  lemma {:induction false} DatasetsAsWritten(
    datasets: seq<Value>, bound: bool, fetch: Value -> Option<Value>, cities: seq<Geo.City>, px: Parsers)
    ensures var r := DatasetsRows(datasets, bound, fetch, cities, px, IngestKeywords);
            r.Some? ==> r.value == []
  {
    if datasets != [] {
      var d := datasets[0];
      if d.VDict? {
        var id := Get(d.fields, "id", VNone);
        if Truthy(id) && fetch(id).Some? {
          var data := fetch(id).value;
          if data.VDict? && "O3_Number_Density" in data.fields && "timestamps" in data.fields {
            var lat, lon := Coordinate(d.fields, "latitude"), Coordinate(d.fields, "longitude");
            if lat.Some? && lon.Some? && cities != [] {
              var values := data.fields["O3_Number_Density"];
              var stamps := data.fields["timestamps"];
              if values.VList? && stamps.VList? {
                PairRowsAsWritten(values.items, stamps.items, ClosestCity(cities, lat.value, lon.value).value, px);
              }
            }
          }
        }
        DatasetsAsWritten(datasets[1..], true, fetch, cities, px);
      } else {
        DatasetsAsWritten(datasets[1..], bound, fetch, cities, px);
      }
    }
  }

  lemma {:induction false} TolnetAsWrittenStoresNothing(
    listing: Option<Value>, fetch: Value -> Option<Value>, cities: seq<Geo.City>, px: Parsers)
    ensures IngestTolnet(listing, fetch, cities, px, IngestKeywords).rows == []
    ensures IngestTolnet(listing, fetch, cities, px, IngestKeywords).outcome.records == 0
  {
    match listing
    case Some(VList(items)) =>
      DatasetsAsWritten(if |items| <= 10 then items else items[..10], false, fetch, cities, px);
    case Some(VStr(s)) =>
      DatasetsAsWritten(seq(|s|, k requires 0 <= k < |s| => VStr([s[k]])), false, fetch, cities, px);
    case _ =>
  }

  // ---------------------------------------------------------------------
  // Weather.
  // ---------------------------------------------------------------------

  const Day := 86400

  /** The dates `_fetch_daymet_data` steps through: from `start` while not past `end`, a day at a time. */
  function DaymetDates(start: int, end: int): (r: seq<int>)
    ensures |r| == if start <= end then (end - start) / Day + 1 else 0
    ensures forall i :: 0 <= i < |r| ==> r[i] == start + Day * i
    decreases end - start
  {
    if start > end then [] else [start] + DaymetDates(start + Day, end)
  }

  /** A stored weather record (the simulated readings themselves are not modelled). */
  datatype WeatherRow = WeatherRow(city: string, date: Timestamp, source: string, latitude: real, longitude: real)

  /**
   * Whether `json.dumps` accepts a value: strings, numbers, booleans and
   * `None`, and lists and string-keyed dictionaries of those. A `datetime`
   * (or any other object) makes it raise `TypeError`.
   */
  predicate JsonEncodable(v: Value)
    decreases v
  {
    match v
    case VNone => true
    case VStr(_) => true
    case VNum(_) => true
    case VBool(_) => true
    case VDate(_) => false
    case VOther => false
    case VList(items) => forall k :: 0 <= k < |items| ==> JsonEncodable(items[k])
    case VDict(fields) => forall key | key in fields :: JsonEncodable(fields[key])
  }

  /** `json.dumps(record, default=str)`: every value encodes, a `datetime` as its text. */
  predicate EncodableWithDefault(v: Value) {
    true
  }

  /**
   * The record `_fetch_daymet_data` builds for a day: the simulated readings
   * `readings(date)`, with the day's `datetime` under `datetime_utc`.
   */
  function DaymetRecord(date: int, readings: int -> Record): (r: Record)
    ensures "datetime_utc" in r && r["datetime_utc"] == VDate(Timestamp(date, false))
  {
    readings(date)["datetime_utc" := VDate(Timestamp(date, false))]
  }

  /**
   * The rows one city adds: each day's record is stored in turn until
   * `json.dumps(record)` (judged by `dumps`) raises while the `Weather(...)`
   * arguments are evaluated; the per-city handler catches that and the
   * loop moves on to the next city.
   */
  function CityWeather(c: Geo.City, dates: seq<int>, readings: int -> Record, dumps: Value -> bool): (r: seq<WeatherRow>)
    ensures |r| <= |dates|
    ensures forall i :: 0 <= i < |r| ==> r[i] == WeatherRow(c.name, Timestamp(dates[i], false), "daymet", c.lat, c.lon)
  {
    if dates == [] || !dumps(VDict(DaymetRecord(dates[0], readings))) then []
    else [WeatherRow(c.name, Timestamp(dates[0], false), "daymet", c.lat, c.lon)] + CityWeather(c, dates[1..], readings, dumps)
  }

  function WeatherRows(cities: seq<Geo.City>, dates: seq<int>, readings: int -> Record, dumps: Value -> bool): (r: seq<WeatherRow>)
    ensures |r| <= |cities| * |dates|
  {
    if cities == [] then []
    else CityWeather(cities[0], dates, readings, dumps) + WeatherRows(cities[1..], dates, readings, dumps)
  }

  /**
   * `ingest_weather_data` at clock reading `now`: every configured city
   * over the days of the window; `readings` are the simulated values and
   * `dumps` says which records `json.dumps` accepts.
   */
  function IngestWeather(cities: seq<Geo.City>, now: int, daysBack: int, readings: int -> Record, dumps: Value -> bool): (r: (Outcome, seq<WeatherRow>))
    ensures r.0 == Outcome(true, |r.1|, false)
    ensures |r.1| <= |cities| * |DaymetDates(now - daysBack * Day, now)|
  {
    var rows := WeatherRows(cities, DaymetDates(now - daysBack * Day, now), readings, dumps);
    (Outcome(true, |rows|, false), rows)
  }

  /** The record of any day holds a `datetime`, so `json.dumps` refuses it. */
  lemma {:induction false} DaymetRecordNotEncodable(date: int, readings: int -> Record)
    ensures !JsonEncodable(VDict(DaymetRecord(date, readings)))
  {
    var r := DaymetRecord(date, readings);
    assert !JsonEncodable(r["datetime_utc"]);
  }

  /** As written, each city's first record raises, so the weather ingest succeeds with nothing stored. */
  lemma {:induction false} WeatherAsWrittenStoresNothing(cities: seq<Geo.City>, now: int, daysBack: int, readings: int -> Record)
    ensures IngestWeather(cities, now, daysBack, readings, JsonEncodable) == (Outcome(true, 0, false), [])
  {
    var dates := DaymetDates(now - daysBack * Day, now);
    if dates != [] {
      DaymetRecordNotEncodable(dates[0], readings);
    }
    WeatherRowsNothing(cities, dates, readings);
  }

  lemma {:induction false} WeatherRowsNothing(cities: seq<Geo.City>, dates: seq<int>, readings: int -> Record)
    requires dates != [] ==> !JsonEncodable(VDict(DaymetRecord(dates[0], readings)))
    ensures WeatherRows(cities, dates, readings, JsonEncodable) == []
  {
    if cities != [] {
      WeatherRowsNothing(cities[1..], dates, readings);
    }
  }

  lemma {:induction false} CityWeatherAll(c: Geo.City, dates: seq<int>, readings: int -> Record)
    ensures |CityWeather(c, dates, readings, EncodableWithDefault)| == |dates|
  {
    if dates != [] {
      CityWeatherAll(c, dates[1..], readings);
    }
  }

  lemma {:induction false} WeatherRowsAll(cities: seq<Geo.City>, dates: seq<int>, readings: int -> Record)
    ensures |WeatherRows(cities, dates, readings, EncodableWithDefault)| == |cities| * |dates|
  {
    if cities != [] {
      CityWeatherAll(cities[0], dates, readings);
      WeatherRowsAll(cities[1..], dates, readings);
      assert |cities| * |dates| == |dates| + (|cities| - 1) * |dates|;
    }
  }

  /**
   * With records that encode, every configured city gets one record per day
   * of the window, which holds `days_back + 1` days, both ends included; a
   * negative look-back holds none.
   */
  lemma {:induction false} WeatherCount(cities: seq<Geo.City>, now: int, daysBack: int, readings: int -> Record)
    ensures IngestWeather(cities, now, daysBack, readings, EncodableWithDefault).0.records
            == |cities| * (if daysBack >= 0 then daysBack + 1 else 0)
  {
    var start := now - daysBack * Day;
    WeatherRowsAll(cities, DaymetDates(start, now), readings);
    if daysBack >= 0 {
      assert (now - start) / Day == daysBack;
    }
  }

  // ---------------------------------------------------------------------
  // All sources.
  // ---------------------------------------------------------------------

  /** What the outside world answers during one run. */
  datatype World = World(
    tolnetListing: Option<Value>,
    tolnetData: Value -> Option<Value>,
    openaqData: string -> Option<Value>,
    now: int,
    readings: int -> Record,
    px: Parsers)

  datatype Summary = Summary(totalRecords: int, tolnet: Outcome, openaq: Outcome, weather: Outcome)

  const NotRun := Outcome(false, 0, false)

  /**
   * `ingest_all_data`: each enabled source's outcome, `NotRun` for a
   * disabled one, and the sum of their record counts. The sources catch
   * their own errors, so the manager's handlers never run.
   */
  function IngestAll(config: Config, daysBack: Option<int>, world: World, keywords: set<string>, dumps: Value -> bool): (r: Summary)
    ensures r.totalRecords == r.tolnet.records + r.openaq.records + r.weather.records
    ensures !config.tolnetEnabled ==> r.tolnet == NotRun
    ensures !config.openaqEnabled ==> r.openaq == NotRun
    ensures !config.weatherEnabled ==> r.weather == NotRun
  {
    var days := if daysBack.Some? then daysBack.value else config.daysBack;
    var tolnet := if config.tolnetEnabled
                  then IngestTolnet(world.tolnetListing, world.tolnetData, config.cities, world.px, keywords).outcome
                  else NotRun;
    var openaq := if config.openaqEnabled
                  then IngestOpenAq(config.cities, world.openaqData, world.px, keywords).outcome
                  else NotRun;
    var weather := if config.weatherEnabled then IngestWeather(config.cities, world.now, days, world.readings, dumps).0 else NotRun;
    Summary(tolnet.records + openaq.records + weather.records, tolnet, openaq, weather)
  }

  /**
   * As written, no source stores anything: the OpenAQ and TOLNet rows are
   * refused by the `Measurement` constructor and every weather record by
   * `json.dumps`, so the run reports 0 records whatever the APIs answer.
   */
  lemma {:induction false} AsWrittenTotalIsZero(config: Config, daysBack: Option<int>, world: World)
    ensures IngestAll(config, daysBack, world, IngestKeywords, JsonEncodable).totalRecords == 0
  {
    var days := if daysBack.Some? then daysBack.value else config.daysBack;
    TolnetAsWrittenStoresNothing(world.tolnetListing, world.tolnetData, config.cities, world.px);
    OpenAqAsWrittenStoresNothing(config.cities, world.openaqData, world.px);
    WeatherAsWrittenStoresNothing(config.cities, world.now, days, world.readings);
  }

  /** With encodable records, the built-in configuration stores 16 weather records per run: two cities, eight days each. */
  lemma {:induction false} DefaultRunWeather(world: World, keywords: set<string>)
    ensures IngestAll(DefaultConfig, None, world, keywords, EncodableWithDefault).weather.records == 16
  {
    WeatherCount(DefaultConfig.cities, world.now, DefaultConfig.daysBack, world.readings);
  }
}
