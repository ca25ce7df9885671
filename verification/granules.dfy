/**
 * The record shaping shared by the two TEMPO satellite readers: each
 * downloaded granule file is opened, and for every requested parameter the
 * file holds, every valid (non-NaN) grid cell becomes one measurement
 * placed at the nearest city of a fixed table.
 *
 * The two readers differ only in the city table, the unit label they
 * write and whether they keep a `raw_data` entry; `Shape` carries those.
 */
module Granules {
  import opened Wrappers
  import opened Py
  import opened Seqs
  import Geo

  /**
   * A valid cell of a parameter's grid: its coordinates, its value and its
   * time. `time` is `None` when converting the time value raised, which
   * skips that cell only.
   */
  datatype Cell = Cell(lat: real, lon: real, value: real, time: Option<Timestamp>)

  /** An opened granule file: the valid cells of each variable, in index order. */
  datatype Dataset = Dataset(variables: map<string, seq<Cell>>)

  /** How a reader labels its records. */
  datatype Shape = Shape(cities: seq<Geo.City>, unit: string, keepsRawData: bool)

  /** `raw_data`: the file a record came from and the parameter name before mapping. */
  datatype RawData = RawData(filePath: string, originalParameter: string)

  datatype Measurement = Measurement(
    city: string,
    parameter: string,
    value: real,
    unit: string,
    date: Timestamp,
    source: string,
    latitude: real,
    longitude: real,
    raw: Option<RawData>)

  /** What a download returns: the files, the measurements and their count, and the error if it failed. */
  datatype DownloadResult = DownloadResult(
    files: seq<string>,
    measurements: seq<Measurement>,
    recordsProcessed: int,
    error: Option<string>)

  /** The one rename the readers apply: `H2CO` is reported as `HCHO`. */
  const ParameterMapping: map<string, string> := map[
    "NO2" := "NO2",
    "O3" := "O3",
    "HCHO" := "HCHO",
    "H2CO" := "HCHO"
  ]

  function MapParameter(param: string): (r: string)
    ensures param == "H2CO" ==> r == "HCHO"
    ensures param != "H2CO" ==> r == param
  {
    if param in ParameterMapping then ParameterMapping[param] else param
  }

  /** Mapping a mapped name again changes nothing. */
  lemma {:induction false} MapParameterIdempotent(param: string)
    ensures MapParameter(MapParameter(param)) == MapParameter(param)
  {
  }

  /** The city a cell is attributed to; `Unknown` only for an empty table. */
  function CityOf(shape: Shape, lat: real, lon: real): string {
    Geo.ClosestName(shape.cities, lat, lon, "Unknown")
  }

  /** The measurement a cell yields, or `None` when its time could not be converted. */
  function CellRecord(shape: Shape, path: string, param: string, c: Cell): (r: Option<Measurement>)
    ensures r.Some? <==> c.time.Some?
  {
    match c.time
    case None => None
    case Some(t) =>
      Some(Measurement(
        CityOf(shape, c.lat, c.lon), MapParameter(param), c.value, shape.unit, t, "tempo", c.lat, c.lon,
        if shape.keepsRawData then Some(RawData(path, param)) else None))
  }

  /** What every record built from parameter `param` of file `path` looks like. */
  ghost predicate Shaped(shape: Shape, path: string, param: string, m: Measurement) {
    && m.source == "tempo"
    && m.unit == shape.unit
    && m.parameter == MapParameter(param)
    && m.city == CityOf(shape, m.latitude, m.longitude)
    && (m.raw.Some? <==> shape.keepsRawData)
    && (m.raw.Some? ==> m.raw.value == RawData(path, param))
  }

  function HasTime(c: Cell): bool {
    c.time.Some?
  }

  /** The records of one parameter's cells, in cell order. */
  function CellRecords(shape: Shape, path: string, param: string, cells: seq<Cell>): (r: seq<Measurement>)
    ensures |r| == |Filter(HasTime, cells)|
    ensures forall m | m in r :: Shaped(shape, path, param, m)
  {
    if cells == [] then []
    else
      var rest := CellRecords(shape, path, param, cells[1..]);
      match CellRecord(shape, path, param, cells[0])
      case None => rest
      case Some(m) => [m] + rest
  }

  /** Each cell with a time yields a record carrying that cell's coordinates, value and time. */
  lemma {:induction false} CellRecordsCoverCells(shape: Shape, path: string, param: string, cells: seq<Cell>, i: int)
    requires 0 <= i < |cells| && cells[i].time.Some?
    ensures exists m | m in CellRecords(shape, path, param, cells) ::
              m.latitude == cells[i].lat && m.longitude == cells[i].lon
              && m.value == cells[i].value && m.date == cells[i].time.value
  {
    var m := CellRecord(shape, path, param, cells[i]).value;
    if i == 0 {
      assert m in CellRecords(shape, path, param, cells);
    } else {
      CellRecordsCoverCells(shape, path, param, cells[1..], i - 1);
      var rest := CellRecords(shape, path, param, cells[1..]);
      var m' :| m' in rest && m'.latitude == cells[i].lat && m'.longitude == cells[i].lon
                && m'.value == cells[i].value && m'.date == cells[i].time.value;
      assert m' in CellRecords(shape, path, param, cells);
    }
  }

  /** The records of one requested parameter: none when the file lacks the variable. */
  function ParameterRecords(shape: Shape, path: string, ds: Dataset, param: string): (r: seq<Measurement>)
    ensures param !in ds.variables ==> r == []
    ensures forall m | m in r :: Shaped(shape, path, param, m)
  {
    if param in ds.variables then CellRecords(shape, path, param, ds.variables[param]) else []
  }

  /**
   * `_process_tempo_file`: the records of every requested parameter, in the
   * order requested. `None` stands for a file that could not be opened or
   * lacks its coordinate variables, which yields nothing.
   */
  function ProcessFile(shape: Shape, path: string, file: Option<Dataset>, parameters: seq<string>): (r: seq<Measurement>)
    ensures file.None? ==> r == []
    ensures forall m | m in r :: exists p | p in parameters :: Shaped(shape, path, p, m)
  {
    match file
    case None => []
    case Some(ds) =>
      if parameters == [] then []
      else
        var head := ParameterRecords(shape, path, ds, parameters[0]);
        var rest := ProcessFile(shape, path, file, parameters[1..]);
        assert forall m | m in rest :: exists p | p in parameters :: Shaped(shape, path, p, m) by {
          forall m | m in rest ensures exists p | p in parameters :: Shaped(shape, path, p, m) {
            var p :| p in parameters[1..] && Shaped(shape, path, p, m);
            assert p in parameters;
          }
        }
        assert forall m | m in head :: Shaped(shape, path, parameters[0], m);
        head + rest
  }

  /** How many records a file yields: the timed cells of each requested parameter it holds. */
  function ExpectedCount(ds: Dataset, parameters: seq<string>): nat {
    if parameters == [] then 0
    else
      (if parameters[0] in ds.variables then |Filter(HasTime, ds.variables[parameters[0]])| else 0)
      + ExpectedCount(ds, parameters[1..])
  }

  lemma {:induction false} ProcessFileCount(shape: Shape, path: string, ds: Dataset, parameters: seq<string>)
    ensures |ProcessFile(shape, path, Some(ds), parameters)| == ExpectedCount(ds, parameters)
  {
    if parameters != [] {
      ProcessFileCount(shape, path, ds, parameters[1..]);
    }
  }

  /** The files of a download, in order. */
  function Paths(files: seq<(string, Option<Dataset>)>): (ps: seq<string>)
    ensures |ps| == |files| && forall i :: 0 <= i < |files| ==> ps[i] == files[i].0
  {
    if files == [] then [] else [files[0].0] + Paths(files[1..])
  }

  /** The records of all files, file after file. */
  function ProcessFiles(shape: Shape, files: seq<(string, Option<Dataset>)>, parameters: seq<string>): (r: seq<Measurement>)
    ensures forall m | m in r :: exists i, p :: 0 <= i < |files| && p in parameters && Shaped(shape, files[i].0, p, m)
  {
    if files == [] then []
    else
      var head := ProcessFile(shape, files[0].0, files[0].1, parameters);
      var rest := ProcessFiles(shape, files[1..], parameters);
      assert forall m | m in rest :: exists i, p :: 0 <= i < |files| && p in parameters && Shaped(shape, files[i].0, p, m) by {
        forall m | m in rest
          ensures exists i, p :: 0 <= i < |files| && p in parameters && Shaped(shape, files[i].0, p, m)
        {
          var i, p :| 0 <= i < |files[1..]| && p in parameters && Shaped(shape, files[1..][i].0, p, m);
          assert files[1..][i] == files[i + 1];
        }
      }
      assert forall m | m in head :: exists p | p in parameters :: Shaped(shape, files[0].0, p, m);
      head + rest
  }

  /**
   * `download_tempo_data`: `download` is what fetching the granules gave,
   * the downloaded files with their contents, or the error it raised.
   */
  function Download(shape: Shape, download: Result<seq<(string, Option<Dataset>)>, string>, parameters: seq<string>): (r: DownloadResult)
    ensures r.recordsProcessed == |r.measurements|
    ensures download.Err? ==> r == DownloadResult([], [], 0, Some(download.error))
    ensures download.Ok? ==> r.error.None? && r.files == Paths(download.value)
    ensures forall m | m in r.measurements :: exists p | p in parameters :: m.source == "tempo" && m.unit == shape.unit && m.parameter == MapParameter(p)
  {
    match download
    case Err(e) => DownloadResult([], [], 0, Some(e))
    case Ok(files) =>
      var ms := ProcessFiles(shape, files, parameters);
      assert forall m | m in ms :: exists p | p in parameters :: m.source == "tempo" && m.unit == shape.unit && m.parameter == MapParameter(p) by {
        forall m | m in ms
          ensures exists p | p in parameters :: m.source == "tempo" && m.unit == shape.unit && m.parameter == MapParameter(p)
        {
          var i, p :| 0 <= i < |files| && p in parameters && Shaped(shape, files[i].0, p, m);
        }
      }
      DownloadResult(Paths(files), ms, |ms|, None)
  }
}
