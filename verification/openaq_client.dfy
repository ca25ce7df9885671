/**
 * The OpenAQ client's record shaping: validating one measurement of an
 * API response, the per-parameter collection loop, and the city listing.
 * The HTTP requests themselves are parameters: a response is the decoded
 * JSON body, or `None` when the request, its status or the decoding failed.
 */
module OpenAqClient {
  import opened Wrappers
  import opened Text
  import opened Py
  import Sorting
  import Seqs

  const DefaultParameters: seq<string> := ["PM2.5", "O3", "NO2"]

  /** Parameter names the client renames, keyed by the lower-cased name. */
  const ParameterMapping: map<string, string> := map[
    "pm25" := "PM2.5",
    "pm2.5" := "PM2.5",
    "o3" := "O3",
    "no2" := "NO2"
  ]

  /** The name a requested parameter is reported under. */
  function NormalizeParameter(parameter: string): (r: string)
    ensures Lower(parameter) in ParameterMapping ==> r == ParameterMapping[Lower(parameter)] && r in ParameterMapping.Values
    ensures Lower(parameter) !in ParameterMapping ==> r == Upper(parameter)
  {
    var key := Lower(parameter);
    if key in ParameterMapping then ParameterMapping[key] else Upper(parameter)
  }

  datatype OpenAqMeasurement = OpenAqMeasurement(
    city: string,
    parameter: string,
    value: real,
    unit: Value,
    date: Timestamp,
    source: string,
    raw: Record)

  /** `measurement.get('date', {}).get('utc')`; `None` when the date field is not a dictionary. */
  function UtcField(m: Record): Option<Value> {
    match Get(m, "date", VDict(map[]))
    case VDict(d) => Some(Get(d, "utc", VNone))
    case _ => None
  }

  /**
   * `_process_measurement`: the item must be a dictionary with a value, a
   * unit and a `date.utc`; the value must convert to a float and the date
   * must be a string that parses as ISO 8601 once `Z` is read as `+00:00`.
   * The parameter and city are the request's, the unit is kept as given.
   */
  function ProcessMeasurement(item: Value, city: string, parameter: string, px: Parsers): (r: Option<OpenAqMeasurement>)
    ensures !item.VDict? ==> r.None?
    ensures item.VDict? && (Get(item.fields, "value", VNone) == VNone || Get(item.fields, "unit", VNone) == VNone) ==> r.None?
    ensures item.VDict? && UtcField(item.fields) != Some(VNone) && !(UtcField(item.fields).Some? && UtcField(item.fields).value.VStr?) ==> r.None?
    ensures r.Some? ==> && item.VDict?
                        && r.value.raw == item.fields
                        && r.value.city == city
                        && r.value.source == "openaq"
                        && r.value.parameter == NormalizeParameter(parameter)
                        && r.value.unit == item.fields["unit"] && r.value.unit != VNone
                        && Some(r.value.value) == ToFloat(item.fields["value"], px)
                        && UtcField(item.fields).Some? && UtcField(item.fields).value.VStr?
                        && Some(r.value.date) == ParseIsoUtc(UtcField(item.fields).value.s, px)
  {
    if !item.VDict? then None
    else
      var m := item.fields;
      var value := Get(m, "value", VNone);
      var unit := Get(m, "unit", VNone);
      match UtcField(m)
      case None => None
      case Some(date) =>
        if value == VNone || unit == VNone || date == VNone then None
        else match ToFloat(value, px)
          case None => None
          case Some(x) =>
            if !date.VStr? then None
            else match ParseIsoUtc(date.s, px)
              case None => None
              case Some(t) => Some(OpenAqMeasurement(city, NormalizeParameter(parameter), x, unit, t, "openaq", m))
  }

  /** A well-formed item is always accepted. */
  lemma {:induction false} ProcessMeasurementAccepts(m: Record, city: string, parameter: string, px: Parsers, x: real, s: string, t: Timestamp)
    requires "value" in m && ToFloat(m["value"], px) == Some(x)
    requires "unit" in m && m["unit"] != VNone
    requires "date" in m && m["date"].VDict? && "utc" in m["date"].fields && m["date"].fields["utc"] == VStr(s)
    requires ParseIsoUtc(s, px) == Some(t)
    ensures ProcessMeasurement(VDict(m), city, parameter, px)
            == Some(OpenAqMeasurement(city, NormalizeParameter(parameter), x, m["unit"], t, "openaq", m))
  {
  }

  /** The items of a response that the loop visits: the `results` list of a JSON object. */
  function ResultItems(response: Option<Value>): (items: seq<Value>)
    ensures items != [] ==> response.Some? && response.value.VDict? && "results" in response.value.fields
  {
    match response
    case Some(VDict(d)) =>
      if "results" in d && d["results"].VList? then d["results"].items else []
    case _ => []
  }

  /** The accepted items of a list, in order. */
  function Accepted(items: seq<Value>, city: string, parameter: string, px: Parsers): (r: seq<OpenAqMeasurement>)
    ensures |r| <= |items|
    ensures forall a | a in r :: a.city == city && a.source == "openaq" && a.parameter == NormalizeParameter(parameter)
  {
    if items == [] then []
    else
      var rest := Accepted(items[1..], city, parameter, px);
      match ProcessMeasurement(items[0], city, parameter, px)
      case None => rest
      case Some(a) => [a] + rest
  }

  function ParametersOrDefault(parameters: Option<seq<string>>): (ps: seq<string>)
    ensures parameters.None? ==> ps == DefaultParameters
    ensures parameters.Some? ==> ps == parameters.value
  {
    if parameters.Some? then parameters.value else DefaultParameters
  }

  /**
   * `get_measurements` over a list of parameters: `fetch(p)` is the
   * response for parameter `p`. A failed request contributes nothing and
   * the loop goes on with the next parameter.
   */
  function Collect(city: string, parameters: seq<string>, fetch: string -> Option<Value>, px: Parsers): (r: seq<OpenAqMeasurement>)
    ensures forall a | a in r :: a.city == city && a.source == "openaq"
  {
    if parameters == [] then []
    else Accepted(ResultItems(fetch(parameters[0])), city, parameters[0], px) + Collect(city, parameters[1..], fetch, px)
  }

  /** Every collected record is reported under the name of one of the requested parameters. */
  lemma {:induction false} CollectParameters(city: string, parameters: seq<string>, fetch: string -> Option<Value>, px: Parsers, a: OpenAqMeasurement)
    requires a in Collect(city, parameters, fetch, px)
    ensures exists p | p in parameters :: a.parameter == NormalizeParameter(p)
  {
    var head := Accepted(ResultItems(fetch(parameters[0])), city, parameters[0], px);
    if a in head {
      assert parameters[0] in parameters;
    } else {
      CollectParameters(city, parameters[1..], fetch, px, a);
      var p :| p in parameters[1..] && a.parameter == NormalizeParameter(p);
      assert p in parameters;
    }
  }

  function GetMeasurements(city: string, parameters: Option<seq<string>>, fetch: string -> Option<Value>, px: Parsers): (r: seq<OpenAqMeasurement>)
    ensures forall a | a in r :: a.city == city && a.source == "openaq"
    ensures parameters.None? ==> r == Collect(city, DefaultParameters, fetch, px)
  {
    Collect(city, ParametersOrDefault(parameters), fetch, px)
  }

  /** Results come in parameter order: collecting over `a + b` is collecting over `a`, then over `b`. */
  lemma {:induction false} CollectConcat(city: string, a: seq<string>, b: seq<string>, fetch: string -> Option<Value>, px: Parsers)
    ensures Collect(city, a + b, fetch, px) == Collect(city, a, fetch, px) + Collect(city, b, fetch, px)
  {
    if a == [] {
      assert a + b == b;
    } else {
      assert (a + b)[1..] == a[1..] + b;
      CollectConcat(city, a[1..], b, fetch, px);
      var head := Accepted(ResultItems(fetch(a[0])), city, a[0], px);
      Seqs.ConcatAssociative(head, Collect(city, a[1..], fetch, px), Collect(city, b, fetch, px));
    }
  }

  /** A parameter whose request fails adds nothing and leaves the others' results as they are. */
  lemma {:induction false} FailedParameterSkipped(city: string, a: seq<string>, p: string, b: seq<string>, fetch: string -> Option<Value>, px: Parsers)
    requires fetch(p).None?
    ensures Collect(city, a + [p] + b, fetch, px) == Collect(city, a, fetch, px) + Collect(city, b, fetch, px)
  {
    assert a + [p] + b == a + ([p] + b);
    CollectConcat(city, a, [p] + b, fetch, px);
    assert ([p] + b)[1..] == b;
    assert Collect(city, [p] + b, fetch, px) == Collect(city, b, fetch, px);
  }

  /** At most one record per item of every response. */
  function ItemCount(parameters: seq<string>, fetch: string -> Option<Value>): nat {
    if parameters == [] then 0 else |ResultItems(fetch(parameters[0]))| + ItemCount(parameters[1..], fetch)
  }

  lemma {:induction false} CollectBounded(city: string, parameters: seq<string>, fetch: string -> Option<Value>, px: Parsers)
    ensures |Collect(city, parameters, fetch, px)| <= ItemCount(parameters, fetch)
  {
    if parameters != [] {
      CollectBounded(city, parameters[1..], fetch, px);
    }
  }

  // ---------------------------------------------------------------------
  // City listing.
  // ---------------------------------------------------------------------

  function StrLeFn(a: string, b: string): bool { StrLe(a, b) }

  lemma {:induction false} StrLeIsTotalPreorder()
    ensures Sorting.TotalPreorder(StrLeFn)
  {
    forall a, b ensures StrLeFn(a, b) || StrLeFn(b, a) {
      StrLeTotal(a, b);
    }
    forall a, b, c | StrLeFn(a, b) && StrLeFn(b, c) ensures StrLeFn(a, c) {
      StrLeTransitive(a, b, c);
    }
  }

  /**
   * The truthy `city` fields of the listed items, or `None` when reading
   * them raised: an item that is not a dictionary, or a name that is not a
   * string (which `sorted` cannot compare with the others).
   */
  function CityNames(items: seq<Value>): (r: Option<seq<string>>)
    ensures r.Some? ==> forall k :: 0 <= k < |r.value| ==> r.value[k] != ""
    ensures r.Some? ==> |r.value| <= |items|
  {
    if items == [] then Some([])
    else if !items[0].VDict? then None
    else
      var name := Get(items[0].fields, "city", VNone);
      if !Truthy(name) then CityNames(items[1..])
      else if !name.VStr? then None
      else match CityNames(items[1..])
        case None => None
        case Some(rest) => Some([name.s] + rest)
  }

  /** `get_available_cities`: the city names in ascending order, or nothing if anything failed. */
  function GetAvailableCities(response: Option<Value>): (r: seq<string>)
    ensures Sorting.SortedBy(StrLeFn, r)
    ensures forall k :: 0 <= k < |r| ==> r[k] != ""
    ensures CityNames(ResultItems(response)).None? ==> r == []
    ensures CityNames(ResultItems(response)).Some? ==> multiset(r) == multiset(CityNames(ResultItems(response)).value)
  {
    match CityNames(ResultItems(response))
    case None => []
    case Some(names) =>
      StrLeIsTotalPreorder();
      var sorted := Sorting.Sort(StrLeFn, names);
      assert forall k :: 0 <= k < |sorted| ==> sorted[k] != "" by {
        forall k | 0 <= k < |sorted| ensures sorted[k] != "" {
          assert sorted[k] in multiset(names);
          var j :| 0 <= j < |names| && names[j] == sorted[k];
        }
      }
      sorted
  }
}
