/**
 * Validation of the API's request and response bodies (pydantic models in
 * lax mode). A body arrives as a JSON object; each declared field is read
 * from it, coerced to the field's type and checked against the field's
 * bounds, a missing optional field takes its default, keys that are not
 * fields are ignored, and the failure of any field rejects the body with
 * one error per failing field, in declaration order.
 */
module Schemas {
  import opened Wrappers
  import opened Py
  import DataProcessor

  // ---------------------------------------------------------------------
  // Enumerations.
  // ---------------------------------------------------------------------

  /** `ParameterType`: the parameters the API forecasts and stores. */
  datatype Parameter = PM25 | O3 | NO2

  /** `SourceType`: where a measurement came from. */
  datatype Source = OpenAq | Tempo

  /** The string value of each parameter member. */
  function ParameterName(p: Parameter): string {
    match p
    case PM25 => "PM2.5"
    case O3 => "O3"
    case NO2 => "NO2"
  }

  /** The string value of each source member. */
  function SourceName(s: Source): string {
    match s
    case OpenAq => "openaq"
    case Tempo => "tempo"
  }

  /** `ParameterType(s)`: the member whose value is `s`, if any. */
  function ParameterOf(s: string): (r: Option<Parameter>)
    ensures r.Some? ==> ParameterName(r.value) == s
    ensures r.None? ==> forall p :: ParameterName(p) != s
  {
    if s == "PM2.5" then Some(PM25)
    else if s == "O3" then Some(O3)
    else if s == "NO2" then Some(NO2)
    else None
  }

  /** `SourceType(s)`: the member whose value is `s`, if any. */
  function SourceOf(s: string): (r: Option<Source>)
    ensures r.Some? ==> SourceName(r.value) == s
    ensures r.None? ==> forall t :: SourceName(t) != s
  {
    if s == "openaq" then Some(OpenAq)
    else if s == "tempo" then Some(Tempo)
    else None
  }

  // ---------------------------------------------------------------------
  // Validation errors.
  // ---------------------------------------------------------------------

  /** Why one field was refused. */
  datatype ErrorKind =
    | Missing        // a required field is absent
    | WrongType      // the input cannot be read as the field's type
    | NotAnInteger   // a number with a fractional part for an `int` field
    | NotAMember     // a string that is no member's value
    | TooShort       // fewer characters than `min_length`
    | TooLong        // more characters than `max_length`
    | TooSmall       // below `ge`
    | TooLarge       // above `le`

  /** One entry of a validation error: the field and what was wrong with it. */
  datatype FieldError = FieldError(field: string, kind: ErrorKind)

  /**
   * The runtime's string coercions, which the model does not re-implement:
   * an integer string, a float string and an ISO 8601 date-time string;
   * `None` stands for the string being refused.
   */
  datatype Coercions = Coercions(integer: string -> Option<int>, decimal: string -> Option<real>, datetime: string -> Option<Timestamp>)

  /** The error for `field` when its check failed, nothing otherwise. */
  function ErrorsOf<T>(field: string, r: Result<T, ErrorKind>): (errors: seq<FieldError>)
    ensures r.Ok? <==> errors == []
    ensures r.Err? ==> errors == [FieldError(field, r.error)]
  {
    if r.Ok? then [] else [FieldError(field, r.error)]
  }

  // ---------------------------------------------------------------------
  // Fields.
  // ---------------------------------------------------------------------

  /** A required `str` field with a length range; other types are not coerced to text. */
  function TextField(raw: Record, field: string, minLength: nat, maxLength: nat): (r: Result<string, ErrorKind>)
    ensures r.Ok? <==> field in raw && raw[field].VStr? && minLength <= |raw[field].s| <= maxLength
    ensures r.Ok? ==> r.value == raw[field].s
    ensures field !in raw ==> r == Err(Missing)
  {
    if field !in raw then Err(Missing)
    else match raw[field]
      case VStr(s) =>
        if |s| < minLength then Err(TooShort)
        else if |s| > maxLength then Err(TooLong)
        else Ok(s)
      case _ => Err(WrongType)
  }

  /** A `ParameterType` field; `default` is used when the field is absent. */
  function ParameterField(raw: Record, field: string, default: Option<Parameter>): (r: Result<Parameter, ErrorKind>)
    ensures field !in raw ==> r == (if default.Some? then Ok(default.value) else Err(Missing))
    ensures field in raw ==> (r.Ok? <==> raw[field].VStr? && ParameterOf(raw[field].s).Some?)
    ensures field in raw && r.Ok? ==> ParameterName(r.value) == raw[field].s
  {
    if field !in raw then (if default.Some? then Ok(default.value) else Err(Missing))
    else match raw[field]
      case VStr(s) => (match ParameterOf(s) case Some(p) => Ok(p) case None => Err(NotAMember))
      case _ => Err(NotAMember)
  }

  /** A `SourceType` field; `default` is used when the field is absent. */
  function SourceField(raw: Record, field: string, default: Source): (r: Result<Source, ErrorKind>)
    ensures field !in raw ==> r == Ok(default)
    ensures field in raw ==> (r.Ok? <==> raw[field].VStr? && SourceOf(raw[field].s).Some?)
    ensures field in raw && r.Ok? ==> SourceName(r.value) == raw[field].s
  {
    if field !in raw then Ok(default)
    else match raw[field]
      case VStr(s) => (match SourceOf(s) case Some(t) => Ok(t) case None => Err(NotAMember))
      case _ => Err(NotAMember)
  }

  /**
   * Lax `int` coercion: an integer-valued number, a boolean (as 0 or 1) or
   * an integer string; a number with a fractional part is refused.
   */
  function ToInt(v: Value, co: Coercions): (r: Result<int, ErrorKind>)
    ensures r.Ok? ==> v.VNum? || v.VBool? || v.VStr?
    ensures v.VNum? ==> (r.Ok? <==> v.x == v.x.Floor as real)
  {
    match v
    case VNum(x) => if x == x.Floor as real then Ok(x.Floor) else Err(NotAnInteger)
    case VBool(b) => Ok(if b then 1 else 0)
    case VStr(s) => (match co.integer(s) case Some(n) => Ok(n) case None => Err(WrongType))
    case _ => Err(WrongType)
  }

  /** An `int` field with `ge=lo, le=hi`; an absent field takes `default`, which is not checked. */
  function BoundedIntField(raw: Record, field: string, default: int, lo: int, hi: int, co: Coercions): (r: Result<int, ErrorKind>)
    ensures field !in raw ==> r == Ok(default)
    ensures field in raw && r.Ok? ==> lo <= r.value <= hi && ToInt(raw[field], co) == Ok(r.value)
    ensures field in raw && ToInt(raw[field], co).Ok? ==>
              var n := ToInt(raw[field], co).value;
              r == (if n < lo then Err(TooSmall) else if n > hi then Err(TooLarge) else Ok(n))
  {
    if field !in raw then Ok(default)
    else match ToInt(raw[field], co)
      case Err(e) => Err(e)
      case Ok(n) => if n < lo then Err(TooSmall) else if n > hi then Err(TooLarge) else Ok(n)
  }

  /** Lax `float` coercion: a number, a boolean or a float string. */
  function ToReal(v: Value, co: Coercions): (r: Option<real>)
    ensures v.VNum? ==> r == Some(v.x)
    ensures !(v.VNum? || v.VStr? || v.VBool?) ==> r == None
  {
    match v
    case VNum(x) => Some(x)
    case VBool(b) => Some(if b then 1.0 else 0.0)
    case VStr(s) => co.decimal(s)
    case _ => None
  }

  /** A required `float` field with `ge=0`. */
  function NonNegativeField(raw: Record, field: string, co: Coercions): (r: Result<real, ErrorKind>)
    ensures r.Ok? ==> r.value >= 0.0
    ensures r.Ok? <==> field in raw && ToReal(raw[field], co).Some? && ToReal(raw[field], co).value >= 0.0
    ensures r.Ok? ==> ToReal(raw[field], co) == Some(r.value)
  {
    if field !in raw then Err(Missing)
    else match ToReal(raw[field], co)
      case None => Err(WrongType)
      case Some(x) => if x < 0.0 then Err(TooSmall) else Ok(x)
  }

  /**
   * Lax `datetime` coercion: a date-time, an ISO 8601 string, or a number
   * of seconds since the Unix epoch (read as UTC).
   */
  function ToDateTime(v: Value, co: Coercions): (r: Option<Timestamp>)
    ensures v.VDate? ==> r == Some(v.t)
    ensures v.VNum? ==> r.Some? && r.value.aware && r.value.seconds as real <= v.x < r.value.seconds as real + 1.0
    ensures !(v.VDate? || v.VStr? || v.VNum?) ==> r == None
  {
    match v
    case VDate(t) => Some(t)
    case VStr(s) => co.datetime(s)
    case VNum(x) => Some(Timestamp(x.Floor, true))
    case _ => None
  }

  /** A required `datetime` field. */
  function DateTimeField(raw: Record, field: string, co: Coercions): (r: Result<Timestamp, ErrorKind>)
    ensures r.Ok? <==> field in raw && ToDateTime(raw[field], co).Some?
    ensures r.Ok? ==> ToDateTime(raw[field], co) == Some(r.value)
  {
    if field !in raw then Err(Missing)
    else match ToDateTime(raw[field], co)
      case None => Err(WrongType)
      case Some(t) => Ok(t)
  }

  /** A `str` field with a default and no bounds. */
  function TextWithDefault(raw: Record, field: string, default: string): (r: Result<string, ErrorKind>)
    ensures field !in raw ==> r == Ok(default)
    ensures field in raw ==> (r.Ok? <==> raw[field].VStr?)
  {
    if field !in raw then Ok(default)
    else match raw[field]
      case VStr(s) => Ok(s)
      case _ => Err(WrongType)
  }

  // ---------------------------------------------------------------------
  // Forecast requests.
  // ---------------------------------------------------------------------

  const MaxCityLength := 100
  const MaxUnitLength := 10
  const MaxHoursAhead := 168
  const DefaultHoursAhead := 24

  /** A validated `ForecastRequest`. */
  datatype ForecastRequest = ForecastRequest(city: string, parameter: Parameter, hoursAhead: int)

  function RequestCity(raw: Record): Result<string, ErrorKind> {
    TextField(raw, "city", 1, MaxCityLength)
  }

  function RequestParameter(raw: Record): Result<Parameter, ErrorKind> {
    ParameterField(raw, "parameter", Some(PM25))
  }

  function RequestHours(raw: Record, co: Coercions): Result<int, ErrorKind> {
    BoundedIntField(raw, "hours_ahead", DefaultHoursAhead, 1, MaxHoursAhead, co)
  }

  /** `ForecastRequest(**raw)`. */
  function ValidateForecastRequest(raw: Record, co: Coercions): (r: Result<ForecastRequest, seq<FieldError>>)
    ensures r.Ok? ==> 1 <= |r.value.city| <= MaxCityLength && 1 <= r.value.hoursAhead <= MaxHoursAhead
    ensures r.Err? ==> 1 <= |r.error| <= 3
  {
    var city := RequestCity(raw);
    var parameter := RequestParameter(raw);
    var hours := RequestHours(raw, co);
    if city.Ok? && parameter.Ok? && hours.Ok? then Ok(ForecastRequest(city.value, parameter.value, hours.value))
    else Err(ErrorsOf("city", city) + ErrorsOf("parameter", parameter) + ErrorsOf("hours_ahead", hours))
  }

  /**
   * A request is accepted exactly when each of its fields is, and a refused
   * request reports every failing field once, in declaration order.
   */
  lemma {:induction false} ForecastRequestAcceptedIff(raw: Record, co: Coercions)
    ensures var r := ValidateForecastRequest(raw, co);
            && (r.Ok? <==> RequestCity(raw).Ok? && RequestParameter(raw).Ok? && RequestHours(raw, co).Ok?)
            && (r.Ok? ==> r.value == ForecastRequest(RequestCity(raw).value, RequestParameter(raw).value, RequestHours(raw, co).value))
            && (r.Err? ==> r.error == ErrorsOf("city", RequestCity(raw)) + ErrorsOf("parameter", RequestParameter(raw))
                                      + ErrorsOf("hours_ahead", RequestHours(raw, co)))
  {
    var city, parameter, hours := RequestCity(raw), RequestParameter(raw), RequestHours(raw, co);
    assert ErrorsOf("city", city) == [] <==> city.Ok?;
    assert ErrorsOf("parameter", parameter) == [] <==> parameter.Ok?;
  }

  /**
   * A body holding only a valid city is accepted with the defaults: PM2.5
   * and 24 hours.
   */
  lemma {:induction false} ForecastRequestDefaults(city: string, co: Coercions)
    requires 1 <= |city| <= MaxCityLength
    ensures ValidateForecastRequest(map["city" := VStr(city)], co) == Ok(ForecastRequest(city, PM25, DefaultHoursAhead))
  {
    var raw := map["city" := VStr(city)];
    assert "parameter" !in raw && "hours_ahead" !in raw;
  }

  /**
   * An `hours_ahead` that reads as the integer `n` is accepted exactly when
   * `1 <= n <= 168`; a smaller one is too small and a larger one too large.
   */
  lemma {:induction false} HoursAheadAcceptedIff(raw: Record, co: Coercions, n: int)
    requires "hours_ahead" in raw && ToInt(raw["hours_ahead"], co) == Ok(n)
    ensures RequestHours(raw, co).Ok? <==> 1 <= n <= MaxHoursAhead
    ensures RequestHours(raw, co).Ok? ==> RequestHours(raw, co).value == n
    ensures n < 1 ==> FieldError("hours_ahead", TooSmall) in ValidateForecastRequest(raw, co).error
    ensures n > MaxHoursAhead ==> FieldError("hours_ahead", TooLarge) in ValidateForecastRequest(raw, co).error
  {
    ForecastRequestAcceptedIff(raw, co);
    var e := ErrorsOf("city", RequestCity(raw)) + ErrorsOf("parameter", RequestParameter(raw));
    if !(1 <= n <= MaxHoursAhead) {
      var last := ErrorsOf("hours_ahead", RequestHours(raw, co));
      assert last[0] == (e + last)[|e|];
    }
  }

  /**
   * Whatever a body holds, a parameter given as a string is accepted
   * exactly when it is PM2.5, O3 or NO2, spelled as those values.
   */
  lemma {:induction false} ParameterAcceptedIff(raw: Record, s: string)
    requires "parameter" in raw && raw["parameter"] == VStr(s)
    ensures RequestParameter(raw).Ok? <==> s == "PM2.5" || s == "O3" || s == "NO2"
  {
    if s == "PM2.5" || s == "O3" || s == "NO2" {
      assert ParameterOf(s).Some?;
    } else {
      assert ParameterOf(s) == None;
    }
  }

  /**
   * Of the canonical names the measurement cleaner produces, the API
   * accepts every one except HCHO, so formaldehyde cannot be forecast.
   */
  lemma {:induction false} CleanerParametersAccepted(name: string)
    requires name in DataProcessor.ParameterRanges
    ensures ParameterOf(name).Some? <==> name != "HCHO"
  {
    assert DataProcessor.ParameterRanges.Keys == {"PM2.5", "O3", "NO2", "HCHO"};
    if name == "HCHO" {
      assert ParameterOf(name) == None;
    }
  }

  /** Keys that are not fields of the request do not change its validation. */
  lemma {:induction false} ForecastRequestIgnoresExtraKeys(raw: Record, co: Coercions, key: string, v: Value)
    requires key != "city" && key != "parameter" && key != "hours_ahead"
    ensures ValidateForecastRequest(raw[key := v], co) == ValidateForecastRequest(raw, co)
  {
    var raw' := raw[key := v];
    assert ("city" in raw' <==> "city" in raw) && ("city" in raw ==> raw'["city"] == raw["city"]);
    assert ("parameter" in raw' <==> "parameter" in raw) && ("parameter" in raw ==> raw'["parameter"] == raw["parameter"]);
    assert ("hours_ahead" in raw' <==> "hours_ahead" in raw) && ("hours_ahead" in raw ==> raw'["hours_ahead"] == raw["hours_ahead"]);
    assert RequestCity(raw') == RequestCity(raw);
    assert RequestParameter(raw') == RequestParameter(raw);
    assert RequestHours(raw', co) == RequestHours(raw, co);
  }

  // ---------------------------------------------------------------------
  // Measurements.
  // ---------------------------------------------------------------------

  /** A validated `MeasurementCreate`. */
  datatype Measurement = Measurement(
    city: string, parameter: Parameter, value: real, unit: string, dateUtc: Timestamp, source: Source)

  /** The six field checks of a measurement, in declaration order. */
  datatype MeasurementChecks = MeasurementChecks(
    city: Result<string, ErrorKind>,
    parameter: Result<Parameter, ErrorKind>,
    value: Result<real, ErrorKind>,
    unit: Result<string, ErrorKind>,
    dateUtc: Result<Timestamp, ErrorKind>,
    source: Result<Source, ErrorKind>)
  {
    predicate AllOk() {
      city.Ok? && parameter.Ok? && value.Ok? && unit.Ok? && dateUtc.Ok? && source.Ok?
    }

    function Errors(): seq<FieldError> {
      ErrorsOf("city", city) + ErrorsOf("parameter", parameter) + ErrorsOf("value", value)
      + ErrorsOf("unit", unit) + ErrorsOf("date_utc", dateUtc) + ErrorsOf("source", source)
    }
  }

  function CheckMeasurement(raw: Record, co: Coercions): MeasurementChecks {
    MeasurementChecks(
      TextField(raw, "city", 1, MaxCityLength),
      ParameterField(raw, "parameter", None),
      NonNegativeField(raw, "value", co),
      TextField(raw, "unit", 1, MaxUnitLength),
      DateTimeField(raw, "date_utc", co),
      SourceField(raw, "source", OpenAq))
  }

  /** `MeasurementCreate(**raw)`. */
  function ValidateMeasurement(raw: Record, co: Coercions): (r: Result<Measurement, seq<FieldError>>)
    ensures r.Ok? ==> && 1 <= |r.value.city| <= MaxCityLength && r.value.value >= 0.0
                      && 1 <= |r.value.unit| <= MaxUnitLength
    ensures r.Ok? ==> "source" !in raw ==> r.value.source == OpenAq
    ensures r.Err? ==> 1 <= |r.error| <= 6
  {
    var c := CheckMeasurement(raw, co);
    if c.AllOk() then
      Ok(Measurement(c.city.value, c.parameter.value, c.value.value, c.unit.value, c.dateUtc.value, c.source.value))
    else Err(c.Errors())
  }

  /**
   * A measurement is accepted exactly when each of its six fields is, and
   * a refused one reports every failing field once, in declaration order.
   */
  lemma {:induction false} MeasurementAcceptedIff(raw: Record, co: Coercions)
    ensures var r := ValidateMeasurement(raw, co);
            var c := CheckMeasurement(raw, co);
            && (r.Ok? <==> c.AllOk())
            && (r.Err? ==> r.error == c.Errors())
  {
    var c := CheckMeasurement(raw, co);
    if !c.AllOk() {
      assert ErrorsOf("city", c.city) == [] <==> c.city.Ok?;
      assert |c.Errors()| >= 1;
    }
  }

  /** The body a cleaned record would be posted as. */
  function CleanedBody(m: DataProcessor.Cleaned): (raw: Record)
    ensures raw.Keys == {"city", "parameter", "value", "unit", "date_utc", "source"}
  {
    map["city" := VStr(m.city), "parameter" := VStr(m.parameter), "value" := VNum(m.value),
        "unit" := VStr(m.unit), "date_utc" := VDate(m.date), "source" := m.source]
  }

  /**
   * A cleaned record with a city of at most 100 characters, a value at
   * least zero and a unit of at most 10 characters passes the measurement
   * schema exactly when its parameter is not HCHO and its source is
   * "openaq" or "tempo"; the stored value and date are the record's.
   */
  lemma {:induction false} CleanedMeasurementAccepted(m: DataProcessor.Cleaned, co: Coercions)
    requires m.parameter in DataProcessor.ParameterRanges
    requires 1 <= |m.city| <= MaxCityLength && m.value >= 0.0 && 1 <= |m.unit| <= MaxUnitLength
    ensures var r := ValidateMeasurement(CleanedBody(m), co);
            && (r.Ok? <==> m.parameter != "HCHO" && m.source in {VStr("openaq"), VStr("tempo")})
            && (r.Ok? ==> r.value.value == m.value && r.value.dateUtc == m.date && ParameterName(r.value.parameter) == m.parameter)
  {
    var raw := CleanedBody(m);
    var c := CheckMeasurement(raw, co);
    CleanerParametersAccepted(m.parameter);
    assert c.city.Ok? && c.value.Ok? && c.unit.Ok? && c.dateUtc.Ok?;
    assert c.parameter.Ok? <==> m.parameter != "HCHO";
    assert c.source.Ok? <==> m.source in {VStr("openaq"), VStr("tempo")} by {
      if m.source.VStr? {
        assert m.source.s == "openaq" || m.source.s == "tempo" <==> SourceOf(m.source.s).Some?;
      }
    }
  }

  // ---------------------------------------------------------------------
  // Health responses.
  // ---------------------------------------------------------------------

  /** A validated `HealthResponse`. */
  datatype Health = Health(status: string, timestamp: Timestamp, version: string)

  /** The clock reading `datetime.utcnow()`: a naive date-time. */
  function UtcNow(now: int): (t: Timestamp)
    ensures t.seconds == now && !t.aware
  {
    Timestamp(now, false)
  }

  /** `HealthResponse(**raw)` at clock reading `now`: every field has a default. */
  function ValidateHealth(raw: Record, now: int, co: Coercions): (r: Result<Health, seq<FieldError>>)
    ensures r.Ok? && "status" !in raw ==> r.value.status == "ok"
    ensures r.Ok? && "version" !in raw ==> r.value.version == "1.0.0"
    ensures r.Ok? && "timestamp" !in raw ==> r.value.timestamp == Timestamp(now, false)
  {
    var status := TextWithDefault(raw, "status", "ok");
    var timestamp := if "timestamp" in raw then DateTimeField(raw, "timestamp", co) else Ok(UtcNow(now));
    var version := TextWithDefault(raw, "version", "1.0.0");
    if status.Ok? && timestamp.Ok? && version.Ok? then Ok(Health(status.value, timestamp.value, version.value))
    else Err(ErrorsOf("status", status) + ErrorsOf("timestamp", timestamp) + ErrorsOf("version", version))
  }

  /** The health check built with no arguments reports "ok", version "1.0.0" and the current time. */
  lemma {:induction false} HealthDefaults(now: int, co: Coercions)
    ensures ValidateHealth(map[], now, co) == Ok(Health("ok", Timestamp(now, false), "1.0.0"))
  {
    var raw: Record := map[];
    assert "status" !in raw && "timestamp" !in raw && "version" !in raw;
  }
}
