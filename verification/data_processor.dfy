/**
 * The measurement cleaner: a per-record validate / convert / normalise
 * pipeline over raw measurement dictionaries.
 *
 * Two orderings of the cleaner are kept as they are: the unit conversion
 * and the range check look up the parameter name as it arrived (only
 * trimmed), and the alias table is applied last; and a timestamp that
 * carries a UTC offset cannot be compared with the naive clock, which
 * raises, so such a record is dropped.
 */
module DataProcessor {
  import opened Wrappers
  import opened Text
  import opened Py
  import opened Seqs

  /** The canonical concentration unit, `µg/m³`. */
  const CanonicalUnit: string := "\U{B5}g/m\U{B3}"
  const TempoUnit: string := "mol/m\U{B2}"

  const OneYear := 365 * 86400
  const OneDay := 86400

  /** Plausible inclusive range per (canonical) parameter name, in µg/m³. */
  const ParameterRanges: map<string, (real, real)> := map[
    "PM2.5" := (0.0, 500.0),
    "O3" := (0.0, 500.0),
    "NO2" := (0.0, 500.0),
    "HCHO" := (0.0, 50.0)
  ]

  /** Direct factors to µg/m³; `None` marks units that need more than a factor. */
  const UnitConversions: map<string, Option<real>> := map[
    CanonicalUnit := Some(1.0),
    "ug/m3" := Some(1.0),
    "mg/m\U{B3}" := Some(1000.0),
    "mg/m3" := Some(1000.0),
    "ppm" := None,
    "ppb" := None,
    TempoUnit := None
  ]

  /** Molecular weights (g/mol) for ppm/ppb conversion; the PM2.5 entry is a placeholder. */
  const MolecularWeights: map<string, real> := map[
    "PM2.5" := 1.0,
    "O3" := 48.0,
    "NO2" := 46.0,
    "HCHO" := 30.0
  ]

  /** Aliases, keyed by the lower-cased trimmed name. */
  const ParameterAliases: map<string, string> := map[
    "pm25" := "PM2.5",
    "pm2.5" := "PM2.5",
    "pm2_5" := "PM2.5",
    "o3" := "O3",
    "ozone" := "O3",
    "no2" := "NO2",
    "nitrogen_dioxide" := "NO2",
    "hcho" := "HCHO",
    "formaldehyde" := "HCHO",
    "h2co" := "HCHO"
  ]

  /** Units whose conversion yields the canonical unit. */
  predicate MassUnit(u: string) {
    u in UnitConversions && UnitConversions[u].Some?
  }

  /** A converted value, or `None` when the conversion failed, and the unit it is in. */
  datatype Converted = Converted(value: Option<real>, unit: string)

  /**
   * ppm/ppb to µg/m³ by molecular weight, looked up under the parameter
   * name exactly as given.
   */
  function ConvertPpmPpb(value: real, unit: string, parameter: string): (r: Converted)
    ensures r.value.Some? <==> parameter in MolecularWeights && (unit == "ppm" || unit == "ppb")
    ensures r.value.Some? ==> r.unit == CanonicalUnit
    ensures unit == "ppm" && parameter in MolecularWeights
            ==> r.value == Some(value * 1000.0 * MolecularWeights[parameter])
    ensures unit == "ppb" && parameter in MolecularWeights
            ==> r.value == Some(value * MolecularWeights[parameter])
  {
    if parameter !in MolecularWeights then Converted(None, unit)
    else if unit == "ppm" then Converted(Some(value * 1000.0 * MolecularWeights[parameter]), CanonicalUnit)
    else if unit == "ppb" then Converted(Some(value * 1.0 * MolecularWeights[parameter]), CanonicalUnit)
    else Converted(None, unit)
  }

  /** The unit as the converter looks it up: lower-cased, then trimmed. */
  function UnitKey(unit: string): string {
    Strip(Lower(unit))
  }

  /**
   * Conversion to µg/m³. It fails only for ppm/ppb without a molecular
   * weight; any unit that is neither a mass unit nor ppm/ppb keeps its value
   * and comes back lower-cased and trimmed.
   */
  function ConvertUnits(value: real, unit: string, parameter: string): (r: Converted)
    ensures r.value.None? ==> r.unit == UnitKey(unit)
    ensures r.unit != CanonicalUnit ==> r.unit == UnitKey(unit)
  {
    var u := UnitKey(unit);
    if u in UnitConversions && UnitConversions[u].Some? then
      Converted(Some(value * UnitConversions[u].value), CanonicalUnit)
    else if u == "ppm" || u == "ppb" then
      ConvertPpmPpb(value, u, parameter)
    else if u == TempoUnit || u == "mol/m2" then
      Converted(Some(value), u)
    else
      Converted(Some(value), u)
  }

  /** The ppm/ppb units, which need a molecular weight. */
  predicate MixingRatioUnit(u: string) {
    u == "ppm" || u == "ppb"
  }

  /**
   * What the converter does with each kind of unit: mass units are scaled
   * into µg/m³; ppm/ppb are converted when the parameter, as named, has a
   * molecular weight, and fail otherwise; every other unit passes through
   * with its value unchanged.
   */
  lemma {:induction false} ConvertUnitsCases(value: real, unit: string, parameter: string)
    ensures var u := UnitKey(unit);
            var r := ConvertUnits(value, unit, parameter);
            && (MassUnit(u) ==> r == Converted(Some(value * UnitConversions[u].value), CanonicalUnit))
            && (MixingRatioUnit(u) && parameter !in MolecularWeights ==> r.value.None?)
            && (u == "ppm" && parameter in MolecularWeights
                ==> r == Converted(Some(value * 1000.0 * MolecularWeights[parameter]), CanonicalUnit))
            && (u == "ppb" && parameter in MolecularWeights
                ==> r == Converted(Some(value * MolecularWeights[parameter]), CanonicalUnit))
            && (!MassUnit(u) && !MixingRatioUnit(u) ==> r == Converted(Some(value), u))
  {
    var u := UnitKey(unit);
    if MixingRatioUnit(u) {
      MixingRatioNotMass(u);
    }
  }

  /** ppm and ppb sit in the factor table without a factor. */
  lemma {:induction false} MixingRatioNotMass(u: string)
    requires MixingRatioUnit(u)
    ensures !MassUnit(u)
  {
    assert UnitConversions["ppm"] == None && UnitConversions["ppb"] == None;
  }

  /** The result is in µg/m³ exactly for mass units and convertible ppm/ppb readings. */
  lemma {:induction false} ConvertUnitsCanonicalIff(value: real, unit: string, parameter: string)
    ensures var u := UnitKey(unit);
            var r := ConvertUnits(value, unit, parameter);
            r.value.Some? && r.unit == CanonicalUnit
            <==> MassUnit(u) || (MixingRatioUnit(u) && parameter in MolecularWeights)
  {
    var u := UnitKey(unit);
    ConvertUnitsCases(value, unit, parameter);
    if !MassUnit(u) && !MixingRatioUnit(u) {
      assert u != CanonicalUnit by {
        CanonicalUnitIsMass();
      }
    }
  }

  /** Whether the value is plausible for the parameter; names outside the table always pass. */
  predicate ValidateValueRange(value: real, parameter: string) {
    parameter !in ParameterRanges
    || ParameterRanges[parameter].0 <= value <= ParameterRanges[parameter].1
  }

  /** The alias for the lower-cased trimmed name, or the name upper-cased. */
  function NormalizeParameterName(parameter: string): (r: string)
    ensures UnitKey(parameter) in ParameterAliases ==> r == ParameterAliases[UnitKey(parameter)] && r in ParameterRanges
    ensures UnitKey(parameter) !in ParameterAliases ==> r == Upper(parameter)
  {
    var key := Strip(Lower(parameter));
    if key in ParameterAliases then ParameterAliases[key] else Upper(parameter)
  }

  /** Why a record was dropped. */
  datatype DropReason =
    | NotText          // a text field is not a string (`.strip()` raises)
    | MissingField     // empty city, parameter or unit, or no value / date
    | NotFloat         // the value does not convert to float
    | BadDate          // unparsable string, or neither string nor datetime
    | OffsetAware      // comparing it with the naive clock raises
    | OutsideWindow    // before now - 365 days or after now + 1 day
    | NoConversion     // ppm/ppb without a molecular weight
    | OutOfRange       // outside the parameter's plausible range

  /** A cleaned measurement; `outlier` is set by outlier detection. */
  datatype Cleaned = Cleaned(
    city: string,
    parameter: string,
    value: real,
    unit: string,
    date: Timestamp,
    source: Value,
    original: Record,
    outlier: Option<bool>)

  /** `measurement.get(key, '').strip()`, failing when the field is not a string. */
  function TextField(m: Record, key: string): (r: Option<string>)
    ensures key !in m ==> r == Some("")
  {
    match Get(m, key, VStr(""))
    case VStr(s) => Some(Strip(s))
    case _ => None
  }

  /** The date of a record as a `datetime`, if it is one or parses as one. */
  function DateOf(v: Value, px: Parsers): Option<Timestamp> {
    match v
    case VStr(s) => ParseIsoUtc(s, px)
    case VDate(t) => Some(t)
    case _ => None
  }

  /** Whether the naive instant lies within `[now - 365 days, now + 1 day]`. */
  predicate InWindow(t: int, now: int) {
    now - OneYear <= t <= now + OneDay
  }

  /** The trimmed text fields of a record and its raw value and date. */
  datatype Fields = Fields(city: string, parameter: string, unit: string, raw: Value, date: Value)

  /** Whether a record has every required field, text fields being non-empty once trimmed. */
  predicate HasRequiredFields(m: Record) {
    && TextField(m, "city").Some? && TextField(m, "city").value != []
    && TextField(m, "parameter").Some? && TextField(m, "parameter").value != []
    && TextField(m, "unit").Some? && TextField(m, "unit").value != []
    && Get(m, "value", VNone) != VNone
    && Truthy(Get(m, "date_utc", VNone))
  }

  /** The field checks of the cleaner: trimming, then presence of every field. */
  function ExtractFields(m: Record): (r: Result<Fields, DropReason>)
    ensures r.Ok? <==> HasRequiredFields(m)
    ensures r.Ok? ==> r.value == Fields(TextField(m, "city").value, TextField(m, "parameter").value,
                                        TextField(m, "unit").value, Get(m, "value", VNone),
                                        Get(m, "date_utc", VNone))
  {
    var cityField, parameterField, unitField :=
      TextField(m, "city"), TextField(m, "parameter"), TextField(m, "unit");
    if cityField.None? || parameterField.None? || unitField.None? then Err(NotText)
    else
      var city, parameter, unit := cityField.value, parameterField.value, unitField.value;
      var raw := Get(m, "value", VNone);
      var date := Get(m, "date_utc", VNone);
      if city == [] || parameter == [] || raw == VNone || unit == [] || !Truthy(date) then
        Err(MissingField)
      else
        Ok(Fields(city, parameter, unit, raw, date))
  }

  /** The value as a float and the date as a naive `datetime` inside the window. */
  function ReadValueAndDate(f: Fields, now: int, px: Parsers): (r: Result<(real, Timestamp), DropReason>)
    ensures r.Ok? <==> && ToFloat(f.raw, px).Some? && DateOf(f.date, px).Some?
                       && !DateOf(f.date, px).value.aware
                       && InWindow(DateOf(f.date, px).value.seconds, now)
    ensures r.Ok? ==> r.value == (ToFloat(f.raw, px).value, DateOf(f.date, px).value)
    ensures DateOf(f.date, px).Some? && DateOf(f.date, px).value.aware && ToFloat(f.raw, px).Some?
            ==> r == Err(OffsetAware)
  {
    match ToFloat(f.raw, px)
    case None => Err(NotFloat)
    case Some(value) =>
      match DateOf(f.date, px)
      case None => Err(BadDate)
      case Some(t) =>
        if t.aware then Err(OffsetAware)
        else if !InWindow(t.seconds, now) then Err(OutsideWindow)
        else Ok((value, t))
  }

  /**
   * Unit conversion and range check, both keyed on the parameter as named in
   * the record; the alias table renames the parameter only afterwards.
   */
  function ConvertAndValidate(f: Fields, value: real): (r: Result<(string, real, string), DropReason>)
    ensures r.Ok? <==> && ConvertUnits(value, f.unit, f.parameter).value.Some?
                       && ValidateValueRange(ConvertUnits(value, f.unit, f.parameter).value.value, f.parameter)
    ensures r.Ok? ==> r.value == (NormalizeParameterName(f.parameter),
                                  ConvertUnits(value, f.unit, f.parameter).value.value,
                                  ConvertUnits(value, f.unit, f.parameter).unit)
  {
    var c := ConvertUnits(value, f.unit, f.parameter);
    if c.value.None? then Err(NoConversion)
    else if !ValidateValueRange(c.value.value, f.parameter) then Err(OutOfRange)
    else Ok((NormalizeParameterName(f.parameter), c.value.value, c.unit))
  }

  /**
   * One record through the cleaner: it survives only with non-empty trimmed
   * city, parameter and unit, a float value, a naive date inside the
   * window, a successful unit conversion and a plausible value for the
   * parameter as named in the record.
   */
  function CleanSingle(m: Record, now: int, px: Parsers): (r: Result<Cleaned, DropReason>)
    ensures r.Ok? <==> && ExtractFields(m).Ok?
                       && ReadValueAndDate(ExtractFields(m).value, now, px).Ok?
                       && ConvertAndValidate(ExtractFields(m).value,
                                             ReadValueAndDate(ExtractFields(m).value, now, px).value.0).Ok?
    ensures r.Ok? ==> && HasRequiredFields(m)
                      && DateOf(Get(m, "date_utc", VNone), px) == Some(r.value.date)
                      && !r.value.date.aware && InWindow(r.value.date.seconds, now)
                      && r.value.original == m && r.value.outlier == None
  {
    match ExtractFields(m)
    case Err(e) => Err(e)
    case Ok(f) =>
      match ReadValueAndDate(f, now, px)
      case Err(e) => Err(e)
      case Ok(vt) =>
        match ConvertAndValidate(f, vt.0)
        case Err(e) => Err(e)
        case Ok(pvu) =>
          Ok(Cleaned(f.city, pvu.0, pvu.1, pvu.2, vt.1, Get(m, "source", VStr("unknown")), m, None))
  }

  /**
   * What a kept record holds: the trimmed city, the parameter under its
   * normalised name with a value plausible for the name as it arrived, and
   * the value in µg/m³ or else in the lower-cased trimmed unit it came in.
   */
  lemma {:induction false} CleanSingleKeptFields(m: Record, now: int, px: Parsers)
    requires CleanSingle(m, now, px).Ok?
    ensures var c := CleanSingle(m, now, px).value;
            && c.city == TextField(m, "city").value && Trimmed(c.city)
            && c.parameter == NormalizeParameterName(TextField(m, "parameter").value)
            && ValidateValueRange(c.value, TextField(m, "parameter").value)
            && (c.unit == CanonicalUnit || c.unit == UnitKey(TextField(m, "unit").value))
  {
    var f := ExtractFields(m).value;
    var vt := ReadValueAndDate(f, now, px).value;
    CleanSingleStages(m, now, px, f);
    assert ConvertAndValidate(f, vt.0).Ok?;
  }

  /** `clean_measurements`: the records that survive, in input order. */
  function CleanMeasurements(ms: seq<Record>, now: int, px: Parsers): (r: seq<Cleaned>)
    ensures |r| <= |ms|
  {
    Oks(MapSeq((m: Record) => CleanSingle(m, now, px), ms))
  }

  /** A record is in the output exactly when some input record cleans to it. */
  lemma {:induction false} CleanMeasurementsKeepsExactlyAccepted(ms: seq<Record>, now: int, px: Parsers, c: Cleaned)
    ensures c in CleanMeasurements(ms, now, px)
            <==> exists i :: 0 <= i < |ms| && CleanSingle(ms[i], now, px) == Ok(c)
  {
    KeptImages((m: Record) => CleanSingle(m, now, px), ms, c);
  }

  /** Nothing is dropped exactly when every record cleans successfully. */
  lemma {:induction false} CleanMeasurementsDropsNothingIff(ms: seq<Record>, now: int, px: Parsers)
    ensures |CleanMeasurements(ms, now, px)| == |ms|
            <==> forall i :: 0 <= i < |ms| ==> CleanSingle(ms[i], now, px).Ok?
  {
    KeptAllImages((m: Record) => CleanSingle(m, now, px), ms);
  }

  /** Cleaning distributes over concatenation, so the output keeps the input order. */
  lemma {:induction false} CleanMeasurementsConcat(a: seq<Record>, b: seq<Record>, now: int, px: Parsers)
    ensures CleanMeasurements(a + b, now, px) == CleanMeasurements(a, now, px) + CleanMeasurements(b, now, px)
  {
    KeptImagesConcat((m: Record) => CleanSingle(m, now, px), a, b);
  }

  // ---------------------------------------------------------------------
  // Worked consequences of the table ordering.
  // ---------------------------------------------------------------------

  /** The lookup key of a lower-case name without surrounding whitespace is the name itself. */
  lemma {:induction false} UnitKeyOfPlainName(s: string)
    requires forall k :: 0 <= k < |s| ==> !('A' <= s[k] <= 'Z') && !('\U{C0}' <= s[k] <= '\U{DE}')
    requires s == [] || (!IsSpace(s[0]) && !IsSpace(s[|s| - 1]))
    ensures UnitKey(s) == s
  {
    LowerFixed(s);
    StripFixed(s);
  }

  /**
   * 50 ppb of ozone named `O3` becomes 2400 µg/m³, while the same reading
   * named `o3` finds no molecular weight and fails.
   */
  lemma {:induction false} PpbOzoneExample()
    ensures ConvertUnits(50.0, "ppb", "O3") == Converted(Some(2400.0), CanonicalUnit)
    ensures ConvertUnits(50.0, "ppb", "o3").value.None?
  {
    UnitKeyOfPlainName("ppb");
    assert !MassUnit("ppb") by {
      assert UnitConversions["ppb"] == None;
    }
  }

  /** A value already in µg/m³ converts to itself, so converting twice changes nothing. */
  lemma {:induction false} CanonicalConversionIdempotent(value: real, parameter: string)
    ensures ConvertUnits(value, CanonicalUnit, parameter) == Converted(Some(value), CanonicalUnit)
    ensures var once := ConvertUnits(value, CanonicalUnit, parameter);
            ConvertUnits(once.value.value, once.unit, parameter) == once
  {
    CanonicalUnitKey();
    CanonicalUnitIsMass();
    ConvertUnitsCases(value, CanonicalUnit, parameter);
  }

  /** The canonical unit is its own lookup key ... */
  lemma {:induction false} CanonicalUnitKey()
    ensures UnitKey(CanonicalUnit) == CanonicalUnit
  {
    UnitKeyOfPlainName(CanonicalUnit);
  }

  /** ... and a mass unit with factor 1. */
  lemma {:induction false} CanonicalUnitIsMass()
    ensures MassUnit(CanonicalUnit) && UnitConversions[CanonicalUnit] == Some(1.0)
  {
  }

  /** Whether record `m` holds the given city, parameter, value, unit and date fields. */
  predicate HasFields(m: Record, city: string, parameter: string, raw: Value, unit: string, date: Value) {
    && Get(m, "city", VStr("")) == VStr(city)
    && Get(m, "parameter", VStr("")) == VStr(parameter)
    && Get(m, "value", VNone) == raw
    && Get(m, "unit", VStr("")) == VStr(unit)
    && Get(m, "date_utc", VNone) == date
  }


  /** The cleaner's result, read off its three stages. */
  lemma {:induction false} CleanSingleStages(m: Record, now: int, px: Parsers, f: Fields)
    requires ExtractFields(m) == Ok(f)
    ensures ReadValueAndDate(f, now, px).Err? ==> CleanSingle(m, now, px) == Err(ReadValueAndDate(f, now, px).error)
    ensures ReadValueAndDate(f, now, px).Ok? && ConvertAndValidate(f, ReadValueAndDate(f, now, px).value.0).Err?
            ==> CleanSingle(m, now, px) == Err(ConvertAndValidate(f, ReadValueAndDate(f, now, px).value.0).error)
    ensures ReadValueAndDate(f, now, px).Ok? && ConvertAndValidate(f, ReadValueAndDate(f, now, px).value.0).Ok?
            ==> var vt := ReadValueAndDate(f, now, px).value;
                var pvu := ConvertAndValidate(f, vt.0).value;
                CleanSingle(m, now, px)
                == Ok(Cleaned(f.city, pvu.0, pvu.1, pvu.2, vt.1, Get(m, "source", VStr("unknown")), m, None))
  {
  }

  /** Whether a text is non-empty and has no white space at either end. */
  predicate Trimmed(s: string) {
    s != [] && !IsSpace(s[0]) && !IsSpace(s[|s| - 1])
  }

  /** A record whose text fields are already trimmed and non-empty passes the field checks unchanged. */
  lemma {:induction false} TrimmedRecordFields(m: Record, city: string, parameter: string, raw: Value,
                                               unit: string, date: Value)
    requires HasFields(m, city, parameter, raw, unit, date)
    requires Trimmed(city) && Trimmed(parameter) && Trimmed(unit)
    requires raw != VNone && Truthy(date)
    ensures ExtractFields(m) == Ok(Fields(city, parameter, unit, raw, date))
  {
    StripFixed(city);
    StripFixed(parameter);
    StripFixed(unit);
    assert TextField(m, "city") == Some(city);
    assert TextField(m, "parameter") == Some(parameter);
    assert TextField(m, "unit") == Some(unit);
  }

  /**
   * A record is kept when its text fields are already trimmed, its value is
   * a float, its date a naive instant inside the window, its unit spells
   * µg/m³ and its value is plausible for the parameter as named; the kept
   * measurement carries that value, in µg/m³, under the normalised name.
   */
  lemma {:induction false} CleanSingleKeeps(m: Record, city: string, parameter: string, raw: Value, x: real,
                                            unit: string, t: int, now: int, px: Parsers)
    requires HasFields(m, city, parameter, raw, unit, VDate(Timestamp(t, false)))
    requires Trimmed(city) && Trimmed(parameter) && Trimmed(unit)
    requires UnitKey(unit) == CanonicalUnit
    requires raw != VNone && ToFloat(raw, px) == Some(x)
    requires InWindow(t, now)
    requires ValidateValueRange(x, parameter)
    ensures var kept := CleanSingle(m, now, px);
            && kept.Ok? && kept.value.city == city && kept.value.value == x
            && kept.value.unit == CanonicalUnit && kept.value.date == Timestamp(t, false)
            && kept.value.parameter == NormalizeParameterName(parameter)
  {
    var d := VDate(Timestamp(t, false));
    CanonicalUnitIsMass();
    ConvertUnitsCases(x, unit, parameter);
    TrimmedRecordFields(m, city, parameter, raw, unit, d);
    var f := Fields(city, parameter, unit, raw, d);
    assert ReadValueAndDate(f, now, px) == Ok((x, Timestamp(t, false)));
    assert ConvertAndValidate(f, x) == Ok((NormalizeParameterName(parameter), x, CanonicalUnit));
    CleanSingleStages(m, now, px, f);
  }

  /**
   * The range check reads the parameter name as it arrived: a reading under
   * an alias that is not itself a key of the range table (`pm25`, say) is
   * kept whatever its value, and renamed to the canonical name (`PM2.5`)
   * whose range it may well exceed.
   */
  lemma {:induction false} AliasBypassesRangeCheck(m: Record, city: string, parameter: string, x: real,
                                                   unit: string, now: int, px: Parsers)
    requires HasFields(m, city, parameter, VNum(x), unit, VDate(Timestamp(now, false)))
    requires Trimmed(city) && Trimmed(parameter) && Trimmed(unit)
    requires UnitKey(unit) == CanonicalUnit
    requires UnitKey(parameter) in ParameterAliases && parameter !in ParameterRanges
    ensures var kept := CleanSingle(m, now, px);
            && kept.Ok? && kept.value.value == x
            && kept.value.parameter == ParameterAliases[UnitKey(parameter)]
            && kept.value.parameter in ParameterRanges
  {
    assert ToFloat(VNum(x), px) == Some(x);
    CleanSingleKeeps(m, city, parameter, VNum(x), x, unit, now, now, px);
  }

  /** `pm25` is such an alias: readings named so escape the PM2.5 range. */
  lemma {:induction false} Pm25Alias()
    ensures Trimmed("pm25")
    ensures UnitKey("pm25") in ParameterAliases && ParameterAliases[UnitKey("pm25")] == "PM2.5"
    ensures "pm25" !in ParameterRanges && "pm25" !in MolecularWeights
    ensures 9999.0 > ParameterRanges["PM2.5"].1
  {
    UnitKeyOfPlainName("pm25");
  }

  /** Under a name the range table knows, a reading outside its range is rejected. */
  lemma {:induction false} CanonicalNameRangeChecked(m: Record, city: string, parameter: string, x: real,
                                                     unit: string, now: int, px: Parsers)
    requires HasFields(m, city, parameter, VNum(x), unit, VDate(Timestamp(now, false)))
    requires Trimmed(city) && Trimmed(parameter) && Trimmed(unit)
    requires UnitKey(unit) == CanonicalUnit
    requires parameter in ParameterRanges
    requires x < ParameterRanges[parameter].0 || x > ParameterRanges[parameter].1
    ensures CleanSingle(m, now, px) == Err(OutOfRange)
  {
    var d := VDate(Timestamp(now, false));
    CanonicalUnitIsMass();
    ConvertUnitsCases(x, unit, parameter);
    assert InWindow(now, now);
    TrimmedRecordFields(m, city, parameter, VNum(x), unit, d);
    var g := Fields(city, parameter, unit, VNum(x), d);
    assert ReadValueAndDate(g, now, px) == Ok((x, Timestamp(now, false)));
    assert ConvertAndValidate(g, x) == Err(OutOfRange);
    CleanSingleStages(m, now, px, g);
  }

  /**
   * A record whose date is an ISO string that parses offset-aware, such as
   * "2024-01-01T00:00:00Z" (the `Z` becomes `+00:00`), is dropped: comparing
   * it with the naive clock raises. A typical OpenAQ record (city Austin,
   * parameter `pm25`, value "12.5", unit µg/m³, date
   * "2024-01-01T00:00:00Z") is dropped this way.
   */
  lemma {:induction false} AwareIsoDateDropped(m: Record, city: string, parameter: string, raw: Value,
                                               unit: string, iso: string, now: int, px: Parsers)
    requires HasFields(m, city, parameter, raw, unit, VStr(iso))
    requires Trimmed(city) && Trimmed(parameter) && Trimmed(unit)
    requires raw != VNone && ToFloat(raw, px).Some?
    requires iso != "" && ParseIsoUtc(iso, px).Some? && ParseIsoUtc(iso, px).value.aware
    ensures CleanSingle(m, now, px) == Err(OffsetAware)
  {
    TrimmedRecordFields(m, city, parameter, raw, unit, VStr(iso));
    var g := Fields(city, parameter, unit, raw, VStr(iso));
    assert ReadValueAndDate(g, now, px) == Err(OffsetAware);
    CleanSingleStages(m, now, px, g);
  }

  /** A record dated 366 days before the clock is dropped, whatever else it holds. */
  lemma {:induction false} StaleRecordDropped(m: Record, now: int, px: Parsers)
    requires DateOf(Get(m, "date_utc", VNone), px) == Some(Timestamp(now - 366 * OneDay, false))
    ensures CleanSingle(m, now, px).Err?
  {
  }
}
