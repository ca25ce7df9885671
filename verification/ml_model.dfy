/**
 * The air-quality forecaster: feature derivation over an hourly series
 * (calendar fields, lags, rolling means and differences, then `dropna`),
 * the data-sufficiency guards and chronological split of training, the
 * trained/loaded state, and the forecast built from one held feature row.
 *
 * The regressor is opaque: `fit` turns training rows into a predictor, and
 * a predictor maps one feature vector to a value. The clock, the database
 * query results and the model files on disk are parameters.
 */
module Forecaster {
  import opened Wrappers
  import Calendar
  import Stats
  import Sorting

  /** One stored measurement as the forecaster reads it: its instant (seconds) and value. */
  datatype Sample = Sample(date: int, value: real)

  /** Hours back of the lag features. */
  const Lags: seq<int> := [1, 2, 3, 6, 12, 24]
  /** Widths of the rolling means, in rows. */
  const Windows: seq<int> := [3, 6, 12, 24]
  /** The deepest look-back of any feature (`lag 24`, `rolling 24`, `diff 24`). */
  const Warmup := 24

  const MinTrainingRows := 100
  const MinPreparedRows := 50
  const MinRecentRows := 24
  /** Seconds in an hour of the forecast horizon. */
  const Hour := 3600

  /** Every lag and window reaches back at least one row and at most `Warmup` rows. */
  lemma {:induction false} LookBacks()
    ensures forall j :: 0 <= j < |Lags| ==> 1 <= Lags[j] <= Warmup
    ensures forall j :: 0 <= j < |Windows| ==> 1 <= Windows[j] <= Warmup
    ensures Lags[|Lags| - 1] == Warmup
  {
  }

  // ---------------------------------------------------------------------
  // The pandas column operations.
  // ---------------------------------------------------------------------

  /** `df['value'].shift(k)`: the value `k` rows earlier, missing for the first `k` rows. */
  function Shift(v: seq<real>, k: nat): (c: seq<Option<real>>)
    ensures |c| == |v|
  {
    seq(|v|, t requires 0 <= t < |v| => if t >= k then Some(v[t - k]) else None)
  }

  /** `df['value'].rolling(window=w).mean()`: missing until a full window is available. */
  function Rolling(v: seq<real>, w: nat): (c: seq<Option<real>>)
    requires w >= 1
    ensures |c| == |v|
  {
    seq(|v|, t requires 0 <= t < |v| => if t + 1 >= w then Some(Stats.Mean(v[t + 1 - w..t + 1])) else None)
  }

  /** `df['value'].diff(k)`: the change over `k` rows, missing for the first `k` rows. */
  function Diff(v: seq<real>, k: nat): (c: seq<Option<real>>)
    ensures |c| == |v|
  {
    seq(|v|, t requires 0 <= t < |v| => if t >= k then Some(v[t] - v[t - k]) else None)
  }

  // ---------------------------------------------------------------------
  // Feature preparation.
  // ---------------------------------------------------------------------

  /** A row of the frame before `dropna`: feature cells may be missing (NaN). */
  datatype FrameRow = FrameRow(
    date: int, value: real,
    hour: int, dayOfWeek: int, dayOfYear: int, month: int,
    lags: seq<Option<real>>, rolling: seq<Option<real>>,
    diff1: Option<real>, diff24: Option<real>)

  /** A prepared row: every feature present. `lags` follows `Lags`, `rolling` follows `Windows`. */
  datatype Row = Row(
    date: int, value: real,
    hour: int, dayOfWeek: int, dayOfYear: int, month: int,
    lags: seq<real>, rolling: seq<real>,
    diff1: real, diff24: real)

  function DateLe(a: Sample, b: Sample): bool { a.date <= b.date }

  lemma {:induction false} DateLeIsTotalPreorder()
    ensures Sorting.TotalPreorder(DateLe)
  {
  }

  /** `df.sort_values('date_utc')`. */
  function SortByDate(s: seq<Sample>): (r: seq<Sample>)
    ensures multiset(r) == multiset(s) && |r| == |s|
    ensures forall i, j :: 0 <= i < j < |r| ==> r[i].date <= r[j].date
  {
    DateLeIsTotalPreorder();
    var r := Sorting.Sort(DateLe, s);
    assert Sorting.SortedBy(DateLe, r);
    r
  }

  function Values(s: seq<Sample>): (v: seq<real>)
    ensures |v| == |s| && forall t :: 0 <= t < |s| ==> v[t] == s[t].value
  {
    seq(|s|, t requires 0 <= t < |s| => s[t].value)
  }

  /** The frame of `prepare_features` before `dropna`, over a date-ordered series. */
  function Frame(s: seq<Sample>): (f: seq<FrameRow>)
    ensures |f| == |s|
  {
    LookBacks();
    var v := Values(s);
    seq(|s|, t requires 0 <= t < |s| =>
      var d := s[t].date;
      FrameRow(
        d, v[t],
        Calendar.Hour(d), Calendar.Weekday(d), Calendar.DayOfYear(d), Calendar.Month(d),
        seq(|Lags|, j requires 0 <= j < |Lags| => Shift(v, Lags[j])[t]),
        seq(|Windows|, j requires 0 <= j < |Windows| => Rolling(v, Windows[j])[t]),
        Diff(v, 1)[t], Diff(v, Warmup)[t]))
  }

  /** A frame row without missing cells, which `dropna` keeps. */
  predicate Complete(r: FrameRow) {
    && (forall j :: 0 <= j < |r.lags| ==> r.lags[j].Some?)
    && (forall j :: 0 <= j < |r.rolling| ==> r.rolling[j].Some?)
    && r.diff1.Some? && r.diff24.Some?
  }

  function Known(r: FrameRow): Row
    requires Complete(r)
  {
    Row(r.date, r.value, r.hour, r.dayOfWeek, r.dayOfYear, r.month,
        seq(|r.lags|, j requires 0 <= j < |r.lags| => r.lags[j].value),
        seq(|r.rolling|, j requires 0 <= j < |r.rolling| => r.rolling[j].value),
        r.diff1.value, r.diff24.value)
  }

  /** `df.dropna()`: the complete rows, in order. */
  function DropNa(rows: seq<FrameRow>): (r: seq<Row>)
    ensures |r| <= |rows|
  {
    if rows == [] then []
    else (if Complete(rows[0]) then [Known(rows[0])] else []) + DropNa(rows[1..])
  }

  /** `prepare_features`. */
  function PrepareFeatures(samples: seq<Sample>): seq<Row> {
    DropNa(Frame(SortByDate(samples)))
  }

  /**
   * The row a feature set describes, defined directly on the series: the
   * calendar fields of its date, the values `Lags` rows back, the means of
   * the trailing `Windows`, and the changes over 1 and 24 rows.
   */
  function HistoryRow(s: seq<Sample>, t: int): Row
    requires Warmup <= t < |s|
  {
    LookBacks();
    var d := s[t].date;
    Row(d, s[t].value,
        Calendar.Hour(d), Calendar.Weekday(d), Calendar.DayOfYear(d), Calendar.Month(d),
        seq(|Lags|, j requires 0 <= j < |Lags| => s[t - Lags[j]].value),
        seq(|Windows|, j requires 0 <= j < |Windows| => Stats.Mean(Values(s)[t + 1 - Windows[j]..t + 1])),
        s[t].value - s[t - 1].value, s[t].value - s[t - Warmup].value)
  }

  /** A frame row is complete exactly when the deepest look-back reaches inside the series. */
  lemma {:induction false} FrameRowComplete(s: seq<Sample>, t: int)
    requires 0 <= t < |s|
    ensures Complete(Frame(s)[t]) <==> t >= Warmup
  {
    LookBacks();
    var r := Frame(s)[t];
    if t < Warmup {
      assert r.lags[|Lags| - 1] == Shift(Values(s), Warmup)[t];
    }
  }

  /** A complete frame row holds exactly the features of `HistoryRow`. */
  lemma {:induction false} FrameRowKnown(s: seq<Sample>, t: int)
    requires Warmup <= t < |s|
    ensures Complete(Frame(s)[t]) && Known(Frame(s)[t]) == HistoryRow(s, t)
  {
    FrameRowComplete(s, t);
    LookBacks();
    var r := Known(Frame(s)[t]);
    var h := HistoryRow(s, t);
    assert r.lags == h.lags;
    assert r.rolling == h.rolling;
  }

  /** Rows that are all incomplete are dropped. */
  lemma {:induction false} DropNaSkips(rows: seq<FrameRow>, k: int)
    requires 0 <= k <= |rows|
    requires forall t :: 0 <= t < k ==> !Complete(rows[t])
    ensures DropNa(rows) == DropNa(rows[k..])
  {
    if k > 0 {
      assert !Complete(rows[0]);
      DropNaSkips(rows[1..], k - 1);
      assert rows[1..][k - 1..] == rows[k..];
    }
  }

  /** Rows that are all complete are all kept. */
  lemma {:induction false} DropNaKeeps(rows: seq<FrameRow>)
    requires forall t :: 0 <= t < |rows| ==> Complete(rows[t])
    ensures |DropNa(rows)| == |rows|
    ensures forall i :: 0 <= i < |rows| ==> DropNa(rows)[i] == Known(rows[i])
  {
    if rows != [] {
      DropNaKeeps(rows[1..]);
      assert DropNa(rows) == [Known(rows[0])] + DropNa(rows[1..]);
    }
  }

  /**
   * `prepare_features` drops exactly the first `Warmup` rows in date order;
   * every remaining row carries the features `HistoryRow` defines.
   */
  lemma {:induction false} PreparedFeatures(samples: seq<Sample>)
    ensures var s := SortByDate(samples);
            var p := PrepareFeatures(samples);
            && |p| == (if |s| >= Warmup then |s| - Warmup else 0)
            && forall i :: 0 <= i < |p| ==> p[i] == HistoryRow(s, i + Warmup)
  {
    var s := SortByDate(samples);
    var f := Frame(s);
    var k := if |s| >= Warmup then Warmup else |s|;
    forall t | 0 <= t < k ensures !Complete(f[t]) {
      FrameRowComplete(s, t);
    }
    DropNaSkips(f, k);
    var rest := f[k..];
    forall i | 0 <= i < |rest| ensures Complete(rest[i]) && Known(rest[i]) == HistoryRow(s, i + Warmup) {
      FrameRowKnown(s, i + Warmup);
    }
    DropNaKeeps(rest);
  }

  /** Lag `k` of a prepared row is the value `k` rows earlier in date order, and the differences are the changes over 1 and 24 rows. */
  lemma {:induction false} LagIsEarlierValue(samples: seq<Sample>, i: int, j: int)
    requires 0 <= i < |PrepareFeatures(samples)| && 0 <= j < |Lags|
    ensures var s := SortByDate(samples);
            var r := PrepareFeatures(samples)[i];
            var t := i + Warmup;
            && t < |s| && |r.lags| == |Lags|
            && r.lags[j] == s[t - Lags[j]].value
            && r.value == s[t].value
            && r.diff1 == s[t].value - s[t - 1].value
            && r.diff24 == s[t].value - s[t - Warmup].value
  {
    PreparedFeatures(samples);
  }

  /** Row `i` of the prepared frame is `HistoryRow` at position `i + Warmup` of the date-ordered series. */
  lemma {:induction false} PreparedRow(samples: seq<Sample>, i: int)
    requires 0 <= i < |PrepareFeatures(samples)|
    ensures i + Warmup < |SortByDate(samples)|
    ensures PrepareFeatures(samples)[i] == HistoryRow(SortByDate(samples), i + Warmup)
  {
    PreparedFeatures(samples);
  }

  /** Rolling feature `j` of prepared row `i` is the mean of the trailing window of the date-ordered values. */
  lemma {:induction false} RollingIsWindowMean(samples: seq<Sample>, i: int, j: int)
    requires 0 <= i < |PrepareFeatures(samples)| && 0 <= j < |Windows|
    ensures var s := SortByDate(samples);
            var t := i + Warmup;
            && 1 <= Windows[j] <= Warmup && t < |s|
            && |PrepareFeatures(samples)[i].rolling| == |Windows|
            && PrepareFeatures(samples)[i].rolling[j] == Stats.Mean(Values(s)[t + 1 - Windows[j]..t + 1])
  {
    PreparedRow(samples, i);
    LookBacks();
  }

  /** Sorting keeps every value within bounds that hold for the input. */
  lemma {:induction false} SortKeepsBounds(samples: seq<Sample>, lo: real, hi: real)
    requires forall t :: 0 <= t < |samples| ==> lo <= samples[t].value <= hi
    ensures forall t :: 0 <= t < |samples| ==> lo <= Values(SortByDate(samples))[t] <= hi
  {
    var s := SortByDate(samples);
    forall t | 0 <= t < |s| ensures lo <= s[t].value <= hi {
      assert s[t] in multiset(samples);
      var m :| 0 <= m < |samples| && samples[m] == s[t];
    }
  }

  /** A rolling feature lies between any bounds on the values. */
  lemma {:induction false} RollingWithinBounds(samples: seq<Sample>, i: int, j: int, lo: real, hi: real)
    requires 0 <= i < |PrepareFeatures(samples)| && 0 <= j < |Windows|
    requires forall t :: 0 <= t < |samples| ==> lo <= samples[t].value <= hi
    ensures |PrepareFeatures(samples)[i].rolling| == |Windows|
    ensures lo <= PrepareFeatures(samples)[i].rolling[j] <= hi
  {
    RollingIsWindowMean(samples, i, j);
    SortKeepsBounds(samples, lo, hi);
    var v := Values(SortByDate(samples));
    var t := i + Warmup;
    var window := v[t + 1 - Windows[j]..t + 1];
    assert forall k :: 0 <= k < |window| ==> window[k] == v[t + 1 - Windows[j] + k];
    Stats.MeanWithin(window, lo, hi);
  }

  // ---------------------------------------------------------------------
  // Feature columns.
  // ---------------------------------------------------------------------

  /**
   * The frame's column names. `Lag(j)` is `value_lag_{Lags[j]}h` and
   * `Mean(j)` is `value_rolling_{Windows[j]}h`; `Other` is any name the
   * frame does not have.
   */
  datatype ColumnName =
    | DateUtc | ValueColumn | CityColumn | ParameterColumn
    | HourColumn | DayOfWeek | DayOfYear | MonthColumn
    | Lag(j: int) | Mean(j: int) | Diff1h | Diff24h
    | Other(name: string)

  /** The columns `prepare_features` starts from. */
  const InputColumns: seq<ColumnName> := [DateUtc, ValueColumn, CityColumn, ParameterColumn]

  /** The columns `prepare_features` adds, in the order it adds them. */
  const DerivedColumns: seq<ColumnName> := [
    HourColumn, DayOfWeek, DayOfYear, MonthColumn,
    Lag(0), Lag(1), Lag(2), Lag(3), Lag(4), Lag(5),
    Mean(0), Mean(1), Mean(2), Mean(3),
    Diff1h, Diff24h
  ]

  const FrameColumns: seq<ColumnName> := InputColumns + DerivedColumns

  /** `exclude_cols`: the input columns. */
  predicate Excluded(c: ColumnName) {
    c.DateUtc? || c.ValueColumn? || c.CityColumn? || c.ParameterColumn?
  }

  /** `[col for col in df.columns if col not in exclude_cols]`. */
  function FeatureColumnsOf(columns: seq<ColumnName>): (r: seq<ColumnName>)
    ensures |r| <= |columns|
  {
    if columns == [] then []
    else (if Excluded(columns[0]) then [] else [columns[0]]) + FeatureColumnsOf(columns[1..])
  }

  /** A name is a feature column exactly when it is a frame column and not excluded. */
  lemma {:induction false} FeatureColumnMembership(columns: seq<ColumnName>, c: ColumnName)
    ensures c in FeatureColumnsOf(columns) <==> c in columns && !Excluded(c)
  {
    if columns != [] {
      FeatureColumnMembership(columns[1..], c);
      assert columns == [columns[0]] + columns[1..];
    }
  }

  lemma {:induction false} FeatureColumnsConcat(a: seq<ColumnName>, b: seq<ColumnName>)
    ensures FeatureColumnsOf(a + b) == FeatureColumnsOf(a) + FeatureColumnsOf(b)
  {
    if a != [] {
      assert (a + b)[1..] == a[1..] + b;
      FeatureColumnsConcat(a[1..], b);
    } else {
      assert a + b == b;
    }
  }

  lemma {:induction false} NoneExcluded(columns: seq<ColumnName>)
    requires forall k :: 0 <= k < |columns| ==> !Excluded(columns[k])
    ensures FeatureColumnsOf(columns) == columns
  {
    if columns != [] {
      NoneExcluded(columns[1..]);
      assert columns == [columns[0]] + columns[1..];
    }
  }

  lemma {:induction false} AllExcluded(columns: seq<ColumnName>)
    requires forall k :: 0 <= k < |columns| ==> Excluded(columns[k])
    ensures FeatureColumnsOf(columns) == []
  {
    if columns != [] {
      AllExcluded(columns[1..]);
    }
  }

  /** The columns the model is trained on: the sixteen derived ones, in the order they were added. */
  lemma {:induction false} FeatureColumnsAreTheDerivedOnes()
    ensures FeatureColumnsOf(FrameColumns) == DerivedColumns
  {
    KeepsDerived(InputColumns, DerivedColumns);
  }

  lemma {:induction false} KeepsDerived(input: seq<ColumnName>, derived: seq<ColumnName>)
    requires forall k :: 0 <= k < |input| ==> Excluded(input[k])
    requires forall k :: 0 <= k < |derived| ==> !Excluded(derived[k])
    ensures FeatureColumnsOf(input + derived) == derived
  {
    FeatureColumnsConcat(input, derived);
    AllExcluded(input);
    NoneExcluded(derived);
  }

  /** The number held in a column of a prepared row; `None` for a column that is not a number of the frame. */
  function Column(r: Row, c: ColumnName): (x: Option<real>)
    requires |r.lags| == |Lags| && |r.rolling| == |Windows|
    ensures x.Some? <==> Numeric(c)
  {
    match c
    case ValueColumn => Some(r.value)
    case HourColumn => Some(r.hour as real)
    case DayOfWeek => Some(r.dayOfWeek as real)
    case DayOfYear => Some(r.dayOfYear as real)
    case MonthColumn => Some(r.month as real)
    case Lag(j) => if 0 <= j < |Lags| then Some(r.lags[j]) else None
    case Mean(j) => if 0 <= j < |Windows| then Some(r.rolling[j]) else None
    case Diff1h => Some(r.diff1)
    case Diff24h => Some(r.diff24)
    case _ => None
  }

  /** The frame's numeric columns: the target and the sixteen features. */
  predicate Numeric(c: ColumnName) {
    || c.ValueColumn? || c.HourColumn? || c.DayOfWeek? || c.DayOfYear? || c.MonthColumn?
    || (c.Lag? && 0 <= c.j < |Lags|) || (c.Mean? && 0 <= c.j < |Windows|)
    || c.Diff1h? || c.Diff24h?
  }

  /** `row[columns]` as numbers; `None` when a column is missing or not numeric, which makes the regressor raise. */
  function Select(r: Row, columns: seq<ColumnName>): (x: Option<seq<real>>)
    requires |r.lags| == |Lags| && |r.rolling| == |Windows|
    ensures x.Some? <==> forall k :: 0 <= k < |columns| ==> Numeric(columns[k])
    ensures x.Some? ==> |x.value| == |columns| && forall k :: 0 <= k < |columns| ==> Some(x.value[k]) == Column(r, columns[k])
  {
    if forall k :: 0 <= k < |columns| ==> Numeric(columns[k])
    then Some(seq(|columns|, k requires 0 <= k < |columns| => Column(r, columns[k]).value))
    else None
  }

  /** The feature vector of a row in feature-column order. */
  function FeatureVector(r: Row): (x: seq<real>)
    requires |r.lags| == |Lags| && |r.rolling| == |Windows|
  {
    [r.hour as real, r.dayOfWeek as real, r.dayOfYear as real, r.month as real]
    + r.lags + r.rolling + [r.diff1, r.diff24]
  }

  /** Selecting the feature columns of a prepared row reads every feature once, in order. */
  lemma {:induction false} SelectFeatureColumns(r: Row)
    requires |r.lags| == |Lags| && |r.rolling| == |Windows|
    ensures Select(r, FeatureColumnsOf(FrameColumns)) == Some(FeatureVector(r))
  {
    FeatureColumnsAreTheDerivedOnes();
    var cols := DerivedColumns;
    var x := FeatureVector(r);
    assert |cols| == |x| == 16;
    assert forall k :: 0 <= k < 16 ==> Numeric(cols[k]);
    var sel := Select(r, cols);
    forall k | 0 <= k < 16 ensures sel.value[k] == x[k] {
      if k < 4 {
      } else if k < 10 {
        assert cols[k] == Lag(k - 4) && x[k] == r.lags[k - 4];
      } else if k < 14 {
        assert cols[k] == Mean(k - 10) && x[k] == r.rolling[k - 10];
      }
    }
    assert sel.value == x;
  }

  // ---------------------------------------------------------------------
  // The regressor, the model files and the forecaster's state.
  // ---------------------------------------------------------------------

  /** A fitted regressor: maps one feature vector to a predicted value. */
  datatype Regressor = Regressor(predict: seq<real> -> real)

  /** What a model file holds: the regressor and the columns it was trained on. */
  datatype Saved = Saved(model: Regressor, featureColumns: seq<ColumnName>)

  /**
   * The model files: a file name that is absent does not exist; a file
   * that exists but cannot be read maps to `None`.
   */
  type Store = map<string, Option<Saved>>

  /** `AirQualityForecaster`'s fields. */
  datatype State = State(model: Option<Regressor>, featureColumns: seq<ColumnName>, isTrained: bool)

  const Initial := State(None, [], false)

  /** A trained state always holds a model. */
  predicate Valid(st: State) {
    st.isTrained ==> st.model.Some?
  }

  /** `f"{city}_{parameter}_model.joblib"` in the model directory. */
  function ModelFile(city: string, parameter: string): string {
    city + "_" + parameter + "_model.joblib"
  }

  /** `load_model`: the new state and whether a model was loaded. */
  function LoadModel(st: State, store: Store, city: string, parameter: string): (r: (State, bool))
    ensures r.1 <==> ModelFile(city, parameter) in store && store[ModelFile(city, parameter)].Some?
    ensures r.1 ==> r.0 == State(Some(store[ModelFile(city, parameter)].value.model),
                                 store[ModelFile(city, parameter)].value.featureColumns, true)
    ensures !r.1 ==> r.0 == st
  {
    var file := ModelFile(city, parameter);
    if file !in store then (st, false)
    else match store[file]
      case None => (st, false)
      case Some(saved) => (State(Some(saved.model), saved.featureColumns, true), true)
  }

  // ---------------------------------------------------------------------
  // Training.
  // ---------------------------------------------------------------------

  datatype TrainError = InsufficientData(found: nat) | InsufficientPrepared(found: nat)

  datatype TrainReport = TrainReport(mae: real, trainingSamples: nat, testSamples: nat, featureColumns: seq<ColumnName>)

  /** Rows sklearn's `train_test_split(test_size=0.2)` puts in the test part: `ceil(0.2 n)`. */
  function TestSize(n: nat): (k: nat)
    ensures 5 * k >= n && 5 * (k - 1) < n
    ensures k <= n
  {
    (n + 4) / 5
  }

  /** `train_test_split(..., shuffle=False)`: the earlier rows train, the latest `TestSize` rows test. */
  function Split<T>(rows: seq<T>): (r: (seq<T>, seq<T>))
    ensures |r.1| == TestSize(|rows|) && |r.0| == |rows| - TestSize(|rows|)
    ensures r.0 + r.1 == rows
  {
    var cut := |rows| - TestSize(|rows|);
    assert rows[..cut] + rows[cut..] == rows;
    (rows[..cut], rows[cut..])
  }

  /** `mean_absolute_error`. */
  function MeanAbsoluteError(truth: seq<real>, predicted: seq<real>): (mae: real)
    requires |truth| == |predicted| && |truth| > 0
    ensures mae >= 0.0
  {
    var e := seq(|truth|, k requires 0 <= k < |truth| => Stats.Abs(truth[k] - predicted[k]));
    Stats.MeanWithin(e, 0.0, MaxOf(e));
    Stats.Mean(e)
  }

  /** An upper bound of a sequence of reals. */
  function MaxOf(s: seq<real>): (m: real)
    ensures forall k :: 0 <= k < |s| ==> s[k] <= m
  {
    if s == [] then 0.0
    else var rest := MaxOf(s[1..]); if s[0] > rest then s[0] else rest
  }

  function Targets(rows: seq<Row>): (y: seq<real>)
    ensures |y| == |rows| && forall k :: 0 <= k < |rows| ==> y[k] == rows[k].value
  {
    seq(|rows|, k requires 0 <= k < |rows| => rows[k].value)
  }

  predicate Shaped(rows: seq<Row>) {
    forall k :: 0 <= k < |rows| ==> |rows[k].lags| == |Lags| && |rows[k].rolling| == |Windows|
  }

  function Features(rows: seq<Row>): (x: seq<seq<real>>)
    requires Shaped(rows)
    ensures |x| == |rows| && forall k :: 0 <= k < |rows| ==> x[k] == FeatureVector(rows[k])
  {
    seq(|rows|, k requires 0 <= k < |rows| => FeatureVector(rows[k]))
  }

  lemma {:induction false} PreparedShaped(samples: seq<Sample>)
    ensures Shaped(PrepareFeatures(samples))
  {
    PreparedFeatures(samples);
  }

  /** The outcome of `train_model`: the new state, the model files, and the report or the error raised. */
  datatype Training = Training(state: State, store: Store, result: Result<TrainReport, TrainError>)

  /** The fitted model and its mean absolute error on the test rows. */
  function FitAndScore(train: seq<Row>, test: seq<Row>, fit: (seq<seq<real>>, seq<real>) -> Regressor): (r: (Regressor, real))
    requires Shaped(train) && Shaped(test) && |test| > 0
    ensures r.0 == fit(Features(train), Targets(train))
  {
    var model := fit(Features(train), Targets(train));
    var testX := Features(test);
    var predicted := seq(|testX|, k requires 0 <= k < |testX| => model.predict(testX[k]));
    (model, MeanAbsoluteError(Targets(test), predicted))
  }

  /**
   * `train_model` on the rows the 90-day query returned; `fit` is the
   * regressor's training on feature rows and targets.
   */
  function TrainModel(
    st: State, store: Store, city: string, parameter: string,
    history: seq<Sample>, fit: (seq<seq<real>>, seq<real>) -> Regressor): (r: Training)
    ensures r.result.Err? ==> r.state == st && r.store == store
    ensures r.result.Ok? ==> && r.state.isTrained && Valid(r.state)
                             && r.store == store[ModelFile(city, parameter) := Some(Saved(r.state.model.value, r.state.featureColumns))]
                             && r.result.value.featureColumns == r.state.featureColumns
  {
    if |history| < MinTrainingRows then Training(st, store, Err(InsufficientData(|history|)))
    else
      var rows := PrepareFeatures(history);
      if |rows| < MinPreparedRows then Training(st, store, Err(InsufficientPrepared(|rows|)))
      else
        PreparedShaped(history);
        var columns := FeatureColumnsOf(FrameColumns);
        var parts := Split(rows);
        var scored := FitAndScore(parts.0, parts.1, fit);
        Training(
          State(Some(scored.0), columns, true),
          store[ModelFile(city, parameter) := Some(Saved(scored.0, columns))],
          Ok(TrainReport(scored.1, |parts.0|, |parts.1|, columns)))
  }

  /**
   * Training succeeds exactly when the query returned at least 100 rows:
   * then at least 76 prepared rows remain, so the second guard never
   * fires; the training part is the earlier prepared rows and the test
   * part the latest fifth, together all of them; and the model is fitted
   * on the training part's feature vectors and values.
   */
  lemma {:induction false} TrainingGuards(
    st: State, store: Store, city: string, parameter: string,
    history: seq<Sample>, fit: (seq<seq<real>>, seq<real>) -> Regressor)
    ensures var r := TrainModel(st, store, city, parameter, history, fit);
            && (r.result.Ok? <==> |history| >= MinTrainingRows)
            && (|history| < MinTrainingRows ==> r.result == Err(InsufficientData(|history|)))
            && (r.result.Ok? ==>
                  var rows := PrepareFeatures(history);
                  var n := |history| - Warmup;
                  && Shaped(rows) && |rows| == n
                  && r.result.value.trainingSamples + r.result.value.testSamples == n
                  && r.result.value.testSamples == TestSize(n)
                  && r.result.value.featureColumns == DerivedColumns
                  && r.state.model.value == fit(Features(rows[..n - TestSize(n)]), Targets(rows[..n - TestSize(n)])))
  {
    PreparedFeatures(history);
    FeatureColumnsAreTheDerivedOnes();
  }

  /** The prepared-row guard cannot fire: 100 rows leave 76 after feature preparation. */
  lemma {:induction false} SecondGuardUnreachable(history: seq<Sample>)
    requires |history| >= MinTrainingRows
    ensures |PrepareFeatures(history)| >= MinTrainingRows - Warmup >= MinPreparedRows
  {
    PreparedFeatures(history);
  }

  // ---------------------------------------------------------------------
  // Prediction.
  // ---------------------------------------------------------------------

  /**
   * The row fed to the regressor for a forecast instant: a copy of the
   * latest prepared row with the calendar fields of `at`, every lag and
   * rolling feature held at the latest value, and both differences 0.
   */
  function HeldRow(latest: Row, at: int): (r: Row)
    ensures |r.lags| == |Lags| && |r.rolling| == |Windows|
  {
    Row(latest.date, latest.value,
        Calendar.Hour(at), Calendar.Weekday(at), Calendar.DayOfYear(at), Calendar.Month(at),
        seq(|Lags|, _ => latest.value), seq(|Windows|, _ => latest.value),
        0.0, 0.0)
  }

  /**
   * The held row is what feature preparation would give at `at` had the
   * series stayed at the latest value for the whole look-back.
   */
  lemma {:induction false} HeldRowIsConstantHistory(latest: Row, s: seq<Sample>, t: int)
    requires Warmup <= t < |s|
    requires forall k :: 0 <= k < |s| ==> s[k].value == latest.value
    ensures FeatureVector(HeldRow(latest, s[t].date)) == FeatureVector(HistoryRow(s, t))
  {
    LookBacks();
    var c := latest.value;
    var h := HistoryRow(s, t);
    var held := HeldRow(latest, s[t].date);
    forall j | 0 <= j < |Windows| ensures h.rolling[j] == c {
      var window := Values(s)[t + 1 - Windows[j]..t + 1];
      Stats.MeanWithin(window, c, c);
    }
    assert h.lags == held.lags;
    assert h.rolling == held.rolling;
  }

  /** `max(0, x)`. */
  function ClampAtZero(x: real): (r: real)
    ensures r >= 0.0 && r >= x && (r == x || r == 0.0)
  {
    if x < 0.0 then 0.0 else x
  }

  /**
   * `np.std(model.predict(X_pred)) * 1.96` for the one-row prediction array:
   * `w` is the non-negative number whose square is `1.96² · variance`.
   */
  function HalfWidth(predictions: seq<real>): (w: real)
    requires |predictions| == 1
    ensures w >= 0.0 && w * w == (1.96 * 1.96) * Stats.Variance(predictions)
  {
    SingleValueHasNoSpread(predictions[0]);
    assert predictions == [predictions[0]];
    0.0
  }

  /** One value has variance 0. */
  lemma {:induction false} SingleValueHasNoSpread(p: real)
    ensures Stats.Variance([p]) == 0.0
  {
    Stats.ConstantMoments([p], p);
  }

  /** The 95% interval around one prediction: `[max(0, p - w), p + w]`. */
  function Interval(p: real): (r: (real, real))
    ensures r == (ClampAtZero(p), p)
  {
    var w := HalfWidth([p]);
    (ClampAtZero(p - w), p + w)
  }

  datatype Forecast = Forecast(
    predictions: seq<real>,
    intervals: seq<(real, real)>,
    forecastHours: seq<int>,
    modelAccuracy: Option<real>,
    dataPointsUsed: nat)

  datatype PredictError = NoTrainedModel | InsufficientRecent(found: nat) | NoPreparedRows | UnusableColumns

  datatype Prediction = Prediction(state: State, result: Result<Forecast, PredictError>)

  /** `range(1, hours_ahead + 1)`. */
  function HoursUpTo(h: int): (r: seq<int>)
    ensures |r| == (if h > 0 then h else 0)
    ensures forall k :: 0 <= k < |r| ==> r[k] == k + 1
  {
    seq(if h > 0 then h else 0, k requires 0 <= k < (if h > 0 then h else 0) => k + 1)
  }

  /** The model's value on the held row for `hours` after `now`. */
  function HourPrediction(model: Regressor, columns: seq<ColumnName>, latest: Row, now: int, hours: int): real
    requires forall k :: 0 <= k < |columns| ==> Numeric(columns[k])
  {
    model.predict(Select(HeldRow(latest, now + Hour * hours), columns).value)
  }

  /**
   * What `predict` computes once a model is available: the guards on the
   * recent rows, then one prediction per forecast hour. Selecting a column
   * the row lacks raises at the first forecast hour, so only when there is one.
   */
  function Forecasting(model: Regressor, columns: seq<ColumnName>, recent: seq<Sample>, hoursAhead: int, now: int): (r: Result<Forecast, PredictError>)
  {
    if |recent| < MinRecentRows then Err(InsufficientRecent(|recent|))
    else
      var rows := PrepareFeatures(recent);
      if |rows| == 0 then Err(NoPreparedRows)
      else
        PreparedShaped(recent);
        var latest := rows[|rows| - 1];
        var hours := HoursUpTo(hoursAhead);
        if hours != [] && !(forall k :: 0 <= k < |columns| ==> Numeric(columns[k])) then Err(UnusableColumns)
        else
          var predictions := seq(|hours|, k requires 0 <= k < |hours| => HourPrediction(model, columns, latest, now, hours[k]));
          var intervals := seq(|hours|, k requires 0 <= k < |hours| => Interval(predictions[k]));
          Ok(Forecast(predictions, intervals, hours, None, |rows|))
  }

  /**
   * `predict` on the rows the 7-day query returned, at clock reading `now`.
   * Loading is attempted only while no model is trained.
   */
  function Predict(st: State, store: Store, city: string, parameter: string,
                   recent: seq<Sample>, hoursAhead: int, now: int): (r: Prediction)
    requires Valid(st)
    ensures Valid(r.state)
    ensures r.state.isTrained <==> st.isTrained || LoadModel(st, store, city, parameter).1
    ensures !r.state.isTrained ==> r.state == st
  {
    var loaded := if st.isTrained then (st, true) else LoadModel(st, store, city, parameter);
    var st' := loaded.0;
    if !loaded.1 then Prediction(st, Err(NoTrainedModel))
    else Prediction(st', Forecasting(st'.model.value, st'.featureColumns, recent, hoursAhead, now))
  }

  /** Without a trained model and without a readable model file, `predict` raises and nothing changes. */
  lemma {:induction false} PredictNeedsModel(st: State, store: Store, city: string, parameter: string,
                                             recent: seq<Sample>, hoursAhead: int, now: int)
    requires Valid(st) && !st.isTrained
    ensures var r := Predict(st, store, city, parameter, recent, hoursAhead, now);
            r.result == Err(NoTrainedModel)
            <==> !(ModelFile(city, parameter) in store && store[ModelFile(city, parameter)].Some?)
  {
  }

  /** With a model available, fewer than 25 recent rows always raise; exactly 24 pass the first guard and leave no prepared row. */
  lemma {:induction false} PredictNeedsMoreThanWarmup(st: State, store: Store, city: string, parameter: string,
                                                      recent: seq<Sample>, hoursAhead: int, now: int)
    requires Valid(st) && st.isTrained
    ensures var r := Predict(st, store, city, parameter, recent, hoursAhead, now);
            && (|recent| < MinRecentRows ==> r.result == Err(InsufficientRecent(|recent|)))
            && (|recent| == MinRecentRows ==> r.result == Err(NoPreparedRows))
            && (r.result.Ok? ==> |recent| > Warmup)
  {
    PreparedFeatures(recent);
  }

  /**
   * A forecast has one prediction and one interval per hour `1..h`; each
   * interval is `[max(0, p), p]`, every prediction is the model's value on
   * the held latest prepared row, no accuracy is reported, and the rows
   * used are the recent rows less the warm-up.
   */
  lemma {:induction false} ForecastShape(st: State, store: Store, city: string, parameter: string,
                                         recent: seq<Sample>, hoursAhead: int, now: int)
    requires Valid(st)
    ensures var r := Predict(st, store, city, parameter, recent, hoursAhead, now);
            r.result.Ok? ==>
              var f := r.result.value;
              var rows := PrepareFeatures(recent);
              var columns := r.state.featureColumns;
              && |rows| == |recent| - Warmup > 0
              && f.forecastHours == HoursUpTo(hoursAhead)
              && |f.predictions| == |f.forecastHours| && |f.intervals| == |f.forecastHours|
              && f.modelAccuracy.None?
              && f.dataPointsUsed == |recent| - Warmup
              && forall k :: 0 <= k < |f.predictions| ==>
                   && f.intervals[k] == (ClampAtZero(f.predictions[k]), f.predictions[k])
                   && (forall c :: 0 <= c < |columns| ==> Numeric(columns[c]))
                   && f.predictions[k] == HourPrediction(r.state.model.value, columns, rows[|rows| - 1], now, k + 1)
  {
    PreparedFeatures(recent);
    var r := Predict(st, store, city, parameter, recent, hoursAhead, now);
    if r.result.Ok? {
      var f := r.result.value;
      var hours := HoursUpTo(hoursAhead);
      forall k | 0 <= k < |f.predictions|
        ensures f.predictions[k] == HourPrediction(r.state.model.value, r.state.featureColumns,
                                                   PrepareFeatures(recent)[|PrepareFeatures(recent)| - 1], now, k + 1)
      {
        assert hours[k] == k + 1;
      }
    }
  }

  /** Once a model is trained or loaded, `predict` does not look at the model files: any city and parameter reuse it. */
  lemma {:induction false} TrainedModelIsReused(st: State, store1: Store, store2: Store,
                                                city1: string, parameter1: string, city2: string, parameter2: string,
                                                recent: seq<Sample>, hoursAhead: int, now: int)
    requires Valid(st) && st.isTrained
    ensures Predict(st, store1, city1, parameter1, recent, hoursAhead, now)
            == Predict(st, store2, city2, parameter2, recent, hoursAhead, now)
  {
  }

  /** The columns `train_model` stores select the held row's full feature vector. */
  lemma {:induction false} TrainedColumnsSelect(
    st: State, store: Store, city: string, parameter: string,
    history: seq<Sample>, fit: (seq<seq<real>>, seq<real>) -> Regressor, latest: Row, at: int)
    requires TrainModel(st, store, city, parameter, history, fit).result.Ok?
    ensures var st' := TrainModel(st, store, city, parameter, history, fit).state;
            Select(HeldRow(latest, at), st'.featureColumns) == Some(FeatureVector(HeldRow(latest, at)))
  {
    SelectFeatureColumns(HeldRow(latest, at));
  }
}
