/**
 * Outlier detection over cleaned measurements: the interquartile-range,
 * z-score and modified z-score rules over a series of values, and the
 * flagging of every record of a list with `is_outlier`.
 *
 * The rules compare squares instead of taking square roots: with a
 * population variance `var > 0`, `|v - mean| / sqrt(var) > 3` holds exactly
 * when `(v - mean)^2 > 9 var`.
 */
module Outliers {
  import opened Wrappers
  import opened Seqs
  import opened Stats
  import opened DataProcessor

  /** Length of the IQR whiskers, in interquartile ranges. */
  const IqrWhisker := 1.5
  /** The z-score threshold `threshold: float = 3.0`. */
  const ZThreshold := 3.0
  /** The modified z-score threshold `threshold: float = 3.5`. */
  const ModifiedZThreshold := 3.5
  /** The consistency constant of the modified z-score. */
  const ModifiedZScale := 0.6745

  /** `np.percentile(values, p)`: numpy sorts before interpolating. */
  function Quantile(values: seq<real>, p: int): real
    requires |values| > 0 && 0 <= p <= 100
  {
    Percentile(SortReals(values), p)
  }

  /** The fences `Q1 - 1.5 IQR` and `Q3 + 1.5 IQR`; they enclose both quartiles. */
  function IqrFences(values: seq<real>): (f: (real, real))
    requires |values| > 0
    ensures f.0 <= Quantile(values, 25) <= Quantile(values, 75) <= f.1
  {
    var q1 := Quantile(values, 25);
    var q3 := Quantile(values, 75);
    PercentileMonotone(SortReals(values), 25, 75);
    var iqr := q3 - q1;
    (q1 - IqrWhisker * iqr, q3 + IqrWhisker * iqr)
  }

  /**
   * The positions of the values strictly outside the IQR fences. The middle
   * half of the data is never flagged, and when the two quartiles coincide
   * every value that differs from them is.
   */
  function IqrOutliers(values: seq<real>): (r: set<int>)
    requires |values| > 0
    ensures forall i | i in r :: 0 <= i < |values| && (values[i] < Quantile(values, 25) || Quantile(values, 75) < values[i])
    ensures Quantile(values, 25) == Quantile(values, 75) ==>
              forall i :: 0 <= i < |values| ==> (i in r <==> values[i] != Quantile(values, 25))
  {
    var f := IqrFences(values);
    set i | 0 <= i < |values| && (values[i] < f.0 || values[i] > f.1)
  }

  /** `|v - mean| / std > 3` for a population standard deviation `std = sqrt(variance) > 0`. */
  predicate ZScoreFlag(v: real, mean: real, variance: real) {
    variance != 0.0 && (v - mean) * (v - mean) > ZThreshold * ZThreshold * variance
  }

  /**
   * The positions of the values more than 3 population standard deviations
   * from the mean: never the mean itself, and nothing in a series without
   * spread.
   */
  function ZScoreOutliers(values: seq<real>): (r: set<int>)
    requires |values| > 0
    ensures Variance(values) == 0.0 ==> r == {}
    ensures forall i | i in r :: 0 <= i < |values| && values[i] != Mean(values)
  {
    var m := Mean(values);
    var v := Variance(values);
    VarianceNonnegative(values);
    if v == 0.0 then {}
    else set i | 0 <= i < |values| && ZScoreFlag(values[i], m, v)
  }

  /** `|0.6745 (v - median) / mad| > 3.5` for a non-zero median absolute deviation. */
  predicate ModifiedZFlag(v: real, median: real, mad: real) {
    mad != 0.0 && Abs(ModifiedZScale * (v - median) / mad) > ModifiedZThreshold
  }

  /**
   * The positions whose modified z-score exceeds 3.5 in size: never the
   * median itself, and nothing when at least half the values share the
   * median (the median absolute deviation is then zero).
   */
  function ModifiedZOutliers(values: seq<real>): (r: set<int>)
    requires |values| > 0
    ensures MedianAbsoluteDeviation(values) == 0.0 ==> r == {}
    ensures forall i | i in r :: 0 <= i < |values| && values[i] != Median(values)
  {
    var med := Median(values);
    var mad := MedianAbsoluteDeviation(values);
    if mad == 0.0 then {}
    else set i | 0 <= i < |values| && ModifiedZFlag(values[i], med, mad)
  }

  /** The detector named by `rule`; an unknown name detects nothing. */
  function Detect(rule: string, values: seq<real>): (r: set<int>)
    requires |values| > 0
    ensures forall i :: i in r ==> 0 <= i < |values|
    ensures rule != "iqr" && rule != "zscore" && rule != "modified_zscore" ==> r == {}
  {
    if rule == "iqr" then IqrOutliers(values)
    else if rule == "zscore" then ZScoreOutliers(values)
    else if rule == "modified_zscore" then ModifiedZOutliers(values)
    else {}
  }

  // ---------------------------------------------------------------------
  // Properties of the detectors.
  // ---------------------------------------------------------------------

  /** No rule flags anything in a constant series. */
  lemma {:induction false} ConstantSeriesNotFlagged(rule: string, values: seq<real>, c: real)
    requires |values| > 0 && Constant(values, c)
    ensures Detect(rule, values) == {}
  {
    ConstantOrderStatistics(values, c, 25);
    ConstantOrderStatistics(values, c, 75);
    ConstantMoments(values, c);
    ConstantMad(values, c);
  }

  /**
   * With at most ten values no value lies more than 3 standard deviations
   * from the mean (Samuelson's inequality bounds it by `sqrt(n - 1)`), so
   * the z-score rule can flag nothing.
   */
  lemma {:induction false} ZScoreNeedsElevenValues(values: seq<real>)
    requires 0 < |values| <= 10
    ensures ZScoreOutliers(values) == {}
  {
    forall i | 0 <= i < |values| ensures !ZScoreFlag(values[i], Mean(values), Variance(values)) {
      ZScoreBoundAt(values, i);
    }
  }

  lemma {:induction false} ZScoreBoundAt(values: seq<real>, i: int)
    requires 0 < |values| <= 10 && 0 <= i < |values|
    ensures !ZScoreFlag(values[i], Mean(values), Variance(values))
  {
    var x := values[i] - Mean(values);
    var m := (|values| - 1) as real;
    var V := Variance(values);
    SamuelsonVariance(values, i);
    VarianceNonnegative(values);
    SmallSampleStep(x * x, m, V);
  }

  lemma {:induction false} SmallSampleStep(x2: real, m: real, V: real)
    requires 0.0 <= m <= 9.0 && V >= 0.0 && x2 <= m * V
    ensures x2 <= ZThreshold * ZThreshold * V
  {
    assert m * V <= 9.0 * V;
  }

  // ---------------------------------------------------------------------
  // Flagging records.
  // ---------------------------------------------------------------------

  /** `m.get('parameter') == parameter`. */
  function OfParameter(parameter: string): Cleaned -> bool {
    (c: Cleaned) => c.parameter == parameter
  }

  /** The values of the records of `parameter`, in order. */
  function ParameterValues(ms: seq<Cleaned>, parameter: string): (vs: seq<real>)
    ensures |vs| == |Filter(OfParameter(parameter), ms)|
  {
    MapSeq((c: Cleaned) => c.value, Filter(OfParameter(parameter), ms))
  }

  /**
   * `detect_outliers` as written: the detector runs over the values of the
   * records of `parameter`, but its positions (which count only those
   * records) are then looked up among ALL the records.
   */
  function DetectOutliers(ms: seq<Cleaned>, parameter: string, rule: string): (r: seq<Cleaned>)
    ensures |r| == |ms|
    ensures forall i :: 0 <= i < |ms| ==> r[i].(outlier := ms[i].outlier) == ms[i]
    ensures |Filter(OfParameter(parameter), ms)| < 3 ==> r == ms
    ensures |Filter(OfParameter(parameter), ms)| >= 3 ==>
              forall i :: 0 <= i < |ms| ==> r[i].outlier == Some(i in Detect(rule, ParameterValues(ms, parameter)))
  {
    if ms == [] then ms
    else
      var values := ParameterValues(ms, parameter);
      if |values| < 3 then ms
      else
        var idx := Detect(rule, values);
        seq(|ms|, i requires 0 <= i < |ms| => ms[i].(outlier := Some(i in idx)))
  }

  /**
   * Outlier flagging as evidently intended: the record of `parameter` at
   * rank `k` among those records is flagged when the detector flags
   * position `k`; records of other parameters are never flagged.
   */
  function DetectOutliersByRank(ms: seq<Cleaned>, parameter: string, rule: string): (r: seq<Cleaned>)
    ensures |r| == |ms|
    ensures forall i :: 0 <= i < |ms| ==> r[i].(outlier := ms[i].outlier) == ms[i]
    ensures |Filter(OfParameter(parameter), ms)| < 3 ==> r == ms
    ensures |Filter(OfParameter(parameter), ms)| >= 3 ==> forall i :: 0 <= i < |ms| ==> r[i].outlier.Some?
  {
    var p := OfParameter(parameter);
    var values := ParameterValues(ms, parameter);
    if |values| < 3 then ms
    else
      var idx := Detect(rule, values);
      seq(|ms|, i requires 0 <= i < |ms| => ms[i].(outlier := Some(p(ms[i]) && Rank(p, ms, i) in idx)))
  }

  /**
   * Each record of `parameter` is judged on its own value: it sits at its
   * rank among those records and is flagged exactly when the detector
   * flags that position. Other records are never flagged.
   */
  lemma {:induction false} ByRankJudgesOwnValue(ms: seq<Cleaned>, parameter: string, rule: string, i: int)
    requires |Filter(OfParameter(parameter), ms)| >= 3 && 0 <= i < |ms|
    ensures var r := DetectOutliersByRank(ms, parameter, rule);
            var values := ParameterValues(ms, parameter);
            && (ms[i].parameter != parameter ==> r[i].outlier == Some(false))
            && (ms[i].parameter == parameter ==>
                  var k := Rank(OfParameter(parameter), ms, i);
                  && k < |values| && values[k] == ms[i].value
                  && (r[i].outlier == Some(true) <==> k in Detect(rule, values)))
  {
    var p := OfParameter(parameter);
    if p(ms[i]) {
      FilterAtRank(p, ms, i);
    }
  }

  /** Every position the detector flags belongs to exactly one record, and that record is flagged. */
  lemma {:induction false} ByRankFlagsEachDetection(ms: seq<Cleaned>, parameter: string, rule: string, k: int)
    requires |Filter(OfParameter(parameter), ms)| >= 3
    requires k in Detect(rule, ParameterValues(ms, parameter))
    ensures exists i :: 0 <= i < |ms| && ms[i].parameter == parameter && Rank(OfParameter(parameter), ms, i) == k
              && DetectOutliersByRank(ms, parameter, rule)[i].outlier == Some(true)
    ensures forall i, j :: 0 <= i < j < |ms| && ms[i].parameter == parameter && ms[j].parameter == parameter
              ==> Rank(OfParameter(parameter), ms, i) != Rank(OfParameter(parameter), ms, j)
  {
    var p := OfParameter(parameter);
    RankOnto(p, ms, k);
    forall i, j | 0 <= i < j < |ms| && ms[i].parameter == parameter && ms[j].parameter == parameter
      ensures Rank(p, ms, i) != Rank(p, ms, j)
    {
      RankIncreasing(p, ms, i, j);
    }
  }

  /**
   * When every record of `parameter` has the same value, no record is
   * newly flagged, whatever the rule: a flagged record was returned as it
   * came in.
   */
  lemma {:induction false} ConstantRecordsNotFlagged(ms: seq<Cleaned>, parameter: string, rule: string, c: real)
    requires forall i :: 0 <= i < |ms| && ms[i].parameter == parameter ==> ms[i].value == c
    ensures forall i :: 0 <= i < |ms| && DetectOutliers(ms, parameter, rule)[i].outlier == Some(true)
              ==> DetectOutliers(ms, parameter, rule)[i] == ms[i]
    ensures forall i :: 0 <= i < |ms| && DetectOutliersByRank(ms, parameter, rule)[i].outlier == Some(true)
              ==> DetectOutliersByRank(ms, parameter, rule)[i] == ms[i]
  {
    var p := OfParameter(parameter);
    var sub := Filter(p, ms);
    var values := ParameterValues(ms, parameter);
    if |values| >= 3 {
      forall k | 0 <= k < |values| ensures values[k] == c {
        assert sub[k] in sub;
        FilterMembership(p, ms, sub[k]);
      }
      ConstantSeriesNotFlagged(rule, values, c);
    }
  }

  /** The z-score rule newly flags no record of a parameter with at most ten records. */
  lemma {:induction false} FewRecordsNoZScoreOutliers(ms: seq<Cleaned>, parameter: string)
    requires |Filter(OfParameter(parameter), ms)| <= 10
    ensures forall i :: 0 <= i < |ms| && DetectOutliers(ms, parameter, "zscore")[i].outlier == Some(true)
              ==> DetectOutliers(ms, parameter, "zscore")[i] == ms[i]
    ensures forall i :: 0 <= i < |ms| && DetectOutliersByRank(ms, parameter, "zscore")[i].outlier == Some(true)
              ==> DetectOutliersByRank(ms, parameter, "zscore")[i] == ms[i]
  {
    var values := ParameterValues(ms, parameter);
    if |values| >= 3 {
      ZScoreNeedsElevenValues(values);
    }
  }

  // ---------------------------------------------------------------------
  // The mis-attribution, on a concrete list.
  // ---------------------------------------------------------------------

  /** The IQR rule on `[1, 1, 1, 100]`: Q1 = 1, Q3 = 25.75, fences -36.125 and 62.875. */
  lemma {:induction false} IqrExample(values: seq<real>)
    requires |values| == 4 && values[0] == 1.0 && values[1] == 1.0 && values[2] == 1.0 && values[3] == 100.0
    ensures IqrOutliers(values) == {3}
  {
    assert Ascending(values);
    SortAscending(values);
    PercentileAt(values, 25, 0, 0.75);
    PercentileAt(values, 75, 2, 0.25);
    assert IqrFences(values) == (-36.125, 62.875);
  }

  /**
   * One reading of another parameter `q` ahead of four readings of `p`
   * valued 1, 1, 1 and 100: the IQR rule flags the 100 (position 3 among
   * the `p` records), but `detect_outliers` flags the record at position 3
   * of the whole list, a `p` reading of 1, and leaves the 100 unflagged.
   * The corrected flagging marks the 100 and not the 1.
   */
  lemma {:induction false} DetectOutliersMisattributes(ms: seq<Cleaned>, p: string, q: string)
    requires p != q && |ms| == 5
    requires ms[0].parameter == q && ms[0].value == 1.0
    requires ms[1].parameter == p && ms[1].value == 1.0
    requires ms[2].parameter == p && ms[2].value == 1.0
    requires ms[3].parameter == p && ms[3].value == 1.0
    requires ms[4].parameter == p && ms[4].value == 100.0
    ensures var written := DetectOutliers(ms, p, "iqr");
            && written[3].value == 1.0 && written[3].outlier == Some(true)
            && written[4].value == 100.0 && written[4].outlier == Some(false)
    ensures var intended := DetectOutliersByRank(ms, p, "iqr");
            && intended[3].outlier == Some(false) && intended[4].outlier == Some(true)
  {
    var f := OfParameter(p);
    FilterOfExample(ms, p, q);
    var values := ParameterValues(ms, p);
    IqrExample(values);
    assert Rank(f, ms, 3) == 2;
    assert Rank(f, ms, 4) == 3;
  }

  /** Which records of the example are readings of `p`, and the ranks of the last two. */
  lemma {:induction false} FilterOfExample(ms: seq<Cleaned>, p: string, q: string)
    requires p != q && |ms| == 5
    requires ms[0].parameter == q && ms[1].parameter == p && ms[2].parameter == p
    requires ms[3].parameter == p && ms[4].parameter == p
    ensures Filter(OfParameter(p), ms) == ms[1..]
    ensures Rank(OfParameter(p), ms, 3) == 2 && Rank(OfParameter(p), ms, 4) == 3
  {
    var f := OfParameter(p);
    assert ms == [ms[0]] + ms[1..];
    FilterConcat(f, [ms[0]], ms[1..]);
    assert [ms[0]][1..] == [];
    FilterAll(f, ms[1..]);
    assert ms[..3] == [ms[0]] + ms[1..3];
    FilterConcat(f, [ms[0]], ms[1..3]);
    FilterAll(f, ms[1..3]);
    assert ms[..4] == [ms[0]] + ms[1..4];
    FilterConcat(f, [ms[0]], ms[1..4]);
    FilterAll(f, ms[1..4]);
  }
}
