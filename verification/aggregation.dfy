/**
 * `aggregate_measurements`: cleaned measurements grouped by city,
 * parameter and hour (or day), each group collapsed into one row holding
 * the mean value, the first unit and the first non-null source.
 *
 * pandas orders the groups by key: city, then parameter (both compared
 * code point by code point, as Python compares strings), then time.
 */
module Aggregation {
  import opened Wrappers
  import opened Text
  import opened Py
  import opened Seqs
  import opened Stats
  import opened DataProcessor

  /** A group: city, parameter and the start of the hour or day. */
  datatype GroupKey = GroupKey(city: string, parameter: string, time: int)

  /** One aggregated row. */
  datatype Aggregate = Aggregate(city: string, parameter: string, value: real, unit: string, date: Timestamp, source: Value)

  /** The input as it came in, or the aggregated rows. */
  datatype Aggregated = AsGiven(records: seq<Cleaned>) | Grouped(rows: seq<Aggregate>)

  predicate StrLt(a: string, b: string) {
    StrLe(a, b) && a != b
  }

  /** The order of pandas' group keys. */
  predicate KeyLt(a: GroupKey, b: GroupKey) {
    || StrLt(a.city, b.city)
    || (a.city == b.city && StrLt(a.parameter, b.parameter))
    || (a.city == b.city && a.parameter == b.parameter && a.time < b.time)
  }

  lemma {:induction false} StrLtTransitive(a: string, b: string, c: string)
    requires StrLt(a, b) && StrLt(b, c)
    ensures StrLt(a, c)
  {
    StrLeTransitive(a, b, c);
    if a == c {
      StrLeAntisymmetric(a, b);
    }
  }

  lemma {:induction false} KeyLtTransitive(a: GroupKey, b: GroupKey, c: GroupKey)
    requires KeyLt(a, b) && KeyLt(b, c)
    ensures KeyLt(a, c)
  {
    if StrLt(a.city, b.city) && StrLt(b.city, c.city) {
      StrLtTransitive(a.city, b.city, c.city);
    } else if a.city == b.city && b.city == c.city && StrLt(a.parameter, b.parameter) && StrLt(b.parameter, c.parameter) {
      StrLtTransitive(a.parameter, b.parameter, c.parameter);
    }
  }

  lemma {:induction false} KeyLtTrichotomy(a: GroupKey, b: GroupKey)
    ensures a == b || KeyLt(a, b) || KeyLt(b, a)
  {
    StrLeTotal(a.city, b.city);
    StrLeTotal(a.parameter, b.parameter);
  }

  ghost predicate StrictlyAscending(s: seq<GroupKey>) {
    forall i, j :: 0 <= i < j < |s| ==> KeyLt(s[i], s[j])
  }

  /** Adds `k` to an ordered list of keys unless it is already there. */
  function InsertKey(k: GroupKey, s: seq<GroupKey>): (r: seq<GroupKey>)
    ensures |s| <= |r| <= |s| + 1
  {
    if s == [] then [k]
    else if k == s[0] then s
    else if KeyLt(k, s[0]) then [k] + s
    else [s[0]] + InsertKey(k, s[1..])
  }

  lemma {:induction false} InsertKeyMembers(k: GroupKey, s: seq<GroupKey>)
    ensures forall x :: x in InsertKey(k, s) <==> x == k || x in s
  {
    if s != [] && k != s[0] && !KeyLt(k, s[0]) {
      InsertKeyMembers(k, s[1..]);
      assert s == [s[0]] + s[1..];
    }
  }

  lemma {:induction false} InsertKeyAscending(k: GroupKey, s: seq<GroupKey>)
    requires StrictlyAscending(s)
    ensures StrictlyAscending(InsertKey(k, s))
  {
    if s == [] || k == s[0] {
    } else if KeyLt(k, s[0]) {
      var r := [k] + s;
      forall i, j | 0 <= i < j < |r| ensures KeyLt(r[i], r[j]) {
        if i == 0 && j > 1 {
          KeyLtTransitive(k, s[0], s[j - 1]);
        }
      }
    } else {
      KeyLtTrichotomy(k, s[0]);
      var t := InsertKey(k, s[1..]);
      InsertKeyAscending(k, s[1..]);
      InsertKeyMembers(k, s[1..]);
      var r := [s[0]] + t;
      forall j | 0 <= j < |t| ensures KeyLt(s[0], t[j]) {
        if t[j] != k {
          assert t[j] in s[1..];
          var m :| 0 <= m < |s[1..]| && s[1..][m] == t[j];
          assert s[m + 1] == t[j];
        }
      }
      forall i, j | 0 <= i < j < |r| ensures KeyLt(r[i], r[j]) {
        if i == 0 {
          assert r[j] == t[j - 1];
        } else {
          assert r[i] == t[i - 1] && r[j] == t[j - 1];
        }
      }
    }
  }

  /** `floor(period)`: the start of the hour or day holding instant `t`. */
  function Floor(t: int, period: int): (r: int)
    requires period > 0
    ensures r <= t < r + period && r == (t / period) * period
  {
    t - t % period
  }

  /** The group a record falls into. */
  function KeyOf(c: Cleaned, period: int): GroupKey
    requires period > 0
  {
    GroupKey(c.city, c.parameter, Floor(c.date.seconds, period))
  }

  /** The distinct group keys of the records, in pandas' order. */
  function GroupKeys(ms: seq<Cleaned>, period: int): (ks: seq<GroupKey>)
    requires period > 0
    ensures |ks| <= |ms|
  {
    if ms == [] then [] else InsertKey(KeyOf(ms[0], period), GroupKeys(ms[1..], period))
  }

  /** The keys are ordered without repetition, and are exactly the keys of the records. */
  lemma {:induction false} GroupKeysFacts(ms: seq<Cleaned>, period: int)
    requires period > 0
    ensures StrictlyAscending(GroupKeys(ms, period))
    ensures forall x :: x in GroupKeys(ms, period) <==> exists i :: 0 <= i < |ms| && KeyOf(ms[i], period) == x
  {
    if ms != [] {
      var k := KeyOf(ms[0], period);
      GroupKeysFacts(ms[1..], period);
      InsertKeyAscending(k, GroupKeys(ms[1..], period));
      InsertKeyMembers(k, GroupKeys(ms[1..], period));
      forall x | x in GroupKeys(ms, period) ensures exists i :: 0 <= i < |ms| && KeyOf(ms[i], period) == x {
        if x != k {
          var i :| 0 <= i < |ms[1..]| && KeyOf(ms[1..][i], period) == x;
          assert ms[i + 1] == ms[1..][i];
        }
      }
      forall x | exists i :: 0 <= i < |ms| && KeyOf(ms[i], period) == x ensures x in GroupKeys(ms, period) {
        var i :| 0 <= i < |ms| && KeyOf(ms[i], period) == x;
        if i > 0 {
          assert ms[1..][i - 1] == ms[i];
        }
      }
    }
  }

  function InGroup(k: GroupKey, period: int): Cleaned -> bool
    requires period > 0
  {
    (c: Cleaned) => KeyOf(c, period) == k
  }

  /** The records of one group, in input order. */
  function Members(ms: seq<Cleaned>, k: GroupKey, period: int): seq<Cleaned>
    requires period > 0
  {
    Filter(InGroup(k, period), ms)
  }

  lemma {:induction false} MembersOfPresentKey(ms: seq<Cleaned>, k: GroupKey, period: int)
    requires period > 0 && exists i :: 0 <= i < |ms| && KeyOf(ms[i], period) == k
    ensures |Members(ms, k, period)| > 0
  {
    var i :| 0 <= i < |ms| && KeyOf(ms[i], period) == k;
    FilterMembership(InGroup(k, period), ms, ms[i]);
  }

  /** pandas' `first`: the first source that is not null, or null when all are. */
  function FirstSource(ms: seq<Cleaned>): (v: Value)
    ensures v == VNone <==> forall i :: 0 <= i < |ms| ==> ms[i].source == VNone
    ensures v != VNone ==> exists i :: 0 <= i < |ms| && ms[i].source == v
                                       && forall j :: 0 <= j < i ==> ms[j].source == VNone
  {
    if ms == [] then VNone
    else if ms[0].source != VNone then ms[0].source
    else
      var v := FirstSource(ms[1..]);
      assert forall i :: 0 < i < |ms| ==> ms[i] == ms[1..][i - 1];
      v
  }

  function ValuesOf(ms: seq<Cleaned>): (vs: seq<real>)
    ensures |vs| == |ms| && forall i :: 0 <= i < |ms| ==> vs[i] == ms[i].value
  {
    MapSeq((c: Cleaned) => c.value, ms)
  }

  /** The row of group `k`: mean value, first unit, first non-null source. */
  function Row(ms: seq<Cleaned>, k: GroupKey, period: int, aware: bool): Aggregate
    requires period > 0 && exists i :: 0 <= i < |ms| && KeyOf(ms[i], period) == k
  {
    MembersOfPresentKey(ms, k, period);
    var g := Members(ms, k, period);
    Aggregate(k.city, k.parameter, Mean(ValuesOf(g)), g[0].unit, Timestamp(k.time, aware), FirstSource(g))
  }

  function RowKey(a: Aggregate): GroupKey {
    GroupKey(a.city, a.parameter, a.date.seconds)
  }

  /** One row per group, in key order. */
  function GroupRows(ms: seq<Cleaned>, period: int, aware: bool): (rows: seq<Aggregate>)
    requires period > 0
    ensures |rows| == |GroupKeys(ms, period)| <= |ms|
    ensures forall j :: 0 <= j < |rows| ==> RowKey(rows[j]) == GroupKeys(ms, period)[j]
  {
    var ks := GroupKeys(ms, period);
    GroupKeysFacts(ms, period);
    seq(|ks|, j requires 0 <= j < |ks| => assert ks[j] in ks; Row(ms, ks[j], period, aware))
  }

  /** `floor('H')` and `floor('D')`; any other aggregation has no period. */
  function Period(aggregation: string): (p: Option<int>)
    ensures p.Some? ==> p.value > 0
  {
    if aggregation == "hourly" then Some(3600)
    else if aggregation == "daily" then Some(86400)
    else None
  }

  /** Whether the dates mix offset-aware and naive values, which `pd.to_datetime` refuses. */
  predicate MixedAwareness(ms: seq<Cleaned>) {
    exists i :: 0 <= i < |ms| && ms[i].date.aware != ms[0].date.aware
  }

  /**
   * `aggregate_measurements`. `None` stands for the exception pandas
   * raises on mixed naive and aware dates; it is raised before the
   * aggregation name is looked at.
   */
  function AggregateMeasurements(ms: seq<Cleaned>, aggregation: string): (r: Option<Aggregated>)
    ensures r == None <==> ms != [] && MixedAwareness(ms)
    ensures r.Some? && r.value.AsGiven? ==> r.value.records == ms
    ensures r.Some? ==> (r.value.AsGiven? <==> ms == [] || Period(aggregation) == None)
    ensures r.Some? && r.value.Grouped? ==> |r.value.rows| <= |ms|
  {
    if ms == [] then Some(AsGiven(ms))
    else if MixedAwareness(ms) then None
    else
      match Period(aggregation)
      case None => Some(AsGiven(ms))
      case Some(p) => Some(Grouped(GroupRows(ms, p, ms[0].date.aware)))
  }

  // ---------------------------------------------------------------------
  // Properties of the aggregation.
  // ---------------------------------------------------------------------

  /** With a known period and uniform dates, the result is one row per group. */
  lemma {:induction false} AggregateGroups(ms: seq<Cleaned>, aggregation: string)
    requires ms != [] && !MixedAwareness(ms) && Period(aggregation).Some?
    ensures AggregateMeasurements(ms, aggregation)
            == Some(Grouped(GroupRows(ms, Period(aggregation).value, ms[0].date.aware)))
  {
  }

  /** The rows come in key order, so no two rows share a key. */
  lemma {:induction false} GroupRowsOrdered(ms: seq<Cleaned>, p: int, aware: bool)
    requires p > 0
    ensures var rows := GroupRows(ms, p, aware);
            && (forall j, j' :: 0 <= j < j' < |rows| ==> KeyLt(RowKey(rows[j]), RowKey(rows[j'])))
            && (forall j, j' :: 0 <= j < j' < |rows| ==> RowKey(rows[j]) != RowKey(rows[j']))
  {
    GroupKeysFacts(ms, p);
  }

  /** Every record's group has a row. */
  lemma {:induction false} GroupRowsCoverRecords(ms: seq<Cleaned>, p: int, aware: bool)
    requires p > 0
    ensures var rows := GroupRows(ms, p, aware);
            forall i :: 0 <= i < |ms| ==> exists j :: 0 <= j < |rows| && RowKey(rows[j]) == KeyOf(ms[i], p)
  {
    var rows := GroupRows(ms, p, aware);
    var ks := GroupKeys(ms, p);
    GroupKeysFacts(ms, p);
    forall i | 0 <= i < |ms| ensures exists j :: 0 <= j < |rows| && RowKey(rows[j]) == KeyOf(ms[i], p) {
      assert KeyOf(ms[i], p) in ks;
      var j :| 0 <= j < |ks| && ks[j] == KeyOf(ms[i], p);
      assert RowKey(rows[j]) == ks[j];
    }
  }

  /** Every row is the group of some record. */
  lemma {:induction false} GroupRowsFromRecords(ms: seq<Cleaned>, p: int, aware: bool)
    requires p > 0
    ensures var rows := GroupRows(ms, p, aware);
            forall j :: 0 <= j < |rows| ==> exists i :: 0 <= i < |ms| && KeyOf(ms[i], p) == RowKey(rows[j])
  {
    var rows := GroupRows(ms, p, aware);
    var ks := GroupKeys(ms, p);
    GroupKeysFacts(ms, p);
    forall j | 0 <= j < |rows| ensures exists i :: 0 <= i < |ms| && KeyOf(ms[i], p) == RowKey(rows[j]) {
      assert ks[j] in ks;
    }
  }

  ghost predicate ValuesWithin(g: seq<Cleaned>, lo: real, hi: real) {
    forall i :: 0 <= i < |g| ==> lo <= g[i].value <= hi
  }

  /**
   * A row holds the mean of exactly the values of its group, which lies
   * within any bounds on the group's values; the unit of the group's
   * earliest record; and, as its date, the start of the period holding
   * every member's date.
   */
  lemma {:induction false} GroupRowContents(ms: seq<Cleaned>, p: int, aware: bool, j: int)
    requires p > 0 && 0 <= j < |GroupRows(ms, p, aware)|
    ensures var row := GroupRows(ms, p, aware)[j];
            var g := Members(ms, RowKey(row), p);
            && |g| > 0
            && row.value == Mean(ValuesOf(g))
            && (forall lo, hi :: ValuesWithin(g, lo, hi) ==> lo <= row.value <= hi)
            && (exists i :: 0 <= i < |ms| && KeyOf(ms[i], p) == RowKey(row) && row.unit == ms[i].unit
                  && forall i' :: 0 <= i' < i ==> KeyOf(ms[i'], p) != RowKey(row))
            && (forall i :: 0 <= i < |g| ==> Floor(g[i].date.seconds, p) == row.date.seconds)
            && row.date.aware == aware
  {
    var rows := GroupRows(ms, p, aware);
    var ks := GroupKeys(ms, p);
    GroupKeysFacts(ms, p);
    assert ks[j] in ks;
    var k := ks[j];
    assert rows[j] == Row(ms, k, p, aware);
    MembersOfPresentKey(ms, k, p);
    var g := Members(ms, k, p);
    forall lo, hi | ValuesWithin(g, lo, hi) ensures lo <= rows[j].value <= hi {
      MeanWithin(ValuesOf(g), lo, hi);
    }
    FilterFirst(InGroup(k, p), ms);
    forall i | 0 <= i < |g| ensures Floor(g[i].date.seconds, p) == k.time {
      assert g[i] in g;
      FilterMembership(InGroup(k, p), ms, g[i]);
    }
  }

  /** A group whose records all read `c` aggregates to `c`. */
  lemma {:induction false} GroupRowConstant(ms: seq<Cleaned>, p: int, aware: bool, j: int, c: real)
    requires p > 0 && 0 <= j < |GroupRows(ms, p, aware)|
    requires forall i :: 0 <= i < |ms| && KeyOf(ms[i], p) == RowKey(GroupRows(ms, p, aware)[j]) ==> ms[i].value == c
    ensures GroupRows(ms, p, aware)[j].value == c
  {
    var row := GroupRows(ms, p, aware)[j];
    GroupRowContents(ms, p, aware, j);
    var g := Members(ms, RowKey(row), p);
    forall i | 0 <= i < |g| ensures c <= g[i].value <= c {
      assert g[i] in g;
      FilterMembership(InGroup(RowKey(row), p), ms, g[i]);
    }
    assert ValuesWithin(g, c, c);
  }
}
