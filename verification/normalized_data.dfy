/**
 * `get_normalized_data`: the stored measurements and weather records of a
 * recent window, grouped by city and timestamp for the forecaster.
 *
 * Rows read back from the database carry naive timestamps (the SQLite
 * column keeps no offset), so a timestamp is keyed by its seconds.
 */
module NormalizedData {
  import opened Wrappers
  import opened Seqs
  import Ingest

  /** One parameter's entry in a bucket. */
  datatype Reading = Reading(value: real, unit: string, source: string)

  /** The entry for one city and instant: readings by parameter, and the weather record if any. */
  datatype Bucket = Bucket(measurements: map<string, Reading>, weather: Option<Ingest.WeatherRow>)

  type Grouped = map<string, map<int, Bucket>>

  datatype Normalized = Normalized(success: bool, data: Grouped, totalRecords: int, cities: seq<string>)

  /** What the handler returns when anything raised. */
  const Failure := Normalized(false, map[], 0, [])

  function ReadingOf(m: Ingest.Row): Reading {
    Reading(m.value, m.unit, m.source)
  }

  // ---------------------------------------------------------------------
  // The query.
  // ---------------------------------------------------------------------

  /** `if city:` filters only on a non-empty name. */
  predicate CityFilter(city: Option<string>) {
    city.Some? && city.value != ""
  }

  predicate Selected(m: Ingest.Row, city: Option<string>, start: int, end: int) {
    start <= m.date.seconds <= end && (CityFilter(city) ==> m.city == city.value)
  }

  predicate WeatherSelected(w: Ingest.WeatherRow, city: Option<string>, start: int, end: int) {
    start <= w.date.seconds <= end && (CityFilter(city) ==> w.city == city.value)
  }

  // ---------------------------------------------------------------------
  // Grouping.
  // ---------------------------------------------------------------------

  /** Whether row `m` belongs to bucket `(c, t)` under parameter `p`. */
  predicate Matches(m: Ingest.Row, c: string, t: int, p: string) {
    m.city == c && m.date.seconds == t && m.parameter == p
  }

  /** Adding one row: its bucket is created when missing, and its parameter's entry (over)written. */
  function Put(g: Grouped, m: Ingest.Row): (r: Grouped)
    ensures r.Keys == g.Keys + {m.city}
    ensures m.city in r && m.date.seconds in r[m.city] && m.parameter in r[m.city][m.date.seconds].measurements
    ensures r[m.city][m.date.seconds].measurements[m.parameter] == ReadingOf(m)
  {
    var byTime := if m.city in g then g[m.city] else map[];
    var b := if m.date.seconds in byTime then byTime[m.date.seconds] else Bucket(map[], None);
    g[m.city := byTime[m.date.seconds := b.(measurements := b.measurements[m.parameter := ReadingOf(m)])]]
  }

  /** Whether `g` has a bucket `(c, t)` holding parameter `p`. */
  predicate HasEntry(g: Grouped, c: string, t: int, p: string) {
    c in g && t in g[c] && p in g[c][t].measurements
  }

  /** Adding a row touches only its own bucket and entry. */
  lemma {:induction false} PutFrame(g: Grouped, m: Ingest.Row, c: string, t: int, p: string)
    ensures var r := Put(g, m);
            && ((c in r && t in r[c]) <==> (c in g && t in g[c]) || (c == m.city && t == m.date.seconds))
            && (HasEntry(r, c, t, p) <==> HasEntry(g, c, t, p) || Matches(m, c, t, p))
            && (HasEntry(g, c, t, p) && !Matches(m, c, t, p)
                ==> r[c][t].measurements[p] == g[c][t].measurements[p])
  {
  }

  /** The buckets of the measurement loop, rows taken in query order. */
  function Group(ms: seq<Ingest.Row>): (r: Grouped)
    ensures forall c | c in r :: forall t | t in r[c] :: r[c][t].weather.None?
    decreases |ms|
  {
    if ms == [] then map[]
    else Put(Group(ms[..|ms| - 1]), ms[|ms| - 1])
  }

  /** Whether some row has city `c` and instant `t`. */
  predicate HasInstant(ms: seq<Ingest.Row>, c: string, t: int) {
    exists m | m in ms :: m.city == c && m.date.seconds == t
  }

  /** Whether some row has city `c`, instant `t` and parameter `p`. */
  predicate HasReading(ms: seq<Ingest.Row>, c: string, t: int, p: string) {
    exists m | m in ms :: Matches(m, c, t, p)
  }

  /** A bucket exists exactly for each city and instant some row has. */
  lemma {:induction false} GroupBuckets(ms: seq<Ingest.Row>, c: string, t: int)
    ensures (c in Group(ms) && t in Group(ms)[c]) <==> HasInstant(ms, c, t)
    decreases |ms|
  {
    if ms != [] {
      var init, last := ms[..|ms| - 1], ms[|ms| - 1];
      assert ms == init + [last];
      GroupBuckets(init, c, t);
      PutFrame(Group(init), last, c, t, "");
      assert HasInstant(ms, c, t) <==> HasInstant(init, c, t) || (last.city == c && last.date.seconds == t);
    }
  }

  /** A bucket holds a parameter exactly when some row of that city, instant and parameter exists. */
  lemma {:induction false} GroupParameters(ms: seq<Ingest.Row>, c: string, t: int, p: string)
    ensures HasEntry(Group(ms), c, t, p) <==> HasReading(ms, c, t, p)
    decreases |ms|
  {
    if ms != [] {
      var init, last := ms[..|ms| - 1], ms[|ms| - 1];
      assert ms == init + [last];
      GroupParameters(init, c, t, p);
      PutFrame(Group(init), last, c, t, p);
      assert HasReading(ms, c, t, p) <==> HasReading(init, c, t, p) || Matches(last, c, t, p);
    }
  }

  /** The entry of a parameter is that of the last row with its city, instant and parameter. */
  lemma {:induction false} GroupLastWins(ms: seq<Ingest.Row>, i: int)
    requires 0 <= i < |ms|
    requires forall j :: i < j < |ms| ==> !Matches(ms[j], ms[i].city, ms[i].date.seconds, ms[i].parameter)
    ensures var m := ms[i];
            && HasEntry(Group(ms), m.city, m.date.seconds, m.parameter)
            && Group(ms)[m.city][m.date.seconds].measurements[m.parameter] == ReadingOf(m)
    decreases |ms|
  {
    if i < |ms| - 1 {
      var init, last := ms[..|ms| - 1], ms[|ms| - 1];
      var m := ms[i];
      assert init[i] == m;
      forall j | i < j < |init|
        ensures !Matches(init[j], m.city, m.date.seconds, m.parameter)
      {
        assert init[j] == ms[j];
      }
      GroupLastWins(init, i);
      PutFrame(Group(init), last, m.city, m.date.seconds, m.parameter);
    }
  }

  // ---------------------------------------------------------------------
  // Weather.
  // ---------------------------------------------------------------------

  /** Whether a bucket exists for the weather record's city and instant. */
  predicate HasBucket(g: Grouped, w: Ingest.WeatherRow) {
    w.city in g && w.date.seconds in g[w.city]
  }

  /** Whether the weather record is for city `c` at instant `t`. */
  predicate At(w: Ingest.WeatherRow, c: string, t: int) {
    w.city == c && w.date.seconds == t
  }

  /** Attaching one weather record: only to a bucket that already exists, replacing any earlier one. */
  function AttachOne(g: Grouped, w: Ingest.WeatherRow): (r: Grouped)
    ensures r.Keys == g.Keys
    ensures forall c | c in g :: r[c].Keys == g[c].Keys
    ensures forall c | c in g :: forall t | t in g[c] :: r[c][t].measurements == g[c][t].measurements
    ensures forall c | c in g :: forall t | t in g[c] ::
              r[c][t].weather == if At(w, c, t) then Some(w) else g[c][t].weather
  {
    if HasBucket(g, w) then
      var b := g[w.city][w.date.seconds];
      g[w.city := g[w.city][w.date.seconds := b.(weather := Some(w))]]
    else g
  }

  /** The weather loop over the records in query order. */
  function Attach(g: Grouped, ws: seq<Ingest.WeatherRow>): (r: Grouped)
    ensures r.Keys == g.Keys
    ensures forall c | c in g :: r[c].Keys == g[c].Keys
    ensures forall c | c in g :: forall t | t in g[c] :: r[c][t].measurements == g[c][t].measurements
    decreases |ws|
  {
    if ws == [] then g
    else AttachOne(Attach(g, ws[..|ws| - 1]), ws[|ws| - 1])
  }

  /** A bucket untouched by every record keeps its weather. */
  lemma {:induction false} AttachUnmatched(g: Grouped, ws: seq<Ingest.WeatherRow>, c: string, t: int)
    requires c in g && t in g[c]
    requires forall j :: 0 <= j < |ws| ==> !At(ws[j], c, t)
    ensures Attach(g, ws)[c][t].weather == g[c][t].weather
    decreases |ws|
  {
    if ws != [] {
      var init := ws[..|ws| - 1];
      forall j | 0 <= j < |init| ensures !At(init[j], c, t) {
        assert init[j] == ws[j];
      }
      AttachUnmatched(g, init, c, t);
      assert !At(ws[|ws| - 1], c, t);
    }
  }

  /** A bucket's weather is the last record of its city and instant. */
  lemma {:induction false} AttachLastWins(g: Grouped, ws: seq<Ingest.WeatherRow>, i: int)
    requires 0 <= i < |ws| && HasBucket(g, ws[i])
    requires forall j :: i < j < |ws| ==> !At(ws[j], ws[i].city, ws[i].date.seconds)
    ensures Attach(g, ws)[ws[i].city][ws[i].date.seconds].weather == Some(ws[i])
    decreases |ws|
  {
    var init := ws[..|ws| - 1];
    var c, t := ws[i].city, ws[i].date.seconds;
    if i < |ws| - 1 {
      assert init[i] == ws[i];
      forall j | i < j < |init| ensures !At(init[j], c, t) {
        assert init[j] == ws[j];
      }
      AttachLastWins(g, init, i);
      assert !At(ws[|ws| - 1], c, t);
    }
  }

  // ---------------------------------------------------------------------
  // City order.
  // ---------------------------------------------------------------------

  /** Whether some row names city `c`. */
  predicate NamesCity(ms: seq<Ingest.Row>, c: string) {
    exists m | m in ms :: m.city == c
  }

  /** The cities in order of first appearance (the order the buckets' keys were inserted). */
  function CityOrder(ms: seq<Ingest.Row>): (r: seq<string>)
    ensures forall i, j :: 0 <= i < j < |r| ==> r[i] != r[j]
    ensures forall c :: c in r <==> NamesCity(ms, c)
    decreases |ms|
  {
    if ms == [] then []
    else
      var init, last := ms[..|ms| - 1], ms[|ms| - 1];
      var prev := CityOrder(init);
      assert ms == init + [last];
      assert forall c :: NamesCity(ms, c) <==> NamesCity(init, c) || c == last.city;
      if last.city in prev then prev else prev + [last.city]
  }

  /** The listed cities are exactly the cities with buckets. */
  lemma {:induction false} CitiesAreBucketKeys(ms: seq<Ingest.Row>)
    ensures forall c :: c in CityOrder(ms) <==> c in Group(ms)
  {
    forall c ensures c in CityOrder(ms) <==> c in Group(ms) {
      if c in Group(ms) {
        GroupCitiesNonEmpty(ms, c);
        var t :| t in Group(ms)[c];
        GroupBuckets(ms, c, t);
      }
      if c in CityOrder(ms) {
        var m :| m in ms && m.city == c;
        GroupBuckets(ms, c, m.date.seconds);
      }
    }
  }

  /** Every city has at least one bucket. */
  lemma {:induction false} GroupCitiesNonEmpty(ms: seq<Ingest.Row>, c: string)
    requires c in Group(ms)
    ensures exists t :: t in Group(ms)[c]
    decreases |ms|
  {
    var init, last := ms[..|ms| - 1], ms[|ms| - 1];
    if c == last.city {
      assert last.date.seconds in Group(ms)[c];
    } else {
      GroupCitiesNonEmpty(init, c);
      var t :| t in Group(init)[c];
      PutFrame(Group(init), last, c, t, "");
    }
  }

  // ---------------------------------------------------------------------
  // The whole call.
  // ---------------------------------------------------------------------

  /**
   * The call with the table's own column name: `ms` and `ws` are the rows
   * in query order, `now` the clock. The total counts every selected row,
   * including weather records that found no bucket.
   */
  function GetNormalizedData(
    ms: seq<Ingest.Row>, ws: seq<Ingest.WeatherRow>, city: Option<string>, now: int, daysBack: int): (r: Normalized)
    ensures r.success
    ensures r.totalRecords
            == |Filter((m: Ingest.Row) => Selected(m, city, now - daysBack * Ingest.Day, now), ms)|
               + |Filter((w: Ingest.WeatherRow) => WeatherSelected(w, city, now - daysBack * Ingest.Day, now), ws)|
    ensures CityFilter(city) ==> forall c | c in r.data :: c == city.value
  {
    var start := now - daysBack * Ingest.Day;
    var sm := Filter((m: Ingest.Row) => Selected(m, city, start, now), ms);
    var sw := Filter((w: Ingest.WeatherRow) => WeatherSelected(w, city, start, now), ws);
    var grouped := Group(sm);
    assert CityFilter(city) ==> forall c | c in grouped :: c == city.value by {
      CitiesAreBucketKeys(sm);
      forall c | c in grouped ensures CityFilter(city) ==> c == city.value {
        var m :| m in sm && m.city == c;
        FilterMembership((m: Ingest.Row) => Selected(m, city, start, now), ms, m);
      }
    }
    Normalized(true, Attach(grouped, sw), |sm| + |sw|, CityOrder(sm))
  }

  /** The cities listed are the keys of the data, each once. */
  lemma {:induction false} ListedCitiesAreDataKeys(
    ms: seq<Ingest.Row>, ws: seq<Ingest.WeatherRow>, city: Option<string>, now: int, daysBack: int)
    ensures var r := GetNormalizedData(ms, ws, city, now, daysBack);
            && (forall c :: c in r.cities <==> c in r.data)
            && (forall i, j :: 0 <= i < j < |r.cities| ==> r.cities[i] != r.cities[j])
  {
    var start := now - daysBack * Ingest.Day;
    var sm := Filter((m: Ingest.Row) => Selected(m, city, start, now), ms);
    CitiesAreBucketKeys(sm);
  }

  /**
   * As written the query names `Measurement.datetime_utc`, an attribute the
   * table does not have; building the query raises and the handler returns
   * the empty failure result, whatever is stored.
   */
  function GetNormalizedDataAsWritten(
    ms: seq<Ingest.Row>, ws: seq<Ingest.WeatherRow>, city: Option<string>, now: int, daysBack: int): (r: Normalized)
    ensures !r.success && r.data == map[] && r.totalRecords == 0 && r.cities == []
  {
    if "datetime_utc" in Ingest.MeasurementColumns then GetNormalizedData(ms, ws, city, now, daysBack)
    else Failure
  }
}
