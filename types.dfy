/**
 * The normalised records every adapter produces (`MountainData` and its
 * parts), the rounded open-terrain percentage, and the well-formedness
 * invariant the lift-and-terrain section keeps.
 */
module MountainTypes {
  import opened Wrappers
  import opened JsNumbers
  import opened JsonValues
  import opened Lists

  datatype DepthRange = DepthRange(min: Number, max: Number)

  /**
   * `conditions` is kept as the JSON value it came from: Vail copies the
   * upstream `OverallSnowConditions` through unchanged.
   */
  datatype SnowReport = SnowReport(
    snow24hIn: Number,
    snow48hIn: Number,
    snow7dIn: Number,
    baseDepthIn: DepthRange,
    seasonSnowIn: Number,
    sourceUrl: string,
    fetchedAt: string,
    conditions: Json)

  /** Fields copied from upstream stay JSON values; `status` is always a string. */
  datatype LiftCondition = LiftCondition(name: Json, status: string, liftType: Json, waitTime: Json)

  datatype TrailCondition = TrailCondition(name: Json, status: string, difficulty: Option<string>, isGroomed: Json)

  datatype LiftsTerrain = LiftsTerrain(
    liftsOpen: nat,
    liftsTotal: nat,
    trailsOpen: nat,
    trailsTotal: nat,
    terrainOpenPct: nat,
    lifts: seq<LiftCondition>,
    trails: seq<TrailCondition>,
    sourceUrl: string,
    fetchedAt: string)

  /**
   * A value read from the forecast payload: `undefined` (past the end of an
   * array), JSON `null` (the service has no value), or a value.
   */
  datatype Reading<T> = NoReading | NullReading | Reading(value: T)

  /**
   * A forecast day.  `precipIn` and `snowIn` are copied from the payload as
   * read, `null` and `undefined` included.
   */
  datatype DailyForecast = DailyForecast(
    date: string,
    highF: Number,
    lowF: Number,
    windMph: Number,
    precipIn: Reading<real>,
    snowIn: Reading<real>,
    conditions: string)

  datatype HourlyForecast = HourlyForecast(time: string, tempF: Number, windMph: Number, conditions: string)

  datatype WeatherData = WeatherData(
    currentTempF: Number,
    todayHighF: Number,
    todayLowF: Number,
    windMph: Number,
    windGustMph: Number,
    conditions: string,
    daily: seq<DailyForecast>,
    hourly: seq<HourlyForecast>,
    source: string,
    fetchedAt: string)

  datatype MountainInfo = MountainInfo(slug: string, name: string, url: string, lastUpdated: string, location: string)

  datatype MountainData = MountainData(
    mountain: MountainInfo,
    snowReport: SnowReport,
    liftsTerrain: LiftsTerrain,
    weather: WeatherData,
    generatedAt: string)

  /** The conditions text of a snow report nothing could be read for. */
  const DataUnavailable: string := "Data Unavailable"

  function DefaultSnowReport(sourceUrl: string, now: string): (r: SnowReport)
    ensures r.snow24hIn == r.snow48hIn == r.snow7dIn == r.seasonSnowIn == Fin(0.0)
    ensures r.baseDepthIn == DepthRange(Fin(0.0), Fin(0.0))
    ensures r.conditions == JStr(DataUnavailable)
    ensures r.sourceUrl == sourceUrl && r.fetchedAt == now
  {
    SnowReport(Fin(0.0), Fin(0.0), Fin(0.0), DepthRange(Fin(0.0), Fin(0.0)), Fin(0.0),
               sourceUrl, now, JStr(DataUnavailable))
  }

  function DefaultLiftsTerrain(sourceUrl: string, now: string): (r: LiftsTerrain)
    ensures WellFormed(r)
    ensures r.liftsTotal == r.trailsTotal == r.liftsOpen == r.trailsOpen == r.terrainOpenPct == 0
    ensures r.lifts == [] && r.trails == []
    ensures r.sourceUrl == sourceUrl && r.fetchedAt == now
  {
    LiftsTerrain(0, 0, 0, 0, 0, [], [], sourceUrl, now)
  }

  lemma QuotientBound(n: nat, d: nat, b: nat)
    requires d > 0 && n < d * (b + 1)
    ensures n / d <= b
  {
    assert d * (n / d) <= n;
  }

  lemma RealQuotient(x: real, n: real, d: real)
    requires d != 0.0 && x * d == n
    ensures x == n / d
  {
  }

  lemma FloorOfQuotient(n: int, d: int)
    requires d > 0
    ensures (n as real / d as real).Floor == n / d
  {
    var q, m := n / d, n % d;
    assert n == d * q + m;
    assert n as real / d as real == q as real + m as real / d as real;
    assert 0.0 <= m as real / d as real < 1.0;
  }

  /**
   * `Math.round(open / total * 100)`, or 0 when there are no trails, in exact
   * integer arithmetic.
   */
  function TerrainPct(open: nat, total: nat): (pct: nat)
    requires open <= total
    ensures pct <= 100
    ensures total == 0 ==> pct == 0
  {
    if total == 0 then 0
    else
      QuotientBound(200 * open + total, 2 * total, 100);
      (200 * open + total) / (2 * total)
  }

  /**
   * The integer formula is `Math.round` applied to the exact percentage:
   * halves round up, as they do in JavaScript.
   */
  lemma TerrainPctRounds(open: nat, total: nat)
    requires open <= total && total > 0
    ensures TerrainPct(open, total) == Round(open as real / total as real * 100.0)
  {
    var n, d := 200 * open + total, 2 * total;
    FloorOfQuotient(n, d);
    var o, t := open as real, total as real;
    var x := o / t * 100.0 + 0.5;
    assert o / t * t == o;
    assert x * (2.0 * t) == 200.0 * (o / t * t) + t;
    assert x * d as real == n as real;
    RealQuotient(x, n as real, d as real);
  }

  /**
   * What every lift-and-terrain section promises its readers: totals are the
   * list lengths, open counts never exceed them, and the percentage is the
   * rounded share of open trails.
   */
  predicate WellFormed(t: LiftsTerrain) {
    && t.liftsTotal == |t.lifts|
    && t.trailsTotal == |t.trails|
    && t.liftsOpen <= t.liftsTotal
    && t.trailsOpen <= t.trailsTotal
    && t.terrainOpenPct == TerrainPct(t.trailsOpen, t.trailsTotal)
  }

  /** A well-formed section's percentage lies in [0, 100] and is 0 without trails. */
  lemma WellFormedPct(t: LiftsTerrain)
    requires WellFormed(t)
    ensures t.terrainOpenPct <= 100
    ensures t.trailsTotal == 0 ==> t.terrainOpenPct == 0
    ensures t.trailsTotal > 0 ==>
      t.terrainOpenPct == Round(t.trailsOpen as real / t.trailsTotal as real * 100.0)
  {
    if t.trailsTotal > 0 {
      TerrainPctRounds(t.trailsOpen, t.trailsTotal);
    }
  }

  /**
   * A lift-and-terrain section assembled from its lists and open counts; the
   * totals are the lengths and the percentage is the rounded share.
   */
  function Section(liftsOpen: nat, trailsOpen: nat, lifts: seq<LiftCondition>, trails: seq<TrailCondition>,
                   sourceUrl: string, now: string): (t: LiftsTerrain)
    requires liftsOpen <= |lifts| && trailsOpen <= |trails|
    ensures WellFormed(t)
    ensures t.liftsOpen == liftsOpen && t.trailsOpen == trailsOpen
    ensures t.lifts == lifts && t.trails == trails
    ensures t.sourceUrl == sourceUrl && t.fetchedAt == now
  {
    LiftsTerrain(liftsOpen, |lifts|, trailsOpen, |trails|, TerrainPct(trailsOpen, |trails|),
                 lifts, trails, sourceUrl, now)
  }
}
