/**
 * The Open-Meteo forecast normaliser: the payload's current, daily and hourly
 * blocks become a `WeatherData` record, with a ten-day daily list, a 24-hour
 * window starting at the current hour, and weather codes (the WMO ww codes of
 * code table 4677) decoded into labels.
 */
module Weather {
  import opened Wrappers
  import opened JsStrings
  import opened JsNumbers
  import opened MountainTypes

  /**
   * The `current` block of the payload.  Every reading may be JSON `null`
   * (`None`); the time stamp is always a string.
   */
  datatype Current = Current(
    time: string,
    temperature: Option<real>,
    weatherCode: Option<int>,
    windSpeed: Option<real>,
    windGusts: Option<real>)

  /** The `daily` block: parallel arrays indexed by day, entries possibly `null`. */
  datatype Daily = Daily(
    time: seq<string>,
    weatherCode: seq<Option<int>>,
    temperatureMax: seq<Option<real>>,
    temperatureMin: seq<Option<real>>,
    precipitationSum: seq<Option<real>>,
    snowfallSum: seq<Option<real>>,
    windSpeedMax: seq<Option<real>>)

  /** The `hourly` block: parallel arrays indexed by hour, entries possibly `null`. */
  datatype Hourly = Hourly(
    time: seq<string>,
    temperature: seq<Option<real>>,
    weatherCode: seq<Option<int>>,
    windSpeed: seq<Option<real>>)

  datatype Forecast = Forecast(current: Current, daily: Daily, hourly: Hourly)

  /**
   * The answer of the forecast service: no answer at all, or a status and a
   * body, `None` when the body is not a forecast the normaliser can read.
   */
  datatype Reply<T> = NetworkError | Reply(ok: bool, body: Option<T>)

  const DailyLimit: nat := 10
  const HourlyWindow: nat := 24

  /** The labels `DecodeWeatherCode` can produce, in threshold order. */
  const Labels: seq<string> := ["Sunny", "Cloudy", "Fog", "Rain", "Snow", "Rain Showers", "Snow Showers", "Storm"]

  /**
   * The label of a weather code.  `undefined` (an index past the end of a
   * payload array) fails every comparison and falls through to "Storm";
   * `null` is not `=== 0` but compares as 0 in `<=`, so it is "Cloudy".
   * Otherwise the first threshold the code does not exceed wins.
   */
  function DecodeWeatherCode(code: Reading<int>): (text: string)
    ensures text in Labels
    ensures code.NoReading? ==> text == "Storm"
    ensures code.NullReading? ==> text == "Cloudy"
    ensures code.Reading? ==> text == Labels[Band(code.value)]
  {
    match code
    case NoReading => "Storm"
    case NullReading => "Cloudy"
    case Reading(c) =>
      if c == 0 then "Sunny"
      else if c <= 3 then "Cloudy"
      else if c <= 48 then "Fog"
      else if c <= 67 then "Rain"
      else if c <= 77 then "Snow"
      else if c <= 82 then "Rain Showers"
      else if c <= 86 then "Snow Showers"
      else "Storm"
  }

  /** The upper bounds of the bands, in the order the labels are listed. */
  const Bounds: seq<int> := [0, 3, 48, 67, 77, 82, 86]

  /**
   * The index of the band of code `c`, as an independent statement of the
   * thresholds: the first bound `c` does not exceed (for the first band, the
   * code must equal 0), or the last band.
   */
  function Band(c: int): (k: nat)
    ensures k < |Labels|
    ensures k == 0 <==> c == 0
    ensures 0 < k < |Bounds| ==> c <= Bounds[k] && c != 0 && forall j :: 1 <= j < k ==> c > Bounds[j]
    ensures k == |Bounds| ==> forall j :: 1 <= j < |Bounds| ==> c > Bounds[j]
  {
    if c == 0 then 0 else FirstBound(c, 1)
  }

  function FirstBound(c: int, k: nat): (r: nat)
    requires 1 <= k <= |Bounds|
    requires c != 0 && forall j :: 1 <= j < k ==> c > Bounds[j]
    ensures k <= r <= |Bounds|
    ensures r < |Bounds| ==> c <= Bounds[r]
    ensures forall j :: 1 <= j < r ==> c > Bounds[j]
    decreases |Bounds| - k
  {
    if k == |Bounds| || c <= Bounds[k] then k else FirstBound(c, k + 1)
  }

  /** Codes below 0 are not in the table; they land in the "Cloudy" band. */
  lemma NegativeCodesAreCloudy(c: int)
    requires c < 0
    ensures DecodeWeatherCode(Reading(c)) == "Cloudy"
  {
  }

  /** Larger codes never decode to an earlier band, once past 0. */
  lemma BandMonotone(c: int, d: int)
    requires 0 < c <= d
    ensures Band(c) <= Band(d)
  {
  }

  /** A field of the `current` block: `null` or a value, never `undefined`. */
  function Field<X>(x: Option<X>): (r: Reading<X>)
    ensures !r.NoReading?
    ensures r.NullReading? <==> x.None?
    ensures r.Reading? ==> x == Some(r.value)
  {
    match x
    case None => NullReading
    case Some(v) => Reading(v)
  }

  /** `xs[i]` on a payload array: `undefined` past the end, else the entry, `null` included. */
  function At<X>(xs: seq<Option<X>>, i: nat): (r: Reading<X>)
    ensures r.NoReading? <==> i >= |xs|
    ensures r.NullReading? <==> i < |xs| && xs[i].None?
    ensures r.Reading? ==> i < |xs| && xs[i] == Some(r.value)
  {
    if i < |xs| then Field(xs[i]) else NoReading
  }

  /**
   * `Math.round` of a payload reading: `undefined` becomes `NaN`, `null`
   * converts to 0, and a value is rounded to the nearest integer.
   */
  function RoundOf(x: Reading<real>): (r: Number)
    ensures r.NaN? <==> x.NoReading?
    ensures x.NullReading? ==> r == Fin(0.0)
    ensures x.Reading? ==> r.Fin? && r.r - 0.5 <= x.value < r.r + 0.5 && r.r == r.r.Floor as real
  {
    match x
    case NoReading => NaN
    case NullReading => Fin(0.0)
    case Reading(v) => Fin(Round(v) as real)
  }

  /** `Math.round(xs[i])` on a payload array. */
  function RoundAt(xs: seq<Option<real>>, i: nat): (r: Number)
    ensures r.NaN? <==> i >= |xs|
    ensures i < |xs| && xs[i].None? ==> r == Fin(0.0)
    ensures i < |xs| && xs[i].Some? ==> r == Fin(Round(xs[i].value) as real)
  {
    RoundOf(At(xs, i))
  }

  function DayAt(d: Daily, i: nat): DailyForecast
    requires i < |d.time|
  {
    DailyForecast(
      d.time[i],
      RoundAt(d.temperatureMax, i),
      RoundAt(d.temperatureMin, i),
      RoundAt(d.windSpeedMax, i),
      At(d.precipitationSum, i),
      At(d.snowfallSum, i),
      DecodeWeatherCode(At(d.weatherCode, i)))
  }

  /** `daily.time.map(...).slice(0, 10)`. */
  function DailyForecasts(d: Daily): (days: seq<DailyForecast>)
    ensures |days| == if |d.time| < DailyLimit then |d.time| else DailyLimit
    ensures forall i :: 0 <= i < |days| ==> days[i] == DayAt(d, i)
  {
    var all := seq(|d.time|, i requires 0 <= i < |d.time| => DayAt(d, i));
    if |all| <= DailyLimit then all else all[..DailyLimit]
  }

  /** `hourly.time.findIndex(t => t >= now)`, as an `Option`. */
  function FindFirstNotBefore(times: seq<string>, now: string): (r: Option<nat>)
    ensures r.Some? ==> r.value < |times| && !Less(times[r.value], now)
                        && forall j :: 0 <= j < r.value ==> Less(times[j], now)
    ensures r.None? ==> forall j :: 0 <= j < |times| ==> Less(times[j], now)
  {
    if |times| == 0 then None
    else if !Less(times[0], now) then Some(0)
    else match FindFirstNotBefore(times[1..], now)
      case None => None
      case Some(k) => Some(k + 1)
  }

  /** The first hour of the window: the found index, or 0 when every hour is past. */
  function StartIndex(h: Hourly, now: string): (start: nat)
    ensures start <= |h.time|
  {
    match FindFirstNotBefore(h.time, now)
    case None => 0
    case Some(k) => k
  }

  function HourAt(h: Hourly, idx: nat): HourlyForecast
    requires idx < |h.time|
  {
    HourlyForecast(h.time[idx], RoundAt(h.temperature, idx), RoundAt(h.windSpeed, idx),
                   DecodeWeatherCode(At(h.weatherCode, idx)))
  }

  /** `hourly.time.slice(start, start + 24).map(...)`, reading index `start + i`. */
  function HourlyWindowFrom(h: Hourly, start: nat): (hours: seq<HourlyForecast>)
    requires start <= |h.time|
    ensures |hours| == if |h.time| - start < HourlyWindow then |h.time| - start else HourlyWindow
    ensures forall i :: 0 <= i < |hours| ==> hours[i] == HourAt(h, start + i)
  {
    var n := if |h.time| - start < HourlyWindow then |h.time| - start else HourlyWindow;
    seq(n, i requires 0 <= i < n => HourAt(h, start + i))
  }

  /** `normalizeWeatherData`: the record built from a readable forecast. */
  function Normalize(f: Forecast, now: string): (w: WeatherData)
    ensures w.currentTempF.Fin? && w.windMph.Fin? && w.windGustMph.Fin?
    ensures w.todayHighF.NaN? <==> |f.daily.temperatureMax| == 0
    ensures w.todayLowF.NaN? <==> |f.daily.temperatureMin| == 0
    ensures w.conditions in Labels
    ensures |w.daily| <= DailyLimit && |w.hourly| <= HourlyWindow
    ensures w.source == "Open-Meteo" && w.fetchedAt == now
  {
    WeatherData(
      RoundOf(Field(f.current.temperature)),
      RoundAt(f.daily.temperatureMax, 0),
      RoundAt(f.daily.temperatureMin, 0),
      RoundOf(Field(f.current.windSpeed)),
      RoundOf(Field(f.current.windGusts)),
      DecodeWeatherCode(Field(f.current.weatherCode)),
      DailyForecasts(f.daily),
      HourlyWindowFrom(f.hourly, StartIndex(f.hourly, f.current.time)),
      "Open-Meteo",
      now)
  }

  /**
   * `getWeatherData`: no answer, a failing status or an unreadable body all
   * reject; there is no fallback record.  Only the failing-status message is
   * the source's own; on a network error or an unreadable body the source
   * rethrows whatever the runtime raised, and the two other texts here only
   * name those cases.
   */
  function GetWeatherData(reply: Reply<Forecast>, now: string): (r: Result<WeatherData>)
    ensures r.Success? <==> reply.Reply? && reply.ok && reply.body.Some?
    ensures r.Success? ==> r.value == Normalize(reply.body.value, now)
  {
    match reply
    case NetworkError => Failure("Weather fetch error")
    case Reply(ok, body) =>
      if !ok then Failure("Failed to fetch weather data")
      else match body
        case None => Failure("Weather payload could not be read")
        case Some(f) => Success(Normalize(f, now))
  }

  // ---- what the normalised record promises ----

  /**
   * The record's shape: at most ten days in payload order, today's high and
   * low taken from day 0 of the payload, the fixed source label, and an
   * hourly window of at most 24 hours whose first hour is the first one not
   * before the current time when there is such an hour.
   */
  lemma NormalizeShape(f: Forecast, now: string)
    ensures var w := Normalize(f, now);
      && |w.daily| <= DailyLimit
      && (|f.daily.time| > 0 ==> w.daily[0].highF == w.todayHighF && w.daily[0].lowF == w.todayLowF)
      && w.source == "Open-Meteo" && w.fetchedAt == now
      && |w.hourly| <= HourlyWindow
      && (|f.hourly.time| > 0 <==> |w.hourly| > 0)
      && ((exists j :: 0 <= j < |f.hourly.time| && !Less(f.hourly.time[j], f.current.time)) ==>
            !Less(w.hourly[0].time, f.current.time))
  {
    var w := Normalize(f, now);
    var start := StartIndex(f.hourly, f.current.time);
    if |w.hourly| > 0 {
      assert w.hourly[0].time == f.hourly.time[start];
    }
  }

  /**
   * With the hours listed in increasing order, every hour of the window is
   * not before the current time, unless every listed hour is.
   */
  lemma HourlyWindowIsUpcoming(f: Forecast, now: string)
    requires Sorted(f.hourly.time)
    ensures var w := Normalize(f, now);
      (forall j :: 0 <= j < |f.hourly.time| ==> Less(f.hourly.time[j], f.current.time)) ||
      (forall i :: 0 <= i < |w.hourly| ==> !Less(w.hourly[i].time, f.current.time))
  {
    var w := Normalize(f, now);
    var h := f.hourly;
    match FindFirstNotBefore(h.time, f.current.time)
    case None =>
    case Some(k) =>
      forall i | 0 <= i < |w.hourly|
        ensures !Less(w.hourly[i].time, f.current.time)
      {
        assert w.hourly[i].time == h.time[k + i];
        AfterStartNotBefore(h.time, f.current.time, k, k + i);
      }
  }

  /**
   * Once the first hour not before `now` is found, later hours are not before
   * `now` either, provided the hours are listed in order.
   */
  lemma AfterStartNotBefore(times: seq<string>, now: string, k: nat, j: nat)
    requires k <= j < |times| && !Less(times[k], now)
    requires Sorted(times)
    ensures !Less(times[j], now)
  {
    if j > k && Less(times[j], now) {
      LessTransitive(times[k], times[j], now);
    }
  }

  /** ISO timestamps as the service lists them: in strictly increasing order. */
  predicate Sorted(times: seq<string>) {
    forall i, j :: 0 <= i < j < |times| ==> Less(times[i], times[j])
  }
}
