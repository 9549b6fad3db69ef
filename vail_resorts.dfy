/**
 * The Vail Resorts adapter for Mount Snow and Okemo.  The snow report comes
 * from the `FR.snowReportData` object embedded in the resort's weather page,
 * the lifts and trails from the `FR.TerrainStatusFeed` object embedded in
 * its lift page.  The pages arrive here fetched, with the embedded object
 * already extracted and parsed.
 */
module VailResorts {
  import opened Wrappers
  import opened JsStrings
  import opened JsNumbers
  import opened JsonValues
  import opened Lists
  import opened MountainTypes
  import opened Weather

  datatype Coords = Coords(lat: real, long: real)

  datatype ResortConfig = ResortConfig(id: string, name: string, weatherUrl: string, liftUrl: string, coords: Coords)

  const MountSnow: ResortConfig := ResortConfig(
    "mount-snow", "Mount Snow",
    "https://www.mountsnow.com/the-mountain/mountain-conditions/weather-report.aspx",
    "https://www.mountsnow.com/the-mountain/mountain-conditions/lift-and-terrain-status.aspx",
    Coords(42.9602, -72.8958))

  const Okemo: ResortConfig := ResortConfig(
    "okemo", "Okemo",
    "https://www.okemo.com/the-mountain/mountain-conditions/snow-and-weather-report.aspx",
    "https://www.okemo.com/the-mountain/mountain-conditions/lift-and-terrain-status.aspx",
    Coords(43.4036, -72.7163))

  /** `RESORTS[id]`: only the two configured resorts are known. */
  function Config(id: string): (c: Option<ResortConfig>)
    ensures c.Some? <==> id == "mount-snow" || id == "okemo"
    ensures c.Some? ==> c.value.id == id
  {
    if id == "mount-snow" then Some(MountSnow)
    else if id == "okemo" then Some(Okemo)
    else None
  }

  /**
   * A page as `curl` returns it: the process failed, or it produced a page
   * whose embedded object is `None` when the marker is missing or the object
   * is not JSON.
   */
  datatype Page = FetchFailed | Fetched(data: Option<Json>)

  datatype Sources = Sources(weather: Reply<Forecast>, weatherPage: Page, liftPage: Page)

  // ---- the snow report ----

  /** `parseIn`: strings are parsed, numbers kept, anything else is 0. */
  function ParseIn(v: Json): (r: Number)
    ensures v.JStr? ==> r == ParseFloat(v.s)
    ensures v.JNum? ==> r == Fin(Value(v.n))
    ensures !v.JStr? && !v.JNum? ==> r == Fin(0.0)
  {
    match v
    case JStr(s) => ParseFloat(s)
    case JNum(d) => NumberOf(d)
    case _ => Fin(0.0)
  }

  /** `data.<field>?.Inches`. */
  function Inches(data: Json, field: string): Json {
    Get(Get(data, field), "Inches")
  }

  /** The snow report read from the embedded object; `None` when reading it throws. */
  function ReadSnow(data: Json, url: string, now: string): Option<SnowReport> {
    if Nullish(data) then None
    else
      var base := ParseIn(Inches(data, "BaseDepth"));
      Some(SnowReport(
        ParseIn(Or(Inches(data, "TwentyFourHourSnowfall"), Inches(data, "OvernightSnowfall"))),
        ParseIn(Inches(data, "FortyEightHourSnowfall")),
        ParseIn(Inches(data, "SevenDaySnowfall")),
        DepthRange(base, base),
        ParseIn(Or(Inches(data, "CurrentSeason"), Inches(data, "SeasonTotal"))),
        url, now,
        Or(Get(data, "OverallSnowConditions"), JStr("Open"))))
  }

  // ---- lifts and trails ----

  /** The trails of one grooming area: its `Trails` when that is an array. */
  function AreaTrails(area: Json): seq<Json> {
    var trails := Get(area, "Trails");
    if trails.JArr? then trails.items else []
  }

  /**
   * The concatenation of the areas' trail arrays, in area order; `None` when
   * an area is `null` or missing, on which `area.Trails` throws.
   */
  function GroomingTrails(areas: seq<Json>): Option<seq<Json>> {
    if |areas| == 0 then Some([])
    else match GroomingTrails(areas[..|areas| - 1])
      case None => None
      case Some(init) =>
        var last := areas[|areas| - 1];
        if Nullish(last) then None else Some(init + AreaTrails(last))
  }

  /** The raw trail list: grooming areas first, else the top-level `Trails`, else none. */
  function RawTrails(data: Json): Option<seq<Json>> {
    var areas := Get(data, "GroomingAreas");
    var trails := Get(data, "Trails");
    if areas.JArr? then GroomingTrails(areas.items)
    else if trails.JArr? then Some(trails.items)
    else Some([])
  }

  function RawLifts(data: Json): seq<Json> {
    var lifts := Get(data, "Lifts");
    if lifts.JArr? then lifts.items else []
  }

  /** A lift status text that reads as open. */
  predicate OpenLiftText(s: string) {
    var lower := ToLower(s);
    lower == "open" || lower == "open_priority" || lower == "scheduled" || s == "1"
  }

  /** `isLiftOpen`: a truthy status whose string form reads as open. */
  predicate IsLiftOpen(status: Json)
    ensures IsLiftOpen(status) ==> Truthy(status)
    ensures status.JStr? && |status.s| > 0 ==> (IsLiftOpen(status) <==> OpenLiftText(status.s))
  {
    Truthy(status) && OpenLiftText(ToJsString(status))
  }

  /** `isTrailOpen`: `IsOpen === true`, or a truthy status reading `open` or `1`. */
  predicate IsTrailOpen(t: Json)
    ensures Get(t, "IsOpen") == JBool(true) ==> IsTrailOpen(t)
    ensures IsTrailOpen(t) ==> Get(t, "IsOpen") == JBool(true) || Truthy(Get(t, "Status"))
    ensures Get(t, "IsOpen") != JBool(true) && Get(t, "Status").JStr? ==>
              (IsTrailOpen(t) <==> ToLower(Get(t, "Status").s) == "open" || Get(t, "Status").s == "1")
  {
    var status := Get(t, "Status");
    Get(t, "IsOpen") == JBool(true)
    || (Truthy(status) && (ToLower(ToJsString(status)) == "open" || ToJsString(status) == "1"))
  }

  function LiftOpen(l: Json): bool { IsLiftOpen(Get(l, "Status")) }

  /** The status shown for a lift: its status as a string, `Closed` when it has none. */
  function LiftStatusText(status: Json): string {
    ToJsString(if status.JUndefined? then JStr("Closed") else status)
  }

  function ToLift(l: Json): LiftCondition {
    LiftCondition(Or(Get(l, "Name"), Get(l, "LiftName")), LiftStatusText(Get(l, "Status")),
                  Or(Get(l, "Type"), Get(l, "LiftType")), Get(l, "WaitTime"))
  }

  /** The status shown for a trail: its status as a string, else taken from `IsOpen`. */
  function TrailStatusText(t: Json): string {
    var status := Get(t, "Status");
    ToJsString(if status.JUndefined? then JStr(if Truthy(Get(t, "IsOpen")) then "Open" else "Closed") else status)
  }

  function ToTrail(t: Json): TrailCondition {
    TrailCondition(Get(t, "Name"), TrailStatusText(t), Some(ToJsString(Get(t, "Difficulty"))), Get(t, "IsGroomed"))
  }

  predicate HasNullish(xs: seq<Json>) {
    exists i :: 0 <= i < |xs| && Nullish(xs[i])
  }

  /**
   * The lift-and-terrain section read from the embedded object; `None` when
   * reading it throws: the object is `null`, a grooming area is, or a lift or
   * a trail is (their `Status` and `IsOpen` are read by the counts).
   */
  function ReadTerrain(data: Json, url: string, now: string): Option<LiftsTerrain> {
    if Nullish(data) then None
    else
      var lifts := RawLifts(data);
      match RawTrails(data)
      case None => None
      case Some(trails) =>
        if HasNullish(lifts) || HasNullish(trails) then None
        else
          Some(Section(CountWhere(lifts, LiftOpen), CountWhere(trails, IsTrailOpen),
                       Map(lifts, ToLift), Map(trails, ToTrail), url, now))
  }

  function Mountain(cfg: ResortConfig, now: string): MountainInfo {
    MountainInfo(cfg.id, cfg.name, cfg.weatherUrl, now, "Vermont, USA")
  }

  function SnowSection(cfg: ResortConfig, data: Option<Json>, now: string): SnowReport {
    if data.Some? && ReadSnow(data.value, cfg.weatherUrl, now).Some? then ReadSnow(data.value, cfg.weatherUrl, now).value
    else DefaultSnowReport(cfg.weatherUrl, now)
  }

  function TerrainSection(cfg: ResortConfig, data: Option<Json>, now: string): LiftsTerrain {
    if data.Some? && ReadTerrain(data.value, cfg.liftUrl, now).Some? then ReadTerrain(data.value, cfg.liftUrl, now).value
    else DefaultLiftsTerrain(cfg.liftUrl, now)
  }

  /**
   * `getVailResortData`: an unknown id fails before anything is fetched; a
   * failing forecast or page fetch fails the call; otherwise each section is
   * read on its own and falls back to its own default.
   */
  function VailResortData(id: string, src: Sources, now: string): (r: Result<MountainData>)
    ensures r.Success? <==> Config(id).Some? && GetWeatherData(src.weather, now).Success?
                            && !src.weatherPage.FetchFailed? && !src.liftPage.FetchFailed?
    ensures r.Success? ==> r.value.weather == GetWeatherData(src.weather, now).value && r.value.generatedAt == now
    ensures r.Success? ==> r.value.snowReport == SnowSection(Config(id).value, src.weatherPage.data, now)
                           && r.value.liftsTerrain == TerrainSection(Config(id).value, src.liftPage.data, now)
  {
    match Config(id)
    case None => Failure("Unknown resort: " + id)
    case Some(cfg) =>
      match GetWeatherData(src.weather, now)
      case Failure(e) => Failure(e)
      case Success(weather) =>
        if src.weatherPage.FetchFailed? then Failure("Failed to fetch " + cfg.weatherUrl)
        else if src.liftPage.FetchFailed? then Failure("Failed to fetch " + cfg.liftUrl)
        else
          Success(MountainData(Mountain(cfg, now), SnowSection(cfg, src.weatherPage.data, now),
                               TerrainSection(cfg, src.liftPage.data, now), weather, now))
  }

  /** The `forEach` over the grooming areas, concatenating each area's trails. */
  method FlattenGroomingAreas(areas: seq<Json>) returns (trails: Option<seq<Json>>)
    ensures trails == GroomingTrails(areas)
  {
    var acc: seq<Json> := [];
    var i := 0;
    while i < |areas|
      invariant 0 <= i <= |areas|
      invariant GroomingTrails(areas[..i]) == Some(acc)
    {
      assert areas[..i + 1][..i] == areas[..i];
      if Nullish(areas[i]) {
        GroomingTrailsAppend(areas[..i + 1], areas[i + 1..]);
        assert areas[..i + 1] + areas[i + 1..] == areas;
        return None;
      }
      assert areas[..i + 1][i] == areas[i];
      assert GroomingTrails(areas[..i + 1]) == Some(acc + AreaTrails(areas[i]));
      var areaTrails := Get(areas[i], "Trails");
      if areaTrails.JArr? {
        acc := acc + areaTrails.items;
      } else {
        assert acc + AreaTrails(areas[i]) == acc;
      }
      i := i + 1;
    }
    assert areas[..i] == areas;
    trails := Some(acc);
  }

  /** The lift page read step by step, falling back to the default section when reading throws. */
  method ReadLiftPage(liftData: Option<Json>, url: string, now: string) returns (liftsTerrain: LiftsTerrain)
    ensures liftsTerrain == if liftData.Some? && ReadTerrain(liftData.value, url, now).Some?
                            then ReadTerrain(liftData.value, url, now).value
                            else DefaultLiftsTerrain(url, now)
  {
    liftsTerrain := DefaultLiftsTerrain(url, now);
    if liftData.Some? && !Nullish(liftData.value) {
      var data := liftData.value;
      var lifts := RawLifts(data);
      var trails: Option<seq<Json>> := Some([]);
      var areas := Get(data, "GroomingAreas");
      if areas.JArr? {
        trails := FlattenGroomingAreas(areas.items);
      } else if Get(data, "Trails").JArr? {
        trails := Some(Get(data, "Trails").items);
      }
      assert trails == RawTrails(data);
      if trails.Some? && !HasNullish(lifts) && !HasNullish(trails.value) {
        var liftsOpen := CountWhere(lifts, LiftOpen);
        var trailsOpen := CountWhere(trails.value, IsTrailOpen);
        liftsTerrain := Section(liftsOpen, trailsOpen, Map(lifts, ToLift), Map(trails.value, ToTrail), url, now);
      }
    }
  }

  /** The adapter step by step: each section starts at its default and is overwritten when read. */
  method GetVailResortData(id: string, src: Sources, now: string) returns (r: Result<MountainData>)
    ensures r == VailResortData(id, src, now)
  {
    var config := Config(id);
    if config.None? {
      return Failure("Unknown resort: " + id);
    }
    var cfg := config.value;
    var weather := GetWeatherData(src.weather, now);
    if weather.Failure? {
      return Failure(weather.error);
    }
    if src.weatherPage.FetchFailed? {
      return Failure("Failed to fetch " + cfg.weatherUrl);
    }
    if src.liftPage.FetchFailed? {
      return Failure("Failed to fetch " + cfg.liftUrl);
    }

    var snowReport := DefaultSnowReport(cfg.weatherUrl, now);
    var snowData := src.weatherPage.data;
    if snowData.Some? && !Nullish(snowData.value) {
      snowReport := ReadSnow(snowData.value, cfg.weatherUrl, now).value;
    }

    assert snowReport == SnowSection(cfg, src.weatherPage.data, now);
    var liftsTerrain := ReadLiftPage(src.liftPage.data, cfg.liftUrl, now);
    assert liftsTerrain == TerrainSection(cfg, src.liftPage.data, now);
    r := Success(MountainData(Mountain(cfg, now), snowReport, liftsTerrain, weather.value, now));
  }

  // ---- what the adapter promises ----

  /** An unknown id fails with `Unknown resort`, whatever the upstream state. */
  lemma UnknownResortFails(id: string, src: Sources, now: string)
    requires id != "mount-snow" && id != "okemo"
    ensures VailResortData(id, src, now) == Failure("Unknown resort: " + id)
  {
  }

  /** The two sections default independently: each depends on its own page only. */
  lemma SectionsIndependent(id: string, src1: Sources, src2: Sources, now: string)
    requires VailResortData(id, src1, now).Success? && VailResortData(id, src2, now).Success?
    ensures src1.weatherPage == src2.weatherPage ==>
      VailResortData(id, src1, now).value.snowReport == VailResortData(id, src2, now).value.snowReport
    ensures src1.liftPage == src2.liftPage ==>
      VailResortData(id, src1, now).value.liftsTerrain == VailResortData(id, src2, now).value.liftsTerrain
  {
  }

  /**
   * The snow report: the 24-hour figure falls back to the overnight one, the
   * season total to `SeasonTotal`, the conditions to `Open`; min equals max;
   * both URLs are the weather page's.
   */
  lemma ReadSnowSpec(data: Json, url: string, now: string)
    requires !Nullish(data)
    ensures var r := ReadSnow(data, url, now).value;
      && (Truthy(Inches(data, "TwentyFourHourSnowfall")) ==> r.snow24hIn == ParseIn(Inches(data, "TwentyFourHourSnowfall")))
      && (!Truthy(Inches(data, "TwentyFourHourSnowfall")) ==> r.snow24hIn == ParseIn(Inches(data, "OvernightSnowfall")))
      && (Truthy(Inches(data, "CurrentSeason")) ==> r.seasonSnowIn == ParseIn(Inches(data, "CurrentSeason")))
      && (!Truthy(Inches(data, "CurrentSeason")) ==> r.seasonSnowIn == ParseIn(Inches(data, "SeasonTotal")))
      && (Truthy(Get(data, "OverallSnowConditions")) ==> r.conditions == Get(data, "OverallSnowConditions"))
      && (!Truthy(Get(data, "OverallSnowConditions")) ==> r.conditions == JStr("Open"))
      && r.baseDepthIn.min == r.baseDepthIn.max == ParseIn(Inches(data, "BaseDepth"))
      && r.sourceUrl == url && r.fetchedAt == now
  {
  }

  /** Flattening distributes over splitting the area list. */
  lemma {:induction false} GroomingTrailsAppend(a: seq<Json>, b: seq<Json>)
    ensures GroomingTrails(a + b) ==
      if GroomingTrails(a).Some? && GroomingTrails(b).Some? then Some(GroomingTrails(a).value + GroomingTrails(b).value)
      else None
    decreases |b|
  {
    if |b| == 0 {
      assert a + b == a;
      if GroomingTrails(a).Some? {
        assert GroomingTrails(a).value + [] == GroomingTrails(a).value;
      }
    } else {
      var b' := b[..|b| - 1];
      assert (a + b)[..|a + b| - 1] == a + b';
      GroomingTrailsAppend(a, b');
      if GroomingTrails(a).Some? && GroomingTrails(b').Some? {
        assert GroomingTrails(a).value + GroomingTrails(b').value + AreaTrails(b[|b| - 1]) ==
               GroomingTrails(a).value + (GroomingTrails(b').value + AreaTrails(b[|b| - 1]));
      }
    }
  }

  /** Flattening throws exactly when some area is `null` or missing. */
  lemma {:induction false} GroomingTrailsFails(areas: seq<Json>)
    ensures GroomingTrails(areas).None? <==> HasNullish(areas)
    decreases |areas|
  {
    if |areas| > 0 {
      var init := areas[..|areas| - 1];
      GroomingTrailsFails(init);
      if HasNullish(init) {
        var i :| 0 <= i < |init| && Nullish(init[i]);
        assert Nullish(areas[i]);
      }
      if HasNullish(areas) && !Nullish(areas[|areas| - 1]) {
        var i :| 0 <= i < |areas| && Nullish(areas[i]);
        assert init[i] == areas[i];
      }
    }
  }

  /**
   * A lift is counted open exactly when its displayed status reads as open:
   * a missing status shows `Closed`, and every falsy status prints as a text
   * (`null`, `false`, `0`, the empty text) that does not read as open.
   */
  lemma LiftOpenMatchesShownStatus(status: Json)
    ensures IsLiftOpen(status) <==> OpenLiftText(LiftStatusText(status))
  {
    if !Truthy(status) {
      var s := LiftStatusText(status);
      match status
      case JUndefined => assert s == "Closed";
      case JNull => assert s == "null";
      case JBool(b) => assert s == "false";
      case JNum(d) => DecimalToStringZero(d); assert s == "0";
      case JStr(t) => assert s == "";
    }
  }

  /**
   * The lift-and-terrain section, when reading it does not throw: it is
   * well formed; lifts and trails are mapped one to one and in order; the
   * open lift count is the number of shown lift statuses that read as open;
   * a lift's shown status is its status as a string, `Closed` when missing.
   */
  lemma ReadTerrainSpec(data: Json, url: string, now: string)
    requires ReadTerrain(data, url, now).Some?
    ensures var t := ReadTerrain(data, url, now).value;
      && WellFormed(t)
      && RawTrails(data).Some?
      && |t.lifts| == |RawLifts(data)| && |t.trails| == |RawTrails(data).value|
      && (forall i :: 0 <= i < |t.lifts| ==> t.lifts[i] == ToLift(RawLifts(data)[i]))
      && (forall i :: 0 <= i < |t.trails| ==> t.trails[i] == ToTrail(RawTrails(data).value[i]))
      && (forall i :: 0 <= i < |t.lifts| ==>
            t.lifts[i].status == if Get(RawLifts(data)[i], "Status").JUndefined? then "Closed"
                                 else ToJsString(Get(RawLifts(data)[i], "Status")))
      && t.liftsOpen == CountWhere(t.lifts, (l: LiftCondition) => OpenLiftText(l.status))
      && t.trailsOpen == CountWhere(RawTrails(data).value, IsTrailOpen)
      && t.terrainOpenPct <= 100
  {
    var t := ReadTerrain(data, url, now).value;
    var lifts := RawLifts(data);
    forall l ensures LiftOpen(l) == OpenLiftText(ToLift(l).status) {
      LiftOpenMatchesShownStatus(Get(l, "Status"));
    }
    CountWhereMap(lifts, ToLift, (l: LiftCondition) => OpenLiftText(l.status), LiftOpen);
    WellFormedPct(t);
  }

  /** The lift statuses the feed uses: `open` and `1` open a lift; `closed` and `hold` do not. */
  lemma LiftOpenExamples()
    ensures IsLiftOpen(JStr("open")) && IsLiftOpen(JStr("1"))
    ensures !IsLiftOpen(JStr("closed")) && !IsLiftOpen(JStr("hold"))
  {
    ToLowerOfLower("open");
    ToLowerOfLower("closed");
    ToLowerOfLower("hold");
  }
}
