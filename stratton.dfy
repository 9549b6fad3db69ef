/**
 * The Stratton adapter.  The snow figures and the trail and lift lists come
 * from the `fullResort` object of the OnTheSnow ski-report page's embedded
 * Next.js data; the season total comes from the MtnPowder feed.  The page
 * and the feed arrive here already fetched and parsed.
 */
module Stratton {
  import opened Wrappers
  import opened JsStrings
  import opened JsNumbers
  import opened JsonValues
  import opened Lists
  import opened MountainTypes
  import opened Weather

  const OtsUrl: string := "https://www.onthesnow.com/vermont/stratton-mountain/skireport"

  /**
   * What the adapter reads:
   *  - the forecast service's reply for Stratton's coordinates;
   *  - the page's embedded data document, `None` when the page could not be
   *    fetched, has no (or an empty) data script, or the script is not JSON;
   *  - the MtnPowder feed's reply, `None` as body when it is not JSON.
   */
  datatype Sources = Sources(weather: Reply<Forecast>, page: Option<Json>, officialFeed: Reply<Json>)

  // ---- the official season total ----

  /** `data.Resorts?.[0]?.SnowReport?.SeasonTotalIn`. */
  function SeasonTotalField(data: Json): Json {
    Get(Get(Index0(Get(data, "Resorts")), "SnowReport"), "SeasonTotalIn")
  }

  /**
   * `fetchStrattonOfficialSeasonTotal`: the feed's season total when it is a
   * positive number, and 0 for every failure (no answer, a failing status, a
   * body that is not JSON or is `null`, a missing, unparsable or non-positive
   * field).
   */
  function OfficialSeasonTotal(feed: Reply<Json>): (total: real)
    ensures total >= 0.0
    ensures total > 0.0 <==>
      feed.Reply? && feed.ok && feed.body.Some? && !Nullish(feed.body.value)
      && Positive(ParseFloatOf(SeasonTotalField(feed.body.value)))
    ensures total > 0.0 ==> Fin(total) == ParseFloatOf(SeasonTotalField(feed.body.value))
  {
    match feed
    case NetworkError => 0.0
    case Reply(ok, body) =>
      if !ok || body.None? || Nullish(body.value) then 0.0
      else
        var field := SeasonTotalField(body.value);
        if Truthy(field) then
          var v := ParseFloatOf(field);
          if v.Fin? && v.r > 0.0 then v.r else 0.0
        else
          FalsyNotPositive(field);
          0.0
  }

  /** A falsy value never parses to a positive number, so the truthiness test changes nothing. */
  lemma FalsyNotPositive(v: Json)
    requires !Truthy(v)
    ensures !Positive(ParseFloatOf(v))
  {
    match v
    case JNum(d) =>
    case JStr(s) =>
      assert s == "";
      ParseFloatEmpty();
    case _ =>
      ParseFloatOfWord(v);
  }

  // ---- the snow figures ----

  /** `json.props?.pageProps?.fullResort` when truthy; `json.props` throws on a `null` document. */
  function FullResort(page: Option<Json>): (fr: Option<Json>)
    ensures fr.Some? ==> Truthy(fr.value)
  {
    match page
    case None => None
    case Some(json) =>
      if Nullish(json) then None
      else
        var fr := Get(Get(Get(json, "props"), "pageProps"), "fullResort");
        if Truthy(fr) then Some(fr) else None
  }

  function SnowBlock(fr: Json): Json { Or(Get(fr, "snow"), JObj([])) }
  function DepthBlock(fr: Json): Json { Or(Get(fr, "depths"), JObj([])) }

  /** `parseFloat(d.base) || parseFloat(s.base) || 0`. */
  function BaseDepth(fr: Json): Number {
    NumberOr(NumberOr(ParseFloatOf(Get(DepthBlock(fr), "base")), ParseFloatOf(Get(SnowBlock(fr), "base"))), Fin(0.0))
  }

  /** A figure from `last24`/`last48` is used when positive, else the next longer window, else 0. */
  function Fallback(primary: Number, next: Number): Number {
    if Positive(primary) then primary else NumberOr(next, Fin(0.0))
  }

  /** The snow report read from `fullResort`, before the season total is filled in. */
  function SnowFigures(fr: Json, now: string): SnowReport {
    var s := SnowBlock(fr);
    var last24 := ParseFloatOf(Get(s, "last24"));
    var last48 := ParseFloatOf(Get(s, "last48"));
    var last72 := ParseFloatOf(Get(s, "last72"));
    var base := BaseDepth(fr);
    SnowReport(Fallback(last24, last48), Fallback(last48, last72), NumberOr(last72, Fin(0.0)),
               DepthRange(base, base), Fin(0.0), OtsUrl, now, JStr("Open"))
  }

  /** The snow report with the official season total filled in when it is positive. */
  function SnowSection(fr: Json, feed: Reply<Json>, now: string): SnowReport {
    var figures := SnowFigures(fr, now);
    var total := OfficialSeasonTotal(feed);
    if total > 0.0 then figures.(seasonSnowIn := Fin(total)) else figures
  }

  // ---- trails ----

  /** Name fragments that mark composite trails, uphill routes and utility paths. */
  const ExcludedFragments: seq<string> :=
    [",", "&", "Uphill", "Shortcut", "Cut Through", "Work Road", "Access", "Extension"]

  /** The glades, which Stratton counts apart from its trails. */
  const Glades: seq<string> :=
    ["Emerald Forest", "Shred Wood Forest", "Free Fall Gully", "Kidderbrook Ravine",
     "Diamond in the Rough", "Test Pilot", "West Pilot", "Eclipse", "Moonbeam",
     "Vertigo", "Why Not"]

  predicate ExcludedName(n: string) {
    (exists i :: 0 <= i < |ExcludedFragments| && Contains(n, ExcludedFragments[i])) || n in Glades
  }

  /** `t && t.name`. */
  predicate Named(t: Json) {
    Truthy(t) && Truthy(Get(t, "name"))
  }

  /** A truthy name that is not a string has no `trim`: the filter throws a TypeError. */
  predicate TrimThrows(t: Json) {
    Named(t) && !Get(t, "name").JStr?
  }

  /** The filter's test: named, and its trimmed name is neither composite, nor a utility path, nor a glade. */
  predicate KeepTrail(t: Json)
    ensures KeepTrail(t) ==> !TrimThrows(t) && Get(t, "name").JStr? && |Get(t, "name").s| > 0
  {
    Named(t) && Get(t, "name").JStr? && !ExcludedName(Trim(Get(t, "name").s))
  }

  /** `terrain.runs` as an array, or its `details` array, or the values of the object. */
  function RawTrails(runs: Json): (raw: seq<Json>)
    ensures runs.JArr? ==> raw == runs.items
    ensures !runs.JArr? && Get(runs, "details").JArr? ==> raw == Get(runs, "details").items
    ensures !runs.JArr? && !Get(runs, "details").JArr? ==> raw == Values(runs)
  {
    var details := Get(runs, "details");
    if runs.JArr? then runs.items
    else if Truthy(details) && details.JArr? then details.items
    else Values(runs)
  }

  const DifficultyNames: seq<string> := ["green", "blue", "black", "double_black"]

  /** `mapDifficulty`: the codes 1-4, compared strictly, name the four difficulties. */
  function MapDifficulty(diff: Json): (r: Option<string>)
    ensures forall k :: 1 <= k <= 4 && IsNumber(diff, k) ==> r == Some(DifficultyNames[k - 1])
    ensures (forall k :: 1 <= k <= 4 ==> !IsNumber(diff, k)) <==> r == None
  {
    if IsNumber(diff, 1) then Some("green")
    else if IsNumber(diff, 2) then Some("blue")
    else if IsNumber(diff, 3) then Some("black")
    else if IsNumber(diff, 4) then Some("double_black")
    else None
  }

  /** Trail status code 1 or the text `Open` means open. */
  function TrailStatus(status: Json): (s: string)
    ensures s == "Open" <==> IsNumber(status, 1) || status == JStr("Open")
    ensures s == "Open" || s == "Closed"
  {
    if IsNumber(status, 1) || status == JStr("Open") then "Open" else "Closed"
  }

  function ToTrail(t: Json): TrailCondition {
    TrailCondition(Or(Get(t, "name"), JStr("Unknown")), TrailStatus(Get(t, "status")),
                   MapDifficulty(Get(t, "difficulty")), Get(t, "grooming"))
  }

  predicate IsOpenTrail(t: TrailCondition) { t.status == "Open" }

  // ---- lifts ----

  /** `terrain.lifts?.details || []`. */
  function RawLifts(terrain: Json): Json {
    Or(Get(Get(terrain, "lifts"), "details"), JArr([]))
  }

  /** `rawLifts.map(l => l.name ...)` throws when it is not an array or holds a `null`. */
  predicate LiftsThrow(rawLifts: Json) {
    !rawLifts.JArr? || exists i :: 0 <= i < |rawLifts.items| && Nullish(rawLifts.items[i])
  }

  /** Lift status code 2 means open. */
  function LiftStatus(status: Json): (s: string)
    ensures s == "Open" <==> IsNumber(status, 2)
    ensures s == "Open" || s == "Closed"
  {
    if IsNumber(status, 2) then "Open" else "Closed"
  }

  function ToLift(l: Json): LiftCondition {
    LiftCondition(Get(l, "name"), LiftStatus(Get(l, "status")), Get(l, "type"), JNum(Decimal(0, 0)))
  }

  predicate IsOpenLift(l: LiftCondition) { l.status == "Open" }

  function TerrainBlock(fr: Json): Json { Or(Get(fr, "terrain"), JObj([])) }
  function RunsBlock(fr: Json): Json { Or(Get(TerrainBlock(fr), "runs"), JObj([])) }

  /** The lift-and-terrain section read from `fullResort`; `None` when reading it throws. */
  function TerrainSection(fr: Json, now: string): Option<LiftsTerrain> {
    var raw := RawTrails(RunsBlock(fr));
    if exists i :: 0 <= i < |raw| && TrimThrows(raw[i]) then None
    else
      var trails := Map(Filter(raw, KeepTrail), ToTrail);
      var rawLifts := RawLifts(TerrainBlock(fr));
      if LiftsThrow(rawLifts) then None
      else
        var lifts := Map(rawLifts.items, ToLift);
        Some(Section(CountWhere(lifts, IsOpenLift), CountWhere(trails, IsOpenTrail), lifts, trails, OtsUrl, now))
  }

  function Mountain(now: string): MountainInfo {
    MountainInfo("stratton", "Stratton", OtsUrl, now, "Stratton, VT")
  }

  /** `getStrattonData`: the weather must succeed; both sections fall back to their defaults. */
  function StrattonData(src: Sources, now: string): (r: Result<MountainData>)
    ensures r.Failure? <==> GetWeatherData(src.weather, now).Failure?
    ensures r.Failure? ==> r.error == GetWeatherData(src.weather, now).error
    ensures r.Success? ==> r.value.weather == GetWeatherData(src.weather, now).value
                           && r.value.mountain == Mountain(now) && r.value.generatedAt == now
    ensures r.Success? && FullResort(src.page).None? ==>
              r.value.snowReport == DefaultSnowReport(OtsUrl, now) && r.value.liftsTerrain == DefaultLiftsTerrain(OtsUrl, now)
  {
    match GetWeatherData(src.weather, now)
    case Failure(e) => Failure(e)
    case Success(weather) =>
      var fr := FullResort(src.page);
      var snow := if fr.Some? then SnowSection(fr.value, src.officialFeed, now) else DefaultSnowReport(OtsUrl, now);
      var terrain :=
        if fr.Some? && TerrainSection(fr.value, now).Some? then TerrainSection(fr.value, now).value
        else DefaultLiftsTerrain(OtsUrl, now);
      Success(MountainData(Mountain(now), snow, terrain, weather, now))
  }

  /**
   * The terrain part of the adapter step by step: `None` when it throws, and
   * the caller then keeps the default section.
   */
  method ReadTerrain(fullResort: Json, now: string) returns (section: Option<LiftsTerrain>)
    ensures section == TerrainSection(fullResort, now)
  {
    var terrain := Or(Get(fullResort, "terrain"), JObj([]));
    var runs := Or(Get(terrain, "runs"), JObj([]));
    var rawTrails: seq<Json>;
    if runs.JArr? {
      rawTrails := runs.items;
    } else if Truthy(Get(runs, "details")) && Get(runs, "details").JArr? {
      rawTrails := Get(runs, "details").items;
    } else {
      rawTrails := Values(runs);
    }
    assert rawTrails == RawTrails(RunsBlock(fullResort));
    if exists i :: 0 <= i < |rawTrails| && TrimThrows(rawTrails[i]) {
      return None;
    }
    var trails := Map(Filter(rawTrails, KeepTrail), ToTrail);
    var rawLifts := RawLifts(terrain);
    if LiftsThrow(rawLifts) {
      return None;
    }
    var lifts := Map(rawLifts.items, ToLift);
    var trailsOpen := CountWhere(trails, IsOpenTrail);
    var liftsOpen := CountWhere(lifts, IsOpenLift);
    section := Some(Section(liftsOpen, trailsOpen, lifts, trails, OtsUrl, now));
  }

  /**
   * The adapter step by step: both sections start at their defaults and are
   * overwritten as far as reading the page gets before something throws.
   */
  method GetStrattonData(src: Sources, now: string) returns (r: Result<MountainData>)
    ensures r == StrattonData(src, now)
  {
    var weather := GetWeatherData(src.weather, now);
    if weather.Failure? {
      return Failure(weather.error);
    }
    var snowReport := DefaultSnowReport(OtsUrl, now);
    var liftsTerrain := DefaultLiftsTerrain(OtsUrl, now);
    // a missing or unparsable script, and `json.props` on a null document, end the attempt
    if src.page.Some? && !Nullish(src.page.value) {
      var fullResort := Get(Get(Get(src.page.value, "props"), "pageProps"), "fullResort");
      if Truthy(fullResort) {
        assert FullResort(src.page) == Some(fullResort);
        snowReport := SnowFigures(fullResort, now);
        if snowReport.seasonSnowIn == Fin(0.0) {
          var fallbackTotal := OfficialSeasonTotal(src.officialFeed);
          if fallbackTotal > 0.0 {
            snowReport := snowReport.(seasonSnowIn := Fin(fallbackTotal));
          }
        }
        assert snowReport == SnowSection(fullResort, src.officialFeed, now);
        var terrain := ReadTerrain(fullResort, now);
        if terrain.Some? {
          liftsTerrain := terrain.value;
        }
      }
    }
    r := Success(MountainData(Mountain(now), snowReport, liftsTerrain, weather.value, now));
  }

  // ---- what the adapter promises ----

  /**
   * The snow figures: base depth prefers `depths.base`, then `snow.base`, then
   * 0, with min equal to max; each window prefers its own positive figure,
   * then the next longer window's nonzero figure, then 0; no figure is `NaN`;
   * conditions read `Open`.
   */
  lemma SnowFiguresSpec(fr: Json, now: string)
    ensures var r := SnowFigures(fr, now);
      var s, d := SnowBlock(fr), DepthBlock(fr);
      var last24, last48, last72 := ParseFloatOf(Get(s, "last24")), ParseFloatOf(Get(s, "last48")), ParseFloatOf(Get(s, "last72"));
      && r.baseDepthIn.min == r.baseDepthIn.max
      && r.baseDepthIn.min.Fin? && r.snow24hIn.Fin? && r.snow48hIn.Fin? && r.snow7dIn.Fin?
      && (NonZero(ParseFloatOf(Get(d, "base"))) ==> r.baseDepthIn.min == ParseFloatOf(Get(d, "base")))
      && (!NonZero(ParseFloatOf(Get(d, "base"))) && NonZero(ParseFloatOf(Get(s, "base"))) ==>
            r.baseDepthIn.min == ParseFloatOf(Get(s, "base")))
      && (!NonZero(ParseFloatOf(Get(d, "base"))) && !NonZero(ParseFloatOf(Get(s, "base"))) ==>
            r.baseDepthIn.min == Fin(0.0))
      && (Positive(last24) ==> r.snow24hIn == last24)
      && (!Positive(last24) && NonZero(last48) ==> r.snow24hIn == last48)
      && (!Positive(last24) && !NonZero(last48) ==> r.snow24hIn == Fin(0.0))
      && (Positive(last48) ==> r.snow48hIn == last48)
      && (!Positive(last48) && NonZero(last72) ==> r.snow48hIn == last72)
      && (!Positive(last48) && !NonZero(last72) ==> r.snow48hIn == Fin(0.0))
      && (NonZero(last72) ==> r.snow7dIn == last72)
      && (!NonZero(last72) ==> r.snow7dIn == Fin(0.0))
      && r.seasonSnowIn == Fin(0.0) && r.conditions == JStr("Open") && r.sourceUrl == OtsUrl
  {
  }

  /**
   * The official feed supplies the season total and nothing else: two feeds
   * give reports that differ at most in `seasonSnowIn`, which is 0 unless
   * the feed's value is positive.
   */
  lemma SeasonTotalOnlyFromFeed(fr: Json, feed1: Reply<Json>, feed2: Reply<Json>, now: string)
    ensures SnowSection(fr, feed1, now).(seasonSnowIn := Fin(0.0)) == SnowSection(fr, feed2, now).(seasonSnowIn := Fin(0.0))
    ensures SnowSection(fr, feed1, now).seasonSnowIn == Fin(OfficialSeasonTotal(feed1))
  {
  }

  /** A trail as it can be shown: a string name that is not excluded, and a status of `Open` or `Closed`. */
  predicate ShownTrail(tr: TrailCondition) {
    && tr.name.JStr? && !ExcludedName(Trim(tr.name.s))
    && (tr.status == "Open" || tr.status == "Closed")
  }

  /**
   * The lift-and-terrain section, when reading it does not throw: it is
   * well formed; its trails are, in order, the raw trails the filter keeps;
   * every kept name is a string whose trimmed form is neither excluded nor a
   * glade; statuses are `Open` or `Closed` and the open counts count them.
   */
  lemma TerrainSectionSpec(fr: Json, now: string)
    requires TerrainSection(fr, now).Some?
    ensures var t := TerrainSection(fr, now).value;
      var raw := RawTrails(RunsBlock(fr));
      var kept := Filter(raw, KeepTrail);
      && WellFormed(t)
      && t.trails == Map(kept, ToTrail)
      && IsSubsequence(kept, raw)
      && |t.trails| <= |raw|
      && (forall x :: x in kept <==> x in raw && KeepTrail(x))
      && (forall i :: 0 <= i < |t.trails| ==> ShownTrail(t.trails[i]))
      && |t.lifts| == |RawLifts(TerrainBlock(fr)).items|
      && (forall i :: 0 <= i < |t.lifts| ==> t.lifts[i].status == "Open" || t.lifts[i].status == "Closed")
      && t.trailsOpen == CountWhere(t.trails, IsOpenTrail)
      && t.liftsOpen == CountWhere(t.lifts, IsOpenLift)
      && t.terrainOpenPct <= 100
  {
    var t := TerrainSection(fr, now).value;
    TerrainSectionParts(fr, now);
    KeptTrails(RawTrails(RunsBlock(fr)));
    WellFormedPct(t);
  }

  /** What the section is built from: the mapped kept trails, the mapped lifts, and their open counts. */
  lemma TerrainSectionParts(fr: Json, now: string)
    requires TerrainSection(fr, now).Some?
    ensures var t := TerrainSection(fr, now).value;
      && WellFormed(t)
      && t.trails == Map(Filter(RawTrails(RunsBlock(fr)), KeepTrail), ToTrail)
      && t.lifts == Map(RawLifts(TerrainBlock(fr)).items, ToLift)
      && t.trailsOpen == CountWhere(t.trails, IsOpenTrail)
      && t.liftsOpen == CountWhere(t.lifts, IsOpenLift)
  {
  }

  /** The trails the filter keeps, in order, each with a string name that is not excluded. */
  lemma KeptTrails(raw: seq<Json>)
    ensures var kept := Filter(raw, KeepTrail);
      var trails := Map(kept, ToTrail);
      && IsSubsequence(kept, raw)
      && |trails| <= |raw|
      && (forall x :: x in kept <==> x in raw && KeepTrail(x))
      && (forall i :: 0 <= i < |trails| ==> ShownTrail(trails[i]))
  {
    var kept := Filter(raw, KeepTrail);
    FilterIsSubsequence(raw, KeepTrail);
    forall x ensures x in kept <==> x in raw && KeepTrail(x) {
      FilterMembers(raw, KeepTrail, x);
    }
    forall i | 0 <= i < |kept|
      ensures ShownTrail(ToTrail(kept[i]))
    {
      KeptTrailName(kept[i]);
    }
  }

  /** A kept trail shows its own name, a string that is not excluded. */
  lemma KeptTrailName(t: Json)
    requires KeepTrail(t)
    ensures ToTrail(t).name == Get(t, "name")
    ensures ShownTrail(ToTrail(t))
  {
  }


  /**
   * A trail whose name throws on `trim`, or lifts that cannot be mapped,
   * reset the terrain to its default; the snow report read before stays.
   */
  lemma TerrainFailureKeepsSnow(src: Sources, now: string)
    requires FullResort(src.page).Some? && TerrainSection(FullResort(src.page).value, now).None?
    requires StrattonData(src, now).Success?
    ensures StrattonData(src, now).value.liftsTerrain == DefaultLiftsTerrain(OtsUrl, now)
    ensures StrattonData(src, now).value.snowReport == SnowSection(FullResort(src.page).value, src.officialFeed, now)
  {
  }

  function NamedTrail(name: string): Json {
    JObj([("name", JStr(name))])
  }

  /** The filter's test on a trail object with a string name: what it says about the trimmed name. */
  lemma KeepNamedTrail(n: string)
    ensures Get(NamedTrail(n), "name") == JStr(n)
    ensures KeepTrail(NamedTrail(n)) <==> |n| > 0 && !ExcludedName(Trim(n))
  {
  }

  /** A name containing one of the fragments is dropped. */
  lemma DroppedByFragment(n: string, i: nat)
    requires i < |ExcludedFragments| && Contains(Trim(n), ExcludedFragments[i])
    ensures !KeepTrail(NamedTrail(n))
  {
    KeepNamedTrail(n);
  }

  /** A glade is dropped. */
  lemma DroppedAsGlade(n: string)
    requires Trim(n) in Glades
    ensures !KeepTrail(NamedTrail(n))
  {
    KeepNamedTrail(n);
  }

  /** A name with none of the fragments that is not a glade is kept. */
  lemma KeptByName(n: string)
    requires |n| > 0
    requires forall i :: 0 <= i < |ExcludedFragments| ==> !Contains(Trim(n), ExcludedFragments[i])
    requires Trim(n) !in Glades
    ensures KeepTrail(NamedTrail(n))
  {
    KeepNamedTrail(n);
  }

  /** A composite trail is dropped. */
  lemma CompositeTrailDropped(n: string)
    requires n == "Liftline, Lower Liftline"
    ensures !KeepTrail(NamedTrail(n))
  {
    TrimUnpadded(n);
    ContainsAt(n, ",", 8);
    DroppedByFragment(n, 0);
  }

  /** A utility path is dropped. */
  lemma AccessRoadDropped(n: string)
    requires n == "East Access Road"
    ensures !KeepTrail(NamedTrail(n))
  {
    TrimUnpadded(n);
    ContainsAt(n, "Access", 5);
    DroppedByFragment(n, 6);
  }

  /** A glade is dropped by its exact name. */
  lemma TestPilotDropped(n: string)
    requires n == "Test Pilot"
    ensures !KeepTrail(NamedTrail(n))
  {
    TrimUnpadded(n);
    TestPilotIsGlade(n);
    DroppedAsGlade(n);
  }

  lemma TestPilotIsGlade(n: string)
    requires n == "Test Pilot"
    ensures n in Glades
  {
    assert Glades[5] == n;
  }

  /** A name that lacks, for every fragment, one of that fragment's characters contains none of them. */
  lemma NoFragmentByMissingChars(n: string, missing: seq<char>)
    requires |missing| == |ExcludedFragments|
    requires forall i :: 0 <= i < |missing| ==> missing[i] in ExcludedFragments[i] && missing[i] !in n
    ensures forall i :: 0 <= i < |ExcludedFragments| ==> !Contains(n, ExcludedFragments[i])
  {
    forall i | 0 <= i < |ExcludedFragments|
      ensures !Contains(n, ExcludedFragments[i])
    {
      NotContainsMissingChar(n, ExcludedFragments[i], missing[i]);
    }
  }

  /** An ordinary trail is kept. */
  lemma OrdinaryTrailKept(n: string)
    requires n == "Lower Wanderer"
    ensures KeepTrail(NamedTrail(n))
  {
    TrimUnpadded(n);
    NoFragmentByMissingChars(n, ",&USCkAE");
    KeptByName(n);
  }
}
