# Snow report: a Dafny model of the resort-data pipeline

`snow-report` is a small web service for three Vermont ski resorts: Mount Snow
and Okemo, both Vail resorts, and Stratton. Each request turns upstream data
into one normalised `MountainData` record. That data is the resort's own
pages, OnTheSnow's page data, the MtnPowder feed and the Open-Meteo forecast.
The record holds a snow report, a lift-and-terrain section, a weather section
and mountain information.

The record is served in three places:

- through a two-tier cache, by `GET /api/mountain?slug=…`;
- by a daily cron job that mails each active subscriber a report or a digest;
- in the resort widget, which sorts, bands and classifies what it shows.

This project models that pipeline and proves what it promises. The modules
follow the program's files:

| module | file | models |
|---|---|---|
| `MountainTypes` | `types.dfy` | the record shapes, the default sections, the terrain percentage |
| `Stratton` | `stratton.dfy` | the Stratton adapter: snow figures, the official season total, the trail filter, the status and difficulty codes |
| `VailResorts` | `vail_resorts.dfy` | the Vail adapter: the resort table, `parseIn` and its fallbacks, grooming-area flattening, the lift and trail open tests |
| `Weather` | `weather.dfy` | the Open-Meteo normaliser and the weather-code labels |
| `Cache` | `cache.dfy` | the memory-then-file-then-fetch cache, as a class over two maps |
| `MountainRoute` | `mountain_route.dfy` | slug defaulting, adapter dispatch, cache key and TTL, the 500 response |
| `DailyReport` | `daily_report.dfy` | authorisation, the data map, the active-subscriber query, and the per-subscriber loop with its counters |
| `SnowWidget` | `snow_widget.dfy` | sort toggling, the stable copy-sort, the gauge bands, the badges, the weather icon, and the display rules |
| `JsStrings`, `JsNumbers`, `JsonValues`, `Lists`, `Wrappers` | the other files | the JavaScript semantics the code relies on: `includes`, `trim`, `toLowerCase` and string `<`; `parseFloat`, `String(number)` and `Math.round`; untyped JSON values with logical or, `?.`, `Object.values` and truthiness; `filter`, `map` and a count |

### How the model stands in for the program

- Upstream payloads are inputs. Each is a parsed JSON value, `None` when the
  marker is absent or its text does not parse, or a fetch failure.
- The clock is a parameter.
- The cache's file system is a map from path to slot, plus flags saying
  whether reading or writing throws.
- The cache's producer is a function value. A ghost counter records how often
  the cache called it.
- Computed JavaScript numbers are `NaN` or an exact real.
- A forecast reading is `undefined` (past the end of an array), `null`, or a value, and
  each is treated as JavaScript treats it.
- An adapter that throws returns `Failure` with the error text.

The adapters follow their source in form:

- `GetStrattonData` and `GetVailResortData` are methods proved equal to the
  functions `StrattonData` and `VailResortData`.
- The mountain route's producer and the cron job use those functions and
  methods.
- The Vail grooming areas are flattened by a `forEach`-style loop.
- The cron job's subscriber loop increments its counters in a `while` loop.
- The cache and the widget's sort state are classes whose methods update
  their fields.

## Model

| member | source | states |
|---|---|---|
| `MountainTypes.DefaultSnowReport` | src/lib/stratton.ts:17-26 | the fallback snow report: all figures zero, base range 0–0, conditions `Data Unavailable`, the page URL and the request time |
| `MountainTypes.DefaultLiftsTerrain` | src/lib/stratton.ts:28-38 | the fallback terrain section: zero counts, empty lists, percentage 0, well-formed |
| `MountainTypes.TerrainPct` | src/lib/stratton.ts:144 | the terrain percentage is at most 100, and 0 without trails |
| `MountainTypes.TerrainPctRounds` | src/lib/vail-resorts.ts:151 | the integer formula `(200·open + total) div (2·total)` equals `Math.round(open / total · 100)` whenever there are trails |
| `MountainTypes.WellFormedPct` | src/lib/stratton.ts:139-149 | in a well-formed section the percentage is within 0–100, 0 without trails, and otherwise the rounded share of open trails |
| `MountainTypes.Section` | src/lib/stratton.ts:139-149 | a section built from lists and open counts is well-formed, meaning the totals are the list lengths and each open count is at most its total, and it carries exactly the given lists, counts, URL and time |
| `Stratton.OfficialSeasonTotal` | src/lib/stratton.ts:176-206 | the feed helper's result is never negative, is positive exactly when the reply is ok with a body whose `Resorts[0].SnowReport.SeasonTotalIn` parses to a positive number, and is then that number |
| `Stratton.FalsyNotPositive` | src/lib/stratton.ts:196-198 | a falsy `SeasonTotalIn` never yields a positive total, so the truthiness guard loses nothing |
| `Stratton.FullResort` | src/lib/stratton.ts:46-50 | the adapter reads only a truthy `props.pageProps.fullResort` |
| `Stratton.RawTrails` | src/lib/stratton.ts:84-93 | the raw trails are `runs` if it is an array, else `runs.details` if that is an array, else `Object.values(runs)`, the member values in the object's property order |
| `Stratton.MapDifficulty` | src/lib/stratton.ts:208-218 | codes 1–4 map to green, blue, black and double_black, and every other value maps to `undefined` (both directions) |
| `Stratton.TrailStatus` | src/lib/stratton.ts:122 | a trail is `Open` exactly when its status is the number 1 or the text `Open`, and `Closed` otherwise |
| `Stratton.LiftStatus` | src/lib/stratton.ts:131 | a lift is `Open` exactly when its status is the number 2, and `Closed` otherwise |
| `Stratton.ReadTerrain` | src/lib/stratton.ts:82-149 | the imperative terrain parse equals the pure terrain section |
| `Stratton.StrattonData` | src/lib/stratton.ts:9-174 | the adapter fails exactly when the forecast fails, with the forecast's error; page and feed problems only leave sections at their defaults; a record carries the forecast, the Stratton mountain and the request time, and without `fullResort` both default sections |
| `Stratton.KeepTrail` | src/lib/stratton.ts:99-119 | a kept trail has a non-empty string name, so the filter never keeps a trail whose `trim` would throw |
| `Stratton.GetStrattonData` | src/lib/stratton.ts:9-174 | the imperative adapter, with its reassigned sections and in-place season total, equals `StrattonData` |
| `Stratton.SnowFiguresSpec` | src/lib/stratton.ts:52-70 | base depth is `depths.base` if it parses nonzero, else `snow.base`, else 0, with min equal to max; 24h is `last24` if positive, else `last48`, else 0; 48h is `last48` if positive, else `last72`, else 0; 7-day is `last72`, else 0; conditions are `Open` |
| `Stratton.SeasonTotalOnlyFromFeed` | src/lib/stratton.ts:72-79 | the official feed changes nothing but the season total, and the season total is exactly the feed helper's result |
| `Stratton.TerrainSectionSpec` | src/lib/stratton.ts:98-149 | the trails are the kept raw trails, mapped in order; the kept list is a subsequence of the raw list and holds exactly the raw trails the filter accepts; every shown trail has a name that is not excluded and is `Open` or `Closed`; there is one lift per raw lift; the open counts count the `Open` entries; the percentage is at most 100 |
| `Stratton.TerrainSectionParts` | src/lib/stratton.ts:120-149 | the section is the filtered-and-mapped trails and the mapped lifts, with `filter(...).length` counts |
| `Stratton.KeptTrails` | src/lib/stratton.ts:98-125 | filtering keeps order, never lengthens the list, keeps a raw trail exactly when the filter accepts it, and yields only trails that pass the display rules |
| `Stratton.KeptTrailName` | src/lib/stratton.ts:99-121 | a kept trail has a name, so the `Unknown` fallback never applies to it |
| `Stratton.TerrainFailureKeepsSnow` | src/lib/stratton.ts:150-154 | when the terrain part throws, the terrain section stays at its default but the snow figures already read are kept |
| `Stratton.KeepNamedTrail` | src/lib/stratton.ts:99-119 | a trail with a string name is kept exactly when the name is non-empty and its trimmed form is not excluded |
| `Stratton.DroppedByFragment` | src/lib/stratton.ts:104-108 | a trimmed name containing any of the eight excluded fragments is dropped |
| `Stratton.DroppedAsGlade` | src/lib/stratton.ts:111-116 | a trimmed name equal to one of the eleven glades is dropped |
| `Stratton.KeptByName` | src/lib/stratton.ts:99-118 | a non-empty name with no excluded fragment that is not a glade is kept |
| `Stratton.CompositeTrailDropped` | src/lib/stratton.ts:104 | the composite trail `Liftline, Lower Liftline` is dropped |
| `Stratton.AccessRoadDropped` | src/lib/stratton.ts:106 | `East Access Road` is dropped |
| `Stratton.TestPilotDropped` | src/lib/stratton.ts:111-116 | the glade `Test Pilot` is dropped |
| `Stratton.TestPilotIsGlade` | src/lib/stratton.ts:113 | `Test Pilot` is on the glade list |
| `Stratton.NoFragmentByMissingChars` | src/lib/stratton.ts:104-106 | a name lacking one character of each excluded fragment contains none of them |
| `Stratton.OrdinaryTrailKept` | src/lib/stratton.ts:99-118 | `Lower Wanderer` is kept |
| `VailResorts.Config` | src/lib/vail-resorts.ts:18-33 | exactly `mount-snow` and `okemo` are configured, each under its own id |
| `VailResorts.ParseIn` | src/lib/vail-resorts.ts:83 | a string is read with `parseFloat`, a number is taken as is, and anything else is 0 |
| `VailResorts.FlattenGroomingAreas` | src/lib/vail-resorts.ts:129-134 | the `forEach`/`concat` loop equals the flattened grooming trails |
| `VailResorts.ReadLiftPage` | src/lib/vail-resorts.ts:106-173 | the lift page yields the parsed terrain section when its feed was found and parsing does not throw, and the default section otherwise |
| `VailResorts.VailResortData` | src/lib/vail-resorts.ts:50-193 | the adapter succeeds exactly for a configured resort whose forecast and both page fetches succeed; the record carries the forecast and the request time, and its snow and terrain sections are read from their own pages |
| `VailResorts.IsLiftOpen` | src/lib/vail-resorts.ts:140 | an open lift has a truthy status; a non-empty text status is open exactly when it reads `open`, `open_priority` or `scheduled` in any case, or is `1` |
| `VailResorts.IsTrailOpen` | src/lib/vail-resorts.ts:141 | `IsOpen === true` makes a trail open; otherwise an open trail has a truthy status, and a text status is open exactly when it reads `open` in any case or is `1` |
| `VailResorts.GetVailResortData` | src/lib/vail-resorts.ts:50-193 | the imperative adapter equals `VailResortData` |
| `VailResorts.UnknownResortFails` | src/lib/vail-resorts.ts:51-52 | any other id fails with `Unknown resort: <id>`, whatever the upstream data |
| `VailResorts.SectionsIndependent` | src/lib/vail-resorts.ts:63-173 | the snow section depends only on the weather page and the terrain section only on the lift page |
| `VailResorts.ReadSnowSpec` | src/lib/vail-resorts.ts:85-97 | 24h falls back from `TwentyFourHourSnowfall` to `OvernightSnowfall` and the season from `CurrentSeason` to `SeasonTotal`, on falsy inches; conditions fall back to `Open`; base min equals max |
| `VailResorts.GroomingTrailsAppend` | src/lib/vail-resorts.ts:129-134 | flattening distributes over concatenation of the area list |
| `VailResorts.GroomingTrailsFails` | src/lib/vail-resorts.ts:130-131 | flattening throws exactly when some grooming area is `null` or `undefined` |
| `VailResorts.LiftOpenMatchesShownStatus` | src/lib/vail-resorts.ts:140-154 | a lift is counted open exactly when its displayed status text is an open token (`open`, `open_priority` or `scheduled` in any case, or `1`) |
| `VailResorts.ReadTerrainSpec` | src/lib/vail-resorts.ts:126-163 | the parsed section is well-formed; lifts and trails are mapped one-to-one and in order; each lift's status is its raw status as text, or `Closed` when undefined; the open counts count the open lifts and trails; the percentage is at most 100 |
| `VailResorts.LiftOpenExamples` | src/lib/vail-resorts.ts:140 | `open` and `1` are open; `closed` and `hold` are not |
| `Weather.DecodeWeatherCode` | src/lib/weather.ts:90-97 | the label is one of the eight labels; a code past the end of an array (`undefined`) is `Storm`; a `null` code is `Cloudy`; otherwise it is the label of the code's band |
| `Weather.Band` | src/lib/weather.ts:90-97 | band 0 is exactly code 0; any other band is the first threshold (3, 48, 67, 77, 82, 86) the code does not exceed, or the last band when it exceeds them all |
| `Weather.NegativeCodesAreCloudy` | src/lib/weather.ts:91 | negative codes are `Cloudy` |
| `Weather.BandMonotone` | src/lib/weather.ts:91-97 | for positive codes a larger code never gets an earlier band |
| `Weather.RoundAt` | src/lib/weather.ts:39-41 | rounding an array entry gives `NaN` exactly past the end, 0 for a `null` entry, and otherwise the rounded value |
| `Weather.RoundOf` | src/lib/weather.ts:61-65 | `Math.round` of a reading is `NaN` exactly for `undefined`, 0 for `null`, and otherwise an integer within half a unit of the value |
| `Weather.At` | src/lib/weather.ts:42-43 | reading an array entry gives `undefined` exactly past the end, `null` exactly for a `null` entry, and otherwise the entry's value |
| `Weather.Field` | src/lib/weather.ts:61-66 | a field of the current block is never `undefined`; it is `null` exactly when the payload has `null` |
| `Weather.Normalize` | src/lib/weather.ts:32-72 | the current temperature, wind and gusts are always numbers; today's high and low are `NaN` exactly when their daily array is empty; the conditions are one of the labels; at most 10 days and 24 hours; the source is `Open-Meteo` and the time is the request time |
| `Weather.DailyForecasts` | src/lib/weather.ts:37-45 | the daily list has `min(days, 10)` entries, entry `i` built from index `i` of every daily array |
| `Weather.FindFirstNotBefore` | src/lib/weather.ts:48 | `findIndex` gives the first hour not earlier than the current time, or none when every hour is earlier |
| `Weather.StartIndex` | src/lib/weather.ts:48-49 | the window start lies within the hourly list |
| `Weather.HourlyWindowFrom` | src/lib/weather.ts:50-57 | the window has `min(24, n − start)` entries, entry `i` read from index `start + i` |
| `Weather.GetWeatherData` | src/lib/weather.ts:19-29 | the fetch succeeds exactly for an ok reply with a body, and then yields the normalised body |
| `Weather.NormalizeShape` | src/lib/weather.ts:37-71 | at most 10 days and 24 hours; today's high and low are the first day's; the source is `Open-Meteo`; there are hours exactly when the feed has hours; the window starts at the current hour when one exists |
| `Weather.HourlyWindowIsUpcoming` | src/lib/weather.ts:48-57 | over sorted hours, either every hour is past or every hour shown is not before the current time |
| `Weather.AfterStartNotBefore` | src/lib/weather.ts:48-50 | in sorted hours, every hour after the first upcoming one is upcoming too |
| `Cache.FilePath` | src/lib/cache.ts:31 | a key's file is `/tmp/cache_<key>.json` |
| `Cache.FilePathInjective` | src/lib/cache.ts:31 | distinct keys have distinct cache files |
| `Cache.Lookup` | src/lib/cache.ts:16-67 | the producer runs exactly when neither tier holds a fresh entry; a hit always succeeds and leaves the files alone; a failure comes only from the producer and changes nothing; a success leaves the returned data in the memory tier |
| `Cache.TwoTierCache.constructor` | src/lib/cache.ts:6 | the cache starts with both tiers empty and no producer calls |
| `Cache.TwoTierCache.GetCachedData` | src/lib/cache.ts:16-67 | the call updates both tiers and returns the result exactly as `Lookup` does, and counts one producer call exactly when it fetched |
| `Cache.HitNeverFetches` | src/lib/cache.ts:23-43 | on a fresh memory or file entry the producer is not called, the stored data is returned, the files are untouched, a memory hit changes nothing, and a file hit copies the stored entry, expiry included, into memory |
| `Cache.MissFetchesOnce` | src/lib/cache.ts:48-66 | on a miss the producer is called once; its failure stores nothing; its value is stored in memory with expiry `now + ttl·1000`, and in the file unless writing fails |
| `Cache.OnlyTheKeyChanges` | src/lib/cache.ts:40-61 | a call adds or replaces only the requested key's memory entry and file, and never deletes an entry |
| `Cache.SuccessFillsMemory` | src/lib/cache.ts:40-57 | after a successful call the memory tier holds the returned data, fresh whenever the TTL is positive or the entry came from a tier |
| `Cache.RepeatWithinTtlHits` | src/lib/cache.ts:24-28 | a repeat call before the entry expires is a memory hit that changes nothing and fetches nothing |
| `Cache.FirstCallFetches` | src/lib/cache.ts:48-50 | the first call on an empty cache calls the producer |
| `Cache.ExpiryIsStrict` | src/lib/cache.ts:25 | an entry whose expiry equals the current time is not a hit |
| `MountainRoute.SlugOf` | src/app/api/mountain/route.ts:13 | a missing or empty slug is `mount-snow`; any other slug is kept |
| `MountainRoute.AdapterFor` | src/app/api/mountain/route.ts:20-28 | `stratton` selects the Stratton adapter and `okemo` the Okemo adapter; every other slug selects Mount Snow's (each both ways) |
| `MountainRoute.Respond` | src/app/api/mountain/route.ts:31-35 | success is served as is; any failure is status 500 with the fixed message |
| `MountainRoute.Get` | src/app/api/mountain/route.ts:11-36 | the request looks up `mountain_data_<slug>` with a 900-second TTL and the slug's adapter as producer, and answers as the cache returns |
| `MountainRoute.NoUnknownResort` | src/app/api/mountain/route.ts:20-28 | every slug reaches a configured resort, so the route fails only when the forecast or a page fetch fails |
| `MountainRoute.CacheKeyInjective` | src/app/api/mountain/route.ts:17 | distinct slugs have distinct cache keys |
| `MountainRoute.UnknownSlugServesMountSnow` | src/app/api/mountain/route.ts:25-27 | an unknown slug gets Mount Snow's data under its own cache key |
| `DailyReport.UnsetSecretAdmitsAnyone` | src/app/api/cron/daily-report/route.ts:14-17 | as written, with no secret configured, the header `Bearer undefined` is authorised |
| `DailyReport.AuthorizedSpec` | src/app/api/cron/daily-report/route.ts:14-17 | the corrected check admits only a header carrying the configured secret, never admits anyone without a secret, and agrees with the written check whenever a secret is set |
| `DailyReport.OrNull` | src/app/api/cron/daily-report/route.ts:29-31 | a failed adapter becomes `null`, a successful one its data |
| `DailyReport.DataFor` | src/app/api/cron/daily-report/route.ts:34-71 | a slug is absent from the data map exactly when it is none of the three resorts |
| `DailyReport.DatePart` | src/app/api/cron/daily-report/route.ts:42 | today is the prefix of the timestamp before its first `T` |
| `DailyReport.WinnerIndex` | src/app/api/cron/daily-report/route.ts:86-87 | the leader has the most new snow, and every resort before it in the subscriber's order has strictly less, so ties go to the first |
| `DailyReport.Plan` | src/app/api/cron/daily-report/route.ts:62-98 | a subscriber without resorts is skipped; every email goes to the subscriber, and is a single-resort report exactly when the subscriber has one resort |
| `DailyReport.SendReports` | src/app/api/cron/daily-report/route.ts:59-99 | the loop's counters and outbox are those of the planned actions applied in order |
| `DailyReport.Serve` | src/app/api/cron/daily-report/route.ts:21-110 | past the check: no database means skipped; nothing is mailed unless the loop ran; when it ran there was a subscriber, `sent + failed` is at most the number of subscribers and one email is mailed per send |
| `DailyReport.Run` | src/app/api/cron/daily-report/route.ts:11-111 | the request as written: refused with 401 and no email exactly when the header is not `Bearer ` followed by the secret as printed (`undefined` when unset), otherwise served |
| `DailyReport.RunFixed` | src/app/api/cron/daily-report/route.ts:11-111 | the request with the corrected check: refused with 401 and no email exactly when no secret is configured or the header does not carry it, otherwise served |
| `DailyReport.Get` | src/app/api/cron/daily-report/route.ts:11-111 | the handler, with its check as written, answers and mails exactly as the request function `Run` |
| `DailyReport.UnauthorizedSendsNothing` | src/app/api/cron/daily-report/route.ts:15-17 | with the corrected check, a request without the configured secret, and any request when no secret is configured, is answered 401 and sends nothing |
| `DailyReport.UnsetSecretRunsJob` | src/app/api/cron/daily-report/route.ts:14-17 | with no secret configured, `Bearer undefined` gets the job run by the handler as written and is refused by the corrected one |
| `DailyReport.HandlersAgreeWithSecret` | src/app/api/cron/daily-report/route.ts:14-17 | once a secret is configured, the written and the corrected handler give the same answer and the same emails |
| `DailyReport.AdapterFailureIsNull` | src/app/api/cron/daily-report/route.ts:28-38 | each resort's entry is `null` exactly when its adapter fails |
| `DailyReport.ActiveRowsSpec` | src/app/api/cron/daily-report/route.ts:44-48 | a subscriber is selected exactly when it is stored and its stay covers today |
| `DailyReport.SingleResortRule` | src/app/api/cron/daily-report/route.ts:68-78 | with one resort, a report of that resort is sent exactly when its data is present, and this never fails |
| `DailyReport.FailureNeedsUnlistedSlug` | src/app/api/cron/daily-report/route.ts:81-98 | a subscriber's run fails exactly when the subscriber has several resorts and one slug names none of the three resorts |
| `DailyReport.DigestSpec` | src/app/api/cron/daily-report/route.ts:81-93 | a digest goes to the subscriber and lists exactly the resorts with data, in the subscriber's order, at least one; its leader has the most new snow and is the first such resort, every earlier one having strictly less |
| `DailyReport.CountersBounded` | src/app/api/cron/daily-report/route.ts:59-99 | `sent` counts the sends and `failed` the failures, `sent + failed` is at most the number of subscribers, and one email is queued per send |
| `DailyReport.OutboxIsPlanned` | src/app/api/cron/daily-report/route.ts:76-91 | every email queued is one a subscriber's plan sends |
| `DailyReport.RunAllSpec` | src/app/api/cron/daily-report/route.ts:59-105 | the whole loop: bounded counters, counts of sends and failures, and every email planned for some subscriber |
| `SnowWidget.NextDirection` | src/components/SnowWidget.tsx:52-55 | the next direction is descending exactly when the same key is sorted ascending |
| `SnowWidget.SortState.constructor` | src/components/SnowWidget.tsx:51-57 | the sort state starts unset |
| `SnowWidget.SortState.HandleSort` | src/components/SnowWidget.tsx:51-57 | a click sets the clicked key with the next direction |
| `SnowWidget.SortToggles` | src/components/SnowWidget.tsx:51-57 | the same key toggles between ascending and descending, so every second click repeats a direction; a new key starts ascending |
| `SnowWidget.GoesAfterAsymmetric` | src/components/SnowWidget.tsx:61-69 | the comparator's "goes after" is asymmetric |
| `SnowWidget.NotAfterTransitive` | src/components/SnowWidget.tsx:61-69 | "does not go after" is transitive |
| `SnowWidget.InsertPermutes` | src/components/SnowWidget.tsx:61 | insertion adds exactly the new element |
| `SnowWidget.InsertSorted` | src/components/SnowWidget.tsx:61-69 | insertion keeps a sorted list sorted |
| `SnowWidget.InsertStable` | src/components/SnowWidget.tsx:61 | insertion places the new element after every element with its key |
| `SnowWidget.SortBySpec` | src/components/SnowWidget.tsx:61-69 | the sort is ordered by the key in the chosen direction and is a permutation of its input |
| `SnowWidget.SortByStable` | src/components/SnowWidget.tsx:61 | the sort is stable: elements with equal keys keep their order |
| `SnowWidget.SortData` | src/components/SnowWidget.tsx:59-70 | without a sort state the rows come back unchanged; the result is always a permutation of the rows |
| `SnowWidget.SortDataSpec` | src/components/SnowWidget.tsx:59-70 | with no sort state the items come back unchanged; otherwise a sorted, stable permutation of the copy |
| `SnowWidget.GaugeBand` | src/components/SnowWidget.tsx:464-475 | Great exactly from 60, Good exactly from 20 below 60, Poor exactly below 20 |
| `SnowWidget.GaugeMonotone` | src/components/SnowWidget.tsx:469-475 | more open terrain never shows a worse band |
| `SnowWidget.NoTrailsShowPoor` | src/components/SnowWidget.tsx:464-475 | a resort without trails shows Poor |
| `SnowWidget.StatusBadge` | src/components/SnowWidget.tsx:531-538 | an empty status shows nothing; `open`, `hold` and `scheduled` in any case show Open, Hold and Sched (each both ways); anything else shows Closed |
| `SnowWidget.StatusBadgeIgnoresCase` | src/components/SnowWidget.tsx:533 | the badge does not depend on case |
| `SnowWidget.PriorityLiftCountedOpen` | src/lib/vail-resorts.ts:140 | an `open_priority` lift is counted open |
| `SnowWidget.PriorityLiftShownClosed` | src/components/SnowWidget.tsx:534-537 | yet its badge says Closed |
| `SnowWidget.DifficultyOf` | src/components/SnowWidget.tsx:540-564 | the blank dot is shown exactly for a missing or empty difficulty |
| `SnowWidget.Level` | src/components/SnowWidget.tsx:545-564 | every non-empty difficulty text gets a level, possibly the unlabelled one |
| `SnowWidget.DifficultyIgnoresCase` | src/components/SnowWidget.tsx:542 | the difficulty badge does not depend on case |
| `SnowWidget.DoubleBeforeBlack` | src/components/SnowWidget.tsx:554-557 | a text naming both double and black, and no easier level, is Expert |
| `SnowWidget.BlackAloneAdvanced` | src/components/SnowWidget.tsx:558-560 | black without double, expert or an easier level is Advanced |
| `SnowWidget.UnlabelledWithoutKeyword` | src/components/SnowWidget.tsx:545-564 | a text with no keyword and not one character long gets no label |
| `SnowWidget.NoKeywordWhenLacking` | src/components/SnowWidget.tsx:548-561 | a text lacking the letters g, n, b, i, d, x, p and t names no keyword |
| `SnowWidget.EasyUnlabelled` | src/components/SnowWidget.tsx:545-564 | `easy` gets no label |
| `SnowWidget.GreenEasiest` | src/components/SnowWidget.tsx:548-550 | `green` is Easiest |
| `SnowWidget.BlueIntermediate` | src/components/SnowWidget.tsx:551-553 | `blue` is Intermediate |
| `SnowWidget.BlackNamesNoOtherLevel` | src/components/SnowWidget.tsx:548-554 | `black` names none of green, novice, blue, intermediate, double or expert |
| `SnowWidget.BlackAdvanced` | src/components/SnowWidget.tsx:558-560 | `black` is Advanced |
| `SnowWidget.DoubleBlackNamesNoEasierLevel` | src/components/SnowWidget.tsx:548-551 | `double_black` does not name green, novice or intermediate |
| `SnowWidget.DoubleBlackNamesNoBlue` | src/components/SnowWidget.tsx:551 | `double_black` does not name blue |
| `SnowWidget.DoubleBlackExpert` | src/components/SnowWidget.tsx:554-557 | `double_black` is Expert, not Advanced, because the double rule comes first |
| `SnowWidget.StrattonNamesShowTheirLevels` | src/lib/stratton.ts:208-218 | each of Stratton's four difficulty names shows its own level: Easiest, Intermediate, Advanced and Expert |
| `SnowWidget.WeatherIcon` | src/components/SnowWidget.tsx:574-582 | the default icon is shown exactly when the lower-cased condition has none of the words snow, rain, cloud, sun, clear and fog |
| `SnowWidget.WeatherIconOrder` | src/components/SnowWidget.tsx:574-582 | each icon is shown exactly when its words occur in the lower-cased condition and no earlier rule's words do; the default icon is what is left |
| `SnowWidget.WeatherIconIgnoresCase` | src/components/SnowWidget.tsx:575 | the icon does not depend on case |
| `SnowWidget.SnowWins` | src/components/SnowWidget.tsx:574-576 | a condition mentioning snow, in any case, shows the snow icon |
| `SnowWidget.DefaultReportHidesStats` | src/components/SnowWidget.tsx:185 | a default snow report hides the snow figures |
| `SnowWidget.SeasonTotalText` | src/components/SnowWidget.tsx:196 | the season total shows rounded inches exactly when positive, and `--` otherwise |
| `SnowWidget.ForecastDays` | src/components/SnowWidget.tsx:239 | the forecast is `daily[1..8)`: at most seven days, in order, from the second |
| `SnowWidget.ForecastStartsTomorrow` | src/components/SnowWidget.tsx:239 | on a normalised record the forecast shows at most seven days, day `i` being the feed's day `i + 1` |
| `JsStrings.ContainsAt` | src/lib/stratton.ts:104-106 | `includes` holds when the fragment occurs at some position |
| `JsStrings.NotContainsMissingChar` | src/lib/stratton.ts:104-106 | a fragment with a character the text lacks is not included |
| `JsStrings.Trim` | src/lib/stratton.ts:101 | `trim` never lengthens a text, and what it returns neither starts nor ends with white space |
| `JsStrings.TrimSpec` | src/lib/stratton.ts:101 | `trim` returns a contiguous part of the text and cuts only white space from either end, white space being the full ECMAScript set of white-space characters and line terminators |
| `JsStrings.TrimUnpadded` | src/lib/stratton.ts:101 | trimming a text without surrounding white space changes nothing |
| `JsStrings.ToLower` | src/components/SnowWidget.tsx:533 | lower-casing keeps the length and maps each character on its own |
| `JsStrings.ToLowerIdempotent` | src/components/SnowWidget.tsx:533 | lower-casing twice is lower-casing once |
| `JsStrings.LessTransitive` | src/components/SnowWidget.tsx:62-65 | string `<` is transitive |
| `JsStrings.LessTotal` | src/components/SnowWidget.tsx:62-65 | any two different strings are ordered one way or the other |
| `JsNumbers.Round` | src/lib/weather.ts:39 | `Math.round` gives the integer within half a unit, rounding halves up |
| `JsNumbers.ParseFloat` | src/lib/stratton.ts:54-59 | `parseFloat` yields a number only for a text that holds a digit |
| `JsNumbers.ParseFloatEmpty` | src/lib/stratton.ts:57 | `parseFloat` of an empty text is `NaN` |
| `JsNumbers.ParseFloatLeadingJunk` | src/lib/stratton.ts:57 | `parseFloat` of a text starting with a non-numeric character is `NaN` |
| `JsNumbers.ParseFloatDecimalToString` | src/lib/stratton.ts:54 | `parseFloat(String(x))` is `x` for every decimal JSON number, so a numeric field reads as its value |
| `JsonValues.OrTruthy` | src/lib/vail-resorts.ts:86-94 | the `or` operator on values is truthy exactly when one operand is, and yields one of its operands |
| `JsonValues.NumberOrNonZero` | src/lib/stratton.ts:54-64 | the `or` operator on numbers with a nonzero fallback never yields 0 or `NaN`, and yields one of its operands |
| `JsonValues.ParseFloatOfIsParseFloatOfString` | src/lib/stratton.ts:54-59 | `parseFloat` of a JSON value is `parseFloat` of its string form |
| `JsonValues.ParseFloatOfWord` | src/lib/stratton.ts:54-59 | `parseFloat` of `undefined`, `null`, a boolean or an object is `NaN` |
| `Lists.Filter` | src/lib/stratton.ts:98-119 | `filter` keeps only accepted elements, counted by `CountWhere` |
| `Lists.FilterMembers` | src/lib/stratton.ts:98-119 | an element survives `filter` exactly when it is in the input and accepted |
| `Lists.FilterIsSubsequence` | src/lib/stratton.ts:98-119 | `filter` keeps order: its result is a subsequence of the input |
| `Lists.MapAppend` | src/lib/stratton.ts:120-125 | `map` distributes over concatenation |
| `Lists.CountWhereMap` | src/lib/stratton.ts:136-137 | counting after a `map` is counting the inputs with the composed test |

## Left out

- Fetching is not modelled. This covers `curl` through `execAsync`, `fetch`, cheerio's
  `#__NEXT_DATA__` lookup, the `FR.…Data` regular expressions and `JSON.parse`. Each
  adapter receives the parsed payloads, or a marker that a page was absent, did not
  parse, or could not be fetched.
- `Promise.all` is taken in sequence. A rejection fails the whole Vail call as before, but
  the interleaving of the three requests is not modelled.
- Floating point is replaced by exact reals, with `NaN` as its own constructor. `Math.round`
  is exact rounding half up, and IEEE rounding errors are not modelled.
- `parseFloat` reads white space, a sign, digits, a point and digits. Exponents, `Infinity`
  and hexadecimal prefixes are not modelled.
- The `summary` sentence of each record and the unused `generateSummary` are not modelled.
  They are text only, built from rounded floats.
- Timestamps from `new Date()` and `Date.now()` are parameters. The record's several time
  fields all get the request time.
- Cache: `path.join` normalisation of unusual keys is left out; a key's file is the plain
  concatenation. The JSON text round trip of the file tier is left out too; a file slot holds
  the entry itself or `Corrupt`.
- `Cache.TwoTierCache.GetCachedData`: each call runs to completion before the next begins.
  In the source the memory check and the write are separated by awaits: the file read and
  the producer. So two overlapping requests for a cold key both call the producer, and the
  later write wins. `Cache.RepeatWithinTtlHits` holds only for a call that starts after the
  first has returned.
- The memory tier is a process-wide `Map` in the source. Here it is the state of one
  `TwoTierCache` object. Sharing it across requests is written as calls on the same object.
- `SnowWidget.SortDataSpec`: sort keys are modelled as strings compared with `<`. Numbers,
  booleans, `undefined` and mixed-type comparisons between table cells are not modelled.
- `DailyReport.WinnerIndex`: a `NaN` snowfall is ranked below every number. The source's
  subtraction comparator is inconsistent for `NaN`, and the engine's result order in that
  case is not modelled.
- `DailyReport.DataFor`: the data map is a record of three fields. Lookups of inherited
  object keys such as `constructor` are not modelled.
- The emails are records holding the resort data. The HTML templates and subject lines are
  not modelled. `sendEmail` catches provider errors itself, so the loop counts every
  completed attempt as sent; a failure comes only from an exception in building the email.
- The Supabase client is a flag saying whether the database is configured. The subscriber
  query is a list of rows or a query error. Date comparison is string comparison of the
  stored dates, as in the query.
- React rendering, effects and the SVG arc of the gauge are not modelled. So are the widget's
  text formatting and the `TerrainPark` icon's markup; the `TerrainPark` level is modelled.
- `Stratton.RawTrails`: an object is taken as `JSON.parse` leaves it, with its members
  already in JavaScript's property order (integer-like keys first, ascending, then the others
  in text order) and each key once. The reordering from an object's text to that order is not
  modelled: the text `{"10": A, "9": B}` must be given as the members `9`, `10`, whose values
  `Object.values` lists as B, A.
- `JsonValues.Lookup` returns the first member with a key. For the duplicate keys of a JSON
  text, `JSON.parse` keeps the last value at the first key's position. Objects with duplicate
  keys are not modelled.
- `VailResorts.Config`: the resort table is a plain object, so an inherited key such as
  `constructor`, `toString` or `__proto__` is truthy and passes the unknown-resort guard; the
  call then throws a TypeError reading the configuration's URLs, not `Unknown resort`. The
  model treats every id other than the two configured ones as unknown, and so does
  `VailResorts.UnknownResortFails`.
- `JsStrings.ToLower` lower-cases ASCII letters only. Other letters with a lower-case form
  are kept; the Kelvin sign U+212A, which `toLowerCase` turns into `k`, is one example.
- `JsStrings.Less` compares Unicode code points. JavaScript compares UTF-16 code units, which
  orders characters above U+FFFF differently from those in U+E000–U+FFFF.
- The forecast payload's time stamps are always strings; a `null` time is not modelled.
  A payload the normaliser cannot read at all, such as one without a `daily` block, is a
  reply without a body.
- `Weather.GetWeatherData`: on a network error or an unreadable body the source rethrows the
  runtime's own error, whose message is not modelled; the model's failure texts only name
  those cases. The failing-status message is the source's.
- Console logging is not modelled in any module.

## Findings

| source | as written | input that shows it | evidently intended | confidence | as-written member | corrected member |
|---|---|---|---|---|---|---|
| src/app/api/cron/daily-report/route.ts:14-17 | the header is compared with `Bearer ${process.env.CRON_SECRET}`, which reads `Bearer undefined` when the secret is unset | no `CRON_SECRET` configured, and the header `authorization: Bearer undefined` | without a configured secret no request is authorised | not executed | `DailyReport.UnsetSecretRunsJob` | `DailyReport.RunFixed` |

The handler `DailyReport.Get` and the request function `DailyReport.Run` keep the check as
written. `DailyReport.RunFixed` is the same request with the corrected check, and the
properties of the job past the check are stated once, on `DailyReport.Serve`, which both use.

One more inconsistency is modelled as written rather than as a finding. A Vail lift whose
status is `open_priority` is counted among the open lifts, yet the widget's badge shows it
as Closed. See `SnowWidget.PriorityLiftCountedOpen` and `SnowWidget.PriorityLiftShownClosed`.
