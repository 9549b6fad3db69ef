/**
 * The decision helpers of the resort widget: the sort-toggle step on the
 * table headers, the stable copy-sort of the lift and trail tables, the
 * terrain gauge band, the status, difficulty and weather-icon classifiers,
 * and the rules for what the snow panel and the forecast show.
 */
module SnowWidget {
  import opened Wrappers
  import opened JsStrings
  import opened JsNumbers
  import opened JsonValues
  import opened Lists
  import opened MountainTypes
  import Weather
  import VailResorts
  import Stratton

  // ---- the sort toggle ----

  datatype Direction = Asc | Desc

  datatype SortConfig = SortConfig(key: string, direction: Direction)

  /** The direction a header click selects: descending only when the same key is sorted ascending. */
  function NextDirection(config: Option<SortConfig>, key: string): (d: Direction)
    ensures d == Desc <==> config == Some(SortConfig(key, Asc))
  {
    if config.Some? && config.value.key == key && config.value.direction == Asc then Desc else Asc
  }

  /** The widget's `sortConfig` state, `None` until a header is clicked. */
  class SortState {
    var config: Option<SortConfig>

    constructor ()
      ensures config == None
    {
      config := None;
    }

    /** `handleSort`: the clicked key becomes the sort key, with the next direction. */
    method HandleSort(key: string)
      modifies this
      ensures config == Some(SortConfig(key, NextDirection(old(config), key)))
    {
      var direction := Asc;
      if config.Some? && config.value.key == key && config.value.direction == Asc {
        direction := Desc;
      }
      config := Some(SortConfig(key, direction));
    }
  }

  /**
   * Clicking the same header toggles between ascending and descending;
   * clicking another header, or the first click, sorts ascending.
   */
  lemma SortToggles(config: Option<SortConfig>, key: string)
    ensures NextDirection(Some(SortConfig(key, Asc)), key) == Desc
    ensures NextDirection(Some(SortConfig(key, Desc)), key) == Asc
    ensures config.None? || config.value.key != key ==> NextDirection(config, key) == Asc
    ensures NextDirection(Some(SortConfig(key, NextDirection(Some(SortConfig(key, NextDirection(config, key))), key))), key)
            == NextDirection(config, key)
  {
  }

  // ---- the copy-sort ----

  /**
   * The comparator is positive: `a` belongs after `b`.  Ascending, when
   * `a`'s key is greater; descending, when it is smaller.  Equal keys
   * compare as 0.
   */
  predicate GoesAfter<X>(dir: Direction, key: X -> string, a: X, b: X) {
    match dir
    case Asc => Less(key(b), key(a))
    case Desc => Less(key(a), key(b))
  }

  predicate SortedBy<X>(dir: Direction, key: X -> string, s: seq<X>) {
    forall i, j :: 0 <= i < j < |s| ==> !GoesAfter(dir, key, s[i], s[j])
  }

  /** `x` placed after every element it does not belong before. */
  function Insert<X>(dir: Direction, key: X -> string, s: seq<X>, x: X): seq<X> {
    if |s| == 0 || !GoesAfter(dir, key, s[|s| - 1], x) then s + [x]
    else Insert(dir, key, s[..|s| - 1], x) + [s[|s| - 1]]
  }

  /** A stable sort by the comparator. */
  function SortBy<X>(dir: Direction, key: X -> string, xs: seq<X>): seq<X> {
    if |xs| == 0 then [] else Insert(dir, key, SortBy(dir, key, xs[..|xs| - 1]), xs[|xs| - 1])
  }

  /**
   * `sortData`: without a sort configuration the list itself; otherwise a
   * sorted copy, compared on the configured field of each row.
   */
  function SortData<X>(config: Option<SortConfig>, items: seq<X>, field: (string, X) -> string): (r: seq<X>)
    ensures config.None? ==> r == items
    ensures multiset(r) == multiset(items)
  {
    match config
    case None => items
    case Some(c) =>
      SortBySpec(c.direction, (x: X) => field(c.key, x), items);
      SortBy(c.direction, (x: X) => field(c.key, x), items)
  }

  lemma GoesAfterAsymmetric<X>(dir: Direction, key: X -> string, a: X, b: X)
    requires GoesAfter(dir, key, a, b)
    ensures !GoesAfter(dir, key, b, a)
  {
    if GoesAfter(dir, key, b, a) {
      LessTransitive(key(a), key(b), key(a));
      LessIrreflexive(key(a));
    }
  }

  /** "Not after" is transitive, since the string order is total. */
  lemma NotAfterTransitive<X>(dir: Direction, key: X -> string, a: X, b: X, c: X)
    requires !GoesAfter(dir, key, a, b) && !GoesAfter(dir, key, b, c)
    ensures !GoesAfter(dir, key, a, c)
  {
    var ka, kb, kc := key(a), key(b), key(c);
    LessTotal(ka, kb);
    LessTotal(kb, kc);
    match dir
    case Asc =>
      if Less(kc, ka) && Less(ka, kb) {
        LessTransitive(kc, ka, kb);
      }
    case Desc =>
      if Less(ka, kc) && Less(kc, kb) {
        LessTransitive(ka, kc, kb);
      }
  }

  lemma {:induction false} InsertPermutes<X>(dir: Direction, key: X -> string, s: seq<X>, x: X)
    ensures multiset(Insert(dir, key, s, x)) == multiset(s) + multiset{x}
    decreases |s|
  {
    if |s| > 0 && GoesAfter(dir, key, s[|s| - 1], x) {
      var init := s[..|s| - 1];
      InsertPermutes(dir, key, init, x);
      assert s == init + [s[|s| - 1]];
    }
  }

  lemma {:induction false} InsertSorted<X>(dir: Direction, key: X -> string, s: seq<X>, x: X)
    requires SortedBy(dir, key, s)
    ensures SortedBy(dir, key, Insert(dir, key, s, x))
    decreases |s|
  {
    if |s| == 0 {
    } else if !GoesAfter(dir, key, s[|s| - 1], x) {
      forall i | 0 <= i < |s|
        ensures !GoesAfter(dir, key, s[i], x)
      {
        if i < |s| - 1 {
          NotAfterTransitive(dir, key, s[i], s[|s| - 1], x);
        }
      }
    } else {
      var init := s[..|s| - 1];
      var last := s[|s| - 1];
      InsertSorted(dir, key, init, x);
      InsertPermutes(dir, key, init, x);
      var r := Insert(dir, key, init, x);
      forall y | y in r
        ensures !GoesAfter(dir, key, y, last)
      {
        assert y in multiset(r);
        if y == x {
          GoesAfterAsymmetric(dir, key, last, x);
        } else {
          assert y in multiset(init);
          var i :| 0 <= i < |init| && init[i] == y;
        }
      }
      var t := r + [last];
      forall i, j | 0 <= i < j < |t|
        ensures !GoesAfter(dir, key, t[i], t[j])
      {
        if j == |t| - 1 {
          assert t[i] in r;
        }
      }
    }
  }

  predicate HasKey<X>(key: X -> string, k: string, x: X) {
    key(x) == k
  }

  /** The rows whose key is `k`, in order. */
  function KeyFilter<X>(key: X -> string, k: string, s: seq<X>): seq<X> {
    if |s| == 0 then []
    else KeyFilter(key, k, s[..|s| - 1]) + (if HasKey(key, k, s[|s| - 1]) then [s[|s| - 1]] else [])
  }

  /**
   * Inserting keeps, for every key value, the elements with that key in
   * their order, with `x` last among its equals.
   */
  lemma {:induction false} InsertStable<X>(dir: Direction, key: X -> string, s: seq<X>, x: X, k: string)
    ensures KeyFilter(key, k, Insert(dir, key, s, x)) == KeyFilter(key, k, s) + (if HasKey(key, k, x) then [x] else [])
    decreases |s|
  {
    if |s| == 0 || !GoesAfter(dir, key, s[|s| - 1], x) {
      KeyFilterSnoc(key, k, s, x);
    } else {
      var init := s[..|s| - 1];
      InsertStable(dir, key, init, x, k);
      assert s == init + [s[|s| - 1]];
      InsertStableStep(dir, key, init, s[|s| - 1], x, k);
    }
  }

  /** `x` moves in front of a `last` that goes after it, and the two never share a key. */
  lemma InsertStableStep<X>(dir: Direction, key: X -> string, init: seq<X>, last: X, x: X, k: string)
    requires GoesAfter(dir, key, last, x)
    requires KeyFilter(key, k, Insert(dir, key, init, x)) == KeyFilter(key, k, init) + (if HasKey(key, k, x) then [x] else [])
    ensures KeyFilter(key, k, Insert(dir, key, init + [last], x))
         == KeyFilter(key, k, init + [last]) + (if HasKey(key, k, x) then [x] else [])
  {
    var r := Insert(dir, key, init, x);
    InsertPassesLast(dir, key, init, last, x);
    KeyFilterSnoc(key, k, r, last);
    KeyFilterSnoc(key, k, init, last);
    LaterHasOtherKey(dir, key, last, x, k);
    AppendOneOfTwo(KeyFilter(key, k, init), if HasKey(key, k, x) then [x] else [], if HasKey(key, k, last) then [last] else []);
  }

  lemma InsertPassesLast<X>(dir: Direction, key: X -> string, init: seq<X>, last: X, x: X)
    requires GoesAfter(dir, key, last, x)
    ensures Insert(dir, key, init + [last], x) == Insert(dir, key, init, x) + [last]
  {
    var s := init + [last];
    assert s[..|s| - 1] == init && s[|s| - 1] == last;
  }

  /** An element that goes after `x` has a different key. */
  lemma LaterHasOtherKey<X>(dir: Direction, key: X -> string, last: X, x: X, k: string)
    requires GoesAfter(dir, key, last, x)
    ensures !(HasKey(key, k, x) && HasKey(key, k, last))
  {
    LessIrreflexive(k);
  }

  /** Two appended pieces commute when one of them is empty. */
  lemma AppendOneOfTwo<X>(a: seq<X>, u: seq<X>, v: seq<X>)
    requires u == [] || v == []
    ensures (a + u) + v == (a + v) + u
  {
    if u == [] {
      assert a + u == a && (a + v) + u == a + v;
    } else {
      assert a + v == a && (a + u) + v == a + u;
    }
  }

  lemma KeyFilterSnoc<X>(key: X -> string, k: string, s: seq<X>, x: X)
    ensures KeyFilter(key, k, s + [x]) == KeyFilter(key, k, s) + (if HasKey(key, k, x) then [x] else [])
  {
    assert (s + [x])[..|s|] == s;
  }

  /**
   * The sorted copy is ordered by the comparator, is a permutation of the
   * input, and is stable: the rows sharing a key value keep their order.
   */
  lemma {:induction false} SortBySpec<X>(dir: Direction, key: X -> string, xs: seq<X>)
    ensures SortedBy(dir, key, SortBy(dir, key, xs))
    ensures multiset(SortBy(dir, key, xs)) == multiset(xs)
    decreases |xs|
  {
    if |xs| > 0 {
      var init := xs[..|xs| - 1];
      var last := xs[|xs| - 1];
      SortBySpec(dir, key, init);
      InsertSorted(dir, key, SortBy(dir, key, init), last);
      InsertPermutes(dir, key, SortBy(dir, key, init), last);
      assert xs == init + [last];
    }
  }

  /** The sort is stable: the rows sharing a key value keep their relative order. */
  lemma {:induction false} SortByStable<X>(dir: Direction, key: X -> string, xs: seq<X>, k: string)
    ensures KeyFilter(key, k, SortBy(dir, key, xs)) == KeyFilter(key, k, xs)
    decreases |xs|
  {
    if |xs| > 0 {
      var init := xs[..|xs| - 1];
      SortByStable(dir, key, init, k);
      InsertStable(dir, key, SortBy(dir, key, init), xs[|xs| - 1], k);
    }
  }

  /** Without a configuration the rows are shown as they came; with one, sorted, permuted and stable. */
  lemma SortDataSpec<X>(config: Option<SortConfig>, items: seq<X>, field: (string, X) -> string)
    ensures config.None? ==> SortData(config, items, field) == items
    ensures config.Some? ==>
      var key := (x: X) => field(config.value.key, x);
      && SortedBy(config.value.direction, key, SortData(config, items, field))
      && multiset(SortData(config, items, field)) == multiset(items)
      && forall k :: KeyFilter(key, k, SortData(config, items, field)) == KeyFilter(key, k, items)
  {
    if config.Some? {
      var key := (x: X) => field(config.value.key, x);
      SortBySpec(config.value.direction, key, items);
      forall k
        ensures KeyFilter(key, k, SortData(config, items, field)) == KeyFilter(key, k, items)
      {
        SortByStable(config.value.direction, key, items, k);
      }
    }
  }

  // ---- the terrain gauge ----

  datatype Band = Poor | Good | Great

  /** Great from 60 percent, Good from 20, Poor below. */
  function GaugeBand(percent: int): (b: Band)
    ensures b == Great <==> percent >= 60
    ensures b == Good <==> 20 <= percent < 60
    ensures b == Poor <==> percent < 20
  {
    if percent >= 60 then Great else if percent >= 20 then Good else Poor
  }

  function Rank(b: Band): nat {
    match b
    case Poor => 0
    case Good => 1
    case Great => 2
  }

  /** More open terrain never shows a worse band. */
  lemma GaugeMonotone(p: int, q: int)
    requires p <= q
    ensures Rank(GaugeBand(p)) <= Rank(GaugeBand(q))
  {
  }

  /** A section with no trails, such as a default one, shows Poor. */
  lemma NoTrailsShowPoor(t: LiftsTerrain)
    requires WellFormed(t) && t.trailsTotal == 0
    ensures GaugeBand(t.terrainOpenPct) == Poor
  {
    WellFormedPct(t);
  }

  // ---- the status badge ----

  datatype Badge = OpenBadge | HoldBadge | SchedBadge | ClosedBadge

  /** `StatusBadge`: nothing for an empty status; three recognised texts, ignoring case; Closed otherwise. */
  function StatusBadge(status: string): (b: Option<Badge>)
    ensures b.None? <==> status == ""
    ensures b == Some(OpenBadge) <==> status != "" && ToLower(status) == "open"
    ensures b == Some(HoldBadge) <==> status != "" && ToLower(status) == "hold"
    ensures b == Some(SchedBadge) <==> status != "" && ToLower(status) == "scheduled"
  {
    if status == "" then None
    else
      var s := ToLower(status);
      if s == "open" then Some(OpenBadge)
      else if s == "hold" then Some(HoldBadge)
      else if s == "scheduled" then Some(SchedBadge)
      else Some(ClosedBadge)
  }

  /** The badge ignores case. */
  lemma StatusBadgeIgnoresCase(status: string)
    ensures StatusBadge(ToLower(status)) == StatusBadge(status)
  {
    ToLowerIdempotent(status);
  }

  /**
   * A lift whose status is `open_priority` counts as open in the lift total
   * of a Vail resort, yet its badge reads Closed.
   */
  lemma PriorityLiftCountedOpen()
    ensures VailResorts.IsLiftOpen(JStr("open_priority"))
  {
    var s := "open_priority";
    assert ToJsString(JStr(s)) == s;
    ToLowerOfLower(s);
    assert VailResorts.OpenLiftText(s);
  }

  lemma PriorityLiftShownClosed()
    ensures StatusBadge("open_priority") == Some(ClosedBadge)
  {
    ToLowerOfLower("open_priority");
  }

  // ---- the difficulty badge ----

  datatype Difficulty = NoDifficulty | Unlabelled | Easiest | Intermediate | Expert | Advanced | TerrainPark

  /** `DifficultyBadge`: a missing or empty difficulty shows a blank dot; otherwise the rules read its lower case. */
  function DifficultyOf(difficulty: Option<string>): (r: Difficulty)
    ensures r == NoDifficulty <==> difficulty.None? || difficulty.value == ""
  {
    if difficulty.None? || difficulty.value == "" then NoDifficulty
    else Level(ToLower(difficulty.value))
  }

  /** The rules, tried in order on the lower-cased text: the first that matches decides. */
  function Level(d: string): (r: Difficulty)
    ensures r != NoDifficulty
  {
    if Contains(d, "green") || Contains(d, "novice") || d == "1" then Easiest
    else if Contains(d, "blue") || Contains(d, "intermediate") || d == "2" then Intermediate
    else if Contains(d, "double") || d == "4" || Contains(d, "expert") then Expert
    else if Contains(d, "black") || Contains(d, "advanced") || d == "3" then Advanced
    else if Contains(d, "park") || Contains(d, "terrain") || d == "5" then TerrainPark
    else Unlabelled
  }

  /**
   * The rules are tried in order: a text naming both a double and black
   * (and no easier level) is Expert, not Advanced.
   */
  lemma DoubleBeforeBlack(d: string)
    requires Contains(d, "double") && Contains(d, "black")
    requires !Contains(d, "green") && !Contains(d, "novice") && !Contains(d, "blue") && !Contains(d, "intermediate")
    ensures Level(d) == Expert
  {
    assert d != "1" && d != "2";
  }

  /** Black alone, with no easier or harder keyword, is Advanced. */
  lemma BlackAloneAdvanced(d: string)
    requires Contains(d, "black") && |d| != 1
    requires !Contains(d, "green") && !Contains(d, "novice") && !Contains(d, "blue") && !Contains(d, "intermediate")
    requires !Contains(d, "double") && !Contains(d, "expert")
    ensures Level(d) == Advanced
  {
    assert d != "1" && d != "2" && d != "4";
  }

  /** No rule's keyword occurs in `d`. */
  predicate NoKeyword(d: string) {
    && !Contains(d, "green") && !Contains(d, "novice") && !Contains(d, "blue") && !Contains(d, "intermediate")
    && !Contains(d, "double") && !Contains(d, "expert") && !Contains(d, "black") && !Contains(d, "advanced")
    && !Contains(d, "park") && !Contains(d, "terrain")
  }

  /** A text longer than one character that names no keyword fits no rule and shows the plain dot. */
  lemma UnlabelledWithoutKeyword(d: string)
    requires |d| != 1 && NoKeyword(d)
    ensures Level(d) == Unlabelled
  {
    assert d != "1" && d != "2" && d != "3" && d != "4" && d != "5";
  }

  /** A text lacking one letter of each keyword names no keyword. */
  lemma NoKeywordWhenLacking(d: string)
    requires forall c :: c in "gnbidxpt" ==> c !in d
    ensures NoKeyword(d)
  {
    NotContainsMissingChar(d, "green", 'g');
    NotContainsMissingChar(d, "novice", 'n');
    NotContainsMissingChar(d, "blue", 'b');
    NotContainsMissingChar(d, "intermediate", 'i');
    NotContainsMissingChar(d, "double", 'd');
    NotContainsMissingChar(d, "expert", 'x');
    NotContainsMissingChar(d, "black", 'b');
    NotContainsMissingChar(d, "advanced", 'd');
    NotContainsMissingChar(d, "park", 'p');
    NotContainsMissingChar(d, "terrain", 't');
  }

  /** A free-form label such as `easy` names no level. */
  lemma EasyUnlabelled(text: string)
    requires text == "easy"
    ensures DifficultyOf(Some(text)) == Unlabelled
  {
    ToLowerOfLower(text);
    NoKeywordWhenLacking(text);
    UnlabelledWithoutKeyword(text);
  }

  /** The level each Stratton difficulty name shows. */
  const StrattonLevels: seq<Difficulty> := [Easiest, Intermediate, Advanced, Expert]

  lemma GreenEasiest(d: string)
    requires d == "green"
    ensures DifficultyOf(Some(d)) == Easiest
  {
    ToLowerOfLower(d);
    ContainsAt(d, "green", 0);
  }

  lemma BlueIntermediate(d: string)
    requires d == "blue"
    ensures DifficultyOf(Some(d)) == Intermediate
  {
    ToLowerOfLower(d);
    NotContainsMissingChar(d, "green", 'g');
    NotContainsMissingChar(d, "novice", 'n');
    ContainsAt(d, "blue", 0);
  }

  // The facts about each literal name are proved a few at a time: together
  // they make the solver unfold `Contains` on literals far too often.

  /** `black` names none of the keywords tested before or beside it. */
  lemma BlackNamesNoOtherLevel(d: string)
    requires d == "black"
    ensures !Contains(d, "green") && !Contains(d, "novice") && !Contains(d, "blue")
    ensures !Contains(d, "intermediate") && !Contains(d, "double") && !Contains(d, "expert")
  {
    NotContainsMissingChar(d, "green", 'g');
    NotContainsMissingChar(d, "novice", 'n');
    NotContainsMissingChar(d, "blue", 'u');
    NotContainsMissingChar(d, "intermediate", 'i');
    NotContainsMissingChar(d, "double", 'd');
    NotContainsMissingChar(d, "expert", 'x');
  }

  lemma BlackAdvanced(d: string)
    requires d == "black"
    ensures DifficultyOf(Some(d)) == Advanced
  {
    ToLowerOfLower(d);
    ContainsAt(d, "black", 0);
    BlackNamesNoOtherLevel(d);
    BlackAloneAdvanced(d);
  }

  /** `double_black` names neither green, novice nor intermediate. */
  lemma DoubleBlackNamesNoEasierLevel(d: string)
    requires d == "double_black"
    ensures !Contains(d, "green") && !Contains(d, "novice") && !Contains(d, "intermediate")
  {
    NotContainsMissingChar(d, "green", 'g');
    NotContainsMissingChar(d, "novice", 'v');
    NotContainsMissingChar(d, "intermediate", 't');
  }

  /**
   * `double_black` holds every letter of `blue`: the only `u` follows `do`,
   * and the rest of the text, from `le_black` on, has none.
   */
  lemma DoubleBlackNamesNoBlue(d: string)
    requires d == "double_black"
    ensures !Contains(d, "blue")
  {
    var b := "blue";
    NotContainsMissingChar(d[4..], b, 'u');
    assert d[3..][1..] == d[4..] && d[3..][..4][2] != b[2];
    NotContainsStep(d[3..], b);
    assert d[2..][1..] == d[3..] && d[2..][..4][0] != b[0];
    NotContainsStep(d[2..], b);
    assert d[1..][1..] == d[2..] && d[1..][..4][0] != b[0];
    NotContainsStep(d[1..], b);
    assert d[..4][0] != b[0];
    NotContainsStep(d, b);
  }

  lemma DoubleBlackExpert(d: string)
    requires d == "double_black"
    ensures DifficultyOf(Some(d)) == Expert
  {
    ToLowerOfLower(d);
    ContainsAt(d, "double", 0);
    ContainsAt(d, "black", 7);
    DoubleBlackNamesNoEasierLevel(d);
    DoubleBlackNamesNoBlue(d);
    DoubleBeforeBlack(d);
  }

  /**
   * The four names the Stratton adapter gives trails show the four levels in
   * order; `double_black` shows Expert, not Advanced.
   */
  lemma StrattonNamesShowTheirLevels(k: int)
    requires 1 <= k <= 4
    ensures DifficultyOf(Some(Stratton.DifficultyNames[k - 1])) == StrattonLevels[k - 1]
  {
    var d := Stratton.DifficultyNames[k - 1];
    if k == 1 { GreenEasiest(d); }
    else if k == 2 { BlueIntermediate(d); }
    else if k == 3 { BlackAdvanced(d); }
    else { DoubleBlackExpert(d); }
  }

  // ---- the weather icon ----

  datatype Icon = SnowIcon | RainIcon | CloudIcon | SunIcon | FogIcon | DefaultIcon

  /** `getWeatherIcon`: the first matching word, ignoring case. */
  function WeatherIcon(condition: string): (icon: Icon)
    ensures var c := ToLower(condition);
      icon == DefaultIcon <==>
        !Contains(c, "snow") && !Contains(c, "rain") && !Contains(c, "cloud")
        && !Contains(c, "sun") && !Contains(c, "clear") && !Contains(c, "fog")
  {
    var c := ToLower(condition);
    if Contains(c, "snow") then SnowIcon
    else if Contains(c, "rain") then RainIcon
    else if Contains(c, "cloud") then CloudIcon
    else if Contains(c, "sun") || Contains(c, "clear") then SunIcon
    else if Contains(c, "fog") then FogIcon
    else DefaultIcon
  }

  /**
   * The icon rules in order: each icon is shown exactly when its words occur
   * in the lower-cased condition and no earlier rule's words do.
   */
  lemma WeatherIconOrder(condition: string)
    ensures var c := ToLower(condition);
      && (WeatherIcon(condition) == SnowIcon <==> Contains(c, "snow"))
      && (WeatherIcon(condition) == RainIcon <==> !Contains(c, "snow") && Contains(c, "rain"))
      && (WeatherIcon(condition) == CloudIcon <==>
            !Contains(c, "snow") && !Contains(c, "rain") && Contains(c, "cloud"))
      && (WeatherIcon(condition) == SunIcon <==>
            !Contains(c, "snow") && !Contains(c, "rain") && !Contains(c, "cloud")
            && (Contains(c, "sun") || Contains(c, "clear")))
      && (WeatherIcon(condition) == FogIcon <==>
            !Contains(c, "snow") && !Contains(c, "rain") && !Contains(c, "cloud")
            && !Contains(c, "sun") && !Contains(c, "clear") && Contains(c, "fog"))
  {
  }

  /** The icon does not depend on case. */
  lemma WeatherIconIgnoresCase(condition: string)
    ensures WeatherIcon(condition) == WeatherIcon(ToLower(condition))
  {
    ToLowerIdempotent(condition);
  }

  /** The difficulty badge does not depend on case. */
  lemma DifficultyIgnoresCase(d: string)
    ensures DifficultyOf(Some(d)) == DifficultyOf(Some(ToLower(d)))
  {
    ToLowerIdempotent(d);
  }

  /** A condition mentioning snow shows the snow icon, whatever else it mentions. */
  lemma SnowWins(condition: string)
    requires Contains(ToLower(condition), "snow")
    ensures WeatherIcon(condition) == SnowIcon
  {
  }

  // ---- what the panels show ----

  /** The snow panel is replaced by a notice when the report could not be read. */
  predicate SnowStatsShown(conditions: Json) {
    conditions != JStr(DataUnavailable) && conditions != JStr("Scraping Blocked")
  }

  /** A default snow report hides the snow figures. */
  lemma DefaultReportHidesStats(url: string, now: string)
    ensures !SnowStatsShown(DefaultSnowReport(url, now).conditions)
  {
  }

  datatype SeasonText = Dashes | Inches(value: int)

  /** The season total: rounded inches when positive, `--` otherwise (also for `NaN`). */
  function SeasonTotalText(season: Number): (t: SeasonText)
    ensures t.Inches? <==> season.Fin? && season.r > 0.0
    ensures t.Inches? ==> t.value == Round(season.r) && t.value >= 0
  {
    if season.Fin? && season.r > 0.0 then Inches(Round(season.r)) else Dashes
  }

  /** `daily.slice(1, 8)`: up to seven days, starting tomorrow. */
  function ForecastDays(daily: seq<DailyForecast>): (days: seq<DailyForecast>)
    ensures |daily| <= 1 ==> days == []
    ensures |daily| > 1 ==> |days| == (if |daily| < 8 then |daily| else 8) - 1
    ensures forall i :: 0 <= i < |days| ==> days[i] == daily[i + 1]
  {
    if |daily| <= 1 then [] else daily[1..if |daily| < 8 then |daily| else 8]
  }

  /** The forecast panel of a normalised record shows at most seven days, the day after today first. */
  lemma ForecastStartsTomorrow(f: Weather.Forecast, now: string)
    ensures var days := ForecastDays(Weather.Normalize(f, now).daily);
      && |days| <= 7
      && (forall i :: 0 <= i < |days| ==> days[i] == Weather.DayAt(f.daily, i + 1))
  {
  }
}
