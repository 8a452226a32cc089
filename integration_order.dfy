/** The integration-order search of `_check_adf`, `_check_kpss_c` and
    `_check_kpss_ct`: try differencing levels 0..maxDiff in turn, run a
    unit-root test on the differenced, NaN-dropped series, and return the
    first level whose p-value meets the test's criterion. */
module IntegrationOrder {
  import opened Options
  import opened Series
  import opened StatTests

  /** The series the test sees at level `d`: `d` differences, then `dropna()`. */
  function LevelInput(s: Series, d: nat): Series
  {
    DropNa(Diffs(s, d))
  }

  /** The p-value acted on at level `d`, after fail-safe substitution. */
  function LevelPValue(o: Oracles, t: UnitRootTest, s: Series, d: nat): real
  {
    PValue(o, t, LevelInput(s, d))
  }

  predicate PassesAt(o: Oracles, t: UnitRootTest, s: Series, signif: real, d: nat)
  {
    Accepts(t, LevelPValue(o, t, s, d), signif)
  }

  /** The first level in d..maxDiff that passes, or None. */
  function OrderFrom(o: Oracles, t: UnitRootTest, s: Series, maxDiff: int, signif: real, d: nat): (r: Option<nat>)
    ensures r.Some? ==> d <= r.value <= maxDiff && PassesAt(o, t, s, signif, r.value)
    decreases maxDiff + 1 - d
  {
    if d > maxDiff then None
    else if PassesAt(o, t, s, signif, d) then Some(d)
    else OrderFrom(o, t, s, maxDiff, signif, d + 1)
  }

  /** The integration order of `s` under test `t`: the specification of the search. */
  function Order(o: Oracles, t: UnitRootTest, s: Series, maxDiff: int, signif: real): (r: Option<nat>)
    ensures r.Some? ==> r.value <= maxDiff && PassesAt(o, t, s, signif, r.value)
  {
    OrderFrom(o, t, s, maxDiff, signif, 0)
  }

  /** The search loop shared by the three `_check_*` routines. `current` is the
      local copy that each round replaces by its `diff()`; the caller's series
      is a value and is never changed. A raised test is replaced by the
      fail-safe p-value and the loop goes on. */
  method SearchOrder(o: Oracles, t: UnitRootTest, series: Series, maxDiff: int, signif: real)
    returns (r: Option<nat>)
    ensures r == Order(o, t, series, maxDiff, signif)
    ensures r.Some? ==> r.value <= maxDiff && PassesAt(o, t, series, signif, r.value)
    ensures r.Some? ==> forall k :: 0 <= k < r.value ==> !PassesAt(o, t, series, signif, k)
    ensures r.None? ==> forall k :: 0 <= k <= maxDiff ==> !PassesAt(o, t, series, signif, k)
  {
    var current := series;
    var d: nat := 0;
    while d <= maxDiff
      invariant current == Diffs(series, d)
      invariant Order(o, t, series, maxDiff, signif) == OrderFrom(o, t, series, maxDiff, signif, d)
      invariant maxDiff < 0 ==> d == 0
      invariant maxDiff >= 0 ==> d <= maxDiff + 1
      decreases maxDiff + 1 - d
    {
      var p: real;
      var raw := RawPValue(o, t, DropNa(current));
      match raw {
        case Some(q) => p := q;
        case None => p := FailSafePValue(t);
      }
      assert p == PValue(o, t, DropNa(current));
      CurrentLevel(o, t, series, signif, d, current);
      if Accepts(t, p, signif) {
        OrderFromIsFirstPass(o, t, series, maxDiff, signif, 0);
        return Some(d);
      }
      NextLevel(series, d, current);
      OrderFromSkips(o, t, series, maxDiff, signif, d);
      current := Diff(current);
      d := d + 1;
    }
    OrderFromIsFirstPass(o, t, series, maxDiff, signif, 0);
    return None;
  }

  /** The p-value computed on the loop's `current` is the one at level `d`. */
  lemma CurrentLevel(o: Oracles, t: UnitRootTest, series: Series, signif: real, d: nat, current: Series)
    requires current == Diffs(series, d)
    ensures Accepts(t, PValue(o, t, DropNa(current)), signif) == PassesAt(o, t, series, signif, d)
  { }

  /** A level in range that does not pass hands the search to the next one. */
  lemma OrderFromSkips(o: Oracles, t: UnitRootTest, s: Series, maxDiff: int, signif: real, d: nat)
    requires d <= maxDiff && !PassesAt(o, t, s, signif, d)
    ensures OrderFrom(o, t, s, maxDiff, signif, d) == OrderFrom(o, t, s, maxDiff, signif, d + 1)
  { }

  /** One more `diff()` of `current` is the next level. */
  lemma NextLevel(series: Series, d: nat, current: Series)
    requires current == Diffs(series, d)
    ensures Diff(current) == Diffs(series, d + 1)
  { }

  /** `_check_adf`: the first level whose ADF p-value is below `signif`. */
  method CheckAdf(o: Oracles, series: Series, maxDiff: int, signif: real) returns (r: Option<nat>)
    ensures r == Order(o, Adf, series, maxDiff, signif)
    ensures r.Some? ==> r.value <= maxDiff && LevelPValue(o, Adf, series, r.value) < signif
    ensures r.Some? ==> forall k :: 0 <= k < r.value ==> LevelPValue(o, Adf, series, k) >= signif
    ensures r.None? ==> forall k :: 0 <= k <= maxDiff ==> LevelPValue(o, Adf, series, k) >= signif
  {
    r := SearchOrder(o, Adf, series, maxDiff, signif);
    forall k: nat | k <= maxDiff && (r.None? || k < r.value)
      ensures LevelPValue(o, Adf, series, k) >= signif
    {
      assert !PassesAt(o, Adf, series, signif, k);
    }
  }

  /** `_check_kpss_c`: the first level whose KPSS (level) p-value is above `signif`. */
  method CheckKpssC(o: Oracles, series: Series, maxDiff: int, signif: real) returns (r: Option<nat>)
    ensures r == Order(o, Kpss(Level), series, maxDiff, signif)
    ensures r.Some? ==> r.value <= maxDiff && LevelPValue(o, Kpss(Level), series, r.value) > signif
    ensures r.Some? ==> forall k :: 0 <= k < r.value ==> LevelPValue(o, Kpss(Level), series, k) <= signif
    ensures r.None? ==> forall k :: 0 <= k <= maxDiff ==> LevelPValue(o, Kpss(Level), series, k) <= signif
  {
    r := SearchOrder(o, Kpss(Level), series, maxDiff, signif);
    forall k: nat | k <= maxDiff && (r.None? || k < r.value)
      ensures LevelPValue(o, Kpss(Level), series, k) <= signif
    {
      assert !PassesAt(o, Kpss(Level), series, signif, k);
    }
  }

  /** `_check_kpss_ct`: the first level whose KPSS (trend) p-value is above `signif`. */
  method CheckKpssCt(o: Oracles, series: Series, maxDiff: int, signif: real) returns (r: Option<nat>)
    ensures r == Order(o, Kpss(Trend), series, maxDiff, signif)
    ensures r.Some? ==> r.value <= maxDiff && LevelPValue(o, Kpss(Trend), series, r.value) > signif
    ensures r.Some? ==> forall k :: 0 <= k < r.value ==> LevelPValue(o, Kpss(Trend), series, k) <= signif
    ensures r.None? ==> forall k :: 0 <= k <= maxDiff ==> LevelPValue(o, Kpss(Trend), series, k) <= signif
  {
    r := SearchOrder(o, Kpss(Trend), series, maxDiff, signif);
    forall k: nat | k <= maxDiff && (r.None? || k < r.value)
      ensures LevelPValue(o, Kpss(Trend), series, k) <= signif
    {
      assert !PassesAt(o, Kpss(Trend), series, signif, k);
    }
  }

  /** What `OrderFrom` returns: Some(k) exactly when k is the first passing
      level in d..maxDiff, None exactly when no level there passes. */
  lemma {:induction false} OrderFromIsFirstPass(o: Oracles, t: UnitRootTest, s: Series, maxDiff: int, signif: real, d: nat)
    ensures OrderFrom(o, t, s, maxDiff, signif, d).Some? ==>
      var k := OrderFrom(o, t, s, maxDiff, signif, d).value;
      d <= k <= maxDiff && PassesAt(o, t, s, signif, k) &&
      forall j :: d <= j < k ==> !PassesAt(o, t, s, signif, j)
    ensures OrderFrom(o, t, s, maxDiff, signif, d).None? <==>
      forall j :: d <= j <= maxDiff ==> !PassesAt(o, t, s, signif, j)
    decreases maxDiff + 1 - d
  {
    if d <= maxDiff && !PassesAt(o, t, s, signif, d) {
      OrderFromIsFirstPass(o, t, s, maxDiff, signif, d + 1);
    }
  }

  /** The order is d exactly when level d is within the limit, passes, and no
      earlier level passes: first success wins. */
  lemma OrderIsFirstPassingLevel(o: Oracles, t: UnitRootTest, s: Series, maxDiff: int, signif: real, d: nat)
    ensures Order(o, t, s, maxDiff, signif) == Some(d) <==>
      d <= maxDiff && PassesAt(o, t, s, signif, d) &&
      forall j :: 0 <= j < d ==> !PassesAt(o, t, s, signif, j)
  {
    OrderFromIsFirstPass(o, t, s, maxDiff, signif, 0);
  }

  /** The order is undetermined exactly when no level 0..maxDiff passes. */
  lemma OrderNoneIffNoLevelPasses(o: Oracles, t: UnitRootTest, s: Series, maxDiff: int, signif: real)
    ensures Order(o, t, s, maxDiff, signif).None? <==>
      forall j :: 0 <= j <= maxDiff ==> !PassesAt(o, t, s, signif, j)
  {
    OrderFromIsFirstPass(o, t, s, maxDiff, signif, 0);
  }

  /** An order, when found, lies in 0..maxDiff; with the callers' limit
      of 2 it is 0, 1 or 2. */
  lemma OrderInRange(o: Oracles, t: UnitRootTest, s: Series, maxDiff: int, signif: real)
    ensures Order(o, t, s, maxDiff, signif).Some? ==> Order(o, t, s, maxDiff, signif).value <= maxDiff
    ensures maxDiff == 2 ==> Order(o, t, s, maxDiff, signif) in {None, Some(0), Some(1), Some(2)}
  {
    OrderFromIsFirstPass(o, t, s, maxDiff, signif, 0);
  }

  /** Raising the limit never changes an order that was already found. */
  lemma OrderStableUnderLargerLimit(o: Oracles, t: UnitRootTest, s: Series, maxDiff: int, maxDiff': int, signif: real)
    requires maxDiff <= maxDiff'
    requires Order(o, t, s, maxDiff, signif).Some?
    ensures Order(o, t, s, maxDiff', signif) == Order(o, t, s, maxDiff, signif)
  {
    var d := Order(o, t, s, maxDiff, signif).value;
    OrderIsFirstPassingLevel(o, t, s, maxDiff, signif, d);
    OrderIsFirstPassingLevel(o, t, s, maxDiff', signif, d);
  }

  /** A level at which the test raises never passes (for ADF with signif <= 1,
      for KPSS with signif >= 0); the search moves on to the next level. */
  lemma RaisedLevelContinues(o: Oracles, t: UnitRootTest, s: Series, maxDiff: int, signif: real, d: nat)
    requires RawPValue(o, t, LevelInput(s, d)) == None
    requires t.Adf? ==> signif <= 1.0
    requires t.Kpss? ==> signif >= 0.0
    ensures !PassesAt(o, t, s, signif, d)
    ensures d <= maxDiff ==> OrderFrom(o, t, s, maxDiff, signif, d) == OrderFrom(o, t, s, maxDiff, signif, d + 1)
  {
    FailSafeNeverAccepts(t, signif);
  }

  /** A test that raises on every input leaves the order undetermined. */
  lemma AlwaysRaisingTestGivesNone(o: Oracles, t: UnitRootTest, s: Series, maxDiff: int, signif: real)
    requires forall x :: RawPValue(o, t, x) == None
    requires t.Adf? ==> signif <= 1.0
    requires t.Kpss? ==> signif >= 0.0
    ensures Order(o, t, s, maxDiff, signif) == None
  {
    forall j: nat | j <= maxDiff
      ensures !PassesAt(o, t, s, signif, j)
    {
      RaisedLevelContinues(o, t, s, maxDiff, signif, j);
    }
    OrderNoneIffNoLevelPasses(o, t, s, maxDiff, signif);
  }

  /** For a series without NaNs, the test at level `d` sees exactly the d-th
      finite difference of its values, n - d numbers long. */
  lemma LevelInputIsFiniteDifference(s: Series, d: nat)
    requires NoNaN(s)
    ensures NoNaN(LevelInput(s, d))
    ensures Values(LevelInput(s, d)) == FiniteDiffs(Values(s), d)
    ensures |LevelInput(s, d)| == if d <= |s| then |s| - d else 0
  {
    assert NaNs(0) + Lift(Values(s)) == s;
    DropNaDiffsOfPadded(0, Values(s), d);
  }
}
