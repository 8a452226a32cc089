/** The statistical routines the pipeline calls (statsmodels' `adfuller`,
    `kpss` and `OLS`) as uninterpreted oracles, and the p-value policy built
    on top of them: which p-value counts as "stationary" for each test, and
    which p-value stands in when a test raises. */
module StatTests {
  import opened Options
  import opened Series

  /** KPSS regression specification: `regression='c'` (level) or `'ct'` (level and trend). */
  datatype Regression = Level | Trend

  function RegressionCode(r: Regression): string
  {
    match r
    case Level => "c"
    case Trend => "ct"
  }

  /** What the pipeline reads of an `adfuller` result: statistic, p-value, critical values. */
  datatype AdfReport = AdfReport(statistic: real, pValue: real, criticalValues: map<string, real>)

  /** What the pipeline reads of an OLS fit of `dep` on `[1, indep]`: the slope and the residuals. */
  datatype OlsFit = OlsFit(hedgeRatio: real, residuals: Series)

  /** The library calls, each returning None where the call raises.
      - adf(autolag, x): `adfuller(x, autolag=autolag)`
      - kpss(reg, x): the p-value of `kpss(x, regression=reg, nlags="auto")`
      - ols(dep, indep): `sm.OLS(dep, sm.add_constant(indep)).fit()` */
  datatype Oracles = Oracles(
    adf: (string, Series) -> Option<AdfReport>,
    kpss: (Regression, Series) -> Option<real>,
    ols: (Series, Series) -> Option<OlsFit>)

  /** statsmodels' default lag selection for `adfuller`. */
  const DEFAULT_AUTOLAG := "AIC"

  /** The unit-root tests an integration-order search can run. */
  datatype UnitRootTest = Adf | Kpss(regression: Regression)

  /** The p-value the test reports on `x`, or None if the test raises. */
  function RawPValue(o: Oracles, t: UnitRootTest, x: Series): Option<real>
  {
    match t
    case Adf => (match o.adf(DEFAULT_AUTOLAG, x) case None => None case Some(rep) => Some(rep.pValue))
    case Kpss(reg) => o.kpss(reg, x)
  }

  /** The p-value that replaces a raised test: 1 for ADF, 0 for KPSS. */
  function FailSafePValue(t: UnitRootTest): real
  {
    if t.Adf? then 1.0 else 0.0
  }

  /** The p-value the search acts on: the reported one, or the fail-safe one
      (1 for ADF, 0 for KPSS) when the test raises. */
  function PValue(o: Oracles, t: UnitRootTest, x: Series): (p: real)
    ensures RawPValue(o, t, x).Some? ==> p == RawPValue(o, t, x).value
    ensures RawPValue(o, t, x).None? ==> p == if t.Adf? then 1.0 else 0.0
  {
    match RawPValue(o, t, x)
    case None => FailSafePValue(t)
    case Some(p) => p
  }

  /** The stationarity criterion: ADF rejects a unit root (p < signif);
      KPSS fails to reject stationarity (p > signif). Both comparisons are strict. */
  predicate Accepts(t: UnitRootTest, p: real, signif: real)
  {
    if t.Adf? then p < signif else p > signif
  }

  /** The fail-safe p-value never counts as stationary: for ADF at any level
      of significance up to 1, for KPSS at any level of significance from 0. */
  lemma FailSafeNeverAccepts(t: UnitRootTest, signif: real)
    requires t.Adf? ==> signif <= 1.0
    requires t.Kpss? ==> signif >= 0.0
    ensures !Accepts(t, FailSafePValue(t), signif)
  {
  }
}
