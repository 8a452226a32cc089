/** `_engle_granger` and the two-stage gate of `_engle_granger_test`:
    both series must be I(1) by ADF, then both I(1) by KPSS under the same
    regression specification ('c' or 'ct'); only then is the Engle-Granger
    regression run, once in each direction. */
module Cointegration {
  import opened Options
  import opened Series
  import opened StatTests
  import opened IntegrationOrder

  /** The limits the gate passes to every integration-order search (the defaults). */
  const MAX_DIFF: int := 2
  const SIGNIF: real := 0.05

  /** The residual-ADF threshold of the cointegration verdict (fixed, not a parameter). */
  const EG_SIGNIF: real := 0.05

  const LABEL_S1_ON_S2 := "linest:s1_on_s2"
  const LABEL_S2_ON_S1 := "linest:s2_on_s1"
  const NOT_TESTED := "Not Tested - Non I(1)"

  /** One direction of the Engle-Granger test. */
  datatype Direction = Direction(
    direction: string,
    isCointegrated: bool,
    pValue: real,
    adfStatistic: real,
    criticalValues: map<string, real>,
    hedgeRatio: real,
    residuals: Series)

  /** The dictionary `_engle_granger_test` returns, one variant per shape. */
  datatype Report =
    | NotTestedAdf(adf1: Option<nat>, adf2: Option<nat>)
    | NotTestedKpss(adf1: Option<nat>, adf2: Option<nat>,
                    kpssC1: Option<nat>, kpssC2: Option<nat>,
                    kpssCt1: Option<nat>, kpssCt2: Option<nat>)
    | Tested(adf1: Option<nat>, adf2: Option<nat>,
             kpssC1: Option<nat>, kpssC2: Option<nat>,
             kpssCt1: Option<nat>, kpssCt2: Option<nat>,
             eg12: Direction, eg21: Direction)
  {
    /** The "Cointegration Status" entry; the tested dictionary has none. */
    function Status(): (r: Option<string>)
      ensures r.None? <==> Tested?
      ensures r.Some? ==> r.value == "Not Tested - Non I(1)"
    {
      if Tested? then None else Some(NOT_TESTED)
    }
  }

  /** A call of `_engle_granger_test` either returns a report or raises: the
      OLS fit and the residual ADF test are not guarded, so an exception in
      either escapes, from the direction named here. */
  datatype Outcome = Returned(report: Report) | Raised(direction: string)

  /** `_engle_granger`: regress `dep` on `[1, indep]`, test the residuals with
      ADF; cointegrated when the residual p-value is below 0.05. */
  function EngleGranger(o: Oracles, dep: Series, indep: Series, directionLabel: string, autolag: string): (r: Option<Direction>)
    ensures r.Some? <==> o.ols(dep, indep).Some? && o.adf(autolag, o.ols(dep, indep).value.residuals).Some?
    ensures r.Some? ==>
      var fit := o.ols(dep, indep).value;
      var rep := o.adf(autolag, fit.residuals).value;
      && r.value.direction == directionLabel
      && (r.value.isCointegrated <==> rep.pValue < EG_SIGNIF)
      && r.value.pValue == rep.pValue
      && r.value.adfStatistic == rep.statistic
      && r.value.criticalValues == rep.criticalValues
      && r.value.hedgeRatio == fit.hedgeRatio
      && r.value.residuals == fit.residuals
  {
    match o.ols(dep, indep)
    case None => None
    case Some(fit) =>
      match o.adf(autolag, fit.residuals)
      case None => None
      case Some(rep) =>
        Some(Direction(directionLabel, rep.pValue < EG_SIGNIF, rep.pValue, rep.statistic,
                       rep.criticalValues, fit.hedgeRatio, fit.residuals))
  }

  function AdfOrder(o: Oracles, s: Series): Option<nat>
  {
    Order(o, Adf, s, MAX_DIFF, SIGNIF)
  }

  function KpssOrder(o: Oracles, reg: Regression, s: Series): Option<nat>
  {
    Order(o, Kpss(reg), s, MAX_DIFF, SIGNIF)
  }

  /** Stage one: both series are I(1) by ADF. */
  predicate AdfGate(o: Oracles, s1: Series, s2: Series)
  {
    AdfOrder(o, s1) == Some(1) && AdfOrder(o, s2) == Some(1)
  }

  /** Stage two: both series are I(1) by KPSS under one and the same specification. */
  predicate KpssGate(o: Oracles, s1: Series, s2: Series)
  {
    || (KpssOrder(o, Level, s1) == Some(1) && KpssOrder(o, Level, s2) == Some(1))
    || (KpssOrder(o, Trend, s1) == Some(1) && KpssOrder(o, Trend, s2) == Some(1))
  }

  /** `_engle_granger_test(series1, series2, autolag)`. */
  function EngleGrangerTest(o: Oracles, s1: Series, s2: Series, autolag: string): (r: Outcome)
    // the three outcomes and when each happens
    ensures (r.Returned? && r.report.NotTestedAdf?) <==> !AdfGate(o, s1, s2)
    ensures (r.Returned? && r.report.NotTestedKpss?) <==> AdfGate(o, s1, s2) && !KpssGate(o, s1, s2)
    ensures (r.Raised? || r.report.Tested?) <==> AdfGate(o, s1, s2) && KpssGate(o, s1, s2)
    // the orders reported
    ensures r.Returned? ==> r.report.adf1 == AdfOrder(o, s1) && r.report.adf2 == AdfOrder(o, s2)
    ensures r.Returned? && !r.report.NotTestedAdf? ==>
      && r.report.kpssC1 == KpssOrder(o, Level, s1) && r.report.kpssC2 == KpssOrder(o, Level, s2)
      && r.report.kpssCt1 == KpssOrder(o, Trend, s1) && r.report.kpssCt2 == KpssOrder(o, Trend, s2)
    // the two directions, with dependent and independent series swapped
    ensures r.Returned? && r.report.Tested? ==>
      && EngleGranger(o, s1, s2, LABEL_S1_ON_S2, autolag) == Some(r.report.eg12)
      && EngleGranger(o, s2, s1, LABEL_S2_ON_S1, autolag) == Some(r.report.eg21)
    ensures r.Raised? ==>
      || (EngleGranger(o, s1, s2, LABEL_S1_ON_S2, autolag).None? && r.direction == LABEL_S1_ON_S2)
      || (EngleGranger(o, s1, s2, LABEL_S1_ON_S2, autolag).Some? &&
          EngleGranger(o, s2, s1, LABEL_S2_ON_S1, autolag).None? && r.direction == LABEL_S2_ON_S1)
  {
    var adf1 := AdfOrder(o, s1);
    var adf2 := AdfOrder(o, s2);
    if adf1 == Some(1) && adf2 == Some(1) then
      var c1 := KpssOrder(o, Level, s1);
      var ct1 := KpssOrder(o, Trend, s1);
      var c2 := KpssOrder(o, Level, s2);
      var ct2 := KpssOrder(o, Trend, s2);
      if (c1 == Some(1) && c2 == Some(1)) || (ct1 == Some(1) && ct2 == Some(1)) then
        match EngleGranger(o, s1, s2, LABEL_S1_ON_S2, autolag)
        case None => Raised(LABEL_S1_ON_S2)
        case Some(eg1) =>
          match EngleGranger(o, s2, s1, LABEL_S2_ON_S1, autolag)
          case None => Raised(LABEL_S2_ON_S1)
          case Some(eg2) => Returned(Tested(adf1, adf2, c1, c2, ct1, ct2, eg1, eg2))
      else
        Returned(NotTestedKpss(adf1, adf2, c1, c2, ct1, ct2))
    else
      Returned(NotTestedAdf(adf1, adf2))
  }

  /** Both rejections carry the status "Not Tested - Non I(1)"; a tested report has no status. */
  lemma StatusMarksRejection(o: Oracles, s1: Series, s2: Series, autolag: string)
    requires EngleGrangerTest(o, s1, s2, autolag).Returned?
    ensures EngleGrangerTest(o, s1, s2, autolag).report.Status() == Some(NOT_TESTED) <==>
      !(AdfGate(o, s1, s2) && KpssGate(o, s1, s2))
    ensures EngleGrangerTest(o, s1, s2, autolag).report.Status() == None <==>
      AdfGate(o, s1, s2) && KpssGate(o, s1, s2)
  {
  }

  /** In a tested report every verdict is "residual p-value below 0.05", the
      directions carry their labels, and each comes from regressing the
      dependent on the independent series of its direction. */
  lemma TestedDirections(o: Oracles, s1: Series, s2: Series, autolag: string)
    requires EngleGrangerTest(o, s1, s2, autolag).Returned?
    requires EngleGrangerTest(o, s1, s2, autolag).report.Tested?
    ensures var rep := EngleGrangerTest(o, s1, s2, autolag).report;
      && rep.eg12.direction == LABEL_S1_ON_S2 && rep.eg21.direction == LABEL_S2_ON_S1
      && (rep.eg12.isCointegrated <==> rep.eg12.pValue < 0.05)
      && (rep.eg21.isCointegrated <==> rep.eg21.pValue < 0.05)
      && rep.eg12.hedgeRatio == o.ols(s1, s2).value.hedgeRatio
      && rep.eg21.hedgeRatio == o.ols(s2, s1).value.hedgeRatio
      && rep.eg12.residuals == o.ols(s1, s2).value.residuals
      && rep.eg21.residuals == o.ols(s2, s1).value.residuals
      && rep.eg12.pValue == o.adf(autolag, o.ols(s1, s2).value.residuals).value.pValue
      && rep.eg21.pValue == o.adf(autolag, o.ols(s2, s1).value.residuals).value.pValue
  {
    var rep := EngleGrangerTest(o, s1, s2, autolag).report;
    var eg1 := EngleGranger(o, s1, s2, LABEL_S1_ON_S2, autolag);
    var eg2 := EngleGranger(o, s2, s1, LABEL_S2_ON_S1, autolag);
    assert eg1 == Some(rep.eg12) && eg2 == Some(rep.eg21);
  }

  /** What a tested report implies about the p-values themselves: for both
      series the ADF p-value is at least 0.05 on the series and below 0.05 on
      its first difference, and under one KPSS specification, for both series,
      the KPSS p-value is at most 0.05 on the series and above 0.05 on its
      first difference. */
  lemma TestedMeansBothI1(o: Oracles, s1: Series, s2: Series, autolag: string)
    requires EngleGrangerTest(o, s1, s2, autolag).Returned?
    requires EngleGrangerTest(o, s1, s2, autolag).report.Tested?
    ensures forall s :: s == s1 || s == s2 ==>
      LevelPValue(o, Adf, s, 0) >= 0.05 && LevelPValue(o, Adf, s, 1) < 0.05
    ensures exists reg: Regression :: forall s :: s == s1 || s == s2 ==>
      LevelPValue(o, Kpss(reg), s, 0) <= 0.05 && LevelPValue(o, Kpss(reg), s, 1) > 0.05
  {
    OrderIsFirstPassingLevel(o, Adf, s1, MAX_DIFF, SIGNIF, 1);
    OrderIsFirstPassingLevel(o, Adf, s2, MAX_DIFF, SIGNIF, 1);
    var reg := if KpssOrder(o, Level, s1) == Some(1) && KpssOrder(o, Level, s2) == Some(1) then Level else Trend;
    OrderIsFirstPassingLevel(o, Kpss(reg), s1, MAX_DIFF, SIGNIF, 1);
    OrderIsFirstPassingLevel(o, Kpss(reg), s2, MAX_DIFF, SIGNIF, 1);
    assert forall s :: s == s1 || s == s2 ==>
      LevelPValue(o, Kpss(reg), s, 0) <= 0.05 && LevelPValue(o, Kpss(reg), s, 1) > 0.05;
  }

  /** Every order a report holds is undetermined or one of 0, 1, 2. */
  lemma ReportOrdersInRange(o: Oracles, s1: Series, s2: Series, autolag: string)
    requires EngleGrangerTest(o, s1, s2, autolag).Returned?
    ensures var rep := EngleGrangerTest(o, s1, s2, autolag).report;
      && rep.adf1 in {None, Some(0), Some(1), Some(2)}
      && rep.adf2 in {None, Some(0), Some(1), Some(2)}
      && (!rep.NotTestedAdf? ==>
            && rep.kpssC1 in {None, Some(0), Some(1), Some(2)}
            && rep.kpssC2 in {None, Some(0), Some(1), Some(2)}
            && rep.kpssCt1 in {None, Some(0), Some(1), Some(2)}
            && rep.kpssCt2 in {None, Some(0), Some(1), Some(2)})
  {
    OrderInRange(o, Adf, s1, MAX_DIFF, SIGNIF);
    OrderInRange(o, Adf, s2, MAX_DIFF, SIGNIF);
    OrderInRange(o, Kpss(Level), s1, MAX_DIFF, SIGNIF);
    OrderInRange(o, Kpss(Level), s2, MAX_DIFF, SIGNIF);
    OrderInRange(o, Kpss(Trend), s1, MAX_DIFF, SIGNIF);
    OrderInRange(o, Kpss(Trend), s2, MAX_DIFF, SIGNIF);
  }

  /** The outcome of an integration-order search depends on its test's oracle alone. */
  lemma {:induction false} OrderFromDependsOnTestOnly(o1: Oracles, o2: Oracles, t: UnitRootTest, s: Series, maxDiff: int, signif: real, d: nat)
    requires forall x :: RawPValue(o1, t, x) == RawPValue(o2, t, x)
    ensures OrderFrom(o1, t, s, maxDiff, signif, d) == OrderFrom(o2, t, s, maxDiff, signif, d)
    decreases maxDiff + 1 - d
  {
    assert RawPValue(o1, t, LevelInput(s, d)) == RawPValue(o2, t, LevelInput(s, d));
    if d <= maxDiff {
      OrderFromDependsOnTestOnly(o1, o2, t, s, maxDiff, signif, d + 1);
    }
  }

  /** When stage one rejects, no KPSS test and no regression matter: replacing
      the KPSS and OLS routines by any others gives the same outcome, which is
      exactly the two ADF orders. */
  lemma AdfRejectionDoesNoFurtherWork(o: Oracles, kpss': (Regression, Series) -> Option<real>,
                                      ols': (Series, Series) -> Option<OlsFit>,
                                      s1: Series, s2: Series, autolag: string)
    requires !AdfGate(o, s1, s2)
    ensures EngleGrangerTest(o.(kpss := kpss', ols := ols'), s1, s2, autolag) == EngleGrangerTest(o, s1, s2, autolag)
    ensures EngleGrangerTest(o, s1, s2, autolag) == Returned(NotTestedAdf(AdfOrder(o, s1), AdfOrder(o, s2)))
  {
    var o' := o.(kpss := kpss', ols := ols');
    OrderFromDependsOnTestOnly(o, o', Adf, s1, MAX_DIFF, SIGNIF, 0);
    OrderFromDependsOnTestOnly(o, o', Adf, s2, MAX_DIFF, SIGNIF, 0);
  }

  /** When stage two rejects, no regression matters: replacing the OLS
      routine by any other gives the same outcome. */
  lemma KpssRejectionRunsNoRegression(o: Oracles, ols': (Series, Series) -> Option<OlsFit>,
                                      s1: Series, s2: Series, autolag: string)
    requires AdfGate(o, s1, s2)
    requires !KpssGate(o, s1, s2)
    ensures EngleGrangerTest(o.(ols := ols'), s1, s2, autolag) == EngleGrangerTest(o, s1, s2, autolag)
  {
    var o' := o.(ols := ols');
    OrderFromDependsOnTestOnly(o, o', Adf, s1, MAX_DIFF, SIGNIF, 0);
    OrderFromDependsOnTestOnly(o, o', Adf, s2, MAX_DIFF, SIGNIF, 0);
    OrderFromDependsOnTestOnly(o, o', Kpss(Level), s1, MAX_DIFF, SIGNIF, 0);
    OrderFromDependsOnTestOnly(o, o', Kpss(Level), s2, MAX_DIFF, SIGNIF, 0);
    OrderFromDependsOnTestOnly(o, o', Kpss(Trend), s1, MAX_DIFF, SIGNIF, 0);
    OrderFromDependsOnTestOnly(o, o', Kpss(Trend), s2, MAX_DIFF, SIGNIF, 0);
  }

  /** The gate does not depend on which series comes first; swapping them
      swaps the two directions of a tested report (labels stay with positions). */
  lemma GateIsSymmetric(o: Oracles, s1: Series, s2: Series, autolag: string)
    ensures AdfGate(o, s1, s2) == AdfGate(o, s2, s1)
    ensures KpssGate(o, s1, s2) == KpssGate(o, s2, s1)
    ensures var r := EngleGrangerTest(o, s1, s2, autolag);
      var r' := EngleGrangerTest(o, s2, s1, autolag);
      && ((r.Returned? && r.report.Tested?) <==> (r'.Returned? && r'.report.Tested?))
      && (r.Returned? && r'.Returned? ==>
            r'.report.adf1 == r.report.adf2 && r'.report.adf2 == r.report.adf1)
      && (r.Returned? && r'.Returned? && !r.report.NotTestedAdf? ==>
            && !r'.report.NotTestedAdf?
            && r'.report.kpssC1 == r.report.kpssC2 && r'.report.kpssC2 == r.report.kpssC1
            && r'.report.kpssCt1 == r.report.kpssCt2 && r'.report.kpssCt2 == r.report.kpssCt1)
      && (r.Returned? && r.report.Tested? && r'.Returned? && r'.report.Tested? ==>
            r'.report.eg12 == r.report.eg21.(direction := LABEL_S1_ON_S2) &&
            r'.report.eg21 == r.report.eg12.(direction := LABEL_S2_ON_S1))
  {
  }
}
