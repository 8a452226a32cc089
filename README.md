# PairLink cointegration decision pipeline, in Dafny

This project models the decision logic of `_engle_granger_test` in
`src/pairlink/cointegration.py` of PairLink, a package that checks whether
two price series form a pair for mean-reversion trading. The pipeline has
two layers:

- **Integration-order search** (`_check_adf`, `_check_kpss_c`,
  `_check_kpss_ct`). It tries differencing levels `d = 0..max_diff`. At each
  level it runs a unit-root test on the `d`-times differenced series with the
  NaNs dropped. It returns the first level whose p-value meets the test's
  criterion, or None. The ADF criterion is `p < signif`; the KPSS criterion
  is `p > signif`. A test that raises is replaced by a fail-safe p-value:
  1 for ADF, 0 for KPSS. The loop then goes on.
- **Two-stage gate** (`_engle_granger_test`). Both series must have ADF
  order 1. Both must then have KPSS order 1 under the level specification
  (`'c'`) or both under the trend specification (`'ct'`). Only then does
  `_engle_granger` run, once in each direction. Each direction's verdict is
  "residual ADF p-value below 0.05".

Modules:

- `Options` (options.dfy): the Option type.
- `Series` (series.dfy): pandas float series as `seq<Obs>`, with
  `Obs = Num(real) | NaN`. It defines `diff()` (`Diff`, `Diffs`), `dropna()`
  (`DropNa`) and finite differences of numbers (`FiniteDiff`, `FiniteDiffs`).
- `StatTests` (stat_tests.dfy): `adfuller`, `kpss` and `sm.OLS` as
  uninterpreted oracles in the record `Oracles`. Each oracle returns None when
  the call raises. This module also holds the fail-safe p-value
  (`FailSafePValue`) and the criterion (`Accepts`).
- `IntegrationOrder` (integration_order.dfy): the search loop as the method
  `SearchOrder`. It keeps `current` as a local that each round replaces by its
  `diff()`. `SearchOrder` is proved against the recursive specification
  `Order`. The three `_check_*` routines are the methods `CheckAdf`,
  `CheckKpssC` and `CheckKpssCt`.
- `Cointegration` (cointegration.dfy): `_engle_granger` as `EngleGranger`,
  and the gate as `EngleGrangerTest`. The result is an `Outcome`. It is
  either `Returned(report)` or `Raised(direction)`. A report has three shapes:
  `NotTestedAdf`, `NotTestedKpss` and `Tested`.

The gate always uses the callers' defaults: `max_diff = 2` and
`signif_level = 0.05` (`MAX_DIFF`, `SIGNIF`). The verdict threshold 0.05 at
line 73 is fixed (`EG_SIGNIF`). Series are values in this model, so the
caller's series cannot be modified. This matches the source, where
`series.copy()` is only reassigned locally.

Two behaviours of the source that the model keeps:

- The tested dictionary (lines 124-133) has no "Cointegration Status" entry.
  `Report.Status()` gives None for it and "Not Tested - Non I(1)" for both
  rejections.
- `_engle_granger` does not catch exceptions from `sm.OLS` or from the
  residual `adfuller` call (lines 63-68). Such an exception escapes
  `_engle_granger_test`. `Outcome.Raised` records that case and names the
  direction that raised.

## Model

| member | source | states |
|---|---|---|
| Series.DropNa | src/pairlink/cointegration.py:21 | `dropna()` leaves no NaN and never makes the series longer |
| Series.DropNaMembers | src/pairlink/cointegration.py:21 | an observation occurs in the result of `dropna()` iff it is a number occurring in the input |
| Series.DropNaAppend | src/pairlink/cointegration.py:21 | `dropna()` of a concatenation is the concatenation of the two `dropna()`s; with DropNaOfNumbers and DropNaOfNaNs this fixes the order and multiplicity of what is kept |
| Series.DropNaOfNumbers | src/pairlink/cointegration.py:21 | `dropna()` leaves a series of numbers unchanged |
| Series.DropNaOfNaNs | src/pairlink/cointegration.py:21 | `dropna()` of a run of NaNs is empty |
| Series.Diff | src/pairlink/cointegration.py:27 | `diff()` keeps the length of the series |
| Series.DiffAt | src/pairlink/cointegration.py:27 | entry i of `diff()` is NaN iff i = 0 or s[i] or s[i-1] is NaN; otherwise it is s[i] − s[i-1] |
| Series.Diffs | src/pairlink/cointegration.py:27 | d repeated `diff()`s keep the length of the series |
| Series.DiffsLeadingNaNs | src/pairlink/cointegration.py:27 | after d `diff()`s the first d entries are NaN |
| Series.FiniteDiffsLength | src/pairlink/cointegration.py:27 | the d-th finite difference of n numbers has n − d of them (none once d ≥ n) |
| Series.DropNaDiffsOfPadded | src/pairlink/cointegration.py:21-27 | a series of leading NaNs followed by numbers v, differenced d times and NaN-dropped, is exactly the d-th finite difference of v |
| IntegrationOrder.LevelInputIsFiniteDifference | src/pairlink/cointegration.py:18-27 | for a NaN-free series, the test at level d sees the d-th finite difference of its values, n − d long |
| Series.InteriorNaNSpreads | src/pairlink/cointegration.py:21-27 | a NaN inside a series spreads: for [1, NaN, 3, 4], level 1 sees [1], not the finite difference [2, 1] of the numbers [1, 3, 4] |
| StatTests.PValue | src/pairlink/cointegration.py:20-24 | the p-value acted on is the reported one, or 1 for ADF and 0 for KPSS when the test raises (also lines 35-39 and 50-54) |
| IntegrationOrder.OrderFrom | src/pairlink/cointegration.py:19-28 | a level returned by the search from d lies in d..max_diff and passes the test's criterion |
| IntegrationOrder.Order | src/pairlink/cointegration.py:83-90 | the order the gate uses for each series and test: when found, it is ≤ max_diff and passes the criterion |
| IntegrationOrder.SearchOrder | src/pairlink/cointegration.py:17-28 | the loop returns Order(...). A returned d is ≤ max_diff, passes, and no earlier level passes. None means no level in 0..max_diff passes. Raised tests get the fail-safe p-value |
| IntegrationOrder.CheckAdf | src/pairlink/cointegration.py:17-28 | returns the first d ≤ max_diff whose ADF p-value is < signif, every earlier p-value being ≥ signif; None when every level's p-value is ≥ signif |
| IntegrationOrder.CheckKpssC | src/pairlink/cointegration.py:32-43 | returns the first d ≤ max_diff whose KPSS ('c') p-value is > signif, every earlier one being ≤ signif; None when all are ≤ signif |
| IntegrationOrder.CheckKpssCt | src/pairlink/cointegration.py:47-58 | the same for KPSS ('ct') |
| IntegrationOrder.OrderFromIsFirstPass | src/pairlink/cointegration.py:19-28 | the search from level d returns the first passing level in d..max_diff, and None exactly when none passes |
| IntegrationOrder.OrderIsFirstPassingLevel | src/pairlink/cointegration.py:19-26 | order = Some(d) iff d ≤ max_diff, level d passes and no level < d passes (first success wins) |
| IntegrationOrder.OrderNoneIffNoLevelPasses | src/pairlink/cointegration.py:19-28 | order = None iff no level in 0..max_diff passes |
| IntegrationOrder.OrderInRange | src/pairlink/cointegration.py:19-28 | a found order is ≤ max_diff; with max_diff = 2 the order is None, 0, 1 or 2 |
| IntegrationOrder.OrderStableUnderLargerLimit | src/pairlink/cointegration.py:19-26 | raising max_diff does not change an order already found |
| StatTests.FailSafeNeverAccepts | src/pairlink/cointegration.py:22-25 | the fail-safe p-value never meets the criterion: ADF's 1 when signif ≤ 1, KPSS's 0 when signif ≥ 0 |
| IntegrationOrder.RaisedLevelContinues | src/pairlink/cointegration.py:20-27 | a level whose test raises does not pass, and the search goes on to the next level instead of stopping |
| IntegrationOrder.AlwaysRaisingTestGivesNone | src/pairlink/cointegration.py:19-58 | a test that raises on every input leaves the order undetermined |
| Cointegration.EngleGranger | src/pairlink/cointegration.py:62-79 | defined exactly when OLS and the residual ADF both return. Carries the given label, the slope and residuals of the fit of dep on [1, indep], and the residual ADF statistic, p-value and critical values. is_cointegrated ⇔ p-value < 0.05 |
| Cointegration.EngleGrangerTest | src/pairlink/cointegration.py:83-133 | ADF rejection iff not both ADF orders are 1. KPSS rejection iff both ADF orders are 1 and neither KPSS spec has both orders 1. Regression runs iff both gates open. The report holds the six orders and both directions, with dep/indep swapped and labelled. A raise names its direction |
| Cointegration.Report.Status | src/pairlink/cointegration.py:112-121 | the status is absent exactly for a tested report, and otherwise "Not Tested - Non I(1)" |
| Cointegration.StatusMarksRejection | src/pairlink/cointegration.py:112-121 | a returned report has status "Not Tested - Non I(1)" iff the pair was not tested, and no status iff it was |
| Cointegration.TestedDirections | src/pairlink/cointegration.py:93-94 | in a tested report the directions are labelled "linest:s1_on_s2" and "linest:s2_on_s1". Each verdict is p-value < 0.05. Each hedge ratio, residuals and p-value come from OLS of s1 on s2, or s2 on s1 |
| Cointegration.TestedMeansBothI1 | src/pairlink/cointegration.py:83-94 | tested implies, for both series, ADF p ≥ 0.05 at level 0 and < 0.05 at level 1. For one KPSS spec and both series, KPSS p ≤ 0.05 at level 0 and > 0.05 at level 1 |
| Cointegration.ReportOrdersInRange | src/pairlink/cointegration.py:83-90 | every order in a returned report is None, 0, 1 or 2 |
| Cointegration.OrderFromDependsOnTestOnly | src/pairlink/cointegration.py:19-28 | an order search depends on nothing but its own test's results |
| Cointegration.AdfRejectionDoesNoFurtherWork | src/pairlink/cointegration.py:83-86 | after an ADF rejection, the KPSS and OLS routines cannot affect the outcome. The outcome is exactly the two ADF orders with the not-tested status |
| Cointegration.KpssRejectionRunsNoRegression | src/pairlink/cointegration.py:86-113 | after a KPSS rejection, the OLS routine cannot affect the outcome |
| Cointegration.GateIsSymmetric | src/pairlink/cointegration.py:86-94 | both gates ignore the order of the series. Swapping the series keeps whether the pair is tested, swaps the six orders between the series, and swaps the two tested directions; each label stays with its position |

## Left out

- `adfuller`, `kpss`, `sm.OLS` and `sm.add_constant` internals: foreign library calls, modelled as the uninterpreted oracles of `StatTests.Oracles`.
- Floating point: observations and p-values are exact reals, and NaN exists only as a series entry. A NaN p-value, for which both comparisons would be false, is not modelled.
- The statistic, critical values, residuals and hedge ratio are passed through without interpretation.
- All `print` diagnostics (lines 23, 38, 53, 97-103, 116-117): advisory console output, not part of the result.
- Exceptions are modelled only where they change the result: a raised unit-root test becomes the fail-safe p-value, and a raised OLS or residual ADF call becomes `Outcome.Raised`. The exception's message is dropped.
- Differencing with NaNs inside the series: the finite-difference results (`DropNaDiffsOfPadded`, `LevelInputIsFiniteDifference`) cover series with no NaN or with NaNs only at the start. A NaN inside the series is spread by `diff()` to the next position, so the test then sees fewer numbers than the finite difference of the numbers (`InteriorNaNSpreads`).
- The pandas index (dates) and the alignment of the two series: the model works on positions only.
- `src/pairlink/mean_reversion.py` (half-life, empirical mean reversion, Hurst exponent): floating-point numerics built on OLS, logarithms and an infinity sentinel. `empirical_mean_reversion` also depends on `processing.py`, which is not part of this model.
- `setup.py`: package metadata, no logic.
