/** Diagnostics on regression residuals: the Shapiro-Wilk normality verdict,
    histogram data and QQ-plot data. The test, the histogram, log10 and the
    normal quantile function are parameters; what is modelled is the gating and
    the shape of what each function returns. */
module ResidualsAnalysis {
  import opened Common
  import opened Sorting

  const MinResidualsForTest: nat := 3
  const MinResidualsForPlots: nat := 2
  /** `np.var(residuals) < 1e-9` counts as constant. */
  const ConstantVarianceBound: real := 0.000000001
  const TestName: string := "Shapiro-Wilk"

  datatype Oracles = Oracles(
    /** `stats.shapiro`: (statistic, p-value), or the text of its exception. */
    shapiro: seq<real> -> Result<(real, Stat), string>,
    /** `np.histogram(residuals, bins=k)`: (counts, edges), or the text of its exception. */
    histogram: (seq<real>, int) -> Result<(seq<nat>, seq<real>), string>,
    /** `np.log10`. */
    log10: real -> real,
    /** `stats.norm.ppf`. */
    ppf: real -> real)

  // ---------------------------------------------------------------------------
  // perform_residuals_normality_test (lines 6-56)
  // ---------------------------------------------------------------------------

  datatype NormalityConclusion =
    | InsufficientData
    | ConstantResiduals
    | LooksGaussian(alpha: real)
    | NotGaussian(alpha: real)
    | ErrorPerformingTest(message: string)

  datatype NormalityResult = NormalityResult(
    testName: string, statistic: Stat, pValue: Stat, isNormal: bool, conclusion: NormalityConclusion)

  /** The verdict on a list of residuals. Normality is claimed exactly when the
      test ran on at least 3 non-constant residuals and its p-value exceeds alpha;
      every other path leaves statistic and p-value NaN. */
  function NormalityTest(residuals: seq<real>, alpha: real, o: Oracles): (r: NormalityResult)
    ensures r.testName == TestName
    ensures |residuals| < MinResidualsForTest ==>
      r == NormalityResult(TestName, NaN, NaN, false, InsufficientData)
    ensures |residuals| >= MinResidualsForTest && PopulationVariance(residuals) < ConstantVarianceBound ==>
      r == NormalityResult(TestName, NaN, NaN, false, ConstantResiduals)
    ensures r.isNormal <==>
      |residuals| >= MinResidualsForTest && PopulationVariance(residuals) >= ConstantVarianceBound &&
      o.shapiro(residuals).Ok? && Above(o.shapiro(residuals).value.1, alpha)
    ensures r.isNormal <==> r.conclusion.LooksGaussian?
    ensures r.isNormal ==> Above(r.pValue, alpha)
    ensures r.conclusion.NotGaussian? ==> !Above(r.pValue, alpha) && r.statistic.Num?
    ensures r.statistic == NaN <==> !(r.conclusion.LooksGaussian? || r.conclusion.NotGaussian?)
  {
    if |residuals| < MinResidualsForTest then
      NormalityResult(TestName, NaN, NaN, false, InsufficientData)
    else if PopulationVariance(residuals) < ConstantVarianceBound then
      NormalityResult(TestName, NaN, NaN, false, ConstantResiduals)
    else
      match o.shapiro(residuals)
      case Err(e) => NormalityResult(TestName, NaN, NaN, false, ErrorPerformingTest(e))
      case Ok((stat, p)) =>
        var normal := Above(p, alpha);
        NormalityResult(TestName, Num(stat), p, normal, if normal then LooksGaussian(alpha) else NotGaussian(alpha))
  }

  lemma {:induction false} MeanOfConstant(s: seq<real>, c: real)
    requires |s| > 0 && forall k :: 0 <= k < |s| ==> s[k] == c
    ensures Mean(s) == c
  {
    SumConstant(s, c);
  }

  /** Identical residuals are reported as constant, never as normal. */
  lemma IdenticalResidualsAreConstant(residuals: seq<real>, alpha: real, o: Oracles)
    requires |residuals| >= MinResidualsForTest
    requires forall k :: 0 <= k < |residuals| ==> residuals[k] == residuals[0]
    ensures NormalityTest(residuals, alpha, o).conclusion == ConstantResiduals
    ensures !NormalityTest(residuals, alpha, o).isNormal
  {
    MeanOfConstant(residuals, residuals[0]);
    SquaredDeviationsZero(residuals, residuals[0]);
    assert PopulationVariance(residuals) == 0.0;
  }

  // ---------------------------------------------------------------------------
  // generate_residuals_histogram_data (lines 58-92)
  // ---------------------------------------------------------------------------

  datatype HistogramData = HistogramData(bins: seq<real>, frequencies: seq<nat>, error: Option<string>)

  /** The bin count actually used: the requested one, or Sturges' rule when the
      request is not positive. */
  function EffectiveBinCount(requested: int, n: nat, log10: real -> real): (k: int)
    ensures requested > 0 ==> k == requested
    ensures requested <= 0 && n > 0 && log10(n as real) >= 0.0 ==> k >= 1
  {
    if requested > 0 then requested else Ceil(1.0 + 3.322 * log10(n as real))
  }

  /** Fewer than two residuals give two empty lists; an exception inside gives two
      empty lists and its message; otherwise the edges and counts numpy returns. */
  function HistogramOf(residuals: seq<real>, requested: int, o: Oracles): (r: HistogramData)
    ensures |residuals| < MinResidualsForPlots ==> r == HistogramData([], [], None)
    ensures r.error.Some? ==> r.bins == [] && r.frequencies == []
    ensures |residuals| >= MinResidualsForPlots ==>
      var k := EffectiveBinCount(requested, |residuals|, o.log10);
      match o.histogram(residuals, k)
      case Ok((counts, edges)) => r == HistogramData(edges, counts, None)
      case Err(e) => r.error == Some(e)
  {
    if |residuals| < MinResidualsForPlots then HistogramData([], [], None)
    else
      match o.histogram(residuals, EffectiveBinCount(requested, |residuals|, o.log10))
      case Ok((counts, edges)) => HistogramData(edges, counts, None)
      case Err(e) => HistogramData([], [], Some(e))
  }

  // ---------------------------------------------------------------------------
  // generate_qq_plot_data (lines 94-126)
  // ---------------------------------------------------------------------------

  lemma ScaleMonotone(i: real, j: real, step: real)
    requires 0.0 <= i <= j && step >= 0.0
    ensures i * step <= j * step
  {
    assert j * step - i * step == (j - i) * step;
    assert Product(j - i, step) >= 0.0 || step == 0.0;
  }

  /** `np.linspace(a, b, n)`: `a + k·step` with `step = (b - a)/(n - 1)`, the last
      point set to `b`. */
  function Linspace(a: real, b: real, n: nat): (r: seq<real>)
    ensures |r| == n
    ensures n >= 1 ==> r[0] == a
    ensures n >= 2 ==> r[n - 1] == b
  {
    if n == 0 then []
    else if n == 1 then [a]
    else
      var step := (b - a) / ((n - 1) as real);
      seq(n, k requires 0 <= k < n => if k == n - 1 then b else a + (k as real) * step)
  }

  /** The evenly spaced probabilities rise from `a` to `b`. */
  lemma LinspaceSorted(a: real, b: real, n: nat)
    requires a <= b
    ensures Sorted(Linspace(a, b, n))
  {
    var r := Linspace(a, b, n);
    if n >= 2 {
      var m := (n - 1) as real;
      var step := (b - a) / m;
      assert step >= 0.0;
      assert m * step == b - a;
      forall i, j | 0 <= i < j < n ensures r[i] <= r[j] {
        var top := if j == n - 1 then m else j as real;
        ScaleMonotone(i as real, top, step);
        if j == n - 1 { assert r[j] == a + m * step; }
      }
    }
  }

  datatype QqData = QqData(theoretical: seq<real>, sample: seq<real>)

  /** The plot data: the residuals in ascending order against the normal quantiles
      of probabilities evenly spaced from 0.01 to 0.99, one per residual; fewer than
      two residuals give two empty lists. */
  function QqPlotData(residuals: seq<real>, o: Oracles): (r: QqData)
    ensures |residuals| < MinResidualsForPlots ==> r == QqData([], [])
    ensures |residuals| >= MinResidualsForPlots ==>
      Sorted(r.sample) && multiset(r.sample) == multiset(residuals) &&
      |r.theoretical| == |r.sample| == |residuals| &&
      r.theoretical[0] == o.ppf(0.01) && r.theoretical[|residuals| - 1] == o.ppf(0.99)
  {
    if |residuals| < MinResidualsForPlots then QqData([], [])
    else
      var ps := Linspace(0.01, 0.99, |residuals|);
      QqData(seq(|ps|, k requires 0 <= k < |ps| => o.ppf(ps[k])), Sort(residuals))
  }

  /** A quantile function never decreases. */
  ghost predicate MonotonePpf(o: Oracles)
  {
    forall x: real, y: real :: x <= y ==> o.ppf(x) <= o.ppf(y)
  }

  /** With a monotone quantile function both coordinates rise, so the points lie
      on a non-decreasing curve. */
  lemma TheoreticalQuantilesSorted(residuals: seq<real>, o: Oracles)
    requires MonotonePpf(o)
    ensures Sorted(QqPlotData(residuals, o).theoretical)
  {
    if |residuals| >= MinResidualsForPlots {
      var ps := Linspace(0.01, 0.99, |residuals|);
      LinspaceSorted(0.01, 0.99, |residuals|);
      var t := QqPlotData(residuals, o).theoretical;
      forall i, j | 0 <= i < j < |t| ensures t[i] <= t[j] {
        assert ps[i] <= ps[j];
      }
    }
  }
}
