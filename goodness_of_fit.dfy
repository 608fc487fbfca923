/** Pearson's chi-square goodness-of-fit test against a normal distribution, one
    result per numeric column (`perform_chi_square_test`). The statistics
    themselves (log10, the histogram, the normal CDF, scipy's `chisquare`) are
    parameters; what is modelled is the gating, the in-place merging of bins with
    low expected frequency, the renormalisation and the degrees of freedom. */
module GoodnessOfFit {
  import opened Common
  import opened Bins

  const MinObservations: nat := 20
  const MinExpectedFreq: real := 5.0
  /** `np.maximum(expected_freq, 1e-8)` before merging. */
  const ExpectedFloor: real := 0.00000001
  /** `np.maximum(expected_freq, 1e-9)` after renormalising. */
  const NormalizedFloor: real := 0.000000001
  /** Mean and standard deviation are estimated from the data. */
  const EstimatedParameters: nat := 2

  /** The library calls the test depends on. */
  datatype Oracles = Oracles(
    /** `np.log10`. */
    log10: real -> real,
    /** `np.histogram(data, bins=k)`: k counts and k + 1 edges. */
    histogram: (seq<real>, nat) -> (seq<nat>, seq<real>),
    /** `stats.norm.cdf(x, loc=mean, scale=sqrt(variance))`, as (x, mean, variance). */
    normCdf: (real, real, real) -> real,
    /** `stats.chisquare(f_obs, f_exp, ddof)`: (statistic, p-value), or the text of its ValueError. */
    chisquare: (seq<int>, seq<real>, nat) -> Result<(Stat, Stat), string>)

  /** numpy's histogram always returns one more edge than counts, as many counts as asked. */
  ghost predicate HistogramShape(o: Oracles)
  {
    forall data: seq<real>, k: nat :: |o.histogram(data, k).0| == k && |o.histogram(data, k).1| == k + 1
  }

  datatype Conclusion =
    | SkippedInsufficientData
    | SkippedZeroVariance
    | SkippedLowExpected
    | SkippedDegreesOfFreedom
    | SkippedValueError(message: string)
    | SkippedUnsupportedDistribution
    | RejectH0
    | FailToRejectH0

  /** One entry of the returned `results` list. `degreesOfFreedom` stays NaN on every
      path except a completed test. */
  datatype ChiSquareResult = ChiSquareResult(
    variableName: string,
    distribution: string,
    statistic: Stat,
    pValue: Stat,
    degreesOfFreedom: Stat,
    intervals: nat,
    conclusion: Conclusion)

  datatype GofLog =
    | NoNumericColumns
    | FoundNumericColumns(names: seq<string>)
    | LogInsufficientData(column: string, n: nat)
    | LogZeroVariance(column: string)
    | LogLowExpected(column: string)
    | LogNormalizing(column: string, observedSum: int, expectedSum: real)
    | LogNormalized(column: string, expectedSum: real)
    | LogDegreesOfFreedom(column: string, dof: int, bins: nat)
    | LogPerformed(column: string, distribution: string)
    | LogValueError(column: string, message: string)
    | LogUnsupportedDistribution(column: string)

  /** The initial record: nothing computed yet. */
  function Pending(name: string, distribution: string): ChiSquareResult
  {
    ChiSquareResult(name, distribution, NaN, NaN, NaN, 0, SkippedInsufficientData)
  }

  predicate Skipped(c: Conclusion)
  {
    !(c.RejectH0? || c.FailToRejectH0?)
  }

  // ---------------------------------------------------------------------------
  // Binning
  // ---------------------------------------------------------------------------

  /** Sturges' rule `ceil(1 + 3.322 log10 n)`, raised to at least 3. The raise is
      only a floor: from n = 10 on (log10 n >= 1) the rule alone gives at least 5. */
  function SturgesBinCount(n: nat, log10: real -> real): (k: nat)
    ensures k >= 3
    ensures n > 0 && log10(n as real) >= 1.0 ==> k == Ceil(1.0 + 3.322 * log10(n as real)) && k >= 5
  {
    var raw := if n > 0 then Ceil(1.0 + 3.322 * log10(n as real)) else 1;
    if raw < 3 then 3 else raw
  }

  /** `np.diff(cdf(edges)) * n`. */
  function ExpectedFrequencies(edges: seq<real>, cdf: real -> real, n: nat): (e: seq<real>)
    requires |edges| >= 1
    ensures |e| == |edges| - 1
  {
    seq(|edges| - 1, k requires 0 <= k < |edges| - 1 => (cdf(edges[k + 1]) - cdf(edges[k])) * (n as real))
  }

  /** `np.maximum(e, floor)`: every value at least `floor`, values above it unchanged. */
  function FloorAt(e: seq<real>, floor: real): (r: seq<real>)
    ensures |r| == |e|
    ensures forall k :: 0 <= k < |e| ==> r[k] >= floor && (e[k] >= floor ==> r[k] == e[k])
  {
    seq(|e|, k requires 0 <= k < |e| => if e[k] < floor then floor else e[k])
  }

  /** Pairs observed counts with expected frequencies. */
  function Zip(obs: seq<nat>, exp: seq<real>): (bs: seq<Bin>)
    requires |obs| == |exp|
    ensures |bs| == |obs| && forall k :: 0 <= k < |bs| ==> bs[k] == Bin(obs[k], exp[k])
  {
    seq(|obs|, k requires 0 <= k < |obs| => Bin(obs[k], exp[k]))
  }

  // ---------------------------------------------------------------------------
  // The merge loop of lines 84-105
  // ---------------------------------------------------------------------------

  /** The merge loop run from position `i`: a low bin 0 is added to its right
      neighbour and the scan moves on; any other low bin is added to its left
      neighbour and the merged bin is looked at again; a single low bin stops it. */
  function MergeFrom(bins: seq<Bin>, i: nat): seq<Bin>
    decreases |bins| - i
  {
    if i >= |bins| then bins
    else if bins[i].exp < MinExpectedFreq then
      if i == 0 then
        if |bins| > 1 then MergeFrom([Add(bins[1], bins[0])] + bins[2..], 1)
        else bins
      else MergeFrom(bins[..i - 1] + [Add(bins[i - 1], bins[i])] + bins[i + 1..], i)
    else MergeFrom(bins, i + 1)
  }

  /** One step at position 0: bin 0 goes into bin 1 and is dropped. */
  lemma MergeFirstStep(initial: seq<Bin>, bins: seq<Bin>, cuts: seq<nat>)
    requires Groups(initial, bins, cuts) && PositiveExpected(bins)
    requires |bins| > 1 && bins[0].exp < MinExpectedFreq
    ensures var next := [Add(bins[1], bins[0])] + bins[2..];
      Groups(initial, next, cuts[..1] + cuts[2..]) && PositiveExpected(next) &&
      MergeFrom(next, 1) == MergeFrom(bins, 0)
  {
    MergeAdjacent(initial, bins, cuts, 0);
    assert [Add(bins[1], bins[0])] + bins[2..] == bins[..0] + [Add(bins[0], bins[1])] + bins[2..];
  }

  /** One step at position i > 0: bin i goes into bin i - 1 and is dropped. */
  lemma MergeLeftStep(initial: seq<Bin>, bins: seq<Bin>, cuts: seq<nat>, i: nat)
    requires Groups(initial, bins, cuts) && PositiveExpected(bins)
    requires 0 < i < |bins| && bins[i].exp < MinExpectedFreq
    requires forall k :: 1 <= k < i ==> bins[k].exp >= MinExpectedFreq
    ensures var next := bins[..i - 1] + [Add(bins[i - 1], bins[i])] + bins[i + 1..];
      Groups(initial, next, cuts[..i] + cuts[i + 1..]) && PositiveExpected(next) &&
      (forall k :: 1 <= k < i ==> next[k].exp >= MinExpectedFreq) &&
      MergeFrom(next, i) == MergeFrom(bins, i)
  {
    var next := bins[..i - 1] + [Add(bins[i - 1], bins[i])] + bins[i + 1..];
    MergeAdjacent(initial, bins, cuts, i - 1);
    Collapse(bins, i - 1, Add(bins[i - 1], bins[i]), next);
  }

  /** The in-place merge loop. Each step adds one bin into a neighbour and deletes
      it, so the result groups the input into contiguous runs with the same totals;
      every bin after the first ends with expected frequency at least 5. */
  method MergeLowExpectedBins(initial: seq<Bin>) returns (bins: seq<Bin>, ghost cuts: seq<nat>)
    requires PositiveExpected(initial)
    ensures bins == MergeFrom(initial, 0)
    ensures Groups(initial, bins, cuts)
    ensures Total(bins) == Total(initial)
    ensures |bins| <= |initial| && (|initial| > 0 ==> |bins| > 0)
    ensures PositiveExpected(bins)
    ensures forall k :: 1 <= k < |bins| ==> bins[k].exp >= MinExpectedFreq
  {
    bins := initial;
    cuts := seq(|initial| + 1, k => k);
    GroupsIdentity(initial);
    var i := 0;
    while i < |bins|
      invariant 0 <= i <= |bins|
      invariant Groups(initial, bins, cuts)
      invariant PositiveExpected(bins)
      invariant forall k :: 1 <= k < i ==> bins[k].exp >= MinExpectedFreq
      invariant MergeFrom(bins, i) == MergeFrom(initial, 0)
      decreases |bins| - i
    {
      if bins[i].exp < MinExpectedFreq {
        if i == 0 {
          if |bins| > 1 {
            MergeFirstStep(initial, bins, cuts);
            bins := [Add(bins[1], bins[0])] + bins[2..];
            cuts := cuts[..1] + cuts[2..];
          } else {
            break;
          }
        } else {
          MergeLeftStep(initial, bins, cuts, i);
          bins := bins[..i - 1] + [Add(bins[i - 1], bins[i])] + bins[i + 1..];
          cuts := cuts[..i] + cuts[i + 1..];
          continue;
        }
      }
      i := i + 1;
    }
    GroupsTotal(initial, bins, cuts);
    GroupsLength(initial, bins, cuts);
  }

  /** The first bin is not looked at again after it absorbed a low bin 0: with
      expected frequencies 1, 1, 10, 10 the loop leaves 2, 10, 10, which the guard
      after the loop then rejects (adding 2 into its neighbour would have passed). */
  lemma FirstBinNotRechecked()
    ensures MergeFrom([Bin(1, 1.0), Bin(1, 1.0), Bin(10, 10.0), Bin(10, 10.0)], 0)
         == [Bin(2, 2.0), Bin(10, 10.0), Bin(10, 10.0)]
    ensures !PassesGuard([Bin(2, 2.0), Bin(10, 10.0), Bin(10, 10.0)])
  {
    var b := [Bin(1, 1.0), Bin(1, 1.0), Bin(10, 10.0), Bin(10, 10.0)];
    var m := [Bin(2, 2.0), Bin(10, 10.0), Bin(10, 10.0)];
    assert [Add(b[1], b[0])] + b[2..] == m;
    assert MergeFrom(m, 1) == MergeFrom(m, 2) == MergeFrom(m, 3) == m;
    assert m[0].exp < MinExpectedFreq;
  }

  /** The check after merging (lines 108-112): at least two bins, none below 5. */
  predicate PassesGuard(bins: seq<Bin>)
  {
    |bins| >= 2 && forall k :: 0 <= k < |bins| ==> bins[k].exp >= MinExpectedFreq
  }

  // ---------------------------------------------------------------------------
  // Renormalisation (lines 115-123)
  // ---------------------------------------------------------------------------

  /** `np.isclose(a, b)` with its default tolerances rtol = 1e-5, atol = 1e-8. */
  predicate IsClose(a: real, b: real)
  {
    Abs(a - b) <= 0.00000001 + 0.00001 * Abs(b)
  }

  /** Expected frequencies multiplied by `f`, observed counts unchanged. */
  function Scaled(bins: seq<Bin>, f: real): (r: seq<Bin>)
    ensures |r| == |bins| && forall k :: 0 <= k < |r| ==> r[k].obs == bins[k].obs
  {
    seq(|bins|, k requires 0 <= k < |bins| => Bin(bins[k].obs, bins[k].exp * f))
  }

  lemma {:induction false} ScaledTotal(bins: seq<Bin>, f: real)
    ensures Total(Scaled(bins, f)) == Bin(Total(bins).obs, Total(bins).exp * f)
  {
    if bins != [] {
      var m := |bins| - 1;
      forall k | 0 <= k < m ensures Scaled(bins, f)[..m][k] == Scaled(bins[..m], f)[k] { }
      assert Scaled(bins, f)[..m] == Scaled(bins[..m], f);
      ScaledTotal(bins[..m], f);
      var t := Total(bins[..m]).exp;
      assert t * f + bins[m].exp * f == (t + bins[m].exp) * f;
    }
  }

  /** Expected frequencies raised to at least `floor`, observed counts unchanged. */
  function FloorBins(bins: seq<Bin>, floor: real): (r: seq<Bin>)
    ensures |r| == |bins|
    ensures forall k :: 0 <= k < |r| ==> r[k].obs == bins[k].obs && r[k].exp >= floor
    ensures forall k :: 0 <= k < |r| && bins[k].exp >= floor ==> r[k].exp == bins[k].exp
  {
    seq(|bins|, k requires 0 <= k < |bins| => Bin(bins[k].obs, if bins[k].exp < floor then floor else bins[k].exp))
  }

  lemma FloorBinsNoOp(bins: seq<Bin>, floor: real)
    requires forall k :: 0 <= k < |bins| ==> bins[k].exp >= floor
    ensures FloorBins(bins, floor) == bins
  {
  }

  /** Whether the sums are rescaled: only a positive observed sum not already close. */
  predicate NeedsNormalizing(bins: seq<Bin>)
  {
    Total(bins).obs > 0 && !IsClose(Total(bins).obs as real, Total(bins).exp)
  }

  /** `sum_obs / sum_exp`. */
  function Factor(bins: seq<Bin>): real
    requires Total(bins).exp > 0.0
  {
    Total(bins).obs as real / Total(bins).exp
  }

  /** Lines 115-121: when the sums disagree, expected frequencies are rescaled so
      that they add up to the observed sum, then floored at 1e-9. */
  function Normalize(bins: seq<Bin>): (r: seq<Bin>)
    requires Total(bins).exp > 0.0
    ensures |r| == |bins|
    ensures forall k :: 0 <= k < |r| ==> r[k].obs == bins[k].obs
    ensures !NeedsNormalizing(bins) ==> r == bins
  {
    if NeedsNormalizing(bins) then FloorBins(Scaled(bins, Factor(bins)), NormalizedFloor)
    else bins
  }

  /** After rescaling, the expected sum equals the observed sum whenever the 1e-9
      floor did not have to raise any value. */
  lemma NormalizeMatchesObserved(bins: seq<Bin>)
    requires Total(bins).exp > 0.0 && NeedsNormalizing(bins)
    requires forall k :: 0 <= k < |bins| ==> Scaled(bins, Factor(bins))[k].exp >= NormalizedFloor
    ensures Total(Normalize(bins)) == Bin(Total(bins).obs, Total(bins).obs as real)
  {
    var s := Scaled(bins, Factor(bins));
    FloorBinsNoOp(s, NormalizedFloor);
    ScaledToObserved(bins);
  }

  /** Scaling by `sum_obs / sum_exp` takes the expected sum to the observed sum. */
  lemma ScaledToObserved(bins: seq<Bin>)
    requires Total(bins).exp > 0.0
    ensures Total(Scaled(bins, Factor(bins))) == Bin(Total(bins).obs, Total(bins).obs as real)
  {
    ScaledTotal(bins, Factor(bins));
    FactorCancels(bins);
  }

  lemma FactorCancels(bins: seq<Bin>)
    requires Total(bins).exp > 0.0
    ensures Total(bins).exp * Factor(bins) == Total(bins).obs as real
  {
  }

  // ---------------------------------------------------------------------------
  // One column
  // ---------------------------------------------------------------------------

  /** What is known before the merge loop: either the column is already finished
      (result and logs), or it continues with the floored bins. */
  datatype Stage = Finished(result: ChiSquareResult, logs: seq<GofLog>) | ToMerge(bins: seq<Bin>)

  /** Lines 34-81: the n >= 20 gate, the histogram, the distribution and variance
      checks, expected frequencies from the CDF and the 1e-8 floor. */
  function BeforeMerge(col: Column, distribution: string, o: Oracles): (st: Stage)
    requires HistogramShape(o)
    ensures var n := |PresentValues(col.cells)|;
      n < MinObservations ==>
        st == Finished(Pending(col.name, distribution), [LogInsufficientData(col.name, n)])
    ensures st.ToMerge? ==>
      |PresentValues(col.cells)| >= MinObservations && distribution == "norm" &&
      SampleVariance(PresentValues(col.cells)) != Num(0.0) &&
      |st.bins| == SturgesBinCount(|PresentValues(col.cells)|, o.log10) &&
      |st.bins| >= 3 && PositiveExpected(st.bins)
    ensures st.Finished? ==> st.result.variableName == col.name && Skipped(st.result.conclusion)
  {
    var values := PresentValues(col.cells);
    var n := |values|;
    var base := Pending(col.name, distribution);
    if n < MinObservations then
      Finished(base, [LogInsufficientData(col.name, n)])
    else
      var k := SturgesBinCount(n, o.log10);
      var (counts, edges) := o.histogram(values, k);
      if distribution == "norm" then
        var mean := Mean(values);
        var variance := SampleVariance(values);
        if variance == Num(0.0) || variance.NaN? then
          Finished(base.(conclusion := SkippedZeroVariance), [LogZeroVariance(col.name)])
        else
          var cdf := x => o.normCdf(x, mean, variance.v);
          var expected := FloorAt(ExpectedFrequencies(edges, cdf, n), ExpectedFloor);
          ToMerge(Zip(counts, expected))
      else
        Finished(base.(conclusion := SkippedUnsupportedDistribution), [LogUnsupportedDistribution(col.name)])
  }

  /** Lines 107-159 after merging: the guard, renormalisation, the degrees of freedom
      and the test itself. */
  function AfterMerge(name: string, distribution: string, alpha: real, merged: seq<Bin>, o: Oracles)
    : (out: (ChiSquareResult, seq<GofLog>))
    ensures out.0.variableName == name && out.0.distribution == distribution
    ensures out.0.conclusion == SkippedLowExpected <==> !PassesGuard(merged)
    ensures out.0.conclusion == SkippedDegreesOfFreedom <==>
      PassesGuard(merged) && |merged| - 1 - EstimatedParameters <= 0
    ensures !Skipped(out.0.conclusion) ==>
      PassesGuard(merged) && |merged| >= 4 &&
      out.0.intervals == |merged| &&
      out.0.degreesOfFreedom == Num((|merged| - 1 - EstimatedParameters) as real) &&
      (out.0.conclusion == RejectH0 <==> Below(out.0.pValue, alpha))
    ensures Skipped(out.0.conclusion) ==>
      out.0.statistic == NaN && out.0.pValue == NaN && out.0.degreesOfFreedom == NaN && out.0.intervals == 0
  {
    var base := Pending(name, distribution);
    if !PassesGuard(merged) then
      (base.(conclusion := SkippedLowExpected), [LogLowExpected(name)])
    else
      assert Total(merged).exp > 0.0 by { PassesGuardTotal(merged); }
      var normLogs :=
        if NeedsNormalizing(merged) then
          [LogNormalizing(name, Total(merged).obs, Total(merged).exp),
           LogNormalized(name, Total(Normalize(merged)).exp)]
        else [];
      var final := Normalize(merged);
      var bins := |final|;
      var dof := bins - 1 - EstimatedParameters;
      if dof <= 0 then
        (base.(conclusion := SkippedDegreesOfFreedom), normLogs + [LogDegreesOfFreedom(name, dof, bins)])
      else
        match o.chisquare(Observed(final), Expected(final), EstimatedParameters)
        case Err(msg) =>
          (base.(conclusion := SkippedValueError(msg)), normLogs + [LogValueError(name, msg)])
        case Ok((stat, p)) =>
          var c := if Below(p, alpha) then RejectH0 else FailToRejectH0;
          (base.(statistic := stat, pValue := p, degreesOfFreedom := Num(dof as real),
                 intervals := bins, conclusion := c),
           normLogs + [LogPerformed(name, distribution)])
  }

  lemma {:induction false} PassesGuardTotal(bins: seq<Bin>)
    requires |bins| >= 1 && forall k :: 0 <= k < |bins| ==> bins[k].exp >= MinExpectedFreq
    ensures Total(bins).exp >= MinExpectedFreq
  {
    if |bins| > 1 {
      PassesGuardTotal(bins[..|bins| - 1]);
    } else {
      assert bins[..0] == [];
    }
  }

  function Observed(bins: seq<Bin>): (r: seq<int>)
    ensures |r| == |bins| && forall k :: 0 <= k < |r| ==> r[k] == bins[k].obs
  {
    seq(|bins|, k requires 0 <= k < |bins| => bins[k].obs)
  }

  function Expected(bins: seq<Bin>): (r: seq<real>)
    ensures |r| == |bins| && forall k :: 0 <= k < |r| ==> r[k] == bins[k].exp
  {
    seq(|bins|, k requires 0 <= k < |bins| => bins[k].exp)
  }

  /** The whole treatment of one column, as a function. */
  function TestColumn(col: Column, distribution: string, alpha: real, o: Oracles): (out: (ChiSquareResult, seq<GofLog>))
    requires HistogramShape(o)
  {
    match BeforeMerge(col, distribution, o)
    case Finished(r, l) => (r, l)
    case ToMerge(bins) => AfterMerge(col.name, distribution, alpha, MergeFrom(bins, 0), o)
  }

  /** A completed test used at least 4 merged bins, all with expected frequency of at
      least 5, on a column of at least 20 values with non-zero variance; its degrees
      of freedom are the bin count less 3, and it rejects exactly when p < alpha. */
  lemma CompletedTestFacts(col: Column, distribution: string, alpha: real, o: Oracles)
    requires HistogramShape(o)
    ensures var r := TestColumn(col, distribution, alpha, o).0;
      !Skipped(r.conclusion) ==>
        |PresentValues(col.cells)| >= MinObservations && distribution == "norm" &&
        r.intervals >= 4 && r.degreesOfFreedom == Num((r.intervals - 3) as real) &&
        (r.conclusion == RejectH0 <==> Below(r.pValue, alpha))
    ensures var r := TestColumn(col, distribution, alpha, o).0;
      r.variableName == col.name &&
      (|PresentValues(col.cells)| < MinObservations ==> r.conclusion == SkippedInsufficientData && r.intervals == 0)
  {
  }

  // ---------------------------------------------------------------------------
  // All columns
  // ---------------------------------------------------------------------------

  /** The log lines of the columns' tests, one column after another. */
  function ColumnLogs(cols: seq<Column>, distribution: string, alpha: real, o: Oracles): seq<GofLog>
    requires HistogramShape(o)
  {
    if cols == [] then []
    else ColumnLogs(cols[..|cols| - 1], distribution, alpha, o) + TestColumn(cols[|cols| - 1], distribution, alpha, o).1
  }

  /** The columns' results, one column after another. */
  function ColumnResults(cols: seq<Column>, distribution: string, alpha: real, o: Oracles): (r: seq<ChiSquareResult>)
    requires HistogramShape(o)
    ensures |r| == |cols| && forall k :: 0 <= k < |cols| ==> r[k] == TestColumn(cols[k], distribution, alpha, o).0
  {
    if cols == [] then []
    else
      var rest := ColumnResults(cols[..|cols| - 1], distribution, alpha, o);
      assert forall k :: 0 <= k < |cols| - 1 ==> cols[..|cols| - 1][k] == cols[k];
      rest + [TestColumn(cols[|cols| - 1], distribution, alpha, o).0]
  }

  lemma ColumnsStep(cols: seq<Column>, c: nat, distribution: string, alpha: real, o: Oracles)
    requires HistogramShape(o) && c < |cols|
    ensures ColumnLogs(cols[..c + 1], distribution, alpha, o) ==
            ColumnLogs(cols[..c], distribution, alpha, o) + TestColumn(cols[c], distribution, alpha, o).1
    ensures ColumnResults(cols[..c + 1], distribution, alpha, o) ==
            ColumnResults(cols[..c], distribution, alpha, o) + [TestColumn(cols[c], distribution, alpha, o).0]
  {
    assert cols[..c + 1][..c] == cols[..c];
  }

  /** `perform_chi_square_test`: exactly one result per numeric column, in column
      order, each the outcome of that column's test; the logs are the list of
      columns found followed by each column's lines in column order. */
  method PerformChiSquareTest(df: Frame, distribution: string, alpha: real, o: Oracles)
    returns (results: seq<ChiSquareResult>, logs: seq<GofLog>)
    requires HistogramShape(o)
    ensures var cols := NumericColumns(df.columns);
      |results| == |cols| && |logs| >= 1 &&
      (forall k :: 0 <= k < |cols| ==> results[k] == TestColumn(cols[k], distribution, alpha, o).0) &&
      logs[0] == (if cols == [] then NoNumericColumns else FoundNumericColumns(ColumnNames(cols))) &&
      logs[1..] == ColumnLogs(cols, distribution, alpha, o)
  {
    var cols := NumericColumns(df.columns);
    if cols == [] {
      return [], [NoNumericColumns];
    }
    var columnLogs;
    results, columnLogs := TestColumns(cols, distribution, alpha, o);
    logs := [FoundNumericColumns(ColumnNames(cols))] + columnLogs;
  }

  /** The loop over the numeric columns: each column's result and log lines
      are appended in turn. */
  method TestColumns(cols: seq<Column>, distribution: string, alpha: real, o: Oracles)
    returns (results: seq<ChiSquareResult>, logs: seq<GofLog>)
    requires HistogramShape(o)
    ensures results == ColumnResults(cols, distribution, alpha, o)
    ensures logs == ColumnLogs(cols, distribution, alpha, o)
  {
    results, logs := [], [];
    var c := 0;
    while c < |cols|
      invariant 0 <= c <= |cols|
      invariant results == ColumnResults(cols[..c], distribution, alpha, o)
      invariant logs == ColumnLogs(cols[..c], distribution, alpha, o)
    {
      var r, l := TestOneColumn(cols[c], distribution, alpha, o);
      ColumnsStep(cols, c, distribution, alpha, o);
      results := results + [r];
      logs := logs + l;
      c := c + 1;
    }
    assert cols[..c] == cols;
  }

  /** One column: the checks before the merge, the merge loop, and the test. */
  method TestOneColumn(col: Column, distribution: string, alpha: real, o: Oracles)
    returns (result: ChiSquareResult, logs: seq<GofLog>)
    requires HistogramShape(o)
    ensures (result, logs) == TestColumn(col, distribution, alpha, o)
  {
    var stage := BeforeMerge(col, distribution, o);
    match stage {
      case Finished(r, l) =>
        result, logs := r, l;
      case ToMerge(bins) =>
        var merged, cuts := MergeLowExpectedBins(bins);
        result, logs := AfterMerge(col.name, distribution, alpha, merged, o).0,
                        AfterMerge(col.name, distribution, alpha, merged, o).1;
    }
  }
}
