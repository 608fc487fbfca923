/** Simple linear regression Y ~ X over every ordered pair of distinct numeric
    columns (`perform_simple_linear_regression`). The OLS fit is a parameter;
    what is modelled is the enumeration, the gates before fitting, the result
    records and the one log line each pair contributes. */
module Regression {
  import opened Common
  import opened Pairs

  const ModelType: string := "Simple Linear Regression"
  /** OLS with a constant needs more rows than its two regressors. */
  const MinRows: nat := 3

  datatype Coefficient = Coefficient(variableName: string, estimate: Stat, stdError: Stat, tStatistic: Stat, pValue: Stat)

  /** What `sm.OLS(y, add_constant(x)).fit()` reports. */
  datatype OlsFit = OlsFit(rSquared: Stat, adjustedRSquared: Stat, fStatistic: Stat, fPValue: Stat,
                           coefficients: seq<Coefficient>)

  /** The three exception handlers around the fit. */
  datatype OlsError = PerfectSeparation | OlsValueError(message: string) | UnexpectedError(message: string)

  datatype Oracles = Oracles(
    /** The fit of y on x with an intercept, or the exception it raises. */
    ols: (seq<real>, seq<real>) -> Result<OlsFit, OlsError>)

  datatype RegressionResult = RegressionResult(
    modelType: string,
    dependentVariable: string,
    independentVariables: seq<string>,
    rSquared: Stat,
    adjustedRSquared: Stat,
    fStatistic: Stat,
    fPValue: Stat,
    coefficients: seq<Coefficient>)

  datatype RegressionLog =
    | NotEnoughColumns
    | FoundColumns(count: nat, names: seq<string>)
    | SkippedInsufficientData(y: string, x: string, rows: nat)
    | SkippedZeroVariance(y: string, x: string)
    | Fitted(y: string, x: string)
    | SkippedPerfectSeparation(y: string, x: string)
    | SkippedValueError(y: string, x: string, message: string)
    | SkippedUnexpectedError(y: string, x: string, message: string)
    | NoModelsFitted

  /** One pair Y ~ X: skipped with at most 2 complete rows or a constant column,
      otherwise fitted; exactly one log line either way. */
  function FitPair(y: Column, x: Column, o: Oracles): (r: (Option<RegressionResult>, RegressionLog))
    ensures r.0.Some? <==> r.1 == Fitted(y.name, x.name)
  {
    var rows := CompleteRows(y.cells, x.cells);
    if |rows| < MinRows then (None, SkippedInsufficientData(y.name, x.name, |rows|))
    else
      var ys, xs := Firsts(rows), Seconds(rows);
      if SampleVariance(ys) == Num(0.0) || SampleVariance(xs) == Num(0.0) then
        (None, SkippedZeroVariance(y.name, x.name))
      else
        match o.ols(ys, xs)
        case Ok(fit) =>
          (Some(RegressionResult(ModelType, y.name, [x.name], fit.rSquared, fit.adjustedRSquared,
                                 fit.fStatistic, fit.fPValue, fit.coefficients)),
           Fitted(y.name, x.name))
        case Err(PerfectSeparation) => (None, SkippedPerfectSeparation(y.name, x.name))
        case Err(OlsValueError(m)) => (None, SkippedValueError(y.name, x.name, m))
        case Err(UnexpectedError(m)) => (None, SkippedUnexpectedError(y.name, x.name, m))
  }

  /** The gates before fitting and the record of a fitted model. */
  lemma FitPairGates(y: Column, x: Column, o: Oracles)
    ensures var r := FitPair(y, x, o);
      var rows := CompleteRows(y.cells, x.cells);
      (|rows| < MinRows ==> r == (None, SkippedInsufficientData(y.name, x.name, |rows|))) &&
      (r.0.Some? ==>
        |rows| >= MinRows &&
        SampleVariance(Firsts(rows)) != Num(0.0) && SampleVariance(Seconds(rows)) != Num(0.0) &&
        o.ols(Firsts(rows), Seconds(rows)).Ok? &&
        var fit := o.ols(Firsts(rows), Seconds(rows)).value;
        r.0.value == RegressionResult(ModelType, y.name, [x.name], fit.rSquared, fit.adjustedRSquared,
                                      fit.fStatistic, fit.fPValue, fit.coefficients))
  {
  }

  /** A pair of non-constant columns is never skipped for zero variance: the
      variance gate fires exactly when one column is constant over the complete rows. */
  lemma ZeroVarianceGate(y: Column, x: Column, o: Oracles)
    requires |CompleteRows(y.cells, x.cells)| >= MinRows
    ensures FitPair(y, x, o).1 == SkippedZeroVariance(y.name, x.name) <==>
      Constant(Firsts(CompleteRows(y.cells, x.cells))) || Constant(Seconds(CompleteRows(y.cells, x.cells)))
  {
    var rows := CompleteRows(y.cells, x.cells);
    VarianceZeroIffConstant(Firsts(rows));
    VarianceZeroIffConstant(Seconds(rows));
  }

  /** The model each pair of a run produces, if any. */
  function PairResults(cols: seq<Column>, ps: seq<(nat, nat)>, o: Oracles): (r: seq<Option<RegressionResult>>)
    requires InRange(ps, |cols|)
    ensures |r| == |ps|
  {
    seq(|ps|, k requires 0 <= k < |ps| => FitPair(cols[ps[k].0], cols[ps[k].1], o).0)
  }

  /** The log line each pair of a run produces. */
  function PairLogs(cols: seq<Column>, ps: seq<(nat, nat)>, o: Oracles): (r: seq<RegressionLog>)
    requires InRange(ps, |cols|)
    ensures |r| == |ps|
  {
    seq(|ps|, k requires 0 <= k < |ps| => FitPair(cols[ps[k].0], cols[ps[k].1], o).1)
  }

  lemma Snoc(cols: seq<Column>, ps: seq<(nat, nat)>, p: (nat, nat), o: Oracles)
    requires InRange(ps, |cols|) && p.0 < |cols| && p.1 < |cols|
    ensures InRange(ps + [p], |cols|)
    ensures PairResults(cols, ps + [p], o) == PairResults(cols, ps, o) + [FitPair(cols[p.0], cols[p.1], o).0]
    ensures PairLogs(cols, ps + [p], o) == PairLogs(cols, ps, o) + [FitPair(cols[p.0], cols[p.1], o).1]
  {
    assert forall k :: 0 <= k < |ps| ==> (ps + [p])[k] == ps[k];
  }

  /** Every model regresses one column on one other column, and the pair that
      produced it logged that it was fitted. */
  lemma ModelsComeFromFittedPairs(cols: seq<Column>, ps: seq<(nat, nat)>, o: Oracles)
    requires InRange(ps, |cols|)
    ensures forall r: RegressionResult :: r in Present(PairResults(cols, ps, o)) ==>
      r.modelType == ModelType &&
      exists k :: 0 <= k < |ps| && r.dependentVariable == cols[ps[k].0].name &&
                  r.independentVariables == [cols[ps[k].1].name] &&
                  PairLogs(cols, ps, o)[k] == Fitted(cols[ps[k].0].name, cols[ps[k].1].name)
  {
    var rs := PairResults(cols, ps, o);
    PresentMembers(rs);
    forall r: RegressionResult | r in Present(rs)
      ensures r.modelType == ModelType &&
        exists k :: 0 <= k < |ps| && r.dependentVariable == cols[ps[k].0].name &&
                    r.independentVariables == [cols[ps[k].1].name] &&
                    PairLogs(cols, ps, o)[k] == Fitted(cols[ps[k].0].name, cols[ps[k].1].name)
    {
      var k :| 0 <= k < |rs| && rs[k] == Some(r);
      FitPairGates(cols[ps[k].0], cols[ps[k].1], o);
    }
  }

  /** Visiting one more pair appends its model, if any, and its log line. */
  lemma VisitPair(cols: seq<Column>, done: seq<(nat, nat)>, row: seq<(nat, nat)>, p: (nat, nat),
                  results: seq<RegressionResult>, logs: seq<RegressionLog>, logs0: seq<RegressionLog>, o: Oracles)
    requires InRange(done + row, |cols|) && InRange(row, |cols|) && p.0 < |cols| && p.1 < |cols|
    requires results == Present(PairResults(cols, done + row, o))
    requires logs == logs0 + PairLogs(cols, row, o)
    ensures InRange(done + (row + [p]), |cols|) && InRange(row + [p], |cols|)
    ensures var (r, line) := FitPair(cols[p.0], cols[p.1], o);
      results + (if r.Some? then [r.value] else []) == Present(PairResults(cols, done + (row + [p]), o)) &&
      logs + [line] == logs0 + PairLogs(cols, row + [p], o)
  {
    assert done + row + [p] == done + (row + [p]);
    Snoc(cols, done + row, p, o);
    Snoc(cols, row, p, o);
    PresentSnoc(PairResults(cols, done + row, o), FitPair(cols[p.0], cols[p.1], o).0);
  }

  /** The inner loop for Y = column `i`: Y ~ X for every other column X, in order,
      appended after the outcomes of the pairs `done` already visited. */
  method FitRow(cols: seq<Column>, i: nat, o: Oracles, ghost done: seq<(nat, nat)>,
                results0: seq<RegressionResult>, logs0: seq<RegressionLog>)
    returns (results: seq<RegressionResult>, logs: seq<RegressionLog>)
    requires i < |cols| && InRange(done, |cols|)
    requires results0 == Present(PairResults(cols, done, o))
    ensures InRange(done + OrderedRow(i, |cols|), |cols|)
    ensures results == Present(PairResults(cols, done + OrderedRow(i, |cols|), o))
    ensures logs == logs0 + PairLogs(cols, OrderedRow(i, |cols|), o)
  {
    var n := |cols|;
    results, logs := results0, logs0;
    ghost var row: seq<(nat, nat)> := [];
    assert done + row == done;
    for j := 0 to n
      invariant row == OrderedRow(i, j) && InRange(done + row, n) && InRange(row, n)
      invariant results == Present(PairResults(cols, done + row, o))
      invariant logs == logs0 + PairLogs(cols, row, o)
    {
      if i == j {
        assert OrderedRow(i, j + 1) == row + [];
        continue;
      }
      assert OrderedRow(i, j + 1) == row + [(i, j)];
      VisitPair(cols, done, row, (i, j), results, logs, logs0, o);
      var (r, line) := FitPair(cols[i], cols[j], o);
      if r.Some? {
        results := results + [r.value];
      }
      logs := logs + [line];
      row := row + [(i, j)];
    }
  }

  lemma ConcatLogs(cols: seq<Column>, a: seq<(nat, nat)>, b: seq<(nat, nat)>, o: Oracles)
    requires InRange(a, |cols|) && InRange(b, |cols|)
    ensures InRange(a + b, |cols|)
    ensures PairLogs(cols, a + b, o) == PairLogs(cols, a, o) + PairLogs(cols, b, o)
  {
    assert forall k :: 0 <= k < |a + b| ==> (a + b)[k] == if k < |a| then a[k] else b[k - |a|];
  }

  /** Appending the logs of row `i` extends the logs of the rows before it. */
  lemma RowLogs(cols: seq<Column>, i: nat, head: seq<RegressionLog>, logs: seq<RegressionLog>, o: Oracles)
    requires i < |cols|
    requires logs == head + PairLogs(cols, OrderedRows(i, |cols|), o) + PairLogs(cols, OrderedRow(i, |cols|), o)
    ensures logs == head + PairLogs(cols, OrderedRows(i + 1, |cols|), o)
  {
    var a, b := OrderedRows(i, |cols|), OrderedRow(i, |cols|);
    ConcatLogs(cols, a, b, o);
    assert head + PairLogs(cols, a, o) + PairLogs(cols, b, o) == head + (PairLogs(cols, a, o) + PairLogs(cols, b, o));
  }

  /** Fits every ordered pair of distinct numeric columns, Y before X in column
      order. Returns the fitted models and the logs: the column count, one line
      per pair, and a closing line when nothing could be fitted. */
  method PerformSimpleLinearRegression(df: Frame, o: Oracles)
    returns (results: seq<RegressionResult>, logs: seq<RegressionLog>)
    ensures var cols := NumericColumns(df.columns);
      (|cols| < 2 ==> results == [] && logs == [NotEnoughColumns]) &&
      (|cols| >= 2 ==>
        results == Present(PairResults(cols, OrderedPairs(|cols|), o)) &&
        logs == [FoundColumns(|cols|, ColumnNames(cols))] + PairLogs(cols, OrderedPairs(|cols|), o) +
                (if results == [] then [NoModelsFitted] else []))
  {
    var cols := NumericColumns(df.columns);
    var n := |cols|;
    if n < 2 {
      return [], [NotEnoughColumns];
    }
    var head := [FoundColumns(n, ColumnNames(cols))];
    results := [];
    logs := head;
    for i := 0 to n
      invariant results == Present(PairResults(cols, OrderedRows(i, n), o))
      invariant logs == head + PairLogs(cols, OrderedRows(i, n), o)
    {
      results, logs := FitRow(cols, i, o, OrderedRows(i, n), results, logs);
      RowLogs(cols, i, head, logs, o);
    }
    if results == [] {
      logs := logs + [NoModelsFitted];
    }
  }
}
