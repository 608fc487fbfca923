/** The dictionaries the analysis ports return and the response entities
    `analyze_data` copies them into: absent and NaN numbers read as 0.0, absent
    strings as "" and absent lists as []. */
module AnalysisRecords {
  import opened Common
  import GoodnessOfFit

  // ---------------------------------------------------------------------------
  // The dictionaries the ports return, and reading them
  // ---------------------------------------------------------------------------

  /** A dictionary value: a float (possibly NaN), a string, a list of floats or
      strings, or a list of float dictionaries (`data_points`). */
  datatype Value =
    | Number(x: Stat)
    | Text(s: string)
    | Numbers(xs: seq<real>)
    | Texts(ts: seq<string>)
    | Points(ps: seq<map<string, real>>)

  type Dict = map<string, Value>

  /** `d.get(k, "")` on a string field. */
  function GetText(d: Dict, k: string): (r: string)
    ensures k !in d ==> r == ""
    ensures k in d && d[k].Text? ==> r == d[k].s
  {
    if k in d && d[k].Text? then d[k].s else ""
  }

  /** `d.get(k, 0.0) if pd.notna(d.get(k)) else 0.0`: an absent key and a NaN both read as 0.0. */
  function GetNumber(d: Dict, k: string): (r: real)
    ensures k !in d || d[k] == Number(NaN) ==> r == 0.0
    ensures k in d && d[k].Number? && d[k].x.Num? ==> r == d[k].x.v
  {
    if k in d && d[k].Number? && d[k].x.Num? then d[k].x.v else 0.0
  }

  /** `d.get(k, default)` on a float field read without the NaN check. */
  function GetRaw(d: Dict, k: string, default: real): (r: Stat)
    ensures k !in d ==> r == Num(default)
    ensures k in d && d[k].Number? ==> r == d[k].x
  {
    if k in d && d[k].Number? then d[k].x else Num(default)
  }

  /** `d.get(k, [])` on a list field. */
  function GetNumbers(d: Dict, k: string): (r: seq<real>)
    ensures k !in d ==> r == []
  {
    if k in d && d[k].Numbers? then d[k].xs else []
  }

  function GetTexts(d: Dict, k: string): (r: seq<string>)
    ensures k !in d ==> r == []
  {
    if k in d && d[k].Texts? then d[k].ts else []
  }

  function GetPoints(d: Dict, k: string): (r: seq<map<string, real>>)
    ensures k !in d ==> r == []
  {
    if k in d && d[k].Points? then d[k].ps else []
  }

  // ---------------------------------------------------------------------------
  // Response entities
  // ---------------------------------------------------------------------------

  datatype DescriptiveStats = DescriptiveStats(
    variableName: string, count: Stat, mean: real, median: real, mode: seq<real>,
    variance: real, stdDev: real, variationCoefficient: real, skewness: real,
    kurtosis: real, minValue: real, maxValue: real)

  datatype HistogramData = HistogramData(variableName: string, bins: seq<real>, frequencies: seq<real>)

  datatype NormalityTestResult = NormalityTestResult(
    variableName: string, testName: string, statistic: real, pValue: real, conclusion: string)

  datatype ChiSquareResult = ChiSquareResult(
    variableName: string, testName: string, distribution: string, statistic: real,
    pValue: real, degreesOfFreedom: int, conclusion: string)

  datatype ConfidenceInterval = ConfidenceInterval(
    variableName: string, statisticName: string, confidenceLevel: Stat,
    pointEstimate: real, lowerBound: real, upperBound: real)

  datatype RegressionCoefficient = RegressionCoefficient(
    variableName: string, coefficient: real, standardError: real, tStatistic: real, pValue: real)

  /** `modelType` is set only when the dictionary has a `model_type` key. */
  datatype RegressionResult = RegressionResult(
    dependentVariable: string, independentVariables: seq<string>, rSquared: real,
    adjustedRSquared: real, fStatistic: real, fPValue: real, sse: real,
    modelType: Option<string>, coefficients: seq<RegressionCoefficient>, dataPoints: seq<map<string, real>>)

  /** A regression dictionary with its list of coefficient dictionaries. */
  datatype RegressionRecord = RegressionRecord(fields: Dict, coefficients: seq<Dict>)

  datatype LogLine =
    | SelectedAnalyses(selected: set<string>)
    | PortLog(line: string)
    | NoSelectionWarning
    | AnalysisError(message: string)

  datatype Response = Response(
    log: seq<LogLine>,
    descriptives: seq<DescriptiveStats>,
    histograms: seq<HistogramData>,
    normalityTests: seq<NormalityTestResult>,
    confidenceIntervals: seq<ConfidenceInterval>,
    chiSquareResults: seq<ChiSquareResult>,
    regressions: seq<RegressionResult>)

  function ToDescriptive(d: Dict): DescriptiveStats
  {
    DescriptiveStats(GetText(d, "variable_name"), GetRaw(d, "count", 0.0),
      GetNumber(d, "mean"), GetNumber(d, "median"), GetNumbers(d, "mode"),
      GetNumber(d, "variance"), GetNumber(d, "std_dev"), GetNumber(d, "variation_coefficient"),
      GetNumber(d, "skewness"), GetNumber(d, "kurtosis"), GetNumber(d, "min_value"), GetNumber(d, "max_value"))
  }

  function ToHistogram(d: Dict): HistogramData
  {
    HistogramData(GetText(d, "variable_name"), GetNumbers(d, "bins"), GetNumbers(d, "frequencies"))
  }

  function ToNormality(d: Dict): NormalityTestResult
  {
    NormalityTestResult(GetText(d, "variable_name"), GetText(d, "test_name"),
      GetNumber(d, "statistic"), GetNumber(d, "p_value"), GetText(d, "conclusion"))
  }

  function ToConfidence(d: Dict): ConfidenceInterval
  {
    ConfidenceInterval(GetText(d, "variable_name"), GetText(d, "statistic_name"),
      GetRaw(d, "confidence_level", 0.95), GetNumber(d, "point_estimate"),
      GetNumber(d, "lower_bound"), GetNumber(d, "upper_bound"))
  }

  function ToCoefficient(d: Dict): RegressionCoefficient
  {
    RegressionCoefficient(GetText(d, "variable_name"), GetNumber(d, "coefficient"),
      GetNumber(d, "standard_error"), GetNumber(d, "t_statistic"), GetNumber(d, "p_value"))
  }

  function ToRegression(r: RegressionRecord): RegressionResult
  {
    var d := r.fields;
    RegressionResult(GetText(d, "dependent_variable"), GetTexts(d, "independent_variables"),
      GetNumber(d, "r_squared"), GetNumber(d, "adjusted_r_squared"), GetNumber(d, "f_statistic"),
      GetNumber(d, "f_p_value"), GetNumber(d, "sse"),
      if "model_type" in d && d["model_type"].Text? then Some(d["model_type"].s) else None,
      Map(r.coefficients, ToCoefficient), GetPoints(d, "data_points"))
  }

  /** `[f(x) for x in xs]`. */
  function Map<A, B>(xs: seq<A>, f: A -> B): seq<B>
  {
    seq(|xs|, k requires 0 <= k < |xs| => f(xs[k]))
  }

  // ---------------------------------------------------------------------------
  // Degrees of freedom: `int(d.get("degrees_of_freedom", 0))`
  // ---------------------------------------------------------------------------

  /** The conversion as written: `int()` of a NaN raises ValueError, as does
      `int()` of a list. */
  function DegreesOfFreedomAsWritten(d: Dict): (r: Result<int, string>)
    ensures "degrees_of_freedom" in d && d["degrees_of_freedom"] == Number(NaN) ==> r.Err?
  {
    if "degrees_of_freedom" !in d then Ok(0)
    else match d["degrees_of_freedom"]
      case Number(Num(v)) => Ok(Trunc(v))
      case _ => Err("cannot convert float NaN to integer")
  }

  /** The conversion as intended, read like every other number of the response:
      an absent or NaN value becomes 0, and it never raises. */
  function DegreesOfFreedom(d: Dict): (r: int)
    ensures "degrees_of_freedom" !in d || d["degrees_of_freedom"] == Number(NaN) ==> r == 0
    ensures DegreesOfFreedomAsWritten(d).Ok? ==> r == DegreesOfFreedomAsWritten(d).value
  {
    if "degrees_of_freedom" in d && d["degrees_of_freedom"].Number? && d["degrees_of_freedom"].x.Num?
    then Trunc(d["degrees_of_freedom"].x.v) else 0
  }

  function ToChiSquare(d: Dict): ChiSquareResult
  {
    ChiSquareResult(GetText(d, "variable_name"), GetText(d, "test_name"), GetText(d, "distribution"),
      GetNumber(d, "statistic"), GetNumber(d, "p_value"), DegreesOfFreedom(d), GetText(d, "conclusion"))
  }

  /** The dictionary `perform_chi_square_test` builds for one column (its
      numeric fields). */
  function ChiSquareDict(r: GoodnessOfFit.ChiSquareResult): (d: Dict)
    ensures "degrees_of_freedom" in d && d["degrees_of_freedom"] == Number(r.degreesOfFreedom)
  {
    var fields := map["variable_name" := Text(r.variableName), "distribution" := Text(r.distribution),
                      "statistic" := Number(r.statistic), "p_value" := Number(r.pValue),
                      "intervals" := Number(Num(r.intervals as real))];
    fields["degrees_of_freedom" := Number(r.degreesOfFreedom)]
  }

  /** Every column with fewer than 20 values is reported with NaN degrees of
      freedom, so the conversion as written raises on it; the exception aborts the
      remaining analyses of the request. The corrected conversion reads it as 0. */
  lemma ShortColumnBreaksConversion(col: Column, distribution: string, alpha: real, o: GoodnessOfFit.Oracles)
    requires GoodnessOfFit.HistogramShape(o)
    requires |PresentValues(col.cells)| < GoodnessOfFit.MinObservations
    ensures DegreesOfFreedomAsWritten(ChiSquareDict(GoodnessOfFit.TestColumn(col, distribution, alpha, o).0)).Err?
    ensures DegreesOfFreedom(ChiSquareDict(GoodnessOfFit.TestColumn(col, distribution, alpha, o).0)) == 0
  {
    assert GoodnessOfFit.TestColumn(col, distribution, alpha, o).0.degreesOfFreedom == NaN;
  }
}
