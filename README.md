# data-analytics, modelled in Dafny

This project models the bookkeeping of the data-analytics service: a Python
analysis server that runs statistics over an uploaded table, a Go API server
that authenticates users, forwards analyses to the Python server over gRPC and
stores their results, and two helpers of the web frontend. Every statistic
itself (CDFs, PMFs, fits, p-values, histograms) comes from scipy, numpy or
statsmodels and is a parameter of the model: a function value that the caller
supplies and the proofs know nothing about beyond its type. What is modelled
and proved is everything around those calls:

- **Pair enumeration and sample gates** (`Pairs`, `PairCollect`, `Correlation`,
  `Regression`, `Wilcoxon`, `ResidualsAnalysis`). Ordered and unordered column
  pairs, minimum sizes, zero-variance skips, one result or log line per pair,
  and the sorted sample quantiles of the QQ plot.
- **The chi-square tests** (`Bins`, `GoodnessOfFit`, `Binomial`,
  `NormTestUniform`). There are three ways of merging histogram bins until
  each expected count is at least 5: the in-place delete-and-merge loop, the
  left-to-right accumulator of the binomial analysis, and the buffer-and-flush
  of the uniform normality script. For each, the model proves that the
  observed and expected totals are kept, and it models the per-bin thresholds,
  the degrees of freedom and the skip rules. The binomial module also covers
  the integer inference: n, the success total, p̂ in [0, 1], and the observed
  table over 0..n.
- **The analysis service and the file loader** (`AnalysisRecords`,
  `AnalysisService`, `DataLoader`). These cover:
  - the selection-driven dispatch of `analyze_data`;
  - the `regression_dependent:` and `regression_independent:` tokens;
  - the log order;
  - the substitution of NaN by 0.0;
  - the suffix-based detection of file types.
- **The Go services and handlers** (`GoCommon`, `AnalysisServiceImpl`,
  `AnalysisHandler`, `AuthMiddleware`, `AuthServiceImpl`, `AuthHandler`).
  These cover:
  - the round trip of the selection tokens through the handler, the service
    and the Python parser;
  - turning the context value into a user ID;
  - the ownership checks before a run is read or deleted;
  - the Bearer header and JWT subject checks;
  - registration, login and password change over a user table;
  - the mapping of errors to HTTP statuses.
- **The frontend** (`ChartUtils`, `FrontendAuth`). This covers the shared
  y-axis domain of the regression charts, and the clearing of the session
  from `localStorage`, which is modelled as a string map.

Loops that append to lists or update a store in place are methods with loop
invariants. Each is proved equal to a specification function, and the
properties are proved as lemmas about that function. Stateful objects are
classes:
- the user table (`AuthServiceImpl.UserStore`);
- the gin context (`AuthMiddleware.GinContext`);
- the browser's storage and location (`FrontendAuth.Browser`);
- the route table (`AuthHandler.Engine`).

## Model

| member | source | states |
|---|---|---|
| Common.NumericColumns | python-server/analysis_modules/correlation.py:23 | `select_dtypes(include=np.number)` keeps exactly the integer and float columns of the frame, and no others |
| Common.ColumnIndex | python-server/analysis_modules/wilcoxon.py:131-137 | a column lookup finds the first column with that name, and reports absence exactly when no column carries the name |
| Common.VarianceZeroIffConstant | python-server/analysis_modules/correlation.py:52 | the zero-variance gate `var() == 0` (ddof 1, two or more values) holds exactly when every value of the column is the same |
| Common.SquaredDeviationsZero | python-server/analysis_modules/regression.py:56 | the sum of squared deviations from a point is zero exactly when every value equals that point |
| Common.AtoiItoa | go-server/internal/services/auth_service_impl.go:94 | parsing the decimal text of any 64-bit integer gives that integer back, so a user ID printed into the token subject reads back unchanged |
| Pairs.OrderedPairsFacts | python-server/analysis_modules/regression.py:32-35 | the nested loops with `if i == j: continue` visit n(n - 1) pairs, and a pair is visited exactly when its two column indices are distinct and in range |
| Pairs.UnorderedPairsFacts | python-server/analysis_modules/correlation.py:35-36 | the loops `for i in range(n): for j in range(i + 1, n)` visit n(n - 1)/2 pairs, and a pair is visited exactly when its first index is below its second |
| Pairs.PresentMembers | python-server/analysis_modules/regression.py:91 | a value is in the appended results exactly when some visited pair produced it |
| Pairs.PresentEmpty | python-server/analysis_modules/regression.py:104-105 | the result list is empty exactly when no visited pair produced a result |
| PairCollect.WalkRow | python-server/analysis_modules/correlation.py:36-80 | the inner loop appends, in order, the entries and log lines each pair (i, j) with j > i yields |
| PairCollect.WalkPairs | python-server/analysis_modules/correlation.py:35-80 | the nested loops append what each unordered pair yields, in the order the loops visit the pairs |
| PairCollect.WalkList | python-server/analysis_modules/wilcoxon.py:52-106 | a loop over a pair list built beforehand appends what each pair yields, in list order |
| PairCollect.CollectCounts | python-server/analysis_modules/correlation.py:56-80 | each pair adds at most one entry per list, never a second-kind entry without a first-kind one, and one or two log lines |
| PairCollect.CollectedFrom | python-server/analysis_modules/correlation.py:59-77 | lines logged before the loop stay at the head, and every appended entry was produced by some visited pair |
| PairCollect.CollectEvery | python-server/analysis_modules/wilcoxon.py:60-106 | when every pair yields exactly one result and one log line, the results and log lines are those of the pairs, position by position |
| Sorting.Sort | python-server/analysis_modules/residuals_analysis.py:112 | `np.sort` returns the values in ascending order, as a permutation of its input |
| Sorting.InsertSorted | python-server/analysis_modules/residuals_analysis.py:112 | inserting one value into an ordered sequence keeps it ordered |
| Correlation.MakeEntry | python-server/analysis_modules/correlation.py:59-65 | an entry names the pair and carries the coefficient and p-value, and it is significant exactly when the p-value is a number below alpha (never when it is NaN) |
| Correlation.CorrelatePairFacts | python-server/analysis_modules/correlation.py:41-80 | a pair with fewer than three complete rows is skipped with one log line; a Spearman entry comes only after a Pearson entry for the same pair; each entry names the pair |
| Correlation.ZeroVarianceGate | python-server/analysis_modules/correlation.py:51-54 | a pair with at least three complete rows is skipped for zero variance exactly when one of its two columns is constant |
| Correlation.EntriesInColumnOrder | python-server/analysis_modules/correlation.py:35-80 | there are at most n(n - 1)/2 Pearson entries, no more Spearman than Pearson entries, and every entry names two distinct columns, the earlier one first |
| Correlation.CollectedInColumnOrder | python-server/analysis_modules/correlation.py:59-77 | when every visited pair's entries name that pair in column order, so does every collected entry |
| Correlation.StepsInColumnOrder | python-server/analysis_modules/correlation.py:37-38 | the step on a pair (i, j) with i < j names columns i and j in that order |
| Correlation.CorrelateColumns | python-server/analysis_modules/correlation.py:26-92 | fewer than two columns give no output and one log line; otherwise the output holds the entries of every unordered pair and is absent exactly when no entry of either kind was made, logged with "No correlations" |
| Correlation.CalculateCorrelations | python-server/analysis_modules/correlation.py:7-92 | `calculate_correlations` correlates the frame's numeric columns, in frame order, as above |
| Regression.FitPair | python-server/analysis_modules/regression.py:37-102 | a pair yields a model exactly when its log line says the model was fitted |
| Regression.FitPairGates | python-server/analysis_modules/regression.py:43-91 | at most two complete rows give a skip, and a model is made only from three or more rows with no constant column and a successful fit, whose statistics it carries, with the model type and the two column names |
| Regression.ZeroVarianceGate | python-server/analysis_modules/regression.py:55-58 | with three or more complete rows, a pair is skipped for zero variance exactly when Y or X is constant |
| Regression.ModelsComeFromFittedPairs | python-server/analysis_modules/regression.py:69-92 | every model regresses one column on one other column, and the log line of that pair says "fitted" |
| Regression.FitRow | python-server/analysis_modules/regression.py:33-102 | the inner loop over X appends the model and log line of every pair (i, j) with j != i, in column order |
| Regression.RowLogs | python-server/analysis_modules/regression.py:32-33 | the log lines of row i follow those of the rows before it |
| Regression.PerformSimpleLinearRegression | python-server/analysis_modules/regression.py:8-107 | fewer than two numeric columns give no models and one log line; otherwise the models and log lines of every ordered pair of distinct columns, Y before X, and a closing line exactly when no model was fitted |
| Wilcoxon.Verdict | python-server/analysis_modules/wilcoxon.py:95-98 | the "no significant difference" verdict is given exactly when the p-value is above alpha; a NaN p-value gives the "significant" verdict |
| Wilcoxon.SignedRankPair | python-server/analysis_modules/wilcoxon.py:52-106 | every pair yields exactly one result and one log line; below six complete rows, or with all differences under 1e-9, it is skipped; with at least six rows and both names the same column, the zero check raises on a row of two differences and the result is the error; a statistic or a verdict appears exactly when the test ran and succeeded |
| Wilcoxon.SelectPairs | python-server/analysis_modules/wilcoxon.py:34-49 | two named columns give that one pair, or nothing when either name is not a numeric column; otherwise every unordered pair |
| Wilcoxon.PerformSignedRankTests | python-server/analysis_modules/wilcoxon.py:7-108 | no numeric columns, or a named pair that is not numeric, give no results and the matching log lines; otherwise one result per selected pair, in order |
| Wilcoxon.OneResultPerPair | python-server/analysis_modules/wilcoxon.py:52-106 | every pair put to the test contributes exactly one result, in pair order, naming that pair's two columns |
| Wilcoxon.SameColumnTwiceErrs | python-server/analysis_modules/wilcoxon.py:36-104 | naming one numeric column twice, with at least six rows where it is present, gives one error result and the error log line, not the all-zero skip |
| Wilcoxon.EveryColumnPairCompared | python-server/analysis_modules/wilcoxon.py:46-49 | with no named pair, n numeric columns give exactly n(n - 1)/2 results, each naming two distinct columns, the earlier one first |
| Wilcoxon.NamedInColumnOrder | python-server/analysis_modules/wilcoxon.py:46-48 | results named after pairs (i, j) with i < j name their columns in column order |
| Wilcoxon.Unique | python-server/analysis_modules/wilcoxon.py:145 | `unique()` lists each distinct cell of the column once, and nothing else |
| Wilcoxon.GroupValues | python-server/analysis_modules/wilcoxon.py:156-157 | a group's values come from the rows carrying it, and a missing label (NaN never equals itself) selects no row |
| Wilcoxon.MedianWithinSample | python-server/analysis_modules/wilcoxon.py:200-201 | a group median lies between the smallest and the largest value of the group |
| Wilcoxon.MannWhitney | python-server/analysis_modules/wilcoxon.py:111-209 | a missing group column is reported first; no result exactly when a column is missing, the value column is not numeric, or there are not exactly two groups; a result names two distinct groups with their sizes, is skipped below five values per group, and carries the medians exactly when the test succeeded |
| Wilcoxon.MissingGroupIsSkipped | python-server/analysis_modules/wilcoxon.py:156-180 | a NaN group label yields an empty group, so the test is skipped for insufficient data and reports no medians |
| ResidualsAnalysis.NormalityTest | python-server/analysis_modules/residuals_analysis.py:6-56 | fewer than three residuals, or a population variance below 1e-9, give NaN statistics and no normality; normality is claimed exactly when the Shapiro-Wilk test succeeds with a p-value above alpha, and a statistic is reported exactly when the test ran |
| ResidualsAnalysis.IdenticalResidualsAreConstant | python-server/analysis_modules/residuals_analysis.py:28-35 | three or more identical residuals are reported as constant and never as normal |
| ResidualsAnalysis.EffectiveBinCount | python-server/analysis_modules/residuals_analysis.py:77-78 | a positive requested bin count is used as given; otherwise Sturges' rule gives at least one bin |
| ResidualsAnalysis.HistogramOf | python-server/analysis_modules/residuals_analysis.py:58-92 | fewer than two residuals give two empty lists; otherwise the histogram's edges and counts, or empty lists and the error text when the histogram fails |
| ResidualsAnalysis.Linspace | python-server/analysis_modules/residuals_analysis.py:115 | `np.linspace(a, b, n)` has n points, the first `a` and the last `b` |
| ResidualsAnalysis.LinspaceSorted | python-server/analysis_modules/residuals_analysis.py:115 | the evenly spaced probabilities rise from 0.01 to 0.99 |
| ResidualsAnalysis.QqPlotData | python-server/analysis_modules/residuals_analysis.py:94-120 | fewer than two residuals give empty lists; otherwise the sample quantiles are the residuals in ascending order (a permutation of them), with one theoretical quantile each, from ppf(0.01) to ppf(0.99) |
| ResidualsAnalysis.TheoreticalQuantilesSorted | python-server/analysis_modules/residuals_analysis.py:115 | with a non-decreasing quantile function the theoretical quantiles rise too, so the plotted points pair the k-th smallest residual with the k-th quantile |
| GoodnessOfFit.SturgesBinCount | python-server/analysis_modules/goodness_of_fit.py:59-61 | at least three bins; from ten observations on, Sturges' count `ceil(1 + 3.322 log10 n)`, which is then at least five |
| GoodnessOfFit.ExpectedFrequencies | python-server/analysis_modules/goodness_of_fit.py:78 | one expected frequency per histogram bin (one fewer than the edges) |
| GoodnessOfFit.FloorAt | python-server/analysis_modules/goodness_of_fit.py:81 | `np.maximum(e, floor)` raises every value to at least the floor and leaves larger values unchanged |
| GoodnessOfFit.MergeLowExpectedBins | python-server/analysis_modules/goodness_of_fit.py:84-105 | the merge loop groups the bins into contiguous runs, conserving the observed and expected totals, never creating bins, never emptying a non-empty list, and leaves every bin after the first with an expected frequency of at least 5 |
| GoodnessOfFit.MergeFirstStep | python-server/analysis_modules/goodness_of_fit.py:87-94 | a low bin 0 is added into bin 1 and dropped, keeping the grouping and the totals |
| GoodnessOfFit.MergeLeftStep | python-server/analysis_modules/goodness_of_fit.py:97-104 | a low bin i > 0 is added into bin i - 1 and dropped, and the loop re-examines position i |
| GoodnessOfFit.FirstBinNotRechecked | python-server/analysis_modules/goodness_of_fit.py:89-96 | after bin 0 is merged right, the new first bin is not examined again: bins expecting (1, 1, 10, 10) merge to (2, 10, 10), which then fails the re-check after the loop |
| GoodnessOfFit.FloorBins | python-server/analysis_modules/goodness_of_fit.py:121 | the floor after rescaling raises expected frequencies to at least 1e-9, keeps larger ones, and leaves the observed counts alone |
| GoodnessOfFit.Normalize | python-server/analysis_modules/goodness_of_fit.py:115-121 | renormalising keeps the observed counts and changes nothing when the observed sum is zero or already close to the expected sum |
| GoodnessOfFit.NormalizeMatchesObserved | python-server/analysis_modules/goodness_of_fit.py:117-122 | when rescaling happens and the 1e-9 floor does not bite, the expected sum afterwards equals the observed sum |
| GoodnessOfFit.ScaledToObserved | python-server/analysis_modules/goodness_of_fit.py:119 | multiplying by `sum_obs / sum_exp` takes the expected sum to the observed sum |
| GoodnessOfFit.BeforeMerge | python-server/analysis_modules/goodness_of_fit.py:34-81 | fewer than 20 values finish the column as skipped with one log line; a column reaches the merge only with 20 or more values, the normal distribution, non-zero variance, Sturges' bin count (at least 3) and positive expected frequencies |
| GoodnessOfFit.AfterMerge | python-server/analysis_modules/goodness_of_fit.py:107-159 | the low-frequency skip happens exactly when the re-check fails, the degrees-of-freedom skip exactly when it passes with at most three bins; a completed test has at least four bins, reports their number and `bins - 3` degrees of freedom, and rejects H0 exactly when the p-value is below alpha; a skip reports NaN statistics and zero intervals |
| GoodnessOfFit.PassesGuardTotal | python-server/analysis_modules/goodness_of_fit.py:108-117 | bins that pass the re-check have a positive expected sum, so the ratio `sum_obs / sum_exp` is defined |
| GoodnessOfFit.CompletedTestFacts | python-server/analysis_modules/goodness_of_fit.py:33-159 | a completed test had at least 20 values and the normal distribution, used at least four merged bins with `intervals - 3` degrees of freedom, and rejects exactly below alpha; fewer than 20 values give the insufficient-data skip with zero intervals |
| GoodnessOfFit.TestOneColumn | python-server/analysis_modules/goodness_of_fit.py:34-159 | the loop body for one column computes that column's result and log lines |
| GoodnessOfFit.PerformChiSquareTest | python-server/analysis_modules/goodness_of_fit.py:7-161 | exactly one result per numeric column, in column order, each the result of testing that column; the first log line lists the columns or says there are none, and the rest are the columns' own lines, one column after another |
| GoodnessOfFit.TestColumns | python-server/analysis_modules/goodness_of_fit.py:33-161 | the loop over the numeric columns: the results are `ColumnResults` and the log lines `ColumnLogs` of the columns, each column's test appended in column order |
| Binomial.FindColumn | python-server/analysis_modules/binomial.py:38-42 | the column is found exactly when some column carries the name, and the one found carries it |
| Binomial.AsInt | python-server/analysis_modules/binomial.py:55 | `astype(int)` truncates every value toward zero, one integer per value |
| Binomial.MaxOf | python-server/analysis_modules/binomial.py:65 | the inferred n is a value of the column and no value exceeds it |
| Binomial.ObservedTableTotal | python-server/analysis_modules/binomial.py:106-107 | with every count in 0..n, the observed-frequency table over the outcomes 0..n accounts for every experiment |
| Binomial.OutcomeBins | python-server/analysis_modules/binomial.py:105-113 | one bin per outcome 0..n, whose observed count is the number of experiments with exactly that many successes |
| Binomial.OutcomeBinsNonNegative | python-server/analysis_modules/binomial.py:111-113 | with a non-negative probability mass function, no expected frequency is negative |
| Binomial.CombineCategories | python-server/analysis_modules/binomial.py:116-139 | the categories are exactly `Pool(bins)`, the greedy rule (add outcomes until the running expectation reaches 5, close a category, fold a short remainder at the end into the last category); they group the outcomes into contiguous runs, conserving both totals, keeping at least one and at most n + 1 categories; every category but the last expects at least 5, and when two or more categories remain and no expectation is negative, all of them do |
| Binomial.NoPoolingWhenReliable | python-server/analysis_modules/binomial.py:116-139 | an outcome table whose every outcome already expects at least 5 is not pooled at all |
| Binomial.Validate | python-server/analysis_modules/binomial.py:38-70 | the checks in source order: a missing column, non-integer counts, an empty column, a negative count, and an inferred n of at most 0, each with its log lines; an accepted column has n equal to its largest count and every count in 0..n |
| Binomial.EstimateProbability | python-server/analysis_modules/binomial.py:72-81 | the number of experiments, the total of successes, and the possible successes experiments·n, with 0 <= successes <= possible and possible > 0, so the estimate `successes / possible` lies in [0, 1] |
| Binomial.RatioInUnit | python-server/analysis_modules/binomial.py:81 | a total of successes between 0 and experiments·n gives a proportion in [0, 1] |
| Binomial.GoodnessOfFit | python-server/analysis_modules/binomial.py:104-168 | the categories are `Pool` of the outcome table; the statistic and p-value are those `chisquare` (ddof = 1) returns on their observed and expected counts, with the warning set exactly when a category expects fewer than 5, and a raising `chisquare` gives the error outcome with a warning; the first log line is the warning or the category count; the categories conserve both totals and count every experiment; the test is skipped, with a warning and NaN statistics, exactly when fewer than two categories remain; H0 is rejected only below `1 - confidence`; with a non-negative mass function a warning comes only from the skip or an error |
| Binomial.PerformBinomialAnalysis | python-server/analysis_modules/binomial.py:15-186 | a rejected column gives no result and the rejection's log lines; an accepted one gives a result naming the column, with the inferred n logged first, the counts of experiments and successes and an estimate in [0, 1]; the interval is the one `binomtest(..).proportion_ci` returns, or NaN when it raises; the goodness-of-fit fields are the report on `Pool` of the outcome table under Binomial(n, p̂); the conclusion is "reject" exactly when the test ran and the p-value is below `1 - confidence` |
| NormTestUniform.ExpectedCounts | testing/test/Norm_Test_Uniform50.py:14-17 | one expected count per bin, each n times the normal mass of the bin, and their sum telescopes to n times the mass between the first and the last edge |
| NormTestUniform.ExpectedNonNegative | testing/test/Norm_Test_Uniform50.py:16 | over rising edges a monotone CDF gives no negative expected count |
| NormTestUniform.ZipShortest | testing/test/Norm_Test_Uniform50.py:24 | `zip` pairs the counts with the expectations up to the shorter list |
| NormTestUniform.FlushWhenFull | testing/test/Norm_Test_Uniform50.py:24-31 | the categories and leftover buffer are exactly those of the flushing rule `Flushed` (each bin joins the buffer, which is flushed as a category once it expects at least 5); so the flushed categories group a prefix of the bins, each expecting at least 5, and the buffer holds the total of the rest |
| NormTestUniform.NoMergingWhenReliable | testing/test/Norm_Test_Uniform50.py:24-39 | bins that each expect at least 5 come out of the merge unchanged, one category per bin |
| NormTestUniform.MergeBuffered | testing/test/Norm_Test_Uniform50.py:19-39 | the categories are exactly `Merged(bins)`: the flushed categories with a leftover buffer of positive expectation added to the last one, or forming the only one; they group a prefix of the bins, and what is left out expects nothing; every category has a positive expectation, and with two or more categories every one expects at least 5 |
| NormTestUniform.MergedExpectedTotal | testing/test/Norm_Test_Uniform50.py:33-39 | with no negative expectation the dropped remainder expected exactly 0, so the merged categories keep the whole expected total |
| NormTestUniform.ChiSquareStatistic | testing/test/Norm_Test_Uniform50.py:45 | the statistic is never negative, and zero exactly when every category's count equals its expectation |
| NormTestUniform.MergeAndTest | testing/test/Norm_Test_Uniform50.py:19-47 | the report is about the categories `Merged(bins)`, which group a prefix of the bins, keeping the totals, with only a remainder expecting nothing left out: the sentinel `(None, None, 0, 0)` exactly when df = categories - 3 is not positive; otherwise the statistic over the merged categories, the upper-tail p-value, the number of categories and df |
| NormTestUniform.ChiSquareNormalityTest | testing/test/Norm_Test_Uniform50.py:6-47 | an empty sample fails (the bin count `int(np.ceil(1 + 3.322 * log10(0)))` overflows); a sample with a usable bin count is reported as above, about the categories `Merged` makes of the sample's histogram counts paired with their normal expectations, so the sentinel comes exactly when that merge leaves at most 3 categories |
| AnalysisRecords.GetText | python-server/internal/core/services/analysis_service.py:83 | `d.get(k, "")` on a text field: the empty string when the key is absent, the stored text otherwise |
| AnalysisRecords.GetNumber | python-server/internal/core/services/analysis_service.py:85 | `d.get(k, 0.0) if pd.notna(d.get(k)) else 0.0`: an absent key and a NaN both read as 0.0, a number reads as itself |
| AnalysisRecords.GetRaw | python-server/internal/core/services/analysis_service.py:145 | a float field read without the NaN check: the default when the key is absent, the stored value (NaN included) otherwise |
| AnalysisRecords.GetNumbers | python-server/internal/core/services/analysis_service.py:101-102 | `d.get(k, [])` on a list field: the empty list when the key is absent |
| AnalysisRecords.GetTexts | python-server/internal/core/services/analysis_service.py:174 | `d.get(k, [])` on a list of names: the empty list when the key is absent |
| AnalysisRecords.GetPoints | python-server/internal/core/services/analysis_service.py:180 | `d.get("data_points", [])`: the empty list when the key is absent |
| AnalysisRecords.ChiSquareDict | python-server/analysis_modules/goodness_of_fit.py:37-46 | the dictionary built for a column carries its degrees of freedom, NaN for a skipped column |
| AnalysisRecords.DegreesOfFreedomAsWritten | python-server/internal/core/services/analysis_service.py:131 | `int()` of a NaN degrees of freedom raises, as written |
| AnalysisRecords.DegreesOfFreedom | python-server/internal/core/services/analysis_service.py:131 | the intended conversion reads an absent or NaN value as 0 and otherwise agrees with `int()` wherever that succeeds |
| AnalysisRecords.ShortColumnBreaksConversion | python-server/internal/core/services/analysis_service.py:131 | every column with fewer than 20 values reaches the conversion with NaN degrees of freedom, which raises as written and reads as 0 as intended |
| AnalysisService.LastWithPrefix | python-server/internal/core/services/analysis_service.py:159-163 | the suffix of the last selection entry with the prefix, and absent exactly when no entry has it |
| AnalysisService.PrefixesExclusive | python-server/internal/core/services/analysis_service.py:160-163 | no entry starts with both the dependent and the independent prefix, so the `elif` never hides a match |
| AnalysisService.ParseRegressionVars | python-server/internal/core/services/analysis_service.py:155-163 | the loop keeps, for each prefix, the suffix of the last entry with it, or None |
| AnalysisService.PortLogs | python-server/internal/core/services/analysis_service.py:65 | `extend` copies a port's log lines one for one |
| AnalysisService.DescriptiveOutput | python-server/internal/core/services/analysis_service.py:76-104 | the descriptive block adds only statistics and histograms (and its log lines), and an exception is logged last |
| AnalysisService.NormalityOutput | python-server/internal/core/services/analysis_service.py:107-134 | the normality block adds only Shapiro-Wilk and chi-square results, and an exception is logged last |
| AnalysisService.ConfidenceOutput | python-server/internal/core/services/analysis_service.py:138-150 | the confidence block adds only confidence intervals, and an exception is logged last |
| AnalysisService.RegressionOutput | python-server/internal/core/services/analysis_service.py:153-196 | the regression block adds only regression results, and an exception is logged last |
| AnalysisService.Selected | python-server/internal/core/services/analysis_service.py:57 | `set(selected_analyses)` holds exactly the names in the request |
| AnalysisService.ThenFacts | python-server/internal/core/services/analysis_service.py:60-201 | running one more block after a run that has not raised keeps the exception last and only appends to the log |
| AnalysisService.BlocksClosed | python-server/internal/core/services/analysis_service.py:75-196 | the four blocks only append to the log and an exception is reported by its last line |
| AnalysisService.BlocksKeepUnselected | python-server/internal/core/services/analysis_service.py:76-196 | a block that is not selected leaves its result lists as they were |
| AnalysisService.SelectionLoggedFirst | python-server/internal/core/services/analysis_service.py:57-65 | the first log line names the selection, and the loader's lines follow it |
| AnalysisService.ErrorLoggedLast | python-server/internal/core/services/analysis_service.py:198-201 | an exception is reported once, by the last log line |
| AnalysisService.ClosedErrorLast | python-server/internal/core/services/analysis_service.py:198-201 | in a log closed by the `except` clause, only the last line can report an exception |
| AnalysisService.NoFrameNoAnalysis | python-server/internal/core/services/analysis_service.py:61-67 | a loader exception leaves the selection line and the error; no frame leaves the selection and loader lines, and no results |
| AnalysisService.SelectionGatesLists | python-server/internal/core/services/analysis_service.py:76-196 | each result list is filled only when its analysis was selected: confidence intervals with the descriptive statistics, chi-square with the normality test |
| AnalysisService.NoExceptionNoErrorLine | python-server/internal/core/services/analysis_service.py:60-201 | when the file loads and every port returns, no line reports an exception |
| AnalysisService.SelectedBlocksReported | python-server/internal/core/services/analysis_service.py:76-150 | when the file loads and the ports return, each selected list holds the converted port results and each unselected one is empty |
| AnalysisService.BlocksReported | python-server/internal/core/services/analysis_service.py:76-150 | from empty lists, a selected block whose ports return fills its lists with their converted results |
| AnalysisService.ChiSquareExceptionEndsRun | python-server/internal/core/services/analysis_service.py:122-201 | an exception in the chi-square call is logged last and ends the run: the normality results stay, while chi-square, confidence intervals and regressions stay empty |
| AnalysisService.FirstUnconvertible | python-server/internal/core/services/analysis_service.py:124-131 | the position of the first chi-square record whose degrees of freedom `int()` rejects: every earlier one converts, and the one there does not |
| AnalysisService.CopyChiSquareStops | python-server/internal/core/services/analysis_service.py:124-134 | as written, the copy loop keeps the converted records before the first unconvertible one, and raises exactly when there is one |
| AnalysisService.NormalityOutputAsWritten | python-server/internal/core/services/analysis_service.py:107-134 | as written, the normality block still adds only its own results and logs an exception last |
| AnalysisService.UnconvertibleDofEndsRun | python-server/internal/core/services/analysis_service.py:122-200 | as written, a chi-square record whose degrees of freedom `int()` rejects ends the run: the exception is logged last, no confidence interval or regression is computed, and fewer chi-square results are reported than the corrected run reports |
| AnalysisService.AppendAll | python-server/internal/core/services/analysis_service.py:81-96 | a copy loop appends the converted value of every element, in order |
| AnalysisService.RunDescriptive | python-server/internal/core/services/analysis_service.py:76-104 | the descriptive block's statements compute its specified output |
| AnalysisService.RunNormality | python-server/internal/core/services/analysis_service.py:107-134 | the normality and chi-square statements compute their specified output |
| AnalysisService.RunConfidence | python-server/internal/core/services/analysis_service.py:138-150 | the confidence statements compute their specified output |
| AnalysisService.RunRegression | python-server/internal/core/services/analysis_service.py:153-196 | the regression statements compute their specified output |
| AnalysisService.RunBlocks | python-server/internal/core/services/analysis_service.py:75-196 | the selected blocks run in order, and the first exception stops the rest |
| AnalysisService.AnalyzeData | python-server/internal/core/services/analysis_service.py:53-203 | `analyze_data` returns the specified response, so the lemmas above describe it |
| DataLoader.Lower | python-server/internal/adapters/data_loader.py:26 | `lower()` maps each upper-case ASCII letter to its lower-case form and keeps every other character |
| DataLoader.DetectionIgnoresCase | python-server/internal/adapters/data_loader.py:26-31 | the detected type does not depend on the case of the file name |
| DataLoader.DetectedExactlyBySuffix | python-server/internal/adapters/data_loader.py:25-31 | a name is detected as CSV, XLSX or JSON exactly when its lower-cased form ends with that suffix, and as unknown exactly when it ends with none |
| DataLoader.ColumnsWithMissing | python-server/internal/adapters/data_loader.py:66-68 | the warning names exactly the columns holding a missing value |
| DataLoader.ColumnTypesOf | python-server/internal/adapters/data_loader.py:71 | the dtype line lists every column with its type, in order |
| DataLoader.DetectFileType | python-server/internal/adapters/data_loader.py:25-31 | the `if`/`elif` chain assigns the type detected from the suffix |
| DataLoader.Checks | python-server/internal/adapters/data_loader.py:59-71 | an empty frame gives only the empty-frame error; otherwise the missing-values warning appears exactly when some column has a missing value, and the dtype line comes last |
| DataLoader.CheckFrame | python-server/internal/adapters/data_loader.py:59-73 | an empty frame is dropped, any other is returned as parsed, with the check lines |
| DataLoader.ReadFile | python-server/internal/adapters/data_loader.py:35-77 | an unknown type is refused, XLSX without openpyxl is refused, a parser exception gives the load error and no frame, and a parsed frame is checked |
| DataLoader.LoadData | python-server/internal/adapters/data_loader.py:10-77 | the first line names the detected type and at least one more follows; no frame is returned for an unsupported type, a missing openpyxl, a parser error or an empty frame |
| GoCommon.Errorf | go-server/internal/services/analysis_service_impl.go:49 | an error made with `fmt.Errorf` and no `%w` has exactly its text and carries no gRPC status |
| GoCommon.Wrap | go-server/internal/services/analysis_service_impl.go:89 | wrapping with `%w` prefixes the text and keeps the status code of the wrapped error |
| GoCommon.AtoiSprint | go-server/internal/services/analysis_service_impl.go:301 | `strconv.Atoi(fmt.Sprint(v))` parses a string as `Atoi` does, and accepts a float64 exactly when it prints as a plain integer, giving its value |
| GoCommon.CoerceUserID | go-server/internal/services/analysis_service_impl.go:46-73 | the type switch: no value and an unexpected type are refused; a float64 is truncated, an int kept, a string parsed; a zero ID is refused, and an accepted ID is never zero |
| GoCommon.StoredUserIDReadsBack | go-server/internal/middleware/auth_middleware.go:63-67 | the decimal text of a non-zero int64 user ID, as the middleware stores it, reads back as that ID through both the type switch and `Atoi(Sprint(...))` |
| AnalysisServiceImpl.UserIDError | go-server/internal/services/analysis_service_impl.go:167-194 | the error for each rejected context value: the missing-ID text, the bad-format text, or the zero-value text of the method |
| AnalysisServiceImpl.Combined | go-server/internal/services/analysis_service_impl.go:76-83 | the gRPC selection is a copy of the caller's selection followed by the prefixed dependent and independent variables, each only when it is not empty |
| AnalysisServiceImpl.CombineSelection | go-server/internal/services/analysis_service_impl.go:76-83 | the copy and appends compute the combined selection |
| AnalysisServiceImpl.CombinedRoundTrip | go-server/internal/services/analysis_service_impl.go:78-83 | from a selection without the prefixes, the Python service reads back exactly the non-empty variables the Go service appended |
| AnalysisServiceImpl.LastOfAppended | go-server/internal/services/analysis_service_impl.go:78-83 | in a selection without a prefix, the appended entry alone decides what is read back for that prefix |
| AnalysisServiceImpl.ToSave | go-server/internal/services/analysis_service_impl.go:99-132 | a result type is saved exactly when its message is present and marshals, under its key and with its marshalled JSON, and no other key is saved |
| AnalysisServiceImpl.CollectResults | go-server/internal/services/analysis_service_impl.go:99-132 | the three `if` blocks fill the map to save |
| AnalysisServiceImpl.RecordRun | go-server/internal/services/analysis_service_impl.go:92-143 | the run is saved first and a failure is wrapped and returned; the results are saved only when there are any, and a failure to save them does not fail the call |
| AnalysisServiceImpl.PerformAnalysis | go-server/internal/services/analysis_service_impl.go:43-144 | a rejected user ID fails before any call; a failed gRPC call is wrapped; otherwise the run and then the results are saved, and the Python response is returned |
| AnalysisServiceImpl.GetFileColumns | go-server/internal/services/analysis_service_impl.go:147-161 | the client's columns, or its error unchanged, from exactly one call |
| AnalysisServiceImpl.GetUserAnalysisHistory | go-server/internal/services/analysis_service_impl.go:164-205 | a rejected user ID fails before any call; otherwise the user's runs, a nil list included, or the repository error wrapped with the user ID |
| AnalysisServiceImpl.FindRun | go-server/internal/services/analysis_service_impl.go:253-260 | the loop finds the run exactly when some run in the (possibly nil) list has the ID |
| AnalysisServiceImpl.ResultsMapKeys | go-server/internal/services/analysis_service_impl.go:280-283 | the map's keys are exactly the result types of the rows |
| AnalysisServiceImpl.ResultsMapLastRowWins | go-server/internal/services/analysis_service_impl.go:281-283 | each key holds the data of the last row of its type |
| AnalysisServiceImpl.BuildResultsMap | go-server/internal/services/analysis_service_impl.go:280-283 | the loop builds that map |
| AnalysisServiceImpl.GetAnalysisRunResults | go-server/internal/services/analysis_service_impl.go:208-287 | a rejected user ID fails before any call; a run that is not among the user's runs is refused without reading its results; otherwise the results map, or the wrapped repository error |
| AnalysisServiceImpl.DeleteAnalysisRun | go-server/internal/services/analysis_service_impl.go:290-344 | a missing ID, a bad ID and a run the user does not own fail without deleting anything; the results are deleted before the run, and a failure to delete the results stops before the run is touched |
| AnalysisHandler.PostForm | go-server/internal/handlers/analysis_handler.go:105-106 | a non-empty `PostForm` value is the first value of a field present in the form |
| AnalysisHandler.Cleaned | go-server/internal/handlers/analysis_handler.go:91-102 | the cleaned selection keeps, in order, only entries that are "regression" or carry no regression prefix |
| AnalysisHandler.CleanedKeepsExactly | go-server/internal/handlers/analysis_handler.go:94-102 | an entry survives the cleaning exactly when it was selected and is "regression" or unprefixed |
| AnalysisHandler.CleanSelection | go-server/internal/handlers/analysis_handler.go:91-102 | the loop computes the cleaned selection, and notes "regression" exactly when it was selected |
| AnalysisHandler.ForwardedVariablesReachPython | go-server/internal/handlers/analysis_handler.go:84-89 | after the cleaning, the Python service reads back exactly the non-empty dependent and independent variables from the form, whatever prefixed entries the client sent |
| AnalysisHandler.AnalysisErrorResponse | go-server/internal/handlers/analysis_handler.go:138-161 | an invalid-argument or failed-precondition status gives 400 with the status message, a deadline 504, any other status 500, and an error without a status 500 with the connection text |
| AnalysisHandler.WrappedStatusKeepsResponse | go-server/internal/handlers/analysis_handler.go:142-156 | the service's `%w` wrapping does not change the status code the handler answers with |
| AnalysisHandler.UserIDErrorIsServerError | go-server/internal/handlers/analysis_handler.go:157-160 | an unusable user ID in the context carries no gRPC status, so the client gets 500 with the connection text |
| AnalysisHandler.FileErrorResponse | go-server/internal/handlers/analysis_handler.go:117-131 | an upload that cannot be opened or read gives 500 |
| AnalysisHandler.HandleAnalyzeData | go-server/internal/handlers/analysis_handler.go:46-183 | no service gives 500, no file part 400, a missing regression variable 400, all without calling the service; otherwise the service is called with the file and the cleaned selection, and only a successful call that marshals gives 200 with its JSON |
| AnalysisHandler.Respond | go-server/internal/handlers/analysis_handler.go:137-182 | 200 exactly when the analysis succeeded and its response marshals, with the marshalled bytes as body |
| AnalysisHandler.ColumnsErrorResponse | go-server/internal/handlers/analysis_handler.go:225-240 | only an invalid-argument status is the client's fault (400 with its message); anything else is 500 |
| AnalysisHandler.HandleGetColumns | go-server/internal/handlers/analysis_handler.go:186-247 | no service gives 500, no file part 400, an unreadable file 500; otherwise the service's columns with 200, or its error mapped as above |
| AnalysisHandler.HandleGetUserAnalysisHistory | go-server/internal/handlers/analysis_handler.go:250-279 | no service or a service error gives 500; a nil history gives 200 with an empty list, and any other history 200 with the runs |
| AnalysisHandler.HandleGetAnalysisRunResults | go-server/internal/handlers/analysis_handler.go:282-319 | a run ID that is not a decimal int64 gives 400 first; then no service or a service error gives 500, no results 404, and results 200 |
| AuthMiddleware.IndexOf | go-server/internal/middleware/auth_middleware.go:28 | the first occurrence of the separator, and none exactly when the text does not hold it |
| AuthMiddleware.Split | go-server/internal/middleware/auth_middleware.go:28 | `strings.Split`: the parts joined with the separator give back the header, and no part holds the separator |
| AuthMiddleware.BearerHeaderParts | go-server/internal/middleware/auth_middleware.go:28-32 | a header splitting into "Bearer" and one more part is "Bearer", one space and that part, which holds no space |
| AuthMiddleware.BearerHeaderSplits | go-server/internal/middleware/auth_middleware.go:28-32 | "Bearer", one space and a token without spaces split into exactly "Bearer" and the token |
| AuthMiddleware.BearerHeaderShape | go-server/internal/middleware/auth_middleware.go:28-39 | the header passes the format check exactly when it is "Bearer", one space and a space-free token, which is then the token |
| AuthMiddleware.Parse | go-server/internal/middleware/auth_middleware.go:41-46 | a token parses only when decoded, HMAC-signed and verified with the secret; a non-HMAC method fails with the key function's error |
| AuthMiddleware.GinContext.GetUserIDFromContext | go-server/internal/middleware/auth_middleware.go:74-82 | the stored ID and true exactly when the request context holds a string under the key, otherwise "" and false |
| AuthMiddleware.GinContext.Abort | go-server/internal/middleware/auth_middleware.go:24 | records a 401 answer with the message and changes nothing else |
| AuthMiddleware.Authenticate | go-server/internal/middleware/auth_middleware.go:22-58 | a header is accepted only in the Bearer form with a non-empty HMAC token whose `sub` claim is a string, which is the result; an empty header is the first rejection |
| AuthMiddleware.OtherSchemeRejected | go-server/internal/middleware/auth_middleware.go:28-32 | a non-empty header not starting with "Bearer " gets the format error, whatever the token |
| AuthMiddleware.Handle | go-server/internal/middleware/auth_middleware.go:20-71 | on acceptance the subject is stored in the request context and the keys and the next handler runs; on any rejection the request is aborted with 401 and that rejection's text, and nothing else changes |
| AuthServiceImpl.FindByEmail | go-server/internal/repository/postgres_user_repository.go:53-73 | a user with the e-mail address, and none exactly when no row has it |
| AuthServiceImpl.IndexOfID | go-server/internal/repository/postgres_user_repository.go:76-94 | the position of a row with the ID, and none exactly when no row has it |
| AuthServiceImpl.UserStore.ByID | go-server/internal/repository/postgres_user_repository.go:76-94 | `GetByID` without a database error: a stored row with the ID, none exactly when no row has it |
| AuthServiceImpl.UserStore.Create | go-server/internal/repository/postgres_user_repository.go:25-50 | inserts one row with the next ID exactly when the database does not fail and the e-mail is new; otherwise the table is unchanged |
| AuthServiceImpl.UserStore.Update | go-server/internal/repository/postgres_user_repository.go:97-121 | replaces exactly the row with the user's ID; a database failure or a missing ID is an error that leaves the table unchanged |
| AuthServiceImpl.LoginClaims | go-server/internal/services/auth_service_impl.go:92-98 | subject is the decimal user ID, issuer "diploma-app", issued now and expiring the token lifetime later |
| AuthServiceImpl.LoginSubjectIdentifiesUser | go-server/internal/services/auth_service_impl.go:94 | the subject of a login token, once stored by the middleware, is read back as the same user ID by both services |
| AuthServiceImpl.RegisterUser | go-server/internal/services/auth_service_impl.go:34-67 | empty credentials and a taken e-mail are refused with their texts; a user is added, with the hashed password and the next ID, exactly when lookup, hashing and insert succeed; the returned user has no hash; a failure changes nothing |
| AuthServiceImpl.LoginUser | go-server/internal/services/auth_service_impl.go:70-110 | empty credentials and an unknown e-mail are refused with their texts; a token signed over the user's claims and the user without hash are returned exactly when lookup, password check and signing succeed; an error returns neither |
| AuthServiceImpl.UnrecognisedWrap | go-server/internal/services/auth_service_impl.go:117-156 | a wrapped error can never carry either of the two texts the handler recognises |
| AuthServiceImpl.ProblemErrorTexts | go-server/internal/services/auth_service_impl.go:117-143 | among the refusals, only a wrong current password has its text and only a short new password has the other |
| AuthServiceImpl.ChangePasswordCheck | go-server/internal/services/auth_service_impl.go:115-144 | the checks in order: a missing ID, a user not in the table, a wrong current password, a new password under 8 bytes; passing means the stored user with the context's ID and the right password |
| AuthServiceImpl.WrongPasswordReportedFirst | go-server/internal/services/auth_service_impl.go:136-144 | a wrong current password is reported as such, even when the new password is also too short |
| AuthServiceImpl.ChangePassword | go-server/internal/services/auth_service_impl.go:113-159 | each refusal returns its error; otherwise only the user's row gets the new hash, exactly when hashing and update succeed; any failure leaves the table unchanged |
| AuthHandler.BindRegister | go-server/internal/handlers/auth_handler.go:21-24 | the body binds exactly when it decodes, the e-mail is non-empty and an address, and the password has at least 8 characters |
| AuthHandler.BindLogin | go-server/internal/handlers/auth_handler.go:27-30 | the body binds exactly when it decodes, the e-mail is non-empty and an address, and the password is non-empty |
| AuthHandler.BindChangePassword | go-server/internal/handlers/auth_handler.go:33-36 | the body binds exactly when it decodes, the current password is non-empty and the new one has at least 8 characters |
| AuthHandler.BoundRequestsPassServiceChecks | go-server/internal/handlers/auth_handler.go:21-36 | a bound body never meets the service's empty-credentials refusal, nor its short-password refusal |
| AuthHandler.Register | go-server/internal/handlers/auth_handler.go:39-54 | 400 for a body that does not bind; 201 with the new ID and e-mail exactly when the service adds the user; any service error is 500 and changes nothing |
| AuthHandler.Login | go-server/internal/handlers/auth_handler.go:57-72 | 400 for a body that does not bind; 200 with the token, ID and e-mail exactly when the service logs in; any service error is 401 |
| AuthHandler.ChangePasswordErrorResponse | go-server/internal/handlers/auth_handler.go:83-96 | 401 exactly for the wrong-password text, 400 exactly for the short-password text, otherwise 500 with the prefix |
| AuthHandler.ProblemStatus | go-server/internal/handlers/auth_handler.go:83-96 | each service refusal gets its own status: 401 only for a wrong password, 400 only for a short one, 500 for the rest |
| AuthHandler.WriteFailuresAreServerErrors | go-server/internal/handlers/auth_handler.go:95 | a failure to hash or store the new password is answered with 500 |
| AuthHandler.ChangePassword | go-server/internal/handlers/auth_handler.go:75-100 | 400 for a body that does not bind; each service refusal its mapped answer; 200 exactly when the new hash is written to the user's row; anything but 200 leaves the table unchanged |
| AuthHandler.Engine.Post | go-server/internal/handlers/auth_handler.go:107-108 | appends one POST route with the group's path prefixed |
| AuthHandler.RegisterRoutes | go-server/internal/handlers/auth_handler.go:103-111 | adds exactly the register and login POST routes under /api/auth, and no password-change route |
| ChartUtils.Min | frontend/lib/chart-utils.ts:43 | `Math.min` of a non-empty list: a member no greater than any other |
| ChartUtils.Max | frontend/lib/chart-utils.ts:44 | `Math.max` of a non-empty list: a member no smaller than any other |
| ChartUtils.RegType | frontend/lib/chart-utils.ts:63 | the snake-case type when present and non-empty, else the camel-case one, else "" |
| ChartUtils.CoefficientsOf | frontend/lib/chart-utils.ts:66 | the model's coefficients, or none when absent |
| ChartUtils.SampleXsSpanData | frontend/lib/chart-utils.ts:48-58 | the positions run from the smallest to the largest x in 200 equal steps, or are the single x when all x are equal |
| ChartUtils.SamplePositions | frontend/lib/chart-utils.ts:48-58 | the array filled and then, for a zero range, cut to one element holds exactly those positions |
| ChartUtils.Ys | frontend/lib/chart-utils.ts:38 | the y of each data point, in order |
| ChartUtils.Xs | frontend/lib/chart-utils.ts:42 | the x of each data point, in order |
| ChartUtils.FiniteValues | frontend/lib/chart-utils.ts:69-73 | a value is kept exactly when the model gives it, finite, at some position; NaN and infinities are dropped |
| ChartUtils.ModelValuesCover | frontend/lib/chart-utils.ts:61-77 | every finite value of every model at every position is added to the values |
| ChartUtils.ModelValuesFinite | frontend/lib/chart-utils.ts:61-77 | every added value is a finite value of some model at some position |
| ChartUtils.YValuesExactly | frontend/lib/chart-utils.ts:38-77 | the values to cover are exactly the data's y values and the models' finite values |
| ChartUtils.AllYValues | frontend/lib/chart-utils.ts:37-78 | the data's y values followed by the models' finite values at positions across the data's x range, or the data alone when there are no models |
| ChartUtils.Padding | frontend/lib/chart-utils.ts:87 | a tenth of the range, but never less than 0.1 |
| ChartUtils.PaddedDomainBounds | frontend/lib/chart-utils.ts:83-89 | every value lies strictly inside the domain, which is at least 0.2 wide and padded equally on both sides |
| ChartUtils.PadRange | frontend/lib/chart-utils.ts:83-89 | computes the padded domain of the values |
| ChartUtils.AddModelValues | frontend/lib/chart-utils.ts:61-77 | the loop over the models appends exactly each model's finite values, model after model |
| ChartUtils.GlobalYDomain | frontend/lib/chart-utils.ts:25-90 | no domain exactly when there are no data points; otherwise the padded domain of the data's and the models' values |
| ChartUtils.DomainCovers | frontend/lib/chart-utils.ts:80-89 | the domain holds the y of every data point and every finite model value strictly inside |
| ChartUtils.DomainIsTight | frontend/lib/chart-utils.ts:83-84 | the domain's ends are a padding away from values that some data point or model actually takes |
| FrontendAuth.TrimStart | frontend/lib/auth.ts:17 | `parseInt` skips leading white space: a suffix of the text starting with no white space |
| FrontendAuth.DecimalPrefix | frontend/lib/auth.ts:17 | the longest run of decimal digits at the start |
| FrontendAuth.HexPrefix | frontend/lib/auth.ts:17 | the longest run of hexadecimal digits at the start |
| FrontendAuth.DigitsMagnitude | frontend/lib/auth.ts:17 | a run of decimal digits is read whole and is never taken for a hexadecimal prefix |
| FrontendAuth.ParseIntDigits | frontend/lib/auth.ts:17 | `parseInt` reads a run of decimal digits as its value |
| FrontendAuth.DigitIsNotSpaceOrSign | frontend/lib/auth.ts:17 | a digit is neither skipped as white space nor read as a sign |
| FrontendAuth.ParseIntNegatedDigits | frontend/lib/auth.ts:17 | `parseInt` reads a minus and digits as the negated value |
| FrontendAuth.ParseIntItoa | frontend/lib/auth.ts:17-19 | `parseInt` reads back what `toString` writes for any integer |
| FrontendAuth.NumberToString | frontend/lib/auth.ts:19 | `toString` writes "NaN" exactly for NaN |
| FrontendAuth.NextVersionIncrements | frontend/lib/auth.ts:17-19 | a missing or empty version becomes "1", a stored integer n becomes n + 1, and "NaN" stays "NaN" |
| FrontendAuth.ParseIntNaN | frontend/lib/auth.ts:17-19 | a stored "NaN" is read as NaN again |
| FrontendAuth.RemoveKeysExactly | frontend/lib/auth.ts:45-51 | removing keys takes out exactly those keys and keeps every other entry as it was |
| FrontendAuth.ClearedExactly | frontend/lib/auth.ts:28-67 | after clearing, none of the five auth keys is left, the version is the next one, and every other entry is as it was |
| FrontendAuth.VersionKeptAfterRemoval | frontend/lib/auth.ts:33-51 | removing the auth keys after storing the version keeps that version and every other entry |
| FrontendAuth.Browser.GetItem | frontend/lib/auth.ts:76 | `getItem`: the stored value exactly when the key is present, else null |
| FrontendAuth.Browser.SetItem | frontend/lib/auth.ts:19 | `setItem` stores the value under the key and changes nothing else |
| FrontendAuth.Browser.RemoveItem | frontend/lib/auth.ts:46 | `removeItem` takes out the key and changes nothing else |
| FrontendAuth.Browser.IncrementSessionVersion | frontend/lib/auth.ts:12-23 | with a window and a working storage the version becomes the next one; otherwise nothing changes |
| FrontendAuth.Browser.ClearAllAuthData | frontend/lib/auth.ts:28-67 | with a window and a working storage the storage becomes the cleared map; otherwise nothing changes |
| FrontendAuth.Browser.RemoveEach | frontend/lib/auth.ts:45-51 | the remove, set-empty, remove loop leaves the storage without exactly those keys |
| FrontendAuth.Browser.ClearAuthTokens | frontend/lib/auth.ts:115-134 | true exactly when there is a window and the storage works, and then the storage is cleared |
| FrontendAuth.Browser.CheckTokenValidity | frontend/lib/auth.ts:73-98 | false without a window or for a missing, empty or "undefined" token; true for a token without three dot-separated parts; for three parts, false exactly when the payload decodes with an expiry that has passed |
| FrontendAuth.Browser.SaveRedirectPath | frontend/lib/auth.ts:103-109 | with a window and a non-empty path the path is stored for after the login; a storage that throws lets the error out |
| FrontendAuth.Browser.RedirectToLogin | frontend/lib/auth.ts:160-165 | the path is saved, then the browser goes to the login page unless saving threw |
| FrontendAuth.Browser.Logout | frontend/lib/auth.ts:139-155 | the storage is cleared, "loggedOut" is set to "true" and one redirect is scheduled after 100 ms; without a window or storage it throws and changes nothing |
| FrontendAuth.Browser.RunTimer | frontend/lib/auth.ts:151-154 | runs the first pending callback, the redirect to the login page |
| FrontendAuth.LogoutThenRedirect | frontend/lib/auth.ts:139-165 | after logging out and the timer firing: at the login page, no auth key, "loggedOut" set and the path saved |
| FrontendAuth.LoggedOutThenRedirected | frontend/lib/auth.ts:139-165 | the storage after logout and redirect has no auth key, "loggedOut" = "true" and the saved path |
| Common.Ceil | python-server/analysis_modules/goodness_of_fit.py:59 | `np.ceil`: the least integer not below the value |
| Common.Trunc | python-server/internal/core/services/analysis_service.py:131 | `int()` of a float: the integer part, rounded toward zero on both signs |
| Common.Atoi | go-server/internal/services/analysis_service_impl.go:59 | `strconv.Atoi`: a value only for an optional sign followed by at least one decimal digit, and only within the int64 range |
| Common.Utf8Length | go-server/internal/services/auth_service_impl.go:142 | `len` of a Go string: its UTF-8 bytes, at least one and at most four per character |
| Common.PresentValues | python-server/analysis_modules/goodness_of_fit.py:34 | `dropna()` keeps exactly the values of the numeric cells, and no more values than there were cells |
| Common.PresentValuesSnoc | python-server/analysis_modules/goodness_of_fit.py:34 | one more row keeps the earlier present values and appends its own value when it is numeric |
| Common.PresentValuesAppend | python-server/analysis_modules/goodness_of_fit.py:34 | `dropna()` of two row ranges joined is the two results joined, so the present values stay in row order |
| Bins.GroupsTotal | python-server/analysis_modules/goodness_of_fit.py:84-105 | merging bins into contiguous runs keeps the observed and the expected totals |
| Bins.GroupsLength | python-server/analysis_modules/goodness_of_fit.py:84-105 | merging never adds categories and leaves none only when there were none |
| Bins.MergeAdjacent | python-server/analysis_modules/goodness_of_fit.py:90-102 | adding a bin into its neighbour and deleting it is again a grouping of the original bins into contiguous runs |

## Left out

- Library statistics are parameters of the model, with no properties assumed:
  - `chisquare`, `binom.pmf` and the binomial test intervals;
  - `norm.cdf`, `norm.ppf` and `shapiro`;
  - `pearsonr`, `spearmanr`, `wilcoxon` and `mannwhitneyu`;
  - the statsmodels OLS fit;
  - the `np.histogram` counts and edges;
  - `log10` in the Sturges rule.

  Where the library can raise, the parameter returns an optional value. Floating-point rounding is not modelled: numbers are exact reals.
- The curve fitting of the `testing/test/reg_*.py` scripts is not part of this model. It is float `curve_fit` work with no production caller.
- The thin library wrappers are not part of this model: `descriptive.py`, `normality.py`, `hypothesis_testing.py`, `confidence_interval.py` and `internal/core/services.py`. `AnalysisService` receives their outputs through its ports.
- The regression port of `AnalysisService` is an oracle. `analyze_data` calls it with `dependent_var`/`independent_var` keywords, and the port interface at `python-server/internal/core/ports/analysis_ports.py:70` accepts them. The adapter that would call `perform_simple_linear_regression`, which does not take those keywords, is not shown.
- Log and conclusion texts are datatypes naming each log kind with its data, not formatted strings. The formatting of floats (`:.4f`, `str(np.float64)`) and exception tracebacks is not modelled.
- The `selected_analyses_single` branch of `analyze_data` only writes a log line. The model records that line and nothing else.
- File parsing is a parameter of `DataLoader`: `pd.read_csv`, `pd.read_excel` and their exceptions. `DataLoader.Lower` folds ASCII letters only, where Python's `str.lower` folds all of Unicode.
- Transport, process start-up and persistence are not part of this model:
  - the gRPC servers and clients and the JSON encoding of responses;
  - `main.go`, `server.go` and `database.go`.

  The analysis repository and the Python client are parameters of `AnalysisServiceImpl`, each call returning a result or an error.
- `AnalysisServiceImpl.PerformAnalysis`: a Python failure is modelled as an error that keeps its gRPC status when wrapped with `%w`, as `status.FromError` unwraps it. The handler's answer is proved for that behaviour only.
- `AnalysisServiceImpl.GetFileColumns` passes the client's answer through. The model says no more than that.
- AnalysisService.NormalityOutput: models the corrected degrees-of-freedom conversion (`AnalysisRecords.DegreesOfFreedom`, NaN read as 0). As written, `int()` of a NaN raises at `analysis_service.py:131` and ends the run. That behaviour is `AnalysisService.NormalityOutputAsWritten` and `AnalysisService.UnconvertibleDofEndsRun` (see "## Findings").
- AnalysisService.AnalyzeData: returns the response of the corrected conversion; as written, a chi-square record with NaN degrees of freedom ends the run early (`AnalysisService.UnconvertibleDofEndsRun`).
- AnalysisService.NoExceptionNoErrorLine: states the corrected run; as written, a NaN degrees of freedom also adds an exception line even when every port returns.
- AnalysisService.SelectedBlocksReported: states the corrected run; as written, the chi-square results stop before the first record with NaN degrees of freedom and the confidence intervals are not computed.
- AnalysisService.BlocksReported: states the corrected run, for the same reason.
- AnalysisService.RunNormality: computes the corrected normality block.
- AnalysisService.RunBlocks: runs the corrected blocks.
- `Common.Trunc` on a float outside the int64 range: Go's conversion is implementation-defined there, and the model returns the mathematical integer part.
- `AnalysisHandler.RegisterRoutes` registers nothing. `cmd/main.go` registers the analysis routes and the password-change route; that file is not part of this model.
- `HandleDeleteAnalysisRun`, which `cmd/main.go` routes to, is not defined in `analysis_handler.go`. Its handler is not part of this model. `AnalysisServiceImpl.DeleteAnalysisRun` is.
- `AnalysisHandler.HandleGetAnalysisRunResults`: a bad run ID gives 400 before the missing service is checked, as in the code. An access-denied error from the service is answered with 500, because the handler does not look at its text.
- The Postgres user repository is the class `AuthServiceImpl.UserStore`. Database failures are supplied per call (`Faults`). SQL, timestamps and the `RETURNING` scan are not modelled. `GetByID` and `Update` are missing from the `UserRepository` interface in `user_repository.go`. The model uses the Postgres implementation's behaviour.
- Three libraries are parameters of the model: bcrypt (hash and compare), the JWT signer and decoder, and the `strconv` error text. Token times are whole Unix seconds, read from one `now` value for both `iat` and `exp`.
- `AuthHandler.BindRegister`, `AuthHandler.BindLogin` and `AuthHandler.BindChangePassword` do not model gin's validator. Its error text and the e-mail syntax check are parameters.
- `AuthMiddleware.Handle` leaves out the "Invalid token claims" branch at `auth_middleware.go:64-66`. `jwt.Parse` returns map claims, and a token without a parse error is valid, so that branch is never taken.
- `FrontendAuth.Browser.ClearAllAuthData` leaves out the fallback at `auth.ts:54-61`. After the removal loop `authToken` is never present, so the fallback is never taken (`FrontendAuth.ClearedExactly`).
- `FrontendAuth.Browser` models a storage that throws on every call or on none. A quota error on one `setItem` is not modelled. Console output is not modelled.
- `handleUnauthorized` in `auth.ts` is not part of this model.
- `ChartUtils.GlobalYDomain` takes the data points' y values as finite reals. JavaScript numbers are exact reals, and `calculateY` is a parameter returning a finite value, NaN or an infinity. The second empty check at `chart-utils.ts:81` can never fire after the first one, and is not modelled.

## Findings

| source | as written | input that shows it | evidently intended | confidence | as-written member | corrected member |
|---|---|---|---|---|---|---|
| python-server/internal/core/services/analysis_service.py:131 | `int(chi2_dict.get("degrees_of_freedom", 0))` converts the degrees of freedom of every chi-square result. A skipped result carries NaN there, and `int` of NaN raises, so `analyze_data` stops after the chi-square block and never reaches the intervals or the regression. | any selected numeric column with fewer than 20 present values (`AnalysisRecords.ShortColumnBreaksConversion`); the run then stops there (`AnalysisService.UnconvertibleDofEndsRun`) | a missing degrees of freedom read as 0, as `server.py` does with its `pd.notna` guard | not executed | AnalysisRecords.DegreesOfFreedomAsWritten | AnalysisRecords.DegreesOfFreedom |
