/** Binomial analysis of a column of success counts (`perform_binomial_analysis`):
    validation, inference of n as the column maximum, the pooled estimate of p,
    and a chi-square goodness-of-fit test against Binomial(n, p) whose outcome
    categories are pooled left to right until each expects at least 5. */
module Binomial {
  import opened Common
  import opened Bins

  const DefaultConfidenceLevel: real := 0.95
  const MinExpectedFreq: real := 5.0
  /** One parameter (p) is estimated from the data. */
  const EstimatedParameters: nat := 1

  datatype Oracles = Oracles(
    /** `stats.binomtest(k, n).proportion_ci(confidence_level)`, or None when it raises. */
    binomCi: (nat, nat, real) -> Option<(real, real)>,
    /** `stats.binom.pmf(k, n, p)`. */
    pmf: (nat, nat, real) -> real,
    /** `stats.chisquare(f_obs, f_exp, ddof)`: (statistic, p-value), or the text of its exception. */
    chisquare: (seq<int>, seq<real>, nat) -> Result<(Stat, Stat), string>)

  /** A probability mass function is never negative. */
  ghost predicate PmfNonNegative(o: Oracles)
  {
    forall k: nat, n: nat, p: real :: o.pmf(k, n, p) >= 0.0
  }

  datatype GofConclusion =
    | SkippedTooFewCategories
    | RejectBinomial
    | FailToRejectBinomial
    | ErrorDuringCalculation

  datatype BinomialResult = BinomialResult(
    variableName: string,
    totalExperiments: nat,
    inferredN: nat,
    totalSuccesses: nat,
    estimatedProb: real,
    ciLower: Stat,
    ciUpper: Stat,
    confidenceLevel: real,
    gofStatistic: Stat,
    gofPValue: Stat,
    gofConclusion: GofConclusion,
    gofWarning: bool)

  datatype BinomialLog =
    | ColumnNotFound(column: string)
    | NotIntegerCounts(column: string)
    | EmptyColumn(column: string)
    | NegativeValues(column: string)
    | InferredN(column: string, n: int)
    | NonPositiveN(column: string)
    | EstimatedP(p: real)
    | ConfidenceInterval(confidence: real, lower: real, upper: real)
    | NoConfidenceInterval(column: string)
    | PerformingGof
    | TooFewCategories(column: string)
    | MayBeUnreliable(column: string)
    | UsingCategories(count: nat)
    | GofResult(statistic: Stat, pValue: Stat, conclusion: GofConclusion)
    | GofError(column: string, message: string)

  // ---------------------------------------------------------------------------
  // Column data
  // ---------------------------------------------------------------------------

  /** `df[name]`: the first column with that name. */
  function FindColumn(cols: seq<Column>, name: string): (r: Option<Column>)
    ensures r.None? <==> forall k :: 0 <= k < |cols| ==> cols[k].name != name
    ensures r.Some? ==> r.value in cols && r.value.name == name
  {
    if cols == [] then None
    else if cols[0].name == name then Some(cols[0])
    else FindColumn(cols[1..], name)
  }

  predicate IsWhole(x: real) { Trunc(x) as real == x }

  /** `is_integer_dtype(data) or (is_float_dtype(data) and all values are whole)`. */
  predicate IntegerCounts(dtype: DType, values: seq<real>)
  {
    dtype == IntDtype || (dtype == FloatDtype && forall k :: 0 <= k < |values| ==> IsWhole(values[k]))
  }

  /** `data.astype(int)`. */
  function AsInt(values: seq<real>): (r: seq<int>)
    ensures |r| == |values| && forall k :: 0 <= k < |r| ==> r[k] == Trunc(values[k])
  {
    seq(|values|, k requires 0 <= k < |values| => Trunc(values[k]))
  }

  function MaxOf(s: seq<int>): (m: int)
    requires |s| > 0
    ensures forall k :: 0 <= k < |s| ==> s[k] <= m
    ensures exists k :: 0 <= k < |s| && s[k] == m
  {
    if |s| == 1 then s[0]
    else
      var rest := MaxOf(s[1..]);
      assert forall k :: 1 <= k < |s| ==> s[k] == s[1..][k - 1];
      if s[0] >= rest then s[0] else rest
  }

  function IntSum(s: seq<int>): int
  {
    if s == [] then 0 else IntSum(s[..|s| - 1]) + s[|s| - 1]
  }

  /** With every count in 0..n, the sum lies in 0..|s|·n. */
  lemma {:induction false} IntSumBounds(s: seq<int>, n: nat)
    requires forall k :: 0 <= k < |s| ==> 0 <= s[k] <= n
    ensures 0 <= IntSum(s) <= |s| * n
  {
    if s != [] {
      var m := |s| - 1;
      IntSumBounds(s[..m], n);
      assert |s| * n == m * n + n;
    }
  }

  /** The number of experiments with exactly `v` successes (`Counter(data)[v]`). */
  function Count(s: seq<int>, v: int): (c: nat)
    ensures c <= |s|
  {
    if s == [] then 0 else Count(s[..|s| - 1], v) + (if s[|s| - 1] == v then 1 else 0)
  }

  /** `sum(observed_freq[:m])`. */
  function TableSum(s: seq<int>, m: nat): nat
  {
    if m == 0 then 0 else TableSum(s, m - 1) + Count(s, m - 1)
  }

  lemma {:induction false} TableSumSnoc(s: seq<int>, x: int, m: nat)
    ensures TableSum(s + [x], m) == TableSum(s, m) + (if 0 <= x < m then 1 else 0)
  {
    if m > 0 {
      TableSumSnoc(s, x, m - 1);
      assert (s + [x])[..|s + [x]| - 1] == s;
    }
  }

  /** The observed-frequency table over outcomes 0..n accounts for every experiment. */
  lemma {:induction false} ObservedTableTotal(s: seq<int>, n: nat)
    requires forall k :: 0 <= k < |s| ==> 0 <= s[k] <= n
    ensures TableSum(s, n + 1) == |s|
  {
    if s != [] {
      var m := |s| - 1;
      var init := s[..m];
      assert forall k :: 0 <= k < |init| ==> init[k] == s[k];
      ObservedTableTotal(init, n);
      TableSumSnoc(init, s[m], n + 1);
      assert init + [s[m]] == s;
      assert TableSum(s, n + 1) == TableSum(init, n + 1) + 1;
    } else {
      TableSumEmpty(n + 1);
    }
  }

  lemma {:induction false} TableSumEmpty(m: nat)
    ensures TableSum([], m) == 0
  {
    if m > 0 { TableSumEmpty(m - 1); }
  }

  /** `observed_freq` paired with `expected_freq`, one bin per outcome 0..n. */
  function OutcomeBins(data: seq<int>, n: nat, p: real, o: Oracles): (bs: seq<Bin>)
    ensures |bs| == n + 1
    ensures forall i :: 0 <= i <= n ==> bs[i].obs == Count(data, i)
  {
    seq(n + 1, i requires 0 <= i <= n => Bin(Count(data, i), o.pmf(i, n, p) * (|data| as real)))
  }

  lemma {:induction false} OutcomeBinsObserved(data: seq<int>, n: nat, p: real, o: Oracles, m: nat)
    requires m <= n + 1
    ensures Total(OutcomeBins(data, n, p, o)[..m]).obs == TableSum(data, m)
  {
    if m > 0 {
      OutcomeBinsObserved(data, n, p, o, m - 1);
      assert OutcomeBins(data, n, p, o)[..m][..m - 1] == OutcomeBins(data, n, p, o)[..m - 1];
    }
  }

  // ---------------------------------------------------------------------------
  // Pooling categories (lines 116-139)
  // ---------------------------------------------------------------------------

  lemma AccumulateStep(bins: seq<Bin>, start: nat, i: nat)
    requires start <= i < |bins|
    ensures Total(bins[start..i + 1]) == Add(Total(bins[start..i]), bins[i])
  {
    assert bins[start..i + 1] == bins[start..i] + [bins[i]];
    TotalConcat(bins[start..i], [bins[i]]);
    assert Total([bins[i]]) == bins[i] by { assert [bins[i]][..0] == []; }
  }

  /** Every pooled category but the last expects at least 5. */
  predicate LeadingReliable(comb: seq<Bin>)
  {
    forall k :: 0 <= k < |comb| - 1 ==> comb[k].exp >= MinExpectedFreq
  }

  /** The loop state of the accumulator after looking at `bins[..i]`: the closed
      categories group `bins[..start]`, and `current` holds the totals of the rest. */
  ghost predicate Accumulating(bins: seq<Bin>, start: nat, i: nat, comb: seq<Bin>, cuts: seq<nat>, current: Bin)
  {
    start <= i <= |bins| &&
    Groups(bins[..start], comb, cuts) &&
    current == Total(bins[start..i]) &&
    (i < |bins| ==> forall k :: 0 <= k < |comb| ==> comb[k].exp >= MinExpectedFreq) &&
    LeadingReliable(comb) &&
    (NonNegativeExpected(bins) && |comb| >= 2 ==> forall k :: 0 <= k < |comb| ==> comb[k].exp >= MinExpectedFreq) &&
    (i == |bins| ==> start == |bins|)
  }

  /** The remainder at the end is added to the last category (lines 126-130). */
  lemma FoldIntoLast(bins: seq<Bin>, start: nat, i: nat, comb: seq<Bin>, cuts: seq<nat>, current: Bin)
    requires Accumulating(bins, start, i, comb, cuts, current) && i == |bins| - 1 && comb != []
    ensures Accumulating(bins, i + 1, i + 1,
      comb[..|comb| - 1] + [Add(comb[|comb| - 1], Add(current, bins[i]))], cuts[..|comb|] + [i + 1], Bin(0, 0.0))
  {
    AccumulateStep(bins, start, i);
    ExtendLastGroup(bins, comb, cuts, start, i + 1);
    if NonNegativeExpected(bins) {
      TotalNonNegative(bins[start..i + 1]);
    }
    assert bins[i + 1..i + 1] == [];
  }

  /** The running totals become a new category (lines 131-134). */
  lemma CloseCategory(bins: seq<Bin>, start: nat, i: nat, comb: seq<Bin>, cuts: seq<nat>, current: Bin)
    requires Accumulating(bins, start, i, comb, cuts, current) && i < |bins|
    requires Add(current, bins[i]).exp >= MinExpectedFreq || (i == |bins| - 1 && comb == [])
    ensures Accumulating(bins, i + 1, i + 1, comb + [Add(current, bins[i])], cuts + [i + 1], Bin(0, 0.0))
  {
    AccumulateStep(bins, start, i);
    AppendGroup(bins, comb, cuts, start, i + 1);
    assert bins[i + 1..i + 1] == [];
  }

  /** The running totals grow by one outcome (lines 123-124, 139). */
  lemma HoldOpen(bins: seq<Bin>, start: nat, i: nat, comb: seq<Bin>, cuts: seq<nat>, current: Bin)
    requires Accumulating(bins, start, i, comb, cuts, current) && i < |bins| - 1
    ensures Accumulating(bins, start, i + 1, comb, cuts, Add(current, bins[i]))
  {
    AccumulateStep(bins, start, i);
  }

  /** The pooling rule, from outcome `i` on, given the categories closed so far
      and the running totals: add the outcome to the totals; close them as a
      category once they expect at least 5; at the last outcome, add totals still
      short of 5 to the last category, or close them as the only one. */
  function PoolFrom(bins: seq<Bin>, i: nat, comb: seq<Bin>, current: Bin): seq<Bin>
    requires i <= |bins|
    decreases |bins| - i
  {
    if i == |bins| then comb
    else
      var next := Add(current, bins[i]);
      if next.exp >= MinExpectedFreq || i == |bins| - 1 then
        if next.exp < MinExpectedFreq && |comb| > 0 then
          PoolFrom(bins, i + 1, comb[..|comb| - 1] + [Add(comb[|comb| - 1], next)], Bin(0, 0.0))
        else
          PoolFrom(bins, i + 1, comb + [next], Bin(0, 0.0))
      else
        PoolFrom(bins, i + 1, comb, next)
  }

  /** The categories the pooling rule makes of the whole table. */
  function Pool(bins: seq<Bin>): seq<Bin>
  {
    PoolFrom(bins, 0, [], Bin(0, 0.0))
  }

  lemma {:induction false} PoolFromReliable(bins: seq<Bin>, i: nat, comb: seq<Bin>)
    requires i <= |bins|
    requires forall k :: i <= k < |bins| ==> bins[k].exp >= MinExpectedFreq
    ensures PoolFrom(bins, i, comb, Bin(0, 0.0)) == comb + bins[i..]
    decreases |bins| - i
  {
    if i == |bins| {
      assert bins[i..] == [];
    } else {
      assert Add(Bin(0, 0.0), bins[i]) == bins[i];
      PoolFromReliable(bins, i + 1, comb + [bins[i]]);
      assert bins[i..] == [bins[i]] + bins[i + 1..];
    }
  }

  /** A table whose every outcome already expects at least 5 is not pooled. */
  lemma NoPoolingWhenReliable(bins: seq<Bin>)
    requires forall k :: 0 <= k < |bins| ==> bins[k].exp >= MinExpectedFreq
    ensures Pool(bins) == bins
  {
    PoolFromReliable(bins, 0, []);
    assert bins[0..] == bins;
  }

  /** The left-to-right accumulator: outcomes are added up until the running
      expected frequency reaches 5, then closed as a category; a short remainder
      at the end is added to the last category, or forms the only one. */
  method CombineCategories(bins: seq<Bin>) returns (comb: seq<Bin>, ghost cuts: seq<nat>)
    requires |bins| >= 1
    ensures comb == Pool(bins)
    ensures Groups(bins, comb, cuts)
    ensures Total(comb) == Total(bins)
    ensures 1 <= |comb| <= |bins|
    ensures LeadingReliable(comb)
    ensures NonNegativeExpected(bins) && |comb| >= 2 ==>
      forall k :: 0 <= k < |comb| ==> comb[k].exp >= MinExpectedFreq
  {
    comb := [];
    cuts := [0];
    var current := Bin(0, 0.0);
    ghost var start := 0;
    var i := 0;
    assert bins[..0] == [] && bins[0..0] == [];
    while i < |bins|
      invariant Accumulating(bins, start, i, comb, cuts, current)
      invariant PoolFrom(bins, i, comb, current) == Pool(bins)
    {
      var next := Add(current, bins[i]);
      if next.exp >= MinExpectedFreq || i == |bins| - 1 {
        if next.exp < MinExpectedFreq && |comb| > 0 {
          FoldIntoLast(bins, start, i, comb, cuts, current);
          comb := comb[..|comb| - 1] + [Add(comb[|comb| - 1], next)];
          cuts := cuts[..|comb|] + [i + 1];
        } else {
          CloseCategory(bins, start, i, comb, cuts, current);
          comb := comb + [next];
          cuts := cuts + [i + 1];
        }
        start := i + 1;
        current := Bin(0, 0.0);
      } else {
        HoldOpen(bins, start, i, comb, cuts, current);
        current := next;
      }
      i := i + 1;
    }
    assert bins[..start] == bins;
    GroupsTotal(bins, comb, cuts);
    GroupsLength(bins, comb, cuts);
  }

  // ---------------------------------------------------------------------------
  // Validation (lines 38-70)
  // ---------------------------------------------------------------------------

  /** Whether the (already whole) counts contain a negative one. */
  predicate AnyNegative(s: seq<int>)
  {
    exists k :: 0 <= k < |s| && s[k] < 0
  }

  /** The outcome of the input checks: the logs of a rejected column, or the
      counts and the inferred n of an accepted one. */
  datatype Validated = Rejected(logs: seq<BinomialLog>) | Accepted(data: seq<int>, n: nat)

  /** The input checks, in the order the source makes them: a missing column,
      non-integer values, an empty column, negative counts, then n <= 0 (which
      is logged after the inferred n). The `astype(int)` error branch cannot be
      taken on whole finite values and is not modelled. */
  function Validate(df: Frame, columnName: string): (v: Validated)
    ensures FindColumn(df.columns, columnName).None? ==> v == Rejected([ColumnNotFound(columnName)])
    ensures FindColumn(df.columns, columnName).Some? ==>
      var col := FindColumn(df.columns, columnName).value;
      var data := PresentValues(col.cells);
      (!IntegerCounts(col.dtype, data) ==> v == Rejected([NotIntegerCounts(columnName)])) &&
      (IntegerCounts(col.dtype, data) && data == [] ==> v == Rejected([EmptyColumn(columnName)])) &&
      (IntegerCounts(col.dtype, data) && data != [] && AnyNegative(AsInt(data)) ==>
        v == Rejected([NegativeValues(columnName)])) &&
      (IntegerCounts(col.dtype, data) && data != [] && !AnyNegative(AsInt(data)) ==>
        (MaxOf(AsInt(data)) <= 0 <==> v.Rejected?) &&
        (v.Rejected? ==> v.logs == [InferredN(columnName, MaxOf(AsInt(data))), NonPositiveN(columnName)]) &&
        (v.Accepted? ==> v.data == AsInt(data)))
    ensures v.Accepted? ==>
      |v.data| > 0 && v.n > 0 && v.n == MaxOf(v.data) &&
      forall k :: 0 <= k < |v.data| ==> 0 <= v.data[k] <= v.n
  {
    match FindColumn(df.columns, columnName)
    case None => Rejected([ColumnNotFound(columnName)])
    case Some(col) =>
      var data := PresentValues(col.cells);
      if !IntegerCounts(col.dtype, data) then Rejected([NotIntegerCounts(columnName)])
      else if data == [] then Rejected([EmptyColumn(columnName)])
      else
        var ints := AsInt(data);
        if AnyNegative(ints) then Rejected([NegativeValues(columnName)])
        else
          var n := MaxOf(ints);
          if n <= 0 then Rejected([InferredN(columnName, n), NonPositiveN(columnName)])
          else Accepted(ints, n)
  }

  /** The estimate successes / (experiments · n) is a proportion. */
  lemma RatioInUnit(s: int, len: nat, n: nat)
    requires len > 0 && n > 0 && 0 <= s <= len * n
    ensures 0.0 <= (s as real) / ((len * n) as real) <= 1.0
  {
    var d := (len * n) as real;
    assert d > 0.0;
    assert (s as real) <= d;
  }

  // ---------------------------------------------------------------------------
  // The goodness-of-fit test (lines 97-168)
  // ---------------------------------------------------------------------------

  /** `observed_freq_comb`. */
  function ObservedOf(bs: seq<Bin>): (r: seq<int>)
    ensures |r| == |bs| && forall k :: 0 <= k < |bs| ==> r[k] == bs[k].obs
  {
    seq(|bs|, k requires 0 <= k < |bs| => bs[k].obs)
  }

  /** `expected_freq_comb`. */
  function ExpectedOf(bs: seq<Bin>): (r: seq<real>)
    ensures |r| == |bs| && forall k :: 0 <= k < |bs| ==> r[k] == bs[k].exp
  {
    seq(|bs|, k requires 0 <= k < |bs| => bs[k].exp)
  }

  datatype GofOutcome = GofOutcome(statistic: Stat, pValue: Stat, conclusion: GofConclusion, warning: bool)

  /** Whether some pooled category still expects fewer than 5. */
  predicate AnyUnreliable(cats: seq<Bin>)
  {
    exists k :: 0 <= k < |cats| && cats[k].exp < MinExpectedFreq
  }

  /** What the test reports about the pooled categories: a skip with a warning
      when there are fewer than two; otherwise the statistic and p-value of
      `chisquare` with ddof = 1 on their observed and expected counts, rejecting
      when the p-value is below 1 - confidence and warning when a category
      expects fewer than 5, or the error outcome when `chisquare` raises. */
  predicate Reports(gof: GofOutcome, cats: seq<Bin>, confidence: real, o: Oracles)
  {
    if |cats| < 2 then gof == GofOutcome(NaN, NaN, SkippedTooFewCategories, true)
    else
      match o.chisquare(ObservedOf(cats), ExpectedOf(cats), EstimatedParameters)
      case Ok((stat, pv)) =>
        gof == GofOutcome(stat, pv, if Below(pv, 1.0 - confidence) then RejectBinomial else FailToRejectBinomial,
                          AnyUnreliable(cats))
      case Err(_) => gof == GofOutcome(NaN, NaN, ErrorDuringCalculation, true)
  }

  /** Every expected frequency of B(n, p) times the number of experiments is non-negative
      when the mass function is. */
  lemma OutcomeBinsNonNegative(data: seq<int>, n: nat, p: real, o: Oracles)
    requires PmfNonNegative(o)
    ensures NonNegativeExpected(OutcomeBins(data, n, p, o))
  {
    var bins := OutcomeBins(data, n, p, o);
    forall k | 0 <= k < |bins| ensures bins[k].exp >= 0.0 {
      assert o.pmf(k, n, p) >= 0.0;
      assert (|data| as real) >= 0.0;
    }
  }

  /** Tabulates the counts over the outcomes 0..n, pools them, and runs the
      chi-square test with one estimated parameter. */
  method GoodnessOfFit(data: seq<int>, n: nat, p: real, confidence: real, columnName: string, o: Oracles)
    returns (gof: GofOutcome, logs: seq<BinomialLog>, ghost categories: seq<Bin>)
    requires forall k :: 0 <= k < |data| ==> 0 <= data[k] <= n
    requires |data| > 0
    ensures categories == Pool(OutcomeBins(data, n, p, o))
    ensures Reports(gof, categories, confidence, o)
    ensures |categories| >= 2 ==>
      |logs| == 2 && logs[0] == (if AnyUnreliable(categories) then MayBeUnreliable(columnName)
                                 else UsingCategories(|categories|))
    ensures var bins := OutcomeBins(data, n, p, o);
      1 <= |categories| <= n + 1 && Total(categories) == Total(bins) &&
      Total(categories).obs == |data| &&
      LeadingReliable(categories)
    ensures gof.conclusion == SkippedTooFewCategories <==> |categories| < 2
    ensures gof.conclusion == SkippedTooFewCategories ==>
      gof.warning && gof.statistic == NaN && gof.pValue == NaN && logs == [TooFewCategories(columnName)]
    ensures gof.conclusion == ErrorDuringCalculation ==> gof.warning && gof.statistic == NaN && gof.pValue == NaN
    ensures gof.conclusion == RejectBinomial ==> Below(gof.pValue, 1.0 - confidence)
    ensures gof.conclusion == FailToRejectBinomial ==> !Below(gof.pValue, 1.0 - confidence)
    ensures PmfNonNegative(o) && gof.warning ==>
      gof.conclusion == SkippedTooFewCategories || gof.conclusion == ErrorDuringCalculation
  {
    var bins := OutcomeBins(data, n, p, o);
    var comb, cuts := CombineCategories(bins);
    categories := comb;
    OutcomeBinsObserved(data, n, p, o, n + 1);
    assert bins[..n + 1] == bins;
    ObservedTableTotal(data, n);
    if PmfNonNegative(o) {
      OutcomeBinsNonNegative(data, n, p, o);
    }
    if |comb| < 2 {
      return GofOutcome(NaN, NaN, SkippedTooFewCategories, true), [TooFewCategories(columnName)], categories;
    }
    var warning := false;
    if AnyUnreliable(comb) {
      logs := [MayBeUnreliable(columnName)];
      warning := true;
    } else {
      logs := [UsingCategories(|comb|)];
    }
    match o.chisquare(ObservedOf(comb), ExpectedOf(comb), EstimatedParameters) {
      case Ok((stat, pv)) =>
        var conclusion := if Below(pv, 1.0 - confidence) then RejectBinomial else FailToRejectBinomial;
        gof := GofOutcome(stat, pv, conclusion, warning);
        logs := logs + [GofResult(stat, pv, conclusion)];
      case Err(msg) =>
        gof := GofOutcome(NaN, NaN, ErrorDuringCalculation, true);
        logs := logs + [GofError(columnName, msg)];
    }
  }

  // ---------------------------------------------------------------------------
  // The analysis (lines 15-186)
  // ---------------------------------------------------------------------------

  /** Lines 72-81: the number of experiments, the total of successes, the
      possible successes and the estimated probability, which lies in [0, 1]. */
  method EstimateProbability(data: seq<int>, n: int)
    returns (experiments: nat, successes: int, possible: int, p: real)
    requires |data| > 0 && n > 0
    requires forall k :: 0 <= k < |data| ==> 0 <= data[k] <= n
    ensures experiments == |data| && successes == IntSum(data) && possible == experiments * n
    ensures 0 <= successes <= possible && possible > 0
    ensures p == (successes as real) / (possible as real) && 0.0 <= p <= 1.0
  {
    experiments := |data|;
    successes := IntSum(data);
    IntSumBounds(data, n);
    possible := experiments * n;
    // the guard against zero possible successes (lines 76-78) cannot fire here
    assert possible > 0;
    p := (successes as real) / (possible as real);
    RatioInUnit(successes, experiments, n);
  }

  /** What the analysis of an accepted column reports: the inferred n logged
      first, the sample sizes, the estimate successes / (experiments · n) in
      [0, 1], the confidence interval the oracle gives (NaN when it gives none),
      and the goodness-of-fit outcome on the pooled categories. */
  ghost predicate ReportsCounts(data: seq<int>, n: nat, columnName: string, confidence: real, o: Oracles,
                                r: BinomialResult, logs: seq<BinomialLog>)
  {
    |logs| >= 1 && logs[0] == InferredN(columnName, n) &&
    r.variableName == columnName && r.confidenceLevel == confidence &&
    r.totalExperiments == |data| && r.inferredN == n &&
    r.totalSuccesses == IntSum(data) <= r.totalExperiments * n &&
    r.totalExperiments * n > 0 &&
    r.estimatedProb == (r.totalSuccesses as real) / ((r.totalExperiments * n) as real) &&
    0.0 <= r.estimatedProb <= 1.0 &&
    var ci := o.binomCi(r.totalSuccesses, r.totalExperiments * n, confidence);
    (ci.Some? ==> r.ciLower == Num(ci.value.0) && r.ciUpper == Num(ci.value.1)) &&
    (ci.None? ==> r.ciLower == NaN && r.ciUpper == NaN) &&
    Reports(GofOutcome(r.gofStatistic, r.gofPValue, r.gofConclusion, r.gofWarning),
            Pool(OutcomeBins(data, n, r.estimatedProb, o)), confidence, o)
  }

  /** Infers n, estimates p with a confidence interval, and tests the counts
      against Binomial(n, p̂); a column the checks reject gives None and their logs. */
  method PerformBinomialAnalysis(df: Frame, columnName: string, confidence: real, o: Oracles)
    returns (result: Option<BinomialResult>, logs: seq<BinomialLog>)
    ensures Validate(df, columnName).Rejected? ==> result.None? && logs == Validate(df, columnName).logs
    ensures Validate(df, columnName).Accepted? ==>
      result.Some? && ReportsCounts(Validate(df, columnName).data, Validate(df, columnName).n,
                                    columnName, confidence, o, result.value, logs)
    ensures result.Some? ==>
      var r := result.value;
      (r.gofConclusion == SkippedTooFewCategories ==> r.gofWarning && r.gofStatistic == NaN) &&
      (r.gofConclusion == RejectBinomial <==>
         (r.gofConclusion != ErrorDuringCalculation && r.gofConclusion != SkippedTooFewCategories &&
          Below(r.gofPValue, 1.0 - confidence))) &&
      (PmfNonNegative(o) && r.gofWarning ==>
        r.gofConclusion == SkippedTooFewCategories || r.gofConclusion == ErrorDuringCalculation)
  {
    var v := Validate(df, columnName);
    if v.Rejected? {
      return None, v.logs;
    }
    var data, n := v.data, v.n;
    logs := [InferredN(columnName, n)];
    var experiments, successes, possible, p := EstimateProbability(data, n);
    logs := logs + [EstimatedP(p)];

    var ciLower, ciUpper := NaN, NaN;
    match o.binomCi(successes, possible, confidence) {
      case Some((lo, hi)) =>
        ciLower, ciUpper := Num(lo), Num(hi);
        logs := logs + [ConfidenceInterval(confidence, lo, hi)];
      case None =>
        logs := logs + [NoConfidenceInterval(columnName)];
    }

    logs := logs + [PerformingGof];
    var gof, gofLogs, categories := GoodnessOfFit(data, n, p, confidence, columnName, o);
    logs := logs + gofLogs;
    result := Some(BinomialResult(columnName, experiments, n, successes, p, ciLower, ciUpper, confidence,
      gof.statistic, gof.pValue, gof.conclusion, gof.warning));
    assert ReportsCounts(data, n, columnName, confidence, o, result.value, logs);
  }
}
