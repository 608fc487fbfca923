/** The Wilcoxon signed-rank test over pairs of numeric columns and the
    Mann-Whitney U test between the two groups of a grouping column. Both test
    statistics are parameters; what is modelled is the choice of pairs, the sample
    size and zero-difference gates, one result per pair put to the test, the two-group rule
    and the conclusion drawn from the p-value. */
module Wilcoxon {
  import opened Common
  import opened Sorting
  import opened Pairs
  import opened PairCollect

  /** The signed-rank test is skipped below six complete rows. */
  const MinSignedRankSample: nat := 6
  /** Differences below this in absolute value count as zero. */
  const ZeroDifference: real := 0.000000001
  /** What numpy raises when `all` is asked for the truth of a row of two
      differences, as happens when both names of a pair are the same column. */
  const AmbiguousTruthValue: string :=
    "The truth value of an array with more than one element is ambiguous. Use a.any() or a.all()"
  /** Mann-Whitney is skipped when a group has fewer than five values. */
  const MinGroupSize: nat := 5

  datatype Oracles = Oracles(
    /** `stats.wilcoxon(x, y)`: (statistic, p-value), or the text of its exception. */
    wilcoxon: (seq<real>, seq<real>) -> Result<(Stat, Stat), string>,
    /** `stats.mannwhitneyu(x, y)`: (statistic, p-value), or the text of its exception. */
    mannWhitney: (seq<real>, seq<real>) -> Result<(Stat, Stat), string>)

  /** The `conclusion` field. */
  datatype Conclusion =
    | SkippedInsufficientData
    | SkippedAllDifferencesZero
    | NoSignificantDifference(alpha: real)
    | SignificantDifference(alpha: real)
    | TestError(message: string)

  /** `p > alpha` decides between the two verdicts; a NaN p-value compares False
      and so reads as a significant difference. */
  function Verdict(p: Stat, alpha: real): (c: Conclusion)
    ensures c.NoSignificantDifference? <==> Above(p, alpha)
    ensures c.NoSignificantDifference? || c.SignificantDifference?
    ensures p == NaN ==> c == SignificantDifference(alpha)
  {
    if Above(p, alpha) then NoSignificantDifference(alpha) else SignificantDifference(alpha)
  }

  // ---------------------------------------------------------------------------
  // perform_wilcoxon_signed_rank_test (lines 7-108)
  // ---------------------------------------------------------------------------

  datatype SignedRankResult = SignedRankResult(
    variable1: string, variable2: string, statistic: Stat, pValue: Stat,
    conclusion: Conclusion, sampleSize: nat)

  datatype SignedRankLog =
    | NoNumericColumns
    | FoundColumns(names: seq<string>)
    | UsingSpecifiedColumns(a: string, b: string)
    | SpecifiedColumnsNotFound(a: string, b: string)
    | TestingAllPairs(total: nat)
    | SkippedInsufficientRows(a: string, b: string)
    | SkippedZeroDifferences(a: string, b: string)
    | SignedRankPerformed(a: string, b: string, p: Stat)
    | SignedRankError(a: string, b: string, message: string)

  /** Every paired difference is below 1e-9 in absolute value. */
  predicate AllDifferencesZero(rows: seq<(real, real)>)
  {
    forall k :: 0 <= k < |rows| ==> Abs(rows[k].0 - rows[k].1) < ZeroDifference
  }

  /** One pair (a, b): always exactly one result and one log line. The test runs
      only on at least six complete rows of two distinct columns that are not all
      equal; otherwise, and on an exception, statistic and p-value stay NaN. When
      both names are the same column, `df[[c, c]]` has two columns named c,
      `data_pair[c]` is a two-column table, each of its rows of differences is an
      array, and the zero check raises ValueError on the first one. */
  function SignedRankPair(a: Column, b: Column, alpha: real, o: Oracles): (r: Outcome<SignedRankResult, SignedRankLog>)
    ensures r.first.Some? && r.second.None? && |r.lines| == 1
    ensures var res, rows := r.first.value, CompleteRows(a.cells, b.cells);
      res.variable1 == a.name && res.variable2 == b.name && res.sampleSize == |rows| &&
      (|rows| < MinSignedRankSample ==>
        res.conclusion == SkippedInsufficientData && r.lines == [SkippedInsufficientRows(a.name, b.name)]) &&
      (|rows| >= MinSignedRankSample && a.name == b.name ==>
        res.conclusion == TestError(AmbiguousTruthValue) &&
        r.lines == [SignedRankError(a.name, b.name, AmbiguousTruthValue)]) &&
      (|rows| >= MinSignedRankSample && a.name != b.name && AllDifferencesZero(rows) ==>
        res.conclusion == SkippedAllDifferencesZero && r.lines == [SkippedZeroDifferences(a.name, b.name)]) &&
      (res.statistic != NaN || res.pValue != NaN ==>
        |rows| >= MinSignedRankSample && a.name != b.name && !AllDifferencesZero(rows) &&
        o.wilcoxon(Firsts(rows), Seconds(rows)).Ok?) &&
      (res.conclusion.NoSignificantDifference? || res.conclusion.SignificantDifference? <==>
        |rows| >= MinSignedRankSample && a.name != b.name && !AllDifferencesZero(rows) &&
        o.wilcoxon(Firsts(rows), Seconds(rows)).Ok?) &&
      (res.conclusion.NoSignificantDifference? ==> Above(res.pValue, alpha))
  {
    var rows := CompleteRows(a.cells, b.cells);
    var n := |rows|;
    if n < MinSignedRankSample then
      Outcome(Some(SignedRankResult(a.name, b.name, NaN, NaN, SkippedInsufficientData, n)), None,
              [SkippedInsufficientRows(a.name, b.name)])
    else if a.name == b.name then
      Outcome(Some(SignedRankResult(a.name, b.name, NaN, NaN, TestError(AmbiguousTruthValue), n)), None,
              [SignedRankError(a.name, b.name, AmbiguousTruthValue)])
    else if AllDifferencesZero(rows) then
      Outcome(Some(SignedRankResult(a.name, b.name, NaN, NaN, SkippedAllDifferencesZero, n)), None,
              [SkippedZeroDifferences(a.name, b.name)])
    else
      match o.wilcoxon(Firsts(rows), Seconds(rows))
      case Err(e) =>
        Outcome(Some(SignedRankResult(a.name, b.name, NaN, NaN, TestError(e), n)), None,
                [SignedRankError(a.name, b.name, e)])
      case Ok((stat, p)) =>
        Outcome(Some(SignedRankResult(a.name, b.name, stat, p, Verdict(p, alpha), n)), None,
                [SignedRankPerformed(a.name, b.name, p)])
  }

  /** The pair step over the numeric columns (a pair naming no column adds nothing). */
  function Step(cols: seq<Column>, alpha: real, o: Oracles): (nat, nat) -> Outcome<SignedRankResult, SignedRankLog>
  {
    (i: nat, j: nat) => if i < |cols| && j < |cols| then SignedRankPair(cols[i], cols[j], alpha, o) else Outcome(None, None, [])
  }

  /** The pairs to test: the named pair when both names are given (None when
      either is not a numeric column), otherwise every unordered pair i < j. */
  function SelectPairs(cols: seq<Column>, var1: Option<string>, var2: Option<string>): (r: Option<seq<(nat, nat)>>)
    ensures r.Some? ==> InRange(r.value, |cols|)
    ensures var1.Some? && var2.Some? ==>
      (r.None? <==> ColumnIndex(cols, var1.value).None? || ColumnIndex(cols, var2.value).None?) &&
      (r.Some? ==> |r.value| == 1 && cols[r.value[0].0].name == var1.value && cols[r.value[0].1].name == var2.value)
    ensures !(var1.Some? && var2.Some?) ==> r == Some(UnorderedPairs(|cols|))
  {
    if var1.Some? && var2.Some? then
      match (ColumnIndex(cols, var1.value), ColumnIndex(cols, var2.value))
      case (Some(i), Some(j)) => Some([(i, j)])
      case _ => None
    else Some(UnorderedPairs(|cols|))
  }

  /** The log line after the column list: which pairs are put to the test. */
  function SelectionLine(var1: Option<string>, var2: Option<string>, ps: seq<(nat, nat)>): SignedRankLog
  {
    if var1.Some? && var2.Some? then UsingSpecifiedColumns(var1.value, var2.value) else TestingAllPairs(|ps|)
  }

  /** Runs the signed-rank test on the selected pairs of numeric columns, one
      result per pair in order; nothing when there are no numeric columns or a
      named column is missing. */
  method PerformSignedRankTests(df: Frame, var1: Option<string>, var2: Option<string>, alpha: real, o: Oracles)
    returns (results: seq<SignedRankResult>, logs: seq<SignedRankLog>)
    ensures var cols := NumericColumns(df.columns);
      (cols == [] ==> results == [] && logs == [NoNumericColumns]) &&
      (cols != [] && SelectPairs(cols, var1, var2).None? ==>
        results == [] && logs == [FoundColumns(ColumnNames(cols)), SpecifiedColumnsNotFound(var1.value, var2.value)]) &&
      (cols != [] && SelectPairs(cols, var1, var2).Some? ==>
        var ps := SelectPairs(cols, var1, var2).value;
        var c := CollectPairs(Step(cols, alpha, o),
                              Collected([], [], [FoundColumns(ColumnNames(cols)), SelectionLine(var1, var2, ps)]), ps);
        results == c.first && logs == c.logs)
  {
    var cols := NumericColumns(df.columns);
    if cols == [] {
      return [], [NoNumericColumns];
    }
    var selected := SelectPairs(cols, var1, var2);
    if selected.None? {
      return [], [FoundColumns(ColumnNames(cols)), SpecifiedColumnsNotFound(var1.value, var2.value)];
    }
    var ps := selected.value;
    var c := WalkList(Step(cols, alpha, o), ps,
                      Collected([], [], [FoundColumns(ColumnNames(cols)), SelectionLine(var1, var2, ps)]));
    results, logs := c.first, c.logs;
  }

  /** Every pair put to the test contributes exactly one result, in pair order, naming the
      pair's columns, and exactly one log line after the two opening lines. */
  lemma OneResultPerPair(cols: seq<Column>, ps: seq<(nat, nat)>, alpha: real, o: Oracles, head: seq<SignedRankLog>)
    requires InRange(ps, |cols|)
    ensures var c := CollectPairs(Step(cols, alpha, o), Collected([], [], head), ps);
      |c.first| == |ps| && |c.logs| == |head| + |ps| && c.second == [] &&
      forall k :: 0 <= k < |ps| ==>
        c.first[k].variable1 == cols[ps[k].0].name && c.first[k].variable2 == cols[ps[k].1].name
  {
    var step := Step(cols, alpha, o);
    forall k | 0 <= k < |ps|
      ensures step(ps[k].0, ps[k].1).first.Some? && step(ps[k].0, ps[k].1).second.None? && |step(ps[k].0, ps[k].1).lines| == 1
    {
      assert ps[k].0 < |cols| && ps[k].1 < |cols|;
    }
    CollectEvery(step, Collected([], [], head), ps);
  }

  /** Naming one numeric column twice, with at least six rows where it is
      present, gives a single error result, never the all-zero skip the
      differences of a column with itself would suggest. */
  lemma SameColumnTwiceErrs(df: Frame, name: string, alpha: real, o: Oracles)
    requires ColumnIndex(NumericColumns(df.columns), name).Some?
    requires var c := NumericColumns(df.columns)[ColumnIndex(NumericColumns(df.columns), name).value];
      |CompleteRows(c.cells, c.cells)| >= MinSignedRankSample
    ensures var cols := NumericColumns(df.columns);
      var c := CollectPairs(Step(cols, alpha, o), Collected([], [], [FoundColumns(ColumnNames(cols)),
                            UsingSpecifiedColumns(name, name)]), SelectPairs(cols, Some(name), Some(name)).value);
      |c.first| == 1 && c.first[0].conclusion == TestError(AmbiguousTruthValue) &&
      c.logs == [FoundColumns(ColumnNames(cols)), UsingSpecifiedColumns(name, name),
                 SignedRankError(name, name, AmbiguousTruthValue)]
  {
    var cols := NumericColumns(df.columns);
    var i := ColumnIndex(cols, name).value;
    var ps := SelectPairs(cols, Some(name), Some(name)).value;
    assert ps == [(i, i)];
    var head := [FoundColumns(ColumnNames(cols)), UsingSpecifiedColumns(name, name)];
    var step := Step(cols, alpha, o);
    assert ps[..0] == [];
    assert step(i, i) == SignedRankPair(cols[i], cols[i], alpha, o);
  }

  /** A result names two columns, `variable1` the earlier one in column order. */
  ghost predicate InColumnOrder(r: SignedRankResult, cols: seq<Column>)
  {
    exists i, j :: 0 <= i < j < |cols| && r.variable1 == cols[i].name && r.variable2 == cols[j].name
  }

  /** Without a named pair, n numeric columns give n(n - 1)/2 results, each for two
      columns in column order. */
  lemma EveryColumnPairCompared(cols: seq<Column>, alpha: real, o: Oracles, head: seq<SignedRankLog>)
    ensures var c := CollectPairs(Step(cols, alpha, o), Collected([], [], head), UnorderedPairs(|cols|));
      2 * |c.first| == |cols| * (|cols| - 1) &&
      forall k :: 0 <= k < |c.first| ==> InColumnOrder(c.first[k], cols)
  {
    var ps := UnorderedPairs(|cols|);
    UnorderedPairsFacts(|cols|);
    OneResultPerPair(cols, ps, alpha, o, head);
    var c := CollectPairs(Step(cols, alpha, o), Collected([], [], head), ps);
    NamedInColumnOrder(cols, ps, c.first);
  }

  /** Results named after the pairs, in pair order, each pair in column order,
      name two columns in column order. */
  lemma NamedInColumnOrder(cols: seq<Column>, ps: seq<(nat, nat)>, results: seq<SignedRankResult>)
    requires forall p :: p in ps ==> p.0 < p.1 < |cols|
    requires |results| == |ps|
    requires forall k :: 0 <= k < |ps| ==>
      results[k].variable1 == cols[ps[k].0].name && results[k].variable2 == cols[ps[k].1].name
    ensures forall k :: 0 <= k < |results| ==> InColumnOrder(results[k], cols)
  {
    forall k | 0 <= k < |results|
      ensures InColumnOrder(results[k], cols)
    {
      var i, j := ps[k].0, ps[k].1;
      assert ps[k] in ps;
      assert 0 <= i < j < |cols| && results[k].variable1 == cols[i].name && results[k].variable2 == cols[j].name;
    }
  }

  // ---------------------------------------------------------------------------
  // perform_mann_whitney_test (lines 111-209)
  // ---------------------------------------------------------------------------

  /** `pd.api.types.is_numeric_dtype`: integer, float and boolean columns. */
  predicate IsNumericDtype(d: DType)
  {
    d != ObjectDtype
  }

  /** `Series.unique()`: each distinct cell once, in order of first appearance
      (all missing cells count as one value). */
  function Unique(cells: seq<Cell>): (r: seq<Cell>)
    ensures forall c :: c in r <==> c in cells
    ensures forall i, j :: 0 <= i < j < |r| ==> r[i] != r[j]
    ensures |r| <= |cells|
  {
    if cells == [] then []
    else
      var rest := Unique(cells[..|cells| - 1]);
      var last := cells[|cells| - 1];
      assert cells == cells[..|cells| - 1] + [last];
      if last in rest then rest else rest + [last]
  }

  /** pandas `==` on a cell: a missing cell equals nothing, itself included. */
  predicate CellEquals(a: Cell, b: Cell)
  {
    a != Missing && a == b
  }

  /** `df[df[group] == g][value].dropna()`: the present values in the rows whose
      group cell equals `g`, in row order. */
  function GroupValues(g: Cell, groups: seq<Cell>, values: seq<Cell>): (r: seq<real>)
    ensures |r| <= |groups| && |r| <= |values|
    ensures g == Missing ==> r == []
  {
    if groups == [] || values == [] then []
    else
      var rest := GroupValues(g, groups[..|groups| - 1], values[..|values| - 1]);
      if CellEquals(groups[|groups| - 1], g) && values[|values| - 1].NumCell? then rest + [values[|values| - 1].r] else rest
  }

  /** `np.median` of a non-empty sample: the middle value in ascending order, or
      the mean of the two middle values. */
  function Median(s: seq<real>): (m: real)
    requires s != []
  {
    var t := Sort(s);
    if |t| % 2 == 1 then t[|t| / 2] else (t[|t| / 2 - 1] + t[|t| / 2]) / 2.0
  }

  /** The median lies between the smallest and the largest value of the sample. */
  lemma MedianWithinSample(s: seq<real>)
    requires s != []
    ensures exists i :: 0 <= i < |s| && s[i] <= Median(s)
    ensures exists j :: 0 <= j < |s| && Median(s) <= s[j]
  {
    var t := Sort(s);
    var lo, hi := if |t| % 2 == 1 then |t| / 2 else |t| / 2 - 1, |t| / 2;
    assert t[lo] <= Median(s) <= t[hi];
    assert t[lo] in multiset(s) && t[hi] in multiset(s) by {
      assert t[lo] in multiset(t) && t[hi] in multiset(t);
    }
    var i :| 0 <= i < |s| && s[i] == t[lo];
    var j :| 0 <= j < |s| && s[j] == t[hi];
  }

  datatype MannWhitneyResult = MannWhitneyResult(
    groupColumn: string, valueColumn: string, group1: Cell, group2: Cell,
    group1Size: nat, group2Size: nat, statistic: Stat, pValue: Stat,
    conclusion: Conclusion, medians: Option<(real, real)>)

  datatype MannWhitneyLog =
    | GroupColumnNotFound(group: string)
    | ValueColumnNotFound(value: string)
    | ValueColumnNotNumeric(value: string)
    | WrongGroupCount(found: nat, group: string)
    | MannWhitneySkipped(value: string, group: string)
    | MannWhitneyPerformed(value: string, group: string, p: Stat)
    | MannWhitneyError(value: string, group: string, message: string)

  /** The test on `value` split by the two groups of `group`. No result when
      either column is missing, the value column is not numeric or the group
      column does not hold exactly two distinct values; otherwise exactly one
      result, skipped when a group has fewer than five values, with the medians
      only after a successful test. Exactly one log line on every path. */
  function MannWhitney(df: Frame, group: string, value: string, alpha: real, o: Oracles):
    (r: (seq<MannWhitneyResult>, seq<MannWhitneyLog>))
    ensures |r.1| == 1 && |r.0| <= 1
    ensures ColumnIndex(df.columns, group).None? ==> r == ([], [GroupColumnNotFound(group)])
    ensures r.0 == [] <==>
      ColumnIndex(df.columns, group).None? || ColumnIndex(df.columns, value).None? ||
      !IsNumericDtype(df.columns[ColumnIndex(df.columns, value).value].dtype) ||
      |Unique(df.columns[ColumnIndex(df.columns, group).value].cells)| != 2
    ensures r.0 != [] ==>
      var res := r.0[0];
      var gs := df.columns[ColumnIndex(df.columns, group).value].cells;
      var vs := df.columns[ColumnIndex(df.columns, value).value].cells;
      var d1, d2 := GroupValues(res.group1, gs, vs), GroupValues(res.group2, gs, vs);
      res.groupColumn == group && res.valueColumn == value &&
      res.group1 != res.group2 && res.group1 in gs && res.group2 in gs &&
      res.group1Size == |d1| && res.group2Size == |d2| &&
      ((|d1| < MinGroupSize || |d2| < MinGroupSize) ==>
        res.conclusion == SkippedInsufficientData && res.statistic == NaN && res.pValue == NaN) &&
      (res.medians.Some? <==>
        |d1| >= MinGroupSize && |d2| >= MinGroupSize && o.mannWhitney(d1, d2).Ok?) &&
      (res.medians.Some? ==> res.medians.value == (Median(d1), Median(d2)))
  {
    match (ColumnIndex(df.columns, group), ColumnIndex(df.columns, value))
    case (None, _) => ([], [GroupColumnNotFound(group)])
    case (Some(_), None) => ([], [ValueColumnNotFound(value)])
    case (Some(gi), Some(vi)) =>
      var gs, vs := df.columns[gi].cells, df.columns[vi].cells;
      if !IsNumericDtype(df.columns[vi].dtype) then ([], [ValueColumnNotNumeric(value)])
      else
        var groups := Unique(gs);
        if |groups| != 2 then ([], [WrongGroupCount(|groups|, group)])
        else
          assert groups[0] in gs && groups[1] in gs;
          var d1, d2 := GroupValues(groups[0], gs, vs), GroupValues(groups[1], gs, vs);
          var base := MannWhitneyResult(group, value, groups[0], groups[1], |d1|, |d2|, NaN, NaN,
                                        SkippedInsufficientData, None);
          if |d1| < MinGroupSize || |d2| < MinGroupSize then
            ([base], [MannWhitneySkipped(value, group)])
          else
            match o.mannWhitney(d1, d2)
            case Err(e) =>
              ([base.(conclusion := TestError(e))], [MannWhitneyError(value, group, e)])
            case Ok((stat, p)) =>
              ([base.(statistic := stat, pValue := p, conclusion := Verdict(p, alpha),
                      medians := Some((Median(d1), Median(d2))))],
               [MannWhitneyPerformed(value, group, p)])
  }

  /** A missing group label matches no row, so its group is empty and the test
      is skipped. */
  lemma MissingGroupIsSkipped(df: Frame, group: string, value: string, alpha: real, o: Oracles)
    requires MannWhitney(df, group, value, alpha, o).0 != []
    requires MannWhitney(df, group, value, alpha, o).0[0].group1 == Missing ||
             MannWhitney(df, group, value, alpha, o).0[0].group2 == Missing
    ensures MannWhitney(df, group, value, alpha, o).0[0].conclusion == SkippedInsufficientData
    ensures MannWhitney(df, group, value, alpha, o).0[0].medians == None
  {
  }
}
