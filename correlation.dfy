/** Pearson and Spearman correlations over every unordered pair of numeric
    columns (`calculate_correlations`). Both coefficients are parameters; what is
    modelled is the pair enumeration, the gates before computing, the entries each
    pair contributes, the significance flag and the logs. */
module Correlation {
  import opened Common
  import opened Pairs
  import opened PairCollect

  /** A correlation needs at least three complete rows. */
  const MinRows: nat := 3

  datatype Oracles = Oracles(
    /** `stats.pearsonr`: (coefficient, p-value), or the text of its exception. */
    pearson: (seq<real>, seq<real>) -> Result<(Stat, Stat), string>,
    /** `stats.spearmanr`: (coefficient, p-value), or the text of its exception. */
    spearman: (seq<real>, seq<real>) -> Result<(Stat, Stat), string>)

  datatype Entry = Entry(variable1: string, variable2: string, coefficient: Stat, pValue: Stat, significant: bool)

  datatype Correlations = Correlations(pearson: seq<Entry>, spearman: seq<Entry>)

  datatype CorrelationLog =
    | NotEnoughColumns
    | FoundColumns(count: nat, names: seq<string>)
    | SkippedInsufficientData(a: string, b: string, rows: nat)
    | SkippedZeroVariance(a: string, b: string)
    | PearsonCalculated(a: string, b: string)
    | SpearmanCalculated(a: string, b: string)
    | CorrelationError(a: string, b: string, message: string)
    | NoCorrelations

  /** The entry for one coefficient: significant exactly when the p-value is a
      number below alpha, so a NaN p-value is never significant. */
  function MakeEntry(a: string, b: string, stat: (Stat, Stat), alpha: real): (e: Entry)
    ensures e.variable1 == a && e.variable2 == b && e.coefficient == stat.0 && e.pValue == stat.1
    ensures e.significant <==> stat.1.Num? && stat.1.v < alpha
    ensures stat.1 == NaN ==> !e.significant
  {
    Entry(a, b, stat.0, stat.1, Below(stat.1, alpha))
  }

  /** What one pair adds: at most one Pearson entry (`first`), at most one
      Spearman entry (`second`) and its log lines. */
  type PairOutcome = Outcome<Entry, CorrelationLog>

  /** One pair (a, b): skipped with fewer than three complete rows or a constant
      column; otherwise Pearson, then Spearman, where an exception stops the pair
      but keeps what was already appended. */
  function CorrelatePair(a: Column, b: Column, alpha: real, o: Oracles): PairOutcome
  {
    var rows := CompleteRows(a.cells, b.cells);
    if |rows| < MinRows then Outcome(None, None, [SkippedInsufficientData(a.name, b.name, |rows|)])
    else
      var xs, ys := Firsts(rows), Seconds(rows);
      if SampleVariance(xs) == Num(0.0) || SampleVariance(ys) == Num(0.0) then
        Outcome(None, None, [SkippedZeroVariance(a.name, b.name)])
      else
        match o.pearson(xs, ys)
        case Err(e) => Outcome(None, None, [CorrelationError(a.name, b.name, e)])
        case Ok(p) =>
          var pe := MakeEntry(a.name, b.name, p, alpha);
          match o.spearman(xs, ys)
          case Err(e) => Outcome(Some(pe), None, [PearsonCalculated(a.name, b.name), CorrelationError(a.name, b.name, e)])
          case Ok(s) =>
            Outcome(Some(pe), Some(MakeEntry(a.name, b.name, s, alpha)),
                        [PearsonCalculated(a.name, b.name), SpearmanCalculated(a.name, b.name)])
  }

  /** What one pair adds: at most one entry to each list and never a Spearman
      entry without a Pearson one; one log line, or two once Pearson succeeded;
      nothing but a skip line below three complete rows; entries name the pair. */
  lemma CorrelatePairFacts(a: Column, b: Column, alpha: real, o: Oracles)
    ensures var r := CorrelatePair(a, b, alpha, o);
      (r.second.Some? ==> r.first.Some?) &&
      1 <= |r.lines| <= 2 &&
      (r.first.None? ==> |r.lines| == 1) &&
      (|CompleteRows(a.cells, b.cells)| < MinRows ==>
        r == Outcome(None, None, [SkippedInsufficientData(a.name, b.name, |CompleteRows(a.cells, b.cells)|)])) &&
      (r.first.Some? ==>
        r.first.value.variable1 == a.name && r.first.value.variable2 == b.name &&
        r.lines[0] == PearsonCalculated(a.name, b.name)) &&
      (r.second.Some? ==>
        r.second.value.variable1 == a.name && r.second.value.variable2 == b.name &&
        r.lines == [PearsonCalculated(a.name, b.name), SpearmanCalculated(a.name, b.name)])
  {
  }

  /** A pair with enough rows is skipped for zero variance exactly when one of
      its columns is constant over the complete rows. */
  lemma ZeroVarianceGate(a: Column, b: Column, alpha: real, o: Oracles)
    requires |CompleteRows(a.cells, b.cells)| >= MinRows
    ensures CorrelatePair(a, b, alpha, o).lines == [SkippedZeroVariance(a.name, b.name)] <==>
      Constant(Firsts(CompleteRows(a.cells, b.cells))) || Constant(Seconds(CompleteRows(a.cells, b.cells)))
  {
    var rows := CompleteRows(a.cells, b.cells);
    VarianceZeroIffConstant(Firsts(rows));
    VarianceZeroIffConstant(Seconds(rows));
  }

  /** The pair step over the numeric columns `cols` (a pair naming no column adds nothing). */
  function Step(cols: seq<Column>, alpha: real, o: Oracles): (nat, nat) -> PairOutcome
  {
    (i: nat, j: nat) => if i < |cols| && j < |cols| then CorrelatePair(cols[i], cols[j], alpha, o) else Outcome(None, None, [])
  }

  /** An entry names two columns, `variable1` the earlier one in column order. */
  ghost predicate InColumnOrder(e: Entry, cols: seq<Column>)
  {
    exists i, j :: 0 <= i < j < |cols| && e.variable1 == cols[i].name && e.variable2 == cols[j].name
  }

  /** Over the unordered pairs there are at most n(n - 1)/2 entries of each kind,
      never more Spearman than Pearson entries, and every entry names two
      columns, `variable1` the earlier one in column order. */
  lemma EntriesInColumnOrder(cols: seq<Column>, alpha: real, o: Oracles)
    ensures var c := CollectPairs(Step(cols, alpha, o), Collected([], [], []), UnorderedPairs(|cols|));
      2 * |c.first| <= |cols| * (|cols| - 1) && |c.second| <= |c.first| &&
      forall e :: e in c.first + c.second ==> InColumnOrder(e, cols)
  {
    var ps, step := UnorderedPairs(|cols|), Step(cols, alpha, o);
    var c := CollectPairs(step, Collected([], [], []), ps);
    UnorderedPairsFacts(|cols|);
    StepsInColumnOrder(cols, alpha, o, ps);
    CollectCounts(step, Collected([], [], []), ps);
    CollectedInColumnOrder(step, cols, ps);
  }

  /** When every visited pair's entries name two columns in column order, so
      does every collected entry. */
  lemma {:induction false} CollectedInColumnOrder(step: (nat, nat) -> PairOutcome, cols: seq<Column>, ps: seq<(nat, nat)>)
    requires forall k :: 0 <= k < |ps| ==> OutcomeInColumnOrder(step(ps[k].0, ps[k].1), cols)
    ensures var c := CollectPairs(step, Collected([], [], []), ps);
      forall e :: e in c.first + c.second ==> InColumnOrder(e, cols)
  {
    if ps != [] {
      var init, last := ps[..|ps| - 1], ps[|ps| - 1];
      CollectedInColumnOrder(step, cols, init);
      var acc, out := CollectPairs(step, Collected([], [], []), init), step(last.0, last.1);
      assert OutcomeInColumnOrder(out, cols);
      var c := CollectPairs(step, Collected([], [], []), ps);
      assert c.first + c.second == acc.first + Opt(out.first) + (acc.second + Opt(out.second));
      forall e | e in c.first + c.second ensures InColumnOrder(e, cols) {
        assert e in acc.first + acc.second || e in Opt(out.first) || e in Opt(out.second);
      }
    }
  }

  /** Both entries of an outcome, when present, name two columns in column order. */
  ghost predicate OutcomeInColumnOrder(out: PairOutcome, cols: seq<Column>)
  {
    (out.first.Some? ==> InColumnOrder(out.first.value, cols)) &&
    (out.second.Some? ==> InColumnOrder(out.second.value, cols))
  }

  /** Each step on a pair in column order is shaped and names that pair. */
  lemma StepsInColumnOrder(cols: seq<Column>, alpha: real, o: Oracles, ps: seq<(nat, nat)>)
    requires forall p :: p in ps ==> p.0 < p.1 < |cols|
    ensures forall k :: 0 <= k < |ps| ==> Shaped(Step(cols, alpha, o)(ps[k].0, ps[k].1))
    ensures forall k :: 0 <= k < |ps| ==> OutcomeInColumnOrder(Step(cols, alpha, o)(ps[k].0, ps[k].1), cols)
  {
    forall k | 0 <= k < |ps|
      ensures Shaped(Step(cols, alpha, o)(ps[k].0, ps[k].1))
      ensures OutcomeInColumnOrder(Step(cols, alpha, o)(ps[k].0, ps[k].1), cols)
    {
      var i, j := ps[k].0, ps[k].1;
      assert ps[k] in ps;
      CorrelatePairFacts(cols[i], cols[j], alpha, o);
      assert Step(cols, alpha, o)(i, j) == CorrelatePair(cols[i], cols[j], alpha, o);
    }
  }

  /** Correlates every unordered pair of the numeric columns `cols`. Returns no
      output when there are fewer than two columns or when no pair produced an
      entry; the log holds the column count, each pair's lines and a closing line
      when nothing was calculated. */
  method CorrelateColumns(cols: seq<Column>, alpha: real, o: Oracles)
    returns (output: Option<Correlations>, logs: seq<CorrelationLog>)
    ensures |cols| < 2 ==> output == None && logs == [NotEnoughColumns]
    ensures |cols| >= 2 ==>
      var c := CollectPairs(Step(cols, alpha, o), Collected([], [], [FoundColumns(|cols|, ColumnNames(cols))]), UnorderedPairs(|cols|));
      var nothing := c.first == [] && c.second == [];
      output == (if nothing then None else Some(Correlations(c.first, c.second))) &&
      logs == c.logs + (if nothing then [NoCorrelations] else [])
  {
    var n := |cols|;
    if n < 2 {
      return None, [NotEnoughColumns];
    }
    var c := WalkPairs(Step(cols, alpha, o), n, Collected([], [], [FoundColumns(n, ColumnNames(cols))]));
    var pearson, spearman := c.first, c.second;
    logs := c.logs;
    if pearson == [] && spearman == [] {
      logs := logs + [NoCorrelations];
      return None, logs;
    }
    output := Some(Correlations(pearson, spearman));
  }

  /** `calculate_correlations`: the pairs range over the frame's numeric columns, in frame order. */
  method CalculateCorrelations(df: Frame, alpha: real, o: Oracles)
    returns (output: Option<Correlations>, logs: seq<CorrelationLog>)
    ensures var cols := NumericColumns(df.columns);
      (|cols| < 2 ==> output == None && logs == [NotEnoughColumns]) &&
      (|cols| >= 2 ==>
        var c := CollectPairs(Step(cols, alpha, o), Collected([], [], [FoundColumns(|cols|, ColumnNames(cols))]), UnorderedPairs(|cols|));
        var nothing := c.first == [] && c.second == [];
        output == (if nothing then None else Some(Correlations(c.first, c.second))) &&
        logs == c.logs + (if nothing then [NoCorrelations] else []))
  {
    output, logs := CorrelateColumns(NumericColumns(df.columns), alpha, o);
  }
}
