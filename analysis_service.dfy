/** `AnalysisService.analyze_data`: runs the analyses named in the request's
    selection over the loaded dataset and copies the dictionaries the analysis
    ports return into the response entities, reading absent and NaN numbers as
    0.0. The loader and the analysis ports are parameters that may raise. */
module AnalysisService {
  import opened Common
  import opened AnalysisRecords

  const DescriptiveStatsKey: string := "descriptive_stats"
  const NormalityTestKey: string := "normality_test"
  const RegressionKey: string := "regression"
  const DependentPrefix: string := "regression_dependent:"
  const IndependentPrefix: string := "regression_independent:"

  // ---------------------------------------------------------------------------
  // The regression variables carried in the selection
  // ---------------------------------------------------------------------------

  /** The suffix after `prefix` of the last entry starting with it, if any. */
  function LastWithPrefix(entries: seq<string>, prefix: string): (r: Option<string>)
    ensures r.Some? ==>
      exists k :: (0 <= k < |entries| && entries[k] == prefix + r.value &&
                   forall m :: k < m < |entries| ==> !HasPrefix(entries[m], prefix))
    ensures r.None? <==> forall k :: 0 <= k < |entries| ==> !HasPrefix(entries[k], prefix)
  {
    if entries == [] then None
    else
      var n := |entries| - 1;
      if HasPrefix(entries[n], prefix) then
        assert entries[n] == prefix + entries[n][|prefix|..];
        Some(entries[n][|prefix|..])
      else
        var r := LastWithPrefix(entries[..n], prefix);
        assert forall k :: 0 <= k < n ==> entries[k] == entries[..n][k];
        if r.Some? then
          var k :| (0 <= k < n && entries[..n][k] == prefix + r.value &&
                    forall m :: k < m < n ==> !HasPrefix(entries[..n][m], prefix));
          assert entries[k] == prefix + r.value;
          r
        else
          r
  }

  /** No selection entry starts with both prefixes. */
  lemma PrefixesExclusive(s: string)
    ensures !(HasPrefix(s, DependentPrefix) && HasPrefix(s, IndependentPrefix))
  {
    if HasPrefix(s, DependentPrefix) {
      assert s[11] == s[..|DependentPrefix|][11] == 'd';
    }
  }

  /** The loop over the selection at lines 159-163: each entry starting with a
      prefix overwrites that variable, so the last one wins. */
  method ParseRegressionVars(selection: seq<string>) returns (dependent: Option<string>, independent: Option<string>)
    ensures dependent == LastWithPrefix(selection, DependentPrefix)
    ensures independent == LastWithPrefix(selection, IndependentPrefix)
  {
    dependent, independent := None, None;
    for k := 0 to |selection|
      invariant dependent == LastWithPrefix(selection[..k], DependentPrefix)
      invariant independent == LastWithPrefix(selection[..k], IndependentPrefix)
    {
      var entry := selection[k];
      assert selection[..k + 1][..k] == selection[..k];
      PrefixesExclusive(entry);
      if HasPrefix(entry, DependentPrefix) {
        dependent := Some(entry[|DependentPrefix|..]);
      } else if HasPrefix(entry, IndependentPrefix) {
        independent := Some(entry[|IndependentPrefix|..]);
      }
    }
    assert selection[..|selection|] == selection;
  }

  // ---------------------------------------------------------------------------
  // analyze_data
  // ---------------------------------------------------------------------------

  datatype Request = Request(fileContent: seq<bv8>, fileName: string, selectedAnalyses: seq<string>)

  /** The loader and the analysis ports; `Err` is an exception they raise. */
  datatype Ports = Ports(
    load: (seq<bv8>, string) -> Result<(Option<Frame>, seq<string>), string>,
    descriptive: Frame -> Result<(seq<Dict>, seq<Dict>, seq<string>), string>,
    normality: Frame -> Result<(seq<Dict>, seq<string>), string>,
    chiSquare: Frame -> Result<(seq<Dict>, seq<string>), string>,
    confidence: Frame -> Result<(seq<Dict>, seq<string>), string>,
    regression: (Frame, Option<string>, Option<string>) -> Result<(seq<RegressionRecord>, seq<string>), string>)

  function PortLogs(lines: seq<string>): (r: seq<LogLine>)
    ensures |r| == |lines| && forall k :: 0 <= k < |lines| ==> r[k] == PortLog(lines[k])
  {
    seq(|lines|, k requires 0 <= k < |lines| => PortLog(lines[k]))
  }

  /** A response or a part of one, and whether an exception ended the `try` block. */
  datatype Progress = Progress(response: Response, aborted: bool)

  function Empty(log: seq<LogLine>): Response
  {
    Response(log, [], [], [], [], [], [])
  }

  /** `r` with every list of `d` appended to the matching list of `r`. */
  function Append(r: Response, d: Response): Response
  {
    Response(r.log + d.log, r.descriptives + d.descriptives, r.histograms + d.histograms,
             r.normalityTests + d.normalityTests, r.confidenceIntervals + d.confidenceIntervals,
             r.chiSquareResults + d.chiSquareResults, r.regressions + d.regressions)
  }

  /** No log line reports an exception. */
  predicate NoErrors(log: seq<LogLine>)
  {
    forall k :: 0 <= k < |log| ==> !log[k].AnalysisError?
  }

  /** An exception is reported by the last line only, and by it exactly when the
      run was aborted. */
  predicate Closed(pr: Progress)
  {
    var log := pr.response.log;
    if pr.aborted then |log| > 0 && log[|log| - 1].AnalysisError? && NoErrors(log[..|log| - 1])
    else NoErrors(log)
  }

  /** The exception a port raised, as the `except` clause logs it. */
  function Raised(log: seq<LogLine>, e: string): Progress
  {
    Progress(Empty(log + [AnalysisError(e)]), true)
  }

  /** What the descriptive block adds: the port's lines, the statistics and the
      histograms. */
  function DescriptiveOutput(df: Frame, p: Ports): (o: Progress)
    ensures Closed(o)
    ensures o.response.normalityTests == [] && o.response.confidenceIntervals == [] &&
            o.response.chiSquareResults == [] && o.response.regressions == []
  {
    match p.descriptive(df)
    case Err(e) => Raised([], e)
    case Ok((stats, hists, logs)) =>
      Progress(Response(PortLogs(logs), Map(stats, ToDescriptive), Map(hists, ToHistogram), [], [], [], []), false)
  }

  /** What the normality block adds: the Shapiro-Wilk results, then the
      chi-square results; an exception in the chi-square call keeps the first. */
  function NormalityOutput(df: Frame, p: Ports): (o: Progress)
    ensures Closed(o)
    ensures o.response.descriptives == [] && o.response.histograms == [] &&
            o.response.confidenceIntervals == [] && o.response.regressions == []
  {
    match p.normality(df)
    case Err(e) => Raised([], e)
    case Ok((tests, logs)) =>
      match p.chiSquare(df)
      case Err(e) =>
        var log := PortLogs(logs) + [AnalysisError(e)];
        assert log[..|log| - 1] == PortLogs(logs);
        Progress(Response(log, [], [], Map(tests, ToNormality), [], [], []), true)
      case Ok((chis, chiLogs)) =>
        NoErrorsConcat(PortLogs(logs), PortLogs(chiLogs));
        Progress(Response(PortLogs(logs) + PortLogs(chiLogs), [], [], Map(tests, ToNormality), [],
                          Map(chis, ToChiSquare), []), false)
  }

  lemma MapCons<A, B>(x: A, xs: seq<A>, f: A -> B)
    ensures Map([x] + xs, f) == [f(x)] + Map(xs, f)
  {
    assert forall k :: 0 < k < |xs| + 1 ==> ([x] + xs)[k] == xs[k - 1];
  }

  /** The chi-square copy loop as written: each record's degrees of freedom go
      through `int()`, and the first record on which it raises ends the loop,
      after the records before it were appended. */
  function CopyChiSquareAsWritten(chis: seq<Dict>): (seq<ChiSquareResult>, Option<string>)
  {
    if chis == [] then ([], None)
    else
      match DegreesOfFreedomAsWritten(chis[0])
      case Err(e) => ([], Some(e))
      case Ok(_) =>
        var rest := CopyChiSquareAsWritten(chis[1..]);
        ([ToChiSquare(chis[0])] + rest.0, rest.1)
  }

  /** The position of the first record whose degrees of freedom `int()`
      rejects, or the number of records when there is none. */
  function FirstUnconvertible(chis: seq<Dict>): (i: nat)
    ensures i <= |chis|
    ensures forall j :: 0 <= j < i ==> DegreesOfFreedomAsWritten(chis[j]).Ok?
    ensures i < |chis| ==> DegreesOfFreedomAsWritten(chis[i]).Err?
  {
    if chis == [] || DegreesOfFreedomAsWritten(chis[0]).Err? then 0
    else
      var i := FirstUnconvertible(chis[1..]);
      assert forall j :: 0 < j < |chis| ==> chis[j] == chis[1..][j - 1];
      1 + i
  }

  /** The loop keeps the converted records before the first one it cannot
      convert, and raises exactly when there is such a record. */
  lemma {:induction false} CopyChiSquareStops(chis: seq<Dict>)
    ensures var i := FirstUnconvertible(chis);
      CopyChiSquareAsWritten(chis).0 == Map(chis[..i], ToChiSquare) &&
      (CopyChiSquareAsWritten(chis).1.Some? <==> i < |chis|)
  {
    if chis == [] || DegreesOfFreedomAsWritten(chis[0]).Err? {
      assert chis[..0] == [];
    } else {
      var tail := chis[1..];
      CopyChiSquareStops(tail);
      var i := FirstUnconvertible(tail);
      assert chis[..i + 1] == [chis[0]] + tail[..i];
      MapCons(chis[0], tail[..i], ToChiSquare);
    }
  }

  /** The normality block as written: when both ports return and a chi-square
      record has degrees of freedom `int()` rejects, the copy loop raises there,
      the exception is logged last, and only the records before it are kept;
      otherwise the block is the one above. */
  function NormalityOutputAsWritten(df: Frame, p: Ports): (o: Progress)
    ensures Closed(o)
    ensures o.response.descriptives == [] && o.response.histograms == [] &&
            o.response.confidenceIntervals == [] && o.response.regressions == []
  {
    if p.normality(df).Ok? && p.chiSquare(df).Ok? && CopyChiSquareAsWritten(p.chiSquare(df).value.0).1.Some? then
      var (tests, logs) := p.normality(df).value;
      var (chis, chiLogs) := p.chiSquare(df).value;
      var (copied, raised) := CopyChiSquareAsWritten(chis);
      var log := PortLogs(logs) + PortLogs(chiLogs) + [AnalysisError(raised.value)];
      assert log[..|log| - 1] == PortLogs(logs) + PortLogs(chiLogs);
      NoErrorsConcat(PortLogs(logs), PortLogs(chiLogs));
      Progress(Response(log, [], [], Map(tests, ToNormality), [], copied, []), true)
    else
      NormalityOutput(df, p)
  }

  function ConfidenceOutput(df: Frame, p: Ports): (o: Progress)
    ensures Closed(o)
    ensures o.response.descriptives == [] && o.response.histograms == [] && o.response.normalityTests == [] &&
            o.response.chiSquareResults == [] && o.response.regressions == []
  {
    match p.confidence(df)
    case Err(e) => Raised([], e)
    case Ok((cis, logs)) => Progress(Response(PortLogs(logs), [], [], [], Map(cis, ToConfidence), [], []), false)
  }

  /** The regression block: the variables are read from the selection. */
  function RegressionOutput(df: Frame, selection: seq<string>, p: Ports): (o: Progress)
    ensures Closed(o)
    ensures o.response.descriptives == [] && o.response.histograms == [] && o.response.normalityTests == [] &&
            o.response.confidenceIntervals == [] && o.response.chiSquareResults == []
  {
    match p.regression(df, LastWithPrefix(selection, DependentPrefix), LastWithPrefix(selection, IndependentPrefix))
    case Err(e) => Raised([], e)
    case Ok((regs, logs)) => Progress(Response(PortLogs(logs), [], [], [], [], [], Map(regs, ToRegression)), false)
  }

  /** Adds a block's output when `run` holds and nothing has raised yet. */
  function Then(pr: Progress, run: bool, o: Progress): Progress
  {
    if pr.aborted || !run then pr else Progress(Append(pr.response, o.response), o.aborted)
  }

  /** The four blocks in order, over a loaded frame; an exception skips the rest. */
  function Blocks(r: Response, df: Frame, selected: set<string>, selection: seq<string>, p: Ports): Progress
  {
    BlocksWith(r, df, selected, selection, p, NormalityOutput(df, p))
  }

  /** The four blocks, given what the normality block adds. */
  function BlocksWith(r: Response, df: Frame, selected: set<string>, selection: seq<string>, p: Ports,
                      normality: Progress): Progress
  {
    var pr := Then(Progress(r, false), DescriptiveStatsKey in selected, DescriptiveOutput(df, p));
    var pr := Then(pr, NormalityTestKey in selected, normality);
    var pr := Then(pr, DescriptiveStatsKey in selected, ConfidenceOutput(df, p));
    Then(pr, RegressionKey in selected, RegressionOutput(df, selection, p))
  }

  /** `set(request.selected_analyses)`. */
  function Selected(req: Request): (s: set<string>)
    ensures forall a :: a in s <==> a in req.selectedAnalyses
  {
    set a | a in req.selectedAnalyses
  }

  /** The response before the blocks: the selection, the loader's lines and the
      warning for an empty selection. */
  function Opening(selected: set<string>, loadLogs: seq<string>): Response
  {
    Empty([SelectedAnalyses(selected)] + PortLogs(loadLogs) + (if selected == {} then [NoSelectionWarning] else []))
  }

  /** What `analyze_data` returns. */
  function Analyze(req: Request, p: Ports): Response
  {
    var selected := Selected(req);
    match p.load(req.fileContent, req.fileName)
    case Err(e) => Raised([SelectedAnalyses(selected)], e).response
    case Ok((None, loadLogs)) => Empty([SelectedAnalyses(selected)] + PortLogs(loadLogs))
    case Ok((Some(df), loadLogs)) => Blocks(Opening(selected, loadLogs), df, selected, req.selectedAnalyses, p).response
  }

  // ---------------------------------------------------------------------------
  // What analyze_data promises
  // ---------------------------------------------------------------------------

  lemma NoErrorsConcat(a: seq<LogLine>, b: seq<LogLine>)
    requires NoErrors(a) && NoErrors(b)
    ensures NoErrors(a + b)
  {
  }

  lemma PortLogsHaveNoErrors(lines: seq<string>)
    ensures NoErrors(PortLogs(lines))
  {
  }

  /** Adding a closed block to a run that has not raised keeps it closed and keeps
      its log as a prefix. */
  lemma ThenFacts(pr: Progress, run: bool, o: Progress)
    requires Closed(pr) && Closed(o)
    ensures Closed(Then(pr, run, o)) && pr.response.log <= Then(pr, run, o).response.log
  {
    if !pr.aborted && run {
      var a, b := pr.response.log, o.response.log;
      if o.aborted {
        assert (a + b)[..|a + b| - 1] == a + b[..|b| - 1];
        NoErrorsConcat(a, b[..|b| - 1]);
      } else {
        NoErrorsConcat(a, b);
      }
    }
  }

  /** The blocks append after the opening, report an exception by the last line
      only, and fill a list only when the block owning it is selected. */
  lemma BlocksFacts(r: Response, df: Frame, selected: set<string>, selection: seq<string>, p: Ports)
    requires NoErrors(r.log)
    ensures var pr := Blocks(r, df, selected, selection, p);
      Closed(pr) && r.log <= pr.response.log &&
      (DescriptiveStatsKey !in selected ==>
        pr.response.descriptives == r.descriptives && pr.response.histograms == r.histograms &&
        pr.response.confidenceIntervals == r.confidenceIntervals) &&
      (NormalityTestKey !in selected ==>
        pr.response.normalityTests == r.normalityTests && pr.response.chiSquareResults == r.chiSquareResults) &&
      (RegressionKey !in selected ==> pr.response.regressions == r.regressions)
  {
    BlocksClosed(r, df, selected, selection, p);
    BlocksKeepUnselected(r, df, selected, selection, p);
  }

  /** The blocks keep the log closed and only append to it. */
  lemma BlocksClosed(r: Response, df: Frame, selected: set<string>, selection: seq<string>, p: Ports)
    requires NoErrors(r.log)
    ensures var pr := Blocks(r, df, selected, selection, p);
      Closed(pr) && r.log <= pr.response.log
  {
    var pr1 := Then(Progress(r, false), DescriptiveStatsKey in selected, DescriptiveOutput(df, p));
    ThenFacts(Progress(r, false), DescriptiveStatsKey in selected, DescriptiveOutput(df, p));
    var pr2 := Then(pr1, NormalityTestKey in selected, NormalityOutput(df, p));
    ThenFacts(pr1, NormalityTestKey in selected, NormalityOutput(df, p));
    var pr3 := Then(pr2, DescriptiveStatsKey in selected, ConfidenceOutput(df, p));
    ThenFacts(pr2, DescriptiveStatsKey in selected, ConfidenceOutput(df, p));
    ThenFacts(pr3, RegressionKey in selected, RegressionOutput(df, selection, p));
  }

  /** A block that is not selected leaves its result lists as they were. */
  lemma BlocksKeepUnselected(r: Response, df: Frame, selected: set<string>, selection: seq<string>, p: Ports)
    ensures var resp := Blocks(r, df, selected, selection, p).response;
      (DescriptiveStatsKey !in selected ==>
        resp.descriptives == r.descriptives && resp.histograms == r.histograms &&
        resp.confidenceIntervals == r.confidenceIntervals) &&
      (NormalityTestKey !in selected ==>
        resp.normalityTests == r.normalityTests && resp.chiSquareResults == r.chiSquareResults) &&
      (RegressionKey !in selected ==> resp.regressions == r.regressions)
  {
  }


  /** The first log line is the selection, followed by the loader's lines. */
  lemma SelectionLoggedFirst(req: Request, p: Ports)
    ensures var resp, loaded := Analyze(req, p), p.load(req.fileContent, req.fileName);
      |resp.log| > 0 && resp.log[0] == SelectedAnalyses(Selected(req)) &&
      (loaded.Ok? ==> resp.log[1..1 + |loaded.value.1|] == PortLogs(loaded.value.1))
  {
    var selected := Selected(req);
    match p.load(req.fileContent, req.fileName)
    case Err(e) =>
    case Ok((None, loadLogs)) =>
    case Ok((Some(df), loadLogs)) =>
      var r := Opening(selected, loadLogs);
      PortLogsHaveNoErrors(loadLogs);
      NoErrorsConcat([SelectedAnalyses(selected)], PortLogs(loadLogs));
      BlocksFacts(r, df, selected, req.selectedAnalyses, p);
      var log := Analyze(req, p).log;
      assert log[1..1 + |loadLogs|] == r.log[1..1 + |loadLogs|];
  }

  /** An exception is reported once, by the last log line. */
  lemma ErrorLoggedLast(req: Request, p: Ports)
    ensures var log := Analyze(req, p).log;
      forall k :: 0 <= k < |log| - 1 ==> !log[k].AnalysisError?
  {
    var selected := Selected(req);
    match p.load(req.fileContent, req.fileName)
    case Err(e) =>
      ClosedErrorLast(Raised([SelectedAnalyses(selected)], e));
    case Ok((None, loadLogs)) =>
      PortLogsHaveNoErrors(loadLogs);
      NoErrorsConcat([SelectedAnalyses(selected)], PortLogs(loadLogs));
      ClosedErrorLast(Progress(Empty([SelectedAnalyses(selected)] + PortLogs(loadLogs)), false));
    case Ok((Some(df), loadLogs)) =>
      OpeningHasNoErrors(selected, loadLogs);
      BlocksClosed(Opening(selected, loadLogs), df, selected, req.selectedAnalyses, p);
      ClosedErrorLast(Blocks(Opening(selected, loadLogs), df, selected, req.selectedAnalyses, p));
  }

  /** In a closed log only the last line can report an exception. */
  lemma ClosedErrorLast(pr: Progress)
    requires Closed(pr)
    ensures var log := pr.response.log;
      forall k :: 0 <= k < |log| - 1 ==> !log[k].AnalysisError?
  {
    var log := pr.response.log;
    forall k | 0 <= k < |log| - 1 ensures !log[k].AnalysisError? {
      assert log[k] == log[..|log| - 1][k];
    }
  }

  /** Without a frame no analysis runs: a loader exception leaves the selection
      and the error, a frame-less load the selection and the loader's lines. */
  lemma NoFrameNoAnalysis(req: Request, p: Ports)
    ensures var resp, loaded := Analyze(req, p), p.load(req.fileContent, req.fileName);
      (loaded.Err? ==> resp == Empty([SelectedAnalyses(Selected(req)), AnalysisError(loaded.error)])) &&
      (loaded.Ok? && loaded.value.0.None? ==> resp == Empty([SelectedAnalyses(Selected(req))] + PortLogs(loaded.value.1)))
  {
  }

  /** Each list is filled only when its analysis was selected: the confidence
      intervals ride with the descriptive statistics, the chi-square results
      with the normality test. */
  lemma SelectionGatesLists(req: Request, p: Ports)
    ensures var resp := Analyze(req, p);
      (resp.descriptives != [] || resp.histograms != [] || resp.confidenceIntervals != [] ==>
        DescriptiveStatsKey in req.selectedAnalyses) &&
      (resp.normalityTests != [] || resp.chiSquareResults != [] ==> NormalityTestKey in req.selectedAnalyses) &&
      (resp.regressions != [] ==> RegressionKey in req.selectedAnalyses)
  {
    var selected := Selected(req);
    match p.load(req.fileContent, req.fileName)
    case Err(e) =>
    case Ok((None, loadLogs)) =>
    case Ok((Some(df), loadLogs)) =>
      PortLogsHaveNoErrors(loadLogs);
      NoErrorsConcat([SelectedAnalyses(selected)], PortLogs(loadLogs));
      BlocksFacts(Opening(selected, loadLogs), df, selected, req.selectedAnalyses, p);
  }

  /** When the file loads and every selected port returns, nothing is reported as
      an exception. */
  lemma NoExceptionNoErrorLine(req: Request, p: Ports, df: Frame)
    requires p.load(req.fileContent, req.fileName).Ok? && p.load(req.fileContent, req.fileName).value.0 == Some(df)
    requires p.descriptive(df).Ok? && p.normality(df).Ok? && p.chiSquare(df).Ok?
    requires p.confidence(df).Ok? && p.regression(df, LastWithPrefix(req.selectedAnalyses, DependentPrefix),
                                                  LastWithPrefix(req.selectedAnalyses, IndependentPrefix)).Ok?
    ensures NoErrors(Analyze(req, p).log)
  {
    var selected := Selected(req);
    var loadLogs := p.load(req.fileContent, req.fileName).value.1;
    PortLogsHaveNoErrors(loadLogs);
    NoErrorsConcat([SelectedAnalyses(selected)], PortLogs(loadLogs));
    BlocksFacts(Opening(selected, loadLogs), df, selected, req.selectedAnalyses, p);
  }

  /** When the file loads and the ports of the two blocks return, the
      descriptive statistics and the confidence intervals are exactly the
      converted records whenever `descriptive_stats` is selected, and the
      Shapiro-Wilk and chi-square results whenever `normality_test` is. */
  lemma SelectedBlocksReported(req: Request, p: Ports, df: Frame)
    requires p.load(req.fileContent, req.fileName).Ok? && p.load(req.fileContent, req.fileName).value.0 == Some(df)
    requires p.descriptive(df).Ok? && p.normality(df).Ok? && p.chiSquare(df).Ok? && p.confidence(df).Ok?
    ensures var resp := Analyze(req, p);
      resp.descriptives == (if DescriptiveStatsKey in req.selectedAnalyses then Map(p.descriptive(df).value.0, ToDescriptive) else []) &&
      resp.confidenceIntervals == (if DescriptiveStatsKey in req.selectedAnalyses then Map(p.confidence(df).value.0, ToConfidence) else []) &&
      resp.normalityTests == (if NormalityTestKey in req.selectedAnalyses then Map(p.normality(df).value.0, ToNormality) else []) &&
      resp.chiSquareResults == (if NormalityTestKey in req.selectedAnalyses then Map(p.chiSquare(df).value.0, ToChiSquare) else [])
  {
    var selected := Selected(req);
    var loadLogs := p.load(req.fileContent, req.fileName).value.1;
    OpeningHasNoErrors(selected, loadLogs);
    var r := Opening(selected, loadLogs);
    assert Analyze(req, p) == Blocks(r, df, selected, req.selectedAnalyses, p).response;
    BlocksFacts(r, df, selected, req.selectedAnalyses, p);
    BlocksReported(r, df, selected, req.selectedAnalyses, p);
  }

  lemma OpeningHasNoErrors(selected: set<string>, loadLogs: seq<string>)
    ensures NoErrors(Opening(selected, loadLogs).log)
  {
    PortLogsHaveNoErrors(loadLogs);
    NoErrorsConcat([SelectedAnalyses(selected)], PortLogs(loadLogs));
  }

  /** From an opening with empty result lists, a successful selected block
      reports exactly what its port returned. */
  lemma BlocksReported(r: Response, df: Frame, selected: set<string>, selection: seq<string>, p: Ports)
    requires NoErrors(r.log)
    requires r.descriptives == [] && r.confidenceIntervals == [] && r.normalityTests == [] && r.chiSquareResults == []
    requires p.descriptive(df).Ok? && p.normality(df).Ok? && p.chiSquare(df).Ok? && p.confidence(df).Ok?
    ensures var resp := Blocks(r, df, selected, selection, p).response;
      (DescriptiveStatsKey in selected ==>
        resp.descriptives == Map(p.descriptive(df).value.0, ToDescriptive) &&
        resp.confidenceIntervals == Map(p.confidence(df).value.0, ToConfidence)) &&
      (NormalityTestKey in selected ==>
        resp.normalityTests == Map(p.normality(df).value.0, ToNormality) &&
        resp.chiSquareResults == Map(p.chiSquare(df).value.0, ToChiSquare))
  {
  }

  /** An exception in the chi-square call is logged last and ends the run: the
      confidence intervals and the regressions are not computed, while the
      statistics and Shapiro-Wilk results gathered before it stay. */
  lemma ChiSquareExceptionEndsRun(req: Request, p: Ports, df: Frame)
    requires p.load(req.fileContent, req.fileName).Ok? && p.load(req.fileContent, req.fileName).value.0 == Some(df)
    requires NormalityTestKey in req.selectedAnalyses
    requires p.normality(df).Ok? && p.chiSquare(df).Err?
    requires DescriptiveStatsKey in req.selectedAnalyses ==> p.descriptive(df).Ok?
    ensures var resp := Analyze(req, p);
      resp.log[|resp.log| - 1] == AnalysisError(p.chiSquare(df).error) &&
      resp.normalityTests == Map(p.normality(df).value.0, ToNormality) &&
      resp.chiSquareResults == [] && resp.confidenceIntervals == [] && resp.regressions == []
  {
  }

  /** When the descriptive block (if selected) and both normality ports return,
      the corrected run reports every chi-square record the port returned. */
  lemma BlocksKeepChiSquare(r: Response, df: Frame, selected: set<string>, selection: seq<string>, p: Ports)
    requires r.chiSquareResults == [] && NormalityTestKey in selected
    requires DescriptiveStatsKey in selected ==> p.descriptive(df).Ok?
    requires p.normality(df).Ok? && p.chiSquare(df).Ok?
    ensures Blocks(r, df, selected, selection, p).response.chiSquareResults == Map(p.chiSquare(df).value.0, ToChiSquare)
  {
  }

  /** As written, a chi-square record whose degrees of freedom `int()` rejects
      ends the run: the exception is logged last, the confidence intervals and
      the regressions are never computed, and fewer chi-square results are
      reported than the corrected run reports. */
  lemma UnconvertibleDofEndsRun(req: Request, p: Ports, df: Frame, k: nat)
    requires p.load(req.fileContent, req.fileName).Ok? && p.load(req.fileContent, req.fileName).value.0 == Some(df)
    requires NormalityTestKey in req.selectedAnalyses
    requires DescriptiveStatsKey in req.selectedAnalyses ==> p.descriptive(df).Ok?
    requires p.normality(df).Ok? && p.chiSquare(df).Ok?
    requires k < |p.chiSquare(df).value.0| && DegreesOfFreedomAsWritten(p.chiSquare(df).value.0[k]).Err?
    ensures var selected, loadLogs := Selected(req), p.load(req.fileContent, req.fileName).value.1;
      var pr := BlocksWith(Opening(selected, loadLogs), df, selected, req.selectedAnalyses, p,
                           NormalityOutputAsWritten(df, p));
      pr.aborted && |pr.response.log| > 0 && pr.response.log[|pr.response.log| - 1].AnalysisError? &&
      pr.response.confidenceIntervals == [] && pr.response.regressions == [] &&
      |pr.response.chiSquareResults| <= k < |Analyze(req, p).chiSquareResults|
  {
    var chis := p.chiSquare(df).value.0;
    CopyChiSquareStops(chis);
    assert FirstUnconvertible(chis) <= k;
    var selected, loadLogs := Selected(req), p.load(req.fileContent, req.fileName).value.1;
    OpeningHasNoErrors(selected, loadLogs);
    BlocksKeepChiSquare(Opening(selected, loadLogs), df, selected, req.selectedAnalyses, p);
  }

  // ---------------------------------------------------------------------------
  // The imperative run
  // ---------------------------------------------------------------------------

  /** Appends `f` of every element of `xs` to `acc`, one at a time, as the
      `for ... in ...: response.x.append(...)` loops do. */
  method AppendAll<A, B>(acc: seq<B>, xs: seq<A>, f: A -> B) returns (r: seq<B>)
    ensures r == acc + Map(xs, f)
  {
    r := acc;
    for k := 0 to |xs|
      invariant r == acc + Map(xs[..k], f)
    {
      assert Map(xs[..k + 1], f) == Map(xs[..k], f) + [f(xs[k])];
      r := r + [f(xs[k])];
    }
    assert xs[..|xs|] == xs;
  }

  /** The descriptive-statistics call and its two copy loops. */
  method RunDescriptive(r: Response, df: Frame, p: Ports) returns (pr: Progress)
    ensures pr == Then(Progress(r, false), true, DescriptiveOutput(df, p))
  {
    var out := p.descriptive(df);
    if out.Err? {
      return Progress(r.(log := r.log + [AnalysisError(out.error)]), true);
    }
    var (stats, hists, logs) := out.value;
    var descriptives := AppendAll(r.descriptives, stats, ToDescriptive);
    var histograms := AppendAll(r.histograms, hists, ToHistogram);
    pr := Progress(r.(log := r.log + PortLogs(logs), descriptives := descriptives, histograms := histograms), false);
  }

  /** The normality call, then the chi-square call in the same block. */
  method RunNormality(r: Response, df: Frame, p: Ports) returns (pr: Progress)
    ensures pr == Then(Progress(r, false), true, NormalityOutput(df, p))
  {
    var out := p.normality(df);
    if out.Err? {
      return Progress(r.(log := r.log + [AnalysisError(out.error)]), true);
    }
    var (tests, logs) := out.value;
    var normalityTests := AppendAll(r.normalityTests, tests, ToNormality);
    var r1 := r.(log := r.log + PortLogs(logs), normalityTests := normalityTests);
    var chi := p.chiSquare(df);
    if chi.Err? {
      return Progress(r1.(log := r1.log + [AnalysisError(chi.error)]), true);
    }
    var (chis, chiLogs) := chi.value;
    var chiSquareResults := AppendAll(r1.chiSquareResults, chis, ToChiSquare);
    pr := Progress(r1.(log := r1.log + PortLogs(chiLogs), chiSquareResults := chiSquareResults), false);
  }

  method RunConfidence(r: Response, df: Frame, p: Ports) returns (pr: Progress)
    ensures pr == Then(Progress(r, false), true, ConfidenceOutput(df, p))
  {
    var out := p.confidence(df);
    if out.Err? {
      return Progress(r.(log := r.log + [AnalysisError(out.error)]), true);
    }
    var (cis, logs) := out.value;
    var confidenceIntervals := AppendAll(r.confidenceIntervals, cis, ToConfidence);
    pr := Progress(r.(log := r.log + PortLogs(logs), confidenceIntervals := confidenceIntervals), false);
  }

  /** Reads the regression variables from the selection, then calls the port. */
  method RunRegression(r: Response, df: Frame, selection: seq<string>, p: Ports) returns (pr: Progress)
    ensures pr == Then(Progress(r, false), true, RegressionOutput(df, selection, p))
  {
    var dependent, independent := ParseRegressionVars(selection);
    var out := p.regression(df, dependent, independent);
    if out.Err? {
      return Progress(r.(log := r.log + [AnalysisError(out.error)]), true);
    }
    var (regs, logs) := out.value;
    var regressions := AppendAll(r.regressions, regs, ToRegression);
    pr := Progress(r.(log := r.log + PortLogs(logs), regressions := regressions), false);
  }

  /** Runs the selected blocks in order and stops at the first exception. */
  method RunBlocks(r: Response, df: Frame, selected: set<string>, selection: seq<string>, p: Ports)
    returns (pr: Progress)
    ensures pr == Blocks(r, df, selected, selection, p)
  {
    pr := Progress(r, false);
    if DescriptiveStatsKey in selected {
      pr := RunDescriptive(pr.response, df, p);
    }
    if !pr.aborted && NormalityTestKey in selected {
      pr := RunNormality(pr.response, df, p);
    }
    if !pr.aborted && DescriptiveStatsKey in selected {
      pr := RunConfidence(pr.response, df, p);
    }
    if !pr.aborted && RegressionKey in selected {
      pr := RunRegression(pr.response, df, selection, p);
    }
  }

  /** `analyze_data`: logs the selection, loads the file, then runs each selected
      block in turn; the first exception is logged and ends the run, keeping what
      the earlier blocks added. */
  method AnalyzeData(req: Request, p: Ports) returns (response: Response)
    ensures response == Analyze(req, p)
  {
    var selected := Selected(req);
    response := Empty([SelectedAnalyses(selected)]);
    var loaded := p.load(req.fileContent, req.fileName);
    if loaded.Err? {
      response := response.(log := response.log + [AnalysisError(loaded.error)]);
      return;
    }
    var (frame, loadLogs) := loaded.value;
    response := response.(log := response.log + PortLogs(loadLogs));
    if frame.None? {
      return;
    }
    if selected == {} {
      response := response.(log := response.log + [NoSelectionWarning]);
    }
    assert response == Opening(selected, loadLogs);
    var pr := RunBlocks(response, frame.value, selected, req.selectedAnalyses, p);
    response := pr.response;
  }
}
