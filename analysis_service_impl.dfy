/** The Go `analysisService`: it reads the user ID from the request context,
    forwards analysis requests to the Python service over gRPC, and keeps the
    analysis history in the repository, checking that a run belongs to the user
    before showing or deleting it. The gRPC client and the repository are
    parameters (`Backend`); every call the service makes to them is recorded, in
    order, in the returned `calls`. */
module AnalysisServiceImpl {
  import opened Common
  import opened GoCommon
  import AnalysisService

  const DescriptiveStatsKey: string := "descriptive_stats"
  const NormalityTestsKey: string := "normality_tests"
  const RegressionAnalysisKey: string := "regression_analysis"

  const NoUserMessage: string := "user ID not found in context, authentication required"
  const BadUserMessage: string := "invalid user ID format in context"
  const ZeroUserMessage: string := "invalid user ID format in context (zero value)"

  /** A row of `analysis_runs`. */
  datatype AnalysisRun = AnalysisRun(
    id: int, userID: int, fileName: string, selectedAnalyses: seq<string>,
    dependentVariable: string, independentVariable: string)

  /** A row of `analysis_results`: one result type of a run and its JSON. */
  datatype ResultItem = ResultItem(resultType: string, data: seq<bv8>)

  /** The parts of the Python service's response that the service persists; each
      is a protobuf message of type `M`, or nil. */
  datatype PyResponse<M> = PyResponse(
    descriptiveStats: Option<M>, normalityTests: Option<M>, regressionAnalysis: Option<M>)

  /** The gRPC client and the repository. A nil slice of runs is `None`. */
  datatype Backend<!M> = Backend(
    analyzeData: (seq<bv8>, string, seq<string>) -> Result<PyResponse<M>, GoError>,
    getFileColumns: (seq<bv8>, string) -> Result<seq<string>, GoError>,
    /** `protojson.MarshalOptions{EmitUnpopulated: true}.Marshal`. */
    marshal: M -> Result<seq<bv8>, GoError>,
    saveRun: (int, string, seq<string>, string, string) -> Result<int, GoError>,
    saveResults: (int, map<string, seq<bv8>>) -> Option<GoError>,
    getRuns: int -> Result<Option<seq<AnalysisRun>>, GoError>,
    getResults: int -> Result<seq<ResultItem>, GoError>,
    deleteResults: int -> Option<GoError>,
    deleteRun: int -> Option<GoError>,
    /** The error `strconv.Atoi` returns for the printed context value. */
    atoiError: ContextValue -> GoError)

  /** A call to the backend, with its arguments. */
  datatype BackendCall =
    | AnalyzeDataCall(fileContent: seq<bv8>, fileName: string, selection: seq<string>)
    | GetFileColumnsCall(fileContent: seq<bv8>, fileName: string)
    | SaveRunCall(userID: int, fileName: string, selectedAnalyses: seq<string>, dependent: string, independent: string)
    | SaveResultsCall(runID: int, results: map<string, seq<bv8>>)
    | GetRunsCall(userID: int)
    | GetResultsCall(runID: int)
    | DeleteResultsCall(runID: int)
    | DeleteRunCall(runID: int)

  /** The error returned when the type switch rejects the context value; the
      zero check's text differs between `PerformAnalysis` and the two readers. */
  function UserIDError(problem: UserIDProblem, zeroMessage: string): (e: GoError)
    ensures e.code == None
    ensures problem == NotInContext ==> e.message == NoUserMessage
    ensures problem == BadFormat ==> e.message == BadUserMessage
    ensures problem == ZeroID ==> e.message == zeroMessage
  {
    match problem
    case NotInContext => Errorf(NoUserMessage)
    case BadFormat => Errorf(BadUserMessage)
    case ZeroID => Errorf(zeroMessage)
  }

  // ---------------------------------------------------------------------------
  // PerformAnalysis
  // ---------------------------------------------------------------------------

  /** The selection sent over gRPC: a copy of the caller's, then the regression
      variables, each only when non-empty, under the prefixes the Python
      service parses. */
  function Combined(selected: seq<string>, dependent: string, independent: string): (r: seq<string>)
    ensures |r| == |selected| + (if dependent != "" then 1 else 0) + (if independent != "" then 1 else 0)
    ensures r[..|selected|] == selected
    ensures dependent != "" ==> r[|selected|] == AnalysisService.DependentPrefix + dependent
    ensures independent != "" ==> r[|r| - 1] == AnalysisService.IndependentPrefix + independent
  {
    selected
    + (if dependent != "" then [AnalysisService.DependentPrefix + dependent] else [])
    + (if independent != "" then [AnalysisService.IndependentPrefix + independent] else [])
  }

  /** No entry carries either regression prefix, as after the handler's cleaning. */
  predicate Unprefixed(selected: seq<string>)
  {
    forall k :: 0 <= k < |selected| ==>
      !HasPrefix(selected[k], AnalysisService.DependentPrefix) &&
      !HasPrefix(selected[k], AnalysisService.IndependentPrefix)
  }

  lemma PrefixedEntry(prefix: string, v: string)
    ensures HasPrefix(prefix + v, prefix) && (prefix + v)[|prefix|..] == v
  {
    assert (prefix + v)[..|prefix|] == prefix;
  }

  /** `LastWithPrefix` of an unprefixed selection with one entry appended. */
  lemma LastOfAppended(selected: seq<string>, e: string, prefix: string)
    requires forall k :: 0 <= k < |selected| ==> !HasPrefix(selected[k], prefix)
    ensures AnalysisService.LastWithPrefix(selected + [e], prefix) ==
      if HasPrefix(e, prefix) then Some(e[|prefix|..]) else None
  {
    assert (selected + [e])[..|selected|] == selected;
  }

  /** The round trip with the Python service: from the combined selection of a
      cleaned selection, its parser recovers exactly the non-empty variables. */
  lemma {:induction false} CombinedRoundTrip(selected: seq<string>, dependent: string, independent: string)
    requires Unprefixed(selected)
    ensures AnalysisService.LastWithPrefix(Combined(selected, dependent, independent), AnalysisService.DependentPrefix) ==
      if dependent != "" then Some(dependent) else None
    ensures AnalysisService.LastWithPrefix(Combined(selected, dependent, independent), AnalysisService.IndependentPrefix) ==
      if independent != "" then Some(independent) else None
  {
    var dep, indep := AnalysisService.DependentPrefix, AnalysisService.IndependentPrefix;
    var withDep := selected + (if dependent != "" then [dep + dependent] else []);
    PrefixedEntry(dep, dependent);
    PrefixedEntry(indep, independent);
    AnalysisService.PrefixesExclusive(dep + dependent);
    AnalysisService.PrefixesExclusive(indep + independent);
    if dependent != "" {
      LastOfAppended(selected, dep + dependent, dep);
      LastOfAppended(selected, dep + dependent, indep);
    }
    assert forall k :: 0 <= k < |withDep| ==> !HasPrefix(withDep[k], indep) by {
      forall k | 0 <= k < |withDep| ensures !HasPrefix(withDep[k], indep) {
        if k == |selected| { assert withDep[k] == dep + dependent; }
      }
    }
    if independent != "" {
      assert Combined(selected, dependent, independent) == withDep + [indep + independent];
      LastOfAppended(withDep, indep + independent, indep);
      assert AnalysisService.LastWithPrefix(withDep + [indep + independent], dep) ==
        AnalysisService.LastWithPrefix(withDep, dep);
    } else {
      assert Combined(selected, dependent, independent) == withDep;
      assert AnalysisService.LastWithPrefix(withDep, indep) == None;
    }
  }

  /** The marshalled sub-messages to persist: each key only when its message is
      present and marshals. */
  function ToSave<M>(resp: PyResponse<M>, marshal: M -> Result<seq<bv8>, GoError>): (r: map<string, seq<bv8>>)
    ensures r.Keys <= {DescriptiveStatsKey, NormalityTestsKey, RegressionAnalysisKey}
    ensures DescriptiveStatsKey in r <==> resp.descriptiveStats.Some? && marshal(resp.descriptiveStats.value).Ok?
    ensures DescriptiveStatsKey in r ==> r[DescriptiveStatsKey] == marshal(resp.descriptiveStats.value).value
    ensures NormalityTestsKey in r <==> resp.normalityTests.Some? && marshal(resp.normalityTests.value).Ok?
    ensures NormalityTestsKey in r ==> r[NormalityTestsKey] == marshal(resp.normalityTests.value).value
    ensures RegressionAnalysisKey in r <==> resp.regressionAnalysis.Some? && marshal(resp.regressionAnalysis.value).Ok?
    ensures RegressionAnalysisKey in r ==> r[RegressionAnalysisKey] == marshal(resp.regressionAnalysis.value).value
  {
    var d := Marshalled(map[], DescriptiveStatsKey, resp.descriptiveStats, marshal);
    var n := Marshalled(d, NormalityTestsKey, resp.normalityTests, marshal);
    Marshalled(n, RegressionAnalysisKey, resp.regressionAnalysis, marshal)
  }

  /** One `if msg != nil` block: adds the marshalled message under `key`. */
  function Marshalled<M>(m: map<string, seq<bv8>>, key: string, msg: Option<M>, marshal: M -> Result<seq<bv8>, GoError>): map<string, seq<bv8>>
  {
    if msg.Some? && marshal(msg.value).Ok? then m[key := marshal(msg.value).value] else m
  }

  /** Lines 99-132: the three blocks filling `resultsToSave`. */
  method CollectResults<M>(resp: PyResponse<M>, marshal: M -> Result<seq<bv8>, GoError>) returns (results: map<string, seq<bv8>>)
    ensures results == ToSave(resp, marshal)
  {
    results := map[];
    if resp.descriptiveStats.Some? {
      var json := marshal(resp.descriptiveStats.value);
      if json.Ok? {
        results := results[DescriptiveStatsKey := json.value];
      }
    }
    if resp.normalityTests.Some? {
      var json := marshal(resp.normalityTests.value);
      if json.Ok? {
        results := results[NormalityTestsKey := json.value];
      }
    }
    if resp.regressionAnalysis.Some? {
      var json := marshal(resp.regressionAnalysis.value);
      if json.Ok? {
        results := results[RegressionAnalysisKey := json.value];
      }
    }
  }

  /** Runs an analysis for the user in the context. It fails before any call
      when the user ID is unusable; it sends the combined selection, and fails
      with the wrapped gRPC error (keeping its status) when the call fails; it
      records the run with the caller's own selection and variables, and fails
      only if that fails; it then saves the marshalled parts when there are any
      and returns the Python response whatever that save returns. */
  method PerformAnalysis<M>(ctx: ContextValue, fileName: string, fileContent: seq<bv8>, selected: seq<string>,
                            dependent: string, independent: string, b: Backend<M>)
    returns (result: Result<PyResponse<M>, GoError>, calls: seq<BackendCall>)
    ensures CoerceUserID(ctx).Err? ==>
      result == Err(UserIDError(CoerceUserID(ctx).error, BadUserMessage)) && calls == []
    ensures CoerceUserID(ctx).Ok? ==>
      var analyze := AnalyzeDataCall(fileContent, fileName, Combined(selected, dependent, independent));
      match b.analyzeData(fileContent, fileName, Combined(selected, dependent, independent))
      case Err(e) =>
        result == Err(Wrap("python analysis service call failed: ", e)) && calls == [analyze]
      case Ok(resp) =>
        var save := SaveRunCall(CoerceUserID(ctx).value, fileName, selected, dependent, independent);
        match b.saveRun(CoerceUserID(ctx).value, fileName, selected, dependent, independent)
        case Err(e) =>
          result == Err(Wrap("failed to save analysis run metadata: ", e)) && calls == [analyze, save]
        case Ok(runID) =>
          result == Ok(resp) &&
          calls == [analyze, save] +
            (if ToSave(resp, b.marshal) == map[] then [] else [SaveResultsCall(runID, ToSave(resp, b.marshal))])
  {
    var userID := CoerceUserID(ctx);
    if userID.Err? {
      return Err(UserIDError(userID.error, BadUserMessage)), [];
    }
    var combined := CombineSelection(selected, dependent, independent);
    calls := [AnalyzeDataCall(fileContent, fileName, combined)];
    var response := b.analyzeData(fileContent, fileName, combined);
    if response.Err? {
      return Err(Wrap("python analysis service call failed: ", response.error)), calls;
    }
    var saved;
    result, saved := RecordRun(userID.value, fileName, selected, dependent, independent, response.value, b);
    calls := calls + saved;
  }

  /** Lines 76-83: copies the selection and appends the prefixed variables. */
  method CombineSelection(selected: seq<string>, dependent: string, independent: string) returns (combined: seq<string>)
    ensures combined == Combined(selected, dependent, independent)
  {
    combined := selected;
    if dependent != "" {
      combined := combined + [AnalysisService.DependentPrefix + dependent];
    }
    if independent != "" {
      combined := combined + [AnalysisService.IndependentPrefix + independent];
    }
  }

  /** Lines 93-143, after a successful gRPC call: records the run, then saves
      the marshalled parts when there are any, ignoring the outcome of that save. */
  method RecordRun<M>(userID: int, fileName: string, selected: seq<string>, dependent: string, independent: string,
                      resp: PyResponse<M>, b: Backend<M>)
    returns (result: Result<PyResponse<M>, GoError>, calls: seq<BackendCall>)
    ensures var save := SaveRunCall(userID, fileName, selected, dependent, independent);
      match b.saveRun(userID, fileName, selected, dependent, independent)
      case Err(e) => result == Err(Wrap("failed to save analysis run metadata: ", e)) && calls == [save]
      case Ok(runID) =>
        result == Ok(resp) &&
        calls == [save] + (if ToSave(resp, b.marshal) == map[] then [] else [SaveResultsCall(runID, ToSave(resp, b.marshal))])
  {
    calls := [SaveRunCall(userID, fileName, selected, dependent, independent)];
    var runID := b.saveRun(userID, fileName, selected, dependent, independent);
    if runID.Err? {
      return Err(Wrap("failed to save analysis run metadata: ", runID.error)), calls;
    }
    var results := CollectResults(resp, b.marshal);
    if |results| > 0 {
      calls := calls + [SaveResultsCall(runID.value, results)];
      var ignored := b.saveResults(runID.value, results);
    }
    result := Ok(resp);
  }

  /** `GetFileColumns`: the client's columns or its error, unchanged. */
  method GetFileColumns<M>(fileContent: seq<bv8>, fileName: string, b: Backend<M>)
    returns (result: Result<seq<string>, GoError>, calls: seq<BackendCall>)
    ensures result == b.getFileColumns(fileContent, fileName)
    ensures calls == [GetFileColumnsCall(fileContent, fileName)]
  {
    calls := [GetFileColumnsCall(fileContent, fileName)];
    result := b.getFileColumns(fileContent, fileName);
  }

  // ---------------------------------------------------------------------------
  // History and results
  // ---------------------------------------------------------------------------

  /** The user's runs, nil included, or the wrapped repository error. */
  method GetUserAnalysisHistory<M>(ctx: ContextValue, b: Backend<M>)
    returns (result: Result<Option<seq<AnalysisRun>>, GoError>, calls: seq<BackendCall>)
    ensures CoerceUserID(ctx).Err? ==> result == Err(UserIDError(CoerceUserID(ctx).error, ZeroUserMessage)) && calls == []
    ensures CoerceUserID(ctx).Ok? ==>
      var u := CoerceUserID(ctx).value;
      calls == [GetRunsCall(u)] &&
      match b.getRuns(u)
      case Err(e) => result == Err(Wrap("failed to get analysis runs for user " + Itoa(u) + " from repository: ", e))
      case Ok(runs) => result == Ok(runs)
  {
    var userID := CoerceUserID(ctx);
    if userID.Err? {
      return Err(UserIDError(userID.error, ZeroUserMessage)), [];
    }
    calls := [GetRunsCall(userID.value)];
    var runs := b.getRuns(userID.value);
    if runs.Err? {
      return Err(Wrap("failed to get analysis runs for user " + Itoa(userID.value) + " from repository: ", runs.error)), calls;
    }
    result := Ok(runs.value);
  }

  /** Some run in the (possibly nil) list has the ID. */
  predicate Owns(runs: Option<seq<AnalysisRun>>, runID: int)
  {
    runs.Some? && exists k :: 0 <= k < |runs.value| && runs.value[k].id == runID
  }

  /** The loop setting `belongsToUser` (and `found` in `DeleteAnalysisRun`). */
  method FindRun(runs: Option<seq<AnalysisRun>>, runID: int) returns (found: bool)
    ensures found <==> Owns(runs, runID)
  {
    found := false;
    if runs.None? {
      return;
    }
    var list := runs.value;
    var k := 0;
    while k < |list|
      invariant 0 <= k <= |list|
      invariant forall m :: 0 <= m < k ==> list[m].id != runID
    {
      if list[k].id == runID {
        found := true;
        break;
      }
      k := k + 1;
    }
  }

  /** The map built from the result rows: each result type once, holding the
      data of its last row. */
  function ResultsMap(items: seq<ResultItem>): map<string, seq<bv8>>
  {
    if items == [] then map[]
    else ResultsMap(items[..|items| - 1])[items[|items| - 1].resultType := items[|items| - 1].data]
  }

  /** The row whose data the map holds for `t`: the last row of that type. */
  predicate LastRowOfType(items: seq<ResultItem>, t: string, k: int)
  {
    0 <= k < |items| && items[k].resultType == t && forall j :: k < j < |items| ==> items[j].resultType != t
  }

  /** The map has exactly the result types of the rows as keys. */
  lemma {:induction false} ResultsMapKeys(items: seq<ResultItem>)
    ensures forall t :: t in ResultsMap(items) <==> exists k :: 0 <= k < |items| && items[k].resultType == t
  {
    if items != [] {
      var n := |items| - 1;
      ResultsMapKeys(items[..n]);
      assert forall k :: 0 <= k < n ==> items[k] == items[..n][k];
    }
  }

  /** Each key holds the data of the last row of that type. */
  lemma {:induction false} ResultsMapLastRowWins(items: seq<ResultItem>, t: string)
    requires t in ResultsMap(items)
    ensures exists k :: LastRowOfType(items, t, k) && ResultsMap(items)[t] == items[k].data
  {
    var n := |items| - 1;
    if items[n].resultType == t {
      assert LastRowOfType(items, t, n);
    } else {
      ResultsMapLastRowWins(items[..n], t);
      var k :| LastRowOfType(items[..n], t, k) && ResultsMap(items[..n])[t] == items[..n][k].data;
      assert LastRowOfType(items, t, k);
    }
  }

  /** The loop at lines 280-283, later rows overwriting earlier ones. */
  method BuildResultsMap(items: seq<ResultItem>) returns (m: map<string, seq<bv8>>)
    ensures m == ResultsMap(items)
  {
    m := map[];
    for k := 0 to |items|
      invariant m == ResultsMap(items[..k])
    {
      assert items[..k + 1][..k] == items[..k];
      m := m[items[k].resultType := items[k].data];
    }
    assert items[..|items|] == items;
  }

  /** The results of a run, only when the run is among the user's runs;
      otherwise access is denied and the results are never read. No rows give
      an empty map. */
  method GetAnalysisRunResults<M>(ctx: ContextValue, runID: int, b: Backend<M>)
    returns (result: Result<map<string, seq<bv8>>, GoError>, calls: seq<BackendCall>)
    ensures CoerceUserID(ctx).Err? ==> result == Err(UserIDError(CoerceUserID(ctx).error, ZeroUserMessage)) && calls == []
    ensures CoerceUserID(ctx).Ok? ==>
      var u := CoerceUserID(ctx).value;
      match b.getRuns(u)
      case Err(e) =>
        result == Err(Wrap("failed to verify access rights for analysis run " + Itoa(runID) + ": ", e)) &&
        calls == [GetRunsCall(u)]
      case Ok(runs) =>
        if !Owns(runs, runID) then
          result == Err(Errorf("access denied: analysis run " + Itoa(runID) + " does not belong to current user")) &&
          calls == [GetRunsCall(u)]
        else
          calls == [GetRunsCall(u), GetResultsCall(runID)] &&
          match b.getResults(runID)
          case Err(e) => result == Err(Wrap("failed to retrieve results for analysis run " + Itoa(runID) + ": ", e))
          case Ok(items) => result == Ok(ResultsMap(items))
  {
    var userID := CoerceUserID(ctx);
    if userID.Err? {
      return Err(UserIDError(userID.error, ZeroUserMessage)), [];
    }
    calls := [GetRunsCall(userID.value)];
    var runs := b.getRuns(userID.value);
    if runs.Err? {
      return Err(Wrap("failed to verify access rights for analysis run " + Itoa(runID) + ": ", runs.error)), calls;
    }
    var belongsToUser := FindRun(runs.value, runID);
    if !belongsToUser {
      return Err(Errorf("access denied: analysis run " + Itoa(runID) + " does not belong to current user")), calls;
    }
    calls := calls + [GetResultsCall(runID)];
    var items := b.getResults(runID);
    if items.Err? {
      return Err(Wrap("failed to retrieve results for analysis run " + Itoa(runID) + ": ", items.error)), calls;
    }
    if |items.value| == 0 {
      return Ok(map[]), calls;
    }
    var m := BuildResultsMap(items.value);
    result := Ok(m);
  }

  // ---------------------------------------------------------------------------
  // DeleteAnalysisRun
  // ---------------------------------------------------------------------------

  /** Deletes a run of the user's: its results first, then the run; the first
      failing step ends the call. The user ID is read as
      `strconv.Atoi(fmt.Sprint(v))`, which, unlike the type switch, lets 0 through. */
  method DeleteAnalysisRun<M>(ctx: ContextValue, runID: int, b: Backend<M>)
    returns (err: Option<GoError>, calls: seq<BackendCall>)
    ensures ctx.Absent? ==> err == Some(Errorf("missing user ID in context")) && calls == []
    ensures !ctx.Absent? && AtoiSprint(ctx).None? ==>
      err == Some(Wrap("invalid user ID format: ", b.atoiError(ctx))) && calls == []
    ensures !ctx.Absent? && AtoiSprint(ctx).Some? ==>
      var u := AtoiSprint(ctx).value;
      match b.getRuns(u)
      case Err(e) => err == Some(Wrap("failed to get user analysis runs: ", e)) && calls == [GetRunsCall(u)]
      case Ok(runs) =>
        if !Owns(runs, runID) then
          err == Some(Errorf("access denied: analysis run #" + Itoa(runID) + " does not belong to current user")) &&
          calls == [GetRunsCall(u)]
        else if b.deleteResults(runID).Some? then
          err == Some(Wrap("failed to delete analysis results: ", b.deleteResults(runID).value)) &&
          calls == [GetRunsCall(u), DeleteResultsCall(runID)]
        else
          calls == [GetRunsCall(u), DeleteResultsCall(runID), DeleteRunCall(runID)] &&
          err == (if b.deleteRun(runID).Some? then Some(Wrap("failed to delete analysis run: ", b.deleteRun(runID).value)) else None)
  {
    if ctx.Absent? {
      return Some(Errorf("missing user ID in context")), [];
    }
    var userID := AtoiSprint(ctx);
    if userID.None? {
      return Some(Wrap("invalid user ID format: ", b.atoiError(ctx))), [];
    }
    calls := [GetRunsCall(userID.value)];
    var runs := b.getRuns(userID.value);
    if runs.Err? {
      return Some(Wrap("failed to get user analysis runs: ", runs.error)), calls;
    }
    var found := FindRun(runs.value, runID);
    if !found {
      return Some(Errorf("access denied: analysis run #" + Itoa(runID) + " does not belong to current user")), calls;
    }
    calls := calls + [DeleteResultsCall(runID)];
    var failed := b.deleteResults(runID);
    if failed.Some? {
      return Some(Wrap("failed to delete analysis results: ", failed.value)), calls;
    }
    calls := calls + [DeleteRunCall(runID)];
    failed := b.deleteRun(runID);
    if failed.Some? {
      return Some(Wrap("failed to delete analysis run: ", failed.value)), calls;
    }
    err := None;
  }
}
