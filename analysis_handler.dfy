/** The Go `AnalysisHandler`: the HTTP endpoints in front of the analysis
    service. Each handler turns the request into a service call and the
    outcome into a status code and a JSON body. The service (nil or not) and
    the protobuf JSON marshaller are parameters; the context that carries the
    user ID is inside the service's functions. */
module AnalysisHandler {
  import opened Common
  import opened GoCommon
  import AnalysisService
  import opened AnalysisServiceImpl

  const StatusOK: int := 200
  const StatusBadRequest: int := 400
  const StatusNotFound: int := 404
  const StatusInternalServerError: int := 500
  const StatusGatewayTimeout: int := 504

  const ServiceNotAvailable: string := "Internal server error: service not available"
  const MissingRegressionVariables: string := "For regression analysis, both dependent and independent variables must be specified"
  const ConnectionFailed: string := "Internal server error connecting to analysis service"

  datatype Body =
    | ErrorBody(error: string)
    | JsonBytes(json: seq<bv8>)
    | ColumnsBody(columns: seq<string>)
    | RunsBody(runs: seq<AnalysisRun>)
    | ResultsBody(results: map<string, seq<bv8>>)

  datatype HttpResponse = HttpResponse(status: int, body: Body)

  /** The services.AnalysisService interface, as seen from the handler. */
  datatype Service<!M> = Service(
    performAnalysis: (string, seq<bv8>, seq<string>, string, string) -> Result<M, GoError>,
    getFileColumns: (seq<bv8>, string) -> Result<seq<string>, GoError>,
    getUserAnalysisHistory: () -> Result<Option<seq<AnalysisRun>>, GoError>,
    getAnalysisRunResults: int -> Result<map<string, seq<bv8>>, GoError>)

  datatype FileError = OpenError(message: string) | ReadError(message: string)

  /** The uploaded file: its name, and its bytes or the error opening or reading it. */
  datatype Upload = Upload(fileName: string, content: Result<seq<bv8>, FileError>)

  /** A multipart form: the `file` part or the error getting it, and the values of
      each text field. */
  datatype Form = Form(file: Result<Upload, string>, fields: map<string, seq<string>>)

  /** `c.PostFormArray(key)`: every value of the field, none when absent. */
  function PostFormArray(form: Form, key: string): seq<string>
  {
    if key in form.fields then form.fields[key] else []
  }

  /** `c.PostForm(key)`: the first value of the field, "" when absent. */
  function PostForm(form: Form, key: string): (v: string)
    ensures v != "" ==> key in form.fields && form.fields[key] != [] && v == form.fields[key][0]
  {
    if key in form.fields && form.fields[key] != [] then form.fields[key][0] else ""
  }

  /** The arguments the handler passes to `PerformAnalysis`. */
  datatype AnalysisCall = AnalysisCall(
    fileName: string, fileContent: seq<bv8>, selected: seq<string>, dependent: string, independent: string)

  // ---------------------------------------------------------------------------
  // Cleaning the selection (lines 91-102)
  // ---------------------------------------------------------------------------

  /** An entry the cleaning keeps: "regression", or one without a regression prefix. */
  predicate Kept(entry: string)
  {
    entry == AnalysisService.RegressionKey ||
    (!HasPrefix(entry, AnalysisService.DependentPrefix) && !HasPrefix(entry, AnalysisService.IndependentPrefix))
  }

  /** The kept entries, in order. */
  function Cleaned(selected: seq<string>): (r: seq<string>)
    ensures |r| <= |selected|
    ensures forall k :: 0 <= k < |r| ==> r[k] in selected && Kept(r[k])
  {
    if selected == [] then []
    else
      var n := |selected| - 1;
      var rest := Cleaned(selected[..n]);
      assert forall x :: x in selected[..n] ==> x in selected;
      if Kept(selected[n]) then rest + [selected[n]] else rest
  }

  /** The cleaning keeps exactly the kept entries: none is lost, and none of
      the others is let through. */
  lemma {:induction false} CleanedKeepsExactly(selected: seq<string>, entry: string)
    ensures entry in Cleaned(selected) <==> entry in selected && Kept(entry)
  {
    if selected != [] {
      var n := |selected| - 1;
      CleanedKeepsExactly(selected[..n], entry);
      assert selected == selected[..n] + [selected[n]];
    }
  }

  /** A cleaned selection carries no regression prefix, so the Python service
      recovers the regression variables exactly as the handler forwards them. */
  lemma ForwardedVariablesReachPython(selected: seq<string>, dependent: string, independent: string)
    ensures var combined := Combined(Cleaned(selected), dependent, independent);
      AnalysisService.LastWithPrefix(combined, AnalysisService.DependentPrefix) == (if dependent != "" then Some(dependent) else None) &&
      AnalysisService.LastWithPrefix(combined, AnalysisService.IndependentPrefix) == (if independent != "" then Some(independent) else None)
  {
    var cleaned := Cleaned(selected);
    forall k | 0 <= k < |cleaned|
      ensures !HasPrefix(cleaned[k], AnalysisService.DependentPrefix) && !HasPrefix(cleaned[k], AnalysisService.IndependentPrefix)
    {
      if cleaned[k] == AnalysisService.RegressionKey {
        assert |cleaned[k]| < |AnalysisService.DependentPrefix|;
      }
    }
    CombinedRoundTrip(cleaned, dependent, independent);
  }

  /** The loop: the cleaned selection, and whether "regression" was selected. */
  method CleanSelection(selected: seq<string>) returns (cleaned: seq<string>, isRegressionSelected: bool)
    ensures cleaned == Cleaned(selected)
    ensures isRegressionSelected <==> AnalysisService.RegressionKey in selected
  {
    cleaned, isRegressionSelected := [], false;
    for k := 0 to |selected|
      invariant cleaned == Cleaned(selected[..k])
      invariant isRegressionSelected <==> AnalysisService.RegressionKey in selected[..k]
    {
      var analysis := selected[k];
      assert selected[..k + 1] == selected[..k] + [analysis];
      if analysis == AnalysisService.RegressionKey {
        isRegressionSelected := true;
        cleaned := cleaned + [analysis];
      } else if !HasPrefix(analysis, AnalysisService.DependentPrefix) && !HasPrefix(analysis, AnalysisService.IndependentPrefix) {
        cleaned := cleaned + [analysis];
      }
    }
    assert selected[..|selected|] == selected;
  }

  // ---------------------------------------------------------------------------
  // HandleAnalyzeData
  // ---------------------------------------------------------------------------

  /** The response for a failed `PerformAnalysis`: a gRPC status of the caller's
      making (invalid argument, failed precondition) is a 400 with the status
      message, a timeout a 504, any other status a 500, and an error without a
      status a 500 of its own. */
  function AnalysisErrorResponse(e: GoError): (r: HttpResponse)
    ensures r.status == StatusBadRequest <==> e.code == Some(InvalidArgument) || e.code == Some(FailedPrecondition)
    ensures r.status == StatusBadRequest ==> r.body == ErrorBody(e.statusMessage)
    ensures r.status == StatusGatewayTimeout <==> e.code == Some(DeadlineExceeded)
    ensures r.status == StatusInternalServerError <==> e.code.None? || e.code.value.OtherCode?
    ensures e.code.None? ==> r.body == ErrorBody(ConnectionFailed)
  {
    match e.code
    case Some(InvalidArgument) => HttpResponse(StatusBadRequest, ErrorBody(e.statusMessage))
    case Some(FailedPrecondition) => HttpResponse(StatusBadRequest, ErrorBody(e.statusMessage))
    case Some(DeadlineExceeded) => HttpResponse(StatusGatewayTimeout, ErrorBody("Analysis request timed out"))
    case Some(OtherCode(_)) => HttpResponse(StatusInternalServerError, ErrorBody("Internal server error during analysis"))
    case None => HttpResponse(StatusInternalServerError, ErrorBody(ConnectionFailed))
  }

  /** The status the Python service reports survives the service's wrapping:
      the handler answers as it would for the bare status. */
  lemma WrappedStatusKeepsResponse(prefix: string, e: GoError)
    ensures AnalysisErrorResponse(Wrap(prefix, e)).status == AnalysisErrorResponse(e).status
  {
  }

  /** An unusable user ID in the context carries no gRPC status, so the handler
      reports it as a failure to reach the analysis service. */
  lemma UserIDErrorIsServerError(problem: UserIDProblem)
    ensures AnalysisErrorResponse(UserIDError(problem, BadUserMessage)) ==
      HttpResponse(StatusInternalServerError, ErrorBody(ConnectionFailed))
  {
  }

  /** The response for an opened upload: the file's bytes or the error. */
  function FileErrorResponse(e: FileError): (r: HttpResponse)
    ensures r.status == StatusInternalServerError
  {
    match e
    case OpenError(m) => HttpResponse(StatusInternalServerError, ErrorBody("Error opening uploaded file: " + m))
    case ReadError(m) => HttpResponse(StatusInternalServerError, ErrorBody("Error reading file content: " + m))
  }

  /** The regression variables read from the form: both only when "regression"
      is selected, "" otherwise. */
  function RegressionVariables(form: Form): (string, string)
  {
    if AnalysisService.RegressionKey in PostFormArray(form, "selected_analyses") then
      (PostForm(form, "dependent_variable"), PostForm(form, "independent_variable"))
    else ("", "")
  }

  /** "regression" is selected and a regression variable is empty. */
  predicate MissingRegressionVariable(form: Form)
  {
    AnalysisService.RegressionKey in PostFormArray(form, "selected_analyses") &&
    (RegressionVariables(form).0 == "" || RegressionVariables(form).1 == "")
  }

  /** `POST /api/analyze`. Without a service: 500. Without a file part: 400.
      With "regression" selected and a regression variable missing: 400, before
      the file is opened. Otherwise the service is called once with the cleaned
      selection, and its error becomes the status of `AnalysisErrorResponse`,
      its response the JSON body of a 200. */
  method HandleAnalyzeData<M>(service: Option<Service<M>>, form: Form, marshal: M -> Result<seq<bv8>, string>)
    returns (response: HttpResponse, call: Option<AnalysisCall>)
    ensures service.None? ==> response == HttpResponse(StatusInternalServerError, ErrorBody(ServiceNotAvailable)) && call == None
    ensures service.Some? && form.file.Err? ==>
      response == HttpResponse(StatusBadRequest, ErrorBody("Error getting file from form: " + form.file.error)) && call == None
    ensures service.Some? && form.file.Ok? && MissingRegressionVariable(form) ==>
      response == HttpResponse(StatusBadRequest, ErrorBody(MissingRegressionVariables)) && call == None
    ensures call.Some? ==>
      var (dependent, independent) := RegressionVariables(form);
      service.Some? && form.file.Ok? && form.file.value.content.Ok? &&
      call.value == AnalysisCall(form.file.value.fileName, form.file.value.content.value,
                                 Cleaned(PostFormArray(form, "selected_analyses")), dependent, independent) &&
      match service.value.performAnalysis(call.value.fileName, call.value.fileContent, call.value.selected, dependent, independent)
      case Err(e) => response == AnalysisErrorResponse(e)
      case Ok(r) =>
        match marshal(r)
        case Err(m) => response == HttpResponse(StatusInternalServerError, ErrorBody("Error marshalling response to JSON: " + m))
        case Ok(json) => response == HttpResponse(StatusOK, JsonBytes(json))
    ensures service.Some? && form.file.Ok? && !MissingRegressionVariable(form) ==>
      if form.file.value.content.Err? then call == None && response == FileErrorResponse(form.file.value.content.error)
      else call.Some?
    ensures response.status == StatusOK ==> call.Some?
  {
    if service.None? {
      return HttpResponse(StatusInternalServerError, ErrorBody(ServiceNotAvailable)), None;
    }
    if form.file.Err? {
      return HttpResponse(StatusBadRequest, ErrorBody("Error getting file from form: " + form.file.error)), None;
    }
    var selectedAnalyses := PostFormArray(form, "selected_analyses");
    var cleaned, isRegressionSelected := CleanSelection(selectedAnalyses);
    var dependent, independent := "", "";
    if isRegressionSelected {
      dependent := PostForm(form, "dependent_variable");
      independent := PostForm(form, "independent_variable");
      if dependent == "" || independent == "" {
        return HttpResponse(StatusBadRequest, ErrorBody(MissingRegressionVariables)), None;
      }
    }
    var upload := form.file.value;
    if upload.content.Err? {
      return FileErrorResponse(upload.content.error), None;
    }
    call := Some(AnalysisCall(upload.fileName, upload.content.value, cleaned, dependent, independent));
    response := Respond(service.value.performAnalysis(upload.fileName, upload.content.value, cleaned, dependent, independent), marshal);
  }

  /** Lines 138-182: the response for the outcome of `PerformAnalysis`. */
  function Respond<M>(outcome: Result<M, GoError>, marshal: M -> Result<seq<bv8>, string>): (r: HttpResponse)
    ensures r.status == StatusOK <==> outcome.Ok? && marshal(outcome.value).Ok?
    ensures r.status == StatusOK ==> r.body == JsonBytes(marshal(outcome.value).value)
  {
    match outcome
    case Err(e) => AnalysisErrorResponse(e)
    case Ok(r) =>
      match marshal(r)
      case Err(m) => HttpResponse(StatusInternalServerError, ErrorBody("Error marshalling response to JSON: " + m))
      case Ok(json) => HttpResponse(StatusOK, JsonBytes(json))
  }

  // ---------------------------------------------------------------------------
  // HandleGetColumns
  // ---------------------------------------------------------------------------

  /** The response for a failed `GetFileColumns`: only an invalid argument is the
      caller's fault. */
  function ColumnsErrorResponse(e: GoError): (r: HttpResponse)
    ensures r.status == StatusBadRequest <==> e.code == Some(InvalidArgument)
    ensures r.status == StatusBadRequest ==> r.body == ErrorBody(e.statusMessage)
    ensures r.status != StatusBadRequest ==> r.status == StatusInternalServerError
    ensures e.code.None? ==> r.body == ErrorBody(ConnectionFailed)
  {
    match e.code
    case Some(InvalidArgument) => HttpResponse(StatusBadRequest, ErrorBody(e.statusMessage))
    case Some(_) => HttpResponse(StatusInternalServerError, ErrorBody("Internal server error"))
    case None => HttpResponse(StatusInternalServerError, ErrorBody(ConnectionFailed))
  }

  /** `POST /api/columns`: the columns of the uploaded file. */
  method HandleGetColumns<M>(service: Option<Service<M>>, form: Form) returns (response: HttpResponse)
    ensures service.None? ==> response == HttpResponse(StatusInternalServerError, ErrorBody(ServiceNotAvailable))
    ensures service.Some? && form.file.Err? ==>
      response == HttpResponse(StatusBadRequest, ErrorBody("Error getting file from form: " + form.file.error))
    ensures service.Some? && form.file.Ok? && form.file.value.content.Err? ==>
      response == FileErrorResponse(form.file.value.content.error)
    ensures service.Some? && form.file.Ok? && form.file.value.content.Ok? ==>
      match service.value.getFileColumns(form.file.value.content.value, form.file.value.fileName)
      case Err(e) => response == ColumnsErrorResponse(e)
      case Ok(columns) => response == HttpResponse(StatusOK, ColumnsBody(columns))
  {
    if service.None? {
      return HttpResponse(StatusInternalServerError, ErrorBody(ServiceNotAvailable));
    }
    if form.file.Err? {
      return HttpResponse(StatusBadRequest, ErrorBody("Error getting file from form: " + form.file.error));
    }
    var upload := form.file.value;
    if upload.content.Err? {
      return FileErrorResponse(upload.content.error);
    }
    var columns := service.value.getFileColumns(upload.content.value, upload.fileName);
    if columns.Err? {
      return ColumnsErrorResponse(columns.error);
    }
    response := HttpResponse(StatusOK, ColumnsBody(columns.value));
  }

  // ---------------------------------------------------------------------------
  // History and results
  // ---------------------------------------------------------------------------

  /** `GET /api/analyses/history`: any service error is a 500; a nil history is
      an empty list, never null. */
  method HandleGetUserAnalysisHistory<M>(service: Option<Service<M>>) returns (response: HttpResponse)
    ensures service.None? ==> response == HttpResponse(StatusInternalServerError, ErrorBody(ServiceNotAvailable))
    ensures service.Some? ==>
      match service.value.getUserAnalysisHistory()
      case Err(_) => response == HttpResponse(StatusInternalServerError, ErrorBody("Failed to retrieve analysis history"))
      case Ok(None) => response == HttpResponse(StatusOK, RunsBody([]))
      case Ok(Some(runs)) => response == HttpResponse(StatusOK, RunsBody(runs))
  {
    if service.None? {
      return HttpResponse(StatusInternalServerError, ErrorBody(ServiceNotAvailable));
    }
    var userAnalyses := service.value.getUserAnalysisHistory();
    if userAnalyses.Err? {
      return HttpResponse(StatusInternalServerError, ErrorBody("Failed to retrieve analysis history"));
    }
    if userAnalyses.value.None? {
      return HttpResponse(StatusOK, RunsBody([]));
    }
    response := HttpResponse(StatusOK, RunsBody(userAnalyses.value.value));
  }

  /** `GET /api/analyses/history/:runId/results`. The path parameter is parsed
      first, so a malformed ID is a 400 even without a service; a service error
      (access denied included) is a 500 and an empty result map a 404. */
  method HandleGetAnalysisRunResults<M>(service: Option<Service<M>>, runIDText: string) returns (response: HttpResponse)
    ensures Atoi(runIDText).None? ==> response == HttpResponse(StatusBadRequest, ErrorBody("Invalid run ID format"))
    ensures Atoi(runIDText).Some? && service.None? ==>
      response == HttpResponse(StatusInternalServerError, ErrorBody(ServiceNotAvailable))
    ensures Atoi(runIDText).Some? && service.Some? ==>
      var runID := Atoi(runIDText).value;
      match service.value.getAnalysisRunResults(runID)
      case Err(_) => response == HttpResponse(StatusInternalServerError, ErrorBody("Failed to retrieve analysis results"))
      case Ok(results) =>
        if results == map[] then
          response == HttpResponse(StatusNotFound, ErrorBody("No analysis results found for run ID " + Itoa(runID)))
        else response == HttpResponse(StatusOK, ResultsBody(results))
  {
    var runID := Atoi(runIDText);
    if runID.None? {
      return HttpResponse(StatusBadRequest, ErrorBody("Invalid run ID format"));
    }
    if service.None? {
      return HttpResponse(StatusInternalServerError, ErrorBody(ServiceNotAvailable));
    }
    var results := service.value.getAnalysisRunResults(runID.value);
    if results.Err? {
      return HttpResponse(StatusInternalServerError, ErrorBody("Failed to retrieve analysis results"));
    }
    if |results.value| == 0 {
      return HttpResponse(StatusNotFound, ErrorBody("No analysis results found for run ID " + Itoa(runID.value)));
    }
    response := HttpResponse(StatusOK, ResultsBody(results.value));
  }
}
