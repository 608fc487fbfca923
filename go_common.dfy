/** What the Go server's packages share: the user ID stored in a request
    context, errors that may carry a gRPC status, and the two ways the services
    turn the stored user ID into an int. */
module GoCommon {
  import opened Common

  /** A value read from a `context.Context`, by its dynamic type; `OtherValue`
      keeps the text `fmt.Sprint` prints for it. */
  datatype ContextValue =
    | Absent
    | Float64Value(f: real)
    | IntValue(i: int)
    | StringValue(s: string)
    | OtherValue(printed: string)

  datatype GrpcCode = InvalidArgument | FailedPrecondition | DeadlineExceeded | OtherCode(name: string)

  /** A Go error: its text (`err.Error()`), and, when a gRPC status is in its
      chain, that status' code and what `status.FromError(err).Message()` gives:
      the status' own description for the status itself, the whole text once
      it is wrapped. */
  datatype GoError = GoError(message: string, code: Option<GrpcCode>, statusMessage: string)

  /** `fmt.Errorf` without `%w`: no status. */
  function Errorf(message: string): (e: GoError)
    ensures e.code == None && e.message == message
  {
    GoError(message, None, message)
  }

  /** `fmt.Errorf(prefix + "%w", e)`: the text grows, the status in the chain is
      still found and reports the whole text. */
  function Wrap(prefix: string, e: GoError): (w: GoError)
    ensures w.code == e.code && HasSuffix(w.message, e.message) && HasPrefix(w.message, prefix)
    ensures w.statusMessage == w.message
  {
    assert (prefix + e.message)[|prefix + e.message| - |e.message|..] == e.message;
    assert (prefix + e.message)[..|prefix|] == prefix;
    GoError(prefix + e.message, e.code, prefix + e.message)
  }

  /** An integral float64 below 1e6 in magnitude: `fmt.Sprint` prints it as plain
      digits; any other float gets a '.' or an exponent. */
  predicate PrintsAsInteger(f: real)
  {
    f == f.Floor as real && -1000000.0 < f < 1000000.0
  }

  /** `strconv.Atoi(fmt.Sprint(v))`: the conversion `DeleteAnalysisRun` and
      `ChangePassword` use. It accepts 0 and rejects floats from 1e6 up. */
  function AtoiSprint(v: ContextValue): (r: Option<int>)
    requires !v.Absent?
    ensures v.StringValue? ==> r == Atoi(v.s)
    ensures v.Float64Value? ==> (r.Some? <==> PrintsAsInteger(v.f)) && (r.Some? ==> r.value as real == v.f)
  {
    match v
    case Float64Value(f) =>
      if PrintsAsInteger(f) then
        AtoiItoa(f.Floor);
        Atoi(Itoa(f.Floor))
      else None
    case IntValue(i) => Atoi(Itoa(i))
    case StringValue(s) => Atoi(s)
    case OtherValue(printed) => Atoi(printed)
  }

  /** Why the type switch in the analysis service rejects a user ID. */
  datatype UserIDProblem = NotInContext | BadFormat | ZeroID

  /** The type switch in `PerformAnalysis`, `GetUserAnalysisHistory` and
      `GetAnalysisRunResults`: a float64 is truncated, an int taken as is, a
      string parsed by `strconv.Atoi`; any other type fails, and so does 0. */
  function CoerceUserID(v: ContextValue): (r: Result<int, UserIDProblem>)
    ensures r.Ok? ==> r.value != 0
    ensures v.Absent? <==> r == Err(NotInContext)
    ensures v.OtherValue? ==> r == Err(BadFormat)
    ensures v.IntValue? ==> (r.Ok? <==> v.i != 0) && (r.Ok? ==> r.value == v.i)
    ensures v.Float64Value? ==> (r.Ok? <==> Trunc(v.f) != 0) && (r.Ok? ==> r.value == Trunc(v.f))
    ensures v.StringValue? ==> (r.Ok? <==> Atoi(v.s).Some? && Atoi(v.s).value != 0) && (r.Ok? ==> Some(r.value) == Atoi(v.s))
  {
    var id: Result<int, UserIDProblem> :=
      match v
      case Absent => Err(NotInContext)
      case Float64Value(f) => Ok(Trunc(f))
      case IntValue(i) => Ok(i)
      case StringValue(s) => if Atoi(s).Some? then Ok(Atoi(s).value) else Err(BadFormat)
      case OtherValue(_) => Err(BadFormat);
    if id.Ok? && id.value == 0 then Err(ZeroID) else id
  }

  /** The user ID the middleware stores, `fmt.Sprint` of a non-zero int64 ID,
      is read back as that ID by both conversions. */
  lemma {:induction false} StoredUserIDReadsBack(id: int)
    requires MinInt64 <= id <= MaxInt64 && id != 0
    ensures CoerceUserID(StringValue(Itoa(id))) == Ok(id)
    ensures AtoiSprint(StringValue(Itoa(id))) == Some(id)
  {
    AtoiItoa(id);
  }
}
