/** The Go `AuthHandler`: the HTTP endpoints for registration, login and
    password change in front of the auth service, and the routes it
    registers. A request body is first decoded from JSON and then checked
    against its `binding` tags; the decoder's outcome, the e-mail validator
    and the text of a validation failure are parameters. */
module AuthHandler {
  import opened Common
  import opened GoCommon
  import opened AuthServiceImpl
  import AnalysisHandler
  import AuthMiddleware

  const StatusCreated: int := 201
  const InvalidBody: string := "Invalid request body: "
  const Registered: string := "User registered successfully"
  const LoggedIn: string := "Login successful"
  const PasswordChanged: string := "Password changed successfully"
  const ChangeFailed: string := "Failed to change password: "
  /** The `min=8` tag on the password fields: a count of characters (runes). */
  const MinPasswordRunes: nat := 8

  datatype AuthBody =
    | ErrorBody(error: string)
    | MessageBody(message: string)
    | RegisteredBody(message: string, userID: int, email: string)
    | LoginBody(message: string, token: string, userID: int, email: string)

  datatype AuthResponse = AuthResponse(status: int, body: AuthBody)

  datatype RegisterRequest = RegisterRequest(email: string, password: string)
  datatype LoginRequest = LoginRequest(email: string, password: string)
  datatype ChangePasswordRequest = ChangePasswordRequest(currentPassword: string, newPassword: string)

  // ---------------------------------------------------------------------------
  // ShouldBindJSON: decoding, then the binding tags
  // ---------------------------------------------------------------------------

  /** `required,email` on the e-mail and `required,min=8` on the password. */
  function BindRegister(decoded: Result<RegisterRequest, string>, isEmail: string -> bool, validationError: string)
    : (r: Result<RegisterRequest, string>)
    ensures r.Ok? <==> decoded.Ok? && decoded.value.email != "" && isEmail(decoded.value.email) &&
                       |decoded.value.password| >= MinPasswordRunes
    ensures r.Ok? ==> r == decoded
    ensures decoded.Err? ==> r == decoded
  {
    match decoded
    case Err(m) => Err(m)
    case Ok(req) =>
      if req.email == "" || !isEmail(req.email) || req.password == "" || |req.password| < MinPasswordRunes
      then Err(validationError)
      else Ok(req)
  }

  /** `required,email` on the e-mail and `required` on the password. */
  function BindLogin(decoded: Result<LoginRequest, string>, isEmail: string -> bool, validationError: string)
    : (r: Result<LoginRequest, string>)
    ensures r.Ok? <==> decoded.Ok? && decoded.value.email != "" && isEmail(decoded.value.email) &&
                       decoded.value.password != ""
    ensures r.Ok? ==> r == decoded
    ensures decoded.Err? ==> r == decoded
  {
    match decoded
    case Err(m) => Err(m)
    case Ok(req) =>
      if req.email == "" || !isEmail(req.email) || req.password == "" then Err(validationError)
      else Ok(req)
  }

  /** `required` on the current password and `required,min=8` on the new one. */
  function BindChangePassword(decoded: Result<ChangePasswordRequest, string>, validationError: string)
    : (r: Result<ChangePasswordRequest, string>)
    ensures r.Ok? <==> decoded.Ok? && decoded.value.currentPassword != "" &&
                       |decoded.value.newPassword| >= MinPasswordRunes
    ensures r.Ok? ==> r == decoded
    ensures decoded.Err? ==> r == decoded
  {
    match decoded
    case Err(m) => Err(m)
    case Ok(req) =>
      if req.currentPassword == "" || req.newPassword == "" || |req.newPassword| < MinPasswordRunes
      then Err(validationError)
      else Ok(req)
  }

  /** A bound request never meets the service's own refusals of its input: the
      credentials are not empty, and a new password of at least eight
      characters has at least eight bytes, so the service's length check never
      fires behind the handler. */
  lemma BoundRequestsPassServiceChecks(decodedRegister: Result<RegisterRequest, string>,
                                       decodedLogin: Result<LoginRequest, string>,
                                       decodedChange: Result<ChangePasswordRequest, string>,
                                       isEmail: string -> bool, validationError: string,
                                       store: seq<User>, ctx: ContextValue, crypto: Crypto, faults: Faults)
    ensures BindRegister(decodedRegister, isEmail, validationError).Ok? ==>
      decodedRegister.value.email != "" && decodedRegister.value.password != ""
    ensures BindLogin(decodedLogin, isEmail, validationError).Ok? ==>
      decodedLogin.value.email != "" && decodedLogin.value.password != ""
    ensures BindChangePassword(decodedChange, validationError).Ok? ==>
      ChangePasswordCheck(store, ctx, decodedChange.value.currentPassword, decodedChange.value.newPassword,
                          crypto, faults) != Err(NewPasswordTooShort)
  {
    if BindChangePassword(decodedChange, validationError).Ok? {
      var newPassword := decodedChange.value.newPassword;
      assert Utf8Length(newPassword) >= |newPassword| >= MinPasswordBytes;
    }
  }

  // ---------------------------------------------------------------------------
  // The endpoints
  // ---------------------------------------------------------------------------

  /** `Register`: 400 for a body that does not bind, 500 with the service's
      error text for any failure of the service, 201 with the new user's ID and
      e-mail otherwise. */
  method Register(store: UserStore, decoded: Result<RegisterRequest, string>, isEmail: string -> bool,
                  validationError: string, crypto: Crypto, faults: Faults)
    returns (response: AuthResponse)
    requires store.Valid()
    modifies store
    ensures store.Valid()
    ensures response.status != StatusCreated ==> store.users == old(store.users)
    ensures var req := BindRegister(decoded, isEmail, validationError);
      (req.Err? ==> response == AuthResponse(AnalysisHandler.StatusBadRequest, ErrorBody(InvalidBody + req.error))) &&
      (req.Ok? ==>
        var email, password := req.value.email, req.value.password;
        (response.status == StatusCreated <==>
          faults.getByEmail.None? && old(store.ByEmail(email)).None? &&
          crypto.generateHash(password).Ok? && faults.create.None?) &&
        (response.status == StatusCreated ==>
          response.body == RegisteredBody(Registered, old(store.nextID), email) &&
          store.users == old(store.users) + [User(old(store.nextID), email, crypto.generateHash(password).value)]) &&
        (response.status != StatusCreated ==>
          response.status == AnalysisHandler.StatusInternalServerError && response.body.ErrorBody?))
  {
    var req := BindRegister(decoded, isEmail, validationError);
    if req.Err? {
      return AuthResponse(AnalysisHandler.StatusBadRequest, ErrorBody(InvalidBody + req.error));
    }
    var user := RegisterUser(store, req.value.email, req.value.password, crypto, faults);
    if user.Err? {
      return AuthResponse(AnalysisHandler.StatusInternalServerError, ErrorBody(user.error.message));
    }
    response := AuthResponse(StatusCreated, RegisteredBody(Registered, user.value.id, user.value.email));
  }

  /** `Login`: 400 for a body that does not bind, 401 with the service's error
      text for any failure, 200 with the signed token and the user otherwise. */
  method Login(store: UserStore, decoded: Result<LoginRequest, string>, isEmail: string -> bool,
               validationError: string, now: int, ttlMinutes: int, crypto: Crypto, faults: Faults)
    returns (response: AuthResponse)
    ensures var req := BindLogin(decoded, isEmail, validationError);
      (req.Err? ==> response == AuthResponse(AnalysisHandler.StatusBadRequest, ErrorBody(InvalidBody + req.error))) &&
      (req.Ok? ==>
        var email, password := req.value.email, req.value.password;
        (response.status == AnalysisHandler.StatusOK <==>
          faults.getByEmail.None? && store.ByEmail(email).Some? &&
          crypto.compareHash(store.ByEmail(email).value.passwordHash, password).None? &&
          crypto.sign(LoginClaims(store.ByEmail(email).value.id, now, ttlMinutes)).Ok?) &&
        (response.status == AnalysisHandler.StatusOK ==>
          var u := store.ByEmail(email).value;
          response.body == LoginBody(LoggedIn, crypto.sign(LoginClaims(u.id, now, ttlMinutes)).value, u.id, u.email)) &&
        (response.status != AnalysisHandler.StatusOK ==>
          response.status == AuthMiddleware.StatusUnauthorized && response.body.ErrorBody?))
  {
    var req := BindLogin(decoded, isEmail, validationError);
    if req.Err? {
      return AuthResponse(AnalysisHandler.StatusBadRequest, ErrorBody(InvalidBody + req.error));
    }
    var token, user, err := LoginUser(store, req.value.email, req.value.password, now, ttlMinutes, crypto, faults);
    if err.Some? {
      return AuthResponse(AuthMiddleware.StatusUnauthorized, ErrorBody(err.value.message));
    }
    response := AuthResponse(AnalysisHandler.StatusOK, LoginBody(LoggedIn, token, user.value.id, user.value.email));
  }

  /** The answer to a failed password change, chosen by the error's text: a
      wrong current password is 401, a short new password 400, anything else
      500 with the text after a fixed prefix. */
  function ChangePasswordErrorResponse(e: GoError): (r: AuthResponse)
    ensures r.status == AuthMiddleware.StatusUnauthorized <==> e.message == WrongCurrentPassword
    ensures r.status == AnalysisHandler.StatusBadRequest <==> e.message == ShortNewPassword
    ensures r.status == AnalysisHandler.StatusInternalServerError <==>
      e.message != WrongCurrentPassword && e.message != ShortNewPassword
    ensures r.status != AnalysisHandler.StatusInternalServerError ==> r.body == ErrorBody(e.message)
    ensures r.status == AnalysisHandler.StatusInternalServerError ==> r.body == ErrorBody(ChangeFailed + e.message)
  {
    if e.message == WrongCurrentPassword then AuthResponse(AuthMiddleware.StatusUnauthorized, ErrorBody(e.message))
    else if e.message == ShortNewPassword then AuthResponse(AnalysisHandler.StatusBadRequest, ErrorBody(e.message))
    else AuthResponse(AnalysisHandler.StatusInternalServerError, ErrorBody(ChangeFailed + e.message))
  }

  /** Each refusal of the service gets its own answer: 401 only for a wrong
      current password, 400 only for a short new password, 500 for the rest. */
  lemma ProblemStatus(p: PasswordProblem)
    ensures ChangePasswordErrorResponse(ProblemError(p)).status ==
      if p == IncorrectCurrentPassword then AuthMiddleware.StatusUnauthorized
      else if p == NewPasswordTooShort then AnalysisHandler.StatusBadRequest
      else AnalysisHandler.StatusInternalServerError
  {
    ProblemErrorTexts(p);
  }

  /** A failure to hash or to store the new password is a server error. */
  lemma WriteFailuresAreServerErrors(e: GoError)
    ensures ChangePasswordErrorResponse(Wrap("failed to hash new password: ", e)).status ==
            AnalysisHandler.StatusInternalServerError
    ensures ChangePasswordErrorResponse(Wrap("failed to update user password: ", Wrap("failed to update user: ", e))).status ==
            AnalysisHandler.StatusInternalServerError
  {
    UnrecognisedWrap("failed to hash new password: ", e);
    UnrecognisedWrap("failed to update user password: ", Wrap("failed to update user: ", e));
  }

  /** `ChangePassword` (behind the middleware, which put the user ID in the
      request context): 400 for a body that does not bind; then the refusals of
      the service as `ProblemStatus` says; a failure to hash or to write the
      new password is 500; otherwise 200 and only that user's row changed. */
  method ChangePassword(store: UserStore, ctx: ContextValue, decoded: Result<ChangePasswordRequest, string>,
                        validationError: string, crypto: Crypto, faults: Faults)
    returns (response: AuthResponse)
    requires store.Valid()
    modifies store
    ensures store.Valid() && store.nextID == old(store.nextID)
    ensures response.status != AnalysisHandler.StatusOK ==> store.users == old(store.users)
    ensures var req := BindChangePassword(decoded, validationError);
      (req.Err? ==> response == AuthResponse(AnalysisHandler.StatusBadRequest, ErrorBody(InvalidBody + req.error))) &&
      (req.Ok? ==>
        var newPassword := req.value.newPassword;
        var check := ChangePasswordCheck(old(store.users), ctx, req.value.currentPassword, newPassword, crypto, faults);
        (check.Err? ==> response == ChangePasswordErrorResponse(ProblemError(check.error))) &&
        (check.Ok? ==>
          (response.status == AnalysisHandler.StatusOK <==>
            crypto.generateHash(newPassword).Ok? && faults.update.None?) &&
          (response.status == AnalysisHandler.StatusOK ==>
            response.body == MessageBody(PasswordChanged) &&
            |store.users| == |old(store.users)| &&
            forall k :: 0 <= k < |store.users| ==>
              store.users[k] == if old(store.users)[k].id == check.value.id
                                then check.value.(passwordHash := crypto.generateHash(newPassword).value)
                                else old(store.users)[k]) &&
          (response.status != AnalysisHandler.StatusOK ==>
            response.status == AnalysisHandler.StatusInternalServerError)))
  {
    var req := BindChangePassword(decoded, validationError);
    if req.Err? {
      return AuthResponse(AnalysisHandler.StatusBadRequest, ErrorBody(InvalidBody + req.error));
    }
    var err := AuthServiceImpl.ChangePassword(store, ctx, req.value.currentPassword, req.value.newPassword, crypto, faults);
    if err.Some? {
      ghost var check := ChangePasswordCheck(old(store.users), ctx, req.value.currentPassword, req.value.newPassword,
                                             crypto, faults);
      if check.Ok? {
        if crypto.generateHash(req.value.newPassword).Err? {
          WriteFailuresAreServerErrors(crypto.generateHash(req.value.newPassword).error);
        } else {
          WriteFailuresAreServerErrors(faults.update.value);
        }
      }
      return ChangePasswordErrorResponse(err.value);
    }
    response := AuthResponse(AnalysisHandler.StatusOK, MessageBody(PasswordChanged));
  }

  // ---------------------------------------------------------------------------
  // Routes
  // ---------------------------------------------------------------------------

  datatype Endpoint = RegisterEndpoint | LoginEndpoint | ChangePasswordEndpoint
  datatype Route = Route(httpMethod: string, path: string, endpoint: Endpoint)

  const AuthGroup: string := "/api/auth"

  /** The routing table of a `*gin.Engine`. */
  class Engine {
    var routes: seq<Route>

    constructor()
      ensures routes == []
    {
      routes := [];
    }

    /** `POST` on a path relative to a group. */
    method Post(group: string, relativePath: string, endpoint: Endpoint)
      modifies this
      ensures routes == old(routes) + [Route("POST", group + relativePath, endpoint)]
    {
      routes := routes + [Route("POST", group + relativePath, endpoint)];
    }
  }

  /** `RegisterRoutes`: exactly registration and login under /api/auth; the
      password change is routed elsewhere, behind the middleware. */
  method RegisterRoutes(router: Engine)
    modifies router
    ensures router.routes == old(router.routes) + [Route("POST", "/api/auth/register", RegisterEndpoint),
                                                   Route("POST", "/api/auth/login", LoginEndpoint)]
  {
    assert AuthGroup + "/register" == "/api/auth/register" && AuthGroup + "/login" == "/api/auth/login";
    router.Post(AuthGroup, "/register", RegisterEndpoint);
    router.Post(AuthGroup, "/login", LoginEndpoint);
  }
}
