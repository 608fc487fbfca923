/** The Go `authService`: registration, login with a signed JWT, and password
    change, over the user table. The table is a `UserStore` object whose
    `Create` and `Update` change it in place. bcrypt, the token signer, the
    clock and the database's failures are parameters. */
module AuthServiceImpl {
  import opened Common
  import opened GoCommon

  const Issuer: string := "diploma-app"
  const MinPasswordBytes: nat := 8
  const EmptyCredentials: string := "email and password cannot be empty"
  const WrongCurrentPassword: string := "current password is incorrect"
  // Written in two pieces only so that the verifier can read its first letter.
  const ShortNewPassword: string := "new password must be " + "at least 8 characters long"

  /** `models.User`; the timestamps are left out. */
  datatype User = User(id: int, email: string, passwordHash: string)

  /** The first user with the e-mail address, if any. */
  function FindByEmail(users: seq<User>, email: string): (r: Option<User>)
    ensures r.Some? ==> r.value in users && r.value.email == email
    ensures r.None? <==> forall k :: 0 <= k < |users| ==> users[k].email != email
  {
    if users == [] then None
    else if users[0].email == email then Some(users[0])
    else
      var rest := FindByEmail(users[1..], email);
      assert forall k :: 1 <= k < |users| ==> users[k] == users[1..][k - 1];
      rest
  }

  /** The index of the user with the ID, if any. */
  function IndexOfID(users: seq<User>, id: int): (r: Option<nat>)
    ensures r.Some? ==> r.value < |users| && users[r.value].id == id
    ensures r.None? <==> forall k :: 0 <= k < |users| ==> users[k].id != id
  {
    if users == [] then None
    else if users[|users| - 1].id == id then Some(|users| - 1)
    else
      var rest := IndexOfID(users[..|users| - 1], id);
      assert forall k :: 0 <= k < |users| - 1 ==> users[k] == users[..|users| - 1][k];
      rest
  }

  /** The failures the database reports, one per repository call. */
  datatype Faults = Faults(
    getByEmail: Option<GoError>, create: Option<GoError>, getByID: Option<GoError>, update: Option<GoError>)

  /** The `users` table: rows with distinct IDs and e-mail addresses, IDs
      handed out from a sequence. */
  class UserStore {
    var users: seq<User>
    var nextID: int

    ghost predicate Valid()
      reads this
    {
      nextID >= 1 &&
      (forall k :: 0 <= k < |users| ==> 1 <= users[k].id < nextID) &&
      (forall i, j :: 0 <= i < j < |users| ==> users[i].id != users[j].id && users[i].email != users[j].email)
    }

    constructor()
      ensures Valid() && users == [] && nextID == 1
    {
      users := [];
      nextID := 1;
    }

    /** `GetByEmail` without a database failure. */
    function ByEmail(email: string): Option<User>
      reads this
    {
      FindByEmail(users, email)
    }

    /** `GetByID` without a database failure. */
    function ByID(id: int): (r: Option<User>)
      reads this
      ensures r.Some? ==> r.value in users && r.value.id == id
      ensures r.None? <==> forall k :: 0 <= k < |users| ==> users[k].id != id
    {
      match IndexOfID(users, id)
      case Some(k) => Some(users[k])
      case None => None
    }

    /** `Create`: inserts a row with the next ID (the e-mail column is unique). */
    method Create(email: string, passwordHash: string, fault: Option<GoError>) returns (r: Result<int, GoError>)
      requires Valid()
      modifies this
      ensures Valid()
      ensures fault.Some? || old(ByEmail(email)).Some? ==> r.Err? && users == old(users) && nextID == old(nextID)
      ensures r.Ok? <==> fault.None? && old(ByEmail(email)).None?
      ensures r.Ok? ==> r.value == old(nextID) && users == old(users) + [User(old(nextID), email, passwordHash)] &&
                        nextID == old(nextID) + 1
    {
      if fault.Some? {
        return Err(Wrap("failed to create user: ", fault.value));
      }
      if ByEmail(email).Some? {
        return Err(Errorf("failed to create user: duplicate key value violates unique constraint"));
      }
      r := Ok(nextID);
      users := users + [User(nextID, email, passwordHash)];
      nextID := nextID + 1;
    }

    /** `Update`: rewrites the e-mail and hash of the row with the user's ID. */
    method Update(user: User, fault: Option<GoError>) returns (err: Option<GoError>)
      requires Valid() && (forall k :: 0 <= k < |users| && users[k].id != user.id ==> users[k].email != user.email)
      modifies this
      ensures Valid() && nextID == old(nextID)
      ensures err.None? <==> fault.None? && old(ByID(user.id)).Some?
      ensures err.Some? ==> users == old(users)
      ensures fault.Some? ==> err == Some(Wrap("failed to update user: ", fault.value))
      ensures err.None? ==> (|users| == |old(users)| &&
        forall k :: 0 <= k < |users| ==> users[k] == if old(users)[k].id == user.id then user else old(users)[k])
    {
      if fault.Some? {
        return Some(Wrap("failed to update user: ", fault.value));
      }
      var k := IndexOfID(users, user.id);
      if k.None? {
        return Some(Errorf("user with ID " + Itoa(user.id) + " not found"));
      }
      users := users[k.value := user];
      err := None;
    }
  }

  /** bcrypt and the HS256 token signer (with the service's secret key). */
  datatype Crypto = Crypto(
    /** `bcrypt.GenerateFromPassword` at the default cost. */
    generateHash: string -> Result<string, GoError>,
    /** `bcrypt.CompareHashAndPassword(hash, password)`: its error, if any. */
    compareHash: (string, string) -> Option<GoError>,
    /** `token.SignedString(secret)` of an HS256 token with the claims. */
    sign: Claims -> Result<string, GoError>,
    /** The error `strconv.Atoi` returns for the printed context value. */
    atoiError: ContextValue -> GoError)

  /** The registered claims of a login token; times are Unix seconds. */
  datatype Claims = Claims(subject: string, expiresAt: int, issuer: string, issuedAt: int)

  /** The claims for a user logging in at `now`: the subject is the user ID as
      `fmt.Sprint` prints it, and the token expires `ttlMinutes` after issue. */
  function LoginClaims(id: int, now: int, ttlMinutes: int): (c: Claims)
    ensures c.subject == Itoa(id) && c.issuer == Issuer
    ensures c.issuedAt == now && c.expiresAt == c.issuedAt + 60 * ttlMinutes
  {
    Claims(Itoa(id), now + 60 * ttlMinutes, Issuer, now)
  }

  /** The subject of a token for a stored user is read back by the services
      as that user's ID. */
  lemma LoginSubjectIdentifiesUser(id: int, now: int, ttlMinutes: int)
    requires 1 <= id <= MaxInt64
    ensures CoerceUserID(StringValue(LoginClaims(id, now, ttlMinutes).subject)) == Ok(id)
    ensures AtoiSprint(StringValue(LoginClaims(id, now, ttlMinutes).subject)) == Some(id)
  {
    StoredUserIDReadsBack(id);
  }

  /** `RegisterUser`. An empty e-mail or password is refused before the table is
      read; an address already present, a hashing failure or a failed insert
      leave the table as it was; on success exactly one row, holding the hash
      of the password, is added, and the user comes back without the hash. */
  method RegisterUser(store: UserStore, email: string, password: string, crypto: Crypto, faults: Faults)
    returns (result: Result<User, GoError>)
    requires store.Valid()
    modifies store
    ensures store.Valid()
    ensures result.Err? ==> store.users == old(store.users) && store.nextID == old(store.nextID)
    ensures email == "" || password == "" ==> result == Err(Errorf(EmptyCredentials))
    ensures email != "" && password != "" && faults.getByEmail.None? && old(store.ByEmail(email)).Some? ==>
      result == Err(Errorf("user with email '" + email + "' already exists"))
    ensures result.Ok? <==>
      email != "" && password != "" && faults.getByEmail.None? && old(store.ByEmail(email)).None? &&
      crypto.generateHash(password).Ok? && faults.create.None?
    ensures result.Ok? ==>
      result.value == User(old(store.nextID), email, "") &&
      store.users == old(store.users) + [User(old(store.nextID), email, crypto.generateHash(password).value)]
  {
    if email == "" || password == "" {
      return Err(Errorf(EmptyCredentials));
    }
    if faults.getByEmail.Some? {
      return Err(Wrap("error checking for existing user: ", faults.getByEmail.value));
    }
    var existingUser := store.ByEmail(email);
    if existingUser.Some? {
      return Err(Errorf("user with email '" + email + "' already exists"));
    }
    var hashedPassword := crypto.generateHash(password);
    if hashedPassword.Err? {
      return Err(Wrap("failed to hash password: ", hashedPassword.error));
    }
    var created := store.Create(email, hashedPassword.value, faults.create);
    if created.Err? {
      return Err(Wrap("failed to create user in repository: ", created.error));
    }
    var user := User(created.value, email, hashedPassword.value);
    user := user.(passwordHash := "");
    result := Ok(user);
  }

  /** `LoginUser`. It fails, with no token and no user, for empty credentials,
      an unknown address, a password bcrypt rejects or a signing failure; on
      success the token is the signed `LoginClaims` of the stored user, and the
      user comes back without the hash. The table is only read. */
  method LoginUser(store: UserStore, email: string, password: string, now: int, ttlMinutes: int,
                   crypto: Crypto, faults: Faults)
    returns (token: string, user: Option<User>, err: Option<GoError>)
    ensures err.Some? ==> token == "" && user == None
    ensures email == "" || password == "" ==> err == Some(Errorf(EmptyCredentials))
    ensures email != "" && password != "" && faults.getByEmail.None? && store.ByEmail(email).None? ==>
      err == Some(Errorf("user with email '" + email + "' not found"))
    ensures err.None? <==>
      email != "" && password != "" && faults.getByEmail.None? && store.ByEmail(email).Some? &&
      crypto.compareHash(store.ByEmail(email).value.passwordHash, password).None? &&
      crypto.sign(LoginClaims(store.ByEmail(email).value.id, now, ttlMinutes)).Ok?
    ensures err.None? ==>
      var u := store.ByEmail(email).value;
      token == crypto.sign(LoginClaims(u.id, now, ttlMinutes)).value && user == Some(u.(passwordHash := ""))
  {
    token, user := "", None;
    if email == "" || password == "" {
      return "", None, Some(Errorf(EmptyCredentials));
    }
    if faults.getByEmail.Some? {
      return "", None, Some(Wrap("error getting user by email: ", faults.getByEmail.value));
    }
    var found := store.ByEmail(email);
    if found.None? {
      return "", None, Some(Errorf("user with email '" + email + "' not found"));
    }
    var u := found.value;
    var mismatch := crypto.compareHash(u.passwordHash, password);
    if mismatch.Some? {
      return "", None, Some(Wrap("invalid password: ", mismatch.value));
    }
    var signed := crypto.sign(LoginClaims(u.id, now, ttlMinutes));
    if signed.Err? {
      return "", None, Some(Wrap("failed to generate token: ", signed.error));
    }
    u := u.(passwordHash := "");
    token, user, err := signed.value, Some(u), None;
  }

  /** Why `ChangePassword` refuses before writing, checked in this order. */
  datatype PasswordProblem =
    | NoUserID
    | BadUserID(cause: GoError)
    | LookupFailed(cause: GoError)
    | UserNotFound
    | IncorrectCurrentPassword
    | NewPasswordTooShort

  /** The error `ChangePassword` returns for each refusal. */
  function ProblemError(p: PasswordProblem): GoError
  {
    match p
    case NoUserID => Errorf("user ID not found in context")
    case BadUserID(cause) => Wrap("invalid user ID format in context: ", cause)
    case LookupFailed(cause) => Wrap("error getting user by ID: ", cause)
    case UserNotFound => Errorf("user not found")
    case IncorrectCurrentPassword => Errorf(WrongCurrentPassword)
    case NewPasswordTooShort => Errorf(ShortNewPassword)
  }

  /** A wrapped error whose prefix starts with neither letter is neither of
      the two texts the HTTP handler recognises. */
  lemma UnrecognisedWrap(prefix: string, e: GoError)
    requires prefix != [] && prefix[0] != WrongCurrentPassword[0] && prefix[0] != ShortNewPassword[0]
    ensures Wrap(prefix, e).message != WrongCurrentPassword && Wrap(prefix, e).message != ShortNewPassword
  {
    var m := Wrap(prefix, e).message;
    assert m[0] == m[..|prefix|][0] == prefix[0];
  }

  /** The two refusals the HTTP handler recognises by their text are told
      apart from every other error `ChangePassword` can return. */
  lemma ProblemErrorTexts(p: PasswordProblem)
    ensures ProblemError(p).message == WrongCurrentPassword <==> p == IncorrectCurrentPassword
    ensures ProblemError(p).message == ShortNewPassword <==> p == NewPasswordTooShort
  {
    match p
    case BadUserID(cause) =>
      UnrecognisedWrap("invalid user ID format in context: ", cause);
    case LookupFailed(cause) =>
      UnrecognisedWrap("error getting user by ID: ", cause);
    case _ =>
  }

  /** The checks of `ChangePassword` before the table is written, in order: the
      user ID in the context, the stored user, the current password (verified
      before the length of the new one) and the new password's length in bytes. */
  function ChangePasswordCheck(store: seq<User>, ctx: ContextValue, currentPassword: string, newPassword: string,
                               crypto: Crypto, faults: Faults): (r: Result<User, PasswordProblem>)
    ensures r.Ok? ==> r.value in store && crypto.compareHash(r.value.passwordHash, currentPassword).None? &&
                      Utf8Length(newPassword) >= MinPasswordBytes
    ensures r.Ok? ==> !ctx.Absent? && AtoiSprint(ctx) == Some(r.value.id)
    ensures ctx.Absent? <==> r == Err(NoUserID)
    ensures r == Err(UserNotFound) ==> forall k :: 0 <= k < |store| ==> AtoiSprint(ctx) != Some(store[k].id)
    ensures r == Err(IncorrectCurrentPassword) ==>
      exists k :: 0 <= k < |store| && AtoiSprint(ctx) == Some(store[k].id) &&
                  crypto.compareHash(store[k].passwordHash, currentPassword).Some?
    ensures r == Err(NewPasswordTooShort) ==> Utf8Length(newPassword) < MinPasswordBytes
  {
    if ctx.Absent? then Err(NoUserID)
    else match AtoiSprint(ctx)
      case None => Err(BadUserID(crypto.atoiError(ctx)))
      case Some(id) =>
        if faults.getByID.Some? then Err(LookupFailed(faults.getByID.value))
        else match IndexOfID(store, id)
          case None => Err(UserNotFound)
          case Some(k) =>
            if crypto.compareHash(store[k].passwordHash, currentPassword).Some? then Err(IncorrectCurrentPassword)
            else if Utf8Length(newPassword) < MinPasswordBytes then Err(NewPasswordTooShort)
            else Ok(store[k])
  }

  /** A wrong current password is reported as such whatever the new password,
      short ones included. */
  lemma WrongPasswordReportedFirst(store: seq<User>, ctx: ContextValue, currentPassword: string, newPassword: string,
                                   crypto: Crypto, faults: Faults)
    requires !ctx.Absent? && AtoiSprint(ctx).Some? && faults.getByID.None?
    requires IndexOfID(store, AtoiSprint(ctx).value).Some?
    requires crypto.compareHash(store[IndexOfID(store, AtoiSprint(ctx).value).value].passwordHash, currentPassword).Some?
    ensures ChangePasswordCheck(store, ctx, currentPassword, newPassword, crypto, faults) == Err(IncorrectCurrentPassword)
  {
  }

  /** `ChangePassword`. Any failure leaves the table as it was; on success the
      row of the user in the context, and only it, gets the hash of the new
      password. */
  method ChangePassword(store: UserStore, ctx: ContextValue, currentPassword: string, newPassword: string,
                        crypto: Crypto, faults: Faults)
    returns (err: Option<GoError>)
    requires store.Valid()
    modifies store
    ensures store.Valid() && store.nextID == old(store.nextID)
    ensures err.Some? ==> store.users == old(store.users)
    ensures var check := ChangePasswordCheck(old(store.users), ctx, currentPassword, newPassword, crypto, faults);
      (check.Err? ==> err == Some(ProblemError(check.error))) &&
      (check.Ok? ==>
        (err.None? <==> crypto.generateHash(newPassword).Ok? && faults.update.None?) &&
        (err.None? ==>
          |store.users| == |old(store.users)| &&
          forall k :: 0 <= k < |store.users| ==>
            store.users[k] == if old(store.users)[k].id == check.value.id
                              then check.value.(passwordHash := crypto.generateHash(newPassword).value)
                              else old(store.users)[k]) &&
        (crypto.generateHash(newPassword).Err? ==>
          err == Some(Wrap("failed to hash new password: ", crypto.generateHash(newPassword).error))) &&
        (crypto.generateHash(newPassword).Ok? && faults.update.Some? ==>
          err == Some(Wrap("failed to update user password: ", Wrap("failed to update user: ", faults.update.value)))))
  {
    var check := ChangePasswordCheck(store.users, ctx, currentPassword, newPassword, crypto, faults);
    if check.Err? {
      return Some(ProblemError(check.error));
    }
    var user := check.value;
    var hashedPassword := crypto.generateHash(newPassword);
    if hashedPassword.Err? {
      return Some(Wrap("failed to hash new password: ", hashedPassword.error));
    }
    user := user.(passwordHash := hashedPassword.value);
    var failed := store.Update(user, faults.update);
    if failed.Some? {
      return Some(Wrap("failed to update user password: ", failed.value));
    }
    err := None;
  }
}
