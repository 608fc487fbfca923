/** The Go `AuthMiddleware`: it lets a request through only with an
    `Authorization: Bearer <token>` header whose token is an HMAC-signed JWT
    carrying a string subject, and stores that subject as the user ID, both in
    the request context and in the gin context's keys. The JWT library is a
    parameter. */
module AuthMiddleware {
  import opened Common
  import opened GoCommon

  const StatusUnauthorized: int := 401
  /** `common.UserIDKey`. */
  const UserIDKey: string := "userId"
  const BearerScheme: string := "Bearer"

  // ---------------------------------------------------------------------------
  // strings.Split on a single character
  // ---------------------------------------------------------------------------

  /** The index of the first `sep` in `s`, if any. */
  function IndexOf(s: string, sep: char): (r: Option<nat>)
    ensures r.None? <==> sep !in s
    ensures r.Some? ==> r.value < |s| && s[r.value] == sep && sep !in s[..r.value]
  {
    if s == [] then None
    else if s[0] == sep then Some(0)
    else
      var rest := IndexOf(s[1..], sep);
      assert s == [s[0]] + s[1..];
      if rest.None? then None
      else
        assert s[..rest.value + 1] == [s[0]] + s[1..][..rest.value];
        Some(rest.value + 1)
  }

  /** The parts joined back with the separator between them. */
  function Join(parts: seq<string>, sep: char): string
    requires parts != []
  {
    if |parts| == 1 then parts[0] else parts[0] + [sep] + Join(parts[1..], sep)
  }

  /** `strings.Split(s, sep)`: the pieces between the separators, so one more
      piece than there are separators, none containing one. */
  function Split(s: string, sep: char): (parts: seq<string>)
    ensures parts != [] && Join(parts, sep) == s
    ensures forall k :: 0 <= k < |parts| ==> sep !in parts[k]
    decreases |s|
  {
    match IndexOf(s, sep)
    case None => [s]
    case Some(i) =>
      var rest := Split(s[i + 1..], sep);
      assert s == s[..i] + [sep] + s[i + 1..];
      [s[..i]] + rest
  }

  /** A header that splits into "Bearer" and one more part is "Bearer", one
      space and that part, which holds no space. */
  lemma BearerHeaderParts(header: string)
    requires |Split(header, ' ')| == 2 && Split(header, ' ')[0] == BearerScheme
    ensures HasPrefix(header, BearerScheme + " ") && header[|BearerScheme| + 1..] == Split(header, ' ')[1]
    ensures ' ' !in header[|BearerScheme| + 1..]
  {
    var parts := Split(header, ' ');
    var prefix := BearerScheme + " ";
    assert Join(parts[1..], ' ') == parts[1];
    assert header == prefix + parts[1];
    assert header[..|prefix|] == prefix;
    assert header[|prefix|..] == parts[1];
  }

  /** "Bearer", one space and a token holding no space split into exactly
      "Bearer" and the token. */
  lemma BearerHeaderSplits(token: string)
    requires ' ' !in token
    ensures Split(BearerScheme + " " + token, ' ') == [BearerScheme, token]
  {
    var header := BearerScheme + " " + token;
    var n := |BearerScheme|;
    assert header[n] == ' ';
    assert IndexOf(header, ' ') == Some(n);
    assert header[..n] == BearerScheme;
    assert header[n + 1..] == token;
    assert Split(token, ' ') == [token];
  }

  /** A well-formed header is exactly "Bearer", one space, and a token holding
      no space: then the token is what follows the space. */
  lemma BearerHeaderShape(header: string)
    ensures var parts := Split(header, ' ');
      (|parts| == 2 && parts[0] == BearerScheme) <==>
      (HasPrefix(header, BearerScheme + " ") && ' ' !in header[|BearerScheme| + 1..])
    ensures var parts := Split(header, ' ');
      |parts| == 2 && parts[0] == BearerScheme ==> parts[1] == header[|BearerScheme| + 1..]
  {
    var parts := Split(header, ' ');
    if |parts| == 2 && parts[0] == BearerScheme {
      BearerHeaderParts(header);
    }
    var prefix := BearerScheme + " ";
    if HasPrefix(header, prefix) && ' ' !in header[|prefix|..] {
      assert header == prefix + header[|prefix|..];
      BearerHeaderSplits(header[|prefix|..]);
    }
  }

  // ---------------------------------------------------------------------------
  // The JWT library
  // ---------------------------------------------------------------------------

  datatype ClaimValue = StringClaim(s: string) | NumberClaim(x: real) | OtherClaim

  /** A decoded token: the `alg` header and the claims. */
  datatype Token = Token(alg: string, claims: map<string, ClaimValue>)

  datatype JwtLibrary = JwtLibrary(
    /** Decoding: the header and claims, or the text of the parse error. */
    decode: string -> Result<Token, string>,
    /** Checks the signature with the key and then the registered claims
        (expiry and the like): the text of the first failure, if any. */
    verify: (string, Token, seq<bv8>) -> Option<string>)

  /** The HMAC signing methods (`*jwt.SigningMethodHMAC`). */
  predicate IsHmac(alg: string)
  {
    alg == "HS256" || alg == "HS384" || alg == "HS512"
  }

  /** The error `jwt.Parse` reports when the key function refuses the method. */
  function KeyfuncError(alg: string): string
  {
    "token is unverifiable: error while executing keyfunc: unexpected signing method: " + alg
  }

  /** `jwt.Parse` with the middleware's key function: only HMAC tokens reach
      the signature check, with the secret as key. */
  function Parse(tokenString: string, secret: seq<bv8>, lib: JwtLibrary): (r: Result<Token, string>)
    ensures r.Ok? ==> IsHmac(r.value.alg) && lib.decode(tokenString) == Ok(r.value) &&
                      lib.verify(tokenString, r.value, secret).None?
    ensures lib.decode(tokenString).Ok? && !IsHmac(lib.decode(tokenString).value.alg) ==>
      r == Err(KeyfuncError(lib.decode(tokenString).value.alg))
  {
    match lib.decode(tokenString)
    case Err(m) => Err(m)
    case Ok(t) =>
      if !IsHmac(t.alg) then Err(KeyfuncError(t.alg))
      else
        match lib.verify(tokenString, t, secret)
        case Some(m) => Err(m)
        case None => Ok(t)
  }

  // ---------------------------------------------------------------------------
  // The middleware
  // ---------------------------------------------------------------------------

  /** The part of `*gin.Context` the middleware touches. */
  class GinContext {
    /** The value under `UserIDKey` in the request's `context.Context`. */
    var requestUserID: ContextValue
    /** `c.Keys`. */
    var keys: map<string, string>
    /** The status and error text of `AbortWithStatusJSON`, once called. */
    var aborted: Option<(int, string)>
    /** Whether `c.Next()` ran. */
    var nextCalled: bool

    constructor(requestUserID: ContextValue, keys: map<string, string>)
      ensures this.requestUserID == requestUserID && this.keys == keys
      ensures aborted == None && !nextCalled
    {
      this.requestUserID := requestUserID;
      this.keys := keys;
      aborted := None;
      nextCalled := false;
    }

    /** Lines 74-82: the stored ID, and whether it is present and a string. */
    function GetUserIDFromContext(): (r: (string, bool))
      reads this
      ensures r.1 <==> requestUserID.StringValue?
      ensures r.1 ==> r.0 == requestUserID.s
      ensures !r.1 ==> r.0 == ""
    {
      match requestUserID
      case StringValue(s) => (s, true)
      case _ => ("", false)
    }

    method Abort(message: string)
      modifies this
      ensures aborted == Some((StatusUnauthorized, message))
      ensures requestUserID == old(requestUserID) && keys == old(keys) && nextCalled == old(nextCalled)
    {
      aborted := Some((StatusUnauthorized, message));
    }
  }

  /** Why the middleware turns a request away, checked in this order. */
  datatype Rejection =
    | EmptyHeader
    | BadHeaderFormat
    | EmptyToken
    | InvalidToken(reason: string)
    | SubjectNotString

  function RejectionMessage(r: Rejection): string
  {
    match r
    case EmptyHeader => "Empty auth header"
    case BadHeaderFormat => "Invalid auth header format"
    case EmptyToken => "Token is empty"
    case InvalidToken(reason) => "Invalid token: " + reason
    case SubjectNotString => "Invalid token claims: user ID not found or not a string"
  }

  /** The checks on the header, as a decision: the subject to store, or the
      first rejection. A token that is not HMAC-signed never gets through. */
  function Authenticate(header: string, secret: seq<bv8>, lib: JwtLibrary): (r: Result<string, Rejection>)
    ensures r.Ok? ==>
      HasPrefix(header, BearerScheme + " ") && ' ' !in header[|BearerScheme| + 1..] &&
      header[|BearerScheme| + 1..] != "" &&
      var t := lib.decode(header[|BearerScheme| + 1..]);
      t.Ok? && IsHmac(t.value.alg) && "sub" in t.value.claims && t.value.claims["sub"] == StringClaim(r.value)
    ensures header == "" <==> r == Err(EmptyHeader)
  {
    BearerHeaderShape(header);
    var parts := Split(header, ' ');
    if header == "" then Err(EmptyHeader)
    else if |parts| != 2 || parts[0] != BearerScheme then Err(BadHeaderFormat)
    else if |parts[1]| == 0 then Err(EmptyToken)
    else
      match Parse(parts[1], secret, lib)
      case Err(m) => Err(InvalidToken(m))
      case Ok(t) =>
        if "sub" in t.claims && t.claims["sub"].StringClaim? then Ok(t.claims["sub"].s)
        else Err(SubjectNotString)
  }

  /** A header of another scheme, or with more than one space, is turned away
      before the token is looked at. */
  lemma OtherSchemeRejected(header: string, secret: seq<bv8>, lib: JwtLibrary)
    requires header != "" && !HasPrefix(header, BearerScheme + " ")
    ensures Authenticate(header, secret, lib) == Err(BadHeaderFormat)
  {
    BearerHeaderShape(header);
  }

  /** The middleware closure. On success the subject is stored under
      `UserIDKey` in the request context and the keys, and `c.Next()` runs;
      otherwise the request is aborted with 401 and nothing else changes. */
  method Handle(c: GinContext, header: string, secret: seq<bv8>, lib: JwtLibrary)
    modifies c
    ensures c.nextCalled == old(c.nextCalled) || Authenticate(header, secret, lib).Ok?
    ensures match Authenticate(header, secret, lib)
      case Ok(sub) =>
        c.requestUserID == StringValue(sub) && c.keys == old(c.keys)[UserIDKey := sub] &&
        c.nextCalled && c.aborted == old(c.aborted)
      case Err(why) =>
        c.aborted == Some((StatusUnauthorized, RejectionMessage(why))) &&
        c.requestUserID == old(c.requestUserID) && c.keys == old(c.keys) && c.nextCalled == old(c.nextCalled)
  {
    BearerHeaderShape(header);
    if header == "" {
      c.Abort(RejectionMessage(EmptyHeader));
      return;
    }
    var headerParts := Split(header, ' ');
    if |headerParts| != 2 || headerParts[0] != BearerScheme {
      c.Abort(RejectionMessage(BadHeaderFormat));
      return;
    }
    if |headerParts[1]| == 0 {
      c.Abort(RejectionMessage(EmptyToken));
      return;
    }
    var tokenString := headerParts[1];
    var token := Parse(tokenString, secret, lib);
    if token.Err? {
      c.Abort(RejectionMessage(InvalidToken(token.error)));
      return;
    }
    var claims := token.value.claims;
    if !("sub" in claims && claims["sub"].StringClaim?) {
      c.Abort(RejectionMessage(SubjectNotString));
      return;
    }
    var userIDString := claims["sub"].s;
    c.requestUserID := StringValue(userIDString);
    c.keys := c.keys[UserIDKey := userIDString];
    c.nextCalled := true;
  }
}
