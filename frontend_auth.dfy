/** The frontend's session helpers: clearing what a login left in
    `localStorage`, bumping a session version so that a stale token is not
    restored, a cheap validity check of the stored token, and logging out. The
    browser is a `Browser` object whose `items` are `localStorage`; decoding a
    token's payload and the clock are parameters. */
module FrontendAuth {
  import opened Common
  import AuthMiddleware
  import ChartUtils

  const VersionKey: string := "auth_session_version"
  const AuthTokenKey: string := "authToken"
  const RefreshTokenKey: string := "refreshToken"
  const LoggedOutKey: string := "loggedOut"
  const RedirectKey: string := "redirectAfterLogin"
  const LoginUrl: string := "http://localhost:3000/auth/login"
  /** The delay of the redirect after logging out, in milliseconds. */
  const LogoutDelay: nat := 100

  /** What `clearAllAuthData` removes, in its order. */
  const KeysToRemove: seq<string> := ["authToken", "refreshToken", "userProfile", "lastAuthenticated", "sessionData"]

  // ---------------------------------------------------------------------------
  // JavaScript parseInt and Number.prototype.toString
  // ---------------------------------------------------------------------------

  /** The white space and line terminators `parseInt` skips. */
  predicate IsJsSpace(c: char)
  {
    var n := c as int;
    n == 0x09 || n == 0x0A || n == 0x0B || n == 0x0C || n == 0x0D || n == 0x20 || n == 0xA0 ||
    n == 0x1680 || (0x2000 <= n <= 0x200A) || n == 0x2028 || n == 0x2029 || n == 0x202F ||
    n == 0x205F || n == 0x3000 || n == 0xFEFF
  }

  function TrimStart(s: string): (t: string)
    ensures |t| <= |s| && t == s[|s| - |t|..]
    ensures t != [] ==> !IsJsSpace(t[0])
  {
    if s != [] && IsJsSpace(s[0]) then TrimStart(s[1..]) else s
  }

  predicate IsHexDigit(c: char)
  {
    IsDigit(c) || 'a' <= c <= 'f' || 'A' <= c <= 'F'
  }

  function HexDigitValue(c: char): nat
    requires IsHexDigit(c)
  {
    if IsDigit(c) then DigitValue(c)
    else if 'a' <= c <= 'f' then (c as int) - ('a' as int) + 10
    else (c as int) - ('A' as int) + 10
  }

  /** The value of a string of hexadecimal digits. */
  function HexValue(ds: string): nat
    requires forall k :: 0 <= k < |ds| ==> IsHexDigit(ds[k])
  {
    if ds == [] then 0 else HexValue(ds[..|ds| - 1]) * 16 + HexDigitValue(ds[|ds| - 1])
  }

  /** The length of the longest prefix of `s` whose characters satisfy the test. */
  function DecimalPrefix(s: string): (n: nat)
    ensures n <= |s| && (forall k :: 0 <= k < n ==> IsDigit(s[k])) && (n < |s| ==> !IsDigit(s[n]))
  {
    if s != [] && IsDigit(s[0]) then
      var n := DecimalPrefix(s[1..]);
      assert forall k :: 1 <= k < n + 1 ==> s[k] == s[1..][k - 1];
      n + 1
    else 0
  }

  function HexPrefix(s: string): (n: nat)
    ensures n <= |s| && (forall k :: 0 <= k < n ==> IsHexDigit(s[k])) && (n < |s| ==> !IsHexDigit(s[n]))
  {
    if s != [] && IsHexDigit(s[0]) then
      var n := HexPrefix(s[1..]);
      assert forall k :: 1 <= k < n + 1 ==> s[k] == s[1..][k - 1];
      n + 1
    else 0
  }

  /** The digits after the white space and the sign: "0x" or "0X" selects
      hexadecimal, and the longest run of digits that follows is the value;
      with no digits there is none. */
  function Magnitude(body: string): (m: Option<nat>)
  {
    if |body| >= 2 && body[0] == '0' && (body[1] == 'x' || body[1] == 'X') then
      var hex := body[2..];
      var n := HexPrefix(hex);
      if n == 0 then None else Some(HexValue(hex[..n]))
    else
      var n := DecimalPrefix(body);
      if n == 0 then None else Some(DecimalValue(body[..n]))
  }

  /** `parseInt(s)` without a radix; `None` is NaN. Leading white space is
      skipped and a sign read before the digits. */
  function ParseInt(s: string): (r: Option<int>)
  {
    var t := TrimStart(s);
    var neg := t != [] && t[0] == '-';
    var body := if t != [] && (t[0] == '-' || t[0] == '+') then t[1..] else t;
    match Magnitude(body)
    case None => None
    case Some(m) => Some(if neg then -(m as int) else m as int)
  }

  /** Past white space and sign, a run of decimal digits is read as its value. */
  lemma DigitsMagnitude(ds: string)
    requires ds != [] && AllDigits(ds)
    ensures DecimalPrefix(ds) == |ds| && ds[..DecimalPrefix(ds)] == ds
    ensures !(|ds| >= 2 && ds[0] == '0' && (ds[1] == 'x' || ds[1] == 'X'))
  {
    assert |ds| >= 2 ==> IsDigit(ds[1]);
  }

  /** `parseInt` reads a run of decimal digits as its value. */
  lemma ParseIntDigits(ds: string)
    requires ds != [] && AllDigits(ds)
    ensures ParseInt(ds) == Some(DecimalValue(ds))
  {
    DigitsMagnitude(ds);
    DigitIsNotSpaceOrSign(ds[0]);
    assert TrimStart(ds) == ds;
  }

  lemma DigitIsNotSpaceOrSign(c: char)
    requires IsDigit(c)
    ensures !IsJsSpace(c) && c != '-' && c != '+'
  {
  }

  /** `parseInt` reads a minus sign and a run of decimal digits as the negated value. */
  lemma ParseIntNegatedDigits(ds: string)
    requires ds != [] && AllDigits(ds)
    ensures ParseInt("-" + ds) == Some(-(DecimalValue(ds) as int))
  {
    DigitsMagnitude(ds);
    var minus := "-" + ds;
    assert minus[0] == '-' && !IsJsSpace(minus[0]);
    assert TrimStart(minus) == minus;
    assert minus[1..] == ds;
  }

  /** `parseInt` reads back what `toString` writes for an integer. */
  lemma ParseIntItoa(n: int)
    ensures ParseInt(Itoa(n)) == Some(n)
  {
    var m: nat := if n < 0 then -n else n;
    DigitsValue(m);
    if n < 0 {
      ParseIntNegatedDigits(Digits(m));
    } else {
      ParseIntDigits(Digits(m));
    }
  }

  /** `(n).toString()` for what `parseInt` returns. */
  function NumberToString(n: Option<int>): (s: string)
    ensures n.None? <==> s == "NaN"
  {
    match n
    case None => "NaN"
    case Some(v) =>
      assert IsDigit(Itoa(v)[0]) || Itoa(v)[0] == '-';
      Itoa(v)
  }

  // ---------------------------------------------------------------------------
  // The session version and the keys removed on logout
  // ---------------------------------------------------------------------------

  /** The version `incrementSessionVersion` stores: the stored one parsed (a
      missing or empty one read as "0") plus one. */
  function NextVersion(items: map<string, string>): string
  {
    var stored := if VersionKey in items && items[VersionKey] != "" then items[VersionKey] else "0";
    NumberToString(match ParseInt(stored) case None => None case Some(v) => Some(v + 1))
  }

  /** The version goes up by one from the stored number, from 0 when there is
      none; once it is not a number it stays "NaN". */
  lemma NextVersionIncrements(items: map<string, string>, n: int)
    ensures VersionKey !in items || items[VersionKey] == "" ==> NextVersion(items) == "1"
    ensures VersionKey in items && items[VersionKey] == Itoa(n) ==> NextVersion(items) == Itoa(n + 1)
    ensures VersionKey in items && items[VersionKey] == "NaN" ==> NextVersion(items) == "NaN"
  {
    if VersionKey !in items || items[VersionKey] == "" {
      ParseIntItoa(0);
      assert Itoa(0) == "0" && Itoa(1) == "1";
    } else if items[VersionKey] == Itoa(n) {
      ParseIntItoa(n);
    } else if items[VersionKey] == "NaN" {
      ParseIntNaN();
    }
  }

  /** "NaN" has no digits, so `parseInt` reads it as NaN again. */
  lemma ParseIntNaN()
    ensures ParseInt("NaN") == None
  {
    var nan := "NaN";
    assert TrimStart(nan) == nan && DecimalPrefix(nan) == 0;
  }

  /** The map without the keys. */
  function RemoveKeys(m: map<string, string>, keys: seq<string>): map<string, string>
  {
    if keys == [] then m else RemoveKeys(m, keys[..|keys| - 1]) - {keys[|keys| - 1]}
  }

  /** Removing keys takes out exactly those keys and keeps every other entry. */
  lemma {:induction false} RemoveKeysExactly(m: map<string, string>, keys: seq<string>)
    ensures forall k :: k in RemoveKeys(m, keys) <==> k in m && k !in keys
    ensures forall k :: k in RemoveKeys(m, keys) ==> RemoveKeys(m, keys)[k] == m[k]
  {
    if keys != [] {
      var init := keys[..|keys| - 1];
      RemoveKeysExactly(m, init);
      assert forall k :: k in keys <==> k in init || k == keys[|keys| - 1];
    }
  }

  /** `localStorage` after `clearAllAuthData`. */
  function Cleared(items: map<string, string>): map<string, string>
  {
    RemoveKeys(items[VersionKey := NextVersion(items)], KeysToRemove)
  }

  /** After clearing, none of the auth keys is left, the version is the next
      one, and every other key is as it was. */
  lemma ClearedExactly(items: map<string, string>)
    ensures forall k :: k in KeysToRemove ==> k !in Cleared(items)
    ensures VersionKey in Cleared(items) && Cleared(items)[VersionKey] == NextVersion(items)
    ensures forall k :: k !in KeysToRemove && k != VersionKey ==>
      (k in Cleared(items) <==> k in items) && (k in items ==> Cleared(items)[k] == items[k])
  {
    VersionKeptAfterRemoval(items, NextVersion(items));
  }

  /** Removing the auth keys after storing a version keeps that version and
      every other key. */
  lemma VersionKeptAfterRemoval(items: map<string, string>, version: string)
    ensures var m := RemoveKeys(items[VersionKey := version], KeysToRemove);
      (forall k :: k in KeysToRemove ==> k !in m) &&
      VersionKey in m && m[VersionKey] == version &&
      forall k :: k !in KeysToRemove && k != VersionKey ==> (k in m <==> k in items) && (k in items ==> m[k] == items[k])
  {
    RemoveKeysExactly(items[VersionKey := version], KeysToRemove);
    assert VersionKey !in KeysToRemove;
  }

  // ---------------------------------------------------------------------------
  // The browser
  // ---------------------------------------------------------------------------

  datatype Task = RedirectToLoginTask
  /** A callback passed to `setTimeout`, not yet run. */
  datatype Timer = Timer(delay: nat, task: Task)

  /** The part of the browser the helpers touch. */
  class Browser {
    /** `typeof window !== 'undefined'`: false while rendering on the server. */
    const windowDefined: bool
    /** False when every `localStorage` call throws (storage disabled). */
    const storageAccessible: bool
    const pathname: string
    /** `localStorage`. */
    var items: map<string, string>
    /** `window.location.href`. */
    var href: string
    var timers: seq<Timer>

    constructor(windowDefined: bool, storageAccessible: bool, pathname: string, items: map<string, string>,
                href: string)
      ensures this.windowDefined == windowDefined && this.storageAccessible == storageAccessible
      ensures this.pathname == pathname && this.items == items && this.href == href && timers == []
    {
      this.windowDefined := windowDefined;
      this.storageAccessible := storageAccessible;
      this.pathname := pathname;
      this.items := items;
      this.href := href;
      timers := [];
    }

    /** `localStorage.getItem`: null for a missing key. */
    function GetItem(key: string): (v: Option<string>)
      reads this
      ensures v.Some? <==> key in items
      ensures v.Some? ==> v.value == items[key]
    {
      if key in items then Some(items[key]) else None
    }

    method SetItem(key: string, value: string)
      modifies this
      ensures items == old(items)[key := value] && href == old(href) && timers == old(timers)
    {
      items := items[key := value];
    }

    method RemoveItem(key: string)
      modifies this
      ensures items == old(items) - {key} && href == old(href) && timers == old(timers)
    {
      items := items - {key};
    }

    /** `incrementSessionVersion`. A storage that throws is caught inside, and
        nothing changes. */
    method IncrementSessionVersion()
      modifies this
      ensures items == if windowDefined && storageAccessible then old(items)[VersionKey := NextVersion(old(items))]
                       else old(items)
      ensures href == old(href) && timers == old(timers)
    {
      if !windowDefined {
        return;
      }
      if !storageAccessible {
        return;
      }
      var stored := GetItem(VersionKey);
      var text := if stored.Some? && stored.value != "" then stored.value else "0";
      var currentVersion := ParseInt(text);
      var next := match currentVersion case None => None case Some(v) => Some(v + 1);
      SetItem(VersionKey, NumberToString(next));
    }

    /** `clearAllAuthData`. The version is bumped, then each auth key is
        removed, set to "" and removed again; the fallback for an `authToken`
        still present never runs. A storage that throws changes nothing. */
    method ClearAllAuthData()
      modifies this
      ensures items == if windowDefined && storageAccessible then Cleared(old(items)) else old(items)
      ensures href == old(href) && timers == old(timers)
    {
      if !windowDefined {
        return;
      }
      IncrementSessionVersion();
      if !storageAccessible {
        return;
      }
      ghost var bumped := items;
      RemoveEach(KeysToRemove);
      assert GetItem(AuthTokenKey).None? by {
        RemoveKeysExactly(bumped, KeysToRemove);
      }
    }

    /** `keysToRemove.forEach(...)`: each key removed, set to "" and removed again. */
    method RemoveEach(keys: seq<string>)
      modifies this
      ensures items == RemoveKeys(old(items), keys)
      ensures href == old(href) && timers == old(timers)
    {
      for i := 0 to |keys|
        invariant items == RemoveKeys(old(items), keys[..i])
        invariant href == old(href) && timers == old(timers)
      {
        var key := keys[i];
        ghost var before := items;
        RemoveItem(key);
        SetItem(key, "");
        RemoveItem(key);
        assert items == before - {key};
        assert keys[..i + 1][..i] == keys[..i];
      }
      assert keys[..|keys|] == keys;
    }

    /** `clearAuthTokens`: true exactly when the clearing went through, which
        then always leaves both tokens gone. */
    method ClearAuthTokens() returns (cleared: bool)
      modifies this
      ensures cleared <==> windowDefined && storageAccessible
      ensures items == if windowDefined && storageAccessible then Cleared(old(items)) else old(items)
      ensures href == old(href) && timers == old(timers)
    {
      if !windowDefined {
        return false;
      }
      ClearAllAuthData();
      if !storageAccessible {
        return false;
      }
      var authToken := GetItem(AuthTokenKey);
      var refreshToken := GetItem(RefreshTokenKey);
      ClearedExactly(old(items));
      cleared := Gone(authToken) && Gone(refreshToken);
    }

    /** `checkTokenValidity` at time `now` (milliseconds); `decodePayload` is
        `JSON.parse(atob(part))` of the middle part. It reads the storage
        outside its `try`, so a storage that throws makes the call throw. */
    method CheckTokenValidity(now: real, decodePayload: string -> Payload) returns (result: Completion<bool>)
      ensures !windowDefined ==> result == Normal(false)
      ensures windowDefined && !storageAccessible ==> result == Thrown
      ensures windowDefined && storageAccessible ==> (result.Normal? &&
        var token := GetItem(AuthTokenKey);
        (token.None? || token.value == "" || token.value == "undefined" ==> !result.value) &&
        (token.Some? && token.value != "" && token.value != "undefined" ==>
          var parts := AuthMiddleware.Split(token.value, '.');
          (|parts| != 3 ==> result.value) &&
          (|parts| == 3 ==> (result.value <==> !Expired(decodePayload(parts[1]), now)))))
    {
      if !windowDefined {
        return Normal(false);
      }
      if !storageAccessible {
        return Thrown;
      }
      var token := GetItem(AuthTokenKey);
      if token.None? || token.value == "" || token.value == "undefined" {
        return Normal(false);
      }
      var parts := AuthMiddleware.Split(token.value, '.');
      if |parts| != 3 {
        return Normal(true);
      }
      var payload := decodePayload(parts[1]);
      if payload.Decoded? && payload.exp.Finite? && now >= payload.exp.v * 1000.0 {
        return Normal(false);
      }
      if payload.Decoded? && payload.exp.NegativeInfinity? {
        return Normal(false);
      }
      result := Normal(true);
    }

    /** `saveRedirectPath`: the current path is kept for after the login. */
    method SaveRedirectPath() returns (threw: bool)
      modifies this
      ensures threw <==> windowDefined && pathname != "" && !storageAccessible
      ensures items == if windowDefined && pathname != "" && storageAccessible then old(items)[RedirectKey := pathname]
                       else old(items)
      ensures href == old(href) && timers == old(timers)
    {
      if !windowDefined {
        return false;
      }
      if pathname != "" {
        if !storageAccessible {
          return true;
        }
        SetItem(RedirectKey, pathname);
      }
      threw := false;
    }

    /** `redirectToLogin`: the path is saved, then the browser goes to the
        login page. */
    method RedirectToLogin() returns (threw: bool)
      modifies this
      ensures threw <==> windowDefined && pathname != "" && !storageAccessible
      ensures items == if windowDefined && pathname != "" && storageAccessible then old(items)[RedirectKey := pathname]
                       else old(items)
      ensures href == if windowDefined && !threw then LoginUrl else old(href)
      ensures timers == old(timers)
    {
      if !windowDefined {
        return false;
      }
      threw := SaveRedirectPath();
      if threw {
        return;
      }
      href := LoginUrl;
    }

    /** `logout`: the auth data is cleared, then "loggedOut" is set, and only
        then is the redirect scheduled, to run after `LogoutDelay`. Reading the
        token back for the log throws without a usable storage. */
    method Logout() returns (threw: bool)
      modifies this
      ensures threw <==> !windowDefined || !storageAccessible
      ensures !threw ==> items == Cleared(old(items))[LoggedOutKey := "true"] &&
                         timers == old(timers) + [Timer(LogoutDelay, RedirectToLoginTask)]
      ensures threw ==> items == old(items) && timers == old(timers)
      ensures href == old(href)
    {
      ClearAllAuthData();
      if !windowDefined || !storageAccessible {
        return true;
      }
      SetItem(LoggedOutKey, "true");
      timers := timers + [Timer(LogoutDelay, RedirectToLoginTask)];
      threw := false;
    }

    /** Runs the first pending timer. */
    method RunTimer() returns (threw: bool)
      requires timers != []
      modifies this
      ensures timers == old(timers)[1..]
      ensures old(timers)[0].task == RedirectToLoginTask ==>
        (threw <==> windowDefined && pathname != "" && !storageAccessible) &&
        items == (if windowDefined && pathname != "" && storageAccessible then old(items)[RedirectKey := pathname]
                  else old(items)) &&
        href == (if windowDefined && !threw then LoginUrl else old(href))
    {
      var timer := timers[0];
      timers := timers[1..];
      match timer.task
      case RedirectToLoginTask =>
        threw := RedirectToLogin();
    }
  }

  /** A `localStorage` value that counts as no token. */
  predicate Gone(v: Option<string>)
  {
    v.None? || v.value == "" || v.value == "null" || v.value == "undefined"
  }

  /** How a call ended: with a value, or by throwing to its caller. */
  datatype Completion<T> = Normal(value: T) | Thrown

  /** `JSON.parse(atob(part))`: `Undecodable` when that throws or the payload
      has no properties to read; otherwise `payload.exp` as a number (NaN when
      it is missing or not numeric). */
  datatype Payload = Undecodable | Decoded(exp: ChartUtils.JsNumber)

  /** `Date.now() >= payload.exp * 1000`: false for NaN. */
  predicate Expired(p: Payload, now: real)
  {
    p.Decoded? &&
    match p.exp
    case Finite(v) => now >= v * 1000.0
    case NaN => false
    case Infinity => false
    case NegativeInfinity => true
  }

  /** Logging out and then letting the timer fire: the auth data is gone,
      "loggedOut" is "true" before the browser is sent to the login page, and
      the page it was on is remembered. */
  method LogoutThenRedirect(b: Browser) returns (threw: bool)
    requires b.timers == [] && b.windowDefined && b.storageAccessible
    modifies b
    ensures !threw && b.href == LoginUrl && b.timers == []
    ensures forall k :: k in KeysToRemove ==> k !in b.items
    ensures LoggedOutKey in b.items && b.items[LoggedOutKey] == "true"
    ensures b.pathname != "" ==> RedirectKey in b.items && b.items[RedirectKey] == b.pathname
  {
    LoggedOutThenRedirected(b.items, b.pathname);
    threw := b.Logout();
    threw := b.RunTimer();
  }

  /** The storage after `logout` and the redirect it schedules: no auth key,
      the logged-out flag, and the saved path when there is one. */
  lemma LoggedOutThenRedirected(items: map<string, string>, pathname: string)
    ensures var m := Cleared(items)[LoggedOutKey := "true"];
      var r := if pathname != "" then m[RedirectKey := pathname] else m;
      (forall k :: k in KeysToRemove ==> k !in r) && LoggedOutKey in r && r[LoggedOutKey] == "true" &&
      (pathname != "" ==> RedirectKey in r && r[RedirectKey] == pathname)
  {
    ClearedExactly(items);
    assert LoggedOutKey !in KeysToRemove && RedirectKey !in KeysToRemove && LoggedOutKey != RedirectKey;
  }
}
