/** The session manager of the dashboard (contexts/AuthContext.tsx): the
    logged-in user and access token held in memory, the four session keys
    of the store, and the five operations that move between logged out and
    logged in. Every call to the remote API goes through the shared client of
    module Transport, so its refresh-and-replay behaviour applies to the
    login, logout, refresh and profile calls too. */
module Session {
  import opened Common
  import opened Transport

  /** The four keys a session occupies in the store. */
  const SessionKeys: set<string> := {AccessTokenKey, RefreshTokenKey, UserKey, ExpiresAtKey}

  const InvalidCredentialsMessage := "Invalid email or password"
  const ServerErrorMessage := "Server error. Please try again later."
  const ConnectionMessage := "Login failed. Please check your connection."

  /** A snapshot of the session manager with the client it drives. */
  datatype Auth = Auth(net: Net, user: Option<User>, token: Option<string>, isLoading: bool)

  /** Whether an awaited operation resolved or rejected, and with what. */
  datatype Outcome = Pass | Throw(error: Failure)

  /** A state after an operation, with its outcome. */
  datatype After = After(auth: Auth, outcome: Outcome)

  /** `!!user && !!token`: a user and a non-empty token, never one alone. */
  predicate Authenticated(a: Auth)
  {
    a.user.Some? && a.token.Some? && a.token.value != ""
  }

  /** `JSON.parse` of the stored user; text other than a user's JSON is
      taken as unreadable. */
  function ParseUser(item: Item): (u: Option<User>)
    ensures u.Some? <==> item.UserJson?
  {
    match item
    case UserJson(u) => Some(u)
    case Text(_) => None
  }

  /** `clearAuth`: the four session keys removed (every other key kept), no
      user, no token, no default header. */
  function Cleared(a: Auth): (c: Auth)
    ensures c.net.storage.Keys == a.net.storage.Keys - SessionKeys
    ensures forall k :: k in c.net.storage ==> c.net.storage[k] == a.net.storage[k]
    ensures c.user.None? && c.token.None? && c.net.defaultAuthorization.None?
    ensures c.net.calls == a.net.calls && c.net.server == a.net.server
    ensures c.net.redirectedToLogin == a.net.redirectedToLogin && c.isLoading == a.isLoading
  {
    a.(net := a.net.(storage := a.net.storage - SessionKeys, defaultAuthorization := None),
       user := None, token := None)
  }

  /** Clearing is idempotent. */
  lemma ClearIdempotent(a: Auth)
    ensures Cleared(Cleared(a)) == Cleared(a)
  {
  }

  /** The message a failed login raises: the server's own error text first,
      then by status (401, then 500 and above), then a connection failure. */
  function LoginMessage(f: Failure): (m: string)
    ensures m != ""
    ensures f.HttpError? && f.errorText != "" ==> m == f.errorText
    ensures f.HttpError? && f.errorText == "" && f.status == 401 ==> m == InvalidCredentialsMessage
    ensures f.HttpError? && f.errorText == "" && f.status >= 500 ==> m == ServerErrorMessage
    ensures !f.HttpError? || (f.errorText == "" && f.status != 401 && f.status < 500) ==> m == ConnectionMessage
  {
    if f.HttpError? && f.errorText != "" then f.errorText
    else if f.HttpError? && f.status == 401 then InvalidCredentialsMessage
    else if f.HttpError? && f.status >= 500 then ServerErrorMessage
    else ConnectionMessage
  }

  /** The store after a login: the four session keys from the answer. */
  function StoreLogin(storage: map<string, Item>, p: Payload): map<string, Item>
  {
    storage[AccessTokenKey := Text(p.accessToken)][RefreshTokenKey := Text(p.refreshToken)]
           [UserKey := UserJson(p.user)][ExpiresAtKey := Text(p.expiresAt)]
  }

  /** The store after `refreshToken`: the new tokens and expiry. */
  function StoreRefresh(storage: map<string, Item>, p: Payload): map<string, Item>
  {
    storage[AccessTokenKey := Text(p.accessToken)][RefreshTokenKey := Text(p.refreshToken)]
           [ExpiresAtKey := Text(p.expiresAt)]
  }

  /** `login(email, password)`. */
  function LoginSpec(a: Auth): (r: After)
    ensures r.outcome.Pass? <==> SendSpec(a.net, LoginPath).reply.Ok?
    ensures r.outcome.Throw? ==> r.outcome.error.Raised? && r.outcome.error.message != ""
    ensures r.outcome.Throw? ==> r.auth.user == a.user && r.auth.token == a.token
    ensures !r.auth.isLoading
  {
    var s := SendSpec(a.net, LoginPath);
    match s.reply
    case Ok(p) =>
      After(Auth(s.net.(storage := StoreLogin(s.net.storage, p), defaultAuthorization := Some(Bearer(p.accessToken))),
                 Some(p.user), Some(p.accessToken), false),
            Pass)
    case Fail(f) =>
      After(a.(net := s.net, isLoading := false), Throw(Raised(LoginMessage(f))))
  }

  /** `logout()`: the server is told, and whatever it says the session is cleared. */
  function LogoutSpec(a: Auth): (b: Auth)
    ensures Cleared(b) == b
    ensures b.net.calls == SendSpec(a.net, LogoutPath).net.calls
  {
    Cleared(a.(net := SendSpec(a.net, LogoutPath).net))
  }

  /** `refreshToken()`. With no stored refresh token the error is raised
      inside the operation's own `try`, so it clears the session as every
      other failure does. */
  function RefreshSpec(a: Auth): (r: After)
    ensures r.outcome.Pass? <==> TokenAt(a.net.storage, RefreshTokenKey).Some? && SendSpec(a.net, RefreshPath).reply.Ok?
    ensures r.outcome.Pass? ==> r.auth.user == a.user && r.auth.token.Some?
    ensures r.outcome.Throw? ==> r.auth.user.None? && r.auth.token.None?
  {
    if TokenAt(a.net.storage, RefreshTokenKey).None? then
      After(Cleared(a), Throw(Raised(NoRefreshTokenMessage)))
    else
      var s := SendSpec(a.net, RefreshPath);
      match s.reply
      case Fail(f) => After(Cleared(a.(net := s.net)), Throw(f))
      case Ok(p) =>
        After(a.(net := s.net.(storage := StoreRefresh(s.net.storage, p), defaultAuthorization := Some(Bearer(p.accessToken))),
                 token := Some(p.accessToken)),
              Pass)
  }

  /** The profile probe of `initializeAuth` and what follows it, given the
      restored session `b` and whether a refresh token was stored at start. */
  function ProbeSpec(b: Auth, refreshStored: bool): (c: Auth)
    ensures c.user.Some? ==> c.user == b.user
    ensures b.user.Some? && c.user.None? ==> c.token.None? && c.net.storage.Keys !! SessionKeys
    ensures c.isLoading == b.isLoading
  {
    var s := SendSpec(b.net, ProfilePath);
    var c := b.(net := s.net);
    match s.reply
    case Ok(_) => c
    case Fail(f) =>
      if IsUnauthorized(f) && refreshStored then
        var r := RefreshSpec(c);
        if r.outcome.Throw? then Cleared(r.auth) else r.auth
      else Cleared(c)
  }

  /** `initializeAuth()`, run once when the application starts. */
  function InitializeSpec(a: Auth): (c: Auth)
    ensures !c.isLoading
    ensures c.user.Some? && a.user.None? ==>
      TokenAt(a.net.storage, AccessTokenKey).Some? && UserKey in a.net.storage && c.user == ParseUser(a.net.storage[UserKey])
  {
    var storage := a.net.storage;
    var refreshStored := TokenAt(storage, RefreshTokenKey).Some?;
    if TokenAt(storage, AccessTokenKey).None? || !Truthy(storage, UserKey) then a.(isLoading := false)
    else
      var t := TokenAt(storage, AccessTokenKey).value;
      match ParseUser(storage[UserKey])
      case None => Cleared(a.(token := Some(t))).(isLoading := false)
      case Some(u) =>
        var b := a.(net := a.net.(defaultAuthorization := Some(Bearer(t))), user := Some(u), token := Some(t));
        ProbeSpec(b, refreshStored).(isLoading := false)
  }

  /** A successful login writes all four keys, sets user, token and the
      default header, and leaves the session authenticated when the token
      is not empty. */
  lemma LoginSucceeds(a: Auth, p: Payload)
    requires NextReply(a.net.server) == Ok(p)
    ensures var r := LoginSpec(a);
      && r.outcome == Pass
      && SessionKeys <= r.auth.net.storage.Keys
      && r.auth.net.storage[AccessTokenKey] == Text(p.accessToken)
      && r.auth.net.storage[RefreshTokenKey] == Text(p.refreshToken)
      && r.auth.net.storage[UserKey] == UserJson(p.user)
      && r.auth.net.storage[ExpiresAtKey] == Text(p.expiresAt)
      && r.auth.user == Some(p.user) && r.auth.token == Some(p.accessToken)
      && r.auth.net.defaultAuthorization == Some(Bearer(p.accessToken))
      && (p.accessToken != "" ==> Authenticated(r.auth))
      && !r.auth.isLoading
  {
  }

  /** A login the server refuses with anything but 401 changes neither the
      store nor the user and token, and raises the classified message. */
  lemma LoginFailureKeepsSession(a: Auth, f: Failure)
    requires NextReply(a.net.server) == Fail(f) && !IsUnauthorized(f)
    ensures var r := LoginSpec(a);
      && r.outcome == Throw(Raised(LoginMessage(f)))
      && r.auth.net.storage == a.net.storage
      && r.auth.net.defaultAuthorization == a.net.defaultAuthorization
      && r.auth.user == a.user && r.auth.token == a.token
      && !r.auth.isLoading
  {
  }

  /** A 401 on the login call itself goes through the refresh interceptor.
      With no stored refresh token this wipes the whole store, sends the
      page to /login, and the login raises the connection message, not
      "Invalid email or password". */
  lemma LoginUnauthorizedWithoutRefreshToken(a: Auth)
    requires NextReply(a.net.server).Fail? && IsUnauthorized(NextReply(a.net.server).failure)
    requires TokenAt(a.net.storage, RefreshTokenKey).None?
    ensures var r := LoginSpec(a);
      && r.outcome == Throw(Raised(ConnectionMessage))
      && r.auth.net.storage == map[] && r.auth.net.redirectedToLogin
      && r.auth.user == a.user && r.auth.token == a.token
  {
  }

  /** Whatever the server does, logout ends with the session cleared. */
  lemma LogoutAlwaysClears(a: Auth)
    ensures var b := LogoutSpec(a);
      && !Authenticated(b)
      && b.net.storage.Keys !! SessionKeys
      && b.net.defaultAuthorization.None?
  {
  }

  /** Logging out twice leaves the same cleared session as once, apart from
      the second (best-effort) call to the server. */
  lemma LogoutTwice(a: Auth)
    ensures var once := LogoutSpec(a);
      var twice := LogoutSpec(once);
      && !Authenticated(twice)
      && twice.net.storage.Keys !! SessionKeys
      && twice.net.storage.Keys <= once.net.storage.Keys
  {
  }

  /** `refreshToken` with no stored refresh token makes no network call,
      clears the session and raises "No refresh token available". */
  lemma RefreshWithoutToken(a: Auth)
    requires TokenAt(a.net.storage, RefreshTokenKey).None?
    ensures var r := RefreshSpec(a);
      && r.outcome == Throw(Raised(NoRefreshTokenMessage))
      && r.auth == Cleared(a)
      && r.auth.net.calls == a.net.calls
  {
  }

  /** A successful refresh replaces the tokens and the expiry, keeps the
      user, and points the default header at the new token. */
  lemma RefreshSucceeds(a: Auth, p: Payload)
    requires TokenAt(a.net.storage, RefreshTokenKey).Some?
    requires NextReply(a.net.server) == Ok(p)
    ensures var r := RefreshSpec(a);
      && r.outcome == Pass
      && r.auth.user == a.user
      && r.auth.token == Some(p.accessToken)
      && r.auth.net.storage == StoreRefresh(a.net.storage, p)
      && r.auth.net.defaultAuthorization == Some(Bearer(p.accessToken))
  {
  }

  /** Any failed refresh clears the session and re-raises. */
  lemma RefreshFailureClears(a: Auth)
    requires RefreshSpec(a).outcome.Throw?
    ensures var r := RefreshSpec(a);
      && !Authenticated(r.auth)
      && r.auth.net.storage.Keys !! SessionKeys
      && r.auth.net.defaultAuthorization.None?
  {
  }

  /** The in-memory session never holds a user without a token; every
      operation keeps this so. */
  predicate UserHasToken(a: Auth)
  {
    a.user.Some? ==> a.token.Some?
  }

  lemma OperationsKeepUserHasToken(a: Auth)
    requires UserHasToken(a)
    ensures UserHasToken(LoginSpec(a).auth)
    ensures UserHasToken(LogoutSpec(a))
    ensures UserHasToken(RefreshSpec(a).auth)
    ensures UserHasToken(InitializeSpec(a))
    ensures UserHasToken(Cleared(a))
  {
  }

  /** Initialisation always ends with `isLoading` false, and restores
      nothing unless both an access token and a user are stored. */
  lemma InitializeRestoresOnlyBoth(a: Auth)
    ensures !InitializeSpec(a).isLoading
    ensures TokenAt(a.net.storage, AccessTokenKey).None? || !Truthy(a.net.storage, UserKey)
      ==> InitializeSpec(a) == a.(isLoading := false)
  {
  }

  /** A restored session whose probe answers a non-401 failure is cleared. */
  lemma InitializeProbeFailureClears(a: Auth, f: Failure)
    requires TokenAt(a.net.storage, AccessTokenKey).Some? && Truthy(a.net.storage, UserKey)
    requires NextReply(a.net.server) == Fail(f) && !IsUnauthorized(f)
    ensures !Authenticated(InitializeSpec(a))
    ensures InitializeSpec(a).net.storage.Keys !! SessionKeys
  {
  }

  /** After a logout, starting the application again restores nothing. */
  lemma NoResurrection(a: Auth)
    ensures !Authenticated(InitializeSpec(LogoutSpec(a)))
  {
  }

  /** A reload after a successful login (a fresh provider over the same
      store) restores the same user and token once the probe succeeds. */
  lemma ReloadRestoresLogin(a: Auth, p: Payload, probe: Payload)
    requires |a.net.server| >= 2
    requires a.net.server[0] == Ok(p) && a.net.server[1] == Ok(probe)
    requires p.accessToken != ""
    ensures var b := LoginSpec(a).auth;
      var c := InitializeSpec(b.(user := None, token := None, isLoading := true));
      && c.user == Some(p.user) && c.token == Some(p.accessToken) && Authenticated(c)
  {
  }

  /** A restored session whose probe gets a 401 is rescued by the client's
      interceptor before `initializeAuth` sees an error: one refresh call,
      one replay of the probe, and no call to `refreshToken`. The store
      then holds the new access token while the in-memory token stays the
      one read at start. */
  lemma ProbeRescuedByInterceptor(a: Auth, t: string, u: User, p: Payload, probe: Payload)
    requires TokenAt(a.net.storage, AccessTokenKey) == Some(t)
    requires UserKey in a.net.storage && a.net.storage[UserKey] == UserJson(u)
    requires TokenAt(a.net.storage, RefreshTokenKey).Some?
    requires |a.net.server| >= 3
    requires a.net.server[0].Fail? && IsUnauthorized(a.net.server[0].failure)
    requires a.net.server[1] == Ok(p) && a.net.server[2] == Ok(probe)
    ensures var c := InitializeSpec(a);
      && c.user == Some(u) && c.token == Some(t)
      && c.net.storage[AccessTokenKey] == Text(p.accessToken)
      && c.net.defaultAuthorization == Some(Bearer(p.accessToken))
      && c.net.calls == a.net.calls + [Call(ProfilePath, Some(Bearer(t))), Call(RefreshPath, None),
                                       Call(ProfilePath, Some(Bearer(p.accessToken)))]
      && !c.isLoading
  {
  }

  /** A restored session whose probe gets a 401 that the interceptor
      cannot rescue, because its refresh fails, ends logged out with the
      whole store wiped and the page sent to /login. */
  lemma ProbeRefreshFailsLogsOut(a: Auth, u: User, f: Failure)
    requires TokenAt(a.net.storage, AccessTokenKey).Some?
    requires UserKey in a.net.storage && a.net.storage[UserKey] == UserJson(u)
    requires TokenAt(a.net.storage, RefreshTokenKey).Some?
    requires a.net.server != []
    requires a.net.server[0].Fail? && IsUnauthorized(a.net.server[0].failure)
    requires NextReply(a.net.server[1..]) == Fail(f)
    ensures var c := InitializeSpec(a);
      && !Authenticated(c) && c.user.None? && c.token.None?
      && c.net.storage == map[] && c.net.defaultAuthorization.None?
      && c.net.redirectedToLogin && !c.isLoading
      && |c.net.calls| == |a.net.calls| + 2 && c.net.calls[|a.net.calls| + 1].path == RefreshPath
  {
  }

  /** The same 401 with no refresh token stored: the interceptor gives up
      without calling the server again, and the session ends the same way. */
  lemma ProbeWithoutRefreshTokenLogsOut(a: Auth, u: User)
    requires TokenAt(a.net.storage, AccessTokenKey).Some?
    requires UserKey in a.net.storage && a.net.storage[UserKey] == UserJson(u)
    requires TokenAt(a.net.storage, RefreshTokenKey).None?
    requires a.net.server != [] && a.net.server[0].Fail? && IsUnauthorized(a.net.server[0].failure)
    ensures var c := InitializeSpec(a);
      && !Authenticated(c) && c.user.None? && c.token.None?
      && c.net.storage == map[] && c.net.defaultAuthorization.None?
      && c.net.redirectedToLogin && |c.net.calls| == |a.net.calls| + 1
  {
  }

  /** The session manager: in-memory user and token over the shared client. */
  class AuthProvider {
    const api: Api
    var user: Option<User>
    var token: Option<string>
    var isLoading: bool

    function State(): Auth
      reads this, api
    {
      Auth(api.Snapshot(), user, token, isLoading)
    }

    /** `isAuthenticated`. */
    function IsAuthenticated(): (b: bool)
      reads this
      ensures b <==> user.Some? && token.Some? && token.value != ""
    {
      user.Some? && token.Some? && token.value != ""
    }

    constructor (api: Api)
      ensures this.api == api && user.None? && token.None? && isLoading
    {
      this.api := api;
      user := None;
      token := None;
      isLoading := true;
    }

    method ClearAuth()
      modifies this, api
      ensures State() == Cleared(old(State()))
    {
      api.storage := api.storage - SessionKeys;
      token := None;
      user := None;
      api.defaultAuthorization := None;
    }

    method Login() returns (outcome: Outcome)
      modifies this, api
      ensures After(State(), outcome) == LoginSpec(old(State()))
    {
      isLoading := true;
      var reply := api.Send(LoginPath);
      match reply {
        case Ok(p) =>
          api.storage := StoreLogin(api.storage, p);
          token := Some(p.accessToken);
          user := Some(p.user);
          api.defaultAuthorization := Some(Bearer(p.accessToken));
          outcome := Pass;
        case Fail(f) =>
          outcome := Throw(Raised(LoginMessage(f)));
      }
      isLoading := false;
    }

    method Logout()
      modifies this, api
      ensures State() == LogoutSpec(old(State()))
    {
      var _ := api.Send(LogoutPath);
      ClearAuth();
    }

    method RefreshToken() returns (outcome: Outcome)
      modifies this, api
      ensures After(State(), outcome) == RefreshSpec(old(State()))
    {
      if TokenAt(api.storage, RefreshTokenKey).None? {
        ClearAuth();
        return Throw(Raised(NoRefreshTokenMessage));
      }
      var reply := api.Send(RefreshPath);
      match reply
      case Fail(f) =>
        ClearAuth();
        outcome := Throw(f);
      case Ok(p) =>
        api.storage := StoreRefresh(api.storage, p);
        token := Some(p.accessToken);
        api.defaultAuthorization := Some(Bearer(p.accessToken));
        outcome := Pass;
    }

    method InitializeAuth()
      modifies this, api
      ensures State() == InitializeSpec(old(State()))
    {
      var storedToken := TokenAt(api.storage, AccessTokenKey);
      var refreshStored := TokenAt(api.storage, RefreshTokenKey).Some?;
      if storedToken.Some? && Truthy(api.storage, UserKey) {
        token := storedToken;
        var parsed := ParseUser(api.storage[UserKey]);
        if parsed.None? {
          ClearAuth();
        } else {
          user := parsed;
          api.defaultAuthorization := Some(Bearer(storedToken.value));
          var reply := api.Send(ProfilePath);
          if reply.Fail? {
            if IsUnauthorized(reply.failure) && refreshStored {
              var refreshed := RefreshToken();
              if refreshed.Throw? {
                ClearAuth();
              }
            } else {
              ClearAuth();
            }
          }
        }
      }
      isLoading := false;
    }
  }
}
