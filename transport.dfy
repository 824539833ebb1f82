/** The shared HTTP client of the dashboard (utils/axiosConfig.ts): a request
    interceptor that attaches the stored access token as a bearer credential,
    and a response interceptor that answers a first 401 with one token
    refresh and one replay of the request.

    The browser state the interceptors touch is held by one `Api` object:
    the key/value store (localStorage), the client's default Authorization
    header and whether the page was sent to /login. The remote API is a
    script of replies consumed one per network call (an exhausted script is
    a server that never answers, which the client's timeout turns into a
    failure without a response); every call made is logged. */
module Transport {
  import opened Common

  /** The staff member a session belongs to. */
  datatype User = User(
    id: string, name: string, email: string, role: string,
    department: string, isActive: bool, createdAt: string, lastLogin: string)

  /** Why an awaited call rejected. */
  datatype Failure =
    | HttpError(status: int, errorText: string)  // the server answered with this status; `errorText` is its `error` field, "" if none
    | NoResponse                                 // no answer arrived
    | Raised(message: string)                    // an Error thrown by the client code itself

  /** The fields of a successful answer that the session code reads. */
  datatype Payload = Payload(user: User, accessToken: string, refreshToken: string, expiresAt: string)

  /** The server's answer to one network call. */
  datatype Reply = Ok(data: Payload) | Fail(failure: Failure)

  /** A value in the key/value store: plain text, or the JSON text of a user. */
  datatype Item = Text(text: string) | UserJson(user: User)

  /** One network call: the path it went to and its Authorization header. */
  datatype Call = Call(path: string, authorization: Option<string>)

  const AccessTokenKey := "access_token"
  const RefreshTokenKey := "refresh_token"
  const UserKey := "user"
  const ExpiresAtKey := "expires_at"

  const LoginPath := "/auth/staff/login"
  const RefreshPath := "/auth/staff/refresh"
  const LogoutPath := "/auth/staff/logout"
  const ProfilePath := "/staff/me/profile"

  const NoRefreshTokenMessage := "No refresh token available"

  /** The bearer credential of section 2.1 of RFC 6750. */
  function Bearer(token: string): (h: string)
    ensures |h| == |token| + 7 && h[7..] == token
  {
    "Bearer " + token
  }

  /** `localStorage.getItem(key)` used as a token: a non-empty text, or
      nothing when the key is absent or empty (both falsy in the source). */
  function TokenAt(storage: map<string, Item>, key: string): (t: Option<string>)
    ensures t.Some? <==> key in storage && storage[key].Text? && storage[key].text != ""
    ensures t.Some? ==> storage[key] == Text(t.value)
  {
    if key in storage && storage[key].Text? && storage[key].text != "" then Some(storage[key].text) else None
  }

  /** The stored item is present and not the empty text. */
  predicate Truthy(storage: map<string, Item>, key: string)
  {
    key in storage && storage[key] != Text("")
  }

  /** HTTP 401 (section 15.5.2 of RFC 9110). */
  predicate IsUnauthorized(f: Failure)
  {
    f.HttpError? && f.status == 401
  }

  /** A snapshot of everything the client and the network hold. */
  datatype Net = Net(
    storage: map<string, Item>,
    defaultAuthorization: Option<string>,
    redirectedToLogin: bool,
    server: seq<Reply>,
    calls: seq<Call>)

  /** A state after an awaited call, with what the call gave back. */
  datatype Sent = Sent(net: Net, reply: Reply)

  /** The server's next reply; none is left means no answer. */
  function NextReply(server: seq<Reply>): Reply
  {
    if server == [] then Fail(NoResponse) else server[0]
  }

  /** One network call: logged, and answered by the next scripted reply. */
  function DispatchSpec(n: Net, path: string, authorization: Option<string>): (s: Sent)
    ensures s.net.calls == n.calls + [Call(path, authorization)]
    ensures s.net.storage == n.storage && s.net.defaultAuthorization == n.defaultAuthorization
    ensures s.net.redirectedToLogin == n.redirectedToLogin
    ensures n.server != [] ==> s.reply == n.server[0] && s.net.server == n.server[1..]
    ensures n.server == [] ==> s.reply == Fail(NoResponse) && s.net.server == []
  {
    Sent(n.(server := if n.server == [] then [] else n.server[1..],
            calls := n.calls + [Call(path, authorization)]),
         NextReply(n.server))
  }

  /** The request interceptor: the stored access token as a bearer
      credential when there is one, otherwise whatever header the request
      already carried (the client default, or the header set for a replay). */
  function RequestHeader(storage: map<string, Item>, carried: Option<string>): (h: Option<string>)
    ensures TokenAt(storage, AccessTokenKey).Some? ==> h == Some(Bearer(storage[AccessTokenKey].text))
    ensures TokenAt(storage, AccessTokenKey).None? ==> h == carried
  {
    match TokenAt(storage, AccessTokenKey)
    case Some(t) => Some(Bearer(t))
    case None => carried
  }

  /** The refresh failure path: the whole store is cleared and the page is
      sent to /login; the default header is left as it was. */
  function Wipe(n: Net): (m: Net)
    ensures m.storage == map[] && m.redirectedToLogin
    ensures m.defaultAuthorization == n.defaultAuthorization && m.calls == n.calls && m.server == n.server
  {
    n.(storage := map[], redirectedToLogin := true)
  }

  /** The store after the interceptor's refresh: new access and refresh
      tokens, every other key (`expires_at` too) as it was. */
  function StoreRefreshed(storage: map<string, Item>, p: Payload): map<string, Item>
  {
    storage[AccessTokenKey := Text(p.accessToken)][RefreshTokenKey := Text(p.refreshToken)]
  }

  /** The response interceptor after a first 401: the request is marked as
      retried, the stored refresh token is exchanged once, and the request is
      replayed once with the new credential. A second 401 on the replay is
      handed back as it is. */
  function RetrySpec(n: Net, path: string): (s: Sent)
    ensures TokenAt(n.storage, RefreshTokenKey).None? ==> s.net.calls == n.calls && s.reply.Fail?
    ensures s.reply.Ok? ==> TokenAt(n.storage, RefreshTokenKey).Some? && AccessTokenKey in s.net.storage
    ensures s.net.redirectedToLogin != n.redirectedToLogin ==> s.net.storage == map[] && s.reply.Fail?
  {
    match TokenAt(n.storage, RefreshTokenKey)
    case None => Sent(Wipe(n), Fail(Raised(NoRefreshTokenMessage)))
    case Some(_) =>
      // the refresh goes out on the bare client: no interceptor, no default header
      var refreshed := DispatchSpec(n, RefreshPath, None);
      match refreshed.reply
      case Fail(f) => Sent(Wipe(refreshed.net), Fail(f))
      case Ok(p) =>
        var header := Some(Bearer(p.accessToken));
        var m := refreshed.net.(storage := StoreRefreshed(refreshed.net.storage, p), defaultAuthorization := header);
        DispatchSpec(m, path, RequestHeader(m.storage, header))
  }

  /** One request through both interceptors. */
  function SendSpec(n: Net, path: string): (s: Sent)
    ensures s.net.redirectedToLogin != n.redirectedToLogin ==> s.net.storage == map[] && s.reply.Fail?
    ensures s.reply.Ok? && s.net.storage != n.storage ==> |s.net.calls| == |n.calls| + 3
  {
    var first := DispatchSpec(n, path, RequestHeader(n.storage, n.defaultAuthorization));
    if first.reply.Fail? && IsUnauthorized(first.reply.failure) then RetrySpec(first.net, path)
    else first
  }

  /** A request makes one, two or three network calls: the request, then at
      most one refresh, then at most one replay. Only the second can go to
      the refresh endpoint; the retry is bounded. */
  lemma SendBounded(n: Net, path: string)
    ensures var calls := SendSpec(n, path).net.calls;
      && |n.calls| + 1 <= |calls| <= |n.calls| + 3
      && calls[..|n.calls|] == n.calls
      && calls[|n.calls|].path == path
      && (|calls| >= |n.calls| + 2 ==> calls[|n.calls| + 1] == Call(RefreshPath, None))
      && (|calls| == |n.calls| + 3 ==> calls[|n.calls| + 2].path == path)
  {
  }

  /** The first dispatch carries `Bearer t` exactly when the store holds the
      access token t; without a stored token it carries the client's default
      header, whatever that is. */
  lemma SendAttachesStoredToken(n: Net, path: string)
    ensures var first := SendSpec(n, path).net.calls[|n.calls|];
      && ((AccessTokenKey in n.storage && n.storage[AccessTokenKey].Text? && n.storage[AccessTokenKey].text != "")
          ==> first.authorization == Some(Bearer(n.storage[AccessTokenKey].text)))
      && (TokenAt(n.storage, AccessTokenKey).None? ==> first.authorization == n.defaultAuthorization)
  {
  }

  /** Successes and failures other than 401 pass through unchanged and
      touch nothing but the log and the script. */
  lemma SendPassesThrough(n: Net, path: string)
    requires NextReply(n.server).Ok? || !IsUnauthorized(NextReply(n.server).failure)
    ensures var s := SendSpec(n, path);
      && s.reply == NextReply(n.server)
      && s.net.storage == n.storage
      && s.net.defaultAuthorization == n.defaultAuthorization
      && s.net.redirectedToLogin == n.redirectedToLogin
      && |s.net.calls| == |n.calls| + 1
  {
  }

  /** A 401 with no stored refresh token never reaches the refresh endpoint:
      the store is cleared, the page goes to /login, and the request rejects
      with "No refresh token available". */
  lemma SendWithoutRefreshToken(n: Net, path: string)
    requires NextReply(n.server).Fail? && IsUnauthorized(NextReply(n.server).failure)
    requires TokenAt(n.storage, RefreshTokenKey).None?
    ensures var s := SendSpec(n, path);
      && s.reply == Fail(Raised(NoRefreshTokenMessage))
      && s.net.storage == map[] && s.net.redirectedToLogin
      && |s.net.calls| == |n.calls| + 1
  {
  }

  /** A 401 followed by a successful refresh stores the new access and
      refresh tokens (leaving `expires_at`, the user and every other key as
      they were), sets the default header, and replays the request once with
      the new credential; the replay's reply is the request's reply. */
  lemma SendRefreshSucceeds(n: Net, path: string, p: Payload)
    requires |n.server| >= 2
    requires n.server[0].Fail? && IsUnauthorized(n.server[0].failure)
    requires TokenAt(n.storage, RefreshTokenKey).Some?
    requires n.server[1] == Ok(p)
    ensures var s := SendSpec(n, path);
      && s.net.storage.Keys == n.storage.Keys + {AccessTokenKey, RefreshTokenKey}
      && s.net.storage[AccessTokenKey] == Text(p.accessToken)
      && s.net.storage[RefreshTokenKey] == Text(p.refreshToken)
      && (forall k :: k in n.storage && k != AccessTokenKey && k != RefreshTokenKey ==> s.net.storage[k] == n.storage[k])
      && s.net.defaultAuthorization == Some(Bearer(p.accessToken))
      && s.net.redirectedToLogin == n.redirectedToLogin
      && s.net.calls == n.calls + [Call(path, RequestHeader(n.storage, n.defaultAuthorization)),
                                   Call(RefreshPath, None),
                                   Call(path, Some(Bearer(p.accessToken)))]
      && s.reply == NextReply(n.server[2..])
  {
  }

  /** A 401 whose refresh fails clears the whole store, sends the page to
      /login and rejects with the refresh's own failure. */
  lemma SendRefreshFails(n: Net, path: string, f: Failure)
    requires n.server != []
    requires n.server[0].Fail? && IsUnauthorized(n.server[0].failure)
    requires TokenAt(n.storage, RefreshTokenKey).Some?
    requires NextReply(n.server[1..]) == Fail(f)
    ensures var s := SendSpec(n, path);
      && s.reply == Fail(f)
      && s.net.storage == map[] && s.net.redirectedToLogin
      && |s.net.calls| == |n.calls| + 2
  {
  }

  class Api {
    var storage: map<string, Item>
    var defaultAuthorization: Option<string>
    var redirectedToLogin: bool
    var server: seq<Reply>
    var calls: seq<Call>

    function Snapshot(): Net
      reads this
    {
      Net(storage, defaultAuthorization, redirectedToLogin, server, calls)
    }

    /** A client over a given store, facing a given script of replies. */
    constructor (storage: map<string, Item>, server: seq<Reply>)
      ensures Snapshot() == Net(storage, None, false, server, [])
    {
      this.storage := storage;
      this.defaultAuthorization := None;
      this.redirectedToLogin := false;
      this.server := server;
      this.calls := [];
    }

    /** One network call. */
    method Dispatch(path: string, authorization: Option<string>) returns (reply: Reply)
      modifies this
      ensures Sent(Snapshot(), reply) == DispatchSpec(old(Snapshot()), path, authorization)
    {
      calls := calls + [Call(path, authorization)];
      if server == [] {
        reply := Fail(NoResponse);
      } else {
        reply := server[0];
        server := server[1..];
      }
    }

    /** `api(request)`: the request interceptor, the call, and the response
      interceptor with its single refresh and replay. */
    method Send(path: string) returns (reply: Reply)
      modifies this
      ensures Sent(Snapshot(), reply) == SendSpec(old(Snapshot()), path)
    {
      reply := Dispatch(path, RequestHeader(storage, defaultAuthorization));
      if reply.Fail? && IsUnauthorized(reply.failure) {
        // originalRequest._retry = true
        var refreshToken := TokenAt(storage, RefreshTokenKey);
        if refreshToken.None? {
          storage := map[];
          redirectedToLogin := true;
          reply := Fail(Raised(NoRefreshTokenMessage));
          return;
        }
        var refreshed := Dispatch(RefreshPath, None);
        if refreshed.Fail? {
          storage := map[];
          redirectedToLogin := true;
          reply := refreshed;
          return;
        }
        var p := refreshed.data;
        storage := StoreRefreshed(storage, p);
        defaultAuthorization := Some(Bearer(p.accessToken));
        reply := Dispatch(path, RequestHeader(storage, Some(Bearer(p.accessToken))));
      }
    }
  }
}
