/**
  The token lifecycle: when an exchange is needed, which exchange is made (login or
  refresh), and how the response to it updates the token state.
 */
module Auth {
  import opened Wrappers
  import opened OrderedMap
  import opened Http

  const LoginPath := "wms/auth/login"
  const RefreshPath := "wms/auth/refresh"

  /** The three token fields of the client. `expiresAt` is in epoch seconds. */
  datatype TokenState = TokenState(accessToken: Option<string>, refreshToken: Option<string>, expiresAt: int)

  /** The token state of a freshly constructed client. */
  const Initial := TokenState(None, None, 0)

  /** `not access_token or now > expires_at`: the held access token cannot be used at `now`. */
  predicate NeedsExchange(st: TokenState, now: int) {
    !Truthy(st.accessToken) || now > st.expiresAt
  }

  /** The body of a login exchange. */
  function LoginData(cfg: Config): Json {
    JObj(map["username" := JStr(cfg.username), "password" := JStr(cfg.password)])
  }

  /** The body of a refresh exchange. */
  function RefreshData(token: string): Json {
    JObj(map["refresh_token" := JStr(token)])
  }

  /** The POST `_send_auth` makes: JSON body, the common headers, no `Authorization`. */
  function AuthRequest(cfg: Config, ua: string, path: string, data: Json): (q: Request)
    ensures Lookup(q.headers, "Authorization") == None
  {
    var h := Headers(cfg, ua);
    HeadersLackAuthorization(cfg, ua);
    Request("POST", AuthUrl(cfg.url, path), h, Some(data), None)
  }

  /**
    The exchange `request_access_token` makes: a login with username and password when
    no truthy refresh token is held, a refresh with that token otherwise.
   */
  function ExchangeRequest(cfg: Config, ua: string, st: TokenState): Request {
    if !Truthy(st.refreshToken) then AuthRequest(cfg, ua, LoginPath, LoginData(cfg))
    else AuthRequest(cfg, ua, RefreshPath, RefreshData(st.refreshToken.value))
  }

  /** `data[key]`: present only when the body is an object holding the key. */
  function Field(data: Json, key: string): Option<Json> {
    if data.JObj? && key in data.fields then Some(data.fields[key]) else None
  }

  /** A token field of a 200 body: a string, or null for `None`. */
  function ReadToken(data: Json, key: string): Result<Option<string>> {
    match Field(data, key)
    case None => Err(MissingField(key))
    case Some(JStr(s)) => Ok(Some(s))
    case Some(JNull) => Ok(None)
    case Some(_) => Err(UnsupportedValue(key))
  }

  /** The `expires_at` field of a 200 body. */
  function ReadInt(data: Json, key: string): Result<int> {
    match Field(data, key)
    case None => Err(MissingField(key))
    case Some(JInt(n)) => Ok(n)
    case Some(_) => Err(UnsupportedValue(key))
  }

  /** A 200 body from which all three token fields can be read. */
  predicate Complete(data: Json) {
    ReadToken(data, "refresh_token").Ok? && ReadToken(data, "token").Ok? && ReadInt(data, "expires_at").Ok?
  }

  /**
    `_send_auth` once the response is in: a non-200 status raises AuthenticationError with
    the body's "message" and changes nothing; a 200 status overwrites refresh token, access
    token and expiry from the body's "refresh_token", "token" and "expires_at".
   */
  function ReceiveAuth(st: TokenState, resp: Response): (r: (Outcome, TokenState))
    ensures r.0.Pass? <==> resp.status == 200 && resp.body.Some? && Complete(resp.body.value)
    ensures r.0.Pass? ==> r.1 == TokenState(
      ReadToken(resp.body.value, "token").value,
      ReadToken(resp.body.value, "refresh_token").value,
      ReadInt(resp.body.value, "expires_at").value)
    ensures resp.status != 200 ==> r.0.Fail? && r.1 == st
    ensures resp.status != 200 && resp.body.Some? && Field(resp.body.value, "message").Some? ==>
      r.0 == Fail(AuthenticationError(Field(resp.body.value, "message").value))
    ensures r.0.Fail? ==> r.1.expiresAt == st.expiresAt
  {
    match resp.body
    case None => (Fail(UndecodableBody), st)
    case Some(data) =>
      if resp.status != 200 then
        match Field(data, "message")
        case None => (Fail(MissingField("message")), st)
        case Some(m) => (Fail(AuthenticationError(m)), st)
      else
        match ReadToken(data, "refresh_token")
        case Err(f) => (Fail(f), st)
        case Ok(rt) =>
          var st1 := st.(refreshToken := rt);
          match ReadToken(data, "token")
          case Err(f) => (Fail(f), st1)
          case Ok(at) =>
            var st2 := st1.(accessToken := at);
            match ReadInt(data, "expires_at")
            case Err(f) => (Fail(f), st2)
            case Ok(e) => (Pass, st2.(expiresAt := e))
  }

  /** The result of `_authenticate`: its outcome, the new token state and the requests it sent. */
  datatype AuthStep = AuthStep(outcome: Outcome, tokens: TokenState, sent: seq<Request>)

  /**
    `_authenticate` at time `now`: one exchange exactly when the held token cannot be used,
    none otherwise; the state changes only through the response to that exchange.
   */
  function Authenticate(cfg: Config, ua: string, st: TokenState, now: int, transport: Request -> Response): (r: AuthStep)
    ensures |r.sent| == if NeedsExchange(st, now) then 1 else 0
    ensures !NeedsExchange(st, now) ==> r.outcome == Pass && r.tokens == st
    ensures forall q :: q in r.sent ==> q.verb == "POST" && Lookup(q.headers, "Authorization") == None
    ensures NeedsExchange(st, now) ==> r.sent == [ExchangeRequest(cfg, ua, st)]
    ensures NeedsExchange(st, now) ==> (r.outcome, r.tokens) == ReceiveAuth(st, transport(r.sent[0]))
  {
    if NeedsExchange(st, now) then
      var q := ExchangeRequest(cfg, ua, st);
      var (o, st') := ReceiveAuth(st, transport(q));
      AuthStep(o, st', [q])
    else AuthStep(Pass, st, [])
  }

  // ---------------------------------------------------------------- lemmas

  /** A new client always logs in on its first call, whatever the clock says. */
  lemma InitialLogsIn(cfg: Config, ua: string, now: int, transport: Request -> Response)
    ensures Authenticate(cfg, ua, Initial, now, transport).sent
      == [AuthRequest(cfg, ua, LoginPath, LoginData(cfg))]
  {
  }

  /**
    The exchange is a login exactly when no truthy refresh token is held; its URL is the
    base URL, "/", and the login or refresh path.
   */
  lemma ExchangeChoice(cfg: Config, ua: string, st: TokenState)
    ensures var q := ExchangeRequest(cfg, ua, st);
      && (q.url == AuthUrl(cfg.url, LoginPath) <==> !Truthy(st.refreshToken))
      && (q.url == AuthUrl(cfg.url, RefreshPath) <==> Truthy(st.refreshToken))
      && q.json == Some(if Truthy(st.refreshToken) then RefreshData(st.refreshToken.value) else LoginData(cfg))
  {
    var q := ExchangeRequest(cfg, ua, st);
    var n := |cfg.url| + 1;
    if Truthy(st.refreshToken) {
      assert q.url[n..] == RefreshPath;
      assert q.url != AuthUrl(cfg.url, LoginPath) by {
        assert AuthUrl(cfg.url, LoginPath)[n..] == LoginPath;
        assert |RefreshPath| != |LoginPath|;
      }
    } else {
      assert q.url[n..] == LoginPath;
      assert q.url != AuthUrl(cfg.url, RefreshPath) by {
        assert AuthUrl(cfg.url, RefreshPath)[n..] == RefreshPath;
      }
    }
  }

  /**
    The login body is an object holding exactly "username" and "password" with the
    configured values; the refresh body holds exactly "refresh_token" with the held token.
   */
  lemma ExchangeBodies(cfg: Config, token: string)
    ensures LoginData(cfg).JObj? && LoginData(cfg).fields.Keys == {"username", "password"}
    ensures Field(LoginData(cfg), "username") == Some(JStr(cfg.username))
    ensures Field(LoginData(cfg), "password") == Some(JStr(cfg.password))
    ensures RefreshData(token).JObj? && RefreshData(token).fields.Keys == {"refresh_token"}
    ensures Field(RefreshData(token), "refresh_token") == Some(JStr(token))
  {
    assert "username" != "password" by { assert "username"[0] != "password"[0]; }
  }

  /**
    Expiry is one-way: a state whose token cannot be used at `now` cannot be used at any
    later time either; a usable truthy token stays usable at every earlier time.
   */
  lemma {:induction false} ExchangeStaysNeeded(st: TokenState, now: int, later: int)
    requires now <= later
    ensures NeedsExchange(st, now) ==> NeedsExchange(st, later)
    ensures !NeedsExchange(st, later) ==> !NeedsExchange(st, now)
  {
  }

  /**
    A body that is not a JSON object yields none of the fields: each read fails with
    MissingField naming the field (Python raises TypeError there, a KeyError for a missing key).
   */
  lemma NonObjectBodyMissesFields(data: Json)
    requires !data.JObj?
    ensures Field(data, "message").None?
    ensures ReadToken(data, "refresh_token") == Err(MissingField("refresh_token"))
    ensures ReadToken(data, "token") == Err(MissingField("token"))
    ensures ReadInt(data, "expires_at") == Err(MissingField("expires_at"))
  {
  }

  /**
    A failed refresh does not fall back to a login: exactly the refresh request is sent,
    the call fails and the token state is left as it was.
   */
  lemma NoFallbackToLogin(cfg: Config, ua: string, st: TokenState, now: int, transport: Request -> Response)
    requires NeedsExchange(st, now) && Truthy(st.refreshToken)
    requires transport(AuthRequest(cfg, ua, RefreshPath, RefreshData(st.refreshToken.value))).status != 200
    ensures var r := Authenticate(cfg, ua, st, now, transport);
      && r.sent == [AuthRequest(cfg, ua, RefreshPath, RefreshData(st.refreshToken.value))]
      && r.outcome.Fail? && r.tokens == st
  {
  }

  /**
    A 200 response overwrites all three fields together; any other status keeps all three.
    Starting from the new client, a complete 200 login yields exactly the tokens of the body.
   */
  lemma LoginSetsTokens(cfg: Config, ua: string, now: int, transport: Request -> Response)
    requires var resp := transport(AuthRequest(cfg, ua, LoginPath, LoginData(cfg)));
      resp.status == 200 && resp.body.Some? && Complete(resp.body.value)
    ensures var data := transport(AuthRequest(cfg, ua, LoginPath, LoginData(cfg))).body.value;
      Authenticate(cfg, ua, Initial, now, transport) == AuthStep(Pass,
        TokenState(ReadToken(data, "token").value, ReadToken(data, "refresh_token").value,
                   ReadInt(data, "expires_at").value),
        [AuthRequest(cfg, ua, LoginPath, LoginData(cfg))])
  {
  }

  /**
    A usable token is reused: after a successful exchange that yields a truthy access token,
    any later call no later than its expiry sends nothing and keeps the state.
   */
  lemma FreshTokenReused(cfg: Config, ua: string, st: TokenState, now: int, later: int,
                         transport: Request -> Response)
    requires var r := Authenticate(cfg, ua, st, now, transport);
      r.outcome.Pass? && Truthy(r.tokens.accessToken) && later <= r.tokens.expiresAt
    ensures var t := Authenticate(cfg, ua, st, now, transport).tokens;
      Authenticate(cfg, ua, t, later, transport) == AuthStep(Pass, t, [])
  {
  }

  /** Once past its expiry, a truthy access token is replaced through exactly one exchange. */
  lemma ExpiryForcesExchange(cfg: Config, ua: string, st: TokenState, now: int, transport: Request -> Response)
    requires Truthy(st.accessToken) && now > st.expiresAt
    ensures Authenticate(cfg, ua, st, now, transport).sent == [ExchangeRequest(cfg, ua, st)]
  {
  }

  /**
    `_send_auth` is not atomic: when a 200 body holds "refresh_token" but no usable "token",
    the refresh token has already been overwritten when the call fails.
   */
  lemma RefreshTokenWrittenFirst(st: TokenState, resp: Response)
    requires resp.status == 200 && resp.body.Some?
    requires ReadToken(resp.body.value, "refresh_token").Ok? && ReadToken(resp.body.value, "token").Err?
    ensures ReceiveAuth(st, resp) == (Fail(ReadToken(resp.body.value, "token").failure),
      st.(refreshToken := ReadToken(resp.body.value, "refresh_token").value))
  {
  }
}
