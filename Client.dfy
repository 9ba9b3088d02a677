/**
  The client object: its configuration, its three token fields and its ordered user-agent
  components, updated in place by its methods. Network I/O is the `transport` oracle and the
  clock is the `now` argument.
 */
module Client {
  import opened Wrappers
  import opened Text
  import opened OrderedMap
  import opened UserAgent
  import opened Http
  import Auth
  import Dispatch

  class EwhsClient {
    const username: string
    const password: string
    const customerCode: Option<string>
    const wmsCode: Option<string>
    const url: string
    /** The host description sent as `X-Ewhs-Client-Info`. */
    const uname: string

    var accessToken: Option<string>
    var refreshToken: Option<string>
    var expiresAt: int
    /** The user-agent components, in insertion order. */
    var components: Pairs

    /** The components form a dictionary: no key twice. */
    ghost predicate Valid()
      reads this`components
    {
      DistinctKeys(components)
    }

    function Configuration(): Config {
      Config(url, username, password, customerCode, wmsCode, uname)
    }

    function Tokens(): Auth.TokenState
      reads this`accessToken, this`refreshToken, this`expiresAt
    {
      Auth.TokenState(accessToken, refreshToken, expiresAt)
    }

    /**
      The `user_agent` property: the components as space-separated `key/value` items, from
      which well-formed components can be read back in order.
     */
    function Agent(): (ua: string)
      reads this`components
      ensures WellFormed(components) ==> Parse(ua) == components
    {
      if WellFormed(components) then
        SerializeRoundTrip(components);
        Serialize(components)
      else Serialize(components)
    }

    /**
      A new client holds no tokens, expiry 0, uses the given base URL when it is truthy, and
      announces the client version first and the runtime version second.
     */
    constructor (username: string, password: string, customerCode: Option<string>,
                 wmsCode: Option<string>, apiUrl: Option<string>, uname: string,
                 pythonVersion: string)
      ensures Valid()
      ensures Tokens() == Auth.Initial
      ensures Configuration() == Config(BaseUrl(apiUrl), username, password, customerCode, wmsCode, uname)
      ensures components == [(ClientName, ClientVersion), (RuntimeName, SanitizeValue(pythonVersion))]
      ensures Agent() == Item(ClientName, ClientVersion) + " " + Item(RuntimeName, SanitizeValue(pythonVersion))
    {
      this.username := username;
      this.password := password;
      this.customerCode := customerCode;
      this.wmsCode := wmsCode;
      this.uname := uname;
      url := BaseUrl(apiUrl);
      components := [];
      accessToken := None;
      refreshToken := None;
      expiresAt := 0;
      new;
      RegisterDefaults(pythonVersion);
    }

    /** The two components every client announces, registered through the sanitizing setter. */
    method RegisterDefaults(pythonVersion: string)
      requires components == []
      modifies this`components
      ensures Valid()
      ensures components == [(ClientName, ClientVersion), (RuntimeName, SanitizeValue(pythonVersion))]
      ensures Agent() == Item(ClientName, ClientVersion) + " " + Item(RuntimeName, SanitizeValue(pythonVersion))
    {
      ClientNameKept(ClientName);
      RuntimeNameKept(RuntimeName);
      ClientVersionKept(ClientVersion);
      SetUserAgentComponent(ClientName, ClientVersion, true);
      SetUserAgentComponent(RuntimeName, pythonVersion, true);
      assert ClientName != RuntimeName by { assert |ClientName| != |RuntimeName|; }
      InitialComponents(ClientName, ClientVersion, RuntimeName, SanitizeValue(pythonVersion));
    }

    /**
      `set_user_agent_component`: stores the (sanitized, when asked) key and value; a present
      key keeps its position, a new key goes last.
     */
    method SetUserAgentComponent(key: string, value: string, sanitize: bool)
      requires Valid()
      modifies this`components
      ensures Valid()
      ensures components == Put(old(components),
        if sanitize then SanitizeKey(key) else key,
        if sanitize then SanitizeValue(value) else value)
    {
      var k, v := key, value;
      if sanitize {
        k := SanitizeKey(key);
        v := SanitizeValue(value);
      }
      PutDistinct(components, k, v);
      components := Put(components, k, v);
    }

    /** `_get_headers`: the default headers, then each scoping header whose code is truthy. */
    method GetHeaders() returns (headers: Pairs)
      ensures headers == Headers(Configuration(), Agent())
    {
      headers := DefaultHeaders(Agent(), uname);
      DefaultHeadersFacts(Agent(), uname);
      if Truthy(customerCode) {
        PutAppends(headers, "X-Customer-Code", customerCode.value);
        headers := Put(headers, "X-Customer-Code", customerCode.value);
      }
      assert headers == DefaultHeaders(Agent(), uname) + CodeHeader("X-Customer-Code", customerCode);
      if Truthy(wmsCode) {
        assert Keys(headers) == Keys(DefaultHeaders(Agent(), uname)) + Keys(CodeHeader("X-Customer-Code", customerCode));
        PutAppends(headers, "X-Wms-Code", wmsCode.value);
        headers := Put(headers, "X-Wms-Code", wmsCode.value);
      }
    }

    /**
      `_send_auth`: posts to `{base}/{path}` and, on status 200, assigns refresh token, access
      token and expiry one after the other; on any other status raises and assigns nothing.
     */
    method SendAuth(path: string, postData: Json, transport: Request -> Response)
      returns (outcome: Outcome, request: Request)
      modifies this`accessToken, this`refreshToken, this`expiresAt
      ensures request == Auth.AuthRequest(Configuration(), Agent(), path, postData)
      ensures (outcome, Tokens()) == Auth.ReceiveAuth(old(Tokens()), transport(request))
    {
      var headers := GetHeaders();
      request := Request("POST", AuthUrl(url, path), headers, Some(postData), None);
      var response := transport(request);
      if response.body.None? {
        return Fail(UndecodableBody), request;
      }
      var data := response.body.value;
      if response.status != 200 {
        var message := Auth.Field(data, "message");
        if message.None? {
          return Fail(MissingField("message")), request;
        }
        return Fail(AuthenticationError(message.value)), request;
      }
      var newRefresh := Auth.ReadToken(data, "refresh_token");
      if newRefresh.Err? {
        return Fail(newRefresh.failure), request;
      }
      refreshToken := newRefresh.value;
      var newAccess := Auth.ReadToken(data, "token");
      if newAccess.Err? {
        return Fail(newAccess.failure), request;
      }
      accessToken := newAccess.value;
      var newExpiry := Auth.ReadInt(data, "expires_at");
      if newExpiry.Err? {
        return Fail(newExpiry.failure), request;
      }
      expiresAt := newExpiry.value;
      outcome := Pass;
    }

    /** `request_refresh_token`: despite its name, the login exchange with username and password. */
    method RequestRefreshToken(transport: Request -> Response) returns (outcome: Outcome, request: Request)
      modifies this`accessToken, this`refreshToken, this`expiresAt
      ensures request == Auth.AuthRequest(Configuration(), Agent(), Auth.LoginPath, Auth.LoginData(Configuration()))
      ensures (outcome, Tokens()) == Auth.ReceiveAuth(old(Tokens()), transport(request))
    {
      outcome, request := SendAuth(Auth.LoginPath, Auth.LoginData(Configuration()), transport);
    }

    /** `request_access_token`: a login when no truthy refresh token is held, a refresh otherwise. */
    method RequestAccessToken(transport: Request -> Response) returns (outcome: Outcome, request: Request)
      modifies this`accessToken, this`refreshToken, this`expiresAt
      ensures request == Auth.ExchangeRequest(Configuration(), Agent(), old(Tokens()))
      ensures (outcome, Tokens()) == Auth.ReceiveAuth(old(Tokens()), transport(request))
    {
      if !Truthy(refreshToken) {
        outcome, request := RequestRefreshToken(transport);
        return;
      }
      outcome, request := SendAuth(Auth.RefreshPath, Auth.RefreshData(refreshToken.value), transport);
    }

    /** `_authenticate`: one exchange exactly when the held access token cannot be used at `now`. */
    method Authenticate(now: int, transport: Request -> Response) returns (outcome: Outcome, sent: seq<Request>)
      modifies this`accessToken, this`refreshToken, this`expiresAt
      ensures Auth.AuthStep(outcome, Tokens(), sent)
        == Auth.Authenticate(Configuration(), Agent(), old(Tokens()), now, transport)
    {
      if !Truthy(accessToken) || now > expiresAt {
        var request;
        outcome, request := RequestAccessToken(transport);
        sent := [request];
      } else {
        outcome, sent := Pass, [];
      }
    }

    /**
      The request `_send` makes once authenticated: the resource URL, the headers of
      `_get_headers` with the bearer token added last, the JSON body and the query.
     */
    method ResourceRequest(verb: string, resource: string, resourceId: Option<string>,
                           data: Option<Json>, params: Option<Json>) returns (request: Request)
      ensures request
        == Dispatch.ResourceRequest(Configuration(), Agent(), accessToken, verb, resource, resourceId, data, params)
    {
      var target := ResourceUrl(url, resource, resourceId);
      var headers := GetHeaders();
      HeadersLackAuthorization(Configuration(), Agent());
      PutAppends(headers, "Authorization", Bearer(accessToken));
      headers := Put(headers, "Authorization", Bearer(accessToken));
      request := Request(verb, target, headers, data, params);
    }

    /**
      `_send`: authenticate, then send the resource request with the bearer token and map its
      status code to the outcome.
     */
    method Send(verb: string, resource: string, resourceId: Option<string>, data: Option<Json>,
                params: Option<Json>, now: int, transport: Request -> Response)
      returns (result: Result<Option<Json>>, sent: seq<Request>)
      modifies this`accessToken, this`refreshToken, this`expiresAt
      ensures Dispatch.SendStep(result, Tokens(), sent)
        == Dispatch.Send(Configuration(), Agent(), old(Tokens()), verb, resource, resourceId, data, params, now, transport)
    {
      var outcome;
      outcome, sent := Authenticate(now, transport);
      if outcome.Fail? {
        result := Err(outcome.failure);
        return;
      }
      var request := ResourceRequest(verb, resource, resourceId, data, params);
      var response := transport(request);
      sent := sent + [request];
      result := MapStatus(response);
    }

    /**
      `filter`: GET with query parameters. `resource_id` and `data` can only arrive through
      `**kwargs`, which passes them on to `_send` by name.
     */
    method Filter(resource: string, params: Option<Json>, resourceId: Option<string>, data: Option<Json>,
                  now: int, transport: Request -> Response)
      returns (result: Result<Option<Json>>, sent: seq<Request>)
      modifies this`accessToken, this`refreshToken, this`expiresAt
      ensures Dispatch.SendStep(result, Tokens(), sent)
        == Dispatch.Send(Configuration(), Agent(), old(Tokens()), "GET", resource, resourceId, data, params, now, transport)
    {
      result, sent := Send("GET", resource, resourceId, data, params, now, transport);
    }

    /**
      `create`: POST of a body, which may be None. `resource_id` and `params` can only
      arrive through `**kwargs`.
     */
    method Create(resource: string, data: Option<Json>, resourceId: Option<string>, params: Option<Json>,
                  now: int, transport: Request -> Response)
      returns (result: Result<Option<Json>>, sent: seq<Request>)
      modifies this`accessToken, this`refreshToken, this`expiresAt
      ensures Dispatch.SendStep(result, Tokens(), sent)
        == Dispatch.Send(Configuration(), Agent(), old(Tokens()), "POST", resource, resourceId, data, params, now, transport)
    {
      result, sent := Send("POST", resource, resourceId, data, params, now, transport);
    }

    /**
      `update`: PATCH of a body to a resource id; both may be None. `params` can only arrive
      through `**kwargs`.
     */
    method Update(resource: string, resourceId: Option<string>, data: Option<Json>, params: Option<Json>,
                  now: int, transport: Request -> Response)
      returns (result: Result<Option<Json>>, sent: seq<Request>)
      modifies this`accessToken, this`refreshToken, this`expiresAt
      ensures Dispatch.SendStep(result, Tokens(), sent)
        == Dispatch.Send(Configuration(), Agent(), old(Tokens()), "PATCH", resource, resourceId, data, params, now, transport)
    {
      result, sent := Send("PATCH", resource, resourceId, data, params, now, transport);
    }

    /**
      `delete`: DELETE of a resource id, which may be None. `data` and `params` can only
      arrive through `**kwargs`.
     */
    method Delete(resource: string, resourceId: Option<string>, data: Option<Json>, params: Option<Json>,
                  now: int, transport: Request -> Response)
      returns (result: Result<Option<Json>>, sent: seq<Request>)
      modifies this`accessToken, this`refreshToken, this`expiresAt
      ensures Dispatch.SendStep(result, Tokens(), sent)
        == Dispatch.Send(Configuration(), Agent(), old(Tokens()), "DELETE", resource, resourceId, data, params, now, transport)
    {
      result, sent := Send("DELETE", resource, resourceId, data, params, now, transport);
    }

    /**
      `get`: GET of a resource id, which may be None. `data` and `params` can only arrive
      through `**kwargs`.
     */
    method Get(resource: string, resourceId: Option<string>, data: Option<Json>, params: Option<Json>,
               now: int, transport: Request -> Response)
      returns (result: Result<Option<Json>>, sent: seq<Request>)
      modifies this`accessToken, this`refreshToken, this`expiresAt
      ensures Dispatch.SendStep(result, Tokens(), sent)
        == Dispatch.Send(Configuration(), Agent(), old(Tokens()), "GET", resource, resourceId, data, params, now, transport)
    {
      result, sent := Send("GET", resource, resourceId, data, params, now, transport);
    }
  }
}
