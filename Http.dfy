/**
  What the client sends and receives: JSON values, requests, responses, the failures the
  client raises, URL and header construction, and the mapping of a resource response's
  status code to its outcome.
 */
module Http {
  import opened Wrappers
  import opened OrderedMap

  /** A parsed JSON document (floating-point numbers are not modelled). */
  datatype Json =
    | JNull
    | JBool(b: bool)
    | JInt(n: int)
    | JStr(s: string)
    | JArr(items: seq<Json>)
    | JObj(fields: map<string, Json>)

  /** One prepared HTTP request. */
  datatype Request = Request(
    verb: string,
    url: string,
    headers: Pairs,
    json: Option<Json>,
    params: Option<Json>)

  /** A response: its status code and its body, `None` when the body is not valid JSON. */
  datatype Response = Response(status: int, body: Option<Json>)

  /** The exceptions the client raises. */
  datatype Failure =
    | AuthenticationError(payload: Json)  // carries the 401 body, or an exchange's "message"
    | BadRequest                          // raised without a payload
    | ServerError
    | UndecodableBody                     // `response.json()` failed
    | MissingField(key: string)           // `data[key]` failed: no such key, or not an object
    | UnsupportedValue(key: string)       // a token field of a type the token state cannot hold

  datatype Result<+T> = Ok(value: T) | Err(failure: Failure)

  datatype Outcome = Pass | Fail(failure: Failure)

  /** What the client is constructed with. `uname` is the host description sent in every request. */
  datatype Config = Config(
    url: string,
    username: string,
    password: string,
    customerCode: Option<string>,
    wmsCode: Option<string>,
    uname: string)

  const ApiUrl := "https://api.ewarehousing.com"

  /** Python truthiness of an optional string: present and non-empty. */
  predicate Truthy(s: Option<string>) {
    s.Some? && s.value != ""
  }

  /** The base URL: the given one when it is truthy, the production endpoint otherwise. */
  function BaseUrl(apiUrl: Option<string>): (u: string)
    ensures Truthy(apiUrl) ==> u == apiUrl.value
    ensures !Truthy(apiUrl) ==> u == ApiUrl
  {
    if Truthy(apiUrl) then apiUrl.value else ApiUrl
  }

  /**
    `{base}/api/{resource}`, followed by `/{id}` exactly when an id is given (`is not None`,
    so an empty id still adds the "/").
   */
  function ResourceUrl(base: string, resource: string, id: Option<string>): (u: string)
    ensures var prefix := base + "/api/" + resource;
      |prefix| <= |u| && u[..|prefix|] == prefix
    ensures id.None? ==> u == base + "/api/" + resource
    ensures id.Some? ==> u == base + "/api/" + resource + "/" + id.value
  {
    var u := base + "/api/" + resource;
    if id.Some? then u + "/" + id.value else u
  }

  /** `{base}/{path}` for the two authentication endpoints. */
  function AuthUrl(base: string, path: string): string {
    base + "/" + path
  }

  /** The four headers every request carries. */
  function DefaultHeaders(ua: string, uname: string): Pairs {
    [("Accept", "application/json"),
     ("Content-Type", "application/json"),
     ("User-Agent", ua),
     ("X-Ewhs-Client-Info", uname)]
  }

  /** What the four default headers hold, looked up by name. */
  lemma DefaultHeadersFacts(ua: string, uname: string)
    ensures DistinctKeys(DefaultHeaders(ua, uname))
    ensures Keys(DefaultHeaders(ua, uname)) == DefaultNames
    ensures Lookup(DefaultHeaders(ua, uname), "Accept") == Some("application/json")
    ensures Lookup(DefaultHeaders(ua, uname), "Content-Type") == Some("application/json")
    ensures Lookup(DefaultHeaders(ua, uname), "User-Agent") == Some(ua)
    ensures Lookup(DefaultHeaders(ua, uname), "X-Ewhs-Client-Info") == Some(uname)
  {
    var d := DefaultHeaders(ua, uname);
    assert d[1..][1..][1..][1..] == [];
    assert Keys(d) == DefaultNames;
    LookupAt(d, 2);
    LookupAt(d, 3);
  }

  /** The names of the four default headers, in order. */
  const DefaultNames: seq<string> := ["Accept", "Content-Type", "User-Agent", "X-Ewhs-Client-Info"]

  /**
    `if code: headers[name] = code` on headers that do not hold `name` yet: one trailing
    header for a truthy code, nothing otherwise.
   */
  function CodeHeader(name: string, code: Option<string>): Pairs {
    if Truthy(code) then [(name, code.value)] else []
  }

  /**
    The headers of every request: the four defaults, then `X-Customer-Code` and `X-Wms-Code`
    only when those codes are truthy, in that order; no header name occurs twice.
   */
  function Headers(cfg: Config, ua: string): (h: Pairs)
    ensures DistinctKeys(h)
    ensures Keys(h) == DefaultNames
      + (if Truthy(cfg.customerCode) then ["X-Customer-Code"] else [])
      + (if Truthy(cfg.wmsCode) then ["X-Wms-Code"] else [])
  {
    var d := DefaultHeaders(ua, cfg.uname);
    DefaultHeadersFacts(ua, cfg.uname);
    var c := CodeHeader("X-Customer-Code", cfg.customerCode);
    var w := CodeHeader("X-Wms-Code", cfg.wmsCode);
    assert Keys(d + c) == Keys(d) + Keys(c);
    assert DistinctKeys(d + c) by {
      if c != [] { AppendDistinct(d, c[0]); assert d + c == d + [c[0]]; }
      else { assert d + c == d; }
    }
    assert Keys(d + c + w) == Keys(d + c) + Keys(w);
    assert DistinctKeys(d + c + w) by {
      if w != [] { AppendDistinct(d + c, w[0]); assert d + c + w == d + c + [w[0]]; }
      else { assert d + c + w == d + c; }
    }
    d + c + w
  }

  /** Every request carries the JSON content type, the user agent and the host description. */
  lemma HeadersCarryDefaults(cfg: Config, ua: string)
    ensures var h := Headers(cfg, ua);
      && Lookup(h, "Accept") == Some("application/json")
      && Lookup(h, "Content-Type") == Some("application/json")
      && Lookup(h, "User-Agent") == Some(ua)
      && Lookup(h, "X-Ewhs-Client-Info") == Some(cfg.uname)
  {
    var h := Headers(cfg, ua);
    var d := DefaultHeaders(ua, cfg.uname);
    assert h[..4] == d;
    LookupAt(h, 0);
    LookupAt(h, 1);
    LookupAt(h, 2);
    LookupAt(h, 3);
  }

  /** A scoping header is present, with the configured code, exactly when that code is truthy. */
  lemma HeadersCarryCodes(cfg: Config, ua: string)
    ensures var h := Headers(cfg, ua);
      && Lookup(h, "X-Customer-Code") == (if Truthy(cfg.customerCode) then cfg.customerCode else None)
      && Lookup(h, "X-Wms-Code") == (if Truthy(cfg.wmsCode) then cfg.wmsCode else None)
  {
    var h := Headers(cfg, ua);
    var c := CodeHeader("X-Customer-Code", cfg.customerCode);
    var w := CodeHeader("X-Wms-Code", cfg.wmsCode);
    assert h == DefaultHeaders(ua, cfg.uname) + c + w;
    if Truthy(cfg.customerCode) {
      assert h[4] == c[0];
      LookupAt(h, 4);
    } else {
      assert "X-Customer-Code" !in Keys(h);
      LookupNone(h, "X-Customer-Code");
    }
    if Truthy(cfg.wmsCode) {
      assert h[|h| - 1] == w[0];
      LookupAt(h, |h| - 1);
    } else {
      assert "X-Wms-Code" !in Keys(h);
      LookupNone(h, "X-Wms-Code");
    }
  }

  /** None of the common headers is `Authorization`: the exchanges never carry a token. */
  lemma HeadersLackAuthorization(cfg: Config, ua: string)
    ensures "Authorization" !in Keys(Headers(cfg, ua))
    ensures Lookup(Headers(cfg, ua), "Authorization") == None
  {
    var ks := Keys(Headers(cfg, ua));
    forall i | 0 <= i < |ks| ensures |ks[i]| != 13 {
    }
    assert |"Authorization"| == 13;
    LookupNone(Headers(cfg, ua), "Authorization");
  }

  /** The value of the `Authorization` header: Python formats a missing token as "None". */
  function Bearer(token: Option<string>): string {
    "Bearer " + (if token.Some? then token.value else "None")
  }

  /**
    `"Bearer {}".format(token)`: a held token follows "Bearer "; a missing token is
    formatted as the text "None", indistinguishable from a token whose text is "None".
   */
  lemma BearerFormat(token: Option<string>)
    ensures |Bearer(token)| >= 7 && Bearer(token)[..7] == "Bearer "
    ensures token.Some? ==> Bearer(token)[7..] == token.value
    ensures token.None? ==> Bearer(token) == Bearer(Some("None"))
  {
    var text := if token.Some? then token.value else "None";
    assert Bearer(token) == "Bearer " + text;
    assert ("Bearer " + text)[..7] == "Bearer ";
    assert ("Bearer " + text)[7..] == text;
  }

  /** The headers of a resource request: those of Headers plus `Authorization` last. */
  function ResourceHeaders(cfg: Config, ua: string, token: Option<string>): (h: Pairs)
    ensures DistinctKeys(h)
    ensures Keys(h) == Keys(Headers(cfg, ua)) + ["Authorization"]
    ensures Lookup(h, "Authorization") == Some(Bearer(token))
    ensures forall k :: k != "Authorization" ==> Lookup(h, k) == Lookup(Headers(cfg, ua), k)
  {
    var base := Headers(cfg, ua);
    var h := base + [("Authorization", Bearer(token))];
    HeadersLackAuthorization(cfg, ua);
    AppendDistinct(base, ("Authorization", Bearer(token)));
    LookupAt(h, |h| - 1);
    LookupAppend(base, ("Authorization", Bearer(token)));
    h
  }

  /**
    The outcome of a resource response: 401, 400 and 500 raise, 204 yields nothing, and any
    other status (not only 2xx) yields the parsed body unchanged.
   */
  function MapStatus(resp: Response): (r: Result<Option<Json>>)
    ensures r.Ok? <==> resp.status !in {400, 401, 500} && (resp.status == 204 || resp.body.Some?)
    ensures r == Ok(None) <==> resp.status == 204
    ensures r.Ok? && r.value.Some? ==> r.value == resp.body
    ensures r.Err? && r.failure.AuthenticationError? <==> resp.status == 401 && resp.body.Some?
    ensures r.Err? && r.failure.AuthenticationError? ==> r.failure.payload == resp.body.value
    ensures r == Err(BadRequest) <==> resp.status == 400
    ensures r == Err(ServerError) <==> resp.status == 500
  {
    if resp.status == 401 then
      if resp.body.Some? then Err(AuthenticationError(resp.body.value)) else Err(UndecodableBody)
    else if resp.status == 400 then Err(BadRequest)
    else if resp.status == 500 then Err(ServerError)
    else if resp.status == 204 then Ok(None)
    else if resp.body.Some? then Ok(Some(resp.body.value))
    else Err(UndecodableBody)
  }
}
