# eWarehousing API client — a Dafny model of `EwhsClient`

This project models the core of the eWarehousing Python client, the class `EwhsClient` in
`ewhs/client.py`, and proves properties of that model. The core has four parts:

- **User-agent registry.** Each component key and value is sanitized before it is stored
  in an ordered dictionary. The components are serialized as the `User-Agent` header: one
  `key/value` item per component, separated by spaces.
- **Token lifecycle.**
  - `_authenticate` exchanges credentials only when no truthy access token is held, or
    when the held token has expired.
  - `request_access_token` chooses between a login with username and password (no truthy
    refresh token) and a refresh with the held refresh token.
  - `_send_auth` posts the exchange and, on status 200, overwrites refresh token, access
    token and expiry, one after the other.
- **Request construction.**
  - Resource URLs are `{base}/api/{resource}[/{id}]`; exchange URLs are `{base}/{path}`.
  - Every request carries four default headers.
  - `X-Customer-Code` and `X-Wms-Code` are added only for truthy codes.
  - `Authorization: Bearer <token>` is added only on resource calls.
- **Outcome mapping.** `_send` maps a resource response as follows:
  - 401 raises an authentication error carrying the body;
  - 400 raises `BadRequest`;
  - 500 raises `ServerError`;
  - 204 yields nothing;
  - any other status yields the parsed body.

  The five public aliases (`filter`, `create`, `update`, `delete`, `get`) call `_send`
  with a fixed verb.

Layout, one module per file:

| file | module | contents |
|---|---|---|
| `Wrappers.dfy` | `Wrappers` | `Option` |
| `Text.dfy` | `Text` | Python's `\s` class, `re.findall(r"\S+")` as `Runs`, `str.join`, ASCII `str.lower`/`str.capitalize` |
| `OrderedMap.dfy` | `OrderedMap` | an insertion-ordered `dict` as a sequence of pairs: `Keys`, `Lookup`, `Put` |
| `UserAgent.dfy` | `UserAgent` | key and value sanitizing, serializing, and `Parse` as the reference reader |
| `Http.dfy` | `Http` | JSON values, requests, responses, failures, URLs, headers, `MapStatus` |
| `Auth.dfy` | `Auth` | token state, `NeedsExchange`, the exchange request, `ReceiveAuth`, `Authenticate` |
| `Dispatch.dfy` | `Dispatch` | `_send` as a function of the token state, plus lemmas about whole calls |
| `Client.dfy` | `Client` | `class EwhsClient`: its fields are updated in place by methods, each proved equal to the function that specifies it |

The environment enters the model as explicit arguments:

- The network is an oracle `transport: Request -> Response`.
- The clock is the argument `now` (`int(time.time())`).
- `platform.uname()`, joined by spaces, is the constructor argument `uname`.
- `platform.python_version()` is the constructor argument `pythonVersion`.
- A response body is `Option<Json>`; `None` stands for a body that `response.json()`
  cannot decode.

Where the documentation or the tests and the code differ, the model follows the code:

- `BadRequest` is raised without a payload (`ewhs/client.py:84-85`), although
  `tests/test_orders.py:182-193` expects the raised error's `errors` to hold the response body.
- Resource URLs always use the fixed `/api/` segment (`ewhs/client.py:63`).

`tests/test_orders.py` expects `wms/orders/...` URLs. Those come from the resource classes,
and the resource classes are not part of this model.

The model keeps two behaviours of the code that a reader might not expect:

- `_send_auth` is not atomic. If a 200 body holds `refresh_token` but no usable `token`,
  the refresh token is already overwritten when the call fails
  (`Auth.RefreshTokenWrittenFirst`).
- Sanitizing a key is not idempotent. An already camel-cased key such as "OrderStatus" is
  one fragment, so it is capitalized as a whole to "Orderstatus" (`UserAgent.SanitizeKeyOfWord`).

## Model

| member | source | states |
|---|---|---|
| Text.Runs | ewhs/client.py:51 | every string `re.findall(r"\S+")` returns is non-empty and free of whitespace |
| Text.RunLength | ewhs/client.py:51 | a run is the longest whitespace-free prefix: it stops at the first whitespace character or at the end |
| Text.RunsSplit | ewhs/client.py:51 | a whitespace character is a pure separator: the runs of `a + c + b` are the runs of `a` followed by those of `b` |
| Text.RunsOfJoin | ewhs/client.py:53 | joining non-empty whitespace-free words with a whitespace character and splitting into runs gives the words back |
| Text.Squeeze | ewhs/client.py:51 | deleting whitespace leaves no whitespace, never lengthens, and changes nothing in a whitespace-free string |
| Text.SqueezeAppend | ewhs/client.py:51 | deleting whitespace distributes over concatenation |
| Text.SqueezeSplit | ewhs/client.py:51 | deleting whitespace from a string equals deleting it from both halves of any split |
| Text.ConcatRuns | ewhs/client.py:51 | concatenating the runs of a string is the string with its whitespace deleted: no character is lost, added or reordered |
| Text.ConcatFirstRun | ewhs/client.py:51 | the inductive step of ConcatRuns for a string that starts with a run |
| Text.RunsFirst | ewhs/client.py:51 | a string that starts with a non-whitespace character has its first run first, then the runs of the rest |
| Text.RunsOfWord | ewhs/client.py:51-53 | a non-empty whitespace-free string is a single run |
| Text.RunLengthStops | ewhs/client.py:51 | a run that meets a whitespace character ends there |
| Text.JoinCons | ewhs/client.py:53 | `Join` is `sep.join`: `sep.join([x] + rest)` is `x` when `rest` is empty, otherwise `x + sep + sep.join(rest)` |
| Text.ConcatCons | ewhs/client.py:51 | `"".join([x] + rest)` is `x` followed by `"".join(rest)` |
| Text.JoinAppend | ewhs/client.py:53 | joining two non-empty lists puts exactly one separator between their joins |
| Text.ConcatAppend | ewhs/client.py:51 | `"".join` of a concatenation is the concatenation of the joins, also for empty lists |
| Text.JoinNoSpace | ewhs/client.py:51-53 | joining whitespace-free parts with a whitespace-free separator yields no whitespace |
| Text.Capitalize | ewhs/client.py:51 | ASCII capitalize (first letter upper-cased, the rest lower-cased) keeps the length |
| Text.CaseKeepsSpace | ewhs/client.py:51 | `IsSpace` is the character set `\s` matches (the characters for which `str.isspace()` holds); ASCII case mapping never moves a character into or out of it |
| Text.CapitalizeKeepsNoSpace | ewhs/client.py:51 | capitalizing a whitespace-free word leaves it whitespace-free |
| Text.CapitalizeLowers | ewhs/client.py:51 | a capitalized word lower-cases to the same string as the word itself |
| Text.CapitalizeIdempotent | ewhs/client.py:51 | capitalizing twice is capitalizing once |
| OrderedMap.Keys | ewhs/client.py:30 | the keys are listed in insertion order, one per entry |
| OrderedMap.LookupNone | ewhs/client.py:54 | `Lookup`, that is `d.get(k)`, finds nothing exactly when the key is not among the keys |
| OrderedMap.Put | ewhs/client.py:54 | `d[k] = v` keeps the key list when `k` is present, and otherwise appends `k` last |
| OrderedMap.PutLookup | ewhs/client.py:54 | after `d[k] = v`, `k` maps to `v` and every other key maps to what it did before |
| OrderedMap.PutDistinct | ewhs/client.py:54 | assignment never makes a key occur twice |
| OrderedMap.PutAppends | ewhs/client.py:54 | assigning a new key appends the pair as the last entry |
| OrderedMap.PutInPlace | ewhs/client.py:54 | assigning a present key rewrites that entry where it stands and leaves every other entry as it was |
| OrderedMap.LookupAt | ewhs/client.py:54 | with distinct keys, the value stored at a position is the value looked up for its key |
| OrderedMap.TailDistinct | ewhs/client.py:54 | the entries after the first have distinct keys and do not hold the first key |
| OrderedMap.ConsDistinct | ewhs/client.py:54 | an entry whose key is absent from the rest can be put in front without a duplicate key |
| OrderedMap.AppendDistinct | ewhs/client.py:75 | an entry with a new key can be added last without a duplicate key |
| OrderedMap.LookupAppend | ewhs/client.py:75 | adding an entry last leaves every lookup of another key as it was |
| UserAgent.SanitizeKey | ewhs/client.py:51 | a sanitized key contains no whitespace |
| UserAgent.SanitizeKeyFolds | ewhs/client.py:51 | key sanitizing only deletes whitespace and changes letter case: the result lower-cased equals the key lower-cased with whitespace deleted, and the lengths match |
| UserAgent.LowerConcatCapitalized | ewhs/client.py:51 | up to letter case, the concatenated capitalized fragments equal the plain concatenation |
| UserAgent.SanitizeKeySplit | ewhs/client.py:51 | the two sides of a whitespace character in a key are sanitized independently and concatenated |
| UserAgent.SanitizeKeyOfWord | ewhs/client.py:51 | a key with no whitespace is stored capitalized, so an already camel-cased key loses its inner capitals |
| UserAgent.SanitizeKeyTwoWords | ewhs/client.py:51 | two lower-case words separated by whitespace become one key with both words capitalized ("order status" to "OrderStatus") |
| UserAgent.LowerWord | ewhs/client.py:51 | a lower-case word is one run and is sanitized by upper-casing its first letter |
| UserAgent.CapitalizedWord | ewhs/client.py:51 | a key already in capitalized form is stored unchanged |
| UserAgent.SanitizeValue | ewhs/client.py:52-53 | a sanitized value contains no whitespace, and a value without whitespace is stored verbatim |
| UserAgent.SanitizeValueJoinsRuns | ewhs/client.py:52-53 | the whitespace test is redundant: every sanitized value is its runs joined by "_" |
| UserAgent.SanitizeValueSplit | ewhs/client.py:52-53 | a whitespace character between two non-blank parts becomes exactly one "_" between their sanitized forms |
| UserAgent.SanitizeValueTwoWords | ewhs/client.py:52-53 | two whitespace-free words separated by whitespace are stored joined by "_" ("in progress" to "in_progress") |
| UserAgent.SplitItemOf | ewhs/client.py:59 | splitting `key/value` at its first "/" recovers key and value when the key holds no "/" |
| UserAgent.SerializeRoundTrip | ewhs/client.py:56-60 | `Serialize` is the `user_agent` string: reading it back gives the same components in the same order, for components with no whitespace and no "/" in a key |
| UserAgent.SerializeAppend | ewhs/client.py:59-60 | adding a component after others appends one space and its `key/value` item |
| UserAgent.SanitizedPutKeepsNoSpace | ewhs/client.py:50-54 | components set with sanitizing never contain whitespace |
| UserAgent.PutSlot | ewhs/client.py:54 | every entry after an assignment is the new pair or an entry that was there before |
| UserAgent.CapitalizeAllAppend | ewhs/client.py:51 | `CapitalizeAll`, the list of `w.capitalize()` for each fragment, distributes over concatenation |
| UserAgent.LowerAllAppend | ewhs/client.py:51 | lower-casing distributes over concatenation |
| UserAgent.ClientNameKept | ewhs/client.py:31 | "Ewarehousing" is stored under its own name |
| UserAgent.RuntimeNameKept | ewhs/client.py:32 | "Python" is stored under its own name |
| UserAgent.ClientVersionKept | ewhs/client.py:31 | the client version "0.1.0" is stored verbatim |
| UserAgent.InitialComponents | ewhs/client.py:30-32 | two components with different keys, registered into an empty registry, stay in order and serialize as two items separated by one space |
| Http.BaseUrl | ewhs/client.py:28 | the given URL is used when it is truthy, the production URL otherwise |
| Http.ResourceUrl | ewhs/client.py:63-66 | the URL is `{base}/api/{resource}`, followed by `/{id}` exactly when an id is given, even an empty one |
| Http.DefaultHeadersFacts | ewhs/client.py:136-142 | `DefaultHeaders`: the four default headers are distinct, in order, and hold JSON accept and content type, the user agent and the host description |
| Http.Headers | ewhs/client.py:144-153 | the headers are the four defaults, then `X-Customer-Code` and `X-Wms-Code` exactly when those codes are truthy, in that order, with no name twice |
| Http.HeadersCarryDefaults | ewhs/client.py:136-145 | every request's headers look up the JSON types, the user agent and the host description |
| Http.HeadersCarryCodes | ewhs/client.py:147-151 | a scoping header is present, with the configured code, exactly when that code is truthy |
| Http.HeadersLackAuthorization | ewhs/client.py:118-123 | the common headers never hold `Authorization` |
| Http.BearerFormat | ewhs/client.py:75 | `Bearer`: the header value is "Bearer " followed by the token; a missing token is written as the text "None", the same value as for a token whose text is "None" |
| Http.ResourceHeaders | ewhs/client.py:75 | resource headers are the common headers plus `Authorization: Bearer <token>` as a new last entry, with every other header unchanged; a missing token is sent as "Bearer None" |
| Http.MapStatus | ewhs/client.py:81-93 | success exactly when the status is not 400/401/500 and either it is 204 or the body is JSON; 204 is exactly the empty result; a success payload is the body unchanged; 401 with a JSON body is exactly the authentication error carrying that body; 400 is exactly `BadRequest`; 500 is exactly `ServerError` |
| Auth.AuthRequest | ewhs/client.py:117-123 | an exchange request never carries `Authorization` |
| Auth.ReceiveAuth | ewhs/client.py:127-134 | with `Field`/`ReadToken`/`ReadInt` as `data[key]`: success exactly for status 200 with a complete body, and then all three fields come from the body; any other status fails and changes nothing; a "message" becomes the error's payload; a failure never changes the expiry |
| Auth.Authenticate | ewhs/client.py:95-97 | one exchange, `ExchangeRequest`, exactly when the access token is not truthy or `now` is past the expiry; otherwise success with nothing sent and nothing changed; every exchange is a POST without `Authorization`; the new state is `ReceiveAuth` of the exchange's response |
| Auth.InitialLogsIn | ewhs/client.py:24-26 | a new client's first call is a login, whatever the clock says |
| Auth.ExchangeChoice | ewhs/client.py:99-120 | `ExchangeRequest` posts to `AuthUrl(base, "wms/auth/login")` exactly when no truthy refresh token is held, and to `AuthUrl(base, "wms/auth/refresh")` exactly when one is, with the matching JSON body |
| Auth.ExchangeBodies | ewhs/client.py:103-115 | `LoginData` is an object holding exactly "username" and "password" with the configured values; `RefreshData` holds exactly "refresh_token" with the held token |
| Auth.ExchangeStaysNeeded | ewhs/client.py:96 | `NeedsExchange` is monotone in time: once the held token cannot be used it stays unusable at every later time, and a token usable at some time was usable at every earlier time |
| Auth.NonObjectBodyMissesFields | ewhs/client.py:127-134 | a body that is not a JSON object yields no "message", "refresh_token", "token" or "expires_at": each read fails with `MissingField` naming that key |
| Auth.NoFallbackToLogin | ewhs/client.py:99-106 | a refresh rejected with a non-200 status sends nothing else, fails, and keeps the token state |
| Auth.LoginSetsTokens | ewhs/client.py:108-134 | a complete 200 login from the initial state yields exactly the body's access token, refresh token and expiry |
| Auth.FreshTokenReused | ewhs/client.py:95-97 | after a successful exchange with a truthy token, a later call no later than the expiry sends nothing and keeps the state |
| Auth.ExpiryForcesExchange | ewhs/client.py:96-97 | a truthy token past its expiry is replaced through exactly one exchange |
| Auth.RefreshTokenWrittenFirst | ewhs/client.py:132-134 | a 200 body with a usable refresh token but no usable token fails after the refresh token was overwritten |
| Dispatch.ResourceRequest | ewhs/client.py:70-76 | the resource request carries `Authorization: Bearer <token>` |
| Dispatch.Send | ewhs/client.py:62-93 | the token state after a call is the state after authentication, and a call sends one or two requests |
| Dispatch.AuthorizationOnlyOnResourceCall | ewhs/client.py:68-76 | of the requests a call sends, exactly the last one carries `Authorization`, and only when authentication succeeded; on success it holds the current access token |
| Dispatch.ResourceCallFollowsAuth | ewhs/client.py:62-93 | after a successful authentication exactly one resource request follows, with the call's verb, URL, body and query; its status decides the result, and a 401 is raised rather than retried |
| Dispatch.AuthFailureStopsCall | ewhs/client.py:68 | a failed authentication ends the call with its failure, and no resource request is sent |
| Dispatch.LoginThenReuse | ewhs/client.py:62-97 | the first call logs in and sends `Bearer T`; a second call no later than the expiry sends only its resource request, again with `Bearer T` |
| Client.EwhsClient.Agent | ewhs/client.py:56-60 | the `user_agent` property of a client: when no key or value holds whitespace and no key holds "/", reading it back gives the components unchanged and in order |
| Client.EwhsClient.constructor | ewhs/client.py:17-32 | a new client holds no tokens and expiry 0, and uses the given base URL when it is truthy; its components are ("Ewarehousing", "0.1.0") then ("Python", the sanitized runtime version) |
| Client.EwhsClient.RegisterDefaults | ewhs/client.py:30-32 | the two default components, registered through the sanitizing setter, are the client pair then the runtime pair |
| Client.EwhsClient.SetUserAgentComponent | ewhs/client.py:39-54 | the components become `Put` of the sanitized (or raw) key and value, and keys stay distinct |
| Client.EwhsClient.GetHeaders | ewhs/client.py:144-153 | the headers built by dict assignment equal `Headers` |
| Client.EwhsClient.SendAuth | ewhs/client.py:117-134 | the request is the exchange request, and outcome and token fields are exactly `ReceiveAuth` of the old fields and the response |
| Client.EwhsClient.RequestRefreshToken | ewhs/client.py:108-115 | a login exchange with username and password, with the state update of `ReceiveAuth` |
| Client.EwhsClient.RequestAccessToken | ewhs/client.py:99-106 | the exchange is `ExchangeRequest` of the old state, with the state update of `ReceiveAuth` |
| Client.EwhsClient.Authenticate | ewhs/client.py:95-97 | outcome, new token fields and requests sent equal `Auth.Authenticate` |
| Client.EwhsClient.ResourceRequest | ewhs/client.py:62-76 | the request built from URL and headers plus the bearer token equals `Dispatch.ResourceRequest` |
| Client.EwhsClient.Send | ewhs/client.py:62-93 | result, new token fields and requests sent equal `Dispatch.Send` |
| Client.EwhsClient.Filter | ewhs/client.py:155-156 | GET, with the query and, passed on from `**kwargs`, an optional resource id and body; equals `Dispatch.Send` with those arguments |
| Client.EwhsClient.Create | ewhs/client.py:158-159 | POST of an optional body, with a resource id and query passed on from `**kwargs`; equals `Dispatch.Send` with those arguments |
| Client.EwhsClient.Update | ewhs/client.py:161-162 | PATCH of an optional body to an optional resource id, with a query passed on from `**kwargs`; equals `Dispatch.Send` with those arguments |
| Client.EwhsClient.Delete | ewhs/client.py:164-165 | DELETE of an optional resource id, with a body and query passed on from `**kwargs`; equals `Dispatch.Send` with those arguments |
| Client.EwhsClient.Get | ewhs/client.py:167-168 | GET of an optional resource id, with a body and query passed on from `**kwargs`; equals `Dispatch.Send` with those arguments |

## Left out

- The HTTP session and the `requests` library (`Session`, `prepare_request`, `send`) are
  the `transport` oracle. Connection errors and other transport exceptions are not
  modelled, because the oracle always answers.
- The JSON decoder is left out: a body is either a parsed `Json` value or undecodable.
  Floating-point numbers are not represented.
- `platform.uname()`, `platform.python_version()` and `time.time()` are arguments, because
  they read the host and the clock.
- The resource objects `Shipment`, `Order` and `Stock` (`ewhs/client.py:35-37`) are left
  out: `ewhs/resources.py` is not part of this model. The exception classes of
  `ewhs/exceptions.py` are the constructors of `Http.Failure`.
- The aliases pass their `**kwargs` on to `_send`, which binds `resource_id`, `data` and
  `params` from them by name. The model's aliases take these as optional arguments. Other
  keywords end up in `_send`'s own `**kwargs`, which is never used, so the model has no
  such argument. A keyword named `method` or `resource` makes Python raise `TypeError`;
  the model cannot express that call.
- Text.Capitalize: only ASCII letters change case. `str.capitalize` also maps non-ASCII
  letters (and title-cases the first character), which needs Unicode tables.
- Auth.ReceiveAuth: a 200 body whose `token` or `refresh_token` is neither a string nor
  null, or whose `expires_at` is not an integer, fails with `UnsupportedValue`, because the
  token fields here hold only strings and integers. Python stores any such value and goes
  on: `"Bearer {}".format` accepts any value, and a float `expires_at` compares with the
  clock. Only a non-numeric `expires_at` makes the check at `ewhs/client.py:96` raise
  later, and only while the access token is truthy.
- Auth.ReceiveAuth: reading `data["message"]`, `data["refresh_token"]`, `data["token"]` or
  `data["expires_at"]` from a body that is not an object raises `TypeError` in Python rather
  than `KeyError`. Both are modelled as `MissingField` naming the key.
- Http.Json: `JObj` holds a map, so the key order Python's `json` keeps in a returned dict
  is not modelled. Python's `None` and JSON `null` are one value; the model keeps "no
  body" or "no result" (`None`) apart from `JNull`.
- Http.MapStatus: a 200 (or other passed-through) response whose body is JSON `null` gives
  `Ok(Some(JNull))`. Python returns `None` for it, the same value it returns for 204, so
  "204 is exactly the empty result" holds only in the model's terms.
- Client.EwhsClient.SetUserAgentComponent: keys and values are strings; Python accepts any
  object here and would fail later while serializing.
- Concurrent use of one client object, and session state such as cookies, are not modelled.
