/**
  One resource call (`_send`): authenticate, send one request with the bearer token, and
  map its status code to the outcome.
 */
module Dispatch {
  import opened Wrappers
  import opened OrderedMap
  import opened Http
  import Auth

  /** The resource request: verb, resource URL, headers with `Authorization`, JSON body, query. */
  function ResourceRequest(cfg: Config, ua: string, token: Option<string>, verb: string,
                           resource: string, id: Option<string>, data: Option<Json>,
                           params: Option<Json>): (q: Request)
    ensures Lookup(q.headers, "Authorization") == Some(Bearer(token))
  {
    Request(verb, ResourceUrl(cfg.url, resource, id), ResourceHeaders(cfg, ua, token), data, params)
  }

  /** The result of `_send`: its outcome, the new token state and the requests it sent. */
  datatype SendStep = SendStep(result: Result<Option<Json>>, tokens: Auth.TokenState, sent: seq<Request>)

  /**
    `_send`: the token state changes only through authentication; a failed authentication
    ends the call with its failure; otherwise exactly one resource request follows.
   */
  function Send(cfg: Config, ua: string, st: Auth.TokenState, verb: string, resource: string,
                id: Option<string>, data: Option<Json>, params: Option<Json>, now: int,
                transport: Request -> Response): (r: SendStep)
    ensures r.tokens == Auth.Authenticate(cfg, ua, st, now, transport).tokens
    ensures 1 <= |r.sent| <= 2
  {
    var a := Auth.Authenticate(cfg, ua, st, now, transport);
    if a.outcome.Fail? then SendStep(Err(a.outcome.failure), a.tokens, a.sent)
    else
      var q := ResourceRequest(cfg, ua, a.tokens.accessToken, verb, resource, id, data, params);
      SendStep(MapStatus(transport(q)), a.tokens, a.sent + [q])
  }

  // ---------------------------------------------------------------- lemmas

  /**
    Only the resource request carries `Authorization`, with the access token held after
    authentication: the login and refresh exchanges never do.
   */
  lemma AuthorizationOnlyOnResourceCall(cfg: Config, ua: string, st: Auth.TokenState, verb: string,
                                        resource: string, id: Option<string>, data: Option<Json>,
                                        params: Option<Json>, now: int, transport: Request -> Response)
    ensures var a := Auth.Authenticate(cfg, ua, st, now, transport);
      var r := Send(cfg, ua, st, verb, resource, id, data, params, now, transport);
      forall i :: 0 <= i < |r.sent| ==>
        (Lookup(r.sent[i].headers, "Authorization").Some? <==> a.outcome.Pass? && i == |r.sent| - 1)
    ensures var r := Send(cfg, ua, st, verb, resource, id, data, params, now, transport);
      r.result.Ok? ==> Lookup(r.sent[|r.sent| - 1].headers, "Authorization") == Some(Bearer(r.tokens.accessToken))
  {
    var a := Auth.Authenticate(cfg, ua, st, now, transport);
    var r := Send(cfg, ua, st, verb, resource, id, data, params, now, transport);
    forall i | 0 <= i < |r.sent|
      ensures Lookup(r.sent[i].headers, "Authorization").Some? <==> a.outcome.Pass? && i == |r.sent| - 1
    {
      if i < |a.sent| {
        assert r.sent[i] == a.sent[i] && a.sent[i] in a.sent;
      }
    }
  }

  /**
    After a successful authentication the call sends the authentication's requests and then
    exactly one resource request, to the resource URL, with the given verb, body and query;
    its result is the status mapping of that one response, so a 401 is not retried.
   */
  lemma ResourceCallFollowsAuth(cfg: Config, ua: string, st: Auth.TokenState, verb: string,
                                resource: string, id: Option<string>, data: Option<Json>,
                                params: Option<Json>, now: int, transport: Request -> Response)
    requires Auth.Authenticate(cfg, ua, st, now, transport).outcome.Pass?
    ensures var a := Auth.Authenticate(cfg, ua, st, now, transport);
      var r := Send(cfg, ua, st, verb, resource, id, data, params, now, transport);
      var q := r.sent[|r.sent| - 1];
      && r.sent == a.sent + [q]
      && q.verb == verb && q.url == ResourceUrl(cfg.url, resource, id) && q.json == data && q.params == params
      && r.result == MapStatus(transport(q))
      && (transport(q).status == 401 && transport(q).body.Some? ==>
            r.result == Err(AuthenticationError(transport(q).body.value)))
  {
  }

  /** A failed authentication ends the call: no resource request is sent and its failure is raised. */
  lemma AuthFailureStopsCall(cfg: Config, ua: string, st: Auth.TokenState, verb: string,
                             resource: string, id: Option<string>, data: Option<Json>,
                             params: Option<Json>, now: int, transport: Request -> Response)
    requires Auth.Authenticate(cfg, ua, st, now, transport).outcome.Fail?
    ensures var a := Auth.Authenticate(cfg, ua, st, now, transport);
      var r := Send(cfg, ua, st, verb, resource, id, data, params, now, transport);
      && r.result == Err(a.outcome.failure)
      && r.sent == [Auth.ExchangeRequest(cfg, ua, st)]
  {
  }

  /**
    A 200 login that yields token T expiring at E: the first call sends the login and then the
    resource request with `Bearer T`; a second call made no later than E sends only its
    resource request, again with `Bearer T`, and logs in no further.
   */
  lemma LoginThenReuse(cfg: Config, ua: string, verb: string, resource: string, id: Option<string>,
                       data: Option<Json>, params: Option<Json>, now: int, later: int,
                       transport: Request -> Response)
    requires var resp := transport(Auth.AuthRequest(cfg, ua, Auth.LoginPath, Auth.LoginData(cfg)));
      && resp.status == 200 && resp.body.Some? && Auth.Complete(resp.body.value)
      && Truthy(Auth.ReadToken(resp.body.value, "token").value)
      && later <= Auth.ReadInt(resp.body.value, "expires_at").value
    ensures var body := transport(Auth.AuthRequest(cfg, ua, Auth.LoginPath, Auth.LoginData(cfg))).body.value;
      var token := Auth.ReadToken(body, "token").value;
      var first := Send(cfg, ua, Auth.Initial, verb, resource, id, data, params, now, transport);
      var second := Send(cfg, ua, first.tokens, verb, resource, id, data, params, later, transport);
      && |first.sent| == 2
      && first.sent[0] == Auth.AuthRequest(cfg, ua, Auth.LoginPath, Auth.LoginData(cfg))
      && Lookup(first.sent[1].headers, "Authorization") == Some(Bearer(token))
      && second.tokens == first.tokens
      && second.sent == [ResourceRequest(cfg, ua, token, verb, resource, id, data, params)]
      && Lookup(second.sent[0].headers, "Authorization") == Some(Bearer(token))
  {
    Auth.LoginSetsTokens(cfg, ua, now, transport);
    var first := Send(cfg, ua, Auth.Initial, verb, resource, id, data, params, now, transport);
    Auth.FreshTokenReused(cfg, ua, Auth.Initial, now, later, transport);
  }
}
