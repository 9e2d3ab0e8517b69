/**
 * internal/transport: the client-credentials token store (auth.go), the
 * request executor (http.go) and the client's construction (transport.go).
 *
 * The network is an input: what the token endpoint answers is a
 * `TokenExchange`, what `Do` answers is a `DoAnswer`, and every request the
 * client hands to its `HttpClient` is appended to that client's `sent` log,
 * so contracts can say which calls happen and in what order. The clock is a
 * parameter `now`, in nanoseconds.
 */
module Transport {
  import opened GoTypes
  import opened Format
  import opened Failures

  const AuthURL := "https://auth.sbanken.no/identityserver/connect/token"
  const GrantBody := "grant_type=client_credentials"
  /** `[]byte(GrantBody)`, byte by byte (see `GrantBytesSpellGrantBody`). */
  const GrantBytes: Bytes := [103, 114, 97, 110, 116, 95, 116, 121, 112, 101, 61, 99, 108, 105, 101,
                              110, 116, 95, 99, 114, 101, 100, 101, 110, 116, 105, 97, 108, 115]
  const FormContentType := "application/x-www-form-urlencoded; charset=utf-8"
  const JsonMediaType := "application/json"
  /** `time.Second`, in the clock's unit (nanoseconds). */
  const Second := 1_000_000_000

  /** `auth`: the cached token and the instant after which it is renewed. */
  datatype Auth = Auth(accessToken: string, tokenType: string, scope: string, expiresIn: int, expires: int)

  /** The token response's JSON fields (section 5.1 of RFC 6749). */
  datatype Grant = Grant(accessToken: string, tokenType: string, scope: string, expiresIn: int)

  /** What reading and decoding a 200 token response gives. */
  datatype TokenReply = ReadFailed(err: Failure) | DecodeFailed(err: Failure) | Decoded(grant: Grant)

  /** How the token exchange goes: building the request, sending it, or the answer. */
  datatype TokenExchange =
    | BuildFailed(err: Failure)
    | SendFailed(err: Failure)
    | Responded(status: int, reply: TokenReply)

  /** Basic credentials, each passed through `url.QueryEscape` before `SetBasicAuth`. */
  datatype Credentials = QueryEscaped(username: string, password: string)

  /** An `*http.Request` as it is handed to `Do`. */
  datatype Outbound = Outbound(
    verb: string, url: string, body: Option<Bytes>,
    headers: map<string, string>, basicAuth: Option<Credentials>)

  /** `http.NewRequest` when it succeeds: no headers, no credentials yet. */
  function NewRequest(verb: string, url: string, body: Option<Bytes>): Outbound
  {
    Outbound(verb, url, body, map[], None)
  }

  /** The token request: a form POST of the client-credentials grant (section 4.4 of RFC 6749). */
  function TokenRequest(clientID: string, clientSecret: string): Outbound
  {
    var req := NewRequest("POST", AuthURL, Some(GrantBytes));
    var req := req.(basicAuth := Some(QueryEscaped(clientID, clientSecret)));
    var req := req.(headers := req.headers["Content-Type" := FormContentType]);
    req.(headers := req.headers["Accept" := JsonMediaType])
  }

  /** `now.Add(time.Second * time.Duration(expiresIn))`. */
  function ExpiresAt(now: int, expiresIn: int): (t: int)
    ensures expiresIn >= 0 <==> t >= now
  {
    now + Second * expiresIn
  }

  lemma GrantBytesSpellGrantBody()
    ensures |GrantBytes| == |GrantBody|
    ensures forall i :: 0 <= i < |GrantBody| ==> GrantBytes[i] as int == GrantBody[i] as int
  {
  }

  /** The record a successful exchange stores: the grant, expiring `expires_in` seconds after `now`. */
  function Issued(g: Grant, now: int): (a: Auth)
    ensures a.accessToken == g.accessToken && a.tokenType == g.tokenType && a.scope == g.scope
    ensures a.expiresIn == g.expiresIn
    ensures g.expiresIn >= 0 <==> a.expires >= now
    ensures a.expires == ExpiresAt(now, g.expiresIn)
  {
    Auth(g.accessToken, g.tokenType, g.scope, g.expiresIn, ExpiresAt(now, g.expiresIn))
  }

  /** What `authorize` ends in: the record it stores, or the error it returns. */
  datatype Exchanged = Stored(auth: Auth) | Refused(err: Failure)

  /**
   * `authorize`, as a function of the exchange: only a 200 answer whose body
   * reads and decodes stores a record; a non-200 status is reported before
   * the body is read; every other failure is returned as it came.
   */
  function Exchange(x: TokenExchange, now: int): (r: Exchanged)
    ensures r.Stored? <==> x.Responded? && x.status == 200 && x.reply.Decoded?
    ensures r.Stored? ==> r.auth == Issued(x.reply.grant, now)
    ensures x.Responded? && x.status != 200 ==> r == Refused(UnexpectedStatus(x.status))
    ensures x.BuildFailed? || x.SendFailed? ==> r == Refused(x.err)
    ensures x.Responded? && x.status == 200 && !x.reply.Decoded? ==> r == Refused(x.reply.err)
  {
    match x
    case BuildFailed(e) => Refused(e)
    case SendFailed(e) => Refused(e)
    case Responded(status, reply) =>
      if status != 200 then Refused(UnexpectedStatus(status))
      else match reply
        case ReadFailed(e) => Refused(e)
        case DecodeFailed(e) => Refused(e)
        case Decoded(g) => Stored(Issued(g, now))
  }

  /** The requests an exchange hands to `Do`: the token request, unless building it failed. */
  function TokenCalls(x: TokenExchange, clientID: string, clientSecret: string): seq<Outbound>
  {
    if x.BuildFailed? then [] else [TokenRequest(clientID, clientSecret)]
  }

  /** What `getToken` returns and leaves behind, and whether it ran `authorize`. */
  datatype Served = Served(token: string, err: Option<Failure>, auth: Auth, exchanged: bool)

  /** `time.Now().After(expires)`: strictly later. */
  predicate Expired(a: Auth, now: int)
  {
    now > a.expires
  }

  /**
   * `getToken`: a token that has not expired is served from the cache with no
   * exchange, also at the very instant of expiry; an expired one is renewed
   * once, and the new token is served; a failed renewal serves "" and an
   * error, and the cached record stays as it was.
   */
  function Token(current: Auth, now: int, x: TokenExchange): (r: Served)
    ensures r.exchanged <==> Expired(current, now)
    ensures !Expired(current, now) ==> r.token == current.accessToken && r.err == None && r.auth == current
    ensures r.err.None? <==> !Expired(current, now) || Exchange(x, now).Stored?
    ensures r.exchanged && r.err.None? ==> r.auth == Exchange(x, now).auth && r.token == r.auth.accessToken
    ensures r.err.Some? ==>
      r.token == "" && r.auth == current && r.err == Some(Wrapped("error renewing token: ", Exchange(x, now).err))
  {
    if Expired(current, now) then
      match Exchange(x, now)
      case Stored(a) => Served(a.accessToken, None, a, true)
      case Refused(e) => Served("", Some(Wrapped("error renewing token: ", e)), current, true)
    else Served(current.accessToken, None, current, false)
  }

  /**
   * A token that was just renewed with a non-negative lifetime is served from
   * the cache at the same instant: no second exchange, whatever the network would say.
   */
  lemma RenewedTokenIsCached(current: Auth, now: int, x: TokenExchange, y: TokenExchange)
    requires Expired(current, now)
    requires x.Responded? && x.status == 200 && x.reply.Decoded? && x.reply.grant.expiresIn >= 0
    ensures Token(current, now, x).err == None
    ensures var next := Token(Token(current, now, x).auth, now, y);
      !next.exchanged && next.token == x.reply.grant.accessToken
  {
    var a := Issued(x.reply.grant, now);
    assert a.expires >= now;
  }

  /** `HTTPRequest`: what an endpoint asks the executor to send. */
  datatype HTTPRequest = HTTPRequest(verb: string, url: string, postPayload: Option<Bytes>, queryParams: map<string, string>)

  /** The envelope every API response carries (`HTTPResponse`). */
  datatype Envelope = Envelope(
    traceID: string, errorType: string, errorMessage: string,
    availableItems: int, errorCode: int, isError: bool)

  /** Reading a response body. */
  datatype ReadOutcome = ReadError(err: Failure) | Read(data: Bytes)

  /**
   * What `Do` answers: an error, possibly with the response whose redirect
   * check failed (the only case in which Go's `Do` returns both), or a status
   * and the outcome of reading the body.
   */
  datatype DoAnswer =
    | DoFailed(err: Failure, response: Option<int>)
    | Answered(status: int, read: ReadOutcome)

  /** What `Request` returns: body, status code and error. */
  datatype Reply = Reply(body: Option<Bytes>, status: int, err: Option<Failure>)

  /**
   * The request the executor hands to `Do`, or the error that stops it: the
   * method is checked first (GET, or POST with a payload), then the error of
   * `http.NewRequest` (`built`); the headers are the bearer token (section 2.1
   * of RFC 6750), JSON `Accept`, the user agent, and a JSON `Content-Type` on POST.
   */
  function Prepare(r: HTTPRequest, built: Option<Failure>, token: string, userAgent: string): (p: Result<Outbound>)
    ensures r.verb != "GET" && r.verb != "POST" ==> p == Err(Message("Invalid HTTP request method: " + r.verb))
    ensures r.verb == "POST" && r.postPayload.None? ==> p == Err(Message("Post payload missing from POST"))
    ensures (r.verb == "GET" || (r.verb == "POST" && r.postPayload.Some?)) && built.Some? ==> p == Err(built.value)
    ensures p.Ok? <==> (r.verb == "GET" || (r.verb == "POST" && r.postPayload.Some?)) && built.None?
    ensures p.Ok? ==> p.value.verb == r.verb && p.value.url == r.url && p.value.basicAuth == None
    ensures p.Ok? ==> p.value.body == (if r.verb == "GET" then None else r.postPayload)
    ensures p.Ok? ==> p.value.headers.Keys == {"Authorization", "Accept", "User-Agent"} + (if r.verb == "POST" then {"Content-Type"} else {})
    ensures p.Ok? ==>
      p.value.headers["Authorization"] == "Bearer " + token && p.value.headers["Accept"] == JsonMediaType && p.value.headers["User-Agent"] == userAgent
    ensures p.Ok? && r.verb == "POST" ==> p.value.headers["Content-Type"] == JsonMediaType
  {
    if r.verb == "GET" || (r.verb == "POST" && r.postPayload.Some?) then
      match built
      case Some(e) => Err(e)
      case None =>
        var req := NewRequest(r.verb, r.url, if r.verb == "GET" then None else r.postPayload);
        var typed := if r.verb == "POST" then req.(headers := req.headers["Content-Type" := JsonMediaType]) else req;
        Ok(typed.(headers := typed.headers["Authorization" := "Bearer " + token]["Accept" := JsonMediaType]["User-Agent" := userAgent]))
    else if r.verb == "POST" then Err(Message("Post payload missing from POST"))
    else Err(Message("Invalid HTTP request method: " + r.verb))
  }

  /**
   * As written, a POST whose `http.NewRequest` fails sets a header on the nil
   * request before the error is looked at, which panics: `None` marks that
   * input. Everywhere else it agrees with `Prepare`.
   */
  function PrepareAsWritten(r: HTTPRequest, built: Option<Failure>, token: string, userAgent: string): (p: Option<Result<Outbound>>)
    ensures p.None? <==> r.verb == "POST" && r.postPayload.Some? && built.Some?
    ensures p.Some? ==> p.value == Prepare(r, built, token, userAgent)
  {
    if r.verb == "POST" && r.postPayload.Some? && built.Some? then None
    else Some(Prepare(r, built, token, userAgent))
  }

  /** A POST with a payload to a URL `http.NewRequest` refuses reaches the nil dereference. */
  lemma PostWithBadURLPanics(e: Failure)
    ensures PrepareAsWritten(HTTPRequest("POST", "%zz", Some([]), map[]), Some(e), "t", "ua").None?
    ensures Prepare(HTTPRequest("POST", "%zz", Some([]), map[]), Some(e), "t", "ua") == Err(e)
  {
  }

  /**
   * What the executor returns once `Do` has run: the body and the status
   * exactly as received, whatever the status; a failed `Do` or read returns
   * no body, the error, and the status of whatever response there was (0 when
   * there was none).
   */
  function Respond(answer: DoAnswer): (r: Reply)
    ensures r.err.None? <==> answer.Answered? && answer.read.Read?
    ensures r.err.None? ==> r.body == Some(answer.read.data) && r.status == answer.status
    ensures r.err.Some? ==> r.body == None
    ensures answer.DoFailed? ==> r == Reply(None, answer.response.GetOr(0), Some(answer.err))
    ensures answer.Answered? ==> r.status == answer.status
  {
    match answer
    case DoFailed(e, response) => Reply(None, response.GetOr(0), Some(e))
    case Answered(status, ReadError(e)) => Reply(None, status, Some(e))
    case Answered(status, Read(data)) => Reply(Some(data), status, None)
  }

  /**
   * As written, a failed `Do` reads the status code of the response `Do`
   * returned, which is nil unless a redirect check failed: `None` marks the
   * panic. Everywhere else it agrees with `Respond`.
   */
  function RespondAsWritten(answer: DoAnswer): (r: Option<Reply>)
    ensures r.None? <==> answer.DoFailed? && answer.response.None?
    ensures r.Some? ==> r.value == Respond(answer)
  {
    if answer.DoFailed? && answer.response.None? then None else Some(Respond(answer))
  }

  /** A transport error with no response, the usual case, reaches the nil dereference. */
  lemma DoFailureWithoutResponsePanics(e: Failure)
    ensures RespondAsWritten(DoFailed(e, None)).None?
    ensures Respond(DoFailed(e, None)) == Reply(None, 0, Some(e))
  {
  }

  /**
   * `Request`, end to end: a token failure stops everything with `(nil, 0, err)`;
   * a refused method or request stops before `Do` with `(nil, 0, err)`; otherwise
   * `Do`'s answer is passed through.
   */
  function Execute(s: Served, r: HTTPRequest, built: Option<Failure>, userAgent: string, answer: DoAnswer): (reply: Reply)
    ensures s.err.Some? ==> reply == Reply(None, 0, s.err)
    ensures s.err.None? && Prepare(r, built, s.token, userAgent).Err? ==> reply == Reply(None, 0, Some(Prepare(r, built, s.token, userAgent).error))
    ensures reply.err.None? <==> s.err.None? && Prepare(r, built, s.token, userAgent).Ok? && answer.Answered? && answer.read.Read?
    ensures reply.err.None? ==> reply.body == Some(answer.read.data) && reply.status == answer.status
  {
    if s.err.Some? then Reply(None, 0, s.err)
    else match Prepare(r, built, s.token, userAgent)
      case Err(e) => Reply(None, 0, Some(e))
      case Ok(_) => Respond(answer)
  }

  /** The requests `Request` hands to `Do`, in order. */
  function RequestCalls(s: Served, x: TokenExchange, clientID: string, clientSecret: string,
                        r: HTTPRequest, built: Option<Failure>, userAgent: string): seq<Outbound>
  {
    (if s.exchanged then TokenCalls(x, clientID, clientSecret) else [])
    + (if s.err.None? && Prepare(r, built, s.token, userAgent).Ok? then [Prepare(r, built, s.token, userAgent).value] else [])
  }

  /** The API call makes exactly one `Do` and never retries; the token request, if any, comes first. */
  lemma OneCallPerRequest(s: Served, x: TokenExchange, clientID: string, clientSecret: string,
                          r: HTTPRequest, built: Option<Failure>, userAgent: string)
    requires s.err.None? && Prepare(r, built, s.token, userAgent).Ok?
    ensures var calls := RequestCalls(s, x, clientID, clientSecret, r, built, userAgent);
      |calls| >= 1 && calls[|calls| - 1].url == r.url
      && |calls| == (if s.exchanged && !x.BuildFailed? then 2 else 1)
  {
  }

  /** An `*http.Client`: it records every request handed to it. */
  class HttpClient {
    var sent: seq<Outbound>

    constructor()
      ensures sent == []
    {
      sent := [];
    }

    /** `Do`: the request goes out; what comes back is the caller's input. */
    method Do(req: Outbound)
      modifies this
      ensures sent == old(sent) + [req]
    {
      sent := sent + [req];
    }
  }

  /** `transport.Config`. */
  datatype Config = Config(clientID: string, clientSecret: string, customerID: string)

  /** `transport.Client`. */
  class Client {
    var clientID: string
    var clientSecret: string
    var customerID: string
    /** Read by `Request`; nothing in this revision of the package assigns it. */
    var userAgent: string
    var http: HttpClient?
    var auth: Option<Auth>

    /** Ready for `getToken`: a client to send with and a token record to read. */
    predicate Ready()
      reads this
    {
      http != null && auth.Some?
    }

    /** The struct literal in `New`: credentials copied, everything else zero. */
    constructor(cfg: Config)
      ensures clientID == cfg.clientID && clientSecret == cfg.clientSecret && customerID == cfg.customerID
      ensures userAgent == "" && http == null && auth == None
    {
      clientID := cfg.clientID;
      clientSecret := cfg.clientSecret;
      customerID := cfg.customerID;
      userAgent := "";
      http := null;
      auth := None;
    }

    /** `setHTTPClient`: the given client, or the default one when given nil. */
    method SetHTTPClient(httpClient: HttpClient?, defaultClient: HttpClient)
      modifies this`http
      ensures http == (if httpClient == null then defaultClient else httpClient)
    {
      if httpClient == null {
        http := defaultClient;
        return;
      }
      http := httpClient;
    }

    /**
     * `authorize`: sends the token request (unless it cannot be built) and,
     * only on a decoded 200 answer, replaces the whole record.
     */
    method Authorize(now: int, x: TokenExchange) returns (err: Option<Failure>)
      requires http != null
      modifies this`auth, http
      ensures err.None? <==> Exchange(x, now).Stored?
      ensures err.Some? ==> auth == old(auth) && Exchange(x, now) == Refused(err.value)
      ensures err.None? ==> auth == Some(Exchange(x, now).auth)
      ensures http.sent == old(http.sent) + TokenCalls(x, clientID, clientSecret)
    {
      if x.BuildFailed? {
        return Some(x.err);
      }
      var req := NewRequest("POST", AuthURL, Some(GrantBytes));
      req := req.(basicAuth := Some(QueryEscaped(clientID, clientSecret)));
      req := req.(headers := req.headers["Content-Type" := FormContentType]);
      req := req.(headers := req.headers["Accept" := JsonMediaType]);
      http.Do(req);
      match x
      case SendFailed(e) =>
        return Some(e);
      case Responded(status, reply) =>
        if status != 200 {
          return Some(UnexpectedStatus(status));
        }
        match reply
        case ReadFailed(e) =>
          return Some(e);
        case DecodeFailed(e) =>
          return Some(e);
        case Decoded(g) =>
          var a := Auth(g.accessToken, g.tokenType, g.scope, g.expiresIn, 0);
          a := a.(expires := ExpiresAt(now, g.expiresIn));
          assert a == Issued(g, now);
          auth := Some(a);
          return None;
    }

    /** `getToken`: renews only an expired token, then serves the cached one. */
    method GetToken(now: int, x: TokenExchange) returns (token: string, err: Option<Failure>)
      requires Ready()
      modifies this`auth, http
      ensures Ready()
      ensures var s := Token(old(auth.value), now, x);
        token == s.token && err == s.err && auth == Some(s.auth)
        && http.sent == old(http.sent) + (if s.exchanged then TokenCalls(x, clientID, clientSecret) else [])
    {
      if Expired(auth.value, now) {
        var e := Authorize(now, x);
        if e.Some? {
          return "", Some(Wrapped("error renewing token: ", e.value));
        }
      }
      return auth.value.accessToken, None;
    }

    /**
     * `Request`: the token first, then the method check and the request,
     * then one `Do` whose answer is passed back unclassified. `built` is the
     * error `http.NewRequest` gives for this method and URL, if any.
     */
    method Request(now: int, x: TokenExchange, r: HTTPRequest, built: Option<Failure>, answer: DoAnswer)
      returns (body: Option<Bytes>, status: int, err: Option<Failure>)
      requires Ready()
      modifies this`auth, http
      ensures Ready()
      ensures var s := Token(old(auth.value), now, x);
        auth == Some(s.auth)
        && Reply(body, status, err) == Execute(s, r, built, userAgent, answer)
        && http.sent == old(http.sent) + RequestCalls(s, x, clientID, clientSecret, r, built, userAgent)
    {
      var token, e := GetToken(now, x);
      if e.Some? {
        return None, 0, e;
      }
      body, status, err := Send(token, r, built, answer);
    }

    /** The part of `Request` after the token: method dispatch, headers, one `Do`. */
    method Send(token: string, r: HTTPRequest, built: Option<Failure>, answer: DoAnswer)
      returns (body: Option<Bytes>, status: int, err: Option<Failure>)
      requires http != null
      modifies http
      ensures var p := Prepare(r, built, token, userAgent);
        && (p.Err? ==> Reply(body, status, err) == Reply(None, 0, Some(p.error)) && http.sent == old(http.sent))
        && (p.Ok? ==> Reply(body, status, err) == Respond(answer) && http.sent == old(http.sent) + [p.value])
    {
      var req: Outbound;
      if r.verb == "GET" {
        if built.Some? {
          return None, 0, built;
        }
        req := NewRequest(r.verb, r.url, None);
      } else if r.verb == "POST" {
        if r.postPayload.None? {
          return None, 0, Some(Message("Post payload missing from POST"));
        }
        if built.Some? {
          return None, 0, built;
        }
        req := NewRequest(r.verb, r.url, r.postPayload);
        req := req.(headers := req.headers["Content-Type" := JsonMediaType]);
      } else {
        return None, 0, Some(Message("Invalid HTTP request method: " + r.verb));
      }
      req := req.(headers := req.headers["Authorization" := "Bearer " + token]);
      req := req.(headers := req.headers["Accept" := JsonMediaType]);
      req := req.(headers := req.headers["User-Agent" := userAgent]);
      assert Prepare(r, built, token, userAgent) == Ok(req);
      http.Do(req);
      var reply := Respond(answer);
      return reply.body, reply.status, reply.err;
    }
  }

  /**
   * `New`: copies the credentials, picks the HTTP client, and authorizes
   * once; a client comes back only when that succeeds, and it then holds a
   * token record, so `getToken` can read it.
   */
  method New(cfg: Config, httpClient: HttpClient?, defaultClient: HttpClient, now: int, x: TokenExchange)
    returns (c: Client?, err: Option<Failure>)
    modifies httpClient, defaultClient
    ensures c != null <==> err.None?
    ensures c != null <==> Exchange(x, now).Stored?
    ensures c != null ==>
      fresh(c) && c.Ready() && c.auth == Some(Exchange(x, now).auth) && c.clientID == cfg.clientID && c.clientSecret == cfg.clientSecret && c.customerID == cfg.customerID
      && c.http == (if httpClient == null then defaultClient else httpClient)
    ensures c == null ==> err == Some(Wrapped("authorize: ", Exchange(x, now).err))
    ensures var h := if httpClient == null then defaultClient else httpClient;
      h.sent == old(h.sent) + TokenCalls(x, cfg.clientID, cfg.clientSecret)
    ensures httpClient != null && httpClient != defaultClient ==> unchanged(defaultClient)
  {
    var client := new Client(cfg);
    client.SetHTTPClient(httpClient, defaultClient);
    var e := client.Authorize(now, x);
    if e.Some? {
      return null, Some(Wrapped("authorize: ", e.value));
    }
    return client, None;
  }
}
