/**
 * auth.go and http.go of the root package: an older revision of the token
 * store and the request executor. The token logic is the same as in
 * `Transport`, but every failure is wrapped with the step that failed; the
 * executor sends a `customerId` header instead of a user agent and sets no
 * `Content-Type` on POST.
 */
module Legacy {
  import opened GoTypes
  import opened Failures
  import opened Transport
  import Configuration

  /**
   * `authorize`, as a function of the exchange: the same record as
   * `Transport.Exchange` stores, and failures wrapped with the step that failed.
   */
  function AuthorizeOutcome(x: TokenExchange, now: int): (r: Exchanged)
    ensures r.Stored? <==> Transport.Exchange(x, now).Stored?
    ensures r.Stored? ==> r == Transport.Exchange(x, now)
    ensures x.BuildFailed? ==> r == Refused(Wrapped("NewRequest: ", x.err))
    ensures x.SendFailed? ==> r == Refused(Wrapped("Do: ", x.err))
    ensures x.Responded? && x.status != 200 ==> r == Refused(UnexpectedStatus(x.status))
    ensures x.Responded? && x.status == 200 && x.reply.ReadFailed? ==> r == Refused(Wrapped("ReadAll: ", x.reply.err))
    ensures x.Responded? && x.status == 200 && x.reply.DecodeFailed? ==> r == Refused(Wrapped("Unmarshal: ", x.reply.err))
  {
    match x
    case BuildFailed(e) => Refused(Wrapped("NewRequest: ", e))
    case SendFailed(e) => Refused(Wrapped("Do: ", e))
    case Responded(status, reply) =>
      if status != 200 then Refused(UnexpectedStatus(status))
      else match reply
        case ReadFailed(e) => Refused(Wrapped("ReadAll: ", e))
        case DecodeFailed(e) => Refused(Wrapped("Unmarshal: ", e))
        case Decoded(g) => Stored(Issued(g, now))
  }

  /**
   * `getToken`: the same decision as `Transport.Token` (same token, same
   * record, same exchange), with the renewal error prefixed "Error renewing token: ".
   */
  function GetTokenOutcome(current: Auth, now: int, x: TokenExchange): (r: Served)
    ensures var t := Transport.Token(current, now, x);
      r.token == t.token && r.auth == t.auth && r.exchanged == t.exchanged && (r.err.None? <==> t.err.None?)
    ensures r.err.Some? ==> r.err == Some(Wrapped("Error renewing token: ", AuthorizeOutcome(x, now).err))
  {
    if Expired(current, now) then
      match AuthorizeOutcome(x, now)
      case Stored(a) => Served(a.accessToken, None, a, true)
      case Refused(e) => Served("", Some(Wrapped("Error renewing token: ", e)), current, true)
    else Served(current.accessToken, None, current, false)
  }

  /**
   * The key the customer id is sent under: `Header.Set("customerId", …)`
   * stores its key in canonical MIME form.
   */
  const CustomerIDHeader := "Customerid"

  /**
   * The older executor's request: the same method checks and errors as
   * `Transport.Prepare`, no `Content-Type` on POST, and a `customerId` header
   * where the newer one sends `User-Agent`.
   */
  function BuildRequest(r: HTTPRequest, built: Option<Failure>, token: string, customerID: string): (p: Result<Outbound>)
    ensures var q := Transport.Prepare(r, built, token, "");
      (p.Ok? <==> q.Ok?) && (p.Err? ==> p == q)
      && (p.Ok? ==> p.value.verb == q.value.verb && p.value.url == q.value.url && p.value.body == q.value.body)
    ensures p.Ok? ==> p.value.headers.Keys == {"Authorization", "Accept", CustomerIDHeader}
    ensures p.Ok? ==>
      p.value.headers["Authorization"] == "Bearer " + token && p.value.headers["Accept"] == JsonMediaType
      && p.value.headers[CustomerIDHeader] == customerID
  {
    if r.verb == "GET" || (r.verb == "POST" && r.postPayload.Some?) then
      match built
      case Some(e) => Err(e)
      case None =>
        var req := NewRequest(r.verb, r.url, if r.verb == "GET" then None else r.postPayload);
        Ok(req.(headers := req.headers["Authorization" := "Bearer " + token]["Accept" := JsonMediaType][CustomerIDHeader := customerID]))
    else if r.verb == "POST" then Err(Message("Post payload missing from POST"))
    else Err(Message("Invalid HTTP request method: " + r.verb))
  }

  /** The root package's `Client`, as far as these two files use it. */
  class Client {
    var config: Configuration.Config
    var http: HttpClient?
    var auth: Option<Auth>

    predicate Ready()
      reads this
    {
      http != null && auth.Some?
    }

    /** `authorize(ctx, cfg)`: as `Transport.Client.Authorize`, with wrapped errors. */
    method Authorize(now: int, x: TokenExchange) returns (err: Option<Failure>)
      requires http != null
      modifies this`auth, http
      ensures err.None? <==> AuthorizeOutcome(x, now).Stored?
      ensures err.Some? ==> auth == old(auth) && AuthorizeOutcome(x, now) == Refused(err.value)
      ensures err.None? ==> auth == Some(AuthorizeOutcome(x, now).auth)
      ensures http.sent == old(http.sent) + TokenCalls(x, config.clientID, config.clientSecret)
    {
      if x.BuildFailed? {
        return Some(Wrapped("NewRequest: ", x.err));
      }
      var req := NewRequest("POST", AuthURL, Some(GrantBytes));
      req := req.(basicAuth := Some(QueryEscaped(config.clientID, config.clientSecret)));
      req := req.(headers := req.headers["Content-Type" := FormContentType]);
      req := req.(headers := req.headers["Accept" := JsonMediaType]);
      http.Do(req);
      match x
      case SendFailed(e) =>
        return Some(Wrapped("Do: ", e));
      case Responded(status, reply) =>
        if status != 200 {
          return Some(UnexpectedStatus(status));
        }
        match reply
        case ReadFailed(e) =>
          return Some(Wrapped("ReadAll: ", e));
        case DecodeFailed(e) =>
          return Some(Wrapped("Unmarshal: ", e));
        case Decoded(g) =>
          var a := Auth(g.accessToken, g.tokenType, g.scope, g.expiresIn, 0);
          a := a.(expires := ExpiresAt(now, g.expiresIn));
          assert a == Issued(g, now);
          auth := Some(a);
          return None;
    }

    /** `getToken`: renews only an expired token, then serves the cached one. */
    method GetToken(now: int, x: TokenExchange) returns (token: string, err: Option<Failure>)
      requires Ready()
      modifies this`auth, http
      ensures Ready()
      ensures var s := GetTokenOutcome(old(auth.value), now, x);
        token == s.token && err == s.err && auth == Some(s.auth)
        && http.sent == old(http.sent) + (if s.exchanged then TokenCalls(x, config.clientID, config.clientSecret) else [])
    {
      if Expired(auth.value, now) {
        var e := Authorize(now, x);
        if e.Some? {
          return "", Some(Wrapped("Error renewing token: ", e.value));
        }
      }
      return auth.value.accessToken, None;
    }

    /** `request`: the token first, then the method check, the request and one `Do`. */
    method Request(now: int, x: TokenExchange, r: HTTPRequest, built: Option<Failure>, answer: DoAnswer)
      returns (body: Option<Bytes>, status: int, err: Option<Failure>)
      requires Ready()
      modifies this`auth, http
      ensures Ready()
      ensures var s := GetTokenOutcome(old(auth.value), now, x);
        auth == Some(s.auth)
        && (s.err.Some? ==>
              Reply(body, status, err) == Reply(None, 0, s.err)
              && http.sent == old(http.sent) + TokenCalls(x, config.clientID, config.clientSecret))
      ensures var s := GetTokenOutcome(old(auth.value), now, x);
        var calls := if s.exchanged then TokenCalls(x, config.clientID, config.clientSecret) else [];
        var p := BuildRequest(r, built, s.token, config.customerID);
        s.err.None? ==>
          && (p.Err? ==> Reply(body, status, err) == Reply(None, 0, Some(p.error)) && http.sent == old(http.sent) + calls)
          && (p.Ok? ==> Reply(body, status, err) == Respond(answer) && http.sent == old(http.sent) + calls + [p.value])
    {
      var token, e := GetToken(now, x);
      if e.Some? {
        return None, 0, e;
      }
      body, status, err := Send(token, r, built, answer);
    }

    /** The part of `request` after the token. */
    method Send(token: string, r: HTTPRequest, built: Option<Failure>, answer: DoAnswer)
      returns (body: Option<Bytes>, status: int, err: Option<Failure>)
      requires http != null
      modifies http
      ensures var p := BuildRequest(r, built, token, config.customerID);
        && (p.Err? ==> Reply(body, status, err) == Reply(None, 0, Some(p.error)) && http.sent == old(http.sent))
        && (p.Ok? ==> Reply(body, status, err) == Respond(answer) && http.sent == old(http.sent) + [p.value])
    {
      var req: Outbound;
      if r.verb == "GET" {
        req := NewRequest(r.verb, r.url, None);
      } else if r.verb == "POST" {
        if r.postPayload.None? {
          return None, 0, Some(Message("Post payload missing from POST"));
        }
        req := NewRequest(r.verb, r.url, r.postPayload);
      } else {
        return None, 0, Some(Message("Invalid HTTP request method: " + r.verb));
      }
      if built.Some? {
        return None, 0, built;
      }
      req := req.(headers := req.headers["Authorization" := "Bearer " + token]);
      req := req.(headers := req.headers["Accept" := JsonMediaType]);
      req := req.(headers := req.headers[CustomerIDHeader := config.customerID]);
      assert BuildRequest(r, built, token, config.customerID) == Ok(req);
      http.Do(req);
      var reply := Respond(answer);
      return reply.body, reply.status, reply.err;
    }
  }
}
