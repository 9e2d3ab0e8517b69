/**
 * What every JSON endpoint does with the executor's reply: a request error
 * stops it, then the body is decoded, then the envelope (`HTTPResponse`,
 * internal/transport/http.go) and the status code decide between the payload
 * and an `*Error`. Decoding is an input, `decode`, which yields the payload
 * and the envelope, or what it had decoded before it failed.
 */
module Envelopes {
  import opened GoTypes
  import opened Failures
  import ApiErrors
  import Transport

  /** An API object (`Account`, `Card`, ...), kept opaque: its JSON members by name. */
  datatype Record = Record(members: map<string, string>)

  /** The zero value of a payload struct (`Account{}`). */
  const Zero := Record(map[])

  /** A list payload: `None` is a nil slice. */
  type List = Option<seq<Record>>

  /** What `json.Unmarshal` into the endpoint's data struct gives. */
  datatype Parse<T> =
    | Parsed(payload: T, envelope: Transport.Envelope)
    | Malformed(partial: T, err: Failure)

  /** The four ways the reply can end, in the order the endpoints check them. */
  datatype Verdict<T> =
    | Unsent(err: Failure)
    | Undecoded(partial: T, err: Failure)
    | Rejected(payload: T, error: ApiErrors.Error)
    | Accepted(payload: T)

  /** The body `json.Unmarshal` reads: a nil body reads as empty. */
  function Body(reply: Transport.Reply): Bytes
  {
    reply.body.GetOr([])
  }

  /** `&transport.HTTPRequest{Method: http.MethodGet, URL: url}`. */
  function Get(url: string): Transport.HTTPRequest
  {
    Transport.HTTPRequest("GET", url, None, map[])
  }

  /**
   * The endpoints' decision: the reply is accepted exactly when the request
   * went through, the body decoded, the envelope reports no error and the
   * status is 200; a rejection carries the operation's name, the envelope's
   * type, message and code, and the status code.
   */
  function Judge<T>(name: string, reply: Transport.Reply, decode: Bytes -> Parse<T>): (v: Verdict<T>)
    ensures v.Unsent? <==> reply.err.Some?
    ensures v.Undecoded? <==> reply.err.None? && decode(Body(reply)).Malformed?
    ensures v.Accepted? <==>
      reply.err.None? && decode(Body(reply)).Parsed? && !decode(Body(reply)).envelope.isError && reply.status == 200
    ensures v.Unsent? ==> v.err == reply.err.value
    ensures v.Undecoded? ==> decode(Body(reply)) == Malformed(v.partial, v.err)
    ensures v.Rejected? || v.Accepted? ==> decode(Body(reply)).Parsed? && decode(Body(reply)).payload == v.payload
    ensures v.Rejected? ==>
      var env := decode(Body(reply)).envelope;
      v.error == ApiErrors.Error(name, env.errorType, env.errorMessage, env.errorCode, reply.status)
  {
    if reply.err.Some? then Unsent(reply.err.value)
    else match decode(Body(reply))
      case Malformed(partial, e) => Undecoded(partial, e)
      case Parsed(payload, env) =>
        if env.isError || reply.status != 200 then
          Rejected(payload, ApiErrors.Error(name, env.errorType, env.errorMessage, env.errorCode, reply.status))
        else Accepted(payload)
  }

  /** An endpoint's answer, together with the request it handed to the executor, if any. */
  datatype Outcome<T> = Outcome(sent: Option<Transport.HTTPRequest>, value: T, err: Option<Failure>)

  /**
   * What an endpoint returns for a verdict, in the order of its early
   * returns: a request error gives `zero` and the error wrapped "request: ";
   * a decoding error gives the partial payload and the error wrapped
   * "Unmarshal: "; a rejection gives the `*Error`, with the decoded payload
   * when `keep` and `zero` otherwise; acceptance gives the payload and no error.
   */
  function Settle<T>(v: Verdict<T>, zero: T, keep: bool): (o: (T, Option<Failure>))
    ensures o.1.None? <==> v.Accepted?
    ensures v.Accepted? || (v.Rejected? && keep) ==> o.0 == v.payload
    ensures v.Unsent? || (v.Rejected? && !keep) ==> o.0 == zero
    ensures v.Rejected? ==> o.1 == Some(Api(v.error))
    ensures v.Unsent? ==> o.1 == Some(Wrapped("request: ", v.err))
    ensures v.Undecoded? ==> o == (v.partial, Some(Wrapped("Unmarshal: ", v.err)))
  {
    match v
    case Unsent(e) => (zero, Some(Wrapped("request: ", e)))
    case Undecoded(p, e) => (p, Some(Wrapped("Unmarshal: ", e)))
    case Rejected(p, e) => (if keep then p else zero, Some(Api(e)))
    case Accepted(p) => (p, None)
  }

  /**
   * The request that went out, for an endpoint that sends `req`: the answer
   * is the normalised verdict on the reply.
   */
  function Respond<T>(req: Transport.HTTPRequest, name: string, reply: Transport.Reply,
                      decode: Bytes -> Parse<T>, zero: T, keep: bool): (o: Outcome<T>)
    ensures o.sent == Some(req)
    ensures (o.value, o.err) == Settle(Judge(name, reply, decode), zero, keep)
    ensures o.err.None? <==>
      reply.err.None? && decode(Body(reply)).Parsed? && !decode(Body(reply)).envelope.isError && reply.status == 200
  {
    var (value, err) := Settle(Judge(name, reply, decode), zero, keep);
    Outcome(Some(req), value, err)
  }

  /**
   * The check of the endpoints built on the older `request`: the request
   * error as it is, then the status code alone; the envelope is never read.
   */
  function StatusCheck(reply: Transport.Reply): (err: Option<Failure>)
    ensures err.None? <==> reply.err.None? && reply.status == 200
    ensures reply.err.Some? ==> err == reply.err
    ensures reply.err.None? && reply.status != 200 ==> err == Some(UnexpectedStatus(reply.status))
  {
    if reply.err.Some? then reply.err
    else if reply.status != 200 then Some(UnexpectedStatus(reply.status))
    else None
  }

  /**
   * The older endpoints answer a failing status with "unexpected status
   * code: <sc>", a text that no `*Error` named after an operation can have:
   * that one starts with the operation's name.
   */
  lemma StatusErrorIsNotAnApiError(name: string, reply: Transport.Reply, e: ApiErrors.Error)
    requires name != "" && name[0] != 'u'
    requires reply.err.None? && reply.status != 200 && e.errorString == name
    ensures StatusCheck(reply) == Some(UnexpectedStatus(reply.status))
    ensures UnexpectedStatus(reply.status).text != ApiErrors.Text(e)
  {
    ApiErrors.TextFrames(e);
    assert ApiErrors.Text(e)[0] == name[0];
    assert UnexpectedStatus(reply.status).text[0] == 'u';
  }

  /** A JSON value as `json.Marshal` writes a field. */
  datatype Json = JString(s: string) | JBool(b: bool) | JNumber(x: real)

  /** A POST endpoint's answer, together with the request it handed to the executor, if any. */
  datatype Posted = Posted(sent: Option<Transport.HTTPRequest>, err: Option<Failure>)

  /** `&httpRequest{method: http.MethodPost, url: url, postPayload: payload}`. */
  function Post(url: string, payload: Bytes): Transport.HTTPRequest
  {
    Transport.HTTPRequest("POST", url, Some(payload), map[])
  }
}
