/**
 * transfers.go: moving money between the customer's own accounts. Built on
 * the older `request`, so only the status code decides.
 */
module Transfers {
  import opened GoTypes
  import opened Failures
  import opened Envelopes
  import Transport

  /** `TransferQuery`; `Amount` is a `float32` in the source. */
  datatype TransferQuery = TransferQuery(fromAccountID: string, toAccountID: string, message: string, amount: real)

  /** The JSON object `json.Marshal` writes for the query, by its field tags (the recipient's tag is spelt "toAccoundId"). */
  function Wire(q: TransferQuery): (m: map<string, Json>)
    ensures m.Keys == {"fromAccountId", "toAccoundId", "message", "amount"}
    ensures m["fromAccountId"] == JString(q.fromAccountID) && m["toAccoundId"] == JString(q.toAccountID)
    ensures m["message"] == JString(q.message) && m["amount"] == JNumber(q.amount)
  {
    map["fromAccountId" := JString(q.fromAccountID), "toAccoundId" := JString(q.toAccountID),
        "message" := JString(q.message), "amount" := JNumber(q.amount)]
  }

  /** No field is lost on the wire: different queries give different objects. */
  lemma WireInjective(p: TransferQuery, q: TransferQuery)
    requires Wire(p) == Wire(q)
    ensures p == q
  {
    assert Wire(p)["fromAccountId"] == Wire(q)["fromAccountId"];
    assert Wire(p)["toAccoundId"] == Wire(q)["toAccoundId"];
    assert Wire(p)["message"] == Wire(q)["message"];
    assert Wire(p)["amount"] == Wire(q)["amount"];
  }

  /** The POST a present query leads to once it is marshalled, and its outcome. */
  function Send(baseURL: string, payload: Bytes, reply: Transport.Reply): Posted
  {
    Posted(Some(Post(baseURL + "/v1/Transfers", payload)), StatusCheck(reply))
  }

  /**
   * `Transfer` as written: a nil query is refused with a fresh message
   * before marshalling or any request; a marshalling error is returned as it
   * is; then a POST of the marshalled query to `<baseURL>/v1/Transfers`,
   * which succeeds exactly on status 200.
   */
  function TransferAsWritten(baseURL: string, q: Option<TransferQuery>, marshal: map<string, Json> -> Result<Bytes>,
                             reply: Transport.Reply): (p: Posted)
    ensures q.None? ==> p == Posted(None, Some(Message("No TransferQuery passed")))
    ensures q.Some? && marshal(Wire(q.value)).Err? ==> p == Posted(None, Some(marshal(Wire(q.value)).error))
    ensures q.Some? && marshal(Wire(q.value)).Ok? ==>
      p.sent == Some(Post(baseURL + "/v1/Transfers", marshal(Wire(q.value)).value))
      && p.err == StatusCheck(reply) && (p.err.None? <==> reply.err.None? && reply.status == 200)
  {
    if q.None? then Posted(None, Some(Message("No TransferQuery passed")))
    else match marshal(Wire(q.value))
      case Err(e) => Posted(None, Some(e))
      case Ok(payload) => Send(baseURL, payload, reply)
  }

  /**
   * The nil-query error as written is a new message, not the package's
   * `ErrMissingTransferQuery`, so a caller comparing against that sentinel
   * never matches it.
   */
  lemma NilQueryIsNotTheSentinel(baseURL: string, marshal: map<string, Json> -> Result<Bytes>, reply: Transport.Reply)
    ensures TransferAsWritten(baseURL, None, marshal, reply).err != Some(ErrMissingTransferQuery)
  {
    assert TransferAsWritten(baseURL, None, marshal, reply).err == Some(Message("No TransferQuery passed"));
  }

  /** `Transfer` with the nil query refused by `ErrMissingTransferQuery`, the package's sentinel for it. */
  function Transfer(baseURL: string, q: Option<TransferQuery>, marshal: map<string, Json> -> Result<Bytes>,
                    reply: Transport.Reply): (p: Posted)
    ensures q.None? ==> p == Posted(None, Some(ErrMissingTransferQuery))
    ensures q.Some? && marshal(Wire(q.value)).Err? ==> p == Posted(None, Some(marshal(Wire(q.value)).error))
    ensures q.Some? && marshal(Wire(q.value)).Ok? ==>
      p.sent == Some(Post(baseURL + "/v1/Transfers", marshal(Wire(q.value)).value))
      && p.err == StatusCheck(reply) && (p.err.None? <==> reply.err.None? && reply.status == 200)
  {
    if q.None? then Posted(None, Some(ErrMissingTransferQuery))
    else match marshal(Wire(q.value))
      case Err(e) => Posted(None, Some(e))
      case Ok(payload) => Send(baseURL, payload, reply)
  }

  /** The correction changes only the nil case: with a query both send the same request and report the same error. */
  lemma CorrectionOnlyNil(baseURL: string, q: TransferQuery, marshal: map<string, Json> -> Result<Bytes>, reply: Transport.Reply)
    ensures Transfer(baseURL, Some(q), marshal, reply) == TransferAsWritten(baseURL, Some(q), marshal, reply)
  {
  }

  /**
   * `Transfer` reporting a failure as the other endpoints do: the reply's
   * envelope is decoded and judged, so a rejection is an `*Error` named
   * "Transfer" carrying the status code.
   */
  function TransferEnveloped(baseURL: string, q: Option<TransferQuery>, marshal: map<string, Json> -> Result<Bytes>,
                             reply: Transport.Reply, decode: Bytes -> Parse<Record>): (p: Posted)
    ensures q.None? ==> p == Posted(None, Some(ErrMissingTransferQuery))
    ensures q.Some? && marshal(Wire(q.value)).Err? ==> p == Posted(None, Some(marshal(Wire(q.value)).error))
    ensures q.Some? && marshal(Wire(q.value)).Ok? ==>
      p.sent == Some(Post(baseURL + "/v1/Transfers", marshal(Wire(q.value)).value))
      && p.err == Settle(Judge("Transfer", reply, decode), Zero, false).1
    ensures q.Some? && marshal(Wire(q.value)).Ok? && reply.err.None? && reply.status != 200
            && decode(Body(reply)).Parsed? ==>
      p.err.Some? && p.err.value.Api? && p.err.value.error.errorString == "Transfer" && p.err.value.error.statusCode == reply.status
  {
    if q.None? then Posted(None, Some(ErrMissingTransferQuery))
    else match marshal(Wire(q.value))
      case Err(e) => Posted(None, Some(e))
      case Ok(payload) => Posted(Some(Post(baseURL + "/v1/Transfers", payload)), Settle(Judge("Transfer", reply, decode), Zero, false).1)
  }
}
