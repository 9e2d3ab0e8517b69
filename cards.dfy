/**
 * cards.go: listing the customer's cards.
 */
module Cards {
  import opened GoTypes
  import opened Envelopes
  import Transport

  /**
   * `ListCards`: a GET of `<bankBaseURL>/v1/Cards`. It succeeds exactly when
   * the reply is accepted; a rejection returns the decoded cards with an
   * `*Error` named "ListCards".
   */
  function ListCards(bankBaseURL: string, reply: Transport.Reply, decode: Bytes -> Parse<List>): (o: Outcome<List>)
    ensures o.sent == Some(Get(bankBaseURL + "/v1/Cards"))
    ensures (o.value, o.err) == Settle(Judge("ListCards", reply, decode), None, true)
    ensures o.err.None? <==>
      reply.err.None? && decode(Body(reply)).Parsed? && !decode(Body(reply)).envelope.isError && reply.status == 200
  {
    Respond(Get(bankBaseURL + "/v1/Cards"), "ListCards", reply, decode, None, true)
  }
}
