/**
 * customers.go: the customer's own record.
 */
module Customers {
  import opened GoTypes
  import opened Envelopes
  import Transport

  /** `Customer`, opaque (its addresses are `Addresses.Address` values in the source). */
  type Customer = Record

  /**
   * `GetCustomer`: a GET of `<bankBaseURL>/v1/Customers`. It succeeds exactly
   * when the reply is accepted; a rejection returns `Customer{}` with an
   * `*Error` named "Customers".
   */
  function GetCustomer(bankBaseURL: string, reply: Transport.Reply, decode: Bytes -> Parse<Customer>): (o: Outcome<Customer>)
    ensures o.sent == Some(Get(bankBaseURL + "/v1/Customers"))
    ensures (o.value, o.err) == Settle(Judge("Customers", reply, decode), Zero, false)
    ensures o.err.None? <==>
      reply.err.None? && decode(Body(reply)).Parsed? && !decode(Body(reply)).envelope.isError && reply.status == 200
  {
    Respond(Get(bankBaseURL + "/v1/Customers"), "Customers", reply, decode, Zero, false)
  }
}
