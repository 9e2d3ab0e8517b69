/**
 * my_profiles.go: the customer's contact information, from the customers API.
 */
module MyProfiles {
  import opened GoTypes
  import opened Envelopes
  import Transport

  /** `ContactInformation`, opaque; the same shape as `Customer`. */
  type ContactInformation = Record

  /** The request: a GET that names the customer in the `customerId` query parameter. */
  function ContactRequest(customersBaseURL: string, customerID: string): (r: Transport.HTTPRequest)
    ensures r.verb == "GET" && r.postPayload == None
    ensures r.url == customersBaseURL + "/v1/MyProfiles/contactinformation"
    ensures r.queryParams.Keys == {"customerId"} && r.queryParams["customerId"] == customerID
  {
    Transport.HTTPRequest("GET", customersBaseURL + "/v1/MyProfiles/contactinformation", None, map["customerId" := customerID])
  }

  /**
   * `GetContactInformation`: sends `ContactRequest`. It succeeds exactly when
   * the reply is accepted; a rejection returns `ContactInformation{}` with an
   * `*Error` named "Customers".
   */
  function GetContactInformation(customersBaseURL: string, customerID: string, reply: Transport.Reply,
                                 decode: Bytes -> Parse<ContactInformation>): (o: Outcome<ContactInformation>)
    ensures o.sent == Some(ContactRequest(customersBaseURL, customerID))
    ensures (o.value, o.err) == Settle(Judge("Customers", reply, decode), Zero, false)
    ensures o.err.None? <==>
      reply.err.None? && decode(Body(reply)).Parsed? && !decode(Body(reply)).envelope.isError && reply.status == 200
  {
    Respond(ContactRequest(customersBaseURL, customerID), "Customers", reply, decode, Zero, false)
  }
}
