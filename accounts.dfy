/**
 * accounts.go: listing the customer's accounts and reading one account.
 */
module Accounts {
  import opened GoTypes
  import opened Failures
  import opened Envelopes
  import Transport

  /** `Account`, opaque. */
  type Account = Record

  /**
   * `ListAccounts`: a GET of `<bankBaseURL>/v1/Accounts`. It succeeds exactly
   * when the reply is accepted; a rejection returns a nil list, not the
   * decoded one, with an `*Error` named "ListAccounts".
   */
  function ListAccounts(bankBaseURL: string, reply: Transport.Reply, decode: Bytes -> Parse<List>): (o: Outcome<List>)
    ensures o.sent == Some(Get(bankBaseURL + "/v1/Accounts"))
    ensures (o.value, o.err) == Settle(Judge("ListAccounts", reply, decode), None, false)
    ensures o.err.None? <==>
      reply.err.None? && decode(Body(reply)).Parsed? && !decode(Body(reply)).envelope.isError && reply.status == 200
  {
    Respond(Get(bankBaseURL + "/v1/Accounts"), "ListAccounts", reply, decode, None, false)
  }

  /**
   * `ReadAccount`: an empty id is refused with `ErrMissingAccountID` before
   * any request; otherwise a GET of `<bankBaseURL>/v1/Accounts/<id>`, and a
   * rejection returns the decoded account with an `*Error` named "ReadAccount".
   */
  function ReadAccount(bankBaseURL: string, accountID: string, reply: Transport.Reply, decode: Bytes -> Parse<Account>)
    : (o: Outcome<Account>)
    ensures accountID == "" ==> o == Outcome(None, Zero, Some(ErrMissingAccountID))
    ensures accountID != "" ==>
      o.sent == Some(Get(bankBaseURL + "/v1/Accounts/" + accountID))
      && (o.value, o.err) == Settle(Judge("ReadAccount", reply, decode), Zero, true)
  {
    if accountID == "" then Outcome(None, Zero, Some(ErrMissingAccountID))
    else Respond(Get(bankBaseURL + "/v1/Accounts/" + accountID), "ReadAccount", reply, decode, Zero, true)
  }
}
