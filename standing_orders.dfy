/**
 * standing_orders.go: the standing orders of one account.
 */
module StandingOrders {
  import opened GoTypes
  import opened Failures
  import opened Envelopes
  import Transport

  /**
   * `ListStandingOrders`: an empty account id is refused with
   * `ErrMissingAccountID` before any request; otherwise a GET of
   * `<bankBaseURL>/v1/StandingOrders/<id>`, and a rejection returns the
   * decoded list with an `*Error` named "ListStandingOrders".
   */
  function ListStandingOrders(bankBaseURL: string, accountID: string, reply: Transport.Reply, decode: Bytes -> Parse<List>)
    : (o: Outcome<List>)
    ensures accountID == "" ==> o == Outcome(None, None, Some(ErrMissingAccountID))
    ensures accountID != "" ==>
      o.sent == Some(Get(bankBaseURL + "/v1/StandingOrders/" + accountID))
      && (o.value, o.err) == Settle(Judge("ListStandingOrders", reply, decode), None, true)
  {
    if accountID == "" then Outcome(None, None, Some(ErrMissingAccountID))
    else Respond(Get(bankBaseURL + "/v1/StandingOrders/" + accountID), "ListStandingOrders", reply, decode, None, true)
  }
}
