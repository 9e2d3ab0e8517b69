/**
 * config.go: the client configuration and its validation.
 */
module Configuration {
  import opened GoTypes
  import opened Failures

  /** `Config`: three required credentials, an optional user agent, and the test-only `skipAuth` switch. */
  datatype Config = Config(clientID: string, clientSecret: string, customerID: string, userAgent: string, skipAuth: bool)

  /**
   * `(*Config).validate`: the first missing required field, checked in the
   * order ClientID, ClientSecret, CustomerID; nil when all three are set.
   */
  function Validate(c: Config): (r: Option<Failure>)
    ensures r == None <==> c.clientID != "" && c.clientSecret != "" && c.customerID != ""
    ensures c.clientID == "" ==> r == Some(ErrMissingClientID)
    ensures c.clientID != "" && c.clientSecret == "" ==> r == Some(ErrMissingClientSecret)
    ensures c.clientID != "" && c.clientSecret != "" && c.customerID == "" ==> r == Some(ErrMissingCustomerID)
  {
    if c.clientID == "" then Some(ErrMissingClientID)
    else if c.clientSecret == "" then Some(ErrMissingClientSecret)
    else if c.customerID == "" then Some(ErrMissingCustomerID)
    else None
  }

  /** Only the three credentials decide the outcome; the user agent and `skipAuth` never do. */
  lemma ValidateIgnoresOptionalFields(c: Config, userAgent: string, skipAuth: bool)
    ensures Validate(c.(userAgent := userAgent, skipAuth := skipAuth)) == Validate(c)
  {
  }

  /** A failed validation names exactly one of the three sentinel errors. */
  lemma ValidateReportsSentinel(c: Config)
    ensures Validate(c) in {None, Some(ErrMissingClientID), Some(ErrMissingClientSecret), Some(ErrMissingCustomerID)}
  {
  }
}
