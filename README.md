# sbanken-go, modelled in Dafny

A model of the core of `sbanken-go`, a typed Go client for the Sbanken open
banking REST API. It covers six parts:

- **Token store** (`Transport`, `Legacy`). A client-credentials access token
  (section 4.4 of RFC 6749) is cached with an absolute expiry. `getToken`
  renews it only when the clock is strictly past that expiry.
- **Request executor** (`Transport.Client.Request`, `Legacy.Client.Request`).
  It fetches the token first. Then it dispatches on the method (GET, or POST
  with a payload). It sets the `Authorization: Bearer` header (section 2.1 of
  RFC 6750), `Accept`, and either `User-Agent` or `customerId`. It hands the
  request to `Do` once and passes body and status back unclassified.
- **Endpoint normalisers** (`Envelopes` and one module per endpoint file).
  Each checks its required arguments before any request and builds a URL.
  It then turns the reply into a payload or an error: success exactly when
  the request went through, the body decoded, `IsError` is false and the
  status is 200.
- **Query-string builders** (`Payments`, `Transactions`, `Efakturas`, on top
  of `UrlValues`). Empty or zero parameters are omitted. `url.Values.Encode`
  emits the remaining pairs sorted by key and joined by `&`
  (application/x-www-form-urlencoded, section 5.2 of the WHATWG URL
  Standard). Value escaping is an uninterpreted function `esc`.
- **Client construction** (`Sbanken.NewClient`, `Transport.New`).
  `Config.validate` runs first, then the transport authorizes once, and the
  client gets the fixed base URL.
- **Small pure functions.** `Address.String` (`Addresses`), `Config.validate`
  (`Configuration`) and `Error.Error` (`ApiErrors`).

The files of the repository come from different revisions. Each file is
modelled as written, except where "## Findings" names a bug: there the
as-written behaviour is a member of its own, and the rest of the model is
built on the corrected member. In particular `Transport.Execute`,
`Transport.Client.Request` and `Transport.Client.Send` use the corrected
`Transport.Prepare` and `Transport.Respond`, `Legacy.Client.Request` uses the
corrected `Transport.Respond`, and no member runs internal/transport/http.go's
`Request` end to end as written. How the revisions are kept apart:

- The root `auth.go` and `http.go` form the `Legacy` module, on their own client class.
- `efakturas.go` and `transfers.go` use the older `request`, which checks only the status code.
- The base URL is always a parameter.

The state-changing code is imperative Dafny:

- `Transport.Client` and `Legacy.Client` are classes with an `auth` field and an `HttpClient`.
- `HttpClient` records every request handed to `Do` in its `sent` log, so contracts can say which calls happen and in what order.
- The `QueryString` methods build their `url.Values` step by step.
- `Addresses.String` appends to its list of lines step by step.

Each of these is proved against a specification function. The properties are
proved about that function.

The model follows the code wherever a description of the library says
otherwise. For token expiry, the code renews only when
`time.Now().After(expires)`. That test is strict, so a token is still served
at the very instant it expires.

## Model

| member | source | states |
|---|---|---|
| Format.Digits | error.go:18-19 | `%d` of a natural number: at least one character, all of them decimal digits, and no leading zero except for 0 itself |
| Format.Decimal | error.go:18-19 | `%d` of an int: the digits, with a leading "-" exactly for negative numbers |
| Format.DigitsRoundTrip | error.go:18-19 | reading the digits of n back yields n |
| Format.DecimalRoundTrip | error.go:18-19 | reading the `%d` text of any int back yields the int |
| Format.DecimalInjective | error.go:18-19 | different numbers print differently |
| Format.Join | address.go:55 | `strings.Join`: the parts with the separator between neighbours; its shape is pinned by JoinSnoc and JoinTwo |
| Format.JoinSnoc | address.go:55 | `strings.Join` of a list with one more part is the old join, then the separator, then the part (or the part alone) |
| Format.JoinTwo | transactions.go:94 | joining two parts puts the separator between them |
| ApiErrors.Head | error.go:15-17 | the text before the status code: ErrorString, " error: ", ErrorType, " (StatusCode: "; its layout is stated by TextLayout and TextFrames |
| ApiErrors.Codes | error.go:18-19 | `%d` of StatusCode, " / ErrorCode: ", `%d` of Code; CodesInjective proves it loses neither number |
| ApiErrors.Text | error.go:13-22 | `Error.Error()`: Head, Codes, "): ", Message; TextLayout, TextFrames and TextDeterminesCodes state what it contains and that no field is lost |
| ApiErrors.TextLayout | error.go:13-22 | the text is Head, then `%d` of StatusCode, " / ErrorCode: ", `%d` of Code, "): ", Message, at exactly these offsets: the status code comes first although Code is declared first |
| ApiErrors.TextFrames | error.go:15-21 | the text starts with ErrorString and ends with Message |
| ApiErrors.DecimalHasNoSpace | error.go:18-19 | a printed number contains no space |
| ApiErrors.SpaceIndex | error.go:18-19 | the position of the first space is within the string |
| ApiErrors.SpaceIndexAfter | error.go:18-19 | in a space-free prefix followed by a space, the first space is right after the prefix |
| ApiErrors.SplitAtSpace | error.go:18-19 | "a / ErrorCode: b" splits back uniquely into a and b when a has no space |
| ApiErrors.CodesInjective | error.go:18-19 | the codes part of the text determines both the status code and the error code |
| ApiErrors.CodesPosition | error.go:17-21 | the codes part sits right after the head |
| ApiErrors.SameCodes | error.go:13-22 | equal texts with equal heads and messages have equal codes parts |
| ApiErrors.TextDeterminesCodes | error.go:13-22 | two errors with the same name, type and message whose texts are equal are equal: the text loses no field |
| ApiErrors.SmallDecimals | error_test.go:13-19 | `%d` prints 0 as "0" and 500 as "500" |
| ApiErrors.ZeroCodeExample | error_test.go:13-19 | a zero Code with status 500 renders "TestError error: Test (StatusCode: 500 / ErrorCode: 0): an error occured" |
| Configuration.Validate | config.go:16-30 | nil exactly when ClientID, ClientSecret and CustomerID are all non-empty; otherwise the sentinel of the first missing field, in that fixed order |
| Configuration.ValidateIgnoresOptionalFields | config.go:12-13 | UserAgent and skipAuth never change the result |
| Configuration.ValidateReportsSentinel | config.go:16-30 | the result is nil or one of the three sentinels |
| Addresses.Present | address.go:20-55 | the kept parts are non-empty, come from the input, and are no more than the input |
| Addresses.Locality | address.go:39-48 | zip and city joined by one space when both are set, otherwise whichever is set (or ""); LocalityParts and LocalityAlone state its cases |
| Addresses.Segments | address.go:23-53 | the non-empty parts among the four lines, the locality and the country, in that order; SegmentsUnfold, SegmentsNonEmpty and CountryLast state its shape |
| Addresses.String | address.go:20-56 | the step-by-step append-and-join equals the ", "-join of the non-empty segments |
| Addresses.SegmentsUnfold | address.go:23-53 | the segments are the four lines, the locality and the country, each present only when non-empty, in that order |
| Addresses.SegmentsFromParts | address.go:23-53 | the parts collected one after another are the segments |
| Addresses.LocalityParts | address.go:39-48 | zip and city both set give one segment "zip city"; otherwise each non-empty one is its own segment |
| Addresses.EmptyAddress | address.go:20-55 | an empty address formats to "" |
| Addresses.SegmentsNonEmpty | address.go:55 | no segment is empty, so no empty slot appears between separators |
| Addresses.CountryLast | address.go:51-53 | a non-empty country is always the last segment |
| Addresses.ZipAndCityMerge | address.go:39-40 | with zip and city set, the segment before the country (or the last one) is "zip city" |
| Addresses.LocalityAlone | address.go:41-48 | with only one of zip or city set, that value alone is the locality |
| Addresses.FullAddressExample | address.go:20-56 | the three-line example with zip, city and country formats as "c/o Test Testesen, Testerstreet 1, PO 13371337, 1337 Sandvika, Norway" |
| Addresses.LocalityExample | address.go:39-40 | "1337" and "Sandvika" merge into "1337 Sandvika" |
| Addresses.JoinFive | address.go:55 | five parts join with the separator between each neighbouring pair |
| UrlValues.Keys | payments.go:45 | the key column of the values, position by position |
| UrlValues.Lookup | payments.go:45-55 | `url.Values.Get`-style lookup of a key's values, nothing for an absent key; LookupAbsent and LookupPresent pin it |
| UrlValues.LookupAbsent | payments.go:45-55 | a key never added has no values |
| UrlValues.LookupPresent | payments.go:45-55 | in well-formed values each entry's values are what lookup of its key returns |
| UrlValues.IndexOf | payments.go:45-55 | a present key is found at an entry with that key |
| UrlValues.Add | payments.go:47-53 | `Values.Add`: append to the key's values, or add a new key with that value; AddLookup states its effect on every key |
| UrlValues.AddLookup | payments.go:47-53 | `Add(k, x)` appends x to k's values, leaves every other key's values alone and adds k to the key set |
| UrlValues.LookupUpdate | payments.go:47-53 | replacing one entry changes only its key's values |
| UrlValues.BelowTotal | payments.go:55 | the bytewise key order is total |
| UrlValues.BelowAntisymmetric | payments.go:55 | the bytewise key order is antisymmetric |
| UrlValues.BelowTransitive | payments.go:55 | the bytewise key order is transitive |
| UrlValues.Insert | payments.go:55 | inserting a key into a strictly sorted list keeps it strictly sorted and adds exactly that key |
| UrlValues.SortKeys | payments.go:55 | the sorted keys are strictly sorted and are exactly the input keys |
| UrlValues.SortedUnique | payments.go:55 | two strictly sorted lists with the same members are equal |
| UrlValues.PairsOf | payments.go:55 | each value of a key becomes "esc(key)=esc(value)", in order |
| UrlValues.PairsAgree | payments.go:55 | pairs depend only on each key's values |
| UrlValues.Encode | payments.go:55 | `Values.Encode`: the escaped pairs of the keys in sorted order, joined by "&"; EncodeIgnoresInsertionOrder, EncodeEmpty and EncodeDistinct state what it produces |
| UrlValues.EncodeIgnoresInsertionOrder | transactions.go:78-94 | two values with the same keys and the same values per key encode identically, whatever order they were added in |
| UrlValues.EncodeEmpty | payments.go:55 | empty values encode to "" |
| UrlValues.EncodeSortedSingles | payments.go:55 | sorted single-valued entries encode to their pairs joined by "&" |
| UrlValues.SinglePairs | payments.go:55 | one pair per single-valued entry |
| UrlValues.SinglesAsPairs | payments.go:55 | a prefix of sorted single-valued entries gives its own pairs |
| UrlValues.AddAll | payments.go:47-53 | a run of `Add` calls, one per parameter, in order; AddAllSnoc and AddAllLookup state its effect |
| UrlValues.AddAllSnoc | payments.go:47-53 | adding one more parameter is one more `Add` |
| UrlValues.AddIf | payments.go:47-53 | one guarded `Add` on the values extends the parameters added so far by that optional parameter |
| UrlValues.MatchingOpt | payments.go:47-53 | an optional parameter contributes its value to its own key only, and only when given |
| UrlValues.MatchingField | payments.go:47-53 | the same, stated against a caller's expected value |
| UrlValues.MatchingAppend | payments.go:47-53 | the values a key gets from two runs of parameters are the first's, then the second's |
| UrlValues.Pick4 | transactions.go:78-92 | with four distinct keys, the four contributions to one key add up to that key's value |
| UrlValues.Pick5 | efakturas.go:47-65 | with five distinct keys, the five contributions to one key add up to that key's value |
| UrlValues.AddAllLookup | payments.go:47-53 | after adding parameters, each key holds its old values followed by its parameters' values, and the key set grows by exactly the added keys |
| UrlValues.ParamKeys | payments.go:55 | the keys of the parameters, position by position |
| UrlValues.Escaped | payments.go:55 | each parameter renders as "esc(key)=esc(value)" |
| UrlValues.Singles | payments.go:55 | each parameter as an entry with one value |
| UrlValues.SinglesLookup | payments.go:55 | with sorted distinct keys, lookup in the single-valued entries is the parameters' own values |
| UrlValues.MatchingAbsent | payments.go:47-53 | a key no parameter has gets no value |
| UrlValues.MatchingPresent | payments.go:47-53 | a parameter's key gets at least one value |
| UrlValues.EncodeDistinct | transactions.go:78-94 | adding parameters to empty values in any order encodes as the key-sorted parameters joined by "&" |
| UrlValues.SinglesShape | payments.go:55 | sorted parameters as entries are well formed, single-valued, with the same keys |
| UrlValues.SameLookups | transactions.go:78-94 | the added parameters and their sorted rearrangement agree on every key |
| UrlValues.SameKeys | transactions.go:78-94 | and have the same key set |
| UrlValues.SinglePairsEscaped | payments.go:55 | the pairs of single-valued entries are the escaped parameters |
| UrlValues.OptSorted | transactions.go:78-94 | an optional parameter before larger keys keeps the keys sorted |
| UrlValues.ParamKeysCons | payments.go:55 | the keys of a parameter list with a head |
| UrlValues.ConsSorted | payments.go:55 | a key below all of a sorted list's keys extends it sorted |
| UrlValues.AfterOpt | transactions.go:78-94 | an optional parameter with a larger key lies after a smaller key |
| UrlValues.AfterAppend | transactions.go:78-94 | lying after a key is kept by concatenation |
| Transport.ExpiresAt | internal/transport/auth.go:59-60 | the expiry `now + ExpiresIn` seconds, in nanoseconds, is at or after now exactly when ExpiresIn is non-negative |
| Transport.GrantBytesSpellGrantBody | internal/transport/auth.go:24 | the token request's body bytes spell "grant_type=client_credentials" |
| Transport.TokenRequest | internal/transport/auth.go:23-35 | the token request: a POST of the client-credentials grant to the token URL, with basic auth of the query-escaped credentials, the form Content-Type and Accept application/json; Client.Authorize logs exactly this request |
| Transport.TokenCalls | internal/transport/auth.go:23-35 | the calls one exchange makes: the token request, unless building it failed; Client.Authorize and Client.GetToken ensure their logs grow by exactly this |
| Transport.Issued | internal/transport/auth.go:54-62 | the stored record is the decoded grant, field by field, with expiry `ExpiresAt(now, ExpiresIn)`, which is at or after now exactly when ExpiresIn is non-negative |
| Transport.Exchange | internal/transport/auth.go:22-65 | the exchange stores a record exactly when the response is 200 and decodes; a non-200 fails with "unexpected status code: sc" before reading; request, transport, read and decode failures return their error as is |
| Transport.Expired | internal/transport/auth.go:68 | `time.Now().After(expires)`: strictly past the expiry; Token and RenewedTokenIsCached state what follows from it |
| Transport.Token | internal/transport/auth.go:67-76 | a token not strictly past expiry is served from the cache with no exchange; an expired one runs exactly one exchange and serves the new token; a failed renewal serves "" and "error renewing token: " and keeps the record |
| Transport.RenewedTokenIsCached | internal/transport/auth.go:59-75 | right after a successful renewal with a non-negative lifetime, the next call at the same instant is served from the cache with no exchange |
| Transport.Prepare | internal/transport/http.go:36-59 | GET gives a request with no body, POST requires a payload ("Post payload missing from POST"), any other method fails with "Invalid HTTP request method: m"; a built request carries exactly Authorization "Bearer token", Accept, User-Agent, and Content-Type application/json on POST |
| Transport.PrepareAsWritten | internal/transport/http.go:45-46 | as written, the POST branch sets a header before the build error is checked: it has no outcome exactly for a POST whose request could not be built, and agrees with `Prepare` everywhere else |
| Transport.PostWithBadURLPanics | internal/transport/http.go:45-46 | a POST with a payload to an unparsable URL reaches that case; the corrected executor returns the build error |
| Transport.Respond | internal/transport/http.go:61-73 | one answer from `Do`: the body and status are returned unchanged exactly when `Do` and the read succeed, whatever the status; a failure returns no body |
| Transport.RespondAsWritten | internal/transport/http.go:61-64 | as written, a `Do` failure without a response reads a status from a nil response: no outcome exactly there, `Respond` elsewhere |
| Transport.DoFailureWithoutResponsePanics | internal/transport/http.go:61-64 | that case is reached by any transport error without a response; the corrected executor returns (nil, 0, err) |
| Transport.Execute | internal/transport/http.go:30-74 | corrected (see Findings for http.go:45-46 and :61-64): a token failure returns (nil, 0, err) and builds nothing; a preparation failure returns its error; success exactly when the token, the request and the `Do` all succeed, with the body and status passed through |
| Transport.RequestCalls | internal/transport/http.go:30-74 | the calls one request makes: the token request when a renewal ran, then the API request when the token and the request were both obtained; OneCallPerRequest and Client.Request state its use |
| Transport.OneCallPerRequest | internal/transport/http.go:61-73 | a request that is sent makes exactly one API call, last, after at most one token request |
| Transport.HttpClient.Do | internal/transport/http.go:61 | a `Do` appends the request to the client's log and does nothing else |
| Transport.Client.constructor | internal/transport/transport.go:24-28 | the credentials are copied unchanged; no HTTP client and no token yet |
| Transport.Client.SetHTTPClient | internal/transport/transport.go:39-46 | the default client when given nil, the supplied one otherwise |
| Transport.Client.Authorize | internal/transport/auth.go:22-65 | success overwrites the whole record with `Exchange`'s; every failure leaves it untouched; the token request is logged unless building it failed |
| Transport.Client.GetToken | internal/transport/auth.go:67-76 | the returned token, error and new record are those of `Token`, and the token request is logged only when a renewal ran |
| Transport.Client.Request | internal/transport/http.go:30-74 | corrected (see Findings for http.go:45-46 and :61-64): the answer is `Execute`'s, the record is `Token`'s, and the calls to `Do` are exactly `RequestCalls`: the token request if renewing, then the API request if it was built |
| Transport.Client.Send | internal/transport/http.go:36-73 | corrected (see Findings for http.go:45-46 and :61-64): a preparation failure makes no call; otherwise exactly the prepared request is handed to `Do` and its answer passed back |
| Transport.New | internal/transport/transport.go:23-37 | a client comes back exactly when the single authorize succeeds, and then has the credentials, the selected HTTP client and a token record; otherwise nil and "authorize: " around the exchange error; only the selected HTTP client logs a call, and a separate default client is left unchanged |
| Legacy.AuthorizeOutcome | auth.go:14-56 | stores the same record as the newer exchange, under the same conditions; request, transport, read and decode failures are wrapped "NewRequest: ", "Do: ", "ReadAll: ", "Unmarshal: "; a non-200 fails with "unexpected status code: sc" |
| Legacy.GetTokenOutcome | auth.go:58-67 | the same token, record and exchange decision as the newer `getToken`, with the renewal error wrapped "Error renewing token: " |
| Legacy.BuildRequest | http.go:24-46 | the same method checks and errors as the newer executor; the headers are exactly Authorization "Bearer token", Accept and the customer id from the config under "Customerid", the canonical form `Header.Set` gives "customerId", with no Content-Type on POST |
| Legacy.Client.Authorize | auth.go:14-56 | success overwrites the record with `AuthorizeOutcome`'s, failure leaves it untouched, and the token request is logged unless building it failed |
| Legacy.Client.GetToken | auth.go:58-67 | token, error and record are those of `GetTokenOutcome` |
| Legacy.Client.Request | http.go:18-62 | a token failure returns (nil, 0, err); then a preparation failure makes no API call; otherwise exactly one `Do` of the built request, after the token request if one ran, with the answer passed back through the corrected `Transport.Respond` (see Findings for http.go:48-51) |
| Legacy.Client.Send | http.go:24-60 | a preparation failure makes no call; otherwise exactly the built request is handed to `Do` |
| Envelopes.Judge | accounts.go:32-56 | a request error stops first; then a decode error; then the reply is accepted exactly when `!IsError && sc == 200`, and a rejection carries the operation name, the envelope's type, message and code and the status |
| Envelopes.Settle | accounts.go:32-56 | the one table every endpoint follows: an error exactly when the verdict is not an acceptance; a request failure gives the zero value and "request: " around it, a decode failure the partially decoded payload and "Unmarshal: " around it, a rejection the `*Error` with the decoded payload or the zero value as the endpoint chooses, an acceptance the payload and nil |
| Envelopes.Respond | accounts.go:26-57 | the endpoint sends the given request and answers with `Settle` of the verdict; no error exactly when the request went through, decoded, `!IsError` and status 200 |
| Envelopes.StatusCheck | efakturas.go:92-98 | the older endpoints: the request error as is, then "unexpected status code: sc" for any status but 200; the envelope is never read |
| Envelopes.StatusErrorIsNotAnApiError | efakturas.go:96-98 | as written, the older endpoints answer a non-200 status with "unexpected status code: sc", which differs from the text of any `*Error` named after the operation, as efakturas_test.go:161-163 and transfers_test.go:64-65 expect |
| Accounts.ListAccounts | accounts.go:26-57 | GET of bankBaseURL/v1/Accounts; success exactly when accepted; a rejection returns a nil list, not the decoded one, with `Error{"ListAccounts", …}` |
| Accounts.ReadAccount | accounts.go:60-95 | an empty id returns `Account{}` and ErrMissingAccountID before any request; otherwise GET of /v1/Accounts/id, and a rejection returns the decoded account with `Error{"ReadAccount", …}` |
| Cards.ListCards | cards.go:28-59 | GET of bankBaseURL/v1/Cards; success exactly when accepted; a rejection returns the decoded cards with `Error{"ListCards", …}` |
| Customers.GetCustomer | customers.go:32-63 | GET of bankBaseURL/v1/Customers; a rejection returns a zeroed customer with the operation name "Customers" |
| MyProfiles.ContactRequest | my_profiles.go:28-35 | a GET of customersBaseURL/v1/MyProfiles/contactinformation whose only query parameter is customerId |
| MyProfiles.GetContactInformation | my_profiles.go:27-62 | sends that request; a rejection returns zeroed contact information with the operation name "Customers" |
| StandingOrders.ListStandingOrders | standing_orders.go:31-66 | an empty account id returns nil and ErrMissingAccountID before any request; otherwise GET of /v1/StandingOrders/id, and a rejection returns the decoded list with `Error{"ListStandingOrders", …}` |
| Payments.QueryString | payments.go:39-56 | a URL that does not parse is returned with its error; otherwise the encoded query of the existing parameters plus index and length, each only when non-empty |
| Payments.ParamsAdded | payments.go:47-55 | after the guarded adds, each key holds its old values followed by exactly the wanted value: index and length only when non-empty, nothing for any other key |
| Payments.ParamsMatch | payments.go:47-55 | the guarded adds contribute exactly the wanted value to each key |
| Payments.QuerySorted | payments.go:45-55 | on a URL without a query, the query string is the given parameters joined by "&", index before length |
| Payments.EmptyQuery | payments.go:45-55 | an empty query gives "" |
| Payments.IndexAndLengthExample | payments.go:47-55 | index 1 and length 5 give "index=1&length=5" |
| Payments.BothGiven | payments.go:47-53 | with both given, the parameters are index then length |
| Payments.ListPayments | payments.go:59-103 | an empty account id returns nil and ErrMissingAccountID before any request; with a query the URL gets "?" and the query string, even an empty one, and a query error is wrapped "QueryString: "; a rejection returns the decoded list with `Error{"ListPayments", …}` |
| Payments.ReadPayment | payments.go:106-145 | the account id is checked before the payment id, both before any request; then GET of /v1/Payments/account/payment, and a rejection returns the decoded payment with `Error{"ReadPayment", …}` |
| Transactions.QueryString | transactions.go:70-95 | a URL that does not parse is returned with its error; otherwise the encoded query with startDate and endDate for non-zero times and index and length when non-empty |
| Transactions.ParamsAdded | transactions.go:78-92 | each key holds its old values followed by exactly the wanted value, nothing for any other key |
| Transactions.ParamsMatch | transactions.go:78-92 | the guarded adds, in source order, contribute exactly the wanted value to each key |
| Transactions.SortedMatch | transactions.go:78-94 | the key-sorted parameters contribute the same value to each key |
| Transactions.FieldsMatch | transactions.go:78-92 | the four optional parameters, in either order, add up to the wanted value for each key |
| Transactions.KeysDistinct | transactions.go:78-92 | the four parameter names are pairwise distinct |
| Transactions.WantedAt | transactions.go:78-92 | the wanted value of each parameter name is its guarded value, and nothing for other names |
| Transactions.SortedParamsSorted | transactions.go:94 | endDate, index, length, startDate are in strictly increasing key order |
| Transactions.TailSorted | transactions.go:94 | the last three of these are sorted |
| Transactions.LastSorted | transactions.go:94 | length then startDate are sorted |
| Transactions.QuerySorted | transactions.go:78-94 | on a URL without a query, the query string is the given parameters in key order joined by "&", whatever order they were added in |
| Transactions.EmptyQuery | transactions.go:78-94 | nothing given gives "" |
| Transactions.DateRange | transactions.go:78-94 | with both dates, "endDate=…&startDate=…": endDate first although startDate is added first |
| Transactions.TransactionsURL | transactions.go:99-108 | the URL baseURL/v1/Transactions/accountID, with "?" and the query string when a query is passed, or the query error wrapped "QueryString: " |
| Transactions.ListTransactionsAsWritten | transactions.go:98-138 | as written: no account-id check, a GET of that URL, and a rejection returns the decoded list with `Error{"ListTransactions", …}` |
| Transactions.EmptyAccountIDIsSent | transactions.go:98-99 | as written, an empty account id is sent to ".../v1/Transactions/" |
| Transactions.ListTransactions | transactions.go:98-138 | corrected: an empty account id returns nil and ErrMissingAccountID before any request; otherwise as written |
| Efakturas.QueryString | efakturas.go:39-68 | a URL that does not parse is returned with its error; otherwise the encoded query with the dates when non-zero and status, index and length when non-empty |
| Efakturas.ParamsAdded | efakturas.go:47-65 | each key holds its old values followed by exactly the wanted value, nothing for any other key |
| Efakturas.ParamsMatch | efakturas.go:47-65 | the guarded adds, in source order, contribute exactly the wanted value to each key |
| Efakturas.SortedMatch | efakturas.go:47-67 | the key-sorted parameters contribute the same value to each key |
| Efakturas.MatchingFive | efakturas.go:47-65 | the values a key gets from five runs of parameters, in order |
| Efakturas.FieldsMatch | efakturas.go:47-65 | the five optional parameters, in either order, add up to the wanted value for each key |
| Efakturas.KeysDistinct | efakturas.go:47-65 | the five parameter names are pairwise distinct |
| Efakturas.WantedAt | efakturas.go:47-65 | the wanted value of each parameter name is its guarded value, and nothing for other names |
| Efakturas.SortedParamsSorted | efakturas.go:67 | endDate, index, length, startDate, status are in strictly increasing key order |
| Efakturas.IndexSorted | efakturas.go:67 | index and the keys after it are sorted |
| Efakturas.LengthSorted | efakturas.go:67 | length and the keys after it are sorted |
| Efakturas.DatesSorted | efakturas.go:67 | startDate then status are sorted |
| Efakturas.QuerySorted | efakturas.go:47-67 | on a URL without a query, the query string is the given parameters in key order joined by "&" |
| Efakturas.EmptyQuery | efakturas.go:47-67 | nothing given gives "" |
| Efakturas.DateRange | efakturas.go:47-67 | with both dates, "endDate=…&startDate=…" |
| Efakturas.StatusOnly | efakturas.go:55-67 | a status-only query gives "status=test" |
| Efakturas.ListEfakturas | efakturas.go:76-107 | a query error is returned as is; otherwise GET of baseURL/v1/Efakturas (with "?" and the query when given); any status but 200 gives nil and "unexpected status code: sc"; on 200 the decoded items come back with no error, a decode error ignored |
| Efakturas.ListEfakturasEnveloped | efakturas.go:76-107 | corrected: the same request, answered through `Settle` of the envelope verdict, so a non-200 status or `IsError` gives nil and `Error{"ListEfakturas", …}` |
| Efakturas.PayWire | efakturas.go:70-74 | the wire object has exactly the keys eFakturaId, accountId and PayOnlyMinimumAmount, holding the query's fields |
| Efakturas.PayWireInjective | efakturas.go:70-74 | different pay queries marshal to different wire objects |
| Efakturas.PayEfaktura | efakturas.go:109-136 | a nil query gives "No EfakturaPayQuery passed" before marshalling or any request; a marshal error is returned; otherwise a POST of the payload to baseURL/v1/Efakturas, the request error unchanged, and nil exactly on status 200 |
| Transfers.Wire | transfers.go:12-17 | the wire object has exactly the keys fromAccountId, toAccoundId (sic), message and amount, holding the query's fields |
| Transfers.WireInjective | transfers.go:12-17 | different transfer queries marshal to different wire objects |
| Transfers.TransferAsWritten | transfers.go:19-46 | as written: a nil query gives "No TransferQuery passed" and no request; a marshal error is returned; otherwise a POST of the payload to baseURL/v1/Transfers whose error is exactly the status check: the request error unwrapped, then "unexpected status code: sc", nil exactly on status 200 |
| Transfers.NilQueryIsNotTheSentinel | transfers.go:20-22 | as written, a nil query does not return ErrMissingTransferQuery, which transfers_test.go:51-54 expects |
| Transfers.Transfer | transfers.go:19-46 | corrected: a nil query returns ErrMissingTransferQuery and no request; otherwise as written, with the same status check |
| Transfers.CorrectionOnlyNil | transfers.go:19-46 | the correction changes nothing for a non-nil query |
| Transfers.TransferEnveloped | transfers.go:19-46 | corrected: the sentinel for a nil query, and the reply answered through `Settle` of the envelope verdict, so a decoded non-200 reply gives `Error{"Transfer", …}` with that status |
| Sbanken.TransportConfig | sbanken.go:32-36 | only ClientID, ClientSecret and CustomerID pass to the transport, unchanged |
| Sbanken.NewClient | sbanken.go:27-48 | validate runs first: on failure nil and "validate: " around the sentinel, with no transport and no network call; then exactly one authorize, on the selected HTTP client only, whose failure gives "NewClient: " around "authorize: "; a client comes back exactly when both succeed, with base URL https://api.sbanken.no/exec.bank/api and a transport holding the credentials, the selected HTTP client and a token |

## Left out

- JSON encoding and decoding are not modelled field by field. Decoding is an input `decode` that yields the payload and the `HTTPResponse` envelope, or what it had decoded and an error. Marshalling is an input `marshal` of the wire object. Payload structs (`Account`, `Card`, `Payment`, …) are opaque records.
- `float32` amounts are modelled as `real`. Floating-point rounding is not modelled.
- `net/http`, `ioutil`, `SetBasicAuth` and base64 are not modelled. The network's answers are inputs: the token exchange outcome (`TokenExchange`), the answer of `Do` (`DoAnswer`), and the executor's reply seen by an endpoint (`Reply`). The error `http.NewRequest` gives is an input `built`.
- `url.Parse` is an input `parse`. `url.QueryEscape` and the escaping inside `url.Values.Encode` are an input `esc`. The query-string lemmas about key order are stated for a URL with no query of its own.
- `time.Now` is a parameter `now`. The two clock readings of one `getToken` call are collapsed into one. Times are integers in nanoseconds (`Second` is 1 000 000 000), as `time.Duration` counts them. `time.Time.IsZero` and `time.Time.String` are inputs (`Dates`).
- `Transport.ExpiresAt`: Go's `time.Duration` overflow for very large `ExpiresIn` is not modelled, because integers here are unbounded.
- `context` cancellation and deadlines are not modelled. Neither are the `log.Println` calls (efakturas.go:126, transfers.go:36, my_profiles.go:40).
- The read-then-refresh race on the shared token record is not modelled. The code has no locking and is treated as single-threaded.
- `transport.Client` has no `userAgent` field, yet internal/transport/http.go:59 reads one. The model gives the client a `userAgent` field that nothing assigns, so it stays "".
- The internal `HTTPRequest` has no `QueryParams` field, yet my_profiles.go sets one. The model's request carries `queryParams`. `GetContactInformation` states what it sets, but the executor does not add it to the URL.
- errors.go, which defines the sentinel errors, is not part of this model. The sentinels are named values (`Failures.Sentinel`) whose texts are not fixed here.
- The root package's `Client` is modelled only as far as auth.go and http.go use it.
- `Envelopes.Respond`, the endpoint modules and `Efakturas.ListEfakturas` take the executor's reply as an input. They do not call `Transport.Client.Request`; the two are connected only through the `Reply` type.

## Findings

| source | as written | input that shows it | evidently intended | confidence | as-written member | corrected member |
|---|---|---|---|---|---|---|
| internal/transport/http.go:45-46 | `req.Header.Set` is called before `err` from `http.NewRequest` is checked, on a nil request | a POST with a payload to a URL `http.NewRequest` rejects, such as "%zz" | return the build error, as the GET branch does | high, not executed | Transport.PostWithBadURLPanics | Transport.Prepare |
| internal/transport/http.go:61-64 | a `Do` error returns `res.StatusCode` while `res` is nil; the same happens in the root package's http.go:48-51 | any transport error from `Do` that comes without a response | return (nil, 0, err) | high, not executed | Transport.DoFailureWithoutResponsePanics | Transport.Respond |
| transactions.go:98-99 | no check of the account id; the request goes to ".../v1/Transactions/" | `ListTransactions(ctx, "", nil)`; transactions_test.go:134-135 expects ErrMissingAccountID | refuse an empty account id with ErrMissingAccountID before any request | high, not executed | Transactions.EmptyAccountIDIsSent | Transactions.ListTransactions |
| transfers.go:20-22 | a nil query returns a fresh error "No TransferQuery passed" instead of the sentinel | `Transfer(ctx, nil)`; transfers_test.go:51-54 expects ErrMissingTransferQuery and compares `Error()` texts (transfers_test.go:85-88), so the test tells them apart only when the sentinel's text is not "No TransferQuery passed" | return the sentinel ErrMissingTransferQuery | medium, not executed | Transfers.NilQueryIsNotTheSentinel | Transfers.Transfer |
| efakturas.go:96-98 | any status but 200 gives "unexpected status code: sc"; the envelope is never read | a reply with status 500 and an error envelope; efakturas_test.go:161-163 expects the `*Error` for "ListEfakturas" | read the envelope and return `Error{"ListEfakturas", …}`, as the newer endpoints do | medium, not executed | Envelopes.StatusErrorIsNotAnApiError | Efakturas.ListEfakturasEnveloped |
| transfers.go:41-43 | any status but 200 gives "unexpected status code: sc"; the envelope is never read | a reply with status 500 and an error envelope; transfers_test.go:64-65 expects the `*Error` for "Transfer" | read the envelope and return `Error{"Transfer", …}` | medium, not executed | Envelopes.StatusErrorIsNotAnApiError | Transfers.TransferEnveloped |
