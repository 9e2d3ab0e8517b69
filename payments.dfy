/**
 * payments.go: the payment-list query string, listing an account's payments
 * and reading one payment.
 *
 * `url.Parse(u).Query()` is an input `parse`: the URL's own query as
 * `url.Values`, or the parse error.
 */
module Payments {
  import opened GoTypes
  import opened Format
  import opened Failures
  import opened UrlValues
  import opened Envelopes
  import Transport

  /** `Payment`, opaque. */
  type Payment = Record

  /** `PaymentListQuery`: paging, as decimal strings; empty means not given. */
  datatype PaymentListQuery = PaymentListQuery(index: string, length: string)

  /** The parameters `QueryString` adds, in the order it adds them; empty fields are left out. */
  function Params(q: PaymentListQuery): seq<Param>
  {
    Opt("index", q.index, q.index != "") + Opt("length", q.length, q.length != "")
  }

  /** The query string for a URL whose own query is `v`: `v` with the parameters added, encoded. */
  function QueryOf(q: PaymentListQuery, v: Values, esc: string -> string): string
  {
    Encode(AddAll(v, Params(q)), esc)
  }

  /**
   * `QueryString`: on a parse error, the URL itself and the error; otherwise
   * the URL's query with `index` and `length` added when given, encoded.
   */
  method QueryString(q: PaymentListQuery, u: string, parse: string -> Result<Values>, esc: string -> string)
    returns (s: string, err: Option<Failure>)
    ensures parse(u).Err? ==> s == u && err == Some(parse(u).error)
    ensures parse(u).Ok? ==> err == None && s == QueryOf(q, parse(u).value, esc)
  {
    var parsed := parse(u);
    if parsed.Err? {
      return u, Some(parsed.error);
    }
    var query := parsed.value;
    ghost var added := Opt("index", q.index, q.index != "");
    assert [] + added == added;
    query := AddIf(parsed.value, [], query, "index", q.index, q.index != "");
    query := AddIf(parsed.value, added, query, "length", q.length, q.length != "");
    added := added + Opt("length", q.length, q.length != "");
    assert added == Params(q);
    return Encode(query, esc), None;
  }

  /** What the query gives key `k`: the value of the field of that name, when it is given. */
  function Wanted(q: PaymentListQuery, k: string): seq<string>
  {
    if k == "index" then Given(q.index, q.index != "")
    else if k == "length" then Given(q.length, q.length != "")
    else []
  }

  /** Each key holds what the URL's query gave it, then the field's value when the field is given. */
  lemma {:induction false} ParamsAdded(q: PaymentListQuery, v: Values, k: string)
    ensures Lookup(AddAll(v, Params(q)), k) == Lookup(v, k) + Wanted(q, k)
  {
    AddAllLookup(v, Params(q));
    ParamsMatch(q, k);
  }

  lemma {:induction false} ParamsMatch(q: PaymentListQuery, k: string)
    ensures Matching(Params(q), k) == Wanted(q, k)
  {
    var w := Wanted(q, k);
    assert "index" != "length";
    MatchingAppend(Opt("index", q.index, q.index != ""), Opt("length", q.length, q.length != ""), k);
    MatchingField("index", q.index, q.index != "", k, w);
    MatchingField("length", q.length, q.length != "", k, w);
    if k == "index" {
      assert Matching(Params(q), k) == w + [];
    } else if k == "length" {
      assert Matching(Params(q), k) == [] + w;
    }
  }

  /**
   * On a URL with no query of its own, the query string is the given
   * fields' pairs, `index` before `length`, joined by "&".
   */
  lemma {:induction false} QuerySorted(q: PaymentListQuery, esc: string -> string)
    ensures QueryOf(q, [], esc) == Join(Escaped(Params(q), esc), "&")
  {
    OptSorted("length", q.length, q.length != "", []);
    assert Before("index", "length");
    OptSorted("index", q.index, q.index != "", Opt("length", q.length, q.length != "") + []);
    assert Opt("length", q.length, q.length != "") + [] == Opt("length", q.length, q.length != "");
    EncodeDistinct(Params(q), Params(q), esc);
  }

  /** An empty query gives an empty query string. */
  lemma {:induction false} EmptyQuery(esc: string -> string)
    ensures QueryOf(PaymentListQuery("", ""), [], esc) == ""
  {
    QuerySorted(PaymentListQuery("", ""), esc);
  }

  /** Index 1 and length 5 give "index=1&length=5" (with those strings escaping to themselves). */
  lemma {:induction false} IndexAndLengthExample(q: PaymentListQuery, esc: string -> string)
    requires q.index == "1" && q.length == "5"
    requires esc("index") == "index" && esc("length") == "length" && esc("1") == "1" && esc("5") == "5"
    ensures QueryOf(q, [], esc) == "index=1&length=5"
  {
    QuerySorted(q, esc);
    BothGiven(q);
    var pairs := Escaped(Params(q), esc);
    JoinTwo(pairs, "&");
    ExampleText(pairs[0], pairs[1], esc("index"), esc(q.index), esc("length"), esc(q.length));
  }

  lemma BothGiven(q: PaymentListQuery)
    requires q.index != "" && q.length != ""
    ensures Params(q) == [Param("index", q.index), Param("length", q.length)]
  {
  }

  lemma ExampleText(p0: string, p1: string, k0: string, x0: string, k1: string, x1: string)
    requires k0 == "index" && x0 == "1" && k1 == "length" && x1 == "5"
    requires p0 == k0 + "=" + x0 && p1 == k1 + "=" + x1
    ensures p0 + "&" + p1 == "index=1&length=5"
  {
    assert p0 == "index=1";
    assert p1 == "length=5";
    assert p0 + "&" == "index=1&";
  }

  /**
   * `ListPayments`: an empty account id is refused before any request; a
   * query is turned into "?<query string>" (even an empty one) and its
   * error wrapped "QueryString: "; then a GET, and a rejection returns the
   * decoded list with an `*Error` named "ListPayments".
   */
  method ListPayments(bankBaseURL: string, accountID: string, q: Option<PaymentListQuery>,
                      parse: string -> Result<Values>, esc: string -> string,
                      reply: Transport.Reply, decode: Bytes -> Parse<List>)
    returns (o: Outcome<List>)
    ensures accountID == "" ==> o == Outcome(None, None, Some(ErrMissingAccountID))
    ensures var u := bankBaseURL + "/v1/Payments/" + accountID;
      accountID != "" && q.Some? && parse(u).Err? ==>
        o == Outcome(None, None, Some(Wrapped("QueryString: ", parse(u).error)))
    ensures var u := bankBaseURL + "/v1/Payments/" + accountID;
      accountID != "" && (q.None? || parse(u).Ok?) ==>
        && o.sent == Some(Get(if q.None? then u else u + "?" + QueryOf(q.value, parse(u).value, esc)))
        && (o.value, o.err) == Settle(Judge("ListPayments", reply, decode), None, true)
  {
    if accountID == "" {
      return Outcome(None, None, Some(ErrMissingAccountID));
    }
    var url := bankBaseURL + "/v1/Payments/" + accountID;
    if q.Some? {
      var qs, err := QueryString(q.value, url, parse, esc);
      if err.Some? {
        return Outcome(None, None, Some(Wrapped("QueryString: ", err.value)));
      }
      url := url + "?" + qs;
    }
    o := Respond(Get(url), "ListPayments", reply, decode, None, true);
  }

  /**
   * `ReadPayment`: the account id is checked before the payment id, both
   * before any request; then a GET of `<bankBaseURL>/v1/Payments/<account>/<payment>`,
   * and a rejection returns the decoded payment with an `*Error` named "ReadPayment".
   */
  function ReadPayment(bankBaseURL: string, accountID: string, paymentID: string,
                       reply: Transport.Reply, decode: Bytes -> Parse<Payment>): (o: Outcome<Payment>)
    ensures accountID == "" ==> o == Outcome(None, Zero, Some(ErrMissingAccountID))
    ensures accountID != "" && paymentID == "" ==> o == Outcome(None, Zero, Some(ErrMissingPaymentID))
    ensures accountID != "" && paymentID != "" ==>
      o.sent == Some(Get(bankBaseURL + "/v1/Payments/" + accountID + "/" + paymentID))
      && (o.value, o.err) == Settle(Judge("ReadPayment", reply, decode), Zero, true)
  {
    if accountID == "" then Outcome(None, Zero, Some(ErrMissingAccountID))
    else if paymentID == "" then Outcome(None, Zero, Some(ErrMissingPaymentID))
    else Respond(Get(bankBaseURL + "/v1/Payments/" + accountID + "/" + paymentID), "ReadPayment", reply, decode, Zero, true)
  }
}
