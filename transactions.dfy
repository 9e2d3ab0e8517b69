/**
 * transactions.go: the transaction-list query string and listing an
 * account's latest transactions.
 *
 * `url.Parse(u).Query()` is an input `parse`; `IsZero` and `String()` of the
 * dates are the abstract `Dates`.
 */
module Transactions {
  import opened GoTypes
  import opened Format
  import opened Failures
  import opened UrlValues
  import opened Envelopes
  import Transport

  /** `Transaction`, opaque. */
  type Transaction = Record

  /** `TransactionListQuery`: a date range and paging; a zero date or an empty string means not given. */
  datatype TransactionListQuery = TransactionListQuery(startDate: Time, endDate: Time, index: string, length: string)

  /** The parameters `QueryString` adds, in the order it adds them; zero dates and empty fields are left out. */
  function Params(q: TransactionListQuery, dates: Dates): seq<Param>
  {
    Opt("startDate", dates.render(q.startDate), !dates.isZero(q.startDate))
    + Opt("endDate", dates.render(q.endDate), !dates.isZero(q.endDate))
    + Opt("index", q.index, q.index != "")
    + Opt("length", q.length, q.length != "")
  }

  /** The same parameters in the order `Encode` emits them: by key. */
  function SortedParams(q: TransactionListQuery, dates: Dates): seq<Param>
  {
    Opt("endDate", dates.render(q.endDate), !dates.isZero(q.endDate))
    + (Opt("index", q.index, q.index != "")
    + (Opt("length", q.length, q.length != "")
    + Opt("startDate", dates.render(q.startDate), !dates.isZero(q.startDate))))
  }

  /** The query string for a URL whose own query is `v`. */
  function QueryOf(q: TransactionListQuery, dates: Dates, v: Values, esc: string -> string): string
  {
    Encode(AddAll(v, Params(q, dates)), esc)
  }

  /**
   * `QueryString`: on a parse error, the URL itself and the error; otherwise
   * the URL's query with the given dates and paging added, encoded.
   */
  method QueryString(q: TransactionListQuery, dates: Dates, u: string, parse: string -> Result<Values>, esc: string -> string)
    returns (s: string, err: Option<Failure>)
    ensures parse(u).Err? ==> s == u && err == Some(parse(u).error)
    ensures parse(u).Ok? ==> err == None && s == QueryOf(q, dates, parse(u).value, esc)
  {
    var parsed := parse(u);
    if parsed.Err? {
      return u, Some(parsed.error);
    }
    var query := parsed.value;
    ghost var added := Opt("startDate", dates.render(q.startDate), !dates.isZero(q.startDate));
    assert [] + added == added;
    query := AddIf(parsed.value, [], query, "startDate", dates.render(q.startDate), !dates.isZero(q.startDate));
    query := AddIf(parsed.value, added, query, "endDate", dates.render(q.endDate), !dates.isZero(q.endDate));
    added := added + Opt("endDate", dates.render(q.endDate), !dates.isZero(q.endDate));
    query := AddIf(parsed.value, added, query, "index", q.index, q.index != "");
    added := added + Opt("index", q.index, q.index != "");
    query := AddIf(parsed.value, added, query, "length", q.length, q.length != "");
    added := added + Opt("length", q.length, q.length != "");
    assert added == Params(q, dates);
    return Encode(query, esc), None;
  }

  /** What the query gives key `k`: the value of the field of that name, when it is given. */
  function Wanted(q: TransactionListQuery, dates: Dates, k: string): seq<string>
  {
    if k == "startDate" then Given(dates.render(q.startDate), !dates.isZero(q.startDate))
    else if k == "endDate" then Given(dates.render(q.endDate), !dates.isZero(q.endDate))
    else if k == "index" then Given(q.index, q.index != "")
    else if k == "length" then Given(q.length, q.length != "")
    else []
  }

  /** Each key holds what the URL's query gave it, then the value of the field of that name when given. */
  lemma {:induction false} ParamsAdded(q: TransactionListQuery, dates: Dates, v: Values, k: string)
    ensures Lookup(AddAll(v, Params(q, dates)), k) == Lookup(v, k) + Wanted(q, dates, k)
  {
    AddAllLookup(v, Params(q, dates));
    ParamsMatch(q, dates, k);
  }

  lemma {:induction false} ParamsMatch(q: TransactionListQuery, dates: Dates, k: string)
    ensures Matching(Params(q, dates), k) == Wanted(q, dates, k)
  {
    var s := Opt("startDate", dates.render(q.startDate), !dates.isZero(q.startDate));
    var e := Opt("endDate", dates.render(q.endDate), !dates.isZero(q.endDate));
    var i := Opt("index", q.index, q.index != "");
    var l := Opt("length", q.length, q.length != "");
    MatchingAppend(s, e, k);
    MatchingAppend(s + e, i, k);
    MatchingAppend(s + e + i, l, k);
    FieldsMatch(q, dates, k);
  }

  lemma {:induction false} SortedMatch(q: TransactionListQuery, dates: Dates, k: string)
    ensures Matching(SortedParams(q, dates), k) == Wanted(q, dates, k)
  {
    var s := Opt("startDate", dates.render(q.startDate), !dates.isZero(q.startDate));
    var e := Opt("endDate", dates.render(q.endDate), !dates.isZero(q.endDate));
    var i := Opt("index", q.index, q.index != "");
    var l := Opt("length", q.length, q.length != "");
    MatchingAppend(l, s, k);
    MatchingAppend(i, l + s, k);
    MatchingAppend(e, i + (l + s), k);
    FieldsMatch(q, dates, k);
  }

  /** Together the fields' parameters give `k` what `Wanted` says, in the order they are added and in key order. */
  lemma {:induction false} FieldsMatch(q: TransactionListQuery, dates: Dates, k: string)
    ensures var ms := Matching(Opt("startDate", dates.render(q.startDate), !dates.isZero(q.startDate)), k);
      var me := Matching(Opt("endDate", dates.render(q.endDate), !dates.isZero(q.endDate)), k);
      var mi := Matching(Opt("index", q.index, q.index != ""), k);
      var ml := Matching(Opt("length", q.length, q.length != ""), k);
      ms + me + mi + ml == Wanted(q, dates, k) && me + (mi + (ml + ms)) == Wanted(q, dates, k)
  {
    var ms := Matching(Opt("startDate", dates.render(q.startDate), !dates.isZero(q.startDate)), k);
    var me := Matching(Opt("endDate", dates.render(q.endDate), !dates.isZero(q.endDate)), k);
    var mi := Matching(Opt("index", q.index, q.index != ""), k);
    var ml := Matching(Opt("length", q.length, q.length != ""), k);
    var w := Wanted(q, dates, k);
    KeysDistinct();
    WantedAt(q, dates, k);
    MatchingField("startDate", dates.render(q.startDate), !dates.isZero(q.startDate), k, w);
    MatchingField("endDate", dates.render(q.endDate), !dates.isZero(q.endDate), k, w);
    MatchingField("index", q.index, q.index != "", k, w);
    MatchingField("length", q.length, q.length != "", k, w);
    Pick4(k, "startDate", "endDate", "index", "length", ms, me, mi, ml, w);
    Pick4(k, "endDate", "index", "length", "startDate", me, mi, ml, ms, w);
  }

  lemma KeysDistinct()
    ensures "startDate" != "endDate" && "startDate" != "index" && "startDate" != "length"
    ensures "endDate" != "index" && "endDate" != "length" && "index" != "length"
  {
  }

  /** `Wanted` at each field's key, and elsewhere. */
  lemma WantedAt(q: TransactionListQuery, dates: Dates, k: string)
    ensures k == "startDate" ==> Wanted(q, dates, k) == Given(dates.render(q.startDate), !dates.isZero(q.startDate))
    ensures k == "endDate" ==> Wanted(q, dates, k) == Given(dates.render(q.endDate), !dates.isZero(q.endDate))
    ensures k == "index" ==> Wanted(q, dates, k) == Given(q.index, q.index != "")
    ensures k == "length" ==> Wanted(q, dates, k) == Given(q.length, q.length != "")
    ensures k != "startDate" && k != "endDate" && k != "index" && k != "length" ==> Wanted(q, dates, k) == []
  {
    KeysDistinct();
  }

  lemma {:induction false} SortedParamsSorted(q: TransactionListQuery, dates: Dates)
    ensures StrictlySorted(ParamKeys(SortedParams(q, dates)))
  {
    var s := Opt("startDate", dates.render(q.startDate), !dates.isZero(q.startDate));
    var l := Opt("length", q.length, q.length != "");
    var i := Opt("index", q.index, q.index != "");
    TailSorted(q, dates);
    assert Before("endDate", "index");
    AfterOpt("endDate", "index", q.index, q.index != "");
    AfterAppend("endDate", i, l + s);
    OptSorted("endDate", dates.render(q.endDate), !dates.isZero(q.endDate), i + (l + s));
  }

  lemma {:induction false} TailSorted(q: TransactionListQuery, dates: Dates)
    ensures var s := Opt("startDate", dates.render(q.startDate), !dates.isZero(q.startDate));
      var l := Opt("length", q.length, q.length != "");
      var i := Opt("index", q.index, q.index != "");
      StrictlySorted(ParamKeys(i + (l + s))) && KeysAfter("endDate", l + s)
  {
    var s := Opt("startDate", dates.render(q.startDate), !dates.isZero(q.startDate));
    var l := Opt("length", q.length, q.length != "");
    LastSorted(q, dates);
    assert Before("index", "length") && Before("index", "startDate");
    AfterOpt("index", "length", q.length, q.length != "");
    AfterOpt("index", "startDate", dates.render(q.startDate), !dates.isZero(q.startDate));
    AfterAppend("index", l, s);
    OptSorted("index", q.index, q.index != "", l + s);
    assert Before("endDate", "length") && Before("endDate", "startDate");
    AfterOpt("endDate", "length", q.length, q.length != "");
    AfterOpt("endDate", "startDate", dates.render(q.startDate), !dates.isZero(q.startDate));
    AfterAppend("endDate", l, s);
  }

  lemma {:induction false} LastSorted(q: TransactionListQuery, dates: Dates)
    ensures StrictlySorted(ParamKeys(Opt("length", q.length, q.length != "")
                                     + Opt("startDate", dates.render(q.startDate), !dates.isZero(q.startDate))))
  {
    var s := Opt("startDate", dates.render(q.startDate), !dates.isZero(q.startDate));
    OptSorted("startDate", dates.render(q.startDate), !dates.isZero(q.startDate), []);
    assert s + [] == s;
    assert Before("length", "startDate");
    AfterOpt("length", "startDate", dates.render(q.startDate), !dates.isZero(q.startDate));
    OptSorted("length", q.length, q.length != "", s);
  }

  /**
   * On a URL with no query of its own, the query string is the given
   * parameters' pairs in key order (`endDate`, `index`, `length`,
   * `startDate`), whatever order they were added in, joined by "&".
   */
  lemma {:induction false} QuerySorted(q: TransactionListQuery, dates: Dates, esc: string -> string)
    ensures QueryOf(q, dates, [], esc) == Join(Escaped(SortedParams(q, dates), esc), "&")
  {
    SortedParamsSorted(q, dates);
    forall k
      ensures Matching(Params(q, dates), k) == Matching(SortedParams(q, dates), k)
    {
      ParamsMatch(q, dates, k);
      SortedMatch(q, dates, k);
    }
    EncodeDistinct(Params(q, dates), SortedParams(q, dates), esc);
  }

  /** A query with nothing given yields an empty query string. */
  lemma {:induction false} EmptyQuery(q: TransactionListQuery, dates: Dates, esc: string -> string)
    requires dates.isZero(q.startDate) && dates.isZero(q.endDate) && q.index == "" && q.length == ""
    ensures QueryOf(q, dates, [], esc) == ""
  {
    QuerySorted(q, dates, esc);
    assert SortedParams(q, dates) == [];
  }

  /** With both dates given and no paging, `endDate` comes first although `startDate` is added first. */
  lemma {:induction false} DateRange(q: TransactionListQuery, dates: Dates, esc: string -> string)
    requires !dates.isZero(q.startDate) && !dates.isZero(q.endDate) && q.index == "" && q.length == ""
    ensures QueryOf(q, dates, [], esc) ==
      esc("endDate") + "=" + esc(dates.render(q.endDate)) + "&" + esc("startDate") + "=" + esc(dates.render(q.startDate))
  {
    QuerySorted(q, dates, esc);
    assert SortedParams(q, dates) == [Param("endDate", dates.render(q.endDate)), Param("startDate", dates.render(q.startDate))];
    JoinTwo(Escaped(SortedParams(q, dates), esc), "&");
  }

  /**
   * Where `ListTransactions` sends its GET, or the error that stops it
   * first: `<baseURL>/v1/Transactions/<accountID>`, with "?<query string>"
   * when a query is passed, and a query-string failure wrapped "QueryString: ".
   */
  function TransactionsURL(baseURL: string, accountID: string, q: Option<TransactionListQuery>, dates: Dates,
                           parse: string -> Result<Values>, esc: string -> string): (r: Result<string>)
    ensures var u := baseURL + "/v1/Transactions/" + accountID;
      && (q.None? ==> r == Ok(u))
      && (q.Some? && parse(u).Err? ==> r == Err(Wrapped("QueryString: ", parse(u).error)))
      && (q.Some? && parse(u).Ok? ==> r == Ok(u + "?" + QueryOf(q.value, dates, parse(u).value, esc)))
  {
    var u := baseURL + "/v1/Transactions/" + accountID;
    if q.None? then Ok(u)
    else match parse(u)
      case Err(e) => Err(Wrapped("QueryString: ", e))
      case Ok(v) => Ok(u + "?" + QueryOf(q.value, dates, v, esc))
  }

  /**
   * `ListTransactions` as this revision has it: no check of the account id,
   * then the URL, then a GET whose rejection returns the decoded list with
   * an `*Error` named "ListTransactions".
   */
  method ListTransactionsAsWritten(baseURL: string, accountID: string, q: Option<TransactionListQuery>, dates: Dates,
                                   parse: string -> Result<Values>, esc: string -> string,
                                   reply: Transport.Reply, decode: Bytes -> Parse<List>)
    returns (o: Outcome<List>)
    ensures var r := TransactionsURL(baseURL, accountID, q, dates, parse, esc);
      && (r.Err? ==> o == Outcome(None, None, Some(r.error)))
      && (r.Ok? ==> o.sent == Some(Get(r.value)) && (o.value, o.err) == Settle(Judge("ListTransactions", reply, decode), None, true))
  {
    var url := baseURL + "/v1/Transactions/" + accountID;
    if q.Some? {
      var qs, err := QueryString(q.value, dates, url, parse, esc);
      if err.Some? {
        return Outcome(None, None, Some(Wrapped("QueryString: ", err.value)));
      }
      url := url + "?" + qs;
    }
    o := Respond(Get(url), "ListTransactions", reply, decode, None, true);
  }

  /**
   * With an empty account id and no query, the code as written still sends
   * its GET, to a URL that ends in "/v1/Transactions/", instead of refusing
   * with `ErrMissingAccountID` as every other per-account endpoint does.
   */
  lemma EmptyAccountIDIsSent(baseURL: string, dates: Dates, parse: string -> Result<Values>, esc: string -> string)
    ensures TransactionsURL(baseURL, "", None, dates, parse, esc) == Ok(baseURL + "/v1/Transactions/")
  {
    assert baseURL + "/v1/Transactions/" + "" == baseURL + "/v1/Transactions/";
  }

  /**
   * `ListTransactions` with the account-id check the other per-account
   * endpoints have: an empty id is refused before anything else.
   */
  method ListTransactions(baseURL: string, accountID: string, q: Option<TransactionListQuery>, dates: Dates,
                          parse: string -> Result<Values>, esc: string -> string,
                          reply: Transport.Reply, decode: Bytes -> Parse<List>)
    returns (o: Outcome<List>)
    ensures accountID == "" ==> o == Outcome(None, None, Some(ErrMissingAccountID))
    ensures var r := TransactionsURL(baseURL, accountID, q, dates, parse, esc);
      accountID != "" ==>
        && (r.Err? ==> o == Outcome(None, None, Some(r.error)))
        && (r.Ok? ==> o.sent == Some(Get(r.value)) && (o.value, o.err) == Settle(Judge("ListTransactions", reply, decode), None, true))
  {
    if accountID == "" {
      return Outcome(None, None, Some(ErrMissingAccountID));
    }
    o := ListTransactionsAsWritten(baseURL, accountID, q, dates, parse, esc, reply, decode);
  }
}
