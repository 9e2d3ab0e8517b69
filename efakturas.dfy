/**
 * efakturas.go: the e-invoice list query string, listing e-invoices and
 * paying one. Both operations are built on the older `request` and check
 * only the status code.
 *
 * `url.Parse(u).Query()` is an input `parse`; `IsZero` and `String()` of the
 * dates are the abstract `Dates`; `json.Marshal` is an input `marshal` from
 * the query's JSON object.
 */
module Efakturas {
  import opened GoTypes
  import opened Format
  import opened Failures
  import opened UrlValues
  import opened Envelopes
  import Transport

  /** `Efaktura`, opaque. */
  type Efaktura = Record

  /** `EfakturaListQuery`: a date range, a status and paging; a zero date or an empty string means not given. */
  datatype EfakturaListQuery = EfakturaListQuery(startDate: Time, endDate: Time, status: string, index: string, length: string)

  /** The parameters `QueryString` adds, in the order it adds them; zero dates and empty fields are left out. */
  function Params(q: EfakturaListQuery, dates: Dates): seq<Param>
  {
    Opt("startDate", dates.render(q.startDate), !dates.isZero(q.startDate))
    + Opt("endDate", dates.render(q.endDate), !dates.isZero(q.endDate))
    + Opt("status", q.status, q.status != "")
    + Opt("index", q.index, q.index != "")
    + Opt("length", q.length, q.length != "")
  }

  /** The same parameters in the order `Encode` emits them: by key. */
  function SortedParams(q: EfakturaListQuery, dates: Dates): seq<Param>
  {
    Opt("endDate", dates.render(q.endDate), !dates.isZero(q.endDate))
    + (Opt("index", q.index, q.index != "")
    + (Opt("length", q.length, q.length != "")
    + (Opt("startDate", dates.render(q.startDate), !dates.isZero(q.startDate))
    + Opt("status", q.status, q.status != ""))))
  }

  /** The query string for a URL whose own query is `v`. */
  function QueryOf(q: EfakturaListQuery, dates: Dates, v: Values, esc: string -> string): string
  {
    Encode(AddAll(v, Params(q, dates)), esc)
  }

  /**
   * `QueryString`: on a parse error, the URL itself and the error; otherwise
   * the URL's query with the given dates, status and paging added, encoded.
   */
  method QueryString(q: EfakturaListQuery, dates: Dates, u: string, parse: string -> Result<Values>, esc: string -> string)
    returns (s: string, err: Option<Failure>)
    ensures parse(u).Err? ==> s == u && err == Some(parse(u).error)
    ensures parse(u).Ok? ==> err == None && s == QueryOf(q, dates, parse(u).value, esc)
  {
    var parsed := parse(u);
    if parsed.Err? {
      return u, Some(parsed.error);
    }
    var query := parsed.value;
    ghost var added := Opt("startDate", dates.render(q.startDate), !dates.isZero(q.startDate));
    assert [] + added == added;
    query := AddIf(parsed.value, [], query, "startDate", dates.render(q.startDate), !dates.isZero(q.startDate));
    query := AddIf(parsed.value, added, query, "endDate", dates.render(q.endDate), !dates.isZero(q.endDate));
    added := added + Opt("endDate", dates.render(q.endDate), !dates.isZero(q.endDate));
    query := AddIf(parsed.value, added, query, "status", q.status, q.status != "");
    added := added + Opt("status", q.status, q.status != "");
    query := AddIf(parsed.value, added, query, "index", q.index, q.index != "");
    added := added + Opt("index", q.index, q.index != "");
    query := AddIf(parsed.value, added, query, "length", q.length, q.length != "");
    added := added + Opt("length", q.length, q.length != "");
    assert added == Params(q, dates);
    return Encode(query, esc), None;
  }

  /** What the query gives key `k`: the value of the field of that name, when it is given. */
  function Wanted(q: EfakturaListQuery, dates: Dates, k: string): seq<string>
  {
    if k == "startDate" then Given(dates.render(q.startDate), !dates.isZero(q.startDate))
    else if k == "endDate" then Given(dates.render(q.endDate), !dates.isZero(q.endDate))
    else if k == "status" then Given(q.status, q.status != "")
    else if k == "index" then Given(q.index, q.index != "")
    else if k == "length" then Given(q.length, q.length != "")
    else []
  }

  /** Each key holds what the URL's query gave it, then the value of the field of that name when given. */
  lemma {:induction false} ParamsAdded(q: EfakturaListQuery, dates: Dates, v: Values, k: string)
    ensures Lookup(AddAll(v, Params(q, dates)), k) == Lookup(v, k) + Wanted(q, dates, k)
  {
    AddAllLookup(v, Params(q, dates));
    ParamsMatch(q, dates, k);
  }

  lemma {:induction false} ParamsMatch(q: EfakturaListQuery, dates: Dates, k: string)
    ensures Matching(Params(q, dates), k) == Wanted(q, dates, k)
  {
    var s := Opt("startDate", dates.render(q.startDate), !dates.isZero(q.startDate));
    var e := Opt("endDate", dates.render(q.endDate), !dates.isZero(q.endDate));
    var t := Opt("status", q.status, q.status != "");
    var i := Opt("index", q.index, q.index != "");
    var l := Opt("length", q.length, q.length != "");
    MatchingFive(s, e, t, i, l, k);
    FieldsMatch(q, dates, k);
  }

  lemma {:induction false} SortedMatch(q: EfakturaListQuery, dates: Dates, k: string)
    ensures Matching(SortedParams(q, dates), k) == Wanted(q, dates, k)
  {
    var s := Opt("startDate", dates.render(q.startDate), !dates.isZero(q.startDate));
    var e := Opt("endDate", dates.render(q.endDate), !dates.isZero(q.endDate));
    var t := Opt("status", q.status, q.status != "");
    var i := Opt("index", q.index, q.index != "");
    var l := Opt("length", q.length, q.length != "");
    MatchingAppend(s, t, k);
    MatchingAppend(l, s + t, k);
    MatchingAppend(i, l + (s + t), k);
    MatchingAppend(e, i + (l + (s + t)), k);
    FieldsMatch(q, dates, k);
  }

  lemma {:induction false} MatchingFive(a: seq<Param>, b: seq<Param>, c: seq<Param>, d: seq<Param>, f: seq<Param>, k: string)
    ensures Matching(a + b + c + d + f, k) == Matching(a, k) + Matching(b, k) + Matching(c, k) + Matching(d, k) + Matching(f, k)
  {
    MatchingAppend(a, b, k);
    MatchingAppend(a + b, c, k);
    MatchingAppend(a + b + c, d, k);
    MatchingAppend(a + b + c + d, f, k);
  }

  /** Together the fields' parameters give `k` what `Wanted` says, in the order they are added and in key order. */
  lemma {:induction false} FieldsMatch(q: EfakturaListQuery, dates: Dates, k: string)
    ensures var ms := Matching(Opt("startDate", dates.render(q.startDate), !dates.isZero(q.startDate)), k);
      var me := Matching(Opt("endDate", dates.render(q.endDate), !dates.isZero(q.endDate)), k);
      var mt := Matching(Opt("status", q.status, q.status != ""), k);
      var mi := Matching(Opt("index", q.index, q.index != ""), k);
      var ml := Matching(Opt("length", q.length, q.length != ""), k);
      ms + me + mt + mi + ml == Wanted(q, dates, k) && me + (mi + (ml + (ms + mt))) == Wanted(q, dates, k)
  {
    var ms := Matching(Opt("startDate", dates.render(q.startDate), !dates.isZero(q.startDate)), k);
    var me := Matching(Opt("endDate", dates.render(q.endDate), !dates.isZero(q.endDate)), k);
    var mt := Matching(Opt("status", q.status, q.status != ""), k);
    var mi := Matching(Opt("index", q.index, q.index != ""), k);
    var ml := Matching(Opt("length", q.length, q.length != ""), k);
    var w := Wanted(q, dates, k);
    KeysDistinct();
    WantedAt(q, dates, k);
    MatchingField("startDate", dates.render(q.startDate), !dates.isZero(q.startDate), k, w);
    MatchingField("endDate", dates.render(q.endDate), !dates.isZero(q.endDate), k, w);
    MatchingField("status", q.status, q.status != "", k, w);
    MatchingField("index", q.index, q.index != "", k, w);
    MatchingField("length", q.length, q.length != "", k, w);
    Pick5(k, "startDate", "endDate", "status", "index", "length", ms, me, mt, mi, ml, w);
    Pick5(k, "endDate", "index", "length", "startDate", "status", me, mi, ml, ms, mt, w);
  }

  lemma KeysDistinct()
    ensures "startDate" != "endDate" && "startDate" != "status" && "startDate" != "index" && "startDate" != "length"
    ensures "endDate" != "status" && "endDate" != "index" && "endDate" != "length"
    ensures "status" != "index" && "status" != "length" && "index" != "length"
  {
    assert "status"[0] != "length"[0];
  }

  /** `Wanted` at each field's key, and elsewhere. */
  lemma WantedAt(q: EfakturaListQuery, dates: Dates, k: string)
    ensures k == "startDate" ==> Wanted(q, dates, k) == Given(dates.render(q.startDate), !dates.isZero(q.startDate))
    ensures k == "endDate" ==> Wanted(q, dates, k) == Given(dates.render(q.endDate), !dates.isZero(q.endDate))
    ensures k == "status" ==> Wanted(q, dates, k) == Given(q.status, q.status != "")
    ensures k == "index" ==> Wanted(q, dates, k) == Given(q.index, q.index != "")
    ensures k == "length" ==> Wanted(q, dates, k) == Given(q.length, q.length != "")
    ensures k != "startDate" && k != "endDate" && k != "status" && k != "index" && k != "length" ==> Wanted(q, dates, k) == []
  {
    KeysDistinct();
  }

  lemma {:induction false} SortedParamsSorted(q: EfakturaListQuery, dates: Dates)
    ensures StrictlySorted(ParamKeys(SortedParams(q, dates)))
  {
    var s := Opt("startDate", dates.render(q.startDate), !dates.isZero(q.startDate));
    var t := Opt("status", q.status, q.status != "");
    var i := Opt("index", q.index, q.index != "");
    var l := Opt("length", q.length, q.length != "");
    IndexSorted(q, dates);
    assert Before("endDate", "index");
    AfterOpt("endDate", "index", q.index, q.index != "");
    AfterAppend("endDate", i, l + (s + t));
    OptSorted("endDate", dates.render(q.endDate), !dates.isZero(q.endDate), i + (l + (s + t)));
  }

  lemma {:induction false} IndexSorted(q: EfakturaListQuery, dates: Dates)
    ensures var s := Opt("startDate", dates.render(q.startDate), !dates.isZero(q.startDate));
      var t := Opt("status", q.status, q.status != "");
      var i := Opt("index", q.index, q.index != "");
      var l := Opt("length", q.length, q.length != "");
      StrictlySorted(ParamKeys(i + (l + (s + t)))) && KeysAfter("endDate", l + (s + t))
  {
    var s := Opt("startDate", dates.render(q.startDate), !dates.isZero(q.startDate));
    var t := Opt("status", q.status, q.status != "");
    var l := Opt("length", q.length, q.length != "");
    LengthSorted(q, dates);
    assert Before("index", "length") && Before("endDate", "length");
    AfterOpt("index", "length", q.length, q.length != "");
    AfterAppend("index", l, s + t);
    OptSorted("index", q.index, q.index != "", l + (s + t));
    AfterOpt("endDate", "length", q.length, q.length != "");
    AfterAppend("endDate", l, s + t);
  }

  lemma {:induction false} LengthSorted(q: EfakturaListQuery, dates: Dates)
    ensures var s := Opt("startDate", dates.render(q.startDate), !dates.isZero(q.startDate));
      var t := Opt("status", q.status, q.status != "");
      var l := Opt("length", q.length, q.length != "");
      StrictlySorted(ParamKeys(l + (s + t))) && KeysAfter("index", s + t) && KeysAfter("endDate", s + t)
  {
    var s := Opt("startDate", dates.render(q.startDate), !dates.isZero(q.startDate));
    var t := Opt("status", q.status, q.status != "");
    DatesSorted(q, dates);
    assert Before("length", "startDate") && Before("length", "status");
    AfterOpt("length", "startDate", dates.render(q.startDate), !dates.isZero(q.startDate));
    AfterOpt("length", "status", q.status, q.status != "");
    AfterAppend("length", s, t);
    OptSorted("length", q.length, q.length != "", s + t);
    assert Before("index", "startDate") && Before("index", "status");
    AfterOpt("index", "startDate", dates.render(q.startDate), !dates.isZero(q.startDate));
    AfterOpt("index", "status", q.status, q.status != "");
    AfterAppend("index", s, t);
    assert Before("endDate", "startDate") && Before("endDate", "status");
    AfterOpt("endDate", "startDate", dates.render(q.startDate), !dates.isZero(q.startDate));
    AfterOpt("endDate", "status", q.status, q.status != "");
    AfterAppend("endDate", s, t);
  }

  lemma {:induction false} DatesSorted(q: EfakturaListQuery, dates: Dates)
    ensures StrictlySorted(ParamKeys(Opt("startDate", dates.render(q.startDate), !dates.isZero(q.startDate))
                                     + Opt("status", q.status, q.status != "")))
  {
    var t := Opt("status", q.status, q.status != "");
    OptSorted("status", q.status, q.status != "", []);
    assert t + [] == t;
    assert Before("startDate", "status");
    AfterOpt("startDate", "status", q.status, q.status != "");
    OptSorted("startDate", dates.render(q.startDate), !dates.isZero(q.startDate), t);
  }

  /**
   * On a URL with no query of its own, the query string is the given
   * parameters' pairs in key order (`endDate`, `index`, `length`,
   * `startDate`, `status`), whatever order they were added in, joined by "&".
   */
  lemma {:induction false} QuerySorted(q: EfakturaListQuery, dates: Dates, esc: string -> string)
    ensures QueryOf(q, dates, [], esc) == Join(Escaped(SortedParams(q, dates), esc), "&")
  {
    SortedParamsSorted(q, dates);
    forall k
      ensures Matching(Params(q, dates), k) == Matching(SortedParams(q, dates), k)
    {
      ParamsMatch(q, dates, k);
      SortedMatch(q, dates, k);
    }
    EncodeDistinct(Params(q, dates), SortedParams(q, dates), esc);
  }

  /** A query with nothing given yields an empty query string. */
  lemma {:induction false} EmptyQuery(q: EfakturaListQuery, dates: Dates, esc: string -> string)
    requires dates.isZero(q.startDate) && dates.isZero(q.endDate) && q.status == "" && q.index == "" && q.length == ""
    ensures QueryOf(q, dates, [], esc) == ""
  {
    QuerySorted(q, dates, esc);
    assert SortedParams(q, dates) == [];
  }

  /** With both dates given and nothing else, `endDate` comes first although `startDate` is added first. */
  lemma {:induction false} DateRange(q: EfakturaListQuery, dates: Dates, esc: string -> string)
    requires !dates.isZero(q.startDate) && !dates.isZero(q.endDate) && q.status == "" && q.index == "" && q.length == ""
    ensures QueryOf(q, dates, [], esc) ==
      esc("endDate") + "=" + esc(dates.render(q.endDate)) + "&" + esc("startDate") + "=" + esc(dates.render(q.startDate))
  {
    QuerySorted(q, dates, esc);
    assert SortedParams(q, dates) == [Param("endDate", dates.render(q.endDate)), Param("startDate", dates.render(q.startDate))];
    JoinTwo(Escaped(SortedParams(q, dates), esc), "&");
  }

  /** A status "test" and nothing else gives "status=test" (with those strings escaping to themselves). */
  lemma {:induction false} StatusOnly(q: EfakturaListQuery, dates: Dates, esc: string -> string)
    requires dates.isZero(q.startDate) && dates.isZero(q.endDate) && q.status == "test" && q.index == "" && q.length == ""
    requires esc("status") == "status" && esc("test") == "test"
    ensures QueryOf(q, dates, [], esc) == "status=test"
  {
    QuerySorted(q, dates, esc);
    assert SortedParams(q, dates) == [Param("status", q.status)];
    var pairs := Escaped(SortedParams(q, dates), esc);
    assert pairs == [esc("status") + "=" + esc(q.status)];
    StatusText(pairs[0], esc("status"), esc(q.status));
  }

  lemma StatusText(p: string, k: string, x: string)
    requires k == "status" && x == "test" && p == k + "=" + x
    ensures p == "status=test"
  {
  }

  /**
   * `ListEfakturas`: a query-string failure is returned as it is; then a GET
   * of `<baseURL>/v1/Efakturas`, with "?<query string>" when a query is
   * passed. Only the status code decides: on 200 the items decoded from the
   * body come back, decoding errors ignored; otherwise nil.
   */
  method ListEfakturas(baseURL: string, q: Option<EfakturaListQuery>, dates: Dates,
                       parse: string -> Result<Values>, esc: string -> string,
                       reply: Transport.Reply, decodeItems: Bytes -> List)
    returns (o: Outcome<List>)
    ensures var u := baseURL + "/v1/Efakturas";
      q.Some? && parse(u).Err? ==> o == Outcome(None, None, Some(parse(u).error))
    ensures var u := baseURL + "/v1/Efakturas";
      q.None? || parse(u).Ok? ==>
        && o.sent == Some(Get(if q.None? then u else u + "?" + QueryOf(q.value, dates, parse(u).value, esc)))
        && o.err == StatusCheck(reply)
        && o.value == (if o.err.None? then decodeItems(Body(reply)) else None)
  {
    var url := baseURL + "/v1/Efakturas";
    if q.Some? {
      var qs, err := QueryString(q.value, dates, url, parse, esc);
      if err.Some? {
        return Outcome(None, None, err);
      }
      url := url + "?" + qs;
    }
    var sent := Some(Get(url));
    if reply.err.Some? {
      return Outcome(sent, None, reply.err);
    }
    if reply.status != 200 {
      return Outcome(sent, None, Some(UnexpectedStatus(reply.status)));
    }
    return Outcome(sent, decodeItems(Body(reply)), None);
  }

  /**
   * `ListEfakturas` reporting a failure as the other list endpoints do: the
   * body is decoded with its envelope and judged, so a rejection is an
   * `*Error` named "ListEfakturas" carrying the status code, and no list.
   */
  method ListEfakturasEnveloped(baseURL: string, q: Option<EfakturaListQuery>, dates: Dates,
                                parse: string -> Result<Values>, esc: string -> string,
                                reply: Transport.Reply, decode: Bytes -> Parse<List>)
    returns (o: Outcome<List>)
    ensures var u := baseURL + "/v1/Efakturas";
      q.Some? && parse(u).Err? ==> o == Outcome(None, None, Some(parse(u).error))
    ensures var u := baseURL + "/v1/Efakturas";
      q.None? || parse(u).Ok? ==>
        && o.sent == Some(Get(if q.None? then u else u + "?" + QueryOf(q.value, dates, parse(u).value, esc)))
        && (o.value, o.err) == Settle(Judge("ListEfakturas", reply, decode), None, false)
  {
    var url := baseURL + "/v1/Efakturas";
    if q.Some? {
      var qs, err := QueryString(q.value, dates, url, parse, esc);
      if err.Some? {
        return Outcome(None, None, err);
      }
      url := url + "?" + qs;
    }
    o := Respond(Get(url), "ListEfakturas", reply, decode, None, false);
  }

  /** `EfakturaPayQuery`. */
  datatype EfakturaPayQuery = EfakturaPayQuery(id: string, accountID: string, payOnlyMinimumAmount: bool)

  /** The JSON object `json.Marshal` writes for the query, by its field tags. */
  function PayWire(q: EfakturaPayQuery): (m: map<string, Json>)
    ensures m.Keys == {"eFakturaId", "accountId", "PayOnlyMinimumAmount"}
    ensures m["eFakturaId"] == JString(q.id) && m["accountId"] == JString(q.accountID)
    ensures m["PayOnlyMinimumAmount"] == JBool(q.payOnlyMinimumAmount)
  {
    map["eFakturaId" := JString(q.id), "accountId" := JString(q.accountID), "PayOnlyMinimumAmount" := JBool(q.payOnlyMinimumAmount)]
  }

  /** No field is lost on the wire: different queries give different objects. */
  lemma PayWireInjective(p: EfakturaPayQuery, q: EfakturaPayQuery)
    requires PayWire(p) == PayWire(q)
    ensures p == q
  {
    assert PayWire(p)["eFakturaId"] == PayWire(q)["eFakturaId"];
    assert PayWire(p)["accountId"] == PayWire(q)["accountId"];
    assert PayWire(p)["PayOnlyMinimumAmount"] == PayWire(q)["PayOnlyMinimumAmount"];
  }

  /**
   * `PayEfaktura`: a nil query is refused before marshalling or any request;
   * a marshalling error is returned as it is; then a POST of the marshalled
   * query to `<baseURL>/v1/Efakturas`, which succeeds exactly on status 200.
   */
  function PayEfaktura(baseURL: string, q: Option<EfakturaPayQuery>, marshal: map<string, Json> -> Result<Bytes>,
                       reply: Transport.Reply): (p: Posted)
    ensures q.None? ==> p == Posted(None, Some(Message("No EfakturaPayQuery passed")))
    ensures q.Some? && marshal(PayWire(q.value)).Err? ==> p == Posted(None, Some(marshal(PayWire(q.value)).error))
    ensures q.Some? && marshal(PayWire(q.value)).Ok? ==>
      p.sent == Some(Post(baseURL + "/v1/Efakturas", marshal(PayWire(q.value)).value))
      && p.err == StatusCheck(reply)
  {
    if q.None? then Posted(None, Some(Message("No EfakturaPayQuery passed")))
    else match marshal(PayWire(q.value))
      case Err(e) => Posted(None, Some(e))
      case Ok(payload) => Posted(Some(Post(baseURL + "/v1/Efakturas", payload)), StatusCheck(reply))
  }
}
