/**
 * Go's `url.Values`, as far as the query-string builders use it: `Add`
 * appends a value to a key, and `Encode` emits "key=value" pairs joined by
 * "&" with the keys in sorted order. Escaping (`url.QueryEscape`) is a
 * parameter `esc`; only the key order and the join rule are modelled.
 */
module UrlValues {
  import opened Format

  /** One key and its values, in the order they were added. */
  datatype Entry = Entry(key: string, values: seq<string>)

  type Entries = seq<Entry>

  /**
   * `url.Values`, a `map[string][]string`: kept as its entries in the order
   * their keys first appeared, no key twice. Only `Lookup` and the key set are
   * observable; `EncodeIgnoresInsertionOrder` shows the entry order never matters.
   */
  type Values = v: Entries | WellFormed(v) witness []

  /** No key appears twice. */
  predicate WellFormed(v: Entries)
  {
    forall i, j :: 0 <= i < j < |v| ==> v[i].key != v[j].key
  }

  function Keys(v: Entries): (ks: seq<string>)
    ensures |ks| == |v|
    ensures forall i :: 0 <= i < |v| ==> ks[i] == v[i].key
  {
    if v == [] then [] else Keys(v[..|v| - 1]) + [v[|v| - 1].key]
  }

  /** `v[k]`: the values stored under `k`, empty when `k` is absent. */
  function Lookup(v: Entries, k: string): seq<string>
  {
    if v == [] then []
    else if v[|v| - 1].key == k then v[|v| - 1].values
    else Lookup(v[..|v| - 1], k)
  }

  lemma {:induction false} LookupAbsent(v: Entries, k: string)
    requires k !in Keys(v)
    ensures Lookup(v, k) == []
  {
    if v != [] {
      assert Keys(v[..|v| - 1]) == Keys(v)[..|v| - 1];
      LookupAbsent(v[..|v| - 1], k);
    }
  }

  lemma {:induction false} LookupPresent(v: Entries, i: nat)
    requires WellFormed(v) && i < |v|
    ensures Lookup(v, v[i].key) == v[i].values
  {
    if i < |v| - 1 {
      LookupPresent(v[..|v| - 1], i);
    }
  }

  /** Where `k` sits among the entries. */
  function IndexOf(v: Entries, k: string): (i: nat)
    requires k in Keys(v)
    ensures i < |v| && v[i].key == k
  {
    if v[|v| - 1].key == k then |v| - 1
    else
      assert Keys(v) == Keys(v[..|v| - 1]) + [v[|v| - 1].key];
      IndexOf(v[..|v| - 1], k)
  }

  /** `v.Add(k, x)`: `x` joins the values under `k`, in place when `k` is already there. */
  function Add(v: Values, k: string, x: string): Values
  {
    if k in Keys(v) then
      var i := IndexOf(v, k);
      assert Keys(v[i := Entry(k, v[i].values + [x])]) == Keys(v);
      v[i := Entry(k, v[i].values + [x])]
    else
      assert Keys(v + [Entry(k, [x])]) == Keys(v) + [k];
      v + [Entry(k, [x])]
  }

  /**
   * After `v.Add(k, x)`, `x` is the last value under `k`, every other key
   * keeps its values, and the keys are those of `v` and `k`.
   */
  lemma {:induction false} AddLookup(v: Values, k: string, x: string)
    ensures Lookup(Add(v, k, x), k) == Lookup(v, k) + [x]
    ensures forall j :: j != k ==> Lookup(Add(v, k, x), j) == Lookup(v, j)
    ensures forall j :: j in Keys(Add(v, k, x)) <==> j in Keys(v) || j == k
  {
    if k in Keys(v) {
      var i := IndexOf(v, k);
      var r := v[i := Entry(k, v[i].values + [x])];
      assert Keys(r) == Keys(v);
      LookupPresent(v, i);
      LookupUpdate(v, i, Entry(k, v[i].values + [x]));
    } else {
      var r := v + [Entry(k, [x])];
      assert r[..|v|] == v;
      LookupAbsent(v, k);
      assert Keys(r) == Keys(v) + [k];
    }
  }

  /** Replacing an entry by one with the same key changes only what that key holds. */
  lemma {:induction false} LookupUpdate(v: Entries, i: nat, e: Entry)
    requires WellFormed(v) && i < |v| && e.key == v[i].key
    ensures forall j :: Lookup(v[i := e], j) == if j == e.key then e.values else Lookup(v, j)
  {
    var w := v[i := e];
    forall j
      ensures Lookup(w, j) == if j == e.key then e.values else Lookup(v, j)
    {
      if i == |v| - 1 {
        assert w[..|w| - 1] == v[..|v| - 1];
        if j == e.key {
        } else {
          assert v[|v| - 1].key != j;
        }
      } else {
        var p := v[..|v| - 1];
        assert WellFormed(p);
        assert w[..|w| - 1] == p[i := e];
        assert w[|w| - 1] == v[|v| - 1];
        LookupUpdate(p, i, e);
        assert v[|v| - 1].key != e.key;
        if v[|v| - 1].key != j {
          assert Lookup(w, j) == Lookup(p[i := e], j);
          assert Lookup(v, j) == Lookup(p, j);
        }
      }
    }
  }

  /** Byte-wise string order, as Go compares strings (UTF-8 byte order is code-point order). */
  predicate Below(a: string, b: string)
  {
    if a == [] then true
    else if b == [] then false
    else if a[0] != b[0] then a[0] < b[0]
    else Below(a[1..], b[1..])
  }

  lemma {:induction false} BelowTotal(a: string, b: string)
    ensures Below(a, b) || Below(b, a)
  {
    if a != [] && b != [] && a[0] == b[0] {
      BelowTotal(a[1..], b[1..]);
    }
  }

  lemma {:induction false} BelowAntisymmetric(a: string, b: string)
    requires Below(a, b) && Below(b, a)
    ensures a == b
  {
    if a != [] {
      BelowAntisymmetric(a[1..], b[1..]);
      assert a == [a[0]] + a[1..] && b == [b[0]] + b[1..];
    }
  }

  lemma {:induction false} BelowTransitive(a: string, b: string, c: string)
    requires Below(a, b) && Below(b, c)
    ensures Below(a, c)
  {
    if a != [] && b != [] && c != [] && a[0] == b[0] && b[0] == c[0] {
      BelowTransitive(a[1..], b[1..], c[1..]);
    }
  }

  /** Strictly before. */
  predicate Before(a: string, b: string)
  {
    Below(a, b) && a != b
  }

  predicate StrictlySorted(s: seq<string>)
  {
    forall i, j :: 0 <= i < j < |s| ==> Before(s[i], s[j])
  }

  /** Puts `x` into the sorted `s`, unless it is already there. */
  function Insert(x: string, s: seq<string>): (r: seq<string>)
    requires StrictlySorted(s)
    ensures StrictlySorted(r)
    ensures forall y :: y in r <==> y in s || y == x
    ensures |r| == if x in s then |s| else |s| + 1
  {
    if s == [] then [x]
    else if x == s[0] then s
    else if Below(x, s[0]) then
      assert forall j :: 0 <= j < |s| ==> Before(x, s[j]) by {
        forall j | 0 < j < |s| ensures Before(x, s[j]) {
          BelowTransitive(x, s[0], s[j]);
          if x == s[j] { BelowAntisymmetric(s[0], x); }
        }
      }
      [x] + s
    else
      BelowTotal(x, s[0]);
      var rest := Insert(x, s[1..]);
      assert forall y :: y in s <==> y == s[0] || y in s[1..];
      assert forall j :: 0 <= j < |rest| ==> Before(s[0], rest[j]) by {
        forall j | 0 <= j < |rest| ensures Before(s[0], rest[j]) {
          assert rest[j] in rest;
          if rest[j] != x {
            var i :| 0 <= i < |s[1..]| && s[1..][i] == rest[j];
            assert s[i + 1] == rest[j];
          }
        }
      }
      [s[0]] + rest
  }

  /** The keys in sorted order, as `Encode` visits them. */
  function SortKeys(ks: seq<string>): (r: seq<string>)
    ensures StrictlySorted(r)
    ensures forall y :: y in r <==> y in ks
  {
    if ks == [] then [] else Insert(ks[|ks| - 1], SortKeys(ks[..|ks| - 1]))
  }

  /** Two strictly sorted sequences with the same elements are the same sequence. */
  lemma {:induction false} SortedUnique(s: seq<string>, t: seq<string>)
    requires StrictlySorted(s) && StrictlySorted(t)
    requires forall y :: y in s <==> y in t
    ensures s == t
  {
    assert s == [] <==> t == [] by {
      if s != [] { assert s[0] in t; }
      if t != [] { assert t[0] in s; }
    }
    if s != [] {
      assert s[0] in t && t[0] in s;
      if s[0] != t[0] {
        var i :| 0 <= i < |t| && t[i] == s[0];
        var j :| 0 <= j < |s| && s[j] == t[0];
        assert Before(t[0], s[0]) && Before(s[0], t[0]);
        BelowAntisymmetric(s[0], t[0]);
      }
      forall y
        ensures y in s[1..] <==> y in t[1..]
      {
        if y in s[1..] {
          var i :| 1 <= i < |s| && s[i] == y;
          assert y != s[0];
        }
        if y in t[1..] {
          var i :| 1 <= i < |t| && t[i] == y;
          assert y != t[0];
        }
        assert y in s <==> y == s[0] || y in s[1..];
        assert y in t <==> y == t[0] || y in t[1..];
      }
      SortedUnique(s[1..], t[1..]);
      assert s == [s[0]] + s[1..] && t == [t[0]] + t[1..];
    }
  }

  /** The "key=value" pairs of the keys `ks`, each key's values in insertion order. */
  function Pairs(v: Entries, ks: seq<string>, esc: string -> string): seq<string>
  {
    if ks == [] then []
    else Pairs(v, ks[..|ks| - 1], esc) + PairsOf(ks[|ks| - 1], Lookup(v, ks[|ks| - 1]), esc)
  }

  function PairsOf(k: string, xs: seq<string>, esc: string -> string): (r: seq<string>)
    ensures |r| == |xs|
    ensures forall i :: 0 <= i < |xs| ==> r[i] == esc(k) + "=" + esc(xs[i])
  {
    if xs == [] then [] else PairsOf(k, xs[..|xs| - 1], esc) + [esc(k) + "=" + esc(xs[|xs| - 1])]
  }

  /** `v.Encode()`: the pairs of the sorted keys, joined by "&". */
  function Encode(v: Values, esc: string -> string): string
  {
    Join(Pairs(v, SortKeys(Keys(v)), esc), "&")
  }

  lemma {:induction false} PairsAgree(v: Entries, w: Entries, ks: seq<string>, esc: string -> string)
    requires forall k :: k in ks ==> Lookup(v, k) == Lookup(w, k)
    ensures Pairs(v, ks, esc) == Pairs(w, ks, esc)
  {
    if ks != [] {
      PairsAgree(v, w, ks[..|ks| - 1], esc);
    }
  }

  /**
   * The encoding depends only on what each key holds, never on the order in
   * which keys were first added.
   */
  lemma EncodeIgnoresInsertionOrder(v: Values, w: Values, esc: string -> string)
    requires forall k :: k in Keys(v) <==> k in Keys(w)
    requires forall k :: Lookup(v, k) == Lookup(w, k)
    ensures Encode(v, esc) == Encode(w, esc)
  {
    SortedUnique(SortKeys(Keys(v)), SortKeys(Keys(w)));
    PairsAgree(v, w, SortKeys(Keys(v)), esc);
  }

  /** An empty `url.Values` encodes to "". */
  lemma EncodeEmpty(esc: string -> string)
    ensures Encode([], esc) == ""
  {
  }

  /** Keys with one value each, in sorted order: one pair per key, in that order. */
  lemma {:induction false} EncodeSortedSingles(v: Values, esc: string -> string)
    requires StrictlySorted(Keys(v))
    requires forall i :: 0 <= i < |v| ==> |v[i].values| == 1
    ensures Encode(v, esc) == Join(SinglePairs(v, esc), "&")
  {
    SortedUnique(SortKeys(Keys(v)), Keys(v));
    SinglesAsPairs(v, v, esc);
  }

  function SinglePairs(v: Entries, esc: string -> string): (r: seq<string>)
    requires forall i :: 0 <= i < |v| ==> |v[i].values| == 1
    ensures |r| == |v|
  {
    if v == [] then []
    else SinglePairs(v[..|v| - 1], esc) + [esc(v[|v| - 1].key) + "=" + esc(v[|v| - 1].values[0])]
  }

  lemma {:induction false} SinglesAsPairs(u: Entries, v: Entries, esc: string -> string)
    requires WellFormed(v) && u <= v
    requires forall i :: 0 <= i < |v| ==> |v[i].values| == 1
    ensures Pairs(v, Keys(u), esc) == SinglePairs(u, esc)
  {
    if u != [] {
      var p := u[..|u| - 1];
      assert Keys(u)[..|u| - 1] == Keys(p);
      SinglesAsPairs(p, v, esc);
      LookupPresent(v, |u| - 1);
      assert PairsOf(u[|u| - 1].key, u[|u| - 1].values, esc) == [esc(u[|u| - 1].key) + "=" + esc(u[|u| - 1].values[0])];
    }
  }

  /** One query parameter, as a builder adds it. */
  datatype Param = Param(key: string, value: string)

  /** The parameter, when it is given; nothing otherwise. */
  function Opt(key: string, value: string, given: bool): (r: seq<Param>)
    ensures given <==> r == [Param(key, value)]
    ensures !given <==> r == []
  {
    if given then [Param(key, value)] else []
  }

  /** `v.Add(p.key, p.value)` for each parameter in turn. */
  function AddAll(v: Values, ps: seq<Param>): Values
  {
    if ps == [] then v else Add(AddAll(v, ps[..|ps| - 1]), ps[|ps| - 1].key, ps[|ps| - 1].value)
  }

  lemma {:induction false} AddAllSnoc(v: Values, ps: seq<Param>, p: Param)
    ensures AddAll(v, ps + [p]) == Add(AddAll(v, ps), p.key, p.value)
  {
    assert (ps + [p])[..|ps|] == ps;
  }

  /** `if given { v.Add(key, value) }`: one step of a query-string builder, tracked by the parameters added so far. */
  method AddIf(v0: Values, ghost added: seq<Param>, v: Values, key: string, value: string, given: bool) returns (r: Values)
    requires v == AddAll(v0, added)
    ensures r == AddAll(v0, added + Opt(key, value, given))
  {
    r := v;
    if given {
      AddAllSnoc(v0, added, Param(key, value));
      r := Add(v, key, value);
    } else {
      assert added + [] == added;
    }
  }

  /** The values the parameters give `k`, in order. */
  function Matching(ps: seq<Param>, k: string): seq<string>
  {
    if ps == [] then []
    else Matching(ps[..|ps| - 1], k) + (if ps[|ps| - 1].key == k then [ps[|ps| - 1].value] else [])
  }

  /** What a parameter that may be left out gives its own key. */
  function Given(value: string, given: bool): (r: seq<string>)
    ensures given <==> r == [value]
    ensures !given <==> r == []
  {
    if given then [value] else []
  }

  lemma MatchingOpt(key: string, value: string, given: bool, k: string)
    ensures Matching(Opt(key, value, given), k) == if k == key then Given(value, given) else []
  {
    if given {
      assert Opt(key, value, given)[..0] == [];
    }
  }

  /** The same, with what the key is given stated by the caller. */
  lemma MatchingField(key: string, value: string, given: bool, k: string, w: seq<string>)
    requires k == key ==> w == Given(value, given)
    ensures Matching(Opt(key, value, given), k) == if k == key then w else []
  {
    MatchingOpt(key, value, given, k);
  }

  lemma {:induction false} MatchingAppend(a: seq<Param>, b: seq<Param>, k: string)
    ensures Matching(a + b, k) == Matching(a, k) + Matching(b, k)
  {
    if b == [] {
      assert a + b == a;
    } else {
      assert (a + b)[..|a + b| - 1] == a + b[..|b| - 1];
      assert (a + b)[|a + b| - 1] == b[|b| - 1];
      MatchingAppend(a, b[..|b| - 1], k);
    }
  }

  /**
   * Parameters with distinct keys, of which only the one named `k` can
   * give `k` anything: whatever their order, together they give it `w`.
   */
  lemma Pick4(k: string, k1: string, k2: string, k3: string, k4: string,
              m1: seq<string>, m2: seq<string>, m3: seq<string>, m4: seq<string>, w: seq<string>)
    requires k1 != k2 && k1 != k3 && k1 != k4 && k2 != k3 && k2 != k4 && k3 != k4
    requires m1 == (if k == k1 then w else []) && m2 == (if k == k2 then w else [])
    requires m3 == (if k == k3 then w else []) && m4 == (if k == k4 then w else [])
    requires k != k1 && k != k2 && k != k3 && k != k4 ==> w == []
    ensures m1 + m2 + m3 + m4 == w && m1 + (m2 + (m3 + m4)) == w
  {
    if k == k1 {
      assert m1 + m2 + m3 + m4 == w + [] + [] + [];
    } else if k == k2 {
      assert m1 + m2 + m3 + m4 == [] + w + [] + [];
    } else if k == k3 {
      assert m1 + m2 + m3 + m4 == [] + [] + w + [];
    } else if k == k4 {
      assert m1 + m2 + m3 + m4 == [] + [] + [] + w;
    }
  }

  lemma Pick5(k: string, k1: string, k2: string, k3: string, k4: string, k5: string,
              m1: seq<string>, m2: seq<string>, m3: seq<string>, m4: seq<string>, m5: seq<string>, w: seq<string>)
    requires k1 != k2 && k1 != k3 && k1 != k4 && k1 != k5 && k2 != k3 && k2 != k4 && k2 != k5
    requires k3 != k4 && k3 != k5 && k4 != k5
    requires m1 == (if k == k1 then w else []) && m2 == (if k == k2 then w else []) && m3 == (if k == k3 then w else [])
    requires m4 == (if k == k4 then w else []) && m5 == (if k == k5 then w else [])
    requires k != k1 && k != k2 && k != k3 && k != k4 && k != k5 ==> w == []
    ensures m1 + m2 + m3 + m4 + m5 == w && m1 + (m2 + (m3 + (m4 + m5))) == w
  {
    if k == k1 {
      assert m1 + m2 + m3 + m4 + m5 == w + [] + [] + [] + [];
    } else if k == k2 {
      assert m1 + m2 + m3 + m4 + m5 == [] + w + [] + [] + [];
    } else if k == k3 {
      assert m1 + m2 + m3 + m4 + m5 == [] + [] + w + [] + [];
    } else if k == k4 {
      assert m1 + m2 + m3 + m4 + m5 == [] + [] + [] + w + [];
    } else if k == k5 {
      assert m1 + m2 + m3 + m4 + m5 == [] + [] + [] + [] + w;
    }
  }

  /**
   * After the adds, each key holds what it held before followed by the
   * values the parameters give it, and a key is present exactly when it was
   * before or some parameter names it.
   */
  lemma {:induction false} AddAllLookup(v: Values, ps: seq<Param>)
    ensures forall k :: Lookup(AddAll(v, ps), k) == Lookup(v, k) + Matching(ps, k)
    ensures forall k :: k in Keys(AddAll(v, ps)) <==> k in Keys(v) || Matching(ps, k) != []
  {
    if ps != [] {
      var init, p := ps[..|ps| - 1], ps[|ps| - 1];
      var before := AddAll(v, init);
      assert AddAll(v, ps) == Add(before, p.key, p.value);
      AddAllLookup(v, init);
      AddLookup(before, p.key, p.value);
      forall k
        ensures Lookup(AddAll(v, ps), k) == Lookup(v, k) + Matching(ps, k)
        ensures k in Keys(AddAll(v, ps)) <==> k in Keys(v) || Matching(ps, k) != []
      {
        assert Matching(ps, k) == Matching(init, k) + (if p.key == k then [p.value] else []);
        if k == p.key {
          assert Lookup(v, k) + Matching(init, k) + [p.value] == Lookup(v, k) + (Matching(init, k) + [p.value]);
        } else {
          assert Matching(ps, k) == Matching(init, k);
        }
      }
    }
  }

  /** The keys of the parameters, position by position. */
  function ParamKeys(ps: seq<Param>): (ks: seq<string>)
    ensures |ks| == |ps|
    ensures forall i :: 0 <= i < |ps| ==> ks[i] == ps[i].key
  {
    if ps == [] then [] else ParamKeys(ps[..|ps| - 1]) + [ps[|ps| - 1].key]
  }

  /** "key=value" for each parameter, both escaped. */
  function Escaped(ps: seq<Param>, esc: string -> string): (r: seq<string>)
    ensures |r| == |ps|
    ensures forall i :: 0 <= i < |ps| ==> r[i] == esc(ps[i].key) + "=" + esc(ps[i].value)
  {
    if ps == [] then [] else Escaped(ps[..|ps| - 1], esc) + [esc(ps[|ps| - 1].key) + "=" + esc(ps[|ps| - 1].value)]
  }

  /** Each parameter as an entry of its own. */
  function Singles(ps: seq<Param>): (v: Entries)
    ensures |v| == |ps|
    ensures forall i :: 0 <= i < |ps| ==> v[i] == Entry(ps[i].key, [ps[i].value])
  {
    if ps == [] then [] else Singles(ps[..|ps| - 1]) + [Entry(ps[|ps| - 1].key, [ps[|ps| - 1].value])]
  }

  lemma {:induction false} SinglesLookup(ps: seq<Param>)
    requires StrictlySorted(ParamKeys(ps))
    ensures forall k :: Lookup(Singles(ps), k) == Matching(ps, k)
  {
    if ps != [] {
      var p := ps[..|ps| - 1];
      assert ParamKeys(p) == ParamKeys(ps)[..|ps| - 1];
      SinglesLookup(p);
      assert Singles(ps)[..|ps| - 1] == Singles(p);
      forall k | k == ps[|ps| - 1].key
        ensures Matching(p, k) == []
      {
        MatchingAbsent(p, k);
      }
    }
  }

  lemma {:induction false} MatchingAbsent(ps: seq<Param>, k: string)
    requires k !in ParamKeys(ps)
    ensures Matching(ps, k) == []
  {
    if ps != [] {
      assert ParamKeys(ps[..|ps| - 1]) == ParamKeys(ps)[..|ps| - 1];
      MatchingAbsent(ps[..|ps| - 1], k);
    }
  }

  lemma {:induction false} MatchingPresent(ps: seq<Param>, i: nat)
    requires i < |ps|
    ensures Matching(ps, ps[i].key) != []
  {
    if i < |ps| - 1 {
      MatchingPresent(ps[..|ps| - 1], i);
    }
  }

  /**
   * Parameters with distinct keys, added in any order to an empty
   * `url.Values`, encode as their "key=value" pairs in sorted key order:
   * `sorted` is any arrangement of the same parameters by strictly
   * increasing key.
   */
  lemma {:induction false} EncodeDistinct(ps: seq<Param>, sorted: seq<Param>, esc: string -> string)
    requires StrictlySorted(ParamKeys(sorted))
    requires forall k :: Matching(ps, k) == Matching(sorted, k)
    ensures Encode(AddAll([], ps), esc) == Join(Escaped(sorted, esc), "&")
  {
    SinglesShape(sorted);
    var w: Values := Singles(sorted);
    SameLookups(ps, sorted);
    SameKeys(ps, sorted);
    EncodeIgnoresInsertionOrder(AddAll([], ps), w, esc);
    EncodeSortedSingles(w, esc);
    SinglePairsEscaped(sorted, esc);
  }

  lemma {:induction false} SinglesShape(ps: seq<Param>)
    requires StrictlySorted(ParamKeys(ps))
    ensures Keys(Singles(ps)) == ParamKeys(ps)
    ensures WellFormed(Singles(ps))
    ensures forall i :: 0 <= i < |Singles(ps)| ==> |Singles(ps)[i].values| == 1
  {
    assert Keys(Singles(ps)) == ParamKeys(ps);
  }

  lemma {:induction false} SameLookups(ps: seq<Param>, sorted: seq<Param>)
    requires StrictlySorted(ParamKeys(sorted))
    requires forall k :: Matching(ps, k) == Matching(sorted, k)
    ensures forall k :: Lookup(AddAll([], ps), k) == Lookup(Singles(sorted), k)
  {
    SinglesLookup(sorted);
    AddAllLookup([], ps);
  }

  lemma {:induction false} SameKeys(ps: seq<Param>, sorted: seq<Param>)
    requires StrictlySorted(ParamKeys(sorted))
    requires forall k :: Matching(ps, k) == Matching(sorted, k)
    ensures forall k :: k in Keys(AddAll([], ps)) <==> k in ParamKeys(sorted)
  {
    AddAllLookup([], ps);
    forall k
      ensures Matching(sorted, k) != [] <==> k in ParamKeys(sorted)
    {
      if k in ParamKeys(sorted) {
        var i :| 0 <= i < |sorted| && ParamKeys(sorted)[i] == k;
        MatchingPresent(sorted, i);
      } else {
        MatchingAbsent(sorted, k);
      }
    }
  }

  lemma {:induction false} SinglePairsEscaped(ps: seq<Param>, esc: string -> string)
    ensures SinglePairs(Singles(ps), esc) == Escaped(ps, esc)
  {
    if ps != [] {
      assert Singles(ps)[..|ps| - 1] == Singles(ps[..|ps| - 1]);
      SinglePairsEscaped(ps[..|ps| - 1], esc);
    }
  }

  /**
   * A parameter that may be left out, in front of parameters whose keys all
   * come after its own: the keys stay strictly sorted.
   */
  lemma {:induction false} OptSorted(key: string, value: string, given: bool, rest: seq<Param>)
    requires StrictlySorted(ParamKeys(rest))
    requires KeysAfter(key, rest)
    ensures StrictlySorted(ParamKeys(Opt(key, value, given) + rest))
  {
    if given {
      assert Opt(key, value, given) == [Param(key, value)];
      ParamKeysCons(Param(key, value), rest);
      ConsSorted(key, ParamKeys(rest));
    } else {
      assert Opt(key, value, given) + rest == rest;
    }
  }

  lemma {:induction false} ParamKeysCons(p: Param, rest: seq<Param>)
    ensures ParamKeys([p] + rest) == [p.key] + ParamKeys(rest)
  {
    var a, b := ParamKeys([p] + rest), [p.key] + ParamKeys(rest);
    assert |a| == |b|;
    forall i | 0 <= i < |a|
      ensures a[i] == b[i]
    {
      if i > 0 {
        assert ([p] + rest)[i] == rest[i - 1];
      }
    }
  }

  lemma {:induction false} ConsSorted(x: string, ks: seq<string>)
    requires StrictlySorted(ks)
    requires forall i :: 0 <= i < |ks| ==> Before(x, ks[i])
    ensures StrictlySorted([x] + ks)
  {
    var r := [x] + ks;
    forall i, j | 0 <= i < j < |r|
      ensures Before(r[i], r[j])
    {
      assert r[j] == ks[j - 1];
      if i > 0 {
        assert r[i] == ks[i - 1];
      }
    }
  }

  /** Every parameter's key comes after `key`. */
  predicate KeysAfter(key: string, ps: seq<Param>)
  {
    forall i :: 0 <= i < |ps| ==> Before(key, ps[i].key)
  }

  lemma AfterOpt(key: string, k: string, value: string, given: bool)
    requires Before(key, k)
    ensures KeysAfter(key, Opt(k, value, given))
  {
  }

  lemma AfterAppend(key: string, a: seq<Param>, b: seq<Param>)
    requires KeysAfter(key, a) && KeysAfter(key, b)
    ensures KeysAfter(key, a + b)
  {
    forall i | 0 <= i < |a + b|
      ensures Before(key, (a + b)[i].key)
    {
      if i >= |a| {
        assert (a + b)[i] == b[i - |a|];
      }
    }
  }
}
