/**
  The accumulated parameters and the URI they are rendered into. The base
  class that holds them (`AbstractRESTQueryBuilder`) is not part of this
  model; what it does is taken from the unit tests: the URI is the base
  address, then '?', then `key=value` pairs in the order they were added,
  joined by '&'. Percent-encoding is not modelled, so `Uri` is the escaped
  URI only for keys and values that need no escaping. `ParseUri` is the
  inverse the rendering is proved against.
*/
module Query {

  /** One query parameter: (key, value). */
  type Param = (string, string)

  function Field(p: Param): string {
    p.0 + "=" + p.1
  }

  /** The pairs `key=value` in insertion order, joined by '&'. */
  function QueryString(ps: seq<Param>): (q: string)
    ensures ps == [] <==> q == []
    decreases |ps|
  {
    if ps == [] then ""
    else if |ps| == 1 then Field(ps[0])
    else Field(ps[0]) + "&" + QueryString(ps[1..])
  }

  /** The URI of a builder at `base` holding `ps`; no '?' when there are no parameters. */
  function Uri(base: string, ps: seq<Param>): (uri: string)
    ensures |uri| >= |base| && uri[..|base|] == base
    ensures ps == [] <==> uri == base
    ensures ps != [] ==> uri[|base|] == '?'
  {
    if ps == [] then base else base + "?" + QueryString(ps)
  }

  /** A base address that holds no query of its own. */
  predicate NoQuery(base: string) {
    forall i :: 0 <= i < |base| ==> base[i] != '?'
  }

  /** Text that can stand as a key or value without separating anything. */
  predicate IsPlain(s: string) {
    forall i :: 0 <= i < |s| ==> s[i] != '&' && s[i] != '='
  }

  predicate AllPlain(ps: seq<Param>) {
    forall i :: 0 <= i < |ps| ==> IsPlain(ps[i].0) && IsPlain(ps[i].1)
  }

  /** Position of the first `c` in `s`, or `|s|` when there is none. */
  function Find(s: string, c: char): (n: nat)
    ensures n <= |s|
    ensures forall i :: 0 <= i < n ==> s[i] != c
    ensures n < |s| ==> s[n] == c
    decreases |s|
  {
    if s == [] || s[0] == c then 0 else 1 + Find(s[1..], c)
  }

  function ParseField(s: string): Param {
    var j := Find(s, '=');
    if j < |s| then (s[..j], s[j + 1..]) else (s, "")
  }

  function ParseQuery(q: string): seq<Param>
    decreases |q|
  {
    if q == [] then []
    else
      var i := Find(q, '&');
      [ParseField(q[..i])] + (if i == |q| then [] else ParseQuery(q[i + 1..]))
  }

  /** Splits a URI into its base and its parameters. */
  function ParseUri(uri: string): (string, seq<Param>) {
    var i := Find(uri, '?');
    if i == |uri| then (uri, []) else (uri[..i], ParseQuery(uri[i + 1..]))
  }

  lemma {:induction false} FindAfterPrefix(a: string, c: char, b: string)
    requires forall i :: 0 <= i < |a| ==> a[i] != c
    ensures Find(a + [c] + b, c) == |a|
    decreases |a|
  {
    if a != [] {
      assert (a + [c] + b)[1..] == a[1..] + [c] + b;
      FindAfterPrefix(a[1..], c, b);
    }
  }

  lemma {:induction false} FindAbsent(s: string, c: char)
    requires forall i :: 0 <= i < |s| ==> s[i] != c
    ensures Find(s, c) == |s|
    decreases |s|
  {
    if s != [] {
      FindAbsent(s[1..], c);
    }
  }

  lemma ParseFieldOfField(p: Param)
    requires IsPlain(p.0)
    ensures ParseField(Field(p)) == p
  {
    FindAfterPrefix(p.0, '=', p.1);
    assert (p.0 + "=" + p.1)[..|p.0|] == p.0;
    assert (p.0 + "=" + p.1)[|p.0| + 1..] == p.1;
  }

  lemma FieldHasNoSeparator(p: Param)
    requires IsPlain(p.0) && IsPlain(p.1)
    ensures forall i :: 0 <= i < |Field(p)| ==> Field(p)[i] != '&'
  {
    var f := Field(p);
    forall i | 0 <= i < |f| ensures f[i] != '&' {
      if i < |p.0| {
        assert f[i] == p.0[i];
      } else if i > |p.0| {
        assert f[i] == p.1[i - |p.0| - 1];
      }
    }
  }

  /** A query without '&' is one field. */
  lemma ParseQuerySingle(f: string)
    requires f != [] && forall i :: 0 <= i < |f| ==> f[i] != '&'
    ensures ParseQuery(f) == [ParseField(f)]
  {
    FindAbsent(f, '&');
    assert f[..|f|] == f;
  }

  /** The first '&' of a query ends its first field. */
  lemma ParseQueryCons(f: string, rest: string)
    requires forall i :: 0 <= i < |f| ==> f[i] != '&'
    ensures ParseQuery(f + "&" + rest) == [ParseField(f)] + ParseQuery(rest)
  {
    FindAfterPrefix(f, '&', rest);
    assert (f + "&" + rest)[..|f|] == f;
    assert (f + "&" + rest)[|f| + 1..] == rest;
  }

  lemma {:induction false} ParseQueryString(ps: seq<Param>)
    requires AllPlain(ps)
    ensures ParseQuery(QueryString(ps)) == ps
    decreases |ps|
  {
    if ps != [] {
      var f := Field(ps[0]);
      FieldHasNoSeparator(ps[0]);
      ParseFieldOfField(ps[0]);
      if |ps| == 1 {
        ParseQuerySingle(f);
      } else {
        assert AllPlain(ps[1..]) by {
          forall i | 0 <= i < |ps[1..]| ensures IsPlain(ps[1..][i].0) && IsPlain(ps[1..][i].1) {
            assert ps[1..][i] == ps[i + 1];
          }
        }
        ParseQueryString(ps[1..]);
        ParseQueryCons(f, QueryString(ps[1..]));
        assert [ps[0]] + ps[1..] == ps;
      }
    }
  }

  /** A URI built at a base without '?' splits back into that base and those parameters. */
  lemma UriRoundTrip(base: string, ps: seq<Param>)
    requires NoQuery(base)
    requires AllPlain(ps)
    ensures ParseUri(Uri(base, ps)) == (base, ps)
  {
    if ps == [] {
      FindAbsent(base, '?');
    } else {
      var q := QueryString(ps);
      FindAfterPrefix(base, '?', q);
      assert (base + "?" + q)[..|base|] == base;
      assert (base + "?" + q)[|base| + 1..] == q;
      ParseQueryString(ps);
    }
  }

  /** Adding one parameter extends the URI by one field at its end. */
  lemma {:induction false} UriAppend(base: string, ps: seq<Param>, p: Param)
    ensures Uri(base, ps + [p]) ==
      if ps == [] then base + "?" + Field(p) else Uri(base, ps) + "&" + Field(p)
  {
    if ps != [] {
      QueryStringAppend(ps, p);
    } else {
      assert ps + [p] == [p];
    }
  }

  lemma {:induction false} QueryStringAppend(ps: seq<Param>, p: Param)
    requires ps != []
    ensures QueryString(ps + [p]) == QueryString(ps) + "&" + Field(p)
    decreases |ps|
  {
    assert (ps + [p])[0] == ps[0];
    if |ps| == 1 {
      assert (ps + [p])[1..] == [p];
    } else {
      assert (ps + [p])[1..] == ps[1..] + [p];
      QueryStringAppend(ps[1..], p);
    }
  }
}
