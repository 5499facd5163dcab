/**
  A reader for the URLs the proxy builds: a URL is an endpoint, a '?', and `name=value`
  pairs separated by '&'. The provider templates build URLs by plain string concatenation;
  this module defines, independently of them, what such a template string reads back as,
  so that the templates can be shown to carry the raw coordinates as the intended
  parameters. No percent-encoding or decoding takes place, on either side.
*/
module Urls {
  import opened Wrappers

  /** One `name=value` pair of a query string. */
  datatype Param = Param(name: string, value: string)

  /** A request URL: the text before the first '?', then the query parameters in order. */
  datatype Url = Url(endpoint: string, query: seq<Param>)

  /** Splits `s` at the first occurrence of `c`: the text before it, and the text after it if `c` occurs. */
  function SplitAt(s: string, c: char): (r: (string, Option<string>))
    ensures r.1.None? <==> c !in s
    ensures r.1.None? ==> r.0 == s
    ensures r.1.Some? ==> s == r.0 + [c] + r.1.value && c !in r.0
  {
    if s == [] then ([], None)
    else if s[0] == c then ([], Some(s[1..]))
    else
      var (before, after) := SplitAt(s[1..], c);
      assert s == [s[0]] + s[1..];
      ([s[0]] + before, after)
  }

  /** The split is at the FIRST separator: a prefix free of `c` is exactly what comes before it. */
  lemma {:induction false} SplitAtFirst(a: string, c: char, b: string)
    requires c !in a
    ensures SplitAt(a + [c] + b, c) == (a, Some(b))
  {
    var s := a + [c] + b;
    if a == [] {
      assert s == [c] + b;
    } else {
      assert s[0] == a[0] && s[1..] == a[1..] + [c] + b;
      SplitAtFirst(a[1..], c, b);
      assert a == [a[0]] + a[1..];
    }
  }

  function FormatParam(p: Param): string
  {
    p.name + "=" + p.value
  }

  /** The parameters written as `n1=v1&n2=v2&...`. */
  function FormatQuery(ps: seq<Param>): string
  {
    if |ps| == 0 then ""
    else if |ps| == 1 then FormatParam(ps[0])
    else FormatParam(ps[0]) + "&" + FormatQuery(ps[1..])
  }

  lemma FormatQueryCons(p: Param, ps: seq<Param>)
    requires |ps| > 0
    ensures FormatQuery([p] + ps) == FormatParam(p) + "&" + FormatQuery(ps)
  {
    assert ([p] + ps)[1..] == ps;
  }

  function Format(u: Url): string
  {
    u.endpoint + "?" + FormatQuery(u.query)
  }

  /** A pair without '=' reads as a name with an empty value. */
  function ParseParam(s: string): Param
  {
    var (name, value) := SplitAt(s, '=');
    match value
    case None => Param(name, "")
    case Some(v) => Param(name, v)
  }

  function ParseQuery(q: string): seq<Param>
    decreases |q|
  {
    if q == "" then []
    else
      var (first, rest) := SplitAt(q, '&');
      match rest
      case None => [ParseParam(first)]
      case Some(more) => [ParseParam(first)] + ParseQuery(more)
  }

  function Parse(s: string): Url
  {
    var (endpoint, query) := SplitAt(s, '?');
    match query
    case None => Url(endpoint, [])
    case Some(q) => Url(endpoint, ParseQuery(q))
  }

  /** A pair that reads back as itself: its name holds no separator, its value no '&'. */
  predicate ValidParam(p: Param)
  {
    '=' !in p.name && '&' !in p.name && '&' !in p.value
  }

  predicate ValidUrl(u: Url)
  {
    '?' !in u.endpoint && forall p <- u.query :: ValidParam(p)
  }

  lemma {:induction false} ParseFormatParam(p: Param)
    requires '=' !in p.name
    ensures ParseParam(FormatParam(p)) == p
  {
    assert FormatParam(p) == p.name + ['='] + p.value;
    SplitAtFirst(p.name, '=', p.value);
  }

  lemma {:induction false} ParseFormatQuery(ps: seq<Param>)
    requires forall p <- ps :: ValidParam(p)
    ensures ParseQuery(FormatQuery(ps)) == ps
    decreases |ps|
  {
    if |ps| == 0 {
    } else {
      var p := ps[0];
      assert ValidParam(p);
      var first := FormatParam(p);
      assert '&' !in first by {
        assert first == p.name + ['='] + p.value;
      }
      ParseFormatParam(p);
      if |ps| == 1 {
        assert first != "" by { assert first[|p.name|] == '='; }
        assert SplitAt(first, '&') == (first, None);
      } else {
        assert FormatQuery(ps) == first + ['&'] + FormatQuery(ps[1..]);
        SplitAtFirst(first, '&', FormatQuery(ps[1..]));
        ParseFormatQuery(ps[1..]);
        assert ps == [p] + ps[1..];
      }
    }
  }

  /** Reading a well-formed URL back gives exactly its endpoint and parameters. */
  lemma ParseFormat(u: Url)
    requires ValidUrl(u)
    ensures Parse(Format(u)) == u
  {
    assert Format(u) == u.endpoint + ['?'] + FormatQuery(u.query);
    SplitAtFirst(u.endpoint, '?', FormatQuery(u.query));
    ParseFormatQuery(u.query);
  }
}
