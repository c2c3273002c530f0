/**
 * The request URI of api_request: a fixed root, the API version, the cycle,
 * the endpoint, a '?', then one "&key=value" segment per parameter, with
 * nothing percent-encoded.  A parser for such URIs is the partner that shows
 * the layout is recoverable, and where it is not.
 */
module RequestUris {
  import opened JsonValues
  import opened Decimal

  /** A query parameter value: the client passes strings and the integer offset. */
  datatype Param = PStr(s: string) | PInt(n: int)

  /** Parameters in the order api_request iterates over them. */
  type Params = seq<(string, Param)>

  const ApiRoot: string := "http://api.nytimes.com/svc/elections/us/"

  /** str(value) */
  function Render(value: Param): string {
    match value
    case PStr(s) => s
    case PInt(n) => IntToString(n)
  }

  function BaseUri(version: string, cycle: int, endpoint: string): string {
    ApiRoot + version + "/finances/" + IntToString(cycle) + "/" + endpoint
  }

  function Segment(key: string, value: Param): string {
    key + "=" + Render(value)
  }

  function QueryString(params: Params): string {
    if params == [] then "" else "&" + Segment(params[0].0, params[0].1) + QueryString(params[1..])
  }

  function RequestUri(version: string, cycle: int, endpoint: string, params: Params): string {
    BaseUri(version, cycle, endpoint) + "?" + QueryString(params)
  }

  function Lookup(params: Params, key: string): Option<Param> {
    if params == [] then None
    else if params[0].0 == key then Some(params[0].1)
    else Lookup(params[1..], key)
  }

  function KeySet(params: Params): set<string> {
    if params == [] then {} else {params[0].0} + KeySet(params[1..])
  }

  /** No key occurs twice, as in a dictionary. */
  predicate DistinctKeys(params: Params) {
    forall i, j :: 0 <= i < j < |params| ==> params[i].0 != params[j].0
  }

  /** The parameters as (key, str(value)) pairs, in order. */
  function Rendered(params: Params): seq<(string, string)> {
    if params == [] then [] else [(params[0].0, Render(params[0].1))] + Rendered(params[1..])
  }

  /**
   * Parameters whose text survives the unencoded query string: no key holds
   * '&' or '=', and no value holds '&'.
   */
  predicate SafeParams(params: Params) {
    forall i :: 0 <= i < |params| ==>
      '&' !in params[i].0 && '=' !in params[i].0 && '&' !in Render(params[i].1)
  }

  // ---------------------------------------------------------------------
  // Reading a URI back
  // ---------------------------------------------------------------------

  /** Cuts s at every occurrence of sep. */
  function Split(s: string, sep: char): (pieces: seq<string>)
    ensures |pieces| >= 1
    decreases |s|
  {
    if s == [] then [""]
    else
      var rest := Split(s[1..], sep);
      if s[0] == sep then [""] + rest else [[s[0]] + rest[0]] + rest[1..]
  }

  /** Cuts s at the first occurrence of sep, if there is one. */
  function SplitFirst(s: string, sep: char): Option<(string, string)>
    decreases |s|
  {
    if s == [] then None
    else if s[0] == sep then Some(([], s[1..]))
    else match SplitFirst(s[1..], sep)
      case None => None
      case Some(p) => Some(([s[0]] + p.0, p.1))
  }

  function ParseSegments(pieces: seq<string>): seq<(string, string)> {
    if pieces == [] then []
    else
      var pair := match SplitFirst(pieces[0], '=')
        case Some(p) => p
        case None => (pieces[0], "");
      [pair] + ParseSegments(pieces[1..])
  }

  /** A query string is empty or starts with '&'; each piece after it is key=value. */
  function ParseQuery(query: string): Option<seq<(string, string)>> {
    var pieces := Split(query, '&');
    if pieces[0] != "" then None else Some(ParseSegments(pieces[1..]))
  }

  /** The part before the first '?' and the parameters after it. */
  function ParseRequestUri(uri: string): Option<(string, seq<(string, string)>)> {
    match SplitFirst(uri, '?')
    case None => None
    case Some(p) =>
      match ParseQuery(p.1)
      case None => None
      case Some(pairs) => Some((p.0, pairs))
  }

  // ---------------------------------------------------------------------
  // Lemmas
  // ---------------------------------------------------------------------

  /** Appending a parameter appends exactly one segment: the step of api_request's loop. */
  lemma {:induction false} QueryStringSnoc(params: Params, key: string, value: Param)
    ensures QueryString(params + [(key, value)]) == QueryString(params) + ("&" + key + "=" + Render(value))
  {
    var tail := "&" + key + "=" + Render(value);
    assert tail == "&" + Segment(key, value);
    if params == [] {
      assert [(key, value)][1..] == [];
      assert QueryString([(key, value)]) == "&" + Segment(key, value) + "";
    } else {
      var rest := params[1..];
      assert (params + [(key, value)])[1..] == rest + [(key, value)];
      QueryStringSnoc(rest, key, value);
      var head := "&" + Segment(params[0].0, params[0].1);
      calc {
        QueryString(params + [(key, value)]);
        head + QueryString(rest + [(key, value)]);
        head + (QueryString(rest) + tail);
        (head + QueryString(rest)) + tail;
        QueryString(params) + tail;
      }
    }
  }

  /** One step of building a request URI: the next parameter appended to the URI so far. */
  lemma QueryStringGrows(prefix: string, params: Params, i: nat)
    requires i < |params|
    ensures prefix + QueryString(params[..i]) + ("&" + params[i].0 + "=" + Render(params[i].1))
         == prefix + QueryString(params[..i + 1])
  {
    assert params[..i + 1] == params[..i] + [params[i]];
    QueryStringSnoc(params[..i], params[i].0, params[i].1);
  }

  lemma {:induction false} SplitAfterPlainPrefix(a: string, t: string, sep: char)
    requires sep !in a
    ensures Split(a + t, sep) == [a + Split(t, sep)[0]] + Split(t, sep)[1..]
    decreases |a|
  {
    if a == [] {
      var pieces := Split(t, sep);
      assert a + t == t;
      assert a + pieces[0] == pieces[0];
      assert [pieces[0]] + pieces[1..] == pieces;
    } else {
      assert (a + t)[0] == a[0];
      assert (a + t)[1..] == a[1..] + t;
      SplitAfterPlainPrefix(a[1..], t, sep);
      assert [a[0]] + (a[1..] + Split(t, sep)[0]) == a + Split(t, sep)[0];
    }
  }

  lemma {:induction false} SplitFirstAt(a: string, b: string, sep: char)
    requires sep !in a
    ensures SplitFirst(a + [sep] + b, sep) == Some((a, b))
    decreases |a|
  {
    if a == [] {
      assert a + [sep] + b == [sep] + b;
    } else {
      assert (a + [sep] + b)[1..] == a[1..] + [sep] + b;
      SplitFirstAt(a[1..], b, sep);
      assert [a[0]] + a[1..] == a;
    }
  }

  function Segments(params: Params): seq<string> {
    if params == [] then [] else [Segment(params[0].0, params[0].1)] + Segments(params[1..])
  }

  lemma {:induction false} SplitQueryString(params: Params)
    requires SafeParams(params)
    ensures Split(QueryString(params), '&') == [""] + Segments(params)
  {
    if params != [] {
      var seg := Segment(params[0].0, params[0].1);
      var rest := QueryString(params[1..]);
      assert '&' !in seg by {
        assert '&' !in params[0].0 && '&' !in Render(params[0].1);
      }
      assert SafeParams(params[1..]) by {
        forall i | 0 <= i < |params[1..]|
          ensures '&' !in params[1..][i].0 && '=' !in params[1..][i].0 && '&' !in Render(params[1..][i].1)
        {
          assert params[1..][i] == params[i + 1];
        }
      }
      SplitQueryString(params[1..]);
      SplitAfterPlainPrefix(seg, rest, '&');
      var q := QueryString(params);
      assert q == "&" + (seg + rest);
      assert q[0] == '&' && q[1..] == seg + rest;
      var tail := Split(rest, '&');
      assert tail[0] == "" && tail[1..] == Segments(params[1..]);
      calc {
        Split(q, '&');
        [""] + Split(seg + rest, '&');
        [""] + ([seg + tail[0]] + tail[1..]);
        { assert seg + tail[0] == seg; }
        [""] + ([seg] + Segments(params[1..]));
      }
    }
  }

  lemma {:induction false} ParseSegmentsOfParams(params: Params)
    requires SafeParams(params)
    ensures ParseSegments(Segments(params)) == Rendered(params)
  {
    if params != [] {
      var (key, value) := params[0];
      assert '=' !in key;
      SplitFirstAt(key, Render(value), '=');
      assert Segment(key, value) == key + ['='] + Render(value);
      assert SafeParams(params[1..]) by {
        forall i | 0 <= i < |params[1..]|
          ensures '&' !in params[1..][i].0 && '=' !in params[1..][i].0 && '&' !in Render(params[1..][i].1)
        {
          assert params[1..][i] == params[i + 1];
        }
      }
      ParseSegmentsOfParams(params[1..]);
      assert Segments(params)[1..] == Segments(params[1..]);
    }
  }

  /**
   * For safe parameters, the query string reads back as exactly one key=value
   * segment per parameter, in order, and nothing else.
   */
  lemma QueryStringRoundTrip(params: Params)
    requires SafeParams(params)
    ensures ParseQuery(QueryString(params)) == Some(Rendered(params))
  {
    SplitQueryString(params);
    ParseSegmentsOfParams(params);
    assert ([""] + Segments(params))[1..] == Segments(params);
  }

  lemma NoQuestionMarkInBase(version: string, cycle: int, endpoint: string)
    requires '?' !in version && '?' !in endpoint
    ensures '?' !in BaseUri(version, cycle, endpoint)
  {
    IntToStringIsPlain(cycle);
    var root := ApiRoot;
    forall i | 0 <= i < |root| ensures root[i] != '?' {
    }
    var fin := "/finances/";
    forall i | 0 <= i < |fin| ensures fin[i] != '?' {
    }
  }

  /**
   * When the version and the endpoint hold no '?' and the parameters are
   * safe (no '&' or '=' in a key, no '&' in a value), a built URI reads back
   * as its base (root, version, cycle, endpoint) and its parameters, one per
   * segment and in order.
   */
  lemma RequestUriRoundTrip(version: string, cycle: int, endpoint: string, params: Params)
    requires '?' !in version && '?' !in endpoint && SafeParams(params)
    ensures ParseRequestUri(RequestUri(version, cycle, endpoint, params))
         == Some((BaseUri(version, cycle, endpoint), Rendered(params)))
  {
    var base := BaseUri(version, cycle, endpoint);
    NoQuestionMarkInBase(version, cycle, endpoint);
    SplitFirstAt(base, QueryString(params), '?');
    assert RequestUri(version, cycle, endpoint, params) == base + ['?'] + QueryString(params);
    QueryStringRoundTrip(params);
  }

  /** The cycle segment of the base URI is the decimal form of the cycle. */
  lemma BaseUriCarriesCycle(version: string, cycle: int, endpoint: string)
    ensures var prefix := ApiRoot + version + "/finances/";
            var digits := IntToString(cycle);
            && BaseUri(version, cycle, endpoint)[|prefix| .. |prefix| + |digits|] == digits
            && IsIntLiteral(digits) && ParseInt(digits) == cycle
  {
    IntToStringRoundTrip(cycle);
    var prefix := ApiRoot + version + "/finances/";
    var digits := IntToString(cycle);
    assert BaseUri(version, cycle, endpoint) == prefix + digits + ("/" + endpoint);
  }

  /**
   * Values are not percent-encoded: a value of the form a&k=v produces the
   * same URI as two parameters, and reads back as a second parameter k that
   * the caller never passed.
   */
  lemma UnencodedValueForgesParameter(key: string, a: string, k: string, v: string)
    requires '&' !in key && '=' !in key && '&' !in a && '&' !in k && '=' !in k && '&' !in v
    ensures var forged := [(key, PStr(a + "&" + k + "=" + v))];
            && QueryString(forged) == QueryString([(key, PStr(a)), (k, PStr(v))])
            && ParseQuery(QueryString(forged)) == Some([(key, a), (k, v)])
            && Rendered(forged) != [(key, a), (k, v)]
  {
    var forged := [(key, PStr(a + "&" + k + "=" + v))];
    var two := [(key, PStr(a)), (k, PStr(v))];
    ForgedQueryString(key, a, k, v);
    QueryStringRoundTrip(two);
    assert two[1..] == [(k, PStr(v))] && two[1..][1..] == [];
    assert Rendered(two[1..]) == [(k, v)];
    assert Rendered(two) == [(key, a)] + [(k, v)] == [(key, a), (k, v)];
    assert ParseQuery(QueryString(forged)) == Some(Rendered(two));
    assert |Rendered(forged)| == 1 by {
      assert forged[1..] == [];
    }
  }

  /** The text of the forged parameter and of the two honest ones coincide. */
  lemma ForgedQueryString(key: string, a: string, k: string, v: string)
    ensures QueryString([(key, PStr(a + "&" + k + "=" + v))]) == QueryString([(key, PStr(a)), (k, PStr(v))])
  {
    var forged := [(key, PStr(a + "&" + k + "=" + v))];
    var two := [(key, PStr(a)), (k, PStr(v))];
    var first, second := "&" + (key + "=" + a), "&" + (k + "=" + v);
    assert forged[1..] == [] && two[1..][1..] == [];
    assert QueryString(two[1..]) == second + "";
    calc {
      QueryString(forged);
      "&" + (key + "=" + (a + "&" + k + "=" + v)) + "";
      first + second;
      first + (second + "");
      QueryString(two);
    }
  }
}
