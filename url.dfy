/**
 * The request URL `build_url` produces: the base URL, then `name=value&`
 * for every parameter whose value is not `None`, in the mapping's iteration
 * order, then `key=<api key>`. Nothing is percent-encoded and no `?` is
 * added. A decoder for such query strings gives the round trip that pins
 * the format down.
 */
module Url {
  import opened Wrappers

  /** One entry of the parameter mapping; `None` is Python's `None`. */
  type Param = (string, Option<string>)

  /** What one entry adds to the URL: `name=value&`, or nothing for `None`. */
  function Field(p: Param): string {
    if p.1.Some? then p.0 + "=" + p.1.value + "&" else ""
  }

  /** The entries' fields, in iteration order. */
  function Fields(ps: seq<Param>): string {
    if ps == [] then "" else Field(ps[0]) + Fields(ps[1..])
  }

  /** Everything `build_url` appends to the base URL. */
  function Query(ps: seq<Param>, apiKey: string): string {
    Fields(ps) + "key=" + apiKey
  }

  /** The URL `build_url` returns. */
  function Build(baseUrl: string, ps: seq<Param>, apiKey: string): (url: string)
    ensures |url| >= |baseUrl| + 4 + |apiKey|
    ensures url[..|baseUrl|] == baseUrl
    ensures url[|url| - 4 - |apiKey|..] == "key=" + apiKey
  {
    baseUrl + Query(ps, apiKey)
  }

  /** The `(name, value)` pairs of the entries that are not `None`, in order. */
  function Present(ps: seq<Param>): seq<(string, string)> {
    if ps == [] then []
    else if ps[0].1.Some? then [(ps[0].0, ps[0].1.value)] + Present(ps[1..])
    else Present(ps[1..])
  }

  /** Characters contributed by the present entries: `|name| + |value| + 2` each. */
  function Weight(ps: seq<Param>): nat {
    if ps == [] then 0
    else (if ps[0].1.Some? then |ps[0].0| + |ps[0].1.value| + 2 else 0) + Weight(ps[1..])
  }

  /** Only `None` is left out: an empty value still yields `name=&`. */
  lemma FieldOmitsOnlyNone(p: Param)
    ensures Field(p) == "" <==> p.1.None?
    ensures p.1 == Some("") ==> Field(p) == p.0 + "=&"
  {
    if p.1.Some? {
      assert |Field(p)| == |p.0| + |p.1.value| + 2;
    }
  }

  /** The fields of two runs of entries are the fields of each, one after the other. */
  lemma {:induction false} FieldsAppend(a: seq<Param>, b: seq<Param>)
    ensures Fields(a + b) == Fields(a) + Fields(b)
    decreases |a|
  {
    if a == [] {
      assert a + b == b;
    } else {
      assert (a + b)[0] == a[0];
      assert (a + b)[1..] == a[1..] + b;
      FieldsAppend(a[1..], b);
    }
  }

  /** A single entry's fields are its own field. */
  lemma FieldsSingle(p: Param)
    ensures Fields([p]) == Field(p)
  {
    assert [p][1..] == [];
  }

  /** The fields of `ps` split around entry `i`. */
  lemma {:induction false} FieldsSplit(ps: seq<Param>, i: nat)
    requires i < |ps|
    ensures Fields(ps) == Fields(ps[..i]) + Field(ps[i]) + Fields(ps[i + 1..])
  {
    var pre, mid, post := ps[..i], [ps[i]], ps[i + 1..];
    assert pre + mid + post == ps;
    FieldsAppend(pre + mid, post);
    FieldsAppend(pre, mid);
    FieldsSingle(ps[i]);
  }

  /**
   * Entry `i` contributes exactly its own field at its own place: the URL's
   * fields are those before it, then `name=value&` (or nothing for `None`),
   * then those after it.
   */
  lemma FieldsAt(ps: seq<Param>, i: nat)
    requires i < |ps|
    ensures ps[i].1.None? ==> Fields(ps) == Fields(ps[..i]) + Fields(ps[i + 1..])
    ensures ps[i].1.Some? ==>
      Fields(ps) == Fields(ps[..i]) + (ps[i].0 + "=" + ps[i].1.value + "&") + Fields(ps[i + 1..])
  {
    FieldsSplit(ps, i);
    if ps[i].1.None? {
      assert Fields(ps[..i]) + Field(ps[i]) == Fields(ps[..i]);
    }
  }

  /** The length of the fields is the sum of the present entries' weights. */
  lemma {:induction false} FieldsLength(ps: seq<Param>)
    ensures |Fields(ps)| == Weight(ps)
    decreases |ps|
  {
    if ps != [] {
      FieldsLength(ps[1..]);
    }
  }

  /**
   * The URL starts with the base URL and ends with `key=<api key>`, and its
   * length is the base, the present entries' weights, four, and the key.
   */
  lemma BuildShape(baseUrl: string, ps: seq<Param>, apiKey: string)
    ensures |Build(baseUrl, ps, apiKey)| == |baseUrl| + Weight(ps) + 4 + |apiKey|
    ensures Build(baseUrl, ps, apiKey)[..|baseUrl|] == baseUrl
    ensures Build(baseUrl, ps, apiKey)[|baseUrl| + Weight(ps)..] == "key=" + apiKey
  {
    FieldsLength(ps);
    assert Build(baseUrl, ps, apiKey) == (baseUrl + Fields(ps)) + ("key=" + apiKey);
  }

  /** With no entries, or only `None` ones, the URL is the base URL and the key alone. */
  lemma {:induction false} AllAbsent(baseUrl: string, ps: seq<Param>, apiKey: string)
    requires forall i :: 0 <= i < |ps| ==> ps[i].1.None?
    ensures Build(baseUrl, ps, apiKey) == baseUrl + "key=" + apiKey
    ensures Present(ps) == []
    decreases |ps|
  {
    if ps != [] {
      assert ps[0].1.None?;
      AllAbsent(baseUrl, ps[1..], apiKey);
    }
  }

  // ---- Reading a query string back ----

  /** `s` cut at every occurrence of `c` (Python's `s.split(c)`). */
  function Split(s: string, c: char): (r: seq<string>)
    ensures |r| >= 1
    decreases |s|
  {
    if s == [] then [""]
    else if s[0] == c then [""] + Split(s[1..], c)
    else
      var rest := Split(s[1..], c);
      [[s[0]] + rest[0]] + rest[1..]
  }

  /** `s` cut at the first occurrence of `c`; all of `s` and `""` when there is none. */
  function Cut(s: string, c: char): (string, string)
    decreases |s|
  {
    if s == [] then ("", "")
    else if s[0] == c then ("", s[1..])
    else
      var (a, b) := Cut(s[1..], c);
      ([s[0]] + a, b)
  }

  /** Each segment read as a `name=value` pair. */
  function Pairs(segments: seq<string>): seq<(string, string)> {
    if segments == [] then [] else [Cut(segments[0], '=')] + Pairs(segments[1..])
  }

  /** A query string read back as its `name=value` pairs. */
  function Decode(query: string): seq<(string, string)> {
    Pairs(Split(query, '&'))
  }

  /** Names free of `&` and `=`, values and key free of `&`: what verbatim insertion needs to stay readable. */
  predicate Plain(ps: seq<Param>, apiKey: string) {
    '&' !in apiKey &&
    forall i :: 0 <= i < |ps| ==>
      '&' !in ps[i].0 && '=' !in ps[i].0 && (ps[i].1.Some? ==> '&' !in ps[i].1.value)
  }

  lemma {:induction false} SplitWithout(a: string, c: char)
    requires c !in a
    ensures Split(a, c) == [a]
    decreases |a|
  {
    if a != [] {
      SplitWithout(a[1..], c);
      assert [a[0]] + a[1..] == a;
    }
  }

  lemma {:induction false} SplitFirst(a: string, c: char, b: string)
    requires c !in a
    ensures Split(a + [c] + b, c) == [a] + Split(b, c)
    decreases |a|
  {
    if a == [] {
      assert (a + [c] + b)[1..] == b;
    } else {
      assert (a + [c] + b)[1..] == a[1..] + [c] + b;
      SplitFirst(a[1..], c, b);
      assert [a[0]] + a[1..] == a;
    }
  }

  lemma {:induction false} CutFirst(a: string, c: char, b: string)
    requires c !in a
    ensures Cut(a + [c] + b, c) == (a, b)
    decreases |a|
  {
    if a == [] {
      assert (a + [c] + b)[1..] == b;
    } else {
      assert (a + [c] + b)[1..] == a[1..] + [c] + b;
      CutFirst(a[1..], c, b);
      assert [a[0]] + a[1..] == a;
    }
  }

  /**
   * Round trip: when no name holds `&` or `=` and no value or key holds `&`,
   * reading the query back gives the present entries in order, then
   * `("key", api key)`.
   */
  lemma {:induction false} QueryRoundTrip(ps: seq<Param>, apiKey: string)
    requires Plain(ps, apiKey)
    ensures Decode(Query(ps, apiKey)) == Present(ps) + [("key", apiKey)]
    decreases |ps|
  {
    if ps == [] {
      assert Query(ps, apiKey) == "key" + ['='] + apiKey;
      SplitWithout("key" + ['='] + apiKey, '&');
      CutFirst("key", '=', apiKey);
      assert Pairs(["key" + ['='] + apiKey]) == [Cut("key" + ['='] + apiKey, '=')] + Pairs([]);
    } else {
      assert Plain(ps[1..], apiKey) by {
        forall i | 0 <= i < |ps[1..]|
          ensures '&' !in ps[1..][i].0 && '=' !in ps[1..][i].0
          ensures ps[1..][i].1.Some? ==> '&' !in ps[1..][i].1.value
        {
          assert ps[1..][i] == ps[i + 1];
        }
      }
      QueryRoundTrip(ps[1..], apiKey);
      var rest := Query(ps[1..], apiKey);
      assert Query(ps, apiKey) == Field(ps[0]) + rest;
      if ps[0].1.Some? {
        var name, value := ps[0].0, ps[0].1.value;
        var seg := name + ['='] + value;
        assert '&' !in name && '=' !in name && '&' !in value;
        assert Query(ps, apiKey) == seg + ['&'] + rest;
        SplitFirst(seg, '&', rest);
        CutFirst(name, '=', value);
        assert Decode(Query(ps, apiKey)) == [Cut(seg, '=')] + Pairs(Split(rest, '&'));
        assert Present(ps) == [(name, value)] + Present(ps[1..]);
        assert Decode(rest) == Present(ps[1..]) + [("key", apiKey)];
      } else {
        assert Query(ps, apiKey) == rest;
        assert Present(ps) == Present(ps[1..]);
      }
    }
  }

  /** The same round trip, read from the URL past the base. */
  lemma BuildRoundTrip(baseUrl: string, ps: seq<Param>, apiKey: string)
    requires Plain(ps, apiKey)
    ensures Decode(Build(baseUrl, ps, apiKey)[|baseUrl|..]) == Present(ps) + [("key", apiKey)]
  {
    assert Build(baseUrl, ps, apiKey)[|baseUrl|..] == Query(ps, apiKey);
    QueryRoundTrip(ps, apiKey);
  }

  /**
   * Without encoding, a value holding `&` does not survive: `q` = `a&b`
   * reads back as `q` = `a` and a stray parameter `b`.
   */
  lemma AmpersandSplitsValue(apiKey: string)
    requires '&' !in apiKey
    ensures Decode(Query([("q", Some("a&b"))], apiKey)) == [("q", "a"), ("b", ""), ("key", apiKey)]
  {
    var tail := "key" + ['='] + apiKey;
    assert Fields([("q", Some("a&b"))]) == "q=a&b&";
    assert Query([("q", Some("a&b"))], apiKey) == "q=a" + ['&'] + ("b" + ['&'] + tail);
    SplitFirst("q=a", '&', "b" + ['&'] + tail);
    SplitFirst("b", '&', tail);
    SplitWithout(tail, '&');
    CutFirst("q", '=', "a");
    CutFirst("key", '=', apiKey);
    assert "b"[1..] == [] && Cut("b"[1..], '=') == ("", "");
    assert ['b'] + "" == "b";
    assert Cut("b", '=') == ("b", "");
    assert Split(Query([("q", Some("a&b"))], apiKey), '&') == ["q=a", "b", tail];
    assert Pairs([tail]) == [Cut(tail, '=')];
    assert Pairs(["b", tail]) == [Cut("b", '=')] + Pairs([tail]);
    assert Pairs(["q=a", "b", tail]) == [Cut("q=a", '=')] + Pairs(["b", tail]);
  }
}
