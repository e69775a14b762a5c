/**
 * The `name=value` parameters of a URL query, joined with '&', and the
 * reading of a query back into its parameters. The controller builds its
 * URLs by plain string concatenation, without escaping; reading back is
 * exact as long as no name holds '&' or '=' and no value holds '&'.
 */
module QueryString {
  import opened Wrappers

  datatype Param = Param(name: string, value: string)

  /** A parameter that survives being written into a query and read back. */
  predicate Plain(p: Param) {
    '&' !in p.name && '=' !in p.name && '&' !in p.value
  }

  predicate StartsWith(s: string, prefix: string) {
    |prefix| <= |s| && s[..|prefix|] == prefix
  }

  predicate EndsWith(s: string, suffix: string) {
    |suffix| <= |s| && s[|s| - |suffix|..] == suffix
  }

  function Pair(p: Param): string {
    p.name + "=" + p.value
  }

  function Pairs(ps: seq<Param>): (ss: seq<string>)
    ensures |ss| == |ps|
    ensures forall i :: 0 <= i < |ps| ==> ss[i] == Pair(ps[i])
  {
    if ps == [] then [] else [Pair(ps[0])] + Pairs(ps[1..])
  }

  /** "&name=value" for each parameter, in order. */
  function Render(ps: seq<Param>): string {
    if ps == [] then "" else "&" + Pair(ps[0]) + Render(ps[1..])
  }

  /** The query text of a URL: the parameters joined with '&'. */
  function QueryText(ps: seq<Param>): string
    requires |ps| > 0
  {
    Pair(ps[0]) + Render(ps[1..])
  }

  /** The pieces of s between occurrences of '&' (always at least one). */
  function Split(s: string): (parts: seq<string>)
    ensures |parts| > 0
  {
    if s == [] then [""]
    else
      var rest := Split(s[1..]);
      if s[0] == '&' then [""] + rest else [[s[0]] + rest[0]] + rest[1..]
  }

  /** The position of the first c in s, if any. */
  function IndexOf(s: string, c: char): (r: Option<nat>)
    ensures r.Some? ==> r.value < |s| && s[r.value] == c && c !in s[..r.value]
    ensures r.None? ==> c !in s
  {
    if s == [] then None
    else if s[0] == c then Some(0)
    else
      match IndexOf(s[1..], c)
      case None => None
      case Some(i) => Some(i + 1)
  }

  /** Reads one piece as a parameter, splitting at its first '='. */
  function ParsePair(piece: string): Option<Param> {
    match IndexOf(piece, '=')
    case None => None
    case Some(i) => Some(Param(piece[..i], piece[i + 1..]))
  }

  function ParsePairs(pieces: seq<string>): (r: Option<seq<Param>>)
    ensures r.Some? ==> |r.value| == |pieces|
  {
    if pieces == [] then Some([])
    else
      match (ParsePair(pieces[0]), ParsePairs(pieces[1..]))
      case (Some(p), Some(ps)) => Some([p] + ps)
      case _ => None
  }

  /** Reads a query text back into its parameters. */
  function ParseQueryText(s: string): Option<seq<Param>> {
    ParsePairs(Split(s))
  }

  lemma RenderCons(p: Param, ps: seq<Param>)
    ensures Render([p] + ps) == "&" + Pair(p) + Render(ps)
  {
    assert ([p] + ps)[1..] == ps;
  }

  lemma RenderOne(p: Param)
    ensures Render([p]) == "&" + p.name + "=" + p.value
  {
    RenderCons(p, []);
    assert [p] + [] == [p];
  }

  lemma RenderAppend(a: seq<Param>, b: seq<Param>)
    ensures Render(a + b) == Render(a) + Render(b)
  {
    if a == [] {
      assert a + b == b;
    } else {
      assert (a + b)[1..] == a[1..] + b;
      RenderAppend(a[1..], b);
    }
  }

  lemma {:induction false} SplitAfterPlain(x: string, s: string)
    requires '&' !in x
    ensures Split(x + s) == [x + Split(s)[0]] + Split(s)[1..]
  {
    if x == [] {
      assert x + s == s;
      assert x + Split(s)[0] == Split(s)[0];
      assert [Split(s)[0]] + Split(s)[1..] == Split(s);
    } else {
      assert (x + s)[0] == x[0];
      assert (x + s)[1..] == x[1..] + s;
      SplitAfterPlain(x[1..], s);
      assert [x[0]] + (x[1..] + Split(s)[0]) == x + Split(s)[0];
    }
  }

  lemma {:induction false} SplitRender(x: string, ps: seq<Param>)
    requires '&' !in x
    requires forall i :: 0 <= i < |ps| ==> Plain(ps[i])
    ensures Split(x + Render(ps)) == [x] + Pairs(ps)
    decreases ps
  {
    if ps == [] {
      assert x + Render(ps) == x;
      SplitAfterPlain(x, "");
      assert x + "" == x;
    } else {
      var y := Pair(ps[0]) + Render(ps[1..]);
      assert '&' !in Pair(ps[0]);
      assert Render(ps) == "&" + y;
      SplitAfterPlain(x, "&" + y);
      assert ("&" + y)[1..] == y;
      SplitRender(Pair(ps[0]), ps[1..]);
      assert Split("&" + y) == [""] + Split(y);
      assert x + "" == x;
    }
  }

  lemma {:induction false} IndexOfAfterName(name: string, value: string)
    requires '=' !in name
    ensures IndexOf(name + "=" + value, '=') == Some(|name|)
  {
    if name != [] {
      var s := name + "=" + value;
      assert s[1..] == name[1..] + "=" + value;
      IndexOfAfterName(name[1..], value);
    }
  }

  lemma {:induction false} ParsePairsOfPairs(ps: seq<Param>)
    requires forall i :: 0 <= i < |ps| ==> Plain(ps[i])
    ensures ParsePairs(Pairs(ps)) == Some(ps)
  {
    if ps != [] {
      var p := ps[0];
      IndexOfAfterName(p.name, p.value);
      var piece := Pair(p);
      assert piece[..|p.name|] == p.name && piece[|p.name| + 1..] == p.value;
      assert Pairs(ps)[1..] == Pairs(ps[1..]);
      ParsePairsOfPairs(ps[1..]);
      assert [p] + ps[1..] == ps;
    }
  }

  /** Reading back a query text written from plain parameters gives those parameters. */
  lemma QueryTextRoundTrip(ps: seq<Param>)
    requires |ps| > 0
    requires forall i :: 0 <= i < |ps| ==> Plain(ps[i])
    ensures ParseQueryText(QueryText(ps)) == Some(ps)
  {
    SplitRender(Pair(ps[0]), ps[1..]);
    assert [Pair(ps[0])] + Pairs(ps[1..]) == Pairs(ps);
    ParsePairsOfPairs(ps);
  }
}
