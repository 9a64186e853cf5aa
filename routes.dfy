/** The sub-stream page route `/streams/:streamSlug/substreams/:subStreamSlug`
    (frontend/src/App.jsx): the path the client builds for a pair of slugs,
    and the slugs the router reads back out of a path. A route parameter is
    one non-empty path segment. */
module Routes {
  import opened Records

  /** The route parameters of a sub-stream page. */
  datatype SubStreamParams = SubStreamParams(streamSlug: string, subStreamSlug: string)

  /** `/streams/${a}/substreams/${b}`. */
  function SubStreamPath(a: string, b: string): string {
    "/streams/" + a + "/substreams/" + b
  }

  /** The index of the first '/' in `s`, or `|s|` when there is none. */
  function FirstSlash(s: string): (i: nat)
    ensures i <= |s|
    ensures forall k :: 0 <= k < i ==> s[k] != '/'
    ensures i < |s| ==> s[i] == '/'
  {
    if s == [] then 0
    else if s[0] == '/' then 0
    else 1 + FirstSlash(s[1..])
  }

  /** The '/'-separated segments of a path. */
  function Segments(s: string): (r: seq<string>)
    ensures |r| >= 1
    decreases |s|
  {
    var i := FirstSlash(s);
    if i == |s| then [s] else [s[..i]] + Segments(s[i + 1..])
  }

  /** The router's match of the sub-stream route. */
  function MatchSubStream(path: string): Option<SubStreamParams> {
    var segs := Segments(path);
    if |segs| == 5 && segs[0] == "" && segs[1] == "streams" && segs[3] == "substreams"
       && segs[2] != "" && segs[4] != ""
    then Some(SubStreamParams(segs[2], segs[4]))
    else None
  }

  /** A segment without '/' followed by '/' splits off as one segment. */
  lemma SegmentsCons(a: string, rest: string)
    requires '/' !in a
    ensures Segments(a + "/" + rest) == [a] + Segments(rest)
  {
    var s := a + "/" + rest;
    assert forall k :: 0 <= k < |a| ==> s[k] == a[k];
    assert s[|a|] == '/';
    assert FirstSlash(s) == |a|;
    assert s[..|a|] == a;
    assert s[|a| + 1..] == rest;
  }

  /** Pieces joined by '/'. */
  function Join(xs: seq<string>): string
    requires |xs| >= 1
  {
    if |xs| == 1 then xs[0] else xs[0] + "/" + Join(xs[1..])
  }

  /** Slash-free pieces joined by '/' split back into those pieces. */
  lemma {:induction false} SegmentsJoin(xs: seq<string>)
    requires |xs| >= 1 && forall i :: 0 <= i < |xs| ==> '/' !in xs[i]
    ensures Segments(Join(xs)) == xs
  {
    if |xs| > 1 {
      SegmentsJoin(xs[1..]);
      SegmentsCons(xs[0], Join(xs[1..]));
    }
  }

  /** The built path is its five route segments joined by '/'. */
  lemma SubStreamPathJoin(a: string, b: string)
    ensures SubStreamPath(a, b) == Join(["", "streams", a, "substreams", b])
  {
    var xs := ["", "streams", a, "substreams", b];
    assert Join(xs[4..]) == b;
    assert Join(xs[3..]) == "substreams" + "/" + b by { assert xs[3..][1..] == xs[4..]; }
    assert Join(xs[2..]) == a + "/" + Join(xs[3..]) by { assert xs[2..][1..] == xs[3..]; }
    assert Join(xs[1..]) == "streams" + "/" + Join(xs[2..]) by { assert xs[1..][1..] == xs[2..]; }
    assert Join(xs) == "" + "/" + Join(xs[1..]);
    assert "/streams/" == "/" + "streams" + "/";
    assert "/substreams/" == "/" + "substreams" + "/";
  }

  /** A slug the router reads back unchanged: non-empty, and free of the
      path separator '/', of '?' and '#' (which start the query and the
      fragment of a link) and of '%' (which starts a percent-escape). */
  predicate PlainSlug(s: string) {
    s != "" && '/' !in s && '?' !in s && '#' !in s && '%' !in s
  }

  /** The router reads back the slugs the link was built from, when both are
      plain. */
  lemma MatchSubStreamPath(a: string, b: string)
    requires PlainSlug(a) && PlainSlug(b)
    ensures MatchSubStream(SubStreamPath(a, b)) == Some(SubStreamParams(a, b))
  {
    SubStreamPathJoin(a, b);
    SegmentsJoin(["", "streams", a, "substreams", b]);
  }

  /** An empty stream slug leaves an empty segment, which the route does not
      match. */
  lemma EmptySlugUnmatched(b: string)
    requires '/' !in b
    ensures MatchSubStream(SubStreamPath("", b)).None?
  {
    SubStreamPathJoin("", b);
    SegmentsJoin(["", "streams", "", "substreams", b]);
  }
}
