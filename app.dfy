/**
 * The URI router of the application kernel: the request path is kept as
 * the `uri` field, and a controller reads its path parameters as the
 * `/`-separated segments that follow the leading character.
 */
module App {
  import opened Strings

  /** The part of the application state the router reads. */
  datatype Application = Application(uri: string)

  /** The default request path of a kernel built without one. */
  const DefaultUri: string := "/"

  /** Building the kernel records the request path as given. */
  function Create(uri: string := DefaultUri): (a: Application)
    ensures a.uri == uri
  {
    Application(uri)
  }

  /** PHP `substr(s, 1)`: everything after the first character; the empty
      string when there is none. */
  function DropFirst(s: string): (r: string)
    ensures |s| == 0 ==> r == ""
    ensures |s| > 0 ==> [s[0]] + r == s
  {
    if |s| == 0 then "" else s[1..]
  }

  /** The path parameters: the text after the first character, cut at every
      `/`. */
  function Segments(app: Application): (r: seq<string>)
    ensures |r| >= 1
  {
    Split(DropFirst(app.uri), '/')
  }

  /** Parameter `num` of the request path, or the empty string when the
      path has no such segment. */
  function GetUriParam(app: Application, num: int): (r: string)
    ensures 0 <= num < |Segments(app)| ==> r == Segments(app)[num]
    ensures (num < 0 || num >= |Segments(app)|) ==> r == ""
    ensures '/' !in r
  {
    var params := Segments(app);
    if 0 <= num < |params| then params[num] else ""
  }

  /** The parameters, read one by one from index 0 up to the segment count,
      glue back with `/` into the path after its first character. */
  lemma {:induction false} ParamsRebuildPath(app: Application, params: seq<string>)
    requires |params| == |Segments(app)|
    requires forall i :: 0 <= i < |params| ==> params[i] == GetUriParam(app, i)
    ensures Join(params, "/") == DropFirst(app.uri)
  {
    var segs := Segments(app);
    assert params == segs;
    JoinSplit(DropFirst(app.uri), '/');
    assert "/" == ['/'];
  }

  /** A path `/p` whose remainder holds no `/` has exactly one parameter,
      `p` itself; every other parameter is empty. */
  lemma SingleSegment(app: Application, p: string)
    requires |app.uri| >= 1 && app.uri[1..] == p && '/' !in p
    ensures GetUriParam(app, 0) == p
    ensures forall n :: n != 0 ==> GetUriParam(app, n) == ""
  {
    SplitSingle(p, '/');
  }

  /** The kernel built with the default path `/` has no parameters: every
      one of them reads as the empty string. */
  lemma {:induction false} DefaultHasNoParams(num: int)
    ensures GetUriParam(Create(), num) == ""
  {
    var app := Create();
    assert app.uri == DefaultUri;
    assert DropFirst(app.uri) == "";
    assert Segments(app) == [""];
  }

  /** A path `/a/b`, with neither segment holding `/`, has parameters `a`
      and `b` and no others. */
  lemma TwoSegments(app: Application, a: string, b: string)
    requires |app.uri| >= 1 && app.uri[1..] == a + "/" + b
    requires '/' !in a && '/' !in b
    ensures GetUriParam(app, 0) == a && GetUriParam(app, 1) == b
    ensures forall n :: n != 0 && n != 1 ==> GetUriParam(app, n) == ""
  {
    SplitPrefix(a, '/', b);
    SplitSingle(b, '/');
  }
}
