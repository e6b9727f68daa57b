/** The browser address as the hook sees it: a pathname and the query
    parameters. It reads two tokens from it (`getCurrentUrlParams`) and
    writes one query parameter (`searchParams.set` + `replaceState`). */
module Location {
  import opened Accounts
  import Text

  /** The default for both the query parameter name and the path marker. */
  const DefaultParamName := "account"

  /** A navigable address: `url.pathname` and `url.searchParams`. */
  datatype Address = Address(pathname: string, query: map<string, string>)

  /** The two tokens read from the address. */
  datatype UrlParams = UrlParams(searchParam: Option<string>, pathParam: Option<string>)

  /** JavaScript truthiness of a `string | null`: present and non-empty. */
  predicate Truthy(s: Option<string>)
  {
    s.Some? && s.value != ""
  }

  /** `url.searchParams.get(name)`. */
  function QueryGet(address: Address, name: string): (r: Option<string>)
    ensures r.Some? <==> name in address.query
    ensures r.Some? ==> r.value == address.query[name]
  {
    if name in address.query then Some(address.query[name]) else None
  }

  /** `url.pathname.split('/').filter(Boolean)`. */
  function Segments(pathname: string): (segs: seq<string>)
    ensures forall s :: s in segs ==> s != "" && '/' !in s
  {
    Text.NonEmpty(Text.Split(pathname, '/'))
  }

  /** The segment right after the first occurrence of `marker`. */
  ghost predicate FollowsFirstMarker(segs: seq<string>, marker: string, token: string)
  {
    exists k :: 0 <= k < |segs| - 1 && segs[k] == marker && marker !in segs[..k] && segs[k + 1] == token
  }

  /** The only occurrence of `marker` is the last segment. */
  predicate FirstMarkerIsLast(segs: seq<string>, marker: string)
  {
    |segs| > 0 && segs[|segs| - 1] == marker && marker !in segs[..|segs| - 1]
  }

  /** The path token: the segment after the first segment equal to
      `marker`, or nothing when there is no marker or it is the last
      segment. */
  function PathToken(pathname: string, marker: string): (t: Option<string>)
    ensures t.Some? ==> t.value != "" && '/' !in t.value
    ensures t.Some? ==> FollowsFirstMarker(Segments(pathname), marker, t.value)
    ensures t.None? <==> marker !in Segments(pathname) || FirstMarkerIsLast(Segments(pathname), marker)
  {
    var segs := Segments(pathname);
    var k := Text.IndexOf(segs, marker);
    // `pathSegments[k + 1]` is truthy exactly when it exists: the filter
    // has already removed every empty segment.
    if k != -1 && k + 1 < |segs| then
      assert segs[k + 1] in segs;
      Some(segs[k + 1])
    else
      assert k != -1 ==> k == |segs| - 1 && segs[..k] == segs[..|segs| - 1];
      None
  }

  /** `getCurrentUrlParams`; `None` stands for "no window" (server-side
      rendering), where both tokens are absent. */
  function GetCurrentUrlParams(location: Option<Address>, urlParamName: string, pathParamName: string): (p: UrlParams)
    ensures location.None? ==> p.searchParam.None? && p.pathParam.None?
    ensures location.Some? ==> p.searchParam == QueryGet(location.value, urlParamName)
    ensures location.Some? ==> p.pathParam == PathToken(location.value.pathname, pathParamName)
  {
    match location
    case None => UrlParams(None, None)
    case Some(address) => UrlParams(QueryGet(address, urlParamName), PathToken(address.pathname, pathParamName))
  }

  /** `searchParam || pathParam`: an empty or absent query token falls
      through to the path token. */
  function UrlAlias(p: UrlParams): (r: Option<string>)
    ensures Truthy(r) <==> Truthy(p.searchParam) || Truthy(p.pathParam)
    ensures Truthy(p.searchParam) ==> r == p.searchParam
    ensures !Truthy(p.searchParam) ==> r == p.pathParam
  {
    if Truthy(p.searchParam) then p.searchParam else p.pathParam
  }

  /** `url.searchParams.set(name, value)` followed by `replaceState`: the
      same address with one query parameter overwritten. */
  function WithQueryParam(address: Address, name: string, value: string): (r: Address)
    ensures r.pathname == address.pathname
    ensures QueryGet(r, name) == Some(value)
    ensures forall other :: other != name ==> QueryGet(r, other) == QueryGet(address, other)
  {
    Address(address.pathname, address.query[name := value])
  }

  /** A pathname built from separator-free, non-empty segments reads back
      as exactly those segments. */
  lemma SegmentsOfJoined(segs: seq<string>)
    requires |segs| >= 1
    requires forall s :: s in segs ==> s != "" && '/' !in s
    ensures Segments("/" + Text.Join(segs, '/')) == segs
  {
    var parts := [""] + segs;
    assert parts[1..] == segs;
    assert Text.Join(parts, '/') == "/" + Text.Join(segs, '/');
    Text.SplitJoin(parts, '/');
    Text.NonEmptyKeepsAll(segs);
  }

  /** The segments of `a/b` are those of `a` followed by those of `b`, so
      repeated or trailing slashes add nothing and order is kept. */
  lemma SegmentsConcat(a: string, b: string)
    ensures Segments(a + "/" + b) == Segments(a) + Segments(b)
  {
    Text.SplitConcat(a, b, '/');
    Text.NonEmptyAppend(Text.Split(a, '/'), Text.Split(b, '/'));
  }

  /** A non-empty string without `/` is a single segment; the empty string
      has none. */
  lemma SegmentsOfPiece(piece: string)
    requires '/' !in piece
    ensures Segments(piece) == if piece == "" then [] else [piece]
  {
    Text.SplitNoSeparator(piece, '/');
    Text.NonEmptySingle(piece);
  }

  /** A trailing slash adds no segment. */
  lemma TrailingSlash(pathname: string)
    ensures Segments(pathname + "/") == Segments(pathname)
  {
    SegmentsConcat(pathname, "");
    SegmentsOfPiece("");
    assert pathname + "/" + "" == pathname + "/";
  }

  /** A doubled slash reads like a single one. */
  lemma DoubleSlash(a: string, b: string)
    ensures Segments(a + "//" + b) == Segments(a + "/" + b)
  {
    SegmentsConcat(a, "/" + b);
    SegmentsConcat(a, b);
    SegmentsConcat("", b);
    SegmentsOfPiece("");
    assert a + "//" + b == a + "/" + ("/" + b);
    assert "" + "/" + b == "/" + b;
  }

  /** Slashes that add no segment leave the path token alone:
      `/account/work/` and `/account//work` read like `/account/work`. */
  lemma PathTokenIgnoresExtraSlashes(pathname: string, a: string, b: string, marker: string)
    ensures PathToken(pathname + "/", marker) == PathToken(pathname, marker)
    ensures PathToken(a + "//" + b, marker) == PathToken(a + "/" + b, marker)
  {
    TrailingSlash(pathname);
    DoubleSlash(a, b);
  }

  /** The root path `/` has no segments, hence no path token. */
  lemma RootHasNoSegments()
    ensures Segments("/") == []
  {
    assert Text.Join(["", ""], '/') == "/";
    Text.SplitJoin(["", ""], '/');
  }

  /** `/account/work/dashboard` yields `work`. */
  lemma PathTokenExample()
    ensures PathToken("/account/work/dashboard", "account") == Some("work")
  {
    var segs := ["account", "work", "dashboard"];
    assert Text.Join(segs[2..], '/') == "dashboard";
    assert Text.Join(segs[1..], '/') == "work/dashboard";
    assert "/" + Text.Join(segs, '/') == "/account/work/dashboard";
    SegmentsOfJoined(segs);
    assert Segments("/account/work/dashboard") == segs;
    assert Text.IndexOf(segs, "account") == 0;
  }
}
