/** The client-side router: how a URL opened in the browser (for instance by
    scanning a QR code) becomes a page and its route parameters. Two route
    tables are declared in the repository: the batch application's
    (src/routes/AppRoutes.jsx) and the employee application's (src/App.jsx). */
module Routing {
  import opened Wrappers
  import opened Text

  /** One segment of a route pattern: a literal, a `:name` parameter or `*`. */
  datatype Segment = Lit(text: string) | Param(name: string) | Splat

  datatype Route<P> = Route(pattern: seq<Segment>, page: P)

  datatype RouteMatch<P> = RouteMatch(page: P, params: map<string, string>)

  /** A path segment the browser's URL parser keeps as it is: not empty, not
      a dot segment ("." or "..", which the parser removes), and without a
      character that ends a segment (`/`, and `\` in an `http:` URL), starts
      the query or fragment, starts a percent escape, or is stripped (tab and
      newlines). */
  predicate PlainSegment(s: string)
  {
    s != "" && s != "." && s != ".." && forall i :: 0 <= i < |s| ==> s[i] !in "/?#%\\\t\n\r"
  }

  /** The decimal text of a number, such as a numeric record id, is one
      plain segment. */
  lemma DecimalIsPlain(n: nat)
    ensures PlainSegment(NatToDecimal(n))
  {
    var d := NatToDecimal(n);
    assert |d| > 0 && IsDigit(d[0]);
    forall i | 0 <= i < |d| ensures d[i] !in "/?#%\\\t\n\r" {
      assert IsDigit(d[i]);
    }
  }

  /** An authority (`host:port`) that does not run into the path. */
  predicate PlainAuthority(s: string)
  {
    forall i :: 0 <= i < |s| ==> s[i] !in "/?#\\"
  }

  const Http := "http://"

  /** What follows the authority: from the first '/', '?' or '#' on. */
  function AfterAuthority(s: string): (r: string)
    ensures |r| <= |s|
  {
    if s == [] then []
    else if s[0] in "/?#" then s
    else AfterAuthority(s[1..])
  }

  /** The path part: everything before the first '?' or '#'. */
  function PathPart(s: string): (r: string)
    ensures |r| <= |s|
  {
    if s == [] || s[0] in "?#" then [] else [s[0]] + PathPart(s[1..])
  }

  /** The path part of an `http:` URL as written, from the end of the
      authority to the first '?' or '#'; `None` for any other text. This is
      `new URL(url).pathname` only when the path needs none of the parser's
      rewriting (dot-segment removal, `\` read as `/`, percent-encoding);
      the round-trip lemmas use it only on paths made of `PlainSegment`s,
      where the two agree. */
  function Pathname(url: string): Option<string>
  {
    if |url| >= |Http| && url[..|Http|] == Http then
      var path := PathPart(AfterAuthority(url[|Http|..]));
      Some(if path == "" then "/" else path)
    else None
  }

  function NonEmpty(parts: seq<string>): (r: seq<string>)
    ensures forall i :: 0 <= i < |r| ==> r[i] != ""
  {
    if parts == [] then []
    else (if parts[0] == "" then [] else [parts[0]]) + NonEmpty(parts[1..])
  }

  /** The path's segments, as the router compares them with a pattern. */
  function Segments(path: string): seq<string>
  {
    NonEmpty(Split(path, "/"))
  }

  function MatchPattern(pattern: seq<Segment>, segs: seq<string>): Option<map<string, string>>
    decreases |pattern|
  {
    if pattern == [] then
      if segs == [] then Some(map[]) else None
    else match pattern[0]
      case Splat => Some(map["*" := Join(segs, "/")])
      case Lit(t) =>
        if segs != [] && segs[0] == t then MatchPattern(pattern[1..], segs[1..]) else None
      case Param(n) =>
        if segs == [] then None
        else match MatchPattern(pattern[1..], segs[1..])
          case None => None
          case Some(m) => Some(m[n := segs[0]])
  }

  /** The first route of the table that matches; the tables below are listed
      in the router's ranking order, so the first match is the one it picks.
      The ensures only places the page in the table; ResolveFrom and
      ResolveAt state the first-match rule itself. */
  function Resolve<P>(table: seq<Route<P>>, segs: seq<string>): (r: Option<RouteMatch<P>>)
    ensures r.Some? ==> exists i :: 0 <= i < |table| && table[i].page == r.value.page
  {
    if table == [] then None
    else match MatchPattern(table[0].pattern, segs)
      case Some(m) => Some(RouteMatch(table[0].page, m))
      case None =>
        var r := Resolve(table[1..], segs);
        assert r.Some? ==> exists i :: 1 <= i < |table| && table[i].page == r.value.page by {
          if r.Some? {
            var i :| 0 <= i < |table[1..]| && table[1..][i].page == r.value.page;
            assert table[i + 1].page == r.value.page;
          }
        }
        r
  }

  function ResolvePath<P>(table: seq<Route<P>>, path: string): Option<RouteMatch<P>>
  {
    Resolve(table, Segments(path))
  }

  function ResolveUrl<P>(table: seq<Route<P>>, url: string): Option<RouteMatch<P>>
  {
    match Pathname(url)
    case None => None
    case Some(path) => ResolvePath(table, path)
  }

  /** A pattern that starts with a literal other than the first segment
      matches nothing. */
  lemma LiteralMismatch(pattern: seq<Segment>, segs: seq<string>)
    requires pattern != [] && pattern[0].Lit?
    requires segs == [] || segs[0] != pattern[0].text
    ensures MatchPattern(pattern, segs).None?
  {
  }

  /** Routes that do not match are passed over: resolution starts at the
      first route that could match. */
  lemma {:induction false} ResolveFrom<P>(table: seq<Route<P>>, k: nat, segs: seq<string>)
    requires k <= |table|
    requires forall i :: 0 <= i < k ==> MatchPattern(table[i].pattern, segs).None?
    ensures Resolve(table, segs) == Resolve(table[k..], segs)
  {
    if k > 0 {
      assert MatchPattern(table[0].pattern, segs).None?;
      ResolveFrom(table[1..], k - 1, segs);
      assert table[1..][k - 1..] == table[k..];
    }
  }

  /** The first route that matches is the one resolved. */
  lemma ResolveAt<P>(table: seq<Route<P>>, k: nat, segs: seq<string>, m: map<string, string>)
    requires k < |table|
    requires forall i :: 0 <= i < k ==> MatchPattern(table[i].pattern, segs).None?
    requires MatchPattern(table[k].pattern, segs) == Some(m)
    ensures Resolve(table, segs) == Some(RouteMatch(table[k].page, m))
  {
    ResolveFrom(table, k, segs);
    assert table[k..][0] == table[k];
  }

  /** Pages of the batch application (src/routes/AppRoutes.jsx). */
  datatype BatchPage =
    | Dashboard | ProductMaster | BatchMaster | BatchCreate | BatchEdit
    | BatchQrCode | PublicBatchProfile | NotFound

  const BatchRoutes: seq<Route<BatchPage>> := [
    Route([], Dashboard),
    Route([Lit("products")], ProductMaster),
    Route([Lit("batches")], BatchMaster),
    Route([Lit("batches"), Lit("production")], BatchCreate),
    Route([Lit("batches"), Lit("production"), Param("id")], BatchEdit),
    Route([Lit("batches"), Param("id")], BatchQrCode),
    Route([Lit("batchesprofile"), Param("identification_number")], PublicBatchProfile),
    Route([Splat], NotFound)
  ]

  /** Pages of the employee application (src/App.jsx). */
  datatype EmployeeAppPage = EmployeeList | EmployeeQrCode | EmployeeCard

  const EmployeeRoutes: seq<Route<EmployeeAppPage>> := [
    Route([], EmployeeList),
    Route([Lit("employee"), Param("id")], EmployeeQrCode),
    Route([Lit("employee"), Lit("qrcode"), Param("id")], EmployeeCard)
  ]

  lemma {:induction false} NonEmptyKeeps(parts: seq<string>)
    requires forall i :: 0 <= i < |parts| ==> parts[i] != ""
    ensures NonEmpty(parts) == parts
  {
    if parts != [] {
      NonEmptyKeeps(parts[1..]);
    }
  }

  lemma {:induction false} PathPartKeeps(s: string)
    requires forall i :: 0 <= i < |s| ==> s[i] !in "?#"
    ensures PathPart(s) == s
  {
    if s != [] {
      PathPartKeeps(s[1..]);
    }
  }

  lemma {:induction false} AfterPlainAuthority(a: string, t: string)
    requires PlainAuthority(a) && t != [] && t[0] == '/'
    ensures AfterAuthority(a + t) == t
  {
    if a != [] {
      assert (a + t)[1..] == a[1..] + t;
      AfterPlainAuthority(a[1..], t);
    } else {
      assert a + t == t;
    }
  }

  lemma PlainHasNoSlash(s: string)
    requires PlainSegment(s)
    ensures '/' !in s
  {
    forall i | 0 <= i < |s| ensures s[i] != '/' {
      assert s[i] !in "/?#%";
    }
  }

  lemma JoinAfterEmpty(parts: seq<string>)
    requires |parts| >= 1
    ensures Join([""] + parts, "/") == "/" + Join(parts, "/")
  {
    var all := [""] + parts;
    assert all[0] == "" && all[1..] == parts;
  }

  /** A path of plain segments splits back into those segments. */
  lemma SegmentsOfPath(parts: seq<string>)
    requires |parts| >= 1 && forall i :: 0 <= i < |parts| ==> PlainSegment(parts[i])
    ensures Segments("/" + Join(parts, "/")) == parts
  {
    var all := [""] + parts;
    JoinAfterEmpty(parts);
    forall k | 0 <= k < |all| ensures '/' !in all[k] {
      if k > 0 {
        assert all[k] == parts[k - 1];
        PlainHasNoSlash(parts[k - 1]);
      }
    }
    SplitJoin(all, "/");
    assert all[1..] == parts;
    NonEmptyKeeps(parts);
  }

  /** The path of `http://{authority}/{p1}/.../{pn}` when every part is a
      plain segment, which the browser's parser leaves as it is. */
  lemma PathnameOfUrl(authority: string, parts: seq<string>)
    requires PlainAuthority(authority)
    requires |parts| >= 1 && forall i :: 0 <= i < |parts| ==> PlainSegment(parts[i])
    ensures Pathname(Http + authority + "/" + Join(parts, "/")) == Some("/" + Join(parts, "/"))
  {
    var joined := Join(parts, "/");
    var path := "/" + joined;
    PathHasNoQuery(parts);
    PathnameOfPlainPath(authority, path);
    assert Http + authority + path == Http + authority + "/" + joined;
  }

  lemma PathnameOfPlainPath(authority: string, path: string)
    requires PlainAuthority(authority)
    requires path != [] && path[0] == '/'
    requires forall i :: 0 <= i < |path| ==> path[i] !in "?#"
    ensures Pathname(Http + authority + path) == Some(path)
  {
    var url := Http + authority + path;
    assert url[..|Http|] == Http;
    assert url[|Http|..] == authority + path;
    AfterPlainAuthority(authority, path);
    PathPartKeeps(path);
  }

  lemma PathHasNoQuery(parts: seq<string>)
    requires forall i :: 0 <= i < |parts| ==> PlainSegment(parts[i])
    ensures forall i :: 0 <= i < |"/" + Join(parts, "/")| ==> ("/" + Join(parts, "/"))[i] !in "?#"
  {
    var joined := Join(parts, "/");
    var path := "/" + joined;
    forall i | 0 <= i < |path| ensures path[i] !in "?#" {
      if i > 0 {
        assert path[i] == joined[i - 1];
        NoQueryInJoin(parts, i - 1);
      }
    }
  }

  lemma {:induction false} NoQueryInJoin(parts: seq<string>, i: int)
    requires forall k :: 0 <= k < |parts| ==> PlainSegment(parts[k])
    requires 0 <= i < |Join(parts, "/")|
    ensures Join(parts, "/")[i] !in "?#%"
  {
    if |parts| >= 2 {
      var p := parts[0];
      assert Join(parts, "/") == p + "/" + Join(parts[1..], "/");
      if i > |p| {
        NoQueryInJoin(parts[1..], i - |p| - 1);
      } else if i < |p| {
        assert PlainSegment(p);
      }
    } else {
      assert PlainSegment(parts[0]);
    }
  }

  /** Opening `http://{authority}/{p1}/.../{pn}` resolves exactly like the
      path `/{p1}/.../{pn}`. */
  lemma ResolveUrlOfPath<P>(table: seq<Route<P>>, authority: string, parts: seq<string>)
    requires PlainAuthority(authority)
    requires |parts| >= 1 && forall i :: 0 <= i < |parts| ==> PlainSegment(parts[i])
    ensures ResolveUrl(table, Http + authority + "/" + Join(parts, "/")) == Resolve(table, parts)
  {
    PathnameOfUrl(authority, parts);
    SegmentsOfPath(parts);
  }
}
