/** The routing tests, one method per test: each drives the routers exactly
    as the test does and promises in its postcondition what the test
    asserts (the whole routed value, of which the test checks the target,
    the parameter count and the captured values). */
module RoutingTests {
  import opened Wrappers
  import opened Paths
  import opened Patterns
  import opened RouteTable
  import opened Methodless
  import opened MethodRouting
  import opened StringRouting

  // Leading, trailing and doubled slashes around one word, each spelling
  // reduced to the word by the single-slash lemmas.

  lemma DoubleLeading(w: string)
    ensures Tokens("//" + w) == Tokens(w)
  {
    LeadingSlash(w);
    LeadingSlash("/" + w);
    assert "//" + w == "/" + ("/" + w);
  }

  lemma DoubleTrailing(w: string)
    ensures Tokens(w + "//") == Tokens(w)
  {
    TrailingSlash(w);
    TrailingSlash(w + "/");
    assert w + "//" == (w + "/") + "/";
  }

  lemma BothEnds(w: string)
    ensures Tokens("/" + w + "/") == Tokens(w)
  {
    TrailingSlash("/" + w);
    LeadingSlash(w);
  }

  lemma DoubleBothEnds(w: string)
    ensures Tokens("//" + w + "//") == Tokens(w)
  {
    DoubleTrailing("//" + w);
    DoubleLeading(w);
  }

  /** The seven spellings of "articles" the first test routes. */
  lemma ArticlesSpellings(w: string)
    requires w == "articles"
    ensures Tokens(w) == [w] && Tokens("/" + w) == [w] && Tokens("//" + w) == [w]
    ensures Tokens(w + "/") == [w] && Tokens(w + "//") == [w]
    ensures Tokens("/" + w + "/") == [w] && Tokens("//" + w + "//") == [w]
  {
    TokensOfWord(w);
    LeadingSlash(w);
    DoubleLeading(w);
    TrailingSlash(w);
    DoubleTrailing(w);
    BothEnds(w);
    DoubleBothEnds(w);
  }

  /** Routes under GET, on the string router, a path that normalises to the
      single token "articles". */
  method RouteArticles(router: Router<string>, path: string) returns (routed: Option<Routed<string>>)
    requires router.Valid() && router.tables == StringTables() && router.notFound == StringNotFound
    requires Tokens(path) == ["articles"]
    ensures routed == Some(Routed("index", false, map[]))
  {
    StringPatterns();
    GetArticles("/articles", "/articles/:id", "/articles/:id/:format", "/articles/new", "/anyMethod", "/download/:*", StringNotFound);
    routed := router.Route(GET, path);
  }

  /** Routes under GET the three spellings of `w` the slash test writes
      with nothing after the word: bare, and after one or two slashes. */
  method RouteLeadingSpellings(router: Router<string>, w: string) returns (routes: seq<Option<Routed<string>>>)
    requires router.Valid() && router.tables == StringTables() && router.notFound == StringNotFound
    requires w == "articles"
    ensures |routes| == 3
    ensures forall i :: 0 <= i < |routes| ==> routes[i] == Some(Routed("index", false, map[]))
  {
    ArticlesSpellings(w);
    var r1 := RouteArticles(router, w);
    var r2 := RouteArticles(router, "/" + w);
    var r3 := RouteArticles(router, "//" + w);
    routes := [r1, r2, r3];
  }

  /** Routes under GET the four spellings of `w` the slash test writes with
      slashes after the word: one or two, alone or matched before it. */
  method RouteTrailingSpellings(router: Router<string>, w: string) returns (routes: seq<Option<Routed<string>>>)
    requires router.Valid() && router.tables == StringTables() && router.notFound == StringNotFound
    requires w == "articles"
    ensures |routes| == 4
    ensures forall i :: 0 <= i < |routes| ==> routes[i] == Some(Routed("index", false, map[]))
  {
    ArticlesSpellings(w);
    var r4 := RouteArticles(router, w + "/");
    var r5 := RouteArticles(router, w + "//");
    var r6 := RouteArticles(router, "/" + w + "/");
    var r7 := RouteArticles(router, "//" + w + "//");
    routes := [r4, r5, r6, r7];
  }

  /** RoutingTest.testIgnoreSlashesAtBothEnds: "articles", "/articles",
      "//articles", "articles/", "articles//", "/articles/" and
      "//articles//" all route GET to "index". */
  method IgnoreSlashesAtBothEnds() returns (routes: seq<Option<Routed<string>>>)
    ensures |routes| == 7
    ensures forall i :: 0 <= i < |routes| ==> routes[i] == Some(Routed("index", false, map[]))
  {
    var router := NewStringRouter();
    var leading := RouteLeadingSpellings(router, "articles");
    var trailing := RouteTrailingSpellings(router, "articles");
    routes := leading + trailing;
  }

  // Routing on the string router, one path at a time. Each takes the path
  // as a variable together with its tokens, so that the verifier never
  // splits a literal string while it also reasons about the router.

  /** A path normalising to "articles" then a second token routes GET to
      "show" with that token as "id", except "new", which the front-inserted
      entry takes. */
  method RouteArticle(router: Router<string>, path: string, x: string) returns (routed: Option<Routed<string>>)
    requires router.Valid() && router.tables == StringTables() && router.notFound == StringNotFound
    requires Tokens(path) == ["articles", x]
    ensures x != "new" ==> routed == Some(Routed("show", false, map["id" := x]))
    ensures x == "new" ==> routed == Some(Routed("new", false, map[]))
  {
    StringPatterns();
    GetArticle("/articles", "/articles/:id", "/articles/:id/:format", "/articles/new", "/anyMethod", "/download/:*", StringNotFound, x);
    routed := router.Route(GET, path);
  }

  /** A path normalising to "download" then two tokens routes GET to
      "download", the splat capturing the two tokens re-joined. */
  method RouteDownload(router: Router<string>, path: string, x: string, y: string) returns (routed: Option<Routed<string>>)
    requires router.Valid() && router.tables == StringTables() && router.notFound == StringNotFound
    requires Tokens(path) == ["download", x, y]
    ensures routed == Some(Routed("download", false, map[SplatKey := x + "/" + y]))
  {
    StringPatterns();
    GetDownload("/articles", "/articles/:id", "/articles/:id/:format", "/articles/new", "/anyMethod", "/download/:*", StringNotFound, x, y);
    routed := router.Route(GET, path);
  }

  /** A path normalising to "anyMethod" routes every method to "anyMethod". */
  method RouteAnyMethod(router: Router<string>, verb: Method, path: string) returns (routed: Option<Routed<string>>)
    requires router.Valid() && router.tables == StringTables() && router.notFound == StringNotFound
    requires Tokens(path) == ["anyMethod"]
    ensures routed == Some(Routed("anyMethod", false, map[]))
  {
    StringPatterns();
    AnyMethodEverywhere("/articles", "/articles/:id", "/articles/:id/:format", "/articles/new", "/anyMethod", "/download/:*", StringNotFound, verb);
    routed := router.Route(verb, path);
  }

  /** A one-token path that no pattern takes routes every method to the
      not-found target "404", flagged, with no parameters. */
  method RouteMissing(router: Router<string>, verb: Method, path: string, w: string) returns (routed: Option<Routed<string>>)
    requires router.Valid() && router.tables == StringTables() && router.notFound == StringNotFound
    requires Tokens(path) == [w] && w != "articles" && w != "anyMethod"
    ensures routed == Some(Routed("404", true, map[]))
  {
    StringPatterns();
    NotFoundEverywhere("/articles", "/articles/:id", "/articles/:id/:format", "/articles/new", "/anyMethod", "/download/:*", verb, w);
    routed := router.Route(verb, path);
  }

  lemma DownloadTokens()
    ensures Tokens("/download/foo/bar.png") == ["download", "foo", "bar.png"]
  {
    ThreeTokens("download", "foo", "bar.png");
    assert "/download/foo/bar.png" == "/" + "download" + "/" + "foo" + "/" + "bar.png";
  }

  // Kept apart from the test method: checked there, beside the router's
  // state, this literal equality exceeds the resource limit.
  lemma FooBar()
    ensures "foo" + "/" + "bar.png" == "foo/bar.png"
  {
  }

  lemma OrderTokens()
    ensures Tokens("/articles/new") == ["articles", "new"]
    ensures Tokens("/articles/123") == ["articles", "123"]
    ensures Tokens("/notfound") == ["notfound"]
  {
    TwoTokens("articles", "new");
    assert "/articles/new" == "/" + "articles" + "/" + "new";
    TwoTokens("articles", "123");
    assert "/articles/123" == "/" + "articles" + "/" + "123";
    OneToken("notfound");
    assert "/notfound" == "/" + "notfound";
  }

  /** RoutingTest.testHandleEmptyParams: GET "/articles" routes to "index"
      with no parameters. */
  method HandleEmptyParams() returns (routed: Option<Routed<string>>)
    ensures routed == Some(Routed("index", false, map[]))
  {
    var router := NewStringRouter();
    OneToken("articles");
    assert "/articles" == "/" + "articles";
    routed := RouteArticles(router, "/articles");
  }

  /** RoutingTest.testHandleParams: GET "/articles/123" routes to "show"
      with the one parameter "id" bound to "123". */
  method HandleParams() returns (routed: Option<Routed<string>>)
    ensures routed == Some(Routed("show", false, map["id" := "123"]))
  {
    var router := NewStringRouter();
    TwoTokens("articles", "123");
    assert "/articles/123" == "/" + "articles" + "/" + "123";
    routed := RouteArticle(router, "/articles/123", "123");
  }

  /** RoutingTest.testHandleSplatWildcard: GET "/download/foo/bar.png"
      routes to "download" with the one parameter "*" bound to
      "foo/bar.png". */
  method HandleSplatWildcard() returns (routed: Option<Routed<string>>)
    ensures routed == Some(Routed("download", false, map["*" := "foo/bar.png"]))
  {
    var router := NewStringRouter();
    DownloadTokens();
    FooBar();
    routed := RouteDownload(router, "/download/foo/bar.png", "foo", "bar.png");
  }

  /** RoutingTest.testHandleOrder: GET "/articles/new" routes to the
      front-inserted "new" although "show" was registered before it, GET
      "/articles/123" still routes to "show", and GET "/notfound" falls
      through to "404". */
  method HandleOrder() returns (routed1: Option<Routed<string>>, routed2: Option<Routed<string>>,
                                routed3: Option<Routed<string>>)
    ensures routed1 == Some(Routed("new", false, map[]))
    ensures routed2 == Some(Routed("show", false, map["id" := "123"]))
    ensures routed3 == Some(Routed("404", true, map[]))
  {
    var router := NewStringRouter();
    OrderTokens();
    routed1 := RouteArticle(router, "/articles/new", "new");
    routed2 := RouteArticle(router, "/articles/123", "123");
    routed3 := RouteMissing(router, GET, "/notfound", "notfound");
  }

  /** RoutingTest.testHandleAnyMethod: "/anyMethod" routes to "anyMethod"
      with no parameters under GET and under POST. */
  method HandleAnyMethod() returns (routed1: Option<Routed<string>>, routed2: Option<Routed<string>>)
    ensures routed1 == Some(Routed("anyMethod", false, map[]))
    ensures routed2 == Some(Routed("anyMethod", false, map[]))
  {
    var router := NewStringRouter();
    OneToken("anyMethod");
    assert "/anyMethod" == "/" + "anyMethod";
    routed1 := RouteAnyMethod(router, GET, "/anyMethod");
    routed2 := RouteAnyMethod(router, POST, "/anyMethod");
  }

  /** A table holding only the "articles" pattern answers no other
      one-token path. */
  lemma ArticlesOnlyMisses<T>(articles: string, target: T, w: string)
    requires Compile(articles) == [Literal("articles")] && w != "articles"
    ensures FirstMatch([Entry(articles, target)], [w]) == None
  {
    MatchLiteral("articles", [w]);
    assert [Entry(articles, target)][1..] == [];
  }

  lemma NoexistTokens()
    ensures Tokens("/noexist") == ["noexist"]
  {
    OneToken("noexist");
    assert "/noexist" == "/" + "noexist";
  }

  lemma SubclassTokens()
    ensures Tokens("/articles") == ["articles"]
    ensures Tokens("/articles/123") == ["articles", "123"]
  {
    OneToken("articles");
    assert "/articles" == "/" + "articles";
    TwoTokens("articles", "123");
    assert "/articles/123" == "/" + "articles" + "/" + "123";
  }

  /** RoutingTest.testHandleNone: a methodless router holding only
      "/articles" routes "/noexist" to nothing. */
  method HandleNone() returns (routed: Option<Routed<string>>)
    ensures routed == None
  {
    var empty := new MethodlessRouter<string>();
    ArticlesPattern();
    var router := empty.Pattern("/articles", "index");
    NoexistTokens();
    ArticlesOnlyMisses("/articles", "index", "noexist");
    routed := router.Route("/noexist");
  }

  /** RoutingTest.testHandleRemoveByTarget: once the target "index" is
      removed, "/articles" routes to nothing. */
  method HandleRemoveByTarget() returns (routed: Option<Routed<string>>)
    ensures routed == None
  {
    var empty := new MethodlessRouter<string>();
    ArticlesPattern();
    var router := empty.Pattern("/articles", "index");
    router.RemoveTarget("index");
    routed := router.Route("/articles");
  }

  /** RoutingTest.testHandleRemoveByPath: once the pattern "/articles" is
      removed, "/articles" routes to nothing. */
  method HandleRemoveByPath() returns (routed: Option<Routed<string>>)
    ensures routed == None
  {
    var empty := new MethodlessRouter<string>();
    ArticlesPattern();
    var router := empty.Pattern("/articles", "index");
    router.RemovePath("/articles");
    routed := router.Route("/articles");
  }

  /** The two handler classes the last test registers as targets: any type
      with equality serves as a target. */
  datatype Action = Index | Show

  /** With the "articles" pattern registered before the "articles/:id"
      pattern, "articles" goes to the first and "articles" plus one more token
      to the second, which binds that token as "id". */
  lemma IndexThenShow<T>(articles: string, articleId: string, index: T, show: T, x: string)
    requires Compile(articles) == [Literal("articles")]
    requires Compile(articleId) == [Literal("articles"), Param("id")]
    ensures FirstMatch([Entry(articles, index), Entry(articleId, show)], ["articles"])
            == Some(Routed(index, false, map[]))
    ensures FirstMatch([Entry(articles, index), Entry(articleId, show)], ["articles", x])
            == Some(Routed(show, false, map["id" := x]))
  {
    var es := [Entry(articles, index), Entry(articleId, show)];
    MatchLiteral("articles", ["articles"]);
    MatchLiteral("articles", ["articles", x]);
    MatchLiteralParam("articles", "id", ["articles", x]);
    assert es[1..] == [Entry(articleId, show)];
    assert es[1..][1..] == [];
  }

  /** RoutingTest.testHandleSubclasses: with "/articles" registered for
      Index and "/articles/:id" for Show, "/articles" routes to Index and
      "/articles/123" to Show. */
  method HandleSubclasses() returns (routed1: Option<Routed<Action>>, routed2: Option<Routed<Action>>)
    ensures routed1 == Some(Routed(Index, false, map[]))
    ensures routed2 == Some(Routed(Show, false, map["id" := "123"]))
  {
    var router := new MethodlessRouter<Action>();
    ArticlesPattern();
    ArticleIdPattern();
    var _ := router.Pattern("/articles", Index);
    var _ := router.Pattern("/articles/:id", Show);
    SubclassTokens();
    IndexThenShow("/articles", "/articles/:id", Index, Show, "123");
    routed1 := router.Route("/articles");
    routed2 := router.Route("/articles/123");
  }
}
