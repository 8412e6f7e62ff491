/** `StringRouter`: the concrete router the routing tests query, a `Router`
    over string targets built by one chain of registration calls. The chain
    and the routing facts about it are stated over its six pattern strings,
    and the strings themselves are substituted once, in `StringTables`. */
module StringRouting {
  import opened Wrappers
  import opened Paths
  import opened Patterns
  import opened RouteTable
  import opened MethodRouting

  /** The tables the chain builds from its six pattern strings:
      GET "articles" "index", GET "articleId" "show", GET "articleFormat"
      "show", GET_FIRST "articleNew" "new", POST "articles" "post", PATCH
      "articleId" "patch", DELETE "articleId" "delete", ANY "anyMethod"
      "anyMethod", GET "download" "download". */
  function ChainTables(articles: string, articleId: string, articleFormat: string,
                       articleNew: string, anyMethod: string, download: string): Tables<string>
  {
    var any := Entry(anyMethod, "anyMethod");
    map[CONNECT := [any],
        DELETE := [Entry(articleId, "delete"), any],
        GET := [Entry(articleNew, "new"), Entry(articles, "index"), Entry(articleId, "show"),
                Entry(articleFormat, "show"), any, Entry(download, "download")],
        HEAD := [any],
        OPTIONS := [any],
        PATCH := [Entry(articleId, "patch"), any],
        POST := [Entry(articles, "post"), any],
        PUT := [any],
        TRACE := [any]]
  }

  /** The tables of `StringRouter` once its chain has run. */
  function StringTables(): Tables<string> {
    ChainTables("/articles", "/articles/:id", "/articles/:id/:format", "/articles/new", "/anyMethod", "/download/:*")
  }

  /** The single not-found target of `StringRouter`. */
  const StringNotFound: Option<string> := Some("404")

  /** The compiled shapes of the six pattern strings. */
  predicate ChainPatterns(articles: string, articleId: string, articleFormat: string,
                          articleNew: string, anyMethod: string, download: string)
  {
    && Compile(articles) == [Literal("articles")]
    && Compile(articleId) == [Literal("articles"), Param("id")]
    && Compile(articleFormat) == [Literal("articles"), Param("id"), Param("format")]
    && Compile(articleNew) == [Literal("articles"), Literal("new")]
    && Compile(anyMethod) == [Literal("anyMethod")]
    && Compile(download) == [Literal("download"), Splat]
  }

  // Normalisation of literal paths, stated over variables so that the
  // verifier never has to unfold the splitting of a literal string.

  lemma OneToken(a: string)
    requires a != "" && SlashFree(a)
    ensures Tokens("/" + a) == [a]
  {
    LeadingSlash(a);
    TokensOfWord(a);
  }

  lemma TwoTokens(a: string, b: string)
    requires a != "" && SlashFree(a) && b != "" && SlashFree(b)
    ensures Tokens("/" + a + "/" + b) == [a, b]
  {
    TokensSplit("/" + a, b);
    OneToken(a);
    TokensOfWord(b);
  }

  lemma ThreeTokens(a: string, b: string, c: string)
    requires a != "" && SlashFree(a) && b != "" && SlashFree(b) && c != "" && SlashFree(c)
    ensures Tokens("/" + a + "/" + b + "/" + c) == [a, b, c]
  {
    TokensSplit("/" + a + "/" + b, c);
    TwoTokens(a, b);
    TokensOfWord(c);
  }

  lemma CompileOne(s: string, a: string)
    requires Tokens(s) == [a]
    ensures Compile(s) == [Classify(a)]
  {
  }

  lemma CompileTwo(s: string, a: string, b: string)
    requires Tokens(s) == [a, b]
    ensures Compile(s) == [Classify(a), Classify(b)]
  {
  }

  lemma CompileThree(s: string, a: string, b: string, c: string)
    requires Tokens(s) == [a, b, c]
    ensures Compile(s) == [Classify(a), Classify(b), Classify(c)]
  {
  }

  lemma ArticlesPattern()
    ensures Compile("/articles") == [Literal("articles")]
  {
    assert "/articles" == "/" + "articles";
    OneToken("articles");
    CompileOne("/articles", "articles");
  }

  lemma ArticleIdPattern()
    ensures Compile("/articles/:id") == [Literal("articles"), Param("id")]
  {
    assert "/articles/:id" == "/" + "articles" + "/" + ":id";
    TwoTokens("articles", ":id");
    CompileTwo("/articles/:id", "articles", ":id");
  }

  lemma ArticleFormatPattern()
    ensures Compile("/articles/:id/:format") == [Literal("articles"), Param("id"), Param("format")]
  {
    assert "/articles/:id/:format" == "/" + "articles" + "/" + ":id" + "/" + ":format";
    ThreeTokens("articles", ":id", ":format");
    CompileThree("/articles/:id/:format", "articles", ":id", ":format");
  }

  lemma ArticleNewPattern()
    ensures Compile("/articles/new") == [Literal("articles"), Literal("new")]
  {
    assert "/articles/new" == "/" + "articles" + "/" + "new";
    TwoTokens("articles", "new");
    CompileTwo("/articles/new", "articles", "new");
  }

  lemma AnyMethodPattern()
    ensures Compile("/anyMethod") == [Literal("anyMethod")]
  {
    assert "/anyMethod" == "/" + "anyMethod";
    OneToken("anyMethod");
    CompileOne("/anyMethod", "anyMethod");
  }

  lemma DownloadPattern()
    ensures Compile("/download/:*") == [Literal("download"), Splat]
  {
    assert "/download/:*" == "/" + "download" + "/" + ":*";
    TwoTokens("download", ":*");
    CompileTwo("/download/:*", "download", ":*");
  }

  /** The pattern strings of `StringRouter` compile to the shapes the routing
      facts below assume. */
  lemma StringPatterns()
    ensures ChainPatterns("/articles", "/articles/:id", "/articles/:id/:format", "/articles/new", "/anyMethod", "/download/:*")
  {
    ArticlesPattern();
    ArticleIdPattern();
    ArticleFormatPattern();
    ArticleNewPattern();
    AnyMethodPattern();
    DownloadPattern();
  }

  /** Patterns of those shapes are well-formed, so every call of the chain may
      be made. */
  lemma ChainWellFormed(articles: string, articleId: string, articleFormat: string,
                        articleNew: string, anyMethod: string, download: string)
    requires ChainPatterns(articles, articleId, articleFormat, articleNew, anyMethod, download)
    ensures WellFormed(Compile(articles)) && WellFormed(Compile(articleId)) && WellFormed(Compile(articleFormat))
    ensures WellFormed(Compile(articleNew)) && WellFormed(Compile(anyMethod)) && WellFormed(Compile(download))
  {
  }

  /** The tables after the first seven calls of the chain, from fresh tables. */
  lemma FirstSevenCalls(t0: Tables<string>, t7: Tables<string>,
                        articles: string, articleId: string, articleFormat: string, articleNew: string)
    requires forall m: Method :: m in t0 && t0[m] == []
    requires t7 == t0[GET := t0[GET] + [Entry(articles, "index")]]
                     [GET := t0[GET] + [Entry(articles, "index")] + [Entry(articleId, "show")]]
                     [GET := t0[GET] + [Entry(articles, "index")] + [Entry(articleId, "show")] + [Entry(articleFormat, "show")]]
                     [GET := [Entry(articleNew, "new")] + (t0[GET] + [Entry(articles, "index")] + [Entry(articleId, "show")] + [Entry(articleFormat, "show")])]
                     [POST := t0[POST] + [Entry(articles, "post")]]
                     [PATCH := t0[PATCH] + [Entry(articleId, "patch")]]
                     [DELETE := t0[DELETE] + [Entry(articleId, "delete")]]
    ensures forall m: Method :: m in t7
    ensures t7[GET] == [Entry(articleNew, "new"), Entry(articles, "index"), Entry(articleId, "show"), Entry(articleFormat, "show")]
    ensures t7[POST] == [Entry(articles, "post")] && t7[PATCH] == [Entry(articleId, "patch")] && t7[DELETE] == [Entry(articleId, "delete")]
    ensures t7[CONNECT] == [] && t7[HEAD] == [] && t7[OPTIONS] == [] && t7[PUT] == [] && t7[TRACE] == []
  {
  }

  /** The tables after the last two registrations of the chain. */
  lemma LastTwoCalls(t7: Tables<string>, t9: Tables<string>,
                     articles: string, articleId: string, articleFormat: string,
                     articleNew: string, anyMethod: string, download: string)
    requires forall m: Method :: m in t7
    requires t7[GET] == [Entry(articleNew, "new"), Entry(articles, "index"), Entry(articleId, "show"), Entry(articleFormat, "show")]
    requires t7[POST] == [Entry(articles, "post")] && t7[PATCH] == [Entry(articleId, "patch")] && t7[DELETE] == [Entry(articleId, "delete")]
    requires t7[CONNECT] == [] && t7[HEAD] == [] && t7[OPTIONS] == [] && t7[PUT] == [] && t7[TRACE] == []
    requires t9 == AppendedEverywhere(t7, Entry(anyMethod, "anyMethod"))
                     [GET := AppendedEverywhere(t7, Entry(anyMethod, "anyMethod"))[GET] + [Entry(download, "download")]]
    ensures t9 == ChainTables(articles, articleId, articleFormat, articleNew, anyMethod, download)
  {
    var expected := ChainTables(articles, articleId, articleFormat, articleNew, anyMethod, download);
    var any := Entry(anyMethod, "anyMethod");
    forall m: Method ensures m in t9 && m in expected && t9[m] == expected[m] {
      match m
      case GET =>
        assert t9[GET] == t7[GET] + [any] + [Entry(download, "download")];
      case _ =>
        assert t9[m] == t7[m] + [any];
    }
    assert t9.Keys == expected.Keys;
  }

  /** The builder chain, over its six pattern strings: every call returns the
      router itself, so the calls build one set of tables in call order. */
  method Chain(articles: string, articleId: string, articleFormat: string,
               articleNew: string, anyMethod: string, download: string) returns (router: Router<string>)
    requires ChainPatterns(articles, articleId, articleFormat, articleNew, anyMethod, download)
    ensures fresh(router) && router.Valid()
    ensures router.tables == ChainTables(articles, articleId, articleFormat, articleNew, anyMethod, download)
    ensures router.notFound == StringNotFound
  {
    ChainWellFormed(articles, articleId, articleFormat, articleNew, anyMethod, download);
    router := new Router<string>();
    ghost var t0 := router.tables;
    var r := router.Pattern(GET, articles, "index");
    r := r.Pattern(GET, articleId, "show");
    r := r.Pattern(GET, articleFormat, "show");
    r := r.PatternFirst(GET, articleNew, "new");
    r := r.Pattern(POST, articles, "post");
    r := r.Pattern(PATCH, articleId, "patch");
    r := r.Pattern(DELETE, articleId, "delete");
    ghost var t7 := router.tables;
    FirstSevenCalls(t0, t7, articles, articleId, articleFormat, articleNew);
    r := r.Any(anyMethod, "anyMethod");
    r := r.Pattern(GET, download, "download");
    r := r.NotFound("404");
    LastTwoCalls(t7, router.tables, articles, articleId, articleFormat, articleNew, anyMethod, download);
  }

  /** `StringRouter.router`: the chain run on its own pattern strings. */
  method NewStringRouter() returns (router: Router<string>)
    ensures fresh(router) && router.Valid()
    ensures router.tables == StringTables() && router.notFound == StringNotFound
  {
    StringPatterns();
    router := Chain("/articles", "/articles/:id", "/articles/:id/:format", "/articles/new", "/anyMethod", "/download/:*");
  }

  // How the five pattern shapes of the chain match a list of tokens.

  lemma MatchHeadMiss(p: Pattern, tokens: seq<string>)
    requires p != [] && p[0].Literal? && tokens != [] && tokens[0] != p[0].text
    ensures Match(p, tokens) == None
  {
  }

  lemma MatchLiteral(l: string, tokens: seq<string>)
    ensures Match([Literal(l)], tokens) == if tokens == [l] then Some(map[]) else None
  {
    if tokens != [] {
      assert [Literal(l)][1..] == [];
      if tokens[0] == l && tokens[1..] == [] {
        assert tokens == [l];
      }
    }
  }

  lemma MatchLiterals(l: string, k: string, tokens: seq<string>)
    ensures Match([Literal(l), Literal(k)], tokens) == if tokens == [l, k] then Some(map[]) else None
  {
    if tokens != [] {
      assert [Literal(l), Literal(k)][1..] == [Literal(k)];
      MatchLiteral(k, tokens[1..]);
      if tokens[0] == l && tokens[1..] == [k] {
        assert tokens == [l, k];
      }
    }
  }

  lemma MatchParam(n: string, tokens: seq<string>)
    ensures Match([Param(n)], tokens) == if |tokens| == 1 then Some(map[n := tokens[0]]) else None
  {
    if tokens != [] {
      assert [Param(n)][1..] == [];
    }
  }

  lemma MatchLiteralParam(l: string, n: string, tokens: seq<string>)
    ensures Match([Literal(l), Param(n)], tokens)
            == if |tokens| == 2 && tokens[0] == l then Some(map[n := tokens[1]]) else None
  {
    if tokens != [] {
      assert [Literal(l), Param(n)][1..] == [Param(n)];
      MatchParam(n, tokens[1..]);
    }
  }

  lemma MatchParams(n: string, k: string, tokens: seq<string>)
    ensures Match([Param(n), Param(k)], tokens)
            == if |tokens| == 2 then Some(map[k := tokens[1]][n := tokens[0]]) else None
  {
    if tokens != [] {
      assert [Param(n), Param(k)][1..] == [Param(k)];
      MatchParam(k, tokens[1..]);
    }
  }

  lemma MatchLiteralParams(l: string, n: string, k: string, tokens: seq<string>)
    ensures Match([Literal(l), Param(n), Param(k)], tokens)
            == if |tokens| == 3 && tokens[0] == l then Some(map[k := tokens[2]][n := tokens[1]]) else None
  {
    if tokens != [] {
      assert [Literal(l), Param(n), Param(k)][1..] == [Param(n), Param(k)];
      MatchParams(n, k, tokens[1..]);
    }
  }

  lemma MatchLiteralSplat(l: string, tokens: seq<string>)
    ensures Match([Literal(l), Splat], tokens)
            == if |tokens| >= 2 && tokens[0] == l then Some(map[SplatKey := Join(tokens[1..])]) else None
  {
    if tokens != [] {
      assert [Literal(l), Splat][1..] == [Splat];
    }
  }

  // What the chain's tables answer. Each fact is stated for any six pattern
  // strings with the chain's shapes, and `StringPatterns` supplies those.

  /** GET "articles" reaches "index" with no parameters: "new" needs a second
      token and "index" is tried before every other entry that could fit. */
  lemma GetArticles(a: string, aid: string, afmt: string, anew: string, any: string, dl: string, notFound: Option<string>)
    requires ChainPatterns(a, aid, afmt, anew, any, dl)
    ensures Dispatch(ChainTables(a, aid, afmt, anew, any, dl), notFound, GET, ["articles"])
            == Some(Routed("index", false, map[]))
  {
    var es := ChainTables(a, aid, afmt, anew, any, dl)[GET];
    var tokens := ["articles"];
    MatchLiterals("articles", "new", tokens);
    MatchLiteral("articles", tokens);
    FirstMatchAt(es, tokens, 1);
  }

  /** GET "articles/x" reaches "new" when x is "new" (the front-inserted
      entry), and otherwise "show" with exactly {id: x}. */
  lemma GetArticle(a: string, aid: string, afmt: string, anew: string, any: string, dl: string, notFound: Option<string>, x: string)
    requires ChainPatterns(a, aid, afmt, anew, any, dl)
    ensures x != "new" ==>
      Dispatch(ChainTables(a, aid, afmt, anew, any, dl), notFound, GET, ["articles", x])
      == Some(Routed("show", false, map["id" := x]))
    ensures x == "new" ==>
      Dispatch(ChainTables(a, aid, afmt, anew, any, dl), notFound, GET, ["articles", x])
      == Some(Routed("new", false, map[]))
  {
    var es := ChainTables(a, aid, afmt, anew, any, dl)[GET];
    var tokens := ["articles", x];
    MatchLiterals("articles", "new", tokens);
    MatchLiteral("articles", tokens);
    MatchLiteralParam("articles", "id", tokens);
    if x == "new" {
      FirstMatchAt(es, tokens, 0);
    } else {
      FirstMatchAt(es, tokens, 2);
    }
  }

  /** GET "articles/x/y" reaches the second "show" entry with {id: x, format: y}. */
  lemma GetArticleFormat(a: string, aid: string, afmt: string, anew: string, any: string, dl: string, notFound: Option<string>, x: string, y: string)
    requires ChainPatterns(a, aid, afmt, anew, any, dl)
    ensures Dispatch(ChainTables(a, aid, afmt, anew, any, dl), notFound, GET, ["articles", x, y])
            == Some(Routed("show", false, map["id" := x, "format" := y]))
  {
    var es := ChainTables(a, aid, afmt, anew, any, dl)[GET];
    var tokens := ["articles", x, y];
    MatchLiterals("articles", "new", tokens);
    MatchLiteral("articles", tokens);
    MatchLiteralParam("articles", "id", tokens);
    MatchLiteralParams("articles", "id", "format", tokens);
    assert map["format" := y]["id" := x] == map["id" := x, "format" := y];
    FirstMatchAt(es, tokens, 3);
  }

  /** Without the front insertion, "articles/new" would reach "show" with
      {id: "new"}: the order of the GET table is what routes it to "new". */
  lemma FrontInsertionDecides(a: string, aid: string, afmt: string, anew: string, any: string, dl: string)
    requires ChainPatterns(a, aid, afmt, anew, any, dl)
    ensures FirstMatch(ChainTables(a, aid, afmt, anew, any, dl)[GET][1..], ["articles", "new"])
            == Some(Routed("show", false, map["id" := "new"]))
  {
    var es := ChainTables(a, aid, afmt, anew, any, dl)[GET][1..];
    var tokens := ["articles", "new"];
    MatchLiteral("articles", tokens);
    MatchLiteralParam("articles", "id", tokens);
    FirstMatchAt(es, tokens, 1);
  }

  /** No GET entry before "download" fits a path starting with "download". */
  lemma DownloadPrefixMisses(a: string, aid: string, afmt: string, anew: string, any: string, dl: string, tokens: seq<string>)
    requires ChainPatterns(a, aid, afmt, anew, any, dl)
    requires |tokens| >= 1 && tokens[0] == "download"
    ensures forall j | 0 <= j < 5 :: !Hits(ChainTables(a, aid, afmt, anew, any, dl)[GET][j], tokens)
  {
    var es := ChainTables(a, aid, afmt, anew, any, dl)[GET];
    MatchHeadMiss(es[0].pattern, tokens);
    MatchHeadMiss(es[1].pattern, tokens);
    MatchHeadMiss(es[2].pattern, tokens);
    MatchHeadMiss(es[3].pattern, tokens);
    MatchHeadMiss(es[4].pattern, tokens);
  }

  /** GET "download/x/y" reaches "download" with the remainder "x/y",
      re-joined with '/', as its only parameter "*". */
  lemma GetDownload(a: string, aid: string, afmt: string, anew: string, any: string, dl: string, notFound: Option<string>, x: string, y: string)
    requires ChainPatterns(a, aid, afmt, anew, any, dl)
    ensures Dispatch(ChainTables(a, aid, afmt, anew, any, dl), notFound, GET, ["download", x, y])
            == Some(Routed("download", false, map[SplatKey := x + "/" + y]))
  {
    var tokens := ["download", x, y];
    DownloadPrefixMisses(a, aid, afmt, anew, any, dl, tokens);
    MatchLiteralSplat("download", tokens);
    assert tokens[1..] == [x, y];
    assert Join([x, y]) == x + "/" + y;
    FirstMatchAt(ChainTables(a, aid, afmt, anew, any, dl)[GET], tokens, 5);
  }

  /** "anyMethod" reaches "anyMethod" with no parameters under every method. */
  lemma AnyMethodEverywhere(a: string, aid: string, afmt: string, anew: string, any: string, dl: string, notFound: Option<string>, verb: Method)
    requires ChainPatterns(a, aid, afmt, anew, any, dl)
    ensures Dispatch(ChainTables(a, aid, afmt, anew, any, dl), notFound, verb, ["anyMethod"])
            == Some(Routed("anyMethod", false, map[]))
  {
    var t := ChainTables(a, aid, afmt, anew, any, dl);
    var tokens := ["anyMethod"];
    match verb
    case GET =>
      MatchLiterals("articles", "new", tokens);
      MatchLiteral("articles", tokens);
      MatchLiteralParam("articles", "id", tokens);
      MatchLiteralParams("articles", "id", "format", tokens);
      AnyMethodAt(t[GET], any, 4);
    case POST =>
      MatchLiteral("articles", tokens);
      AnyMethodAt(t[POST], any, 1);
    case PATCH =>
      MatchLiteralParam("articles", "id", tokens);
      AnyMethodAt(t[PATCH], any, 1);
    case DELETE =>
      MatchLiteralParam("articles", "id", tokens);
      AnyMethodAt(t[DELETE], any, 1);
    case CONNECT => AnyMethodAt(t[CONNECT], any, 0);
    case HEAD => AnyMethodAt(t[HEAD], any, 0);
    case OPTIONS => AnyMethodAt(t[OPTIONS], any, 0);
    case PUT => AnyMethodAt(t[PUT], any, 0);
    case TRACE => AnyMethodAt(t[TRACE], any, 0);
  }

  /** A table whose entry k is the any-method entry, with nothing before it
      taking "anyMethod", routes "anyMethod" there. */
  lemma AnyMethodAt(es: seq<Entry<string>>, any: string, k: nat)
    requires Compile(any) == [Literal("anyMethod")]
    requires k < |es| && es[k] == Entry(any, "anyMethod")
    requires forall j :: 0 <= j < k ==> !Hits(es[j], ["anyMethod"])
    ensures FirstMatch(es, ["anyMethod"]) == Some(Routed("anyMethod", false, map[]))
  {
    MatchLiteral("anyMethod", ["anyMethod"]);
    FirstMatchAt(es, ["anyMethod"], k);
  }

  /** Routes are scoped per method: "articles" is "post" under POST, and
      "articles/x" is "patch" under PATCH and "delete" under DELETE. */
  lemma OtherMethods(a: string, aid: string, afmt: string, anew: string, any: string, dl: string, notFound: Option<string>, x: string)
    requires ChainPatterns(a, aid, afmt, anew, any, dl)
    ensures Dispatch(ChainTables(a, aid, afmt, anew, any, dl), notFound, POST, ["articles"])
            == Some(Routed("post", false, map[]))
    ensures Dispatch(ChainTables(a, aid, afmt, anew, any, dl), notFound, PATCH, ["articles", x])
            == Some(Routed("patch", false, map["id" := x]))
    ensures Dispatch(ChainTables(a, aid, afmt, anew, any, dl), notFound, DELETE, ["articles", x])
            == Some(Routed("delete", false, map["id" := x]))
  {
    var t := ChainTables(a, aid, afmt, anew, any, dl);
    MatchLiteral("articles", ["articles"]);
    FirstMatchAt(t[POST], ["articles"], 0);
    MatchLiteralParam("articles", "id", ["articles", x]);
    FirstMatchAt(t[PATCH], ["articles", x], 0);
    FirstMatchAt(t[DELETE], ["articles", x], 0);
  }

  /** A one-token path that names no route falls back, under every method, to
      the one not-found target, flagged, with no parameters. */
  lemma NotFoundEverywhere(a: string, aid: string, afmt: string, anew: string, any: string, dl: string, verb: Method, w: string)
    requires ChainPatterns(a, aid, afmt, anew, any, dl)
    requires w != "articles" && w != "anyMethod"
    ensures Dispatch(ChainTables(a, aid, afmt, anew, any, dl), StringNotFound, verb, [w])
            == Some(Routed("404", true, map[]))
  {
    var t := ChainTables(a, aid, afmt, anew, any, dl);
    var tokens := [w];
    MatchLiterals("articles", "new", tokens);
    MatchLiteral("articles", tokens);
    MatchLiteralParam("articles", "id", tokens);
    MatchLiteralParams("articles", "id", "format", tokens);
    MatchLiteral("anyMethod", tokens);
    MatchLiteralSplat("download", tokens);
    forall j | 0 <= j < |t[verb]| ensures !Hits(t[verb][j], tokens) {
    }
    DispatchNotFound(t, StringNotFound, verb, tokens);
  }

  /** A GET or POST registration is scoped to its method: under every other
      method "articles" falls back to the not-found target. */
  lemma ArticlesScoped(a: string, aid: string, afmt: string, anew: string, any: string, dl: string, verb: Method)
    requires ChainPatterns(a, aid, afmt, anew, any, dl)
    requires verb != GET && verb != POST
    ensures Dispatch(ChainTables(a, aid, afmt, anew, any, dl), StringNotFound, verb, ["articles"])
            == Some(Routed("404", true, map[]))
  {
    var t := ChainTables(a, aid, afmt, anew, any, dl);
    var tokens := ["articles"];
    MatchLiteralParam("articles", "id", tokens);
    MatchLiteral("anyMethod", tokens);
    forall j | 0 <= j < |t[verb]| ensures !Hits(t[verb][j], tokens) {
    }
    DispatchNotFound(t, StringNotFound, verb, tokens);
  }
}
