# HTTP routing in Dafny

A model of the HTTP routing engine of Netty's codec-http `routing`
package, with proofs of what its tests and its concrete `StringRouter`
table promise.

- **Paths** (`Paths.dfy`). A request path or a pattern string is split on
  `/`, and its empty components are dropped. So leading, trailing and
  doubled slashes carry no meaning.
- **Patterns** (`Patterns.dfy`). Each token of a pattern string is a
  segment:
  - a literal, which matches only the same text;
  - `:name`, which captures exactly one token;
  - a final `:*`, which captures the remaining tokens, re-joined with `/`,
    under the key `"*"`.

  `Match` is the structural matcher. `Fits` and `Binds` are independent
  reference definitions of when a pattern fits and what it captures.
- **Route tables** (`RouteTable.dfy`). An ordered list of (pattern string,
  target) entries. Routing returns the first entry that matches, with its
  captures, or nothing. Removal by target or by pattern keeps the other
  entries in order.
- **The methodless router** (`MethodlessRouter.dfy`). A class holding one
  table, mutated in place by `Pattern`, `PatternFirst`, `RemoveTarget`
  and `RemovePath`. Registration calls return the router itself.
- **The method router** (`Router.dfy`).
  - One table for each of the nine HTTP methods.
  - `Any` appends an entry to every method's table.
  - One not-found target is shared by all methods. When nothing matches,
    routing returns that target, flagged as not-found, with no parameters.
- **The string router** (`StringRouter.dfy`). The concrete router the tests
  query, built by the same chain of registration calls. It comes with the
  routing facts about its table.
- **The tests** (`RoutingTest.dfy`). One method per test. Each drives the
  routers as the test does, and its postcondition states the whole routed
  value the test inspects.
- **The handler** (`Handler.dfy`). What the channel handler does with the
  router's answer: it answers 404 itself on no answer, and otherwise hands
  on the target, the not-found flag and the parameters.

The implementation files of `Router`, `MethodlessRouter` and `Routed` are
not part of this model. Their behaviour is taken from the tests and from the
`StringRouter` table. Where those leave something open, the model makes its
own choice; the choices are listed under "Left out".

## Model

| member | source | states |
|---|---|---|
| Paths.Tokens | codec-http/src/test/java/io/netty/handler/codec/http/routing/RoutingTest.java:26-34 | the normalised form of a path: its non-empty '/'-separated components, in order (properties in the lemmas below) |
| Paths.LeadingSlash | codec-http/src/test/java/io/netty/handler/codec/http/routing/RoutingTest.java:28 | a leading slash does not change a path's tokens |
| Paths.TrailingSlash | codec-http/src/test/java/io/netty/handler/codec/http/routing/RoutingTest.java:30 | a trailing slash does not change a path's tokens |
| Paths.TokensSplit | codec-http/src/test/java/io/netty/handler/codec/http/routing/RoutingTest.java:45 | a slash between two strings separates their tokens, whatever slashes either already carries |
| Paths.TokensOfWord | codec-http/src/test/java/io/netty/handler/codec/http/routing/RoutingTest.java:27 | a non-empty slash-free string is exactly one token |
| Paths.TokensClean | codec-http/src/test/java/io/netty/handler/codec/http/routing/RoutingTest.java:26-34 | normalisation yields only non-empty, slash-free tokens |
| Paths.JoinComponents | codec-http/src/test/java/io/netty/handler/codec/http/routing/RoutingTest.java:63 | joining the '/'-separated components of a string gives the string back |
| Paths.ComponentsJoin | codec-http/src/test/java/io/netty/handler/codec/http/routing/RoutingTest.java:63 | splitting the join of slash-free parts gives the parts back |
| Paths.TokensJoin | codec-http/src/test/java/io/netty/handler/codec/http/routing/RoutingTest.java:63 | a splat capture such as "foo/bar.png" splits back into exactly the tokens it was joined from |
| Paths.NonEmptyAppend | codec-http/src/test/java/io/netty/handler/codec/http/routing/RoutingTest.java:26-34 | dropping empty components distributes over concatenation |
| Patterns.Classify | codec-http/src/test/java/io/netty/handler/codec/http/routing/StringRouter.java:34-42 | ":*" is the splat, any other token starting with ':' is a parameter named by the rest of it, and anything else is literal text |
| Patterns.Compile | codec-http/src/test/java/io/netty/handler/codec/http/routing/StringRouter.java:34-42 | a pattern string compiles to one segment per token of its normalised form, each token read by `Classify` |
| Patterns.Match | codec-http/src/test/java/io/netty/handler/codec/http/routing/RoutingTest.java:44-64 | the structural match of a pattern against path tokens: the captured parameters, or None; characterised by `MatchSpec` |
| Patterns.MatchSpec | codec-http/src/test/java/io/netty/handler/codec/http/routing/RoutingTest.java:44-49 | for a well-formed pattern, the matcher succeeds exactly when the pattern fits: literals equal their tokens, and there are exactly as many tokens as segments, or at least as many after a splat. It then binds exactly the parameter names (plus "*" after a splat), each to its own token, and the splat to the remaining tokens re-joined |
| RouteTable.FirstMatch | codec-http/src/test/java/io/netty/handler/codec/http/routing/RoutingTest.java:66-75 | routing in one table: the first matching entry's target and captures, unflagged, or None; characterised by the FirstMatch lemmas |
| RouteTable.Without | codec-http/src/test/java/io/netty/handler/codec/http/routing/RoutingTest.java:93-107 | a table after a removal call, the kept entries in their order; characterised by the Without lemmas |
| RouteTable.FirstMatchNone | codec-http/src/test/java/io/netty/handler/codec/http/routing/RoutingTest.java:52-56 | routing in a table yields nothing exactly when no entry matches |
| RouteTable.FirstMatchAt | codec-http/src/test/java/io/netty/handler/codec/http/routing/RoutingTest.java:66-75 | when entry i matches and no earlier entry does, routing returns entry i's target and captures, unflagged |
| RouteTable.FirstMatchWitness | codec-http/src/test/java/io/netty/handler/codec/http/routing/RoutingTest.java:66-75 | any answer comes from a matching entry that no earlier entry pre-empts |
| RouteTable.FirstMatchPrepend | codec-http/src/test/java/io/netty/handler/codec/http/routing/StringRouter.java:37 | an entry put in front wins whenever it matches; otherwise the table answers as before |
| RouteTable.FirstMatchAppend | codec-http/src/test/java/io/netty/handler/codec/http/routing/StringRouter.java:34-36 | an appended entry changes no existing answer and answers exactly the paths nothing earlier took |
| RouteTable.WithoutSpec | codec-http/src/test/java/io/netty/handler/codec/http/routing/RoutingTest.java:93-107 | removal keeps exactly the entries it does not drop, and removing what no entry matches changes nothing |
| RouteTable.WithoutSound | codec-http/src/test/java/io/netty/handler/codec/http/routing/RoutingTest.java:96 | every entry left after a removal was in the table and is not dropped |
| RouteTable.WithoutComplete | codec-http/src/test/java/io/netty/handler/codec/http/routing/RoutingTest.java:104 | no entry that a removal does not drop is lost |
| RouteTable.WithoutNothing | codec-http/src/test/java/io/netty/handler/codec/http/routing/RoutingTest.java:96 | a removal that drops no entry leaves the table unchanged |
| RouteTable.WithoutValid | codec-http/src/test/java/io/netty/handler/codec/http/routing/RoutingTest.java:96 | removal keeps every remaining pattern well-formed |
| RouteTable.WithoutIdempotent | codec-http/src/test/java/io/netty/handler/codec/http/routing/RoutingTest.java:96 | removing twice is removing once |
| RouteTable.WithoutKeepsWinner | codec-http/src/test/java/io/netty/handler/codec/http/routing/RoutingTest.java:93-107 | a removal that keeps the winning entry leaves the answer unchanged |
| RouteTable.WithoutOnlyKept | codec-http/src/test/java/io/netty/handler/codec/http/routing/RoutingTest.java:93-107 | after a removal, every answer comes from a kept entry |
| RouteTable.RemoveTargetRouting | codec-http/src/test/java/io/netty/handler/codec/http/routing/RoutingTest.java:94-99 | after removeTarget, routing never yields that target, and paths won by other targets route as before |
| RouteTable.RemovePathLeavesNone | codec-http/src/test/java/io/netty/handler/codec/http/routing/RoutingTest.java:104 | in any table, after removePath no remaining entry was registered under a pattern that normalises like the path |
| RouteTable.RemovePathRouting | codec-http/src/test/java/io/netty/handler/codec/http/routing/RoutingTest.java:102-107 | after removePath, a path won by an entry registered under another pattern routes as before |
| RouteTable.Lookup | codec-http/src/test/java/io/netty/handler/codec/http/routing/RoutingTest.java:54 | the scanning loop returns the first match of the table |
| RouteTable.Remove | codec-http/src/test/java/io/netty/handler/codec/http/routing/RoutingTest.java:96 | the copying loop keeps exactly the entries the removal does not drop, in order |
| Methodless.MethodlessRouter.constructor | codec-http/src/test/java/io/netty/handler/codec/http/routing/RoutingTest.java:53 | a new router has an empty table |
| Methodless.MethodlessRouter.Pattern | codec-http/src/test/java/io/netty/handler/codec/http/routing/RoutingTest.java:53 | appends the entry after every existing one and returns the router itself |
| Methodless.MethodlessRouter.PatternFirst | codec-http/src/test/java/io/netty/handler/codec/http/routing/StringRouter.java:37 | puts the entry ahead of every existing one and returns the router itself |
| Methodless.MethodlessRouter.RemoveTarget | codec-http/src/test/java/io/netty/handler/codec/http/routing/RoutingTest.java:96 | the table becomes the old table without the entries for that target |
| Methodless.MethodlessRouter.RemovePath | codec-http/src/test/java/io/netty/handler/codec/http/routing/RoutingTest.java:104 | the table becomes the old table without the entries whose pattern normalises like the path |
| Methodless.MethodlessRouter.Route | codec-http/src/test/java/io/netty/handler/codec/http/routing/RoutingTest.java:54 | returns the first match of the table for the normalised path, or None for null |
| MethodRouting.Ordinal | codec-http/src/test/java/io/netty/handler/codec/http/routing/StringRouter.java:23-31 | each method sits at its own position of the nine-method enumeration |
| MethodRouting.AllMethodsExact | codec-http/src/test/java/io/netty/handler/codec/http/routing/StringRouter.java:23-31 | the method set is exactly the nine methods CONNECT to TRACE, each listed once |
| MethodRouting.Dispatch | codec-http/src/test/java/io/netty/handler/codec/http/routing/RoutingTest.java:67-79 | routing under a method: the first match in that method's table, else the not-found target flagged with no parameters, else None; characterised by the Dispatch lemmas |
| MethodRouting.DispatchNone | codec-http/src/test/java/io/netty/handler/codec/http/routing/StringRouter.java:43 | routing yields nothing exactly when no entry of the method's table matches and no not-found target is set |
| MethodRouting.DispatchNotFound | codec-http/src/test/java/io/netty/handler/codec/http/routing/StringRouter.java:43 | the not-found flag is set exactly when nothing in the method's table matches and a not-found target is set; the answer is then that target with no parameters |
| MethodRouting.DispatchFound | codec-http/src/test/java/io/netty/handler/codec/http/routing/RoutingTest.java:45-48 | an unflagged answer is the first matching entry of the method's own table, with its captures |
| MethodRouting.DispatchIgnoresSlashes | codec-http/src/test/java/io/netty/handler/codec/http/routing/RoutingTest.java:26-34 | a leading or trailing slash does not change where a path routes under any method |
| MethodRouting.AnyMethodRouting | codec-http/src/test/java/io/netty/handler/codec/http/routing/StringRouter.java:41 | after an any-method registration, every method answers with the new entry each path nothing earlier in its table took; a path its table already answered, and a path neither its table nor the new entry takes, route exactly as before (the not-found target or nothing) |
| MethodRouting.AppendAll | codec-http/src/test/java/io/netty/handler/codec/http/routing/StringRouter.java:41 | the loop over the nine methods appends the entry to each table |
| MethodRouting.RemoveAll | codec-http/src/test/java/io/netty/handler/codec/http/routing/RoutingTest.java:93-107 | the loop over the nine methods applies the removal to each table |
| MethodRouting.Router.constructor | codec-http/src/test/java/io/netty/handler/codec/http/routing/StringRouter.java:33 | a new router has an empty table for each of the nine methods and no not-found target |
| MethodRouting.Router.Pattern | codec-http/src/test/java/io/netty/handler/codec/http/routing/StringRouter.java:21 | appends the entry to the method's table only, leaves the other tables and the not-found target alone, and returns the router itself |
| MethodRouting.Router.PatternFirst | codec-http/src/test/java/io/netty/handler/codec/http/routing/StringRouter.java:37 | puts the entry ahead of the method's existing entries, leaves everything else alone, and returns the router itself |
| MethodRouting.Router.Any | codec-http/src/test/java/io/netty/handler/codec/http/routing/StringRouter.java:41 | appends the entry to every method's table and returns the router itself |
| MethodRouting.Router.NotFound | codec-http/src/test/java/io/netty/handler/codec/http/routing/StringRouter.java:43 | sets the one shared not-found target, leaves the tables alone, and returns the router itself |
| MethodRouting.Router.RemoveTarget | codec-http/src/test/java/io/netty/handler/codec/http/routing/RoutingTest.java:96 | removes the target's entries from every method's table |
| MethodRouting.Router.RemovePath | codec-http/src/test/java/io/netty/handler/codec/http/routing/RoutingTest.java:104 | removes the path's entries from every method's table |
| MethodRouting.Router.Route | codec-http/src/test/java/io/netty/handler/codec/http/routing/RoutingTest.java:45 | routes the normalised path in the method's table and falls back to the flagged not-found target, or None |
| StringRouting.ChainTables | codec-http/src/test/java/io/netty/handler/codec/http/routing/StringRouter.java:34-43 | the nine method tables the chain of registration calls builds, over its six pattern strings |
| StringRouting.StringTables | codec-http/src/test/java/io/netty/handler/codec/http/routing/StringRouter.java:33-43 | the string router's tables, the chain's tables over its actual pattern strings |
| StringRouting.ArticlesPattern | codec-http/src/test/java/io/netty/handler/codec/http/routing/StringRouter.java:34 | "/articles" compiles to the single literal "articles" |
| StringRouting.ArticleIdPattern | codec-http/src/test/java/io/netty/handler/codec/http/routing/StringRouter.java:35 | "/articles/:id" compiles to the literal "articles" then the parameter "id" |
| StringRouting.ArticleFormatPattern | codec-http/src/test/java/io/netty/handler/codec/http/routing/StringRouter.java:36 | "/articles/:id/:format" compiles to "articles", then the parameters "id" and "format" |
| StringRouting.ArticleNewPattern | codec-http/src/test/java/io/netty/handler/codec/http/routing/StringRouter.java:37 | "/articles/new" compiles to the literals "articles" and "new" |
| StringRouting.AnyMethodPattern | codec-http/src/test/java/io/netty/handler/codec/http/routing/StringRouter.java:41 | "/anyMethod" compiles to the single literal "anyMethod" |
| StringRouting.DownloadPattern | codec-http/src/test/java/io/netty/handler/codec/http/routing/StringRouter.java:42 | "/download/:*" compiles to the literal "download" then the splat |
| StringRouting.StringPatterns | codec-http/src/test/java/io/netty/handler/codec/http/routing/StringRouter.java:34-42 | the six pattern strings of the chain have those compiled forms |
| StringRouting.ChainWellFormed | codec-http/src/test/java/io/netty/handler/codec/http/routing/StringRouter.java:34-42 | every pattern of the chain is well-formed |
| StringRouting.FirstSevenCalls | codec-http/src/test/java/io/netty/handler/codec/http/routing/StringRouter.java:34-40 | the first seven calls leave GET with new, index, show, show (new in front), POST with post, PATCH with patch, DELETE with delete, and the other methods empty |
| StringRouting.LastTwoCalls | codec-http/src/test/java/io/netty/handler/codec/http/routing/StringRouter.java:41-43 | ANY then GET then notFound add anyMethod to every table and then download to GET |
| StringRouting.Chain | codec-http/src/test/java/io/netty/handler/codec/http/routing/StringRouter.java:33-43 | the chained calls on one router build exactly the string router's tables with not-found target "404" |
| StringRouting.NewStringRouter | codec-http/src/test/java/io/netty/handler/codec/http/routing/StringRouter.java:33-43 | the string router holds exactly its tables and the not-found target "404" |
| StringRouting.MatchLiteralParam | codec-http/src/test/java/io/netty/handler/codec/http/routing/RoutingTest.java:44-49 | a literal-then-parameter pattern matches two tokens with the right head and captures the second as the parameter |
| StringRouting.MatchLiteralSplat | codec-http/src/test/java/io/netty/handler/codec/http/routing/RoutingTest.java:59-64 | a literal-then-splat pattern matches two or more tokens with the right head, capturing the rest re-joined under "*" |
| StringRouting.GetArticles | codec-http/src/test/java/io/netty/handler/codec/http/routing/RoutingTest.java:37-41 | GET "articles" routes to "index" with no parameters |
| StringRouting.GetArticle | codec-http/src/test/java/io/netty/handler/codec/http/routing/RoutingTest.java:66-75 | GET "articles/x" routes to "new" with no parameters when x is "new", and otherwise to "show" with only id = x |
| StringRouting.GetArticleFormat | codec-http/src/test/java/io/netty/handler/codec/http/routing/StringRouter.java:36 | GET "articles/x/y" routes to "show" with id = x and format = y |
| StringRouting.FrontInsertionDecides | codec-http/src/test/java/io/netty/handler/codec/http/routing/StringRouter.java:35-37 | without the front-inserted entry, "articles/new" would reach "show" with id "new": the table order decides |
| StringRouting.GetDownload | codec-http/src/test/java/io/netty/handler/codec/http/routing/RoutingTest.java:59-64 | GET "download/x/y" routes to "download" with only "*" = "x/y" |
| StringRouting.AnyMethodEverywhere | codec-http/src/test/java/io/netty/handler/codec/http/routing/StringRouter.java:41 | "anyMethod" routes to "anyMethod" with no parameters under every one of the nine methods |
| StringRouting.OtherMethods | codec-http/src/test/java/io/netty/handler/codec/http/routing/StringRouter.java:38-40 | "articles" is "post" under POST, and "articles/x" is "patch" under PATCH and "delete" under DELETE, each with id = x |
| StringRouting.ArticlesScoped | codec-http/src/test/java/io/netty/handler/codec/http/routing/StringRouter.java:34-40 | "articles" is registered only for GET and POST: every other method routes it to the flagged "404" |
| StringRouting.NotFoundEverywhere | codec-http/src/test/java/io/netty/handler/codec/http/routing/StringRouter.java:43 | an unregistered one-token path routes to "404", flagged, with no parameters, under every method |
| RoutingTests.DoubleLeading | codec-http/src/test/java/io/netty/handler/codec/http/routing/RoutingTest.java:29 | two leading slashes do not change a path's tokens |
| RoutingTests.DoubleTrailing | codec-http/src/test/java/io/netty/handler/codec/http/routing/RoutingTest.java:31 | two trailing slashes do not change a path's tokens |
| RoutingTests.BothEnds | codec-http/src/test/java/io/netty/handler/codec/http/routing/RoutingTest.java:32 | a slash at both ends does not change a path's tokens |
| RoutingTests.DoubleBothEnds | codec-http/src/test/java/io/netty/handler/codec/http/routing/RoutingTest.java:33 | two slashes at both ends do not change a path's tokens |
| RoutingTests.ArticlesSpellings | codec-http/src/test/java/io/netty/handler/codec/http/routing/RoutingTest.java:27-33 | all seven spellings of "articles" normalise to the one token "articles" |
| RoutingTests.RouteArticles | codec-http/src/test/java/io/netty/handler/codec/http/routing/RoutingTest.java:27 | on the string router, GET of any path normalising to "articles" gives "index" with no parameters |
| RoutingTests.RouteLeadingSpellings | codec-http/src/test/java/io/netty/handler/codec/http/routing/RoutingTest.java:27-29 | "articles", "/articles" and "//articles" all route GET to "index" |
| RoutingTests.RouteTrailingSpellings | codec-http/src/test/java/io/netty/handler/codec/http/routing/RoutingTest.java:30-33 | "articles/", "articles//", "/articles/" and "//articles//" all route GET to "index" |
| RoutingTests.IgnoreSlashesAtBothEnds | codec-http/src/test/java/io/netty/handler/codec/http/routing/RoutingTest.java:26-34 | testIgnoreSlashesAtBothEnds: all seven spellings of "articles" route GET to "index" |
| RoutingTests.RouteArticle | codec-http/src/test/java/io/netty/handler/codec/http/routing/RoutingTest.java:68-75 | GET "articles/x" gives "new" for x = "new" and otherwise "show" with only id = x |
| RoutingTests.RouteDownload | codec-http/src/test/java/io/netty/handler/codec/http/routing/RoutingTest.java:60 | GET "download/x/y" gives "download" with only "*" = "x/y" |
| RoutingTests.RouteAnyMethod | codec-http/src/test/java/io/netty/handler/codec/http/routing/RoutingTest.java:84-91 | "anyMethod" gives "anyMethod" with no parameters under any method |
| RoutingTests.RouteMissing | codec-http/src/test/java/io/netty/handler/codec/http/routing/RoutingTest.java:77-79 | a one-token path nothing takes gives the flagged "404" with no parameters under any method |
| RoutingTests.DownloadTokens | codec-http/src/test/java/io/netty/handler/codec/http/routing/RoutingTest.java:60 | "/download/foo/bar.png" normalises to "download", "foo", "bar.png" |
| RoutingTests.OrderTokens | codec-http/src/test/java/io/netty/handler/codec/http/routing/RoutingTest.java:68-77 | the three paths of the order test normalise to their tokens |
| RoutingTests.HandleEmptyParams | codec-http/src/test/java/io/netty/handler/codec/http/routing/RoutingTest.java:37-41 | testHandleEmptyParams: GET "/articles" gives "index" with no parameters |
| RoutingTests.HandleParams | codec-http/src/test/java/io/netty/handler/codec/http/routing/RoutingTest.java:44-49 | testHandleParams: GET "/articles/123" gives "show" with only id = "123" |
| RoutingTests.HandleSplatWildcard | codec-http/src/test/java/io/netty/handler/codec/http/routing/RoutingTest.java:59-64 | testHandleSplatWildcard: GET "/download/foo/bar.png" gives "download" with only "*" = "foo/bar.png" |
| RoutingTests.HandleOrder | codec-http/src/test/java/io/netty/handler/codec/http/routing/RoutingTest.java:67-80 | testHandleOrder: "/articles/new" gives "new" with no parameters, "/articles/123" gives "show" with only id = "123", and "/notfound" gives the flagged "404" with no parameters |
| RoutingTests.HandleAnyMethod | codec-http/src/test/java/io/netty/handler/codec/http/routing/RoutingTest.java:83-91 | testHandleAnyMethod: "/anyMethod" gives "anyMethod" with no parameters under GET and under POST |
| RoutingTests.ArticlesOnlyMisses | codec-http/src/test/java/io/netty/handler/codec/http/routing/RoutingTest.java:52-56 | a table holding only "/articles" answers no other one-token path |
| RoutingTests.NoexistTokens | codec-http/src/test/java/io/netty/handler/codec/http/routing/RoutingTest.java:54 | "/noexist" normalises to the one token "noexist" |
| RoutingTests.HandleNone | codec-http/src/test/java/io/netty/handler/codec/http/routing/RoutingTest.java:52-56 | testHandleNone: a methodless router holding only "/articles" routes "/noexist" to nothing (null) |
| RoutingTests.HandleRemoveByTarget | codec-http/src/test/java/io/netty/handler/codec/http/routing/RoutingTest.java:94-99 | testHandleRemoveByTarget: after removeTarget("index"), "/articles" routes to nothing |
| RoutingTests.HandleRemoveByPath | codec-http/src/test/java/io/netty/handler/codec/http/routing/RoutingTest.java:102-107 | testHandleRemoveByPath: after removePath("/articles"), "/articles" routes to nothing |
| RoutingTests.SubclassTokens | codec-http/src/test/java/io/netty/handler/codec/http/routing/RoutingTest.java:117-118 | "/articles" and "/articles/123" normalise to one and two tokens |
| RoutingTests.IndexThenShow | codec-http/src/test/java/io/netty/handler/codec/http/routing/RoutingTest.java:112-121 | for any target type, "articles" reaches the first target and "articles/x" the second with id = x |
| RoutingTests.HandleSubclasses | codec-http/src/test/java/io/netty/handler/codec/http/routing/RoutingTest.java:112-121 | testHandleSubclasses: "/articles" gives Index and "/articles/123" gives Show with id = "123" |
| Handler.Handle | codec-http/src/main/java/io/netty/handler/codec/http/router/AbstractHandler.java:69-87 | the handler's decision for one request: 100-continue, its own 404 when the router answers nothing, or the routed target, flag, path and parameters handed on; characterised by the lemmas below |
| Handler.RespondsNotFoundExactly | codec-http/src/main/java/io/netty/handler/codec/http/router/AbstractHandler.java:79-82 | the handler answers 404 itself exactly when the request does not expect 100-continue, nothing in the method's table matches, and no not-found target is set |
| Handler.FallbackAlwaysDispatches | codec-http/src/main/java/io/netty/handler/codec/http/router/AbstractHandler.java:79-86 | with a not-found target set, every request that does not expect 100-continue is handed on |
| Handler.DispatchedCarriesRoute | codec-http/src/main/java/io/netty/handler/codec/http/router/AbstractHandler.java:84-86 | a request handed on carries the router's target, not-found flag and parameters unchanged, and the path; a flagged one carries the not-found target and no parameters |

## Left out

- The implementation files of `Router`, `MethodlessRouter` and `Routed` are
  not part of this model. Where the tests leave something open, the model
  decides as follows:
  - an any-method entry is copied into every method's table when it is
    registered;
  - a splat needs at least one remaining token;
  - `removePath` compares normalised tokens, and it removes every entry
    that matches, not only the first.
- Pattern validation errors are not modelled. Registration requires a
  well-formed pattern: the splat comes last, and parameter names are
  non-empty, distinct and not "*". What the router does with any other
  pattern is left unspecified.
- The insertion order of captured parameters is not modelled. Parameters
  are a map; its size is what the tests check.
- Java class literals used as targets (`Index.class`, `Show.class`) become
  a generic target type with equality. The test uses the datatype `Action`.
- Only the nine enumerated methods are modelled. An `HttpMethod` outside
  them has no table here.
- StringRouting.NotFoundEverywhere: also covers the one-token path
  "download", which falls back to "404" only because the model's splat needs
  at least one remaining token; no source line shows that case, and
  RoutingTests.RouteMissing inherits the same consequence.
- StringRouting.GetDownload: stated for a remainder of exactly two tokens,
  which is the tested case. The general splat capture is
  `Patterns.MatchSpec`.
- The channel handler's I/O is not modelled:
  - writing "100 Continue", modelled only as the `Continue` outcome
    (`codec-http/src/main/java/io/netty/handler/codec/http/router/AbstractHandler.java:69-72`);
  - query-string decoding: the handler takes the decoded path, and the
    query parameters are dropped;
  - the 404 response body, headers and `KeepAliveWrite` (`codec-http/src/main/java/io/netty/handler/codec/http/router/AbstractHandler.java:90-102`);
  - the abstract `routed` callback, and the request object carried with
    the routed value.
- The handler constructor's null check (`codec-http/src/main/java/io/netty/handler/codec/http/router/AbstractHandler.java:39-44`) has no counterpart,
  because Dafny references are never null.
- Concurrent use of a shared router (`@ChannelHandler.Sharable`,
  `codec-http/src/main/java/io/netty/handler/codec/http/router/AbstractHandler.java:32`) is not modelled. The router is single-threaded.
- Printing the route table (`codec-http/src/test/java/io/netty/handler/codec/http/routing/StringRouter.java:45-48`) is console output.
- The example server (`HttpRouterServer`, `HttpRouterServerHandler`) is
  network bootstrap and response writing.
