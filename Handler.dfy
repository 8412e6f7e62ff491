/** The routing step of the channel handler: what it does with one request
    once the router has answered. The writes to the channel, query-string
    decoding and the response bytes are not modelled; the handler's choice
    between them is. */
module Handler {
  import opened Wrappers
  import opened Paths
  import opened RouteTable
  import opened MethodRouting

  /** What the handler does with a request: answer "100 Continue" and stop,
      answer "404 Not Found" itself, or hand the routed request on. */
  datatype Outcome<T> =
    | Continue
    | RespondNotFound
    | Dispatched(target: T, notFound: bool, path: string, pathParams: map<string, string>)

  /** The handler's decision for a request whose method is `verb` and whose
      decoded path is `path`, against a router with the given tables and
      not-found target. */
  function Handle<T>(tables: Tables<T>, notFound: Option<T>, continueExpected: bool,
                     verb: Method, path: string): Outcome<T>
    requires verb in tables
  {
    if continueExpected then Continue
    else match Dispatch(tables, notFound, verb, Tokens(path))
      case None => RespondNotFound
      case Some(routed) => Dispatched(routed.target, routed.notFound, path, routed.params)
  }

  /** The handler answers 404 itself exactly when the request does not
      expect 100-continue, no entry of the method's table matches, and the
      router has no not-found target. */
  lemma RespondsNotFoundExactly<T>(tables: Tables<T>, notFound: Option<T>, continueExpected: bool,
                                   verb: Method, path: string)
    requires verb in tables
    ensures Handle(tables, notFound, continueExpected, verb, path).RespondNotFound? <==>
      !continueExpected && notFound.None? &&
      forall i :: 0 <= i < |tables[verb]| ==> !Hits(tables[verb][i], Tokens(path))
  {
    DispatchNone(tables, notFound, verb, Tokens(path));
  }

  /** With a not-found target configured, the handler never answers 404
      itself: a request that does not expect 100-continue is always handed
      on. */
  lemma FallbackAlwaysDispatches<T>(tables: Tables<T>, notFound: Option<T>, continueExpected: bool,
                                    verb: Method, path: string)
    requires verb in tables && notFound.Some? && !continueExpected
    ensures Handle(tables, notFound, continueExpected, verb, path).Dispatched?
  {
    RespondsNotFoundExactly(tables, notFound, continueExpected, verb, path);
  }

  /** A request handed on carries the router's target, not-found flag and
      path parameters unchanged, together with the decoded path. A flagged
      one carries the not-found target and no parameters. */
  lemma DispatchedCarriesRoute<T>(tables: Tables<T>, notFound: Option<T>, continueExpected: bool,
                                  verb: Method, path: string)
    requires verb in tables
    ensures var o := Handle(tables, notFound, continueExpected, verb, path);
      o.Dispatched? ==>
        && Dispatch(tables, notFound, verb, Tokens(path))
           == Some(Routed(o.target, o.notFound, o.pathParams))
        && o.path == path
        && (o.notFound ==> notFound == Some(o.target) && o.pathParams == map[])
  {
    DispatchNotFound(tables, notFound, verb, Tokens(path));
  }
}
