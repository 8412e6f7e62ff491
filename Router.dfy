/** `Router`: one route table per HTTP method, plus a single not-found target
    shared by all methods. An any-method registration is copied into every
    method's table at the point of registration. */
module MethodRouting {
  import opened Wrappers
  import opened Paths
  import opened Patterns
  import opened RouteTable

  /** The HTTP methods a router dispatches on. */
  datatype Method = CONNECT | DELETE | GET | HEAD | OPTIONS | PATCH | POST | PUT | TRACE

  const AllMethods: seq<Method> := [CONNECT, DELETE, GET, HEAD, OPTIONS, PATCH, POST, PUT, TRACE]

  /** The position of a method in the enumeration. */
  function Ordinal(m: Method): (k: nat)
    ensures k < |AllMethods| && AllMethods[k] == m
  {
    match m
    case CONNECT => 0
    case DELETE => 1
    case GET => 2
    case HEAD => 3
    case OPTIONS => 4
    case PATCH => 5
    case POST => 6
    case PUT => 7
    case TRACE => 8
  }

  /** The method enumeration lists each of the nine methods exactly once. */
  lemma AllMethodsExact()
    ensures |AllMethods| == 9
    ensures forall m: Method :: m in AllMethods
    ensures forall i, j :: 0 <= i < j < |AllMethods| ==> AllMethods[i] != AllMethods[j]
  {
    forall m: Method ensures m in AllMethods {
      assert AllMethods[Ordinal(m)] == m;
    }
  }

  lemma OrdinalAt(k: nat)
    requires k < |AllMethods|
    ensures Ordinal(AllMethods[k]) == k
  {
  }

  type Tables<T> = map<Method, seq<Entry<T>>>

  /** A table for every method, each holding valid entries. */
  predicate ValidTables<T>(tables: Tables<T>) {
    forall m: Method :: m in tables && ValidTable(tables[m])
  }

  /** What routing `tokens` under `verb` returns: the first match in that
      method's table; failing that, the not-found target flagged as such with
      no parameters; failing that, None. */
  function Dispatch<T>(tables: Tables<T>, notFound: Option<T>, verb: Method, tokens: seq<string>): Option<Routed<T>>
    requires verb in tables
  {
    match FirstMatch(tables[verb], tokens)
    case Some(routed) => Some(routed)
    case None =>
      if notFound.Some? then Some(Routed(notFound.value, true, map[])) else None
  }

  /** Routing yields nothing exactly when no entry of the method's table
      matches and no not-found target is configured. */
  lemma DispatchNone<T>(tables: Tables<T>, notFound: Option<T>, verb: Method, tokens: seq<string>)
    requires verb in tables
    ensures Dispatch(tables, notFound, verb, tokens).None? <==>
      notFound.None? && forall i :: 0 <= i < |tables[verb]| ==> !Hits(tables[verb][i], tokens)
  {
    FirstMatchNone(tables[verb], tokens);
  }

  /** The not-found flag is set exactly when no entry of the method's table
      matches and a not-found target is configured; the result then carries
      that target and no parameters. */
  lemma DispatchNotFound<T>(tables: Tables<T>, notFound: Option<T>, verb: Method, tokens: seq<string>)
    requires verb in tables
    ensures (Dispatch(tables, notFound, verb, tokens).Some? && Dispatch(tables, notFound, verb, tokens).value.notFound) <==>
      notFound.Some? && forall i :: 0 <= i < |tables[verb]| ==> !Hits(tables[verb][i], tokens)
    ensures notFound.Some? && (forall i :: 0 <= i < |tables[verb]| ==> !Hits(tables[verb][i], tokens)) ==>
      Dispatch(tables, notFound, verb, tokens) == Some(Routed(notFound.value, true, map[]))
  {
    FirstMatchNone(tables[verb], tokens);
    if FirstMatch(tables[verb], tokens).Some? {
      FirstMatchWitness(tables[verb], tokens);
    }
  }

  /** A result without the not-found flag comes from the first entry of the
      method's own table that matches: its target, and the parameters its
      pattern captures. */
  lemma DispatchFound<T>(tables: Tables<T>, notFound: Option<T>, verb: Method, tokens: seq<string>)
    requires verb in tables
    requires Dispatch(tables, notFound, verb, tokens).Some? && !Dispatch(tables, notFound, verb, tokens).value.notFound
    ensures exists i :: (0 <= i < |tables[verb]| && Hits(tables[verb][i], tokens)
                         && (forall j :: 0 <= j < i ==> !Hits(tables[verb][j], tokens))
                         && Dispatch(tables, notFound, verb, tokens)
                            == Some(Routed(tables[verb][i].target, false, Match(tables[verb][i].pattern, tokens).value)))
  {
    FirstMatchWitness(tables[verb], tokens);
  }

  /** Leading, trailing and repeated slashes around a path do not change where
      it routes. */
  lemma DispatchIgnoresSlashes<T>(tables: Tables<T>, notFound: Option<T>, verb: Method, path: string)
    requires verb in tables
    ensures Dispatch(tables, notFound, verb, Tokens("/" + path)) == Dispatch(tables, notFound, verb, Tokens(path))
    ensures Dispatch(tables, notFound, verb, Tokens(path + "/")) == Dispatch(tables, notFound, verb, Tokens(path))
  {
    LeadingSlash(path);
    TrailingSlash(path);
  }

  /** The tables after an any-method registration: `e` appended under every method. */
  function AppendedEverywhere<T>(tables: Tables<T>, e: Entry<T>): (r: Tables<T>)
    ensures r.Keys == tables.Keys
    ensures forall m: Method :: m in tables ==> r[m] == tables[m] + [e]
  {
    map m | m in tables :: tables[m] + [e]
  }

  /** An any-method registration answers under every method each path that no
      earlier entry of that method answered, and leaves every other answer as
      it was. */
  lemma AnyMethodRouting<T>(tables: Tables<T>, notFound: Option<T>, e: Entry<T>, tokens: seq<string>, verb: Method)
    requires verb in tables
    ensures FirstMatch(tables[verb], tokens).None? && Hits(e, tokens) ==>
      Dispatch(AppendedEverywhere(tables, e), notFound, verb, tokens)
      == Some(Routed(e.target, false, Match(e.pattern, tokens).value))
    ensures FirstMatch(tables[verb], tokens).Some? ==>
      Dispatch(AppendedEverywhere(tables, e), notFound, verb, tokens) == Dispatch(tables, notFound, verb, tokens)
    ensures FirstMatch(tables[verb], tokens).None? && !Hits(e, tokens) ==>
      Dispatch(AppendedEverywhere(tables, e), notFound, verb, tokens) == Dispatch(tables, notFound, verb, tokens)
  {
    FirstMatchAppend(tables[verb], e, tokens);
  }

  /** The tables after a removal call: the removal applied to every method's
      table. */
  function RemovedEverywhere<T(==)>(tables: Tables<T>, r: Removal<T>): (t: Tables<T>)
    ensures t.Keys == tables.Keys
    ensures forall m: Method :: m in tables ==> t[m] == Without(tables[m], r)
  {
    map m | m in tables :: Without(tables[m], r)
  }

  /** Applying a removal to every method's table keeps the tables valid. */
  lemma RemovedEverywhereValid<T>(tables: Tables<T>, r: Removal<T>)
    requires ValidTables(tables)
    ensures ValidTables(RemovedEverywhere(tables, r))
  {
    forall m: Method ensures ValidTable(RemovedEverywhere(tables, r)[m]) {
      WithoutValid(tables[m], r);
    }
  }

  /** Replacing the tables with the valid `e` appended keeps them valid. */
  lemma AppendedEverywhereValid<T>(tables: Tables<T>, e: Entry<T>)
    requires ValidTables(tables) && ValidEntry(e)
    ensures ValidTables(AppendedEverywhere(tables, e))
  {
    forall m: Method ensures ValidTable(AppendedEverywhere(tables, e)[m]) {
      assert AppendedEverywhere(tables, e)[m] == tables[m] + [e];
    }
  }

  /** Halfway through a loop over the methods: the methods before position
      `i` of the enumeration hold their `goal` table, the others their
      original one. */
  function Blend<T>(tables: Tables<T>, goal: Tables<T>, i: nat): Tables<T>
    requires goal.Keys == tables.Keys
  {
    map m | m in tables :: if Ordinal(m) < i then goal[m] else tables[m]
  }

  lemma BlendStart<T>(tables: Tables<T>, goal: Tables<T>)
    requires goal.Keys == tables.Keys
    ensures Blend(tables, goal, 0) == tables
  {
  }

  lemma BlendStep<T>(tables: Tables<T>, goal: Tables<T>, i: nat)
    requires goal.Keys == tables.Keys && i < |AllMethods| && AllMethods[i] in tables
    ensures Blend(tables, goal, i)[AllMethods[i]] == tables[AllMethods[i]]
    ensures Blend(tables, goal, i + 1) == Blend(tables, goal, i)[AllMethods[i] := goal[AllMethods[i]]]
  {
    OrdinalAt(i);
  }

  lemma BlendDone<T>(tables: Tables<T>, goal: Tables<T>)
    requires goal.Keys == tables.Keys
    ensures Blend(tables, goal, |AllMethods|) == goal
  {
  }

  /** Appends `e` to every method's table, one method at a time. */
  method AppendAll<T>(tables: Tables<T>, e: Entry<T>) returns (updated: Tables<T>)
    requires ValidTables(tables) && ValidEntry(e)
    ensures ValidTables(updated)
    ensures updated == AppendedEverywhere(tables, e)
  {
    ghost var goal := AppendedEverywhere(tables, e);
    BlendStart(tables, goal);
    updated := tables;
    var i := 0;
    while i < |AllMethods|
      invariant 0 <= i <= |AllMethods|
      invariant updated == Blend(tables, goal, i)
    {
      var m := AllMethods[i];
      BlendStep(tables, goal, i);
      updated := updated[m := updated[m] + [e]];
      i := i + 1;
    }
    BlendDone(tables, goal);
    AppendedEverywhereValid(tables, e);
  }

  /** Applies the removal `r` to every method's table, one method at a time. */
  method RemoveAll<T(==)>(tables: Tables<T>, r: Removal<T>) returns (updated: Tables<T>)
    requires ValidTables(tables)
    ensures ValidTables(updated)
    ensures updated == RemovedEverywhere(tables, r)
  {
    ghost var goal := RemovedEverywhere(tables, r);
    BlendStart(tables, goal);
    updated := tables;
    var i := 0;
    while i < |AllMethods|
      invariant 0 <= i <= |AllMethods|
      invariant updated == Blend(tables, goal, i)
    {
      var m := AllMethods[i];
      BlendStep(tables, goal, i);
      var kept := Remove(updated[m], r);
      updated := updated[m := kept];
      i := i + 1;
    }
    BlendDone(tables, goal);
    RemovedEverywhereValid(tables, r);
  }

  class Router<T(==)> {
    var tables: Tables<T>
    var notFound: Option<T>

    ghost predicate Valid()
      reads this
    {
      ValidTables(tables)
    }

    constructor ()
      ensures Valid() && notFound == None
      ensures forall m: Method :: m in tables && tables[m] == []
    {
      AllMethodsExact();
      tables := map m: Method | m in AllMethods :: [];
      notFound := None;
    }

    /** Registers `target` under `path` for `verb`, after that method's
        existing entries (the Java builder's GET, POST, PATCH, ...). */
    method Pattern(verb: Method, path: string, target: T) returns (self: Router<T>)
      requires Valid() && WellFormed(Compile(path))
      modifies this
      ensures Valid() && self == this && notFound == old(notFound)
      ensures tables == old(tables)[verb := old(tables)[verb] + [Entry(path, target)]]
    {
      tables := tables[verb := tables[verb] + [Entry(path, target)]];
      self := this;
    }

    /** Registers `target` under `path` for `verb`, ahead of that method's
        existing entries (the Java builder's GET_FIRST, POST_FIRST, ...). */
    method PatternFirst(verb: Method, path: string, target: T) returns (self: Router<T>)
      requires Valid() && WellFormed(Compile(path))
      modifies this
      ensures Valid() && self == this && notFound == old(notFound)
      ensures tables == old(tables)[verb := [Entry(path, target)] + old(tables)[verb]]
    {
      tables := tables[verb := [Entry(path, target)] + tables[verb]];
      self := this;
    }

    /** Registers `target` under `path` for every method (the Java builder's
        ANY). */
    method Any(path: string, target: T) returns (self: Router<T>)
      requires Valid() && WellFormed(Compile(path))
      modifies this
      ensures Valid() && self == this && notFound == old(notFound)
      ensures tables == AppendedEverywhere(old(tables), Entry(path, target))
    {
      tables := AppendAll(tables, Entry(path, target));
      self := this;
    }

    /** Sets the one not-found target shared by all methods. */
    method NotFound(target: T) returns (self: Router<T>)
      requires Valid()
      modifies this
      ensures Valid() && self == this
      ensures tables == old(tables) && notFound == Some(target)
    {
      notFound := Some(target);
      self := this;
    }

    /** Removes every entry registered for `target`, under every method. */
    method RemoveTarget(target: T)
      requires Valid()
      modifies this
      ensures Valid() && notFound == old(notFound)
      ensures tables == RemovedEverywhere(old(tables), ByTarget(target))
    {
      tables := RemoveAll(tables, ByTarget(target));
    }

    /** Removes every entry whose pattern normalises like `path`, under every
        method. */
    method RemovePath(path: string)
      requires Valid()
      modifies this
      ensures Valid() && notFound == old(notFound)
      ensures tables == RemovedEverywhere(old(tables), ByPath(path))
    {
      tables := RemoveAll(tables, ByPath(path));
    }

    /** Routes a request: normalises `path`, scans the method's table, and
        falls back to the not-found target. */
    method Route(verb: Method, path: string) returns (routed: Option<Routed<T>>)
      requires Valid()
      ensures routed == Dispatch(tables, notFound, verb, Tokens(path))
    {
      var found := Lookup(tables[verb], Tokens(path));
      if found.Some? {
        routed := found;
      } else if notFound.Some? {
        routed := Some(Routed(notFound.value, true, map[]));
      } else {
        routed := None;
      }
    }
  }
}
