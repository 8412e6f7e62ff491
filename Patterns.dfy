/** Route patterns: a pattern string such as "/articles/:id" or "/download/:*"
    is normalised like a request path and each token becomes a segment. A
    segment is a literal, a named parameter (":id") capturing one path token,
    or the splat (":*"), which must come last and captures the rest of the
    path under the key "*". */
module Patterns {
  import opened Wrappers
  import opened Paths

  datatype Segment = Literal(text: string) | Param(name: string) | Splat

  type Pattern = seq<Segment>

  /** The parameter key under which a splat stores what it captured. */
  const SplatKey: string := "*"

  /** How one pattern token is read: ":*" is the splat, any other token starting
      with ':' names a parameter, everything else is literal text. */
  function Classify(token: string): (s: Segment)
    ensures s.Splat? <==> token == ":*"
    ensures s.Param? <==> |token| >= 1 && token[0] == ':' && token != ":*"
    ensures s.Param? ==> [':'] + s.name == token
    ensures s.Literal? ==> s.text == token
  {
    if token == ":*" then Splat
    else if |token| >= 1 && token[0] == ':' then Param(token[1..])
    else Literal(token)
  }

  /** Each token read as a segment, in order. */
  function ClassifyAll(tokens: seq<string>): (p: Pattern)
    ensures |p| == |tokens|
    ensures forall i :: 0 <= i < |p| ==> p[i] == Classify(tokens[i])
  {
    if tokens == [] then [] else [Classify(tokens[0])] + ClassifyAll(tokens[1..])
  }

  /** The compiled form of a pattern string: one segment per token. */
  function Compile(pattern: string): Pattern {
    ClassifyAll(Tokens(pattern))
  }

  /** True when the last segment of `p` is the splat. */
  predicate EndsInSplat(p: Pattern) {
    |p| > 0 && p[|p| - 1].Splat?
  }

  /** A pattern the router accepts: the splat, if any, is last, and parameter
      names are non-empty, distinct, and never the splat key. */
  predicate WellFormed(p: Pattern) {
    && (forall i :: 0 <= i < |p| - 1 ==> !p[i].Splat?)
    && (forall i :: 0 <= i < |p| && p[i].Param? ==> p[i].name != "" && p[i].name != SplatKey)
    && (forall i, j :: 0 <= i < j < |p| && p[i].Param? && p[j].Param? ==> p[i].name != p[j].name)
  }

  /** The structural match of a pattern against the tokens of a request path:
      the captured parameters, or None when the pattern does not fit. */
  function Match(p: Pattern, path: seq<string>): Option<map<string, string>>
    decreases |p|
  {
    if p == [] then
      if path == [] then Some(map[]) else None
    else if path == [] then None
    else match p[0]
      case Splat => if |p| == 1 then Some(map[SplatKey := Join(path)]) else None
      case Literal(t) => if path[0] == t then Match(p[1..], path[1..]) else None
      case Param(n) =>
        match Match(p[1..], path[1..])
        case None => None
        case Some(m) => Some(m[n := path[0]])
  }

  /** Reference definition of when a pattern fits a path: a pattern of N
      segments fits exactly N tokens, or any N or more when it ends in a splat,
      and each literal segment equals the token at its position. */
  predicate Fits(p: Pattern, path: seq<string>) {
    && (if EndsInSplat(p) then |path| >= |p| else |path| == |p|)
    && (forall i :: 0 <= i < |p| && i < |path| && p[i].Literal? ==> path[i] == p[i].text)
  }

  /** The parameter keys a pattern captures: its parameter names, plus "*"
      when it ends in a splat. */
  function CaptureKeys(p: Pattern): set<string> {
    (set i | 0 <= i < |p| && p[i].Param? :: p[i].name)
    + (if EndsInSplat(p) then {SplatKey} else {})
  }

  /** Reference definition of what a fitting pattern captures: exactly its
      capture keys, each parameter bound to the token at its position, and the
      splat bound to the remaining tokens re-joined with '/'. */
  predicate Binds(p: Pattern, path: seq<string>, params: map<string, string>) {
    && params.Keys == CaptureKeys(p)
    && (forall i :: 0 <= i < |p| && i < |path| && p[i].Param? && p[i].name in params ==>
          params[p[i].name] == path[i])
    && (EndsInSplat(p) && |path| >= |p| ==> params[SplatKey] == Join(path[|p| - 1..]))
  }

  lemma WellFormedTail(p: Pattern)
    requires |p| > 0 && WellFormed(p)
    ensures WellFormed(p[1..])
    ensures p[0].Param? ==> p[0].name !in CaptureKeys(p[1..])
    ensures EndsInSplat(p[1..]) == (|p| > 1 && EndsInSplat(p))
  {
  }

  lemma CaptureKeysCons(p: Pattern)
    requires |p| > 1
    ensures CaptureKeys(p) == CaptureKeys(p[1..]) + (if p[0].Param? then {p[0].name} else {})
  {
    var tail := p[1..];
    var left := set i | 0 <= i < |p| && p[i].Param? :: p[i].name;
    var right := set i | 0 <= i < |tail| && tail[i].Param? :: tail[i].name;
    forall x | x in left
      ensures x in right || (p[0].Param? && x == p[0].name)
    {
      var i :| 0 <= i < |p| && p[i].Param? && p[i].name == x;
      if i > 0 { assert tail[i - 1] == p[i]; }
    }
    forall x | x in right
      ensures x in left
    {
      var i :| 0 <= i < |tail| && tail[i].Param? && tail[i].name == x;
      assert p[i + 1] == tail[i];
    }
  }

  /** The structural match agrees with the reference definitions: it succeeds
      exactly when the pattern fits, and then captures exactly what `Binds`
      says. */
  lemma {:induction false} MatchSpec(p: Pattern, path: seq<string>)
    requires WellFormed(p)
    ensures Match(p, path).Some? <==> Fits(p, path)
    ensures Match(p, path).Some? ==> Binds(p, path, Match(p, path).value)
    decreases |p|
  {
    if p == [] {
    } else if path == [] {
    } else {
      WellFormedTail(p);
      var tail, rest := p[1..], path[1..];
      if |p| > 1 { CaptureKeysCons(p); }
      match p[0]
      case Splat =>
        if |p| == 1 {
          assert CaptureKeys(p) == {SplatKey};
          assert path[|p| - 1..] == path;
        }
      case Literal(t) =>
        MatchSpec(tail, rest);
        FitsCons(p, path);
        if Match(p, path).Some? {
          if |p| == 1 {
            assert CaptureKeys(p) == {};
          } else {
            BindsCons(p, path, Match(tail, rest).value);
          }
        }
      case Param(n) =>
        MatchSpec(tail, rest);
        FitsCons(p, path);
        if Match(tail, rest).Some? {
          var m := Match(tail, rest).value;
          if |p| == 1 {
            assert m == map[];
            assert CaptureKeys(p) == {n};
          } else {
            BindsConsParam(p, path, m);
          }
        }
    }
  }

  lemma FitsCons(p: Pattern, path: seq<string>)
    requires WellFormed(p) && |p| > 0 && |path| > 0 && !p[0].Splat?
    ensures Fits(p, path) <==>
      (!p[0].Literal? || path[0] == p[0].text) && Fits(p[1..], path[1..])
  {
    var tail, rest := p[1..], path[1..];
    if Fits(tail, rest) && (!p[0].Literal? || path[0] == p[0].text) {
      forall i | 0 <= i < |p| && i < |path| && p[i].Literal?
        ensures path[i] == p[i].text
      {
        if i > 0 { assert tail[i - 1] == p[i] && rest[i - 1] == path[i]; }
      }
    }
    if Fits(p, path) {
      forall i | 0 <= i < |tail| && i < |rest| && tail[i].Literal?
        ensures rest[i] == tail[i].text
      {
        assert p[i + 1] == tail[i] && path[i + 1] == rest[i];
      }
    }
  }

  lemma BindsCons(p: Pattern, path: seq<string>, m: map<string, string>)
    requires WellFormed(p) && |p| > 1 && |path| > 0 && p[0].Literal?
    requires Binds(p[1..], path[1..], m)
    requires CaptureKeys(p) == CaptureKeys(p[1..])
    ensures Binds(p, path, m)
  {
    var tail, rest := p[1..], path[1..];
    forall i | 0 <= i < |p| && i < |path| && p[i].Param? && p[i].name in m
      ensures m[p[i].name] == path[i]
    {
      assert i > 0;
      assert tail[i - 1] == p[i] && rest[i - 1] == path[i];
    }
    if EndsInSplat(p) && |path| >= |p| {
      assert rest[|tail| - 1..] == path[|p| - 1..];
    }
  }

  lemma BindsConsParam(p: Pattern, path: seq<string>, m: map<string, string>)
    requires WellFormed(p) && |p| > 1 && |path| > 0 && p[0].Param?
    requires Binds(p[1..], path[1..], m)
    requires p[0].name !in CaptureKeys(p[1..])
    requires CaptureKeys(p) == CaptureKeys(p[1..]) + {p[0].name}
    ensures Binds(p, path, m[p[0].name := path[0]])
  {
    var tail, rest, n := p[1..], path[1..], p[0].name;
    var m' := m[n := path[0]];
    forall i | 0 <= i < |p| && i < |path| && p[i].Param? && p[i].name in m'
      ensures m'[p[i].name] == path[i]
    {
      if i > 0 {
        assert tail[i - 1] == p[i] && rest[i - 1] == path[i];
        assert p[i].name != n;
      }
    }
    if EndsInSplat(p) && |path| >= |p| {
      assert rest[|tail| - 1..] == path[|p| - 1..];
    }
  }
}
