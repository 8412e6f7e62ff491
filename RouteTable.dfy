/** An ordered route table: the entries of one dispatch scope, scanned in
    order, the first structurally matching entry winning. Shared by
    `MethodlessRouter` and by each per-method table of `Router`. */
module RouteTable {
  import opened Wrappers
  import opened Paths
  import opened Patterns

  /** A registered route: the pattern string as given and the caller's
      opaque target; `pattern` is the compiled form of the string. */
  datatype Entry<T> = Entry(path: string, target: T) {
    const pattern: Pattern := Compile(path)
  }

  /** What routing returns: the target, whether it is the not-found fallback,
      and the captured path parameters. */
  datatype Routed<T> = Routed(target: T, notFound: bool, params: map<string, string>)

  /** An entry as registration accepts it: its pattern is well-formed. */
  predicate ValidEntry<T>(e: Entry<T>) {
    WellFormed(e.pattern)
  }

  predicate ValidTable<T>(es: seq<Entry<T>>) {
    forall i :: 0 <= i < |es| ==> ValidEntry(es[i])
  }

  /** True when entry `e` structurally matches the path tokens. */
  predicate Hits<T>(e: Entry<T>, tokens: seq<string>) {
    Match(e.pattern, tokens).Some?
  }

  /** The result of scanning the table in order: the first hitting entry's
      target and captures, or None. */
  function FirstMatch<T>(es: seq<Entry<T>>, tokens: seq<string>): Option<Routed<T>>
    decreases |es|
  {
    if es == [] then None
    else match Match(es[0].pattern, tokens)
      case Some(params) => Some(Routed(es[0].target, false, params))
      case None => FirstMatch(es[1..], tokens)
  }

  /** The scan finds nothing exactly when no entry hits. */
  lemma {:induction false} FirstMatchNone<T>(es: seq<Entry<T>>, tokens: seq<string>)
    ensures FirstMatch(es, tokens).None? <==> forall i :: 0 <= i < |es| ==> !Hits(es[i], tokens)
    decreases |es|
  {
    if es != [] {
      FirstMatchNone(es[1..], tokens);
      if FirstMatch(es[1..], tokens).Some? {
        var i :| 0 <= i < |es[1..]| && Hits(es[1..][i], tokens);
        assert Hits(es[i + 1], tokens);
      } else if !Hits(es[0], tokens) {
        forall i | 0 <= i < |es| ensures !Hits(es[i], tokens) {
          if i > 0 { assert es[i] == es[1..][i - 1]; }
        }
      }
    }
  }

  /** When entry i hits and no earlier entry does, the scan returns entry i's
      target and captures, whatever the entries after it. */
  lemma {:induction false} FirstMatchAt<T>(es: seq<Entry<T>>, tokens: seq<string>, i: nat)
    requires i < |es| && Hits(es[i], tokens)
    requires forall j :: 0 <= j < i ==> !Hits(es[j], tokens)
    ensures FirstMatch(es, tokens) == Some(Routed(es[i].target, false, Match(es[i].pattern, tokens).value))
    decreases i
  {
    if i > 0 {
      assert !Hits(es[0], tokens);
      forall j | 0 <= j < i - 1 ensures !Hits(es[1..][j], tokens) {
        assert es[1..][j] == es[j + 1];
      }
      FirstMatchAt(es[1..], tokens, i - 1);
    }
  }

  /** Whatever the scan returns comes from some entry that hits, with no
      earlier entry hitting, and is never flagged as not-found. */
  lemma {:induction false} FirstMatchWitness<T>(es: seq<Entry<T>>, tokens: seq<string>)
    requires FirstMatch(es, tokens).Some?
    ensures exists i :: (0 <= i < |es| && Hits(es[i], tokens)
                         && (forall j :: 0 <= j < i ==> !Hits(es[j], tokens))
                         && FirstMatch(es, tokens) == Some(Routed(es[i].target, false, Match(es[i].pattern, tokens).value)))
    decreases |es|
  {
    if Hits(es[0], tokens) {
      assert 0 < |es|;
    } else {
      FirstMatchWitness(es[1..], tokens);
      var i :| 0 <= i < |es[1..]| && Hits(es[1..][i], tokens)
        && (forall j :: 0 <= j < i ==> !Hits(es[1..][j], tokens))
        && FirstMatch(es[1..], tokens) == Some(Routed(es[1..][i].target, false, Match(es[1..][i].pattern, tokens).value));
      forall j | 0 <= j < i + 1 ensures !Hits(es[j], tokens) {
        if j > 0 { assert es[j] == es[1..][j - 1]; }
      }
      assert es[i + 1] == es[1..][i];
    }
  }

  /** An entry placed in front of the table wins whenever it hits; otherwise
      the rest of the table answers as before. */
  lemma FirstMatchPrepend<T>(e: Entry<T>, es: seq<Entry<T>>, tokens: seq<string>)
    ensures Hits(e, tokens) ==>
      FirstMatch([e] + es, tokens) == Some(Routed(e.target, false, Match(e.pattern, tokens).value))
    ensures !Hits(e, tokens) ==> FirstMatch([e] + es, tokens) == FirstMatch(es, tokens)
  {
    assert ([e] + es)[1..] == es;
  }

  /** An entry appended to the table changes nothing the table already
      answered, and answers exactly the paths nothing earlier took. */
  lemma {:induction false} FirstMatchAppend<T>(es: seq<Entry<T>>, e: Entry<T>, tokens: seq<string>)
    ensures FirstMatch(es, tokens).Some? ==> FirstMatch(es + [e], tokens) == FirstMatch(es, tokens)
    ensures FirstMatch(es, tokens).None? && Hits(e, tokens) ==>
      FirstMatch(es + [e], tokens) == Some(Routed(e.target, false, Match(e.pattern, tokens).value))
    ensures FirstMatch(es, tokens).None? && !Hits(e, tokens) ==> FirstMatch(es + [e], tokens).None?
    decreases |es|
  {
    if es == [] {
      assert es + [e] == [e];
    } else {
      assert (es + [e])[0] == es[0];
      assert (es + [e])[1..] == es[1..] + [e];
      FirstMatchAppend(es[1..], e, tokens);
    }
  }

  /** What a removal call drops: the entries registered for a target
      (`removeTarget`), or those whose pattern normalises like a given pattern
      string (`removePath`). */
  datatype Removal<T> = ByTarget(target: T) | ByPath(path: string)

  /** True when removal `r` drops entry `e`. */
  predicate Drops<T(==)>(r: Removal<T>, e: Entry<T>) {
    match r
    case ByTarget(t) => e.target == t
    case ByPath(p) => Tokens(e.path) == Tokens(p)
  }

  /** The table without the entries `r` drops, the others in their order. */
  function Without<T(==)>(es: seq<Entry<T>>, r: Removal<T>): seq<Entry<T>>
    decreases |es|
  {
    if es == [] then []
    else if Drops(r, es[0]) then Without(es[1..], r)
    else [es[0]] + Without(es[1..], r)
  }

  /** Removal keeps exactly the entries it does not drop: everything left was
      in the table and is not dropped, nothing else is lost, and removing
      what no entry matches leaves the table as it was. */
  lemma WithoutSpec<T>(es: seq<Entry<T>>, r: Removal<T>)
    ensures |Without(es, r)| <= |es|
    ensures forall i :: 0 <= i < |Without(es, r)| ==> Without(es, r)[i] in es && !Drops(r, Without(es, r)[i])
    ensures forall e :: e in es && !Drops(r, e) ==> e in Without(es, r)
    ensures (forall i :: 0 <= i < |es| ==> !Drops(r, es[i])) ==> Without(es, r) == es
  {
    WithoutSound(es, r);
    WithoutComplete(es, r);
    if forall i :: 0 <= i < |es| ==> !Drops(r, es[i]) {
      WithoutNothing(es, r);
    }
  }

  lemma {:induction false} WithoutSound<T>(es: seq<Entry<T>>, r: Removal<T>)
    ensures |Without(es, r)| <= |es|
    ensures forall i :: 0 <= i < |Without(es, r)| ==> Without(es, r)[i] in es && !Drops(r, Without(es, r)[i])
    decreases |es|
  {
    if es != [] {
      WithoutSound(es[1..], r);
      var rest := Without(es[1..], r);
      forall i | 0 <= i < |rest| ensures rest[i] in es {
        assert rest[i] in es[1..];
      }
    }
  }

  lemma {:induction false} WithoutComplete<T>(es: seq<Entry<T>>, r: Removal<T>)
    ensures forall e :: e in es && !Drops(r, e) ==> e in Without(es, r)
    decreases |es|
  {
    if es != [] {
      WithoutComplete(es[1..], r);
      forall e | e in es && !Drops(r, e) ensures e in Without(es, r) {
        if e != es[0] {
          var k :| 0 <= k < |es| && es[k] == e;
          assert es[1..][k - 1] == e;
        }
      }
    }
  }

  lemma {:induction false} WithoutNothing<T>(es: seq<Entry<T>>, r: Removal<T>)
    requires forall i :: 0 <= i < |es| ==> !Drops(r, es[i])
    ensures Without(es, r) == es
    decreases |es|
  {
    if es != [] {
      forall i | 0 <= i < |es[1..]| ensures !Drops(r, es[1..][i]) {
        assert es[1..][i] == es[i + 1];
      }
      WithoutNothing(es[1..], r);
      assert [es[0]] + es[1..] == es;
    }
  }

  /** Removal keeps a table valid. */
  lemma WithoutValid<T>(es: seq<Entry<T>>, r: Removal<T>)
    requires ValidTable(es)
    ensures ValidTable(Without(es, r))
  {
    WithoutSpec(es, r);
  }

  /** Removing twice is removing once. */
  lemma WithoutIdempotent<T>(es: seq<Entry<T>>, r: Removal<T>)
    ensures Without(Without(es, r), r) == Without(es, r)
  {
    WithoutSpec(es, r);
    WithoutSpec(Without(es, r), r);
  }

  /** Dropping entries never changes an answer given by an entry that stays:
      the winner stays the winner. */
  lemma {:induction false} WithoutKeepsWinner<T>(es: seq<Entry<T>>, r: Removal<T>, tokens: seq<string>, i: nat)
    requires i < |es| && Hits(es[i], tokens) && !Drops(r, es[i])
    requires forall j :: 0 <= j < i ==> !Hits(es[j], tokens)
    ensures FirstMatch(Without(es, r), tokens) == FirstMatch(es, tokens)
    decreases |es|
  {
    FirstMatchAt(es, tokens, i);
    if i == 0 {
      assert Without(es, r) == [es[0]] + Without(es[1..], r);
    } else {
      forall j | 0 <= j < i - 1 ensures !Hits(es[1..][j], tokens) {
        assert es[1..][j] == es[j + 1];
      }
      assert es[1..][i - 1] == es[i];
      WithoutKeepsWinner(es[1..], r, tokens, i - 1);
      FirstMatchAt(es[1..], tokens, i - 1);
      if !Drops(r, es[0]) {
        assert !Hits(es[0], tokens);
        assert ([es[0]] + Without(es[1..], r))[1..] == Without(es[1..], r);
      }
    }
  }

  /** Routing in a table after a removal only ever answers with an entry the
      removal did not drop. */
  lemma WithoutOnlyKept<T>(es: seq<Entry<T>>, r: Removal<T>, tokens: seq<string>)
    requires FirstMatch(Without(es, r), tokens).Some?
    ensures exists e :: (e in es && !Drops(r, e) && Hits(e, tokens)
                         && FirstMatch(Without(es, r), tokens) == Some(Routed(e.target, false, Match(e.pattern, tokens).value)))
  {
    var kept := Without(es, r);
    FirstMatchWitness(kept, tokens);
    var i :| 0 <= i < |kept| && Hits(kept[i], tokens)
      && FirstMatch(kept, tokens) == Some(Routed(kept[i].target, false, Match(kept[i].pattern, tokens).value));
    WithoutSpec(es, r);
    assert kept[i] in es && !Drops(r, kept[i]);
  }

  /** After `removeTarget`, routing never yields that target; any path whose
      first match had another target still routes exactly as before. */
  lemma RemoveTargetRouting<T>(es: seq<Entry<T>>, target: T, tokens: seq<string>)
    ensures FirstMatch(Without(es, ByTarget(target)), tokens).Some? ==>
      FirstMatch(Without(es, ByTarget(target)), tokens).value.target != target
    ensures FirstMatch(es, tokens).Some? && FirstMatch(es, tokens).value.target != target ==>
      FirstMatch(Without(es, ByTarget(target)), tokens) == FirstMatch(es, tokens)
  {
    var r := ByTarget(target);
    if FirstMatch(Without(es, r), tokens).Some? {
      WithoutOnlyKept(es, r, tokens);
    }
    if FirstMatch(es, tokens).Some? && FirstMatch(es, tokens).value.target != target {
      FirstMatchWitness(es, tokens);
      var i :| 0 <= i < |es| && Hits(es[i], tokens) && (forall j :: 0 <= j < i ==> !Hits(es[j], tokens))
        && FirstMatch(es, tokens) == Some(Routed(es[i].target, false, Match(es[i].pattern, tokens).value));
      WithoutKeepsWinner(es, r, tokens, i);
    }
  }

  /** After `removePath`, no remaining entry was registered under a pattern
      that normalises like it. */
  lemma RemovePathLeavesNone<T>(es: seq<Entry<T>>, path: string)
    ensures forall k :: 0 <= k < |Without(es, ByPath(path))| ==> Tokens(Without(es, ByPath(path))[k].path) != Tokens(path)
  {
    WithoutSound(es, ByPath(path));
  }

  /** After `removePath`, a path first matched by an entry registered under
      another pattern still routes exactly as before. */
  lemma RemovePathRouting<T>(es: seq<Entry<T>>, path: string, tokens: seq<string>, i: nat)
    requires i < |es| && Hits(es[i], tokens) && (forall j :: 0 <= j < i ==> !Hits(es[j], tokens))
    requires Tokens(es[i].path) != Tokens(path)
    ensures FirstMatch(Without(es, ByPath(path)), tokens) == FirstMatch(es, tokens)
  {
    WithoutKeepsWinner(es, ByPath(path), tokens, i);
  }

  /** The scan of the table, as a loop over its entries. */
  method Lookup<T>(es: seq<Entry<T>>, tokens: seq<string>) returns (r: Option<Routed<T>>)
    ensures r == FirstMatch(es, tokens)
  {
    var i := 0;
    while i < |es|
      invariant 0 <= i <= |es|
      invariant FirstMatch(es[i..], tokens) == FirstMatch(es, tokens)
    {
      var m := Match(es[i].pattern, tokens);
      if m.Some? {
        return Some(Routed(es[i].target, false, m.value));
      }
      assert es[i..][1..] == es[i + 1..];
      i := i + 1;
    }
    return None;
  }

  /** Removal, as a loop that copies the entries it keeps. */
  method Remove<T(==)>(es: seq<Entry<T>>, r: Removal<T>) returns (kept: seq<Entry<T>>)
    ensures kept == Without(es, r)
  {
    kept := [];
    var i := |es|;
    while i > 0
      invariant 0 <= i <= |es|
      invariant kept == Without(es[i..], r)
    {
      i := i - 1;
      assert es[i..][1..] == es[i + 1..];
      if !Drops(r, es[i]) {
        kept := [es[i]] + kept;
      }
    }
  }
}
