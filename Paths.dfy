/** Request paths and pattern strings are '/'-separated. Splitting keeps empty
    components (so that splitting and joining are inverse), and the tokens the
    router works on are the non-empty components: leading, trailing and
    repeated slashes carry no meaning. */
module Paths {

  /** True when no character of `s` is a slash. */
  predicate SlashFree(s: string) {
    forall i :: 0 <= i < |s| ==> s[i] != '/'
  }

  /** Every '/'-separated component of `s`, empty ones included. */
  function Components(s: string): (r: seq<string>)
    ensures |r| >= 1
    decreases |s|
  {
    if s == [] then [""]
    else if s[0] == '/' then [""] + Components(s[1..])
    else
      var rest := Components(s[1..]);
      [[s[0]] + rest[0]] + rest[1..]
  }

  /** The components joined back together with '/' between neighbours. */
  function Join(parts: seq<string>): string
    decreases |parts|
  {
    if parts == [] then ""
    else if |parts| == 1 then parts[0]
    else parts[0] + "/" + Join(parts[1..])
  }

  /** The non-empty elements of `parts`, in order. */
  function NonEmpty(parts: seq<string>): (r: seq<string>)
    ensures |r| <= |parts|
  {
    if parts == [] then []
    else if parts[0] == "" then NonEmpty(parts[1..])
    else [parts[0]] + NonEmpty(parts[1..])
  }

  /** The normalised form of a path: its non-empty components. */
  function Tokens(s: string): seq<string> {
    NonEmpty(Components(s))
  }

  /** A list of tokens as normalisation produces them: each one non-empty and slash-free. */
  predicate CleanTokens(ts: seq<string>) {
    forall i :: 0 <= i < |ts| ==> ts[i] != "" && SlashFree(ts[i])
  }

  lemma {:induction false} NonEmptyAppend(a: seq<string>, b: seq<string>)
    ensures NonEmpty(a + b) == NonEmpty(a) + NonEmpty(b)
    decreases |a|
  {
    if a == [] {
      assert a + b == b;
    } else {
      assert (a + b)[1..] == a[1..] + b;
      NonEmptyAppend(a[1..], b);
    }
  }

  /** Every component of a path is slash-free. */
  lemma {:induction false} ComponentsSlashFree(s: string)
    ensures forall i :: 0 <= i < |Components(s)| ==> SlashFree(Components(s)[i])
    decreases |s|
  {
    if s != [] {
      ComponentsSlashFree(s[1..]);
    }
  }

  /** A slash-free string is a single component. */
  lemma {:induction false} ComponentsOfSlashFree(t: string)
    requires SlashFree(t)
    ensures Components(t) == [t]
    decreases |t|
  {
    if t != [] {
      ComponentsOfSlashFree(t[1..]);
      assert [t[0]] + t[1..] == t;
    }
  }

  /** Splitting distributes over a joining slash. */
  lemma {:induction false} ComponentsSplit(a: string, b: string)
    ensures Components(a + "/" + b) == Components(a) + Components(b)
    decreases |a|
  {
    if a == [] {
      assert a + "/" + b == "/" + b;
      assert ("/" + b)[1..] == b;
    } else {
      assert (a + "/" + b)[0] == a[0];
      assert (a + "/" + b)[1..] == a[1..] + "/" + b;
      ComponentsSplit(a[1..], b);
      if a[0] != '/' {
        var rest := Components(a[1..]);
        assert rest[1..] + Components(b) == (rest + Components(b))[1..];
      }
    }
  }

  /** Joining the components of a string gives the string back. */
  lemma {:induction false} JoinComponents(s: string)
    ensures Join(Components(s)) == s
    decreases |s|
  {
    if s == [] {
    } else if s[0] == '/' {
      JoinComponents(s[1..]);
      assert s == "" + "/" + s[1..];
    } else {
      JoinComponents(s[1..]);
      var rest := Components(s[1..]);
      if |rest| == 1 {
        assert [s[0]] + s[1..] == s;
      } else {
        assert Join(rest) == rest[0] + "/" + Join(rest[1..]);
        assert Join([[s[0]] + rest[0]] + rest[1..]) == [s[0]] + rest[0] + "/" + Join(rest[1..]);
        assert [s[0]] + s[1..] == s;
      }
    }
  }

  /** Splitting the join of slash-free parts gives the parts back. */
  lemma {:induction false} ComponentsJoin(parts: seq<string>)
    requires |parts| >= 1
    requires forall i :: 0 <= i < |parts| ==> SlashFree(parts[i])
    ensures Components(Join(parts)) == parts
    decreases |parts|
  {
    if |parts| == 1 {
      ComponentsOfSlashFree(parts[0]);
    } else {
      ComponentsSplit(parts[0], Join(parts[1..]));
      ComponentsOfSlashFree(parts[0]);
      ComponentsJoin(parts[1..]);
      assert [parts[0]] + parts[1..] == parts;
    }
  }

  /** Clean tokens survive a join and a re-split unchanged: the splat capture
      "foo/bar.png" can be split back into the segments it came from. */
  lemma TokensJoin(ts: seq<string>)
    requires |ts| >= 1 && CleanTokens(ts)
    ensures Tokens(Join(ts)) == ts
  {
    ComponentsJoin(ts);
    NonEmptyClean(ts);
  }

  lemma {:induction false} NonEmptyClean(ts: seq<string>)
    requires forall i :: 0 <= i < |ts| ==> ts[i] != ""
    ensures NonEmpty(ts) == ts
    decreases |ts|
  {
    if ts != [] {
      NonEmptyClean(ts[1..]);
      assert [ts[0]] + ts[1..] == ts;
    }
  }

  /** Filtering keeps only non-empty elements of its input. */
  lemma {:induction false} NonEmptySound(parts: seq<string>)
    ensures forall i :: 0 <= i < |NonEmpty(parts)| ==> NonEmpty(parts)[i] in parts && NonEmpty(parts)[i] != ""
    decreases |parts|
  {
    if parts != [] {
      NonEmptySound(parts[1..]);
      var rest := NonEmpty(parts[1..]);
      forall i | 0 <= i < |rest| ensures rest[i] in parts {
        assert rest[i] in parts[1..];
      }
    }
  }

  /** Normalisation yields clean tokens. */
  lemma TokensClean(s: string)
    ensures CleanTokens(Tokens(s))
  {
    ComponentsSlashFree(s);
    NonEmptySound(Components(s));
    var cs := Components(s);
    forall i | 0 <= i < |Tokens(s)| ensures SlashFree(Tokens(s)[i]) {
      var k :| 0 <= k < |cs| && cs[k] == Tokens(s)[i];
    }
  }

  /** A leading slash does not change the tokens. */
  lemma LeadingSlash(s: string)
    ensures Tokens("/" + s) == Tokens(s)
  {
    assert ("/" + s)[1..] == s;
  }

  /** A trailing slash does not change the tokens. */
  lemma TrailingSlash(s: string)
    ensures Tokens(s + "/") == Tokens(s)
  {
    ComponentsSplit(s, "");
    assert s + "/" + "" == s + "/";
    NonEmptyAppend(Components(s), [""]);
  }

  /** A slash between two strings separates their tokens, however many slashes
      either side already carries. */
  lemma TokensSplit(a: string, b: string)
    ensures Tokens(a + "/" + b) == Tokens(a) + Tokens(b)
  {
    ComponentsSplit(a, b);
    NonEmptyAppend(Components(a), Components(b));
  }

  /** A non-empty slash-free string is one token. */
  lemma TokensOfWord(t: string)
    requires t != "" && SlashFree(t)
    ensures Tokens(t) == [t]
  {
    ComponentsOfSlashFree(t);
  }
}
