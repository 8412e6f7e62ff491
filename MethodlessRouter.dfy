/** `MethodlessRouter`: one ordered route table, mutated in place by the
    registration and removal calls and queried by `Route`. Every registration
    call returns the router itself, so calls chain. */
module Methodless {
  import opened Wrappers
  import opened Paths
  import opened Patterns
  import opened RouteTable

  class MethodlessRouter<T(==)> {
    var entries: seq<Entry<T>>

    ghost predicate Valid()
      reads this
    {
      ValidTable(entries)
    }

    constructor ()
      ensures Valid() && entries == []
    {
      entries := [];
    }

    /** Registers `target` under `path` after every existing entry. */
    method Pattern(path: string, target: T) returns (self: MethodlessRouter<T>)
      requires Valid() && WellFormed(Compile(path))
      modifies this
      ensures Valid() && self == this
      ensures entries == old(entries) + [Entry(path, target)]
    {
      entries := entries + [Entry(path, target)];
      self := this;
    }

    /** Registers `target` under `path` ahead of every existing entry, so that
        it is tried first. */
    method PatternFirst(path: string, target: T) returns (self: MethodlessRouter<T>)
      requires Valid() && WellFormed(Compile(path))
      modifies this
      ensures Valid() && self == this
      ensures entries == [Entry(path, target)] + old(entries)
    {
      entries := [Entry(path, target)] + entries;
      self := this;
    }

    /** Removes every entry registered for `target`. */
    method RemoveTarget(target: T)
      requires Valid()
      modifies this
      ensures Valid()
      ensures entries == Without(old(entries), ByTarget(target))
    {
      WithoutValid(entries, ByTarget(target));
      entries := Remove(entries, ByTarget(target));
    }

    /** Removes every entry whose pattern normalises like `path`. */
    method RemovePath(path: string)
      requires Valid()
      modifies this
      ensures Valid()
      ensures entries == Without(old(entries), ByPath(path))
    {
      WithoutValid(entries, ByPath(path));
      entries := Remove(entries, ByPath(path));
    }

    /** The first entry matching the normalised `path`, with its captures, or
        None (the Java code's null). */
    method Route(path: string) returns (routed: Option<Routed<T>>)
      requires Valid()
      ensures routed == FirstMatch(entries, Tokens(path))
    {
      routed := Lookup(entries, Tokens(path));
    }
  }
}
