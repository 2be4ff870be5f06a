/**
 * Effect paths: the fragments that name a place in a compilation and the
 * shared, reversed list that holds them.
 */
module EffectPaths {
  import opened Wrappers

  /** `Branch` numbers are u64 in the program; `Named` holds a user's name. */
  datatype PathFragment =
    | Root
    | Cloned
    | Action
    | FinishFn
    | CondCompIf
    | Guard
    | Next
    | Suggested
    | DefaultEffect
    | Effects
    | Metadata
    | Branch(index: nat)
    | Named(name: string)

  /** A non-empty path whose last fragment comes first. */
  datatype ReversePath = ReversePath(past: Option<ReversePath>, last: PathFragment)

  function Push(past: Option<ReversePath>, fragment: PathFragment): ReversePath {
    ReversePath(past, fragment)
  }

  /** The path one step below `path`. */
  function Child(path: ReversePath, fragment: PathFragment): ReversePath {
    Push(Some(path), fragment)
  }

  function Depth(path: ReversePath): nat {
    1 + if path.past.Some? then Depth(path.past.value) else 0
  }

  /** The fragments of a path, root first. */
  function Fragments(path: ReversePath): (v: seq<PathFragment>)
    ensures |v| == Depth(path)
  {
    (if path.past.Some? then Fragments(path.past.value) else []) + [path.last]
  }

  function Reversed<T>(s: seq<T>): (r: seq<T>)
    ensures |r| == |s|
    ensures forall i :: 0 <= i < |s| ==> r[i] == s[|s| - 1 - i]
  {
    if s == [] then [] else Reversed(s[1..]) + [s[0]]
  }

  lemma {:induction false} ReversedConcat<T>(a: seq<T>, b: seq<T>)
    ensures Reversed(a + b) == Reversed(b) + Reversed(a)
  {
    var l, r := Reversed(a + b), Reversed(b) + Reversed(a);
    forall i | 0 <= i < |l| ensures l[i] == r[i] {
    }
  }

  lemma ReversedTwice<T>(s: seq<T>)
    ensures Reversed(Reversed(s)) == s
  {
    var r := Reversed(Reversed(s));
    forall i | 0 <= i < |s| ensures r[i] == s[i] {
    }
  }

  /** The fragments of a path, last first. */
  ghost function Backwards(path: Option<ReversePath>): seq<PathFragment> {
    if path.None? then [] else [path.value.last] + Backwards(path.value.past)
  }

  lemma {:induction false} BackwardsIsReversed(path: ReversePath)
    ensures Backwards(Some(path)) == Reversed(Fragments(path))
  {
    if path.past.Some? {
      BackwardsIsReversed(path.past.value);
      ReversedConcat(Fragments(path.past.value), [path.last]);
    }
  }

  /** The iterator over a reversed path, last fragment first. */
  class ReversePathIterator {
    var inner: Option<ReversePath>

    constructor (path: ReversePath)
      ensures inner == Some(path)
    {
      inner := Some(path);
    }

    method Next() returns (fragment: Option<PathFragment>)
      modifies this
      ensures old(inner).None? ==> fragment == None && inner == None
      ensures old(inner).Some? ==> fragment == Some(old(inner).value.last)
      ensures fragment.Some? ==> Backwards(old(inner)) == [fragment.value] + Backwards(inner)
    {
      if inner.None? {
        return None;
      }
      fragment := Some(inner.value.last);
      inner := inner.value.past;
    }
  }

  /** Drains the iterator into a list: last fragment first. */
  method Collect(path: ReversePath) returns (v: seq<PathFragment>)
    ensures v == Reversed(Fragments(path))
  {
    var iter := new ReversePathIterator(path);
    v := [];
    var next := iter.Next();
    ghost var total := Backwards(Some(path));
    while next.Some?
      invariant fresh(iter)
      invariant next.None? ==> v == total
      invariant next.Some? ==> v + ([next.value] + Backwards(iter.inner)) == total
      decreases |total| - |v|
    {
      ghost var ahead := Backwards(iter.inner);
      v := v + [next.value];
      assert v + ahead == total;
      next := iter.Next();
    }
    BackwardsIsReversed(path);
  }

  const EMPTY_PATH := "Reverse Path must have at least one element."

  /** What folding `Push` over a list makes of it. */
  function PathOf(v: seq<PathFragment>): (path: Option<ReversePath>)
    ensures path.None? <==> v == []
    ensures path.Some? ==> Fragments(path.value) == v
  {
    if v == [] then None else Some(Push(PathOf(v[..|v| - 1]), v[|v| - 1]))
  }

  function FromVecSpec(v: seq<PathFragment>): Result<ReversePath, string> {
    var path := PathOf(v);
    if path.None? then Err(EMPTY_PATH) else Ok(path.value)
  }

  /** Builds a path from a list of fragments, root first. */
  method FromVec(v: seq<PathFragment>) returns (r: Result<ReversePath, string>)
    ensures r == FromVecSpec(v)
  {
    var path: Option<ReversePath> := None;
    for i := 0 to |v|
      invariant path == PathOf(v[..i])
    {
      assert v[..i + 1][..i] == v[..i];
      path := Some(Push(path, v[i]));
    }
    assert v[..|v|] == v;
    r := if path.None? then Err(EMPTY_PATH) else Ok(path.value);
  }

  /** The list of a path's fragments, root first. */
  method ToVec(path: ReversePath) returns (v: seq<PathFragment>)
    ensures v == Fragments(path)
  {
    var reversed := Collect(path);
    ReversedTwice(Fragments(path));
    v := Reversed(reversed);
  }

  /** Paths with the same fragments are the same path. */
  lemma {:induction false} FragmentsInjective(p: ReversePath, q: ReversePath)
    requires Fragments(p) == Fragments(q)
    ensures p == q
  {
    var v, w := Fragments(p), Fragments(q);
    assert v[|v| - 1] == p.last && w[|w| - 1] == q.last;
    if |v| > 1 {
      assert v[..|v| - 1] == Fragments(p.past.value) && w[..|w| - 1] == Fragments(q.past.value);
      FragmentsInjective(p.past.value, q.past.value);
    }
  }

  /** From path to list and back, and from list to path and back. */
  method RoundTrip(path: ReversePath) returns (back: Result<ReversePath, string>)
    ensures back == Ok(path)
  {
    var v := ToVec(path);
    back := FromVec(v);
    PathOfFragments(path);
  }

  /** The list of a path's fragments makes that path again. */
  lemma PathOfFragments(path: ReversePath)
    ensures FromVecSpec(Fragments(path)) == Ok(path)
  {
    FragmentsInjective(path, PathOf(Fragments(path)).value);
  }
}
