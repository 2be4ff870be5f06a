/** Option and Result. */
module Wrappers {
  datatype Option<+T> = None | Some(value: T) {
    function GetOr(default: T): T {
      match this
      case None => default
      case Some(v) => v
    }
  }

  datatype Result<+T, +E> = Ok(value: T) | Err(error: E) {
    predicate IsFailure() { Err? }

    function PropagateFailure<U>(): Result<U, E>
      requires Err?
    {
      Err(error)
    }

    function Extract(): T
      requires Ok?
    {
      value
    }
  }

  /** The values that are present, in order. */
  function Somes<T>(xs: seq<Option<T>>): seq<T> {
    if xs == [] then [] else (if xs[0].Some? then [xs[0].value] else []) + Somes(xs[1..])
  }

  /** What is present comes in the order of the list, and nothing else does. */
  lemma SomesInOrder<T>(x: Option<T>, xs: seq<Option<T>>)
    ensures Somes<T>([]) == []
    ensures Somes([x] + xs) == if x.Some? then [x.value] + Somes(xs) else Somes(xs)
  {
    assert ([x] + xs)[1..] == xs;
  }
}
