/** Small generic vocabulary shared by the other modules. */
module Prelude {

  datatype Option<+T> = None | Some(value: T)

  datatype Result<+T, +E> = Ok(value: T) | Err(error: E)

  /** The elements of `s` under `f`, in order. */
  function Map<T, U>(f: T -> U, s: seq<T>): (r: seq<U>)
    ensures |r| == |s|
    ensures forall i :: 0 <= i < |s| ==> r[i] == f(s[i])
  {
    seq(|s|, i requires 0 <= i < |s| => f(s[i]))
  }

  /** Concatenation of the lists `f` gives for the elements of `s`, in order. */
  function FlatMap<T, U>(f: T -> seq<U>, s: seq<T>): seq<U> {
    if s == [] then [] else FlatMap(f, s[..|s| - 1]) + f(s[|s| - 1])
  }

  predicate Distinct<T(==)>(s: seq<T>) {
    forall i, j :: 0 <= i < j < |s| ==> s[i] != s[j]
  }

  lemma FlatMapMember<T, U>(f: T -> seq<U>, s: seq<T>, x: T, y: U)
    requires x in s && y in f(x)
    ensures y in FlatMap(f, s)
  {
    if x != s[|s| - 1] {
      FlatMapMember(f, s[..|s| - 1], x, y);
    }
  }

  lemma FlatMapOrigin<T, U>(f: T -> seq<U>, s: seq<T>, y: U) returns (x: T)
    requires y in FlatMap(f, s)
    ensures x in s && y in f(x)
  {
    if y in f(s[|s| - 1]) {
      x := s[|s| - 1];
    } else {
      x := FlatMapOrigin(f, s[..|s| - 1], y);
    }
  }
}
