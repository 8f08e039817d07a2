/** Failure-carrying datatypes and the few collection facts shared by the other modules. */
module Basics {

  /** A Go pointer that may be nil, seen as a value. */
  datatype Option<+T> = None | Some(value: T) {
    function GetOr(default: T): T {
      match this
      case Some(v) => v
      case None => default
    }
  }

  /** A value together with Go's second, error, result. */
  datatype Result<+T, +E> = Ok(value: T) | Err(error: E)

  /** The element of a one-element set. */
  function TheOnly<T(==)>(s: set<T>): (x: T)
    requires |s| == 1
    ensures s == {x}
  {
    assert exists x :: x in s && s == {x} by {
      var y :| y in s;
      assert |s - {y}| == 0;
      assert s == {y};
    }
    var x :| x in s && s == {x};
    x
  }

  /** A set included in a set of at most one element has at most one element. */
  lemma SubsetSize<T>(a: set<T>, b: set<T>)
    requires a <= b
    ensures |a| <= |b|
  {
    assert b == a + (b - a);
  }

  /** Applies f to every element in order and joins the results, as an append loop does. */
  function Collect<T, U>(s: seq<T>, f: T -> seq<U>): (r: seq<U>) {
    if s == [] then [] else Collect(s[..|s| - 1], f) + f(s[|s| - 1])
  }

  /** One more loop iteration. */
  lemma CollectStep<T, U>(s: seq<T>, f: T -> seq<U>, i: nat)
    requires i < |s|
    ensures Collect(s[..i + 1], f) == Collect(s[..i], f) + f(s[i])
  {
    assert s[..i + 1][..i] == s[..i];
  }

  /** The joined list is empty exactly when every element contributed nothing. */
  lemma {:induction false} CollectEmpty<T, U>(s: seq<T>, f: T -> seq<U>)
    ensures Collect(s, f) == [] <==> forall i :: 0 <= i < |s| ==> f(s[i]) == []
  {
    if s != [] {
      var front := s[..|s| - 1];
      CollectEmpty(front, f);
      assert forall i :: 0 <= i < |front| ==> front[i] == s[i];
    }
  }

  /** What is joined is what some element contributed. */
  lemma {:induction false} CollectMember<T, U>(s: seq<T>, f: T -> seq<U>, y: U)
    ensures y in Collect(s, f) <==> exists i :: 0 <= i < |s| && y in f(s[i])
  {
    if s != [] {
      var n := |s| - 1;
      CollectMember(s[..n], f, y);
      assert forall i :: 0 <= i < n ==> s[..n][i] == s[i];
    }
  }
}
