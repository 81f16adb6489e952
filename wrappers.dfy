/** The optional value used wherever the source returns `None` or a value. */
module Wrappers {

  datatype Option<+T> = None | Some(value: T) {

    /** Returns the value held in Some, or `default` for None. */
    function GetOr(default: T): T {
      match this
      case Some(v) => v
      case None => default
    }
  }

  /** The list a loop builds by appending `f(x)` for each of the first `n`
      elements `x` of `s`. */
  function MapPrefix<A, B>(f: A -> B, s: seq<A>, n: nat): seq<B>
    requires n <= |s|
  {
    if n == 0 then [] else MapPrefix(f, s, n - 1) + [f(s[n - 1])]
  }

  /** One result per element, in the same order. */
  lemma {:induction false} MapPrefixPointwise<A, B>(f: A -> B, s: seq<A>, n: nat)
    requires n <= |s|
    ensures |MapPrefix(f, s, n)| == n
    ensures forall i :: 0 <= i < n ==> MapPrefix(f, s, n)[i] == f(s[i])
    decreases n
  {
    if n > 0 {
      MapPrefixPointwise(f, s, n - 1);
    }
  }
}
