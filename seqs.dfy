/** Sequence helpers: the per-index lists of a loop, one after the other,
    and regrouping a concatenation. */
module Seqs {

  /** The lists f(0), ..., f(n - 1), one after the other. */
  function Joined<T>(f: nat -> seq<T>, n: nat): seq<T> {
    if n == 0 then [] else Joined(f, n - 1) + f(n - 1)
  }

  lemma {:induction false} JoinedContains<T>(f: nat -> seq<T>, n: nat, i: nat, e: T)
    requires i < n && e in f(i)
    ensures e in Joined(f, n)
  {
    if i < n - 1 {
      JoinedContains(f, n - 1, i, e);
    }
  }

  /** Regrouping a concatenation, as a lemma so that a caller's proof need
      not search for it. */
  lemma AppendAssociative<T>(a: seq<T>, b: seq<T>, c: seq<T>)
    ensures a + b + c == a + (b + c)
  {
  }
}
