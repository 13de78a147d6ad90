/** Stretches of steps taken apart and put together. */
module Sequences {

  /** A prefix grows by one item at its end. */
  lemma PrefixGrows<T>(past: seq<T>, more: seq<T>, n: nat)
    requires 0 < n <= |more|
    ensures past + more[..n] == (past + more[..n - 1]) + [more[n - 1]]
    ensures more[..n][..n - 1] == more[..n - 1]
  {
  }

  lemma WholePrefix<T>(past: seq<T>, more: seq<T>)
    ensures more[..|more|] == more && past + more[..0] == past
  {
  }

  lemma PrefixOfBoth<T>(past: seq<T>, more: seq<T>, n: nat)
    requires n < |past| + |more|
    ensures n < |past| ==> (past + more)[..n] == past[..n] && (past + more)[n] == past[n]
    ensures n >= |past| ==>
      (past + more)[..n] == past + more[..n - |past|] && (past + more)[n] == more[n - |past|]
  {
  }
}
