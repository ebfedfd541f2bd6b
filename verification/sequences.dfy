/** Facts about slicing that the solver is slow to find in context. */
module Sequences {
  lemma SplitAt<T>(s: seq<T>, n: nat)
    requires n <= |s|
    ensures s == s[..n] + s[n..]
  {
  }

  /** A slice of a prefix that reaches to its end. */
  lemma EndOfPrefix<T>(s: seq<T>, k: nat, n: nat)
    requires k <= n <= |s|
    ensures s[..n][k..] == s[k..n]
  {
  }

  lemma SplitTail<T>(s: seq<T>, k: nat, n: nat)
    requires k + n <= |s|
    ensures s[k..] == s[k..k + n] + s[k + n..]
    ensures s[k..][..n] == s[k..k + n]
  {
  }
}
