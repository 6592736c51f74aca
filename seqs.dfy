/** Sequence helpers shared by the string handling, the retry loop and the
    two pagination loops: every one of them runs "while the next element
    says go on" and stops at the first element that does not. */
module Seqs {

  /** Length of the longest prefix of `s` whose elements all satisfy `goOn`. */
  function Prefix<T>(s: seq<T>, goOn: T -> bool): (n: nat)
    ensures n <= |s|
    ensures forall j :: 0 <= j < n ==> goOn(s[j])
    ensures n < |s| ==> !goOn(s[n])
    decreases |s|
  {
    if s == [] then 0
    else if goOn(s[0]) then 1 + Prefix(s[1..], goOn)
    else 0
  }

  /** The two halves of Prefix's contract pin its value down. */
  lemma PrefixExact<T>(s: seq<T>, goOn: T -> bool, n: nat)
    requires n <= |s|
    requires forall j :: 0 <= j < n ==> goOn(s[j])
    requires n < |s| ==> !goOn(s[n])
    ensures Prefix(s, goOn) == n
  {
  }
}
