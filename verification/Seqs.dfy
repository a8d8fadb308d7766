/** Facts about prefixes, for loops that walk a sequence from the front. */
module Seqs {

  lemma TakeMore<T>(s: seq<T>, i: nat)
    requires i < |s|
    ensures s[..i + 1] == s[..i] + [s[i]]
    ensures s[..i + 1][..i] == s[..i]
  {}

  lemma TakeAll<T>(s: seq<T>)
    ensures s[..|s|] == s
  {}
}
