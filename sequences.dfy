/** Small facts about sequence prefixes used by the session drivers. */
module Sequences {
  /** Extending a prefix by one element appends that element. */
  lemma TakeOneMore<T>(s: seq<T>, i: nat)
    requires i < |s|
    ensures s[..i + 1] == s[..i] + [s[i]]
  {
  }
}
