/** What the scanners for regular expressions share: fixed words and runs of one class of characters. */
module Patterns {
  import opened Options

  /** The word stands at that place. */
  predicate HasWord(value: string, at: nat, word: string) {
    at + |word| <= |value| && value[at..at + |word|] == word
  }

  /** Where the run of the class starting at `from` ends. */
  function RunEnd(class_: char -> bool, value: string, from: nat): (n: nat)
    requires from <= |value|
    ensures from <= n <= |value| && forall i :: from <= i < n ==> class_(value[i])
    decreases |value| - from
  {
    if from < |value| && class_(value[from]) then RunEnd(class_, value, from + 1) else from
  }

  /** A run reaches as far as the class does. */
  lemma {:induction false} RunReaches(class_: char -> bool, value: string, from: nat, to: nat)
    requires from <= to <= |value| && forall i :: from <= i < to ==> class_(value[i])
    ensures to <= RunEnd(class_, value, from)
    ensures to < |value| && !class_(value[to]) ==> RunEnd(class_, value, from) == to
    decreases |value| - from
  {
    if from < to { RunReaches(class_, value, from + 1, to); }
  }

  /** The first place at or after `from` where a match ends somewhere. */
  function First(ends: (string, nat) -> Option<nat>, value: string, from: nat): (at: Option<nat>)
    ensures at.Some? ==> from <= at.value < |value| && ends(value, at.value).Some?
    ensures forall k :: from <= k < (if at.Some? then at.value else |value|) ==> ends(value, k).None?
    decreases |value| - from
  {
    if from >= |value| then None
    else if ends(value, from).Some? then Some(from)
    else First(ends, value, from + 1)
  }
}
