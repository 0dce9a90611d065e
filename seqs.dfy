/** Facts about sequences the effect logs rely on. */
module Sequences {

  /** Appending is associative: a log extended by b then c is the log extended by b + c. */
  lemma AppendAssoc<T>(a: seq<T>, b: seq<T>, c: seq<T>)
    ensures a + b + c == a + (b + c)
  {
  }

  /** A log extended by more entries still starts with it. */
  lemma PrefixOfAppend<T>(a: seq<T>, b: seq<T>)
    ensures (a + b)[..|a|] == a
  {
  }
}
