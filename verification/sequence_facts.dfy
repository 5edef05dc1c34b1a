/** Facts about sequences, by name, for proofs that should not search for them. */
module SequenceFacts {
  lemma Assoc<T>(x: seq<T>, y: seq<T>, z: seq<T>)
    ensures (x + y) + z == x + (y + z)
  {
  }

  lemma Nothing<T>(x: seq<T>)
    ensures x + [] == x && [] + x == x
  {
  }

  lemma Front<T>(x: seq<T>, e: T)
    ensures (x + [e])[..|x|] == x && (x + [e])[|x|] == e
  {
  }
}
