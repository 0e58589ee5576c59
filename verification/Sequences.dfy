/** A fact about sequences that the logs of loops grow by. */
module Sequences {

  /** Appending in two goes is appending once. */
  lemma Joined<T>(x: seq<T>, y: seq<T>, z: seq<T>)
    ensures x + y + z == x + (y + z) && y + [] == y
  {
  }
}
