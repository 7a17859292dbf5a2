/** Facts about sequence concatenation that the proofs of the model share. */
module Sequences {
  /** Concatenation is associative; stated once so that the solver need not rediscover it. */
  lemma Associative<T>(x: seq<T>, y: seq<T>, z: seq<T>)
    ensures x + (y + z) == (x + y) + z
  {
  }
}
