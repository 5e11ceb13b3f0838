/** The splittable pseudo-random generator the engine draws from.

    The generator itself (JAX's `jax.random.split` and `jax.random.randint`)
    is not part of this model: it is carried around as a pair of functions
    together with the only two facts its callers rely on. */
module Rng {

  /** A raw PRNG key: JAX's legacy key is a pair of 32-bit words. */
  datatype Key = Key(hi: bv32, lo: bv32)

  /** The two primitives of the generator, left uninterpreted. */
  datatype Prng = Prng(
    split: (Key, nat) -> seq<Key>,
    randint: (Key, int, int) -> int)
  {
    /** `split(k, n)` yields exactly `n` keys, and `randint(k, lo, hi)` lies
        in the half-open range `[lo, hi)`. */
    ghost predicate Valid() {
      && (forall k, n :: |split(k, n)| == n)
      && (forall k, lo, hi :: lo < hi ==> lo <= randint(k, lo, hi) < hi)
    }
  }
}
