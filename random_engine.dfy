/** The seeded random source. The C++ prototype builds a fresh Mersenne Twister
    engine from an integer seed for every scenario and draws from a uniform
    integer distribution; the engine's internals are library code, so the model
    sees an engine only as the stream of raw values it yields for a seed. */
module RandomEngine {

  /** Engine(seed, k) is the k-th raw output of the engine constructed from
      seed. Being a function, the same seed always yields the same stream. */
  type Engine = (int, nat) -> nat

  /** The k-th value of a uniform integer distribution over [lo, hi] driven by
      the engine seeded with seed. An empty range (hi < lo) is undefined in
      the library, so it is a precondition here; callers handle it. */
  function UniformDraw(engine: Engine, seed: int, k: nat, lo: int, hi: int): (r: int)
    requires lo <= hi
    ensures lo <= r <= hi
  {
    lo + engine(seed, k) % (hi - lo + 1)
  }
}
