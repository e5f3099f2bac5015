/** Unity's global pseudo-random generator (`UnityEngine.Random`), as an oracle.

    The generator's algorithm is not part of this model: after
    `Random.InitState(seed)` it is a stream of raw draws chosen by a seeding
    function, and every call to `Random.value` or `Random.Range` consumes the
    next draw. Only the range of each call, and the order in which calls
    consume draws, matter to the properties proved about its callers. */
module UnityRandom {

  /** The generator's state: the stream fixed by the last seeding and the
      number of draws consumed since then. */
  datatype Rng = Rng(stream: nat -> nat, pos: nat)

  /** Draws are turned into floats with 24 bits of fraction, like a single-precision float in [0, 1). */
  const Resolution: nat := 0x100_0000

  /** `Random.InitState(seed)`: restart from the stream that `seeding` assigns to `seed`. */
  function InitState(seeding: int -> (nat -> nat), seed: int): (r: Rng)
    ensures r.pos == 0 && r.stream == seeding(seed)
  {
    Rng(seeding(seed), 0)
  }

  /** The state after one draw. */
  function Next(r: Rng): Rng
  {
    r.(pos := r.pos + 1)
  }

  /** `Random.value`: a number in [0, 1] taken from the next draw. */
  function Value(r: Rng): (out: (real, Rng))
    ensures 0.0 <= out.0 <= 1.0
    ensures out.1 == Next(r)
  {
    var frac := (r.stream(r.pos) % Resolution) as real / Resolution as real;
    (frac, Next(r))
  }

  /** `Random.Range(lo, hi)` on integers: a number in [lo, hi) taken from the next draw. */
  function RangeInt(r: Rng, lo: int, hi: int): (out: (int, Rng))
    requires lo < hi
    ensures lo <= out.0 < hi
    ensures out.1 == Next(r)
  {
    (lo + r.stream(r.pos) % (hi - lo), Next(r))
  }

  /** `Random.Range(lo, hi)` on floats: a number in [lo, hi] taken from the next draw. */
  function RangeFloat(r: Rng, lo: real, hi: real): (out: (real, Rng))
    requires lo <= hi
    ensures lo <= out.0 <= hi
    ensures out.1 == Next(r)
  {
    var (v, r') := Value(r);
    var span := hi - lo;
    assert 0.0 <= v * span <= span by {
      assert (1.0 - v) * span >= 0.0;
    }
    (lo + v * span, r')
  }
}
