/**
 * The seedable random source (src/pong/core/random.ts): a Park-Miller
 * (Lehmer) multiplicative congruential generator with multiplier 48271
 * and modulus 2^31 - 1, whose draws are the low 28 bits of the new seed
 * divided by 2^28.
 */
module Random {
  const MULTIPLIER: int := 48271
  const MODULUS: int := 0x7fff_ffff
  /** 2^28: the output keeps the low 28 bits of the seed. */
  const OUTPUT_SPAN: int := 0x1000_0000

  /**
   * The state update. The source's `%` truncates toward zero; the seed is
   * never negative, and there it agrees with Dafny's `%`.
   */
  function NextSeed(seed: nat): (r: nat)
    ensures r < MODULUS
  {
    (seed * MULTIPLIER) % MODULUS
  }

  /**
   * A draw from a seed: its low 28 bits scaled into [0, 1). The source
   * masks with `& 0xfffffff`, which on a non-negative seed below 2^31 keeps
   * exactly the remainder modulo 2^28.
   */
  function Output(seed: nat): (x: real)
    ensures 0.0 <= x < 1.0
    ensures x * OUTPUT_SPAN as real == (seed % OUTPUT_SPAN) as real
  {
    (seed % OUTPUT_SPAN) as real / OUTPUT_SPAN as real
  }

  /** The seed after `k` calls of `next` on a generator whose seed was `origin`. */
  function SeedAfter(origin: nat, k: nat): (s: nat)
    ensures k > 0 ==> s < MODULUS
  {
    if k == 0 then origin else NextSeed(SeedAfter(origin, k - 1))
  }

  /** The first `n` draws of a generator whose seed was `origin`: each lies in [0, 1). */
  function Draws(origin: nat, n: nat): (xs: seq<real>)
    ensures |xs| == n
    ensures forall i :: 0 <= i < n ==> 0.0 <= xs[i] < 1.0
  {
    if n == 0 then [] else Draws(origin, n - 1) + [Output(SeedAfter(origin, n))]
  }

  /** Drawing more values never changes the ones already drawn. */
  lemma {:induction false} DrawsPrefix(origin: nat, k: nat, n: nat)
    requires k <= n
    ensures Draws(origin, k) == Draws(origin, n)[..k]
  {
    if k < n {
      DrawsPrefix(origin, k, n - 1);
      assert Draws(origin, n)[..n - 1] == Draws(origin, n - 1);
    }
  }

  /** The `i`-th draw (counting from 0) is the output of the seed after `i + 1` steps. */
  lemma {:induction false} DrawAt(origin: nat, n: nat, i: nat)
    requires i < n
    ensures Draws(origin, n)[i] == Output(SeedAfter(origin, i + 1))
  {
    if i < n - 1 {
      DrawAt(origin, n - 1, i);
    }
  }

  /** `range`: `min + (max - min) * u`, which lies in [min, max) when `min < max`. */
  function Scale(min: real, max: real, u: real): (x: real)
    requires 0.0 <= u < 1.0
    ensures min < max ==> min <= x < max
    ensures min == max ==> x == min
  {
    var d := max - min;
    ScaleBounds(d, u);
    assert d > 0.0 ==> min <= min + d * u < min + d;
    min + d * u
  }

  /** A fraction in [0, 1) of a width stays between zero and that width. */
  lemma ScaleBounds(d: real, u: real)
    requires 0.0 <= u < 1.0
    ensures d > 0.0 ==> 0.0 <= d * u < d
  {
    if d > 0.0 {
      assert d * (1.0 - u) > 0.0;
      assert d * u >= 0.0;
    }
  }

  /** The constructor's guard: a seed that is not positive is replaced by 1. */
  function FixSeed(seed: int): (s: nat)
    ensures s > 0
    ensures seed > 0 ==> s == seed
  {
    if seed <= 0 then 1 else seed
  }

  class RandomGenerator {
    var seed: nat
    /** The seed the generator was built with, after the constructor's fix-up. */
    ghost const origin: nat
    /** Every value `next` has returned so far, oldest first. */
    ghost var drawn: seq<real>

    /** The state is a function of the construction seed and the number of draws alone. */
    ghost predicate Valid()
      reads this
    {
      origin > 0 && seed == SeedAfter(origin, |drawn|) && drawn == Draws(origin, |drawn|)
    }

    constructor (initialSeed: int)
      ensures Valid() && drawn == []
      ensures origin == FixSeed(initialSeed) && seed == origin
    {
      var s := initialSeed;
      if s <= 0 {
        s := 1;
      }
      seed := s;
      origin := s;
      drawn := [];
    }

    method Next() returns (x: real)
      requires Valid()
      modifies this
      ensures Valid()
      ensures seed == NextSeed(old(seed))
      ensures x == Output(seed) && 0.0 <= x < 1.0
      ensures drawn == old(drawn) + [x]
    {
      seed := (seed * MULTIPLIER) % MODULUS;
      x := (seed % OUTPUT_SPAN) as real / OUTPUT_SPAN as real;
      drawn := drawn + [x];
    }

    method Range(min: real, max: real) returns (x: real)
      requires Valid()
      modifies this
      ensures Valid()
      ensures |drawn| == |old(drawn)| + 1 && drawn[..|old(drawn)|] == old(drawn)
      ensures x == Scale(min, max, drawn[|drawn| - 1])
      ensures min < max ==> min <= x < max
    {
      var u := Next();
      x := min + (max - min) * u;
      assert x == Scale(min, max, u);
    }
  }

  /** Two generators built with the same seed that have drawn equally often are in the same state and drew the same values. */
  lemma SameSeedSameDraws(g: RandomGenerator, h: RandomGenerator)
    requires g.Valid() && h.Valid()
    requires g.origin == h.origin && |g.drawn| == |h.drawn|
    ensures g.drawn == h.drawn && g.seed == h.seed
  {
  }
}
