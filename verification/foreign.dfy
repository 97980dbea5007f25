/** The collaborators the world library calls but does not define: the
    FastNoiseLite generators, `std::pow(x, 0.7)`, `std::exp`, `std::clamp` and
    `std::abs`. The first three are given only by the properties the library
    relies on; the model receives them as parameters. */
module Foreign {
  import opened Types

  /** A FastNoiseLite sample; the library keeps every sample in [-1, 1]. */
  type NoiseValue = r: real | -1.0 <= r <= 1.0

  datatype NoiseType = OpenSimplex2
  datatype FractalType = FBm

  /** One generator setting: set explicitly, or left at the library default. */
  datatype Setting<T> = LibraryDefault | Set(value: T)

  /** What the world configures on one FastNoiseLite generator. */
  datatype NoiseGenerator = NoiseGenerator(
    noiseType: NoiseType,
    fractalType: Setting<FractalType>,
    octaves: Setting<Int32>,
    lacunarity: Setting<real>,
    gain: Setting<real>,
    frequency: real,
    seed: Int32)

  /** Sampling a generator at a geographic point (longitude, latitude); the
      projection onto the noise sphere is part of the sample. Equal settings and
      equal coordinates give equal samples. */
  type NoiseSampler = (NoiseGenerator, real, real) -> NoiseValue

  /** A real in [0, 1]. */
  type UnitInterval = r: real | 0.0 <= r <= 1.0

  /** `x -> std::pow(x, 0.7)` on [0, 1], known only to map [0, 1] into [0, 1]. */
  type Pow07 = UnitInterval -> UnitInterval

  /** `std::exp`, known only to be positive, strictly increasing and 1 at 0. */
  type Exp = f: real -> real
    | f(0.0) == 1.0 && (forall x :: f(x) > 0.0) && (forall x, y :: x < y ==> f(x) < f(y))
    witness (RationalGrowthIncreasing(); RationalGrowth)

  /** A positive, strictly increasing function with value 1 at 0: it shows
      that the properties asked of `Exp` can be met together. */
  function RationalGrowth(x: real): (r: real)
    ensures r > 0.0
  {
    if x <= 0.0 then 1.0 / (1.0 - x) else 1.0 + x
  }

  lemma RationalGrowthIncreasing()
    ensures RationalGrowth(0.0) == 1.0
    ensures forall x, y :: x < y ==> RationalGrowth(x) < RationalGrowth(y)
  {
    forall x, y | x < y
      ensures RationalGrowth(x) < RationalGrowth(y)
    {
      if y <= 0.0 {
        var a, b := 1.0 - x, 1.0 - y;
        assert a > b >= 1.0;
        var ia, ib := 1.0 / a, 1.0 / b;
        assert ia * a == 1.0 && ib * b == 1.0;
        assert ia > 0.0 && ib > 0.0;
        if ia >= ib {
          calc {
            1.0;
            == ia * a;
            >= ib * a;
            > ib * b;
            == 1.0;
          }
        }
      } else if x <= 0.0 {
        assert 1.0 / (1.0 - x) <= 1.0;
      }
    }
  }

  /** The foreign primitives the noise-driven queries use. */
  datatype Primitives = Primitives(noise: NoiseSampler, pow07: Pow07)

  /** `std::clamp(v, lo, hi)`. */
  function Clamp(v: real, lo: real, hi: real): (r: real)
    requires lo <= hi
    ensures lo <= r <= hi
    ensures lo <= v <= hi ==> r == v
    ensures v < lo ==> r == lo
    ensures hi < v ==> r == hi
  {
    if v < lo then lo else if hi < v then hi else v
  }

  /** `std::abs` on a float. */
  function Abs(x: real): (r: real)
    ensures r >= 0.0 && (r == x || r == -x)
  {
    if x < 0.0 then -x else x
  }

  /** Clamping is monotone in the clamped value. */
  lemma ClampMonotone(u: real, v: real, lo: real, hi: real)
    requires lo <= hi && u <= v
    ensures Clamp(u, lo, hi) <= Clamp(v, lo, hi)
  {
  }

  /** A product of two bounded non-negative factors stays under the product of
      the bounds. */
  lemma ProductBounds(a: real, b: real, aMax: real, bMax: real)
    requires 0.0 <= a <= aMax && 0.0 <= b <= bMax
    ensures 0.0 <= a * b <= aMax * bMax
  {
    assert a * b <= aMax * b;
    assert aMax * b <= aMax * bMax;
  }

  /** Multiplying by a non-negative factor preserves order. */
  lemma MulMonotone(x: real, a: real, b: real)
    requires 0.0 <= x && a <= b
    ensures x * a <= x * b
  {
  }

  /** Multiplying by a positive factor preserves strict order. */
  lemma MulStrict(x: real, a: real, b: real)
    requires 0.0 < x && a < b
    ensures x * a < x * b
  {
  }

  /** Multiplying by a negative factor reverses strict order. */
  lemma MulNegative(x: real, a: real, b: real)
    requires x < 0.0 && a < b
    ensures x * a > x * b
  {
  }
}
