/** The three noise generators a world derives from its configuration, and
    the integer arithmetic of their seeds. */
module Generators {
  import opened Types
  import opened Foreign

  const TwoTo32: int := 0x1_0000_0000
  const TwoTo64: int := 0x1_0000_0000_0000_0000

  /** `uint64_t` addition, which wraps modulo 2^64. */
  function AddUInt64(a: UInt64, b: UInt64): (r: UInt64)
    ensures (a + b - r) % TwoTo64 == 0
    ensures a + b < TwoTo64 ==> r == a + b
  {
    (a + b) % TwoTo64
  }

  /** `static_cast<int>` of a `uint64_t`: the low 32 bits read as two's
      complement. */
  function ToInt32(x: UInt64): (r: Int32)
    ensures (x - r) % TwoTo32 == 0
    ensures x < 0x8000_0000 ==> r == x
  {
    var low := x % TwoTo32;
    if low < 0x8000_0000 then low else low - TwoTo32
  }

  /** The seed a generator gets from a world seed and a fixed offset differs
      from the seed of the base generator by exactly that offset, modulo 2^32:
      the uint64 wrap and the int cast do not make two offsets collide. */
  lemma SeedOffset(seed: UInt64, offset: UInt64)
    ensures (ToInt32(AddUInt64(seed, offset)) - ToInt32(seed) - offset) % TwoTo32 == 0
  {
    var s := AddUInt64(seed, offset);
    var k := (seed + offset - s) / TwoTo64;
    assert seed + offset - s == k * TwoTo64;
    var i := (s - ToInt32(s)) / TwoTo32;
    assert s - ToInt32(s) == i * TwoTo32;
    var j := (seed - ToInt32(seed)) / TwoTo32;
    assert seed - ToInt32(seed) == j * TwoTo32;
    assert ToInt32(s) - ToInt32(seed) - offset == (j - i - k * TwoTo32) * TwoTo32;
  }

  /** The three generators a world samples. */
  datatype NoiseBank = NoiseBank(
    terrain: NoiseGenerator,
    moisture: NoiseGenerator,
    temperatureVariation: NoiseGenerator)

  /** Builds the generators from a configuration: the terrain generator
      takes the world seed, moisture the seed plus 1000 and temperature
      variation the seed plus 2000; all three frequencies scale with the world
      scale. */
  function InitializeNoiseGenerators(c: WorldConfig): (bank: NoiseBank)
    ensures bank.terrain.noiseType == bank.moisture.noiseType
      == bank.temperatureVariation.noiseType == OpenSimplex2
    ensures bank.terrain.fractalType == bank.moisture.fractalType == Set(FBm)
    ensures bank.temperatureVariation.fractalType == LibraryDefault
    ensures bank.terrain.seed != bank.moisture.seed
    ensures bank.terrain.seed != bank.temperatureVariation.seed
    ensures bank.moisture.seed != bank.temperatureVariation.seed
  {
    SeedOffset(c.seed, 1000);
    SeedOffset(c.seed, 2000);
    NoiseBank(
      terrain := NoiseGenerator(
        noiseType := OpenSimplex2,
        fractalType := Set(FBm),
        octaves := Set(c.terrainOctaves),
        lacunarity := Set(c.terrainLacunarity),
        gain := Set(c.terrainGain),
        frequency := c.terrainFrequency * c.worldScale,
        seed := ToInt32(c.seed)),
      moisture := NoiseGenerator(
        noiseType := OpenSimplex2,
        fractalType := Set(FBm),
        octaves := Set(c.moistureOctaves),
        lacunarity := LibraryDefault,
        gain := LibraryDefault,
        frequency := c.moistureFrequency * c.worldScale,
        seed := ToInt32(AddUInt64(c.seed, 1000))),
      temperatureVariation := NoiseGenerator(
        noiseType := OpenSimplex2,
        fractalType := LibraryDefault,
        octaves := LibraryDefault,
        lacunarity := LibraryDefault,
        gain := LibraryDefault,
        frequency := 0.003 * c.worldScale,
        seed := ToInt32(AddUInt64(c.seed, 2000))))
  }

  /** The three generators are seeded with the world seed, the seed plus 1000
      and the seed plus 2000, each cast to an int: the cast seeds keep those
      offsets modulo 2^32. */
  lemma GeneratorSeedOffsets(c: WorldConfig)
    ensures var bank := InitializeNoiseGenerators(c);
      bank.terrain.seed == ToInt32(c.seed) &&
      (bank.moisture.seed - bank.terrain.seed - 1000) % TwoTo32 == 0 &&
      (bank.temperatureVariation.seed - bank.terrain.seed - 2000) % TwoTo32 == 0
  {
    SeedOffset(c.seed, 1000);
    SeedOffset(c.seed, 2000);
  }
}
