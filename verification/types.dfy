/** The value types of the world library: the two closed enumerations and the
    configuration record with its default values. */
module Types {

  /** C++ `uint64_t`. */
  type UInt64 = x: int | 0 <= x < 0x1_0000_0000_0000_0000

  /** C++ `int` on the platforms the library targets: 32-bit two's complement. */
  type Int32 = x: int | -0x8000_0000 <= x < 0x8000_0000

  /** Biomes, grouped as the header groups them: cold, temperate, warm, dry,
      special and mountain variants. */
  datatype BiomeType =
    | Tundra | Taiga
    | Grassland | TemperateDeciduousForest | TemperateRainforest
    | Savanna | TropicalSeasonalForest | TropicalRainforest
    | ColdDesert | Desert
    | Ocean | DeepOcean | Beach | Snow | Ice
    | MountainTundra | MountainForest | MountainPeak

  /** Kind of precipitation falling at a point. */
  datatype PrecipitationType = None | Rain | Snow | Sleet

  /** Every biome, in declaration order. */
  function AllBiomes(): (all: seq<BiomeType>)
    ensures |all| == 18
    ensures forall i, j :: 0 <= i < j < |all| ==> all[i] != all[j]
  {
    [ Tundra, Taiga,
      Grassland, TemperateDeciduousForest, TemperateRainforest,
      Savanna, TropicalSeasonalForest, TropicalRainforest,
      ColdDesert, Desert,
      Ocean, DeepOcean, Beach, BiomeType.Snow, Ice,
      MountainTundra, MountainForest, MountainPeak ]
  }

  /** Every precipitation type, in declaration order. */
  function AllPrecipitationTypes(): (all: seq<PrecipitationType>)
    ensures |all| == 4
    ensures forall i, j :: 0 <= i < j < |all| ==> all[i] != all[j]
  {
    [PrecipitationType.None, Rain, PrecipitationType.Snow, Sleet]
  }

  /** BiomeType is a closed set: every biome is one of the eighteen listed. */
  lemma BiomeTypeClosed(b: BiomeType)
    ensures b in AllBiomes()
  {
    match b
    case Tundra => case Taiga =>
    case Grassland => case TemperateDeciduousForest => case TemperateRainforest =>
    case Savanna => case TropicalSeasonalForest => case TropicalRainforest =>
    case ColdDesert => case Desert =>
    case Ocean => case DeepOcean => case Beach => case Snow => case Ice =>
    case MountainTundra => case MountainForest => case MountainPeak =>
  }

  /** PrecipitationType is a closed set: every kind is one of the four listed. */
  lemma PrecipitationTypeClosed(k: PrecipitationType)
    ensures k in AllPrecipitationTypes()
  {
    match k
    case None => case Rain => case Snow => case Sleet =>
  }

  /** Configuration for world generation. Temperatures are in degrees Celsius,
      the lapse rate in degrees per 1000 m, heights in metres. */
  datatype WorldConfig = WorldConfig(
    seed: UInt64,
    worldScale: real,
    equatorTemperature: real,
    poleTemperature: real,
    temperatureLapseRate: real,
    seaLevel: real,
    maxTerrainHeight: real,
    terrainFrequency: real,
    terrainOctaves: Int32,
    terrainLacunarity: real,
    terrainGain: real,
    moistureFrequency: real,
    moistureOctaves: Int32)

  /** The configuration a default-constructed world uses. Its ensures are the
      relations the header's documentation takes for granted: the equator is
      warmer than the poles, air cools with height, the sea sits at height 0
      and land rises above it. */
  function DefaultConfig(): (c: WorldConfig)
    ensures c.equatorTemperature > c.poleTemperature
    ensures c.temperatureLapseRate > 0.0
    ensures c.seaLevel == 0.0 && c.maxTerrainHeight > 0.0
    ensures c.worldScale > 0.0
  {
    WorldConfig(
      seed := 12345,
      worldScale := 1.0,
      equatorTemperature := 30.0,
      poleTemperature := -40.0,
      temperatureLapseRate := 6.5,
      seaLevel := 0.0,
      maxTerrainHeight := 8848.0,
      terrainFrequency := 0.001,
      terrainOctaves := 6,
      terrainLacunarity := 2.0,
      terrainGain := 0.5,
      moistureFrequency := 0.002,
      moistureOctaves := 4)
  }
}
