/** The public world object of the library: a configuration, the three
    noise generators built from it, and the point queries that read them. */
module RWorld {
  import opened Types
  import opened Foreign
  import opened Generators
  import opened Climate
  import opened Biomes

  /** A world: its configuration and the generators built from it. Its
      queries sample the generator fields; while `Valid()` holds they agree
      with the query functions of modules Climate and Biomes, which rebuild
      the generators from the configuration. */
  class World {
    var config: WorldConfig
    var terrainNoise: NoiseGenerator
    var moistureNoise: NoiseGenerator
    var temperatureVariationNoise: NoiseGenerator

    /** The generators are always the ones the configuration determines. */
    ghost predicate Valid()
      reads this
    {
      NoiseBank(terrainNoise, moistureNoise, temperatureVariationNoise)
        == InitializeNoiseGenerators(config)
    }

    /** A world with the default configuration. */
    constructor ()
      ensures Valid() && config == DefaultConfig()
    {
      config := DefaultConfig();
      new;
      InitializeNoiseGeneratorsInPlace();
    }

    /** A world with the given configuration. */
    constructor WithConfig(c: WorldConfig)
      ensures Valid() && config == c
    {
      config := c;
      new;
      InitializeNoiseGeneratorsInPlace();
    }

    /** Reconfigures the three generators from the current configuration. */
    method InitializeNoiseGeneratorsInPlace()
      modifies this
      ensures Valid()
      ensures config == old(config)
    {
      var bank := InitializeNoiseGenerators(config);
      terrainNoise := bank.terrain;
      moistureNoise := bank.moisture;
      temperatureVariationNoise := bank.temperatureVariation;
    }

    /** The terrain height query, sampling the terrain generator field. */
    method GetTerrainHeight(p: Primitives, lon: real, lat: real) returns (h: real)
      requires Valid()
      ensures h == TerrainHeight(config, p, lon, lat)
    {
      var noiseValue := p.noise(terrainNoise, lon, lat);
      h := ScaleTerrain(ShapeTerrainNoise(p.pow07, noiseValue), config.maxTerrainHeight);
    }

    /** The moisture query, sampling the moisture generator field. */
    method GetMoisture(p: Primitives, lon: real, lat: real) returns (m: real)
      requires Valid()
      ensures m == Moisture(config, p, lon, lat)
    {
      var moisture := (p.noise(moistureNoise, lon, lat) + 1.0) * 0.5;
      var latFactor := 1.0 - Abs(lat) / 90.0;
      m := Clamp(moisture * 0.7 + latFactor * 0.3, 0.0, 1.0);
    }

    /** The temperature query, sampling the temperature-variation generator
        field. */
    method GetTemperature(p: Primitives, lon: real, lat: real, alt: real) returns (t: real)
      requires Valid()
      ensures t == Temperature(config, p, lon, lat, alt)
    {
      var baseTemp := BaseTemperature(config, lat, alt);
      var variation := p.noise(temperatureVariationNoise, lon, lat) * 5.0;
      t := baseTemp + variation;
    }

    /** The precipitation query. */
    method GetPrecipitation(p: Primitives, lon: real, lat: real, alt: real) returns (r: real)
      requires Valid()
      ensures r == Precipitation(config, p, lon, lat, alt)
    {
      var moisture := GetMoisture(p, lon, lat);
      var temp := GetTemperature(p, lon, lat, alt);
      var terrainHeight := GetTerrainHeight(p, lon, lat);
      r := PrecipitationFrom(moisture, temp, terrainHeight, alt);
    }

    /** The precipitation-type query: thresholds on this world's temperature
        and precipitation at the point. */
    method GetPrecipitationType(p: Primitives, lon: real, lat: real, alt: real) returns (k: PrecipitationType)
      requires Valid()
      ensures k == PrecipitationTypeAt(config, p, lon, lat, alt)
    {
      var temp := GetTemperature(p, lon, lat, alt);
      var precip := GetPrecipitation(p, lon, lat, alt);
      k := PrecipitationTypeFrom(precip, temp);
    }

    /** The humidity query. */
    method GetHumidity(p: Primitives, lon: real, lat: real, alt: real) returns (h: real)
      requires Valid()
      ensures h == Humidity(config, p, lon, lat, alt)
    {
      var moisture := GetMoisture(p, lon, lat);
      var temp := GetTemperature(p, lon, lat, alt);
      h := HumidityFrom(moisture, temp, alt);
    }

    /** The biome query. */
    method GetBiome(p: Primitives, lon: real, lat: real, alt: real) returns (b: BiomeType)
      requires Valid()
      ensures b == ClassifyBiome(config, p, lon, lat, alt)
    {
      var terrainHeight := GetTerrainHeight(p, lon, lat);
      var temp := GetTemperature(p, lon, lat, alt);
      var moisture := GetMoisture(p, lon, lat);
      b := ClassifyBiomeFrom(terrainHeight, config.seaLevel, temp, moisture, alt);
    }

    /** Replaces the configuration and rebuilds every generator from it. */
    method SetConfig(c: WorldConfig)
      modifies this
      ensures Valid()
      ensures config == c
    {
      config := c;
      InitializeNoiseGeneratorsInPlace();
    }

    /** The current configuration. */
    method GetConfig() returns (c: WorldConfig)
      ensures c == config
    {
      c := config;
    }
  }
}
