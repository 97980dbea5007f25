/** The behaviour the public header documents for the world queries, stated
    for the default configuration where the documentation assumes it. */
module Documented {
  import opened Types
  import opened Foreign
  import opened Climate
  import opened Biomes

  /** With the default configuration the base temperature is warmest at the
      equator, 30 degrees at sea level there and -40 at the poles, and it
      falls strictly with altitude. */
  lemma DefaultTemperatureGradient(lat: real, alt: real, alt1: real, alt2: real)
    ensures var c := DefaultConfig();
      BaseTemperature(c, 0.0, 0.0) == 30.0 &&
      (Abs(lat) == 90.0 ==> BaseTemperature(c, lat, 0.0) == -40.0) &&
      (lat != 0.0 ==> BaseTemperature(c, 0.0, alt) > BaseTemperature(c, lat, alt)) &&
      (alt1 < alt2 ==> BaseTemperature(c, lat, alt1) > BaseTemperature(c, lat, alt2))
  {
    var c := DefaultConfig();
    BaseTemperatureAnchors(c, lat);
    if lat != 0.0 {
      BaseTemperatureFallsPoleward(c, 0.0, lat, alt);
    }
    if alt1 < alt2 {
      BaseTemperatureFallsWithAltitude(c, lat, alt1, alt2);
    }
  }

  /** With the default configuration the terrain lies between -4000 m and the
      height of Everest, and a point is underwater (negative height) exactly
      when its biome is an ocean biome, whatever the query altitude. A
      negative height only ever comes from a negative terrain sample. */
  lemma DefaultUnderwaterIsOcean(p: Primitives, lon: real, lat: real, alt: real)
    ensures var c := DefaultConfig();
      var h := TerrainHeight(c, p, lon, lat);
      -4000.0 <= h <= 8848.0 &&
      (h < 0.0 <==> IsOceanic(ClassifyBiome(c, p, lon, lat, alt))) &&
      (h < 0.0 ==> TerrainSample(c, p, lon, lat) < 0.0)
  {
  }

  /** Pressure depends on altitude alone: two points at the same altitude
      have the same pressure, and it falls strictly as the altitude rises. */
  lemma PressureByAltitudeOnly(exp: Exp, lon1: real, lat1: real, lon2: real, lat2: real, alt1: real, alt2: real)
    ensures alt1 == alt2 ==> AirPressureAt(exp, lon1, lat1, alt1) == AirPressureAt(exp, lon2, lat2, alt2)
    ensures alt1 < alt2 ==> AirPressureAt(exp, lon1, lat1, alt1) > AirPressureAt(exp, lon2, lat2, alt2)
  {
    if alt1 < alt2 {
      AirPressureDecreasing(exp, alt1, alt2);
    }
  }
}
