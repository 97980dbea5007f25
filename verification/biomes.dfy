/** Biome classification, the precipitation-type classifier and biome names.
    The classifiers are decision trees over values the climate queries
    produce; each is given as a scalar core over those values and as the
    world's query, which feeds it the climate at a point. */
module Biomes {
  import opened Types
  import opened Foreign
  import opened Climate

  // ----------------------------------------------------------------- groups

  /** The two ocean biomes. */
  predicate IsOceanic(b: BiomeType) {
    b == Ocean || b == DeepOcean
  }

  /** The three mountain variants. */
  predicate IsMountain(b: BiomeType) {
    b == MountainTundra || b == MountainForest || b == MountainPeak
  }

  /** The ten biomes of the temperature-moisture (Whittaker) diagram. */
  predicate IsWhittaker(b: BiomeType) {
    b == Tundra || b == Taiga || b == Grassland || b == TemperateDeciduousForest
    || b == TemperateRainforest || b == Savanna || b == TropicalSeasonalForest
    || b == TropicalRainforest || b == ColdDesert || b == Desert
  }

  // -------------------------------------------------------------- Whittaker

  /** The Whittaker diagram: four temperature bands (below 0, below 10, below
      20, and 20 up), each split by moisture thresholds. */
  function WhittakerBiome(temp: real, moisture: real): (b: BiomeType)
    ensures IsWhittaker(b)
  {
    if temp < 0.0 then
      if moisture < 0.3 then ColdDesert else Tundra
    else if temp < 10.0 then
      if moisture < 0.3 then ColdDesert
      else if moisture < 0.6 then Grassland
      else Taiga
    else if temp < 20.0 then
      if moisture < 0.3 then Grassland
      else if moisture < 0.6 then TemperateDeciduousForest
      else TemperateRainforest
    else
      if moisture < 0.2 then Desert
      else if moisture < 0.5 then Savanna
      else if moisture < 0.7 then TropicalSeasonalForest
      else TropicalRainforest
  }

  /** The diagram read biome by biome: the region of (temperature, moisture)
      each Whittaker biome occupies. The regions are disjoint and cover the
      plane, so this table determines the classifier. */
  lemma WhittakerRegions(temp: real, moisture: real)
    ensures var b := WhittakerBiome(temp, moisture);
      (b == ColdDesert <==> temp < 10.0 && moisture < 0.3) &&
      (b == Tundra <==> temp < 0.0 && moisture >= 0.3) &&
      (b == Grassland <==>
         (0.0 <= temp < 10.0 && 0.3 <= moisture < 0.6) ||
         (10.0 <= temp < 20.0 && moisture < 0.3)) &&
      (b == Taiga <==> 0.0 <= temp < 10.0 && moisture >= 0.6) &&
      (b == TemperateDeciduousForest <==> 10.0 <= temp < 20.0 && 0.3 <= moisture < 0.6) &&
      (b == TemperateRainforest <==> 10.0 <= temp < 20.0 && moisture >= 0.6) &&
      (b == Desert <==> temp >= 20.0 && moisture < 0.2) &&
      (b == Savanna <==> temp >= 20.0 && 0.2 <= moisture < 0.5) &&
      (b == TropicalSeasonalForest <==> temp >= 20.0 && 0.5 <= moisture < 0.7) &&
      (b == TropicalRainforest <==> temp >= 20.0 && moisture >= 0.7)
  {
  }

  // --------------------------------------------------------- classification

  /** The biome decision tree over the terrain height, the sea level, the
      temperature, the moisture and the caller's altitude, tested in a fixed
      order: ocean, beach, ice and snow, mountains, then the Whittaker
      diagram. The terrain height decides the first three tests; the
      altitude decides only the mountain tests. */
  function ClassifyBiomeFrom(terrainHeight: real, seaLevel: real, temp: real, moisture: real, alt: real): (b: BiomeType)
    ensures IsOceanic(b) <==> terrainHeight < seaLevel
    ensures b == DeepOcean <==> terrainHeight < seaLevel && terrainHeight < -1000.0
    ensures b == Beach <==> seaLevel <= terrainHeight < 5.0
    ensures var inland := seaLevel <= terrainHeight && 5.0 <= terrainHeight;
      (b == Ice <==> inland && temp < -15.0 && terrainHeight < 100.0) &&
      (b == BiomeType.Snow <==> inland && temp < -15.0 && terrainHeight >= 100.0) &&
      (b == MountainPeak <==> inland && temp >= -15.0 && alt > 4000.0) &&
      (b == MountainTundra <==> inland && temp >= -15.0 && 2500.0 < alt <= 4000.0 && temp < 0.0) &&
      (b == MountainForest <==> inland && temp >= -15.0 && 2500.0 < alt <= 4000.0 && temp >= 0.0) &&
      (IsWhittaker(b) <==> inland && temp >= -15.0 && alt <= 2500.0) &&
      (IsWhittaker(b) ==> b == WhittakerBiome(temp, moisture))
  {
    if terrainHeight < seaLevel then
      if terrainHeight < -1000.0 then DeepOcean else Ocean
    else if terrainHeight < 5.0 then
      Beach
    else if temp < -15.0 then
      if terrainHeight < 100.0 then Ice else BiomeType.Snow
    else if alt > 4000.0 then
      MountainPeak
    else if alt > 2500.0 then
      if temp < 0.0 then MountainTundra else MountainForest
    else
      WhittakerBiome(temp, moisture)
  }

  /** The world's biome query at a point and altitude. */
  function ClassifyBiome(c: WorldConfig, p: Primitives, lon: real, lat: real, alt: real): (b: BiomeType)
    ensures var h := TerrainHeight(c, p, lon, lat);
      (IsOceanic(b) <==> h < c.seaLevel) &&
      (b == DeepOcean <==> h < c.seaLevel && h < -1000.0) &&
      (b == Beach <==> c.seaLevel <= h < 5.0)
  {
    ClassifyBiomeFrom(
      TerrainHeight(c, p, lon, lat), c.seaLevel,
      Temperature(c, p, lon, lat, alt), Moisture(c, p, lon, lat), alt)
  }

  /** Cold overrides altitude: below -15 degrees an inland point is ice where
      the terrain is under 100 m and snow elsewhere, whatever the altitude. */
  lemma ColdBeforeAltitude(h: real, seaLevel: real, temp: real, moisture: real, alt1: real, alt2: real)
    requires seaLevel <= h && 5.0 <= h && temp < -15.0
    ensures ClassifyBiomeFrom(h, seaLevel, temp, moisture, alt1)
      == ClassifyBiomeFrom(h, seaLevel, temp, moisture, alt2)
    ensures ClassifyBiomeFrom(h, seaLevel, temp, moisture, alt1)
      == (if h < 100.0 then Ice else BiomeType.Snow)
  {
  }

  /** A warm, wet lowland point is tropical rainforest. */
  lemma WarmWetLowland(h: real, seaLevel: real, temp: real, moisture: real, alt: real)
    requires seaLevel <= h && 5.0 <= h && alt <= 2500.0
    requires temp >= 20.0 && moisture >= 0.7
    ensures ClassifyBiomeFrom(h, seaLevel, temp, moisture, alt) == TropicalRainforest
  {
    WhittakerRegions(temp, moisture);
  }

  /** Where the terrain is under 5 m or under the sea the query altitude
      changes nothing: the biome is ocean, deep ocean or beach from the
      terrain height alone. */
  lemma ShoreIgnoresAltitude(c: WorldConfig, p: Primitives, lon: real, lat: real, alt1: real, alt2: real)
    requires TerrainHeight(c, p, lon, lat) < 5.0 || TerrainHeight(c, p, lon, lat) < c.seaLevel
    ensures ClassifyBiome(c, p, lon, lat, alt1) == ClassifyBiome(c, p, lon, lat, alt2)
    ensures IsOceanic(ClassifyBiome(c, p, lon, lat, alt1)) || ClassifyBiome(c, p, lon, lat, alt1) == Beach
  {
  }

  // ----------------------------------------------------- precipitation type

  /** The precipitation-type classifier over precipitation and temperature:
      nothing below 100 mm; otherwise snow below -2 degrees, sleet up to 2
      degrees and rain from 2 degrees up. */
  function PrecipitationTypeFrom(precip: real, temp: real): (k: PrecipitationType)
    ensures k == PrecipitationType.None <==> precip < 100.0
    ensures k == PrecipitationType.Snow <==> precip >= 100.0 && temp < -2.0
    ensures k == Sleet <==> precip >= 100.0 && -2.0 <= temp < 2.0
    ensures k == Rain <==> precip >= 100.0 && temp >= 2.0
  {
    if precip < 100.0 then PrecipitationType.None
    else if temp < -2.0 then PrecipitationType.Snow
    else if temp < 2.0 then Sleet
    else Rain
  }

  /** The world's precipitation-type query at a point and altitude. */
  function PrecipitationTypeAt(c: WorldConfig, p: Primitives, lon: real, lat: real, alt: real): (k: PrecipitationType)
    ensures var precip := Precipitation(c, p, lon, lat, alt);
      var temp := Temperature(c, p, lon, lat, alt);
      (k == PrecipitationType.None <==> precip < 100.0) &&
      (k == PrecipitationType.Snow <==> precip >= 100.0 && temp < -2.0) &&
      (k == Sleet <==> precip >= 100.0 && -2.0 <= temp < 2.0) &&
      (k == Rain <==> precip >= 100.0 && temp >= 2.0)
  {
    PrecipitationTypeFrom(Precipitation(c, p, lon, lat, alt), Temperature(c, p, lon, lat, alt))
  }

  // ------------------------------------------------------------------ names

  /** The display name of a biome. */
  function BiomeName(b: BiomeType): (s: string)
    ensures |s| > 0 && s != "Unknown"
  {
    match b
    case Tundra => "Tundra"
    case Taiga => "Taiga"
    case Grassland => "Grassland"
    case TemperateDeciduousForest => "Temperate Deciduous Forest"
    case TemperateRainforest => "Temperate Rainforest"
    case Savanna => "Savanna"
    case TropicalSeasonalForest => "Tropical Seasonal Forest"
    case TropicalRainforest => "Tropical Rainforest"
    case ColdDesert => "Cold Desert"
    case Desert => "Desert"
    case Ocean => "Ocean"
    case DeepOcean => "Deep Ocean"
    case Beach => "Beach"
    case Snow => "Snow"
    case Ice => "Ice"
    case MountainTundra => "Mountain Tundra"
    case MountainForest => "Mountain Forest"
    case MountainPeak => "Mountain Peak"
  }

  /** The result of looking a name up among the biome names. */
  datatype NameLookup = UnknownName | Named(biome: BiomeType)

  /** The biome whose display name is `s`, if any. */
  function BiomeFromName(s: string): (r: NameLookup)
    ensures r.Named? ==> BiomeName(r.biome) == s
  {
    if s == "Tundra" then Named(Tundra)
    else if s == "Taiga" then Named(Taiga)
    else if s == "Grassland" then Named(Grassland)
    else if s == "Temperate Deciduous Forest" then Named(TemperateDeciduousForest)
    else if s == "Temperate Rainforest" then Named(TemperateRainforest)
    else if s == "Savanna" then Named(Savanna)
    else if s == "Tropical Seasonal Forest" then Named(TropicalSeasonalForest)
    else if s == "Tropical Rainforest" then Named(TropicalRainforest)
    else if s == "Cold Desert" then Named(ColdDesert)
    else if s == "Desert" then Named(Desert)
    else if s == "Ocean" then Named(Ocean)
    else if s == "Deep Ocean" then Named(DeepOcean)
    else if s == "Beach" then Named(Beach)
    else if s == "Snow" then Named(BiomeType.Snow)
    else if s == "Ice" then Named(Ice)
    else if s == "Mountain Tundra" then Named(MountainTundra)
    else if s == "Mountain Forest" then Named(MountainForest)
    else if s == "Mountain Peak" then Named(MountainPeak)
    else UnknownName
  }

  /** Every biome's name reads back as that biome. */
  lemma BiomeNameRoundTrip(b: BiomeType)
    ensures BiomeFromName(BiomeName(b)) == Named(b)
  {
  }

  /** Distinct biomes have distinct names. */
  lemma BiomeNameInjective(a: BiomeType, b: BiomeType)
    requires a != b
    ensures BiomeName(a) != BiomeName(b)
  {
    BiomeNameRoundTrip(a);
    BiomeNameRoundTrip(b);
  }
}
