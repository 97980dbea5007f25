/** The scalar point queries: terrain height, moisture, temperature,
    precipitation, air pressure and humidity. Each is a function of the world
    configuration, the foreign primitives and the query point; the noise
    generators are the ones the configuration determines. */
module Climate {
  import opened Types
  import opened Foreign
  import opened Generators

  /** The terrain generator's sample at a point. */
  function TerrainSample(c: WorldConfig, p: Primitives, lon: real, lat: real): NoiseValue {
    p.noise(InitializeNoiseGenerators(c).terrain, lon, lat)
  }

  /** The moisture generator's sample at a point. */
  function MoistureSample(c: WorldConfig, p: Primitives, lon: real, lat: real): NoiseValue {
    p.noise(InitializeNoiseGenerators(c).moisture, lon, lat)
  }

  /** The temperature-variation generator's sample at a point. */
  function VariationSample(c: WorldConfig, p: Primitives, lon: real, lat: real): NoiseValue {
    p.noise(InitializeNoiseGenerators(c).temperatureVariation, lon, lat)
  }

  // ---------------------------------------------------------------- terrain

  /** The terrain curve on a noise sample: a negative sample is squared
      twice with the sign restored each time, which flattens shallow seas,
      and stays in [-1, 0]; a non-negative sample goes through the 0.7 power
      curve into [0, 1]. */
  function ShapeTerrainNoise(pow07: Pow07, n: NoiseValue): (shaped: real)
    ensures n < 0.0 ==> -1.0 <= shaped <= 0.0
    ensures n >= 0.0 ==> 0.0 <= shaped <= 1.0
  {
    if n < 0.0 then
      var once := n * n * -1.0;
      OceanShaping(n);
      once * once * -1.0
    else
      pow07(n)
  }

  /** Maps a shaped value to metres: below 0 onto the ocean depths down to
      -4000, otherwise onto land heights up to the configured maximum. */
  function ScaleTerrain(shaped: real, maxHeight: real): (h: real)
    ensures -1.0 <= shaped < 0.0 ==> -4000.0 <= h < 0.0
    ensures 0.0 <= shaped <= 1.0 && maxHeight >= 0.0 ==> 0.0 <= h <= maxHeight
  {
    if shaped < 0.0 then shaped * 4000.0
    else LandBounds(shaped, maxHeight); shaped * maxHeight
  }

  /** Terrain height in metres. A negative sample is an ocean floor no deeper
      than -4000; a non-negative sample is land, raised by the 0.7 power curve
      to at most the configured maximum. So a height below 0 always comes from
      a negative sample (OceanFloor gives the converse). */
  function TerrainHeight(c: WorldConfig, p: Primitives, lon: real, lat: real): (h: real)
    ensures var n := TerrainSample(c, p, lon, lat);
      (n < 0.0 ==> -4000.0 <= h <= 0.0) &&
      (n >= 0.0 && c.maxTerrainHeight >= 0.0 ==> 0.0 <= h <= c.maxTerrainHeight) &&
      (c.maxTerrainHeight >= 0.0 ==> (h < 0.0 ==> n < 0.0))
  {
    ScaleTerrain(ShapeTerrainNoise(p.pow07, TerrainSample(c, p, lon, lat)), c.maxTerrainHeight)
  }

  /** Under a negative sample n the terrain is an ocean floor at exactly
      -4000 n^4, and n^4 is positive, so the height is below 0. */
  lemma OceanFloor(c: WorldConfig, p: Primitives, lon: real, lat: real)
    requires TerrainSample(c, p, lon, lat) < 0.0
    ensures var n: real := TerrainSample(c, p, lon, lat);
      TerrainHeight(c, p, lon, lat) == -4000.0 * (n * n * n * n) && 0.0 < n * n * n * n
  {
    var n: real := TerrainSample(c, p, lon, lat);
    OceanShaping(n);
    var shaped := ShapeTerrainNoise(p.pow07, n);
    assert shaped == -(n * n * n * n);
    if shaped >= 0.0 {
      assert shaped == 0.0;
      assert TerrainHeight(c, p, lon, lat) == 0.0 * c.maxTerrainHeight;
    }
  }

  /** A shaped land value in [0, 1] scales into [0, maximum]. */
  lemma LandBounds(shaped: real, maximum: real)
    ensures 0.0 <= shaped <= 1.0 && maximum >= 0.0 ==> 0.0 <= shaped * maximum <= maximum
  {
    if 0.0 <= shaped <= 1.0 && maximum >= 0.0 {
      ProductBounds(shaped, maximum, 1.0, maximum);
    }
  }

  /** Squaring a sample in [-1, 0) twice, negating each time, gives minus its
      fourth power, a value in [-1, 0]. */
  lemma OceanShaping(n: real)
    requires -1.0 <= n < 0.0
    ensures (n * n * -1.0) * (n * n * -1.0) * -1.0 == -(n * n * n * n)
    ensures -1.0 <= (n * n * -1.0) * (n * n * -1.0) * -1.0 <= 0.0
  {
    if -1.0 < n {
      MulNegative(n, -1.0, n);
      assert n * -1.0 > n * n;
      assert n * -1.0 == -n;
    }
    assert n * n <= 1.0;
    assert 0.0 <= n * n;
    MulMonotone(n * n, n * n, 1.0);
    assert (n * n) * (n * n) <= (n * n) * 1.0;
    assert (n * n) * 1.0 == n * n;
    assert (n * n * -1.0) * (n * n * -1.0) == n * n * n * n;
  }

  // --------------------------------------------------------------- moisture

  /** Moisture in [0, 1]: the sample mapped to [0, 1] weighted 0.7, plus a
      latitude term weighted 0.3 that is largest at the equator. For a
      latitude in [-90, 90] the latitude term adds between 0 and 0.3 to the
      noise term, so the final clamp never changes the value. */
  function Moisture(c: WorldConfig, p: Primitives, lon: real, lat: real): (m: real)
    ensures 0.0 <= m <= 1.0
    ensures -90.0 <= lat <= 90.0 ==>
      var noiseTerm := (MoistureSample(c, p, lon, lat) + 1.0) * 0.5 * 0.7;
      noiseTerm <= m <= noiseTerm + 0.3
  {
    var moisture := (MoistureSample(c, p, lon, lat) + 1.0) * 0.5;
    var latFactor := 1.0 - Abs(lat) / 90.0;
    Clamp(moisture * 0.7 + latFactor * 0.3, 0.0, 1.0)
  }

  /** The latitude term contributes 0.3 at the equator and nothing at the
      poles. */
  lemma MoistureLatitudeTerm(c: WorldConfig, p: Primitives, lon: real, lat: real)
    ensures var noiseTerm := (MoistureSample(c, p, lon, lat) + 1.0) * 0.5 * 0.7;
      (lat == 0.0 ==> Moisture(c, p, lon, lat) == noiseTerm + 0.3) &&
      (Abs(lat) == 90.0 ==> Moisture(c, p, lon, lat) == noiseTerm)
  {
  }

  // ------------------------------------------------------------ temperature

  /** How far towards a pole a latitude lies: 0 at the equator, 1 at
      either pole. */
  function PolewardFactor(lat: real): (f: real)
    ensures -90.0 <= lat <= 90.0 <==> 0.0 <= f <= 1.0
  {
    Abs(lat) / 90.0
  }

  /** The temperature change from altitude: minus the lapse rate per 1000 m
      climbed. */
  function AltitudeAdjustment(c: WorldConfig, alt: real): real
  {
    -(alt / 1000.0) * c.temperatureLapseRate
  }

  /** Temperature from latitude and altitude alone: interpolated between the
      equator and pole temperatures by the poleward factor, plus the altitude
      adjustment. */
  function BaseTemperature(c: WorldConfig, lat: real, alt: real): real
  {
    var latFactor := PolewardFactor(lat);
    var baseTemp := Interpolate(c.equatorTemperature, c.equatorTemperature - c.poleTemperature, latFactor);
    baseTemp + AltitudeAdjustment(c, alt)
  }

  /** Moving down from `from` by the fraction `f` of `span`. */
  function Interpolate(from: real, span: real, f: real): real
  {
    from - span * f
  }

  /** For a fraction in [0, 1] the interpolated value lies between `from` and
      `from - span`. */
  lemma InterpolateBetween(from: real, span: real, f: real)
    requires 0.0 <= f <= 1.0
    ensures span >= 0.0 ==> from - span <= Interpolate(from, span, f) <= from
    ensures span <= 0.0 ==> from <= Interpolate(from, span, f) <= from - span
  {
    if span >= 0.0 {
      MulMonotone(span, 0.0, f);
      MulMonotone(span, f, 1.0);
    } else {
      var rise := -span;
      MulMonotone(rise, 0.0, f);
      MulMonotone(rise, f, 1.0);
      assert Interpolate(from, span, f) == from + rise * f;
    }
  }

  /** A positive span is covered further by a larger fraction. */
  lemma InterpolateStrict(from: real, span: real, f1: real, f2: real)
    requires span > 0.0 && f1 < f2
    ensures Interpolate(from, span, f1) > Interpolate(from, span, f2)
  {
    MulStrict(span, f1, f2);
  }

  /** For a latitude in [-90, 90], the base temperature with the altitude
      adjustment taken back out lies between the pole and equator
      temperatures. */
  lemma BaseTemperatureBetween(c: WorldConfig, lat: real, alt: real)
    requires -90.0 <= lat <= 90.0
    ensures var seaLevelTemp := BaseTemperature(c, lat, alt) - AltitudeAdjustment(c, alt);
      (c.poleTemperature <= c.equatorTemperature ==>
         c.poleTemperature <= seaLevelTemp <= c.equatorTemperature) &&
      (c.equatorTemperature <= c.poleTemperature ==>
         c.equatorTemperature <= seaLevelTemp <= c.poleTemperature)
  {
    InterpolateBetween(c.equatorTemperature, c.equatorTemperature - c.poleTemperature, PolewardFactor(lat));
  }

  /** The base temperature is the equator temperature at the equator and the
      pole temperature at either pole, both at altitude 0. */
  lemma BaseTemperatureAnchors(c: WorldConfig, lat: real)
    ensures BaseTemperature(c, 0.0, 0.0) == c.equatorTemperature
    ensures Abs(lat) == 90.0 ==> BaseTemperature(c, lat, 0.0) == c.poleTemperature
  {
  }

  /** The base temperature does not depend on the hemisphere. */
  lemma BaseTemperatureSymmetric(c: WorldConfig, lat: real, alt: real)
    ensures BaseTemperature(c, -lat, alt) == BaseTemperature(c, lat, alt)
  {
  }

  /** Climbing by d metres lowers the base temperature by d / 1000 times the
      lapse rate. */
  lemma BaseTemperatureLapse(c: WorldConfig, lat: real, alt: real, d: real)
    ensures BaseTemperature(c, lat, alt + d)
      == BaseTemperature(c, lat, alt) - d / 1000.0 * c.temperatureLapseRate
  {
  }

  /** With the equator warmer than the poles, the base temperature falls
      strictly as the point moves towards either pole. */
  lemma BaseTemperatureFallsPoleward(c: WorldConfig, lat1: real, lat2: real, alt: real)
    requires c.equatorTemperature > c.poleTemperature
    requires Abs(lat1) < Abs(lat2)
    ensures BaseTemperature(c, lat1, alt) > BaseTemperature(c, lat2, alt)
  {
    InterpolateStrict(c.equatorTemperature, c.equatorTemperature - c.poleTemperature,
      PolewardFactor(lat1), PolewardFactor(lat2));
  }

  /** With a positive lapse rate, the base temperature falls strictly with
      altitude. */
  lemma BaseTemperatureFallsWithAltitude(c: WorldConfig, lat: real, alt1: real, alt2: real)
    requires c.temperatureLapseRate > 0.0
    requires alt1 < alt2
    ensures BaseTemperature(c, lat, alt1) > BaseTemperature(c, lat, alt2)
  {
    MulStrict(c.temperatureLapseRate, alt1 / 1000.0, alt2 / 1000.0);
  }

  /** Temperature: the base temperature plus a local variation of at most
      5 degrees either way. */
  function Temperature(c: WorldConfig, p: Primitives, lon: real, lat: real, alt: real): (t: real)
    ensures BaseTemperature(c, lat, alt) - 5.0 <= t <= BaseTemperature(c, lat, alt) + 5.0
  {
    var baseTemp := BaseTemperature(c, lat, alt);
    var variation := VariationSample(c, p, lon, lat) * 5.0;
    baseTemp + variation
  }

  // ---------------------------------------------------------- precipitation

  /** How much moisture air of a given temperature can hold, relative to air
      at 30 degrees: (temp + 10) / 40 kept within [0.1, 1.5]. */
  function CapacityFactor(temp: real): (f: real)
    ensures 0.1 <= f <= 1.5
    ensures -6.0 <= temp <= 50.0 ==> f == (temp + 10.0) / 40.0
  {
    Clamp((temp + 10.0) / 40.0, 0.1, 1.5)
  }

  /** Annual precipitation in mm from the point's moisture, temperature,
      terrain height and the query altitude. Moisture times 2000 times the
      capacity factor gives at most 3000; slopes with terrain strictly between
      500 and 3000 m get 30 % more, whatever the altitude, and only elsewhere
      does an altitude above 4000 m halve it. The result never exceeds 3900,
      so the final clamp to [0, 4000] never changes it. */
  function PrecipitationFrom(moisture: real, temp: real, terrainHeight: real, alt: real): (r: real)
    requires 0.0 <= moisture <= 1.0
    ensures 0.0 <= r <= 3900.0
    ensures
      var base := moisture * 2000.0 * CapacityFactor(temp);
      0.0 <= base <= 3000.0 &&
      (500.0 < terrainHeight < 3000.0 ==> r == base * 1.3) &&
      (!(500.0 < terrainHeight < 3000.0) && alt > 4000.0 ==> r == base * 0.5) &&
      (!(500.0 < terrainHeight < 3000.0) && alt <= 4000.0 ==> r == base)
  {
    var basePrecip := moisture * 2000.0;
    var tempFactor := CapacityFactor(temp);
    ProductBounds(basePrecip, tempFactor, 2000.0, 1.5);
    var scaled := basePrecip * tempFactor;
    var adjusted :=
      if 500.0 < terrainHeight < 3000.0 then scaled * 1.3
      else if alt > 4000.0 then scaled * 0.5
      else scaled;
    Clamp(adjusted, 0.0, 4000.0)
  }

  /** The world's precipitation query, in mm per year: between 0 and 3900. */
  function Precipitation(c: WorldConfig, p: Primitives, lon: real, lat: real, alt: real): (r: real)
    ensures 0.0 <= r <= 3900.0
  {
    var moisture := Moisture(c, p, lon, lat);
    var temp := Temperature(c, p, lon, lat, alt);
    PrecipitationFrom(moisture, temp, TerrainHeight(c, p, lon, lat), alt)
  }

  // ----------------------------------------------------------- air pressure

  /** Air pressure in millibars: 1013.25 times exp(-altitude / 8500). It is
      positive and equals the sea-level pressure at altitude 0. */
  function AirPressure(exp: Exp, alt: real): (pressure: real)
    ensures pressure > 0.0
    ensures alt == 0.0 ==> pressure == 1013.25
  {
    1013.25 * exp(-alt / 8500.0)
  }

  /** Air pressure falls strictly as altitude rises. */
  lemma AirPressureDecreasing(exp: Exp, alt1: real, alt2: real)
    requires alt1 < alt2
    ensures AirPressure(exp, alt1) > AirPressure(exp, alt2)
  {
  }

  /** The world's pressure query: longitude and latitude are accepted and
      ignored, so the pressure at a point is the altitude pressure. */
  function AirPressureAt(exp: Exp, lon: real, lat: real, alt: real): (pressure: real)
    ensures pressure > 0.0
    ensures alt == 0.0 ==> pressure == 1013.25
  {
    AirPressure(exp, alt)
  }

  /** The pressure query does not depend on the position, only on the
      altitude. */
  lemma AirPressureAtIgnoresPosition(exp: Exp, lon1: real, lat1: real, lon2: real, lat2: real, alt: real)
    ensures AirPressureAt(exp, lon1, lat1, alt) == AirPressureAt(exp, lon2, lat2, alt)
  {
  }

  // --------------------------------------------------------------- humidity

  /** Cold air has higher relative humidity for the same moisture: the factor
      is 1.5 at or below 10 degrees, falls linearly and is 1.0 from 30
      degrees up. */
  function RelativeHumidityFactor(temp: real): (f: real)
    ensures 1.0 <= f <= 1.5
    ensures temp <= 10.0 ==> f == 1.5
    ensures temp >= 30.0 ==> f == 1.0
  {
    var tempFactor := 1.0 - Clamp((temp - 10.0) / 40.0, 0.0, 0.5);
    0.5 + tempFactor
  }

  /** The drying applied at altitude: none up to 3000 m, then linear down to
      a factor of 0.2 from 7000 m up. */
  function AltitudeDryness(alt: real): (f: real)
    ensures 0.2 <= f <= 1.0
    ensures alt <= 3000.0 ==> f == 1.0
    ensures alt >= 7000.0 ==> f == 0.2
  {
    if alt > 3000.0 then Clamp(1.0 - (alt - 3000.0) / 5000.0, 0.2, 1.0) else 1.0
  }

  /** Moisture scaled by the relative-humidity factor, before any clamp or
      altitude reduction. */
  function SurfaceHumidity(moisture: real, temp: real): real
  {
    moisture * RelativeHumidityFactor(temp)
  }

  /** Relative humidity in [0, 1] from the point's moisture and temperature
      and the query altitude. Without the altitude reduction it is the surface
      humidity clamped to [0, 1]; up to 3000 m that is exactly the result, and
      above it the reduction can only lower the value, never below a fifth of
      it. */
  function HumidityFrom(moisture: real, temp: real, alt: real): (h: real)
    requires 0.0 <= moisture <= 1.0
    ensures 0.0 <= h <= 1.0
    ensures
      var surface := Clamp(SurfaceHumidity(moisture, temp), 0.0, 1.0);
      (alt <= 3000.0 ==> h == surface) &&
      0.2 * surface <= h <= surface
  {
    var humidity := SurfaceHumidity(moisture, temp);
    ProductBounds(moisture, RelativeHumidityFactor(temp), 1.0, 1.5);
    var dried := humidity * AltitudeDryness(alt);
    DrynessScale(humidity, AltitudeDryness(alt));
    DrynessBounds(humidity, dried);
    Clamp(dried, 0.0, 1.0)
  }

  /** The world's humidity query: relative humidity in [0, 1]. */
  function Humidity(c: WorldConfig, p: Primitives, lon: real, lat: real, alt: real): (h: real)
    ensures 0.0 <= h <= 1.0
  {
    var moisture := Moisture(c, p, lon, lat);
    var temp := Temperature(c, p, lon, lat, alt);
    HumidityFrom(moisture, temp, alt)
  }

  /** A non-negative value scaled by a factor in [0.2, 1] lies between a
      fifth of itself and itself. */
  lemma DrynessScale(x: real, f: real)
    requires 0.0 <= x && 0.2 <= f <= 1.0
    ensures 0.2 * x <= x * f <= x
  {
    MulMonotone(x, f, 1.0);
    assert x * 1.0 == x;
    MulMonotone(x, 0.2, f);
    assert 0.2 * x == x * 0.2;
  }

  /** A value between a fifth of a non-negative x and x, clamped to [0, 1],
      lies between a fifth of x clamped and x clamped. */
  lemma DrynessBounds(x: real, y: real)
    requires 0.0 <= x && 0.2 * x <= y <= x
    ensures 0.2 * Clamp(x, 0.0, 1.0) <= Clamp(y, 0.0, 1.0) <= Clamp(x, 0.0, 1.0)
  {
    ClampMonotone(y, x, 0.0, 1.0);
    if x > 1.0 {
      ClampMonotone(0.2, y, 0.0, 1.0);
    }
  }
}
