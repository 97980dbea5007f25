# rworld environmental point queries, in Dafny

rworld is a procedural world generator. A `World` holds a `WorldConfig` and
three FastNoiseLite generators built from it: terrain, moisture and
temperature variation. It answers point queries at a longitude, latitude and
altitude:

- terrain height;
- moisture;
- base temperature and temperature;
- precipitation and its type;
- air pressure;
- humidity;
- the biome.

Every query is a short chain of arithmetic, thresholds and clamps over a few
noise samples. This project models that layer and proves its range bounds,
its branch order and the relations its documentation promises.

Layout, one module per file:

- `types.dfy` (`Types`): the `BiomeType` and `PrecipitationType`
  enumerations, the `WorldConfig` record and its default values.
- `foreign.dfy` (`Foreign`): what the library calls but does not define.
  - The noise sampler is a parameter whose result lies in [-1, 1]. The
    geographic projection is folded into it.
  - `pow(x, 0.7)` on [0, 1] is a parameter mapping [0, 1] into [0, 1].
  - `exp` is a parameter that is positive, strictly increasing and 1 at 0.
  - `std::clamp` and `std::abs` are defined, with a few arithmetic lemmas.
- `generators.dfy` (`Generators`): the generator settings. They are a
  value: what `initialize_noise_generators` sets, or the library default.
  Seeds use `uint64_t` wrap-around and the cast to `int`.
- `climate.dfy` (`Climate`): the scalar queries.
- `biomes.dfy` (`Biomes`): the biome decision tree, the precipitation-type
  classifier and the biome names.
- `documented.dfy` (`Documented`): the header's documented behaviour under
  the default configuration.
- `world.dfy` (`RWorld`): the `World` class. It holds the configuration and
  the three generators as fields.
  - Its constructors and `SetConfig` keep the invariant `Valid()`: the
    generator fields are the ones the configuration determines.
  - Its query methods sample the generator fields, as the library's own
    queries do.

The query specifications in `Climate` and `Biomes` are functions of the
configuration, the foreign primitives and the query point. They rebuild the
generators from the configuration instead of reading them from a world.
Under `Valid()` the two agree, and each `World` query method is proved equal
to its function. The composite queries (precipitation, humidity, biome and precipitation
type) each have a scalar core (`PrecipitationFrom`, `HumidityFrom`,
`ClassifyBiomeFrom`, `PrecipitationTypeFrom`) that takes the values the
query derives.

Arithmetic is on `real`, so float rounding is not modelled.

The hot Whittaker band begins at 20 degrees inclusive: the code reaches it
once `temp < 20` fails (src/world.cpp:232), although its comment
(src/world.cpp:241) describes it as above 20 degrees. The model follows the code.

## Model

| member | source | states |
|---|---|---|
| Types.AllBiomes | include/rworld/world.h:12-42 | the 18 biome kinds, pairwise distinct |
| Types.BiomeTypeClosed | include/rworld/world.h:12-42 | every biome is one of the 18 listed (the enum is closed) |
| Types.AllPrecipitationTypes | include/rworld/world.h:47-52 | the 4 precipitation kinds, pairwise distinct |
| Types.PrecipitationTypeClosed | include/rworld/world.h:47-52 | every precipitation kind is one of the 4 listed |
| Types.DefaultConfig | include/rworld/world.h:57-78 | the defaults have the equator warmer than the poles, a positive lapse rate, sea level 0 below a positive maximum height, and a positive world scale |
| Generators.AddUInt64 | src/world.cpp:35 | `uint64_t` addition agrees with the true sum modulo 2^64, and equals it when there is no overflow |
| Generators.ToInt32 | src/world.cpp:28 | the cast to `int` keeps the value modulo 2^32 and leaves values below 2^31 unchanged |
| Generators.SeedOffset | src/world.cpp:35 | a seed offset by k, cast to `int`, differs from the cast seed by exactly k modulo 2^32 |
| Generators.InitializeNoiseGenerators | src/world.cpp:20-41 | all three generators use OpenSimplex2; terrain and moisture use FBm fractals, while temperature variation keeps the library's fractal default; the three seeds are pairwise distinct for every world seed |
| Generators.GeneratorSeedOffsets | src/world.cpp:28-40 | terrain takes the world seed cast to `int`; the moisture and variation seeds differ from it by 1000 and 2000 modulo 2^32 |
| Climate.ShapeTerrainNoise | src/world.cpp:64-73 | a negative sample shapes into [-1, 0]; a non-negative one into [0, 1] |
| Climate.OceanShaping | src/world.cpp:66-69 | squaring a sample in [-1, 0) twice, with the sign restored each time, gives -n^4, which lies in [-1, 0] |
| Climate.ScaleTerrain | src/world.cpp:75-81 | a shaped value in [-1, 0) maps into [-4000, 0); one in [0, 1] maps into [0, max] |
| Climate.TerrainHeight | src/world.cpp:56-82 | a negative sample gives a height in [-4000, 0]; a non-negative one gives [0, max]; a height below 0 always comes from a negative sample |
| Climate.OceanFloor | src/world.cpp:64-78 | under a negative sample n the height is exactly -4000 n^4 with n^4 > 0 |
| Climate.Moisture | src/world.cpp:84-97 | moisture is in [0, 1]; for a latitude in [-90, 90] it is the noise term plus between 0 and 0.3 from latitude, so the clamp never cuts |
| Climate.MoistureLatitudeTerm | src/world.cpp:93-94 | the latitude term adds 0.3 at the equator and nothing at either pole |
| Climate.BaseTemperature | src/world.cpp:99-109 | no contract of its own: the poleward interpolation plus the lapse term; its properties are the BaseTemperature* lemmas below |
| Climate.PolewardFactor | src/world.cpp:101 | the latitude factor lies in [0, 1] exactly for latitudes in [-90, 90] |
| Climate.BaseTemperatureBetween | src/world.cpp:99-109 | for a latitude in [-90, 90], the temperature with the altitude adjustment taken back out lies between the pole and equator temperatures |
| Climate.BaseTemperatureAnchors | src/world.cpp:99-109 | it is the equator temperature at latitude 0, altitude 0, and the pole temperature at either pole, altitude 0 |
| Climate.BaseTemperatureSymmetric | src/world.cpp:101 | it does not depend on the sign of the latitude |
| Climate.BaseTemperatureLapse | src/world.cpp:106-108 | climbing d metres lowers it by d/1000 times the lapse rate |
| Climate.BaseTemperatureFallsPoleward | src/world.cpp:101-103 | with the equator warmer than the poles, it falls strictly as the absolute latitude grows |
| Climate.BaseTemperatureFallsWithAltitude | src/world.cpp:106-108 | with a positive lapse rate, it falls strictly with altitude |
| Climate.Temperature | src/world.cpp:111-120 | temperature differs from the base temperature by at most 5 degrees |
| Climate.CapacityFactor | src/world.cpp:131 | the capacity factor lies in [0.1, 1.5] and equals (t + 10)/40 for t in [-6, 50] |
| Climate.PrecipitationFrom | src/world.cpp:122-144 | the scaled base lies in [0, 3000]; terrain strictly between 500 and 3000 gives ×1.3 even above 4000 m; only otherwise does altitude above 4000 give ×0.5; the result lies in [0, 3900] |
| Climate.Precipitation | src/world.cpp:122-144 | precipitation lies in [0, 3900], inside the [0, 4000] clamp |
| Climate.AirPressure | src/world.cpp:146-153 | pressure is positive and equals 1013.25 at altitude 0 |
| Climate.AirPressureDecreasing | src/world.cpp:146-153 | pressure falls strictly as the altitude rises |
| Climate.AirPressureAt | src/world.cpp:296-300 | the query's pressure is positive and 1013.25 at altitude 0 |
| Climate.AirPressureAtIgnoresPosition | src/world.cpp:296-300 | the query ignores longitude and latitude: two positions at the same altitude get the same pressure |
| Climate.RelativeHumidityFactor | src/world.cpp:161-163 | the factor lies in [1, 1.5]; it is 1.5 up to 10 degrees and 1.0 from 30 degrees |
| Climate.AltitudeDryness | src/world.cpp:166-168 | the factor lies in [0.2, 1]; it is 1 up to 3000 m and 0.2 from 7000 m |
| Climate.HumidityFrom | src/world.cpp:155-171 | humidity is in [0, 1]; up to 3000 m it is the clamped surface humidity, and above that between a fifth of it and all of it |
| Climate.Humidity | src/world.cpp:155-171 | humidity lies in [0, 1] |
| Biomes.WhittakerBiome | src/world.cpp:210-249 | the Whittaker bands yield only Whittaker biomes |
| Biomes.WhittakerRegions | src/world.cpp:210-249 | the region of temperature and moisture each Whittaker biome occupies, as an if-and-only-if per biome |
| Biomes.ClassifyBiomeFrom | src/world.cpp:173-250 | ocean biome iff terrain is below sea level; deep ocean iff it is also below -1000; beach iff terrain is in [sea level, 5); then ice or snow iff below -15 degrees; peak iff above 4000 m; mountain tundra or forest iff 2500 < altitude ≤ 4000; the Whittaker bands iff altitude ≤ 2500, and then the Whittaker biome |
| Biomes.ClassifyBiome | src/world.cpp:173-187 | the ocean, deep-ocean and beach tests use the noise-derived terrain height, not the query altitude |
| Biomes.ColdBeforeAltitude | src/world.cpp:189-198 | below -15 degrees an inland point is ice under 100 m and snow otherwise, whatever the altitude |
| Biomes.WarmWetLowland | src/world.cpp:241-249 | at or below 2500 m, 20 degrees or more with moisture of 0.7 or more is tropical rainforest |
| Biomes.ShoreIgnoresAltitude | src/world.cpp:174-187 | where terrain is below 5 m or below sea level, the biome is ocean, deep ocean or beach and the altitude does not matter |
| Biomes.PrecipitationTypeFrom | src/world.cpp:284-293 | none iff precipitation < 100; otherwise snow iff temp < -2, sleet iff -2 ≤ temp < 2, rain iff temp ≥ 2 |
| Biomes.PrecipitationTypeAt | src/world.cpp:280-294 | the same four if-and-only-ifs over the point's precipitation and temperature |
| Biomes.BiomeName | src/world.cpp:315-337 | every biome has a non-empty name that is not "Unknown" |
| Biomes.BiomeFromName | src/world.cpp:315-337 | a name found by the lookup is the name of the biome returned |
| Biomes.BiomeNameRoundTrip | src/world.cpp:315-337 | looking a biome's name up gives that biome back |
| Biomes.BiomeNameInjective | src/world.cpp:315-337 | distinct biomes have distinct names |
| Documented.DefaultTemperatureGradient | include/rworld/world.h:124-135 | under the defaults: 30 degrees at the equator and -40 at the poles at sea level, warmest at the equator, strictly colder with altitude |
| Documented.DefaultUnderwaterIsOcean | include/rworld/world.h:137-145 | under the defaults: terrain lies in [-4000, 8848], and a negative height coincides with an ocean biome at every altitude |
| Documented.PressureByAltitudeOnly | include/rworld/world.h:167-177 | equal altitudes give equal pressure anywhere; pressure falls strictly with altitude |
| RWorld.World.constructor | src/world.cpp:255 | a default-constructed world has the default configuration and matching generators |
| RWorld.World.WithConfig | src/world.cpp:257 | a world built from `c` holds `c` and matching generators |
| RWorld.World.InitializeNoiseGeneratorsInPlace | src/world.cpp:20-41 | rebuilds the three generators from the configuration without changing it |
| RWorld.World.GetTerrainHeight | src/world.cpp:56-82 | sampling the terrain generator field gives `Climate.TerrainHeight` of the world's configuration |
| RWorld.World.GetMoisture | src/world.cpp:84-97 | sampling the moisture generator field gives `Climate.Moisture` of the world's configuration |
| RWorld.World.GetTemperature | src/world.cpp:111-120 | sampling the temperature-variation generator field gives `Climate.Temperature` of the world's configuration |
| RWorld.World.GetPrecipitation | src/world.cpp:122-144 | the precipitation query from the generator fields equals `Climate.Precipitation` |
| RWorld.World.GetPrecipitationType | src/world.cpp:280-294 | the precipitation-type query from the generator fields equals `Biomes.PrecipitationTypeAt` |
| RWorld.World.GetHumidity | src/world.cpp:155-171 | the humidity query from the generator fields equals `Climate.Humidity` |
| RWorld.World.GetBiome | src/world.cpp:173-250 | the biome query from the generator fields equals `Biomes.ClassifyBiome` |
| RWorld.World.SetConfig | src/world.cpp:306-309 | afterwards the configuration is exactly `c` and the generators are the ones `c` determines |
| RWorld.World.GetConfig | src/world.cpp:311-313 | returns the current configuration |

## Left out

- The cos/sin projection onto a sphere (src/world.cpp:44-54) is not modelled. The noise sampler takes longitude and latitude directly; its only property is a result in [-1, 1].
- FastNoiseLite's internals are not modelled. Only the settings each generator receives are recorded; unset settings are library defaults.
- `std::pow(x, 0.7)` and `std::exp` are parameters with only the properties stated above.
- Float rounding, NaN and infinities are not modelled. Arithmetic is on exact reals.
- Climate.TerrainHeight: does not state directly that every negative sample gives a negative height. Climate.OceanFloor states the height is -4000 n^4 with n^4 > 0. Under 32-bit floats a tiny negative sample underflows to -0.0, which the terrain test then treats as land.
- Documented.DefaultUnderwaterIsOcean: states only that a negative height comes from a negative sample. The converse follows from Climate.OceanFloor.
- The `detail_level` parameter is not modelled. The header (include/rworld/world.h:145) declares it, but the definition (src/world.cpp:272) takes only longitude and latitude.
- Wind speed and direction, rivers, river width and flow accumulation are not modelled. The header declares them, but the source defines no body for them.
- The `"Unknown"` default case of `biome_to_string` is not modelled. Every `BiomeType` value has its own case.
- Move construction, move assignment, deleted copying and the pimpl ownership (src/world.cpp:255-262) are not modelled.
- The five public wrappers that only forward to the implementation (`get_biome`, `get_temperature`, `get_terrain_height`, `get_precipitation` and `get_humidity`, src/world.cpp:264-278 and 302-304) have no separate member. The `World` query methods model the implementation queries they forward to.
- The public `get_air_pressure` wrapper (src/world.cpp:296-300) is `Climate.AirPressureAt`, a function, not a `World` method. It reads no world state.
- RWorld.World.GetConfig: returns a copy of the configuration. The library returns a `const` reference, which later reflects `set_config`; that aliasing is not modelled.
