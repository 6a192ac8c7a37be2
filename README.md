# Galaxia-x simulation core in Dafny

Galaxia-x is a browser idle-galaxy game. Players own star systems in a shared 50000 × 50000 galaxy, and time advances their planets' civilizations. Beneath the Firestore, DOM and canvas glue is a rule-based simulation. This project models that simulation and proves properties of it:

- **Time-advance engine** (`GameEngine`). The galactic year counter and the per-system loop. For each planet, its civilization's Kardashev level, population and technologies grow. Resources deplete with a floor at zero. Surface temperature and habitability drift, with habitability clamped to [0, 1]. Resource and environmental crises apply penalties. Planets are objects updated in place, so `Planet` and `Engine` are classes.
- **Civilization rule set** (`CivilizationEvolution`). The resource, environment, stability and moon factors. The evolution rate clamped to [0.001, 0.1]. Crisis projections at the 100-, 1000- and 10000-year horizons.
- **System generator** (`SystemGenerator`, `RomanNumerals`). Titus–Bode orbital placement. Planet-type banding by position. Roman-numeral names. Moon and companion-star counts. The atmosphere table. The stability index floored at 0.1. The quadrant partition. The search filters.
- **Physics** (`StellarEvolution`, `OrbitalMechanics`, `ClimateModel`, `CelestialDynamics`, `Constants`). Lifetime, luminosity and radius ladders. Spectral class and evolutionary stage. Habitable zones. Hill-sphere stability and the resonance scan. Greenhouse forcing and surface pressure. Comet threat scoring and collision filtering. The unit conversions and the star and planet tables.
- **Exploration** (`Exploration`). Discovery ranks and time-ago buckets. The relevance ordering of search results. Popular and nearby systems. Area exploration. Active and expiring galactic events. Compass directions. The explored set and the event list are fields of the `ExplorationSystem` class.
- **Renderer camera** (`GalaxyRendering`). Zoom clamped to [0.05, 5] that keeps the point under the cursor fixed. Drag. Centring. The viewport. The click-selection rule. System colour, size and label visibility. The camera fields are fields of the `GalaxyRenderer` class.
- **Utilities** (`MathUtils`, `Vectors`, `Seqs`, `Text`, `Galaxy`, `Wrappers`, `Numeric`). Clamp, lerp and map. The normal-range rejection loop. Vector arithmetic. A stable insertion sort and filter facts. String helpers. Association lists standing in for JavaScript objects.

## How JavaScript values are represented

- **Numbers.** JavaScript numbers are `real`. Counts, populations and millisecond timestamps are `int` or `nat`. `Math.floor` is Dafny's `.Floor`.
- **Transcendentals.** `Math.pow` with a non-integer exponent, `sqrt`, `cbrt`, `log`, `exp` and `atan2` come in through a `Numeric.MathLib` parameter. That parameter is a record of functions. The predicate `Lawful()` constrains it, listing only the facts the proofs use: positivity, `pow(1, y) = 1`, `pow(x, 0) = 1`, monotonicity of `pow` in the base for a negative exponent, `sqrt(0) = 0`, positive `sqrt` of a positive number, non-negative `cbrt`, strictly increasing `log`, positive `exp` (above 1 exactly on the positive side), `cos(0) = 1`, `sin(0) = 0` and `atan2(0, x) = 0` for `x >= 0`.
- **Randomness and the clock.** Every `Math.random()` draw and every `Date.now()` or `new Date()` reading is an explicit parameter. A `requires` states a draw's range, such as [0, 1). Where the source reads the clock or draws more than once in one call, the parameter is a sequence (`draw: nat -> real`, `clock: nat -> int`) whose k-th value is the k-th reading, in call order.
- **Data supplied from outside.** The current user and the Firestore documents are parameters too.
- **`undefined` and errors.** A field that may be `undefined` is an `Option`. A thrown exception becomes `None` or `false`, and the caller's `catch` is modelled where the source has one.

## Quirks modelled as written

- **`centerGalaxy` uses the old scale** (core/galaxyRenderer.js:454-458). It sets the scale to 0.3 but computes the offsets with the previous scale. The viewport centre is therefore (25000, 25000) only when the scale was already 0.3. `GalaxyRendering.CenterGalaxyCentresOnlyAtDefaultScale` proves this.
- **Generated planets have no `environment`.** `calculateEvolutionRate` reads `planet.environment` (game/civilizationEvolution.js:8), but generated planets only carry `conditions` (services/firebase-service.js:218). `GameEngine.Planet.EvolvePlanet` therefore throws for a generated planet, and `simulateSystemEvolution` catches the error (core/gameEngine.js:388-399), so `advanceTime` moves on to the next system.
- **`isOrbitStable` is vacuous for generated planets.** It compares `.id` (physics/orbitalMechanics.js:67), but generated planets carry `planetId` (services/firebase-service.js:200). `OrbitalMechanics.UnidentifiedPlanetsNeverPerturb` and `SystemGenerator.GeneratedSystemFullyStable` prove the consequence.
- **`findOrbitalResonances` finds no periods.** It reads `orbitalPeriod` (physics/orbitalMechanics.js:84), but generated planets store `orbit.period` (services/firebase-service.js:211). `OrbitalMechanics.MissingPeriodNoResonance` proves the consequence.
- **Collision energy of a moving position is NaN.** `checkCollisions` reads `impactor.size` (game/celestialDynamics.js:87), but the positions `simulateOrbitalMotion` builds carry only `id`, `position` and `distance` (game/celestialDynamics.js:43-47). An impactor's size is therefore an `Option`, a missing size gives an undefined energy, and `CelestialDynamics.MotionCollisionsHaveNoEnergy` proves that every collision of such positions has one.
- **The environmental crisis has no floor.** `handleEnvironmentalCrisis` subtracts from happiness and stability without flooring them at 0 (core/gameEngine.js:521-522). The resource crisis does floor them.

## Model

| member | source | states |
|---|---|---|
| Seqs.FilterFacts | game/explorationSystem.js:23-35 | `Array.prototype.filter` keeps only elements passing the test, keeps every element that passes, and yields a sub-multiset no longer than the input |
| Seqs.FilterMembers | game/explorationSystem.js:23-35 | an element is in the filtered list exactly when it is in the input and passes the test |
| Seqs.FilterAll | game/explorationSystem.js:325-327 | filtering with a test every element passes returns the list unchanged |
| Seqs.FilterFilter | game/explorationSystem.js:23-35 | two filters in a row are one filter by the conjunction of the tests |
| Seqs.FilterAppend | game/explorationSystem.js:41-47 | filtering distributes over concatenation |
| Seqs.Insert | game/explorationSystem.js:68-87 | inserting into a sorted list keeps it sorted and adds exactly the one element |
| Seqs.SortBy | game/explorationSystem.js:68-87 | `Array.prototype.sort` with a key comparator returns a permutation of its input, sorted by the key |
| Seqs.InsertKeepsClasses | game/explorationSystem.js:68-87 | inserting an element adds it at the front of its own key class and leaves the order inside every class |
| Seqs.SortByStable | game/explorationSystem.js:68-87 | the sort is stable: elements with equal keys keep their input order |
| Seqs.SliceEnd | game/explorationSystem.js:106 | the end index of `slice(0, k)` never passes the length, and for k ≥ 0 it is min(k, length) |
| Seqs.SliceTo | game/explorationSystem.js:106 | `slice(0, k)` has `SliceEnd` elements, each equal to the input's element at the same index |
| Seqs.Count | game/civilizationEvolution.js:73-74 | `filter(...).length` never exceeds the length of the list |
| MathUtils.Map | utils/mathUtils.js:3-5 | `map` sends `fromMin` to `toMin` and `fromMax` to `toMax` whenever the source range is not empty |
| MathUtils.Clamp | utils/mathUtils.js:8-10 | for `min <= max` the result lies in [min, max]; a value already in range is returned unchanged; a value below `min` gives `min` and one above `max` gives `max` |
| MathUtils.ClampIdempotent | utils/mathUtils.js:8-10 | clamping a clamped value changes nothing |
| MathUtils.Lerp | utils/mathUtils.js:13-15 | factor 0 gives `start` and factor 1 gives `end` |
| MathUtils.NormalRange | utils/mathUtils.js:32-42 | the rejection loop returns only values in [min, max]; the value returned is the sample of the first accepted variate; no value is returned exactly when no variate is accepted |
| MathUtils.DefaultAcceptsWithinThreeSigma | utils/mathUtils.js:33-39 | with the default mean (min+max)/2 and deviation (max-min)/6 a variate is accepted exactly when it lies within three deviations |
| MathUtils.YearsToSeconds | utils/mathUtils.js:45-47 | a non-negative number of years gives at least as many seconds |
| MathUtils.SecondsToYears | utils/mathUtils.js:49-51 | a non-negative number of seconds gives a year count between 0 and that number |
| MathUtils.YearsSecondsRoundTrip | utils/mathUtils.js:45-51 | the two conversions are inverse to each other in both orders |
| MathUtils.Distance2D | utils/mathUtils.js:54-56 | the distance is never negative and is 0 for identical points |
| MathUtils.Distance2DSymmetric | utils/mathUtils.js:54-56 | the distance does not depend on the order of the points |
| Vectors.Add | utils/vector3.js:9-15 | subtracting `b` from `a + b` gives back `a` |
| Vectors.AddCommutes | utils/vector3.js:9-11 | addition is commutative |
| Vectors.Subtract | utils/vector3.js:13-15 | the difference is the zero vector exactly when the two vectors are equal |
| Vectors.Multiply | utils/vector3.js:17-19 | scaling by 1 keeps the vector and scaling by 0 gives the zero vector |
| Vectors.Divide | utils/vector3.js:17-23 | for a non-zero scalar, multiplying the quotient by the scalar gives back the vector |
| Vectors.Dot | utils/vector3.js:26-28 | the dot product with the zero vector is 0 |
| Vectors.DotSymmetric | utils/vector3.js:26-28 | the dot product is symmetric |
| Vectors.DotSelfNonNegative | utils/vector3.js:26-28 | `v·v` is never negative |
| Vectors.Cross | utils/vector3.js:31-37 | the cross product is orthogonal to both operands |
| Vectors.CrossAntiCommutes | utils/vector3.js:31-37 | `a×b` is `-(b×a)` |
| Vectors.CrossSelfIsZero | utils/vector3.js:31-37 | `a×a` is the zero vector |
| Vectors.Magnitude | utils/vector3.js:40-42 | the magnitude is never negative and is 0 for the zero vector |
| Vectors.Normalize | utils/vector3.js:45-49 | a zero-length vector normalizes to the zero vector; otherwise the result scaled by the magnitude gives back the vector |
| Vectors.NormalizeZero | utils/vector3.js:45-49 | normalizing the zero vector gives the zero vector |
| Vectors.DistanceTo | utils/vector3.js:52-54 | the distance is never negative and is 0 from a vector to itself |
| Vectors.Rotate | utils/vector3.js:57-81 | Rodrigues' rotation matrix applied row by row; the zero vector stays the zero vector |
| Vectors.RotateByZero | utils/vector3.js:57-81 | a rotation by angle 0 leaves every vector unchanged |
| Vectors.RotateFixesAxis | utils/vector3.js:57-81 | a unit axis is fixed by every rotation about itself |
| Vectors.Clone | utils/vector3.js:84-86 | the clone has the same three coordinates |
| Constants.ToEarthMasses | physics/constants.js:29 | the result times `EARTH_MASS` is the input in kilograms |
| Constants.ToSolarMasses | physics/constants.js:30 | the result times `SOLAR_MASS` is the input in kilograms |
| Constants.ToAU | physics/constants.js:31 | the result times `AU` is the input in metres |
| Constants.ToMeters | physics/constants.js:32 | the result divided by `AU` is the input in astronomical units |
| Constants.LengthRoundTrips | physics/constants.js:31-32 | `toMeters(toAU(m)) = m` and `toAU(toMeters(au)) = au` |
| Constants.MassConversionsLinear | physics/constants.js:29-30 | both mass conversions map 0 to 0 and preserve sums and scaling |
| Constants.StarTypesOrdered | physics/constants.js:36-72 | every star type lists its mass, temperature and luminosity ranges lower bound first, with a positive lifespan |
| Constants.PlanetTypesOrdered | physics/constants.js:75-96 | every planet type lists ordered density, size and habitability ranges, and its habitability range lies inside [0, 1] |
| Constants.PlanetTypeKeys | physics/constants.js:75-96 | the planet table has exactly the four keys rocoso, gaseoso, helado and oceánico |
| Text.LowerChar | services/firebase-service.js:349-350 | an ASCII or Latin-1 capital (`A`-`Z`, `À`-`Þ` except `×`) becomes its small letter, every other character is unchanged, and no result is a capital |
| Text.Lower | services/firebase-service.js:349-350 | the string is lower-cased character by character with `LowerChar`, one character for one |
| Text.LowerIdempotent | services/firebase-service.js:349-350 | lower-casing twice is lower-casing once |
| ClimateModel.HabitableZone | physics/climateModel.js:48-57 | width is outer minus inner; inner and outer stand in the ratio 0.95 : 1.37; for L >= 0 the edges are ordered and non-negative, and strictly so for L > 0 |
| ClimateModel.EffectiveAlbedo | physics/climateModel.js:7 | an absent or zero albedo becomes 0.3; any other albedo is kept |
| ClimateModel.Concentration | physics/climateModel.js:29-34 | a missing composition, missing gas or zero concentration gives the gas's default; any other given value is used as is |
| ClimateModel.GreenhouseEffect | physics/climateModel.js:26-45 | the loop's accumulated forcing times 0.8 equals `Greenhouse`: the sum, gas by gas, of forcing·ln(c/0.00028) over positive concentrations |
| ClimateModel.GasForcingMonotone | physics/climateModel.js:36-41 | for a non-negative coefficient, a larger positive concentration never gives less forcing |
| ClimateModel.TotalForcingMonotone | physics/climateModel.js:36-41 | raising every gas's positive concentration never lowers the summed forcing |
| ClimateModel.GreenhouseMonotone | physics/climateModel.js:26-45 | more of every greenhouse gas never makes the warming smaller |
| ClimateModel.NegativeConcentrationIgnored | physics/climateModel.js:37 | a negative concentration is passed through by `||` and then contributes no forcing |
| ClimateModel.EquilibriumTemperature | physics/climateModel.js:3-23 | surface minus effective temperature is the greenhouse warming; the greenhouse and albedo fields are the ones the helpers compute |
| ClimateModel.AtmosphericMass | physics/climateModel.js:65 | an absent or zero atmospheric mass becomes 1.0; any other value is kept |
| ClimateModel.SurfaceGravitySign | physics/climateModel.js:61-62 | the gravity is positive for a positive mass and zero for a zero mass |
| ClimateModel.SurfacePressure | physics/climateModel.js:60-67 | for a positive planet mass the pressure is positive exactly when the effective atmospheric mass is |
| ClimateModel.SurfacePressureProportional | physics/climateModel.js:60-67 | a zero mass and an absent mass give the same pressure, and the pressure is proportional to the atmospheric mass |
| StellarEvolution.MainSequenceLifetime | physics/stellarEvolution.js:5-17 | the lifetime is positive for a positive mass, and one solar mass lives exactly 1e10 years |
| StellarEvolution.LifetimeDecreasingWithinRegime | physics/stellarEvolution.js:10-16 | within one exponent regime (up to 0.43, up to 1, above 1) a heavier star has a shorter lifetime |
| StellarEvolution.Luminosity | physics/stellarEvolution.js:20-30 | for a positive mass the luminosity is at least the main-sequence value M^3.5, and equals it while the age is within the lifetime |
| StellarEvolution.SunLuminosity | physics/stellarEvolution.js:20-30 | one solar mass gives luminosity 1 at age 4500 and at 4.5e9 years |
| StellarEvolution.LuminosityNonDecreasing | physics/stellarEvolution.js:23-29 | for a positive mass the luminosity never decreases with age |
| StellarEvolution.StableIffMainSequenceLuminosity | physics/stellarEvolution.js:105-108 | `isStarStable` holds exactly when the luminosity is the main-sequence value |
| StellarEvolution.Temperature | physics/stellarEvolution.js:33-44 | the effective temperature is positive for a positive luminosity |
| StellarEvolution.FourthPower | physics/stellarEvolution.js:36-40 | T⁴ = L·L☉ / (4π(R·R☉)²σ) is positive for a positive luminosity |
| StellarEvolution.RadiatingArea | physics/stellarEvolution.js:38-39 | 4π(R·R☉)²σ is positive for a positive radius |
| StellarEvolution.Radius | physics/stellarEvolution.js:47-54 | the radius is positive for a positive mass and 1 for one solar mass |
| StellarEvolution.RadiusIgnoresLuminosity | physics/stellarEvolution.js:47-54 | the radius does not depend on the luminosity argument |
| StellarEvolution.SpectralClass | physics/stellarEvolution.js:75-83 | the class is always one of O, B, A, F, G, K, M |
| StellarEvolution.SpectralClassMatchesTable | physics/stellarEvolution.js:75-83 | the ladder agrees with a scan of the threshold table 30000/10000/7500/6000/5200/3700 falling back to M |
| StellarEvolution.SpectralClassMonotone | physics/stellarEvolution.js:75-83 | a hotter star never gets a cooler class |
| StellarEvolution.SpectralClassBoundaries | physics/stellarEvolution.js:76-82 | every lower bound is inclusive |
| StellarEvolution.StarColor | physics/stellarEvolution.js:86-97 | a known class gets its table colour and anything else gets '#FFFFFF' |
| StellarEvolution.EveryClassHasColor | physics/stellarEvolution.js:75-97 | every class `getSpectralClass` returns has its own non-white colour |
| StellarEvolution.EvolutionaryStage | physics/stellarEvolution.js:111-119 | each stage holds exactly on its band of the main-sequence lifetime, cut at 0.1/0.9/1.1/1.5 lifetimes (the last band for a non-negative lifetime); a star of positive mass with a negative age is 'joven' |
| StellarEvolution.StageMonotone | physics/stellarEvolution.js:114-118 | with a non-negative lifetime an older star is never at an earlier stage |
| StellarEvolution.EvolutionaryStageMonotone | physics/stellarEvolution.js:111-119 | a star of positive mass passes through joven, secuencia_principal, gigante, supergigante and remanente in order |
| StellarEvolution.EvolvingHabitableZone | physics/stellarEvolution.js:57-72 | the current and future zones are the habitable zones of the luminosity now and 1e9 years later; `hasMoved` holds exactly when the luminosities differ by more than 0.1; for a positive mass both zones have inner < outer |
| OrbitalMechanics.OrbitalPeriod | physics/orbitalMechanics.js:3-8 | Kepler's period is positive for a positive central mass and a positive semi-major axis |
| OrbitalMechanics.HillSphere | physics/orbitalMechanics.js:58-61 | the Hill radius is non-negative for non-negative masses and distance |
| OrbitalMechanics.IsOrbitStable | physics/orbitalMechanics.js:63-76 | the loop answers unstable exactly when some listed planet with a different id lies within 3.5 Hill radii; entries with the planet's own id are skipped |
| OrbitalMechanics.UnidentifiedPlanetsNeverPerturb | physics/orbitalMechanics.js:63-76 | when neither the planet nor the others carry an `id` (as generated planets do not), no other planet counts as a perturber, so the orbit is always reported stable |
| OrbitalMechanics.ScanPair | physics/orbitalMechanics.js:84-101 | the table loop for one pair pushes exactly that pair's resonances, in table order |
| OrbitalMechanics.ScanRow | physics/orbitalMechanics.js:83-102 | the loop over j > i pushes exactly planet i's resonances with each later planet, in order of j |
| OrbitalMechanics.FindOrbitalResonances | physics/orbitalMechanics.js:79-106 | the nested loops build exactly `Resonances`: each pair i < j examined once, ordered by i, then j, then table order |
| OrbitalMechanics.TableRatiosSeparated | physics/orbitalMechanics.js:85-90 | any two table ratios are more than twice the 0.02 tolerance apart |
| OrbitalMechanics.AtMostOneResonancePerPair | physics/orbitalMechanics.js:88-101 | a pair of planets yields at most one resonance |
| OrbitalMechanics.PairUpToCharacterized | physics/orbitalMechanics.js:84-99 | a record is emitted for p:q exactly when the period ratio is within 0.02 of p/q; it carries the two ids, the exact ratio and strength 1 - |ratio - p/q|/0.02, which lies in (0, 1] |
| OrbitalMechanics.MissingPeriodNoResonance | physics/orbitalMechanics.js:82-101 | a planet without an `orbitalPeriod` is in no resonance |
| OrbitalMechanics.ShorterPeriodNoResonance | physics/orbitalMechanics.js:84-93 | when the first planet has the shorter positive period the ratio is below 1 and nothing is reported |
| OrbitalMechanics.ResonancesBounded | physics/orbitalMechanics.js:79-106 | every record is within tolerance with strength in (0, 1], and there are at most n(n-1)/2 records |
| OrbitalMechanics.IncreasingPeriodsNoResonances | physics/orbitalMechanics.js:82-93 | planets listed by strictly increasing positive period produce no resonances |
| OrbitalMechanics.NoPeriodsNoResonances | physics/orbitalMechanics.js:82-101 | a list of planets none of which has `orbitalPeriod` (every generated one) produces no resonances |
| CelestialDynamics.ThreatFromPerihelion | game/celestialDynamics.js:98-104 | the score lies in [0, 1] and is 0 exactly when the perihelion is at least 1 AU and the eccentricity at most 0.9 |
| CelestialDynamics.ThreatLevel | game/celestialDynamics.js:95-105 | the threat lies in [0, 1] and depends only on the perihelion a(1-e) and the eccentricity |
| CelestialDynamics.ThreatNonIncreasingInPerihelion | game/celestialDynamics.js:100-102 | for a fixed eccentricity, moving the perihelion outwards never raises the threat |
| CelestialDynamics.GenerateComet | game/celestialDynamics.js:3-26 | the drawn elements lie in a ∈ [30, 1000), e ∈ [0.7, 0.99), inclination ∈ [0, 180), size ∈ [100, 5000) and the composition ranges; the comet starts undiscovered, its threat is `calculateThreatLevel(a, e)`, and its period is positive around a star of positive mass |
| CelestialDynamics.SimulateOrbitalMotion | game/celestialDynamics.js:29-51 | the loop returns exactly `Motions`: the motion of each object that has an orbit, in input order, the k-th one computed at the k-th clock reading |
| CelestialDynamics.MotionsCharacterized | game/celestialDynamics.js:32-48 | every entry is the motion of an object with an orbit at the clock reading of its position, every such object has its entry, and objects without an orbit are skipped |
| CelestialDynamics.MotionsSnoc | game/celestialDynamics.js:33-47 | one more object appends its motion, at the next clock reading, exactly when it has an orbit |
| CelestialDynamics.MotionsFromOrbiting | game/celestialDynamics.js:32-48 | there are no more entries than objects, and each entry is the motion of an orbiting object at the clock reading of its position |
| CelestialDynamics.MotionsCoverOrbiting | game/celestialDynamics.js:32-48 | every object with an orbit has an entry |
| CelestialDynamics.ImpactEnergy | game/celestialDynamics.js:83-92 | the energy is positive for a positive size and a velocity drawn in [20, 70) km/s |
| CelestialDynamics.PlanarDistance | game/celestialDynamics.js:59-62 | the distance `checkCollisions` measures is never negative |
| CelestialDynamics.EnergyOf | game/celestialDynamics.js:84-91 | the energy is defined exactly when the impactor has a size, and positive for a positive size |
| CelestialDynamics.CheckCollisions | game/celestialDynamics.js:54-80 | the nested loops emit one record per colliding (object, planet) pair, in object-then-planet order, the k-th record with the ids, the distance, the energy of the k-th velocity draw and the k-th clock reading |
| CelestialDynamics.ImpactorsOf | game/celestialDynamics.js:43-47 | the positions `simulateOrbitalMotion` returns keep their ids and points, and carry no size |
| CelestialDynamics.MotionCollisionsHaveNoEnergy | game/celestialDynamics.js:43-91 | fed the positions `simulateOrbitalMotion` returns, every collision record has an undefined (NaN) energy |
| CelestialDynamics.AllHitsCharacterized | game/celestialDynamics.js:57-75 | every reported pair is closer than a tenth of the planet's radius, and every such pair is reported |
| CelestialDynamics.HitsIgnoresZ | game/celestialDynamics.js:59-62 | whether an object hits a planet does not depend on either z coordinate |
| CivilizationEvolution.CappedRatio | game/civilizationEvolution.js:24-35 | `Math.min(1, current / d)` never exceeds 1, is non-negative for non-negative stock over a positive reference, and is exactly 1 once the stock reaches the reference |
| CivilizationEvolution.ResourceFactor | game/civilizationEvolution.js:21-40 | the weighted sum of the capped metal, energy and rare-element ratios never exceeds 1, and is non-negative for non-negative stocks over positive references |
| CivilizationEvolution.FullStocksGiveFullFactor | game/civilizationEvolution.js:21-40 | with all three resources present at or above their references the factor is exactly 0.4 + 0.3 + 0.3 = 1 |
| CivilizationEvolution.HabitabilityFactor | game/civilizationEvolution.js:46-48 | the ladder yields one of 0.3, 0.7, 1.0, 1.2, and an undefined habitability (every comparison false) yields 1.0 |
| CivilizationEvolution.EnvironmentFactor | game/civilizationEvolution.js:43-55 | the factor is the habitability ladder, times 0.8 exactly when a temperature stability below 0.5 is present; it lies in [0.24, 1.2] |
| CivilizationEvolution.EnvironmentFactorMonotone | game/civilizationEvolution.js:46-48 | a more habitable planet never gets a smaller environment factor |
| CivilizationEvolution.LargeMoonCount | game/civilizationEvolution.js:72-73 | without a moon list the count is 0; otherwise it is at most the number of moons |
| CivilizationEvolution.StabilityFromCount | game/civilizationEvolution.js:58-78 | the stability product lies in [0.72, 1.5] |
| CivilizationEvolution.StabilityFactor | game/civilizationEvolution.js:58-78 | the factor lies in [0.72, 1.5], and without large moons it never exceeds 1 |
| CivilizationEvolution.StabilityGrowsWithMoons | game/civilizationEvolution.js:72-77 | more large moons never lower the stability factor |
| CivilizationEvolution.MoonFactor | game/civilizationEvolution.js:12-13 | the moon factor is at least 1, and exactly 1 without moons |
| CivilizationEvolution.EvolutionRate | game/civilizationEvolution.js:3-18 | the rate always lies in [0.001, 0.1] and is the clamp of 0.01 times the four factors |
| CivilizationEvolution.NoResourcesMinimumRate | game/civilizationEvolution.js:12-40 | a planet with no resource entries evolves at the minimum rate 0.001 |
| CivilizationEvolution.RateUnclampedInRange | game/civilizationEvolution.js:15-17 | when the raw product already lies in [0.001, 0.1] the rate is that product |
| CivilizationEvolution.Severity | game/civilizationEvolution.js:127-128 | the severity is critical, high or medium, and critical exactly when at most 100 years remain |
| CivilizationEvolution.ProjectFutureState | game/civilizationEvolution.js:112-145 | the loop's crisis is `LastCrisis`, the last-resource-wins crisis (none without resources), and collapse is flagged exactly when a truthy habitability minus 0.0001 per year falls below 0.3 |
| CivilizationEvolution.LastCrisisCharacterized | game/civilizationEvolution.js:120-133 | a crisis is reported exactly when some tracked resource runs out within the horizon; it is the crisis of the last such resource in key order, and its floored remaining years do not exceed the horizon |
| CivilizationEvolution.CrisisPersists | game/civilizationEvolution.js:122-124 | a resource crisis projected for a horizon is projected for every longer horizon |
| CivilizationEvolution.CollapsePersists | game/civilizationEvolution.js:137-141 | an environmental collapse projected for a horizon is projected for every longer horizon |
| CivilizationEvolution.CheckMigrationNeeded | game/civilizationEvolution.js:81-109 | the loop returns the issues of the horizons 100, 1000, 10000 in order: for each, the resource issue and then the collapse issue |
| CivilizationEvolution.IssuesBounded | game/civilizationEvolution.js:83-106 | at most two issues per horizon, and each issue reports its horizon as `yearsRemaining` |
| CivilizationEvolution.IssueKindsPersist | game/civilizationEvolution.js:83-141 | an issue kind raised at one horizon is raised again at every later horizon |
| SystemGenerator.OrbitalDistance | services/firebase-service.js:563-570 | the distance is at least 0.4 AU, and exactly 0.4 only for the first planet |
| SystemGenerator.OrbitalDistanceStep | services/firebase-service.js:568-569 | each planet lies strictly farther out than the one before |
| SystemGenerator.OrbitalDistanceIncreasing | services/firebase-service.js:563-570 | the distances strictly increase with the index |
| SystemGenerator.OrbitalDistanceExamples | services/firebase-service.js:563-570 | the second and third planets sit at 2.1 and 3.8 AU |
| SystemGenerator.DeterminePlanetType | services/firebase-service.js:549-560 | the type is a key of the planet table; the first planet is rocky; gaseous exactly for position in [0.6, 0.8), icy exactly from 0.8, oceanic exactly in [0.3, 0.6) with a roll above 0.3 |
| SystemGenerator.PlanetTypeBandsMonotone | services/firebase-service.js:549-560 | a farther planet never falls in an inner band (rocky/oceanic, then gaseous, then icy), whatever the rolls |
| SystemGenerator.GenerateAtmosphere | services/firebase-service.js:573-604 | quality is 0.8; albedo is 0.25 only for oceanic planets; pressure is 100 for gaseous, 0.1 for icy and 1 otherwise; the mix contains O2 exactly for oceanic planets and rocky ones inside the habitable zone; an unknown type keeps the empty composition |
| SystemGenerator.MoonCount | services/firebase-service.js:608-610 | a gas giant gets 5 to 14 moons, any other planet at most 2 |
| SystemGenerator.GenerateMoons | services/firebase-service.js:607-625 | the loop returns `MoonCount` moons, moon k built from its own draws, with its planet index, its index and every field inside its drawn range |
| SystemGenerator.CompanionCount | services/firebase-service.js:476-479 | at most two companions, and none exactly for a 'single' system |
| SystemGenerator.CompanionFromInRange | services/firebase-service.js:482-486 | a companion is a red or yellow dwarf at 10 to 110 AU with 0.2 to 0.7 times the primary's mass |
| SystemGenerator.GenerateMultipleStars | services/firebase-service.js:475-490 | the loop returns `CompanionCount` companions, companion i built from its own three draws and within the ranges |
| SystemGenerator.GetQuadrant | services/firebase-service.js:452-460 | the quadrant is one of alpha, beta, gamma, delta; alpha, beta and gamma exactly for the three lower/left quarters around (25000, 25000) |
| SystemGenerator.QuadrantDelta | services/firebase-service.js:456-459 | a missing coordinate (every comparison false) gives delta; otherwise delta exactly in the upper-right quarter |
| SystemGenerator.GetSpectralClass | services/firebase-service.js:463-472 | a listed star type gets its table class and anything else gets 'G' |
| SystemGenerator.SpectralClassCoversStarTypes | services/firebase-service.js:464-470 | the class table covers exactly the star types of the constants table, and every class is one letter |
| SystemGenerator.StabilityIndex | services/firebase-service.js:511-531 | the index always lies in [0.1, 1] |
| SystemGenerator.FullStabilityIff | services/firebase-service.js:511-531 | the index is 1 exactly when there is no 2:1 or 3:1 resonance and no planet fails `isOrbitStable` |
| SystemGenerator.GeneratedSystemFullyStable | services/firebase-service.js:511-531 | planets with neither `id` nor `orbitalPeriod`, as the generator builds them, always get index 1 |
| SystemGenerator.CalculateSystemStability | services/firebase-service.js:511-531 | the two accumulating loops and the floor compute exactly `StabilityIndex` |
| SystemGenerator.FilterIf | services/firebase-service.js:347-364 | each filter returns a sub-multiset of its input |
| SystemGenerator.MatchesQuery | services/firebase-service.js:347-351 | the empty query matches every system, and a query longer than both the name and the star type matches none |
| SystemGenerator.QueryCaseInsensitive | services/firebase-service.js:347-351 | lower-casing the query first does not change which systems match |
| SystemGenerator.FoundByOwnName | services/firebase-service.js:347-351 | a system matches its own name written in any case |
| SystemGenerator.FilterIfMembers | services/firebase-service.js:347-364 | an applied filter keeps exactly the systems that pass its test; a filter whose argument is falsy keeps every system |
| SystemGenerator.SearchFilter | services/firebase-service.js:346-366 | the result is a sub-multiset of the fetched systems holding exactly those that match the lower-cased query in name or star type, the star type and the minimum planet count, each only when given |
| SystemGenerator.SearchFilterMembers | services/firebase-service.js:346-366 | a fetched system appears in the search result exactly when it passes every filter that is given |
| SystemGenerator.SeedResourceFactor | services/firebase-service.js:234-257 | a fresh planet's seeded resources are readable and stocked and give a resource factor of 0.85 |
| SystemGenerator.GeneratePlanet | services/firebase-service.js:196-290 | one planet: its index, the name followed by the roman numeral of index+1, the banded type, size and habitability inside the type's ranges, mass in [0.1, 10], the Titius–Bode orbit with Kepler's period, the equilibrium temperature and atmosphere of that distance, the seeded resources and civilization and the generated moons |
| SystemGenerator.GeneratePlanets | services/firebase-service.js:189-296 | exactly `planetsCount` planets, planet i being the one `GeneratePlanet` describes for index i |
| SystemGenerator.AsOrbitalBody | services/firebase-service.js:199-213 | a generated planet seen by the orbit checks has no `id` and no `orbitalPeriod`, and keeps its mass and semi-major axis |
| SystemGenerator.GeneratedPlanetsProperties | services/firebase-service.js:189-296 | the generated planets lie at strictly increasing distances, each name's numeral reads back as its position, and the system's stability index is 1 |
| RomanNumerals.Romanize | services/firebase-service.js:534-546 | the loop builds the greedy numeral of `num`, and that numeral's value is `num` |
| RomanNumerals.GreedyRow | services/firebase-service.js:541-543 | one pass appends the row's symbol as many times as its value can be taken from the remainder, then continues greedily from the next row with what is left |
| RomanNumerals.DivCount | services/firebase-service.js:541-543 | the loop's `floor(num / value)` and `num - floor(num / value)·value` are the count and remainder of taking the value away repeatedly |
| RomanNumerals.ValueConcat | services/firebase-service.js:543 | appending a numeral whose first digit is not larger than the last digit so far adds the two values |
| RomanNumerals.RowFacts | services/firebase-service.js:535-538 | every table symbol reads back as its own value, with the ordering facts the greedy proof needs |
| RomanNumerals.GreedyExact | services/firebase-service.js:540-544 | from any row, for a remainder below that row's bound, the greedy numeral reads back as the remainder |
| RomanNumerals.RoundTrip | services/firebase-service.js:534-546 | reading back `romanize(n)` gives n for every n ≥ 0 |
| RomanNumerals.ZeroIsEmpty | services/firebase-service.js:534-546 | `romanize(0)` is the empty string |
| Galaxy.Lookup | game/civilizationEvolution.js:24-35 | a resource is found exactly when some entry has that key, and what is found is stored under that key |
| GameEngine.ValidateSystemData | core/gameEngine.js:177-195 | the required-field loop and the two range checks return exactly `Validation`: the first missing field, else the planet-count error, else the star-mass error, else true |
| GameEngine.ValidationIff | core/gameEngine.js:177-195 | a form passes exactly when name and star type are non-empty, 1 ≤ planetsCount ≤ 15 and 0.1 ≤ starMass ≤ 100, and then the result is true |
| GameEngine.ZeroCountsAsMissing | core/gameEngine.js:180-184 | a zero star mass or planet count is reported as a missing field rather than as out of range |
| GameEngine.Consume | core/gameEngine.js:440-449 | an untracked resource (falsy `current` or `depletionRate`) is unchanged; a tracked one ends with `current` ≥ 0 and, for a positive rate, `yearsRemaining = floor(current / rate)`; rate, `initial` and `capacity` are kept; a positive rate never raises a non-negative stock |
| GameEngine.ConsumeSplit | core/gameEngine.js:440-449 | for a positive rate and a non-negative stock, consuming y1 years and then y2 years is consuming y1 + y2 years at once |
| GameEngine.ConsumeExhausted | core/gameEngine.js:442-447 | a stock the consumption would drive below zero ends at 0 with 0 years remaining, and is no longer tracked |
| GameEngine.ConsumeZeroYears | core/gameEngine.js:440-449 | consuming zero years leaves a consistent resource unchanged |
| GameEngine.ConsumeAll | core/gameEngine.js:439-450 | every entry is consumed, with keys and key order kept |
| GameEngine.ConsumeAllLookup | core/gameEngine.js:439-441 | looking up a key after consumption finds the consumed entry stored under it |
| GameEngine.ConsumeAllReadable | core/gameEngine.js:439-450 | consumption keeps `initial` and `capacity`, so the resource factor stays defined |
| GameEngine.ConsumeAllSplit | core/gameEngine.js:436-451 | for positive rates and non-negative stocks, two consumption steps equal one step over the summed time |
| GameEngine.HabitabilityChange | core/gameEngine.js:470-489 | for years ≥ 0 the change lies in [-0.00015·years, 0], and it is 0 for zero years |
| GameEngine.HabitabilityChangeZeroIff | core/gameEngine.js:478-486 | over a positive time the change is zero exactly when the star does not brighten by more than 10 % and the Kardashev level is not above 0.5 |
| GameEngine.ClimateStep | core/gameEngine.js:454-467 | habitability ends in [0, 1]; a zero habitability stays 0; the surface temperature rises by years·0.001; every other field is kept |
| GameEngine.HabitabilityNeverRises | core/gameEngine.js:462-489 | over a non-negative time an in-range habitability never rises |
| GameEngine.ResourceCrisisStep | core/gameEngine.js:506-516 | happiness and stability end non-negative, drop by exactly 20 and 15 when that keeps them non-negative, never exceed their old value (or 0), and nothing else changes |
| GameEngine.EnvironmentalCrisisStep | core/gameEngine.js:519-526 | happiness and stability strictly drop, a non-negative population shrinks but stays non-negative, and the other fields are kept |
| GameEngine.EnvironmentalCrisisHasNoFloor | core/gameEngine.js:521-522 | a happiness of 10 becomes -20: the environmental crisis has no floor |
| GameEngine.CrisesNeverHelp | core/gameEngine.js:492-526 | after any list of crises happiness and stability never exceed their start (or 0), a non-negative population never grows and stays non-negative, and Kardashev level, technology and growth rate are kept |
| GameEngine.UnknownCrisesIgnored | core/gameEngine.js:493-501 | issues of any other kind change nothing |
| GameEngine.ResourceCrisisLiftsNegativeHappiness | core/gameEngine.js:508-522 | an environmental crisis followed by a resource crisis takes happiness 10 to -20 and then back up to 0 |
| GameEngine.GrowTechnology | core/gameEngine.js:417-419 | every technology level is raised by the same amount, with keys and key order kept |
| GameEngine.GrowCivilization | core/gameEngine.js:408-419 | for non-negative rate and years the Kardashev level and every technology never drop; zero years changes nothing; happiness, stability and growth rate are kept |
| GameEngine.Evolve | core/gameEngine.js:403-433 | the step fails (the TypeError) exactly when the planet has no environment or no resources; otherwise the resource factor stays defined, civilization and conditions are present exactly when they were, and habitability ends in [0, 1] |
| GameEngine.EvolveZeroYears | core/gameEngine.js:403-433 | with zero years the step succeeds, Kardashev level and technology are unchanged and in-range conditions are unchanged |
| GameEngine.Planet.constructor | core/gameEngine.js:403-433 | the planet's rewritten state and its read-only fields are the given ones |
| GameEngine.Planet.FromRecord | services/firebase-service.js:199-290 | a generated planet has civilization, resources and conditions but no `environment`, so `evolvePlanet` throws on it |
| GameEngine.Planet.SimulateResourceConsumption | core/gameEngine.js:436-451 | the loop rewrites `resources` to the consumed entries (nothing without resources) and leaves civilization and conditions alone |
| GameEngine.Planet.SimulateEnvironmentalChanges | core/gameEngine.js:454-467 | present conditions take the climate step with the habitability change of this star and civilization; absent ones stay absent; nothing else changes |
| GameEngine.Planet.HandleResourceCrisis | core/gameEngine.js:506-516 | the civilization takes the resource-crisis step and nothing else changes |
| GameEngine.Planet.HandleEnvironmentalCrisis | core/gameEngine.js:519-526 | the civilization takes the environmental-crisis step and nothing else changes |
| GameEngine.Planet.HandlePlanetaryCrises | core/gameEngine.js:492-503 | the loop applies the issues in list order, and nothing but the civilization changes |
| GameEngine.Planet.GrowCivilizationInPlace | core/gameEngine.js:408-419 | the in-place updates of Kardashev level, population and each technology give the growth step, and nothing else changes |
| GameEngine.Planet.EvolvePlanet | core/gameEngine.js:403-433 | the call succeeds exactly when environment and resources exist; then the new state is `Evolve`'s; otherwise nothing changes |
| GameEngine.States | core/gameEngine.js:390 | the snapshot lists each planet's state in order |
| GameEngine.FirstFailure | core/gameEngine.js:388-399 | every planet before the index can evolve and the planet at the index, if any, cannot |
| GameEngine.StarSystem.constructor | core/gameEngine.js:390-474 | the system holds the given star and planets |
| GameEngine.Planets | core/gameEngine.js:558-559 | every planet of every system is in the flattened list |
| GameEngine.SimulateSystemEvolution | core/gameEngine.js:387-400 | the planets before the first failing one are evolved, that one and all later ones are untouched (the exception ends the loop and is caught) |
| GameEngine.PlanetCountIsPlanets | core/gameEngine.js:548-549 | the reduced planet count is the number of planets across all systems |
| GameEngine.TallyCounts | core/gameEngine.js:558-566 | the count of civilized planets is at most the number of planets and is 0 exactly when none has a civilization |
| GameEngine.TallyBounds | core/gameEngine.js:558-566 | bounds on every civilization's Kardashev level carry over to the sum, and the total population of non-negative populations is non-negative |
| GameEngine.AverageWithinBounds | core/gameEngine.js:568 | the average Kardashev level lies within the levels' bounds, and is 0 when no planet has a civilization |
| GameEngine.Engine.constructor | core/gameEngine.js:9-16 | a new engine is signed out, in galactic year 2024, with no systems |
| GameEngine.Engine.AdvanceTime | core/gameEngine.js:345-384 | signed out, nothing changes; signed in, the galactic year rises by exactly `years` and every system evolves once, in order, each up to its first failing planet |
| GameEngine.Engine.GetPlayerStats | core/gameEngine.js:543-571 | null when signed out; otherwise the system count, planet count, population total and Kardashev average of `PlayerStats` |
| Exploration.IdsSnoc | game/explorationSystem.js:41-47 | adding one system adds exactly its id to the id set |
| Exploration.DiscoveryRank | game/explorationSystem.js:246-253 | the rank is one of the six ranks; 'Novato' exactly below 5 discoveries and 'Pionero Galáctico' exactly from 100 |
| Exploration.ThresholdsMet | game/explorationSystem.js:247-251 | the number of thresholds reached never exceeds the number of thresholds |
| Exploration.DiscoveryRankLadder | game/explorationSystem.js:246-253 | the top-down ladder equals the rank indexed by how many of 5, 10, 25, 50, 100 the count reaches |
| Exploration.ThresholdsMetMonotone | game/explorationSystem.js:247-251 | a larger count reaches at least as many thresholds |
| Exploration.DiscoveryRankMonotone | game/explorationSystem.js:246-253 | a larger discovery count never gives a lower rank |
| Exploration.TimeAgo | game/explorationSystem.js:271-284 | 'ahora mismo' exactly under one minute (future times included), minutes exactly under an hour, hours exactly under a day, 'hace 1 día' exactly from one to two days, days from two; each count is the elapsed time rounded down in its unit |
| Exploration.CompareIsRelevanceOrder | game/explorationSystem.js:68-87 | the comparator's sign is exactly the order of an independent key (owned, then discovered, then the rest), so it is a consistent total preorder |
| Exploration.SearchSystems | game/explorationSystem.js:63-92 | signed in, the result is a permutation of the systems ordered so that no pair compares as out of order; signed out, the comparator throws once two systems are compared and the result is [] (a list of at most one system is returned as is) |
| Exploration.SearchSystemsStable | game/explorationSystem.js:68-87 | systems the comparator ties keep their relative order |
| Exploration.PopularSystems | game/explorationSystem.js:95-111 | exactly min(limit, n) systems for a non-negative limit, sorted by non-increasing discoverer count, taken from the input as a sub-multiset |
| Exploration.PopularSystemsAreTheTop | game/explorationSystem.js:99-106 | no system left out of the list has more discoverers than one kept |
| Exploration.DirectionOf | game/explorationSystem.js:316-319 | east exactly on [-45, 45), south on [45, 135), west from 135 or below -135, north on [-135, -45) |
| Exploration.GetDirection | game/explorationSystem.js:313-320 | a system due east of the centre, or at the centre itself, is 'este' |
| Exploration.Annotate | game/explorationSystem.js:292-302 | the record keeps the system and its rounded-down distance is non-negative |
| Exploration.AnnotateAll | game/explorationSystem.js:291-303 | one record per system, in input order |
| Exploration.NearbySystems | game/explorationSystem.js:287-310 | the nearby list is no longer than the input and is in non-decreasing distance |
| Exploration.NearbySystemsFacts | game/explorationSystem.js:287-310 | the nearby list holds exactly the annotated systems whose rounded distance is at most `maxDistance`, each as often as in the input, in non-decreasing distance |
| Exploration.NewSystems | game/explorationSystem.js:23-35 | a system is kept exactly when it is in the input, within the radius, not owned by the player and not already discovered by the player |
| Exploration.NewEvent | game/explorationSystem.js:177-188 | the event is one of the four kinds and active; its id takes the first clock reading and `timestamp` the second, and it expires that kind's duration in hours after the third; its related ids are the discovered systems' ids in order, and it records the discoverer |
| Exploration.NewEventActiveUntilExpiry | game/explorationSystem.js:184-205 | a fresh event counts as active exactly at the times before it expires, and at its own timestamp when the clock does not run backwards |
| Exploration.CleanupKeepsActiveEvents | game/explorationSystem.js:323-328 | removing expired events leaves the list of active events unchanged |
| Exploration.ExplorationSystem.constructor | game/explorationSystem.js:4-8 | no explored systems and no events |
| Exploration.ExplorationSystem.IsSystemExplored | game/explorationSystem.js:209-211 | `exploredSystems.has(id)`: membership in the explored set, which `ExploreArea` and `Initialize` state when they extend |
| Exploration.ExplorationSystem.ActiveEvents | game/explorationSystem.js:201-206 | an event is returned exactly when it is in the list, active and not yet expired, and the result is a sub-multiset of the list |
| Exploration.ExplorationSystem.CleanupExpiredEvents | game/explorationSystem.js:323-328 | exactly the events with `expiresAt > now` remain, in order; the active events and the explored set are unchanged |
| Exploration.ExplorationSystem.GenerateRandomEvent | game/explorationSystem.js:134-198 | the new event is appended to the list and returned, and the explored set is unchanged |
| Exploration.ExplorationSystem.ExploreArea | game/explorationSystem.js:11-60 | signed out it throws and changes nothing; otherwise it returns the new systems whose discoverer write succeeded, in order, the explored set grows by exactly their ids, and one event is appended exactly when some system was found and the roll exceeds 0.7 |
| Exploration.ExplorationSystem.Initialize | game/explorationSystem.js:331-346 | expired events are removed; signed in, the explored set grows by exactly the systems the player has discovered; signed out, it is unchanged |
| GalaxyRendering.ScreenWorldRoundTrip | core/galaxyRenderer.js:97-131 | the screen-to-world map of `handleZoom` and the world-to-screen map of `handleClick` are inverse to each other |
| GalaxyRendering.ClampScale | core/galaxyRenderer.js:101 | the clamped scale lies in [0.05, 5], and a scale already in range is kept |
| GalaxyRendering.ClampScaleMonotone | core/galaxyRenderer.js:101 | the clamp preserves order |
| GalaxyRendering.ZoomedScale | core/galaxyRenderer.js:90-101 | the new scale lies in [0.05, 5]; from an in-range scale, a wheel up never zooms out and a wheel down never zooms in |
| GalaxyRendering.Zoom | core/galaxyRenderer.js:91-93 | a wheel up multiplies the scale by e^0.1 > 1 and a wheel down by e^-0.1 < 1 |
| GalaxyRendering.ViewportRoundTrip | core/galaxyRenderer.js:447-466 | the viewport centre is the world point under the middle pixel, and centring on a point and reading the centre back are inverse to each other |
| GalaxyRendering.CenterGalaxyCentresOnlyAtDefaultScale | core/galaxyRenderer.js:453-458 | offsets computed for 25000 at one scale put 25000 in the middle at scale 0.3 exactly when that scale was 0.3 |
| GalaxyRendering.GalaxyRenderer.CurrentViewport | core/galaxyRenderer.js:461-466 | the reported centre is the world point under the middle pixel of the canvas, and the radius is non-negative |
| GalaxyRendering.ViewportOf | core/galaxyRenderer.js:460-466 | the radius is non-negative and spans half the larger canvas side in world units |
| GalaxyRendering.ClickRadius | core/galaxyRenderer.js:134 | the click radius is at least 8 pixels and at least 15 times the scale |
| GalaxyRendering.FindClicked | core/galaxyRenderer.js:127-144 | the scan over the candidates returns exactly `ClickTarget`: the first one within its click radius, or none |
| GalaxyRendering.ClickTarget | core/galaxyRenderer.js:129-144 | nothing is selected exactly when no candidate lies within its click radius of the cursor; otherwise the selected system is the first candidate that does |
| GalaxyRendering.UserSystemsFirst | core/galaxyRenderer.js:126-127 | when some user system is hit, the explorable systems listed after them never win the click |
| GalaxyRendering.ClickOnSystemSelects | core/galaxyRenderer.js:129-140 | a click exactly on the point where a system is drawn selects some system |
| GalaxyRendering.ColorOf | core/galaxyRenderer.js:276-286 | blue exactly for a signed-in player's own system, green exactly for one the player discovered but does not own, gray otherwise and whenever nobody is signed in |
| GalaxyRendering.SystemSize | core/galaxyRenderer.js:289-299 | the size lies in [2, 15]: in [2, 10] without a civilization and at least 3 with one |
| GalaxyRendering.SystemSizeMonotone | core/galaxyRenderer.js:290 | zooming in never draws a system of non-negative mass smaller |
| GalaxyRendering.ShowsName | core/galaxyRenderer.js:348-357 | a name is drawn only for a signed-in player, and then for a system the player owns or discovered, or for any system once zoomed past 0.8 |
| GalaxyRendering.ColoredSystemsShowName | core/galaxyRenderer.js:276-357 | every blue or green system is labelled; a gray one exactly when a signed-in player has zoomed past 0.8; signed out, nothing is labelled |
| GalaxyRendering.GalaxyRenderer.constructor | core/galaxyRenderer.js:2-23 | a window-sized renderer with no systems, nothing selected, offsets 25000, scale 0.3, not dragging, last position (0, 0) |
| GalaxyRendering.GalaxyRenderer.HandleZoom | core/galaxyRenderer.js:90-105 | the scale takes one clamped zoom step and the world point under the cursor stays where it was, even when the clamp binds; nothing else changes |
| GalaxyRendering.GalaxyRenderer.HandleDrag | core/galaxyRenderer.js:108-117 | the world point grabbed at the last position is now under the cursor, the cursor becomes the last position, and the scale and everything else are kept |
| GalaxyRendering.GalaxyRenderer.MouseDown | core/galaxyRenderer.js:56-61 | a drag starts at the cursor, and the camera and selection are kept |
| GalaxyRendering.GalaxyRenderer.MouseMove | core/galaxyRenderer.js:63-66 | while dragging the move is a `handleDrag`; otherwise nothing changes |
| GalaxyRendering.GalaxyRenderer.MouseUp | core/galaxyRenderer.js:68-76 | the drag ends, and the camera and selection are kept |
| GalaxyRendering.GalaxyRenderer.HandleClick | core/galaxyRenderer.js:120-145 | while dragging the selection is kept; otherwise the loop selects `ClickTarget` of the user systems followed by the explorable ones; the camera is kept |
| GalaxyRendering.GalaxyRenderer.HandleResize | core/galaxyRenderer.js:148-153 | the canvas takes the new size, and everything else is kept |
| GalaxyRendering.GalaxyRenderer.UpdateSystems | core/galaxyRenderer.js:156-158 | the player's system list is replaced, and everything else, the explorable list included, is kept |
| GalaxyRendering.GalaxyRenderer.UpdateExplorableSystems | core/galaxyRenderer.js:161-163 | the explorable list is replaced, and everything else, the player's list included, is kept |
| GalaxyRendering.GalaxyRenderer.CenterOn | core/galaxyRenderer.js:447-451 | the viewport is then centred on (x, y) with the same scale and radius, and nothing else changes |
| GalaxyRendering.GalaxyRenderer.CenterGalaxy | core/galaxyRenderer.js:453-458 | the scale becomes 0.3 but the offsets are computed with the old scale, so the viewport centre on a non-empty side is 25000 exactly when the old scale was already 0.3 |

## Left out

- **Firestore and authentication I/O.** `services/auth-service.js` is not part of this model. In services/firebase-service.js this leaves out `createStarSystem`, the listeners, the queries and the statistics updates. In core/gameEngine.js it leaves out `updateSystemInFirebase`, `init`, `loadAllSystems` and `setupRealTimeListeners`.
- **Awaited results as inputs.** The systems a query returns and the outcome of `addDiscovererToSystem` are parameters, and `async`/`await` is ignored.
- **DOM and UI.** `core/uiManager.js` and the `main.js` bootstrap are not part of this model. The canvas drawing in core/galaxyRenderer.js is left out: the `draw*` routines, `animate`, the background stars, cursor styles, event wiring and the `onSystemSelected` callback. Only the camera and selection state is modelled.
- **Notifications, console logging and message texts.** This covers the texts of thrown errors, of migration issues and of galactic events.
- **IEEE floating point.** Numbers are exact reals: no rounding, no NaN or Infinity propagation. The `toFixed` and `toString(36)` strings that make up comet, event and moon ids and names are not produced.
- **Time-ago wording.** `getTimeAgo`'s strings are represented by the bucket they fall in, an `Elapsed` value carrying the count N.
- **Probability distributions.** The Box–Muller `normalDistribution` and `seededRandom` appear only as the variates they return, passed in as parameters.
- **Kepler solver.** The fixed 10-step solver and the 3-D element rotation in `calculateOrbitalPosition` (physics/orbitalMechanics.js:18-55) are a position-solver parameter.
- **Transcendental internals.** The rotation formulas of `Vector3.rotate` and the Stefan–Boltzmann formula inside `calculateTemperature` are kept only as applications of the `MathLib` functions. Their values are not characterised.
- **Operations outside the simulation core.** `getExplorationStats`, `getRecentlyDiscovered`, `getDiscovererName`, `generateMinorBodies`, `generateRandomCoordinates`, `generateRandomCoordinate`, `calculateOrbitalVelocity` and `getMinimumFusionMass` are not modelled. They are display helpers, random draws with no rule of their own, or a constant.
- **Loading screen and teardown.** The engine's `showLoadingScreen`, `hideLoadingScreen`, `showError` and `destroy`, and the service's `cleanup`, are UI and teardown code.
- **Parameters that are never read.** `simulateOrbitalMotion`'s `timeStep`, `calculateEvolutionRate`'s `timeYears` and `checkMigrationNeeded`'s `currentYear` are never read by the source, so the model omits them.
- CivilizationEvolution.ResourceFactor: requires `Readable` (metals `initial` and energy `capacity` nonzero). JavaScript would divide by zero and carry Infinity or NaN on, which reals cannot represent.
- CivilizationEvolution.EvolutionRate: requires `Readable` for the same reason as `ResourceFactor`.
- CivilizationEvolution.RateUnclampedInRange: requires `Readable` for the same reason as `ResourceFactor`.
- CivilizationEvolution.FullStocksGiveFullFactor: requires `Readable` for the same reason as `ResourceFactor`.
- GameEngine.Evolve: requires the planet's resources to be `Readable`. The `Planet` class keeps this as part of `Valid()`, and every step preserves it (`GameEngine.ConsumeAllReadable`).
- GameEngine.Engine.AdvanceTime: requires the user's systems to be distinct objects. A planet object shared by two systems would be evolved twice, and the model does not follow that aliasing.
- SystemGenerator.GeneratePlanets: requires the `normalRange` rejection loops to have accepted a value for every planet. The source loops until one is accepted, so a run that never ends is not modelled.
- SystemGenerator.GeneratePlanets: requires a nonzero star mass, because Kepler's orbital period (physics/orbitalMechanics.js:4-5, called at services/firebase-service.js:211) divides by it. With a zero mass the source gets Infinity. `validateSystemData` keeps the mass in [0.1, 100].
- SystemGenerator.GeneratePlanet: requires an accepted variate and a nonzero star mass, as `GeneratePlanets` does.
- MathUtils.NormalRange: models a bounded list of candidate variates. When none is accepted the result is `None`, where the source would keep drawing.
- OrbitalMechanics.OrbitalPeriod: only positivity is stated. The value is Kepler's third law evaluated through `MathLib`. It also requires a nonzero central mass, where JavaScript divides by zero and returns Infinity.
- Text.LowerChar: folds only the ASCII capitals `A`-`Z` and the Latin-1 capitals `À`-`Þ` (except `×`). JavaScript's `toLowerCase` also folds Greek, Cyrillic, Latin Extended and other capitals, and can lengthen a string (`İ` becomes two code units). Full Unicode case mapping is not modelled.
- Text.Lower: inherits the folding limit of `LowerChar`, so it always keeps the length, where `toLowerCase` need not.
- SystemGenerator.SearchFilter: the query match uses `Text.Lower`. A name whose capitals lie outside ASCII and Latin-1 can match in the source and not in the model.
- SystemGenerator.SearchFilterMembers: states membership under the same `Text.Lower` folding as `SearchFilter`.
