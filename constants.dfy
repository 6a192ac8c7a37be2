/**
 * Physical constants, unit conversions and the star and planet type tables.
 */
module Constants {

  // Fundamental and astronomical constants (SI units).
  const G: real := 6.67430e-11
  const SIGMA: real := 5.670374419e-8
  const AU: real := 1.495978707e11
  const SOLAR_MASS: real := 1.98847e30
  const SOLAR_RADIUS: real := 6.957e8
  const SOLAR_LUMINOSITY: real := 3.828e26
  const EARTH_MASS: real := 5.9722e24
  const EARTH_RADIUS: real := 6.371e6
  const EARTH_ALBEDO: real := 0.306
  const YEAR_SECONDS: real := 31557600.0

  function ToEarthMasses(kg: real): (r: real)
    ensures r * EARTH_MASS == kg
  {
    kg / EARTH_MASS
  }

  function ToSolarMasses(kg: real): (r: real)
    ensures r * SOLAR_MASS == kg
  {
    kg / SOLAR_MASS
  }

  function ToAU(meters: real): (r: real)
    ensures r * AU == meters
  {
    meters / AU
  }

  function ToMeters(au: real): (r: real)
    ensures r / AU == au
  {
    au * AU
  }

  /** The two length conversions are inverse to each other. */
  lemma LengthRoundTrips(meters: real, au: real)
    ensures ToMeters(ToAU(meters)) == meters
    ensures ToAU(ToMeters(au)) == au
  {
  }

  /** Both mass conversions are linear maps: they preserve zero, sums and scaling. */
  lemma MassConversionsLinear(a: real, b: real, k: real)
    ensures ToEarthMasses(0.0) == 0.0 && ToSolarMasses(0.0) == 0.0
    ensures ToEarthMasses(a + b) == ToEarthMasses(a) + ToEarthMasses(b)
    ensures ToSolarMasses(a + b) == ToSolarMasses(a) + ToSolarMasses(b)
    ensures ToEarthMasses(k * a) == k * ToEarthMasses(a)
    ensures ToSolarMasses(k * a) == k * ToSolarMasses(a)
  {
  }

  /** A closed interval `[lo, hi]` as written in the tables. */
  datatype Range = Range(lo: real, hi: real) {
    predicate Ordered() { lo <= hi }
    predicate Contains(x: real) { lo <= x <= hi }
  }

  datatype StarType = StarType(
    massRange: Range,
    temperature: Range,
    luminosity: Range,
    lifespan: real,
    color: string)

  datatype PlanetType = PlanetType(density: Range, sizeRange: Range, habitability: Range)

  const STAR_TYPES: map<string, StarType> := map[
    "enana_amarilla" := StarType(Range(0.8, 1.2), Range(5300.0, 6000.0), Range(0.6, 1.5), 1e10, "#FDB813"),
    "enana_roja" := StarType(Range(0.08, 0.45), Range(2400.0, 3700.0), Range(0.0001, 0.08), 1e12, "#FF4422"),
    "gigante_azul" := StarType(Range(2.5, 90.0), Range(10000.0, 50000.0), Range(100.0, 1000000.0), 1e7, "#4499FF"),
    "gigante_roja" := StarType(Range(0.8, 8.0), Range(3500.0, 5000.0), Range(100.0, 1000.0), 1e9, "#FF6B35"),
    "enana_blanca" := StarType(Range(0.17, 1.4), Range(8000.0, 40000.0), Range(0.0001, 100.0), 1e13, "#FFFFFF")
  ]

  const ROCOSO: string := "rocoso"
  const GASEOSO: string := "gaseoso"
  const HELADO: string := "helado"
  const OCEANICO: string := "oceánico"

  const PLANET_TYPES: map<string, PlanetType> := map[
    ROCOSO := PlanetType(Range(3000.0, 5500.0), Range(0.3, 2.0), Range(0.1, 0.9)),
    GASEOSO := PlanetType(Range(600.0, 2000.0), Range(3.0, 20.0), Range(0.0, 0.1)),
    HELADO := PlanetType(Range(1000.0, 2000.0), Range(0.5, 4.0), Range(0.0, 0.3)),
    OCEANICO := PlanetType(Range(2000.0, 4000.0), Range(0.8, 3.0), Range(0.5, 0.95))
  ]

  /** Every star type lists each of its ranges lower bound first, and has a positive lifespan. */
  lemma StarTypesOrdered()
    ensures forall k :: k in STAR_TYPES ==>
      && STAR_TYPES[k].massRange.Ordered()
      && STAR_TYPES[k].temperature.Ordered()
      && STAR_TYPES[k].luminosity.Ordered()
      && STAR_TYPES[k].lifespan > 0.0
  {
  }

  /** Every planet type lists ordered ranges, and its habitability range lies within [0, 1]. */
  lemma PlanetTypesOrdered()
    ensures forall k :: k in PLANET_TYPES ==>
      && PLANET_TYPES[k].density.Ordered()
      && PLANET_TYPES[k].sizeRange.Ordered()
      && PLANET_TYPES[k].habitability.Ordered()
      && 0.0 <= PLANET_TYPES[k].habitability.lo
      && PLANET_TYPES[k].habitability.hi <= 1.0
  {
  }

  /** The planet table has exactly the four type names. */
  lemma PlanetTypeKeys()
    ensures PLANET_TYPES.Keys == {ROCOSO, GASEOSO, HELADO, OCEANICO}
    ensures |PLANET_TYPES.Keys| == 4
  {
  }
}
