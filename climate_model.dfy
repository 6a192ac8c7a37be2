/**
 * Planetary climate: equilibrium temperature, greenhouse warming, the stellar
 * habitable zone and surface pressure.
 */
module ClimateModel {
  import opened Numeric
  import opened Wrappers
  import Constants

  /** The habitable zone of a star, in astronomical units. */
  datatype Zone = Zone(inner: real, outer: real, width: real)

  /** Inner edge 0.95·√L and outer edge 1.37·√L, for a luminosity L in solar units. */
  function HabitableZone(m: MathLib, luminosity: real): (z: Zone)
    requires m.Lawful()
    ensures z.width == z.outer - z.inner
    ensures z.inner * 1.37 == z.outer * 0.95
    ensures luminosity >= 0.0 ==> 0.0 <= z.inner <= z.outer
    ensures luminosity > 0.0 ==> 0.0 < z.inner < z.outer
  {
    var root := m.sqrt(luminosity);
    assert luminosity >= 0.0 ==> root >= 0.0;
    Zone(0.95 * root, 1.37 * root, 1.37 * root - 0.95 * root)
  }

  /** The atmosphere as the climate formulas read it; `None` is an absent field. */
  datatype AtmosphereInput = AtmosphereInput(
    albedo: Option<real>,
    composition: Option<map<string, real>>,
    mass: Option<real>)

  /** `atmosphere.albedo || 0.3`: an absent or zero albedo falls back to 0.3. */
  function EffectiveAlbedo(albedo: Option<real>): (a: real)
    ensures a != 0.0
    ensures albedo.Some? && albedo.value != 0.0 ==> a == albedo.value
    ensures albedo.None? || albedo.value == 0.0 ==> a == 0.3
  {
    if albedo.Some? && albedo.value != 0.0 then albedo.value else 0.3
  }

  /** A greenhouse gas: its radiative forcing coefficient and the concentration assumed when none is given. */
  datatype Gas = Gas(name: string, forcing: real, fallback: real)

  const GREENHOUSE_GASES: seq<Gas> := [
    Gas("CO2", 5.35, 0.0004),
    Gas("CH4", 0.5, 0.0000018),
    Gas("N2O", 0.15, 0.00000032),
    Gas("H2O", 2.0, 0.01)
  ]

  /** The reference concentration in the logarithmic forcing law. */
  const REFERENCE_CONCENTRATION: real := 0.00028
  /** Degrees of warming per W/m² of forcing. */
  const CLIMATE_SENSITIVITY: real := 0.8

  /** `composition?.GAS || fallback`: a missing composition, a missing key or a zero value give the fallback. */
  function Concentration(composition: Option<map<string, real>>, gas: Gas): (c: real)
    ensures gas.fallback != 0.0 ==> c != 0.0
    ensures composition.Some? && gas.name in composition.value && composition.value[gas.name] != 0.0
      ==> c == composition.value[gas.name]
    ensures composition.None? || gas.name !in composition.value || composition.value[gas.name] == 0.0
      ==> c == gas.fallback
  {
    if composition.Some? && gas.name in composition.value && composition.value[gas.name] != 0.0
    then composition.value[gas.name]
    else gas.fallback
  }

  /** The forcing of one gas: `forcing·ln(c/0.00028)` for a positive concentration, nothing otherwise. */
  function GasForcing(m: MathLib, composition: Option<map<string, real>>, gas: Gas): real {
    var c := Concentration(composition, gas);
    if c > 0.0 then gas.forcing * m.ln(c / REFERENCE_CONCENTRATION) else 0.0
  }

  /** The forcing summed over `gases`, in list order. */
  function TotalForcing(m: MathLib, composition: Option<map<string, real>>, gases: seq<Gas>): real {
    if |gases| == 0 then 0.0
    else TotalForcing(m, composition, gases[..|gases| - 1]) + GasForcing(m, composition, gases[|gases| - 1])
  }

  /** The greenhouse warming in degrees. */
  function Greenhouse(m: MathLib, composition: Option<map<string, real>>): real {
    CLIMATE_SENSITIVITY * TotalForcing(m, composition, GREENHOUSE_GASES)
  }

  /** `calculateGreenhouseEffect`: accumulates the forcing gas by gas, then scales it. */
  method GreenhouseEffect(m: MathLib, composition: Option<map<string, real>>) returns (warming: real)
    ensures warming == Greenhouse(m, composition)
  {
    var forcing := 0.0;
    var i := 0;
    while i < |GREENHOUSE_GASES|
      invariant 0 <= i <= |GREENHOUSE_GASES|
      invariant forcing == TotalForcing(m, composition, GREENHOUSE_GASES[..i])
    {
      var gas := GREENHOUSE_GASES[i];
      var c := Concentration(composition, gas);
      if c > 0.0 {
        forcing := forcing + gas.forcing * m.ln(c / REFERENCE_CONCENTRATION);
      }
      assert GREENHOUSE_GASES[..i + 1][..i] == GREENHOUSE_GASES[..i];
      i := i + 1;
    }
    assert GREENHOUSE_GASES[..i] == GREENHOUSE_GASES;
    warming := CLIMATE_SENSITIVITY * forcing;
  }

  /**
   * Raising gas concentrations never lowers the forcing: if every gas of the
   * first composition is present at a positive concentration and the second has
   * at least as much of each, its total forcing is at least as large.
   */
  lemma {:induction false} TotalForcingMonotone(
    m: MathLib, c1: Option<map<string, real>>, c2: Option<map<string, real>>, gases: seq<Gas>)
    requires m.Lawful()
    requires forall i :: 0 <= i < |gases| ==> gases[i].forcing >= 0.0
    requires forall i :: 0 <= i < |gases| ==>
      0.0 < Concentration(c1, gases[i]) <= Concentration(c2, gases[i])
    ensures TotalForcing(m, c1, gases) <= TotalForcing(m, c2, gases)
  {
    if |gases| > 0 {
      TotalForcingMonotone(m, c1, c2, gases[..|gases| - 1]);
      GasForcingMonotone(m, c1, c2, gases[|gases| - 1]);
    }
  }

  lemma GasForcingMonotone(m: MathLib, c1: Option<map<string, real>>, c2: Option<map<string, real>>, gas: Gas)
    requires m.Lawful()
    requires gas.forcing >= 0.0
    requires 0.0 < Concentration(c1, gas) <= Concentration(c2, gas)
    ensures GasForcing(m, c1, gas) <= GasForcing(m, c2, gas)
  {
    ForcingMonotone(m, gas.forcing, Concentration(c1, gas), Concentration(c2, gas));
  }

  /** `f·ln(x/0.00028)` grows with the concentration `x` for a non-negative forcing `f`. */
  lemma ForcingMonotone(m: MathLib, f: real, x: real, y: real)
    requires m.Lawful()
    requires f >= 0.0 && 0.0 < x <= y
    ensures f * m.ln(x / REFERENCE_CONCENTRATION) <= f * m.ln(y / REFERENCE_CONCENTRATION)
  {
    assert 0.0 < x / REFERENCE_CONCENTRATION <= y / REFERENCE_CONCENTRATION;
    MulMonotone(f, m.ln(x / REFERENCE_CONCENTRATION), m.ln(y / REFERENCE_CONCENTRATION));
  }

  /** More of every greenhouse gas never makes the planet cooler. */
  lemma GreenhouseMonotone(m: MathLib, c1: Option<map<string, real>>, c2: Option<map<string, real>>)
    requires m.Lawful()
    requires forall i :: 0 <= i < |GREENHOUSE_GASES| ==>
      0.0 < Concentration(c1, GREENHOUSE_GASES[i]) <= Concentration(c2, GREENHOUSE_GASES[i])
    ensures Greenhouse(m, c1) <= Greenhouse(m, c2)
  {
    TotalForcingMonotone(m, c1, c2, GREENHOUSE_GASES);
  }

  /** A gas given at a negative concentration is read as given and then contributes no forcing. */
  lemma NegativeConcentrationIgnored(m: MathLib, composition: map<string, real>, gas: Gas)
    requires gas.name in composition && composition[gas.name] < 0.0
    ensures GasForcing(m, Some(composition), gas) == 0.0
  {
  }

  /** Temperatures in degrees Celsius, as `calculateEquilibriumTemperature` reports them. */
  datatype TemperatureReport = TemperatureReport(effective: real, surface: real, greenhouse: real, albedo: real)

  const KELVIN_OFFSET: real := 273.15

  /**
   * The effective (Stefan–Boltzmann) temperature of a planet at `semiMajorAxis` AU
   * from a star of `luminosity` solar units, plus greenhouse warming.
   */
  function EquilibriumTemperature(m: MathLib, luminosity: real, semiMajorAxis: real, atmosphere: AtmosphereInput)
    : (t: TemperatureReport)
    requires m.Lawful()
    requires semiMajorAxis != 0.0
    ensures t.surface - t.effective == t.greenhouse
    ensures t.greenhouse == Greenhouse(m, atmosphere.composition)
    ensures t.albedo == EffectiveAlbedo(atmosphere.albedo)
  {
    var distance := semiMajorAxis * Constants.AU;
    var solarConstant := luminosity * Constants.SOLAR_LUMINOSITY / (4.0 * PI * (distance * distance));
    var albedo := EffectiveAlbedo(atmosphere.albedo);
    var absorbed := solarConstant * (1.0 - albedo) / 4.0;
    var effective := m.pow(absorbed / Constants.SIGMA, 0.25);
    var greenhouse := Greenhouse(m, atmosphere.composition);
    TemperatureReport(effective - KELVIN_OFFSET, effective + greenhouse - KELVIN_OFFSET, greenhouse, albedo)
  }

  /** `atmosphere.mass || 1.0`, in Earth atmospheres. */
  function AtmosphericMass(mass: Option<real>): (a: real)
    ensures a != 0.0
    ensures mass.Some? && mass.value != 0.0 ==> a == mass.value
    ensures mass.None? || mass.value == 0.0 ==> a == 1.0
  {
    if mass.Some? && mass.value != 0.0 then mass.value else 1.0
  }

  /** Surface gravity G·M/R² for a planet given in Earth masses and Earth radii. */
  function SurfaceGravity(planetMass: real, planetRadius: real): real
    requires planetRadius != 0.0
  {
    Constants.G * planetMass * Constants.EARTH_MASS
      / ((planetRadius * Constants.EARTH_RADIUS) * (planetRadius * Constants.EARTH_RADIUS))
  }

  /** Gravity has the sign of the planet's mass. */
  lemma SurfaceGravitySign(planetMass: real, planetRadius: real)
    requires planetRadius != 0.0
    ensures planetMass > 0.0 ==> SurfaceGravity(planetMass, planetRadius) > 0.0
    ensures planetMass == 0.0 ==> SurfaceGravity(planetMass, planetRadius) == 0.0
  {
    assert (planetRadius * Constants.EARTH_RADIUS) * (planetRadius * Constants.EARTH_RADIUS) > 0.0;
    if planetMass == 0.0 {
      assert SurfaceGravity(planetMass, planetRadius) == SurfaceGravity(0.0, planetRadius);
    }
  }

  /** Surface pressure in kPa: the atmospheric mass times the gravity times 101.325. */
  function SurfacePressure(planetMass: real, planetRadius: real, atmosphereMass: Option<real>): (p: real)
    requires planetRadius != 0.0
    ensures planetMass > 0.0 ==> (p > 0.0 <==> AtmosphericMass(atmosphereMass) > 0.0)
  {
    var a := AtmosphericMass(atmosphereMass);
    var g := SurfaceGravity(planetMass, planetRadius);
    assert planetMass > 0.0 ==> (a * g > 0.0 <==> a > 0.0) by {
      SurfaceGravitySign(planetMass, planetRadius);
      if planetMass > 0.0 {
        if a > 0.0 {
          MulPositive(a, g);
        } else {
          MulPositive(-a, g);
          assert a * g == -((-a) * g);
        }
      }
    }
    a * g * 101.325
  }

  /** The pressure is proportional to the atmospheric mass; an absent or zero mass counts as one atmosphere. */
  lemma SurfacePressureProportional(planetMass: real, planetRadius: real, atmosphereMass: real)
    requires planetRadius != 0.0
    ensures SurfacePressure(planetMass, planetRadius, Some(0.0)) == SurfacePressure(planetMass, planetRadius, None)
    ensures atmosphereMass != 0.0 ==>
      SurfacePressure(planetMass, planetRadius, Some(atmosphereMass))
        == atmosphereMass * SurfacePressure(planetMass, planetRadius, None)
  {
    var g := SurfaceGravity(planetMass, planetRadius);
    assert atmosphereMass * g * 101.325 == atmosphereMass * (1.0 * g * 101.325);
  }
}
