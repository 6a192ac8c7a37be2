/**
 * Main-sequence lifetime, luminosity, radius, spectral class and evolutionary
 * stage of a star, all as functions of its mass (in solar masses) and age (in years).
 */
module StellarEvolution {
  import opened Numeric
  import ClimateModel
  import Constants

  const SOLAR_LIFETIME: real := 1e10

  /** Main-sequence lifetime in years: 1e10·M^-2.3 up to 0.43, 1e10·M^-2.5 up to 1, 1e10·M^-3.5 above. */
  function MainSequenceLifetime(m: MathLib, mass: real): (t: real)
    requires m.Lawful()
    ensures mass > 0.0 ==> t > 0.0
    ensures mass == 1.0 ==> t == SOLAR_LIFETIME
  {
    if mass <= 0.43 then SOLAR_LIFETIME * m.pow(mass, -2.3)
    else if mass <= 1.0 then SOLAR_LIFETIME * m.pow(mass, -2.5)
    else SOLAR_LIFETIME * m.pow(mass, -3.5)
  }

  /** The exponent regime a mass falls in; the lifetime law changes between regimes. */
  function Regime(mass: real): nat {
    if mass <= 0.43 then 0 else if mass <= 1.0 then 1 else 2
  }

  /**
   * Within one regime, a heavier star lives shorter. (Across the 0.43 boundary
   * the law switches exponent, so the lifetime is not monotone overall.)
   */
  lemma LifetimeDecreasingWithinRegime(m: MathLib, m1: real, m2: real)
    requires m.Lawful()
    requires 0.0 < m1 < m2 && Regime(m1) == Regime(m2)
    ensures MainSequenceLifetime(m, m2) < MainSequenceLifetime(m, m1)
  {
  }

  /** The main-sequence luminosity M^3.5, in solar luminosities. */
  function MainSequenceLuminosity(m: MathLib, mass: real): real {
    m.pow(mass, 3.5)
  }

  /**
   * `calculateLuminosity`: M^3.5 while the star is on the main sequence, then
   * growing linearly by one main-sequence luminosity per billion years.
   */
  function Luminosity(m: MathLib, mass: real, age: real): (l: real)
    requires m.Lawful()
    ensures mass > 0.0 ==> l >= MainSequenceLuminosity(m, mass) > 0.0
    ensures age <= MainSequenceLifetime(m, mass) ==> l == MainSequenceLuminosity(m, mass)
  {
    var lifetime := MainSequenceLifetime(m, mass);
    var base := MainSequenceLuminosity(m, mass);
    if age <= lifetime then base
    else
      assert mass > 0.0 ==> base * (1.0 + (age - lifetime) / 1e9) >= base by {
        if mass > 0.0 {
          MulMonotone(base, 1.0, 1.0 + (age - lifetime) / 1e9);
        }
      }
      base * (1.0 + (age - lifetime) / 1e9)
  }

  /** The Sun at 4.5 billion years shines at exactly one solar luminosity. */
  lemma SunLuminosity(m: MathLib)
    requires m.Lawful()
    ensures Luminosity(m, 1.0, 4500.0) == 1.0
    ensures Luminosity(m, 1.0, 4.5e9) == 1.0
  {
  }

  /** For a star of positive mass, luminosity never decreases with age. */
  lemma LuminosityNonDecreasing(m: MathLib, mass: real, age1: real, age2: real)
    requires m.Lawful()
    requires mass > 0.0 && age1 <= age2
    ensures Luminosity(m, mass, age1) <= Luminosity(m, mass, age2)
  {
    var lifetime := MainSequenceLifetime(m, mass);
    var base := MainSequenceLuminosity(m, mass);
    if age1 > lifetime {
      MulMonotone(base, 1.0 + (age1 - lifetime) / 1e9, 1.0 + (age2 - lifetime) / 1e9);
    }
  }

  /** `isStarStable`: the star has not outlived its main-sequence lifetime. */
  predicate IsStarStable(m: MathLib, mass: real, age: real)
    requires m.Lawful()
  {
    age <= MainSequenceLifetime(m, mass)
  }

  /** A star of positive mass is stable exactly when its luminosity is the main-sequence one. */
  lemma StableIffMainSequenceLuminosity(m: MathLib, mass: real, age: real)
    requires m.Lawful()
    requires mass > 0.0
    ensures IsStarStable(m, mass, age) <==> Luminosity(m, mass, age) == MainSequenceLuminosity(m, mass)
  {
    var lifetime := MainSequenceLifetime(m, mass);
    var base := MainSequenceLuminosity(m, mass);
    if age > lifetime {
      var factor := 1.0 + (age - lifetime) / 1e9;
      assert factor > 1.0;
      assert base * factor - base == base * (factor - 1.0);
      MulPositive(base, factor - 1.0);
    }
  }

  /** `calculateRadius` in solar radii: M^0.8 below one solar mass, M^0.57 from there on. The luminosity is not read. */
  function Radius(m: MathLib, mass: real, luminosity: real): (r: real)
    requires m.Lawful()
    ensures mass > 0.0 ==> r > 0.0
    ensures mass == 1.0 ==> r == 1.0
  {
    if mass < 1.0 then m.pow(mass, 0.8) else m.pow(mass, 0.57)
  }

  /** The radius depends on the mass alone. */
  lemma RadiusIgnoresLuminosity(m: MathLib, mass: real, l1: real, l2: real)
    requires m.Lawful()
    ensures Radius(m, mass, l1) == Radius(m, mass, l2)
  {
  }

  /** `calculateTemperature`: the Stefan–Boltzmann effective temperature in kelvin, L = 4πR²σT⁴. */
  function Temperature(m: MathLib, mass: real, luminosity: real): (t: real)
    requires m.Lawful()
    requires mass > 0.0
    ensures luminosity > 0.0 ==> t > 0.0
  {
    m.pow(FourthPower(luminosity, Radius(m, mass, luminosity)), 0.25)
  }

  /** T⁴ = L / (4πR²σ), in SI units, for a luminosity and radius in solar units. */
  function FourthPower(luminosity: real, radius: real): (p: real)
    requires radius > 0.0
    ensures luminosity > 0.0 ==> p > 0.0
  {
    assert Constants.SOLAR_LUMINOSITY > 0.0;
    assert luminosity > 0.0 ==> luminosity * Constants.SOLAR_LUMINOSITY > 0.0;
    QuotientSign(luminosity * Constants.SOLAR_LUMINOSITY, RadiatingArea(radius));
    luminosity * Constants.SOLAR_LUMINOSITY / RadiatingArea(radius)
  }

  /** 4πR²σ for a radius in solar radii. */
  function RadiatingArea(radius: real): (area: real)
    requires radius > 0.0
    ensures area > 0.0
  {
    4.0 * PI * Square(radius * Constants.SOLAR_RADIUS) * Constants.SIGMA
  }

  /** `Math.pow(x, 2)`, positive for a positive `x`. */
  function Square(x: real): (r: real)
    requires x > 0.0
    ensures r > 0.0
  {
    Product(x, x)
  }

  lemma QuotientSign(a: real, b: real)
    requires b > 0.0
    ensures a > 0.0 ==> a / b > 0.0
  {
    if a > 0.0 {
      DivPositive(a, b);
    }
  }

  /** The Harvard classes, hottest first, with the lowest temperature that reaches each. */
  const SPECTRAL_THRESHOLDS: seq<(char, real)> := [
    ('O', 30000.0), ('B', 10000.0), ('A', 7500.0), ('F', 6000.0), ('G', 5200.0), ('K', 3700.0)
  ]
  const SPECTRAL_ORDER: seq<char> := ['O', 'B', 'A', 'F', 'G', 'K', 'M']

  /** `getSpectralClass`: the first class whose threshold the temperature reaches, 'M' below all of them. */
  function SpectralClass(temperature: real): (c: char)
    ensures c in SPECTRAL_ORDER
  {
    if temperature >= 30000.0 then 'O'
    else if temperature >= 10000.0 then 'B'
    else if temperature >= 7500.0 then 'A'
    else if temperature >= 6000.0 then 'F'
    else if temperature >= 5200.0 then 'G'
    else if temperature >= 3700.0 then 'K'
    else 'M'
  }

  /** A reference reading of a threshold table: scan it in order, fall back to 'M'. */
  function ClassFromThresholds(temperature: real, table: seq<(char, real)>): char {
    if |table| == 0 then 'M'
    else if temperature >= table[0].1 then table[0].0
    else ClassFromThresholds(temperature, table[1..])
  }

  /** The ladder agrees with a plain scan of the threshold table. */
  lemma SpectralClassMatchesTable(temperature: real)
    ensures SpectralClass(temperature) == ClassFromThresholds(temperature, SPECTRAL_THRESHOLDS)
  {
    var t := SPECTRAL_THRESHOLDS;
    assert t[1..][1..][1..][1..][1..][1..] == [];
    assert ClassFromThresholds(temperature, t[1..][1..][1..][1..][1..])
      == if temperature >= 3700.0 then 'K' else 'M';
    assert ClassFromThresholds(temperature, t[1..][1..][1..][1..])
      == if temperature >= 5200.0 then 'G' else ClassFromThresholds(temperature, t[1..][1..][1..][1..][1..]);
    assert ClassFromThresholds(temperature, t[1..][1..][1..])
      == if temperature >= 6000.0 then 'F' else ClassFromThresholds(temperature, t[1..][1..][1..][1..]);
    assert ClassFromThresholds(temperature, t[1..][1..])
      == if temperature >= 7500.0 then 'A' else ClassFromThresholds(temperature, t[1..][1..][1..]);
    assert ClassFromThresholds(temperature, t[1..])
      == if temperature >= 10000.0 then 'B' else ClassFromThresholds(temperature, t[1..][1..]);
  }

  /** Position in the hot-to-cool order O, B, A, F, G, K, M. */
  function ClassRank(c: char): nat {
    if c == 'O' then 0 else if c == 'B' then 1 else if c == 'A' then 2
    else if c == 'F' then 3 else if c == 'G' then 4 else if c == 'K' then 5 else 6
  }

  /** A hotter star never gets a cooler class. */
  lemma SpectralClassMonotone(t1: real, t2: real)
    requires t1 <= t2
    ensures ClassRank(SpectralClass(t2)) <= ClassRank(SpectralClass(t1))
  {
  }

  /** Each lower bound is inclusive. */
  lemma SpectralClassBoundaries()
    ensures SpectralClass(30000.0) == 'O' && SpectralClass(29999.99) == 'B'
    ensures SpectralClass(10000.0) == 'B' && SpectralClass(7500.0) == 'A'
    ensures SpectralClass(6000.0) == 'F' && SpectralClass(5200.0) == 'G'
    ensures SpectralClass(3700.0) == 'K' && SpectralClass(3699.99) == 'M'
  {
  }

  const STAR_COLORS: map<string, string> := map[
    "O" := "#9BB0FF", "B" := "#AABFFF", "A" := "#CAD7FF", "F" := "#F8F7FF",
    "G" := "#FFF4EA", "K" := "#FFD2A1", "M" := "#FFCC6F"
  ]

  /** `getStarColor`: the colour of a class, white for any other string. */
  function StarColor(spectralClass: string): (color: string)
    ensures |color| == 7 && color[0] == '#'
    ensures spectralClass in STAR_COLORS ==> color == STAR_COLORS[spectralClass]
    ensures spectralClass !in STAR_COLORS ==> color == "#FFFFFF"
  {
    if spectralClass in STAR_COLORS then STAR_COLORS[spectralClass] else "#FFFFFF"
  }

  /** Every class `SpectralClass` produces has its own (non-white) colour. */
  lemma EveryClassHasColor(temperature: real)
    ensures [SpectralClass(temperature)] in STAR_COLORS
    ensures StarColor([SpectralClass(temperature)]) != "#FFFFFF"
  {
  }

  datatype Stage = Joven | SecuenciaPrincipal | Gigante | Supergigante | Remanente {
    function Ordinal(): nat {
      match this
      case Joven => 0
      case SecuenciaPrincipal => 1
      case Gigante => 2
      case Supergigante => 3
      case Remanente => 4
    }
  }

  /** The stage ladder with cut points 0.1, 0.9, 1.1 and 1.5 lifetimes. */
  function StageAt(lifetime: real, age: real): Stage {
    if age < lifetime * 0.1 then Joven
    else if age < lifetime * 0.9 then SecuenciaPrincipal
    else if age < lifetime * 1.1 then Gigante
    else if age < lifetime * 1.5 then Supergigante
    else Remanente
  }

  /** `getEvolutionaryStage`. */
  function EvolutionaryStage(m: MathLib, mass: real, age: real): (s: Stage)
    requires m.Lawful()
    ensures var lifetime := MainSequenceLifetime(m, mass);
      && (s == Joven <==> age < lifetime * 0.1)
      && (s == SecuenciaPrincipal <==> lifetime * 0.1 <= age < lifetime * 0.9)
      && (s == Gigante <==> lifetime * 0.9 <= age < lifetime * 1.1)
      && (s == Supergigante <==> lifetime * 1.1 <= age < lifetime * 1.5)
      && (lifetime >= 0.0 ==> (s == Remanente <==> lifetime * 1.5 <= age))
    ensures mass > 0.0 && age < 0.0 ==> s == Joven
  {
    StageAt(MainSequenceLifetime(m, mass), age)
  }

  /** With a non-negative lifetime, an older star is never at an earlier stage. */
  lemma StageMonotone(lifetime: real, age1: real, age2: real)
    requires lifetime >= 0.0 && age1 <= age2
    ensures StageAt(lifetime, age1).Ordinal() <= StageAt(lifetime, age2).Ordinal()
  {
  }

  /** A star with a positive mass passes through the stages in order. */
  lemma EvolutionaryStageMonotone(m: MathLib, mass: real, age1: real, age2: real)
    requires m.Lawful()
    requires mass > 0.0 && age1 <= age2
    ensures EvolutionaryStage(m, mass, age1).Ordinal() <= EvolutionaryStage(m, mass, age2).Ordinal()
  {
    StageMonotone(MainSequenceLifetime(m, mass), age1, age2);
  }

  datatype ZoneShift = ZoneShift(current: ClimateModel.Zone, future: ClimateModel.Zone, hasMoved: bool)

  /** `calculateEvolvingHabitableZone`: the habitable zone now and one billion years from now. */
  function EvolvingHabitableZone(m: MathLib, starMass: real, currentAge: real): (z: ZoneShift)
    requires m.Lawful()
    ensures z.current == ClimateModel.HabitableZone(m, Luminosity(m, starMass, currentAge))
    ensures z.future == ClimateModel.HabitableZone(m, Luminosity(m, starMass, currentAge + 1e9))
    ensures z.hasMoved <==>
      Abs(Luminosity(m, starMass, currentAge + 1e9) - Luminosity(m, starMass, currentAge)) > 0.1
    ensures starMass > 0.0 ==>
      z.current.inner < z.current.outer && z.future.inner < z.future.outer
  {
    var now := Luminosity(m, starMass, currentAge);
    var later := Luminosity(m, starMass, currentAge + 1e9);
    ZoneShift(
      ClimateModel.Zone(0.95 * m.sqrt(now), 1.37 * m.sqrt(now), 1.37 * m.sqrt(now) - 0.95 * m.sqrt(now)),
      ClimateModel.Zone(0.95 * m.sqrt(later), 1.37 * m.sqrt(later), 1.37 * m.sqrt(later) - 0.95 * m.sqrt(later)),
      Abs(later - now) > 0.1)
  }
}
