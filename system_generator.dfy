/**
 * The star-system generator of the Firestore service, without the Firestore
 * calls: orbital placement, planet-type banding, atmospheres, moons and
 * companion stars, the stability index, the quadrant and spectral-class
 * helpers, `generatePlanets` and the filters of `searchSystems`.
 *
 * `Math.random` is a parameter: a function `rand` from the draw number to a
 * value in [0, 1), or a record of the draws one planet consumes.
 */
module SystemGenerator {
  import opened Numeric
  import opened Wrappers
  import opened Galaxy
  import Constants
  import ClimateModel
  import StellarEvolution
  import OrbitalMechanics
  import MathUtils
  import RomanNumerals
  import Seqs
  import Text
  import CivilizationEvolution

  // ----- Orbital placement -----

  const BASE_DISTANCE: real := 0.4
  const BODE_MULTIPLIER: real := 1.7

  /** `calculateOrbitalDistance`: a Titius–Bode ladder 0.4, 0.4 + 1.7·2^(i−1). */
  function OrbitalDistance(index: nat): (d: real)
    ensures d >= BASE_DISTANCE
    ensures index == 0 <==> d == BASE_DISTANCE
  {
    PowerOfTwoAtLeastOne(if index == 0 then 0 else index - 1);
    if index == 0 then BASE_DISTANCE
    else BASE_DISTANCE + BODE_MULTIPLIER * Power(2.0, index - 1)
  }

  lemma {:induction false} PowerOfTwoAtLeastOne(n: nat)
    ensures Power(2.0, n) >= 1.0
  {
    if n > 0 {
      PowerOfTwoAtLeastOne(n - 1);
    }
  }

  /** Each planet lies farther out than the previous one. */
  lemma OrbitalDistanceStep(index: nat)
    ensures OrbitalDistance(index) < OrbitalDistance(index + 1)
  {
    if index > 0 {
      PowerOfTwoAtLeastOne(index - 1);
      assert Power(2.0, index) == 2.0 * Power(2.0, index - 1);
    }
  }

  /** The distances strictly increase with the index. */
  lemma {:induction false} OrbitalDistanceIncreasing(i: nat, j: nat)
    requires i < j
    ensures OrbitalDistance(i) < OrbitalDistance(j)
  {
    OrbitalDistanceStep(j - 1);
    if i < j - 1 {
      OrbitalDistanceIncreasing(i, j - 1);
    }
  }

  /** The second and third planets sit at 2.1 and 3.8 AU. */
  lemma OrbitalDistanceExamples()
    ensures OrbitalDistance(1) == 2.1 && OrbitalDistance(2) == 3.8
  {
    assert Power(2.0, 1) == 2.0 * Power(2.0, 0);
  }

  // ----- Planet types -----

  /**
   * `determinePlanetType`: by the relative position index/total, rocky in the
   * inner 30 %, oceanic or rocky (by `roll`, drawn only there) up to 60 %,
   * gaseous up to 80 %, icy beyond. The habitable zone argument is unused.
   */
  function DeterminePlanetType(index: nat, total: nat, roll: real): (t: string)
    requires total > 0
    ensures t in Constants.PLANET_TYPES
    ensures index == 0 ==> t == Constants.ROCOSO
    ensures t == Constants.GASEOSO <==> 0.6 <= index as real / total as real < 0.8
    ensures t == Constants.HELADO <==> index as real / total as real >= 0.8
    ensures t == Constants.OCEANICO <==> 0.3 <= index as real / total as real < 0.6 && roll > 0.3
  {
    var position := index as real / total as real;
    if position < 0.3 then Constants.ROCOSO
    else if position >= 0.3 && position < 0.6 then
      (if roll > 0.3 then Constants.OCEANICO else Constants.ROCOSO)
    else if position >= 0.6 && position < 0.8 then Constants.GASEOSO
    else Constants.HELADO
  }

  /** The band a type belongs to: rocky and oceanic 0, gaseous 1, icy 2. */
  function Band(planetType: string): nat {
    if planetType == Constants.GASEOSO then 1
    else if planetType == Constants.HELADO then 2
    else 0
  }

  /** Farther planets never fall in an inner band, whatever the rolls. */
  lemma PlanetTypeBandsMonotone(i: nat, j: nat, total: nat, roll1: real, roll2: real)
    requires total > 0 && i <= j
    ensures Band(DeterminePlanetType(i, total, roll1)) <= Band(DeterminePlanetType(j, total, roll2))
  {
    DivMonotone(i as real, j as real, total as real);
  }

  // ----- Atmospheres -----

  /**
   * `generateAtmosphere`: composition, albedo and pressure by planet type. A
   * rocky planet inside the habitable zone gets an Earth-like mix, outside a
   * CO₂ one; an unknown type keeps the empty base composition.
   */
  function GenerateAtmosphere(planetType: string, distance: real, zone: ClimateModel.Zone): (a: Atmosphere)
    ensures a.quality == 0.8
    ensures a.albedo == (if planetType == Constants.OCEANICO then 0.25 else 0.3)
    ensures a.pressure == (if planetType == Constants.GASEOSO then 100.0
                           else if planetType == Constants.HELADO then 0.1 else 1.0)
    ensures "O2" in a.composition <==>
      planetType == Constants.OCEANICO || (planetType == Constants.ROCOSO && zone.inner <= distance <= zone.outer)
    ensures planetType !in Constants.PLANET_TYPES ==> a.composition == map[]
  {
    if planetType == Constants.ROCOSO then
      if distance >= zone.inner && distance <= zone.outer then
        Atmosphere(map["N2" := 0.78, "O2" := 0.21, "CO2" := 0.01], 0.3, 1.0, 0.8)
      else
        Atmosphere(map["CO2" := 0.95, "N2" := 0.05], 0.3, 1.0, 0.8)
    else if planetType == Constants.OCEANICO then
      Atmosphere(map["N2" := 0.78, "O2" := 0.21, "H2O" := 0.01], 0.25, 1.0, 0.8)
    else if planetType == Constants.GASEOSO then
      Atmosphere(map["H2" := 0.90, "He" := 0.10], 0.3, 100.0, 0.8)
    else if planetType == Constants.HELADO then
      Atmosphere(map["CO2" := 0.95, "N2" := 0.05], 0.3, 0.1, 0.8)
    else
      Atmosphere(map[], 0.3, 1.0, 0.8)
  }

  // ----- Moons -----

  /** The number of moons: `floor(roll·10) + 5` for a gas giant, `floor(roll·3)` otherwise. */
  function MoonCount(planetType: string, roll: real): (n: nat)
    requires 0.0 <= roll < 1.0
    ensures planetType == Constants.GASEOSO ==> 5 <= n <= 14
    ensures planetType != Constants.GASEOSO ==> n <= 2
  {
    if planetType == Constants.GASEOSO then (roll * 10.0).Floor + 5 else (roll * 3.0).Floor
  }

  /** Moon `k` of planet `planetIndex`, from draws 1+4k … 4+4k (draw 0 is the count). */
  function MoonFrom(planetIndex: nat, k: nat, rand: nat -> real): Moon {
    Moon(planetIndex, k,
         rand(1 + 4 * k) * 0.1,
         rand(2 + 4 * k) * 0.5,
         0.001 + rand(3 + 4 * k) * 0.01,
         1.0 + rand(4 + 4 * k) * 30.0)
  }

  /** A moon's fields lie in the ranges its draws allow. */
  predicate MoonInRange(moon: Moon) {
    && 0.0 <= moon.mass < 0.1
    && 0.0 <= moon.radius < 0.5
    && 0.001 <= moon.distance < 0.011
    && 1.0 <= moon.orbitalPeriod < 31.0
  }

  ghost predicate UnitDraws(rand: nat -> real) {
    forall k: nat :: 0.0 <= rand(k) < 1.0
  }

  /**
   * `generateMoons`: the count, then one moon per iteration carrying the
   * planet index and its own index (its id `moon_{planetIndex}_{k}`).
   */
  method GenerateMoons(planetType: string, planetIndex: nat, rand: nat -> real) returns (moons: seq<Moon>)
    requires UnitDraws(rand)
    ensures |moons| == MoonCount(planetType, rand(0))
    ensures forall k :: 0 <= k < |moons| ==> moons[k] == MoonFrom(planetIndex, k, rand)
    ensures forall k :: 0 <= k < |moons| ==>
      moons[k].planetIndex == planetIndex && moons[k].index == k && MoonInRange(moons[k])
  {
    var count := MoonCount(planetType, rand(0));
    moons := [];
    var k := 0;
    while k < count
      invariant 0 <= k <= count
      invariant |moons| == k
      invariant forall j :: 0 <= j < k ==> moons[j] == MoonFrom(planetIndex, j, rand) && MoonInRange(moons[j])
    {
      var moon := MoonFrom(planetIndex, k, rand);
      assert 0.0 <= rand(1 + 4 * k) < 1.0 && 0.0 <= rand(2 + 4 * k) < 1.0;
      assert 0.0 <= rand(3 + 4 * k) < 1.0 && 0.0 <= rand(4 + 4 * k) < 1.0;
      moons := moons + [moon];
      k := k + 1;
    }
  }

  // ----- Companion stars -----

  datatype CompanionStar = CompanionStar(starType: string, mass: real, orbitDistance: real)

  /** No companion for 'single', one for 'binary', two for anything else. */
  function CompanionCount(multipleSystem: string): (n: nat)
    ensures n <= 2
    ensures n == 0 <==> multipleSystem == "single"
  {
    if multipleSystem == "single" then 0 else if multipleSystem == "binary" then 1 else 2
  }

  /** Companion `i`, from draws 3i (type), 3i+1 (mass) and 3i+2 (distance). */
  function CompanionFrom(starMass: real, i: nat, rand: nat -> real): CompanionStar {
    CompanionStar(if rand(3 * i) > 0.5 then "enana_roja" else "enana_amarilla",
                  starMass * (0.2 + rand(3 * i + 1) * 0.5),
                  10.0 + rand(3 * i + 2) * 100.0)
  }

  /** A companion's type is one of the two dwarfs, its distance in [10, 110) AU and its mass in [0.2, 0.7) of the primary. */
  predicate CompanionInRange(starMass: real, star: CompanionStar) {
    && (star.starType == "enana_roja" || star.starType == "enana_amarilla")
    && 10.0 <= star.orbitDistance < 110.0
    && (starMass > 0.0 ==> 0.2 * starMass <= star.mass < 0.7 * starMass)
  }

  /** Draws in [0, 1) give a companion within the ranges. */
  lemma CompanionFromInRange(starMass: real, i: nat, rand: nat -> real)
    requires UnitDraws(rand)
    ensures CompanionInRange(starMass, CompanionFrom(starMass, i, rand))
  {
    var r := rand(3 * i + 1);
    assert 0.0 <= r < 1.0 && 0.0 <= rand(3 * i + 2) < 1.0;
    if starMass > 0.0 {
      MulMonotone(starMass, 0.2, 0.2 + r * 0.5);
      MulPositive(starMass, 0.7 - (0.2 + r * 0.5));
      assert starMass * (0.7 - (0.2 + r * 0.5)) == 0.7 * starMass - starMass * (0.2 + r * 0.5);
    }
  }

  /** `generateMultipleStars`: the companions of a binary or multiple system. */
  method GenerateMultipleStars(multipleSystem: string, starMass: real, rand: nat -> real)
    returns (stars: seq<CompanionStar>)
    requires UnitDraws(rand)
    ensures |stars| == CompanionCount(multipleSystem)
    ensures forall i :: 0 <= i < |stars| ==> stars[i] == CompanionFrom(starMass, i, rand)
    ensures forall i :: 0 <= i < |stars| ==> CompanionInRange(starMass, stars[i])
  {
    stars := [];
    if multipleSystem == "single" {
      return;
    }
    var count := if multipleSystem == "binary" then 1 else 2;
    var i := 0;
    while i < count
      invariant 0 <= i <= count
      invariant |stars| == i
      invariant forall j :: 0 <= j < i ==> stars[j] == CompanionFrom(starMass, j, rand)
      invariant forall j :: 0 <= j < i ==> CompanionInRange(starMass, stars[j])
    {
      CompanionFromInRange(starMass, i, rand);
      stars := stars + [CompanionFrom(starMass, i, rand)];
      i := i + 1;
    }
  }

  // ----- Quadrant and spectral class -----

  const GALAXY_CENTER: real := 25000.0

  /**
   * `getQuadrant`: the plane split at (25000, 25000). A missing coordinate
   * compares false both ways, so it falls through to 'delta'.
   */
  function GetQuadrant(x: Option<real>, y: Option<real>): (q: string)
    ensures q == "alpha" <==> x.Some? && y.Some? && x.value < GALAXY_CENTER && y.value < GALAXY_CENTER
    ensures q == "beta" <==> x.Some? && y.Some? && x.value >= GALAXY_CENTER && y.value < GALAXY_CENTER
    ensures q == "gamma" <==> x.Some? && y.Some? && x.value < GALAXY_CENTER && y.value >= GALAXY_CENTER
    ensures q == "alpha" || q == "beta" || q == "gamma" || q == "delta"
  {
    if x.Some? && y.Some? && x.value < GALAXY_CENTER && y.value < GALAXY_CENTER then "alpha"
    else if x.Some? && y.Some? && x.value >= GALAXY_CENTER && y.value < GALAXY_CENTER then "beta"
    else if x.Some? && y.Some? && x.value < GALAXY_CENTER && y.value >= GALAXY_CENTER then "gamma"
    else "delta"
  }

  /** A point with both coordinates is 'delta' exactly in the upper-right quarter; a missing coordinate always is. */
  lemma QuadrantDelta(x: Option<real>, y: Option<real>)
    ensures x.None? || y.None? ==> GetQuadrant(x, y) == "delta"
    ensures x.Some? && y.Some? ==>
      (GetQuadrant(x, y) == "delta" <==> x.value >= GALAXY_CENTER && y.value >= GALAXY_CENTER)
  {
  }

  const SPECTRAL_CLASSES: map<string, string> := map[
    "enana_amarilla" := "G",
    "enana_roja" := "M",
    "gigante_azul" := "O",
    "gigante_roja" := "K",
    "enana_blanca" := "D"
  ]

  /** The firestore service's `getSpectralClass`: by star type, 'G' when unknown (the mass is unused). */
  function GetSpectralClass(starType: string): (c: string)
    ensures starType in SPECTRAL_CLASSES ==> c == SPECTRAL_CLASSES[starType]
    ensures starType !in SPECTRAL_CLASSES ==> c == "G"
  {
    if starType in SPECTRAL_CLASSES then SPECTRAL_CLASSES[starType] else "G"
  }

  /** Every star type of the table has its own class, and every class is one letter. */
  lemma SpectralClassCoversStarTypes(starType: string)
    ensures starType in Constants.STAR_TYPES <==> starType in SPECTRAL_CLASSES
    ensures |GetSpectralClass(starType)| == 1
  {
  }

  // ----- System stability -----

  /** A '2:1' or '3:1' resonance. */
  predicate Dangerous(r: OrbitalMechanics.Resonance) {
    r.q == 1 && (r.p == 2 || r.p == 3)
  }

  /** The number of dangerous resonances among the first `n`. */
  function DangerousUpTo(resonances: seq<OrbitalMechanics.Resonance>, n: nat): (c: nat)
    requires n <= |resonances|
    ensures c <= n
  {
    if n == 0 then 0
    else DangerousUpTo(resonances, n - 1) + (if Dangerous(resonances[n - 1]) then 1 else 0)
  }

  /** `!isOrbitStable`: some other planet perturbs this one. */
  predicate Unstable(m: MathLib, planet: OrbitalMechanics.OrbitalBody, starMass: real,
                     planets: seq<OrbitalMechanics.OrbitalBody>)
    requires m.Lawful() && starMass != 0.0
  {
    exists k :: 0 <= k < |planets| && OrbitalMechanics.Perturbs(m, planet, starMass, planets[k])
  }

  /** The number of unstable planets among the first `n`, each checked against the whole system. */
  function UnstableUpTo(m: MathLib, planets: seq<OrbitalMechanics.OrbitalBody>, starMass: real, n: nat): (c: nat)
    requires m.Lawful() && starMass != 0.0
    requires n <= |planets|
    ensures c <= n
  {
    if n == 0 then 0
    else UnstableUpTo(m, planets, starMass, n - 1) + (if Unstable(m, planets[n - 1], starMass, planets) then 1 else 0)
  }

  /**
   * The stability index: 0.8 per dangerous resonance times 0.5 per unstable
   * planet, floored at 0.1.
   */
  function StabilityIndex(m: MathLib, planets: seq<OrbitalMechanics.OrbitalBody>, starMass: real): (s: real)
    requires m.Lawful() && starMass != 0.0
    ensures 0.1 <= s <= 1.0
  {
    var resonances := OrbitalMechanics.Resonances(planets);
    var d := DangerousUpTo(resonances, |resonances|);
    var u := UnstableUpTo(m, planets, starMass, |planets|);
    PowerInUnit(0.8, d);
    PowerInUnit(0.5, u);
    ProductInUnit(Power(0.8, d), Power(0.5, u));
    Max(0.1, Penalty(d, u))
  }

  lemma ProductInUnit(a: real, b: real)
    requires 0.0 < a <= 1.0 && 0.0 < b <= 1.0
    ensures 0.0 < a * b <= 1.0
    ensures a * b == 1.0 <==> a == 1.0 && b == 1.0
  {
    MulMonotone(a, b, 1.0);
    MulPositive(a, b);
    if a < 1.0 {
      assert a * b < b by { MulPositive(1.0 - a, b); }
    }
  }

  lemma {:induction false} PowerBelowOne(base: real, n: nat)
    requires 0.0 < base < 1.0 && n > 0
    ensures Power(base, n) < 1.0
  {
    PowerInUnit(base, n - 1);
    MulMonotone(Power(base, n - 1), base, 1.0);
  }

  /** The index is 1 exactly when there is no dangerous resonance and no unstable planet. */
  lemma FullStabilityIff(m: MathLib, planets: seq<OrbitalMechanics.OrbitalBody>, starMass: real)
    requires m.Lawful() && starMass != 0.0
    ensures StabilityIndex(m, planets, starMass) == 1.0 <==>
      DangerousUpTo(OrbitalMechanics.Resonances(planets), |OrbitalMechanics.Resonances(planets)|) == 0
      && UnstableUpTo(m, planets, starMass, |planets|) == 0
  {
    var resonances := OrbitalMechanics.Resonances(planets);
    var d := DangerousUpTo(resonances, |resonances|);
    var u := UnstableUpTo(m, planets, starMass, |planets|);
    PowerInUnit(0.8, d);
    PowerInUnit(0.5, u);
    ProductInUnit(Power(0.8, d), Power(0.5, u));
    if d > 0 {
      PowerBelowOne(0.8, d);
    }
    if u > 0 {
      PowerBelowOne(0.5, u);
    }
  }

  lemma {:induction false} NoPerturbationNoUnstable(m: MathLib, planets: seq<OrbitalMechanics.OrbitalBody>,
                                                     starMass: real, n: nat)
    requires m.Lawful() && starMass != 0.0 && n <= |planets|
    requires forall k :: 0 <= k < |planets| ==> planets[k].id.None?
    ensures UnstableUpTo(m, planets, starMass, n) == 0
  {
    if n > 0 {
      NoPerturbationNoUnstable(m, planets, starMass, n - 1);
      OrbitalMechanics.UnidentifiedPlanetsNeverPerturb(m, planets[n - 1], starMass, planets);
    }
  }

  /**
   * Planets without `id` and `orbitalPeriod` fields, which is how
   * `generatePlanets` builds them, always get the full index 1.0.
   */
  lemma GeneratedSystemFullyStable(m: MathLib, planets: seq<OrbitalMechanics.OrbitalBody>, starMass: real)
    requires m.Lawful() && starMass != 0.0
    requires forall k :: 0 <= k < |planets| ==> planets[k].id.None? && planets[k].orbitalPeriod.None?
    ensures StabilityIndex(m, planets, starMass) == 1.0
  {
    OrbitalMechanics.NoPeriodsNoResonances(planets);
    NoPerturbationNoUnstable(m, planets, starMass, |planets|);
    FullStabilityIff(m, planets, starMass);
  }

  /** The product 0.8^d · 0.5^u before the floor. */
  function Penalty(d: nat, u: nat): real {
    Power(0.8, d) * Power(0.5, u)
  }

  lemma HalvingStep(d: nat, u: nat)
    ensures Penalty(d, u) * 0.5 == Penalty(d, u + 1)
  {
    assert Power(0.5, u + 1) == 0.5 * Power(0.5, u);
  }

  /**
   * `calculateSystemStability`: multiplies 1.0 by 0.8 for each dangerous
   * resonance `findOrbitalResonances` reports, then by 0.5 for each planet
   * `isOrbitStable` rejects, and floors the product at 0.1.
   */
  method CalculateSystemStability(m: MathLib, planets: seq<OrbitalMechanics.OrbitalBody>, starMass: real)
    returns (stability: real)
    requires m.Lawful() && starMass != 0.0
    ensures stability == StabilityIndex(m, planets, starMass)
  {
    stability := 1.0;
    var resonances := OrbitalMechanics.FindOrbitalResonances(planets);
    var k := 0;
    while k < |resonances|
      invariant 0 <= k <= |resonances|
      invariant stability == Power(0.8, DangerousUpTo(resonances, k))
    {
      if Dangerous(resonances[k]) {
        stability := stability * 0.8;
      }
      k := k + 1;
    }
    ghost var d := DangerousUpTo(resonances, |resonances|);
    ghost var u: nat := 0;
    var i := 0;
    while i < |planets|
      invariant 0 <= i <= |planets|
      invariant u == UnstableUpTo(m, planets, starMass, i)
      invariant stability == Penalty(d, u)
    {
      var stable := OrbitalMechanics.IsOrbitStable(m, planets[i], starMass, planets);
      if !stable {
        HalvingStep(d, u);
        stability := stability * 0.5;
        u := u + 1;
      }
      i := i + 1;
    }
    stability := Max(0.1, stability);
  }

  // ----- Search filters -----

  /** The fields of a stored system the search reads: name, star type, planet count. */
  datatype Listing = Listing(name: string, starType: string, planetCount: int)

  /**
   * The query, lower-cased, occurs in the lower-cased name or star type. The
   * empty query matches every system, and a longer query than both fields
   * matches none.
   */
  predicate MatchesQuery(system: Listing, query: string): (b: bool)
    ensures query == "" ==> b
    ensures b ==> |query| <= |system.name| || |query| <= |system.starType|
  {
    assert query == "" ==> Text.OccursAt(Text.Lower(system.name), Text.Lower(query), 0);
    Text.Includes(Text.Lower(system.name), Text.Lower(query))
      || Text.Includes(Text.Lower(system.starType), Text.Lower(query))
  }

  /** The match ignores the case of the query: lower-casing it first changes nothing. */
  lemma QueryCaseInsensitive(system: Listing, query: string)
    ensures MatchesQuery(system, Text.Lower(query)) == MatchesQuery(system, query)
  {
    Text.LowerIdempotent(query);
  }

  /** A system is found by its own name, written in any case. */
  lemma FoundByOwnName(system: Listing, name: string)
    requires Text.Lower(name) == Text.Lower(system.name)
    ensures MatchesQuery(system, name)
  {
    assert Text.OccursAt(Text.Lower(system.name), Text.Lower(name), 0);
  }

  /**
   * A system passes every filter that is given; an empty query or star type
   * and a zero `minPlanets` are falsy and not applied.
   */
  predicate Selected(system: Listing, query: string, starType: string, minPlanets: int) {
    && (query != "" ==> MatchesQuery(system, query))
    && (starType != "" ==> system.starType == starType)
    && (minPlanets != 0 ==> system.planetCount >= minPlanets)
  }

  /** One filter of `searchSystems`, applied only when its argument is given. */
  function FilterIf(systems: seq<Listing>, given: bool, keep: Listing -> bool): (r: seq<Listing>)
    ensures multiset(r) <= multiset(systems)
  {
    if given then Seqs.FilterFacts(systems, keep); Seqs.Filter(systems, keep) else systems
  }

  /** A system survives a filter exactly when it was there and passes the filter's test, if given. */
  lemma FilterIfMembers(systems: seq<Listing>, given: bool, keep: Listing -> bool, x: Listing)
    ensures x in FilterIf(systems, given, keep) <==> x in systems && (given ==> keep(x))
  {
    if given {
      Seqs.FilterMembers(systems, keep, x);
    }
  }

  /** The tests of the three filters. */
  function QueryTest(query: string): Listing -> bool {
    (s: Listing) => MatchesQuery(s, query)
  }

  function TypeTest(starType: string): Listing -> bool {
    (s: Listing) => s.starType == starType
  }

  function PlanetsTest(minPlanets: int): Listing -> bool {
    (s: Listing) => s.planetCount >= minPlanets
  }

  /** The three filters of `searchSystems`, applied in turn to the fetched systems. */
  function SearchFilter(systems: seq<Listing>, query: string, starType: string, minPlanets: int): (r: seq<Listing>)
    ensures multiset(r) <= multiset(systems)
    ensures forall i :: 0 <= i < |r| ==> Selected(r[i], query, starType, minPlanets)
    ensures forall i :: 0 <= i < |systems| && Selected(systems[i], query, starType, minPlanets) ==> systems[i] in r
  {
    SearchFilterMembers(systems, query, starType, minPlanets);
    FilterIf(FilterIf(FilterIf(systems, query != "", QueryTest(query)), starType != "", TypeTest(starType)),
             minPlanets != 0, PlanetsTest(minPlanets))
  }

  lemma SearchFilterMembers(systems: seq<Listing>, query: string, starType: string, minPlanets: int)
    ensures var r := FilterIf(FilterIf(FilterIf(systems, query != "", QueryTest(query)), starType != "",
                                       TypeTest(starType)), minPlanets != 0, PlanetsTest(minPlanets));
      forall x :: x in r <==> x in systems && Selected(x, query, starType, minPlanets)
  {
    var byQuery := FilterIf(systems, query != "", QueryTest(query));
    var byType := FilterIf(byQuery, starType != "", TypeTest(starType));
    var r := FilterIf(byType, minPlanets != 0, PlanetsTest(minPlanets));
    forall x
      ensures x in r <==> x in systems && Selected(x, query, starType, minPlanets)
    {
      FilterIfMembers(systems, query != "", QueryTest(query), x);
      FilterIfMembers(byQuery, starType != "", TypeTest(starType), x);
      FilterIfMembers(byType, minPlanets != 0, PlanetsTest(minPlanets), x);
    }
  }

  // ----- Planet generation -----

  /** The fields of the creation form that the generator reads. */
  datatype SystemData = SystemData(
    name: string,
    starType: string,
    starMass: real,
    starAge: real,
    planetsCount: nat,
    governmentType: string,
    multipleSystem: string)

  /**
   * The random draws one planet consumes, in the order the source takes them:
   * the habitable-band type roll, the standard-normal variates for size, mass
   * and habitability, the orbit and rotation draws, and the moon draws.
   */
  datatype PlanetDraws = PlanetDraws(
    typeRoll: real,
    sizeVariates: seq<real>,
    massVariates: seq<real>,
    eccentricity: real,
    inclination: real,
    rotationPeriod: real,
    axialTilt: real,
    habitabilityVariates: seq<real>,
    moonRolls: nat -> real)

  /** Some variate yields a sample inside [min, max]: the rejection loop ends. */
  predicate Supplies(min: real, max: real, mean: Option<real>, stdDev: Option<real>, variates: seq<real>) {
    exists k :: 0 <= k < |variates| && MathUtils.Accepts(MathUtils.Sample(min, max, mean, stdDev, variates[k]), min, max)
  }

  const MASS_RANGE: Constants.Range := Constants.Range(0.1, 10.0)

  /** The draws for planet `index` of `total` are uniform draws in [0, 1) and every rejection loop ends. */
  ghost predicate Usable(total: nat, index: nat, d: PlanetDraws) {
    && index < total
    && 0.0 <= d.typeRoll < 1.0
    && 0.0 <= d.eccentricity < 1.0 && 0.0 <= d.inclination < 1.0
    && 0.0 <= d.rotationPeriod < 1.0 && 0.0 <= d.axialTilt < 1.0
    && UnitDraws(d.moonRolls)
    && var planetType := DeterminePlanetType(index, total, d.typeRoll);
       && Supplies(Constants.PLANET_TYPES[planetType].sizeRange.lo, Constants.PLANET_TYPES[planetType].sizeRange.hi,
                   None, None, d.sizeVariates)
       && Supplies(MASS_RANGE.lo, MASS_RANGE.hi, Some(1.0), Some(2.0), d.massVariates)
       && Supplies(Constants.PLANET_TYPES[planetType].habitability.lo,
                   Constants.PLANET_TYPES[planetType].habitability.hi, None, None, d.habitabilityVariates)
  }

  /** The seeded `resources`: metals, energy and rare elements, in that key order. */
  const SEED_RESOURCES: Resources := [
    ("metals", Resource(100000.0, 100.0, Some(1000), 100000.0, 0.0)),
    ("energy", Resource(50000.0, 0.0, None, 0.0, 50000.0)),
    ("rareElements", Resource(5000.0, 10.0, None, 5000.0, 0.0))
  ]

  const SEED_TECHNOLOGY: seq<(string, real)> := [
    ("energy", 1.0), ("computing", 1.0), ("biotechnology", 1.0),
    ("spaceTravel", 0.5), ("weapons", 0.5), ("medicine", 1.0)
  ]

  /** The seeded civilization: a million people, growth 1.02, happiness 70, stability 75, Kardashev 0.1. */
  function SeedCivilization(governmentType: string): Civilization {
    Civilization(1000000, 1.02, 70.0, 75.0, governmentType, SEED_TECHNOLOGY, 0.1)
  }

  /** A fresh planet's resources give the civilization rules a factor of 0.4 + 0.3 + 0.15 = 0.85. */
  lemma SeedResourceFactor()
    ensures CivilizationEvolution.Readable(SEED_RESOURCES)
    ensures CivilizationEvolution.Stocked(SEED_RESOURCES)
    ensures CivilizationEvolution.ResourceFactor(SEED_RESOURCES) == 0.85
  {
    assert Lookup(SEED_RESOURCES, "metals") == Some(SEED_RESOURCES[0].1);
    assert Lookup(SEED_RESOURCES, "energy") == Some(SEED_RESOURCES[1].1);
    assert Lookup(SEED_RESOURCES, "rareElements") == Some(SEED_RESOURCES[2].1);
  }

  /** The surface-temperature input: the generator passes only an albedo of 0.3. */
  const TEMPERATURE_ATMOSPHERE: ClimateModel.AtmosphereInput := ClimateModel.AtmosphereInput(Some(0.3), None, None)

  /** Everything `generatePlanets` promises about planet `index`. */
  ghost predicate Generated(m: MathLib, data: SystemData, index: nat, d: PlanetDraws, p: PlanetRecord)
    requires m.Lawful() && data.starMass != 0.0
    requires Usable(data.planetsCount, index, d)
  {
    var planetType := DeterminePlanetType(index, data.planetsCount, d.typeRoll);
    var distance := OrbitalDistance(index);
    var luminosity := StellarEvolution.Luminosity(m, data.starMass, data.starAge);
    && p.index == index
    && p.name == data.name + " " + RomanNumerals.Greedy(index + 1, 0)
    && p.planetType == planetType
    && Constants.PLANET_TYPES[planetType].sizeRange.Contains(p.size)
    && MASS_RANGE.Contains(p.mass)
    && p.orbit == Orbit(distance, d.eccentricity * 0.1, OrbitalMechanics.OrbitalPeriod(m, data.starMass, distance),
                        d.inclination * 10.0)
    && p.rotation == Rotation(10.0 + d.rotationPeriod * 30.0, d.axialTilt * 45.0)
    && p.conditions.temperature == ClimateModel.EquilibriumTemperature(m, luminosity, distance, TEMPERATURE_ATMOSPHERE)
    && p.conditions.atmosphere == GenerateAtmosphere(planetType, distance, ClimateModel.HabitableZone(m, luminosity))
    && p.conditions.pressure == ClimateModel.SurfacePressure(1.0, 1.0, Some(1.0))
    && Constants.PLANET_TYPES[planetType].habitability.Contains(p.conditions.habitability)
    && p.resources == SEED_RESOURCES
    && p.civilization == SeedCivilization(data.governmentType)
    && |p.moons| == MoonCount(planetType, d.moonRolls(0))
    && (forall k :: 0 <= k < |p.moons| ==> p.moons[k] == MoonFrom(index, k, d.moonRolls))
  }

  /** One iteration of `generatePlanets`' loop. */
  method GeneratePlanet(m: MathLib, data: SystemData, zone: ClimateModel.Zone, index: nat, d: PlanetDraws)
    returns (p: PlanetRecord)
    requires m.Lawful() && data.starMass != 0.0
    requires zone == ClimateModel.HabitableZone(m, StellarEvolution.Luminosity(m, data.starMass, data.starAge))
    requires Usable(data.planetsCount, index, d)
    ensures Generated(m, data, index, d, p)
  {
    var planetType := DeterminePlanetType(index, data.planetsCount, d.typeRoll);
    var distance := OrbitalDistance(index);
    var sizeRange := Constants.PLANET_TYPES[planetType].sizeRange;
    var habitabilityRange := Constants.PLANET_TYPES[planetType].habitability;
    var numeral := RomanNumerals.Romanize(index + 1);
    var size := MathUtils.NormalRange(sizeRange.lo, sizeRange.hi, None, None, d.sizeVariates);
    var mass := MathUtils.NormalRange(MASS_RANGE.lo, MASS_RANGE.hi, Some(1.0), Some(2.0), d.massVariates);
    var habitability := MathUtils.NormalRange(habitabilityRange.lo, habitabilityRange.hi, None, None,
                                              d.habitabilityVariates);
    var luminosity := StellarEvolution.Luminosity(m, data.starMass, data.starAge);
    var conditions := Conditions(
      ClimateModel.EquilibriumTemperature(m, luminosity, distance, TEMPERATURE_ATMOSPHERE),
      GenerateAtmosphere(planetType, distance, zone),
      ClimateModel.SurfacePressure(1.0, 1.0, Some(1.0)),
      habitability.value);
    var moons := GenerateMoons(planetType, index, d.moonRolls);
    p := PlanetRecord(
      index,
      data.name + " " + numeral,
      planetType,
      size.value,
      mass.value,
      Orbit(distance, d.eccentricity * 0.1, OrbitalMechanics.OrbitalPeriod(m, data.starMass, distance),
            d.inclination * 10.0),
      Rotation(10.0 + d.rotationPeriod * 30.0, d.axialTilt * 45.0),
      conditions,
      SEED_RESOURCES,
      SeedCivilization(data.governmentType),
      moons);
  }

  /**
   * `generatePlanets`: `planetsCount` planets in index order, planet `i` at
   * orbital distance `i`, named after the system with the numeral of `i + 1`,
   * with seeded resources and civilization.
   */
  method GeneratePlanets(m: MathLib, data: SystemData, draws: seq<PlanetDraws>) returns (planets: seq<PlanetRecord>)
    requires m.Lawful() && data.starMass != 0.0
    requires |draws| == data.planetsCount
    requires forall i :: 0 <= i < |draws| ==> Usable(data.planetsCount, i, draws[i])
    ensures |planets| == data.planetsCount
    ensures forall i :: 0 <= i < |planets| ==> Generated(m, data, i, draws[i], planets[i])
  {
    var luminosity := StellarEvolution.Luminosity(m, data.starMass, data.starAge);
    var zone := ClimateModel.HabitableZone(m, luminosity);
    planets := [];
    var i := 0;
    while i < data.planetsCount
      invariant 0 <= i <= data.planetsCount
      invariant |planets| == i
      invariant forall j :: 0 <= j < i ==> Generated(m, data, j, draws[j], planets[j])
    {
      var planet := GeneratePlanet(m, data, zone, i, draws[i]);
      planets := planets + [planet];
      i := i + 1;
    }
  }

  /** The view of a generated planet that the orbit checks read: no `id`, no `orbitalPeriod`. */
  function AsOrbitalBody(p: PlanetRecord): (b: OrbitalMechanics.OrbitalBody)
    ensures b.id.None? && b.orbitalPeriod.None?
    ensures b.mass == p.mass && b.semiMajorAxis == p.orbit.semiMajorAxis
  {
    OrbitalMechanics.OrbitalBody(None, p.mass, p.orbit.semiMajorAxis, None)
  }

  /**
   * What the generated system then looks like: planets farther out in index
   * order, each numeral reading back as its position, and a stability index
   * of 1.0.
   */
  lemma GeneratedPlanetsProperties(m: MathLib, data: SystemData, draws: seq<PlanetDraws>, planets: seq<PlanetRecord>)
    requires m.Lawful() && data.starMass != 0.0
    requires |draws| == data.planetsCount == |planets|
    requires forall i :: 0 <= i < |draws| ==> Usable(data.planetsCount, i, draws[i])
    requires forall i :: 0 <= i < |planets| ==> Generated(m, data, i, draws[i], planets[i])
    ensures forall i, j :: 0 <= i < j < |planets| ==> planets[i].orbit.semiMajorAxis < planets[j].orbit.semiMajorAxis
    ensures forall i :: 0 <= i < |planets| ==>
      |planets[i].name| > |data.name| && RomanNumerals.Value(planets[i].name[|data.name| + 1..]) == i + 1
    ensures StabilityIndex(m, seq(|planets|, i requires 0 <= i < |planets| => AsOrbitalBody(planets[i])),
                           data.starMass) == 1.0
  {
    forall i, j | 0 <= i < j < |planets|
      ensures planets[i].orbit.semiMajorAxis < planets[j].orbit.semiMajorAxis
    {
      OrbitalDistanceIncreasing(i, j);
    }
    forall i | 0 <= i < |planets|
      ensures |planets[i].name| > |data.name| && RomanNumerals.Value(planets[i].name[|data.name| + 1..]) == i + 1
    {
      assert planets[i].name == data.name + " " + RomanNumerals.Greedy(i + 1, 0);
      assert planets[i].name[|data.name| + 1..] == RomanNumerals.Greedy(i + 1, 0);
      RomanNumerals.RoundTrip(i + 1);
    }
    var bodies := seq(|planets|, i requires 0 <= i < |planets| => AsOrbitalBody(planets[i]));
    GeneratedSystemFullyStable(m, bodies, data.starMass);
  }
}
