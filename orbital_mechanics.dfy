/**
 * Kepler periods, Hill-sphere orbit stability and the orbital-resonance scan.
 */
module OrbitalMechanics {
  import opened Numeric
  import opened Wrappers
  import Constants

  /**
   * A planet as these checks read it. `id` and `orbitalPeriod` are `None` when
   * the record lacks those fields, as the planets the system generator builds do
   * (they carry a `planetId` and an `orbit.period` instead).
   */
  datatype OrbitalBody = OrbitalBody(
    id: Option<string>,
    mass: real,
    semiMajorAxis: real,
    orbitalPeriod: Option<real>)

  /** Kepler's third law, T = √(4π²a³/(GM)), in years, for `semiMajorAxis` in AU and `centralMass` in solar masses. */
  function OrbitalPeriod(m: MathLib, centralMass: real, semiMajorAxis: real): (t: real)
    requires m.Lawful()
    requires centralMass != 0.0
    ensures centralMass > 0.0 && semiMajorAxis > 0.0 ==> t > 0.0
  {
    KeplerDenominatorNonZero(centralMass);
    var a := semiMajorAxis * Constants.AU;
    var t2 := 4.0 * PI * PI * (a * a * a) / (Constants.G * centralMass * Constants.SOLAR_MASS);
    KeplerSquarePositive(centralMass, semiMajorAxis);
    m.sqrt(t2) / Constants.YEAR_SECONDS
  }

  lemma KeplerDenominatorNonZero(centralMass: real)
    requires centralMass != 0.0
    ensures Constants.G * centralMass * Constants.SOLAR_MASS != 0.0
  {
    assert Constants.G > 0.0 && Constants.SOLAR_MASS > 0.0;
  }

  lemma KeplerSquarePositive(centralMass: real, semiMajorAxis: real)
    requires centralMass != 0.0
    ensures centralMass > 0.0 && semiMajorAxis > 0.0 ==>
      4.0 * PI * PI * ((semiMajorAxis * Constants.AU) * (semiMajorAxis * Constants.AU) * (semiMajorAxis * Constants.AU))
        / (Constants.G * centralMass * Constants.SOLAR_MASS) > 0.0
  {
    assert Constants.G > 0.0 && Constants.SOLAR_MASS > 0.0 && Constants.AU > 0.0 && PI > 0.0;
    if centralMass > 0.0 && semiMajorAxis > 0.0 {
      assert Constants.G * centralMass * Constants.SOLAR_MASS > 0.0;
      assert (semiMajorAxis * Constants.AU) * (semiMajorAxis * Constants.AU) * (semiMajorAxis * Constants.AU) > 0.0;
    }
  }

  /** The Hill radius a·∛(m/(3M)). */
  function HillSphere(m: MathLib, planetMass: real, starMass: real, distance: real): (r: real)
    requires m.Lawful()
    requires starMass != 0.0
    ensures planetMass >= 0.0 && starMass > 0.0 && distance >= 0.0 ==> r >= 0.0
  {
    var root := m.cbrt(planetMass / (3.0 * starMass));
    assert planetMass >= 0.0 && starMass > 0.0 ==> root >= 0.0;
    assert planetMass >= 0.0 && starMass > 0.0 && distance >= 0.0 ==> distance * root >= 0.0 by {
      if planetMass >= 0.0 && starMass > 0.0 && distance >= 0.0 {
        MulMonotone(distance, 0.0, root);
      }
    }
    distance * root
  }

  /** Another planet perturbs `planet` when it has a different id and lies within 3.5 Hill radii. */
  predicate Perturbs(m: MathLib, planet: OrbitalBody, starMass: real, other: OrbitalBody)
    requires m.Lawful()
    requires starMass != 0.0
  {
    other.id != planet.id
      && Abs(planet.semiMajorAxis - other.semiMajorAxis)
         < 3.5 * HillSphere(m, planet.mass, starMass, planet.semiMajorAxis)
  }

  /** `isOrbitStable`: scans the other planets and stops at the first that perturbs the orbit. */
  method IsOrbitStable(m: MathLib, planet: OrbitalBody, starMass: real, otherPlanets: seq<OrbitalBody>)
    returns (stable: bool)
    requires m.Lawful()
    requires starMass != 0.0
    ensures !stable <==> exists k :: 0 <= k < |otherPlanets| && Perturbs(m, planet, starMass, otherPlanets[k])
  {
    var hillRadius := HillSphere(m, planet.mass, starMass, planet.semiMajorAxis);
    var k := 0;
    while k < |otherPlanets|
      invariant 0 <= k <= |otherPlanets|
      invariant forall i :: 0 <= i < k ==> !Perturbs(m, planet, starMass, otherPlanets[i])
    {
      var other := otherPlanets[k];
      if other.id != planet.id {
        var distance := Abs(planet.semiMajorAxis - other.semiMajorAxis);
        if distance < 3.5 * hillRadius {
          return false;
        }
      }
      k := k + 1;
    }
    return true;
  }

  /**
   * When no planet carries an `id` (all are `None`), every comparison is
   * skipped, so every orbit counts as stable.
   */
  lemma UnidentifiedPlanetsNeverPerturb(m: MathLib, planet: OrbitalBody, starMass: real, otherPlanets: seq<OrbitalBody>)
    requires m.Lawful()
    requires starMass != 0.0
    requires planet.id.None?
    requires forall k :: 0 <= k < |otherPlanets| ==> otherPlanets[k].id.None?
    ensures !exists k :: 0 <= k < |otherPlanets| && Perturbs(m, planet, starMass, otherPlanets[k])
  {
  }

  /** The resonances looked for, as p:q, in scan order. */
  const RESONANCE_TABLE: seq<(nat, nat)> := [(2, 1), (3, 2), (3, 1), (4, 3), (5, 4), (5, 2)]
  const TOLERANCE: real := 0.02

  /** A detected resonance between two planets. */
  datatype Resonance = Resonance(
    planets: (Option<string>, Option<string>),
    p: nat,
    q: nat,
    exactRatio: real,
    strength: real)

  function TableRatio(k: nat): real
    requires k < |RESONANCE_TABLE|
  {
    RESONANCE_TABLE[k].0 as real / RESONANCE_TABLE[k].1 as real
  }

  /** The period ratio of two planets; `None` when a period is missing or the divisor is zero (NaN or infinity in JS, which never matches). */
  function PeriodRatio(a: OrbitalBody, b: OrbitalBody): Option<real> {
    if a.orbitalPeriod.Some? && b.orbitalPeriod.Some? && b.orbitalPeriod.value != 0.0
    then Some(a.orbitalPeriod.value / b.orbitalPeriod.value)
    else None
  }

  predicate Matches(a: OrbitalBody, b: OrbitalBody, k: nat)
    requires k < |RESONANCE_TABLE|
  {
    PeriodRatio(a, b).Some? && Abs(PeriodRatio(a, b).value - TableRatio(k)) < TOLERANCE
  }

  /** The resonances of the pair (a, b) among the first `k` table entries. */
  function PairUpTo(a: OrbitalBody, b: OrbitalBody, k: nat): seq<Resonance>
    requires k <= |RESONANCE_TABLE|
  {
    if k == 0 then []
    else
      PairUpTo(a, b, k - 1)
        + if Matches(a, b, k - 1) then
            var ratio := PeriodRatio(a, b).value;
            [Resonance((a.id, b.id), RESONANCE_TABLE[k - 1].0, RESONANCE_TABLE[k - 1].1, ratio,
                       1.0 - Abs(ratio - TableRatio(k - 1)) / TOLERANCE)]
          else []
  }

  function PairResonances(a: OrbitalBody, b: OrbitalBody): seq<Resonance> {
    PairUpTo(a, b, |RESONANCE_TABLE|)
  }

  /** What the scan of one pair reports; the row functions below take it as a parameter. */
  type PairScan = (OrbitalBody, OrbitalBody) -> seq<Resonance>

  /** The resonances of planet `i` with planets i+1 .. j-1, in order. */
  function RowUpTo(planets: seq<OrbitalBody>, pair: PairScan, i: nat, j: nat): seq<Resonance>
    requires i < j <= |planets|
    decreases j
  {
    if j == i + 1 then [] else RowUpTo(planets, pair, i, j - 1) + pair(planets[i], planets[j - 1])
  }

  /** The resonances of the rows of planets 0 .. i-1. */
  function RowsUpTo(planets: seq<OrbitalBody>, pair: PairScan, i: nat): seq<Resonance>
    requires i <= |planets|
  {
    if i == 0 then [] else RowsUpTo(planets, pair, i - 1) + RowUpTo(planets, pair, i - 1, |planets|)
  }

  /** All resonances, ordered by the first planet, then the second, then the table. */
  function Resonances(planets: seq<OrbitalBody>): seq<Resonance> {
    RowsUpTo(planets, PairResonances, |planets|)
  }

  lemma RowStep(planets: seq<OrbitalBody>, pair: PairScan, i: nat, j: nat)
    requires i < j < |planets|
    ensures RowUpTo(planets, pair, i, j + 1) == RowUpTo(planets, pair, i, j) + pair(planets[i], planets[j])
  {
  }

  lemma RowsStep(planets: seq<OrbitalBody>, pair: PairScan, i: nat)
    requires i < |planets|
    ensures RowsUpTo(planets, pair, i + 1) == RowsUpTo(planets, pair, i) + RowUpTo(planets, pair, i, |planets|)
  {
  }

  /** The innermost loop of `findOrbitalResonances`: the table scan for one pair. */
  method ScanPair(a: OrbitalBody, b: OrbitalBody) returns (found: seq<Resonance>)
    ensures found == PairResonances(a, b)
  {
    var ratio := PeriodRatio(a, b);
    found := [];
    var k := 0;
    while k < |RESONANCE_TABLE|
      invariant 0 <= k <= |RESONANCE_TABLE|
      invariant found == PairUpTo(a, b, k)
    {
      var (p, q) := RESONANCE_TABLE[k];
      if ratio.Some? && Abs(ratio.value - p as real / q as real) < TOLERANCE {
        found := found + [Resonance((a.id, b.id), p, q, ratio.value,
                                    1.0 - Abs(ratio.value - p as real / q as real) / TOLERANCE)];
      }
      k := k + 1;
    }
  }

  /** The middle loop of `findOrbitalResonances`: planet `i` against every later planet. */
  method ScanRow(planets: seq<OrbitalBody>, i: nat) returns (row: seq<Resonance>)
    requires i < |planets|
    ensures row == RowUpTo(planets, PairResonances, i, |planets|)
  {
    row := [];
    var j := i + 1;
    while j < |planets|
      invariant i + 1 <= j <= |planets|
      invariant row == RowUpTo(planets, PairResonances, i, j)
    {
      var found := ScanPair(planets[i], planets[j]);
      RowStep(planets, PairResonances, i, j);
      row := row + found;
      j := j + 1;
    }
  }

  /**
   * `findOrbitalResonances`: the nested scan over pairs i < j and the table,
   * pushing onto one list (appending each row's finds is the same sequence of pushes).
   */
  method FindOrbitalResonances(planets: seq<OrbitalBody>) returns (resonances: seq<Resonance>)
    ensures resonances == Resonances(planets)
  {
    resonances := [];
    var i := 0;
    while i < |planets|
      invariant 0 <= i <= |planets|
      invariant resonances == RowsUpTo(planets, PairResonances, i)
    {
      var row := ScanRow(planets, i);
      RowsStep(planets, PairResonances, i);
      resonances := resonances + row;
      i := i + 1;
    }
  }

  /** The table ratios are more than twice the tolerance apart, so no ratio is near two of them. */
  lemma TableRatiosSeparated(k1: nat, k2: nat)
    requires k1 < |RESONANCE_TABLE| && k2 < |RESONANCE_TABLE| && k1 != k2
    ensures Abs(TableRatio(k1) - TableRatio(k2)) > 2.0 * TOLERANCE
  {
  }

  lemma {:induction false} PairUpToNonEmptyHasMatch(a: OrbitalBody, b: OrbitalBody, k: nat)
    requires k <= |RESONANCE_TABLE|
    ensures |PairUpTo(a, b, k)| <= 1
    ensures |PairUpTo(a, b, k)| == 1 ==> exists i :: 0 <= i < k && Matches(a, b, i)
  {
    if k > 0 {
      PairUpToNonEmptyHasMatch(a, b, k - 1);
      if |PairUpTo(a, b, k - 1)| == 1 && Matches(a, b, k - 1) {
        var i :| 0 <= i < k - 1 && Matches(a, b, i);
        TableRatiosSeparated(i, k - 1);
        assert false;
      }
    }
  }

  /** Each pair of planets is in at most one resonance. */
  lemma AtMostOneResonancePerPair(a: OrbitalBody, b: OrbitalBody)
    ensures |PairResonances(a, b)| <= 1
  {
    PairUpToNonEmptyHasMatch(a, b, |RESONANCE_TABLE|);
  }

  /** A pair is reported for p:q exactly when its period ratio is within the tolerance of p/q. */
  lemma {:induction false} PairUpToCharacterized(a: OrbitalBody, b: OrbitalBody, k: nat)
    requires k <= |RESONANCE_TABLE|
    ensures forall r :: r in PairUpTo(a, b, k) ==>
      && PeriodRatio(a, b) == Some(r.exactRatio)
      && r.planets == (a.id, b.id)
      && r.q > 0
      && Abs(r.exactRatio - r.p as real / r.q as real) < TOLERANCE
      && r.strength == 1.0 - Abs(r.exactRatio - r.p as real / r.q as real) / TOLERANCE
      && 0.0 < r.strength <= 1.0
    ensures forall i :: 0 <= i < k && Matches(a, b, i) ==>
      exists r :: r in PairUpTo(a, b, k) && r.p == RESONANCE_TABLE[i].0 && r.q == RESONANCE_TABLE[i].1
  {
    if k > 0 {
      PairUpToCharacterized(a, b, k - 1);
    }
  }

  /** A planet without a usable period takes part in no resonance. */
  lemma MissingPeriodNoResonance(a: OrbitalBody, b: OrbitalBody)
    requires a.orbitalPeriod.None? || b.orbitalPeriod.None?
    ensures PairResonances(a, b) == []
  {
    assert forall k :: 0 <= k <= |RESONANCE_TABLE| ==> PairUpTo(a, b, k) == [] by {
      forall k | 0 <= k <= |RESONANCE_TABLE|
        ensures PairUpTo(a, b, k) == []
      {
        PairUpToEmptyWithoutRatio(a, b, k);
      }
    }
  }

  lemma {:induction false} PairUpToEmptyWithoutRatio(a: OrbitalBody, b: OrbitalBody, k: nat)
    requires k <= |RESONANCE_TABLE|
    requires PeriodRatio(a, b).None? || PeriodRatio(a, b).value < 1.0
    ensures PairUpTo(a, b, k) == []
  {
    if k > 0 {
      PairUpToEmptyWithoutRatio(a, b, k - 1);
      assert TableRatio(k - 1) >= 1.25;
    }
  }

  /** An inner planet with the shorter period is never in resonance with an outer one. */
  lemma ShorterPeriodNoResonance(a: OrbitalBody, b: OrbitalBody)
    requires a.orbitalPeriod.Some? && b.orbitalPeriod.Some?
    requires 0.0 < a.orbitalPeriod.value < b.orbitalPeriod.value
    ensures PairResonances(a, b) == []
  {
    var x, y := a.orbitalPeriod.value, b.orbitalPeriod.value;
    assert x / y < 1.0 by {
      assert x / y * y == x;
      if x / y >= 1.0 {
        MulMonotone(y, 1.0, x / y);
      }
    }
    PairUpToEmptyWithoutRatio(a, b, |RESONANCE_TABLE|);
  }

  /** A resonance record of the whole scan is within tolerance, with a strength in (0, 1]. */
  predicate WellFormed(r: Resonance) {
    && r.q > 0
    && Abs(r.exactRatio - r.p as real / r.q as real) < TOLERANCE
    && 0.0 < r.strength <= 1.0
  }

  /** A pair scan that reports at most one well-formed resonance per pair. */
  ghost predicate ScanWellFormed(pair: PairScan) {
    forall a, b :: |pair(a, b)| <= 1 && AllWellFormed(pair(a, b))
  }

  ghost predicate AllWellFormed(s: seq<Resonance>) {
    forall r :: r in s ==> WellFormed(r)
  }

  lemma AllWellFormedAppend(s: seq<Resonance>, t: seq<Resonance>)
    requires AllWellFormed(s) && AllWellFormed(t)
    ensures AllWellFormed(s + t)
  {
  }

  lemma {:induction false} RowUpToWellFormed(planets: seq<OrbitalBody>, pair: PairScan, i: nat, j: nat)
    requires i < j <= |planets|
    requires ScanWellFormed(pair)
    ensures AllWellFormed(RowUpTo(planets, pair, i, j))
    ensures |RowUpTo(planets, pair, i, j)| <= j - i - 1
    decreases j
  {
    if j > i + 1 {
      RowUpToWellFormed(planets, pair, i, j - 1);
      assert |pair(planets[i], planets[j - 1])| <= 1 && AllWellFormed(pair(planets[i], planets[j - 1]));
      AllWellFormedAppend(RowUpTo(planets, pair, i, j - 1), pair(planets[i], planets[j - 1]));
    }
  }

  /** Rows of well-formed resonances concatenate to well-formed resonances. */
  lemma {:induction false} RowsUpToWellFormed(planets: seq<OrbitalBody>, pair: PairScan, i: nat)
    requires i <= |planets|
    requires forall r :: 0 <= r < i ==> AllWellFormed(RowUpTo(planets, pair, r, |planets|))
    ensures AllWellFormed(RowsUpTo(planets, pair, i))
  {
    if i > 0 {
      RowsUpToWellFormed(planets, pair, i - 1);
      AllWellFormedAppend(RowsUpTo(planets, pair, i - 1), RowUpTo(planets, pair, i - 1, |planets|));
    }
  }

  /** The bound (n-1) + (n-2) + ... + (n-i) on the pairs of rows 0 .. i-1, doubled. */
  function PairBound(i: int, n: int): int {
    i * (2 * n - i - 1)
  }

  /** Adding row i-1's bound to the bound of the rows before it. */
  lemma PairBoundStep(i: int, n: int)
    ensures PairBound(i - 1, n) + 2 * (n - i) == PairBound(i, n)
  {
  }

  /** Sum of the row bounds: row r holds at most n-r-1 resonances. */
  lemma {:induction false} RowsUpToCount(planets: seq<OrbitalBody>, pair: PairScan, i: nat)
    requires i <= |planets|
    requires forall r :: 0 <= r < i ==> |RowUpTo(planets, pair, r, |planets|)| <= |planets| - r - 1
    ensures 2 * |RowsUpTo(planets, pair, i)| <= PairBound(i, |planets|)
  {
    if i > 0 {
      RowsUpToCount(planets, pair, i - 1);
      PairBoundStep(i, |planets|);
    }
  }

  /**
   * Every reported resonance is within the tolerance and has a strength in
   * (0, 1], and there is at most one per unordered pair of planets.
   */
  lemma ResonancesBounded(planets: seq<OrbitalBody>)
    ensures forall r :: r in Resonances(planets) ==> WellFormed(r)
    ensures 2 * |Resonances(planets)| <= |planets| * (|planets| - 1)
  {
    forall a, b
      ensures |PairResonances(a, b)| <= 1 && AllWellFormed(PairResonances(a, b))
    {
      PairUpToCharacterized(a, b, |RESONANCE_TABLE|);
      AtMostOneResonancePerPair(a, b);
    }
    forall r | 0 <= r < |planets|
      ensures AllWellFormed(RowUpTo(planets, PairResonances, r, |planets|))
      ensures |RowUpTo(planets, PairResonances, r, |planets|)| <= |planets| - r - 1
    {
      RowUpToWellFormed(planets, PairResonances, r, |planets|);
    }
    RowsUpToWellFormed(planets, PairResonances, |planets|);
    RowsUpToCount(planets, PairResonances, |planets|);
  }


  /** Every planet has a positive period, and periods strictly increase along the list. */
  predicate IncreasingPeriods(planets: seq<OrbitalBody>) {
    && (forall k :: 0 <= k < |planets| ==> planets[k].orbitalPeriod.Some?)
    && (forall k, l :: 0 <= k < l < |planets| ==>
          0.0 < planets[k].orbitalPeriod.value < planets[l].orbitalPeriod.value)
  }

  /** The scan reports nothing for any pair i < j of the list. */
  ghost predicate QuietPairs(planets: seq<OrbitalBody>, pair: PairScan) {
    forall i, j :: 0 <= i < j < |planets| ==> pair(planets[i], planets[j]) == []
  }

  lemma {:induction false} QuietRowEmpty(planets: seq<OrbitalBody>, pair: PairScan, i: nat, j: nat)
    requires i < j <= |planets|
    requires QuietPairs(planets, pair)
    ensures RowUpTo(planets, pair, i, j) == []
    decreases j
  {
    if j > i + 1 {
      QuietRowEmpty(planets, pair, i, j - 1);
      assert pair(planets[i], planets[j - 1]) == [];
    }
  }

  lemma {:induction false} EmptyRowsEmpty(planets: seq<OrbitalBody>, pair: PairScan, i: nat)
    requires i <= |planets|
    requires forall r :: 0 <= r < i ==> RowUpTo(planets, pair, r, |planets|) == []
    ensures RowsUpTo(planets, pair, i) == []
  {
    if i > 0 {
      EmptyRowsEmpty(planets, pair, i - 1);
    }
  }

  /** A scan that reports nothing for any pair finds no resonances. */
  lemma QuietNoResonances(planets: seq<OrbitalBody>)
    requires QuietPairs(planets, PairResonances)
    ensures Resonances(planets) == []
  {
    forall r | 0 <= r < |planets|
      ensures RowUpTo(planets, PairResonances, r, |planets|) == []
    {
      QuietRowEmpty(planets, PairResonances, r, |planets|);
    }
    EmptyRowsEmpty(planets, PairResonances, |planets|);
  }

  /** Planets listed by strictly increasing period have every ratio below 1, hence no resonances. */
  lemma IncreasingPeriodsNoResonances(planets: seq<OrbitalBody>)
    requires IncreasingPeriods(planets)
    ensures Resonances(planets) == []
  {
    forall i, j | 0 <= i < j < |planets|
      ensures PairResonances(planets[i], planets[j]) == []
    {
      ShorterPeriodNoResonance(planets[i], planets[j]);
    }
    QuietNoResonances(planets);
  }

  /** Planets without an `orbitalPeriod` field (the generated ones) yield no resonances at all. */
  lemma NoPeriodsNoResonances(planets: seq<OrbitalBody>)
    requires forall k :: 0 <= k < |planets| ==> planets[k].orbitalPeriod.None?
    ensures Resonances(planets) == []
  {
    forall i, j | 0 <= i < j < |planets|
      ensures PairResonances(planets[i], planets[j]) == []
    {
      MissingPeriodNoResonance(planets[i], planets[j]);
    }
    QuietNoResonances(planets);
  }
}
