/**
 * Comets: generation, threat scoring, orbital motion and collision detection.
 */
module CelestialDynamics {
  import opened Numeric
  import opened Wrappers
  import Vectors
  import OrbitalMechanics

  /** The threat of an orbit with the given perihelion (AU) and eccentricity. */
  function ThreatFromPerihelion(perihelion: real, eccentricity: real): (threat: real)
    ensures 0.0 <= threat <= 1.0
    ensures threat == 0.0 <==> perihelion >= 1.0 && eccentricity <= 0.9
  {
    var crossing := if perihelion < 1.0 then 0.6 else 0.0;
    var grazing := if perihelion < 0.5 then 0.3 else 0.0;
    var eccentric := if eccentricity > 0.9 then 0.1 else 0.0;
    Min(1.0, crossing + grazing + eccentric)
  }

  /** `calculateThreatLevel`: +0.6 inside 1 AU, +0.3 inside 0.5 AU, +0.1 above eccentricity 0.9, capped at 1. */
  function ThreatLevel(semiMajorAxis: real, eccentricity: real): (threat: real)
    ensures 0.0 <= threat <= 1.0
    ensures threat == ThreatFromPerihelion(semiMajorAxis * (1.0 - eccentricity), eccentricity)
  {
    ThreatFromPerihelion(semiMajorAxis * (1.0 - eccentricity), eccentricity)
  }

  /** For a fixed eccentricity, a closer perihelion is never less threatening. */
  lemma ThreatNonIncreasingInPerihelion(p1: real, p2: real, eccentricity: real)
    requires p1 <= p2
    ensures ThreatFromPerihelion(p2, eccentricity) <= ThreatFromPerihelion(p1, eccentricity)
  {
  }

  /** The uniform draws `generateComet` takes from `Math.random`, in call order (the id and name draws are not modelled). */
  datatype CometRolls = CometRolls(
    axis: real, eccentricity: real, inclination: real, size: real, ice: real, dust: real, organic: real)
  {
    predicate InUnitInterval() {
      && 0.0 <= axis < 1.0 && 0.0 <= eccentricity < 1.0 && 0.0 <= inclination < 1.0
      && 0.0 <= size < 1.0 && 0.0 <= ice < 1.0 && 0.0 <= dust < 1.0 && 0.0 <= organic < 1.0
    }
  }

  datatype Comet = Comet(
    semiMajorAxis: real,
    eccentricity: real,
    inclination: real,
    period: real,
    size: real,
    ice: real,
    dust: real,
    organic: real,
    discovered: bool,
    threatLevel: real)

  /** `generateComet` around a star of `starMass` solar masses. */
  function GenerateComet(m: MathLib, starMass: real, rolls: CometRolls): (c: Comet)
    requires m.Lawful()
    requires starMass != 0.0
    requires rolls.InUnitInterval()
    ensures 30.0 <= c.semiMajorAxis < 1000.0
    ensures 0.7 <= c.eccentricity < 0.99
    ensures 0.0 <= c.inclination < 180.0
    ensures 100.0 <= c.size < 5000.0
    ensures 0.6 <= c.ice < 0.9 && 0.2 <= c.dust < 0.4 && 0.0 <= c.organic < 0.1
    ensures !c.discovered
    ensures c.threatLevel == ThreatLevel(c.semiMajorAxis, c.eccentricity)
    ensures starMass > 0.0 ==> c.period > 0.0
  {
    var a := 30.0 + rolls.axis * 970.0;
    var e := 0.7 + rolls.eccentricity * 0.29;
    Comet(a, e, rolls.inclination * 180.0, OrbitalMechanics.OrbitalPeriod(m, starMass, a),
          100.0 + rolls.size * 4900.0, 0.6 + rolls.ice * 0.3, 0.2 + rolls.dust * 0.2, rolls.organic * 0.1,
          false, ThreatLevel(a, e))
  }

  /** The orbital elements `simulateOrbitalMotion` reads. */
  datatype Orbit = Orbit(semiMajorAxis: real, eccentricity: real, inclination: real)

  datatype SpaceObject = SpaceObject(id: string, orbit: Option<Orbit>)

  /** A position as `calculateOrbitalPosition` returns it. */
  datatype Position = Position(point: Vectors.Vector3, distance: real)

  datatype Motion = Motion(id: string, position: Position, distance: real)

  /**
   * The position of an orbit at a time, from the Kepler solver; the solver is
   * a parameter here: time (s), semi-major axis, eccentricity, inclination (rad).
   */
  type PositionSolver = (real, real, real, real) -> Position

  /** A `Date.now()` reading (milliseconds) in seconds. */
  function Seconds(ms: int): real {
    ms as real / 1000.0
  }

  function MotionOf(solver: PositionSolver, nowSeconds: real, id: string, orbit: Orbit): Motion {
    var position := solver(nowSeconds, orbit.semiMajorAxis, orbit.eccentricity, orbit.inclination * PI / 180.0);
    Motion(id, position, position.distance)
  }

  /**
   * The motions of the objects that have an orbit, in input order. The clock
   * is read once per orbiting object: the k-th entry uses reading `clock(k)`.
   */
  function Motions(solver: PositionSolver, clock: nat -> int, objects: seq<SpaceObject>): seq<Motion> {
    if |objects| == 0 then []
    else
      var prev := Motions(solver, clock, objects[..|objects| - 1]);
      var last := objects[|objects| - 1];
      prev + if last.orbit.Some? then [MotionOf(solver, Seconds(clock(|prev|)), last.id, last.orbit.value)] else []
  }

  /** `simulateOrbitalMotion`: one entry per object with an orbit; `timeStep` is not read by the source. */
  method SimulateOrbitalMotion(solver: PositionSolver, clock: nat -> int, objects: seq<SpaceObject>)
    returns (positions: seq<Motion>)
    ensures positions == Motions(solver, clock, objects)
  {
    positions := [];
    var i := 0;
    while i < |objects|
      invariant 0 <= i <= |objects|
      invariant positions == Motions(solver, clock, objects[..i])
    {
      var obj := objects[i];
      if obj.orbit.Some? {
        positions := positions + [MotionOf(solver, Seconds(clock(|positions|)), obj.id, obj.orbit.value)];
      }
      assert objects[..i + 1][..i] == objects[..i];
      i := i + 1;
    }
    assert objects[..i] == objects;
  }

  /** `motion` is the motion of one of the objects that have an orbit, at clock reading `k`. */
  predicate FromOrbitingObject(solver: PositionSolver, clock: nat -> int, objects: seq<SpaceObject>, motion: Motion, k: nat) {
    exists i :: 0 <= i < |objects| && objects[i].orbit.Some?
      && motion == MotionOf(solver, Seconds(clock(k)), objects[i].id, objects[i].orbit.value)
  }

  /** Some entry of `ms` is the motion of `obj` at the reading of its own position. */
  predicate HasMotion(solver: PositionSolver, clock: nat -> int, ms: seq<Motion>, obj: SpaceObject)
    requires obj.orbit.Some?
  {
    exists k :: 0 <= k < |ms| && ms[k] == MotionOf(solver, Seconds(clock(k)), obj.id, obj.orbit.value)
  }

  /** One more object appends its motion, at the next clock reading, exactly when it has an orbit. */
  lemma MotionsSnoc(solver: PositionSolver, clock: nat -> int, objects: seq<SpaceObject>)
    requires |objects| > 0
    ensures var prev := Motions(solver, clock, objects[..|objects| - 1]);
      var last := objects[|objects| - 1];
      Motions(solver, clock, objects)
        == prev + if last.orbit.Some? then [MotionOf(solver, Seconds(clock(|prev|)), last.id, last.orbit.value)] else []
  {
  }

  /** Each entry is the motion of an orbiting object at the clock reading of its position. */
  lemma {:induction false} MotionsFromOrbiting(solver: PositionSolver, clock: nat -> int, objects: seq<SpaceObject>)
    ensures |Motions(solver, clock, objects)| <= |objects|
    ensures forall k :: 0 <= k < |Motions(solver, clock, objects)| ==>
      FromOrbitingObject(solver, clock, objects, Motions(solver, clock, objects)[k], k)
  {
    if |objects| > 0 {
      var init := objects[..|objects| - 1];
      var last := objects[|objects| - 1];
      MotionsFromOrbiting(solver, clock, init);
      MotionsSnoc(solver, clock, objects);
      var ms := Motions(solver, clock, objects);
      var prev := Motions(solver, clock, init);
      forall k | 0 <= k < |ms|
        ensures FromOrbitingObject(solver, clock, objects, ms[k], k)
      {
        if k < |prev| {
          assert ms[k] == prev[k];
          assert FromOrbitingObject(solver, clock, init, prev[k], k);
          var i :| 0 <= i < |init| && init[i].orbit.Some?
            && prev[k] == MotionOf(solver, Seconds(clock(k)), init[i].id, init[i].orbit.value);
          assert objects[i] == init[i];
        } else {
          assert objects[|objects| - 1] == last;
        }
      }
    }
  }

  /** Each orbiting object has its entry. */
  lemma {:induction false} MotionsCoverOrbiting(solver: PositionSolver, clock: nat -> int, objects: seq<SpaceObject>)
    ensures forall i :: 0 <= i < |objects| && objects[i].orbit.Some? ==>
      HasMotion(solver, clock, Motions(solver, clock, objects), objects[i])
  {
    if |objects| > 0 {
      var init := objects[..|objects| - 1];
      var last := objects[|objects| - 1];
      MotionsCoverOrbiting(solver, clock, init);
      MotionsSnoc(solver, clock, objects);
      var ms := Motions(solver, clock, objects);
      var prev := Motions(solver, clock, init);
      forall i | 0 <= i < |objects| && objects[i].orbit.Some?
        ensures HasMotion(solver, clock, ms, objects[i])
      {
        if i < |objects| - 1 {
          assert objects[i] == init[i];
          assert HasMotion(solver, clock, prev, init[i]);
          var k :| 0 <= k < |prev| && prev[k] == MotionOf(solver, Seconds(clock(k)), init[i].id, init[i].orbit.value);
          assert ms[k] == prev[k];
        } else {
          assert ms[|prev|] == MotionOf(solver, Seconds(clock(|prev|)), last.id, last.orbit.value);
        }
      }
    }
  }

  /**
   * Exactly the objects with an orbit are mapped: each entry comes from one,
   * at the clock reading of its position, and each one has its entry.
   */
  lemma MotionsCharacterized(solver: PositionSolver, clock: nat -> int, objects: seq<SpaceObject>)
    ensures |Motions(solver, clock, objects)| <= |objects|
    ensures forall k :: 0 <= k < |Motions(solver, clock, objects)| ==>
      FromOrbitingObject(solver, clock, objects, Motions(solver, clock, objects)[k], k)
    ensures forall i :: 0 <= i < |objects| && objects[i].orbit.Some? ==>
      HasMotion(solver, clock, Motions(solver, clock, objects), objects[i])
  {
    MotionsFromOrbiting(solver, clock, objects);
    MotionsCoverOrbiting(solver, clock, objects);
  }

  /** `calculateImpactEnergy` in megatons of TNT, for an impactor of `size` (km) and a velocity draw in [0, 1). */
  function ImpactEnergy(size: real, velocityDraw: real): (megatons: real)
    ensures size > 0.0 && 0.0 <= velocityDraw ==> megatons > 0.0
  {
    var velocity := 20.0 + velocityDraw * 50.0;
    ImpactEnergyPositive(size, velocity);
    0.5 * (1000.0 * ((4.0 / 3.0) * PI * ((size * 500.0) * (size * 500.0) * (size * 500.0))))
      * ((velocity * 1000.0) * (velocity * 1000.0)) / 4.184e15
  }

  lemma ImpactEnergyPositive(size: real, velocity: real)
    ensures size > 0.0 && velocity > 0.0 ==>
      0.5 * (1000.0 * ((4.0 / 3.0) * PI * ((size * 500.0) * (size * 500.0) * (size * 500.0))))
        * ((velocity * 1000.0) * (velocity * 1000.0)) / 4.184e15 > 0.0
  {
    assert PI > 0.0;
    if size > 0.0 && velocity > 0.0 {
      assert (size * 500.0) * (size * 500.0) * (size * 500.0) > 0.0;
      assert (velocity * 1000.0) * (velocity * 1000.0) > 0.0;
    }
  }

  /**
   * A moving object as `checkCollisions` reads it. `size` is `None` when the
   * object carries none, as the positions `simulateOrbitalMotion` builds.
   */
  datatype Impactor = Impactor(id: string, position: Vectors.Vector3, size: Option<real>)
  datatype Target = Target(id: string, position: Vectors.Vector3, radius: real)

  /** The squared distance in the x/y plane (z is not read). */
  function PlanarSquare(a: Vectors.Vector3, b: Vectors.Vector3): (d: real)
    ensures d >= 0.0
  {
    SquareNonNegative(a.x - b.x);
    SquareNonNegative(a.y - b.y);
    (a.x - b.x) * (a.x - b.x) + (a.y - b.y) * (a.y - b.y)
  }

  function PlanarDistance(m: MathLib, a: Vectors.Vector3, b: Vectors.Vector3): (d: real)
    requires m.Lawful()
    ensures d >= 0.0
  {
    m.sqrt(PlanarSquare(a, b))
  }

  /** An object hits a planet when it is closer than a tenth of the planet's radius. */
  predicate Hits(m: MathLib, obj: Impactor, planet: Target)
    requires m.Lawful()
  {
    PlanarDistance(m, obj.position, planet.position) < planet.radius * 0.1
  }

  /** The pairs that collide, ordered by object, then by planet. */
  function HitsRow(m: MathLib, obj: Impactor, planets: seq<Target>): seq<(Impactor, Target)>
    requires m.Lawful()
  {
    if |planets| == 0 then []
    else
      HitsRow(m, obj, planets[..|planets| - 1])
        + if Hits(m, obj, planets[|planets| - 1]) then [(obj, planets[|planets| - 1])] else []
  }

  function AllHits(m: MathLib, objects: seq<Impactor>, planets: seq<Target>): seq<(Impactor, Target)>
    requires m.Lawful()
  {
    if |objects| == 0 then []
    else AllHits(m, objects[..|objects| - 1], planets) + HitsRow(m, objects[|objects| - 1], planets)
  }

  /** A collision record; `energy` is `None` where the source computes NaN (no impactor size). */
  datatype Collision = Collision(objectId: string, planetId: string, distance: real, energy: Option<real>, timestamp: int)

  /**
   * `calculateImpactEnergy(impactor, planet)`: the velocity is drawn first in
   * any case, and an impactor without a size gives NaN (`None`).
   */
  function EnergyOf(impactor: Impactor, velocityDraw: real): (e: Option<real>)
    ensures e.Some? <==> impactor.size.Some?
    ensures impactor.size.Some? && impactor.size.value > 0.0 && velocityDraw >= 0.0 ==> e.value > 0.0
  {
    if impactor.size.Some? then Some(ImpactEnergy(impactor.size.value, velocityDraw)) else None
  }

  /**
   * The record of the k-th collision: the k-th velocity draw is the k-th call
   * of `Math.random` and `now` the k-th reading of `Date.now()`.
   */
  function CollisionRecord(m: MathLib, hit: (Impactor, Target), velocityDraw: real, now: int): Collision
    requires m.Lawful()
  {
    Collision(hit.0.id, hit.1.id, PlanarDistance(m, hit.0.position, hit.1.position),
              EnergyOf(hit.0, velocityDraw), now)
  }

  /** The records of the given hits, the k-th taking the k-th velocity draw. */
  function Records(m: MathLib, hits: seq<(Impactor, Target)>, draw: nat -> real, clock: nat -> int): (r: seq<Collision>)
    requires m.Lawful()
    ensures |r| == |hits|
    ensures forall k :: 0 <= k < |hits| ==> r[k] == CollisionRecord(m, hits[k], draw(k), clock(k))
  {
    seq(|hits|, k requires 0 <= k < |hits| => CollisionRecord(m, hits[k], draw(k), clock(k)))
  }

  lemma RecordsSnoc(m: MathLib, hits: seq<(Impactor, Target)>, hit: (Impactor, Target), draw: nat -> real, clock: nat -> int)
    requires m.Lawful()
    ensures Records(m, hits + [hit], draw, clock)
         == Records(m, hits, draw, clock) + [CollisionRecord(m, hit, draw(|hits|), clock(|hits|))]
  {
  }

  /** Extending the planet prefix by one planet adds that planet to the row when it is hit. */
  lemma HitsRowStep(m: MathLib, obj: Impactor, planets: seq<Target>, j: nat)
    requires m.Lawful() && j < |planets|
    ensures HitsRow(m, obj, planets[..j + 1])
      == HitsRow(m, obj, planets[..j]) + if Hits(m, obj, planets[j]) then [(obj, planets[j])] else []
  {
    assert planets[..j + 1][..j] == planets[..j];
  }

  /**
   * `checkCollisions`: one record per colliding (object, planet) pair, in
   * object-then-planet order. `draw(k)` is the velocity draw of the k-th
   * collision and `clock(k)` the clock reading stamped on it.
   */
  method CheckCollisions(m: MathLib, objects: seq<Impactor>, planets: seq<Target>, draw: nat -> real, clock: nat -> int)
    returns (collisions: seq<Collision>)
    requires m.Lawful()
    ensures |collisions| == |AllHits(m, objects, planets)|
    ensures forall k :: 0 <= k < |collisions| ==>
      collisions[k] == CollisionRecord(m, AllHits(m, objects, planets)[k], draw(k), clock(k))
  {
    collisions := [];
    var i := 0;
    while i < |objects|
      invariant 0 <= i <= |objects|
      invariant collisions == Records(m, AllHits(m, objects[..i], planets), draw, clock)
    {
      var obj := objects[i];
      var j := 0;
      ghost var before := AllHits(m, objects[..i], planets);
      while j < |planets|
        invariant 0 <= j <= |planets|
        invariant collisions == Records(m, before + HitsRow(m, obj, planets[..j]), draw, clock)
      {
        var planet := planets[j];
        var distance := PlanarDistance(m, obj.position, planet.position);
        var influenceRadius := planet.radius * 0.1;
        ghost var hits := before + HitsRow(m, obj, planets[..j]);
        HitsRowStep(m, obj, planets, j);
        if distance < influenceRadius {
          RecordsSnoc(m, hits, (obj, planet), draw, clock);
          assert hits + [(obj, planet)] == before + HitsRow(m, obj, planets[..j + 1]);
          collisions := collisions + [Collision(obj.id, planet.id, distance, EnergyOf(obj, draw(|collisions|)), clock(|collisions|))];
        } else {
          assert hits == before + HitsRow(m, obj, planets[..j + 1]);
        }
        j := j + 1;
      }
      assert planets[..j] == planets;
      assert objects[..i + 1][..i] == objects[..i];
      i := i + 1;
    }
    assert objects[..i] == objects;
  }

  /** Every reported pair is within the influence radius, and every pair within it is reported. */
  lemma {:induction false} HitsRowCharacterized(m: MathLib, obj: Impactor, planets: seq<Target>)
    requires m.Lawful()
    ensures forall h :: h in HitsRow(m, obj, planets) ==> h.0 == obj && h.1 in planets && Hits(m, obj, h.1)
    ensures forall j :: 0 <= j < |planets| && Hits(m, obj, planets[j]) ==> (obj, planets[j]) in HitsRow(m, obj, planets)
  {
    if |planets| > 0 {
      var init := planets[..|planets| - 1];
      HitsRowCharacterized(m, obj, init);
      assert planets == init + [planets[|planets| - 1]];
      forall j | 0 <= j < |planets| && Hits(m, obj, planets[j])
        ensures (obj, planets[j]) in HitsRow(m, obj, planets)
      {
        if j < |planets| - 1 {
          assert planets[j] == init[j];
        }
      }
    }
  }

  lemma {:induction false} AllHitsCharacterized(m: MathLib, objects: seq<Impactor>, planets: seq<Target>)
    requires m.Lawful()
    ensures forall h :: h in AllHits(m, objects, planets) ==> h.0 in objects && h.1 in planets && Hits(m, h.0, h.1)
    ensures forall i, j :: 0 <= i < |objects| && 0 <= j < |planets| && Hits(m, objects[i], planets[j]) ==>
      (objects[i], planets[j]) in AllHits(m, objects, planets)
  {
    if |objects| > 0 {
      var init := objects[..|objects| - 1];
      var last := objects[|objects| - 1];
      AllHitsCharacterized(m, init, planets);
      HitsRowCharacterized(m, last, planets);
      assert objects == init + [last];
      forall i, j | 0 <= i < |objects| && 0 <= j < |planets| && Hits(m, objects[i], planets[j])
        ensures (objects[i], planets[j]) in AllHits(m, objects, planets)
      {
        if i < |objects| - 1 {
          assert objects[i] == init[i];
        }
      }
    }
  }

  /** Moving an object or a planet along z never changes whether they collide. */
  lemma HitsIgnoresZ(m: MathLib, obj: Impactor, planet: Target, z1: real, z2: real)
    requires m.Lawful()
    ensures Hits(m, obj.(position := obj.position.(z := z1)), planet.(position := planet.position.(z := z2)))
        == Hits(m, obj, planet)
  {
    assert PlanarSquare(obj.position.(z := z1), planet.position.(z := z2)) == PlanarSquare(obj.position, planet.position);
  }

  /** The impactors `checkCollisions` sees for motion entries: none has a size. */
  function ImpactorsOf(motions: seq<Motion>): (r: seq<Impactor>)
    ensures |r| == |motions|
    ensures forall k :: 0 <= k < |r| ==> r[k].id == motions[k].id && r[k].position == motions[k].position.point
  {
    seq(|motions|, k requires 0 <= k < |motions| => Impactor(motions[k].id, motions[k].position.point, None))
  }

  /**
   * Fed the positions `simulateOrbitalMotion` returns, `checkCollisions`
   * reports every collision with an undefined (NaN) energy.
   */
  lemma {:induction false} MotionCollisionsHaveNoEnergy(m: MathLib, motions: seq<Motion>, planets: seq<Target>,
                                                        draw: nat -> real, clock: nat -> int)
    requires m.Lawful()
    ensures forall c :: c in Records(m, AllHits(m, ImpactorsOf(motions), planets), draw, clock) ==> c.energy.None?
  {
    var objects := ImpactorsOf(motions);
    var hits := AllHits(m, objects, planets);
    AllHitsCharacterized(m, objects, planets);
    var records := Records(m, hits, draw, clock);
    forall c | c in records
      ensures c.energy.None?
    {
      var k :| 0 <= k < |records| && records[k] == c;
      assert hits[k] in hits;
      assert hits[k].0 in objects;
    }
  }
}
