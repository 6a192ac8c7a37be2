/**
 * The records a star system and its planets are stored as: resources,
 * moons, civilization, surface conditions and the planet's environment.
 * Numeric fields the source leaves undefined are `0.0` where the source only
 * tests them for truthiness, and `Option` where `undefined` behaves differently.
 */
module Galaxy {
  import opened Wrappers
  import ClimateModel

  /**
   * One entry of `planet.resources`. `depletionRate`, `initial` and
   * `capacity` are `0.0` when the entry has no such field.
   */
  datatype Resource = Resource(
    current: real,
    depletionRate: real,
    yearsRemaining: Option<int>,
    initial: real,
    capacity: real)

  /** `planet.resources`, in the key order `Object.keys` visits. */
  type Resources = seq<(string, Resource)>

  /** `resources[key]`: the entry stored under `key`, if any. */
  function Lookup(resources: Resources, key: string): (r: Option<Resource>)
    ensures r.Some? <==> exists k :: 0 <= k < |resources| && resources[k].0 == key
    ensures r.Some? ==> (key, r.value) in resources
  {
    if |resources| == 0 then None
    else if resources[0].0 == key then Some(resources[0].1)
    else
      var rest := Lookup(resources[1..], key);
      assert forall k :: 1 <= k < |resources| ==> resources[k] == resources[1..][k - 1];
      assert rest.Some? ==> (exists k :: 0 <= k < |resources| - 1 && resources[1..][k].0 == key);
      rest
  }

  /** The keys of a JavaScript object are distinct. */
  ghost predicate DistinctKeys(resources: Resources) {
    forall i, j :: 0 <= i < j < |resources| ==> resources[i].0 != resources[j].0
  }

  /** A moon from `generateMoons`; its id is `moon_{planetIndex}_{index}` and its name `Luna {index + 1}`. */
  datatype Moon = Moon(
    planetIndex: nat,
    index: nat,
    mass: real,
    radius: real,
    distance: real,
    orbitalPeriod: real)

  /** `planet.civilization`; `technology` in key order. */
  datatype Civilization = Civilization(
    population: int,
    growthRate: real,
    happiness: real,
    stability: real,
    governmentType: string,
    technology: seq<(string, real)>,
    kardashev: real)

  /** `generateAtmosphere`'s record. */
  datatype Atmosphere = Atmosphere(
    composition: map<string, real>,
    albedo: real,
    pressure: real,
    quality: real)

  /** `planet.conditions`. */
  datatype Conditions = Conditions(
    temperature: ClimateModel.TemperatureReport,
    atmosphere: Atmosphere,
    pressure: real,
    habitability: real)

  /**
   * `planet.environment`, which the civilization rules read; `temperatureStability`
   * is `environment.temperature.stability` and is `None` when either is undefined.
   */
  datatype Environment = Environment(habitability: Option<real>, temperatureStability: Option<real>)

  /** `planet.orbit` as `generatePlanets` stores it (the period is `orbit.period`, not `orbitalPeriod`). */
  datatype Orbit = Orbit(semiMajorAxis: real, eccentricity: real, period: real, inclination: real)

  /** `planet.rotation`: period in hours and axial tilt in degrees. */
  datatype Rotation = Rotation(period: real, axialTilt: real)

  /**
   * A planet as `generatePlanets` creates it. `index` stands for the id
   * `planet_{time}_{index}` (stored as `planetId`, there is no `id`); there is
   * no `environment` field.
   */
  datatype PlanetRecord = PlanetRecord(
    index: nat,
    name: string,
    planetType: string,
    size: real,
    mass: real,
    orbit: Orbit,
    rotation: Rotation,
    conditions: Conditions,
    resources: Resources,
    civilization: Civilization,
    moons: seq<Moon>)
}
