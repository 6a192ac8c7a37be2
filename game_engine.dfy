/**
 * The time-advance engine (`GameEngine`): form validation, the year counter,
 * and the per-planet evolution step that grows the civilization, consumes
 * resources, handles crises and drifts the climate, all in place on the
 * planet's fields.
 */
module GameEngine {
  import opened Numeric
  import opened Wrappers
  import opened Galaxy
  import MathUtils
  import ClimateModel
  import StellarEvolution
  import CivilizationEvolution

  // ----- Validation -----

  /** The creation form's fields that `validateSystemData` checks. */
  datatype SystemForm = SystemForm(name: string, starType: string, starMass: real, planetsCount: real)

  /** The three errors `validateSystemData` throws (the message text is not modelled). */
  datatype ValidationError = MissingField(field: string) | PlanetCountOutOfRange | StarMassOutOfRange

  const REQUIRED_FIELDS: seq<string> := ["name", "starType", "starMass", "planetsCount"]

  /** `!systemData[field]`: an empty string or a zero number counts as missing. */
  predicate Missing(form: SystemForm, field: string) {
    if field == "name" then form.name == ""
    else if field == "starType" then form.starType == ""
    else if field == "starMass" then form.starMass == 0.0
    else if field == "planetsCount" then form.planetsCount == 0.0
    else true
  }

  /** The first required field, from position `k` on, that is missing. */
  function FirstMissing(form: SystemForm, k: nat): Option<string>
    requires k <= |REQUIRED_FIELDS|
    decreases |REQUIRED_FIELDS| - k
  {
    if k == |REQUIRED_FIELDS| then None
    else if Missing(form, REQUIRED_FIELDS[k]) then Some(REQUIRED_FIELDS[k])
    else FirstMissing(form, k + 1)
  }

  /** What `validateSystemData` returns or throws. */
  function Validation(form: SystemForm): Result<bool, ValidationError> {
    match FirstMissing(form, 0)
    case Some(field) => Failure(MissingField(field))
    case None =>
      if form.planetsCount < 1.0 || form.planetsCount > 15.0 then Failure(PlanetCountOutOfRange)
      else if form.starMass < 0.1 || form.starMass > 100.0 then Failure(StarMassOutOfRange)
      else Success(true)
  }

  /** `validateSystemData`: the required-field loop, then the two range checks. */
  method ValidateSystemData(form: SystemForm) returns (r: Result<bool, ValidationError>)
    ensures r == Validation(form)
  {
    var k := 0;
    while k < |REQUIRED_FIELDS|
      invariant 0 <= k <= |REQUIRED_FIELDS|
      invariant FirstMissing(form, 0) == FirstMissing(form, k)
    {
      if Missing(form, REQUIRED_FIELDS[k]) {
        return Failure(MissingField(REQUIRED_FIELDS[k]));
      }
      k := k + 1;
    }
    if form.planetsCount < 1.0 || form.planetsCount > 15.0 {
      return Failure(PlanetCountOutOfRange);
    }
    if form.starMass < 0.1 || form.starMass > 100.0 {
      return Failure(StarMassOutOfRange);
    }
    return Success(true);
  }

  /** A form passes exactly when both names are given, 1 ≤ planetsCount ≤ 15 and 0.1 ≤ starMass ≤ 100. */
  lemma ValidationIff(form: SystemForm)
    ensures Validation(form).Success? <==>
      form.name != "" && form.starType != ""
      && 1.0 <= form.planetsCount <= 15.0 && 0.1 <= form.starMass <= 100.0
    ensures Validation(form).Success? ==> Validation(form).value
  {
  }

  /** A zero star mass or planet count is reported as a missing field, not as out of range. */
  lemma ZeroCountsAsMissing(form: SystemForm)
    requires form.name != "" && form.starType != ""
    ensures form.starMass == 0.0 ==> Validation(form) == Failure(MissingField("starMass"))
    ensures form.starMass != 0.0 && form.planetsCount == 0.0 ==> Validation(form) == Failure(MissingField("planetsCount"))
  {
  }

  // ----- Resource consumption -----

  /**
   * One resource after `years` of consumption: a resource with truthy
   * `current` and `depletionRate` loses `depletionRate·years`, floored at 0,
   * and, for a positive rate, its `yearsRemaining` is recomputed.
   */
  function Consume(resource: Resource, years: real): (r: Resource)
    ensures !CivilizationEvolution.Tracked(resource) ==> r == resource
    ensures CivilizationEvolution.Tracked(resource) ==> r.current >= 0.0
    ensures r.depletionRate == resource.depletionRate && r.initial == resource.initial
      && r.capacity == resource.capacity
    ensures CivilizationEvolution.Tracked(resource) && resource.depletionRate > 0.0 ==>
      r.yearsRemaining == Some((r.current / r.depletionRate).Floor)
    ensures resource.depletionRate < 0.0 ==> r.yearsRemaining == resource.yearsRemaining
    ensures resource.depletionRate > 0.0 && years >= 0.0 && resource.current >= 0.0 ==> r.current <= resource.current
  {
    if CivilizationEvolution.Tracked(resource) then
      var current := Max(0.0, resource.current - resource.depletionRate * years);
      var yearsRemaining :=
        if resource.depletionRate > 0.0 then Some((current / resource.depletionRate).Floor)
        else resource.yearsRemaining;
      ConsumeFacts(resource.current, resource.depletionRate, years);
      Resource(current, resource.depletionRate, yearsRemaining, resource.initial, resource.capacity)
    else resource
  }

  lemma ConsumeFacts(current: real, rate: real, years: real)
    ensures rate > 0.0 && years >= 0.0 ==> current - rate * years <= current
  {
    if rate > 0.0 && years >= 0.0 {
      MulMonotone(rate, 0.0, years);
    }
  }

  /**
   * Consuming `y1` years and then `y2` years is consuming `y1 + y2` years at
   * once, for a positive rate and a non-negative stock.
   */
  lemma ConsumeSplit(resource: Resource, y1: real, y2: real)
    requires resource.depletionRate > 0.0 && resource.current >= 0.0
    requires y1 >= 0.0 && y2 >= 0.0
    ensures Consume(Consume(resource, y1), y2) == Consume(resource, y1 + y2)
  {
    var d := resource.depletionRate;
    if resource.current > 0.0 {
      assert d * (y1 + y2) == d * y1 + d * y2;
      MulMonotone(d, 0.0, y2);
      if resource.current - d * y1 <= 0.0 {
        ConsumeExhausted(resource, y1);
        ConsumeExhausted(resource, y1 + y2);
      }
    }
  }

  /** A stock that the consumption would drive below zero ends empty, with no years left. */
  lemma ConsumeExhausted(resource: Resource, years: real)
    requires resource.depletionRate > 0.0 && resource.current > 0.0
    requires resource.current - resource.depletionRate * years <= 0.0
    ensures Consume(resource, years)
      == Resource(0.0, resource.depletionRate, Some(0), resource.initial, resource.capacity)
    ensures !CivilizationEvolution.Tracked(Consume(resource, years))
  {
    ZeroDividend(resource.depletionRate);
  }

  /** A resource already consistent with its stock is unchanged by consuming zero years. */
  lemma ConsumeZeroYears(resource: Resource)
    requires resource.current >= 0.0
    requires CivilizationEvolution.Tracked(resource) && resource.depletionRate > 0.0 ==>
      resource.yearsRemaining == Some((resource.current / resource.depletionRate).Floor)
    ensures Consume(resource, 0.0) == resource
  {
  }

  /** Every entry of `planet.resources` after consumption, keys and order kept. */
  function ConsumeAll(resources: Resources, years: real): (r: Resources)
    ensures |r| == |resources|
    ensures forall i :: 0 <= i < |r| ==> r[i].0 == resources[i].0 && r[i].1 == Consume(resources[i].1, years)
  {
    seq(|resources|, i requires 0 <= i < |resources| => (resources[i].0, Consume(resources[i].1, years)))
  }

  /** Looking a key up after consumption finds the consumed entry. */
  lemma {:induction false} ConsumeAllLookup(resources: Resources, years: real, key: string)
    ensures Lookup(ConsumeAll(resources, years), key) ==
      (match Lookup(resources, key) case None => None case Some(r) => Some(Consume(r, years)))
  {
    if |resources| > 0 && resources[0].0 != key {
      assert ConsumeAll(resources, years)[1..] == ConsumeAll(resources[1..], years);
      ConsumeAllLookup(resources[1..], years, key);
    }
  }

  /** Consumption keeps `initial` and `capacity`, so the resource factor stays defined. */
  lemma ConsumeAllReadable(resources: Resources, years: real)
    requires CivilizationEvolution.Readable(resources)
    ensures CivilizationEvolution.Readable(ConsumeAll(resources, years))
  {
    ConsumeAllLookup(resources, years, "metals");
    ConsumeAllLookup(resources, years, "energy");
  }

  /** Splitting the time into two steps changes nothing. */
  lemma ConsumeAllSplit(resources: Resources, y1: real, y2: real)
    requires forall i :: 0 <= i < |resources| ==> resources[i].1.depletionRate > 0.0 && resources[i].1.current >= 0.0
    requires y1 >= 0.0 && y2 >= 0.0
    ensures ConsumeAll(ConsumeAll(resources, y1), y2) == ConsumeAll(resources, y1 + y2)
  {
    forall i | 0 <= i < |resources|
      ensures ConsumeAll(ConsumeAll(resources, y1), y2)[i] == ConsumeAll(resources, y1 + y2)[i]
    {
      ConsumeSplit(resources[i].1, y1, y2);
    }
  }

  // ----- Climate drift -----

  /** `system.physics.primaryStar`: the stored mass, age and luminosity. */
  datatype Star = Star(mass: real, age: real, luminosity: real)

  /** The star will be more than 10 % brighter `years` from its stored age. */
  predicate Brightens(m: MathLib, star: Star, years: real)
    requires m.Lawful()
  {
    StellarEvolution.Luminosity(m, star.mass, star.age + years) > star.luminosity * 1.1
  }

  /** Industry weighs on the climate once the Kardashev level exceeds 0.5. */
  predicate Industrial(civilization: Option<Civilization>) {
    civilization.Some? && civilization.value.kardashev > 0.5
  }

  /**
   * `calculateHabitabilityChange`: −0.01·years/100 for a brightening star,
   * −0.005·years/100 for an industrial civilization.
   */
  function HabitabilityChange(m: MathLib, star: Star, civilization: Option<Civilization>, years: real): (change: real)
    requires m.Lawful()
    ensures years >= 0.0 ==> -0.00015 * years <= change <= 0.0
    ensures years == 0.0 ==> change == 0.0
  {
    var stellar := if Brightens(m, star, years) then 0.01 * years / 100.0 else 0.0;
    var industrial := if Industrial(civilization) then 0.005 * years / 100.0 else 0.0;
    0.0 - stellar - industrial
  }

  /** Over a positive time the change is zero exactly when neither cause applies. */
  lemma HabitabilityChangeZeroIff(m: MathLib, star: Star, civilization: Option<Civilization>, years: real)
    requires m.Lawful() && years > 0.0
    ensures HabitabilityChange(m, star, civilization, years) == 0.0 <==>
      !Brightens(m, star, years) && !Industrial(civilization)
  {
  }

  /**
   * `simulateEnvironmentalChanges` on present conditions: the surface warms
   * by `years·0.001`; a truthy habitability moves by `change` and is clamped
   * to [0, 1]; a zero habitability is left alone.
   */
  function ClimateStep(conditions: Conditions, change: real, years: real): (c: Conditions)
    ensures 0.0 <= c.habitability <= 1.0
    ensures conditions.habitability == 0.0 ==> c.habitability == 0.0
    ensures c.temperature.surface == conditions.temperature.surface + years * 0.001
    ensures c.temperature.effective == conditions.temperature.effective
      && c.temperature.greenhouse == conditions.temperature.greenhouse
      && c.temperature.albedo == conditions.temperature.albedo
    ensures c.atmosphere == conditions.atmosphere && c.pressure == conditions.pressure
  {
    var temperature := conditions.temperature.(surface := conditions.temperature.surface + years * 0.001);
    var habitability :=
      if conditions.habitability != 0.0 then MathUtils.Clamp(conditions.habitability + change, 0.0, 1.0)
      else conditions.habitability;
    conditions.(temperature := temperature, habitability := habitability)
  }

  /** Since the change is never positive, habitability never rises over time. */
  lemma HabitabilityNeverRises(m: MathLib, star: Star, civilization: Option<Civilization>, conditions: Conditions, years: real)
    requires m.Lawful() && years >= 0.0
    requires 0.0 <= conditions.habitability <= 1.0
    ensures ClimateStep(conditions, HabitabilityChange(m, star, civilization, years), years).habitability
         <= conditions.habitability
  {
  }

  // ----- Crises -----

  /** `handleResourceCrisis`: happiness −20 and stability −15, each floored at 0. */
  function ResourceCrisisStep(c: Civilization): (r: Civilization)
    ensures r.happiness >= 0.0 && r.stability >= 0.0
    ensures r.happiness <= Max(c.happiness, 0.0) && r.stability <= Max(c.stability, 0.0)
    ensures c.happiness >= 20.0 ==> r.happiness == c.happiness - 20.0
    ensures c.stability >= 15.0 ==> r.stability == c.stability - 15.0
    ensures r.population == c.population && r.kardashev == c.kardashev && r.technology == c.technology
    ensures r.growthRate == c.growthRate && r.governmentType == c.governmentType
  {
    c.(happiness := Max(0.0, c.happiness - 20.0), stability := Max(0.0, c.stability - 15.0))
  }

  /**
   * `handleEnvironmentalCrisis`: happiness −30 and stability −25 with no
   * floor, and a fifth of the population lost (rounded down).
   */
  function EnvironmentalCrisisStep(c: Civilization): (r: Civilization)
    ensures r.happiness < c.happiness && r.stability < c.stability
    ensures c.population >= 0 ==> 0 <= r.population <= c.population
    ensures r.kardashev == c.kardashev && r.technology == c.technology
    ensures r.growthRate == c.growthRate && r.governmentType == c.governmentType
  {
    c.(happiness := c.happiness - 30.0, stability := c.stability - 25.0,
       population := (c.population as real * 0.8).Floor)
  }

  /** Without a floor, a single environmental crisis drives a happiness of 10 to −20. */
  lemma EnvironmentalCrisisHasNoFloor(c: Civilization)
    requires c.happiness == 10.0
    ensures EnvironmentalCrisisStep(c).happiness == -20.0
  {
  }

  /** The handler `handlePlanetaryCrises` picks for one issue; other kinds are ignored. */
  function ApplyCrisis(c: Civilization, issue: CivilizationEvolution.Issue): Civilization {
    if issue.kind == "resource_depletion" then ResourceCrisisStep(c)
    else if issue.kind == "environmental_collapse" then EnvironmentalCrisisStep(c)
    else c
  }

  /** The issues handled in list order. */
  function ApplyCrises(c: Civilization, issues: seq<CivilizationEvolution.Issue>): Civilization {
    if |issues| == 0 then c else ApplyCrisis(ApplyCrises(c, issues[..|issues| - 1]), issues[|issues| - 1])
  }

  /**
   * Crises never raise happiness or stability above their starting value (or
   * 0), never raise a non-negative population, and leave Kardashev level and
   * technology alone.
   */
  lemma {:induction false} CrisesNeverHelp(c: Civilization, issues: seq<CivilizationEvolution.Issue>)
    ensures ApplyCrises(c, issues).happiness <= Max(c.happiness, 0.0)
    ensures ApplyCrises(c, issues).stability <= Max(c.stability, 0.0)
    ensures c.population >= 0 ==> 0 <= ApplyCrises(c, issues).population <= c.population
    ensures ApplyCrises(c, issues).kardashev == c.kardashev
    ensures ApplyCrises(c, issues).technology == c.technology
    ensures ApplyCrises(c, issues).growthRate == c.growthRate
  {
    if |issues| > 0 {
      CrisesNeverHelp(c, issues[..|issues| - 1]);
    }
  }

  /** Issues of unknown kinds change nothing. */
  lemma {:induction false} UnknownCrisesIgnored(c: Civilization, issues: seq<CivilizationEvolution.Issue>)
    requires forall i :: 0 <= i < |issues| ==>
      issues[i].kind != "resource_depletion" && issues[i].kind != "environmental_collapse"
    ensures ApplyCrises(c, issues) == c
  {
    if |issues| > 0 {
      UnknownCrisesIgnored(c, issues[..|issues| - 1]);
    }
  }

  /** After an environmental crisis, a resource crisis lifts a negative happiness back to 0. */
  lemma ResourceCrisisLiftsNegativeHappiness(c: Civilization, e: CivilizationEvolution.Issue, r: CivilizationEvolution.Issue)
    requires c.happiness == 10.0
    requires e.kind == "environmental_collapse" && r.kind == "resource_depletion"
    ensures ApplyCrises(c, [e]).happiness == -20.0
    ensures ApplyCrises(c, [e, r]).happiness == 0.0
  {
    assert [e, r][..1] == [e];
    assert [e][..0] == [];
  }

  // ----- Civilization growth -----

  /** Every technology level raised by `delta`, keys and order kept. */
  function GrowTechnology(technology: seq<(string, real)>, delta: real): (r: seq<(string, real)>)
    ensures |r| == |technology|
    ensures forall i :: 0 <= i < |r| ==> r[i].0 == technology[i].0 && r[i].1 == technology[i].1 + delta
  {
    seq(|technology|, i requires 0 <= i < |technology| => (technology[i].0, technology[i].1 + delta))
  }

  /**
   * The growth step of `evolvePlanet`: Kardashev level +rate·years/100,
   * population ⌊pop·growthRate^years⌋, every technology +rate·years/50.
   */
  function GrowCivilization(m: MathLib, c: Civilization, rate: real, years: real): (r: Civilization)
    requires m.Lawful()
    ensures rate >= 0.0 && years >= 0.0 ==> r.kardashev >= c.kardashev
    ensures |r.technology| == |c.technology|
    ensures rate >= 0.0 && years >= 0.0 ==>
      forall i :: 0 <= i < |r.technology| ==> r.technology[i].1 >= c.technology[i].1
    ensures years == 0.0 ==> r == c
    ensures r.happiness == c.happiness && r.stability == c.stability && r.growthRate == c.growthRate
  {
    var delta := rate * years / 50.0;
    GrowthFacts(rate, years);
    GrowthAtZero(m, c, rate, years);
    c.(kardashev := c.kardashev + rate * years / 100.0,
       population := (c.population as real * m.pow(c.growthRate, years)).Floor,
       technology := GrowTechnology(c.technology, delta))
  }

  lemma GrowthAtZero(m: MathLib, c: Civilization, rate: real, years: real)
    requires m.Lawful()
    ensures years == 0.0 ==> m.pow(c.growthRate, years) == 1.0
    ensures years == 0.0 ==> GrowTechnology(c.technology, rate * years / 50.0) == c.technology
  {
    if years == 0.0 {
      GrowthFacts(rate, years);
      assert GrowTechnology(c.technology, rate * years / 50.0) == c.technology;
    }
  }

  lemma GrowthFacts(rate: real, years: real)
    ensures rate >= 0.0 && years >= 0.0 ==> rate * years >= 0.0
    ensures years == 0.0 ==> rate * years == 0.0
  {
    if rate >= 0.0 && years >= 0.0 {
      MulMonotone(rate, 0.0, years);
    }
  }

  // ----- Planets -----

  /** The fields of a planet that the evolution step rewrites. */
  datatype PlanetState = PlanetState(
    civilization: Option<Civilization>,
    resources: Option<Resources>,
    conditions: Option<Conditions>)

  /** The issues `checkMigrationNeeded` reports for these resources and environment. */
  function MigrationIssues(resources: Resources, environment: Environment): seq<CivilizationEvolution.Issue> {
    CivilizationEvolution.IssuesUpTo(Some(resources), Some(environment), |CivilizationEvolution.HORIZONS|)
  }

  /**
   * `evolvePlanet` on values. `None` is the TypeError the rate computation
   * throws when the planet has no `environment` or no `resources`, before
   * anything is changed.
   */
  function Evolve(m: MathLib, star: Star, years: real, s: PlanetState, environment: Option<Environment>,
                  eccentricity: Option<real>, tectonicActivity: Option<string>, moons: Option<seq<Moon>>)
    : (r: Option<PlanetState>)
    requires m.Lawful() && ReadableState(s)
    ensures r.None? <==> environment.None? || s.resources.None?
    ensures r.Some? ==> r.value.resources.Some? && CivilizationEvolution.Readable(r.value.resources.value)
    ensures r.Some? ==> (r.value.civilization.Some? <==> s.civilization.Some?)
    ensures r.Some? ==> (r.value.conditions.Some? <==> s.conditions.Some?)
    ensures r.Some? && r.value.conditions.Some? ==> 0.0 <= r.value.conditions.value.habitability <= 1.0
  {
    if environment.None? || s.resources.None? then None
    else
      var rate := CivilizationEvolution.EvolutionRate(s.resources.value, environment.value, eccentricity,
                                                       tectonicActivity, moons);
      var consumed := ConsumeAll(s.resources.value, years);
      ConsumeAllReadable(s.resources.value, years);
      var civilization :=
        if s.civilization.Some? then
          Some(ApplyCrises(GrowCivilization(m, s.civilization.value, rate, years),
                           MigrationIssues(consumed, environment.value)))
        else None;
      var resources := if s.civilization.Some? then Some(consumed) else s.resources;
      var conditions :=
        if s.conditions.Some? then
          Some(ClimateStep(s.conditions.value, HabitabilityChange(m, star, civilization, years), years))
        else None;
      Some(PlanetState(civilization, resources, conditions))
  }

  /** `calculateEvolutionRate` can run: it reads `planet.environment` and `planet.resources`. */
  predicate Evolvable(environment: Option<Environment>, s: PlanetState) {
    environment.Some? && s.resources.Some?
  }

  /** The resource factor of a state can be computed. */
  predicate ReadableState(s: PlanetState) {
    s.resources.Some? ==> CivilizationEvolution.Readable(s.resources.value)
  }

  /** With no time passing, a civilization's Kardashev level and technology stay as they are. */
  lemma EvolveZeroYears(m: MathLib, star: Star, s: PlanetState, environment: Option<Environment>,
                        eccentricity: Option<real>, tectonicActivity: Option<string>, moons: Option<seq<Moon>>)
    requires m.Lawful() && ReadableState(s) && Evolvable(environment, s)
    ensures Evolve(m, star, 0.0, s, environment, eccentricity, tectonicActivity, moons).Some?
    ensures s.civilization.Some? ==>
      var c := Evolve(m, star, 0.0, s, environment, eccentricity, tectonicActivity, moons).value.civilization.value;
      c.kardashev == s.civilization.value.kardashev && c.technology == s.civilization.value.technology
    ensures s.conditions.Some? && 0.0 <= s.conditions.value.habitability <= 1.0 ==>
      Evolve(m, star, 0.0, s, environment, eccentricity, tectonicActivity, moons).value.conditions == s.conditions
  {
    if s.civilization.Some? {
      var rate := CivilizationEvolution.EvolutionRate(s.resources.value, environment.value, eccentricity,
                                                       tectonicActivity, moons);
      CrisesNeverHelp(GrowCivilization(m, s.civilization.value, rate, 0.0),
                      MigrationIssues(ConsumeAll(s.resources.value, 0.0), environment.value));
    }
  }

  /**
   * A planet object: `civilization`, `resources` and `conditions` are rewritten
   * in place; `environment`, the orbit's eccentricity, `tectonicActivity` and
   * `moons`, which the evolution rate reads, are never written.
   */
  class Planet {
    var civilization: Option<Civilization>
    var resources: Option<Resources>
    var conditions: Option<Conditions>
    const environment: Option<Environment>
    const eccentricity: Option<real>
    const tectonicActivity: Option<string>
    const moons: Option<seq<Moon>>

    function State(): PlanetState
      reads this
    {
      PlanetState(civilization, resources, conditions)
    }

    predicate Valid()
      reads this
    {
      ReadableState(State())
    }

    constructor (civilization: Option<Civilization>, resources: Option<Resources>, conditions: Option<Conditions>,
                 environment: Option<Environment>, eccentricity: Option<real>, tectonicActivity: Option<string>,
                 moons: Option<seq<Moon>>)
      ensures State() == PlanetState(civilization, resources, conditions)
      ensures this.environment == environment && this.eccentricity == eccentricity
      ensures this.tectonicActivity == tectonicActivity && this.moons == moons
    {
      this.civilization := civilization;
      this.resources := resources;
      this.conditions := conditions;
      this.environment := environment;
      this.eccentricity := eccentricity;
      this.tectonicActivity := tectonicActivity;
      this.moons := moons;
    }

    /**
     * A planet as `generatePlanets` stores it. It has no `environment`, so
     * `evolvePlanet` throws on it.
     */
    constructor FromRecord(p: PlanetRecord)
      ensures State() == PlanetState(Some(p.civilization), Some(p.resources), Some(p.conditions))
      ensures environment.None? && eccentricity == Some(p.orbit.eccentricity)
      ensures tectonicActivity.None? && moons == Some(p.moons)
      ensures !Evolvable(environment, State())
    {
      civilization := Some(p.civilization);
      resources := Some(p.resources);
      conditions := Some(p.conditions);
      environment := None;
      eccentricity := Some(p.orbit.eccentricity);
      tectonicActivity := None;
      moons := Some(p.moons);
    }

    /** `simulateResourceConsumption`: every entry of `resources` consumed for `years`. */
    method SimulateResourceConsumption(years: real)
      modifies this
      ensures resources == (if old(resources).Some? then Some(ConsumeAll(old(resources).value, years)) else None)
      ensures civilization == old(civilization) && conditions == old(conditions)
    {
      if resources.None? {
        return;
      }
      var entries := resources.value;
      var i := 0;
      while i < |entries|
        invariant 0 <= i <= |entries| == |resources.value|
        invariant forall k :: 0 <= k < i ==>
          entries[k] == (resources.value[k].0, Consume(resources.value[k].1, years))
        invariant forall k :: i <= k < |entries| ==> entries[k] == resources.value[k]
      {
        ghost var before := entries[i].1;
        var resource := entries[i].1;
        if resource.current != 0.0 && resource.depletionRate != 0.0 {
          var current := Max(0.0, resource.current - resource.depletionRate * years);
          var yearsRemaining := resource.yearsRemaining;
          if resource.depletionRate > 0.0 {
            yearsRemaining := Some((current / resource.depletionRate).Floor);
          }
          assert CivilizationEvolution.Tracked(before);
          assert Consume(before, years).current == current;
          assert Consume(before, years).yearsRemaining == yearsRemaining;
          resource := Resource(current, resource.depletionRate, yearsRemaining, resource.initial, resource.capacity);
          assert resource == Consume(before, years);
        }
        assert resource == Consume(before, years);
        entries := entries[i := (entries[i].0, resource)];
        i := i + 1;
      }
      assert entries == ConsumeAll(resources.value, years);
      resources := Some(entries);
    }

    /** `simulateEnvironmentalChanges`: the climate drift, when the planet has `conditions`. */
    method SimulateEnvironmentalChanges(m: MathLib, star: Star, years: real)
      requires m.Lawful()
      modifies this
      ensures conditions == (if old(conditions).Some? then
        Some(ClimateStep(old(conditions).value, HabitabilityChange(m, star, civilization, years), years)) else None)
      ensures civilization == old(civilization) && resources == old(resources)
    {
      if conditions.None? {
        return;
      }
      var c := conditions.value;
      c := c.(temperature := c.temperature.(surface := c.temperature.surface + years * 0.001));
      if c.habitability != 0.0 {
        var change := HabitabilityChange(m, star, civilization, years);
        c := c.(habitability := MathUtils.Clamp(c.habitability + change, 0.0, 1.0));
      }
      conditions := Some(c);
    }

    /** `handleResourceCrisis` on the planet's civilization. */
    method HandleResourceCrisis()
      requires civilization.Some?
      modifies this
      ensures civilization == Some(ResourceCrisisStep(old(civilization).value))
      ensures resources == old(resources) && conditions == old(conditions)
    {
      var c := civilization.value;
      c := c.(happiness := c.happiness - 20.0, stability := c.stability - 15.0);
      c := c.(happiness := Max(0.0, c.happiness), stability := Max(0.0, c.stability));
      civilization := Some(c);
    }

    /** `handleEnvironmentalCrisis` on the planet's civilization. */
    method HandleEnvironmentalCrisis()
      requires civilization.Some?
      modifies this
      ensures civilization == Some(EnvironmentalCrisisStep(old(civilization).value))
      ensures resources == old(resources) && conditions == old(conditions)
    {
      var c := civilization.value;
      c := c.(happiness := c.happiness - 30.0, stability := c.stability - 25.0);
      c := c.(population := (c.population as real * 0.8).Floor);
      civilization := Some(c);
    }

    /** `handlePlanetaryCrises`: each issue handled in order. */
    method HandlePlanetaryCrises(issues: seq<CivilizationEvolution.Issue>)
      requires civilization.Some?
      modifies this
      ensures civilization == Some(ApplyCrises(old(civilization).value, issues))
      ensures resources == old(resources) && conditions == old(conditions)
    {
      var i := 0;
      while i < |issues|
        invariant 0 <= i <= |issues|
        invariant civilization == Some(ApplyCrises(old(civilization).value, issues[..i]))
        invariant resources == old(resources) && conditions == old(conditions)
      {
        assert issues[..i + 1][..i] == issues[..i];
        if issues[i].kind == "resource_depletion" {
          HandleResourceCrisis();
        } else if issues[i].kind == "environmental_collapse" {
          HandleEnvironmentalCrisis();
        }
        i := i + 1;
      }
      assert issues[..|issues|] == issues;
    }

    /**
     * The growth block of `evolvePlanet`: Kardashev level, population, then
     * every technology in key order.
     */
    method GrowCivilizationInPlace(m: MathLib, rate: real, years: real)
      requires m.Lawful() && civilization.Some?
      modifies this
      ensures civilization == Some(GrowCivilization(m, old(civilization).value, rate, years))
      ensures resources == old(resources) && conditions == old(conditions)
    {
      var c := civilization.value;
      c := c.(kardashev := c.kardashev + rate * years / 100.0);
      c := c.(population := (c.population as real * m.pow(c.growthRate, years)).Floor);
      var technology := c.technology;
      var i := 0;
      while i < |technology|
        invariant 0 <= i <= |technology| == |c.technology|
        invariant forall k :: 0 <= k < i ==> technology[k] == (c.technology[k].0, c.technology[k].1 + rate * years / 50.0)
        invariant forall k :: i <= k < |technology| ==> technology[k] == c.technology[k]
      {
        technology := technology[i := (technology[i].0, technology[i].1 + rate * years / 50.0)];
        i := i + 1;
      }
      assert technology == GrowTechnology(c.technology, rate * years / 50.0);
      ghost var c0 := old(civilization).value;
      assert c.kardashev == c0.kardashev + rate * years / 100.0;
      assert c.population == (c0.population as real * m.pow(c0.growthRate, years)).Floor;
      assert c.(technology := technology) == GrowCivilization(m, c0, rate, years);
      civilization := Some(c.(technology := technology));
    }

    /**
     * `evolvePlanet`: `false` stands for the TypeError thrown when the planet
     * has no `environment` or no `resources`, raised before anything changes.
     */
    method EvolvePlanet(m: MathLib, star: Star, years: real) returns (ok: bool)
      requires m.Lawful() && Valid()
      modifies this
      ensures ok <==> Evolvable(environment, old(State()))
      ensures ok ==> PlanetEvolved(m, star, years, this, old(State()))
      ensures !ok ==> State() == old(State())
      ensures Valid()
    {
      if environment.None? || resources.None? {
        return false;
      }
      var rate := CivilizationEvolution.EvolutionRate(resources.value, environment.value, eccentricity,
                                                       tectonicActivity, moons);
      ConsumeAllReadable(resources.value, years);
      if civilization.Some? {
        GrowCivilizationInPlace(m, rate, years);
        SimulateResourceConsumption(years);
        var crises := CivilizationEvolution.CheckMigrationNeeded(resources, environment);
        if |crises| > 0 {
          HandlePlanetaryCrises(crises);
        }
      }
      SimulateEnvironmentalChanges(m, star, years);
      ok := true;
    }
  }

  // ----- Star systems -----

  /** The states of `planets`, in order. */
  function States(planets: seq<Planet>): (r: seq<PlanetState>)
    reads planets
    ensures |r| == |planets|
    ensures forall i :: 0 <= i < |r| ==> r[i] == planets[i].State()
  {
    seq(|planets|, i reads planets requires 0 <= i < |planets| => planets[i].State())
  }

  /**
   * The index of the first planet, from `k` on, that `evolvePlanet` throws on
   * (or `|planets|`), judged on the states `before`.
   */
  function FirstFailure(planets: seq<Planet>, before: seq<PlanetState>, k: nat): (f: nat)
    requires |before| == |planets| && k <= |planets|
    ensures k <= f <= |planets|
    ensures forall i :: k <= i < f ==> Evolvable(planets[i].environment, before[i])
    ensures f < |planets| ==> !Evolvable(planets[f].environment, before[f])
    decreases |planets| - k
  {
    if k == |planets| || !Evolvable(planets[k].environment, before[k]) then k
    else FirstFailure(planets, before, k + 1)
  }

  /**
   * `simulateSystemEvolution`'s outcome from the states `before`: the planets
   * before the first failure are evolved, the failing one and every later one
   * are untouched (the exception ends the loop).
   */
  predicate SystemEvolved(m: MathLib, star: Star, years: real, planets: seq<Planet>, before: seq<PlanetState>)
    requires m.Lawful() && |before| == |planets|
    reads planets
  {
    var f := FirstFailure(planets, before, 0);
    forall i :: 0 <= i < |planets| ==>
      if i < f then ReadableState(before[i]) && PlanetEvolved(m, star, years, planets[i], before[i])
      else planets[i].State() == before[i]
  }

  /** The planet's state is `evolvePlanet`'s result from the state `before`. */
  predicate PlanetEvolved(m: MathLib, star: Star, years: real, planet: Planet, before: PlanetState)
    requires m.Lawful() && ReadableState(before)
    reads planet
  {
    Some(planet.State()) ==
      Evolve(m, star, years, before, planet.environment, planet.eccentricity, planet.tectonicActivity, planet.moons)
  }

  /** A star system: `physics.primaryStar` and `celestialBodies.planets`. */
  class StarSystem {
    const star: Star
    const planets: seq<Planet>

    constructor (star: Star, planets: seq<Planet>)
      ensures this.star == star && this.planets == planets
    {
      this.star := star;
      this.planets := planets;
    }

    /** Every planet's resource factor can be computed. */
    predicate Valid()
      reads planets
    {
      forall i :: 0 <= i < |planets| ==> planets[i].Valid()
    }
  }

  /** No planet object occurs twice, within a system or across systems. */
  ghost predicate Disjoint(systems: seq<StarSystem>) {
    forall i, j, a, b ::
      (0 <= i < |systems| && 0 <= j < |systems| && 0 <= a < |systems[i].planets| && 0 <= b < |systems[j].planets|
       && (i != j || a != b)) ==> systems[i].planets[a] != systems[j].planets[b]
  }

  /** The planets of all systems, system by system. */
  function Planets(systems: seq<StarSystem>): (r: seq<Planet>)
    ensures forall i, a :: 0 <= i < |systems| && 0 <= a < |systems[i].planets| ==> systems[i].planets[a] in r
  {
    if |systems| == 0 then []
    else
      var last := systems[|systems| - 1];
      assert forall i :: 0 <= i < |systems| - 1 ==> systems[i] == systems[..|systems| - 1][i];
      Planets(systems[..|systems| - 1]) + last.planets
  }

  /** `simulateSystemEvolution` without the save: each planet evolved in turn until one throws. */
  method SimulateSystemEvolution(m: MathLib, system: StarSystem, years: real)
    requires m.Lawful() && system.Valid()
    requires forall a, b :: 0 <= a < b < |system.planets| ==> system.planets[a] != system.planets[b]
    modifies system.planets
    ensures SystemEvolved(m, system.star, years, system.planets, old(States(system.planets)))
    ensures system.Valid()
  {
    ghost var before := States(system.planets);
    ghost var f := FirstFailure(system.planets, before, 0);
    var i := 0;
    while i < |system.planets|
      invariant 0 <= i <= f
      invariant system.Valid()
      invariant forall k :: 0 <= k < i ==> PlanetEvolved(m, system.star, years, system.planets[k], before[k])
      invariant forall k :: i <= k < |system.planets| ==> system.planets[k].State() == before[k]
    {
      assert forall k :: 0 <= k < |system.planets| && k != i ==> system.planets[k] != system.planets[i];
      var ok := system.planets[i].EvolvePlanet(m, system.star, years);
      if !ok {
        assert f == i;
        return;
      }
      i := i + 1;
    }
    assert i == f;
  }

  // ----- Player statistics -----

  /** `getPlayerStats`'s record. */
  datatype Stats = Stats(systems: nat, totalPlanets: nat, totalPopulation: int, averageKardashev: real)

  /** Population, summed Kardashev level and count over the planets that have a civilization. */
  datatype Tally = Tally(population: int, kardashev: real, civilized: nat)

  /** The `reduce` over `celestialBodies.planets.length`. */
  function PlanetCount(systems: seq<StarSystem>): nat {
    if |systems| == 0 then 0 else PlanetCount(systems[..|systems| - 1]) + |systems[|systems| - 1].planets|
  }

  /** The nested `forEach` that sums over civilized planets, in order. */
  function TallyOf(planets: seq<Planet>): Tally
    reads planets
  {
    if |planets| == 0 then Tally(0, 0.0, 0)
    else
      var t := TallyOf(planets[..|planets| - 1]);
      var last := planets[|planets| - 1];
      if last.civilization.Some? then
        Tally(t.population + last.civilization.value.population,
              t.kardashev + last.civilization.value.kardashev, t.civilized + 1)
      else t
  }

  /** `totalKardashev / planetCount`, or 0 with no civilization. */
  function Average(t: Tally): real {
    if t.civilized > 0 then t.kardashev / t.civilized as real else 0.0
  }

  /** What `getPlayerStats` returns for a signed-in player owning `systems`. */
  function PlayerStats(systems: seq<StarSystem>): Stats
    reads Planets(systems)
  {
    var t := TallyOf(Planets(systems));
    Stats(|systems|, PlanetCount(systems), t.population, Average(t))
  }

  /** The total planet count is the number of planets across all systems. */
  lemma {:induction false} PlanetCountIsPlanets(systems: seq<StarSystem>)
    ensures PlanetCount(systems) == |Planets(systems)|
  {
    if |systems| > 0 {
      PlanetCountIsPlanets(systems[..|systems| - 1]);
    }
  }

  /** The tally counts exactly the planets that have a civilization. */
  lemma {:induction false} TallyCounts(planets: seq<Planet>)
    ensures TallyOf(planets).civilized <= |planets|
    ensures TallyOf(planets).civilized == 0 <==> forall i :: 0 <= i < |planets| ==> planets[i].civilization.None?
  {
    if |planets| > 0 {
      var init := planets[..|planets| - 1];
      TallyCounts(init);
      assert forall i :: 0 <= i < |init| ==> init[i] == planets[i];
    }
  }

  /** The summed Kardashev level lies between `civilized·lo` and `civilized·hi`. */
  predicate SumBounded(t: Tally, lo: real, hi: real) {
    t.civilized as real * lo <= t.kardashev <= t.civilized as real * hi
  }

  /** Bounds on every civilization's Kardashev level and population carry over to the sums. */
  lemma {:induction false} TallyBounds(planets: seq<Planet>, lo: real, hi: real)
    requires forall i :: 0 <= i < |planets| && planets[i].civilization.Some? ==>
      lo <= planets[i].civilization.value.kardashev <= hi && planets[i].civilization.value.population >= 0
    ensures SumBounded(TallyOf(planets), lo, hi)
    ensures TallyOf(planets).population >= 0
  {
    if |planets| > 0 {
      var init := planets[..|planets| - 1];
      assert forall i :: 0 <= i < |init| ==> init[i] == planets[i];
      TallyBounds(init, lo, hi);
      var n := TallyOf(init).civilized as real;
      assert (n + 1.0) * lo == n * lo + lo;
      assert (n + 1.0) * hi == n * hi + hi;
    }
  }

  /** `n·lo ≤ k ≤ n·hi` with `n > 0` puts `k / n` in [lo, hi]. */
  lemma QuotientBounds(k: real, n: real, lo: real, hi: real)
    requires n > 0.0 && n * lo <= k <= n * hi
    ensures lo <= k / n <= hi
  {
  }

  /** Sum bounds on a tally bound its average. */
  lemma TallyAverageBounds(t: Tally, lo: real, hi: real)
    requires SumBounded(t, lo, hi)
    ensures t.civilized > 0 ==> lo <= Average(t) <= hi
    ensures t.civilized == 0 ==> Average(t) == 0.0
  {
    if t.civilized > 0 {
      QuotientBounds(t.kardashev, t.civilized as real, lo, hi);
    }
  }

  /** The average Kardashev level lies within the levels' bounds, and is 0 without civilizations. */
  lemma AverageWithinBounds(planets: seq<Planet>, lo: real, hi: real)
    requires forall i :: 0 <= i < |planets| && planets[i].civilization.Some? ==>
      lo <= planets[i].civilization.value.kardashev <= hi && planets[i].civilization.value.population >= 0
    ensures TallyOf(planets).civilized > 0 ==> lo <= Average(TallyOf(planets)) <= hi
    ensures (forall i :: 0 <= i < |planets| ==> planets[i].civilization.None?) ==> Average(TallyOf(planets)) == 0.0
  {
    TallyBounds(planets, lo, hi);
    TallyCounts(planets);
    TallyAverageBounds(TallyOf(planets), lo, hi);
  }

  /** The game engine: `currentUser` (signed in or not), `gameState.galacticYear` and `userSystems`. */
  class Engine {
    var signedIn: bool
    var galacticYear: real
    var userSystems: seq<StarSystem>

    constructor ()
      ensures !signedIn && galacticYear == 2024.0 && userSystems == []
    {
      signedIn := false;
      galacticYear := 2024.0;
      userSystems := [];
    }

    /**
     * `advanceTime`: signed out, nothing happens; signed in, the galactic year
     * moves by `years` and every system evolves in turn (a failure in one
     * system is caught there and the next system still evolves).
     */
    method AdvanceTime(m: MathLib, years: real)
      requires m.Lawful() && Disjoint(userSystems)
      requires forall i :: 0 <= i < |userSystems| ==> userSystems[i].Valid()
      modifies this, Planets(userSystems)
      ensures signedIn == old(signedIn) && userSystems == old(userSystems)
      ensures galacticYear == if signedIn then old(galacticYear) + years else old(galacticYear)
      ensures forall i :: 0 <= i < |userSystems| ==> userSystems[i].Valid()
      ensures !signedIn ==> forall i :: 0 <= i < |userSystems| ==>
        States(userSystems[i].planets) == old(States(userSystems[i].planets))
      ensures signedIn ==> forall i :: 0 <= i < |userSystems| ==>
        SystemEvolved(m, userSystems[i].star, years, userSystems[i].planets, old(States(userSystems[i].planets)))
    {
      if !signedIn {
        return;
      }
      galacticYear := galacticYear + years;
      var i := 0;
      while i < |userSystems|
        invariant 0 <= i <= |userSystems|
        invariant signedIn && userSystems == old(userSystems) && galacticYear == old(galacticYear) + years
        invariant forall k :: 0 <= k < |userSystems| ==> userSystems[k].Valid()
        invariant forall k :: 0 <= k < i ==>
          SystemEvolved(m, userSystems[k].star, years, userSystems[k].planets, old(States(userSystems[k].planets)))
        invariant forall k :: i <= k < |userSystems| ==>
          States(userSystems[k].planets) == old(States(userSystems[k].planets))
      {
        label Before:
        SimulateSystemEvolution(m, userSystems[i], years);
        assert forall k :: 0 <= k < |userSystems| && k != i ==> unchanged@Before(userSystems[k].planets);
        i := i + 1;
      }
    }

    /** `getPlayerStats`: `null` when signed out. */
    method GetPlayerStats() returns (stats: Option<Stats>)
      ensures stats == if signedIn then Some(PlayerStats(userSystems)) else None
    {
      if !signedIn {
        return None;
      }
      var totalPlanets := 0;
      var i := 0;
      while i < |userSystems|
        invariant 0 <= i <= |userSystems|
        invariant totalPlanets == PlanetCount(userSystems[..i])
      {
        assert userSystems[..i + 1][..i] == userSystems[..i];
        totalPlanets := totalPlanets + |userSystems[i].planets|;
        i := i + 1;
      }
      var totalPopulation := 0;
      var totalKardashev := 0.0;
      var planetCount := 0;
      i := 0;
      while i < |userSystems|
        invariant 0 <= i <= |userSystems|
        invariant Tally(totalPopulation, totalKardashev, planetCount) == TallyOf(Planets(userSystems[..i]))
      {
        ghost var done := Planets(userSystems[..i]);
        var planets := userSystems[i].planets;
        assert done + planets[..0] == done;
        var j := 0;
        while j < |planets|
          invariant 0 <= j <= |planets|
          invariant Tally(totalPopulation, totalKardashev, planetCount) == TallyOf(done + planets[..j])
        {
          assert (done + planets[..j + 1])[..|done| + j] == done + planets[..j];
          var planet := planets[j];
          if planet.civilization.Some? {
            totalPopulation := totalPopulation + planet.civilization.value.population;
            totalKardashev := totalKardashev + planet.civilization.value.kardashev;
            planetCount := planetCount + 1;
          }
          j := j + 1;
        }
        assert planets[..|planets|] == planets;
        assert userSystems[..i + 1][..i] == userSystems[..i];
        i := i + 1;
      }
      assert userSystems[..|userSystems|] == userSystems;
      var averageKardashev := if planetCount > 0 then totalKardashev / planetCount as real else 0.0;
      return Some(Stats(|userSystems|, totalPlanets, totalPopulation, averageKardashev));
    }
  }
}
