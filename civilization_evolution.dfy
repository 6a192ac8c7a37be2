/**
 * The civilization rules (`CivilizationEvolution`): the evolution rate built
 * from resource, environment, stability and moon factors, and the projection
 * of resource and environmental crises over 100, 1000 and 10000 years.
 */
module CivilizationEvolution {
  import opened Numeric
  import opened Wrappers
  import opened Galaxy
  import MathUtils
  import Seqs

  const BASE_RATE: real := 0.01
  const MIN_RATE: real := 0.001
  const MAX_RATE: real := 0.1
  /** Rare elements are measured against this fixed stock, not against their own `initial`. */
  const RARE_ELEMENTS_REFERENCE: real := 10000.0

  // ----- Resource factor -----

  /** `Math.min(1, current / denominator)`. */
  function CappedRatio(current: real, denominator: real): (r: real)
    requires denominator != 0.0
    ensures r <= 1.0
    ensures current >= 0.0 && denominator > 0.0 ==> r >= 0.0
    ensures current >= denominator && denominator > 0.0 ==> r == 1.0
  {
    QuotientFacts(current, denominator);
    Min(1.0, current / denominator)
  }

  lemma QuotientFacts(current: real, denominator: real)
    requires denominator != 0.0
    ensures current >= 0.0 && denominator > 0.0 ==> current / denominator >= 0.0
    ensures current >= denominator && denominator > 0.0 ==> current / denominator >= 1.0
  {
    if current >= 0.0 && denominator > 0.0 {
      DivMonotone(0.0, current, denominator);
    }
    if current >= denominator && denominator > 0.0 {
      DivMonotone(denominator, current, denominator);
    }
  }

  /** The ratios the resource factor divides by are defined: metals by `initial`, energy by `capacity`. */
  predicate Readable(resources: Resources) {
    && (Lookup(resources, "metals").Some? ==> Lookup(resources, "metals").value.initial != 0.0)
    && (Lookup(resources, "energy").Some? ==> Lookup(resources, "energy").value.capacity != 0.0)
  }

  /** The stocks are non-negative and measured against positive references. */
  predicate Stocked(resources: Resources) {
    && (Lookup(resources, "metals").Some? ==>
          Lookup(resources, "metals").value.current >= 0.0 && Lookup(resources, "metals").value.initial > 0.0)
    && (Lookup(resources, "energy").Some? ==>
          Lookup(resources, "energy").value.current >= 0.0 && Lookup(resources, "energy").value.capacity > 0.0)
    && (Lookup(resources, "rareElements").Some? ==> Lookup(resources, "rareElements").value.current >= 0.0)
  }

  function MetalsTerm(resources: Resources): real
    requires Readable(resources)
  {
    match Lookup(resources, "metals")
    case None => 0.0
    case Some(r) => CappedRatio(r.current, r.initial) * 0.4
  }

  function EnergyTerm(resources: Resources): real
    requires Readable(resources)
  {
    match Lookup(resources, "energy")
    case None => 0.0
    case Some(r) => CappedRatio(r.current, r.capacity) * 0.3
  }

  function RareTerm(resources: Resources): real {
    match Lookup(resources, "rareElements")
    case None => 0.0
    case Some(r) => CappedRatio(r.current, RARE_ELEMENTS_REFERENCE) * 0.3
  }

  /**
   * `calculateResourceFactor`: the weighted sum 0.4 / 0.3 / 0.3 of the capped
   * metals, energy and rare-element ratios, over the entries present.
   */
  function ResourceFactor(resources: Resources): (f: real)
    requires Readable(resources)
    ensures f <= 1.0
    ensures Stocked(resources) ==> 0.0 <= f
  {
    MetalsTerm(resources) + EnergyTerm(resources) + RareTerm(resources)
  }

  /** With every stock at or above its reference the factor is 1. */
  lemma FullStocksGiveFullFactor(resources: Resources)
    requires Readable(resources)
    requires Lookup(resources, "metals").Some? && Lookup(resources, "metals").value.initial > 0.0
      && Lookup(resources, "metals").value.current >= Lookup(resources, "metals").value.initial
    requires Lookup(resources, "energy").Some? && Lookup(resources, "energy").value.capacity > 0.0
      && Lookup(resources, "energy").value.current >= Lookup(resources, "energy").value.capacity
    requires Lookup(resources, "rareElements").Some?
      && Lookup(resources, "rareElements").value.current >= RARE_ELEMENTS_REFERENCE
    ensures ResourceFactor(resources) == 1.0
  {
  }

  // ----- Environment factor -----

  /** The habitability ladder: below 0.3, below 0.6, above 0.9, otherwise; `undefined` compares false everywhere. */
  function HabitabilityFactor(habitability: Option<real>): (f: real)
    ensures f == 0.3 || f == 0.7 || f == 1.0 || f == 1.2
    ensures habitability.None? ==> f == 1.0
  {
    match habitability
    case None => 1.0
    case Some(h) =>
      if h < 0.3 then 0.3
      else if h < 0.6 then 0.7
      else if h > 0.9 then 1.2
      else 1.0
  }

  /** `calculateEnvironmentFactor`: the ladder, times 0.8 when the temperature stability is below 0.5. */
  function EnvironmentFactor(environment: Environment): (f: real)
    ensures 0.24 <= f <= 1.2
    ensures environment.temperatureStability.Some? && environment.temperatureStability.value < 0.5
      ==> f == HabitabilityFactor(environment.habitability) * 0.8
    ensures !(environment.temperatureStability.Some? && environment.temperatureStability.value < 0.5)
      ==> f == HabitabilityFactor(environment.habitability)
  {
    var factor := HabitabilityFactor(environment.habitability);
    if environment.temperatureStability.Some? && environment.temperatureStability.value < 0.5 then factor * 0.8
    else factor
  }

  /** A more habitable planet never has a smaller environment factor. */
  lemma EnvironmentFactorMonotone(h1: real, h2: real, temperatureStability: Option<real>)
    requires h1 <= h2
    ensures EnvironmentFactor(Environment(Some(h1), temperatureStability))
         <= EnvironmentFactor(Environment(Some(h2), temperatureStability))
  {
  }

  // ----- Stability factor -----

  /** `moon.mass > 0.01`. */
  predicate IsLargeMoon(moon: Moon) {
    moon.mass > 0.01
  }

  /** The number of large moons (`moons.filter(...).length`), 0 without a moon list. */
  function LargeMoonCount(moons: Option<seq<Moon>>): (n: nat)
    ensures moons.None? ==> n == 0
    ensures moons.Some? ==> n <= |moons.value|
  {
    match moons
    case None => 0
    case Some(list) => Seqs.Count(list, IsLargeMoon)
  }

  /** The stability product for a given number of large moons, capped at 1.5. */
  function StabilityFromCount(eccentricity: Option<real>, tectonicActivity: Option<string>, largeMoons: nat): (f: real)
    ensures 0.72 <= f <= 1.5
  {
    var orbital := if eccentricity.Some? && eccentricity.value > 0.2 then 0.9 else 1.0;
    var tectonic := if tectonicActivity == Some("high") then 0.8 else 1.0;
    var product := 1.0 * orbital * tectonic * (1.0 + largeMoons as real * 0.1);
    assert product >= orbital * tectonic by {
      MulMonotone(orbital * tectonic, 1.0, 1.0 + largeMoons as real * 0.1);
    }
    Min(1.5, product)
  }

  /**
   * `calculateStabilityFactor`: ×0.9 for an eccentricity above 0.2, ×0.8 for
   * 'high' tectonic activity, ×(1 + 0.1·large moons), never above 1.5.
   */
  function StabilityFactor(eccentricity: Option<real>, tectonicActivity: Option<string>, moons: Option<seq<Moon>>)
    : (f: real)
    ensures 0.72 <= f <= 1.5
    ensures LargeMoonCount(moons) == 0 ==> f <= 1.0
  {
    StabilityFromCount(eccentricity, tectonicActivity, LargeMoonCount(moons))
  }

  /** More large moons never make a planet less stable. */
  lemma StabilityGrowsWithMoons(eccentricity: Option<real>, tectonicActivity: Option<string>, n1: nat, n2: nat)
    requires n1 <= n2
    ensures StabilityFromCount(eccentricity, tectonicActivity, n1) <= StabilityFromCount(eccentricity, tectonicActivity, n2)
  {
    var orbital := if eccentricity.Some? && eccentricity.value > 0.2 then 0.9 else 1.0;
    var tectonic := if tectonicActivity == Some("high") then 0.8 else 1.0;
    MulMonotone(orbital * tectonic, 1.0 + n1 as real * 0.1, 1.0 + n2 as real * 0.1);
  }

  // ----- Evolution rate -----

  /** `1 + 0.05·#moons` when the moon list is non-empty, otherwise 1. */
  function MoonFactor(moons: Option<seq<Moon>>): (f: real)
    ensures f >= 1.0
    ensures moons.None? || |moons.value| == 0 ==> f == 1.0
  {
    if moons.Some? && |moons.value| > 0 then 1.0 + |moons.value| as real * 0.05 else 1.0
  }

  /** The evolution rate before the clamp: 0.01 times the four factors. */
  function RawRate(
    resources: Resources, environment: Environment,
    eccentricity: Option<real>, tectonicActivity: Option<string>, moons: Option<seq<Moon>>): real
    requires Readable(resources)
  {
    BASE_RATE * ResourceFactor(resources) * EnvironmentFactor(environment)
      * StabilityFactor(eccentricity, tectonicActivity, moons) * MoonFactor(moons)
  }

  /**
   * `calculateEvolutionRate`: the raw rate clamped to [0.001, 0.1] by
   * `Math.max(0.001, Math.min(0.1, rate))`. (`timeYears` is not read.)
   */
  function EvolutionRate(
    resources: Resources, environment: Environment,
    eccentricity: Option<real>, tectonicActivity: Option<string>, moons: Option<seq<Moon>>): (rate: real)
    requires Readable(resources)
    ensures MIN_RATE <= rate <= MAX_RATE
    ensures rate == MathUtils.Clamp(RawRate(resources, environment, eccentricity, tectonicActivity, moons), MIN_RATE, MAX_RATE)
  {
    Max(MIN_RATE, Min(MAX_RATE, RawRate(resources, environment, eccentricity, tectonicActivity, moons)))
  }

  /** A planet without any resource entry evolves at the minimum rate. */
  lemma NoResourcesMinimumRate(
    environment: Environment, eccentricity: Option<real>, tectonicActivity: Option<string>, moons: Option<seq<Moon>>)
    ensures EvolutionRate([], environment, eccentricity, tectonicActivity, moons) == MIN_RATE
  {
    assert ResourceFactor([]) == 0.0;
  }

  /** Within the clamp's range the rate is exactly the product of the factors. */
  lemma RateUnclampedInRange(
    resources: Resources, environment: Environment,
    eccentricity: Option<real>, tectonicActivity: Option<string>, moons: Option<seq<Moon>>)
    requires Readable(resources)
    requires MIN_RATE <= RawRate(resources, environment, eccentricity, tectonicActivity, moons) <= MAX_RATE
    ensures EvolutionRate(resources, environment, eccentricity, tectonicActivity, moons)
         == RawRate(resources, environment, eccentricity, tectonicActivity, moons)
  {
  }

  // ----- Future projection -----

  datatype ResourceCrisis = ResourceCrisis(kind: string, severity: string, yearsRemaining: int)

  datatype Projection = Projection(resourceCrisis: Option<ResourceCrisis>, environmentalCollapse: bool)

  /** The severity ladder on the remaining years: ≤ 100 critical, ≤ 1000 high, otherwise medium. */
  function Severity(remaining: real): (s: string)
    ensures s == "critical" || s == "high" || s == "medium"
    ensures s == "critical" <==> remaining <= 100.0
  {
    if remaining <= 100.0 then "critical" else if remaining <= 1000.0 then "high" else "medium"
  }

  /** A resource is projected when both `current` and `depletionRate` are truthy (non-zero). */
  predicate Tracked(resource: Resource) {
    resource.current != 0.0 && resource.depletionRate != 0.0
  }

  /** A tracked resource runs out within `years`. */
  predicate RunsOutWithin(resource: Resource, years: real) {
    Tracked(resource) && resource.current / resource.depletionRate <= years
  }

  function CrisisFor(kind: string, resource: Resource): ResourceCrisis
    requires Tracked(resource)
  {
    var remaining := resource.current / resource.depletionRate;
    ResourceCrisis(kind, Severity(remaining), remaining.Floor)
  }

  /** The crisis of the last entry, in key order, that runs out within `years` (each later one overwrites). */
  function LastCrisis(resources: Resources, years: real): Option<ResourceCrisis> {
    if |resources| == 0 then None
    else
      var last := resources[|resources| - 1];
      if RunsOutWithin(last.1, years) then Some(CrisisFor(last.0, last.1))
      else LastCrisis(resources[..|resources| - 1], years)
  }

  /** Collapse: a truthy habitability falls below 0.3 after losing 0.0001 per year. */
  predicate Collapses(environment: Option<Environment>, years: real) {
    && environment.Some?
    && environment.value.habitability.Some?
    && environment.value.habitability.value != 0.0
    && environment.value.habitability.value - years * 0.0001 < 0.3
  }

  /** `projectFutureState` over `planet.resources` (when present) and `planet.environment`. */
  method ProjectFutureState(resources: Option<Resources>, environment: Option<Environment>, years: real)
    returns (projection: Projection)
    ensures projection.resourceCrisis == if resources.Some? then LastCrisis(resources.value, years) else None
    ensures projection.environmentalCollapse == Collapses(environment, years)
  {
    projection := Projection(None, false);
    if resources.Some? {
      var list := resources.value;
      var k := 0;
      while k < |list|
        invariant 0 <= k <= |list|
        invariant projection.resourceCrisis == LastCrisis(list[..k], years)
        invariant !projection.environmentalCollapse
      {
        var resource := list[k].1;
        if resource.current != 0.0 && resource.depletionRate != 0.0 {
          var yearsRemaining := resource.current / resource.depletionRate;
          if yearsRemaining <= years {
            projection := projection.(resourceCrisis := Some(ResourceCrisis(
              list[k].0,
              if yearsRemaining <= 100.0 then "critical" else if yearsRemaining <= 1000.0 then "high" else "medium",
              yearsRemaining.Floor)));
          }
        }
        assert list[..k + 1][..k] == list[..k];
        k := k + 1;
      }
      assert list[..k] == list;
    }
    if environment.Some? && environment.value.habitability.Some? && environment.value.habitability.value != 0.0 {
      var habitabilityDecline := years * 0.0001;
      if environment.value.habitability.value - habitabilityDecline < 0.3 {
        projection := projection.(environmentalCollapse := true);
      }
    }
  }

  /**
   * The reported crisis is the one of the last entry that runs out within
   * `years`; its remaining years never exceed `years` and its severity follows them.
   */
  lemma {:induction false} LastCrisisCharacterized(resources: Resources, years: real)
    ensures LastCrisis(resources, years).Some? <==>
      exists k :: 0 <= k < |resources| && RunsOutWithin(resources[k].1, years)
    ensures LastCrisis(resources, years).Some? ==>
      exists k :: 0 <= k < |resources| && RunsOutWithin(resources[k].1, years)
        && LastCrisis(resources, years).value == CrisisFor(resources[k].0, resources[k].1)
        && (forall j :: k < j < |resources| ==> !RunsOutWithin(resources[j].1, years))
    ensures LastCrisis(resources, years).Some? ==> LastCrisis(resources, years).value.yearsRemaining as real <= years
  {
    if |resources| > 0 {
      var init := resources[..|resources| - 1];
      LastCrisisCharacterized(init, years);
      var last := resources[|resources| - 1];
      if !RunsOutWithin(last.1, years) {
        if LastCrisis(init, years).Some? {
          var k :| 0 <= k < |init| && RunsOutWithin(init[k].1, years)
            && LastCrisis(init, years).value == CrisisFor(init[k].0, init[k].1)
            && (forall j :: k < j < |init| ==> !RunsOutWithin(init[j].1, years));
          assert resources[k] == init[k];
          assert forall j :: k < j < |resources| ==> !RunsOutWithin(resources[j].1, years) by {
            forall j | k < j < |resources| ensures !RunsOutWithin(resources[j].1, years) {
              if j < |resources| - 1 { assert resources[j] == init[j]; }
            }
          }
        } else {
          forall k | 0 <= k < |resources| ensures !RunsOutWithin(resources[k].1, years) {
            if k < |resources| - 1 { assert resources[k] == init[k]; }
          }
        }
      }
    }
  }

  /** A resource that runs out within a horizon also runs out within every longer one. */
  lemma CrisisPersists(resources: Resources, y1: real, y2: real)
    requires y1 <= y2
    requires LastCrisis(resources, y1).Some?
    ensures LastCrisis(resources, y2).Some?
  {
    LastCrisisCharacterized(resources, y1);
    LastCrisisCharacterized(resources, y2);
    var k :| 0 <= k < |resources| && RunsOutWithin(resources[k].1, y1);
    assert RunsOutWithin(resources[k].1, y2);
  }

  /** A collapse projected for a horizon is projected for every longer one. */
  lemma CollapsePersists(environment: Option<Environment>, y1: real, y2: real)
    requires y1 <= y2
    requires Collapses(environment, y1)
    ensures Collapses(environment, y2)
  {
  }

  // ----- Migration check -----

  /** The horizons `checkMigrationNeeded` looks at, in order. */
  const HORIZONS: seq<real> := [100.0, 1000.0, 10000.0]

  /** An entry of `checkMigrationNeeded`'s list (the message text is not modelled). */
  datatype Issue = Issue(kind: string, severity: string, resource: Option<string>, yearsRemaining: real)

  /** The issues one horizon contributes: the resource crisis first, then the collapse. */
  function IssuesAt(projection: Projection, years: real): seq<Issue> {
    (if projection.resourceCrisis.Some? then
       [Issue("resource_depletion", projection.resourceCrisis.value.severity,
              Some(projection.resourceCrisis.value.kind), years)]
     else [])
    + (if projection.environmentalCollapse then [Issue("environmental_collapse", "critical", None, years)] else [])
  }

  /** The projection `projectFutureState` computes. */
  function Project(resources: Option<Resources>, environment: Option<Environment>, years: real): Projection {
    Projection(if resources.Some? then LastCrisis(resources.value, years) else None, Collapses(environment, years))
  }

  /** The issues of the first `n` horizons, in horizon order. */
  function IssuesUpTo(resources: Option<Resources>, environment: Option<Environment>, n: nat): seq<Issue>
    requires n <= |HORIZONS|
  {
    if n == 0 then []
    else
      IssuesUpTo(resources, environment, n - 1)
        + IssuesAt(Project(resources, environment, HORIZONS[n - 1]), HORIZONS[n - 1])
  }

  /** `checkMigrationNeeded` (its `currentYear` argument is not read). */
  method CheckMigrationNeeded(resources: Option<Resources>, environment: Option<Environment>)
    returns (issues: seq<Issue>)
    ensures issues == IssuesUpTo(resources, environment, |HORIZONS|)
  {
    issues := [];
    var n := 0;
    while n < |HORIZONS|
      invariant 0 <= n <= |HORIZONS|
      invariant issues == IssuesUpTo(resources, environment, n)
    {
      var years := HORIZONS[n];
      var futureState := ProjectFutureState(resources, environment, years);
      if futureState.resourceCrisis.Some? {
        issues := issues + [Issue("resource_depletion", futureState.resourceCrisis.value.severity,
                                  Some(futureState.resourceCrisis.value.kind), years)];
      }
      if futureState.environmentalCollapse {
        issues := issues + [Issue("environmental_collapse", "critical", None, years)];
      }
      n := n + 1;
    }
  }

  /** At most two issues per horizon, so at most six; each carries its horizon, not the actual remaining time. */
  lemma {:induction false} IssuesBounded(resources: Option<Resources>, environment: Option<Environment>, n: nat)
    requires n <= |HORIZONS|
    ensures |IssuesUpTo(resources, environment, n)| <= 2 * n
    ensures forall i :: 0 <= i < |IssuesUpTo(resources, environment, n)| ==>
      IssuesUpTo(resources, environment, n)[i].yearsRemaining in HORIZONS[..n]
  {
    if n > 0 {
      IssuesBounded(resources, environment, n - 1);
      var prev: seq<Issue> := IssuesUpTo(resources, environment, n - 1);
      var here: seq<Issue> := IssuesAt(Project(resources, environment, HORIZONS[n - 1]), HORIZONS[n - 1]);
      assert IssuesUpTo(resources, environment, n) == prev + here;
      forall i | 0 <= i < |prev + here|
        ensures (prev + here)[i].yearsRemaining in HORIZONS[..n]
      {
        if i < |prev| {
          assert (prev + here)[i] == prev[i];
          assert HORIZONS[..n - 1] <= HORIZONS[..n];
        } else {
          assert (prev + here)[i] in here;
          assert HORIZONS[n - 1] == HORIZONS[..n][n - 1];
        }
      }
    }
  }

  /** Any issue kind flagged at a horizon is flagged again at every later horizon. */
  lemma IssueKindsPersist(resources: Option<Resources>, environment: Option<Environment>, a: nat, b: nat, kind: string)
    requires a <= b < |HORIZONS|
    requires exists issue :: issue in IssuesAt(Project(resources, environment, HORIZONS[a]), HORIZONS[a]) && issue.kind == kind
    ensures exists issue :: issue in IssuesAt(Project(resources, environment, HORIZONS[b]), HORIZONS[b]) && issue.kind == kind
  {
    var pa := Project(resources, environment, HORIZONS[a]);
    var pb := Project(resources, environment, HORIZONS[b]);
    var issue :| issue in IssuesAt(pa, HORIZONS[a]) && issue.kind == kind;
    if pa.resourceCrisis.Some? {
      CrisisPersists(resources.value, HORIZONS[a], HORIZONS[b]);
    }
    if pa.environmentalCollapse {
      CollapsePersists(environment, HORIZONS[a], HORIZONS[b]);
    }
    if kind == "resource_depletion" {
      assert pb.resourceCrisis.Some?;
      assert IssuesAt(pb, HORIZONS[b])[0].kind == kind;
    } else {
      assert pb.environmentalCollapse;
      assert IssuesAt(pb, HORIZONS[b])[|IssuesAt(pb, HORIZONS[b])| - 1].kind == kind;
    }
  }
}
