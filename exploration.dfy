/**
 * The exploration system (`ExplorationSystem`): which systems an area
 * exploration discovers, how search results, popular systems and nearby
 * systems are ordered, the discovery rank, the elapsed-time label, the
 * compass direction, and the list of galactic events with its expiry.
 *
 * The Firestore reads are parameters (the list of explorable systems), and so
 * are the outcome of each `addDiscovererToSystem` write, `Math.random` and
 * the clock (milliseconds).
 */
module Exploration {
  import opened Numeric
  import opened Wrappers
  import MathUtils
  import Seqs

  /**
   * An explorable system as these operations read it: `id`,
   * `ownership.ownerId`, `discovery.discoverers` and `basicInfo.coordinates`.
   */
  datatype Explorable = Explorable(id: string, ownerId: string, discoverers: seq<string>, x: real, y: real)

  /** The ids of `systems`. */
  function Ids(systems: seq<Explorable>): set<string> {
    set i | 0 <= i < |systems| :: systems[i].id
  }

  lemma IdsSnoc(systems: seq<Explorable>, s: Explorable)
    ensures Ids(systems + [s]) == Ids(systems) + {s.id}
  {
    var both := systems + [s];
    assert forall i :: 0 <= i < |systems| ==> both[i] == systems[i];
    assert both[|systems|] == s;
  }

  // ----- Discovery rank -----

  /** The ranks from lowest to highest. */
  const RANKS: seq<string> :=
    ["Novato", "Astrónomo", "Cartógrafo", "Navegante Espacial", "Explorador Estelar", "Pionero Galáctico"]

  /** The discovery counts at which the next rank is reached. */
  const THRESHOLDS: seq<int> := [5, 10, 25, 50, 100]

  /** `calculateDiscoveryRank`: the ladder checked from the top down. */
  function DiscoveryRank(discoveredCount: int): (rank: string)
    ensures rank in RANKS
    ensures rank == "Novato" <==> discoveredCount < 5
    ensures rank == "Pionero Galáctico" <==> discoveredCount >= 100
  {
    if discoveredCount >= 100 then "Pionero Galáctico"
    else if discoveredCount >= 50 then "Explorador Estelar"
    else if discoveredCount >= 25 then "Navegante Espacial"
    else if discoveredCount >= 10 then "Cartógrafo"
    else if discoveredCount >= 5 then "Astrónomo"
    else "Novato"
  }

  /** How many of `thresholds` the count reaches. */
  function ThresholdsMet(count: int, thresholds: seq<int>): (n: nat)
    ensures n <= |thresholds|
  {
    if thresholds == [] then 0
    else (if count >= thresholds[0] then 1 else 0) + ThresholdsMet(count, thresholds[1..])
  }

  /** The rank is the one indexed by the number of thresholds reached. */
  lemma DiscoveryRankLadder(count: int)
    ensures DiscoveryRank(count) == RANKS[ThresholdsMet(count, THRESHOLDS)]
  {
    assert [100][1..] == [];
    assert ThresholdsMet(count, [100]) == if count >= 100 then 1 else 0;
    assert [50, 100][1..] == [100];
    assert ThresholdsMet(count, [50, 100]) == (if count >= 50 then 1 else 0) + ThresholdsMet(count, [100]);
    assert [25, 50, 100][1..] == [50, 100];
    assert ThresholdsMet(count, [25, 50, 100]) == (if count >= 25 then 1 else 0) + ThresholdsMet(count, [50, 100]);
    assert [10, 25, 50, 100][1..] == [25, 50, 100];
    assert ThresholdsMet(count, [10, 25, 50, 100]) == (if count >= 10 then 1 else 0) + ThresholdsMet(count, [25, 50, 100]);
    assert THRESHOLDS[1..] == [10, 25, 50, 100];
  }

  /** Reaching a threshold is kept as the count grows. */
  lemma {:induction false} ThresholdsMetMonotone(a: int, b: int, thresholds: seq<int>)
    requires a <= b
    ensures ThresholdsMet(a, thresholds) <= ThresholdsMet(b, thresholds)
  {
    if thresholds != [] {
      ThresholdsMetMonotone(a, b, thresholds[1..]);
    }
  }

  /** A larger discovery count never gives a lower rank. */
  lemma DiscoveryRankMonotone(a: int, b: int)
    requires a <= b
    ensures exists i, j :: 0 <= i <= j < |RANKS| && DiscoveryRank(a) == RANKS[i] && DiscoveryRank(b) == RANKS[j]
  {
    DiscoveryRankLadder(a);
    DiscoveryRankLadder(b);
    ThresholdsMetMonotone(a, b, THRESHOLDS);
    var i, j := ThresholdsMet(a, THRESHOLDS), ThresholdsMet(b, THRESHOLDS);
    assert 0 <= i <= j < |RANKS| && DiscoveryRank(a) == RANKS[i] && DiscoveryRank(b) == RANKS[j];
  }

  // ----- Elapsed time -----

  /** The labels of `getTimeAgo`: 'ahora mismo', 'hace N min', 'hace N h', 'hace 1 día', 'hace N días'. */
  datatype Elapsed = JustNow | Minutes(n: int) | Hours(n: int) | OneDay | Days(n: int)

  const MINUTE_MS: int := 60000
  const HOUR_MS: int := 3600000
  const DAY_MS: int := 86400000

  /**
   * `getTimeAgo` with the clock reading `now`: whole minutes, hours and days
   * elapsed, each rounded down (`Math.floor`; Dafny's `/` by a positive
   * divisor also rounds down).
   */
  function TimeAgo(now: int, time: int): (e: Elapsed)
    ensures e == JustNow <==> now - time < MINUTE_MS
    ensures e.Minutes? <==> MINUTE_MS <= now - time < HOUR_MS
    ensures e.Hours? <==> HOUR_MS <= now - time < DAY_MS
    ensures e == OneDay <==> DAY_MS <= now - time < 2 * DAY_MS
    ensures e.Days? <==> 2 * DAY_MS <= now - time
    ensures e.Minutes? ==> 1 <= e.n < 60 && e.n * MINUTE_MS <= now - time < (e.n + 1) * MINUTE_MS
    ensures e.Hours? ==> 1 <= e.n < 24 && e.n * HOUR_MS <= now - time < (e.n + 1) * HOUR_MS
    ensures e.Days? ==> 2 <= e.n && e.n * DAY_MS <= now - time < (e.n + 1) * DAY_MS
  {
    var diffMs := now - time;
    var diffMins := diffMs / 60000;
    var diffHours := diffMs / 3600000;
    var diffDays := diffMs / 86400000;
    if diffMins < 1 then JustNow
    else if diffMins < 60 then Minutes(diffMins)
    else if diffHours < 24 then Hours(diffHours)
    else if diffDays == 1 then OneDay
    else Days(diffDays)
  }

  // ----- Relevance order of search results -----

  predicate Owned(s: Explorable, uid: string) {
    s.ownerId == uid
  }

  predicate DiscoveredBy(s: Explorable, uid: string) {
    uid in s.discoverers
  }

  /** The comparator `searchSystems` sorts with: owned first, then discovered. */
  function Compare(a: Explorable, b: Explorable, uid: string): int {
    if Owned(a, uid) && !Owned(b, uid) then -1
    else if Owned(b, uid) && !Owned(a, uid) then 1
    else if DiscoveredBy(a, uid) && !DiscoveredBy(b, uid) then -1
    else if !DiscoveredBy(a, uid) && DiscoveredBy(b, uid) then 1
    else 0
  }

  /** An independent sort key: ownership first, discovery second. */
  function Relevance(s: Explorable, uid: string): int {
    (if Owned(s, uid) then 0 else 2) + (if DiscoveredBy(s, uid) then 0 else 1)
  }

  function RelevanceKey(uid: string): Explorable -> int {
    s => Relevance(s, uid)
  }

  /** The comparator orders exactly as the key does, so it is a consistent comparator. */
  lemma CompareIsRelevanceOrder(a: Explorable, b: Explorable, uid: string)
    ensures Compare(a, b, uid) < 0 <==> Relevance(a, uid) < Relevance(b, uid)
    ensures Compare(a, b, uid) == 0 <==> Relevance(a, uid) == Relevance(b, uid)
    ensures Compare(a, b, uid) > 0 <==> Relevance(a, uid) > Relevance(b, uid)
  {
  }

  /**
   * The reordering step of `searchSystems`. Signed out, the comparator's
   * `currentUser.uid` throws as soon as two systems are compared, and the
   * error handler returns `[]`.
   */
  function SearchSystems(systems: seq<Explorable>, uid: Option<string>): (r: seq<Explorable>)
    ensures uid.Some? ==> multiset(r) == multiset(systems)
    ensures uid.Some? ==> forall i, j :: 0 <= i < j < |r| ==> Compare(r[i], r[j], uid.value) <= 0
    ensures uid.None? ==> r == if |systems| <= 1 then systems else []
  {
    match uid
    case None => if |systems| <= 1 then systems else []
    case Some(u) =>
      var r := Seqs.SortBy(systems, RelevanceKey(u));
      assert forall i, j :: 0 <= i < j < |r| ==> Compare(r[i], r[j], u) <= 0 by {
        forall i, j | 0 <= i < j < |r| ensures Compare(r[i], r[j], u) <= 0 {
          CompareIsRelevanceOrder(r[i], r[j], u);
        }
      }
      r
  }

  /** Systems the comparator ties keep their order (the sort is stable). */
  lemma SearchSystemsStable(systems: seq<Explorable>, uid: string, k: int)
    ensures Seqs.Filter(SearchSystems(systems, Some(uid)), Seqs.HasKey(RelevanceKey(uid), k))
         == Seqs.Filter(systems, Seqs.HasKey(RelevanceKey(uid), k))
  {
    Seqs.SortByStable(systems, RelevanceKey(uid), k);
  }

  // ----- Popular systems -----

  /** `popularity`: the number of discoverers. */
  function Popularity(s: Explorable): int {
    |s.discoverers|
  }

  function PopularityKey(): Explorable -> int {
    s => -Popularity(s)
  }

  /**
   * `getPopularSystems`: sorted by `b.popularity - a.popularity` (most
   * discovered first), then `slice(0, limit)`.
   */
  function PopularSystems(systems: seq<Explorable>, limit: int): (r: seq<Explorable>)
    ensures limit >= 0 ==> |r| == if limit < |systems| then limit else |systems|
    ensures forall i, j :: 0 <= i < j < |r| ==> Popularity(r[i]) >= Popularity(r[j])
    ensures multiset(r) <= multiset(systems)
  {
    var sorted := Seqs.SortBy(systems, PopularityKey());
    var r := Seqs.SliceTo(sorted, limit);
    assert forall i, j :: 0 <= i < j < |r| ==> PopularityKey()(r[i]) <= PopularityKey()(r[j]);
    assert multiset(sorted) == multiset(r) + multiset(sorted[|r|..]) by {
      assert sorted == r + sorted[|r|..];
    }
    r
  }

  /** In a sorted sequence no element of a prefix has a larger key than one after it. */
  lemma SortedPrefixFirst<T>(s: seq<T>, key: T -> int, n: nat, a: T, b: T)
    requires Seqs.SortedBy(s, key) && n <= |s|
    requires a in s[..n] && b in s[n..]
    ensures key(a) <= key(b)
  {
    var i :| 0 <= i < n && s[..n][i] == a;
    var j :| 0 <= j < |s| - n && s[n..][j] == b;
    assert s[i] == a && s[n + j] == b;
  }

  /** What a multiset difference with a prefix leaves lies in the rest of the sequence. */
  lemma DroppedFromPrefix<T>(s: seq<T>, n: nat, x: T)
    requires n <= |s| && x in multiset(s) - multiset(s[..n])
    ensures x in s[n..]
  {
    assert s == s[..n] + s[n..];
    assert multiset(s) - multiset(s[..n]) == multiset(s[n..]);
  }

  /** No system left out of the popular list is more popular than one kept. */
  lemma PopularSystemsAreTheTop(systems: seq<Explorable>, limit: int, kept: Explorable, dropped: Explorable)
    requires kept in PopularSystems(systems, limit)
    requires dropped in multiset(systems) - multiset(PopularSystems(systems, limit))
    ensures Popularity(dropped) <= Popularity(kept)
  {
    var sorted := Seqs.SortBy(systems, PopularityKey());
    var n := Seqs.SliceEnd(|sorted|, limit);
    assert PopularSystems(systems, limit) == sorted[..n];
    DroppedFromPrefix(sorted, n, dropped);
    SortedPrefixFirst(sorted, PopularityKey(), n, kept, dropped);
  }

  // ----- Nearby systems and directions -----

  datatype Direction = East | South | West | North

  /** `getDirection` on an angle in degrees ('este', 'sur', 'oeste', 'norte'). */
  function DirectionOf(angle: real): (d: Direction)
    ensures d == East <==> -45.0 <= angle < 45.0
    ensures d == South <==> 45.0 <= angle < 135.0
    ensures d == West <==> angle >= 135.0 || angle < -135.0
    ensures d == North <==> -135.0 <= angle < -45.0
  {
    if angle >= -45.0 && angle < 45.0 then East
    else if angle >= 45.0 && angle < 135.0 then South
    else if angle >= 135.0 || angle < -135.0 then West
    else North
  }

  /**
   * `getDirection`: the angle of `atan2(dy, dx)` in degrees, then the
   * quadrant. A system due east of the centre, or at the centre itself, is
   * 'este'.
   */
  function GetDirection(m: MathLib, fromX: real, fromY: real, toX: real, toY: real): (d: Direction)
    requires m.Lawful()
    ensures toY == fromY && toX >= fromX ==> d == East
  {
    var angle := m.atan2(toY - fromY, toX - fromX);
    assert toY == fromY && toX >= fromX ==> angle == 0.0 by {
      if toY == fromY && toX >= fromX {
        assert toY - fromY == 0.0;
      }
    }
    DirectionOf(angle * 180.0 / PI)
  }

  /** A system with the `distance` and `direction` that `getNearbySystems` attaches. */
  datatype Nearby = Nearby(system: Explorable, distance: int, direction: Direction)

  /** The attached record: the distance rounded down, and the direction. */
  function Annotate(m: MathLib, s: Explorable, centerX: real, centerY: real): (n: Nearby)
    requires m.Lawful()
    ensures n.system == s && n.distance >= 0
  {
    var d := MathUtils.Distance2D(m, centerX, centerY, s.x, s.y);
    Nearby(s, d.Floor, GetDirection(m, centerX, centerY, s.x, s.y))
  }

  function WithinDistance(maxDistance: real): Nearby -> bool {
    (n: Nearby) => n.distance as real <= maxDistance
  }

  function DistanceKey(): Nearby -> int {
    (n: Nearby) => n.distance
  }

  /** Every system of `systems` with its distance and direction. */
  function AnnotateAll(m: MathLib, systems: seq<Explorable>, centerX: real, centerY: real): (r: seq<Nearby>)
    requires m.Lawful()
    ensures |r| == |systems|
    ensures forall i :: 0 <= i < |r| ==> r[i] == Annotate(m, systems[i], centerX, centerY)
  {
    seq(|systems|, i requires 0 <= i < |systems| => Annotate(m, systems[i], centerX, centerY))
  }

  /**
   * `getNearbySystems`: annotate, keep those within `maxDistance`, sort by
   * distance (stably, so systems at the same distance keep their order).
   */
  function NearbySystems(m: MathLib, systems: seq<Explorable>, centerX: real, centerY: real, maxDistance: real)
    : (r: seq<Nearby>)
    requires m.Lawful()
    ensures |r| <= |systems|
    ensures forall i, j :: 0 <= i < j < |r| ==> r[i].distance <= r[j].distance
  {
    Seqs.FilterFacts(AnnotateAll(m, systems, centerX, centerY), WithinDistance(maxDistance));
    var r := Seqs.SortBy(Seqs.Filter(AnnotateAll(m, systems, centerX, centerY), WithinDistance(maxDistance)), DistanceKey());
    assert forall i, j :: 0 <= i < j < |r| ==> DistanceKey()(r[i]) <= DistanceKey()(r[j]);
    r
  }

  /**
   * The nearby list holds exactly the annotated systems within `maxDistance`,
   * each as often as in the input, ordered by distance.
   */
  lemma NearbySystemsFacts(m: MathLib, systems: seq<Explorable>, centerX: real, centerY: real, maxDistance: real)
    requires m.Lawful()
    ensures var r := NearbySystems(m, systems, centerX, centerY, maxDistance);
      && (forall i, j :: 0 <= i < j < |r| ==> r[i].distance <= r[j].distance)
      && multiset(r) == multiset(Seqs.Filter(AnnotateAll(m, systems, centerX, centerY), WithinDistance(maxDistance)))
      && (forall n :: n in r <==> n in AnnotateAll(m, systems, centerX, centerY) && n.distance as real <= maxDistance)
  {
    var annotated := AnnotateAll(m, systems, centerX, centerY);
    var within := Seqs.Filter(annotated, WithinDistance(maxDistance));
    var r := Seqs.SortBy(within, DistanceKey());
    assert forall i, j :: 0 <= i < j < |r| ==> DistanceKey()(r[i]) <= DistanceKey()(r[j]);
    forall n ensures n in r <==> n in annotated && n.distance as real <= maxDistance {
      assert n in r <==> n in multiset(r);
      assert n in within <==> n in multiset(within);
      Seqs.FilterMembers(annotated, WithinDistance(maxDistance), n);
    }
  }

  // ----- Area exploration and events -----

  /** Inside the exploration circle (the Euclidean distance, not rounded). */
  function WithinArea(m: MathLib, centerX: real, centerY: real, radius: real): Explorable -> bool
    requires m.Lawful()
  {
    (s: Explorable) => MathUtils.Distance2D(m, centerX, centerY, s.x, s.y) <= radius
  }

  /** Neither owned by nor already discovered by the player. */
  function Undiscovered(uid: string): Explorable -> bool {
    s => !Owned(s, uid) && !DiscoveredBy(s, uid)
  }

  /** The `addDiscovererToSystem` write for this system succeeded. */
  function Added(added: string -> bool): Explorable -> bool {
    (s: Explorable) => added(s.id)
  }

  /** `newSystems` in `exploreArea`: the systems in the circle the player has not discovered. */
  function NewSystems(m: MathLib, systems: seq<Explorable>, centerX: real, centerY: real, radius: real, uid: string)
    : (r: seq<Explorable>)
    requires m.Lawful()
    ensures forall s :: s in r <==>
      && s in systems
      && MathUtils.Distance2D(m, centerX, centerY, s.x, s.y) <= radius
      && !Owned(s, uid) && !DiscoveredBy(s, uid)
  {
    var inArea := Seqs.Filter(systems, WithinArea(m, centerX, centerY, radius));
    var r := Seqs.Filter(inArea, Undiscovered(uid));
    assert forall x :: x in r <==> x in systems && WithinArea(m, centerX, centerY, radius)(x) && Undiscovered(uid)(x) by {
      forall x ensures x in r <==> x in systems && WithinArea(m, centerX, centerY, radius)(x) && Undiscovered(uid)(x) {
        Seqs.FilterMembers(systems, WithinArea(m, centerX, centerY, radius), x);
        Seqs.FilterMembers(inArea, Undiscovered(uid), x);
      }
    }
    r
  }

  /** A galactic event; only the fields the model reads or sets. */
  datatype GalacticEvent = GalacticEvent(
    kind: string,
    idStamp: int,                  // the `Date.now()` inside `event_${...}`
    timestamp: int,
    expiresAt: int,
    active: bool,
    relatedSystems: seq<string>,
    discoveredBy: string)

  /** The four event kinds and their durations in hours. */
  const EVENT_KINDS: seq<(string, int)> := [("supernova", 24), ("wormhole", 48), ("nebula", 12), ("alien_signal", 36)]

  /**
   * The event `generateRandomEvent` creates for the kind drawn with `roll`
   * (`Math.random()`). The clock is read three times, in this order: for the
   * id, for `timestamp` and for `expiresAt`, which lies `duration` hours after
   * the third reading.
   */
  function NewEvent(roll: real, clock: nat -> int, discovered: seq<Explorable>, uid: string): (e: GalacticEvent)
    requires 0.0 <= roll < 1.0
    ensures e.idStamp == clock(0) && e.timestamp == clock(1)
    ensures e.expiresAt > clock(2) && e.active
    ensures exists k :: (0 <= k < |EVENT_KINDS| && e.kind == EVENT_KINDS[k].0
                         && e.expiresAt == clock(2) + EVENT_KINDS[k].1 * 3600000)
    ensures |e.relatedSystems| == |discovered|
    ensures forall i :: 0 <= i < |discovered| ==> e.relatedSystems[i] == discovered[i].id
    ensures e.discoveredBy == uid
  {
    var k := (roll * |EVENT_KINDS| as real).Floor;
    var template := EVENT_KINDS[k];
    GalacticEvent(template.0, clock(0), clock(1), clock(2) + template.1 * 60 * 60 * 1000, true,
                  seq(|discovered|, i requires 0 <= i < |discovered| => discovered[i].id), uid)
  }

  /** Active and not yet expired at `now`. */
  function ActiveAt(now: int): GalacticEvent -> bool {
    (e: GalacticEvent) => e.active && e.expiresAt > now
  }

  /** Not yet expired at `now`. */
  function UnexpiredAt(now: int): GalacticEvent -> bool {
    (e: GalacticEvent) => e.expiresAt > now
  }

  /**
   * A fresh event is active until it expires; when the clock does not run
   * backwards between its readings it is active at its own timestamp.
   */
  lemma NewEventActiveUntilExpiry(roll: real, clock: nat -> int, discovered: seq<Explorable>, uid: string, later: int)
    requires 0.0 <= roll < 1.0
    ensures ActiveAt(later)(NewEvent(roll, clock, discovered, uid))
      <==> later < NewEvent(roll, clock, discovered, uid).expiresAt
    ensures clock(1) <= clock(2) ==> ActiveAt(clock(1))(NewEvent(roll, clock, discovered, uid))
  {
  }

  /** Expired events are never active, so removing them leaves the active list as it was. */
  lemma CleanupKeepsActiveEvents(events: seq<GalacticEvent>, now: int)
    ensures Seqs.Filter(Seqs.Filter(events, UnexpiredAt(now)), ActiveAt(now)) == Seqs.Filter(events, ActiveAt(now))
  {
    Seqs.FilterFilter(events, UnexpiredAt(now), ActiveAt(now));
    Seqs.FilterSameTest(events, Seqs.Both(UnexpiredAt(now), ActiveAt(now)), ActiveAt(now));
  }

  /** The exploration state: explored system ids (a `Set`) and the event list. */
  class ExplorationSystem {
    var exploredSystems: set<string>
    var galacticEvents: seq<GalacticEvent>

    constructor ()
      ensures exploredSystems == {} && galacticEvents == []
    {
      exploredSystems := {};
      galacticEvents := [];
    }

    /** `isSystemExplored`. */
    predicate IsSystemExplored(systemId: string)
      reads this
    {
      systemId in exploredSystems
    }

    /** `getActiveEvents` at time `now`. */
    function ActiveEvents(now: int): (r: seq<GalacticEvent>)
      reads this
      ensures forall e :: e in r <==> e in galacticEvents && e.active && e.expiresAt > now
      ensures multiset(r) <= multiset(galacticEvents)
    {
      var r := Seqs.Filter(galacticEvents, ActiveAt(now));
      Seqs.FilterFacts(galacticEvents, ActiveAt(now));
      assert forall e :: e in r <==> e in galacticEvents && e.active && e.expiresAt > now by {
        forall e ensures e in r <==> e in galacticEvents && e.active && e.expiresAt > now {
          Seqs.FilterMembers(galacticEvents, ActiveAt(now), e);
        }
      }
      r
    }

    /** `cleanupExpiredEvents` at time `now`. */
    method CleanupExpiredEvents(now: int)
      modifies this
      ensures galacticEvents == Seqs.Filter(old(galacticEvents), UnexpiredAt(now))
      ensures forall i :: 0 <= i < |galacticEvents| ==> galacticEvents[i].expiresAt > now
      ensures ActiveEvents(now) == old(ActiveEvents(now))
      ensures exploredSystems == old(exploredSystems)
    {
      CleanupKeepsActiveEvents(galacticEvents, now);
      Seqs.FilterFacts(galacticEvents, UnexpiredAt(now));
      galacticEvents := Seqs.Filter(galacticEvents, UnexpiredAt(now));
    }

    /** `generateRandomEvent`: the new event is appended to the list. */
    method GenerateRandomEvent(roll: real, clock: nat -> int, discovered: seq<Explorable>, uid: string)
      returns (event: GalacticEvent)
      requires 0.0 <= roll < 1.0
      modifies this
      ensures event == NewEvent(roll, clock, discovered, uid)
      ensures galacticEvents == old(galacticEvents) + [event]
      ensures exploredSystems == old(exploredSystems)
    {
      var k := (roll * |EVENT_KINDS| as real).Floor;
      var template := EVENT_KINDS[k];
      var related := [];
      var i := 0;
      while i < |discovered|
        invariant 0 <= i <= |discovered|
        invariant related == seq(i, j requires 0 <= j < i => discovered[j].id)
      {
        related := related + [discovered[i].id];
        i := i + 1;
      }
      event := GalacticEvent(template.0, clock(0), clock(1), clock(2) + template.1 * 60 * 60 * 1000, true, related, uid);
      galacticEvents := galacticEvents + [event];
    }

    /**
     * `exploreArea`. Signed out it throws (`None`); otherwise every new system
     * in the circle is offered to `addDiscovererToSystem` in order, the ones
     * whose write succeeds are returned and marked explored, and with
     * `eventRoll > 0.7` an event is generated for them.
     */
    method ExploreArea(m: MathLib, allSystems: seq<Explorable>, centerX: real, centerY: real, radius: real,
                       uid: Option<string>, added: string -> bool, eventRoll: real, kindRoll: real, clock: nat -> int)
      returns (r: Option<seq<Explorable>>)
      requires m.Lawful() && 0.0 <= kindRoll < 1.0
      modifies this
      ensures uid.None? ==> r.None? && exploredSystems == old(exploredSystems) && galacticEvents == old(galacticEvents)
      ensures uid.Some? ==> r == Some(Seqs.Filter(NewSystems(m, allSystems, centerX, centerY, radius, uid.value), Added(added)))
      ensures uid.Some? ==> exploredSystems == old(exploredSystems) + Ids(r.value)
      ensures uid.Some? ==> forall i :: 0 <= i < |r.value| ==> IsSystemExplored(r.value[i].id)
      ensures uid.Some? ==>
        galacticEvents == old(galacticEvents)
          + (if |r.value| > 0 && eventRoll > 0.7 then [NewEvent(kindRoll, clock, r.value, uid.value)] else [])
    {
      if uid.None? {
        return None;
      }
      var systemsInArea := Seqs.Filter(allSystems, WithinArea(m, centerX, centerY, radius));
      var newSystems := Seqs.Filter(systemsInArea, Undiscovered(uid.value));
      var discoveryResults: seq<Explorable> := [];
      var i := 0;
      while i < |newSystems|
        invariant 0 <= i <= |newSystems|
        invariant discoveryResults == Seqs.Filter(newSystems[..i], Added(added))
        invariant exploredSystems == old(exploredSystems) + Ids(discoveryResults)
        invariant galacticEvents == old(galacticEvents)
      {
        var system := newSystems[i];
        assert newSystems[..i + 1] == newSystems[..i] + [system];
        Seqs.FilterSnoc(newSystems[..i], system, Added(added));
        var success := added(system.id);
        if success {
          IdsSnoc(discoveryResults, system);
          discoveryResults := discoveryResults + [system];
          exploredSystems := exploredSystems + {system.id};
        }
        i := i + 1;
      }
      assert newSystems[..|newSystems|] == newSystems;
      assert forall k :: 0 <= k < |discoveryResults| ==> discoveryResults[k].id in Ids(discoveryResults);
      if |discoveryResults| > 0 && eventRoll > 0.7 {
        var _ := GenerateRandomEvent(kindRoll, clock, discoveryResults, uid.value);
      }
      return Some(discoveryResults);
    }

    /**
     * `initialize`: expired events are removed, then every system the player
     * has discovered is marked explored. Signed out, `getExplorableSystems`
     * returns no systems, so nothing is marked.
     */
    method Initialize(systems: seq<Explorable>, uid: Option<string>, now: int)
      modifies this
      ensures galacticEvents == Seqs.Filter(old(galacticEvents), UnexpiredAt(now))
      ensures uid.None? ==> exploredSystems == old(exploredSystems)
      ensures uid.Some? ==> exploredSystems == old(exploredSystems) + Ids(Seqs.Filter(systems, Found(uid.value)))
    {
      CleanupExpiredEvents(now);
      if uid.None? {
        return;
      }
      var i := 0;
      while i < |systems|
        invariant 0 <= i <= |systems|
        invariant exploredSystems == old(exploredSystems) + Ids(Seqs.Filter(systems[..i], Found(uid.value)))
        invariant galacticEvents == Seqs.Filter(old(galacticEvents), UnexpiredAt(now))
      {
        assert systems[..i + 1] == systems[..i] + [systems[i]];
        Seqs.FilterSnoc(systems[..i], systems[i], Found(uid.value));
        var found := Seqs.Filter(systems[..i], Found(uid.value));
        if uid.value in systems[i].discoverers {
          IdsSnoc(found, systems[i]);
          exploredSystems := exploredSystems + {systems[i].id};
        } else {
          assert found + [] == found;
        }
        i := i + 1;
      }
      assert systems[..|systems|] == systems;
    }
  }

  /** Discovered by the player. */
  function Found(uid: string): Explorable -> bool {
    s => DiscoveredBy(s, uid)
  }
}
