/**
 * The camera and selection logic of the galaxy map (`GalaxyRenderer`): zoom
 * about the cursor, dragging, click selection, centring and the viewport,
 * and the colour, size and label rules of a drawn system.
 *
 * The canvas, the DOM events and every `draw*` routine are not modelled; the
 * mouse events arrive as method calls with their client coordinates, and
 * the signed-in user's id is a parameter.
 */
module GalaxyRendering {
  import opened Numeric
  import opened Wrappers
  import MathUtils

  /** A system on the map, with the fields the renderer reads. */
  datatype MapSystem = MapSystem(
    id: string,
    x: real,                             // basicInfo.coordinates
    y: real,
    ownerId: string,                     // ownership.ownerId
    discoverers: Option<seq<string>>,    // discovery?.discoverers
    starMass: real,                      // physics.primaryStar.mass
    planets: Option<seq<bool>>)          // celestialBodies?.planets, each: has a civilization

  /** The camera: the world point at the top-left corner of the canvas, and the zoom. */
  datatype Camera = Camera(offsetX: real, offsetY: real, scale: real)

  /** What `getCurrentViewport` reports: the world point at the canvas centre and a radius. */
  datatype Viewport = Viewport(centerX: real, centerY: real, radius: real)

  const MIN_SCALE: real := 0.05
  const MAX_SCALE: real := 5.0
  const ZOOM_INTENSITY: real := 0.1
  const DEFAULT_SCALE: real := 0.3
  const GALAXY_CENTER: real := 25000.0

  // ----- Screen and world coordinates -----

  /** The world coordinate under screen coordinate `p`. */
  function WorldAt(p: real, offset: real, scale: real): real
    requires scale != 0.0
  {
    p / scale + offset
  }

  /** The screen coordinate at which world coordinate `w` is drawn. */
  function ScreenAt(w: real, offset: real, scale: real): real {
    (w - offset) * scale
  }

  /** Drawing and picking are inverse to each other. */
  lemma ScreenWorldRoundTrip(p: real, w: real, offset: real, scale: real)
    requires scale != 0.0
    ensures ScreenAt(WorldAt(p, offset, scale), offset, scale) == p
    ensures WorldAt(ScreenAt(w, offset, scale), offset, scale) == w
  {
  }

  // ----- Zoom -----

  /** The zoom clamp `Math.max(0.05, Math.min(5, x))`. */
  function ClampScale(x: real): (r: real)
    ensures MIN_SCALE <= r <= MAX_SCALE
    ensures MIN_SCALE <= x <= MAX_SCALE ==> r == x
  {
    Max(MIN_SCALE, Min(MAX_SCALE, x))
  }

  /** The clamp preserves order. */
  lemma ClampScaleMonotone(x: real, y: real)
    requires x <= y
    ensures ClampScale(x) <= ClampScale(y)
  {
  }

  /** The offset `world - p / scale` puts world coordinate `world` under pixel `p`. */
  lemma KeepsPointUnderCursor(p: real, world: real, scale: real)
    requires scale != 0.0
    ensures WorldAt(p, world - p / scale, scale) == world
  {
  }

  /** The scale after one wheel step: ×e^0.1 for a wheel up, ×e^-0.1 otherwise, clamped to [0.05, 5]. */
  function ZoomedScale(m: MathLib, scale: real, deltaY: real): (s: real)
    requires m.Lawful()
    ensures MIN_SCALE <= s <= MAX_SCALE
    ensures MIN_SCALE <= scale <= MAX_SCALE && deltaY < 0.0 ==> s >= scale
    ensures MIN_SCALE <= scale <= MAX_SCALE && deltaY >= 0.0 ==> s <= scale
  {
    ZoomClamp(scale, Zoom(m, deltaY), deltaY < 0.0);
    ClampScale(scale * Zoom(m, deltaY))
  }

  /** The wheel factor `Math.exp(wheel * 0.1)`: above one for a wheel up, below one for a wheel down. */
  function Zoom(m: MathLib, deltaY: real): (z: real)
    requires m.Lawful()
    ensures deltaY < 0.0 ==> z > 1.0
    ensures deltaY >= 0.0 ==> z < 1.0
  {
    var wheel := if deltaY < 0.0 then 1.0 else -1.0;
    assert deltaY < 0.0 ==> wheel * ZOOM_INTENSITY > 0.0;
    assert deltaY >= 0.0 ==> wheel * ZOOM_INTENSITY < 0.0;
    m.exp(wheel * ZOOM_INTENSITY)
  }

  /** Clamping after a factor above one never lowers an in-range scale, after one below never raises it. */
  lemma ZoomClamp(scale: real, zoom: real, up: bool)
    requires up ==> zoom > 1.0
    requires !up ==> zoom < 1.0
    ensures MIN_SCALE <= scale <= MAX_SCALE && up ==> ClampScale(scale * zoom) >= scale
    ensures MIN_SCALE <= scale <= MAX_SCALE && !up ==> ClampScale(scale * zoom) <= scale
  {
    if MIN_SCALE <= scale <= MAX_SCALE {
      assert scale > 0.0;
      ZoomStep(scale, zoom);
      var x := scale * zoom;
      assert up ==> x > scale;
      assert !up ==> x < scale;
    }
  }

  /** A positive scale grows with a factor above one and shrinks with one below. */
  lemma ZoomStep(scale: real, zoom: real)
    ensures scale > 0.0 && zoom > 1.0 ==> scale * zoom > scale
    ensures scale > 0.0 && zoom < 1.0 ==> scale * zoom < scale
  {
    assert scale * zoom - scale == scale * (zoom - 1.0);
    if scale <= 0.0 {
    } else if zoom > 1.0 {
      MulPositive(scale, zoom - 1.0);
    } else if zoom < 1.0 {
      MulPositive(scale, 1.0 - zoom);
    }
  }

  // ----- Centre and viewport -----

  /** The offset that puts world coordinate `center` in the middle of a canvas side of `extent` pixels. */
  function OffsetFor(center: real, extent: nat, scale: real): real
    requires scale != 0.0
  {
    center - extent as real / 2.0 / scale
  }

  /** The world coordinate in the middle of a canvas side of `extent` pixels. */
  function CenterOf(offset: real, extent: nat, scale: real): real
    requires scale != 0.0
  {
    offset + (extent as real / 2.0) / scale
  }

  /** The viewport centre is the world point under the middle pixel, and centring on it is a round trip. */
  lemma ViewportRoundTrip(center: real, offset: real, extent: nat, scale: real)
    requires scale != 0.0
    ensures CenterOf(offset, extent, scale) == WorldAt(extent as real / 2.0, offset, scale)
    ensures CenterOf(OffsetFor(center, extent, scale), extent, scale) == center
    ensures OffsetFor(CenterOf(offset, extent, scale), extent, scale) == offset
  {
  }

  /**
   * `centerGalaxy` computes the offset with the scale in force and only then
   * sets the scale to 0.3: the galaxy centre lands in the middle of a
   * non-empty canvas exactly when the scale already was 0.3.
   */
  lemma CenterGalaxyCentresOnlyAtDefaultScale(extent: nat, scale: real)
    requires extent > 0 && scale > 0.0
    ensures CenterOf(OffsetFor(GALAXY_CENTER, extent, scale), extent, DEFAULT_SCALE) == GALAXY_CENTER
        <==> scale == DEFAULT_SCALE
  {
    var half := extent as real / 2.0;
    assert CenterOf(OffsetFor(GALAXY_CENTER, extent, scale), extent, DEFAULT_SCALE)
        == GALAXY_CENTER - half / scale + half / DEFAULT_SCALE;
    if half / scale == half / DEFAULT_SCALE {
      assert half == (half / scale) * scale;
      assert half == (half / DEFAULT_SCALE) * DEFAULT_SCALE;
      assert (half / scale) * (scale - DEFAULT_SCALE) == 0.0;
      DivPositive(half, scale);
    }
  }

  /** `getCurrentViewport`: the centre, and half the larger canvas side in world units. */
  function ViewportOf(cam: Camera, width: nat, height: nat): (v: Viewport)
    requires cam.scale > 0.0
    ensures v.radius >= 0.0
    ensures v.radius * cam.scale * 2.0 == (if width < height then height else width) as real
  {
    var larger := if width < height then height else width;
    var radius := larger as real / cam.scale / 2.0;
    assert radius * cam.scale * 2.0 == larger as real;
    DivPositiveOrZero(larger as real, cam.scale);
    Viewport(CenterOf(cam.offsetX, width, cam.scale), CenterOf(cam.offsetY, height, cam.scale), radius)
  }

  lemma DivPositiveOrZero(a: real, d: real)
    requires a >= 0.0 && d > 0.0
    ensures a / d / 2.0 >= 0.0
  {
    if a > 0.0 {
      DivPositive(a, d);
    }
  }

  // ----- Click selection -----

  /** The click radius in pixels: at least 8, growing with the zoom. */
  function ClickRadius(scale: real): (r: real)
    ensures r >= 8.0 && r >= 15.0 * scale
  {
    Max(8.0, 15.0 * scale)
  }

  /** A click at (`mouseX`, `mouseY`) falls on `s` drawn with camera `cam`. */
  predicate Hit(m: MathLib, s: MapSystem, mouseX: real, mouseY: real, cam: Camera)
    requires m.Lawful()
  {
    MathUtils.Distance2D(m, mouseX, mouseY, ScreenAt(s.x, cam.offsetX, cam.scale), ScreenAt(s.y, cam.offsetY, cam.scale))
      < ClickRadius(cam.scale)
  }

  /** `candidates[i]` is hit and none before it is. */
  predicate FirstHitAt(m: MathLib, candidates: seq<MapSystem>, i: int, mouseX: real, mouseY: real, cam: Camera)
    requires m.Lawful()
  {
    && 0 <= i < |candidates|
    && Hit(m, candidates[i], mouseX, mouseY, cam)
    && forall j :: 0 <= j < i ==> !Hit(m, candidates[j], mouseX, mouseY, cam)
  }

  /** The system a click selects among `candidates`, scanned in order. */
  function ClickTarget(m: MathLib, candidates: seq<MapSystem>, mouseX: real, mouseY: real, cam: Camera)
    : (r: Option<MapSystem>)
    requires m.Lawful()
    ensures r.None? <==> forall i :: 0 <= i < |candidates| ==> !Hit(m, candidates[i], mouseX, mouseY, cam)
    ensures r.Some? ==> exists i :: FirstHitAt(m, candidates, i, mouseX, mouseY, cam) && candidates[i] == r.value
  {
    if candidates == [] then None
    else if Hit(m, candidates[0], mouseX, mouseY, cam) then
      assert FirstHitAt(m, candidates, 0, mouseX, mouseY, cam);
      Some(candidates[0])
    else
      var r := ClickTarget(m, candidates[1..], mouseX, mouseY, cam);
      assert forall i :: 1 <= i < |candidates| ==> candidates[i] == candidates[1..][i - 1];
      if r.Some? then
        var k :| FirstHitAt(m, candidates[1..], k, mouseX, mouseY, cam) && candidates[1..][k] == r.value;
        assert FirstHitAt(m, candidates, k + 1, mouseX, mouseY, cam);
        r
      else r
  }

  /** One step of the scan: the target among `candidates[i..]` is `candidates[i]` when it is hit, else the target after it. */
  lemma ClickTargetStep(m: MathLib, candidates: seq<MapSystem>, i: int, mouseX: real, mouseY: real, cam: Camera)
    requires m.Lawful() && 0 <= i < |candidates|
    ensures ClickTarget(m, candidates[i..], mouseX, mouseY, cam)
         == if Hit(m, candidates[i], mouseX, mouseY, cam) then Some(candidates[i])
            else ClickTarget(m, candidates[i + 1..], mouseX, mouseY, cam)
  {
    assert candidates[i..][0] == candidates[i];
    assert candidates[i..][1..] == candidates[i + 1..];
  }

  /** The scan `handleClick` runs: the candidates in order, stopping at the first one hit. */
  method FindClicked(m: MathLib, candidates: seq<MapSystem>, clientX: real, clientY: real, cam: Camera)
    returns (found: Option<MapSystem>)
    requires m.Lawful()
    ensures found == ClickTarget(m, candidates, clientX, clientY, cam)
  {
    found := None;
    var i := 0;
    while i < |candidates|
      invariant 0 <= i <= |candidates|
      invariant ClickTarget(m, candidates, clientX, clientY, cam) == ClickTarget(m, candidates[i..], clientX, clientY, cam)
      invariant found == None
    {
      var system := candidates[i];
      var x := ScreenAt(system.x, cam.offsetX, cam.scale);
      var y := ScreenAt(system.y, cam.offsetY, cam.scale);
      var distance := MathUtils.Distance2D(m, clientX, clientY, x, y);
      var clickRadius := ClickRadius(cam.scale);
      ClickTargetStep(m, candidates, i, clientX, clientY, cam);
      if distance < clickRadius {
        found := Some(system);
        return;
      }
      i := i + 1;
    }
    assert candidates[i..] == [];
  }

  /** When a user system is hit, the explorable systems listed after them are never selected. */
  lemma {:induction false} UserSystemsFirst(m: MathLib, user: seq<MapSystem>, explorable: seq<MapSystem>,
                                            mouseX: real, mouseY: real, cam: Camera, i: int)
    requires m.Lawful()
    requires 0 <= i < |user| && Hit(m, user[i], mouseX, mouseY, cam)
    ensures ClickTarget(m, user + explorable, mouseX, mouseY, cam) == ClickTarget(m, user, mouseX, mouseY, cam)
  {
    assert (user + explorable)[0] == user[0];
    if !Hit(m, user[0], mouseX, mouseY, cam) {
      assert (user + explorable)[1..] == user[1..] + explorable;
      assert user[1..][i - 1] == user[i];
      UserSystemsFirst(m, user[1..], explorable, mouseX, mouseY, cam, i - 1);
    }
  }

  /** A click exactly on the point where a system is drawn selects a system. */
  lemma ClickOnSystemSelects(m: MathLib, candidates: seq<MapSystem>, i: int, cam: Camera)
    requires m.Lawful() && 0 <= i < |candidates|
    ensures ClickTarget(m, candidates, ScreenAt(candidates[i].x, cam.offsetX, cam.scale),
                        ScreenAt(candidates[i].y, cam.offsetY, cam.scale), cam).Some?
  {
    var s := candidates[i];
    assert Hit(m, s, ScreenAt(s.x, cam.offsetX, cam.scale), ScreenAt(s.y, cam.offsetY, cam.scale), cam);
  }

  // ----- Colour, size and label -----

  datatype SystemColor =
    | Blue    // '#3B82F6', the player's systems
    | Green   // '#10B981', systems the player discovered
    | Gray    // '#6B7280', everything else

  predicate Owned(s: MapSystem, uid: string) {
    s.ownerId == uid
  }

  /** `discovery?.discoverers?.includes(uid)`. */
  predicate DiscoveredBy(s: MapSystem, uid: string) {
    s.discoverers.Some? && uid in s.discoverers.value
  }

  /** `getSystemColor`: gray with nobody signed in, else owned before discovered. */
  function ColorOf(s: MapSystem, uid: Option<string>): (c: SystemColor)
    ensures c == Blue <==> uid.Some? && Owned(s, uid.value)
    ensures c == Green <==> uid.Some? && !Owned(s, uid.value) && DiscoveredBy(s, uid.value)
    ensures c == Gray <==> uid.None? || (!Owned(s, uid.value) && !DiscoveredBy(s, uid.value))
  {
    match uid
    case None => Gray
    case Some(u) =>
      if Owned(s, u) then Blue
      else if DiscoveredBy(s, u) then Green
      else Gray
  }

  /** `celestialBodies?.planets?.some(p => p.civilization)`. */
  predicate HasCivilization(s: MapSystem) {
    s.planets.Some? && exists i :: 0 <= i < |s.planets.value| && s.planets.value[i]
  }

  /** `getSystemSize`: mass × 5 × scale clamped to [2, 10], ×1.5 with a civilization. */
  function SystemSize(s: MapSystem, scale: real): (size: real)
    ensures 2.0 <= size <= 15.0
    ensures HasCivilization(s) ==> size >= 3.0
    ensures !HasCivilization(s) ==> size <= 10.0
  {
    var baseSize := Max(2.0, Min(10.0, s.starMass * 5.0 * scale));
    if HasCivilization(s) then baseSize * 1.5 else baseSize
  }

  /** Zooming in never draws a system (of non-negative mass) smaller. */
  lemma SystemSizeMonotone(s: MapSystem, scale1: real, scale2: real)
    requires s.starMass >= 0.0 && scale1 <= scale2
    ensures SystemSize(s, scale1) <= SystemSize(s, scale2)
  {
    MulMonotone(s.starMass * 5.0, scale1, scale2);
    var base1 := Max(2.0, Min(10.0, s.starMass * 5.0 * scale1));
    var base2 := Max(2.0, Min(10.0, s.starMass * 5.0 * scale2));
    assert base1 <= base2;
  }

  /** `shouldShowSystemName`: signed in, and owned, discovered or zoomed past 0.8. */
  predicate ShowsName(s: MapSystem, uid: Option<string>, scale: real) {
    uid.Some? && (Owned(s, uid.value) || DiscoveredBy(s, uid.value) || scale > 0.8)
  }

  /** Every coloured system is labelled; a gray one only when zoomed past 0.8 by a signed-in player. */
  lemma ColoredSystemsShowName(s: MapSystem, uid: Option<string>, scale: real)
    ensures ColorOf(s, uid) != Gray ==> ShowsName(s, uid, scale)
    ensures ColorOf(s, uid) == Gray ==> (ShowsName(s, uid, scale) <==> uid.Some? && scale > 0.8)
    ensures uid.None? ==> !ShowsName(s, uid, scale)
  {
  }

  // ----- The renderer state -----

  class GalaxyRenderer {
    var width: nat
    var height: nat
    var systems: seq<MapSystem>
    var explorableSystems: seq<MapSystem>
    var selectedSystem: Option<MapSystem>
    var offsetX: real
    var offsetY: real
    var scale: real
    var isDragging: bool
    var lastX: real
    var lastY: real

    /** The zoom stays within the bounds `handleZoom` clamps to. */
    ghost predicate Valid()
      reads this
    {
      MIN_SCALE <= scale <= MAX_SCALE
    }

    function View(): Camera
      reads this
    {
      Camera(offsetX, offsetY, scale)
    }

    /** The renderer for a window of `width` × `height` pixels, looking at the galaxy at scale 0.3. */
    constructor (width: nat, height: nat)
      ensures Valid()
      ensures this.width == width && this.height == height
      ensures systems == [] && explorableSystems == [] && selectedSystem == None
      ensures offsetX == GALAXY_CENTER && offsetY == GALAXY_CENTER && scale == DEFAULT_SCALE
      ensures !isDragging && lastX == 0.0 && lastY == 0.0
    {
      this.width := width;
      this.height := height;
      systems := [];
      explorableSystems := [];
      selectedSystem := None;
      offsetX := GALAXY_CENTER;
      offsetY := GALAXY_CENTER;
      scale := DEFAULT_SCALE;
      isDragging := false;
      lastX := 0.0;
      lastY := 0.0;
    }

    /** `handleZoom`: rescale, keeping the world point under the cursor where it is. */
    method HandleZoom(m: MathLib, deltaY: real, clientX: real, clientY: real)
      requires m.Lawful() && Valid()
      modifies this
      ensures Valid()
      ensures scale == ZoomedScale(m, old(scale), deltaY)
      ensures WorldAt(clientX, offsetX, scale) == old(WorldAt(clientX, offsetX, scale))
      ensures WorldAt(clientY, offsetY, scale) == old(WorldAt(clientY, offsetY, scale))
      ensures width == old(width) && height == old(height)
      ensures systems == old(systems) && explorableSystems == old(explorableSystems)
      ensures selectedSystem == old(selectedSystem)
      ensures isDragging == old(isDragging) && lastX == old(lastX) && lastY == old(lastY)
    {
      var zoom := Zoom(m, deltaY);
      var worldX := clientX / scale + offsetX;
      var worldY := clientY / scale + offsetY;
      assert ZoomedScale(m, scale, deltaY) == ClampScale(scale * zoom);
      scale := scale * zoom;
      scale := ClampScale(scale);
      offsetX := worldX - clientX / scale;
      offsetY := worldY - clientY / scale;
      KeepsPointUnderCursor(clientX, worldX, scale);
      KeepsPointUnderCursor(clientY, worldY, scale);
    }

    /** `handleDrag`: the world point grabbed at the last position follows the cursor. */
    method HandleDrag(clientX: real, clientY: real)
      requires Valid()
      modifies this
      ensures Valid() && scale == old(scale)
      ensures WorldAt(clientX, offsetX, scale) == old(WorldAt(lastX, offsetX, scale))
      ensures WorldAt(clientY, offsetY, scale) == old(WorldAt(lastY, offsetY, scale))
      ensures lastX == clientX && lastY == clientY
      ensures width == old(width) && height == old(height)
      ensures systems == old(systems) && explorableSystems == old(explorableSystems)
      ensures selectedSystem == old(selectedSystem) && isDragging == old(isDragging)
    {
      var dx := (clientX - lastX) / scale;
      var dy := (clientY - lastY) / scale;
      offsetX := offsetX - dx;
      offsetY := offsetY - dy;
      lastX := clientX;
      lastY := clientY;
    }

    /** The `mousedown` listener: a drag starts at the cursor. */
    method MouseDown(clientX: real, clientY: real)
      modifies this
      ensures isDragging && lastX == clientX && lastY == clientY
      ensures View() == old(View()) && selectedSystem == old(selectedSystem)
      ensures width == old(width) && height == old(height)
      ensures systems == old(systems) && explorableSystems == old(explorableSystems)
    {
      isDragging := true;
      lastX := clientX;
      lastY := clientY;
    }

    /** The `mousemove` listener: drags only while a drag is in progress. */
    method MouseMove(clientX: real, clientY: real)
      requires Valid()
      modifies this
      ensures Valid()
      ensures !old(isDragging) ==> View() == old(View()) && lastX == old(lastX) && lastY == old(lastY)
      ensures old(isDragging) ==> WorldAt(clientX, offsetX, scale) == old(WorldAt(lastX, offsetX, scale))
      ensures old(isDragging) ==> WorldAt(clientY, offsetY, scale) == old(WorldAt(lastY, offsetY, scale))
      ensures old(isDragging) ==> lastX == clientX && lastY == clientY
      ensures scale == old(scale) && isDragging == old(isDragging) && selectedSystem == old(selectedSystem)
      ensures width == old(width) && height == old(height)
      ensures systems == old(systems) && explorableSystems == old(explorableSystems)
    {
      if !isDragging {
        return;
      }
      HandleDrag(clientX, clientY);
    }

    /** The `mouseup` and `mouseleave` listeners: the drag ends. */
    method MouseUp()
      modifies this
      ensures !isDragging && lastX == old(lastX) && lastY == old(lastY)
      ensures View() == old(View()) && selectedSystem == old(selectedSystem)
      ensures width == old(width) && height == old(height)
      ensures systems == old(systems) && explorableSystems == old(explorableSystems)
    {
      isDragging := false;
    }

    /**
     * `handleClick`: ignored while dragging; otherwise the first system under
     * the cursor, the player's systems before the explorable ones, is
     * selected, and nothing is selected when none is hit.
     */
    method HandleClick(m: MathLib, clientX: real, clientY: real)
      requires m.Lawful()
      modifies this
      ensures old(isDragging) ==> selectedSystem == old(selectedSystem)
      ensures !old(isDragging) ==>
        selectedSystem == ClickTarget(m, systems + explorableSystems, clientX, clientY, View())
      ensures View() == old(View()) && isDragging == old(isDragging) && lastX == old(lastX) && lastY == old(lastY)
      ensures width == old(width) && height == old(height)
      ensures systems == old(systems) && explorableSystems == old(explorableSystems)
    {
      if isDragging {
        return;
      }
      var found := FindClicked(m, systems + explorableSystems, clientX, clientY, View());
      selectedSystem := found;
    }

    /** `handleResize`: the canvas takes the new window size. */
    method HandleResize(width: nat, height: nat)
      modifies this
      ensures this.width == width && this.height == height
      ensures View() == old(View()) && selectedSystem == old(selectedSystem)
      ensures isDragging == old(isDragging) && lastX == old(lastX) && lastY == old(lastY)
      ensures systems == old(systems) && explorableSystems == old(explorableSystems)
    {
      this.width := width;
      this.height := height;
    }

    /** `updateSystems`: the player's own systems, drawn and picked first. */
    method UpdateSystems(user: seq<MapSystem>)
      modifies this
      ensures systems == user && explorableSystems == old(explorableSystems)
      ensures View() == old(View()) && selectedSystem == old(selectedSystem)
      ensures isDragging == old(isDragging) && lastX == old(lastX) && lastY == old(lastY)
      ensures width == old(width) && height == old(height)
    {
      systems := user;
    }

    /** `updateExplorableSystems`: the other players' systems, drawn and picked after the player's own. */
    method UpdateExplorableSystems(explorable: seq<MapSystem>)
      modifies this
      ensures explorableSystems == explorable && systems == old(systems)
      ensures View() == old(View()) && selectedSystem == old(selectedSystem)
      ensures isDragging == old(isDragging) && lastX == old(lastX) && lastY == old(lastY)
      ensures width == old(width) && height == old(height)
    {
      explorableSystems := explorable;
    }

    /** `getCurrentViewport`: the centre is the world point under the middle pixel of the canvas. */
    function CurrentViewport(): (v: Viewport)
      requires Valid()
      reads this
      ensures v.centerX == WorldAt(width as real / 2.0, offsetX, scale)
      ensures v.centerY == WorldAt(height as real / 2.0, offsetY, scale)
      ensures v.radius >= 0.0
    {
      ViewportRoundTrip(offsetX, offsetX, width, scale);
      ViewportRoundTrip(offsetY, offsetY, height, scale);
      ViewportOf(View(), width, height)
    }

    /** `centerOn`: the viewport is centred on (`x`, `y`) at the same zoom. */
    method CenterOn(x: real, y: real)
      requires Valid()
      modifies this
      ensures Valid() && scale == old(scale)
      ensures CurrentViewport().centerX == x && CurrentViewport().centerY == y
      ensures CurrentViewport().radius == old(CurrentViewport().radius)
      ensures width == old(width) && height == old(height) && selectedSystem == old(selectedSystem)
      ensures isDragging == old(isDragging) && lastX == old(lastX) && lastY == old(lastY)
      ensures systems == old(systems) && explorableSystems == old(explorableSystems)
    {
      offsetX := x - width as real / 2.0 / scale;
      offsetY := y - height as real / 2.0 / scale;
      ViewportRoundTrip(x, offsetX, width, scale);
      ViewportRoundTrip(y, offsetY, height, scale);
    }

    /**
     * `centerGalaxy`: the offsets are computed with the scale in force, then
     * the scale is reset to 0.3.
     */
    method CenterGalaxy()
      requires Valid()
      modifies this
      ensures Valid() && scale == DEFAULT_SCALE
      ensures offsetX == OffsetFor(GALAXY_CENTER, width, old(scale))
      ensures offsetY == OffsetFor(GALAXY_CENTER, height, old(scale))
      ensures width > 0 ==> (CurrentViewport().centerX == GALAXY_CENTER <==> old(scale) == DEFAULT_SCALE)
      ensures height > 0 ==> (CurrentViewport().centerY == GALAXY_CENTER <==> old(scale) == DEFAULT_SCALE)
      ensures width == old(width) && height == old(height) && selectedSystem == old(selectedSystem)
      ensures isDragging == old(isDragging) && lastX == old(lastX) && lastY == old(lastY)
      ensures systems == old(systems) && explorableSystems == old(explorableSystems)
    {
      if width > 0 {
        CenterGalaxyCentresOnlyAtDefaultScale(width, scale);
      }
      if height > 0 {
        CenterGalaxyCentresOnlyAtDefaultScale(height, scale);
      }
      offsetX := GALAXY_CENTER - width as real / 2.0 / scale;
      offsetY := GALAXY_CENTER - height as real / 2.0 / scale;
      scale := DEFAULT_SCALE;
    }
  }
}
