// The sky of src/utils/cloud_system.py: clouds drift right and, once past
// the right edge of the view by the respawn distance, come back on the
// left with a new height, size, speed and layer. The CLOUD_* settings are
// not defined by the configuration, so they are a parameter, and every
// random draw is an input.

module Clouds {
  import opened Config

  const BASE_WIDTH: real := 80.0
  const BASE_HEIGHT: real := 40.0

  /** CLOUD_BACKGROUND_COLOR for layer 0, CLOUD_FOREGROUND_COLOR for the others. */
  datatype Tint = BackgroundTint | ForegroundTint

  function LayerTint(layer: int): Tint
  {
    if layer == 0 then BackgroundTint else ForegroundTint
  }

  /** CLOUD_COUNT, CLOUD_MIN_SPEED, CLOUD_MAX_SPEED, CLOUD_RESPAWN_DISTANCE, CLOUD_MIN_SIZE and CLOUD_MAX_SIZE. */
  datatype Settings = Settings(count: nat, minSpeed: real, maxSpeed: real, respawnDistance: real,
                               minSize: real, maxSize: real)

  /** One cloud's random draws: a place, a size, a speed and a layer out of `[0, 0, 1]`. */
  datatype Draw = Draw(x: real, y: real, size: real, speed: real, layer: int)

  /** The band of sky clouds live in: the top 40 percent of the level. */
  predicate InSky(y: real, levelHeight: real)
  {
    0.0 <= y <= levelHeight * 0.4
  }

  /** A height, size, speed and layer that `random.uniform` and `random.choice` can give. */
  predicate Looks(st: Settings, levelHeight: real, y: real, size: real, speed: real, layer: int)
  {
    InSky(y, levelHeight) && st.minSize <= size <= st.maxSize && st.minSpeed <= speed <= st.maxSpeed &&
    (layer == 0 || layer == 1)
  }

  /** A draw for a new cloud: also a place along the whole level, the respawn distance beyond either end. */
  predicate SpawnFits(st: Settings, levelWidth: real, levelHeight: real, d: Draw)
  {
    -st.respawnDistance <= d.x <= levelWidth + st.respawnDistance &&
    Looks(st, levelHeight, d.y, d.size, d.speed, d.layer)
  }

  /** A cloud as the update sees it. */
  datatype CloudState = CloudState(x: real, y: real, size: real, speed: real, layer: int,
                                   width: real, height: real, tint: Tint)

  /** The width, height and colour follow from the size and layer. */
  predicate Shaped(c: CloudState)
  {
    c.width == BASE_WIDTH * c.size && c.height == BASE_HEIGHT * c.size && c.tint == LayerTint(c.layer)
  }

  /** How far right the view's edge plus the respawn distance lies, for a camera at cameraX. */
  function RespawnLine(cameraX: real, distance: real): real
  {
    cameraX + SCREEN_WIDTH as real + distance
  }

  /**
   * One cloud in CloudSystem.update: it drifts `speed * dt * 60`; past the
   * respawn line it comes back `distance` left of the camera with the
   * redraw's height, size, speed and layer, and the width, height and
   * colour that go with them.
   */
  function Advance(c: CloudState, dt: real, cameraX: real, distance: real, r: Draw): (t: CloudState)
    requires distance >= 0.0
    ensures t.x <= RespawnLine(cameraX, distance)
    ensures Shaped(c) ==> Shaped(t)
    ensures t.x == c.x + c.speed * dt * 60.0 || t.x == cameraX - distance
    ensures t.x != c.x + c.speed * dt * 60.0 ==> t.y == r.y && t.size == r.size && t.speed == r.speed
  {
    var x := c.x + c.speed * dt * 60.0;
    if x > RespawnLine(cameraX, distance) then
      CloudState(cameraX - distance, r.y, r.size, r.speed, r.layer,
                 BASE_WIDTH * r.size, BASE_HEIGHT * r.size, LayerTint(r.layer))
    else
      c.(x := x)
  }

  /** A cloud keeps a size, speed, height and layer the draws can give, once every redraw can be given. */
  lemma AdvanceKeepsLooks(st: Settings, levelHeight: real, c: CloudState, dt: real, cameraX: real, r: Draw)
    requires st.respawnDistance >= 0.0
    requires Looks(st, levelHeight, c.y, c.size, c.speed, c.layer) && Looks(st, levelHeight, r.y, r.size, r.speed, r.layer)
    ensures var t := Advance(c, dt, cameraX, st.respawnDistance, r);
      Looks(st, levelHeight, t.y, t.size, t.speed, t.layer)
  {
  }

  /** A cloud short of the line only drifts; one past it always comes back on the left. */
  lemma AdvanceRespawnsExactlyPastTheLine(c: CloudState, dt: real, cameraX: real, distance: real, r: Draw)
    requires distance >= 0.0
    ensures var t := Advance(c, dt, cameraX, distance, r);
      if c.x + c.speed * dt * 60.0 > RespawnLine(cameraX, distance) then
        t.x == cameraX - distance && t.y == r.y && t.size == r.size && t.speed == r.speed && t.layer == r.layer
      else
        t == c.(x := c.x + c.speed * dt * 60.0)
  {
  }

  /** Cloud: one cloud, drifting right. */
  class Cloud {
    var x: real
    var y: real
    var size: real
    var speed: real
    var layer: int
    const baseWidth: real
    const baseHeight: real
    var width: real
    var height: real
    var tint: Tint

    predicate Valid()
      reads this
    {
      baseWidth == BASE_WIDTH && baseHeight == BASE_HEIGHT && Shaped(State())
    }

    function State(): CloudState
      reads this
    {
      CloudState(x, y, size, speed, layer, width, height, tint)
    }

    /** Cloud(x, y, size, speed, layer): 80 x 40 scaled by the size, coloured by the layer. */
    constructor (x0: real, y0: real, size0: real, speed0: real, layer0: int)
      ensures Valid()
      ensures x == x0 && y == y0 && size == size0 && speed == speed0 && layer == layer0
    {
      x := x0;
      y := y0;
      size := size0;
      speed := speed0;
      layer := layer0;
      baseWidth := BASE_WIDTH;
      baseHeight := BASE_HEIGHT;
      width := BASE_WIDTH * size0;
      height := BASE_HEIGHT * size0;
      tint := if layer0 == 0 then BackgroundTint else ForegroundTint;
    }

    /** update: `speed * dt * 60` further right, nothing else changes. */
    method Update(dt: real)
      modifies this`x
      ensures x == old(x) + speed * dt * 60.0
    {
      x := x + speed * dt * 60.0;
    }

    /** The body of CloudSystem.update's loop for this cloud. */
    method Step(dt: real, cameraX: real, distance: real, r: Draw)
      requires Valid() && distance >= 0.0
      modifies this
      ensures Valid()
      ensures State() == Advance(old(State()), dt, cameraX, distance, r)
    {
      Update(dt);
      if x > cameraX + SCREEN_WIDTH as real + distance {
        x := cameraX - distance;
        y := r.y;
        size := r.size;
        speed := r.speed;
        layer := r.layer;
        width := baseWidth * size;
        height := baseHeight * size;
        if layer == 0 {
          tint := BackgroundTint;
        } else {
          tint := ForegroundTint;
        }
      }
    }
  }

  predicate Distinct(cs: seq<Cloud>)
  {
    forall i, j :: 0 <= i < j < |cs| ==> cs[i] != cs[j]
  }

  /** The clouds' states, in order. */
  ghost function States(cs: seq<Cloud>): (r: seq<CloudState>)
    reads cs
    ensures |r| == |cs| && forall j :: 0 <= j < |cs| ==> r[j] == cs[j].State()
  {
    if cs == [] then [] else States(cs[..|cs| - 1]) + [cs[|cs| - 1].State()]
  }

  /** CloudSystem: a fixed number of clouds over the level. */
  class CloudSystem {
    const levelWidth: int
    const levelHeight: int
    const settings: Settings
    var clouds: seq<Cloud>

    /**
     * `cloud_count` separate clouds, each shaped by its size and layer and
     * with a height, size, speed and layer the draws can give.
     */
    predicate Valid()
      reads this, clouds
    {
      settings.respawnDistance >= 0.0 && |clouds| == settings.count && Distinct(clouds) &&
      forall i :: 0 <= i < |clouds| ==>
        clouds[i].Valid() &&
        Looks(settings, levelHeight as real, clouds[i].y, clouds[i].size, clouds[i].speed, clouds[i].layer)
    }

    /** CloudSystem(level_width, level_height): one cloud per draw, anywhere along the level, high in the sky. */
    constructor (lw: int, lh: int, st: Settings, draws: seq<Draw>)
      requires st.respawnDistance >= 0.0 && |draws| == st.count
      requires forall i :: 0 <= i < |draws| ==> SpawnFits(st, lw as real, lh as real, draws[i])
      ensures Valid() && levelWidth == lw && levelHeight == lh && settings == st
      ensures forall i :: 0 <= i < |clouds| ==>
        clouds[i].x == draws[i].x && clouds[i].y == draws[i].y && clouds[i].size == draws[i].size &&
        clouds[i].speed == draws[i].speed && clouds[i].layer == draws[i].layer
      ensures forall i :: 0 <= i < |clouds| ==>
        -st.respawnDistance <= clouds[i].x <= lw as real + st.respawnDistance && InSky(clouds[i].y, lh as real)
    {
      levelWidth := lw;
      levelHeight := lh;
      settings := st;
      clouds := [];
      new;
      GenerateInitialClouds(draws);
    }

    /** _generate_initial_clouds: one new cloud per draw, appended in order. */
    method GenerateInitialClouds(draws: seq<Draw>)
      requires settings.respawnDistance >= 0.0 && |draws| == settings.count && clouds == []
      requires forall i :: 0 <= i < |draws| ==> SpawnFits(settings, levelWidth as real, levelHeight as real, draws[i])
      modifies this`clouds
      ensures Valid()
      ensures forall i :: 0 <= i < |clouds| ==>
        clouds[i].x == draws[i].x && clouds[i].y == draws[i].y && clouds[i].size == draws[i].size &&
        clouds[i].speed == draws[i].speed && clouds[i].layer == draws[i].layer
    {
      var i := 0;
      while i < |draws|
        invariant 0 <= i <= |draws| && |clouds| == i && Distinct(clouds)
        invariant forall j :: 0 <= j < i ==>
          clouds[j].Valid() && clouds[j].x == draws[j].x && clouds[j].y == draws[j].y &&
          clouds[j].size == draws[j].size && clouds[j].speed == draws[j].speed && clouds[j].layer == draws[j].layer
      {
        var d := draws[i];
        var cloud := new Cloud(d.x, d.y, d.size, d.speed, d.layer);
        clouds := clouds + [cloud];
        i := i + 1;
      }
    }

    /**
     * update: every cloud advances by Advance with its own redraw (used only
     * when it respawns); the clouds stay the same objects, so their number
     * never changes, and no cloud is left beyond the respawn line.
     */
    method Update(dt: real, cameraX: real, redraws: seq<Draw>)
      requires Valid() && |redraws| == |clouds|
      requires forall i :: 0 <= i < |redraws| ==>
        Looks(settings, levelHeight as real, redraws[i].y, redraws[i].size, redraws[i].speed, redraws[i].layer)
      modifies clouds
      ensures Valid()
      ensures forall i :: 0 <= i < |clouds| ==>
        clouds[i].State() == Advance(old(clouds[i].State()), dt, cameraX, settings.respawnDistance, redraws[i])
      ensures forall i :: 0 <= i < |clouds| ==> clouds[i].x <= RespawnLine(cameraX, settings.respawnDistance)
    {
      ghost var before := States(clouds);
      var i := 0;
      while i < |clouds|
        invariant Progress(i, dt, cameraX, redraws, before)
      {
        CloudStep(i, dt, cameraX, redraws, before);
        i := i + 1;
      }
    }

    /**
     * The state of update after the first `i` clouds, given all their
     * states before: those have advanced, the others are as they were.
     */
    ghost predicate Progress(i: int, dt: real, cameraX: real, redraws: seq<Draw>, before: seq<CloudState>)
      reads this, clouds
    {
      Valid() && 0 <= i <= |clouds| && |redraws| == |clouds| && |before| == |clouds| &&
      (forall j | 0 <= j < i :: clouds[j].State() == Advance(before[j], dt, cameraX, settings.respawnDistance, redraws[j])) &&
      (forall j | i <= j < |clouds| :: clouds[j].State() == before[j])
    }

    /** One pass of update's loop: the cloud drifts, and respawns on the left once past the line. */
    method CloudStep(i: int, dt: real, cameraX: real, redraws: seq<Draw>, ghost before: seq<CloudState>)
      requires Progress(i, dt, cameraX, redraws, before) && i < |clouds|
      requires Looks(settings, levelHeight as real, redraws[i].y, redraws[i].size, redraws[i].speed, redraws[i].layer)
      modifies clouds[i]
      ensures Progress(i + 1, dt, cameraX, redraws, before)
    {
      var cloud := clouds[i];
      AdvanceKeepsLooks(settings, levelHeight as real, cloud.State(), dt, cameraX, redraws[i]);
      cloud.Step(dt, cameraX, settings.respawnDistance, redraws[i]);
    }
  }
}
