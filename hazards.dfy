// The environmental hazards of a level (src/systems/level_system.py, and
// the identical classes at the head of level_system.py): a base Hazard
// with damage, type and colour, and its three kinds -- the lava pool with
// rising bubbles, the water current that pushes the player, and the wind
// gust that pushes the player and bullets and gusts on a timer. The kinds
// are one class tagged by its shape; the random draws are parameters.

module Hazards {
  import opened GameObjects
  import opened Config
  import PlayerModule

  const LAVA_DAMAGE: int := 15
  const WATER_DAMAGE: int := 8
  const WIND_DAMAGE: int := 5
  const FLOW_STRENGTH: real := 150.0
  const WIND_STRENGTH: real := 200.0
  /** Seconds a gust lasts before it can end. */
  const GUST_LENGTH: real := 1.5
  /** Seconds after which a lava pool redraws its bubbles. */
  const BUBBLE_PERIOD: real := 2.0

  /** The colour of a hazard type; types other than lava, water and wind are gray. */
  function HazardColor(hazardType: string): (c: Color)
    ensures hazardType !in {"lava", "water", "wind"} ==> c == GRAY
  {
    if hazardType == "lava" then LAVA_COLOR
    else if hazardType == "water" then WATER_COLOR
    else if hazardType == "wind" then WIND_COLOR
    else GRAY
  }

  /** Which subclass a hazard is; currents and gusts carry their direction. */
  datatype Shape = Plain | Pool | Current(flowX: int, flowY: int) | Gust(windX: int, windY: int)

  /** A lava bubble: position and radius. */
  datatype Bubble = Bubble(x: int, y: real, size: int)

  /** A bullet as a force sees it: position and velocity. */
  datatype Drift = Drift(x: real, y: real, vx: real, vy: real)

  /** generate_bubbles' draws: 5 to 10 bubbles inside the pool, of radius 3 to 8. */
  predicate BubblesDrawn(bs: seq<Bubble>, x: int, y: int, w: int, h: int)
  {
    5 <= |bs| <= 10 &&
    forall i :: 0 <= i < |bs| ==>
      x <= bs[i].x <= x + w && y as real <= bs[i].y <= (y + h) as real && 3 <= bs[i].size <= 8
  }

  /** Every bubble is inside the pool's vertical extent. */
  predicate InPool(bs: seq<Bubble>, y: int, h: int)
  {
    forall i :: 0 <= i < |bs| ==> y as real <= bs[i].y <= (y + h) as real
  }

  /** One bubble of LavaPool.update: up by 10 * dt; above the pool's top it goes back to the bottom. */
  function Rise(b: Bubble, dt: real, y: int, h: int): (r: Bubble)
    ensures r.x == b.x && r.size == b.size
    ensures b.y - 10.0 * dt >= y as real ==> r.y == b.y - 10.0 * dt
    ensures b.y - 10.0 * dt < y as real ==> r.y == (y + h) as real
  {
    var up := b.y - 10.0 * dt;
    if up < y as real then b.(y := (y + h) as real) else b.(y := up)
  }

  function Risen(bs: seq<Bubble>, dt: real, y: int, h: int): (r: seq<Bubble>)
    ensures |r| == |bs| && forall i :: 0 <= i < |bs| ==> r[i] == Rise(bs[i], dt, y, h)
  {
    seq(|bs|, i requires 0 <= i < |bs| => Rise(bs[i], dt, y, h))
  }

  /** Rising never takes a bubble out of the pool when time moves forward. */
  lemma RisenStaysInPool(bs: seq<Bubble>, dt: real, y: int, h: int)
    requires InPool(bs, y, h) && dt >= 0.0 && h >= 0
    ensures InPool(Risen(bs, dt, y, h), y, h)
  {
    var r := Risen(bs, dt, y, h);
    forall i | 0 <= i < |r|
      ensures y as real <= r[i].y <= (y + h) as real
    {
      assert r[i] == Rise(bs[i], dt, y, h);
    }
  }

  /**
   * WindGust's gust cycle, given the timer after adding dt: out of a gust,
   * a timer beyond the drawn 3-5 s threshold starts one; in a gust, a
   * timer beyond 1.5 s ends it; either change restarts the timer.
   */
  function GustStep(timer: real, gusting: bool, threshold: real): (r: (real, bool))
    ensures !gusting && timer > threshold ==> r == (0.0, true)
    ensures gusting && timer > GUST_LENGTH ==> r == (0.0, false)
    ensures (!gusting && timer <= threshold) || (gusting && timer <= GUST_LENGTH) ==> r == (timer, gusting)
  {
    if !gusting && timer > threshold then (0.0, true)
    else if gusting && timer > GUST_LENGTH then (0.0, false)
    else (timer, gusting)
  }

  /** After a step a gust has not lasted more than 1.5 s, and a calm has not outlasted its threshold. */
  lemma GustBounded(timer: real, gusting: bool, threshold: real)
    requires 0.0 <= threshold
    ensures GustStep(timer, gusting, threshold).1 ==> GustStep(timer, gusting, threshold).0 <= GUST_LENGTH
    ensures !GustStep(timer, gusting, threshold).1 && !gusting ==> GustStep(timer, gusting, threshold).0 <= threshold
  {
  }

  /** The push a current or a gust gives a player it touches during dt; a gust pushes twice as hard. */
  function PlayerPush(shape: Shape, gusting: bool, dt: real): (p: (real, real))
    ensures shape.Plain? || shape.Pool? ==> p == (0.0, 0.0)
  {
    match shape
    case Current(fx, fy) => (fx as real * FLOW_STRENGTH * dt, fy as real * FLOW_STRENGTH * dt)
    case Gust(wx, wy) =>
      var strength := WIND_STRENGTH * (if gusting then 2.0 else 1.0);
      (wx as real * strength * dt, wy as real * strength * dt)
    case _ => (0.0, 0.0)
  }

  /** The push a gust gives a bullet inside it: 0.3 of the wind's strength, 0.6 while gusting. */
  function BulletPush(shape: Shape, gusting: bool, dt: real): (p: (real, real))
    ensures !shape.Gust? ==> p == (0.0, 0.0)
  {
    match shape
    case Gust(wx, wy) =>
      var effect := if gusting then 0.6 else 0.3;
      (wx as real * WIND_STRENGTH * effect * dt, wy as real * WIND_STRENGTH * effect * dt)
    case _ => (0.0, 0.0)
  }

  /** A gust doubles both pushes; a water current's push does not depend on gusting at all. */
  lemma GustDoubles(shape: Shape, dt: real)
    requires shape.Gust?
    ensures PlayerPush(shape, true, dt).0 == 2.0 * PlayerPush(shape, false, dt).0
    ensures PlayerPush(shape, true, dt).1 == 2.0 * PlayerPush(shape, false, dt).1
    ensures BulletPush(shape, true, dt).0 == 2.0 * BulletPush(shape, false, dt).0
    ensures BulletPush(shape, true, dt).1 == 2.0 * BulletPush(shape, false, dt).1
  {
  }

  /** The player's box as Hazard.check_collision builds it. */
  function PlayerBox(player: PlayerModule.Player): Rect
    reads player
  {
    RectOf(player.x, player.y, player.width, player.height)
  }

  /** The part of a hazard that update changes: the animation timer, the bubbles and the gust cycle. */
  datatype Animation = Animation(timer: real, bubbles: seq<Bubble>, gustTimer: real, gusting: bool)

  /**
   * update as a value, for a hazard of the given shape whose box starts at
   * height `y` and is `h` high: the timer grows by dt, a pool past 2 s
   * takes the fresh draw and restarts it before its bubbles rise, and a
   * gust runs its gust cycle.
   */
  function Animate(shape: Shape, y: int, h: int, a: Animation, dt: real, threshold: real, redraw: seq<Bubble>): Animation
  {
    var t := a.timer + dt;
    var redrawn := shape.Pool? && t > BUBBLE_PERIOD;
    var gust := GustStep(a.gustTimer + dt, a.gusting, threshold);
    Animation(if redrawn then 0.0 else t,
              if shape.Pool? then Risen(if redrawn then redraw else a.bubbles, dt, y, h) else a.bubbles,
              if shape.Gust? then gust.0 else a.gustTimer,
              if shape.Gust? then gust.1 else a.gusting)
  }

  /**
   * update keeps what a hazard promises: a pool's bubbles stay inside it,
   * a pool redraws at least every 2 s, and a gust never lasts more than
   * 1.5 s; nothing but a gust ever changes its gust cycle.
   */
  lemma {:induction false} AnimateKeepsBounds(shape: Shape, y: int, h: int, a: Animation, dt: real, threshold: real,
                                              redraw: seq<Bubble>)
    requires dt >= 0.0 && h >= 0 && 0.0 <= threshold && 0.0 <= a.timer
    requires shape.Pool? ==> InPool(a.bubbles, y, h) && InPool(redraw, y, h) && a.timer <= BUBBLE_PERIOD
    requires a.gusting ==> a.gustTimer <= GUST_LENGTH
    ensures var r := Animate(shape, y, h, a, dt, threshold, redraw);
      (shape.Pool? ==> InPool(r.bubbles, y, h) && 0.0 <= r.timer <= BUBBLE_PERIOD) &&
      (r.gusting ==> r.gustTimer <= GUST_LENGTH) &&
      (!shape.Gust? ==> r.gustTimer == a.gustTimer && r.gusting == a.gusting) &&
      (!shape.Pool? ==> r.bubbles == a.bubbles && r.timer == a.timer + dt)
  {
    var t := a.timer + dt;
    if shape.Pool? {
      RisenStaysInPool(if t > BUBBLE_PERIOD then redraw else a.bubbles, dt, y, h);
    }
    if shape.Gust? {
      GustBounded(a.gustTimer + dt, a.gusting, threshold);
    }
  }

  class Hazard {
    const x: int
    const y: int
    const width: int
    const height: int
    const damage: int
    const hazardType: string
    const color: Color
    const shape: Shape
    var active: bool
    var animationTimer: real
    /** LavaPool only. */
    var bubbles: seq<Bubble>
    /** WindGust only. */
    var gustTimer: real
    var isGusting: bool

    /** The kind's damage and type; the bubbles of a pool are inside it; a gust has not lasted more than 1.5 s. */
    predicate Valid()
      reads this
    {
      height >= 0 && color == HazardColor(hazardType) &&
      (shape.Pool? ==> hazardType == "lava" && damage == LAVA_DAMAGE && InPool(bubbles, y, height)) &&
      (shape.Current? ==> hazardType == "water" && damage == WATER_DAMAGE) &&
      (shape.Gust? ==> hazardType == "wind" && damage == WIND_DAMAGE) &&
      (isGusting ==> gustTimer <= GUST_LENGTH)
    }

    /** Hazard(x, y, width, height, damage, hazard_type): active, colour by type. */
    constructor (x0: int, y0: int, w: int, h: int, damage0: int, hazardType0: string)
      requires h >= 0
      ensures Valid()
      ensures x == x0 && y == y0 && width == w && height == h && damage == damage0 && hazardType == hazardType0
      ensures shape == Plain && active && animationTimer == 0.0 && color == HazardColor(hazardType0)
    {
      x, y, width, height := x0, y0, w, h;
      damage, hazardType, color, shape := damage0, hazardType0, HazardColor(hazardType0), Plain;
      active, animationTimer := true, 0.0;
      bubbles, gustTimer, isGusting := [], 0.0, false;
    }

    /** LavaPool(x, y, width, height): 15 damage, type lava, and its first bubbles. */
    constructor LavaPool(x0: int, y0: int, w: int, h: int, draw: seq<Bubble>)
      requires h >= 0 && BubblesDrawn(draw, x0, y0, w, h)
      ensures Valid()
      ensures x == x0 && y == y0 && width == w && height == h && shape == Pool
      ensures damage == LAVA_DAMAGE && hazardType == "lava" && color == LAVA_COLOR
      ensures active && animationTimer == 0.0 && bubbles == draw
    {
      x, y, width, height := x0, y0, w, h;
      damage, hazardType, color, shape := LAVA_DAMAGE, "lava", LAVA_COLOR, Pool;
      active, animationTimer := true, 0.0;
      bubbles, gustTimer, isGusting := draw, 0.0, false;
    }

    /** WaterCurrent(x, y, width, height, flow_direction): 8 damage, type water. */
    constructor WaterCurrent(x0: int, y0: int, w: int, h: int, fx: int, fy: int)
      requires h >= 0
      ensures Valid()
      ensures x == x0 && y == y0 && width == w && height == h && shape == Current(fx, fy)
      ensures damage == WATER_DAMAGE && hazardType == "water" && color == WATER_COLOR
      ensures active && animationTimer == 0.0
    {
      x, y, width, height := x0, y0, w, h;
      damage, hazardType, color, shape := WATER_DAMAGE, "water", WATER_COLOR, Current(fx, fy);
      active, animationTimer := true, 0.0;
      bubbles, gustTimer, isGusting := [], 0.0, false;
    }

    /** WindGust(x, y, width, height, wind_direction): 5 damage, type wind, not gusting. */
    constructor WindGust(x0: int, y0: int, w: int, h: int, wx: int, wy: int)
      requires h >= 0
      ensures Valid()
      ensures x == x0 && y == y0 && width == w && height == h && shape == Gust(wx, wy)
      ensures damage == WIND_DAMAGE && hazardType == "wind" && color == WIND_COLOR
      ensures active && animationTimer == 0.0 && gustTimer == 0.0 && !isGusting
    {
      x, y, width, height := x0, y0, w, h;
      damage, hazardType, color, shape := WIND_DAMAGE, "wind", WIND_COLOR, Gust(wx, wy);
      active, animationTimer := true, 0.0;
      bubbles, gustTimer, isGusting := [], 0.0, false;
    }

    function Box(): Rect
      reads this
    {
      Rect(x, y, width, height)
    }

    /** The hazard's animation state. */
    function Animated(): Animation
      reads this
    {
      Animation(animationTimer, bubbles, gustTimer, isGusting)
    }

    /** check_collision against a player box: never while inactive, otherwise the boxes overlap. */
    predicate Touches(pr: Rect)
      reads this
    {
      active && Collide(pr, Box())
    }

    /** The player's velocity change this hazard causes during dt. */
    function PushOn(pr: Rect, dt: real): (p: (real, real))
      reads this
      ensures !Touches(pr) || shape.Plain? || shape.Pool? ==> p == (0.0, 0.0)
    {
      if Touches(pr) then PlayerPush(shape, isGusting, dt) else (0.0, 0.0)
    }

    /** apply_force_to_bullet, as a value: a bullet whose 5 x 5 box meets a gust is pushed, whether or not the gust is active. */
    function Blown(b: Drift, dt: real): (r: Drift)
      reads this
      ensures r.x == b.x && r.y == b.y
      ensures !shape.Gust? ==> r == b
    {
      if shape.Gust? && Collide(RectOf(b.x, b.y, 5, 5), Box()) then
        var p := BulletPush(shape, isGusting, dt);
        b.(vx := b.vx + p.0, vy := b.vy + p.1)
      else b
    }

    /** check_collision(player). */
    function CheckCollision(player: PlayerModule.Player): (r: bool)
      reads this, player
      ensures !active ==> !r
      ensures r <==> active && Collide(PlayerBox(player), Box())
    {
      Touches(PlayerBox(player))
    }

    /**
     * update: the animation timer grows by dt; a lava pool past 2 s
     * redraws its bubbles and restarts the timer, then every bubble rises;
     * a gust runs its gust cycle with the drawn threshold.
     */
    method Update(dt: real, threshold: real, redraw: seq<Bubble>)
      requires Valid() && dt >= 0.0 && 3.0 <= threshold <= 5.0
      requires shape.Pool? ==> BubblesDrawn(redraw, x, y, width, height)
      modifies this`animationTimer, this`bubbles, this`gustTimer, this`isGusting
      ensures Valid()
      ensures animationTimer == if shape.Pool? && old(animationTimer) + dt > BUBBLE_PERIOD then 0.0
                                else old(animationTimer) + dt
      ensures shape.Pool? ==>
        bubbles == Risen(if old(animationTimer) + dt > BUBBLE_PERIOD then redraw else old(bubbles), dt, y, height)
      ensures !shape.Pool? ==> bubbles == old(bubbles)
      ensures shape.Gust? ==> (gustTimer, isGusting) == GustStep(old(gustTimer) + dt, old(isGusting), threshold)
      ensures !shape.Gust? ==> gustTimer == old(gustTimer) && isGusting == old(isGusting)
      ensures Animated() == Animate(shape, y, height, old(Animated()), dt, threshold, redraw)
    {
      animationTimer := animationTimer + dt;
      if shape.Pool? {
        if animationTimer > BUBBLE_PERIOD {
          bubbles := redraw;
          animationTimer := 0.0;
        }
        assert InPool(bubbles, y, height);
        RisenStaysInPool(bubbles, dt, y, height);
        RiseBubbles(dt);
      } else if shape.Gust? {
        GustBounded(gustTimer + dt, isGusting, threshold);
        gustTimer, isGusting := GustStep(gustTimer + dt, isGusting, threshold).0,
                                GustStep(gustTimer + dt, isGusting, threshold).1;
      }
    }

    /** The bubble loop of LavaPool.update, rewriting each bubble in place. */
    method RiseBubbles(dt: real)
      modifies this`bubbles
      ensures bubbles == Risen(old(bubbles), dt, y, height)
    {
      var i := 0;
      while i < |bubbles|
        invariant 0 <= i <= |bubbles| == |old(bubbles)|
        invariant forall k :: 0 <= k < i ==> bubbles[k] == Rise(old(bubbles)[k], dt, y, height)
        invariant forall k :: i <= k < |bubbles| ==> bubbles[k] == old(bubbles)[k]
      {
        bubbles := bubbles[i := Rise(bubbles[i], dt, y, height)];
        i := i + 1;
      }
    }

    /** apply_force_to_player (currents and gusts): only a touching hazard adds its push to the velocity. */
    method ApplyForceToPlayer(player: PlayerModule.Player, dt: real)
      modifies player`vx, player`vy
      ensures player.vx == old(player.vx) + PushOn(PlayerBox(player), dt).0
      ensures player.vy == old(player.vy) + PushOn(PlayerBox(player), dt).1
    {
      if CheckCollision(player) {
        var p := PlayerPush(shape, isGusting, dt);
        player.vx := player.vx + p.0;
        player.vy := player.vy + p.1;
      }
    }
  }
}
