// The older, themed level manager (level_system.py): a level's theme
// follows its number (volcano, underwater, hurricane), each theme lays a
// row of base platforms, a row of higher platforms and its own hazards;
// each frame the hazards update, currents and gusts push the player and
// gusts push the bullets; touching hazards add up their damage. The
// random draws of level generation and of the hazards' updates are
// parameters.

module RootLevelSystem {
  import opened GameObjects
  import opened Config
  import opened Hazards
  import PlayerModule

  /** SCREEN_WIDTH * 3. */
  const LEVEL_WIDTH: int := SCREEN_WIDTH * 3

  datatype Theme = Volcano | Underwater | Hurricane

  /** generate_level's choice: levels up to 3 are volcanic, up to 6 underwater, the rest hurricanes. */
  function ThemeFor(level: int): (t: Theme)
    ensures t == Volcano <==> level <= 3
    ensures t == Underwater <==> 3 < level <= 6
    ensures t == Hurricane <==> level > 6
  {
    if level <= 3 then Volcano else if level <= 6 then Underwater else Hurricane
  }

  /**
   * What a theme lays out: the spacing, height and thickness of the base
   * row (and whether its heights vary), how many higher platforms over how
   * many slices of the level and their thickness, and how many hazards.
   */
  datatype Layout = Layout(step: int, baseY: int, baseH: int, varies: bool,
                           highCount: int, slices: int, highH: int, trapCount: int)

  function LayoutOf(t: Theme): (l: Layout)
    ensures l.step > 0 && l.slices > 0 && l.highCount > 0 && l.trapCount > 0
  {
    match t
    case Volcano => Layout(200, SCREEN_HEIGHT - 100, 20, true, 5, 6, 20, 5)
    case Underwater => Layout(150, SCREEN_HEIGHT - 80, 30, true, 7, 8, 15, 4)
    case Hurricane => Layout(250, SCREEN_HEIGHT - 60, 20, false, 9, 10, 15, 6)
  }

  /** How many values `range(0, LEVEL_WIDTH, step)` yields. */
  function RowCount(step: int): int
    requires step > 0
  {
    (LEVEL_WIDTH + step - 1) / step
  }

  /** One platform's draws: an x offset or height drop, a height variation, a width. */
  datatype PlatDraw = PlatDraw(dx: int, dy: int, w: int)

  /** One hazard's draws: position, size, direction choice and, for a lava pool, its bubbles. */
  datatype TrapDraw = TrapDraw(x: int, y: int, w: int, h: int, dir: int, bubbles: seq<Bubble>)

  datatype LevelDraws = LevelDraws(base: seq<PlatDraw>, high: seq<PlatDraw>, traps: seq<TrapDraw>)

  /** The base row: one platform every `step` px from x = 0, at the base height (varied by the draw). */
  function BaseRow(l: Layout, ds: seq<PlatDraw>): (r: seq<Rect>)
    ensures |r| == |ds|
  {
    seq(|ds|, k requires 0 <= k < |ds| => Rect(k * l.step, l.baseY + (if l.varies then ds[k].dy else 0), ds[k].w, l.baseH))
  }

  /** The higher row: platform i (from 1) at i slices across, moved by the draw, the drawn height above the screen bottom. */
  function HighRow(l: Layout, ds: seq<PlatDraw>): (r: seq<Rect>)
    requires l.slices > 0
    ensures |r| == |ds|
  {
    seq(|ds|, k requires 0 <= k < |ds| =>
      Rect((k + 1) * (LEVEL_WIDTH / l.slices) + ds[k].dx, SCREEN_HEIGHT - ds[k].dy, ds[k].w, l.highH))
  }

  const FLOW_DIRECTIONS: seq<(int, int)> := [(1, 0), (-1, 0), (0, 1), (0, -1), (1, 1), (-1, -1)]
  const WIND_DIRECTIONS: seq<(int, int)> := [(1, 0), (-1, 0), (0, 1), (0, -1), (1, -1), (-1, 1)]

  /** The hazard kind a theme builds. */
  function ShapeOf(t: Theme, d: TrapDraw): Shape
    requires 0 <= d.dir < 6
  {
    match t
    case Volcano => Pool
    case Underwater => Current(FLOW_DIRECTIONS[d.dir].0, FLOW_DIRECTIONS[d.dir].1)
    case Hurricane => Gust(WIND_DIRECTIONS[d.dir].0, WIND_DIRECTIONS[d.dir].1)
  }

  /** A hazard of the theme's kind. */
  predicate Fits(t: Theme, s: Shape)
  {
    match t
    case Volcano => s.Pool?
    case Underwater => s.Current?
    case Hurricane => s.Gust?
  }

  /** The ranges random.randint gives a hazard's draws; a lava pool sits 80 px above the bottom and is 60 px deep. */
  predicate TrapFits(t: Theme, d: TrapDraw)
  {
    0 <= d.dir < 6 &&
    match t
    case Volcano => BubblesDrawn(d.bubbles, d.x, SCREEN_HEIGHT - 80, d.w, 60)
    case Underwater => 80 <= d.h <= 150
    case Hurricane => 100 <= d.h <= 180
  }

  /** As many draws as the theme uses, each in range. */
  predicate DrawsFit(t: Theme, d: LevelDraws)
  {
    var l := LayoutOf(t);
    |d.base| == RowCount(l.step) && |d.high| == l.highCount && |d.traps| == l.trapCount &&
    forall k :: 0 <= k < |d.traps| ==> TrapFits(t, d.traps[k])
  }

  /** A volcano level has one base platform per 200 px, 5 higher ones and 5 lava pools; the other themes likewise. */
  lemma LayoutCounts()
    ensures RowCount(LayoutOf(Volcano).step) == 18 && LayoutOf(Volcano).highCount == 5 && LayoutOf(Volcano).trapCount == 5
    ensures RowCount(LayoutOf(Underwater).step) == 24 && LayoutOf(Underwater).highCount == 7
    ensures LayoutOf(Underwater).trapCount == 4
    ensures RowCount(LayoutOf(Hurricane).step) == 15 && LayoutOf(Hurricane).highCount == 9
    ensures LayoutOf(Hurricane).trapCount == 6
  {
  }

  predicate Distinct(hs: seq<Hazard>)
  {
    forall i, j :: 0 <= i < j < |hs| ==> hs[i] != hs[j]
  }

  /** The velocity change all hazards together give a player box, in list order. */
  function PushSum(hs: seq<Hazard>, pr: Rect, dt: real): (real, real)
    reads hs
    decreases |hs|
  {
    if hs == [] then (0.0, 0.0)
    else
      var p := PushSum(hs[..|hs| - 1], pr, dt);
      var q := hs[|hs| - 1].PushOn(pr, dt);
      (p.0 + q.0, p.1 + q.1)
  }

  /** One hazard blows every bullet. */
  function BlowEach(h: Hazard, bs: seq<Drift>, dt: real): (r: seq<Drift>)
    reads h
    ensures |r| == |bs| && forall k :: 0 <= k < |bs| ==> r[k] == h.Blown(bs[k], dt)
  {
    seq(|bs|, k requires 0 <= k < |bs| reads h => h.Blown(bs[k], dt))
  }

  /** Every hazard in turn blows every bullet. */
  function BlownAll(hs: seq<Hazard>, bs: seq<Drift>, dt: real): (r: seq<Drift>)
    reads hs
    ensures |r| == |bs|
    decreases |hs|
  {
    if hs == [] then bs
    else BlowEach(hs[|hs| - 1], BlownAll(hs[..|hs| - 1], bs, dt), dt)
  }

  /** The damage of every touching hazard, added up. */
  function DamageSum(hs: seq<Hazard>, pr: Rect): int
    reads hs
    decreases |hs|
  {
    if hs == [] then 0
    else DamageSum(hs[..|hs| - 1], pr) + (if hs[|hs| - 1].Touches(pr) then hs[|hs| - 1].damage else 0)
  }

  /** Without currents or gusts nothing pushes the player. */
  lemma {:induction false} NoPushWithoutCurrentsOrGusts(hs: seq<Hazard>, pr: Rect, dt: real)
    requires forall i :: 0 <= i < |hs| ==> hs[i].shape.Pool? || hs[i].shape.Plain?
    ensures PushSum(hs, pr, dt) == (0.0, 0.0)
    decreases |hs|
  {
    if hs != [] {
      NoPushWithoutCurrentsOrGusts(hs[..|hs| - 1], pr, dt);
    }
  }

  /** Without gusts no bullet is pushed. */
  lemma {:induction false} NoBlowWithoutGusts(hs: seq<Hazard>, bs: seq<Drift>, dt: real)
    requires forall i :: 0 <= i < |hs| ==> !hs[i].shape.Gust?
    ensures BlownAll(hs, bs, dt) == bs
    decreases |hs|
  {
    if hs != [] {
      NoBlowWithoutGusts(hs[..|hs| - 1], bs, dt);
    }
  }

  /** Hazards of the three kinds deal at most 15 each, and never less than nothing. */
  lemma {:induction false} DamageBounded(hs: seq<Hazard>, pr: Rect)
    requires forall i :: 0 <= i < |hs| ==> hs[i].Valid() && !hs[i].shape.Plain?
    ensures 0 <= DamageSum(hs, pr) <= LAVA_DAMAGE * |hs|
    decreases |hs|
  {
    if hs != [] {
      DamageBounded(hs[..|hs| - 1], pr);
    }
  }

  /** One more hazard: the push over a prefix grows by that hazard's push. */
  lemma PushStep(hs: seq<Hazard>, i: int, pr: Rect, dt: real)
    requires 0 <= i < |hs|
    ensures PushSum(hs[..i + 1], pr, dt) ==
      (PushSum(hs[..i], pr, dt).0 + hs[i].PushOn(pr, dt).0, PushSum(hs[..i], pr, dt).1 + hs[i].PushOn(pr, dt).1)
  {
    assert hs[..i + 1][..i] == hs[..i];
  }

  /** One more hazard: a gust blows the bullets once more; any other hazard leaves them. */
  lemma BlowStep(hs: seq<Hazard>, i: int, bs: seq<Drift>, dt: real)
    requires 0 <= i < |hs|
    ensures BlownAll(hs[..i + 1], bs, dt) == BlowEach(hs[i], BlownAll(hs[..i], bs, dt), dt)
    ensures !hs[i].shape.Gust? ==> BlownAll(hs[..i + 1], bs, dt) == BlownAll(hs[..i], bs, dt)
  {
    assert hs[..i + 1][..i] == hs[..i];
  }

  /** One more hazard: the damage over a prefix grows by that hazard's damage when it touches. */
  lemma DamageStep(hs: seq<Hazard>, i: int, pr: Rect)
    requires 0 <= i < |hs|
    ensures DamageSum(hs[..i + 1], pr) == DamageSum(hs[..i], pr) + (if hs[i].Touches(pr) then hs[i].damage else 0)
  {
    assert hs[..i + 1][..i] == hs[..i];
  }

  /** The bullet loop of update for one gust: each bullet in turn. */
  method BlowBullets(h: Hazard, bs: seq<Drift>, dt: real) returns (r: seq<Drift>)
    ensures r == BlowEach(h, bs, dt)
  {
    r := [];
    var k := 0;
    while k < |bs|
      invariant 0 <= k <= |bs| && |r| == k
      invariant forall j :: 0 <= j < k ==> r[j] == h.Blown(bs[j], dt)
    {
      r := r + [h.Blown(bs[k], dt)];
      k := k + 1;
    }
  }

  /** The bullet part of update for one hazard: only a gust loops over the bullets. */
  method BulletStep(hs: seq<Hazard>, i: int, ghost bullets: seq<Drift>, blownIn: seq<Drift>, dt: real)
    returns (blownOut: seq<Drift>)
    requires 0 <= i < |hs| && blownIn == BlownAll(hs[..i], bullets, dt)
    ensures blownOut == BlownAll(hs[..i + 1], bullets, dt)
  {
    BlowStep(hs, i, bullets, dt);
    if hs[i].shape.Gust? {
      blownOut := BlowBullets(hs[i], blownIn, dt);
    } else {
      blownOut := blownIn;
    }
  }

  /** The per-frame draws of one hazard: a gust threshold and a lava pool's fresh bubbles. */
  datatype Tick = Tick(threshold: real, redraw: seq<Bubble>)

  predicate TicksFit(hs: seq<Hazard>, ticks: seq<Tick>)
  {
    |ticks| == |hs| &&
    forall i :: 0 <= i < |hs| ==>
      3.0 <= ticks[i].threshold <= 5.0 &&
      (hs[i].shape.Pool? ==> BubblesDrawn(ticks[i].redraw, hs[i].x, hs[i].y, hs[i].width, hs[i].height))
  }

  /** The hazards' animation states, in order. */
  ghost function Animations(hs: seq<Hazard>): (r: seq<Animation>)
    reads hs
    ensures |r| == |hs| && forall j :: 0 <= j < |hs| ==> r[j] == hs[j].Animated()
  {
    if hs == [] then [] else Animations(hs[..|hs| - 1]) + [hs[|hs| - 1].Animated()]
  }

  class LevelManager {
    var currentLevel: int
    var levelTheme: Theme
    var platforms: seq<Rect>
    var hazards: seq<Hazard>
    const levelWidth: int
    const levelHeight: int

    /** The theme is the level's; the hazards are distinct, sound and of the theme's kind. */
    predicate Valid()
      reads this, hazards
    {
      levelWidth == LEVEL_WIDTH && levelHeight == SCREEN_HEIGHT && currentLevel >= 1 &&
      levelTheme == ThemeFor(currentLevel) && Distinct(hazards) &&
      forall i :: 0 <= i < |hazards| ==> hazards[i].Valid() && Fits(levelTheme, hazards[i].shape)
    }

    /** LevelManager(): level 1, a volcano. */
    constructor (draws: LevelDraws)
      requires DrawsFit(Volcano, draws)
      ensures Valid() && currentLevel == 1 && levelTheme == Volcano
      ensures platforms == BaseRow(LayoutOf(Volcano), draws.base) + HighRow(LayoutOf(Volcano), draws.high)
      ensures |hazards| == 5
    {
      currentLevel := 1;
      levelTheme := Volcano;
      levelWidth := LEVEL_WIDTH;
      levelHeight := SCREEN_HEIGHT;
      platforms := [];
      hazards := [];
      new;
      GenerateLevel(draws);
    }

    /**
     * generate_level: clear the platforms and hazards, pick the theme from
     * the level number, and lay the theme's base row, higher row and
     * hazards.
     */
    method GenerateLevel(draws: LevelDraws)
      requires currentLevel >= 1 && levelWidth == LEVEL_WIDTH && levelHeight == SCREEN_HEIGHT
      requires DrawsFit(ThemeFor(currentLevel), draws)
      modifies this`levelTheme, this`platforms, this`hazards
      ensures Valid()
      ensures levelTheme == ThemeFor(currentLevel)
      ensures platforms == BaseRow(LayoutOf(levelTheme), draws.base) + HighRow(LayoutOf(levelTheme), draws.high)
      ensures |hazards| == LayoutOf(levelTheme).trapCount
      ensures forall i :: 0 <= i < |hazards| ==> fresh(hazards[i])
      ensures |hazards| == |draws.traps| &&
        forall i :: 0 <= i < |hazards| ==> hazards[i].shape == ShapeOf(levelTheme, draws.traps[i]) && hazards[i].active
    {
      levelTheme := ThemeFor(currentLevel);
      var l := LayoutOf(levelTheme);
      var base := LayRow(l, draws.base);
      var high := LayHigh(l, draws.high);
      platforms := base + high;
      hazards := LayHazards(levelTheme, draws.traps);
    }

    /** next_level: one level further, generated afresh. */
    method NextLevel(draws: LevelDraws)
      requires Valid() && DrawsFit(ThemeFor(currentLevel + 1), draws)
      modifies this`currentLevel, this`levelTheme, this`platforms, this`hazards
      ensures Valid()
      ensures currentLevel == old(currentLevel) + 1 && levelTheme == ThemeFor(currentLevel)
      ensures |hazards| == LayoutOf(levelTheme).trapCount
      ensures platforms == BaseRow(LayoutOf(levelTheme), draws.base) + HighRow(LayoutOf(levelTheme), draws.high)
      ensures forall i :: 0 <= i < |hazards| ==> fresh(hazards[i])
      ensures |hazards| == |draws.traps| &&
        forall i :: 0 <= i < |hazards| ==> hazards[i].shape == ShapeOf(levelTheme, draws.traps[i]) && hazards[i].active
    {
      currentLevel := currentLevel + 1;
      GenerateLevel(draws);
    }

    /**
     * update: each hazard in turn updates; a current or a gust then pushes
     * the player, and a gust pushes every bullet. Bullets are values, so
     * the pushed bullets are returned.
     */
    method Update(dt: real, player: PlayerModule.Player, bullets: seq<Drift>, ticks: seq<Tick>)
      returns (blown: seq<Drift>)
      requires Valid() && dt >= 0.0 && TicksFit(hazards, ticks)
      modifies hazards, player`vx, player`vy
      ensures Valid()
      ensures player.vx == old(player.vx) + PushSum(hazards, PlayerBox(player), dt).0
      ensures player.vy == old(player.vy) + PushSum(hazards, PlayerBox(player), dt).1
      ensures blown == BlownAll(hazards, bullets, dt)
      ensures forall j {:trigger hazards[j].Animated()} :: 0 <= j < |hazards| ==>
        hazards[j].Animated() ==
          Animate(hazards[j].shape, hazards[j].y, hazards[j].height, old(hazards[j].Animated()), dt,
                  ticks[j].threshold, ticks[j].redraw)
    {
      ghost var before := Animations(hazards);
      var pr := PlayerBox(player);
      blown := bullets;
      var i := 0;
      while i < |hazards|
        invariant 0 <= i <= |hazards|
        invariant Progress(i, pr, dt, ticks, old(player.vx), old(player.vy), bullets, blown, player)
        invariant Animates(i, dt, ticks, before)
      {
        label pass:
        blown := HazardStep(player, pr, i, dt, ticks, old(player.vx), old(player.vy), bullets, blown);
        forall j | 0 <= j < |hazards| && j != i
          ensures hazards[j].Animated() == old@pass(hazards[j].Animated())
        {
          assert hazards[j] != hazards[i];
        }
        i := i + 1;
      }
      assert hazards[..i] == hazards;
    }

    /** The hazards' animations after the first `i` of update, given them all `before`: those have run Animate, the rest are as they were. */
    ghost predicate Animates(i: int, dt: real, ticks: seq<Tick>, before: seq<Animation>)
      reads this, hazards
    {
      0 <= i <= |hazards| && |ticks| == |hazards| && |before| == |hazards| &&
      (forall j {:trigger hazards[j].Animated()} | 0 <= j < i ::
        hazards[j].Animated() ==
          Animate(hazards[j].shape, hazards[j].y, hazards[j].height, before[j], dt, ticks[j].threshold, ticks[j].redraw)) &&
      (forall j {:trigger hazards[j].Animated()} | i <= j < |hazards| :: hazards[j].Animated() == before[j])
    }

    /** The state of update after the first `i` hazards: the player and the bullets have taken in their pushes. */
    ghost predicate Progress(i: int, pr: Rect, dt: real, ticks: seq<Tick>, vx0: real, vy0: real,
                             bullets: seq<Drift>, blown: seq<Drift>, player: PlayerModule.Player)
      reads this, hazards, player
    {
      Valid() && TicksFit(hazards, ticks) && 0 <= i <= |hazards| && pr == PlayerBox(player) &&
      player.vx == vx0 + PushSum(hazards[..i], pr, dt).0 &&
      player.vy == vy0 + PushSum(hazards[..i], pr, dt).1 &&
      blown == BlownAll(hazards[..i], bullets, dt)
    }

    /** One hazard of update, touching the player and then the bullets. */
    method HazardStep(player: PlayerModule.Player, pr: Rect, i: int, dt: real, ticks: seq<Tick>,
                      ghost vx0: real, ghost vy0: real, ghost bullets: seq<Drift>, blownIn: seq<Drift>)
      returns (blownOut: seq<Drift>)
      requires Progress(i, pr, dt, ticks, vx0, vy0, bullets, blownIn, player) && i < |hazards| && dt >= 0.0
      modifies hazards[i], player`vx, player`vy
      ensures Progress(i + 1, pr, dt, ticks, vx0, vy0, bullets, blownOut, player)
      ensures hazards[i].Animated() ==
        Animate(hazards[i].shape, hazards[i].y, hazards[i].height, old(hazards[i].Animated()), dt,
                ticks[i].threshold, ticks[i].redraw)
    {
      TouchStep(player, pr, i, dt, ticks[i], vx0, vy0, bullets, blownIn);
      blownOut := BulletStep(hazards, i, bullets, blownIn, dt);
    }

    /**
     * One hazard of update: it updates, then a current or a gust pushes
     * the player, so the player's velocity has taken in one more hazard's
     * push; the bullets pushed so far are untouched.
     */
    method TouchStep(player: PlayerModule.Player, pr: Rect, i: int, dt: real, tick: Tick,
                     ghost vx0: real, ghost vy0: real, ghost bullets: seq<Drift>, ghost blown: seq<Drift>)
      requires Valid() && 0 <= i < |hazards| && dt >= 0.0 && pr == PlayerBox(player)
      requires 3.0 <= tick.threshold <= 5.0
      requires hazards[i].shape.Pool? ==>
        BubblesDrawn(tick.redraw, hazards[i].x, hazards[i].y, hazards[i].width, hazards[i].height)
      requires player.vx == vx0 + PushSum(hazards[..i], pr, dt).0
      requires player.vy == vy0 + PushSum(hazards[..i], pr, dt).1
      requires blown == BlownAll(hazards[..i], bullets, dt)
      modifies hazards[i], player`vx, player`vy
      ensures Valid()
      ensures player.vx == vx0 + PushSum(hazards[..i + 1], pr, dt).0
      ensures player.vy == vy0 + PushSum(hazards[..i + 1], pr, dt).1
      ensures blown == BlownAll(hazards[..i], bullets, dt)
      ensures hazards[i].Animated() ==
        Animate(hazards[i].shape, hazards[i].y, hazards[i].height, old(hazards[i].Animated()), dt, tick.threshold, tick.redraw)
    {
      ghost var done := hazards[..i];
      assert forall j :: 0 <= j < |done| ==> done[j] != hazards[i];
      UpdateOne(i, dt, tick);
      var h := hazards[i];
      if h.shape.Current? || h.shape.Gust? {
        h.ApplyForceToPlayer(player, dt);
      }
      assert forall j :: 0 <= j < |done| ==> unchanged(done[j]);
      assert PushSum(done, pr, dt) == old(PushSum(done, pr, dt));
      assert BlownAll(done, bullets, dt) == old(BlownAll(done, bullets, dt));
      PushStep(hazards, i, pr, dt);
    }

    /** The hazard's own update, which keeps the level's invariant. */
    method UpdateOne(i: int, dt: real, tick: Tick)
      requires Valid() && 0 <= i < |hazards| && dt >= 0.0 && 3.0 <= tick.threshold <= 5.0
      requires hazards[i].shape.Pool? ==>
        BubblesDrawn(tick.redraw, hazards[i].x, hazards[i].y, hazards[i].width, hazards[i].height)
      modifies hazards[i]
      ensures Valid()
      ensures hazards[i].Animated() ==
        Animate(hazards[i].shape, hazards[i].y, hazards[i].height, old(hazards[i].Animated()), dt, tick.threshold, tick.redraw)
    {
      hazards[i].Update(dt, tick.threshold, tick.redraw);
    }

    /** check_hazard_collisions: the damages of the hazards touching the player, added up. */
    method CheckHazardCollisions(player: PlayerModule.Player) returns (total: int)
      requires Valid()
      ensures total == DamageSum(hazards, PlayerBox(player))
      ensures 0 <= total <= LAVA_DAMAGE * |hazards|
    {
      var pr := PlayerBox(player);
      total := 0;
      var i := 0;
      while i < |hazards|
        invariant 0 <= i <= |hazards|
        invariant total == DamageSum(hazards[..i], pr)
      {
        DamageStep(hazards, i, pr);
        if hazards[i].CheckCollision(player) {
          total := total + hazards[i].damage;
        }
        i := i + 1;
      }
      assert hazards[..i] == hazards;
      DamageBounded(hazards, pr);
    }
  }

  /** The base-row loop, `for i in range(0, level_width, step)`. */
  method LayRow(l: Layout, ds: seq<PlatDraw>) returns (row: seq<Rect>)
    requires l.step > 0 && |ds| == RowCount(l.step)
    ensures row == BaseRow(l, ds)
  {
    row := [];
    var x := 0;
    var k := 0;
    while k < |ds|
      invariant 0 <= k <= |ds| && x == k * l.step && |row| == k
      invariant forall j :: 0 <= j < k ==> row[j] == BaseRow(l, ds)[j]
    {
      row := row + [Rect(x, l.baseY + (if l.varies then ds[k].dy else 0), ds[k].w, l.baseH)];
      x := x + l.step;
      k := k + 1;
    }
  }

  /** The higher-row loop, `for i in range(1, count + 1)`. */
  method LayHigh(l: Layout, ds: seq<PlatDraw>) returns (row: seq<Rect>)
    requires l.slices > 0 && |ds| == l.highCount
    ensures row == HighRow(l, ds)
  {
    row := [];
    var i := 1;
    while i <= l.highCount
      invariant 1 <= i <= l.highCount + 1 || (l.highCount < 1 && i == 1)
      invariant |row| == i - 1 <= |ds|
      invariant forall j :: 0 <= j < i - 1 ==> row[j] == HighRow(l, ds)[j]
    {
      var d := ds[i - 1];
      row := row + [Rect(i * (LEVEL_WIDTH / l.slices) + d.dx, SCREEN_HEIGHT - d.dy, d.w, l.highH)];
      i := i + 1;
    }
  }

  /** The hazard loop: a lava pool, a current or a gust per draw, as the theme says. */
  method LayHazards(t: Theme, ds: seq<TrapDraw>) returns (hs: seq<Hazard>)
    requires forall k :: 0 <= k < |ds| ==> TrapFits(t, ds[k])
    ensures |hs| == |ds| && Distinct(hs)
    ensures forall i :: 0 <= i < |hs| ==> fresh(hs[i]) && hs[i].Valid() && Fits(t, hs[i].shape)
    ensures forall i :: 0 <= i < |hs| ==> TrapFits(t, ds[i]) && hs[i].shape == ShapeOf(t, ds[i]) && hs[i].active
  {
    hs := [];
    var k := 0;
    while k < |ds|
      invariant 0 <= k <= |ds| && |hs| == k && Distinct(hs)
      invariant forall i :: 0 <= i < k ==> fresh(hs[i]) && hs[i].Valid() && Fits(t, hs[i].shape)
      invariant forall i :: 0 <= i < k ==> TrapFits(t, ds[i]) && hs[i].shape == ShapeOf(t, ds[i]) && hs[i].active
    {
      var d := ds[k];
      var h: Hazard;
      if t == Volcano {
        h := new Hazard.LavaPool(d.x, SCREEN_HEIGHT - 80, d.w, 60, d.bubbles);
      } else if t == Underwater {
        h := new Hazard.WaterCurrent(d.x, d.y, d.w, d.h, FLOW_DIRECTIONS[d.dir].0, FLOW_DIRECTIONS[d.dir].1);
      } else {
        h := new Hazard.WindGust(d.x, d.y, d.w, d.h, WIND_DIRECTIONS[d.dir].0, WIND_DIRECTIONS[d.dir].1);
      }
      hs := hs + [h];
      k := k + 1;
    }
  }
}
