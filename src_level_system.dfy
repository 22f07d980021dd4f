// The newer level manager (src/systems/level_system.py): a single parkour
// tower of 30 layers. Above a solid ground, each layer holds three
// platforms, one in each third of the level's width, placed at random
// within their third, and every third layer an extra stepping stone in
// the middle; two walls close the sides and a wide platform under the
// target star caps the top. There are no hazards. Touching the star
// collects it, once. The random draws are parameters.

module SrcLevelSystem {
  import opened GameObjects
  import opened Config
  import Hazards
  import PlayerModule

  /** SCREEN_WIDTH * 3 and SCREEN_HEIGHT * 15. */
  const LEVEL_WIDTH: int := SCREEN_WIDTH * 3
  const LEVEL_HEIGHT: int := SCREEN_HEIGHT * 15
  const TOTAL_LEVELS: int := 30

  const GROUND_THICKNESS: int := 80
  const PLATFORMS_PER_LEVEL: int := 3
  const LEVEL_HEIGHT_GAP: int := 100
  const PLATFORM_MIN_WIDTH: int := 120
  const PLATFORM_MAX_WIDTH: int := 200
  const SECTION_WIDTH: int := LEVEL_WIDTH / PLATFORMS_PER_LEVEL

  /** The ground: the level's whole width, 80 px thick, at the bottom of the screen. */
  const GROUND: Rect := Rect(0, SCREEN_HEIGHT - GROUND_THICKNESS, LEVEL_WIDTH, GROUND_THICKNESS)
  const LEFT_WALL: Rect := Rect(-50, 0, 50, LEVEL_HEIGHT)
  const RIGHT_WALL: Rect := Rect(LEVEL_WIDTH, 0, 50, LEVEL_HEIGHT)

  /** Where place_target_star puts the star: centred, 60 px above the top layer's base height. */
  const STAR_X: int := LEVEL_WIDTH / 2
  const STAR_Y: int := SCREEN_HEIGHT - GROUND_THICKNESS - TOTAL_LEVELS * 100 - 60
  const STAR_PLATFORM: Rect := Rect(STAR_X - 150, STAR_Y + 50, 300, 40)
  const STAR_SIZE: int := 30

  /** One layer platform's draws: its x, its height variation and its width. */
  datatype PlatDraw = PlatDraw(x: int, dy: int, w: int)

  /** The ranges random.randint gives the draws of the platform in third `section`. */
  predicate DrawFits(section: int, d: PlatDraw)
  {
    section * SECTION_WIDTH + 20 <= d.x <= section * SECTION_WIDTH + SECTION_WIDTH - PLATFORM_MAX_WIDTH - 20 &&
    -15 <= d.dy <= 15 && PLATFORM_MIN_WIDTH <= d.w <= PLATFORM_MAX_WIDTH
  }

  /** Three draws per layer, 30 layers, each in range. */
  predicate DrawsFit(ds: seq<PlatDraw>)
  {
    |ds| == PLATFORMS_PER_LEVEL * TOTAL_LEVELS &&
    forall k :: 0 <= k < |ds| ==> DrawFits(k % PLATFORMS_PER_LEVEL, ds[k])
  }

  /** The base height of layer `level`: 100 px per layer above the ground. */
  function BaseY(level: int): int
  {
    SCREEN_HEIGHT - GROUND_THICKNESS - level * LEVEL_HEIGHT_GAP
  }

  /** A layer platform, 25 px thick; one that would stick out of the level is moved back inside it. */
  function SectionPlatform(level: int, d: PlatDraw): Rect
  {
    var x := if d.x + d.w > LEVEL_WIDTH then LEVEL_WIDTH - d.w else d.x;
    Rect(x, BaseY(level) + d.dy, d.w, 25)
  }

  /** Every third layer's extra 80 x 20 stepping stone, centred, 30 px above the base height. */
  function Extra(level: int): seq<Rect>
  {
    if level % 3 == 0 then [Rect(LEVEL_WIDTH / 2 - 40, BaseY(level) - 30, 80, 20)] else []
  }

  /** The draws of layer `level` (from 1). */
  function LayerDraws(level: int, ds: seq<PlatDraw>): (r: seq<PlatDraw>)
    requires 1 <= level && PLATFORMS_PER_LEVEL * level <= |ds|
    ensures |r| == PLATFORMS_PER_LEVEL
  {
    ds[PLATFORMS_PER_LEVEL * (level - 1)..PLATFORMS_PER_LEVEL * level]
  }

  /** The platforms one layer adds, in order: one per third, then the stepping stone if any. */
  function Layer(level: int, ds: seq<PlatDraw>): (r: seq<Rect>)
    requires |ds| == PLATFORMS_PER_LEVEL
  {
    [SectionPlatform(level, ds[0]), SectionPlatform(level, ds[1]), SectionPlatform(level, ds[2])] + Extra(level)
  }

  /** Layers 1 to n, bottom up. */
  function Layers(n: nat, ds: seq<PlatDraw>): seq<Rect>
    requires PLATFORMS_PER_LEVEL * n <= |ds|
  {
    if n == 0 then [] else Layers(n - 1, ds) + Layer(n, LayerDraws(n, ds))
  }

  /** What generate_parkour_platforms lays: the ground, the 30 layers, the two walls. */
  function Parkour(ds: seq<PlatDraw>): seq<Rect>
    requires |ds| == PLATFORMS_PER_LEVEL * TOTAL_LEVELS
  {
    [GROUND] + Layers(TOTAL_LEVELS, ds) + [LEFT_WALL, RIGHT_WALL]
  }

  /** The whole level generate_level builds: the parkour platforms, then the star's platform. */
  function Level(ds: seq<PlatDraw>): seq<Rect>
    requires |ds| == PLATFORMS_PER_LEVEL * TOTAL_LEVELS
  {
    Parkour(ds) + [STAR_PLATFORM]
  }

  /** Layers 1 to n hold three platforms each plus one stepping stone per third layer. */
  lemma {:induction false} LayersCount(n: nat, ds: seq<PlatDraw>)
    requires PLATFORMS_PER_LEVEL * n <= |ds|
    ensures |Layers(n, ds)| == PLATFORMS_PER_LEVEL * n + n / 3
  {
    if n > 0 {
      LayersCount(n - 1, ds);
      assert n / 3 == (n - 1) / 3 + (if n % 3 == 0 then 1 else 0);
    }
  }

  /** A generated level always has 104 platforms: 1 ground, 90 layer platforms, 10 stepping stones, 2 walls, the star's. */
  lemma LevelCount(ds: seq<PlatDraw>)
    requires |ds| == PLATFORMS_PER_LEVEL * TOTAL_LEVELS
    ensures |Level(ds)| == 104
  {
    LayersCount(TOTAL_LEVELS, ds);
  }

  /**
   * Every layer platform is 25 px thick, 120 to 200 px wide, within 15 px
   * of its layer's base height and inside its own third of the level; the
   * move back inside the level never happens with these draws.
   */
  lemma SectionShape(level: int, section: int, d: PlatDraw)
    requires 0 <= section < PLATFORMS_PER_LEVEL && DrawFits(section, d)
    ensures SectionPlatform(level, d).x == d.x
    ensures SectionPlatform(level, d).h == 25
    ensures PLATFORM_MIN_WIDTH <= SectionPlatform(level, d).w <= PLATFORM_MAX_WIDTH
    ensures BaseY(level) - 15 <= SectionPlatform(level, d).y <= BaseY(level) + 15
    ensures section * SECTION_WIDTH < SectionPlatform(level, d).x
    ensures SectionPlatform(level, d).Right() < (section + 1) * SECTION_WIDTH
  {
  }

  /** The k-th draw lies in layer k / 3 + 1, in third k % 3. */
  lemma LayerDrawsFit(level: int, ds: seq<PlatDraw>, j: int)
    requires DrawsFit(ds) && 1 <= level <= TOTAL_LEVELS && 0 <= j < PLATFORMS_PER_LEVEL
    ensures DrawFits(j, LayerDraws(level, ds)[j])
  {
    var k := PLATFORMS_PER_LEVEL * (level - 1) + j;
    assert LayerDraws(level, ds)[j] == ds[k];
    assert k % PLATFORMS_PER_LEVEL == j;
  }

  /**
   * Layers never overlap: every platform of a higher layer, stepping
   * stones included, lies wholly above every platform of a lower one.
   */
  lemma {:induction false} LayersStack(lo: int, hi: int, ds: seq<PlatDraw>, p: Rect, q: Rect)
    requires DrawsFit(ds) && 1 <= lo < hi <= TOTAL_LEVELS
    requires p in Layer(lo, LayerDraws(lo, ds)) && q in Layer(hi, LayerDraws(hi, ds))
    ensures q.Bottom() < p.y
  {
    var dl := LayerDraws(lo, ds);
    var dh := LayerDraws(hi, ds);
    forall j | 0 <= j < PLATFORMS_PER_LEVEL
      ensures BaseY(lo) - 15 <= SectionPlatform(lo, dl[j]).y
      ensures SectionPlatform(hi, dh[j]).y <= BaseY(hi) + 15
    {
      LayerDrawsFit(lo, ds, j);
      LayerDrawsFit(hi, ds, j);
      SectionShape(lo, j, dl[j]);
      SectionShape(hi, j, dh[j]);
    }
    assert BaseY(lo) - 15 - 30 <= p.y;
    assert q.Bottom() <= BaseY(hi) + 15 + 25;
  }

  /** The star sits 2340 px above the screen's top edge, its platform 50 px below it, wider than any layer platform. */
  lemma StarPlacement()
    ensures STAR_X == 1800 && STAR_Y == -2340
    ensures STAR_PLATFORM.y == STAR_Y + 50 && STAR_PLATFORM.w > PLATFORM_MAX_WIDTH
    ensures STAR_PLATFORM.x < STAR_X < STAR_PLATFORM.Right()
  {
  }

  /** The star's 30 x 30 pickup box, centred on it. */
  function StarRect(starX: int, starY: int): (r: Rect)
    ensures r.w == STAR_SIZE && r.h == STAR_SIZE
    ensures r.x + STAR_SIZE / 2 == starX && r.y + STAR_SIZE / 2 == starY
  {
    Rect(starX - STAR_SIZE / 2, starY - STAR_SIZE / 2, STAR_SIZE, STAR_SIZE)
  }

  /** LevelManager: the tower of platforms and the star. */
  class LevelManager {
    var currentLevel: int
    var levelTheme: string
    var platforms: seq<Rect>
    var hazards: seq<Hazards.Hazard>
    const levelWidth: int
    const levelHeight: int
    const totalLevels: int
    var starCollected: bool
    var starX: int
    var starY: int

    /** LevelManager(): level 1, the "parkour" theme, no hazards, and a freshly generated tower. */
    constructor (ds: seq<PlatDraw>)
      requires DrawsFit(ds)
      ensures currentLevel == 1 && levelTheme == "parkour"
      ensures levelWidth == LEVEL_WIDTH && levelHeight == LEVEL_HEIGHT && totalLevels == TOTAL_LEVELS
      ensures platforms == Level(ds) && |platforms| == 104 && hazards == []
      ensures starX == STAR_X && starY == STAR_Y && !starCollected
    {
      currentLevel := 1;
      levelTheme := "parkour";
      platforms := [];
      hazards := [];
      levelWidth := LEVEL_WIDTH;
      levelHeight := LEVEL_HEIGHT;
      totalLevels := TOTAL_LEVELS;
      starCollected := false;
      starX := 0;
      starY := 0;
      new;
      GenerateLevel(ds);
    }

    /** generate_level: the old platforms and hazards go, the tower and the star come. */
    method GenerateLevel(ds: seq<PlatDraw>)
      requires DrawsFit(ds) && levelWidth == LEVEL_WIDTH && levelHeight == LEVEL_HEIGHT
      requires totalLevels == TOTAL_LEVELS
      modifies this`platforms, this`hazards, this`starX, this`starY, this`starCollected
      ensures platforms == Level(ds) && |platforms| == 104 && hazards == []
      ensures starX == STAR_X && starY == STAR_Y && !starCollected
    {
      platforms := [];
      hazards := [];
      GenerateParkourPlatforms(ds);
      PlaceTargetStar();
      LevelCount(ds);
    }

    /** generate_parkour_platforms: appends the ground, layer after layer, then the walls. */
    method GenerateParkourPlatforms(ds: seq<PlatDraw>)
      requires DrawsFit(ds) && levelWidth == LEVEL_WIDTH && levelHeight == LEVEL_HEIGHT
      requires totalLevels == TOTAL_LEVELS
      modifies this`platforms
      ensures platforms == old(platforms) + Parkour(ds)
    {
      platforms := platforms + [Rect(0, SCREEN_HEIGHT - GROUND_THICKNESS, levelWidth, GROUND_THICKNESS)];
      AddLayers(ds);
      platforms := platforms + [Rect(-50, 0, 50, levelHeight)];
      platforms := platforms + [Rect(levelWidth, 0, 50, levelHeight)];
      ghost var tower := Layers(TOTAL_LEVELS, ds);
      assert platforms == old(platforms) + ([GROUND] + tower + [LEFT_WALL, RIGHT_WALL]);
    }

    /** The layer loop of generate_parkour_platforms, `for level in range(1, total_levels + 1)`. */
    method AddLayers(ds: seq<PlatDraw>)
      requires DrawsFit(ds) && levelWidth == LEVEL_WIDTH && totalLevels == TOTAL_LEVELS
      modifies this`platforms
      ensures platforms == old(platforms) + Layers(TOTAL_LEVELS, ds)
    {
      var level := 1;
      while level <= totalLevels
        invariant 1 <= level <= totalLevels + 1
        invariant platforms == old(platforms) + Layers(level - 1, ds)
      {
        AddLayer(level, ds);
        assert Layers(level, ds) == Layers(level - 1, ds) + Layer(level, LayerDraws(level, ds));
        assert platforms == old(platforms) + Layers(level, ds) by {
          assert platforms == (old(platforms) + Layers(level - 1, ds)) + Layer(level, LayerDraws(level, ds));
        }
        level := level + 1;
      }
    }

    /** One pass of the layer loop: a platform in each third, then the stepping stone on every third layer. */
    method AddLayer(level: int, ds: seq<PlatDraw>)
      requires DrawsFit(ds) && 1 <= level <= TOTAL_LEVELS && levelWidth == LEVEL_WIDTH
      modifies this`platforms
      ensures platforms == old(platforms) + Layer(level, LayerDraws(level, ds))
    {
      var baseY := SCREEN_HEIGHT - GROUND_THICKNESS - level * LEVEL_HEIGHT_GAP;
      var sectionWidth := levelWidth / PLATFORMS_PER_LEVEL;
      var section := 0;
      while section < PLATFORMS_PER_LEVEL
        invariant 0 <= section <= PLATFORMS_PER_LEVEL
        invariant platforms == old(platforms) +
          seq(section, j requires 0 <= j < section => SectionPlatform(level, LayerDraws(level, ds)[j]))
      {
        var d := ds[PLATFORMS_PER_LEVEL * (level - 1) + section];
        var platformX := d.x;
        var platformY := baseY + d.dy;
        if platformX + d.w > levelWidth {
          platformX := levelWidth - d.w;
        }
        platforms := platforms + [Rect(platformX, platformY, d.w, 25)];
        section := section + 1;
      }
      if level % 3 == 0 {
        platforms := platforms + [Rect(levelWidth / 2 - 40, baseY - 30, 80, 20)];
      }
    }

    /** place_target_star: the star at the top centre, not yet collected, with its platform appended. */
    method PlaceTargetStar()
      requires levelWidth == LEVEL_WIDTH && totalLevels == TOTAL_LEVELS
      modifies this`platforms, this`starX, this`starY, this`starCollected
      ensures starX == STAR_X && starY == STAR_Y && !starCollected
      ensures platforms == old(platforms) + [STAR_PLATFORM]
    {
      var y := SCREEN_HEIGHT - GROUND_THICKNESS - totalLevels * 100 - 60;
      starX := levelWidth / 2;
      starY := y;
      starCollected := false;
      platforms := platforms + [Rect(starX - 150, y + 50, 300, 40)];
    }

    /**
     * check_star_collision: true exactly when the star was still there and
     * the player's box meets its pickup box; then it is collected, so a
     * second call can never be true again.
     */
    method CheckStarCollision(player: PlayerModule.Player) returns (r: bool)
      modifies this`starCollected
      ensures r <==> !old(starCollected) && Collide(Hazards.PlayerBox(player), StarRect(starX, starY))
      ensures starCollected <==> old(starCollected) || r
    {
      if starCollected {
        return false;
      }
      var starRect := Rect(starX - STAR_SIZE / 2, starY - STAR_SIZE / 2, STAR_SIZE, STAR_SIZE);
      var playerRect := RectOf(player.x, player.y, player.width, player.height);
      if Collide(playerRect, starRect) {
        starCollected := true;
        return true;
      }
      return false;
    }

    /** update: the frame's only event is the star pickup, reported as the star_collected flag. */
    method Update(player: PlayerModule.Player) returns (starCollectedNow: bool)
      modifies this`starCollected
      ensures starCollectedNow <==> !old(starCollected) && Collide(Hazards.PlayerBox(player), StarRect(starX, starY))
      ensures starCollected <==> old(starCollected) || starCollectedNow
    {
      starCollectedNow := CheckStarCollision(player);
    }

    /** check_hazard_collisions: this level has no hazards, so no damage. */
    method CheckHazardCollisions(player: PlayerModule.Player) returns (damage: int)
      ensures damage == 0
    {
      damage := 0;
    }
  }

  /** The star is picked up at most once: after one pickup, every later frame reports nothing. */
  method CollectOnce(m: LevelManager, player: PlayerModule.Player) returns (first: bool, second: bool)
    modifies m`starCollected
    ensures !(first && second)
    ensures first ==> m.starCollected
  {
    first := m.Update(player);
    second := m.Update(player);
  }
}
