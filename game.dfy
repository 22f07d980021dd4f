// The game's own state machine (src/main.py): the camera that follows the
// player within the level's bounds, the pause and restart keys, the score
// a frame earns, level completion and the reset to a new game. The other
// systems' updates are modelled in their own modules; here what a frame's
// melee, monster, wave, boss and bullet collisions came to is a parameter,
// and so are the clock reading, the platforms and the pop-ups' jitter.

module Game {
  import opened GameObjects
  import opened Config
  import PlayerModule
  import DamageDisplay
  import ElementSystem
  import SrcLevelSystem

  datatype GameState = Menu | Playing | Paused | GameOver | Victory

  datatype Key = Escape | KeyR | Space | OtherKey
  datatype Event = Quit | KeyDown(key: Key) | OtherEvent

  const START_X: real := 100.0
  const START_Y: real := (SCREEN_HEIGHT - 200) as real

  /**
   * update_camera on one axis: the view starts half a screen before the
   * player, but never before 0 and never past the level's far edge.
   */
  function CameraClamp(target: real, extent: int, screen: int): (c: real)
    ensures c >= 0.0
    ensures extent >= screen ==> c <= (extent - screen) as real
    ensures 0.0 <= target <= (extent - screen) as real ==> c == target
    ensures c == 0.0 || c == target || c == (extent - screen) as real
  {
    MaxR(0.0, MinR(target, (extent - screen) as real))
  }

  /** The camera never moves above the top of the first screen: a player higher up than that is out of view. */
  lemma CameraStaysAtTop(y: real)
    requires y < (SCREEN_HEIGHT / 2) as real
    ensures CameraClamp(y - (SCREEN_HEIGHT / 2) as real, SrcLevelSystem.LEVEL_HEIGHT, SCREEN_HEIGHT) == 0.0
  {
  }

  /** SPACE: playing and paused swap; any other state stays. */
  function Toggle(s: GameState): (t: GameState)
    ensures s == Playing <==> t == Paused
    ensures s == Paused <==> t == Playing
    ensures s != Playing && s != Paused ==> t == s
  {
    if s == Playing then Paused else if s == Paused then Playing else s
  }

  /** Pausing twice leaves the game as it was. */
  lemma ToggleTwice(s: GameState)
    ensures Toggle(Toggle(s)) == s
  {
  }

  /** R restarts only a finished game. */
  predicate Finished(s: GameState)
  {
    s == GameOver || s == Victory
  }

  /** The state after one event of handle_events. */
  function NextState(s: GameState, e: Event): GameState
  {
    match e
    case KeyDown(KeyR) => if Finished(s) then Playing else s
    case KeyDown(Space) => Toggle(s)
    case _ => s
  }

  predicate Stops(e: Event)
  {
    e == Quit || e == KeyDown(Escape)
  }

  /** The state after a frame's events, in order. */
  function StateAfter(s: GameState, es: seq<Event>): GameState
  {
    if es == [] then s else NextState(StateAfter(s, es[..|es| - 1]), es[|es| - 1])
  }

  /** No sequence of events ends a game or starts the menu: only R can leave a finished game, and it resumes play. */
  lemma {:induction false} EventsKeepState(s: GameState, es: seq<Event>)
    requires s != Menu
    ensures StateAfter(s, es) != Menu
    ensures Finished(StateAfter(s, es)) ==> StateAfter(s, es) == s
  {
    if es != [] {
      EventsKeepState(s, es[..|es| - 1]);
    }
  }

  /** One bullet collision as update sees it: who was hit, where, for how much, and any status effect's type. */
  datatype Collision = Collision(isBoss: bool, x: real, y: real, width: int, damage: int,
                                 bulletType: string, targetType: string, effect: Option<string>)

  /** The random offsets of the damage number and of the status text a collision shows. */
  datatype Jitter = Jitter(dx: real, dy: real, ex: real, ey: real)

  predicate JitterFits(j: Jitter)
  {
    -10.0 <= j.dx <= 10.0 && -5.0 <= j.dy <= 5.0 && -10.0 <= j.ex <= 10.0 && -5.0 <= j.ey <= 5.0
  }

  /** 50 points for a hit on a boss, 10 for any other. */
  function HitScore(c: Collision): (p: int)
    ensures p == 10 || p == 50
    ensures p == 50 <==> c.isBoss
  {
    if c.isBoss then 50 else 10
  }

  function CollisionScore(cs: seq<Collision>): int
  {
    if cs == [] then 0 else CollisionScore(cs[..|cs| - 1]) + HitScore(cs[|cs| - 1])
  }

  function EffectCount(cs: seq<Collision>): (n: int)
    ensures 0 <= n <= |cs|
  {
    if cs == [] then 0 else EffectCount(cs[..|cs| - 1]) + (if cs[|cs| - 1].effect.Some? then 1 else 0)
  }

  /** Every hit scores between 10 and 50 points; hits on bosses only score the most. */
  lemma {:induction false} CollisionScoreBounds(cs: seq<Collision>)
    ensures 10 * |cs| <= CollisionScore(cs) <= 50 * |cs|
    ensures (forall i :: 0 <= i < |cs| ==> !cs[i].isBoss) ==> CollisionScore(cs) == 10 * |cs|
  {
    if cs != [] {
      CollisionScoreBounds(cs[..|cs| - 1]);
    }
  }

  /** The name a status text shows for an effect type. */
  function EffectName(t: string): string
  {
    if t == "slow" then "減速" else if t == "paralysis" then "麻痺" else "狀態效果"
  }

  /**
   * The damage number of a hit: stamped now, worded by the
   * element table when both the bullet and the target name an element,
   * otherwise the plain damage.
   */
  ghost predicate ShowsHit(n: DamageDisplay.DamageNumber, c: Collision, now: real)
  {
    n.creationTime == now &&
    if c.bulletType != "" && c.targetType != "" then
      var p := ElementSystem.DamagePopupInfo(c.damage, c.bulletType, c.targetType);
      n.damage == DamageDisplay.Number(p.damage) && n.damageType == p.description
    else
      n.damage == DamageDisplay.Number(c.damage) && n.damageType == DamageDisplay.PLAIN
  }

  /** The status text of a hit that carries an effect: no number, the effect's name, stamped now. */
  ghost predicate ShowsEffect(n: DamageDisplay.DamageNumber, c: Collision, now: real)
  {
    c.effect.Some? && n.damage == DamageDisplay.Blank && n.damageType == EffectName(c.effect.value) &&
    n.creationTime == now
  }

  /** How many pop-ups one hit shows: its damage number, and its status text when it has an effect. */
  function Width(c: Collision): (w: int)
    ensures w == 1 || w == 2
    ensures w == 2 <==> c.effect.Some?
  {
    if c.effect.Some? then 2 else 1
  }

  /** Where the pop-ups of hit `i` start among the pop-ups of the hits `cs`. */
  function Slot(cs: seq<Collision>, i: int): int
    requires 0 <= i <= |cs|
  {
    i + EffectCount(cs[..i])
  }

  /** Each hit's pop-ups follow directly after the previous hit's. */
  lemma SlotNext(cs: seq<Collision>, i: int)
    requires 0 <= i < |cs|
    ensures Slot(cs, i + 1) == Slot(cs, i) + Width(cs[i])
  {
    assert cs[..i + 1][..i] == cs[..i];
  }

  /** All the pop-ups of the frame's hits: one per hit plus one per effect. */
  lemma SlotEnd(cs: seq<Collision>)
    ensures Slot(cs, |cs|) == |cs| + EffectCount(cs)
  {
    assert cs[..|cs|] == cs;
  }

  /** The pop-ups `ns` show the first `i` hits, each at its slot: its damage number, then its status text. */
  ghost predicate ShownUpTo(ns: seq<DamageDisplay.DamageNumber>, cs: seq<Collision>, i: int, now: real)
    requires 0 <= i <= |cs|
  {
    forall j | 0 <= j < i ::
      Slot(cs, j) + Width(cs[j]) <= |ns| && ShowsHit(ns[Slot(cs, j)], cs[j], now) &&
      (cs[j].effect.Some? ==> ShowsEffect(ns[Slot(cs, j) + 1], cs[j], now))
  }

  /** The pop-ups `ns` are exactly those of the hits `cs`, in order. */
  ghost predicate PopupsShow(ns: seq<DamageDisplay.DamageNumber>, cs: seq<Collision>, now: real)
  {
    |ns| == Slot(cs, |cs|) && ShownUpTo(ns, cs, |cs|, now)
  }

  /** Appending twice is appending the two together. */
  lemma AppendTwice(a: seq<DamageDisplay.DamageNumber>, b: seq<DamageDisplay.DamageNumber>,
                    c: seq<DamageDisplay.DamageNumber>)
    ensures a + (b + c) == (a + b) + c
  {
  }

  /** Appending pop-ups keeps those of the earlier hits where they were. */
  lemma PopupsKept(ns: seq<DamageDisplay.DamageNumber>, news: seq<DamageDisplay.DamageNumber>, cs: seq<Collision>,
                   i: int, j: int, now: real)
    requires 0 <= j < i <= |cs| && ShownUpTo(ns, cs, i, now)
    ensures Slot(cs, j) + Width(cs[j]) <= |ns + news| && ShowsHit((ns + news)[Slot(cs, j)], cs[j], now)
    ensures cs[j].effect.Some? ==> ShowsEffect((ns + news)[Slot(cs, j) + 1], cs[j], now)
  {
    assert (ns + news)[Slot(cs, j)] == ns[Slot(cs, j)];
    if cs[j].effect.Some? {
      assert (ns + news)[Slot(cs, j) + 1] == ns[Slot(cs, j) + 1];
    }
  }

  /** One more hit appends its damage number and, when it has an effect, its status text. */
  lemma PopupsExtend(ns: seq<DamageDisplay.DamageNumber>, news: seq<DamageDisplay.DamageNumber>, cs: seq<Collision>,
                     i: int, now: real)
    requires 0 <= i < |cs| && |ns| == Slot(cs, i) && ShownUpTo(ns, cs, i, now)
    requires |news| == Width(cs[i]) && ShowsHit(news[0], cs[i], now)
    requires cs[i].effect.Some? ==> ShowsEffect(news[1], cs[i], now)
    ensures |ns + news| == Slot(cs, i + 1) && ShownUpTo(ns + news, cs, i + 1, now)
  {
    SlotNext(cs, i);
    forall j | 0 <= j < i + 1
      ensures Slot(cs, j) + Width(cs[j]) <= |ns + news| && ShowsHit((ns + news)[Slot(cs, j)], cs[j], now) &&
              (cs[j].effect.Some? ==> ShowsEffect((ns + news)[Slot(cs, j) + 1], cs[j], now))
    {
      if j < i {
        PopupsKept(ns, news, cs, i, j, now);
      } else {
        assert (ns + news)[Slot(cs, i)] == news[0];
        if cs[i].effect.Some? {
          assert (ns + news)[Slot(cs, i) + 1] == news[1];
        }
      }
    }
  }

  /** What the other systems reported this frame. */
  datatype FrameResults = FrameResults(hazardDamage: int, meleeHits: nat, meleeBossHit: bool, monstersKilled: int,
                                       waveAdvanced: bool, bossDefeated: bool)

  /** The score of the monster, wave and boss reports of a frame, without the completion bonus. */
  function ReportScore(r: FrameResults): (p: int)
    ensures p >= 0
  {
    (if r.monstersKilled > 0 then r.monstersKilled * 50 else 0) + (if r.waveAdvanced then 200 else 0) +
    (if r.bossDefeated then 1000 else 0)
  }

  /** The player's state as the game's bookkeeping sees it. */
  datatype Standing = Standing(x: real, y: real, vx: real, vy: real, health: int)

  /**
   * complete_level for the player: on a level before the last, back at the
   * start, still, with 50 health more up to the maximum; on the last
   * level, untouched.
   */
  function NextLevelStanding(s: Standing, maxHealth: int): (r: Standing)
    requires s.health <= maxHealth
    ensures r.x == START_X && r.y == START_Y && r.vx == 0.0 && r.vy == 0.0
    ensures s.health <= r.health <= maxHealth
    ensures r.health == maxHealth || r.health == s.health + 50
  {
    Standing(START_X, START_Y, 0.0, 0.0, if maxHealth <= s.health + 50 then maxHealth else s.health + 50)
  }

  class ElementalParkourShooter {
    var gameState: GameState
    var running: bool
    var currentLevel: int
    const maxLevel: int
    var levelCompleted: bool
    var wavesCompletedInLevel: int
    const wavesNeededPerLevel: int
    var score: int
    var player: PlayerModule.Player
    var damageDisplay: DamageDisplay.DamageDisplayManager
    const levelWidth: int
    const levelHeight: int
    var cameraX: real
    var cameraY: real
    var lastUpdateTime: real

    ghost predicate Valid()
      reads this, player, damageDisplay, damageDisplay.damageNumbers
    {
      maxLevel == 3 && wavesNeededPerLevel == 9 && 1 <= currentLevel <= maxLevel &&
      levelWidth == SrcLevelSystem.LEVEL_WIDTH && levelHeight == SrcLevelSystem.LEVEL_HEIGHT &&
      player.Valid() && 0 <= player.health <= player.maxHealth && damageDisplay.Valid()
    }

    function PlayerStanding(): Standing
      reads this, player
    {
      Standing(player.x, player.y, player.vx, player.vy, player.health)
    }

    /** A new game: playing level 1 with no score, the player at the start, the camera at the origin. */
    constructor (now: real)
      ensures Valid() && fresh(player) && fresh(damageDisplay)
      ensures gameState == Playing && running && currentLevel == 1 && wavesCompletedInLevel == 0 && score == 0
      ensures player.x == START_X && player.y == START_Y && damageDisplay.damageNumbers == []
      ensures cameraX == 0.0 && cameraY == 0.0 && lastUpdateTime == now
    {
      gameState := Playing;
      running := true;
      currentLevel := 1;
      maxLevel := 3;
      levelCompleted := false;
      wavesCompletedInLevel := 0;
      wavesNeededPerLevel := 9;
      score := 0;
      player := new PlayerModule.Player(100.0, (SCREEN_HEIGHT - 200) as real);
      damageDisplay := new DamageDisplay.DamageDisplayManager();
      levelWidth := SrcLevelSystem.LEVEL_WIDTH;
      levelHeight := SrcLevelSystem.LEVEL_HEIGHT;
      cameraX := 0.0;
      cameraY := 0.0;
      lastUpdateTime := now;
    }

    /** update_camera: each axis clamped to the level. */
    method UpdateCamera()
      modifies this`cameraX, this`cameraY
      ensures cameraX == CameraClamp(player.x - (SCREEN_WIDTH / 2) as real, levelWidth, SCREEN_WIDTH)
      ensures cameraY == CameraClamp(player.y - (SCREEN_HEIGHT / 2) as real, levelHeight, SCREEN_HEIGHT)
    {
      var targetX := player.x - (SCREEN_WIDTH / 2) as real;
      var targetY := player.y - (SCREEN_HEIGHT / 2) as real;
      cameraX := MaxR(0.0, MinR(targetX, (levelWidth - SCREEN_WIDTH) as real));
      cameraY := MaxR(0.0, MinR(targetY, (levelHeight - SCREEN_HEIGHT) as real));
    }

    /** reset_game: playing level 1 again with no score, a new player and no pop-ups. */
    method ResetGame()
      requires Valid()
      modifies this`gameState, this`currentLevel, this`wavesCompletedInLevel, this`score
      modifies this`player, this`damageDisplay, this`cameraX, this`cameraY
      ensures Valid() && fresh(player) && fresh(damageDisplay)
      ensures gameState == Playing && currentLevel == 1 && wavesCompletedInLevel == 0 && score == 0
      ensures player.x == START_X && player.y == START_Y && player.health == PLAYER_MAX_HEALTH && player.isAlive
      ensures player.JustMade()
      ensures damageDisplay.damageNumbers == [] && cameraX == 0.0 && cameraY == 0.0
    {
      gameState := Playing;
      currentLevel := 1;
      wavesCompletedInLevel := 0;
      score := 0;
      player := new PlayerModule.Player(100.0, (SCREEN_HEIGHT - 200) as real);
      damageDisplay := new DamageDisplay.DamageDisplayManager();
      cameraX := 0.0;
      cameraY := 0.0;
    }

    /**
     * One event of handle_events: closing the window or ESC stops the game,
     * R restarts a finished game, SPACE pauses or resumes.
     */
    method HandleEvent(e: Event)
      requires Valid()
      modifies this`running, this`gameState, this`currentLevel, this`wavesCompletedInLevel, this`score
      modifies this`player, this`damageDisplay, this`cameraX, this`cameraY
      ensures Valid()
      ensures gameState == NextState(old(gameState), e)
      ensures running == (old(running) && !Stops(e))
      ensures !(e == KeyDown(KeyR) && Finished(old(gameState))) ==>
        score == old(score) && currentLevel == old(currentLevel) && player == old(player) &&
        damageDisplay == old(damageDisplay) && wavesCompletedInLevel == old(wavesCompletedInLevel)
      ensures e == KeyDown(KeyR) && Finished(old(gameState)) ==>
        score == 0 && currentLevel == 1 && wavesCompletedInLevel == 0 && fresh(player) && player.x == START_X &&
        player.JustMade()
    {
      if e == Quit {
        running := false;
      } else if e.KeyDown? {
        if e.key == Escape {
          running := false;
        } else if e.key == KeyR {
          if gameState == GameOver || gameState == Victory {
            ResetGame();
          }
        } else if e.key == Space {
          if gameState == Playing {
            gameState := Paused;
          } else if gameState == Paused {
            gameState := Playing;
          }
        }
      }
    }

    /**
     * handle_events: the frame's events in order, then, while playing with
     * a living player, the held keys and buttons go to the player.
     */
    method HandleEvents(es: seq<Event>, inp: PlayerModule.InputFrame, now: real, mouseX: real, mouseY: real,
                        sqrt: real -> real)
      requires Valid() && IsRoot(sqrt)
      modifies this`running, this`gameState, this`currentLevel, this`wavesCompletedInLevel, this`score
      modifies this`player, this`damageDisplay, this`cameraX, this`cameraY, player
      ensures Valid()
      ensures gameState == StateAfter(old(gameState), es)
      ensures running == (old(running) && forall i :: 0 <= i < |es| ==> !Stops(es[i]))
      ensures gameState == Playing && player.isAlive ==>
        player.keysPressed == PlayerModule.Keys(inp.left, inp.right, inp.jump, inp.leftButton, inp.rightButton)
      ensures gameState == Playing && player.isAlive && player == old(player) ==>
        player.JumpFields() ==
          if inp.jump && !old(player.keysPressed.jump) then PlayerModule.Jumped(old(player.JumpFields()), player.wallDirection)
          else old(player.JumpFields())
      ensures gameState == Playing && player.isAlive && player != old(player) ==>
        player.JumpFields() == if inp.jump then PlayerModule.Jumped(PlayerModule.START_JUMP, 0) else PlayerModule.START_JUMP
    {
      ApplyEvents(es);
      if gameState == Playing && player.isAlive {
        ForwardInput(inp, now, mouseX, mouseY, sqrt);
      }
    }

    /** The event loop of handle_events. */
    method ApplyEvents(es: seq<Event>)
      requires Valid()
      modifies this`running, this`gameState, this`currentLevel, this`wavesCompletedInLevel, this`score
      modifies this`player, this`damageDisplay, this`cameraX, this`cameraY
      ensures Valid()
      ensures gameState == StateAfter(old(gameState), es)
      ensures running == (old(running) && forall i :: 0 <= i < |es| ==> !Stops(es[i]))
      ensures player == old(player) || (fresh(player) && player.JustMade())
    {
      var i := 0;
      while i < |es|
        invariant 0 <= i <= |es| && Valid()
        invariant gameState == StateAfter(old(gameState), es[..i])
        invariant running == (old(running) && forall j :: 0 <= j < i ==> !Stops(es[j]))
        invariant player == old(player) || (fresh(player) && player.JustMade())
      {
        HandleEvent(es[i]);
        assert es[..i + 1][..i] == es[..i];
        i := i + 1;
      }
      assert es[..i] == es;
    }

    /** The held keys and buttons of the frame go to the living player, aiming at the mouse. */
    method ForwardInput(inp: PlayerModule.InputFrame, now: real, mouseX: real, mouseY: real, sqrt: real -> real)
      requires Valid() && IsRoot(sqrt)
      modifies player
      ensures Valid()
      ensures player.keysPressed == PlayerModule.Keys(inp.left, inp.right, inp.jump, inp.leftButton, inp.rightButton)
      ensures player.JumpFields() ==
        if inp.jump && !old(player.keysPressed.jump) then PlayerModule.Jumped(old(player.JumpFields()), player.wallDirection)
        else old(player.JumpFields())
      ensures !(inp.leftButton && !old(player.keysPressed.shoot)) ==> player.lastShotTime == old(player.lastShotTime)
      ensures inp.leftButton && !old(player.keysPressed.shoot) && now - old(player.lastShotTime) >= FIRE_RATE ==>
        player.lastShotTime == now
      ensures !(inp.rightButton && !old(player.keysPressed.melee)) ==> player.lastMeleeTime == old(player.lastMeleeTime)
      ensures inp.rightButton && !old(player.keysPressed.melee) && now - old(player.lastMeleeTime) >= PlayerModule.MELEE_COOLDOWN ==>
        player.lastMeleeTime == now
    {
      var cx := player.x + (player.width / 2) as real;
      var cy := player.y + (player.height / 2) as real;
      var dist := sqrt(DistSq(cx, cy, mouseX, mouseY));
      player.HandleInput(inp, now, mouseX, mouseY, dist);
    }

    /**
     * complete_level: 2000 points; on the last level the game is won and
     * the level stays; otherwise the next level starts with no waves done
     * and the player back at the start, still, healed by 50 up to the maximum.
     */
    method CompleteLevel()
      requires Valid()
      modifies this`score, this`gameState, this`currentLevel, this`wavesCompletedInLevel
      modifies player`x, player`y, player`vx, player`vy, player`health
      ensures Valid()
      ensures score == old(score) + 2000
      ensures old(currentLevel) >= maxLevel ==>
        gameState == Victory && currentLevel == old(currentLevel) &&
        wavesCompletedInLevel == old(wavesCompletedInLevel) && PlayerStanding() == old(PlayerStanding())
      ensures old(currentLevel) < maxLevel ==>
        gameState == old(gameState) && currentLevel == old(currentLevel) + 1 && wavesCompletedInLevel == 0 &&
        PlayerStanding() == NextLevelStanding(old(PlayerStanding()), player.maxHealth)
    {
      score := score + 2000;
      if currentLevel >= maxLevel {
        gameState := Victory;
      } else {
        currentLevel := currentLevel + 1;
        wavesCompletedInLevel := 0;
        ReturnPlayer();
      }
    }

    /** The player's part of complete_level: back to the start, still, healed by 50 up to the maximum. */
    method ReturnPlayer()
      requires 0 <= player.health <= player.maxHealth
      modifies player`x, player`y, player`vx, player`vy, player`health
      ensures 0 <= player.health <= player.maxHealth
      ensures PlayerStanding() == NextLevelStanding(old(PlayerStanding()), player.maxHealth)
    {
      player.x := 100.0;
      player.y := (SCREEN_HEIGHT - 200) as real;
      player.vx := 0.0;
      player.vy := 0.0;
      player.health := if player.maxHealth <= player.health + 50 then player.maxHealth else player.health + 50;
    }

    /**
     * The collision loop of update: 50 points for a boss hit, 10 for any
     * other, one damage number per hit and one status text per effect.
     */
    method ScoreCollisions(cs: seq<Collision>, js: seq<Jitter>, now: real)
      returns (ghost popups: seq<DamageDisplay.DamageNumber>)
      requires Valid() && |js| == |cs| && forall i :: 0 <= i < |js| ==> JitterFits(js[i])
      modifies this`score, damageDisplay`damageNumbers
      ensures Valid()
      ensures score == old(score) + CollisionScore(cs)
      ensures damageDisplay.damageNumbers == old(damageDisplay.damageNumbers) + popups
      ensures forall n | n in popups :: fresh(n)
      ensures |popups| == |cs| + EffectCount(cs) && PopupsShow(popups, cs, now)
      ensures forall k | |old(damageDisplay.damageNumbers)| <= k < |damageDisplay.damageNumbers| ::
        fresh(damageDisplay.damageNumbers[k])
    {
      popups := [];
      var i := 0;
      while i < |cs|
        invariant 0 <= i <= |cs| && Valid()
        invariant score == old(score) + CollisionScore(cs[..i])
        invariant damageDisplay.damageNumbers == old(damageDisplay.damageNumbers) + popups
        invariant forall n | n in popups :: fresh(n)
        invariant |popups| == Slot(cs, i) && ShownUpTo(popups, cs, i, now)
      {
        popups := ScoreNext(cs, i, js[i], now, old(damageDisplay.damageNumbers), popups);
        i := i + 1;
      }
      assert cs[..i] == cs;
      SlotEnd(cs);
      forall k | |old(damageDisplay.damageNumbers)| <= k < |damageDisplay.damageNumbers|
        ensures fresh(damageDisplay.damageNumbers[k])
      {
        var m := k - |old(damageDisplay.damageNumbers)|;
        assert damageDisplay.damageNumbers[k] == popups[m] && popups[m] in popups;
      }
    }

    /**
     * A step of the loop above: hit `i` scores, and its pop-ups extend
     * those of the earlier hits, `mine`, which follow the numbers `before`.
     */
    method ScoreNext(cs: seq<Collision>, i: int, j: Jitter, now: real,
                     ghost before: seq<DamageDisplay.DamageNumber>, ghost mine: seq<DamageDisplay.DamageNumber>)
      returns (ghost mine': seq<DamageDisplay.DamageNumber>)
      requires Valid() && JitterFits(j) && 0 <= i < |cs| && |mine| == Slot(cs, i) && ShownUpTo(mine, cs, i, now)
      requires damageDisplay.damageNumbers == before + mine
      modifies this`score, damageDisplay`damageNumbers
      ensures Valid() && score == old(score) + HitScore(cs[i])
      ensures CollisionScore(cs[..i + 1]) == CollisionScore(cs[..i]) + HitScore(cs[i])
      ensures damageDisplay.damageNumbers == before + mine'
      ensures forall n | n in mine' :: n in mine || fresh(n)
      ensures |mine'| == Slot(cs, i + 1) && ShownUpTo(mine', cs, i + 1, now)
    {
      ghost var news := ScoreOne(cs[i], j, now);
      PopupsExtend(mine, news, cs, i, now);
      mine' := mine + news;
      AppendTwice(before, mine, news);
      assert cs[..i + 1][..i] == cs[..i];
    }

    /**
     * One collision of the loop above: its points, then its pop-ups `news`,
     * its damage number and, for an effect, its status text, appended in that order.
     */
    method ScoreOne(c: Collision, j: Jitter, now: real) returns (ghost news: seq<DamageDisplay.DamageNumber>)
      requires Valid() && JitterFits(j)
      modifies this`score, damageDisplay`damageNumbers
      ensures Valid()
      ensures score == old(score) + HitScore(c)
      ensures damageDisplay.damageNumbers == old(damageDisplay.damageNumbers) + news
      ensures forall n | n in news :: fresh(n)
      ensures |news| == Width(c) && ShowsHit(news[0], c, now)
      ensures c.effect.Some? ==> ShowsEffect(news[1], c, now)
    {
      score := score + (if c.isBoss then 50 else 10);
      var x := c.x + (c.width / 2) as real;
      var n := damageDisplay.AddDamageNumber(x, c.y, c.damage, Some(c.bulletType), Some(c.targetType),
                                             j.dx, j.dy, now);
      news := [n];
      if c.effect.Some? {
        var t := damageDisplay.AddStatusEffectText(x, c.y - 20.0, EffectName(c.effect.value),
                                                   j.ex, j.ey, now);
        news := news + [t];
      }
    }

    /** The player's own update, which keeps its health within bounds. */
    static method MovePlayer(p: PlayerModule.Player, platforms: seq<Rect>, now: real)
      requires p.Valid() && 0 <= p.health <= p.maxHealth
      modifies p
      ensures p.Valid() && 0 <= p.health <= p.maxHealth
      ensures p.keysPressed == old(p.keysPressed) && p.lastShotTime == old(p.lastShotTime) &&
              p.lastMeleeTime == old(p.lastMeleeTime)
    {
      p.Update(platforms, now);
    }

    /**
     * The player's own steps in update: move, take the hazards' damage,
     * fire while the shoot key is held and swing while the melee key is.
     */
    static method ActPlayer(p: PlayerModule.Player, platforms: seq<Rect>, now: real, hazardDamage: int,
                            mouseX: real, mouseY: real, sqrt: real -> real)
      returns (shot: Option<PlayerModule.ShotInfo>, swing: Option<PlayerModule.MeleeInfo>)
      requires p.Valid() && 0 <= p.health <= p.maxHealth && IsRoot(sqrt)
      modifies p
      ensures p.Valid() && 0 <= p.health <= p.maxHealth
      ensures shot.Some? <==> old(p.keysPressed.shoot) && now - old(p.lastShotTime) >= FIRE_RATE
      ensures p.lastShotTime == if shot.Some? then now else old(p.lastShotTime)
      ensures swing.Some? <==> old(p.keysPressed.melee) && now - old(p.lastMeleeTime) >= PlayerModule.MELEE_COOLDOWN
      ensures p.lastMeleeTime == if swing.Some? then now else old(p.lastMeleeTime)
      ensures swing.Some? ==> swing.value.damage == MELEE_DAMAGE && swing.value.direction == p.facingDirection
    {
      MovePlayer(p, platforms, now);
      if hazardDamage > 0 {
        var _ := p.TakeDamage(hazardDamage);
      }
      shot, swing := None, None;
      if p.keysPressed.shoot {
        var cx := p.x + (p.width / 2) as real;
        var cy := p.y + (p.height / 2) as real;
        shot := p.Shoot(now, mouseX, mouseY, sqrt(DistSq(cx, cy, mouseX, mouseY)));
      }
      if p.keysPressed.melee {
        swing := p.MeleeAttack(now);
      }
    }

    /**
     * The player's part of update: it moves among the platforms and takes
     * the hazards' damage; a held shoot key fires and a held melee key
     * swings, each at most once per cooldown; a swing scores 20 per monster
     * hit and 100 for the boss; a player who dies in the frame ends the
     * game. The shot and the swing are handed back for the weapon manager.
     */
    method PlayerPhase(platforms: seq<Rect>, now: real, r: FrameResults, mouseX: real, mouseY: real,
                       sqrt: real -> real) returns (shot: Option<PlayerModule.ShotInfo>, swing: Option<PlayerModule.MeleeInfo>)
      requires Valid() && player.isAlive && IsRoot(sqrt)
      modifies this`score, this`gameState, player
      ensures Valid()
      ensures shot.Some? <==> old(player.keysPressed.shoot) && now - old(player.lastShotTime) >= FIRE_RATE
      ensures player.lastShotTime == if shot.Some? then now else old(player.lastShotTime)
      ensures swing.Some? <==> old(player.keysPressed.melee) && now - old(player.lastMeleeTime) >= PlayerModule.MELEE_COOLDOWN
      ensures player.lastMeleeTime == if swing.Some? then now else old(player.lastMeleeTime)
      ensures swing.Some? ==> swing.value.damage == MELEE_DAMAGE && swing.value.direction == player.facingDirection
      ensures score == old(score) + if swing.Some? then r.meleeHits * 20 + (if r.meleeBossHit then 100 else 0) else 0
      ensures gameState == if player.isAlive then old(gameState) else GameOver
    {
      shot, swing := ActPlayer(player, platforms, now, r.hazardDamage, mouseX, mouseY, sqrt);
      if swing.Some? {
        score := score + r.meleeHits * 20;
        if r.meleeBossHit {
          score := score + 100;
        }
      }
      if !player.isAlive {
        gameState := GameOver;
      }
    }

    /**
     * The monster and boss part of update: 50 points per kill, 200 per
     * wave; the ninth wave of a level completes it; 1000 per boss.
     */
    method ProgressPhase(r: FrameResults)
      requires Valid()
      modifies this`score, this`gameState, this`currentLevel, this`wavesCompletedInLevel
      modifies player`x, player`y, player`vx, player`vy, player`health
      ensures Valid()
      ensures var completes := r.waveAdvanced && old(wavesCompletedInLevel) + 1 >= wavesNeededPerLevel;
        score == old(score) + ReportScore(r) + (if completes then 2000 else 0) &&
        (completes && old(currentLevel) >= maxLevel ==> gameState == Victory) &&
        (completes && old(currentLevel) < maxLevel ==> currentLevel == old(currentLevel) + 1 && wavesCompletedInLevel == 0) &&
        (!completes ==>
          gameState == old(gameState) && currentLevel == old(currentLevel) &&
          wavesCompletedInLevel == old(wavesCompletedInLevel) + (if r.waveAdvanced then 1 else 0))
      ensures var completes := r.waveAdvanced && old(wavesCompletedInLevel) + 1 >= wavesNeededPerLevel;
        (completes && old(currentLevel) < maxLevel ==>
          gameState == old(gameState) && PlayerStanding() == NextLevelStanding(old(PlayerStanding()), player.maxHealth)) &&
        (!(completes && old(currentLevel) < maxLevel) ==> PlayerStanding() == old(PlayerStanding()))
    {
      if r.monstersKilled > 0 {
        score := score + r.monstersKilled * 50;
      }
      if r.waveAdvanced {
        score := score + 200;
        wavesCompletedInLevel := wavesCompletedInLevel + 1;
        if wavesCompletedInLevel >= wavesNeededPerLevel {
          CompleteLevel();
        }
      }
      if r.bossDefeated {
        score := score + 1000;
      }
    }

    /**
     * update: nothing at all unless playing; then the player's part (for a
     * living player), the camera, the monster and boss reports, the bullet
     * collisions and the pop-ups, in that order.
     */
    method Update(now: real, platforms: seq<Rect>, r: FrameResults, cs: seq<Collision>, js: seq<Jitter>,
                  mouseX: real, mouseY: real, sqrt: real -> real)
      requires Valid() && |js| == |cs| && (forall i :: 0 <= i < |js| ==> JitterFits(js[i])) && IsRoot(sqrt)
      modifies this`score, this`gameState, this`currentLevel, this`wavesCompletedInLevel, this`lastUpdateTime
      modifies this`cameraX, this`cameraY, player, damageDisplay`damageNumbers, damageDisplay.damageNumbers
      ensures Valid()
      ensures old(gameState) != Playing ==>
        unchanged(this) && unchanged(player) && unchanged(damageDisplay) && unchanged(damageDisplay.damageNumbers)
      ensures old(gameState) == Playing ==> score >= old(score) + ReportScore(r) + CollisionScore(cs)
      ensures old(gameState) == Playing ==> lastUpdateTime == now
      ensures var completes := r.waveAdvanced && old(wavesCompletedInLevel) + 1 >= wavesNeededPerLevel;
        old(gameState) == Playing ==>
          (completes && old(currentLevel) >= maxLevel ==> gameState == Victory) &&
          (completes && old(currentLevel) < maxLevel ==> currentLevel == old(currentLevel) + 1 && wavesCompletedInLevel == 0) &&
          (!completes ==>
            currentLevel == old(currentLevel) &&
            wavesCompletedInLevel == old(wavesCompletedInLevel) + (if r.waveAdvanced then 1 else 0))
      ensures var completes := r.waveAdvanced && old(wavesCompletedInLevel) + 1 >= wavesNeededPerLevel;
        old(gameState) == Playing && !(completes && old(currentLevel) < maxLevel) ==>
        cameraX == CameraClamp(player.x - (SCREEN_WIDTH / 2) as real, levelWidth, SCREEN_WIDTH) &&
        cameraY == CameraClamp(player.y - (SCREEN_HEIGHT / 2) as real, levelHeight, SCREEN_HEIGHT)
    {
      if gameState != Playing {
        return;
      }
      lastUpdateTime := now;
      PlayPhases(platforms, now, r, mouseX, mouseY, sqrt);
      ghost var _ := PopupPhase(cs, js, now);
    }

    /** The player, the camera and the reports, in that order. */
    method PlayPhases(platforms: seq<Rect>, now: real, r: FrameResults, mouseX: real, mouseY: real, sqrt: real -> real)
      requires Valid() && IsRoot(sqrt)
      modifies this`score, this`gameState, this`currentLevel, this`wavesCompletedInLevel
      modifies this`cameraX, this`cameraY, player
      ensures Valid()
      ensures score >= old(score) + ReportScore(r)
      ensures var completes := r.waveAdvanced && old(wavesCompletedInLevel) + 1 >= wavesNeededPerLevel;
        (completes && old(currentLevel) >= maxLevel ==> gameState == Victory) &&
        (completes && old(currentLevel) < maxLevel ==> currentLevel == old(currentLevel) + 1 && wavesCompletedInLevel == 0) &&
        (!completes ==>
          currentLevel == old(currentLevel) &&
          wavesCompletedInLevel == old(wavesCompletedInLevel) + (if r.waveAdvanced then 1 else 0))
      ensures !(r.waveAdvanced && old(wavesCompletedInLevel) + 1 >= wavesNeededPerLevel && old(currentLevel) < maxLevel) ==>
        cameraX == CameraClamp(player.x - (SCREEN_WIDTH / 2) as real, levelWidth, SCREEN_WIDTH) &&
        cameraY == CameraClamp(player.y - (SCREEN_HEIGHT / 2) as real, levelHeight, SCREEN_HEIGHT)
    {
      if player.isAlive {
        var _, _ := PlayerPhase(platforms, now, r, mouseX, mouseY, sqrt);
      }
      UpdateCamera();
      ProgressPhase(r);
    }

    /**
     * The bullet collisions, then the pop-ups move and fade: the frame's
     * new pop-ups `popups` join the old ones and only those still shown stay.
     */
    method PopupPhase(cs: seq<Collision>, js: seq<Jitter>, now: real)
      returns (ghost popups: seq<DamageDisplay.DamageNumber>)
      requires Valid() && |js| == |cs| && forall i :: 0 <= i < |js| ==> JitterFits(js[i])
      modifies this`score, damageDisplay`damageNumbers, damageDisplay.damageNumbers
      ensures Valid()
      ensures score == old(score) + CollisionScore(cs)
      ensures |popups| == |cs| + EffectCount(cs) && PopupsShow(popups, cs, now)
      ensures damageDisplay.damageNumbers == DamageDisplay.Kept(old(damageDisplay.damageNumbers) + popups, now)
    {
      popups := ScoreCollisions(cs, js, now);
      damageDisplay.Update(now);
    }
  }
}
