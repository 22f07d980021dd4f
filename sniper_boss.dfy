// The SniperBoss of src/entities/monsters.py: tracking bullets that home
// on the player's centre, a jump whose landing sends out one expanding
// shockwave, dodging of incoming player bullets, a heal timer, and its own
// AI priority (tracking bullet, shockwave jump, melee, chase; patrol when
// the player is not detected; back away when close).
//
// Distances that the source takes with math.sqrt inside loops come from a
// square-root function `sqrt` the caller supplies (IsRoot).

module Sniper {
  import opened GameObjects
  import opened Config
  import PlayerModule
  import opened Monsters

  function Abs(r: real): real { if r < 0.0 then -r else r }

  // ---------------------------------------------------------------- tracking bullets

  /** The tracking-bullet speed, in pixels per frame. */
  const TRACKING_SPEED: real := 8.0

  /**
   * One homing step: towards the target at TRACKING_SPEED when it is not
   * already there. The step taken is kept as the projectile's velocity; the
   * stored target and tracking_strength are rewritten or never read, so
   * they are not kept.
   */
  function Homed(p: Projectile, tx: real, ty: real, d: real): Projectile
  {
    if d > 0.0 then
      var vx := (tx - p.x) / d * TRACKING_SPEED;
      var vy := (ty - p.y) / d * TRACKING_SPEED;
      p.(x := p.x + vx, y := p.y + vy, vx := vx, vy := vy)
    else p
  }

  /** A homing step away from the target moves along the line to the target, scaled to TRACKING_SPEED over the distance. */
  lemma HomedStepDirection(p: Projectile, tx: real, ty: real, d: real)
    requires d > 0.0 && IsDistance(d, p.x, p.y, tx, ty)
    ensures var q := Homed(p, tx, ty, d);
      q.vx * d == (tx - p.x) * TRACKING_SPEED && q.vy * d == (ty - p.y) * TRACKING_SPEED &&
      q.x == p.x + q.vx && q.y == p.y + q.vy
  {
  }

  /**
   * update_tracking_bullets: drop expired bullets, step the rest towards
   * (tx, ty) (the player's centre), keep those still on screen, in order.
   */
  function HomeProjectiles(ps: seq<Projectile>, now: real, tx: real, ty: real, sqrt: real -> real): (r: seq<Projectile>)
    ensures |r| <= |ps|
    ensures forall q :: q in r ==> OnScreen(q.x, q.y)
    decreases |ps|
  {
    if ps == [] then []
    else
      var rest := HomeProjectiles(ps[..|ps| - 1], now, tx, ty, sqrt);
      var p := ps[|ps| - 1];
      var q := Homed(p, tx, ty, sqrt(DistSq(p.x, p.y, tx, ty)));
      if !Expired(p.createdTime, p.lifetime, now) && OnScreen(q.x, q.y) then rest + [q] else rest
  }

  /** A bullet is kept exactly when some unexpired original homes onto it and stays on screen. */
  lemma {:induction false} HomeProjectilesMembers(ps: seq<Projectile>, now: real, tx: real, ty: real,
                                                  sqrt: real -> real, q: Projectile)
    ensures q in HomeProjectiles(ps, now, tx, ty, sqrt) <==>
      exists p :: p in ps && !Expired(p.createdTime, p.lifetime, now) &&
                  q == Homed(p, tx, ty, sqrt(DistSq(p.x, p.y, tx, ty))) && OnScreen(q.x, q.y)
    decreases |ps|
  {
    if ps != [] {
      var pre := ps[..|ps| - 1];
      var last := ps[|ps| - 1];
      HomeProjectilesMembers(pre, now, tx, ty, sqrt, q);
      assert ps == pre + [last];
      if exists p :: p in ps && !Expired(p.createdTime, p.lifetime, now) &&
                     q == Homed(p, tx, ty, sqrt(DistSq(p.x, p.y, tx, ty))) && OnScreen(q.x, q.y) {
        var p :| p in ps && !Expired(p.createdTime, p.lifetime, now) &&
                 q == Homed(p, tx, ty, sqrt(DistSq(p.x, p.y, tx, ty))) && OnScreen(q.x, q.y);
        if p != last {
          assert p in pre;
        }
      }
    }
  }

  // ---------------------------------------------------------------- shockwaves

  datatype Shockwave = Shockwave(x: real, y: real, radius: real, maxRadius: real, expansionSpeed: real,
                                 damage: int, knockbackForce: real, lifetime: real, createdTime: real,
                                 hitPlayer: bool)

  function Grown(w: Shockwave): Shockwave
  {
    w.(radius := w.radius + w.expansionSpeed)
  }

  /** The wave is kept this frame: not expired and not yet grown past its maximum radius. */
  predicate Lasts(w: Shockwave, now: real)
  {
    !Expired(w.createdTime, w.lifetime, now) && Grown(w).radius <= w.maxRadius
  }

  /** The wave reaches the player, `d` away from its centre, for the first time this frame. */
  predicate Strikes(w: Shockwave, now: real, d: real)
  {
    Lasts(w, now) && !w.hitPlayer && d <= Grown(w).radius + 20.0
  }

  /** The kept wave: grown, and marked once it has reached the player. */
  function WaveAfter(w: Shockwave, d: real): Shockwave
  {
    Grown(w).(hitPlayer := w.hitPlayer || d <= Grown(w).radius + 20.0)
  }

  /** A wave damages the player at most once: once it has struck, it never strikes again. */
  lemma StrikesOnce(w: Shockwave, now: real, d: real, later: real, d2: real)
    requires Strikes(w, now, d)
    ensures WaveAfter(w, d).hitPlayer && !Strikes(WaveAfter(w, d), later, d2)
  {
  }

  /** The distance from the player's centre (cx, cy) to the wave's centre. */
  function WaveDist(w: Shockwave, cx: real, cy: real, sqrt: real -> real): real
  {
    sqrt(DistSq(w.x, w.y, cx, cy))
  }

  /** update_shockwaves on the list: expired or fully grown waves go, the rest grow and remember a hit. */
  function AdvanceWaves(ws: seq<Shockwave>, now: real, cx: real, cy: real, sqrt: real -> real): (r: seq<Shockwave>)
    ensures |r| <= |ws|
    decreases |ws|
  {
    if ws == [] then []
    else
      var rest := AdvanceWaves(ws[..|ws| - 1], now, cx, cy, sqrt);
      var w := ws[|ws| - 1];
      if Lasts(w, now) then rest + [WaveAfter(w, WaveDist(w, cx, cy, sqrt))] else rest
  }

  /** The damages of the waves that strike the player this frame, in order. */
  function WaveDamages(ws: seq<Shockwave>, now: real, cx: real, cy: real, sqrt: real -> real): (r: seq<int>)
    ensures |r| <= |ws|
    decreases |ws|
  {
    if ws == [] then []
    else
      var rest := WaveDamages(ws[..|ws| - 1], now, cx, cy, sqrt);
      var w := ws[|ws| - 1];
      if Strikes(w, now, WaveDist(w, cx, cy, sqrt)) then rest + [w.damage] else rest
  }

  /**
   * The velocity the waves that strike the player this frame add to it:
   * for each strike at a positive distance, a tenth of the wave's knockback
   * along the line from the wave's centre, and 5 px per frame upward.
   */
  function WavePush(ws: seq<Shockwave>, now: real, cx: real, cy: real, sqrt: real -> real): (real, real)
    decreases |ws|
  {
    if ws == [] then (0.0, 0.0)
    else
      var rest := WavePush(ws[..|ws| - 1], now, cx, cy, sqrt);
      var w := ws[|ws| - 1];
      var d := WaveDist(w, cx, cy, sqrt);
      if Strikes(w, now, d) && d > 0.0 then (rest.0 + Knock(w, cx, d), rest.1 - 5.0) else rest
  }

  /** The horizontal shove of one strike at distance d > 0: a tenth of the knockback, away from the wave's centre. */
  function Knock(w: Shockwave, cx: real, d: real): real
    requires d > 0.0
  {
    (cx - w.x) / d * w.knockbackForce * 0.1
  }

  /** One more wave: it grows and stays when it lasts, and adds its damage when it strikes. */
  lemma WaveStep(ws: seq<Shockwave>, i: int, now: real, cx: real, cy: real, sqrt: real -> real)
    requires 0 <= i < |ws|
    ensures AdvanceWaves(ws[..i + 1], now, cx, cy, sqrt) ==
      if Lasts(ws[i], now) then AdvanceWaves(ws[..i], now, cx, cy, sqrt) + [WaveAfter(ws[i], WaveDist(ws[i], cx, cy, sqrt))]
      else AdvanceWaves(ws[..i], now, cx, cy, sqrt)
    ensures WaveDamages(ws[..i + 1], now, cx, cy, sqrt) ==
      if Strikes(ws[i], now, WaveDist(ws[i], cx, cy, sqrt)) then WaveDamages(ws[..i], now, cx, cy, sqrt) + [ws[i].damage]
      else WaveDamages(ws[..i], now, cx, cy, sqrt)
  {
    assert ws[..i + 1][..i] == ws[..i];
  }

  /** One more wave adds its shove to the push when it strikes at a positive distance. */
  lemma WavePushStep(ws: seq<Shockwave>, i: int, now: real, cx: real, cy: real, sqrt: real -> real)
    requires 0 <= i < |ws|
    ensures var d := WaveDist(ws[i], cx, cy, sqrt);
      WavePush(ws[..i + 1], now, cx, cy, sqrt) ==
      if Strikes(ws[i], now, d) && d > 0.0
      then (WavePush(ws[..i], now, cx, cy, sqrt).0 + Knock(ws[i], cx, d), WavePush(ws[..i], now, cx, cy, sqrt).1 - 5.0)
      else WavePush(ws[..i], now, cx, cy, sqrt)
  {
    assert ws[..i + 1][..i] == ws[..i];
  }

  /** Waves that deal no damage push nothing. */
  lemma {:induction false} HarmlessWavesPushNothing(ws: seq<Shockwave>, now: real, cx: real, cy: real, sqrt: real -> real)
    requires WaveDamages(ws, now, cx, cy, sqrt) == []
    ensures WavePush(ws, now, cx, cy, sqrt) == (0.0, 0.0)
    decreases |ws|
  {
    if ws != [] {
      HarmlessWavesPushNothing(ws[..|ws| - 1], now, cx, cy, sqrt);
    }
  }

  /** A wave list whose waves have all struck already deals no damage. */
  lemma {:induction false} SpentWavesHarmless(ws: seq<Shockwave>, now: real, cx: real, cy: real, sqrt: real -> real)
    requires forall i :: 0 <= i < |ws| ==> ws[i].hitPlayer
    ensures WaveDamages(ws, now, cx, cy, sqrt) == []
    ensures forall i :: 0 <= i < |AdvanceWaves(ws, now, cx, cy, sqrt)| ==> AdvanceWaves(ws, now, cx, cy, sqrt)[i].hitPlayer
    decreases |ws|
  {
    if ws != [] {
      SpentWavesHarmless(ws[..|ws| - 1], now, cx, cy, sqrt);
    }
  }

  // ---------------------------------------------------------------- the jump cycle

  datatype JumpPhase = Prepare | Jumping | Landing

  datatype JumpState = JumpState(jumping: bool, phase: JumpPhase, timer: real)

  /**
   * update_jump_state: prepare counts its timer down by 1/60 s and then
   * jumps; jumping turns to landing on touching ground while not rising,
   * which is the step that creates the shockwave (the flag); landing ends
   * the jump.
   */
  function JumpStep(j: JumpState, onGround: bool, vy: real): (r: (JumpState, bool))
    ensures r.1 <==> j.jumping && j.phase == Jumping && onGround && vy >= 0.0
    ensures !j.jumping ==> r.0 == j
    ensures j.jumping && j.phase == Landing ==> !r.0.jumping && r.0.phase == Prepare
    ensures r.0.jumping ==> j.jumping
  {
    if !j.jumping then (j, false)
    else
      match j.phase
      case Prepare =>
        var t := j.timer - 1.0 / 60.0;
        (j.(timer := t, phase := if t <= 0.0 then Jumping else Prepare), false)
      case Jumping =>
        if onGround && vy >= 0.0 then (j.(phase := Landing), true) else (j, false)
      case Landing =>
        (j.(jumping := false, phase := Prepare), false)
  }

  /** A run of frames (ground contact and vertical speed per frame): the final state and the shockwaves made. */
  function RunJump(j: JumpState, frames: seq<(bool, real)>): (JumpState, nat)
    decreases |frames|
  {
    if frames == [] then (j, 0)
    else
      var step := JumpStep(j, frames[0].0, frames[0].1);
      var rest := RunJump(step.0, frames[1..]);
      (rest.0, rest.1 + if step.1 then 1 else 0)
  }

  /**
   * A jump makes exactly one shockwave: started in prepare or jumping, any
   * run of frames makes at most one, and exactly one once the jump is over.
   */
  lemma {:induction false} OneShockwavePerJump(j: JumpState, frames: seq<(bool, real)>)
    ensures j.jumping && j.phase != Landing ==>
      RunJump(j, frames).1 <= 1 && (!RunJump(j, frames).0.jumping ==> RunJump(j, frames).1 == 1)
    ensures j.jumping && j.phase == Landing ==>
      RunJump(j, frames).1 == 0 && (frames != [] ==> !RunJump(j, frames).0.jumping)
    ensures !j.jumping ==> RunJump(j, frames).1 == 0 && !RunJump(j, frames).0.jumping
    decreases |frames|
  {
    if frames != [] {
      var step := JumpStep(j, frames[0].0, frames[0].1);
      OneShockwavePerJump(step.0, frames[1..]);
    }
  }

  // ---------------------------------------------------------------- dodging

  /** A player bullet as the dodge check sees it: position and velocity (0 where the bullet has none). */
  datatype Incoming = Incoming(x: real, y: real, vx: real, vy: real)

  /**
   * The bullet is within `range` of the boss centre (cx, cy), moves
   * horizontally, and at its time to reach the centre's x it will be
   * less than `h` from the centre's y.
   */
  predicate Threatens(b: Incoming, cx: real, cy: real, h: int, range: real)
  {
    DistSq(b.x, b.y, cx, cy) <= range * range && b.vx != 0.0 &&
    Abs(b.y + b.vy * Abs((b.x - cx) / b.vx) - cy) < h as real
  }

  /** The first threatening bullet, if any. */
  function FirstThreat(bs: seq<Incoming>, cx: real, cy: real, h: int, range: real): (r: Option<Incoming>)
    ensures r.Some? ==> r.value in bs && Threatens(r.value, cx, cy, h, range)
    ensures r.None? <==> forall i :: 0 <= i < |bs| ==> !Threatens(bs[i], cx, cy, h, range)
    decreases |bs|
  {
    if bs == [] then None
    else if Threatens(bs[0], cx, cy, h, range) then Some(bs[0])
    else
      var r := FirstThreat(bs[1..], cx, cy, h, range);
      assert forall i :: 1 <= i < |bs| ==> bs[i] == bs[1..][i - 1];
      r
  }

  /** The scan of detect_and_dodge_bullets: the bullets in order, stopping at the first threat. */
  method FindThreat(bullets: seq<Incoming>, cx: real, cy: real, h: int, range: real) returns (t: Option<Incoming>)
    ensures t == FirstThreat(bullets, cx, cy, h, range)
  {
    var i := 0;
    while i < |bullets|
      invariant 0 <= i <= |bullets|
      invariant FirstThreat(bullets, cx, cy, h, range) == FirstThreat(bullets[i..], cx, cy, h, range)
    {
      if Threatens(bullets[i], cx, cy, h, range) {
        return Some(bullets[i]);
      }
      assert bullets[i..][1..] == bullets[i + 1..];
      i := i + 1;
    }
    return None;
  }

  // ---------------------------------------------------------------- the boss

  class SniperBoss {
    const base: Monster
    const trackingBulletCooldown: real
    var lastTrackingBulletTime: real
    var trackingBullets: seq<Projectile>
    const shockwaveCooldown: real
    var lastShockwaveTime: real
    var jump: JumpState
    var shockwaves: seq<Shockwave>
    const healCooldown: real
    var lastHealTime: real
    const healAmount: int
    const dodgeDetectionRange: real
    const dodgeSpeedMultiplier: real
    var isDodging: bool
    var dodgeTimer: real
    var dodgeDirection: int

    ghost predicate Valid()
      reads base`direction, base`health, this`isDodging, this`dodgeDirection
    {
      base.Valid() && healAmount == 2 && dodgeSpeedMultiplier == 2.0 && dodgeDetectionRange == 150.0 &&
      (if isDodging then IsSide(dodgeDirection) else dodgeDirection == 0)
    }

    function CentreX(): real
      reads base`x
    {
      base.x + (base.width / 2) as real
    }

    function CentreY(): real
      reads base`y
    {
      base.y + (base.height / 2) as real
    }

    /** The bullet create_tracking_bullet fires at `now`: from the centre, standing still, with the boss's damage and a 7 second life. */
    function TrackingBullet(now: real): Projectile
      reads base`x, base`y, base`damage
    {
      Projectile(CentreX(), CentreY(), 0.0, 0.0, base.damage, 7.0, now)
    }

    /** The wave create_shockwave makes at `now`: under the boss's feet, growing 8 px a frame to 150, dealing int(1.2 x damage). */
    function LandingWave(now: real): Shockwave
      reads base`x, base`y, base`damage
    {
      Shockwave(CentreX(), base.y + base.height as real, 0.0, 150.0, 8.0,
                Trunc(base.damage as real * 1.2), 200.0, 2.0, now, false)
    }

    /** SniperBoss.__init__; the SNIPER_BOSS_* size, health, damage and speed are parameters. */
    constructor (x0: real, y0: real, w: int, h: int, hp: int, dmg: int, speed: real, dir: int)
      requires 0 < w <= SCREEN_WIDTH && 0 < h && hp >= 0 && IsSide(dir)
      ensures Valid() && fresh(base)
      ensures base.x == x0 && base.y == y0 && base.monsterType == "sniper_boss" && base.health == hp
      ensures base.detectionRange == 300.0 && base.attackRange == 250.0 && base.isAlive
      ensures trackingBulletCooldown == 2.0 && lastTrackingBulletTime == 0.0 && trackingBullets == []
      ensures shockwaveCooldown == 6.0 && lastShockwaveTime == 0.0 && shockwaves == []
      ensures jump == JumpState(false, Prepare, 0.0)
      ensures healCooldown == 5.0 && lastHealTime == 0.0
      ensures !isDodging && dodgeTimer == 0.0 && dodgeDirection == 0
    {
      base := new Monster(x0, y0, w, h, "sniper_boss", hp, dmg, speed, dir, 300.0, 250.0);
      trackingBulletCooldown, lastTrackingBulletTime, trackingBullets := 2.0, 0.0, [];
      shockwaveCooldown, lastShockwaveTime := 6.0, 0.0;
      jump := JumpState(false, Prepare, 0.0);
      shockwaves := [];
      healCooldown, lastHealTime, healAmount := 5.0, 0.0, 2;
      dodgeDetectionRange, dodgeSpeedMultiplier := 150.0, 2.0;
      isDodging, dodgeTimer, dodgeDirection := false, 0.0, 0;
    }

    /** create_tracking_bullet: off cooldown, one bullet from the centre with the boss's damage and a 7 second life. */
    method CreateTrackingBullet(now: real) returns (bullet: Option<Projectile>)
      modifies this`trackingBullets, this`lastTrackingBulletTime
      ensures bullet.Some? <==> now - old(lastTrackingBulletTime) >= trackingBulletCooldown
      ensures bullet.Some? ==>
        bullet.value == TrackingBullet(now) && bullet.value.x == CentreX() && bullet.value.y == CentreY() &&
        trackingBullets == old(trackingBullets) + [bullet.value] && lastTrackingBulletTime == now
      ensures bullet.None? ==> trackingBullets == old(trackingBullets) && lastTrackingBulletTime == old(lastTrackingBulletTime)
    {
      if now - lastTrackingBulletTime < trackingBulletCooldown {
        return None;
      }
      var b := TrackingBullet(now);
      trackingBullets := trackingBullets + [b];
      lastTrackingBulletTime := now;
      return Some(b);
    }

    /** update_tracking_bullets: every live bullet steps towards the player's centre. */
    method UpdateTrackingBullets(player: PlayerModule.Player, now: real, sqrt: real -> real)
      modifies this`trackingBullets
      ensures trackingBullets == HomeProjectiles(old(trackingBullets), now, player.x + (player.width / 2) as real,
                                                 player.y + (player.height / 2) as real, sqrt)
    {
      var tx := player.x + (player.width / 2) as real;
      var ty := player.y + (player.height / 2) as real;
      var ps := trackingBullets;
      var active: seq<Projectile> := [];
      var i := 0;
      while i < |ps|
        invariant 0 <= i <= |ps|
        invariant active == HomeProjectiles(ps[..i], now, tx, ty, sqrt)
      {
        assert ps[..i + 1][..i] == ps[..i];
        var p := ps[i];
        if !Expired(p.createdTime, p.lifetime, now) {
          var q := Homed(p, tx, ty, sqrt(DistSq(p.x, p.y, tx, ty)));
          if OnScreen(q.x, q.y) {
            active := active + [q];
          }
        }
        i := i + 1;
      }
      assert ps[..i] == ps;
      trackingBullets := active;
    }

    /** check_tracking_bullet_collision, with a 16x16 box around each bullet. */
    method CheckTrackingBulletCollision(player: PlayerModule.Player) returns (hit: bool)
      modifies this`trackingBullets, player`health, player`isAlive
      ensures trackingBullets == Misses(old(trackingBullets), 8, player.rect)
      ensures hit <==> HitDamages(old(trackingBullets), 8, player.rect) != []
      ensures player.health ==
        PlayerModule.HealthAfterHits(old(player.health), HitDamages(old(trackingBullets), 8, player.rect))
      ensures player.isAlive == (old(player.isAlive) &&
        PlayerModule.SurvivesHits(old(player.health), HitDamages(old(trackingBullets), 8, player.rect)))
    {
      trackingBullets, hit := StrikePlayer(trackingBullets, 8, player);
    }

    /**
     * perform_shockwave_attack: off cooldown and between 50 and 300 pixels
     * from the player, start a jump in its prepare phase (0.5 s) with a
     * strong upward kick.
     */
    method PerformShockwaveAttack(player: PlayerModule.Player, now: real, dist: real) returns (started: bool)
      requires IsDistance(dist, base.x, base.y, player.x, player.y)
      modifies this`jump, base`vy, this`lastShockwaveTime
      ensures started <==> now - old(lastShockwaveTime) >= shockwaveCooldown && 50.0 <= dist <= 300.0
      ensures started ==> jump == JumpState(true, Prepare, 0.5) && base.vy == -25.0 && lastShockwaveTime == now
      ensures !started ==> jump == old(jump) && base.vy == old(base.vy) && lastShockwaveTime == old(lastShockwaveTime)
    {
      if now - lastShockwaveTime < shockwaveCooldown {
        return false;
      }
      if 50.0 <= dist <= 300.0 {
        jump := JumpState(true, Prepare, 0.5);
        base.vy := -25.0;
        lastShockwaveTime := now;
        return true;
      }
      return false;
    }

    /** create_shockwave: a wave centred under the boss's feet, growing 8 px a frame to 150, dealing int(1.2 x damage). */
    method CreateShockwave(now: real) returns (wave: Shockwave)
      modifies this`shockwaves
      ensures shockwaves == old(shockwaves) + [wave]
      ensures wave == LandingWave(now)
      ensures wave.x == CentreX() && wave.y == base.y + base.height as real && wave.radius == 0.0 && !wave.hitPlayer
    {
      wave := LandingWave(now);
      shockwaves := shockwaves + [wave];
    }

    /** update_shockwaves: each wave grows; one reaching the player for the first time damages and shoves it. */
    method UpdateShockwaves(player: PlayerModule.Player, now: real, sqrt: real -> real)
      requires IsRoot(sqrt)
      modifies this`shockwaves, player`health, player`isAlive, player`vx, player`vy
      ensures shockwaves == AdvanceWaves(old(shockwaves), now, player.x + (player.width / 2) as real,
                                         player.y + (player.height / 2) as real, sqrt)
      ensures player.health == PlayerModule.HealthAfterHits(old(player.health),
        WaveDamages(old(shockwaves), now, player.x + (player.width / 2) as real, player.y + (player.height / 2) as real, sqrt))
      ensures WaveDamages(old(shockwaves), now, player.x + (player.width / 2) as real,
                          player.y + (player.height / 2) as real, sqrt) == [] ==>
        player.vx == old(player.vx) && player.vy == old(player.vy) && player.isAlive == old(player.isAlive)
      ensures player.isAlive == (old(player.isAlive) && PlayerModule.SurvivesHits(old(player.health),
        WaveDamages(old(shockwaves), now, player.x + (player.width / 2) as real, player.y + (player.height / 2) as real, sqrt)))
      ensures player.vx == old(player.vx) + WavePush(old(shockwaves), now, player.x + (player.width / 2) as real,
                                                     player.y + (player.height / 2) as real, sqrt).0
      ensures player.vy == old(player.vy) + WavePush(old(shockwaves), now, player.x + (player.width / 2) as real,
                                                     player.y + (player.height / 2) as real, sqrt).1
    {
      var cx := player.x + (player.width / 2) as real;
      var cy := player.y + (player.height / 2) as real;
      var ws := shockwaves;
      ghost var h0, vx0, vy0, alive0 := player.health, player.vx, player.vy, player.isAlive;
      var kept: seq<Shockwave> := [];
      var i := 0;
      while i < |ws|
        invariant 0 <= i <= |ws|
        invariant kept == AdvanceWaves(ws[..i], now, cx, cy, sqrt)
        invariant Shocked(player, ws[..i], now, cx, cy, sqrt, h0, vx0, vy0, alive0)
      {
        var w := ws[i];
        var d := WaveDist(w, cx, cy, sqrt);
        WaveStep(ws, i, now, cx, cy, sqrt);
        ShockAt(ws, i, now, cx, cy, sqrt, player, h0, vx0, vy0, alive0);
        if Lasts(w, now) {
          kept := kept + [WaveAfter(w, d)];
        }
        i := i + 1;
      }
      assert ws[..i] == ws;
      if WaveDamages(ws, now, cx, cy, sqrt) == [] {
        HarmlessWavesPushNothing(ws, now, cx, cy, sqrt);
      }
      shockwaves := kept;
    }

    /** The player after the waves `ws`, starting from health h0, velocity (vx0, vy0) and life alive0. */
    ghost predicate Shocked(player: PlayerModule.Player, ws: seq<Shockwave>, now: real, cx: real, cy: real,
                            sqrt: real -> real, h0: int, vx0: real, vy0: real, alive0: bool)
      reads player`health, player`isAlive, player`vx, player`vy
    {
      player.health == PlayerModule.HealthAfterHits(h0, WaveDamages(ws, now, cx, cy, sqrt)) &&
      player.isAlive == (alive0 && PlayerModule.SurvivesHits(h0, WaveDamages(ws, now, cx, cy, sqrt))) &&
      player.vx == vx0 + WavePush(ws, now, cx, cy, sqrt).0 &&
      player.vy == vy0 + WavePush(ws, now, cx, cy, sqrt).1
    }

    /** Wave i's effect on the player, carrying the loop's account of the player from the waves before it. */
    method ShockAt(ws: seq<Shockwave>, i: int, now: real, cx: real, cy: real, sqrt: real -> real,
                   player: PlayerModule.Player, ghost h0: int, ghost vx0: real, ghost vy0: real, ghost alive0: bool)
      requires 0 <= i < |ws|
      requires Shocked(player, ws[..i], now, cx, cy, sqrt, h0, vx0, vy0, alive0)
      modifies player`health, player`isAlive, player`vx, player`vy
      ensures Shocked(player, ws[..i + 1], now, cx, cy, sqrt, h0, vx0, vy0, alive0)
    {
      WaveStep(ws, i, now, cx, cy, sqrt);
      WavePushStep(ws, i, now, cx, cy, sqrt);
      PlayerModule.HitsStep(h0, WaveDamages(ws[..i], now, cx, cy, sqrt), ws[i].damage);
      ShockPlayer(ws[i], now, WaveDist(ws[i], cx, cy, sqrt), cx, cy, player);
    }

    /** The player side of one wave: a first strike damages the player and shoves it away and up. */
    method ShockPlayer(w: Shockwave, now: real, d: real, cx: real, cy: real, player: PlayerModule.Player)
      modifies player`health, player`isAlive, player`vx, player`vy
      ensures Strikes(w, now, d) ==> player.health == PlayerModule.AfterDamage(old(player.health), w.damage)
      ensures Strikes(w, now, d) ==> player.isAlive == (old(player.isAlive) && old(player.health) - w.damage > 0)
      ensures Strikes(w, now, d) && d <= 0.0 ==> player.vx == old(player.vx) && player.vy == old(player.vy)
      ensures Strikes(w, now, d) && d > 0.0 ==>
        player.vx == old(player.vx) + Knock(w, cx, d) && player.vy == old(player.vy) - 5.0
      ensures !Strikes(w, now, d) ==>
        player.health == old(player.health) && player.isAlive == old(player.isAlive) &&
        player.vx == old(player.vx) && player.vy == old(player.vy)
    {
      if Strikes(w, now, d) {
        var _ := player.TakeDamage(w.damage);
        if d > 0.0 {
          var knockX := (cx - w.x) / d * w.knockbackForce;
          var knockY := -50.0;
          player.vx := player.vx + knockX * 0.1;
          player.vy := player.vy + knockY * 0.1;
        }
      }
    }

    /**
     * detect_and_dodge_bullets: unless already dodging, the first
     * threatening bullet starts a 0.8 s dodge away from its horizontal
     * direction of travel.
     */
    method DetectAndDodgeBullets(bullets: seq<Incoming>) returns (dodged: bool)
      requires Valid()
      modifies this`isDodging, this`dodgeTimer, this`dodgeDirection
      ensures Valid()
      ensures old(isDodging) ==> !dodged && isDodging && dodgeTimer == old(dodgeTimer) && dodgeDirection == old(dodgeDirection)
      ensures !old(isDodging) ==>
        (dodged <==> FirstThreat(bullets, CentreX(), CentreY(), base.height, dodgeDetectionRange).Some?)
      ensures dodged ==>
        isDodging && dodgeTimer == 0.8 &&
        dodgeDirection == (if FirstThreat(bullets, CentreX(), CentreY(), base.height, dodgeDetectionRange).value.vx > 0.0
                           then -1 else 1)
      ensures !dodged ==> isDodging == old(isDodging) && dodgeTimer == old(dodgeTimer) && dodgeDirection == old(dodgeDirection)
    {
      if isDodging {
        return false;
      }
      var threat := FindThreat(bullets, CentreX(), CentreY(), base.height, dodgeDetectionRange);
      if threat.Some? {
        dodgeDirection := if threat.value.vx > 0.0 then -1 else 1;
        isDodging := true;
        dodgeTimer := 0.8;
        return true;
      }
      return false;
    }

    /** update_dodge_state: while dodging, tick the timer and run sideways at twice the speed; stop when it runs out. */
    method UpdateDodgeState()
      requires Valid()
      modifies this`isDodging, this`dodgeTimer, this`dodgeDirection, base`vx
      ensures Valid()
      ensures !old(isDodging) ==> !isDodging && dodgeTimer == old(dodgeTimer) && base.vx == old(base.vx)
      ensures old(isDodging) ==>
        dodgeTimer == old(dodgeTimer) - 1.0 / 60.0 &&
        base.vx == old(dodgeDirection) as real * (base.currentSpeed * dodgeSpeedMultiplier)
      ensures old(isDodging) ==> (isDodging <==> old(dodgeTimer) - 1.0 / 60.0 > 0.0)
      ensures isDodging ==> dodgeDirection == old(dodgeDirection)
    {
      if isDodging {
        dodgeTimer := dodgeTimer - 1.0 / 60.0;
        base.vx := dodgeDirection as real * (base.currentSpeed * dodgeSpeedMultiplier);
        if dodgeTimer <= 0.0 {
          isDodging := false;
          dodgeDirection := 0;
        }
      }
    }

    /** auto_heal: every heal_cooldown seconds, heal_amount more health, capped at max_health, never lowered. */
    method AutoHeal(now: real)
      requires Valid()
      modifies base`health, this`lastHealTime
      ensures Valid()
      ensures now - old(lastHealTime) < healCooldown ==> base.health == old(base.health) && lastHealTime == old(lastHealTime)
      ensures now - old(lastHealTime) >= healCooldown ==>
        lastHealTime == now &&
        base.health == (if old(base.health) < base.maxHealth
                        then (if old(base.health) + healAmount < base.maxHealth then old(base.health) + healAmount
                              else base.maxHealth)
                        else old(base.health))
      ensures old(base.health) <= base.health
    {
      if now - lastHealTime >= healCooldown {
        if base.health < base.maxHealth {
          base.health := if base.health + healAmount < base.maxHealth then base.health + healAmount else base.maxHealth;
        }
        lastHealTime := now;
      }
    }

    /** update_jump_state, creating the shockwave on the landing step. */
    method UpdateJumpState(now: real)
      modifies this`jump, this`shockwaves
      ensures jump == JumpStep(old(jump), base.onGround, base.vy).0
      ensures JumpStep(old(jump), base.onGround, base.vy).1 ==> shockwaves == old(shockwaves) + [LandingWave(now)]
      ensures !JumpStep(old(jump), base.onGround, base.vy).1 ==> shockwaves == old(shockwaves)
    {
      if !jump.jumping {
        return;
      }
      match jump.phase {
        case Prepare =>
          var t := jump.timer - 1.0 / 60.0;
          jump := jump.(timer := t, phase := if t <= 0.0 then Jumping else Prepare);
        case Jumping =>
          if base.onGround && base.vy >= 0.0 {
            jump := jump.(phase := Landing);
            var _ := CreateShockwave(now);
          }
        case Landing =>
          jump := jump.(jumping := false, phase := Prepare);
      }
    }

    /** attack_player: a tracking bullet first, then a shockwave jump, then the base melee attack. */
    method AttackPlayer(player: PlayerModule.Player, now: real, dist: real) returns (attacked: bool)
      requires Valid()
      requires IsDistance(dist, base.x, base.y, player.x, player.y)
      modifies this`trackingBullets, this`lastTrackingBulletTime, this`jump, base`vy, this`lastShockwaveTime
      modifies base`lastAttackTime, player`health, player`isAlive
      ensures now - old(lastTrackingBulletTime) >= trackingBulletCooldown ==>
        attacked && trackingBullets == old(trackingBullets) + [TrackingBullet(now)] &&
        lastTrackingBulletTime == now && jump == old(jump) && player.health == old(player.health)
      ensures now - old(lastTrackingBulletTime) < trackingBulletCooldown &&
              now - old(lastShockwaveTime) >= shockwaveCooldown && 50.0 <= dist <= 300.0 ==>
        attacked && jump == JumpState(true, Prepare, 0.5) && base.vy == -25.0 && lastShockwaveTime == now &&
        trackingBullets == old(trackingBullets) && player.health == old(player.health)
      ensures now - old(lastTrackingBulletTime) < trackingBulletCooldown &&
              !(now - old(lastShockwaveTime) >= shockwaveCooldown && 50.0 <= dist <= 300.0) ==>
        (attacked <==> old(base.CanAttack(player, now))) && trackingBullets == old(trackingBullets) && jump == old(jump)
      ensures now - old(lastTrackingBulletTime) < trackingBulletCooldown &&
              !(now - old(lastShockwaveTime) >= shockwaveCooldown && 50.0 <= dist <= 300.0) && attacked ==>
        player.health == PlayerModule.AfterDamage(old(player.health), base.damage) && base.lastAttackTime == now
    {
      var bullet := CreateTrackingBullet(now);
      if bullet.Some? {
        return true;
      }
      var started := PerformShockwaveAttack(player, now, dist);
      if started {
        return true;
      }
      attacked := base.AttackPlayer(player, now);
    }

    /**
     * update_ai: a live boss that detects the player fires a tracking
     * bullet when it can, else starts a shockwave jump when the player is
     * within 300 pixels and the jump is off cooldown, else attacks when
     * can_attack_player holds, else chases; an undetected player means
     * patrol. Closer than 80 pixels and not jumping, it then backs away.
     */
    method UpdateAi(player: PlayerModule.Player, now: real, dist: real, draw: real)
      requires Valid()
      requires IsDistance(dist, base.x, base.y, player.x, player.y)
      requires 0.0 <= draw < 1.0
      modifies this`trackingBullets, this`lastTrackingBulletTime, this`jump, this`lastShockwaveTime
      modifies base`aiState, base`vx, base`vy, base`direction, base`lastAttackTime, player`health, player`isAlive
      ensures Valid()
      ensures !old(base.isAlive) ==>
        base.aiState == old(base.aiState) && base.vx == old(base.vx) && trackingBullets == old(trackingBullets) &&
        jump == old(jump) && player.health == old(player.health)
      ensures old(base.isAlive) && old(base.Detects(player)) ==> base.aiState != Patrol
      ensures old(base.isAlive) && old(base.Detects(player)) &&
              now - old(lastTrackingBulletTime) >= trackingBulletCooldown ==>
        base.aiState == Attack && trackingBullets == old(trackingBullets) + [TrackingBullet(now)] &&
        lastTrackingBulletTime == now
      ensures old(base.isAlive) && old(base.Detects(player)) &&
              now - old(lastTrackingBulletTime) < trackingBulletCooldown &&
              dist <= 300.0 && now - old(lastShockwaveTime) >= shockwaveCooldown ==>
        base.aiState == Attack && trackingBullets == old(trackingBullets) &&
        (50.0 <= dist ==> jump == JumpState(true, Prepare, 0.5) && lastShockwaveTime == now) &&
        (dist < 50.0 ==> jump == old(jump) && lastShockwaveTime == old(lastShockwaveTime))
      ensures old(base.isAlive) && old(base.Detects(player)) &&
              now - old(lastTrackingBulletTime) < trackingBulletCooldown &&
              !(dist <= 300.0 && now - old(lastShockwaveTime) >= shockwaveCooldown) ==>
        trackingBullets == old(trackingBullets) && jump == old(jump) &&
        (base.aiState == Attack <==> old(base.CanAttack(player, now))) &&
        (old(base.CanAttack(player, now)) ==> player.health == PlayerModule.AfterDamage(old(player.health), base.damage))
      ensures old(base.isAlive) && !old(base.Detects(player)) ==> base.aiState == Patrol
      ensures old(base.isAlive) && base.aiState != Attack ==>
        player.health == old(player.health) && trackingBullets == old(trackingBullets)
      ensures old(base.isAlive) && dist < 80.0 && !jump.jumping ==>
        base.vx == (if player.x - base.x > 0.0 then -1.0 else 1.0) * base.currentSpeed * 0.8
    {
      if !base.isAlive {
        return;
      }
      var detected := base.DetectPlayer(player);
      if detected {
        ChooseAttack(player, now, dist);
      } else {
        base.aiState := Patrol;
        base.PatrolMovement(draw);
      }
      if dist < 80.0 && !jump.jumping {
        base.vx := (if player.x - base.x > 0.0 then -1.0 else 1.0) * base.currentSpeed * 0.8;
      }
    }

    /** The detected-player branch of update_ai. */
    method ChooseAttack(player: PlayerModule.Player, now: real, dist: real)
      requires Valid()
      requires IsDistance(dist, base.x, base.y, player.x, player.y)
      modifies this`trackingBullets, this`lastTrackingBulletTime, this`jump, this`lastShockwaveTime
      modifies base`aiState, base`vx, base`vy, base`lastAttackTime, player`health, player`isAlive
      ensures Valid()
      ensures base.aiState != Patrol
      ensures now - old(lastTrackingBulletTime) >= trackingBulletCooldown ==>
        base.aiState == Attack && trackingBullets == old(trackingBullets) + [TrackingBullet(now)] &&
        lastTrackingBulletTime == now
      ensures now - old(lastTrackingBulletTime) < trackingBulletCooldown &&
              dist <= 300.0 && now - old(lastShockwaveTime) >= shockwaveCooldown ==>
        base.aiState == Attack && trackingBullets == old(trackingBullets) &&
        (50.0 <= dist ==> jump == JumpState(true, Prepare, 0.5) && lastShockwaveTime == now) &&
        (dist < 50.0 ==> jump == old(jump) && lastShockwaveTime == old(lastShockwaveTime))
      ensures base.aiState != Attack ==> player.health == old(player.health) && trackingBullets == old(trackingBullets)
      ensures now - old(lastTrackingBulletTime) < trackingBulletCooldown &&
              !(dist <= 300.0 && now - old(lastShockwaveTime) >= shockwaveCooldown) ==>
        trackingBullets == old(trackingBullets) && jump == old(jump) &&
        (base.aiState == Attack <==> old(base.CanAttack(player, now)))
      ensures now - old(lastTrackingBulletTime) < trackingBulletCooldown &&
              !(dist <= 300.0 && now - old(lastShockwaveTime) >= shockwaveCooldown) &&
              old(base.CanAttack(player, now)) ==>
        player.health == PlayerModule.AfterDamage(old(player.health), base.damage) && base.lastAttackTime == now
    {
      if now - lastTrackingBulletTime >= trackingBulletCooldown {
        base.aiState := Attack;
        var _ := CreateTrackingBullet(now);
      } else if dist <= 300.0 && now - lastShockwaveTime >= shockwaveCooldown {
        base.aiState := Attack;
        var _ := PerformShockwaveAttack(player, now, dist);
      } else {
        var canAttack := base.CanAttackPlayer(player, now);
        if canAttack {
          base.aiState := Attack;
          var _ := AttackPlayer(player, now, dist);
        } else {
          base.aiState := Chase;
          base.MoveTowardsPlayer(player, dist);
        }
      }
    }

    /**
     * update: the inherited update run with this boss's AI (status effects,
     * AI, physics); then, while alive, the tracking bullets and shockwaves,
     * the jump, dodge and heal timers, and the dodge check against the
     * player's bullets.
     */
    method Update(player: PlayerModule.Player, platforms: seq<Rect>, now: real, sqrt: real -> real, draw: real,
                  bullets: seq<Incoming>)
      requires Valid() && IsRoot(sqrt)
      requires 0.0 <= draw < 1.0
      modifies this, base, player`health, player`isAlive, player`vx, player`vy
      ensures Valid()
      ensures !old(base.isAlive) ==>
        base.Physics() == old(base.Physics()) && trackingBullets == old(trackingBullets) &&
        shockwaves == old(shockwaves) && player.health == old(player.health)
      ensures old(base.isAlive) ==> 0.0 <= base.x <= (SCREEN_WIDTH - base.width) as real
    {
      if !base.isAlive {
        return;
      }
      base.UpdateStatusEffects(now);
      var dist := sqrt(DistSq(base.x, base.y, player.x, player.y));
      UpdateAi(player, now, dist, draw);
      base.UpdatePhysics(platforms);
      if base.isAlive {
        UpdateAttacks(player, now, sqrt);
        UpdateTimers(now, bullets);
      }
    }

    /** The projectile half of the post-physics update. */
    method UpdateAttacks(player: PlayerModule.Player, now: real, sqrt: real -> real)
      requires IsRoot(sqrt)
      modifies this`trackingBullets, this`shockwaves, player`health, player`isAlive, player`vx, player`vy
      ensures trackingBullets ==
        Misses(HomeProjectiles(old(trackingBullets), now, player.x + (player.width / 2) as real,
                               player.y + (player.height / 2) as real, sqrt), 8, player.rect)
      ensures shockwaves == AdvanceWaves(old(shockwaves), now, player.x + (player.width / 2) as real,
                                         player.y + (player.height / 2) as real, sqrt)
      ensures player.health == PlayerModule.HealthAfterHits(
        PlayerModule.HealthAfterHits(old(player.health),
          HitDamages(HomeProjectiles(old(trackingBullets), now, player.x + (player.width / 2) as real,
                                     player.y + (player.height / 2) as real, sqrt), 8, player.rect)),
        WaveDamages(old(shockwaves), now, player.x + (player.width / 2) as real, player.y + (player.height / 2) as real, sqrt))
      ensures player.vx == old(player.vx) + WavePush(old(shockwaves), now, player.x + (player.width / 2) as real,
                                                     player.y + (player.height / 2) as real, sqrt).0
      ensures player.vy == old(player.vy) + WavePush(old(shockwaves), now, player.x + (player.width / 2) as real,
                                                     player.y + (player.height / 2) as real, sqrt).1
    {
      ghost var cx, cy := player.x + (player.width / 2) as real, player.y + (player.height / 2) as real;
      TrackingPass(player, now, sqrt, cx, cy);
      ghost var h1 := player.health;
      UpdateShockwaves(player, now, sqrt);
      assert player.health == PlayerModule.HealthAfterHits(h1, WaveDamages(old(shockwaves), now, cx, cy, sqrt));
    }

    /** The tracking bullets home in on the player's centre (`cx`, `cy`), then those that reach the player hit. */
    method TrackingPass(player: PlayerModule.Player, now: real, sqrt: real -> real, ghost cx: real, ghost cy: real)
      requires cx == player.x + (player.width / 2) as real && cy == player.y + (player.height / 2) as real
      modifies this`trackingBullets, player`health, player`isAlive
      ensures trackingBullets == Misses(HomeProjectiles(old(trackingBullets), now, cx, cy, sqrt), 8, player.rect)
      ensures player.health == PlayerModule.HealthAfterHits(old(player.health),
        HitDamages(HomeProjectiles(old(trackingBullets), now, cx, cy, sqrt), 8, player.rect))
    {
      ghost var h0 := player.health;
      UpdateTrackingBullets(player, now, sqrt);
      ghost var homed := trackingBullets;
      assert h0 == player.health;
      assert homed == HomeProjectiles(old(trackingBullets), now, cx, cy, sqrt);
      var _ := CheckTrackingBulletCollision(player);
      assert trackingBullets == Misses(homed, 8, player.rect);
      assert player.health == PlayerModule.HealthAfterHits(h0, HitDamages(homed, 8, player.rect));
    }

    /** The timer half of the post-physics update. */
    method UpdateTimers(now: real, bullets: seq<Incoming>)
      requires Valid()
      modifies this`jump, this`shockwaves, this`isDodging, this`dodgeTimer, this`dodgeDirection, base`vx
      modifies base`health, this`lastHealTime
      ensures Valid()
      ensures jump == JumpStep(old(jump), base.onGround, base.vy).0
      ensures shockwaves == old(shockwaves) + (if JumpStep(old(jump), base.onGround, base.vy).1 then [LandingWave(now)] else [])
      ensures now - old(lastHealTime) >= healCooldown ==>
        lastHealTime == now && base.health == (if old(base.health) < base.maxHealth
                                               then (if old(base.health) + healAmount < base.maxHealth
                                                     then old(base.health) + healAmount else base.maxHealth)
                                               else old(base.health))
      ensures now - old(lastHealTime) < healCooldown ==> lastHealTime == old(lastHealTime) && base.health == old(base.health)
      ensures old(isDodging) && old(dodgeTimer) - 1.0 / 60.0 > 0.0 ==>
        isDodging && dodgeTimer == old(dodgeTimer) - 1.0 / 60.0 && dodgeDirection == old(dodgeDirection) &&
        base.vx == old(dodgeDirection) as real * (base.currentSpeed * dodgeSpeedMultiplier)
      ensures !(old(isDodging) && old(dodgeTimer) - 1.0 / 60.0 > 0.0) ==>
        (isDodging <==> FirstThreat(bullets, CentreX(), CentreY(), base.height, dodgeDetectionRange).Some?)
      ensures !(old(isDodging) && old(dodgeTimer) - 1.0 / 60.0 > 0.0) && isDodging ==>
        dodgeTimer == 0.8 &&
        dodgeDirection == (if FirstThreat(bullets, CentreX(), CentreY(), base.height, dodgeDetectionRange).value.vx > 0.0
                           then -1 else 1)
    {
      UpdateJumpState(now);
      UpdateDodgeState();
      AutoHeal(now);
      if bullets != [] {
        var _ := DetectAndDodgeBullets(bullets);
      }
    }
  }
}
