// The three monster archetypes of src/entities/monsters.py: LavaMonster
// (lava balls at mid range, a heal timer when made a boss), WaterMonster
// (a five-bullet splash and a dash) and TornadoMonster (whirlwind push,
// teleport next to a distant player, spin timer). Each holds the Monster
// state it inherits as `base`.
//
// Monster.update_ai calls the archetype's attack_player, whose first step
// is the base melee attack; update_ai only calls it when can_attack_player
// holds, and then that melee attack succeeds, so the override returns at
// once. Each AttackPlayer below proves this, which is why the archetypes'
// updates run the base AI with the base attack.

module MonsterKinds {
  import opened GameObjects
  import opened Config
  import PlayerModule
  import opened Monsters

  /** A projectile fired from (sx, sy) towards a point `dist` away at `speed` pixels per frame points at that point. */
  predicate Aimed(p: Projectile, sx: real, sy: real, tx: real, ty: real, dist: real, speed: real)
  {
    p.x == sx && p.y == sy && p.vx * dist == (tx - sx) * speed && p.vy * dist == (ty - sy) * speed
  }

  // ---------------------------------------------------------------- lava monster

  /** The heal attributes the monster manager attaches to the lava boss. */
  datatype HealTimer = HealTimer(cooldown: real, lastTime: real, amount: int)

  class LavaMonster {
    const base: Monster
    var lavaBallCooldown: real
    var lastLavaBallTime: real
    var lavaBalls: seq<Projectile>
    /** None until the boss heal attributes are set; auto_heal does nothing without them. */
    var heal: Option<HealTimer>

    ghost predicate Valid()
      reads base`direction, base`health, this`heal
    {
      base.Valid() && (heal.Some? ==> heal.value.amount >= 0)
    }

    /** The centre the lava balls start from (integer half sizes, as `//` gives). */
    function CentreX(): real
      reads base`x
    {
      base.x + (base.width / 2) as real
    }

    function CentreY(): real
      reads base`y
    {
      base.y + (base.height / 2) as real
    }

    constructor (x0: real, y0: real, dir: int)
      requires IsSide(dir)
      ensures Valid() && fresh(base)
      ensures base.x == x0 && base.y == y0 && base.width == LAVA_MONSTER_WIDTH && base.height == LAVA_MONSTER_HEIGHT
      ensures base.monsterType == "lava_monster" && base.health == LAVA_MONSTER_HEALTH
      ensures base.damage == LAVA_MONSTER_DAMAGE && base.baseSpeed == LAVA_MONSTER_SPEED && base.isAlive
      ensures lavaBallCooldown == 3.0 && lastLavaBallTime == 0.0 && lavaBalls == [] && heal == None
    {
      base := new Monster(x0, y0, LAVA_MONSTER_WIDTH, LAVA_MONSTER_HEIGHT, "lava_monster", LAVA_MONSTER_HEALTH,
                          LAVA_MONSTER_DAMAGE, LAVA_MONSTER_SPEED, dir, 200.0, 60.0);
      lavaBallCooldown := 3.0;
      lastLavaBallTime := 0.0;
      lavaBalls := [];
      heal := None;
    }

    /** The first-stage boss upgrades of the lava monster: a lava ball every second, 2 health every 5 seconds. */
    method BossUpgrade()
      requires Valid()
      modifies this`heal, this`lavaBallCooldown
      ensures Valid()
      ensures heal == Some(HealTimer(5.0, 0.0, 2)) && lavaBallCooldown == 1.0
    {
      lavaBallCooldown := 1.0;
      heal := Some(HealTimer(5.0, 0.0, 2));
    }

    /**
     * create_lava_ball: off cooldown and with the target not at the centre,
     * fire one ball from the centre towards it at 8 pixels per frame, with
     * the monster's damage and a 3 second lifetime.
     */
    method CreateLavaBall(targetX: real, targetY: real, now: real, dist: real) returns (ball: Option<Projectile>)
      requires IsDistance(dist, CentreX(), CentreY(), targetX, targetY)
      modifies this`lavaBalls, this`lastLavaBallTime
      ensures ball.None? <==> now - old(lastLavaBallTime) < lavaBallCooldown || dist == 0.0
      ensures ball.None? ==> lavaBalls == old(lavaBalls) && lastLavaBallTime == old(lastLavaBallTime)
      ensures ball.Some? ==> lavaBalls == old(lavaBalls) + [ball.value] && lastLavaBallTime == now
      ensures ball.Some? ==> Aimed(ball.value, CentreX(), CentreY(), targetX, targetY, dist, 8.0)
      ensures ball.Some? ==> ball.value.damage == base.damage && ball.value.lifetime == 3.0 &&
                             ball.value.createdTime == now
    {
      if now - lastLavaBallTime < lavaBallCooldown {
        return None;
      }
      var sx, sy := CentreX(), CentreY();
      if dist > 0.0 {
        var b := Projectile(sx, sy, (targetX - sx) / dist * 8.0, (targetY - sy) / dist * 8.0, base.damage, 3.0, now);
        lavaBalls := lavaBalls + [b];
        lastLavaBallTime := now;
        return Some(b);
      }
      return None;
    }

    /** update_lava_balls. */
    method UpdateLavaBalls(now: real)
      modifies this`lavaBalls
      ensures lavaBalls == AdvanceProjectiles(old(lavaBalls), now)
    {
      lavaBalls := AdvanceAll(lavaBalls, now);
    }

    /**
     * attack_player: the base melee attack first; failing that, a lava ball
     * when the player is more than 60 and at most 150 pixels away.
     */
    method AttackPlayer(player: PlayerModule.Player, now: real, dist: real, aimDist: real) returns (attacked: bool)
      requires Valid()
      requires IsDistance(dist, base.x, base.y, player.x, player.y)
      requires IsDistance(aimDist, CentreX(), CentreY(), player.x, player.y)
      modifies base`lastAttackTime, player`health, player`isAlive, this`lavaBalls, this`lastLavaBallTime
      ensures old(base.CanAttack(player, now)) ==>
        attacked && lavaBalls == old(lavaBalls) && base.lastAttackTime == now &&
        player.health == PlayerModule.AfterDamage(old(player.health), base.damage)
      ensures !old(base.CanAttack(player, now)) ==>
        player.health == old(player.health) && player.isAlive == old(player.isAlive) &&
        base.lastAttackTime == old(base.lastAttackTime)
      ensures !old(base.CanAttack(player, now)) ==>
        (attacked <==> 60.0 < dist <= 150.0 && now - old(lastLavaBallTime) >= lavaBallCooldown && aimDist > 0.0)
      ensures !attacked ==> lavaBalls == old(lavaBalls) && lastLavaBallTime == old(lastLavaBallTime)
      ensures !old(base.CanAttack(player, now)) && attacked ==>
        |lavaBalls| == |old(lavaBalls)| + 1 && lavaBalls[..|old(lavaBalls)|] == old(lavaBalls) &&
        lastLavaBallTime == now &&
        Aimed(lavaBalls[|old(lavaBalls)|], CentreX(), CentreY(), player.x, player.y, aimDist, 8.0) &&
        lavaBalls[|old(lavaBalls)|].damage == base.damage && lavaBalls[|old(lavaBalls)|].lifetime == 3.0 &&
        lavaBalls[|old(lavaBalls)|].createdTime == now
    {
      attacked := base.AttackPlayer(player, now);
      if attacked {
        return;
      }
      if 60.0 < dist <= 150.0 {
        var ball := CreateLavaBall(player.x, player.y, now, aimDist);
        attacked := ball.Some?;
      }
    }

    /** check_lava_ball_collision, with a 16x16 box around each ball. */
    method CheckLavaBallCollision(player: PlayerModule.Player) returns (hit: bool)
      modifies this`lavaBalls, player`health, player`isAlive
      ensures lavaBalls == Misses(old(lavaBalls), 8, player.rect)
      ensures hit <==> HitDamages(old(lavaBalls), 8, player.rect) != []
      ensures player.health ==
        PlayerModule.HealthAfterHits(old(player.health), HitDamages(old(lavaBalls), 8, player.rect))
      ensures player.isAlive == (old(player.isAlive) &&
        PlayerModule.SurvivesHits(old(player.health), HitDamages(old(lavaBalls), 8, player.rect)))
    {
      lavaBalls, hit := StrikePlayer(lavaBalls, 8, player);
    }

    /**
     * auto_heal: with the boss heal attributes and the cooldown elapsed,
     * raise health by the heal amount capped at max_health (never lowering
     * it) and restart the heal timer.
     */
    method AutoHeal(now: real)
      requires Valid()
      modifies base`health, this`heal
      ensures Valid()
      ensures old(heal).None? || now - old(heal).value.lastTime < old(heal).value.cooldown ==>
        heal == old(heal) && base.health == old(base.health)
      ensures old(heal).Some? && now - old(heal).value.lastTime >= old(heal).value.cooldown ==>
        heal == Some(old(heal).value.(lastTime := now)) &&
        base.health == (if old(base.health) < base.maxHealth
                        then MinInt(base.maxHealth, old(base.health) + old(heal).value.amount)
                        else old(base.health))
      ensures old(base.health) <= base.health
      ensures old(base.health) <= base.maxHealth ==> base.health <= base.maxHealth
    {
      if heal.None? {
        return;
      }
      var timer := heal.value;
      if now - timer.lastTime >= timer.cooldown {
        if base.health < base.maxHealth {
          base.health := MinInt(base.maxHealth, base.health + timer.amount);
        }
        heal := Some(timer.(lastTime := now));
      }
    }

    /**
     * update: the inherited update (status effects, AI, physics), then,
     * while alive, the lava balls move, strike the player and the boss heals.
     */
    method Update(player: PlayerModule.Player, platforms: seq<Rect>, now: real, dist: real, draw: real)
      requires Valid()
      requires IsDistance(dist, base.x, base.y, player.x, player.y)
      requires 0.0 <= draw < 1.0
      modifies this, base, player`health, player`isAlive
      ensures Valid()
      ensures !base.isAlive ==> lavaBalls == old(lavaBalls) && heal == old(heal)
      ensures base.isAlive ==> lavaBalls == Misses(AdvanceProjectiles(old(lavaBalls), now), 8, player.rect)
    {
      base.Update(player, platforms, now, dist, draw);
      if base.isAlive {
        UpdateLavaBalls(now);
        var _ := CheckLavaBallCollision(player);
        AutoHeal(now);
      }
    }
  }

  function MinInt(a: int, b: int): int
  {
    if a <= b then a else b
  }

  // ---------------------------------------------------------------- water monster

  class WaterMonster {
    const base: Monster
    const splashCooldown: real
    var lastSplashTime: real
    var waterBullets: seq<Projectile>
    const dashCooldown: real
    var lastDashTime: real

    ghost predicate Valid()
      reads base`direction, base`health
    {
      base.Valid()
    }

    function CentreX(): real
      reads base`x
    {
      base.x + (base.width / 2) as real
    }

    function CentreY(): real
      reads base`y
    {
      base.y + (base.height / 2) as real
    }

    constructor (x0: real, y0: real, dir: int)
      requires IsSide(dir)
      ensures Valid() && fresh(base)
      ensures base.x == x0 && base.y == y0 && base.width == WATER_MONSTER_WIDTH && base.height == WATER_MONSTER_HEIGHT
      ensures base.monsterType == "water_monster" && base.health == WATER_MONSTER_HEALTH
      ensures base.damage == WATER_MONSTER_DAMAGE && base.baseSpeed == WATER_MONSTER_SPEED && base.isAlive
      ensures splashCooldown == 2.5 && lastSplashTime == 0.0 && waterBullets == []
      ensures dashCooldown == 4.0 && lastDashTime == 0.0
    {
      base := new Monster(x0, y0, WATER_MONSTER_WIDTH, WATER_MONSTER_HEIGHT, "water_monster", WATER_MONSTER_HEALTH,
                          WATER_MONSTER_DAMAGE, WATER_MONSTER_SPEED, dir, 200.0, 60.0);
      splashCooldown, lastSplashTime := 2.5, 0.0;
      waterBullets := [];
      dashCooldown, lastDashTime := 4.0, 0.0;
    }

    /**
     * create_water_splash: off cooldown, five bullets from the centre, one
     * per fan direction (the cosine and sine of the aim angle plus -0.6,
     * -0.3, 0, 0.3 and 0.6 radians, given as `fan`), at 6 pixels per frame,
     * each with half the monster's damage (floor division) and a 2 second
     * lifetime.
     */
    method CreateWaterSplash(now: real, fan: seq<(real, real)>) returns (splash: seq<Projectile>)
      requires |fan| == 5
      modifies this`waterBullets, this`lastSplashTime
      ensures now - old(lastSplashTime) < splashCooldown ==>
        splash == [] && waterBullets == old(waterBullets) && lastSplashTime == old(lastSplashTime)
      ensures now - old(lastSplashTime) >= splashCooldown ==>
        |splash| == 5 && waterBullets == old(waterBullets) + splash && lastSplashTime == now
      ensures forall i :: 0 <= i < |splash| ==>
        splash[i] == Projectile(CentreX(), CentreY(), fan[i].0 * 6.0, fan[i].1 * 6.0, base.damage / 2, 2.0, now)
    {
      if now - lastSplashTime < splashCooldown {
        return [];
      }
      splash := [];
      var i := 0;
      while i < 5
        invariant 0 <= i <= 5 && |splash| == i
        invariant forall k :: 0 <= k < i ==>
          splash[k] == Projectile(CentreX(), CentreY(), fan[k].0 * 6.0, fan[k].1 * 6.0, base.damage / 2, 2.0, now)
      {
        splash := splash + [Projectile(CentreX(), CentreY(), fan[i].0 * 6.0, fan[i].1 * 6.0, base.damage / 2, 2.0, now)];
        i := i + 1;
      }
      waterBullets := waterBullets + splash;
      lastSplashTime := now;
    }

    /** dash_towards_player: off cooldown and within 200 pixels, rush along x at 15 pixels per frame. */
    method DashTowardsPlayer(player: PlayerModule.Player, now: real, dist: real) returns (dashed: bool)
      requires IsDistance(dist, base.x, base.y, player.x, player.y)
      modifies base`vx, this`lastDashTime
      ensures dashed <==> now - old(lastDashTime) >= dashCooldown && 0.0 < dist <= 200.0
      ensures dashed ==> base.vx * dist == (player.x - base.x) * 15.0 && lastDashTime == now
      ensures !dashed ==> base.vx == old(base.vx) && lastDashTime == old(lastDashTime)
    {
      if now - lastDashTime < dashCooldown {
        return false;
      }
      if dist > 0.0 && dist <= 200.0 {
        base.vx := (player.x - base.x) / dist * 15.0;
        lastDashTime := now;
        return true;
      }
      return false;
    }

    /** update_water_bullets. */
    method UpdateWaterBullets(now: real)
      modifies this`waterBullets
      ensures waterBullets == AdvanceProjectiles(old(waterBullets), now)
    {
      waterBullets := AdvanceAll(waterBullets, now);
    }

    /**
     * attack_player: the base melee attack first; failing that, a splash
     * for a player more than 60 and at most 120 pixels away, a dash for one
     * more than 120 and at most 200 away.
     */
    method AttackPlayer(player: PlayerModule.Player, now: real, dist: real, fan: seq<(real, real)>)
      returns (attacked: bool)
      requires Valid()
      requires IsDistance(dist, base.x, base.y, player.x, player.y)
      requires |fan| == 5
      modifies base`lastAttackTime, player`health, player`isAlive, base`vx
      modifies this`waterBullets, this`lastSplashTime, this`lastDashTime
      ensures old(base.CanAttack(player, now)) ==>
        attacked && waterBullets == old(waterBullets) && base.vx == old(base.vx) && base.lastAttackTime == now &&
        player.health == PlayerModule.AfterDamage(old(player.health), base.damage)
      ensures !old(base.CanAttack(player, now)) ==>
        player.health == old(player.health) && player.isAlive == old(player.isAlive) &&
        base.lastAttackTime == old(base.lastAttackTime)
      ensures !old(base.CanAttack(player, now)) && 60.0 < dist <= 120.0 ==>
        (attacked <==> now - old(lastSplashTime) >= splashCooldown) && base.vx == old(base.vx)
      ensures !old(base.CanAttack(player, now)) && 120.0 < dist <= 200.0 ==>
        (attacked <==> now - old(lastDashTime) >= dashCooldown) && waterBullets == old(waterBullets)
      ensures !old(base.CanAttack(player, now)) && !(60.0 < dist <= 200.0) ==>
        !attacked && waterBullets == old(waterBullets) && base.vx == old(base.vx)
    {
      attacked := base.AttackPlayer(player, now);
      if attacked {
        return;
      }
      if 60.0 < dist <= 120.0 {
        var splash := CreateWaterSplash(now, fan);
        return |splash| > 0;
      }
      if 120.0 < dist <= 200.0 {
        attacked := DashTowardsPlayer(player, now, dist);
      }
    }

    /** check_water_bullet_collision, with a 12x12 box around each bullet. */
    method CheckWaterBulletCollision(player: PlayerModule.Player) returns (hit: bool)
      modifies this`waterBullets, player`health, player`isAlive
      ensures waterBullets == Misses(old(waterBullets), 6, player.rect)
      ensures hit <==> HitDamages(old(waterBullets), 6, player.rect) != []
      ensures player.health ==
        PlayerModule.HealthAfterHits(old(player.health), HitDamages(old(waterBullets), 6, player.rect))
      ensures player.isAlive == (old(player.isAlive) &&
        PlayerModule.SurvivesHits(old(player.health), HitDamages(old(waterBullets), 6, player.rect)))
    {
      waterBullets, hit := StrikePlayer(waterBullets, 6, player);
    }

    /** update: the inherited update, then, while alive, the water bullets move and strike the player. */
    method Update(player: PlayerModule.Player, platforms: seq<Rect>, now: real, dist: real, draw: real)
      requires Valid()
      requires IsDistance(dist, base.x, base.y, player.x, player.y)
      requires 0.0 <= draw < 1.0
      modifies this, base, player`health, player`isAlive
      ensures Valid()
      ensures !base.isAlive ==> waterBullets == old(waterBullets)
      ensures base.isAlive ==> waterBullets == Misses(AdvanceProjectiles(old(waterBullets), now), 6, player.rect)
    {
      base.Update(player, platforms, now, dist, draw);
      if base.isAlive {
        UpdateWaterBullets(now);
        var _ := CheckWaterBulletCollision(player);
      }
    }
  }

  // ---------------------------------------------------------------- tornado monster

  /** The dictionary create_whirlwind returns. */
  datatype Whirlwind = Whirlwind(pushX: real, pushY: real, damage: int)

  /** A teleport destination keeps the whole monster on screen. */
  predicate FitsOnScreen(nx: real, ny: real, w: int, h: int)
  {
    0.0 <= nx <= (SCREEN_WIDTH - w) as real && 0.0 <= ny <= (SCREEN_HEIGHT - h) as real
  }

  /**
   * The first of the candidate offsets around (px, py) (the random angle and
   * distance of each attempt, as cosine and sine times the distance) that
   * fits on screen.
   */
  function FirstFit(px: real, py: real, offsets: seq<(real, real)>, w: int, h: int): (r: Option<(real, real)>)
    ensures r.Some? ==> FitsOnScreen(r.value.0, r.value.1, w, h)
    ensures r.Some? <==> exists i :: 0 <= i < |offsets| && FitsOnScreen(px + offsets[i].0, py + offsets[i].1, w, h)
    ensures r.Some? ==> exists i :: 0 <= i < |offsets| && r.value == (px + offsets[i].0, py + offsets[i].1)
    decreases |offsets|
  {
    if offsets == [] then None
    else if FitsOnScreen(px + offsets[0].0, py + offsets[0].1, w, h) then Some((px + offsets[0].0, py + offsets[0].1))
    else
      var r := FirstFit(px, py, offsets[1..], w, h);
      assert forall i :: 1 <= i < |offsets| ==> offsets[i] == offsets[1..][i - 1];
      r
  }

  class TornadoMonster {
    const base: Monster
    const whirlwindCooldown: real
    var lastWhirlwindTime: real
    const teleportCooldown: real
    var lastTeleportTime: real
    var isSpinning: bool
    var spinTimer: real

    ghost predicate Valid()
      reads base`direction, base`health, this`spinTimer, this`isSpinning
    {
      base.Valid() && base.width == TORNADO_MONSTER_WIDTH && base.height == TORNADO_MONSTER_HEIGHT &&
      0.0 <= spinTimer <= 1.5 && (!isSpinning ==> spinTimer == 0.0)
    }

    constructor (x0: real, y0: real, dir: int)
      requires IsSide(dir)
      ensures Valid() && fresh(base)
      ensures base.x == x0 && base.y == y0 && base.monsterType == "tornado_monster"
      ensures base.health == TORNADO_MONSTER_HEALTH && base.damage == TORNADO_MONSTER_DAMAGE
      ensures base.baseSpeed == TORNADO_MONSTER_SPEED && base.isAlive
      ensures whirlwindCooldown == 3.0 && lastWhirlwindTime == 0.0
      ensures teleportCooldown == 8.0 && lastTeleportTime == 0.0 && !isSpinning && spinTimer == 0.0
    {
      base := new Monster(x0, y0, TORNADO_MONSTER_WIDTH, TORNADO_MONSTER_HEIGHT, "tornado_monster",
                          TORNADO_MONSTER_HEALTH, TORNADO_MONSTER_DAMAGE, TORNADO_MONSTER_SPEED, dir, 200.0, 60.0);
      whirlwindCooldown, lastWhirlwindTime := 3.0, 0.0;
      teleportCooldown, lastTeleportTime := 8.0, 0.0;
      isSpinning, spinTimer := false, 0.0;
    }

    /**
     * create_whirlwind: off cooldown and within 80 pixels the monster starts
     * a 1.5 second spin; unless the player stands exactly on it, the player
     * is pushed away along x (150 scaled by 0.3) and up (50 scaled by 0.3),
     * takes the monster's damage, and the cooldown restarts.
     */
    method CreateWhirlwind(player: PlayerModule.Player, now: real, dist: real) returns (w: Option<Whirlwind>)
      requires Valid()
      requires IsDistance(dist, base.x, base.y, player.x, player.y)
      modifies this`isSpinning, this`spinTimer, this`lastWhirlwindTime
      modifies player`vx, player`vy, player`health, player`isAlive
      ensures Valid()
      ensures w.Some? <==> now - old(lastWhirlwindTime) >= whirlwindCooldown && 0.0 < dist <= 80.0
      ensures now - old(lastWhirlwindTime) >= whirlwindCooldown && dist <= 80.0 ==> isSpinning && spinTimer == 1.5
      ensures !(now - old(lastWhirlwindTime) >= whirlwindCooldown && dist <= 80.0) ==>
        isSpinning == old(isSpinning) && spinTimer == old(spinTimer)
      ensures w.Some? ==>
        w.value.pushX * dist == (player.x - base.x) * 150.0 && w.value.pushY == -50.0 &&
        w.value.damage == base.damage && lastWhirlwindTime == now &&
        player.vx == old(player.vx) + w.value.pushX * 0.3 && player.vy == old(player.vy) - 15.0 &&
        player.health == PlayerModule.AfterDamage(old(player.health), base.damage) &&
        player.isAlive == (old(player.isAlive) && old(player.health) - base.damage > 0)
      ensures w.None? ==>
        lastWhirlwindTime == old(lastWhirlwindTime) && player.vx == old(player.vx) && player.vy == old(player.vy) &&
        player.health == old(player.health) && player.isAlive == old(player.isAlive)
    {
      if now - lastWhirlwindTime < whirlwindCooldown {
        return None;
      }
      if dist <= 80.0 {
        isSpinning := true;
        spinTimer := 1.5;
        if dist > 0.0 {
          var pushX := (player.x - base.x) / dist * 150.0;
          var pushY := -50.0;
          player.vx := player.vx + pushX * 0.3;
          player.vy := player.vy + pushY * 0.3;
          var _ := player.TakeDamage(base.damage);
          lastWhirlwindTime := now;
          return Some(Whirlwind(pushX, pushY, base.damage));
        }
      }
      return None;
    }

    /** Where attempt_teleport would put the monster (its own place when it stays). */
    function TeleportSpot(player: PlayerModule.Player, now: real, dist: real, offsets: seq<(real, real)>): (real, real)
      reads base`x, base`y, this`lastTeleportTime, player`x, player`y
    {
      if now - lastTeleportTime >= teleportCooldown && dist > 200.0 &&
         FirstFit(player.x, player.y, offsets, base.width, base.height).Some?
      then FirstFit(player.x, player.y, offsets, base.width, base.height).value
      else (base.x, base.y)
    }

    /**
     * attempt_teleport: off cooldown and more than 200 pixels from the
     * player, try up to ten random spots 100 to 150 pixels around the player
     * and jump to the first that keeps the monster on screen.
     */
    method AttemptTeleport(player: PlayerModule.Player, now: real, dist: real, offsets: seq<(real, real)>)
      returns (moved: bool)
      requires |offsets| == 10
      modifies base`x, base`y, this`lastTeleportTime
      ensures moved <==> now - old(lastTeleportTime) >= teleportCooldown && dist > 200.0 &&
                         FirstFit(player.x, player.y, offsets, base.width, base.height).Some?
      ensures (base.x, base.y) == old(TeleportSpot(player, now, dist, offsets))
      ensures moved ==> FitsOnScreen(base.x, base.y, base.width, base.height) && lastTeleportTime == now
      ensures !moved ==> lastTeleportTime == old(lastTeleportTime)
    {
      ghost var target := TeleportSpot(player, now, dist, offsets);
      if now - lastTeleportTime < teleportCooldown || dist <= 200.0 {
        return false;
      }
      var px, py, w, h := player.x, player.y, base.width, base.height;
      ghost var spot := FirstFit(px, py, offsets, w, h);
      assert spot.Some? ==> target == spot.value;
      var i := 0;
      while i < 10
        invariant 0 <= i <= 10
        invariant spot == FirstFit(px, py, offsets[i..], w, h)
        invariant base.x == old(base.x) && base.y == old(base.y)
      {
        var nx := px + offsets[i].0;
        var ny := py + offsets[i].1;
        if FitsOnScreen(nx, ny, w, h) {
          assert spot == Some((nx, ny));
          base.x, base.y := nx, ny;
          lastTeleportTime := now;
          return true;
        }
        assert offsets[i..][1..] == offsets[i + 1..];
        i := i + 1;
      }
      assert offsets[10..] == [];
      return false;
    }

    /** update_spin_state: one 1/60 second tick of the spin timer; the spin ends when it runs out. */
    method UpdateSpinState()
      requires Valid()
      modifies this`isSpinning, this`spinTimer
      ensures Valid()
      ensures !old(isSpinning) ==> !isSpinning && spinTimer == old(spinTimer)
      ensures old(isSpinning) && old(spinTimer) - 1.0 / 60.0 > 0.0 ==> isSpinning && spinTimer == old(spinTimer) - 1.0 / 60.0
      ensures old(isSpinning) && old(spinTimer) - 1.0 / 60.0 <= 0.0 ==> !isSpinning && spinTimer == 0.0
    {
      if isSpinning {
        spinTimer := spinTimer - 1.0 / 60.0;
        if spinTimer <= 0.0 {
          isSpinning := false;
          spinTimer := 0.0;
        }
      }
    }

    /** attack_player: the base melee attack first; failing that, a whirlwind. */
    method AttackPlayer(player: PlayerModule.Player, now: real, dist: real) returns (attacked: bool)
      requires Valid()
      requires IsDistance(dist, base.x, base.y, player.x, player.y)
      modifies base`lastAttackTime, this`isSpinning, this`spinTimer, this`lastWhirlwindTime
      modifies player`vx, player`vy, player`health, player`isAlive
      ensures Valid()
      ensures old(base.CanAttack(player, now)) ==>
        attacked && base.lastAttackTime == now && isSpinning == old(isSpinning) &&
        player.vx == old(player.vx) && player.vy == old(player.vy) && lastWhirlwindTime == old(lastWhirlwindTime) &&
        player.health == PlayerModule.AfterDamage(old(player.health), base.damage)
      ensures !old(base.CanAttack(player, now)) ==>
        (attacked <==> now - old(lastWhirlwindTime) >= whirlwindCooldown && 0.0 < dist <= 80.0) &&
        base.lastAttackTime == old(base.lastAttackTime)
    {
      attacked := base.AttackPlayer(player, now);
      if attacked {
        return;
      }
      var w := CreateWhirlwind(player, now, dist);
      attacked := w.Some?;
    }

    /**
     * update_ai: a live monster first tries to teleport, then runs the base
     * AI from where it stands, and while chasing adds a random sway `jitter`
     * in [-2, 2] to its horizontal speed. `distAfter` is the distance to the
     * player from the spot the teleport leaves it on.
     */
    method UpdateAi(player: PlayerModule.Player, now: real, dist: real, offsets: seq<(real, real)>,
                    distAfter: real, draw: real, jitter: real)
      requires Valid()
      requires IsDistance(dist, base.x, base.y, player.x, player.y)
      requires |offsets| == 10
      requires IsDistance(distAfter, TeleportSpot(player, now, dist, offsets).0,
                          TeleportSpot(player, now, dist, offsets).1, player.x, player.y)
      requires 0.0 <= draw < 1.0 && -2.0 <= jitter <= 2.0
      modifies base`x, base`y, this`lastTeleportTime
      modifies base`aiState, base`vx, base`vy, base`direction, base`lastAttackTime, player`health, player`isAlive
      ensures Valid()
      ensures !old(base.isAlive) ==> base.x == old(base.x) && base.y == old(base.y) && base.vx == old(base.vx)
      ensures old(base.isAlive) ==> (base.x, base.y) == old(TeleportSpot(player, now, dist, offsets))
      ensures old(base.isAlive) && base.aiState == Patrol ==> base.vx == old(base.direction) as real * base.currentSpeed
      ensures old(base.isAlive) && base.aiState == Chase && distAfter > 0.0 ==>
        base.vx == (player.x - base.x) / distAfter * base.currentSpeed + jitter
    {
      if !base.isAlive {
        return;
      }
      var _ := AttemptTeleport(player, now, dist, offsets);
      base.UpdateAi(player, now, distAfter, draw);
      if base.aiState == Chase {
        base.vx := base.vx + jitter;
      }
    }

    /**
     * update: the inherited update run with this archetype's AI (status
     * effects, teleport and AI, physics), then one tick of the spin timer
     * while alive.
     */
    method Update(player: PlayerModule.Player, platforms: seq<Rect>, now: real, dist: real,
                  offsets: seq<(real, real)>, distAfter: real, draw: real, jitter: real)
      requires Valid()
      requires IsDistance(dist, base.x, base.y, player.x, player.y)
      requires |offsets| == 10
      requires IsDistance(distAfter, TeleportSpot(player, now, dist, offsets).0,
                          TeleportSpot(player, now, dist, offsets).1, player.x, player.y)
      requires 0.0 <= draw < 1.0 && -2.0 <= jitter <= 2.0
      modifies base, this`isSpinning, this`spinTimer, this`lastTeleportTime, player`health, player`isAlive
      ensures Valid()
      ensures !old(base.isAlive) ==>
        base.Physics() == old(base.Physics()) && isSpinning == old(isSpinning) && spinTimer == old(spinTimer)
      ensures old(base.isAlive) ==> 0.0 <= base.x <= (SCREEN_WIDTH - base.width) as real
      ensures old(base.isAlive) && !base.isAlive ==> isSpinning == old(isSpinning) && spinTimer == old(spinTimer)
      ensures base.isAlive && old(isSpinning) ==> spinTimer < old(spinTimer) || spinTimer == 0.0
    {
      if !base.isAlive {
        return;
      }
      base.UpdateStatusEffects(now);
      UpdateAi(player, now, dist, offsets, distAfter, draw, jitter);
      base.UpdatePhysics(platforms);
      if base.isAlive {
        UpdateSpinState();
      }
    }
  }
}
