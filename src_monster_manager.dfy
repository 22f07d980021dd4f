// The MonsterManager of src/systems/monster_manager.py: the capped spawn
// of lava and water monsters with wave-scaled stats, the spawn timer, the
// removal and counting of dead monsters, the two-stage boss progression
// (a lava boss, then after a 3 s pause a sniper boss that trims or tops up
// the small monsters to three), the boss bullets, and the nearest and
// in-range queries.
//
// Monsters are values here: the manager's list is a sequence of Mob
// records, and the boss is one BossRec. Spawn positions, the random
// monster type and random.sample's choice are parameters.

module SrcMonsterManager {
  import opened GameObjects
  import opened Config
  import PlayerModule
  import opened BossBullets
  import opened MonsterRoster

  /** The kinds this manager's monster_types list holds: lava and water, no tornado. */
  predicate Drawable(kind: Kind)
  {
    kind == Lava || kind == Water
  }

  predicate AllDrawable(kinds: seq<Kind>)
  {
    forall k :: 0 <= k < |kinds| ==> Drawable(kinds[k])
  }

  /** A spawn position and the platform it stands on. */
  datatype Spot = Spot(x: int, y: int, platform: Rect)

  /** LavaMonster(x, y) or WaterMonster(x, y) at a spawn spot, standing on its platform. */
  function Placed(kind: Kind, s: Spot): (m: Mob)
    ensures m.alive && m.home == Some(s.platform) && m.health == m.maxHealth > 0 && m.damage > 0
    ensures m.x == s.x as real && m.y == s.y as real && m.kind == kind
  {
    Spawned(kind, s.x as real, s.y as real).(home := Some(s.platform))
  }

  /** adjust_monster_stats: +15% maximum health and +8% damage per wave after the first, truncated; full health. */
  function Scaled(m: Mob, wave: int): Mob
  {
    var hp := Trunc(m.maxHealth as real * (1.0 + (wave - 1) as real * 0.15));
    m.(maxHealth := hp, health := hp, damage := Trunc(m.damage as real * (1.0 + (wave - 1) as real * 0.08)))
  }

  /** Scaling never weakens a monster from wave 1 on, leaves wave 1 as it is, and touches only the three stats. */
  lemma ScaledNeverWeaker(m: Mob, wave: int)
    requires wave >= 1 && m.maxHealth >= 0 && m.damage >= 0
    ensures Scaled(m, wave).maxHealth >= m.maxHealth && Scaled(m, wave).damage >= m.damage
    ensures Scaled(m, wave).health == Scaled(m, wave).maxHealth
    ensures Scaled(m, wave).(maxHealth := m.maxHealth, health := m.health, damage := m.damage) == m
    ensures wave == 1 ==> Scaled(m, wave) == m.(health := m.maxHealth)
  {
    var h := m.maxHealth as real * (1.0 + (wave - 1) as real * 0.15);
    var d := m.damage as real * (1.0 + (wave - 1) as real * 0.08);
    assert h >= m.maxHealth as real;
    assert d >= m.damage as real;
  }

  /** The monsters random.sample keeps must be three alive positions whenever more than three are alive. */
  predicate SampleDraw(ms: seq<Mob>, keep: set<int>)
  {
    AliveCount(ms) > 3 ==> |keep| == 3 && forall i :: i in keep ==> 0 <= i < |ms| && ms[i].alive
  }

  /** Every alive monster outside `keep` is marked dead. */
  function KeepOnly(ms: seq<Mob>, keep: set<int>): (r: seq<Mob>)
    ensures |r| == |ms|
  {
    seq(|ms|, i requires 0 <= i < |ms| => if ms[i].alive && i !in keep then ms[i].(alive := false) else ms[i])
  }

  /**
   * The monsters spawn_additional_monsters_for_sniper_boss leaves: with
   * more than three alive only the drawn three stay alive; with fewer, the
   * list is topped up with one recruit per drawn spot for those missing.
   */
  function Escort(ms: seq<Mob>, keep: set<int>, spots: seq<Option<Spot>>, kinds: seq<Kind>, wave: int): seq<Mob>
    requires |kinds| >= |spots| >= 3
  {
    var n := AliveCount(ms);
    if n > 3 then KeepOnly(ms, keep) else if n == 3 then ms else ms + Recruits(spots[..3 - n], kinds, wave)
  }

  /** Trimming to a draw of three alive positions leaves exactly those three alive. */
  lemma TrimLeavesThree(ms: seq<Mob>, keep: set<int>)
    requires AliveCount(ms) > 3 && SampleDraw(ms, keep)
    ensures AliveSet(KeepOnly(ms, keep)) == keep
    ensures AliveCount(KeepOnly(ms, keep)) == 3
  {
    AliveCountIsSetSize(KeepOnly(ms, keep));
  }

  /** The monsters the sniper boss's top-up adds: one per drawn spot that exists. */
  function Recruits(spots: seq<Option<Spot>>, kinds: seq<Kind>, wave: int): (r: seq<Mob>)
    requires |kinds| >= |spots|
    ensures |r| <= |spots|
    ensures forall k :: 0 <= k < |r| ==> r[k].alive
    decreases |spots|
  {
    if spots == [] then []
    else
      var n := |spots| - 1;
      var rest := Recruits(spots[..n], kinds, wave);
      if spots[n].Some? then rest + [Scaled(Placed(kinds[n], spots[n].value), wave)] else rest
  }

  /** The top-up brings the alive count up to at most `count + needed`. */
  lemma TopUpBound(ms: seq<Mob>, spots: seq<Option<Spot>>, kinds: seq<Kind>, wave: int)
    requires |kinds| >= |spots|
    ensures AliveCount(ms) <= AliveCount(ms + Recruits(spots, kinds, wave)) <= AliveCount(ms) + |spots|
  {
    AliveOnlyAppend(ms, Recruits(spots, kinds, wave));
    AllAlive(Recruits(spots, kinds, wave));
  }

  // ---------------------------------------------------------------- bosses

  datatype BossKind = LavaBoss | SniperBoss

  /**
   * The boss as the manager sees it: the stage-1 lava boss carries fire
   * bullets and their cooldown, the stage-2 sniper boss carries tracking
   * bullets and theirs.
   */
  datatype BossRec = BossRec(kind: BossKind, x: real, y: real, width: int, height: int, alive: bool,
                             maxHealth: int, health: int, damage: real, home: Rect,
                             fireBullets: seq<BossBullet>, lastFireBulletTime: real, fireBulletCooldown: real,
                             bossBullets: seq<BossBullet>, lastNewBulletTime: real, newBulletCooldown: real)

  /**
   * The configuration names the manager uses but the configuration file
   * does not define (BOSS_WIDTH_MULTIPLIER, BOSS_BULLET_SPEED and the
   * like), and the SniperBoss size.
   */
  datatype Tuning = Tuning(widthMultiplier: int, heightMultiplier: int, lavaBossBulletInterval: real,
                           sniperBossBulletInterval: real, bulletSpeed: real, bulletDamage: int,
                           bulletLifetime: real, trackingStrength: real,
                           sniperWidth: int, sniperHeight: int, sniperHealth: int, sniperDamage: real)

  /** The stage-1 lava boss: a lava monster scaled up, standing on the platform, 1500 health and double damage. */
  function LavaBossAt(s: Spot, t: Tuning): (b: BossRec)
    ensures b.kind == LavaBoss && b.alive && b.health == b.maxHealth == 1500 && b.home == s.platform
    ensures b.y + b.height as real == s.platform.y as real
    ensures b.damage == LAVA_MONSTER_DAMAGE as real * 2.0 && b.fireBullets == []
  {
    var h := LAVA_MONSTER_HEIGHT * t.heightMultiplier;
    BossRec(LavaBoss, s.x as real, (s.platform.y - h) as real, LAVA_MONSTER_WIDTH * t.widthMultiplier, h, true,
            1500, 1500, LAVA_MONSTER_DAMAGE as real * 2.0, s.platform,
            [], 0.0, t.lavaBossBulletInterval, [], 0.0, 0.0)
  }

  /** The stage-2 sniper boss at the spawn spot, with an empty tracking-bullet list. */
  function SniperBossAt(s: Spot, t: Tuning): (b: BossRec)
    ensures b.kind == SniperBoss && b.alive && b.home == s.platform && b.bossBullets == []
    ensures b.x == s.x as real && b.y == s.y as real && b.newBulletCooldown == t.sniperBossBulletInterval
  {
    BossRec(SniperBoss, s.x as real, s.y as real, t.sniperWidth, t.sniperHeight, true,
            t.sniperHealth, t.sniperHealth, t.sniperDamage, s.platform,
            [], 0.0, 0.0, [], 0.0, t.sniperBossBulletInterval)
  }

  /** A boss bullet from the boss's centre towards the target at distance d, at BOSS_BULLET_SPEED. */
  function Aimed(b: BossRec, tx: real, ty: real, d: real, now: real, t: Tuning, strength: real): (r: BossBullet)
    requires d > 0.0
    ensures r.x == MuzzleX(b) && r.y == MuzzleY(b)
    ensures r.vx * d == (tx - r.x) * t.bulletSpeed && r.vy * d == (ty - r.y) * t.bulletSpeed
    ensures r.damage == t.bulletDamage && r.createdTime == now && r.lifetime == t.bulletLifetime
  {
    var sx := b.x + (b.width / 2) as real;
    var sy := b.y + (b.height / 2) as real;
    BossBullet(sx, sy, (tx - sx) / d * t.bulletSpeed, (ty - sy) / d * t.bulletSpeed, t.bulletDamage,
               t.bulletLifetime, now, strength)
  }

  /** The boss's centre, where its bullets start. */
  function MuzzleX(b: BossRec): real
  {
    b.x + (b.width / 2) as real
  }

  function MuzzleY(b: BossRec): real
  {
    b.y + (b.height / 2) as real
  }

  /** The distance from the boss's centre to the aim point (tx, ty). */
  function AimDist(b: BossRec, tx: real, ty: real, sqrt: real -> real): real
  {
    sqrt(DistSq(MuzzleX(b), MuzzleY(b), tx, ty))
  }

  /**
   * The lava boss's shot at the end of update_lava_boss_fire_bullets goes
   * off: boss and player alive, the player 80 to 250 px from the boss's
   * corner, the fire cooldown over, and the player not at the boss's centre.
   */
  predicate FireShotDue(b: BossRec, px: real, py: real, playerAlive: bool, now: real, sqrt: real -> real)
  {
    b.kind == LavaBoss && b.alive && playerAlive && 80.0 <= sqrt(DistSq(b.x, b.y, px, py)) <= 250.0 &&
    now - b.lastFireBulletTime >= b.fireBulletCooldown && AimDist(b, px, py, sqrt) > 0.0
  }

  /**
   * The sniper boss's shot at the end of update_sniper_boss_bullets goes
   * off: boss and player alive, the player's corner within 300 px of the
   * boss's, the bullet cooldown over, and the player's centre (cx, cy) not
   * at the boss's centre.
   */
  predicate TrackShotDue(b: BossRec, px: real, py: real, cx: real, cy: real, playerAlive: bool, now: real,
                         sqrt: real -> real)
  {
    b.kind == SniperBoss && b.alive && playerAlive && sqrt(DistSq(b.x, b.y, px, py)) <= 300.0 &&
    now - b.lastNewBulletTime >= b.newBulletCooldown && AimDist(b, cx, cy, sqrt) > 0.0
  }

  /**
   * The lava boss's fire bullets after update_lava_boss_fire_bullets with
   * the player at (px, py) in `rect`, alive afterwards exactly when
   * `playerAlive`: the survivors, then the new shot when it goes off.
   */
  function LavaVolley(b: BossRec, now: real, rect: Rect, px: real, py: real, playerAlive: bool, t: Tuning,
                      sqrt: real -> real): seq<BossBullet>
  {
    AdvanceFire(b.fireBullets, now, rect) +
    if FireShotDue(b, px, py, playerAlive, now, sqrt) then [Aimed(b, px, py, AimDist(b, px, py, sqrt), now, t, 0.0)]
    else []
  }

  /** The sniper boss's bullets after update_sniper_boss_bullets, aiming at the player's centre (cx, cy). */
  function SniperVolley(b: BossRec, now: real, rect: Rect, px: real, py: real, cx: real, cy: real, playerAlive: bool,
                        t: Tuning, sqrt: real -> real): seq<BossBullet>
  {
    AdvanceTracking(b.bossBullets, now, cx, cy, t.bulletSpeed, rect, sqrt) +
    if TrackShotDue(b, px, py, cx, cy, playerAlive, now, sqrt)
    then [Aimed(b, cx, cy, AimDist(b, cx, cy, sqrt), now, t, t.trackingStrength)]
    else []
  }

  /** A shot depends only on where the boss is and how big it is, not on its bullet lists or clocks. */
  lemma AimedIgnoresBullets(a: BossRec, b: BossRec, tx: real, ty: real, now: real, t: Tuning, strength: real,
                            sqrt: real -> real)
    requires a.x == b.x && a.y == b.y && a.width == b.width && a.height == b.height
    requires AimDist(a, tx, ty, sqrt) > 0.0
    ensures AimDist(b, tx, ty, sqrt) == AimDist(a, tx, ty, sqrt)
    ensures Aimed(a, tx, ty, AimDist(a, tx, ty, sqrt), now, t, strength) ==
            Aimed(b, tx, ty, AimDist(b, tx, ty, sqrt), now, t, strength)
  {
  }

  /** The player's centre, where the sniper boss aims. */
  function CentreX(p: PlayerModule.Player): real
    reads p
  {
    p.x + (p.width / 2) as real
  }

  function CentreY(p: PlayerModule.Player): real
    reads p
  {
    p.y + (p.height / 2) as real
  }

  /** The same boss, whatever became of its bullet lists and cooldown clocks. */
  predicate SameBody(a: BossRec, b: BossRec)
  {
    a.kind == b.kind && a.x == b.x && a.y == b.y && a.width == b.width && a.height == b.height &&
    a.alive == b.alive && a.home == b.home
  }

  /** What update reports for the frame. */
  datatype UpdateReport = UpdateReport(monstersKilled: int, bossSpawned: bool, bossDefeated: bool,
                                       sniperBossDefeated: bool, bossDeathX: real, bossDeathY: real,
                                       newMonster: bool, totalKilled: int)


  class MonsterManager {
    var monsters: seq<Mob>
    var spawnTimer: real
    var spawnInterval: real
    var maxMonsters: int
    var waveNumber: int
    var monstersKilled: int
    var bossSpawned: bool
    var boss: Option<BossRec>
    var bossStage: int
    var bossTransitionTimer: real
    const bossTransitionDelay: real
    var waitingForBossTransition: bool
    var spawnWeights: seq<int>
    const tuning: Tuning

    /**
     * The boss stage is 1 or 2; the pause before the sniper boss only
     * happens in stage 2; a present boss matches the stage and was spawned.
     */
    ghost predicate Valid()
      reads this
    {
      (bossStage == 1 || bossStage == 2) &&
      (waitingForBossTransition ==> bossStage == 2) &&
      (boss.Some? ==> bossSpawned && boss.value.kind == (if bossStage == 1 then LavaBoss else SniperBoss)) &&
      monstersKilled >= 0 && bossTransitionDelay == 3.0
    }

    constructor (t: Tuning)
      ensures Valid()
      ensures monsters == [] && spawnTimer == 0.0 && spawnInterval == 2.5 && maxMonsters == 9
      ensures waveNumber == 1 && monstersKilled == 0 && !bossSpawned && boss == None && bossStage == 1
      ensures bossTransitionTimer == 0.0 && !waitingForBossTransition && spawnWeights == [1, 1] && tuning == t
    {
      monsters := [];
      spawnTimer := 0.0;
      spawnInterval := 2.5;
      maxMonsters := 9;
      waveNumber := 1;
      monstersKilled := 0;
      bossSpawned := false;
      boss := None;
      bossStage := 1;
      bossTransitionTimer := 0.0;
      bossTransitionDelay := 3.0;
      waitingForBossTransition := false;
      spawnWeights := [1, 1];
      tuning := t;
    }

    /**
     * spawn_monster: nothing at the cap or without a spawn spot; otherwise
     * one monster of the drawn kind, on its platform, scaled to the wave.
     */
    method SpawnMonster(spot: Option<Spot>, kind: Kind) returns (m: Option<Mob>)
      requires Drawable(kind)
      modifies this`monsters
      ensures |old(monsters)| >= maxMonsters || spot.None? ==> m.None? && monsters == old(monsters)
      ensures |old(monsters)| < maxMonsters && spot.Some? ==>
        m == Some(Scaled(Placed(kind, spot.value), waveNumber)) && monsters == old(monsters) + [m.value]
    {
      if |monsters| >= maxMonsters {
        return None;
      }
      if spot.None? {
        return None;
      }
      var newcomer := Scaled(Placed(kind, spot.value), waveNumber);
      monsters := monsters + [newcomer];
      return Some(newcomer);
    }

    /** update_spawn_timer: add dt; once the interval is reached, restart from 0 and report a spawn. */
    method UpdateSpawnTimer(dt: real) returns (due: bool)
      modifies this`spawnTimer
      ensures due <==> old(spawnTimer) + dt >= spawnInterval
      ensures spawnTimer == if due then 0.0 else old(spawnTimer) + dt
    {
      spawnTimer := spawnTimer + dt;
      if spawnTimer >= spawnInterval {
        spawnTimer := 0.0;
        return true;
      }
      return false;
    }

    /**
     * remove_dead_monsters: keep the alive monsters in order and count the
     * others as kills; a dead boss adds one to the result only, and a dead
     * lava boss's fire bullets are cleared.
     */
    method RemoveDeadMonsters() returns (killed: int)
      requires Valid()
      modifies this`monsters, this`monstersKilled, this`boss
      ensures Valid()
      ensures monsters == AliveOnly(old(monsters))
      ensures monstersKilled == old(monstersKilled) + DeadCount(old(monsters))
      ensures killed == DeadCount(old(monsters)) + if old(boss).Some? && !old(boss).value.alive then 1 else 0
      ensures boss == if old(boss).Some? && !old(boss).value.alive && old(boss).value.kind == LavaBoss
                      then Some(old(boss).value.(fireBullets := [])) else old(boss)
    {
      var kept, dead := CullDead(monsters);
      monsters := kept;
      monstersKilled := monstersKilled + dead;
      killed := dead;
      if boss.Some? && !boss.value.alive {
        killed := killed + 1;
        if boss.value.kind == LavaBoss {
          boss := Some(boss.value.(fireBullets := []));
        }
      }
    }

    /** check_boss_spawn_condition: ten kills, no boss yet this stage, and in stage 2 the pause is over. */
    function CheckBossSpawnCondition(): (r: bool)
      reads this
      ensures monstersKilled < 10 || bossSpawned ==> !r
      ensures bossStage == 2 && waitingForBossTransition ==> !r
      ensures bossStage != 1 && bossStage != 2 ==> !r
      ensures monstersKilled >= 10 && !bossSpawned && (bossStage == 1 || (!waitingForBossTransition && bossStage == 2)) ==> r
    {
      if monstersKilled < 10 then false
      else if bossStage == 1 && !bossSpawned then true
      else bossStage == 2 && !bossSpawned && !waitingForBossTransition
    }

    /**
     * spawn_boss: nothing while a boss is spawned or present, or without a
     * spot; stage 1 brings the lava boss; stage 2 brings the sniper boss and
     * trims or tops up the small monsters to three.
     */
    method SpawnBoss(spot: Option<Spot>, keep: set<int>, topUp: seq<Option<Spot>>, topUpKinds: seq<Kind>)
      returns (spawned: bool)
      requires AllDrawable(topUpKinds)
      requires Valid() && SampleDraw(monsters, keep)
      requires |topUpKinds| >= |topUp| >= 3
      modifies this`boss, this`bossSpawned, this`monsters
      ensures Valid()
      ensures spawned <==> !old(bossSpawned) && old(boss).None? && spot.Some?
      ensures !spawned ==> boss == old(boss) && bossSpawned == old(bossSpawned) && monsters == old(monsters)
      ensures spawned && bossStage == 1 ==>
        bossSpawned && boss == Some(LavaBossAt(spot.value, tuning)) && monsters == old(monsters)
      ensures spawned && bossStage == 2 ==>
        bossSpawned && boss == Some(SniperBossAt(spot.value, tuning)) &&
        (AliveCount(old(monsters)) >= 3 ==> AliveCount(monsters) == 3) &&
        (AliveCount(old(monsters)) < 3 ==> AliveCount(old(monsters)) <= AliveCount(monsters) <= 3)
      ensures spawned && bossStage == 2 ==> monsters == Escort(old(monsters), keep, topUp, topUpKinds, waveNumber)
    {
      if bossSpawned || boss.Some? || spot.None? {
        return false;
      }
      if bossStage == 1 {
        boss := Some(LavaBossAt(spot.value, tuning));
      } else {
        boss := Some(SniperBossAt(spot.value, tuning));
        SpawnAdditionalMonstersForSniperBoss(keep, topUp, topUpKinds);
      }
      bossSpawned := true;
      return true;
    }

    /**
     * spawn_additional_monsters_for_sniper_boss: with more than three alive
     * monsters only the three drawn ones stay alive; with fewer, one new
     * monster per drawn spot, for the number missing, without the cap check.
     */
    method SpawnAdditionalMonstersForSniperBoss(keep: set<int>, spots: seq<Option<Spot>>, kinds: seq<Kind>)
      requires AllDrawable(kinds)
      requires SampleDraw(monsters, keep) && |kinds| >= |spots| >= 3
      modifies this`monsters
      ensures AliveCount(old(monsters)) > 3 ==>
        monsters == KeepOnly(old(monsters), keep) && AliveSet(monsters) == keep && AliveCount(monsters) == 3
      ensures AliveCount(old(monsters)) == 3 ==> monsters == old(monsters)
      ensures AliveCount(old(monsters)) < 3 ==>
        monsters == old(monsters) + Recruits(spots[..3 - AliveCount(old(monsters))], kinds, waveNumber) &&
        AliveCount(old(monsters)) <= AliveCount(monsters) <= 3
      ensures monsters == Escort(old(monsters), keep, spots, kinds, waveNumber)
    {
      var count := AliveCount(monsters);
      if count > 3 {
        TrimToDraw(keep);
      } else if count < 3 {
        TopUp(3 - count, spots, kinds);
        TopUpBound(old(monsters), spots[..3 - count], kinds, waveNumber);
      }
    }

    /** The trim loop: mark every alive monster outside the draw as dead. */
    method TrimToDraw(keep: set<int>)
      requires AliveCount(monsters) > 3 && SampleDraw(monsters, keep)
      modifies this`monsters
      ensures monsters == KeepOnly(old(monsters), keep) && AliveSet(monsters) == keep && AliveCount(monsters) == 3
    {
      var ms := monsters;
      var i := 0;
      while i < |ms|
        invariant 0 <= i <= |ms| && |ms| == |monsters|
        invariant forall j :: 0 <= j < i ==> ms[j] == KeepOnly(monsters, keep)[j]
        invariant forall j :: i <= j < |ms| ==> ms[j] == monsters[j]
      {
        if ms[i].alive && i !in keep {
          ms := ms[i := ms[i].(alive := false)];
        }
        i := i + 1;
      }
      TrimLeavesThree(monsters, keep);
      monsters := ms;
    }

    /** The top-up loop: one attempt per missing monster, skipping draws without a spot. */
    method TopUp(needed: int, spots: seq<Option<Spot>>, kinds: seq<Kind>)
      requires AllDrawable(kinds)
      requires 0 <= needed <= |spots| <= |kinds|
      modifies this`monsters
      ensures monsters == old(monsters) + Recruits(spots[..needed], kinds, waveNumber)
    {
      var k := 0;
      while k < needed
        invariant 0 <= k <= needed
        invariant monsters == old(monsters) + Recruits(spots[..k], kinds, waveNumber)
      {
        assert spots[..k + 1][..k] == spots[..k];
        if spots[k].Some? {
          monsters := monsters + [Scaled(Placed(kinds[k], spots[k].value), waveNumber)];
        }
        k := k + 1;
      }
    }

    /**
     * The boss-death part of update: a dead lava boss opens stage 2 and the
     * 3 s pause without a victory; a dead sniper boss is the victory.
     * Either way the boss is gone and its last position is reported.
     */
    method ResolveBossDeath() returns (defeated: bool, sniperDefeated: bool, deathX: real, deathY: real)
      requires Valid()
      modifies this`bossStage, this`bossSpawned, this`waitingForBossTransition, this`bossTransitionTimer, this`boss
      ensures Valid()
      ensures defeated == sniperDefeated
      ensures old(boss).None? || old(boss).value.alive ==>
        !defeated && deathX == 0.0 && deathY == 0.0 && boss == old(boss) && bossStage == old(bossStage) &&
        bossSpawned == old(bossSpawned) && waitingForBossTransition == old(waitingForBossTransition) &&
        bossTransitionTimer == old(bossTransitionTimer)
      ensures old(boss).Some? && !old(boss).value.alive ==>
        boss.None? && deathX == old(boss).value.x && deathY == old(boss).value.y
      ensures old(boss).Some? && !old(boss).value.alive && old(bossStage) == 1 ==>
        !defeated && bossStage == 2 && !bossSpawned && waitingForBossTransition && bossTransitionTimer == 0.0
      ensures old(boss).Some? && !old(boss).value.alive && old(bossStage) == 2 ==>
        defeated && bossStage == 2 && bossSpawned && waitingForBossTransition == old(waitingForBossTransition)
    {
      defeated, sniperDefeated, deathX, deathY := false, false, 0.0, 0.0;
      if boss.Some? && !boss.value.alive {
        deathX, deathY := boss.value.x, boss.value.y;
        if bossStage == 1 {
          bossStage := 2;
          bossSpawned := false;
          waitingForBossTransition := true;
          bossTransitionTimer := 0.0;
        } else {
          defeated, sniperDefeated := true, true;
        }
        boss := None;
      }
    }

    /** The transition pause of update: it ends once 3 s have accumulated. */
    method AdvanceTransition(dt: real)
      requires Valid()
      modifies this`bossTransitionTimer, this`waitingForBossTransition
      ensures Valid()
      ensures old(waitingForBossTransition) ==>
        bossTransitionTimer == old(bossTransitionTimer) + dt &&
        (waitingForBossTransition <==> bossTransitionTimer < bossTransitionDelay)
      ensures !old(waitingForBossTransition) ==>
        !waitingForBossTransition && bossTransitionTimer == old(bossTransitionTimer)
    {
      if waitingForBossTransition {
        bossTransitionTimer := bossTransitionTimer + dt;
        if bossTransitionTimer >= bossTransitionDelay {
          waitingForBossTransition := false;
        }
      }
    }

    /**
     * update: run the lava boss's fire bullets, remove the dead, maybe spawn
     * the boss of the stage, settle a boss death, run the transition pause,
     * then the spawn timer and maybe one new monster.
     */
    method Update(player: PlayerModule.Player, dt: real, now: real, sqrt: real -> real,
                  bossSpot: Option<Spot>, keep: set<int>, topUp: seq<Option<Spot>>, topUpKinds: seq<Kind>,
                  spot: Option<Spot>, kind: Kind) returns (r: UpdateReport)
      requires Drawable(kind) && AllDrawable(topUpKinds)
      requires Valid()
      requires SampleDraw(AliveOnly(monsters), keep) && |topUpKinds| >= |topUp| >= 3
      modifies this, player`health, player`isAlive
      ensures Valid()
      ensures r.totalKilled == monstersKilled == old(monstersKilled) + DeadCount(old(monsters))
      ensures r.bossDefeated == r.sniperBossDefeated
      ensures r.bossDefeated ==> old(bossStage) == 2 && bossSpawned && boss.None? && !CheckBossSpawnCondition()
      ensures bossStage == old(bossStage) || (old(bossStage) == 1 && bossStage == 2)
      ensures r.newMonster ==> |monsters| > 0 && monsters[|monsters| - 1].alive
      ensures old(boss).Some? && old(boss).value.kind == SniperBoss ==>
        player.health == old(player.health) && (boss.Some? ==> boss == old(boss))
    {
      var killed, spawned := CullAndSpawnBoss(player, now, sqrt, bossSpot, keep, topUp, topUpKinds);
      var defeated, sniperDefeated, deathX, deathY := ResolveBossDeath();
      AdvanceTransition(dt);
      var newcomer := TimedSpawn(dt, spot, kind);
      r := UpdateReport(killed, spawned, defeated, sniperDefeated, deathX, deathY, newcomer.Some?, monstersKilled);
    }

    /** The first part of update: the lava boss's bullets, the removal of the dead, and a due boss spawn. */
    method CullAndSpawnBoss(player: PlayerModule.Player, now: real, sqrt: real -> real,
                            bossSpot: Option<Spot>, keep: set<int>, topUp: seq<Option<Spot>>, topUpKinds: seq<Kind>)
      returns (killed: int, spawned: bool)
      requires AllDrawable(topUpKinds)
      requires Valid()
      requires SampleDraw(AliveOnly(monsters), keep) && |topUpKinds| >= |topUp| >= 3
      modifies this`boss, this`monsters, this`monstersKilled, this`bossSpawned, player`health, player`isAlive
      ensures Valid()
      ensures monstersKilled == old(monstersKilled) + DeadCount(old(monsters))
      ensures old(boss).Some? && old(boss).value.kind == SniperBoss ==>
        player.health == old(player.health) && boss == old(boss)
      ensures old(boss).Some? ==> boss.Some? && SameBody(old(boss).value, boss.value)
      ensures old(boss).Some? && old(boss).value.kind == LavaBoss ==>
        player.health == PlayerModule.HealthAfterHits(old(player.health),
                           FireDamages(old(boss).value.fireBullets, now, player.rect))
      ensures spawned <==>
        old(monstersKilled) + DeadCount(old(monsters)) >= 10 && !old(bossSpawned) &&
        (bossStage == 1 || !waitingForBossTransition) && bossSpot.Some?
      ensures !spawned ==> monsters == AliveOnly(old(monsters)) && (old(boss).None? ==> boss.None?)
      ensures spawned && bossStage == 1 ==>
        monsters == AliveOnly(old(monsters)) && boss == Some(LavaBossAt(bossSpot.value, tuning))
      ensures spawned && bossStage == 2 ==>
        monsters == Escort(AliveOnly(old(monsters)), keep, topUp, topUpKinds, waveNumber) &&
        boss == Some(SniperBossAt(bossSpot.value, tuning))
    {
      if boss.Some? && boss.value.kind == LavaBoss {
        UpdateBossFireBullets(player, now, sqrt);
      }
      killed := RemoveDeadMonsters();
      spawned := false;
      if CheckBossSpawnCondition() {
        spawned := SpawnBoss(bossSpot, keep, topUp, topUpKinds);
      }
    }

    /** The end of update: the spawn timer and, when it fires, one spawn attempt. */
    method TimedSpawn(dt: real, spot: Option<Spot>, kind: Kind) returns (newcomer: Option<Mob>)
      requires Drawable(kind)
      modifies this`spawnTimer, this`monsters
      ensures newcomer.Some? ==> monsters == old(monsters) + [newcomer.value] && newcomer.value.alive
      ensures newcomer.None? ==> monsters == old(monsters)
      ensures newcomer.Some? ==> old(spawnTimer) + dt >= spawnInterval && spawnTimer == 0.0
      ensures newcomer.Some? <==> old(spawnTimer) + dt >= spawnInterval && |old(monsters)| < maxMonsters && spot.Some?
      ensures newcomer.Some? ==> newcomer.value == Scaled(Placed(kind, spot.value), waveNumber)
      ensures spawnTimer == if old(spawnTimer) + dt >= spawnInterval then 0.0 else old(spawnTimer) + dt
    {
      newcomer := None;
      var due := UpdateSpawnTimer(dt);
      if due {
        newcomer := SpawnMonster(spot, kind);
      }
    }

    /** get_monsters_in_range: the alive monsters no farther than the range, in order. */
    method GetMonstersInRange(x: real, y: real, range: real, sqrt: real -> real) returns (found: seq<Mob>)
      ensures found == InRange(monsters, x, y, range, sqrt)
    {
      found := WithinRange(monsters, x, y, range, sqrt);
    }

    /**
     * get_closest_monster: the position of an alive monster at the least
     * distance, the earliest of equals (the comparison is strict), or
     * nothing when none is alive.
     */
    method GetClosestMonster(x: real, y: real, sqrt: real -> real) returns (c: Option<int>)
      ensures IsClosest(monsters, x, y, sqrt, c)
    {
      c := Closest(monsters, x, y, sqrt);
    }

    /** clear_all_monsters (the later of its two definitions, the one Python keeps): only the list is emptied. */
    method ClearAllMonsters()
      modifies this`monsters
      ensures monsters == []
    {
      monsters := [];
    }

    /** reset_for_new_level: no monsters, timers and kills back to 0, boss progression back to stage 1; the wave stays. */
    method ResetForNewLevel()
      requires Valid()
      modifies this`monsters, this`spawnTimer, this`monstersKilled, this`bossSpawned, this`boss, this`bossStage,
               this`bossTransitionTimer, this`waitingForBossTransition
      ensures Valid()
      ensures monsters == [] && spawnTimer == 0.0 && monstersKilled == 0 && !bossSpawned && boss.None?
      ensures bossStage == 1 && bossTransitionTimer == 0.0 && !waitingForBossTransition
    {
      monsters := [];
      spawnTimer := 0.0;
      monstersKilled := 0;
      bossSpawned := false;
      boss := None;
      bossStage := 1;
      bossTransitionTimer := 0.0;
      waitingForBossTransition := false;
    }

    /** get_monster_count: the alive monsters, which are the alive positions of the list. */
    function GetMonsterCount(): (n: int)
      reads this
      ensures n == |AliveSet(monsters)| && 0 <= n <= |monsters|
    {
      AliveCountIsSetSize(monsters);
      AliveCount(monsters)
    }

    /** get_monster_stats: alive count, kills, wave, alive monsters per kind and the cap. */
    function GetMonsterStats(): (s: MonsterStats)
      reads this
      ensures s.lava + s.water + s.tornado == s.totalAlive == GetMonsterCount()
      ensures s.lava == |KindSet(monsters, Lava)| && s.water == |KindSet(monsters, Water)|
      ensures s.tornado == |KindSet(monsters, Tornado)|
      ensures s.totalKilled == monstersKilled && s.currentWave == waveNumber && s.maxMonsters == maxMonsters
    {
      KindsAddUp(monsters);
      KindCountIsSetSize(monsters, Lava);
      KindCountIsSetSize(monsters, Water);
      KindCountIsSetSize(monsters, Tornado);
      MonsterStats(GetMonsterCount(), monstersKilled, waveNumber, KindCount(monsters, Lava),
                   KindCount(monsters, Water), KindCount(monsters, Tornado), maxMonsters)
    }

    // ---------------------------------------------------------------- boss bullets

    /**
     * create_boss_fire_bullet: only for the lava boss, once the cooldown has
     * passed and the target is not at the boss's centre; the bullet is
     * appended and the cooldown restarts.
     */
    method CreateBossFireBullet(tx: real, ty: real, now: real, sqrt: real -> real) returns (made: Option<BossBullet>)
      modifies this`boss
      ensures old(boss).None? || old(boss).value.kind != LavaBoss ||
              now - old(boss).value.lastFireBulletTime < old(boss).value.fireBulletCooldown ==>
        made.None? && boss == old(boss)
      ensures made.Some? ==>
        old(boss).Some? && old(boss).value.kind == LavaBoss &&
        boss == Some(old(boss).value.(fireBullets := old(boss).value.fireBullets + [made.value],
                                      lastFireBulletTime := now))
      ensures made.Some? ==> var d := sqrt(DistSq(made.value.x, made.value.y, tx, ty));
        d > 0.0 && made.value == Aimed(old(boss).value, tx, ty, d, now, tuning, 0.0)
      ensures made.None? ==> boss == old(boss)
      ensures made.Some? <==>
        old(boss).Some? && old(boss).value.kind == LavaBoss &&
        now - old(boss).value.lastFireBulletTime >= old(boss).value.fireBulletCooldown &&
        AimDist(old(boss).value, tx, ty, sqrt) > 0.0
    {
      if boss.None? || boss.value.kind != LavaBoss {
        return None;
      }
      var b := boss.value;
      if now - b.lastFireBulletTime < b.fireBulletCooldown {
        return None;
      }
      var sx := b.x + (b.width / 2) as real;
      var sy := b.y + (b.height / 2) as real;
      var d := sqrt(DistSq(sx, sy, tx, ty));
      if d > 0.0 {
        var shot := Aimed(b, tx, ty, d, now, tuning, 0.0);
        boss := Some(b.(fireBullets := b.fireBullets + [shot], lastFireBulletTime := now));
        return Some(shot);
      }
      return None;
    }

    /** create_sniper_boss_tracking_bullet: as the fire bullet, for the sniper boss, with the tracking strength. */
    method CreateSniperBossTrackingBullet(tx: real, ty: real, now: real, sqrt: real -> real)
      returns (made: Option<BossBullet>)
      modifies this`boss
      ensures old(boss).None? || old(boss).value.kind != SniperBoss ||
              now - old(boss).value.lastNewBulletTime < old(boss).value.newBulletCooldown ==>
        made.None? && boss == old(boss)
      ensures made.Some? ==>
        old(boss).Some? && old(boss).value.kind == SniperBoss &&
        boss == Some(old(boss).value.(bossBullets := old(boss).value.bossBullets + [made.value],
                                      lastNewBulletTime := now))
      ensures made.Some? ==> var d := sqrt(DistSq(made.value.x, made.value.y, tx, ty));
        d > 0.0 && made.value == Aimed(old(boss).value, tx, ty, d, now, tuning, tuning.trackingStrength)
      ensures made.None? ==> boss == old(boss)
      ensures made.Some? <==>
        old(boss).Some? && old(boss).value.kind == SniperBoss &&
        now - old(boss).value.lastNewBulletTime >= old(boss).value.newBulletCooldown &&
        AimDist(old(boss).value, tx, ty, sqrt) > 0.0
    {
      if boss.None? || boss.value.kind != SniperBoss {
        return None;
      }
      var b := boss.value;
      if now - b.lastNewBulletTime < b.newBulletCooldown {
        return None;
      }
      var sx := b.x + (b.width / 2) as real;
      var sy := b.y + (b.height / 2) as real;
      var d := sqrt(DistSq(sx, sy, tx, ty));
      if d > 0.0 {
        var shot := Aimed(b, tx, ty, d, now, tuning, tuning.trackingStrength);
        boss := Some(b.(bossBullets := b.bossBullets + [shot], lastNewBulletTime := now));
        return Some(shot);
      }
      return None;
    }

    /** update_boss_fire_bullets: the fire bullets of a lava boss, the tracking bullets of a sniper boss. */
    method UpdateBossFireBullets(player: PlayerModule.Player, now: real, sqrt: real -> real)
      modifies this`boss, player`health, player`isAlive
      ensures boss.Some? <==> old(boss).Some?
      ensures old(boss).Some? ==> SameBody(old(boss).value, boss.value)
      ensures old(boss).Some? && old(boss).value.kind == LavaBoss ==>
        boss.value.bossBullets == old(boss).value.bossBullets
      ensures old(boss).None? ==> player.health == old(player.health) && player.isAlive == old(player.isAlive)
      ensures old(boss).Some? && old(boss).value.kind == LavaBoss ==>
        boss.value.fireBullets ==
          LavaVolley(old(boss).value, now, player.rect, player.x, player.y, player.isAlive, tuning, sqrt) &&
        player.health == PlayerModule.HealthAfterHits(old(player.health),
                           FireDamages(old(boss).value.fireBullets, now, player.rect))
      ensures old(boss).Some? && old(boss).value.kind == SniperBoss ==>
        boss.value.fireBullets == old(boss).value.fireBullets &&
        boss.value.bossBullets == SniperVolley(old(boss).value, now, player.rect, player.x, player.y,
                                               CentreX(player), CentreY(player), player.isAlive, tuning, sqrt) &&
        player.health == PlayerModule.HealthAfterHits(old(player.health),
          TrackingDamages(old(boss).value.bossBullets, now, CentreX(player), CentreY(player), tuning.bulletSpeed,
                          player.rect, sqrt))
    {
      if boss.None? {
        return;
      }
      if boss.value.kind == LavaBoss {
        UpdateLavaBossFireBullets(player, now, sqrt);
      } else {
        UpdateSniperBossBullets(player, now, sqrt);
      }
    }

    /**
     * update_lava_boss_fire_bullets: every fire bullet ages, moves, may hit
     * the player once and may leave the screen; then, with boss and player
     * alive and the player 80 to 250 px away, the boss tries a new one.
     */
    method UpdateLavaBossFireBullets(player: PlayerModule.Player, now: real, sqrt: real -> real)
      requires boss.Some? && boss.value.kind == LavaBoss
      modifies this`boss, player`health, player`isAlive
      ensures boss.Some? && SameBody(old(boss).value, boss.value)
      ensures boss.value.bossBullets == old(boss).value.bossBullets
      ensures player.health == PlayerModule.HealthAfterHits(old(player.health),
                                 FireDamages(old(boss).value.fireBullets, now, player.rect))
      ensures player.isAlive == (old(player.isAlive) &&
        PlayerModule.SurvivesHits(old(player.health), FireDamages(old(boss).value.fireBullets, now, player.rect)))
      ensures boss.value.fireBullets ==
        LavaVolley(old(boss).value, now, player.rect, player.x, player.y, player.isAlive, tuning, sqrt)
      ensures boss.value.lastFireBulletTime ==
        if FireShotDue(old(boss).value, player.x, player.y, player.isAlive, now, sqrt) then now
        else old(boss).value.lastFireBulletTime
    {
      ghost var b0 := boss.value;
      AdvanceLavaBullets(player, now);
      ghost var b1 := boss.value;
      assert b1 == b0.(fireBullets := AdvanceFire(b0.fireBullets, now, player.rect));
      assert FireShotDue(b1, player.x, player.y, player.isAlive, now, sqrt) ==
             FireShotDue(b0, player.x, player.y, player.isAlive, now, sqrt);
      var made := TryFireBullet(player, now, sqrt);
      if made.Some? {
        AimedIgnoresBullets(b0, b1, player.x, player.y, now, tuning, 0.0, sqrt);
      }
    }

    /** The shot at the end of update_lava_boss_fire_bullets: only with both alive and the player 80 to 250 px away. */
    method TryFireBullet(player: PlayerModule.Player, now: real, sqrt: real -> real) returns (made: Option<BossBullet>)
      requires boss.Some?
      modifies this`boss
      ensures boss.Some? && SameBody(old(boss).value, boss.value) && boss.value.bossBullets == old(boss).value.bossBullets
      ensures made.None? ==> boss == old(boss)
      ensures made.Some? ==>
        boss.value.fireBullets == old(boss).value.fireBullets + [made.value] && boss.value.alive && player.isAlive &&
        80.0 <= sqrt(DistSq(boss.value.x, boss.value.y, player.x, player.y)) <= 250.0
      ensures made.Some? <==> FireShotDue(old(boss).value, player.x, player.y, player.isAlive, now, sqrt)
      ensures made.Some? ==>
        made.value == Aimed(old(boss).value, player.x, player.y, AimDist(old(boss).value, player.x, player.y, sqrt),
                            now, tuning, 0.0) &&
        boss.value.lastFireBulletTime == now
    {
      made := None;
      var b := boss.value;
      if b.alive && player.isAlive {
        var d := sqrt(DistSq(b.x, b.y, player.x, player.y));
        if 80.0 <= d <= 250.0 {
          made := CreateBossFireBullet(player.x, player.y, now, sqrt);
        }
      }
    }

    /** The loop of update_lava_boss_fire_bullets over the fire bullets. */
    method AdvanceLavaBullets(player: PlayerModule.Player, now: real)
      requires boss.Some?
      modifies this`boss, player`health, player`isAlive
      ensures boss == Some(old(boss).value.(fireBullets := AdvanceFire(old(boss).value.fireBullets, now, player.rect)))
      ensures player.health == PlayerModule.HealthAfterHits(old(player.health),
                                 FireDamages(old(boss).value.fireBullets, now, player.rect))
      ensures player.isAlive == (old(player.isAlive) &&
        PlayerModule.SurvivesHits(old(player.health), FireDamages(old(boss).value.fireBullets, now, player.rect)))
    {
      var kept := RunFireBullets(boss.value.fireBullets, now, player);
      boss := Some(boss.value.(fireBullets := kept));
    }

    /**
     * update_sniper_boss_bullets: every tracking bullet ages, turns towards
     * the player's centre, moves, may hit the player once and may stray
     * too far; then, with boss and player alive and the player within
     * 300 px, the boss tries a new one aimed at the player's centre.
     */
    method UpdateSniperBossBullets(player: PlayerModule.Player, now: real, sqrt: real -> real)
      requires boss.Some? && boss.value.kind == SniperBoss
      modifies this`boss, player`health, player`isAlive
      ensures boss.Some? && SameBody(old(boss).value, boss.value)
      ensures boss.value.fireBullets == old(boss).value.fireBullets
      ensures player.health == PlayerModule.HealthAfterHits(old(player.health),
        TrackingDamages(old(boss).value.bossBullets, now, CentreX(player),
                        CentreY(player), tuning.bulletSpeed, player.rect, sqrt))
      ensures player.isAlive == (old(player.isAlive) && PlayerModule.SurvivesHits(old(player.health),
        TrackingDamages(old(boss).value.bossBullets, now, CentreX(player), CentreY(player), tuning.bulletSpeed,
                        player.rect, sqrt)))
      ensures boss.value.bossBullets == SniperVolley(old(boss).value, now, player.rect, player.x, player.y,
                                                     CentreX(player), CentreY(player), player.isAlive, tuning, sqrt)
      ensures boss.value.lastNewBulletTime ==
        if TrackShotDue(old(boss).value, player.x, player.y, CentreX(player), CentreY(player), player.isAlive, now, sqrt)
        then now else old(boss).value.lastNewBulletTime
    {
      ghost var b0 := boss.value;
      var cx, cy := CentreX(player), CentreY(player);
      AdvanceTrackingBullets(player, now, cx, cy, sqrt);
      ghost var b1 := boss.value;
      assert b1 == b0.(bossBullets := AdvanceTracking(b0.bossBullets, now, cx, cy, tuning.bulletSpeed, player.rect, sqrt));
      assert TrackShotDue(b1, player.x, player.y, cx, cy, player.isAlive, now, sqrt) ==
             TrackShotDue(b0, player.x, player.y, cx, cy, player.isAlive, now, sqrt);
      var made := TryTrackingBullet(player, now, sqrt);
      if made.Some? {
        AimedIgnoresBullets(b0, b1, cx, cy, now, tuning, tuning.trackingStrength, sqrt);
      }
    }

    /** The shot at the end of update_sniper_boss_bullets: only with both alive and the player within 300 px. */
    method TryTrackingBullet(player: PlayerModule.Player, now: real, sqrt: real -> real) returns (made: Option<BossBullet>)
      requires boss.Some?
      modifies this`boss
      ensures boss.Some? && SameBody(old(boss).value, boss.value) && boss.value.fireBullets == old(boss).value.fireBullets
      ensures made.None? ==> boss == old(boss)
      ensures made.Some? ==>
        boss.value.bossBullets == old(boss).value.bossBullets + [made.value] && boss.value.alive && player.isAlive &&
        sqrt(DistSq(boss.value.x, boss.value.y, player.x, player.y)) <= 300.0
      ensures made.Some? <==>
        TrackShotDue(old(boss).value, player.x, player.y, CentreX(player), CentreY(player), player.isAlive, now, sqrt)
      ensures made.Some? ==>
        made.value == Aimed(old(boss).value, CentreX(player), CentreY(player),
                            AimDist(old(boss).value, CentreX(player), CentreY(player), sqrt),
                            now, tuning, tuning.trackingStrength) &&
        boss.value.lastNewBulletTime == now
    {
      made := None;
      var b := boss.value;
      if b.alive && player.isAlive {
        var d := sqrt(DistSq(b.x, b.y, player.x, player.y));
        if d <= 300.0 {
          made := CreateSniperBossTrackingBullet(CentreX(player),
                                                 CentreY(player), now, sqrt);
        }
      }
    }

    /** The loop of update_sniper_boss_bullets over the tracking bullets. */
    method AdvanceTrackingBullets(player: PlayerModule.Player, now: real, tx: real, ty: real, sqrt: real -> real)
      requires boss.Some?
      modifies this`boss, player`health, player`isAlive
      ensures boss == Some(old(boss).value.(bossBullets :=
        AdvanceTracking(old(boss).value.bossBullets, now, tx, ty, tuning.bulletSpeed, player.rect, sqrt)))
      ensures player.health == PlayerModule.HealthAfterHits(old(player.health),
        TrackingDamages(old(boss).value.bossBullets, now, tx, ty, tuning.bulletSpeed, player.rect, sqrt))
      ensures player.isAlive == (old(player.isAlive) && PlayerModule.SurvivesHits(old(player.health),
        TrackingDamages(old(boss).value.bossBullets, now, tx, ty, tuning.bulletSpeed, player.rect, sqrt)))
    {
      var kept := RunTrackingBullets(boss.value.bossBullets, now, tx, ty, tuning.bulletSpeed, sqrt, player);
      boss := Some(boss.value.(bossBullets := kept));
    }
  }

  /** The loop over the fire bullets: the survivors, moved, and one take_damage per hit. */
  method RunFireBullets(bs: seq<BossBullet>, now: real, player: PlayerModule.Player) returns (kept: seq<BossBullet>)
    modifies player`health, player`isAlive
    ensures kept == AdvanceFire(bs, now, player.rect)
    ensures player.health == PlayerModule.HealthAfterHits(old(player.health), FireDamages(bs, now, player.rect))
    ensures player.isAlive ==
      (old(player.isAlive) && PlayerModule.SurvivesHits(old(player.health), FireDamages(bs, now, player.rect)))
  {
    kept := [];
    var i := 0;
    while i < |bs|
      invariant 0 <= i <= |bs| && player.rect == old(player.rect)
      invariant kept == AdvanceFire(bs[..i], now, player.rect)
      invariant player.health == PlayerModule.HealthAfterHits(old(player.health), FireDamages(bs[..i], now, player.rect))
      invariant player.isAlive ==
        (old(player.isAlive) && PlayerModule.SurvivesHits(old(player.health), FireDamages(bs[..i], now, player.rect)))
    {
      kept := FireOne(bs, i, now, player, kept, old(player.health), old(player.isAlive));
      i := i + 1;
    }
    assert bs[..i] == bs;
  }

  /** Fire bullet i, carrying the loop's account of the bullets before it. */
  method FireOne(bs: seq<BossBullet>, i: int, now: real, player: PlayerModule.Player, kept: seq<BossBullet>,
                 ghost h0: int, ghost alive0: bool) returns (kept': seq<BossBullet>)
    requires 0 <= i < |bs| && kept == AdvanceFire(bs[..i], now, player.rect)
    requires player.health == PlayerModule.HealthAfterHits(h0, FireDamages(bs[..i], now, player.rect))
    requires player.isAlive == (alive0 && PlayerModule.SurvivesHits(h0, FireDamages(bs[..i], now, player.rect)))
    modifies player`health, player`isAlive
    ensures kept' == AdvanceFire(bs[..i + 1], now, player.rect)
    ensures player.health == PlayerModule.HealthAfterHits(h0, FireDamages(bs[..i + 1], now, player.rect))
    ensures player.isAlive == (alive0 && PlayerModule.SurvivesHits(h0, FireDamages(bs[..i + 1], now, player.rect)))
  {
    FireStep(bs, i, now, player.rect);
    kept' := kept;
    var fate := FireFate(bs[i], now, player.rect);
    if fate == HitPlayer {
      PlayerModule.TakeNextHit(player, h0, alive0, FireDamages(bs[..i], now, player.rect), bs[i].damage);
    } else if fate == Kept {
      kept' := kept + [Moved(bs[i])];
    }
  }

  /** The loop over the tracking bullets towards (tx, ty): the survivors, turned and moved, and one take_damage per hit. */
  method RunTrackingBullets(bs: seq<BossBullet>, now: real, tx: real, ty: real, speed: real, sqrt: real -> real,
                            player: PlayerModule.Player) returns (kept: seq<BossBullet>)
    modifies player`health, player`isAlive
    ensures kept == AdvanceTracking(bs, now, tx, ty, speed, player.rect, sqrt)
    ensures player.health ==
      PlayerModule.HealthAfterHits(old(player.health), TrackingDamages(bs, now, tx, ty, speed, player.rect, sqrt))
    ensures player.isAlive == (old(player.isAlive) &&
      PlayerModule.SurvivesHits(old(player.health), TrackingDamages(bs, now, tx, ty, speed, player.rect, sqrt)))
  {
    kept := [];
    var i := 0;
    while i < |bs|
      invariant 0 <= i <= |bs| && player.rect == old(player.rect)
      invariant kept == AdvanceTracking(bs[..i], now, tx, ty, speed, player.rect, sqrt)
      invariant player.health ==
        PlayerModule.HealthAfterHits(old(player.health), TrackingDamages(bs[..i], now, tx, ty, speed, player.rect, sqrt))
      invariant player.isAlive == (old(player.isAlive) &&
        PlayerModule.SurvivesHits(old(player.health), TrackingDamages(bs[..i], now, tx, ty, speed, player.rect, sqrt)))
    {
      kept := TrackOne(bs, i, now, tx, ty, speed, sqrt, player, kept, old(player.health), old(player.isAlive));
      i := i + 1;
    }
    assert bs[..i] == bs;
  }

  /** Tracking bullet i, carrying the loop's account of the bullets before it. */
  method TrackOne(bs: seq<BossBullet>, i: int, now: real, tx: real, ty: real, speed: real, sqrt: real -> real,
                  player: PlayerModule.Player, kept: seq<BossBullet>, ghost h0: int, ghost alive0: bool)
    returns (kept': seq<BossBullet>)
    requires 0 <= i < |bs| && kept == AdvanceTracking(bs[..i], now, tx, ty, speed, player.rect, sqrt)
    requires player.health ==
      PlayerModule.HealthAfterHits(h0, TrackingDamages(bs[..i], now, tx, ty, speed, player.rect, sqrt))
    requires player.isAlive ==
      (alive0 && PlayerModule.SurvivesHits(h0, TrackingDamages(bs[..i], now, tx, ty, speed, player.rect, sqrt)))
    modifies player`health, player`isAlive
    ensures kept' == AdvanceTracking(bs[..i + 1], now, tx, ty, speed, player.rect, sqrt)
    ensures player.health ==
      PlayerModule.HealthAfterHits(h0, TrackingDamages(bs[..i + 1], now, tx, ty, speed, player.rect, sqrt))
    ensures player.isAlive ==
      (alive0 && PlayerModule.SurvivesHits(h0, TrackingDamages(bs[..i + 1], now, tx, ty, speed, player.rect, sqrt)))
  {
    TrackStep(bs, i, now, tx, ty, speed, player.rect, sqrt);
    kept' := kept;
    var d := sqrt(DistSq(bs[i].x, bs[i].y, tx, ty));
    var fate := TrackFate(bs[i], now, tx, ty, d, speed, player.rect);
    if fate == HitPlayer {
      PlayerModule.TakeNextHit(player, h0, alive0, TrackingDamages(bs[..i], now, tx, ty, speed, player.rect, sqrt),
                               bs[i].damage);
    } else if fate == Kept {
      kept' := kept + [Blended(bs[i], tx, ty, d, speed)];
    }
  }
}
