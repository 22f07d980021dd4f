// The boss controller of src/systems/boss_system.py: damage with an
// invulnerable phase-transition window, health-ratio phase thresholds, the
// transition timer and the per-boss phase-change upgrade, the
// special-attack scheduler with its timed hazards (LavaEruption and
// MegaTornado), and the BossManager's spawn rule and defeat timer.

module BossSystem {
  import opened GameObjects
  import opened Config
  import PlayerModule

  datatype BossKind = LavaTornado | Tsunami

  /** phase_health_thresholds: the health ratio at or below which each phase ends. */
  const THRESHOLDS: seq<real> := [0.66, 0.33, 0.0]
  const MAX_PHASES: int := 3
  const TRANSITION_DURATION: real := 2.0

  /** The threshold read in phase `phase`: thresholds[min(phase - 1, len - 1)]. */
  function Threshold(phase: int): (t: real)
    requires phase >= 1
    ensures t == THRESHOLDS[if phase - 1 < |THRESHOLDS| - 1 then phase - 1 else |THRESHOLDS| - 1]
    ensures 0.0 <= t < 1.0
  {
    THRESHOLDS[if phase - 1 < 2 then phase - 1 else 2]
  }

  /** The health ratio health / max_health is at or below `t`, compared without dividing. */
  predicate RatioAtMost(health: int, maxHealth: int, t: real)
  {
    health as real <= t * maxHealth as real
  }

  /** With a positive maximum the comparison is the source's ratio test. */
  lemma RatioAtMostIsRatio(health: int, maxHealth: int, t: real)
    requires maxHealth > 0
    ensures RatioAtMost(health, maxHealth, t) <==> health as real / maxHealth as real <= t
  {
    var m := maxHealth as real;
    var r := health as real / m;
    assert r * m == health as real;
    if RatioAtMost(health, maxHealth, t) {
      assert r * m <= t * m;
    } else {
      assert r * m > t * m;
    }
  }

  /** The upgrade on_phase_change applies on entering `phase`: damage, speed and attack interval. */
  function PhaseUpgrade(kind: BossKind, phase: int, damage: int, speed: real, interval: real): (r: (int, real, real))
    ensures kind == Tsunami || phase < 2 || phase > 3 ==> r == (damage, speed, interval)
    ensures kind == LavaTornado && phase == 2 ==>
      r.2 == 2.5 && (damage >= 0 ==> r.0 >= damage) && (speed >= 0.0 ==> r.1 >= speed - 1.0)
    ensures kind == LavaTornado && phase == 3 ==>
      r.2 == 2.0 && (damage >= 0 ==> r.0 >= damage) && (speed >= 0.0 ==> r.1 >= speed - 1.0)
  {
    if kind == LavaTornado && phase == 2 then
      (Trunc(damage as real * 1.3), Trunc(speed * 1.2) as real, 2.5)
    else if kind == LavaTornado && phase == 3 then
      (Trunc(damage as real * 1.5), Trunc(speed * 1.4) as real, 2.0)
    else (damage, speed, interval)
  }

  // ---------------------------------------------------------------- timed hazards

  datatype EruptionPhase = Warning | Active | Finished

  /**
   * The boss's special-attack objects. An eruption warns, then burns
   * within its radius, then is removed; a mega tornado grows, pushes the
   * player outwards and burns it, until its lifetime is over.
   */
  datatype SpecialAttack =
    | Eruption(ex: real, ey: real, radius: real, damage: real, warningTime: real, activeTime: real,
               createdTime: real, phase: EruptionPhase)
    | MegaTornado(tx: real, ty: real, tdamage: real, tradius: real, maxRadius: real, growthRate: real,
                  lifetime: real, tcreated: real, rotation: real)

  /** What one update of a special attack does: whether it stays, its new state, the push and the damage it deals. */
  datatype AttackStep = AttackStep(keep: bool, next: SpecialAttack, pushX: real, pushY: real, hurt: real)

  /** LavaEruption.update: phase changes by elapsed time; the player within the radius is burned while active. */
  function EruptionStep(e: SpecialAttack, now: real, px: real, py: real): (s: AttackStep)
    requires e.Eruption?
    ensures s.pushX == 0.0 && s.pushY == 0.0
    ensures s.next.Eruption? && s.next.(phase := e.phase) == e
    ensures !s.keep <==> e.phase == Active && now - e.createdTime >= e.warningTime + e.activeTime
    ensures !s.keep ==> s.next.phase == Finished && s.hurt == 0.0
    ensures s.hurt != 0.0 ==> s.next.phase == Active && e.damage != 0.0
    ensures e.phase == Warning ==>
      s.next.phase == (if now - e.createdTime >= e.warningTime then Active else Warning)
  {
    var elapsed := now - e.createdTime;
    if e.phase == Warning && elapsed >= e.warningTime then
      AttackStep(true, e.(phase := Active), 0.0, 0.0, EruptionBurn(e, px, py))
    else if e.phase == Active && elapsed >= e.warningTime + e.activeTime then
      AttackStep(false, e.(phase := Finished), 0.0, 0.0, 0.0)
    else if e.phase == Active then
      AttackStep(true, e, 0.0, 0.0, EruptionBurn(e, px, py))
    else
      AttackStep(true, e, 0.0, 0.0, 0.0)
  }

  /** The damage of an active eruption: its damage when the player is within the radius (distance <= radius). */
  function EruptionBurn(e: SpecialAttack, px: real, py: real): real
    requires e.Eruption?
  {
    if e.radius >= 0.0 && DistSq(e.ex, e.ey, px, py) <= e.radius * e.radius then e.damage else 0.0
  }

  /** MegaTornado.update: grow while below the maximum, push outward and burn damage x dt within the radius. */
  function TornadoStep(t: SpecialAttack, dt: real, now: real, px: real, py: real, sqrt: real -> real): (s: AttackStep)
    requires t.MegaTornado?
    ensures !s.keep <==> now - t.tcreated >= t.lifetime
    ensures !s.keep ==> s.next == t && s.pushX == 0.0 && s.pushY == 0.0 && s.hurt == 0.0
    ensures s.keep ==>
      s.next.MegaTornado? &&
      s.next.tradius == (if t.tradius < t.maxRadius then t.tradius + t.growthRate * dt else t.tradius) &&
      s.next.rotation == t.rotation + 5.0 * dt &&
      s.next.(tradius := t.tradius, rotation := t.rotation) == t
    ensures s.hurt != 0.0 ==> s.hurt == t.tdamage * dt
  {
    if now - t.tcreated >= t.lifetime then AttackStep(false, t, 0.0, 0.0, 0.0)
    else
      var r := if t.tradius < t.maxRadius then t.tradius + t.growthRate * dt else t.tradius;
      var next := t.(tradius := r, rotation := t.rotation + 5.0 * dt);
      var d := sqrt(DistSq(t.tx, t.ty, px, py));
      if d <= r then
        if d > 0.0 then
          AttackStep(true, next, (px - t.tx) / d * 300.0 * dt, (py - t.ty) / d * 300.0 * dt, t.tdamage * dt)
        else AttackStep(true, next, 0.0, 0.0, t.tdamage * dt)
      else AttackStep(true, next, 0.0, 0.0, 0.0)
  }

  /** A mega tornado pushes the player away from its centre. */
  lemma TornadoPushesOutward(t: SpecialAttack, dt: real, now: real, px: real, py: real, sqrt: real -> real)
    requires t.MegaTornado? && dt > 0.0 && IsRoot(sqrt)
    ensures var s := TornadoStep(t, dt, now, px, py, sqrt);
      (px > t.tx ==> s.pushX >= 0.0) && (px < t.tx ==> s.pushX <= 0.0) &&
      (py > t.ty ==> s.pushY >= 0.0) && (py < t.ty ==> s.pushY <= 0.0)
  {
    var d := sqrt(DistSq(t.tx, t.ty, px, py));
    if d > 0.0 {
      var k := 300.0 * dt / d;
      assert k > 0.0;
      assert (px - t.tx) / d * 300.0 * dt == (px - t.tx) * k;
      assert (py - t.ty) / d * 300.0 * dt == (py - t.ty) * k;
    }
  }

  /** One special attack's update. */
  function AttackUpdate(a: SpecialAttack, dt: real, now: real, px: real, py: real, sqrt: real -> real): AttackStep
  {
    if a.Eruption? then EruptionStep(a, now, px, py) else TornadoStep(a, dt, now, px, py, sqrt)
  }

  /** [a for a in special_attacks if a.update(dt, player)], with the updated state of each kept attack. */
  function AdvanceAttacks(atks: seq<SpecialAttack>, dt: real, now: real, px: real, py: real, sqrt: real -> real)
    : (r: seq<SpecialAttack>)
    ensures |r| <= |atks|
    decreases |atks|
  {
    if atks == [] then []
    else
      var rest := AdvanceAttacks(atks[..|atks| - 1], dt, now, px, py, sqrt);
      var s := AttackUpdate(atks[|atks| - 1], dt, now, px, py, sqrt);
      if s.keep then rest + [s.next] else rest
  }

  /** The damages the attacks deal to the player this frame, in order (zero entries left out). */
  function AttackHurts(atks: seq<SpecialAttack>, dt: real, now: real, px: real, py: real, sqrt: real -> real)
    : (r: seq<real>)
    ensures |r| <= |atks|
    decreases |atks|
  {
    if atks == [] then []
    else
      var rest := AttackHurts(atks[..|atks| - 1], dt, now, px, py, sqrt);
      var s := AttackUpdate(atks[|atks| - 1], dt, now, px, py, sqrt);
      if s.hurt != 0.0 then rest + [s.hurt] else rest
  }

  /** The total push of the attacks on the player's velocity. */
  function AttackPush(atks: seq<SpecialAttack>, dt: real, now: real, px: real, py: real, sqrt: real -> real)
    : (real, real)
    decreases |atks|
  {
    if atks == [] then (0.0, 0.0)
    else
      var rest := AttackPush(atks[..|atks| - 1], dt, now, px, py, sqrt);
      var s := AttackUpdate(atks[|atks| - 1], dt, now, px, py, sqrt);
      (rest.0 + s.pushX, rest.1 + s.pushY)
  }

  /** One more attack: the filter, the damages and the push each take in its update. */
  lemma AttacksStep(atks: seq<SpecialAttack>, i: int, dt: real, now: real, px: real, py: real, sqrt: real -> real)
    requires 0 <= i < |atks|
    ensures var s := AttackUpdate(atks[i], dt, now, px, py, sqrt);
      AdvanceAttacks(atks[..i + 1], dt, now, px, py, sqrt) ==
        AdvanceAttacks(atks[..i], dt, now, px, py, sqrt) + (if s.keep then [s.next] else []) &&
      AttackHurts(atks[..i + 1], dt, now, px, py, sqrt) ==
        AttackHurts(atks[..i], dt, now, px, py, sqrt) + (if s.hurt != 0.0 then [s.hurt] else []) &&
      AttackPush(atks[..i + 1], dt, now, px, py, sqrt) ==
        (AttackPush(atks[..i], dt, now, px, py, sqrt).0 + s.pushX, AttackPush(atks[..i], dt, now, px, py, sqrt).1 + s.pushY)
  {
    assert atks[..i + 1][..i] == atks[..i];
  }

  /** An eruption still warning deals no damage, and a finished one is gone. */
  lemma {:induction false} WarningEruptionsHarmless(atks: seq<SpecialAttack>, dt: real, now: real, px: real, py: real,
                                                    sqrt: real -> real)
    requires forall i :: 0 <= i < |atks| ==>
      atks[i].Eruption? && atks[i].phase == Warning && now - atks[i].createdTime < atks[i].warningTime
    ensures AttackHurts(atks, dt, now, px, py, sqrt) == []
    ensures AdvanceAttacks(atks, dt, now, px, py, sqrt) == atks
    decreases |atks|
  {
    if atks != [] {
      WarningEruptionsHarmless(atks[..|atks| - 1], dt, now, px, py, sqrt);
      assert atks[..|atks| - 1] + [atks[|atks| - 1]] == atks;
    }
  }

  // ---------------------------------------------------------------- the boss

  class Boss {
    const kind: BossKind
    var health: int
    const maxHealth: int
    var isAlive: bool
    var damage: int
    var speed: real
    var phase: int
    var invulnerable: bool
    var phaseTransitioning: bool
    var transitionTimer: real
    var specialAttacks: seq<SpecialAttack>
    var lastSpecialAttack: real
    var specialAttackInterval: real

    /** The phase stays in 1..3, health in 0..max_health, and invulnerability is exactly the transition window. */
    ghost predicate Valid()
      reads this`health, this`phase, this`invulnerable, this`phaseTransitioning
    {
      maxHealth > 0 && 0 <= health <= maxHealth && 1 <= phase <= MAX_PHASES &&
      invulnerable == phaseTransitioning
    }

    /** LavaTornadoBoss / TsunamiBoss: phase 1, no transition, a 3 s special-attack interval. */
    constructor (k: BossKind, speed0: real)
      ensures Valid()
      ensures kind == k && phase == 1 && !invulnerable && !phaseTransitioning && isAlive
      ensures health == maxHealth == (if k == LavaTornado then LAVA_TORNADO_BOSS_HEALTH else TSUNAMI_BOSS_HEALTH)
      ensures damage == (if k == LavaTornado then LAVA_TORNADO_BOSS_DAMAGE else TSUNAMI_BOSS_DAMAGE)
      ensures speed == speed0 && specialAttacks == [] && lastSpecialAttack == 0.0 && specialAttackInterval == 3.0
      ensures transitionTimer == 0.0
    {
      kind := k;
      var hp := if k == LavaTornado then LAVA_TORNADO_BOSS_HEALTH else TSUNAMI_BOSS_HEALTH;
      health, maxHealth, isAlive := hp, hp, true;
      damage := if k == LavaTornado then LAVA_TORNADO_BOSS_DAMAGE else TSUNAMI_BOSS_DAMAGE;
      speed := speed0;
      phase := 1;
      invulnerable, phaseTransitioning, transitionTimer := false, false, 0.0;
      specialAttacks, lastSpecialAttack, specialAttackInterval := [], 0.0, 3.0;
    }

    /**
     * take_damage: nothing while invulnerable; otherwise the monster's
     * damage rule, then a phase transition when the health ratio has
     * dropped to the current threshold and phases remain.
     */
    method TakeDamage(amount: int) returns (dealt: int)
      requires Valid() && amount >= 0
      modifies this`health, this`isAlive, this`phase, this`invulnerable, this`phaseTransitioning, this`transitionTimer
      ensures Valid()
      ensures old(invulnerable) ==>
        dealt == 0 && health == old(health) && isAlive == old(isAlive) && phase == old(phase) &&
        invulnerable && transitionTimer == old(transitionTimer)
      ensures !old(invulnerable) ==>
        dealt == amount && health == (if old(health) - amount <= 0 then 0 else old(health) - amount) &&
        isAlive == (old(isAlive) && old(health) - amount > 0)
      ensures !old(invulnerable) ==>
        var starts := RatioAtMost(health, maxHealth, Threshold(old(phase))) && old(phase) < MAX_PHASES;
        (starts ==> phase == old(phase) + 1 && phaseTransitioning && invulnerable && transitionTimer == 0.0) &&
        (!starts ==> phase == old(phase) && !phaseTransitioning && transitionTimer == old(transitionTimer))
      ensures old(phase) <= phase <= old(phase) + 1
    {
      if invulnerable {
        return 0;
      }
      var a := amount;
      if phaseTransitioning {
        a := Trunc(a as real * 0.3);
      }
      health := health - a;
      if health <= 0 {
        health := 0;
        isAlive := false;
      }
      dealt := a;
      if RatioAtMost(health, maxHealth, Threshold(phase)) && phase < MAX_PHASES {
        StartPhaseTransition();
      }
    }

    /** start_phase_transition: once per transition, enter the invulnerable window and the next phase. */
    method StartPhaseTransition()
      modifies this`phase, this`invulnerable, this`phaseTransitioning, this`transitionTimer
      ensures old(phaseTransitioning) ==>
        phase == old(phase) && invulnerable == old(invulnerable) && phaseTransitioning &&
        transitionTimer == old(transitionTimer)
      ensures !old(phaseTransitioning) ==>
        phase == old(phase) + 1 && invulnerable && phaseTransitioning && transitionTimer == 0.0
    {
      if !phaseTransitioning {
        phaseTransitioning := true;
        transitionTimer := 0.0;
        invulnerable := true;
        phase := phase + 1;
      }
    }

    /** update_phase_transition: the timer runs; at the duration both flags clear and on_phase_change runs once. */
    method UpdatePhaseTransition(dt: real) returns (completed: bool)
      requires Valid()
      modifies this`transitionTimer, this`phaseTransitioning, this`invulnerable,
               this`damage, this`speed, this`specialAttackInterval
      ensures Valid()
      ensures completed <==> old(phaseTransitioning) && old(transitionTimer) + dt >= TRANSITION_DURATION
      ensures old(phaseTransitioning) ==> transitionTimer == old(transitionTimer) + dt
      ensures !old(phaseTransitioning) ==> transitionTimer == old(transitionTimer)
      ensures phaseTransitioning == (old(phaseTransitioning) && !completed)
      ensures completed ==>
        (damage, speed, specialAttackInterval) ==
        PhaseUpgrade(kind, phase, old(damage), old(speed), old(specialAttackInterval))
      ensures !completed ==>
        damage == old(damage) && speed == old(speed) && specialAttackInterval == old(specialAttackInterval)
    {
      completed := false;
      if phaseTransitioning {
        transitionTimer := transitionTimer + dt;
        if transitionTimer >= TRANSITION_DURATION {
          phaseTransitioning := false;
          invulnerable := false;
          OnPhaseChange();
          completed := true;
        }
      }
    }

    /** on_phase_change: the LavaTornadoBoss grows stronger and attacks more often; the TsunamiBoss only announces it. */
    method OnPhaseChange()
      modifies this`damage, this`speed, this`specialAttackInterval
      ensures (damage, speed, specialAttackInterval) ==
        PhaseUpgrade(kind, phase, old(damage), old(speed), old(specialAttackInterval))
    {
      if kind == LavaTornado {
        if phase == 2 {
          damage := Trunc(damage as real * 1.3);
          speed := Trunc(speed * 1.2) as real;
          specialAttackInterval := 2.5;
        } else if phase == 3 {
          damage := Trunc(damage as real * 1.5);
          speed := Trunc(speed * 1.4) as real;
          specialAttackInterval := 2.0;
        }
      }
    }

    /**
     * update_special_attacks: when the interval has passed and no
     * transition is running, the boss's special attack fires (adding
     * `fired` to the list) and the clock restarts; then every attack
     * updates and the finished ones are dropped.
     */
    method UpdateSpecialAttacks(dt: real, now: real, fired: seq<SpecialAttack>, player: PlayerModule.Player,
                                sqrt: real -> real) returns (hurts: seq<real>, attacked: bool)
      modifies this`specialAttacks, this`lastSpecialAttack, player`vx, player`vy
      ensures attacked <==> now - old(lastSpecialAttack) >= specialAttackInterval && !phaseTransitioning
      ensures lastSpecialAttack == if attacked then now else old(lastSpecialAttack)
      ensures var all := if attacked then old(specialAttacks) + fired else old(specialAttacks);
        specialAttacks == AdvanceAttacks(all, dt, now, player.x, player.y, sqrt) &&
        hurts == AttackHurts(all, dt, now, player.x, player.y, sqrt) &&
        (player.vx, player.vy) ==
          (old(player.vx) + AttackPush(all, dt, now, player.x, player.y, sqrt).0,
           old(player.vy) + AttackPush(all, dt, now, player.x, player.y, sqrt).1)
    {
      attacked := false;
      if now - lastSpecialAttack >= specialAttackInterval && !phaseTransitioning {
        specialAttacks := specialAttacks + fired;
        lastSpecialAttack := now;
        attacked := true;
      }
      hurts := RunAttacks(dt, now, player, sqrt);
    }

    /** The filtering pass of update_special_attacks, one attack at a time. */
    method RunAttacks(dt: real, now: real, player: PlayerModule.Player, sqrt: real -> real) returns (hurts: seq<real>)
      modifies this`specialAttacks, player`vx, player`vy
      ensures specialAttacks == AdvanceAttacks(old(specialAttacks), dt, now, player.x, player.y, sqrt)
      ensures hurts == AttackHurts(old(specialAttacks), dt, now, player.x, player.y, sqrt)
      ensures (player.vx, player.vy) ==
        (old(player.vx) + AttackPush(old(specialAttacks), dt, now, player.x, player.y, sqrt).0,
         old(player.vy) + AttackPush(old(specialAttacks), dt, now, player.x, player.y, sqrt).1)
    {
      var kept, pushX, pushY;
      kept, hurts, pushX, pushY := ScanAttacks(specialAttacks, dt, now, player.x, player.y, sqrt);
      player.vx, player.vy := player.vx + pushX, player.vy + pushY;
      specialAttacks := kept;
    }

    /** The loop of update_special_attacks over a list of attacks: the kept attacks, the damages and the push. */
    static method ScanAttacks(atks: seq<SpecialAttack>, dt: real, now: real, px: real, py: real, sqrt: real -> real)
      returns (kept: seq<SpecialAttack>, hurts: seq<real>, pushX: real, pushY: real)
      ensures kept == AdvanceAttacks(atks, dt, now, px, py, sqrt)
      ensures hurts == AttackHurts(atks, dt, now, px, py, sqrt)
      ensures (pushX, pushY) == AttackPush(atks, dt, now, px, py, sqrt)
    {
      kept, hurts, pushX, pushY := [], [], 0.0, 0.0;
      var i := 0;
      while i < |atks|
        invariant 0 <= i <= |atks|
        invariant kept == AdvanceAttacks(atks[..i], dt, now, px, py, sqrt)
        invariant hurts == AttackHurts(atks[..i], dt, now, px, py, sqrt)
        invariant (pushX, pushY) == AttackPush(atks[..i], dt, now, px, py, sqrt)
      {
        AttacksStep(atks, i, dt, now, px, py, sqrt);
        var s := AttackUpdate(atks[i], dt, now, px, py, sqrt);
        pushX, pushY := pushX + s.pushX, pushY + s.pushY;
        hurts := hurts + if s.hurt != 0.0 then [s.hurt] else [];
        kept := kept + if s.keep then [s.next] else [];
        i := i + 1;
      }
      assert atks[..i] == atks;
    }
  }

  /** Damage taken by a valid boss never lowers its phase nor lifts it past the last one. */
  lemma PhaseBounds(phase0: int, phase1: int)
    requires 1 <= phase0 <= MAX_PHASES && phase0 <= phase1 <= phase0 + 1
    requires phase1 > phase0 ==> phase0 < MAX_PHASES
    ensures 1 <= phase1 <= MAX_PHASES
  {
  }

  // ---------------------------------------------------------------- the manager

  /** should_spawn_boss: every third wave. */
  predicate ShouldSpawnBoss(waveNumber: int)
  {
    waveNumber % 3 == 0 && waveNumber > 0
  }

  /** A boss appears exactly on the waves 3, 6, 9, ... */
  lemma ShouldSpawnBossEveryThird(waveNumber: int)
    ensures ShouldSpawnBoss(waveNumber) <==> exists k :: k >= 1 && waveNumber == 3 * k
  {
    if ShouldSpawnBoss(waveNumber) {
      var k := waveNumber / 3;
      assert waveNumber == 3 * k;
    }
  }

  /** level_theme as spawn_boss reads it; any other theme (the "parkour" of the src level manager) is OtherTheme. */
  datatype Theme = Volcano | Underwater | Hurricane | OtherTheme

  class BossManager {
    var currentBoss: Option<Boss>
    var bossActive: bool
    var musicPlaying: bool
    var bossDefeatedTimer: real

    constructor ()
      ensures currentBoss == None && !bossActive && !musicPlaying && bossDefeatedTimer == 0.0
    {
      currentBoss, bossActive, musicPlaying, bossDefeatedTimer := None, false, false, 0.0;
    }

    /**
     * spawn_boss: unless a living boss exists, a boss for the level's theme
     * (the hurricane stand-in is lava); on any other theme no boss is made,
     * yet the battle and its music still start.
     */
    method SpawnBoss(theme: Theme, speed0: real)
      modifies this`currentBoss, this`bossActive, this`musicPlaying
      ensures old(currentBoss).Some? && old(currentBoss).value.isAlive ==>
        currentBoss == old(currentBoss) && bossActive == old(bossActive) && musicPlaying == old(musicPlaying)
      ensures !(old(currentBoss).Some? && old(currentBoss).value.isAlive) ==> bossActive && musicPlaying
      ensures !(old(currentBoss).Some? && old(currentBoss).value.isAlive) && theme == OtherTheme ==>
        currentBoss == old(currentBoss)
      ensures !(old(currentBoss).Some? && old(currentBoss).value.isAlive) && theme != OtherTheme ==>
        currentBoss.Some? && fresh(currentBoss.value) &&
        currentBoss.value.kind == (if theme == Underwater then Tsunami else LavaTornado) &&
        currentBoss.value.phase == 1 && currentBoss.value.Valid()
    {
      if currentBoss.Some? && currentBoss.value.isAlive {
        return;
      }
      if theme != OtherTheme {
        var b := new Boss(if theme == Underwater then Tsunami else LavaTornado, speed0);
        currentBoss := Some(b);
      }
      bossActive := true;
      musicPlaying := true;
    }

    /**
     * update: nothing without an active boss; once the boss is dead the
     * timer runs, and after 2 s the battle ends and the defeat is reported
     * once.
     */
    method Update(dt: real) returns (defeated: Option<bool>)
      modifies this`bossActive, this`musicPlaying, this`bossDefeatedTimer
      ensures !old(bossActive) || currentBoss.None? ==>
        defeated == None && bossActive == old(bossActive) && bossDefeatedTimer == old(bossDefeatedTimer)
      ensures old(bossActive) && currentBoss.Some? && currentBoss.value.isAlive ==>
        defeated == Some(false) && bossActive && bossDefeatedTimer == old(bossDefeatedTimer)
      ensures old(bossActive) && currentBoss.Some? && !currentBoss.value.isAlive ==>
        defeated.Some? &&
        (defeated.value <==> old(bossDefeatedTimer) + dt >= 2.0) &&
        (defeated.value ==> !bossActive && !musicPlaying && bossDefeatedTimer == 0.0) &&
        (!defeated.value ==> bossActive && bossDefeatedTimer == old(bossDefeatedTimer) + dt)
    {
      if !bossActive || currentBoss.None? {
        return None;
      }
      if !currentBoss.value.isAlive {
        bossDefeatedTimer := bossDefeatedTimer + dt;
        if bossDefeatedTimer >= 2.0 {
          bossActive := false;
          musicPlaying := false;
          bossDefeatedTimer := 0.0;
          return Some(true);
        }
      }
      return Some(false);
    }

    /** get_current_boss: the boss while the battle is active, otherwise none. */
    function CurrentBoss(): (b: Option<Boss>)
      reads this`currentBoss, this`bossActive
      ensures b.Some? <==> bossActive && currentBoss.Some?
      ensures b.Some? ==> b == currentBoss
    {
      if bossActive then currentBoss else None
    }
  }

  /** After a reported defeat the manager no longer hands out the boss. */
  lemma DefeatHidesBoss(m: BossManager)
    requires !m.bossActive
    ensures m.CurrentBoss() == None
  {
  }
}
