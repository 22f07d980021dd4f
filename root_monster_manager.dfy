// The older, wave-based monster manager (monster_manager.py): a spawn
// cap, a spawn position found by up to twenty random tries, stats scaled
// by the wave, a spawn interval that shrinks with the wave, and a wave
// that advances every ten kills and raises the cap and the weights. The
// random draws are parameters; monsters are the shared roster records.

module RootMonsterManager {
  import opened GameObjects
  import opened Config
  import opened MonsterRoster

  // ---------------------------------------------------------------- spawn position

  /** One try of get_spawn_position: from the left or right edge at a drawn height, or from the top at a drawn x. */
  datatype Attempt = FromSide(right: bool, y: int) | FromTop(x: int)

  /** The draws random.randint can make: heights in [100, SCREEN_HEIGHT - 200], top positions in [50, SCREEN_WIDTH - 50]. */
  predicate Drawn(a: Attempt)
  {
    match a
    case FromSide(_, y) => 100 <= y <= SCREEN_HEIGHT - 200
    case FromTop(x) => 50 <= x <= SCREEN_WIDTH - 50
  }

  predicate AllDrawn(tries: seq<Attempt>)
  {
    forall i :: 0 <= i < |tries| ==> Drawn(tries[i])
  }

  /** The candidate corner a try proposes. */
  function Candidate(a: Attempt): (p: (int, int))
    ensures Drawn(a) ==> 0 <= p.0 <= SCREEN_WIDTH - 50 && 0 <= p.1 <= SCREEN_HEIGHT - 200
  {
    match a
    case FromSide(right, y) => (if right then SCREEN_WIDTH - 50 else 0, y)
    case FromTop(x) => (x, 0)
  }

  /** The 50 x 50 box a monster would take at a corner. */
  function SpawnBox(p: (int, int)): Rect
  {
    Rect(p.0, p.1, 50, 50)
  }

  /** No platform overlaps the box at this corner. */
  predicate Free(p: (int, int), platforms: seq<Rect>)
  {
    forall k :: 0 <= k < |platforms| ==> !Collide(SpawnBox(p), platforms[k])
  }

  /** Where monsters appear when every try is blocked. */
  const FALLBACK: (int, int) := (SCREEN_WIDTH - 50, 100)

  /** The first free candidate among the tries, or the fallback corner. */
  function FirstFree(tries: seq<Attempt>, platforms: seq<Rect>): (int, int)
    decreases |tries|
  {
    if tries == [] then FALLBACK
    else if Free(Candidate(tries[0]), platforms) then Candidate(tries[0])
    else FirstFree(tries[1..], platforms)
  }

  /**
   * The spawn position is either a free candidate from the tries, with
   * every earlier candidate blocked, or the fallback after all of them
   * were blocked.
   */
  lemma {:induction false} FirstFreeSafe(tries: seq<Attempt>, platforms: seq<Rect>)
    ensures var p := FirstFree(tries, platforms);
      (exists i :: 0 <= i < |tries| && p == Candidate(tries[i]) && Free(p, platforms) &&
         forall j :: 0 <= j < i ==> !Free(Candidate(tries[j]), platforms)) ||
      (p == FALLBACK && forall j :: 0 <= j < |tries| ==> !Free(Candidate(tries[j]), platforms))
    decreases |tries|
  {
    if tries != [] && !Free(Candidate(tries[0]), platforms) {
      FirstFreeSafe(tries[1..], platforms);
      var p := FirstFree(tries, platforms);
      if exists i :: 0 <= i < |tries[1..]| && p == Candidate(tries[1..][i]) && Free(p, platforms) &&
           forall j :: 0 <= j < i ==> !Free(Candidate(tries[1..][j]), platforms) {
        var i :| 0 <= i < |tries[1..]| && p == Candidate(tries[1..][i]) && Free(p, platforms) &&
           forall j :: 0 <= j < i ==> !Free(Candidate(tries[1..][j]), platforms);
        assert p == Candidate(tries[i + 1]);
        forall j | 0 <= j < i + 1
          ensures !Free(Candidate(tries[j]), platforms)
        {
          if j > 0 {
            assert tries[j] == tries[1..][j - 1];
          }
        }
      } else {
        forall j | 0 <= j < |tries|
          ensures !Free(Candidate(tries[j]), platforms)
        {
          if j > 0 {
            assert tries[j] == tries[1..][j - 1];
          }
        }
      }
    }
  }

  /** With tries drawn in range, the spawn position lies on screen, clear of the bottom 200 px. */
  lemma {:induction false} FirstFreeOnScreen(tries: seq<Attempt>, platforms: seq<Rect>)
    requires AllDrawn(tries)
    ensures var p := FirstFree(tries, platforms);
      0 <= p.0 <= SCREEN_WIDTH - 50 && 0 <= p.1 <= SCREEN_HEIGHT - 200
    decreases |tries|
  {
    if tries != [] {
      assert Drawn(tries[0]);
      FirstFreeOnScreen(tries[1..], platforms);
    }
  }

  /** The platform loop of one try: whether any platform overlaps the box, stopping at the first. */
  method Blocked(box: Rect, platforms: seq<Rect>) returns (collision: bool)
    ensures collision <==> exists k :: 0 <= k < |platforms| && Collide(box, platforms[k])
  {
    collision := false;
    var k := 0;
    while k < |platforms|
      invariant 0 <= k <= |platforms|
      invariant forall j :: 0 <= j < k ==> !Collide(box, platforms[j])
    {
      if Collide(box, platforms[k]) {
        return true;
      }
      k := k + 1;
    }
  }

  /** get_spawn_position: twenty tries, returning the first free candidate; the fallback otherwise. */
  method GetSpawnPosition(platforms: seq<Rect>, tries: seq<Attempt>) returns (p: (int, int))
    requires |tries| == 20
    ensures p == FirstFree(tries, platforms)
  {
    var n := 0;
    while n < 20
      invariant 0 <= n <= 20
      invariant FirstFree(tries, platforms) == FirstFree(tries[n..], platforms)
    {
      var candidate := Candidate(tries[n]);
      var collision := Blocked(SpawnBox(candidate), platforms);
      assert tries[n..][1..] == tries[n + 1..];
      if !collision {
        return candidate;
      }
      n := n + 1;
    }
    return FALLBACK;
  }

  // ---------------------------------------------------------------- waves

  /** adjust_monster_stats: +10% maximum health and +5% damage per wave after the first, truncated; full health. */
  function Scaled(m: Mob, wave: int): Mob
  {
    var hp := Trunc(m.maxHealth as real * (1.0 + (wave - 1) as real * 0.1));
    m.(maxHealth := hp, health := hp, damage := Trunc(m.damage as real * (1.0 + (wave - 1) as real * 0.05)))
  }

  /** From wave 1 on, a scaled monster is at full health and no weaker than the one spawned; wave 1 changes nothing else. */
  lemma ScaledNeverWeaker(m: Mob, wave: int)
    requires wave >= 1 && m.maxHealth >= 0 && m.damage >= 0
    ensures var s := Scaled(m, wave);
      s.health == s.maxHealth >= m.maxHealth && s.damage >= m.damage &&
      s.(maxHealth := m.maxHealth, health := m.health, damage := m.damage) == m
    ensures wave == 1 ==> Scaled(m, wave) == m.(health := m.maxHealth)
  {
    var h := m.maxHealth as real * (1.0 + (wave - 1) as real * 0.1);
    assert h >= m.maxHealth as real;
    var d := m.damage as real * (1.0 + (wave - 1) as real * 0.05);
    assert d >= m.damage as real;
  }

  /** The spawn cap a wave has: one more every third wave, at most 10. */
  function CapFor(wave: int): int
  {
    MinI(10, 6 + wave / 3)
  }

  function MinI(a: int, b: int): int
  {
    if a <= b then a else b
  }

  /** The spawn weights of lava, water and tornado monsters a wave has. */
  function WeightsFor(wave: int): (w: seq<int>)
    ensures |w| == 3 && forall i :: 0 <= i < 3 ==> w[i] > 0
  {
    if wave >= 5 then [2, 2, 2] else if wave >= 3 then [1, 1, 2] else [1, 1, 1]
  }

  /** The cap never shrinks from one wave to the next and stays within [6, 10]. */
  lemma CapGrows(wave: int)
    requires wave >= 1
    ensures 6 <= CapFor(wave) <= CapFor(wave + 1) <= 10
    ensures CapFor(wave + 1) == if (wave + 1) % 3 == 0 then MinI(10, CapFor(wave) + 1) else CapFor(wave)
  {
  }

  /** What update reports. */
  datatype RootReport = RootReport(monstersKilled: int, waveAdvanced: bool, newMonster: bool,
                                   currentWave: int, totalKilled: int)

  class MonsterManager {
    var monsters: seq<Mob>
    var spawnTimer: real
    const spawnInterval: real
    var maxMonsters: int
    var waveNumber: int
    var monstersKilled: int
    var spawnWeights: seq<int>

    /** The cap and the weights are those of the current wave; the wave starts at 1; kills are never negative. */
    predicate Valid()
      reads this
    {
      spawnInterval == 5.0 && waveNumber >= 1 && monstersKilled >= 0 &&
      maxMonsters == CapFor(waveNumber) && spawnWeights == WeightsFor(waveNumber)
    }

    constructor ()
      ensures Valid()
      ensures monsters == [] && spawnTimer == 0.0 && waveNumber == 1 && monstersKilled == 0
      ensures maxMonsters == 6 && spawnWeights == [1, 1, 1]
    {
      monsters := [];
      spawnTimer := 0.0;
      spawnInterval := 5.0;
      maxMonsters := 6;
      waveNumber := 1;
      monstersKilled := 0;
      spawnWeights := [1, 1, 1];
    }

    /**
     * spawn_monster: nothing at the cap; otherwise one monster of the drawn
     * kind at the spawn position, scaled to the wave, without a home
     * platform. get_spawn_position always yields a position, so the
     * source's check for none never fires.
     */
    method SpawnMonster(platforms: seq<Rect>, tries: seq<Attempt>, kind: Kind) returns (m: Option<Mob>)
      requires |tries| == 20
      modifies this`monsters
      ensures |old(monsters)| >= maxMonsters ==> m.None? && monsters == old(monsters)
      ensures |old(monsters)| < maxMonsters ==>
        var p := FirstFree(tries, platforms);
        m == Some(Scaled(Spawned(kind, p.0 as real, p.1 as real), waveNumber)) &&
        monsters == old(monsters) + [m.value]
    {
      if |monsters| >= maxMonsters {
        return None;
      }
      var p := GetSpawnPosition(platforms, tries);
      var newcomer := Scaled(Spawned(kind, p.0 as real, p.1 as real), waveNumber);
      monsters := monsters + [newcomer];
      return Some(newcomer);
    }

    /** The spawn interval of the current wave: 0.2 s shorter per wave, never below 2 s. */
    function CurrentInterval(): (t: real)
      reads this`waveNumber
      ensures t >= 2.0
      ensures t == 2.0 || t == spawnInterval - (waveNumber - 1) as real * 0.2
      ensures waveNumber >= 1 && spawnInterval >= 2.0 ==> t <= spawnInterval
    {
      MaxR(2.0, spawnInterval - (waveNumber - 1) as real * 0.2)
    }

    /** update_spawn_timer: add dt; once the wave's interval is reached, restart from 0 and report a spawn. */
    method UpdateSpawnTimer(dt: real) returns (due: bool)
      modifies this`spawnTimer
      ensures due <==> old(spawnTimer) + dt >= CurrentInterval()
      ensures spawnTimer == if due then 0.0 else old(spawnTimer) + dt
    {
      spawnTimer := spawnTimer + dt;
      var interval := MaxR(2.0, spawnInterval - (waveNumber - 1) as real * 0.2);
      if spawnTimer >= interval {
        spawnTimer := 0.0;
        return true;
      }
      return false;
    }

    /** remove_dead_monsters: keep the alive monsters in order; each dead one is a kill. */
    method RemoveDeadMonsters() returns (killed: int)
      modifies this`monsters, this`monstersKilled
      ensures monsters == AliveOnly(old(monsters))
      ensures killed == DeadCount(old(monsters)) && monstersKilled == old(monstersKilled) + killed
    {
      var kept, dead := CullDead(monsters);
      monsters := kept;
      monstersKilled := monstersKilled + dead;
      killed := dead;
    }

    /**
     * advance_to_next_wave: the next wave, its cap and weights, and the
     * spawn timer set to the full interval so the next timer check spawns.
     */
    method AdvanceToNextWave()
      requires Valid()
      modifies this`waveNumber, this`maxMonsters, this`spawnWeights, this`spawnTimer
      ensures Valid()
      ensures waveNumber == old(waveNumber) + 1
      ensures maxMonsters == if waveNumber % 3 == 0 then MinI(10, old(maxMonsters) + 1) else old(maxMonsters)
      ensures spawnTimer == spawnInterval && spawnTimer >= CurrentInterval()
    {
      CapGrows(waveNumber);
      waveNumber := waveNumber + 1;
      if waveNumber % 3 == 0 {
        maxMonsters := MinI(10, maxMonsters + 1);
      }
      if waveNumber >= 3 {
        spawnWeights := [1, 1, 2];
      }
      if waveNumber >= 5 {
        spawnWeights := [2, 2, 2];
      }
      spawnTimer := spawnInterval;
    }

    /** check_wave_completion: advance exactly when the kills reach ten per wave so far, by one wave. */
    method CheckWaveCompletion() returns (advanced: bool)
      requires Valid()
      modifies this`waveNumber, this`maxMonsters, this`spawnWeights, this`spawnTimer
      ensures Valid()
      ensures advanced <==> old(monstersKilled) >= old(waveNumber) * 10
      ensures waveNumber == old(waveNumber) + if advanced then 1 else 0
      ensures !advanced ==> spawnTimer == old(spawnTimer)
      ensures advanced ==> spawnTimer >= CurrentInterval()
    {
      if monstersKilled >= waveNumber * 10 {
        AdvanceToNextWave();
        return true;
      }
      return false;
    }

    /**
     * update (without each monster's own update): remove the dead, maybe
     * advance the wave, then the spawn timer and maybe one new monster.
     */
    method Update(platforms: seq<Rect>, dt: real, tries: seq<Attempt>, kind: Kind) returns (r: RootReport)
      requires Valid() && |tries| == 20 && dt >= 0.0
      modifies this`monsters, this`monstersKilled, this`waveNumber, this`maxMonsters, this`spawnWeights,
               this`spawnTimer
      ensures Valid()
      ensures r.monstersKilled == DeadCount(old(monsters))
      ensures r.totalKilled == monstersKilled == old(monstersKilled) + r.monstersKilled
      ensures r.waveAdvanced <==> monstersKilled >= old(waveNumber) * 10
      ensures r.currentWave == waveNumber == old(waveNumber) + if r.waveAdvanced then 1 else 0
      ensures r.waveAdvanced && |AliveOnly(old(monsters))| < maxMonsters ==> r.newMonster
      ensures r.newMonster ==> |monsters| == |AliveOnly(old(monsters))| + 1 <= maxMonsters
      ensures !r.newMonster ==> monsters == AliveOnly(old(monsters))
    {
      var killed := RemoveDeadMonsters();
      var advanced := CheckWaveCompletion();
      var newcomer: Option<Mob> := None;
      var due := UpdateSpawnTimer(dt);
      if due {
        newcomer := SpawnMonster(platforms, tries, kind);
      }
      r := RootReport(killed, advanced, newcomer.Some?, waveNumber, monstersKilled);
    }

    /** get_monsters_in_range: the alive monsters no farther than the range, in order. */
    method GetMonstersInRange(x: real, y: real, range: real, sqrt: real -> real) returns (found: seq<Mob>)
      ensures found == InRange(monsters, x, y, range, sqrt)
    {
      found := WithinRange(monsters, x, y, range, sqrt);
    }

    /** get_closest_monster: the earliest alive monster at the least distance, or nothing when none is alive. */
    method GetClosestMonster(x: real, y: real, sqrt: real -> real) returns (c: Option<int>)
      ensures IsClosest(monsters, x, y, sqrt, c)
    {
      c := Closest(monsters, x, y, sqrt);
    }

    /** clear_all_monsters: everything back to how the constructor left it. */
    method ClearAllMonsters()
      requires Valid()
      modifies this`monsters, this`spawnTimer, this`waveNumber, this`monstersKilled, this`maxMonsters,
               this`spawnWeights
      ensures Valid()
      ensures monsters == [] && spawnTimer == 0.0 && waveNumber == 1 && monstersKilled == 0
      ensures maxMonsters == 6 && spawnWeights == [1, 1, 1]
    {
      monsters := [];
      spawnTimer := 0.0;
      waveNumber := 1;
      monstersKilled := 0;
      maxMonsters := 6;
      spawnWeights := [1, 1, 1];
    }

    /** get_monster_count: the alive monsters, which are the alive positions of the list. */
    function GetMonsterCount(): (n: int)
      reads this
      ensures n == |AliveSet(monsters)| && 0 <= n <= |monsters|
    {
      AliveCountIsSetSize(monsters);
      AliveCount(monsters)
    }

    /** get_monster_stats: alive count, kills, wave, alive monsters per kind and the cap. */
    function GetMonsterStats(): (s: MonsterStats)
      reads this
      ensures s.lava + s.water + s.tornado == s.totalAlive == GetMonsterCount()
      ensures s.lava == |KindSet(monsters, Lava)| && s.water == |KindSet(monsters, Water)|
      ensures s.tornado == |KindSet(monsters, Tornado)|
      ensures s.totalKilled == monstersKilled && s.currentWave == waveNumber && s.maxMonsters == maxMonsters
    {
      KindsAddUp(monsters);
      KindCountIsSetSize(monsters, Lava);
      KindCountIsSetSize(monsters, Water);
      KindCountIsSetSize(monsters, Tornado);
      MonsterStats(GetMonsterCount(), monstersKilled, waveNumber, KindCount(monsters, Lava),
                   KindCount(monsters, Water), KindCount(monsters, Tornado), maxMonsters)
    }
  }
}
