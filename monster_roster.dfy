// The monster list both monster managers keep (monster_manager.py and
// src/systems/monster_manager.py): each monster as a value record, the
// filter that drops the dead, the kill count, and the two distance
// queries, get_monsters_in_range and get_closest_monster, which the two
// managers write identically. Distances come from a square-root function
// `sqrt` the caller supplies.

module MonsterRoster {
  import opened GameObjects
  import opened Config

  datatype Kind = Lava | Water | Tornado

  /** A small monster as a manager sees it: kind, position, stats, life and home platform. */
  datatype Mob = Mob(kind: Kind, x: real, y: real, maxHealth: int, health: int, damage: int,
                     alive: bool, home: Option<Rect>)

  /** LavaMonster(x, y), WaterMonster(x, y) or TornadoMonster(x, y): the kind's configured health and damage. */
  function Spawned(kind: Kind, x: real, y: real): (m: Mob)
    ensures m.alive && m.home.None? && m.health == m.maxHealth > 0 && m.damage > 0
    ensures m.x == x && m.y == y && m.kind == kind
  {
    match kind
    case Lava => Mob(Lava, x, y, LAVA_MONSTER_HEALTH, LAVA_MONSTER_HEALTH, LAVA_MONSTER_DAMAGE, true, None)
    case Water => Mob(Water, x, y, WATER_MONSTER_HEALTH, WATER_MONSTER_HEALTH, WATER_MONSTER_DAMAGE, true, None)
    case Tornado => Mob(Tornado, x, y, TORNADO_MONSTER_HEALTH, TORNADO_MONSTER_HEALTH, TORNADO_MONSTER_DAMAGE, true, None)
  }

  /** get_monster_stats: alive count, kills, wave, alive monsters per kind and the cap. */
  datatype MonsterStats = MonsterStats(totalAlive: int, totalKilled: int, currentWave: int,
                                       lava: int, water: int, tornado: int, maxMonsters: int)

  /** The alive monsters, in their original order. */
  function AliveOnly(ms: seq<Mob>): (r: seq<Mob>)
    ensures |r| <= |ms|
    ensures forall k :: 0 <= k < |r| ==> r[k].alive
    decreases |ms|
  {
    if ms == [] then []
    else if ms[|ms| - 1].alive then AliveOnly(ms[..|ms| - 1]) + [ms[|ms| - 1]]
    else AliveOnly(ms[..|ms| - 1])
  }

  /** The number of dead monsters. */
  function DeadCount(ms: seq<Mob>): nat
    decreases |ms|
  {
    if ms == [] then 0 else DeadCount(ms[..|ms| - 1]) + (if ms[|ms| - 1].alive then 0 else 1)
  }

  function AliveCount(ms: seq<Mob>): nat
  {
    |AliveOnly(ms)|
  }

  /** The positions of the alive monsters. */
  function AliveSet(ms: seq<Mob>): set<int>
  {
    set i | 0 <= i < |ms| && ms[i].alive
  }

  /** Every monster is either kept alive or counted dead; the kept ones are exactly the alive ones. */
  lemma {:induction false} AliveOnlyPartition(ms: seq<Mob>, m: Mob)
    ensures AliveCount(ms) + DeadCount(ms) == |ms|
    ensures m in AliveOnly(ms) <==> m in ms && m.alive
    decreases |ms|
  {
    if ms != [] {
      var pre := ms[..|ms| - 1];
      AliveOnlyPartition(pre, m);
      assert ms == pre + [ms[|ms| - 1]];
    }
  }

  /** The filter works piecewise over a concatenation. */
  lemma {:induction false} AliveOnlyAppend(a: seq<Mob>, b: seq<Mob>)
    ensures AliveOnly(a + b) == AliveOnly(a) + AliveOnly(b)
    decreases |b|
  {
    if b != [] {
      var pre := b[..|b| - 1];
      var last := b[|b| - 1];
      AliveOnlyAppend(a, pre);
      assert (a + b)[..|a + b| - 1] == a + pre;
      assert (a + b)[|a + b| - 1] == last;
      assert AliveOnly(b) == if last.alive then AliveOnly(pre) + [last] else AliveOnly(pre);
      assert AliveOnly(a + b) == if last.alive then AliveOnly(a + pre) + [last] else AliveOnly(a + pre);
      if last.alive {
        assert AliveOnly(a) + (AliveOnly(pre) + [last]) == (AliveOnly(a) + AliveOnly(pre)) + [last];
      }
    } else {
      assert a + b == a;
    }
  }

  /** Filtering twice changes nothing more. */
  lemma {:induction false} AliveOnlyIdempotent(ms: seq<Mob>)
    ensures AliveOnly(AliveOnly(ms)) == AliveOnly(ms)
    decreases |ms|
  {
    if ms != [] {
      var pre := ms[..|ms| - 1];
      AliveOnlyIdempotent(pre);
      if ms[|ms| - 1].alive {
        AliveOnlyAppend(AliveOnly(pre), [ms[|ms| - 1]]);
        assert AliveOnly([ms[|ms| - 1]]) == [ms[|ms| - 1]] by {
          assert [ms[|ms| - 1]][..0] == [];
        }
      }
    }
  }

  /** The alive count is the number of alive positions. */
  lemma {:induction false} AliveCountIsSetSize(ms: seq<Mob>)
    ensures AliveCount(ms) == |AliveSet(ms)|
    decreases |ms|
  {
    if ms != [] {
      var n := |ms| - 1;
      var pre := ms[..n];
      AliveCountIsSetSize(pre);
      assert n !in AliveSet(pre);
      if ms[n].alive {
        assert AliveSet(ms) == AliveSet(pre) + {n};
      } else {
        assert AliveSet(ms) == AliveSet(pre);
      }
    }
  }

  /** A sequence of alive monsters is its own alive filter. */
  lemma {:induction false} AllAlive(ms: seq<Mob>)
    requires forall k :: 0 <= k < |ms| ==> ms[k].alive
    ensures AliveOnly(ms) == ms
    decreases |ms|
  {
    if ms != [] {
      AllAlive(ms[..|ms| - 1]);
    }
  }

  /** Distance from (x, y) to a monster's top-left corner. */
  function MobDist(m: Mob, x: real, y: real, sqrt: real -> real): real
  {
    sqrt(DistSq(x, y, m.x, m.y))
  }

  /** The alive monsters within `range` of (x, y), in order. */
  function InRange(ms: seq<Mob>, x: real, y: real, range: real, sqrt: real -> real): (r: seq<Mob>)
    ensures |r| <= |ms|
    decreases |ms|
  {
    if ms == [] then []
    else
      var rest := InRange(ms[..|ms| - 1], x, y, range, sqrt);
      var m := ms[|ms| - 1];
      if m.alive && MobDist(m, x, y, sqrt) <= range then rest + [m] else rest
  }

  /** get_monsters_in_range returns exactly the alive monsters no farther than the range. */
  lemma {:induction false} InRangeMembers(ms: seq<Mob>, x: real, y: real, range: real, sqrt: real -> real, m: Mob)
    ensures m in InRange(ms, x, y, range, sqrt) <==> m in ms && m.alive && MobDist(m, x, y, sqrt) <= range
    decreases |ms|
  {
    if ms != [] {
      var pre := ms[..|ms| - 1];
      InRangeMembers(pre, x, y, range, sqrt, m);
      assert ms == pre + [ms[|ms| - 1]];
    }
  }

  /** How many alive monsters of a kind. */
  function KindCount(ms: seq<Mob>, kind: Kind): nat
    decreases |ms|
  {
    if ms == [] then 0
    else KindCount(ms[..|ms| - 1], kind) + (if ms[|ms| - 1].alive && ms[|ms| - 1].kind == kind then 1 else 0)
  }

  /** The positions of the alive monsters of a kind. */
  function KindSet(ms: seq<Mob>, kind: Kind): set<int>
  {
    set i | 0 <= i < |ms| && ms[i].alive && ms[i].kind == kind
  }

  /** The per-kind count is the number of positions holding an alive monster of that kind. */
  lemma {:induction false} KindCountIsSetSize(ms: seq<Mob>, kind: Kind)
    ensures KindCount(ms, kind) == |KindSet(ms, kind)|
    decreases |ms|
  {
    if ms != [] {
      var n := |ms| - 1;
      var pre := ms[..n];
      KindCountIsSetSize(pre, kind);
      assert n !in KindSet(pre, kind);
      if ms[n].alive && ms[n].kind == kind {
        assert KindSet(ms, kind) == KindSet(pre, kind) + {n};
      } else {
        assert KindSet(ms, kind) == KindSet(pre, kind);
      }
    }
  }

  /** Every alive monster is a lava, a water or a tornado monster. */
  lemma {:induction false} KindsAddUp(ms: seq<Mob>)
    ensures KindCount(ms, Lava) + KindCount(ms, Water) + KindCount(ms, Tornado) == AliveCount(ms)
    decreases |ms|
  {
    if ms != [] {
      KindsAddUp(ms[..|ms| - 1]);
    }
  }

  /** `c` is what get_closest_monster finds: the first alive monster at the least distance, or none when none is alive. */
  predicate IsClosest(ms: seq<Mob>, x: real, y: real, sqrt: real -> real, c: Option<int>)
  {
    (c.None? <==> forall j :: 0 <= j < |ms| ==> !ms[j].alive) &&
    (c.Some? ==>
      0 <= c.value < |ms| && ms[c.value].alive &&
      (forall j :: 0 <= j < |ms| && ms[j].alive ==> MobDist(ms[c.value], x, y, sqrt) <= MobDist(ms[j], x, y, sqrt)) &&
      (forall j :: 0 <= j < c.value && ms[j].alive ==> MobDist(ms[c.value], x, y, sqrt) < MobDist(ms[j], x, y, sqrt)))
  }

  /** The running-minimum loop of get_closest_monster; the comparison is strict, so ties keep the earlier monster. */
  method Closest(ms: seq<Mob>, x: real, y: real, sqrt: real -> real) returns (c: Option<int>)
    ensures IsClosest(ms, x, y, sqrt, c)
  {
    c := None;
    var best := 0.0;
    var i := 0;
    while i < |ms|
      invariant 0 <= i <= |ms|
      invariant c.None? <==> forall j :: 0 <= j < i ==> !ms[j].alive
      invariant c.Some? ==>
        0 <= c.value < i && ms[c.value].alive && best == MobDist(ms[c.value], x, y, sqrt)
      invariant c.Some? ==> forall j :: 0 <= j < i && ms[j].alive ==> best <= MobDist(ms[j], x, y, sqrt)
      invariant c.Some? ==> forall j :: 0 <= j < c.value && ms[j].alive ==> best < MobDist(ms[j], x, y, sqrt)
    {
      if ms[i].alive {
        var d := MobDist(ms[i], x, y, sqrt);
        if c.None? || d < best {
          c, best := Some(i), d;
        }
      }
      i := i + 1;
    }
  }

  /** The loop of get_monsters_in_range. */
  method WithinRange(ms: seq<Mob>, x: real, y: real, range: real, sqrt: real -> real) returns (found: seq<Mob>)
    ensures found == InRange(ms, x, y, range, sqrt)
  {
    found := [];
    var i := 0;
    while i < |ms|
      invariant 0 <= i <= |ms|
      invariant found == InRange(ms[..i], x, y, range, sqrt)
    {
      assert ms[..i + 1][..i] == ms[..i];
      if ms[i].alive && MobDist(ms[i], x, y, sqrt) <= range {
        found := found + [ms[i]];
      }
      i := i + 1;
    }
    assert ms[..i] == ms;
  }

  /** The loop of remove_dead_monsters: the alive monsters in order, and how many were dead. */
  method CullDead(ms: seq<Mob>) returns (kept: seq<Mob>, dead: int)
    ensures kept == AliveOnly(ms) && dead == DeadCount(ms)
  {
    kept := [];
    dead := 0;
    var i := 0;
    while i < |ms|
      invariant 0 <= i <= |ms|
      invariant kept == AliveOnly(ms[..i])
      invariant dead == DeadCount(ms[..i])
    {
      assert ms[..i + 1][..i] == ms[..i];
      if ms[i].alive {
        kept := kept + [ms[i]];
      } else {
        dead := dead + 1;
      }
      i := i + 1;
    }
    assert ms[..i] == ms;
  }
}
