// Bullets and the WeaponManager of src/entities/weapon.py: per-type base
// damage, straight-line flight with a range check, bullet creation from
// shot information (one or several), melee hit detection, the per-frame
// update that drops inactive bullets, and bullet-target collisions in which
// each bullet hits at most the first target it overlaps.
//
// Bullets are values in the manager's `bullets` sequence; the in-place
// updates of a bullet's fields become rewrites of its entry. Targets are
// given by their collision rects; what a hit does to a target is reported
// back as the list of hits (see README).

module Weapon {
  import opened GameObjects
  import opened Config
  import PlayerModule

  /** Bullet.max_distance: the range past which a bullet deactivates. */
  const MAX_DISTANCE: real := 9999.0

  /** A bullet: position, unit direction, speed, weapon type, damage, the active flag and where it started. */
  datatype Bullet = Bullet(x: real, y: real, dirX: real, dirY: real, speed: real,
                           kind: string, damage: int, active: bool, startX: real, startY: real)
  {
    /** The collision rect, which update_rect keeps on the truncated position. */
    function Box(): Rect { RectOf(x, y, BULLET_SIZE, BULLET_SIZE) }
  }

  predicate IsWeaponKind(kind: string)
  {
    kind == "machine_gun" || kind == "assault_rifle" || kind == "shotgun" || kind == "sniper"
  }

  /** get_base_damage: the per-weapon table with 20 for any other type. */
  function BaseDamage(kind: string): (d: int)
    ensures d >= 15
    ensures d == 20 <==> !IsWeaponKind(kind)
    ensures kind == "sniper" ==> d == 100
    ensures kind == "machine_gun" ==> d == 15
  {
    if kind == "machine_gun" then 15
    else if kind == "assault_rifle" then 40
    else if kind == "shotgun" then 25
    else if kind == "sniper" then 100
    else 20
  }

  /** Bullet(x, y, dx, dy, type): active, at its start, at BULLET_SPEED with the base damage of its type. */
  function NewBullet(x: real, y: real, dx: real, dy: real, kind: string): Bullet
  {
    Bullet(x, y, dx, dy, BULLET_SPEED, kind, BaseDamage(kind), true, x, y)
  }

  /** Bullet.update: an inactive bullet stays; an active one moves one step and deactivates past the range. */
  function Step(b: Bullet): (s: Bullet)
    ensures !b.active ==> s == b
    ensures b.active ==>
      s.x == b.x + b.dirX * b.speed && s.y == b.y + b.dirY * b.speed &&
      (s.active <==> DistSq(s.startX, s.startY, s.x, s.y) <= MAX_DISTANCE * MAX_DISTANCE)
    ensures s.(x := b.x, y := b.y, active := b.active) == b
  {
    if !b.active then b
    else
      var nx := b.x + b.dirX * b.speed;
      var ny := b.y + b.dirY * b.speed;
      b.(x := nx, y := ny, active := !(DistSq(b.startX, b.startY, nx, ny) > MAX_DISTANCE * MAX_DISTANCE))
  }

  /** get_damage_against_target: the bullet's own damage and no status effect, whatever the target. */
  function DamageAgainst(b: Bullet, targetKind: string): (r: (int, Option<StatusEffect>))
    ensures r.0 == b.damage && r.1 == None
  {
    (b.damage, None)
  }

  // ---------------------------------------------------------------- creation

  /** One bullet's information: its start, direction and type, with optional damage and speed overrides. */
  datatype BulletInfo = BulletInfo(kind: string, startX: real, startY: real, dirX: real, dirY: real,
                                   damage: Option<int>, speed: Option<real>)

  /** What create_bullet is given: nothing, one bullet's information, or a list of them. */
  datatype ShotRequest = NoShot | OneShot(info: BulletInfo) | Volley(infos: seq<BulletInfo>)

  /** The information the player's shot produces: no overrides. */
  function FromShot(s: PlayerModule.ShotInfo): BulletInfo
  {
    BulletInfo(s.bulletType, s.startX, s.startY, s.dirX, s.dirY, None, None)
  }

  /** _create_single_bullet: a new bullet, with the damage and speed overrides applied when given. */
  function MakeBullet(info: BulletInfo): (b: Bullet)
    ensures b.active && b.x == b.startX == info.startX && b.y == b.startY == info.startY
    ensures b.damage == (if info.damage.Some? then info.damage.value else BaseDamage(info.kind))
    ensures b.speed == (if info.speed.Some? then info.speed.value else BULLET_SPEED)
    ensures info.damage.None? && info.speed.None? ==>
      b == NewBullet(info.startX, info.startY, info.dirX, info.dirY, info.kind)
  {
    var b := NewBullet(info.startX, info.startY, info.dirX, info.dirY, info.kind);
    var b := if info.damage.Some? then b.(damage := info.damage.value) else b;
    if info.speed.Some? then b.(speed := info.speed.value) else b
  }

  /** The information create_bullet turns into bullets, in order. */
  function Infos(req: ShotRequest): seq<BulletInfo>
  {
    match req
    case NoShot => []
    case OneShot(info) => [info]
    case Volley(infos) => infos
  }

  // ---------------------------------------------------------------- lists

  /** The bullets after every one has taken its Step. */
  function Stepped(bs: seq<Bullet>): (r: seq<Bullet>)
    ensures |r| == |bs| && forall i :: 0 <= i < |bs| ==> r[i] == Step(bs[i])
  {
    seq(|bs|, i requires 0 <= i < |bs| => Step(bs[i]))
  }

  /** [b for b in bs if b.is_active] */
  function Live(bs: seq<Bullet>): (r: seq<Bullet>)
    ensures |r| <= |bs|
    ensures forall b :: b in r ==> b.active
    decreases |bs|
  {
    if bs == [] then []
    else
      var rest := Live(bs[..|bs| - 1]);
      if bs[|bs| - 1].active then rest + [bs[|bs| - 1]] else rest
  }

  /** Live keeps exactly the active bullets. */
  lemma {:induction false} LiveMembers(bs: seq<Bullet>, b: Bullet)
    ensures b in Live(bs) <==> b in bs && b.active
    decreases |bs|
  {
    if bs != [] {
      var pre := bs[..|bs| - 1];
      LiveMembers(pre, b);
      assert bs == pre + [bs[|bs| - 1]];
    }
  }

  /** A list of active bullets passes through Live unchanged. */
  lemma {:induction false} LiveOfActive(bs: seq<Bullet>)
    requires forall i :: 0 <= i < |bs| ==> bs[i].active
    ensures Live(bs) == bs
    decreases |bs|
  {
    if bs != [] {
      LiveOfActive(bs[..|bs| - 1]);
      assert bs[..|bs| - 1] + [bs[|bs| - 1]] == bs;
    }
  }

  /** Live(bs) has one entry per active bullet of bs. */
  function ActiveCount(bs: seq<Bullet>): nat
  {
    if bs == [] then 0 else ActiveCount(bs[..|bs| - 1]) + (if bs[|bs| - 1].active then 1 else 0)
  }

  lemma {:induction false} LiveCount(bs: seq<Bullet>)
    ensures |Live(bs)| == ActiveCount(bs)
    decreases |bs|
  {
    if bs != [] {
      LiveCount(bs[..|bs| - 1]);
    }
  }

  // ---------------------------------------------------------------- hits

  /** The first target, in list order, whose rect overlaps `r`. */
  function FirstHit(r: Rect, ts: seq<Rect>): (j: Option<nat>)
    ensures j.Some? ==> j.value < |ts| && Collide(r, ts[j.value]) &&
                        forall k :: 0 <= k < j.value ==> !Collide(r, ts[k])
    ensures j.None? <==> forall k :: 0 <= k < |ts| ==> !Collide(r, ts[k])
    decreases |ts|
  {
    if ts == [] then None
    else if Collide(r, ts[0]) then Some(0)
    else
      assert forall k :: 1 <= k < |ts| ==> ts[k] == ts[1..][k - 1];
      match FirstHit(r, ts[1..])
      case None => None
      case Some(k) => Some(k + 1)
  }

  /** One entry of check_bullet_collisions' result: which bullet hit which target, for how much. */
  datatype Collision = Collision(bullet: nat, target: nat, damage: int)

  /** The collisions of check_bullet_collisions: each active bullet against its first overlapping target. */
  function Hits(bs: seq<Bullet>, ts: seq<Rect>): (r: seq<Collision>)
    ensures |r| <= |bs|
    ensures forall c :: c in r ==> c.bullet < |bs|
    decreases |bs|
  {
    if bs == [] then []
    else
      var n := |bs| - 1;
      var rest := Hits(bs[..n], ts);
      if bs[n].active && FirstHit(bs[n].Box(), ts).Some? then
        rest + [Collision(n, FirstHit(bs[n].Box(), ts).value, DamageAgainst(bs[n], "").0)]
      else rest
  }

  /** Hits and the removal list on one more bullet: the new bullet's collision and index, when it hits, come last. */
  lemma ScanStep(bs: seq<Bullet>, i: int, ts: seq<Rect>)
    requires 0 <= i < |bs|
    ensures Hits(bs[..i + 1], ts) ==
      if bs[i].active && FirstHit(bs[i].Box(), ts).Some? then
        Hits(bs[..i], ts) + [Collision(i, FirstHit(bs[i].Box(), ts).value, DamageAgainst(bs[i], "").0)]
      else Hits(bs[..i], ts)
    ensures RemovalList(bs[..i + 1], ts) ==
      RemovalList(bs[..i], ts) + if bs[i].active && FirstHit(bs[i].Box(), ts).Some? then [i] else []
  {
    assert bs[..i + 1][..i] == bs[..i];
  }

  /** The bullets_to_remove list of check_bullet_collisions: the indices of the active bullets that hit a target. */
  function RemovalList(bs: seq<Bullet>, ts: seq<Rect>): seq<nat>
    decreases |bs|
  {
    if bs == [] then []
    else
      var n := |bs| - 1;
      RemovalList(bs[..n], ts) + (if bs[n].active && FirstHit(bs[n].Box(), ts).Some? then [n] else [])
  }

  /** A bullet is listed for removal exactly when it is active and overlaps some target. */
  lemma {:induction false} RemovalListExact(bs: seq<Bullet>, ts: seq<Rect>, k: int)
    ensures k in RemovalList(bs, ts) <==> 0 <= k < |bs| && bs[k].active && FirstHit(bs[k].Box(), ts).Some?
    decreases |bs|
  {
    if bs != [] {
      var n := |bs| - 1;
      RemovalListExact(bs[..n], ts, k);
      if 0 <= k < n {
        assert bs[..n][k] == bs[k];
      }
    }
  }

  /** A collision is reported exactly for an active bullet, against its first overlapping target, with its damage. */
  lemma {:induction false} HitsExact(bs: seq<Bullet>, ts: seq<Rect>, c: Collision)
    ensures c in Hits(bs, ts) <==>
      c.bullet < |bs| && bs[c.bullet].active &&
      FirstHit(bs[c.bullet].Box(), ts) == Some(c.target) && c.damage == bs[c.bullet].damage
    decreases |bs|
  {
    if bs != [] {
      var n := |bs| - 1;
      HitsExact(bs[..n], ts, c);
      if c.bullet < n {
        assert bs[..n][c.bullet] == bs[c.bullet];
      }
    }
  }

  /** Bullets are reported in list order, each at most once. */
  lemma {:induction false} HitsAscend(bs: seq<Bullet>, ts: seq<Rect>)
    ensures forall i, j :: 0 <= i < j < |Hits(bs, ts)| ==> Hits(bs, ts)[i].bullet < Hits(bs, ts)[j].bullet
    decreases |bs|
  {
    if bs != [] {
      HitsAscend(bs[..|bs| - 1], ts);
    }
  }

  /** The bullets after check_bullet_collisions: each bullet that hit something is deactivated. */
  function Deactivated(bs: seq<Bullet>, ts: seq<Rect>): (r: seq<Bullet>)
    ensures |r| == |bs|
    ensures forall i :: 0 <= i < |bs| ==> r[i].(active := bs[i].active) == bs[i]
  {
    seq(|bs|, i requires 0 <= i < |bs| => bs[i].(active := bs[i].active && FirstHit(bs[i].Box(), ts).None?))
  }

  /** A bullet stays active after the collision check exactly when it was active and hit nothing. */
  lemma DeactivatedExact(bs: seq<Bullet>, ts: seq<Rect>, i: int)
    requires 0 <= i < |bs|
    ensures Deactivated(bs, ts)[i].active <==> bs[i].active && forall k :: 0 <= k < |ts| ==> !Collide(bs[i].Box(), ts[k])
  {
  }

  /** The targets whose rects overlap the melee attack rect, as indices in list order. */
  function MeleeHits(a: Rect, ts: seq<Rect>): (r: seq<nat>)
    ensures |r| <= |ts|
    decreases |ts|
  {
    if ts == [] then []
    else
      var rest := MeleeHits(a, ts[..|ts| - 1]);
      if Collide(a, ts[|ts| - 1]) then rest + [|ts| - 1] else rest
  }

  /** Exactly the overlapping targets are hit, in ascending order. */
  lemma {:induction false} MeleeHitsExact(a: Rect, ts: seq<Rect>)
    ensures forall k :: k in MeleeHits(a, ts) <==> 0 <= k < |ts| && Collide(a, ts[k])
    ensures forall i, j :: 0 <= i < j < |MeleeHits(a, ts)| ==> MeleeHits(a, ts)[i] < MeleeHits(a, ts)[j]
    decreases |ts|
  {
    if ts != [] {
      var pre := ts[..|ts| - 1];
      MeleeHitsExact(a, pre);
      var rest := MeleeHits(a, pre);
      forall i | 0 <= i < |rest|
        ensures rest[i] < |ts| - 1
      {
        assert rest[i] in rest;
      }
      assert forall k :: 0 <= k < |pre| ==> pre[k] == ts[k];
    }
  }

  // ---------------------------------------------------------------- the manager

  class WeaponManager {
    var bullets: seq<Bullet>

    constructor ()
      ensures bullets == []
    {
      bullets := [];
    }

    /** create_bullet: one new bullet per piece of information, appended in order and returned. */
    method CreateBullet(req: ShotRequest) returns (created: seq<Bullet>)
      modifies this`bullets
      ensures |created| == |Infos(req)|
      ensures forall i :: 0 <= i < |created| ==> created[i] == MakeBullet(Infos(req)[i])
      ensures bullets == old(bullets) + created
    {
      if req.NoShot? {
        return [];
      }
      var infos := Infos(req);
      created := [];
      var i := 0;
      while i < |infos|
        invariant 0 <= i <= |infos|
        invariant |created| == i && forall k :: 0 <= k < i ==> created[k] == MakeBullet(infos[k])
      {
        created := created + [MakeBullet(infos[i])];
        i := i + 1;
      }
      bullets := bullets + created;
    }

    /** handle_melee_attack: the targets the attack rect overlaps, in list order; none without an attack. */
    method HandleMeleeAttack(melee: Option<PlayerModule.MeleeInfo>, targets: seq<Rect>) returns (hit: seq<nat>)
      ensures melee.None? ==> hit == []
      ensures melee.Some? ==> hit == MeleeHits(melee.value.attackRect, targets)
    {
      if melee.None? {
        return [];
      }
      var a := melee.value.attackRect;
      hit := [];
      var i := 0;
      while i < |targets|
        invariant 0 <= i <= |targets|
        invariant hit == MeleeHits(a, targets[..i])
      {
        assert targets[..i + 1][..i] == targets[..i];
        if Collide(a, targets[i]) {
          hit := hit + [i];
        }
        i := i + 1;
      }
      assert targets[..i] == targets;
    }

    /** update_bullets: every bullet takes its step, then the inactive ones are dropped. */
    method UpdateBullets()
      modifies this`bullets
      ensures bullets == Live(Stepped(old(bullets)))
    {
      var i := 0;
      while i < |bullets|
        invariant 0 <= i <= |bullets| == |old(bullets)|
        invariant forall k :: 0 <= k < i ==> bullets[k] == Step(old(bullets)[k])
        invariant forall k :: i <= k < |bullets| ==> bullets[k] == old(bullets)[k]
      {
        bullets := bullets[i := Step(bullets[i])];
        i := i + 1;
      }
      assert bullets == Stepped(old(bullets));
      bullets := Live(bullets);
    }

    /** The scan for the first target a bullet overlaps. */
    static method FindTarget(r: Rect, targets: seq<Rect>) returns (j: Option<nat>)
      ensures j == FirstHit(r, targets)
    {
      var k := 0;
      while k < |targets|
        invariant 0 <= k <= |targets|
        invariant forall m :: 0 <= m < k ==> !Collide(r, targets[m])
      {
        if Collide(r, targets[k]) {
          return Some(k);
        }
        k := k + 1;
      }
      return None;
    }

    /**
     * check_bullet_collisions: each active bullet hits the first target it
     * overlaps, and every bullet that hit is then deactivated.
     */
    method CheckBulletCollisions(targets: seq<Rect>) returns (results: seq<Collision>)
      modifies this`bullets
      ensures results == Hits(old(bullets), targets)
      ensures bullets == Deactivated(old(bullets), targets)
    {
      var toRemove;
      results, toRemove := ScanHits(bullets, targets);
      RemoveListed(toRemove, targets);
    }

    /** One bullet of check_bullet_collisions: an active bullet against the targets, until the first hit. */
    static method ScanOne(b: Bullet, i: nat, targets: seq<Rect>) returns (hit: Option<Collision>)
      ensures hit.Some? <==> b.active && FirstHit(b.Box(), targets).Some?
      ensures hit.Some? ==> hit.value == Collision(i, FirstHit(b.Box(), targets).value, DamageAgainst(b, "").0)
    {
      hit := None;
      if b.active {
        var j := FindTarget(b.Box(), targets);
        if j.Some? {
          var (damage, _) := DamageAgainst(b, "");
          hit := Some(Collision(i, j.value, damage));
        }
      }
    }

    /** The first pass of check_bullet_collisions: the collisions, and the bullets to deactivate. */
    static method ScanHits(bs: seq<Bullet>, targets: seq<Rect>) returns (results: seq<Collision>, toRemove: seq<nat>)
      ensures results == Hits(bs, targets)
      ensures forall k :: k in toRemove <==> 0 <= k < |bs| && bs[k].active && FirstHit(bs[k].Box(), targets).Some?
    {
      results := [];
      toRemove := [];
      var i: nat := 0;
      while i < |bs|
        invariant 0 <= i <= |bs|
        invariant results == Hits(bs[..i], targets)
        invariant toRemove == RemovalList(bs[..i], targets)
      {
        ScanStep(bs, i, targets);
        var hit := ScanOne(bs[i], i, targets);
        if hit.Some? {
          results := results + [hit.value];
          toRemove := toRemove + [i];
        }
        i := i + 1;
      }
      assert bs[..i] == bs;
      forall k
        ensures k in toRemove <==> 0 <= k < |bs| && bs[k].active && FirstHit(bs[k].Box(), targets).Some?
      {
        RemovalListExact(bs, targets, k);
      }
    }

    /** The second pass of check_bullet_collisions: every listed bullet is deactivated. */
    method RemoveListed(toRemove: seq<nat>, targets: seq<Rect>)
      requires forall k :: k in toRemove <==> 0 <= k < |bullets| && bullets[k].active && FirstHit(bullets[k].Box(), targets).Some?
      modifies this`bullets
      ensures bullets == Deactivated(old(bullets), targets)
    {
      var m := 0;
      while m < |toRemove|
        invariant 0 <= m <= |toRemove| && |bullets| == |old(bullets)|
        invariant forall k :: 0 <= k < |bullets| ==>
          bullets[k] == if k in toRemove[..m] then old(bullets)[k].(active := false) else old(bullets)[k]
      {
        var k := toRemove[m];
        assert k in toRemove;
        assert toRemove[..m + 1] == toRemove[..m] + [k];
        bullets := bullets[k := bullets[k].(active := false)];
        m := m + 1;
      }
      assert toRemove[..m] == toRemove;
    }

    /** update: step and filter the bullets, then check collisions when there are targets. */
    method Update(targets: seq<Rect>) returns (results: seq<Collision>)
      modifies this`bullets
      ensures targets == [] ==> results == [] && bullets == Live(Stepped(old(bullets)))
      ensures targets != [] ==>
        results == Hits(Live(Stepped(old(bullets))), targets) &&
        bullets == Deactivated(Live(Stepped(old(bullets))), targets)
    {
      UpdateBullets();
      results := [];
      if targets != [] {
        results := CheckBulletCollisions(targets);
      }
    }

    /** get_bullet_count: the number of active bullets. */
    function BulletCount(): (n: nat)
      reads this`bullets
      ensures n == ActiveCount(bullets)
    {
      LiveCount(bullets);
      |Live(bullets)|
    }

    /** clear_all_bullets */
    method ClearAllBullets()
      modifies this`bullets
      ensures bullets == []
    {
      bullets := [];
    }
  }

  /** Right after update_bullets every bullet is active, so the count is the length of the list. */
  lemma CountAfterUpdate(bs: seq<Bullet>)
    ensures ActiveCount(Live(Stepped(bs))) == |Live(Stepped(bs))|
  {
    var live := Live(Stepped(bs));
    LiveOfActive(live);
    LiveCount(live);
  }
}
