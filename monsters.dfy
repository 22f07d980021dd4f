// The Monster base class of src/entities/monsters.py: status effects,
// detection and attack checks, the attack/chase/patrol AI, body physics
// (knockback, gravity, home-platform clamp, minimum-overlap collision,
// screen clamp), damage, and the projectile dictionaries that the monster
// archetypes fire.

module Monsters {
  import opened GameObjects
  import opened Config
  import PlayerModule

  datatype AiState = Patrol | Chase | Attack

  // ---------------------------------------------------------------- body physics

  /** The fields that update_physics changes. */
  datatype Body = Body(x: real, y: real, vx: real, vy: real, onGround: bool, direction: int)

  /** Knockback: push along its direction, decay by 0.8, snap to 0 below 1. */
  function Knockback(b: Body, kv: real, kd: int): (r: (Body, real))
    ensures kv > 0.0 ==> r.0 == b.(vx := b.vx + kd as real * kv) && r.1 == (if kv * 0.8 < 1.0 then 0.0 else kv * 0.8)
    ensures kv <= 0.0 ==> r == (b, kv)
    ensures kv >= 0.0 ==> 0.0 <= r.1 <= kv
  {
    if kv > 0.0 then
      var decayed := kv * 0.8;
      (b.(vx := b.vx + kd as real * kv), if decayed < 1.0 then 0.0 else decayed)
    else (b, kv)
  }

  /** Gravity while airborne, capped at MAX_FALL_SPEED, then the position step. */
  function FallAndMove(b: Body): (r: Body)
    ensures b.onGround ==> r.vy == b.vy
    ensures !b.onGround ==> r.vy <= MAX_FALL_SPEED
    ensures !b.onGround && b.vy <= MAX_FALL_SPEED - GRAVITY ==> r.vy == b.vy + GRAVITY
    ensures r.x == b.x + r.vx && r.y == b.y + r.vy && r.vx == b.vx
  {
    var vy := if b.onGround then b.vy
              else if b.vy + GRAVITY > MAX_FALL_SPEED then MAX_FALL_SPEED else b.vy + GRAVITY;
    b.(vy := vy, x := b.x + b.vx, y := b.y + vy)
  }

  /** check_platform_boundary with home platform `home`. */
  function HomeClamp(b: Body, home: Option<Rect>, margin: int, w: int): (r: Body)
    ensures home.None? ==> r == b
  {
    match home
    case None => b
    case Some(p) =>
      if b.x <= (p.x + margin) as real then
        b.(x := (p.x + margin) as real, direction := 1, vx := 0.0)
      else if b.x + w as real >= (p.x + p.w - margin) as real then
        b.(x := (p.x + p.w - margin - w) as real, direction := -1, vx := 0.0)
      else b
  }

  /** On a home platform wide enough for the monster and both margins, the clamp keeps it inside. */
  lemma HomeClampKeepsInside(b: Body, p: Rect, margin: int, w: int)
    requires p.w >= 2 * margin + w
    ensures var r := HomeClamp(b, Some(p), margin, w);
      (p.x + margin) as real <= r.x <= (p.x + p.w - margin - w) as real
    ensures var r := HomeClamp(b, Some(p), margin, w);
      r.x != b.x ==> r.vx == 0.0 && (r.direction == 1 <==> b.x <= (p.x + margin) as real)
  {
  }

  /** One platform of handle_collisions; side contacts turn the patrol direction away from the wall. */
  function ResolvePlatform(b: Body, mr: Rect, p: Rect, w: int, h: int): (r: Body)
    ensures !Collide(mr, p) ==> r == b
    ensures r.onGround && !b.onGround ==> b.vy > 0.0 && r.vy == 0.0 && r.y == (p.y - h) as real
    ensures r.y != b.y ==> r.vy == 0.0 && (b.vy > 0.0 || b.vy < 0.0)
    ensures r.direction != b.direction ==> (r.direction == -1 && b.vx > 0.0) || (r.direction == 1 && b.vx < 0.0)
    ensures r.vx == b.vx
  {
    if !Collide(mr, p) then b
    else
      var overlapLeft := mr.Right() - p.x;
      var overlapRight := p.Right() - mr.x;
      var overlapTop := mr.Bottom() - p.y;
      var overlapBottom := p.Bottom() - mr.y;
      var least := PlayerModule.Min4(overlapLeft, overlapRight, overlapTop, overlapBottom);
      if least == overlapTop && b.vy > 0.0 then b.(y := (p.y - h) as real, vy := 0.0, onGround := true)
      else if least == overlapBottom && b.vy < 0.0 then b.(y := p.Bottom() as real, vy := 0.0)
      else if least == overlapLeft && b.vx > 0.0 then b.(x := (p.x - w) as real, direction := -1)
      else if least == overlapRight && b.vx < 0.0 then b.(x := p.Right() as real, direction := 1)
      else b
  }

  function ResolveAll(b: Body, mr: Rect, ps: seq<Rect>, w: int, h: int): Body
    decreases |ps|
  {
    if ps == [] then b
    else ResolvePlatform(ResolveAll(b, mr, ps[..|ps| - 1], w, h), mr, ps[|ps| - 1], w, h)
  }

  /** The patrol direction stays a unit step through any list of platforms. */
  lemma {:induction false} ResolveAllDirection(b: Body, mr: Rect, ps: seq<Rect>, w: int, h: int)
    requires IsSide(b.direction)
    ensures IsSide(ResolveAll(b, mr, ps, w, h).direction)
    ensures ResolveAll(b, mr, ps, w, h).vx == b.vx
    decreases |ps|
  {
    if ps != [] {
      ResolveAllDirection(b, mr, ps[..|ps| - 1], w, h);
    }
  }

  /** A monster lands only on a platform that overlaps its rect. */
  lemma {:induction false} LandingNeedsContact(b: Body, mr: Rect, ps: seq<Rect>, w: int, h: int)
    requires !b.onGround
    ensures ResolveAll(b, mr, ps, w, h).onGround ==> exists i :: 0 <= i < |ps| && Collide(mr, ps[i])
    decreases |ps|
  {
    if ps != [] {
      var prefix := ps[..|ps| - 1];
      LandingNeedsContact(b, mr, prefix, w, h);
      if ResolveAll(b, mr, prefix, w, h).onGround {
        var i :| 0 <= i < |prefix| && Collide(mr, prefix[i]);
        assert ps[i] == prefix[i];
      }
    }
  }

  /** The screen clamp of update_physics; hitting an edge turns the monster inward. */
  function ScreenClamp(b: Body, w: int): (r: Body)
    requires 0 <= w <= SCREEN_WIDTH
    ensures 0.0 <= r.x <= (SCREEN_WIDTH - w) as real
    ensures r.x != b.x ==> (r.x == 0.0 && r.direction == 1) || (r.x == (SCREEN_WIDTH - w) as real && r.direction == -1)
    ensures 0.0 <= b.x <= (SCREEN_WIDTH - w) as real ==> r == b
  {
    if b.x < 0.0 then b.(x := 0.0, direction := 1)
    else if b.x + w as real > SCREEN_WIDTH as real then b.(x := (SCREEN_WIDTH - w) as real, direction := -1)
    else b
  }

  // ---------------------------------------------------------------- projectiles

  /** A lava ball or water bullet dictionary. */
  datatype Projectile = Projectile(x: real, y: real, vx: real, vy: real, damage: int,
                                   lifetime: real, createdTime: real)

  predicate OnScreen(x: real, y: real)
  {
    0.0 <= x <= SCREEN_WIDTH as real && 0.0 <= y <= SCREEN_HEIGHT as real
  }

  predicate Expired(createdTime: real, lifetime: real, now: real)
  {
    now - createdTime > lifetime
  }

  function Moved(p: Projectile): Projectile
  {
    p.(x := p.x + p.vx, y := p.y + p.vy)
  }

  /** The one-frame fate of a projectile: gone when expired or off screen after its move. */
  predicate Survives(p: Projectile, now: real)
  {
    !Expired(p.createdTime, p.lifetime, now) && OnScreen(Moved(p).x, Moved(p).y)
  }

  /**
   * update_lava_balls / update_water_bullets: drop expired entries, move
   * the rest, keep those still on screen, in order.
   */
  function AdvanceProjectiles(ps: seq<Projectile>, now: real): (r: seq<Projectile>)
    ensures |r| <= |ps|
    ensures forall q :: q in r ==> OnScreen(q.x, q.y)
    decreases |ps|
  {
    if ps == [] then []
    else
      var rest := AdvanceProjectiles(ps[..|ps| - 1], now);
      var p := ps[|ps| - 1];
      if Survives(p, now) then rest + [Moved(p)] else rest
  }

  /** A projectile is kept, moved, exactly when some original survives the frame and moves onto it. */
  lemma {:induction false} AdvanceProjectilesMembers(ps: seq<Projectile>, now: real, q: Projectile)
    ensures q in AdvanceProjectiles(ps, now) <==> exists p :: p in ps && Survives(p, now) && q == Moved(p)
    decreases |ps|
  {
    if ps != [] {
      var pre := ps[..|ps| - 1];
      var last := ps[|ps| - 1];
      AdvanceProjectilesMembers(pre, now, q);
      assert ps == pre + [last];
      if exists p :: p in ps && Survives(p, now) && q == Moved(p) {
        var p :| p in ps && Survives(p, now) && q == Moved(p);
        if p != last {
          assert p in pre;
        }
      }
    }
  }

  /** The loop of update_lava_balls / update_water_bullets, building the survivors list. */
  method AdvanceAll(ps: seq<Projectile>, now: real) returns (active: seq<Projectile>)
    ensures active == AdvanceProjectiles(ps, now)
  {
    active := [];
    var i := 0;
    while i < |ps|
      invariant 0 <= i <= |ps|
      invariant active == AdvanceProjectiles(ps[..i], now)
    {
      assert ps[..i + 1][..i] == ps[..i];
      var p := ps[i];
      if !Expired(p.createdTime, p.lifetime, now) {
        var m := Moved(p);
        if OnScreen(m.x, m.y) {
          active := active + [m];
        }
      }
      i := i + 1;
    }
    assert ps[..i] == ps;
  }

  /** The collision box of a projectile, `half` pixels around its centre. */
  function BoxAround(x: real, y: real, half: int): Rect
  {
    RectOf(x - half as real, y - half as real, 2 * half, 2 * half)
  }

  predicate Hits(p: Projectile, half: int, target: Rect)
  {
    Collide(BoxAround(p.x, p.y, half), target)
  }

  /** The projectiles that miss `target`, in order. */
  function Misses(ps: seq<Projectile>, half: int, target: Rect): (r: seq<Projectile>)
    ensures |r| <= |ps|
    ensures forall q :: q in r ==> q in ps && !Hits(q, half, target)
    decreases |ps|
  {
    if ps == [] then []
    else
      var rest := Misses(ps[..|ps| - 1], half, target);
      if Hits(ps[|ps| - 1], half, target) then rest else rest + [ps[|ps| - 1]]
  }

  /** The damages of the projectiles that hit `target`, in order. */
  function HitDamages(ps: seq<Projectile>, half: int, target: Rect): (r: seq<int>)
    ensures |r| <= |ps|
    decreases |ps|
  {
    if ps == [] then []
    else
      var rest := HitDamages(ps[..|ps| - 1], half, target);
      if Hits(ps[|ps| - 1], half, target) then rest + [ps[|ps| - 1].damage] else rest
  }

  /** Hits and misses split the list: every projectile either damages once or survives. */
  lemma {:induction false} HitsAndMissesPartition(ps: seq<Projectile>, half: int, target: Rect)
    ensures |HitDamages(ps, half, target)| + |Misses(ps, half, target)| == |ps|
    ensures HitDamages(ps, half, target) == [] <==> Misses(ps, half, target) == ps
    decreases |ps|
  {
    if ps != [] {
      HitsAndMissesPartition(ps[..|ps| - 1], half, target);
      assert ps[..|ps| - 1] + [ps[|ps| - 1]] == ps;
    }
  }

  // ---------------------------------------------------------------- deleting hit entries

  /** The entries of `s` whose position (counted from `from`) is not listed in `idx`. */
  function Unlisted<T>(s: seq<T>, idx: seq<int>, from: int): seq<T>
    decreases |s|
  {
    if s == [] then []
    else (if from in idx then [] else [s[0]]) + Unlisted(s[1..], idx, from + 1)
  }

  predicate Increasing(idx: seq<int>)
  {
    forall a, b :: 0 <= a < b < |idx| ==> idx[a] < idx[b]
  }

  /** No listed index falls in [lo, hi): that stretch is kept whole. */
  lemma {:induction false} UnlistedGap<T>(s: seq<T>, idx: seq<int>, from: int, k: nat)
    requires k <= |s|
    requires forall j :: from <= j < from + k ==> j !in idx
    ensures Unlisted(s, idx, from) == s[..k] + Unlisted(s[k..], idx, from + k)
    decreases k
  {
    if k > 0 {
      assert from !in idx;
      assert Unlisted(s, idx, from) == [s[0]] + Unlisted(s[1..], idx, from + 1);
      UnlistedGap(s[1..], idx, from + 1, k - 1);
      assert s[1..][..k - 1] == s[1..k];
      assert s[1..][k - 1..] == s[k..];
      assert s[..k] == [s[0]] + s[1..k];
    }
  }

  /** The position the deletion loop has reached after handling idx[j..]. */
  function Cut(n: int, idx: seq<int>, j: int): int
    requires 0 <= j <= |idx|
  {
    if j == |idx| then n else idx[j]
  }

  /** Between two consecutive entries of an increasing list nothing is listed. */
  lemma NothingBetween(idx: seq<int>, j: int, n: int)
    requires Increasing(idx)
    requires 0 < j <= |idx|
    ensures forall m :: idx[j - 1] < m < Cut(n, idx, j) ==> m !in idx
  {
  }

  /** Nothing before the first listed position is listed. */
  lemma NothingBefore(idx: seq<int>)
    requires Increasing(idx) && idx != []
    ensures forall m :: m < idx[0] ==> m !in idx
  {
  }

  /** A listed first position is dropped. */
  lemma UnlistedSkip<T>(s: seq<T>, idx: seq<int>, from: int)
    requires s != [] && from in idx
    ensures Unlisted(s, idx, from) == Unlisted(s[1..], idx, from + 1)
  {
  }

  /** From a listed position i up to c, Unlisted keeps exactly the stretch strictly between them. */
  lemma UnlistedFromListed<T>(s: seq<T>, idx: seq<int>, i: int, c: int)
    requires 0 <= i < c <= |s|
    requires i in idx
    requires forall m :: i < m < c ==> m !in idx
    ensures Unlisted(s[i..], idx, i) == s[i + 1..c] + Unlisted(s[c..], idx, c)
  {
    var t := s[i + 1..];
    UnlistedGap(t, idx, i + 1, c - (i + 1));
    assert t[..c - (i + 1)] == s[i + 1..c];
    assert t[c - (i + 1)..] == s[c..];
    UnlistedSkip(s[i..], idx, i);
    assert s[i..][1..] == t;
  }

  /** Deleting position i of a prefix-plus-tail sequence. */
  lemma DeleteAt<T>(s: seq<T>, tail: seq<T>, i: int, c: int)
    requires 0 <= i < c <= |s|
    ensures var r := s[..c] + tail; r[..i] + r[i + 1..] == s[..i] + (s[i + 1..c] + tail)
  {
    var r := s[..c] + tail;
    assert r[..i] == s[..i];
    assert r[i + 1..] == s[i + 1..c] + tail;
  }

  /**
   * `for i in reversed(indices): del s[i]`: deleting the listed positions
   * from the back leaves exactly the unlisted entries, in order.
   */
  method DeleteListed<T>(s: seq<T>, idx: seq<int>) returns (r: seq<T>)
    requires Increasing(idx)
    requires forall a :: 0 <= a < |idx| ==> 0 <= idx[a] < |s|
    ensures r == Unlisted(s, idx, 0)
  {
    r := s;
    var j := |idx|;
    assert s[..|s|] == s && s[|s|..] == [];
    while j > 0
      invariant 0 <= j <= |idx|
      invariant 0 <= Cut(|s|, idx, j) <= |s|
      invariant r == s[..Cut(|s|, idx, j)] + Unlisted(s[Cut(|s|, idx, j)..], idx, Cut(|s|, idx, j))
    {
      var i := idx[j - 1];
      NothingBetween(idx, j, |s|);
      UnlistedFromListed(s, idx, i, Cut(|s|, idx, j));
      DeleteAt(s, Unlisted(s[Cut(|s|, idx, j)..], idx, Cut(|s|, idx, j)), i, Cut(|s|, idx, j));
      r := r[..i] + r[i + 1..];
      j := j - 1;
    }
    if idx != [] {
      NothingBefore(idx);
      UnlistedGap(s, idx, 0, idx[0]);
    } else {
      UnlistedGap(s, idx, 0, |s|);
      assert s[|s|..] == [];
    }
  }

  /** With the hit positions listed, the unlisted entries are exactly the misses. */
  lemma {:induction false} UnlistedAreMisses(ps: seq<Projectile>, idx: seq<int>, from: int, half: int, target: Rect)
    requires forall k :: 0 <= k < |ps| ==> (from + k in idx <==> Hits(ps[k], half, target))
    ensures Unlisted(ps, idx, from) == Misses(ps, half, target)
    decreases |ps|
  {
    if ps != [] {
      var n := |ps| - 1;
      UnlistedGapLast(ps, idx, from);
      UnlistedAreMisses(ps[..n], idx, from, half, target);
    }
  }

  /** Peeling the last element of `s` off Unlisted. */
  lemma {:induction false} UnlistedGapLast<T>(s: seq<T>, idx: seq<int>, from: int)
    requires s != []
    ensures Unlisted(s, idx, from)
         == Unlisted(s[..|s| - 1], idx, from) + (if from + |s| - 1 in idx then [] else [s[|s| - 1]])
    decreases |s|
  {
    if |s| > 1 {
      UnlistedGapLast(s[1..], idx, from + 1);
      assert s[1..][..|s| - 2] == s[..|s| - 1][1..];
    }
  }

  /** HitDamages over one more projectile. */
  lemma HitDamagesStep(ps: seq<Projectile>, i: int, half: int, target: Rect)
    requires 0 <= i < |ps|
    ensures HitDamages(ps[..i + 1], half, target) ==
      HitDamages(ps[..i], half, target) + (if Hits(ps[i], half, target) then [ps[i].damage] else [])
  {
    assert ps[..i + 1][..i] == ps[..i];
  }

  /**
   * check_lava_ball_collision / check_water_bullet_collision: every
   * projectile whose box meets the player's rect damages the player once, in
   * order; the hit positions are then deleted back to front.
   */
  method StrikePlayer(ps: seq<Projectile>, half: int, player: PlayerModule.Player)
    returns (kept: seq<Projectile>, hit: bool)
    modifies player`health, player`isAlive
    ensures kept == Misses(ps, half, player.rect)
    ensures hit <==> HitDamages(ps, half, player.rect) != []
    ensures player.health == PlayerModule.HealthAfterHits(old(player.health), HitDamages(ps, half, player.rect))
    ensures player.isAlive ==
      (old(player.isAlive) && PlayerModule.SurvivesHits(old(player.health), HitDamages(ps, half, player.rect)))
  {
    var idx;
    idx, hit := MarkHits(ps, half, player);
    HitPositionsFacts(ps, |ps|, half, player.rect);
    assert ps[..|ps|] == ps;
    kept := DeleteListed(ps, idx);
    UnlistedAreMisses(ps, idx, 0, half, player.rect);
  }

  /** The positions below n of the projectiles that hit `target`, ascending. */
  function HitPositions(ps: seq<Projectile>, n: int, half: int, target: Rect): seq<int>
    requires 0 <= n <= |ps|
    decreases n
  {
    if n == 0 then []
    else HitPositions(ps, n - 1, half, target) + (if Hits(ps[n - 1], half, target) then [n - 1] else [])
  }

  /** The hit positions are ascending, in range, exactly the hits, and as many as the hit damages. */
  lemma HitPositionsFacts(ps: seq<Projectile>, n: int, half: int, target: Rect)
    requires 0 <= n <= |ps|
    ensures Increasing(HitPositions(ps, n, half, target))
    ensures forall a :: 0 <= a < |HitPositions(ps, n, half, target)| ==> 0 <= HitPositions(ps, n, half, target)[a] < n
    ensures forall k :: 0 <= k < n ==> (k in HitPositions(ps, n, half, target) <==> Hits(ps[k], half, target))
    ensures |HitPositions(ps, n, half, target)| == |HitDamages(ps[..n], half, target)|
  {
    HitPositionsAscend(ps, n, half, target);
    HitPositionsMembers(ps, n, half, target);
    HitPositionsCount(ps, n, half, target);
  }

  lemma {:induction false} HitPositionsAscend(ps: seq<Projectile>, n: int, half: int, target: Rect)
    requires 0 <= n <= |ps|
    ensures Increasing(HitPositions(ps, n, half, target))
    ensures forall a :: 0 <= a < |HitPositions(ps, n, half, target)| ==> 0 <= HitPositions(ps, n, half, target)[a] < n
    decreases n
  {
    if n > 0 {
      HitPositionsAscend(ps, n - 1, half, target);
    }
  }

  lemma {:induction false} HitPositionsMembers(ps: seq<Projectile>, n: int, half: int, target: Rect)
    requires 0 <= n <= |ps|
    ensures forall k :: 0 <= k < n ==> (k in HitPositions(ps, n, half, target) <==> Hits(ps[k], half, target))
    decreases n
  {
    if n > 0 {
      HitPositionsAscend(ps, n - 1, half, target);
      HitPositionsMembers(ps, n - 1, half, target);
    }
  }

  lemma {:induction false} HitPositionsCount(ps: seq<Projectile>, n: int, half: int, target: Rect)
    requires 0 <= n <= |ps|
    ensures |HitPositions(ps, n, half, target)| == |HitDamages(ps[..n], half, target)|
    decreases n
  {
    if n > 0 {
      HitPositionsCount(ps, n - 1, half, target);
      HitDamagesStep(ps, n - 1, half, target);
    }
  }

  /** The first loop of the collision checks: damage the player per hit and list the hit positions. */
  method MarkHits(ps: seq<Projectile>, half: int, player: PlayerModule.Player) returns (idx: seq<int>, hit: bool)
    modifies player`health, player`isAlive
    ensures idx == HitPositions(ps, |ps|, half, player.rect)
    ensures hit <==> idx != []
    ensures player.health == PlayerModule.HealthAfterHits(old(player.health), HitDamages(ps, half, player.rect))
    ensures player.isAlive ==
      (old(player.isAlive) && PlayerModule.SurvivesHits(old(player.health), HitDamages(ps, half, player.rect)))
  {
    idx := [];
    hit := false;
    var target := player.rect;
    ghost var h0, a0 := player.health, player.isAlive;
    var i := 0;
    while i < |ps|
      invariant 0 <= i <= |ps| && player.rect == target
      invariant idx == HitPositions(ps, i, half, target)
      invariant hit <==> idx != []
      invariant player.health == PlayerModule.HealthAfterHits(h0, HitDamages(ps[..i], half, target))
      invariant player.isAlive == (a0 && PlayerModule.SurvivesHits(h0, HitDamages(ps[..i], half, target)))
    {
      ghost var before := HitDamages(ps[..i], half, target);
      HitDamagesStep(ps, i, half, target);
      PlayerModule.HitsStep(h0, before, ps[i].damage);
      var struck := StrikeOne(ps[i], half, player);
      if struck {
        idx := idx + [i];
        hit := true;
      } else {
        assert HitDamages(ps[..i + 1], half, target) == before;
      }
      i := i + 1;
    }
    assert ps[..i] == ps;
  }

  /** One projectile of the collision loop: a hit damages the player. */
  method StrikeOne(p: Projectile, half: int, player: PlayerModule.Player) returns (struck: bool)
    modifies player`health, player`isAlive
    ensures struck == Hits(p, half, player.rect)
    ensures struck ==> player.health == PlayerModule.AfterDamage(old(player.health), p.damage) &&
                       player.isAlive == (old(player.isAlive) && old(player.health) - p.damage > 0)
    ensures !struck ==> player.health == old(player.health) && player.isAlive == old(player.isAlive)
  {
    struck := Hits(p, half, player.rect);
    if struck {
      var _ := player.TakeDamage(p.damage);
    }
  }

  // ---------------------------------------------------------------- the monster

  /** The running minimum of the effects' speed modifiers, starting from 1.0. */
  method LowestModifier(es: seq<StatusEffect>, now: real) returns (modifier: real)
    ensures modifier == MinModifier(es, now)
  {
    modifier := 1.0;
    var i := 0;
    while i < |es|
      invariant 0 <= i <= |es|
      invariant modifier == MinModifier(es[..i], now)
    {
      assert es[..i + 1][..i] == es[..i];
      modifier := MinR(modifier, SpeedModifier(es[i], now));
      i := i + 1;
    }
    assert es[..i] == es;
  }

  class Monster {
    var x: real
    var y: real
    const width: int
    const height: int
    var rect: Rect
    const monsterType: string
    var maxHealth: int
    var health: int
    var damage: int
    const baseSpeed: real
    var currentSpeed: real
    var vx: real
    var vy: real
    var direction: int
    var onGround: bool
    var homePlatform: Option<Rect>
    const platformMargin: int
    var aiState: AiState
    const detectionRange: real
    const attackRange: real
    const attackCooldown: real
    var lastAttackTime: real
    var statusEffects: seq<StatusEffect>
    var knockbackVelocity: real
    var knockbackDirection: int
    var isAlive: bool

    ghost predicate Valid()
      reads this`direction, this`health
    {
      0 < width <= SCREEN_WIDTH && 0 < height && platformMargin == 20 &&
      detectionRange >= 0.0 && attackRange >= 0.0 && IsSide(direction) && health >= 0
    }

    function Physics(): Body
      reads this`x, this`y, this`vx, this`vy, this`onGround, this`direction
    {
      Body(x, y, vx, vy, onGround, direction)
    }

    /**
     * Monster.__init__; `dir` is the random initial direction, and the
     * detection and attack ranges are the archetype's (200 and 60 unless
     * the subclass overrides them).
     */
    constructor (x0: real, y0: real, w: int, h: int, kind: string, hp: int, dmg: int, speed: real,
                 dir: int, detection: real, reach: real)
      requires 0 < w <= SCREEN_WIDTH && 0 < h && hp >= 0 && IsSide(dir)
      requires detection >= 0.0 && reach >= 0.0
      ensures Valid()
      ensures x == x0 && y == y0 && width == w && height == h && rect == RectOf(x0, y0, w, h)
      ensures monsterType == kind && maxHealth == hp && health == hp && damage == dmg
      ensures baseSpeed == speed && currentSpeed == speed && vx == 0.0 && vy == 0.0
      ensures direction == dir && !onGround && homePlatform == None && platformMargin == 20
      ensures aiState == Patrol && detectionRange == detection && attackRange == reach
      ensures attackCooldown == 2.0 && lastAttackTime == 0.0 && statusEffects == []
      ensures knockbackVelocity == 0.0 && knockbackDirection == 0 && isAlive
    {
      x, y, width, height := x0, y0, w, h;
      rect := RectOf(x0, y0, w, h);
      monsterType := kind;
      maxHealth, health, damage := hp, hp, dmg;
      baseSpeed, currentSpeed := speed, speed;
      vx, vy := 0.0, 0.0;
      direction := dir;
      onGround := false;
      homePlatform := None;
      platformMargin := 20;
      aiState := Patrol;
      detectionRange, attackRange, attackCooldown := detection, reach, 2.0;
      lastAttackTime := 0.0;
      statusEffects := [];
      knockbackVelocity, knockbackDirection := 0.0, 0;
      isAlive := true;
    }

    /** update_status_effects: drop expired effects, then scale base_speed by the running minimum. */
    method UpdateStatusEffects(now: real)
      modifies this`statusEffects, this`currentSpeed
      ensures statusEffects == ActiveOnly(old(statusEffects), now)
      ensures currentSpeed == baseSpeed * MinModifier(ActiveOnly(old(statusEffects), now), now)
      ensures old(statusEffects) == [] ==> currentSpeed == baseSpeed
    {
      var active := ActiveOnly(statusEffects, now);
      statusEffects := active;
      var modifier := LowestModifier(active, now);
      currentSpeed := baseSpeed * modifier;
    }

    /** add_status_effect, created at clock reading `now`. */
    method AddStatusEffect(kind: EffectKind, duration: real, intensity: real, now: real)
      modifies this`statusEffects
      ensures statusEffects == old(statusEffects) + [StatusEffect(kind, duration, intensity, now)]
    {
      statusEffects := statusEffects + [StatusEffect(kind, duration, intensity, now)];
    }

    /** detect_player: a living player within detection_range of the monster's corner. */
    predicate Detects(player: PlayerModule.Player)
      reads this, player
    {
      player.isAlive && DistSq(x, y, player.x, player.y) <= detectionRange * detectionRange
    }

    /** The chase hop of move_towards_player: player well above and horizontally close, monster grounded. */
    predicate JumpsToward(player: PlayerModule.Player, dist: real)
      reads this, player
    {
      player.isAlive && dist > 0.0 && player.y - y < -50.0 && -100.0 < player.x - x < 100.0 && onGround
    }

    method DetectPlayer(player: PlayerModule.Player) returns (seen: bool)
      requires Valid()
      ensures seen <==> Detects(player)
    {
      if !player.isAlive {
        return false;
      }
      seen := DistSq(x, y, player.x, player.y) <= detectionRange * detectionRange;
    }

    /** can_attack_player: alive player, cooldown elapsed at `now`, within attack_range. */
    predicate CanAttack(player: PlayerModule.Player, now: real)
      reads this, player
    {
      player.isAlive && now - lastAttackTime >= attackCooldown &&
      DistSq(x, y, player.x, player.y) <= attackRange * attackRange
    }

    method CanAttackPlayer(player: PlayerModule.Player, now: real) returns (ok: bool)
      requires Valid()
      ensures ok <==> CanAttack(player, now)
      ensures ok ==> player.isAlive && now - lastAttackTime >= attackCooldown
    {
      if !player.isAlive {
        return false;
      }
      if now - lastAttackTime < attackCooldown {
        return false;
      }
      ok := DistSq(x, y, player.x, player.y) <= attackRange * attackRange;
    }

    /**
     * move_towards_player; `dist` is the Euclidean distance to the player
     * (the square root is the caller's).
     */
    method MoveTowardsPlayer(player: PlayerModule.Player, dist: real)
      requires IsDistance(dist, x, y, player.x, player.y)
      modifies this`vx, this`vy
      ensures !player.isAlive || dist == 0.0 ==> vx == old(vx) && vy == old(vy)
      ensures player.isAlive && dist > 0.0 ==> vx == (player.x - x) / dist * currentSpeed
      ensures JumpsToward(player, dist) ==> vy == -12.0
      ensures !JumpsToward(player, dist) ==> vy == old(vy)
    {
      if !player.isAlive {
        return;
      }
      var dx := player.x - x;
      var dy := player.y - y;
      if dist > 0.0 {
        vx := dx / dist * currentSpeed;
        if dy < -50.0 && -100.0 < dx < 100.0 && onGround {
          vy := -12.0;
        }
      }
    }

    /** patrol_movement; `draw` is random.random(), and a draw below 0.01 turns the monster round. */
    method PatrolMovement(draw: real)
      requires Valid()
      requires 0.0 <= draw < 1.0
      modifies this`vx, this`direction
      ensures Valid()
      ensures vx == old(direction) as real * currentSpeed
      ensures direction == if draw < 0.01 then -old(direction) else old(direction)
    {
      vx := direction as real * currentSpeed;
      if draw < 0.01 {
        direction := -direction;
      }
    }

    /** apply_knockback. */
    method ApplyKnockback(force: real, dir: int)
      modifies this`knockbackVelocity, this`knockbackDirection
      ensures knockbackVelocity == force && knockbackDirection == dir
    {
      knockbackVelocity := force;
      knockbackDirection := dir;
    }

    /** take_damage: health never goes below 0, and reaching 0 kills. */
    method TakeDamage(amount: int) returns (died: bool)
      requires Valid()
      modifies this`health, this`isAlive
      ensures Valid()
      ensures died <==> old(health) - amount <= 0
      ensures died ==> health == 0 && !isAlive
      ensures !died ==> health == old(health) - amount && isAlive == old(isAlive)
    {
      health := health - amount;
      if health <= 0 {
        health := 0;
        isAlive := false;
        return true;
      }
      return false;
    }

    /**
     * attack_player (the base melee): when can_attack_player holds, damage
     * the player and restart the cooldown. The player class has no
     * apply_knockback, so the knockback branch is skipped.
     */
    method AttackPlayer(player: PlayerModule.Player, now: real) returns (attacked: bool)
      requires Valid()
      modifies this`lastAttackTime, player`health, player`isAlive
      ensures attacked <==> old(CanAttack(player, now))
      ensures attacked ==> lastAttackTime == now
      ensures attacked ==> player.health == PlayerModule.AfterDamage(old(player.health), damage)
      ensures attacked ==> player.isAlive == (old(player.isAlive) && old(player.health) - damage > 0)
      ensures !attacked ==> lastAttackTime == old(lastAttackTime)
      ensures !attacked ==> player.health == old(player.health) && player.isAlive == old(player.isAlive)
    {
      attacked := CanAttackPlayer(player, now);
      if !attacked {
        return;
      }
      var _ := player.TakeDamage(damage);
      lastAttackTime := now;
    }

    /**
     * update_ai: attack when can_attack_player holds, otherwise chase a
     * detected player, otherwise patrol; a dead monster does nothing.
     */
    method UpdateAi(player: PlayerModule.Player, now: real, dist: real, draw: real)
      requires Valid()
      requires IsDistance(dist, x, y, player.x, player.y)
      requires 0.0 <= draw < 1.0
      modifies this`aiState, this`vx, this`vy, this`direction, this`lastAttackTime, player`health, player`isAlive
      ensures Valid()
      ensures !old(isAlive) ==> aiState == old(aiState) && vx == old(vx) && vy == old(vy)
      ensures !old(isAlive) ==> lastAttackTime == old(lastAttackTime) && player.health == old(player.health)
      ensures old(isAlive) && old(CanAttack(player, now)) ==> aiState == Attack && lastAttackTime == now
      ensures old(isAlive) && !old(CanAttack(player, now)) && old(Detects(player)) ==> aiState == Chase
      ensures old(isAlive) && !old(CanAttack(player, now)) && old(Detects(player)) && dist > 0.0 ==>
                vx == (player.x - x) / dist * currentSpeed
      ensures old(isAlive) && !old(CanAttack(player, now)) && !old(Detects(player)) ==> aiState == Patrol
      ensures old(isAlive) && !old(CanAttack(player, now)) && !old(Detects(player)) ==>
                vx == old(direction) as real * currentSpeed
      ensures aiState != Attack ==> player.health == old(player.health) && player.isAlive == old(player.isAlive)
    {
      if !isAlive {
        return;
      }
      var detected := DetectPlayer(player);
      var canAttack := CanAttackPlayer(player, now);
      if canAttack {
        aiState := Attack;
        var _ := AttackPlayer(player, now);
      } else if detected {
        aiState := Chase;
        MoveTowardsPlayer(player, dist);
      } else {
        aiState := Patrol;
        PatrolMovement(draw);
      }
    }

    /** check_platform_boundary. */
    method CheckPlatformBoundary()
      requires Valid()
      modifies this`x, this`direction, this`vx
      ensures Valid()
      ensures Physics() == HomeClamp(old(Physics()), homePlatform, platformMargin, width)
    {
      if homePlatform.None? {
        return;
      }
      var home := homePlatform.value;
      if x <= (home.x + platformMargin) as real {
        x := (home.x + platformMargin) as real;
        direction := 1;
        vx := 0.0;
      } else if x + width as real >= (home.x + home.w - platformMargin) as real {
        x := (home.x + home.w - platformMargin - width) as real;
        direction := -1;
        vx := 0.0;
      }
    }

    /** handle_collisions: clear on_ground, then resolve each overlapping platform against the rect taken first. */
    method HandleCollisions(platforms: seq<Rect>)
      requires Valid()
      modifies this`x, this`y, this`vy, this`onGround, this`direction
      ensures Valid()
      ensures Physics() == ResolveAll(old(Physics()).(onGround := false), RectOf(old(x), old(y), width, height),
                                   platforms, width, height)
    {
      onGround := false;
      var start := Physics();
      var mr := RectOf(x, y, width, height);
      var i := 0;
      while i < |platforms|
        invariant 0 <= i <= |platforms|
        invariant Physics() == ResolveAll(start, mr, platforms[..i], width, height)
      {
        assert platforms[..i + 1][..i] == platforms[..i];
        ResolveAgainst(mr, platforms[i]);
        i := i + 1;
      }
      assert platforms[..|platforms|] == platforms;
      ResolveAllDirection(start, mr, platforms, width, height);
    }

    /** The body of handle_collisions' loop: one platform against the rect taken before the loop. */
    method ResolveAgainst(mr: Rect, p: Rect)
      modifies this`x, this`y, this`vy, this`onGround, this`direction
      ensures Physics() == ResolvePlatform(old(Physics()), mr, p, width, height)
    {
      if !Collide(mr, p) {
        return;
      }
      var overlapLeft := mr.Right() - p.x;
      var overlapRight := p.Right() - mr.x;
      var overlapTop := mr.Bottom() - p.y;
      var overlapBottom := p.Bottom() - mr.y;
      var least := PlayerModule.Min4(overlapLeft, overlapRight, overlapTop, overlapBottom);
      if least == overlapTop && vy > 0.0 {
        y := (p.y - height) as real;
        vy := 0.0;
        onGround := true;
      } else if least == overlapBottom && vy < 0.0 {
        y := p.Bottom() as real;
        vy := 0.0;
      } else if least == overlapLeft && vx > 0.0 {
        x := (p.x - width) as real;
        direction := -1;
      } else if least == overlapRight && vx < 0.0 {
        x := p.Right() as real;
        direction := 1;
      }
    }

    /** Knockback and gravity of update_physics. */
    method KnockbackAndFall()
      requires Valid()
      modifies this`x, this`y, this`vx, this`vy, this`knockbackVelocity
      ensures Valid()
      ensures (Physics(), knockbackVelocity) ==
        (FallAndMove(Knockback(old(Physics()), old(knockbackVelocity), knockbackDirection).0),
         Knockback(old(Physics()), old(knockbackVelocity), knockbackDirection).1)
    {
      if knockbackVelocity > 0.0 {
        vx := vx + knockbackDirection as real * knockbackVelocity;
        knockbackVelocity := knockbackVelocity * 0.8;
        if knockbackVelocity < 1.0 {
          knockbackVelocity := 0.0;
        }
      }
      if !onGround {
        vy := vy + GRAVITY;
        if vy > MAX_FALL_SPEED {
          vy := MAX_FALL_SPEED;
        }
      }
      x := x + vx;
      y := y + vy;
    }

    /**
     * update_physics: knockback, gravity and movement, the home-platform
     * clamp, platform collisions, the screen clamp, death below the screen,
     * and the rect sync.
     */
    method UpdatePhysics(platforms: seq<Rect>)
      requires Valid()
      modifies this`x, this`y, this`vx, this`vy, this`onGround, this`direction, this`knockbackVelocity
      modifies this`isAlive, this`rect
      ensures Valid()
      ensures var moved := FallAndMove(Knockback(old(Physics()), old(knockbackVelocity), old(knockbackDirection)).0);
        var clamped := HomeClamp(moved, homePlatform, platformMargin, width);
        Physics() == ScreenClamp(ResolveAll(clamped.(onGround := false), RectOf(clamped.x, clamped.y, width, height),
                                         platforms, width, height), width)
      ensures 0.0 <= x <= (SCREEN_WIDTH - width) as real
      ensures isAlive == (old(isAlive) && y <= (SCREEN_HEIGHT + 100) as real)
      ensures rect == old(rect).(x := Trunc(x), y := Trunc(y))
    {
      MoveAndCollide(platforms);
      Settle();
    }

    /** Knockback, gravity and the position step, the home-platform clamp, then the platform collisions. */
    method MoveAndCollide(platforms: seq<Rect>)
      requires Valid()
      modifies this`x, this`y, this`vx, this`vy, this`onGround, this`direction, this`knockbackVelocity
      ensures Valid()
      ensures var moved := FallAndMove(Knockback(old(Physics()), old(knockbackVelocity), old(knockbackDirection)).0);
        var clamped := HomeClamp(moved, homePlatform, platformMargin, width);
        Physics() == ResolveAll(clamped.(onGround := false), RectOf(clamped.x, clamped.y, width, height),
                                platforms, width, height)
    {
      KnockbackAndFall();
      CheckPlatformBoundary();
      HandleCollisions(platforms);
    }

    /** The screen clamp, the fall death and the rect sync that end update_physics. */
    method Settle()
      requires Valid()
      modifies this`x, this`direction, this`isAlive, this`rect
      ensures Valid()
      ensures Physics() == ScreenClamp(old(Physics()), width)
      ensures isAlive == (old(isAlive) && y <= (SCREEN_HEIGHT + 100) as real)
      ensures rect == old(rect).(x := Trunc(x), y := Trunc(y))
    {
      if x < 0.0 {
        x := 0.0;
        direction := 1;
      } else if x + width as real > SCREEN_WIDTH as real {
        x := (SCREEN_WIDTH - width) as real;
        direction := -1;
      }
      if y > (SCREEN_HEIGHT + 100) as real {
        isAlive := false;
      }
      rect := Synced(rect, x, y);
    }

    /** update: a dead monster is frozen; otherwise status effects, AI, then physics. */
    method Update(player: PlayerModule.Player, platforms: seq<Rect>, now: real, dist: real, draw: real)
      requires Valid()
      requires IsDistance(dist, x, y, player.x, player.y)
      requires 0.0 <= draw < 1.0
      modifies this, player`health, player`isAlive
      ensures Valid()
      ensures !old(isAlive) ==> Physics() == old(Physics()) && health == old(health)
      ensures !old(isAlive) ==> player.health == old(player.health) && statusEffects == old(statusEffects)
      ensures old(isAlive) ==> statusEffects == ActiveOnly(old(statusEffects), now) && 0.0 <= x <= (SCREEN_WIDTH - width) as real
    {
      if !isAlive {
        return;
      }
      UpdateStatusEffects(now);
      UpdateAi(player, now, dist, draw);
      UpdatePhysics(platforms);
    }
  }
}
