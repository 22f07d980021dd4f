// The boss bullets the src monster manager keeps for its bosses
// (src/systems/monster_manager.py): the lava boss's straight fire bullets
// and the sniper boss's tracking bullets, whose velocity blends towards
// the player's centre. A bullet that expires, hits the player or leaves
// its bounds is dropped; the others move on.

module BossBullets {
  import opened GameObjects
  import opened Config

  /** A boss bullet: position, velocity, damage, lifetime, creation time and (tracking bullets) blend strength. */
  datatype BossBullet = BossBullet(x: real, y: real, vx: real, vy: real, damage: int,
                                   lifetime: real, createdTime: real, strength: real)

  /** The 16 x 16 box centred on the bullet. */
  function BulletBox(b: BossBullet): Rect
  {
    RectOf(b.x - 8.0, b.y - 8.0, 16, 16)
  }

  /** What a frame does to a bullet: it expired, hit the player, left its bounds, or stays. */
  datatype Fate = Expired | HitPlayer | Lost | Kept

  function Moved(b: BossBullet): (m: BossBullet)
    ensures m.x == b.x + b.vx && m.y == b.y + b.vy && m.(x := b.x, y := b.y) == b
  {
    b.(x := b.x + b.vx, y := b.y + b.vy)
  }

  predicate TooOld(b: BossBullet, now: real)
  {
    now - b.createdTime > b.lifetime
  }

  // ---------------------------------------------------------------- lava boss fire bullets

  /** The screen bounds fire bullets must stay within, edges included. */
  predicate OnScreen(x: real, y: real)
  {
    0.0 <= x <= SCREEN_WIDTH as real && 0.0 <= y <= SCREEN_HEIGHT as real
  }

  /** update_lava_boss_fire_bullets for one bullet: the age test first, then the move, the hit, the bounds. */
  function FireFate(b: BossBullet, now: real, target: Rect): Fate
  {
    if TooOld(b, now) then Expired
    else if Collide(BulletBox(Moved(b)), target) then HitPlayer
    else if OnScreen(Moved(b).x, Moved(b).y) then Kept
    else Lost
  }

  /** The fire bullets that stay, moved, in order. */
  function AdvanceFire(bs: seq<BossBullet>, now: real, target: Rect): (r: seq<BossBullet>)
    ensures |r| <= |bs|
    ensures forall q :: q in r ==> OnScreen(q.x, q.y) && !Collide(BulletBox(q), target)
    decreases |bs|
  {
    if bs == [] then []
    else
      var rest := AdvanceFire(bs[..|bs| - 1], now, target);
      var b := bs[|bs| - 1];
      if FireFate(b, now, target) == Kept then rest + [Moved(b)] else rest
  }

  /** The damages of the fire bullets that hit the player this frame, in order. */
  function FireDamages(bs: seq<BossBullet>, now: real, target: Rect): (r: seq<int>)
    ensures |r| <= |bs|
    decreases |bs|
  {
    if bs == [] then []
    else
      var rest := FireDamages(bs[..|bs| - 1], now, target);
      var b := bs[|bs| - 1];
      if FireFate(b, now, target) == HitPlayer then rest + [b.damage] else rest
  }

  /** A fire bullet survives the frame exactly when it is young, misses the player and stays on screen. */
  lemma {:induction false} AdvanceFireMembers(bs: seq<BossBullet>, now: real, target: Rect, q: BossBullet)
    ensures q in AdvanceFire(bs, now, target) <==>
      exists b :: b in bs && FireFate(b, now, target) == Kept && q == Moved(b)
    decreases |bs|
  {
    if bs != [] {
      var pre := bs[..|bs| - 1];
      var last := bs[|bs| - 1];
      AdvanceFireMembers(pre, now, target, q);
      assert bs == pre + [last];
      if q in AdvanceFire(bs, now, target) && q !in AdvanceFire(pre, now, target) {
        assert q == Moved(last) && FireFate(last, now, target) == Kept;
      }
    }
  }

  /** Each fire bullet that hits contributes exactly one damage, so hits never outnumber the bullets lost. */
  lemma {:induction false} FireAccounting(bs: seq<BossBullet>, now: real, target: Rect)
    ensures |AdvanceFire(bs, now, target)| + |FireDamages(bs, now, target)| <= |bs|
    decreases |bs|
  {
    if bs != [] {
      FireAccounting(bs[..|bs| - 1], now, target);
    }
  }

  /** One more fire bullet: the loop over update_lava_boss_fire_bullets' list extends both results by its fate. */
  lemma FireStep(bs: seq<BossBullet>, i: int, now: real, target: Rect)
    requires 0 <= i < |bs|
    ensures AdvanceFire(bs[..i + 1], now, target) ==
      if FireFate(bs[i], now, target) == Kept then AdvanceFire(bs[..i], now, target) + [Moved(bs[i])]
      else AdvanceFire(bs[..i], now, target)
    ensures FireDamages(bs[..i + 1], now, target) ==
      if FireFate(bs[i], now, target) == HitPlayer then FireDamages(bs[..i], now, target) + [bs[i].damage]
      else FireDamages(bs[..i], now, target)
  {
    assert bs[..i + 1][..i] == bs[..i];
  }

  // ---------------------------------------------------------------- sniper boss tracking bullets

  /** The looser bounds tracking bullets must stay within: 200 px around the screen. */
  predicate NearScreen(x: real, y: real)
  {
    -200.0 <= x <= SCREEN_WIDTH as real + 200.0 && -200.0 <= y <= SCREEN_HEIGHT as real + 200.0
  }

  /**
   * The tracking step: with the target at distance d > 0 the velocity
   * becomes (1 - s) * v + s * unit direction * speed; then the bullet moves.
   */
  function Blended(b: BossBullet, tx: real, ty: real, d: real, speed: real): (r: BossBullet)
    ensures d <= 0.0 ==> r == Moved(b)
    ensures d > 0.0 ==>
      r.vx == (1.0 - b.strength) * b.vx + b.strength * ((tx - b.x) / d) * speed &&
      r.vy == (1.0 - b.strength) * b.vy + b.strength * ((ty - b.y) / d) * speed
    ensures r.x == b.x + r.vx && r.y == b.y + r.vy
  {
    if d > 0.0 then
      Moved(b.(vx := (1.0 - b.strength) * b.vx + b.strength * ((tx - b.x) / d) * speed,
               vy := (1.0 - b.strength) * b.vy + b.strength * ((ty - b.y) / d) * speed))
    else Moved(b)
  }

  /** A strength of 0 keeps the bullet straight; a strength of 1 aims it straight at the target. */
  lemma BlendExtremes(b: BossBullet, tx: real, ty: real, d: real, speed: real)
    requires d > 0.0
    ensures b.strength == 0.0 ==> Blended(b, tx, ty, d, speed) == Moved(b)
    ensures b.strength == 1.0 ==>
      Blended(b, tx, ty, d, speed).vx * d == (tx - b.x) * speed &&
      Blended(b, tx, ty, d, speed).vy * d == (ty - b.y) * speed
  {
  }

  /** update_sniper_boss_bullets for one bullet, with `d` the distance to the target. */
  function TrackFate(b: BossBullet, now: real, tx: real, ty: real, d: real, speed: real, target: Rect): Fate
  {
    if TooOld(b, now) then Expired
    else
      var m := Blended(b, tx, ty, d, speed);
      if Collide(BulletBox(m), target) then HitPlayer
      else if NearScreen(m.x, m.y) then Kept
      else Lost
  }

  /** The tracking bullets that stay, blended and moved, in order. */
  function AdvanceTracking(bs: seq<BossBullet>, now: real, tx: real, ty: real, speed: real, target: Rect,
                           sqrt: real -> real): (r: seq<BossBullet>)
    ensures |r| <= |bs|
    ensures forall q :: q in r ==> NearScreen(q.x, q.y)
    decreases |bs|
  {
    if bs == [] then []
    else
      var rest := AdvanceTracking(bs[..|bs| - 1], now, tx, ty, speed, target, sqrt);
      var b := bs[|bs| - 1];
      var d := sqrt(DistSq(b.x, b.y, tx, ty));
      if TrackFate(b, now, tx, ty, d, speed, target) == Kept then rest + [Blended(b, tx, ty, d, speed)] else rest
  }

  /** The damages of the tracking bullets that hit the player this frame, in order. */
  function TrackingDamages(bs: seq<BossBullet>, now: real, tx: real, ty: real, speed: real, target: Rect,
                           sqrt: real -> real): (r: seq<int>)
    ensures |r| <= |bs|
    decreases |bs|
  {
    if bs == [] then []
    else
      var rest := TrackingDamages(bs[..|bs| - 1], now, tx, ty, speed, target, sqrt);
      var b := bs[|bs| - 1];
      var d := sqrt(DistSq(b.x, b.y, tx, ty));
      if TrackFate(b, now, tx, ty, d, speed, target) == HitPlayer then rest + [b.damage] else rest
  }

  /** One more tracking bullet, as FireStep. */
  lemma TrackStep(bs: seq<BossBullet>, i: int, now: real, tx: real, ty: real, speed: real, target: Rect,
                  sqrt: real -> real)
    requires 0 <= i < |bs|
    ensures var d := sqrt(DistSq(bs[i].x, bs[i].y, tx, ty));
      AdvanceTracking(bs[..i + 1], now, tx, ty, speed, target, sqrt) ==
        (if TrackFate(bs[i], now, tx, ty, d, speed, target) == Kept
         then AdvanceTracking(bs[..i], now, tx, ty, speed, target, sqrt) + [Blended(bs[i], tx, ty, d, speed)]
         else AdvanceTracking(bs[..i], now, tx, ty, speed, target, sqrt)) &&
      TrackingDamages(bs[..i + 1], now, tx, ty, speed, target, sqrt) ==
        (if TrackFate(bs[i], now, tx, ty, d, speed, target) == HitPlayer
         then TrackingDamages(bs[..i], now, tx, ty, speed, target, sqrt) + [bs[i].damage]
         else TrackingDamages(bs[..i], now, tx, ty, speed, target, sqrt))
  {
    assert bs[..i + 1][..i] == bs[..i];
  }

  /** Bullets that have all outlived their lifetime are all dropped and deal nothing. */
  lemma {:induction false} StaleTrackingGone(bs: seq<BossBullet>, now: real, tx: real, ty: real, speed: real,
                                             target: Rect, sqrt: real -> real)
    requires forall i :: 0 <= i < |bs| ==> TooOld(bs[i], now)
    ensures AdvanceTracking(bs, now, tx, ty, speed, target, sqrt) == []
    ensures TrackingDamages(bs, now, tx, ty, speed, target, sqrt) == []
    decreases |bs|
  {
    if bs != [] {
      StaleTrackingGone(bs[..|bs| - 1], now, tx, ty, speed, target, sqrt);
    }
  }
}
