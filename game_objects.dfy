// Shared geometry and the status-effect rules of src/core/game_objects.py.
// Positions and velocities are reals; pygame.Rect is an integer record.

module GameObjects {

  /** Python's int() on a float: truncation toward zero. */
  function Trunc(r: real): (n: int)
    ensures r >= 0.0 ==> n as real <= r < n as real + 1.0
    ensures r < 0.0 ==> n as real - 1.0 < r <= n as real
  {
    if r >= 0.0 then r.Floor else -((-r).Floor)
  }

  lemma TruncMonotone(a: real, b: real)
    requires a <= b
    ensures Trunc(a) <= Trunc(b)
  {
  }

  function MinR(a: real, b: real): real { if a <= b then a else b }
  function MaxR(a: real, b: real): real { if a >= b then a else b }

  /** Squared Euclidean distance; every range test compares against a squared range. */
  function DistSq(x1: real, y1: real, x2: real, y2: real): (d: real)
    ensures d >= 0.0
  {
    (x2 - x1) * (x2 - x1) + (y2 - y1) * (y2 - y1)
  }

  /** `d` is the Euclidean distance between the two points (math.sqrt of DistSq). */
  predicate IsDistance(d: real, x1: real, y1: real, x2: real, y2: real)
  {
    d >= 0.0 && d * d == DistSq(x1, y1, x2, y2)
  }

  /** `sqrt` is the square root on non-negative reals. */
  ghost predicate IsRoot(sqrt: real -> real)
  {
    forall v :: v >= 0.0 ==> sqrt(v) >= 0.0 && sqrt(v) * sqrt(v) == v
  }

  /** A left/right direction: -1 or 1. */
  predicate IsSide(d: int)
  {
    d == -1 || d == 1
  }

  /** A pygame.Rect: integer position and size. */
  datatype Option<T> = None | Some(value: T)

  datatype Rect = Rect(x: int, y: int, w: int, h: int)
  {
    function Right(): int { x + w }
    function Bottom(): int { y + h }
  }

  /** pygame.Rect(x, y, w, h) built from floats truncates each coordinate. */
  function RectOf(x: real, y: real, w: int, h: int): (r: Rect)
    ensures r.x == Trunc(x) && r.y == Trunc(y) && r.w == w && r.h == h
  {
    Rect(Trunc(x), Trunc(y), w, h)
  }

  /** Rect.colliderect: strict overlap on both axes; an empty rect collides with nothing. */
  predicate Collide(a: Rect, b: Rect)
  {
    a.w > 0 && a.h > 0 && b.w > 0 && b.h > 0 &&
    a.x < b.x + b.w && b.x < a.x + a.w && a.y < b.y + b.h && b.y < a.y + a.h
  }

  lemma CollideSymmetric(a: Rect, b: Rect)
    ensures Collide(a, b) <==> Collide(b, a)
  {
  }

  /** GameObject.update_rect, as a value: only x and y of the rect follow the position. */
  function Synced(r: Rect, x: real, y: real): (s: Rect)
    ensures s.x == Trunc(x) && s.y == Trunc(y)
    ensures s.w == r.w && s.h == r.h
  {
    r.(x := Trunc(x), y := Trunc(y))
  }

  /** GameObject: the base of every entity with a position and a collision rect. */
  class GameObject {
    var x: real
    var y: real
    var width: int
    var height: int
    var rect: Rect

    constructor (x0: real, y0: real, w: int, h: int)
      ensures x == x0 && y == y0 && width == w && height == h
      ensures rect == RectOf(x0, y0, w, h)
    {
      x, y, width, height := x0, y0, w, h;
      rect := RectOf(x0, y0, w, h);
    }

    /** update_rect: rect.x and rect.y become the truncated position; nothing else changes. */
    method UpdateRect()
      modifies this`rect
      ensures rect == old(rect).(x := Trunc(x), y := Trunc(y))
    {
      rect := Synced(rect, x, y);
    }
  }

  // ---------------------------------------------------------------- status effects

  datatype EffectKind = Slow | Paralysis | OtherEffect

  /** A StatusEffect; start_time is the clock reading at creation. */
  datatype StatusEffect = StatusEffect(kind: EffectKind, duration: real, intensity: real, startTime: real)

  /** is_active: the effect lasts while less than `duration` seconds have passed. */
  predicate IsActive(e: StatusEffect, now: real)
  {
    now - e.startTime < e.duration
  }

  /** get_speed_modifier at clock reading `now`. */
  function SpeedModifier(e: StatusEffect, now: real): (m: real)
    ensures !IsActive(e, now) ==> m == 1.0
    ensures IsActive(e, now) && e.kind == Slow ==> m == 1.0 - e.intensity
    ensures IsActive(e, now) && e.kind == Paralysis ==> m == 0.0
    ensures e.kind == OtherEffect ==> m == 1.0
    ensures 0.0 <= e.intensity <= 1.0 ==> 0.0 <= m <= 1.0
  {
    if !IsActive(e, now) then 1.0
    else match e.kind
      case Slow => 1.0 - e.intensity
      case Paralysis => 0.0
      case OtherEffect => 1.0
  }

  predicate Intensities(es: seq<StatusEffect>)
  {
    forall i :: 0 <= i < |es| ==> 0.0 <= es[i].intensity <= 1.0
  }

  /**
   * The running minimum, starting from 1.0, of the modifiers of `es`
   * (the loop of Monster.update_status_effects and Player.get_speed_modifier).
   */
  function MinModifier(es: seq<StatusEffect>, now: real): (m: real)
    ensures m <= 1.0
    ensures Intensities(es) ==> 0.0 <= m
    decreases |es|
  {
    if es == [] then 1.0
    else
      var prefix := es[..|es| - 1];
      assert Intensities(es) ==> Intensities(prefix) by {
        assert forall i :: 0 <= i < |prefix| ==> prefix[i] == es[i];
      }
      MinR(MinModifier(prefix, now), SpeedModifier(es[|es| - 1], now))
  }

  /** The combined modifier is below every effect's modifier and equals 1.0 or one of them. */
  lemma {:induction false} MinModifierIsMinimum(es: seq<StatusEffect>, now: real)
    ensures forall i :: 0 <= i < |es| ==> MinModifier(es, now) <= SpeedModifier(es[i], now)
    ensures MinModifier(es, now) == 1.0 || exists i :: 0 <= i < |es| && MinModifier(es, now) == SpeedModifier(es[i], now)
    decreases |es|
  {
    if es != [] {
      var prefix := es[..|es| - 1];
      MinModifierIsMinimum(prefix, now);
      assert forall i :: 0 <= i < |prefix| ==> prefix[i] == es[i];
    }
  }

  /** The filter `[e for e in effects if e.is_active()]`. */
  function ActiveOnly(es: seq<StatusEffect>, now: real): (r: seq<StatusEffect>)
    ensures |r| <= |es|
  {
    if es == [] then []
    else (if IsActive(es[0], now) then [es[0]] else []) + ActiveOnly(es[1..], now)
  }

  /** The filter keeps exactly the active effects. */
  lemma {:induction false} ActiveOnlyKeepsActive(es: seq<StatusEffect>, now: real)
    ensures forall e :: e in ActiveOnly(es, now) <==> e in es && IsActive(e, now)
    decreases |es|
  {
    if es != [] {
      ActiveOnlyKeepsActive(es[1..], now);
      assert es == [es[0]] + es[1..];
    }
  }

  /** Dropping expired effects never changes the combined modifier, since they yield 1.0. */
  lemma MinModifierIgnoresExpired(es: seq<StatusEffect>, now: real)
    ensures MinModifier(ActiveOnly(es, now), now) == MinModifier(es, now)
  {
    var a := ActiveOnly(es, now);
    ActiveOnlyKeepsActive(es, now);
    MinModifierIsMinimum(es, now);
    MinModifierIsMinimum(a, now);
    var m := MinModifier(es, now);
    var ma := MinModifier(a, now);
    if m != 1.0 {
      var i :| 0 <= i < |es| && m == SpeedModifier(es[i], now);
      assert es[i] in a;
      var j :| 0 <= j < |a| && a[j] == es[i];
      assert ma <= m;
    }
    if ma != 1.0 {
      var i :| 0 <= i < |a| && ma == SpeedModifier(a[i], now);
      assert a[i] in es;
      var j :| 0 <= j < |es| && es[j] == a[i];
      assert m <= ma;
    }
  }
}
