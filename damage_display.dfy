// Floating damage numbers (damage_display.py): each number drifts upwards,
// slowing down, and fades out over its two-second lifetime; the manager
// adds numbers (styled by the element table when the attacker's element
// and the target's type are known), drops the ones whose lifetime is over
// and counts the rest. The clock reading and the random position jitter
// are parameters.

module DamageDisplay {
  import opened GameObjects
  import opened Config
  import ElementSystem

  const LIFETIME: real := 2.0
  const START_VELOCITY: real := -30.0
  const FRAME: real := 1.0 / 60.0
  const SLOWDOWN: real := 0.98
  const PLAIN: string := "普通傷害"

  /** What a pop-up shows in its number slot: a number, or nothing for status texts. */
  datatype Shown = Number(n: int) | Blank

  /** max(16, int(24 * size_multiplier)). */
  function FontSize(m: real): (f: int)
    ensures f >= 16
    ensures f == 16 || f as real <= 24.0 * m
  {
    var t := Trunc(24.0 * m);
    if t >= 16 then t else 16
  }

  /** A bigger pop-up never gets a smaller font. */
  lemma FontSizeMonotone(m1: real, m2: real)
    requires m1 <= m2
    ensures FontSize(m1) <= FontSize(m2)
  {
    TruncMonotone(24.0 * m1, 24.0 * m2);
  }

  /** int(255 * (1 - elapsed / lifetime)). */
  function Fade(elapsed: real): int
  {
    Trunc(255.0 * (1.0 - elapsed / LIFETIME))
  }

  /** During the lifetime the opacity stays between 0 and 255, fully opaque at the start. */
  lemma FadeBounds(elapsed: real)
    requires 0.0 <= elapsed < LIFETIME
    ensures 0 <= Fade(elapsed) <= 255
    ensures elapsed == 0.0 ==> Fade(elapsed) == 255
  {
  }

  /** The older a number, the more transparent. */
  lemma FadeMonotone(e1: real, e2: real)
    requires e1 <= e2
    ensures Fade(e2) <= Fade(e1)
  {
    TruncMonotone(255.0 * (1.0 - e2 / LIFETIME), 255.0 * (1.0 - e1 / LIFETIME));
  }

  /** The colour of a status text: by effect name, PURPLE for any other name. */
  function EffectColor(name: string): (c: Color)
    ensures name !in {"減速", "麻痺", "燃燒", "冰凍"} ==> c == PURPLE
  {
    if name == "減速" then CYAN
    else if name == "麻痺" then YELLOW
    else if name == "燃燒" then RED
    else if name == "冰凍" then WHITE
    else PURPLE
  }

  /** A Python truth test on an optional string: present and non-empty. */
  predicate Truthy(s: Option<string>)
  {
    s.Some? && s.value != ""
  }

  /** DamageNumber: one floating pop-up. */
  class DamageNumber {
    var x: real
    var y: real
    const startX: real
    const startY: real
    const damage: Shown
    const damageType: string
    const color: Color
    const sizeMultiplier: real
    const lifetime: real
    const creationTime: real
    var velocityY: real
    var alpha: int
    const fontSize: int

    /** It keeps drifting upwards and lasts two seconds. */
    predicate Valid()
      reads this`velocityY
    {
      velocityY < 0.0 && lifetime == LIFETIME
    }

    /** update's first test: whether the number is still shown at clock reading `now`. */
    predicate ShownAt(now: real)
    {
      now - creationTime < lifetime
    }

    /**
     * DamageNumber(x, y, damage, damage_type, color, size_multiplier),
     * created at `now`, jittered by up to 10 px across and 5 px down or up.
     */
    constructor (x0: real, y0: real, damage0: Shown, damageType0: string, color0: Color, size0: real,
                 jitterX: real, jitterY: real, now: real)
      requires -10.0 <= jitterX <= 10.0 && -5.0 <= jitterY <= 5.0
      ensures Valid() && alpha == 255 && velocityY == START_VELOCITY
      ensures x == x0 + jitterX && y == y0 + jitterY && startX == x && startY == y
      ensures damage == damage0 && damageType == damageType0 && color == color0 && sizeMultiplier == size0
      ensures creationTime == now && fontSize == FontSize(size0)
    {
      x := x0 + jitterX;
      y := y0 + jitterY;
      startX := x0 + jitterX;
      startY := y0 + jitterY;
      damage := damage0;
      damageType := damageType0;
      color := color0;
      sizeMultiplier := size0;
      lifetime := LIFETIME;
      creationTime := now;
      velocityY := START_VELOCITY;
      alpha := 255;
      fontSize := FontSize(size0);
    }

    /**
     * update: false, and nothing moves, once the lifetime is over;
     * otherwise the number rises by a frame's worth of its speed, slows
     * down by 2 % and fades with its age.
     */
    method Update(now: real) returns (alive: bool)
      requires Valid()
      modifies this`y, this`velocityY, this`alpha
      ensures Valid()
      ensures alive <==> ShownAt(now)
      ensures !alive ==> y == old(y) && velocityY == old(velocityY) && alpha == old(alpha)
      ensures alive ==> y == old(y) + old(velocityY) * FRAME && velocityY == old(velocityY) * SLOWDOWN
      ensures alive ==> alpha == Fade(now - creationTime)
      ensures alive ==> y < old(y) && old(velocityY) < velocityY
      ensures alive && now >= creationTime ==> 0 <= alpha <= 255
    {
      var elapsed := now - creationTime;
      if elapsed >= lifetime {
        return false;
      }
      y := y + velocityY * (1.0 / 60.0);
      velocityY := velocityY * 0.98;
      alpha := Trunc(255.0 * (1.0 - elapsed / lifetime));
      if elapsed >= 0.0 {
        FadeBounds(elapsed);
      }
      return true;
    }
  }

  /** The numbers still shown at `now`, in their order. */
  function Kept(ns: seq<DamageNumber>, now: real): (r: seq<DamageNumber>)
    ensures |r| <= |ns|
  {
    if ns == [] then []
    else
      var rest := Kept(ns[..|ns| - 1], now);
      if ns[|ns| - 1].ShownAt(now) then rest + [ns[|ns| - 1]] else rest
  }

  /** A number survives the filter exactly when it was in the list and is still shown. */
  lemma {:induction false} KeptMembers(ns: seq<DamageNumber>, now: real, n: DamageNumber)
    ensures n in Kept(ns, now) <==> n in ns && n.ShownAt(now)
  {
    if ns != [] {
      KeptMembers(ns[..|ns| - 1], now, n);
      assert ns == ns[..|ns| - 1] + [ns[|ns| - 1]];
    }
  }

  /** When every number is still shown, the filter keeps the whole list as it was. */
  lemma {:induction false} KeptAll(ns: seq<DamageNumber>, now: real)
    requires forall i :: 0 <= i < |ns| ==> ns[i].ShownAt(now)
    ensures Kept(ns, now) == ns
  {
    if ns != [] {
      KeptAll(ns[..|ns| - 1], now);
    }
  }

  lemma KeptStep(ns: seq<DamageNumber>, i: int, now: real)
    requires 0 <= i < |ns|
    ensures Kept(ns[..i + 1], now) == if ns[i].ShownAt(now) then Kept(ns[..i], now) + [ns[i]] else Kept(ns[..i], now)
  {
    assert ns[..i + 1][..i] == ns[..i];
  }

  /** How a number has moved and faded in update, from height `y0`, speed `vy0` and opacity `a0`. */
  ghost predicate Moved(n: DamageNumber, now: real, y0: real, vy0: real, a0: int)
    reads n
  {
    if n.ShownAt(now) then n.y == y0 + vy0 * FRAME && n.velocityY == vy0 * SLOWDOWN && n.alpha == Fade(now - n.creationTime)
    else n.y == y0 && n.velocityY == vy0 && n.alpha == a0
  }

  ghost function Heights(ns: seq<DamageNumber>): (r: seq<real>)
    reads ns
    ensures |r| == |ns| && forall j :: 0 <= j < |ns| ==> r[j] == ns[j].y
  {
    if ns == [] then [] else Heights(ns[..|ns| - 1]) + [ns[|ns| - 1].y]
  }

  ghost function Alphas(ns: seq<DamageNumber>): (r: seq<int>)
    reads ns
    ensures |r| == |ns| && forall j :: 0 <= j < |ns| ==> r[j] == ns[j].alpha
  {
    if ns == [] then [] else Alphas(ns[..|ns| - 1]) + [ns[|ns| - 1].alpha]
  }

  ghost function Speeds(ns: seq<DamageNumber>): (r: seq<real>)
    reads ns
    ensures |r| == |ns| && forall j :: 0 <= j < |ns| ==> r[j] == ns[j].velocityY
  {
    if ns == [] then [] else Speeds(ns[..|ns| - 1]) + [ns[|ns| - 1].velocityY]
  }

  predicate Distinct(ns: seq<DamageNumber>)
  {
    forall i, j :: 0 <= i < j < |ns| ==> ns[i] != ns[j]
  }

  /** DamageDisplayManager: the pop-ups on screen. */
  class DamageDisplayManager {
    var damageNumbers: seq<DamageNumber>

    /** Every pop-up is a separate object in a valid state. */
    predicate Valid()
      reads this, damageNumbers
    {
      Distinct(damageNumbers) && forall i :: 0 <= i < |damageNumbers| ==> damageNumbers[i].Valid()
    }

    constructor ()
      ensures Valid() && damageNumbers == []
    {
      damageNumbers := [];
    }

    /**
     * add_damage_number: with both an attacker element and a target type,
     * the element table's damage, description, colour and size; otherwise
     * the raw damage in white, plain style. Exactly one number is appended.
     */
    method AddDamageNumber(x: real, y: real, damage: int, attackerElement: Option<string>,
                           targetType: Option<string>, jitterX: real, jitterY: real, now: real)
      returns (n: DamageNumber)
      requires Valid() && -10.0 <= jitterX <= 10.0 && -5.0 <= jitterY <= 5.0
      modifies this`damageNumbers
      ensures Valid() && fresh(n) && damageNumbers == old(damageNumbers) + [n]
      ensures n.creationTime == now && n.alpha == 255
      ensures Truthy(attackerElement) && Truthy(targetType) ==>
        var p := ElementSystem.DamagePopupInfo(damage, attackerElement.value, targetType.value);
        n.damage == Number(p.damage) && n.damageType == p.description &&
        n.color == p.color && n.sizeMultiplier == p.sizeMultiplier
      ensures !(Truthy(attackerElement) && Truthy(targetType)) ==>
        n.damage == Number(damage) && n.damageType == PLAIN && n.color == WHITE && n.sizeMultiplier == 1.0
    {
      if Truthy(attackerElement) && Truthy(targetType) {
        var p := ElementSystem.DamagePopupInfo(damage, attackerElement.value, targetType.value);
        n := new DamageNumber(x, y, Number(p.damage), p.description, p.color, p.sizeMultiplier,
                              jitterX, jitterY, now);
      } else {
        n := new DamageNumber(x, y, Number(damage), PLAIN, WHITE, 1.0, jitterX, jitterY, now);
      }
      damageNumbers := damageNumbers + [n];
    }

    /** add_healing_number: the amount healed, in green, a little larger. */
    method AddHealingNumber(x: real, y: real, healAmount: int, jitterX: real, jitterY: real, now: real)
      returns (n: DamageNumber)
      requires Valid() && -10.0 <= jitterX <= 10.0 && -5.0 <= jitterY <= 5.0
      modifies this`damageNumbers
      ensures Valid() && fresh(n) && damageNumbers == old(damageNumbers) + [n]
      ensures n.damage == Number(healAmount) && n.damageType == "恢復" && n.color == GREEN
      ensures n.sizeMultiplier == 1.2 && n.creationTime == now
    {
      n := new DamageNumber(x, y, Number(healAmount), "恢復", GREEN, 1.2, jitterX, jitterY, now);
      damageNumbers := damageNumbers + [n];
    }

    /**
     * add_status_effect_text: the effect's name in its colour, smaller, with
     * the number slot blanked (the source builds the number with 0 and then
     * blanks it; here it is built blank).
     */
    method AddStatusEffectText(x: real, y: real, effectName: string, jitterX: real, jitterY: real, now: real)
      returns (n: DamageNumber)
      requires Valid() && -10.0 <= jitterX <= 10.0 && -5.0 <= jitterY <= 5.0
      modifies this`damageNumbers
      ensures Valid() && fresh(n) && damageNumbers == old(damageNumbers) + [n]
      ensures n.damage == Blank && n.damageType == effectName && n.color == EffectColor(effectName)
      ensures n.sizeMultiplier == 0.8 && n.creationTime == now
    {
      var color := EffectColor(effectName);
      n := new DamageNumber(x, y, Blank, effectName, color, 0.8, jitterX, jitterY, now);
      damageNumbers := damageNumbers + [n];
    }

    /**
     * update: every number updates; exactly the ones whose update says
     * they are still shown stay, in their order.
     */
    method Update(now: real)
      requires Valid()
      modifies this`damageNumbers, damageNumbers
      ensures Valid()
      ensures damageNumbers == Kept(old(damageNumbers), now)
      ensures forall n | n in old(damageNumbers) ::
        if n.ShownAt(now) then n.y == old(n.y) + old(n.velocityY) * FRAME && n.velocityY == old(n.velocityY) * SLOWDOWN
        else n.y == old(n.y) && n.velocityY == old(n.velocityY)
      ensures forall n | n in old(damageNumbers) ::
        if n.ShownAt(now) then n.alpha == Fade(now - n.creationTime) else n.alpha == old(n.alpha)
    {
      ghost var ys := Heights(damageNumbers);
      ghost var vys := Speeds(damageNumbers);
      ghost var fades := Alphas(damageNumbers);
      var active: seq<DamageNumber> := [];
      var i := 0;
      while i < |damageNumbers|
        invariant damageNumbers == old(damageNumbers)
        invariant Progress(i, now, active, ys, vys, fades)
      {
        active := NumberStep(i, now, active, ys, vys, fades);
        i := i + 1;
      }
      assert damageNumbers[..i] == damageNumbers;
      forall n | n in active
        ensures n.Valid()
      {
        KeptMembers(damageNumbers, now, n);
      }
      KeptDistinct(damageNumbers, now);
      damageNumbers := active;
    }

    /**
     * The state of update after the first `i` numbers, given their heights
     * and speeds before: those have updated, the filter holds those still
     * shown, the others have not moved yet.
     */
    ghost predicate Progress(i: int, now: real, active: seq<DamageNumber>, ys: seq<real>, vys: seq<real>, fades: seq<int>)
      reads this, damageNumbers
    {
      Valid() && 0 <= i <= |damageNumbers| && |ys| == |damageNumbers| && |vys| == |damageNumbers| &&
      |fades| == |damageNumbers| && active == Kept(damageNumbers[..i], now) &&
      (forall j | 0 <= j < i :: Moved(damageNumbers[j], now, ys[j], vys[j], fades[j])) &&
      (forall j | i <= j < |damageNumbers| ::
         damageNumbers[j].y == ys[j] && damageNumbers[j].velocityY == vys[j] && damageNumbers[j].alpha == fades[j])
    }

    /** One pass of update's loop. */
    method NumberStep(i: int, now: real, active: seq<DamageNumber>, ghost ys: seq<real>, ghost vys: seq<real>,
                      ghost fades: seq<int>)
      returns (active': seq<DamageNumber>)
      requires Progress(i, now, active, ys, vys, fades) && i < |damageNumbers|
      modifies damageNumbers[i]
      ensures Progress(i + 1, now, active', ys, vys, fades)
    {
      var n := damageNumbers[i];
      var alive := n.Update(now);
      KeptStep(damageNumbers, i, now);
      active' := if alive then active + [n] else active;
    }

    /** clear_all: no numbers left. */
    method ClearAll()
      modifies this`damageNumbers
      ensures Valid() && damageNumbers == []
    {
      damageNumbers := [];
    }

    /** get_active_count: how many numbers there are. */
    method GetActiveCount() returns (count: int)
      ensures count == |damageNumbers|
    {
      count := |damageNumbers|;
    }
  }

  /** Filtering a list of separate objects leaves separate objects. */
  lemma {:induction false} KeptDistinct(ns: seq<DamageNumber>, now: real)
    requires Distinct(ns)
    ensures Distinct(Kept(ns, now))
  {
    if ns != [] {
      var pre := ns[..|ns| - 1];
      KeptDistinct(pre, now);
      KeptMembers(pre, now, ns[|ns| - 1]);
    }
  }
}
