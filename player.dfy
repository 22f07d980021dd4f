// The player of src/entities/player.py: input edge detection, the
// ground/double/wall jump, shooting and melee cooldowns, movement with
// gravity, platform collision by minimum overlap, and health.

module PlayerModule {
  import opened GameObjects
  import opened Config


  /** The part of the player's state that movement and collision change. */
  datatype Motion = Motion(x: real, y: real, vx: real, vy: real,
                           onGround: bool, canDoubleJump: bool, sliding: bool, wallDir: int)

  /** One platform of handle_collisions; `pr` is the player rect taken before the loop. */
  function ResolvePlatform(m: Motion, pr: Rect, p: Rect, h: int, w: int): (r: Motion)
    ensures !Collide(pr, p) ==> r == m
    ensures r.wallDir != m.wallDir ==> r.sliding && IsSide(r.wallDir)
    ensures r.sliding && !m.sliding ==> !m.onGround && m.vy > 0.0
    ensures r.canDoubleJump != m.canDoubleJump ==> r.onGround
  {
    if !Collide(pr, p) then m
    else
      var overlapLeft := pr.Right() - p.x;
      var overlapRight := p.Right() - pr.x;
      var overlapTop := pr.Bottom() - p.y;
      var overlapBottom := p.Bottom() - pr.y;
      var least := Min4(overlapLeft, overlapRight, overlapTop, overlapBottom);
      if least == overlapTop && m.vy > 0.0 then
        m.(y := (p.y - h) as real, vy := 0.0, onGround := true, canDoubleJump := true)
      else if least == overlapBottom && m.vy < 0.0 then
        m.(y := p.Bottom() as real, vy := 0.0)
      else if least == overlapLeft && m.vx > 0.0 then
        var m1 := m.(x := (p.x - w) as real);
        if !m1.onGround && m1.vy > 0.0 then m1.(sliding := true, wallDir := 1, vy := m1.vy * 0.7) else m1
      else if least == overlapRight && m.vx < 0.0 then
        var m1 := m.(x := p.Right() as real);
        if !m1.onGround && m1.vy > 0.0 then m1.(sliding := true, wallDir := -1, vy := m1.vy * 0.7) else m1
      else m
  }

  function Min4(a: int, b: int, c: int, d: int): (r: int)
    ensures r <= a && r <= b && r <= c && r <= d
    ensures r == a || r == b || r == c || r == d
  {
    var ab := if a <= b then a else b;
    var abc := if ab <= c then ab else c;
    if abc <= d then abc else d
  }

  /** The platforms of `ps` resolved in list order. */
  function ResolveAll(m: Motion, pr: Rect, ps: seq<Rect>, h: int, w: int): Motion
    decreases |ps|
  {
    if ps == [] then m
    else ResolvePlatform(ResolveAll(m, pr, ps[..|ps| - 1], h, w), pr, ps[|ps| - 1], h, w)
  }

  predicate WallConsistent(m: Motion)
  {
    (m.wallDir == 0 || IsSide(m.wallDir)) && (m.sliding ==> m.wallDir != 0)
  }

  /** Wall-slide bookkeeping stays consistent through any list of platforms. */
  lemma {:induction false} ResolveAllWallConsistent(m: Motion, pr: Rect, ps: seq<Rect>, h: int, w: int)
    requires WallConsistent(m)
    ensures WallConsistent(ResolveAll(m, pr, ps, h, w))
    decreases |ps|
  {
    if ps != [] {
      ResolveAllWallConsistent(m, pr, ps[..|ps| - 1], h, w);
    }
  }

  /** When no platform overlaps the player rect, collision changes nothing. */
  lemma {:induction false} ResolveAllNoContact(m: Motion, pr: Rect, ps: seq<Rect>, h: int, w: int)
    requires forall i :: 0 <= i < |ps| ==> !Collide(pr, ps[i])
    ensures ResolveAll(m, pr, ps, h, w) == m
    decreases |ps|
  {
    if ps != [] {
      ResolveAllNoContact(m, pr, ps[..|ps| - 1], h, w);
    }
  }

  /** The player is on the ground after the loop only if some platform overlapped its rect. */
  lemma {:induction false} GroundNeedsContact(m: Motion, pr: Rect, ps: seq<Rect>, h: int, w: int)
    requires !m.onGround
    ensures ResolveAll(m, pr, ps, h, w).onGround ==> exists i :: 0 <= i < |ps| && Collide(pr, ps[i])
    decreases |ps|
  {
    if ps != [] {
      var prefix := ps[..|ps| - 1];
      GroundNeedsContact(m, pr, prefix, h, w);
      var before := ResolveAll(m, pr, prefix, h, w);
      if before.onGround {
        var i :| 0 <= i < |prefix| && Collide(pr, prefix[i]);
        assert ps[i] == prefix[i];
      } else if ResolveAll(m, pr, ps, h, w).onGround {
        assert Collide(pr, ps[|ps| - 1]);
      }
    }
  }

  /** Landing on a platform top happens only while falling, and puts the feet on the top edge. */
  lemma LandingOnTop(m: Motion, pr: Rect, p: Rect, h: int, w: int)
    requires !m.onGround
    requires ResolvePlatform(m, pr, p, h, w).onGround
    ensures m.vy > 0.0 && Collide(pr, p)
    ensures ResolvePlatform(m, pr, p, h, w) == m.(y := (p.y - h) as real, vy := 0.0, onGround := true, canDoubleJump := true)
  {
  }

  /** The screen clamp at the end of handle_collisions. */
  function ClampToScreen(m: Motion, w: int): (r: Motion)
    requires 0 <= w <= SCREEN_WIDTH
    ensures 0.0 <= r.x <= (SCREEN_WIDTH - w) as real
    ensures r.x != m.x ==> r.vx == 0.0
    ensures 0.0 <= m.x <= (SCREEN_WIDTH - w) as real ==> r == m
  {
    if m.x < 0.0 then m.(x := 0.0, vx := 0.0)
    else if m.x + w as real > SCREEN_WIDTH as real then m.(x := (SCREEN_WIDTH - w) as real, vx := 0.0)
    else m
  }

  /** Horizontal input, gravity and the position step of update (before collisions). */
  function MoveStep(m: Motion, left: bool, right: bool, modifier: real): (r: Motion)
    ensures !m.onGround ==> r.vy <= MAX_FALL_SPEED
    ensures m.onGround ==> r.vy == m.vy
    ensures r.y == m.y + r.vy && r.x == m.x + r.vx
  {
    var vx := if left && !right then -PLAYER_SPEED * modifier
              else if right && !left then PLAYER_SPEED * modifier
              else m.vx * 0.8;
    var vy := if m.onGround then m.vy
              else if m.vy + GRAVITY > MAX_FALL_SPEED then MAX_FALL_SPEED else m.vy + GRAVITY;
    m.(vx := vx, vy := vy, x := m.x + vx, y := m.y + vy)
  }

  /** One frame of update's motion: steer, fall, move, collide, clamp. */
  function FrameMotion(m: Motion, left: bool, right: bool, modifier: real,
                       platforms: seq<Rect>, w: int, h: int): (r: Motion)
    requires 0 <= w <= SCREEN_WIDTH
    ensures 0.0 <= r.x <= (SCREEN_WIDTH - w) as real
  {
    var moved := MoveStep(m, left, right, modifier);
    ClampToScreen(ResolveAll(moved.(onGround := false, sliding := false, wallDir := 0),
                             RectOf(moved.x, moved.y, w, h), platforms, h, w), w)
  }

  /**
   * The bullet direction of shoot: the unit vector from the player's centre
   * (cx, cy) towards the mouse, or straight along the facing side when the
   * mouse is on the centre.
   */
  function Aim(cx: real, cy: real, mouseX: real, mouseY: real, dist: real, facing: int): (real, real)
  {
    if dist > 0.0 then ((mouseX - cx) / dist, (mouseY - cy) / dist) else (facing as real, 0.0)
  }

  /** The facing side after a shot whose horizontal direction is `dirX`. */
  function Facing(dirX: real, facing: int): (f: int)
    ensures dirX > 0.0 ==> f == 1
    ensures dirX < 0.0 ==> f == -1
    ensures dirX == 0.0 ==> f == facing
  {
    if dirX > 0.0 then 1 else if dirX < 0.0 then -1 else facing
  }

  /** The facing side after steering: the one held key alone turns the player, otherwise it is kept. */
  function HeldFacing(left: bool, right: bool, facing: int): (f: int)
    ensures left && !right ==> f == -1
    ensures right && !left ==> f == 1
    ensures left == right ==> f == facing
  {
    if left && !right then -1 else if right && !left then 1 else facing
  }

  /**
   * The aim points at the mouse: scaled back by the distance it is the
   * offset from the centre, and the player turns toward the side it points to.
   */
  lemma AimPointsAtMouse(cx: real, cy: real, mouseX: real, mouseY: real, dist: real, facing: int)
    requires IsSide(facing)
    ensures IsSide(Facing(Aim(cx, cy, mouseX, mouseY, dist, facing).0, facing))
    ensures dist > 0.0 ==> var a := Aim(cx, cy, mouseX, mouseY, dist, facing);
      a.0 * dist == mouseX - cx && a.1 * dist == mouseY - cy
    ensures dist > 0.0 ==> var a := Aim(cx, cy, mouseX, mouseY, dist, facing);
      (a.0 > 0.0 <==> mouseX > cx) && (a.0 < 0.0 <==> mouseX < cx)
    ensures dist <= 0.0 ==> Aim(cx, cy, mouseX, mouseY, dist, facing) == (facing as real, 0.0)
  {
  }

  /** The four bullet elements, in the order of keys 1-4. */
  const BULLET_TYPES: seq<string> := ["water", "ice", "thunder", "fire"]

  /** The bullet type after handle_input: the lowest-numbered pressed key 1-4 wins. */
  function BulletChoice(inp: InputFrame, current: string): string
  {
    if inp.key1 then "water" else if inp.key2 then "ice" else if inp.key3 then "thunder"
    else if inp.key4 then "fire" else current
  }

  /**
   * The selected bullet type is always one of the four elements; it changes
   * only when a number key is pressed, and key 1 always wins.
   */
  lemma BulletChoiceStaysElemental(inp: InputFrame, current: string)
    requires current in BULLET_TYPES
    ensures BulletChoice(inp, current) in BULLET_TYPES
    ensures BulletChoice(inp, current) != current ==> inp.key1 || inp.key2 || inp.key3 || inp.key4
    ensures inp.key1 ==> BulletChoice(inp, current) == BULLET_TYPES[0]
  {
  }

  /** The health left by take_damage: the difference, clamped at 0. */
  function AfterDamage(health: int, damage: int): (h: int)
    ensures h >= 0
    ensures health - damage > 0 ==> h == health - damage
  {
    if health - damage <= 0 then 0 else health - damage
  }

  /** The health after take_damage is applied once per damage, in order. */
  function HealthAfterHits(health: int, ds: seq<int>): int
    decreases |ds|
  {
    if ds == [] then health else AfterDamage(HealthAfterHits(health, ds[..|ds| - 1]), ds[|ds| - 1])
  }

  /** None of those take_damage calls reported a death. */
  predicate SurvivesHits(health: int, ds: seq<int>)
    decreases |ds|
  {
    ds == [] || (SurvivesHits(health, ds[..|ds| - 1]) && HealthAfterHits(health, ds[..|ds| - 1]) - ds[|ds| - 1] > 0)
  }

  /** One more hit: apply it to the health so far. */
  lemma HitsStep(health: int, ds: seq<int>, d: int)
    ensures HealthAfterHits(health, ds + [d]) == AfterDamage(HealthAfterHits(health, ds), d)
    ensures SurvivesHits(health, ds + [d]) == (SurvivesHits(health, ds) && HealthAfterHits(health, ds) - d > 0)
  {
    assert (ds + [d])[..|ds|] == ds;
  }

  function Total(ds: seq<int>): int
    decreases |ds|
  {
    if ds == [] then 0 else Total(ds[..|ds| - 1]) + ds[|ds| - 1]
  }

  /**
   * With non-negative damages, a run of hits is survived exactly when the
   * health exceeds their total, and then the player has lost exactly that total.
   */
  lemma {:induction false} HitsSubtract(health: int, ds: seq<int>)
    requires forall k :: 0 <= k < |ds| ==> ds[k] >= 0
    ensures ds != [] ==> (SurvivesHits(health, ds) <==> health - Total(ds) > 0)
    ensures SurvivesHits(health, ds) ==> HealthAfterHits(health, ds) == health - Total(ds)
    decreases |ds|
  {
    if ds != [] {
      var pre := ds[..|ds| - 1];
      HitsSubtract(health, pre);
    }
  }

  /** The state keys_pressed remembers between frames. */
  datatype Keys = Keys(left: bool, right: bool, jump: bool, shoot: bool, melee: bool)

  /** One frame of keyboard and mouse input; key1..key4 pick the bullet type. */
  datatype InputFrame = InputFrame(left: bool, right: bool, jump: bool,
                                   leftButton: bool, rightButton: bool,
                                   key1: bool, key2: bool, key3: bool, key4: bool)

  /** The dictionary returned by shoot. */
  datatype ShotInfo = ShotInfo(bulletType: string, startX: real, startY: real, dirX: real, dirY: real)

  /** The dictionary returned by melee_attack. */
  datatype MeleeInfo = MeleeInfo(damage: int, knockback: real, attackRect: Rect, direction: int)

  const MELEE_COOLDOWN: real := 0.5

  /** The part of a player that a jump changes. */
  datatype JumpState = JumpState(vx: real, vy: real, onGround: bool, canDoubleJump: bool, isWallSliding: bool)

  /** The jump state of a player just made: in the air, still, with the double jump ready. */
  const START_JUMP := JumpState(0.0, 0.0, false, true, false)

  /**
   * jump on a player whose wall is on side `wallDirection`: the ground jump
   * first, then the double jump, then the wall jump; with none of them
   * nothing changes. A jump never lands the player, and only the ground jump
   * and the wall jump give back the double jump.
   */
  function Jumped(j: JumpState, wallDirection: int): (r: JumpState)
    ensures !r.onGround
    ensures r.canDoubleJump ==> j.onGround || j.isWallSliding
    ensures r == j <==> !j.onGround && !j.canDoubleJump && !j.isWallSliding
  {
    if j.onGround then j.(vy := PLAYER_JUMP_STRENGTH, onGround := false, canDoubleJump := true)
    else if j.canDoubleJump then j.(vy := DOUBLE_JUMP_STRENGTH, canDoubleJump := false)
    else if j.isWallSliding then
      j.(vy := WALL_JUMP_STRENGTH, vx := -(wallDirection as real) * WALL_JUMP_PUSH, isWallSliding := false,
         canDoubleJump := true)
    else j
  }

  class Player {
    var x: real
    var y: real
    const width: int
    const height: int
    var rect: Rect
    var vx: real
    var vy: real
    var onGround: bool
    var canDoubleJump: bool
    var isWallSliding: bool
    var wallDirection: int
    var health: int
    var maxHealth: int
    var isAlive: bool
    var currentBulletType: string
    var lastShotTime: real
    var lastMeleeTime: real
    var facingDirection: int
    var statusEffects: seq<StatusEffect>
    var keysPressed: Keys

    ghost predicate Valid()
      reads this`isWallSliding, this`wallDirection, this`facingDirection
    {
      width == PLAYER_WIDTH && height == PLAYER_HEIGHT &&
      (wallDirection == 0 || IsSide(wallDirection)) && (isWallSliding ==> wallDirection != 0) &&
      IsSide(facingDirection)
    }

    function Snapshot(): Motion
      reads this`x, this`y, this`vx, this`vy, this`onGround, this`canDoubleJump, this`isWallSliding
      reads this`wallDirection
    {
      Motion(x, y, vx, vy, onGround, canDoubleJump, isWallSliding, wallDirection)
    }

    function JumpFields(): JumpState
      reads this`vx, this`vy, this`onGround, this`canDoubleJump, this`isWallSliding
    {
      JumpState(vx, vy, onGround, canDoubleJump, isWallSliding)
    }

    /** A player just made: at rest in the air, no wall, no key held. */
    ghost predicate JustMade()
      reads this`vx, this`vy, this`onGround, this`canDoubleJump, this`isWallSliding, this`wallDirection
      reads this`keysPressed
    {
      JumpFields() == START_JUMP && wallDirection == 0 && keysPressed == Keys(false, false, false, false, false)
    }

    constructor (x0: real, y0: real)
      ensures Valid()
      ensures x == x0 && y == y0 && vx == 0.0 && vy == 0.0
      ensures !onGround && canDoubleJump && !isWallSliding && wallDirection == 0
      ensures health == PLAYER_MAX_HEALTH && maxHealth == PLAYER_MAX_HEALTH && isAlive
      ensures currentBulletType == "water" && lastShotTime == 0.0 && lastMeleeTime == 0.0
      ensures facingDirection == 1 && statusEffects == []
      ensures keysPressed == Keys(false, false, false, false, false)
      ensures rect == RectOf(x0, y0, PLAYER_WIDTH, PLAYER_HEIGHT)
    {
      x, y, width, height := x0, y0, PLAYER_WIDTH, PLAYER_HEIGHT;
      rect := RectOf(x0, y0, PLAYER_WIDTH, PLAYER_HEIGHT);
      vx, vy := 0.0, 0.0;
      onGround, canDoubleJump, isWallSliding, wallDirection := false, true, false, 0;
      health, maxHealth, isAlive := PLAYER_MAX_HEALTH, PLAYER_MAX_HEALTH, true;
      currentBulletType := "water";
      lastShotTime, lastMeleeTime := 0.0, 0.0;
      facingDirection := 1;
      statusEffects := [];
      keysPressed := Keys(false, false, false, false, false);
    }

    /** jump: ground jump first, then the double jump, then the wall jump. */
    method Jump()
      requires Valid()
      modifies this`vx, this`vy, this`onGround, this`canDoubleJump, this`isWallSliding
      ensures Valid()
      ensures old(onGround) ==>
        vy == PLAYER_JUMP_STRENGTH && !onGround && canDoubleJump && vx == old(vx) && isWallSliding == old(isWallSliding)
      ensures !old(onGround) && old(canDoubleJump) ==>
        vy == DOUBLE_JUMP_STRENGTH && !canDoubleJump && vx == old(vx) && !onGround && isWallSliding == old(isWallSliding)
      ensures !old(onGround) && !old(canDoubleJump) && old(isWallSliding) ==>
        vy == WALL_JUMP_STRENGTH && vx == -(wallDirection as real) * WALL_JUMP_PUSH &&
        !isWallSliding && canDoubleJump && !onGround
      ensures !old(onGround) && !old(canDoubleJump) && !old(isWallSliding) ==>
        vx == old(vx) && vy == old(vy) && !canDoubleJump && !isWallSliding && !onGround
      ensures JumpFields() == Jumped(old(JumpFields()), wallDirection)
    {
      if onGround {
        vy := PLAYER_JUMP_STRENGTH;
        onGround := false;
        canDoubleJump := true;
      } else if canDoubleJump {
        vy := DOUBLE_JUMP_STRENGTH;
        canDoubleJump := false;
      } else if isWallSliding {
        vy := WALL_JUMP_STRENGTH;
        vx := -(wallDirection as real) * WALL_JUMP_PUSH;
        isWallSliding := false;
        canDoubleJump := true;
      }
    }

    /**
     * shoot, with the clock reading `now`, the mouse position and `dist`, the
     * Euclidean length of the aim vector (the square root is the caller's).
     */
    method Shoot(now: real, mouseX: real, mouseY: real, dist: real) returns (shot: Option<ShotInfo>)
      requires Valid()
      requires IsDistance(dist, x + (width / 2) as real, y + (height / 2) as real, mouseX, mouseY)
      modifies this`lastShotTime, this`facingDirection
      ensures Valid()
      ensures now - old(lastShotTime) < FIRE_RATE ==>
        shot == None && lastShotTime == old(lastShotTime) && facingDirection == old(facingDirection)
      ensures now - old(lastShotTime) >= FIRE_RATE ==> shot.Some? && lastShotTime == now
      ensures shot.Some? ==>
        var cx := x + (width / 2) as real;
        var cy := y + (height / 2) as real;
        var aim := Aim(cx, cy, mouseX, mouseY, dist, old(facingDirection));
        shot.value == ShotInfo(currentBulletType, cx, cy, aim.0, aim.1) &&
        facingDirection == Facing(aim.0, old(facingDirection))
    {
      if now - lastShotTime < FIRE_RATE {
        return None;
      }
      var cx := x + (width / 2) as real;
      var cy := y + (height / 2) as real;
      var dirX := mouseX - cx;
      var dirY := mouseY - cy;
      if dist > 0.0 {
        dirX := dirX / dist;
        dirY := dirY / dist;
      } else {
        dirX := facingDirection as real;
        dirY := 0.0;
      }
      if dirX > 0.0 {
        facingDirection := 1;
      } else if dirX < 0.0 {
        facingDirection := -1;
      }
      lastShotTime := now;
      shot := Some(ShotInfo(currentBulletType, cx, cy, dirX, dirY));
    }

    /** melee_attack: a 0.5 s cooldown, and an 80-wide box on the facing side. */
    method MeleeAttack(now: real) returns (hit: Option<MeleeInfo>)
      requires Valid()
      modifies this`lastMeleeTime
      ensures now - old(lastMeleeTime) < MELEE_COOLDOWN ==> hit == None && lastMeleeTime == old(lastMeleeTime)
      ensures now - old(lastMeleeTime) >= MELEE_COOLDOWN ==> lastMeleeTime == now && hit.Some?
      ensures hit.Some? ==>
        hit.value.damage == MELEE_DAMAGE && hit.value.knockback == MELEE_KNOCKBACK &&
        hit.value.direction == facingDirection &&
        hit.value.attackRect == RectOf(if facingDirection > 0 then x + width as real else x - MELEE_RANGE as real,
                                       y, MELEE_RANGE, height)
    {
      if now - lastMeleeTime < MELEE_COOLDOWN {
        return None;
      }
      lastMeleeTime := now;
      var attackX := x + (if facingDirection > 0 then width as real else -(MELEE_RANGE as real));
      hit := Some(MeleeInfo(MELEE_DAMAGE, MELEE_KNOCKBACK, RectOf(attackX, y, MELEE_RANGE, height), facingDirection));
    }

    /**
     * handle_input: movement keys are copied, and jump, shoot and melee fire
     * only on the frame their key goes down; keys 1-4 pick the bullet type.
     */
    method HandleInput(inp: InputFrame, now: real, mouseX: real, mouseY: real, dist: real)
      requires Valid()
      requires IsDistance(dist, x + (width / 2) as real, y + (height / 2) as real, mouseX, mouseY)
      modifies this`keysPressed, this`currentBulletType, this`vx, this`vy, this`onGround, this`canDoubleJump
      modifies this`isWallSliding, this`lastShotTime, this`facingDirection, this`lastMeleeTime
      ensures Valid()
      ensures keysPressed == Keys(inp.left, inp.right, inp.jump, inp.leftButton, inp.rightButton)
      ensures JumpFields() ==
        if inp.jump && !old(keysPressed.jump) then Jumped(old(JumpFields()), wallDirection) else old(JumpFields())
      ensures !(inp.leftButton && !old(keysPressed.shoot)) ==> lastShotTime == old(lastShotTime)
      ensures inp.leftButton && !old(keysPressed.shoot) && now - old(lastShotTime) >= FIRE_RATE ==> lastShotTime == now
      ensures !(inp.rightButton && !old(keysPressed.melee)) ==> lastMeleeTime == old(lastMeleeTime)
      ensures inp.rightButton && !old(keysPressed.melee) && now - old(lastMeleeTime) >= MELEE_COOLDOWN ==>
        lastMeleeTime == now
      ensures currentBulletType == BulletChoice(inp, old(currentBulletType))
    {
      MoveKeys(inp);
      MouseButtons(inp, now, mouseX, mouseY, dist);
    }

    /** The keyboard half of handle_input: copy the movement keys, jump on the press edge. */
    method MoveKeys(inp: InputFrame)
      requires Valid()
      modifies this`keysPressed, this`vx, this`vy, this`onGround, this`canDoubleJump, this`isWallSliding
      ensures Valid()
      ensures keysPressed == old(keysPressed).(left := inp.left, right := inp.right, jump := inp.jump)
      ensures JumpFields() ==
        if inp.jump && !old(keysPressed.jump) then Jumped(old(JumpFields()), wallDirection) else old(JumpFields())
    {
      keysPressed := keysPressed.(left := inp.left, right := inp.right);
      JumpKey(inp.jump);
    }

    /** The mouse half of handle_input: shoot and melee on the press edge, then the bullet-type keys. */
    method MouseButtons(inp: InputFrame, now: real, mouseX: real, mouseY: real, dist: real)
      requires Valid()
      requires IsDistance(dist, x + (width / 2) as real, y + (height / 2) as real, mouseX, mouseY)
      modifies this`keysPressed, this`currentBulletType, this`lastShotTime, this`facingDirection, this`lastMeleeTime
      ensures Valid()
      ensures keysPressed == old(keysPressed).(shoot := inp.leftButton, melee := inp.rightButton)
      ensures !(inp.leftButton && !old(keysPressed.shoot)) ==> lastShotTime == old(lastShotTime)
      ensures inp.leftButton && !old(keysPressed.shoot) && now - old(lastShotTime) >= FIRE_RATE ==> lastShotTime == now
      ensures !(inp.rightButton && !old(keysPressed.melee)) ==> lastMeleeTime == old(lastMeleeTime)
      ensures inp.rightButton && !old(keysPressed.melee) && now - old(lastMeleeTime) >= MELEE_COOLDOWN ==>
        lastMeleeTime == now
      ensures currentBulletType == BulletChoice(inp, old(currentBulletType))
    {
      ShootButton(inp.leftButton, now, mouseX, mouseY, dist);
      MeleeButton(inp.rightButton, now);
      SelectBulletType(inp);
    }

    /** The bullet-type block of handle_input. */
    method SelectBulletType(inp: InputFrame)
      modifies this`currentBulletType
      ensures currentBulletType == BulletChoice(inp, old(currentBulletType))
    {
      if inp.key1 {
        currentBulletType := "water";
      } else if inp.key2 {
        currentBulletType := "ice";
      } else if inp.key3 {
        currentBulletType := "thunder";
      } else if inp.key4 {
        currentBulletType := "fire";
      }
    }

    /** The jump block of handle_input: jump on the press edge, then remember the key. */
    method JumpKey(pressed: bool)
      requires Valid()
      modifies this`keysPressed, this`vx, this`vy, this`onGround, this`canDoubleJump, this`isWallSliding
      ensures Valid()
      ensures keysPressed == old(keysPressed).(jump := pressed)
      ensures JumpFields() ==
        if pressed && !old(keysPressed.jump) then Jumped(old(JumpFields()), wallDirection) else old(JumpFields())
    {
      if pressed && !keysPressed.jump {
        Jump();
      }
      keysPressed := keysPressed.(jump := pressed);
    }

    /** The shoot block of handle_input: shoot on the press edge, then remember the button. */
    method ShootButton(pressed: bool, now: real, mouseX: real, mouseY: real, dist: real)
      requires Valid()
      requires IsDistance(dist, x + (width / 2) as real, y + (height / 2) as real, mouseX, mouseY)
      modifies this`keysPressed, this`lastShotTime, this`facingDirection
      ensures Valid()
      ensures keysPressed == old(keysPressed).(shoot := pressed)
      ensures !(pressed && !old(keysPressed.shoot)) ==> lastShotTime == old(lastShotTime)
      ensures pressed && !old(keysPressed.shoot) && now - old(lastShotTime) >= FIRE_RATE ==> lastShotTime == now
    {
      if pressed && !keysPressed.shoot {
        var _ := Shoot(now, mouseX, mouseY, dist);
      }
      keysPressed := keysPressed.(shoot := pressed);
    }

    /** The melee block of handle_input: attack on the press edge, then remember the button. */
    method MeleeButton(pressed: bool, now: real)
      requires Valid()
      modifies this`keysPressed, this`lastMeleeTime
      ensures Valid()
      ensures keysPressed == old(keysPressed).(melee := pressed)
      ensures !(pressed && !old(keysPressed.melee)) ==> lastMeleeTime == old(lastMeleeTime)
      ensures pressed && !old(keysPressed.melee) && now - old(lastMeleeTime) >= MELEE_COOLDOWN ==> lastMeleeTime == now
    {
      if pressed && !keysPressed.melee {
        var _ := MeleeAttack(now);
      }
      keysPressed := keysPressed.(melee := pressed);
    }

    /**
     * handle_collisions: clear the contact flags, resolve every overlapping
     * platform along its smallest overlap, then clamp to the screen.
     */
    method HandleCollisions(platforms: seq<Rect>)
      requires Valid()
      modifies this`x, this`y, this`vx, this`vy, this`onGround, this`canDoubleJump,
               this`isWallSliding, this`wallDirection
      ensures Valid()
      ensures Snapshot() == ClampToScreen(
        ResolveAll(old(Snapshot()).(onGround := false, sliding := false, wallDir := 0),
                   RectOf(old(x), old(y), width, height), platforms, height, width), width)
      ensures 0.0 <= x <= (SCREEN_WIDTH - width) as real
    {
      onGround, isWallSliding, wallDirection := false, false, 0;
      var start := Snapshot();
      var pr := RectOf(x, y, width, height);
      var i := 0;
      while i < |platforms|
        invariant 0 <= i <= |platforms|
        invariant Snapshot() == ResolveAll(start, pr, platforms[..i], height, width)
      {
        assert platforms[..i + 1][..i] == platforms[..i];
        ResolveAgainst(pr, platforms[i]);
        i := i + 1;
      }
      assert platforms[..|platforms|] == platforms;
      ResolveAllWallConsistent(start, pr, platforms, height, width);
      KeepOnScreen();
    }

    /** The body of handle_collisions' loop: one platform against the rect taken before the loop. */
    method ResolveAgainst(pr: Rect, p: Rect)
      modifies this`x, this`y, this`vy, this`onGround, this`canDoubleJump, this`isWallSliding, this`wallDirection
      ensures Snapshot() == ResolvePlatform(old(Snapshot()), pr, p, height, width)
    {
      if !Collide(pr, p) {
        return;
      }
      var overlapLeft := pr.Right() - p.x;
      var overlapRight := p.Right() - pr.x;
      var overlapTop := pr.Bottom() - p.y;
      var overlapBottom := p.Bottom() - pr.y;
      var least := Min4(overlapLeft, overlapRight, overlapTop, overlapBottom);
      if least == overlapTop && vy > 0.0 {
        y := (p.y - height) as real;
        vy := 0.0;
        onGround := true;
        canDoubleJump := true;
      } else if least == overlapBottom && vy < 0.0 {
        y := p.Bottom() as real;
        vy := 0.0;
      } else if least == overlapLeft && vx > 0.0 {
        x := (p.x - width) as real;
        if !onGround && vy > 0.0 {
          isWallSliding := true;
          wallDirection := 1;
          vy := vy * 0.7;
        }
      } else if least == overlapRight && vx < 0.0 {
        x := p.Right() as real;
        if !onGround && vy > 0.0 {
          isWallSliding := true;
          wallDirection := -1;
          vy := vy * 0.7;
        }
      }
    }

    /** The screen clamp at the end of handle_collisions. */
    method KeepOnScreen()
      requires width == PLAYER_WIDTH
      modifies this`x, this`vx
      ensures Snapshot() == ClampToScreen(old(Snapshot()), width)
    {
      if x < 0.0 {
        x := 0.0;
        vx := 0.0;
      } else if x + width as real > SCREEN_WIDTH as real {
        x := (SCREEN_WIDTH - width) as real;
        vx := 0.0;
      }
    }

    /** update_status_effects: keep the effects still active at `now`. */
    method UpdateStatusEffects(now: real)
      modifies this`statusEffects
      ensures statusEffects == ActiveOnly(old(statusEffects), now)
    {
      statusEffects := ActiveOnly(statusEffects, now);
    }

    /** get_speed_modifier: the running minimum of the effect modifiers, starting from 1.0. */
    method GetSpeedModifier(now: real) returns (modifier: real)
      ensures modifier == MinModifier(statusEffects, now)
      ensures modifier <= 1.0
      ensures statusEffects == [] ==> modifier == 1.0
    {
      modifier := 1.0;
      var i := 0;
      while i < |statusEffects|
        invariant 0 <= i <= |statusEffects|
        invariant modifier == MinModifier(statusEffects[..i], now)
      {
        assert statusEffects[..i + 1][..i] == statusEffects[..i];
        modifier := MinR(modifier, SpeedModifier(statusEffects[i], now));
        i := i + 1;
      }
      assert statusEffects[..i] == statusEffects;
    }

    /** add_status_effect, created at clock reading `now`. */
    method AddStatusEffect(kind: EffectKind, duration: real, intensity: real, now: real)
      modifies this`statusEffects
      ensures statusEffects == old(statusEffects) + [StatusEffect(kind, duration, intensity, now)]
    {
      statusEffects := statusEffects + [StatusEffect(kind, duration, intensity, now)];
    }

    /** take_damage: at or below zero the health is clamped to 0 and the player dies. */
    method TakeDamage(damage: int) returns (died: bool)
      modifies this`health, this`isAlive
      ensures died <==> old(health) - damage <= 0
      ensures health == AfterDamage(old(health), damage)
      ensures isAlive == (old(isAlive) && !died)
    {
      health := health - damage;
      if health <= 0 {
        health := 0;
        isAlive := false;
        return true;
      }
      return false;
    }

    /** heal: add `amount`, capped at max_health. */
    method Heal(amount: int)
      modifies this`health
      ensures health == if old(health) + amount > maxHealth then maxHealth else old(health) + amount
      ensures health <= maxHealth
    {
      health := health + amount;
      if health > maxHealth {
        health := maxHealth;
      }
    }

    /** The steering, gravity and position step of update. */
    method Steer(modifier: real)
      requires Valid()
      modifies this`vx, this`vy, this`x, this`y, this`facingDirection
      ensures Valid()
      ensures Snapshot() == MoveStep(old(Snapshot()), keysPressed.left, keysPressed.right, modifier)
      ensures facingDirection == HeldFacing(keysPressed.left, keysPressed.right, old(facingDirection))
    {
      if keysPressed.left && !keysPressed.right {
        vx := -PLAYER_SPEED * modifier;
        facingDirection := -1;
      } else if keysPressed.right && !keysPressed.left {
        vx := PLAYER_SPEED * modifier;
        facingDirection := 1;
      } else {
        vx := vx * 0.8;
      }
      if !onGround {
        vy := vy + GRAVITY;
        if vy > MAX_FALL_SPEED {
          vy := MAX_FALL_SPEED;
        }
      }
      x := x + vx;
      y := y + vy;
    }

    /** The motion part of update: steer, fall and move, then handle collisions. */
    method Move(platforms: seq<Rect>, modifier: real)
      requires Valid()
      modifies this`x, this`y, this`vx, this`vy, this`onGround, this`canDoubleJump, this`isWallSliding
      modifies this`wallDirection, this`facingDirection
      ensures Valid()
      ensures Snapshot() == FrameMotion(old(Snapshot()), keysPressed.left, keysPressed.right, modifier,
                                        platforms, width, height)
      ensures facingDirection == HeldFacing(keysPressed.left, keysPressed.right, old(facingDirection))
    {
      ghost var before := Snapshot();
      Steer(modifier);
      ghost var moved := Snapshot();
      assert moved == MoveStep(before, keysPressed.left, keysPressed.right, modifier);
      HandleCollisions(platforms);
    }

    /**
     * update: drop expired effects, steer from the held keys at the current
     * speed modifier, apply capped gravity, move, collide, sync the rect, and
     * die on falling more than 100 px below the screen.
     */
    method Update(platforms: seq<Rect>, now: real)
      requires Valid()
      modifies this`x, this`y, this`vx, this`vy, this`onGround, this`canDoubleJump, this`isWallSliding
      modifies this`wallDirection, this`health, this`isAlive, this`statusEffects, this`rect, this`facingDirection
      ensures Valid()
      ensures statusEffects == ActiveOnly(old(statusEffects), now)
      ensures Snapshot() == FrameMotion(old(Snapshot()), old(keysPressed.left), old(keysPressed.right),
                                        MinModifier(ActiveOnly(old(statusEffects), now), now),
                                        platforms, width, height)
      ensures facingDirection == HeldFacing(old(keysPressed.left), old(keysPressed.right), old(facingDirection))
      ensures rect == old(rect).(x := Trunc(x), y := Trunc(y))
      ensures y > (SCREEN_HEIGHT + 100) as real ==> health == 0 && !isAlive
      ensures y <= (SCREEN_HEIGHT + 100) as real ==> health == old(health) && isAlive == old(isAlive)
    {
      EffectsAndMove(platforms, now);
      Settle();
    }

    /** The first half of update: drop expired effects, then move at the remaining speed modifier. */
    method EffectsAndMove(platforms: seq<Rect>, now: real)
      requires Valid()
      modifies this`x, this`y, this`vx, this`vy, this`onGround, this`canDoubleJump, this`isWallSliding
      modifies this`wallDirection, this`statusEffects, this`facingDirection
      ensures Valid()
      ensures statusEffects == ActiveOnly(old(statusEffects), now)
      ensures Snapshot() == FrameMotion(old(Snapshot()), keysPressed.left, keysPressed.right,
                                        MinModifier(ActiveOnly(old(statusEffects), now), now),
                                        platforms, width, height)
      ensures facingDirection == HeldFacing(keysPressed.left, keysPressed.right, old(facingDirection))
    {
      UpdateStatusEffects(now);
      var modifier := GetSpeedModifier(now);
      Move(platforms, modifier);
    }

    /** The second half of update: sync the rect, then die on falling more than 100 px below the screen. */
    method Settle()
      modifies this`rect, this`health, this`isAlive
      ensures rect == old(rect).(x := Trunc(x), y := Trunc(y))
      ensures y > (SCREEN_HEIGHT + 100) as real ==> health == 0 && !isAlive
      ensures y <= (SCREEN_HEIGHT + 100) as real ==> health == old(health) && isAlive == old(isAlive)
    {
      rect := Synced(rect, x, y);
      if y > (SCREEN_HEIGHT + 100) as real {
        var _ := TakeDamage(health);
      }
    }
  }

  /** One more take_damage in a run of hits: health and life keep following the whole run from (h0, alive0). */
  method TakeNextHit(player: Player, ghost h0: int, ghost alive0: bool, ghost ds: seq<int>, d: int)
    requires player.health == HealthAfterHits(h0, ds) && player.isAlive == (alive0 && SurvivesHits(h0, ds))
    modifies player`health, player`isAlive
    ensures player.health == HealthAfterHits(h0, ds + [d])
    ensures player.isAlive == (alive0 && SurvivesHits(h0, ds + [d]))
  {
    HitsStep(h0, ds, d);
    var _ := player.TakeDamage(d);
  }
}
