/**
 * The platformer's player body: position and velocity, the pose that picks
 * its sprite, jump and double-jump gating with a cooldown, health, lives,
 * score and coins.
 *
 * `BodyData` is the value of a `Player2D`; the functions below specify each
 * operation on it and the class at the end performs them in place.  The five
 * sprite sheets are kept as clip values keyed by sheet, so the two poses that
 * share a sheet (running left and right, jumping and falling) share a clip.
 * The `died` signal is returned by the operations that can emit it; the other
 * signals only refresh labels and are not modelled.
 */
module Bodies {
  import opened Geometry
  import opened Animation
  import opened Options

  datatype Pose = Idle | RunningLeft | RunningRight | Jumping | Falling | Hurt | Dead

  /** The sprite sheets the constructor tries to load. */
  datatype Sheet = IdleSheet | RunSheet | JumpSheet | HurtSheet | DeathSheet

  const Width: real := 32.0
  const Height: real := 32.0
  const DoubleJumpCooldown: real := 3.0
  const Gravity: real := 800.0
  const Friction: real := 0.85
  const AccelerationX: real := 600.0
  const JumpVelocity: real := -350.0
  const MaxSpeedX: real := 200.0
  const MaxSpeedY: real := 500.0
  /** Below this height the player has fallen off the level. */
  const FallLimit: real := 800.0
  const FullHealth: int := 100
  const CoinPoints: int := 100

  datatype BodyData = BodyData(
    pos: Point,
    vel: Point,
    spawn: Point,
    pose: Pose,
    onGround: bool,
    canJump: bool,
    facingRight: bool,
    hasDoubleJump: bool,
    cooldown: real,
    health: int,
    lives: int,
    score: int,
    coins: int,
    sprites: Sprites)

  /** The clip of each sheet, for the sheets that loaded. */
  datatype Sprites = Sprites(idle: Option<Clip>, run: Option<Clip>, jump: Option<Clip>, hurt: Option<Clip>, death: Option<Clip>) {
    function Get(s: Sheet): Option<Clip> {
      match s
      case IdleSheet => idle
      case RunSheet => run
      case JumpSheet => jump
      case HurtSheet => hurt
      case DeathSheet => death
    }

    function Put(s: Sheet, c: Clip): (r: Sprites)
      ensures r.Get(s) == Some(c)
    {
      match s
      case IdleSheet => this.(idle := Some(c))
      case RunSheet => this.(run := Some(c))
      case JumpSheet => this.(jump := Some(c))
      case HurtSheet => this.(hurt := Some(c))
      case DeathSheet => this.(death := Some(c))
    }
  }

  /** The sheet each pose is drawn from. */
  function SheetOf(p: Pose): Sheet {
    match p
    case Idle => IdleSheet
    case RunningLeft => RunSheet
    case RunningRight => RunSheet
    case Jumping => JumpSheet
    case Falling => JumpSheet
    case Hurt => HurtSheet
    case Dead => DeathSheet
  }

  /**
   * A sheet's clip as `loadAnimations` prepares it: 32×32 frames, its own
   * frame count and rate, looping only for idle and run, and already playing
   * except for the hurt and death clips.
   */
  function SheetClip(s: Sheet): (c: Clip)
    ensures c.frameWidth == 32 && c.frameHeight == 32 && c.currentFrame == 0 && !c.finished
    ensures c.loop <==> s == IdleSheet || s == RunSheet
    ensures c.playing <==> s != HurtSheet && s != DeathSheet
  {
    var c := WithFrameRate(Load(NewClip(), true, 32, 32, SheetFrames(s)), SheetRate(s)).(loop := s == IdleSheet || s == RunSheet);
    if s == HurtSheet || s == DeathSheet then c else Played(c)
  }

  /** The number of frames in each sheet. */
  function SheetFrames(s: Sheet): int {
    match s
    case IdleSheet => 4
    case RunSheet => 6
    case JumpSheet => 8
    case HurtSheet => 4
    case DeathSheet => 8
  }

  /** The frame rate `loadAnimations` gives each sheet's clip. */
  function SheetRate(s: Sheet): real {
    match s
    case IdleSheet => 10.0
    case RunSheet => 18.0
    case JumpSheet => 20.0
    case HurtSheet => 15.0
    case DeathSheet => 12.0
  }

  function Abs(r: real): real { if r < 0.0 then -r else r }

  /** A body as constructed, given which sprite sheets load. */
  function NewBody(loaded: set<Sheet>): (b: BodyData)
    ensures b.pos == b.spawn == Point(100.0, 100.0) && b.vel == Point(0.0, 0.0)
    ensures b.pose == Idle && !b.onGround && b.canJump && b.facingRight && b.hasDoubleJump
    ensures b.cooldown == 0.0 && b.health == FullHealth && b.lives == 3 && b.score == 0 && b.coins == 0
    ensures forall s :: b.sprites.Get(s) == (if s in loaded then Some(SheetClip(s)) else None)
  {
    BodyData(Point(100.0, 100.0), Point(0.0, 0.0), Point(100.0, 100.0), Idle, false, true, true, true,
             0.0, FullHealth, 3, 0, 0, LoadedSprites(loaded))
  }

  /** The clips of the sheets in `loaded`. */
  function LoadedSprites(loaded: set<Sheet>): Sprites {
    Sprites(
      if IdleSheet in loaded then Some(SheetClip(IdleSheet)) else None,
      if RunSheet in loaded then Some(SheetClip(RunSheet)) else None,
      if JumpSheet in loaded then Some(SheetClip(JumpSheet)) else None,
      if HurtSheet in loaded then Some(SheetClip(HurtSheet)) else None,
      if DeathSheet in loaded then Some(SheetClip(DeathSheet)) else None)
  }

  /** Rewinds and plays the clip of sheet `s`, if it was loaded. */
  function Restarted(m: Sprites, s: Sheet): (r: Sprites)
    ensures m.Get(s).Some? ==> r.Get(s) == Some(Played(Rewound(m.Get(s).value)))
    ensures m.Get(s).None? ==> r == m
  {
    match m.Get(s)
    case None => m
    case Some(c) => m.Put(s, Played(Rewound(c)))
  }

  /** `setState`: a new pose restarts its clip; the same pose changes nothing. */
  function Posed(b: BodyData, p: Pose): (r: BodyData)
    ensures r.pose == p && r.(pose := b.pose, sprites := b.sprites) == b
  {
    if b.pose == p then b else b.(pose := p, sprites := Restarted(b.sprites, SheetOf(p)))
  }

  /** Poses that a horizontal move does not interrupt. */
  predicate Airborne(p: Pose) {
    p == Jumping || p == Falling || p == Hurt
  }

  /** `moveLeft`: accelerate left, at most to the top speed; face left; run unless in the air or hurt. */
  function MovedLeft(b: BodyData): BodyData {
    var vx := b.vel.x - AccelerationX;
    var b1 := b.(vel := b.vel.(x := if vx < -MaxSpeedX then -MaxSpeedX else vx), facingRight := false);
    if Airborne(b.pose) then b1 else Posed(b1, RunningLeft)
  }

  /** `moveRight`: the mirror image of `moveLeft`. */
  function MovedRight(b: BodyData): BodyData {
    var vx := b.vel.x + AccelerationX;
    var b1 := b.(vel := b.vel.(x := if vx > MaxSpeedX then MaxSpeedX else vx), facingRight := true);
    if Airborne(b.pose) then b1 else Posed(b1, RunningRight)
  }

  /** Whether `jump` takes off from the ground. */
  predicate CanGroundJump(b: BodyData) {
    b.onGround && b.canJump && b.pose != Hurt
  }

  /** Whether `jump` performs a double jump in the air. */
  predicate CanDoubleJump(b: BodyData) {
    !b.onGround && b.hasDoubleJump && b.cooldown <= 0.0 && b.pose != Hurt
  }

  /**
   * `jump`: from the ground it spends the ground jump; in the air it spends
   * the double jump and starts the cooldown.  Either way the body rises at
   * the jump speed in the JUMPING pose with its clip restarted.
   */
  function Jumped(b: BodyData): BodyData {
    if CanGroundJump(b) then
      var b1 := Posed(b.(vel := b.vel.(y := JumpVelocity), onGround := false, canJump := false), Jumping);
      b1.(sprites := Restarted(b1.sprites, JumpSheet))
    else if CanDoubleJump(b) then
      var b1 := Posed(b.(vel := b.vel.(y := JumpVelocity), hasDoubleJump := false,
                         cooldown := DoubleJumpCooldown), Jumping);
      b1.(sprites := Restarted(b1.sprites, JumpSheet))
    else b
  }

  /** `stopHorizontalMovement`: friction, a snap to 0 below 0.1, and IDLE on the ground when nearly still. */
  function Stopped(b: BodyData): BodyData {
    var vx := b.vel.x * Friction;
    var vx2 := if Abs(vx) < 0.1 then 0.0 else vx;
    var b1 := b.(vel := b.vel.(x := vx2));
    if b.onGround && b.pose != Dead && b.pose != Hurt && Abs(vx2) < 1.0 then Posed(b1, Idle) else b1
  }

  /** The clip of the current pose advanced by `dt`. */
  function Animated(b: BodyData, dt: real): BodyData {
    var s := SheetOf(b.pose);
    match b.sprites.Get(s)
    case None => b
    case Some(c) => b.(sprites := b.sprites.Put(s, Advance(c, dt)))
  }

  /** The cooldown after `dt`: a running cooldown decreases but stops at 0. */
  function Cooled(c: real, dt: real): real {
    if c > 0.0 then (if c - dt < 0.0 then 0.0 else c - dt) else c
  }

  /** The pose `update` settles on from the velocity, for a body that is neither dead nor hurt. */
  function Settled(b: BodyData): (r: BodyData)
    ensures r.(pose := b.pose, sprites := b.sprites) == b
  {
    if !b.onGround then
      if b.vel.y < 0.0 then (if b.pose != Jumping then Posed(b, Jumping) else b)
      else if b.vel.y > 0.0 then Posed(b, Falling)
      else b
    else if Abs(b.vel.x) > 1.0 then (if b.vel.x < 0.0 then Posed(b, RunningLeft) else Posed(b, RunningRight))
    else Posed(b, Idle)
  }

  /**
   * `update(dt)`: animate and cool down; a dead body stops there.  Otherwise
   * move by the velocity, stopping at the left edge; a body below the fall
   * limit takes damage equal to its health and stops there.  Otherwise the
   * vertical speed is capped both ways and the pose follows the velocity
   * unless the body is hurt.
   */
  function Updated(b: BodyData, dt: real): BodyData {
    var b1 := Aged(b, dt);
    if b1.pose == Dead then b1 else Travelled(b1, dt)
  }

  /** The first part of `update`: the pose's clip advances and the cooldown runs down. */
  function Aged(b: BodyData, dt: real): (r: BodyData)
    ensures r.(sprites := b.sprites, cooldown := b.cooldown) == b
  {
    Animated(b, dt).(cooldown := Cooled(b.cooldown, dt))
  }

  /** The part of `update` that a living body goes through after its clip and cooldown. */
  function Travelled(b: BodyData, dt: real): BodyData {
    var b1 := Stepped(b, dt);
    if b1.pos.y > FallLimit then Damaged(b1, b1.health) else Steadied(b1)
  }

  /** One step along the velocity; crossing the left edge stops at it and cancels the horizontal speed. */
  function Stepped(b: BodyData, dt: real): (r: BodyData)
    ensures r.pos.x >= 0.0 && r.pos.y == b.pos.y + b.vel.y * dt && r.vel.y == b.vel.y
    ensures r.(pos := b.pos, vel := b.vel) == b
  {
    var nx, ny := b.pos.x + b.vel.x * dt, b.pos.y + b.vel.y * dt;
    if nx < 0.0 then b.(pos := Point(0.0, ny), vel := b.vel.(x := 0.0)) else b.(pos := Point(nx, ny))
  }

  /** The vertical speed capped both ways, then the pose from the velocity unless hurt. */
  function Steadied(b: BodyData): (r: BodyData)
    ensures -MaxSpeedY <= r.vel.y <= MaxSpeedY
    ensures r.(vel := b.vel, pose := b.pose, sprites := b.sprites) == b
  {
    var vy := if b.vel.y > MaxSpeedY then MaxSpeedY else if b.vel.y < -MaxSpeedY then -MaxSpeedY else b.vel.y;
    var b1 := b.(vel := b.vel.(y := vy));
    if b1.pose == Hurt then b1 else Settled(b1)
  }

  /** Whether `update(dt)` emits `died`: only by falling off the level. */
  predicate UpdateKills(b: BodyData, dt: real) {
    b.pose != Dead && b.pos.y + b.vel.y * dt > FallLimit
  }

  /** `applyGravity(dt)`: an airborne living body accelerates down, up to the fall speed. */
  function Fallen(b: BodyData, dt: real): BodyData {
    if !b.onGround && b.pose != Dead then
      var vy := b.vel.y + Gravity * dt;
      b.(vel := b.vel.(y := if vy > MaxSpeedY then MaxSpeedY else vy))
    else b
  }

  /** `setOnGround(g)`: landing stops the fall and restores both jumps; otherwise only the flag is set. */
  function Grounded(b: BodyData, g: bool): BodyData {
    if g && !b.onGround then b.(onGround := true, vel := b.vel.(y := 0.0), canJump := true, hasDoubleJump := true)
    else b.(onGround := g)
  }

  /** `die`: DEAD, motionless, one life fewer, whatever the body's state. */
  function Killed(b: BodyData): BodyData {
    Posed(b, Dead).(vel := Point(0.0, 0.0), lives := b.lives - 1)
  }

  /** `takeDamage`: health drops, not below 0; at 0 the body dies, every time. */
  function Damaged(b: BodyData, amount: int): BodyData {
    var h := if b.health - amount < 0 then 0 else b.health - amount;
    if h <= 0 then Killed(b.(health := h)) else b.(health := h)
  }

  /** Whether `takeDamage(amount)` emits `died`. */
  predicate DamageKills(b: BodyData, amount: int) {
    b.health - amount <= 0
  }

  /** `heal`: health rises, not above 100, whatever the state. */
  function Mended(b: BodyData, amount: int): BodyData {
    b.(health := if b.health + amount > FullHealth then FullHealth else b.health + amount)
  }

  /** `respawn(p)`: back at `p` (also the new spawn point), still, at full health, airborne and IDLE. */
  function Respawned(b: BodyData, p: Point): BodyData {
    Posed(b.(spawn := p, pos := p, vel := Point(0.0, 0.0), health := FullHealth, onGround := false), Idle)
  }

  function Scored(b: BodyData, points: int): BodyData {
    b.(score := b.score + points)
  }

  /** `collectCoin`: one coin more and its points. */
  function CoinTaken(b: BodyData): BodyData {
    Scored(b.(coins := b.coins + 1), CoinPoints)
  }

  /** `boundingBox`: the 32×32 square at the body's position. */
  function Box(b: BodyData): (r: Rect)
    ensures r.Left() == b.pos.x && r.Top() == b.pos.y && r.Right() == b.pos.x + Width && r.Bottom() == b.pos.y + Height
  {
    Rect(b.pos.x, b.pos.y, Width, Height)
  }

  // ---------------------------------------------------------------------
  // Properties
  // ---------------------------------------------------------------------

  /**
   * Moving left lowers the horizontal speed by the acceleration but not
   * below the top speed leftward, faces left, and runs left unless the body
   * is jumping, falling or hurt; nothing but velocity, facing, pose and
   * sprites changes.  Moving right is the mirror image.
   */
  lemma HorizontalMoves(b: BodyData)
    ensures var r := MovedLeft(b);
      r.vel.x == (if b.vel.x - AccelerationX < -MaxSpeedX then -MaxSpeedX else b.vel.x - AccelerationX) &&
      r.vel.x >= -MaxSpeedX && r.vel.y == b.vel.y && !r.facingRight &&
      r.pose == (if Airborne(b.pose) then b.pose else RunningLeft) &&
      r.(vel := b.vel, facingRight := b.facingRight, pose := b.pose, sprites := b.sprites) == b
    ensures var r := MovedRight(b);
      r.vel.x == (if b.vel.x + AccelerationX > MaxSpeedX then MaxSpeedX else b.vel.x + AccelerationX) &&
      r.vel.x <= MaxSpeedX && r.vel.y == b.vel.y && r.facingRight &&
      r.pose == (if Airborne(b.pose) then b.pose else RunningRight) &&
      r.(vel := b.vel, facingRight := b.facingRight, pose := b.pose, sprites := b.sprites) == b
  {
  }

  /**
   * A dead body is brought back to a running pose by a horizontal move,
   * with its health unchanged: nothing in `moveLeft` or `moveRight`
   * excludes the DEAD pose.
   */
  lemma MoveLeavesDeadPose(b: BodyData)
    requires b.pose == Dead
    ensures MovedLeft(b).pose == RunningLeft && MovedLeft(b).health == b.health
    ensures MovedRight(b).pose == RunningRight && MovedRight(b).health == b.health
  {
  }

  /**
   * `jump` either takes off from the ground (ground, jump available, not
   * hurt), or double-jumps (airborne, double jump available, cooldown over,
   * not hurt), or changes nothing.  Both jumps set the jump speed and the
   * JUMPING pose; the ground jump spends `canJump`, the double jump spends
   * `hasDoubleJump` and starts the 3-second cooldown.
   */
  lemma JumpGate(b: BodyData)
    ensures var r := Jumped(b);
      (CanGroundJump(b) ==>
        r.vel == b.vel.(y := JumpVelocity) && !r.onGround && !r.canJump && r.pose == Jumping &&
        r.hasDoubleJump == b.hasDoubleJump && r.cooldown == b.cooldown) &&
      (!CanGroundJump(b) && CanDoubleJump(b) ==>
        r.vel == b.vel.(y := JumpVelocity) && !r.onGround && !r.hasDoubleJump && r.pose == Jumping &&
        r.cooldown == DoubleJumpCooldown && r.canJump == b.canJump) &&
      (!CanGroundJump(b) && !CanDoubleJump(b) ==> r == b)
  {
  }

  /** However the body stands, a third `jump` in a row changes nothing: one ground jump and one double jump at most. */
  lemma AtMostTwoJumps(b: BodyData)
    ensures Jumped(Jumped(Jumped(b))) == Jumped(Jumped(b))
  {
    var j1 := Jumped(b);
    var j2 := Jumped(j1);
    if CanGroundJump(b) || CanDoubleJump(b) {
      assert !j1.onGround;
      if CanDoubleJump(j1) {
        assert !j2.onGround && !j2.hasDoubleJump;
      } else {
        assert j2 == j1;
      }
    } else {
      assert j1 == b && j2 == b;
    }
  }

  /** Landing after being airborne zeroes the vertical speed and restores both jumps; any other call only sets the flag. */
  lemma LandingRestoresJumps(b: BodyData, g: bool)
    ensures var r := Grounded(b, g);
      r.onGround == g &&
      (if g && !b.onGround then r.vel == b.vel.(y := 0.0) && r.canJump && r.hasDoubleJump
       else r == b.(onGround := g))
  {
  }

  /**
   * `takeDamage` floors health at 0.  A call that leaves health at 0 kills
   * the body, zeroes its velocity and costs a life, even when it was
   * already dead; any other call changes only the health.
   */
  lemma DamageEffect(b: BodyData, amount: int)
    ensures var r := Damaged(b, amount);
      r.health == (if b.health - amount < 0 then 0 else b.health - amount) &&
      (DamageKills(b, amount) ==>
        r.health == 0 && r.pose == Dead && r.vel == Point(0.0, 0.0) && r.lives == b.lives - 1) &&
      (!DamageKills(b, amount) ==> r == b.(health := b.health - amount))
  {
  }

  /** Two lethal hits cost two lives: a dead body at 0 health dies again on any non-negative damage. */
  lemma EveryLethalHitCostsALife(b: BodyData, first: int, second: int)
    requires DamageKills(b, first) && second >= 0
    ensures DamageKills(Damaged(b, first), second)
    ensures Damaged(Damaged(b, first), second).lives == b.lives - 2
  {
    DamageEffect(b, first);
    DamageEffect(Damaged(b, first), second);
  }

  /** `heal` caps at 100 and changes nothing else, even for a dead body. */
  lemma HealCaps(b: BodyData, amount: int)
    ensures Mended(b, amount).health == (if b.health + amount > FullHealth then FullHealth else b.health + amount)
    ensures b.health <= FullHealth && amount >= 0 ==> b.health <= Mended(b, amount).health <= FullHealth
    ensures Mended(b, amount).(health := b.health) == b
  {
  }

  /** `respawn(p)`: at `p`, which becomes the spawn point, still, full health, airborne, IDLE; lives, score and coins are kept. */
  lemma RespawnEffect(b: BodyData, p: Point)
    ensures var r := Respawned(b, p);
      r.pos == p && r.spawn == p && r.vel == Point(0.0, 0.0) && r.health == FullHealth &&
      !r.onGround && r.pose == Idle &&
      r.lives == b.lives && r.score == b.score && r.coins == b.coins &&
      r.canJump == b.canJump && r.hasDoubleJump == b.hasDoubleJump
  {
  }

  /** `update` never moves a dead body: only its clip and the cooldown change. */
  lemma DeadBodyStays(b: BodyData, dt: real)
    requires b.pose == Dead
    ensures Updated(b, dt).(sprites := b.sprites, cooldown := b.cooldown) == b
    ensures !UpdateKills(b, dt)
  {
  }

  /**
   * After `update` a living body is not left of the screen; if it fell
   * below the limit it is dead at 0 health with one life fewer, otherwise
   * its vertical speed is within the cap both ways.
   */
  lemma UpdateBounds(b: BodyData, dt: real)
    requires b.pose != Dead
    ensures var r := Updated(b, dt);
      r.pos.x >= 0.0 &&
      (UpdateKills(b, dt) ==> r.health == 0 && r.pose == Dead && r.lives == b.lives - 1) &&
      (!UpdateKills(b, dt) ==> -MaxSpeedY <= r.vel.y <= MaxSpeedY && r.lives == b.lives && r.health == b.health)
  {
    var b1 := Aged(b, dt);
    var b2 := Stepped(b1, dt);
    if b2.pos.y > FallLimit {
      DamageEffect(b2, b2.health);
    }
  }

  /**
   * Friction never reverses or speeds up the horizontal motion: the new
   * speed is 0.85 of the old one, or 0 once that falls below 0.1.  A body on
   * the ground that is neither dead nor hurt turns IDLE exactly when it is
   * left slower than 1; otherwise the pose stays.  Nothing else changes but
   * the pose's clip.
   */
  lemma FrictionEffect(b: BodyData)
    ensures var r, vx := Stopped(b), b.vel.x * Friction;
      Abs(r.vel.x) <= Abs(b.vel.x) && (r.vel.x == 0.0 <==> Abs(vx) < 0.1) && (r.vel.x != 0.0 ==> r.vel.x == vx) &&
      (r.vel.x > 0.0 ==> b.vel.x > 0.0) && (r.vel.x < 0.0 ==> b.vel.x < 0.0) &&
      (b.onGround && b.pose != Dead && b.pose != Hurt && Abs(r.vel.x) < 1.0 ==> r.pose == Idle) &&
      (!(b.onGround && b.pose != Dead && b.pose != Hurt && Abs(r.vel.x) < 1.0) ==> r.pose == b.pose) &&
      r.(vel := b.vel, pose := b.pose, sprites := b.sprites) == b && r.vel.y == b.vel.y
  {
  }

  /**
   * Gravity acts only on an airborne living body: its vertical speed grows
   * by 800 per second, up to the fall speed 500, and nothing else changes.
   * A body on the ground or dead is left as it is.
   */
  lemma GravityEffect(b: BodyData, dt: real)
    ensures var r, vy := Fallen(b, dt), b.vel.y + Gravity * dt;
      (b.onGround || b.pose == Dead ==> r == b) &&
      (!b.onGround && b.pose != Dead ==>
        r == b.(vel := b.vel.(y := r.vel.y)) && r.vel.y <= MaxSpeedY &&
        (vy <= MaxSpeedY ==> r.vel.y == vy) && (vy > MaxSpeedY ==> r.vel.y == MaxSpeedY) &&
        (dt >= 0.0 && b.vel.y <= MaxSpeedY ==> r.vel.y >= b.vel.y))
  {
  }

  /**
   * The cooldown decreases by the elapsed time and never below 0; a
   * cooldown at 0 stays there.
   */
  lemma CooldownRunsDown(c: real, dt: real)
    requires c >= 0.0 && dt >= 0.0
    ensures 0.0 <= Cooled(c, dt) <= c
    ensures Cooled(c, dt) == (if c - dt < 0.0 then 0.0 else c - dt)
  {
  }

  /** `collectCoin` adds one coin and 100 points and nothing else. */
  lemma CoinEffect(b: BodyData)
    ensures CoinTaken(b) == b.(coins := b.coins + 1, score := b.score + CoinPoints)
  {
  }

  /** The body invariant: health within [0, 100], the cooldown within [0, 3]. */
  predicate BodyValid(b: BodyData) {
    0 <= b.health <= FullHealth && 0.0 <= b.cooldown <= DoubleJumpCooldown
  }

  /** Every input-driven operation keeps the invariant. */
  lemma MovesKeepBodyValid(b: BodyData, g: bool)
    requires BodyValid(b)
    ensures BodyValid(MovedLeft(b)) && BodyValid(MovedRight(b)) && BodyValid(Jumped(b)) && BodyValid(Stopped(b))
    ensures BodyValid(Grounded(b, g))
  {
  }

  /** `update` and `applyGravity` keep the invariant for a non-negative elapsed time. */
  lemma TicksKeepBodyValid(b: BodyData, dt: real)
    requires BodyValid(b) && dt >= 0.0
    ensures BodyValid(Updated(b, dt)) && BodyValid(Fallen(b, dt))
  {
    CooldownRunsDown(b.cooldown, dt);
    var b1 := Aged(b, dt);
    assert BodyValid(b1);
    if b1.pose != Dead {
      var b2 := Stepped(b1, dt);
      assert BodyValid(b2);
    }
  }

  /** Damage, healing, death, respawning and coins keep the invariant, for a non-negative amount. */
  lemma HealthKeepsBodyValid(b: BodyData, amount: int, p: Point)
    requires BodyValid(b) && amount >= 0
    ensures BodyValid(Damaged(b, amount)) && BodyValid(Mended(b, amount)) && BodyValid(Respawned(b, p))
    ensures BodyValid(Killed(b)) && BodyValid(CoinTaken(b))
  {
  }

  /** `Player2D`: the body updated in place. */
  class Player2D {
    var pos: Point
    var vel: Point
    var spawn: Point
    var pose: Pose
    var onGround: bool
    var canJump: bool
    var facingRight: bool
    var hasDoubleJump: bool
    var cooldown: real
    var health: int
    var lives: int
    var score: int
    var coins: int
    var sprites: Sprites

    function Data(): BodyData
      reads this
    {
      BodyData(pos, vel, spawn, pose, onGround, canJump, facingRight, hasDoubleJump, cooldown,
               health, lives, score, coins, sprites)
    }

    /** `loaded` is the set of sprite sheets whose image files load. */
    constructor(loaded: set<Sheet>)
      ensures Data() == NewBody(loaded)
    {
      pos, vel, spawn := Point(100.0, 100.0), Point(0.0, 0.0), Point(100.0, 100.0);
      pose := Idle;
      onGround, canJump, facingRight, hasDoubleJump := false, true, true, true;
      cooldown := 0.0;
      health, lives, score, coins := FullHealth, 3, 0, 0;
      sprites := LoadedSprites(loaded);
    }

    method SetPosition(p: Point)
      modifies this
      ensures Data() == old(Data()).(pos := p)
    {
      if pos != p {
        pos := p;
      }
    }

    method SetVelocity(v: Point)
      modifies this
      ensures Data() == old(Data()).(vel := v)
    {
      vel := v;
    }

    method BoundingBox() returns (r: Rect)
      ensures r == Box(Data())
    {
      r := Rect(pos.x, pos.y, Width, Height);
    }

    method SetState(p: Pose)
      modifies this
      ensures Data() == Posed(old(Data()), p)
    {
      if pose != p {
        pose := p;
        RestartClip(SheetOf(p));
      }
    }

    /** Rewinds and plays a sheet's clip, if it was loaded. */
    method RestartClip(s: Sheet)
      modifies this
      ensures Data() == old(Data()).(sprites := Restarted(old(sprites), s))
    {
      var c := sprites.Get(s);
      if c.Some? {
        sprites := sprites.Put(s, Played(Rewound(c.value)));
      }
    }

    method MoveLeft()
      modifies this
      ensures Data() == MovedLeft(old(Data()))
    {
      vel := vel.(x := vel.x - AccelerationX);
      if vel.x < -MaxSpeedX {
        vel := vel.(x := -MaxSpeedX);
      }
      facingRight := false;
      if pose != Jumping && pose != Falling && pose != Hurt {
        SetState(RunningLeft);
      }
    }

    method MoveRight()
      modifies this
      ensures Data() == MovedRight(old(Data()))
    {
      vel := vel.(x := vel.x + AccelerationX);
      if vel.x > MaxSpeedX {
        vel := vel.(x := MaxSpeedX);
      }
      facingRight := true;
      if pose != Jumping && pose != Falling && pose != Hurt {
        SetState(RunningRight);
      }
    }

    method Jump()
      modifies this
      ensures Data() == Jumped(old(Data()))
    {
      if onGround && canJump && pose != Hurt {
        vel := vel.(y := JumpVelocity);
        onGround := false;
        canJump := false;
        SetState(Jumping);
        RestartClip(JumpSheet);
      } else if !onGround && hasDoubleJump && cooldown <= 0.0 && pose != Hurt {
        vel := vel.(y := JumpVelocity);
        hasDoubleJump := false;
        cooldown := DoubleJumpCooldown;
        SetState(Jumping);
        RestartClip(JumpSheet);
      }
    }

    method StopHorizontalMovement()
      modifies this
      ensures Data() == Stopped(old(Data()))
    {
      vel := vel.(x := vel.x * Friction);
      if Abs(vel.x) < 0.1 {
        vel := vel.(x := 0.0);
      }
      if onGround && pose != Dead && pose != Hurt && Abs(vel.x) < 1.0 {
        SetState(Idle);
      }
    }

    /** Returns whether `died` was emitted. */
    method Update(dt: real) returns (died: bool)
      modifies this
      ensures Data() == Updated(old(Data()), dt)
      ensures died == UpdateKills(old(Data()), dt)
    {
      Age(dt);
      if pose == Dead {
        return false;
      }
      died := Travel(dt);
    }

    /** Advances the current pose's clip and runs the cooldown down. */
    method Age(dt: real)
      modifies this
      ensures Data() == Aged(old(Data()), dt)
    {
      var s := SheetOf(pose);
      var c := sprites.Get(s);
      if c.Some? {
        sprites := sprites.Put(s, Advance(c.value, dt));
      }
      if cooldown > 0.0 {
        cooldown := cooldown - dt;
        if cooldown < 0.0 {
          cooldown := 0.0;
        }
      }
    }

    /** Moves a living body in `update`; returns whether it fell to its death. */
    method Travel(dt: real) returns (died: bool)
      modifies this
      ensures Data() == Travelled(old(Data()), dt)
      ensures died == (old(pos.y) + old(vel.y) * dt > FallLimit)
    {
      Step(dt);
      if pos.y > FallLimit {
        died := TakeDamage(health);
      } else {
        died := false;
        Steady();
      }
    }

    /** The move along the velocity in `update`, stopping at the left edge. */
    method Step(dt: real)
      modifies this
      ensures Data() == Stepped(old(Data()), dt)
    {
      var nx, ny := pos.x + vel.x * dt, pos.y + vel.y * dt;
      if nx < 0.0 {
        vel := vel.(x := 0.0);
        SetPosition(Point(0.0, ny));
      } else {
        SetPosition(Point(nx, ny));
      }
    }

    /** The speed cap and pose update at the end of `update`. */
    method Steady()
      modifies this
      ensures Data() == Steadied(old(Data()))
    {
      if vel.y > MaxSpeedY {
        vel := vel.(y := MaxSpeedY);
      } else if vel.y < -MaxSpeedY {
        vel := vel.(y := -MaxSpeedY);
      }
      if pose != Hurt {
        Settle();
      }
    }

    /** The pose-from-velocity step at the end of `update`. */
    method Settle()
      modifies this
      ensures Data() == Settled(old(Data()))
    {
      if !onGround {
        if vel.y < 0.0 {
          if pose != Jumping {
            SetState(Jumping);
          }
        } else if vel.y > 0.0 {
          SetState(Falling);
        }
      } else {
        if Abs(vel.x) > 1.0 {
          if vel.x < 0.0 {
            SetState(RunningLeft);
          } else {
            SetState(RunningRight);
          }
        } else {
          SetState(Idle);
        }
      }
    }

    method ApplyGravity(dt: real)
      modifies this
      ensures Data() == Fallen(old(Data()), dt)
    {
      if !onGround && pose != Dead {
        vel := vel.(y := vel.y + Gravity * dt);
        if vel.y > MaxSpeedY {
          vel := vel.(y := MaxSpeedY);
        }
      }
    }

    method SetOnGround(g: bool)
      modifies this
      ensures Data() == Grounded(old(Data()), g)
    {
      var wasOnGround := onGround;
      onGround := g;
      if g && !wasOnGround {
        vel := vel.(y := 0.0);
        canJump := true;
        hasDoubleJump := true;
      }
    }

    /** Returns whether `died` was emitted. */
    method TakeDamage(amount: int) returns (died: bool)
      modifies this
      ensures Data() == Damaged(old(Data()), amount)
      ensures died == DamageKills(old(Data()), amount)
    {
      health := if health - amount < 0 then 0 else health - amount;
      died := health <= 0;
      if died {
        Die();
      }
    }

    method Heal(amount: int)
      modifies this
      ensures Data() == Mended(old(Data()), amount)
    {
      health := if health + amount > FullHealth then FullHealth else health + amount;
    }

    /** Always emits `died`. */
    method Die()
      modifies this
      ensures Data() == Killed(old(Data()))
    {
      SetState(Dead);
      vel := Point(0.0, 0.0);
      lives := lives - 1;
    }

    method Respawn(p: Point)
      modifies this
      ensures Data() == Respawned(old(Data()), p)
    {
      spawn := p;
      SetPosition(p);
      vel := Point(0.0, 0.0);
      health := FullHealth;
      onGround := false;
      SetState(Idle);
    }

    method AddScore(points: int)
      modifies this
      ensures Data() == Scored(old(Data()), points)
    {
      score := score + points;
    }

    method CollectCoin()
      modifies this
      ensures Data() == CoinTaken(old(Data()))
    {
      coins := coins + 1;
      AddScore(CoinPoints);
    }
  }
}
