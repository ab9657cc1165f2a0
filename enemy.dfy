/**
 * A platformer enemy: a patrol back and forth around its start, a sticky
 * HURT state, and a death whose clip must play out before the enemy may be
 * removed.  Each enemy carries the number of the riddle it poses and whether
 * it has posed it already.
 *
 * `EnemyData` is the value of an `Enemy`; the class at the end performs the
 * operations in place.  The `died` and `deathAnimationComplete` signals are
 * connected to nothing and are not modelled.
 */
module Enemies {
  import opened Geometry
  import opened Animation
  import opened Options

  datatype Breed = PinkMonster | OwletMonster

  datatype State = Idle | Walking | Hurt | Dead

  const Width: real := 32.0
  const Height: real := 32.0
  const PatrolDistance: real := 64.0
  const MoveSpeed: real := 30.0
  /** `patrol` moves by a fixed sixtieth of the speed per call, whatever the elapsed time. */
  const PatrolStep: real := 30.0 * (1.0 / 60.0)

  /** The clip of each state, for the sprite sheets that loaded. */
  datatype Clips = Clips(idle: Option<Clip>, walk: Option<Clip>, hurt: Option<Clip>, death: Option<Clip>) {
    function Get(s: State): Option<Clip> {
      match s
      case Idle => idle
      case Walking => walk
      case Hurt => hurt
      case Dead => death
    }

    function Put(s: State, c: Clip): (r: Clips)
      ensures r.Get(s) == Some(c)
    {
      match s
      case Idle => this.(idle := Some(c))
      case Walking => this.(walk := Some(c))
      case Hurt => this.(hurt := Some(c))
      case Dead => this.(death := Some(c))
    }
  }

  datatype EnemyData = EnemyData(
    breed: Breed,
    pos: Point,
    state: State,
    facingRight: bool,
    riddleId: int,
    triggered: bool,
    patrolDistance: real,
    start: Point,
    speed: real,
    clips: Clips)

  /** A state's clip as `loadAnimations` prepares it: idle and walk loop and play, hurt and death wait. */
  function StateClip(s: State): (c: Clip)
    ensures c.currentFrame == 0 && !c.finished && c.frameWidth == 32 && c.frameHeight == 32
    ensures c.loop <==> s == Idle || s == Walking
    ensures c.playing <==> s == Idle || s == Walking
  {
    var frames := match s case Idle => 4 case Walking => 6 case Hurt => 4 case Dead => 8;
    var fps := if s == Idle then 8.0 else 12.0;
    var c := WithFrameRate(Load(NewClip(), true, 32, 32, frames), fps).(loop := s == Idle || s == Walking);
    if s == Idle || s == Walking then Played(c) else c
  }

  function LoadedClips(loaded: set<State>): Clips {
    Clips(
      if Idle in loaded then Some(StateClip(Idle)) else None,
      if Walking in loaded then Some(StateClip(Walking)) else None,
      if Hurt in loaded then Some(StateClip(Hurt)) else None,
      if Dead in loaded then Some(StateClip(Dead)) else None)
  }

  /**
   * An enemy as constructed at `p` with riddle `riddleId`, given which
   * sprite sheets load: IDLE, facing left, its riddle not yet posed,
   * patrolling 64 pixels either side of `p` at speed 30.
   */
  function NewEnemy(breed: Breed, p: Point, riddleId: int, loaded: set<State>): (e: EnemyData)
    ensures e.state == Idle && !e.facingRight && !e.triggered && e.riddleId == riddleId
    ensures e.pos == e.start == p && e.patrolDistance == PatrolDistance && e.speed == MoveSpeed
    ensures forall s :: e.clips.Get(s) == (if s in loaded then Some(StateClip(s)) else None)
  {
    EnemyData(breed, p, Idle, false, riddleId, false, PatrolDistance, p, MoveSpeed, LoadedClips(loaded))
  }

  /** Rewinds and plays the clip of state `s`, if it was loaded. */
  function Restarted(m: Clips, s: State): (r: Clips)
    ensures m.Get(s).Some? ==> r.Get(s) == Some(Played(Rewound(m.Get(s).value)))
    ensures m.Get(s).None? ==> r == m
  {
    match m.Get(s)
    case None => m
    case Some(c) => m.Put(s, Played(Rewound(c)))
  }

  /** `setState`: entering a new state restarts its clip; the same state changes nothing. */
  function Entered(e: EnemyData, s: State): (r: EnemyData)
    ensures r.state == s && r.(state := e.state, clips := e.clips) == e
  {
    if e.state == s then e else e.(state := s, clips := Restarted(e.clips, s))
  }

  /** `isDeathAnimationFinished`: dead, with a death clip, and that clip finished. */
  predicate DeathFinished(e: EnemyData) {
    e.state == Dead && e.clips.death.Some? && e.clips.death.value.finished
  }

  /** The clip of the current state advanced by `dt`. */
  function Animated(e: EnemyData, dt: real): (r: EnemyData)
    ensures r.(clips := e.clips) == e
  {
    match e.clips.Get(e.state)
    case None => e
    case Some(c) => e.(clips := e.clips.Put(e.state, Advance(c, dt)))
  }

  /**
   * `patrol`: walk one step in the facing direction, turning round once the
   * offset from the start, measured before the step, is beyond the patrol
   * distance on that side.
   */
  function Patrolled(e: EnemyData): (r: EnemyData)
    ensures r.state == Walking
  {
    var w := Entered(e, Walking);
    var distance := w.pos.x - w.start.x;
    var step := w.speed * (1.0 / 60.0);
    if w.facingRight then
      w.(pos := w.pos.(x := w.pos.x + step), facingRight := !(distance > w.patrolDistance))
    else
      w.(pos := w.pos.(x := w.pos.x - step), facingRight := distance < -w.patrolDistance)
  }

  /** `update(dt)`: animate; a dead or hurt enemy does nothing more, any other patrols. */
  function Updated(e: EnemyData, dt: real): EnemyData {
    var e1 := Animated(e, dt);
    if e1.state == Dead || e1.state == Hurt then e1 else Patrolled(e1)
  }

  /** `takeDamage`: an idle or walking enemy is hurt; a hurt or dead one is left alone. */
  function Wounded(e: EnemyData): EnemyData {
    if e.state != Dead && e.state != Hurt then Entered(e, Hurt) else e
  }

  /** `die`: DEAD, with the death clip rewound and playing even if the enemy was dead already. */
  function Slain(e: EnemyData): EnemyData {
    var e1 := Entered(e, Dead);
    e1.(clips := Restarted(e1.clips, Dead))
  }

  /** `boundingBox`: the 32×32 square at the enemy's position. */
  function Box(e: EnemyData): (r: Rect)
    ensures r.Left() == e.pos.x && r.Top() == e.pos.y && r.Right() == e.pos.x + Width && r.Bottom() == e.pos.y + Height
  {
    Rect(e.pos.x, e.pos.y, Width, Height)
  }

  /** The enemy after a sequence of `update` calls. */
  function Run(e: EnemyData, dts: seq<real>): EnemyData
    decreases |dts|
  {
    if dts == [] then e else Run(Updated(e, dts[0]), dts[1..])
  }

  // ---------------------------------------------------------------------
  // Properties
  // ---------------------------------------------------------------------

  /** `takeDamage` hurts an idle or walking enemy, restarting its hurt clip, and leaves a hurt or dead one exactly as it was. */
  lemma TakeDamageEffect(e: EnemyData)
    ensures e.state == Idle || e.state == Walking ==>
      Wounded(e).state == Hurt && Wounded(e).(state := e.state, clips := e.clips) == e &&
      (e.clips.hurt.Some? ==> Wounded(e).clips.hurt.value.currentFrame == 0 && Wounded(e).clips.hurt.value.playing)
    ensures e.state == Hurt || e.state == Dead ==> Wounded(e) == e
  {
  }

  /** `die` always ends DEAD with the death clip at its first frame and playing; nothing but state and clips changes. */
  lemma DieEffect(e: EnemyData)
    ensures var r := Slain(e);
      r.state == Dead && r.(state := e.state, clips := e.clips) == e &&
      (e.clips.death.Some? ==>
        r.clips.death.Some? && r.clips.death.value.currentFrame == 0 &&
        r.clips.death.value.playing && !r.clips.death.value.finished) &&
      !DeathFinished(r)
  {
  }

  /** `isDeathAnimationFinished` implies the enemy is dead. */
  lemma FinishedOnlyWhenDead(e: EnemyData)
    ensures DeathFinished(e) ==> e.state == Dead && e.clips.death.Some?
    ensures e.state != Dead ==> !DeathFinished(e)
  {
  }

  /** `update` never moves a dead or hurt enemy, and never changes its state. */
  lemma UpdateStillWhenDeadOrHurt(e: EnemyData, dt: real)
    requires e.state == Dead || e.state == Hurt
    ensures Updated(e, dt).(clips := e.clips) == e
  {
  }

  /** Nothing `update` does ever leaves HURT: a hurt enemy stays hurt and in place through any run of updates. */
  lemma {:induction false} HurtIsSticky(e: EnemyData, dts: seq<real>)
    requires e.state == Hurt
    ensures Run(e, dts).state == Hurt && Run(e, dts).pos == e.pos
    decreases |dts|
  {
    if dts != [] {
      UpdateStillWhenDeadOrHurt(e, dts[0]);
      HurtIsSticky(Updated(e, dts[0]), dts[1..]);
    }
  }

  /**
   * A patrol step walks half a pixel in the facing direction, whatever the
   * elapsed time, and turns round exactly when the offset from the start
   * was already beyond 64 pixels on the facing side.
   */
  lemma PatrolStepEffect(e: EnemyData)
    requires e.speed == MoveSpeed && e.patrolDistance == PatrolDistance
    ensures var r, d := Patrolled(e), e.pos.x - e.start.x;
      r.state == Walking &&
      r.pos.x == (if e.facingRight then e.pos.x + 0.5 else e.pos.x - 0.5) && r.pos.y == e.pos.y &&
      (r.facingRight != e.facingRight <==> (if e.facingRight then d > 64.0 else d < -64.0)) &&
      r.start == e.start && r.riddleId == e.riddleId && r.triggered == e.triggered
  {
  }

  /** The patrol invariant: within 65 pixels of the start, and at most 64.5 out on the facing side. */
  predicate NearStart(e: EnemyData) {
    var d := e.pos.x - e.start.x;
    && -65.0 <= d <= 65.0
    && (e.facingRight ==> d <= 64.5)
    && (!e.facingRight ==> d >= -64.5)
  }

  /** Patrolling never takes an enemy more than 65 pixels from its start. */
  lemma PatrolStaysNearStart(e: EnemyData)
    requires e.speed == MoveSpeed && e.patrolDistance == PatrolDistance && NearStart(e)
    ensures NearStart(Patrolled(e))
  {
    PatrolStepEffect(e);
  }

  /** Every `update` keeps the patrol invariant of an enemy as constructed. */
  lemma {:induction false} RunStaysNearStart(e: EnemyData, dts: seq<real>)
    requires e.speed == MoveSpeed && e.patrolDistance == PatrolDistance && NearStart(e)
    ensures NearStart(Run(e, dts)) && Run(e, dts).start == e.start
    decreases |dts|
  {
    if dts != [] {
      var e1 := Animated(e, dts[0]);
      if e1.state != Dead && e1.state != Hurt {
        PatrolStaysNearStart(e1);
        PatrolStepEffect(e1);
      }
      var u := Updated(e, dts[0]);
      assert u.speed == MoveSpeed && u.patrolDistance == PatrolDistance && NearStart(u) && u.start == e.start;
      RunStaysNearStart(u, dts[1..]);
    }
  }

  /** A freshly constructed enemy is idle, has not posed its riddle and satisfies the patrol invariant. */
  lemma NewEnemyPatrols(breed: Breed, p: Point, riddleId: int, loaded: set<State>)
    ensures var e := NewEnemy(breed, p, riddleId, loaded);
      e.speed == MoveSpeed && e.patrolDistance == PatrolDistance && NearStart(e) && !DeathFinished(e)
  {
  }

  /** `Enemy`: the same state updated in place. */
  class Enemy {
    const breed: Breed
    var pos: Point
    var state: State
    var facingRight: bool
    var riddleId: int
    var triggered: bool
    var patrolDistance: real
    var start: Point
    var speed: real
    var clips: Clips

    function Data(): EnemyData
      reads this
    {
      EnemyData(breed, pos, state, facingRight, riddleId, triggered, patrolDistance, start, speed, clips)
    }

    /** `loaded` is the set of states whose sprite sheets load. */
    constructor(b: Breed, p: Point, id: int, loaded: set<State>)
      ensures Data() == NewEnemy(b, p, id, loaded)
    {
      breed := b;
      pos, start := p, p;
      state := Idle;
      facingRight, triggered := false, false;
      riddleId := id;
      patrolDistance, speed := PatrolDistance, MoveSpeed;
      clips := LoadedClips(loaded);
    }

    method SetPosition(p: Point)
      modifies this
      ensures Data() == old(Data()).(pos := p)
    {
      pos := p;
    }

    method SetRiddleTriggered(b: bool)
      modifies this
      ensures Data() == old(Data()).(triggered := b)
    {
      triggered := b;
    }

    method BoundingBox() returns (r: Rect)
      ensures r == Box(Data())
    {
      r := Rect(pos.x, pos.y, Width, Height);
    }

    method SetState(s: State)
      modifies this
      ensures Data() == Entered(old(Data()), s)
    {
      if state != s {
        state := s;
        RestartClip(s);
      }
    }

    method RestartClip(s: State)
      modifies this
      ensures Data() == old(Data()).(clips := Restarted(old(clips), s))
    {
      var c := clips.Get(s);
      if c.Some? {
        clips := clips.Put(s, Played(Rewound(c.value)));
      }
    }

    method IsDeathAnimationFinished() returns (b: bool)
      ensures b == DeathFinished(Data())
      ensures b ==> state == Dead
    {
      if state == Dead && clips.death.Some? {
        return clips.death.value.finished;
      }
      return false;
    }

    method Update(dt: real)
      modifies this
      ensures Data() == Updated(old(Data()), dt)
    {
      var c := clips.Get(state);
      if c.Some? {
        clips := clips.Put(state, Advance(c.value, dt));
      }
      if state == Dead {
        return;
      }
      if state != Hurt {
        Patrol();
      }
    }

    method Patrol()
      modifies this
      ensures Data() == Patrolled(old(Data()))
    {
      SetState(Walking);
      var distance := pos.x - start.x;
      if facingRight {
        pos := pos.(x := pos.x + speed * (1.0 / 60.0));
        if distance > patrolDistance {
          facingRight := false;
        }
      } else {
        pos := pos.(x := pos.x - speed * (1.0 / 60.0));
        if distance < -patrolDistance {
          facingRight := true;
        }
      }
    }

    method TakeDamage()
      modifies this
      ensures Data() == Wounded(old(Data()))
    {
      if state != Dead && state != Hurt {
        SetState(Hurt);
      }
    }

    method Die()
      modifies this
      ensures Data() == Slain(old(Data()))
    {
      SetState(Dead);
      RestartClip(Dead);
    }
  }
}
