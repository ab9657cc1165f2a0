/**
 * The platformer's per-tick driver: the set of pressed keys, the player,
 * the current level, and the flags for pause, an open riddle, the key of
 * level 6, top-down mode and the retry and victory screens.
 *
 * Modal dialogs are inputs: the answer typed into the riddle dialog is an
 * `Option<string>` (none when the dialog is cancelled), and the delay
 * measured by the frame timer is the tick's `dt`.  The one-second respawn
 * timer is a counter of pending respawns that `RespawnTimerFired` consumes.
 * `WidgetData` is the value of a `GameWidget`; the class at the end runs
 * the same steps on a `Player2D` and a `Level`.
 */
module Widgets {
  import opened Geometry
  import opened Options
  import B = Bodies
  import E = Enemies
  import L = Levels
  import R = Riddles

  datatype Key = LeftKey | RightKey | UpKey | DownKey | KeyA | KeyD | KeyW | KeyS | SpaceKey | KeyP | KeyR | EscapeKey | OtherKey(code: int)

  const TopDownSpeed: real := 150.0
  const MaxStep: real := 0.1
  const SpikeDamage: int := 25
  const KeyPoints: int := 1000
  const RiddlePoints: int := 500
  const RiddleHeal: int := 25
  const RiddleDamage: int := 25
  const LastLevel: int := 6
  const RiddleCount: int := 5
  /** Where `startGame` respawns the player before the first level is loaded. */
  const StartPoint: Point := Point(64.0, 500.0)

  /** What the widget is built with: the six level layouts and the enemy sprite sheets that load. */
  datatype Setup = Setup(layouts: seq<L.Layout>, sheets: set<E.State>)

  predicate SetupValid(s: Setup) {
    |s.layouts| == 6
  }

  datatype WidgetData = WidgetData(
    player: B.BodyData,
    level: Option<L.LevelData>,
    keys: set<Key>,
    paused: bool,
    riddleActive: bool,
    retry: bool,
    victory: bool,
    highest: int,
    hasKey: bool,
    topDown: bool,
    activeRiddle: Option<int>,
    activeEnemy: Option<int>,
    pendingRespawns: nat)

  /** A level is loaded and its grid has the 30×20 shape. */
  predicate HasLevel(w: WidgetData) {
    w.level.Some? && L.Dims(w.level.value.grid)
  }

  /** The widget's five riddles; only their answers matter here. */
  function WidgetRiddle(k: int): R.Riddle {
    var answer := match k
      case 0 => "keyboard"
      case 1 => "THIS IS NOT FREE"
      case 2 => "gold"
      case 3 => "FREE"
      case _ => "e";
    R.NewRiddle().(answer := answer)
  }

  /** The widget as constructed: no level yet, nothing pressed, no screen shown. */
  function NewWidget(bodySheets: set<B.Sheet>): WidgetData {
    WidgetData(B.NewBody(bodySheets), None, {}, false, false, false, false, 0, false, false, None, None, 0)
  }

  /** The player with its horizontal speed cut to zero. */
  function Halted(p: B.BodyData): B.BodyData {
    p.(vel := Point(0.0, p.vel.y))
  }

  /** `pauseGame`: paused, no key held, the player stopped horizontally. */
  function Paused(w: WidgetData): WidgetData {
    w.(paused := true, keys := {}, player := Halted(w.player))
  }

  /** `resumeGame`: running, no key held. */
  function Resumed(w: WidgetData): WidgetData {
    w.(paused := false, keys := {})
  }

  /** The handler of the player's `died` signal. */
  function DiedHandled(w: WidgetData): (r: WidgetData)
    ensures r.level == w.level && r.riddleActive == w.riddleActive && r.victory == w.victory
  {
    if w.player.lives > 0 then w.(pendingRespawns := w.pendingRespawns + 1)
    else
      var w1 := w.(highest := if w.player.score > w.highest then w.player.score else w.highest);
      Paused(w1).(retry := true)
  }

  /** The player hit for `amount`, with the `died` handler run if the hit was lethal. */
  function Hit(w: WidgetData, amount: int): (r: WidgetData)
    ensures r.level == w.level && r.riddleActive == w.riddleActive && r.victory == w.victory
    ensures r.player.health == B.Damaged(w.player, amount).health && r.player.lives == B.Damaged(w.player, amount).lives
    ensures r.player.score == w.player.score && r.activeEnemy == w.activeEnemy
  {
    var w1 := w.(player := B.Damaged(w.player, amount));
    if B.DamageKills(w.player, amount) then DiedHandled(w1) else w1
  }

  /** `loadLevel(n)`: a new level, the player at its spawn; level 6 is top-down and needs a fresh key. */
  function LevelLoaded(w: WidgetData, n: int, s: Setup): (r: WidgetData)
    requires SetupValid(s)
    ensures HasLevel(r)
  {
    var w1 := if n == LastLevel then w.(hasKey := false, topDown := true) else w.(topDown := false);
    var l := L.NewLevel(n, s.layouts, s.sheets);
    w1.(level := Some(l), player := w1.player.(pos := l.spawn))
  }

  /** `startGame`: respawn at the start point, zero the score, load level 1 and run. */
  function Started(w: WidgetData, s: Setup): (r: WidgetData)
    requires SetupValid(s)
    ensures HasLevel(r)
  {
    var p := B.Respawned(w.player, StartPoint);
    LevelLoaded(w.(player := B.Scored(p, -p.score)), 1, s).(paused := false)
  }

  // ---------------------------------------------------------------------
  // Input
  // ---------------------------------------------------------------------

  predicate HoldsLeft(keys: set<Key>) { LeftKey in keys || KeyA in keys }
  predicate HoldsRight(keys: set<Key>) { RightKey in keys || KeyD in keys }
  predicate HoldsUp(keys: set<Key>) { UpKey in keys || KeyW in keys }
  predicate HoldsDown(keys: set<Key>) { DownKey in keys || KeyS in keys }
  predicate HoldsJump(keys: set<Key>) { UpKey in keys || KeyW in keys || SpaceKey in keys }

  /** One top-down axis: full speed toward the one held direction, none when both or neither are held. */
  function Axis(negative: bool, positive: bool): real {
    if negative && !positive then -TopDownSpeed
    else if positive && !negative then TopDownSpeed
    else 0.0
  }

  /** `handleInput`. */
  function Input(w: WidgetData): (r: WidgetData)
    ensures r.(player := w.player) == w
  {
    if w.paused || w.riddleActive then w
    else w.(player := if w.topDown then Steered(w.player, w.keys) else Walked(w.player, w.keys))
  }

  /** Top-down input: the velocity from the arrow keys alone. */
  function Steered(p: B.BodyData, keys: set<Key>): B.BodyData {
    p.(vel := Point(Axis(HoldsLeft(keys), HoldsRight(keys)), Axis(HoldsUp(keys), HoldsDown(keys))))
  }

  /** Platformer input: walk left, right or stop, then jump if a jump key is held. */
  function Walked(p: B.BodyData, keys: set<Key>): B.BodyData {
    var p1 :=
      if HoldsLeft(keys) && !HoldsRight(keys) then B.MovedLeft(p)
      else if HoldsRight(keys) && !HoldsLeft(keys) then B.MovedRight(p)
      else B.Stopped(p);
    if HoldsJump(keys) then B.Jumped(p1) else p1
  }

  /** `updatePhysics`: gravity unless top-down, then the player's own `update`. */
  function Physics(w: WidgetData, dt: real): (r: WidgetData)
    ensures r.level == w.level && r.riddleActive == w.riddleActive && r.victory == w.victory && r.topDown == w.topDown
  {
    var p := if !w.topDown then B.Fallen(w.player, dt) else w.player;
    var w1 := w.(player := B.Updated(p, dt));
    if B.UpdateKills(p, dt) then DiedHandled(w1) else w1
  }

  // ---------------------------------------------------------------------
  // Collision resolution
  // ---------------------------------------------------------------------

  datatype Side = NoSide | TopSide | BottomSide | LeftSide | RightSide

  /** The four overlaps of the player's box with a tile's box. */
  function OverlapLeft(box: Rect, tb: Rect): real { box.Right() - tb.Left() }
  function OverlapRight(box: Rect, tb: Rect): real { tb.Right() - box.Left() }
  function OverlapTop(box: Rect, tb: Rect): real { box.Bottom() - tb.Top() }
  function OverlapBottom(box: Rect, tb: Rect): real { tb.Bottom() - box.Top() }

  function LeastOverlap(box: Rect, tb: Rect): real {
    Min(Min(Min(OverlapLeft(box, tb), OverlapRight(box, tb)), OverlapTop(box, tb)), OverlapBottom(box, tb))
  }

  /**
   * The side a collision is corrected on, tried in the order top, bottom,
   * left, right; in platformer mode top needs a falling player and bottom
   * a rising one.
   */
  function SideOf(box: Rect, tb: Rect, vy: real, topDown: bool): Side {
    var m := LeastOverlap(box, tb);
    if m == OverlapTop(box, tb) && (topDown || vy > 0.0) then TopSide
    else if m == OverlapBottom(box, tb) && (topDown || vy < 0.0) then BottomSide
    else if m == OverlapLeft(box, tb) then LeftSide
    else if m == OverlapRight(box, tb) then RightSide
    else NoSide
  }

  /** The correction for one side: against that face of the tile, that speed zeroed. */
  function Corrected(p: B.BodyData, tb: Rect, s: Side): (r: B.BodyData)
    ensures r == p.(pos := r.pos, vel := r.vel)
  {
    match s
    case TopSide => p.(pos := p.pos.(y := tb.Top() - B.Height), vel := p.vel.(y := 0.0))
    case BottomSide => p.(pos := p.pos.(y := tb.Bottom()), vel := p.vel.(y := 0.0))
    case LeftSide => p.(pos := p.pos.(x := tb.Left() - B.Width), vel := p.vel.(x := 0.0))
    case RightSide => p.(pos := p.pos.(x := tb.Right()), vel := p.vel.(x := 0.0))
    case NoSide => p
  }

  /** The player after a collision pass so far, and whether it landed on some tile. */
  datatype Contact = Contact(body: B.BodyData, landed: bool)

  /** One tile of the pass: only a solid tile overlapping the pre-pass box is corrected against. */
  function Resolved(p: B.BodyData, box: Rect, t: L.Tile, topDown: bool): (r: Contact)
    ensures r.landed ==> !topDown
  {
    if !L.SolidKind(t.kind) || !Intersects(box, t.box) then Contact(p, false)
    else
      var s := SideOf(box, t.box, p.vel.y, topDown);
      Contact(Corrected(p, t.box, s), !topDown && s == TopSide)
  }

  predicate AllInBounds(cs: seq<L.Cell>) {
    forall c :: c in cs ==> L.InBounds(c.x, c.y)
  }

  /** The tiles `cs` resolved in order, each against the box taken before the pass. */
  function ResolvedAll(g: L.Grid, p: B.BodyData, box: Rect, cs: seq<L.Cell>, topDown: bool): Contact
    requires L.Dims(g) && AllInBounds(cs)
    decreases |cs|
  {
    if cs == [] then Contact(p, false)
    else
      var c := cs[|cs| - 1];
      assert c in cs && L.InBounds(c.x, c.y) && |g[c.y]| == L.Columns;
      var before := ResolvedAll(g, p, box, cs[..|cs| - 1], topDown);
      var last := Resolved(before.body, box, g[c.y][c.x], topDown);
      Contact(last.body, before.landed || last.landed)
  }

  /** The cells `checkCollisions` scans: the player's box grown by 10 pixels on every side. */
  function NearbyCells(box: Rect): (cs: seq<L.Cell>)
    ensures AllInBounds(cs)
  {
    L.CellsInMembersOf(box.Adjusted(-10.0, -10.0, 10.0, 10.0));
    L.AreaCells(box.Adjusted(-10.0, -10.0, 10.0, 10.0))
  }

  /** `checkCollisions`: resolve every nearby tile, then, in platformer mode only, set grounded iff some tile was landed on. */
  function Collisions(w: WidgetData): (r: WidgetData)
    requires HasLevel(w)
    ensures r.(player := w.player) == w
  {
    var box := B.Box(w.player);
    var c := ResolvedAll(w.level.value.grid, w.player, box, NearbyCells(box), w.topDown);
    w.(player := if w.topDown then c.body else B.Grounded(c.body, c.landed))
  }

  // ---------------------------------------------------------------------
  // Tile interactions
  // ---------------------------------------------------------------------

  /** The outcome of one tile: go on with the pass, or stop it (the goal loaded the next level). */
  datatype Step = Go(w: WidgetData) | Halt(w: WidgetData)

  /** The `levelComplete` handler: pause; load the next level and resume, or after level 6 show the victory screen. */
  function LevelCompleted(w: WidgetData, s: Setup): (r: WidgetData)
    requires SetupValid(s) && HasLevel(w)
    ensures HasLevel(r)
  {
    var w1 := Paused(w);
    if w.level.value.number < LastLevel then Resumed(LevelLoaded(w1, w.level.value.number + 1, s))
    else w1.(victory := true)
  }

  /** The key tile at `c` marked collected. */
  function KeyTaken(l: L.LevelData, c: L.Cell): (r: L.LevelData)
    requires L.Dims(l.grid) && L.InBounds(c.x, c.y)
    ensures L.Dims(r.grid)
  {
    l.(grid := l.grid[c.y := l.grid[c.y][c.x := l.grid[c.y][c.x].(collected := true)]])
  }

  /** What touching the tile at `c` does, by its kind. */
  function TileEffect(w: WidgetData, box: Rect, c: L.Cell, s: Setup): (r: Step)
    requires HasLevel(w) && L.InBounds(c.x, c.y) && SetupValid(s)
    ensures HasLevel(r.w)
  {
    var t := w.level.value.grid[c.y][c.x];
    if !Intersects(box, t.box) then Go(w)
    else
      match t.kind
      case Coin => Go(CoinTouched(w, c))
      case Key => Go(KeyTouched(w, c))
      case Spike => Go(SpikeTouched(w))
      case Goal => GoalTouched(w, s)
      case Checkpoint => Go(w.(level := Some(L.CheckpointActivated(w.level.value, Some(c)))))
      case _ => Go(w)
  }

  /** A coin not yet taken is collected by the level and counted by the player. */
  function CoinTouched(w: WidgetData, c: L.Cell): (r: WidgetData)
    requires HasLevel(w) && L.InBounds(c.x, c.y)
    ensures HasLevel(r)
  {
    var l := w.level.value;
    if l.grid[c.y][c.x].collected then w
    else w.(level := Some(L.CoinCollected(l, Some(c))), player := B.CoinTaken(w.player))
  }

  /** A key not yet taken: marked collected, held, worth 1000 points. */
  function KeyTouched(w: WidgetData, c: L.Cell): (r: WidgetData)
    requires HasLevel(w) && L.InBounds(c.x, c.y)
    ensures HasLevel(r)
  {
    var l := w.level.value;
    if l.grid[c.y][c.x].collected then w
    else w.(level := Some(KeyTaken(l, c)), hasKey := true, player := B.Scored(w.player, KeyPoints))
  }

  /** A spike: 25 damage, then back to the level's spawn. */
  function SpikeTouched(w: WidgetData): (r: WidgetData)
    requires HasLevel(w)
    ensures HasLevel(r)
  {
    var w1 := Hit(w, SpikeDamage);
    w1.(player := w1.player.(pos := w.level.value.spawn))
  }

  /**
   * A goal: locked on level 6 without the key; otherwise the level is
   * completed.  The pass stops when the handler loaded the next level; after
   * the victory on level 6 the level stays and the pass goes on.
   */
  function GoalTouched(w: WidgetData, s: Setup): (r: Step)
    requires HasLevel(w) && SetupValid(s)
    ensures HasLevel(r.w)
  {
    var l := w.level.value;
    if l.number == LastLevel && !w.hasKey then Go(w)
    else
      var w1 := LevelCompleted(w.(level := Some(l.(complete := true))), s);
      if l.number < LastLevel then Halt(w1) else Go(w1)
  }

  /** The tiles `cs` in order, until a goal loads the next level. */
  function TilesFrom(w: WidgetData, box: Rect, cs: seq<L.Cell>, s: Setup): (r: WidgetData)
    requires HasLevel(w) && AllInBounds(cs) && SetupValid(s)
    ensures HasLevel(r)
    decreases |cs|
  {
    if cs == [] then w
    else
      assert cs[0] in cs;
      match TileEffect(w, box, cs[0], s)
      case Halt(w1) => w1
      case Go(w1) => TilesFrom(w1, box, cs[1..], s)
  }

  /** `checkTileInteractions`: every tile of the player's box, in scan order. */
  function TileEffects(w: WidgetData, s: Setup): (r: WidgetData)
    requires HasLevel(w) && SetupValid(s)
    ensures HasLevel(r)
  {
    var box := B.Box(w.player);
    L.CellsInMembersOf(box);
    TilesFrom(w, box, L.AreaCells(box), s)
  }

  // ---------------------------------------------------------------------
  // Enemies and riddles
  // ---------------------------------------------------------------------

  /** An enemy `checkEnemyCollisions` reacts to: alive, its riddle not yet posed, touching the player. */
  predicate Touchable(e: E.EnemyData, box: Rect) {
    e.state != E.Dead && !e.triggered && Intersects(box, E.Box(e))
  }

  /** The first touchable enemy at or after index `i`. */
  function FirstTouchable(es: seq<E.EnemyData>, box: Rect, i: nat): (r: Option<nat>)
    requires i <= |es|
    ensures r.Some? ==> i <= r.value < |es| && Touchable(es[r.value], box)
    decreases |es| - i
  {
    if i == |es| then None
    else if Touchable(es[i], box) then Some(i)
    else FirstTouchable(es, box, i + 1)
  }

  /** `showRiddle(id, enemy)` with the dialog's outcome `answer`; ids outside 0..4 are ignored. */
  function RiddleShown(w: WidgetData, id: int, enemy: Option<int>, answer: Option<string>): WidgetData {
    if id < 0 || id >= RiddleCount then w
    else
      var w2 := Posed(w, id, enemy);
      match answer
      case Some(a) => RiddleSolved(w2, R.CheckAnswerCaseInsensitive(WidgetRiddle(id), a))
      case None => Resumed(w2.(riddleActive := false))
  }

  /** The riddle `id` of `enemy` on screen over a paused game, no key held and the player stopped horizontally. */
  function Posed(w: WidgetData, id: int, enemy: Option<int>): (r: WidgetData)
    ensures r.level == w.level && r.riddleActive && r.activeEnemy == enemy
  {
    var w1 := Paused(w);
    w1.(keys := {}, player := Halted(w1.player)).(riddleActive := true, activeRiddle := Some(id), activeEnemy := enemy)
  }

  /** The active enemy, if it is one of the level's, changed by `f`. */
  function EnemyChanged(w: WidgetData, f: E.EnemyData -> E.EnemyData): (r: WidgetData)
    ensures r.(level := w.level) == w
    ensures HasLevel(w) ==> HasLevel(r) && r.level.value.grid == w.level.value.grid
  {
    match w.activeEnemy
    case Some(i) =>
      if w.level.Some? && 0 <= i < |w.level.value.enemies| then
        var es := w.level.value.enemies;
        w.(level := Some(w.level.value.(enemies := es[i := f(es[i])])))
      else w
    case None => w
  }

  /**
   * `onRiddleSolved`: a right answer scores 500, heals 25 and kills the
   * enemy; a wrong one deals 25 damage and hurts it; either way the riddle
   * closes, keys and the active enemy are cleared and the game resumes.
   */
  function RiddleSolved(w: WidgetData, success: bool): WidgetData {
    Closed(EnemyChanged(Answered(w, success), if success then E.Slain else E.Wounded))
  }

  /** What an answer does to the player: 500 points and 25 health, or 25 damage. */
  function Answered(w: WidgetData, success: bool): (r: WidgetData)
    ensures r.level == w.level && r.activeEnemy == w.activeEnemy && r.victory == w.victory
  {
    if success then w.(player := B.Mended(B.Scored(w.player, RiddlePoints), RiddleHeal))
    else Hit(w, RiddleDamage)
  }

  /** The riddle's clean-up: closed, no key held, no active enemy, the player stopped horizontally, the game resumed. */
  function Closed(w: WidgetData): WidgetData {
    Resumed(w.(riddleActive := false, activeRiddle := None, keys := {}, player := Halted(w.player), activeEnemy := None))
  }

  /** `checkEnemyCollisions` with the dialog's outcome `answer`: at most one enemy poses its riddle. */
  function EnemyCheck(w: WidgetData, answer: Option<string>): WidgetData {
    if w.level.None? || w.riddleActive then w
    else
      var l := w.level.value;
      match FirstTouchable(l.enemies, B.Box(w.player), 0)
      case None => w
      case Some(i) =>
        var e := l.enemies[i];
        var w1 := w.(level := Some(l.(enemies := l.enemies[i := e.(triggered := true)])));
        RiddleShown(w1, e.riddleId, Some(i), answer)
  }

  /** The enemy loop of the tick: every enemy that is not dead is updated. */
  function Advanced(es: seq<E.EnemyData>, dt: real): (r: seq<E.EnemyData>)
    ensures |r| == |es|
    ensures forall i :: 0 <= i < |es| ==> r[i] == if es[i].state == E.Dead then es[i] else E.Updated(es[i], dt)
  {
    seq(|es|, i requires 0 <= i < |es| => if es[i].state == E.Dead then es[i] else E.Updated(es[i], dt))
  }

  /** An enemy the removal drops: dead and done with its death clip. */
  predicate Finished(e: E.EnemyData) {
    e.state == E.Dead && E.DeathFinished(e)
  }

  /** The removal of the tick: the enemies that are not finished, in their order. */
  function Survivors(es: seq<E.EnemyData>): seq<E.EnemyData>
    decreases |es|
  {
    if es == [] then []
    else Survivors(es[..|es| - 1]) + (if Finished(es[|es| - 1]) then [] else [es[|es| - 1]])
  }

  /** The end of the tick: update the living enemies, then remove the finished ones. */
  function EnemyPass(w: WidgetData, dt: real): WidgetData {
    match w.level
    case None => w
    case Some(l) => w.(level := Some(l.(enemies := Survivors(Advanced(l.enemies, dt)))))
  }

  /** The tick's step: the elapsed time, but never more than a tenth of a second. */
  function Clamped(dt: real): real {
    if dt > MaxStep then MaxStep else dt
  }

  /** A tick does nothing (but repaint) while paused, during a riddle or on the victory screen. */
  predicate Halts(w: WidgetData) {
    w.paused || w.riddleActive || w.victory
  }

  /** The player's four steps of a running tick: input, physics, collisions and the tile pass. */
  function Moved(w: WidgetData, dt: real, s: Setup): (r: WidgetData)
    requires HasLevel(w) && SetupValid(s)
    ensures HasLevel(r)
  {
    var w1 := Physics(Input(w), dt);
    var w2 := Collisions(w1);
    TileEffects(w2, s)
  }

  /** `update`: one frame of the game. */
  function Tick(w: WidgetData, dt: real, answer: Option<string>, s: Setup): WidgetData
    requires SetupValid(s) && (Halts(w) || HasLevel(w))
  {
    if Halts(w) then w
    else
      var d := Clamped(dt);
      EnemyPass(EnemyCheck(Moved(w, d, s), answer), d)
  }

  /** The delayed respawn fires: back to the current level's spawn, at full health. */
  function RespawnFired(w: WidgetData): WidgetData
    requires w.level.Some?
  {
    if w.pendingRespawns > 0 then w.(pendingRespawns := w.pendingRespawns - 1, player := B.Respawned(w.player, w.level.value.spawn))
    else w
  }

  /** `keyPressEvent`: the victory and retry screens take SPACE/R and ESC; otherwise keys are recorded and P or ESC toggles the pause. */
  function KeyPressed(w: WidgetData, k: Key, autoRepeat: bool, s: Setup): WidgetData
    requires SetupValid(s)
  {
    if w.victory then VictoryKey(w, k, s)
    else if w.retry then RetryKey(w, k, s)
    else PlayKey(w, k, autoRepeat)
  }

  /** A key on the victory screen: SPACE plays again, ESC leaves the screen, any other key is ignored. */
  function VictoryKey(w: WidgetData, k: Key, s: Setup): WidgetData
    requires SetupValid(s)
  {
    if k == SpaceKey then Started(w.(victory := false), s)
    else if k == EscapeKey then w.(victory := false)
    else w
  }

  /** A key on the retry screen: R retries, ESC leaves the screen, any other key is ignored. */
  function RetryKey(w: WidgetData, k: Key, s: Setup): WidgetData
    requires SetupValid(s)
  {
    if k == KeyR then Started(w.(retry := false), s)
    else if k == EscapeKey then w.(retry := false)
    else w
  }

  /** A key during play: recorded unless auto-repeated; P or ESC toggles the pause. */
  function PlayKey(w: WidgetData, k: Key, autoRepeat: bool): WidgetData {
    var w1 := if !autoRepeat then w.(keys := w.keys + {k}) else w;
    if k == KeyP || k == EscapeKey then (if w1.paused then Resumed(w1) else Paused(w1))
    else w1
  }

  /** `keyReleaseEvent`. */
  function KeyReleased(w: WidgetData, k: Key, autoRepeat: bool): WidgetData {
    if !autoRepeat then w.(keys := w.keys - {k}) else w
  }

  // ---------------------------------------------------------------------
  // Properties
  // ---------------------------------------------------------------------

  /** A halted tick changes nothing; a running one never steps more than a tenth of a second. */
  lemma TickHaltsOrClamps(w: WidgetData, dt: real, answer: Option<string>, s: Setup)
    requires SetupValid(s) && (Halts(w) || HasLevel(w))
    ensures Halts(w) ==> Tick(w, dt, answer, s) == w
    ensures dt > MaxStep ==> Tick(w, dt, answer, s) == Tick(w, MaxStep, answer, s)
    ensures Clamped(dt) <= MaxStep && (dt <= MaxStep ==> Clamped(dt) == dt)
  {
  }

  /**
   * Top-down input sets each velocity axis to -150, 0 or +150: full speed
   * toward a direction held alone, zero when opposite keys are both held
   * or neither is; nothing but the velocity changes.
   */
  lemma TopDownInput(w: WidgetData)
    requires w.topDown && !w.paused && !w.riddleActive
    ensures var v, k := Input(w).player.vel, w.keys;
      (v.x == -TopDownSpeed <==> HoldsLeft(k) && !HoldsRight(k)) &&
      (v.x == TopDownSpeed <==> HoldsRight(k) && !HoldsLeft(k)) &&
      (v.x == 0.0 <==> HoldsLeft(k) == HoldsRight(k)) &&
      (v.y == -TopDownSpeed <==> HoldsUp(k) && !HoldsDown(k)) &&
      (v.y == TopDownSpeed <==> HoldsDown(k) && !HoldsUp(k)) &&
      (v.y == 0.0 <==> HoldsUp(k) == HoldsDown(k)) &&
      Input(w).player == w.player.(vel := v)
  {
  }

  /** Input is ignored while paused or during a riddle; in platformer mode opposite keys cancel into friction. */
  lemma InputGates(w: WidgetData)
    ensures w.paused || w.riddleActive ==> Input(w) == w
    ensures !w.paused && !w.riddleActive && !w.topDown && HoldsLeft(w.keys) && HoldsRight(w.keys) && !HoldsJump(w.keys) ==>
      Input(w).player == B.Stopped(w.player)
  {
  }

  /**
   * A collision is corrected on a side of least overlap: top only for a
   * falling player and bottom only for a rising one in platformer mode,
   * and no correction at all exactly when, in platformer mode, neither
   * left nor right ties the minimum and the vertical side is refused.
   */
  lemma CorrectionSide(box: Rect, tb: Rect, vy: real, topDown: bool)
    ensures var sd, m := SideOf(box, tb, vy, topDown), LeastOverlap(box, tb);
      var ol, or, ot, ob := OverlapLeft(box, tb), OverlapRight(box, tb), OverlapTop(box, tb), OverlapBottom(box, tb);
      m <= ol && m <= or && m <= ot && m <= ob && (m == ol || m == or || m == ot || m == ob) &&
      (sd == TopSide ==> m == ot && (topDown || vy > 0.0)) &&
      (sd == BottomSide ==> m == ob && (topDown || vy < 0.0)) &&
      (sd == LeftSide ==> m == ol) &&
      (sd == RightSide ==> m == or) &&
      (sd == NoSide <==> !topDown && m != ol && m != or && !(m == ot && vy > 0.0) && !(m == ob && vy < 0.0))
  {
  }

  /**
   * Only a solid tile overlapping the pre-pass box is corrected against; a
   * landing puts the player's feet on the tile's top with no vertical
   * speed and leaves the horizontal motion alone.
   */
  lemma LandingPlacement(p: B.BodyData, box: Rect, t: L.Tile, topDown: bool)
    ensures !L.SolidKind(t.kind) || !Intersects(box, t.box) ==> Resolved(p, box, t, topDown) == Contact(p, false)
    ensures var r := Resolved(p, box, t, topDown);
      r.landed ==>
        p.vel.y > 0.0 && r.body.pos.y == t.box.Top() - B.Height && r.body.vel.y == 0.0 &&
        r.body.pos.x == p.pos.x && r.body.vel.x == p.vel.x
  {
  }

  /** A collision pass changes only the player's position and velocity. */
  lemma {:induction false} ResolvedAllFrame(g: L.Grid, p: B.BodyData, box: Rect, cs: seq<L.Cell>, topDown: bool)
    requires L.Dims(g) && AllInBounds(cs)
    ensures var q := ResolvedAll(g, p, box, cs, topDown).body; q == p.(pos := q.pos, vel := q.vel)
    ensures topDown ==> !ResolvedAll(g, p, box, cs, topDown).landed
    decreases |cs|
  {
    if cs != [] {
      assert cs[|cs| - 1] in cs;
      ResolvedAllFrame(g, p, box, cs[..|cs| - 1], topDown);
    }
  }

  /**
   * Every decision of the pass uses the box taken before it: where the
   * player has been moved to in between plays no part, so two players that
   * differ only in position land alike and end with the same velocity.
   */
  lemma {:induction false} DecisionsIgnorePosition(g: L.Grid, p: B.BodyData, q: Point, box: Rect, cs: seq<L.Cell>, topDown: bool)
    requires L.Dims(g) && AllInBounds(cs)
    ensures ResolvedAll(g, p.(pos := q), box, cs, topDown).landed == ResolvedAll(g, p, box, cs, topDown).landed
    ensures ResolvedAll(g, p.(pos := q), box, cs, topDown).body.vel == ResolvedAll(g, p, box, cs, topDown).body.vel
    decreases |cs|
  {
    if cs != [] {
      var c := cs[|cs| - 1];
      assert c in cs;
      DecisionsIgnorePosition(g, p, q, box, cs[..|cs| - 1], topDown);
      ResolvedUsesVelocityOnly(ResolvedAll(g, p.(pos := q), box, cs[..|cs| - 1], topDown).body,
        ResolvedAll(g, p, box, cs[..|cs| - 1], topDown).body, box, g[c.y][c.x], topDown);
    }
  }

  /** Whether one tile lands the player, and the velocity it leaves, depend on the player's velocity alone. */
  lemma ResolvedUsesVelocityOnly(a: B.BodyData, b: B.BodyData, box: Rect, t: L.Tile, topDown: bool)
    requires a.vel == b.vel
    ensures Resolved(a, box, t, topDown).landed == Resolved(b, box, t, topDown).landed
    ensures Resolved(a, box, t, topDown).body.vel == Resolved(b, box, t, topDown).body.vel
  {
  }

  /** In platformer mode the player is grounded after the pass iff it landed on some tile; top-down leaves the flag alone. */
  lemma CollisionsGround(w: WidgetData)
    requires HasLevel(w)
    ensures var box := B.Box(w.player);
      var c := ResolvedAll(w.level.value.grid, w.player, box, NearbyCells(box), w.topDown);
      (!w.topDown ==> Collisions(w).player.onGround == c.landed) &&
      (w.topDown ==> Collisions(w).player.onGround == w.player.onGround && !c.landed)
  {
    var box := B.Box(w.player);
    ResolvedAllFrame(w.level.value.grid, w.player, box, NearbyCells(box), w.topDown);
  }

  /** A tile the player's box does not touch, and a collected coin or key, do nothing. */
  lemma UntouchedTileNoEffect(w: WidgetData, box: Rect, c: L.Cell, s: Setup)
    requires HasLevel(w) && L.InBounds(c.x, c.y) && SetupValid(s)
    ensures var t := w.level.value.grid[c.y][c.x];
      !Intersects(box, t.box) || ((t.kind == L.Coin || t.kind == L.Key) && t.collected) ||
      t.kind == L.Empty || t.kind == L.Solid ==>
        TileEffect(w, box, c, s) == Go(w)
  {
  }

  /** A spike costs 25 health, never below zero, and sends the player to the level's spawn; the level is unchanged. */
  lemma SpikeEffect(w: WidgetData, box: Rect, c: L.Cell, s: Setup)
    requires HasLevel(w) && L.InBounds(c.x, c.y) && SetupValid(s)
    requires var t := w.level.value.grid[c.y][c.x]; t.kind == L.Spike && Intersects(box, t.box)
    ensures var r := TileEffect(w, box, c, s);
      r.Go? && r.w.level == w.level && r.w.player.pos == w.level.value.spawn &&
      r.w.player.health == (if w.player.health - SpikeDamage < 0 then 0 else w.player.health - SpikeDamage) &&
      (B.DamageKills(w.player, SpikeDamage) <==> r.w.player.lives == w.player.lives - 1)
  {
    B.DamageEffect(w.player, SpikeDamage);
  }

  /**
   * The goal of level 6 does nothing without the key; any other touched
   * goal completes the level: below level 6 the next level is loaded and
   * running and the pass stops; after level 6 the victory screen shows over
   * a paused game and the pass goes on over the same level.
   */
  lemma GoalEffect(w: WidgetData, box: Rect, c: L.Cell, s: Setup)
    requires HasLevel(w) && L.InBounds(c.x, c.y) && SetupValid(s)
    requires var t := w.level.value.grid[c.y][c.x]; t.kind == L.Goal && Intersects(box, t.box)
    ensures var r, n := TileEffect(w, box, c, s), w.level.value.number;
      (n == LastLevel && !w.hasKey ==> r == Go(w)) &&
      (!(n == LastLevel && !w.hasKey) ==>
        (r.Halt? <==> n < LastLevel) && r.w.keys == {} &&
        (n < LastLevel ==> !r.w.paused && r.w.level.value.number == n + 1) &&
        (n >= LastLevel ==> r.w.paused && r.w.victory && r.w.level.value.complete && r.w.level.value.number == n))
  {
  }

  /** An untaken key is taken once: 1000 points, the key held, the tile marked collected. */
  lemma KeyTileEffect(w: WidgetData, box: Rect, c: L.Cell, s: Setup)
    requires HasLevel(w) && L.InBounds(c.x, c.y) && SetupValid(s)
    requires var t := w.level.value.grid[c.y][c.x]; t.kind == L.Key && !t.collected && Intersects(box, t.box)
    ensures var r, t := TileEffect(w, box, c, s), w.level.value.grid[c.y][c.x];
      r.Go? && r.w.hasKey && r.w.player.score == w.player.score + KeyPoints &&
      r.w.level.value.grid[c.y][c.x] == t.(collected := true) &&
      r.w.level.value.(grid := w.level.value.grid) == w.level.value
  {
  }

  /** An untaken coin is taken once: a coin and 100 points, one coin fewer left in the level. */
  lemma CoinTileEffect(w: WidgetData, box: Rect, c: L.Cell, s: Setup)
    requires HasLevel(w) && L.InBounds(c.x, c.y) && SetupValid(s)
    requires var t := w.level.value.grid[c.y][c.x]; t.kind == L.Coin && !t.collected && Intersects(box, t.box)
    ensures var r, t := TileEffect(w, box, c, s), w.level.value.grid[c.y][c.x];
      r.Go? && r.w.player.coins == w.player.coins + 1 && r.w.player.score == w.player.score + B.CoinPoints &&
      L.CoinsRemaining(r.w.level.value) == L.CoinsRemaining(w.level.value) - 1 &&
      r.w.level.value.grid[c.y][c.x] == t.(collected := true)
  {
  }

  /** `FirstTouchable` finds the first touchable enemy from index `i` on, or reports that there is none. */
  lemma {:induction false} FirstTouchableFirst(es: seq<E.EnemyData>, box: Rect, i: nat)
    requires i <= |es|
    ensures FirstTouchable(es, box, i).None? ==> forall j :: i <= j < |es| ==> !Touchable(es[j], box)
    ensures FirstTouchable(es, box, i).Some? ==> forall j :: i <= j < FirstTouchable(es, box, i).value ==> !Touchable(es[j], box)
    decreases |es| - i
  {
    if i < |es| && !Touchable(es[i], box) {
      FirstTouchableFirst(es, box, i + 1);
    }
  }

  /** `EnemyChanged` changes the active enemy by `f`, when it is one of the level's, and no other. */
  lemma EnemyChangedOnly(w: WidgetData, f: E.EnemyData -> E.EnemyData)
    requires w.level.Some?
    ensures var r, es := EnemyChanged(w, f), w.level.value.enemies;
      r.level == Some(w.level.value.(enemies := r.level.value.enemies)) && |r.level.value.enemies| == |es| &&
      (forall j :: 0 <= j < |es| ==>
        r.level.value.enemies[j] == if w.activeEnemy == Some(j) then f(es[j]) else es[j])
  {
  }

  /** The outcome of a riddle changes no enemy but the active one and keeps every enemy's trigger flag. */
  lemma RiddleSolvedEnemies(w: WidgetData, success: bool)
    requires w.level.Some?
    ensures var r, es := RiddleSolved(w, success), w.level.value.enemies;
      r.level == Some(w.level.value.(enemies := r.level.value.enemies)) && |r.level.value.enemies| == |es| &&
      forall j :: 0 <= j < |es| ==>
        r.level.value.enemies[j].triggered == es[j].triggered &&
        (w.activeEnemy != Some(j) ==> r.level.value.enemies[j] == es[j])
  {
    var es := w.level.value.enemies;
    var w1 := Answered(w, success);
    if success {
      EnemyChangedOnly(w1, E.Slain);
      forall j | 0 <= j < |es| {
        E.DieEffect(es[j]);
      }
    } else {
      EnemyChangedOnly(w1, E.Wounded);
      forall j | 0 <= j < |es| {
        E.TakeDamageEffect(es[j]);
      }
    }
  }

  /** A posed riddle, answered or not, changes no enemy but its own and keeps every enemy's trigger flag. */
  lemma RiddleShownEnemies(w: WidgetData, id: int, i: int, answer: Option<string>)
    requires w.level.Some?
    ensures var r, es := RiddleShown(w, id, Some(i), answer), w.level.value.enemies;
      r.level.Some? && |r.level.value.enemies| == |es| &&
      forall j :: 0 <= j < |es| ==>
        r.level.value.enemies[j].triggered == es[j].triggered && (j != i ==> r.level.value.enemies[j] == es[j])
  {
    if 0 <= id < RiddleCount && answer.Some? {
      RiddleSolvedEnemies(Posed(w, id, Some(i)), R.CheckAnswerCaseInsensitive(WidgetRiddle(id), answer.value));
    }
  }

  /**
   * At most one enemy poses its riddle per check: the first living,
   * untriggered enemy touching the player, which is marked triggered; no
   * other enemy changes.
   */
  lemma OneEnemyPerCheck(w: WidgetData, answer: Option<string>)
    requires w.level.Some? && !w.riddleActive
    ensures var es, box, r := w.level.value.enemies, B.Box(w.player), EnemyCheck(w, answer);
      match FirstTouchable(es, box, 0)
      case None => r == w && forall j :: 0 <= j < |es| ==> !Touchable(es[j], box)
      case Some(i) =>
        Touchable(es[i], box) && (forall j :: 0 <= j < i ==> !Touchable(es[j], box)) &&
        r.level.Some? && |r.level.value.enemies| == |es| && r.level.value.enemies[i].triggered &&
        forall j :: 0 <= j < |es| && j != i ==> r.level.value.enemies[j] == es[j]
  {
    var es, box := w.level.value.enemies, B.Box(w.player);
    FirstTouchableFirst(es, box, 0);
    match FirstTouchable(es, box, 0)
    case None =>
    case Some(i) =>
      var e := es[i];
      RiddleShownEnemies(w.(level := Some(w.level.value.(enemies := es[i := e.(triggered := true)]))), e.riddleId, i, answer);
  }

  /** `showRiddle` ignores a riddle id outside 0..4. */
  lemma UnknownRiddleIgnored(w: WidgetData, id: int, enemy: Option<int>, answer: Option<string>)
    requires id < 0 || id >= RiddleCount
    ensures RiddleShown(w, id, enemy, answer) == w
  {
  }

  /** Either outcome closes the riddle, clears the keys and the active enemy, stops the player horizontally and resumes the game. */
  lemma RiddleClosed(w: WidgetData, success: bool)
    ensures var r := RiddleSolved(w, success);
      !r.riddleActive && r.activeRiddle.None? && r.activeEnemy.None? && r.keys == {} && !r.paused &&
      r.player.vel.x == 0.0 && r.victory == w.victory
  {
  }

  /** A right answer scores 500, heals 25 (capped at 100) and kills the active enemy. */
  lemma RightAnswer(w: WidgetData)
    ensures var r := RiddleSolved(w, true);
      r.player.score == w.player.score + RiddlePoints && r.player.lives == w.player.lives &&
      r.player.health == (if w.player.health + RiddleHeal > B.FullHealth then B.FullHealth else w.player.health + RiddleHeal) &&
      forall i :: w.activeEnemy == Some(i) && w.level.Some? && 0 <= i < |w.level.value.enemies| ==>
        r.level.value.enemies[i] == E.Slain(w.level.value.enemies[i])
  {
    if w.level.Some? {
      EnemyChangedOnly(Answered(w, true), E.Slain);
    }
  }

  /** A wrong answer deals 25 damage (never below zero) and hurts the active enemy. */
  lemma WrongAnswer(w: WidgetData)
    ensures var r := RiddleSolved(w, false);
      r.player.score == w.player.score &&
      r.player.health == (if w.player.health - RiddleDamage < 0 then 0 else w.player.health - RiddleDamage) &&
      forall i :: w.activeEnemy == Some(i) && w.level.Some? && 0 <= i < |w.level.value.enemies| ==>
        r.level.value.enemies[i] == E.Wounded(w.level.value.enemies[i])
  {
    B.DamageEffect(w.player, RiddleDamage);
    if w.level.Some? {
      EnemyChangedOnly(Answered(w, false), E.Wounded);
    }
  }

  /**
   * A wrong answer that takes the last life shows the retry screen, but the
   * riddle's clean-up then resumes the game underneath it, and ticks keep
   * running there.
   */
  lemma LastLifeLostToRiddle(w: WidgetData)
    requires w.player.lives == 1 && B.DamageKills(w.player, RiddleDamage) && !w.victory
    ensures var r := RiddleSolved(w, false); r.retry && !r.paused && !Halts(r) && r.player.lives == 0
  {
    B.DamageEffect(w.player, RiddleDamage);
    RiddleClosed(w, false);
  }

  /** The `died` handler: a respawn is scheduled while lives remain; otherwise the best score is kept, the game pauses and the retry screen shows. */
  lemma DiedHandlerEffect(w: WidgetData)
    ensures var r := DiedHandled(w);
      (w.player.lives > 0 ==> r == w.(pendingRespawns := w.pendingRespawns + 1)) &&
      (w.player.lives <= 0 ==>
        r.retry && r.paused && r.keys == {} && r.pendingRespawns == w.pendingRespawns &&
        r.highest >= w.player.score && r.highest >= w.highest &&
        (r.highest == w.player.score || r.highest == w.highest))
  {
  }

  /**
   * Retrying from the retry screen restarts level 1 without giving lives
   * back: the game restarts with the lives it ended with.
   */
  lemma RetryKeepsLives(w: WidgetData, s: Setup)
    requires SetupValid(s) && w.retry && !w.victory
    ensures var r := KeyPressed(w, KeyR, false, s);
      !r.retry && !r.paused && r.player.lives == w.player.lives && r.player.score == 0 &&
      r.level.Some? && r.level.value.number == 1 && !r.topDown
  {
  }

  /** Away from the two screens, P or ESC toggles the pause, and a pressed key is recorded unless it is an auto-repeat. */
  lemma PauseToggles(w: WidgetData, k: Key, autoRepeat: bool, s: Setup)
    requires SetupValid(s) && !w.victory && !w.retry
    ensures var r := KeyPressed(w, k, autoRepeat, s);
      (k == KeyP || k == EscapeKey ==> r.paused == !w.paused && r.keys == {}) &&
      (k != KeyP && k != EscapeKey ==> r.paused == w.paused && r.keys == (if autoRepeat then w.keys else w.keys + {k}))
  {
  }

  /** Releasing a key forgets it, unless the release is an auto-repeat. */
  lemma ReleaseForgets(w: WidgetData, k: Key, autoRepeat: bool)
    ensures !autoRepeat ==> k !in KeyReleased(w, k, autoRepeat).keys
    ensures KeyReleased(w, k, autoRepeat).(keys := w.keys) == w
  {
  }

  /** Loading level 6 turns on top-down mode and takes the key away; any other level is platformer mode. */
  lemma LoadLevelModes(w: WidgetData, n: int, s: Setup)
    requires SetupValid(s)
    ensures var r := LevelLoaded(w, n, s);
      (r.topDown <==> n == LastLevel) && (n == LastLevel ==> !r.hasKey) && (n != LastLevel ==> r.hasKey == w.hasKey) &&
      r.level.Some? && r.level.value.number == n && r.player.pos == r.level.value.spawn
  {
  }

  /** The removal keeps exactly the enemies that are not finished, in order. */
  lemma {:induction false} SurvivorsMeans(es: seq<E.EnemyData>)
    ensures forall e :: e in Survivors(es) <==> e in es && !Finished(e)
    ensures |Survivors(es)| <= |es|
    ensures (forall e :: e in es ==> !Finished(e)) ==> Survivors(es) == es
    decreases |es|
  {
    if es != [] {
      var init := es[..|es| - 1];
      assert es == init + [es[|es| - 1]];
      SurvivorsMeans(init);
    }
  }

  /** No dead enemy has finished its death clip. */
  predicate NoneFinished(es: seq<E.EnemyData>) {
    forall i :: 0 <= i < |es| ==> !Finished(es[i])
  }

  /**
   * Dead enemies are skipped by the enemy loop, so their death clip never
   * advances: an enemy that has just died is never finished, the loop
   * keeps it so, and the removal therefore never removes anything.
   */
  lemma DeadEnemiesNeverRemoved(es: seq<E.EnemyData>, dt: real)
    requires NoneFinished(es)
    ensures NoneFinished(Advanced(es, dt))
    ensures Survivors(Advanced(es, dt)) == Advanced(es, dt)
  {
    var r := Advanced(es, dt);
    SurvivorsMeans(r);
  }

  /** Everything that changes an enemy keeps `NoneFinished`: a new enemy, `die`, `takeDamage` and the trigger flag. */
  lemma EnemyChangesKeepNoneFinished(e: E.EnemyData)
    ensures !Finished(E.Slain(e)) && (e.state != E.Dead || !E.DeathFinished(e) ==> !Finished(E.Wounded(e)))
    ensures !Finished(e) ==> !Finished(e.(triggered := true))
    ensures forall b, p, id, sheets :: !Finished(E.NewEnemy(b, p, id, sheets))
  {
    E.DieEffect(e);
  }

  // ---------------------------------------------------------------------
  // The widget object
  // ---------------------------------------------------------------------

  /**
   * `GameWidget`: owns a `Player2D` and the current `Level` (none before
   * the first `loadLevel`).  Each `died` signal of the player is handled
   * by `OnPlayerDied` right after the player call that emitted it.
   */
  class GameWidget {
    const player: B.Player2D
    var level: L.Level?
    const setup: Setup
    var keys: set<Key>
    var paused: bool
    var riddleActive: bool
    var retry: bool
    var victory: bool
    var highest: int
    var hasKey: bool
    var topDown: bool
    var activeRiddle: Option<int>
    var activeEnemy: Option<int>
    var pendingRespawns: nat

    function Data(): WidgetData
      reads this, player, level
    {
      WidgetData(player.Data(), if level == null then None else Some(level.Data()), keys, paused, riddleActive,
        retry, victory, highest, hasKey, topDown, activeRiddle, activeEnemy, pendingRespawns)
    }

    /** Six layouts, and a loaded level has the 30×20 grid. */
    predicate Valid()
      reads this, level
    {
      SetupValid(setup) && (level != null ==> L.Dims(level.grid))
    }

    constructor(s: Setup, bodySheets: set<B.Sheet>)
      requires SetupValid(s)
      ensures Data() == NewWidget(bodySheets) && setup == s && Valid()
    {
      player := new B.Player2D(bodySheets);
      level := null;
      setup := s;
      keys := {};
      paused, riddleActive, retry, victory := false, false, false, false;
      highest := 0;
      hasKey, topDown := false, false;
      activeRiddle, activeEnemy := None, None;
      pendingRespawns := 0;
    }

    method PauseGame()
      modifies this, player
      ensures Data() == Paused(old(Data()))
      ensures level == old(level) && Valid() == old(Valid())
    {
      paused := true;
      keys := {};
      player.SetVelocity(Point(0.0, player.vel.y));
    }

    method ResumeGame()
      modifies this
      ensures Data() == Resumed(old(Data()))
      ensures level == old(level) && Valid() == old(Valid())
    {
      paused := false;
      keys := {};
    }

    /** The handler of the player's `died` signal. */
    method OnPlayerDied()
      modifies this, player
      ensures Data() == DiedHandled(old(Data()))
      ensures level == old(level) && Valid() == old(Valid())
    {
      if player.lives > 0 {
        pendingRespawns := pendingRespawns + 1;
      } else {
        if player.score > highest {
          highest := player.score;
        }
        ghost var w1 := Data();
        PauseGame();
        assert Data() == Paused(w1);
        retry := true;
      }
    }

    /** The delayed respawn of the `died` handler firing. */
    method RespawnTimerFired()
      requires level != null
      modifies this, player
      ensures Data() == RespawnFired(old(Data()))
      ensures level == old(level) && Valid() == old(Valid())
    {
      if pendingRespawns > 0 {
        pendingRespawns := pendingRespawns - 1;
        player.Respawn(level.spawn);
      }
    }

    method LoadLevel(n: int)
      requires Valid()
      modifies this, player
      ensures Data() == LevelLoaded(old(Data()), n, setup)
      ensures Valid() && level != null && fresh(level)
    {
      if n == LastLevel {
        hasKey := false;
        topDown := true;
      } else {
        topDown := false;
      }
      level := new L.Level(n, setup.layouts, setup.sheets);
      player.SetPosition(level.spawn);
    }

    method StartGame()
      requires Valid()
      modifies this, player
      ensures Data() == Started(old(Data()), setup)
      ensures Valid() && level != null && fresh(level)
    {
      ResetPlayer();
      LoadLevel(1);
      ghost var w1 := Data();
      paused := false;
      assert Data() == w1.(paused := false);
    }

    /** The first two steps of `startGame`: the player at the start point with no score. */
    method ResetPlayer()
      modifies player
      ensures player.Data() == B.Scored(B.Respawned(old(player.Data()), StartPoint), -B.Respawned(old(player.Data()), StartPoint).score)
    {
      player.Respawn(StartPoint);
      player.AddScore(-player.score);
    }

    method HandleInput()
      modifies player
      ensures Data() == Input(old(Data()))
    {
      if paused || riddleActive {
        return;
      }
      if topDown {
        Steer();
      } else {
        Walk();
      }
    }

    /** The top-down half of `handleInput`. */
    method Steer()
      modifies player
      ensures player.Data() == Steered(old(player.Data()), keys)
    {
      var left, right := LeftKey in keys || KeyA in keys, RightKey in keys || KeyD in keys;
      var up, down := UpKey in keys || KeyW in keys, DownKey in keys || KeyS in keys;
      var v := Point(0.0, 0.0);
      if left && !right {
        v := v.(x := -TopDownSpeed);
      } else if right && !left {
        v := v.(x := TopDownSpeed);
      }
      if up && !down {
        v := v.(y := -TopDownSpeed);
      } else if down && !up {
        v := v.(y := TopDownSpeed);
      }
      player.SetVelocity(v);
    }

    /** The platformer half of `handleInput`. */
    method Walk()
      modifies player
      ensures player.Data() == Walked(old(player.Data()), keys)
    {
      var left, right := LeftKey in keys || KeyA in keys, RightKey in keys || KeyD in keys;
      var jumping := UpKey in keys || KeyW in keys || SpaceKey in keys;
      if left && !right {
        player.MoveLeft();
      } else if right && !left {
        player.MoveRight();
      } else {
        player.StopHorizontalMovement();
      }
      if jumping {
        player.Jump();
      }
    }

    method UpdatePhysics(dt: real)
      modifies this, player
      ensures Data() == Physics(old(Data()), dt)
      ensures level == old(level) && Valid() == old(Valid())
    {
      if !topDown {
        player.ApplyGravity(dt);
      }
      var died := player.Update(dt);
      if died {
        OnPlayerDied();
      }
    }

    method KeyRelease(k: Key, autoRepeat: bool)
      modifies this
      ensures Data() == KeyReleased(old(Data()), k, autoRepeat)
    {
      if !autoRepeat {
        keys := keys - {k};
      }
    }

    method KeyPress(k: Key, autoRepeat: bool)
      requires Valid()
      modifies this, player
      ensures Data() == KeyPressed(old(Data()), k, autoRepeat, setup)
      ensures Valid() && (level == old(level) || fresh(level))
    {
      if victory {
        OnVictoryScreen(k);
      } else if retry {
        OnRetryScreen(k);
      } else {
        OnPlayKey(k, autoRepeat);
      }
    }

    /** `keyPressEvent` during play. */
    method OnPlayKey(k: Key, autoRepeat: bool)
      modifies this, player
      ensures Data() == PlayKey(old(Data()), k, autoRepeat)
      ensures level == old(level) && Valid() == old(Valid())
    {
      if !autoRepeat {
        keys := keys + {k};
      }
      if k == KeyP || k == EscapeKey {
        if paused {
          ResumeGame();
        } else {
          PauseGame();
        }
      }
    }

    /** `keyPressEvent` on the victory screen. */
    method OnVictoryScreen(k: Key)
      requires Valid()
      modifies this, player
      ensures Data() == VictoryKey(old(Data()), k, setup)
      ensures Valid() && (level == old(level) || fresh(level))
    {
      if k == SpaceKey {
        victory := false;
        StartGame();
      } else if k == EscapeKey {
        victory := false;
      }
    }

    /** `keyPressEvent` on the retry screen. */
    method OnRetryScreen(k: Key)
      requires Valid()
      modifies this, player
      ensures Data() == RetryKey(old(Data()), k, setup)
      ensures Valid() && (level == old(level) || fresh(level))
    {
      if k == KeyR {
        retry := false;
        StartGame();
      } else if k == EscapeKey {
        retry := false;
      }
    }
  
    /** `checkCollisions`: every nearby solid tile pushes the player out, judged against the box taken first. */
    method CheckCollisions()
      requires Valid() && level != null
      modifies player
      ensures Data() == Collisions(old(Data()))
    {
      var box := player.BoundingBox();
      var cs := level.GetTilesInArea(box.Adjusted(-10.0, -10.0, 10.0, 10.0));
      assert cs == NearbyCells(box);
      var onGround := ResolveAll(level.grid, box, cs);
      if !topDown {
        player.SetOnGround(onGround);
      }
    }

    /** The loop of `checkCollisions` over the cells `cs`; the result says whether the player landed on one. */
    method ResolveAll(g: L.Grid, box: Rect, cs: seq<L.Cell>) returns (onGround: bool)
      requires L.Dims(g) && AllInBounds(cs)
      modifies player
      ensures Contact(player.Data(), onGround) == ResolvedAll(g, old(player.Data()), box, cs, topDown)
    {
      ghost var p0 := player.Data();
      onGround := false;
      var i := 0;
      while i < |cs|
        invariant 0 <= i <= |cs|
        invariant Contact(player.Data(), onGround) == ResolvedAll(g, p0, box, cs[..i], topDown)
      {
        var c := cs[i];
        assert c in cs && cs[..i + 1][..i] == cs[..i] && cs[..i + 1][i] == c;
        var landed := ResolveAgainst(box, g[c.y][c.x]);
        onGround := onGround || landed;
        i := i + 1;
      }
      assert cs[..i] == cs;
    }

    /** One tile of `checkCollisions`: a solid tile overlapping `box` pushes the player out through the side of least overlap. */
    method ResolveAgainst(box: Rect, t: L.Tile) returns (landed: bool)
      modifies player
      ensures Contact(player.Data(), landed) == Resolved(old(player.Data()), box, t, topDown)
    {
      landed := false;
      if t.kind != L.Solid && t.kind != L.MovingPlatform {
        return;
      }
      if !Intersects(box, t.box) {
        return;
      }
      var side := SideToCorrect(box, t.box);
      PushOut(t.box, side);
      landed := !topDown && side == TopSide;
    }

    /** The four overlaps of `box` with the tile's box `tb`, and the side the player is pushed out through. */
    method SideToCorrect(box: Rect, tb: Rect) returns (side: Side)
      ensures side == SideOf(box, tb, player.vel.y, topDown)
    {
      var overlapLeft := box.Right() - tb.Left();
      var overlapRight := tb.Right() - box.Left();
      var overlapTop := box.Bottom() - tb.Top();
      var overlapBottom := tb.Bottom() - box.Top();
      var m := Min(Min(Min(overlapLeft, overlapRight), overlapTop), overlapBottom);
      var vy := player.vel.y;
      if m == overlapTop && (topDown || vy > 0.0) {
        side := TopSide;
      } else if m == overlapBottom && (topDown || vy < 0.0) {
        side := BottomSide;
      } else if m == overlapLeft {
        side := LeftSide;
      } else if m == overlapRight {
        side := RightSide;
      } else {
        side := NoSide;
      }
    }

    /** The correction itself: the player against that face of the tile, that speed zeroed, set back through `setPosition` and `setVelocity`. */
    method PushOut(tb: Rect, side: Side)
      modifies player
      ensures player.Data() == Corrected(old(player.Data()), tb, side)
    {
      var pos, vel := player.pos, player.vel;
      match side {
        case TopSide =>
          pos, vel := pos.(y := tb.Top() - B.Height), vel.(y := 0.0);
        case BottomSide =>
          pos, vel := pos.(y := tb.Bottom()), vel.(y := 0.0);
        case LeftSide =>
          pos, vel := pos.(x := tb.Left() - B.Width), vel.(x := 0.0);
        case RightSide =>
          pos, vel := pos.(x := tb.Right()), vel.(x := 0.0);
        case NoSide =>
      }
      player.SetPosition(pos);
      player.SetVelocity(vel);
    }
  
    /** `checkTileInteractions`: the tiles under the player's box, in scan order, until a goal loads the next level. */
    method CheckTileInteractions()
      requires Valid() && level != null
      modifies this, player, level
      ensures Data() == TileEffects(old(Data()), setup)
      ensures Valid() && level != null && (level == old(level) || fresh(level))
    {
      var box := player.BoundingBox();
      var cs := level.GetTilesInArea(box);
      L.CellsInMembersOf(box);
      assert AllInBounds(cs);
      ghost var goal := TileEffects(Data(), setup);
      var i := 0;
      while i < |cs|
        invariant 0 <= i <= |cs|
        invariant Valid() && level != null && (level == old(level) || fresh(level))
        invariant goal == TilesFrom(Data(), box, cs[i..], setup)
      {
        assert cs[i] in cs && cs[i..][0] == cs[i] && cs[i..][1..] == cs[i + 1..];
        var halt := ApplyTile(box, cs[i]);
        if halt {
          return;
        }
        i := i + 1;
      }
    }

    /** The body of the loop of `checkTileInteractions` for the tile at `c`; `halt` when a goal loaded the next level. */
    method ApplyTile(box: Rect, c: L.Cell) returns (halt: bool)
      requires Valid() && level != null && L.InBounds(c.x, c.y)
      modifies this, player, level
      ensures Data() == TileEffect(old(Data()), box, c, setup).w && halt == TileEffect(old(Data()), box, c, setup).Halt?
      ensures Valid() && level != null && (level == old(level) || fresh(level))
    {
      halt := false;
      var t := level.grid[c.y][c.x];
      if !Intersects(box, t.box) {
        return;
      }
      match t.kind {
        case Coin =>
          TouchCoin(c);
        case Key =>
          TouchKey(c);
        case Spike =>
          TouchSpike();
        case Goal =>
          halt := TouchGoal();
        case Checkpoint =>
          level.ActivateCheckpoint(Some(c));
        case _ =>
      }
    }

    method TouchCoin(c: L.Cell)
      requires Valid() && level != null && L.InBounds(c.x, c.y)
      modifies player, level
      ensures Data() == CoinTouched(old(Data()), c)
    {
      if !level.grid[c.y][c.x].collected {
        level.CollectCoin(Some(c));
        player.CollectCoin();
      }
    }

    method TouchKey(c: L.Cell)
      requires Valid() && level != null && L.InBounds(c.x, c.y)
      modifies this, player, level
      ensures Data() == KeyTouched(old(Data()), c) && level == old(level)
    {
      var t := level.grid[c.y][c.x];
      if !t.collected {
        level.grid := level.grid[c.y := level.grid[c.y][c.x := t.(collected := true)]];
        hasKey := true;
        player.AddScore(KeyPoints);
      }
    }

    /** `takeDamage` on the player, with the `died` handler run if it was lethal. */
    method TakeDamage(amount: int)
      modifies this, player
      ensures Data() == Hit(old(Data()), amount)
      ensures level == old(level) && Valid() == old(Valid())
    {
      var died := player.TakeDamage(amount);
      if died {
        OnPlayerDied();
      }
    }

    method TouchSpike()
      requires Valid() && level != null
      modifies this, player
      ensures Data() == SpikeTouched(old(Data())) && level == old(level)
    {
      ghost var w0 := Data();
      TakeDamage(SpikeDamage);
      assert Data() == Hit(w0, SpikeDamage);
      player.SetPosition(level.spawn);
    }

    method TouchGoal() returns (halt: bool)
      requires Valid() && level != null
      modifies this, player, level
      ensures Data() == GoalTouched(old(Data()), setup).w && halt == GoalTouched(old(Data()), setup).Halt?
      ensures Valid() && level != null && (level == old(level) || fresh(level))
    {
      halt := false;
      if !(level.number == LastLevel && !hasKey) {
        halt := level.number < LastLevel;
        level.SetComplete(true);
        LevelComplete();
      }
    }

    /** The `levelComplete` handler. */
    method LevelComplete()
      requires Valid() && level != null
      modifies this, player
      ensures Data() == LevelCompleted(old(Data()), setup)
      ensures Valid() && level != null && (level == old(level) || fresh(level))
    {
      PauseGame();
      if level.number < LastLevel {
        LoadLevel(level.number + 1);
        ResumeGame();
      } else {
        victory := true;
      }
    }
  
    /** `checkEnemyCollisions`: the first living, untriggered enemy touching the player is marked and poses its riddle. */
    method CheckEnemyCollisions(answer: Option<string>)
      requires Valid()
      modifies this, player, level
      ensures Data() == EnemyCheck(old(Data()), answer)
      ensures level == old(level) && Valid()
    {
      if level == null || riddleActive {
        return;
      }
      var box := player.BoundingBox();
      var es := level.enemies;
      var i := 0;
      while i < |es|
        invariant 0 <= i <= |es|
        invariant FirstTouchable(es, box, i) == FirstTouchable(es, box, 0)
      {
        var e := es[i];
        if e.state != E.Dead && !e.triggered && Intersects(box, E.Box(e)) {
          level.enemies := es[i := e.(triggered := true)];
          ShowRiddle(e.riddleId, Some(i), answer);
          return;
        }
        i := i + 1;
      }
    }

    /** `showRiddle(id, enemy)`; the dialog's outcome is `answer`, none when it was cancelled. */
    method ShowRiddle(id: int, enemy: Option<int>, answer: Option<string>)
      modifies this, player, level
      ensures Data() == RiddleShown(old(Data()), id, enemy, answer)
      ensures level == old(level) && Valid() == old(Valid())
    {
      if id < 0 || id >= RiddleCount {
        return;
      }
      Pose(id, enemy);
      match answer {
        case Some(a) =>
          var ok := R.CheckAnswerCaseInsensitive(WidgetRiddle(id), a);
          OnRiddleSolved(ok);
        case None =>
          riddleActive := false;
          ResumeGame();
      }
    }

    /** The first half of `showRiddle`: the game paused and the riddle on screen. */
    method Pose(id: int, enemy: Option<int>)
      modifies this, player
      ensures Data() == Posed(old(Data()), id, enemy)
      ensures level == old(level) && Valid() == old(Valid())
    {
      PauseGame();
      keys := {};
      player.SetVelocity(Point(0.0, player.vel.y));
      riddleActive := true;
      activeRiddle := Some(id);
      activeEnemy := enemy;
    }

    method HideRiddle()
      modifies this
      ensures Data() == old(Data()).(riddleActive := false, activeRiddle := None)
      ensures level == old(level) && Valid() == old(Valid())
    {
      riddleActive := false;
      activeRiddle := None;
    }

    /** `onRiddleSolved(success)`. */
    method OnRiddleSolved(success: bool)
      modifies this, player, level
      ensures Data() == RiddleSolved(old(Data()), success)
      ensures level == old(level) && Valid() == old(Valid())
    {
      Answer(success);
      if success {
        ChangeActiveEnemy(E.Slain);
      } else {
        ChangeActiveEnemy(E.Wounded);
      }
      CloseRiddle();
    }

    /** The player's side of `onRiddleSolved`: points and health, or damage. */
    method Answer(success: bool)
      modifies this, player
      ensures Data() == Answered(old(Data()), success)
      ensures level == old(level) && Valid() == old(Valid())
    {
      if success {
        player.AddScore(RiddlePoints);
        player.Heal(RiddleHeal);
      } else {
        TakeDamage(RiddleDamage);
      }
    }

    /** The clean-up of `onRiddleSolved`. */
    method CloseRiddle()
      modifies this, player
      ensures Data() == Closed(old(Data()))
      ensures level == old(level) && Valid() == old(Valid())
    {
      HideRiddle();
      keys := {};
      player.SetVelocity(Point(0.0, player.vel.y));
      activeEnemy := None;
      ResumeGame();
    }

    /** `die` or `takeDamage` on the active enemy, if there is one. */
    method ChangeActiveEnemy(f: E.EnemyData -> E.EnemyData)
      modifies level
      ensures Data() == EnemyChanged(old(Data()), f)
      ensures level == old(level) && Valid() == old(Valid())
    {
      if activeEnemy.Some? && level != null && 0 <= activeEnemy.value < |level.enemies| {
        var i := activeEnemy.value;
        level.enemies := level.enemies[i := f(level.enemies[i])];
      }
    }

    /** The enemy loop of `update`: every enemy that is not dead is updated. */
    method UpdateEnemies(dt: real)
      requires level != null
      modifies level
      ensures Data() == old(Data()).(level := Some(old(level.Data()).(enemies := Advanced(old(level.enemies), dt))))
    {
      var es := level.enemies;
      ghost var es0 := es;
      var i := 0;
      while i < |es|
        invariant 0 <= i <= |es| && |es| == |es0|
        invariant forall j :: 0 <= j < i ==> es[j] == Advanced(es0, dt)[j]
        invariant forall j :: i <= j < |es| ==> es[j] == es0[j]
      {
        if es[i].state != E.Dead {
          es := es[i := E.Updated(es[i], dt)];
        }
        i := i + 1;
      }
      assert es == Advanced(es0, dt);
      level.enemies := es;
    }

    /** The removal of `update`: enemies that are dead and done with their death clip are dropped. */
    method RemoveFinishedEnemies()
      requires level != null
      modifies level
      ensures Data() == old(Data()).(level := Some(old(level.Data()).(enemies := Survivors(old(level.enemies)))))
    {
      var es := level.enemies;
      var kept := [];
      var i := 0;
      while i < |es|
        invariant 0 <= i <= |es|
        invariant kept == Survivors(es[..i])
      {
        assert es[..i + 1][..i] == es[..i];
        if !(es[i].state == E.Dead && E.DeathFinished(es[i])) {
          kept := kept + [es[i]];
        }
        i := i + 1;
      }
      assert es[..i] == es;
      level.enemies := kept;
    }

    /** `update`: one frame of the game. */
    method Update(dt: real, answer: Option<string>)
      requires Valid() && (Halts(Data()) || level != null)
      modifies this, player, level
      ensures Data() == Tick(old(Data()), dt, answer, setup)
      ensures Valid() && (level == old(level) || fresh(level))
    {
      if paused || riddleActive || victory {
        return;
      }
      var d := if dt > MaxStep then MaxStep else dt;
      Move(d);
      CheckEnemyCollisions(answer);
      EnemyStep(d);
    }

    /** The end of `update`: the enemy loop, then the removal. */
    method EnemyStep(d: real)
      requires level != null
      modifies level
      ensures Data() == EnemyPass(old(Data()), d)
      ensures level == old(level) && Valid() == old(Valid())
    {
      UpdateEnemies(d);
      RemoveFinishedEnemies();
    }

    /** The player's part of `update`: input, physics, collisions and tile interactions. */
    method Move(d: real)
      requires Valid() && level != null
      modifies this, player, level
      ensures Data() == Moved(old(Data()), d, setup)
      ensures Valid() && level != null && (level == old(level) || fresh(level))
    {
      HandleInput();
      UpdatePhysics(d);
      CheckCollisions();
      CheckTileInteractions();
    }
  }
}
