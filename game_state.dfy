/**
 * The session controller of the dialogue track.  It owns a player, a game
 * master and the story, keeps the session state (menu, dialogue, riddle,
 * game over, ending), the pause flag, the hint budget and the number of
 * wrong attempts, and drives the three components in sequence.
 *
 * The signals it listens to (`playerDied`, `healthChanged`,
 * `endingReached`) are delivered synchronously in the source, so each
 * handler runs right after the component call that emitted it; here the
 * components return what they emitted and the controller runs the handler
 * at that point.  Each operation is specified as a function of the node
 * map, the riddle list and the old session (`SessionData`); the class
 * `GameState` performs it in place on the components.
 */
module Sessions {
  import opened Options
  import opened Riddles
  import opened Players
  import opened Masters
  import St = Stories

  datatype State = Menu | Intro | Playing | RiddleActive | Dialogue | GameOver | Ending

  datatype SessionData = SessionData(
    player: PlayerData,
    master: MasterData,
    pos: St.Position,
    state: State,
    paused: bool,
    hints: int,
    attempts: int)

  /** The `riddleResult` of an answer: whether it was right, and the game master's reply. */
  datatype Verdict = Verdict(correct: bool, feedback: string)

  const StartingHints: int := 3
  const HintDamage: int := 5
  const HintLine: string := "A hint... but it costs you."
  const NoHintsLine: string := "No hints remaining!"
  const DefeatLine: string := "Your life force has faded. You are mine now..."

  /** A session as constructed: menu, not paused, three hints, no attempts, fresh components. */
  function NewSession(): (s: SessionData)
    ensures s.state == Menu && !s.paused && s.hints == StartingHints && s.attempts == 0
    ensures s.player == NewPlayer() && s.master == NewMaster() && s.pos == St.Unstarted
  {
    SessionData(NewPlayer(), NewMaster(), St.Unstarted, Menu, false, StartingHints, 0)
  }

  // ---------------------------------------------------------------------
  // Handlers of the components' signals
  // ---------------------------------------------------------------------

  /** `onPlayerDied`: game over, the defeat line, a satisfied game master. */
  function AfterPlayerDied(s: SessionData): SessionData {
    s.(state := GameOver, master := s.master.(dialogue := DefeatLine, mood := Satisfied))
  }

  /** The mood `onStoryEnding` puts the game master in for each ending. */
  function EndingMood(e: St.Ending): Mood {
    match e
    case TrueFreedom => Impressed
    case TheDeal => Satisfied
    case _ => Neutral
  }

  /** `onStoryEnding`: the session shows the ending. */
  function AfterStoryEnding(s: SessionData, e: St.Ending): SessionData {
    s.(state := Ending, master := s.master.(mood := EndingMood(e)))
  }

  /** The handler run for an `endingReached` the story may have emitted. */
  function AfterEnding(s: SessionData, reached: Option<St.Ending>): SessionData {
    match reached
    case None => s
    case Some(e) => AfterStoryEnding(s, e)
  }

  /**
   * `onHealthChanged`: at most a quarter of the maximum (but alive) the game
   * master taunts; otherwise, at nine tenths or more with more than two
   * riddles solved, it praises.  Each reaction sets its mood and its line
   * becomes the dialogue.  The integer comparisons are the source's float
   * ones for a positive maximum.
   */
  function AfterHealthChanged(s: SessionData, h: int, m: int, pick: Pick): SessionData {
    if 4 * h <= m && h > 0 then
      s.(master := Reacted(s.master, LowHealth).(dialogue := Lines(LowHealth)[pick]))
    else if 10 * h >= 9 * m && s.player.riddlesSolved > 2 then
      s.(master := Reacted(s.master, HighScore).(dialogue := Lines(HighScore)[pick]))
    else s
  }

  function AfterNotice(s: SessionData, n: Notice, pick: Pick): SessionData {
    match n
    case HealthChanged(h, m) => AfterHealthChanged(s, h, m, pick)
    case Died => AfterPlayerDied(s)
  }

  /** The handlers of the player's signals, run in emission order; they touch only the game master and the state. */
  function AfterNotices(s: SessionData, ns: seq<Notice>, pick: Pick): (r: SessionData)
    ensures r.(master := s.master, state := s.state) == s
    decreases |ns|
  {
    if ns == [] then s
    else AfterNotice(AfterNotices(s, ns[..|ns| - 1], pick), ns[|ns| - 1], pick)
  }

  // ---------------------------------------------------------------------
  // Operations
  // ---------------------------------------------------------------------

  /**
   * `startNewGame`: reset the player, refill the hints, clear attempts and
   * pause, start the story, show DIALOGUE and the first node's line.  The
   * `healthChanged` that `reset` emits draws no reaction (see
   * `ResetNoticeIsQuiet`), so it does not appear here.
   */
  function NewGameStarted(g: St.Graph, s: SessionData): SessionData {
    var s1 := s.(player := Restored(s.player), hints := StartingHints, attempts := 0, paused := false,
                 pos := St.Started(g));
    var s2 := AfterEnding(s1, St.GoToNotice(g, 0)).(state := Dialogue);
    match St.CurrentNode(g, s2.pos)
    case None => s2
    case Some(n) => s2.(master := s2.master.(dialogue := St.Words(n.dialogue)))
  }

  /** `submitAnswer`: only in RIDDLE_ACTIVE at a node with a riddle. */
  function Answered(g: St.Graph, rs: seq<Riddle>, s: SessionData, answer: string, pick: Pick, healthPick: Pick): SessionData
    requires St.RiddlesResolve(g, rs) && s.player.maxHealth >= 0
  {
    if s.state != RiddleActive then s
    else match St.CurrentRiddle(g, rs, s.pos)
    case None => s
    case Some(r) =>
      if CheckAnswerCaseInsensitive(r, answer) then Rewarded(g, s, r) else Punished(s, r, healthPick)
  }

  /** The correct-answer path of `submitAnswer`, for riddle `r`. */
  function Rewarded(g: St.Graph, s: SessionData, r: Riddle): SessionData {
    var p := s.player.(score := s.player.score + r.rewardPoints,
                       riddlesSolved := s.player.riddlesSolved + 1, state := Celebrating);
    var s1 := s.(player := p, master := Reacted(s.master, CorrectAnswer), pos := St.Solved(g, s.pos, true));
    AfterEnding(s1, St.SolvedNotice(g, s.pos, true)).(state := Dialogue)
  }

  /** The wrong-answer path of `submitAnswer`, for riddle `r`. */
  function Punished(s: SessionData, r: Riddle, healthPick: Pick): SessionData
    requires s.player.maxHealth >= 0
  {
    var s1 := s.(attempts := s.attempts + 1, player := Damage(s.player, r.damageOnFailure));
    var s2 := AfterNotices(s1, DamageNotices(s.player, r.damageOnFailure), healthPick);
    var s3 := s2.(player := s2.player.(failedAttempts := s2.player.failedAttempts + 1),
                  master := Reacted(s2.master, WrongAnswer));
    if !IsAlive(s3.player) then AfterPlayerDied(s3)
    else s3.(player := s3.player.(state := Thinking))
  }

  /** The `riddleResult` that `submitAnswer` emits, if it acts at all. */
  function AnswerVerdict(g: St.Graph, rs: seq<Riddle>, s: SessionData, answer: string, pick: Pick): Option<Verdict>
    requires St.RiddlesResolve(g, rs)
  {
    if s.state != RiddleActive then None
    else match St.CurrentRiddle(g, rs, s.pos)
    case None => None
    case Some(r) =>
      if CheckAnswerCaseInsensitive(r, answer) then Some(Verdict(true, Lines(CorrectAnswer)[pick]))
      else Some(Verdict(false, Lines(WrongAnswer)[pick]))
  }

  /** `requestHint`: with a hint left and a riddle posed, spend one hint and 5 health. */
  function Hinted(g: St.Graph, s: SessionData, healthPick: Pick): SessionData
    requires s.player.maxHealth >= 0
  {
    if s.hints <= 0 || !St.HasRiddle(g, s.pos) then s
    else
      var s1 := s.(hints := s.hints - 1, player := Damage(s.player, HintDamage));
      var s2 := AfterNotices(s1, DamageNotices(s.player, HintDamage), healthPick);
      s2.(master := s2.master.(dialogue := HintLine, mood := Amused))
  }

  /** The `hintProvided` text of `requestHint`, if it emits one. */
  function HintText(g: St.Graph, rs: seq<Riddle>, s: SessionData): Option<string>
    requires St.RiddlesResolve(g, rs)
  {
    if s.hints <= 0 then Some(NoHintsLine)
    else match St.CurrentRiddle(g, rs, s.pos)
    case None => None
    case Some(r) => Some(r.hint)
  }

  /** A node's health change: positive heals, negative damages, zero does nothing. */
  function HealthApplied(s: SessionData, change: int, healthPick: Pick): SessionData
    requires s.player.maxHealth >= 0
  {
    if change > 0 then AfterNotices(s.(player := Healed(s.player, change)), HealNotices(s.player, change), healthPick)
    else if change < 0 then AfterNotices(s.(player := Damage(s.player, -change)), DamageNotices(s.player, -change), healthPick)
    else s
  }

  /** `checkGameOver`. */
  function GameOverChecked(s: SessionData): SessionData {
    if !IsAlive(s.player) && s.state != GameOver then s.(state := GameOver) else s
  }

  /** `checkEnding`. */
  function EndingChecked(s: SessionData): SessionData {
    if s.pos.ended then s.(state := Ending) else s
  }

  /**
   * `processChoice`: only in DIALOGUE or PLAYING at an existing node.  The
   * node being left applies its health change and repeats its line before
   * the choice is made; then the state follows the new node, and the
   * game-over and ending checks run last.
   */
  function ChoiceProcessed(g: St.Graph, rs: seq<Riddle>, s: SessionData, i: int, healthPick: Pick): SessionData
    requires St.RiddlesResolve(g, rs) && s.player.maxHealth >= 0
  {
    if s.state != Dialogue && s.state != Playing then s
    else match St.CurrentNode(g, s.pos)
    case None => s
    case Some(n) => EndingChecked(GameOverChecked(Arrived(g, rs, Moved(g, Left(s, n, healthPick), i))))
  }

  /** Leaving node `n`: its health change, then its line spoken again. */
  function Left(s: SessionData, n: St.StoryNode, healthPick: Pick): SessionData
    requires s.player.maxHealth >= 0
  {
    var s1 := HealthApplied(s, n.healthChange, healthPick);
    s1.(master := s1.master.(dialogue := St.Words(n.dialogue)))
  }

  /** `makeChoice` and the handler of the ending it may reach. */
  function Moved(g: St.Graph, s: SessionData, i: int): SessionData {
    AfterEnding(s.(pos := St.Chosen(g, s.pos, i)), St.ChosenNotice(g, s.pos, i))
  }

  /** The state set on arrival: RIDDLE_ACTIVE with the riddle's context spoken, or DIALOGUE. */
  function Arrived(g: St.Graph, rs: seq<Riddle>, s: SessionData): SessionData
    requires St.RiddlesResolve(g, rs)
  {
    match St.CurrentRiddle(g, rs, s.pos)
    case Some(r) => s.(state := RiddleActive, master := s.master.(dialogue := r.storyContext))
    case None => s.(state := Dialogue)
  }

  // ---------------------------------------------------------------------
  // Properties
  // ---------------------------------------------------------------------

  /** The `healthChanged` emitted by `reset` never draws a reaction: health is full and no riddle is solved. */
  lemma ResetNoticeIsQuiet(s: SessionData, pick: Pick)
    requires s.player.maxHealth >= 0
    ensures var t := s.(player := Restored(s.player));
      AfterNotices(t, [HealthChanged(s.player.maxHealth, s.player.maxHealth)], pick) == t
  {
    var t := s.(player := Restored(s.player));
    assert [HealthChanged(s.player.maxHealth, s.player.maxHealth)][..0] == [];
  }

  /**
   * Health reactions by band: alive and at most a quarter of the maximum
   * taunts; otherwise at least nine tenths with more than two riddles
   * solved praises; anything else leaves the session alone.
   */
  lemma HealthReactionBands(s: SessionData, h: int, pick: Pick)
    ensures var r := AfterHealthChanged(s, h, MaxHealth, pick);
      (1 <= h <= 25 ==> r.master.mood == Menacing && r.master.dialogue in Lines(LowHealth)) &&
      (90 <= h && s.player.riddlesSolved > 2 ==> r.master.mood == Satisfied && r.master.dialogue in Lines(HighScore)) &&
      (25 < h < 90 || h <= 0 || (h >= 90 && s.player.riddlesSolved <= 2) ==> r == s) &&
      r.(master := s.master) == s
  {
  }

  /**
   * `startNewGame` on the authored story: three hints, no attempts, not
   * paused, the story at node 0 with history [0] and not ended, the session
   * in DIALOGUE, the player reset and the first node's line spoken.
   */
  lemma NewGameState(s: SessionData)
    ensures var r := NewGameStarted(St.Authored(), s);
      r.hints == StartingHints && r.attempts == 0 && !r.paused &&
      r.pos == St.Position(0, [0], false, St.NoEnding) && r.state == Dialogue &&
      r.player == Restored(s.player) &&
      r.master == s.master.(dialogue := St.Words(St.Speech(0)))
  {
    St.AuthoredStart();
    St.AuthoredEndings(0);
  }

  /** `submitAnswer` outside RIDDLE_ACTIVE, or where no riddle is posed, changes nothing and reports nothing. */
  lemma SubmitIgnored(g: St.Graph, rs: seq<Riddle>, s: SessionData, answer: string, pick: Pick, healthPick: Pick)
    requires St.RiddlesResolve(g, rs) && s.player.maxHealth >= 0
    requires s.state != RiddleActive || !St.HasRiddle(g, s.pos)
    ensures Answered(g, rs, s, answer, pick, healthPick) == s
    ensures AnswerVerdict(g, rs, s, answer, pick) == None
  {
  }

  /**
   * A correct answer adds the riddle's reward, counts the riddle, marks the
   * player CELEBRATING, impresses the game master and solves the riddle in
   * the story; the session always ends in DIALOGUE, whatever the story
   * reached.  Hints and attempts are untouched.
   */
  lemma CorrectAnswerEffect(g: St.Graph, rs: seq<Riddle>, s: SessionData, answer: string, pick: Pick, healthPick: Pick)
    requires St.RiddlesResolve(g, rs) && s.player.maxHealth >= 0
    requires s.state == RiddleActive && St.HasRiddle(g, s.pos)
    requires CheckAnswerCaseInsensitive(St.CurrentRiddle(g, rs, s.pos).value, answer)
    ensures var r, rd := Answered(g, rs, s, answer, pick, healthPick), St.CurrentRiddle(g, rs, s.pos).value;
      r.player == s.player.(score := s.player.score + rd.rewardPoints,
                            riddlesSolved := s.player.riddlesSolved + 1, state := Celebrating) &&
      r.pos == St.Solved(g, s.pos, true) && r.state == Dialogue &&
      r.hints == s.hints && r.attempts == s.attempts && r.paused == s.paused &&
      r.master.dialogue == s.master.dialogue
    ensures AnswerVerdict(g, rs, s, answer, pick) == Some(Verdict(true, Lines(CorrectAnswer)[pick]))
  {
  }

  /**
   * Solving the last riddle at node 9 of the authored story reaches the
   * true-freedom ending, yet the session is left in DIALOGUE rather than
   * ENDING: the ending handler runs first and the correct-answer path
   * overwrites its state.
   */
  lemma CorrectAnswerOverridesEnding(s: SessionData, pick: Pick, healthPick: Pick)
    requires s.player.maxHealth >= 0
    requires s.state == RiddleActive && s.pos.current == 9
    ensures St.RiddlesResolve(St.Authored(), St.AuthoredRiddles())
    ensures var r := Answered(St.Authored(), St.AuthoredRiddles(), s, "e", pick, healthPick);
      r.pos.ended && r.pos.ending == St.TrueFreedom && r.pos.current == 12 &&
      r.state == Dialogue && r.master.mood == Impressed
  {
    St.AuthoredRiddlesResolve();
    St.AuthoredRiddleNodes(9);
    St.AuthoredEndings(12);
    var rd := St.AuthoredRiddle(4);
    assert St.CurrentRiddle(St.Authored(), St.AuthoredRiddles(), s.pos) == Some(rd);
    assert CheckAnswer(rd, "e") by {
      NoEdgeSpaceTrims("e");
    }
    ExactImpliesCaseInsensitive(rd, "e");
  }

  /**
   * A wrong answer counts an attempt and a failure, deals the riddle's
   * damage and leaves the story where it is.  The session becomes
   * GAME_OVER exactly when health is then 0, with the defeat line and a
   * satisfied game master; otherwise the player is THINKING, the game
   * master angry, and the session stays in RIDDLE_ACTIVE.
   */
  lemma WrongAnswerEffect(g: St.Graph, rs: seq<Riddle>, s: SessionData, answer: string, pick: Pick, healthPick: Pick)
    requires St.RiddlesResolve(g, rs) && Valid(s.player)
    requires s.state == RiddleActive && St.HasRiddle(g, s.pos)
    requires !CheckAnswerCaseInsensitive(St.CurrentRiddle(g, rs, s.pos).value, answer)
    ensures var r, rd := Answered(g, rs, s, answer, pick, healthPick), St.CurrentRiddle(g, rs, s.pos).value;
      r.attempts == s.attempts + 1 && r.player.failedAttempts == s.player.failedAttempts + 1 &&
      r.player.health == Damage(s.player, rd.damageOnFailure).health &&
      r.player.score == s.player.score && r.player.riddlesSolved == s.player.riddlesSolved &&
      r.pos == s.pos && r.hints == s.hints &&
      (r.state == GameOver <==> r.player.health == 0) &&
      (r.player.health == 0 ==> r.master.dialogue == DefeatLine && r.master.mood == Satisfied) &&
      (r.player.health > 0 ==> r.state == RiddleActive && r.player.state == Thinking && r.master.mood == Angry)
    ensures AnswerVerdict(g, rs, s, answer, pick) == Some(Verdict(false, Lines(WrongAnswer)[pick]))
  {
    var rd := St.CurrentRiddle(g, rs, s.pos).value;
    TakeDamageEffect(s.player, rd.damageOnFailure);
    var s1 := s.(attempts := s.attempts + 1, player := Damage(s.player, rd.damageOnFailure));
    DamageHandlersKeepState(s1, s.player, rd.damageOnFailure, healthPick);
  }

  /** The handlers of a damage's signals change the session state only when the damage killed a living player. */
  lemma DamageHandlersKeepState(s: SessionData, p: PlayerData, damage: int, pick: Pick)
    requires Valid(p)
    ensures IsAlive(Damage(p, damage)) || !IsAlive(p) ==> AfterNotices(s, DamageNotices(p, damage), pick).state == s.state
  {
    if damage > 0 && p.health > 0 {
      DamageKillsIffEnough(p, damage);
    }
    if IsAlive(Damage(p, damage)) || !IsAlive(p) {
      assert Died !in DamageNotices(p, damage);
      HealthNoticesKeepState(s, DamageNotices(p, damage), pick);
    }
  }

  /**
   * `requestHint` with no hint left, or with no riddle posed, changes
   * nothing.  Otherwise it spends one hint and 5 health, and the hint line
   * and an amused mood replace whatever the health handlers said, even the
   * defeat line; the session becomes GAME_OVER only if this hint killed the
   * player.
   */
  lemma HintEffect(g: St.Graph, rs: seq<Riddle>, s: SessionData, healthPick: Pick)
    requires St.RiddlesResolve(g, rs) && Valid(s.player)
    ensures s.hints <= 0 ==> Hinted(g, s, healthPick) == s && HintText(g, rs, s) == Some(NoHintsLine)
    ensures !St.HasRiddle(g, s.pos) ==> Hinted(g, s, healthPick) == s
    ensures s.hints > 0 && !St.HasRiddle(g, s.pos) ==> HintText(g, rs, s) == None
    ensures s.hints > 0 && St.HasRiddle(g, s.pos) ==>
      var r := Hinted(g, s, healthPick);
      r.hints == s.hints - 1 && r.player == Damage(s.player, HintDamage) &&
      r.master.dialogue == HintLine && r.master.mood == Amused &&
      r.pos == s.pos && r.attempts == s.attempts &&
      r.state == (if s.player.health > 0 && r.player.health == 0 then GameOver else s.state) &&
      HintText(g, rs, s) == Some(St.CurrentRiddle(g, rs, s.pos).value.hint)
  {
    if s.hints > 0 && St.HasRiddle(g, s.pos) {
      var s1 := s.(hints := s.hints - 1, player := Damage(s.player, HintDamage));
      TakeDamageEffect(s.player, HintDamage);
      if s.player.health > 0 {
        DamageKillsIffEnough(s.player, HintDamage);
      }
      if s.player.health > 0 && Damage(s.player, HintDamage).health == 0 {
        assert DamageNotices(s.player, HintDamage) == [HealthChanged(0, s.player.maxHealth), Died];
      } else {
        assert Died !in DamageNotices(s.player, HintDamage);
        HealthNoticesKeepState(s1, DamageNotices(s.player, HintDamage), healthPick);
      }
    }
  }

  /** Handlers of notices other than a death leave the session state alone. */
  lemma {:induction false} HealthNoticesKeepState(s: SessionData, ns: seq<Notice>, pick: Pick)
    requires Died !in ns
    ensures AfterNotices(s, ns, pick).state == s.state
    decreases |ns|
  {
    if ns != [] {
      var init := ns[..|ns| - 1];
      assert ns == init + [ns[|ns| - 1]];
      HealthNoticesKeepState(s, init, pick);
    }
  }

  /** `processChoice` outside DIALOGUE and PLAYING, or where the current node does not exist, changes nothing. */
  lemma ChoiceIgnored(g: St.Graph, rs: seq<Riddle>, s: SessionData, i: int, healthPick: Pick)
    requires St.RiddlesResolve(g, rs) && s.player.maxHealth >= 0
    requires (s.state != Dialogue && s.state != Playing) || s.pos.current !in g
    ensures ChoiceProcessed(g, rs, s, i, healthPick) == s
  {
  }

  /**
   * `processChoice` applies the health change of the node being left
   * whether or not the index is valid: an invalid index leaves the story
   * where it was but the player's health still changes.
   */
  lemma ChoiceAppliesHealthChange(g: St.Graph, rs: seq<Riddle>, s: SessionData, i: int, healthPick: Pick)
    requires St.RiddlesResolve(g, rs) && s.player.maxHealth >= 0
    requires (s.state == Dialogue || s.state == Playing) && s.pos.current in g
    ensures var r, hc := ChoiceProcessed(g, rs, s, i, healthPick), g[s.pos.current].healthChange;
      r.player == (if hc > 0 then Healed(s.player, hc) else if hc < 0 then Damage(s.player, -hc) else s.player) &&
      r.pos == St.Chosen(g, s.pos, i) &&
      (i < 0 || i >= |g[s.pos.current].next| ==> r.pos == s.pos)
  {
  }

  /**
   * At node 2 of the authored story every `processChoice` call costs a full
   * player 10 health, including one with an index the node does not offer.
   */
  lemma DefiantNodeCosts(s: SessionData, i: int, healthPick: Pick)
    requires s.player.health == s.player.maxHealth == MaxHealth
    requires (s.state == Dialogue || s.state == Playing) && s.pos.current == 2
    ensures St.RiddlesResolve(St.Authored(), St.AuthoredRiddles())
    ensures ChoiceProcessed(St.Authored(), St.AuthoredRiddles(), s, i, healthPick).player.health == 90
  {
    St.AuthoredRiddlesResolve();
    ChoiceAppliesHealthChange(St.Authored(), St.AuthoredRiddles(), s, i, healthPick);
  }

  /**
   * After `processChoice` acts, the session state is ENDING if the story
   * has ended, otherwise GAME_OVER if the player is dead, otherwise
   * RIDDLE_ACTIVE exactly when the new node poses a riddle, else DIALOGUE.
   */
  lemma ChoiceFinalState(g: St.Graph, rs: seq<Riddle>, s: SessionData, i: int, healthPick: Pick)
    requires St.RiddlesResolve(g, rs) && s.player.maxHealth >= 0
    requires (s.state == Dialogue || s.state == Playing) && s.pos.current in g
    ensures var r := ChoiceProcessed(g, rs, s, i, healthPick);
      r.state == (if r.pos.ended then Ending
                  else if !IsAlive(r.player) then GameOver
                  else if St.HasRiddle(g, r.pos) then RiddleActive
                  else Dialogue)
  {
  }

  /**
   * The session invariant: a valid player at the standard maximum, a hint
   * budget within [0, 3], a non-negative attempt count and a consistent
   * story position.
   */
  predicate SessionValid(g: St.Graph, s: SessionData) {
    && Valid(s.player) && s.player.maxHealth == MaxHealth
    && 0 <= s.hints <= StartingHints && s.attempts >= 0
    && St.Consistent(g, s.pos)
  }

  /** `startNewGame` establishes the session invariant on a node map whose endings are final. */
  lemma NewGameKeepsValid(g: St.Graph, s: SessionData)
    requires St.EndingsAreFinal(g) && SessionValid(g, s)
    ensures SessionValid(g, NewGameStarted(g, s))
  {
    St.OperationsKeepConsistent(g, s.pos, 0, true);
  }

  /** `submitAnswer` keeps the session invariant. */
  lemma AnswerKeepsValid(g: St.Graph, rs: seq<Riddle>, s: SessionData, answer: string, pick: Pick, healthPick: Pick)
    requires St.RiddlesResolve(g, rs) && St.EndingsAreFinal(g) && SessionValid(g, s)
    ensures SessionValid(g, Answered(g, rs, s, answer, pick, healthPick))
  {
    if s.state == RiddleActive && St.HasRiddle(g, s.pos) {
      var rd := St.CurrentRiddle(g, rs, s.pos).value;
      St.OperationsKeepConsistent(g, s.pos, 0, true);
      HealthOperationsKeepValid(s.player, 0, rd.damageOnFailure);
    }
  }

  /** `requestHint` keeps the session invariant. */
  lemma HintKeepsValid(g: St.Graph, s: SessionData, healthPick: Pick)
    requires SessionValid(g, s)
    ensures SessionValid(g, Hinted(g, s, healthPick))
  {
    HealthOperationsKeepValid(s.player, 0, HintDamage);
  }

  /** `processChoice` keeps the session invariant. */
  lemma ChoiceKeepsValid(g: St.Graph, rs: seq<Riddle>, s: SessionData, i: int, healthPick: Pick)
    requires St.RiddlesResolve(g, rs) && St.EndingsAreFinal(g) && SessionValid(g, s)
    ensures SessionValid(g, ChoiceProcessed(g, rs, s, i, healthPick))
  {
    if (s.state == Dialogue || s.state == Playing) && s.pos.current in g {
      var s1 := Left(s, g[s.pos.current], healthPick);
      LeftKeepsValid(g, s, g[s.pos.current], healthPick);
      St.OperationsKeepConsistent(g, s.pos, i, true);
      var s2 := Moved(g, s1, i);
      assert SessionValid(g, s2);
      var s3 := Arrived(g, rs, s2);
      assert s3.(state := s2.state, master := s2.master) == s2;
    }
  }

  /** Leaving a node keeps the session invariant and does not move the story. */
  lemma LeftKeepsValid(g: St.Graph, s: SessionData, n: St.StoryNode, healthPick: Pick)
    requires SessionValid(g, s)
    ensures SessionValid(g, Left(s, n, healthPick)) && Left(s, n, healthPick).pos == s.pos
  {
    HealthOperationsKeepValid(s.player, 0, n.healthChange);
    HealthOperationsKeepValid(s.player, 0, -n.healthChange);
  }

  /** `GameState`: the session updated in place on its three components. */
  class GameState {
    const player: Player
    const master: GameMaster
    const story: St.Story
    var state: State
    var paused: bool
    var hints: int
    var attempts: int

    function Data(): SessionData
      reads this, player, master, story
    {
      SessionData(player.Data(), master.Data(), story.Pos(), state, paused, hints, attempts)
    }

    /** The player keeps its invariant and every riddle a node refers to exists. */
    predicate Inv()
      reads this, player
    {
      player.Inv() && St.RiddlesResolve(story.nodes, story.riddles)
    }

    constructor()
      ensures Inv() && Data() == NewSession()
      ensures story.nodes == St.Authored() && story.riddles == St.AuthoredRiddles()
    {
      player := new Player();
      master := new GameMaster();
      story := new St.Story();
      state := Menu;
      paused := false;
      hints := StartingHints;
      attempts := 0;
    }

    /** `setState`: announced only when it differs, which the model does not observe. */
    method SetState(st: State)
      modifies this
      ensures Data() == old(Data()).(state := st)
    {
      if state != st {
        state := st;
      }
    }

    method OnPlayerDied()
      modifies this, master
      ensures Data() == AfterPlayerDied(old(Data()))
    {
      SetState(GameOver);
      master.SetDialogue(DefeatLine);
      var _ := master.SetMood(Satisfied);
    }

    method OnStoryEnding(e: St.Ending)
      modifies this, master
      ensures Data() == AfterStoryEnding(old(Data()), e)
    {
      SetState(Ending);
      match e {
        case TrueFreedom =>
          var _ := master.SetMood(Impressed);
        case TheDeal =>
          var _ := master.SetMood(Satisfied);
        case _ =>
          var _ := master.SetMood(Neutral);
      }
    }

    method OnHealthChanged(h: int, m: int, pick: Pick)
      modifies master
      ensures Data() == AfterHealthChanged(old(Data()), h, m, pick)
    {
      if 4 * h <= m && h > 0 {
        var line := master.ReactToLowHealth(pick);
        master.SetDialogue(line);
      } else if 10 * h >= 9 * m && player.riddlesSolved > 2 {
        var line := master.ReactToHighScore(pick);
        master.SetDialogue(line);
      }
    }

    /** Runs the handler of each signal the player emitted, in order. */
    method HearPlayer(ns: seq<Notice>, pick: Pick)
      modifies this, master
      ensures Data() == AfterNotices(old(Data()), ns, pick)
    {
      var k := 0;
      while k < |ns|
        invariant 0 <= k <= |ns|
        invariant Data() == AfterNotices(old(Data()), ns[..k], pick)
      {
        assert ns[..k + 1][..k] == ns[..k];
        match ns[k] {
          case HealthChanged(h, m) => OnHealthChanged(h, m, pick);
          case Died => OnPlayerDied();
        }
        k := k + 1;
      }
      assert ns[..k] == ns;
    }

    /** Runs `onStoryEnding` if the story emitted `endingReached`. */
    method HearStory(reached: Option<St.Ending>)
      modifies this, master
      ensures Data() == AfterEnding(old(Data()), reached)
    {
      if reached.Some? {
        OnStoryEnding(reached.value);
      }
    }

    method StartNewGame()
      requires Inv()
      modifies this, player, master, story
      ensures Inv()
      ensures Data() == NewGameStarted(story.nodes, old(Data()))
    {
      ghost var s0 := Data();
      var ns := player.Reset();
      // The reset is announced at full health with no riddle solved: no reaction line is drawn.
      ResetNoticeIsQuiet(s0, 0);
      HearPlayer(ns, 0);
      hints := StartingHints;
      attempts := 0;
      paused := false;
      var reached := story.StartStory();
      HearStory(reached);
      SetState(Dialogue);
      var node := story.GetCurrentNode();
      if node.Some? {
        master.SetDialogue(St.Words(node.value.dialogue));
      }
    }

    method ContinueGame()
      modifies this
      ensures Data() == old(Data()).(state := Playing, paused := false)
    {
      SetState(Playing);
      paused := false;
    }

    method PauseGame()
      modifies this
      ensures Data() == old(Data()).(paused := true)
    {
      paused := true;
    }

    method ResumeGame()
      modifies this
      ensures Data() == old(Data()).(paused := false)
    {
      paused := false;
    }

    method EndGame()
      modifies this
      ensures Data() == old(Data()).(state := Menu)
    {
      SetState(Menu);
    }

    method SubmitAnswer(answer: string, pick: Pick, healthPick: Pick) returns (verdict: Option<Verdict>)
      requires Inv()
      modifies this, player, master, story
      ensures Inv()
      ensures Data() == Answered(story.nodes, story.riddles, old(Data()), answer, pick, healthPick)
      ensures verdict == AnswerVerdict(story.nodes, story.riddles, old(Data()), answer, pick)
    {
      if state != RiddleActive {
        return None;
      }
      var riddle := story.GetCurrentRiddle();
      if riddle.None? {
        return None;
      }
      var r := riddle.value;
      if CheckAnswerCaseInsensitive(r, answer) {
        var line := Reward(r, pick);
        verdict := Some(Verdict(true, line));
      } else {
        var line := Punish(r, pick, healthPick);
        verdict := Some(Verdict(false, line));
      }
    }

    /** The correct-answer path of `submitAnswer`; returns the game master's line. */
    method Reward(r: Riddle, pick: Pick) returns (line: string)
      requires Inv()
      modifies this, player, master, story
      ensures Inv()
      ensures Data() == Rewarded(story.nodes, old(Data()), r)
      ensures line == Lines(CorrectAnswer)[pick]
    {
      player.AddScore(r.rewardPoints);
      player.IncrementRiddlesSolved();
      var _ := player.SetState(Celebrating);
      line := master.ReactToCorrectAnswer(pick);
      var reached := story.SolveRiddle(true);
      HearStory(reached);
      SetState(Dialogue);
    }

    /** The wrong-answer path of `submitAnswer`; returns the game master's line. */
    method Punish(r: Riddle, pick: Pick, healthPick: Pick) returns (line: string)
      requires Inv()
      modifies this, player, master
      ensures Inv()
      ensures Data() == Punished(old(Data()), r, healthPick)
      ensures line == Lines(WrongAnswer)[pick]
    {
      Charge(r, healthPick);
      player.IncrementFailedAttempts();
      line := master.ReactToWrongAnswer(pick);
      if !IsAlive(player.Data()) {
        OnPlayerDied();
      } else {
        var _ := player.SetState(Thinking);
      }
    }

    /** The first steps of the wrong-answer path: the attempt counted and the damage taken, with its signals heard. */
    method Charge(r: Riddle, healthPick: Pick)
      requires Inv()
      modifies this, player, master
      ensures Inv()
      ensures Data() == AfterNotices(old(Data()).(attempts := old(attempts) + 1, player := Damage(old(player.Data()), r.damageOnFailure)),
        DamageNotices(old(player.Data()), r.damageOnFailure), healthPick)
    {
      attempts := attempts + 1;
      var ns := player.TakeDamage(r.damageOnFailure);
      HearPlayer(ns, healthPick);
    }

    method RequestHint(healthPick: Pick) returns (hint: Option<string>)
      requires Inv()
      modifies this, player, master
      ensures Inv()
      ensures Data() == Hinted(story.nodes, old(Data()), healthPick)
      ensures hint == HintText(story.nodes, story.riddles, old(Data()))
    {
      if hints <= 0 {
        return Some(NoHintsLine);
      }
      var riddle := story.GetCurrentRiddle();
      if riddle.None? {
        return None;
      }
      hints := hints - 1;
      var ns := player.TakeDamage(HintDamage);
      HearPlayer(ns, healthPick);
      hint := Some(riddle.value.hint);
      master.SetDialogue(HintLine);
      var _ := master.SetMood(Amused);
    }

    method CheckGameOver()
      modifies this
      ensures Data() == GameOverChecked(old(Data()))
    {
      if !IsAlive(player.Data()) && state != GameOver {
        SetState(GameOver);
      }
    }

    method CheckEnding()
      modifies this
      ensures Data() == EndingChecked(old(Data()))
    {
      if story.ended {
        SetState(Ending);
      }
    }

    method ProcessChoice(i: int, healthPick: Pick)
      requires Inv()
      modifies this, player, master, story
      ensures Inv()
      ensures Data() == ChoiceProcessed(story.nodes, story.riddles, old(Data()), i, healthPick)
    {
      if state != Dialogue && state != Playing {
        return;
      }
      var node := story.GetCurrentNode();
      if node.None? {
        return;
      }
      Leave(node.value, healthPick);
      var reached := story.MakeChoice(i);
      HearStory(reached);
      Arrive();
      CheckGameOver();
      CheckEnding();
    }

    /** Leaving node `n` in `processChoice`: apply its health change, speak its line. */
    method Leave(n: St.StoryNode, healthPick: Pick)
      requires Inv()
      modifies this, player, master
      ensures Inv()
      ensures Data() == Left(old(Data()), n, healthPick)
    {
      if n.healthChange != 0 {
        if n.healthChange > 0 {
          var ns := player.Heal(n.healthChange);
          HearPlayer(ns, healthPick);
        } else {
          var ns := player.TakeDamage(-n.healthChange);
          HearPlayer(ns, healthPick);
        }
      }
      master.SetDialogue(St.Words(n.dialogue));
    }

    /** Arriving at a node in `processChoice`: pose its riddle, or return to dialogue. */
    method Arrive()
      requires Inv()
      modifies this, master
      ensures Data() == Arrived(story.nodes, story.riddles, old(Data()))
    {
      var posed := story.HasRiddle();
      if posed {
        SetState(RiddleActive);
        var riddle := story.GetCurrentRiddle();
        if riddle.Some? {
          master.SetDialogue(riddle.value.storyContext);
        }
      } else {
        SetState(Dialogue);
      }
    }
  }
}
