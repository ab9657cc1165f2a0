# Death Riddle — a verified model of the game core

Death Riddle is a Qt game with two separate gameplay tracks that share one
riddle checker.

* The **dialogue track** has these parts:
  * a `Story` graph of fourteen authored nodes;
  * a `Player` with clamped health and counters;
  * a `GameMaster`, whose mood follows the player's answers and who picks
    one of five lines at random for each reaction;
  * the `GameState` session controller. It starts games, checks submitted
    answers, hands out hints, processes story choices, and watches for
    game over and for the ending.
* The **platformer track** has these parts:
  * an `AnimatedSprite` frame clock;
  * a `Player2D` with movement, jumping, double jumps, health, lives and
    coins;
  * patrolling `Enemy` objects;
  * a 30×20 tile `Level`;
  * the `GameWidget`, which drives one tick of play. A tick turns the
    pressed keys into velocity, moves the player, resolves tile collisions
    by least penetration, applies the tile effects (coin, key, spike,
    goal, checkpoint), lets at most one enemy pose a riddle, and updates
    and removes enemies.

This project models every one of these objects in Dafny, one module per
source file:

| module | file |
|---|---|
| `Geometry` | the float rectangles of Qt and C++ truncation |
| `Riddles` | `Riddle` |
| `Players` | `Player` |
| `Masters` | `GameMaster` |
| `Stories` | `Story` |
| `Sessions` | `GameState` |
| `Animation` | `AnimatedSprite` |
| `Bodies` | `Player2D` |
| `Enemies` | `Enemy` |
| `Levels` | `Level` |
| `Widgets` | `GameWidget` |

Each object whose fields change in place has two parts:

* a value datatype mirroring the object's fields, with pure functions
  describing each operation's effect (the specification);
* a Dafny `class` holding the same fields, whose methods are proved to
  change the state exactly as the function says
  (`ensures Data() == Step(old(Data()), ...)`).

The properties of the game are lemmas about the specification functions.
Loops of the source are loops in the methods, proved by their invariants
against a function of the inputs: the grid construction, the area query,
the solid-tile scan, the collision and tile passes, the enemy updates and
the removal of finished enemies.

Qt signals between these objects are direct, synchronous calls. An
emitting method therefore returns what it emitted (a sequence of notices
or a flag), and the owning object runs the connected slot right after the
call, as the source's direct connection does. Randomness, dialogs,
timers and the frame clock become parameters:

* the game master's pick is a `Pick` in `[0, 5)`;
* the text typed in a riddle dialog is an `Option<string>`;
* the frame time is a real `dt`;
* the respawn timer is a counter of pending respawns.

Several behaviours of the source are kept as written and stated as lemmas:

* The story's consistency check follows `nextNodeIds`, not `choices`.
* A correct answer on an ending node overwrites ENDING with DIALOGUE.
* `processChoice` applies the health change even for an invalid choice
  index.
* `Player2D::takeDamage` calls `die()` again on a player already dead.
* Dead enemies are skipped by the tick's update loop. Their death clip
  therefore never finishes, and they are never removed.
* The collision pass tests overlap against the player box captured before
  the loop, but corrects from the player's current position.
* Respawning never restores lives. A player who loses the last life to a
  riddle sees the retry screen while the game keeps running unpaused.
* `getTileAtPixel` truncates toward zero, so a point up to one tile to the
  left of the grid finds a tile in column 0.
* Placing a coin tile twice counts two coins.

## Model

| member | source | states |
|---|---|---|
| Geometry.Rect.Adjusted | src/GameWidget.cpp:308 | each edge of the adjusted rectangle moves by its own offset |
| Geometry.IntersectsPositive | src/GameWidget.cpp:317-319 | for positive extents, `QRectF::intersects` is strict overlap on both axes, so touching edges do not intersect |
| Geometry.Trunc | src/Level.cpp:57-61 | `static_cast<int>` of a real lies within one of it, rounding toward zero on both signs |
| Geometry.TruncVersusFloor | src/Level.cpp:57-61 | truncation equals floor exactly for non-negative reals and for integers |
| Geometry.TruncOfSmallNegative | src/Level.cpp:58 | a pixel coordinate of -10 truncates to column 0, where floor division gives -1 |
| Riddles.NewRiddle | src/Riddle.cpp:3-11 | a new riddle is MEDIUM and TEXT_ANSWER, with time limit 0, damage 15, reward 100 and empty texts |
| Riddles.LeadingSpaces | src/Riddle.cpp:14 | the count of leading whitespace (the characters Qt counts as spaces, Unicode separators included) stops before the first non-space |
| Riddles.TrailingSpaces | src/Riddle.cpp:14 | the count of trailing whitespace stops after the last non-space |
| Riddles.Trim | src/Riddle.cpp:14 | a trimmed string is empty or starts and ends with a non-space |
| Riddles.LowerChar | src/Riddle.cpp:18 | upper-case ASCII letters become lower case, and every other character is left unchanged |
| Riddles.ToLower | src/Riddle.cpp:18 | lower-casing keeps the length and maps each character through `LowerChar` |
| Riddles.LeadingAreSpaces | src/Riddle.cpp:14 | every character counted as leading whitespace is whitespace |
| Riddles.TrailingAreSpaces | src/Riddle.cpp:14 | every character counted as trailing whitespace is whitespace |
| Riddles.LeadingUnique | src/Riddle.cpp:14 | the leading whitespace is the only whitespace prefix followed by a non-space or the end |
| Riddles.TrailingUnique | src/Riddle.cpp:14 | the trailing whitespace is the only whitespace suffix preceded by a non-space or the start |
| Riddles.TrimIsInfix | src/Riddle.cpp:14 | trimming removes only whitespace and only from the two ends |
| Riddles.NoEdgeSpaceTrims | src/Riddle.cpp:14 | a string without whitespace at either end is its own trim |
| Riddles.TrimTrimmed | src/Riddle.cpp:14 | trimming is idempotent |
| Riddles.LeadingAppend | src/Riddle.cpp:14 | text after the first non-space does not change the leading count |
| Riddles.TrimAllSpace | src/Riddle.cpp:14 | a string of whitespace only trims to the empty string |
| Riddles.TrimPadded | src/Riddle.cpp:14 | whitespace padding on either side does not change the trim |
| Riddles.TrimLowerCommute | src/Riddle.cpp:18 | trimming and lower-casing commute |
| Riddles.CheckAnswerIgnoresPadding | src/Riddle.cpp:13-19 | whitespace added before or after the given answer never changes either verdict |
| Riddles.ExactImpliesCaseInsensitive | src/Riddle.cpp:13-19 | an answer accepted by `checkAnswer` is accepted by `checkAnswerCaseInsensitive` |
| Riddles.CaseInsensitiveIsExactOnLowered | src/Riddle.cpp:17-19 | the case-insensitive check accepts exactly when the exact check accepts the lower-cased input against the lower-cased answer |
| Riddles.PaddedWordCheck | src/Riddle.cpp:13-19 | a padded word is compared exactly, or lower-cased, with an answer that has no edge whitespace |
| Riddles.KeyboardExample | src/Riddle.cpp:17-19 | "  Keyboard " is accepted case-insensitively for "keyboard", but not exactly |
| Riddles.IdeographicSpaceIgnored | src/Riddle.cpp:13-15 | "keyboard" followed by an ideographic space (U+3000) is accepted exactly for "keyboard" |
| Riddles.InteriorSpaceMatters | src/Riddle.cpp:17-19 | interior whitespace is not normalised: "THIS  IS NOT FREE" with a doubled space is rejected even case-insensitively |
| Players.NewPlayer | src/Player.cpp:4-14 | a new player has full health 100 of 100, zero counters, state IDLE and the name "Player" |
| Players.Clamp | src/Player.cpp:18 | `std::clamp` returns the value when it is in range, and otherwise the bound it crossed |
| Players.Restored | src/Player.cpp:65-74 | reset gives full health, zero score and counters and state IDLE, and keeps the name and the maximum |
| Players.SetHealthClamps | src/Player.cpp:16-28 | health after `setHealth` is the request clamped into `[0, maxHealth]`; only health and state change |
| Players.DefeatOnlyOnTransition | src/Player.cpp:16-28 | a death is announced, and the state becomes DEFEATED, exactly when health goes from positive to 0; a health change is announced exactly when health changes |
| Players.TakeDamageEffect | src/Player.cpp:30-36 | damage does nothing when it is not positive or health is 0; otherwise health drops (not below 0) and the state is DAMAGED, or DEFEATED at 0 |
| Players.HealEffect | src/Player.cpp:38-43 | healing does nothing when the amount is not positive or health is 0; otherwise health rises, capped at the maximum, and no death is announced |
| Players.DeadStaysDead | src/Player.cpp:30-43 | a player at 0 health is unchanged by damage and healing |
| Players.HealthOperationsKeepValid | src/Player.cpp:16-74 | every health operation keeps health within `[0, maxHealth]` |
| Players.DamageKillsIffEnough | src/Player.cpp:30-36 | damage to a living player kills, and announces a death, exactly when it is at least the health |
| Players.Player.constructor | src/Player.cpp:4-14 | the constructed object holds the new-player state |
| Players.Player.SetHealth | src/Player.cpp:16-28 | the new state and the emitted signals are those of the clamped health update |
| Players.Player.TakeDamage | src/Player.cpp:30-36 | the new state and the signals are those of the damage function |
| Players.Player.Heal | src/Player.cpp:38-43 | the new state and the signals are those of the heal function |
| Players.Player.SetState | src/Player.cpp:45-50 | the state is set, and a change is reported exactly when it differs |
| Players.Player.AddScore | src/Player.cpp:52-55 | the score grows by the points and nothing else changes |
| Players.Player.IncrementRiddlesSolved | src/Player.cpp:57-59 | the solved count grows by one and nothing else changes |
| Players.Player.IncrementFailedAttempts | src/Player.cpp:61-63 | the failed count grows by one and nothing else changes |
| Players.Player.Reset | src/Player.cpp:65-74 | the state is the reset state, and full health is announced |
| Masters.NewMaster | src/GameMaster.cpp:4-10 | a new game master is NEUTRAL, not animating, and greets with the welcome line |
| Masters.Lines | src/GameMaster.cpp:24-74 | each reaction has exactly five lines |
| Masters.Reacted | src/GameMaster.cpp:24-74 | a reaction changes only the mood, to that reaction's mood |
| Masters.ReactionMoodsDistinct | src/GameMaster.cpp:33-72 | the four reactions lead to four different moods, none of them NEUTRAL or AMUSED |
| Masters.ReactIdempotent | src/GameMaster.cpp:17-22 | reacting twice in the same way equals reacting once |
| Masters.GameMaster.constructor | src/GameMaster.cpp:4-10 | the constructed object holds the initial state |
| Masters.GameMaster.SetDialogue | src/GameMaster.cpp:12-15 | the line is always replaced and nothing else changes |
| Masters.GameMaster.SetMood | src/GameMaster.cpp:17-22 | the mood is set, and a change is reported exactly when it differs |
| Masters.GameMaster.React | src/GameMaster.cpp:24-74 | the state is the reacted state, and the returned line is the picked one of that reaction's five |
| Masters.GameMaster.ReactToCorrectAnswer | src/GameMaster.cpp:24-35 | the mood becomes IMPRESSED, and the line is the picked one of the five |
| Masters.GameMaster.ReactToWrongAnswer | src/GameMaster.cpp:37-48 | the mood becomes ANGRY, and the line is the picked one of the five |
| Masters.GameMaster.ReactToLowHealth | src/GameMaster.cpp:50-61 | the mood becomes MENACING, and the line is the picked one of the five |
| Masters.GameMaster.ReactToHighScore | src/GameMaster.cpp:63-74 | the mood becomes SATISFIED, and the line is the picked one of the five |
| Masters.GameMaster.StartAnimation | src/GameMaster.cpp:76-81 | animation turns on, and a change is reported exactly when it was off |
| Masters.GameMaster.StopAnimation | src/GameMaster.cpp:83-88 | animation turns off, and a change is reported exactly when it was on |
| Stories.AuthoredRiddle | src/Story.cpp:18-76 | riddle `k` carries the question, hint and context texts written for it, over the constructor's defaults |
| Stories.AuthoredRiddleStakes | src/Story.cpp:18-76 | every authored riddle costs health when failed and pays points when solved, and only the fifth is DEADLY |
| Stories.AuthoredRiddles | src/Story.cpp:18-76 | the story holds exactly the five authored riddles, in creation order |
| Stories.Labels | src/Story.cpp:78-288 | a node's choice list has the requested number of labels, in order |
| Stories.Authored | src/Story.cpp:78-288 | the node map holds exactly the ids 0 to 13, each bound to its authored node |
| Stories.CurrentNode | src/Story.cpp:298-300 | the current node exists exactly when its id is in the map, and is the node stored there |
| Stories.ResolvesAt | src/Story.cpp:78-288 | a node of a story whose riddle indices resolve has a resolving riddle index |
| Stories.CurrentRiddle | src/Story.cpp:339-342 | a riddle is returned exactly when the current node has one, and it is the one the node refers to |
| Stories.GoToEffect | src/Story.cpp:312-332 | an unknown id changes nothing; a known id becomes current and is appended to the history once, and an ending node records and announces its ending while other nodes keep the ending flags |
| Stories.StartStoryState | src/Story.cpp:290-296 | after `startStory` the story is at node 0 with history [0] and not ended, when node 0 exists and is no ending |
| Stories.MakeChoiceMovesIffValid | src/Story.cpp:302-310 | `makeChoice` moves exactly when the current node exists, the index is within `nextNodeIds` and that successor exists, and then it moves to that successor and records it |
| Stories.SolveRiddleEffect | src/Story.cpp:344-354 | a failed riddle, or a call at a node without a riddle, changes nothing; a solved riddle moves to the first successor |
| Stories.GoToConsistent | src/Story.cpp:312-332 | moving from a consistent, unended position keeps the history ending at the current node |
| Stories.EndedIsFinal | src/Story.cpp:302-354 | once the story has ended at a final node, neither choices nor riddles move it |
| Stories.OperationsKeepConsistent | src/Story.cpp:290-354 | starting, choosing and solving keep the position consistent with the history |
| Stories.AuthoredIds | src/Story.cpp:78-288 | each authored node is stored under its own id |
| Stories.AuthoredClosed | src/Story.cpp:78-288 | every successor id of the authored story names an existing node |
| Stories.AuthoredRiddleNodes | src/Story.cpp:96-226 | riddles sit exactly at nodes 1, 4, 6, 8 and 9, holding riddles 0 to 4 in order, with no choices and one successor |
| Stories.AuthoredRiddlesResolve | src/Story.cpp:78-288 | every riddle index of the authored story names one of the five riddles |
| Stories.AuthoredEndings | src/Story.cpp:258-287 | nodes 12 (TRUE_FREEDOM) and 13 (THE_DEAL) are the only endings, with no successors and no riddle |
| Stories.AuthoredEndingsAreFinal | src/Story.cpp:258-287 | every ending of the authored story has no successor and no riddle |
| Stories.AuthoredStart | src/Story.cpp:290-296 | `startStory` on the authored story leaves it at node 0, history [0], not ended |
| Stories.ChoiceAtRiddleNode | src/Story.cpp:302-310 | node 1 offers no choices, yet `makeChoice(0)` there moves to node 3, because the index is checked against the successor list |
| Stories.Story.constructor | src/Story.cpp:3-11 | the constructed story holds the authored nodes and riddles, unstarted at node 0 |
| Stories.Story.GoToNode | src/Story.cpp:312-332 | the position and the announced ending are those of the move function |
| Stories.Story.StartStory | src/Story.cpp:290-296 | the position is the started position, and the ending announced is that of node 0 |
| Stories.Story.GetCurrentNode | src/Story.cpp:298-300 | a node is returned exactly when the current id is in the map, and it is the node stored there |
| Stories.Story.MakeChoice | src/Story.cpp:302-310 | the position and the announced ending are those of the choice function |
| Stories.Story.HasRiddle | src/Story.cpp:334-337 | true exactly when the current node exists and has a riddle |
| Stories.Story.GetCurrentRiddle | src/Story.cpp:339-342 | the returned riddle is the current node's riddle, if any |
| Stories.Story.SolveRiddle | src/Story.cpp:344-354 | the position and the announced ending are those of the solve function |
| Sessions.NewSession | src/GameState.cpp:3-14 | a new session is in MENU, not paused, with three hints, no attempts and fresh components |
| Sessions.AfterNotices | src/GameState.cpp:18-19 | the handlers of the player's signals change only the game master and the session state |
| Sessions.ResetNoticeIsQuiet | src/GameState.cpp:29-30 | the `healthChanged` emitted by `reset` draws no reaction, because health is full and no riddle is solved |
| Sessions.HealthReactionBands | src/GameState.cpp:213-221 | at health 1 to 25 of 100 the game master taunts; at 90 or more with over two riddles solved it praises; otherwise nothing changes, and only the game master is ever touched |
| Sessions.NewGameState | src/GameState.cpp:29-45 | `startNewGame` on the authored story refills three hints, clears attempts and pause, resets the player, starts the story at node 0, shows DIALOGUE and speaks node 0's line |
| Sessions.SubmitIgnored | src/GameState.cpp:71-79 | an answer outside RIDDLE_ACTIVE, or with no riddle posed, changes nothing and reports nothing |
| Sessions.CorrectAnswerEffect | src/GameState.cpp:81-94 | a correct answer adds the reward, counts the riddle, marks the player CELEBRATING, solves the riddle in the story and ends in DIALOGUE, leaving hints, attempts and pause alone, and reports success with the picked line |
| Sessions.CorrectAnswerOverridesEnding | src/GameState.cpp:89-94 | solving the last riddle at node 9 reaches the TRUE_FREEDOM ending, yet the session ends in DIALOGUE, not ENDING |
| Sessions.WrongAnswerEffect | src/GameState.cpp:96-112 | a wrong answer counts an attempt and a failure, deals the riddle's damage and keeps the story; the session is GAME_OVER exactly when health reaches 0, and otherwise stays in RIDDLE_ACTIVE with the player THINKING and the game master ANGRY |
| Sessions.DamageHandlersKeepState | src/GameState.cpp:190-221 | the handlers of a damage's signals change the session state only when the damage killed a living player |
| Sessions.HintEffect | src/GameState.cpp:115-134 | with no hints left, or no riddle posed, a hint request changes nothing; otherwise it spends a hint and 5 health, the hint line and an AMUSED mood override the handlers, and the session is GAME_OVER only if the hint killed the player |
| Sessions.HealthNoticesKeepState | src/GameState.cpp:213-221 | health-change handlers never change the session state |
| Sessions.ChoiceIgnored | src/GameState.cpp:136-144 | a choice outside DIALOGUE and PLAYING, or at a missing node, changes nothing |
| Sessions.ChoiceAppliesHealthChange | src/GameState.cpp:146-159 | the node's health change applies whether or not the choice index is valid, and an invalid index leaves the story where it was |
| Sessions.DefiantNodeCosts | src/GameState.cpp:146-159 | at node 2 of the authored story every choice, valid or not, costs a full player 10 health |
| Sessions.ChoiceFinalState | src/GameState.cpp:161-174 | after a choice the session is ENDING if the story ended, else GAME_OVER if the player is dead, else RIDDLE_ACTIVE exactly at a riddle node, else DIALOGUE |
| Sessions.NewGameKeepsValid | src/GameState.cpp:29-45 | starting a new game keeps health within bounds, hints within [0, 3], attempts non-negative and the story position consistent |
| Sessions.AnswerKeepsValid | src/GameState.cpp:71-113 | answering keeps the session invariant |
| Sessions.HintKeepsValid | src/GameState.cpp:115-134 | a hint request keeps the session invariant |
| Sessions.ChoiceKeepsValid | src/GameState.cpp:136-174 | a choice keeps the session invariant |
| Sessions.LeftKeepsValid | src/GameState.cpp:146-156 | the health change and line of the node being left keep the session invariant and do not move the story |
| Sessions.GameState.constructor | src/GameState.cpp:3-14 | the constructed session holds the new-session state and the authored story |
| Sessions.GameState.SetState | src/GameState.cpp:64-69 | only the session state changes |
| Sessions.GameState.OnPlayerDied | src/GameState.cpp:190-195 | the session becomes GAME_OVER with the defeat line and a SATISFIED game master |
| Sessions.GameState.OnStoryEnding | src/GameState.cpp:197-211 | the session becomes ENDING, with the mood chosen by the ending |
| Sessions.GameState.OnHealthChanged | src/GameState.cpp:213-221 | the new state is that of the health reaction |
| Sessions.GameState.HearPlayer | src/GameState.cpp:18-19 | the player's emitted signals are handled in emission order |
| Sessions.GameState.HearStory | src/GameState.cpp:22 | an emitted ending runs the ending handler |
| Sessions.GameState.StartNewGame | src/GameState.cpp:29-45 | the new state is the started game, and the invariant is kept |
| Sessions.GameState.ContinueGame | src/GameState.cpp:47-50 | the session becomes PLAYING and unpaused |
| Sessions.GameState.PauseGame | src/GameState.cpp:52-54 | only the pause flag is set |
| Sessions.GameState.ResumeGame | src/GameState.cpp:56-58 | only the pause flag is cleared |
| Sessions.GameState.EndGame | src/GameState.cpp:60-62 | the session returns to MENU |
| Sessions.GameState.SubmitAnswer | src/GameState.cpp:71-113 | the new state and the emitted verdict are those of the answer functions, and the invariant is kept |
| Sessions.GameState.Reward | src/GameState.cpp:83-94 | the correct-answer path: the new state is the rewarded state, and the line is the picked correct-answer line |
| Sessions.GameState.Punish | src/GameState.cpp:96-112 | the wrong-answer path: the new state is the punished state, and the line is the picked wrong-answer line |
| Sessions.GameState.Charge | src/GameState.cpp:98-99 | the attempt is counted and the damage dealt, with the damage's signals handled |
| Sessions.GameState.RequestHint | src/GameState.cpp:115-134 | the new state and the emitted hint are those of the hint functions, and the invariant is kept |
| Sessions.GameState.CheckGameOver | src/GameState.cpp:176-181 | a dead player outside GAME_OVER moves the session to GAME_OVER, and nothing else changes |
| Sessions.GameState.CheckEnding | src/GameState.cpp:183-188 | an ended story moves the session to ENDING |
| Sessions.GameState.ProcessChoice | src/GameState.cpp:136-174 | the new state is that of the choice function, and the invariant is kept |
| Sessions.GameState.Leave | src/GameState.cpp:146-156 | the node's health change is applied and its line spoken |
| Sessions.GameState.Arrive | src/GameState.cpp:161-170 | the session is RIDDLE_ACTIVE with the riddle's context at a riddle node, and DIALOGUE otherwise |
| Animation.NewClip | src/AnimatedSprite.cpp:3-14 | a new sprite has no frames, a frame time of one tenth of a second, loops, and is stopped and unfinished |
| Animation.Load | src/AnimatedSprite.cpp:19-32 | a failed load changes nothing; a successful one replaces the frame geometry and rewinds, keeping playing, looping and the frame rate |
| Animation.Advance | src/AnimatedSprite.cpp:34-55 | a stopped or finished clip is unchanged, and an update never changes the geometry, the frame time or looping |
| Animation.Played | src/AnimatedSprite.cpp:63-66 | play starts the clip and clears a finish, and changes nothing else |
| Animation.Paused | src/AnimatedSprite.cpp:68-70 | pause only stops the clip |
| Animation.Rewound | src/AnimatedSprite.cpp:72-76 | reset goes back to frame 0 with no time accumulated and not finished, and keeps playing |
| Animation.WithFrameRate | include/AnimatedSprite.h:31 | the frame time is the reciprocal of the frame rate, and nothing else changes |
| Animation.AdvanceAtMostOneFrame | src/AnimatedSprite.cpp:39-54 | one update moves a valid index by at most one frame, however large `dt` is: it stays, moves to the next frame, wraps to 0 on a looping clip, or sticks on the last frame; a tick carries over the surplus time |
| Animation.AdvanceInRange | src/AnimatedSprite.cpp:43-53 | an update keeps a valid index within `[0, frameCount)` |
| Animation.LoopingNeverFinishes | src/AnimatedSprite.cpp:45-47 | a looping clip never finishes |
| Animation.NonLoopingFinishes | src/AnimatedSprite.cpp:48-52 | a non-looping clip ticking past its last frame stays on it, finishes and stops |
| Animation.RestartFromFirstFrame | src/AnimatedSprite.cpp:63-76 | reset then play restarts any clip from frame 0 with no time accumulated |
| Animation.PauseKeepsPosition | src/AnimatedSprite.cpp:35-37 | a paused clip keeps its frame and time, and updates leave it unchanged |
| Animation.StoppedStays | src/AnimatedSprite.cpp:35-37 | a stopped or finished clip is unchanged by any run of updates |
| Animation.FinishedIsSticky | src/AnimatedSprite.cpp:35-37 | a finished clip stays finished, on the same frame, under any run of updates |
| Animation.RunInRange | src/AnimatedSprite.cpp:34-55 | a valid index stays valid under any run of updates |
| Animation.LoopingCycles | src/AnimatedSprite.cpp:41-47 | a playing looping clip shows frame `(start + ticks) mod frameCount` after any run of updates, and keeps playing |
| Animation.TickCountBounded | src/AnimatedSprite.cpp:41-44 | a run of `k` updates ticks at most `k` times |
| Animation.FrameInSheet | src/AnimatedSprite.cpp:57-61 | the rectangle of a valid frame lies in the strip, at the top, with the frame's size |
| Animation.FramesDisjoint | src/AnimatedSprite.cpp:57-61 | the rectangles of two different frames never overlap |
| Animation.AnimatedSprite.constructor | src/AnimatedSprite.cpp:3-14 | the constructed sprite holds the new-clip state |
| Animation.AnimatedSprite.LoadSpriteSheet | src/AnimatedSprite.cpp:19-32 | the result is the load outcome, and the state is the loaded clip |
| Animation.AnimatedSprite.Update | src/AnimatedSprite.cpp:34-55 | the new state is the advanced clip |
| Animation.AnimatedSprite.GetCurrentFrame | src/AnimatedSprite.cpp:57-61 | the current frame's rectangle, which lies within the strip for a valid index |
| Animation.AnimatedSprite.Play | src/AnimatedSprite.cpp:63-66 | the new state is the played clip |
| Animation.AnimatedSprite.Pause | src/AnimatedSprite.cpp:68-70 | the new state is the paused clip |
| Animation.AnimatedSprite.Reset | src/AnimatedSprite.cpp:72-76 | the new state is the rewound clip |
| Animation.AnimatedSprite.SetLoop | include/AnimatedSprite.h:30 | only the loop flag changes |
| Animation.AnimatedSprite.SetFrameRate | include/AnimatedSprite.h:31 | the new state has the frame time of the given rate |
| Bodies.Sprites.Put | src/Player2D.cpp:34 | storing a clip under a sheet makes it that sheet's clip |
| Bodies.SheetClip | src/Player2D.cpp:24-87 | each loaded clip has 32×32 frames at frame 0 and unfinished; only idle and run loop, and all but hurt and death are already playing |
| Bodies.NewBody | src/Player2D.cpp:5-22 | a new body is at (100, 100), which is also the spawn point, and is still, IDLE, airborne, with both jumps, no cooldown, 100 health, 3 lives and no score or coins; each sheet that loads has its prepared clip |
| Bodies.Restarted | src/Player2D.cpp:170-173 | a loaded sheet's clip is rewound and playing, and a missing sheet changes nothing |
| Bodies.Posed | src/Player2D.cpp:166-176 | the pose becomes the new one, and only the pose and its clip change |
| Bodies.Settled | src/Player2D.cpp:219-240 | settling the pose from the velocity changes only the pose and its clip |
| Bodies.Aged | src/Player2D.cpp:178-188 | the first part of `update` changes only the clips and the cooldown |
| Bodies.Stepped | src/Player2D.cpp:194-203 | after the move the body is not left of the screen, its vertical position moved by the velocity, and only position and velocity changed |
| Bodies.Steadied | src/Player2D.cpp:211-240 | the vertical speed ends within the cap both ways, and only velocity, pose and clip change |
| Bodies.Box | src/Player2D.cpp:102-104 | the bounding box is the 32×32 square at the body's position |
| Bodies.HorizontalMoves | src/Player2D.cpp:106-128 | a move accelerates by 600 toward its side, capped at 200, sets the facing, and runs unless jumping, falling or hurt; nothing else changes |
| Bodies.MoveLeavesDeadPose | src/Player2D.cpp:106-128 | a dead body is put back into a running pose by a horizontal move, with its health unchanged |
| Bodies.JumpGate | src/Player2D.cpp:130-153 | a ground jump needs ground, `canJump` and no hurt, and spends `canJump`; otherwise a double jump needs air, the double jump, an expired cooldown and no hurt, and spends it and starts the 3-second cooldown; both set the jump speed and JUMPING; otherwise nothing changes |
| Bodies.AtMostTwoJumps | src/Player2D.cpp:130-153 | a third jump in a row changes nothing |
| Bodies.LandingRestoresJumps | src/Player2D.cpp:254-264 | landing from the air zeroes the vertical speed and restores both jumps; any other call only sets the flag |
| Bodies.DamageEffect | src/Player2D.cpp:266-273 | health drops, not below 0; reaching 0 kills the body, stops it and costs a life, even when it was already dead; otherwise only health changes |
| Bodies.EveryLethalHitCostsALife | src/Player2D.cpp:266-286 | a second lethal hit on a dead body costs a second life |
| Bodies.HealCaps | src/Player2D.cpp:275-278 | healing caps health at 100 and changes nothing else, even on a dead body |
| Bodies.RespawnEffect | src/Player2D.cpp:288-297 | a respawn puts the body at the point, which becomes the spawn point, still, at full health, airborne and IDLE, keeping lives, score, coins and jump flags |
| Bodies.DeadBodyStays | src/Player2D.cpp:190-192 | `update` changes only the clip and cooldown of a dead body and never kills it |
| Bodies.UpdateBounds | src/Player2D.cpp:194-217 | after `update` a living body is not left of the screen; a fall below 800 kills it at 0 health with one life fewer; otherwise the vertical speed is within the cap and health and lives are kept |
| Bodies.CooldownRunsDown | src/Player2D.cpp:183-188 | the cooldown drops by the elapsed time and never below 0 |
| Bodies.CoinEffect | src/Player2D.cpp:304-308 | a coin adds one coin and 100 points and nothing else |
| Bodies.FrictionEffect | src/Player2D.cpp:155-164 | friction scales the horizontal speed by 0.85, snapping it to 0 exactly when it would fall below 0.1, so it never grows or reverses; a grounded body that is neither dead nor hurt becomes IDLE exactly when left slower than 1, otherwise the pose stays; the vertical speed and the rest are kept |
| Bodies.GravityEffect | src/Player2D.cpp:243-252 | a grounded or dead body is unchanged; an airborne living one gains 800·dt of downward speed, capped at 500, and nothing else changes |
| Bodies.MovesKeepBodyValid | src/Player2D.cpp:106-164 | moving, jumping, stopping and landing keep health within [0, 100] and the cooldown within [0, 3] |
| Bodies.TicksKeepBodyValid | src/Player2D.cpp:178-252 | `update` and gravity keep the body invariant for a non-negative elapsed time |
| Bodies.HealthKeepsBodyValid | src/Player2D.cpp:266-308 | damage, healing, death, respawning and coins keep the body invariant |
| Bodies.Player2D.constructor | src/Player2D.cpp:5-22 | the constructed body holds the new-body state for the sheets that load |
| Bodies.Player2D.SetPosition | src/Player2D.cpp:95-100 | only the position changes |
| Bodies.Player2D.SetVelocity | include/Player2D.h:34 | only the velocity changes |
| Bodies.Player2D.BoundingBox | src/Player2D.cpp:102-104 | returns the body's box |
| Bodies.Player2D.SetState | src/Player2D.cpp:166-176 | the new state is the posed body |
| Bodies.Player2D.RestartClip | src/Player2D.cpp:137-140 | only the sheet's clip is restarted |
| Bodies.Player2D.MoveLeft | src/Player2D.cpp:106-116 | the new state is the left move |
| Bodies.Player2D.MoveRight | src/Player2D.cpp:118-128 | the new state is the right move |
| Bodies.Player2D.Jump | src/Player2D.cpp:130-153 | the new state is the jump |
| Bodies.Player2D.StopHorizontalMovement | src/Player2D.cpp:155-164 | the new state is the friction step |
| Bodies.Player2D.Update | src/Player2D.cpp:178-241 | the new state is the updated body, and `died` is reported exactly when a living body falls below 800 |
| Bodies.Player2D.Age | src/Player2D.cpp:179-188 | the clip advances and the cooldown runs down |
| Bodies.Player2D.Travel | src/Player2D.cpp:194-240 | the living body's move, fall check and settling, reporting a fall |
| Bodies.Player2D.Step | src/Player2D.cpp:194-203 | the move along the velocity, stopping at the left edge |
| Bodies.Player2D.Steady | src/Player2D.cpp:211-240 | the speed cap and the pose update |
| Bodies.Player2D.Settle | src/Player2D.cpp:220-240 | the pose from the velocity |
| Bodies.Player2D.ApplyGravity | src/Player2D.cpp:243-252 | the new state is the gravity step |
| Bodies.Player2D.SetOnGround | src/Player2D.cpp:254-264 | the new state is the landing step |
| Bodies.Player2D.TakeDamage | src/Player2D.cpp:266-273 | the new state is the damaged body, and `died` is reported exactly when health reaches 0 |
| Bodies.Player2D.Heal | src/Player2D.cpp:275-278 | the new state is the healed body |
| Bodies.Player2D.Die | src/Player2D.cpp:280-286 | the new state is the dead body |
| Bodies.Player2D.Respawn | src/Player2D.cpp:288-297 | the new state is the respawned body |
| Bodies.Player2D.AddScore | src/Player2D.cpp:299-302 | only the score grows, by the points |
| Bodies.Player2D.CollectCoin | src/Player2D.cpp:304-308 | the new state has one coin more and 100 points more |
| Enemies.Clips.Put | src/Enemy.cpp:37 | storing a clip under a state makes it that state's clip |
| Enemies.StateClip | src/Enemy.cpp:27-75 | each loaded clip has 32×32 frames at frame 0 and unfinished; idle and walk loop and play, hurt and death do neither |
| Enemies.NewEnemy | src/Enemy.cpp:5-18 | a new enemy is IDLE at its start point, facing left, with its riddle not yet triggered, a patrol distance of 64 and a speed of 30; each sheet that loads has its prepared clip |
| Enemies.Restarted | src/Enemy.cpp:93-96 | a loaded state's clip is rewound and playing, and a missing one changes nothing |
| Enemies.Entered | src/Enemy.cpp:89-98 | the state becomes the new one, and only the state and its clip change |
| Enemies.Animated | src/Enemy.cpp:125-129 | advancing the current clip changes only the clips |
| Enemies.Patrolled | src/Enemy.cpp:131-148 | a patrol step always leaves the enemy WALKING |
| Enemies.Box | src/Enemy.cpp:85-87 | the bounding box is the 32×32 square at the enemy's position |
| Enemies.TakeDamageEffect | src/Enemy.cpp:150-154 | damage makes an idle or walking enemy HURT with its hurt clip restarted, and leaves a hurt or dead enemy unchanged |
| Enemies.DieEffect | src/Enemy.cpp:156-164 | `die` always ends DEAD with the death clip at frame 0, playing and unfinished, and changes nothing but state and clips |
| Enemies.FinishedOnlyWhenDead | src/Enemy.cpp:100-105 | the death animation counts as finished only for a dead enemy with a death clip |
| Enemies.UpdateStillWhenDeadOrHurt | src/Enemy.cpp:107-123 | `update` changes only the clips of a dead or hurt enemy |
| Enemies.HurtIsSticky | src/Enemy.cpp:107-123 | a hurt enemy stays hurt, in place, through any run of updates |
| Enemies.PatrolStepEffect | src/Enemy.cpp:131-148 | a patrol step walks half a pixel toward the facing side, whatever the elapsed time, and turns round exactly when the offset measured before the step was already beyond 64 on that side |
| Enemies.PatrolStaysNearStart | src/Enemy.cpp:131-148 | a patrol step keeps the enemy within 65 pixels of its start |
| Enemies.RunStaysNearStart | src/Enemy.cpp:107-148 | any run of updates keeps the enemy within 65 pixels of its start |
| Enemies.NewEnemyPatrols | src/Enemy.cpp:5-18 | a new enemy meets the patrol invariant and has not finished dying |
| Enemies.Enemy.constructor | src/Enemy.cpp:5-18 | the constructed enemy holds the new-enemy state |
| Enemies.Enemy.SetPosition | src/Enemy.cpp:81-83 | only the position changes |
| Enemies.Enemy.SetRiddleTriggered | include/Enemy.h:51 | only the triggered flag changes |
| Enemies.Enemy.BoundingBox | src/Enemy.cpp:85-87 | returns the enemy's box |
| Enemies.Enemy.SetState | src/Enemy.cpp:89-98 | the new state is the entered state |
| Enemies.Enemy.RestartClip | src/Enemy.cpp:93-96 | only the state's clip is restarted |
| Enemies.Enemy.IsDeathAnimationFinished | src/Enemy.cpp:100-105 | true exactly when the enemy is dead and its death clip finished |
| Enemies.Enemy.Update | src/Enemy.cpp:107-123 | the new state is the updated enemy |
| Enemies.Enemy.Patrol | src/Enemy.cpp:131-148 | the new state is the patrol step |
| Enemies.Enemy.TakeDamage | src/Enemy.cpp:150-154 | the new state is the wounded enemy |
| Enemies.Enemy.Die | src/Enemy.cpp:156-164 | the new state is the slain enemy |
| Levels.NewGrid | src/Level.cpp:14-22 | the constructed grid is 30×20 with each tile at its own cell and square, EMPTY, uncollected, inactive and with riddle -1 |
| Levels.TileAt | src/Level.cpp:43-48 | no tile (the null pointer) exactly outside the grid, and otherwise the tile at that cell |
| Levels.RowCellsMembers | src/Level.cpp:72-77 | one row of the area scan holds exactly the in-bounds cells of that row between the two columns |
| Levels.RowCellsOrdered | src/Level.cpp:72-77 | one row of the area scan is in increasing column order |
| Levels.CellsInMembers | src/Level.cpp:71-78 | the area scan lists exactly the in-bounds cells of the truncated range, edges included |
| Levels.CellsInOrdered | src/Level.cpp:71-78 | the area scan lists cells in row-major order |
| Levels.RowMajorDistinct | src/Level.cpp:71-78 | a row-major list holds no tile twice |
| Levels.AreaCovers | src/Level.cpp:63-81 | for an area of positive size, every cell whose square overlaps the area is scanned |
| Levels.SolidsSnoc | src/Level.cpp:85-92 | the solid scan of a list with one more cell adds that cell exactly when it is solid |
| Levels.SolidsMembers | src/Level.cpp:85-92 | the solid scan of a list keeps exactly the solid cells of it |
| Levels.SolidCellsAreSolid | src/Level.cpp:83-100 | `getSolidTiles` lists exactly the cells `isSolid` holds for |
| Levels.FirstHitMeans | src/Level.cpp:105-112 | a hit is reported exactly when some scanned tile is non-empty and overlaps the box, and the kind reported is such a tile's |
| Levels.CellsInMembersOf | src/Level.cpp:63-81 | every cell the area scan lists is within the grid |
| Levels.CollisionComplete | src/Level.cpp:102-113 | for a box of positive size, `checkCollision` reports no hit exactly when no non-empty tile of the whole grid overlaps it |
| Levels.BlankLevel | src/Level.cpp:4-22 | a level starts with a well-formed grid, no enemies, not complete and no coins |
| Levels.PlacedDims | src/Level.cpp:135-144 | `setTile` keeps the 30×20 shape |
| Levels.PlacedAll | src/Level.cpp:146-491 | a layout's tile placements keep the grid's shape and change only tiles and the coin total |
| Levels.Spawned | src/Level.cpp:146-491 | a layout creates one enemy per spot, as constructed at that spot with that riddle |
| Levels.LayoutIndex | src/Level.cpp:31-41 | numbers 1 to 6 select their own layout and every other number selects layout 1 |
| Levels.Loaded | src/Level.cpp:31-41 | loading a layout keeps the grid's shape |
| Levels.NewLevel | src/Level.cpp:4-25 | a constructed level has the 30×20 grid |
| Levels.CoinCollected | src/Level.cpp:115-121 | collecting a coin keeps the grid's shape |
| Levels.CheckpointActivated | src/Level.cpp:123-129 | activating a checkpoint keeps the grid's shape |
| Levels.NewLevelShape | src/Level.cpp:4-41 | a constructed level has the 30×20 grid, its own number, is not complete, has collected no coins, and holds one enemy per spot of its layout |
| Levels.UnknownNumberIsLevelOne | src/Level.cpp:39 | a level number outside 1 to 6 builds level 1, differing only in its number |
| Levels.PlacedAllIgnoresNumber | src/Level.cpp:135-144 | the level number plays no part in placing tiles |
| Levels.SetTileEffect | src/Level.cpp:135-144 | outside the grid nothing changes; inside, that tile's kind and riddle are set, no other tile changes, and the coin total grows by one exactly for a COIN |
| Levels.CoinOverwriteCountsTwice | src/Level.cpp:141-143 | placing a COIN twice on one cell leaves one coin tile but counts two coins |
| Levels.CollectCoinEffect | src/Level.cpp:115-121 | collecting acts exactly on an uncollected COIN tile, marking it and lowering the coins remaining by one, and a second call changes nothing |
| Levels.ActivateCheckpointEffect | src/Level.cpp:123-129 | activation acts exactly on an inactive CHECKPOINT tile, marking it, and a second call changes nothing |
| Levels.IsSolidMeans | src/Level.cpp:96-100 | `isSolid` holds exactly for an in-bounds SOLID or MOVING_PLATFORM tile |
| Levels.PixelLookup | src/Level.cpp:57-61 | a point in the grid's area finds the tile whose square holds it, and a point less than one tile left of the grid truncates into column 0 |
| Levels.BuildGrid | src/Level.cpp:15-22 | the nested loops build the blank grid |
| Levels.SolidTilesOf | src/Level.cpp:83-94 | the nested loops return the solid cells of the grid |
| Levels.AppendSolidRow | src/Level.cpp:86-91 | the inner loop appends the solid cells of one row |
| Levels.Level.constructor | src/Level.cpp:4-25 | the constructed level is the new level for its number |
| Levels.Level.LoadLevel | src/Level.cpp:31-41 | the new state is the loaded layout |
| Levels.Level.PlaceAll | src/Level.cpp:146-491 | every placement goes through `setTile`, in order |
| Levels.Level.AddEnemies | src/Level.cpp:146-491 | the layout's enemies are appended, in order |
| Levels.Level.AddEnemy | src/Level.cpp:27-29 | the enemy is appended and nothing else changes |
| Levels.Level.SetTile | src/Level.cpp:135-144 | the new state is the placed tile |
| Levels.Level.GetTileAt | src/Level.cpp:43-48 | returns the tile lookup |
| Levels.Level.GetTileAtPixel | src/Level.cpp:57-61 | returns the pixel lookup |
| Levels.Level.GetTilesInArea | src/Level.cpp:63-81 | the nested loops return the area scan, in row-major order |
| Levels.Level.GetSolidTiles | src/Level.cpp:83-94 | returns the solid cells of the grid |
| Levels.Level.IsSolidAt | src/Level.cpp:96-100 | returns whether the cell is solid |
| Levels.Level.CheckCollision | src/Level.cpp:102-113 | the loop with early exit returns the kind of the first scanned tile the box hits |
| Levels.Level.CollectCoin | src/Level.cpp:115-121 | the new state is the collected coin |
| Levels.Level.ActivateCheckpoint | src/Level.cpp:123-129 | the new state is the activated checkpoint |
| Levels.Level.GetCoinsRemaining | src/Level.cpp:131-133 | returns the coin total less the coins collected |
| Levels.Level.SetComplete | include/Level.h:69 | only the completion flag changes |
| Widgets.DiedHandled | src/GameWidget.cpp:101-117 | the died handler leaves the level, the riddle flag and the victory screen alone; its two branches are stated by DiedHandlerEffect |
| Widgets.Hit | src/GameWidget.cpp:404-406 | a hit on the player takes the health and lives that the player's own takeDamage gives, and keeps the score, level, riddle flag, victory screen and active enemy |
| Widgets.LevelLoaded | src/GameWidget.cpp:160-176 | loading a level always leaves a level in place; the mode flags and spawn are stated by LoadLevelModes |
| Widgets.Started | src/GameWidget.cpp:120-129 | starting the game always leaves a level in place; the effect on lives and score is stated by RetryKeepsLives |
| Widgets.Input | src/GameWidget.cpp:241-294 | input changes the player and nothing else of the widget |
| Widgets.Physics | src/GameWidget.cpp:296-304 | physics keeps the level, the riddle flag, the victory screen and the mode |
| Widgets.Corrected | src/GameWidget.cpp:332-370 | a correction changes only the player's position and velocity |
| Widgets.Resolved | src/GameWidget.cpp:313-367 | a tile can only land the player in platformer mode |
| Widgets.NearbyCells | src/GameWidget.cpp:307-308 | every scanned cell lies inside the grid |
| Widgets.Collisions | src/GameWidget.cpp:306-377 | the collision pass changes the player and nothing else of the widget |
| Widgets.LevelCompleted | src/GameWidget.cpp:179-192 | after the level-complete handler a level is still in place; the outcome is stated by GoalEffect |
| Widgets.KeyTaken | src/GameWidget.cpp:394-396 | marking the key tile collected keeps the grid's dimensions |
| Widgets.TileEffect | src/GameWidget.cpp:383-430 | touching a tile always leaves a level in place; each kind's effect is stated by the tile lemmas below |
| Widgets.CoinTouched | src/GameWidget.cpp:387-392 | a level remains in place; the coin's effect is stated by CoinTileEffect |
| Widgets.KeyTouched | src/GameWidget.cpp:394-402 | a level remains in place; the key's effect is stated by KeyTileEffect |
| Widgets.SpikeTouched | src/GameWidget.cpp:404-407 | a level remains in place; the spike's effect is stated by SpikeEffect |
| Widgets.GoalTouched | src/GameWidget.cpp:413-422 | a level remains in place after the goal, also when the next one was loaded; the outcome, and that only a loaded next level stops the pass, are stated by GoalEffect |
| Widgets.TilesFrom | src/GameWidget.cpp:383-431 | the tile loop always leaves a level in place, even when a goal replaced it mid-pass; after the level-6 victory it goes on with the remaining tiles |
| Widgets.TileEffects | src/GameWidget.cpp:379-432 | the tile pass always leaves a level in place |
| Widgets.FirstTouchable | src/GameWidget.cpp:439-443 | a found index is in range and names a living, untriggered enemy touching the player |
| Widgets.Posed | src/GameWidget.cpp:453-466 | posing keeps the level, turns the riddle on and records the enemy as the active one |
| Widgets.EnemyChanged | src/GameWidget.cpp:494-506 | changing the active enemy changes only the level, and only its enemies |
| Widgets.Answered | src/GameWidget.cpp:487-507 | the player's side of an answer keeps the level, the active enemy and the victory screen |
| Widgets.Advanced | src/GameWidget.cpp:216-221 | every enemy that is not dead is updated by dt and every dead one is kept as it is, in the same positions |
| Widgets.Moved | src/GameWidget.cpp:209-212 | the player's four steps of a tick (input, physics, collisions, tiles) always leave a level in place |
| Widgets.TickHaltsOrClamps | src/GameWidget.cpp:195-213 | a paused, riddle or victory tick changes nothing; a running tick treats any dt above a tenth of a second as a tenth |
| Widgets.TopDownInput | src/GameWidget.cpp:247-274 | in top-down mode each axis is -150 or +150 exactly when that direction is held alone, and 0 exactly when both or neither are held; only the velocity changes |
| Widgets.InputGates | src/GameWidget.cpp:242-245 | input is ignored while paused or during a riddle, and in platformer mode left and right held together stop the player |
| Widgets.CorrectionSide | src/GameWidget.cpp:322-367 | the chosen side has the least of the four overlaps; top needs a falling and bottom a rising player in platformer mode; no side is chosen exactly when platformer mode refuses the vertical side and neither horizontal overlap is least |
| Widgets.LandingPlacement | src/GameWidget.cpp:313-367 | a tile that is not solid or not touched changes nothing; a landing needs a falling player and puts its feet on the tile's top with no vertical speed, horizontal motion unchanged |
| Widgets.ResolvedAllFrame | src/GameWidget.cpp:306-370 | the whole pass changes only the player's position and velocity, and in top-down mode nothing is landed on |
| Widgets.DecisionsIgnorePosition | src/GameWidget.cpp:307-367 | the pass judges every tile against the box taken first, so the player's position does not decide the landing or the final velocity |
| Widgets.ResolvedUsesVelocityOnly | src/GameWidget.cpp:313-367 | one tile's landing and resulting velocity depend only on the player's velocity |
| Widgets.CollisionsGround | src/GameWidget.cpp:372-376 | in platformer mode the player is grounded after the pass exactly when some tile was landed on; top-down mode leaves the flag |
| Widgets.UntouchedTileNoEffect | src/GameWidget.cpp:383-430 | an untouched tile, a collected coin or key, an empty or a solid tile does nothing |
| Widgets.SpikeEffect | src/GameWidget.cpp:404-407 | a spike deals 25 damage floored at zero, costs a life exactly when it kills, moves the player to the spawn and keeps the level |
| Widgets.GoalEffect | src/GameWidget.cpp:413-422 | level 6's goal without the key does nothing; a goal below level 6 loads the next level running and stops the pass; the goal of level 6 with the key shows the victory screen over a paused, completed level and lets the pass go on |
| Widgets.KeyTileEffect | src/GameWidget.cpp:394-402 | an untaken key gives 1000 points and the key, and marks only that tile collected |
| Widgets.CoinTileEffect | src/GameWidget.cpp:387-392 | an untaken coin adds a coin and 100 points, leaves one coin fewer in the level and marks the tile collected |
| Widgets.FirstTouchableFirst | src/GameWidget.cpp:439-449 | no enemy before the found one is touchable, and none at all when nothing is found |
| Widgets.EnemyChangedOnly | src/GameWidget.cpp:494-506 | only the active enemy is changed, and only when it is one of the level's; the rest of the level is kept |
| Widgets.RiddleSolvedEnemies | src/GameWidget.cpp:486-521 | an answer changes no enemy but the active one and keeps every trigger flag |
| Widgets.RiddleShownEnemies | src/GameWidget.cpp:453-479 | a posed riddle, answered or cancelled, changes no enemy but its own and keeps every trigger flag |
| Widgets.OneEnemyPerCheck | src/GameWidget.cpp:434-451 | with no touchable enemy nothing changes; otherwise the first touchable one is marked triggered and no other enemy changes |
| Widgets.UnknownRiddleIgnored | src/GameWidget.cpp:453-454 | a riddle id outside 0..4 changes nothing |
| Widgets.RiddleClosed | src/GameWidget.cpp:509-520 | after either answer the riddle is closed, no key is held, there is no active enemy, the player is stopped horizontally and the game runs |
| Widgets.RightAnswer | src/GameWidget.cpp:487-497 | a right answer adds 500 points, heals 25 capped at 100, keeps the lives and kills the active enemy |
| Widgets.WrongAnswer | src/GameWidget.cpp:498-507 | a wrong answer keeps the score, deals 25 damage floored at zero and wounds the active enemy |
| Widgets.LastLifeLostToRiddle | src/GameWidget.cpp:498-520 | a wrong answer costing the last life shows the retry screen, but the game is resumed beneath it and ticks do not halt |
| Widgets.DiedHandlerEffect | src/GameWidget.cpp:101-117 | with lives left one respawn is scheduled and nothing else changes; otherwise the retry screen shows over a paused game and the best score becomes the larger of the old best and the score |
| Widgets.RetryKeepsLives | src/GameWidget.cpp:855-860 | R on the retry screen restarts level 1 in platformer mode with no score, but with the lives the game ended with |
| Widgets.PauseToggles | src/GameWidget.cpp:870-881 | away from the two screens P or ESC flips the pause and leaves no key held; any other key keeps the pause and is recorded unless it is an auto-repeat |
| Widgets.ReleaseForgets | src/GameWidget.cpp:886-891 | a release that is not an auto-repeat forgets the key, and only the held keys change |
| Widgets.LoadLevelModes | src/GameWidget.cpp:160-176 | top-down mode holds exactly on level 6, which also takes the key away; other levels keep the key; the level has the asked number and the player stands at its spawn |
| Widgets.SurvivorsMeans | src/GameWidget.cpp:224-235 | the removal keeps exactly the enemies that are not finished, never adds any, and keeps the list when none is finished |
| Widgets.DeadEnemiesNeverRemoved | src/GameWidget.cpp:216-235 | when no enemy is finished the enemy loop keeps it so, and the removal then removes nothing |
| Widgets.EnemyChangesKeepNoneFinished | src/GameWidget.cpp:445-506 | a new enemy, die, takeDamage on an unfinished enemy and the trigger flag never make an enemy finished |
| Widgets.GameWidget.constructor | src/GameWidget.cpp:12-65 | the new widget has no level, no riddle, no screen, no key and a fresh player |
| Widgets.GameWidget.PauseGame | src/GameWidget.cpp:131-142 | the new state is the paused one: no key held and the player halted |
| Widgets.GameWidget.ResumeGame | src/GameWidget.cpp:144-154 | the new state is the running one with no key held |
| Widgets.GameWidget.OnPlayerDied | src/GameWidget.cpp:101-117 | the new state is the died handler's |
| Widgets.GameWidget.RespawnTimerFired | src/GameWidget.cpp:103-105 | a pending respawn, if any, is consumed and puts the player back at the current level's spawn point |
| Widgets.GameWidget.LoadLevel | src/GameWidget.cpp:160-193 | the new state is the loaded level's, with a fresh level object |
| Widgets.GameWidget.StartGame | src/GameWidget.cpp:120-129 | the new state is the started game's, with a fresh level object |
| Widgets.GameWidget.ResetPlayer | src/GameWidget.cpp:121-122 | the player is respawned at the start point with a score of zero |
| Widgets.GameWidget.HandleInput | src/GameWidget.cpp:241-294 | the new state is the one input gives |
| Widgets.GameWidget.Steer | src/GameWidget.cpp:247-274 | the player's velocity is the one the held arrow keys give |
| Widgets.GameWidget.Walk | src/GameWidget.cpp:275-293 | the player walks left, right or stops, then jumps if a jump key is held |
| Widgets.GameWidget.UpdatePhysics | src/GameWidget.cpp:296-304 | the new state is the one physics gives, including a death from the player's update |
| Widgets.GameWidget.KeyRelease | src/GameWidget.cpp:886-891 | the new state is the one a release gives |
| Widgets.GameWidget.KeyPress | src/GameWidget.cpp:839-884 | the new state is the one a press gives, on the victory screen, the retry screen or in play |
| Widgets.GameWidget.OnPlayKey | src/GameWidget.cpp:870-881 | a press in play records the key and toggles the pause on P or ESC |
| Widgets.GameWidget.OnVictoryScreen | src/GameWidget.cpp:841-853 | SPACE restarts, ESC leaves the screen, any other key is ignored |
| Widgets.GameWidget.OnRetryScreen | src/GameWidget.cpp:856-868 | R restarts, ESC leaves the screen, any other key is ignored |
| Widgets.GameWidget.CheckCollisions | src/GameWidget.cpp:306-377 | the new state is the collision pass's |
| Widgets.GameWidget.ResolveAll | src/GameWidget.cpp:310-370 | the loop leaves the player and the landed flag that resolving the cells in order gives |
| Widgets.GameWidget.ResolveAgainst | src/GameWidget.cpp:313-370 | one tile leaves the player and landing that its resolution gives |
| Widgets.GameWidget.SideToCorrect | src/GameWidget.cpp:322-367 | returns the side of least overlap that the mode and vertical speed allow |
| Widgets.GameWidget.PushOut | src/GameWidget.cpp:332-370 | the player is the corrected one for that side |
| Widgets.GameWidget.CheckTileInteractions | src/GameWidget.cpp:379-432 | the new state is the tile pass's |
| Widgets.GameWidget.ApplyTile | src/GameWidget.cpp:384-430 | the new state is the tile's effect, and the loop stops exactly when a goal loaded the next level |
| Widgets.GameWidget.TouchCoin | src/GameWidget.cpp:387-392 | the new state is the touched coin's |
| Widgets.GameWidget.TouchKey | src/GameWidget.cpp:394-402 | the new state is the touched key's |
| Widgets.GameWidget.TakeDamage | src/GameWidget.cpp:404-405 | the new state is the hit's, the died handler included |
| Widgets.GameWidget.TouchSpike | src/GameWidget.cpp:404-407 | the new state is the touched spike's |
| Widgets.GameWidget.TouchGoal | src/GameWidget.cpp:413-422 | the new state is the touched goal's, and the loop stops exactly when the handler loaded the next level, not after the level-6 victory |
| Widgets.GameWidget.LevelComplete | src/GameWidget.cpp:179-192 | the new state is the level-complete handler's |
| Widgets.GameWidget.CheckEnemyCollisions | src/GameWidget.cpp:434-451 | the new state is the enemy check's, with the dialog's answer as input |
| Widgets.GameWidget.ShowRiddle | src/GameWidget.cpp:453-479 | the new state is the shown riddle's, answered or cancelled |
| Widgets.GameWidget.Pose | src/GameWidget.cpp:455-466 | the new state is the posed riddle's |
| Widgets.GameWidget.HideRiddle | src/GameWidget.cpp:481-484 | the riddle flag is off and no riddle is active; nothing else changes |
| Widgets.GameWidget.OnRiddleSolved | src/GameWidget.cpp:486-521 | the new state is the answered riddle's |
| Widgets.GameWidget.Answer | src/GameWidget.cpp:487-507 | the player's side of the answer |
| Widgets.GameWidget.CloseRiddle | src/GameWidget.cpp:509-520 | the riddle's clean-up |
| Widgets.GameWidget.ChangeActiveEnemy | src/GameWidget.cpp:494-506 | the active enemy, if one of the level's, changed |
| Widgets.GameWidget.UpdateEnemies | src/GameWidget.cpp:216-221 | the level's enemies become the advanced ones and nothing else changes |
| Widgets.GameWidget.RemoveFinishedEnemies | src/GameWidget.cpp:224-235 | the level's enemies become the survivors and nothing else changes |
| Widgets.GameWidget.Update | src/GameWidget.cpp:195-239 | the new state is one tick's |
| Widgets.GameWidget.EnemyStep | src/GameWidget.cpp:216-235 | the enemy loop followed by the removal |
| Widgets.GameWidget.Move | src/GameWidget.cpp:209-213 | input, physics, collisions and tile interactions in that order |

## Left out

- Rendering is not modelled: `paintEvent` and the `draw*` helpers of `GameWidget`, and the widgets `DialogueWidget`, `PlayerWidget`, `HealthBarWidget`, `MainWindow`, `AnimationManager` and `main`. They are Qt presentation and easing animation. This includes the page switch that `returnToMainMenu` triggers in `MainWindow`; in the model ESC only leaves the victory or retry screen.
- `SaveManager` is not part of this model. It is file-system and JSON I/O.
- Modal dialogs are inputs. The riddle dialog's text (or its cancellation) is a parameter, and the message boxes are not modelled.
- Ticks that run beneath a message box are not modelled. The "Key Found!" box and the "Locked!" box open while the game runs, and the frame timer keeps calling `update` from the box's event loop with the held keys still recorded. On a locked goal each such tick opens another box. The model treats every box as closing before the next tick.
- Timers are not modelled. The frame timer and the elapsed clock become the `dt` argument of a tick. The one-second respawn timer becomes a counter of pending respawns, fired by `RespawnTimerFired`.
- Floating point is modelled by `real`. No claim depends on IEEE rounding, so the friction snap to zero in `stopHorizontalMovement` is exact here.
- `QString::toLower` lower-cases all of Unicode. The model lower-cases ASCII letters only.
- Integer fields are unbounded. The source's 32-bit `int` score and counters could overflow; the model does not capture that.
- The random pick of a game-master line is the parameter `Pick`, a number in `[0, 5)`.
- The six hand-authored layouts (`createLevel1` to `createLevel6`) are a data parameter of six layouts. The dispatch by level number, including the fall-back to layout 1, is modelled; the tile placements are not.
- Object identity is replaced by values. The level's enemies are values, and the widget's active enemy is an index into them. A tile pointer is a grid cell. A sprite is a clip value, and whether its image loads is a parameter.
- Signals connected to nothing are not modelled: `coinCollected`, `checkpointActivated`, the enemy's `died` and `deathAnimationComplete`, and the level's `riddleTriggered`, which is connected to `showRiddle` but never emitted. Signals that only refresh labels or forward text (`narrativeUpdate`, `gameMasterSpeaks`, `healthChanged` to the labels) are not modelled either.
- The widget's five riddles keep only their answers. Their question and hint texts are shown in the dialog and decide nothing.
- `Story::getEndingDescription` is not modelled. It only maps an ending to a display text.
- The game master's lines and the story's texts are kept as data. No property depends on their wording.
- Widgets.TilesFrom: a goal below level 6 stops the tile pass. The source instead runs the level-complete handler inside its loop, which loads the next level and deletes the one whose tiles it still iterates over (use after free). After the level-6 victory no level is freed, and the model, like the source, goes on with the remaining tiles.
- Widgets.GameWidget.Update: requires a level whenever the tick is not halted. The source would dereference a null level there.
- Widgets.GameWidget.RespawnTimerFired: requires a level. The source's timer reads the current level's spawn point through the level pointer.
- Animation.WithFrameRate: requires a non-zero rate, since the frame duration is `1 / fps`. Animation.AnimatedSprite.SetFrameRate requires the same.
- Levels.Loaded: its own contract states only that the grid keeps its dimensions. The number, the enemies and the layout dispatch are stated by NewLevelShape and UnknownNumberIsLevelOne, the placements by SetTileEffect.
- Levels.NewLevel: its own contract states only the grid's dimensions. Its number, flags and enemies are stated by NewLevelShape.
- Levels.CoinCollected: its own contract states only the grid's dimensions. The collection and its idempotence are stated by CollectCoinEffect.
- Levels.CheckpointActivated: its own contract states only the grid's dimensions. The activation and its idempotence are stated by ActivateCheckpointEffect.
