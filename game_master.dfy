/**
 * The game master of the dialogue track: a mood, the line currently spoken
 * and an animation flag.  Each reaction sets a fixed mood and returns one of
 * five fixed lines; which one is chosen at random, modelled here as a `Pick`
 * supplied by the caller.
 */
module Masters {

  datatype Mood = Neutral | Amused | Impressed | Angry | Menacing | Satisfied

  datatype MasterData = MasterData(mood: Mood, dialogue: string, animating: bool)

  /** The four situations the game master reacts to. */
  datatype Reaction = CorrectAnswer | WrongAnswer | LowHealth | HighScore

  /** An index into a reaction's five lines (the random draw `bounded(5)`). */
  type Pick = i: nat | i < 5

  const Welcome: string := "Welcome to my realm..."

  /** The game master as constructed: neutral, greeting, still. */
  function NewMaster(): (m: MasterData)
    ensures m.mood == Neutral && m.dialogue == Welcome && !m.animating
  {
    MasterData(Neutral, Welcome, false)
  }

  /** The mood each reaction puts the game master in. */
  function MoodOf(r: Reaction): Mood {
    match r
    case CorrectAnswer => Impressed
    case WrongAnswer => Angry
    case LowHealth => Menacing
    case HighScore => Satisfied
  }

  /** The five lines of each reaction, in the order they are listed. */
  function Lines(r: Reaction): (ls: seq<string>)
    ensures |ls| == 5
  {
    match r
    case CorrectAnswer => [
      "Impressive... but don't get cocky.",
      "Correct. You might actually survive this.",
      "Well done. Few make it this far.",
      "You're smarter than you look.",
      "Hmm... perhaps you're worthy after all."]
    case WrongAnswer => [
      "Wrong. Feel the consequences.",
      "Pathetic. Did you even try?",
      "No... that's not even close.",
      "Your ignorance is painful to watch.",
      "I expected better from you."]
    case LowHealth => [
      "You're fading... how amusing.",
      "Can you feel death approaching?",
      "One more mistake, and you're mine forever.",
      "Your life force wanes... delightful.",
      "Weakness. I can smell it."]
    case HighScore => [
      "You've impressed me. That's... rare.",
      "Such skill. Perhaps you deserve a choice.",
      "Remarkable. You might be worthy of power.",
      "Few have shown such prowess.",
      "You're becoming interesting..."]
  }

  /** A reaction's state change: only the mood, and only to that reaction's mood. */
  function Reacted(m: MasterData, r: Reaction): (n: MasterData)
    ensures n.mood == MoodOf(r) && n.dialogue == m.dialogue && n.animating == m.animating
  {
    m.(mood := MoodOf(r))
  }

  /** Every reaction leaves the game master in a mood other than neutral or amused, and each in its own. */
  lemma ReactionMoodsDistinct(r1: Reaction, r2: Reaction, m: MasterData)
    ensures Reacted(m, r1).mood != Neutral && Reacted(m, r1).mood != Amused
    ensures Reacted(m, r1).mood == Reacted(m, r2).mood <==> r1 == r2
  {
  }

  /** Reacting twice in the same way is the same as reacting once. */
  lemma ReactIdempotent(m: MasterData, r: Reaction)
    ensures Reacted(Reacted(m, r), r) == Reacted(m, r)
  {
  }

  /** `GameMaster`: the same state updated in place. */
  class GameMaster {
    var mood: Mood
    var dialogue: string
    var animating: bool

    function Data(): MasterData
      reads this
    {
      MasterData(mood, dialogue, animating)
    }

    constructor()
      ensures Data() == NewMaster()
    {
      mood := Neutral;
      animating := false;
      dialogue := Welcome;
    }

    /** `setDialogue` always replaces the line. */
    method SetDialogue(d: string)
      modifies this
      ensures Data() == old(Data()).(dialogue := d)
    {
      dialogue := d;
    }

    /** `setMood` changes (and announces) the mood only when it differs. */
    method SetMood(md: Mood) returns (changed: bool)
      modifies this
      ensures changed <==> old(mood) != md
      ensures Data() == old(Data()).(mood := md)
    {
      changed := mood != md;
      if changed {
        mood := md;
      }
    }

    /** The shared shape of the four reactions: set the mood, return the picked line. */
    method React(r: Reaction, pick: Pick) returns (line: string)
      modifies this
      ensures Data() == Reacted(old(Data()), r)
      ensures line == Lines(r)[pick] && line in Lines(r)
    {
      var _ := SetMood(MoodOf(r));
      line := Lines(r)[pick];
    }

    method ReactToCorrectAnswer(pick: Pick) returns (line: string)
      modifies this
      ensures Data() == Reacted(old(Data()), CorrectAnswer) && mood == Impressed
      ensures line == Lines(CorrectAnswer)[pick] && line in Lines(CorrectAnswer)
    {
      line := React(CorrectAnswer, pick);
    }

    method ReactToWrongAnswer(pick: Pick) returns (line: string)
      modifies this
      ensures Data() == Reacted(old(Data()), WrongAnswer) && mood == Angry
      ensures line == Lines(WrongAnswer)[pick] && line in Lines(WrongAnswer)
    {
      line := React(WrongAnswer, pick);
    }

    method ReactToLowHealth(pick: Pick) returns (line: string)
      modifies this
      ensures Data() == Reacted(old(Data()), LowHealth) && mood == Menacing
      ensures line == Lines(LowHealth)[pick] && line in Lines(LowHealth)
    {
      line := React(LowHealth, pick);
    }

    method ReactToHighScore(pick: Pick) returns (line: string)
      modifies this
      ensures Data() == Reacted(old(Data()), HighScore) && mood == Satisfied
      ensures line == Lines(HighScore)[pick] && line in Lines(HighScore)
    {
      line := React(HighScore, pick);
    }

    /** `startAnimation` acts (and announces) only when not already animating. */
    method StartAnimation() returns (changed: bool)
      modifies this
      ensures changed <==> !old(animating)
      ensures Data() == old(Data()).(animating := true)
    {
      changed := !animating;
      if changed {
        animating := true;
      }
    }

    /** `stopAnimation` acts (and announces) only when animating. */
    method StopAnimation() returns (changed: bool)
      modifies this
      ensures changed <==> old(animating)
      ensures Data() == old(Data()).(animating := false)
    {
      changed := animating;
      if changed {
        animating := false;
      }
    }
  }
}
