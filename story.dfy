/**
 * The branching story of the dialogue track: fourteen authored nodes keyed
 * by id, each with narration, the game master's line, the choices shown,
 * the ids the choices lead to, an optional riddle, a health change and an
 * optional ending; and the reader's position in it (current node, visited
 * history, whether and how it ended).
 *
 * The position-changing operations are specified as functions of the node
 * map and the old position; the class `Story` performs them in place.
 * Arriving at an ending node emits `endingReached`, returned here as the
 * `Option<Ending>` of each operation.
 */
module Stories {
  import opened Options
  import opened Riddles

  datatype Ending = NoEnding | TrueFreedom | TheDeal | PartialEscape | TheLoop | DeathsEmbrace

  /**
   * A key naming one piece of authored text: a node's narration, the game
   * master's line at a node, the label of a node's k-th choice, or a
   * riddle's question, hint or story context.  Nodes carry keys and `Words`
   * gives the text, so that reasoning about the shape of the story never
   * has to look at its wording.
   */
  datatype Script =
    | Narration(node: int)
    | Speech(node: int)
    | Label(node: int, k: int)
    | Question(riddle: int)
    | Hint(riddle: int)
    | Context(riddle: int)

  /**
   * A `StoryNode`.  The riddle is the index of the node's riddle in the
   * story's riddle list (the source keeps a pointer into that list).
   */
  datatype StoryNode = StoryNode(
    id: int,
    narrative: Script,
    dialogue: Script,
    choices: seq<Script>,
    next: seq<int>,
    riddle: Option<nat>,
    healthChange: int,
    isEnding: bool,
    ending: Ending)

  type Graph = map<int, StoryNode>

  /** The reader's position: the current node id, every id arrived at, and the ending reached. */
  datatype Position = Position(current: int, visited: seq<int>, ended: bool, ending: Ending)

  /** The position of a story as constructed, before `startStory`. */
  const Unstarted: Position := Position(0, [], false, NoEnding)

  // ---------------------------------------------------------------------
  // The authored content
  // ---------------------------------------------------------------------

  /** The authored wording of every text key; keys the story does not use read as empty. */
  function Words(s: Script): string {
    match s
    case Narration(0) => "You awaken in an endless void, surrounded by swirling shadows.\n\n"
      + "A figure materializes before you - tall, cloaked in darkness, with eyes that pierce through your soul."
    case Speech(0) => "Welcome, mortal. I am the Game Master, and you are now mine.\n\n"
      + "Your previous life? A distant memory. Your future? That depends on your wit.\n\n"
      + "Solve my riddles, and perhaps you'll earn your freedom... or something else entirely."
    case Label(0, 0) => "I'll play your game"
    case Label(0, 1) => "Let me go!"
    case Label(0, 2) => "Who are you really?"
    case Narration(1) => "The Game Master's lips curl into a sinister smile."
    case Speech(1) => "Good. Let's see if you're as clever as you think.\n\n"
      + "Here's your first riddle. Fail, and you'll feel pain. Succeed, and we continue."
    case Narration(2) => "The Game Master laughs, a sound that echoes through infinity."
    case Speech(2) => "You dare question me? Such spirit... or foolishness.\n\n"
      + "Very well, let me show you the rules here."
    case Narration(3) => "The void shifts around you. You sense you're being tested for something greater."
    case Speech(3) => "Impressive. But that was merely a warmup.\n\n"
      + "Let me show you what real challenges look like."
    case Label(3, 0) => "Bring it on"
    case Label(3, 1) => "Can we talk about this?"
    case Narration(4) => "The Game Master nods approvingly."
    case Speech(4) => "Courage. I respect that. Here's a coded message - decrypt it if you can."
    case Narration(5) => "The shadows around you tighten."
    case Speech(5) => "Talk? There is no negotiation here, only survival.\n\n"
      + "Though... if you prove yourself, perhaps we can make a deal."
    case Label(5, 0) => "Fine, give me the next riddle"
    case Label(5, 1) => "A deal? Tell me more"
    case Narration(6) => "The message was clear: 'THIS IS NOT FREE'. Your escape won't be easy."
    case Speech(6) => "You're sharper than most. Now for a true test of logic."
    case Narration(7) => "The Game Master seems impressed, yet conflicted."
    case Speech(7) => "You've proven yourself worthy. Few make it this far.\n\n"
      + "I offer you a choice: Continue fighting for freedom, or join me. Become my apprentice and share in eternal power."
    case Label(7, 0) => "I want freedom, nothing else"
    case Label(7, 1) => "Tell me about this power"
    case Label(7, 2) => "I'll keep solving your riddles"
    case Narration(8) => "The Game Master's expression darkens."
    case Speech(8) => "So be it. Let's see if you can decode your way out."
    case Narration(9) => "Light begins to pierce through the darkness. Freedom is close..."
    case Speech(9) => "One final riddle. Answer correctly, and you're truly free.\n\n"
      + "Fail, and you stay here forever."
    case Narration(10) => "The Game Master extends a shadowy hand."
    case Speech(10) => "As my apprentice, you'll have power over other souls, immortality, and knowledge beyond mortal comprehension.\n\n"
      + "But you'll serve me for eternity. Do you accept?"
    case Label(10, 0) => "I accept"
    case Label(10, 1) => "No, I choose freedom"
    case Narration(11) => "The Game Master's eyes gleam with dark satisfaction."
    case Speech(11) => "Power eternal, knowledge infinite. You could be my successor one day.\n\n"
      + "But first, you must prove absolute loyalty."
    case Label(11, 0) => "Show me"
    case Label(11, 1) => "Actually, I want freedom"
    case Narration(12) => "The letter 'E'. The beginning and end of everything.\n\n"
      + "Brilliant light floods the void. The Game Master fades away, defeated by your wit."
    case Speech(12) => "You... you've actually done it. Go, then. You've earned your freedom.\n\n"
      + "But remember - few escape Death itself. You are truly exceptional."
    case Narration(13) => "Your hand touches the Game Master's. Power surges through you, dark and intoxicating."
    case Speech(13) => "Welcome, my apprentice. Your mortal life ends, but your immortal one begins.\n\n"
      + "Together, we shall test countless souls..."
    case Question(0) => "What has keys but no locks, space but no room, and you can enter but can't go inside?"
    case Hint(0) => "It's something you're using right now..."
    case Context(0) => "The Game Master tests your wit with a simple riddle..."
    case Question(1) => "Decode this message: 'GUVF VF ABG SERR'\nCipher: ROT13"
    case Hint(1) => "Each letter is shifted by 13 positions in the alphabet"
    case Context(1) => "A cryptic message appears before you..."
    case Question(2) => "Three gates: Gold, Silver, Bronze.\nGold says: 'Freedom lies behind Silver'\nSilver says: 'Freedom is not here'\nBronze says: 'Gold speaks truth'\nOnly ONE speaks truth. Which gate leads to freedom?"
    case Hint(2) => "If Bronze is true, then Gold is true - but only one can be true..."
    case Context(2) => "The Game Master presents you with three gates..."
    case Question(3) => "Convert this binary to text: 01000110 01010010 01000101 01000101"
    case Hint(3) => "8 bits = 1 ASCII character"
    case Context(3) => "Numbers dance before your eyes..."
    case Question(4) => "I am the beginning of eternity, the end of time and space.\nI am the beginning of every end, the end of every place. What am I?"
    case Hint(4) => "Look at the first and last letters..."
    case Context(4) => "The final test. Your destiny hangs in the balance..."
    case _ => ""
  }

  /** Riddle `k` of the five created by `createRiddles`, in creation order. */
  function AuthoredRiddle(k: int): (r: Riddle)
    ensures r.question == Words(Question(k)) && r.hint == Words(Hint(k)) && r.storyContext == Words(Context(k))
  {
    var r := NewRiddle().(question := Words(Question(k)), hint := Words(Hint(k)), storyContext := Words(Context(k)));
    match k
    case 0 => r.(answer := "keyboard", difficulty := Easy, damageOnFailure := 10, rewardPoints := 50)
    case 1 => r.(answer := "THIS IS NOT FREE", difficulty := Medium, kind := Cipher, damageOnFailure := 15, rewardPoints := 100)
    case 2 => r.(answer := "gold", difficulty := Hard, kind := LogicPuzzle, damageOnFailure := 20, rewardPoints := 150)
    case 3 => r.(answer := "FREE", difficulty := Medium, kind := CodeChallenge, damageOnFailure := 15, rewardPoints := 120)
    case 4 => r.(answer := "e", difficulty := Deadly, damageOnFailure := 25, rewardPoints := 200)
    case _ => r
  }

  /** Every authored riddle costs health when failed and pays points when solved; only the last is deadly. */
  lemma AuthoredRiddleStakes(k: int)
    requires 0 <= k < 5
    ensures AuthoredRiddle(k).damageOnFailure > 0 && AuthoredRiddle(k).rewardPoints > 0
    ensures AuthoredRiddle(k).difficulty == Deadly <==> k == 4
  {
  }

  /** The riddle list of a story as constructed. */
  function AuthoredRiddles(): (rs: seq<Riddle>)
    ensures |rs| == 5
    ensures forall k :: 0 <= k < 5 ==> rs[k] == AuthoredRiddle(k)
  {
    seq(5, k => AuthoredRiddle(k))
  }

  /** The keys of the first `n` choice labels of node `id`. */
  function Labels(id: int, n: nat): (ls: seq<Script>)
    ensures |ls| == n && forall k :: 0 <= k < n ==> ls[k] == Label(id, k)
  {
    seq(n, k => Label(id, k))
  }

  /** Node `id` of the fourteen built by `initializeStory`. */
  function AuthoredNode(id: int): StoryNode {
    var n, s := Narration(id), Speech(id);
    match id
    case 0 => StoryNode(0, n, s, Labels(0, 3), [1, 1, 2], None, 0, false, NoEnding)
    case 1 => StoryNode(1, n, s, [], [3], Some(0), 0, false, NoEnding)
    case 2 => StoryNode(2, n, s, [], [1], None, -10, false, NoEnding)
    case 3 => StoryNode(3, n, s, Labels(3, 2), [4, 5], None, 0, false, NoEnding)
    case 4 => StoryNode(4, n, s, [], [6], Some(1), 0, false, NoEnding)
    case 5 => StoryNode(5, n, s, Labels(5, 2), [4, 10], None, 0, false, NoEnding)
    case 6 => StoryNode(6, n, s, [], [7], Some(2), 0, false, NoEnding)
    case 7 => StoryNode(7, n, s, Labels(7, 3), [8, 11, 8], None, 0, false, NoEnding)
    case 8 => StoryNode(8, n, s, [], [9], Some(3), 0, false, NoEnding)
    case 9 => StoryNode(9, n, s, [], [12], Some(4), 0, false, NoEnding)
    case 10 => StoryNode(10, n, s, Labels(10, 2), [13, 8], None, 0, false, NoEnding)
    case 11 => StoryNode(11, n, s, Labels(11, 2), [10, 8], None, 10, false, NoEnding)
    case 12 => StoryNode(12, n, s, [], [], None, 0, true, TrueFreedom)
    case 13 => StoryNode(13, n, s, [], [], None, 0, true, TheDeal)
    case _ => StoryNode(id, n, s, [], [], None, 0, false, NoEnding)
  }

  /** The node map built by `initializeStory`: node `i` stored under key `i`, for `i` in 0..13. */
  function Authored(): (g: Graph)
    ensures forall i :: i in g <==> 0 <= i < 14
    ensures forall i :: i in g ==> g[i] == AuthoredNode(i)
  {
    map i | 0 <= i < 14 :: AuthoredNode(i)
  }

  // ---------------------------------------------------------------------
  // Operations on a position
  // ---------------------------------------------------------------------

  /** `goToNode`: an unknown id is ignored; otherwise the node becomes current and is recorded. */
  function GoTo(g: Graph, p: Position, id: int): Position {
    if id !in g then p
    else if g[id].isEnding then Position(id, p.visited + [id], true, g[id].ending)
    else p.(current := id, visited := p.visited + [id])
  }

  /** The `endingReached` signal of `goToNode`, if it emits one. */
  function GoToNotice(g: Graph, id: int): Option<Ending> {
    if id in g && g[id].isEnding then Some(g[id].ending) else None
  }

  /** `startStory`: a fresh position, then a visit to node 0. */
  function Started(g: Graph): Position {
    GoTo(g, Unstarted, 0)
  }

  /** `getCurrentNode`: the node stored under the current id, if any. */
  function CurrentNode(g: Graph, p: Position): (n: Option<StoryNode>)
    ensures n.Some? <==> p.current in g
    ensures n.Some? ==> n.value == g[p.current]
  {
    if p.current in g then Some(g[p.current]) else None
  }

  /** The id a choice leads to, when the current node exists and the index is valid for its successors. */
  function ChoiceTarget(g: Graph, p: Position, i: int): Option<int> {
    if p.current in g && 0 <= i < |g[p.current].next| then Some(g[p.current].next[i]) else None
  }

  /** `makeChoice`: the index is checked against the successor list, not the list of choices. */
  function Chosen(g: Graph, p: Position, i: int): Position {
    match ChoiceTarget(g, p, i)
    case None => p
    case Some(id) => GoTo(g, p, id)
  }

  function ChosenNotice(g: Graph, p: Position, i: int): Option<Ending> {
    match ChoiceTarget(g, p, i)
    case None => None
    case Some(id) => GoToNotice(g, id)
  }

  /** `hasRiddle`. */
  predicate HasRiddle(g: Graph, p: Position) {
    p.current in g && g[p.current].riddle.Some?
  }

  /** Every riddle index stored in a node names a riddle of the list. */
  predicate RiddlesResolve(g: Graph, rs: seq<Riddle>) {
    forall id | id in g :: RiddleResolves(g[id], rs)
  }

  predicate RiddleResolves(n: StoryNode, rs: seq<Riddle>) {
    n.riddle.Some? ==> n.riddle.value < |rs|
  }

  lemma ResolvesAt(g: Graph, rs: seq<Riddle>, id: int)
    requires RiddlesResolve(g, rs) && id in g
    ensures RiddleResolves(g[id], rs)
  {
  }

  /** `getCurrentRiddle`: the current node's riddle, if the node exists and has one. */
  function CurrentRiddle(g: Graph, rs: seq<Riddle>, p: Position): (r: Option<Riddle>)
    requires RiddlesResolve(g, rs)
    ensures r.Some? <==> HasRiddle(g, p)
    ensures r.Some? ==> r.value == rs[g[p.current].riddle.value]
  {
    if HasRiddle(g, p) then Some(rs[g[p.current].riddle.value]) else None
  }

  /** The id a solved riddle leads to: the first successor of a riddle node that has one. */
  function SolveTarget(g: Graph, p: Position, success: bool): Option<int> {
    if HasRiddle(g, p) && success && |g[p.current].next| > 0 then Some(g[p.current].next[0]) else None
  }

  /** `solveRiddle`: success at a riddle node moves to its first successor; anything else changes nothing. */
  function Solved(g: Graph, p: Position, success: bool): Position {
    match SolveTarget(g, p, success)
    case None => p
    case Some(id) => GoTo(g, p, id)
  }

  function SolvedNotice(g: Graph, p: Position, success: bool): Option<Ending> {
    match SolveTarget(g, p, success)
    case None => None
    case Some(id) => GoToNotice(g, id)
  }

  // ---------------------------------------------------------------------
  // Properties of the operations
  // ---------------------------------------------------------------------

  /**
   * `goToNode` to an unknown id changes nothing; to a known one it makes it
   * current, appends exactly that id to the history, and records the ending
   * when the node is one (announcing it).  Otherwise the ending flags stay.
   */
  lemma GoToEffect(g: Graph, p: Position, id: int)
    ensures id !in g ==> GoTo(g, p, id) == p && GoToNotice(g, id) == None
    ensures id in g ==> GoTo(g, p, id).current == id && GoTo(g, p, id).visited == p.visited + [id]
    ensures id in g && g[id].isEnding ==>
      GoTo(g, p, id).ended && GoTo(g, p, id).ending == g[id].ending && GoToNotice(g, id) == Some(g[id].ending)
    ensures id in g && !g[id].isEnding ==>
      GoTo(g, p, id).ended == p.ended && GoTo(g, p, id).ending == p.ending && GoToNotice(g, id) == None
  {
  }

  /** After `startStory` on a map whose node 0 is not an ending: at node 0, history [0], not ended. */
  lemma StartStoryState(g: Graph, p: Position)
    requires 0 in g && !g[0].isEnding
    ensures Started(g) == Position(0, [0], false, NoEnding)
  {
  }

  /**
   * `makeChoice` moves, and records a visit, exactly when the current node
   * exists, the index is within its successor list and the successor exists;
   * otherwise it changes nothing.
   */
  lemma MakeChoiceMovesIffValid(g: Graph, p: Position, i: int)
    ensures Chosen(g, p, i) != p <==>
      p.current in g && 0 <= i < |g[p.current].next| && g[p.current].next[i] in g
    ensures Chosen(g, p, i) != p ==>
      Chosen(g, p, i).current == g[p.current].next[i] &&
      Chosen(g, p, i).visited == p.visited + [g[p.current].next[i]]
  {
    if p.current in g && 0 <= i < |g[p.current].next| && g[p.current].next[i] in g {
      assert |Chosen(g, p, i).visited| == |p.visited| + 1;
    }
  }

  /**
   * `solveRiddle(true)` at a riddle node with a successor moves to its first
   * successor; a failed riddle, or a call at a node without a riddle,
   * changes nothing.
   */
  lemma SolveRiddleEffect(g: Graph, p: Position, success: bool)
    ensures !success || !HasRiddle(g, p) ==> Solved(g, p, success) == p
    ensures success && HasRiddle(g, p) && |g[p.current].next| > 0 ==>
      Solved(g, p, success) == GoTo(g, p, g[p.current].next[0])
  {
  }

  /**
   * The position invariant: the last visited id is the current one, every
   * visited id is a node, and an ended story sits on its ending node.
   */
  predicate Consistent(g: Graph, p: Position) {
    && (p.visited != [] ==> p.visited[|p.visited| - 1] == p.current)
    && (forall k :: 0 <= k < |p.visited| ==> p.visited[k] in g)
    && (p.ended ==> p.current in g && g[p.current].isEnding && p.ending == g[p.current].ending)
  }

  /** Ending nodes lead nowhere and pose no riddle. */
  predicate EndingsAreFinal(g: Graph) {
    forall id :: id in g && g[id].isEnding ==> g[id].next == [] && g[id].riddle.None?
  }

  lemma GoToConsistent(g: Graph, p: Position, id: int)
    requires Consistent(g, p) && !p.ended
    ensures Consistent(g, GoTo(g, p, id))
  {
  }

  /** Once ended, neither choices nor riddles move the story any more. */
  lemma EndedIsFinal(g: Graph, p: Position, i: int, success: bool)
    requires EndingsAreFinal(g) && Consistent(g, p) && p.ended
    ensures Chosen(g, p, i) == p && Solved(g, p, success) == p
  {
  }

  /** Every operation keeps the position invariant, on a map whose endings are final. */
  lemma OperationsKeepConsistent(g: Graph, p: Position, i: int, success: bool)
    requires EndingsAreFinal(g) && Consistent(g, p)
    ensures Consistent(g, Started(g))
    ensures Consistent(g, Chosen(g, p, i))
    ensures Consistent(g, Solved(g, p, success))
  {
    if p.ended {
      EndedIsFinal(g, p, i, success);
    } else {
      GoToConsistent(g, Unstarted, 0);
      match ChoiceTarget(g, p, i) {
        case None =>
        case Some(id) => GoToConsistent(g, p, id);
      }
      match SolveTarget(g, p, success) {
        case None =>
        case Some(id) => GoToConsistent(g, p, id);
      }
    }
  }

  // ---------------------------------------------------------------------
  // Properties of the authored story
  // ---------------------------------------------------------------------

  /** Each authored node is stored under its own id. */
  lemma AuthoredIds(id: int)
    requires id in Authored()
    ensures Authored()[id].id == id
  {
  }

  /** Every successor id in the authored story names an existing node. */
  lemma AuthoredClosed(id: int, k: int)
    requires id in Authored() && 0 <= k < |Authored()[id].next|
    ensures Authored()[id].next[k] in Authored()
  {
  }

  /**
   * Riddles sit exactly at nodes 1, 4, 6, 8 and 9, which hold riddles 0 to
   * 4 in that order, offer no choices and have a single successor.
   */
  lemma AuthoredRiddleNodes(id: int)
    requires id in Authored()
    ensures Authored()[id].riddle.Some? <==> id in {1, 4, 6, 8, 9}
    ensures Authored()[id].riddle.Some? ==>
      |Authored()[id].next| == 1 && Authored()[id].choices == [] &&
      Authored()[id].riddle.value == (if id == 1 then 0 else if id == 4 then 1 else if id == 6 then 2 else if id == 8 then 3 else 4)
  {
  }

  /** Every riddle index in the authored story names one of the five riddles. */
  lemma AuthoredRiddlesResolve()
    ensures RiddlesResolve(Authored(), AuthoredRiddles())
  {
    forall id | id in Authored()
      ensures RiddleResolves(Authored()[id], AuthoredRiddles())
    {
      AuthoredRiddleNodes(id);
    }
  }

  /** Nodes 12 (true freedom) and 13 (the deal) are the only endings; they have no successors. */
  lemma AuthoredEndings(id: int)
    requires id in Authored()
    ensures Authored()[id].isEnding <==> id == 12 || id == 13
    ensures id == 12 ==> Authored()[id].ending == TrueFreedom
    ensures id == 13 ==> Authored()[id].ending == TheDeal
    ensures Authored()[id].isEnding ==> Authored()[id].next == [] && Authored()[id].riddle.None?
  {
  }

  lemma AuthoredEndingsAreFinal()
    ensures EndingsAreFinal(Authored())
  {
    forall id | id in Authored() && Authored()[id].isEnding
      ensures Authored()[id].next == [] && Authored()[id].riddle.None?
    {
      AuthoredEndings(id);
    }
  }

  /** `startStory` on the authored story leaves it at node 0, history [0], not ended. */
  lemma AuthoredStart()
    ensures Started(Authored()) == Position(0, [0], false, NoEnding)
  {
    AuthoredEndings(0);
  }

  /**
   * Node 1 poses the first riddle and offers no choices, yet `makeChoice(0)`
   * there moves on to node 3, because the index is checked against the
   * successor list.
   */
  lemma ChoiceAtRiddleNode(p: Position)
    requires p.current == 1
    ensures |Authored()[1].choices| == 0
    ensures Chosen(Authored(), p, 0).current == 3
  {
  }

  /** `Story`: the authored node map with the position updated in place. */
  class Story {
    const nodes: Graph
    const riddles: seq<Riddle>
    var current: int
    var visited: seq<int>
    var ended: bool
    var ending: Ending

    function Pos(): Position
      reads this
    {
      Position(current, visited, ended, ending)
    }

    constructor()
      ensures nodes == Authored() && riddles == AuthoredRiddles() && Pos() == Unstarted
      ensures RiddlesResolve(nodes, riddles)
    {
      AuthoredRiddlesResolve();
      riddles := AuthoredRiddles();
      nodes := Authored();
      current, visited, ended, ending := 0, [], false, NoEnding;
    }

    method GoToNode(id: int) returns (reached: Option<Ending>)
      modifies this
      ensures Pos() == GoTo(nodes, old(Pos()), id) && reached == GoToNotice(nodes, id)
    {
      reached := None;
      if id !in nodes {
        return;
      }
      current := id;
      visited := visited + [id];
      var node := nodes[id];
      if node.isEnding {
        ended := true;
        ending := node.ending;
        reached := Some(node.ending);
      }
    }

    method StartStory() returns (reached: Option<Ending>)
      modifies this
      ensures Pos() == Started(nodes) && reached == GoToNotice(nodes, 0)
    {
      current := 0;
      visited := [];
      ended := false;
      ending := NoEnding;
      reached := GoToNode(0);
    }

    method GetCurrentNode() returns (n: Option<StoryNode>)
      ensures n.Some? <==> current in nodes
      ensures n.Some? ==> n.value == nodes[current]
    {
      n := if current in nodes then Some(nodes[current]) else None;
    }

    method MakeChoice(i: int) returns (reached: Option<Ending>)
      modifies this
      ensures Pos() == Chosen(nodes, old(Pos()), i) && reached == ChosenNotice(nodes, old(Pos()), i)
    {
      var node := GetCurrentNode();
      if node.None? || i < 0 || i >= |node.value.next| {
        return None;
      }
      reached := GoToNode(node.value.next[i]);
    }

    method HasRiddle() returns (b: bool)
      ensures b <==> current in nodes && nodes[current].riddle.Some?
    {
      var node := GetCurrentNode();
      b := node.Some? && node.value.riddle.Some?;
    }

    method GetCurrentRiddle() returns (r: Option<Riddle>)
      requires RiddlesResolve(nodes, riddles)
      ensures r == CurrentRiddle(nodes, riddles, Pos())
    {
      var node := GetCurrentNode();
      if node.Some? && node.value.riddle.Some? {
        ResolvesAt(nodes, riddles, current);
        r := Some(riddles[node.value.riddle.value]);
      } else {
        r := None;
      }
    }

    method SolveRiddle(success: bool) returns (reached: Option<Ending>)
      modifies this
      ensures Pos() == Solved(nodes, old(Pos()), success)
      ensures reached == SolvedNotice(nodes, old(Pos()), success)
    {
      var node := GetCurrentNode();
      if node.None? || node.value.riddle.None? {
        return None;
      }
      reached := None;
      if success && |node.value.next| > 0 {
        reached := GoToNode(node.value.next[0]);
      }
    }
  }
}
