/**
 * The riddle shared by both gameplay tracks: its data, the defaults a new
 * riddle starts with, and the two answer checks (exact after trimming, and
 * trimmed then lower-cased).
 */
module Riddles {

  datatype Difficulty = Easy | Medium | Hard | Deadly

  datatype Kind = TextAnswer | MultipleChoice | Cipher | LogicPuzzle | CodeChallenge

  /** The riddle's fields; the setters of the source are record updates `r.(answer := ...)`. */
  datatype Riddle = Riddle(
    question: string,
    answer: string,
    hint: string,
    choices: seq<string>,
    difficulty: Difficulty,
    kind: Kind,
    timeLimit: int,
    damageOnFailure: int,
    rewardPoints: int,
    storyContext: string)

  /** A freshly constructed riddle. */
  function NewRiddle(): (r: Riddle)
    ensures r.difficulty == Medium && r.kind == TextAnswer
    ensures r.timeLimit == 0 && r.damageOnFailure == 15 && r.rewardPoints == 100
    ensures r.question == r.answer == r.hint == r.storyContext == "" && r.choices == []
  {
    Riddle("", "", "", [], Medium, TextAnswer, 0, 15, 100, "")
  }

  /**
   * Whitespace removed by trimming: the characters for which a Qt character
   * is a space.  These are tab, line feed, vertical tab, form feed, carriage
   * return, space, next line and no-break space, and then the Unicode space,
   * line and paragraph separators: ogham space mark, the en quad to hair
   * space run, line and paragraph separator, narrow no-break space, medium
   * mathematical space and ideographic space.
   */
  predicate IsSpace(c: char) {
    '\t' <= c <= '\r' || c == ' ' || c == '\U{85}' || c == '\U{A0}' ||
    c == '\U{1680}' || '\U{2000}' <= c <= '\U{200A}' || '\U{2028}' <= c <= '\U{2029}' ||
    c == '\U{202F}' || c == '\U{205F}' || c == '\U{3000}'
  }

  predicate AllSpace(s: string) {
    forall i :: 0 <= i < |s| ==> IsSpace(s[i])
  }

  /** Number of whitespace characters at the start of `s`. */
  function LeadingSpaces(s: string): (n: nat)
    ensures n <= |s| && (n < |s| ==> !IsSpace(s[n]))
  {
    if |s| > 0 && IsSpace(s[0]) then 1 + LeadingSpaces(s[1..]) else 0
  }

  /** Number of whitespace characters at the end of `s`. */
  function TrailingSpaces(s: string): (n: nat)
    ensures n <= |s| && (n < |s| ==> !IsSpace(s[|s| - 1 - n]))
  {
    if |s| > 0 && IsSpace(s[|s| - 1]) then 1 + TrailingSpaces(s[..|s| - 1]) else 0
  }

  /** `QString::trimmed`: whitespace removed from both ends, the interior untouched. */
  function Trim(s: string): (r: string)
    ensures r == [] || (!IsSpace(r[0]) && !IsSpace(r[|r| - 1]))
  {
    var t := s[LeadingSpaces(s)..];
    t[..|t| - TrailingSpaces(t)]
  }

  /** Lower-casing of ASCII letters; every other character is left as it is. */
  function LowerChar(c: char): (d: char)
    ensures 'A' <= c <= 'Z' ==> 'a' <= d <= 'z'
    ensures !('A' <= c <= 'Z') ==> d == c
  {
    if 'A' <= c <= 'Z' then (c as int + 32) as char else c
  }

  function ToLower(s: string): (r: string)
    ensures |r| == |s|
    ensures forall i :: 0 <= i < |s| ==> r[i] == LowerChar(s[i])
  {
    seq(|s|, i requires 0 <= i < |s| => LowerChar(s[i]))
  }

  /** `Riddle::checkAnswer`. */
  predicate CheckAnswer(r: Riddle, given: string) {
    Trim(given) == Trim(r.answer)
  }

  /** `Riddle::checkAnswerCaseInsensitive`: trim first, then lower-case. */
  predicate CheckAnswerCaseInsensitive(r: Riddle, given: string) {
    ToLower(Trim(given)) == ToLower(Trim(r.answer))
  }

  // ---------------------------------------------------------------------
  // Trimming
  // ---------------------------------------------------------------------

  lemma {:induction false} LeadingAreSpaces(s: string)
    ensures forall i :: 0 <= i < LeadingSpaces(s) ==> IsSpace(s[i])
  {
    if |s| > 0 && IsSpace(s[0]) {
      LeadingAreSpaces(s[1..]);
      assert forall i :: 1 <= i < |s| ==> s[1..][i - 1] == s[i];
    }
  }

  lemma {:induction false} TrailingAreSpaces(s: string)
    ensures forall i :: |s| - TrailingSpaces(s) <= i < |s| ==> IsSpace(s[i])
  {
    if |s| > 0 && IsSpace(s[|s| - 1]) {
      var u := s[..|s| - 1];
      TrailingAreSpaces(u);
      assert forall i :: 0 <= i < |u| ==> u[i] == s[i];
    }
  }

  /** The whitespace prefix is the only prefix of spaces followed by a non-space (or the end). */
  lemma {:induction false} LeadingUnique(s: string, n: nat)
    requires n <= |s| && (forall i :: 0 <= i < n ==> IsSpace(s[i]))
    requires n < |s| ==> !IsSpace(s[n])
    ensures LeadingSpaces(s) == n
  {
    if n > 0 {
      assert IsSpace(s[0]);
      var u := s[1..];
      assert forall i :: 0 <= i < n - 1 ==> u[i] == s[i + 1];
      LeadingUnique(u, n - 1);
    }
  }

  lemma {:induction false} TrailingUnique(s: string, n: nat)
    requires n <= |s| && (forall i :: |s| - n <= i < |s| ==> IsSpace(s[i]))
    requires n < |s| ==> !IsSpace(s[|s| - 1 - n])
    ensures TrailingSpaces(s) == n
  {
    if n > 0 {
      assert IsSpace(s[|s| - 1]);
      var u := s[..|s| - 1];
      assert forall i :: |u| - (n - 1) <= i < |u| ==> u[i] == s[i];
      TrailingUnique(u, n - 1);
    }
  }

  /** Trimming only ever removes whitespace from the two ends. */
  lemma TrimIsInfix(s: string) returns (i: nat, j: nat)
    ensures i <= j <= |s| && Trim(s) == s[i..j]
    ensures AllSpace(s[..i]) && AllSpace(s[j..])
  {
    i := LeadingSpaces(s);
    var t := s[i..];
    j := |s| - TrailingSpaces(t);
    LeadingAreSpaces(s);
    TrailingAreSpaces(t);
    assert forall k :: 0 <= k < |s| - j ==> s[j..][k] == t[|t| - TrailingSpaces(t) + k];
  }

  /** A string that neither starts nor ends with whitespace is its own trim. */
  lemma NoEdgeSpaceTrims(s: string)
    requires s == [] || (!IsSpace(s[0]) && !IsSpace(s[|s| - 1]))
    ensures Trim(s) == s
  {
    if s != [] {
      assert LeadingSpaces(s) == 0 && s[0..] == s;
      assert TrailingSpaces(s) == 0;
    }
  }

  /** Trimming is idempotent. */
  lemma TrimTrimmed(s: string)
    ensures Trim(Trim(s)) == Trim(s)
  {
    NoEdgeSpaceTrims(Trim(s));
  }

  lemma LeadingPadded(pre: string, s: string)
    requires AllSpace(pre)
    ensures LeadingSpaces(pre + s) == |pre| + LeadingSpaces(s)
  {
    var w, n := pre + s, |pre| + LeadingSpaces(s);
    LeadingAreSpaces(s);
    assert forall i :: |pre| <= i < |w| ==> w[i] == s[i - |pre|];
    LeadingUnique(w, n);
  }

  lemma TrailingPadded(s: string, post: string)
    requires AllSpace(post)
    ensures TrailingSpaces(s + post) == TrailingSpaces(s) + |post|
  {
    var w, n := s + post, TrailingSpaces(s) + |post|;
    TrailingAreSpaces(s);
    assert forall i :: 0 <= i < |s| ==> w[i] == s[i];
    TrailingUnique(w, n);
  }

  /** Text after the first non-space does not change the leading count. */
  lemma LeadingAppend(s: string, post: string)
    requires LeadingSpaces(s) < |s|
    ensures LeadingSpaces(s + post) == LeadingSpaces(s)
  {
    LeadingAreSpaces(s);
    assert forall i :: 0 <= i < |s| ==> (s + post)[i] == s[i];
    LeadingUnique(s + post, LeadingSpaces(s));
  }

  /** A string of whitespace only trims to the empty string. */
  lemma TrimAllSpace(s: string)
    requires AllSpace(s)
    ensures Trim(s) == []
  {
    LeadingUnique(s, |s|);
  }

  lemma LeadingOfPadded(pre: string, s: string, post: string)
    requires AllSpace(pre) && LeadingSpaces(s) < |s|
    ensures LeadingSpaces(pre + s + post) == |pre| + LeadingSpaces(s)
    ensures (pre + s + post)[|pre| + LeadingSpaces(s)..] == s[LeadingSpaces(s)..] + post
  {
    var a := LeadingSpaces(s);
    Reassociate(pre, s, post);
    LeadingPadded(pre, s + post);
    LeadingAppend(s, post);
    DropConcat(pre, s + post, a);
    DropAppend(s, post, a);
  }

  lemma TrimEndPadded(t: string, post: string)
    requires AllSpace(post)
    ensures (t + post)[..|t + post| - TrailingSpaces(t + post)] == t[..|t| - TrailingSpaces(t)]
  {
    TrailingPadded(t, post);
    TakeAppend(t, post, |t| - TrailingSpaces(t));
  }

  // Sequence facts, stated generically so that no string function is in scope.

  lemma Reassociate<T>(x: seq<T>, y: seq<T>, z: seq<T>)
    ensures x + y + z == x + (y + z)
  {
  }

  lemma DropConcat<T>(p: seq<T>, x: seq<T>, k: nat)
    requires k <= |x|
    ensures (p + x)[|p| + k..] == x[k..]
  {
  }

  lemma DropAppend<T>(x: seq<T>, y: seq<T>, k: nat)
    requires k <= |x|
    ensures (x + y)[k..] == x[k..] + y
  {
  }

  lemma TakeAppend<T>(x: seq<T>, y: seq<T>, k: nat)
    requires k <= |x|
    ensures (x + y)[..k] == x[..k]
  {
  }

  /** A string padded with whitespace on either side trims to the same string. */
  lemma TrimPadded(pre: string, s: string, post: string)
    requires AllSpace(pre) && AllSpace(post)
    ensures Trim(pre + s + post) == Trim(s)
  {
    if LeadingSpaces(s) == |s| {
      TrimPaddedBlank(pre, s, post);
    } else {
      TrimPaddedWord(pre, s, post);
    }
  }

  lemma TrimPaddedBlank(pre: string, s: string, post: string)
    requires AllSpace(pre) && AllSpace(post) && LeadingSpaces(s) == |s|
    ensures Trim(pre + s + post) == Trim(s) == []
  {
    LeadingAreSpaces(s);
    assert AllSpace(pre + s + post);
    TrimAllSpace(pre + s + post);
    TrimAllSpace(s);
  }

  lemma TrimPaddedWord(pre: string, s: string, post: string)
    requires AllSpace(pre) && AllSpace(post) && LeadingSpaces(s) < |s|
    ensures Trim(pre + s + post) == Trim(s)
  {
    var a := LeadingSpaces(s);
    var t := s[a..];
    LeadingOfPadded(pre, s, post);
    assert (pre + s + post)[LeadingSpaces(pre + s + post)..] == t + post;
    TrimEndPadded(t, post);
  }

  // ---------------------------------------------------------------------
  // Lower-casing commutes with trimming
  // ---------------------------------------------------------------------

  /** Lower-casing never creates or removes whitespace, so the order of trim and lower-case is immaterial. */
  lemma TrimLowerCommute(s: string)
    ensures Trim(ToLower(s)) == ToLower(Trim(s))
  {
    var a := LeadingSpaces(s);
    var t := s[a..];
    var b := TrailingSpaces(t);
    LeadingLower(s);
    LowerDrop(s, a);
    TrailingLower(t);
    LowerTake(t, |t| - b);
  }

  lemma LowerDrop(s: string, k: nat)
    requires k <= |s|
    ensures ToLower(s)[k..] == ToLower(s[k..])
  {
  }

  lemma LowerTake(s: string, k: nat)
    requires k <= |s|
    ensures ToLower(s)[..k] == ToLower(s[..k])
  {
  }

  lemma LeadingLower(s: string)
    ensures LeadingSpaces(ToLower(s)) == LeadingSpaces(s)
  {
    var l := ToLower(s);
    LeadingAreSpaces(s);
    assert forall i :: 0 <= i < |s| ==> (IsSpace(l[i]) <==> IsSpace(s[i]));
    LeadingUnique(l, LeadingSpaces(s));
  }

  lemma TrailingLower(s: string)
    ensures TrailingSpaces(ToLower(s)) == TrailingSpaces(s)
  {
    var l := ToLower(s);
    TrailingAreSpaces(s);
    assert forall i :: 0 <= i < |s| ==> (IsSpace(l[i]) <==> IsSpace(s[i]));
    TrailingUnique(l, TrailingSpaces(s));
  }

  // ---------------------------------------------------------------------
  // The answer checks
  // ---------------------------------------------------------------------

  /** Whitespace added before or after the given answer never changes either verdict. */
  lemma CheckAnswerIgnoresPadding(r: Riddle, pre: string, given: string, post: string)
    requires AllSpace(pre) && AllSpace(post)
    ensures CheckAnswer(r, pre + given + post) == CheckAnswer(r, given)
    ensures CheckAnswerCaseInsensitive(r, pre + given + post) == CheckAnswerCaseInsensitive(r, given)
  {
    TrimPadded(pre, given, post);
  }

  /** An exactly matching answer also matches case-insensitively. */
  lemma ExactImpliesCaseInsensitive(r: Riddle, given: string)
    requires CheckAnswer(r, given)
    ensures CheckAnswerCaseInsensitive(r, given)
  {
  }

  /**
   * The case-insensitive check is the exact check applied to lower-cased
   * text: it accepts exactly when the lower-cased answer, trimmed, equals
   * the lower-cased canonical answer, trimmed.
   */
  lemma CaseInsensitiveIsExactOnLowered(r: Riddle, given: string)
    ensures CheckAnswerCaseInsensitive(r, given) <==>
            CheckAnswer(r.(answer := ToLower(r.answer)), ToLower(given))
  {
    TrimLowerCommute(given);
    TrimLowerCommute(r.answer);
  }

  /**
   * A word without edge whitespace, padded with whitespace, against an answer
   * without edge whitespace: the exact check compares the word with the
   * answer, the case-insensitive one their lower-cased forms.
   */
  lemma PaddedWordCheck(r: Riddle, pre: string, w: string, post: string)
    requires AllSpace(pre) && AllSpace(post)
    requires w == [] || (!IsSpace(w[0]) && !IsSpace(w[|w| - 1]))
    requires r.answer == [] || (!IsSpace(r.answer[0]) && !IsSpace(r.answer[|r.answer| - 1]))
    ensures CheckAnswer(r, pre + w + post) <==> w == r.answer
    ensures CheckAnswerCaseInsensitive(r, pre + w + post) <==> ToLower(w) == ToLower(r.answer)
  {
    CheckAnswerIgnoresPadding(r, pre, w, post);
    NoEdgeSpaceTrims(w);
    NoEdgeSpaceTrims(r.answer);
  }

  /**
   * "Keyboard" surrounded by any whitespace, such as "  Keyboard ", is
   * accepted case-insensitively for the answer "keyboard", but not exactly.
   */
  lemma KeyboardExample(pre: string, post: string)
    requires AllSpace(pre) && AllSpace(post)
    ensures CheckAnswerCaseInsensitive(NewRiddle().(answer := "keyboard"), pre + "Keyboard" + post)
    ensures !CheckAnswer(NewRiddle().(answer := "keyboard"), pre + "Keyboard" + post)
  {
    PaddedWordCheck(NewRiddle().(answer := "keyboard"), pre, "Keyboard", post);
    LowerOfKeyboard();
    assert "Keyboard"[0] != "keyboard"[0];
  }

  /** An answer typed with a trailing ideographic space (U+3000) is accepted, as trimming removes it. */
  lemma IdeographicSpaceIgnored()
    ensures CheckAnswer(NewRiddle().(answer := "keyboard"), "keyboard" + "\U{3000}")
  {
    var pad := "\U{3000}";
    assert AllSpace(pad);
    PaddedWordCheck(NewRiddle().(answer := "keyboard"), [], "keyboard", pad);
    assert [] + "keyboard" + pad == "keyboard" + pad;
  }

  lemma LowerOfKeyboard()
    ensures ToLower("Keyboard") == "keyboard"
  {
    var l := ToLower("Keyboard");
    assert l[0] == 'k' && l[1] == 'e' && l[2] == 'y' && l[3] == 'b';
    assert l[4] == 'o' && l[5] == 'a' && l[6] == 'r' && l[7] == 'd';
  }

  /** Interior whitespace is not normalised: a doubled space is a wrong answer. */
  lemma InteriorSpaceMatters()
    ensures !CheckAnswerCaseInsensitive(NewRiddle().(answer := "THIS IS NOT FREE"), "THIS  IS NOT FREE")
  {
    var a := "THIS  IS NOT FREE";
    var b := "THIS IS NOT FREE";
    NoEdgeSpaceTrims(a);
    NoEdgeSpaceTrims(b);
    assert |ToLower(Trim(a))| != |ToLower(Trim(b))|;
  }
}
