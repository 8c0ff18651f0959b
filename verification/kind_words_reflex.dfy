/** KindWordsReflex (frontend/src/pages/Student/DCOS/Kids/KindWordsReflex.jsx):
    fifteen words, each to be called kind or rude within a two-second timer.
    A choice or the timer running out sets `autoAdvance`, which disables the
    buttons and stops the timer until the pending advance fires; that
    advance moves to the next word with a fresh timer, or after the last word
    gives three coins for 70% or more and shows the result. The 1 s tick and
    the 300/500 ms advance are events of their own here, each taking effect
    when it fires. */
module KindWordsReflex {
  import opened Common

  /** The `isKind` answers of the fifteen words. */
  const WordIsKind: seq<bool> :=
    [true, false, true, false, true, false, true, false, true, false, true, false, true, false, true]

  const Seconds := 2

  datatype KindState = KindState(started: bool, current: nat, score: nat, coins: int,
                                 showResult: bool, timeLeft: nat, autoAdvance: bool)

  const Initial := KindState(false, 0, 0, 0, false, Seconds, false)

  /** The coins for a final score: `score / 15 * 100 >= 70`. */
  function Award(score: nat): int
  {
    if score * 100 >= 70 * |WordIsKind| then 3 else 0
  }

  /** The reachable states: the timer within its two seconds, at most one
      point per word shown (one more while a choice's advance is pending),
      no coins before the result and the award rule after it. */
  ghost predicate Valid(s: KindState)
  {
    && s.current < |WordIsKind|
    && s.timeLeft <= Seconds
    && (!s.started ==> s == Initial)
    && (!s.showResult ==> s.coins == 0 && s.score <= s.current + (if s.autoAdvance then 1 else 0))
    && (s.showResult ==> s.started && s.autoAdvance && s.current == |WordIsKind| - 1
                         && s.score <= |WordIsKind| && s.coins == Award(s.score))
  }

  /** The start button. */
  function Started(s: KindState): (t: KindState)
    requires Valid(s) && !s.started
    ensures Valid(t) && t.started && t.current == 0 && t.score == 0 && t.timeLeft == Seconds
  {
    s.(started := true)
  }

  /** The one-second timer while a word waits for an answer: the time goes
      down by one, and at zero the word is given up without a point. */
  function Ticked(s: KindState): (t: KindState)
    requires Valid(s) && s.started && !s.showResult && !s.autoAdvance
    ensures Valid(t)
    ensures t.score == s.score && t.current == s.current
    ensures s.timeLeft > 0 ==> !t.autoAdvance && t.timeLeft == s.timeLeft - 1
    ensures s.timeLeft == 0 ==> t.autoAdvance && t.timeLeft == 0
  {
    if s.timeLeft > 0 then s.(timeLeft := s.timeLeft - 1)
    else s.(autoAdvance := true)
  }

  /** `handleChoice`: the choice scores exactly when it equals the word's
      `isKind`, and the buttons lock until the advance. */
  function Chosen(s: KindState, isKind: bool): (t: KindState)
    requires Valid(s) && s.started && !s.showResult && !s.autoAdvance
    ensures Valid(t) && t.autoAdvance && !t.showResult && t.current == s.current
    ensures t.score == s.score + (if isKind == WordIsKind[s.current] then 1 else 0)
  {
    s.(score := s.score + (if isKind == WordIsKind[s.current] then 1 else 0), autoAdvance := true)
  }

  /** The pending advance: the next word with the timer back at two seconds
      and the buttons unlocked, or after the last word the result. */
  function Advanced(s: KindState): (t: KindState)
    requires Valid(s) && s.started && !s.showResult && s.autoAdvance
    ensures Valid(t) && t.score == s.score
    ensures s.current + 1 < |WordIsKind| ==>
              (t.current == s.current + 1 && t.timeLeft == Seconds && !t.autoAdvance && !t.showResult)
    ensures s.current + 1 == |WordIsKind| ==> (t.showResult && t.coins == Award(s.score))
  {
    if s.current < |WordIsKind| - 1 then
      s.(current := s.current + 1, timeLeft := Seconds, autoAdvance := false)
    else
      s.(coins := Award(s.score), showResult := true)
  }

  /** Passing (`Math.round(score / 15 * 100) >= 70`) and the coins both mean
      eleven or more correct words. */
  lemma KindWordsThreshold(s: KindState)
    requires Valid(s) && s.showResult
    ensures RoundDiv(s.score * 100, |WordIsKind|) >= 70 <==> s.score >= 11
    ensures s.coins == 3 <==> s.score >= 11
    ensures s.coins == 0 <==> s.score < 11
  {
    RoundDivAtLeast(s.score * 100, 15, 70);
  }

  /** The game in play. */
  class KindWords {
    var started: bool
    var current: nat
    var score: nat
    var coins: int
    var showResult: bool
    var timeLeft: nat
    var autoAdvance: bool

    function State(): KindState
      reads this
    {
      KindState(started, current, score, coins, showResult, timeLeft, autoAdvance)
    }

    constructor()
      ensures State() == Initial && Valid(State())
    {
      started, current, score, coins, showResult, timeLeft, autoAdvance := false, 0, 0, 0, false, Seconds, false;
    }

    method Start()
      requires Valid(State()) && !started
      modifies this
      ensures State() == Started(old(State())) && Valid(State())
    {
      started := true;
    }

    /** The timer effect firing. */
    method Tick()
      requires Valid(State()) && started && !showResult && !autoAdvance
      modifies this
      ensures State() == Ticked(old(State())) && Valid(State())
    {
      if timeLeft > 0 {
        timeLeft := timeLeft - 1;
      } else {
        autoAdvance := true;
      }
    }

    method Choose(isKind: bool)
      requires Valid(State()) && started && !showResult && !autoAdvance
      modifies this
      ensures State() == Chosen(old(State()), isKind) && Valid(State())
    {
      if WordIsKind[current] == isKind {
        score := score + 1;
      }
      autoAdvance := true;
    }

    /** The delayed advance after a choice or a timeout. */
    method Advance()
      requires Valid(State()) && started && !showResult && autoAdvance
      modifies this
      ensures State() == Advanced(old(State())) && Valid(State())
    {
      if current < |WordIsKind| - 1 {
        current := current + 1;
        timeLeft := Seconds;
        autoAdvance := false;
      } else {
        if score * 100 >= 70 * |WordIsKind| {
          coins := 3;
        }
        showResult := true;
      }
    }

    /** `handleTryAgain`: every field back to its first value, the start
        screen included. */
    method TryAgain()
      modifies this
      ensures State() == Initial && Valid(State())
    {
      started, current, score, coins, showResult, timeLeft, autoAdvance := false, 0, 0, 0, false, Seconds, false;
    }
  }
}
