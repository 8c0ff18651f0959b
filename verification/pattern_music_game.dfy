/** PatternMusicGame (frontend/src/pages/Student/AiForAll/Kids/PatternMusicGame.jsx):
    five clap/pause rhythms, each shown and then repeated tap by tap. The
    taps are locked once the entry has the rhythm's length; the entry then
    scores when it equals the rhythm, and 800 ms later the next rhythm is
    shown, or after the fifth the result with five coins for four or more
    correct. That delayed step is the `Advance` event here. */
module PatternMusicGame {
  import opened Common

  datatype Beat = Clap | Pause

  const Patterns: seq<seq<Beat>> := [
    [Clap, Clap, Pause],
    [Clap, Pause, Clap],
    [Clap, Clap, Clap, Pause],
    [Pause, Clap, Clap],
    [Clap, Pause, Clap, Pause]]

  datatype PatternState = PatternState(current: nat, entry: seq<Beat>, showPattern: bool,
                                       score: nat, coins: int, showResult: bool)

  const Initial := PatternState(0, [], true, 0, 0, false)

  /** The entry is complete (and the taps locked) once it has the rhythm's
      length. */
  predicate Complete(s: PatternState)
    requires s.current < |Patterns|
  {
    |s.entry| == |Patterns[s.current]|
  }

  /** `JSON.stringify(entry) === JSON.stringify(pattern)`: the same beats in
      the same order. */
  predicate SameRhythm(entry: seq<Beat>, pattern: seq<Beat>)
  {
    |entry| == |pattern| && forall i :: 0 <= i < |entry| ==> entry[i] == pattern[i]
  }

  /** The reachable states: the entry never longer than its rhythm and empty
      while the rhythm is shown, one point at most per rhythm, no coins
      before the result and the award rule after it. */
  ghost predicate Valid(s: PatternState)
  {
    && s.current < |Patterns|
    && |s.entry| <= |Patterns[s.current]|
    && (s.showPattern ==> s.entry == [])
    && (!s.showResult ==> s.coins == 0 && s.score <= s.current + (if Complete(s) then 1 else 0))
    && (s.showResult ==> s.current == |Patterns| - 1 && s.score <= |Patterns|
                         && s.coins == (if s.score >= 4 then 5 else 0))
  }

  /** "Start repeating": the rhythm is hidden and the taps appear. */
  function StartedRepeating(s: PatternState): (t: PatternState)
    requires Valid(s) && !s.showResult && s.showPattern
    ensures Valid(t) && !t.showPattern && t.entry == [] && t.score == s.score
  {
    s.(showPattern := false)
  }

  /** `handleClapPause`: the beat is appended; the tap that completes the
      entry scores exactly when the entry is the rhythm. */
  function Tapped(s: PatternState, b: Beat): (t: PatternState)
    requires Valid(s) && !s.showResult && !s.showPattern && !Complete(s)
    ensures Valid(t) && t.entry == s.entry + [b] && t.current == s.current
    ensures t.score == s.score + (if Complete(t) && SameRhythm(t.entry, Patterns[s.current]) then 1 else 0)
  {
    var entry := s.entry + [b];
    if |entry| == |Patterns[s.current]| && entry == Patterns[s.current] then
      s.(entry := entry, score := s.score + 1)
    else
      s.(entry := entry)
  }

  /** The delayed step after a complete entry: the next rhythm, shown, with
      an empty entry; or after the last one the result, with five coins
      exactly for four or more correct rhythms and the score unchanged. */
  function Advanced(s: PatternState): (t: PatternState)
    requires Valid(s) && !s.showResult && Complete(s)
    ensures Valid(t) && t.score == s.score
    ensures s.current + 1 < |Patterns| ==> (t.current == s.current + 1 && t.entry == [] && t.showPattern && !t.showResult)
    ensures s.current + 1 == |Patterns| ==> (t.showResult && (t.coins == 5 <==> s.score >= 4))
  {
    if s.current < |Patterns| - 1 then
      s.(current := s.current + 1, entry := [], showPattern := true)
    else
      s.(coins := if s.score >= 4 then 5 else s.coins, showResult := true)
  }

  /** Passing (next and game over enabled at `score >= 4`) comes with the
      five coins, and the score shown is at most the five rhythms. */
  lemma PassedWithCoins(s: PatternState)
    requires Valid(s) && s.showResult
    ensures s.score >= 4 <==> s.coins == 5
    ensures s.score <= 5
  {
  }

  // ----------------------------------------------------------- as written

  /** The delayed step as written: the completing tap has already added its
      point, and the last rhythm's step adds it once more, while the coin
      test counts it once. */
  function AdvancedAsWritten(s: PatternState): (t: PatternState)
    requires Valid(s) && !s.showResult && Complete(s)
    ensures s.current + 1 == |Patterns| && s.entry == Patterns[s.current] ==> t.score == s.score + 1
  {
    var hit := s.entry == Patterns[s.current];
    if s.current < |Patterns| - 1 then
      s.(current := s.current + 1, entry := [], showPattern := true)
    else
      s.(coins := if s.score >= 4 then 5 else s.coins,
         score := s.score + (if hit then 1 else 0),
         showResult := true)
  }

  /** Three correct rhythms, the last among them: no coins, yet the score
      shown is four and "next" is enabled. Four correct with the last one:
      "5 out of 5". */
  lemma PatternDoubleCount()
    ensures var t := AdvancedAsWritten(PatternState(4, Patterns[4], false, 3, 0, false));
            t.showResult && t.score == 4 && t.coins == 0
    ensures AdvancedAsWritten(PatternState(4, Patterns[4], false, 4, 0, false)).score == 5
  {
  }

  /** The game in play. */
  class PatternGame {
    var current: nat
    var entry: seq<Beat>
    var showPattern: bool
    var score: nat
    var coins: int
    var showResult: bool

    function State(): PatternState
      reads this
    {
      PatternState(current, entry, showPattern, score, coins, showResult)
    }

    constructor()
      ensures State() == Initial && Valid(State())
    {
      current, entry, showPattern, score, coins, showResult := 0, [], true, 0, 0, false;
    }

    method StartRepeating()
      requires Valid(State()) && !showResult && showPattern
      modifies this
      ensures State() == StartedRepeating(old(State())) && Valid(State())
    {
      showPattern := false;
    }

    /** A clap or pause button; both are disabled once the entry is complete. */
    method Tap(b: Beat)
      requires Valid(State()) && !showResult && !showPattern && |entry| < |Patterns[current]|
      modifies this
      ensures State() == Tapped(old(State()), b) && Valid(State())
    {
      entry := entry + [b];
      if |entry| == |Patterns[current]| && entry == Patterns[current] {
        score := score + 1;
      }
    }

    method Advance()
      requires Valid(State()) && !showResult && |entry| == |Patterns[current]|
      modifies this
      ensures State() == Advanced(old(State())) && Valid(State())
    {
      if current < |Patterns| - 1 {
        current := current + 1;
        entry := [];
        showPattern := true;
      } else {
        if score >= 4 {
          coins := 5;
        }
        showResult := true;
      }
    }

    /** `handleTryAgain`: everything back to the first rhythm, shown. */
    method TryAgain()
      modifies this
      ensures State() == Initial && Valid(State())
    {
      current, entry, showPattern, score, coins, showResult := 0, [], true, 0, 0, false;
    }
  }
}
