/** ReflexTeenInclusion
    (frontend/src/pages/Student/CRGC/Teen/ReflexTeenInclusion.jsx): ten
    actions, each to be called inclusive or not. A choice counts when it
    equals the action's `isInclusive`, and the round then moves on; an effect
    on the round shows the next action, or at round ten ends the game with a
    score of three for seven or more correct. The 800 ms delay before the
    round moves on takes effect at once here. */
module ReflexTeenInclusion {
  import opened Common
  import RoundGame

  datatype Action = Action(text: string, isInclusive: bool)

  const Actions: seq<Action> := [
    Action("Equal Rights", true), Action("Only Some Deserve", false),
    Action("Welcome All", true), Action("Exclude Different", false),
    Action("Fair Treatment", true), Action("Discriminate", false),
    Action("Include Minorities", true), Action("Mock Differences", false),
    Action("Respect All", true), Action("Judge by Appearance", false)]

  /** The answers of the ten rounds. */
  function Key(): (k: seq<bool>)
    ensures |k| == |Actions| && forall i :: 0 <= i < |k| ==> k[i] == Actions[i].isInclusive
  {
    seq(|Actions|, i requires 0 <= i < |Actions| => Actions[i].isInclusive)
  }

  datatype ReflexState = ReflexState(round: nat, correctCount: nat, score: int, gameOver: bool,
                                     currentAction: Option<Action>)

  /** The state once the mounting effect has shown the first action. */
  const Initial := ReflexState(0, 0, 0, false, Some(Actions[0]))

  /** The round effect: the action of the round while rounds remain, and at
      round ten the end of the game with its score. */
  function RoundEffect(s: ReflexState): (t: ReflexState)
    requires s.round <= |Actions|
  {
    if s.round < |Actions| then s.(currentAction := Some(Actions[s.round]))
    else s.(gameOver := true, score := if s.correctCount >= 7 then 3 else s.score)
  }

  /** The reachable states: the action on screen is the round's, the count
      of correct choices never passes the round, and the score is set only
      at the end. */
  ghost predicate Valid(s: ReflexState)
  {
    && s.correctCount <= s.round <= |Actions|
    && (s.round < |Actions| ==> s.currentAction == Some(Actions[s.round]) && !s.gameOver && s.score == 0)
    && (s.round == |Actions| ==> s.gameOver && s.score == (if s.correctCount >= 7 then 3 else 0))
  }

  /** `handleChoice` followed by the round effect: one more round, one more
      correct choice exactly when the choice is the action's `isInclusive`. */
  function Chosen(s: ReflexState, isInclusive: bool): (t: ReflexState)
    requires Valid(s) && !s.gameOver
    ensures Valid(t)
    ensures t.round == s.round + 1
    ensures t.correctCount == s.correctCount + (if isInclusive == Actions[s.round].isInclusive then 1 else 0)
  {
    var count := s.correctCount + (if s.currentAction.value.isInclusive == isInclusive then 1 else 0);
    RoundEffect(s.(correctCount := count, round := s.round + 1))
  }

  /** A whole game: after k choices the k-th round is on, the count is the
      number of choices that matched, and after ten the game is over. */
  function Run(choices: seq<bool>): (s: ReflexState)
    requires |choices| <= |Actions|
    ensures Valid(s) && s.round == |choices|
    ensures s.correctCount == RoundGame.Matches(Key(), choices)
    ensures s.gameOver <==> |choices| == |Actions|
    decreases |choices|
  {
    if choices == [] then Initial
    else Chosen(Run(choices[..|choices| - 1]), choices[|choices| - 1])
  }

  /** Next is enabled (`gameOver && score > 0`) exactly when the game is over
      with seven or more correct choices. */
  lemma NextEnabledAtSeven(s: ReflexState)
    requires Valid(s)
    ensures (s.gameOver && s.score > 0) <==> (s.round == |Actions| && s.correctCount >= 7)
  {
  }

  /** The game in play. */
  class InclusionReflex {
    var round: nat
    var correctCount: nat
    var score: int
    var gameOver: bool
    var currentAction: Option<Action>

    function State(): ReflexState
      reads this
    {
      ReflexState(round, correctCount, score, gameOver, currentAction)
    }

    /** The state after mounting, with the first action on screen. */
    constructor()
      ensures State() == Initial && Valid(State())
    {
      round, correctCount, score, gameOver, currentAction := 0, 0, 0, false, Some(Actions[0]);
    }

    method Choose(isInclusive: bool)
      requires Valid(State()) && !gameOver
      modifies this
      ensures State() == Chosen(old(State()), isInclusive) && Valid(State())
    {
      if currentAction.value.isInclusive == isInclusive {
        correctCount := correctCount + 1;
      }
      round := round + 1;
      if round < |Actions| {
        currentAction := Some(Actions[round]);
      } else {
        gameOver := true;
        if correctCount >= 7 {
          score := 3;
        }
      }
    }
  }
}
