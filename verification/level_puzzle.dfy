/** The one-answer level puzzles of frontend/src/pages/Student/AI/:
    SortingColors and PredictionPuzzle. Each level has one correct answer
    and a reward; the first pick locks the options, scores the reward when
    it is right and otherwise names the right answer; "next" moves to the
    following level. At the last level SortingColors starts over with a zero
    score, while PredictionPuzzle ends the game keeping its score. */
module LevelPuzzle {
  import opened Common

  datatype Level = Level(correctAnswer: string, rewardPoints: nat)

  function RewardOf(l: Level): int
  {
    l.rewardPoints
  }

  datatype Tone = Blank | Right | Wrong

  datatype Feedback = Feedback(message: string, tone: Tone)

  const NoFeedback := Feedback("", Blank)

  /** What "next" does at the last level. */
  datatype AtEnd = Restart | EndGame

  /** A game's constants: its levels, the praise for a right pick, the rule
      at the last level and whether a right pick flashes its points. */
  datatype PuzzleConfig = PuzzleConfig(levels: seq<Level>, praise: string, atEnd: AtEnd, flashes: bool)

  datatype PuzzleState = PuzzleState(index: nat, score: nat, feedback: Feedback, selected: Option<string>,
                                     locked: bool, flashPoints: Option<nat>, gameOver: bool)

  const Initial := PuzzleState(0, 0, NoFeedback, None, false, None, false)

  /** The feedback for a pick at a level. */
  function FeedbackFor(c: PuzzleConfig, level: Level, option: string): (f: Feedback)
    ensures f.message != "" || c.praise == ""
    ensures f.tone == Right <==> option == level.correctAnswer
  {
    if option == level.correctAnswer then Feedback(c.praise, Right)
    else Feedback("Wrong! The correct answer is: " + level.correctAnswer, Wrong)
  }

  /** The rewards of the first k levels. */
  function Earned(c: PuzzleConfig, k: nat): int
    requires k <= |c.levels|
  {
    SumOf(c.levels[..k], RewardOf)
  }

  /** The reachable states: the options are locked exactly when a pick is
      recorded, the feedback is the pick's, the score is at most the rewards
      of the levels answered, and the game ends only at the last level. */
  ghost predicate Valid(c: PuzzleConfig, s: PuzzleState)
  {
    && |c.levels| > 0 && c.praise != ""
    && s.index < |c.levels|
    && (s.locked <==> s.selected.Some?)
    && (!s.locked ==> s.feedback == NoFeedback && !s.gameOver)
    && (s.locked ==> s.feedback == FeedbackFor(c, c.levels[s.index], s.selected.value))
    && s.score <= Earned(c, s.index + (if s.locked then 1 else 0))
    && (s.gameOver ==> c.atEnd == EndGame && s.index == |c.levels| - 1)
    && (s.flashPoints.Some? ==> c.flashes)
  }

  /** `handleOptionClick`: nothing while locked; otherwise the pick is
      recorded and locks the options, and it adds the level's reward exactly
      when it is the right answer. */
  function Clicked(c: PuzzleConfig, s: PuzzleState, option: string): (t: PuzzleState)
    requires Valid(c, s)
    ensures Valid(c, t)
    ensures s.locked ==> t == s
    ensures !s.locked ==> t.locked && t.selected == Some(option) && t.index == s.index
    ensures !s.locked ==> t.score == s.score + (if option == c.levels[s.index].correctAnswer
                                                then c.levels[s.index].rewardPoints else 0)
    ensures !s.locked && option != c.levels[s.index].correctAnswer ==>
              t.feedback.message == "Wrong! The correct answer is: " + c.levels[s.index].correctAnswer
    ensures !s.locked && option == c.levels[s.index].correctAnswer && c.flashes ==>
              t.flashPoints == Some(c.levels[s.index].rewardPoints)
  {
    if s.locked then s
    else
      var level := c.levels[s.index];
      var right := option == level.correctAnswer;
      assert c.levels[..s.index + 1][..s.index] == c.levels[..s.index];
      s.(selected := Some(option), locked := true, feedback := FeedbackFor(c, level, option),
         score := if right then s.score + level.rewardPoints else s.score,
         flashPoints := if right && c.flashes then Some(level.rewardPoints) else s.flashPoints)
  }

  /** SortingColors' next button:
      `feedback.message && (type === 'correct' || (type === 'wrong' && isOptionDisabled))`. */
  predicate SortingNextEnabled(s: PuzzleState)
  {
    s.feedback.message != "" && (s.feedback.tone == Right || (s.feedback.tone == Wrong && s.locked))
  }

  /** PredictionPuzzle's next button: `!!feedback.message && isOptionDisabled`. */
  predicate PredictionNextEnabled(s: PuzzleState)
  {
    s.feedback.message != "" && s.locked
  }

  /** Both buttons are enabled exactly once the level has been answered. */
  lemma NextEnabledOnceAnswered(c: PuzzleConfig, s: PuzzleState)
    requires Valid(c, s)
    ensures SortingNextEnabled(s) <==> s.locked
    ensures PredictionNextEnabled(s) <==> s.locked
  {
  }

  /** `handleNextLevel`: before the last level the next one with the options
      unlocked and no feedback; at the last level either a restart from the
      first level with a zero score, or the end of the game with the score
      kept. */
  function NextLevel(c: PuzzleConfig, s: PuzzleState): (t: PuzzleState)
    requires Valid(c, s) && s.locked
    ensures Valid(c, t)
    ensures s.index + 1 < |c.levels| ==>
              (t.index == s.index + 1 && !t.locked && t.feedback == NoFeedback && t.score == s.score)
    ensures s.index + 1 == |c.levels| && c.atEnd == Restart ==>
              (t.index == 0 && t.score == 0 && !t.locked && t.feedback == NoFeedback)
    ensures s.index + 1 == |c.levels| && c.atEnd == EndGame ==> (t.gameOver && t.score == s.score)
  {
    if s.index < |c.levels| - 1 then
      assert c.levels[..s.index + 2][..s.index + 1] == c.levels[..s.index + 1];
      s.(index := s.index + 1, feedback := NoFeedback, selected := None, locked := false)
    else if c.atEnd == Restart then
      s.(index := 0, score := 0, feedback := NoFeedback, selected := None, locked := false)
    else
      s.(gameOver := true)
  }

  /** With the same reward r at every level, the first k levels earn r * k. */
  lemma {:induction false} EarnedUniform(c: PuzzleConfig, k: nat, r: nat)
    requires k <= |c.levels|
    requires forall i :: 0 <= i < |c.levels| ==> c.levels[i].rewardPoints == r
    ensures Earned(c, k) == r * k
  {
    if k > 0 {
      EarnedUniform(c, k - 1, r);
      assert c.levels[..k][..k - 1] == c.levels[..k - 1];
    }
  }

  // ------------------------------------------------------------ the games

  const SortingColors := PuzzleConfig(
    [Level("warm", 5), Level("cool", 5), Level("primary", 5), Level("secondary", 5), Level("neutral", 5)],
    "Great! Correct!", Restart, false)

  const PredictionPuzzle := PuzzleConfig(
    [Level("\U{1F31E}", 5), Level("\U{1F34E}", 5), Level("\U{1F4DA}", 5), Level("\U{1F697}", 5), Level("\U{1F319}", 5)],
    "Great! Good prediction!", EndGame, true)

  /** In both games the score never passes five points per level answered,
      so at most 25. */
  lemma ScoreAtMost25(c: PuzzleConfig, s: PuzzleState)
    requires c == SortingColors || c == PredictionPuzzle
    requires Valid(c, s)
    ensures s.score <= 5 * (s.index + (if s.locked then 1 else 0)) <= 25
  {
    EarnedUniform(c, s.index + (if s.locked then 1 else 0), 5);
  }

  /** The game in play. */
  class Puzzle {
    const config: PuzzleConfig
    var index: nat
    var score: nat
    var feedback: Feedback
    var selected: Option<string>
    var locked: bool
    var flashPoints: Option<nat>
    var gameOver: bool

    function State(): PuzzleState
      reads this
    {
      PuzzleState(index, score, feedback, selected, locked, flashPoints, gameOver)
    }

    constructor(c: PuzzleConfig)
      requires |c.levels| > 0 && c.praise != ""
      ensures config == c && State() == Initial && Valid(c, State())
    {
      config := c;
      index, score, feedback, selected, locked, flashPoints, gameOver := 0, 0, NoFeedback, None, false, None, false;
    }

    method OptionClick(option: string)
      requires Valid(config, State())
      modifies this
      ensures State() == Clicked(config, old(State()), option) && Valid(config, State())
    {
      if locked {
        return;
      }
      var level := config.levels[index];
      selected := Some(option);
      locked := true;
      feedback := FeedbackFor(config, level, option);
      if option == level.correctAnswer {
        score := score + level.rewardPoints;
        if config.flashes {
          flashPoints := Some(level.rewardPoints);
        }
      }
    }

    /** The next button, enabled once the level is answered. */
    method Next()
      requires Valid(config, State()) && locked
      modifies this
      ensures State() == NextLevel(config, old(State())) && Valid(config, State())
    {
      if index < |config.levels| - 1 {
        index := index + 1;
        feedback := NoFeedback;
        selected := None;
        locked := false;
      } else if config.atEnd == Restart {
        index, score, feedback, selected, locked := 0, 0, NoFeedback, None, false;
      } else {
        gameOver := true;
      }
    }

    /** The one-second timer that hides the flashed points. */
    method FlashExpired()
      requires Valid(config, State())
      modifies this
      ensures State() == old(State()).(flashPoints := None) && Valid(config, State())
    {
      flashPoints := None;
    }
  }
}
