/** The fixed-length choice games that keep only a score: StrongPasswordReflex
    (frontend/src/pages/Student/DCOS/Kids/), RobotVisionGame and
    SelfDrivingCar (frontend/src/pages/Student/AiForAll/Kids/) and
    ImageClassifierGame (frontend/src/pages/Student/AiForAll/Teen/). Each
    round compares the player's choice with the round's answer, counts a
    match, and either moves to the next round or shows the result, where the
    games with a coin award set it once the count reaches the pass mark. The
    answer key and the numbers are each game's own; the machine is shared. */
module RoundGame {
  import opened Common

  /** A game's constants: the answer of each round, the coins added per
      correct choice, the award set at the end (if any), the number of
      correct choices that passes, and whether play starts behind a start
      screen. */
  datatype RoundConfig<T> = RoundConfig(key: seq<T>, coinPerCorrect: int, award: Option<int>,
                                        passAt: nat, startScreen: bool)

  datatype RoundState = RoundState(started: bool, current: nat, score: nat, coins: int, showResult: bool)

  /** The state on mounting and after "try again". */
  function Initial<T>(c: RoundConfig<T>): RoundState
  {
    RoundState(!c.startScreen, 0, 0, 0, false)
  }

  /** The first round in play. */
  function Started<T>(c: RoundConfig<T>): RoundState
  {
    RoundState(true, 0, 0, 0, false)
  }

  /** The coins shown with the result for a final score. */
  function FinalCoins<T>(c: RoundConfig<T>, score: nat): int
  {
    if c.award.Some? && score >= c.passAt then c.award.value else c.coinPerCorrect * score
  }

  /** The reachable states: nothing happens before the start, the score
      never passes the number of rounds played, coins follow the score while
      playing and the award rule once the result is shown. */
  ghost predicate Valid<T>(c: RoundConfig<T>, s: RoundState)
  {
    && |c.key| > 0
    && s.current < |c.key|
    && (!s.started ==> s == RoundState(false, 0, 0, 0, false))
    && (!s.showResult ==> s.score <= s.current && s.coins == c.coinPerCorrect * s.score)
    && (s.showResult ==> s.started && s.current == |c.key| - 1 && s.score <= |c.key|
                         && s.coins == FinalCoins(c, s.score))
  }

  /** One choice: it scores exactly when it equals the round's answer; then
      the next round comes, or after the last one the result. */
  function Chosen<T(==)>(c: RoundConfig<T>, s: RoundState, choice: T): (t: RoundState)
    requires Valid(c, s) && s.started && !s.showResult
    ensures Valid(c, t) && t.started
    ensures t.score == s.score + (if choice == c.key[s.current] then 1 else 0)
    ensures s.current + 1 < |c.key| ==> !t.showResult && t.current == s.current + 1
    ensures s.current + 1 == |c.key| ==> t.showResult && t.current == s.current
  {
    var hit := choice == c.key[s.current];
    var score := s.score + (if hit then 1 else 0);
    var coins := s.coins + (if hit then c.coinPerCorrect else 0);
    if s.current < |c.key| - 1 then
      s.(current := s.current + 1, score := score, coins := coins)
    else
      s.(score := score, coins := FinalCoins(c, score), showResult := true)
  }

  /** The game is passed (next and game over enabled) once the result is
      shown with enough correct choices. */
  predicate Passed<T>(c: RoundConfig<T>, s: RoundState)
  {
    s.showResult && s.score >= c.passAt
  }

  /** How many of the choices equal the answer of their round. */
  function Matches<T(==)>(key: seq<T>, choices: seq<T>): (n: nat)
    requires |choices| <= |key|
    ensures n <= |choices|
  {
    if choices == [] then 0
    else Matches(key, choices[..|choices| - 1]) + (if choices[|choices| - 1] == key[|choices| - 1] then 1 else 0)
  }

  /** A whole game played from the first round: after k choices the k-th
      round is on screen, after the last the result is shown, and the score
      is the number of choices that matched the answer key. */
  function Run<T(==)>(c: RoundConfig<T>, choices: seq<T>): (s: RoundState)
    requires |c.key| > 0 && |choices| <= |c.key|
    ensures Valid(c, s) && s.started
    ensures |choices| < |c.key| ==> !s.showResult && s.current == |choices|
    ensures |choices| == |c.key| ==> s.showResult
    ensures s.score == Matches(c.key, choices)
    decreases |choices|
  {
    if choices == [] then Started(c)
    else Chosen(c, Run(c, choices[..|choices| - 1]), choices[|choices| - 1])
  }

  /** At the end of a game the coins are the award exactly when the choices
      matching the key reach the pass mark, and the game is passed exactly
      then. */
  lemma RunOutcome<T>(c: RoundConfig<T>, choices: seq<T>)
    requires |c.key| > 0 && |choices| == |c.key|
    ensures Run(c, choices).coins == FinalCoins(c, Matches(c.key, choices))
    ensures Passed(c, Run(c, choices)) <==> Matches(c.key, choices) >= c.passAt
  {
  }

  // ------------------------------------------------------------ the games

  /** StrongPasswordReflex: twenty passwords, alternately weak and strong,
      answered behind a start screen; three coins for 70% or more. */
  const PasswordStrengths: seq<bool> :=
    [false, true, false, true, false, true, false, true, false, true,
     false, true, false, true, false, true, false, true, false, true]
  const StrongPasswordReflex := RoundConfig(PasswordStrengths, 0, Some(3), 14, true)

  /** RobotVisionGame and ImageClassifierGame: ten images, two coins per
      correct choice, passed at 70% accuracy. */
  const RobotVisionKey: seq<string> :=
    ["apple", "banana", "apple", "banana", "apple", "banana", "apple", "banana", "apple", "banana"]
  const RobotVision := RoundConfig(RobotVisionKey, 2, None, 7, false)
  const ImageClassifierKey: seq<string> :=
    ["cat", "dog", "cat", "dog", "cat", "dog", "cat", "dog", "cat", "dog"]
  const ImageClassifier := RoundConfig(ImageClassifierKey, 2, None, 7, false)

  /** SelfDrivingCar: eight signals, five coins for six or more correct
      actions. */
  const SignalActions: seq<string> := ["brake", "go", "brake", "go", "brake", "go", "brake", "go"]
  const SelfDrivingCar := RoundConfig(SignalActions, 0, Some(5), 6, false)

  /** StrongPasswordReflex's tests: `finalScore / 20 * 100 >= 70` for the
      coins and `Math.round(score / 20 * 100) >= 70` for passing, both mean
      fourteen or more; the coins are 3 exactly then and 0 otherwise. */
  lemma StrongPasswordThreshold(s: RoundState)
    requires Valid(StrongPasswordReflex, s) && s.showResult
    ensures s.score * 100 >= 70 * 20 <==> s.score >= 14
    ensures RoundDiv(s.score * 100, 20) >= 70 <==> Passed(StrongPasswordReflex, s)
    ensures s.coins == (if s.score >= 14 then 3 else 0)
    ensures s.score <= 20
  {
    RoundDivAtLeast(s.score * 100, 20, 70);
  }

  /** In the vision games a wrong choice earns nothing and a right one two
      coins, so the coins are always twice the score; the accuracy
      `Math.round(score / 10 * 100)` reaches 70 exactly with seven. */
  lemma VisionCoinsAndAccuracy(c: RoundConfig<string>, s: RoundState)
    requires c == RobotVision || c == ImageClassifier
    requires Valid(c, s)
    ensures s.coins == 2 * s.score
    ensures RoundDiv(s.score * 100, 10) == s.score * 10
    ensures s.showResult ==> (RoundDiv(s.score * 100, 10) >= 70 <==> Passed(c, s))
  {
  }

  /** SelfDrivingCar: coins are 5 exactly when six or more actions were
      right, and the score is at most eight. */
  lemma SelfDrivingCarAward(s: RoundState)
    requires Valid(SelfDrivingCar, s) && s.showResult
    ensures s.coins == (if s.score >= 6 then 5 else 0)
    ensures Passed(SelfDrivingCar, s) <==> s.coins == 5
    ensures s.score <= 8
  {
  }

  // ------------------------------------------------ SelfDrivingCar as written

  /** SelfDrivingCar's `handleChoice` as written: a correct choice queues
      `score + 1`, and on the last signal a second `score + 1` is queued
      for the same choice, so the final correct answer is counted twice in
      the score although the coin test counts it once. */
  function SelfDrivingChosenAsWritten(s: RoundState, choice: string): (t: RoundState)
    requires Valid(SelfDrivingCar, s) && s.started && !s.showResult
    ensures (s.current + 1 == |SignalActions| && choice == SignalActions[s.current]) ==> t.score == s.score + 2
  {
    var hit := choice == SignalActions[s.current];
    var score := s.score + (if hit then 1 else 0);
    if s.current < |SignalActions| - 1 then
      s.(current := s.current + 1, score := score)
    else
      s.(score := score + (if hit then 1 else 0),
         coins := if score >= 6 then 5 else s.coins,
         showResult := true)
  }

  /** With four right among the first seven signals and the last one right,
      five actions were correct: no coins are given, yet the shown score is
      six, the game counts as passed and "next" is enabled. With all eight
      right the score shown is nine of eight. */
  lemma SelfDrivingDoubleCount()
    ensures var t := SelfDrivingChosenAsWritten(RoundState(true, 7, 4, 0, false), "go");
            t.showResult && t.score == 6 && t.coins == 0 && t.score >= SelfDrivingCar.passAt
    ensures SelfDrivingChosenAsWritten(RoundState(true, 7, 7, 0, false), "go").score == 9
  {
  }

  // ------------------------------------------------------------ the class

  /** A round game in play. */
  class Rounds<T(==)> {
    const config: RoundConfig<T>
    var started: bool
    var current: nat
    var score: nat
    var coins: int
    var showResult: bool

    function State(): RoundState
      reads this
    {
      RoundState(started, current, score, coins, showResult)
    }

    ghost predicate Ready()
      reads this
    {
      Valid(config, State())
    }

    constructor(c: RoundConfig<T>)
      requires |c.key| > 0
      ensures config == c && State() == Initial(c) && Ready()
    {
      config := c;
      started, current, score, coins, showResult := !c.startScreen, 0, 0, 0, false;
    }

    /** The start button of the games that have one. */
    method Start()
      requires Ready() && !started
      modifies this
      ensures State() == Started(config) && Ready()
    {
      started := true;
    }

    /** `handleChoice`; the round advance the source delays by 300 ms takes
        effect at once. */
    method Choose(choice: T)
      requires Ready() && started && !showResult
      modifies this
      ensures State() == Chosen(config, old(State()), choice) && Ready()
    {
      var hit := choice == config.key[current];
      if hit {
        score := score + 1;
        coins := coins + config.coinPerCorrect;
      }
      if current < |config.key| - 1 {
        current := current + 1;
      } else {
        coins := FinalCoins(config, score);
        showResult := true;
      }
    }

    /** `handleTryAgain`: everything back to its first value (the start
        screen again where there is one). */
    method TryAgain()
      requires |config.key| > 0
      modifies this
      ensures State() == Initial(config) && Ready()
    {
      started, current, score, coins, showResult := !config.startScreen, 0, 0, 0, false;
    }
  }
}
