/** The multiple-choice story and quiz games: SalaryStory and
    PocketMoneyStory (frontend/src/pages/Student/Finance/Teen/), FeelingsQuiz
    (frontend/src/pages/Student/UVLS/Kids/) and PhotoShareQuiz
    (frontend/src/pages/Student/DCOS/Kids/). Each answer appends one record
    whose correctness is read from the chosen option; after the last
    question the correct records are counted and, in the quizzes, a fixed
    coin award is given when the count reaches the pass mark. The games
    differ only in their constants, so one state machine is instantiated
    with each game's numbers. */
module ThresholdQuiz {
  import opened Common

  /** An option of a question. */
  datatype Choice = Choice(id: string, isCorrect: bool)

  /** `options.find(opt => opt.id === chosen)?.isCorrect`: the correctness
      of the first option with that id, false when there is none. */
  function IsCorrectChoice(options: seq<Choice>, chosen: string): (ok: bool)
    ensures ok ==> exists i :: 0 <= i < |options| && options[i].id == chosen && options[i].isCorrect
    ensures (forall i :: 0 <= i < |options| ==> options[i].id != chosen) ==> !ok
    ensures |options| > 0 && options[0].id == chosen ==> ok == options[0].isCorrect
  {
    if options == [] then false
    else if options[0].id == chosen then options[0].isCorrect
    else IsCorrectChoice(options[1..], chosen)
  }

  datatype AnswerRec = AnswerRec(question: nat, choice: string, isCorrect: bool)

  predicate IsRight(a: AnswerRec)
  {
    a.isCorrect
  }

  /** `answers.filter(a => a.isCorrect).length`. */
  function CorrectCount(answers: seq<AnswerRec>): (n: nat)
    ensures n <= |answers|
  {
    Count(answers, IsRight)
  }

  /** A game's constants: the number of questions, the coins added for each
      correct answer, the award set at the end (if the game has one) and the
      number of correct answers that passes. */
  datatype QuizConfig = QuizConfig(questions: nat, coinPerCorrect: int, award: Option<int>, passAt: nat)

  datatype QuizState = QuizState(current: nat, answers: seq<AnswerRec>, coins: int, showResult: bool, finalScore: nat)

  const Initial := QuizState(0, [], 0, false, 0)

  /** The coins shown with the result. */
  function FinalCoins(c: QuizConfig, finalScore: nat): int
  {
    if c.award.Some? && finalScore >= c.passAt then c.award.value else c.coinPerCorrect * finalScore
  }

  /** The states the games can reach: the answers so far, one per question in
      order, coins earned per correct answer while playing, and after the last
      question the count of correct answers and the final coins. */
  ghost predicate Valid(c: QuizConfig, s: QuizState)
  {
    && c.questions > 0
    && s.current < c.questions
    && (forall i :: 0 <= i < |s.answers| ==> s.answers[i].question == i)
    && (!s.showResult ==> |s.answers| == s.current && s.finalScore == 0
                          && s.coins == c.coinPerCorrect * CorrectCount(s.answers))
    && (s.showResult ==> |s.answers| == c.questions && s.current == c.questions - 1
                         && s.finalScore == CorrectCount(s.answers)
                         && s.coins == FinalCoins(c, s.finalScore))
  }

  /** One more answer adds one to the count exactly when it is correct. */
  lemma CorrectCountStep(answers: seq<AnswerRec>, a: AnswerRec)
    ensures CorrectCount(answers + [a]) == CorrectCount(answers) + (if a.isCorrect then 1 else 0)
  {
    assert (answers + [a])[..|answers|] == answers;
  }

  lemma MulSucc(x: int, k: int)
    ensures x * (k + 1) == x * k + x
  {
  }

  /** One answer: the record is appended, coins rise by the per-answer amount
      when it is correct, and either the next question comes or the result is
      computed. */
  function Answered(c: QuizConfig, s: QuizState, chosen: string, correct: bool): (t: QuizState)
    requires Valid(c, s) && !s.showResult
    ensures Valid(c, t)
    ensures t.answers == s.answers + [AnswerRec(s.current, chosen, correct)]
    ensures s.current + 1 < c.questions ==>
              (!t.showResult && t.current == s.current + 1
               && t.coins == s.coins + (if correct then c.coinPerCorrect else 0))
    ensures s.current + 1 == c.questions ==> t.showResult && t.finalScore == CorrectCount(t.answers)
  {
    var a := AnswerRec(s.current, chosen, correct);
    var answers := s.answers + [a];
    CorrectCountStep(s.answers, a);
    var coins := s.coins + (if correct then c.coinPerCorrect else 0);
    ghost var k := CorrectCount(s.answers);
    assert coins == c.coinPerCorrect * CorrectCount(answers) by {
      MulSucc(c.coinPerCorrect, k);
    }
    assert forall i :: 0 <= i < |answers| ==> answers[i].question == i by {
      assert answers[|s.answers|] == a;
    }
    if s.current + 1 < c.questions then
      s.(current := s.current + 1, answers := answers, coins := coins)
    else
      var score := CorrectCount(answers);
      s.(answers := answers, coins := FinalCoins(c, score), showResult := true, finalScore := score)
  }

  /** The game is passed (next enabled, game over shown) once the result is
      shown with enough correct answers. */
  predicate Passed(c: QuizConfig, s: QuizState)
  {
    s.showResult && s.finalScore >= c.passAt
  }

  /** The final score never exceeds the number of questions. */
  lemma FinalScoreBounded(c: QuizConfig, s: QuizState)
    requires Valid(c, s) && s.showResult
    ensures s.finalScore <= c.questions
  {
  }

  // ------------------------------------------------------------ the games

  /** SalaryStory and PocketMoneyStory: five questions, one coin per correct
      answer, passed with three. */
  const SalaryStory := QuizConfig(5, 1, None, 3)
  const PocketMoneyStory := QuizConfig(5, 1, None, 3)

  /** FeelingsQuiz: six questions, three coins for four or more. */
  const FeelingsQuiz := QuizConfig(6, 0, Some(3), 4)

  /** PhotoShareQuiz: six questions, three coins for 70% or more. */
  const PhotoShareQuiz := QuizConfig(6, 0, Some(3), 5)

  /** In the story games the coins equal the final score, which is at most
      five, and the game is passed exactly with three correct answers. */
  lemma StoryCoinsEqualScore(s: QuizState)
    requires Valid(SalaryStory, s) && s.showResult
    ensures s.coins == s.finalScore <= 5
    ensures Passed(SalaryStory, s) <==> s.finalScore >= 3
  {
  }

  /** In FeelingsQuiz the coins are 3 with four or more correct answers and
      otherwise stay 0. */
  lemma FeelingsAward(s: QuizState)
    requires Valid(FeelingsQuiz, s) && s.showResult
    ensures s.finalScore >= 4 ==> s.coins == 3
    ensures s.finalScore < 4 ==> s.coins == 0
  {
  }

  /** PhotoShareQuiz's two percentage tests, `correct / 6 * 100 >= 70` for the
      coins and `Math.round(correct / 6 * 100) >= 70` for passing, both mean
      five or more correct answers. */
  lemma PhotoSharePercentages(correct: nat)
    requires correct <= 6
    ensures correct * 100 >= 70 * 6 <==> correct >= PhotoShareQuiz.passAt
    ensures RoundDiv(correct * 100, 6) >= 70 <==> correct >= PhotoShareQuiz.passAt
  {
    RoundDivAtLeast(correct * 100, 6, 70);
  }

  /** While playing, the score shown is the number of correct answers so far
      (FeelingsQuiz), and it never exceeds the question number. */
  lemma RunningScore(c: QuizConfig, s: QuizState)
    requires Valid(c, s) && !s.showResult
    ensures CorrectCount(s.answers) <= s.current
  {
  }

  // ------------------------------------------------------------ the class

  /** A quiz in play. */
  class Quiz {
    const config: QuizConfig
    var current: nat
    var answers: seq<AnswerRec>
    var coins: int
    var showResult: bool
    var finalScore: nat

    function State(): QuizState
      reads this
    {
      QuizState(current, answers, coins, showResult, finalScore)
    }

    ghost predicate Ready()
      reads this
    {
      Valid(config, State())
    }

    constructor(c: QuizConfig)
      requires c.questions > 0
      ensures config == c && State() == Initial && Ready()
    {
      config := c;
      current, answers, coins, showResult, finalScore := 0, [], 0, false, 0;
    }

    /** `handleChoice` / `handleAnswer`: the options are offered only while no
        result is shown. */
    method Answer(options: seq<Choice>, chosen: string)
      requires Ready() && !showResult
      modifies this
      ensures Ready()
      ensures State() == Answered(config, old(State()), chosen, IsCorrectChoice(options, chosen))
    {
      var correct := IsCorrectChoice(options, chosen);
      ghost var t := Answered(config, State(), chosen, correct);
      ghost var prev := answers;
      answers := answers + [AnswerRec(current, chosen, correct)];
      assert answers == t.answers;
      if correct {
        coins := coins + config.coinPerCorrect;
      }
      if current < config.questions - 1 {
        current := current + 1;
        assert coins == t.coins && current == t.current && !t.showResult;
      } else {
        var count := CorrectCount(answers);
        CorrectCountStep(prev, AnswerRec(current, chosen, correct));
        MulSucc(config.coinPerCorrect, CorrectCount(prev));
        assert coins == config.coinPerCorrect * count;
        finalScore := count;
        if config.award.Some? && count >= config.passAt {
          coins := config.award.value;
        }
        showResult := true;
        assert finalScore == t.finalScore && t.showResult && current == t.current;
        assert coins == t.coins;
      }
      assert State() == t;
    }

    /** `handleTryAgain`: back to the first question with nothing recorded. */
    method TryAgain()
      requires config.questions > 0
      modifies this
      ensures State() == Initial && Ready()
    {
      current, answers, coins, showResult, finalScore := 0, [], 0, false, 0;
    }
  }
}
