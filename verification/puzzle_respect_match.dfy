/** PuzzleRespectMatch (frontend/src/pages/Student/CRGC/Kids/PuzzleRespectMatch.jsx):
    three people, each to be given one of three respectful actions from a
    drop-down. Checking counts the people given their right action and gives
    five coins for two or more. */
module PuzzleRespectMatch {
  import opened Common

  datatype Person = Person(id: nat, name: string, correct: string)

  const People: seq<Person> :=
    [Person(1, "Teacher", "listen"), Person(2, "Elder", "help"), Person(3, "Friend", "share")]

  /** `matches[person.id] === person.correct` (an absent entry is never right). */
  predicate RightFor(matches: map<nat, string>, p: Person)
  {
    p.id in matches && matches[p.id] == p.correct
  }

  /** `correctCount`: the people given their right action. */
  function CorrectCount(matches: map<nat, string>): (n: nat)
    ensures n <= |People|
    ensures n == |People| <==> forall i :: 0 <= i < |People| ==> RightFor(matches, People[i])
  {
    var right := p => RightFor(matches, p);
    CountAll(People, right);
    Count(People, right)
  }

  /** `allMatched`: every person has a non-empty choice; the check button is
      enabled exactly then. */
  predicate AllMatched(matches: map<nat, string>)
  {
    forall i :: 0 <= i < |People| ==> People[i].id in matches && matches[People[i].id] != ""
  }

  datatype MatchState = MatchState(matches: map<nat, string>, showResult: bool, coins: int)

  const Initial := MatchState(map[], false, 0)

  ghost predicate Valid(s: MatchState)
  {
    && (!s.showResult ==> s.coins == 0)
    && (s.showResult ==> s.coins == (if CorrectCount(s.matches) >= 2 then 5 else 0))
  }

  /** `handleMatch`: the person's entry is set and every other entry is
      left as it was. */
  function Matched(s: MatchState, personId: nat, actionId: string): (t: MatchState)
    requires Valid(s) && !s.showResult
    ensures Valid(t) && !t.showResult
    ensures personId in t.matches && t.matches[personId] == actionId
    ensures forall k :: k != personId ==> (k in t.matches <==> k in s.matches)
    ensures forall k :: k != personId && k in s.matches ==> t.matches[k] == s.matches[k]
  {
    s.(matches := s.matches[personId := actionId])
  }

  /** `handleCheck`: the result is always shown, with five coins exactly
      when two or more people have their right action. */
  function Checked(s: MatchState): (t: MatchState)
    requires Valid(s) && !s.showResult
    ensures Valid(t) && t.showResult && t.matches == s.matches
    ensures t.coins == 5 <==> CorrectCount(s.matches) >= 2
  {
    s.(coins := if CorrectCount(s.matches) >= 2 then 5 else s.coins, showResult := true)
  }

  /** "Next" (enabled at `showResult && correctCount >= 2`) comes exactly
      with the coins, and a board with everyone right can be checked. */
  lemma NextWithCoins(s: MatchState)
    requires Valid(s)
    ensures (s.showResult && CorrectCount(s.matches) >= 2) <==> s.coins == 5
    ensures CorrectCount(s.matches) == |People| ==> AllMatched(s.matches)
  {
    if CorrectCount(s.matches) == |People| {
      forall i | 0 <= i < |People| ensures People[i].id in s.matches && s.matches[People[i].id] != "" {
        assert RightFor(s.matches, People[i]);
      }
    }
  }

  class RespectMatch {
    var matches: map<nat, string>
    var showResult: bool
    var coins: int

    function State(): MatchState
      reads this
    {
      MatchState(matches, showResult, coins)
    }

    constructor()
      ensures State() == Initial && Valid(State())
    {
      matches, showResult, coins := map[], false, 0;
    }

    /** A person's drop-down. */
    method Match(personId: nat, actionId: string)
      requires Valid(State()) && !showResult
      modifies this
      ensures State() == Matched(old(State()), personId, actionId) && Valid(State())
    {
      matches := matches[personId := actionId];
    }

    /** The check button, enabled only once everyone has an action. */
    method Check()
      requires Valid(State()) && !showResult && AllMatched(matches)
      modifies this
      ensures State() == Checked(old(State())) && Valid(State())
    {
      if CorrectCount(matches) >= 2 {
        coins := 5;
      }
      showResult := true;
    }

    /** `handleTryAgain`: no matches, no result, no coins. */
    method TryAgain()
      modifies this
      ensures State() == Initial && Valid(State())
    {
      matches, showResult, coins := map[], false, 0;
    }
  }
}
