/** PuzzleInclusionActs (frontend/src/pages/Student/CRGC/Teen/PuzzleInclusionActs.jsx):
    three inclusive acts, each to be paired with whom it is for through a
    drop-down. Submitting shows the feedback, with five coins when every act
    has its right partner. The submit button is enabled once all three
    drop-downs have been touched, even when one is back on its empty
    choice. */
module PuzzleInclusionActs {
  import opened Common

  datatype Pair = Pair(id: nat, left: string, right: string)

  const Pairs: seq<Pair> :=
    [Pair(1, "Invite", "New Student"), Pair(2, "Listen", "Everyone"), Pair(3, "Share", "Team")]

  /** The drop-downs set keys 1 to 3. */
  predicate PairId(id: nat)
  {
    1 <= id <= 3
  }

  /** `isCorrect`: every act is matched with its right partner. */
  predicate AllRight(matches: map<nat, string>)
  {
    forall i :: 0 <= i < |Pairs| ==> Pairs[i].id in matches && matches[Pairs[i].id] == Pairs[i].right
  }

  /** The button's test, `Object.keys(matches).length === pairs.length`. */
  predicate SubmitEnabled(matches: map<nat, string>)
  {
    |matches.Keys| == |Pairs|
  }

  datatype InclusionState = InclusionState(matches: map<nat, string>, showFeedback: bool, coins: int)

  const Initial := InclusionState(map[], false, 0)

  ghost predicate Valid(s: InclusionState)
  {
    && (forall k :: k in s.matches ==> PairId(k))
    && (!s.showFeedback ==> s.coins == 0)
    && (s.showFeedback ==> s.coins == (if AllRight(s.matches) then 5 else 0))
  }

  /** `handleMatch`: only the act's own entry changes. */
  function Matched(s: InclusionState, leftId: nat, right: string): (t: InclusionState)
    requires Valid(s) && !s.showFeedback && PairId(leftId)
    ensures Valid(t) && !t.showFeedback
    ensures leftId in t.matches && t.matches[leftId] == right
    ensures forall k :: k != leftId ==> (k in t.matches <==> k in s.matches)
    ensures forall k :: k != leftId && k in s.matches ==> t.matches[k] == s.matches[k]
  {
    s.(matches := s.matches[leftId := right])
  }

  /** `handleSubmit`: the feedback is always shown, with five coins exactly
      when every act has its right partner. */
  function Submitted(s: InclusionState): (t: InclusionState)
    requires Valid(s) && !s.showFeedback
    ensures Valid(t) && t.showFeedback && t.matches == s.matches
    ensures t.coins == 5 <==> AllRight(s.matches)
  {
    s.(coins := if AllRight(s.matches) then 5 else s.coins, showFeedback := true)
  }

  /** The button is enabled exactly when all three acts have an entry, and
      "next" (at `showFeedback && coins > 0`) exactly with the coins. */
  lemma SubmitEnabledIffAllTouched(s: InclusionState)
    requires Valid(s)
    ensures SubmitEnabled(s.matches) <==> (forall i :: 0 <= i < |Pairs| ==> Pairs[i].id in s.matches)
    ensures (s.showFeedback && s.coins > 0) <==> (s.showFeedback && AllRight(s.matches))
  {
    var all: set<nat> := {1, 2, 3};
    assert s.matches.Keys <= all;
    if forall i :: 0 <= i < |Pairs| ==> Pairs[i].id in s.matches {
      assert Pairs[0].id == 1 && Pairs[1].id == 2 && Pairs[2].id == 3;
      assert s.matches.Keys == all;
    } else if SubmitEnabled(s.matches) {
      var missing :| missing in all && missing !in s.matches;
      assert s.matches.Keys <= all - {missing};
      assert |all - {missing}| == 2;
      SubsetCard(s.matches.Keys, all - {missing});
    }
  }

  lemma SubsetCard(a: set<nat>, b: set<nat>)
    requires a <= b
    ensures |a| <= |b|
  {
    if a != {} {
      var x :| x in a;
      SubsetCard(a - {x}, b - {x});
    }
  }

  /** A drop-down put back on its empty choice still counts as touched: the
      board can be submitted, and it earns nothing. */
  lemma EmptyChoiceStillSubmits()
    ensures var m := map[1 := "", 2 := "Everyone", 3 := "Team"];
            SubmitEnabled(m) && Submitted(InclusionState(m, false, 0)).coins == 0
  {
    var m := map[1 := "", 2 := "Everyone", 3 := "Team"];
    assert m.Keys == {1, 2, 3};
    assert !AllRight(m) by {
      assert Pairs[0].id == 1 && m[1] != Pairs[0].right;
    }
  }

  class InclusionActs {
    var matches: map<nat, string>
    var showFeedback: bool
    var coins: int

    function State(): InclusionState
      reads this
    {
      InclusionState(matches, showFeedback, coins)
    }

    constructor()
      ensures State() == Initial && Valid(State())
    {
      matches, showFeedback, coins := map[], false, 0;
    }

    method Match(leftId: nat, right: string)
      requires Valid(State()) && !showFeedback && PairId(leftId)
      modifies this
      ensures State() == Matched(old(State()), leftId, right) && Valid(State())
    {
      matches := matches[leftId := right];
    }

    /** The submit button, enabled only once every act has an entry. */
    method Submit()
      requires Valid(State()) && !showFeedback && SubmitEnabled(matches)
      modifies this
      ensures State() == Submitted(old(State())) && Valid(State())
    {
      if AllRight(matches) {
        coins := 5;
      }
      showFeedback := true;
    }

    /** `handleTryAgain`: no matches, no feedback, no coins. */
    method TryAgain()
      modifies this
      ensures State() == Initial && Valid(State())
    {
      matches, showFeedback, coins := map[], false, 0;
    }
  }
}
