/** ComfortRoleplay (frontend/src/pages/Student/UVLS/Kids/ComfortRoleplay.jsx):
    three situations, for each of which the player picks exactly three of
    five phrases. A situation goes well when at least two of the picked
    phrases are validating; after the third, three coins are given when at
    least two situations went well. The 1.5 s pause before the next
    situation or the result takes effect at once here. */
module ComfortRoleplay {
  import opened Common

  datatype Phrase = Phrase(id: nat, validating: bool)

  datatype Vignette = Vignette(id: nat, phrases: seq<Phrase>)

  /** Every situation offers phrases 1 to 5, of which 1, 3 and 5 validate. */
  const Choices: seq<Phrase> :=
    [Phrase(1, true), Phrase(2, false), Phrase(3, true), Phrase(4, false), Phrase(5, true)]

  const Vignettes: seq<Vignette> := [Vignette(1, Choices), Vignette(2, Choices), Vignette(3, Choices)]

  const MaxPicks := 3

  /** The situations are numbered from 1 in order. */
  lemma VignetteIds(i: nat)
    requires i < |Vignettes|
    ensures Vignettes[i].id == i + 1
  {
  }

  predicate NoDup(s: seq<nat>)
  {
    forall i, j :: 0 <= i < j < |s| ==> s[i] != s[j]
  }

  /** `selectedPhrases.filter(id => id !== phraseId)`. */
  function Without(s: seq<nat>, x: nat): (r: seq<nat>)
    requires NoDup(s)
    ensures NoDup(r)
    ensures forall y :: y in r <==> y in s && y != x
    ensures x !in s ==> r == s
    ensures x in s ==> |r| == |s| - 1
  {
    if s == [] then []
    else
      var init := s[..|s| - 1];
      assert s == init + [s[|s| - 1]];
      var r := Without(init, x);
      assert s[|s| - 1] !in init;
      if s[|s| - 1] == x then r else r + [s[|s| - 1]]
  }

  /** What a confirmed situation records. */
  datatype VignetteResult = VignetteResult(vignetteId: nat, validatingCount: nat, isGood: bool)

  predicate IsGood(r: VignetteResult)
  {
    r.isGood
  }

  /** The number of situations that went well. */
  function TotalGood(results: seq<VignetteResult>): (n: nat)
    ensures n <= |results|
  {
    Count(results, IsGood)
  }

  datatype RoleplayState = RoleplayState(current: nat, selected: seq<nat>, results: seq<VignetteResult>,
                                         coins: int, showResult: bool)

  const Initial := RoleplayState(0, [], [], 0, false)

  /** The reachable states: at most three distinct phrases of the situation
      picked, one result per situation confirmed and in order, no coins
      before the result and the award rule after it. */
  ghost predicate Valid(s: RoleplayState)
  {
    && s.current < |Vignettes|
    && NoDup(s.selected) && |s.selected| <= MaxPicks
    && (forall id :: id in s.selected ==> 1 <= id <= 5)
    && (forall i :: 0 <= i < |s.results| ==> s.results[i].vignetteId == i + 1)
    && (!s.showResult ==> |s.results| == s.current && s.coins == 0)
    && (s.showResult ==> |s.results| == |Vignettes| && s.current == |Vignettes| - 1
                         && s.coins == (if TotalGood(s.results) >= 2 then 3 else 0))
  }

  /** `handlePhraseToggle` (the buttons offer phrases 1 to 5): a picked
      phrase is dropped; another is added only while fewer than three are
      picked. */
  function Toggled(s: RoleplayState, id: nat): (t: RoleplayState)
    requires Valid(s) && !s.showResult && 1 <= id <= 5
    ensures Valid(t) && t.current == s.current && t.results == s.results
    ensures id in s.selected ==> id !in t.selected && |t.selected| == |s.selected| - 1
    ensures id !in s.selected && |s.selected| < MaxPicks ==> t.selected == s.selected + [id]
    ensures id !in s.selected && |s.selected| >= MaxPicks ==> t == s
  {
    if id in s.selected then s.(selected := Without(s.selected, id))
    else if |s.selected| < MaxPicks then s.(selected := s.selected + [id])
    else s
  }

  predicate Picked(sel: seq<nat>, p: Phrase)
  {
    p.id in sel && p.validating
  }

  /** How many of the picked phrases validate. */
  function ValidatingCount(v: Vignette, sel: seq<nat>): (n: nat)
    ensures n <= |v.phrases|
  {
    Count(v.phrases, p => Picked(sel, p))
  }

  /** `handleConfirm`: nothing unless exactly three phrases are picked;
      otherwise one result is appended, good exactly with two or more
      validating phrases, and the next situation starts with nothing picked,
      or after the last the result is shown with three coins for two or more
      good situations. */
  function Confirmed(s: RoleplayState): (t: RoleplayState)
    requires Valid(s) && !s.showResult
    ensures Valid(t)
    ensures |s.selected| != MaxPicks ==> t == s
    ensures |s.selected| == MaxPicks ==> |t.results| == |s.results| + 1 && t.results[..|s.results|] == s.results
    ensures |s.selected| == MaxPicks ==>
              (t.results[|s.results|].isGood <==> ValidatingCount(Vignettes[s.current], s.selected) >= 2)
    ensures |s.selected| == MaxPicks && s.current + 1 < |Vignettes| ==>
              (t.current == s.current + 1 && t.selected == [] && !t.showResult)
    ensures |s.selected| == MaxPicks && s.current + 1 == |Vignettes| ==>
              (t.showResult && (t.coins == 3 <==> TotalGood(t.results) >= 2))
  {
    if |s.selected| != MaxPicks then s
    else
      var results := WithResult(s);
      if s.current < |Vignettes| - 1 then
        s.(current := s.current + 1, selected := [], results := results)
      else
        s.(results := results, coins := if TotalGood(results) >= 2 then 3 else s.coins, showResult := true)
  }

  /** The results with the current situation's appended: numbered in order,
      good exactly with two or more validating phrases picked. */
  function WithResult(s: RoleplayState): (results: seq<VignetteResult>)
    requires Valid(s) && !s.showResult
    ensures |results| == |s.results| + 1 && results[..|s.results|] == s.results
    ensures forall i :: 0 <= i < |results| ==> results[i].vignetteId == i + 1
    ensures results[|s.results|].isGood <==> ValidatingCount(Vignettes[s.current], s.selected) >= 2
  {
    var v := Vignettes[s.current];
    VignetteIds(s.current);
    var n := ValidatingCount(v, s.selected);
    var results := s.results + [VignetteResult(v.id, n, n >= 2)];
    assert results[..|s.results|] == s.results;
    results
  }

  /** Passing (next and game over at `totalGood >= 2`) comes with the three
      coins, and at most three results are ever recorded. */
  lemma PassedWithCoins(s: RoleplayState)
    requires Valid(s)
    ensures |s.results| <= |Vignettes|
    ensures s.showResult ==> (TotalGood(s.results) >= 2 <==> s.coins == 3)
  {
  }

  /** The game in play. */
  class Roleplay {
    var current: nat
    var selected: seq<nat>
    var results: seq<VignetteResult>
    var coins: int
    var showResult: bool

    function State(): RoleplayState
      reads this
    {
      RoleplayState(current, selected, results, coins, showResult)
    }

    constructor()
      ensures State() == Initial && Valid(State())
    {
      current, selected, results, coins, showResult := 0, [], [], 0, false;
    }

    method TogglePhrase(id: nat)
      requires Valid(State()) && !showResult && 1 <= id <= 5
      modifies this
      ensures State() == Toggled(old(State()), id) && Valid(State())
    {
      if id in selected {
        selected := Without(selected, id);
      } else if |selected| < MaxPicks {
        selected := selected + [id];
      }
    }

    method Confirm()
      requires Valid(State()) && !showResult
      modifies this
      ensures State() == Confirmed(old(State())) && Valid(State())
    {
      if |selected| != MaxPicks {
        return;
      }
      ghost var t := Confirmed(State());
      var v := Vignettes[current];
      var n := ValidatingCount(v, selected);
      results := results + [VignetteResult(v.id, n, n >= 2)];
      assert results == t.results;
      if current < |Vignettes| - 1 {
        current := current + 1;
        selected := [];
      } else {
        if TotalGood(results) >= 2 {
          coins := 3;
        }
        showResult := true;
      }
      assert State() == t;
    }

    /** `handleTryAgain`: the first situation, nothing picked or recorded. */
    method TryAgain()
      modifies this
      ensures State() == Initial && Valid(State())
    {
      current, selected, results, coins, showResult := 0, [], [], 0, false;
    }
  }
}
