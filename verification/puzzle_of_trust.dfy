/** PuzzleOfTrust (frontend/src/pages/Student/MoralValues/Kids/PuzzleOfTrust.jsx):
    two values (1 Truth, 2 Lie) are joined to two outcomes (1 Trust,
    2 Trouble) by picking a value and then an outcome. A link that reuses a
    joined value or outcome is refused; the second link shows the result,
    with five coins when both links are correct pairs. */
module PuzzleOfTrust {
  import opened Common

  datatype Link = Link(start: nat, end: nat)

  /** Truth with Trust and Lie with Trouble. */
  const CorrectPairs: seq<Link> := [Link(1, 1), Link(2, 2)]

  /** The ids of the two values and of the two outcomes. */
  predicate ItemId(id: nat)
  {
    id == 1 || id == 2
  }

  const Needed := 2

  /** `isConnected(id, type)`: some link uses the value (or outcome) id. */
  predicate IsConnected(links: seq<Link>, id: nat, isStart: bool)
  {
    exists i :: 0 <= i < |links| && (if isStart then links[i].start else links[i].end) == id
  }

  /** `correctPairs.some(...)` for one link. */
  predicate IsCorrectPair(l: Link)
  {
    l in CorrectPairs
  }

  /** `newConnections.every(...)`. */
  predicate AllCorrect(links: seq<Link>)
  {
    forall i :: 0 <= i < |links| ==> IsCorrectPair(links[i])
  }

  /** No value and no outcome is used by two links. */
  predicate OneToOne(links: seq<Link>)
  {
    forall i, j :: 0 <= i < j < |links| ==> links[i].start != links[j].start && links[i].end != links[j].end
  }

  datatype TrustState = TrustState(links: seq<Link>, selectedStart: Option<nat>, showResult: bool, coins: int)

  const Initial := TrustState([], None, false, 0)

  /** The reachable states: at most two links between the items, one-to-one,
      the result shown exactly once there are two, and five coins exactly
      when both are correct. */
  ghost predicate Valid(s: TrustState)
  {
    && |s.links| <= Needed
    && OneToOne(s.links)
    && (forall i :: 0 <= i < |s.links| ==> ItemId(s.links[i].start) && ItemId(s.links[i].end))
    && (s.selectedStart.Some? ==> ItemId(s.selectedStart.value))
    && (s.showResult <==> |s.links| == Needed)
    && s.coins == (if s.showResult && AllCorrect(s.links) then 5 else 0)
  }

  /** `handleStartClick` on a value whose button is enabled (not yet
      joined): the value becomes the pending start. */
  function StartClicked(s: TrustState, id: nat): (t: TrustState)
    requires Valid(s) && !s.showResult && ItemId(id) && !IsConnected(s.links, id, true)
    ensures Valid(t) && t.selectedStart == Some(id) && t.links == s.links
  {
    s.(selectedStart := Some(id))
  }

  /** `handleEndClick`: nothing without a pending start or when the start or
      the outcome is already joined; otherwise the link is appended, the
      pending start cleared, and the second link shows the result. */
  function EndClicked(s: TrustState, id: nat): (t: TrustState)
    requires Valid(s) && !s.showResult && ItemId(id)
    ensures Valid(t)
    ensures s.selectedStart.None? ==> t == s
    ensures (s.selectedStart.Some? && (IsConnected(s.links, s.selectedStart.value, true) || IsConnected(s.links, id, false)))
              ==> t == s
    ensures (s.selectedStart.Some? && !IsConnected(s.links, s.selectedStart.value, true) && !IsConnected(s.links, id, false))
              ==> (t.links == s.links + [Link(s.selectedStart.value, id)] && t.selectedStart.None?
                   && (t.showResult <==> |t.links| == Needed))
  {
    if s.selectedStart.None? then s
    else
      var start := s.selectedStart.value;
      if IsConnected(s.links, start, true) || IsConnected(s.links, id, false) then s
      else
        var links := s.links + [Link(start, id)];
        if |links| == Needed then
          s.(links := links, selectedStart := None, showResult := true,
             coins := if AllCorrect(links) then 5 else s.coins)
        else
          s.(links := links, selectedStart := None)
  }

  /** The five coins (and with them "next", enabled at `coins > 0`) come
      exactly when Truth is joined to Trust and Lie to Trouble. */
  lemma CoinsForTheRightPairs(s: TrustState)
    requires Valid(s) && s.showResult
    ensures s.coins == 5 <==> (Link(1, 1) in s.links && Link(2, 2) in s.links)
    ensures s.coins == 0 || s.coins == 5
  {
    var a, b := s.links[0], s.links[1];
    if AllCorrect(s.links) {
      assert IsCorrectPair(a) && IsCorrectPair(b);
      assert a.start != b.start;
    }
    if Link(1, 1) in s.links && Link(2, 2) in s.links {
      assert a == Link(1, 1) || a == Link(2, 2);
      assert b == Link(1, 1) || b == Link(2, 2);
    }
  }

  /** The game in play. */
  class Trust {
    var links: seq<Link>
    var selectedStart: Option<nat>
    var showResult: bool
    var coins: int

    function State(): TrustState
      reads this
    {
      TrustState(links, selectedStart, showResult, coins)
    }

    constructor()
      ensures State() == Initial && Valid(State())
    {
      links, selectedStart, showResult, coins := [], None, false, 0;
    }

    method StartClick(id: nat)
      requires Valid(State()) && !showResult && ItemId(id) && !IsConnected(links, id, true)
      modifies this
      ensures State() == StartClicked(old(State()), id) && Valid(State())
    {
      selectedStart := Some(id);
    }

    method EndClick(id: nat)
      requires Valid(State()) && !showResult && ItemId(id)
      modifies this
      ensures State() == EndClicked(old(State()), id) && Valid(State())
    {
      if selectedStart.None? {
        return;
      }
      var start := selectedStart.value;
      if IsConnected(links, start, true) || IsConnected(links, id, false) {
        return;
      }
      links := links + [Link(start, id)];
      selectedStart := None;
      if |links| == Needed {
        if AllCorrect(links) {
          coins := 5;
        }
        showResult := true;
      }
    }

    /** `handleTryAgain`: no links, nothing pending, no result or coins. */
    method TryAgain()
      modifies this
      ensures State() == Initial && Valid(State())
    {
      links, selectedStart, showResult, coins := [], None, false, 0;
    }
  }
}
