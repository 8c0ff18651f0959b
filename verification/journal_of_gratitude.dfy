/** JournalOfGratitude
    (frontend/src/pages/Student/MoralValues/Kids/JournalOfGratitude.jsx): the
    player names a person and a reason; the entry is accepted, with five
    coins, when the trimmed name has at least three characters and the
    trimmed reason at least five. */
module JournalOfGratitude {
  import opened Common

  datatype GratitudeState = GratitudeState(person: string, reason: string, showResult: bool, coins: int)

  const Initial := GratitudeState("", "", false, 0)

  const MinPerson := 3
  const MinReason := 5

  /** The submit button's `disabled` expression. */
  predicate SubmitDisabled(person: string, reason: string)
  {
    |Trim(person)| < MinPerson || |Trim(reason)| < MinReason
  }

  /** The `maxLength` of the two text fields. */
  const MaxPerson := 50
  const MaxReason := 100

  ghost predicate Valid(s: GratitudeState)
  {
    && |s.person| <= MaxPerson && |s.reason| <= MaxReason
    && (s.showResult <==> s.coins == 5)
    && (!s.showResult ==> s.coins == 0)
    && (s.showResult ==> !SubmitDisabled(s.person, s.reason))
  }

  /** The two text fields' change handlers; the fields accept at most 50
      and 100 characters. */
  function Edited(s: GratitudeState, person: string, reason: string): (t: GratitudeState)
    requires Valid(s) && !s.showResult
    requires |person| <= MaxPerson && |reason| <= MaxReason
    ensures Valid(t) && !t.showResult && t.person == person && t.reason == reason
  {
    s.(person := person, reason := reason)
  }

  /** `handleSubmit`: accepted (five coins, result shown) exactly when the
      button is enabled; otherwise nothing changes. */
  function Submitted(s: GratitudeState): (t: GratitudeState)
    requires Valid(s) && !s.showResult
    ensures Valid(t) && t.person == s.person && t.reason == s.reason
    ensures t.showResult <==> !SubmitDisabled(s.person, s.reason)
    ensures t.showResult ==> t.coins == 5
    ensures !t.showResult ==> t == s
  {
    if |Trim(s.person)| >= MinPerson && |Trim(s.reason)| >= MinReason then
      s.(coins := 5, showResult := true)
    else s
  }

  /** The shown sentence, with the fields as typed (untrimmed): it opens with
      the fixed words, then the person, then " for " and the reason. This is
      the text the preview and the result screen print between double
      quotes. */
  function FullEntry(person: string, reason: string): (r: string)
    ensures |r| == 16 + |person| + 5 + |reason|
    ensures r[..16] == "Today I thanked "
    ensures r[16..16 + |person|] == person
    ensures r[16 + |person|..21 + |person|] == " for "
    ensures r[21 + |person|..] == reason
  {
    "Today I thanked " + person + " for " + reason
  }

  /** An entry with blanks around the name is accepted like the bare name,
      and it is shown with the blanks. */
  lemma PaddedNameAccepted(person: string, reason: string)
    requires !SubmitDisabled(person, reason)
    ensures !SubmitDisabled(" " + person, reason)
    ensures FullEntry(" " + person, reason)[16] == ' '
  {
    assert TrimStart(" " + person) == TrimStart(person);
  }

  class Gratitude {
    var person: string
    var reason: string
    var showResult: bool
    var coins: int

    function State(): GratitudeState
      reads this
    {
      GratitudeState(person, reason, showResult, coins)
    }

    constructor()
      ensures State() == Initial && Valid(State())
    {
      person, reason, showResult, coins := "", "", false, 0;
    }

    method Edit(p: string, r: string)
      requires Valid(State()) && !showResult
      requires |p| <= MaxPerson && |r| <= MaxReason
      modifies this
      ensures State() == Edited(old(State()), p, r) && Valid(State())
    {
      person, reason := p, r;
    }

    method Submit()
      requires Valid(State()) && !showResult
      modifies this
      ensures State() == Submitted(old(State())) && Valid(State())
    {
      if |Trim(person)| >= MinPerson && |Trim(reason)| >= MinReason {
        coins := 5;
        showResult := true;
      }
    }
  }
}
