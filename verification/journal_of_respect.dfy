/** JournalOfRespect (frontend/src/pages/Student/CRGC/Kids/JournalOfRespect.jsx):
    one entry, accepted with five coins when its trimmed text has at least
    five characters. */
module JournalOfRespect {
  import opened Common

  datatype RespectState = RespectState(entry: string, showResult: bool, coins: int)

  const Initial := RespectState("", false, 0)

  const MinLength := 5

  /** The submit button's `disabled` expression. */
  predicate SubmitDisabled(entry: string)
  {
    |Trim(entry)| < MinLength
  }

  ghost predicate Valid(s: RespectState)
  {
    && (s.showResult <==> s.coins == 5)
    && (!s.showResult ==> s.coins == 0)
    && (s.showResult ==> !SubmitDisabled(s.entry))
  }

  /** The text area's change handler. */
  function Edited(s: RespectState, text: string): (t: RespectState)
    requires Valid(s) && !s.showResult
    ensures Valid(t) && !t.showResult && t.entry == text
  {
    s.(entry := text)
  }

  /** `handleSubmit`: accepted (five coins, result shown) exactly when the
      button is enabled; otherwise nothing changes. */
  function Submitted(s: RespectState): (t: RespectState)
    requires Valid(s) && !s.showResult
    ensures Valid(t) && t.entry == s.entry
    ensures t.showResult <==> !SubmitDisabled(s.entry)
    ensures !t.showResult ==> t == s
  {
    if |Trim(s.entry)| >= MinLength then s.(coins := 5, showResult := true) else s
  }

  /** The shown sentence, with the entry as typed: the text the result
      screen prints between double quotes (the quotes are literal page text
      around it). */
  function Shown(entry: string): (r: string)
    ensures |r| == 26 + |entry|
    ensures r[..26] == "I showed respect today by " && r[26..] == entry
  {
    "I showed respect today by " + entry
  }

  /** The sentence shows the entry as typed, not trimmed: an accepted entry
      with a blank before it is accepted too, and the sentence keeps the
      blank. */
  lemma AcceptedShownUntrimmed(s: RespectState)
    requires Valid(s) && !s.showResult && !SubmitDisabled(s.entry)
    ensures var t := Submitted(s.(entry := " " + s.entry));
            t.showResult && Shown(t.entry)[26] == ' ' && Shown(t.entry)[27..] == s.entry
  {
    assert TrimStart(" " + s.entry) == TrimStart(s.entry);
    assert (" " + s.entry)[1..] == s.entry;
  }

  /** An entry of white space only is never accepted, however long. */
  lemma BlankNeverAccepted(entry: string)
    requires forall i :: 0 <= i < |entry| ==> IsWhitespace(entry[i])
    ensures SubmitDisabled(entry)
  {
    TrimEmpty(entry);
  }

  class Respect {
    var entry: string
    var showResult: bool
    var coins: int

    function State(): RespectState
      reads this
    {
      RespectState(entry, showResult, coins)
    }

    constructor()
      ensures State() == Initial && Valid(State())
    {
      entry, showResult, coins := "", false, 0;
    }

    method Edit(text: string)
      requires Valid(State()) && !showResult
      modifies this
      ensures State() == Edited(old(State()), text) && Valid(State())
    {
      entry := text;
    }

    method Submit()
      requires Valid(State()) && !showResult
      modifies this
      ensures State() == Submitted(old(State())) && Valid(State())
    {
      if |Trim(entry)| >= MinLength {
        coins := 5;
        showResult := true;
      }
    }
  }
}
