/** MiniJournal (frontend/src/pages/Student/UVLS/Kids/MiniJournal.jsx): the
    player picks one of three prompts, then either picks one of the prompt's
    sentence starters or types an entry; submitting a non-blank entry gives
    three coins and shows the result. The 500 ms pause before the result
    takes effect at once here. */
module MiniJournal {
  import opened Common

  datatype Prompt = Prompt(id: nat, text: string, starters: seq<string>)

  const Prompts: seq<Prompt> := [
    Prompt(1, "I helped by...", [
      "sharing my toys with a friend", "helping someone pick up their things",
      "being kind to someone who was sad", "listening to my friend's problem"]),
    Prompt(2, "I was kind when...", [
      "I said nice words to someone", "I included everyone in my game",
      "I helped my teacher clean up", "I shared my snack"]),
    Prompt(3, "Someone needed help and I...", [
      "asked if they were okay", "offered to help them", "told a teacher", "stayed with them"])]

  datatype JournalState = JournalState(prompt: nat, entry: string, sentence: string, showResult: bool, coins: int)

  const Initial := JournalState(0, "", "", false, 0)

  /** The entry can be submitted (and the button is enabled) when it is not
      all white space. */
  predicate CanSubmit(entry: string)
  {
    Trim(entry) != ""
  }

  /** The reachable states: a prompt of the three, a picked sentence is the
      entry, and the result comes with the three coins for a non-blank
      entry. */
  ghost predicate Valid(s: JournalState)
  {
    && s.prompt < |Prompts|
    && (s.sentence != "" ==> s.entry == s.sentence)
    && (s.showResult <==> s.coins == 3)
    && (s.showResult ==> CanSubmit(s.entry))
    && (!s.showResult ==> s.coins == 0)
  }

  /** `handlePromptChange`: another prompt, with the entry and the picked
      sentence cleared. */
  function PromptChanged(s: JournalState, index: nat): (t: JournalState)
    requires Valid(s) && !s.showResult && index < |Prompts|
    ensures Valid(t) && t.prompt == index && t.entry == "" && t.sentence == ""
  {
    s.(prompt := index, entry := "", sentence := "")
  }

  /** `handleSentenceSelect`: the starter becomes both the pick and the entry. */
  function SentenceSelected(s: JournalState, sentence: string): (t: JournalState)
    requires Valid(s) && !s.showResult && sentence in Prompts[s.prompt].starters
    ensures Valid(t) && t.prompt == s.prompt && t.sentence == sentence && t.entry == sentence
  {
    s.(sentence := sentence, entry := sentence)
  }

  /** Typing replaces the entry and drops the pick. */
  function Typed(s: JournalState, text: string): (t: JournalState)
    requires Valid(s) && !s.showResult
    ensures Valid(t) && t.prompt == s.prompt && t.entry == text && t.sentence == ""
  {
    s.(entry := text, sentence := "")
  }

  /** `handleSubmit`: a blank entry changes nothing; otherwise three coins
      and the result. */
  function Submitted(s: JournalState): (t: JournalState)
    requires Valid(s) && !s.showResult
    ensures Valid(t) && t.entry == s.entry && t.prompt == s.prompt
    ensures t.showResult <==> (exists i :: 0 <= i < |s.entry| && !IsWhitespace(s.entry[i]))
    ensures t.showResult ==> t.coins == 3
    ensures !t.showResult ==> t == s
  {
    TrimEmpty(s.entry);
    if CanSubmit(s.entry) then s.(coins := 3, showResult := true) else s
  }

  /** The game in play. */
  class Journal {
    var prompt: nat
    var entry: string
    var sentence: string
    var showResult: bool
    var coins: int

    function State(): JournalState
      reads this
    {
      JournalState(prompt, entry, sentence, showResult, coins)
    }

    constructor()
      ensures State() == Initial && Valid(State())
    {
      prompt, entry, sentence, showResult, coins := 0, "", "", false, 0;
    }

    method ChangePrompt(index: nat)
      requires Valid(State()) && !showResult && index < |Prompts|
      modifies this
      ensures State() == PromptChanged(old(State()), index) && Valid(State())
    {
      prompt, entry, sentence := index, "", "";
    }

    method SelectSentence(s: string)
      requires Valid(State()) && !showResult && s in Prompts[prompt].starters
      modifies this
      ensures State() == SentenceSelected(old(State()), s) && Valid(State())
    {
      sentence, entry := s, s;
    }

    /** The text area's change handler. */
    method Type(text: string)
      requires Valid(State()) && !showResult
      modifies this
      ensures State() == Typed(old(State()), text) && Valid(State())
    {
      entry, sentence := text, "";
    }

    method Submit()
      requires Valid(State()) && !showResult
      modifies this
      ensures State() == Submitted(old(State())) && Valid(State())
    {
      if Trim(entry) != "" {
        coins := 3;
        showResult := true;
      }
    }
  }
}
