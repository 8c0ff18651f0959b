/** The logic of the student dashboard page
    (frontend/src/pages/Student/StudentDashboard.jsx): the age computed from
    the date of birth, the age gate on game types, the URL slug of a category
    label, the cards shown, the stats block and the events that update it,
    navigation, and the unwrapping of daily challenges. Dates are calendar
    triples; parsing a date string is represented by whether it succeeded. */
module StudentDashboard {
  import opened Common

  // ------------------------------------------------------------------- age

  datatype Date = Date(year: int, month: int, day: int)

  /** The date of birth as the page receives it. */
  datatype Dob = NoDob | Unparsable | Born(date: Date)

  /** Calendar order on (year, month, day). */
  predicate OnOrBefore(a: Date, b: Date)
  {
    a.year < b.year || (a.year == b.year && (a.month < b.month || (a.month == b.month && a.day <= b.day)))
  }

  /** The `n`th birthday. */
  function Birthday(dob: Date, n: int): Date
  {
    Date(dob.year + n, dob.month, dob.day)
  }

  /** `calculateUserAge`: no age for a missing or unparsable date; otherwise
      the difference in years, less one while this year's birthday is still
      ahead. The result is the number of birthdays reached: the `age`th has
      passed by `today` and the next one has not. */
  method CalculateUserAge(dob: Dob, today: Date) returns (age: Option<int>)
    ensures age.Some? <==> dob.Born?
    ensures age.Some? ==> OnOrBefore(Birthday(dob.date, age.value), today)
    ensures age.Some? ==> !OnOrBefore(Birthday(dob.date, age.value + 1), today)
  {
    if dob.NoDob? || dob.Unparsable? {
      return None;
    }
    var born := dob.date;
    var years := today.year - born.year;
    var monthDiff := today.month - born.month;
    if monthDiff < 0 || (monthDiff == 0 && today.day < born.day) {
      years := years - 1;
    }
    return Some(years);
  }

  /** `canAccessGame`: no access without an age; adult games need 18 years;
      kids, teen and any other game type are open. */
  function CanAccessGame(gameType: string, age: Option<int>): (ok: bool)
    ensures age.None? ==> !ok
    ensures age.Some? && gameType == "adults" ==> (ok <==> age.value >= 18)
    ensures age.Some? && gameType != "adults" ==> ok
  {
    if age.None? then false
    else if gameType == "kids" then true
    else if gameType == "teens" then true
    else if gameType == "adults" then age.value >= 18
    else true
  }

  /** Growing older never closes a game. */
  lemma AccessIsMonotoneInAge(gameType: string, a: int, b: int)
    requires a <= b
    ensures CanAccessGame(gameType, Some(a)) ==> CanAccessGame(gameType, Some(b))
  {
  }

  // ------------------------------------------------------------------ slug

  /** `.replace(/\s+/g, '-')`: each run of whitespace becomes one '-'
      (`inRun` says the previous character was whitespace). */
  function DashRuns(s: string, inRun: bool): (r: string)
    ensures forall i :: 0 <= i < |r| ==> !IsWhitespace(r[i])
    ensures forall i :: 0 <= i < |r| ==> r[i] == '-' || r[i] in s
    ensures (forall i :: 0 <= i < |s| ==> !IsWhitespace(s[i])) ==> r == s
  {
    if s == [] then []
    else if IsWhitespace(s[0]) then
      (if inRun then [] else "-") + DashRuns(s[1..], true)
    else [s[0]] + DashRuns(s[1..], false)
  }

  predicate Stripped(c: char)
  {
    c == '(' || c == ')' || c == '&'
  }

  /** `.replace(/[()&]/g, '')`. */
  function StripMarks(s: string): (r: string)
    ensures forall i :: 0 <= i < |r| ==> !Stripped(r[i]) && r[i] in s
    ensures (forall i :: 0 <= i < |s| ==> !Stripped(s[i])) ==> r == s
  {
    if s == [] then []
    else if Stripped(s[0]) then StripMarks(s[1..])
    else [s[0]] + StripMarks(s[1..])
  }

  predicate NoDoubleDash(s: string)
  {
    forall i :: 0 <= i < |s| - 1 ==> !(s[i] == '-' && s[i + 1] == '-')
  }

  /** `.replace(/--+/g, '-')`: each run of dashes becomes one ('afterDash'
      says the previous output character was a dash of the run). */
  function CollapseDashes(s: string, afterDash: bool): (r: string)
    ensures NoDoubleDash(r)
    ensures afterDash && |r| > 0 ==> r[0] != '-'
    ensures forall i :: 0 <= i < |r| ==> r[i] in s
    ensures NoDoubleDash(s) && !(afterDash && |s| > 0 && s[0] == '-') ==> r == s
  {
    if s == [] then []
    else if s[0] == '-' then
      if afterDash then CollapseDashes(s[1..], true)
      else
        var rest := CollapseDashes(s[1..], true);
        "-" + rest
    else [s[0]] + CollapseDashes(s[1..], false)
  }

  /** The category slug: lower-cased, whitespace runs turned into '-', the
      characters ( ) & removed, dash runs collapsed. */
  function Slug(text: string): (slug: string)
  {
    CollapseDashes(StripMarks(DashRuns(ToLower(text), false)), false)
  }

  /** A slug has no whitespace, none of ( ) &, and no two dashes in a row. */
  lemma SlugShape(text: string)
    ensures forall i :: 0 <= i < |Slug(text)| ==> !IsWhitespace(Slug(text)[i]) && !Stripped(Slug(text)[i])
    ensures NoDoubleDash(Slug(text))
  {
    var a := DashRuns(ToLower(text), false);
    var b := StripMarks(a);
    var c := CollapseDashes(b, false);
    forall i | 0 <= i < |c| ensures !IsWhitespace(c[i]) && !Stripped(c[i]) {
      var j :| 0 <= j < |b| && b[j] == c[i];
      var k :| 0 <= k < |a| && a[k] == b[j];
    }
  }

  lemma LowerIdempotent(s: string)
    ensures ToLower(ToLower(s)) == ToLower(s)
  {
  }

  /** Lower-casing keeps a slug's shape: it changes only letters. */
  lemma LowerKeepsShape(s: string)
    requires forall i :: 0 <= i < |s| ==> !IsWhitespace(s[i]) && !Stripped(s[i])
    requires NoDoubleDash(s)
    ensures forall i :: 0 <= i < |ToLower(s)| ==> !IsWhitespace(ToLower(s)[i]) && !Stripped(ToLower(s)[i])
    ensures NoDoubleDash(ToLower(s))
  {
  }

  /** A slug is already lower-case. */
  lemma SlugIsLower(text: string)
    ensures ToLower(Slug(text)) == Slug(text)
  {
    var a := DashRuns(ToLower(text), false);
    var b := StripMarks(a);
    var s := CollapseDashes(b, false);
    forall i | 0 <= i < |s| ensures LowerChar(s[i]) == s[i] {
      var j :| 0 <= j < |b| && b[j] == s[i];
      var k :| 0 <= k < |a| && a[k] == b[j];
      if a[k] != '-' {
        var m :| 0 <= m < |ToLower(text)| && ToLower(text)[m] == a[k];
      }
    }
  }

  /** A slug is its own slug. */
  lemma SlugIdempotent(text: string)
    ensures Slug(Slug(text)) == Slug(text)
  {
    SlugShape(text);
    SlugIsLower(text);
  }

  // ------------------------------------------------------------------ cards

  datatype Card = Card(title: string, path: string)

  predicate Shown(c: Card)
  {
    !(c.title == "Kids Games" || c.title == "Teen Games" || c.title == "Adult Games")
  }

  /** `filteredCards`: every card except the three game-level cards. */
  function FilteredCards(cards: seq<Card>): (r: seq<Card>)
    ensures forall i :: 0 <= i < |r| ==> r[i].title !in {"Kids Games", "Teen Games", "Adult Games"} && r[i] in cards
    ensures forall i :: 0 <= i < |cards| && cards[i].title !in {"Kids Games", "Teen Games", "Adult Games"} ==> cards[i] in r
  {
    Filter(cards, Shown)
  }

  /** Filtering works card by card, so the cards kept stay in their order:
      the cards of a front part come before those of the rest. */
  lemma FilteredCardsKeepOrder(front: seq<Card>, back: seq<Card>)
    ensures FilteredCards(front + back) == FilteredCards(front) + FilteredCards(back)
  {
    FilterAppend(front, back, Shown);
  }

  // ------------------------------------------------------------ navigation

  /** The path argument of `handleNavigate`: a string or anything else. */
  datatype PathArg = PathString(s: string) | NotAString

  const DefaultPath := "/student/dashboard"

  /** `handleNavigate`: a non-empty string path is followed; anything else
      goes to the dashboard. */
  function NavigateTo(path: PathArg): (dest: string)
    ensures path.PathString? && path.s != "" ==> dest == path.s
    ensures !(path.PathString? && path.s != "") ==> dest == DefaultPath
    ensures dest != ""
  {
    if path.PathString? && path.s != "" then path.s else DefaultPath
  }

  // ------------------------------------------------------------- challenges

  datatype Challenge = Challenge(id: string, title: string)

  /** An entry of `data.challenges`: it may wrap its challenge in a
      `challenge` field, or be the challenge itself. */
  datatype ChallengeItem = ChallengeItem(challenge: Option<Challenge>, itself: Challenge)

  datatype ChallengesField = Absent | NotAnArray | Items(items: seq<ChallengeItem>)

  /** The challenges list after loading: unchanged when the field is absent,
      empty when it is not an array, otherwise each entry unwrapped. */
  function LoadChallenges(old_: seq<Challenge>, field: ChallengesField): (r: seq<Challenge>)
    ensures field.Absent? ==> r == old_
    ensures field.NotAnArray? ==> r == []
    ensures field.Items? ==> |r| == |field.items|
    ensures field.Items? ==> forall i :: 0 <= i < |r| ==>
      r[i] == GetOr(field.items[i].challenge, field.items[i].itself)
  {
    match field
    case Absent => old_
    case NotAnArray => []
    case Items(items) => seq(|items|, i requires 0 <= i < |items| => GetOr(items[i].challenge, items[i].itself))
  }

  // ----------------------------------------------------------------- stats

  datatype Stats = Stats(xp: int, level: int, nextLevelXp: int, todayMood: string,
                         streak: int, rank: int, weeklyXP: int)

  const SmileMood := "\U{1F60A}"

  /** The stats shown after a failed load. */
  const FallbackStats := Stats(0, 1, 100, SmileMood, 0, 0, 0)

  /** The stats a successful load reports, each missing or zero field
      replaced by its default. */
  datatype StatsPayload = StatsPayload(xp: Option<int>, level: Option<int>, nextLevelXp: Option<int>,
    todayMood: Option<string>, streak: Option<int>, rank: Option<int>, weeklyXP: Option<int>)

  function LoadedStats(p: StatsPayload): (s: Stats)
    ensures s.level != 0 && s.nextLevelXp != 0 && s.todayMood != ""
    ensures p.level.Some? && p.level.value != 0 ==> s.level == p.level.value
    ensures p.xp.None? ==> s.xp == 0
  {
    Stats(IntOr(p.xp, 0), IntOr(p.level, 1), IntOr(p.nextLevelXp, 100), StrOr(p.todayMood, SmileMood),
          IntOr(p.streak, 0), IntOr(p.rank, 0), IntOr(p.weeklyXP, 0))
  }

  /** A load that reports nothing yields the fallback stats. */
  lemma EmptyPayloadIsFallback()
    ensures LoadedStats(StatsPayload(None, None, None, None, None, None, None)) == FallbackStats
  {
  }

  /** The `game-completed` event: xp, level and streak take the reported
      value when it is truthy; the next-level threshold follows the level. */
  function AfterGameCompleted(s: Stats, totalXP: Option<int>, level: Option<int>, streak: Option<int>): (t: Stats)
    ensures t.nextLevelXp == t.level * 100
    ensures t.level == (if level.Some? && level.value != 0 then level.value else s.level)
    ensures t.xp == (if totalXP.Some? && totalXP.value != 0 then totalXP.value else s.xp)
    ensures t.streak == (if streak.Some? && streak.value != 0 then streak.value else s.streak)
    ensures t.todayMood == s.todayMood && t.rank == s.rank && t.weeklyXP == s.weeklyXP
  {
    var lv := IntOr(level, s.level);
    s.(xp := IntOr(totalXP, s.xp), level := lv, nextLevelXp := lv * 100, streak := IntOr(streak, s.streak))
  }

  /** A game event that reports nothing new leaves the stats alone except
      that the threshold is recomputed from the level. */
  lemma EmptyGameEvent(s: Stats)
    ensures AfterGameCompleted(s, None, None, None) == s.(nextLevelXp := s.level * 100)
  {
  }

  /** The stats block of the page. */
  class DashboardStats {
    var xp: int
    var level: int
    var nextLevelXp: int
    var todayMood: string
    var streak: int
    var rank: int
    var weeklyXP: int

    function State(): Stats
      reads this
    {
      Stats(xp, level, nextLevelXp, todayMood, streak, rank, weeklyXP)
    }

    /** The page starts from the fallback values. */
    constructor()
      ensures State() == FallbackStats
    {
      xp, level, nextLevelXp, todayMood := 0, 1, 100, SmileMood;
      streak, rank, weeklyXP := 0, 0, 0;
    }

    method LoadSucceeded(p: StatsPayload)
      modifies this
      ensures State() == LoadedStats(p)
    {
      xp := IntOr(p.xp, 0);
      level := IntOr(p.level, 1);
      nextLevelXp := IntOr(p.nextLevelXp, 100);
      todayMood := StrOr(p.todayMood, SmileMood);
      streak := IntOr(p.streak, 0);
      rank := IntOr(p.rank, 0);
      weeklyXP := IntOr(p.weeklyXP, 0);
    }

    method LoadFailed()
      modifies this
      ensures State() == FallbackStats
    {
      xp, level, nextLevelXp, todayMood := 0, 1, 100, SmileMood;
      streak, rank, weeklyXP := 0, 0, 0;
    }

    method GameCompleted(totalXP: Option<int>, newLevel: Option<int>, newStreak: Option<int>)
      modifies this
      ensures State() == AfterGameCompleted(old(State()), totalXP, newLevel, newStreak)
    {
      if totalXP.Some? && totalXP.value != 0 {
        xp := totalXP.value;
      }
      if newLevel.Some? && newLevel.value != 0 {
        level := newLevel.value;
      }
      nextLevelXp := level * 100;
      if newStreak.Some? && newStreak.value != 0 {
        streak := newStreak.value;
      }
    }

    /** `challenge-completed`: one more day of streak, nothing else. */
    method ChallengeCompleted()
      modifies this
      ensures State() == old(State()).(streak := old(streak) + 1)
    {
      streak := streak + 1;
    }

    /** `level-up`: level and xp are replaced, nothing else changes. */
    method LevelUp(newLevel: int, totalXP: int)
      modifies this
      ensures State() == old(State()).(level := newLevel, xp := totalXP)
    {
      level := newLevel;
      xp := totalXP;
    }
  }
}
