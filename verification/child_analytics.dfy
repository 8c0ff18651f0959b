/** The computations of the parent's child-analytics view
    (`GET /child/:childId/analytics`) and the `formatTimeAgo` helper: mastery
    per learning pillar and overall, a 30-day mastery trend, weekly
    engagement totals, mood alerts and the mood trend label, the most recent
    achievements, conversation prompts and the home support plan. The records
    the route reads from the database are parameters here. */
module ChildAnalytics {
  import opened Common
  import opened Sorting

  /** The route's answer to the id check: refused with a status and a
      message, or on to the child lookup. */
  datatype Guard = Refused(status: int, message: string) | Proceed

  /** The first check of the analytics route: a missing (empty) id or one
      whose length is not 24 is answered with 400 "Invalid child ID". */
  function ChildIdGuard(childId: string): (g: Guard)
    ensures g.Refused? <==> |childId| != 24
    ensures g.Refused? ==> g.status == 400 && g.message == "Invalid child ID"
  {
    if childId == [] || |childId| != 24 then Refused(400, "Invalid child ID") else Proceed
  }

  /** Only the length is checked: any two ids of the same length get the
      same answer, so 24 characters that are not hexadecimal go on to the
      lookup. */
  lemma ChildIdLengthOnly(a: string, b: string)
    requires |a| == |b|
    ensures ChildIdGuard(a) == ChildIdGuard(b)
    ensures |a| == 24 ==> ChildIdGuard(a) == Proceed
  {
  }

  const PillarNames: seq<string> := [
    "Financial Literacy", "Brain Health", "UVLS",
    "Digital Citizenship", "Moral Values", "AI for All",
    "Health - Male", "Health - Female", "Entrepreneurship",
    "Civic Responsibility"]

  /** One game's progress record. `lastPlayed` and `completedAt` are times in
      milliseconds. */
  datatype GameProgress = GameProgress(
    game: string,
    category: string,
    progress: Option<int>,
    lastPlayed: int,
    achievements: seq<string>,
    completed: bool,
    completedAt: Option<int>)

  /** `g.progress || 0`. */
  function Progress(g: GameProgress): int
  {
    IntOr(g.progress, 0)
  }

  // ----------------------------------------------------------- mastery

  function PillarCount(games: seq<GameProgress>, pillar: string): (n: nat)
    ensures n <= |games|
    ensures n == 0 <==> forall i :: 0 <= i < |games| ==> games[i].category != pillar
  {
    if games == [] then 0
    else PillarCount(games[..|games| - 1], pillar) + (if games[|games| - 1].category == pillar then 1 else 0)
  }

  function PillarTotal(games: seq<GameProgress>, pillar: string): int
  {
    if games == [] then 0
    else PillarTotal(games[..|games| - 1], pillar) + (if games[|games| - 1].category == pillar then Progress(games[|games| - 1]) else 0)
  }

  /** Progress values in [0, 100], as the progress field promises. */
  ghost predicate ProgressInRange(games: seq<GameProgress>)
  {
    forall i :: 0 <= i < |games| ==> 0 <= Progress(games[i]) <= 100
  }

  lemma {:induction false} PillarTotalBounds(games: seq<GameProgress>, pillar: string)
    requires ProgressInRange(games)
    ensures 0 <= PillarTotal(games, pillar) <= 100 * PillarCount(games, pillar)
  {
    if games != [] {
      PillarTotalBounds(games[..|games| - 1], pillar);
    }
  }

  /** A pillar's mastery: the rounded mean progress of its games, defined only
      when it has at least one game. */
  function PillarMastery(games: seq<GameProgress>, pillar: string): (r: Option<int>)
    ensures r.Some? <==> exists i :: 0 <= i < |games| && games[i].category == pillar
    ensures r.Some? ==> var n := PillarCount(games, pillar);
      n > 0 && n * (2 * r.value - 1) <= 2 * PillarTotal(games, pillar) < n * (2 * r.value + 1)
  {
    var n := PillarCount(games, pillar);
    if n > 0 then Some(RoundDiv(PillarTotal(games, pillar), n)) else None
  }

  lemma PillarMasteryInRange(games: seq<GameProgress>, pillar: string)
    requires ProgressInRange(games)
    requires PillarMastery(games, pillar).Some?
    ensures 0 <= PillarMastery(games, pillar).value <= 100
  {
    PillarTotalBounds(games, pillar);
    RoundDivBounds(PillarTotal(games, pillar), PillarCount(games, pillar), 0, 100);
  }

  datatype PillarScore = PillarScore(pillar: string, mastery: int)

  /** `pillarsData`: one entry per pillar of `names` that has games, in the
      order of `names`. */
  function PillarsData(games: seq<GameProgress>, names: seq<string>): (r: seq<PillarScore>)
    ensures |r| <= |names|
    ensures forall i :: 0 <= i < |r| ==> r[i].pillar in names && PillarMastery(games, r[i].pillar) == Some(r[i].mastery)
    ensures forall p :: p in names && PillarMastery(games, p).Some? ==> exists i :: 0 <= i < |r| && r[i].pillar == p
  {
    if names == [] then []
    else
      var init := PillarsData(games, names[..|names| - 1]);
      var p := names[|names| - 1];
      assert forall q :: q in names ==> q in names[..|names| - 1] || q == p;
      var r := match PillarMastery(games, p)
        case Some(m) => init + [PillarScore(p, m)]
        case None => init;
      assert forall i :: 0 <= i < |init| ==> r[i] == init[i];
      forall q | q in names && PillarMastery(games, q).Some?
        ensures exists i :: 0 <= i < |r| && r[i].pillar == q
      {
        if q == p {
          assert r[|init|].pillar == q;
        } else {
          var i :| 0 <= i < |init| && init[i].pillar == q;
          assert r[i].pillar == q;
        }
      }
      r
  }

  function MasterySum(pillars: seq<PillarScore>): int
  {
    if pillars == [] then 0 else MasterySum(pillars[..|pillars| - 1]) + pillars[|pillars| - 1].mastery
  }

  /** `overallMastery`: the rounded mean of the pillar values, 0 without any. */
  function OverallMastery(pillars: seq<PillarScore>): (r: int)
    ensures pillars == [] ==> r == 0
    ensures pillars != [] ==> |pillars| * (2 * r - 1) <= 2 * MasterySum(pillars) < |pillars| * (2 * r + 1)
  {
    if |pillars| > 0 then RoundDiv(MasterySum(pillars), |pillars|) else 0
  }

  lemma {:induction false} MasterySumBounds(pillars: seq<PillarScore>)
    requires forall i :: 0 <= i < |pillars| ==> 0 <= pillars[i].mastery <= 100
    ensures 0 <= MasterySum(pillars) <= 100 * |pillars|
  {
    if pillars != [] {
      MasterySumBounds(pillars[..|pillars| - 1]);
    }
  }

  /** With progress in [0, 100], every pillar value and the overall mastery
      lie in [0, 100]. */
  lemma MasteryInRange(games: seq<GameProgress>)
    requires ProgressInRange(games)
    ensures var pillars := PillarsData(games, PillarNames);
      && (forall i :: 0 <= i < |pillars| ==> 0 <= pillars[i].mastery <= 100)
      && 0 <= OverallMastery(pillars) <= 100
  {
    var pillars := PillarsData(games, PillarNames);
    forall i | 0 <= i < |pillars| ensures 0 <= pillars[i].mastery <= 100 {
      PillarMasteryInRange(games, pillars[i].pillar);
    }
    MasterySumBounds(pillars);
    if pillars != [] {
      RoundDivBounds(MasterySum(pillars), |pillars|, 0, 100);
    }
  }

  // ------------------------------------------------------------ the trend

  const DayMs := 86400000

  function PlayedCount(games: seq<GameProgress>, date: int): (n: nat)
    ensures n <= |games|
    ensures n == 0 <==> forall i :: 0 <= i < |games| ==> games[i].lastPlayed > date
  {
    if games == [] then 0
    else PlayedCount(games[..|games| - 1], date) + (if games[|games| - 1].lastPlayed <= date then 1 else 0)
  }

  function PlayedTotal(games: seq<GameProgress>, date: int): int
  {
    if games == [] then 0
    else PlayedTotal(games[..|games| - 1], date) + (if games[|games| - 1].lastPlayed <= date then Progress(games[|games| - 1]) else 0)
  }

  lemma {:induction false} PlayedTotalBounds(games: seq<GameProgress>, date: int)
    requires ProgressInRange(games)
    ensures 0 <= PlayedTotal(games, date) <= 100 * PlayedCount(games, date)
  {
    if games != [] {
      PlayedTotalBounds(games[..|games| - 1], date);
    }
  }

  /** Mastery on a day: the rounded mean progress of the games last played by
      then, or the overall mastery when there are none. */
  function DayMastery(games: seq<GameProgress>, date: int, overall: int): (r: int)
    ensures PlayedCount(games, date) == 0 ==> r == overall
    ensures PlayedCount(games, date) > 0 ==> var n := PlayedCount(games, date);
      n * (2 * r - 1) <= 2 * PlayedTotal(games, date) < n * (2 * r + 1)
  {
    var n := PlayedCount(games, date);
    if n > 0 then RoundDiv(PlayedTotal(games, date), n) else overall
  }

  lemma DayMasteryInRange(games: seq<GameProgress>, date: int, overall: int)
    requires ProgressInRange(games) && 0 <= overall <= 100
    ensures 0 <= DayMastery(games, date, overall) <= 100
  {
    PlayedTotalBounds(games, date);
    if PlayedCount(games, date) > 0 {
      RoundDivBounds(PlayedTotal(games, date), PlayedCount(games, date), 0, 100);
    }
  }

  datatype TrendPoint = TrendPoint(date: int, mastery: int)

  /** `masteryTrend`: one point per day for the 30 days ending today, oldest
      first. */
  method MasteryTrend(games: seq<GameProgress>, now: int, overall: int) returns (trend: seq<TrendPoint>)
    ensures |trend| == 30
    ensures forall k :: 0 <= k < 30 ==>
      trend[k] == TrendPoint(now - (29 - k) * DayMs, DayMastery(games, now - (29 - k) * DayMs, overall))
  {
    trend := [];
    var i := 29;
    while i >= 0
      invariant -1 <= i <= 29
      invariant |trend| == 29 - i
      invariant forall k :: 0 <= k < |trend| ==>
        trend[k] == TrendPoint(now - (29 - k) * DayMs, DayMastery(games, now - (29 - k) * DayMs, overall))
    {
      var date := now - i * DayMs;
      var n := PlayedCount(games, date);
      var mastery := if n > 0 then RoundDiv(PlayedTotal(games, date), n) else overall;
      trend := trend + [TrendPoint(date, mastery)];
      i := i - 1;
    }
  }

  // ------------------------------------------------------- engagement

  datatype ActivityLog = ActivityLog(activityType: Option<string>, action: Option<string>, duration: Option<int>)

  /** `log.duration || 5`. */
  function Duration(l: ActivityLog): int
  {
    IntOr(l.duration, 5)
  }

  /** A game session: typed "game", or an action mentioning "game". */
  predicate IsGameLog(l: ActivityLog)
  {
    l.activityType == Some("game") || (l.action.Some? && Contains(l.action.value, "game"))
  }

  predicate IsLessonLog(l: ActivityLog)
  {
    !IsGameLog(l)
  }

  datatype Engagement = Engagement(
    totalMinutes: int,
    gamesMinutes: int,
    lessonsMinutes: int,
    totalSessions: nat,
    gameSessions: nat,
    lessonSessions: nat)

  lemma FilterSplitsSum(logs: seq<ActivityLog>)
    ensures SumOf(Filter(logs, IsGameLog), Duration) + SumOf(Filter(logs, IsLessonLog), Duration)
            == SumOf(logs, Duration)
    ensures Count(logs, IsGameLog) + Count(logs, IsLessonLog) == |logs|
  {
    if logs != [] {
      var init := logs[..|logs| - 1];
      FilterSplitsSum(init);
      var l := logs[|logs| - 1];
      if IsGameLog(l) {
        SumOfAppend(Filter(init, IsGameLog), [l], Duration);
        assert ([l])[..0] == [];
      } else {
        SumOfAppend(Filter(init, IsLessonLog), [l], Duration);
        assert ([l])[..0] == [];
      }
    }
  }

  /** The sums and counts over a run of logs, with the session count n. */
  function Totals(logs: seq<ActivityLog>, n: nat): Engagement
  {
    Engagement(SumOf(logs, Duration), SumOf(Filter(logs, IsGameLog), Duration),
               SumOf(Filter(logs, IsLessonLog), Duration), n,
               Count(logs, IsGameLog), Count(logs, IsLessonLog))
  }

  /** One log added to the running totals: its duration to the total and to
      its kind, one session to its kind. */
  function Tallied(e: Engagement, l: ActivityLog): Engagement
  {
    var d := Duration(l);
    if IsGameLog(l) then
      e.(totalMinutes := e.totalMinutes + d, gamesMinutes := e.gamesMinutes + d, gameSessions := e.gameSessions + 1)
    else
      e.(totalMinutes := e.totalMinutes + d, lessonsMinutes := e.lessonsMinutes + d, lessonSessions := e.lessonSessions + 1)
  }

  /** The logs tallied one at a time, in order. */
  function Tally(logs: seq<ActivityLog>, n: nat): Engagement
  {
    if logs == [] then Engagement(0, 0, 0, n, 0, 0)
    else Tallied(Tally(logs[..|logs| - 1], n), logs[|logs| - 1])
  }

  /** What one more game log adds to the sums and counts. */
  lemma GameLogStep(logs: seq<ActivityLog>, n: nat)
    requires logs != [] && IsGameLog(logs[|logs| - 1])
    ensures Totals(logs, n) == Tallied(Totals(logs[..|logs| - 1], n), logs[|logs| - 1])
  {
    var init, l := logs[..|logs| - 1], logs[|logs| - 1];
    assert logs == init + [l];
    assert ([l])[..0] == [];
    SumOfAppend(Filter(init, IsGameLog), [l], Duration);
  }

  /** What one more lesson log adds to the sums and counts. */
  lemma LessonLogStep(logs: seq<ActivityLog>, n: nat)
    requires logs != [] && IsLessonLog(logs[|logs| - 1])
    ensures Totals(logs, n) == Tallied(Totals(logs[..|logs| - 1], n), logs[|logs| - 1])
  {
    var init, l := logs[..|logs| - 1], logs[|logs| - 1];
    assert logs == init + [l];
    assert ([l])[..0] == [];
    SumOfAppend(Filter(init, IsLessonLog), [l], Duration);
  }

  /** Tallying the logs one by one gives the total minutes, the minutes and
      counts of game logs and of lesson logs. */
  lemma {:induction false} TallyTotals(logs: seq<ActivityLog>, n: nat)
    ensures Tally(logs, n) == Totals(logs, n)
  {
    if logs != [] {
      TallyTotals(logs[..|logs| - 1], n);
      if IsGameLog(logs[|logs| - 1]) {
        GameLogStep(logs, n);
      } else {
        LessonLogStep(logs, n);
      }
    }
  }

  /** `weeklyEngagement`: durations default to 5 minutes; every log is a game
      session or a lesson session. */
  method WeeklyEngagement(logs: seq<ActivityLog>) returns (e: Engagement)
    ensures e.totalMinutes == SumOf(logs, Duration)
    ensures e.gamesMinutes == SumOf(Filter(logs, IsGameLog), Duration)
    ensures e.lessonsMinutes == SumOf(Filter(logs, IsLessonLog), Duration)
    ensures e.gamesMinutes + e.lessonsMinutes == e.totalMinutes
    ensures e.totalSessions == |logs|
    ensures e.gameSessions == Count(logs, IsGameLog)
    ensures e.gameSessions + e.lessonSessions == e.totalSessions
  {
    e := Engagement(0, 0, 0, |logs|, 0, 0);
    var i := 0;
    while i < |logs|
      invariant 0 <= i <= |logs|
      invariant e == Tally(logs[..i], |logs|)
    {
      var l := logs[i];
      var duration := Duration(l);
      e := e.(totalMinutes := e.totalMinutes + duration);
      if IsGameLog(l) {
        e := e.(gamesMinutes := e.gamesMinutes + duration, gameSessions := e.gameSessions + 1);
      } else {
        e := e.(lessonsMinutes := e.lessonsMinutes + duration, lessonSessions := e.lessonSessions + 1);
      }
      assert logs[..i + 1][..i] == logs[..i];
      i := i + 1;
    }
    assert logs[..i] == logs;
    TallyTotals(logs, |logs|);
    FilterSplitsSum(logs);
  }

  // ------------------------------------------------------------- mood

  datatype MoodLog = MoodLog(score: Option<int>)

  /** `log.score || 3`. */
  function MoodScore(l: MoodLog): int
  {
    IntOr(l.score, 3)
  }

  predicate IsLowMood(l: MoodLog)
  {
    MoodScore(l) <= 2
  }

  predicate IsVeryLowMood(l: MoodLog)
  {
    MoodScore(l) == 1
  }

  /** The average score in tenths, as `toFixed(1)` rounds it (3.0 when there
      are no entries). The page compares this rounded value. */
  function AverageTenths(logs: seq<MoodLog>): int
  {
    if |logs| == 0 then 30 else RoundDiv(10 * SumOf(logs, MoodScore), |logs|)
  }

  datatype MoodAlert = LowMoodWarning(lowEntries: nat) | VeryLowMoodAlert

  /** The mood alerts, warning first: a warning for three or more low
      entries, a high alert for any entry scored 1. */
  function MoodAlerts(logs: seq<MoodLog>): (r: seq<MoodAlert>)
    ensures |r| <= 2
    ensures (exists n :: LowMoodWarning(n) in r) <==> Count(logs, IsLowMood) >= 3
    ensures forall n :: LowMoodWarning(n) in r ==> n == Count(logs, IsLowMood)
    ensures VeryLowMoodAlert in r <==> exists i :: 0 <= i < |logs| && MoodScore(logs[i]) == 1
  {
    var low := Count(logs, IsLowMood);
    var warning := if low >= 3 then [LowMoodWarning(low)] else [];
    var high := if Count(logs, IsVeryLowMood) >= 1 then [VeryLowMoodAlert] else [];
    assert warning + high == if low >= 3 then [LowMoodWarning(low)] + high else high;
    warning + high
  }

  datatype MoodTrendLabel = Positive | Neutral | Concerning

  /** `snapshotKPIs.moodTrend`, on the rounded average. */
  function MoodTrend(logs: seq<MoodLog>): MoodTrendLabel
  {
    var avg := AverageTenths(logs);
    if avg >= 35 then Positive else if avg >= 25 then Neutral else Concerning
  }

  /** The mood trend thresholds restated on the exact average: positive from
      3.45, concerning below 2.45; no entries reads as neutral. */
  lemma MoodTrendThresholds(logs: seq<MoodLog>)
    ensures |logs| == 0 ==> MoodTrend(logs) == Neutral
    ensures |logs| > 0 ==>
      (MoodTrend(logs) == Positive <==> 20 * SumOf(logs, MoodScore) >= 69 * |logs|)
    ensures |logs| > 0 ==>
      (MoodTrend(logs) == Concerning <==> 20 * SumOf(logs, MoodScore) < 49 * |logs|)
  {
    if |logs| > 0 {
      RoundDivAtLeast(10 * SumOf(logs, MoodScore), |logs|, 35);
      RoundDivAtLeast(10 * SumOf(logs, MoodScore), |logs|, 25);
    }
  }

  /** The "low mood" branch of the prompts and of the support plan: the
      rounded average is below 3.0, that is, the exact average is below 2.95. */
  lemma LowAverageThreshold(logs: seq<MoodLog>)
    ensures |logs| > 0 ==> (AverageTenths(logs) < 30 <==> 20 * SumOf(logs, MoodScore) < 59 * |logs|)
    ensures |logs| == 0 ==> AverageTenths(logs) == 30
  {
    if |logs| > 0 {
      RoundDivAtLeast(10 * SumOf(logs, MoodScore), |logs|, 30);
    }
  }

  // ------------------------------------------------------ achievements

  datatype AchievementKind = Badge | Certificate

  datatype Achievement = Achievement(game: string, category: string, title: string, unlockedAt: int, kind: AchievementKind)

  function Badges(g: GameProgress, titles: seq<string>): (r: seq<Achievement>)
    ensures |r| == |titles|
    ensures forall i :: 0 <= i < |r| ==> r[i] == Achievement(g.game, g.category, titles[i], g.lastPlayed, Badge)
  {
    if titles == [] then [] else Badges(g, titles[..|titles| - 1]) + [Achievement(g.game, g.category, titles[|titles| - 1], g.lastPlayed, Badge)]
  }

  /** One badge per achievement, then a certificate if the game is completed,
      dated `completedAt || lastPlayed`. */
  function GameAchievements(g: GameProgress): seq<Achievement>
  {
    Badges(g, g.achievements)
    + (if g.completed then [Achievement(g.game, g.category, "Completion Certificate", GetOr(g.completedAt, g.lastPlayed), Certificate)] else [])
  }

  function AchievementCount(g: GameProgress): int
  {
    |g.achievements| + (if g.completed then 1 else 0)
  }

  /** Every game's achievements, games in order. */
  function AllAchievements(games: seq<GameProgress>): (r: seq<Achievement>)
    ensures |r| == SumOf(games, AchievementCount)
  {
    if games == [] then [] else AllAchievements(games[..|games| - 1]) + GameAchievements(games[|games| - 1])
  }

  function UnlockedAt(a: Achievement): int
  {
    a.unlockedAt
  }

  /** `recentAchievements`: at most 10, newest first, and none left out is
      newer than one kept. */
  function RecentAchievements(games: seq<GameProgress>): (r: seq<Achievement>)
    ensures |r| == if SumOf(games, AchievementCount) < 10 then SumOf(games, AchievementCount) else 10
    ensures forall i, j :: 0 <= i < j < |r| ==> r[i].unlockedAt >= r[j].unlockedAt
    ensures multiset(r) <= multiset(AllAchievements(games))
    ensures forall a :: a in AllAchievements(games) && a !in r ==> forall i :: 0 <= i < |r| ==> r[i].unlockedAt >= a.unlockedAt
  {
    TopOfSorted(AllAchievements(games), UnlockedAt, 10);
    Take(SortDesc(AllAchievements(games), UnlockedAt), 10)
  }

  // ------------------------------------------------- prompts and plan

  datatype Prompt =
    | FeelingDown
    | AnythingOnYourMind
    | GoingWell
    | HowIsSchool
    | ProudAchievement(count: nat)
    | FavouriteActivity

  /** The conversation prompts: two for a low mood, one for a high mood, one
      otherwise, then the achievement and interest prompts. */
  function ConversationPrompts(avgTenths: int, recentCount: nat): (r: seq<Prompt>)
    ensures |r| == if avgTenths < 30 then 4 else 3
    ensures r[|r| - 2..] == [ProudAchievement(recentCount), FavouriteActivity]
    ensures FeelingDown in r <==> avgTenths < 30
    ensures GoingWell in r <==> avgTenths >= 40
  {
    var mood := if avgTenths < 30 then [FeelingDown, AnythingOnYourMind]
                else if avgTenths >= 40 then [GoingWell]
                else [HowIsSchool];
    mood + [ProudAchievement(recentCount), FavouriteActivity]
  }

  datatype SupportItem =
    | Practice(pillar: string, mastery: int)
    | EmotionalCheckIn
    | IncreaseEngagement
    | CelebrateAchievements
    | ConsistentSchedule

  function NegMastery(p: PillarScore): int
  {
    -p.mastery
  }

  /** `weakPillars[0]`: the first entry after the stable sort by mastery,
      ascending, which is the first pillar in order with the smallest
      mastery. */
  function Weakest(pillars: seq<PillarScore>): (w: PillarScore)
    requires pillars != []
    ensures w in pillars
    ensures forall q :: q in pillars ==> w.mastery <= q.mastery
    ensures exists i :: 0 <= i < |pillars| && pillars[i] == w && forall j :: 0 <= j < i ==> pillars[j].mastery > w.mastery
  {
    var i := FirstMaxIndex(pillars, NegMastery);
    SortDescHead(pillars, NegMastery);
    FirstMinPillar(pillars, i);
    var w := SortDesc(pillars, NegMastery)[0];
    assert w == pillars[i];
    w
  }

  /** The first entry with the largest negated mastery is the first with the
      smallest mastery. */
  lemma FirstMinPillar(pillars: seq<PillarScore>, i: nat)
    requires pillars != [] && i == FirstMaxIndex(pillars, NegMastery)
    ensures forall q :: q in pillars ==> pillars[i].mastery <= q.mastery
    ensures forall j :: 0 <= j < i ==> pillars[j].mastery > pillars[i].mastery
  {
    forall q | q in pillars ensures pillars[i].mastery <= q.mastery {
      var j :| 0 <= j < |pillars| && pillars[j] == q;
      assert NegMastery(pillars[j]) <= NegMastery(pillars[i]);
    }
    forall j | 0 <= j < i ensures pillars[j].mastery > pillars[i].mastery {
      assert NegMastery(pillars[j]) < NegMastery(pillars[i]);
    }
  }

  /** The place of each kind of item in the plan: practice, then the mood
      item, then the celebration, then the routine tip. */
  function Rank(x: SupportItem): nat
  {
    match x
    case Practice(_, _) => 0
    case EmotionalCheckIn => 1
    case IncreaseEngagement => 1
    case CelebrateAchievements => 2
    case ConsistentSchedule => 3
  }

  /** The suggestions the plan makes before padding: at most one of each
      kind, in the order practice, mood item, celebration, and never the
      routine tip; practice on the weakest pillar whenever there are
      pillars. */
  function Suggestions(pillars: seq<PillarScore>, avgTenths: int, totalMinutes: int, recentCount: nat): (r: seq<SupportItem>)
    ensures |r| <= 3
    ensures forall i, j :: 0 <= i < j < |r| ==> Rank(r[i]) < Rank(r[j])
    ensures forall i :: 0 <= i < |r| ==> Rank(r[i]) <= 2
    ensures pillars != [] <==> |r| > 0 && r[0].Practice?
    ensures pillars != [] ==> r[0] == Practice(Weakest(pillars).pillar, Weakest(pillars).mastery)
  {
    var a, b, c := PracticeItem(pillars), MoodItem(avgTenths, totalMinutes), CelebrateItem(recentCount);
    InOrder(a, b, c);
    var r := a + b + c;
    assert pillars != [] ==> r[0] == a[0];
    assert pillars == [] && r != [] ==> Rank(r[0]) > 0;
    r
  }

  /** Three parts of ranks 0, 1 and 2, each at most one item long, joined
      in that order have strictly increasing ranks. */
  lemma InOrder(a: seq<SupportItem>, b: seq<SupportItem>, c: seq<SupportItem>)
    requires |a| <= 1 && |b| <= 1 && |c| <= 1
    requires forall k :: 0 <= k < |a| ==> Rank(a[k]) == 0
    requires forall k :: 0 <= k < |b| ==> Rank(b[k]) == 1
    requires forall k :: 0 <= k < |c| ==> Rank(c[k]) == 2
    ensures forall i, j :: 0 <= i < j < |a + b + c| ==> Rank((a + b + c)[i]) < Rank((a + b + c)[j])
    ensures forall i :: 0 <= i < |a + b + c| ==> Rank((a + b + c)[i]) <= 2
  {
    var r := a + b + c;
    forall i | 0 <= i < |r| ensures Rank(r[i]) == if i < |a| then 0 else if i < |a| + |b| then 1 else 2 {
      if i < |a| { assert r[i] == a[i]; }
      else if i < |a| + |b| { assert r[i] == b[i - |a|]; }
      else { assert r[i] == c[i - |a| - |b|]; }
    }
  }

  /** Practice for the weakest pillar, when there is one. */
  function PracticeItem(pillars: seq<PillarScore>): (r: seq<SupportItem>)
    ensures |r| == if pillars != [] then 1 else 0
    ensures forall k :: 0 <= k < |r| ==> Rank(r[k]) == 0
  {
    if pillars != [] then [Practice(Weakest(pillars).pillar, Weakest(pillars).mastery)] else []
  }

  /** A check-in for a low mood, otherwise more activity below an hour. */
  function MoodItem(avgTenths: int, totalMinutes: int): (r: seq<SupportItem>)
    ensures |r| <= 1 && forall k :: 0 <= k < |r| ==> Rank(r[k]) == 1
  {
    if avgTenths < 30 then [EmotionalCheckIn] else if totalMinutes < 60 then [IncreaseEngagement] else []
  }

  /** Celebration when something was achieved recently. */
  function CelebrateItem(recentCount: nat): (r: seq<SupportItem>)
    ensures |r| <= 1 && forall k :: 0 <= k < |r| ==> Rank(r[k]) == 2
  {
    if recentCount > 0 then [CelebrateAchievements] else []
  }

  /** `homeSupportPlan`: the suggestions, padded with the general routine tip
      up to three items. */
  method HomeSupportPlan(pillars: seq<PillarScore>, avgTenths: int, totalMinutes: int, recentCount: nat)
    returns (plan: seq<SupportItem>)
    ensures |plan| == 3
    ensures plan[..|Suggestions(pillars, avgTenths, totalMinutes, recentCount)|]
            == Suggestions(pillars, avgTenths, totalMinutes, recentCount)
    ensures forall i :: |Suggestions(pillars, avgTenths, totalMinutes, recentCount)| <= i < 3 ==> plan[i] == ConsistentSchedule
    ensures pillars != [] ==> plan[0].Practice? && forall q :: q in pillars ==> plan[0].mastery <= q.mastery
    ensures EmotionalCheckIn in plan <==> avgTenths < 30
    ensures IncreaseEngagement in plan <==> avgTenths >= 30 && totalMinutes < 60
    ensures CelebrateAchievements in plan <==> recentCount > 0
  {
    plan := [];
    if pillars != [] {
      var w := Weakest(pillars);
      plan := plan + [Practice(w.pillar, w.mastery)];
    }
    assert plan == PracticeItem(pillars);
    if avgTenths < 30 {
      plan := plan + [EmotionalCheckIn];
    } else if totalMinutes < 60 {
      plan := plan + [IncreaseEngagement];
    }
    assert plan == PracticeItem(pillars) + MoodItem(avgTenths, totalMinutes);
    if recentCount > 0 {
      plan := plan + [CelebrateAchievements];
    }
    ghost var suggested := Suggestions(pillars, avgTenths, totalMinutes, recentCount);
    assert plan == suggested;
    plan := PadWithRoutine(plan);
    SuggestionsMembers(pillars, avgTenths, totalMinutes, recentCount);
    PaddingKeeps(suggested, plan, EmotionalCheckIn);
    PaddingKeeps(suggested, plan, IncreaseEngagement);
    PaddingKeeps(suggested, plan, CelebrateAchievements);
    if pillars != [] {
      assert plan[0] == suggested[0];
    }
  }

  /** The filler loop of `homeSupportPlan`: the routine tip is appended
      until there are three items. */
  method PadWithRoutine(s: seq<SupportItem>) returns (plan: seq<SupportItem>)
    ensures |plan| == if |s| < 3 then 3 else |s|
    ensures plan[..|s|] == s
    ensures forall i :: |s| <= i < |plan| ==> plan[i] == ConsistentSchedule
  {
    plan := s;
    while |plan| < 3
      invariant |s| <= |plan| && (|s| < 3 ==> |plan| <= 3)
      invariant |s| >= 3 ==> plan == s
      invariant plan[..|s|] == s
      invariant forall i :: |s| <= i < |plan| ==> plan[i] == ConsistentSchedule
      decreases 3 - |plan|
    {
      assert (plan + [ConsistentSchedule])[..|s|] == plan[..|s|];
      plan := plan + [ConsistentSchedule];
    }
  }

  /** Padding with the routine tip adds no other item. */
  lemma PaddingKeeps(s: seq<SupportItem>, plan: seq<SupportItem>, x: SupportItem)
    requires |s| <= |plan| && plan[..|s|] == s
    requires forall i :: |s| <= i < |plan| ==> plan[i] == ConsistentSchedule
    requires x != ConsistentSchedule
    ensures x in plan <==> x in s
  {
    if x in plan {
      var i :| 0 <= i < |plan| && plan[i] == x;
      assert s[i] == x;
    }
    if x in s {
      var j :| 0 <= j < |s| && s[j] == x;
      assert plan[j] == x;
    }
  }

  lemma SuggestionsMembers(pillars: seq<PillarScore>, avgTenths: int, totalMinutes: int, recentCount: nat)
    ensures EmotionalCheckIn in Suggestions(pillars, avgTenths, totalMinutes, recentCount) <==> avgTenths < 30
    ensures IncreaseEngagement in Suggestions(pillars, avgTenths, totalMinutes, recentCount)
            <==> avgTenths >= 30 && totalMinutes < 60
    ensures CelebrateAchievements in Suggestions(pillars, avgTenths, totalMinutes, recentCount) <==> recentCount > 0
  {
    var a, b, c := PracticeItem(pillars), MoodItem(avgTenths, totalMinutes), CelebrateItem(recentCount);
    assert Suggestions(pillars, avgTenths, totalMinutes, recentCount) == a + b + c;
    assert EmotionalCheckIn !in a && EmotionalCheckIn !in c;
    assert IncreaseEngagement !in a && IncreaseEngagement !in c;
    assert CelebrateAchievements !in a && CelebrateAchievements !in b;
  }

  // -------------------------------------------------------- time ago

  datatype Ago = JustNow | MinutesAgo(minutes: int) | HoursAgo(hours: int) | DaysAgo(days: int)

  /** Flooring by `a` and then by `b` brackets `x` between consecutive
      multiples of a * b. */
  lemma FloorTwice(x: int, a: int, b: int)
    requires a > 0 && b > 0
    ensures a * b * (x / a / b) <= x < a * b * (x / a / b + 1)
  {
    var s := x / a;
    var m := s / b;
    assert a * s <= x < a * (s + 1) by {
      assert x == a * s + x % a;
    }
    assert b * m <= s < b * (m + 1) by {
      assert s == b * m + s % b;
    }
    MulMonotone(a, b * m, s);
    MulMonotone(a, s + 1, b * (m + 1));
    assert a * (b * m) == a * b * m;
    assert a * (b * (m + 1)) == a * b * (m + 1);
  }

  /** `formatTimeAgo`, each unit the floor of the previous one: the largest
      unit reached is shown. */
  function FormatTimeAgo(date: int, now: int): (r: Ago)
    ensures r == JustNow <==> now - date < 60000
    ensures r.MinutesAgo? ==> 1 <= r.minutes < 60 && 60000 * r.minutes <= now - date < 60000 * (r.minutes + 1)
    ensures r.HoursAgo? ==> 1 <= r.hours < 24 && 3600000 * r.hours <= now - date < 3600000 * (r.hours + 1)
    ensures r.DaysAgo? ==> r.days >= 1 && 86400000 * r.days <= now - date < 86400000 * (r.days + 1)
    ensures r.DaysAgo? <==> now - date >= 86400000
  {
    var seconds := (now - date) / 1000;
    if seconds < 60 then JustNow
    else
      var minutes := seconds / 60;
      FloorTwice(now - date, 1000, 60);
      if minutes < 60 then MinutesAgo(minutes)
      else
        var hours := minutes / 60;
        FloorTwice(now - date, 1000, 60);
        FloorTwice(now - date, 60000, 60);
        if hours < 24 then HoursAgo(hours)
        else
          FloorTwice(now - date, 3600000, 24);
          DaysAgo(hours / 24)
  }

  function AgoText(a: Ago): string
  {
    match a
    case JustNow => "Just now"
    case MinutesAgo(m) => IntToString(m) + "m ago"
    case HoursAgo(h) => IntToString(h) + "h ago"
    case DaysAgo(d) => IntToString(d) + "d ago"
  }
}
