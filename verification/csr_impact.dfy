/** The figures behind the CSR dashboard (backend/routes/csrRoutes.js): the
    look-back window chosen by the reporting period, the region filter on
    students, the impact metrics of `/impact` (students reached, approved
    redemptions, value funded, distinct schools, module progress), and the
    six-period window of `/trends`. The collections the route queries are
    sequences of records; the counts `/trends` asks the database for are
    parameters. */
module CsrImpact {
  import opened Common

  const DayMs: int := 24 * 60 * 60 * 1000

  /** The number of days an `/impact` period looks back. */
  function LookbackDays(period: string): (days: nat)
    ensures period == "week" ==> days == 7
    ensures period == "quarter" ==> days == 90
    ensures period == "year" ==> days == 365
    ensures period !in {"week", "quarter", "year"} ==> days == 30
  {
    if period == "week" then 7
    else if period == "quarter" then 90
    else if period == "year" then 365
    else 30
  }

  /** Start of the `/impact` window: `days` whole days before `now`. */
  function StartDate(now: int, period: string): (start: int)
    ensures now - start == LookbackDays(period) * DayMs
    ensures start < now
  {
    now - LookbackDays(period) * DayMs
  }

  /** A longer period never starts later. */
  lemma LongerPeriodsReachFurther(now: int)
    ensures StartDate(now, "year") <= StartDate(now, "quarter") <= StartDate(now, "month") <= StartDate(now, "week")
  {
  }

  // ----------------------------------------------------------- collections

  datatype UserRec = UserRec(id: string, role: string, createdAt: int, city: Option<string>, institution: Option<string>)

  datatype RedemptionRec = RedemptionRec(studentId: string, status: string, createdAt: int, price: Option<int>)

  datatype ProgressRec = ProgressRec(userId: string, gameType: Option<string>, progress: Option<int>)

  /** The student query: students created in the window, and in the region
      unless the region is "all". */
  predicate InScope(u: UserRec, start: int, region: string)
  {
    u.role == "student" && u.createdAt >= start && (region == "all" || u.city == Some(region))
  }

  /** The region "all" adds no condition on the city. */
  lemma AllRegionsIgnoreCity(u: UserRec, start: int)
    ensures InScope(u, start, "all") <==> u.role == "student" && u.createdAt >= start
  {
  }

  /** A particular region keeps only students whose city is exactly that
      region. */
  lemma RegionMatchesCityExactly(u: UserRec, start: int, region: string)
    requires region != "all"
    ensures InScope(u, start, region) <==> InScope(u, start, "all") && u.city == Some(region)
  {
  }

  function Ids(us: seq<UserRec>): (ids: seq<string>)
    ensures |ids| == |us|
    ensures forall i :: 0 <= i < |us| ==> ids[i] == us[i].id
  {
    if us == [] then [] else Ids(us[..|us| - 1]) + [us[|us| - 1].id]
  }

  // -------------------------------------------------------- distinct values

  /** `[...new Set(s)]`: the values of `s`, each once, in order of first
      appearance. */
  function Distinct(s: seq<string>): (r: seq<string>)
    ensures forall x :: x in r <==> x in s
    ensures forall i, j :: 0 <= i < j < |r| ==> r[i] != r[j]
  {
    if s == [] then []
    else
      var r := Distinct(s[..|s| - 1]);
      assert forall x :: x in s <==> x in s[..|s| - 1] || x == s[|s| - 1] by {
        assert s == s[..|s| - 1] + [s[|s| - 1]];
      }
      if s[|s| - 1] in r then r else r + [s[|s| - 1]]
  }

  function ValuesOf(s: seq<string>): set<string>
  {
    set x | x in s
  }

  /** A sequence without repeats has as many elements as values. */
  lemma {:induction false} NoRepeatsCardinality(r: seq<string>)
    requires forall i, j :: 0 <= i < j < |r| ==> r[i] != r[j]
    ensures |ValuesOf(r)| == |r|
  {
    if r != [] {
      var r' := r[..|r| - 1];
      NoRepeatsCardinality(r');
      assert r == r' + [r[|r| - 1]];
      assert ValuesOf(r) == ValuesOf(r') + {r[|r| - 1]};
      assert r[|r| - 1] !in ValuesOf(r');
    }
  }

  /** The length of the deduplicated sequence is the number of distinct
      values. */
  lemma DistinctCount(s: seq<string>)
    ensures |Distinct(s)| == |ValuesOf(s)|
  {
    var r := Distinct(s);
    NoRepeatsCardinality(r);
    assert ValuesOf(r) == ValuesOf(s);
  }

  /** The truthy `institution` values of the students, in order. */
  function Institutions(us: seq<UserRec>): (r: seq<string>)
    ensures forall x :: x in r <==> exists i :: 0 <= i < |us| && us[i].institution == Some(x) && x != ""
  {
    if us == [] then []
    else
      var r := Institutions(us[..|us| - 1]);
      var last := us[|us| - 1];
      assert forall i :: 0 <= i < |us| - 1 ==> us[..|us| - 1][i] == us[i];
      if last.institution.Some? && last.institution.value != "" then r + [last.institution.value] else r
  }

  // ---------------------------------------------------------------- metrics

  datatype ModuleStat = ModuleStat(progress: real, students: nat, completion: int)

  const NoProgress := ModuleStat(0.0, 0, 0)

  datatype Impact = Impact(
    studentsImpacted: nat,
    itemsDistributed: nat,
    totalValueFunded: int,
    schoolsReached: nat,
    finance: ModuleStat,
    mental: ModuleStat,
    values: ModuleStat,
    ai: ModuleStat,
    period: string,
    region: string)

  predicate Counted(r: RedemptionRec, ids: seq<string>, start: int)
  {
    r.studentId in ids && r.status == "approved" && r.createdAt >= start
  }

  /** `r.productId?.price || 0`. */
  function Price(r: RedemptionRec): int
  {
    IntOr(r.price, 0)
  }

  /** `p.progress || 0`. */
  function GameProgress(p: ProgressRec): int
  {
    IntOr(p.progress, 0)
  }

  predicate IsFinanceGame(p: ProgressRec)
  {
    p.gameType.Some? && (Contains(p.gameType.value, "finance") || Contains(p.gameType.value, "budget"))
  }

  predicate IsMentalGame(p: ProgressRec)
  {
    p.gameType.Some? && (Contains(p.gameType.value, "mental") || Contains(p.gameType.value, "mood"))
  }

  /** One module's statistics: the number of matching game records and
      their mean progress, 0 when none match. */
  function ModuleOf(games: seq<ProgressRec>, matches: ProgressRec -> bool): (m: ModuleStat)
    ensures m.students == Count(games, matches)
    ensures m.students == 0 ==> m.progress == 0.0
    ensures m.students > 0 ==> m.progress == Mean(SumOf(Filter(games, matches), GameProgress), m.students)
    ensures m.completion == 0
  {
    var picked := Filter(games, matches);
    if |picked| > 0 then ModuleStat(Mean(SumOf(picked, GameProgress), |picked|), |picked|, 0)
    else NoProgress
  }

  /** `total / n` as a JavaScript number. */
  function Mean(total: int, n: nat): (m: real)
    requires n > 0
    ensures m * (n as real) == total as real
  {
    MeanTimesCount(total as real, n as real);
    total as real / n as real
  }

  lemma MeanTimesCount(total: real, n: real)
    requires n > 0.0
    ensures (total / n) * n == total
  {
  }

  /** A mean of values in [0, hi] lies in [0, hi]. */
  lemma MeanBounds(total: int, n: nat, hi: int)
    requires n > 0 && 0 <= total <= hi * n
    ensures 0.0 <= Mean(total, n) <= hi as real
  {
    var t, c, h := total as real, n as real, hi as real;
    assert t <= h * c by {
      assert (hi * n) as real == h * c;
    }
    MeanTimesCount(t, c);
    var mean := t / c;
    assert mean * c <= h * c;
    assert (h - mean) * c >= 0.0;
  }

  /** With every progress value in [0, 100], a module's mean lies there too. */
  lemma ModuleProgressInRange(games: seq<ProgressRec>, matches: ProgressRec -> bool)
    requires forall i :: 0 <= i < |games| ==> 0 <= GameProgress(games[i]) <= 100
    ensures 0.0 <= ModuleOf(games, matches).progress <= 100.0
  {
    var picked := Filter(games, matches);
    if |picked| > 0 {
      SumOfBounds(picked, GameProgress, 0, 100);
      MeanBounds(SumOf(picked, GameProgress), |picked|, 100);
    }
  }

  /** `/impact`: the query parameters default to region "all" and period
      "month". */
  function ImpactOf(now: int, regionParam: Option<string>, periodParam: Option<string>,
                    users: seq<UserRec>, redemptions: seq<RedemptionRec>, games: seq<ProgressRec>): (r: Impact)
    ensures r.region == GetOr(regionParam, "all") && r.period == GetOr(periodParam, "month")
    ensures r.values == NoProgress && r.ai == NoProgress
  {
    var region := GetOr(regionParam, "all");
    var period := GetOr(periodParam, "month");
    var start := StartDate(now, period);
    var students := Filter(users, (u: UserRec) => InScope(u, start, region));
    var ids := Ids(students);
    var redeemed := Filter(redemptions, (r: RedemptionRec) => Counted(r, ids, start));
    var scoped := Filter(games, (g: ProgressRec) => g.userId in ids);
    Impact(|students|, |redeemed|, SumOf(redeemed, Price), |Distinct(Institutions(students))|,
      ModuleOf(scoped, IsFinanceGame), ModuleOf(scoped, IsMentalGame), NoProgress, NoProgress,
      period, region)
  }

  /** What the impact figures count: students in scope, their approved
      redemptions in the window, the value of those redemptions with a
      missing price counting 0, the number of distinct truthy institutions
      among the students, and the finance and mental modules over the game
      records of those students (any date). */
  lemma ImpactCounts(now: int, regionParam: Option<string>, periodParam: Option<string>,
                     users: seq<UserRec>, redemptions: seq<RedemptionRec>, games: seq<ProgressRec>)
    ensures var r := ImpactOf(now, regionParam, periodParam, users, redemptions, games);
      var start := StartDate(now, GetOr(periodParam, "month"));
      var region := GetOr(regionParam, "all");
      var students := Filter(users, (u: UserRec) => InScope(u, start, region));
      && r.studentsImpacted == Count(users, u => InScope(u, start, region))
      && r.itemsDistributed == Count(redemptions, x => Counted(x, Ids(students), start))
      && r.totalValueFunded == SumOf(Filter(redemptions, x => Counted(x, Ids(students), start)), Price)
      && r.schoolsReached == |ValuesOf(Institutions(students))|
      && r.finance == ModuleOf(Filter(games, (g: ProgressRec) => g.userId in Ids(students)), IsFinanceGame)
      && r.mental == ModuleOf(Filter(games, (g: ProgressRec) => g.userId in Ids(students)), IsMentalGame)
  {
    var start := StartDate(now, GetOr(periodParam, "month"));
    var region := GetOr(regionParam, "all");
    var students := Filter(users, (u: UserRec) => InScope(u, start, region));
    DistinctCount(Institutions(students));
  }

  /** Progress bounds survive any selection of the records: both modules
      over a filtered list keep their progress in [0, 100] and count at most
      the records of the whole list. */
  lemma FilteredModulesInRange(games: seq<ProgressRec>, keep: ProgressRec -> bool)
    requires forall i :: 0 <= i < |games| ==> 0 <= GameProgress(games[i]) <= 100
    ensures var scoped := Filter(games, keep);
      && 0.0 <= ModuleOf(scoped, IsFinanceGame).progress <= 100.0
      && 0.0 <= ModuleOf(scoped, IsMentalGame).progress <= 100.0
      && ModuleOf(scoped, IsFinanceGame).students <= |games|
      && ModuleOf(scoped, IsMentalGame).students <= |games|
  {
    var scoped := Filter(games, keep);
    forall i | 0 <= i < |scoped|
      ensures 0 <= GameProgress(scoped[i]) <= 100
    {
      var j :| 0 <= j < |games| && games[j] == scoped[i];
    }
    ModuleProgressInRange(scoped, IsFinanceGame);
    ModuleProgressInRange(scoped, IsMentalGame);
  }

  /** With every stored progress value in [0, 100], the finance and mental
      progress `/impact` reports lie in [0, 100], and neither module counts
      more records than are stored. */
  lemma ImpactModulesInRange(now: int, regionParam: Option<string>, periodParam: Option<string>,
                             users: seq<UserRec>, redemptions: seq<RedemptionRec>, games: seq<ProgressRec>)
    requires forall i :: 0 <= i < |games| ==> 0 <= GameProgress(games[i]) <= 100
    ensures var r := ImpactOf(now, regionParam, periodParam, users, redemptions, games);
      && 0.0 <= r.finance.progress <= 100.0 && r.finance.students <= |games|
      && 0.0 <= r.mental.progress <= 100.0 && r.mental.students <= |games|
  {
    var start := StartDate(now, GetOr(periodParam, "month"));
    var region := GetOr(regionParam, "all");
    var ids := Ids(Filter(users, (u: UserRec) => InScope(u, start, region)));
    FilteredModulesInRange(games, (g: ProgressRec) => g.userId in ids);
  }

  /** No school is counted twice: two students of the same institution add
      one school. */
  lemma SameSchoolCountsOnce(a: UserRec, b: UserRec, school: string)
    requires school != ""
    requires a.institution == Some(school) && b.institution == Some(school)
    ensures |Distinct(Institutions([a, b]))| == 1
  {
    var s := Institutions([a, b]);
    DistinctCount(s);
    assert school in s;
    assert ValuesOf(s) == {school};
  }

  // ----------------------------------------------------------------- trends

  /** An instant: a moment in epoch milliseconds, midnight on the first day
      of a month, or midnight on the last day of a month (`new Date(y, m, 0)`
      is the last day of the month before `m`). Months run 0..11. */
  datatype Instant = At(ms: int) | FirstOfMonth(year: int, month: int) | LastOfMonth(year: int, month: int)

  datatype Window = Window(start: Instant, end: Instant)

  datatype Now = Now(ms: int, year: int, month: int)

  datatype TrendEntry = TrendEntry(caption: string, value: nat, periodStart: Instant)

  /** A month count relative to `year`, brought into 0..11 the way the Date
      constructor does. */
  function NormMonth(year: int, month: int): (r: (int, int))
    ensures 0 <= r.1 < 12
    ensures 12 * r.0 + r.1 == 12 * year + month
  {
    (year + month / 12, month % 12)
  }

  const MonthShort: seq<string> := ["Jan", "Feb", "Mar", "Apr", "May", "Jun", "Jul", "Aug", "Sep", "Oct", "Nov", "Dec"]

  /** `Math.ceil(a / b)` for a positive divisor. */
  function CeilDiv(a: int, b: int): (q: int)
    requires b > 0
    ensures b * (q - 1) < a <= b * q
  {
    var f := (-a) / b;
    assert -a == b * f + (-a) % b;
    -f
  }

  /** The quarter label as the route writes it: the quarter of month
      `now.month - 3i`, not brought back into 1..4. */
  function QuarterLabelAsWritten(month: int, i: int): (r: string)
    ensures |r| >= 2 && r[0] == 'Q'
    ensures 0 <= month - i * 3 < 12 ==> r == "Q" + IntToString((month - i * 3) / 3 + 1)
    ensures month - i * 3 < 0 ==> r == "Q0" || r[1] == '-'
  {
    var m := month - i * 3;
    var q := CeilDiv(m + 1, 3);
    assert 0 <= m ==> q == m / 3 + 1;
    assert m < 0 ==> q <= 0;
    "Q" + IntToString(q)
  }

  /** In February the second-to-last entry is labelled "Q0". */
  lemma QuarterLabelZero()
    ensures QuarterLabelAsWritten(1, 1) == "Q0"
    ensures QuarterLabelAsWritten(1, 2) == "Q-1"
  {
    assert CeilDiv(-1, 3) == 0;
    assert CeilDiv(-4, 3) == -1;
  }

  /** The quarter of month `now.month - 3i`, counted across year
      boundaries: always 1..4. */
  function QuarterNumber(year: int, month: int, i: int): (q: int)
    ensures 1 <= q <= 4
  {
    NormMonth(year, month - i * 3).1 / 3 + 1
  }

  function QuarterLabel(year: int, month: int, i: int): (caption: string)
    ensures caption in {"Q1", "Q2", "Q3", "Q4"}
  {
    var q := QuarterNumber(year, month, i);
    var caption := "Q" + IntToString(q);
    assert caption in {"Q1", "Q2", "Q3", "Q4"} by {
      assert IntToString(q) == [DigitChar(q)];
      if q == 1 { assert caption == "Q1"; }
      else if q == 2 { assert caption == "Q2"; }
      else if q == 3 { assert caption == "Q3"; }
      else { assert caption == "Q4"; }
    }
    caption
  }

  /** Whenever the written label is a proper quarter it agrees with the
      corrected one. */
  lemma QuarterLabelAgrees(year: int, month: int, i: nat)
    requires 0 <= month < 12 && 0 <= month - i * 3
    ensures QuarterLabel(year, month, i) == QuarterLabelAsWritten(month, i)
  {
    var m := month - i * 3;
    var r := NormMonth(year, m);
    assert 0 <= m < 12;
    assert 12 * r.0 + r.1 == 12 * year + m;
    assert r.1 == m;
    assert CeilDiv(m + 1, 3) == m / 3 + 1;
  }

  /** The window of the entry `i` periods back: whole weeks back from now,
      or, for months and quarters, from the first day of the month
      `(i + 1) * step` months before the current one to the last day of the
      month `i * step + 1` months before it. */
  function TrendWindow(period: string, now: Now, i: nat): (w: Window)
    ensures period == "week" ==> w == Window(At(now.ms - (i + 1) * 7 * DayMs), At(now.ms - i * 7 * DayMs))
    ensures period != "week" ==>
      var step := if period == "quarter" then 3 else 1;
      && w.start.FirstOfMonth? && w.end.LastOfMonth?
      && MonthIndex(w.start) == 12 * now.year + now.month - (i + 1) * step
      && MonthIndex(w.end) == 12 * now.year + now.month - i * step - 1
  {
    if period == "week" then
      Window(At(now.ms - (i + 1) * 7 * DayMs), At(now.ms - i * 7 * DayMs))
    else
      var step := if period == "quarter" then 3 else 1;
      var s := NormMonth(now.year, now.month - (i + 1) * step);
      var e := NormMonth(now.year, now.month - i * step - 1);
      Window(FirstOfMonth(s.0, s.1), LastOfMonth(e.0, e.1))
  }

  function TrendLabel(period: string, now: Now, i: nat): string
    requires i <= 5
  {
    if period == "week" then "Week " + NatToString(6 - i)
    else if period == "quarter" then QuarterLabel(now.year, now.month, i)
    else MonthShort[NormMonth(now.year, now.month - (i + 1)).1]
  }

  /** The entry `i` periods back: its label, the count of the chosen metric
      in its window (0 for any other metric) and the start of its window. */
  function TrendEntryOf(period: string, metric: string, now: Now, i: nat,
                        students: Window -> nat, items: Window -> nat): TrendEntry
    requires i <= 5
  {
    var w := TrendWindow(period, now, i);
    var value := if metric == "students" then students(w) else if metric == "items" then items(w) else 0;
    TrendEntry(TrendLabel(period, now, i), value, w.start)
  }

  /** `/trends`: entries for 5, 4, ..., 0 periods back, oldest first. The
      query parameters default to period "month" and metric "students" when
      absent, so a request without a metric charts student sign-ups. */
  method Trends(periodParam: Option<string>, metricParam: Option<string>, now: Now,
                students: Window -> nat, items: Window -> nat)
    returns (trends: seq<TrendEntry>)
    ensures |trends| == 6
    ensures forall k :: 0 <= k < 6 ==>
      trends[k] == TrendEntryOf(GetOr(periodParam, "month"), GetOr(metricParam, "students"), now, 5 - k, students, items)
    ensures metricParam == None ==> forall k :: 0 <= k < 6 ==>
      trends[k].value == students(TrendWindow(GetOr(periodParam, "month"), now, 5 - k))
  {
    var period := GetOr(periodParam, "month");
    var metric := GetOr(metricParam, "students");
    trends := [];
    var i := 5;
    while i >= 0
      invariant -1 <= i <= 5
      invariant |trends| == 5 - i
      invariant forall k :: 0 <= k < |trends| ==> trends[k] == TrendEntryOf(period, metric, now, 5 - k, students, items)
    {
      var w := TrendWindow(period, now, i);
      var caption := TrendLabel(period, now, i);
      var value := 0;
      if metric == "students" {
        value := students(w);
      } else if metric == "items" {
        value := items(w);
      }
      assert TrendEntry(caption, value, w.start) == TrendEntryOf(period, metric, now, i, students, items);
      trends := trends + [TrendEntry(caption, value, w.start)];
      i := i - 1;
    }
  }

  /** Weekly entries are labelled "Week 1" to "Week 6" in order, and each
      week ends where the next one starts. */
  lemma WeeklyTrendsTile(now: Now, k: nat)
    requires k < 6
    ensures TrendLabel("week", now, 5 - k) == "Week " + NatToString(k + 1)
    ensures k < 5 ==> TrendWindow("week", now, 5 - k).end == TrendWindow("week", now, 4 - k).start
    ensures TrendWindow("week", now, 5 - k).end.ms - TrendWindow("week", now, 5 - k).start.ms == 7 * DayMs
  {
  }

  function MonthIndex(t: Instant): int
  {
    match t
    case At(ms) => ms
    case FirstOfMonth(y, m) => 12 * y + m
    case LastOfMonth(y, m) => 12 * y + m
  }

  /** Calendar entries are oldest first: each window starts one period
      (one month, or three for quarters) after the one before, and ends in
      the month before the next one starts. */
  lemma CalendarTrendsAscend(period: string, now: Now, i: nat)
    requires period != "week" && 1 <= i <= 5
    ensures var step := if period == "quarter" then 3 else 1;
      && MonthIndex(TrendWindow(period, now, i - 1).start) == MonthIndex(TrendWindow(period, now, i).start) + step
      && MonthIndex(TrendWindow(period, now, i).end) + 1 == MonthIndex(TrendWindow(period, now, i - 1).start)
  {
  }
}
