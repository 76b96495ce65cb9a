/** The weekly self-management report read from the daily statistics table:
    four date windows, the averages and comparison of the summary cards, the
    issue distribution, its three most frequent issues and one stretching
    guide for each of them. Ratios are integer hundredths of a percent. */
module SelfManagement {
  import opened Wrappers
  import opened Numbers
  import opened Text
  import opened Store
  import opened StatAggregation

  // ---------------------------------------------------------------------------
  // Date windows (epoch days; 1970-01-01 was a Thursday)
  // ---------------------------------------------------------------------------

  /** The Monday of the ISO week holding `day` (LocalDate.with(MONDAY)). */
  function Monday(day: int): int {
    day - (day + 3) % 7
  }

  lemma MondayOfWeek(day: int)
    ensures (Monday(day) + 3) % 7 == 0
    ensures Monday(day) <= day < Monday(day) + 7
    ensures Monday(Monday(day)) == Monday(day)
  {
  }

  /** 1970-01-05 was a Monday, and every day of that week maps onto it. */
  lemma FirstEpochMonday()
    ensures Monday(4) == 4 && Monday(10) == 4 && Monday(3) == -3
  {
  }

  /** The rows of one user whose date lies in [lo, hi], in ascending date order
      (findAllByUserIdAndStatDateBetweenOrderByStatDateAsc). */
  function RowsBetween(stats: seq<AggregateStat>, userId: int, lo: int, hi: int): (r: seq<AggregateStat>)
    decreases hi - lo
  {
    if hi < lo then [] else RowsBetween(stats, userId, lo, hi - 1) + RowOn(stats, userId, hi)
  }

  /** The row of one user and day, if the table has one. */
  function RowOn(stats: seq<AggregateStat>, userId: int, date: int): seq<AggregateStat> {
    match FindKey(stats, userId, date)
    case Some(i) => [stats[i]]
    case None => []
  }

  /** Every row of the window is a row of the table, of that user, in range. */
  lemma {:induction false} RowsBetweenSound(stats: seq<AggregateStat>, userId: int, lo: int, hi: int)
    ensures forall i :: 0 <= i < |RowsBetween(stats, userId, lo, hi)| ==>
      var s := RowsBetween(stats, userId, lo, hi)[i];
      s in stats && s.userId == userId && lo <= s.statDate <= hi
    decreases hi - lo
  {
    if lo <= hi {
      RowsBetweenSound(stats, userId, lo, hi - 1);
    }
  }

  /** The window's dates strictly increase. */
  lemma {:induction false} RowsBetweenAscending(stats: seq<AggregateStat>, userId: int, lo: int, hi: int)
    ensures forall i, j :: 0 <= i < j < |RowsBetween(stats, userId, lo, hi)| ==>
      RowsBetween(stats, userId, lo, hi)[i].statDate < RowsBetween(stats, userId, lo, hi)[j].statDate
    decreases hi - lo
  {
    if lo <= hi {
      RowsBetweenAscending(stats, userId, lo, hi - 1);
      RowsBetweenSound(stats, userId, lo, hi - 1);
    }
  }

  /** With one row per (user, date), every row of the user in range is in the window. */
  lemma {:induction false} RowsBetweenComplete(stats: seq<AggregateStat>, userId: int, lo: int, hi: int, k: nat)
    requires UniqueKeys(stats)
    requires k < |stats| && stats[k].userId == userId && lo <= stats[k].statDate <= hi
    ensures stats[k] in RowsBetween(stats, userId, lo, hi)
    decreases hi - lo
  {
    if stats[k].statDate == hi {
      var f := FindKey(stats, userId, hi);
      assert HasKey(stats[k], userId, hi);
      assert f.Some? && f.value == k;
    } else {
      RowsBetweenComplete(stats, userId, lo, hi - 1, k);
    }
  }

  // ---------------------------------------------------------------------------
  // Summary-card arithmetic
  // ---------------------------------------------------------------------------

  function SumRatios(rows: seq<AggregateStat>): int {
    if rows == [] then 0 else SumRatios(rows[..|rows| - 1]) + rows[|rows| - 1].correctRatio
  }

  /** calculateAverageRatio: the mean ratio rounded half up to hundredths; an
      empty list averages 0. */
  function AverageRatio(rows: seq<AggregateStat>): (r: int)
    ensures rows == [] ==> r == 0
  {
    if rows == [] then 0 else RoundQuotient(SumRatios(rows), |rows|)
  }

  predicate RatiosInRange(rows: seq<AggregateStat>) {
    forall i :: 0 <= i < |rows| ==> 0 <= rows[i].correctRatio <= 10000
  }

  lemma {:induction false} SumRatiosBounds(rows: seq<AggregateStat>)
    requires RatiosInRange(rows)
    ensures 0 <= SumRatios(rows) <= 10000 * |rows|
  {
    if rows != [] {
      SumRatiosBounds(rows[..|rows| - 1]);
    }
  }

  /** Ratios between 0 and 100 percent average to a ratio between them. */
  lemma AverageInRange(rows: seq<AggregateStat>)
    requires RatiosInRange(rows)
    ensures 0 <= AverageRatio(rows) <= 10000
  {
    if rows != [] {
      SumRatiosBounds(rows);
      RoundSign(SumRatios(rows), |rows|);
      RoundAtMost(SumRatios(rows), |rows|, 10000);
    }
  }

  /** Rounding keeps the sign of a quotient by a positive divisor. */
  lemma RoundSign(n: int, d: int)
    requires d > 0
    ensures n >= 0 ==> RoundHalfUp(n, d) >= 0
    ensures n <= 0 ==> RoundHalfUp(n, d) <= 0
  {
    var r := RoundHalfUp(n, d);
    if n >= 0 && r < 0 {
      MulMonotone(2 * d, r + 1, 0);
    }
    if n <= 0 && r > 0 {
      MulMonotone(2 * d, 1, r);
    }
  }

  /** A numerator of at most c times the divisor rounds to at most c. */
  lemma RoundAtMost(n: int, d: int, c: int)
    requires d > 0 && n <= c * d
    ensures RoundHalfUp(n, d) <= c
  {
    var r := RoundHalfUp(n, d);
    if r > c {
      MulMonotone(2 * d, c + 1, r);
    }
  }

  /** An exact multiple rounds to its factor. */
  lemma RoundExact(c: int, d: int)
    requires d > 0
    ensures RoundHalfUp(c * d, d) == c
  {
    var r := RoundHalfUp(c * d, d);
    RoundAtMost(c * d, d, c);
    if r < c {
      MulMonotone(2 * d, r + 1, c);
    }
  }

  /** calculateComparison: the change of the current against the previous
      average, as a percentage rounded half up to hundredths; against a zero
      previous average it is 100 percent when the current one is positive, else 0. */
  function Comparison(current: int, previous: int): (r: int)
    ensures previous == 0 ==> (r == 10000 <==> current > 0) && (r == 0 <==> current <= 0)
  {
    if previous == 0 then (if current > 0 then 10000 else 0)
    else RoundQuotient((current - previous) * 10000, previous)
  }

  /** Against a positive previous average the sign of the change follows the
      direction of the move, an unchanged average is 0 and a doubled one is 100. */
  lemma ComparisonDirection(current: int, previous: int)
    requires previous > 0
    ensures current >= previous ==> Comparison(current, previous) >= 0
    ensures current <= previous ==> Comparison(current, previous) <= 0
    ensures Comparison(previous, previous) == 0
    ensures Comparison(2 * previous, previous) == 10000
  {
    var change := (current - previous) * 10000;
    if current >= previous {
      MulMonotone(10000, 0, current - previous);
    }
    if current <= previous {
      MulMonotone(10000, current - previous, 0);
    }
    RoundSign(change, previous);
    RoundSign(0, previous);
    assert (2 * previous - previous) * 10000 == 10000 * previous;
    RoundExact(10000, previous);
  }

  /** calculateTotalWarning: the warnings of the rows added up. */
  function TotalWarning(rows: seq<AggregateStat>): int {
    if rows == [] then 0 else TotalWarning(rows[..|rows| - 1]) + rows[|rows| - 1].totalWarningCount
  }

  /** The total over two adjacent stretches of rows is the sum of their totals. */
  lemma {:induction false} TotalWarningSplits(a: seq<AggregateStat>, b: seq<AggregateStat>)
    ensures TotalWarning(a + b) == TotalWarning(a) + TotalWarning(b)
    decreases |b|
  {
    if b == [] {
      assert a + b == a;
    } else {
      var b' := b[..|b| - 1];
      assert (a + b)[..|a + b| - 1] == a + b';
      assert (a + b)[|a + b| - 1] == b[|b| - 1];
      TotalWarningSplits(a, b');
    }
  }

  // ---------------------------------------------------------------------------
  // The issue distribution
  // ---------------------------------------------------------------------------

  /** One issue's count added up over the rows. */
  function IssueSum(rows: seq<AggregateStat>, key: string): int {
    if rows == [] then 0 else IssueSum(rows[..|rows| - 1], key) + IssueCount(rows[|rows| - 1], key)
  }

  /** The distribution over the rows: each issue with a positive total. */
  function Distribution(rows: seq<AggregateStat>): map<string, int> {
    map k | k in POSTURE_KEYS && IssueSum(rows, k) > 0 :: IssueSum(rows, k)
  }

  /** HashMap.merge with Integer::sum: put the value, or add it to the present one. */
  function MergeSum(m: map<string, int>, key: string, v: int): map<string, int> {
    if key in m then m[key := m[key] + v] else m[key := v]
  }

  /** The seven merges the loop makes for one row. */
  function AddRow(m: map<string, int>, s: AggregateStat): map<string, int> {
    var m1 := MergeSum(m, "FORWARD_HEAD", s.forwardHeadCount);
    var m2 := MergeSum(m1, "UNEQUAL_SHOULDERS", s.unequalShouldersCount);
    var m3 := MergeSum(m2, "UPPER_BODY_TILT", s.upperBodyTiltCount);
    var m4 := MergeSum(m3, "TOO_CLOSE", s.tooCloseCount);
    var m5 := MergeSum(m4, "ASYMMETRIC_POSTURE", s.asymmetricPostureCount);
    var m6 := MergeSum(m5, "HEAD_TILT", s.headTiltCount);
    MergeSum(m6, "LEANING_ON_ARM", s.leaningOnArmCount)
  }

  lemma MergeSumCount(m: map<string, int>, key: string, v: int, k: string)
    ensures k in MergeSum(m, key, v) <==> k in m || k == key
    ensures MapCount(MergeSum(m, key, v), k) == MapCount(m, k) + (if k == key then v else 0)
  {
  }

  /** A row's merges add its count under each issue key. */
  lemma AddRowCount(m: map<string, int>, s: AggregateStat, k: string)
    ensures k in AddRow(m, s) <==> k in m || k in POSTURE_KEYS
    ensures MapCount(AddRow(m, s), k) == MapCount(m, k) + (if k in POSTURE_KEYS then IssueCount(s, k) else 0)
  {
    var m1 := MergeSum(m, "FORWARD_HEAD", s.forwardHeadCount);
    var m2 := MergeSum(m1, "UNEQUAL_SHOULDERS", s.unequalShouldersCount);
    var m3 := MergeSum(m2, "UPPER_BODY_TILT", s.upperBodyTiltCount);
    var m4 := MergeSum(m3, "TOO_CLOSE", s.tooCloseCount);
    var m5 := MergeSum(m4, "ASYMMETRIC_POSTURE", s.asymmetricPostureCount);
    var m6 := MergeSum(m5, "HEAD_TILT", s.headTiltCount);
    MergeSumCount(m, "FORWARD_HEAD", s.forwardHeadCount, k);
    MergeSumCount(m1, "UNEQUAL_SHOULDERS", s.unequalShouldersCount, k);
    MergeSumCount(m2, "UPPER_BODY_TILT", s.upperBodyTiltCount, k);
    MergeSumCount(m3, "TOO_CLOSE", s.tooCloseCount, k);
    MergeSumCount(m4, "ASYMMETRIC_POSTURE", s.asymmetricPostureCount, k);
    MergeSumCount(m5, "HEAD_TILT", s.headTiltCount, k);
    MergeSumCount(m6, "LEANING_ON_ARM", s.leaningOnArmCount, k);
    assert "TOO_CLOSE"[0] != "HEAD_TILT"[0];
  }

  lemma AddRowCounts(m: map<string, int>, s: AggregateStat)
    ensures forall k :: k in AddRow(m, s) ==> k in m || k in POSTURE_KEYS
    ensures forall k :: k in POSTURE_KEYS ==> MapCount(AddRow(m, s), k) == MapCount(m, k) + IssueCount(s, k)
  {
    forall k | k in AddRow(m, s) || k in POSTURE_KEYS
      ensures k in AddRow(m, s) ==> k in m || k in POSTURE_KEYS
      ensures k in POSTURE_KEYS ==> MapCount(AddRow(m, s), k) == MapCount(m, k) + IssueCount(s, k)
    {
      AddRowCount(m, s, k);
    }
  }

  /** calculatePostureDistribution: merge every row's seven counts into a map,
      then keep the entries with a positive total. */
  method CalculatePostureDistribution(stats: seq<AggregateStat>) returns (distribution: map<string, int>)
    ensures distribution == Distribution(stats)
  {
    var merged: map<string, int> := map[];
    var i := 0;
    while i < |stats|
      invariant 0 <= i <= |stats|
      invariant forall k :: k in merged ==> k in POSTURE_KEYS
      invariant forall k :: k in POSTURE_KEYS ==> MapCount(merged, k) == IssueSum(stats[..i], k)
    {
      AddRowCounts(merged, stats[i]);
      assert stats[..i + 1][..i] == stats[..i];
      merged := AddRow(merged, stats[i]);
      i := i + 1;
    }
    assert stats[..i] == stats;
    distribution := map k | k in merged && merged[k] > 0 :: merged[k];
  }

  // ---------------------------------------------------------------------------
  // The three most frequent issues
  // ---------------------------------------------------------------------------

  /** The entries the ranking considers: not GOOD in any case, and positive. */
  function Eligible(dist: map<string, int>): set<string> {
    set k | k in dist && !EqualsIgnoreCase(k, "GOOD") && dist[k] > 0
  }

  /** What findTop3FrequentIssues returns: up to three eligible entries,
      distinct, by non-increasing count, as many as there are up to three, and
      no eligible entry left out counts more than one taken in. Ties are
      broken by the HashMap's iteration order, which this leaves open. */
  predicate IsTop3(dist: map<string, int>, top: seq<string>) {
    && |top| == (if |Eligible(dist)| < 3 then |Eligible(dist)| else 3)
    && (forall i :: 0 <= i < |top| ==> top[i] in Eligible(dist))
    && (forall i, j :: 0 <= i < j < |top| ==> top[i] != top[j])
    && (forall i, j :: 0 <= i < j < |top| ==> dist[top[i]] >= dist[top[j]])
    && (forall k, i :: k in Eligible(dist) && k !in top && 0 <= i < |top| ==> dist[k] <= dist[top[i]])
  }

  /** A non-empty finite set of keys has one with the largest count. */
  lemma {:induction false} MaxExists(s: set<string>, dist: map<string, int>)
    requires s != {} && s <= dist.Keys
    ensures exists best :: best in s && forall k :: k in s ==> dist[k] <= dist[best]
    decreases |s|
  {
    var x :| x in s;
    if s != {x} {
      MaxExists(s - {x}, dist);
      var rest :| rest in s - {x} && forall k :: k in s - {x} ==> dist[k] <= dist[rest];
      if dist[x] < dist[rest] {
        assert forall k :: k in s ==> dist[k] <= dist[rest];
      } else {
        assert forall k :: k in s ==> dist[k] <= dist[x];
      }
    } else {
      assert forall k :: k in s ==> dist[k] <= dist[x];
    }
  }

  /** The ranking part way: `top` taken in order, `remaining` the eligible
      entries not taken, none of which counts more than a taken one. */
  predicate Ranked(dist: map<string, int>, remaining: set<string>, top: seq<string>) {
    && remaining <= Eligible(dist)
    && |remaining| == |Eligible(dist)| - |top|
    && (forall k :: k in Eligible(dist) ==> (k in remaining <==> k !in top))
    && (forall i :: 0 <= i < |top| ==> top[i] in Eligible(dist))
    && (forall i, j :: 0 <= i < j < |top| ==> top[i] != top[j])
    && (forall i, j :: 0 <= i < j < |top| ==> dist[top[i]] >= dist[top[j]])
    && (forall k, i :: k in remaining && 0 <= i < |top| ==> dist[k] <= dist[top[i]])
  }

  /** Taking a remaining entry of largest count extends the ranking. */
  lemma RankedStep(dist: map<string, int>, remaining: set<string>, top: seq<string>, best: string)
    requires Ranked(dist, remaining, top)
    requires best in remaining && forall k :: k in remaining ==> dist[k] <= dist[best]
    ensures Ranked(dist, remaining - {best}, top + [best])
  {
    var top' := top + [best];
    forall i, j | 0 <= i < j < |top'|
      ensures top'[i] != top'[j] && dist[top'[i]] >= dist[top'[j]]
    {
      if j == |top| {
        assert top'[i] == top[i] && top'[j] == best;
      }
    }
  }

  /** An ordering of every eligible entry, or the first three of it, is a top three. */
  lemma RankedDone(dist: map<string, int>, remaining: set<string>, top: seq<string>)
    requires Ranked(dist, remaining, top)
    requires |top| <= 3 && (|top| == 3 || remaining == {})
    ensures IsTop3(dist, top)
  {
  }

  /** findTop3FrequentIssues: repeatedly take an entry of largest count among
      those not yet taken, at most three times. */
  method FindTop3FrequentIssues(dist: map<string, int>) returns (top: seq<string>)
    ensures IsTop3(dist, top)
  {
    var remaining := Eligible(dist);
    top := [];
    while |top| < 3 && remaining != {}
      invariant |top| <= 3 && Ranked(dist, remaining, top)
      decreases 3 - |top|
    {
      MaxExists(remaining, dist);
      var best :| best in remaining && forall k :: k in remaining ==> dist[k] <= dist[best];
      RankedStep(dist, remaining, top, best);
      top := top + [best];
      remaining := remaining - {best};
    }
    RankedDone(dist, remaining, top);
  }

  /** The first of the top issues is an issue of largest count, and there is
      none exactly when no entry is eligible. */
  lemma TopFirstIsMostFrequent(dist: map<string, int>, top: seq<string>)
    requires IsTop3(dist, top)
    ensures top == [] <==> Eligible(dist) == {}
    ensures top != [] ==> forall k :: k in Eligible(dist) ==> dist[k] <= dist[top[0]]
  {
    if top != [] {
      forall k | k in Eligible(dist)
        ensures dist[k] <= dist[top[0]]
      {
        if k in top {
          var j :| 0 <= j < |top| && top[j] == k;
          if j > 0 {
            assert dist[top[0]] >= dist[top[j]];
          }
        }
      }
    }
  }

  /** The label of the summary card: the first top issue, or GOOD. */
  function MostFrequentIssue(top: seq<string>): string {
    if top == [] then "GOOD" else top[0]
  }

  // ---------------------------------------------------------------------------
  // Recommendations
  // ---------------------------------------------------------------------------

  /** A stretching guide as the content service lists it. */
  datatype Guide = Guide(guideId: int, title: string)

  datatype Recommendation = Recommendation(problemType: string, recommendedGuideTitle: string, guideId: int)

  /** The issues, in order, for which the content service has a guide. */
  function WithGuides(issues: seq<string>, guidesOf: string -> seq<Guide>): (r: seq<string>)
    ensures |r| <= |issues|
  {
    if issues == [] then [] else WithGuides(issues[..|issues| - 1], guidesOf) + IfGuided(issues[|issues| - 1], guidesOf)
  }

  function IfGuided(issue: string, guidesOf: string -> seq<Guide>): seq<string> {
    if guidesOf(issue) != [] then [issue] else []
  }

  /** Exactly the issues that have a guide are recommended for. */
  lemma {:induction false} WithGuidesMembers(issues: seq<string>, guidesOf: string -> seq<Guide>, x: string)
    ensures x in WithGuides(issues, guidesOf) <==> x in issues && guidesOf(x) != []
  {
    if issues != [] {
      var init := issues[..|issues| - 1];
      WithGuidesMembers(init, guidesOf, x);
      assert issues == init + [issues[|issues| - 1]];
    }
  }

  /** What generateRecommendationsForTopIssues returns: one recommendation per
      issue with a guide, in the issues' order, each naming a guide that the
      content service lists for that issue. */
  predicate RecommendsFor(issues: seq<string>, guidesOf: string -> seq<Guide>, recs: seq<Recommendation>) {
    && |recs| == |WithGuides(issues, guidesOf)|
    && forall i :: 0 <= i < |recs| ==>
         && recs[i].problemType == WithGuides(issues, guidesOf)[i]
         && Guide(recs[i].guideId, recs[i].recommendedGuideTitle) in guidesOf(recs[i].problemType)
  }

  /** An issue without guides adds no recommendation. */
  lemma RecommendsSkip(issues: seq<string>, i: nat, guidesOf: string -> seq<Guide>, recs: seq<Recommendation>)
    requires i < |issues| && guidesOf(issues[i]) == []
    requires RecommendsFor(issues[..i], guidesOf, recs)
    ensures RecommendsFor(issues[..i + 1], guidesOf, recs)
  {
    assert issues[..i + 1][..i] == issues[..i];
    assert WithGuides(issues[..i + 1], guidesOf) == WithGuides(issues[..i], guidesOf) + [];
  }

  /** An issue with guides adds one recommendation naming one of them. */
  lemma RecommendsAdd(issues: seq<string>, i: nat, guidesOf: string -> seq<Guide>, recs: seq<Recommendation>, rec: Recommendation)
    requires i < |issues| && guidesOf(issues[i]) != []
    requires rec.problemType == issues[i] && Guide(rec.guideId, rec.recommendedGuideTitle) in guidesOf(issues[i])
    requires RecommendsFor(issues[..i], guidesOf, recs)
    ensures RecommendsFor(issues[..i + 1], guidesOf, recs + [rec])
  {
    assert issues[..i + 1][..i] == issues[..i];
    assert WithGuides(issues[..i + 1], guidesOf) == WithGuides(issues[..i], guidesOf) + [issues[i]];
  }

  /** generateRecommendationsForTopIssues: for each issue, a guide drawn at
      random from its list, skipping issues without guides. The random draw is
      any index of the list. */
  method GenerateRecommendations(issues: seq<string>, guidesOf: string -> seq<Guide>) returns (recs: seq<Recommendation>)
    ensures RecommendsFor(issues, guidesOf, recs)
  {
    recs := [];
    var i := 0;
    while i < |issues|
      invariant 0 <= i <= |issues|
      invariant RecommendsFor(issues[..i], guidesOf, recs)
    {
      var problemType := issues[i];
      var guides := guidesOf(problemType);
      if guides != [] {
        var pick :| 0 <= pick < |guides|;
        var randomGuide := guides[pick];
        var rec := Recommendation(problemType, randomGuide.title, randomGuide.guideId);
        RecommendsAdd(issues, i, guidesOf, recs, rec);
        recs := recs + [rec];
      } else {
        RecommendsSkip(issues, i, guidesOf, recs);
      }
      i := i + 1;
    }
    assert issues[..i] == issues;
  }

  // ---------------------------------------------------------------------------
  // The report
  // ---------------------------------------------------------------------------

  datatype CalendarAchievement = CalendarAchievement(date: int, ratio: int, achieved: bool)

  datatype StatReport = StatReport(
    dates: seq<int>,
    correctRatios: seq<int>,
    warningCounts: seq<int>,
    currentAvgRatio: int,
    weeklyAvgRatio: int,
    weeklyTotalWarning: int,
    ratioChangeVsPreviousWeek: int,
    currentTotalWarning: int,
    currentConsecutiveAchievedDays: int,
    mostFrequentIssue: string,
    postureDistribution: map<string, int>,
    recommendations: seq<Recommendation>,
    monthlyAchievements: seq<CalendarAchievement>)

  /** The seven days ending on the reference day. */
  function RollingWindow(stats: seq<AggregateStat>, userId: int, referenceDate: int): seq<AggregateStat> {
    RowsBetween(stats, userId, referenceDate - 6, referenceDate)
  }

  /** A row of the user dated in the seven days ending on the reference day. */
  predicate InRollingWindow(s: AggregateStat, userId: int, referenceDate: int) {
    s.userId == userId && referenceDate - 6 <= s.statDate <= referenceDate
  }

  /** With unique (user, date) keys, the rolling window is empty exactly when
      the table has no row of the user in those seven days. */
  lemma RollingWindowEmptyIff(stats: seq<AggregateStat>, userId: int, referenceDate: int)
    requires UniqueKeys(stats)
    ensures RollingWindow(stats, userId, referenceDate) == [] <==>
              forall k :: 0 <= k < |stats| ==> !InRollingWindow(stats[k], userId, referenceDate)
  {
    var w := RollingWindow(stats, userId, referenceDate);
    if w == [] {
      forall k | 0 <= k < |stats| ensures !InRollingWindow(stats[k], userId, referenceDate) {
        if InRollingWindow(stats[k], userId, referenceDate) {
          RowsBetweenComplete(stats, userId, referenceDate - 6, referenceDate, k);
        }
      }
    } else {
      RowsBetweenSound(stats, userId, referenceDate - 6, referenceDate);
      var k :| 0 <= k < |stats| && stats[k] == w[0];
      assert InRollingWindow(stats[k], userId, referenceDate);
    }
  }

  /** Monday of the reference week up to the reference day. */
  function CalendarWeek(stats: seq<AggregateStat>, userId: int, referenceDate: int): seq<AggregateStat> {
    RowsBetween(stats, userId, Monday(referenceDate), referenceDate)
  }

  /** Monday to Sunday of the week before. */
  function LastWeek(stats: seq<AggregateStat>, userId: int, referenceDate: int): seq<AggregateStat> {
    RowsBetween(stats, userId, Monday(referenceDate) - 7, Monday(referenceDate) - 1)
  }

  /** The summary part of the report, the values that do not depend on the
      ranking or the random draw. */
  predicate SummaryHolds(stats: seq<AggregateStat>, userId: int, referenceDate: int, monthStart: int, monthEnd: int, r: StatReport)
  {
    var rolling := RollingWindow(stats, userId, referenceDate);
    var calendar := CalendarWeek(stats, userId, referenceDate);
    var month := RowsBetween(stats, userId, monthStart, monthEnd);
    && rolling != []
    && |r.dates| == |rolling| && |r.correctRatios| == |rolling| && |r.warningCounts| == |rolling|
    && (forall i :: 0 <= i < |rolling| ==>
          r.dates[i] == rolling[i].statDate && r.correctRatios[i] == rolling[i].correctRatio
          && r.warningCounts[i] == rolling[i].totalWarningCount)
    && r.currentAvgRatio == rolling[|rolling| - 1].correctRatio
    && r.currentTotalWarning == rolling[|rolling| - 1].totalWarningCount
    && r.currentConsecutiveAchievedDays == rolling[|rolling| - 1].consecutiveAchievedDays
    && r.weeklyAvgRatio == AverageRatio(calendar)
    && r.weeklyTotalWarning == TotalWarning(calendar)
    && r.ratioChangeVsPreviousWeek == Comparison(AverageRatio(calendar), AverageRatio(LastWeek(stats, userId, referenceDate)))
    && r.postureDistribution == Distribution(rolling)
    && |r.monthlyAchievements| == |month|
    && (forall i :: 0 <= i < |month| ==>
          r.monthlyAchievements[i] == CalendarAchievement(month[i].statDate, month[i].correctRatio, month[i].goalAchieved))
  }

  /** The ranked part of the report: the label and the recommendations come
      from one admissible top-three ranking of the distribution. */
  ghost predicate RankingHolds(guidesOf: string -> seq<Guide>, r: StatReport) {
    exists top :: IsTop3(r.postureDistribution, top)
      && r.mostFrequentIssue == MostFrequentIssue(top)
      && RecommendsFor(top, guidesOf, r.recommendations)
  }

  /** The summary values of a non-empty rolling window. */
  method BuildSummary(stats: seq<AggregateStat>, userId: int, referenceDate: int, monthStart: int, monthEnd: int,
                      rolling: seq<AggregateStat>, distribution: map<string, int>,
                      mostFrequentIssue: string, recommendations: seq<Recommendation>) returns (r: StatReport)
    requires rolling == RollingWindow(stats, userId, referenceDate) && rolling != []
    requires distribution == Distribution(rolling)
    ensures SummaryHolds(stats, userId, referenceDate, monthStart, monthEnd, r)
    ensures r.mostFrequentIssue == mostFrequentIssue && r.recommendations == recommendations
  {
    var calendarWeekStats := CalendarWeek(stats, userId, referenceDate);
    var lastWeekStats := LastWeek(stats, userId, referenceDate);
    var monthlyStats := RowsBetween(stats, userId, monthStart, monthEnd);
    var calendarAvgRatio := AverageRatio(calendarWeekStats);
    var lastWeekAvg := AverageRatio(lastWeekStats);
    var latestStat := rolling[|rolling| - 1];
    r := StatReport(
      seq(|rolling|, i requires 0 <= i < |rolling| => rolling[i].statDate),
      seq(|rolling|, i requires 0 <= i < |rolling| => rolling[i].correctRatio),
      seq(|rolling|, i requires 0 <= i < |rolling| => rolling[i].totalWarningCount),
      latestStat.correctRatio,
      calendarAvgRatio,
      TotalWarning(calendarWeekStats),
      Comparison(calendarAvgRatio, lastWeekAvg),
      latestStat.totalWarningCount,
      latestStat.consecutiveAchievedDays,
      mostFrequentIssue,
      distribution,
      recommendations,
      seq(|monthlyStats|, i requires 0 <= i < |monthlyStats| =>
        CalendarAchievement(monthlyStats[i].statDate, monthlyStats[i].correctRatio, monthlyStats[i].goalAchieved)));
  }

  /** getWeeklyReport: an empty rolling window fails SESSION_NOT_FOUND, however
      many rows the other windows hold; otherwise the report of the four
      windows. The month's first and last day are given by the calendar. */
  method GetWeeklyReport(stats: seq<AggregateStat>, userId: int, referenceDate: int, monthStart: int, monthEnd: int,
                         guidesOf: string -> seq<Guide>) returns (r: Result<StatReport>)
    requires UniqueKeys(stats)
    ensures r.Err? <==> RollingWindow(stats, userId, referenceDate) == []
    ensures r.Err? <==> forall k :: 0 <= k < |stats| ==> !InRollingWindow(stats[k], userId, referenceDate)
    ensures r.Err? ==> r.error == SESSION_NOT_FOUND
    ensures r.Ok? ==> SummaryHolds(stats, userId, referenceDate, monthStart, monthEnd, r.value)
    ensures r.Ok? ==> RankingHolds(guidesOf, r.value)
  {
    var rollingStats := RollingWindow(stats, userId, referenceDate);
    RollingWindowEmptyIff(stats, userId, referenceDate);
    if rollingStats == [] {
      return Err(SESSION_NOT_FOUND);
    }
    var rollingDistribution := CalculatePostureDistribution(rollingStats);
    var top3Issues := FindTop3FrequentIssues(rollingDistribution);
    var recommendations := GenerateRecommendations(top3Issues, guidesOf);
    var report := BuildSummary(stats, userId, referenceDate, monthStart, monthEnd, rollingStats,
                               rollingDistribution, MostFrequentIssue(top3Issues), recommendations);
    assert IsTop3(report.postureDistribution, top3Issues);
    return Ok(report);
  }

  /** The report's label is an issue of largest count in the distribution, or
      GOOD when the distribution is empty. */
  lemma ReportedMostFrequent(guidesOf: string -> seq<Guide>, r: StatReport)
    requires RankingHolds(guidesOf, r)
    ensures Eligible(r.postureDistribution) == {} ==> r.mostFrequentIssue == "GOOD"
    ensures Eligible(r.postureDistribution) != {} ==>
      r.mostFrequentIssue in Eligible(r.postureDistribution)
      && forall k :: k in Eligible(r.postureDistribution) ==>
           r.postureDistribution[k] <= r.postureDistribution[r.mostFrequentIssue]
  {
    var top :| IsTop3(r.postureDistribution, top)
      && r.mostFrequentIssue == MostFrequentIssue(top)
      && RecommendsFor(top, guidesOf, r.recommendations);
    TopFirstIsMostFrequent(r.postureDistribution, top);
  }

  /** At most three recommendations, each for an issue of the distribution and
      naming one of its guides. */
  lemma ReportedRecommendations(guidesOf: string -> seq<Guide>, r: StatReport)
    requires RankingHolds(guidesOf, r)
    ensures |r.recommendations| <= 3
    ensures forall i :: 0 <= i < |r.recommendations| ==>
      r.recommendations[i].problemType in Eligible(r.postureDistribution)
      && Guide(r.recommendations[i].guideId, r.recommendations[i].recommendedGuideTitle) in guidesOf(r.recommendations[i].problemType)
  {
    var top :| IsTop3(r.postureDistribution, top)
      && r.mostFrequentIssue == MostFrequentIssue(top)
      && RecommendsFor(top, guidesOf, r.recommendations);
    forall i | 0 <= i < |r.recommendations|
      ensures r.recommendations[i].problemType in Eligible(r.postureDistribution)
    {
      var p := r.recommendations[i].problemType;
      assert p in WithGuides(top, guidesOf);
      WithGuidesMembers(top, guidesOf, p);
    }
  }

  /** The distribution holds exactly the issues of positive total, with that total. */
  lemma DistributionEntries(rows: seq<AggregateStat>, k: string)
    ensures k in Distribution(rows) <==> k in POSTURE_KEYS && IssueSum(rows, k) > 0
    ensures k in Distribution(rows) ==> Distribution(rows)[k] == IssueSum(rows, k)
  {
  }
}
