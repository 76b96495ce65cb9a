/** The daily aggregation: for one user and one date, combine the final counts
    of the completed sessions with the warning logs into one AggregateStat row,
    with its ratio, goal flag and achievement streak, and upsert it. */
module StatAggregation {
  import opened Wrappers
  import opened Numbers
  import opened Text
  import opened Session
  import opened Store

  const SECONDS_PER_DAY: int := 86400

  /** GOAL_RATIO, 80.0 percent, in hundredths of a percent. */
  const GOAL_RATIO: int := 8000

  /** The date (epoch day) of an instant in seconds. */
  function DayOf(t: int): int {
    t / SECONDS_PER_DAY
  }

  /** The `Between` window of a date: from its first instant to the first
      instant of the next date, both ends included. */
  predicate InDayWindow(t: int, date: int) {
    date * SECONDS_PER_DAY <= t <= (date + 1) * SECONDS_PER_DAY
  }

  /** A tick logged exactly at midnight falls into the windows of two dates. */
  lemma MidnightTickInTwoWindows(date: int)
    ensures InDayWindow((date + 1) * SECONDS_PER_DAY, date)
    ensures InDayWindow((date + 1) * SECONDS_PER_DAY, date + 1)
    ensures DayOf((date + 1) * SECONDS_PER_DAY) == date + 1
  {
  }

  // ---------------------------------------------------------------------------
  // The two queries
  // ---------------------------------------------------------------------------

  /** findAllByUserIdAndStartAtBetween: the user's sessions that started in the window. */
  function SessionsOfDay(vs: seq<SessionView>, userId: int, date: int): (r: seq<SessionView>)
    ensures forall v :: v in r <==> v in vs && v.userId == userId && InDayWindow(v.startAt, date)
  {
    if vs == [] then []
    else
      var rest := SessionsOfDay(vs[..|vs| - 1], userId, date);
      var v := vs[|vs| - 1];
      assert vs == vs[..|vs| - 1] + [v];
      if v.userId == userId && InDayWindow(v.startAt, date) then rest + [v] else rest
  }

  /** findAllByUserIdAndTimestampBetween: the user's warning logs in the window. */
  function WarningLogsOfDay(logs: seq<PostureLog>, userId: int, date: int): (r: seq<PostureLog>)
    ensures forall l :: l in r <==> l in logs && l.userId == userId && InDayWindow(l.timestamp, date)
  {
    if logs == [] then []
    else
      var rest := WarningLogsOfDay(logs[..|logs| - 1], userId, date);
      var l := logs[|logs| - 1];
      assert logs == logs[..|logs| - 1] + [l];
      if l.userId == userId && InDayWindow(l.timestamp, date) then rest + [l] else rest
  }

  // ---------------------------------------------------------------------------
  // What the two loops accumulate
  // ---------------------------------------------------------------------------

  /** A session whose final counts enter the sums: COMPLETED with a total. */
  predicate Counted(v: SessionView) {
    v.status == COMPLETED && v.finalTotalCount.Some?
  }

  /** A counted session without a good count: unboxing it throws. */
  predicate HasNullGood(vs: seq<SessionView>) {
    exists i :: 0 <= i < |vs| && Counted(vs[i]) && vs[i].finalGoodCount.None?
  }

  /** One more session: it adds a null good count only if it is counted and has none. */
  lemma HasNullGoodAppend(vs: seq<SessionView>, v: SessionView)
    ensures HasNullGood(vs + [v]) <==> HasNullGood(vs) || (Counted(v) && v.finalGoodCount.None?)
  {
    var w := vs + [v];
    if HasNullGood(w) && !(Counted(v) && v.finalGoodCount.None?) {
      var i :| 0 <= i < |w| && Counted(w[i]) && w[i].finalGoodCount.None?;
      assert i < |vs| && vs[i] == w[i];
    }
    if HasNullGood(vs) {
      var i :| 0 <= i < |vs| && Counted(vs[i]) && vs[i].finalGoodCount.None?;
      assert w[i] == vs[i];
    }
    if Counted(v) && v.finalGoodCount.None? {
      assert w[|vs|] == v;
    }
  }

  lemma HasNullGoodPrefix(vs: seq<SessionView>, n: nat)
    requires n <= |vs| && HasNullGood(vs[..n])
    ensures HasNullGood(vs)
  {
    var i :| 0 <= i < n && Counted(vs[..n][i]) && vs[..n][i].finalGoodCount.None?;
    assert vs[i] == vs[..n][i];
  }

  function SumGood(vs: seq<SessionView>): int {
    if vs == [] then 0
    else
      var v := vs[|vs| - 1];
      SumGood(vs[..|vs| - 1]) + (if Counted(v) then v.finalGoodCount.GetOr(0) else 0)
  }

  function SumTotal(vs: seq<SessionView>): int {
    if vs == [] then 0
    else
      var v := vs[|vs| - 1];
      SumTotal(vs[..|vs| - 1]) + (if Counted(v) then v.finalTotalCount.value else 0)
  }

  /** Every tag of the logs, log after log. */
  function AllTags(logs: seq<PostureLog>): seq<string> {
    if logs == [] then [] else AllTags(logs[..|logs| - 1]) + PostureStates(logs[|logs| - 1])
  }

  /** What `postureCount.merge(key, 1, Integer::sum)` has added up for `key`:
      only warning tags are merged, and a key is matched exactly. */
  function WarningOccurrences(tags: seq<string>, key: string): nat {
    if IsWarning(key) then Occurrences(tags, key) else 0
  }

  // ---------------------------------------------------------------------------
  // The row
  // ---------------------------------------------------------------------------

  /** calculateMaintenanceRatio in hundredths of a percent: good / total x 100,
      rounded half up to two decimals, and 0 for a zero total. */
  function MaintenanceRatio(good: int, total: int): (r: int)
    ensures total == 0 ==> r == 0
  {
    if total == 0 then 0 else RoundQuotient(good * 10000, total)
  }

  /** For a positive total the ratio is good / total x 10000 rounded half up. */
  lemma MaintenanceRatioRounds(good: int, total: int)
    requires total > 0
    ensures var r := MaintenanceRatio(good, total);
      2 * total * r <= 2 * good * 10000 + total < 2 * total * r + 2 * total
  {
  }

  /** The user's row with the latest date before `date`, if any. */
  function LatestBefore(stats: seq<AggregateStat>, userId: int, date: int): (r: Option<AggregateStat>)
    ensures r.Some? ==> r.value in stats && r.value.userId == userId && r.value.statDate < date
    ensures r.Some? ==> forall s :: s in stats && s.userId == userId && s.statDate < date ==> s.statDate <= r.value.statDate
    ensures r.None? ==> forall s :: s in stats ==> !(s.userId == userId && s.statDate < date)
  {
    if stats == [] then None
    else
      var rest := LatestBefore(stats[..|stats| - 1], userId, date);
      var s := stats[|stats| - 1];
      assert stats == stats[..|stats| - 1] + [s];
      if s.userId == userId && s.statDate < date && (rest.None? || rest.value.statDate <= s.statDate)
      then Some(s) else rest
  }

  /** calculateConsecutiveAchievement: 0 on a missed goal; otherwise one more
      than the streak of the most recent earlier row if that row met the goal,
      else 1. The earlier row need not be the day before. */
  function ConsecutiveAchievement(stats: seq<AggregateStat>, userId: int, date: int, achieved: bool): (r: int)
    ensures !achieved ==> r == 0
    ensures achieved && LatestBefore(stats, userId, date).None? ==> r == 1
    ensures achieved && LatestBefore(stats, userId, date).Some? ==>
              var previous := LatestBefore(stats, userId, date).value;
              r == if previous.goalAchieved then previous.consecutiveAchievedDays + 1 else 1
  {
    Streak(LatestBefore(stats, userId, date), achieved)
  }

  /** The streak given the most recent earlier row. */
  function Streak(previous: Option<AggregateStat>, achieved: bool): int {
    if !achieved then 0
    else match previous
      case Some(s) => if s.goalAchieved then s.consecutiveAchievedDays + 1 else 1
      case None => 1
  }

  /** The row the builder makes from the accumulated values: the good and
      total seconds, the warning count and the tally map of the issue keys. */
  function DayRow(userId: int, date: int, good: int, total: int, warnings: int,
                  tally: map<string, int>, previous: Option<AggregateStat>): AggregateStat {
    var ratio := MaintenanceRatio(good, total);
    var achieved := ratio >= GOAL_RATIO;
    AggregateStat(userId, date, ratio, warnings, total, achieved, Streak(previous, achieved),
      MapCount(tally, "FORWARD_HEAD"),
      MapCount(tally, "UNEQUAL_SHOULDERS"),
      MapCount(tally, "UPPER_BODY_TILT"),
      MapCount(tally, "TOO_CLOSE"),
      MapCount(tally, "ASYMMETRIC_POSTURE"),
      MapCount(tally, "HEAD_TILT"),
      MapCount(tally, "LEANING_ON_ARM"))
  }

  /** aggregateStatsForUser as a function of what it reads: no row without a
      warning log in the window, a NullPointerException for a counted session
      without a good count, no row for a zero total, else the day's row. */
  function AggregateSpec(vs: seq<SessionView>, logs: seq<PostureLog>, stats: seq<AggregateStat>,
                         userId: int, date: int): Result<Option<AggregateStat>>
  {
    AggregateFrom(vs, logs, LatestBefore(stats, userId, date), userId, date)
  }

  /** The same, given the most recent earlier row: the only thing the existing
      table contributes. */
  function AggregateFrom(vs: seq<SessionView>, logs: seq<PostureLog>, previous: Option<AggregateStat>,
                         userId: int, date: int): Result<Option<AggregateStat>>
  {
    var sessions := SessionsOfDay(vs, userId, date);
    var warningLogs := WarningLogsOfDay(logs, userId, date);
    if warningLogs == [] then Ok(None)
    else if HasNullGood(sessions) then Err(NULL_POINTER)
    else if SumTotal(sessions) == 0 then Ok(None)
    else
      var tags := AllTags(warningLogs);
      Ok(Some(DayRow(userId, date, SumGood(sessions), SumTotal(sessions), WarningTagCount(tags), Tally(tags), previous)))
  }

  // ---------------------------------------------------------------------------
  // Upsert on (user, date)
  // ---------------------------------------------------------------------------

  predicate HasKey(s: AggregateStat, userId: int, date: int) {
    s.userId == userId && s.statDate == date
  }

  /** findByUserIdAndStatDate: the position of the row with this key. */
  function FindKey(stats: seq<AggregateStat>, userId: int, date: int): (r: Option<nat>)
    ensures r.Some? ==> r.value < |stats| && HasKey(stats[r.value], userId, date)
    ensures r.Some? ==> forall j :: 0 <= j < r.value ==> !HasKey(stats[j], userId, date)
    ensures r.None? ==> forall j :: 0 <= j < |stats| ==> !HasKey(stats[j], userId, date)
  {
    if stats == [] then None
    else if HasKey(stats[0], userId, date) then Some(0)
    else match FindKey(stats[1..], userId, date)
      case None => None
      case Some(i) => Some(i + 1)
  }

  /** save(): overwrite the row with the same key, or append a new one. */
  function Upsert(stats: seq<AggregateStat>, row: AggregateStat): (r: seq<AggregateStat>)
    ensures FindKey(stats, row.userId, row.statDate).Some? ==> |r| == |stats|
    ensures FindKey(stats, row.userId, row.statDate).None? ==> |r| == |stats| + 1
  {
    match FindKey(stats, row.userId, row.statDate)
      case Some(i) => stats[i := row]
      case None => stats + [row]
  }

  /** After an upsert the row is the only one with its key, and every row with
      another key is still there, in its place. */
  lemma UpsertPlacesRow(stats: seq<AggregateStat>, row: AggregateStat)
    requires UniqueKeys(stats)
    ensures UniqueKeys(Upsert(stats, row))
    ensures row in Upsert(stats, row)
    ensures forall s :: s in Upsert(stats, row) && HasKey(s, row.userId, row.statDate) ==> s == row
    ensures forall s :: s in stats && !HasKey(s, row.userId, row.statDate) ==> s in Upsert(stats, row)
    ensures forall j :: 0 <= j < |stats| && !HasKey(stats[j], row.userId, row.statDate) ==> Upsert(stats, row)[j] == stats[j]
  {
    var r := Upsert(stats, row);
    match FindKey(stats, row.userId, row.statDate)
    case Some(i) =>
      assert r[i] == row;
      forall s | s in stats && !HasKey(s, row.userId, row.statDate) ensures s in r {
        var j :| 0 <= j < |stats| && stats[j] == s;
        assert r[j] == s;
      }
    case None =>
      assert r[|stats|] == row;
      forall s | s in stats ensures s in r {
        var j :| 0 <= j < |stats| && stats[j] == s;
        assert r[j] == s;
      }
  }

  /** Upserting the row that is already there changes nothing. */
  lemma UpsertTwice(stats: seq<AggregateStat>, row: AggregateStat)
    ensures Upsert(Upsert(stats, row), row) == Upsert(stats, row)
  {
    var r := Upsert(stats, row);
    match FindKey(stats, row.userId, row.statDate)
    case Some(i) =>
      var k := FindKey(r, row.userId, row.statDate);
      assert HasKey(r[i], row.userId, row.statDate);
      assert k == Some(i) by {
        assert forall j :: 0 <= j < i ==> r[j] == stats[j];
      }
      assert r[i := row] == r;
    case None =>
      var k := FindKey(r, row.userId, row.statDate);
      assert HasKey(r[|stats|], row.userId, row.statDate);
      assert k == Some(|stats|) by {
        assert forall j :: 0 <= j < |stats| ==> r[j] == stats[j];
      }
      assert r[|stats| := row] == r;
  }

  /** The streak lookup only sees rows earlier than `date`, so replacing or
      adding a row at `date` does not change it. */
  lemma {:induction false} LatestBeforeIgnoresReplace(stats: seq<AggregateStat>, i: nat, row: AggregateStat, userId: int, date: int)
    requires i < |stats|
    requires !(stats[i].userId == userId && stats[i].statDate < date)
    requires !(row.userId == userId && row.statDate < date)
    ensures LatestBefore(stats[i := row], userId, date) == LatestBefore(stats, userId, date)
    decreases |stats|
  {
    var n := |stats| - 1;
    var t := stats[i := row];
    if i == n {
      assert t[..n] == stats[..n];
      LatestBeforeSkipsLast(t, userId, date);
      LatestBeforeSkipsLast(stats, userId, date);
    } else {
      assert t[..n] == stats[..n][i := row];
      LatestBeforeIgnoresReplace(stats[..n], i, row, userId, date);
      LatestBeforeSameLast(t, stats, userId, date);
    }
  }

  /** A last row that is not an earlier row of the user is not looked at. */
  lemma LatestBeforeSkipsLast(stats: seq<AggregateStat>, userId: int, date: int)
    requires stats != []
    requires !(stats[|stats| - 1].userId == userId && stats[|stats| - 1].statDate < date)
    ensures LatestBefore(stats, userId, date) == LatestBefore(stats[..|stats| - 1], userId, date)
  {
  }

  /** Two tables with the same last row and equal lookups on the rest agree. */
  lemma LatestBeforeSameLast(a: seq<AggregateStat>, b: seq<AggregateStat>, userId: int, date: int)
    requires |a| == |b| > 0 && a[|a| - 1] == b[|b| - 1]
    requires LatestBefore(a[..|a| - 1], userId, date) == LatestBefore(b[..|b| - 1], userId, date)
    ensures LatestBefore(a, userId, date) == LatestBefore(b, userId, date)
  {
  }

  lemma LatestBeforeIgnoresUpsert(stats: seq<AggregateStat>, row: AggregateStat)
    ensures LatestBefore(Upsert(stats, row), row.userId, row.statDate) == LatestBefore(stats, row.userId, row.statDate)
  {
    match FindKey(stats, row.userId, row.statDate)
    case Some(i) =>
      LatestBeforeIgnoresReplace(stats, i, row, row.userId, row.statDate);
    case None =>
      assert (stats + [row])[..|stats|] == stats;
  }

  /** The table after one aggregation of (user, date). */
  function AggregatedStats(vs: seq<SessionView>, logs: seq<PostureLog>, stats: seq<AggregateStat>,
                           userId: int, date: int): seq<AggregateStat>
  {
    match AggregateSpec(vs, logs, stats, userId, date)
      case Ok(Some(row)) => Upsert(stats, row)
      case _ => stats
  }

  /** The constraint the entity declares on its date column: at most one row
      per date, whoever the user. */
  predicate DateUniqueAsDeclared(stats: seq<AggregateStat>) {
    forall i, j :: 0 <= i < j < |stats| ==> stats[i].statDate != stats[j].statDate
  }

  /** The rows of two users for the same day are both legitimate upserts on
      (user, date), yet the second breaks the declared date constraint. */
  lemma SecondUserSameDayBreaksDateConstraint(date: int)
    ensures var first := AggregateStat(1, date, 9000, 1, 100, true, 1, 1, 0, 0, 0, 0, 0, 0);
      var second := AggregateStat(2, date, 5000, 3, 100, false, 0, 3, 0, 0, 0, 0, 0, 0);
      && DateUniqueAsDeclared([first])
      && UniqueKeys(Upsert([first], second))
      && !DateUniqueAsDeclared(Upsert([first], second))
  {
    var first := AggregateStat(1, date, 9000, 1, 100, true, 1, 1, 0, 0, 0, 0, 0, 0);
    var second := AggregateStat(2, date, 5000, 3, 100, false, 0, 3, 0, 0, 0, 0, 0, 0);
    assert FindKey([first], 2, date) == None;
    var r := Upsert([first], second);
    assert r == [first, second];
    assert r[0].statDate == r[1].statDate;
  }

  /** Re-running an aggregation with unchanged sessions and logs writes the
      same fields again: the table does not change. */
  lemma AggregationIdempotent(vs: seq<SessionView>, logs: seq<PostureLog>, stats: seq<AggregateStat>, userId: int, date: int)
    ensures AggregatedStats(vs, logs, AggregatedStats(vs, logs, stats, userId, date), userId, date)
         == AggregatedStats(vs, logs, stats, userId, date)
  {
    var r := AggregateSpec(vs, logs, stats, userId, date);
    if r.Ok? && r.value.Some? {
      var row := r.value.value;
      RowNeedsLogsAndTotal(vs, logs, stats, userId, date);
      SpecIgnoresUpsert(vs, logs, stats, row);
      UpsertTwice(stats, row);
    }
  }

  /** Upserting a row at (user, date) does not change what that date aggregates to. */
  lemma SpecIgnoresUpsert(vs: seq<SessionView>, logs: seq<PostureLog>, stats: seq<AggregateStat>, row: AggregateStat)
    ensures AggregateSpec(vs, logs, Upsert(stats, row), row.userId, row.statDate)
         == AggregateSpec(vs, logs, stats, row.userId, row.statDate)
  {
    LatestBeforeIgnoresUpsert(stats, row);
  }

  /** Aggregation keeps the table free of duplicate (user, date) rows. */
  lemma AggregationKeepsKeysUnique(vs: seq<SessionView>, logs: seq<PostureLog>, stats: seq<AggregateStat>, userId: int, date: int)
    requires UniqueKeys(stats)
    ensures UniqueKeys(AggregatedStats(vs, logs, stats, userId, date))
  {
    match AggregateSpec(vs, logs, stats, userId, date)
    case Ok(Some(row)) => UpsertPlacesRow(stats, row);
    case _ =>
  }

  // ---------------------------------------------------------------------------
  // Properties of the day's row
  // ---------------------------------------------------------------------------

  /** A row is written only for a user with a warning log in the window and a
      non-zero total from completed sessions; it carries that total and key,
      the ratio of the day's sums, and the goal flag of that ratio. */
  lemma RowNeedsLogsAndTotal(vs: seq<SessionView>, logs: seq<PostureLog>, stats: seq<AggregateStat>, userId: int, date: int)
    requires AggregateSpec(vs, logs, stats, userId, date).Ok?
    requires AggregateSpec(vs, logs, stats, userId, date).value.Some?
    ensures exists l :: l in logs && l.userId == userId && InDayWindow(l.timestamp, date)
    ensures var row := AggregateSpec(vs, logs, stats, userId, date).value.value;
      && row.userId == userId && row.statDate == date
      && row.totalAnalysisSeconds == SumTotal(SessionsOfDay(vs, userId, date)) != 0
      && row.correctRatio == MaintenanceRatio(SumGood(SessionsOfDay(vs, userId, date)), row.totalAnalysisSeconds)
      && row.goalAchieved == (row.correctRatio >= GOAL_RATIO)
  {
    var w := WarningLogsOfDay(logs, userId, date);
    assert w[0] in w;
  }

  /** A session that is not COMPLETED with a total does not change the result. */
  lemma UncountedSessionIgnored(vs: seq<SessionView>, v: SessionView, logs: seq<PostureLog>, stats: seq<AggregateStat>, userId: int, date: int)
    requires !Counted(v)
    ensures AggregateSpec(vs + [v], logs, stats, userId, date) == AggregateSpec(vs, logs, stats, userId, date)
  {
    var s := SessionsOfDay(vs, userId, date);
    assert (vs + [v])[..|vs|] == vs;
    var s' := SessionsOfDay(vs + [v], userId, date);
    if s' != s {
      assert s' == s + [v];
      assert s'[..|s|] == s;
      HasNullGoodAppend(s, v);
    }
  }

  /** 80 good ticks out of 100 give 80.00 percent, which meets the goal. */
  lemma EightyOfHundredMeetsGoal()
    ensures MaintenanceRatio(80, 100) == 8000
    ensures MaintenanceRatio(80, 100) >= GOAL_RATIO
    ensures MaintenanceRatio(79, 100) < GOAL_RATIO
  {
  }

  /** With 0 <= good <= total the ratio lies between 0.00 and 100.00 percent. */
  lemma RatioInRange(good: int, total: int)
    requires 0 <= good <= total && total > 0
    ensures 0 <= MaintenanceRatio(good, total) <= 10000
  {
    RoundedShareBounds(good, total, 10000);
  }

  /** The streak is positive exactly when the goal was met, given earlier
      streaks that are not negative. */
  lemma StreakPositiveIffAchieved(stats: seq<AggregateStat>, userId: int, date: int, achieved: bool)
    requires forall s :: s in stats ==> s.consecutiveAchievedDays >= 0
    ensures ConsecutiveAchievement(stats, userId, date, achieved) > 0 <==> achieved
  {
  }

  /** A met goal extends the streak of the most recent earlier row even across
      a day without a row: a row two days back with streak 3 gives 4. */
  lemma StreakSkipsMissingDay(userId: int, date: int)
    ensures var earlier := AggregateStat(userId, date - 2, 9000, 0, 100, true, 3, 0, 0, 0, 0, 0, 0, 0);
      ConsecutiveAchievement([earlier], userId, date, true) == 4
  {
    var earlier := AggregateStat(userId, date - 2, 9000, 0, 100, true, 3, 0, 0, 0, 0, 0, 0, 0);
    assert [earlier][..0] == [];
  }

  /** The seven issue keys are warning tags: none is "GOOD" or "UNKNOWN" in any case. */
  lemma IssueKeysAreWarnings()
    ensures forall k :: k in POSTURE_KEYS ==> IsWarning(k)
  {
  }

  /** The seven issue keys are pairwise different. */
  lemma IssueKeysDistinct()
    ensures forall i, j :: 0 <= i < j < |POSTURE_KEYS| ==> POSTURE_KEYS[i] != POSTURE_KEYS[j]
  {
    assert "TOO_CLOSE"[0] != "HEAD_TILT"[0];
  }

  // ---------------------------------------------------------------------------
  // The tally map
  // ---------------------------------------------------------------------------

  /** The count `getOrDefault(key, 0)` reads from the tally map. */
  function MapCount(m: map<string, int>, key: string): int {
    if key in m then m[key] else 0
  }

  /** initializePostureCountMap: the seven issue keys, each at 0. */
  function InitialPostureCountMap(): (m: map<string, int>)
    ensures forall k :: k in POSTURE_KEYS ==> k in m
  {
    map["FORWARD_HEAD" := 0, "UNEQUAL_SHOULDERS" := 0, "UPPER_BODY_TILT" := 0, "TOO_CLOSE" := 0,
        "ASYMMETRIC_POSTURE" := 0, "HEAD_TILT" := 0, "LEANING_ON_ARM" := 0]
  }

  lemma InitialCountsZero()
    ensures forall key :: MapCount(InitialPostureCountMap(), key) == 0
  {
  }

  /** merge(key, 1, Integer::sum). */
  function Merge(m: map<string, int>, key: string): map<string, int> {
    if key in m then m[key := m[key] + 1] else m[key := 1]
  }

  /** A merge adds one under its key and changes no other count. */
  lemma MergeCounts(m: map<string, int>, key: string)
    ensures forall k :: MapCount(Merge(m, key), k) == MapCount(m, k) + (if k == key then 1 else 0)
  {
  }

  /** The postureCount map after the nested loop over the tags. */
  function Tally(tags: seq<string>): map<string, int> {
    if tags == [] then InitialPostureCountMap()
    else
      var x := tags[|tags| - 1];
      var rest := Tally(tags[..|tags| - 1]);
      if IsWarning(x) then Merge(rest, x) else rest
  }

  /** The tally counts each warning tag under its exact spelling, and nothing else. */
  lemma {:induction false} TallyCounts(tags: seq<string>)
    ensures forall key :: MapCount(Tally(tags), key) == WarningOccurrences(tags, key)
    decreases |tags|
  {
    if tags == [] {
      InitialCountsZero();
    } else {
      var n := |tags| - 1;
      TallyCounts(tags[..n]);
      if IsWarning(tags[n]) {
        MergeCounts(Tally(tags[..n]), tags[n]);
      }
    }
  }

  /** One more tag: the count and the tally extend as the tag loop body does. */
  lemma TallyAppend(tags: seq<string>, x: string)
    ensures Tally(tags + [x]) == if IsWarning(x) then Merge(Tally(tags), x) else Tally(tags)
    ensures WarningTagCount(tags + [x]) == WarningTagCount(tags) + (if IsWarning(x) then 1 else 0)
  {
    assert (tags + [x])[..|tags|] == tags;
  }

  /** Each of the seven issue counts is exactly the number of tags spelled as
      that key. */
  lemma IssueCountsExact(tags: seq<string>)
    ensures forall k :: k in POSTURE_KEYS ==> MapCount(Tally(tags), k) == Occurrences(tags, k)
  {
    IssueKeysAreWarnings();
    TallyCounts(tags);
  }

  /** The counts a map holds for several keys, added up. */
  function SumCounts(m: map<string, int>, keys: seq<string>): int {
    if keys == [] then 0 else MapCount(m, keys[0]) + SumCounts(m, keys[1..])
  }

  lemma {:induction false} SumCountsZero(m: map<string, int>, keys: seq<string>)
    requires forall key :: MapCount(m, key) == 0
    ensures SumCounts(m, keys) == 0
  {
    if keys != [] {
      SumCountsZero(m, keys[1..]);
    }
  }

  lemma {:induction false} SumCountsMerge(m: map<string, int>, x: string, keys: seq<string>)
    requires forall i, j :: 0 <= i < j < |keys| ==> keys[i] != keys[j]
    ensures SumCounts(Merge(m, x), keys) == SumCounts(m, keys) + (if x in keys then 1 else 0)
  {
    if keys != [] {
      MergeCounts(m, x);
      SumCountsMerge(m, x, keys[1..]);
      assert x in keys <==> x == keys[0] || x in keys[1..];
    }
  }

  /** The tally of distinct keys never adds up to more than the warning tags. */
  lemma {:induction false} TallyWithinWarnings(tags: seq<string>, keys: seq<string>)
    requires forall i, j :: 0 <= i < j < |keys| ==> keys[i] != keys[j]
    ensures SumCounts(Tally(tags), keys) <= WarningTagCount(tags)
    decreases |tags|
  {
    if tags == [] {
      InitialCountsZero();
      SumCountsZero(Tally(tags), keys);
    } else {
      var n := |tags| - 1;
      assert tags == tags[..n] + [tags[n]];
      TallyAppend(tags[..n], tags[n]);
      TallyWithinWarnings(tags[..n], keys);
      if IsWarning(tags[n]) {
        SumCountsMerge(Tally(tags[..n]), tags[n], keys);
      }
    }
  }

  /** The seven per-issue counts of a row add up to at most its warning count:
      every tallied tag is a warning, and warnings under other spellings (such
      as lower-case tags) count only in the total. */
  lemma IssueCountsWithinWarnings(tags: seq<string>)
    ensures var m := Tally(tags);
      MapCount(m, "FORWARD_HEAD") + MapCount(m, "UNEQUAL_SHOULDERS") + MapCount(m, "UPPER_BODY_TILT")
        + MapCount(m, "TOO_CLOSE") + MapCount(m, "ASYMMETRIC_POSTURE") + MapCount(m, "HEAD_TILT")
        + MapCount(m, "LEANING_ON_ARM")
      <= WarningTagCount(tags)
  {
    IssueKeysDistinct();
    TallyWithinWarnings(tags, POSTURE_KEYS);
  }

  /** A day's row, read back through its issue columns, holds the tally. */
  lemma RowHoldsTally(userId: int, date: int, good: int, total: int, tags: seq<string>, previous: Option<AggregateStat>)
    ensures forall k :: k in POSTURE_KEYS ==>
      IssueCount(DayRow(userId, date, good, total, WarningTagCount(tags), Tally(tags), previous), k) == Occurrences(tags, k)
  {
    IssueCountsExact(tags);
  }

  // ---------------------------------------------------------------------------
  // The service
  // ---------------------------------------------------------------------------

  /** The session loop of aggregateStatsForUser: adds up the final counts of
      the counted sessions, and stops (`ok` false) at the first counted session
      whose good count is null. */
  method SumSessions(sessions: seq<SessionView>) returns (totalGoodTime: int, totalAnalysisSeconds: int, ok: bool)
    ensures ok <==> !HasNullGood(sessions)
    ensures ok ==> totalGoodTime == SumGood(sessions) && totalAnalysisSeconds == SumTotal(sessions)
  {
    totalGoodTime := 0;
    totalAnalysisSeconds := 0;
    var i := 0;
    while i < |sessions|
      invariant 0 <= i <= |sessions|
      invariant !HasNullGood(sessions[..i])
      invariant totalGoodTime == SumGood(sessions[..i])
      invariant totalAnalysisSeconds == SumTotal(sessions[..i])
    {
      var session := sessions[i];
      assert sessions[..i + 1] == sessions[..i] + [session];
      assert sessions[..i + 1][..i] == sessions[..i];
      HasNullGoodAppend(sessions[..i], session);
      if session.status == COMPLETED && session.finalTotalCount.Some? {
        if session.finalGoodCount.None? {
          // Unboxing the null good count throws; the rest of the list never matters.
          HasNullGoodPrefix(sessions, i + 1);
          return 0, 0, false;
        }
        totalGoodTime := totalGoodTime + session.finalGoodCount.value;
        totalAnalysisSeconds := totalAnalysisSeconds + session.finalTotalCount.value;
      }
      i := i + 1;
    }
    assert sessions[..i] == sessions;
    return totalGoodTime, totalAnalysisSeconds, true;
  }

  /** The log loop of aggregateStatsForUser: counts every warning tag of the
      logs and merges it into the tally map under its own spelling. */
  method TallyWarningLogs(warningLogs: seq<PostureLog>) returns (totalWarningCount: int, postureCount: map<string, int>)
    ensures totalWarningCount == WarningTagCount(AllTags(warningLogs))
    ensures postureCount == Tally(AllTags(warningLogs))
  {
    totalWarningCount := 0;
    postureCount := InitialPostureCountMap();
    var j := 0;
    while j < |warningLogs|
      invariant 0 <= j <= |warningLogs|
      invariant totalWarningCount == WarningTagCount(AllTags(warningLogs[..j]))
      invariant postureCount == Tally(AllTags(warningLogs[..j]))
    {
      assert warningLogs[..j + 1][..j] == warningLogs[..j];
      totalWarningCount, postureCount := TallyStates(PostureStates(warningLogs[j]), totalWarningCount, postureCount,
                                                     AllTags(warningLogs[..j]));
      j := j + 1;
    }
    assert warningLogs[..j] == warningLogs;
  }

  /** The tag loop inside the log loop: carries on the count and the tally
      from the tags `seen` before, through the tags of one log. */
  method TallyStates(states: seq<string>, warnings: int, tally: map<string, int>, ghost seen: seq<string>)
    returns (totalWarningCount: int, postureCount: map<string, int>)
    requires warnings == WarningTagCount(seen) && tally == Tally(seen)
    ensures totalWarningCount == WarningTagCount(seen + states)
    ensures postureCount == Tally(seen + states)
  {
    totalWarningCount, postureCount := warnings, tally;
    var k := 0;
    assert seen + states[..0] == seen;
    while k < |states|
      invariant 0 <= k <= |states|
      invariant totalWarningCount == WarningTagCount(seen + states[..k])
      invariant postureCount == Tally(seen + states[..k])
    {
      var state := states[k];
      ghost var now := seen + states[..k];
      assert seen + states[..k + 1] == now + [state];
      TallyAppend(now, state);
      if IsWarning(state) {
        totalWarningCount := totalWarningCount + 1;
        postureCount := Merge(postureCount, state);
      }
      k := k + 1;
    }
    assert states[..k] == states;
  }

  /** The reading half of aggregateStatsForUser: the two window queries, the
      session loop, the log loop and the row builder. Err is the
      NullPointerException of the session loop, Ok(None) an early return. */
  method BuildDayRow(views: seq<SessionView>, logs: seq<PostureLog>, stats: seq<AggregateStat>,
                     userId: int, date: int) returns (r: Result<Option<AggregateStat>>)
    ensures r == AggregateSpec(views, logs, stats, userId, date)
  {
    var sessions := SessionsOfDay(views, userId, date);
    var warningLogs := WarningLogsOfDay(logs, userId, date);
    if |warningLogs| == 0 {
      return Ok(None);
    }
    var totalGoodTime, totalAnalysisSeconds, ok := SumSessions(sessions);
    if !ok {
      return Err(NULL_POINTER);
    }
    if totalAnalysisSeconds == 0 {
      return Ok(None);
    }
    var totalWarningCount, postureCount := TallyWarningLogs(warningLogs);

    var maintenanceRatio := MaintenanceRatio(totalGoodTime, totalAnalysisSeconds);
    var goalAchieved := maintenanceRatio >= GOAL_RATIO;
    var consecutiveDays := ConsecutiveAchievement(stats, userId, date, goalAchieved);
    var stat := AggregateStat(userId, date, maintenanceRatio, totalWarningCount, totalAnalysisSeconds,
      goalAchieved, consecutiveDays,
      MapCount(postureCount, "FORWARD_HEAD"),
      MapCount(postureCount, "UNEQUAL_SHOULDERS"),
      MapCount(postureCount, "UPPER_BODY_TILT"),
      MapCount(postureCount, "TOO_CLOSE"),
      MapCount(postureCount, "ASYMMETRIC_POSTURE"),
      MapCount(postureCount, "HEAD_TILT"),
      MapCount(postureCount, "LEANING_ON_ARM"));
    assert stat == DayRow(userId, date, totalGoodTime, totalAnalysisSeconds, totalWarningCount, postureCount,
                          LatestBefore(stats, userId, date));
    return Ok(Some(stat));
  }

  /** aggregateStatsForUser: builds the day's row from the store and upserts
      it. The exception it can raise is returned as a failure, with the table
      untouched. */
  method AggregateStatsForUser(db: Database, userId: int, date: int) returns (outcome: Outcome)
    requires db.Valid()
    modifies db
    ensures db.Valid()
    ensures db.users == old(db.users) && db.sessions == old(db.sessions) && db.logs == old(db.logs)
    ensures db.SessionViews() == old(db.SessionViews())
    ensures db.stats == AggregatedStats(old(db.SessionViews()), old(db.logs), old(db.stats), userId, date)
    ensures outcome == if AggregateSpec(old(db.SessionViews()), old(db.logs), old(db.stats), userId, date).Err?
                       then Fail(NULL_POINTER) else Pass
  {
    var views := db.SessionViews();
    var r := BuildDayRow(views, db.logs, db.stats, userId, date);
    match r
    case Err(_) =>
      return Fail(NULL_POINTER);
    case Ok(None) =>
      return Pass;
    case Ok(Some(stat)) =>
      UpsertPlacesRow(db.stats, stat);
      db.stats := Upsert(db.stats, stat);
      return Pass;
  }

  /** The table after aggregating each listed user in turn; a failing user
      leaves it as it was and the next user is still aggregated. */
  function AggregateAll(vs: seq<SessionView>, logs: seq<PostureLog>, stats: seq<AggregateStat>,
                        users: seq<int>, date: int): seq<AggregateStat>
  {
    if users == [] then stats
    else AggregatedStats(vs, logs, AggregateAll(vs, logs, stats, users[..|users| - 1], date), users[|users| - 1], date)
  }

  /** One more user: the fold aggregates that user on the table so far. */
  lemma AggregateAllAppend(vs: seq<SessionView>, logs: seq<PostureLog>, stats: seq<AggregateStat>,
                           users: seq<int>, u: int, date: int)
    ensures AggregateAll(vs, logs, stats, users + [u], date)
         == AggregatedStats(vs, logs, AggregateAll(vs, logs, stats, users, date), u, date)
  {
    assert (users + [u])[..|users|] == users;
  }

  /** A user whose aggregation throws on one table throws on every table,
      and leaves it as it was. */
  lemma FailureKeepsTable(vs: seq<SessionView>, logs: seq<PostureLog>, s1: seq<AggregateStat>, s2: seq<AggregateStat>, userId: int, date: int)
    requires AggregateSpec(vs, logs, s1, userId, date).Err?
    ensures AggregateSpec(vs, logs, s2, userId, date).Err?
    ensures AggregatedStats(vs, logs, s2, userId, date) == s2
  {
  }

  /** A user whose aggregation throws does not affect the rows of the others. */
  lemma {:induction false} FailingUserIsolated(vs: seq<SessionView>, logs: seq<PostureLog>, stats: seq<AggregateStat>,
                                              before: seq<int>, u: int, after: seq<int>, date: int)
    requires AggregateSpec(vs, logs, stats, u, date).Err?
    ensures AggregateAll(vs, logs, stats, before + [u] + after, date) == AggregateAll(vs, logs, stats, before + after, date)
    decreases |after|
  {
    if after == [] {
      assert before + [u] + after == before + [u];
      assert before + after == before;
      AggregateAllAppend(vs, logs, stats, before, u, date);
      FailureKeepsTable(vs, logs, stats, AggregateAll(vs, logs, stats, before, date), u, date);
    } else {
      var n := |after| - 1;
      var a := after[n];
      assert before + [u] + after == (before + [u] + after[..n]) + [a];
      assert before + after == (before + after[..n]) + [a];
      AggregateAllAppend(vs, logs, stats, before + [u] + after[..n], a, date);
      AggregateAllAppend(vs, logs, stats, before + after[..n], a, date);
      FailingUserIsolated(vs, logs, stats, before, u, after[..n], date);
    }
  }

  /** The fold over one more user, on tables given as values. */
  lemma AggregateAllStep(vs: seq<SessionView>, logs: seq<PostureLog>, stats: seq<AggregateStat>,
                         users: seq<int>, i: nat, date: int, before: seq<AggregateStat>, after: seq<AggregateStat>)
    requires i < |users|
    requires before == AggregateAll(vs, logs, stats, users[..i], date)
    requires after == AggregatedStats(vs, logs, before, users[i], date)
    ensures after == AggregateAll(vs, logs, stats, users[..i + 1], date)
  {
    var us := users[..i + 1];
    assert us[..|us| - 1] == users[..i];
    assert us[|us| - 1] == users[i];
  }

  /** One turn of the nightly loop: the next user's aggregation, with its
      failure caught, extends the fold by that user. */
  method AggregateNext(db: Database, ghost views: seq<SessionView>, ghost logs: seq<PostureLog>,
                       ghost stats: seq<AggregateStat>, users: seq<int>, i: nat, date: int)
    requires db.Valid() && i < |users|
    requires db.SessionViews() == views && db.logs == logs
    requires db.stats == AggregateAll(views, logs, stats, users[..i], date)
    modifies db
    ensures db.Valid()
    ensures db.users == old(db.users) && db.sessions == old(db.sessions) && db.logs == logs
    ensures db.SessionViews() == views
    ensures db.stats == AggregateAll(views, logs, stats, users[..i + 1], date)
  {
    ghost var before := db.stats;
    var _ := AggregateStatsForUser(db, users[i], date);
    AggregateAllStep(views, logs, stats, users, i, date, before, db.stats);
  }

  /** runDailyAggregation: aggregates every user for the day before `now`,
      catching each user's failure and going on with the next. */
  method RunDailyAggregation(db: Database, now: int)
    requires db.Valid()
    modifies db
    ensures db.Valid()
    ensures db.users == old(db.users) && db.sessions == old(db.sessions) && db.logs == old(db.logs)
    ensures db.stats == AggregateAll(old(db.SessionViews()), old(db.logs), old(db.stats), old(db.users), DayOf(now) - 1)
  {
    var targetDate := DayOf(now) - 1;
    var allUsers := db.users;
    ghost var views := db.SessionViews();
    ghost var logs := db.logs;
    ghost var stats := db.stats;
    ghost var sessions := db.sessions;
    var i := 0;
    while i < |allUsers|
      invariant 0 <= i <= |allUsers|
      invariant db.Valid()
      invariant db.users == allUsers && db.sessions == sessions && db.logs == logs
      invariant db.SessionViews() == views
      invariant db.stats == AggregateAll(views, logs, stats, allUsers[..i], targetDate)
    {
      AggregateNext(db, views, logs, stats, allUsers, i, targetDate);
      i := i + 1;
    }
    assert allUsers[..i] == allUsers;
  }
}
