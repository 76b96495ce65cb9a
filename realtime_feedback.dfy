/** The live counter cache: one Redis hash per user holding the latest tags,
    their timestamp, and running good / warning / total counters (stored as
    decimal text, as Redis stores hash values), plus the poll-time view. */
module RealtimeFeedback {
  import opened Wrappers
  import opened Numbers
  import opened Text
  import StringListConverter

  type Hash = map<string, string>

  const FIELD_LATEST_STATES: string := "states"
  const FIELD_TIMESTAMP: string := "timestamp"
  const FIELD_GOOD_COUNT: string := "good_count"
  const FIELD_WARNING_COUNT: string := "warning_count"
  const FIELD_TOTAL_COUNT: string := "total_count"
  /** The idle window after which Redis drops a user's record: 10 minutes. */
  const CACHE_EXPIRATION_SECONDS: int := 10 * 60

  // ---------------------------------------------------------------------------
  // The Redis commands, as functions on one hash
  // ---------------------------------------------------------------------------

  function Field(h: Hash, f: string): Option<string> {
    if f in h then Some(h[f]) else None
  }

  /** HINCRBY: an absent field counts as 0; a value that is not a long, or a
      result outside the long range, makes the command fail. */
  function HIncrBy(h: Hash, field: string, delta: int): (r: Option<Hash>)
    ensures r.Some? ==> field in r.value && r.value == h[field := r.value[field]]
  {
    var current := if field in h then ParseLong(h[field]) else Some(0);
    if current.None? || !InLong(current.value + delta) then None
    else Some(h[field := ToDecimal(current.value + delta)])
  }

  /** The hash after the commands run so far, and whether all of them succeeded. */
  datatype UpdateOutcome = UpdateOutcome(hash: Hash, completed: bool)

  /** One HINCRBY in the sequence: skipped once an earlier command failed. */
  function IncrementStep(o: UpdateOutcome, field: string, delta: int): UpdateOutcome {
    if !o.completed then o
    else match HIncrBy(o.hash, field, delta)
      case None => UpdateOutcome(o.hash, false)
      case Some(h) => UpdateOutcome(h, true)
  }

  /** A counter step, skipped when `run` is false. */
  function CounterStep(o: UpdateOutcome, f: string, delta: int, run: bool): UpdateOutcome {
    if run then IncrementStep(o, f, delta) else o
  }

  /** The three HINCRBY commands: good and warning only when positive, total always. */
  function RunCounters(h: Hash, good: int, warning: int): UpdateOutcome {
    CounterStep(CounterStep(CounterStep(UpdateOutcome(h, true),
      FIELD_GOOD_COUNT, good, good > 0), FIELD_WARNING_COUNT, warning, warning > 0),
      FIELD_TOTAL_COUNT, 1, true)
  }

  /** The final HSET of the latest tags and timestamp, when nothing failed. */
  function LatestStep(o: UpdateOutcome, statesString: string, now: string): UpdateOutcome {
    if !o.completed then o
    else UpdateOutcome(o.hash + map[FIELD_LATEST_STATES := statesString, FIELD_TIMESTAMP := now], true)
  }

  /** The command sequence for given counts and tag text. */
  function ApplyUpdate(h: Hash, good: int, warning: int, statesString: string, now: string): UpdateOutcome {
    LatestStep(RunCounters(h, good, warning), statesString, now)
  }

  /** What updatePostureCache leaves in the user's hash. The commands run in
      order (good, warning, total, the latest-state fields); the first one that
      fails ends the update, and the commands before it stay applied. */
  function CacheUpdate(h: Hash, tags: seq<string>, now: string): UpdateOutcome {
    ApplyUpdate(h, GoodTagCount(tags), WarningTagCount(tags), Join(tags), now)
  }

  // ---------------------------------------------------------------------------
  // The store
  // ---------------------------------------------------------------------------

  class RedisCache {
    /** The hash at key "posture:feedback:<userId>", by user id. */
    var hashes: map<int, Hash>
    /** The time to live last set on a key, in seconds. */
    var ttl: map<int, int>

    constructor ()
      ensures hashes == map[] && ttl == map[]
    {
      hashes := map[];
      ttl := map[];
    }

    function HashOf(user: int): Hash
      reads this
    {
      if user in hashes then hashes[user] else map[]
    }

    method IncrementField(user: int, field: string, delta: int) returns (ok: bool)
      modifies this
      ensures ok == HIncrBy(old(HashOf(user)), field, delta).Some?
      ensures hashes == if ok then old(hashes)[user := HIncrBy(old(HashOf(user)), field, delta).value] else old(hashes)
      ensures ttl == old(ttl)
    {
      var r := HIncrBy(HashOf(user), field, delta);
      ok := r.Some?;
      if ok {
        hashes := hashes[user := r.value];
      }
    }

    method PutAll(user: int, entries: Hash)
      modifies this
      ensures hashes == old(hashes)[user := old(HashOf(user)) + entries]
      ensures ttl == old(ttl)
    {
      hashes := hashes[user := HashOf(user) + entries];
    }

    /** EXPIRE: sets the time to live of an existing key. */
    method Expire(user: int, seconds: int)
      modifies this
      ensures hashes == old(hashes)
      ensures ttl == if user in old(hashes) then old(ttl)[user := seconds] else old(ttl)
    {
      if user in hashes {
        ttl := ttl[user := seconds];
      }
    }

    /** DEL: removes the key and its time to live. */
    method Delete(user: int)
      modifies this
      ensures hashes == old(hashes) - {user}
      ensures ttl == old(ttl) - {user}
    {
      hashes := hashes - {user};
      ttl := ttl - {user};
    }
  }

  /** The three HINCRBY commands of one update, stopping at the first failure. */
  method RunCounterCommands(cache: RedisCache, userId: int, goodCount: int, warningCount: int) returns (ok: bool)
    modifies cache
    ensures ok == RunCounters(old(cache.HashOf(userId)), goodCount, warningCount).completed
    ensures cache.HashOf(userId) == RunCounters(old(cache.HashOf(userId)), goodCount, warningCount).hash
    ensures cache.hashes - {userId} == old(cache.hashes) - {userId}
    ensures cache.ttl == old(cache.ttl)
  {
    ghost var o := UpdateOutcome(cache.HashOf(userId), true);
    ghost var others := cache.hashes - {userId};
    ok := true;
    if goodCount > 0 {
      OthersKept(cache.hashes, userId, HIncrBy(cache.HashOf(userId), FIELD_GOOD_COUNT, goodCount));
      ok := cache.IncrementField(userId, FIELD_GOOD_COUNT, goodCount);
    }
    o := CounterStep(o, FIELD_GOOD_COUNT, goodCount, goodCount > 0);
    assert ok == o.completed && cache.HashOf(userId) == o.hash && cache.hashes - {userId} == others;
    if ok && warningCount > 0 {
      OthersKept(cache.hashes, userId, HIncrBy(cache.HashOf(userId), FIELD_WARNING_COUNT, warningCount));
      ok := cache.IncrementField(userId, FIELD_WARNING_COUNT, warningCount);
    }
    o := CounterStep(o, FIELD_WARNING_COUNT, warningCount, warningCount > 0);
    assert ok == o.completed && cache.HashOf(userId) == o.hash && cache.hashes - {userId} == others;
    if ok {
      OthersKept(cache.hashes, userId, HIncrBy(cache.HashOf(userId), FIELD_TOTAL_COUNT, 1));
      ok := cache.IncrementField(userId, FIELD_TOTAL_COUNT, 1);
    }
    o := CounterStep(o, FIELD_TOTAL_COUNT, 1, true);
  }

  /** updatePostureCache: adds the good and warning tag counts, adds 1 to the
      total, overwrites the latest tags and timestamp and renews the 10-minute
      time to live. A failing command is swallowed: the call always returns. */
  method UpdatePostureCache(cache: RedisCache, userId: int, postureStates: seq<string>, now: string)
    modifies cache
    ensures cache.HashOf(userId) == CacheUpdate(old(cache.HashOf(userId)), postureStates, now).hash
    ensures cache.hashes - {userId} == old(cache.hashes) - {userId}
    ensures cache.ttl == if CacheUpdate(old(cache.HashOf(userId)), postureStates, now).completed
                         then old(cache.ttl)[userId := CACHE_EXPIRATION_SECONDS] else old(cache.ttl)
  {
    var goodCount := GoodTagCount(postureStates);
    var warningCount := WarningTagCount(postureStates);
    var ok := RunCounterCommands(cache, userId, goodCount, warningCount);
    if ok {
      var statesString := Join(postureStates);
      var entries := map[FIELD_LATEST_STATES := statesString, FIELD_TIMESTAMP := now];
      OthersKept(cache.hashes, userId, Some(cache.HashOf(userId) + entries));
      cache.PutAll(userId, entries);
      cache.Expire(userId, CACHE_EXPIRATION_SECONDS);
    }
  }

  /** Writing one user's key leaves every other key as it was. */
  lemma OthersKept(m: map<int, Hash>, user: int, h: Option<Hash>)
    ensures h.Some? ==> m[user := h.value] - {user} == m - {user}
  {
  }

  /** clearUserCache: deletes the user's record. */
  method ClearUserCache(cache: RedisCache, userId: int)
    modifies cache
    ensures cache.hashes == old(cache.hashes) - {userId}
    ensures cache.ttl == old(cache.ttl) - {userId}
    ensures cache.HashOf(userId) == map[]
  {
    cache.Delete(userId);
  }

  // ---------------------------------------------------------------------------
  // The read side
  // ---------------------------------------------------------------------------

  /** The coaching messages of the fixed tag-to-message table. */
  datatype Message =
    | GoodPostureMessage
    | ForwardHeadMessage
    | UnevenShoulderMessage
    | UpperTiltMessage
    | TooCloseMessage
    | AsymmetricMessage
    | HeadTiltMessage
    | ArmLeanMessage
    | AnalysingMessage
    | WaitingForDataMessage

  /** getSingleFeedbackMessage: an exact, case-sensitive match on the tag. */
  function FeedbackMessage(postureState: string): Message {
    if postureState == "Good" then GoodPostureMessage
    else if postureState == "FORWARD_HEAD" then ForwardHeadMessage
    else if postureState == "UNE_SHOULDER" then UnevenShoulderMessage
    else if postureState == "UPPER_TILT" then UpperTiltMessage
    else if postureState == "TOO_CLOSE" then TooCloseMessage
    else if postureState == "ASYMMETRIC" then AsymmetricMessage
    else if postureState == "HEAD_TILT" then HeadTiltMessage
    else if postureState == "ARM_LEAN" then ArmLeanMessage
    else AnalysingMessage
  }

  /** safeParseLong: a missing value or one Long.parseLong rejects reads as 0. */
  function SafeParseLong(value: Option<string>): (r: int)
    ensures InLong(r)
    ensures value.None? ==> r == 0
    ensures value.Some? && ParseLong(value.value).None? ==> r == 0
  {
    if value.None? then 0
    else match ParseLong(value.value)
      case None => 0
      case Some(n) => n
  }

  /** A value written by Long.toString reads back as that number. */
  lemma SafeParseDecimal(n: int)
    requires InLong(n)
    ensures SafeParseLong(Some(ToDecimal(n))) == n
  {
    ParseDecimal(n);
  }

  /** Keeps the elements that are not blank, in order. */
  function KeepNonBlank(xs: seq<string>): (r: seq<string>)
    ensures |r| <= |xs|
    ensures forall x :: x in r <==> x in xs && Trim(x) != ""
  {
    if xs == [] then []
    else if Trim(xs[0]) == "" then KeepNonBlank(xs[1..])
    else [xs[0]] + KeepNonBlank(xs[1..])
  }

  /** getPostureStatesList: "" becomes ["UNKNOWN"]; any other string its
      comma-separated pieces that are not blank, trimmed. */
  function PostureStatesList(statesString: string): (r: seq<string>)
    ensures statesString == "" ==> r == ["UNKNOWN"]
  {
    if statesString == "" then ["UNKNOWN"]
    else StringListConverter.TrimAll(KeepNonBlank(Split(statesString)))
  }

  /** Filtering blank pieces and then trimming is trimming and then dropping
      the empty pieces. */
  lemma {:induction false} FilterThenTrim(xs: seq<string>)
    ensures StringListConverter.TrimAll(KeepNonBlank(xs)) == StringListConverter.KeepNonEmpty(StringListConverter.TrimAll(xs))
  {
    if xs != [] {
      var t := StringListConverter.TrimAll(xs);
      var rest := KeepNonBlank(xs[1..]);
      FilterThenTrim(xs[1..]);
      assert t[1..] == StringListConverter.TrimAll(xs[1..]);
      assert t[0] == Trim(xs[0]);
      if Trim(xs[0]) != "" {
        TrimAllCons(xs[0], rest);
      }
    }
  }

  lemma TrimAllCons(x: string, ys: seq<string>)
    ensures StringListConverter.TrimAll([x] + ys) == [Trim(x)] + StringListConverter.TrimAll(ys)
  {
    assert StringListConverter.TrimAll([x] + ys)[1..] == StringListConverter.TrimAll(ys);
  }

  /** The feedback view and the log converter read a stored tag string the
      same way, except that "" is shown as ["UNKNOWN"] and stored as []. */
  lemma StatesListAgreesWithDecode(s: string)
    requires s != ""
    ensures PostureStatesList(s) == StringListConverter.Decode(s)
  {
    FilterThenTrim(Split(s));
    if Trim(s) == "" {
      // A blank string has no delimiter, so it splits into itself alone.
      TrimEmptyIff(s);
      assert DELIMITER !in s;
      assert KeepNonBlank([s]) == [];
    }
  }

  /** The latest-tags field reads back as the tags written, for well-formed tags. */
  lemma StatesListOfJoin(tags: seq<string>)
    requires |tags| > 0 && StringListConverter.AllWellFormed(tags)
    ensures PostureStatesList(Join(tags)) == tags
  {
    StringListConverter.JoinStartsWithFirst(tags);
    StatesListAgreesWithDecode(Join(tags));
    StringListConverter.DecodeEncode(tags);
  }

  /** What a poll returns. The ratio is in tenths of a percent. */
  datatype FeedbackView = FeedbackView(
    currentPostureStates: seq<string>,
    feedbackMessages: seq<Message>,
    currentTime: string,
    correctPostureRatio: int,
    totalWarningCount: int)

  /** The neutral view for a user without a record. */
  function Placeholder(now: string): FeedbackView {
    FeedbackView(["UNKNOWN"], [WaitingForDataMessage], now, 0, 0)
  }

  function Counter(h: Hash, f: string): int {
    SafeParseLong(Field(h, f))
  }

  /** getRealtimeFeedback over a snapshot of the user's hash. */
  function GetRealtimeFeedback(h: Hash, now: string): (r: FeedbackView)
    ensures h == map[] ==> r == Placeholder(now)
    ensures h != map[] ==> r.currentPostureStates == PostureStatesList(Field(h, FIELD_LATEST_STATES).GetOr(""))
    ensures |r.feedbackMessages| == |r.currentPostureStates|
    ensures h != map[] ==> forall i :: 0 <= i < |r.feedbackMessages| ==>
              r.feedbackMessages[i] == FeedbackMessage(r.currentPostureStates[i])
    ensures h != map[] ==> r.currentTime == Field(h, FIELD_TIMESTAMP).GetOr(now)
    ensures h != map[] ==> r.totalWarningCount == ToInt32(Counter(h, FIELD_WARNING_COUNT))
    ensures Counter(h, FIELD_TOTAL_COUNT) <= 0 ==> r.correctPostureRatio == 0
    ensures Counter(h, FIELD_TOTAL_COUNT) > 0 ==>
              var good, total := Counter(h, FIELD_GOOD_COUNT) * 1000, Counter(h, FIELD_TOTAL_COUNT);
              2 * total * r.correctPostureRatio <= 2 * good + total < 2 * total * r.correctPostureRatio + 2 * total
  {
    if h == map[] then Placeholder(now)
    else
      var statesString := Field(h, FIELD_LATEST_STATES).GetOr("");
      var currentTime := Field(h, FIELD_TIMESTAMP).GetOr(now);
      var goodCount := Counter(h, FIELD_GOOD_COUNT);
      var warningCount := Counter(h, FIELD_WARNING_COUNT);
      var totalCount := Counter(h, FIELD_TOTAL_COUNT);
      var postureStates := PostureStatesList(statesString);
      var messages := seq(|postureStates|, i requires 0 <= i < |postureStates| => FeedbackMessage(postureStates[i]));
      var ratio := if totalCount > 0 then RoundHalfUp(goodCount * 1000, totalCount) else 0;
      FeedbackView(postureStates, messages, currentTime, ratio, ToInt32(warningCount))
  }

  /** The counts completeSession reads before the record is cleared; a field
      the record lacks is reported as missing. */
  datatype FinalCounts = FinalCounts(good: Option<int>, total: Option<int>, warning: Option<int>)

  function FinalSessionCounts(h: Hash): (r: FinalCounts)
    ensures h == map[] ==> r == FinalCounts(None, None, None)
    ensures FIELD_GOOD_COUNT in h ==> r.good == Some(Counter(h, FIELD_GOOD_COUNT))
    ensures FIELD_GOOD_COUNT !in h ==> r.good == None
    ensures FIELD_TOTAL_COUNT in h ==> r.total == Some(Counter(h, FIELD_TOTAL_COUNT))
    ensures FIELD_TOTAL_COUNT !in h ==> r.total == None
    ensures FIELD_WARNING_COUNT in h ==> r.warning == Some(Counter(h, FIELD_WARNING_COUNT))
    ensures FIELD_WARNING_COUNT !in h ==> r.warning == None
  {
    FinalCounts(
      if FIELD_GOOD_COUNT in h then Some(Counter(h, FIELD_GOOD_COUNT)) else None,
      if FIELD_TOTAL_COUNT in h then Some(Counter(h, FIELD_TOTAL_COUNT)) else None,
      if FIELD_WARNING_COUNT in h then Some(Counter(h, FIELD_WARNING_COUNT)) else None)
  }

  // ---------------------------------------------------------------------------
  // Properties of a run of updates
  // ---------------------------------------------------------------------------

  /** A counter field that is absent or holds a non-negative long. */
  predicate CounterOk(h: Hash, f: string) {
    f in h ==> ParseLong(h[f]).Some? && ParseLong(h[f]).value >= 0
  }

  predicate CountersWellFormed(h: Hash) {
    CounterOk(h, FIELD_GOOD_COUNT) && CounterOk(h, FIELD_WARNING_COUNT) && CounterOk(h, FIELD_TOTAL_COUNT)
  }

  /** A counter step that cannot overflow succeeds, adds `delta` to its field
      and touches no other field. */
  lemma IncrementCounter(o: UpdateOutcome, f: string, delta: int)
    requires o.completed && CounterOk(o.hash, f)
    requires delta >= 0 && Counter(o.hash, f) + delta <= LONG_MAX
    ensures IncrementStep(o, f, delta).completed
    ensures CounterOk(IncrementStep(o, f, delta).hash, f)
    ensures Counter(IncrementStep(o, f, delta).hash, f) == Counter(o.hash, f) + delta
    ensures forall g :: g != f ==> Field(IncrementStep(o, f, delta).hash, g) == Field(o.hash, g)
  {
    var n := Counter(o.hash, f) + delta;
    assert Counter(o.hash, f) >= 0;
    ParseDecimal(n);
  }

  /** The three counters of a record. */
  datatype Counters = Counters(good: int, warning: int, total: int)

  function CountersOf(h: Hash): Counters {
    Counters(Counter(h, FIELD_GOOD_COUNT), Counter(h, FIELD_WARNING_COUNT), Counter(h, FIELD_TOTAL_COUNT))
  }

  /** A counter step that cannot overflow keeps the record well formed and
      changes exactly its own counter, by `delta`. */
  lemma CounterStepCounts(o: UpdateOutcome, f: string, delta: int, run: bool)
    requires o.completed && CountersWellFormed(o.hash)
    requires f == FIELD_GOOD_COUNT || f == FIELD_WARNING_COUNT || f == FIELD_TOTAL_COUNT
    requires delta >= 0 && Counter(o.hash, f) + delta <= LONG_MAX
    ensures var o' := CounterStep(o, f, delta, run);
      && o'.completed && CountersWellFormed(o'.hash)
      && Field(o'.hash, FIELD_LATEST_STATES) == Field(o.hash, FIELD_LATEST_STATES)
      && Field(o'.hash, FIELD_TIMESTAMP) == Field(o.hash, FIELD_TIMESTAMP)
      && CountersOf(o'.hash) == (
           var c, d := CountersOf(o.hash), if run then delta else 0;
           if f == FIELD_GOOD_COUNT then c.(good := c.good + d)
           else if f == FIELD_WARNING_COUNT then c.(warning := c.warning + d)
           else c.(total := c.total + d))
  {
    if run {
      IncrementCounter(o, f, delta);
    }
  }

  /** The latest-state step leaves the counters alone. */
  lemma LatestKeepsCounters(o: UpdateOutcome, statesString: string, now: string)
    requires o.completed && CountersWellFormed(o.hash)
    ensures var o' := LatestStep(o, statesString, now);
      && o'.completed && CountersWellFormed(o'.hash)
      && CountersOf(o'.hash) == CountersOf(o.hash)
      && Field(o'.hash, FIELD_LATEST_STATES) == Some(statesString)
      && Field(o'.hash, FIELD_TIMESTAMP) == Some(now)
  {
    var h' := LatestStep(o, statesString, now).hash;
    assert Field(h', FIELD_GOOD_COUNT) == Field(o.hash, FIELD_GOOD_COUNT);
    assert Field(h', FIELD_WARNING_COUNT) == Field(o.hash, FIELD_WARNING_COUNT);
    assert Field(h', FIELD_TOTAL_COUNT) == Field(o.hash, FIELD_TOTAL_COUNT);
  }

  /** The three counter steps together, when none can overflow. */
  lemma CounterStepsCount(h: Hash, good: nat, warning: nat)
    requires CountersWellFormed(h)
    requires Counter(h, FIELD_TOTAL_COUNT) + 1 <= LONG_MAX
    requires Counter(h, FIELD_GOOD_COUNT) + good <= LONG_MAX
    requires Counter(h, FIELD_WARNING_COUNT) + warning <= LONG_MAX
    ensures var o := RunCounters(h, good, warning);
      && o.completed && CountersWellFormed(o.hash)
      && CountersOf(o.hash) == Counters(Counter(h, FIELD_GOOD_COUNT) + good,
                                        Counter(h, FIELD_WARNING_COUNT) + warning,
                                        Counter(h, FIELD_TOTAL_COUNT) + 1)
  {
    var o0 := UpdateOutcome(h, true);
    CounterStepCounts(o0, FIELD_GOOD_COUNT, good, good > 0);
    var o1 := CounterStep(o0, FIELD_GOOD_COUNT, good, good > 0);
    CounterStepCounts(o1, FIELD_WARNING_COUNT, warning, warning > 0);
    var o2 := CounterStep(o1, FIELD_WARNING_COUNT, warning, warning > 0);
    CounterStepCounts(o2, FIELD_TOTAL_COUNT, 1, true);
  }

  /** `r` is the complete command sequence applied to `h`: it succeeded, each
      counter went up by its increment (the total by 1), and the latest tags
      and timestamp were written. */
  predicate Recorded(h: Hash, r: UpdateOutcome, good: int, warning: int, statesString: string, now: string) {
    && r.completed
    && CountersWellFormed(r.hash)
    && CountersOf(r.hash) == Counters(Counter(h, FIELD_GOOD_COUNT) + good,
                                      Counter(h, FIELD_WARNING_COUNT) + warning,
                                      Counter(h, FIELD_TOTAL_COUNT) + 1)
    && Field(r.hash, FIELD_LATEST_STATES) == Some(statesString)
    && Field(r.hash, FIELD_TIMESTAMP) == Some(now)
  }

  /** The whole command sequence, when no counter can overflow. */
  lemma ApplyUpdateCounts(h: Hash, good: nat, warning: nat, statesString: string, now: string)
    requires CountersWellFormed(h)
    requires Counter(h, FIELD_TOTAL_COUNT) + 1 <= LONG_MAX
    requires Counter(h, FIELD_GOOD_COUNT) + good <= LONG_MAX
    requires Counter(h, FIELD_WARNING_COUNT) + warning <= LONG_MAX
    ensures Recorded(h, ApplyUpdate(h, good, warning, statesString, now), good, warning, statesString, now)
  {
    CounterStepsCount(h, good, warning);
    LatestKeepsCounters(RunCounters(h, good, warning), statesString, now);
  }

  /** One update on a well-formed record that cannot overflow completes, adds
      exactly 1 to the total and the good and warning tag counts to their
      counters, and stores the joined tags and the timestamp. */
  lemma UpdateCounts(h: Hash, tags: seq<string>, now: string)
    requires CountersWellFormed(h)
    requires Counter(h, FIELD_TOTAL_COUNT) + 1 <= LONG_MAX
    requires Counter(h, FIELD_GOOD_COUNT) + |tags| <= LONG_MAX
    requires Counter(h, FIELD_WARNING_COUNT) + |tags| <= LONG_MAX
    ensures Recorded(h, CacheUpdate(h, tags, now), GoodTagCount(tags), WarningTagCount(tags), Join(tags), now)
  {
    ApplyUpdateCounts(h, GoodTagCount(tags), WarningTagCount(tags), Join(tags), now);
  }

  /** One poll-free stretch of ticks: each tick carries its tags and the clock text. */
  datatype Tick = Tick(tags: seq<string>, time: string)

  function Replay(h: Hash, ticks: seq<Tick>): Hash
    decreases |ticks|
  {
    if ticks == [] then h
    else Replay(CacheUpdate(h, ticks[0].tags, ticks[0].time).hash, ticks[1..])
  }

  function TotalGood(ticks: seq<Tick>): nat {
    if ticks == [] then 0 else GoodTagCount(ticks[0].tags) + TotalGood(ticks[1..])
  }

  function TotalWarning(ticks: seq<Tick>): nat {
    if ticks == [] then 0 else WarningTagCount(ticks[0].tags) + TotalWarning(ticks[1..])
  }

  function TotalTags(ticks: seq<Tick>): nat {
    if ticks == [] then 0 else |ticks[0].tags| + TotalTags(ticks[1..])
  }

  lemma {:induction false} TotalsBoundedByTags(ticks: seq<Tick>)
    ensures TotalGood(ticks) <= TotalTags(ticks) && TotalWarning(ticks) <= TotalTags(ticks)
  {
    if ticks != [] {
      TotalsBoundedByTags(ticks[1..]);
    }
  }

  /** From a fresh record (session start clears it), a run of ticks that
      cannot overflow leaves total = number of ticks, and good and warning equal
      to the tag counts summed over the ticks. */
  lemma {:induction false} ReplayCounts(h: Hash, ticks: seq<Tick>)
    decreases |ticks|
    requires CountersWellFormed(h)
    requires Counter(h, FIELD_TOTAL_COUNT) + |ticks| <= LONG_MAX
    requires Counter(h, FIELD_GOOD_COUNT) + TotalTags(ticks) <= LONG_MAX
    requires Counter(h, FIELD_WARNING_COUNT) + TotalTags(ticks) <= LONG_MAX
    ensures CountersWellFormed(Replay(h, ticks))
    ensures Counter(Replay(h, ticks), FIELD_TOTAL_COUNT) == Counter(h, FIELD_TOTAL_COUNT) + |ticks|
    ensures Counter(Replay(h, ticks), FIELD_GOOD_COUNT) == Counter(h, FIELD_GOOD_COUNT) + TotalGood(ticks)
    ensures Counter(Replay(h, ticks), FIELD_WARNING_COUNT) == Counter(h, FIELD_WARNING_COUNT) + TotalWarning(ticks)
  {
    if ticks != [] {
      var t := ticks[0];
      UpdateCounts(h, t.tags, t.time);
      var h' := CacheUpdate(h, t.tags, t.time).hash;
      ReplayCounts(h', ticks[1..]);
    }
  }

  predicate AtMostOneTagEach(ticks: seq<Tick>) {
    forall i :: 0 <= i < |ticks| ==> |ticks[i].tags| <= 1
  }

  lemma {:induction false} SingleTagTotals(ticks: seq<Tick>)
    requires AtMostOneTagEach(ticks)
    ensures TotalGood(ticks) + TotalWarning(ticks) <= |ticks|
  {
    if ticks != [] {
      TagCountsBounded(ticks[0].tags);
      SingleTagTotals(ticks[1..]);
    }
  }

  /** good + warning <= total holds for ticks of at most one tag each. */
  lemma GoodPlusWarningAtMostTotal(ticks: seq<Tick>)
    requires AtMostOneTagEach(ticks)
    requires |ticks| <= LONG_MAX
    ensures var h := Replay(map[], ticks);
      Counter(h, FIELD_GOOD_COUNT) + Counter(h, FIELD_WARNING_COUNT) <= Counter(h, FIELD_TOTAL_COUNT)
  {
    assert TotalTags(ticks) <= |ticks| by { SingleTagsBoundTotal(ticks); }
    ReplayCounts(map[], ticks);
    SingleTagTotals(ticks);
  }

  lemma {:induction false} SingleTagsBoundTotal(ticks: seq<Tick>)
    requires AtMostOneTagEach(ticks)
    ensures TotalTags(ticks) <= |ticks|
  {
    if ticks != [] {
      SingleTagsBoundTotal(ticks[1..]);
    }
  }

  /** A tick with a good tag and a warning tag breaks good + warning <= total:
      it adds 1 to the total but 1 to good and 1 to warnings. */
  lemma TwoTagTickExceedsTotal(good: string, warning: string, now: string)
    requires IsGood(good) && IsWarning(warning)
    ensures var h := CacheUpdate(map[], [good, warning], now).hash;
      Counter(h, FIELD_GOOD_COUNT) + Counter(h, FIELD_WARNING_COUNT) > Counter(h, FIELD_TOTAL_COUNT)
  {
    var tags := [good, warning];
    assert tags[..1] == [good] && [good][..0] == [];
    assert GoodTagCount(tags) == 1 && WarningTagCount(tags) == 1;
    UpdateCounts(map[], tags, now);
  }

  /** The same for the concrete tick ["GOOD", "FORWARD_HEAD"]. */
  lemma GoodAndForwardHeadExceedTotal(now: string)
    ensures var h := CacheUpdate(map[], ["GOOD", "FORWARD_HEAD"], now).hash;
      Counter(h, FIELD_GOOD_COUNT) + Counter(h, FIELD_WARNING_COUNT) > Counter(h, FIELD_TOTAL_COUNT)
  {
    TwoTagTickExceedsTotal("GOOD", "FORWARD_HEAD", now);
  }

  /** Polling a record right after it was cleared shows the placeholder. */
  lemma ClearedRecordShowsPlaceholder(now: string)
    ensures GetRealtimeFeedback(map[], now) == Placeholder(now)
    ensures Placeholder(now).currentPostureStates == ["UNKNOWN"]
    ensures Placeholder(now).correctPostureRatio == 0 && Placeholder(now).totalWarningCount == 0
  {
  }

  /** With 0 <= good <= total the ratio lies between 0.0 and 100.0 percent. */
  lemma RatioInRange(h: Hash, now: string)
    requires 0 <= Counter(h, FIELD_GOOD_COUNT) <= Counter(h, FIELD_TOTAL_COUNT)
    ensures 0 <= GetRealtimeFeedback(h, now).correctPostureRatio <= 1000
  {
    if Counter(h, FIELD_TOTAL_COUNT) > 0 {
      RoundedShareBounds(Counter(h, FIELD_GOOD_COUNT), Counter(h, FIELD_TOTAL_COUNT), 1000);
    }
  }

  /** "GOOD" counts as a good tag but is not in the message table, which only
      knows "Good"; the live table also names issues differently from the
      daily rows' keys. */
  lemma MessageTableIsCaseSensitive()
    ensures FeedbackMessage("Good") == GoodPostureMessage
    ensures FeedbackMessage("GOOD") == AnalysingMessage
    ensures FeedbackMessage("UNE_SHOULDER") == UnevenShoulderMessage
    ensures FeedbackMessage("UNEQUAL_SHOULDERS") == AnalysingMessage
  {
  }
}
