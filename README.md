# Postura posture-monitoring core in Dafny

Postura is a Spring backend for a posture-coaching application. A webcam
analyser sends one tick per second with the posture tags it detected for a
monitoring session. The backend persists the ticks that carry a warning tag
and keeps live per-user counters in a Redis hash for polling. A session
moves through STARTED, PAUSED and COMPLETED. Completing a session copies the
live counters into the session row, aggregates the user's day into a
statistics row and clears the cache. A nightly job aggregates yesterday for
every user, and a weekly report reads the statistics rows back. A retention
job deletes warning logs older than thirty days.

This project models that core and proves its properties:

- **Session entity.** `Session.MonitoringSession` is a class. Its
  pause/resume/complete methods change its fields in place.
- **Session service.** `MonitoringService` holds the owner and status
  guards, the running-time arithmetic and the effects of the service calls
  on the store and the cache.
- **Live cache.** `RealtimeFeedback.RedisCache` is a class holding one hash
  per user with time-to-live values. The per-tick update runs as a sequence
  of commands that stops at the first failure. The poll view is a pure
  function.
- **Ingestion.** `PostureLogService` persists a tick only when it carries a
  warning tag, and always feeds the cache.
- **Aggregation.** `StatAggregation` has one loop method per accumulator.
  They are proved against a specification function of the day's row, with
  the upsert, the streak and the nightly loop over users.
- **Weekly report.** `SelfManagement` covers the four date windows, the
  averages and comparison, the issue distribution, the top three issues and
  the guide recommendations.
- **Tag text column.** `StringListConverter` models it, on top of the Java
  string operations in `Text` and the fixed-width integers and
  `Math.round` in `Numbers`.
- **Retention job.** `LogCleanup`.

Time is whole seconds; dates are epoch days. Ratios are exact rationals
rounded half up:

- in hundredths of a percent for the statistics rows and the weekly report;
- in tenths of a percent for the live feedback.

## Model

| member | source | states |
|---|---|---|
| Numbers.ToInt32 | src/main/java/com/postura/monitor/service/MonitoringService.java:134 | A long narrowed with `intValue()` lies in the int range, is congruent to the long modulo 2^32, and is the long itself when that fits. |
| Numbers.RoundHalfUp | src/main/java/com/postura/report/service/StatAggregationService.java:161 | Math.round of n/d for d > 0 is the integer r with r − 1/2 ≤ n/d < r + 1/2. |
| Numbers.RoundQuotient | src/main/java/com/postura/report/service/SelfManagementService.java:124-125 | The same rounding for a divisor of either sign. |
| Numbers.RoundedShareBounds | src/main/java/com/postura/report/service/StatAggregationService.java:159-162 | A part between 0 and the whole, scaled and rounded, lies between 0 and the scale. |
| Numbers.DivBounds | src/main/java/com/postura/report/service/StatAggregationService.java:161 | Helper: the Euclidean quotient brackets the dividend, b·(a/b) ≤ a < b·(a/b) + b. |
| Numbers.MulMonotone | src/main/java/com/postura/report/service/StatAggregationService.java:161 | Helper: multiplying by a non-negative factor keeps order. |
| Text.ToLower | src/main/java/com/postura/monitor/service/RealtimeFeedbackService.java:51 | The case fold keeps the length and folds each character on its own: A–Z to a–z and the Kelvin sign to k. |
| Text.IsGoodIgnoresCase | src/main/java/com/postura/monitor/service/RealtimeFeedbackService.java:51 | The letter-by-letter GOOD test holds exactly when `equalsIgnoreCase("GOOD")` does. |
| Text.IsUnknownIgnoresCase | src/main/java/com/postura/monitor/service/RealtimeFeedbackService.java:53-54 | The letter-by-letter UNKNOWN test holds exactly when the tag folds to "unknown", which for this all-ASCII target is Java's `equalsIgnoreCase("UNKNOWN")`, the Kelvin sign included. |
| Text.KelvinSignUnknown | src/main/java/com/postura/monitor/service/RealtimeFeedbackService.java:53-54 | "UN\u212ANOWN", which Java matches to UNKNOWN, is not a warning; "UNQNOWN" is. |
| Text.GoodTagCount | src/main/java/com/postura/monitor/service/RealtimeFeedbackService.java:51 | The number of GOOD tags is at most the number of tags, and is 0 exactly when no tag is GOOD. |
| Text.WarningTagCount | src/main/java/com/postura/monitor/service/RealtimeFeedbackService.java:53-55 | The number of warning tags (neither GOOD nor UNKNOWN) is at most the number of tags; PostureLogService.HasWarningIffCounted states when it is 0. |
| Text.TagCountsBounded | src/main/java/com/postura/monitor/service/RealtimeFeedbackService.java:51-55 | No tag counts as both good and a warning: the two counts add up to at most the number of tags. |
| Text.Occurrences | src/main/java/com/postura/report/service/StatAggregationService.java:104 | The exact, case-sensitive count of one map key is at most the number of tags, and is 0 exactly when the key is not among them. |
| Text.IsGood | src/main/java/com/postura/monitor/service/RealtimeFeedbackService.java:51 | Definition: a tag of four letters folding to g, o, o, d — `"Good".equalsIgnoreCase`. |
| Text.IsUnknown | src/main/java/com/postura/monitor/service/RealtimeFeedbackService.java:54 | Definition: a tag of seven letters folding to u, n, k, n, o, w, n — `"UNKNOWN".equalsIgnoreCase`. |
| Text.IsWarning | src/main/java/com/postura/monitor/service/RealtimeFeedbackService.java:53-54 | Definition: the warning filter, neither GOOD nor UNKNOWN ignoring case. |
| Text.TrimStart | src/main/java/com/postura/common/util/StringListConverter.java:38 | `String.trim` drops exactly the leading characters ≤ U+0020 and leaves a suffix of the input. |
| Text.TrimEnd | src/main/java/com/postura/common/util/StringListConverter.java:38 | `String.trim` drops exactly the trailing characters ≤ U+0020 and leaves a prefix of the input. |
| Text.Trim | src/main/java/com/postura/common/util/StringListConverter.java:38 | The result of trim starts and ends with no trimmable character. |
| Text.TrimKeepsCommaFree | src/main/java/com/postura/common/util/StringListConverter.java:37-38 | Trimming a comma-free piece leaves it comma-free. |
| Text.TrimOfTrimmed | src/main/java/com/postura/common/util/StringListConverter.java:38 | Trim is the identity on an already trimmed string. |
| Text.TrimEmptyIff | src/main/java/com/postura/common/util/StringListConverter.java:33 | A string is blank (trims to "") exactly when every character is trimmable. |
| Text.SplitAll | src/main/java/com/postura/common/util/StringListConverter.java:37 | Splitting on "," gives at least one piece, and no piece holds a comma. |
| Text.Join | src/main/java/com/postura/common/util/StringListConverter.java:28 | Definition: `String.join(",", xs)`, "" for no pieces and the piece itself for one. |
| Text.DropTrailingEmpty | src/main/java/com/postura/common/util/StringListConverter.java:37 | `split` with limit 0 drops exactly the trailing empty pieces. |
| Text.Split | src/main/java/com/postura/common/util/StringListConverter.java:37 | The pieces of `String.split(",")` hold no comma. |
| Text.SplitAllPrefix | src/main/java/com/postura/common/util/StringListConverter.java:37 | Splitting a comma-free prefix glued to a rest extends the rest's first piece. |
| Text.SplitAllJoin | src/main/java/com/postura/common/util/StringListConverter.java:28-37 | Splitting the comma-join of comma-free pieces gives the pieces back. |
| Text.JoinCommaFree | src/main/java/com/postura/common/util/StringListConverter.java:28 | Joining at most one comma-free piece gives a comma-free string. |
| Text.JoinHasDelimiter | src/main/java/com/postura/common/util/StringListConverter.java:28 | Joining two or more pieces puts a comma in the result. |
| Text.SplitJoin | src/main/java/com/postura/common/util/StringListConverter.java:28-37 | `split` undoes `String.join` for comma-free pieces whose last piece is not empty. |
| Text.JoinSplitAll | src/main/java/com/postura/common/util/StringListConverter.java:28-37 | Joining the pieces of any string on "," rebuilds the string. |
| Text.NatToDecimal | src/main/java/com/postura/monitor/service/RealtimeFeedbackService.java:153 | The decimal text of a natural number is a non-empty digit string. |
| Text.ParseLong | src/main/java/com/postura/monitor/service/RealtimeFeedbackService.java:153 | `Long.parseLong` succeeds only with a value in the long range. |
| Text.DigitsOfDecimal | src/main/java/com/postura/monitor/service/RealtimeFeedbackService.java:153 | The digits printed for n read back as n. |
| Text.ParseDecimal | src/main/java/com/postura/monitor/service/RealtimeFeedbackService.java:150-158 | Parsing what `Long.toString` printed gives the number back, for every long. |
| StringListConverter.TrimAll | src/main/java/com/postura/common/util/StringListConverter.java:38 | Mapping trim keeps the length and trims each element. |
| StringListConverter.KeepNonEmpty | src/main/java/com/postura/common/util/StringListConverter.java:39 | The filter keeps only non-empty elements of the input, and keeps all of them when none is empty. |
| StringListConverter.Encode | src/main/java/com/postura/common/util/StringListConverter.java:23-29 | The empty list is stored as "". A non-empty list of comma-free tags is stored as their join, which splits back into them. |
| StringListConverter.Decode | src/main/java/com/postura/common/util/StringListConverter.java:32-41 | A blank column loads as the empty list. Every loaded tag is non-empty, trimmed and comma-free. |
| StringListConverter.JoinStartsWithFirst | src/main/java/com/postura/common/util/StringListConverter.java:28 | The stored text starts with the first tag's first character. |
| StringListConverter.TrimAllOfTrimmed | src/main/java/com/postura/common/util/StringListConverter.java:38 | Trimming already trimmed tags changes nothing. |
| StringListConverter.DecodeEncode | src/main/java/com/postura/common/util/StringListConverter.java:23-41 | Loading what was stored gives back the same list when every tag is non-empty, trimmed and comma-free. |
| StringListConverter.DecodeStable | src/main/java/com/postura/common/util/StringListConverter.java:23-41 | Storing and reloading a loaded list gives the same list. |
| Session.AccumulatedNeverDecreases | src/main/java/com/postura/monitor/entity/MonitoringSession.java:65-95 | With non-negative durations, pause and complete never lower the accumulated time, and resume leaves it as it was. |
| Session.MonitoringSession.constructor | src/main/java/com/postura/monitor/service/MonitoringService.java:47-55 | The built entity holds exactly the given columns. |
| Session.MonitoringSession.Pause | src/main/java/com/postura/monitor/entity/MonitoringSession.java:65-70 | The session becomes PAUSED with the marker at `now` and exactly the given seconds added; every other column is kept. |
| Session.MonitoringSession.Resume | src/main/java/com/postura/monitor/entity/MonitoringSession.java:76-81 | The session becomes STARTED with the marker at `now`; the accumulated time and every other column are kept. |
| Session.MonitoringSession.Complete | src/main/java/com/postura/monitor/entity/MonitoringSession.java:86-95 | The last segment is added, the session becomes COMPLETED with an end time, and the three final counts are stored as given. |
| Store.LogFrom | src/main/java/com/postura/ai/entity/PostureLog.java:44-55 | The entity built from a request reads back the request's tags when they are well formed. |
| Store.Database.SessionViews | src/main/java/com/postura/monitor/service/MonitoringService.java:170-173 | The session table is read as one value per stored session, in id order. |
| Store.Database.constructor | src/main/java/com/postura/monitor/repository/MonitoringSessionRepository.java:9 | Model scaffolding for the JPA repositories (users, monitoring sessions, posture logs, aggregate rows): a fresh store with the given users and no sessions, logs or rows satisfies the store invariant. |
| RealtimeFeedback.HIncrBy | src/main/java/com/postura/monitor/service/RealtimeFeedbackService.java:58-65 | A successful HINCRBY sets the named field and leaves every other field as it was. |
| RealtimeFeedback.IncrementStep | src/main/java/com/postura/monitor/service/RealtimeFeedbackService.java:59 | Definition: one HINCRBY of the sequence, skipped after a failure; a failing command ends the sequence. |
| RealtimeFeedback.CounterStep | src/main/java/com/postura/monitor/service/RealtimeFeedbackService.java:58-63 | A skipped step, or one after a failure, leaves the hash and the failure flag as they were. |
| RealtimeFeedback.RunCounters | src/main/java/com/postura/monitor/service/RealtimeFeedbackService.java:58-65 | Definition: the good and warning increments only when positive, then the total increment by 1. |
| RealtimeFeedback.LatestStep | src/main/java/com/postura/monitor/service/RealtimeFeedbackService.java:69-74 | The final store of the latest tags and timestamp runs only when no counter failed. |
| RealtimeFeedback.ApplyUpdate | src/main/java/com/postura/monitor/service/RealtimeFeedbackService.java:58-74 | Definition: the counter increments, then the store of the tag text and the time. |
| RealtimeFeedback.CacheUpdate | src/main/java/com/postura/monitor/service/RealtimeFeedbackService.java:46-85 | One update adds the good count and the warning count (each only when positive) and 1 to the total, then stores the joined tags and the time, stopping at the first failure. |
| RealtimeFeedback.RedisCache.constructor | src/main/java/com/postura/monitor/service/RealtimeFeedbackService.java:46-48 | A fresh cache holds no hash and no time to live. |
| RealtimeFeedback.RedisCache.IncrementField | src/main/java/com/postura/monitor/service/RealtimeFeedbackService.java:59 | HINCRBY on the user's hash succeeds exactly when the field parses as a long and the sum stays in range. Only that user's hash changes. |
| RealtimeFeedback.RedisCache.PutAll | src/main/java/com/postura/monitor/service/RealtimeFeedbackService.java:74 | HMSET overwrites the given fields of the user's hash and keeps the rest. |
| RealtimeFeedback.RedisCache.Expire | src/main/java/com/postura/monitor/service/RealtimeFeedbackService.java:77 | EXPIRE sets the time to live of an existing key and is a no-op on a missing one. |
| RealtimeFeedback.RedisCache.Delete | src/main/java/com/postura/monitor/service/MonitoringService.java:44 | DEL removes the user's hash and its time to live and changes no other key. It is the assumed body of `clearUserCache` (called here and at line 151), whose declaration is not part of this model (see "## Left out"). |
| RealtimeFeedback.RunCounterCommands | src/main/java/com/postura/monitor/service/RealtimeFeedbackService.java:58-65 | The three increments leave the hash that the step functions compute, report whether all of them ran, and touch no other user. |
| RealtimeFeedback.UpdatePostureCache | src/main/java/com/postura/monitor/service/RealtimeFeedbackService.java:46-85 | The user's hash becomes the command sequence's result. The time to live is set to 600 s only when every step ran. Other users are untouched, and no failure escapes. |
| RealtimeFeedback.OthersKept | src/main/java/com/postura/monitor/service/RealtimeFeedbackService.java:48 | Writing one user's key leaves every other key as it was. |
| RealtimeFeedback.ClearUserCache | src/main/java/com/postura/monitor/service/MonitoringService.java:44 | Clearing removes exactly the user's hash and time to live, and the user then reads as empty. |
| RealtimeFeedback.SafeParseLong | src/main/java/com/postura/monitor/service/RealtimeFeedbackService.java:150-158 | A missing value or one `Long.parseLong` rejects reads as 0; any result is a long. |
| RealtimeFeedback.SafeParseDecimal | src/main/java/com/postura/monitor/service/RealtimeFeedbackService.java:150-158 | A counter written as decimal text reads back as its value. |
| RealtimeFeedback.KeepNonBlank | src/main/java/com/postura/monitor/service/RealtimeFeedbackService.java:168 | The blank filter never lengthens the list, and keeps exactly the elements that do not trim to "". |
| RealtimeFeedback.PostureStatesList | src/main/java/com/postura/monitor/service/RealtimeFeedbackService.java:163-171 | An empty tag field shows as ["UNKNOWN"]. |
| RealtimeFeedback.FilterThenTrim | src/main/java/com/postura/monitor/service/RealtimeFeedbackService.java:167-170 | Filtering blanks then trimming equals trimming then dropping empties. |
| RealtimeFeedback.TrimAllCons | src/main/java/com/postura/monitor/service/RealtimeFeedbackService.java:167-170 | Helper: trimming a list with a head trims the head and the rest. |
| RealtimeFeedback.StatesListAgreesWithDecode | src/main/java/com/postura/monitor/service/RealtimeFeedbackService.java:163-171 | Apart from "", the poll view reads a tag string exactly as the log converter loads it. |
| RealtimeFeedback.StatesListOfJoin | src/main/java/com/postura/monitor/service/RealtimeFeedbackService.java:69-71 | The latest-tags field reads back as the tags written, for a non-empty list of well-formed tags. |
| RealtimeFeedback.GetRealtimeFeedback | src/main/java/com/postura/monitor/service/RealtimeFeedbackService.java:92-141 | An empty hash gives the placeholder at `now`. Otherwise the shown tags are the latest-tags field read as a list, the time is the stored timestamp (or `now` when missing), there is one message per shown tag, and the warning total is narrowed to an int. The ratio is 0 without ticks, and otherwise good/total rounded half up to tenths of a percent. |
| RealtimeFeedback.Placeholder | src/main/java/com/postura/monitor/service/RealtimeFeedbackService.java:99-107 | Definition: ["UNKNOWN"], the waiting message, the current time, ratio 0 and no warnings. |
| RealtimeFeedback.FeedbackMessage | src/main/java/com/postura/monitor/service/RealtimeFeedbackService.java:178-214 | Definition: the exact, case-sensitive switch from tag to coaching message, with the analysing message as default. |
| RealtimeFeedback.FinalSessionCounts | src/main/java/com/postura/monitor/service/MonitoringService.java:131 | Each of the good, total and warning counters is reported as its value when the hash holds it and as missing when it does not; an empty hash therefore reports all three missing. |
| RealtimeFeedback.IncrementCounter | src/main/java/com/postura/monitor/service/RealtimeFeedbackService.java:58-65 | An increment that cannot overflow succeeds, adds exactly its delta and changes no other field. |
| RealtimeFeedback.CounterStepCounts | src/main/java/com/postura/monitor/service/RealtimeFeedbackService.java:58-65 | A counter step that cannot overflow keeps the counters well formed and adds its delta only to its own counter. |
| RealtimeFeedback.LatestKeepsCounters | src/main/java/com/postura/monitor/service/RealtimeFeedbackService.java:69-74 | Storing the latest tags leaves the three counters alone. |
| RealtimeFeedback.CounterStepsCount | src/main/java/com/postura/monitor/service/RealtimeFeedbackService.java:58-65 | Without overflow the three increments add good, warning and 1. |
| RealtimeFeedback.ApplyUpdateCounts | src/main/java/com/postura/monitor/service/RealtimeFeedbackService.java:46-77 | Without overflow the whole sequence completes, records the counts, and stores the tags and the time. |
| RealtimeFeedback.UpdateCounts | src/main/java/com/postura/monitor/service/RealtimeFeedbackService.java:46-77 | One tick on a well-formed record that cannot overflow adds its GOOD count, its warning count and 1. |
| RealtimeFeedback.TotalsBoundedByTags | src/main/java/com/postura/monitor/service/RealtimeFeedbackService.java:51-55 | Over a run of ticks, neither the good nor the warning total exceeds the number of tags. |
| RealtimeFeedback.ReplayCounts | src/main/java/com/postura/monitor/service/RealtimeFeedbackService.java:46-77 | A run of ticks without overflow leaves total = start + ticks, good = start + GOOD tags and warning = start + warning tags. |
| RealtimeFeedback.SingleTagTotals | src/main/java/com/postura/monitor/service/RealtimeFeedbackService.java:51-65 | With at most one tag per tick, good + warning ≤ ticks. |
| RealtimeFeedback.GoodPlusWarningAtMostTotal | src/main/java/com/postura/monitor/service/RealtimeFeedbackService.java:51-65 | On a fresh record, with at most one tag per tick, the cached good + warning counters never exceed the total counter. |
| RealtimeFeedback.SingleTagsBoundTotal | src/main/java/com/postura/monitor/service/RealtimeFeedbackService.java:51-55 | With at most one tag per tick, the number of tags is at most the number of ticks. |
| RealtimeFeedback.TwoTagTickExceedsTotal | src/main/java/com/postura/monitor/service/RealtimeFeedbackService.java:51-65 | One tick with a good tag and a warning tag gives good + warning = 2 > total = 1. |
| RealtimeFeedback.GoodAndForwardHeadExceedTotal | src/main/java/com/postura/monitor/service/RealtimeFeedbackService.java:51-65 | The same for the tick ["GOOD", "FORWARD_HEAD"]. |
| RealtimeFeedback.ClearedRecordShowsPlaceholder | src/main/java/com/postura/monitor/service/RealtimeFeedbackService.java:99-107 | Polling right after a clear shows ["UNKNOWN"], ratio 0 and no warnings. |
| RealtimeFeedback.RatioInRange | src/main/java/com/postura/monitor/service/RealtimeFeedbackService.java:128-131 | With 0 ≤ good ≤ total the live ratio lies between 0.0 and 100.0 percent. |
| RealtimeFeedback.MessageTableIsCaseSensitive | src/main/java/com/postura/monitor/service/RealtimeFeedbackService.java:178-214 | The message table matches exactly: "Good" is coached but "GOOD" falls to the default, and so does "UNEQUAL_SHOULDERS" next to "UNE_SHOULDER". |
| PostureLogService.FindById | src/main/java/com/postura/ai/service/PostureLogService.java:37-41 | The session lookup by id alone finds a session with that id, or reports that none has it. |
| PostureLogService.HasWarning | src/main/java/com/postura/ai/service/PostureLogService.java:48-49 | Definition: `anyMatch` of a tag that is neither GOOD nor UNKNOWN ignoring case. |
| PostureLogService.Appended | src/main/java/com/postura/ai/service/PostureLogService.java:48-60 | Definition: the entry built from the request under the session owner when a tag is a warning, else nothing. |
| PostureLogService.HasWarningIffCounted | src/main/java/com/postura/ai/service/PostureLogService.java:48-49 | A tick is persisted exactly when the live cache counts at least one warning for it. |
| PostureLogService.AppendedReadsBack | src/main/java/com/postura/ai/service/PostureLogService.java:52-55 | A persisted entry carries the session owner, the session, the request's timestamp and the request's tags (when well formed). |
| PostureLogService.GoodOnlyTickNotPersisted | src/main/java/com/postura/ai/service/PostureLogService.java:57-60 | A tick of GOOD and UNKNOWN tags only, in any case, appends nothing. |
| PostureLogService.ProcessAndSaveLog | src/main/java/com/postura/ai/service/PostureLogService.java:34-67 | An unknown session id fails with an IllegalArgumentException and changes nothing. Otherwise one entry keyed by the owner is appended exactly when a tag is a warning, and the owner's cache gets the full cache update. Nothing else changes. |
| StatAggregation.MidnightTickInTwoWindows | src/main/java/com/postura/report/service/StatAggregationService.java:65-66 | The window [day start, next day start] is closed: a tick at midnight falls in both adjacent days. |
| StatAggregation.DayOf | src/main/java/com/postura/report/service/StatAggregationService.java:44 | Definition: the epoch day of an instant in seconds. |
| StatAggregation.InDayWindow | src/main/java/com/postura/report/service/StatAggregationService.java:65-66 | Definition: the closed window from the day's midnight to the next midnight, as `Between` queries it. |
| StatAggregation.SessionsOfDay | src/main/java/com/postura/report/service/StatAggregationService.java:69 | A session is selected exactly when it is the user's and started inside the day's window. |
| StatAggregation.WarningLogsOfDay | src/main/java/com/postura/report/service/StatAggregationService.java:72 | A log is selected exactly when it is the user's and stamped inside the day's window. |
| StatAggregation.HasNullGoodAppend | src/main/java/com/postura/report/service/StatAggregationService.java:86-92 | The unboxing failure occurs in a list exactly when it occurs in the prefix or in the new completed session with a total but no good count. |
| StatAggregation.HasNullGoodPrefix | src/main/java/com/postura/report/service/StatAggregationService.java:86-92 | A failure in a prefix is a failure of the whole list. |
| StatAggregation.SumGood | src/main/java/com/postura/report/service/StatAggregationService.java:86-92 | Definition: the sum of the good counts of the COMPLETED sessions that have a total. |
| StatAggregation.SumTotal | src/main/java/com/postura/report/service/StatAggregationService.java:86-92 | Definition: the sum of the totals of those sessions. |
| StatAggregation.MaintenanceRatio | src/main/java/com/postura/report/service/StatAggregationService.java:159-162 | A zero total gives ratio 0. |
| StatAggregation.MaintenanceRatioRounds | src/main/java/com/postura/report/service/StatAggregationService.java:159-162 | Otherwise the ratio is good/total × 100 percent, rounded half up to hundredths. |
| StatAggregation.LatestBefore | src/main/java/com/postura/report/service/StatAggregationService.java:176 | The lookup finds one of the user's rows dated before the day with the latest such date, or reports that there is none. |
| StatAggregation.ConsecutiveAchievement | src/main/java/com/postura/report/service/StatAggregationService.java:167-180 | A missed goal gives 0. A met goal gives 1 with no earlier row of the user, and otherwise looks at the latest earlier row: its streak + 1 when that row met the goal, else 1. |
| StatAggregation.Streak | src/main/java/com/postura/report/service/StatAggregationService.java:176-179 | Definition: the streak rule given the latest earlier row. |
| StatAggregation.DayRow | src/main/java/com/postura/report/service/StatAggregationService.java:129-145 | Definition: the builder's row from the sums, the warning total, the tally and the previous row. |
| StatAggregation.AggregateSpec | src/main/java/com/postura/report/service/StatAggregationService.java:64-151 | Definition: what aggregateStatsForUser computes from the store, as a value: no row, the null-pointer failure, or the row. |
| StatAggregation.AggregateFrom | src/main/java/com/postura/report/service/StatAggregationService.java:69-146 | Definition: the same given the latest earlier row, the only thing the existing table contributes. |
| StatAggregation.FindKey | src/main/java/com/postura/report/service/StatAggregationService.java:114 | The (user, date) lookup returns the first row with that key, or reports that no row has it. |
| StatAggregation.Upsert | src/main/java/com/postura/report/service/StatAggregationService.java:118-149 | An existing key keeps the table size; a new key adds one row. |
| StatAggregation.UpsertPlacesRow | src/main/java/com/postura/report/service/StatAggregationService.java:118-149 | On a table with unique (user, date) keys, the upsert keeps keys unique and stores the row as the only one with its key. Every other row keeps its place. |
| StatAggregation.UpsertTwice | src/main/java/com/postura/report/service/StatAggregationService.java:118-149 | Upserting the same row twice is the same as once. |
| StatAggregation.LatestBeforeIgnoresReplace | src/main/java/com/postura/report/service/StatAggregationService.java:176 | Replacing a row that is not an earlier row of the user does not change the streak lookup. |
| StatAggregation.LatestBeforeIgnoresUpsert | src/main/java/com/postura/report/service/StatAggregationService.java:114-176 | Upserting a day's row does not change what that day's streak lookup sees. |
| StatAggregation.AggregatedStats | src/main/java/com/postura/report/service/StatAggregationService.java:114-149 | Definition: the table after one aggregation, the row upserted or the table kept. |
| StatAggregation.SecondUserSameDayBreaksDateConstraint | src/main/java/com/postura/report/entity/AggregateStat.java:28 | Two users' rows for the same day violate the declared date-only uniqueness, though aggregation legitimately produces them. |
| StatAggregation.AggregationIdempotent | src/main/java/com/postura/report/service/StatAggregationService.java:114-149 | Aggregating the same user and day twice on unchanged inputs leaves the table as one run does. |
| StatAggregation.SpecIgnoresUpsert | src/main/java/com/postura/report/service/StatAggregationService.java:115-176 | A day's row is computed the same way after that day's row was upserted. |
| StatAggregation.AggregationKeepsKeysUnique | src/main/java/com/postura/report/service/StatAggregationService.java:114-149 | Aggregation keeps the (user, date) keys of the table unique. |
| StatAggregation.RowNeedsLogsAndTotal | src/main/java/com/postura/report/service/StatAggregationService.java:74-113 | A row is written only when the day has a warning log of the user and a non-zero counted total. It then has the user, the date, that total, the ratio of the day's sums and the goal flag ratio ≥ 80 percent. |
| StatAggregation.UncountedSessionIgnored | src/main/java/com/postura/report/service/StatAggregationService.java:88 | A session that is not COMPLETED, or has no total, does not affect the outcome. |
| StatAggregation.EightyOfHundredMeetsGoal | src/main/java/com/postura/report/service/StatAggregationService.java:36-113 | 80 of 100 good seconds give 80.00 percent, which meets the goal; 79 of 100 fall short. |
| StatAggregation.RatioInRange | src/main/java/com/postura/report/service/StatAggregationService.java:159-162 | With 0 ≤ good ≤ total the ratio lies between 0 and 100 percent. |
| StatAggregation.StreakPositiveIffAchieved | src/main/java/com/postura/report/service/StatAggregationService.java:167-180 | With non-negative stored streaks, the streak is positive exactly when the goal is met. |
| StatAggregation.StreakSkipsMissingDay | src/main/java/com/postura/report/service/StatAggregationService.java:173-179 | The streak continues from the latest earlier row even across a missing day: a met day after a streak of 3 two days back gets 4. |
| StatAggregation.IssueKeysAreWarnings | src/main/java/com/postura/report/service/StatAggregationService.java:185-195 | Every one of the seven issue keys counts as a warning tag. |
| StatAggregation.IssueKeysDistinct | src/main/java/com/postura/report/service/StatAggregationService.java:185-195 | The seven issue keys are pairwise different. |
| StatAggregation.InitialPostureCountMap | src/main/java/com/postura/report/service/StatAggregationService.java:185-195 | The initial map holds every issue key. |
| StatAggregation.InitialCountsZero | src/main/java/com/postura/report/service/StatAggregationService.java:185-195 | Every count of the initial map is 0. |
| StatAggregation.Tally | src/main/java/com/postura/report/service/StatAggregationService.java:100-107 | Definition: the initial map with every warning tag merged in under its own spelling. |
| StatAggregation.MergeCounts | src/main/java/com/postura/report/service/StatAggregationService.java:104 | `merge(state, 1, Integer::sum)` adds one under its key and changes no other count. |
| StatAggregation.TallyCounts | src/main/java/com/postura/report/service/StatAggregationService.java:100-107 | The tally holds, for every key, the number of warning tags equal to it, including keys outside the seven. |
| StatAggregation.TallyAppend | src/main/java/com/postura/report/service/StatAggregationService.java:101-105 | One more tag merges into the tally and the warning total exactly when it is a warning. |
| StatAggregation.IssueCountsExact | src/main/java/com/postura/report/service/StatAggregationService.java:100-107 | For each of the seven keys the tally is the exact count of that tag. |
| StatAggregation.SumCountsZero | src/main/java/com/postura/report/service/StatAggregationService.java:185-195 | Counts that are all zero sum to zero. |
| StatAggregation.SumCountsMerge | src/main/java/com/postura/report/service/StatAggregationService.java:104 | Over distinct keys, a merge raises the sum by one exactly when its key is among them. |
| StatAggregation.TallyWithinWarnings | src/main/java/com/postura/report/service/StatAggregationService.java:100-107 | Over distinct keys, the tallied counts sum to at most the warning total. |
| StatAggregation.IssueCountsWithinWarnings | src/main/java/com/postura/report/service/StatAggregationService.java:100-107 | The seven issue counts of a row add up to at most its warning total. |
| StatAggregation.RowHoldsTally | src/main/java/com/postura/report/service/StatAggregationService.java:138-144 | Each issue column of the built row is the exact count of that tag. |
| StatAggregation.SumSessions | src/main/java/com/postura/report/service/StatAggregationService.java:86-92 | The session loop fails exactly on the unboxing case, and otherwise returns the good and total sums of the counted sessions. |
| StatAggregation.TallyWarningLogs | src/main/java/com/postura/report/service/StatAggregationService.java:100-107 | The log loop returns the warning-tag total and the tally map of all tags of the day's logs. |
| StatAggregation.TallyStates | src/main/java/com/postura/report/service/StatAggregationService.java:101-106 | The inner loop extends the running total and tally by one log's tags. |
| StatAggregation.BuildDayRow | src/main/java/com/postura/report/service/StatAggregationService.java:65-146 | The computed result is exactly the specification of the day: no row without logs or total, NULL_POINTER for a counted session without a good count, else the day's row with the streak taken from the latest earlier row. |
| StatAggregation.AggregateStatsForUser | src/main/java/com/postura/report/service/StatAggregationService.java:64-151 | The table becomes the specified upsert of the day's row (or is left as it was). The call fails with NULL_POINTER exactly when the specification does. Users, sessions and logs are unchanged. |
| StatAggregation.AggregateAll | src/main/java/com/postura/report/service/StatAggregationService.java:48-57 | Definition: the nightly fold of one aggregation per user, in order, a failing user leaving the table as it was. |
| StatAggregation.AggregateAllAppend | src/main/java/com/postura/report/service/StatAggregationService.java:50-57 | The nightly fold over users + [u] is u's aggregation after the fold over users. |
| StatAggregation.AggregateAllStep | src/main/java/com/postura/report/service/StatAggregationService.java:50-57 | The fold over one more user is that user's aggregation on the table the fold reached. |
| StatAggregation.AggregateNext | src/main/java/com/postura/report/service/StatAggregationService.java:50-57 | One turn of the nightly loop extends the fold by the next user, with only the statistics table changed. |
| StatAggregation.FailureKeepsTable | src/main/java/com/postura/report/service/StatAggregationService.java:53-56 | A user whose day fails fails on every table and leaves it as it was. |
| StatAggregation.FailingUserIsolated | src/main/java/com/postura/report/service/StatAggregationService.java:50-57 | A failing user drops out of the nightly run: the others are aggregated as if that user were absent. |
| StatAggregation.RunDailyAggregation | src/main/java/com/postura/report/service/StatAggregationService.java:42-58 | Every user, in findAll order, is aggregated for yesterday, and failures are caught per user. Only the statistics table changes. |
| MonitoringService.RunningDuration | src/main/java/com/postura/monitor/service/MonitoringService.java:180-188 | The running time is the seconds from the last pause or resume (else the start) to now. |
| MonitoringService.Marker | src/main/java/com/postura/monitor/service/MonitoringService.java:181-183 | Definition: the last pause or resume instant, else the start. |
| MonitoringService.StoredCounts | src/main/java/com/postura/monitor/service/MonitoringService.java:131-134 | Missing counts are stored as 0, present ones as read. The warning count is narrowed to an int. |
| MonitoringService.Transition | src/main/java/com/postura/monitor/service/MonitoringService.java:70-141 | Definition: the guarded pause, resume and complete transitions of one session view. |
| MonitoringService.TransitionGuards | src/main/java/com/postura/monitor/service/MonitoringService.java:70-141 | Pause is allowed exactly from STARTED, resume from PAUSED, complete from anything but COMPLETED. A refused call is INVALID_SESSION_STATUS. An allowed one reaches the matching status and keeps the id and owner. |
| MonitoringService.CompletedIsFinal | src/main/java/com/postura/monitor/service/MonitoringService.java:120-122 | Every call on a COMPLETED session is refused. |
| MonitoringService.CompletionAddsLastSegment | src/main/java/com/postura/monitor/service/MonitoringService.java:124-140 | Completion adds the running segment from STARTED and nothing from PAUSED, sets the end time and stores the counts with missing ones at 0. |
| MonitoringService.TransitionKeepsTime | src/main/java/com/postura/monitor/service/MonitoringService.java:79-82 | For calls at or after the marker, no allowed call lowers the accumulated time. Pause and resume move the marker to the call's instant. |
| MonitoringService.Run | src/main/java/com/postura/monitor/service/MonitoringService.java:70-141 | Definition: a sequence of calls on one session, a refused call leaving it as it was. |
| MonitoringService.RunAfterCompletion | src/main/java/com/postura/monitor/service/MonitoringService.java:120-122 | Once COMPLETED, a session stays exactly as it is, whatever is asked afterwards. |
| MonitoringService.FiftySecondScenario | src/main/java/com/postura/monitor/service/MonitoringService.java:70-140 | Starting, running 30 s, pausing 10 s, resuming and running 20 s, then completing accumulates 50 s. |
| MonitoringService.FindSession | src/main/java/com/postura/monitor/service/MonitoringService.java:170-173 | The lookup finds a session with that id owned by the caller, or reports that none matches both. |
| MonitoringService.ForeignSessionRefused | src/main/java/com/postura/monitor/service/MonitoringService.java:170-173 | A session id owned by someone else is SESSION_NOT_FOUND. |
| MonitoringService.SessionCall | src/main/java/com/postura/monitor/service/MonitoringService.java:70-173 | Definition: the lookup by id and owner, then the transition on that session. |
| MonitoringService.CallTouchesOneSession | src/main/java/com/postura/monitor/service/MonitoringService.java:70-160 | An allowed call changes only the named session, and every session keeps its id and owner. |
| MonitoringService.ViewsAfterUpdate | src/main/java/com/postura/monitor/service/MonitoringService.java:83 | Saving one changed session changes only its entry in the table. |
| MonitoringService.StartSession | src/main/java/com/postura/monitor/service/MonitoringService.java:38-62 | An unknown user is USER_NOT_FOUND and changes nothing. Otherwise the user's cache is cleared and a fresh STARTED session is added under the next id, which is returned. |
| MonitoringService.PauseSession | src/main/java/com/postura/monitor/service/MonitoringService.java:70-87 | The outcome and the new session table are those of the guarded pause transition on the caller's session. |
| MonitoringService.ResumeSession | src/main/java/com/postura/monitor/service/MonitoringService.java:95-109 | The outcome and the new session table are those of the guarded resume transition. |
| MonitoringService.CompleteInStore | src/main/java/com/postura/monitor/service/MonitoringService.java:117-141 | The outcome and the new session table are those of the guarded completion with the given counts. |
| MonitoringService.AggregateThenClear | src/main/java/com/postura/monitor/service/MonitoringService.java:144-156 | The day is aggregated. The cache hash and its time to live are removed only when the aggregation did not throw. |
| MonitoringService.CompleteSession | src/main/java/com/postura/monitor/service/MonitoringService.java:117-160 | The session is completed with the counts that stood in the cache. A refused call changes nothing. An allowed one aggregates today on the new table and clears the cache hash and its time to live unless the aggregation failed; that failure does not undo the completion. |
| SelfManagement.MondayOfWeek | src/main/java/com/postura/report/service/SelfManagementService.java:43 | The Monday of a day's ISO week lies at most six days before it and is itself a Monday, fixed by the adjustment. |
| SelfManagement.Monday | src/main/java/com/postura/report/service/SelfManagementService.java:43 | Definition: `with(DayOfWeek.MONDAY)` on epoch days, day − (day + 3) mod 7. |
| SelfManagement.FirstEpochMonday | src/main/java/com/postura/report/service/SelfManagementService.java:43 | 1970-01-05 was a Monday, 1970-01-11 belongs to its week, and 1970-01-04 to the week before. |
| SelfManagement.RowsBetween | src/main/java/com/postura/report/service/SelfManagementService.java:39-40 | Definition: the user's rows dated lo to hi, by ascending date, one per date. |
| SelfManagement.RowsBetweenSound | src/main/java/com/postura/report/service/SelfManagementService.java:39-40 | Every row of a window is a row of the table, of that user, dated in the closed range. |
| SelfManagement.RowsBetweenAscending | src/main/java/com/postura/report/service/SelfManagementService.java:39-40 | The window's dates strictly increase, as OrderByStatDateAsc gives them. |
| SelfManagement.RowsBetweenComplete | src/main/java/com/postura/report/service/SelfManagementService.java:39-40 | With unique (user, date) keys, every row of the user in range is in the window. |
| SelfManagement.AverageRatio | src/main/java/com/postura/report/service/SelfManagementService.java:131-138 | An empty list averages 0. |
| SelfManagement.SumRatiosBounds | src/main/java/com/postura/report/service/SelfManagementService.java:133-134 | Ratios between 0 and 100 percent sum to between 0 and 100 percent times the count. |
| SelfManagement.AverageInRange | src/main/java/com/postura/report/service/SelfManagementService.java:131-138 | Ratios between 0 and 100 percent average, after rounding, to between 0 and 100 percent. |
| SelfManagement.Comparison | src/main/java/com/postura/report/service/SelfManagementService.java:120-123 | Against a zero previous average, the change is 100 percent when the current one is positive, else 0. |
| SelfManagement.ComparisonDirection | src/main/java/com/postura/report/service/SelfManagementService.java:124-125 | Against a positive previous average, a rise gives a change ≥ 0 and a fall one ≤ 0. An unchanged average is 0.00 percent and a doubled one 100.00 percent. |
| SelfManagement.TotalWarningSplits | src/main/java/com/postura/report/service/SelfManagementService.java:143-148 | The warning total over two adjacent stretches is the sum of their totals. |
| SelfManagement.TotalWarning | src/main/java/com/postura/report/service/SelfManagementService.java:143-148 | Definition: the sum of the warning totals of the rows. |
| SelfManagement.MergeSumCount | src/main/java/com/postura/report/service/SelfManagementService.java:156 | `merge(key, v, Integer::sum)` adds v under its key, adds the key, and changes no other count. |
| SelfManagement.AddRowCount | src/main/java/com/postura/report/service/SelfManagementService.java:155-163 | The seven merges of one row add its count under each issue key and introduce no other key. |
| SelfManagement.AddRowCounts | src/main/java/com/postura/report/service/SelfManagementService.java:155-163 | The same, for all keys at once. |
| SelfManagement.Distribution | src/main/java/com/postura/report/service/SelfManagementService.java:153-167 | Definition: each issue key with a positive total over the rows, with that total. |
| SelfManagement.CalculatePostureDistribution | src/main/java/com/postura/report/service/SelfManagementService.java:153-167 | The merged and filtered map is exactly each issue with a positive total over the rows, with that total. |
| SelfManagement.DistributionEntries | src/main/java/com/postura/report/service/SelfManagementService.java:164-166 | An issue appears exactly when its total is positive, and then with that total. |
| SelfManagement.MaxExists | src/main/java/com/postura/report/service/SelfManagementService.java:175 | A non-empty set of entries has one of largest count. |
| SelfManagement.Eligible | src/main/java/com/postura/report/service/SelfManagementService.java:174-175 | Definition: the entries that are not GOOD ignoring case and have a positive count. |
| SelfManagement.IsTop3 | src/main/java/com/postura/report/service/SelfManagementService.java:172-179 | Definition: three entries, or all eligible ones when fewer, distinct, eligible, by non-increasing count, none left out counting more than one taken. |
| SelfManagement.RankedStep | src/main/java/com/postura/report/service/SelfManagementService.java:175-176 | Taking a remaining entry of largest count extends a valid partial ranking. |
| SelfManagement.RankedDone | src/main/java/com/postura/report/service/SelfManagementService.java:176 | A ranking that has taken three entries, or every eligible one, is a top three. |
| SelfManagement.FindTop3FrequentIssues | src/main/java/com/postura/report/service/SelfManagementService.java:172-179 | The result has the right length: three, or every eligible entry when fewer are eligible. Its entries are distinct, not GOOD, with positive counts, in non-increasing order, and no entry left out counts more than one taken. |
| SelfManagement.TopFirstIsMostFrequent | src/main/java/com/postura/report/service/SelfManagementService.java:96 | The top list is empty exactly when nothing is eligible. Its first entry has the largest count. |
| SelfManagement.MostFrequentIssue | src/main/java/com/postura/report/service/SelfManagementService.java:96 | Definition: the first of the top three, or GOOD when there is none. |
| SelfManagement.WithGuides | src/main/java/com/postura/report/service/SelfManagementService.java:188-190 | Skipping issues without guides never lengthens the list. |
| SelfManagement.WithGuidesMembers | src/main/java/com/postura/report/service/SelfManagementService.java:188-190 | An issue is recommended for exactly when it is a top issue and has a guide. |
| SelfManagement.RecommendsFor | src/main/java/com/postura/report/service/SelfManagementService.java:184-200 | Definition: one recommendation per issue with a guide, in order, each naming one of its guides. |
| SelfManagement.GenerateRecommendations | src/main/java/com/postura/report/service/SelfManagementService.java:184-200 | There is one recommendation per issue with a guide, in the issues' order, and each names a guide listed for its issue. |
| SelfManagement.RecommendsSkip | src/main/java/com/postura/report/service/SelfManagementService.java:190 | An issue without guides adds no recommendation. |
| SelfManagement.RecommendsAdd | src/main/java/com/postura/report/service/SelfManagementService.java:191-197 | An issue with guides adds one recommendation naming one of them. |
| SelfManagement.BuildSummary | src/main/java/com/postura/report/service/SelfManagementService.java:79-110 | The report assembled from a non-empty rolling window has the specified summary values and carries the ranked parts as given. |
| SelfManagement.RollingWindow | src/main/java/com/postura/report/service/SelfManagementService.java:38-40 | Definition: the seven days ending on the reference day. |
| SelfManagement.CalendarWeek | src/main/java/com/postura/report/service/SelfManagementService.java:43-45 | Definition: Monday of the reference week to the reference day. |
| SelfManagement.LastWeek | src/main/java/com/postura/report/service/SelfManagementService.java:48-51 | Definition: Monday to Sunday of the week before. |
| SelfManagement.RollingWindowEmptyIff | src/main/java/com/postura/report/service/SelfManagementService.java:38-40 | With unique (user, date) keys, the rolling window is empty exactly when the table has no row of the user in those seven days. |
| SelfManagement.SummaryHolds | src/main/java/com/postura/report/service/SelfManagementService.java:71-109 | Definition: the report's series, current values, week average, total, comparison and monthly achievements as functions of the windows. |
| SelfManagement.RankingHolds | src/main/java/com/postura/report/service/SelfManagementService.java:67-100 | Definition: some admissible top three gives the report's label and its recommendations. |
| SelfManagement.GetWeeklyReport | src/main/java/com/postura/report/service/SelfManagementService.java:35-111 | On a table with unique (user, date) keys, the call is SESSION_NOT_FOUND exactly when the user has no row in the seven days ending on the reference day. Otherwise the report has the rolling series and the latest row's values, and the calendar week's average and total. It has the comparison with last week, the rolling distribution, an admissible top three with its label and recommendations, and the month's achievements. |
| SelfManagement.ReportedMostFrequent | src/main/java/com/postura/report/service/SelfManagementService.java:96 | The report's label is an issue of largest count, or GOOD when the distribution has no eligible entry. |
| SelfManagement.ReportedRecommendations | src/main/java/com/postura/report/service/SelfManagementService.java:100 | There are at most three recommendations. Each is for an issue of the distribution and names one of its guides. |
| LogCleanup.RetentionLimit | src/main/java/com/postura/ai/service/LogCleanupService.java:27 | The limit lies exactly thirty days before now. |
| LogCleanup.Kept | src/main/java/com/postura/ai/service/LogCleanupService.java:33 | Definition: the entries not older than the limit, in order. |
| LogCleanup.KeptMembers | src/main/java/com/postura/ai/service/LogCleanupService.java:33 | An entry survives exactly when it was there and is not older than the limit. |
| LogCleanup.KeptInOrder | src/main/java/com/postura/ai/service/LogCleanupService.java:33 | The survivors are the table's entries at strictly increasing positions, so their order is kept. |
| LogCleanup.KeptIdempotent | src/main/java/com/postura/ai/service/LogCleanupService.java:33 | A second deletion with the same limit removes nothing more. |
| LogCleanup.DeleteByTimestampBefore | src/main/java/com/postura/ai/service/LogCleanupService.java:33 | The log table keeps exactly the entries not older than the limit, in order. The count removed is returned, and nothing else changes. |
| LogCleanup.LogCleanupService.constructor | src/main/java/com/postura/ai/service/LogCleanupService.java:16-20 | The generated constructor leaves the non-final repository field null. |
| LogCleanup.LogCleanupService.Injected | src/main/java/com/postura/ai/service/LogCleanupService.java:20 | The intended wiring holds the given repository. |
| LogCleanup.LogCleanupService.CleanupOldLogs | src/main/java/com/postura/ai/service/LogCleanupService.java:24-40 | A null repository throws, the exception is caught, and nothing is deleted. Otherwise every entry older than now minus thirty days is deleted and the count reported. |
| LogCleanup.CleanupAsWrittenDeletesNothing | src/main/java/com/postura/ai/service/LogCleanupService.java:16-40 | As wired, the job never deletes anything: it reports the caught failure and leaves the store exactly as it was. |
| LogCleanup.CleanupInjected | src/main/java/com/postura/ai/service/LogCleanupService.java:24-40 | With the repository injected, the job leaves exactly the entries within the retention window. |
| LogCleanup.StaleEntryOutlivesCleanup | src/main/java/com/postura/ai/service/LogCleanupService.java:16-40 | Run on a store holding an entry older than the limit, the job as written leaves the entry in the store, and the injected job then removes it. |

## Left out

- I/O and infrastructure are not modelled: HTTP controllers, JWT/OAuth,
  logging, Redis and JPA themselves, `@Async` dispatch, concurrency and
  races between requests.
- Clocks and randomness are parameters. `LocalDateTime.now()` is an
  explicit `now`. The guide drawn by `Random` is any index into the guide
  list.
- Transactions are not modelled. A `@Transactional` inner call that throws
  marks the outer transaction rollback-only in Spring, so a failed
  aggregation inside `completeSession` could also undo the completion at
  commit. The model commits the completion and keeps the failure local, as
  the code's try/catch intends.
- Redis time-to-live expiry is not modelled. The model records the value
  EXPIRE sets; a key that expires behaves like one that was cleared.
- `RealtimeFeedbackService.getFinalSessionCounts` and
  `RealtimeFeedbackService.clearUserCache` are called but are not part of
  the service file. `FinalSessionCounts` reads the three counters from the
  hash (a missing field is a missing count). `ClearUserCache` deletes the
  user's key.
- `AggregateStat.updateStats` is called but not declared, and the entity's
  field names differ from the builder calls. The upsert writes the same
  fields the builder sets.
- Floating point is replaced by exact rationals rounded half up, in
  hundredths or tenths. Bit-exact agreement with `double` arithmetic is
  not claimed.
- Frames are Monday from the ISO week. The first and last day of the month
  are parameters, since calendar month lengths are not modelled.
- Content guides are a total function from issue tag to a list of guides;
  the content repository is not modelled.
- `StatAggregation.TallyWarningLogs`: the `int` warning total and the
  `Integer` map counts are unbounded; Java would wrap above 2^31 − 1 tags
  in a day.
- `SelfManagement.TotalWarning`: `IntStream.sum` and `Integer::sum` in the
  distribution are unbounded sums; wrap-around above 2^31 − 1 warnings in a
  week is not modelled.
- `MonitoringService.RunningDuration`: the null check on the start time is
  not modelled. The entity's start time is a non-null column, always set by
  startSession.
- `StatAggregation.SessionsOfDay`: the repository query methods are
  declared nowhere. Each is modelled by the query its name spells out, with
  `Between` inclusive at both ends.
- The request DTO declares `postureStatus`, and the live-feedback response
  DTO has field names that differ from the service. The model follows the
  service code.
- Sessions are stored with identity ids i + 1 and are never deleted.
  Session ids and user ids are plain integers.
- Text.IsUnknownIgnoresCase: the case fold is the one Java's
  `equalsIgnoreCase` applies against the all-ASCII tag names GOOD and
  UNKNOWN (A–Z plus the Kelvin sign); it is not a general Unicode fold, so
  `Text.EqualsIgnoreCase` is not claimed exact for other targets.
- Text.ParseLong accepts ASCII digits only, where `Long.parseLong` also
  accepts other Unicode decimal digits; counters are only ever written by
  HINCRBY as ASCII decimal text, so the difference is unreachable.
- RealtimeFeedback.HIncrBy reads the stored field with the same parser, so
  it would accept a leading '+' or leading zeros that Redis's HINCRBY
  rejects; no code path writes such a counter.

## Findings

| source | as written | input that shows it | evidently intended | confidence | as-written member | corrected member |
|---|---|---|---|---|---|---|
| src/main/java/com/postura/report/entity/AggregateStat.java:28 | `stat_date` is declared unique on its own | users 1 and 2 both have a met day on the same date: the second row violates the constraint | one row per (user, date), as the upsert lookup at StatAggregationService.java:114 assumes | not executed | StatAggregation.SecondUserSameDayBreaksDateConstraint | StatAggregation.AggregationKeepsKeysUnique |
| src/main/java/com/postura/ai/service/LogCleanupService.java:20 | the repository field is not final, so `@RequiredArgsConstructor` never injects it; the call throws a NullPointerException that is caught and logged | any run with an entry older than thirty days: it is never deleted | the field is final and injected, so stale entries are deleted | not executed | LogCleanup.CleanupAsWrittenDeletesNothing | LogCleanup.CleanupInjected |
