/** The session service: starts, pauses, resumes and completes monitoring
    sessions, guarding each transition by the session's owner and status, and
    on completion copies the live counters into the session, aggregates the
    day and clears the live cache. */
module MonitoringService {
  import opened Wrappers
  import opened Numbers
  import opened Session
  import opened Store
  import opened RealtimeFeedback
  import opened StatAggregation

  // ---------------------------------------------------------------------------
  // The transitions on one session
  // ---------------------------------------------------------------------------

  /** The running-since marker: the last pause or resume, else the start. */
  function Marker(v: SessionView): int {
    v.pausedAt.GetOr(v.startAt)
  }

  /** calculateRunningDuration: whole seconds from the marker to `now`. */
  function RunningDuration(v: SessionView, now: int): (d: int)
    ensures Marker(v) + d == now
  {
    now - Marker(v)
  }

  /** What a client asks of a session, with the instant it asks at. For a
      completion, the final counts as they stand in the live cache. */
  datatype Action =
    | PauseAt(now: int)
    | ResumeAt(now: int)
    | CompleteAt(now: int, counts: FinalCounts)

  /** The counts completeSession stores: a missing counter reads as 0, and the
      warning count is narrowed to an int. */
  function StoredCounts(c: FinalCounts): (r: (int, int, int))
    ensures InInt(r.2)
    ensures c.good.None? ==> r.0 == 0
    ensures c.total.None? ==> r.1 == 0
    ensures c.warning.None? ==> r.2 == 0
    ensures c.good.Some? ==> r.0 == c.good.value
    ensures c.total.Some? ==> r.1 == c.total.value
  {
    (c.good.GetOr(0), c.total.GetOr(0), ToInt32(c.warning.GetOr(0)))
  }

  /** The guard and the entity mutation of one service call: pause only from
      STARTED, resume only from PAUSED, complete from anything but COMPLETED;
      a completion from PAUSED adds no running time. */
  function Transition(v: SessionView, a: Action): Result<SessionView> {
    match a
    case PauseAt(now) =>
      if v.status != STARTED then Err(INVALID_SESSION_STATUS)
      else Ok(Paused(v, RunningDuration(v, now), now))
    case ResumeAt(now) =>
      if v.status != PAUSED then Err(INVALID_SESSION_STATUS)
      else Ok(Resumed(v, now))
    case CompleteAt(now, counts) =>
      if v.status == COMPLETED then Err(INVALID_SESSION_STATUS)
      else
        var last := if v.status == STARTED then RunningDuration(v, now) else 0;
        var (good, total, warning) := StoredCounts(counts);
        Ok(Completed(v, last, now, good, total, warning))
  }

  /** A transition is allowed exactly from the status its guard names, and
      leads to the status its mutator sets. */
  lemma TransitionGuards(v: SessionView, a: Action)
    ensures Transition(v, a).Ok? <==>
      match a
      case PauseAt(_) => v.status == STARTED
      case ResumeAt(_) => v.status == PAUSED
      case CompleteAt(_, _) => v.status != COMPLETED
    ensures Transition(v, a).Err? ==> Transition(v, a).error == INVALID_SESSION_STATUS
    ensures Transition(v, a).Ok? ==> (Transition(v, a).value.status ==
      match a
      case PauseAt(_) => PAUSED
      case ResumeAt(_) => STARTED
      case CompleteAt(_, _) => COMPLETED)
    ensures Transition(v, a).Ok? ==> Transition(v, a).value.id == v.id && Transition(v, a).value.userId == v.userId
  {
  }

  /** COMPLETED is absorbing: every further call is refused. */
  lemma CompletedIsFinal(v: SessionView, a: Action)
    requires v.status == COMPLETED
    ensures Transition(v, a) == Err(INVALID_SESSION_STATUS)
  {
  }

  /** A completion adds the running segment from STARTED and nothing from
      PAUSED, and stores the cached counts with missing ones at 0. */
  lemma CompletionAddsLastSegment(v: SessionView, now: int, counts: FinalCounts)
    requires v.status != COMPLETED
    ensures var w := Transition(v, CompleteAt(now, counts)).value;
      && w.accumulatedDurationSeconds
           == v.accumulatedDurationSeconds + (if v.status == STARTED then now - Marker(v) else 0)
      && w.endAt == Some(now)
      && w.finalGoodCount == Some(counts.good.GetOr(0))
      && w.finalTotalCount == Some(counts.total.GetOr(0))
  {
  }

  /** With calls at or after the marker, no transition lowers the accumulated
      time, and pause and resume move the marker to the call's instant. */
  lemma TransitionKeepsTime(v: SessionView, a: Action)
    requires a.now >= Marker(v)
    requires Transition(v, a).Ok?
    ensures Transition(v, a).value.accumulatedDurationSeconds >= v.accumulatedDurationSeconds
    ensures !a.CompleteAt? ==> Marker(Transition(v, a).value) == a.now
  {
  }

  /** The session after a series of calls; a refused call leaves it as it was. */
  function Run(v: SessionView, actions: seq<Action>): SessionView {
    if actions == [] then v
    else
      var w := Run(v, actions[..|actions| - 1]);
      match Transition(w, actions[|actions| - 1])
      case Ok(w') => w'
      case Err(_) => w
  }

  /** Once COMPLETED, a session stays COMPLETED with the same columns,
      whatever is asked of it afterwards. */
  lemma {:induction false} RunAfterCompletion(v: SessionView, actions: seq<Action>)
    requires v.status == COMPLETED
    ensures Run(v, actions) == v
  {
    if actions != [] {
      RunAfterCompletion(v, actions[..|actions| - 1]);
      CompletedIsFinal(v, actions[|actions| - 1]);
    }
  }

  /** Start, run 30 s, pause, wait 10 s, resume, run 20 s, complete: 50 s
      accumulated, and the idle 10 s are not counted. */
  lemma FiftySecondScenario(userId: int, t: int, counts: FinalCounts)
    ensures var v := Run(NewSession(1, userId, t), [PauseAt(t + 30), ResumeAt(t + 40), CompleteAt(t + 60, counts)]);
      v.status == COMPLETED && v.accumulatedDurationSeconds == 50 && v.endAt == Some(t + 60)
  {
    var actions := [PauseAt(t + 30), ResumeAt(t + 40), CompleteAt(t + 60, counts)];
    var v0 := NewSession(1, userId, t);
    var v1 := Paused(v0, 30, t + 30);
    var v2 := Resumed(v1, t + 40);
    assert actions[..2][..1][..0] == [];
    assert Run(v0, actions[..2][..1]) == v1;
    assert actions[..2][..1] == [PauseAt(t + 30)];
    assert Run(v0, actions[..2]) == v2;
    assert v2.accumulatedDurationSeconds == 30 && Marker(v2) == t + 40;
  }

  // ---------------------------------------------------------------------------
  // The lookup and the service calls on the store
  // ---------------------------------------------------------------------------

  /** findByIdAndUserId: the position of the session with this id and owner. */
  function FindSession(vs: seq<SessionView>, sessionId: int, userId: int): (r: Option<nat>)
    ensures r.Some? ==> r.value < |vs| && vs[r.value].id == sessionId && vs[r.value].userId == userId
    ensures r.None? ==> forall i :: 0 <= i < |vs| ==> !(vs[i].id == sessionId && vs[i].userId == userId)
  {
    if vs == [] then None
    else if vs[|vs| - 1].id == sessionId && vs[|vs| - 1].userId == userId then Some(|vs| - 1)
    else FindSession(vs[..|vs| - 1], sessionId, userId)
  }

  /** A service call on the session table as a value: SESSION_NOT_FOUND unless
      the session exists and belongs to the caller, else the transition. */
  function SessionCall(vs: seq<SessionView>, sessionId: int, userId: int, a: Action): Result<seq<SessionView>> {
    match FindSession(vs, sessionId, userId)
    case None => Err(SESSION_NOT_FOUND)
    case Some(i) =>
      match Transition(vs[i], a)
      case Err(e) => Err(e)
      case Ok(w) => Ok(vs[i := w])
  }

  /** The table after a call: as it was when the call is refused. */
  function After(vs: seq<SessionView>, r: Result<seq<SessionView>>): seq<SessionView> {
    if r.Ok? then r.value else vs
  }

  function OutcomeOf<T>(r: Result<T>): Outcome {
    if r.Ok? then Pass else Fail(r.error)
  }

  /** Another user's session id is refused and changes nothing. */
  lemma ForeignSessionRefused(vs: seq<SessionView>, sessionId: int, userId: int, a: Action)
    requires forall i :: 0 <= i < |vs| && vs[i].id == sessionId ==> vs[i].userId != userId
    ensures SessionCall(vs, sessionId, userId, a) == Err(SESSION_NOT_FOUND)
  {
  }

  /** A call changes at most the one session it names, and that one keeps
      its id and owner. */
  lemma CallTouchesOneSession(vs: seq<SessionView>, sessionId: int, userId: int, a: Action)
    requires SessionCall(vs, sessionId, userId, a).Ok?
    ensures var ws := SessionCall(vs, sessionId, userId, a).value;
      && |ws| == |vs|
      && forall i :: 0 <= i < |vs| && vs[i].id != sessionId ==> ws[i] == vs[i]
    ensures var ws := SessionCall(vs, sessionId, userId, a).value;
      forall i :: 0 <= i < |vs| ==> ws[i].id == vs[i].id && ws[i].userId == vs[i].userId
  {
    var i := FindSession(vs, sessionId, userId).value;
    TransitionGuards(vs[i], a);
  }

  /** The updated table after one session object changed in place. */
  lemma ViewsAfterUpdate(db: Database, i: nat, before: seq<SessionView>)
    requires db.Valid() && i < |db.sessions|
    requires |before| == |db.sessions|
    requires forall j :: 0 <= j < |before| && j != i ==> before[j] == db.sessions[j].View()
    ensures db.SessionViews() == before[i := db.sessions[i].View()]
  {
  }

  /** startSession: USER_NOT_FOUND and no change for an unknown user;
      otherwise the user's live cache is cleared and a STARTED session with
      nothing accumulated and no final counts is saved under the next id. */
  method StartSession(db: Database, cache: RedisCache, userId: int, now: int) returns (r: Result<int>)
    requires db.Valid()
    modifies db, cache
    ensures db.Valid()
    ensures db.users == old(db.users) && db.logs == old(db.logs) && db.stats == old(db.stats)
    ensures userId !in old(db.users) ==>
      && r == Err(USER_NOT_FOUND)
      && db.sessions == old(db.sessions)
      && cache.hashes == old(cache.hashes) && cache.ttl == old(cache.ttl)
    ensures userId in old(db.users) ==>
      && r == Ok(|old(db.sessions)| + 1)
      && db.SessionViews() == old(db.SessionViews()) + [NewSession(|old(db.sessions)| + 1, userId, now)]
      && cache.hashes == old(cache.hashes) - {userId} && cache.ttl == old(cache.ttl) - {userId}
  {
    if userId !in db.users {
      return Err(USER_NOT_FOUND);
    }
    ClearUserCache(cache, userId);
    var id := |db.sessions| + 1;
    var session := new MonitoringSession(NewSession(id, userId, now));
    ghost var before := db.SessionViews();
    db.sessions := db.sessions + [session];
    assert db.SessionViews() == before + [session.View()] by {
      assert forall j :: 0 <= j < |before| ==> db.sessions[j] == old(db.sessions)[j];
    }
    return Ok(id);
  }

  /** pauseSession: adds the running time to the session and pauses it. */
  method PauseSession(db: Database, sessionId: int, userId: int, now: int) returns (o: Outcome)
    requires db.Valid()
    modifies db.sessions
    ensures db.Valid()
    ensures o == OutcomeOf(SessionCall(old(db.SessionViews()), sessionId, userId, PauseAt(now)))
    ensures db.SessionViews() == After(old(db.SessionViews()), SessionCall(old(db.SessionViews()), sessionId, userId, PauseAt(now)))
  {
    var views := db.SessionViews();
    var found := FindSession(views, sessionId, userId);
    if found.None? {
      return Fail(SESSION_NOT_FOUND);
    }
    var session := db.sessions[found.value];
    if session.status != STARTED {
      return Fail(INVALID_SESSION_STATUS);
    }
    var currentRunningDuration := RunningDuration(session.View(), now);
    session.Pause(currentRunningDuration, now);
    ViewsAfterUpdate(db, found.value, views);
    return Pass;
  }

  /** resumeSession: moves the marker to `now` and resumes the session. */
  method ResumeSession(db: Database, sessionId: int, userId: int, now: int) returns (o: Outcome)
    requires db.Valid()
    modifies db.sessions
    ensures db.Valid()
    ensures o == OutcomeOf(SessionCall(old(db.SessionViews()), sessionId, userId, ResumeAt(now)))
    ensures db.SessionViews() == After(old(db.SessionViews()), SessionCall(old(db.SessionViews()), sessionId, userId, ResumeAt(now)))
  {
    var views := db.SessionViews();
    var found := FindSession(views, sessionId, userId);
    if found.None? {
      return Fail(SESSION_NOT_FOUND);
    }
    var session := db.sessions[found.value];
    if session.status != PAUSED {
      return Fail(INVALID_SESSION_STATUS);
    }
    session.Resume(now);
    ViewsAfterUpdate(db, found.value, views);
    return Pass;
  }

  /** The store half of completeSession: completes the session with the
      given cached counts, adding the running segment when it was STARTED. */
  method CompleteInStore(db: Database, sessionId: int, userId: int, now: int, counts: FinalCounts) returns (o: Outcome)
    requires db.Valid()
    modifies db.sessions
    ensures db.Valid()
    ensures o == OutcomeOf(SessionCall(old(db.SessionViews()), sessionId, userId, CompleteAt(now, counts)))
    ensures db.SessionViews() == After(old(db.SessionViews()), SessionCall(old(db.SessionViews()), sessionId, userId, CompleteAt(now, counts)))
  {
    var views := db.SessionViews();
    var found := FindSession(views, sessionId, userId);
    if found.None? {
      return Fail(SESSION_NOT_FOUND);
    }
    var session := db.sessions[found.value];
    if session.status == COMPLETED {
      return Fail(INVALID_SESSION_STATUS);
    }
    var lastRunningDuration := 0;
    if session.status == STARTED {
      lastRunningDuration := RunningDuration(session.View(), now);
    }
    var finalGood := counts.good.GetOr(0);
    var finalTotal := counts.total.GetOr(0);
    var finalWarning := ToInt32(counts.warning.GetOr(0));
    session.Complete(lastRunningDuration, now, finalGood, finalTotal, finalWarning);
    ViewsAfterUpdate(db, found.value, views);
    return Pass;
  }

  /** The try block after a completion: aggregates the user's day, and clears
      the live cache only when the aggregation did not throw. */
  method AggregateThenClear(db: Database, cache: RedisCache, userId: int, date: int)
    requires db.Valid()
    modifies db, cache
    ensures db.Valid()
    ensures db.users == old(db.users) && db.sessions == old(db.sessions) && db.logs == old(db.logs)
    ensures db.stats == AggregatedStats(old(db.SessionViews()), db.logs, old(db.stats), userId, date)
    ensures cache.hashes == if AggregateSpec(old(db.SessionViews()), db.logs, old(db.stats), userId, date).Err?
                            then old(cache.hashes) else old(cache.hashes) - {userId}
    ensures cache.ttl == if AggregateSpec(old(db.SessionViews()), db.logs, old(db.stats), userId, date).Err?
                         then old(cache.ttl) else old(cache.ttl) - {userId}
  {
    var aggregation := AggregateStatsForUser(db, userId, date);
    if aggregation == Pass {
      ClearUserCache(cache, userId);
    }
  }

  /** completeSession: completes the session with the cached counts, then
      aggregates the user's current day; the live cache is cleared only when
      that aggregation did not throw, and its failure does not undo the
      completion. */
  method CompleteSession(db: Database, cache: RedisCache, sessionId: int, userId: int, now: int) returns (o: Outcome)
    requires db.Valid()
    modifies db, db.sessions, cache
    ensures db.Valid()
    ensures db.users == old(db.users) && db.sessions == old(db.sessions) && db.logs == old(db.logs)
    ensures var call := SessionCall(old(db.SessionViews()), sessionId, userId,
                                    CompleteAt(now, FinalSessionCounts(old(cache.HashOf(userId)))));
      && o == OutcomeOf(call)
      && db.SessionViews() == After(old(db.SessionViews()), call)
      && (call.Err? ==> db.stats == old(db.stats) && cache.hashes == old(cache.hashes) && cache.ttl == old(cache.ttl))
      && (call.Ok? ==> db.stats == AggregatedStats(call.value, db.logs, old(db.stats), userId, DayOf(now)))
      && (call.Ok? ==> (cache.hashes ==
            if AggregateSpec(call.value, db.logs, old(db.stats), userId, DayOf(now)).Err?
            then old(cache.hashes) else old(cache.hashes) - {userId}))
      && (call.Ok? ==> (cache.ttl ==
            if AggregateSpec(call.value, db.logs, old(db.stats), userId, DayOf(now)).Err?
            then old(cache.ttl) else old(cache.ttl) - {userId}))
  {
    var finalCounts := FinalSessionCounts(cache.HashOf(userId));
    o := CompleteInStore(db, sessionId, userId, now, finalCounts);
    if o == Pass {
      AggregateThenClear(db, cache, userId, DayOf(now));
    }
  }
}
