/** The MonitoringSession entity: one bounded monitoring interval of a user,
    with its status, timestamps, accumulated running time and final counts. */
module Session {
  import opened Wrappers

  datatype SessionStatus = STARTED | PAUSED | COMPLETED

  /** The persisted columns of a session, as a value. `pausedAt` is the
      "running since" marker once the session has been paused at least once. */
  datatype SessionView = SessionView(
    id: int,
    userId: int,
    status: SessionStatus,
    startAt: int,
    endAt: Option<int>,
    pausedAt: Option<int>,
    accumulatedDurationSeconds: int,
    finalGoodCount: Option<int>,
    finalTotalCount: Option<int>,
    finalWarningCount: Option<int>)

  /** The row built by startSession: STARTED at `now`, nothing accumulated, no final counts. */
  function NewSession(id: int, userId: int, now: int): SessionView {
    SessionView(id, userId, STARTED, now, None, None, 0, None, None, None)
  }

  /** The state after `pause(runningSeconds)`. */
  function Paused(v: SessionView, runningSeconds: int, now: int): SessionView {
    v.(status := PAUSED, pausedAt := Some(now),
       accumulatedDurationSeconds := v.accumulatedDurationSeconds + runningSeconds)
  }

  /** The state after `resume()`: the marker moves to `now`, the total stays. */
  function Resumed(v: SessionView, now: int): SessionView {
    v.(status := STARTED, pausedAt := Some(now))
  }

  /** The state after `complete(finalSeconds, good, total, warning)`. */
  function Completed(v: SessionView, finalSeconds: int, now: int, good: int, total: int, warning: int): SessionView {
    v.(accumulatedDurationSeconds := v.accumulatedDurationSeconds + finalSeconds,
       status := COMPLETED, endAt := Some(now),
       finalGoodCount := Some(good), finalTotalCount := Some(total), finalWarningCount := Some(warning))
  }

  /** With non-negative durations no mutator lowers the accumulated time. */
  lemma AccumulatedNeverDecreases(v: SessionView, d: int, now: int, good: int, total: int, warning: int)
    requires d >= 0
    ensures Paused(v, d, now).accumulatedDurationSeconds >= v.accumulatedDurationSeconds
    ensures Resumed(v, now).accumulatedDurationSeconds == v.accumulatedDurationSeconds
    ensures Completed(v, d, now, good, total, warning).accumulatedDurationSeconds >= v.accumulatedDurationSeconds
  {
  }

  class MonitoringSession {
    const id: int
    const userId: int
    var status: SessionStatus
    var startAt: int
    var endAt: Option<int>
    var pausedAt: Option<int>
    var accumulatedDurationSeconds: int
    var finalGoodCount: Option<int>
    var finalTotalCount: Option<int>
    var finalWarningCount: Option<int>

    function View(): SessionView
      reads this
    {
      SessionView(id, userId, status, startAt, endAt, pausedAt, accumulatedDurationSeconds,
                  finalGoodCount, finalTotalCount, finalWarningCount)
    }

    /** The builder: every column given explicitly. */
    constructor (v: SessionView)
      ensures View() == v
    {
      id := v.id;
      userId := v.userId;
      status := v.status;
      startAt := v.startAt;
      endAt := v.endAt;
      pausedAt := v.pausedAt;
      accumulatedDurationSeconds := v.accumulatedDurationSeconds;
      finalGoodCount := v.finalGoodCount;
      finalTotalCount := v.finalTotalCount;
      finalWarningCount := v.finalWarningCount;
    }

    /** Sets PAUSED, records `now` as the marker and adds exactly `currentDurationSeconds`. */
    method Pause(currentDurationSeconds: int, now: int)
      requires status == STARTED
      modifies this
      ensures View() == Paused(old(View()), currentDurationSeconds, now)
    {
      status := PAUSED;
      pausedAt := Some(now);
      accumulatedDurationSeconds := accumulatedDurationSeconds + currentDurationSeconds;
    }

    /** Sets STARTED and moves the marker to `now`; the accumulated time is untouched. */
    method Resume(now: int)
      requires status == PAUSED
      modifies this
      ensures View() == Resumed(old(View()), now)
    {
      status := STARTED;
      pausedAt := Some(now);
    }

    /** Adds the last segment, sets COMPLETED and the end time, and stores the final counts as given. */
    method Complete(finalDurationSeconds: int, now: int, good: int, total: int, warning: int)
      requires status != COMPLETED
      modifies this
      ensures View() == Completed(old(View()), finalDurationSeconds, now, good, total, warning)
    {
      accumulatedDurationSeconds := accumulatedDurationSeconds + finalDurationSeconds;
      status := COMPLETED;
      endAt := Some(now);
      finalGoodCount := Some(good);
      finalTotalCount := Some(total);
      finalWarningCount := Some(warning);
    }
  }
}
