/** The nightly retention job for warning logs: every entry older than thirty
    days is deleted, failures are caught and logged. */
module LogCleanup {
  import opened Wrappers
  import opened Store

  const RETENTION_DAYS: int := 30
  const SECONDS_PER_DAY: int := 86400

  /** now minus thirty days, on a zone-less clock. */
  function RetentionLimit(now: int): (limit: int)
    ensures now - limit == RETENTION_DAYS * SECONDS_PER_DAY
  {
    now - RETENTION_DAYS * SECONDS_PER_DAY
  }

  /** The entries a deletion of everything before `limit` leaves, in order. */
  function Kept(logs: seq<PostureLog>, limit: int): seq<PostureLog> {
    if logs == [] then []
    else Kept(logs[..|logs| - 1], limit) + (if logs[|logs| - 1].timestamp >= limit then [logs[|logs| - 1]] else [])
  }

  /** Nothing older than the limit survives, and an entry survives exactly when
      it was there and is not older than the limit. */
  lemma {:induction false} KeptMembers(logs: seq<PostureLog>, limit: int, l: PostureLog)
    ensures l in Kept(logs, limit) <==> l in logs && l.timestamp >= limit
  {
    if logs != [] {
      var init := logs[..|logs| - 1];
      KeptMembers(init, limit, l);
      assert logs == init + [logs[|logs| - 1]];
    }
  }

  /** The survivors keep their relative order: they form a subsequence of the
      table, picked out by strictly increasing positions. */
  lemma {:induction false} KeptInOrder(logs: seq<PostureLog>, limit: int) returns (pos: seq<nat>)
    ensures |pos| == |Kept(logs, limit)|
    ensures forall i :: 0 <= i < |pos| ==> pos[i] < |logs| && logs[pos[i]] == Kept(logs, limit)[i]
    ensures forall i, j :: 0 <= i < j < |pos| ==> pos[i] < pos[j]
  {
    if logs == [] {
      pos := [];
    } else {
      var n := |logs| - 1;
      var init := logs[..n];
      var p := KeptInOrder(init, limit);
      var k := Kept(init, limit);
      assert forall i :: 0 <= i < |p| ==> p[i] < n && logs[p[i]] == init[p[i]];
      if logs[n].timestamp >= limit {
        assert Kept(logs, limit) == k + [logs[n]];
        pos := p + [n];
      } else {
        assert Kept(logs, limit) == k + [];
        pos := p;
      }
    }
  }

  /** A second run with the same limit deletes nothing more. */
  lemma {:induction false} KeptIdempotent(logs: seq<PostureLog>, limit: int)
    ensures Kept(Kept(logs, limit), limit) == Kept(logs, limit)
  {
    if logs != [] {
      var init := logs[..|logs| - 1];
      var last := logs[|logs| - 1];
      KeptIdempotent(init, limit);
      var k := Kept(init, limit);
      if last.timestamp >= limit {
        assert (k + [last])[..|k + [last]| - 1] == k;
      } else {
        assert k + [] == k;
      }
    }
  }

  /** deleteByTimestampBefore: removes every entry strictly older than the limit
      and returns how many it removed. */
  method DeleteByTimestampBefore(db: Database, limit: int) returns (deletedCount: int)
    requires db.Valid()
    modifies db
    ensures db.Valid()
    ensures db.users == old(db.users) && db.sessions == old(db.sessions) && db.stats == old(db.stats)
    ensures db.logs == Kept(old(db.logs), limit)
    ensures deletedCount == |old(db.logs)| - |db.logs| && deletedCount >= 0
  {
    var logs := db.logs;
    var kept: seq<PostureLog> := [];
    var i := 0;
    while i < |logs|
      invariant 0 <= i <= |logs|
      invariant kept == Kept(logs[..i], limit)
      invariant |kept| <= i
    {
      assert logs[..i + 1][..i] == logs[..i];
      if logs[i].timestamp >= limit {
        kept := kept + [logs[i]];
      }
      i := i + 1;
    }
    assert logs[..i] == logs;
    db.logs := kept;
    deletedCount := |logs| - |kept|;
  }

  /** The scheduled job. The repository is a plain field: a null field makes
      the call throw, the exception is caught and logged, and nothing is
      deleted. The result is the deleted count, or None when the call threw. */
  class LogCleanupService {
    var postureLogRepository: Database?

    /** The constructor Lombok's @RequiredArgsConstructor generates: it takes
        only final fields, and the repository field is not one, so it stays null. */
    constructor ()
      ensures postureLogRepository == null
    {
      postureLogRepository := null;
    }

    /** The intended wiring: the repository as a final, injected field. */
    constructor Injected(repository: Database)
      ensures postureLogRepository == repository
    {
      postureLogRepository := repository;
    }

    method CleanupOldLogs(now: int) returns (deletedCount: Option<int>)
      requires postureLogRepository != null ==> postureLogRepository.Valid()
      modifies postureLogRepository
      ensures postureLogRepository == old(postureLogRepository)
      ensures postureLogRepository == null ==> deletedCount == None
      ensures postureLogRepository != null ==>
        && postureLogRepository.Valid()
        && postureLogRepository.users == old(postureLogRepository.users)
        && postureLogRepository.sessions == old(postureLogRepository.sessions)
        && postureLogRepository.stats == old(postureLogRepository.stats)
        && postureLogRepository.logs == Kept(old(postureLogRepository.logs), RetentionLimit(now))
        && deletedCount == Some(|old(postureLogRepository.logs)| - |postureLogRepository.logs|)
    {
      var retentionLimit := RetentionLimit(now);
      if postureLogRepository == null {
        // NullPointerException, caught and logged
        return None;
      }
      var n := DeleteByTimestampBefore(postureLogRepository, retentionLimit);
      return Some(n);
    }
  }

  /** As written, the job deletes nothing, however old the entries are. */
  method CleanupAsWrittenDeletesNothing(db: Database, now: int) returns (deletedCount: Option<int>)
    requires db.Valid()
    modifies db
    ensures deletedCount == None
    ensures db.logs == old(db.logs)
    ensures unchanged(db) && db.Valid()
  {
    var service := new LogCleanupService();
    deletedCount := service.CleanupOldLogs(now);
  }

  /** With the repository injected, the job leaves no entry older than the
      retention limit and keeps every other one. */
  method CleanupInjected(db: Database, now: int) returns (deletedCount: Option<int>)
    requires db.Valid()
    modifies db
    ensures db.Valid()
    ensures db.logs == Kept(old(db.logs), RetentionLimit(now))
    ensures deletedCount == Some(|old(db.logs)| - |db.logs|)
  {
    var service := new LogCleanupService.Injected(db);
    deletedCount := service.CleanupOldLogs(now);
  }

  /** A stale entry in the store survives the job as written, and the
      injected job then removes it. `survived` reports whether the entry was
      still in the store after the first run. */
  method StaleEntryOutlivesCleanup(db: Database, now: int, stale: PostureLog) returns (survived: bool)
    requires db.Valid()
    requires stale in db.logs && stale.timestamp < RetentionLimit(now)
    modifies db
    ensures survived
    ensures stale !in db.logs
  {
    var first := CleanupAsWrittenDeletesNothing(db, now);
    survived := stale in db.logs;
    ghost var logs := db.logs;
    var second := CleanupInjected(db, now);
    KeptMembers(logs, RetentionLimit(now), stale);
  }
}
