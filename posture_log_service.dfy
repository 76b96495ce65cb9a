/** The ingestion of one analysed frame: the tags are persisted as a warning
    log only when one of them is a warning, and are always forwarded to the
    live counter cache of the session's owner. */
module PostureLogService {
  import opened Wrappers
  import opened Text
  import opened Session
  import opened Store
  import opened RealtimeFeedback
  import StringListConverter

  /** One request from the analyser: the session, its tags and their instant. */
  datatype LogRequest = LogRequest(sessionId: int, postureStates: seq<string>, timestamp: int)

  /** findById: the position of the session with this id, whoever owns it. */
  function FindById(vs: seq<SessionView>, sessionId: int): (r: Option<nat>)
    ensures r.Some? ==> r.value < |vs| && vs[r.value].id == sessionId
    ensures r.None? ==> forall i :: 0 <= i < |vs| ==> vs[i].id != sessionId
  {
    if vs == [] then None
    else if vs[|vs| - 1].id == sessionId then Some(|vs| - 1)
    else FindById(vs[..|vs| - 1], sessionId)
  }

  /** anyMatch: some tag is neither GOOD nor UNKNOWN, ignoring case. */
  predicate HasWarning(tags: seq<string>) {
    exists i :: 0 <= i < |tags| && IsWarning(tags[i])
  }

  /** A tick is persisted exactly when the cache counts a warning for it. */
  lemma {:induction false} HasWarningIffCounted(tags: seq<string>)
    ensures HasWarning(tags) <==> WarningTagCount(tags) > 0
    decreases |tags|
  {
    if tags != [] {
      var n := |tags| - 1;
      var init := tags[..n];
      HasWarningIffCounted(init);
      if HasWarning(tags) && !IsWarning(tags[n]) {
        var i :| 0 <= i < |tags| && IsWarning(tags[i]);
        assert i < n && init[i] == tags[i];
      }
      if HasWarning(init) {
        var i :| 0 <= i < |init| && IsWarning(init[i]);
        assert tags[i] == init[i];
      }
    }
  }

  /** The log entries a request appends: one entry under the owner, or none. */
  function Appended(owner: int, req: LogRequest): seq<PostureLog> {
    if HasWarning(req.postureStates)
    then [LogFrom(owner, req.sessionId, req.timestamp, req.postureStates)]
    else []
  }

  /** A persisted entry reads back the request's tags when every tag is
      non-empty, trimmed and comma-free. */
  lemma AppendedReadsBack(owner: int, req: LogRequest)
    requires HasWarning(req.postureStates)
    requires StringListConverter.AllWellFormed(req.postureStates)
    ensures |Appended(owner, req)| == 1
    ensures var l := Appended(owner, req)[0];
      && l.userId == owner && l.sessionId == req.sessionId && l.timestamp == req.timestamp
      && PostureStates(l) == req.postureStates
  {
  }

  /** A tick of GOOD and UNKNOWN tags only, in any case, appends nothing. */
  lemma GoodOnlyTickNotPersisted(owner: int, req: LogRequest)
    requires forall i :: 0 <= i < |req.postureStates| ==> IsGood(req.postureStates[i]) || IsUnknown(req.postureStates[i])
    ensures Appended(owner, req) == []
  {
  }

  /** processAndSaveLog: an unknown session is an IllegalArgumentException
      with nothing written. Otherwise the session owner's id (not the
      caller's) keys both writes: the conditional append, then the cache
      update with every tag of the request. */
  method ProcessAndSaveLog(db: Database, cache: RedisCache, req: LogRequest, now: string) returns (o: Outcome)
    requires db.Valid()
    modifies db, cache
    ensures db.Valid()
    ensures db.users == old(db.users) && db.sessions == old(db.sessions) && db.stats == old(db.stats)
    ensures var found := FindById(old(db.SessionViews()), req.sessionId);
      && (found.None? ==>
            && o == Fail(ILLEGAL_ARGUMENT) && db.logs == old(db.logs)
            && cache.hashes == old(cache.hashes) && cache.ttl == old(cache.ttl))
      && (found.Some? ==>
            var owner := old(db.SessionViews())[found.value].userId;
            var update := CacheUpdate(old(cache.HashOf(owner)), req.postureStates, now);
            && o == Pass
            && db.logs == old(db.logs) + Appended(owner, req)
            && cache.HashOf(owner) == update.hash
            && cache.hashes - {owner} == old(cache.hashes) - {owner}
            && cache.ttl == if update.completed then old(cache.ttl)[owner := CACHE_EXPIRATION_SECONDS] else old(cache.ttl))
  {
    var found := FindById(db.SessionViews(), req.sessionId);
    if found.None? {
      return Fail(ILLEGAL_ARGUMENT);
    }
    var session := db.sessions[found.value];
    var safeUserId := session.userId;
    if HasWarning(req.postureStates) {
      var newLog := LogFrom(safeUserId, req.sessionId, req.timestamp, req.postureStates);
      db.logs := db.logs + [newLog];
    }
    UpdatePostureCache(cache, safeUserId, req.postureStates, now);
    return Pass;
  }
}
