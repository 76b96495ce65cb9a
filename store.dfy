/** The relational store: users, monitoring sessions, warning logs and daily
    aggregate rows, as the backend's repositories see them. */
module Store {
  import opened Session
  import StringListConverter

  /** A persisted warning tick. The tags are kept as the text column the
      converter writes; reading the entity decodes that column. */
  datatype PostureLog = PostureLog(userId: int, sessionId: int, timestamp: int, postureStatesColumn: string)

  /** The tags an entity read from the table carries. */
  function PostureStates(l: PostureLog): seq<string> {
    StringListConverter.Decode(l.postureStatesColumn)
  }

  /** PostureLog.from: the request's tags and timestamp plus the session and its owner. */
  function LogFrom(userId: int, sessionId: int, timestamp: int, tags: seq<string>): (l: PostureLog)
    ensures StringListConverter.AllWellFormed(tags) ==> PostureStates(l) == tags
  {
    var l := PostureLog(userId, sessionId, timestamp, StringListConverter.Encode(tags));
    assert StringListConverter.AllWellFormed(tags) ==> PostureStates(l) == tags by {
      if StringListConverter.AllWellFormed(tags) {
        StringListConverter.DecodeEncode(tags);
      }
    }
    l
  }

  /** One daily aggregate row. Ratios are in hundredths of a percent. */
  datatype AggregateStat = AggregateStat(
    userId: int,
    statDate: int,
    correctRatio: int,
    totalWarningCount: int,
    totalAnalysisSeconds: int,
    goalAchieved: bool,
    consecutiveAchievedDays: int,
    forwardHeadCount: int,
    unequalShouldersCount: int,
    upperBodyTiltCount: int,
    tooCloseCount: int,
    asymmetricPostureCount: int,
    headTiltCount: int,
    leaningOnArmCount: int)

  /** The seven per-issue keys of a daily row, in the order the rows list them. */
  const POSTURE_KEYS: seq<string> :=
    ["FORWARD_HEAD", "UNEQUAL_SHOULDERS", "UPPER_BODY_TILT", "TOO_CLOSE",
     "ASYMMETRIC_POSTURE", "HEAD_TILT", "LEANING_ON_ARM"]

  /** The per-issue count a row holds for one of the seven keys. */
  function IssueCount(s: AggregateStat, key: string): int {
    if key == "FORWARD_HEAD" then s.forwardHeadCount
    else if key == "UNEQUAL_SHOULDERS" then s.unequalShouldersCount
    else if key == "UPPER_BODY_TILT" then s.upperBodyTiltCount
    else if key == "TOO_CLOSE" then s.tooCloseCount
    else if key == "ASYMMETRIC_POSTURE" then s.asymmetricPostureCount
    else if key == "HEAD_TILT" then s.headTiltCount
    else if key == "LEANING_ON_ARM" then s.leaningOnArmCount
    else 0
  }

  /** At most one row per (user, date). */
  predicate UniqueKeys(stats: seq<AggregateStat>) {
    forall i, j :: 0 <= i < j < |stats| ==>
      !(stats[i].userId == stats[j].userId && stats[i].statDate == stats[j].statDate)
  }

  class Database {
    /** findAll() order of the user table. */
    var users: seq<int>
    /** Row i holds the session with id i + 1 (identity ids, sessions are never deleted). */
    var sessions: seq<MonitoringSession>
    var logs: seq<PostureLog>
    var stats: seq<AggregateStat>

    ghost predicate Valid()
      reads this, sessions
    {
      && (forall i :: 0 <= i < |sessions| ==> sessions[i].id == i + 1)
      && UniqueKeys(stats)
    }

    function SessionViews(): (vs: seq<SessionView>)
      reads this`sessions, sessions
      ensures |vs| == |sessions|
      ensures forall i :: 0 <= i < |sessions| ==> vs[i] == sessions[i].View()
    {
      var ss := sessions;
      seq(|ss|, i reads ss requires 0 <= i < |ss| => ss[i].View())
    }

    constructor (users: seq<int>)
      ensures Valid()
      ensures this.users == users && sessions == [] && logs == [] && stats == []
    {
      this.users := users;
      sessions := [];
      logs := [];
      stats := [];
    }
  }
}
