/** The session store (backend/app/services/session_service.py): the class meetings of a
    course, created, changed and removed only by the professor who owns the course. */
module SessionService {
  import opened Wrappers
  import opened Values
  import opened Store
  import TaskService

  const SessionFieldsRequired := "course_id, session_name, and session_date are required"
  const NotCourseOwner := "Unauthorized - You do not own this course"
  const CourseIdRequired := "course_id is required"
  const SessionNotFound := "Session not found"

  /** The dict every session operation returns. */
  function SessionView(id: int, s: SessionRow): Dict
  {
    map[
      "session_id" := VInt(id),
      "course_id" := VInt(s.courseId),
      "session_name" := VStr(s.name),
      "session_date" := VStr(s.date)
    ]
  }

  predicate SessionAccepted(data: Dict)
  {
    Filled(data, "course_id") && Filled(data, "session_name") && Filled(data, "session_date")
  }

  /** create_session: the three-field check, then the ownership check, then the insert.
      The course id may be an integer or a text the engine casts; one it cannot compare
      makes the query raise. The returned dict echoes the payload's own values, the
      course id as it was sent. */
  method CreateSession(db: Database, data: Dict, professorId: int) returns (r: Result<Dict>)
    requires db.Valid()
    modifies db`sessions, db`nextSessionId
    ensures db.Valid()
    ensures !SessionAccepted(data) ==> r == Failure(ValueError(SessionFieldsRequired))
    ensures SessionAccepted(data) && AsKey(data["course_id"]).None? ==> r == Failure(EngineError)
    ensures && SessionAccepted(data) && AsKey(data["course_id"]).Some?
            && !TaskService.ProfessorOwnsCourse(db, professorId, data["course_id"])
            ==> r == Failure(ValueError(NotCourseOwner))
    ensures r.Success? <==>
              && SessionAccepted(data)
              && TaskService.ProfessorOwnsCourse(db, professorId, data["course_id"])
              && data["session_name"].VStr? && data["session_date"].VStr?
    ensures r.Failure? ==> db.sessions == old(db.sessions) && db.nextSessionId == old(db.nextSessionId)
    ensures r.Success? ==>
              var id := old(db.nextSessionId);
              var s := SessionRow(AsKey(data["course_id"]).value, data["session_name"].s, data["session_date"].s);
              && id !in old(db.sessions)
              && db.sessions == old(db.sessions)[id := s]
              && db.nextSessionId == id + 1
              && (data["course_id"].VInt? ==> r.value == SessionView(id, s))
              && r.value == map["session_id" := VInt(id), "course_id" := data["course_id"],
                                "session_name" := data["session_name"], "session_date" := data["session_date"]]
  {
    if !SessionAccepted(data) {
      return Failure(ValueError(SessionFieldsRequired));
    }
    var courseId := AsKey(data["course_id"]);
    if courseId.None? {
      // The filter cannot compare the integer key with this value.
      return Failure(EngineError);
    }
    if !TaskService.ProfessorOwnsCourse(db, professorId, data["course_id"]) {
      return Failure(ValueError(NotCourseOwner));
    }
    var name, date := data["session_name"], data["session_date"];
    if !(name.VStr? && date.VStr?) {
      return Failure(EngineError);
    }
    var s := SessionRow(courseId.value, name.s, date.s);
    var id := db.nextSessionId;
    db.sessions := db.sessions[id := s];
    db.nextSessionId := id + 1;
    r := Success(map["session_id" := VInt(id), "course_id" := data["course_id"],
                     "session_name" := name, "session_date" := date]);
  }

  /** The ids of the sessions of one course, in primary-key order. */
  function CourseSessionIds(db: Database, courseId: int): (ids: seq<int>)
    reads db
    requires db.Valid()
    ensures forall id :: id in ids <==> id in db.sessions && db.sessions[id].courseId == courseId
    ensures forall i :: 0 <= i < |ids| ==> ids[i] in db.sessions
    ensures Increasing(ids)
  {
    var m := db.sessions;
    FilterIds(KeysBelow(m, db.nextSessionId), id => id in m && m[id].courseId == courseId)
  }

  function SessionViews(sessions: map<int, SessionRow>, ids: seq<int>): (r: seq<Dict>)
    requires forall i :: 0 <= i < |ids| ==> ids[i] in sessions
    ensures |r| == |ids|
    ensures forall i :: 0 <= i < |ids| ==> r[i] == SessionView(ids[i], sessions[ids[i]])
  {
    seq(|ids|, i requires 0 <= i < |ids| => SessionView(ids[i], sessions[ids[i]]))
  }

  /** get_sessions: all sessions of the course, the same for every caller and role. */
  function GetSessions(db: Database, courseId: Value, userId: int, role: Role): (r: Result<seq<Dict>>)
    reads db
    requires db.Valid()
    ensures !Truthy(courseId) ==> r == Failure(ValueError(CourseIdRequired))
    ensures Truthy(courseId) ==> (r.Success? <==> IdFilter(courseId).Success?)
    ensures r.Success? ==>
              && IdFilter(courseId).Success? && IdFilter(courseId).value.Some?
              && var ids := CourseSessionIds(db, IdFilter(courseId).value.value);
                 (forall id :: id in ids ==> id in db.sessions) && r.value == SessionViews(db.sessions, ids)
  {
    if !Truthy(courseId) then Failure(ValueError(CourseIdRequired))
    else
      var filter := IdFilter(courseId);
      if filter.Failure? then Failure(filter.error)
      else if filter.value.None? then Failure(ValueError(CourseIdRequired))
      else
        var ids := CourseSessionIds(db, filter.value.value);
        assert forall i :: 0 <= i < |ids| ==> ids[i] in ids;
        Success(SessionViews(db.sessions, ids))
  }

  /** update_session's assignments: name and date each take the payload's value when its
      key is present. None when a supplied value is not text. */
  function ApplySessionUpdate(s: SessionRow, data: Dict): (r: Option<SessionRow>)
    ensures r.Some? ==> r.value.courseId == s.courseId
    ensures r.Some? ==> ("session_name" in data ==> VStr(r.value.name) == data["session_name"])
                        && ("session_name" !in data ==> r.value.name == s.name)
    ensures r.Some? ==> ("session_date" in data ==> VStr(r.value.date) == data["session_date"])
                        && ("session_date" !in data ==> r.value.date == s.date)
    ensures r.None? <==> ("session_name" in data && !data["session_name"].VStr?)
                         || ("session_date" in data && !data["session_date"].VStr?)
  {
    var name := if "session_name" in data then data["session_name"] else VStr(s.name);
    var date := if "session_date" in data then data["session_date"] else VStr(s.date);
    if name.VStr? && date.VStr? then Some(s.(name := name.s, date := date.s)) else None
  }

  /** An update that supplies neither key changes nothing; one applied twice is applied once. */
  lemma SessionUpdateLaws(s: SessionRow, data: Dict)
    ensures "session_name" !in data && "session_date" !in data ==> ApplySessionUpdate(s, data) == Some(s)
    ensures ApplySessionUpdate(s, data).Some? ==>
              ApplySessionUpdate(ApplySessionUpdate(s, data).value, data) == ApplySessionUpdate(s, data)
  {
  }

  /** Whether `professorId` owns the course of an existing session; None when the course
      row is gone (`existing_session.course` is None, an AttributeError). */
  function OwnsSessionCourse(db: Database, s: SessionRow, professorId: int): Option<bool>
  {
    if s.courseId in db.courses then Some(db.courses[s.courseId].professorId == professorId) else None
  }

  /** update_session: "Session not found", then the ownership check, then the partial
      update of name and date. */
  method UpdateSession(db: Database, sessionId: int, data: Dict, professorId: int) returns (r: Result<Dict>)
    requires db.Valid()
    modifies db`sessions
    ensures db.Valid()
    ensures sessionId !in old(db.sessions) ==> r == Failure(ValueError(SessionNotFound))
    ensures sessionId in old(db.sessions) && OwnsSessionCourse(db, old(db.sessions)[sessionId], professorId) == Some(false) ==>
              r == Failure(ValueError(NotCourseOwner))
    ensures r.Failure? ==> db.sessions == old(db.sessions)
    ensures r.Success? <==>
              && sessionId in old(db.sessions)
              && OwnsSessionCourse(db, old(db.sessions)[sessionId], professorId) == Some(true)
              && ApplySessionUpdate(old(db.sessions)[sessionId], data).Some?
    ensures r.Success? ==>
              var u := ApplySessionUpdate(old(db.sessions)[sessionId], data).value;
              db.sessions == old(db.sessions)[sessionId := u] && r.value == SessionView(sessionId, u)
  {
    if sessionId !in db.sessions {
      return Failure(ValueError(SessionNotFound));
    }
    var owns := OwnsSessionCourse(db, db.sessions[sessionId], professorId);
    if owns.None? {
      return Failure(AttributeError);
    }
    if !owns.value {
      return Failure(ValueError(NotCourseOwner));
    }
    var u := ApplySessionUpdate(db.sessions[sessionId], data);
    if u.None? {
      return Failure(EngineError);
    }
    db.sessions := db.sessions[sessionId := u.value];
    r := Success(SessionView(sessionId, u.value));
  }

  /** A task still refers to the session: its NOT NULL `session_id` cannot be cleared, so
      the delete is refused. */
  predicate SessionInUse(db: Database, sessionId: int)
    reads db
  {
    exists id :: id in db.tasks && db.tasks[id].sessionId == sessionId
  }

  /** delete_session: "Session not found", then the ownership check; otherwise exactly
      that session is removed. */
  method DeleteSession(db: Database, sessionId: int, professorId: int) returns (r: Result<()>)
    requires db.Valid()
    modifies db`sessions
    ensures db.Valid()
    ensures sessionId !in old(db.sessions) ==> r == Failure(ValueError(SessionNotFound))
    ensures sessionId in old(db.sessions) && OwnsSessionCourse(db, old(db.sessions)[sessionId], professorId) == Some(false) ==>
              r == Failure(ValueError(NotCourseOwner))
    ensures r.Failure? ==> db.sessions == old(db.sessions)
    ensures r.Success? <==>
              && sessionId in old(db.sessions)
              && OwnsSessionCourse(db, old(db.sessions)[sessionId], professorId) == Some(true)
              && !SessionInUse(db, sessionId)
    ensures r.Success? ==> db.sessions == old(db.sessions) - {sessionId}
  {
    if sessionId !in db.sessions {
      return Failure(ValueError(SessionNotFound));
    }
    var owns := OwnsSessionCourse(db, db.sessions[sessionId], professorId);
    if owns.None? {
      return Failure(AttributeError);
    }
    if !owns.value {
      return Failure(ValueError(NotCourseOwner));
    }
    if SessionInUse(db, sessionId) {
      return Failure(EngineError);
    }
    db.sessions := db.sessions - {sessionId};
    r := Success(());
  }

  /** get_session_by_id: None for an unknown id. */
  function GetSessionById(db: Database, sessionId: int): (r: Option<Dict>)
    reads db
    ensures r.None? <==> sessionId !in db.sessions
    ensures r.Some? ==> r.value == SessionView(sessionId, db.sessions[sessionId])
  {
    if sessionId in db.sessions then Some(SessionView(sessionId, db.sessions[sessionId])) else None
  }
}
