/** The submission store and its judge bookkeeping
    (backend/app/services/submission_service.py). A submission belongs to an assignment,
    which binds a task to a student; correctness is a stored flag that the evaluation
    sets from a whitespace- and case-insensitive comparison with the task's answer. */
module SubmissionService {
  import opened Wrappers
  import opened Values
  import opened TaskModel
  import opened Store
  import Text

  const SubmissionFieldsRequired := "assignment_id, submitted_query, and time_taken are required"
  const SubmissionNotFound := "Submission not found"
  const TaskNotFoundForSubmission := "Task not found for the submission"

  /** The validation create_submission makes before it builds the row: a truthy assignment
      id and query, and a `time_taken` that is not None. */
  predicate SubmissionAccepted(data: Dict)
  {
    Filled(data, "assignment_id") && Filled(data, "submitted_query") && Get(data, "time_taken") != VNull
  }

  function TimeValue(t: Option<int>): Value
  {
    if t.Some? then VInt(t.value) else VNull
  }

  /** The dict create_submission returns. */
  function CreatedView(id: int, s: Submission): Dict
  {
    map[
      "submission_id" := VInt(id),
      "assignment_id" := VInt(s.assignmentId),
      "submitted_query" := VStr(s.query),
      "is_correct" := VBool(s.isCorrect),
      "time_taken" := TimeValue(s.timeTaken),
      "submitted_at" := VStr(s.submittedAt)
    ]
  }

  /** The dict list_submissions and get_submission_by_id return: no `time_taken`. */
  function SubmissionView(id: int, s: Submission): (d: Dict)
    ensures "time_taken" !in d
    ensures d == CreatedView(id, s) - {"time_taken"}
  {
    map[
      "submission_id" := VInt(id),
      "assignment_id" := VInt(s.assignmentId),
      "submitted_query" := VStr(s.query),
      "is_correct" := VBool(s.isCorrect),
      "submitted_at" := VStr(s.submittedAt)
    ]
  }

  /** The row the insert commits, when every column accepts its value: the assignment id
      (an integer or a text the engine casts) must name an assignment and `time_taken` be
      a number. It is stored as not yet correct. */
  function NewSubmission(db: Database, data: Dict, now: string): (r: Option<Submission>)
    ensures r.Some? ==> !r.value.isCorrect && r.value.timeTaken.Some?
    ensures r.Some? ==> r.value.assignmentId in db.assignments
    ensures r.Some? ==> AsKey(Get(data, "assignment_id")) == Some(r.value.assignmentId)
    ensures r.Some? ==> TimeValue(r.value.timeTaken) == Get(data, "time_taken")
  {
    var aid := Get(data, "assignment_id");
    var query := Get(data, "submitted_query");
    var time := Get(data, "time_taken");
    if AsKey(aid).Some? && AsKey(aid).value in db.assignments && query.VStr? && time.VInt?
    then Some(Submission(AsKey(aid).value, query.s, false, Some(time.i), now))
    else None
  }

  /** create_submission: the three-field check, then an insert with `is_correct` False,
      whatever the payload says about correctness. */
  method CreateSubmission(db: Database, data: Dict, now: string) returns (r: Result<Dict>)
    requires db.Valid()
    modifies db`submissions, db`nextSubmissionId
    ensures db.Valid()
    ensures !SubmissionAccepted(data) ==> r == Failure(ValueError(SubmissionFieldsRequired))
    ensures r.Success? <==> SubmissionAccepted(data) && NewSubmission(db, data, now).Some?
    ensures r.Failure? ==> db.submissions == old(db.submissions) && db.nextSubmissionId == old(db.nextSubmissionId)
    ensures r.Success? ==>
              var id := old(db.nextSubmissionId);
              var s := NewSubmission(db, data, now).value;
              && id !in old(db.submissions)
              && db.submissions == old(db.submissions)[id := s]
              && db.nextSubmissionId == id + 1
              && r.value == CreatedView(id, s)
  {
    if !SubmissionAccepted(data) {
      return Failure(ValueError(SubmissionFieldsRequired));
    }
    var s := NewSubmission(db, data, now);
    if s.None? {
      return Failure(EngineError);
    }
    var id := db.nextSubmissionId;
    db.submissions := db.submissions[id := s.value];
    db.nextSubmissionId := id + 1;
    r := Success(CreatedView(id, s.value));
  }

  /** A submission whose verdict is already known, stored with the time only when it is
      correct: what the submit endpoint means to record (see the submit route). */
  method SaveSubmission(db: Database, assignmentId: int, query: string, timeTaken: Option<int>, now: string)
    returns (r: Result<Dict>)
    requires db.Valid()
    modifies db`submissions, db`nextSubmissionId
    ensures db.Valid()
    ensures r.Success? <==> assignmentId in db.assignments
    ensures r.Failure? ==> db.submissions == old(db.submissions) && db.nextSubmissionId == old(db.nextSubmissionId)
    ensures r.Success? ==>
              var id := old(db.nextSubmissionId);
              var s := Submission(assignmentId, query, false, timeTaken, now);
              && id !in old(db.submissions)
              && db.submissions == old(db.submissions)[id := s]
              && db.nextSubmissionId == id + 1
              && r.value == CreatedView(id, s)
  {
    if assignmentId !in db.assignments {
      return Failure(EngineError);
    }
    var s := Submission(assignmentId, query, false, timeTaken, now);
    var id := db.nextSubmissionId;
    db.submissions := db.submissions[id := s];
    db.nextSubmissionId := id + 1;
    r := Success(CreatedView(id, s));
  }

  /** `Submission.assignment.has(task_id=..., student_id=...)`. */
  predicate AssignmentMatches(assignments: map<int, Assignment>, s: Submission, taskId: Option<int>, studentId: Option<int>)
  {
    && (taskId.Some? ==> s.assignmentId in assignments && assignments[s.assignmentId].taskId == taskId.value)
    && (studentId.Some? ==> s.assignmentId in assignments && assignments[s.assignmentId].studentId == studentId.value)
  }

  function SubmissionViews(subs: map<int, Submission>, ids: seq<int>): (r: seq<Dict>)
    requires forall i :: 0 <= i < |ids| ==> ids[i] in subs
    ensures |r| == |ids|
    ensures forall i :: 0 <= i < |ids| ==> r[i] == SubmissionView(ids[i], subs[ids[i]])
  {
    seq(|ids|, i requires 0 <= i < |ids| => SubmissionView(ids[i], subs[ids[i]]))
  }

  /** The ids of the submissions whose assignment matches, in primary-key order. */
  function MatchingSubmissionIds(db: Database, taskId: Option<int>, studentId: Option<int>): (ids: seq<int>)
    reads db
    requires db.Valid()
    ensures forall id :: id in ids <==>
              id in db.submissions && AssignmentMatches(db.assignments, db.submissions[id], taskId, studentId)
    ensures forall i :: 0 <= i < |ids| ==> ids[i] in db.submissions
    ensures Increasing(ids)
  {
    var m := db.submissions;
    var a := db.assignments;
    FilterIds(KeysBelow(m, db.nextSubmissionId), id => id in m && AssignmentMatches(a, m[id], taskId, studentId))
  }

  /** list_submissions: the submissions whose assignment matches the given task and
      student, in primary-key order, each without its time. */
  function ListSubmissions(db: Database, taskId: Value, studentId: Value): (r: Result<seq<Dict>>)
    reads db
    requires db.Valid()
    ensures r.Failure? <==> IdFilter(taskId).Failure? || IdFilter(studentId).Failure?
    ensures r.Success? ==>
              var ids := MatchingSubmissionIds(db, IdFilter(taskId).value, IdFilter(studentId).value);
              (forall id :: id in ids ==> id in db.submissions) && r.value == SubmissionViews(db.submissions, ids)
    ensures r.Success? ==> forall i :: 0 <= i < |r.value| ==> "time_taken" !in r.value[i]
  {
    var t, st := IdFilter(taskId), IdFilter(studentId);
    if t.Failure? then Failure(t.error)
    else if st.Failure? then Failure(st.error)
    else
      var ids := MatchingSubmissionIds(db, t.value, st.value);
      assert forall i :: 0 <= i < |ids| ==> ids[i] in ids;
      Success(SubmissionViews(db.submissions, ids))
  }

  /** get_submission_by_id. */
  function GetSubmissionById(db: Database, submissionId: int): (r: Result<Dict>)
    reads db
    ensures r.Failure? <==> submissionId !in db.submissions
    ensures r.Failure? ==> r.error == ValueError(SubmissionNotFound)
    ensures r.Success? ==> "time_taken" !in r.value
    ensures r.Success? ==> r.value == SubmissionView(submissionId, db.submissions[submissionId])
  {
    if submissionId in db.submissions then Success(SubmissionView(submissionId, db.submissions[submissionId]))
    else Failure(ValueError(SubmissionNotFound))
  }

  /** `query.strip().lower() == answer.strip().lower()`. */
  predicate Matching(query: string, answer: string)
  {
    Text.Normalize(query) == Text.Normalize(answer)
  }

  /** The verdict does not change when a query is replaced by its own normalised form:
      surrounding whitespace and letter case never decide it. */
  lemma MatchingIgnoresLayout(query: string, answer: string)
    ensures Matching(Text.Normalize(query), answer) <==> Matching(query, answer)
    ensures Matching(query, Text.Normalize(answer)) <==> Matching(query, answer)
  {
    Text.NormalizeIdempotent(query);
    Text.NormalizeIdempotent(answer);
  }

  /** The submissions after judging `submissionId` against `answer`. */
  function Judged(subs: map<int, Submission>, submissionId: int, answer: string): (r: map<int, Submission>)
    requires submissionId in subs
    ensures r.Keys == subs.Keys
    ensures r[submissionId].isCorrect <==> Matching(subs[submissionId].query, answer)
    ensures r[submissionId] == subs[submissionId].(isCorrect := r[submissionId].isCorrect)
    ensures forall id :: id in subs && id != submissionId ==> r[id] == subs[id]
  {
    subs[submissionId := subs[submissionId].(isCorrect := Matching(subs[submissionId].query, answer))]
  }

  /** Judging twice is judging once: the second run compares the same texts. */
  lemma JudgeIdempotent(subs: map<int, Submission>, submissionId: int, answer: string)
    requires submissionId in subs
    ensures Judged(Judged(subs, submissionId, answer), submissionId, answer) == Judged(subs, submissionId, answer)
  {
  }

  /** evaluate_submission: the submission, then its assignment (a missing one is an
      attribute access on None), then its task; the flag becomes the verdict. */
  method EvaluateSubmission(db: Database, submissionId: int) returns (r: Result<bool>)
    requires db.Valid()
    modifies db`submissions
    ensures db.Valid()
    ensures submissionId !in old(db.submissions) ==> r == Failure(ValueError(SubmissionNotFound))
    ensures submissionId in old(db.submissions) && old(db.submissions)[submissionId].assignmentId !in db.assignments ==>
              r == Failure(AttributeError)
    ensures submissionId in old(db.submissions) ==>
              var aid := old(db.submissions)[submissionId].assignmentId;
              aid in db.assignments && db.assignments[aid].taskId !in db.tasks ==>
                r == Failure(ValueError(TaskNotFoundForSubmission))
    ensures r.Failure? ==> db.submissions == old(db.submissions)
    ensures r.Success? <==>
              && submissionId in old(db.submissions)
              && old(db.submissions)[submissionId].assignmentId in db.assignments
              && db.assignments[old(db.submissions)[submissionId].assignmentId].taskId in db.tasks
    ensures r.Success? ==>
              var answer := db.tasks[db.assignments[old(db.submissions)[submissionId].assignmentId].taskId].correctAnswer;
              && db.submissions == Judged(old(db.submissions), submissionId, answer)
              && (r.value <==> Matching(old(db.submissions)[submissionId].query, answer))
  {
    if submissionId !in db.submissions {
      return Failure(ValueError(SubmissionNotFound));
    }
    var s := db.submissions[submissionId];
    if s.assignmentId !in db.assignments {
      return Failure(AttributeError);
    }
    var taskId := db.assignments[s.assignmentId].taskId;
    if taskId !in db.tasks {
      return Failure(ValueError(TaskNotFoundForSubmission));
    }
    var answer := db.tasks[taskId].correctAnswer;
    db.submissions := Judged(db.submissions, submissionId, answer);
    r := Success(db.submissions[submissionId].isCorrect);
  }

  /** update_submission_correctness changes the flag of one submission and nothing else. */
  method UpdateSubmissionCorrectness(db: Database, submissionId: int, isCorrect: bool) returns (r: Result<()>)
    requires db.Valid()
    modifies db`submissions
    ensures db.Valid()
    ensures r.Failure? <==> submissionId !in old(db.submissions)
    ensures r.Failure? ==> r.error == ValueError(SubmissionNotFound) && db.submissions == old(db.submissions)
    ensures r.Success? ==>
              db.submissions == old(db.submissions)[submissionId := old(db.submissions)[submissionId].(isCorrect := isCorrect)]
  {
    if submissionId !in db.submissions {
      return Failure(ValueError(SubmissionNotFound));
    }
    db.submissions := db.submissions[submissionId := db.submissions[submissionId].(isCorrect := isCorrect)];
    r := Success(());
  }

  /** Adding a key a dict lacks and removing it again gives the dict back. */
  lemma RemoveAdded(d: Dict, key: string, v: Value)
    requires key !in d
    ensures d[key := v] - {key} == d
  {
    assert (d[key := v] - {key}).Keys == d.Keys;
  }

  /** submission_service.get_task_by_id: the task's full dict plus its schema's name
      (None when the task has no schema row), or None for an unknown task. */
  function GetTaskWithSchema(tasks: map<int, Task>, schemas: map<int, SchemaRow>, taskId: int): (r: Option<Dict>)
    ensures r.None? <==> taskId !in tasks
    ensures r.Some? ==> "schema_name" in r.value && "correct_answer" in r.value
    ensures r.Some? ==>
              r.value["schema_name"] == (if tasks[taskId].schemaId in schemas
                                         then VStr(schemas[tasks[taskId].schemaId].name) else VNull)
    ensures r.Some? ==> r.value - {"schema_name"} == ToDict(taskId, tasks[taskId], false)
  {
    if taskId !in tasks then None
    else
      var t := tasks[taskId];
      var name := if t.schemaId in schemas then VStr(schemas[t.schemaId].name) else VNull;
      var d := ToDict(taskId, t, false);
      SchemaNameIsNew();
      RemoveAdded(d, "schema_name", name);
      Some(d["schema_name" := name])
  }
}
