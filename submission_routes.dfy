/** The submission endpoints (backend/app/routes/submissions.py): submitting an answer,
    re-evaluating a stored one, listing and the per-task leaderboard. `validate_query`
    (app/utils/query_executor.py) is not part of this model; it is a parameter of the
    endpoints that call it, an arbitrary function of the submitted query, the correct
    answer and the schema name.

    The module keeps two versions of submit and evaluate. `SubmitAsWritten` and
    `EvaluateAsWritten` follow the route as it stands; `Submit` and `Evaluate` are the
    evidently intended endpoints that the findings in README.md describe. */
module SubmissionRoutes {
  import opened Wrappers
  import opened Values
  import opened TaskModel
  import opened Store
  import opened SubmissionService
  import TaskService

  /** `validation_result`: `{"is_correct": ..., "feedback": ...}`. */
  datatype Validation = Validation(isCorrect: bool, feedback: string)

  /** `validate_query(submitted_query, correct_answer, schema_name)`. */
  type Validator = (Value, Value, Value) -> Validation

  /** The task the shadowed lookup (task_service.get_task_by_id) returns never carries a
      "schema_name" key, so `task["schema_name"]` raises KeyError on every task. */
  lemma ShadowedTaskLacksSchemaName(db: Database, taskId: int)
    requires TaskService.GetTaskById(db, taskId).Success?
    ensures "schema_name" !in TaskService.GetTaskById(db, taskId).value
  {
    SchemaNameIsNew();
  }

  /** POST /submissions as written. The lookup at line 33 resolves to the task service's
      get_task_by_id (the import at line 14 replaces the one at line 12): it raises for an
      unknown id and, for a known one, returns a dict without "schema_name". Every
      exception is answered with 400, so no request passes line 39 and nothing is
      stored. */
  method SubmitAsWritten(db: Database, data: Dict) returns (status: Status, error: Option<string>)
    ensures status == BadRequest
    ensures !SubmissionAccepted(data) <==> error == Some(SubmissionFieldsRequired)
    ensures && SubmissionAccepted(data) && AsKey(data["assignment_id"]).Some?
            && AsKey(data["assignment_id"]).value !in db.tasks
            ==> error == Some(TaskService.TaskNotFound)
  {
    if !SubmissionAccepted(data) {
      return BadRequest, Some(SubmissionFieldsRequired);
    }
    var key := AsKey(data["assignment_id"]);
    if key.None? {
      // The lookup cannot compare the integer key with this value; the handler reports
      // the engine's message, which is not modelled.
      return BadRequest, None;
    }
    var aid := key.value;
    var found := TaskService.GetTaskById(db, aid);
    if found.Failure? {
      // "Task not found" is a ValueError, caught by the handler: 400, not the 404 of line 36.
      return BadRequest, Some(TaskService.TaskNotFound);
    }
    // `task["schema_name"]` raises KeyError, caught by the same handler.
    ShadowedTaskLacksSchemaName(db, aid);
    assert "schema_name" !in found.value;
    return BadRequest, None;
  }

  /** The task a submission is judged against, as the routes look it up: the assignment
      id is passed where a task id is expected (lines 33 and 104). */
  function TaskOfAssignmentAsWritten(tasks: map<int, Task>, schemas: map<int, SchemaRow>, assignmentId: int): (r: Option<Dict>)
    ensures r.Some? <==> assignmentId in tasks
    ensures r.Some? ==> "correct_answer" in r.value && r.value["correct_answer"] == VStr(tasks[assignmentId].correctAnswer)
  {
    var r := GetTaskWithSchema(tasks, schemas, assignmentId);
    if r.Some? then
      assert r.value - {"schema_name"} == ToDict(assignmentId, tasks[assignmentId], false);
      assert "correct_answer" in r.value - {"schema_name"};
      r
    else r
  }

  /** The task of the assignment, as evaluate_submission resolves it through
      `submission.assignment.task_id`. */
  function TaskOfAssignment(tasks: map<int, Task>, schemas: map<int, SchemaRow>, assignments: map<int, Assignment>,
                            assignmentId: int): (r: Option<Dict>)
    ensures r.Some? <==> assignmentId in assignments && assignments[assignmentId].taskId in tasks
    ensures r.Some? ==>
              var taskId := assignments[assignmentId].taskId;
              "correct_answer" in r.value && r.value["correct_answer"] == VStr(tasks[taskId].correctAnswer)
  {
    if assignmentId in assignments then
      var r := GetTaskWithSchema(tasks, schemas, assignments[assignmentId].taskId);
      if r.Some? then
        var taskId := assignments[assignmentId].taskId;
        assert r.value - {"schema_name"} == ToDict(taskId, tasks[taskId], false);
        assert "correct_answer" in r.value - {"schema_name"};
        r
      else r
    else None
  }

  /** Assignment 1 binds task 2 to a student, and task 1 exists too: the route's lookup
      judges the submission against task 1's answer instead of task 2's. */
  lemma AssignmentIdIsNotTaskId()
    ensures var t1 := Task("first", "d", 1, 1, 1, "SELECT 1", Easy, None, Date(2025, 1, 1), "", true);
            var t2 := Task("second", "d", 1, 1, 1, "SELECT 2", Easy, None, Date(2025, 1, 1), "", true);
            var tasks := map[1 := t1, 2 := t2];
            var assignments := map[1 := Assignment(2, 7)];
            && TaskOfAssignmentAsWritten(tasks, map[], 1).Some?
            && TaskOfAssignment(tasks, map[], assignments, 1).Some?
            && TaskOfAssignmentAsWritten(tasks, map[], 1).value["correct_answer"] == VStr("SELECT 1")
            && TaskOfAssignment(tasks, map[], assignments, 1).value["correct_answer"] == VStr("SELECT 2")
  {
    var t1 := Task("first", "d", 1, 1, 1, "SELECT 1", Easy, None, Date(2025, 1, 1), "", true);
    var tasks := map[1 := t1, 2 := Task("second", "d", 1, 1, 1, "SELECT 2", Easy, None, Date(2025, 1, 1), "", true)];
    var d := GetTaskWithSchema(tasks, map[], 1).value;
    assert d - {"schema_name"} == ToDict(1, t1, false);
    assert (d - {"schema_name"})["correct_answer"] == VStr("SELECT 1");
  }

  /** The body create_submission receives at lines 52-57: the time only when correct. */
  function SubmissionPayload(assignmentId: Value, query: Value, timeTaken: Value, isCorrect: bool): (r: Dict)
    ensures Get(r, "is_correct") == VBool(isCorrect)
    ensures isCorrect ==>
              (SubmissionAccepted(r) <==> Truthy(assignmentId) && Truthy(query) && timeTaken != VNull)
  {
    map[
      "assignment_id" := assignmentId,
      "submitted_query" := query,
      "time_taken" := if isCorrect then timeTaken else VNull,
      "is_correct" := VBool(isCorrect)
    ]
  }

  /** create_submission demands a time, so the payload of an incorrect answer is always
      refused: an incorrect submission is never recorded, and the route answers 400. */
  lemma IncorrectVerdictRejected(assignmentId: Value, query: Value, timeTaken: Value)
    ensures !SubmissionAccepted(SubmissionPayload(assignmentId, query, timeTaken, false))
  {
    assert Get(SubmissionPayload(assignmentId, query, timeTaken, false), "time_taken") == VNull;
  }

  /** The task the corrected submit judges against. */
  function SubmitLookup(db: Database, data: Dict): (r: Option<Dict>)
    reads db
    ensures r.Some? <==>
              && AsKey(Get(data, "assignment_id")).Some?
              && var aid := AsKey(Get(data, "assignment_id")).value;
                 aid in db.assignments && db.assignments[aid].taskId in db.tasks
    ensures r.Some? ==>
              var taskId := db.assignments[AsKey(data["assignment_id"]).value].taskId;
              "correct_answer" in r.value && r.value["correct_answer"] == VStr(db.tasks[taskId].correctAnswer)
  {
    var aid := Get(data, "assignment_id");
    if AsKey(aid).Some? then TaskOfAssignment(db.tasks, db.schemas, db.assignments, AsKey(aid).value) else None
  }

  /** POST /submissions as evidently intended: the task is the assignment's, looked up
      with the submission service's get_task_by_id (404 when there is none, 400 when it
      has no schema name, both before validation), and the verdict is recorded with the
      time for a correct answer and without it for an incorrect one. */
  method Submit(db: Database, data: Dict, validate: Validator, now: string)
    returns (status: Status, submission: Option<Dict>, verdict: Option<Validation>)
    requires db.Valid()
    modifies db`submissions, db`nextSubmissionId
    ensures db.Valid()
    ensures status != Ok ==>
              submission == None && db.submissions == old(db.submissions) && db.nextSubmissionId == old(db.nextSubmissionId)
    ensures !SubmissionAccepted(data) ==> status == BadRequest && verdict == None
    ensures SubmissionAccepted(data) && SubmitLookup(db, data).None? ==> status == NotFound && verdict == None
    ensures SubmissionAccepted(data) && SubmitLookup(db, data).Some? && !Truthy(SubmitLookup(db, data).value["schema_name"]) ==>
              status == BadRequest && verdict == None
    ensures && SubmissionAccepted(data) && SubmitLookup(db, data).Some?
            && Truthy(SubmitLookup(db, data).value["schema_name"])
            && data["submitted_query"].VStr? && data["time_taken"].VInt?
            ==> status == Ok
    ensures status == Ok ==> db.nextSubmissionId == old(db.nextSubmissionId) + 1
    ensures status == Ok ==>
              && SubmissionAccepted(data) && SubmitLookup(db, data).Some?
              && data["submitted_query"].VStr? && data["time_taken"].VInt?
              && var task := SubmitLookup(db, data).value;
                 var v := validate(data["submitted_query"], task["correct_answer"], task["schema_name"]);
                 var s := Submission(AsKey(data["assignment_id"]).value, data["submitted_query"].s, false,
                                     if v.isCorrect then Some(data["time_taken"].i) else None, now);
                 && verdict == Some(v)
                 && db.submissions == old(db.submissions)[old(db.nextSubmissionId) := s]
                 && submission == Some(CreatedView(old(db.nextSubmissionId), s))
  {
    if !SubmissionAccepted(data) {
      return BadRequest, None, None;
    }
    var task := SubmitLookup(db, data);
    if task.None? {
      return NotFound, None, None;
    }
    var schemaName := task.value["schema_name"];
    if !Truthy(schemaName) {
      return BadRequest, None, None;
    }
    var query := data["submitted_query"];
    var v := validate(query, task.value["correct_answer"], schemaName);
    var time := data["time_taken"];
    if !(query.VStr? && time.VInt?) {
      // The columns refuse a value of another type.
      return BadRequest, None, Some(v);
    }
    var saved := SaveSubmission(db, AsKey(data["assignment_id"]).value, query.s, if v.isCorrect then Some(time.i) else None, now);
    if saved.Failure? {
      return BadRequest, None, Some(v);
    }
    return Ok, Some(saved.value), Some(v);
  }

  /** POST /submissions/<id>/evaluate as written: an unknown submission raises (400);
      then the shadowed lookup raises or yields a dict without "schema_name" (400). The
      stored flag is never touched. */
  method EvaluateAsWritten(db: Database, submissionId: int) returns (status: Status)
    ensures status == BadRequest
  {
    var found := GetSubmissionById(db, submissionId);
    if found.Failure? {
      return BadRequest;
    }
    var assignmentId := db.submissions[submissionId].assignmentId;
    var task := TaskService.GetTaskById(db, assignmentId);
    if task.Failure? {
      return BadRequest;
    }
    // `task["schema_name"]` raises KeyError.
    ShadowedTaskLacksSchemaName(db, assignmentId);
    return BadRequest;
  }

  /** POST /submissions/<id>/evaluate as evidently intended: the assignment's task is
      looked up (404 when there is none), and only the stored `is_correct` changes, to
      the validator's verdict. An unknown submission is still a 400. */
  method Evaluate(db: Database, submissionId: int, validate: Validator)
    returns (status: Status, verdict: Option<Validation>)
    requires db.Valid()
    modifies db`submissions
    ensures db.Valid()
    ensures submissionId !in old(db.submissions) ==> status == BadRequest
    ensures status != Ok ==> verdict == None && db.submissions == old(db.submissions)
    ensures submissionId in old(db.submissions) ==>
              var s := old(db.submissions)[submissionId];
              var task := TaskOfAssignment(db.tasks, db.schemas, db.assignments, s.assignmentId);
              && (task.None? ==> status == NotFound)
              && (task.Some? ==>
                    var v := validate(VStr(s.query), task.value["correct_answer"], task.value["schema_name"]);
                    && status == Ok && verdict == Some(v)
                    && db.submissions == old(db.submissions)[submissionId := s.(isCorrect := v.isCorrect)])
  {
    var found := GetSubmissionById(db, submissionId);
    if found.Failure? {
      return BadRequest, None;
    }
    var s := db.submissions[submissionId];
    var task := TaskOfAssignment(db.tasks, db.schemas, db.assignments, s.assignmentId);
    if task.None? {
      return NotFound, None;
    }
    var v := validate(found.value["submitted_query"], task.value["correct_answer"], task.value["schema_name"]);
    var r := UpdateSubmissionCorrectness(db, submissionId, v.isCorrect);
    return Ok, Some(v);
  }

  /** GET /submissions: the service's listing, or 400 when a filter argument is one the
      store cannot compare with an id. */
  function ListAll(db: Database, taskArg: Option<string>, studentArg: Option<string>): (r: (Status, seq<Dict>))
    reads db
    requires db.Valid()
    ensures r.0 == Ok || r == (BadRequest, [])
    ensures r.0 == Ok <==> IdFilter(ArgValue(taskArg)).Success? && IdFilter(ArgValue(studentArg)).Success?
    ensures r.0 == Ok ==>
              var ids := MatchingSubmissionIds(db, IdFilter(ArgValue(taskArg)).value, IdFilter(ArgValue(studentArg)).value);
              (forall id :: id in ids ==> id in db.submissions) && r.1 == SubmissionViews(db.submissions, ids)
    ensures r.0 == Ok ==> forall i :: 0 <= i < |r.1| ==> "time_taken" !in r.1[i]
  {
    match ListSubmissions(db, ArgValue(taskArg), ArgValue(studentArg))
    case Success(xs) => (Ok, xs)
    case Failure(_) => (BadRequest, [])
  }

  /** GET /submissions/<id>: an unknown id is a 404. */
  function GetDetails(db: Database, submissionId: int): (r: (Status, Option<Dict>))
    reads db
    ensures r.0 == Ok <==> submissionId in db.submissions
    ensures r.0 != Ok ==> r == (NotFound, None)
    ensures r.0 == Ok ==> r.1 == Some(SubmissionView(submissionId, db.submissions[submissionId]))
  {
    match GetSubmissionById(db, submissionId)
    case Success(d) => (Ok, Some(d))
    case Failure(_) => (NotFound, None)
  }

  /** One leaderboard line. */
  datatype Entry = Entry(assignmentId: int, timeTaken: Option<int>, isCorrect: bool)

  /** `ORDER BY time_taken ASC`, with NULL after every number as the store sorts it. */
  predicate TimeBefore(a: Option<int>, b: Option<int>)
  {
    b.None? || (a.Some? && a.value <= b.value)
  }

  predicate SortedByTime(xs: seq<Entry>)
  {
    forall i, j :: 0 <= i < j < |xs| ==> TimeBefore(xs[i].timeTaken, xs[j].timeTaken)
  }

  /** An entry no later than every entry of a sorted list can go in front of it. */
  lemma SortedCons(x: Entry, ys: seq<Entry>)
    requires SortedByTime(ys)
    requires forall y :: y in ys ==> TimeBefore(x.timeTaken, y.timeTaken)
    ensures SortedByTime([x] + ys)
  {
    var zs := [x] + ys;
    forall i, j | 0 <= i < j < |zs| ensures TimeBefore(zs[i].timeTaken, zs[j].timeTaken) {
      assert zs[j] == ys[j - 1];
      if i == 0 {
        assert ys[j - 1] in ys;
      } else {
        assert zs[i] == ys[i - 1];
      }
    }
  }

  /** An entry not later than the head of a sorted list goes first. */
  lemma InsertFirst(e: Entry, xs: seq<Entry>)
    requires SortedByTime(xs) && xs != [] && TimeBefore(e.timeTaken, xs[0].timeTaken)
    ensures SortedByTime([e] + xs)
  {
    forall y | y in xs ensures TimeBefore(e.timeTaken, y.timeTaken) {
      var k :| 0 <= k < |xs| && xs[k] == y;
      if k > 0 {
        assert TimeBefore(xs[0].timeTaken, xs[k].timeTaken);
      }
    }
    SortedCons(e, xs);
  }

  /** An entry later than the head goes into the tail, and the head stays in front. */
  lemma InsertLater(e: Entry, xs: seq<Entry>, rest: seq<Entry>)
    requires SortedByTime(xs) && xs != [] && !TimeBefore(e.timeTaken, xs[0].timeTaken)
    requires SortedByTime(rest) && multiset(rest) == multiset(xs[1..]) + multiset{e}
    ensures SortedByTime([xs[0]] + rest)
    ensures multiset([xs[0]] + rest) == multiset(xs) + multiset{e}
  {
    assert xs == [xs[0]] + xs[1..];
    forall y | y in rest ensures TimeBefore(xs[0].timeTaken, y.timeTaken) {
      assert y in multiset(rest);
      if y != e {
        assert y in multiset(xs[1..]);
        var k :| 0 <= k < |xs[1..]| && xs[1..][k] == y;
        assert xs[k + 1] == y;
      }
    }
    SortedCons(xs[0], rest);
  }

  /** Places `e` before the first entry that is not earlier than it, so after every
      entry earlier than it. */
  function Insert(e: Entry, xs: seq<Entry>): (r: seq<Entry>)
    requires SortedByTime(xs)
    ensures SortedByTime(r)
    ensures multiset(r) == multiset(xs) + multiset{e}
  {
    if xs == [] then [e]
    else if TimeBefore(e.timeTaken, xs[0].timeTaken) then
      InsertFirst(e, xs);
      [e] + xs
    else
      var rest := Insert(e, xs[1..]);
      InsertLater(e, xs, rest);
      [xs[0]] + rest
  }

  /** Insertion sort by time. */
  function SortByTime(xs: seq<Entry>): (r: seq<Entry>)
    ensures SortedByTime(r)
    ensures multiset(r) == multiset(xs)
  {
    if xs == [] then []
    else
      assert xs == [xs[0]] + xs[1..];
      Insert(xs[0], SortByTime(xs[1..]))
  }

  /** The ids of the correct submissions whose assignment (the inner join requires one)
      belongs to the task, in primary-key order. */
  function LeaderIds(db: Database, taskId: int): (ids: seq<int>)
    reads db
    requires db.Valid()
    ensures forall id :: id in ids <==>
              && id in db.submissions && db.submissions[id].isCorrect
              && db.submissions[id].assignmentId in db.assignments
              && db.assignments[db.submissions[id].assignmentId].taskId == taskId
  {
    var m := db.submissions;
    var a := db.assignments;
    FilterIds(KeysBelow(m, db.nextSubmissionId),
              id => id in m && m[id].isCorrect && m[id].assignmentId in a && a[m[id].assignmentId].taskId == taskId)
  }

  function EntryOf(s: Submission): Entry
  {
    Entry(s.assignmentId, s.timeTaken, s.isCorrect)
  }

  function Entries(subs: map<int, Submission>, ids: seq<int>): (r: seq<Entry>)
    requires forall i :: 0 <= i < |ids| ==> ids[i] in subs
    ensures |r| == |ids|
    ensures forall i :: 0 <= i < |ids| ==> r[i] == EntryOf(subs[ids[i]])
  {
    seq(|ids|, i requires 0 <= i < |ids| => EntryOf(subs[ids[i]]))
  }

  /** A reordering keeps every entry correct when all of them were. */
  lemma PermutedCorrect(xs: seq<Entry>, ys: seq<Entry>)
    requires multiset(xs) == multiset(ys)
    requires forall i :: 0 <= i < |xs| ==> xs[i].isCorrect
    ensures forall i :: 0 <= i < |ys| ==> ys[i].isCorrect
  {
    forall i | 0 <= i < |ys| ensures ys[i].isCorrect {
      assert ys[i] in multiset(ys);
      var k :| 0 <= k < |xs| && xs[k] == ys[i];
    }
  }

  /** The leaderboard of one task. */
  function Ranking(db: Database, taskId: int): (r: seq<Entry>)
    reads db
    requires db.Valid()
    ensures var ids := LeaderIds(db, taskId);
            && (forall i :: 0 <= i < |ids| ==> ids[i] in db.submissions)
            && multiset(r) == multiset(Entries(db.submissions, ids))
    ensures SortedByTime(r)
    ensures forall i :: 0 <= i < |r| ==> r[i].isCorrect
  {
    var ids := LeaderIds(db, taskId);
    assert forall i :: 0 <= i < |ids| ==> ids[i] in ids;
    var entries := Entries(db.submissions, ids);
    var sorted := SortByTime(entries);
    PermutedCorrect(entries, sorted);
    sorted
  }

  /** GET /leaderboard: 400 without a task id or with one the store cannot compare with
      an integer; otherwise exactly the correct submissions of that task's assignments,
      ascending by time. */
  function Leaderboard(db: Database, taskArg: Option<string>): (r: (Status, seq<Entry>))
    reads db
    requires db.Valid()
    ensures !FilledStr(taskArg) ==> r == (BadRequest, [])
    ensures r.0 == Ok || r == (BadRequest, [])
    ensures r.0 == Ok <==> FilledStr(taskArg) && IdFilter(VStr(taskArg.value)).Success?
    ensures r.0 == Ok ==>
              && FilledStr(taskArg) && IdFilter(VStr(taskArg.value)).Success? && IdFilter(VStr(taskArg.value)).value.Some?
              && r.1 == Ranking(db, IdFilter(VStr(taskArg.value)).value.value)
  {
    if !FilledStr(taskArg) then (BadRequest, [])
    else
      var filter := IdFilter(VStr(taskArg.value));
      if filter.Success? && filter.value.Some? then (Ok, Ranking(db, filter.value.value))
      else (BadRequest, [])
  }
}
