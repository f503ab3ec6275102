/** The task endpoints (backend/app/routes/tasks.py): who may create, change and see
    tasks, and what a student is shown. Query-string arguments arrive as text (or are
    absent); the request body is a JSON dict. */
module TaskRoutes {
  import opened Wrappers
  import opened Values
  import opened TaskModel
  import opened Store
  import opened TaskService
  import Text

  /** The keys the create route demands, in the order it checks them. */
  const RouteRequired: seq<string> := [
    "task_title", "task_description", "course_id", "session_id", "schema_id",
    "difficulty", "deadline", "correct_answer"
  ]

  const DifficultyLabels: seq<Value> := [VStr("easy"), VStr("medium"), VStr("hard")]

  /** The required-key loop of the create route: the index of the first required key the body
      lacks, or None when it has them all. */
  method FindMissingField(data: Dict) returns (missing: Option<nat>)
    ensures missing.None? <==> forall i :: 0 <= i < |RouteRequired| ==> RouteRequired[i] in data
    ensures missing.Some? ==>
              && missing.value < |RouteRequired|
              && RouteRequired[missing.value] !in data
              && forall j :: 0 <= j < missing.value ==> RouteRequired[j] in data
  {
    for i := 0 to |RouteRequired|
      invariant forall j :: 0 <= j < i ==> RouteRequired[j] in data
    {
      if RouteRequired[i] !in data {
        return Some(i);
      }
    }
    return None;
  }

  function MissingFieldMessage(key: string): string
  {
    "Missing required field: " + key
  }

  const InvalidDifficulty := "Invalid difficulty level. Choose from 'easy', 'medium', 'hard'"

  /** Every key of the create route's list is in the body. */
  predicate AllRouteFields(data: Dict)
  {
    forall i :: 0 <= i < |RouteRequired| ==> RouteRequired[i] in data
  }

  /** The body passes the route's own checks, so that create_task is called. */
  predicate RouteGatesPass(db: Database, user: Principal, data: Dict)
  {
    && user.role == Professor && AllRouteFields(data)
    && "difficulty" in data && data["difficulty"] in DifficultyLabels
    && "course_id" in data && ProfessorOwnsCourse(db, user.userId, data["course_id"])
  }

  /** POST /tasks. The gates, in order: a professor; every required key present (400
      naming the first absent one); a known difficulty label; a course the caller owns
      (403); then create_task, whose ValueErrors are 400 and any other failure 500. */
  method CreateTaskRoute(db: Database, user: Principal, data: Dict, now: string)
    returns (status: Status, task: Option<Dict>, error: Option<string>)
    requires db.Valid()
    modifies db`tasks, db`nextTaskId
    ensures db.Valid()
    ensures user.role != Professor ==> status == Forbidden
    ensures user.role == Professor && (exists i :: 0 <= i < |RouteRequired| && RouteRequired[i] !in data) ==>
              status == BadRequest
    ensures user.role == Professor ==>
              forall i :: 0 <= i < |RouteRequired| && RouteRequired[i] !in data
                          && (forall j :: 0 <= j < i ==> RouteRequired[j] in data) ==>
                error == Some(MissingFieldMessage(RouteRequired[i]))
    ensures && user.role == Professor && AllRouteFields(data) && "difficulty" in data
            && data["difficulty"] !in DifficultyLabels
            ==> status == BadRequest && error == Some(InvalidDifficulty)
    ensures && user.role == Professor && AllRouteFields(data) && "difficulty" in data
            && data["difficulty"] in DifficultyLabels && "course_id" in data
            && !ProfessorOwnsCourse(db, user.userId, data["course_id"])
            ==> status == Forbidden
    ensures RouteGatesPass(db, user, data) ==> (status == Created <==> Creatable(db, data, now))
    ensures RouteGatesPass(db, user, data) && !RequiredGiven(data) ==>
              status == BadRequest && error == Some(MissingTaskFields)
    ensures && RouteGatesPass(db, user, data) && SchemaUnknown(db, data)
            ==> status == BadRequest && error == Some(SchemaMissing(data["schema_id"]))
    ensures && RouteGatesPass(db, user, data) && RequiredGiven(data)
            && !SchemaUnknown(db, data) && !Creatable(db, data, now)
            ==> status == ServerError
    ensures status != Created ==> task == None && db.tasks == old(db.tasks) && db.nextTaskId == old(db.nextTaskId)
    ensures status == Created ==> RouteGatesPass(db, user, data) && Creatable(db, data, now)
    ensures status == Created ==>
              var id := old(db.nextTaskId);
              var t := BuildTask(data, now).value;
              db.tasks == old(db.tasks)[id := t] && task == Some(ToDict(id, t, false))
  {
    if user.role != Professor {
      return Forbidden, None, None;
    }
    var missing := FindMissingField(data);
    if missing.Some? {
      return BadRequest, None, Some(MissingFieldMessage(RouteRequired[missing.value]));
    }
    assert RouteRequired[5] in data && RouteRequired[2] in data;
    if data["difficulty"] !in DifficultyLabels {
      return BadRequest, None, Some(InvalidDifficulty);
    }
    if !ProfessorOwnsCourse(db, user.userId, data["course_id"]) {
      return Forbidden, None, None;
    }
    var r := CreateTask(db, data, now);
    match r
    case Success(d) =>
      return Created, Some(d), None;
    case Failure(ValueError(msg)) =>
      return BadRequest, None, Some(msg);
    case Failure(_) =>
      return ServerError, None, None;
  }

  /** `request.args.get("published", "false").lower() == "true"`. */
  predicate PublishedOnly(arg: Option<string>)
  {
    Text.Lower(if arg.Some? then arg.value else "false") == "true"
  }

  /** The argument is honoured exactly when it spells "true" in any mix of cases; an
      absent argument reads as "false". */
  lemma PublishedOnlyDefault()
    ensures !PublishedOnly(None)
    ensures forall s :: PublishedOnly(Some(s)) <==>
              |s| == 4 && s[0] in "tT" && s[1] in "rR" && s[2] in "uU" && s[3] in "eE"
  {
    assert Text.Lower("false")[0] == 'f';
    forall s
      ensures PublishedOnly(Some(s)) <==>
                |s| == 4 && s[0] in "tT" && s[1] in "rR" && s[2] in "uU" && s[3] in "eE"
    {
      var l := Text.Lower(s);
      if |s| == 4 {
        assert l == [Text.LowerChar(s[0]), Text.LowerChar(s[1]), Text.LowerChar(s[2]), Text.LowerChar(s[3])];
      } else {
        assert |l| != |"true"|;
      }
    }
  }

  /** `[task for task in tasks if task.get("published")]`. */
  function KeepPublished(xs: seq<Dict>): (r: seq<Dict>)
    ensures forall d :: d in r <==> d in xs && Truthy(Get(d, "published"))
    ensures forall d :: multiset(r)[d] == if Truthy(Get(d, "published")) then multiset(xs)[d] else 0
    ensures |r| <= |xs|
  {
    if xs == [] then []
    else
      var rest := KeepPublished(xs[1..]);
      assert xs == [xs[0]] + xs[1..];
      assert forall d :: d in xs <==> d == xs[0] || d in xs[1..];
      if IsPublished(xs[0]) then [xs[0]] + rest else rest
  }

  /** `task.get("published")` is truthy. */
  predicate IsPublished(d: Dict)
  {
    Truthy(Get(d, "published"))
  }

  /** The positions from `k` on that hold a published entry, in increasing order. */
  function KeptFrom(xs: seq<Dict>, k: nat): (ks: seq<nat>)
    requires k <= |xs|
    ensures forall i :: 0 <= i < |ks| ==> k <= ks[i] < |xs| && IsPublished(xs[ks[i]])
    ensures forall i, j :: 0 <= i < j < |ks| ==> ks[i] < ks[j]
    ensures forall j :: k <= j < |xs| && IsPublished(xs[j]) ==> j in ks
    decreases |xs| - k
  {
    if k == |xs| then []
    else
      var rest := KeptFrom(xs, k + 1);
      if IsPublished(xs[k]) then [k] + rest else rest
  }

  /** The filter keeps the published entries in the order of the list: the i-th kept
      entry is the one at the i-th published position. */
  lemma {:induction false} KeepPublishedInOrder(xs: seq<Dict>, k: nat)
    requires k <= |xs|
    ensures var ks := KeptFrom(xs, k);
            |KeepPublished(xs[k..])| == |ks| && forall i :: 0 <= i < |ks| ==> KeepPublished(xs[k..])[i] == xs[ks[i]]
    decreases |xs| - k
  {
    if k < |xs| {
      KeepPublishedInOrder(xs, k + 1);
      var ys := xs[k..];
      assert ys[0] == xs[k] && ys[1..] == xs[k + 1..];
      var r, rest := KeepPublished(ys), KeepPublished(xs[k + 1..]);
      var ks, tail := KeptFrom(xs, k), KeptFrom(xs, k + 1);
      if IsPublished(xs[k]) {
        assert r == [xs[k]] + rest && ks == [k] + tail;
        PositionsCons(xs, k, rest, tail);
      } else {
        assert r == rest && ks == tail;
      }
    }
  }

  /** Putting the entry at `k` in front of both a list and its positions keeps the
      positions pointing at the entries. */
  lemma PositionsCons(xs: seq<Dict>, k: nat, rest: seq<Dict>, tail: seq<nat>)
    requires k < |xs| && |rest| == |tail|
    requires forall i :: 0 <= i < |tail| ==> tail[i] < |xs| && rest[i] == xs[tail[i]]
    ensures forall i :: 0 <= i < |tail| + 1 ==> ([k] + tail)[i] < |xs| && ([xs[k]] + rest)[i] == xs[([k] + tail)[i]]
  {
    forall i | 0 < i < |tail| + 1
      ensures ([k] + tail)[i] < |xs| && ([xs[k]] + rest)[i] == xs[([k] + tail)[i]]
    {
      assert ([k] + tail)[i] == tail[i - 1];
    }
  }

  /** Filtering a list that is already all published keeps all of it, in order. */
  lemma {:induction false} KeepPublishedOfPublished(xs: seq<Dict>)
    requires forall i :: 0 <= i < |xs| ==> Truthy(Get(xs[i], "published"))
    ensures KeepPublished(xs) == xs
  {
    if xs != [] {
      KeepPublishedOfPublished(xs[1..]);
    }
  }

  /** `for task in tasks: task.pop("correct_answer", None)`: every dict of the list
      loses its answer, and nothing else. */
  method RedactAnswers(xs: seq<Dict>) returns (ys: seq<Dict>)
    ensures |ys| == |xs|
    ensures forall i :: 0 <= i < |xs| ==> ys[i] == xs[i] - {"correct_answer"}
    ensures forall i :: 0 <= i < |ys| ==> "correct_answer" !in ys[i]
  {
    ys := xs;
    for i := 0 to |xs|
      invariant |ys| == |xs|
      invariant forall j :: 0 <= j < i ==> ys[j] == xs[j] - {"correct_answer"}
      invariant forall j :: i <= j < |xs| ==> ys[j] == xs[j]
    {
      ys := ys[i := ys[i] - {"correct_answer"}];
    }
  }

  /** Removing a key a dict lacks leaves it as it is. */
  lemma RedactWithoutAnswer(xs: seq<Dict>, ys: seq<Dict>)
    requires |ys| == |xs|
    requires forall i :: 0 <= i < |xs| ==> ys[i] == xs[i] - {"correct_answer"}
    requires forall i :: 0 <= i < |xs| ==> "correct_answer" !in xs[i]
    ensures ys == xs
  {
    forall i | 0 <= i < |xs|
      ensures ys[i] == xs[i]
    {
      assert ys[i].Keys == xs[i].Keys;
    }
  }

  /** GET /tasks. Unpublished tasks reach only a professor who did not ask for
      `published=true`; students never see an answer. An argument the store cannot
      compare with an id is a 500. */
  method ListAllTasks(db: Database, user: Principal, courseArg: Option<string>, sessionArg: Option<string>,
                      publishedArg: Option<string>)
    returns (status: Status, tasks: seq<Dict>)
    requires db.Valid()
    ensures var listed := ListTasks(db, ArgValue(courseArg), ArgValue(sessionArg),
                                    user.role == Professor && !PublishedOnly(publishedArg));
            && (status == Ok <==> listed.Success?)
            && (status != Ok ==> status == ServerError && tasks == [])
            && (status == Ok ==> tasks == listed.value)
    ensures status == Ok && (user.role != Professor || PublishedOnly(publishedArg)) ==>
              forall i :: 0 <= i < |tasks| ==> Truthy(tasks[i]["published"])
    ensures forall i :: 0 <= i < |tasks| ==> "correct_answer" !in tasks[i]
  {
    var publishedOnly := PublishedOnly(publishedArg);
    var includeUnpublished := user.role == Professor && !publishedOnly;
    var listed := ListTasks(db, ArgValue(courseArg), ArgValue(sessionArg), includeUnpublished);
    if listed.Failure? {
      return ServerError, [];
    }
    tasks := listed.value;
    if publishedOnly || user.role == Student {
      assert forall i :: 0 <= i < |tasks| ==> "published" in tasks[i];
      KeepPublishedOfPublished(tasks);
      tasks := KeepPublished(tasks);
    }
    if user.role == Student {
      var redacted := RedactAnswers(tasks);
      RedactWithoutAnswer(tasks, redacted);
      tasks := redacted;
    }
    status := Ok;
  }

  /** GET /tasks/published: the published tasks that match, the answer removed for
      students. */
  method ListPublishedTasks(db: Database, user: Principal, courseArg: Option<string>, sessionArg: Option<string>)
    returns (status: Status, tasks: seq<Dict>)
    requires db.Valid()
    ensures var listed := ListTasks(db, ArgValue(courseArg), ArgValue(sessionArg), false);
            && (status == Ok <==> listed.Success?)
            && (status != Ok ==> status == ServerError && tasks == [])
            && (status == Ok ==> tasks == listed.value)
    ensures forall i :: 0 <= i < |tasks| ==> Truthy(tasks[i]["published"])
    ensures forall i :: 0 <= i < |tasks| ==> "correct_answer" !in tasks[i]
  {
    var listed := ListTasks(db, ArgValue(courseArg), ArgValue(sessionArg), false);
    if listed.Failure? {
      return ServerError, [];
    }
    tasks := listed.value;
    assert forall i :: 0 <= i < |tasks| ==> "published" in tasks[i];
    KeepPublishedOfPublished(tasks);
    tasks := KeepPublished(tasks);
    if user.role == Student {
      var redacted := RedactAnswers(tasks);
      RedactWithoutAnswer(tasks, redacted);
      tasks := redacted;
    }
    status := Ok;
  }

  /** GET /tasks/<id>: 500 for an unknown id, since the lookup raises; a student gets the
      dict without its answer, which is exactly the hidden view. */
  function GetTaskDetails(db: Database, user: Principal, taskId: int): (r: (Status, Option<Dict>))
    reads db
    ensures r.0 == Ok <==> taskId in db.tasks
    ensures r.0 != Ok ==> r == (ServerError, None)
    ensures r.0 == Ok ==>
              r.1 == Some(ToDict(taskId, db.tasks[taskId], user.role == Student))
  {
    match GetTaskById(db, taskId)
    case Failure(_) => (ServerError, None)
    case Success(d) =>
      HideRemovesOnlyAnswer(taskId, db.tasks[taskId]);
      (Ok, Some(if user.role == Student then d - {"correct_answer"} else d))
  }

  /** PUT /tasks/<id>: professors only; the lookup runs outside the handler's try, so an
      unknown id is a 500; then the owner of the task's course only. */
  method UpdateTaskRoute(db: Database, user: Principal, taskId: int, data: Dict)
    returns (status: Status, task: Option<Dict>)
    requires db.Valid()
    modifies db`tasks
    ensures db.Valid()
    ensures user.role != Professor ==> status == Forbidden
    ensures user.role == Professor && taskId !in old(db.tasks) ==> status == ServerError
    ensures (user.role == Professor && taskId in old(db.tasks)
             && !ProfessorOwnsCourse(db, user.userId, VInt(old(db.tasks)[taskId].courseId))) ==> status == Forbidden
    ensures status != Ok ==> task == None && db.tasks == old(db.tasks)
    ensures status == Ok <==>
              && user.role == Professor && taskId in old(db.tasks)
              && ProfessorOwnsCourse(db, user.userId, VInt(old(db.tasks)[taskId].courseId))
              && ApplyUpdate(old(db.tasks)[taskId], data).Some?
    ensures status == Ok ==>
              var u := ApplyUpdate(old(db.tasks)[taskId], data).value;
              db.tasks == old(db.tasks)[taskId := u] && task == Some(ToDict(taskId, u, false))
  {
    if user.role != Professor {
      return Forbidden, None;
    }
    var found := GetTaskById(db, taskId);
    if found.Failure? {
      return ServerError, None;
    }
    if !ProfessorOwnsCourse(db, user.userId, VInt(db.tasks[taskId].courseId)) {
      return Forbidden, None;
    }
    var r := UpdateTask(db, taskId, data);
    if r.Failure? {
      return ServerError, None;
    }
    return Ok, Some(r.value);
  }

  /** DELETE /tasks/<id>: the same gates as the update. */
  method DeleteTaskRoute(db: Database, user: Principal, taskId: int) returns (status: Status)
    requires db.Valid()
    modifies db`tasks
    ensures db.Valid()
    ensures user.role != Professor ==> status == Forbidden
    ensures user.role == Professor && taskId !in old(db.tasks) ==> status == ServerError
    ensures status != Ok ==> db.tasks == old(db.tasks)
    ensures status == Ok <==>
              && user.role == Professor && taskId in old(db.tasks)
              && ProfessorOwnsCourse(db, user.userId, VInt(old(db.tasks)[taskId].courseId))
    ensures status == Ok ==> db.tasks == old(db.tasks) - {taskId}
  {
    if user.role != Professor {
      return Forbidden;
    }
    var found := GetTaskById(db, taskId);
    if found.Failure? {
      return ServerError;
    }
    if !ProfessorOwnsCourse(db, user.userId, VInt(db.tasks[taskId].courseId)) {
      return Forbidden;
    }
    var r := DeleteTask(db, taskId);
    status := if r.Success? then Ok else ServerError;
  }

  /** PATCH /tasks/<id>/publish: professors only (no ownership check); the body must have
      a "published" key; the flag takes its value and nothing else changes. */
  method TogglePublishTask(db: Database, user: Principal, taskId: int, data: Dict)
    returns (status: Status, task: Option<Dict>)
    requires db.Valid()
    modifies db`tasks
    ensures db.Valid()
    ensures user.role != Professor ==> status == Forbidden
    ensures user.role == Professor && "published" !in data ==> status == BadRequest
    ensures user.role == Professor && "published" in data && taskId !in old(db.tasks) ==> status == NotFound
    ensures && user.role == Professor && "published" in data && taskId in old(db.tasks)
            && !data["published"].VBool?
            ==> status == ServerError
    ensures status != Ok ==> task == None && db.tasks == old(db.tasks)
    ensures status == Ok <==>
              user.role == Professor && "published" in data && taskId in old(db.tasks) && data["published"].VBool?
    ensures status == Ok ==>
              var t := old(db.tasks)[taskId].(published := data["published"].b);
              db.tasks == old(db.tasks)[taskId := t] && task == Some(ToDict(taskId, t, false))
  {
    if user.role != Professor {
      return Forbidden, None;
    }
    if "published" !in data {
      return BadRequest, None;
    }
    if taskId !in db.tasks {
      return NotFound, None;
    }
    var flag := AsFlag(data["published"]);
    if flag.None? {
      return ServerError, None;
    }
    var t := db.tasks[taskId].(published := flag.value);
    db.tasks := db.tasks[taskId := t];
    return Ok, Some(ToDict(taskId, t, false));
  }
}
