/** The task store (backend/app/services/task_service.py). A request payload is a JSON
    dict; its values reach typed columns, and a value the column cannot hold (a missing
    NOT NULL value, a label outside the difficulty enumeration, a date text the column
    does not accept, an id the engine cannot cast) makes the commit fail, which is an
    `EngineError` here, raised after the rollback with the store unchanged. */
module TaskService {
  import opened Wrappers
  import opened Values
  import opened TaskModel
  import opened Store
  import Text

  const MissingTaskFields := "Missing required fields for task creation"
  const TaskNotFound := "Task not found"

  function SchemaMissing(schemaId: Value): string
  {
    "Schema with ID " + PyStr(schemaId) + " does not exist."
  }

  /** The six fields create_task demands before it touches the store. */
  predicate RequiredGiven(data: Dict)
  {
    && Filled(data, "task_title") && Filled(data, "task_description") && Filled(data, "course_id")
    && Filled(data, "session_id") && Filled(data, "schema_id") && Filled(data, "correct_answer")
  }

  // What each column accepts of a JSON value.

  /** The text a `String` or `Text` column stores for a JSON value: text as it is, and an
      integer or a boolean through the engine's assignment cast to text. Null is no text. */
  function ColumnText(v: Value): Option<string>
  {
    match v
    case VNull => None
    case VBool(b) => Some(if b then "true" else "false")
    case VInt(i) => Some(Text.IntToString(i))
    case VStr(s) => Some(s)
  }

  /** The integer a text column stores reads back as that integer. */
  lemma ColumnTextOfInt(i: int)
    ensures ColumnText(VInt(i)).Some? && Text.IsIntLiteral(ColumnText(VInt(i)).value)
    ensures Text.ParseInt(ColumnText(VInt(i)).value) == i
  {
    Text.IntToStringRoundTrip(i);
  }

  function AsText(v: Value): Option<string>
  {
    ColumnText(v)
  }

  /** The `String(255)` columns, `task_title` and `tags`, refuse longer text at commit. */
  const ShortTextMax := 255

  function AsShortText(v: Value): Option<string>
  {
    var text := ColumnText(v);
    if text.Some? && |text.value| <= ShortTextMax then text else None
  }

  /** A task whose text fits the `String(255)` columns. */
  predicate FitsColumns(t: Task)
  {
    |t.title| <= ShortTextMax && (t.tags.Some? ==> |t.tags.value| <= ShortTextMax)
  }

  /** A supplied text longer than its `String(255)` column. */
  predicate TooLong(data: Dict, key: string)
  {
    key in data && ColumnText(data[key]).Some? && |ColumnText(data[key]).value| > ShortTextMax
  }

  function AsDifficulty(v: Value): Option<Difficulty>
  {
    if v.VStr? then ParseDifficulty(v.s) else None
  }

  function AsDeadline(v: Value): Option<Date>
  {
    if v.VStr? then ParseDate(v.s) else None
  }

  /** The nullable `tags` column: null is stored as NULL; any other value as its column
      text, refused when longer than the column. */
  function AsTags(v: Value): Option<Option<string>>
  {
    if v.VNull? then Some(None)
    else
      var text := ColumnText(v).value;
      if |text| <= ShortTextMax then Some(Some(text)) else None
  }

  function AsFlag(v: Value): Option<bool>
  {
    if v.VBool? then Some(v.b) else None
  }

  /** The row `Task(...)` builds from the payload, when every column accepts its value.
      An id may be an integer or a text the engine casts. `difficulty` is "medium" when
      the key is absent and also when it is null, since the insert leaves a None column
      to its default; `published` is left to its column default. */
  function BuildTask(data: Dict, now: string): (r: Option<Task>)
    ensures r.Some? ==> !r.value.published
    ensures r.Some? && Get(data, "difficulty") == VNull ==> r.value.difficulty == DefaultDifficulty
    ensures r.Some? ==> && AsKey(Get(data, "course_id")) == Some(r.value.courseId)
                        && AsKey(Get(data, "session_id")) == Some(r.value.sessionId)
                        && AsKey(Get(data, "schema_id")) == Some(r.value.schemaId)
    ensures r.Some? ==> FitsColumns(r.value)
    ensures TooLong(data, "task_title") || TooLong(data, "tags") ==> r.None?
  {
    var title := AsShortText(Get(data, "task_title"));
    var description := AsText(Get(data, "task_description"));
    var courseId := AsKey(Get(data, "course_id"));
    var sessionId := AsKey(Get(data, "session_id"));
    var schemaId := AsKey(Get(data, "schema_id"));
    var answer := AsText(Get(data, "correct_answer"));
    var given := Get(data, "difficulty");
    var difficulty := AsDifficulty(if given.VNull? then VStr("medium") else given);
    var tags := AsTags(Get(data, "tags"));
    var deadline := AsDeadline(Get(data, "deadline"));
    if && title.Some? && description.Some? && courseId.Some? && sessionId.Some? && schemaId.Some?
       && answer.Some? && difficulty.Some? && tags.Some? && deadline.Some?
    then Some(Task(title.value, description.value, courseId.value, sessionId.value, schemaId.value,
                   answer.value, difficulty.value, tags.value, deadline.value, now, false))
    else None
  }

  /** The payload keys a created task echoes back. */
  const CreateKeys: set<string> := {
    "task_title", "task_description", "course_id", "session_id", "schema_id",
    "correct_answer", "difficulty", "tags", "deadline"
  }

  const IdKeys: set<string> := {"course_id", "session_id", "schema_id"}

  /** The keys stored in `String` or `Text` columns. */
  const TextKeys: set<string> := {"task_title", "task_description", "correct_answer", "tags"}

  /** How a supplied value reads back from its column once the row is reloaded after the
      commit: an id as the integer the engine stored, an integer or boolean in a text
      column as the text the cast stored, a null difficulty as the default label, and
      every other value as given. */
  function Reloaded(k: string, v: Value): Value
  {
    if k in IdKeys && AsKey(v).Some? then VInt(AsKey(v).value)
    else if k in TextKeys && (v.VInt? || v.VBool?) then VStr(ColumnText(v).value)
    else if k == "difficulty" && v.VNull? then VStr(DifficultyName(DefaultDifficulty))
    else v
  }

  /** Every column the payload supplies is stored as given: the created task's dict
      shows each supplied key with the payload's own value, the deadline included, up to
      the casts of the columns; so a payload of integer ids and a difficulty label is
      echoed exactly. */
  lemma CreatedTaskEchoesPayload(id: int, data: Dict, now: string)
    requires BuildTask(data, now).Some?
    ensures forall k :: k in data && k in CreateKeys ==>
              ToDict(id, BuildTask(data, now).value, false)[k] == Reloaded(k, data[k])
    ensures forall k :: && k in data && k in CreateKeys
                        && !(k in IdKeys && data[k].VStr?) && !(k == "difficulty" && data[k].VNull?)
                        && !(k in TextKeys && (data[k].VInt? || data[k].VBool?))
                        ==> ToDict(id, BuildTask(data, now).value, false)[k] == data[k]
  {
    forall k | k in data && k in CreateKeys
      ensures ToDict(id, BuildTask(data, now).value, false)[k] == Reloaded(k, data[k])
    {
      CreatedTaskEchoesKey(id, data, now, k);
    }
  }

  lemma CreateKeysShown()
    ensures CreateKeys <= TaskKeys + {"correct_answer"}
  {
  }

  lemma CreatedTaskEchoesKey(id: int, data: Dict, now: string, k: string)
    requires BuildTask(data, now).Some? && k in data && k in CreateKeys
    ensures k in ToDict(id, BuildTask(data, now).value, false)
    ensures ToDict(id, BuildTask(data, now).value, false)[k] == Reloaded(k, data[k])
  {
    var t := BuildTask(data, now).value;
    CreateKeysShown();
    assert ToDict(id, t, false)[k] == Column(id, t, k);
    if k in IdKeys {
      IdColumnReloaded(id, data, now, t, k);
    } else if k == "difficulty" {
      DifficultyColumnReloaded(id, data, now, t);
    } else {
      TextColumnReloaded(id, data, now, t, k);
    }
  }

  lemma IdColumnReloaded(id: int, data: Dict, now: string, t: Task, k: string)
    requires BuildTask(data, now) == Some(t) && k in data && k in IdKeys
    ensures Column(id, t, k) == Reloaded(k, data[k])
  {
    ReloadedKey(k, data[k]);
    if k == "course_id" {
      assert Column(id, t, k) == VInt(t.courseId);
    } else if k == "session_id" {
      assert Column(id, t, k) == VInt(t.sessionId);
    } else {
      assert Column(id, t, k) == VInt(t.schemaId);
    }
  }

  lemma DifficultyColumnReloaded(id: int, data: Dict, now: string, t: Task)
    requires BuildTask(data, now) == Some(t) && "difficulty" in data
    ensures Column(id, t, "difficulty") == Reloaded("difficulty", data["difficulty"])
  {
    if data["difficulty"].VNull? {
      assert t.difficulty == DefaultDifficulty;
    } else {
      assert DifficultyName(t.difficulty) == data["difficulty"].s;
    }
  }

  lemma TextColumnReloaded(id: int, data: Dict, now: string, t: Task, k: string)
    requires BuildTask(data, now) == Some(t) && k in data && k in CreateKeys
    requires k !in IdKeys && k != "difficulty"
    ensures Column(id, t, k) == Reloaded(k, data[k])
  {
    if k == "deadline" {
      ParseDateRendered(data[k].s);
    } else if k == "tags" {
      assert TagsValue(t.tags) == Reloaded(k, data[k]);
    } else if k == "task_title" {
      assert VStr(t.title) == Reloaded(k, data[k]);
    } else if k == "task_description" {
      assert VStr(t.description) == Reloaded(k, data[k]);
    } else {
      assert VStr(t.correctAnswer) == Reloaded(k, data[k]);
    }
  }

  lemma ReloadedKey(k: string, v: Value)
    requires k in IdKeys && AsKey(v).Some?
    ensures Reloaded(k, v) == VInt(AsKey(v).value)
  {
  }

  /** The schema lookup of create_task (line 27) finds no row: the id is readable as a key
      but names no schema. */
  predicate SchemaUnknown(db: Database, data: Dict)
    reads db`schemas
  {
    && RequiredGiven(data)
    && AsKey(data["schema_id"]).Some? && AsKey(data["schema_id"]).value !in db.schemas
  }

  /** Whether create_task gets past its checks and its commit. */
  predicate Creatable(db: Database, data: Dict, now: string)
    reads db`schemas, db`sessions
  {
    && RequiredGiven(data)
    && AsKey(data["schema_id"]).Some? && AsKey(data["schema_id"]).value in db.schemas
    && var t := BuildTask(data, now);
       t.Some? && t.value.courseId in db.courses && t.value.sessionId in db.sessions
  }

  /** create_task: the required-field check, then the schema lookup, then the insert;
      the new task's dict is returned with its answer. `now` is the clock reading the
      `created_at` default takes. */
  method CreateTask(db: Database, data: Dict, now: string) returns (r: Result<Dict>)
    requires db.Valid()
    modifies db`tasks, db`nextTaskId
    ensures db.Valid()
    ensures !RequiredGiven(data) ==> r == Failure(ValueError(MissingTaskFields))
    ensures SchemaUnknown(db, data) ==> r == Failure(ValueError(SchemaMissing(data["schema_id"])))
    ensures r.Success? <==> Creatable(db, data, now)
    ensures RequiredGiven(data) && !SchemaUnknown(db, data) && !Creatable(db, data, now) ==>
              r == Failure(EngineError)
    ensures r.Failure? ==> db.tasks == old(db.tasks) && db.nextTaskId == old(db.nextTaskId)
    ensures r.Success? ==>
              var id := old(db.nextTaskId);
              var t := BuildTask(data, now).value;
              && id !in old(db.tasks)
              && db.tasks == old(db.tasks)[id := t]
              && db.nextTaskId == id + 1
              && r.value == ToDict(id, t, false)
  {
    if !RequiredGiven(data) {
      return Failure(ValueError(MissingTaskFields));
    }
    var schemaId := AsKey(data["schema_id"]);
    if schemaId.None? {
      // The lookup cannot compare the integer key with this value.
      return Failure(EngineError);
    }
    if schemaId.value !in db.schemas {
      return Failure(ValueError(SchemaMissing(data["schema_id"])));
    }
    var t := BuildTask(data, now);
    if t.None? || t.value.courseId !in db.courses || t.value.sessionId !in db.sessions {
      return Failure(EngineError);
    }
    var id := InsertTask(db, t.value);
    r := Success(ToDict(id, t.value, false));
  }

  /** `db.session.add(task)` and the commit: the row takes the next id. */
  method InsertTask(db: Database, t: Task) returns (id: int)
    requires db.Valid()
    modifies db`tasks, db`nextTaskId
    ensures db.Valid()
    ensures id == old(db.nextTaskId) && id !in old(db.tasks)
    ensures db.tasks == old(db.tasks)[id := t] && db.nextTaskId == id + 1
  {
    id := db.nextTaskId;
    db.tasks, db.nextTaskId := db.tasks[id := t], id + 1;
  }

  /** get_task_by_id: the full dict, answer included, or "Task not found". */
  function GetTaskById(db: Database, taskId: int): (r: Result<Dict>)
    reads db
    ensures r.Failure? <==> taskId !in db.tasks
    ensures r.Failure? ==> r.error == ValueError(TaskNotFound)
    ensures r.Success? ==> "correct_answer" in r.value
    ensures r.Success? ==> r.value == ToDict(taskId, db.tasks[taskId], false)
  {
    if taskId in db.tasks then Success(ToDict(taskId, db.tasks[taskId], false))
    else Failure(ValueError(TaskNotFound))
  }

  /** update_task's field assignments: each of the seven columns takes the payload's
      value when its key is present and keeps its own otherwise. None when a supplied
      value is one its column rejects at commit. */
  function ApplyUpdate(t: Task, data: Dict): (r: Option<Task>)
    ensures r.Some? && FitsColumns(t) ==> FitsColumns(r.value)
    ensures TooLong(data, "task_title") || TooLong(data, "tags") ==> r.None?
  {
    var title := if "task_title" in data then AsShortText(data["task_title"]) else Some(t.title);
    var description := if "task_description" in data then AsText(data["task_description"]) else Some(t.description);
    var answer := if "correct_answer" in data then AsText(data["correct_answer"]) else Some(t.correctAnswer);
    var difficulty := if "difficulty" in data then AsDifficulty(data["difficulty"]) else Some(t.difficulty);
    var tags := if "tags" in data then AsTags(data["tags"]) else Some(t.tags);
    var deadline := if "deadline" in data then AsDeadline(data["deadline"]) else Some(t.deadline);
    var published := if "published" in data then AsFlag(data["published"]) else Some(t.published);
    if && title.Some? && description.Some? && answer.Some? && difficulty.Some? && tags.Some?
       && deadline.Some? && published.Some?
    then Some(t.(title := title.value, description := description.value, correctAnswer := answer.value,
                 difficulty := difficulty.value, tags := tags.value, deadline := deadline.value,
                 published := published.value))
    else None
  }

  /** The keys update_task writes. */
  const UpdateKeys: set<string> := {
    "task_title", "task_description", "correct_answer", "difficulty", "tags", "deadline", "published"
  }

  /** A successful update never moves the task to another course, session or schema. */
  lemma UpdateKeepsPlacement(t: Task, data: Dict)
    requires ApplyUpdate(t, data).Some?
    ensures var u := ApplyUpdate(t, data).value;
              && u.courseId == t.courseId && u.sessionId == t.sessionId && u.schemaId == t.schemaId
              && u.createdAt == t.createdAt
  {
  }

  /** A successful update shows every supplied updatable key with the supplied value, as
      its column stores it: an integer or boolean in a text column as its text, every
      other value exactly as given. */
  lemma UpdateStoresSupplied(id: int, t: Task, data: Dict)
    requires ApplyUpdate(t, data).Some?
    ensures var u := ApplyUpdate(t, data).value;
              forall k :: k in data && k in UpdateKeys ==> ToDict(id, u, false)[k] == Reloaded(k, data[k])
    ensures var u := ApplyUpdate(t, data).value;
              forall k :: && k in data && k in UpdateKeys && !(k in TextKeys && (data[k].VInt? || data[k].VBool?))
                          ==> ToDict(id, u, false)[k] == data[k]
  {
    forall k | k in data && k in UpdateKeys
      ensures ToDict(id, ApplyUpdate(t, data).value, false)[k] == Reloaded(k, data[k])
      ensures !(k in TextKeys && (data[k].VInt? || data[k].VBool?)) ==> Reloaded(k, data[k]) == data[k]
    {
      UpdatedKeyStored(id, t, data, k);
    }
  }

  lemma UpdatedKeyStored(id: int, t: Task, data: Dict, k: string)
    requires ApplyUpdate(t, data).Some? && k in data && k in UpdateKeys
    ensures ToDict(id, ApplyUpdate(t, data).value, false)[k] == Reloaded(k, data[k])
    ensures !(k in TextKeys && (data[k].VInt? || data[k].VBool?)) ==> Reloaded(k, data[k]) == data[k]
  {
    var u := ApplyUpdate(t, data).value;
    var v := data[k];
    assert ToDict(id, u, false)[k] == Column(id, u, k);
    if k == "deadline" {
      ParseDateRendered(v.s);
    } else if k == "difficulty" {
      assert DifficultyName(u.difficulty) == v.s;
    } else if k == "published" {
      assert Column(id, u, k) == VBool(u.published);
    } else if k == "tags" {
      assert AsTags(v) == Some(u.tags);
      TagsReloaded(v, u.tags);
    } else if k == "task_title" {
      assert ColumnText(v) == Some(u.title);
      TextReloaded(k, v, u.title);
    } else if k == "task_description" {
      assert ColumnText(v) == Some(u.description);
      TextReloaded(k, v, u.description);
    } else {
      assert ColumnText(v) == Some(u.correctAnswer);
      TextReloaded(k, v, u.correctAnswer);
    }
  }

  lemma TextReloaded(k: string, v: Value, stored: string)
    requires k == "task_title" || k == "task_description" || k == "correct_answer"
    requires ColumnText(v) == Some(stored)
    ensures Reloaded(k, v) == VStr(stored)
    ensures !(v.VInt? || v.VBool?) ==> Reloaded(k, v) == v
  {
    assert k in TextKeys && k !in IdKeys;
  }

  lemma TagsReloaded(v: Value, stored: Option<string>)
    requires AsTags(v) == Some(stored)
    ensures Reloaded("tags", v) == TagsValue(stored)
    ensures !(v.VInt? || v.VBool?) ==> Reloaded("tags", v) == v
  {
    assert "tags" in TextKeys && "tags" !in IdKeys;
  }

  /** A successful update shows every other key of the dict as before. */
  lemma UpdateKeepsUnsupplied(id: int, t: Task, data: Dict)
    requires ApplyUpdate(t, data).Some?
    ensures var u := ApplyUpdate(t, data).value;
              forall k :: k in ToDict(id, t, false) && !(k in data && k in UpdateKeys) ==>
                ToDict(id, u, false)[k] == ToDict(id, t, false)[k]
  {
    var u := ApplyUpdate(t, data).value;
    UpdateKeepsPlacement(t, data);
    assert "task_title" !in data ==> u.title == t.title;
    assert "task_description" !in data ==> u.description == t.description;
    assert "correct_answer" !in data ==> u.correctAnswer == t.correctAnswer;
    assert "difficulty" !in data ==> u.difficulty == t.difficulty;
    assert "tags" !in data ==> u.tags == t.tags;
    assert "deadline" !in data ==> u.deadline == t.deadline;
    assert "published" !in data ==> u.published == t.published;
    forall k | k in ToDict(id, t, false) && !(k in data && k in UpdateKeys)
      ensures ToDict(id, u, false)[k] == ToDict(id, t, false)[k]
    {
      ColumnKept(id, t, u, k, data);
    }
  }

  /** One column of the dict is the same for two tasks that agree on it. */
  lemma ColumnKept(id: int, t: Task, u: Task, k: string, data: Dict)
    requires !(k in data && k in UpdateKeys)
    requires u.courseId == t.courseId && u.sessionId == t.sessionId && u.schemaId == t.schemaId
    requires u.createdAt == t.createdAt
    requires "task_title" !in data ==> u.title == t.title
    requires "task_description" !in data ==> u.description == t.description
    requires "correct_answer" !in data ==> u.correctAnswer == t.correctAnswer
    requires "difficulty" !in data ==> u.difficulty == t.difficulty
    requires "tags" !in data ==> u.tags == t.tags
    requires "deadline" !in data ==> u.deadline == t.deadline
    requires "published" !in data ==> u.published == t.published
    ensures Column(id, u, k) == Column(id, t, k)
  {
  }

  /** Applying the same update twice is the same as applying it once. */
  lemma UpdateIdempotent(t: Task, data: Dict)
    requires ApplyUpdate(t, data).Some?
    ensures ApplyUpdate(ApplyUpdate(t, data).value, data) == ApplyUpdate(t, data)
  {
  }

  /** An empty payload changes nothing. */
  lemma EmptyUpdateIsIdentity(t: Task)
    ensures ApplyUpdate(t, map[]) == Some(t)
  {
  }

  /** update_task: "Task not found" for an unknown id; otherwise the updated row is
      committed, or, when a column rejects its value, nothing is. */
  method UpdateTask(db: Database, taskId: int, data: Dict) returns (r: Result<Dict>)
    requires db.Valid()
    modifies db`tasks
    ensures db.Valid()
    ensures taskId !in old(db.tasks) ==> r == Failure(ValueError(TaskNotFound))
    ensures taskId in old(db.tasks) && ApplyUpdate(old(db.tasks)[taskId], data).None? ==> r == Failure(EngineError)
    ensures r.Success? <==> taskId in old(db.tasks) && ApplyUpdate(old(db.tasks)[taskId], data).Some?
    ensures r.Failure? ==> db.tasks == old(db.tasks)
    ensures r.Success? ==>
              var u := ApplyUpdate(old(db.tasks)[taskId], data).value;
              db.tasks == old(db.tasks)[taskId := u] && r.value == ToDict(taskId, u, false)
  {
    if taskId !in db.tasks {
      return Failure(ValueError(TaskNotFound));
    }
    var u := ApplyUpdate(db.tasks[taskId], data);
    if u.None? {
      return Failure(EngineError);
    }
    db.tasks := db.tasks[taskId := u.value];
    r := Success(ToDict(taskId, u.value, false));
  }

  /** delete_task removes exactly the given task, or raises when it is absent. */
  method DeleteTask(db: Database, taskId: int) returns (r: Result<()>)
    requires db.Valid()
    modifies db`tasks
    ensures db.Valid()
    ensures r.Failure? <==> taskId !in old(db.tasks)
    ensures r.Failure? ==> r.error == ValueError(TaskNotFound) && db.tasks == old(db.tasks)
    ensures r.Success? ==> db.tasks == old(db.tasks) - {taskId}
  {
    if taskId !in db.tasks {
      return Failure(ValueError(TaskNotFound));
    }
    db.tasks := db.tasks - {taskId};
    r := Success(());
  }

  /** professor_owns_course: the query filtering courses on both the id and the owner
      returns a row. Since the id is the key, that is the owner stored for that id. A
      course id the engine cannot compare raises, and the handler answers False. */
  function ProfessorOwnsCourse(db: Database, professorId: int, courseId: Value): (r: bool)
    ensures r <==> && AsKey(courseId).Some? && AsKey(courseId).value in db.courses
                   && db.courses[AsKey(courseId).value].professorId == professorId
  {
    exists id :: AsKey(courseId) == Some(id) && id in db.courses && db.courses[id].professorId == professorId
  }

  /** The tasks map after publishing `taskId`. */
  function Published(tasks: map<int, Task>, taskId: int): (r: map<int, Task>)
    requires taskId in tasks
    ensures r.Keys == tasks.Keys && r[taskId].published
    ensures r[taskId] == tasks[taskId].(published := true)
    ensures forall id :: id in tasks && id != taskId ==> r[id] == tasks[id]
  {
    tasks[taskId := tasks[taskId].(published := true)]
  }

  /** Publishing is idempotent. */
  lemma PublishIdempotent(tasks: map<int, Task>, taskId: int)
    requires taskId in tasks
    ensures Published(Published(tasks, taskId), taskId) == Published(tasks, taskId)
  {
  }

  /** publish_task sets the flag of one task and returns its dict. */
  method PublishTask(db: Database, taskId: int) returns (r: Result<Dict>)
    requires db.Valid()
    modifies db`tasks
    ensures db.Valid()
    ensures r.Failure? <==> taskId !in old(db.tasks)
    ensures r.Failure? ==> r.error == ValueError(TaskNotFound) && db.tasks == old(db.tasks)
    ensures r.Success? ==>
              db.tasks == Published(old(db.tasks), taskId)
              && r.value == ToDict(taskId, db.tasks[taskId], false)
  {
    if taskId !in db.tasks {
      return Failure(ValueError(TaskNotFound));
    }
    db.tasks := Published(db.tasks, taskId);
    r := Success(ToDict(taskId, db.tasks[taskId], false));
  }

  predicate Matches(t: Task, courseId: Option<int>, sessionId: Option<int>, includeUnpublished: bool)
  {
    && (courseId.Some? ==> t.courseId == courseId.value)
    && (sessionId.Some? ==> t.sessionId == sessionId.value)
    && (includeUnpublished || t.published)
  }

  /** The ids of the tasks passing the filters, in primary-key order. */
  function MatchingIds(db: Database, courseId: Option<int>, sessionId: Option<int>, includeUnpublished: bool): (ids: seq<int>)
    reads db
    requires db.Valid()
    ensures forall id :: id in ids <==> id in db.tasks && Matches(db.tasks[id], courseId, sessionId, includeUnpublished)
    ensures forall i :: 0 <= i < |ids| ==> ids[i] in db.tasks
    ensures Increasing(ids)
  {
    var m := db.tasks;
    FilterIds(KeysBelow(m, db.nextTaskId), id => id in m && Matches(m[id], courseId, sessionId, includeUnpublished))
  }

  /** The dicts of the given tasks, in the given order. */
  function TaskDicts(tasks: map<int, Task>, ids: seq<int>, hideCorrectAnswer: bool): (r: seq<Dict>)
    requires forall i :: 0 <= i < |ids| ==> ids[i] in tasks
    ensures |r| == |ids|
    ensures forall i :: 0 <= i < |ids| ==> r[i] == ToDict(ids[i], tasks[ids[i]], hideCorrectAnswer)
  {
    seq(|ids|, i requires 0 <= i < |ids| => ToDict(ids[i], tasks[ids[i]], hideCorrectAnswer))
  }

  /** list_tasks: the tasks matching the given course and session, published ones only
      unless `includeUnpublished`; no entry carries the answer. */
  function ListTasks(db: Database, courseId: Value, sessionId: Value, includeUnpublished: bool): (r: Result<seq<Dict>>)
    reads db
    requires db.Valid()
    ensures r.Failure? <==> IdFilter(courseId).Failure? || IdFilter(sessionId).Failure?
    ensures r.Success? ==>
              var ids := MatchingIds(db, IdFilter(courseId).value, IdFilter(sessionId).value, includeUnpublished);
              (forall id :: id in ids ==> id in db.tasks) && r.value == TaskDicts(db.tasks, ids, true)
    ensures r.Success? ==> forall i :: 0 <= i < |r.value| ==> "correct_answer" !in r.value[i]
    ensures r.Success? && !includeUnpublished ==>
              forall i :: 0 <= i < |r.value| ==> "published" in r.value[i] && Truthy(r.value[i]["published"])
  {
    var c, s := IdFilter(courseId), IdFilter(sessionId);
    if c.Failure? then Failure(c.error)
    else if s.Failure? then Failure(s.error)
    else
      var ids := MatchingIds(db, c.value, s.value, includeUnpublished);
      assert forall i :: 0 <= i < |ids| ==> ids[i] in ids;
      ListingFacts(db.tasks, ids, includeUnpublished);
      Success(TaskDicts(db.tasks, ids, true))
  }

  /** Every entry of a listing lacks the answer; without `includeUnpublished` every entry
      is published. */
  lemma ListingFacts(tasks: map<int, Task>, ids: seq<int>, includeUnpublished: bool)
    requires forall i :: 0 <= i < |ids| ==> ids[i] in tasks
    requires !includeUnpublished ==> forall i :: 0 <= i < |ids| ==> tasks[ids[i]].published
    ensures forall i :: 0 <= i < |ids| ==> "correct_answer" !in TaskDicts(tasks, ids, true)[i]
    ensures !includeUnpublished ==>
              forall i :: 0 <= i < |ids| ==>
                "published" in TaskDicts(tasks, ids, true)[i] && Truthy(TaskDicts(tasks, ids, true)[i]["published"])
  {
    var r := TaskDicts(tasks, ids, true);
    forall i | 0 <= i < |ids|
      ensures "correct_answer" !in r[i]
      ensures !includeUnpublished ==> "published" in r[i] && Truthy(r[i]["published"])
    {
      assert r[i] == ToDict(ids[i], tasks[ids[i]], true);
    }
  }
}
