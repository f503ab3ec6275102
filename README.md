# DBWorkout backend core, modelled in Dafny

DBWorkout is a teaching tool for SQL. Professors own courses. They register database
schemas and build tables in them, create tasks (an exercise with a correct SQL answer,
a difficulty, a deadline and a published flag), and hold sessions. Students submit
answers to assigned tasks, and the submissions are judged and ranked on a leaderboard.
This project models the Flask backend's data layer:

- **schemas**: the schema service and routes. This covers the schema registry, the DDL
  statements committed for it, and the row and column endpoints that build SQL text;
- **tasks**: the ORM `Task` record and its `to_dict`, plus the task service and routes;
- **submissions**: the submission service and routes (submit, evaluate, listing,
  leaderboard);
- **sessions**: the session service.

The relational store is one class, `Store.Database`:

- **Tables.** Each table is a `map` from primary key to row, with its autoincrement
  counter beside it.
- **`courses` and `assignments`.** They are `const`, because code outside the model
  writes them.
- **`sqlLog`.** It records the raw statements the schema service commits, in order.
- **`gatewayLog`.** It records the calls the schema routes hand to the SQL gateway.

Each service and route operation is a method on that store. Its frame names exactly
the fields it may change. A Python function that raises becomes one that returns
`Failure(e)`, and strict typing shows up in four places:

- A transaction that fails leaves every table as it was, because the session is
  rolled back.
- Where a column would refuse a value at commit, the operation fails with
  `EngineError`. A `String` or `Text` column takes text, and also an integer or a
  boolean, which the engine's assignment cast stores as its text ("5", "true"). The
  model covers a value of a JSON type the column does not take (null for a NOT NULL
  text column, anything but date text for the deadline), a missing NOT NULL value, a label outside the difficulty enumeration, a foreign key with
  no row, and text longer than the 255 characters of a `String(255)` column (a task's
  title and tags).
- An id, whether it filters a query or is written to a row, is read the way the engine
  casts it to an `Integer` key (`Values.AsKey`): a JSON integer as it is, and decimal
  text such as "3", which is what the frontend's select boxes send, as the number it
  spells when that number is inside the 32-bit range. Any other value cannot be
  compared with the key and fails with `EngineError`. The range of integers written to
  rows is not otherwise modelled; ids and counters are unbounded.
- Whether the real database accepts generated DDL is a parameter, `engineOk` (for the
  gateway, `gatewayOk`).

The task, session and submission request bodies are `map<string, Value>` over JSON
scalars; the schema endpoints take typed payloads (see "Left out"). The model also spells out
Python's own rules:

- `data.get` and truthiness;
- `str()` of values;
- `strip().lower()`;
- `", ".join`;
- the rendering of dates.

Whatever each one outputs keeps enough information to be read back.

Where the code and its documented behaviour disagree, the model follows the code:

- **500 instead of 404.**
  - `GET /schemas/<id>` and `GET /schemas/<id>/tables` answer 500 for an unknown schema.
    The lookup raises instead of returning `None`.
  - `GET /tasks/<id>` answers 500 for an unknown task, and the update and delete task
    routes do the same, so their `if not task` branches are never taken.
- **A 400 on evaluate.** An unknown submission on evaluate is a 400.
- **A table list that is always empty.** `fetch_tables` always lists no tables, because
  the summary it reads has no `"tables"` key.
- **Missing role gates and checks.**
  - The alter-table and drop-table routes have no role gate.
  - Toggling the published flag checks the role but not course ownership.
- **Unquoted names.** `create_schema` does not quote a name that contains a space. The
  table operations do.
- **`alter_sql` only.** Altering a table accepts only a raw `alter_sql` clause.
- **Answers hidden from everyone when listing.** `list_tasks` hides the answer from
  everyone, professors included.
- **`published` is not read at creation.** `create_task` ignores a `published` key in
  the body, so a new task is always unpublished.
- **Every new submission starts as incorrect.** `create_submission` stores `is_correct =
  False` whatever it is given; the comment at line 20 says this is deliberate. So a
  submission reaches the leaderboard only after an evaluation has run.
- **Deleting a session in use.** Deleting a session that a task still refers to is
  refused. The task's `session_id` is NOT NULL, so the ORM cannot clear it. The
  `Session` model is not part of this model; its relationship to tasks is assumed to
  have no delete cascade.

The routes import `execute_sql_on_schema` and `insert_into_table` from the schema
service, which does not define them. They are modelled as an external gateway.

## Model

| member | source | states |
|---|---|---|
| Values.IdFilter | backend/app/services/task_service.py:149-152 | a falsy filter argument applies no filter; a non-zero integer filters on itself; non-empty text filters on the number it spells when it is decimal and inside the 32-bit range of an `Integer` column, and is an engine error otherwise; any other truthy value is an engine error; the only error is an engine error |
| Values.AsKey | backend/app/services/task_service.py:115-118 | an id reads as a key exactly when it is a JSON integer or decimal text inside the 32-bit range, and text is then read as a number inside that range |
| Values.IdFilterReadsDecimal | backend/app/routes/tasks.py:66-67 | a query-string id inside the 32-bit range, written in decimal, filters on exactly the integer it spells |
| Values.IdFilterRefusesWide | backend/app/db/models/task.py:12-14 | a decimal id outside the 32-bit range of the `Integer` columns cannot be compared with them: an engine error |
| Text.StripLeft | backend/app/services/submission_service.py:95 | the result is a suffix of the input; everything dropped is whitespace, and the result does not start with whitespace |
| Text.StripRight | backend/app/services/submission_service.py:95 | the result is a prefix of the input; everything dropped is whitespace, and the result does not end with whitespace |
| Text.LowerChar | backend/app/services/submission_service.py:95 | upper-case ASCII letters map to their lower-case letter; every other character is unchanged, and whitespace stays whitespace |
| Text.NormalizeShape | backend/app/services/submission_service.py:95 | `strip().lower()` has no surrounding whitespace and no upper-case ASCII letter |
| Text.NormalizeIdempotent | backend/app/services/submission_service.py:95 | normalising an answer twice gives the same text as normalising it once |
| Text.JoinRoundTrip | backend/app/services/schema_service.py:77 | splitting a `", "`-joined list at its commas and stripping each piece gives back every item in order, when the items contain no comma and no surrounding whitespace |
| Text.IntToStringRoundTrip | backend/app/routes/schemas.py:169 | `str(i)` reads back as `i`, negative numbers included |
| Text.FixedDigitsRoundTrip | backend/app/db/models/task.py:38 | a zero-padded date field reads back as the number it was rendered from |
| Text.DigitsFixedRoundTrip | backend/app/db/models/task.py:38 | re-rendering the number that a field of digits spells gives back that exact field, leading zeros included |
| TaskModel.ParseDifficulty | backend/app/db/models/task.py:16 | the difficulty column accepts exactly "easy", "medium" and "hard"; an accepted label is the name of the value stored |
| TaskModel.DifficultyRoundTrip | backend/app/db/models/task.py:16 | every difficulty is stored and shown under a name the column accepts back as the same difficulty |
| TaskModel.RenderDate | backend/app/db/models/task.py:38 | `str(deadline)` is ten characters long, `YYYY-MM-DD`, with dashes at positions 4 and 7 |
| TaskModel.ParseDate | backend/app/db/models/task.py:18 | an accepted deadline text denotes a date inside `datetime.date`'s range |
| TaskModel.DateRoundTrip | backend/app/db/models/task.py:38 | a valid date rendered with `str()` is read back as the same date |
| TaskModel.ParseDateRendered | backend/app/db/models/task.py:38 | a deadline stored from an accepted text is shown as exactly that text |
| TaskModel.ToDict | backend/app/db/models/task.py:28-44 | the dict has the eleven fixed keys, plus "correct_answer" exactly when not hidden; "task_id" is the row's id; "published" is truthy exactly when the task is published; every value is its column's value |
| TaskModel.HideRemovesOnlyAnswer | backend/app/db/models/task.py:42-43 | the hidden view is the full view with only "correct_answer" removed |
| TaskModel.ToDictRoundTrip | backend/app/db/models/task.py:29-43 | the unhidden dict determines the id and every column of the task |
| SchemaService.Quote | backend/app/services/schema_service.py:65-70 | a name is used verbatim exactly when it has no space; otherwise it is the name wrapped in one pair of double quotes |
| SchemaService.QuoteRoundTrip | backend/app/services/schema_service.py:65-70 | the original name can always be recovered from its quoted form |
| SchemaService.ColumnDefinitionsInOrder | backend/app/services/schema_service.py:77 | the column list of CREATE TABLE holds one `name type` per column, in payload order |
| SchemaService.CreateSchema | backend/app/services/schema_service.py:5-28 | "schema_name and professor_id are required" unless both are truthy; it succeeds exactly when both are given and the engine accepts; on success exactly one registry row (fresh id, name, creator) and one `CREATE SCHEMA IF NOT EXISTS name;` statement are added; on failure nothing is kept |
| SchemaService.ListSchemas | backend/app/services/schema_service.py:31-37 | exactly the schemas created by the professor, each with its id and name, in ascending id order |
| SchemaService.GetSchemaById | backend/app/services/schema_service.py:40-48 | the id and name of an existing schema, or "Schema not found" exactly when there is none |
| SchemaService.CreateTableInSchema | backend/app/services/schema_service.py:51-91 | "Schema not found" first, then "table_name and columns are required"; it succeeds exactly when the schema exists, a name and a non-empty column list are given and the engine accepts; then it logs the schema statement and the CREATE TABLE with quoted names, and returns the quoted table name; on failure no statement is logged |
| SchemaService.AlterTableInSchema | backend/app/services/schema_service.py:94-123 | "Schema not found", then "alter_sql is required"; on success it logs `ALTER TABLE schema.table <alter_sql>;` with quoted names; on failure nothing is logged |
| SchemaService.DeleteTableFromSchema | backend/app/services/schema_service.py:126-154 | it fails only for an unknown schema or an engine refusal; on success it logs `DROP TABLE IF EXISTS schema.table;` |
| SchemaRoutes.SetClauseInOrder | backend/app/routes/schemas.py:168 | the SET clause keeps every `key = 'value'` assignment of the update dict, in its order |
| SchemaRoutes.RowIdRoundTrip | backend/app/routes/schemas.py:169 | the row id written into the WHERE clause is read back unchanged |
| SchemaRoutes.CallGateway | backend/app/routes/schemas.py:170 | the gateway either records exactly the call it is given and reports success, or records nothing and reports failure |
| SchemaRoutes.CreateSchemaRoute | backend/app/routes/schemas.py:30-45 | non-professors get 403 and nothing changes; 201 exactly when a professor with a non-zero id gives a non-empty name and the engine accepts, and the new row's owner is the caller; every other professor request is 400 with nothing changed |
| SchemaRoutes.ListSchemasRoute | backend/app/routes/schemas.py:48-58 | a professor sees exactly their own schemas; everyone else gets an empty list |
| SchemaRoutes.GetSchemaDetails | backend/app/routes/schemas.py:61-70 | 200 with the schema's id and name exactly when it exists, otherwise 500 |
| SchemaRoutes.FetchTables | backend/app/routes/schemas.py:193-205 | the table list is always empty; 200 exactly when the schema exists, otherwise 500 |
| SchemaRoutes.CreateTableRoute | backend/app/routes/schemas.py:73-87 | non-professors get 403; 201 exactly when the service succeeds, with its two statements logged; any other professor request is 400 with nothing changed; no store field other than `sqlLog` can change |
| SchemaRoutes.AlterTableRoute | backend/app/routes/schemas.py:90-98 | open to every role; 200 exactly when the service succeeds, with its statement logged, otherwise 400 with nothing changed; no store field other than `sqlLog` can change |
| SchemaRoutes.DeleteTableRoute | backend/app/routes/schemas.py:101-108 | open to every role; 200 exactly when the schema exists and the engine accepts, otherwise 400 with nothing changed; no store field other than `sqlLog` can change |
| SchemaRoutes.ExecuteSqlRoute | backend/app/routes/schemas.py:111-129 | 403 for non-professors, 400 without a command; 200 exactly when the gateway accepts, and then it records that single call; otherwise nothing changes; a professor's request the gateway refuses is 400 with nothing changed; no store field other than `gatewayLog` can change |
| SchemaRoutes.InsertRowsRoute | backend/app/routes/schemas.py:132-150 | 403 for non-professors; 400 unless `rows` is a non-empty list; 201 exactly when the gateway accepts the insert, which is then recorded; a professor's request the gateway refuses is 400 with nothing changed; no store field other than `gatewayLog` can change |
| SchemaRoutes.UpdateRowRoute | backend/app/routes/schemas.py:154-174 | 403 for non-professors; 400 unless `updates` is a non-empty dict; on 200 the gateway has received `UPDATE table SET ... WHERE id = n;`; a professor's request the gateway refuses is 400 with nothing changed; no store field other than `gatewayLog` can change |
| SchemaRoutes.DeleteRowRoute | backend/app/routes/schemas.py:177-191 | 403 for non-professors; on 200 the gateway has received `DELETE FROM table WHERE id = n;`; a professor's request the gateway refuses is 400 with nothing changed; no store field other than `gatewayLog` can change |
| SchemaRoutes.AddColumnRoute | backend/app/routes/schemas.py:207-228 | 403 for non-professors; 400 unless both name and type are given; on 200 the gateway has received `ALTER TABLE table ADD COLUMN name type;`; a professor's request the gateway refuses is 400 with nothing changed; no store field other than `gatewayLog` can change |
| SchemaRoutes.DeleteColumnRoute | backend/app/routes/schemas.py:230-244 | 403 for non-professors; on 200 the gateway has received `ALTER TABLE table DROP COLUMN name;`; a professor's request the gateway refuses is 400 with nothing changed; no store field other than `gatewayLog` can change |
| TaskService.BuildTask | backend/app/services/task_service.py:12-42 | a new task is never published; its difficulty is "medium" when the body has no difficulty key or a null one, since the insert leaves a None column to its default; each id column holds the id as the engine casts it, an integer or decimal text; a built task's title and tags fit their 255-character columns, and a body with a longer title or tags text builds nothing; an integer or boolean for a text column is stored as its text |
| TaskService.ProfessorOwnsCourse | backend/app/services/task_service.py:111-124 | true exactly when the course exists and its owner is the given professor |
| TaskService.CreatedTaskEchoesPayload | backend/app/services/task_service.py:32-47 | the created task's dict shows every supplied column as the reloaded row holds it: a text id as the integer it spells, an integer or boolean in a text column as its text, a null difficulty as "medium", and every other value as the payload gave it, the deadline text included |
| TaskService.CreateTask | backend/app/services/task_service.py:8-53 | "Missing required fields for task creation" unless the six fields are truthy; "Schema with ID n does not exist." for a schema id, integer or decimal text, that names no schema; it succeeds exactly when these validations pass and every column accepts its value (an integer or boolean is accepted as text by the text columns), the 255-character title and tags included; every other failure is an engine error; on success the one new row sits at a fresh id and its full dict is returned; on failure the table is unchanged |
| TaskService.InsertTask | backend/app/services/task_service.py:44-45 | the new row takes the next id, which no stored task has; the counter advances by one and every other task is left as it was |
| TaskService.GetTaskById | backend/app/services/task_service.py:57-65 | "Task not found" exactly for an unknown id; otherwise the task's full dict, answer included |
| TaskService.UpdateKeepsPlacement | backend/app/services/task_service.py:75-84 | an update never moves a task to another course, session or schema, and never changes its creation time |
| TaskService.UpdateStoresSupplied | backend/app/services/task_service.py:75-84 | after an update, every supplied updatable key shows the supplied value as its column stores it: an integer or boolean in a text column as its text, every other value exactly as given |
| TaskService.ColumnTextOfInt | backend/app/db/models/task.py:10-17 | the text a `String` or `Text` column stores for an integer reads back as that integer |
| TaskService.UpdateKeepsUnsupplied | backend/app/services/task_service.py:75-84 | after an update, every key of the dict that was not supplied keeps its old value |
| TaskService.UpdateIdempotent | backend/app/services/task_service.py:75-84 | applying the same update twice gives the same task as applying it once |
| TaskService.EmptyUpdateIsIdentity | backend/app/services/task_service.py:75-84 | an empty body leaves the task unchanged |
| TaskService.ApplyUpdate | backend/app/services/task_service.py:75-84 | an update keeps a task inside its 255-character columns, and a supplied title or tags text longer than that, counting the text an integer or boolean is cast to, is refused |
| TaskService.UpdateTask | backend/app/services/task_service.py:68-92 | "Task not found" for an unknown id; it succeeds exactly when every supplied value fits its column, the 255-character title and tags included; it then replaces only that row with the updated task and returns its dict; otherwise the table is unchanged |
| TaskService.DeleteTask | backend/app/services/task_service.py:95-108 | it fails with "Task not found" exactly when the id is unknown; otherwise exactly that task is removed |
| TaskService.Published | backend/app/services/task_service.py:135 | the same task ids; the given task becomes published with every other column kept, and every other task is unchanged |
| TaskService.PublishIdempotent | backend/app/services/task_service.py:126-143 | publishing a task twice is the same as publishing it once |
| TaskService.PublishTask | backend/app/services/task_service.py:126-143 | "Task not found" exactly for an unknown id; otherwise only that task's flag is set, and its dict is returned |
| TaskService.MatchingIds | backend/app/services/task_service.py:148-158 | exactly the tasks of the given course and session (each filter only when given), published ones unless unpublished ones are included, in ascending id order |
| TaskService.TaskDicts | backend/app/services/task_service.py:159 | one dict per selected task, in the selected order |
| TaskService.ListTasks | backend/app/services/task_service.py:145-161 | it fails exactly when a filter cannot be compared with an id; otherwise it returns the dicts of the matching tasks; no entry carries the answer, and every entry is published unless unpublished ones were asked for |
| TaskRoutes.FindMissingField | backend/app/routes/tasks.py:40-43 | None exactly when the body has all eight required keys; otherwise the position of the first one missing |
| TaskRoutes.CreateTaskRoute | backend/app/routes/tasks.py:33-60 | 403 for non-professors; 400 naming the first missing required key; 400 for an unknown difficulty label; 403 when the caller does not own the course, whose id may be an integer or decimal text; past these gates, 201 exactly when create_task succeeds (integer or boolean values for the text columns included), its two validation errors are 400 with their message and every other failure is 500; on 201 the new task is returned with its answer; otherwise no task is stored |
| TaskRoutes.PublishedOnlyDefault | backend/app/routes/tasks.py:68 | without a `published` argument the published-only filter is off; with one, it is on exactly when the text is "true" in any mix of letter cases |
| TaskRoutes.KeepPublished | backend/app/routes/tasks.py:79 | every published dict is kept as often as it is listed and no other dict is kept; never more entries than before |
| TaskRoutes.KeptFrom | backend/app/routes/tasks.py:79 | the positions of exactly the published entries, in strictly increasing order |
| TaskRoutes.KeepPublishedInOrder | backend/app/routes/tasks.py:79 | the i-th kept dict is the list's entry at the i-th published position, so the filter keeps the list's order |
| TaskRoutes.KeepPublishedOfPublished | backend/app/routes/tasks.py:78-79 | filtering a list that is already all published keeps every entry, in order |
| TaskRoutes.RedactAnswers | backend/app/routes/tasks.py:82-84 | every dict loses "correct_answer" and nothing else; the list keeps its length and order |
| TaskRoutes.RedactWithoutAnswer | backend/app/routes/tasks.py:82-84 | removing the answer from dicts that have none leaves the list as it is |
| TaskRoutes.ListAllTasks | backend/app/routes/tasks.py:65-89 | 200 exactly when the service's listing succeeds, otherwise 500 with nothing; students and `published=true` requests see only published tasks; nobody sees an answer |
| TaskRoutes.ListPublishedTasks | backend/app/routes/tasks.py:192-209 | 200 exactly when the listing succeeds; only published tasks, and never an answer |
| TaskRoutes.GetTaskDetails | backend/app/routes/tasks.py:94-109 | 200 exactly when the task exists, otherwise 500; a student gets exactly the hidden view, everyone else the full view |
| TaskRoutes.UpdateTaskRoute | backend/app/routes/tasks.py:114-133 | 403 for non-professors; 500 for an unknown task; 403 for a professor who does not own the task's course; 200 exactly when the owner's update fits the columns, an integer or boolean being stored as text in a text column, and then only that task changes |
| TaskRoutes.DeleteTaskRoute | backend/app/routes/tasks.py:138-156 | 403 for non-professors; 500 for an unknown task; 200 exactly when the caller owns the task's course, and then exactly that task is removed |
| TaskRoutes.TogglePublishTask | backend/app/routes/tasks.py:160-188 | 403 for non-professors; 400 without a "published" key; 404 for an unknown task; 200 exactly when the flag is a boolean, and then only that task's flag changes; a flag of another type is 500 with nothing changed |
| SubmissionService.SubmissionView | backend/app/services/submission_service.py:72-78 | the listed view is the created view without "time_taken" |
| SubmissionService.NewSubmission | backend/app/services/submission_service.py:17-22 | a stored submission starts as not correct, belongs to an existing assignment, and keeps the time it was given |
| SubmissionService.CreateSubmission | backend/app/services/submission_service.py:7-38 | the assignment_id / submitted_query / time_taken error exactly when the validation fails; it succeeds exactly when the validation passes and the row fits its columns; then exactly one submission is added at a fresh id; otherwise nothing changes |
| SubmissionService.SaveSubmission | backend/app/routes/submissions.py:52-57 | records a judged submission with the time it is given (absent for an incorrect answer); it succeeds exactly when the assignment exists |
| SubmissionService.SubmissionViews | backend/app/services/submission_service.py:51-60 | one view per selected submission, in the selected order |
| SubmissionService.MatchingSubmissionIds | backend/app/services/submission_service.py:44-50 | exactly the submissions whose assignment matches the given task and student, in ascending id order |
| SubmissionService.ListSubmissions | backend/app/services/submission_service.py:41-62 | it fails exactly when a filter cannot be compared with an id; otherwise it returns the views of the matching submissions, none of which shows a time |
| SubmissionService.GetSubmissionById | backend/app/services/submission_service.py:65-80 | "Submission not found" exactly for an unknown id; otherwise its view, without a time |
| SubmissionService.MatchingIgnoresLayout | backend/app/services/submission_service.py:95 | replacing a query or an answer by its normal form never changes the verdict |
| SubmissionService.Judged | backend/app/services/submission_service.py:95 | only the judged submission changes, and only its flag, which becomes true exactly when the query matches the answer |
| SubmissionService.JudgeIdempotent | backend/app/services/submission_service.py:83-103 | evaluating a submission twice is the same as evaluating it once |
| SubmissionService.EvaluateSubmission | backend/app/services/submission_service.py:83-103 | "Submission not found", then an attribute error for a missing assignment, then "Task not found for the submission"; it succeeds exactly when the assignment's task exists, and then only the flag changes, to the verdict it returns |
| SubmissionService.UpdateSubmissionCorrectness | backend/app/services/submission_service.py:105-118 | "Submission not found" exactly for an unknown id; otherwise only that submission's flag changes |
| SubmissionService.GetTaskWithSchema | backend/app/services/submission_service.py:122-150 | None exactly for an unknown task; otherwise the task's full dict plus "schema_name", which is the schema's name or None |
| SubmissionRoutes.ShadowedTaskLacksSchemaName | backend/app/routes/submissions.py:33-39 | the task dict the imported lookup returns never has a "schema_name" key |
| SubmissionRoutes.TaskOfAssignmentAsWritten | backend/app/routes/submissions.py:33 | the route's lookup finds a task exactly when a task has the assignment's id, and judges against that task's answer |
| SubmissionRoutes.SubmitAsWritten | backend/app/routes/submissions.py:21-68 | every request is answered 400; the missing-field message is given exactly where line 30 gives it; an assignment id, integer or decimal text, that names no task gets "Task not found" |
| SubmissionRoutes.TaskOfAssignment | backend/app/services/submission_service.py:90 | a task is found exactly when the assignment exists and its task exists, and its answer is that task's answer |
| SubmissionRoutes.AssignmentIdIsNotTaskId | backend/app/routes/submissions.py:101-104 | an assignment of task 2 whose id is 1 is judged against task 1's answer by the route's lookup |
| SubmissionRoutes.SubmissionPayload | backend/app/routes/submissions.py:52-57 | the body carries the verdict; for a correct answer, create_submission accepts it exactly when the id and query are truthy and a time is given |
| SubmissionRoutes.IncorrectVerdictRejected | backend/app/routes/submissions.py:52-57 | the body built for an incorrect answer always fails create_submission's check |
| SubmissionRoutes.SubmitLookup | backend/app/services/submission_service.py:90 | a task is found exactly when the integer assignment id names an assignment whose task exists, and the answer is that task's |
| SubmissionRoutes.Submit | backend/app/routes/submissions.py:21-68 | 400 on missing fields; 404 when the assignment has no task; 400 when the task has no schema name; 200 exactly when these pass and the query and time have their column types; then the validator's verdict is returned and one submission is stored at the next id, with its time only when correct; nothing is stored on any other path |
| SubmissionRoutes.EvaluateAsWritten | backend/app/routes/submissions.py:92-123 | every request is answered 400 |
| SubmissionRoutes.Evaluate | backend/app/routes/submissions.py:92-123 | 400 for an unknown submission; 404 when its assignment has no task; otherwise only its flag changes, to the validator's verdict |
| SubmissionRoutes.ListAll | backend/app/routes/submissions.py:72-79 | 200 exactly when both filters can be compared with an id, with the views of the matching submissions; otherwise 400 with nothing |
| SubmissionRoutes.GetDetails | backend/app/routes/submissions.py:83-88 | 200 with the view exactly when the submission exists, otherwise 404 |
| SubmissionRoutes.Insert | backend/app/routes/submissions.py:137 | inserting into a time-sorted list keeps it sorted and adds exactly that entry |
| SubmissionRoutes.SortByTime | backend/app/routes/submissions.py:137 | the result is sorted by ascending time, with no time last, and is a permutation of the input |
| SubmissionRoutes.LeaderIds | backend/app/routes/submissions.py:134-136 | exactly the correct submissions whose assignment exists and belongs to the task |
| SubmissionRoutes.Entries | backend/app/routes/submissions.py:141-147 | one entry per selected submission, with its assignment, time and flag |
| SubmissionRoutes.PermutedCorrect | backend/app/routes/submissions.py:136-137 | reordering the entries keeps all of them correct |
| SubmissionRoutes.Ranking | backend/app/routes/submissions.py:133-147 | the leaderboard is a permutation of the task's correct submissions, sorted by ascending time, and every entry is correct |
| SubmissionRoutes.Leaderboard | backend/app/routes/submissions.py:126-150 | 400 with nothing when task_id is missing or cannot be compared with an id; otherwise 200 with that task's ranking |
| SessionService.CreateSession | backend/app/services/session_service.py:7-37 | the three-field error unless all are truthy; an engine error for a course id that is neither an integer nor decimal text; "Unauthorized - You do not own this course" for a course the caller does not own; it succeeds exactly when the caller owns the course and the name and date are text; on success exactly one session is added at a fresh id, and the result echoes the payload's own values |
| SessionService.CourseSessionIds | backend/app/services/session_service.py:47-49 | exactly the sessions of the course, in ascending id order |
| SessionService.SessionViews | backend/app/services/session_service.py:51-59 | one view per selected session, in the selected order |
| SessionService.GetSessions | backend/app/services/session_service.py:40-61 | "course_id is required" for a falsy course; it succeeds exactly when the course id can be compared with an id, and then it returns the views of exactly that course's sessions |
| SessionService.ApplySessionUpdate | backend/app/services/session_service.py:75-76 | the course never changes; name and date take the supplied value when their key is present and keep theirs otherwise; only a supplied non-text value is refused |
| SessionService.SessionUpdateLaws | backend/app/services/session_service.py:75-76 | an update without either key changes nothing; applying an update twice is applying it once |
| SessionService.UpdateSession | backend/app/services/session_service.py:64-89 | "Session not found", then the ownership error; it succeeds exactly when the caller owns the course and the values fit; then only that session changes, and its view is returned |
| SessionService.DeleteSession | backend/app/services/session_service.py:92-108 | "Session not found", then the ownership error; it succeeds exactly when the caller owns the course and no task uses the session, and then exactly that session is removed |
| SessionService.GetSessionById | backend/app/services/session_service.py:110-123 | None exactly for an unknown id; otherwise the session's view |

## Left out

- **Authentication.** `get_jwt_identity`, JSON decoding of the identity, and the JWT
  itself are left out. The caller is a `Principal` parameter.
- **Out-of-scope parts of the application.** The course and session routes, the auth
  routes and the frontend are not part of this model.
- **Real SQL execution.** Executing SQL against a real engine is not modelled:
  - whether generated DDL is accepted is the `engineOk` parameter;
  - the gateway's results and the rows of user-created tables are not modelled;
  - the gateway is a log of the calls it accepted.
- **`validate_query`.** `app/utils/query_executor.py` is not part of this model. It is
  the `Validator` parameter of the submission routes.
- **Clocks.** The `created_at` and `submitted_at` defaults are `now` parameters, already
  rendered as text.
- **Concurrency, sessions and logging.** Concurrent requests, connection handling and
  `logging` calls are left out. Each operation is one atomic transaction.
- **`request.json` being None.** That case is not modelled; the body is always a dict.
- **Schema endpoint payloads.** The schema routes and service take typed payloads:
  `SchemaPayload`, `TablePayload` with a `seq<Column>`, and `Option<string>` for
  `alter_sql`, `sql_command` and column names. A non-text name, or a column entry
  without "name" or "type" (a KeyError that the routes answer with 400), cannot be
  expressed.
- **SessionService.ApplySessionUpdate:** the `Session` model is not part of this model.
  A non-text session name or date is refused, whether or not its column would cast it.
  `SessionService.CreateSession` refuses it the same way.
- **Values.AsKey:** like IdFilter below, only integers and in-range decimal text are
  read as keys; the engine's casts of other text forms are not modelled.
- **Values.IdFilter:** the engine's casts for other types are not modelled. Only an
  integer, or decimal text (optional minus, no spaces or plus sign) inside the 32-bit
  range of an `Integer` column, compares with an integer key. Anything else is an
  `EngineError`.
- **TaskService.ApplyUpdate:** an explicit JSON `null` for `published` is refused
  (modelled as an engine error), although the column is nullable and the ORM would
  store NULL. The integers 0 and 1, which the `Boolean` column would also take, are
  refused the same way. `Task.published` is a `bool`, so a NULL flag has no value here.
- **TaskService.UpdateTask:** a body `{"published": null}` fails, whereas the source
  stores NULL and succeeds. The cause is the same refusal in ApplyUpdate.
- **TaskRoutes.TogglePublishTask:** a body `{"published": null}` is answered 500 here,
  like any flag that is not a JSON boolean. The source stores NULL and answers 200, and
  the column would also take 0 and 1. The model's 200 needs a boolean flag.
- **TaskModel.ParseDate:** a deadline is accepted only as `YYYY-MM-DD` text. Days are
  not checked against the length of the month, and the other formats the engine may
  accept are not modelled.
- **SubmissionService.NewSubmission:** `time_taken` is an integer here. A
  floating-point time is not modelled. The `Submission` model is not part of this model, and
  `submitted_query` must be text: an integer or boolean query is refused, whether or
  not its column would cast it.
- **Store.KeysBelow:** listings come back in ascending primary key. The source issues no
  ORDER BY, so the engine's real order is not modelled.
- **SubmissionRoutes.SortByTime:** entries with equal times keep the order the engine
  happened to return them in, which the model fixes as id order; the engine's tie order
  is not modelled.
- **Text.LowerChar:** `str.lower()` is modelled for ASCII letters only. Unicode case
  mapping has no counterpart here.
- **TaskService.DeleteTask:** assignments that still refer to a deleted task are not
  touched. The foreign-key behaviour of the `assignments` table is outside the model.
- **SessionService.SessionView:** `session_date` is kept as the text it was given. The
  column's date type and its rendering are not modelled.

## Findings

| source | as written | input that shows it | evidently intended | confidence | as-written member | corrected member |
|---|---|---|---|---|---|---|
| backend/app/routes/submissions.py:14 | The import at line 14 rebinds `get_task_by_id` to the task service's version, which raises for an unknown id and never returns "schema_name". So `task["schema_name"]` at lines 39 and 109 raises KeyError, and submit and evaluate answer 400 to every request. | any request with all fields, for an existing task: 400, nothing stored | use the submission service's `get_task_by_id` imported at line 12, which adds "schema_name" and returns None for an unknown task (404 at lines 36 and 106) | high, not executed | SubmissionRoutes.SubmitAsWritten, SubmissionRoutes.EvaluateAsWritten, SubmissionRoutes.ShadowedTaskLacksSchemaName | SubmissionRoutes.Submit, SubmissionRoutes.Evaluate |
| backend/app/routes/submissions.py:33 | The task is looked up with the assignment id, at lines 33 and 104. | assignment 1 binds task 2, and task 1 exists: the query is judged against task 1's answer "SELECT 1" instead of "SELECT 2" | resolve the task through the assignment's `task_id`, as `evaluate_submission` does at line 90 of the submission service | medium, not executed | SubmissionRoutes.TaskOfAssignmentAsWritten, SubmissionRoutes.AssignmentIdIsNotTaskId | SubmissionRoutes.TaskOfAssignment |
| backend/app/routes/submissions.py:55 | For an incorrect answer, `time_taken` is set to None. `create_submission` then raises at line 14 of the service, so an incorrect submission is never recorded and the route answers 400. | any incorrect answer with a time: the body carries `time_taken: None`, which that validation refuses | record the submission and leave its time NULL when the answer is incorrect | high, not executed | SubmissionRoutes.SubmissionPayload, SubmissionRoutes.IncorrectVerdictRejected | SubmissionRoutes.Submit, SubmissionService.SaveSubmission |
