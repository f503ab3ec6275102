/** The Task record of the ORM model and its `to_dict(hide_correct_answer)` view. */
module TaskModel {
  import opened Wrappers
  import opened Values
  import Text

  /** The `task_difficulty` enumeration column. */
  datatype Difficulty = Easy | Medium | Hard

  /** The column default. */
  const DefaultDifficulty: Difficulty := Medium

  function DifficultyName(d: Difficulty): string
  {
    match d
    case Easy => "easy"
    case Medium => "medium"
    case Hard => "hard"
  }

  /** The enumeration accepts exactly the three labels. */
  function ParseDifficulty(s: string): (r: Option<Difficulty>)
    ensures r.Some? <==> s in {"easy", "medium", "hard"}
    ensures r.Some? ==> DifficultyName(r.value) == s
  {
    if s == "easy" then Some(Easy)
    else if s == "medium" then Some(Medium)
    else if s == "hard" then Some(Hard)
    else None
  }

  lemma DifficultyRoundTrip(d: Difficulty)
    ensures ParseDifficulty(DifficultyName(d)) == Some(d)
  {
  }

  /** A `datetime.date`. */
  datatype Date = Date(year: nat, month: nat, day: nat)

  /** The range `datetime.date` admits (days are not checked against the month). */
  predicate ValidDate(d: Date)
  {
    1 <= d.year <= 9999 && 1 <= d.month <= 12 && 1 <= d.day <= 31
  }

  /** `str(date)`: `YYYY-MM-DD`, each field zero-padded. */
  function RenderDate(d: Date): (s: string)
    ensures |s| == 10 && s[4] == '-' && s[7] == '-'
  {
    Text.FixedDigits(d.year, 4) + "-" + Text.FixedDigits(d.month, 2) + "-" + Text.FixedDigits(d.day, 2)
  }

  /** The `YYYY-MM-DD` text a Date column accepts, read as a date of the valid range. */
  function ParseDate(s: string): (r: Option<Date>)
    ensures r.Some? ==> ValidDate(r.value)
  {
    if |s| == 10 && s[4] == '-' && s[7] == '-'
       && Text.AllDigits(s[..4]) && Text.AllDigits(s[5..7]) && Text.AllDigits(s[8..])
       && ValidDate(Date(Text.ParseDigits(s[..4]), Text.ParseDigits(s[5..7]), Text.ParseDigits(s[8..])))
    then Some(Date(Text.ParseDigits(s[..4]), Text.ParseDigits(s[5..7]), Text.ParseDigits(s[8..])))
    else None
  }

  /** The rendering of a date loses nothing. */
  lemma DateRoundTrip(d: Date)
    requires ValidDate(d)
    ensures ParseDate(RenderDate(d)) == Some(d)
  {
    var s := RenderDate(d);
    assert s[..4] == Text.FixedDigits(d.year, 4);
    assert s[5..7] == Text.FixedDigits(d.month, 2);
    assert s[8..] == Text.FixedDigits(d.day, 2);
    Text.FixedDigitsRoundTrip(d.year, 4);
    Text.FixedDigitsRoundTrip(d.month, 2);
    Text.FixedDigitsRoundTrip(d.day, 2);
  }

  /** A date text that is accepted is exactly the rendering of the date it denotes, so
      `str(deadline)` gives back the text the date was stored from. */
  lemma ParseDateRendered(s: string)
    requires ParseDate(s).Some?
    ensures RenderDate(ParseDate(s).value) == s
  {
    Text.DigitsFixedRoundTrip(s[..4]);
    Text.DigitsFixedRoundTrip(s[5..7]);
    Text.DigitsFixedRoundTrip(s[8..]);
    assert s == s[..4] + "-" + s[5..7] + "-" + s[8..];
  }

  /** One row of the `tasks` table (its primary key is the key of the store's map).
      `createdAt` is the clock reading taken at insertion, already rendered. */
  datatype Task = Task(
    title: string,
    description: string,
    courseId: int,
    sessionId: int,
    schemaId: int,
    correctAnswer: string,
    difficulty: Difficulty,
    tags: Option<string>,
    deadline: Date,
    createdAt: string,
    published: bool)

  /** The keys `to_dict` always writes. */
  const TaskKeys: set<string> := {
    "task_id", "task_title", "task_description", "course_id", "session_id", "schema_id",
    "difficulty", "tags", "deadline", "created_at", "published"
  }

  /** The key the submission service adds is not one `to_dict` writes. */
  lemma SchemaNameIsNew()
    ensures "schema_name" !in TaskKeys + {"correct_answer"}
  {
  }

  function TagsValue(tags: Option<string>): Value
  {
    match tags
    case None => VNull
    case Some(t) => VStr(t)
  }

  /** The value `to_dict` writes under `key`. */
  function Column(id: int, t: Task, key: string): Value
  {
    if key == "task_id" then VInt(id)
    else if key == "task_title" then VStr(t.title)
    else if key == "task_description" then VStr(t.description)
    else if key == "course_id" then VInt(t.courseId)
    else if key == "session_id" then VInt(t.sessionId)
    else if key == "schema_id" then VInt(t.schemaId)
    else if key == "difficulty" then VStr(DifficultyName(t.difficulty))
    else if key == "tags" then TagsValue(t.tags)
    else if key == "deadline" then VStr(RenderDate(t.deadline))
    else if key == "created_at" then VStr(t.createdAt)
    else if key == "published" then VBool(t.published)
    else if key == "correct_answer" then VStr(t.correctAnswer)
    else VNull
  }

  /** `task.to_dict(hide_correct_answer)`. */
  function ToDict(id: int, t: Task, hideCorrectAnswer: bool): (d: Dict)
    ensures d.Keys == if hideCorrectAnswer then TaskKeys else TaskKeys + {"correct_answer"}
    ensures "correct_answer" in d <==> !hideCorrectAnswer
    ensures "published" in d && "task_id" in d
    ensures Truthy(d["published"]) <==> t.published
    ensures d["task_id"] == VInt(id)
    ensures forall k :: k in d ==> d[k] == Column(id, t, k)
  {
    var keys := if hideCorrectAnswer then TaskKeys else TaskKeys + {"correct_answer"};
    map k | k in keys :: Column(id, t, k)
  }

  /** Hiding the answer removes that one key and changes nothing else. */
  lemma HideRemovesOnlyAnswer(id: int, t: Task)
    ensures ToDict(id, t, true) == ToDict(id, t, false) - {"correct_answer"}
  {
  }

  /** A dict that has every column of a full task dict, each of the type its column holds. */
  predicate TaskShaped(d: Dict)
  {
    && TaskKeys + {"correct_answer"} <= d.Keys
    && d["task_id"].VInt? && d["task_title"].VStr? && d["task_description"].VStr?
    && d["course_id"].VInt? && d["session_id"].VInt? && d["schema_id"].VInt?
    && d["correct_answer"].VStr? && d["difficulty"].VStr? && d["deadline"].VStr?
    && d["created_at"].VStr? && d["published"].VBool?
    && (d["tags"].VNull? || d["tags"].VStr?)
    && ParseDifficulty(d["difficulty"].s).Some?
    && ParseDate(d["deadline"].s).Some?
  }

  function Decoded(d: Dict): (int, Task)
    requires TaskShaped(d)
  {
    var tags := if d["tags"].VStr? then Some(d["tags"].s) else None;
    (d["task_id"].i,
     Task(d["task_title"].s, d["task_description"].s, d["course_id"].i,
          d["session_id"].i, d["schema_id"].i, d["correct_answer"].s,
          ParseDifficulty(d["difficulty"].s).value, tags,
          ParseDate(d["deadline"].s).value, d["created_at"].s, d["published"].b))
  }

  /** Reads a full task dict back into its id and row. */
  function FromDict(d: Dict): Option<(int, Task)>
  {
    if TaskShaped(d) then Some(Decoded(d)) else None
  }

  /** The unhidden dict determines the task: every column, the deadline included, can be
      read back from its rendering. */
  lemma ToDictRoundTrip(id: int, t: Task)
    requires ValidDate(t.deadline)
    ensures FromDict(ToDict(id, t, false)) == Some((id, t))
  {
    ToDictShaped(id, t);
    ToDictDecodes(id, t);
  }

  lemma ToDictShaped(id: int, t: Task)
    requires ValidDate(t.deadline)
    ensures TaskShaped(ToDict(id, t, false))
  {
    var d := ToDict(id, t, false);
    TaskKeysListed();
    assert d["deadline"] == VStr(RenderDate(t.deadline));
    assert d["difficulty"] == VStr(DifficultyName(t.difficulty));
    DateRoundTrip(t.deadline);
    DifficultyRoundTrip(t.difficulty);
  }

  lemma ToDictDecodes(id: int, t: Task)
    requires ValidDate(t.deadline) && TaskShaped(ToDict(id, t, false))
    ensures Decoded(ToDict(id, t, false)) == (id, t)
  {
    var d := ToDict(id, t, false);
    assert d["deadline"] == VStr(RenderDate(t.deadline));
    assert d["difficulty"] == VStr(DifficultyName(t.difficulty));
    DateRoundTrip(t.deadline);
    DifficultyRoundTrip(t.difficulty);
  }

  lemma TaskKeysListed()
    ensures && "task_id" in TaskKeys && "task_title" in TaskKeys && "task_description" in TaskKeys
            && "course_id" in TaskKeys && "session_id" in TaskKeys && "schema_id" in TaskKeys
            && "difficulty" in TaskKeys && "tags" in TaskKeys && "deadline" in TaskKeys
            && "created_at" in TaskKeys && "published" in TaskKeys
  {
  }
}
