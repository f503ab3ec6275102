/** The relational store the services open a session on. Each table is a map from
    primary key to row with the next autoincrement value beside it; `courses` and
    `assignments` are written by code outside this model, so they are fixed here.
    `sqlLog` holds, in order, the raw statements the schema service has committed;
    `gatewayLog` the calls the routes have handed to the SQL gateway. */
module Store {
  import opened Wrappers
  import opened Values
  import opened TaskModel

  /** A row of the `schemas` registry. */
  datatype SchemaRow = SchemaRow(name: string, createdBy: int)

  /** Of a course, only its owner matters to this model. */
  datatype Course = Course(professorId: int)

  /** A row of the `sessions` table: a class meeting of one course. */
  datatype SessionRow = SessionRow(courseId: int, name: string, date: string)

  /** Binds a task to a student. */
  datatype Assignment = Assignment(taskId: int, studentId: int)

  /** A row of the `submissions` table; `timeTaken` is NULL when absent; `submittedAt` is
      the clock reading its column default took, already rendered. */
  datatype Submission = Submission(assignmentId: int, query: string, isCorrect: bool, timeTaken: Option<int>,
                                   submittedAt: string)

  type Row = seq<(string, Value)>

  /** A request handed to the schema service's SQL gateway (`execute_sql_on_schema`,
      `insert_into_table`). */
  datatype GatewayCall =
    | ExecuteSql(schemaId: int, sql: string)
    | InsertInto(schemaId: int, table: string, rows: seq<Row>)

  /** Every key of a table is an id already handed out by its autoincrement counter. */
  ghost predicate IdsBelow<R>(m: map<int, R>, next: int)
  {
    next >= 1 && forall id :: id in m ==> 1 <= id < next
  }

  class Database {
    var schemas: map<int, SchemaRow>
    var nextSchemaId: int
    const courses: map<int, Course>
    var sessions: map<int, SessionRow>
    var nextSessionId: int
    var tasks: map<int, Task>
    var nextTaskId: int
    const assignments: map<int, Assignment>
    var submissions: map<int, Submission>
    var nextSubmissionId: int
    var sqlLog: seq<string>
    var gatewayLog: seq<GatewayCall>

    ghost predicate Valid()
      reads this
    {
      && IdsBelow(schemas, nextSchemaId)
      && IdsBelow(sessions, nextSessionId)
      && IdsBelow(tasks, nextTaskId)
      && IdsBelow(submissions, nextSubmissionId)
    }

    /** An empty database over the given courses and assignments. */
    constructor (courses: map<int, Course>, assignments: map<int, Assignment>)
      ensures Valid()
      ensures this.courses == courses && this.assignments == assignments
      ensures schemas == map[] && sessions == map[] && tasks == map[] && submissions == map[]
      ensures nextSchemaId == nextSessionId == nextTaskId == nextSubmissionId == 1
      ensures sqlLog == [] && gatewayLog == []
    {
      this.courses := courses;
      this.assignments := assignments;
      schemas, sessions, tasks, submissions := map[], map[], map[], map[];
      nextSchemaId, nextSessionId, nextTaskId, nextSubmissionId := 1, 1, 1, 1;
      sqlLog, gatewayLog := [], [];
    }
  }

  predicate Increasing(ks: seq<int>)
  {
    forall i, j :: 0 <= i < j < |ks| ==> ks[i] < ks[j]
  }

  /** The keys of a table below `n` in primary-key order: the order in which a query
      without ORDER BY is read back in this model. */
  function KeysBelow<R>(m: map<int, R>, n: int): (ks: seq<int>)
    ensures forall k :: k in ks <==> k in m && 1 <= k < n
    ensures Increasing(ks)
    decreases n
  {
    if n <= 1 then []
    else
      var prev := KeysBelow(m, n - 1);
      assert forall i :: 0 <= i < |prev| ==> prev[i] in prev && prev[i] < n - 1;
      prev + (if n - 1 in m then [n - 1] else [])
  }

  /** The ids of `ks` that pass `keep`, in their original order. */
  function FilterIds(ks: seq<int>, keep: int -> bool): (r: seq<int>)
    ensures forall k :: k in r <==> k in ks && keep(k)
    ensures forall i :: 0 <= i < |r| ==> keep(r[i])
    ensures Increasing(ks) ==> Increasing(r)
  {
    if ks == [] then []
    else
      var rest := FilterIds(ks[1..], keep);
      assert forall k :: k in ks[1..] ==> k in ks;
      if keep(ks[0]) then
        if Increasing(ks) then
          IncreasingTail(ks);
          IncreasingCons(ks[0], rest);
          [ks[0]] + rest
        else [ks[0]] + rest
      else rest
  }

  /** The tail of an increasing sequence is increasing and above its head. */
  lemma IncreasingTail(ks: seq<int>)
    requires Increasing(ks) && ks != []
    ensures Increasing(ks[1..])
    ensures forall k :: k in ks[1..] ==> ks[0] < k
  {
    forall k | k in ks[1..] ensures ks[0] < k {
      var i :| 0 <= i < |ks[1..]| && ks[1..][i] == k;
      assert ks[i + 1] == k;
    }
  }

  lemma IncreasingCons(x: int, rest: seq<int>)
    requires Increasing(rest)
    requires forall k :: k in rest ==> x < k
    ensures Increasing([x] + rest)
  {
    var s := [x] + rest;
    forall i, j | 0 <= i < j < |s| ensures s[i] < s[j] {
      assert s[j] == rest[j - 1] && rest[j - 1] in rest;
      if i > 0 {
        assert s[i] == rest[i - 1];
      }
    }
  }
}
