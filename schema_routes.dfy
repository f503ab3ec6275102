/** The schema endpoints (backend/app/routes/schemas.py): role gates, payload checks and
    the SQL text the row and column endpoints build. `execute_sql_on_schema` and
    `insert_into_table` are not defined in the schema service the routes import them
    from; here they are an external gateway that either accepts a call, which is then
    recorded in `gatewayLog`, or fails (`gatewayOk == false`) and leaves no trace. */
module SchemaRoutes {
  import opened Wrappers
  import opened Values
  import opened Store
  import opened SchemaService
  import Text

  /** `f"{key} = '{value}'"` */
  function Assignment(update: (string, Value)): string
  {
    update.0 + " = '" + PyStr(update.1) + "'"
  }

  function AssignmentList(updates: seq<(string, Value)>): (r: seq<string>)
    ensures |r| == |updates|
    ensures forall i :: 0 <= i < |updates| ==> r[i] == Assignment(updates[i])
  {
    seq(|updates|, i requires 0 <= i < |updates| => Assignment(updates[i]))
  }

  /** The SET clause: one assignment per key of `updates`, in the dict's order. */
  function SetClause(updates: seq<(string, Value)>): string
  {
    Text.Join(AssignmentList(updates), ", ")
  }

  /** The SET clause keeps every assignment and their order: reading it back at the
      commas gives one `key = 'value'` per update, in key order (for keys and values free
      of commas and surrounding whitespace). */
  lemma SetClauseInOrder(updates: seq<(string, Value)>)
    requires |updates| >= 1
    requires forall i :: 0 <= i < |updates| ==> Text.PlainItem(Assignment(updates[i]))
    ensures Text.ParseList(SetClause(updates)) == AssignmentList(updates)
  {
    Text.JoinRoundTrip(AssignmentList(updates));
  }

  /** The row id, as `str(row_id)` puts it into a WHERE clause, is read back unchanged. */
  lemma RowIdRoundTrip(rowId: nat)
    ensures Text.ParseDigits(Text.NatToString(rowId)) == rowId
  {
    Text.NatToStringRoundTrip(rowId);
  }

  function WhereId(rowId: nat): string
  {
    " WHERE id = " + Text.NatToString(rowId) + ";"
  }

  function UpdateRowSql(table: string, updates: seq<(string, Value)>, rowId: nat): string
  {
    "UPDATE " + table + " SET " + SetClause(updates) + WhereId(rowId)
  }

  function DeleteRowSql(table: string, rowId: nat): string
  {
    "DELETE FROM " + table + WhereId(rowId)
  }

  function AddColumnSql(table: string, column: string, columnType: string): string
  {
    "ALTER TABLE " + table + " ADD COLUMN " + column + " " + columnType + ";"
  }

  function DropColumnSql(table: string, column: string): string
  {
    "ALTER TABLE " + table + " DROP COLUMN " + column + ";"
  }

  /** The external gateway. */
  method CallGateway(db: Database, call: GatewayCall, gatewayOk: bool) returns (accepted: bool)
    requires db.Valid()
    modifies db`gatewayLog
    ensures db.Valid()
    ensures accepted == gatewayOk
    ensures db.gatewayLog == if gatewayOk then old(db.gatewayLog) + [call] else old(db.gatewayLog)
  {
    if gatewayOk {
      db.gatewayLog := db.gatewayLog + [call];
    }
    accepted := gatewayOk;
  }

  /** POST /schemas: professors only; the owner is always the caller, whatever
      `professor_id` the body carried. */
  method CreateSchemaRoute(db: Database, user: Principal, schemaName: Option<string>, engineOk: bool)
    returns (status: Status, created: Option<SchemaCreated>)
    requires db.Valid()
    modifies db`schemas, db`nextSchemaId, db`sqlLog
    ensures db.Valid()
    ensures user.role != Professor ==> status == Forbidden && unchanged(db)
    ensures status == Created <==>
              user.role == Professor && FilledStr(schemaName) && user.userId != 0 && engineOk
    ensures status != Created ==> created == None && unchanged(db)
    ensures user.role == Professor && status != Created ==> status == BadRequest
    ensures status == Created ==>
              var id := old(db.nextSchemaId);
              && created == Some(SchemaCreated(id, schemaName.value, user.userId))
              && db.schemas == old(db.schemas)[id := SchemaRow(schemaName.value, user.userId)]
              && db.sqlLog == old(db.sqlLog) + [CreateSchemaSql(schemaName.value)]
              && db.sessions == old(db.sessions) && db.tasks == old(db.tasks)
              && db.submissions == old(db.submissions) && db.gatewayLog == old(db.gatewayLog)
  {
    if user.role != Professor {
      return Forbidden, None;
    }
    var r := CreateSchema(db, SchemaPayload(schemaName, Some(user.userId)), engineOk);
    if r.Failure? {
      return BadRequest, None;
    }
    return Created, Some(r.value);
  }

  /** GET /schemas: a professor's own schemas; an empty list for anyone else. */
  function ListSchemasRoute(db: Database, user: Principal): (r: seq<SchemaSummary>)
    reads db
    requires db.Valid()
    ensures user.role != Professor ==> r == []
    ensures user.role == Professor ==>
              forall e :: e in r <==>
                e.schemaId in db.schemas && db.schemas[e.schemaId] == SchemaRow(e.schemaName, user.userId)
  {
    if user.role == Professor then ListSchemas(db, user.userId) else []
  }

  /** GET /schemas/<id>: the summary, or 500 for an unknown id, because the service
      raises instead of returning a falsy value and the 404 branch is never taken. */
  function GetSchemaDetails(db: Database, schemaId: nat): (r: (Status, Option<SchemaSummary>))
    reads db
    ensures r.0 == Ok <==> schemaId in db.schemas
    ensures r.0 != Ok ==> r == (ServerError, None)
    ensures r.0 == Ok ==> r.1 == Some(SchemaSummary(schemaId, db.schemas[schemaId].name))
  {
    match GetSchemaById(db, schemaId)
    case Success(s) => (Ok, Some(s))
    case Failure(_) => (ServerError, None)
  }

  /** GET /schemas/<id>/tables: the summary the service returns has no "tables" key, so
      the list is always empty; an unknown id again gives 500. */
  function FetchTables(db: Database, schemaId: nat): (r: (Status, seq<string>))
    reads db
    ensures r.1 == []
    ensures r.0 == Ok <==> schemaId in db.schemas
    ensures r.0 != Ok ==> r.0 == ServerError
  {
    match GetSchemaById(db, schemaId)
    case Success(_) => (Ok, [])
    case Failure(_) => (ServerError, [])
  }

  /** POST /schemas/<id>/tables: professors only; any service error is a 400. */
  method CreateTableRoute(db: Database, user: Principal, schemaId: nat, data: TablePayload, engineOk: bool)
    returns (status: Status, table: Option<TableRef>)
    requires db.Valid()
    modifies db`sqlLog
    ensures db.Valid()
    ensures user.role != Professor ==> status == Forbidden && unchanged(db)
    ensures status == Created <==>
              && user.role == Professor && schemaId in db.schemas && FilledStr(data.tableName)
              && data.columns.Some? && data.columns.value != [] && engineOk
    ensures status != Created ==> table == None && unchanged(db)
    ensures user.role == Professor && status != Created ==> status == BadRequest
    ensures status == Created ==>
              var schemaName := db.schemas[schemaId].name;
              && table == Some(TableRef(schemaId, Quote(data.tableName.value)))
              && db.sqlLog == old(db.sqlLog) + [EnsureSchemaSql(Quote(schemaName)),
                                                CreateTableSql(schemaName, data.tableName.value, data.columns.value)]
              && db.schemas == old(db.schemas) && db.gatewayLog == old(db.gatewayLog)
  {
    if user.role != Professor {
      return Forbidden, None;
    }
    var r := CreateTableInSchema(db, schemaId, data, engineOk);
    if r.Failure? {
      return BadRequest, None;
    }
    return Created, Some(r.value);
  }

  /** PUT /schemas/<id>/tables/<table>: no role check; any service error is a 400. */
  method AlterTableRoute(db: Database, schemaId: nat, tableName: string, alterSql: Option<string>, engineOk: bool)
    returns (status: Status)
    requires db.Valid()
    modifies db`sqlLog
    ensures db.Valid()
    ensures status == Ok <==> schemaId in db.schemas && FilledStr(alterSql) && engineOk
    ensures status != Ok ==> status == BadRequest && unchanged(db)
    ensures status == Ok ==>
              && db.sqlLog == old(db.sqlLog) + [AlterTableSql(db.schemas[schemaId].name, tableName, alterSql.value)]
              && db.schemas == old(db.schemas) && db.gatewayLog == old(db.gatewayLog)
  {
    var r := AlterTableInSchema(db, schemaId, tableName, alterSql, engineOk);
    status := if r.Success? then Ok else BadRequest;
  }

  /** DELETE /schemas/<id>/tables/<table>: no role check; any service error is a 400. */
  method DeleteTableRoute(db: Database, schemaId: nat, tableName: string, engineOk: bool)
    returns (status: Status)
    requires db.Valid()
    modifies db`sqlLog
    ensures db.Valid()
    ensures status == Ok <==> schemaId in db.schemas && engineOk
    ensures status != Ok ==> status == BadRequest && unchanged(db)
    ensures status == Ok ==>
              && db.sqlLog == old(db.sqlLog) + [DropTableSql(db.schemas[schemaId].name, tableName)]
              && db.schemas == old(db.schemas) && db.gatewayLog == old(db.gatewayLog)
  {
    var r := DeleteTableFromSchema(db, schemaId, tableName, engineOk);
    status := if r.Success? then Ok else BadRequest;
  }

  /** POST /schemas/<id>/execute: professors only, with a non-empty `sql_command`. */
  method ExecuteSqlRoute(db: Database, user: Principal, schemaId: nat, sqlCommand: Option<string>, gatewayOk: bool)
    returns (status: Status)
    requires db.Valid()
    modifies db`gatewayLog
    ensures db.Valid()
    ensures user.role != Professor ==> status == Forbidden
    ensures user.role == Professor && !FilledStr(sqlCommand) ==> status == BadRequest
    ensures status == Ok <==> user.role == Professor && FilledStr(sqlCommand) && gatewayOk
    ensures user.role == Professor && status != Ok ==> status == BadRequest
    ensures status != Ok ==> unchanged(db)
    ensures status == Ok ==>
              db.gatewayLog == old(db.gatewayLog) + [ExecuteSql(schemaId, sqlCommand.value)]
              && db.sqlLog == old(db.sqlLog) && db.schemas == old(db.schemas)
  {
    if user.role != Professor {
      return Forbidden;
    }
    if !FilledStr(sqlCommand) {
      return BadRequest;
    }
    var accepted := CallGateway(db, ExecuteSql(schemaId, sqlCommand.value), gatewayOk);
    status := if accepted then Ok else BadRequest;
  }

  /** POST /schemas/<id>/tables/<table>/rows: professors only, with a non-empty list. */
  method InsertRowsRoute(db: Database, user: Principal, schemaId: nat, tableName: string, rows: Field<seq<Row>>, gatewayOk: bool)
    returns (status: Status)
    requires db.Valid()
    modifies db`gatewayLog
    ensures db.Valid()
    ensures user.role != Professor ==> status == Forbidden
    ensures user.role == Professor && !(rows.Given? && rows.value != []) ==> status == BadRequest
    ensures status == Created <==> user.role == Professor && rows.Given? && rows.value != [] && gatewayOk
    ensures user.role == Professor && status != Created ==> status == BadRequest
    ensures status != Created ==> unchanged(db)
    ensures status == Created ==>
              db.gatewayLog == old(db.gatewayLog) + [InsertInto(schemaId, tableName, rows.value)]
              && db.sqlLog == old(db.sqlLog) && db.schemas == old(db.schemas)
  {
    if user.role != Professor {
      return Forbidden;
    }
    if !(rows.Given? && rows.value != []) {
      return BadRequest;
    }
    var accepted := CallGateway(db, InsertInto(schemaId, tableName, rows.value), gatewayOk);
    status := if accepted then Created else BadRequest;
  }

  /** PUT /schemas/<id>/tables/<table>/rows/<row_id>: professors only, with a non-empty
      dict of updates. */
  method UpdateRowRoute(db: Database, user: Principal, schemaId: nat, tableName: string, rowId: nat,
                        updates: Field<seq<(string, Value)>>, gatewayOk: bool)
    returns (status: Status)
    requires db.Valid()
    modifies db`gatewayLog
    ensures db.Valid()
    ensures user.role != Professor ==> status == Forbidden
    ensures user.role == Professor && !(updates.Given? && updates.value != []) ==> status == BadRequest
    ensures status == Ok <==> user.role == Professor && updates.Given? && updates.value != [] && gatewayOk
    ensures user.role == Professor && status != Ok ==> status == BadRequest
    ensures status != Ok ==> unchanged(db)
    ensures status == Ok ==>
              db.gatewayLog == old(db.gatewayLog) + [ExecuteSql(schemaId, UpdateRowSql(tableName, updates.value, rowId))]
              && db.sqlLog == old(db.sqlLog) && db.schemas == old(db.schemas)
  {
    if user.role != Professor {
      return Forbidden;
    }
    if !(updates.Given? && updates.value != []) {
      return BadRequest;
    }
    var sql := UpdateRowSql(tableName, updates.value, rowId);
    var accepted := CallGateway(db, ExecuteSql(schemaId, sql), gatewayOk);
    status := if accepted then Ok else BadRequest;
  }

  /** DELETE /schemas/<id>/tables/<table>/rows/<row_id>: professors only. */
  method DeleteRowRoute(db: Database, user: Principal, schemaId: nat, tableName: string, rowId: nat, gatewayOk: bool)
    returns (status: Status)
    requires db.Valid()
    modifies db`gatewayLog
    ensures db.Valid()
    ensures user.role != Professor ==> status == Forbidden
    ensures status == Ok <==> user.role == Professor && gatewayOk
    ensures user.role == Professor && status != Ok ==> status == BadRequest
    ensures status != Ok ==> unchanged(db)
    ensures status == Ok ==>
              db.gatewayLog == old(db.gatewayLog) + [ExecuteSql(schemaId, DeleteRowSql(tableName, rowId))]
              && db.sqlLog == old(db.sqlLog) && db.schemas == old(db.schemas)
  {
    if user.role != Professor {
      return Forbidden;
    }
    var accepted := CallGateway(db, ExecuteSql(schemaId, DeleteRowSql(tableName, rowId)), gatewayOk);
    status := if accepted then Ok else BadRequest;
  }

  /** POST /schemas/<id>/tables/<table>/columns: professors only, with both the column
      name and its type. */
  method AddColumnRoute(db: Database, user: Principal, schemaId: nat, tableName: string,
                        columnName: Option<string>, columnType: Option<string>, gatewayOk: bool)
    returns (status: Status)
    requires db.Valid()
    modifies db`gatewayLog
    ensures db.Valid()
    ensures user.role != Professor ==> status == Forbidden
    ensures user.role == Professor && !(FilledStr(columnName) && FilledStr(columnType)) ==> status == BadRequest
    ensures status == Ok <==> user.role == Professor && FilledStr(columnName) && FilledStr(columnType) && gatewayOk
    ensures user.role == Professor && status != Ok ==> status == BadRequest
    ensures status != Ok ==> unchanged(db)
    ensures status == Ok ==>
              db.gatewayLog == old(db.gatewayLog) + [ExecuteSql(schemaId, AddColumnSql(tableName, columnName.value, columnType.value))]
              && db.sqlLog == old(db.sqlLog) && db.schemas == old(db.schemas)
  {
    if user.role != Professor {
      return Forbidden;
    }
    if !(FilledStr(columnName) && FilledStr(columnType)) {
      return BadRequest;
    }
    var sql := AddColumnSql(tableName, columnName.value, columnType.value);
    var accepted := CallGateway(db, ExecuteSql(schemaId, sql), gatewayOk);
    status := if accepted then Ok else BadRequest;
  }

  /** DELETE /schemas/<id>/tables/<table>/columns/<column>: professors only. */
  method DeleteColumnRoute(db: Database, user: Principal, schemaId: nat, tableName: string, columnName: string, gatewayOk: bool)
    returns (status: Status)
    requires db.Valid()
    modifies db`gatewayLog
    ensures db.Valid()
    ensures user.role != Professor ==> status == Forbidden
    ensures status == Ok <==> user.role == Professor && gatewayOk
    ensures user.role == Professor && status != Ok ==> status == BadRequest
    ensures status != Ok ==> unchanged(db)
    ensures status == Ok ==>
              db.gatewayLog == old(db.gatewayLog) + [ExecuteSql(schemaId, DropColumnSql(tableName, columnName))]
              && db.sqlLog == old(db.sqlLog) && db.schemas == old(db.schemas)
  {
    if user.role != Professor {
      return Forbidden;
    }
    var accepted := CallGateway(db, ExecuteSql(schemaId, DropColumnSql(tableName, columnName)), gatewayOk);
    status := if accepted then Ok else BadRequest;
  }
}
