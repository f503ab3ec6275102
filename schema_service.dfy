/** The schema registry and the DDL it commits (backend/app/services/schema_service.py).
    Each operation runs in one transaction: an error found before any statement, or a
    statement the engine refuses (`engineOk == false`), leaves the store as it was. */
module SchemaService {
  import opened Wrappers
  import opened Values
  import opened Store
  import Text

  /** A schema or table name is wrapped in double quotes exactly when it contains a
      space; otherwise it is used verbatim. */
  function Quote(name: string): (q: string)
    ensures (q == name) <==> ' ' !in name
    ensures ' ' in name ==> |q| == |name| + 2 && q[0] == '"' && q[|q| - 1] == '"' && q[1..|q| - 1] == name
  {
    if ' ' in name then "\"" + name + "\"" else name
  }

  /** Undoes `Quote`: strips one pair of surrounding quotes from a name that has a space
      inside them. */
  function Unquote(q: string): string
  {
    if |q| >= 2 && q[0] == '"' && q[|q| - 1] == '"' && ' ' in q[1..|q| - 1] then q[1..|q| - 1] else q
  }

  /** Quoting loses nothing: the original name can always be recovered. */
  lemma QuoteRoundTrip(name: string)
    ensures Unquote(Quote(name)) == name
  {
    if ' ' !in name && |name| >= 2 {
      assert forall c :: c in name[1..|name| - 1] ==> c in name;
    }
  }

  /** `CREATE SCHEMA IF NOT EXISTS {schema_name};`, the name as given. */
  function CreateSchemaSql(name: string): string
  {
    "CREATE SCHEMA IF NOT EXISTS " + name + ";"
  }

  /** The statement `create_table_in_schema` runs first, without a semicolon. */
  function EnsureSchemaSql(quotedSchema: string): string
  {
    "CREATE SCHEMA IF NOT EXISTS " + quotedSchema
  }

  /** One element of the `columns` payload: `{"name": ..., "type": ...}`. */
  datatype Column = Column(name: string, colType: string)

  /** `f"{col['name']} {col['type']}"` */
  function ColumnDefinition(c: Column): string
  {
    c.name + " " + c.colType
  }

  function ColumnDefinitionList(cols: seq<Column>): (defs: seq<string>)
    ensures |defs| == |cols|
    ensures forall i :: 0 <= i < |cols| ==> defs[i] == ColumnDefinition(cols[i])
  {
    seq(|cols|, i requires 0 <= i < |cols| => ColumnDefinition(cols[i]))
  }

  /** `", ".join(...)` over the column definitions. */
  function ColumnDefinitions(cols: seq<Column>): string
  {
    Text.Join(ColumnDefinitionList(cols), ", ")
  }

  /** The column list keeps every definition and their input order: splitting it at the
      commas gives back one `name type` per column, in order (for names and types free of
      commas and of surrounding whitespace). */
  lemma ColumnDefinitionsInOrder(cols: seq<Column>)
    requires |cols| >= 1
    requires forall i :: 0 <= i < |cols| ==> Text.PlainItem(ColumnDefinition(cols[i]))
    ensures Text.ParseList(ColumnDefinitions(cols)) == ColumnDefinitionList(cols)
  {
    Text.JoinRoundTrip(ColumnDefinitionList(cols));
  }

  /** `{schema}.{table}` with both parts quoted if needed. */
  function Qualified(schemaName: string, tableName: string): string
  {
    Quote(schemaName) + "." + Quote(tableName)
  }

  function CreateTableSql(schemaName: string, tableName: string, cols: seq<Column>): string
  {
    "CREATE TABLE " + Qualified(schemaName, tableName) + " (" + ColumnDefinitions(cols) + ");"
  }

  function AlterTableSql(schemaName: string, tableName: string, alterSql: string): string
  {
    "ALTER TABLE " + Qualified(schemaName, tableName) + " " + alterSql + ";"
  }

  function DropTableSql(schemaName: string, tableName: string): string
  {
    "DROP TABLE IF EXISTS " + Qualified(schemaName, tableName) + ";"
  }

  /** The payload of `create_schema`: `data.get("schema_name")`, `data.get("professor_id")`. */
  datatype SchemaPayload = SchemaPayload(schemaName: Option<string>, professorId: Option<int>)

  /** `{"schema_id", "schema_name", "created_by"}` */
  datatype SchemaCreated = SchemaCreated(schemaId: int, schemaName: string, createdBy: int)

  /** `{"schema_id", "schema_name"}` */
  datatype SchemaSummary = SchemaSummary(schemaId: int, schemaName: string)

  /** The payload of `create_table_in_schema`: `data.get("table_name")`, `data.get("columns")`. */
  datatype TablePayload = TablePayload(tableName: Option<string>, columns: Option<seq<Column>>)

  /** `{"schema_id", "table_name"}`, the table name as it was put into the DDL. */
  datatype TableRef = TableRef(schemaId: int, tableName: string)

  const SchemaFieldsRequired := "schema_name and professor_id are required"
  const SchemaNotFound := "Schema not found"
  const TableFieldsRequired := "table_name and columns are required"
  const AlterSqlRequired := "alter_sql is required"

  /** `create_schema(data)`: adds a registry row and runs `CREATE SCHEMA IF NOT EXISTS`
      in one transaction. */
  method CreateSchema(db: Database, data: SchemaPayload, engineOk: bool) returns (r: Result<SchemaCreated>)
    requires db.Valid()
    modifies db`schemas, db`nextSchemaId, db`sqlLog
    ensures db.Valid()
    ensures !(FilledStr(data.schemaName) && FilledInt(data.professorId)) ==>
              r == Failure(ValueError(SchemaFieldsRequired))
    ensures FilledStr(data.schemaName) && FilledInt(data.professorId) && !engineOk ==>
              r == Failure(EngineError)
    ensures r.Success? <==> FilledStr(data.schemaName) && FilledInt(data.professorId) && engineOk
    ensures r.Failure? ==>
              db.schemas == old(db.schemas) && db.nextSchemaId == old(db.nextSchemaId) && db.sqlLog == old(db.sqlLog)
    ensures r.Success? ==>
              var id := old(db.nextSchemaId);
              && FilledStr(data.schemaName) && FilledInt(data.professorId) && engineOk
              && r.value == SchemaCreated(id, data.schemaName.value, data.professorId.value)
              && id !in old(db.schemas)
              && db.schemas == old(db.schemas)[id := SchemaRow(data.schemaName.value, data.professorId.value)]
              && db.nextSchemaId == id + 1
              && db.sqlLog == old(db.sqlLog) + [CreateSchemaSql(data.schemaName.value)]
  {
    if !(FilledStr(data.schemaName) && FilledInt(data.professorId)) {
      return Failure(ValueError(SchemaFieldsRequired));
    }
    var name, professorId := data.schemaName.value, data.professorId.value;
    if !engineOk {
      // session.rollback(): neither the row nor the schema is kept
      return Failure(EngineError);
    }
    var id := db.nextSchemaId;
    db.schemas := db.schemas[id := SchemaRow(name, professorId)];
    db.nextSchemaId := id + 1;
    db.sqlLog := db.sqlLog + [CreateSchemaSql(name)];
    r := Success(SchemaCreated(id, name, professorId));
  }

  /** `list_schemas(professor_id)`: exactly the registry rows created by that professor,
      in primary-key order. */
  function ListSchemas(db: Database, professorId: int): (r: seq<SchemaSummary>)
    reads db
    requires db.Valid()
    ensures forall e :: e in r ==>
              e.schemaId in db.schemas && db.schemas[e.schemaId] == SchemaRow(e.schemaName, professorId)
    ensures forall id :: id in db.schemas && db.schemas[id].createdBy == professorId ==>
              SchemaSummary(id, db.schemas[id].name) in r
    ensures forall i, j :: 0 <= i < j < |r| ==> r[i].schemaId < r[j].schemaId
  {
    var m := db.schemas;
    var ids := FilterIds(KeysBelow(m, db.nextSchemaId), id => id in m && m[id].createdBy == professorId);
    assert forall i :: 0 <= i < |ids| ==> ids[i] in ids;
    SummariesOfOwned(m, ids, professorId);
    Summaries(m, ids)
  }

  /** The summaries of the given schemas, in the given order. */
  function Summaries(m: map<int, SchemaRow>, ids: seq<int>): (r: seq<SchemaSummary>)
    requires forall i :: 0 <= i < |ids| ==> ids[i] in m
    ensures |r| == |ids|
    ensures forall i :: 0 <= i < |ids| ==> r[i] == SchemaSummary(ids[i], m[ids[i]].name)
  {
    seq(|ids|, i requires 0 <= i < |ids| => SchemaSummary(ids[i], m[ids[i]].name))
  }

  lemma SummariesOfOwned(m: map<int, SchemaRow>, ids: seq<int>, professorId: int)
    requires forall id :: id in ids <==> id in m && m[id].createdBy == professorId
    requires forall i :: 0 <= i < |ids| ==> ids[i] in m
    requires Increasing(ids)
    ensures forall e :: e in Summaries(m, ids) ==>
              e.schemaId in m && m[e.schemaId] == SchemaRow(e.schemaName, professorId)
    ensures forall id :: id in m && m[id].createdBy == professorId ==>
              SchemaSummary(id, m[id].name) in Summaries(m, ids)
    ensures forall i, j :: 0 <= i < j < |Summaries(m, ids)| ==>
              Summaries(m, ids)[i].schemaId < Summaries(m, ids)[j].schemaId
  {
    var r := Summaries(m, ids);
    forall e | e in r
      ensures e.schemaId in m && m[e.schemaId] == SchemaRow(e.schemaName, professorId)
    {
      var i :| 0 <= i < |r| && r[i] == e;
      assert ids[i] in ids;
    }
    forall id | id in m && m[id].createdBy == professorId
      ensures SchemaSummary(id, m[id].name) in r
    {
      var i :| 0 <= i < |ids| && ids[i] == id;
      assert r[i] == SchemaSummary(id, m[id].name);
    }
  }

  /** `get_schema_by_id(schema_id)` */
  function GetSchemaById(db: Database, schemaId: int): (r: Result<SchemaSummary>)
    reads db
    ensures r.Failure? <==> schemaId !in db.schemas
    ensures r.Failure? ==> r.error == ValueError(SchemaNotFound)
    ensures r.Success? ==> r.value == SchemaSummary(schemaId, db.schemas[schemaId].name)
  {
    if schemaId in db.schemas then Success(SchemaSummary(schemaId, db.schemas[schemaId].name))
    else Failure(ValueError(SchemaNotFound))
  }

  /** `create_table_in_schema(schema_id, data)`: an unknown schema is reported before the
      payload is looked at; on success two statements are committed, the schema
      (re)creation and then the CREATE TABLE. */
  method CreateTableInSchema(db: Database, schemaId: int, data: TablePayload, engineOk: bool)
    returns (r: Result<TableRef>)
    requires db.Valid()
    modifies db`sqlLog
    ensures db.Valid()
    ensures schemaId !in db.schemas ==> r == Failure(ValueError(SchemaNotFound))
    ensures schemaId in db.schemas && !(FilledStr(data.tableName) && data.columns.Some? && data.columns.value != []) ==>
              r == Failure(ValueError(TableFieldsRequired))
    ensures r.Failure? ==> db.sqlLog == old(db.sqlLog)
    ensures r.Success? <==>
              schemaId in db.schemas && FilledStr(data.tableName) && data.columns.Some? && data.columns.value != [] && engineOk
    ensures r.Success? ==>
              var schemaName := db.schemas[schemaId].name;
              && r.value == TableRef(schemaId, Quote(data.tableName.value))
              && db.sqlLog == old(db.sqlLog) + [EnsureSchemaSql(Quote(schemaName)),
                                                CreateTableSql(schemaName, data.tableName.value, data.columns.value)]
  {
    if schemaId !in db.schemas {
      return Failure(ValueError(SchemaNotFound));
    }
    if !(FilledStr(data.tableName) && data.columns.Some? && data.columns.value != []) {
      return Failure(ValueError(TableFieldsRequired));
    }
    var schemaName, tableName, columns := db.schemas[schemaId].name, data.tableName.value, data.columns.value;
    if !engineOk {
      return Failure(EngineError);
    }
    db.sqlLog := db.sqlLog + [EnsureSchemaSql(Quote(schemaName)), CreateTableSql(schemaName, tableName, columns)];
    r := Success(TableRef(schemaId, Quote(tableName)));
  }

  /** `alter_table_in_schema(schema_id, table_name, data)`: appends `data["alter_sql"]`
      verbatim after `ALTER TABLE schema.table`. */
  method AlterTableInSchema(db: Database, schemaId: int, tableName: string, alterSql: Option<string>, engineOk: bool)
    returns (r: Result<TableRef>)
    requires db.Valid()
    modifies db`sqlLog
    ensures db.Valid()
    ensures schemaId !in db.schemas ==> r == Failure(ValueError(SchemaNotFound))
    ensures schemaId in db.schemas && !FilledStr(alterSql) ==> r == Failure(ValueError(AlterSqlRequired))
    ensures r.Failure? ==> db.sqlLog == old(db.sqlLog)
    ensures r.Success? <==> schemaId in db.schemas && FilledStr(alterSql) && engineOk
    ensures r.Success? ==>
              && r.value == TableRef(schemaId, Quote(tableName))
              && db.sqlLog == old(db.sqlLog) + [AlterTableSql(db.schemas[schemaId].name, tableName, alterSql.value)]
  {
    if schemaId !in db.schemas {
      return Failure(ValueError(SchemaNotFound));
    }
    if !FilledStr(alterSql) {
      return Failure(ValueError(AlterSqlRequired));
    }
    if !engineOk {
      return Failure(EngineError);
    }
    db.sqlLog := db.sqlLog + [AlterTableSql(db.schemas[schemaId].name, tableName, alterSql.value)];
    r := Success(TableRef(schemaId, Quote(tableName)));
  }

  /** `delete_table_from_schema(schema_id, table_name)`: `DROP TABLE IF EXISTS`, so the
      only error it reports itself is an unknown schema. */
  method DeleteTableFromSchema(db: Database, schemaId: int, tableName: string, engineOk: bool)
    returns (r: Result<()>)
    requires db.Valid()
    modifies db`sqlLog
    ensures db.Valid()
    ensures r.Success? <==> schemaId in db.schemas && engineOk
    ensures schemaId !in db.schemas ==> r == Failure(ValueError(SchemaNotFound))
    ensures r.Failure? ==> db.sqlLog == old(db.sqlLog)
    ensures r.Success? ==> db.sqlLog == old(db.sqlLog) + [DropTableSql(db.schemas[schemaId].name, tableName)]
  {
    if schemaId !in db.schemas {
      return Failure(ValueError(SchemaNotFound));
    }
    if !engineOk {
      return Failure(EngineError);
    }
    db.sqlLog := db.sqlLog + [DropTableSql(db.schemas[schemaId].name, tableName)];
    r := Success(());
  }
}
