/**
  The stateful half of utils/bq_client.py: the BigQuery dataset the module-level
  client talks to, the BigQueryTable primitives insert_row, update_row and
  delete_row, and the four table gateways built on them.
 */
module Gateway {
  import opened Wrappers
  import opened Sql
  import opened Schema
  import opened RowMapper

  /** The dictionary {'response': ...} every primitive returns when the client does not raise. */
  datatype Ack = Ack(response: string)

  const INSERTED := Ack("Success")
  const UPDATED := Ack("Updated")
  const DELETED := Ack("Deleted")

  /** Why a call into the client raised. */
  datatype StorageFault =
    | Raised(message: string)                   // a failure outside this model: network, credentials, quota, a rejected literal
    | NoSuchTable(name: string)                 // get_table or the statement names a table the dataset lacks
    | ArityMismatch(given: nat, expected: nat)  // insert_rows: the tuple is not as long as the table's schema
    | UnknownColumn(column: string)             // the statement names a column the table lacks

  /** The columns of the dataset's four tables, in the order of their insert tuples. */
  const MIGRATION_SCHEMAS: map<string, seq<string>> := map[
    TBL_MIGRATION_STEP := PHASE_COLUMNS,
    TBL_MIGRATION_PROGRESS := PROGRESS_COLUMNS,
    TBL_MIGRATION_ENTITY := ENTITY_COLUMNS,
    TBL_MIGRATION_ENTITY_OBJECTS := ENTITY_OBJECT_COLUMNS]

  /** The dataset holds exactly its four tables, each row as wide as its table's schema. */
  predicate Conforms(tables: map<string, seq<Row>>) {
    && tables.Keys == MIGRATION_SCHEMAS.Keys
    && forall t :: t in tables ==> WellFormed(MIGRATION_SCHEMAS[t], tables[t])
  }

  /** Every column a statement mentions, in its SET list or its WHERE clause. */
  function StatementColumns(stmt: Statement): seq<string> {
    match stmt
    case Update(_, assignments, filter) => Columns(assignments) + Columns(filter)
    case Delete(_, filter) => Columns(filter)
  }

  /** The first of the names the schema lacks. */
  function UnknownColumnOf(schema: seq<string>, names: seq<string>): (r: Option<string>)
    ensures r.None? <==> forall i :: 0 <= i < |names| ==> names[i] in schema
    ensures r.Some? ==> r.value in names && r.value !in schema
  {
    if names == [] then None
    else if names[0] !in schema then Some(names[0])
    else UnknownColumnOf(schema, names[1..])
  }

  /** A keyed statement mentions only its table's own columns. */
  lemma KeyedStatementColumnsKnown(columns: seq<string>, k: nat, stmt: Statement)
    requires KeyedUpdate(columns, k, stmt) || KeyedDelete(columns, k, stmt)
    ensures UnknownColumnOf(columns, StatementColumns(stmt)) == None
  {
    var names := StatementColumns(stmt);
    forall i | 0 <= i < |names| ensures names[i] in columns {
      if stmt.Update? && i < |Columns(stmt.assignments)| {
        assert names[i] == columns[k..][i];
      } else {
        var j := if stmt.Update? then i - |Columns(stmt.assignments)| else i;
        assert names[i] == columns[..k][j];
      }
    }
  }

  // ---------------------------------------------------------------------------
  // The client's two calls, as functions of the dataset's state
  // ---------------------------------------------------------------------------

  /**
    What client.insert_rows(client.get_table(table), [row]) does: it raises, or it
    returns the warehouse's per-row errors (refusals, empty when the row is stored).
   */
  function InsertOutcome(tables: map<string, seq<Row>>, tableName: string, row: Row,
                         fault: Option<string>, refusals: seq<string>): Result<seq<string>, StorageFault>
  {
    if fault.Some? then Failure(Raised(fault.value))
    else if tableName !in tables || tableName !in MIGRATION_SCHEMAS then Failure(NoSuchTable(tableName))
    else if |row| != |MIGRATION_SCHEMAS[tableName]| then Failure(ArityMismatch(|row|, |MIGRATION_SCHEMAS[tableName]|))
    else Success(refusals)
  }

  /** The dataset after that call: the row is appended only when the warehouse accepted it. */
  function AfterInsert(tables: map<string, seq<Row>>, tableName: string, row: Row,
                       fault: Option<string>, refusals: seq<string>): map<string, seq<Row>>
  {
    if InsertOutcome(tables, tableName, row, fault, refusals) == Success([]) then
      tables[tableName := tables[tableName] + [row]]
    else tables
  }

  /** An insert appends the row to its own table and nothing else, and keeps the dataset conforming. */
  lemma InsertAppendsOnly(tables: map<string, seq<Row>>, tableName: string, row: Row,
                          fault: Option<string>, refusals: seq<string>)
    requires Conforms(tables)
    ensures Conforms(AfterInsert(tables, tableName, row, fault, refusals))
    ensures forall u :: u in tables && u != tableName ==> AfterInsert(tables, tableName, row, fault, refusals)[u] == tables[u]
    ensures tableName in tables ==>
      (AfterInsert(tables, tableName, row, fault, refusals)[tableName] == tables[tableName] + [row]
       <==> InsertOutcome(tables, tableName, row, fault, refusals) == Success([]))
    ensures InsertOutcome(tables, tableName, row, fault, refusals) != Success([]) ==>
      AfterInsert(tables, tableName, row, fault, refusals) == tables
  {
    var after := AfterInsert(tables, tableName, row, fault, refusals);
    if InsertOutcome(tables, tableName, row, fault, refusals) == Success([]) {
      var rows := tables[tableName] + [row];
      assert forall i :: 0 <= i < |tables[tableName]| ==> rows[i] == tables[tableName][i];
    } else if tableName in tables {
      assert |after[tableName]| != |tables[tableName] + [row]|;
    }
  }

  /**
    What client.query(text).result() does with an UPDATE or DELETE: it raises, or it
    runs the statement against the table the text names.
   */
  function QueryOutcome(tables: map<string, seq<Row>>, stmt: Statement, fault: Option<string>): Result<string, StorageFault>
  {
    if fault.Some? then Failure(Raised(fault.value))
    else match TableOf(stmt.target)
      case None => Failure(NoSuchTable(stmt.target))
      case Some(t) =>
        if t !in tables || t !in MIGRATION_SCHEMAS then Failure(NoSuchTable(stmt.target))
        else match UnknownColumnOf(MIGRATION_SCHEMAS[t], StatementColumns(stmt))
          case Some(c) => Failure(UnknownColumn(c))
          case None => Success(t)
  }

  /** The dataset after that call. */
  function AfterQuery(tables: map<string, seq<Row>>, stmt: Statement, fault: Option<string>): map<string, seq<Row>>
  {
    match QueryOutcome(tables, stmt, fault)
    case Success(t) => tables[t := Execute(MIGRATION_SCHEMAS[t], tables[t], stmt)]
    case Failure(_) => tables
  }

  lemma QueryOutcomeNamesTable(tables: map<string, seq<Row>>, stmt: Statement, fault: Option<string>)
    ensures QueryOutcome(tables, stmt, fault).Success? ==>
      var t := QueryOutcome(tables, stmt, fault).value;
      t in tables && t in MIGRATION_SCHEMAS && stmt.target == QualifiedName(t)
  {
  }

  /** A statement changes at most the table it names, and keeps the dataset conforming. */
  lemma QueryTouchesOnlyTarget(tables: map<string, seq<Row>>, stmt: Statement, fault: Option<string>)
    requires Conforms(tables)
    ensures Conforms(AfterQuery(tables, stmt, fault))
    ensures forall u :: u in tables && stmt.target != QualifiedName(u) ==> AfterQuery(tables, stmt, fault)[u] == tables[u]
    ensures QueryOutcome(tables, stmt, fault).Failure? ==> AfterQuery(tables, stmt, fault) == tables
  {
    QueryOutcomeNamesTable(tables, stmt, fault);
    var r := QueryOutcome(tables, stmt, fault);
    if r.Success? {
      ExecuteKeepsWidth(MIGRATION_SCHEMAS[r.value], tables[r.value], stmt);
    }
  }

  /** A statement on one of the dataset's tables that names only that table's columns runs. */
  lemma QueryOnTable(tables: map<string, seq<Row>>, tableName: string, stmt: Statement)
    requires Conforms(tables) && tableName in MIGRATION_SCHEMAS
    requires stmt.target == QualifiedName(tableName)
    requires UnknownColumnOf(MIGRATION_SCHEMAS[tableName], StatementColumns(stmt)) == None
    ensures QueryOutcome(tables, stmt, None) == Success(tableName)
    ensures AfterQuery(tables, stmt, None)
      == tables[tableName := Execute(MIGRATION_SCHEMAS[tableName], tables[tableName], stmt)]
  {
    TableOfQualifiedName(tableName);
  }

  /**
    A keyed UPDATE or DELETE whose key no row holds still runs, and leaves the dataset as it
    was: the caller is told 'Updated' or 'Deleted' either way.
   */
  lemma AbsentKeyIsSilent(tables: map<string, seq<Row>>, tableName: string, k: nat, stmt: Statement)
    requires Conforms(tables) && tableName in MIGRATION_SCHEMAS
    requires NoDuplicates(MIGRATION_SCHEMAS[tableName])
    requires KeyedUpdate(MIGRATION_SCHEMAS[tableName], k, stmt) || KeyedDelete(MIGRATION_SCHEMAS[tableName], k, stmt)
    requires stmt.target == QualifiedName(tableName)
    requires forall i :: 0 <= i < |tables[tableName]| ==> !HasKey(tables[tableName][i], Values(stmt.filter))
    ensures QueryOutcome(tables, stmt, None) == Success(tableName)
    ensures AfterQuery(tables, stmt, None) == tables
  {
    var columns := MIGRATION_SCHEMAS[tableName];
    var rows := tables[tableName];
    KeyedStatementColumnsKnown(columns, k, stmt);
    QueryOnTable(tables, tableName, stmt);
    var key := Values(stmt.filter);
    if stmt.Update? {
      KeyedUpdateMeaning(columns, k, rows, stmt);
      AbsentKeyUnchanged(rows, key, key + Values(stmt.assignments));
    } else {
      KeyedDeleteMeaning(columns, k, rows, stmt);
      AbsentKeyUnchanged(rows, key, []);
    }
    assert Execute(columns, rows, stmt) == rows;
    assert tables[tableName := rows] == tables;
  }

  /** The BigQuery dataset DATASET_NAME of project PROJECT_ID, as the module-level client sees it. */
  class Dataset {
    var tables: map<string, seq<Row>>

    ghost predicate Valid()
      reads this
    {
      Conforms(tables)
    }

    constructor(contents: map<string, seq<Row>>)
      requires Conforms(contents)
      ensures Valid() && tables == contents
    {
      tables := contents;
    }

    /** client.insert_rows(client.get_table(...), [row]) */
    method InsertRows(tableName: string, row: Row, fault: Option<string>, refusals: seq<string>)
      returns (r: Result<seq<string>, StorageFault>)
      requires Valid()
      modifies this
      ensures Valid()
      ensures r == InsertOutcome(old(tables), tableName, row, fault, refusals)
      ensures tables == AfterInsert(old(tables), tableName, row, fault, refusals)
    {
      InsertAppendsOnly(tables, tableName, row, fault, refusals);
      r := InsertOutcome(tables, tableName, row, fault, refusals);
      if r == Success([]) {
        tables := tables[tableName := tables[tableName] + [row]];
      }
    }

    /** client.query(text).result() for the statement the text spells. */
    method RunQuery(stmt: Statement, fault: Option<string>) returns (r: Result<string, StorageFault>)
      requires Valid()
      modifies this
      ensures Valid()
      ensures r == QueryOutcome(old(tables), stmt, fault)
      ensures tables == AfterQuery(old(tables), stmt, fault)
    {
      QueryTouchesOnlyTarget(tables, stmt, fault);
      r := QueryOutcome(tables, stmt, fault);
      if r.Success? {
        tables := tables[r.value := Execute(MIGRATION_SCHEMAS[r.value], tables[r.value], stmt)];
      }
    }
  }

  /** BigQueryTable: a table name and the three primitives over the shared client. */
  class BigQueryTable {
    const tableName: string
    const dataset: Dataset

    constructor(tableName: string, dataset: Dataset)
      ensures this.tableName == tableName && this.dataset == dataset
    {
      this.tableName := tableName;
      this.dataset := dataset;
    }

    /** insert_row: the acknowledgement 'Success' whenever the client does not raise, even if the warehouse refused the row. */
    method InsertRow(row: Row, fault: Option<string>, refusals: seq<string>) returns (r: Result<Ack, StorageFault>)
      requires dataset.Valid()
      modifies dataset
      ensures dataset.Valid()
      ensures dataset.tables == AfterInsert(old(dataset.tables), tableName, row, fault, refusals)
      ensures r.Success? <==> InsertOutcome(old(dataset.tables), tableName, row, fault, refusals).Success?
      ensures r.Success? ==> r.value == INSERTED
      ensures r.Failure? ==> r.error == InsertOutcome(old(dataset.tables), tableName, row, fault, refusals).error
    {
      var outcome := dataset.InsertRows(tableName, row, fault, refusals);
      if outcome.Failure? {
        return Failure(outcome.error);
      }
      return Success(INSERTED);
    }

    /** update_row: runs whatever statement it is given, whichever table that names. */
    method UpdateRow(stmt: Statement, fault: Option<string>) returns (r: Result<Ack, StorageFault>)
      requires dataset.Valid()
      modifies dataset
      ensures dataset.Valid()
      ensures dataset.tables == AfterQuery(old(dataset.tables), stmt, fault)
      ensures r.Success? <==> QueryOutcome(old(dataset.tables), stmt, fault).Success?
      ensures r.Success? ==> r.value == UPDATED
      ensures r.Failure? ==> r.error == QueryOutcome(old(dataset.tables), stmt, fault).error
    {
      var outcome := dataset.RunQuery(stmt, fault);
      if outcome.Failure? {
        return Failure(outcome.error);
      }
      return Success(UPDATED);
    }

    /** delete_row: as update_row, acknowledged as 'Deleted'. */
    method DeleteRow(stmt: Statement, fault: Option<string>) returns (r: Result<Ack, StorageFault>)
      requires dataset.Valid()
      modifies dataset
      ensures dataset.Valid()
      ensures dataset.tables == AfterQuery(old(dataset.tables), stmt, fault)
      ensures r.Success? <==> QueryOutcome(old(dataset.tables), stmt, fault).Success?
      ensures r.Success? ==> r.value == DELETED
      ensures r.Failure? ==> r.error == QueryOutcome(old(dataset.tables), stmt, fault).error
    {
      var outcome := dataset.RunQuery(stmt, fault);
      if outcome.Failure? {
        return Failure(outcome.error);
      }
      return Success(DELETED);
    }
  }

  // ---------------------------------------------------------------------------
  // The four table gateways
  // ---------------------------------------------------------------------------

  /** PhaseTable: the BigQueryTable over TBL_MIGRATION_STEP. */
  class PhaseTable {
    const table: BigQueryTable

    ghost predicate Valid()
      reads this, table, table.dataset
    {
      table.tableName == TBL_MIGRATION_STEP && table.dataset.Valid()
    }

    constructor(dataset: Dataset)
      requires dataset.Valid()
      ensures Valid() && table.dataset == dataset
    {
      table := new BigQueryTable(TBL_MIGRATION_STEP, dataset);
    }

    /** insert_phase appends the phase's tuple to its table. */
    method InsertPhase(p: PhaseModel, fault: Option<string>, refusals: seq<string>) returns (r: Result<Ack, StorageFault>)
      requires Valid()
      modifies table.dataset
      ensures Valid()
      ensures r == if fault.Some? then Failure(Raised(fault.value)) else Success(INSERTED)
      ensures table.dataset.tables == if fault.None? && refusals == [] then
        old(table.dataset.tables)[TBL_MIGRATION_STEP := old(table.dataset.tables)[TBL_MIGRATION_STEP] + [PhaseRow(p)]]
        else old(table.dataset.tables)
    {
      r := table.InsertRow(PhaseRow(p), fault, refusals);
    }

    /** update_phase replaces every row with the phase's step_id by the phase's tuple. */
    method UpdatePhase(p: PhaseModel, fault: Option<string>) returns (r: Result<Ack, StorageFault>)
      requires Valid()
      modifies table.dataset
      ensures Valid()
      ensures r == if fault.Some? then Failure(Raised(fault.value)) else Success(UPDATED)
      ensures table.dataset.tables == if fault.None? then
        old(table.dataset.tables)[TBL_MIGRATION_STEP := ReplaceKeyed(old(table.dataset.tables)[TBL_MIGRATION_STEP], [VInt(p.stepId)], PhaseRow(p))]
        else old(table.dataset.tables)
    {
      var stmt := UpdatePhaseStatement(table.tableName, p);
      KeyedStatementColumnsKnown(PHASE_COLUMNS, 1, stmt);
      QueryOnTable(table.dataset.tables, TBL_MIGRATION_STEP, stmt);
      UpdatePhaseMeaning(table.tableName, table.dataset.tables[TBL_MIGRATION_STEP], p);
      r := table.UpdateRow(stmt, fault);
    }

    /** delete_phase removes every row with the step_id. */
    method DeletePhase(stepId: int, fault: Option<string>) returns (r: Result<Ack, StorageFault>)
      requires Valid()
      modifies table.dataset
      ensures Valid()
      ensures r == if fault.Some? then Failure(Raised(fault.value)) else Success(DELETED)
      ensures table.dataset.tables == if fault.None? then
        old(table.dataset.tables)[TBL_MIGRATION_STEP := WithoutKey(old(table.dataset.tables)[TBL_MIGRATION_STEP], [VInt(stepId)])]
        else old(table.dataset.tables)
    {
      var stmt := DeletePhaseStatement(table.tableName, stepId);
      KeyedStatementColumnsKnown(PHASE_COLUMNS, 1, stmt);
      QueryOnTable(table.dataset.tables, TBL_MIGRATION_STEP, stmt);
      DeletePhaseMeaning(table.tableName, table.dataset.tables[TBL_MIGRATION_STEP], stepId);
      r := table.DeleteRow(stmt, fault);
    }
  }

  /** ProgressTable: the BigQueryTable over TBL_MIGRATION_PROGRESS. */
  class ProgressTable {
    const table: BigQueryTable

    ghost predicate Valid()
      reads this, table, table.dataset
    {
      table.tableName == TBL_MIGRATION_PROGRESS && table.dataset.Valid()
    }

    constructor(dataset: Dataset)
      requires dataset.Valid()
      ensures Valid() && table.dataset == dataset
    {
      table := new BigQueryTable(TBL_MIGRATION_PROGRESS, dataset);
    }

    /** insert_progress appends the progress record's tuple to its table. */
    method InsertProgress(p: ProgressModel, fault: Option<string>, refusals: seq<string>) returns (r: Result<Ack, StorageFault>)
      requires Valid()
      modifies table.dataset
      ensures Valid()
      ensures r == if fault.Some? then Failure(Raised(fault.value)) else Success(INSERTED)
      ensures table.dataset.tables == if fault.None? && refusals == [] then
        old(table.dataset.tables)[TBL_MIGRATION_PROGRESS := old(table.dataset.tables)[TBL_MIGRATION_PROGRESS] + [ProgressRow(p)]]
        else old(table.dataset.tables)
    {
      r := table.InsertRow(ProgressRow(p), fault, refusals);
    }

    /** update_progress rewrites every row with the record's (step_id, entity_id). */
    method UpdateProgress(p: ProgressModel, fault: Option<string>) returns (r: Result<Ack, StorageFault>)
      requires Valid()
      modifies table.dataset
      ensures Valid()
      ensures r == if fault.Some? then Failure(Raised(fault.value)) else Success(UPDATED)
      ensures table.dataset.tables == if fault.None? then
        old(table.dataset.tables)[TBL_MIGRATION_PROGRESS := ReplaceKeyed(old(table.dataset.tables)[TBL_MIGRATION_PROGRESS],
          [VInt(p.stepId), VInt(p.entityId)], ProgressUpdateRow(p))]
        else old(table.dataset.tables)
    {
      var stmt := UpdateProgressStatement(table.tableName, p);
      KeyedStatementColumnsKnown(PROGRESS_COLUMNS, 2, stmt);
      QueryOnTable(table.dataset.tables, TBL_MIGRATION_PROGRESS, stmt);
      UpdateProgressMeaning(table.tableName, table.dataset.tables[TBL_MIGRATION_PROGRESS], p);
      r := table.UpdateRow(stmt, fault);
    }

    /** delete_progress removes every row with the (step_id, entity_id) pair. */
    method DeleteProgress(stepId: int, entityId: int, fault: Option<string>) returns (r: Result<Ack, StorageFault>)
      requires Valid()
      modifies table.dataset
      ensures Valid()
      ensures r == if fault.Some? then Failure(Raised(fault.value)) else Success(DELETED)
      ensures table.dataset.tables == if fault.None? then
        old(table.dataset.tables)[TBL_MIGRATION_PROGRESS := WithoutKey(old(table.dataset.tables)[TBL_MIGRATION_PROGRESS],
          [VInt(stepId), VInt(entityId)])]
        else old(table.dataset.tables)
    {
      var stmt := DeleteProgressStatement(table.tableName, stepId, entityId);
      KeyedStatementColumnsKnown(PROGRESS_COLUMNS, 2, stmt);
      QueryOnTable(table.dataset.tables, TBL_MIGRATION_PROGRESS, stmt);
      DeleteProgressMeaning(table.tableName, table.dataset.tables[TBL_MIGRATION_PROGRESS], stepId, entityId);
      r := table.DeleteRow(stmt, fault);
    }
  }

  /** EntityTable: the BigQueryTable over TBL_MIGRATION_ENTITY. */
  class EntityTable {
    const table: BigQueryTable

    ghost predicate Valid()
      reads this, table, table.dataset
    {
      table.tableName == TBL_MIGRATION_ENTITY && table.dataset.Valid()
    }

    constructor(dataset: Dataset)
      requires dataset.Valid()
      ensures Valid() && table.dataset == dataset
    {
      table := new BigQueryTable(TBL_MIGRATION_ENTITY, dataset);
    }

    /** insert_entity appends the entity's ten-field tuple to its table. */
    method InsertEntity(e: EntityModel, fault: Option<string>, refusals: seq<string>) returns (r: Result<Ack, StorageFault>)
      requires Valid()
      modifies table.dataset
      ensures Valid()
      ensures r == if fault.Some? then Failure(Raised(fault.value)) else Success(INSERTED)
      ensures table.dataset.tables == if fault.None? && refusals == [] then
        old(table.dataset.tables)[TBL_MIGRATION_ENTITY := old(table.dataset.tables)[TBL_MIGRATION_ENTITY] + [EntityRow(e)]]
        else old(table.dataset.tables)
    {
      r := table.InsertRow(EntityRow(e), fault, refusals);
    }

    /** update_entity rewrites every row with the entity's entity_id. */
    method UpdateEntity(e: EntityModel, fault: Option<string>) returns (r: Result<Ack, StorageFault>)
      requires Valid()
      modifies table.dataset
      ensures Valid()
      ensures r == if fault.Some? then Failure(Raised(fault.value)) else Success(UPDATED)
      ensures table.dataset.tables == if fault.None? then
        old(table.dataset.tables)[TBL_MIGRATION_ENTITY := ReplaceKeyed(old(table.dataset.tables)[TBL_MIGRATION_ENTITY],
          [VInt(e.entityId)], EntityUpdateRow(e))]
        else old(table.dataset.tables)
    {
      var stmt := UpdateEntityStatement(table.tableName, e);
      KeyedStatementColumnsKnown(ENTITY_COLUMNS, 1, stmt);
      QueryOnTable(table.dataset.tables, TBL_MIGRATION_ENTITY, stmt);
      UpdateEntityMeaning(table.tableName, table.dataset.tables[TBL_MIGRATION_ENTITY], e);
      r := table.UpdateRow(stmt, fault);
    }

    /** delete_entity removes every row with the entity_id. */
    method DeleteEntity(entityId: int, fault: Option<string>) returns (r: Result<Ack, StorageFault>)
      requires Valid()
      modifies table.dataset
      ensures Valid()
      ensures r == if fault.Some? then Failure(Raised(fault.value)) else Success(DELETED)
      ensures table.dataset.tables == if fault.None? then
        old(table.dataset.tables)[TBL_MIGRATION_ENTITY := WithoutKey(old(table.dataset.tables)[TBL_MIGRATION_ENTITY], [VInt(entityId)])]
        else old(table.dataset.tables)
    {
      var stmt := DeleteEntityStatement(table.tableName, entityId);
      KeyedStatementColumnsKnown(ENTITY_COLUMNS, 1, stmt);
      QueryOnTable(table.dataset.tables, TBL_MIGRATION_ENTITY, stmt);
      DeleteEntityMeaning(table.tableName, table.dataset.tables[TBL_MIGRATION_ENTITY], entityId);
      r := table.DeleteRow(stmt, fault);
    }
  }

  /** EntityObjectTable: the BigQueryTable over TBL_MIGRATION_ENTITY_OBJECTS. */
  class EntityObjectTable {
    const table: BigQueryTable

    ghost predicate Valid()
      reads this, table, table.dataset
    {
      table.tableName == TBL_MIGRATION_ENTITY_OBJECTS && table.dataset.Valid()
    }

    constructor(dataset: Dataset)
      requires dataset.Valid()
      ensures Valid() && table.dataset == dataset
    {
      table := new BigQueryTable(TBL_MIGRATION_ENTITY_OBJECTS, dataset);
    }

    /** insert_entity_object appends the object's tuple to its table. */
    method InsertEntityObject(o: EntityObjectModel, fault: Option<string>, refusals: seq<string>) returns (r: Result<Ack, StorageFault>)
      requires Valid()
      modifies table.dataset
      ensures Valid()
      ensures r == if fault.Some? then Failure(Raised(fault.value)) else Success(INSERTED)
      ensures table.dataset.tables == if fault.None? && refusals == [] then
        old(table.dataset.tables)[TBL_MIGRATION_ENTITY_OBJECTS := old(table.dataset.tables)[TBL_MIGRATION_ENTITY_OBJECTS] + [EntityObjectRow(o)]]
        else old(table.dataset.tables)
    {
      r := table.InsertRow(EntityObjectRow(o), fault, refusals);
    }

    /** update_entity_object rewrites every row with the object's object_id, entity_id included. */
    method UpdateEntityObject(o: EntityObjectModel, fault: Option<string>) returns (r: Result<Ack, StorageFault>)
      requires Valid()
      modifies table.dataset
      ensures Valid()
      ensures r == if fault.Some? then Failure(Raised(fault.value)) else Success(UPDATED)
      ensures table.dataset.tables == if fault.None? then
        old(table.dataset.tables)[TBL_MIGRATION_ENTITY_OBJECTS := ReplaceKeyed(old(table.dataset.tables)[TBL_MIGRATION_ENTITY_OBJECTS],
          [VInt(o.objectId)], EntityObjectRow(o))]
        else old(table.dataset.tables)
    {
      var stmt := UpdateEntityObjectStatement(table.tableName, o);
      KeyedStatementColumnsKnown(ENTITY_OBJECT_COLUMNS, 1, stmt);
      QueryOnTable(table.dataset.tables, TBL_MIGRATION_ENTITY_OBJECTS, stmt);
      UpdateEntityObjectMeaning(table.tableName, table.dataset.tables[TBL_MIGRATION_ENTITY_OBJECTS], o);
      r := table.UpdateRow(stmt, fault);
    }

    /** delete_entity_object removes every row with the object_id. */
    method DeleteEntityObject(objectId: int, fault: Option<string>) returns (r: Result<Ack, StorageFault>)
      requires Valid()
      modifies table.dataset
      ensures Valid()
      ensures r == if fault.Some? then Failure(Raised(fault.value)) else Success(DELETED)
      ensures table.dataset.tables == if fault.None? then
        old(table.dataset.tables)[TBL_MIGRATION_ENTITY_OBJECTS := WithoutKey(old(table.dataset.tables)[TBL_MIGRATION_ENTITY_OBJECTS], [VInt(objectId)])]
        else old(table.dataset.tables)
    {
      var stmt := DeleteEntityObjectStatement(table.tableName, objectId);
      KeyedStatementColumnsKnown(ENTITY_OBJECT_COLUMNS, 1, stmt);
      QueryOnTable(table.dataset.tables, TBL_MIGRATION_ENTITY_OBJECTS, stmt);
      DeleteEntityObjectMeaning(table.tableName, table.dataset.tables[TBL_MIGRATION_ENTITY_OBJECTS], objectId);
      r := table.DeleteRow(stmt, fault);
    }
  }
}
