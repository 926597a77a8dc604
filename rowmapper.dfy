/**
  The pure half of utils/bq_client.py: for each of the four tables, the
  positional tuple insert_* appends and the statements update_* and delete_*
  build, with what they mean for the table's rows.
 */
module RowMapper {
  import opened Wrappers
  import opened Text
  import opened Schema
  import opened Sql

  // The constants module is not part of this model: these identifiers are
  // placeholders, with four distinct table names as the real ones have.
  const PROJECT_ID := "project-id"
  const DATASET_NAME := "dataset-name"
  const TBL_MIGRATION_STEP := "migration_step"
  const TBL_MIGRATION_PROGRESS := "migration_progress"
  const TBL_MIGRATION_ENTITY := "migration_entity"
  const TBL_MIGRATION_ENTITY_OBJECTS := "migration_entity_objects"

  /** The PROJECT_ID.DATASET_NAME. qualifier in front of every table a statement names. */
  const DATASET_PREFIX: string := PROJECT_ID + "." + DATASET_NAME + "."

  /** PROJECT_ID.DATASET_NAME.table_name, the table every statement of a gateway targets. */
  function QualifiedName(tableName: string): string {
    DATASET_PREFIX + tableName
  }

  /** The table a qualified name denotes, None for a name outside the dataset. */
  function TableOf(target: string): (r: Option<string>)
    ensures r.Some? ==> QualifiedName(r.value) == target
    ensures r.None? ==> forall t :: QualifiedName(t) != target
  {
    if |DATASET_PREFIX| <= |target| && target[..|DATASET_PREFIX|] == DATASET_PREFIX then
      assert target == DATASET_PREFIX + target[|DATASET_PREFIX|..];
      Some(target[|DATASET_PREFIX|..])
    else
      assert forall t :: (DATASET_PREFIX + t)[..|DATASET_PREFIX|] == DATASET_PREFIX;
      None
  }

  /** Qualifying a table name and resolving it again gives the table back. */
  lemma TableOfQualifiedName(tableName: string)
    ensures TableOf(QualifiedName(tableName)) == Some(tableName)
  {
    var q := QualifiedName(tableName);
    assert q[..|DATASET_PREFIX|] == DATASET_PREFIX;
    assert q[|DATASET_PREFIX|..] == tableName;
  }

  /** The cell a JSON value becomes when its field is written to a row. */
  function CellOf(j: Json): Value {
    match j
    case JInt(i) => VInt(i)
    case JBool(b) => VBool(b)
    case JString(s) => VString(s)
    case _ => VNull
  }

  function OptionalStringCell(o: Option<string>): Value {
    match o
    case Some(s) => VString(s)
    case None => VNull
  }

  function OptionalBoolCell(o: Option<bool>): Value {
    match o
    case Some(b) => VBool(b)
    case None => VNull
  }

  /** What '{x}' interpolates for an Optional[str] field: the text, or the word None when it is None. */
  function QuotedText(o: Option<string>): Value {
    match o
    case Some(s) => VString(s)
    case None => VString("None")
  }

  // ---------------------------------------------------------------------------
  // Phase table: key step_id
  // ---------------------------------------------------------------------------

  /** The table's columns in the order of the insert tuple. */
  const PHASE_COLUMNS: seq<string> := ["step_id", "name", "description", "orders", "is_optional", "parent_step_id"]

  lemma PhaseColumnsDistinct()
    ensures NoDuplicates(PHASE_COLUMNS)
  {
  }

  /** The tuple insert_phase appends: (step_id, name.value, description, orders, is_optional, parent_step_id). */
  function PhaseRow(p: PhaseModel): (r: Row)
    ensures |r| == |PHASE_COLUMNS|
    ensures forall i :: 0 <= i < |r| ==> r[i] == CellOf(PhasePayload(p)[PHASE_COLUMNS[i]])
  {
    [VInt(p.stepId), VString(PhaseValue(p.name)), VString(p.description), VInt(p.orders),
     VBool(p.isOptional), VInt(p.parentStepId)]
  }

  /** The statement update_phase builds. */
  function UpdatePhaseStatement(tableName: string, p: PhaseModel): (s: Statement)
    ensures s.target == QualifiedName(tableName)
    ensures KeyedUpdate(PHASE_COLUMNS, 1, s)
    ensures Values(s.filter) == [VInt(p.stepId)]
    ensures Values(s.filter) + Values(s.assignments) == PhaseRow(p)
    ensures WhereClause(s.filter) == "step_id = " + IntToString(p.stepId)
  {
    Update(QualifiedName(tableName),
      [Binding("name", VString(PhaseValue(p.name))),
       Binding("description", VString(p.description)),
       Binding("orders", VInt(p.orders)),
       Binding("is_optional", VBool(p.isOptional)),
       Binding("parent_step_id", VInt(p.parentStepId))],
      [Binding("step_id", VInt(p.stepId))])
  }

  /** The statement delete_phase builds. */
  function DeletePhaseStatement(tableName: string, stepId: int): (s: Statement)
    ensures s.target == QualifiedName(tableName)
    ensures KeyedDelete(PHASE_COLUMNS, 1, s)
    ensures Values(s.filter) == [VInt(stepId)]
    ensures WhereClause(s.filter) == "step_id = " + IntToString(stepId)
  {
    Delete(QualifiedName(tableName), [Binding("step_id", VInt(stepId))])
  }

  /** Executed, update_phase rewrites every row with the record's step_id to the record's insert tuple. */
  lemma UpdatePhaseMeaning(tableName: string, rows: seq<Row>, p: PhaseModel)
    requires WellFormed(PHASE_COLUMNS, rows)
    ensures Execute(PHASE_COLUMNS, rows, UpdatePhaseStatement(tableName, p))
      == ReplaceKeyed(rows, [VInt(p.stepId)], PhaseRow(p))
  {
    PhaseColumnsDistinct();
    KeyedUpdateMeaning(PHASE_COLUMNS, 1, rows, UpdatePhaseStatement(tableName, p));
  }

  /** Executed, delete_phase(k) removes the rows with step_id k and keeps all others. */
  lemma DeletePhaseMeaning(tableName: string, rows: seq<Row>, stepId: int)
    requires WellFormed(PHASE_COLUMNS, rows)
    ensures Execute(PHASE_COLUMNS, rows, DeletePhaseStatement(tableName, stepId))
      == WithoutKey(rows, [VInt(stepId)])
  {
    PhaseColumnsDistinct();
    KeyedDeleteMeaning(PHASE_COLUMNS, 1, rows, DeletePhaseStatement(tableName, stepId));
  }

  /** The text of update_phase targets the gateway's table and carries name and description verbatim in quotes. */
  lemma UpdatePhaseText(tableName: string, p: PhaseModel)
    ensures IsSubstring(TableRef(QualifiedName(tableName)), Query(UpdatePhaseStatement(tableName, p)))
    ensures IsSubstring("'" + PhaseValue(p.name) + "'", Query(UpdatePhaseStatement(tableName, p)))
    ensures IsSubstring("'" + p.description + "'", Query(UpdatePhaseStatement(tableName, p)))
  {
    var s := UpdatePhaseStatement(tableName, p);
    QueryNamesTarget(s);
    QueryQuotesString(s, 0);
    QueryQuotesString(s, 1);
  }

  // ---------------------------------------------------------------------------
  // Progress table: key (step_id, entity_id)
  // ---------------------------------------------------------------------------

  const PROGRESS_COLUMNS: seq<string> := ["step_id", "entity_id", "start_date_time", "end_date_time", "is_successful"]

  lemma ProgressColumnsDistinct()
    ensures NoDuplicates(PROGRESS_COLUMNS)
  {
  }

  /** The tuple insert_progress appends: (step_id, entity_id, start_date_time, end_date_time, is_successful). */
  function ProgressRow(p: ProgressModel): (r: Row)
    ensures |r| == |PROGRESS_COLUMNS|
    ensures forall i :: 0 <= i < |r| ==> r[i] == CellOf(ProgressPayload(p)[PROGRESS_COLUMNS[i]])
  {
    [VInt(p.stepId), VInt(p.entityId), OptionalStringCell(p.startDateTime),
     OptionalStringCell(p.endDateTime), OptionalBoolCell(p.isSuccessful)]
  }

  /** The row update_progress leaves: the timestamps are quoted, so a None one is written as the text None. */
  function ProgressUpdateRow(p: ProgressModel): Row {
    [VInt(p.stepId), VInt(p.entityId), QuotedText(p.startDateTime),
     QuotedText(p.endDateTime), OptionalBoolCell(p.isSuccessful)]
  }

  /** update_progress writes what insert_progress would, unless a timestamp is None. */
  lemma ProgressUpdateAgreesWithInsert(p: ProgressModel)
    ensures ProgressUpdateRow(p) == ProgressRow(p) <==> p.startDateTime.Some? && p.endDateTime.Some?
  {
    if ProgressUpdateRow(p) == ProgressRow(p) {
      assert ProgressUpdateRow(p)[2] == ProgressRow(p)[2];
      assert ProgressUpdateRow(p)[3] == ProgressRow(p)[3];
    }
  }

  /** The statement update_progress builds. */
  function UpdateProgressStatement(tableName: string, p: ProgressModel): (s: Statement)
    ensures s.target == QualifiedName(tableName)
    ensures KeyedUpdate(PROGRESS_COLUMNS, 2, s)
    ensures Values(s.filter) == [VInt(p.stepId), VInt(p.entityId)]
    ensures Values(s.filter) + Values(s.assignments) == ProgressUpdateRow(p)
    ensures WhereClause(s.filter) == ("step_id = " + IntToString(p.stepId)) + " AND " + ("entity_id = " + IntToString(p.entityId))
  {
    WhereClauseOfPair(Binding("step_id", VInt(p.stepId)), Binding("entity_id", VInt(p.entityId)));
    Update(QualifiedName(tableName),
      [Binding("start_date_time", QuotedText(p.startDateTime)),
       Binding("end_date_time", QuotedText(p.endDateTime)),
       Binding("is_successful", OptionalBoolCell(p.isSuccessful))],
      [Binding("step_id", VInt(p.stepId)), Binding("entity_id", VInt(p.entityId))])
  }

  /** update_progress filters on both keys and assigns neither. */
  lemma UpdateProgressKeys(tableName: string, p: ProgressModel)
    ensures Columns(UpdateProgressStatement(tableName, p).filter) == ["step_id", "entity_id"]
    ensures "step_id" !in Columns(UpdateProgressStatement(tableName, p).assignments)
    ensures "entity_id" !in Columns(UpdateProgressStatement(tableName, p).assignments)
  {
  }

  /** The statement delete_progress builds. */
  function DeleteProgressStatement(tableName: string, stepId: int, entityId: int): (s: Statement)
    ensures s.target == QualifiedName(tableName)
    ensures KeyedDelete(PROGRESS_COLUMNS, 2, s)
    ensures Values(s.filter) == [VInt(stepId), VInt(entityId)]
    ensures WhereClause(s.filter) == ("step_id = " + IntToString(stepId)) + " AND " + ("entity_id = " + IntToString(entityId))
  {
    WhereClauseOfPair(Binding("step_id", VInt(stepId)), Binding("entity_id", VInt(entityId)));
    Delete(QualifiedName(tableName), [Binding("step_id", VInt(stepId)), Binding("entity_id", VInt(entityId))])
  }

  lemma UpdateProgressMeaning(tableName: string, rows: seq<Row>, p: ProgressModel)
    requires WellFormed(PROGRESS_COLUMNS, rows)
    ensures Execute(PROGRESS_COLUMNS, rows, UpdateProgressStatement(tableName, p))
      == ReplaceKeyed(rows, [VInt(p.stepId), VInt(p.entityId)], ProgressUpdateRow(p))
  {
    ProgressColumnsDistinct();
    KeyedUpdateMeaning(PROGRESS_COLUMNS, 2, rows, UpdateProgressStatement(tableName, p));
  }

  lemma DeleteProgressMeaning(tableName: string, rows: seq<Row>, stepId: int, entityId: int)
    requires WellFormed(PROGRESS_COLUMNS, rows)
    ensures Execute(PROGRESS_COLUMNS, rows, DeleteProgressStatement(tableName, stepId, entityId))
      == WithoutKey(rows, [VInt(stepId), VInt(entityId)])
  {
    ProgressColumnsDistinct();
    KeyedDeleteMeaning(PROGRESS_COLUMNS, 2, rows, DeleteProgressStatement(tableName, stepId, entityId));
  }

  lemma UpdateProgressText(tableName: string, p: ProgressModel)
    ensures IsSubstring(TableRef(QualifiedName(tableName)), Query(UpdateProgressStatement(tableName, p)))
    ensures IsSubstring("'" + QuotedText(p.startDateTime).s + "'", Query(UpdateProgressStatement(tableName, p)))
    ensures IsSubstring("'" + QuotedText(p.endDateTime).s + "'", Query(UpdateProgressStatement(tableName, p)))
  {
    var s := UpdateProgressStatement(tableName, p);
    QueryNamesTarget(s);
    QueryQuotesString(s, 0);
    QueryQuotesString(s, 1);
  }

  // ---------------------------------------------------------------------------
  // Entity table: key entity_id
  // ---------------------------------------------------------------------------

  const ENTITY_COLUMNS: seq<string> := [
    "entity_id", "application_name", "source_server", "source_database", "target_server",
    "target_database", "is_spdb", "migration_type", "migrator", "env"]

  lemma EntityColumnsDistinct()
    ensures NoDuplicates(ENTITY_COLUMNS)
  {
  }

  /** The ten-field tuple insert_entity appends, in column order. */
  function EntityRow(e: EntityModel): (r: Row)
    ensures |r| == |ENTITY_COLUMNS|
    ensures forall i :: 0 <= i < |r| ==> r[i] == CellOf(EntityPayload(e)[ENTITY_COLUMNS[i]])
  {
    [VInt(e.entityId), VString(e.applicationName), VString(e.sourceServer), VString(e.sourceDatabase),
     VString(e.targetServer), OptionalStringCell(e.targetDatabase), OptionalBoolCell(e.isSpdb),
     OptionalStringCell(e.migrationType), VString(e.migrator), OptionalStringCell(e.env)]
  }

  /** The row update_entity leaves: its string fields are quoted, so a None one is written as the text None. */
  function EntityUpdateRow(e: EntityModel): Row {
    [VInt(e.entityId), VString(e.applicationName), VString(e.sourceServer), VString(e.sourceDatabase),
     VString(e.targetServer), QuotedText(e.targetDatabase), OptionalBoolCell(e.isSpdb),
     QuotedText(e.migrationType), VString(e.migrator), QuotedText(e.env)]
  }

  /**
    update_entity writes what insert_entity would, unless one of the optional string fields is
    None; in particular the default target_database None is inserted as NULL but updated to 'None'.
   */
  lemma EntityUpdateAgreesWithInsert(e: EntityModel)
    ensures EntityUpdateRow(e) == EntityRow(e) <==>
      e.targetDatabase.Some? && e.migrationType.Some? && e.env.Some?
    ensures e.targetDatabase.None? ==> EntityRow(e)[5] == VNull && EntityUpdateRow(e)[5] == VString("None")
  {
    if EntityUpdateRow(e) == EntityRow(e) {
      assert EntityUpdateRow(e)[5] == EntityRow(e)[5];
      assert EntityUpdateRow(e)[7] == EntityRow(e)[7];
      assert EntityUpdateRow(e)[9] == EntityRow(e)[9];
    }
  }

  /** The statement update_entity builds: every field but entity_id in the SET list. */
  function UpdateEntityStatement(tableName: string, e: EntityModel): (s: Statement)
    ensures s.target == QualifiedName(tableName)
    ensures KeyedUpdate(ENTITY_COLUMNS, 1, s)
    ensures Values(s.filter) == [VInt(e.entityId)]
    ensures Values(s.filter) + Values(s.assignments) == EntityUpdateRow(e)
    ensures WhereClause(s.filter) == "entity_id = " + IntToString(e.entityId)
  {
    Update(QualifiedName(tableName),
      [Binding("application_name", VString(e.applicationName)),
       Binding("source_server", VString(e.sourceServer)),
       Binding("source_database", VString(e.sourceDatabase)),
       Binding("target_server", VString(e.targetServer)),
       Binding("target_database", QuotedText(e.targetDatabase)),
       Binding("is_spdb", OptionalBoolCell(e.isSpdb)),
       Binding("migration_type", QuotedText(e.migrationType)),
       Binding("migrator", VString(e.migrator)),
       Binding("env", QuotedText(e.env))],
      [Binding("entity_id", VInt(e.entityId))])
  }

  function DeleteEntityStatement(tableName: string, entityId: int): (s: Statement)
    ensures s.target == QualifiedName(tableName)
    ensures KeyedDelete(ENTITY_COLUMNS, 1, s)
    ensures Values(s.filter) == [VInt(entityId)]
    ensures WhereClause(s.filter) == "entity_id = " + IntToString(entityId)
  {
    Delete(QualifiedName(tableName), [Binding("entity_id", VInt(entityId))])
  }

  lemma UpdateEntityMeaning(tableName: string, rows: seq<Row>, e: EntityModel)
    requires WellFormed(ENTITY_COLUMNS, rows)
    ensures Execute(ENTITY_COLUMNS, rows, UpdateEntityStatement(tableName, e))
      == ReplaceKeyed(rows, [VInt(e.entityId)], EntityUpdateRow(e))
  {
    EntityColumnsDistinct();
    KeyedUpdateMeaning(ENTITY_COLUMNS, 1, rows, UpdateEntityStatement(tableName, e));
  }

  lemma DeleteEntityMeaning(tableName: string, rows: seq<Row>, entityId: int)
    requires WellFormed(ENTITY_COLUMNS, rows)
    ensures Execute(ENTITY_COLUMNS, rows, DeleteEntityStatement(tableName, entityId))
      == WithoutKey(rows, [VInt(entityId)])
  {
    EntityColumnsDistinct();
    KeyedDeleteMeaning(ENTITY_COLUMNS, 1, rows, DeleteEntityStatement(tableName, entityId));
  }

  /** update_entity targets the gateway's table and quotes the four server and database names verbatim. */
  lemma UpdateEntityText(tableName: string, e: EntityModel)
    ensures IsSubstring(TableRef(QualifiedName(tableName)), Query(UpdateEntityStatement(tableName, e)))
    ensures IsSubstring("'" + e.applicationName + "'", Query(UpdateEntityStatement(tableName, e)))
    ensures IsSubstring("'" + e.sourceServer + "'", Query(UpdateEntityStatement(tableName, e)))
    ensures IsSubstring("'" + e.sourceDatabase + "'", Query(UpdateEntityStatement(tableName, e)))
    ensures IsSubstring("'" + e.targetServer + "'", Query(UpdateEntityStatement(tableName, e)))
  {
    var s := UpdateEntityStatement(tableName, e);
    QueryNamesTarget(s);
    QueryQuotesString(s, 0);
    QueryQuotesString(s, 1);
    QueryQuotesString(s, 2);
    QueryQuotesString(s, 3);
  }

  /** update_entity quotes the remaining string fields too, a None one as the text None. */
  lemma UpdateEntityOptionalText(tableName: string, e: EntityModel)
    ensures IsSubstring("'" + QuotedText(e.targetDatabase).s + "'", Query(UpdateEntityStatement(tableName, e)))
    ensures IsSubstring("'" + QuotedText(e.migrationType).s + "'", Query(UpdateEntityStatement(tableName, e)))
    ensures IsSubstring("'" + e.migrator + "'", Query(UpdateEntityStatement(tableName, e)))
    ensures IsSubstring("'" + QuotedText(e.env).s + "'", Query(UpdateEntityStatement(tableName, e)))
  {
    var s := UpdateEntityStatement(tableName, e);
    QueryQuotesString(s, 4);
    QueryQuotesString(s, 6);
    QueryQuotesString(s, 7);
    QueryQuotesString(s, 8);
  }

  // ---------------------------------------------------------------------------
  // Entity object table: key object_id
  // ---------------------------------------------------------------------------

  const ENTITY_OBJECT_COLUMNS: seq<string> := ["object_id", "entity_id", "name", "size_in_mb"]

  lemma EntityObjectColumnsDistinct()
    ensures NoDuplicates(ENTITY_OBJECT_COLUMNS)
  {
  }

  /** The tuple insert_entity_object appends: (object_id, entity_id, name, size_in_mb). */
  function EntityObjectRow(o: EntityObjectModel): (r: Row)
    ensures |r| == |ENTITY_OBJECT_COLUMNS|
    ensures forall i :: 0 <= i < |r| ==> r[i] == CellOf(EntityObjectPayload(o)[ENTITY_OBJECT_COLUMNS[i]])
  {
    [VInt(o.objectId), VInt(o.entityId), VString(o.name), VInt(o.sizeInMb)]
  }

  /** The statement update_entity_object builds: entity_id is assigned, only object_id filters. */
  function UpdateEntityObjectStatement(tableName: string, o: EntityObjectModel): (s: Statement)
    ensures s.target == QualifiedName(tableName)
    ensures KeyedUpdate(ENTITY_OBJECT_COLUMNS, 1, s)
    ensures Columns(s.filter) == ["object_id"] && "entity_id" in Columns(s.assignments)
    ensures Values(s.filter) == [VInt(o.objectId)]
    ensures Values(s.filter) + Values(s.assignments) == EntityObjectRow(o)
    ensures WhereClause(s.filter) == "object_id = " + IntToString(o.objectId)
  {
    Update(QualifiedName(tableName),
      [Binding("entity_id", VInt(o.entityId)),
       Binding("name", VString(o.name)),
       Binding("size_in_mb", VInt(o.sizeInMb))],
      [Binding("object_id", VInt(o.objectId))])
  }

  function DeleteEntityObjectStatement(tableName: string, objectId: int): (s: Statement)
    ensures s.target == QualifiedName(tableName)
    ensures KeyedDelete(ENTITY_OBJECT_COLUMNS, 1, s)
    ensures Values(s.filter) == [VInt(objectId)]
    ensures WhereClause(s.filter) == "object_id = " + IntToString(objectId)
  {
    Delete(QualifiedName(tableName), [Binding("object_id", VInt(objectId))])
  }

  lemma UpdateEntityObjectMeaning(tableName: string, rows: seq<Row>, o: EntityObjectModel)
    requires WellFormed(ENTITY_OBJECT_COLUMNS, rows)
    ensures Execute(ENTITY_OBJECT_COLUMNS, rows, UpdateEntityObjectStatement(tableName, o))
      == ReplaceKeyed(rows, [VInt(o.objectId)], EntityObjectRow(o))
  {
    EntityObjectColumnsDistinct();
    KeyedUpdateMeaning(ENTITY_OBJECT_COLUMNS, 1, rows, UpdateEntityObjectStatement(tableName, o));
  }

  lemma DeleteEntityObjectMeaning(tableName: string, rows: seq<Row>, objectId: int)
    requires WellFormed(ENTITY_OBJECT_COLUMNS, rows)
    ensures Execute(ENTITY_OBJECT_COLUMNS, rows, DeleteEntityObjectStatement(tableName, objectId))
      == WithoutKey(rows, [VInt(objectId)])
  {
    EntityObjectColumnsDistinct();
    KeyedDeleteMeaning(ENTITY_OBJECT_COLUMNS, 1, rows, DeleteEntityObjectStatement(tableName, objectId));
  }

  lemma UpdateEntityObjectText(tableName: string, o: EntityObjectModel)
    ensures IsSubstring(TableRef(QualifiedName(tableName)), Query(UpdateEntityObjectStatement(tableName, o)))
    ensures IsSubstring("'" + o.name + "'", Query(UpdateEntityObjectStatement(tableName, o)))
  {
    var s := UpdateEntityObjectStatement(tableName, o);
    QueryNamesTarget(s);
    QueryQuotesString(s, 1);
  }
}
