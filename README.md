# Migration tracker: a Dafny model

The modelled service is a small Flask REST API. Its clients use it to record the progress of
database migrations in four BigQuery tables:

- phases (`migration_step`);
- per-entity progress (`migration_progress`);
- migrated applications, the "entities" (`migration_entity`);
- the database objects of each entity (`migration_entity_objects`).

A request body is validated against a pydantic record (`API/pydantics.py`). A table gateway turns the
record into a row tuple (insert) or into SQL text built by f-string interpolation (update and delete).
That code is in `utils/bq_client.py`, and it sends the result to the warehouse through one module-level
client. The HTTP handlers (`API/views.py`) return the gateway's `{'response': ...}` acknowledgement.
When anything raises, they return `{'response': False, 'result': str(e)}` instead.

The model has these modules and files:

- `Wrappers` (`wrappers.dfy`): `Option` and `Result`.
- `Text` (`text.dfy`): decimal rendering and parsing of integers, the `str(int)` of the f-strings and
  the `int(...)` of the query parameters. It also has `Join` and a substring predicate for statements
  about the SQL text.
- `PhaseLabels` (`schema.dfy`): one lemma per enumeration value, stating that each `Dev`/`Prod` value
  is its environment prefix joined to the step label. It is a separate module because these literal
  string facts are much cheaper to prove outside `Schema`'s large context. It has no counterpart in
  the source.
- `Schema` (`schema.dfy`): the `Phase` enumeration with its seventeen values, and the four records.
  - Each record has a validator from a JSON object, `Model(**body)`, that collects per-field errors.
  - Each record has its JSON form, and the validator reads that form back as the record.
  - Each record has an if-and-only-if lemma saying which bodies validate to which record, and
    lemmas for its defaults, its required fields and its wrongly typed fields.
- `Sql` (`sql.dfy`): a structured UPDATE/DELETE statement, `Query`, the text it renders to, and
  `Execute`, its meaning on a table of positional rows.
  - A *keyed* statement filters on a prefix of the schema (the key) and, for an UPDATE, sets the
    remaining columns.
  - A keyed UPDATE replaces exactly the rows holding the key (`ReplaceKeyed`).
  - A keyed DELETE removes exactly those rows (`WithoutKey`).
- `RowMapper` (`rowmapper.dfy`): what each `insert_*` appends and what each `update_*`/`delete_*`
  builds, for all four tables.
  - Each insert tuple holds, column by column, the validated record's value for that column,
    defaults included.
  - Each update and delete is keyed. Executed as `Query` spells it, it replaces or removes exactly
    the rows holding the key. How the warehouse unescapes quoted values is not modelled (see below).
- `Gateway` (`gateway.dfy`): the stateful part. `Dataset` is the warehouse as seen through the client.
  `BigQueryTable` has the three primitives. `PhaseTable`, `ProgressTable`, `EntityTable` and
  `EntityObjectTable` wrap a `BigQueryTable` by composition, standing for Python's subclassing.
  Every method states the dataset's whole new state.
- `Views` (`views.dfy`): the request readers and the thirteen handlers. Like the source, each handler
  builds a fresh gateway over the shared dataset. `HealthCheck` is also here.

Three behaviours of the source are stated as lemmas, not corrected:

- **Optional strings on update.** `update_entity` and `update_progress` quote their optional string
  fields (`'{entity.target_database}'`). A `None` therefore becomes the four-letter text `None`, while
  the insert tuple stores NULL (`EntityUpdateAgreesWithInsert`, `ProgressUpdateAgreesWithInsert`).
- **Refused inserts.** `insert_row` ignores the per-row errors `insert_rows` returns, so it answers
  `Success` even when the warehouse refused the row (`BigQueryTable.InsertRow`).
- **Silent updates and deletes.** An update or delete of a key no row holds succeeds and changes
  nothing (`AbsentKeyIsSilent`).

## Model

| member | source | states |
|---|---|---|
| Text.IntToString | utils/bq_client.py:148-152 | the decimal text of an integer used in a statement is non-empty and starts with '-' exactly when the integer is negative |
| Text.ParseInt | API/views.py:79-81 | `int(text)` succeeds exactly on an optionally signed run of ASCII digits |
| Text.ParseIntOfIntToString | API/views.py:79-81 | reading back the decimal text of any integer, negative ones included, gives that integer |
| Text.IntToStringInjective | utils/bq_client.py:151-152 | distinct keys render to distinct text in a WHERE clause |
| Schema.AllPhasesEnumerated | API/pydantics.py:7-26 | the enumeration has exactly seventeen pairwise distinct members, and every phase is among them |
| Schema.PhaseValueInjective | API/pydantics.py:7-26 | no two phases share a value string |
| Schema.PhaseValuesDistinct | API/pydantics.py:7-26 | the seventeen value strings are pairwise distinct |
| Schema.ParsePhase | API/pydantics.py:31 | looking a phase up by value finds the phase with that value, and fails exactly when no phase has it |
| Schema.ParsePhaseValue | API/pydantics.py:31 | every phase's own value is read back as that phase |
| Schema.ParsePhaseIff | API/pydantics.py:31 | a string is accepted as a phase name exactly when it is one of the seventeen values |
| Schema.PhaseKindValues | API/pydantics.py:10-26 | the Dev and Prod phase of each of the eight kinds are named "Dev " and "Prod " followed by the same kind name |
| Schema.PhaseKindPaired | API/pydantics.py:10-26 | "Dev <kind>" and "Prod <kind>" parse to the two phases of that kind |
| Schema.PhaseIsDevOrProd | API/pydantics.py:8-26 | every phase other than Not Started is the Dev or the Prod phase of some kind |
| Schema.RequiredInt | API/pydantics.py:30 | a required int field is read exactly when present with an integer value, and the read value is that integer |
| Schema.RequiredBool | API/pydantics.py:34 | a required bool field is read exactly when present with a boolean value, and the read value is that boolean |
| Schema.RequiredString | API/pydantics.py:32 | a required str field is read exactly when present with a string value, and the read value is that string |
| Schema.RequiredPhase | API/pydantics.py:31 | the name field is read exactly when it is a string that names a phase, and that phase's value is the string sent |
| Schema.OptionalStringReads | API/pydantics.py:41-42 | an Optional[str] field reads as a value exactly when it sends that value (null for None), or is absent and the value is the default |
| Schema.OptionalBoolReads | API/pydantics.py:43 | an Optional[bool] field reads as a value exactly when it sends that value (null for None), or is absent and the value is the default |
| Schema.ValidatePhase | API/pydantics.py:29-35 | a refused body always comes with at least one field error |
| Schema.ValidatePhaseExactly | API/pydantics.py:29-35 | a body validates to a given record exactly when its six fields hold that record's values, whatever other keys it has |
| Schema.ValidatePhasePayload | API/pydantics.py:29-35 | the JSON form of any phase record validates to that record |
| Schema.PhaseFieldsRequired | API/pydantics.py:30-35 | leaving out any of the six fields is refused with a Missing error naming it |
| Schema.PhaseNameMustBeListed | API/pydantics.py:31 | a name that is not an enumeration value is refused with a NotAPhase error on name |
| Schema.ValidateProgress | API/pydantics.py:38-43 | a refused body always comes with at least one field error |
| Schema.ValidateProgressPayload | API/pydantics.py:38-43 | the JSON form of any progress record validates to that record, whatever the clock reads |
| Schema.ProgressDefaults | API/pydantics.py:41-43 | in any body that validates, an absent start_date_time or end_date_time takes its clock reading and an absent is_successful takes false, whatever else the body holds |
| Schema.ProgressKeysSuffice | API/pydantics.py:38-43 | any body with integer step_id and entity_id and none of the optional fields validates, unknown keys ignored, with all three defaults |
| Schema.ProgressKeysRequired | API/pydantics.py:39-40 | leaving out step_id or entity_id is refused with a Missing error naming it |
| Schema.ValidateProgressExactly | API/pydantics.py:38-43 | a body validates to a record exactly when both keys hold its values and each optional field is either sent with its value or absent with the record holding the default; other keys are ignored |
| Schema.ProgressWrongType | API/pydantics.py:38-43 | a non-integer key, null included, or an optional field holding neither null nor its type is refused with a WrongType error naming it |
| Schema.ValidateEntity | API/pydantics.py:46-56 | a refused body always comes with at least one field error |
| Schema.ValidateEntityPayload | API/pydantics.py:46-56 | the JSON form of any entity record validates to that record |
| Schema.EntityDefaults | API/pydantics.py:52-56 | in any body that validates, an absent target_database is None, is_spdb false, migration_type Downtime and env Development, each independently of the other fields |
| Schema.EntityRequiredSuffice | API/pydantics.py:46-56 | any body with the six required fields of the right types and none of the optional ones validates, unknown keys ignored, with all four defaults |
| Schema.EntityFieldsRequired | API/pydantics.py:47-55 | leaving out any of the six required fields is refused with a Missing error naming it |
| Schema.ValidateEntityExactly | API/pydantics.py:46-56 | a body validates to a record exactly when the six required fields hold its values and each optional field is either sent with its value or absent with the record holding the default; other keys are ignored |
| Schema.EntityWrongType | API/pydantics.py:47-51 | a required field of the wrong type, null included, is refused with a WrongType error naming it |
| Schema.EntityOptionalWrongType | API/pydantics.py:52-56 | an optional field holding neither null nor its type is refused with a WrongType error naming it |
| Schema.ValidateEntityObject | API/pydantics.py:59-63 | a refused body always comes with at least one field error |
| Schema.ValidateEntityObjectPayload | API/pydantics.py:59-63 | the JSON form of any entity object record validates to that record |
| Schema.EntityObjectFieldsRequired | API/pydantics.py:60-63 | leaving out any of the four fields is refused with a Missing error naming it |
| Schema.ValidateEntityObjectExactly | API/pydantics.py:59-63 | a body validates to a record exactly when its four fields hold the record's values; other keys are ignored |
| Schema.EntityObjectWrongType | API/pydantics.py:59-63 | a field of the wrong type, null included, is refused with a WrongType error naming it |
| Sql.QueryNamesTarget | utils/bq_client.py:142-144 | the statement text names its target table between backticks |
| Sql.QueryShowsAssignment | utils/bq_client.py:145-150 | every `column = value` of the SET list appears in the text |
| Sql.QueryShowsPredicate | utils/bq_client.py:151-152 | every `column = value` of the WHERE clause appears in the text |
| Sql.QueryQuotesString | utils/bq_client.py:146-147 | a string value in the SET list appears in the text verbatim between single quotes, quotes inside it unescaped |
| Sql.WhereClauseOfPair | utils/bq_client.py:228-231 | a two-key filter reads `a AND b` |
| Sql.ReplaceKeyed | utils/bq_client.py:133-154 | an update by key keeps the row count, rewrites every row holding the key and leaves all others alone |
| Sql.WithoutKeyRemovesExactlyKeyed | utils/bq_client.py:156-171 | a delete by key leaves no row with the key, and keeps every other row exactly as often as before |
| Sql.AbsentKeyUnchanged | utils/bq_client.py:133-171 | updating or deleting a key no row holds leaves the table as it was |
| Sql.ExecuteKeepsWidth | utils/bq_client.py:66-94 | running a statement keeps every row as wide as the table's schema |
| Sql.KeyedUpdateMeaning | utils/bq_client.py:142-153 | a keyed UPDATE rewrites exactly the rows holding its key, to the key followed by the SET values |
| Sql.KeyedDeleteMeaning | utils/bq_client.py:165-170 | a keyed DELETE removes exactly the rows holding its key |
| RowMapper.TableOf | utils/bq_client.py:144 | a target resolves to a table whose qualified name it is, and fails only when no table has that name |
| RowMapper.TableOfQualifiedName | utils/bq_client.py:144 | the qualified `PROJECT_ID.DATASET_NAME.table` name of a table resolves back to that table |
| RowMapper.PhaseRow | utils/bq_client.py:123-130 | the insert tuple has one cell per column, and each cell is the validated record's value for that column; phases have no defaults, so these are the values sent |
| RowMapper.UpdatePhaseStatement | utils/bq_client.py:142-153 | update_phase targets the gateway's table and filters on step_id alone; key plus SET values equal the insert tuple |
| RowMapper.DeletePhaseStatement | utils/bq_client.py:165-170 | delete_phase targets the gateway's table and filters on step_id alone |
| RowMapper.UpdatePhaseMeaning | utils/bq_client.py:133-154 | executed, update_phase replaces every row with the record's step_id by the record's insert tuple |
| RowMapper.DeletePhaseMeaning | utils/bq_client.py:156-171 | executed, delete_phase removes exactly the rows with that step_id |
| RowMapper.UpdatePhaseText | utils/bq_client.py:142-147 | the update text names the table and carries name and description verbatim in quotes |
| RowMapper.ProgressRow | utils/bq_client.py:201-207 | the insert tuple has one cell per column, and each cell is the validated record's value for that column, defaults included, NULL for None |
| RowMapper.ProgressUpdateAgreesWithInsert | utils/bq_client.py:224-227 | update_progress writes the insert tuple exactly when neither timestamp is None |
| RowMapper.UpdateProgressStatement | utils/bq_client.py:221-232 | update_progress targets the table and filters on step_id AND entity_id; a None timestamp is set to the text None |
| RowMapper.UpdateProgressKeys | utils/bq_client.py:221-232 | update_progress filters on both keys and assigns neither |
| RowMapper.DeleteProgressStatement | utils/bq_client.py:245-252 | delete_progress filters on step_id AND entity_id |
| RowMapper.UpdateProgressMeaning | utils/bq_client.py:210-233 | executed, update_progress rewrites exactly the rows with the record's (step_id, entity_id) |
| RowMapper.DeleteProgressMeaning | utils/bq_client.py:235-253 | executed, delete_progress removes exactly the rows with that pair |
| RowMapper.UpdateProgressText | utils/bq_client.py:223-226 | the update text names the table and quotes both timestamps |
| RowMapper.EntityRow | utils/bq_client.py:282-293 | the ten-cell insert tuple holds, column by column, the validated record's values, defaults included, NULL for None |
| RowMapper.EntityUpdateAgreesWithInsert | utils/bq_client.py:309-317 | update_entity writes the insert tuple exactly when target_database, migration_type and env are all set; a None target_database is inserted as NULL but updated to the text None |
| RowMapper.UpdateEntityStatement | utils/bq_client.py:305-320 | update_entity filters on entity_id alone and sets the other nine columns |
| RowMapper.DeleteEntityStatement | utils/bq_client.py:332-337 | delete_entity filters on entity_id alone |
| RowMapper.UpdateEntityMeaning | utils/bq_client.py:296-321 | executed, update_entity rewrites exactly the rows with the entity's entity_id |
| RowMapper.DeleteEntityMeaning | utils/bq_client.py:323-338 | executed, delete_entity removes exactly the rows with that entity_id |
| RowMapper.UpdateEntityText | utils/bq_client.py:307-312 | the update text names the table and quotes the application, server and database names verbatim |
| RowMapper.UpdateEntityOptionalText | utils/bq_client.py:313-317 | the update text quotes target_database, migration_type, migrator and env, a None one as the text None |
| RowMapper.EntityObjectRow | utils/bq_client.py:367-372 | the insert tuple holds, column by column, the validated record's values; all four fields are required, so these are the values sent |
| RowMapper.UpdateEntityObjectStatement | utils/bq_client.py:384-393 | update_entity_object filters on object_id alone and sets entity_id, name and size_in_mb; key plus SET values equal the insert tuple |
| RowMapper.DeleteEntityObjectStatement | utils/bq_client.py:405-410 | delete_entity_object filters on object_id alone |
| RowMapper.UpdateEntityObjectMeaning | utils/bq_client.py:375-394 | executed, update_entity_object replaces every row with the object_id by the object's insert tuple |
| RowMapper.DeleteEntityObjectMeaning | utils/bq_client.py:396-411 | executed, delete_entity_object removes exactly the rows with that object_id |
| RowMapper.UpdateEntityObjectText | utils/bq_client.py:384-390 | the update text names the table and quotes the object's name verbatim |
| Gateway.InsertAppendsOnly | utils/bq_client.py:51-64 | an insert appends its row to its own table when the warehouse takes it, changes nothing otherwise, and never touches another table or breaks the dataset's shape |
| Gateway.QueryTouchesOnlyTarget | utils/bq_client.py:66-94 | a statement changes at most the table it names, changes nothing when the client raises, and keeps the dataset's shape |
| Gateway.QueryOnTable | utils/bq_client.py:66-94 | a statement on one of the four tables naming only its columns runs there |
| Gateway.AbsentKeyIsSilent | utils/bq_client.py:66-94 | a keyed update or delete of a key no row holds is acknowledged and leaves the dataset as it was |
| Gateway.Dataset.constructor | utils/bq_client.py:21 | the client sees the dataset's four tables with their contents |
| Gateway.Dataset.InsertRows | utils/bq_client.py:62-63 | get_table plus insert_rows: raises for a missing table or a tuple of the wrong length, otherwise appends the row unless the warehouse refuses it |
| Gateway.Dataset.RunQuery | utils/bq_client.py:77-78 | query plus result: raises for an unknown table or column, otherwise runs the statement on the table it names |
| Gateway.BigQueryTable.constructor | utils/bq_client.py:28-38 | a table object holds its name and the shared client |
| Gateway.BigQueryTable.InsertRow | utils/bq_client.py:51-64 | acknowledges Success whenever the client does not raise, even if the row was refused |
| Gateway.BigQueryTable.UpdateRow | utils/bq_client.py:66-79 | runs whatever statement it is given and acknowledges Updated unless the client raises |
| Gateway.BigQueryTable.DeleteRow | utils/bq_client.py:81-94 | runs whatever statement it is given and acknowledges Deleted unless the client raises |
| Gateway.PhaseTable.constructor | utils/bq_client.py:101-112 | the gateway is bound to TBL_MIGRATION_STEP |
| Gateway.PhaseTable.InsertPhase | utils/bq_client.py:114-131 | appends the phase's tuple to the step table and nothing else |
| Gateway.PhaseTable.UpdatePhase | utils/bq_client.py:133-154 | replaces the rows with the step_id by the phase's tuple, touching no other table |
| Gateway.PhaseTable.DeletePhase | utils/bq_client.py:156-171 | removes exactly the rows with the step_id |
| Gateway.ProgressTable.constructor | utils/bq_client.py:178-190 | the gateway is bound to TBL_MIGRATION_PROGRESS |
| Gateway.ProgressTable.InsertProgress | utils/bq_client.py:192-208 | appends the progress tuple to the progress table |
| Gateway.ProgressTable.UpdateProgress | utils/bq_client.py:210-233 | rewrites exactly the rows with the (step_id, entity_id) pair |
| Gateway.ProgressTable.DeleteProgress | utils/bq_client.py:235-253 | removes exactly the rows with the pair |
| Gateway.EntityTable.constructor | utils/bq_client.py:260-271 | the gateway is bound to TBL_MIGRATION_ENTITY |
| Gateway.EntityTable.InsertEntity | utils/bq_client.py:273-294 | appends the entity's ten-field tuple |
| Gateway.EntityTable.UpdateEntity | utils/bq_client.py:296-321 | rewrites exactly the rows with the entity_id |
| Gateway.EntityTable.DeleteEntity | utils/bq_client.py:323-338 | removes exactly the rows with the entity_id |
| Gateway.EntityObjectTable.constructor | utils/bq_client.py:345-356 | the gateway is bound to TBL_MIGRATION_ENTITY_OBJECTS |
| Gateway.EntityObjectTable.InsertEntityObject | utils/bq_client.py:358-373 | appends the object's tuple |
| Gateway.EntityObjectTable.UpdateEntityObject | utils/bq_client.py:375-394 | replaces the rows with the object_id by the object's tuple |
| Gateway.EntityObjectTable.DeleteEntityObject | utils/bq_client.py:396-411 | removes exactly the rows with the object_id |
| Views.Respond | API/views.py:38-43 | a gateway acknowledgement is returned as is, and a raised client error becomes the failure envelope |
| Views.PhaseRequest | API/views.py:36 | a body that is not an object fails, and otherwise the handler gets exactly what PhaseModel validation gives |
| Views.ProgressRequest | API/views.py:105 | the same for ProgressModel, with the clock readings |
| Views.EntityRequest | API/views.py:177 | the same for EntityModel |
| Views.EntityObjectRequest | API/views.py:248 | the same for EntityObjectModel |
| Views.RequestsOfPayloads | API/views.py:36 | the JSON form of any record of the four kinds is read by its handler as that record |
| Views.KeyParameter | API/views.py:79-81 | a key parameter is read exactly when present and an integer literal; absent and malformed give their own failures |
| Views.KeyParameterOfDecimal | API/views.py:79-81 | a key written in decimal is read back as that key |
| Views.ProgressKeys | API/views.py:149-152 | both keys are needed; step_id is read first, so its failure is the one reported |
| Views.PostPhase | API/views.py:23-43 | an invalid body leaves every table untouched; a valid one appends its tuple unless the client raises |
| Views.PutPhase | API/views.py:45-64 | an invalid body, such as an unlisted phase name, leaves every table untouched; a valid one rewrites the rows with its step_id |
| Views.DeletePhase | API/views.py:66-86 | a missing or malformed step_id leaves every table untouched; otherwise the rows with that step_id go |
| Views.PostProgress | API/views.py:94-112 | an invalid body changes nothing; a valid one appends its tuple |
| Views.PutProgress | API/views.py:114-134 | an invalid body changes nothing; a valid one rewrites the rows with its key pair |
| Views.DeleteProgress | API/views.py:136-157 | the rows with the (step_id, entity_id) pair go, or nothing changes when a key is missing or malformed |
| Views.PostEntity | API/views.py:165-184 | an invalid body changes nothing; a valid one appends its tuple, defaults included |
| Views.PutEntity | API/views.py:186-205 | an invalid body changes nothing; a valid one rewrites the rows with its entity_id |
| Views.DeleteEntity | API/views.py:207-227 | the rows with the entity_id go, or nothing changes when it is missing or malformed |
| Views.PostEntityObject | API/views.py:235-255 | an invalid body changes nothing; a valid one appends its tuple |
| Views.PutEntityObject | API/views.py:257-276 | an invalid body changes nothing; a valid one rewrites the rows with its object_id |
| Views.DeleteEntityObject | API/views.py:278-298 | the rows with the object_id go, or nothing changes when it is missing or malformed |
| Views.HealthCheck.constructor | API/views.py:302-312 | the resource's message is Success |
| Views.HealthCheck.Get | API/views.py:314-323 | get returns the resource's message |
| Views.CheckHealth | API/views.py:301-323 | a health check, on a fresh resource as Flask builds one per request, answers Success |

## Left out

- The BigQuery client's own behaviour is not modelled. Its network, credentials, quotas and eventual
  consistency become a `fault` parameter: when set, the call raises and nothing changes. The per-row
  errors `insert_rows` can return become a `refusals` parameter.
- Column types are not modelled. When the warehouse would reject a well-formed statement, that is
  covered by `fault` only. Examples are a bare `None` in `is_spdb = None`, the text `'None'` put into a
  TIMESTAMP column, or a quote inside a quoted value that breaks the statement. The injection reading
  of such a quote is not modelled. `QueryQuotesString` states only that values are interpolated
  verbatim.
- String values containing a backslash or a quote are not stored verbatim by the warehouse. A quoted
  GoogleSQL literal processes escapes, so `'dbo\test'` stores a tab and `'a\\b'` stores `a\b`, and
  such an update still answers Updated. An illegal escape such as `'HOST\SQLEXPRESS'` is refused, which
  `fault` covers. `RowMapper.UpdatePhaseMeaning`, `UpdateProgressMeaning`, `UpdateEntityMeaning` and
  `UpdateEntityObjectMeaning` describe the statement as `Query` spells it, with the raw text stored.
- Integer width is not modelled. Dafny's `int` is unbounded, while the columns are INT64: a key or
  size of 2^63 or more is refused by the warehouse, which only `fault` covers. Python's `int()` also
  refuses query strings longer than 4300 digits, which `Views.KeyParameter` accepts.
- The SQL text is modelled up to the layout whitespace of the f-strings. The warehouse is taken to
  run the statement that `Query` spells, not to parse the text.
- The `constants` module is not part of this model. `PROJECT_ID`, `DATASET_NAME` and the `TBL_*` names
  are placeholder strings. The four table names are distinct, as the real ones are.
- The table schemas are taken to be the columns of the insert tuples, in tuple order. The warehouse
  DDL is not part of this model.
- Flask and flask_restful wiring is not modelled: the blueprint, the routes, `request.get_json()`
  and `request.args`. The body becomes `Option<Payload>`, where None is a body that is not a JSON
  object, and the query string becomes a map. An HTTP status code is never set by the source and not
  modelled.
- Logging of caught exceptions (`loggers.logger`) and `app.py` are left out. Neither changes a
  response or a table.
- `str(e)` in the failure envelope is modelled as the structured fault, not its message text.
- Pydantic's lax coercion is left out, such as "5" accepted as an int or 1 as a bool. So is the JSON
  shape of the validation errors. `JOther` stands for floats, arrays and objects, which every field
  refuses.
- Datetime parsing and formatting are left out. A timestamp is its text, and `datetime.now` for the
  two defaults is two clock readings passed in. So the model accepts any string as a timestamp and
  refuses every number. Pydantic refuses strings it cannot parse as a datetime and accepts
  Unix-epoch numbers such as `"start_date_time": 1700000000`.
- `Text.ParseInt` accepts an optional sign and ASCII digits. Python's `int()` also accepts
  surrounding whitespace, underscores between digits and non-ASCII digits. Those forms are refused
  here.
- Concurrency between requests is left out: each handler runs alone.
