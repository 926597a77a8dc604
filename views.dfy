/**
  API/views.py: the handlers of the four table resources and the health check.
  Each handler validates its input, builds a fresh gateway over the shared
  dataset, and turns any exception into {'response': False, 'result': str(e)}.
 */
module Views {
  import opened Wrappers
  import opened Text
  import opened Schema
  import opened Sql
  import opened RowMapper
  import opened Gateway

  /** The exception a handler caught. */
  datatype Fault =
    | NotAnObject                             // the body is not a JSON object, so Model(**body) raises TypeError
    | Invalid(errors: ValidationErrors)       // the model's validation raised
    | MissingParameter(name: string)          // request.args.get gave None, so int(None) raises TypeError
    | NotAnInteger(name: string, text: string) // int(text) raised ValueError
    | Storage(fault: StorageFault)            // the client raised

  /** What a handler returns: the gateway's acknowledgement, or the failure envelope. */
  datatype Response = Answer(ack: Ack) | Failed(result: Fault)

  function Respond(r: Result<Ack, StorageFault>): (resp: Response)
    ensures r.Success? <==> resp.Answer?
    ensures r.Success? ==> resp.ack == r.value
    ensures r.Failure? ==> resp.result == Storage(r.error)
  {
    match r
    case Success(ack) => Answer(ack)
    case Failure(e) => Failed(Storage(e))
  }

  // ---------------------------------------------------------------------------
  // Reading the request
  // ---------------------------------------------------------------------------

  function Validated<T>(r: Result<T, ValidationErrors>): Result<T, Fault> {
    match r
    case Success(m) => Success(m)
    case Failure(es) => Failure(Invalid(es))
  }

  /** pydantics.PhaseModel(**request.get_json()); None stands for a body that is not a JSON object. */
  function PhaseRequest(body: Option<Payload>): (r: Result<PhaseModel, Fault>)
    ensures body.None? ==> r == Failure(NotAnObject)
    ensures body.Some? && ValidatePhase(body.value).Success? ==> r == Success(ValidatePhase(body.value).value)
    ensures body.Some? && ValidatePhase(body.value).Failure? ==> r == Failure(Invalid(ValidatePhase(body.value).error))
  {
    match body
    case None => Failure(NotAnObject)
    case Some(b) => Validated(ValidatePhase(b))
  }

  /** pydantics.ProgressModel(**request.get_json()), the two clock readings given. */
  function ProgressRequest(body: Option<Payload>, startNow: Timestamp, endNow: Timestamp): (r: Result<ProgressModel, Fault>)
    ensures body.None? ==> r == Failure(NotAnObject)
    ensures body.Some? && ValidateProgress(body.value, startNow, endNow).Success? ==>
      r == Success(ValidateProgress(body.value, startNow, endNow).value)
    ensures body.Some? && ValidateProgress(body.value, startNow, endNow).Failure? ==>
      r == Failure(Invalid(ValidateProgress(body.value, startNow, endNow).error))
  {
    match body
    case None => Failure(NotAnObject)
    case Some(b) => Validated(ValidateProgress(b, startNow, endNow))
  }

  function EntityRequest(body: Option<Payload>): (r: Result<EntityModel, Fault>)
    ensures body.None? ==> r == Failure(NotAnObject)
    ensures body.Some? && ValidateEntity(body.value).Success? ==> r == Success(ValidateEntity(body.value).value)
    ensures body.Some? && ValidateEntity(body.value).Failure? ==> r == Failure(Invalid(ValidateEntity(body.value).error))
  {
    match body
    case None => Failure(NotAnObject)
    case Some(b) => Validated(ValidateEntity(b))
  }

  function EntityObjectRequest(body: Option<Payload>): (r: Result<EntityObjectModel, Fault>)
    ensures body.None? ==> r == Failure(NotAnObject)
    ensures body.Some? && ValidateEntityObject(body.value).Success? ==> r == Success(ValidateEntityObject(body.value).value)
    ensures body.Some? && ValidateEntityObject(body.value).Failure? ==> r == Failure(Invalid(ValidateEntityObject(body.value).error))
  {
    match body
    case None => Failure(NotAnObject)
    case Some(b) => Validated(ValidateEntityObject(b))
  }

  /** The JSON a client would send for a record is read back as that record. */
  lemma RequestsOfPayloads(p: PhaseModel, g: ProgressModel, e: EntityModel, o: EntityObjectModel,
                           startNow: Timestamp, endNow: Timestamp)
    ensures PhaseRequest(Some(PhasePayload(p))) == Success(p)
    ensures ProgressRequest(Some(ProgressPayload(g)), startNow, endNow) == Success(g)
    ensures EntityRequest(Some(EntityPayload(e))) == Success(e)
    ensures EntityObjectRequest(Some(EntityObjectPayload(o))) == Success(o)
  {
    ValidatePhasePayload(p);
    ValidateProgressPayload(g, startNow, endNow);
    ValidateEntityPayload(e);
    ValidateEntityObjectPayload(o);
  }

  /** int(request.args.get(name)). */
  function KeyParameter(args: map<string, string>, name: string): (r: Result<int, Fault>)
    ensures r.Success? <==> name in args && IsIntLiteral(args[name])
    ensures r.Success? ==> ParseInt(args[name]) == Some(r.value)
    ensures name !in args ==> r == Failure(MissingParameter(name))
    ensures name in args && !IsIntLiteral(args[name]) ==> r == Failure(NotAnInteger(name, args[name]))
  {
    if name !in args then Failure(MissingParameter(name))
    else match ParseInt(args[name])
      case Some(k) => Success(k)
      case None => Failure(NotAnInteger(name, args[name]))
  }

  /** A key written out in decimal is read back as that key. */
  lemma KeyParameterOfDecimal(args: map<string, string>, name: string, k: int)
    requires name in args && args[name] == IntToString(k)
    ensures KeyParameter(args, name) == Success(k)
  {
    ParseIntOfIntToString(k);
  }

  /** The two keys of a progress delete, step_id read first: its failure is the one reported. */
  function ProgressKeys(args: map<string, string>): (r: Result<(int, int), Fault>)
    ensures r.Success? <==> KeyParameter(args, "step_id").Success? && KeyParameter(args, "entity_id").Success?
    ensures r.Success? ==> r.value == (KeyParameter(args, "step_id").value, KeyParameter(args, "entity_id").value)
    ensures KeyParameter(args, "step_id").Failure? ==> r == Failure(KeyParameter(args, "step_id").error)
    ensures KeyParameter(args, "step_id").Success? && KeyParameter(args, "entity_id").Failure? ==>
      r == Failure(KeyParameter(args, "entity_id").error)
  {
    match KeyParameter(args, "step_id")
    case Failure(e) => Failure(e)
    case Success(s) =>
      match KeyParameter(args, "entity_id")
      case Failure(e) => Failure(e)
      case Success(k) => Success((s, k))
  }

  // ---------------------------------------------------------------------------
  // PhaseTable resource
  // ---------------------------------------------------------------------------

  /** post: validate, then insert_phase. */
  method PostPhase(dataset: Dataset, body: Option<Payload>, fault: Option<string>, refusals: seq<string>)
    returns (resp: Response)
    requires dataset.Valid()
    modifies dataset
    ensures dataset.Valid()
    ensures PhaseRequest(body).Failure? ==>
      resp == Failed(PhaseRequest(body).error) && dataset.tables == old(dataset.tables)
    ensures PhaseRequest(body).Success? ==>
      && resp == Respond(if fault.Some? then Failure(Raised(fault.value)) else Success(INSERTED))
      && dataset.tables == if fault.None? && refusals == [] then
           old(dataset.tables)[TBL_MIGRATION_STEP := old(dataset.tables)[TBL_MIGRATION_STEP] + [PhaseRow(PhaseRequest(body).value)]]
         else old(dataset.tables)
  {
    var request := PhaseRequest(body);
    if request.Failure? {
      return Failed(request.error);
    }
    var gateway := new PhaseTable(dataset);
    var r := gateway.InsertPhase(request.value, fault, refusals);
    resp := Respond(r);
  }

  /** put: validate, then update_phase. */
  method PutPhase(dataset: Dataset, body: Option<Payload>, fault: Option<string>) returns (resp: Response)
    requires dataset.Valid()
    modifies dataset
    ensures dataset.Valid()
    ensures PhaseRequest(body).Failure? ==>
      resp == Failed(PhaseRequest(body).error) && dataset.tables == old(dataset.tables)
    ensures PhaseRequest(body).Success? ==>
      var p := PhaseRequest(body).value;
      && resp == Respond(if fault.Some? then Failure(Raised(fault.value)) else Success(UPDATED))
      && dataset.tables == if fault.None? then
           old(dataset.tables)[TBL_MIGRATION_STEP := ReplaceKeyed(old(dataset.tables)[TBL_MIGRATION_STEP], [VInt(p.stepId)], PhaseRow(p))]
         else old(dataset.tables)
  {
    var request := PhaseRequest(body);
    if request.Failure? {
      return Failed(request.error);
    }
    var gateway := new PhaseTable(dataset);
    var r := gateway.UpdatePhase(request.value, fault);
    resp := Respond(r);
  }

  /** delete: int(step_id) from the query string, then delete_phase. */
  method DeletePhase(dataset: Dataset, args: map<string, string>, fault: Option<string>) returns (resp: Response)
    requires dataset.Valid()
    modifies dataset
    ensures dataset.Valid()
    ensures KeyParameter(args, "step_id").Failure? ==>
      resp == Failed(KeyParameter(args, "step_id").error) && dataset.tables == old(dataset.tables)
    ensures KeyParameter(args, "step_id").Success? ==>
      && resp == Respond(if fault.Some? then Failure(Raised(fault.value)) else Success(DELETED))
      && dataset.tables == if fault.None? then
           old(dataset.tables)[TBL_MIGRATION_STEP :=
             WithoutKey(old(dataset.tables)[TBL_MIGRATION_STEP], [VInt(KeyParameter(args, "step_id").value)])]
         else old(dataset.tables)
  {
    var stepId := KeyParameter(args, "step_id");
    if stepId.Failure? {
      return Failed(stepId.error);
    }
    var gateway := new PhaseTable(dataset);
    var r := gateway.DeletePhase(stepId.value, fault);
    resp := Respond(r);
  }

  // ---------------------------------------------------------------------------
  // ProgressTable resource
  // ---------------------------------------------------------------------------

  method PostProgress(dataset: Dataset, body: Option<Payload>, startNow: Timestamp, endNow: Timestamp,
                      fault: Option<string>, refusals: seq<string>) returns (resp: Response)
    requires dataset.Valid()
    modifies dataset
    ensures dataset.Valid()
    ensures ProgressRequest(body, startNow, endNow).Failure? ==>
      resp == Failed(ProgressRequest(body, startNow, endNow).error) && dataset.tables == old(dataset.tables)
    ensures ProgressRequest(body, startNow, endNow).Success? ==>
      && resp == Respond(if fault.Some? then Failure(Raised(fault.value)) else Success(INSERTED))
      && dataset.tables == if fault.None? && refusals == [] then
           old(dataset.tables)[TBL_MIGRATION_PROGRESS := old(dataset.tables)[TBL_MIGRATION_PROGRESS]
             + [ProgressRow(ProgressRequest(body, startNow, endNow).value)]]
         else old(dataset.tables)
  {
    var request := ProgressRequest(body, startNow, endNow);
    if request.Failure? {
      return Failed(request.error);
    }
    var gateway := new ProgressTable(dataset);
    var r := gateway.InsertProgress(request.value, fault, refusals);
    resp := Respond(r);
  }

  method PutProgress(dataset: Dataset, body: Option<Payload>, startNow: Timestamp, endNow: Timestamp,
                     fault: Option<string>) returns (resp: Response)
    requires dataset.Valid()
    modifies dataset
    ensures dataset.Valid()
    ensures ProgressRequest(body, startNow, endNow).Failure? ==>
      resp == Failed(ProgressRequest(body, startNow, endNow).error) && dataset.tables == old(dataset.tables)
    ensures ProgressRequest(body, startNow, endNow).Success? ==>
      var g := ProgressRequest(body, startNow, endNow).value;
      && resp == Respond(if fault.Some? then Failure(Raised(fault.value)) else Success(UPDATED))
      && dataset.tables == if fault.None? then
           old(dataset.tables)[TBL_MIGRATION_PROGRESS := ReplaceKeyed(old(dataset.tables)[TBL_MIGRATION_PROGRESS],
             [VInt(g.stepId), VInt(g.entityId)], ProgressUpdateRow(g))]
         else old(dataset.tables)
  {
    var request := ProgressRequest(body, startNow, endNow);
    if request.Failure? {
      return Failed(request.error);
    }
    var gateway := new ProgressTable(dataset);
    var r := gateway.UpdateProgress(request.value, fault);
    resp := Respond(r);
  }

  /** delete: int(step_id), then int(entity_id), then delete_progress. */
  method DeleteProgress(dataset: Dataset, args: map<string, string>, fault: Option<string>) returns (resp: Response)
    requires dataset.Valid()
    modifies dataset
    ensures dataset.Valid()
    ensures ProgressKeys(args).Failure? ==>
      resp == Failed(ProgressKeys(args).error) && dataset.tables == old(dataset.tables)
    ensures ProgressKeys(args).Success? ==>
      var (stepId, entityId) := ProgressKeys(args).value;
      && resp == Respond(if fault.Some? then Failure(Raised(fault.value)) else Success(DELETED))
      && dataset.tables == if fault.None? then
           old(dataset.tables)[TBL_MIGRATION_PROGRESS :=
             WithoutKey(old(dataset.tables)[TBL_MIGRATION_PROGRESS], [VInt(stepId), VInt(entityId)])]
         else old(dataset.tables)
  {
    var keys := ProgressKeys(args);
    if keys.Failure? {
      return Failed(keys.error);
    }
    var gateway := new ProgressTable(dataset);
    var r := gateway.DeleteProgress(keys.value.0, keys.value.1, fault);
    resp := Respond(r);
  }

  // ---------------------------------------------------------------------------
  // EntityTable resource
  // ---------------------------------------------------------------------------

  method PostEntity(dataset: Dataset, body: Option<Payload>, fault: Option<string>, refusals: seq<string>)
    returns (resp: Response)
    requires dataset.Valid()
    modifies dataset
    ensures dataset.Valid()
    ensures EntityRequest(body).Failure? ==>
      resp == Failed(EntityRequest(body).error) && dataset.tables == old(dataset.tables)
    ensures EntityRequest(body).Success? ==>
      && resp == Respond(if fault.Some? then Failure(Raised(fault.value)) else Success(INSERTED))
      && dataset.tables == if fault.None? && refusals == [] then
           old(dataset.tables)[TBL_MIGRATION_ENTITY := old(dataset.tables)[TBL_MIGRATION_ENTITY] + [EntityRow(EntityRequest(body).value)]]
         else old(dataset.tables)
  {
    var request := EntityRequest(body);
    if request.Failure? {
      return Failed(request.error);
    }
    var gateway := new EntityTable(dataset);
    var r := gateway.InsertEntity(request.value, fault, refusals);
    resp := Respond(r);
  }

  method PutEntity(dataset: Dataset, body: Option<Payload>, fault: Option<string>) returns (resp: Response)
    requires dataset.Valid()
    modifies dataset
    ensures dataset.Valid()
    ensures EntityRequest(body).Failure? ==>
      resp == Failed(EntityRequest(body).error) && dataset.tables == old(dataset.tables)
    ensures EntityRequest(body).Success? ==>
      var e := EntityRequest(body).value;
      && resp == Respond(if fault.Some? then Failure(Raised(fault.value)) else Success(UPDATED))
      && dataset.tables == if fault.None? then
           old(dataset.tables)[TBL_MIGRATION_ENTITY := ReplaceKeyed(old(dataset.tables)[TBL_MIGRATION_ENTITY],
             [VInt(e.entityId)], EntityUpdateRow(e))]
         else old(dataset.tables)
  {
    var request := EntityRequest(body);
    if request.Failure? {
      return Failed(request.error);
    }
    var gateway := new EntityTable(dataset);
    var r := gateway.UpdateEntity(request.value, fault);
    resp := Respond(r);
  }

  method DeleteEntity(dataset: Dataset, args: map<string, string>, fault: Option<string>) returns (resp: Response)
    requires dataset.Valid()
    modifies dataset
    ensures dataset.Valid()
    ensures KeyParameter(args, "entity_id").Failure? ==>
      resp == Failed(KeyParameter(args, "entity_id").error) && dataset.tables == old(dataset.tables)
    ensures KeyParameter(args, "entity_id").Success? ==>
      && resp == Respond(if fault.Some? then Failure(Raised(fault.value)) else Success(DELETED))
      && dataset.tables == if fault.None? then
           old(dataset.tables)[TBL_MIGRATION_ENTITY :=
             WithoutKey(old(dataset.tables)[TBL_MIGRATION_ENTITY], [VInt(KeyParameter(args, "entity_id").value)])]
         else old(dataset.tables)
  {
    var entityId := KeyParameter(args, "entity_id");
    if entityId.Failure? {
      return Failed(entityId.error);
    }
    var gateway := new EntityTable(dataset);
    var r := gateway.DeleteEntity(entityId.value, fault);
    resp := Respond(r);
  }

  // ---------------------------------------------------------------------------
  // EntityObjectTable resource
  // ---------------------------------------------------------------------------

  method PostEntityObject(dataset: Dataset, body: Option<Payload>, fault: Option<string>, refusals: seq<string>)
    returns (resp: Response)
    requires dataset.Valid()
    modifies dataset
    ensures dataset.Valid()
    ensures EntityObjectRequest(body).Failure? ==>
      resp == Failed(EntityObjectRequest(body).error) && dataset.tables == old(dataset.tables)
    ensures EntityObjectRequest(body).Success? ==>
      && resp == Respond(if fault.Some? then Failure(Raised(fault.value)) else Success(INSERTED))
      && dataset.tables == if fault.None? && refusals == [] then
           old(dataset.tables)[TBL_MIGRATION_ENTITY_OBJECTS := old(dataset.tables)[TBL_MIGRATION_ENTITY_OBJECTS]
             + [EntityObjectRow(EntityObjectRequest(body).value)]]
         else old(dataset.tables)
  {
    var request := EntityObjectRequest(body);
    if request.Failure? {
      return Failed(request.error);
    }
    var gateway := new EntityObjectTable(dataset);
    var r := gateway.InsertEntityObject(request.value, fault, refusals);
    resp := Respond(r);
  }

  method PutEntityObject(dataset: Dataset, body: Option<Payload>, fault: Option<string>) returns (resp: Response)
    requires dataset.Valid()
    modifies dataset
    ensures dataset.Valid()
    ensures EntityObjectRequest(body).Failure? ==>
      resp == Failed(EntityObjectRequest(body).error) && dataset.tables == old(dataset.tables)
    ensures EntityObjectRequest(body).Success? ==>
      var o := EntityObjectRequest(body).value;
      && resp == Respond(if fault.Some? then Failure(Raised(fault.value)) else Success(UPDATED))
      && dataset.tables == if fault.None? then
           old(dataset.tables)[TBL_MIGRATION_ENTITY_OBJECTS := ReplaceKeyed(old(dataset.tables)[TBL_MIGRATION_ENTITY_OBJECTS],
             [VInt(o.objectId)], EntityObjectRow(o))]
         else old(dataset.tables)
  {
    var request := EntityObjectRequest(body);
    if request.Failure? {
      return Failed(request.error);
    }
    var gateway := new EntityObjectTable(dataset);
    var r := gateway.UpdateEntityObject(request.value, fault);
    resp := Respond(r);
  }

  method DeleteEntityObject(dataset: Dataset, args: map<string, string>, fault: Option<string>) returns (resp: Response)
    requires dataset.Valid()
    modifies dataset
    ensures dataset.Valid()
    ensures KeyParameter(args, "object_id").Failure? ==>
      resp == Failed(KeyParameter(args, "object_id").error) && dataset.tables == old(dataset.tables)
    ensures KeyParameter(args, "object_id").Success? ==>
      && resp == Respond(if fault.Some? then Failure(Raised(fault.value)) else Success(DELETED))
      && dataset.tables == if fault.None? then
           old(dataset.tables)[TBL_MIGRATION_ENTITY_OBJECTS :=
             WithoutKey(old(dataset.tables)[TBL_MIGRATION_ENTITY_OBJECTS], [VInt(KeyParameter(args, "object_id").value)])]
         else old(dataset.tables)
  {
    var objectId := KeyParameter(args, "object_id");
    if objectId.Failure? {
      return Failed(objectId.error);
    }
    var gateway := new EntityObjectTable(dataset);
    var r := gateway.DeleteEntityObject(objectId.value, fault);
    resp := Respond(r);
  }

  // ---------------------------------------------------------------------------
  // Health check
  // ---------------------------------------------------------------------------

  /** HealthCheck: a fixed message, returned by get. */
  class HealthCheck {
    const message: string

    constructor()
      ensures message == "Success"
    {
      message := "Success";
    }

    method Get() returns (m: string)
      ensures m == message
    {
      m := message;
    }
  }

  /** A health check answers Success, and touches no table. */
  method CheckHealth() returns (m: string)
    ensures m == "Success"
  {
    var resource := new HealthCheck();
    m := resource.Get();
  }
}
