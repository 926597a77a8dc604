/**
  Facts about the string literals of the Phase values, kept apart from the enumeration so that
  each comparison of literals is a small proof of its own.
 */
module PhaseLabels {
  lemma DevSchemaConversionText()
    ensures "Dev " + "Schema Conversion" == "Dev Schema Conversion"
  {
  }

  lemma ProdSchemaConversionText()
    ensures "Prod " + "Schema Conversion" == "Prod Schema Conversion"
  {
  }

  lemma DevSchemaBeforeConstraintsText()
    ensures "Dev " + "Schema Before Constraints" == "Dev Schema Before Constraints"
  {
  }

  lemma ProdSchemaBeforeConstraintsText()
    ensures "Prod " + "Schema Before Constraints" == "Prod Schema Before Constraints"
  {
  }

  lemma DevDataMovementText()
    ensures "Dev " + "Data Movement" == "Dev Data Movement"
  {
  }

  lemma ProdDataMovementText()
    ensures "Prod " + "Data Movement" == "Prod Data Movement"
  {
  }

  lemma DevSchemaAfterConstraintsText()
    ensures "Dev " + "Schema After Constraints" == "Dev Schema After Constraints"
  {
  }

  lemma ProdSchemaAfterConstraintsText()
    ensures "Prod " + "Schema After Constraints" == "Prod Schema After Constraints"
  {
  }

  lemma DevDataValidationText()
    ensures "Dev " + "Data Validation" == "Dev Data Validation"
  {
  }

  lemma ProdDataValidationText()
    ensures "Prod " + "Data Validation" == "Prod Data Validation"
  {
  }

  lemma DevApplicationConversionText()
    ensures "Dev " + "Application Conversion" == "Dev Application Conversion"
  {
  }

  lemma ProdApplicationConversionText()
    ensures "Prod " + "Application Conversion" == "Prod Application Conversion"
  {
  }

  lemma DevDataMigrationText()
    ensures "Dev " + "Data Migration" == "Dev Data Migration"
  {
  }

  lemma ProdDataMigrationText()
    ensures "Prod " + "Data Migration" == "Prod Data Migration"
  {
  }

  lemma DevCutOverText()
    ensures "Dev " + "Cutover" == "Dev Cutover"
  {
  }

  lemma ProdCutOverText()
    ensures "Prod " + "Cutover" == "Prod Cutover"
  {
  }
}

module Schema {
  import opened Wrappers
  import PhaseLabels

  // ---------------------------------------------------------------------------
  // Phase
  // ---------------------------------------------------------------------------

  datatype Phase =
    | NotStarted
    | DevSchemaConversion
    | DevSchemaBeforeConstraints
    | DevDataMovement
    | DevSchemaAfterConstraints
    | DevDataValidation
    | DevApplicationConversion
    | DevDataMigration
    | DevCutOver
    | ProdSchemaConversion
    | ProdSchemaBeforeConstraints
    | ProdDataMovement
    | ProdSchemaAfterConstraints
    | ProdDataValidation
    | ProdApplicationConversion
    | ProdDataMigration
    | ProdCutOver

  /** The string value of each member (Phase.X.value). */
  function PhaseValue(p: Phase): string {
    match p
    case NotStarted => "Not Started"
    case DevSchemaConversion => "Dev Schema Conversion"
    case DevSchemaBeforeConstraints => "Dev Schema Before Constraints"
    case DevDataMovement => "Dev Data Movement"
    case DevSchemaAfterConstraints => "Dev Schema After Constraints"
    case DevDataValidation => "Dev Data Validation"
    case DevApplicationConversion => "Dev Application Conversion"
    case DevDataMigration => "Dev Data Migration"
    case DevCutOver => "Dev Cutover"
    case ProdSchemaConversion => "Prod Schema Conversion"
    case ProdSchemaBeforeConstraints => "Prod Schema Before Constraints"
    case ProdDataMovement => "Prod Data Movement"
    case ProdSchemaAfterConstraints => "Prod Schema After Constraints"
    case ProdDataValidation => "Prod Data Validation"
    case ProdApplicationConversion => "Prod Application Conversion"
    case ProdDataMigration => "Prod Data Migration"
    case ProdCutOver => "Prod Cutover"
  }

  /** The members in declaration order, as iterating the enum yields them. */
  const ALL_PHASES: seq<Phase> := [
    NotStarted,
    DevSchemaConversion, DevSchemaBeforeConstraints, DevDataMovement, DevSchemaAfterConstraints,
    DevDataValidation, DevApplicationConversion, DevDataMigration, DevCutOver,
    ProdSchemaConversion, ProdSchemaBeforeConstraints, ProdDataMovement, ProdSchemaAfterConstraints,
    ProdDataValidation, ProdApplicationConversion, ProdDataMigration, ProdCutOver
  ]

  /** The enumeration has exactly 17 members, each listed once. */
  lemma AllPhasesEnumerated(p: Phase)
    ensures |ALL_PHASES| == 17
    ensures p in ALL_PHASES
    ensures forall i, j :: 0 <= i < j < |ALL_PHASES| ==> ALL_PHASES[i] != ALL_PHASES[j]
  {
  }

  /** No two members share a string value. */
  lemma PhaseValueInjective(p: Phase, q: Phase)
    requires PhaseValue(p) == PhaseValue(q)
    ensures p == q
  {
    var s := PhaseValue(p);
    // The values differ in length, or else in their first character.
    assert |s| == |PhaseValue(q)| && s[0] == PhaseValue(q)[0];
  }

  /** Enum lookup by value over a list of candidates. */
  function LookupPhase(s: string, candidates: seq<Phase>): (r: Option<Phase>)
    ensures r.Some? ==> r.value in candidates && PhaseValue(r.value) == s
    ensures r.None? ==> forall p :: p in candidates ==> PhaseValue(p) != s
  {
    if candidates == [] then None
    else if PhaseValue(candidates[0]) == s then Some(candidates[0])
    else LookupPhase(s, candidates[1..])
  }

  /** Phase(s): the member whose value is s, or None where pydantic reports an enum error. */
  function ParsePhase(s: string): (r: Option<Phase>)
    ensures r.Some? ==> PhaseValue(r.value) == s
    ensures r.None? <==> forall p: Phase :: PhaseValue(p) != s
  {
    var r := LookupPhase(s, ALL_PHASES);
    assert r.None? ==> forall p: Phase :: PhaseValue(p) != s by {
      forall p: Phase ensures p in ALL_PHASES { AllPhasesEnumerated(p); }
    }
    r
  }

  /** Decoding the encoding of a member gives that member back. */
  lemma ParsePhaseValue(p: Phase)
    ensures ParsePhase(PhaseValue(p)) == Some(p)
  {
    var r := ParsePhase(PhaseValue(p));
    PhaseValueInjective(r.value, p);
  }

  /** Decoding succeeds exactly on the 17 values. */
  lemma ParsePhaseIff(s: string)
    ensures ParsePhase(s).Some? <==> s in PhaseValues()
  {
    if ParsePhase(s).Some? {
      var p := ParsePhase(s).value;
      AllPhasesEnumerated(p);
      var i :| 0 <= i < |ALL_PHASES| && ALL_PHASES[i] == p;
      assert PhaseValues()[i] == s;
    }
  }

  function PhaseValues(): (vs: seq<string>)
    ensures |vs| == |ALL_PHASES|
    ensures forall i :: 0 <= i < |vs| ==> vs[i] == PhaseValue(ALL_PHASES[i])
  {
    seq(|ALL_PHASES|, i requires 0 <= i < |ALL_PHASES| => PhaseValue(ALL_PHASES[i]))
  }

  /** The 17 values are pairwise distinct. */
  lemma PhaseValuesDistinct()
    ensures forall i, j :: 0 <= i < j < |PhaseValues()| ==> PhaseValues()[i] != PhaseValues()[j]
  {
    forall i, j | 0 <= i < j < |PhaseValues()|
      ensures PhaseValues()[i] != PhaseValues()[j]
    {
      if PhaseValues()[i] == PhaseValues()[j] {
        PhaseValueInjective(ALL_PHASES[i], ALL_PHASES[j]);
        AllPhasesEnumerated(ALL_PHASES[i]);
      }
    }
  }

  /** The eight kinds of migration step that come in a Dev and a Prod variant. */
  datatype PhaseKind =
    | SchemaConversion
    | SchemaBeforeConstraints
    | DataMovement
    | SchemaAfterConstraints
    | DataValidation
    | ApplicationConversion
    | DataMigration
    | CutOver

  function KindName(k: PhaseKind): string {
    match k
    case SchemaConversion => "Schema Conversion"
    case SchemaBeforeConstraints => "Schema Before Constraints"
    case DataMovement => "Data Movement"
    case SchemaAfterConstraints => "Schema After Constraints"
    case DataValidation => "Data Validation"
    case ApplicationConversion => "Application Conversion"
    case DataMigration => "Data Migration"
    case CutOver => "Cutover"
  }

  function DevPhase(k: PhaseKind): Phase {
    match k
    case SchemaConversion => DevSchemaConversion
    case SchemaBeforeConstraints => DevSchemaBeforeConstraints
    case DataMovement => DevDataMovement
    case SchemaAfterConstraints => DevSchemaAfterConstraints
    case DataValidation => DevDataValidation
    case ApplicationConversion => DevApplicationConversion
    case DataMigration => DevDataMigration
    case CutOver => DevCutOver
  }

  function ProdPhase(k: PhaseKind): Phase {
    match k
    case SchemaConversion => ProdSchemaConversion
    case SchemaBeforeConstraints => ProdSchemaBeforeConstraints
    case DataMovement => ProdDataMovement
    case SchemaAfterConstraints => ProdSchemaAfterConstraints
    case DataValidation => ProdDataValidation
    case ApplicationConversion => ProdApplicationConversion
    case DataMigration => ProdDataMigration
    case CutOver => ProdCutOver
  }

  /** The Dev and Prod variants of a kind carry the kind's name after the environment label. */
  lemma PhaseKindValues(k: PhaseKind)
    ensures PhaseValue(DevPhase(k)) == "Dev " + KindName(k)
    ensures PhaseValue(ProdPhase(k)) == "Prod " + KindName(k)
  {
    match k
    case SchemaConversion => SchemaConversionLabelled();
    case SchemaBeforeConstraints => SchemaBeforeConstraintsLabelled();
    case DataMovement => DataMovementLabelled();
    case SchemaAfterConstraints => SchemaAfterConstraintsLabelled();
    case DataValidation => DataValidationLabelled();
    case ApplicationConversion => ApplicationConversionLabelled();
    case DataMigration => DataMigrationLabelled();
    case CutOver => CutOverLabelled();
  }

  // One lemma per kind keeps each comparison of string literals a small proof.
  lemma SchemaConversionLabelled()
    ensures "Dev " + KindName(SchemaConversion) == PhaseValue(DevSchemaConversion)
    ensures "Prod " + KindName(SchemaConversion) == PhaseValue(ProdSchemaConversion)
  {
    PhaseLabels.DevSchemaConversionText();
    PhaseLabels.ProdSchemaConversionText();
  }

  lemma SchemaBeforeConstraintsLabelled()
    ensures "Dev " + KindName(SchemaBeforeConstraints) == PhaseValue(DevSchemaBeforeConstraints)
    ensures "Prod " + KindName(SchemaBeforeConstraints) == PhaseValue(ProdSchemaBeforeConstraints)
  {
    PhaseLabels.DevSchemaBeforeConstraintsText();
    PhaseLabels.ProdSchemaBeforeConstraintsText();
  }

  lemma DataMovementLabelled()
    ensures "Dev " + KindName(DataMovement) == PhaseValue(DevDataMovement)
    ensures "Prod " + KindName(DataMovement) == PhaseValue(ProdDataMovement)
  {
    PhaseLabels.DevDataMovementText();
    PhaseLabels.ProdDataMovementText();
  }

  lemma SchemaAfterConstraintsLabelled()
    ensures "Dev " + KindName(SchemaAfterConstraints) == PhaseValue(DevSchemaAfterConstraints)
    ensures "Prod " + KindName(SchemaAfterConstraints) == PhaseValue(ProdSchemaAfterConstraints)
  {
    PhaseLabels.DevSchemaAfterConstraintsText();
    PhaseLabels.ProdSchemaAfterConstraintsText();
  }

  lemma DataValidationLabelled()
    ensures "Dev " + KindName(DataValidation) == PhaseValue(DevDataValidation)
    ensures "Prod " + KindName(DataValidation) == PhaseValue(ProdDataValidation)
  {
    PhaseLabels.DevDataValidationText();
    PhaseLabels.ProdDataValidationText();
  }

  lemma ApplicationConversionLabelled()
    ensures "Dev " + KindName(ApplicationConversion) == PhaseValue(DevApplicationConversion)
    ensures "Prod " + KindName(ApplicationConversion) == PhaseValue(ProdApplicationConversion)
  {
    PhaseLabels.DevApplicationConversionText();
    PhaseLabels.ProdApplicationConversionText();
  }

  lemma DataMigrationLabelled()
    ensures "Dev " + KindName(DataMigration) == PhaseValue(DevDataMigration)
    ensures "Prod " + KindName(DataMigration) == PhaseValue(ProdDataMigration)
  {
    PhaseLabels.DevDataMigrationText();
    PhaseLabels.ProdDataMigrationText();
  }

  lemma CutOverLabelled()
    ensures "Dev " + KindName(CutOver) == PhaseValue(DevCutOver)
    ensures "Prod " + KindName(CutOver) == PhaseValue(ProdCutOver)
  {
    PhaseLabels.DevCutOverText();
    PhaseLabels.ProdCutOverText();
  }

  /** For every kind, both "Dev <kind>" and "Prod <kind>" decode to members. */
  lemma PhaseKindPaired(k: PhaseKind)
    ensures ParsePhase("Dev " + KindName(k)) == Some(DevPhase(k))
    ensures ParsePhase("Prod " + KindName(k)) == Some(ProdPhase(k))
  {
    PhaseKindValues(k);
    ParsePhaseValue(DevPhase(k));
    ParsePhaseValue(ProdPhase(k));
  }

  /** Every member other than Not Started is the Dev or the Prod variant of a kind. */
  lemma PhaseIsDevOrProd(p: Phase)
    requires p != NotStarted
    ensures exists k :: p == DevPhase(k) || p == ProdPhase(k)
  {
    var k := match p
      case DevSchemaConversion | ProdSchemaConversion => SchemaConversion
      case DevSchemaBeforeConstraints | ProdSchemaBeforeConstraints => SchemaBeforeConstraints
      case DevDataMovement | ProdDataMovement => DataMovement
      case DevSchemaAfterConstraints | ProdSchemaAfterConstraints => SchemaAfterConstraints
      case DevDataValidation | ProdDataValidation => DataValidation
      case DevApplicationConversion | ProdApplicationConversion => ApplicationConversion
      case DevDataMigration | ProdDataMigration => DataMigration
      case _ => CutOver;
    assert p == DevPhase(k) || p == ProdPhase(k);
  }

  // ---------------------------------------------------------------------------
  // Request payloads
  // ---------------------------------------------------------------------------

  /** A JSON value as the request body carries it; JOther stands for arrays, objects and floats. */
  datatype Json = JNull | JBool(b: bool) | JInt(i: int) | JString(s: string) | JOther

  /** A JSON object: the keyword arguments Model(**body) receives. */
  type Payload = map<string, Json>

  /** Timestamps are opaque text; default_factory=datetime.now supplies one when the field is absent. */
  type Timestamp = string

  datatype ErrorKind =
    | Missing     // a required field is absent
    | WrongType   // the value is not of the field's type (null included, for a non-Optional field)
    | NotAPhase   // a string that is not one of the Phase values

  datatype FieldError = FieldError(field: string, kind: ErrorKind)

  /** The list of field errors pydantic's ValidationError carries. */
  type ValidationErrors = seq<FieldError>

  function ErrorsOf<T>(r: Result<T, FieldError>): (es: ValidationErrors)
    ensures r.Failure? ==> es == [r.error]
    ensures r.Success? ==> es == []
  {
    if r.Failure? then [r.error] else []
  }

  // Readers for one field each. A required field fails when absent; an Optional field
  // takes its default when absent and None when the value is null.

  function RequiredInt(body: Payload, key: string): (r: Result<int, FieldError>)
    ensures r.Success? <==> key in body && body[key].JInt?
    ensures r.Success? ==> body[key] == JInt(r.value)
  {
    if key !in body then Failure(FieldError(key, Missing))
    else match body[key]
      case JInt(i) => Success(i)
      case _ => Failure(FieldError(key, WrongType))
  }

  function RequiredBool(body: Payload, key: string): (r: Result<bool, FieldError>)
    ensures r.Success? <==> key in body && body[key].JBool?
    ensures r.Success? ==> body[key] == JBool(r.value)
  {
    if key !in body then Failure(FieldError(key, Missing))
    else match body[key]
      case JBool(b) => Success(b)
      case _ => Failure(FieldError(key, WrongType))
  }

  function RequiredString(body: Payload, key: string): (r: Result<string, FieldError>)
    ensures r.Success? <==> key in body && body[key].JString?
    ensures r.Success? ==> body[key] == JString(r.value)
  {
    if key !in body then Failure(FieldError(key, Missing))
    else match body[key]
      case JString(s) => Success(s)
      case _ => Failure(FieldError(key, WrongType))
  }

  function RequiredPhase(body: Payload, key: string): (r: Result<Phase, FieldError>)
    ensures r.Success? <==> key in body && body[key].JString? && ParsePhase(body[key].s).Some?
    ensures r.Success? ==> body[key] == JString(PhaseValue(r.value))
  {
    if key !in body then Failure(FieldError(key, Missing))
    else match body[key]
      case JString(s) =>
        (match ParsePhase(s)
         case Some(p) => Success(p)
         case None => Failure(FieldError(key, NotAPhase)))
      case _ => Failure(FieldError(key, WrongType))
  }

  function OptionalBool(body: Payload, key: string, default: Option<bool>): Result<Option<bool>, FieldError> {
    if key !in body then Success(default)
    else match body[key]
      case JNull => Success(None)
      case JBool(b) => Success(Some(b))
      case _ => Failure(FieldError(key, WrongType))
  }

  function OptionalString(body: Payload, key: string, default: Option<string>): Result<Option<string>, FieldError> {
    if key !in body then Success(default)
    else match body[key]
      case JNull => Success(None)
      case JString(s) => Success(Some(s))
      case _ => Failure(FieldError(key, WrongType))
  }

  // JSON encodings of field values, the inverse of the readers above.

  function OptionalBoolJson(o: Option<bool>): Json {
    match o
    case None => JNull
    case Some(b) => JBool(b)
  }

  function OptionalStringJson(o: Option<string>): Json {
    match o
    case None => JNull
    case Some(s) => JString(s)
  }

  /** An optional field as a record holds it: the value sent when present, the default when absent. */
  predicate OptionalFieldIs(body: Payload, key: string, sent: Json, isDefault: bool) {
    if key in body then body[key] == sent else isDefault
  }

  /** An Optional[str] field reads as o exactly when it sends o's JSON form, or is absent and o is the default. */
  lemma OptionalStringReads(body: Payload, key: string, default: Option<string>, o: Option<string>)
    ensures OptionalString(body, key, default) == Success(o)
      <==> OptionalFieldIs(body, key, OptionalStringJson(o), o == default)
  {
  }

  /** An Optional[bool] field reads as o exactly when it sends o's JSON form, or is absent and o is the default. */
  lemma OptionalBoolReads(body: Payload, key: string, default: Option<bool>, o: Option<bool>)
    ensures OptionalBool(body, key, default) == Success(o)
      <==> OptionalFieldIs(body, key, OptionalBoolJson(o), o == default)
  {
  }

  // ---------------------------------------------------------------------------
  // PhaseModel: all six fields required, no defaults
  // ---------------------------------------------------------------------------

  datatype PhaseModel = PhaseModel(
    stepId: int,
    name: Phase,
    description: string,
    orders: int,
    isOptional: bool,
    parentStepId: int)

  const PHASE_FIELDS: seq<string> := ["step_id", "name", "description", "orders", "is_optional", "parent_step_id"]

  /** PhaseModel(**body). */
  function ValidatePhase(body: Payload): (r: Result<PhaseModel, ValidationErrors>)
    ensures r.Failure? ==> |r.error| > 0
  {
    var stepId := RequiredInt(body, "step_id");
    var name := RequiredPhase(body, "name");
    var description := RequiredString(body, "description");
    var orders := RequiredInt(body, "orders");
    var isOptional := RequiredBool(body, "is_optional");
    var parentStepId := RequiredInt(body, "parent_step_id");
    var errors := ErrorsOf(stepId) + ErrorsOf(name) + ErrorsOf(description)
      + ErrorsOf(orders) + ErrorsOf(isOptional) + ErrorsOf(parentStepId);
    if errors == [] then
      Success(PhaseModel(stepId.value, name.value, description.value, orders.value, isOptional.value, parentStepId.value))
    else
      Failure(errors)
  }

  /** The JSON object a client sends for a phase record. */
  function PhasePayload(m: PhaseModel): Payload {
    map[
      "step_id" := JInt(m.stepId),
      "name" := JString(PhaseValue(m.name)),
      "description" := JString(m.description),
      "orders" := JInt(m.orders),
      "is_optional" := JBool(m.isOptional),
      "parent_step_id" := JInt(m.parentStepId)]
  }

  /** The six fields of body are those of m's JSON form. */
  predicate PhaseFieldsAre(body: Payload, m: PhaseModel) {
    forall f :: f in PHASE_FIELDS ==> f in body && body[f] == PhasePayload(m)[f]
  }

  lemma PhaseFieldsAreExplicit(body: Payload, m: PhaseModel)
    ensures PhaseFieldsAre(body, m) <==>
      && "step_id" in body && body["step_id"] == JInt(m.stepId)
      && "name" in body && body["name"] == JString(PhaseValue(m.name))
      && "description" in body && body["description"] == JString(m.description)
      && "orders" in body && body["orders"] == JInt(m.orders)
      && "is_optional" in body && body["is_optional"] == JBool(m.isOptional)
      && "parent_step_id" in body && body["parent_step_id"] == JInt(m.parentStepId)
  {
  }

  /** A body validates to m exactly when its six fields are m's, whatever else it holds. */
  lemma ValidatePhaseExactly(body: Payload, m: PhaseModel)
    ensures ValidatePhase(body) == Success(m) <==> PhaseFieldsAre(body, m)
  {
    PhaseFieldsAreExplicit(body, m);
    if PhaseFieldsAre(body, m) {
      ParsePhaseValue(m.name);
    }
  }

  /** Validating the JSON form of a record gives the record back. */
  lemma ValidatePhasePayload(m: PhaseModel)
    ensures ValidatePhase(PhasePayload(m)) == Success(m)
  {
    PhaseFieldsAreExplicit(PhasePayload(m), m);
    ValidatePhaseExactly(PhasePayload(m), m);
  }

  /** Every field of a phase is required: leaving any one out is a validation error naming it. */
  lemma PhaseFieldsRequired(body: Payload, f: string)
    requires f in PHASE_FIELDS && f !in body
    ensures ValidatePhase(body).Failure?
    ensures FieldError(f, Missing) in ValidatePhase(body).error
  {
  }

  /** A name that is not one of the enumeration's values is refused, whatever the other fields hold. */
  lemma PhaseNameMustBeListed(body: Payload)
    requires "name" in body && body["name"].JString? && body["name"].s !in PhaseValues()
    ensures ValidatePhase(body).Failure?
    ensures FieldError("name", NotAPhase) in ValidatePhase(body).error
  {
    ParsePhaseIff(body["name"].s);
  }

  // ---------------------------------------------------------------------------
  // ProgressModel: step_id and entity_id required
  // ---------------------------------------------------------------------------

  datatype ProgressModel = ProgressModel(
    stepId: int,
    entityId: int,
    startDateTime: Option<Timestamp>,
    endDateTime: Option<Timestamp>,
    isSuccessful: Option<bool>)

  const PROGRESS_FIELDS: seq<string> := ["step_id", "entity_id", "start_date_time", "end_date_time", "is_successful"]

  /** A timestamp field whose default factory is the clock: now is the value that call returns. */
  function OptionalTimestamp(body: Payload, key: string, now: Timestamp): Result<Option<Timestamp>, FieldError> {
    OptionalString(body, key, Some(now))
  }

  /**
    ProgressModel(**body). The two default factories are two separate calls to the clock;
    startNow and endNow are what they return.
   */
  function ValidateProgress(body: Payload, startNow: Timestamp, endNow: Timestamp): (r: Result<ProgressModel, ValidationErrors>)
    ensures r.Failure? ==> |r.error| > 0
  {
    var stepId := RequiredInt(body, "step_id");
    var entityId := RequiredInt(body, "entity_id");
    var start := OptionalTimestamp(body, "start_date_time", startNow);
    var end := OptionalTimestamp(body, "end_date_time", endNow);
    var isSuccessful := OptionalBool(body, "is_successful", Some(false));
    var errors := ErrorsOf(stepId) + ErrorsOf(entityId) + ErrorsOf(start) + ErrorsOf(end) + ErrorsOf(isSuccessful);
    if errors == [] then
      Success(ProgressModel(stepId.value, entityId.value, start.value, end.value, isSuccessful.value))
    else
      Failure(errors)
  }

  function ProgressPayload(m: ProgressModel): Payload {
    map[
      "step_id" := JInt(m.stepId),
      "entity_id" := JInt(m.entityId),
      "start_date_time" := OptionalStringJson(m.startDateTime),
      "end_date_time" := OptionalStringJson(m.endDateTime),
      "is_successful" := OptionalBoolJson(m.isSuccessful)]
  }

  lemma ValidateProgressPayload(m: ProgressModel, startNow: Timestamp, endNow: Timestamp)
    ensures ValidateProgress(ProgressPayload(m), startNow, endNow) == Success(m)
  {
  }

  /**
    Each optional field left out of a body that validates takes its default, whatever else the
    body holds: the two clock readings for the timestamps and False for is_successful.
   */
  lemma ProgressDefaults(body: Payload, startNow: Timestamp, endNow: Timestamp)
    requires ValidateProgress(body, startNow, endNow).Success?
    ensures "start_date_time" !in body ==> ValidateProgress(body, startNow, endNow).value.startDateTime == Some(startNow)
    ensures "end_date_time" !in body ==> ValidateProgress(body, startNow, endNow).value.endDateTime == Some(endNow)
    ensures "is_successful" !in body ==> ValidateProgress(body, startNow, endNow).value.isSuccessful == Some(false)
  {
  }

  /**
    Only step_id and entity_id are required: a body holding them as integers and none of the
    optional fields validates, unknown keys ignored, with all three defaults.
   */
  lemma ProgressKeysSuffice(body: Payload, startNow: Timestamp, endNow: Timestamp)
    requires "step_id" in body && body["step_id"].JInt?
    requires "entity_id" in body && body["entity_id"].JInt?
    requires "start_date_time" !in body && "end_date_time" !in body && "is_successful" !in body
    ensures ValidateProgress(body, startNow, endNow)
      == Success(ProgressModel(body["step_id"].i, body["entity_id"].i, Some(startNow), Some(endNow), Some(false)))
  {
  }

  lemma ProgressKeysRequired(body: Payload, f: string, startNow: Timestamp, endNow: Timestamp)
    requires f in PROGRESS_FIELDS[..2] && f !in body
    ensures ValidateProgress(body, startNow, endNow).Failure?
    ensures FieldError(f, Missing) in ValidateProgress(body, startNow, endNow).error
  {
  }

  /** The fields of body are those m holds: the two keys sent, each optional field sent or defaulted. */
  predicate ProgressFieldsAre(body: Payload, m: ProgressModel, startNow: Timestamp, endNow: Timestamp) {
    && "step_id" in body && body["step_id"] == JInt(m.stepId)
    && "entity_id" in body && body["entity_id"] == JInt(m.entityId)
    && OptionalFieldIs(body, "start_date_time", OptionalStringJson(m.startDateTime), m.startDateTime == Some(startNow))
    && OptionalFieldIs(body, "end_date_time", OptionalStringJson(m.endDateTime), m.endDateTime == Some(endNow))
    && OptionalFieldIs(body, "is_successful", OptionalBoolJson(m.isSuccessful), m.isSuccessful == Some(false))
  }

  /** A body validates to m exactly when its fields are m's, whatever else it holds. */
  lemma ValidateProgressExactly(body: Payload, m: ProgressModel, startNow: Timestamp, endNow: Timestamp)
    ensures ValidateProgress(body, startNow, endNow) == Success(m) <==> ProgressFieldsAre(body, m, startNow, endNow)
  {
    OptionalStringReads(body, "start_date_time", Some(startNow), m.startDateTime);
    OptionalStringReads(body, "end_date_time", Some(endNow), m.endDateTime);
    OptionalBoolReads(body, "is_successful", Some(false), m.isSuccessful);
  }

  /** A key that is not an integer, or an optional field of the wrong type, is refused with WrongType. */
  lemma ProgressWrongType(body: Payload, f: string, startNow: Timestamp, endNow: Timestamp)
    requires f in body
    requires || (f in PROGRESS_FIELDS[..2] && !body[f].JInt?)
             || (f in PROGRESS_FIELDS[2..4] && !body[f].JNull? && !body[f].JString?)
             || (f == "is_successful" && !body[f].JNull? && !body[f].JBool?)
    ensures ValidateProgress(body, startNow, endNow).Failure?
    ensures FieldError(f, WrongType) in ValidateProgress(body, startNow, endNow).error
  {
  }

  // ---------------------------------------------------------------------------
  // EntityModel: six required fields, four with defaults
  // ---------------------------------------------------------------------------

  datatype EntityModel = EntityModel(
    entityId: int,
    applicationName: string,
    sourceServer: string,
    sourceDatabase: string,
    targetServer: string,
    targetDatabase: Option<string>,
    isSpdb: Option<bool>,
    migrationType: Option<string>,
    migrator: string,
    env: Option<string>)

  /** The fields without a default. */
  const ENTITY_REQUIRED: seq<string> := [
    "entity_id", "application_name", "source_server", "source_database", "target_server", "migrator"]

  const DEFAULT_MIGRATION_TYPE := "Downtime"
  const DEFAULT_ENV := "Development"

  /** EntityModel(**body). */
  function ValidateEntity(body: Payload): (r: Result<EntityModel, ValidationErrors>)
    ensures r.Failure? ==> |r.error| > 0
  {
    var entityId := RequiredInt(body, "entity_id");
    var applicationName := RequiredString(body, "application_name");
    var sourceServer := RequiredString(body, "source_server");
    var sourceDatabase := RequiredString(body, "source_database");
    var targetServer := RequiredString(body, "target_server");
    var targetDatabase := OptionalString(body, "target_database", None);
    var isSpdb := OptionalBool(body, "is_spdb", Some(false));
    var migrationType := OptionalString(body, "migration_type", Some(DEFAULT_MIGRATION_TYPE));
    var migrator := RequiredString(body, "migrator");
    var env := OptionalString(body, "env", Some(DEFAULT_ENV));
    var errors := ErrorsOf(entityId) + ErrorsOf(applicationName) + ErrorsOf(sourceServer)
      + ErrorsOf(sourceDatabase) + ErrorsOf(targetServer) + ErrorsOf(targetDatabase)
      + ErrorsOf(isSpdb) + ErrorsOf(migrationType) + ErrorsOf(migrator) + ErrorsOf(env);
    if errors == [] then
      Success(EntityModel(entityId.value, applicationName.value, sourceServer.value, sourceDatabase.value,
        targetServer.value, targetDatabase.value, isSpdb.value, migrationType.value, migrator.value, env.value))
    else
      Failure(errors)
  }

  function EntityPayload(m: EntityModel): Payload {
    map[
      "entity_id" := JInt(m.entityId),
      "application_name" := JString(m.applicationName),
      "source_server" := JString(m.sourceServer),
      "source_database" := JString(m.sourceDatabase),
      "target_server" := JString(m.targetServer),
      "target_database" := OptionalStringJson(m.targetDatabase),
      "is_spdb" := OptionalBoolJson(m.isSpdb),
      "migration_type" := OptionalStringJson(m.migrationType),
      "migrator" := JString(m.migrator),
      "env" := OptionalStringJson(m.env)]
  }

  lemma ValidateEntityPayload(m: EntityModel)
    ensures ValidateEntity(EntityPayload(m)) == Success(m)
  {
  }

  /**
    Each optional field left out of a body that validates takes its default, whatever else the
    body holds: target_database None, is_spdb False, migration_type 'Downtime', env 'Development'.
   */
  lemma EntityDefaults(body: Payload)
    requires ValidateEntity(body).Success?
    ensures "target_database" !in body ==> ValidateEntity(body).value.targetDatabase == None
    ensures "is_spdb" !in body ==> ValidateEntity(body).value.isSpdb == Some(false)
    ensures "migration_type" !in body ==> ValidateEntity(body).value.migrationType == Some("Downtime")
    ensures "env" !in body ==> ValidateEntity(body).value.env == Some("Development")
  {
  }

  /**
    A body holding the six required fields with their types and none of the optional ones
    validates, unknown keys ignored, with all four defaults.
   */
  lemma EntityRequiredSuffice(body: Payload)
    requires "entity_id" in body && body["entity_id"].JInt?
    requires "application_name" in body && body["application_name"].JString?
    requires "source_server" in body && body["source_server"].JString?
    requires "source_database" in body && body["source_database"].JString?
    requires "target_server" in body && body["target_server"].JString?
    requires "migrator" in body && body["migrator"].JString?
    requires "target_database" !in body && "is_spdb" !in body && "migration_type" !in body && "env" !in body
    ensures ValidateEntity(body) == Success(EntityModel(body["entity_id"].i, body["application_name"].s,
      body["source_server"].s, body["source_database"].s, body["target_server"].s,
      None, Some(false), Some("Downtime"), body["migrator"].s, Some("Development")))
  {
  }

  lemma EntityFieldsRequired(body: Payload, f: string)
    requires f in ENTITY_REQUIRED && f !in body
    ensures ValidateEntity(body).Failure?
    ensures FieldError(f, Missing) in ValidateEntity(body).error
  {
  }

  /** The fields of body are those m holds: the six required ones sent, each optional one sent or defaulted. */
  predicate EntityFieldsAre(body: Payload, m: EntityModel) {
    && "entity_id" in body && body["entity_id"] == JInt(m.entityId)
    && "application_name" in body && body["application_name"] == JString(m.applicationName)
    && "source_server" in body && body["source_server"] == JString(m.sourceServer)
    && "source_database" in body && body["source_database"] == JString(m.sourceDatabase)
    && "target_server" in body && body["target_server"] == JString(m.targetServer)
    && OptionalFieldIs(body, "target_database", OptionalStringJson(m.targetDatabase), m.targetDatabase == None)
    && OptionalFieldIs(body, "is_spdb", OptionalBoolJson(m.isSpdb), m.isSpdb == Some(false))
    && OptionalFieldIs(body, "migration_type", OptionalStringJson(m.migrationType), m.migrationType == Some(DEFAULT_MIGRATION_TYPE))
    && "migrator" in body && body["migrator"] == JString(m.migrator)
    && OptionalFieldIs(body, "env", OptionalStringJson(m.env), m.env == Some(DEFAULT_ENV))
  }

  /** A body validates to m exactly when its fields are m's, whatever else it holds. */
  lemma ValidateEntityExactly(body: Payload, m: EntityModel)
    ensures ValidateEntity(body) == Success(m) <==> EntityFieldsAre(body, m)
  {
    OptionalStringReads(body, "target_database", None, m.targetDatabase);
    OptionalBoolReads(body, "is_spdb", Some(false), m.isSpdb);
    OptionalStringReads(body, "migration_type", Some(DEFAULT_MIGRATION_TYPE), m.migrationType);
    OptionalStringReads(body, "env", Some(DEFAULT_ENV), m.env);
  }

  /** A required field of the wrong type, null included, is refused with WrongType. */
  lemma EntityWrongType(body: Payload, f: string)
    requires f in ENTITY_REQUIRED && f in body
    requires if f == "entity_id" then !body[f].JInt? else !body[f].JString?
    ensures ValidateEntity(body).Failure?
    ensures FieldError(f, WrongType) in ValidateEntity(body).error
  {
  }

  /** An optional field holding neither null nor a value of its type is refused with WrongType. */
  lemma EntityOptionalWrongType(body: Payload, f: string)
    requires f in body && !body[f].JNull?
    requires if f == "is_spdb" then !body[f].JBool?
             else (f == "target_database" || f == "migration_type" || f == "env") && !body[f].JString?
    ensures ValidateEntity(body).Failure?
    ensures FieldError(f, WrongType) in ValidateEntity(body).error
  {
  }

  // ---------------------------------------------------------------------------
  // EntityObjectModel: all four fields required
  // ---------------------------------------------------------------------------

  datatype EntityObjectModel = EntityObjectModel(
    objectId: int,
    entityId: int,
    name: string,
    sizeInMb: int)

  const ENTITY_OBJECT_FIELDS: seq<string> := ["object_id", "entity_id", "name", "size_in_mb"]

  /** EntityObjectModel(**body). */
  function ValidateEntityObject(body: Payload): (r: Result<EntityObjectModel, ValidationErrors>)
    ensures r.Failure? ==> |r.error| > 0
  {
    var objectId := RequiredInt(body, "object_id");
    var entityId := RequiredInt(body, "entity_id");
    var name := RequiredString(body, "name");
    var sizeInMb := RequiredInt(body, "size_in_mb");
    var errors := ErrorsOf(objectId) + ErrorsOf(entityId) + ErrorsOf(name) + ErrorsOf(sizeInMb);
    if errors == [] then
      Success(EntityObjectModel(objectId.value, entityId.value, name.value, sizeInMb.value))
    else
      Failure(errors)
  }

  function EntityObjectPayload(m: EntityObjectModel): Payload {
    map[
      "object_id" := JInt(m.objectId),
      "entity_id" := JInt(m.entityId),
      "name" := JString(m.name),
      "size_in_mb" := JInt(m.sizeInMb)]
  }

  lemma ValidateEntityObjectPayload(m: EntityObjectModel)
    ensures ValidateEntityObject(EntityObjectPayload(m)) == Success(m)
  {
  }

  lemma EntityObjectFieldsRequired(body: Payload, f: string)
    requires f in ENTITY_OBJECT_FIELDS && f !in body
    ensures ValidateEntityObject(body).Failure?
    ensures FieldError(f, Missing) in ValidateEntityObject(body).error
  {
  }

  /** The four fields of body are those of m. */
  predicate EntityObjectFieldsAre(body: Payload, m: EntityObjectModel) {
    && "object_id" in body && body["object_id"] == JInt(m.objectId)
    && "entity_id" in body && body["entity_id"] == JInt(m.entityId)
    && "name" in body && body["name"] == JString(m.name)
    && "size_in_mb" in body && body["size_in_mb"] == JInt(m.sizeInMb)
  }

  /** A body validates to m exactly when its four fields are m's, whatever else it holds. */
  lemma ValidateEntityObjectExactly(body: Payload, m: EntityObjectModel)
    ensures ValidateEntityObject(body) == Success(m) <==> EntityObjectFieldsAre(body, m)
  {
  }

  /** A field of the wrong type, null included, is refused with WrongType. */
  lemma EntityObjectWrongType(body: Payload, f: string)
    requires f in ENTITY_OBJECT_FIELDS && f in body
    requires if f == "name" then !body[f].JString? else !body[f].JInt?
    ensures ValidateEntityObject(body).Failure?
    ensures FieldError(f, WrongType) in ValidateEntityObject(body).error
  {
  }
}
