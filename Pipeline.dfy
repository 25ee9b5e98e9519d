/**
 * The pipeline builder: a pipeline configuration becomes a pipeline message.
 * Each step gets its three conditions (an error in any of them aborts the
 * build) and a payload filled in place by the builder of its step type,
 * whose own diagnostics the build discards.
 */
module Pipeline {
  import opened Wrappers
  import opened Diagnostics
  import opened Strings
  import opened PipelineTypes
  import opened Helpers

  /** The generated enum tables the builders consult. */
  datatype Enums = Enums(
    detectiveType: Table,
    transformType: Table,
    truncateType: Table,
    abortCondition: Table,
    payloadType: Table,
    httpMethod: Table,
    validationType: Table,
    validationCondition: Table,
    draft: Table,
    kvMode: Table,
    kvAction: Table)

  const ReplaceValueName := "TRANSFORM_TYPE_REPLACE_VALUE"
  const DeleteFieldName := "TRANSFORM_TYPE_DELETE_FIELD"
  const ObfuscateValueName := "TRANSFORM_TYPE_OBFUSCATE_VALUE"
  const MaskValueName := "TRANSFORM_TYPE_MASK_VALUE"
  const TruncateValueName := "TRANSFORM_TYPE_TRUNCATE_VALUE"
  const ExtractName := "TRANSFORM_TYPE_EXTRACT"
  const JsonSchemaName := "SCHEMA_VALIDATION_TYPE_JSONSCHEMA"

  // The texts of the diagnostics the builders return.
  const KvStepError := "Error generating kv step: "
  const SchemaValidationStepError := "Error generating schema validation step: "
  const UnknownSchemaValidationTypeError := "Error generating schema validation step: unknown schema validation type: "
  const HttpRequestStepError := "Error generating http request step: "
  const DetectiveStepError := "Error generating detective step: "
  const TransformStepError := "Error generating transform step: "
  const TruncateStepError := "Error generating transform truncate step: "
  const UnknownTransformTypeError := "Error generating transform step: unknown transform type: "
  const ReplaceValueMissing := "Error generating transform step: replace value config not found"
  const DeleteFieldMissing := "Error generating transform step: delete field config not found"
  const ObfuscateMissing := "Error generating transform step: obfuscate value config not found"
  const MaskMissing := "Error generating transform mask step: mask value config not found"
  const TruncateMissing := "Error generating transform step: truncate value config not found"
  const ExtractMissing := "Error generating transform step: extract value config not found"
  const UnknownStepTypeError := "Unknown step type: "
  const InvalidConditionError := "Error generating condition: Invalid condition config"
  const AbortConditionError := "Error generating abort condition: "
  const PayloadTypeError := "Error generating notification payload type: "

  // ----- conditions -----

  /**
   * generateCondition: nothing unless the block list has exactly one element;
   * an element that is not a map, an unknown abort condition or an unknown
   * notification payload type is an error. The notification's config ids and
   * paths are read from the condition block, which has no such keys, so they
   * are always empty.
   */
  function GenerateCondition(blocks: seq<Option<ConditionCfg>>, e: Enums): Result<Option<Conditions>, seq<Diag>>
  {
    if |blocks| != 1 then Ok(None)
    else match blocks[0]
      case None => Err([Errorf(InvalidConditionError)])
      case Some(c) =>
        match FromString(AbortConditionKind, e.abortCondition, c.abort)
        case Err(err) => Err([Errorf(AbortConditionError + err)])
        case Ok(abort) =>
          var metadata := c.metadata.GetOr(map[]);
          if |c.notification| > 0 then
            match FromString(NotificationPayloadTypeKind, e.payloadType, c.notification[0].payloadType)
            case Err(err) => Err([Errorf(PayloadTypeError + err)])
            case Ok(payloadType) => Ok(Some(Conditions(abort, metadata, Some(StepNotification([], payloadType, [])))))
          else Ok(Some(Conditions(abort, metadata, None)))
  }

  /**
   * What generateCondition promises: no block list or several give no
   * condition; a single element fails exactly when it is not a map, names an
   * unknown abort condition or an unknown notification payload type, with
   * one diagnostic; otherwise the condition carries the looked-up ids, the
   * metadata (empty when absent) and a notification exactly when one is
   * configured, whose config ids and paths are empty.
   */
  lemma GenerateConditionSpec(blocks: seq<Option<ConditionCfg>>, e: Enums)
    ensures |blocks| != 1 ==> GenerateCondition(blocks, e) == Ok(None)
    ensures GenerateCondition(blocks, e).Err? ==> |GenerateCondition(blocks, e).error| == 1
    ensures GenerateCondition(blocks, e).Err? <==> |blocks| == 1 && ConditionFails(blocks[0], e)
    ensures var r := GenerateCondition(blocks, e);
            r.Ok? && r.value.Some? ==>
              && |blocks| == 1 && blocks[0].Some?
              && FromString(AbortConditionKind, e.abortCondition, blocks[0].value.abort) == Ok(r.value.value.abort)
              && r.value.value.metadata == blocks[0].value.metadata.GetOr(map[])
              && (r.value.value.notification.Some? <==> |blocks[0].value.notification| > 0)
    ensures var r := GenerateCondition(blocks, e);
            r.Ok? && r.value.Some? && r.value.value.notification.Some? ==>
              && r.value.value.notification.value.notificationConfigIds == []
              && r.value.value.notification.value.paths == []
              && FromString(NotificationPayloadTypeKind, e.payloadType, blocks[0].value.notification[0].payloadType)
                 == Ok(r.value.value.notification.value.payloadType)
  {
  }

  /** Why a single condition element is rejected. */
  predicate ConditionFails(block: Option<ConditionCfg>, e: Enums) {
    || block.None?
    || FromString(AbortConditionKind, e.abortCondition, block.value.abort).Err?
    || (|block.value.notification| > 0
        && FromString(NotificationPayloadTypeKind, e.payloadType, block.value.notification[0].payloadType).Err?)
  }

  /** The error texts: the abort condition is checked before the payload type. */
  lemma ConditionErrors(c: ConditionCfg, e: Enums)
    ensures FromString(AbortConditionKind, e.abortCondition, c.abort).Err? ==>
              GenerateCondition([Some(c)], e) == Err([Errorf(AbortConditionError + AbortConditionKind.invalid)])
    ensures FromString(AbortConditionKind, e.abortCondition, c.abort).Ok? && |c.notification| > 0
            && FromString(NotificationPayloadTypeKind, e.payloadType, c.notification[0].payloadType).Err? ==>
              GenerateCondition([Some(c)], e)
              == Err([Errorf(PayloadTypeError + NotificationPayloadTypeKind.invalid)])
  {
  }

  /**
   * Round trip through the abort lookup: a condition naming abort condition
   * `id` by its transformed name, with no notification, yields exactly that id
   * and the configured metadata.
   */
  lemma ConditionRoundTrip(c: ConditionCfg, e: Enums, id: EnumId)
    requires TransformInjective(AbortConditionKind, e.abortCondition)
    requires id in e.abortCondition.names
    requires c.abort == TransformedName(AbortConditionKind, e.abortCondition.names[id])
    requires c.notification == []
    ensures GenerateCondition([Some(c)], e) == Ok(Some(Conditions(id, c.metadata.GetOr(map[]), None)))
  {
    FromStringRoundTrip(AbortConditionKind, e.abortCondition, id);
  }

  /**
   * The notification block's own config ids and paths never reach the
   * message: whatever the block lists, the condition carries empty lists.
   */
  lemma NotificationIdsAreDropped(c: ConditionCfg, e: Enums)
    requires |c.notification| > 0
    requires !ConditionFails(Some(c), e)
    ensures GenerateCondition([Some(c)], e).Ok?
    ensures GenerateCondition([Some(c)], e).value.Some?
    ensures GenerateCondition([Some(c)], e).value.value.notification.Some?
    ensures GenerateCondition([Some(c)], e).value.value.notification.value.notificationConfigIds == []
    ensures GenerateCondition([Some(c)], e).value.value.notification.value.paths == []
  {
  }

  // ----- step payloads -----

  /** The payload a step builder leaves behind and the diagnostics it returns. */
  datatype Outcome = Outcome(payload: Option<StepPayload>, diags: seq<Diag>)

  /** An error that leaves the payload as it was. */
  function Fail(prev: Option<StepPayload>, summary: string): Outcome {
    Outcome(prev, [Errorf(summary)])
  }

  /** generateKVStep: mode, then action; on success a kv payload. */
  function KvOutcome(prev: Option<StepPayload>, c: KvCfg, e: Enums): Outcome
  {
    match FromString(KvModeKind, e.kvMode, c.mode)
    case Err(err) => Fail(prev, KvStepError + err)
    case Ok(mode) =>
      match FromString(KvActionKind, e.kvAction, c.action)
      case Err(err) => Fail(prev, KvStepError + err)
      case Ok(action) => Outcome(Some(Kv(mode, action, c.key, c.value)), [])
  }

  /**
   * The kv builder succeeds exactly when both lookups do, and then the payload
   * holds both ids, key and value; otherwise the first failing lookup is
   * reported and the payload is left as it was.
   */
  lemma KvOutcomeSpec(prev: Option<StepPayload>, c: KvCfg, e: Enums)
    ensures var o := KvOutcome(prev, c, e);
            o.diags == [] <==> FromString(KvModeKind, e.kvMode, c.mode).Ok? && FromString(KvActionKind, e.kvAction, c.action).Ok?
    ensures FromString(KvModeKind, e.kvMode, c.mode).Err? ==>
              KvOutcome(prev, c, e) == Fail(prev, KvStepError + KvModeKind.invalid)
    ensures FromString(KvModeKind, e.kvMode, c.mode).Ok? && FromString(KvActionKind, e.kvAction, c.action).Err? ==>
              KvOutcome(prev, c, e) == Fail(prev, KvStepError + KvActionKind.invalid)
    ensures var o := KvOutcome(prev, c, e);
            o.diags == [] ==> o.payload == Some(Kv(FromString(KvModeKind, e.kvMode, c.mode).value,
                                                  FromString(KvActionKind, e.kvAction, c.action).value, c.key, c.value))
  {
  }

  /**
   * generateSchemaValidationStep: type, then condition; only the JSON-schema
   * type is supported, and its draft is looked up too. The payload is
   * assigned only when every step succeeds.
   */
  function SchemaValidationOutcome(prev: Option<StepPayload>, c: SchemaValidationCfg, e: Enums): Outcome
  {
    match FromString(SchemaValidationTypeKind, e.validationType, c.validationType)
    case Err(err) => Fail(prev, SchemaValidationStepError + err)
    case Ok(t) =>
      match FromString(SchemaValidationConditionKind, e.validationCondition, c.condition)
      case Err(err) => Fail(prev, SchemaValidationStepError + err)
      case Ok(cond) =>
        if e.validationType.names[t] == JsonSchemaName then
          match FromString(JsonSchemaDraftKind, e.draft, c.draft)
          case Err(err) => Fail(prev, SchemaValidationStepError + err)
          case Ok(draft) => Outcome(Some(SchemaValidation(t, cond, Some(JsonSchemaOptions(c.schema, draft)))), [])
        else
          Fail(prev, UnknownSchemaValidationTypeError + e.validationType.names[t])
  }

  /**
   * The schema validation builder succeeds exactly when the type and the
   * condition are known, the type is the JSON-schema one and its draft is
   * known; a failure is a single diagnostic and keeps the old payload.
   */
  lemma SchemaValidationOutcomeSpec(prev: Option<StepPayload>, c: SchemaValidationCfg, e: Enums)
    ensures var o := SchemaValidationOutcome(prev, c, e);
            o.diags != [] ==> o.payload == prev && |o.diags| == 1
    ensures FromString(SchemaValidationTypeKind, e.validationType, c.validationType).Err? ==>
              SchemaValidationOutcome(prev, c, e) == Fail(prev, SchemaValidationStepError + SchemaValidationTypeKind.invalid)
    ensures SchemaValidationOutcome(prev, c, e).diags == [] <==>
              && FromString(SchemaValidationTypeKind, e.validationType, c.validationType).Ok?
              && FromString(SchemaValidationConditionKind, e.validationCondition, c.condition).Ok?
              && e.validationType.names[FromString(SchemaValidationTypeKind, e.validationType, c.validationType).value] == JsonSchemaName
              && FromString(JsonSchemaDraftKind, e.draft, c.draft).Ok?
    ensures var o := SchemaValidationOutcome(prev, c, e);
            o.diags == [] ==> o.payload == Some(SchemaValidation(
              FromString(SchemaValidationTypeKind, e.validationType, c.validationType).value,
              FromString(SchemaValidationConditionKind, e.validationCondition, c.condition).value,
              Some(JsonSchemaOptions(c.schema, FromString(JsonSchemaDraftKind, e.draft, c.draft).value))))
  {
  }

  /** generateValidJsonStep never fails and needs no block. */
  function ValidJsonOutcome(): Outcome
  {
    Outcome(Some(ValidJson), [])
  }

  /** generateStepHttpRequest: method lookup; headers nil become empty. */
  function HttpRequestOutcome(prev: Option<StepPayload>, c: HttpRequestCfg, e: Enums): Outcome
  {
    match FromString(HttpMethodKind, e.httpMethod, c.httpMethod)
    case Err(err) => Fail(prev, HttpRequestStepError + err)
    case Ok(m) => Outcome(Some(HttpRequest(m, c.url, c.headers.GetOr(map[]), c.body)), [])
  }

  /**
   * The http request builder fails exactly on an unknown method, keeping the
   * old payload; otherwise it carries the method id, the url, the headers
   * (empty when absent) and the body.
   */
  lemma HttpRequestOutcomeSpec(prev: Option<StepPayload>, c: HttpRequestCfg, e: Enums)
    ensures HttpRequestOutcome(prev, c, e).diags == [] <==> FromString(HttpMethodKind, e.httpMethod, c.httpMethod).Ok?
    ensures HttpRequestOutcome(prev, c, e).diags != [] ==>
              HttpRequestOutcome(prev, c, e) == Fail(prev, HttpRequestStepError + HttpMethodKind.invalid)
    ensures var o := HttpRequestOutcome(prev, c, e);
            o.diags == [] ==> o.payload == Some(HttpRequest(FromString(HttpMethodKind, e.httpMethod, c.httpMethod).value,
                                                           c.url, c.headers.GetOr(map[]), c.body))
  {
  }

  /** generateStepDetective: type lookup; args nil become empty. */
  function DetectiveOutcome(prev: Option<StepPayload>, c: DetectiveCfg, e: Enums): Outcome
  {
    match FromString(DetectiveTypeKind, e.detectiveType, c.detectiveType)
    case Err(err) => Fail(prev, DetectiveStepError + err)
    case Ok(t) => Outcome(Some(Detective(c.path, c.args.GetOr([]), c.negate, t)), [])
  }

  /**
   * The detective builder fails exactly on an unknown detective type, keeping
   * the old payload; otherwise it carries the path, the args (empty when
   * absent), the negate flag and the type id.
   */
  lemma DetectiveOutcomeSpec(prev: Option<StepPayload>, c: DetectiveCfg, e: Enums)
    ensures DetectiveOutcome(prev, c, e).diags == [] <==> FromString(DetectiveTypeKind, e.detectiveType, c.detectiveType).Ok?
    ensures DetectiveOutcome(prev, c, e).diags != [] ==>
              DetectiveOutcome(prev, c, e) == Fail(prev, DetectiveStepError + DetectiveTypeKind.invalid)
    ensures var o := DetectiveOutcome(prev, c, e);
            o.diags == [] ==> o.payload == Some(Detective(c.path, c.args.GetOr([]), c.negate,
                                                         FromString(DetectiveTypeKind, e.detectiveType, c.detectiveType).value))
  {
  }

  /** How many option blocks the transform configures for the variant called `name`. */
  function OptionBlocks(c: TransformCfg, name: string): nat {
    if name == ReplaceValueName then |c.replaceValue|
    else if name == DeleteFieldName then |c.deleteField|
    else if name == ObfuscateValueName then |c.obfuscate|
    else if name == MaskValueName then |c.mask|
    else if name == TruncateValueName then |c.truncate|
    else if name == ExtractName then |c.extract|
    else 0
  }

  predicate IsTransformVariant(name: string) {
    name in {ReplaceValueName, DeleteFieldName, ObfuscateValueName, MaskValueName, TruncateValueName, ExtractName}
  }

  /** The options of the variant called `name` are of that variant. */
  predicate OptionsOfVariant(name: string, o: TransformOptions) {
    && (o.ReplaceValueOptions? <==> name == ReplaceValueName)
    && (o.DeleteFieldOptions? <==> name == DeleteFieldName)
    && (o.ObfuscateOptions? <==> name == ObfuscateValueName)
    && (o.MaskOptions? <==> name == MaskValueName)
    && (o.TruncateOptions? <==> name == TruncateValueName)
    && (o.ExtractOptions? <==> name == ExtractName)
  }

  /**
   * The switch on the transform type: the options the variant called `name`
   * builds from its first block, or the text of the error.
   */
  function VariantOptions(c: TransformCfg, name: string, e: Enums): Result<TransformOptions, string>
  {
    if name == ReplaceValueName then
      if |c.replaceValue| == 0 then Err(ReplaceValueMissing)
      else Ok(ReplaceValueOptions(c.replaceValue[0].path, c.replaceValue[0].value))
    else if name == DeleteFieldName then
      // The builder reads the key "path", which the block does not have: the paths are always empty.
      if |c.deleteField| == 0 then Err(DeleteFieldMissing)
      else Ok(DeleteFieldOptions([]))
    else if name == ObfuscateValueName then
      if |c.obfuscate| == 0 then Err(ObfuscateMissing)
      else Ok(ObfuscateOptions(c.obfuscate[0].path))
    else if name == MaskValueName then
      if |c.mask| == 0 then Err(MaskMissing)
      else Ok(MaskOptions(c.mask[0].path, c.mask[0].mask))
    else if name == TruncateValueName then
      if |c.truncate| == 0 then Err(TruncateMissing)
      else
        match FromString(TransformTruncateTypeKind, e.truncateType, c.truncate[0].truncateType)
        case Err(err) => Err(TruncateStepError + err)
        case Ok(tt) => Ok(TruncateOptions(tt, c.truncate[0].path))
    else if name == ExtractName then
      if |c.extract| == 0 then Err(ExtractMissing)
      else Ok(ExtractOptions(c.extract[0].paths.GetOr([]), c.extract[0].flatten))
    else
      Err(UnknownTransformTypeError + name)
  }

  /**
   * Each transform variant needs its own non-empty block, and only the
   * truncate variant can fail once it has one; the options built are of the
   * variant named, and a name outside the six variants is reported as unknown.
   */
  lemma VariantNeedsOwnBlock(c: TransformCfg, name: string, e: Enums)
    ensures !IsTransformVariant(name) ==> VariantOptions(c, name, e) == Err(UnknownTransformTypeError + name)
    ensures IsTransformVariant(name) && OptionBlocks(c, name) == 0 ==> VariantOptions(c, name, e).Err?
    ensures OptionBlocks(c, name) > 0 && name != TruncateValueName ==> VariantOptions(c, name, e).Ok?
    ensures name == TruncateValueName && |c.truncate| > 0 ==>
              (VariantOptions(c, name, e).Ok? <==> FromString(TransformTruncateTypeKind, e.truncateType, c.truncate[0].truncateType).Ok?)
    ensures VariantOptions(c, name, e).Ok? ==> OptionBlocks(c, name) > 0 && OptionsOfVariant(name, VariantOptions(c, name, e).value)
  {
  }

  /**
   * Each variant's options are built from its first block: the fields of
   * that block are copied, the truncate type is looked up, and absent
   * extract paths become an empty list.
   */
  lemma VariantCopiesFirstBlock(c: TransformCfg, e: Enums)
    ensures |c.replaceValue| > 0 ==>
              VariantOptions(c, ReplaceValueName, e) == Ok(ReplaceValueOptions(c.replaceValue[0].path, c.replaceValue[0].value))
    ensures |c.obfuscate| > 0 ==> VariantOptions(c, ObfuscateValueName, e) == Ok(ObfuscateOptions(c.obfuscate[0].path))
    ensures |c.mask| > 0 ==> VariantOptions(c, MaskValueName, e) == Ok(MaskOptions(c.mask[0].path, c.mask[0].mask))
    ensures var tt := FromString(TransformTruncateTypeKind, e.truncateType, if |c.truncate| > 0 then c.truncate[0].truncateType else "");
            |c.truncate| > 0 ==>
              VariantOptions(c, TruncateValueName, e)
              == if tt.Ok? then Ok(TruncateOptions(tt.value, c.truncate[0].path))
                 else Err(TruncateStepError + TransformTruncateTypeKind.invalid)
    ensures |c.extract| > 0 ==>
              VariantOptions(c, ExtractName, e) == Ok(ExtractOptions(c.extract[0].paths.GetOr([]), c.extract[0].flatten))
    ensures |c.deleteField| > 0 ==> VariantOptions(c, DeleteFieldName, e) == Ok(DeleteFieldOptions([]))
  {
  }

  /**
   * generateStepTransform: after the type lookup the step already holds a
   * transform payload with that type and no options; the variant's own block
   * (and, for truncate, its type lookup) then fills in the options.
   */
  function TransformOutcome(prev: Option<StepPayload>, c: TransformCfg, e: Enums): Outcome
  {
    match FromString(TransformTypeKind, e.transformType, c.transformType)
    case Err(err) => Fail(prev, TransformStepError + err)
    case Ok(t) =>
      match VariantOptions(c, e.transformType.names[t], e)
      case Err(summary) => Fail(Some(Transform(t, None)), summary)
      case Ok(options) => Outcome(Some(Transform(t, Some(options))), [])
  }

  /**
   * The transform builder reports at most one error. An unknown transform
   * type keeps the old payload; otherwise the payload is a transform of that
   * type, whose options are set exactly when no error is reported.
   */
  lemma TransformOutcomeSpec(prev: Option<StepPayload>, c: TransformCfg, e: Enums)
    ensures |TransformOutcome(prev, c, e).diags| <= 1
    ensures FromString(TransformTypeKind, e.transformType, c.transformType).Err? ==>
              TransformOutcome(prev, c, e) == Fail(prev, TransformStepError + TransformTypeKind.invalid)
    ensures var o := TransformOutcome(prev, c, e);
            FromString(TransformTypeKind, e.transformType, c.transformType).Ok? ==>
              && o.payload.Some? && o.payload.value.Transform?
              && o.payload.value.transformType == FromString(TransformTypeKind, e.transformType, c.transformType).value
              && (o.diags == [] <==> o.payload.value.options.Some?)
    ensures var o := TransformOutcome(prev, c, e);
            var r := FromString(TransformTypeKind, e.transformType, c.transformType);
            r.Ok? ==>
              var v := VariantOptions(c, e.transformType.names[r.value], e);
              && o.payload.value.options == (if v.Ok? then Some(v.value) else None)
              && o.diags == (if v.Ok? then [] else [Errorf(v.error)])
  {
  }

  /** The delete-field variant never carries any path, whatever its block lists. */
  lemma DeleteFieldPathsAreDropped(prev: Option<StepPayload>, c: TransformCfg, e: Enums)
    requires FromString(TransformTypeKind, e.transformType, c.transformType).Ok?
    requires e.transformType.names[FromString(TransformTypeKind, e.transformType, c.transformType).value] == DeleteFieldName
    requires |c.deleteField| > 0
    ensures TransformOutcome(prev, c, e).payload.value.options == Some(DeleteFieldOptions([]))
  {
  }

  /** A step type whose builder reads the first element of its block list. */
  predicate ReadsBlock(d: StepCfg, t: string) {
    t in StepTypes && t != StepValidJson
  }

  /** The outcome of the sub-builder generateStep dispatches to, before duplication. */
  function DispatchOutcome(prev: Option<StepPayload>, d: StepCfg, t: string, e: Enums): (o: Outcome)
    requires ReadsBlock(d, t) ==> BlockCount(d, t) > 0
  {
    if t == StepDetective then DetectiveOutcome(prev, d.detective[0], e)
    else if t == StepTransform then TransformOutcome(prev, d.transform[0], e)
    else if t == StepHttpRequest then HttpRequestOutcome(prev, d.httpRequest[0], e)
    else if t == StepValidJson then ValidJsonOutcome()
    else if t == StepSchemaValidation then SchemaValidationOutcome(prev, d.schemaValidation[0], e)
    else if t == StepKv then KvOutcome(prev, d.kv[0], e)
    else Fail(prev, UnknownStepTypeError + t)
  }

  /**
   * generateStep: a known type's diagnostics are returned twice over when
   * they hold an error; an unknown type is a single error and leaves the
   * payload alone.
   */
  function GenerateStepOutcome(prev: Option<StepPayload>, d: StepCfg, t: string, e: Enums): Outcome
    requires ReadsBlock(d, t) ==> BlockCount(d, t) > 0
  {
    if t in StepTypes then
      var o := DispatchOutcome(prev, d, t, e);
      if o.diags != [] then o.(diags := o.diags + o.diags) else o
    else
      DispatchOutcome(prev, d, t, e)
  }

  /**
   * An unknown step type is one error and leaves the payload alone. A known
   * type keeps its builder's payload, and its builder's error, if any, comes
   * back twice: the diagnostics are empty or two equal ones.
   */
  lemma GenerateStepOutcomeSpec(prev: Option<StepPayload>, d: StepCfg, t: string, e: Enums)
    requires ReadsBlock(d, t) ==> BlockCount(d, t) > 0
    ensures t !in StepTypes ==> GenerateStepOutcome(prev, d, t, e) == Fail(prev, UnknownStepTypeError + t)
    ensures t in StepTypes ==> GenerateStepOutcome(prev, d, t, e).payload == DispatchOutcome(prev, d, t, e).payload
    ensures var o := GenerateStepOutcome(prev, d, t, e);
            t in StepTypes ==> o.diags == [] || (|o.diags| == 2 && o.diags[0] == o.diags[1])
  {
    var o := DispatchOutcome(prev, d, t, e);
    if t == StepDetective {
      DetectiveOutcomeSpec(prev, d.detective[0], e);
    } else if t == StepTransform {
      TransformOutcomeSpec(prev, d.transform[0], e);
    } else if t == StepHttpRequest {
      HttpRequestOutcomeSpec(prev, d.httpRequest[0], e);
    } else if t == StepSchemaValidation {
      SchemaValidationOutcomeSpec(prev, d.schemaValidation[0], e);
    } else if t == StepKv {
      KvOutcomeSpec(prev, d.kv[0], e);
    }
    assert t in StepTypes ==> |o.diags| <= 1;
  }

  /** A valid_json step never fails and needs no block of its own. */
  lemma ValidJsonNeverFails(prev: Option<StepPayload>, d: StepCfg, e: Enums)
    ensures GenerateStepOutcome(prev, d, StepValidJson, e) == Outcome(Some(ValidJson), [])
  {
  }

  // ----- the step object -----

  /**
   * A pipeline step message. Its name, conditions and dynamic flag are set
   * when it is made; the step builders fill in its payload in place.
   */
  class PipelineStep {
    const name: string
    const onTrue: Option<Conditions>
    const onFalse: Option<Conditions>
    const onError: Option<Conditions>
    const dynamic: bool
    var step: Option<StepPayload>

    constructor(name: string, onTrue: Option<Conditions>, onFalse: Option<Conditions>, onError: Option<Conditions>, dynamic: bool)
      ensures Value() == Step(name, onTrue, onFalse, onError, dynamic, None)
    {
      this.name := name;
      this.onTrue := onTrue;
      this.onFalse := onFalse;
      this.onError := onError;
      this.dynamic := dynamic;
      this.step := None;
    }

    /** The message as it stands. */
    function Value(): Step
      reads this
    {
      Step(name, onTrue, onFalse, onError, dynamic, step)
    }

    method GenerateKVStep(d: StepCfg, e: Enums) returns (diags: seq<Diag>)
      requires |d.kv| > 0
      modifies this
      ensures Outcome(step, diags) == KvOutcome(old(step), d.kv[0], e)
    {
      var config := d.kv[0];
      var mode := FromString(KvModeKind, e.kvMode, config.mode);
      if mode.Err? {
        return [Errorf(KvStepError + mode.error)];
      }
      var action := FromString(KvActionKind, e.kvAction, config.action);
      if action.Err? {
        return [Errorf(KvStepError + action.error)];
      }
      step := Some(Kv(mode.value, action.value, config.key, config.value));
      return [];
    }

    method GenerateSchemaValidationStep(d: StepCfg, e: Enums) returns (diags: seq<Diag>)
      requires |d.schemaValidation| > 0
      modifies this
      ensures Outcome(step, diags) == SchemaValidationOutcome(old(step), d.schemaValidation[0], e)
    {
      var config := d.schemaValidation[0];
      var t := FromString(SchemaValidationTypeKind, e.validationType, config.validationType);
      if t.Err? {
        return [Errorf(SchemaValidationStepError + t.error)];
      }
      var cond := FromString(SchemaValidationConditionKind, e.validationCondition, config.condition);
      if cond.Err? {
        return [Errorf(SchemaValidationStepError + cond.error)];
      }
      var payload: StepPayload := SchemaValidation(t.value, cond.value, None);
      if e.validationType.names[t.value] == JsonSchemaName {
        var draft := FromString(JsonSchemaDraftKind, e.draft, config.draft);
        if draft.Err? {
          return [Errorf(SchemaValidationStepError + draft.error)];
        }
        payload := payload.(jsonSchemaOptions := Some(JsonSchemaOptions(config.schema, draft.value)));
      } else {
        return [Errorf(UnknownSchemaValidationTypeError
                       + e.validationType.names[t.value])];
      }
      step := Some(payload);
      return [];
    }

    method GenerateValidJsonStep(d: StepCfg) returns (diags: seq<Diag>)
      modifies this
      ensures Outcome(step, diags) == ValidJsonOutcome()
    {
      step := Some(ValidJson);
      return [];
    }

    method GenerateStepHttpRequest(d: StepCfg, e: Enums) returns (diags: seq<Diag>)
      requires |d.httpRequest| > 0
      modifies this
      ensures Outcome(step, diags) == HttpRequestOutcome(old(step), d.httpRequest[0], e)
    {
      var config := d.httpRequest[0];
      var m := FromString(HttpMethodKind, e.httpMethod, config.httpMethod);
      if m.Err? {
        return [Errorf(HttpRequestStepError + m.error)];
      }
      var headers := InterfaceMapToStringMap(config.headers);
      assert headers == config.headers.GetOr(map[]);
      step := Some(HttpRequest(m.value, config.url, headers, config.body));
      return [];
    }

    method GenerateStepDetective(d: StepCfg, e: Enums) returns (diags: seq<Diag>)
      requires |d.detective| > 0
      modifies this
      ensures Outcome(step, diags) == DetectiveOutcome(old(step), d.detective[0], e)
    {
      var config := d.detective[0];
      var t := FromString(DetectiveTypeKind, e.detectiveType, config.detectiveType);
      if t.Err? {
        return [Errorf(DetectiveStepError + t.error)];
      }
      var args := InterfaceToStrings(config.args);
      assert args == config.args.GetOr([]);
      step := Some(Detective(config.path, args, config.negate, t.value));
      return [];
    }

    method GenerateStepTransform(d: StepCfg, e: Enums) returns (diags: seq<Diag>)
      requires |d.transform| > 0
      modifies this
      ensures Outcome(step, diags) == TransformOutcome(old(step), d.transform[0], e)
    {
      var config := d.transform[0];
      var r := FromString(TransformTypeKind, e.transformType, config.transformType);
      if r.Err? {
        return [Errorf(TransformStepError + r.error)];
      }
      var t := r.value;
      step := Some(Transform(t, None));
      var options := VariantOptions(config, e.transformType.names[t], e);
      if options.Err? {
        return [Errorf(options.error)];
      }
      step := Some(Transform(t, Some(options.value)));
      return [];
    }

    /** generateStep: dispatch on the step type, doubling a sub-builder's error diagnostics. */
    method GenerateStep(d: StepCfg, t: string, e: Enums) returns (diags: seq<Diag>)
      requires ReadsBlock(d, t) ==> BlockCount(d, t) > 0
      modifies this
      ensures Outcome(step, diags) == GenerateStepOutcome(old(step), d, t, e)
    {
      if t == StepDetective {
        diags := GenerateStepDetective(d, e);
      } else if t == StepTransform {
        diags := GenerateStepTransform(d, e);
      } else if t == StepHttpRequest {
        diags := GenerateStepHttpRequest(d, e);
      } else if t == StepValidJson {
        diags := GenerateValidJsonStep(d);
      } else if t == StepSchemaValidation {
        diags := GenerateSchemaValidationStep(d, e);
      } else if t == StepKv {
        diags := GenerateKVStep(d, e);
      } else {
        return [Errorf(UnknownStepTypeError + t)];
      }
      if diags != [] {
        diags := diags + diags;
      }
    }
  }

  // ----- the pipeline -----

  /** The payload a fresh step gets from its own configuration. */
  function StepPayloadOf(d: StepCfg, e: Enums): Option<StepPayload> {
    GenerateStepOutcome(None, d, GetStepType(Some(d)), e).payload
  }

  /** One step of buildPipeline: conditions in the order on_true, on_false, on_error, then the payload. */
  function BuildStep(d: StepCfg, e: Enums): Result<Step, seq<Diag>>
  {
    match GenerateCondition(d.onTrue, e)
    case Err(diags) => Err(diags)
    case Ok(onTrue) =>
      match GenerateCondition(d.onFalse, e)
      case Err(diags) => Err(diags)
      case Ok(onFalse) =>
        match GenerateCondition(d.onError, e)
        case Err(diags) => Err(diags)
        case Ok(onError) => Ok(Step(d.name, onTrue, onFalse, onError, d.dynamic, StepPayloadOf(d, e)))
  }

  /**
   * A step fails exactly when one of its conditions fails, with the
   * diagnostics of the first failing one in the order on_true, on_false,
   * on_error; otherwise it carries the configured name and dynamic flag, the
   * three conditions and the payload its builder leaves.
   */
  lemma BuildStepConditions(d: StepCfg, e: Enums)
    ensures BuildStep(d, e).Err? <==>
              GenerateCondition(d.onTrue, e).Err? || GenerateCondition(d.onFalse, e).Err? || GenerateCondition(d.onError, e).Err?
    ensures GenerateCondition(d.onTrue, e).Err? ==> BuildStep(d, e) == Err(GenerateCondition(d.onTrue, e).error)
    ensures GenerateCondition(d.onTrue, e).Ok? && GenerateCondition(d.onFalse, e).Err? ==>
              BuildStep(d, e) == Err(GenerateCondition(d.onFalse, e).error)
    ensures GenerateCondition(d.onTrue, e).Ok? && GenerateCondition(d.onFalse, e).Ok? && GenerateCondition(d.onError, e).Err? ==>
              BuildStep(d, e) == Err(GenerateCondition(d.onError, e).error)
    ensures BuildStep(d, e).Ok? ==>
              BuildStep(d, e).value == Step(d.name, GenerateCondition(d.onTrue, e).value, GenerateCondition(d.onFalse, e).value,
                                            GenerateCondition(d.onError, e).value, d.dynamic, StepPayloadOf(d, e))
  {
  }

  /** The values of a list of results in order, or the first error among them. */
  function Collect<T, E>(rs: seq<Result<T, E>>): Result<seq<T>, E>
    decreases |rs|
  {
    if rs == [] then Ok([])
    else
      var n := |rs| - 1;
      match Collect(rs[..n])
      case Err(err) => Err(err)
      case Ok(vs) =>
        match rs[n]
        case Err(err) => Err(err)
        case Ok(v) => Ok(vs + [v])
  }

  /** Once a prefix fails, the whole list fails with the same error. */
  lemma {:induction false} CollectStopsAtError<T, E>(rs: seq<Result<T, E>>, k: nat)
    requires k <= |rs|
    requires Collect(rs[..k]).Err?
    ensures Collect(rs) == Collect(rs[..k])
    decreases |rs| - k
  {
    if k < |rs| {
      var n := |rs| - 1;
      assert rs[..n][..k] == rs[..k];
      CollectStopsAtError(rs[..n], k);
    } else {
      assert rs[..k] == rs;
    }
  }

  /** A successful collection holds every value, in order. */
  lemma {:induction false} CollectOk<T, E>(rs: seq<Result<T, E>>)
    requires Collect(rs).Ok?
    ensures |Collect(rs).value| == |rs|
    ensures forall i :: 0 <= i < |rs| ==> rs[i] == Ok(Collect(rs).value[i])
    decreases |rs|
  {
    if rs != [] {
      var n := |rs| - 1;
      CollectOk(rs[..n]);
      assert forall i :: 0 <= i < n ==> rs[..n][i] == rs[i];
    }
  }

  /** A collection fails exactly when some result is an error, and then with the first one. */
  lemma {:induction false} CollectErr<T, E>(rs: seq<Result<T, E>>)
    ensures Collect(rs).Err? <==> exists i :: 0 <= i < |rs| && rs[i].Err?
    ensures Collect(rs).Err? ==>
              exists i :: 0 <= i < |rs| && rs[i] == Err(Collect(rs).error)
                          && forall j :: 0 <= j < i ==> rs[j].Ok?
    decreases |rs|
  {
    if rs != [] {
      var n := |rs| - 1;
      CollectErr(rs[..n]);
      assert forall j :: 0 <= j < n ==> rs[..n][j] == rs[j];
      if Collect(rs[..n]).Ok? {
        CollectOk(rs[..n]);
      }
    }
  }

  /** The result of building each configured step on its own. */
  function StepResults(ds: seq<StepCfg>, e: Enums): seq<Result<Step, seq<Diag>>> {
    seq(|ds|, i requires 0 <= i < |ds| => BuildStep(ds[i], e))
  }

  /** What buildPipeline returns: the configured name, every step in order, and the pipeline not paused. */
  function BuildPipelineSpec(cfg: PipelineCfg, e: Enums): Result<Pipeline, seq<Diag>> {
    match Collect(StepResults(cfg.steps, e))
    case Err(diags) => Err(diags)
    case Ok(steps) => Ok(Pipeline(cfg.name, steps, false))
  }

  /** The body of buildPipeline's loop for one step: its conditions, then a step object whose payload its builder fills in. */
  method BuildStepMessage(d: StepCfg, e: Enums) returns (r: Result<Step, seq<Diag>>)
    ensures r == BuildStep(d, e)
  {
    var onTrue := GenerateCondition(d.onTrue, e);
    if onTrue.Err? {
      return Err(onTrue.error);
    }
    var onFalse := GenerateCondition(d.onFalse, e);
    if onFalse.Err? {
      return Err(onFalse.error);
    }
    var onError := GenerateCondition(d.onError, e);
    if onError.Err? {
      return Err(onError.error);
    }
    var s := new PipelineStep(d.name, onTrue.value, onFalse.value, onError.value, d.dynamic);
    var t := GetStepType(Some(d));
    var ignored := s.GenerateStep(d, t, e);
    return Ok(s.Value());
  }

  /** Collecting one more result: the earlier error, the new error, or one more value. */
  lemma CollectSnoc<T, E>(rs: seq<Result<T, E>>, i: nat)
    requires i < |rs|
    ensures Collect(rs[..i + 1]) == if Collect(rs[..i]).Err? then Collect(rs[..i])
                                    else if rs[i].Err? then Err(rs[i].error)
                                    else Ok(Collect(rs[..i]).value + [rs[i].value])
  {
    assert rs[..i + 1][..i] == rs[..i];
  }

  /** buildPipeline: build each step in order and stop at the first that fails. */
  method BuildPipeline(cfg: PipelineCfg, e: Enums) returns (r: Result<Pipeline, seq<Diag>>)
    ensures r == BuildPipelineSpec(cfg, e)
  {
    ghost var rs := StepResults(cfg.steps, e);
    var steps: seq<Step> := [];
    for i := 0 to |cfg.steps|
      invariant Collect(rs[..i]) == Ok(steps)
    {
      var step := BuildStepMessage(cfg.steps[i], e);
      assert rs[i] == step;
      CollectSnoc(rs, i);
      if step.Err? {
        CollectStopsAtError(rs, i + 1);
        return Err(step.error);
      }
      steps := steps + [step.value];
    }
    assert rs[..|cfg.steps|] == rs;
    return Ok(Pipeline(cfg.name, steps, false));
  }

  /**
   * A successful build has the configured name, is not paused, and has one
   * step per configured step, in order, each built from its own configuration.
   */
  lemma BuildPipelineShape(cfg: PipelineCfg, e: Enums)
    requires BuildPipelineSpec(cfg, e).Ok?
    ensures var p := BuildPipelineSpec(cfg, e).value;
            && p.name == cfg.name && !p.paused && |p.steps| == |cfg.steps|
            && forall i :: 0 <= i < |cfg.steps| ==>
                 && p.steps[i].name == cfg.steps[i].name
                 && p.steps[i].dynamic == cfg.steps[i].dynamic
                 && GenerateCondition(cfg.steps[i].onTrue, e) == Ok(p.steps[i].onTrue)
                 && GenerateCondition(cfg.steps[i].onFalse, e) == Ok(p.steps[i].onFalse)
                 && GenerateCondition(cfg.steps[i].onError, e) == Ok(p.steps[i].onError)
                 && p.steps[i].payload == StepPayloadOf(cfg.steps[i], e)
  {
    var rs := StepResults(cfg.steps, e);
    CollectOk(rs);
    forall i | 0 <= i < |cfg.steps|
      ensures BuildStep(cfg.steps[i], e) == Ok(BuildPipelineSpec(cfg, e).value.steps[i])
    {
      assert rs[i] == BuildStep(cfg.steps[i], e);
    }
    forall i | 0 <= i < |cfg.steps|
      ensures BuildStep(cfg.steps[i], e).Ok?
    {
      BuildStepConditions(cfg.steps[i], e);
    }
    forall i | 0 <= i < |cfg.steps|
      ensures BuildStep(cfg.steps[i], e).value == Step(cfg.steps[i].name, GenerateCondition(cfg.steps[i].onTrue, e).value,
                GenerateCondition(cfg.steps[i].onFalse, e).value, GenerateCondition(cfg.steps[i].onError, e).value,
                cfg.steps[i].dynamic, StepPayloadOf(cfg.steps[i], e))
    {
      BuildStepConditions(cfg.steps[i], e);
    }
  }

  /**
   * The build fails exactly when some step has a failing condition, and then
   * with the diagnostics of the first such step. Payload errors play no part.
   */
  lemma BuildPipelineFailure(cfg: PipelineCfg, e: Enums)
    ensures BuildPipelineSpec(cfg, e).Err? <==> exists i :: 0 <= i < |cfg.steps| && BuildStep(cfg.steps[i], e).Err?
    ensures BuildPipelineSpec(cfg, e).Err? ==>
              exists i :: 0 <= i < |cfg.steps| && BuildStep(cfg.steps[i], e) == Err(BuildPipelineSpec(cfg, e).error)
                          && forall j :: 0 <= j < i ==> BuildStep(cfg.steps[j], e).Ok?
  {
    var rs := StepResults(cfg.steps, e);
    CollectErr(rs);
    assert forall i :: 0 <= i < |cfg.steps| ==> rs[i] == BuildStep(cfg.steps[i], e);
  }

  /**
   * A step without any payload block still makes it into the pipeline, with
   * no payload: the "Unknown step type" error is discarded.
   */
  lemma StepWithoutPayload(d: StepCfg, e: Enums)
    requires forall i :: 0 <= i < |StepTypes| ==> BlockCount(d, StepTypes[i]) == 0
    ensures GenerateStepOutcome(None, d, GetStepType(Some(d)), e) == Fail(None, UnknownStepTypeError)
    ensures StepPayloadOf(d, e) == None
  {
    GetStepTypeSpec(Some(d));
    assert GetStepType(Some(d)) == "";
    assert "" !in StepTypes;
    GenerateStepOutcomeSpec(None, d, "", e);
    assert UnknownStepTypeError + "" == UnknownStepTypeError;
  }

  /**
   * A payload error does not fail the build: a detective step with an unknown
   * detective type and no conditions is built with no payload.
   */
  lemma PayloadErrorIsDiscarded(d: StepCfg, e: Enums)
    requires d.onTrue == [] && d.onFalse == [] && d.onError == []
    requires |d.detective| > 0
    requires FromString(DetectiveTypeKind, e.detectiveType, d.detective[0].detectiveType).Err?
    ensures BuildPipelineSpec(PipelineCfg("p", [d]), e) == Ok(Pipeline("p", [Step(d.name, None, None, None, d.dynamic, None)], false))
  {
    GetStepTypeSpec(Some(d));
    assert GetStepType(Some(d)) == StepDetective by {
      assert BlockCount(d, StepTypes[0]) > 0;
    }
    GenerateStepOutcomeSpec(None, d, StepDetective, e);
    DetectiveOutcomeSpec(None, d.detective[0], e);
    assert StepPayloadOf(d, e) == None;
    assert BuildStep(d, e) == Ok(Step(d.name, None, None, None, d.dynamic, None));
    var rs := StepResults([d], e);
    assert rs == [BuildStep(d, e)];
    CollectErr(rs);
    CollectOk(rs);
    assert Collect(rs).value == [Collect(rs).value[0]];
    assert Collect(rs) == Ok([Step(d.name, None, None, None, d.dynamic, None)]);
  }
}
