/**
 * The pipeline resource's configuration, as the builder reads it, and the
 * pipeline message it produces. Nested blocks are lists, as Terraform hands
 * them over; a key read through the list or map coercions is an `Option`,
 * `None` standing for an absent (nil) value.
 */
module PipelineTypes {
  import opened Wrappers

  // ----- configuration -----

  /** The `notification` block of a condition. */
  datatype NotificationCfg = NotificationCfg(
    notificationConfigIds: Option<seq<string>>,
    payloadType: string,
    paths: Option<seq<string>>)

  /**
   * An `on_true` / `on_false` / `on_error` block: the keys the condition
   * schema declares. The block has no `notification_config_ids` or `paths`
   * key of its own; those belong to the notification block.
   */
  datatype ConditionCfg = ConditionCfg(
    abort: string,
    metadata: Option<map<string, string>>,
    notification: seq<NotificationCfg>)

  datatype DetectiveCfg = DetectiveCfg(path: string, detectiveType: string, args: Option<seq<string>>, negate: bool)

  datatype ReplaceValueCfg = ReplaceValueCfg(path: string, value: string)
  /** The `delete_field` block declares `paths`; there is no `path` key. */
  datatype DeleteFieldCfg = DeleteFieldCfg(paths: Option<seq<string>>)
  datatype ObfuscateCfg = ObfuscateCfg(path: string)
  datatype MaskCfg = MaskCfg(path: string, mask: string)
  datatype TruncateCfg = TruncateCfg(truncateType: string, path: string)
  datatype ExtractCfg = ExtractCfg(paths: Option<seq<string>>, flatten: bool)

  datatype TransformCfg = TransformCfg(
    transformType: string,
    replaceValue: seq<ReplaceValueCfg>,
    deleteField: seq<DeleteFieldCfg>,
    obfuscate: seq<ObfuscateCfg>,
    mask: seq<MaskCfg>,
    truncate: seq<TruncateCfg>,
    extract: seq<ExtractCfg>)

  datatype HttpRequestCfg = HttpRequestCfg(httpMethod: string, url: string, headers: Option<map<string, string>>, body: string)

  /** The `valid_json` block has no keys. */
  datatype ValidJsonCfg = ValidJsonCfg

  /** The keys the schema-validation builder reads, `draft` and `schema` included. */
  datatype SchemaValidationCfg = SchemaValidationCfg(
    validationType: string, condition: string, draft: string, schema: string)

  datatype KvCfg = KvCfg(mode: string, action: string, key: string, value: string)

  /**
   * One `step` block. A condition block element is `None` when the block is
   * present but is not a key/value map.
   */
  datatype StepCfg = StepCfg(
    name: string,
    onTrue: seq<Option<ConditionCfg>>,
    onFalse: seq<Option<ConditionCfg>>,
    onError: seq<Option<ConditionCfg>>,
    dynamic: bool,
    detective: seq<DetectiveCfg>,
    transform: seq<TransformCfg>,
    httpRequest: seq<HttpRequestCfg>,
    validJson: seq<ValidJsonCfg>,
    schemaValidation: seq<SchemaValidationCfg>,
    kv: seq<KvCfg>)

  datatype PipelineCfg = PipelineCfg(name: string, steps: seq<StepCfg>)

  // ----- message -----

  /** Enum values are the numeric ids of the generated tables. */
  type EnumId = int

  datatype StepNotification = StepNotification(
    notificationConfigIds: seq<string>, payloadType: EnumId, paths: seq<string>)

  datatype Conditions = Conditions(
    abort: EnumId, metadata: map<string, string>, notification: Option<StepNotification>)

  datatype TransformOptions =
    | ReplaceValueOptions(path: string, value: string)
    | DeleteFieldOptions(paths: seq<string>)
    | ObfuscateOptions(path: string)
    | MaskOptions(path: string, mask: string)
    | TruncateOptions(truncateType: EnumId, path: string)
    | ExtractOptions(paths: seq<string>, flatten: bool)

  datatype JsonSchemaOptions = JsonSchemaOptions(jsonSchema: string, draft: EnumId)

  /** The `oneof` step payload of a pipeline step. */
  datatype StepPayload =
    | Detective(path: string, args: seq<string>, negate: bool, detectiveType: EnumId)
    | Transform(transformType: EnumId, options: Option<TransformOptions>)
    | HttpRequest(httpMethod: EnumId, url: string, headers: map<string, string>, body: string)
    | ValidJson
    | SchemaValidation(validationType: EnumId, condition: EnumId, jsonSchemaOptions: Option<JsonSchemaOptions>)
    | Kv(mode: EnumId, action: EnumId, key: string, value: string)

  datatype Step = Step(
    name: string,
    onTrue: Option<Conditions>,
    onFalse: Option<Conditions>,
    onError: Option<Conditions>,
    dynamic: bool,
    payload: Option<StepPayload>)

  datatype Pipeline = Pipeline(name: string, steps: seq<Step>, paused: bool)
}
