# streamdal Terraform provider: the translation and selection core, in Dafny

This project models the deterministic logic underneath the streamdal
Terraform provider and proves what that logic promises. The provider turns
Terraform configuration into streamdal protobuf messages and picks records
out of the server's responses. The modelled parts are:

- **Audience identifiers** (`Audience.dfy`):
  - the lower-cased `service:optype:opname:component` string form and its parser;
  - audience equality through that form;
  - list membership.
- **Record filter** (`Filter.dfy`):
  - the `*`-wildcard match;
  - `filterJSON`'s filters × rows × patterns walk, with its missing-key error;
  - the rendering of the filters for diagnostics.
- **Enum and conversion helpers** (`Helpers.dfy`):
  - the list and map coercions;
  - the first-non-empty step-type search;
  - one generic `xFromString` lookup, which strips the enum prefix, lowercases and compares;
  - the validator lists.
- **Pipeline builder** (`Pipeline.dfy`):
  - step conditions;
  - the six step builders, which fill in a `PipelineStep` object in place;
  - the `generateStep` dispatch;
  - the `buildPipeline` loop.
- **Notification builder** (`Notification.dfy`): a typed notification configuration becomes a slack, pagerduty or email payload, and an email payload carries an SMTP or SES block.
- **Lookup selection** (`Streamdal.dfy`), applied after an RPC returns:
  - the exactly-one rule of the three filter lookups;
  - `GetAudience`'s parse-then-membership check;
  - the pipeline ids assigned to an audience.

`Strings.dfy` models the parts of Go's `strings` package that the core calls:
- `ToLower`, with ASCII case mapping;
- `EqualFold`;
- `Split` and `Join` on one separator character;
- `Replace` with an empty replacement.

`Wrappers.dfy` holds `Option` and `Result`, which stand for a nil pointer and Go's `(value, error)` pair. It also holds Terraform's error diagnostic (summary and detail). `PipelineTypes.dfy` holds the configuration blocks and the message types of the pipeline.

Three modelling choices run through the project:
- **Enum tables.** The generated protobuf enum tables are parameters: a map from id to name, an iteration order, a prefix and an "invalid" error text.
- **RPC responses.** Every RPC response is an input, given either as the decoded records or as the call's error.
- **Go map iteration order.** Where the source iterates a Go map, the model takes the order as a parameter and proves its results order-independent as multisets. `GetPipelinesForAudience` instead picks keys nondeterministically and specifies the result up to order.

## Model

| member | source | states |
|---|---|---|
| Audience.AudienceToStr | util/audience.go:10-18 | nil gives ""; the result is all lower case and, for an audience, contains the ':' separator |
| Audience.AudienceFromStr | util/audience.go:22-46 | gives an audience exactly when the string splits into four ':'-separated parts (so "" gives nil); the operation type is consumer exactly when the second part is the lower-cased consumer name, and never unset; the service, operation and component names are the first, third and fourth parts lower-cased |
| Audience.AudienceToStrFields | util/audience.go:15 | for names without ':' the string form splits into the four lower-cased fields in the order service, operation type, operation name, component |
| Audience.RoundTrip | util/audience.go:10-46 | parsing the string form of an audience gives it back with its names lower-cased, when no name contains ':' and the type is consumer or producer |
| Audience.UnsetParsesAsProducer | util/audience.go:32-38 | an audience whose operation type is unset comes back from the round trip as producer |
| Audience.FormatAfterParse | util/audience.go:10-46 | a parseable string whose second field is the consumer or producer name prints back as itself lower-cased |
| Audience.AudienceEquals | util/audience.go:48-54 | the model of `AudienceEquals`: both present and equal in string form; its meaning is stated by `AudienceEqualsIff`, `AudienceEqualsSymmetric` and `AudienceEqualsIgnoresCase` |
| Audience.AudienceEqualsSymmetric | util/audience.go:48-54 | equality is symmetric and false when either side is nil |
| Audience.AudienceEqualsIgnoresCase | util/audience.go:48-54 | an audience equals its lower-cased copy |
| Audience.AudienceEqualsIff | util/audience.go:48-54 | for names without ':', equality holds exactly when the types agree and the names agree up to case |
| Audience.AudienceInList | util/audience.go:56-64 | true exactly when some list element equals the audience; false for the empty list |
| RecordFilter.GlobLiteral | streamdal/filter.go:45-55 | the `*`-glob stand-in for the wildcard library matches a pattern without '*' exactly when it equals the value |
| RecordFilter.Matches | streamdal/filter.go:45-55 | a pattern without '*' matches exactly the equal value; an equal value always matches, even when the pattern contains '*' |
| RecordFilter.MatchesIsGlob | streamdal/filter.go:45-55 | `matches` agrees with the glob on every input |
| RecordFilter.WildcardExample | streamdal/filter.go:45-55 | "prod-*" matches "prod-svc" and not "dev-svc" |
| RecordFilter.Hits | streamdal/filter.go:33-38 | one filter's patterns yield only copies of the row, at most one per pattern |
| RecordFilter.MissingKey | streamdal/filter.go:24-30 | no field is reported exactly when every filter's field is in every row; a reported name is the first filter, in order, whose field some row lacks |
| RecordFilter.Filtered | streamdal/filter.go:19-43 | no filters give an empty result and no error; the call fails exactly when some row lacks some filter's field |
| RecordFilter.AppendHits | streamdal/filter.go:33-38 | the pattern loop appends the row once per matching pattern |
| RecordFilter.FilterJSON | streamdal/filter.go:19-43 | the nested loops, with the early return on a missing field, compute exactly `Filtered` |
| RecordFilter.MissingKeyAt | streamdal/filter.go:27-30 | a row without the field of filter i, with every earlier filter complete, makes that filter's name the error |
| RecordFilter.InHits | streamdal/filter.go:33-38 | a row is among one filter's hits exactly when it is that row and some pattern matches its field |
| RecordFilter.InFoundFor | streamdal/filter.go:25-38 | a record is returned for one filter exactly when it is an input row that some pattern of the filter matches |
| RecordFilter.FoundBySnoc | streamdal/filter.go:24-39 | a record is found by a list of filters exactly when it is found by the list without its last filter or by that last filter |
| RecordFilter.InFoundAll | streamdal/filter.go:24-39 | a record is returned exactly when some filter matches it: an OR over the filters, not an AND |
| RecordFilter.FoundRowsAreInput | streamdal/filter.go:25-36 | every returned record is an element of the input |
| RecordFilter.HitsCount | streamdal/filter.go:33-38 | a row's hits hold only that row, as often as there are hits |
| RecordFilter.FoundForCount | streamdal/filter.go:24-39 | one filter returns a record as often as it occurs in the input times the number of the filter's patterns that match it (duplicates are kept) |
| RecordFilter.SameKeys | streamdal/filter.go:25-30 | whether all rows have a field does not depend on row order |
| RecordFilter.FoundAllPermutation | streamdal/filter.go:24-39 | permuting the input rows permutes the result |
| RecordFilter.FilteredOrderIndependent | streamdal/filter.go:19-43 | whatever order the map's rows are visited in, the outcome is the same error or the same records with the same multiplicities |
| RecordFilter.SameMissingKey | streamdal/filter.go:24-30 | the reported missing field depends only on which filters' fields are everywhere present |
| RecordFilter.FilterLine | streamdal/filter.go:57-59 | the model of `Filter.String`; its layout is stated by `FilterLineParts` |
| RecordFilter.RenderFilters | streamdal/filter.go:61-67 | the model of `filterString`; `RenderSnoc` and `RenderLines` state its lines, and `FilterString` proves the loop equal to it |
| RecordFilter.FilterLineParts | streamdal/filter.go:57-59 | a filter's line is its name, ": ", then its values joined by ',' (they split back when no value holds a comma) |
| RecordFilter.RenderSnoc | streamdal/filter.go:61-67 | adding a filter appends its line and a newline |
| RecordFilter.FilterString | streamdal/filter.go:61-67 | the accumulation loop produces one "name: v1,v2\n" line per filter, in filter order |
| RecordFilter.RenderLines | streamdal/filter.go:61-67 | the output splits on newlines into exactly the filters' lines, in order, followed by an empty tail |
| Helpers.InterfaceToStrings | internal/provider/helpers.go:17-29 | nil gives an empty list; otherwise the same length and the same strings in the same order |
| Helpers.InterfaceMapToStringMap | internal/provider/helpers.go:31-43 | nil gives an empty map; otherwise the same keys with the same values |
| Helpers.FirstNonEmpty | internal/provider/helpers.go:47-59 | the index found is the first whose block is non-empty; every earlier block is empty |
| Helpers.GetStepType | internal/provider/helpers.go:45-59 | the result is "" or one of the six step types, and a non-empty result names a non-empty block |
| Helpers.GetStepTypeSpec | internal/provider/helpers.go:45-59 | nil gives ""; otherwise "" exactly when all six blocks are empty, else the first type in the order detective, transform, http_request, valid_json, schema_validation, kv whose block is non-empty |
| Helpers.StepTypeOfSingleBlock | internal/provider/helpers.go:45-59 | a step with exactly one non-empty block has that block's type |
| Helpers.TransformedName | internal/provider/helpers.go:62-72 | an enum name with every occurrence of the prefix removed and lower-cased is all lower case and no longer than the name |
| Helpers.TransformIgnoresLeadingPrefix | internal/provider/helpers.go:62-72 | a name and its prefix-less tail transform alike |
| Helpers.FindIndex | internal/provider/helpers.go:62-72 | the search stops at the first id, in table order, whose transformed name is the input |
| Helpers.FromString | internal/provider/helpers.go:62-72 | success returns an id of the table whose transformed name is the input; failure returns the lookup's fixed "invalid …" error |
| Helpers.FromStringSucceedsIff | internal/provider/helpers.go:62-72 | the lookup succeeds exactly when some enum name transforms to the input, and then returns the first such id in table order |
| Helpers.FromStringRoundTrip | internal/provider/helpers.go:149-160 | when the transformed names are pairwise distinct, looking up the transformed name of an id gives that id |
| Helpers.FromStringOrderIndependent | internal/provider/helpers.go:198-208 | with distinct transformed names the lookup does not depend on the table's iteration order |
| Helpers.ValidList | internal/provider/helpers.go:88-98 | the validator list holds each id's transformed name, one per id in table order |
| Helpers.ValidListMembers | internal/provider/helpers.go:88-98 | a string is in the validator list exactly when some enum name transforms to it |
| Helpers.ValidNames | internal/provider/helpers.go:137-147 | the append loop builds exactly the validator list |
| Helpers.ValidatorAgreesWithLookup | internal/provider/helpers.go:137-160 | the case-insensitive validator accepts exactly the strings whose lower-cased form the lookup recognises; whatever the lookup accepts the validator accepts, and the lookup rejects any string with an upper-case letter |
| Pipeline.GenerateCondition | internal/provider/resource_pipeline.go:535-576 | the model of `generateCondition`; its outcomes are stated by `GenerateConditionSpec`, `ConditionErrors`, `ConditionRoundTrip` and `NotificationIdsAreDropped` |
| Pipeline.GenerateConditionSpec | internal/provider/resource_pipeline.go:535-576 | an absent condition, or one that is not a list of exactly one element, gives no condition and no error; the build fails, with one diagnostic, exactly when the block is malformed, the abort string is unknown or the notification payload type is unknown; a condition carries the looked-up abort, the metadata, and a notification exactly when the block has one |
| Pipeline.ConditionErrors | internal/provider/resource_pipeline.go:549-566 | an unknown abort string fails with the abort-condition error before the payload type is read; an unknown payload type fails with the payload-type error |
| Pipeline.ConditionRoundTrip | internal/provider/resource_pipeline.go:549-558 | a condition naming a known abort value and no notification builds exactly that condition |
| Pipeline.NotificationIdsAreDropped | internal/provider/resource_pipeline.go:568-572 | the notification's config ids and paths are read from the condition map, where the schema puts neither, so they always come out empty |
| Pipeline.KvOutcome | internal/provider/resource_pipeline.go:620-645 | the model of `generateKVStep` as a function of the old payload; stated by `KvOutcomeSpec` |
| Pipeline.KvOutcomeSpec | internal/provider/resource_pipeline.go:620-645 | the kv step succeeds exactly when mode and action are known; the mode is checked first; a failure leaves the step's payload unchanged; a success sets a kv payload with the looked-up mode and action and the configured key and value |
| Pipeline.SchemaValidationOutcome | internal/provider/resource_pipeline.go:647-690 | the model of `generateSchemaValidationStep`; stated by `SchemaValidationOutcomeSpec` |
| Pipeline.SchemaValidationOutcomeSpec | internal/provider/resource_pipeline.go:647-690 | succeeds exactly when type, condition and draft are known and the type is the JSON-schema type; any error leaves the step's payload unchanged, with one diagnostic; a success sets the type, the condition and JSON-schema options |
| Pipeline.HttpRequestOutcome | internal/provider/resource_pipeline.go:700-722 | the model of `generateStepHttpRequest`; stated by `HttpRequestOutcomeSpec` |
| Pipeline.HttpRequestOutcomeSpec | internal/provider/resource_pipeline.go:700-722 | succeeds exactly when the method is known; a failure leaves the payload unchanged; a success copies url, headers and body |
| Pipeline.DetectiveOutcome | internal/provider/resource_pipeline.go:724-743 | the model of `generateStepDetective`; stated by `DetectiveOutcomeSpec` |
| Pipeline.DetectiveOutcomeSpec | internal/provider/resource_pipeline.go:724-743 | succeeds exactly when the detective type is known; a failure leaves the payload unchanged; a success copies path, args and negate |
| Pipeline.VariantNeedsOwnBlock | internal/provider/resource_pipeline.go:761-852 | each transform type needs its own non-empty block, otherwise it errors; with its block every type but truncate succeeds, truncate succeeding exactly when its truncate type is known; an unknown type errors; the options built are of the type's own variant |
| Pipeline.VariantCopiesFirstBlock | internal/provider/resource_pipeline.go:761-852 | each variant with a block builds its options from the first block: replace-value path and value, obfuscate path, mask path and mask, truncate path with the looked-up truncate type (or the truncate error), extract paths (empty when absent) and flatten, delete-field with no paths |
| Pipeline.TransformOutcome | internal/provider/resource_pipeline.go:745-855 | the model of `generateStepTransform`; stated by `TransformOutcomeSpec`, `VariantNeedsOwnBlock`, `VariantCopiesFirstBlock` and `DeleteFieldPathsAreDropped` |
| Pipeline.TransformOutcomeSpec | internal/provider/resource_pipeline.go:745-855 | an unknown transform type fails and leaves the payload unchanged; otherwise the step already carries a transform payload with the type set, and it has options exactly when there is no error; those options, or the one error, are the ones the switch on the variant builds from the variant's block |
| Pipeline.DeleteFieldPathsAreDropped | internal/provider/resource_pipeline.go:776-788 | the delete-field paths are read from the key `path` while the block declares `paths`, so the options always carry an empty path list |
| Pipeline.GenerateStepOutcome | internal/provider/resource_pipeline.go:578-618 | the model of `generateStep`; stated by `GenerateStepOutcomeSpec` and `ValidJsonNeverFails` |
| Pipeline.GenerateStepOutcomeSpec | internal/provider/resource_pipeline.go:578-618 | an unrecognised type fails with "Unknown step type: " and the type; a known type sets what its builder sets, and any error comes back twice |
| Pipeline.ValidJsonNeverFails | internal/provider/resource_pipeline.go:692-698 | the valid-json step always succeeds with a valid-json payload |
| Pipeline.PipelineStep.constructor | internal/provider/resource_pipeline.go:516-522 | a new step has the configured name, conditions and dynamic flag, and no payload |
| Pipeline.PipelineStep.GenerateKVStep | internal/provider/resource_pipeline.go:620-645 | updates the step in place to the kv outcome of its old payload |
| Pipeline.PipelineStep.GenerateSchemaValidationStep | internal/provider/resource_pipeline.go:647-690 | updates the step in place to the schema-validation outcome; the payload is assigned only on success |
| Pipeline.PipelineStep.GenerateValidJsonStep | internal/provider/resource_pipeline.go:692-698 | sets the valid-json payload |
| Pipeline.PipelineStep.GenerateStepHttpRequest | internal/provider/resource_pipeline.go:700-722 | updates the step in place to the http-request outcome |
| Pipeline.PipelineStep.GenerateStepDetective | internal/provider/resource_pipeline.go:724-743 | updates the step in place to the detective outcome |
| Pipeline.PipelineStep.GenerateStepTransform | internal/provider/resource_pipeline.go:745-855 | sets the transform payload without options, then fills in the options in place, as the transform outcome says |
| Pipeline.PipelineStep.GenerateStep | internal/provider/resource_pipeline.go:578-618 | dispatches on the step type and updates the step as the dispatch outcome says |
| Pipeline.BuildStep | internal/provider/resource_pipeline.go:497-528 | the model of one iteration of the `buildPipeline` loop; stated by `BuildStepConditions`, `StepWithoutPayload` and `PayloadErrorIsDiscarded` |
| Pipeline.Collect | internal/provider/resource_pipeline.go:496-530 | the early-return loop over step results; stated by `CollectStopsAtError`, `CollectOk` and `CollectErr` |
| Pipeline.BuildStepConditions | internal/provider/resource_pipeline.go:501-522 | a step fails exactly when one of its conditions fails, checked in the order on_true, on_false, on_error; otherwise it carries the name, the three conditions, the dynamic flag and the builder's payload |
| Pipeline.CollectStopsAtError | internal/provider/resource_pipeline.go:496-530 | once a step has failed, later steps do not change the outcome |
| Pipeline.CollectOk | internal/provider/resource_pipeline.go:496-530 | a successful build has one step per step result, in order |
| Pipeline.CollectErr | internal/provider/resource_pipeline.go:496-530 | the build fails exactly when some step fails, with the first failing step's error |
| Pipeline.BuildStepMessage | internal/provider/resource_pipeline.go:497-528 | one iteration of the loop builds exactly the step that `BuildStep` specifies |
| Pipeline.BuildPipeline | internal/provider/resource_pipeline.go:486-533 | the loop with its early returns yields exactly the specified pipeline |
| Pipeline.BuildPipelineSpec | internal/provider/resource_pipeline.go:486-533 | the model of `buildPipeline`; stated by `BuildPipelineShape` and `BuildPipelineFailure`, and `BuildPipeline` proves the loop equal to it |
| Pipeline.BuildPipelineShape | internal/provider/resource_pipeline.go:486-533 | a built pipeline has the configured name, is not paused, and has one step per configured step, in order, with name, dynamic flag, conditions and payload taken from that step |
| Pipeline.BuildPipelineFailure | internal/provider/resource_pipeline.go:501-514 | the build fails exactly when some step's condition fails, and then no pipeline is returned, only the first error |
| Pipeline.StepWithoutPayload | internal/provider/resource_pipeline.go:524-526 | a step with no payload block has type "", fails as an unknown step type, and keeps no payload |
| Pipeline.PayloadErrorIsDiscarded | internal/provider/resource_pipeline.go:524-528 | a payload error never fails the build: a detective step with an unknown type is appended without a payload |
| Notification.ToInt32 | internal/provider/resource_notification.go:318-336 | Go's `int32(port)` keeps the value modulo 2^32 |
| Notification.ToInt32Fits | internal/provider/resource_notification.go:318-336 | a port that fits in 32 bits is kept unchanged |
| Notification.ToInt32Periodic | internal/provider/resource_notification.go:318-336 | the conversion depends only on the port modulo 2^32 |
| Notification.PortWrapsAround | internal/provider/resource_notification.go:318-336 | 2^32 + 25 becomes 25 and 2^31 becomes -2^31 |
| Notification.BuildNotification | internal/provider/resource_notification.go:250-354 | the model of `buildNotification`; stated by `NotificationSucceedsIff`, `UnknownTypeFails`, `BuiltConfigMatchesType`, `MissingBlockFails`, `SlackIsCopied`, `PagerDutyUrgency`, `OtherTypeHasNoPayload` and `EmailIsBuiltFromFirstBlock` |
| Notification.BuildEmail | internal/provider/resource_notification.go:297-353 | the email part of `buildNotification`; stated by `EmailDelivery`, `OtherEmailTypeHasNoDelivery`, `SmtpPort` and `SesIsCopied` |
| Notification.UnknownTypeFails | internal/provider/resource_notification.go:253-256 | an unrecognised type fails with the conversion error and no config |
| Notification.BuiltConfigMatchesType | internal/provider/resource_notification.go:258-353 | on success, name and type come from the configuration; there is a payload exactly for the slack, pagerduty and email types, and it is of the variant the type names |
| Notification.MissingBlockFails | internal/provider/resource_notification.go:263-301 | for slack, pagerduty or email, an empty matching block fails with the error naming that block |
| Notification.SlackIsCopied | internal/provider/resource_notification.go:263-276 | the slack channel and bot token are copied unchanged |
| Notification.PagerDutyUrgency | internal/provider/resource_notification.go:277-296 | a pagerduty payload succeeds exactly when the urgency is known; the urgency is the looked-up id and the other fields are copied |
| Notification.EmailDelivery | internal/provider/resource_notification.go:297-353 | the email fails exactly when its type is unknown, or it is the smtp type with no smtp block, or the ses type with no ses block; an unknown email type fails with the lookup's error; an smtp type needs an smtp block and a ses type a ses block; recipients and sender are copied; another email type leaves the email without a delivery configuration |
| Notification.SmtpPort | internal/provider/resource_notification.go:318-336 | an SMTP delivery is built from the first smtp block: host, user, password and TLS flag copied, and the port converted to 32 bits |
| Notification.SesIsCopied | internal/provider/resource_notification.go:335-349 | an SES delivery is built from the first ses block, with its region, access key and secret access key copied unchanged |
| Notification.OtherEmailTypeHasNoDelivery | internal/provider/resource_notification.go:309-353 | a known email type other than smtp and ses builds, without error, an email with the type, recipients and sender and no delivery configuration |
| Notification.NotificationSucceedsIff | internal/provider/resource_notification.go:250-354 | a notification is built exactly when its type is known, a slack type has a slack block, a pagerduty type has a pagerduty block with a known urgency, and an email type has an email block whose email builds |
| Notification.OtherTypeHasNoPayload | internal/provider/resource_notification.go:250-354 | a known type outside slack, pagerduty and email builds, without error, a config with the name and type and no payload |
| Notification.EmailIsBuiltFromFirstBlock | internal/provider/resource_notification.go:297-353 | an email notification fails with the email builder's error or carries the email it builds from the first block |
| Streamdal.SelectOne | streamdal/streamdal.go:111-131 | the exactly-one rule shared by the three filter lookups; stated by `LookupByFiltersSpec` and `RepeatedMatchIsTooMany` |
| Streamdal.LookupByFilters | streamdal/streamdal.go:86-132 | the model of `GetPipelineFilter`, `GetNotificationConfigFilter` and `GetAudienceFilter`, which differ only in the noun; stated by `LookupByFiltersSpec` and `NoFiltersFindNothing` |
| Streamdal.LookupByFiltersSpec | streamdal/streamdal.go:86-132 | the RPC error passes through; a filter error comes before any count; no match fails with "Failed to find …" and detail "Filters: " plus the rendered filters; more than one fails; exactly one returns that input record, which some filter matches |
| Streamdal.NoFiltersFindNothing | streamdal/streamdal.go:111-122 | with no filters nothing is found, whatever the records |
| Streamdal.FoundAllCovers | streamdal/filter.go:24-39 | every filter's hits are among the hits of all filters, counted with repetition |
| Streamdal.RepeatedMatchIsTooMany | streamdal/streamdal.go:116-131 | a record that two patterns of one filter both match is never selected: the lookup reports more than one match |
| Streamdal.GetAudience | streamdal/streamdal.go:258-277 | a found audience is the parsed id, fetched without an RPC error, and some listed audience equals it; `GetAudienceSpec` states every case |
| Streamdal.GetAudienceSpec | streamdal/streamdal.go:258-277 | an id that does not parse fails with "invalid audience id" whatever the response; otherwise the RPC error passes through; the parsed audience is returned exactly when some listed audience equals it, otherwise "audience not found" |
| Streamdal.GetAudienceFindsListed | streamdal/streamdal.go:258-277 | looking up the string form of a listed audience finds it with its names lower-cased |
| Streamdal.CountWherePositive | streamdal/streamdal.go:289-295 | the count of matching entries is positive exactly when some entry matches |
| Streamdal.MatchingAudiences | streamdal/streamdal.go:289-295 | how many of a pipeline's audiences equal the given one; stated by `MatchingAudiencesPositive` and `NilAudienceMatchesNothing` |
| Streamdal.MatchingAudiencesPositive | streamdal/streamdal.go:289-295 | a pipeline lists an audience equal to the given one exactly when `AudienceInList` holds |
| Streamdal.NilAudienceMatchesNothing | streamdal/streamdal.go:289-295 | a nil audience equals no entry |
| Streamdal.Assigned | streamdal/streamdal.go:281-298 | how often an id belongs in `GetPipelinesForAudience`'s result; stated by `AssignedIff` |
| Streamdal.AssignedIff | streamdal/streamdal.go:281-298 | a pipeline id is in the result exactly when that pipeline lists an equal audience |
| Streamdal.AppendMatching | streamdal/streamdal.go:290-294 | the inner loop appends the id once per equal audience entry |
| Streamdal.GetPipelinesForAudience | streamdal/streamdal.go:281-298 | the RPC error passes through; otherwise each pipeline id occurs once per equal audience entry of that pipeline, whatever the map's iteration order |

## Left out

- gRPC plumbing: dialing, connection close, auth-token metadata and every RPC wrapper of `streamdal/streamdal.go` are network I/O; each RPC response is an input to the model.
- The JSON round trip of responses, and its "Failed to parse response" error, belongs to a foreign library; records are given already decoded, as maps from field names to strings.
- The Terraform SDK surface is host-plugin glue: schema declarations, CRUD callbacks, `d.Get`/`d.Set`, the data-source read functions and the audience resource.
- RecordFilter.Glob: the wildcard library's `MatchSimple` is not part of this model; a `*`-glob predicate stands in for it as an assumption.
- Formatting non-string values with `%s` is not modelled: field values are strings, so `checkVal` is the field itself.
- An enum id in an error text is written as its table name, where Go's `%s` prints the enum's String() form.
- Go runtime panics from failed type assertions are out of scope; the three below are where a contract states a success that Go does not reach.
- Pipeline.VariantNeedsOwnBlock, Pipeline.VariantCopiesFirstBlock: the truncate options read their `Value` as `int32` from the string field `type` (internal/provider/resource_pipeline.go:833), which panics; the model omits the truncate value and states that a truncate step with a known truncate type succeeds.
- Pipeline.SchemaValidationOutcomeSpec: schema validation reads `draft` and `schema` at the top level of the block (internal/provider/resource_pipeline.go:672), where the schema does not put them; the model takes them from the block's fields and states success.
- Pipeline.VariantNeedsOwnBlock, Pipeline.VariantCopiesFirstBlock: the extract block declares only `paths`, so reading its `flatten` as a bool panics on every extract step (internal/provider/resource_pipeline.go:296-315, 847). The model reads `flatten` as if the extract block declared it, and builds the extract options.
- The step schema declares no `kv` block (internal/provider/resource_pipeline.go:116-405), so the step-type search never selects "kv" and `generateKVStep` is unreachable from `buildPipeline`. The model keeps a `kv` block in the step configuration, so it keeps a kv step reachable that the provider's schema never produces.
- Helpers.FromString: on failure Go returns id 0 together with the error; the model returns only the error.
- The pipeline holds `Step` values rather than pointers to `PipelineStep`, so later aliasing of a step is not modelled.
- Byte fields (kv value, http body, JSON schema) are kept as strings.
- Case mapping (`strings.ToLower`, `EqualFold`) covers ASCII letters only.
- The notification type, pagerduty urgency and email type lookups are not part of this model; they are parameters shaped like the pipeline lookups.
- Go map iteration order is a parameter (filter rows, enum tables) or nondeterministic (pipelines in `GetPipelinesForAudience`); results are stated up to order.
- RecordFilter.FilterJSON: Go ranges the response map afresh for each filter, so each filter may visit the rows in its own order; the model visits them in one order for all filters. Only the order of the result list is lost: `FilteredOrderIndependent` shows the multiset of records and the error do not depend on row order.
