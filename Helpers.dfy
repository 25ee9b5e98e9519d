/**
 * The provider's helpers: coercions of raw Terraform values, the choice of
 * a step's payload block, and the string-to-enum lookups with their
 * validator lists. Every lookup strips a fixed prefix from each name of a
 * generated enum table, lower-cases the rest and compares; the tables are
 * parameters, visited in Go's map iteration order, which is given as `order`.
 */
module Helpers {
  import opened Wrappers
  import opened Strings
  import opened PipelineTypes

  // ----- coercions -----

  /** interfaceToStrings: nil becomes the empty list, a list keeps its elements in order. */
  method InterfaceToStrings(value: Option<seq<string>>) returns (strs: seq<string>)
    ensures value.None? ==> strs == []
    ensures value.Some? ==> |strs| == |value.value|
    ensures value.Some? ==> forall i :: 0 <= i < |strs| ==> strs[i] == value.value[i]
  {
    strs := [];
    if value.None? {
      return;
    }
    var items := value.value;
    for i := 0 to |items|
      invariant strs == items[..i]
    {
      strs := strs + [items[i]];
    }
    assert items[..|items|] == items;
  }

  /** interfaceMapToStringMap: nil becomes the empty map, a map keeps its keys and values. */
  method InterfaceMapToStringMap(value: Option<map<string, string>>) returns (m: map<string, string>)
    ensures value.None? ==> m == map[]
    ensures value.Some? ==> m.Keys == value.value.Keys
    ensures value.Some? ==> forall k :: k in m ==> m[k] == value.value[k]
  {
    m := map[];
    if value.None? {
      return;
    }
    var src := value.value;
    var todo := src.Keys;
    while todo != {}
      invariant todo <= src.Keys
      invariant m.Keys == src.Keys - todo
      invariant forall k :: k in m ==> m[k] == src[k]
      decreases |todo|
    {
      var k :| k in todo;
      m := m[k := src[k]];
      todo := todo - {k};
    }
  }

  // ----- step type -----

  /** The payload block names, in the order getStepType tries them. */
  const StepDetective := "detective"
  const StepTransform := "transform"
  const StepHttpRequest := "http_request"
  const StepValidJson := "valid_json"
  const StepSchemaValidation := "schema_validation"
  const StepKv := "kv"
  const StepTypes: seq<string> := [StepDetective, StepTransform, StepHttpRequest, StepValidJson, StepSchemaValidation, StepKv]

  /** How many blocks the step configures under `st`; 0 for a name that is not a payload block. */
  function BlockCount(d: StepCfg, st: string): nat {
    if st == StepDetective then |d.detective|
    else if st == StepTransform then |d.transform|
    else if st == StepHttpRequest then |d.httpRequest|
    else if st == StepValidJson then |d.validJson|
    else if st == StepSchemaValidation then |d.schemaValidation|
    else if st == StepKv then |d.kv|
    else 0
  }

  /** The position of the first name of `types` whose block list is non-empty; `|types|` when there is none. */
  function FirstNonEmpty(d: StepCfg, types: seq<string>): (i: nat)
    ensures i <= |types|
    ensures i < |types| ==> BlockCount(d, types[i]) > 0
    ensures forall j :: 0 <= j < i ==> BlockCount(d, types[j]) == 0
    decreases |types|
  {
    if types == [] then 0
    else if BlockCount(d, types[0]) > 0 then 0
    else
      var i := FirstNonEmpty(d, types[1..]);
      assert forall j :: 0 < j <= i ==> types[j] == types[1..][j - 1];
      i + 1
  }

  /**
   * getStepType: "" for a nil step; otherwise the first payload block name,
   * in the fixed order, whose block list is non-empty, or "" when there is none.
   */
  function GetStepType(d: Option<StepCfg>): (r: string)
    ensures r == "" || r in StepTypes
    ensures r != "" ==> d.Some? && BlockCount(d.value, r) > 0
  {
    if d.None? then ""
    else
      var i := FirstNonEmpty(d.value, StepTypes);
      if i < |StepTypes| then StepTypes[i] else ""
  }

  /**
   * The step type is "" for a nil step or one without any payload block;
   * otherwise it names a block the step configures, and every name before it
   * in the fixed order has an empty block list.
   */
  lemma GetStepTypeSpec(d: Option<StepCfg>)
    ensures d.None? ==> GetStepType(d) == ""
    ensures d.Some? ==> (GetStepType(d) == "" <==> forall i :: 0 <= i < |StepTypes| ==> BlockCount(d.value, StepTypes[i]) == 0)
    ensures GetStepType(d) != "" ==>
              exists i :: 0 <= i < |StepTypes| && StepTypes[i] == GetStepType(d)
                          && BlockCount(d.value, StepTypes[i]) > 0
                          && forall j :: 0 <= j < i ==> BlockCount(d.value, StepTypes[j]) == 0
  {
    if d.Some? {
      var i := FirstNonEmpty(d.value, StepTypes);
      if i < |StepTypes| {
        assert StepTypes[i] != "";
      }
    }
  }

  /** A step with exactly one kind of payload block is of that kind. */
  lemma StepTypeOfSingleBlock(d: StepCfg, st: string)
    requires st in StepTypes && BlockCount(d, st) > 0
    requires forall i :: 0 <= i < |StepTypes| && StepTypes[i] != st ==> BlockCount(d, StepTypes[i]) == 0
    ensures GetStepType(Some(d)) == st
  {
    GetStepTypeSpec(Some(d));
  }

  // ----- enum lookups -----

  /** What tells one generated lookup from another: the prefix it strips and its error text. */
  datatype EnumKind = EnumKind(prefix: string, invalid: string)

  const DetectiveTypeKind := EnumKind("DETECTIVE_TYPE_", "invalid detective type")
  const TransformTypeKind := EnumKind("TRANSFORM_TYPE_", "invalid transform type")
  const TransformTruncateTypeKind := EnumKind("TRANSFORM_TRUNCATE_TYPE_", "invalid transform truncate type")
  const AbortConditionKind := EnumKind("ABORT_CONDITION_", "invalid abort condition")
  const NotificationPayloadTypeKind := EnumKind("PAYLOAD_TYPE_", "invalid notification payload type")
  const HttpMethodKind := EnumKind("HTTP_REQUEST_METHOD_", "invalid http method")
  const SchemaValidationTypeKind := EnumKind("SCHEMA_VALIDATION_TYPE_", "invalid schema validation type")
  const SchemaValidationConditionKind := EnumKind("SCHEMA_VALIDATION_CONDITION_", "invalid schema validation condition")
  const JsonSchemaDraftKind := EnumKind("JSON_SCHEMA_", "invalid schema validation JSON schema draft")
  const KvModeKind := EnumKind("KV_MODE_", "invalid kv mode")
  const KvActionKind := EnumKind("KV_ACTION_", "invalid kv action")

  /** A generated `_name` table (id to enum name) and one iteration order of it. */
  datatype EnumTable = EnumTable(names: map<EnumId, string>, order: seq<EnumId>)

  /** `order` lists every id of the table exactly once. */
  predicate ValidTable(t: EnumTable) {
    && (forall i :: 0 <= i < |t.order| ==> t.order[i] in t.names)
    && (forall id :: id in t.names ==> id in t.order)
    && (forall i, j :: 0 <= i < j < |t.order| ==> t.order[i] != t.order[j])
  }

  type Table = t: EnumTable | ValidTable(t) witness EnumTable(map[], [])

  /** The prefix removed everywhere, then the rest lower-cased. */
  function TransformedName(kind: EnumKind, name: string): (r: string)
    ensures IsLower(r)
    ensures |r| <= |name|
  {
    Lower(RemoveAll(name, kind.prefix))
  }

  /** A leading prefix makes no difference to the transformed name. */
  lemma TransformIgnoresLeadingPrefix(kind: EnumKind, rest: string)
    requires kind.prefix != []
    ensures TransformedName(kind, kind.prefix + rest) == TransformedName(kind, rest)
  {
    RemoveAllLeading(kind.prefix, rest);
  }

  /** The position in `order` of the first id whose transformed name is `s`; `|order|` when there is none. */
  function FindIndex(kind: EnumKind, names: map<EnumId, string>, order: seq<EnumId>, s: string): (i: nat)
    requires forall k :: 0 <= k < |order| ==> order[k] in names
    ensures i <= |order|
    ensures i < |order| ==> TransformedName(kind, names[order[i]]) == s
    ensures forall j :: 0 <= j < i ==> TransformedName(kind, names[order[j]]) != s
    decreases |order|
  {
    if order == [] then 0
    else if TransformedName(kind, names[order[0]]) == s then 0
    else
      var i := FindIndex(kind, names, order[1..], s);
      assert forall j :: 0 < j <= i ==> order[j] == order[1..][j - 1];
      i + 1
  }

  /**
   * The `xFromString` lookups: the id, first in iteration order, whose
   * transformed name equals `s`, or the lookup's fixed error. (The source
   * returns id 0 together with the error.)
   */
  function FromString(kind: EnumKind, t: Table, s: string): (r: Result<EnumId, string>)
    ensures r.Ok? ==> r.value in t.names && TransformedName(kind, t.names[r.value]) == s
    ensures r.Err? ==> r.error == kind.invalid
  {
    var i := FindIndex(kind, t.names, t.order, s);
    if i < |t.order| then Ok(t.order[i]) else Err(kind.invalid)
  }

  /**
   * A lookup succeeds exactly when `s` is the transformed name of some id of
   * the table, and it returns the first such id in iteration order.
   */
  lemma FromStringSucceedsIff(kind: EnumKind, t: Table, s: string)
    ensures FromString(kind, t, s).Ok? <==> exists id :: id in t.names && TransformedName(kind, t.names[id]) == s
    ensures FromString(kind, t, s).Ok? ==>
              exists i :: 0 <= i < |t.order| && t.order[i] == FromString(kind, t, s).value
                          && forall j :: 0 <= j < i ==> TransformedName(kind, t.names[t.order[j]]) != s
  {
    if FromString(kind, t, s).Err? {
      forall id | id in t.names ensures TransformedName(kind, t.names[id]) != s {
        var i :| 0 <= i < |t.order| && t.order[i] == id;
      }
    }
  }

  /** No two ids of the table have the same transformed name. */
  predicate TransformInjective(kind: EnumKind, t: Table) {
    forall a, b :: a in t.names && b in t.names && TransformedName(kind, t.names[a]) == TransformedName(kind, t.names[b]) ==> a == b
  }

  /** Round trip: with distinct transformed names, every id is found from its own transformed name. */
  lemma FromStringRoundTrip(kind: EnumKind, t: Table, id: EnumId)
    requires TransformInjective(kind, t)
    requires id in t.names
    ensures FromString(kind, t, TransformedName(kind, t.names[id])) == Ok(id)
  {
    FromStringSucceedsIff(kind, t, TransformedName(kind, t.names[id]));
  }

  /** With distinct transformed names, the iteration order does not matter. */
  lemma FromStringOrderIndependent(kind: EnumKind, t1: Table, t2: Table, s: string)
    requires t1.names == t2.names
    requires TransformInjective(kind, t1)
    ensures FromString(kind, t1, s) == FromString(kind, t2, s)
  {
    FromStringSucceedsIff(kind, t1, s);
    FromStringSucceedsIff(kind, t2, s);
  }

  /** The validator-list builders: every transformed name, in iteration order. */
  function ValidList(kind: EnumKind, t: Table): (r: seq<string>)
    ensures |r| == |t.order|
    ensures forall i :: 0 <= i < |r| ==> r[i] == TransformedName(kind, t.names[t.order[i]])
  {
    seq(|t.order|, i requires 0 <= i < |t.order| => TransformedName(kind, t.names[t.order[i]]))
  }

  /** The list holds exactly the transformed names of the table's ids. */
  lemma ValidListMembers(kind: EnumKind, t: Table, v: string)
    ensures v in ValidList(kind, t) <==> exists id :: id in t.names && TransformedName(kind, t.names[id]) == v
  {
    var r := ValidList(kind, t);
    if v in r {
      var i :| 0 <= i < |r| && r[i] == v;
      assert t.order[i] in t.names;
    }
    if exists id :: id in t.names && TransformedName(kind, t.names[id]) == v {
      var id :| id in t.names && TransformedName(kind, t.names[id]) == v;
      var i :| 0 <= i < |t.order| && t.order[i] == id;
      assert r[i] == v;
    }
  }

  /** getDetectiveTypes and its siblings: append each transformed name to a list. */
  method ValidNames(kind: EnumKind, t: Table) returns (list: seq<string>)
    ensures list == ValidList(kind, t)
  {
    list := [];
    for i := 0 to |t.order|
      invariant list == ValidList(kind, t)[..i]
    {
      list := list + [TransformedName(kind, t.names[t.order[i]])];
    }
  }

  /** `validation.StringInSlice(list, true)`: the value equals some entry up to case. */
  predicate StringInSliceFold(list: seq<string>, s: string) {
    exists i :: 0 <= i < |list| && EqualFold(list[i], s)
  }

  /**
   * The validator and the lookup agree up to case: the validator accepts `s`
   * exactly when the lookup recognises `s` lower-cased. Everything the lookup
   * recognises passes the validator, but a value with an upper-case letter
   * passes the validator and still fails the lookup.
   */
  lemma ValidatorAgreesWithLookup(kind: EnumKind, t: Table, s: string)
    ensures StringInSliceFold(ValidList(kind, t), s) <==> FromString(kind, t, Lower(s)).Ok?
    ensures FromString(kind, t, s).Ok? ==> StringInSliceFold(ValidList(kind, t), s)
    ensures !IsLower(s) ==> FromString(kind, t, s).Err?
  {
    var list := ValidList(kind, t);
    FromStringSucceedsIff(kind, t, Lower(s));
    if StringInSliceFold(list, s) {
      var i :| 0 <= i < |list| && EqualFold(list[i], s);
      assert list[i] == Lower(list[i]);
      assert FromString(kind, t, Lower(s)).Ok? by {
        assert t.names[t.order[i]] in t.names.Values;
        assert TransformedName(kind, t.names[t.order[i]]) == Lower(s);
      }
    }
    if FromString(kind, t, Lower(s)).Ok? {
      var id := FromString(kind, t, Lower(s)).value;
      var v := TransformedName(kind, t.names[id]);
      ValidListMembers(kind, t, v);
      var i :| 0 <= i < |list| && list[i] == v;
      LowerIdempotent(s);
      assert EqualFold(list[i], s);
    }
    if FromString(kind, t, s).Ok? {
      var id := FromString(kind, t, s).value;
      var v := TransformedName(kind, t.names[id]);
      ValidListMembers(kind, t, v);
      var i :| 0 <= i < |list| && list[i] == v;
      assert Lower(s) == s;
      assert EqualFold(list[i], s);
    }
  }
}
