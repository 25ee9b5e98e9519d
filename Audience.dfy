/**
 * The audience identifier codec: an audience (service, operation type,
 * operation name, component) is written as the lower-cased string
 * `service:optype:opname:component` and parsed back from it.
 */
module Audience {
  import opened Wrappers
  import opened Strings

  /** The operation type enum of the protocol. */
  datatype OperationType = Unset | Consumer | Producer

  /** The name the generated enum prints for `%s`. */
  function OperationTypeName(t: OperationType): string {
    match t
    case Unset => "OPERATION_TYPE_UNSET"
    case Consumer => "OPERATION_TYPE_CONSUMER"
    case Producer => "OPERATION_TYPE_PRODUCER"
  }

  datatype Audience = Audience(
    serviceName: string,
    operationType: OperationType,
    operationName: string,
    componentName: string)

  const Sep: char := ':'

  /** The three names with every letter lowered; the operation type is kept. */
  function LowerAudience(a: Audience): Audience {
    a.(serviceName := Lower(a.serviceName),
       operationName := Lower(a.operationName),
       componentName := Lower(a.componentName))
  }

  /** None of the three names holds the separator. */
  predicate NoSep(a: Audience) {
    Sep !in a.serviceName && Sep !in a.operationName && Sep !in a.componentName
  }

  /** The fields joined by ':' in the order service, operation type, operation name, component. */
  function RawString(a: Audience): string {
    a.serviceName + [Sep] + OperationTypeName(a.operationType) + [Sep] + a.operationName + [Sep] + a.componentName
  }

  /** AudienceToStr: "" for nil, otherwise the lower-cased `service:optype:opname:component`. */
  function AudienceToStr(audience: Option<Audience>): (s: string)
    ensures audience.None? ==> s == ""
    ensures IsLower(s)
    ensures audience.Some? ==> Sep in s
  {
    match audience
    case None => ""
    case Some(a) =>
      var raw := RawString(a);
      assert raw[|a.serviceName|] == Sep;
      LowerKeepsNonLetters(raw, Sep);
      Lower(raw)
  }

  /** AudienceFromStr: nil unless the string has exactly four ':'-separated parts. */
  function AudienceFromStr(s: string): (r: Option<Audience>)
    ensures r.Some? <==> |Split(s, Sep)| == 4
    ensures s == "" ==> r.None?
    ensures r.Some? ==> r.value.operationType != Unset
    ensures r.Some? ==> (r.value.operationType == Consumer <==> Split(s, Sep)[1] == Lower(OperationTypeName(Consumer)))
    ensures r.Some? ==> LowerAudience(r.value) == r.value
    ensures r.Some? ==> var p := Split(s, Sep);
              && r.value.serviceName == Lower(p[0])
              && r.value.operationName == Lower(p[2])
              && r.value.componentName == Lower(p[3])
  {
    if s == "" then None
    else
      var parts := Split(s, Sep);
      if |parts| != 4 then None
      else
        var opType := if parts[1] == Lower(OperationTypeName(Consumer)) then Consumer else Producer;
        Some(Audience(Lower(parts[0]), opType, Lower(parts[2]), Lower(parts[3])))
  }

  /** The three enum names stay distinct once lower-cased. */
  lemma LoweredNamesDistinct(t: OperationType, u: OperationType)
    requires t != u
    ensures Lower(OperationTypeName(t)) != Lower(OperationTypeName(u))
  {
    if t != Unset && u != Unset {
      assert OperationTypeName(t)[15] != OperationTypeName(u)[15];
      assert Lower(OperationTypeName(t))[15] != Lower(OperationTypeName(u))[15];
    }
  }

  lemma NamesHaveNoSep(t: OperationType)
    ensures Sep !in OperationTypeName(t)
    ensures Sep !in Lower(OperationTypeName(t))
  {
    LowerKeepsNonLetters(OperationTypeName(t), Sep);
  }

  /** The string form of an audience splits into its four lower-cased fields, in order. */
  lemma AudienceToStrFields(a: Audience)
    requires NoSep(a)
    ensures Split(AudienceToStr(Some(a)), Sep)
         == [Lower(a.serviceName), Lower(OperationTypeName(a.operationType)), Lower(a.operationName), Lower(a.componentName)]
  {
    LowerString(a);
    NamesHaveNoSep(a.operationType);
    LowerKeepsNonLetters(a.serviceName, Sep);
    LowerKeepsNonLetters(a.operationName, Sep);
    LowerKeepsNonLetters(a.componentName, Sep);
    SplitFields4(Lower(a.serviceName), Lower(OperationTypeName(a.operationType)), Lower(a.operationName), Lower(a.componentName), Sep);
  }

  /** Lowering the joined string lowers each field. */
  lemma LowerString(a: Audience)
    ensures AudienceToStr(Some(a))
         == Lower(a.serviceName) + [Sep] + Lower(OperationTypeName(a.operationType)) + [Sep]
            + Lower(a.operationName) + [Sep] + Lower(a.componentName)
  {
    LowerFields4(a.serviceName, OperationTypeName(a.operationType), a.operationName, a.componentName, Sep);
  }

  /** Round trip: parsing the string form gives the audience back with its names lower-cased. */
  lemma RoundTrip(a: Audience)
    requires NoSep(a)
    requires a.operationType != Unset
    ensures AudienceFromStr(AudienceToStr(Some(a))) == Some(LowerAudience(a))
  {
    AudienceToStrFields(a);
    if a.operationType != Consumer {
      LoweredNamesDistinct(a.operationType, Consumer);
    }
    LowerIdempotent(a.serviceName);
    LowerIdempotent(a.operationName);
    LowerIdempotent(a.componentName);
  }

  /** The unset operation type does not survive the round trip: it comes back as producer. */
  lemma UnsetParsesAsProducer(a: Audience)
    requires NoSep(a)
    requires a.operationType == Unset
    ensures AudienceFromStr(AudienceToStr(Some(a))) == Some(LowerAudience(a).(operationType := Producer))
  {
    AudienceToStrFields(a);
    if a.operationType != Consumer {
      LoweredNamesDistinct(a.operationType, Consumer);
    }
    LowerIdempotent(a.serviceName);
    LowerIdempotent(a.operationName);
    LowerIdempotent(a.componentName);
  }

  /**
   * The other direction: a string that parses, and whose second field is the
   * consumer or producer name, is printed back as itself lower-cased.
   */
  lemma FormatAfterParse(s: string)
    requires AudienceFromStr(s).Some?
    requires Split(s, Sep)[1] == Lower(OperationTypeName(Consumer)) || Split(s, Sep)[1] == Lower(OperationTypeName(Producer))
    ensures AudienceToStr(AudienceFromStr(s)) == Lower(s)
  {
    var p := Split(s, Sep);
    var a := AudienceFromStr(s).value;
    LoweredNamesDistinct(Producer, Consumer);
    assert Lower(OperationTypeName(a.operationType)) == p[1];
    Fields4OfSplit(s, Sep);
    LowerFields4(p[0], p[1], p[2], p[3], Sep);
    LowerString(a);
    LowerIdempotent(p[0]);
    LowerIdempotent(p[2]);
    LowerIdempotent(p[3]);
    assert Lower(p[1]) == p[1];
  }

  /** AudienceEquals: both present and equal in string form. */
  predicate AudienceEquals(a: Option<Audience>, b: Option<Audience>)
  {
    a.Some? && b.Some? && AudienceToStr(a) == AudienceToStr(b)
  }

  lemma AudienceEqualsSymmetric(a: Option<Audience>, b: Option<Audience>)
    ensures AudienceEquals(a, b) <==> AudienceEquals(b, a)
    ensures a.None? || b.None? ==> !AudienceEquals(a, b)
  {
  }

  /** Case does not matter: an audience equals its lower-cased copy. */
  lemma AudienceEqualsIgnoresCase(a: Audience)
    ensures AudienceEquals(Some(a), Some(LowerAudience(a)))
  {
    LowerString(a);
    LowerString(LowerAudience(a));
    LowerIdempotent(a.serviceName);
    LowerIdempotent(a.operationName);
    LowerIdempotent(a.componentName);
  }

  /**
   * For names without ':', AudienceEquals holds exactly when the two audiences
   * agree once their names are lower-cased (the operation type must match).
   */
  lemma AudienceEqualsIff(a: Audience, b: Audience)
    requires NoSep(a) && NoSep(b)
    ensures AudienceEquals(Some(a), Some(b)) <==> LowerAudience(a) == LowerAudience(b)
  {
    AudienceToStrFields(a);
    AudienceToStrFields(b);
    if a.operationType != b.operationType {
      LoweredNamesDistinct(a.operationType, b.operationType);
    }
    if LowerAudience(a) == LowerAudience(b) {
      LowerString(a);
      LowerString(b);
    }
  }

  /** AudienceInList: some element of the list equals the audience. */
  function AudienceInList(audience: Option<Audience>, list: seq<Option<Audience>>): (r: bool)
    ensures r <==> exists i :: 0 <= i < |list| && AudienceEquals(list[i], audience)
    ensures list == [] ==> !r
  {
    if list == [] then false
    else if AudienceEquals(list[0], audience) then true
    else
      var rest := AudienceInList(audience, list[1..]);
      assert forall i :: 1 <= i < |list| ==> list[i] == list[1..][i - 1];
      rest
  }
}
