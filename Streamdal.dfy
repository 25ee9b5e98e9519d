/**
 * The selection the streamdal client applies to an RPC response: the
 * exactly-one rule of the filter lookups, the audience check and the
 * pipelines assigned to an audience. Each RPC response is an input, either
 * the decoded records or the error the call returned.
 */
module Streamdal {
  import opened Wrappers
  import opened Diagnostics
  import opened RecordFilter
  import opened Audience

  // The nouns of the three filter lookups.
  const PipelineNoun := "pipeline"
  const NotificationConfigNoun := "notification config"
  const AudienceNoun := "audience"

  // The texts of the errors the lookups return.
  const FailedToFind := "Failed to find "
  const MoreThanOne := "Filter returned more than one "
  const FiltersDetail := "Filters: "
  const InvalidAudienceId := "invalid audience id"
  const AudienceNotFound := "audience not found"

  // ----- the exactly-one rule -----

  /**
   * The common body of GetPipelineFilter, GetNotificationConfigFilter and
   * GetAudienceFilter once the records are decoded: a filter error first,
   * then no match, then more than one match, otherwise the one record.
   */
  function SelectOne(noun: string, rows: seq<Row>, filters: seq<Filter>): Result<Row, seq<Diag>>
  {
    match Filtered(rows, filters)
    case Err(msg) => Err([Errorf(msg)])
    case Ok(found) =>
      if |found| < 1 then Err([Diag(FailedToFind + noun, FiltersDetail + RenderFilters(filters))])
      else if |found| > 1 then Err([Errorf(MoreThanOne + noun)])
      else Ok(found[0])
  }

  /** A filter lookup: the RPC's own error is reported as it is, otherwise the selection. */
  function LookupByFilters(noun: string, resp: Result<seq<Row>, string>, filters: seq<Filter>): Result<Row, seq<Diag>>
  {
    match resp
    case Err(e) => Err([Errorf(e)])
    case Ok(rows) => SelectOne(noun, rows, filters)
  }

  /**
   * The outcome of a lookup, case by case: the RPC error, the filter error
   * (before any count), the not-found error with the rendered filters as
   * detail, the more-than-one error, and otherwise the single hit, which is
   * an input record that some filter matches.
   */
  lemma LookupByFiltersSpec(noun: string, resp: Result<seq<Row>, string>, filters: seq<Filter>)
    ensures resp.Err? ==> LookupByFilters(noun, resp, filters) == Err([Errorf(resp.error)])
    ensures resp.Ok? && Filtered(resp.value, filters).Err? ==>
              LookupByFilters(noun, resp, filters) == Err([Errorf(Filtered(resp.value, filters).error)])
    ensures resp.Ok? && Filtered(resp.value, filters).Ok? ==>
              var found := Filtered(resp.value, filters).value;
              && (|found| == 0 ==> LookupByFilters(noun, resp, filters)
                                   == Err([Diag(FailedToFind + noun, FiltersDetail + RenderFilters(filters))]))
              && (|found| > 1 ==> LookupByFilters(noun, resp, filters) == Err([Errorf(MoreThanOne + noun)]))
              && (|found| == 1 <==> LookupByFilters(noun, resp, filters).Ok?)
    ensures LookupByFilters(noun, resp, filters).Ok? ==>
              var x := LookupByFilters(noun, resp, filters).value;
              && resp.Ok? && x in resp.value
              && AllKeys(filters, resp.value) && FoundBy(filters, resp.value, x)
  {
    if LookupByFilters(noun, resp, filters).Ok? {
      var x := LookupByFilters(noun, resp, filters).value;
      var found := Filtered(resp.value, filters).value;
      assert x == found[0];
      FoundRowsAreInput(resp.value, filters, x);
      InFoundAll(filters, resp.value, x);
    }
  }

  /** No filters select nothing, so the lookup reports that nothing was found. */
  lemma NoFiltersFindNothing(noun: string, rows: seq<Row>)
    ensures SelectOne(noun, rows, []) == Err([Diag(FailedToFind + noun, FiltersDetail)])
  {
    assert RenderFilters([]) == "";
    assert FiltersDetail + "" == FiltersDetail;
  }

  /** Every record all filters return, one filter's worth at least. */
  lemma {:induction false} FoundAllCovers(filters: seq<Filter>, rows: seq<Row>, i: nat, x: Row)
    requires AllKeys(filters, rows) && i < |filters|
    ensures multiset(FoundAll(filters, rows))[x] >= multiset(FoundFor(filters[i], rows))[x]
    decreases |filters|
  {
    var n := |filters| - 1;
    assert AllKeys(filters[..n], rows);
    var front := FoundAll(filters[..n], rows);
    var last := FoundFor(filters[n], rows);
    assert FoundAll(filters, rows) == front + last;
    if i < n {
      assert filters[..n][i] == filters[i];
      FoundAllCovers(filters[..n], rows, i, x);
    }
  }

  /** A sequence holds an element at most as often as it is long. */
  lemma {:induction false} CountAtMostLength(s: seq<Row>, x: Row)
    ensures multiset(s)[x] <= |s|
    decreases |s|
  {
    if s != [] {
      CountAtMostLength(s[1..], x);
      assert s == [s[0]] + s[1..];
    }
  }

  lemma ProductAtLeastTwo(c: nat, m: nat)
    requires c >= 1 && m >= 2
    ensures c * m >= 2
  {
  }

  /**
   * Hits are counted with repetition, so a record that two patterns of one
   * filter both match can never be selected: the lookup reports more than
   * one match even when it is the only record there is.
   */
  lemma RepeatedMatchIsTooMany(noun: string, rows: seq<Row>, filters: seq<Filter>, i: nat, x: Row)
    requires AllKeys(filters, rows)
    requires i < |filters| && x in rows && MatchCount(filters[i], x) >= 2
    ensures SelectOne(noun, rows, filters) == Err([Errorf(MoreThanOne + noun)])
  {
    var found := FoundAll(filters, rows);
    assert Filtered(rows, filters) == Ok(found);
    FoundForCount(filters[i], rows, x);
    assert x in multiset(rows);
    ProductAtLeastTwo(multiset(rows)[x], MatchCount(filters[i], x));
    FoundAllCovers(filters, rows, i, x);
    CountAtMostLength(found, x);
  }

  // ----- GetAudience -----

  /**
   * GetAudience: the id must parse before the audiences are fetched; the
   * parsed audience is returned when the fetched list holds an equal one.
   */
  function GetAudience(id: string, resp: Result<seq<Option<Audience>>, string>): (r: Result<Audience, string>)
    ensures r.Ok? ==> resp.Ok? && AudienceFromStr(id) == Some(r.value)
    ensures r.Ok? ==> exists i :: 0 <= i < |resp.value| && AudienceEquals(resp.value[i], Some(r.value))
  {
    var aud := AudienceFromStr(id);
    if aud.None? then Err(InvalidAudienceId)
    else
      match resp
      case Err(e) => Err(e)
      case Ok(list) =>
        if AudienceInList(aud, list) then Ok(aud.value) else Err(AudienceNotFound)
  }

  /**
   * An id that does not parse fails whatever the response; otherwise the
   * RPC error passes through, and the lookup succeeds exactly when some
   * listed audience equals the parsed one, which it then returns.
   */
  lemma GetAudienceSpec(id: string, resp: Result<seq<Option<Audience>>, string>)
    ensures AudienceFromStr(id).None? ==> GetAudience(id, resp) == Err(InvalidAudienceId)
    ensures AudienceFromStr(id).Some? && resp.Err? ==> GetAudience(id, resp) == Err(resp.error)
    ensures AudienceFromStr(id).Some? && resp.Ok? ==>
              && (GetAudience(id, resp).Ok? <==> exists i :: 0 <= i < |resp.value| && AudienceEquals(resp.value[i], AudienceFromStr(id)))
              && (GetAudience(id, resp).Ok? ==> GetAudience(id, resp).value == AudienceFromStr(id).value)
              && (GetAudience(id, resp).Err? ==> GetAudience(id, resp).error == AudienceNotFound)
  {
  }

  /**
   * Looking up the id of a listed audience (names without ':', operation
   * type set) finds it, with its names lower-cased.
   */
  lemma GetAudienceFindsListed(a: Audience, list: seq<Option<Audience>>)
    requires NoSep(a) && a.operationType != Unset
    requires Some(a) in list
    ensures GetAudience(AudienceToStr(Some(a)), Ok(list)) == Ok(LowerAudience(a))
  {
    RoundTrip(a);
    AudienceEqualsIgnoresCase(a);
    var i :| 0 <= i < |list| && list[i] == Some(a);
    assert AudienceEquals(list[i], Some(LowerAudience(a)));
  }

  // ----- GetPipelinesForAudience -----

  /** How many elements of `xs` satisfy `p`. */
  function CountWhere<T>(p: T -> bool, xs: seq<T>): nat
    decreases |xs|
  {
    if xs == [] then 0
    else
      var n := |xs| - 1;
      CountWhere(p, xs[..n]) + (if p(xs[n]) then 1 else 0)
  }

  /** The count is positive exactly when some element satisfies `p`. */
  lemma {:induction false} CountWherePositive<T>(p: T -> bool, xs: seq<T>)
    ensures CountWhere(p, xs) > 0 <==> exists i :: 0 <= i < |xs| && p(xs[i])
    decreases |xs|
  {
    if xs != [] {
      var n := |xs| - 1;
      var init := xs[..n];
      CountWherePositive(p, init);
      if CountWhere(p, init) > 0 {
        var i :| 0 <= i < |init| && p(init[i]);
        assert xs[i] == init[i];
      }
      if exists i :: 0 <= i < |xs| && p(xs[i]) {
        var i :| 0 <= i < |xs| && p(xs[i]);
        if i < n {
          assert init[i] == xs[i];
        }
      }
    }
  }

  /** How many entries of `audiences` equal `aud`. */
  function MatchingAudiences(aud: Option<Audience>, audiences: seq<Option<Audience>>): nat
  {
    CountWhere(x => AudienceEquals(aud, x), audiences)
  }

  /** Some entry equals `aud` exactly when the count is positive, i.e. when AudienceInList holds. */
  lemma MatchingAudiencesPositive(aud: Option<Audience>, audiences: seq<Option<Audience>>)
    ensures MatchingAudiences(aud, audiences) > 0 <==> AudienceInList(aud, audiences)
  {
    var p := x => AudienceEquals(aud, x);
    CountWherePositive(p, audiences);
    if MatchingAudiences(aud, audiences) > 0 {
      var i :| 0 <= i < |audiences| && p(audiences[i]);
      AudienceEqualsSymmetric(aud, audiences[i]);
    }
    if AudienceInList(aud, audiences) {
      var i :| 0 <= i < |audiences| && AudienceEquals(audiences[i], aud);
      AudienceEqualsSymmetric(aud, audiences[i]);
      assert p(audiences[i]);
    }
  }

  /** A nil audience equals nothing, so no pipeline is assigned to it. */
  lemma NilAudienceMatchesNothing(audiences: seq<Option<Audience>>)
    ensures MatchingAudiences(None, audiences) == 0
  {
    var p := x => AudienceEquals(None, x);
    CountWherePositive(p, audiences);
  }

  /** How often a pipeline id belongs in the result: once per equal audience entry of that pipeline. */
  function Assigned(aud: Option<Audience>, pipelines: map<string, seq<Option<Audience>>>, id: string): nat
  {
    if id in pipelines then MatchingAudiences(aud, pipelines[id]) else 0
  }

  /** A pipeline id is in the result exactly when that pipeline lists an audience equal to `aud`. */
  lemma AssignedIff(aud: Option<Audience>, pipelines: map<string, seq<Option<Audience>>>, id: string)
    ensures Assigned(aud, pipelines, id) > 0 <==> id in pipelines && AudienceInList(aud, pipelines[id])
  {
    if id in pipelines {
      MatchingAudiencesPositive(aud, pipelines[id]);
    }
  }

  /** `n` copies of `id`. */
  function Copies(id: string, n: nat): (r: seq<string>)
    ensures |r| == n
  {
    seq(n, _ => id)
  }

  lemma {:induction false} CopiesCount(id: string, n: nat, x: string)
    ensures multiset(Copies(id, n))[x] == if x == id then n else 0
    decreases n
  {
    if n > 0 {
      CopiesCount(id, n - 1, x);
      assert Copies(id, n) == Copies(id, n - 1) + [id];
    }
  }

  /** The inner loop: `id` is appended once for every entry of `audiences` equal to `aud`. */
  method AppendMatching(ids: seq<string>, id: string, aud: Option<Audience>, audiences: seq<Option<Audience>>)
    returns (r: seq<string>)
    ensures r == ids + Copies(id, MatchingAudiences(aud, audiences))
  {
    r := ids;
    for k := 0 to |audiences|
      invariant r == ids + Copies(id, MatchingAudiences(aud, audiences[..k]))
    {
      assert audiences[..k + 1][..k] == audiences[..k];
      if AudienceEquals(aud, audiences[k]) {
        assert Copies(id, MatchingAudiences(aud, audiences[..k]) + 1)
            == Copies(id, MatchingAudiences(aud, audiences[..k])) + [id];
        r := r + [id];
      }
    }
    assert audiences[..|audiences|] == audiences;
  }

  /**
   * GetPipelinesForAudience: the RPC error passes through; otherwise every
   * pipeline id appears as often as that pipeline lists an audience equal
   * to `aud`. The pipelines are visited in no particular order, so the
   * result is fixed only up to order.
   */
  method GetPipelinesForAudience(aud: Option<Audience>, resp: Result<map<string, seq<Option<Audience>>>, string>)
    returns (r: Result<seq<string>, string>)
    ensures resp.Err? ==> r == Err(resp.error)
    ensures resp.Ok? ==> r.Ok? && forall id :: multiset(r.value)[id] == Assigned(aud, resp.value, id)
  {
    if resp.Err? {
      return Err(resp.error);
    }
    var pipelines := resp.value;
    var ids: seq<string> := [];
    var todo := pipelines.Keys;
    while todo != {}
      invariant todo <= pipelines.Keys
      invariant forall x :: multiset(ids)[x] == if x in todo then 0 else Assigned(aud, pipelines, x)
      decreases |todo|
    {
      var id :| id in todo;
      ghost var before := ids;
      ids := AppendMatching(ids, id, aud, pipelines[id]);
      forall x ensures multiset(ids)[x] == multiset(before)[x] + (if x == id then MatchingAudiences(aud, pipelines[id]) else 0) {
        CopiesCount(id, MatchingAudiences(aud, pipelines[id]), x);
      }
      todo := todo - {id};
    }
    return Ok(ids);
  }
}
