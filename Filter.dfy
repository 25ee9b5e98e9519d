/**
 * Client-side record filtering for the data sources: a list of decoded
 * records is narrowed by (field name, patterns) filters, where a pattern is
 * literal text or a '*' wildcard.
 */
module RecordFilter {
  import opened Wrappers
  import opened Strings

  /** One decoded record: field name to the field's string form. */
  type Row = map<string, string>

  /** A field name and the literal or '*'-wildcard patterns to try on it. */
  datatype Filter = Filter(name: string, values: seq<string>)

  /**
   * The '*'-glob predicate that stands in for the wildcard library's simple
   * match: '*' matches any run of characters, possibly empty, and every other
   * character matches itself. This is an assumption about that library, whose
   * code is not part of this model.
   */
  function Glob(p: string, s: string): bool
    decreases |p| + |s|
  {
    if p == [] then s == []
    else if p[0] == '*' then Glob(p[1..], s) || (s != [] && Glob(p, s[1..]))
    else s != [] && s[0] == p[0] && Glob(p[1..], s[1..])
  }

  /** Without '*', a glob is plain equality. */
  lemma {:induction false} GlobLiteral(p: string, s: string)
    requires '*' !in p
    ensures Glob(p, s) <==> p == s
    decreases |p| + |s|
  {
    if p != [] && s != [] {
      GlobLiteral(p[1..], s[1..]);
      assert p == [p[0]] + p[1..];
      assert s == [s[0]] + s[1..];
    }
  }

  /** Every pattern matches its own text, '*' included. */
  lemma {:induction false} GlobSelf(p: string)
    ensures Glob(p, p)
    decreases |p|
  {
    if p != [] {
      GlobSelf(p[1..]);
      if p[0] == '*' {
        assert Glob(p, p[1..]);
      }
    }
  }

  /** matches: a pattern holding '*' is tried as a wildcard; any pattern matches its exact text. */
  function Matches(pattern: string, value: string): (r: bool)
    ensures '*' !in pattern ==> (r <==> pattern == value)
    ensures pattern == value ==> r
  {
    ('*' in pattern && Glob(pattern, value)) || pattern == value
  }

  /** The two branches of `matches` together are exactly the glob. */
  lemma MatchesIsGlob(pattern: string, value: string)
    ensures Matches(pattern, value) <==> Glob(pattern, value)
  {
    if '*' !in pattern {
      GlobLiteral(pattern, value);
    }
    if pattern == value {
      GlobSelf(pattern);
    }
  }

  lemma WildcardExample()
    ensures Matches("prod-*", "prod-svc")
    ensures !Matches("prod-*", "dev-svc")
  {
    assert Glob("*", "") by { assert Glob("", ""); }
    assert Glob("*", "c");
    assert Glob("*", "vc");
    assert Glob("*", "svc");
    assert "prod-*"[1..] == "rod-*" && "prod-svc"[1..] == "rod-svc";
    assert Glob("-*", "-svc");
    assert Glob("d-*", "d-svc");
    assert Glob("od-*", "od-svc");
    assert Glob("rod-*", "rod-svc");
  }

  /** Every row has the field `name`. */
  predicate HasKey(name: string, rows: seq<Row>) {
    forall j :: 0 <= j < |rows| ==> name in rows[j]
  }

  /** Every filter's field is present in every row. */
  predicate AllKeys(filters: seq<Filter>, rows: seq<Row>) {
    forall i :: 0 <= i < |filters| ==> HasKey(filters[i].name, rows)
  }

  /** The row once for each pattern, in order, that matches `v`. */
  function Hits(patterns: seq<string>, v: string, row: Row): (r: seq<Row>)
    ensures |r| <= |patterns|
    ensures forall k :: 0 <= k < |r| ==> r[k] == row
    decreases |patterns|
  {
    if patterns == [] then []
    else
      var n := |patterns| - 1;
      Hits(patterns[..n], v, row) + (if Matches(patterns[n], v) then [row] else [])
  }

  /** What one filter contributes: each row, in order, once per matching pattern. */
  function FoundFor(f: Filter, rows: seq<Row>): seq<Row>
    requires HasKey(f.name, rows)
    decreases |rows|
  {
    if rows == [] then []
    else
      var n := |rows| - 1;
      FoundFor(f, rows[..n]) + Hits(f.values, rows[n][f.name], rows[n])
  }

  /** What all filters contribute, filter by filter. */
  function FoundAll(filters: seq<Filter>, rows: seq<Row>): seq<Row>
    requires AllKeys(filters, rows)
    decreases |filters|
  {
    if filters == [] then []
    else
      var n := |filters| - 1;
      FoundAll(filters[..n], rows) + FoundFor(filters[n], rows)
  }

  /** The name of the first filter, in order, whose field some row lacks. */
  function MissingKey(filters: seq<Filter>, rows: seq<Row>): (r: Option<string>)
    ensures r.None? <==> AllKeys(filters, rows)
    ensures r.Some? ==> exists i :: 0 <= i < |filters| && r.value == filters[i].name
                                  && !HasKey(filters[i].name, rows) && AllKeys(filters[..i], rows)
    decreases |filters|
  {
    if filters == [] then None
    else if !HasKey(filters[0].name, rows) then
      assert filters[..0] == [];
      Some(filters[0].name)
    else
      var r := MissingKey(filters[1..], rows);
      assert filters == [filters[0]] + filters[1..];
      assert r.Some? ==> exists i :: 0 <= i < |filters| && r.value == filters[i].name
                                  && !HasKey(filters[i].name, rows) && AllKeys(filters[..i], rows) by {
        if r.Some? {
          var i :| 0 <= i < |filters[1..]| && r.value == filters[1..][i].name
                 && !HasKey(filters[1..][i].name, rows) && AllKeys(filters[1..][..i], rows);
          assert filters[..i + 1] == [filters[0]] + filters[1..][..i];
          assert AllKeys(filters[..i + 1], rows);
        }
      }
      r
  }

  /** The outcome filterJSON computes: the first missing field is an error, otherwise every hit. */
  function Filtered(rows: seq<Row>, filters: seq<Filter>): (r: Result<seq<Row>, string>)
    ensures filters == [] ==> r == Ok([])
    ensures r.Err? <==> exists i, j :: 0 <= i < |filters| && 0 <= j < |rows| && filters[i].name !in rows[j]
  {
    match MissingKey(filters, rows)
    case Some(name) => Err(name + " is not a valid key")
    case None => Ok(FoundAll(filters, rows))
  }

  /** The innermost loop of filterJSON: `row` is appended once for every pattern that matches `v`. */
  method AppendHits(found: seq<Row>, patterns: seq<string>, v: string, row: Row) returns (r: seq<Row>)
    ensures r == found + Hits(patterns, v, row)
  {
    r := found;
    for k := 0 to |patterns|
      invariant r == found + Hits(patterns[..k], v, row)
    {
      HitsSnoc(patterns, v, row, k);
      if Matches(patterns[k], v) {
        r := r + [row];
      }
    }
    assert patterns[..|patterns|] == patterns;
  }

  /**
   * filterJSON: for each filter, for each row, fail if the row lacks the
   * field, otherwise append the row once per matching pattern.
   */
  method FilterJSON(rows: seq<Row>, filters: seq<Filter>) returns (r: Result<seq<Row>, string>)
    ensures r == Filtered(rows, filters)
  {
    var found: seq<Row> := [];
    for i := 0 to |filters|
      invariant AllKeys(filters[..i], rows)
      invariant found == FoundAll(filters[..i], rows)
    {
      var filter := filters[i];
      ghost var before := found;
      for j := 0 to |rows|
        invariant HasKey(filter.name, rows[..j])
        invariant found == before + FoundFor(filter, rows[..j])
      {
        var row := rows[j];
        if filter.name !in row {
          MissingKeyAt(filters, rows, i);
          return Err(filter.name + " is not a valid key");
        }
        var checkVal := row[filter.name];
        found := AppendHits(found, filter.values, checkVal, row);
        FoundForSnoc(filter, rows, j);
      }
      assert rows[..|rows|] == rows;
      FoundAllSnoc(filters, rows, i);
    }
    assert filters[..|filters|] == filters;
    return Ok(found);
  }

  lemma HitsSnoc(patterns: seq<string>, v: string, row: Row, k: nat)
    requires k < |patterns|
    ensures Hits(patterns[..k + 1], v, row)
         == Hits(patterns[..k], v, row) + (if Matches(patterns[k], v) then [row] else [])
  {
    assert patterns[..k + 1][..k] == patterns[..k];
  }

  lemma FoundForSnoc(f: Filter, rows: seq<Row>, j: nat)
    requires j < |rows|
    requires HasKey(f.name, rows[..j]) && f.name in rows[j]
    ensures HasKey(f.name, rows[..j + 1])
    ensures FoundFor(f, rows[..j + 1]) == FoundFor(f, rows[..j]) + Hits(f.values, rows[j][f.name], rows[j])
  {
    assert rows[..j + 1][..j] == rows[..j];
  }

  lemma FoundAllSnoc(filters: seq<Filter>, rows: seq<Row>, i: nat)
    requires i < |filters|
    requires AllKeys(filters[..i], rows) && HasKey(filters[i].name, rows)
    ensures AllKeys(filters[..i + 1], rows)
    ensures FoundAll(filters[..i + 1], rows) == FoundAll(filters[..i], rows) + FoundFor(filters[i], rows)
  {
    assert filters[..i + 1][..i] == filters[..i];
  }

  /** When the filters before `i` find their field everywhere and filter `i` does not, filter `i` is the one reported. */
  lemma {:induction false} MissingKeyAt(filters: seq<Filter>, rows: seq<Row>, i: nat)
    requires i < |filters|
    requires AllKeys(filters[..i], rows)
    requires !HasKey(filters[i].name, rows)
    ensures MissingKey(filters, rows) == Some(filters[i].name)
    decreases i
  {
    if i > 0 {
      assert HasKey(filters[..i][0].name, rows);
      assert filters[1..][..i - 1] == filters[..i][1..];
      MissingKeyAt(filters[1..], rows, i - 1);
    }
  }

  /** Some pattern of the filter matches the row's field. */
  predicate RowMatches(f: Filter, row: Row)
    requires f.name in row
  {
    exists k :: 0 <= k < |f.values| && Matches(f.values[k], row[f.name])
  }

  lemma {:induction false} InHits(patterns: seq<string>, v: string, row: Row, x: Row)
    ensures x in Hits(patterns, v, row) <==> x == row && exists k :: 0 <= k < |patterns| && Matches(patterns[k], v)
    decreases |patterns|
  {
    if patterns != [] {
      var n := |patterns| - 1;
      InHits(patterns[..n], v, row, x);
      assert forall k :: 0 <= k < n ==> patterns[..n][k] == patterns[k];
    }
  }

  /** `x` is one of the input rows and some pattern of `f` matches its field. */
  predicate FoundByOne(f: Filter, rows: seq<Row>, x: Row)
    requires HasKey(f.name, rows)
  {
    exists j :: 0 <= j < |rows| && x == rows[j] && RowMatches(f, rows[j])
  }

  lemma {:induction false} InFoundFor(f: Filter, rows: seq<Row>, x: Row)
    requires HasKey(f.name, rows)
    ensures x in FoundFor(f, rows) <==> FoundByOne(f, rows, x)
    decreases |rows|
  {
    if rows != [] {
      var n := |rows| - 1;
      InFoundFor(f, rows[..n], x);
      InHits(f.values, rows[n][f.name], rows[n], x);
      if FoundByOne(f, rows, x) {
        var j :| 0 <= j < |rows| && x == rows[j] && RowMatches(f, rows[j]);
        if j < n {
          assert rows[..n][j] == rows[j];
          assert FoundByOne(f, rows[..n], x);
        }
      }
      if FoundByOne(f, rows[..n], x) {
        var j :| 0 <= j < n && x == rows[..n][j] && RowMatches(f, rows[..n][j]);
        assert rows[..n][j] == rows[j];
      }
    }
  }

  /** Some filter of the list matches `x`, which is one of the input rows. */
  predicate FoundBy(filters: seq<Filter>, rows: seq<Row>, x: Row)
    requires AllKeys(filters, rows)
  {
    exists i :: 0 <= i < |filters| && FoundByOne(filters[i], rows, x)
  }

  /** Splitting off the last filter: the prefix, or the last filter alone, finds `x`. */
  lemma FoundBySnoc(filters: seq<Filter>, rows: seq<Row>, x: Row)
    requires filters != [] && AllKeys(filters, rows)
    ensures AllKeys(filters[..|filters| - 1], rows)
    ensures FoundBy(filters, rows, x)
        <==> FoundBy(filters[..|filters| - 1], rows, x) || FoundByOne(filters[|filters| - 1], rows, x)
  {
    var n := |filters| - 1;
    var init := filters[..n];
    assert forall i :: 0 <= i < n ==> init[i] == filters[i];
    if FoundBy(init, rows, x) {
      var i :| 0 <= i < n && FoundByOne(init[i], rows, x);
      assert FoundByOne(filters[i], rows, x);
    }
    if FoundBy(filters, rows, x) {
      var i :| 0 <= i < |filters| && FoundByOne(filters[i], rows, x);
      if i < n {
        assert FoundByOne(init[i], rows, x);
      }
    }
  }

  /**
   * The filters are an OR: a row is found exactly when it is one of the input
   * rows and some pattern of some filter matches its field.
   */
  lemma {:induction false} InFoundAll(filters: seq<Filter>, rows: seq<Row>, x: Row)
    requires AllKeys(filters, rows)
    ensures x in FoundAll(filters, rows) <==> FoundBy(filters, rows, x)
    decreases |filters|
  {
    if filters != [] {
      var n := |filters| - 1;
      FoundBySnoc(filters, rows, x);
      InFoundAll(filters[..n], rows, x);
      InFoundFor(filters[n], rows, x);
    }
  }

  /** Every row filterJSON returns is one of its input rows. */
  lemma FoundRowsAreInput(rows: seq<Row>, filters: seq<Filter>, x: Row)
    requires Filtered(rows, filters).Ok?
    requires x in Filtered(rows, filters).value
    ensures x in rows
  {
    InFoundAll(filters, rows, x);
    var i :| 0 <= i < |filters| && FoundByOne(filters[i], rows, x);
  }

  /** How often one filter returns `x`: once per matching pattern, per copy of `x` among the rows. */
  function MatchCount(f: Filter, x: Row): nat {
    if f.name in x then |Hits(f.values, x[f.name], x)| else 0
  }

  lemma HitsCount(patterns: seq<string>, v: string, row: Row, x: Row)
    ensures multiset(Hits(patterns, v, row))[x] == if x == row then |Hits(patterns, v, row)| else 0
  {
    var h := Hits(patterns, v, row);
    if x == row {
      assert h == seq(|h|, _ => row);
      SameCount(h, row);
    } else {
      assert x !in h;
    }
  }

  lemma {:induction false} SameCount(h: seq<Row>, row: Row)
    requires forall k :: 0 <= k < |h| ==> h[k] == row
    ensures multiset(h)[row] == |h|
    decreases |h|
  {
    if h != [] {
      SameCount(h[1..], row);
      assert h == [h[0]] + h[1..];
    }
  }

  lemma {:induction false} FoundForCount(f: Filter, rows: seq<Row>, x: Row)
    requires HasKey(f.name, rows)
    ensures multiset(FoundFor(f, rows))[x] == multiset(rows)[x] * MatchCount(f, x)
    decreases |rows|
  {
    if rows != [] {
      var n := |rows| - 1;
      var last := rows[n];
      var h := Hits(f.values, last[f.name], last);
      assert HasKey(f.name, rows[..n]);
      FoundForCount(f, rows[..n], x);
      HitsCount(f.values, last[f.name], last, x);
      FoundForLast(f, rows);
      LastCount(rows, x);
      CountStep(multiset(rows[..n])[x], MatchCount(f, x), x == last);
    }
  }

  lemma FoundForLast(f: Filter, rows: seq<Row>)
    requires HasKey(f.name, rows) && rows != []
    ensures multiset(FoundFor(f, rows))
         == multiset(FoundFor(f, rows[..|rows| - 1]))
            + multiset(Hits(f.values, rows[|rows| - 1][f.name], rows[|rows| - 1]))
  {
  }

  lemma LastCount(rows: seq<Row>, x: Row)
    requires rows != []
    ensures multiset(rows)[x] == multiset(rows[..|rows| - 1])[x] + (if x == rows[|rows| - 1] then 1 else 0)
  {
    var n := |rows| - 1;
    assert rows == rows[..n] + [rows[n]];
  }

  lemma CountStep(c: nat, m: nat, here: bool)
    ensures c * m + (if here then m else 0) == (c + (if here then 1 else 0)) * m
  {
  }

  /** Rows that are a permutation of each other have the same fields present. */
  lemma SameKeys(name: string, rows1: seq<Row>, rows2: seq<Row>)
    requires multiset(rows1) == multiset(rows2)
    ensures HasKey(name, rows1) <==> HasKey(name, rows2)
  {
    forall j | 0 <= j < |rows2| ensures rows2[j] in rows1 {
      assert rows2[j] in multiset(rows2);
    }
    forall j | 0 <= j < |rows1| ensures rows1[j] in rows2 {
      assert rows1[j] in multiset(rows1);
    }
  }

  lemma {:induction false} FoundAllPermutation(filters: seq<Filter>, rows1: seq<Row>, rows2: seq<Row>)
    requires multiset(rows1) == multiset(rows2)
    requires AllKeys(filters, rows1) && AllKeys(filters, rows2)
    ensures multiset(FoundAll(filters, rows1)) == multiset(FoundAll(filters, rows2))
    decreases |filters|
  {
    if filters != [] {
      var n := |filters| - 1;
      assert AllKeys(filters[..n], rows1) && AllKeys(filters[..n], rows2);
      FoundAllPermutation(filters[..n], rows1, rows2);
      forall x ensures multiset(FoundFor(filters[n], rows1))[x] == multiset(FoundFor(filters[n], rows2))[x] {
        FoundForCount(filters[n], rows1, x);
        FoundForCount(filters[n], rows2, x);
      }
      assert multiset(FoundFor(filters[n], rows1)) == multiset(FoundFor(filters[n], rows2));
    }
  }

  /**
   * The outcome does not depend on the order in which the rows are visited:
   * the same error, or the same rows with the same multiplicities.
   */
  lemma FilteredOrderIndependent(rows1: seq<Row>, rows2: seq<Row>, filters: seq<Filter>)
    requires multiset(rows1) == multiset(rows2)
    ensures Filtered(rows1, filters).Err? <==> Filtered(rows2, filters).Err?
    ensures Filtered(rows1, filters).Err? ==> Filtered(rows1, filters) == Filtered(rows2, filters)
    ensures Filtered(rows1, filters).Ok? ==>
              multiset(Filtered(rows1, filters).value) == multiset(Filtered(rows2, filters).value)
  {
    forall i | 0 <= i < |filters| ensures HasKey(filters[i].name, rows1) <==> HasKey(filters[i].name, rows2) {
      SameKeys(filters[i].name, rows1, rows2);
    }
    SameMissingKey(filters, rows1, rows2);
    if AllKeys(filters, rows1) {
      FoundAllPermutation(filters, rows1, rows2);
    }
  }

  lemma {:induction false} SameMissingKey(filters: seq<Filter>, rows1: seq<Row>, rows2: seq<Row>)
    requires forall i :: 0 <= i < |filters| ==> (HasKey(filters[i].name, rows1) <==> HasKey(filters[i].name, rows2))
    ensures MissingKey(filters, rows1) == MissingKey(filters, rows2)
    decreases |filters|
  {
    if filters != [] {
      assert forall i :: 0 <= i < |filters[1..]| ==> filters[1..][i] == filters[i + 1];
      SameMissingKey(filters[1..], rows1, rows2);
    }
  }

  /** Filter.String: `name: v1,v2,...`. */
  function FilterLine(f: Filter): string {
    f.name + ": " + Join(f.values, ',')
  }

  /** The name comes first, then the patterns, which split back out when none holds ','. */
  lemma FilterLineParts(f: Filter)
    requires |f.values| >= 1
    requires forall k :: 0 <= k < |f.values| ==> ',' !in f.values[k]
    ensures FilterLine(f)[..|f.name| + 2] == f.name + ": "
    ensures Split(FilterLine(f)[|f.name| + 2..], ',') == f.values
  {
    assert FilterLine(f)[|f.name| + 2..] == Join(f.values, ',');
    SplitJoin(f.values, ',');
  }

  /** What filterString builds: each filter's line followed by a newline, in filter order. */
  function RenderFilters(filters: seq<Filter>): string
    decreases |filters|
  {
    if filters == [] then ""
    else FilterLine(filters[0]) + "\n" + RenderFilters(filters[1..])
  }

  lemma {:induction false} RenderSnoc(filters: seq<Filter>, f: Filter)
    ensures RenderFilters(filters + [f]) == RenderFilters(filters) + FilterLine(f) + "\n"
    decreases |filters|
  {
    if filters == [] {
      assert ([f])[1..] == [];
    } else {
      assert (filters + [f])[1..] == filters[1..] + [f];
      RenderSnoc(filters[1..], f);
      var head := FilterLine(filters[0]) + "\n";
      var rest := RenderFilters(filters[1..]);
      var last := FilterLine(f) + "\n";
      assert RenderFilters(filters + [f]) == head + (rest + last);
      assert head + (rest + last) == (head + rest) + last;
    }
  }

  /** filterString: accumulate one line per filter. */
  method FilterString(filters: seq<Filter>) returns (out: string)
    ensures out == RenderFilters(filters)
  {
    out := "";
    for i := 0 to |filters|
      invariant out == RenderFilters(filters[..i])
    {
      RenderSnoc(filters[..i], filters[i]);
      assert filters[..i + 1] == filters[..i] + [filters[i]];
      out := out + FilterLine(filters[i]) + "\n";
    }
    assert filters[..|filters|] == filters;
  }

  /** The rendering has exactly one line per filter, in filter order, and ends with a newline. */
  lemma {:induction false} RenderLines(filters: seq<Filter>)
    requires forall i :: 0 <= i < |filters| ==> '\n' !in FilterLine(filters[i])
    ensures Split(RenderFilters(filters), '\n')
         == seq(|filters|, i requires 0 <= i < |filters| => FilterLine(filters[i])) + [""]
    decreases |filters|
  {
    if filters != [] {
      RenderLines(filters[1..]);
      SplitAfterSep(FilterLine(filters[0]), RenderFilters(filters[1..]), '\n');
      assert FilterLine(filters[0]) + "\n" + RenderFilters(filters[1..])
          == FilterLine(filters[0]) + ['\n'] + RenderFilters(filters[1..]);
    }
  }
}
