/**
 * The parts of Go's `strings` package that the provider's core relies on:
 * `ToLower`, `EqualFold`, `Split`, `Join` and `Replace(s, old, "", -1)`.
 * Case mapping is modelled on ASCII letters only.
 */
module Strings {

  predicate IsUpperChar(c: char) {
    'A' <= c <= 'Z'
  }

  predicate IsLetter(c: char) {
    IsUpperChar(c) || 'a' <= c <= 'z'
  }

  /** `strings.ToLower` on one character. */
  function LowerChar(c: char): (r: char)
    ensures !IsUpperChar(r)
    ensures !IsUpperChar(c) ==> r == c
    ensures IsLetter(r) <==> IsLetter(c)
  {
    if IsUpperChar(c) then (c as int + 32) as char else c
  }

  /** No character of `s` is an upper-case letter. */
  predicate IsLower(s: string) {
    forall i :: 0 <= i < |s| ==> !IsUpperChar(s[i])
  }

  /** `strings.ToLower`. */
  function Lower(s: string): (r: string)
    ensures |r| == |s| && IsLower(r)
    ensures forall i :: 0 <= i < |s| ==> r[i] == LowerChar(s[i])
    ensures IsLower(s) ==> r == s
  {
    seq(|s|, i requires 0 <= i < |s| => LowerChar(s[i]))
  }

  /** `strings.EqualFold`: equality up to case. */
  predicate EqualFold(a: string, b: string) {
    Lower(a) == Lower(b)
  }

  lemma LowerIdempotent(s: string)
    ensures Lower(Lower(s)) == Lower(s)
  {
  }

  lemma LowerConcat(a: string, b: string)
    ensures Lower(a + b) == Lower(a) + Lower(b)
  {
    assert forall i :: 0 <= i < |a + b| ==> Lower(a + b)[i] == (Lower(a) + Lower(b))[i];
  }

  /** Lowering changes letters only: a character that is not a letter occurs in `Lower(s)` exactly where it occurs in `s`. */
  lemma LowerKeepsNonLetters(s: string, c: char)
    requires !IsLetter(c)
    ensures c in Lower(s) <==> c in s
  {
    if c in s {
      var i :| 0 <= i < |s| && s[i] == c;
      assert Lower(s)[i] == c;
    }
    if c in Lower(s) {
      var i :| 0 <= i < |s| && Lower(s)[i] == c;
      assert s[i] == c;
    }
  }

  /** `strings.Split(s, string(sep))` for a one-character separator: never empty, and no part holds the separator. */
  function Split(s: string, sep: char): (parts: seq<string>)
    ensures |parts| >= 1
    ensures forall i :: 0 <= i < |parts| ==> sep !in parts[i]
    decreases |s|
  {
    if s == [] then [""]
    else
      var rest := Split(s[1..], sep);
      if s[0] == sep then [""] + rest
      else [[s[0]] + rest[0]] + rest[1..]
  }

  /** `strings.Join(parts, string(sep))`. */
  function Join(parts: seq<string>, sep: char): string
  {
    if |parts| == 0 then ""
    else if |parts| == 1 then parts[0]
    else parts[0] + [sep] + Join(parts[1..], sep)
  }

  lemma {:induction false} SplitNoSep(a: string, sep: char)
    requires sep !in a
    ensures Split(a, sep) == [a]
    decreases |a|
  {
    if a != [] {
      SplitNoSep(a[1..], sep);
      assert [a[0]] + a[1..] == a;
    }
  }

  /** Splitting stops at the first separator. */
  lemma {:induction false} SplitAfterSep(a: string, rest: string, sep: char)
    requires sep !in a
    ensures Split(a + [sep] + rest, sep) == [a] + Split(rest, sep)
    decreases |a|
  {
    var s := a + [sep] + rest;
    if a == [] {
      assert s[1..] == rest;
    } else {
      assert s[1..] == a[1..] + [sep] + rest;
      SplitAfterSep(a[1..], rest, sep);
      assert [a[0]] + a[1..] == a;
    }
  }

  /** Splitting a joined list gives the list back, when no part holds the separator. */
  lemma {:induction false} SplitJoin(parts: seq<string>, sep: char)
    requires |parts| >= 1
    requires forall i :: 0 <= i < |parts| ==> sep !in parts[i]
    ensures Split(Join(parts, sep), sep) == parts
    decreases |parts|
  {
    if |parts| == 1 {
      SplitNoSep(parts[0], sep);
    } else {
      SplitJoin(parts[1..], sep);
      SplitAfterSep(parts[0], Join(parts[1..], sep), sep);
      assert [parts[0]] + parts[1..] == parts;
    }
  }

  /** Joining the parts of a split gives the string back. */
  lemma {:induction false} JoinSplit(s: string, sep: char)
    ensures Join(Split(s, sep), sep) == s
    decreases |s|
  {
    if s != [] {
      JoinSplit(s[1..], sep);
      var rest := Split(s[1..], sep);
      if s[0] == sep {
        assert ([""] + rest)[1..] == rest;
      } else {
        var parts := [[s[0]] + rest[0]] + rest[1..];
        if |rest| > 1 {
          assert parts[1..] == rest[1..];
          assert Join(rest, sep) == rest[0] + [sep] + Join(rest[1..], sep);
        }
        assert [s[0]] + s[1..] == s;
      }
    }
  }

  /** `strings.Replace(s, p, "", -1)`: deletes every occurrence of `p`, scanning left to right without overlap. */
  function RemoveAll(s: string, p: string): (r: string)
    ensures |r| <= |s|
    ensures p == [] ==> r == s
    decreases |s|
  {
    if |p| == 0 || |s| < |p| then s
    else if s[..|p|] == p then RemoveAll(s[|p|..], p)
    else [s[0]] + RemoveAll(s[1..], p)
  }

  /** A leading occurrence of `p` is deleted. */
  lemma RemoveAllLeading(p: string, rest: string)
    requires p != []
    ensures RemoveAll(p + rest, p) == RemoveAll(rest, p)
  {
    assert (p + rest)[..|p|] == p;
    assert (p + rest)[|p|..] == rest;
  }

  /** Lowering a four-field record lowers each field and keeps the non-letter separator. */
  lemma LowerFields4(x: string, y: string, z: string, w: string, sep: char)
    requires !IsLetter(sep)
    ensures Lower(x + [sep] + y + [sep] + z + [sep] + w)
         == Lower(x) + [sep] + Lower(y) + [sep] + Lower(z) + [sep] + Lower(w)
  {
    assert Lower([sep]) == [sep];
    LowerConcat(x + [sep] + y + [sep] + z + [sep], w);
    LowerConcat(x + [sep] + y + [sep] + z, [sep]);
    LowerConcat(x + [sep] + y + [sep], z);
    LowerConcat(x + [sep] + y, [sep]);
    LowerConcat(x + [sep], y);
    LowerConcat(x, [sep]);
  }

  /** A four-field record whose fields hold no separator splits back into its fields. */
  lemma SplitFields4(x: string, y: string, z: string, w: string, sep: char)
    requires sep !in x && sep !in y && sep !in z && sep !in w
    ensures Split(x + [sep] + y + [sep] + z + [sep] + w, sep) == [x, y, z, w]
  {
    var zw := z + [sep] + w;
    var yzw := y + [sep] + zw;
    Regroup4(x, y, z, w, sep);
    SplitNoSep(w, sep);
    SplitAfterSep(z, w, sep);
    SplitAfterSep(y, zw, sep);
    SplitAfterSep(x, yzw, sep);
  }

  /** Four fields joined left to right are the same string grouped from the right. */
  lemma Regroup4(x: string, y: string, z: string, w: string, sep: char)
    ensures x + [sep] + y + [sep] + z + [sep] + w == x + [sep] + (y + [sep] + (z + [sep] + w))
  {
    var xs := x + [sep];
    var ys := y + [sep];
    var zs := z + [sep];
    assert xs + y + [sep] + z + [sep] + w == xs + (ys + (zs + w));
  }

  /** A string that splits into four parts is those parts joined by the separator. */
  lemma Fields4OfSplit(s: string, sep: char)
    requires |Split(s, sep)| == 4
    ensures var p := Split(s, sep); s == p[0] + [sep] + p[1] + [sep] + p[2] + [sep] + p[3]
  {
    var p := Split(s, sep);
    JoinSplit(s, sep);
    assert p[1..][1..] == p[2..];
    assert p[2..][1..] == p[3..];
    assert Join(p[3..], sep) == p[3];
    assert Join(p[2..], sep) == p[2] + [sep] + p[3];
    assert Join(p[1..], sep) == p[1] + [sep] + (p[2] + [sep] + p[3]);
    assert Join(p, sep) == p[0] + [sep] + (p[1] + [sep] + (p[2] + [sep] + p[3]));
  }
}
