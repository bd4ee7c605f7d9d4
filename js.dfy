/**
 * The small JavaScript vocabulary the photo catalog relies on: optional
 * values, truthiness, and the array and string operations (`join`, `split`,
 * `filter`, `startsWith`, case conversion) that the catalog code applies to
 * tags, SQL fragments and environment variables.
 */
module Js {

  datatype Option<+T> = None | Some(value: T) {
    function GetOr(default: T): T {
      if Some? then value else default
    }
  }

  /** A point in time, in milliseconds since the epoch (a `Date`, or a Postgres `timestamptz`). */
  type Instant = int

  /**
   * The JavaScript values that occur in the records the catalog maps.
   * Numbers are `real`; NaN and floating-point rounding are not represented.
   */
  datatype JsValue =
    | Undefined
    | Null
    | Str(s: string)
    | Num(n: real)
    | Bool(b: bool)
    | Date(t: Instant)
    | StrList(items: seq<string>)

  /** JavaScript truthiness, as used by `if (x)`, `x ? a : b`, `!x` and `Boolean(x)`. */
  predicate Truthy(v: JsValue) {
    match v
    case Undefined => false
    case Null => false
    case Str(s) => s != ""
    case Num(n) => n != 0.0
    case Bool(b) => b
    case Date(_) => true
    case StrList(_) => true
  }

  /** `parts.join(sep)`: the parts with `sep` between neighbours; `[]` for no parts. */
  function Join<T>(parts: seq<seq<T>>, sep: seq<T>): seq<T> {
    if |parts| == 0 then []
    else if |parts| == 1 then parts[0]
    else parts[0] + sep + Join(parts[1..], sep)
  }

  /** Splitting at every occurrence of a single separator element (`s.split(',')`). */
  function SplitOn<T(==)>(s: seq<T>, sep: T): (r: seq<seq<T>>)
    ensures |r| >= 1
  {
    if s == [] then [[]]
    else
      var rest := SplitOn(s[1..], sep);
      if s[0] == sep then [[]] + rest else [[s[0]] + rest[0]] + rest[1..]
  }

  /** Splitting a text that starts with a separator-free piece `c` extends the first part by `c`. */
  lemma {:induction false} SplitOnPrefix<T>(c: seq<T>, tail: seq<T>, sep: T)
    requires sep !in c
    ensures SplitOn(c + tail, sep) == [c + SplitOn(tail, sep)[0]] + SplitOn(tail, sep)[1..]
  {
    var st := SplitOn(tail, sep);
    if c == [] {
      assert c + tail == tail;
      assert c + st[0] == st[0];
      assert st == [st[0]] + st[1..];
    } else {
      assert (c + tail)[0] == c[0] && (c + tail)[1..] == c[1..] + tail;
      SplitOnPrefix(c[1..], tail, sep);
      assert [c[0]] + (c[1..] + SplitOn(tail, sep)[0]) == c + SplitOn(tail, sep)[0];
    }
  }

  /**
   * Join and split are inverse when no part contains the separator: the
   * joined text can be read back into exactly the parts it was built from.
   */
  lemma {:induction false} SplitJoin<T>(parts: seq<seq<T>>, sep: T)
    requires |parts| >= 1
    requires forall i :: 0 <= i < |parts| ==> sep !in parts[i]
    ensures SplitOn(Join(parts, [sep]), sep) == parts
  {
    if |parts| == 1 {
      SplitOnPrefix(parts[0], [], sep);
      assert SplitOn([], sep) == [[]];
      assert parts[0] + [] == parts[0];
      assert parts == [parts[0]];
    } else {
      var rest := Join(parts[1..], [sep]);
      SplitJoin(parts[1..], sep);
      assert Join(parts, [sep]) == parts[0] + ([sep] + rest);
      SplitOnPrefix(parts[0], [sep] + rest, sep);
      assert ([sep] + rest)[1..] == rest;
      var sr := SplitOn([sep] + rest, sep);
      assert sr == [[]] + parts[1..];
      assert sr[0] == [] && sr[1..] == parts[1..];
      assert parts[0] + sr[0] == parts[0];
      assert parts == [parts[0]] + parts[1..];
    }
  }

  /** `xs.filter(keep)`. */
  function Filter<T>(xs: seq<T>, keep: T -> bool): (r: seq<T>)
    ensures |r| <= |xs|
    ensures forall i :: 0 <= i < |r| ==> r[i] in xs && keep(r[i])
    ensures forall i :: 0 <= i < |xs| && keep(xs[i]) ==> xs[i] in r
  {
    if xs == [] then []
    else if keep(xs[0]) then [xs[0]] + Filter(xs[1..], keep)
    else Filter(xs[1..], keep)
  }

  /** Filtering distributes over concatenation, so it keeps the relative order of what it keeps. */
  lemma {:induction false} FilterAppend<T>(a: seq<T>, b: seq<T>, keep: T -> bool)
    ensures Filter(a + b, keep) == Filter(a, keep) + Filter(b, keep)
  {
    if a != [] {
      assert (a + b)[1..] == a[1..] + b;
      FilterAppend(a[1..], b, keep);
    } else {
      assert a + b == b;
    }
  }

  /** Filtering keeps everything when everything passes. */
  lemma {:induction false} FilterAll<T>(xs: seq<T>, keep: T -> bool)
    requires forall i :: 0 <= i < |xs| ==> keep(xs[i])
    ensures Filter(xs, keep) == xs
  {
    if xs != [] {
      FilterAll(xs[1..], keep);
    }
  }

  /** The tags without any occurrence of `tag`, others in their order (`tags.filter(t => t !== tag)`). */
  function Without(tags: seq<string>, tag: string): (r: seq<string>)
    ensures tag !in r
    ensures forall t :: t != tag ==> (t in r <==> t in tags)
  {
    Filter(tags, t => t != tag)
  }

  /** Removing a tag that does not occur changes nothing. */
  lemma WithoutAbsent(tags: seq<string>, tag: string)
    ensures tag !in tags ==> Without(tags, tag) == tags
  {
    if tag !in tags {
      FilterAll(tags, t => t != tag);
    }
  }

  /** `s.startsWith(prefix)`. */
  predicate StartsWith<T(==)>(s: seq<T>, prefix: seq<T>) {
    |prefix| <= |s| && s[..|prefix|] == prefix
  }

  /** `s.endsWith(suffix)`. */
  predicate EndsWith<T(==)>(s: seq<T>, suffix: seq<T>) {
    |suffix| <= |s| && s[|s| - |suffix|..] == suffix
  }

  /** `s.split(sep)[0]`: the text before the first occurrence of `sep`, or all of `s`. */
  function BeforeFirst(s: string, sep: string): (r: string)
    requires |sep| > 0
    ensures StartsWith(s, r)
    ensures forall i :: 0 <= i < |r| ==> !StartsWith(s[i..], sep)
    ensures |r| < |s| ==> StartsWith(s[|r|..], sep)
  {
    if StartsWith(s, sep) then ""
    else if s == "" then ""
    else
      var r' := BeforeFirst(s[1..], sep);
      assert forall i :: 1 <= i <= |s| ==> s[i..] == s[1..][i - 1..];
      [s[0]] + r'
  }

  function LowerChar(c: char): char {
    if 'A' <= c <= 'Z' then (c as int + 32) as char else c
  }

  function UpperChar(c: char): char {
    if 'a' <= c <= 'z' then (c as int - 32) as char else c
  }

  /** SQL `LOWER(s)`, on ASCII letters. */
  function Lower(s: string): (r: string)
    ensures |r| == |s| && forall i :: 0 <= i < |s| ==> r[i] == LowerChar(s[i])
  {
    seq(|s|, i requires 0 <= i < |s| => LowerChar(s[i]))
  }

  /** JavaScript `s.toUpperCase()`, on ASCII letters. */
  function Upper(s: string): (r: string)
    ensures |r| == |s| && forall i :: 0 <= i < |s| ==> r[i] == UpperChar(s[i])
  {
    seq(|s|, i requires 0 <= i < |s| => UpperChar(s[i]))
  }

  /** A case-insensitive regular-expression test for a literal pattern (`/pattern/i.test(s)`), on ASCII letters. */
  predicate ContainsIgnoringCase(s: string, pattern: string) {
    exists i :: 0 <= i <= |s| && MatchesIgnoringCaseAt(s, i, pattern)
  }

  predicate MatchesIgnoringCaseAt(s: string, i: nat, pattern: string) {
    i + |pattern| <= |s| && Lower(s[i..i + |pattern|]) == Lower(pattern)
  }

  /** SQL `REPLACE(s, from, to)` for one-character `from` and `to`. */
  function ReplaceChar(s: string, from: char, to: char): (r: string)
    ensures |r| == |s|
    ensures forall i :: 0 <= i < |s| ==> r[i] == (if s[i] == from then to else s[i])
  {
    seq(|s|, i requires 0 <= i < |s| => if s[i] == from then to else s[i])
  }
}
