/** String helpers shared by the storage client and the cache control:
    the behaviour of .NET's `string.Join`, `EndsWith` and `char.IsWhiteSpace`,
    plus `Split`, the inverse of `Join`, used to state what joining keeps. */
module Strings {

  /** The summed lengths of the parts. */
  function TotalLength(parts: seq<string>): nat
    decreases |parts|
  {
    if |parts| == 0 then 0 else |parts[0]| + TotalLength(parts[1..])
  }

  /** `string.Join(sep, parts)`: the parts with `sep` between neighbours, so
      the first part leads and exactly one separator sits between each pair. */
  function Join(sep: string, parts: seq<string>): (r: string)
    ensures |parts| == 0 ==> r == ""
    ensures |parts| >= 1 ==> parts[0] <= r
    ensures |parts| >= 1 ==> |r| == TotalLength(parts) + (|parts| - 1) * |sep|
    decreases |parts|
  {
    if |parts| == 0 then ""
    else if |parts| == 1 then parts[0]
    else parts[0] + sep + Join(sep, parts[1..])
  }

  /** Ordinal suffix test. */
  predicate EndsWith(s: string, suffix: string) {
    |suffix| <= |s| && s[|s| - |suffix|..] == suffix
  }

  /** The characters .NET's `char.IsWhiteSpace` accepts: the Unicode space,
      line and paragraph separators and the controls U+0009..U+000D, U+0085. */
  predicate IsWhiteSpaceChar(c: char) {
    ('\U{0009}' <= c <= '\U{000D}') || c == '\U{0020}' || c == '\U{0085}' || c == '\U{00A0}'
    || c == '\U{1680}' || ('\U{2000}' <= c <= '\U{200A}') || c == '\U{2028}' || c == '\U{2029}'
    || c == '\U{202F}' || c == '\U{205F}' || c == '\U{3000}'
  }

  /** Every character is white space (true of the empty string). */
  predicate IsWhiteSpace(s: string) {
    forall i :: 0 <= i < |s| ==> IsWhiteSpaceChar(s[i])
  }

  /** `TrimStart()`: drops the leading white space, keeping the rest as it is. */
  function TrimStart(s: string): (t: string)
    ensures |t| <= |s| && t == s[|s| - |t|..]
    ensures IsWhiteSpace(s[..|s| - |t|])
    ensures |t| > 0 ==> !IsWhiteSpaceChar(t[0])
    ensures t == "" <==> IsWhiteSpace(s)
    decreases |s|
  {
    if |s| > 0 && IsWhiteSpaceChar(s[0]) then
      var t := TrimStart(s[1..]);
      assert s[1..][..|s[1..]| - |t|] == s[1..|s| - |t|];
      assert forall i :: 1 <= i < |s| ==> s[i] == s[1..][i - 1];
      t
    else s
  }

  /** `TrimEnd()`: drops the trailing white space, keeping the rest as it is. */
  function TrimEnd(s: string): (t: string)
    ensures |t| <= |s| && t == s[..|t|]
    ensures IsWhiteSpace(s[|t|..])
    ensures |t| > 0 ==> !IsWhiteSpaceChar(t[|t| - 1])
    decreases |s|
  {
    if |s| > 0 && IsWhiteSpaceChar(s[|s| - 1]) then
      var t := TrimEnd(s[..|s| - 1]);
      assert s[..|s| - 1][|t|..] + [s[|s| - 1]] == s[|t|..];
      t
    else s
  }

  /** Cuts `s` at every occurrence of `sep`; always at least one part. */
  function Split(s: string, sep: char): (parts: seq<string>)
    ensures |parts| >= 1
    decreases |s|
  {
    if |s| == 0 then [""]
    else
      var rest := Split(s[1..], sep);
      if s[0] == sep then [""] + rest
      else [[s[0]] + rest[0]] + rest[1..]
  }

  /** Joining a part in front of a non-empty list puts one separator after it. */
  lemma JoinCons(sep: string, head: string, tail: seq<string>)
    requires |tail| >= 1
    ensures Join(sep, [head] + tail) == head + sep + Join(sep, tail)
  {
    assert ([head] + tail)[1..] == tail;
  }

  /** Joining what was split on one character gives the string back. */
  lemma {:induction false} JoinSplit(s: string, sep: char)
    ensures Join([sep], Split(s, sep)) == s
    decreases |s|
  {
    if |s| > 0 {
      var rest := Split(s[1..], sep);
      JoinSplit(s[1..], sep);
      if s[0] == sep {
        JoinCons([sep], "", rest);
      } else if |rest| > 1 {
        JoinCons([sep], rest[0], rest[1..]);
        assert rest == [rest[0]] + rest[1..];
        JoinCons([sep], [s[0]] + rest[0], rest[1..]);
      }
      assert s == [s[0]] + s[1..];
    }
  }

  /** A part free of the separator splits into itself. */
  lemma {:induction false} SplitWithoutSeparator(p: string, sep: char)
    requires sep !in p
    ensures Split(p, sep) == [p]
    decreases |p|
  {
    if |p| > 0 {
      SplitWithoutSeparator(p[1..], sep);
      assert p == [p[0]] + p[1..];
    }
  }

  /** Splitting stops at the first separator. */
  lemma {:induction false} SplitAtSeparator(p: string, sep: char, t: string)
    requires sep !in p
    ensures Split(p + [sep] + t, sep) == [p] + Split(t, sep)
    decreases |p|
  {
    var s := p + [sep] + t;
    if |p| == 0 {
      assert s[1..] == t;
    } else {
      assert s[1..] == p[1..] + [sep] + t;
      SplitAtSeparator(p[1..], sep, t);
      assert p == [p[0]] + p[1..];
    }
  }

  /** Splitting a join of separator-free parts gives the parts back, so a
      join loses nothing when no part contains the separator. */
  lemma {:induction false} SplitJoin(parts: seq<string>, sep: char)
    requires |parts| >= 1
    requires forall i :: 0 <= i < |parts| ==> sep !in parts[i]
    ensures Split(Join([sep], parts), sep) == parts
    decreases |parts|
  {
    if |parts| == 1 {
      SplitWithoutSeparator(parts[0], sep);
    } else {
      SplitJoin(parts[1..], sep);
      SplitAtSeparator(parts[0], sep, Join([sep], parts[1..]));
      assert parts[0] + [sep] + Join([sep], parts[1..]) == Join([sep], parts);
      assert parts == [parts[0]] + parts[1..];
    }
  }
}
