// Shared vocabulary: optional values, results, and text cut into lines.

module Wrappers {
  datatype Option<+T> = None | Some(value: T)

  datatype Result<+T, +E> = Ok(value: T) | Err(error: E)

  /** `a ?? b`. */
  function Or(a: Option<string>, b: string): string { if a.Some? then a.value else b }
}

module ByteValues {
  newtype byte = x: int | 0 <= x < 256
}

/** Splitting on a separator character and joining with it, as JavaScript's `split` and `join` do. */
module Text {
  /** `s.split(c)`: always at least one piece; the separator is in no piece. */
  function Split(s: string, c: char): (parts: seq<string>)
    ensures |parts| > 0
    ensures forall i :: 0 <= i < |parts| ==> c !in parts[i]
  {
    if s == [] then [[]]
    else
      var rest := Split(s[1..], c);
      if s[0] == c then [[]] + rest else [[s[0]] + rest[0]] + rest[1..]
  }

  /** `parts.join(sep)`. */
  function Join(parts: seq<string>, sep: string): string {
    if parts == [] then ""
    else if |parts| == 1 then parts[0]
    else parts[0] + sep + Join(parts[1..], sep)
  }

  function Concat(parts: seq<string>): string {
    if parts == [] then "" else parts[0] + Concat(parts[1..])
  }

  lemma {:induction false} JoinSplit(s: string, c: char)
    ensures Join(Split(s, c), [c]) == s
  {
    if s != [] {
      JoinSplit(s[1..], c);
      var rest := Split(s[1..], c);
      if s[0] == c {
        assert ([[]] + rest)[1..] == rest;
      } else if |rest| > 1 {
        assert ([[s[0]] + rest[0]] + rest[1..])[1..] == rest[1..];
      }
    }
  }

  /** The pieces of `a`, a separator, and `b` are the pieces of `a` followed by the pieces of `b`. */
  lemma {:induction false} SplitAtSeparator(a: string, c: char, b: string)
    ensures Split(a + [c] + b, c) == Split(a, c) + Split(b, c)
  {
    if a == [] {
      assert [] + [c] + b == [c] + b;
      SplitCons(c, b, c);
    } else {
      var rest := a[1..] + [c] + b;
      calc {
        Split(a + [c] + b, c);
        { assert a + [c] + b == [a[0]] + rest; }
        Split([a[0]] + rest, c);
        { SplitCons(a[0], rest, c); SplitAtSeparator(a[1..], c, b); }
        if a[0] == c then [[]] + (Split(a[1..], c) + Split(b, c))
        else [[a[0]] + Split(a[1..], c)[0]] + (Split(a[1..], c) + Split(b, c))[1..];
        { SplitCons(a[0], a[1..], c); assert [a[0]] + a[1..] == a; }
        Split(a, c) + Split(b, c);
      }
    }
  }

  lemma {:induction false} SplitCons(x: char, s: string, c: char)
    ensures Split([x] + s, c) == if x == c then [[]] + Split(s, c) else [[x] + Split(s, c)[0]] + Split(s, c)[1..]
  {
    assert ([x] + s)[1..] == s;
  }

  lemma {:induction false} SplitOne(s: string, c: char)
    requires c !in s
    ensures Split(s, c) == [s]
  {
    if s != [] {
      SplitOne(s[1..], c);
      assert s[0] in s;
      assert [s[0]] + s[1..] == s;
    }
  }

  lemma {:induction false} SplitJoin(parts: seq<string>, c: char)
    requires |parts| > 0
    requires forall i :: 0 <= i < |parts| ==> c !in parts[i]
    ensures Split(Join(parts, [c]), c) == parts
  {
    SplitOne(parts[0], c);
    if |parts| > 1 {
      SplitJoin(parts[1..], c);
      SplitAtSeparator(parts[0], c, Join(parts[1..], [c]));
    }
  }

  lemma {:induction false} JoinAppend(a: seq<string>, b: seq<string>, sep: string)
    ensures Join(a + b, sep) ==
      if a == [] then Join(b, sep) else if b == [] then Join(a, sep) else Join(a, sep) + sep + Join(b, sep)
  {
    if a == [] {
      assert a + b == b;
    } else if b == [] {
      assert a + b == a;
    } else {
      assert (a + b)[1..] == a[1..] + b;
      JoinAppend(a[1..], b, sep);
    }
  }

  lemma {:induction false} ConcatAppend(a: seq<string>, b: seq<string>)
    ensures Concat(a + b) == Concat(a) + Concat(b)
  {
    if a == [] {
      assert a + b == b;
    } else {
      assert (a + b)[1..] == a[1..] + b;
      ConcatAppend(a[1..], b);
    }
  }

  predicate StartsWith(s: string, prefix: string) { |prefix| <= |s| && s[..|prefix|] == prefix }

  /** The characters JavaScript trims. */
  predicate IsSpace(c: char) {
    '\U{0009}' <= c <= '\U{000D}' || c == ' ' || c == '\U{00A0}' || c == '\U{1680}' || '\U{2000}' <= c <= '\U{200A}' ||
    c == '\U{2028}' || c == '\U{2029}' || c == '\U{202F}' || c == '\U{205F}' || c == '\U{3000}' || c == '\U{FEFF}'
  }

  function TrimStart(s: string): string {
    if s != [] && IsSpace(s[0]) then TrimStart(s[1..]) else s
  }

  function TrimEnd(s: string): string {
    if s != [] && IsSpace(s[|s| - 1]) then TrimEnd(s[..|s| - 1]) else s
  }

  function Trim(s: string): string { TrimEnd(TrimStart(s)) }

  /** Where c first occurs at or after `from`, or -1. */
  function IndexFrom(s: string, c: char, from: nat): (index: int)
    requires from <= |s|
    ensures index == -1 ==> c !in s[from..]
    ensures index != -1 ==> from <= index < |s| && s[index] == c && c !in s[from..index]
    decreases |s| - from
  {
    if from == |s| then -1
    else if s[from] == c then from
    else
      assert s[from..] == [s[from]] + s[from + 1..];
      var rest := IndexFrom(s, c, from + 1);
      assert rest != -1 ==> s[from..rest] == [s[from]] + s[from + 1..rest];
      rest
  }

  /** A regular expression's `.` does not match these. */
  predicate IsLineEnd(c: char) { c == '\n' || c == '\r' || c == '\U{2028}' || c == '\U{2029}' }

  predicate OneLine(s: string) { forall c :: c in s ==> !IsLineEnd(c) }

  predicate IsDigit(c: char) { '0' <= c <= '9' }

  function SkipDigits(s: string, i: nat): (j: nat)
    requires i <= |s|
    ensures i <= j <= |s|
    ensures j < |s| ==> !IsDigit(s[j])
    ensures forall k :: i <= k < j ==> IsDigit(s[k])
    decreases |s| - i
  {
    if i < |s| && IsDigit(s[i]) then SkipDigits(s, i + 1) else i
  }

  /** One pass replacing CR LF by LF. */
  function Normalize(s: string): string {
    if s == [] then []
    else if s[0] == '\r' && |s| > 1 && s[1] == '\n' then ['\n'] + Normalize(s[2..])
    else [s[0]] + Normalize(s[1..])
  }

  lemma {:induction false} NormalizeStep(c: char, s: string)
    ensures Normalize([]) == []
    ensures Normalize([c] + s) ==
      if c == '\r' && s != [] && s[0] == '\n' then ['\n'] + Normalize(s[1..]) else [c] + Normalize(s)
  {
    var t := [c] + s;
    assert t[1..] == s;
    assert s != [] ==> t[2..] == s[1..];
  }
}
