/** Reading tagged lines back: stripping tags from pasted text, and parsing line references. */
module HashlineRefs {
  import opened Wrappers
  import opened Text
  import opened HashlineFormat

  const LETTERS := "ZPMQVRWSNKTXJBYH"

  predicate IsTagLetter(c: char) { c in LETTERS }

  /** The two letters for a byte: its high and its low half. */
  function DictionaryEntry(index: nat): string
    requires index < 256
  {
    [LETTERS[index / 16], LETTERS[index % 16]]
  }

  /** The tag as the program builds it out of a 32-bit hash of the line. */
  function TagBy(hash: (nat, string) -> nat): Tag {
    (line: nat, content: string) => DictionaryEntry(hash(line, content) % 256)
  }

  predicate IsTag(s: string) { |s| == 2 && IsTagLetter(s[0]) && IsTagLetter(s[1]) }

  lemma {:induction false} EntriesAreTags(index: nat, other: nat)
    requires index < 256 && other < 256
    ensures IsTag(DictionaryEntry(index))
    ensures DictionaryEntry(index) == DictionaryEntry(other) ==> index == other
  {
    LettersDiffer(index / 16, other / 16);
    LettersDiffer(index % 16, other % 16);
  }

  lemma {:induction false} LettersDiffer(i: nat, j: nat)
    requires i < 16 && j < 16
    ensures LETTERS[i] == LETTERS[j] ==> i == j
  {
  }

  // ---- Scanning --------------------------------------------------------------------------------------

  function SkipSpaces(s: string, i: nat): (j: nat)
    requires i <= |s|
    ensures i <= j <= |s|
    ensures j < |s| ==> !IsSpace(s[j])
    decreases |s| - i
  {
    if i < |s| && IsSpace(s[i]) then SkipSpaces(s, i + 1) else i
  }

  /** `#`, two tag letters, at this index. */
  predicate HashTagAt(s: string, i: nat) {
    i + 2 < |s| && s[i] == '#' && IsTagLetter(s[i + 1]) && IsTagLetter(s[i + 2])
  }

  /** Where a line's tag prefix ends: optional marker, number, `#`, two letters, `|`, with spaces allowed between. */
  function PrefixEnd(line: string): (end: Option<nat>)
    ensures end.Some? ==> end.value <= |line|
  {
    var start := SkipSpaces(line, 0);
    var marked :=
      if StartsWith(line[start..], ">>>") then start + 3 else if StartsWith(line[start..], ">>") then start + 2
      else start;
    var number := SkipSpaces(line, marked);
    var digits := SkipDigits(line, number);
    var hash := SkipSpaces(line, digits);
    if digits == number || hash == |line| || line[hash] != '#' then None
    else
      var tag := SkipSpaces(line, hash + 1);
      if tag + 2 < |line| && IsTagLetter(line[tag]) && IsTagLetter(line[tag + 1]) && line[tag + 2] == '|'
      then Some(tag + 3)
      else None
  }

  /** A diff's added line: one `+` that no second one follows. */
  predicate IsPlusLine(line: string) { line != "" && line[0] == '+' && (|line| == 1 || line[1] != '+') }

  // ---- Stripping prefixes from pasted lines ------------------------------------------------------------

  function Count(lines: seq<string>, p: string -> bool): nat {
    if lines == [] then 0 else Count(lines[..|lines| - 1], p) + if p(lines[|lines| - 1]) then 1 else 0
  }

  function StripTag(line: string): string { if PrefixEnd(line).Some? then line[PrefixEnd(line).value..] else line }

  function StripPlus(line: string): string { if IsPlusLine(line) then line[1..] else line }

  predicate MostlyTagged(lines: seq<string>) {
    var tagged, all := Count(lines, l => PrefixEnd(l).Some?), Count(lines, l => l != "");
    tagged > 0 && 2 * tagged >= all
  }

  predicate MostlyAdded(lines: seq<string>) {
    var added, all := Count(lines, IsPlusLine), Count(lines, l => l != "");
    added > 0 && 2 * added >= all
  }

  function Map(lines: seq<string>, f: string -> string): (mapped: seq<string>)
    ensures |mapped| == |lines|
    ensures forall i :: 0 <= i < |lines| ==> mapped[i] == f(lines[i])
  {
    seq(|lines|, i requires 0 <= i < |lines| => f(lines[i]))
  }

  function Stripped(lines: seq<string>): seq<string> {
    if MostlyTagged(lines) then Map(lines, StripTag) else if MostlyAdded(lines) then Map(lines, StripPlus) else lines
  }

  lemma {:induction false} CountNext(lines: seq<string>, i: nat, p: string -> bool)
    requires i < |lines|
    ensures Count(lines[..i + 1], p) == Count(lines[..i], p) + if p(lines[i]) then 1 else 0
  {
    assert lines[..i + 1][..i] == lines[..i];
  }

  lemma {:induction false} CountWhole(lines: seq<string>, p: string -> bool)
    ensures Count(lines[..0], p) == 0 && Count(lines[..|lines|], p) == Count(lines, p)
  {
    assert lines[..|lines|] == lines;
  }

  method StripLinePrefixes(lines: seq<string>) returns (stripped: seq<string>)
    ensures stripped == Stripped(lines)
  {
    hide Count, PrefixEnd;
    var tagged: string -> bool := l => PrefixEnd(l).Some?;
    var filled: string -> bool := l => l != "";
    var hashPrefixCount, diffPlusCount, nonEmpty := 0, 0, 0;
    CountWhole(lines, tagged);
    CountWhole(lines, IsPlusLine);
    CountWhole(lines, filled);
    for i := 0 to |lines|
      invariant hashPrefixCount == Count(lines[..i], tagged)
      invariant diffPlusCount == Count(lines[..i], IsPlusLine)
      invariant nonEmpty == Count(lines[..i], filled)
      invariant nonEmpty == 0 ==> hashPrefixCount == 0 && diffPlusCount == 0
    {
      CountNext(lines, i, tagged);
      CountNext(lines, i, IsPlusLine);
      CountNext(lines, i, filled);
      NoPrefixInNothing();
      if |lines[i]| == 0 { continue; }
      nonEmpty := nonEmpty + 1;
      if PrefixEnd(lines[i]).Some? {
        hashPrefixCount := hashPrefixCount + 1;
      }
      if IsPlusLine(lines[i]) {
        diffPlusCount := diffPlusCount + 1;
      }
    }
    if nonEmpty == 0 { return lines; }
    var stripHash := hashPrefixCount > 0 && 2 * hashPrefixCount >= nonEmpty;
    var stripPlus := !stripHash && diffPlusCount > 0 && 2 * diffPlusCount >= nonEmpty;
    if !stripHash && !stripPlus { return lines; }
    return Map(lines, if stripHash then StripTag else StripPlus);
  }

  lemma {:induction false} NoPrefixInNothing()
    ensures PrefixEnd("").None?
  {
  }

  // ---- Printing and reading back -------------------------------------------------------------------

  lemma {:induction false} DecimalDigits(n: nat)
    ensures forall i :: 0 <= i < |Decimal(n)| ==> IsDigit(Decimal(n)[i])
  {
    if n >= 10 {
      DecimalDigits(n / 10);
    }
    DigitIsDigit(n % 10);
  }

  lemma {:induction false} DigitIsDigit(d: nat)
    requires d < 10
    ensures IsDigit(DIGITS[d]) && DIGITS[d] as int == '0' as int + d
  {
  }

  lemma {:induction false} LettersAreNoSpace(c: char)
    requires IsTagLetter(c)
    ensures 'A' <= c <= 'Z'
  {
  }

  lemma {:induction false} SkipDigitsStops(s: string, i: nat, j: nat)
    requires i <= j < |s| && !IsDigit(s[j]) && forall k :: i <= k < j ==> IsDigit(s[k])
    ensures SkipDigits(s, i) == j
    decreases j - i
  {
    if i < j {
      SkipDigitsStops(s, i + 1, j);
    }
  }

  /** The number and tag of a printed line, and everything after them. */
  lemma {:induction false} PrintedParts(n: nat, t: string, rest: string)
    requires IsTag(t)
    ensures var s, d := Decimal(n) + "#" + t + rest, |Decimal(n)|;
      SkipDigits(s, 0) == d && HashTagAt(s, d) && IsDigit(s[0]) && s[..d] == Decimal(n) && s[d + 1..d + 3] == t &&
        s[d + 3..] == rest
  {
    hide Decimal, SkipDigits;
    var s, d := Decimal(n) + "#" + t + rest, |Decimal(n)|;
    DecimalDigits(n);
    assert forall k :: 0 <= k < d ==> s[k] == Decimal(n)[k];
    SkipDigitsStops(s, 0, d);
  }

  /** A line that starts with a number, `#`, two letters and `|` has exactly that as its tag prefix. */
  lemma {:induction false} PlainPrefix(line: string, d: nat)
    requires 0 < d && SkipDigits(line, 0) == d && HashTagAt(line, d) && d + 3 < |line| && line[d + 3] == '|'
    ensures PrefixEnd(line) == Some(d + 4)
  {
    hide SkipDigits, IsTagLetter;
    LettersAreNoSpace(line[d + 1]);
    assert IsDigit(line[0]);
    assert SkipSpaces(line, 0) == 0 && SkipSpaces(line, d) == d && SkipSpaces(line, d + 1) == d + 1;
    assert line[0..] == line;
  }

  lemma {:induction false} StripsWhatWasPrinted(n: nat, content: string, tag: Tag)
    requires IsTag(tag(n, content))
    ensures PrefixEnd(FormatHashLine(n, content, tag)).Some?
    ensures StripTag(FormatHashLine(n, content, tag)) == content
  {
    hide SkipDigits, PrefixEnd, Decimal;
    var t, d := tag(n, content), |Decimal(n)|;
    var s := FormatHashLine(n, content, tag);
    var rest := "|" + content;
    assert s == Decimal(n) + "#" + t + rest;
    PrintedParts(n, t, rest);
    assert s[d + 3..][0] == '|';
    PlainPrefix(s, d);
    assert s[d + 4..] == rest[1..];
  }

  ghost predicate ShapedTags(tag: Tag) { forall n, content :: IsTag(tag(n, content)) }

  lemma {:induction false} DictionaryTagsAreShaped(hash: (nat, string) -> nat)
    ensures ShapedTags(TagBy(hash))
  {
    forall n: nat, content: string ensures IsTag(TagBy(hash)(n, content)) {
      EntriesAreTags(hash(n, content) % 256, 0);
    }
  }

  lemma {:induction false} CountAll(lines: seq<string>, p: string -> bool)
    requires forall i :: 0 <= i < |lines| ==> p(lines[i])
    ensures Count(lines, p) == |lines|
  {
    if lines != [] {
      CountAll(lines[..|lines| - 1], p);
    }
  }

  lemma {:induction false} PrintedLinesHaveNoLineEnd(n: nat, content: string, tag: Tag)
    requires IsTag(tag(n, content)) && '\n' !in content
    ensures '\n' !in FormatHashLine(n, content, tag)
  {
    DecimalDigits(n);
    LettersAreNoSpace(tag(n, content)[0]);
    LettersAreNoSpace(tag(n, content)[1]);
  }

  /** The lines of a printed text are its lines, printed. */
  lemma {:induction false} PrintedLinesStay(start: nat, text: string, tag: Tag)
    requires ShapedTags(tag) && text != ""
    ensures Split(FormatText(start, text, tag), '\n') == FormatFrom(start, Split(text, '\n'), tag)
  {
    hide Split, FormatHashLine, Join;
    var lines := Split(text, '\n');
    var printed := FormatFrom(start, lines, tag);
    forall i | 0 <= i < |lines| ensures '\n' !in printed[i] {
      PrintedLinesHaveNoLineEnd(start + i, lines[i], tag);
    }
    SplitJoin(printed, '\n');
  }

  /** Pasting a printed text back gives the original lines, whatever they contain. */
  lemma {:induction false} PrintedTextReadsBack(start: nat, text: string, tag: Tag)
    requires ShapedTags(tag)
    ensures Stripped(Split(FormatText(start, text, tag), '\n')) == Split(text, '\n')
  {
    hide PrefixEnd, Split, Count, StripTag, FormatHashLine, Join;
    if text == "" {
      SplitOne("", '\n');
      NothingToStrip();
    } else {
      var lines := Split(text, '\n');
      var printed := FormatFrom(start, lines, tag);
      PrintedLinesStay(start, text, tag);
      forall i | 0 <= i < |lines| ensures PrefixEnd(printed[i]).Some? && StripTag(printed[i]) == lines[i] {
        StripsWhatWasPrinted(start + i, lines[i], tag);
      }
      CountAll(printed, l => PrefixEnd(l).Some?);
      CountAll(printed, l => l != "");
      assert Map(printed, StripTag) == lines;
    }
  }

  lemma {:induction false} NothingToStrip()
    ensures Stripped([""]) == [""]
  {
    NoPrefixInNothing();
  }

  // ---- Line references -----------------------------------------------------------------------------

  datatype RefError = NotALineNumber | BadFormat | OutOfBounds(line: nat) | Mismatch(line: nat, expected: string)

  /** Where the spaces that end just before i begin. */
  function SpacesBefore(s: string, i: nat): (j: nat)
    requires i <= |s|
    ensures j <= i
  {
    if i > 0 && IsSpace(s[i - 1]) then SpacesBefore(s, i - 1) else i
  }

  function DropMarker(s: string): string {
    if StartsWith(s, ">>>") then s[SkipSpaces(s, 3)..]
    else if s != "" && (s[0] == '+' || s[0] == '-') then s[SkipSpaces(s, 1)..]
    else s
  }

  /** The spaces around the first `#` removed. */
  function CloseHash(s: string): string {
    var i := IndexFrom(s, '#', 0);
    if i == -1 then s else s[..SpacesBefore(s, i)] + "#" + s[SkipSpaces(s, i + 1)..]
  }

  /** The first `|` with no line end after it, or the end of the string. */
  function BarAt(s: string, i: nat): (j: nat)
    requires i <= |s|
    ensures i <= j <= |s|
    ensures j < |s| ==> s[j] == '|'
    decreases |s| - i
  {
    if i == |s| || (s[i] == '|' && OneLine(s[i + 1..])) then i else BarAt(s, i + 1)
  }

  function DropContent(s: string): string { s[..BarAt(s, 0)] }

  /** Digits, `#`, two tag letters and nothing else. */
  predicate IsRef(s: string) {
    var d := SkipDigits(s, 0);
    d > 0 && HashTagAt(s, d) && |s| == d + 3
  }

  /** The first reference anywhere at or after i. */
  function Extract(s: string, i: nat): Option<string>
    requires i <= |s|
    decreases |s| - i
  {
    if i == |s| then None
    else
      var d := SkipDigits(s, i);
      if d > i && HashTagAt(s, d) then Some(s[i..d + 3]) else Extract(s, i + 1)
  }

  function NormalizeLineRef(ref: string): string {
    var original := Trim(ref);
    var trimmed := Trim(DropContent(CloseHash(DropMarker(original))));
    if IsRef(trimmed) then trimmed
    else if Extract(trimmed, 0).Some? then Extract(trimmed, 0).value
    else original
  }

  function ParseDecimal(s: string): nat
    requires forall i :: 0 <= i < |s| ==> IsDigit(s[i])
  {
    if s == "" then 0
    else
      var last := s[|s| - 1];
      assert IsDigit(last);
      10 * ParseDecimal(s[..|s| - 1]) + (last as int - '0' as int)
  }

  function ParseLineRef(ref: string): Result<LineRef, RefError> {
    var normalized := NormalizeLineRef(ref);
    var d := SkipDigits(normalized, 0);
    var i := IndexFrom(normalized, '#', 0);
    if IsRef(normalized) then Ok(LineRef(ParseDecimal(normalized[..d]), normalized[d + 1..]))
    else if i > 0 && d < i && IsTag(normalized[i + 1..]) then Err(NotALineNumber)
    else Err(BadFormat)
  }

  /** The reference test against a file; the legacy tag of a line counts too. */
  function ValidateLineRef(lines: seq<string>, ref: string, tag: Tag, legacyTag: Tag): Result<LineRef, RefError> {
    var parsed := ParseLineRef(ref);
    if parsed.Err? then parsed
    else
      var r := parsed.value;
      if r.line < 1 || r.line > |lines| then Err(OutOfBounds(r.line))
      else if tag(r.line, lines[r.line - 1]) != r.hash && legacyTag(r.line, lines[r.line - 1]) != r.hash then
        Err(Mismatch(r.line, r.hash))
      else parsed
  }

  lemma {:induction false} ParsesWhatWasPrinted(n: nat)
    ensures (forall i :: 0 <= i < |Decimal(n)| ==> IsDigit(Decimal(n)[i])) && ParseDecimal(Decimal(n)) == n
  {
    DecimalDigits(n);
    DigitIsDigit(n % 10);
    if n >= 10 {
      ParsesWhatWasPrinted(n / 10);
      var front := Decimal(n / 10);
      assert Decimal(n) == front + [DIGITS[n % 10]];
      assert Decimal(n)[..|front|] == front;
    } else {
      assert Decimal(n)[..0] == "";
    }
  }

  /** A reference with nothing behind it, or something behind a bar. */
  predicate Behind(rest: string) { rest == "" || rest[0] == '|' }

  function Printed(n: nat, t: string): string { Decimal(n) + "#" + t }

  /** Trimming the end stops at or behind the reference. */
  lemma {:induction false} TrimEndKeeps(p: string, rest: string)
    requires p != "" && !IsSpace(p[|p| - 1]) && Behind(rest)
    ensures exists kept :: Behind(kept) && TrimEnd(p + rest) == p + kept
    decreases |rest|
  {
    var s := p + rest;
    if rest == "" {
      assert s == p + "";
      assert TrimEnd(s) == s;
    } else if IsSpace(s[|s| - 1]) {
      var shorter := rest[..|rest| - 1];
      assert s[|s| - 1] == rest[|rest| - 1] && s[..|s| - 1] == p + shorter;
      TrimEndKeeps(p, shorter);
    } else {
      assert TrimEnd(s) == p + rest;
    }
  }

  lemma {:induction false} PrintedEnds(n: nat, t: string)
    requires IsTag(t)
    ensures var p := Printed(n, t); p != "" && IsDigit(p[0]) && !IsSpace(p[|p| - 1]) && '|' !in p
  {
    hide Decimal;
    DecimalDigits(n);
    LettersAreNoSpace(t[0]);
    LettersAreNoSpace(t[1]);
  }

  /** Dropping the content and trimming leaves the reference, or the reference and something behind a bar. */
  lemma {:induction false} DropContentKeeps(p: string, rest: string)
    requires p != "" && !IsSpace(p[0]) && !IsSpace(p[|p| - 1]) && '|' !in p && Behind(rest)
    ensures exists kept :: Behind(kept) && Trim(DropContent(p + rest)) == p + kept
  {
    var s := p + rest;
    var i := BarAt(s, 0);
    assert forall k :: 0 <= k < |p| ==> s[k] == p[k];
    assert i >= |p|;
    var cut := rest[..i - |p|];
    assert s[..i] == p + cut;
    TrimEndKeeps(p, cut);
    assert TrimStart(p + cut) == p + cut;
  }

  lemma {:induction false} IndexIs(s: string, c: char, from: nat, at: nat)
    requires from <= at < |s| && s[at] == c && forall k :: from <= k < at ==> s[k] != c
    ensures IndexFrom(s, c, from) == at
    decreases at - from
  {
    if from < at {
      IndexIs(s, c, from + 1, at);
    }
  }

  /** A `#` with no space on either side stays as it is. */
  lemma {:induction false} TightHashStays(s: string, d: nat)
    requires 0 < d && d + 1 < |s| && s[d] == '#' && !IsSpace(s[d - 1]) && !IsSpace(s[d + 1])
    requires forall k :: 0 <= k < d ==> s[k] != '#'
    ensures CloseHash(s) == s
  {
    IndexIs(s, '#', 0, d);
    assert SpacesBefore(s, d) == d && SkipSpaces(s, d + 1) == d + 1;
    assert CloseHash(s) == s[..d] + "#" + s[d + 1..];
    assert s == s[..d] + [s[d]] + s[d + 1..];
  }

  lemma {:induction false} CloseHashKeeps(n: nat, t: string, rest: string)
    requires IsTag(t)
    ensures CloseHash(Printed(n, t) + rest) == Printed(n, t) + rest
  {
    hide Decimal, SkipDigits, CloseHash;
    var s, d := Printed(n, t) + rest, |Decimal(n)|;
    assert s == Decimal(n) + "#" + t + rest;
    DecimalDigits(n);
    LettersAreNoSpace(t[0]);
    assert forall k :: 0 <= k < d ==> s[k] == Decimal(n)[k];
    assert s[d] == '#' && s[d + 1] == t[0];
    TightHashStays(s, d);
  }

  /** A reference, perhaps with content behind a bar, is found exactly. */
  lemma {:induction false} FindsReference(n: nat, t: string, kept: string)
    requires IsTag(t) && Behind(kept)
    ensures var p, s := Printed(n, t), Printed(n, t) + kept;
      IsRef(p) && if IsRef(s) then s == p else Extract(s, 0) == Some(p)
  {
    hide Decimal, SkipDigits;
    var s, d := Printed(n, t) + kept, |Decimal(n)|;
    assert s == Decimal(n) + "#" + t + kept;
    PrintedParts(n, t, kept);
    assert Printed(n, t) == Decimal(n) + "#" + t + "";
    PrintedParts(n, t, "");
    assert s[0..d + 3] == Printed(n, t);
  }

  lemma {:induction false} NormalizesTrimmed(n: nat, t: string, rest: string, original: string)
    requires IsTag(t) && Behind(rest)
    requires DropMarker(original) == Printed(n, t) + rest
    ensures var trimmed := Trim(DropContent(CloseHash(DropMarker(original))));
      if IsRef(trimmed) then trimmed == Printed(n, t) else Extract(trimmed, 0) == Some(Printed(n, t))
  {
    hide Printed, IsRef, DropContent, CloseHash, DropMarker, Trim;
    CloseHashKeeps(n, t, rest);
    PrintedEnds(n, t);
    DropContentKeeps(Printed(n, t), rest);
    var kept :| Behind(kept) && Trim(DropContent(Printed(n, t) + rest)) == Printed(n, t) + kept;
    FindsReference(n, t, kept);
  }

  /** The markers in front of a line: none, the indentation of a context line, and the mark of a changed one. */
  const MARKERS := ["", "    ", ">>> "]

  /** Everything behind a `>>> ` that is not a space. */
  lemma {:induction false} ArrowsComeOff(body: string)
    requires body != "" && !IsSpace(body[0])
    ensures DropMarker(">>> " + body) == body
  {
    var u := ">>> " + body;
    assert u[..3] == ">>>" && u[4..] == body;
    assert IsSpace(u[3]) && u[4] == body[0];
    assert SkipSpaces(u, 4) == 4;
    assert SkipSpaces(u, 3) == SkipSpaces(u, 4);
  }

  lemma {:induction false} ArrowedComesOff(p: string, rest: string)
    requires p != "" && IsDigit(p[0]) && !IsSpace(p[|p| - 1]) && Behind(rest)
    ensures exists kept :: Behind(kept) && DropMarker(Trim(">>> " + (p + rest))) == p + kept
  {
    hide DropMarker, TrimEnd;
    var s, q := ">>> " + (p + rest), ">>> " + p;
    assert s == q + rest && s[0] == '>' && q[|q| - 1] == p[|p| - 1];
    assert TrimStart(s) == s;
    TrimEndKeeps(q, rest);
    var kept :| Behind(kept) && TrimEnd(q + rest) == q + kept;
    assert q + kept == ">>> " + (p + kept);
    ArrowsComeOff(p + kept);
  }

  lemma {:induction false} MarkerComesOff(marker: string, p: string, rest: string)
    requires marker in MARKERS && p != "" && IsDigit(p[0]) && !IsSpace(p[|p| - 1]) && Behind(rest)
    ensures exists kept :: Behind(kept) && DropMarker(Trim(marker + (p + rest))) == p + kept
  {
    hide TrimStart, TrimEnd;
    if marker == ">>> " {
      ArrowedComesOff(p, rest);
    } else {
      SpacesComeOff(marker, p + rest);
      TrimEndKeeps(p, rest);
      var kept :| Behind(kept) && TrimEnd(p + rest) == p + kept;
      assert (p + kept)[0] == p[0] && !StartsWith(p + kept, ">>>");
      assert DropMarker(Trim(marker + (p + rest))) == p + kept;
    }
  }

  lemma {:induction false} SpacesComeOff(spaces: string, s: string)
    requires (forall i :: 0 <= i < |spaces| ==> IsSpace(spaces[i])) && s != "" && !IsSpace(s[0])
    ensures TrimStart(spaces + s) == s
  {
    if spaces == "" {
      assert spaces + s == s;
    } else {
      assert (spaces + s)[1..] == spaces[1..] + s;
      SpacesComeOff(spaces[1..], s);
    }
  }

  /**
   * Every printed reference parses to its line and tag, with any marker in front and with or without content behind.
   */
  lemma {:induction false} PrintedReferenceParses(marker: string, n: nat, t: string, rest: string)
    requires marker in MARKERS && IsTag(t) && Behind(rest)
    ensures ParseLineRef(marker + (Printed(n, t) + rest)) == Ok(LineRef(n, t))
  {
    var p, ref := Printed(n, t), marker + (Printed(n, t) + rest);
    NormalizesPrinted(marker, n, t, rest);
    hide NormalizeLineRef, Decimal, SkipDigits;
    assert p == Decimal(n) + "#" + t + "";
    PrintedParts(n, t, "");
    assert p[|Decimal(n)| + 1..] == t;
    FindsReference(n, t, "");
    ParsesWhatWasPrinted(n);
  }

  lemma {:induction false} NormalizesPrinted(marker: string, n: nat, t: string, rest: string)
    requires marker in MARKERS && IsTag(t) && Behind(rest)
    ensures NormalizeLineRef(marker + (Printed(n, t) + rest)) == Printed(n, t)
  {
    hide Printed, IsRef, DropContent, CloseHash, DropMarker, Trim;
    var ref := marker + (Printed(n, t) + rest);
    PrintedEnds(n, t);
    MarkerComesOff(marker, Printed(n, t), rest);
    var kept :| Behind(kept) && DropMarker(Trim(ref)) == Printed(n, t) + kept;
    NormalizesTrimmed(n, t, kept, Trim(ref));
  }

  /** Every line of a file, printed with its tag, is a reference the file accepts. */
  lemma {:induction false} PrintedLinesValidate(lines: seq<string>, n: nat, marker: string, tag: Tag, legacyTag: Tag)
    requires 1 <= n <= |lines| && marker in MARKERS && ShapedTags(tag)
    ensures ValidateLineRef(lines, marker + FormatHashLine(n, lines[n - 1], tag), tag, legacyTag) ==
      Ok(LineRef(n, tag(n, lines[n - 1])))
  {
    hide ParseLineRef;
    var t, rest := tag(n, lines[n - 1]), "|" + lines[n - 1];
    assert FormatHashLine(n, lines[n - 1], tag) == Printed(n, t) + rest;
    PrintedReferenceParses(marker, n, t, rest);
  }
}
