/** The grammar of tagged lines and line references, written out: what is taken for a tag, and what for a reference. */
module HashlineGrammar {
  import opened Wrappers
  import opened Text
  import opened HashlineFormat
  import opened HashlineRefs

  predicate Spaces(s: string) { forall i :: 0 <= i < |s| ==> IsSpace(s[i]) }

  predicate Digits(s: string) { s != "" && forall i :: 0 <= i < |s| ==> '0' <= s[i] <= '9' }

  predicate TagLetters(s: string) { |s| == 2 && s[0] in "ZPMQVRWSNKTXJBYH" && s[1] in "ZPMQVRWSNKTXJBYH" }

  predicate LettersOf(tag: string, letters: string, high: nat, low: nat)
    requires |letters| == 16 && high < 16 && low < 16
  {
    tag == [letters[high], letters[low]]
  }

  /** The sixteen letters are the half bytes, the high half first. */
  lemma {:induction false} TagsByHalves(high: nat, low: nat)
    requires high < 16 && low < 16
    ensures LettersOf(DictionaryEntry(16 * high + low), "ZPMQVRWSNKTXJBYH", high, low)
  {
    Halves(high, low);
    assert LETTERS == "ZPMQVRWSNKTXJBYH";
  }

  lemma {:induction false} Halves(high: nat, low: nat)
    requires high < 16 && low < 16
    ensures (16 * high + low) / 16 == high && (16 * high + low) % 16 == low
  {
  }

  /** A line's tag is the entry of its hash modulo 256. */
  lemma {:induction false} TagIsOfHash(hash: (nat, string) -> nat, line: nat, content: string)
    ensures var h := hash(line, content); LettersOf(TagBy(hash)(line, content), "ZPMQVRWSNKTXJBYH", h / 16 % 16, h % 16)
  {
    hide DictionaryEntry, LettersOf;
    var h := hash(line, content);
    assert h % 256 == 16 * (h / 16 % 16) + h % 16;
    TagsByHalves(h / 16 % 16, h % 16);
  }

  /** The white space of JavaScript, code point by code point. */
  lemma {:induction false} SpacesAre(c: char)
    ensures IsSpace(c) <==> c as int in {9, 10, 11, 12, 13, 32, 160, 5760, 8192, 8193, 8194, 8195, 8196, 8197, 8198,
        8199, 8200, 8201, 8202, 8232, 8233, 8239, 8287, 12288, 65279}
  {
  }

  /** The characters a regular expression's dot stops at. */
  lemma {:induction false} LineEndsAre(c: char)
    ensures IsLineEnd(c) <==> c as int in {10, 13, 8232, 8233}
  {
  }

  // ---- Tag prefixes --------------------------------------------------------------------------------

  /** What a tag prefix is made of, and the content behind it. */
  datatype Prefix = Prefix(before: string, arrows: string, after: string, digits: string, left: string, right: string,
    letters: string, content: string)

  function PrefixText(p: Prefix): string {
    p.before + p.arrows + p.after + p.digits + p.left + "#" + p.right + p.letters + "|" + p.content
  }

  predicate IsPrefix(p: Prefix) {
    && Spaces(p.before) && Spaces(p.after) && Spaces(p.left) && Spaces(p.right)
    && (p.arrows == "" || p.arrows == ">>" || p.arrows == ">>>") && (p.arrows == "" ==> p.after == "")
    && Digits(p.digits) && TagLetters(p.letters)
  }

  lemma {:induction false} SpacesAt(line: string, front: string, spaces: string, rest: string)
    requires line == front + spaces + rest && Spaces(spaces) && (rest != "" ==> !IsSpace(rest[0]))
    ensures SkipSpaces(line, |front|) == |front| + |spaces|
  {
    assert forall k :: |front| <= k < |front| + |spaces| ==> line[k] == spaces[k - |front|];
    assert rest != "" ==> line[|front| + |spaces|] == rest[0];
    SpacesEnd(line, |front|, |front| + |spaces|);
  }

  lemma {:induction false} SpacesEnd(s: string, i: nat, j: nat)
    requires i <= j <= |s| && (forall k :: i <= k < j ==> IsSpace(s[k])) && (j < |s| ==> !IsSpace(s[j]))
    ensures SkipSpaces(s, i) == j
    decreases j - i
  {
    if i < j {
      SpacesEnd(s, i + 1, j);
    }
  }

  lemma {:induction false} SpacesSkipped(s: string, i: nat)
    requires i <= |s|
    ensures Spaces(s[i..SkipSpaces(s, i)])
    decreases |s| - i
  {
    if i < |s| && IsSpace(s[i]) {
      SpacesSkipped(s, i + 1);
      assert s[i..SkipSpaces(s, i)] == [s[i]] + s[i + 1..SkipSpaces(s, i)];
    }
  }

  lemma {:induction false} DigitsAt(line: string, front: string, digits: string, rest: string)
    requires line == front + digits + rest && Digits(digits) && (rest != "" ==> !('0' <= rest[0] <= '9'))
    ensures SkipDigits(line, |front|) == |front| + |digits|
  {
    assert forall k :: |front| <= k < |front| + |digits| ==> line[k] == digits[k - |front|];
    assert rest != "" ==> line[|front| + |digits|] == rest[0];
    DigitsStop(line, |front|, |front| + |digits|);
  }

  lemma {:induction false} DigitsStop(s: string, i: nat, j: nat)
    requires i <= j <= |s| && (forall k :: i <= k < j ==> '0' <= s[k] <= '9') && (j < |s| ==> !('0' <= s[j] <= '9'))
    ensures SkipDigits(s, i) == j
    decreases j - i
  {
    if i < j {
      DigitsStop(s, i + 1, j);
    }
  }

  lemma {:induction false} LettersAreTag(s: string)
    ensures TagLetters(s) <==> IsTag(s)
    ensures TagLetters(s) ==> 'A' <= s[0] <= 'Z' && 'A' <= s[1] <= 'Z'
  {
  }

  /** Digits are neither spaces nor arrows. */
  lemma {:induction false} DigitIsPlain(digits: string)
    requires Digits(digits)
    ensures !IsSpace(digits[0]) && !IsSpace(digits[|digits| - 1]) && digits[0] != '>' && '0' <= digits[0] <= '9'
  {
  }

  /** What stands behind the arrows starts with no arrow, and with no space if there are none. */
  lemma {:induction false} BehindArrows(p: Prefix, more: string)
    requires IsPrefix(p)
    ensures var behind := p.after + p.digits + more;
      behind != "" && behind[0] != '>' && (p.arrows == "" ==> !IsSpace(behind[0])) && !IsSpace((p.digits + more)[0])
  {
    DigitIsPlain(p.digits);
    ArrowIsPlain();
    hide IsSpace, Digits;
    assert p.after != "" ==> IsSpace(p.after[0]);
  }

  lemma {:induction false} FrontSkips(line: string, p: Prefix, more: string)
    requires IsPrefix(p) && line == p.before + p.arrows + p.after + p.digits + more
    ensures SkipSpaces(line, 0) == |p.before|
    ensures line[|p.before|..] == p.arrows + (p.after + p.digits + more)
    ensures SkipSpaces(line, |p.before| + |p.arrows|) == |p.before| + |p.arrows| + |p.after|
  {
    hide SkipSpaces, IsSpace, Spaces, Digits, TagLetters;
    BehindArrows(p, more);
    ArrowIsPlain();
    var behind := p.after + p.digits + more;
    assert line[|p.before|..] == p.arrows + behind;
    assert line == "" + p.before + (p.arrows + behind);
    SpacesAt(line, "", p.before, p.arrows + behind);
    assert line == (p.before + p.arrows) + p.after + (p.digits + more);
    SpacesAt(line, p.before + p.arrows, p.after, p.digits + more);
  }

  lemma {:induction false} ArrowsAt(arrows: string, behind: string)
    requires (arrows == "" || arrows == ">>" || arrows == ">>>") && behind != "" && behind[0] != '>'
    ensures StartsWith(arrows + behind, ">>>") <==> arrows == ">>>"
    ensures StartsWith(arrows + behind, ">>") <==> arrows != ""
  {
    var s := arrows + behind;
    if arrows == ">>" {
      assert s[2] == behind[0] && ">>>"[2] == '>' && s[..2] == ">>";
    } else if arrows == ">>>" {
      assert s[..3] == ">>>" && s[..2] == ">>";
    } else {
      assert s == behind;
    }
  }

  lemma {:induction false} ArrowIsPlain()
    ensures !IsSpace('>') && !IsSpace('#')
  {
  }

  /** The digits and the spaces in front of the `#`. */
  lemma {:induction false} DigitsSkip(line: string, front: string, digits: string, left: string, more: string)
    requires Digits(digits) && Spaces(left) && line == front + digits + left + ("#" + more)
    ensures SkipDigits(line, |front|) == |front| + |digits|
    ensures var hash := |front| + |digits| + |left|;
      SkipSpaces(line, |front| + |digits|) == hash && hash < |line| && line[hash] == '#'
  {
    hide SkipSpaces, SkipDigits, IsSpace, Spaces, Digits;
    ArrowIsPlain();
    FirstOf(left, "#" + more);
    assert line == front + digits + (left + ("#" + more));
    DigitsAt(line, front, digits, left + ("#" + more));
    assert line == (front + digits) + left + ("#" + more);
    SpacesAt(line, front + digits, left, "#" + more);
  }

  /** The spaces behind the `#`, the letters and the bar. */
  lemma {:induction false} LettersSkip(line: string, upto: string, right: string, letters: string, content: string)
    requires TagLetters(letters) && Spaces(right) && line == upto + right + (letters + "|" + content)
    ensures var tag := |upto| + |right|;
      && SkipSpaces(line, |upto|) == tag && tag + 2 < |line|
      && IsTagLetter(line[tag]) && IsTagLetter(line[tag + 1]) && line[tag + 2] == '|' && line[tag + 3..] == content
  {
    hide SkipSpaces, IsSpace, Spaces;
    LettersAreTag(letters);
    hide TagLetters, IsTagLetter;
    var tag, third := |upto| + |right|, letters + "|" + content;
    NoSpaceLetter(third[0]);
    SpacesAt(line, upto, right, third);
    assert line[tag..] == third && line[tag + 3..] == third[3..] == content;
  }

  lemma {:induction false} NoSpaceLetter(c: char)
    requires 'A' <= c <= 'Z'
    ensures !IsSpace(c)
  {
  }

  lemma {:induction false} FirstOf(spaces: string, rest: string)
    requires Spaces(spaces) && rest != "" && !('0' <= rest[0] <= '9')
    ensures !('0' <= (spaces + rest)[0] <= '9')
  {
    if spaces != "" {
      assert IsSpace(spaces[0]);
    }
  }

  function Arrows(s: string): nat { if StartsWith(s, ">>>") then 3 else if StartsWith(s, ">>") then 2 else 0 }

  lemma {:induction false} Evaluated(line: string, start: nat, arrows: nat, number: nat, digits: nat, hash: nat,
      tag: nat)
    requires start == SkipSpaces(line, 0) && start + arrows <= |line| && arrows == Arrows(line[start..])
    requires number == SkipSpaces(line, start + arrows)
    requires digits == SkipDigits(line, number) > number && hash == SkipSpaces(line, digits) < |line|
    requires line[hash] == '#' && tag == SkipSpaces(line, hash + 1) && tag + 2 < |line|
    requires IsTagLetter(line[tag]) && IsTagLetter(line[tag + 1]) && line[tag + 2] == '|'
    ensures PrefixEnd(line) == Some(tag + 3)
  {
    hide SkipSpaces, SkipDigits, StartsWith, IsTagLetter;
  }

  lemma {:induction false} Regrouped(p: Prefix)
    ensures var line, third := PrefixText(p), p.letters + "|" + p.content;
      var front, second := p.before + p.arrows + p.after, p.right + third;
      && line == front + p.digits + (p.left + ("#" + second))
      && line == front + p.digits + p.left + ("#" + second)
      && line == (front + p.digits + p.left + "#") + p.right + third
  {
  }

  lemma {:induction false} FrontOf(p: Prefix)
    requires IsPrefix(p)
    ensures var line, start := PrefixText(p), |p.before|;
      && start + |p.arrows| <= |line| && SkipSpaces(line, 0) == start && Arrows(line[start..]) == |p.arrows|
      && SkipSpaces(line, start + |p.arrows|) == start + |p.arrows| + |p.after|
  {
    hide SkipSpaces, StartsWith, Spaces, TagLetters, PrefixText, IsSpace, Digits;
    var line, more := PrefixText(p), p.left + ("#" + (p.right + (p.letters + "|" + p.content)));
    Regrouped(p);
    FrontSkips(line, p, more);
    BehindArrows(p, more);
    ArrowsAt(p.arrows, p.after + p.digits + more);
  }

  lemma {:induction false} BackOf(p: Prefix)
    requires IsPrefix(p)
    ensures var line, number := PrefixText(p), |p.before| + |p.arrows| + |p.after|;
      var digits := number + |p.digits|;
      var hash := digits + |p.left|;
      var tag := hash + 1 + |p.right|;
      && number < digits && digits <= hash < tag && tag + 2 < |line|
      && SkipDigits(line, number) == digits && SkipSpaces(line, digits) == hash && line[hash] == '#'
      && SkipSpaces(line, hash + 1) == tag
      && IsTagLetter(line[tag]) && IsTagLetter(line[tag + 1]) && line[tag + 2] == '|' && line[tag + 3..] == p.content
  {
    hide *;
    PrefixHas(p);
    Regrouped(p);
    BackAt(PrefixText(p), p.before + p.arrows + p.after, p.digits, p.left, p.right, p.letters, p.content);
  }

  lemma {:induction false} PrefixHas(p: Prefix)
    requires IsPrefix(p)
    ensures Digits(p.digits) && p.digits != "" && Spaces(p.left) && Spaces(p.right) && TagLetters(p.letters)
  {
  }

  lemma {:induction false} BackAt(line: string, front: string, digits: string, left: string, right: string,
      letters: string, content: string)
    requires Digits(digits) && digits != "" && Spaces(left) && Spaces(right) && TagLetters(letters)
    requires line == front + digits + left + ("#" + (right + (letters + "|" + content)))
    requires line == (front + digits + left + "#") + right + (letters + "|" + content)
    ensures var number := |front|;
      var end := number + |digits|;
      var hash := end + |left|;
      var tag := hash + 1 + |right|;
      && number < end && end <= hash < tag && tag + 2 < |line|
      && SkipDigits(line, number) == end && SkipSpaces(line, end) == hash && line[hash] == '#'
      && SkipSpaces(line, hash + 1) == tag
      && IsTagLetter(line[tag]) && IsTagLetter(line[tag + 1]) && line[tag + 2] == '|' && line[tag + 3..] == content
  {
    hide *;
    DigitsSkip(line, front, digits, left, right + (letters + "|" + content));
    LettersSkip(line, front + digits + left + "#", right, letters, content);
  }

  /** Every prefix of this make is taken for a tag, and what is left of the line is the content. */
  lemma {:induction false} PrefixRule(p: Prefix)
    requires IsPrefix(p)
    ensures PrefixEnd(PrefixText(p)).Some? && StripTag(PrefixText(p)) == p.content
  {
    hide *;
    FrontOf(p);
    BackOf(p);
    var number := |p.before| + |p.arrows| + |p.after|;
    var digits := number + |p.digits|;
    var hash := digits + |p.left|;
    Evaluated(PrefixText(p), |p.before|, |p.arrows|, number, digits, hash, hash + 1 + |p.right|);
    StrippedAt(PrefixText(p), hash + |p.right| + 4);
  }

  lemma {:induction false} StrippedAt(line: string, end: nat)
    requires PrefixEnd(line) == Some(end)
    ensures StripTag(line) == line[end..]
  {
  }

  datatype Places = Places(start: nat, marked: nat, number: nat, digits: nat, hash: nat, tag: nat)

  predicate PlacesIn(line: string, at: Places) {
    && at.start == SkipSpaces(line, 0) <= at.marked <= |line| && at.number == SkipSpaces(line, at.marked)
    && at.marked == at.start + Arrows(line[at.start..])
    && at.digits == SkipDigits(line, at.number) > at.number && at.hash == SkipSpaces(line, at.digits) < |line|
    && line[at.hash] == '#' && at.tag == SkipSpaces(line, at.hash + 1) && at.tag + 2 < |line|
    && IsTagLetter(line[at.tag]) && IsTagLetter(line[at.tag + 1]) && line[at.tag + 2] == '|'
  }

  lemma {:induction false} Found(line: string) returns (at: Places)
    requires PrefixEnd(line).Some?
    ensures PlacesIn(line, at) && PrefixEnd(line) == Some(at.tag + 3)
  {
    hide SkipSpaces, SkipDigits, IsTagLetter, StartsWith, IsSpace, IsDigit;
    var start := SkipSpaces(line, 0);
    var marked := start + Arrows(line[start..]);
    ArrowsInside(line[start..]);
    assert marked <= |line|;
    var number := SkipSpaces(line, marked);
    var digits := SkipDigits(line, number);
    var hash := SkipSpaces(line, digits);
    at := Places(start, marked, number, digits, hash, SkipSpaces(line, hash + 1));
  }

  lemma {:induction false} ArrowsInside(s: string)
    ensures Arrows(s) <= |s| && s[..Arrows(s)] == if Arrows(s) == 3 then ">>>" else if Arrows(s) == 2 then ">>" else ""
  {
  }

  function Cut(line: string, at: Places): Prefix
    requires at.start <= at.marked <= at.number <= at.digits <= at.hash < at.tag && at.tag + 3 <= |line|
  {
    Prefix(line[..at.start], line[at.start..at.marked], line[at.marked..at.number], line[at.number..at.digits],
      line[at.digits..at.hash], line[at.hash + 1..at.tag], line[at.tag..at.tag + 2], line[at.tag + 3..])
  }

  /** Every line taken to have a tag is one of these, and every other line is left alone. */
  lemma {:induction false} PrefixParts(line: string) returns (p: Prefix)
    ensures PrefixEnd(line).Some? ==> IsPrefix(p) && line == PrefixText(p)
    ensures PrefixEnd(line).None? ==> StripTag(line) == line
  {
    p := Prefix("", "", "", "", "", "", "", "");
    if PrefixEnd(line).Some? {
      hide PrefixEnd, IsPrefix, PrefixText, SkipSpaces, SkipDigits, IsTagLetter, Arrows;
      var at := Found(line);
      p := Cut(line, at);
      CutIsPrefix(line, at);
      CutIsText(line, at);
    }
  }

  lemma {:induction false} CutIsText(line: string, at: Places)
    requires at.start <= at.marked <= at.number <= at.digits <= at.hash < at.tag && at.tag + 3 <= |line|
    requires line[at.hash] == '#' && line[at.tag + 2] == '|'
    ensures line == PrefixText(Cut(line, at))
  {
    assert line[..at.number] == line[..at.start] + line[at.start..at.marked] + line[at.marked..at.number];
    assert line[..at.hash] == line[..at.number] + line[at.number..at.digits] + line[at.digits..at.hash];
    assert line[..at.tag] == line[..at.hash] + "#" + line[at.hash + 1..at.tag];
    assert line == line[..at.tag] + line[at.tag..at.tag + 2] + "|" + line[at.tag + 3..];
  }

  lemma {:induction false} CutIsPrefix(line: string, at: Places)
    requires PlacesIn(line, at)
    ensures IsPrefix(Cut(line, at))
  {
    CutSpaces(line, at);
    CutWords(line, at);
    hide PlacesIn, Cut, Spaces, Digits, TagLetters;
  }

  lemma {:induction false} CutSpaces(line: string, at: Places)
    requires PlacesIn(line, at)
    ensures var p := Cut(line, at);
      Spaces(p.before) && Spaces(p.after) && Spaces(p.left) && Spaces(p.right) && (p.arrows == "" ==> p.after == "")
  {
    hide SkipSpaces, SkipDigits, IsSpace, Spaces, Digits, IsTagLetter, TagLetters, Arrows;
    ArrowsCut(line, at.start);
    SpacesCut(line, at.marked);
    SpacesCut(line, at.digits);
    SpacesCut(line, at.hash + 1);
  }

  lemma {:induction false} CutWords(line: string, at: Places)
    requires PlacesIn(line, at)
    ensures var p := Cut(line, at);
      (p.arrows == "" || p.arrows == ">>" || p.arrows == ">>>") && Digits(p.digits) && TagLetters(p.letters)
  {
    hide SkipSpaces, SkipDigits, IsSpace, Spaces, Digits, IsTagLetter, TagLetters, Arrows;
    ArrowsCut(line, at.start);
    DigitsCut(line, at.number);
    LettersCut(line, at.tag);
  }

  lemma {:induction false} ArrowsCut(line: string, start: nat)
    requires start == SkipSpaces(line, 0) && start <= |line|
    ensures var n := Arrows(line[start..]);
      var arrows := line[start..start + n];
      && Spaces(line[..start]) && start + n <= |line| && (arrows == "" || arrows == ">>" || arrows == ">>>")
      && (n == 0 ==> SkipSpaces(line, start) == start)
  {
    hide IsSpace, Spaces, Arrows, SkipSpaces;
    SpacesCut(line, 0);
    assert line[0..start] == line[..start];
    ArrowsInside(line[start..]);
    var n := Arrows(line[start..]);
    assert line[start..][..n] == line[start..start + n];
  }

  lemma {:induction false} SpacesCut(s: string, i: nat)
    requires i <= |s|
    ensures Spaces(s[i..SkipSpaces(s, i)])
    ensures i < |s| && !IsSpace(s[i]) ==> SkipSpaces(s, i) == i
    ensures SkipSpaces(s, i) == SkipSpaces(s, SkipSpaces(s, i))
  {
    SpacesSkipped(s, i);
  }

  lemma {:induction false} DigitsCut(s: string, i: nat)
    requires i <= |s| && SkipDigits(s, i) > i
    ensures Digits(s[i..SkipDigits(s, i)])
  {
    var digits := s[i..SkipDigits(s, i)];
    forall k | 0 <= k < |digits| ensures '0' <= digits[k] <= '9' {
      assert IsDigit(s[i + k]);
    }
  }

  lemma {:induction false} LettersCut(s: string, i: nat)
    requires i + 2 <= |s| && IsTagLetter(s[i]) && IsTagLetter(s[i + 1])
    ensures TagLetters(s[i..i + 2])
  {
    LettersAreTag(s[i..i + 2]);
  }

  // ---- How many lines make a paste -----------------------------------------------------------------

  function PlacesWhere(lines: seq<string>, p: string -> bool): set<int> {
    set i | 0 <= i < |lines| && p(lines[i])
  }

  lemma {:induction false} CountIsPlaces(lines: seq<string>, p: string -> bool)
    ensures Count(lines, p) == |PlacesWhere(lines, p)|
  {
    if lines == [] {
      assert PlacesWhere(lines, p) == {};
    } else {
      var n := |lines| - 1;
      CountIsPlaces(lines[..n], p);
      assert n !in PlacesWhere(lines[..n], p);
      assert PlacesWhere(lines, p) == PlacesWhere(lines[..n], p) + if p(lines[n]) then {n} else {};
    }
  }

  lemma {:induction false} PlusRule(line: string)
    ensures IsPlusLine(line) <==> "+" <= line && !("++" <= line)
  {
  }

  /**
   * Tags come off when at least one line and half of the lines that are not empty have one; otherwise single plus
   * signs come off under the same condition; otherwise the lines stay.
   */
  lemma {:induction false} StripRule(lines: seq<string>)
    ensures |Stripped(lines)| == |lines|
    ensures var tagged := |PlacesWhere(lines, l => PrefixEnd(l).Some?)|;
      var added := |PlacesWhere(lines, l => "+" <= l && !("++" <= l))|;
      var filled := |PlacesWhere(lines, l => l != "")|;
      forall i :: 0 <= i < |lines| ==>
        Stripped(lines)[i] == (
          if tagged >= 1 && 2 * tagged >= filled then StripTag(lines[i])
          else if added >= 1 && 2 * added >= filled && "+" <= lines[i] && !("++" <= lines[i]) then lines[i][1..]
          else lines[i])
  {
    hide PrefixEnd, StripTag, IsPlusLine;
    var plus: string -> bool := l => "+" <= l && !("++" <= l);
    CountIsPlaces(lines, l => PrefixEnd(l).Some?);
    CountIsPlaces(lines, IsPlusLine);
    CountIsPlaces(lines, l => l != "");
    forall l: string ensures IsPlusLine(l) <==> plus(l) {
      PlusRule(l);
    }
    assert PlacesWhere(lines, IsPlusLine) == PlacesWhere(lines, plus);
  }

  // ---- References ----------------------------------------------------------------------------------

  /** A reference in canonical form is a number, `#` and two letters, nothing more. */
  lemma {:induction false} ReferenceRule(digits: string, letters: string)
    requires Digits(digits) && TagLetters(letters)
    ensures IsRef(digits + "#" + letters)
  {
    var s := digits + "#" + letters;
    assert s == "" + digits + ("#" + letters);
    DigitsAt(s, "", digits, "#" + letters);
  }

  lemma {:induction false} ReferenceParts(s: string) returns (digits: string, letters: string)
    requires IsRef(s)
    ensures Digits(digits) && TagLetters(letters) && s == digits + "#" + letters
  {
    var d := SkipDigits(s, 0);
    digits, letters := s[..d], s[d + 1..];
    assert s[0..d] == digits;
    DigitsCut(s, 0);
    LettersCut(s, d + 1);
    assert s[d + 1..d + 3] == letters;
    assert s == s[..d] + [s[d]] + s[d + 1..];
  }

  /** A reference stands at this place. */
  predicate RefHere(s: string, k: nat, ref: string) { k + |ref| <= |s| && s[k..k + |ref|] == ref && IsRef(ref) }

  lemma {:induction false} HereIsTag(s: string, k: nat, ref: string)
    requires RefHere(s, k, ref)
    ensures var d := SkipDigits(s, k); d > k && HashTagAt(s, d) && s[k..d + 3] == ref
  {
    hide SkipDigits;
    var digits, letters := ReferenceParts(ref);
    var rest := s[k + |ref|..];
    assert s == s[..k] + ref + rest;
    assert s == s[..k] + digits + ("#" + letters + rest);
    DigitsAt(s, s[..k], digits, "#" + letters + rest);
    var d := k + |digits|;
    assert s[d..] == "#" + letters + rest;
    assert s[d] == s[d..][0] && s[d + 1] == s[d..][1] && s[d + 2] == s[d..][2];
    LettersAreTag(letters);
  }

  lemma {:induction false} TagIsHere(s: string, k: nat)
    requires k <= |s| && SkipDigits(s, k) > k && HashTagAt(s, SkipDigits(s, k))
    ensures RefHere(s, k, s[k..SkipDigits(s, k) + 3])
  {
    hide SkipDigits;
    var d := SkipDigits(s, k);
    DigitsCut(s, k);
    LettersCut(s, d + 1);
    ReferenceRule(s[k..d], s[d + 1..d + 3]);
    assert s[k..d + 3] == s[k..d] + "#" + s[d + 1..d + 3];
  }

  /** The extracted reference is the first one in the text, and none is extracted exactly when there is none. */
  lemma {:induction false} ExtractsFirst(s: string, i: nat)
    requires i <= |s|
    ensures Extract(s, i).None? ==> forall k, ref :: i <= k <= |s| ==> !RefHere(s, k, ref)
    ensures Extract(s, i).Some? ==>
      exists k :: i <= k && RefHere(s, k, Extract(s, i).value) && forall j, ref :: i <= j < k ==> !RefHere(s, j, ref)
    decreases |s| - i
  {
    hide SkipDigits, HashTagAt;
    forall ref | RefHere(s, i, ref) ensures i < |s| && SkipDigits(s, i) > i && HashTagAt(s, SkipDigits(s, i)) {
      HereIsTag(s, i, ref);
    }
    if i < |s| {
      var d := SkipDigits(s, i);
      if d > i && HashTagAt(s, d) {
        TagIsHere(s, i);
      } else {
        ExtractsFirst(s, i + 1);
      }
    }
  }

  /** A reference a reader might write: spaces around every part and a marker in front are let pass. */
  datatype Loose = Loose(before: string, marker: string, after: string, left: string, right: string)

  predicate IsLoose(w: Loose) {
    && Spaces(w.before) && Spaces(w.after) && Spaces(w.left) && Spaces(w.right)
    && (w.marker == "" || w.marker == ">>>" || w.marker == "+" || w.marker == "-") && (w.marker == "" ==> w.after == "")
  }

  function Core(w: Loose, n: nat, t: string): string { Decimal(n) + w.left + "#" + w.right + t }

  lemma {:induction false} TrimFront(spaces: string, s: string)
    requires Spaces(spaces) && s != "" && !IsSpace(s[0])
    ensures TrimStart(spaces + s) == s
  {
    SpacesComeOff(spaces, s);
  }

  lemma {:induction false} MarkerGoes(marker: string, after: string, body: string)
    requires marker == "" || marker == ">>>" || marker == "+" || marker == "-"
    requires Spaces(after) && (marker == "" ==> after == "") && body != "" && '0' <= body[0] <= '9'
    ensures DropMarker(marker + after + body) == body
  {
    hide SkipSpaces;
    var s := marker + after + body;
    assert !IsSpace(body[0]);
    SpacesAt(s, marker, after, body);
    assert s[|marker| + |after|..] == body;
    if marker == "" {
      assert s == body;
    } else {
      assert s[0] == marker[0];
      if marker == ">>>" {
        assert s[..3] == ">>>";
      } else {
        assert !StartsWith(s, ">>>");
      }
    }
  }

  lemma {:induction false} SpacesEndAt(s: string, i: nat, j: nat)
    requires j <= i <= |s| && (forall k :: j <= k < i ==> IsSpace(s[k])) && (j > 0 ==> !IsSpace(s[j - 1]))
    ensures SpacesBefore(s, i) == j
    decreases i - j
  {
    if j < i {
      SpacesEndAt(s, i - 1, j);
    }
  }

  /** The first `#` and the spaces in front of it. */
  lemma {:induction false} HashStands(s: string, digits: string, left: string, more: string)
    requires Digits(digits) && Spaces(left) && s == digits + left + ("#" + more)
    ensures IndexFrom(s, '#', 0) == |digits| + |left| && SpacesBefore(s, |digits| + |left|) == |digits|
  {
    hide SpacesBefore, IndexFrom;
    var d, i := |digits|, |digits| + |left|;
    DigitIsPlain(digits);
    ArrowIsPlain();
    assert forall k :: 0 <= k < d ==> s[k] == digits[k];
    assert forall k :: d <= k < i ==> s[k] == left[k - d];
    hide IsSpace;
    assert s[i] == '#';
    IndexIs(s, '#', 0, i);
    SpacesEndAt(s, i, d);
  }

  lemma {:induction false} ClosedAt(s: string, i: nat, front: string, more: string)
    requires i < |s| && IndexFrom(s, '#', 0) == i
    requires s[..SpacesBefore(s, i)] == front && s[SkipSpaces(s, i + 1)..] == more
    ensures CloseHash(s) == front + "#" + more
  {
  }

  lemma {:induction false} RestOf(a: string, b: string, s: string)
    requires s == a + b
    ensures s[|a|..] == b
  {
  }

  lemma {:induction false} SpacesBehind(s: string, upto: string, right: string, more: string, i: nat)
    requires Spaces(right) && more != "" && !IsSpace(more[0]) && s == upto + right + more && |upto| == i + 1
    ensures i < |s| && s[SkipSpaces(s, i + 1)..] == more
  {
    hide *;
    SpacesAt(s, upto, right, more);
    RestOf(upto + right, more, s);
  }

  lemma {:induction false} HashBehind(s: string, digits: string, left: string, behind: string)
    requires Digits(digits) && Spaces(left) && s == digits + left + ("#" + behind)
    ensures IndexFrom(s, '#', 0) == |digits| + |left| && s[..SpacesBefore(s, |digits| + |left|)] == digits
  {
    hide *;
    HashStands(s, digits, left, behind);
  }

  lemma {:induction false} HashCloses(digits: string, left: string, right: string, more: string)
    requires Digits(digits) && Spaces(left) && Spaces(right) && more != "" && !IsSpace(more[0])
    ensures CloseHash(digits + left + "#" + right + more) == digits + "#" + more
  {
    hide *;
    ClosesGrouped(digits + left + "#" + right + more, digits, left, digits + left + "#", right, more) by {
      Grouped(digits + left, "#", right, more);
    }
  }

  lemma {:induction false} Grouped(a: string, b: string, c: string, d: string)
    ensures a + b + c + d == a + (b + (c + d))
  {
  }

  lemma {:induction false} ClosesGrouped(s: string, digits: string, left: string, upto: string, right: string,
      more: string)
    requires Digits(digits) && Spaces(left) && Spaces(right) && more != "" && !IsSpace(more[0])
    requires s == digits + left + ("#" + (right + more))
    requires s == upto + right + more && |upto| == |digits| + |left| + 1
    ensures CloseHash(s) == digits + "#" + more
  {
    hide *;
    HashBehind(s, digits, left, right + more);
    SpacesBehind(s, upto, right, more, |digits| + |left|);
    ClosedAt(s, |digits| + |left|, digits, more);
  }

  lemma {:induction false} DecimalIsDigits(n: nat)
    ensures Digits(Decimal(n))
  {
    DecimalDigits(n);
  }

  function LooseText(w: Loose, n: nat, t: string, rest: string): string {
    w.before + (w.marker + w.after + (Core(w, n, t) + rest))
  }

  lemma {:induction false} CoreEnds(w: Loose, n: nat, t: string)
    requires IsLoose(w) && TagLetters(t)
    ensures var c := Core(w, n, t); c != "" && '0' <= c[0] <= '9' && !IsSpace(c[|c| - 1])
  {
    DecimalIsDigits(n);
    LettersAreTag(t);
    hide Decimal, Digits, TagLetters, Spaces, IsSpace;
    DigitIsPlain(Decimal(n));
    NoSpaceLetter(t[1]);
    var c := Core(w, n, t);
    assert c[0] == Decimal(n)[0] && c[|c| - 1] == t[1];
  }

  lemma {:induction false} LooseTrims(w: Loose, n: nat, t: string, rest: string)
    requires IsLoose(w) && TagLetters(t) && Behind(rest)
    ensures exists kept :: Behind(kept) && Trim(LooseText(w, n, t, rest)) == w.marker + w.after + (Core(w, n, t) + kept)
  {
    hide Core, TrimStart, TrimEnd, Spaces;
    CoreEnds(w, n, t);
    MarkersArePlain();
    var c, lead := Core(w, n, t), w.marker + w.after;
    var s := lead + (c + rest);
    assert s[0] == if w.marker == "" then c[0] else w.marker[0];
    hide IsSpace;
    TrimFront(w.before, s);
    assert s == (lead + c) + rest && (lead + c)[|lead + c| - 1] == c[|c| - 1];
    TrimEndKeeps(lead + c, rest);
    var kept :| Behind(kept) && TrimEnd((lead + c) + rest) == (lead + c) + kept;
    assert (lead + c) + kept == lead + (c + kept);
  }

  lemma {:induction false} MarkersArePlain()
    ensures !IsSpace('>') && !IsSpace('+') && !IsSpace('-') && forall c :: '0' <= c <= '9' ==> !IsSpace(c)
  {
  }

  lemma {:induction false} LooseNormalizes(w: Loose, n: nat, t: string, rest: string)
    requires IsLoose(w) && TagLetters(t) && Behind(rest)
    ensures NormalizeLineRef(LooseText(w, n, t, rest)) == Printed(n, t)
  {
    hide Printed, IsRef, DropContent, CloseHash, DropMarker, Trim, Core, Extract;
    LettersAreTag(t);
    hide TagLetters;
    LooseTrims(w, n, t, rest);
    var kept :| Behind(kept) && Trim(LooseText(w, n, t, rest)) == w.marker + w.after + (Core(w, n, t) + kept);
    CoreEnds(w, n, t);
    assert (Core(w, n, t) + kept)[0] == Core(w, n, t)[0];
    MarkerGoes(w.marker, w.after, Core(w, n, t) + kept);
    CoreCloses(w, n, t, kept);
    PrintedEnds(n, t);
    assert IsDigit(Printed(n, t)[0]) && !IsSpace(Printed(n, t)[0]) by {
      MarkersArePlain();
    }
    DropContentKeeps(Printed(n, t), kept);
    var end :| Behind(end) && Trim(DropContent(Printed(n, t) + kept)) == Printed(n, t) + end;
    FindsReference(n, t, end);
  }

  lemma {:induction false} CoreCloses(w: Loose, n: nat, t: string, kept: string)
    requires IsLoose(w) && TagLetters(t)
    ensures CloseHash(Core(w, n, t) + kept) == Printed(n, t) + kept
  {
    hide CloseHash, Decimal, Digits;
    DecimalIsDigits(n);
    LettersAreTag(t);
    NoSpaceLetter(t[0]);
    assert Core(w, n, t) + kept == Decimal(n) + w.left + "#" + w.right + (t + kept);
    HashCloses(Decimal(n), w.left, w.right, t + kept);
  }

  /** A reference parses with spaces around its parts, a diff or change marker in front, and content behind a bar. */
  lemma {:induction false} LooseReferenceParses(w: Loose, n: nat, t: string, rest: string)
    requires IsLoose(w) && TagLetters(t) && Behind(rest)
    ensures ParseLineRef(LooseText(w, n, t, rest)) == Ok(LineRef(n, t))
  {
    LooseNormalizes(w, n, t, rest);
    LettersAreTag(t);
    hide NormalizeLineRef, Decimal, SkipDigits, LooseText;
    var p := Printed(n, t);
    assert p == Decimal(n) + "#" + t + "";
    PrintedParts(n, t, "");
    assert p[|Decimal(n)| + 1..] == t;
    FindsReference(n, t, "");
    ParsesWhatWasPrinted(n);
  }

  // ---- Errors --------------------------------------------------------------------------------------

  /** A parsed reference is good if its line exists and either tag of that line is the one given. */
  lemma {:induction false} ValidationRule(lines: seq<string>, ref: string, tag: Tag, legacyTag: Tag, n: nat, t: string)
    requires ParseLineRef(ref) == Ok(LineRef(n, t))
    ensures n == 0 || n > |lines| ==> ValidateLineRef(lines, ref, tag, legacyTag) == Err(OutOfBounds(n))
    ensures 1 <= n <= |lines| ==>
      var content := lines[n - 1];
      ValidateLineRef(lines, ref, tag, legacyTag) ==
        if tag(n, content) == t || legacyTag(n, content) == t then Ok(LineRef(n, t)) else Err(Mismatch(n, t))
  {
    hide ParseLineRef;
  }

  /** Any other text is an error, and a special one if letters alone make it no reference. */
  lemma {:induction false} ErrorRule(ref: string)
    ensures var s := NormalizeLineRef(ref);
      && (ParseLineRef(ref).Ok? <==> exists digits, letters :: Makes(s, digits, letters) && Digits(digits))
      && (ParseLineRef(ref) == Err(NotALineNumber) <==>
          exists name, letters :: Makes(s, name, letters) && name != "" && !Digits(name))
      && (ParseLineRef(ref).Err? ==> ParseLineRef(ref).error in {NotALineNumber, BadFormat})
  {
    var s := NormalizeLineRef(ref);
    hide NormalizeLineRef;
    MakesReference(s);
    MakesName(s);
  }

  predicate Makes(s: string, name: string, letters: string) {
    s == name + "#" + letters && '#' !in name && TagLetters(letters)
  }

  lemma {:induction false} MakesReference(s: string)
    ensures IsRef(s) <==> exists digits, letters :: Makes(s, digits, letters) && Digits(digits)
  {
    if IsRef(s) {
      var digits, letters := ReferenceParts(s);
      assert Makes(s, digits, letters);
    }
    if exists digits, letters :: Makes(s, digits, letters) && Digits(digits) {
      var digits, letters :| Makes(s, digits, letters) && Digits(digits);
      ReferenceRule(digits, letters);
    }
  }

  predicate Names(s: string) {
    var d, i := SkipDigits(s, 0), IndexFrom(s, '#', 0);
    i > 0 && d < i && IsTag(s[i + 1..])
  }

  lemma {:induction false} MakesName(s: string)
    ensures Names(s) <==> exists name, letters :: Makes(s, name, letters) && name != "" && !Digits(name)
  {
    if Names(s) {
      var name, letters := NamedBy(s);
      assert Makes(s, name, letters);
    }
    if exists name, letters :: Makes(s, name, letters) && name != "" && !Digits(name) {
      var name, letters :| Makes(s, name, letters) && name != "" && !Digits(name);
      NameStands(s, name, letters);
    }
  }

  lemma {:induction false} NamedBy(s: string) returns (name: string, letters: string)
    requires Names(s)
    ensures Makes(s, name, letters) && name != "" && !Digits(name)
  {
    var d, i := SkipDigits(s, 0), IndexFrom(s, '#', 0);
    hide IsTag, TagLetters;
    name, letters := s[..i], s[i + 1..];
    assert s == name + [s[i]] + letters && s[0..i] == name;
    LettersAreTag(letters);
    assert !('0' <= name[d] <= '9');
  }

  lemma {:induction false} NameStands(s: string, name: string, letters: string)
    requires Makes(s, name, letters) && name != "" && !Digits(name)
    ensures Names(s)
  {
    hide IsTag, TagLetters, IndexFrom, SkipDigits;
    assert forall k :: 0 <= k < |name| ==> s[k] == name[k] && s[k] in name;
    IndexIs(s, '#', 0, |name|);
    assert s[|name| + 1..] == letters;
    LettersAreTag(letters);
    var d := SkipDigits(s, 0);
    assert d >= |name| ==> forall k :: 0 <= k < |name| ==> IsDigit(s[k]);
  }
}
