/** The line grammar of a plan, written out: what counts as a fence, a heading, a checkbox, a task. */
module PlanGrammar {
  import opened Wrappers
  import opened Text
  import opened PlanLines
  import opened PlanChecklist

  predicate Blanks(s: string) { forall i :: 0 <= i < |s| ==> s[i] == ' ' || s[i] == '\t' }

  function Repeat(c: char, n: nat): string { seq(n, _ => c) }

  lemma {:induction false} SkipBlanksIs(s: string, i: nat, j: nat)
    requires i <= j <= |s| && (forall k :: i <= k < j ==> s[k] == ' ' || s[k] == '\t')
    requires j < |s| ==> s[j] != ' ' && s[j] != '\t'
    ensures SkipBlanks(s, i) == j
    decreases j - i
  {
    if i < j {
      SkipBlanksIs(s, i + 1, j);
    }
  }

  lemma {:induction false} SkipRunIs(s: string, i: nat, j: nat, c: char)
    requires i <= j <= |s| && (forall k :: i <= k < j ==> s[k] == c) && (j < |s| ==> s[j] != c)
    ensures SkipRun(s, i, c) == j
    decreases j - i
  {
    if i < j {
      SkipRunIs(s, i + 1, j, c);
    }
  }

  // ---- Fences --------------------------------------------------------------------------------------

  /** A line that is not blank: blanks, a run of one character, and the rest. */
  predicate Begins(line: string, blanks: string, c: char, n: nat, rest: string) {
    && line == blanks + Repeat(c, n) + rest && Blanks(blanks) && n > 0 && c != ' ' && c != '\t'
    && (rest != "" ==> rest[0] != c)
  }

  lemma {:induction false} RunOfFence(line: string, blanks: string, c: char, n: nat, rest: string)
    requires Begins(line, blanks, c, n, rest)
    ensures FenceRun(line) ==
      if |blanks| <= 3 && n >= 3 && (c == '`' || c == '~') then Some((Fence(c, n), rest)) else None
  {
    var start, end := |blanks|, |blanks| + n;
    assert forall k :: 0 <= k < start ==> line[k] == blanks[k];
    assert forall k :: start <= k < end ==> line[k] == Repeat(c, n)[k - start] == c;
    assert line[end..] == rest && (end < |line| ==> line[end] == rest[0]);
    SkipBlanksIs(line, 0, start);
    SkipRunIs(line, start, end, c);
  }

  /**
   * A fence opens with at most three blanks and at least three backticks or tildes, and a backtick fence with no
   * backtick behind them. It closes with as many or more of the same and only blanks behind them.
   */
  lemma {:induction false} FenceRule(line: string, blanks: string, c: char, n: nat, rest: string, fence: Fence)
    requires Begins(line, blanks, c, n, rest)
    ensures ParseOpeningFence(line) ==
      if |blanks| <= 3 && n >= 3 && OneLine(rest) && (c == '~' || (c == '`' && '`' !in rest)) then Some(Fence(c, n))
      else None
    ensures IsClosingFence(line, fence) <==>
      && |blanks| <= 3 && n >= 3 && n >= fence.length && (c == '`' || c == '~') && c == fence.marker && Blanks(rest)
  {
    RunOfFence(line, blanks, c, n, rest);
    AllBlank(rest);
  }

  /** A blank line is no fence, and any other line has a beginning. */
  lemma {:induction false} BlankIsNoFence(line: string, fence: Fence)
    returns (blanks: string, c: char, n: nat, rest: string)
    ensures Blanks(line) ==> ParseOpeningFence(line).None? && !IsClosingFence(line, fence)
    ensures !Blanks(line) ==> Begins(line, blanks, c, n, rest)
  {
    AllBlank(line);
    var start := SkipBlanks(line, 0);
    BlanksSkipped(line, 0);
    if start < |line| {
      c := line[start];
      var end := SkipRun(line, start, c);
      RunSkipped(line, start, c);
      blanks, n, rest := line[..start], end - start, line[end..];
      assert line[start..end] == Repeat(c, n);
      assert line == line[..start] + line[start..end] + line[end..];
    } else {
      blanks, c, n, rest := "", 'x', 0, "";
    }
  }

  lemma {:induction false} BlanksSkipped(s: string, i: nat)
    requires i <= |s|
    ensures var j := SkipBlanks(s, i);
      (forall k :: i <= k < j ==> s[k] == ' ' || s[k] == '\t') && (j < |s| ==> s[j] != ' ' && s[j] != '\t')
    decreases |s| - i
  {
    if i < |s| && IsBlank(s[i]) {
      BlanksSkipped(s, i + 1);
    }
  }

  lemma {:induction false} RunSkipped(s: string, i: nat, c: char)
    requires i <= |s|
    ensures var j := SkipRun(s, i, c); (forall k :: i <= k < j ==> s[k] == c) && (j < |s| ==> s[j] != c)
    ensures i < |s| && s[i] == c ==> SkipRun(s, i, c) > i
    decreases |s| - i
  {
    if i < |s| && s[i] == c {
      RunSkipped(s, i + 1, c);
    }
  }

  lemma {:induction false} AllBlank(s: string)
    ensures SkipBlanks(s, 0) == |s| <==> Blanks(s)
  {
    BlanksSkipped(s, 0);
    if Blanks(s) {
      SkipBlanksIs(s, 0, |s|);
    }
  }

  // ---- Headings ------------------------------------------------------------------------------------

  /** A heading of one or two `#` starts or ends a section. */
  lemma {:induction false} BoundaryRule(line: string)
    ensures IsBoundary(line) <==>
      line == "#" || line == "##" || "# " <= line || "#\t" <= line || "## " <= line || "##\t" <= line
  {
    var n := SkipRun(line, 0, '#');
    RunSkipped(line, 0, '#');
    if n >= 2 {
      assert line[0] == '#' && line[1] == '#';
    }
    if |line| > 0 && line[0] == '#' && (|line| == 1 || line[1] != '#') {
      SkipRunIs(line, 0, 1, '#');
    }
    if |line| > 1 && line[0] == '#' && line[1] == '#' && (|line| == 2 || line[2] != '#') {
      SkipRunIs(line, 0, 2, '#');
    }
  }

  /** The letters of a title in either case. */
  predicate Spells(word: string, upper: string, lower: string) {
    |word| == |upper| == |lower| && forall i :: 0 <= i < |word| ==> word[i] == upper[i] || word[i] == lower[i]
  }

  predicate ClosedBy(tail: string, a: string, n: nat, b: string) {
    tail == a + Repeat('#', n) + b && a != "" && Blanks(a) && n > 0 && Blanks(b)
  }

  /** What may follow a title: blanks, or a run of `#` between blanks. */
  ghost predicate Closes(tail: string) { Blanks(tail) || exists a, n, b :: ClosedBy(tail, a, n, b) }

  predicate HeadingParts(line: string, blanks: string, word: string, tail: string) {
    line == "##" + blanks + word + tail && blanks != "" && Blanks(blanks)
  }

  ghost predicate HeadingOf(line: string, upper: string, lower: string) {
    exists blanks, word, tail :: HeadingParts(line, blanks, word, tail) && Spells(word, upper, lower) && Closes(tail)
  }

  lemma {:induction false} EndRule(tail: string)
    ensures IsHeadingEnd(tail) <==> Closes(tail)
  {
    AllBlank(tail);
    if IsHeadingEnd(tail) && !Blanks(tail) {
      var i := SkipBlanks(tail, 0);
      BlanksSkipped(tail, 0);
      var j := SkipRun(tail, i, '#');
      RunSkipped(tail, i, '#');
      BlanksSkipped(tail, j);
      assert tail[i..j] == Repeat('#', j - i) && tail == tail[..i] + tail[i..j] + tail[j..];
      assert ClosedBy(tail, tail[..i], j - i, tail[j..]);
    }
    if exists a, n, b :: ClosedBy(tail, a, n, b) {
      var a, n, b :| ClosedBy(tail, a, n, b);
      var i, j := |a|, |a| + n;
      assert forall k :: 0 <= k < i ==> tail[k] == a[k];
      assert forall k :: i <= k < j ==> tail[k] == Repeat('#', n)[k - i] == '#';
      assert forall k :: j <= k < |tail| ==> tail[k] == b[k - j];
      SkipBlanksIs(tail, 0, i);
      SkipRunIs(tail, i, j, '#');
      SkipBlanksIs(tail, j, |tail|);
    }
  }

  /** A letter in its two cases, or one that has none. */
  predicate Cases(c: char, upper: char, lower: char) {
    (c == upper == lower && !('A' <= c <= 'Z') && !('a' <= c <= 'z')) ||
    ('A' <= upper <= 'Z' && lower as int == upper as int + 32 && (c == upper || c == lower))
  }

  /** A title starts with no blank, and upper and lower are its letters in the two cases. */
  predicate TwoCases(title: string, upper: string, lower: string) {
    |title| == |upper| == |lower| && title != "" && title[0] != ' ' && title[0] != '\t' &&
    forall i :: 0 <= i < |title| ==> Cases(title[i], upper[i], lower[i])
  }

  lemma {:induction false} SameLetter(c: char, t: char, upper: char, lower: char)
    requires Cases(t, upper, lower)
    ensures Lower(c) == Lower(t) <==> c == upper || c == lower
  {
  }

  lemma {:induction false} SameSpelling(word: string, title: string, upper: string, lower: string)
    requires TwoCases(title, upper, lower)
    ensures SameLetters(word, title) <==> Spells(word, upper, lower)
  {
    hide Lower, Cases;
    if |word| == |title| {
      forall i | 0 <= i < |title|
        ensures Lower(word[i]) == Lower(title[i]) <==> word[i] == upper[i] || word[i] == lower[i]
      {
        SameLetter(word[i], title[i], upper[i], lower[i]);
      }
    }
  }

  lemma {:induction false} HeadingIs(line: string, title: string, upper: string, lower: string)
    requires TwoCases(title, upper, lower)
    ensures IsHeading(line, title) <==> HeadingOf(line, upper, lower)
  {
    hide SameLetters, Closes, IsHeadingEnd;
    if IsHeading(line, title) {
      var i := SkipBlanks(line, 2);
      BlanksSkipped(line, 2);
      var blanks, word, tail := line[2..i], line[i..i + |title|], line[i + |title|..];
      assert line == line[..2] + blanks + word + tail;
      EndRule(tail);
      SameSpelling(word, title, upper, lower);
      assert HeadingParts(line, blanks, word, tail) && Spells(word, upper, lower);
    }
    if HeadingOf(line, upper, lower) {
      var blanks, word, tail :| HeadingParts(line, blanks, word, tail) && Spells(word, upper, lower) && Closes(tail);
      var i := 2 + |blanks|;
      assert forall k :: 2 <= k < i ==> line[k] == blanks[k - 2];
      assert line[i] == word[0] && line[..2] == "##";
      assert Cases(title[0], upper[0], lower[0]);
      SkipBlanksIs(line, 2, i);
      assert line[i..i + |title|] == word && line[i + |title|..] == tail;
      EndRule(tail);
      SameSpelling(word, title, upper, lower);
    }
  }

  lemma {:induction false} TodosInTwoCases()
    ensures TwoCases("TODOs", "TODOS", "todos")
  {
  }

  lemma {:induction false} WaveInTwoCases()
    ensures TwoCases("Final Verification Wave", "FINAL VERIFICATION WAVE", "final verification wave")
  {
    CasesOfWords();
    hide Cases;
    var t, u, l := "Final Verifi", "FINAL VERIFI", "final verifi";
    var tt, uu, ll := "cation Wave", "CATION WAVE", "cation wave";
    assert t + tt == "Final Verification Wave" && u + uu == "FINAL VERIFICATION WAVE";
    assert l + ll == "final verification wave";
  }

  lemma {:induction false} CasesOfWords()
    ensures TwoCases("Final Verifi", "FINAL VERIFI", "final verifi")
    ensures TwoCases("cation Wave", "CATION WAVE", "cation wave")
  {
  }

  /** The two sections, in letters of either case. */
  lemma {:induction false} HeadingRule(line: string)
    ensures SectionHeading(line) == Todo <==> HeadingOf(line, "TODOS", "todos")
    ensures SectionHeading(line) == FinalWave <==> HeadingOf(line, "FINAL VERIFICATION WAVE", "final verification wave")
  {
    TodosInTwoCases();
    WaveInTwoCases();
    hide IsHeading, TwoCases, HeadingOf;
    HeadingIs(line, "TODOs", "TODOS", "todos");
    HeadingIs(line, "Final Verification Wave", "FINAL VERIFICATION WAVE", "final verification wave");
    NotBoth(line);
  }

  lemma {:induction false} NotBoth(line: string)
    ensures !(IsHeading(line, "TODOs") && IsHeading(line, "Final Verification Wave"))
  {
    hide IsHeadingEnd, SkipBlanks, StartsWith;
    if |line| >= 2 {
      var i := SkipBlanks(line, 2);
      if i + 23 <= |line| {
        assert line[i..i + 5][0] == line[i..i + 23][0];
        FirstLetters(line[i..i + 5], line[i..i + 23]);
      }
    }
  }

  lemma {:induction false} FirstLetters(a: string, b: string)
    requires a != "" && b != "" && a[0] == b[0]
    ensures !(SameLetters(a, "TODOs") && SameLetters(b, "Final Verification Wave"))
  {
    var t, f := "TODOs", "Final Verification Wave";
    assert Lower(t[0]) != Lower(f[0]);
  }

  // ---- Numbered checkboxes -------------------------------------------------------------------------

  predicate Digits(s: string) { forall i :: 0 <= i < |s| ==> '0' <= s[i] <= '9' }

  /** A task number: digits without a leading zero, in the final wave behind an F. */
  predicate NumberOf(section: Section, number: string) {
    var digits := if section == Todo || number == "" then number else number[1..];
    && digits != "" && Digits(digits) && digits[0] != '0'
    && (section != Todo ==> number[0] == 'F' || number[0] == 'f')
  }

  predicate IsTask(section: Section, number: string, title: string) {
    NumberOf(section, number) && title != "" && OneLine(title)
  }

  lemma {:induction false} DigitsEnd(s: string, i: nat, j: nat)
    requires i <= j <= |s| && (forall k :: i <= k < j ==> '0' <= s[k] <= '9') && (j < |s| ==> !('0' <= s[j] <= '9'))
    ensures SkipDigits(s, i) == j
    decreases j - i
  {
    if i < j {
      DigitsEnd(s, i + 1, j);
    }
  }

  lemma {:induction false} TaskNumberEnds(section: Section, number: string, title: string)
    requires IsTask(section, number, title)
    ensures NumberEnd(section, number + ". " + title) == Some(|number|)
  {
    var text, start := number + ". " + title, if section == Todo then 0 else 1;
    assert section != Todo ==> number != "";
    assert forall k :: 0 <= k < |number| ==> text[k] == number[k];
    assert forall k :: start <= k < |number| ==> number[k] == number[start..][k - start];
    assert text[|number|] == '.';
    DigitsEnd(text, start, |number|);
  }

  lemma {:induction false} LowerNumber(digits: string)
    requires Digits(digits)
    ensures LowerAll(digits) == digits
  {
    if digits != "" {
      LowerNumber(digits[1..]);
    }
  }

  lemma {:induction false} LowerWave(letter: char, digits: string)
    requires Digits(digits) && (letter == 'F' || letter == 'f')
    ensures LowerAll([letter] + digits) == "f" + digits
  {
    LowerNumber(digits);
    assert ([letter] + digits)[1..] == digits;
  }

  lemma {:induction false} KeyIs(section: Section, number: string)
    requires NumberOf(section, number)
    ensures section == Todo ==> SectionName(section) + ":" + LowerAll(number) == "todo:" + number
    ensures section == FinalWave ==> SectionName(section) + ":" + LowerAll(number) == "final-wave:f" + number[1..]
  {
    hide LowerAll, Digits;
    if section == Todo {
      LowerNumber(number);
      assert "todo" + ":" == "todo:";
    } else {
      assert number == [number[0]] + number[1..];
      LowerWave(number[0], number[1..]);
      assert "final-wave" + ":" + ("f" + number[1..]) == "final-wave:f" + number[1..];
    }
  }

  /** A label is a number, a dot, a blank and a title, and its task is filed under section and lower-case number. */
  lemma {:induction false} TaskRule(section: Section, number: string, title: string)
    requires IsTask(section, number, title)
    ensures IsTaskLabel(section, number + ". " + title)
    ensures section == Todo ==>
        BuildTaskRef(section, number + ". " + title) == Some(TaskRef("todo:" + number, section, number, title))
    ensures section == FinalWave ==>
        BuildTaskRef(section, number + ". " + title) ==
          Some(TaskRef("final-wave:f" + number[1..], section, number, title))
  {
    hide NumberEnd, OneLine, LowerAll, SectionName, Digits;
    var text := number + ". " + title;
    TaskNumberEnds(section, number, title);
    assert text[|number| + 2..] == title && text[..|number|] == number;
    hide NumberOf;
    KeyIs(section, number);
  }

  /** Every label is one. */
  lemma {:induction false} LabelParts(section: Section, text: string) returns (number: string, title: string)
    requires IsTaskLabel(section, text)
    ensures IsTask(section, number, title) && text == number + ". " + title
  {
    var end := NumberEnd(section, text).value;
    number, title := text[..end], text[end + 2..];
    var start := if section == Todo then 0 else 1;
    assert SkipDigits(text, start) > start;
    assert number[start..] == text[start..end];
    assert forall k :: 0 <= k < |number[start..]| ==> number[start..][k] == text[start + k];
    assert text == number + ". " + title;
  }

  /** A numbered checkbox is `- [x] `, in either case, or `- [ ] `, and a label: the mark says whether it is checked. */
  lemma {:induction false} StructuredRule(line: string, section: Section, checked: bool, text: string)
    ensures ParseStructuredCheckbox(line, section) == Some(Checkbox(checked, text)) <==>
      && IsTaskLabel(section, text)
      && if checked then line == "- [x] " + text || line == "- [X] " + text else line == "- [ ] " + text
  {
    hide IsTaskLabel;
    if |line| >= 6 {
      assert line == line[..3] + [line[3]] + line[4..6] + line[6..];
    }
    if line == "- [x] " + text || line == "- [X] " + text || line == "- [ ] " + text {
      assert line[6..] == text && line[..3] == "- [" && line[4..6] == "] ";
      if IsTaskLabel(section, text) {
        LabelHasText(section, text);
      }
    }
  }

  lemma {:induction false} LabelHasText(section: Section, text: string)
    requires IsTaskLabel(section, text)
    ensures |text| >= 3
  {
  }

  // ---- Simple checkboxes ---------------------------------------------------------------------------

  /** Bullet, blanks, brackets around an optional mark among blanks, blanks, and the rest. */
  datatype BoxParts = BoxParts(bullet: char, a: string, b: string, mark: string, c: string, d: string, rest: string)

  function BoxText(box: BoxParts): string {
    [box.bullet] + box.a + "[" + box.b + box.mark + box.c + "]" + box.d + box.rest
  }

  predicate BoxShape(box: BoxParts) {
    && (box.bullet == '-' || box.bullet == '*') && (box.mark == "" || box.mark == "x" || box.mark == "X")
    && Blanks(box.a) && Blanks(box.b) && Blanks(box.c) && Blanks(box.d)
    && (box.mark == "" ==> box.c == "") && (box.rest != "" ==> box.rest[0] != ' ' && box.rest[0] != '\t')
  }

  lemma {:induction false} BlanksAt(line: string, front: string, blanks: string, rest: string)
    requires line == front + blanks + rest && Blanks(blanks) && (rest != "" ==> rest[0] != ' ' && rest[0] != '\t')
    ensures SkipBlanks(line, |front|) == |front| + |blanks|
  {
    assert forall k :: |front| <= k < |front| + |blanks| ==> line[k] == blanks[k - |front|];
    assert rest != "" ==> line[|front| + |blanks|] == rest[0];
    SkipBlanksIs(line, |front|, |front| + |blanks|);
  }

  /** Up to the mark. */
  lemma {:induction false} OpenSkips(line: string, box: BoxParts, more: string)
    requires BoxShape(box) && more != "" && more[0] != ' ' && more[0] != '\t'
    requires line == [box.bullet] + box.a + "[" + box.b + more
    ensures var open := 1 + |box.a|;
      && open + 1 + |box.b| < |line| && line[0] == box.bullet && line[open] == '['
      && SkipBlanks(line, 1) == open && SkipBlanks(line, open + 1) == open + 1 + |box.b|
      && line[open + 1 + |box.b|] == more[0]
  {
    hide SkipBlanks;
    assert line == [box.bullet] + box.a + ("[" + box.b + more);
    BlanksAt(line, [box.bullet], box.a, "[" + box.b + more);
    BlanksAt(line, [box.bullet] + box.a + "[", box.b, more);
  }

  /** From behind the mark. */
  lemma {:induction false} CloseSkips(line: string, box: BoxParts, front: string)
    requires BoxShape(box) && line == front + box.c + "]" + box.d + box.rest
    ensures var close := |front| + |box.c|;
      && close < |line| && line[close] == ']' && SkipBlanks(line, |front|) == close
      && SkipBlanks(line, close + 1) == close + 1 + |box.d| && |line| == close + 1 + |box.d| + |box.rest|
      && line[close + 1 + |box.d|..] == box.rest && line[close + 1..] == box.d + box.rest
  {
    hide SkipBlanks;
    assert line == front + box.c + ("]" + box.d + box.rest);
    BlanksAt(line, front, box.c, "]" + box.d + box.rest);
    BlanksAt(line, front + box.c + "]", box.d, box.rest);
  }

  lemma {:induction false} BoxSkips(box: BoxParts)
    requires BoxShape(box)
    ensures var line, open := BoxText(box), 1 + |box.a|;
      var inner := open + 1 + |box.b|;
      var close := inner + |box.mark| + |box.c|;
      && inner < |line| && close < |line| && line[0] == box.bullet && line[open] == '[' && line[close] == ']'
      && SkipBlanks(line, 1) == open && SkipBlanks(line, open + 1) == inner
      && line[inner] == (if box.mark == "" then ']' else box.mark[0])
      && SkipBlanks(line, inner + |box.mark|) == close && SkipBlanks(line, close + 1) == close + 1 + |box.d|
      && |line| == close + 1 + |box.d| + |box.rest|
      && line[close + 1 + |box.d|..] == box.rest && line[close + 1..] == box.d + box.rest
  {
    hide SkipBlanks, Blanks;
    var line := BoxText(box);
    var more := box.mark + box.c + "]" + box.d + box.rest;
    assert line == [box.bullet] + box.a + "[" + box.b + more;
    OpenSkips(line, box, more);
    var front := [box.bullet] + box.a + "[" + box.b + box.mark;
    assert line == front + box.c + "]" + box.d + box.rest;
    CloseSkips(line, box, front);
  }

  lemma {:induction false} Evaluated(line: string, open: nat, inner: nat, marked: bool, close: nat, text: nat)
    requires 1 <= open < inner < |line| && inner <= close < text <= |line| && (line[0] == '-' || line[0] == '*')
    requires SkipBlanks(line, 1) == open && line[open] == '[' && SkipBlanks(line, open + 1) == inner
    requires marked <==> line[inner] == 'x' || line[inner] == 'X'
    requires SkipBlanks(line, if marked then inner + 1 else inner) == close && line[close] == ']'
    requires SkipBlanks(line, close + 1) == text
    ensures var from := if text == |line| then text - 1 else text;
      ParseSimpleCheckbox(line) ==
        if from < close + 2 || !OneLine(line[from..]) then None else Some(Checkbox(marked, line[from..]))
  {
    hide SkipBlanks, OneLine;
  }

  /**
   * A simple checkbox has a blank and a label behind its brackets, is checked exactly when they hold a mark, and
   * without any other label takes the last of two or more blanks for it.
   */
  lemma {:induction false} SimpleRule(box: BoxParts)
    requires BoxShape(box)
    ensures ParseSimpleCheckbox(BoxText(box)) ==
      if box.d != "" && box.rest != "" && OneLine(box.rest) then Some(Checkbox(box.mark != "", box.rest))
      else if |box.d| > 1 && box.rest == "" then Some(Checkbox(box.mark != "", [box.d[|box.d| - 1]]))
      else None
  {
    hide SkipBlanks, BoxText, Blanks, OneLine, ParseSimpleCheckbox;
    BoxSkips(box);
    var line, inner := BoxText(box), 2 + |box.a| + |box.b|;
    var close := inner + |box.mark| + |box.c|;
    MarkOf(box);
    Evaluated(line, 1 + |box.a|, inner, box.mark != "", close, close + 1 + |box.d|);
    LastOf(line, close + 1, box.d, box.rest);
  }

  lemma {:induction false} MarkOf(box: BoxParts)
    requires BoxShape(box)
    ensures |box.mark| == (if box.mark == "" then 0 else 1)
    ensures box.mark != "" ==> box.mark[0] == 'x' || box.mark[0] == 'X'
  {
  }

  lemma {:induction false} LastOf(line: string, from: nat, blanks: string, rest: string)
    requires from <= |line| && line[from..] == blanks + rest && Blanks(blanks)
    ensures rest == "" && blanks != "" ==>
      line[|line| - 1..] == [blanks[|blanks| - 1]] && OneLine([blanks[|blanks| - 1]])
  {
    if rest == "" && blanks != "" {
      LastBlank(blanks);
      assert line[|line| - 1..] == (blanks + rest)[|blanks| - 1..] == [blanks[|blanks| - 1]];
    }
  }

  lemma {:induction false} LastBlank(blanks: string)
    requires Blanks(blanks) && blanks != ""
    ensures OneLine([blanks[|blanks| - 1]])
  {
  }

  lemma {:induction false} Skips(line: string) returns (open: nat, inner: nat, marked: nat, close: nat, text: nat)
    requires ParseSimpleCheckbox(line).Some?
    ensures 1 <= open < inner <= marked <= close < text <= |line| && line[open] == '[' && line[close] == ']'
    ensures inner < |line| && marked == if line[inner] == 'x' || line[inner] == 'X' then inner + 1 else inner
    ensures open == SkipBlanks(line, 1) && inner == SkipBlanks(line, open + 1) && close == SkipBlanks(line, marked)
    ensures text == SkipBlanks(line, close + 1) && (line[0] == '-' || line[0] == '*')
  {
    hide SkipBlanks, OneLine;
    open := SkipBlanks(line, 1);
    inner := SkipBlanks(line, open + 1);
    marked := if inner < |line| && IsMark(line[inner]) then inner + 1 else inner;
    close := SkipBlanks(line, marked);
    text := SkipBlanks(line, close + 1);
  }

  /** Every simple checkbox is one. */
  lemma {:induction false} SimpleParts(line: string) returns (box: BoxParts)
    requires ParseSimpleCheckbox(line).Some?
    ensures BoxShape(box) && line == BoxText(box)
  {
    hide BoxText, BoxShape, ParseSimpleCheckbox, SkipBlanks;
    var open, inner, marked, close, text := Skips(line);
    Pieces(line, open, inner, marked, close, text);
    box := BoxParts(line[0], line[1..open], line[open + 1..inner], line[inner..marked], line[marked..close],
      line[close + 1..text], line[text..]);
    ShapeOfParts(line, open, inner, marked, close, text, box);
    TextOfParts(box, line);
  }

  lemma {:induction false} TextOfParts(box: BoxParts, line: string)
    requires line == [box.bullet] + box.a + "[" + box.b + box.mark + box.c + "]" + box.d + box.rest
    ensures line == BoxText(box)
  {
  }

  lemma {:induction false} ShapeOfParts(line: string, open: nat, inner: nat, marked: nat, close: nat, text: nat,
      box: BoxParts)
    requires 1 <= open < inner <= marked <= close < text <= |line| && inner < |line|
    requires open == SkipBlanks(line, 1) && inner == SkipBlanks(line, open + 1) && close == SkipBlanks(line, marked)
    requires text == SkipBlanks(line, close + 1) && (line[0] == '-' || line[0] == '*')
    requires marked == if line[inner] == 'x' || line[inner] == 'X' then inner + 1 else inner
    requires box == BoxParts(line[0], line[1..open], line[open + 1..inner], line[inner..marked], line[marked..close],
      line[close + 1..text], line[text..])
    ensures BoxShape(box)
  {
    hide SkipBlanks, Blanks;
    SkippedBlanks(line, 1);
    SkippedBlanks(line, open + 1);
    SkippedBlanks(line, marked);
    SkippedBlanks(line, close + 1);
    assert line[inner..marked] == if marked == inner then "" else [line[inner]];
  }

  lemma {:induction false} SkippedBlanks(s: string, i: nat)
    requires i <= |s|
    ensures var j := SkipBlanks(s, i);
      Blanks(s[i..j]) && (j < |s| ==> s[j] != ' ' && s[j] != '\t' && s[j..][0] == s[j])
    ensures i < |s| && s[i] != ' ' && s[i] != '\t' ==> SkipBlanks(s, i) == i
  {
    BlanksSkipped(s, i);
  }

  lemma {:induction false} Pieces(line: string, open: nat, inner: nat, marked: nat, close: nat, text: nat)
    requires 1 <= open < inner <= marked <= close < text <= |line| && line[open] == '[' && line[close] == ']'
    ensures line == [line[0]] + line[1..open] + "[" + line[open + 1..inner] + line[inner..marked] +
      line[marked..close] + "]" + line[close + 1..text] + line[text..]
  {
    assert line[..open + 1] == [line[0]] + line[1..open] + "[";
    assert line[..marked] == line[..open + 1] + line[open + 1..inner] + line[inner..marked];
    assert line[..close + 1] == line[..marked] + line[marked..close] + "]";
    assert line == line[..close + 1] + line[close + 1..text] + line[text..];
  }

  // ---- Lines and counts ----------------------------------------------------------------------------

  /** Lines come back from a text that separates them with LF or with CR LF. */
  lemma {:induction false} LinesComeBack(lines: seq<string>)
    requires lines != []
    requires forall i :: 0 <= i < |lines| ==> '\n' !in lines[i] && (lines[i] != "" ==> lines[i][|lines[i]| - 1] != '\r')
    ensures SplitLines(Join(lines, "\n")) == lines && SplitLines(Join(lines, "\r\n")) == lines
  {
    hide Split, Join, SplitLines;
    SplitJoin(lines, '\n');
    LinesOf(Join(lines, "\n"), lines, lines);
    var ended := seq(|lines|, i requires 0 <= i < |lines| => if i + 1 < |lines| then lines[i] + "\r" else lines[i]);
    JoinEnded(lines, ended);
    SplitJoin(ended, '\n');
    LinesOf(Join(ended, "\n"), ended, lines);
  }

  lemma {:induction false} LinesOf(text: string, parts: seq<string>, lines: seq<string>)
    requires Split(text, '\n') == parts && |parts| == |lines|
    requires forall i :: 0 <= i < |lines| ==> lines[i] == "" || lines[i][|lines[i]| - 1] != '\r'
    requires forall i :: 0 <= i < |parts| ==> parts[i] == lines[i] || (i + 1 < |parts| && parts[i] == lines[i] + "\r")
    ensures SplitLines(text) == lines
  {
    hide Split;
    forall i | 0 <= i < |parts| ensures SplitLines(text)[i] == lines[i] {
      if parts[i] == lines[i] + "\r" {
        assert parts[i][..|parts[i]| - 1] == lines[i];
      }
    }
  }

  lemma {:induction false} JoinEnded(lines: seq<string>, ended: seq<string>)
    requires |ended| == |lines| > 0
    requires forall i :: 0 <= i < |lines| ==> ended[i] == if i + 1 < |lines| then lines[i] + "\r" else lines[i]
    ensures Join(ended, "\n") == Join(lines, "\r\n")
  {
    if |lines| > 1 {
      JoinEnded(lines[1..], ended[1..]);
      assert lines[0] + "\r" + "\n" == lines[0] + "\r\n";
    }
  }

  // ---- What counts ---------------------------------------------------------------------------------

  /** A line that no fence opens is visible outside every fence, and a line of a fence never is. */
  lemma {:induction false} OutsideIsVisible(lines: seq<string>)
    requires forall i :: 0 <= i < |lines| ==> ParseOpeningFence(lines[i]).None?
    ensures Visible(None, lines) == lines && FenceAfter(None, lines) == None
  {
    hide ParseOpeningFence;
    if lines != [] {
      OutsideIsVisible(lines[..|lines| - 1]);
    }
  }

  /** The box a line is in this section, if any. */
  function BoxIn(section: Section, line: string): seq<Box> {
    var box := ParseStructuredCheckbox(line, section);
    if section == Other || box.None? then [] else [Box(box.value, BuildTaskRef(section, box.value.text))]
  }

  /** The boxes of these lines if all of them stand in this section. */
  function BoxesIn(section: Section, lines: seq<string>): seq<Box> {
    if lines == [] then [] else BoxesIn(section, lines[..|lines| - 1]) + BoxIn(section, lines[|lines| - 1])
  }

  lemma {:induction false} OneMoreIn(lines: seq<string>, line: string)
    ensures IsBoundary(line) ==>
        SectionAfter(lines + [line]) == SectionHeading(line) &&
        StructuredBoxes(lines + [line]) == StructuredBoxes(lines)
    ensures !IsBoundary(line) ==>
        SectionAfter(lines + [line]) == SectionAfter(lines) &&
        StructuredBoxes(lines + [line]) == StructuredBoxes(lines) + BoxIn(SectionAfter(lines), line)
  {
    hide ParseStructuredCheckbox, BuildTaskRef, SectionHeading, IsBoundary;
    OneMoreVisible(lines, line);
  }

  /** A heading opens its section up to the next heading, whatever that is; in front of all headings nothing counts. */
  lemma {:induction false} SectionsHoldBoxes(before: seq<string>, heading: string, body: seq<string>)
    requires IsBoundary(heading) && forall i :: 0 <= i < |body| ==> !IsBoundary(body[i])
    ensures var lines := before + [heading] + body;
      && SectionAfter(lines) == SectionHeading(heading)
      && StructuredBoxes(lines) == StructuredBoxes(before) + BoxesIn(SectionHeading(heading), body)
    decreases |body|
  {
    hide ParseStructuredCheckbox, BuildTaskRef, SectionHeading, IsBoundary, BoxIn, SectionAfter, StructuredBoxes;
    if body == [] {
      assert before + [heading] + [] == before + [heading];
      OneMoreIn(before, heading);
    } else {
      var front, last := body[..|body| - 1], body[|body| - 1];
      SectionsHoldBoxes(before, heading, front);
      assert before + [heading] + body == before + [heading] + front + [last];
      OneMoreIn(before + [heading] + front, last);
    }
  }

  lemma {:induction false} NothingBeforeHeadings(body: seq<string>)
    requires forall i :: 0 <= i < |body| ==> !IsBoundary(body[i])
    ensures SectionAfter(body) == Other && StructuredBoxes(body) == []
  {
    hide ParseStructuredCheckbox, BuildTaskRef, SectionHeading, IsBoundary;
    if body != [] {
      NothingBeforeHeadings(body[..|body| - 1]);
    }
  }

  /** Without sections every visible line is tried, in order. */
  lemma {:induction false} SimpleBoxesInOrder(before: seq<string>, line: string, behind: seq<string>)
    ensures SimpleBoxes([]) == []
    ensures SimpleBoxes(before + [line] + behind) ==
      SimpleBoxes(before) + SimpleBoxes([line]) + SimpleBoxes(behind)
    ensures SimpleBoxes([line]) ==
      if ParseSimpleCheckbox(line).Some? then [Box(ParseSimpleCheckbox(line).value, None)] else []
    decreases |behind|
  {
    hide ParseSimpleCheckbox;
    OneMoreVisible([], line);
    assert [] + [line] == [line] && SimpleBoxes([]) == [];
    if behind == [] {
      assert before + [line] + [] == before + [line];
      OneMoreVisible(before, line);
    } else {
      var front, last := behind[..|behind| - 1], behind[|behind| - 1];
      SimpleBoxesInOrder(before, line, front);
      assert before + [line] + behind == before + [line] + front + [last] && behind == front + [last];
      OneMoreVisible(before + [line] + front, last);
      OneMoreVisible(front, last);
    }
  }

  ghost predicate OpensSection(line: string) {
    HeadingOf(line, "TODOS", "todos") || HeadingOf(line, "FINAL VERIFICATION WAVE", "final verification wave")
  }

  lemma {:induction false} OpensOneOfTwo(line: string)
    ensures SectionHeading(line) != Other <==> OpensSection(line)
  {
    hide SectionHeading, HeadingOf;
    HeadingRule(line);
  }

  /** The sections count exactly when one of the two headings is visible. */
  lemma {:induction false} SectionsCountIfThere(visible: seq<string>)
    ensures HasSection(visible) <==> exists i :: 0 <= i < |visible| && OpensSection(visible[i])
    ensures HasSection(visible) ==>
        Judged(visible) == (Summary(StructuredBoxes(visible)), NextTask(StructuredBoxes(visible)))
    ensures !HasSection(visible) ==> Judged(visible) == (Summary(SimpleBoxes(visible)), None)
  {
    hide SectionHeading, OpensSection, Summary, NextTask;
    forall line ensures SectionHeading(line) != Other <==> OpensSection(line) {
      OpensOneOfTwo(line);
    }
  }

  function PlacesOf(boxes: seq<Box>, checked: bool): set<int> {
    set i | 0 <= i < |boxes| && boxes[i].checkbox.checked == checked
  }

  lemma {:induction false} PlacesMore(boxes: seq<Box>, checked: bool)
    requires boxes != []
    ensures var n := |boxes| - 1;
      |PlacesOf(boxes, checked)| ==
        |PlacesOf(boxes[..n], checked)| + if boxes[n].checkbox.checked == checked then 1 else 0
  {
    var n := |boxes| - 1;
    var was, now := PlacesOf(boxes[..n], checked), PlacesOf(boxes, checked);
    assert n !in was;
    assert now == was + if boxes[n].checkbox.checked == checked then {n} else {};
  }

  lemma {:induction false} UncheckedArePlaces(boxes: seq<Box>)
    ensures |Unchecked(boxes)| == |PlacesOf(boxes, false)|
    ensures |PlacesOf(boxes, true)| + |PlacesOf(boxes, false)| == |boxes|
  {
    if boxes != [] {
      hide PlacesOf;
      UncheckedArePlaces(boxes[..|boxes| - 1]);
      PlacesMore(boxes, true);
      PlacesMore(boxes, false);
    }
  }

  /** Completed, remaining and total are how many boxes are checked, unchecked, and there. */
  lemma {:induction false} SummaryCounts(boxes: seq<Box>)
    ensures var summary := Summary(boxes);
      && summary.completed == |PlacesOf(boxes, true)|
      && summary.remaining == |PlacesOf(boxes, false)|
      && summary.total == |boxes|
  {
    UncheckedArePlaces(boxes);
  }
}
