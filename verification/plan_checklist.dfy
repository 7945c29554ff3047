/** Classifying the lines of a Markdown plan: fences, section headings and checkboxes. */
module PlanLines {
  import opened Wrappers
  import opened Text

  datatype Section = Todo | FinalWave | Other

  datatype Fence = Fence(marker: char, length: nat)

  datatype Checkbox = Checkbox(checked: bool, text: string)

  datatype TaskRef = TaskRef(key: string, section: Section, number: string, title: string)

  /** `split(/\r?\n/)`: a CR before a line feed belongs to the line end. */
  function SplitLines(text: string): seq<string> {
    var parts := Split(text, '\n');
    seq(|parts|, i requires 0 <= i < |parts| =>
      if i + 1 < |parts| && parts[i] != "" && parts[i][|parts[i]| - 1] == '\r' then parts[i][..|parts[i]| - 1]
      else parts[i])
  }

  predicate IsBlank(c: char) { c == ' ' || c == '\t' }

  function SkipBlanks(s: string, i: nat): (j: nat)
    requires i <= |s|
    ensures i <= j <= |s|
    decreases |s| - i
  {
    if i < |s| && IsBlank(s[i]) then SkipBlanks(s, i + 1) else i
  }

  function SkipRun(s: string, i: nat, c: char): (j: nat)
    requires i <= |s|
    ensures i <= j <= |s|
    decreases |s| - i
  {
    if i < |s| && s[i] == c then SkipRun(s, i + 1, c) else i
  }

  // ---- Fences --------------------------------------------------------------------------------------

  /** At most three blanks, then at least three of one marker. */
  function FenceRun(line: string): Option<(Fence, string)> {
    var start := SkipBlanks(line, 0);
    if start > 3 || start == |line| || (line[start] != '`' && line[start] != '~') then None
    else
      var end := SkipRun(line, start, line[start]);
      if end - start < 3 then None else Some((Fence(line[start], end - start), line[end..]))
  }

  /** An opening fence: what follows a run of backticks holds no backtick. */
  function ParseOpeningFence(line: string): Option<Fence> {
    var run := FenceRun(line);
    if run.None? || !OneLine(run.value.1) || (run.value.0.marker == '`' && '`' in run.value.1) then None
    else Some(run.value.0)
  }

  /** A closing fence: the same marker, at least as many, and nothing but blanks behind. */
  predicate IsClosingFence(line: string, fence: Fence) {
    var run := FenceRun(line);
    run.Some? && run.value.0.marker == fence.marker && run.value.0.length >= fence.length &&
    SkipBlanks(run.value.1, 0) == |run.value.1|
  }

  // ---- Headings ------------------------------------------------------------------------------------

  /** One or two `#` and then a blank or the end. */
  predicate IsBoundary(line: string) {
    var n := SkipRun(line, 0, '#');
    (n == 1 || n == 2) && (n == |line| || IsBlank(line[n]))
  }

  function Lower(c: char): char { if 'A' <= c <= 'Z' then ((c as int) + 32) as char else c }

  predicate SameLetters(a: string, b: string) {
    |a| == |b| && forall i :: 0 <= i < |a| ==> Lower(a[i]) == Lower(b[i])
  }

  /** Nothing but blanks, or a closing run of `#` between blanks. */
  predicate IsHeadingEnd(s: string) {
    var i := SkipBlanks(s, 0);
    i == |s| || (i > 0 && SkipRun(s, i, '#') > i && SkipBlanks(s, SkipRun(s, i, '#')) == |s|)
  }

  predicate IsHeading(line: string, title: string) {
    StartsWith(line, "##") &&
    var i := SkipBlanks(line, 2);
    i > 2 && i + |title| <= |line| && SameLetters(line[i..i + |title|], title) && IsHeadingEnd(line[i + |title|..])
  }

  function SectionHeading(line: string): Section {
    if IsHeading(line, "TODOs") then Todo else if IsHeading(line, "Final Verification Wave") then FinalWave else Other
  }

  // ---- Checkboxes ----------------------------------------------------------------------------------

  predicate IsMark(c: char) { c == 'x' || c == 'X' }

  /** The end of a task number: digits with no leading zero, after an `F` in the final wave. */
  function NumberEnd(section: Section, text: string): Option<nat> {
    var start := if section == Todo then 0 else 1;
    if |text| <= start || (section != Todo && text[0] != 'F' && text[0] != 'f') || !('1' <= text[start] <= '9') then
      None
    else Some(SkipDigits(text, start))
  }

  /** Number, dot, blank, and a title of at least one character. */
  predicate IsTaskLabel(section: Section, text: string) {
    var end := NumberEnd(section, text);
    end.Some? && end.value + 2 < |text| && text[end.value] == '.' && text[end.value + 1] == ' ' &&
      OneLine(text[end.value + 2..])
  }

  function ParseStructuredCheckbox(line: string, section: Section): Option<Checkbox> {
    if |line| < 6 || line[..3] != "- [" || line[4..6] != "] " || !(line[3] == ' ' || IsMark(line[3])) ||
      !IsTaskLabel(section, line[6..]) then None
    else Some(Checkbox(IsMark(line[3]), line[6..]))
  }

  function SectionName(section: Section): string {
    if section == Todo then "todo" else if section == FinalWave then "final-wave" else "other"
  }

  function LowerAll(s: string): (lower: string)
    ensures |lower| == |s|
  {
    if s == "" then "" else [Lower(s[0])] + LowerAll(s[1..])
  }

  function BuildTaskRef(section: Section, text: string): Option<TaskRef> {
    if !IsTaskLabel(section, text) then None
    else
      var end := NumberEnd(section, text).value;
      Some(TaskRef(SectionName(section) + ":" + LowerAll(text[..end]), section, text[..end], text[end + 2..]))
  }

  /**
   * Bullet, brackets around at most one mark, blanks, and a label; the last of several trailing blanks can be the
   * label.
   */
  function ParseSimpleCheckbox(line: string): Option<Checkbox> {
    if line == "" || (line[0] != '-' && line[0] != '*') then None
    else
      var open := SkipBlanks(line, 1);
      if open == |line| || line[open] != '[' then None
      else
        var inner := SkipBlanks(line, open + 1);
        var marked := inner < |line| && IsMark(line[inner]);
        var close := SkipBlanks(line, if marked then inner + 1 else inner);
        if close == |line| || line[close] != ']' then None
        else
          var text := SkipBlanks(line, close + 1);
          var from := if text == |line| then text - 1 else text;
          if from < close + 2 || !OneLine(line[from..]) then None else Some(Checkbox(marked, line[from..]))
  }
}

/** Scanning a plan: what a fence hides, what the sections hold, and the summary. */
module PlanChecklist {
  import opened Wrappers
  import opened PlanLines

  datatype Checklist = Checklist(completed: int, remaining: int, total: int, nextTaskLabel: Option<string>)

  // ---- What fences hide ----------------------------------------------------------------------------

  /** The fence that is open after one more line. */
  function NextFence(fence: Option<Fence>, line: string): Option<Fence> {
    if fence.Some? then (if IsClosingFence(line, fence.value) then None else fence) else ParseOpeningFence(line)
  }

  predicate Shows(fence: Option<Fence>, line: string) { fence.None? && ParseOpeningFence(line).None? }

  function FenceAfter(fence: Option<Fence>, lines: seq<string>): Option<Fence>
    decreases |lines|
  {
    if lines == [] then fence else NextFence(FenceAfter(fence, lines[..|lines| - 1]), lines[|lines| - 1])
  }

  /** The lines outside every fence, fence lines themselves left out. */
  function Visible(fence: Option<Fence>, lines: seq<string>): seq<string>
    decreases |lines|
  {
    if lines == [] then []
    else
      var front, last := lines[..|lines| - 1], lines[|lines| - 1];
      Visible(fence, front) + if Shows(FenceAfter(fence, front), last) then [last] else []
  }

  // ---- What the visible lines hold -----------------------------------------------------------------

  datatype Box = Box(checkbox: Checkbox, task: Option<TaskRef>)

  function SectionAfter(lines: seq<string>): Section {
    if lines == [] then Other
    else
      var last := lines[|lines| - 1];
      if IsBoundary(last) then SectionHeading(last) else SectionAfter(lines[..|lines| - 1])
  }

  /** The numbered checkboxes of the two sections. */
  function StructuredBoxes(lines: seq<string>): seq<Box> {
    if lines == [] then []
    else
      var front, last := lines[..|lines| - 1], lines[|lines| - 1];
      var section := SectionAfter(front);
      var box := ParseStructuredCheckbox(last, section);
      StructuredBoxes(front) +
      if IsBoundary(last) || section == Other || box.None? then []
      else [Box(box.value, BuildTaskRef(section, box.value.text))]
  }

  function SimpleBoxes(lines: seq<string>): seq<Box> {
    if lines == [] then []
    else
      var box := ParseSimpleCheckbox(lines[|lines| - 1]);
      SimpleBoxes(lines[..|lines| - 1]) + if box.None? then [] else [Box(box.value, None)]
  }

  function Unchecked(boxes: seq<Box>): seq<Box> {
    if boxes == [] then []
    else Unchecked(boxes[..|boxes| - 1]) + if boxes[|boxes| - 1].checkbox.checked then [] else [boxes[|boxes| - 1]]
  }

  function NextLabel(boxes: seq<Box>): Option<string> {
    if Unchecked(boxes) == [] then None else Some(Unchecked(boxes)[0].checkbox.text)
  }

  function NextTask(boxes: seq<Box>): Option<TaskRef> {
    if Unchecked(boxes) == [] then None else Unchecked(boxes)[0].task
  }

  function Summary(boxes: seq<Box>): Checklist {
    Checklist(|boxes| - |Unchecked(boxes)|, |Unchecked(boxes)|, |boxes|, NextLabel(boxes))
  }

  predicate HasSection(lines: seq<string>) { exists line :: line in lines && SectionHeading(line) != Other }

  /** The structured reading when some section heading is visible, the simple one otherwise. */
  function Judged(visible: seq<string>): (Checklist, Option<TaskRef>) {
    if HasSection(visible) then (Summary(StructuredBoxes(visible)), NextTask(StructuredBoxes(visible)))
    else (Summary(SimpleBoxes(visible)), None)
  }

  /** The plan's checklist and next numbered task. */
  function Parsed(lines: seq<string>): (Checklist, Option<TaskRef>) { Judged(Visible(None, lines)) }

  // ---- The scanners --------------------------------------------------------------------------------

  lemma {:induction false} OneMoreLine(lines: seq<string>, i: nat)
    requires i < |lines|
    ensures var seen, next := lines[..i], lines[..i + 1];
      var fence := FenceAfter(None, seen);
      FenceAfter(None, next) == NextFence(fence, lines[i]) &&
      Visible(None, next) == Visible(None, seen) + if Shows(fence, lines[i]) then [lines[i]] else []
  {
    assert lines[..i + 1][..i] == lines[..i];
  }

  lemma {:induction false} OneMoreVisible(lines: seq<string>, line: string)
    ensures SectionAfter(lines + [line]) == if IsBoundary(line) then SectionHeading(line) else SectionAfter(lines)
    ensures var box := ParseStructuredCheckbox(line, SectionAfter(lines));
      StructuredBoxes(lines + [line]) == StructuredBoxes(lines) +
        if IsBoundary(line) || SectionAfter(lines) == Other || box.None? then []
        else [Box(box.value, BuildTaskRef(SectionAfter(lines), box.value.text))]
    ensures SimpleBoxes(lines + [line]) == SimpleBoxes(lines) +
        if ParseSimpleCheckbox(line).None? then [] else [Box(ParseSimpleCheckbox(line).value, None)]
  {
    assert (lines + [line])[..|lines|] == lines;
  }

  lemma {:induction false} OneMoreBox(boxes: seq<Box>, box: Box)
    ensures var was, now := Unchecked(boxes), Unchecked(boxes + [box]);
      now == was + if box.checkbox.checked then [] else [box]
    ensures NextLabel(boxes + [box]) ==
      if NextLabel(boxes).Some? || box.checkbox.checked then NextLabel(boxes) else Some(box.checkbox.text)
    ensures NextTask(boxes + [box]) ==
      if NextLabel(boxes).Some? || box.checkbox.checked then NextTask(boxes) else box.task
  {
    assert (boxes + [box])[..|boxes|] == boxes;
  }

  method HasStructuredSection(lines: seq<string>) returns (found: bool)
    ensures found == HasSection(Visible(None, lines))
  {
    hide SectionHeading, IsClosingFence, ParseOpeningFence, Visible, FenceAfter;
    var fence: Option<Fence> := None;
    NothingSeen(lines);
    for i := 0 to |lines|
      invariant fence == FenceAfter(None, lines[..i])
      invariant !HasSection(Visible(None, lines[..i]))
    {
      var line := lines[i];
      OneMoreLine(lines, i);
      if fence.Some? {
        if IsClosingFence(line, fence.value) {
          fence := None;
        }
        continue;
      }
      var openingFence := ParseOpeningFence(line);
      if openingFence.Some? {
        fence := openingFence;
        continue;
      }
      if SectionHeading(line) != Other {
        VisibleStays(lines, i + 1);
        assert line in Visible(None, lines[..i + 1]);
        return true;
      }
    }
    assert lines[..|lines|] == lines;
    return false;
  }

  lemma {:induction false} NothingSeen(lines: seq<string>)
    ensures FenceAfter(None, lines[..0]) == None && Visible(None, lines[..0]) == []
    ensures StructuredBoxes([]) == SimpleBoxes([]) == Unchecked([]) == [] && SectionAfter([]) == Other
  {
  }

  lemma {:induction false} VisibleStays(lines: seq<string>, i: nat)
    requires i <= |lines|
    ensures Visible(None, lines[..i]) <= Visible(None, lines)
    decreases |lines| - i
  {
    if i == |lines| {
      assert lines[..i] == lines;
    } else {
      OneMoreLine(lines, i);
      VisibleStays(lines, i + 1);
    }
  }

  method ParseStructuredPlan(lines: seq<string>) returns (checklist: Checklist, nextTask: Option<TaskRef>)
    ensures checklist == Summary(StructuredBoxes(Visible(None, lines)))
    ensures nextTask == NextTask(StructuredBoxes(Visible(None, lines)))
  {
    hide IsClosingFence, ParseOpeningFence, Visible, FenceAfter, StructuredBoxes, SectionAfter, Unchecked, NextLabel,
      NextTask;
    hide SectionHeading, ParseStructuredCheckbox, BuildTaskRef, IsBoundary;
    var remaining, total := 0, 0;
    var nextTaskLabel: Option<string> := None;
    nextTask := None;
    var section := Other;
    var fence: Option<Fence> := None;
    ghost var seen: seq<string> := [];
    ghost var boxes: seq<Box> := [];
    NothingSeen(lines);
    NothingNext();
    for i := 0 to |lines|
      invariant fence == FenceAfter(None, lines[..i]) && seen == Visible(None, lines[..i])
      invariant section == SectionAfter(seen) && boxes == StructuredBoxes(seen)
      invariant total == |boxes| && remaining == |Unchecked(boxes)|
      invariant nextTaskLabel == NextLabel(boxes) && nextTask == NextTask(boxes)
    {
      var line := lines[i];
      OneMoreLine(lines, i);
      if fence.Some? {
        if IsClosingFence(line, fence.value) {
          fence := None;
        }
        continue;
      }
      var openingFence := ParseOpeningFence(line);
      if openingFence.Some? {
        fence := openingFence;
        continue;
      }
      OneMoreVisible(seen, line);
      seen := seen + [line];
      if IsBoundary(line) {
        section := SectionHeading(line);
        continue;
      }
      if section == Other { continue; }
      var checkbox := ParseStructuredCheckbox(line, section);
      if checkbox.None? { continue; }
      ghost var box := Box(checkbox.value, BuildTaskRef(section, checkbox.value.text));
      OneMoreBox(boxes, box);
      boxes := boxes + [box];
      total := total + 1;
      if checkbox.value.checked { continue; }
      remaining := remaining + 1;
      if nextTaskLabel.None? {
        nextTaskLabel := Some(checkbox.value.text);
        nextTask := BuildTaskRef(section, checkbox.value.text);
      }
    }
    assert lines[..|lines|] == lines;
    checklist := Checklist(total - remaining, remaining, total, nextTaskLabel);
  }

  lemma {:induction false} NothingNext()
    ensures NextLabel([]) == None && NextTask([]) == None
  {
  }

  method ParseSimpleChecklist(lines: seq<string>) returns (checklist: Checklist)
    ensures checklist == Summary(SimpleBoxes(Visible(None, lines)))
  {
    hide IsClosingFence, ParseOpeningFence, Visible, FenceAfter, SimpleBoxes, Unchecked, NextLabel, ParseSimpleCheckbox;
    var remaining, total := 0, 0;
    var nextTaskLabel: Option<string> := None;
    var fence: Option<Fence> := None;
    ghost var seen: seq<string> := [];
    ghost var boxes: seq<Box> := [];
    NothingSeen(lines);
    NothingNext();
    for i := 0 to |lines|
      invariant fence == FenceAfter(None, lines[..i]) && seen == Visible(None, lines[..i])
      invariant boxes == SimpleBoxes(seen)
      invariant total == |boxes| && remaining == |Unchecked(boxes)| && nextTaskLabel == NextLabel(boxes)
    {
      var line := lines[i];
      OneMoreLine(lines, i);
      if fence.Some? {
        if IsClosingFence(line, fence.value) {
          fence := None;
        }
        continue;
      }
      var openingFence := ParseOpeningFence(line);
      if openingFence.Some? {
        fence := openingFence;
        continue;
      }
      OneMoreVisible(seen, line);
      seen := seen + [line];
      var checkbox := ParseSimpleCheckbox(line);
      if checkbox.None? { continue; }
      OneMoreBox(boxes, Box(checkbox.value, None));
      boxes := boxes + [Box(checkbox.value, None)];
      total := total + 1;
      if checkbox.value.checked { continue; }
      remaining := remaining + 1;
      if nextTaskLabel.None? {
        nextTaskLabel := Some(checkbox.value.text);
      }
    }
    assert lines[..|lines|] == lines;
    checklist := Checklist(total - remaining, remaining, total, nextTaskLabel);
  }

  /** The checklist and the next task of a plan. */
  method ParsePlan(markdown: string) returns (checklist: Checklist, nextTask: Option<TaskRef>)
    ensures (checklist, nextTask) == Parsed(SplitLines(markdown))
  {
    var lines := SplitLines(markdown);
    var structured := HasStructuredSection(lines);
    if structured {
      checklist, nextTask := ParseStructuredPlan(lines);
    } else {
      checklist := ParseSimpleChecklist(lines);
      nextTask := None;
    }
  }

  // ---- What the summary promises ---------------------------------------------------------------------

  /** Counts add up, and there is a next label exactly when something remains. */
  lemma {:induction false} SummaryAddsUp(boxes: seq<Box>)
    ensures var c := Summary(boxes);
      c.completed + c.remaining == c.total && 0 <= c.completed && (c.nextTaskLabel == None <==> c.remaining == 0)
  {
    if boxes != [] {
      SummaryAddsUp(boxes[..|boxes| - 1]);
    }
  }

  /** The first unchecked box names the next task. */
  lemma {:induction false} NextIsFirstUnchecked(boxes: seq<Box>, i: nat)
    requires i < |boxes| && !boxes[i].checkbox.checked
    requires forall k :: 0 <= k < i ==> boxes[k].checkbox.checked
    ensures NextLabel(boxes) == Some(boxes[i].checkbox.text) && NextTask(boxes) == boxes[i].task
    decreases |boxes|
  {
    var front, last := boxes[..|boxes| - 1], boxes[|boxes| - 1];
    assert boxes == front + [last];
    OneMoreBox(front, last);
    if i < |front| {
      NextIsFirstUnchecked(front, i);
    } else {
      AllChecked(front);
    }
  }

  lemma {:induction false} AllChecked(boxes: seq<Box>)
    requires forall k :: 0 <= k < |boxes| ==> boxes[k].checkbox.checked
    ensures Unchecked(boxes) == []
  {
    if boxes != [] {
      AllChecked(boxes[..|boxes| - 1]);
    }
  }

  /** A structured checkbox always names a task, and number and title make up its label. */
  lemma {:induction false} CheckboxesNameTasks(line: string, section: Section)
    requires ParseStructuredCheckbox(line, section).Some?
    ensures var text := ParseStructuredCheckbox(line, section).value.text;
      var task := BuildTaskRef(section, text);
      task.Some? && text == task.value.number + ". " + task.value.title && task.value.title != ""
  {
    var text := line[6..];
    var end := NumberEnd(section, text).value;
    assert text == text[..end] + ". " + text[end + 2..];
  }

  // ---- Fenced blocks ---------------------------------------------------------------------------------

  lemma {:induction false} Resume(fence: Option<Fence>, a: seq<string>, b: seq<string>)
    ensures FenceAfter(fence, a + b) == FenceAfter(FenceAfter(fence, a), b)
    ensures Visible(fence, a + b) == Visible(fence, a) + Visible(FenceAfter(fence, a), b)
    decreases |b|
  {
    hide NextFence, Shows;
    if b == [] {
      assert a + b == a;
    } else {
      var front, last := b[..|b| - 1], b[|b| - 1];
      assert (a + b)[..|a + b| - 1] == a + front;
      Resume(fence, a, front);
    }
  }

  /** A block that opens with a fence, has no closing line inside, and closes at its end. */
  predicate ClosedBlock(block: seq<string>) {
    |block| >= 2 &&
    var fence := ParseOpeningFence(block[0]);
    fence.Some? && IsClosingFence(block[|block| - 1], fence.value) &&
    forall i :: 1 <= i < |block| - 1 ==> !IsClosingFence(block[i], fence.value)
  }

  /** While nothing closes the fence, it stays open and hides everything. */
  lemma {:induction false} StaysOpen(fence: Fence, lines: seq<string>)
    requires forall i :: 0 <= i < |lines| ==> !IsClosingFence(lines[i], fence)
    ensures FenceAfter(Some(fence), lines) == Some(fence) && Visible(Some(fence), lines) == []
  {
    if lines != [] {
      StaysOpen(fence, lines[..|lines| - 1]);
    }
  }

  lemma {:induction false} ClosedBlockIsInvisible(block: seq<string>)
    requires ClosedBlock(block)
    ensures FenceAfter(None, block) == None && Visible(None, block) == []
  {
    hide IsClosingFence, ParseOpeningFence;
    var open, inside, close := [block[0]], block[1..|block| - 1], [block[|block| - 1]];
    var fence := ParseOpeningFence(block[0]).value;
    assert block == open + (inside + close);
    Resume(None, open, inside + close);
    Resume(Some(fence), inside, close);
    OneLineSeen(None, block[0]);
    OneLineSeen(Some(fence), block[|block| - 1]);
    StaysOpen(fence, inside);
  }

  lemma {:induction false} OneLineSeen(fence: Option<Fence>, line: string)
    ensures FenceAfter(fence, [line]) == NextFence(fence, line)
    ensures Visible(fence, [line]) == if Shows(fence, line) then [line] else []
  {
    assert [line][..0] == [];
  }

  /** Inserting a closed fenced block anywhere outside a fence changes neither the checklist nor the next task. */
  lemma {:induction false} FencedBlockChangesNothing(before: seq<string>, block: seq<string>, after: seq<string>)
    requires FenceAfter(None, before) == None && ClosedBlock(block)
    ensures Parsed(before + block + after) == Parsed(before + after)
  {
    hide ClosedBlock, Visible, FenceAfter, Judged;
    ClosedBlockIsInvisible(block);
    Resume(None, before, after);
    Resume(None, before, block);
    Resume(None, before + block, after);
    assert Visible(None, before) + [] == Visible(None, before);
  }

  /** An opening fence that nothing closes hides the rest of the plan. */
  lemma {:induction false} OpenFenceHidesTheRest(before: seq<string>, open: string, rest: seq<string>)
    requires FenceAfter(None, before) == None && ParseOpeningFence(open).Some?
    requires forall i :: 0 <= i < |rest| ==> !IsClosingFence(rest[i], ParseOpeningFence(open).value)
    ensures Parsed(before + [open] + rest) == Parsed(before)
  {
    hide Visible, FenceAfter, ParseOpeningFence, IsClosingFence, Judged;
    OneLineSeen(None, open);
    Resume(None, before, [open]);
    Resume(None, before + [open], rest);
    StaysOpen(ParseOpeningFence(open).value, rest);
    assert Visible(None, before) + [] + [] == Visible(None, before);
  }
}
