/** Round trip of the event-stream codec for full frames: event lines, data lines, comments, and lines it ignores. */
module SseFrames {
  import opened Wrappers
  import opened Text
  import opened Sse

  // ---- Frames and their text -----------------------------------------------------------------------

  datatype Line =
    | Name(blanks: string, name: string)
    | Row(spaced: bool, row: string)
    | Comment(text: string)
    | Unknown(text: string)

  function Written(line: Line): string {
    match line
    case Name(blanks, name) => "event:" + blanks + name
    case Row(spaced, row) => (if spaced then "data: " else "data:") + row
    case Comment(text) => ":" + text
    case Unknown(text) => text
  }

  /** A line of one frame: what a writer may put into it so that it can be read back. */
  predicate WellFormed(line: Line) {
    && '\n' !in Written(line) && '\r' !in Written(line)
    && match line
       case Name(blanks, name) => (forall c :: c in blanks ==> IsSpace(c)) && (name != "" ==> !IsSpace(name[0]))
       case Row(spaced, row) => spaced || row == "" || row[0] != ' '
       case Comment(_) => true
       case Unknown(text) => text != "" && text[0] != ':' && !("event:" <= text) && !("data:" <= text)
  }

  ghost predicate Frame(lines: seq<Line>) { forall line :: line in lines ==> WellFormed(line) }

  /** The text of these lines, each behind its line end. */
  function TextOfLines(lines: seq<Line>, eol: string): string {
    if lines == [] then "" else Written(lines[0]) + eol + TextOfLines(lines[1..], eol)
  }

  /** The text of these frames, an empty line behind each. */
  function TextOf(frames: seq<seq<Line>>, eol: string): string {
    if frames == [] then "" else TextOfLines(frames[0], eol) + eol + TextOf(frames[1..], eol)
  }

  // ---- What they say -------------------------------------------------------------------------------

  /** The last event line names the event. */
  function NameOf(lines: seq<Line>): Option<string> {
    if lines == [] then None
    else
      var last := lines[|lines| - 1];
      if last.Name? then Some(last.name) else NameOf(lines[..|lines| - 1])
  }

  function RowsOf(lines: seq<Line>): seq<string> {
    if lines == [] then []
    else
      var last := lines[|lines| - 1];
      RowsOf(lines[..|lines| - 1]) + if last.Row? then [last.row] else []
  }

  /** A frame without data lines is no event. */
  function EventOf(lines: seq<Line>): seq<SseEvent> {
    if RowsOf(lines) == [] then [] else [SseEvent(NameOf(lines), Join(RowsOf(lines), "\n"))]
  }

  function EventsOf(frames: seq<seq<Line>>): seq<SseEvent> {
    if frames == [] then [] else EventOf(frames[0]) + EventsOf(frames[1..])
  }

  // ---- One line ------------------------------------------------------------------------------------

  lemma {:induction false} TrimmedBlanks(blanks: string, name: string)
    requires forall c :: c in blanks ==> IsSpace(c)
    requires name != "" ==> !IsSpace(name[0])
    ensures TrimStart(blanks + name) == name
  {
    if blanks == "" {
      assert blanks + name == name;
    } else {
      assert blanks[0] in blanks && (blanks + name)[1..] == blanks[1..] + name;
      TrimmedBlanks(blanks[1..], name);
    }
  }

  lemma {:induction false} LineIsRead(f: Fields, line: Line)
    requires WellFormed(line)
    ensures Written(line) != ""
    ensures Feed(f, Written(line)) ==
      match line {
        case Name(_, name) => Fields(Some(name), f.data)
        case Row(_, row) => Fields(f.event, f.data + [row])
        case Comment(_) => f
        case Unknown(_) => f
      }
  {
    var text := Written(line);
    match line
    case Name(blanks, name) =>
      assert text == "event:" + (blanks + name) && text[..6] == "event:" && text[6..] == blanks + name;
      TrimmedBlanks(blanks, name);
    case Row(spaced, row) =>
      assert text[..5] == "data:" && text[5..] == (if spaced then " " else "") + row;
      assert text[0] == 'd';
      assert spaced ==> text[5..][1..] == row;
    case Comment(_) =>
    case Unknown(_) =>
  }

  function WrittenAll(lines: seq<Line>): seq<string> {
    if lines == [] then [] else WrittenAll(lines[..|lines| - 1]) + [Written(lines[|lines| - 1])]
  }

  lemma {:induction false} FeedMore(f: Fields, lines: seq<string>, line: string)
    ensures FeedAll(f, lines + [line]) == Feed(FeedAll(f, lines), line)
    decreases |lines|
  {
    hide Feed;
    if lines == [] {
      assert [] + [line] == [line] && [line][1..] == [];
    } else {
      assert (lines + [line])[1..] == lines[1..] + [line];
      FeedMore(Feed(f, lines[0]), lines[1..], line);
    }
  }

  lemma {:induction false} FrameIsRead(lines: seq<Line>)
    requires Frame(lines)
    ensures FeedAll(Empty, WrittenAll(lines)) == Fields(NameOf(lines), RowsOf(lines))
    ensures forall i :: 0 <= i < |WrittenAll(lines)| ==> WrittenAll(lines)[i] != ""
  {
    hide Feed, WellFormed, Written;
    if lines != [] {
      var front, last := lines[..|lines| - 1], lines[|lines| - 1];
      assert last in lines && forall line :: line in front ==> line in lines;
      FrameIsRead(front);
      LineIsRead(FeedAll(Empty, WrittenAll(front)), last);
      FeedMore(Empty, WrittenAll(front), Written(last));
    }
  }

  // ---- Many lines ----------------------------------------------------------------------------------

  lemma {:induction false} WrittenFirst(lines: seq<Line>)
    requires lines != []
    ensures WrittenAll(lines) == [Written(lines[0])] + WrittenAll(lines[1..])
  {
    hide Written;
    var front := lines[..|lines| - 1];
    if front == [] {
      assert WrittenAll(front) == [];
    } else {
      WrittenFirst(front);
      assert lines[1..][..|lines| - 2] == front[1..];
    }
  }

  lemma {:induction false} LinesAreSplit(lines: seq<Line>, more: string)
    requires Frame(lines)
    ensures Split(TextOfLines(lines, "\n") + more, '\n') == WrittenAll(lines) + Split(more, '\n')
  {
    hide Split, Written;
    if lines == [] {
      assert TextOfLines(lines, "\n") + more == more;
    } else {
      var first := Written(lines[0]);
      var rest := TextOfLines(lines[1..], "\n") + more;
      assert lines[0] in lines && forall line :: line in lines[1..] ==> line in lines;
      assert TextOfLines(lines, "\n") + more == first + ['\n'] + rest;
      SplitAtSeparator(first, '\n', rest);
      SplitOne(first, '\n');
      LinesAreSplit(lines[1..], more);
      WrittenFirst(lines);
    }
  }

  lemma {:induction false} FrameIsDispatched(lines: seq<Line>, more: string)
    requires Frame(lines)
    ensures Dispatched(Empty, Split(TextOfLines(lines, "\n") + "\n" + more, '\n')) ==
      EventOf(lines) + Dispatched(Empty, Split(more, '\n'))
  {
    hide Split, FeedAll, Feed, Dispatched, WellFormed, Written;
    LinesAreSplit(lines, "\n" + more);
    assert TextOfLines(lines, "\n") + "\n" + more == TextOfLines(lines, "\n") + ("\n" + more);
    SplitCons('\n', more, '\n');
    assert WrittenAll(lines) + ([[]] + Split(more, '\n')) == WrittenAll(lines) + [""] + Split(more, '\n');
    FrameIsRead(lines);
    DispatchBlock(Empty, WrittenAll(lines), Split(more, '\n'));
  }

  lemma {:induction false} TailIsDispatched(lines: seq<Line>)
    requires Frame(lines)
    ensures Dispatched(Empty, Split(TextOfLines(lines, "\n"), '\n')) == EventOf(lines)
  {
    hide Split, FeedAll, Feed, Dispatched, WellFormed, Written;
    LinesAreSplit(lines, "");
    assert TextOfLines(lines, "\n") + "" == TextOfLines(lines, "\n");
    SplitOne("", '\n');
    assert WrittenAll(lines) + [""] == WrittenAll(lines) + [""] + [];
    FrameIsRead(lines);
    DispatchBlock(Empty, WrittenAll(lines), []);
    DispatchedNothing();
  }

  lemma {:induction false} FramesAreDispatched(frames: seq<seq<Line>>, tail: seq<Line>)
    requires (forall frame :: frame in frames ==> Frame(frame)) && Frame(tail)
    ensures Dispatched(Empty, Split(TextOf(frames, "\n") + TextOfLines(tail, "\n"), '\n')) ==
      EventsOf(frames) + EventOf(tail)
  {
    hide Split, Dispatched, Frame, EventOf, TextOfLines;
    if frames == [] {
      assert TextOf(frames, "\n") + TextOfLines(tail, "\n") == TextOfLines(tail, "\n");
      TailIsDispatched(tail);
    } else {
      var more := TextOf(frames[1..], "\n") + TextOfLines(tail, "\n");
      assert TextOf(frames, "\n") + TextOfLines(tail, "\n") == TextOfLines(frames[0], "\n") + "\n" + more;
      FrameIsDispatched(frames[0], more);
      FramesAreDispatched(frames[1..], tail);
    }
  }

  // ---- Line ends -----------------------------------------------------------------------------------

  predicate NoCr(s: string) { '\r' !in s }

  lemma {:induction false} CleanText(s: string)
    requires NoCr(s)
    ensures NoCrLf(s) && Normalize(s) == s && !EndsWith(s, '\r')
  {
    assert forall i :: 0 <= i < |s| ==> s[i] in s;
    NormalizeClean(s);
  }

  /** This text, with CR LF where the other has LF. */
  ghost predicate Ended(text: string, clean: string) {
    NoCr(clean) && Normalize(text) == clean && NoCrCrLf(text)
  }

  lemma {:induction false} EndedMore(line: string, text: string, clean: string)
    requires NoCr(line) && Ended(text, clean)
    ensures Ended(line + "\r\n" + text, line + "\n" + clean)
  {
    var all := line + "\r\n" + text;
    CleanText(line);
    CleanText("\n");
    NormalizeSeam(line, "\n");
    assert line + "\r\n" == line + ['\r'] + "\n";
    NormalizeAppend(line + "\r\n", text);
    assert forall i :: 0 <= i < |line| ==> all[i] == line[i] && line[i] in line;
    forall i ensures !CrCrLfAt(all, i) {
      assert i >= |line| + 2 && CrCrLfAt(all, i) ==> CrCrLfAt(text, i - |line| - 2);
    }
  }

  lemma {:induction false} LinesEnded(lines: seq<Line>, text: string, clean: string)
    requires Frame(lines) && Ended(text, clean)
    ensures Ended(TextOfLines(lines, "\r\n") + text, TextOfLines(lines, "\n") + clean)
  {
    hide Ended, Written;
    if lines == [] {
      assert TextOfLines(lines, "\r\n") + text == text && TextOfLines(lines, "\n") + clean == clean;
    } else {
      assert lines[0] in lines && forall line :: line in lines[1..] ==> line in lines;
      LinesEnded(lines[1..], text, clean);
      var first := Written(lines[0]);
      EndedMore(first, TextOfLines(lines[1..], "\r\n") + text, TextOfLines(lines[1..], "\n") + clean);
      assert TextOfLines(lines, "\r\n") + text == first + "\r\n" + (TextOfLines(lines[1..], "\r\n") + text);
      assert TextOfLines(lines, "\n") + clean == first + "\n" + (TextOfLines(lines[1..], "\n") + clean);
    }
  }

  lemma {:induction false} NothingEnded()
    ensures Ended("", "")
  {
  }

  lemma {:induction false} FramesEnded(frames: seq<seq<Line>>, tail: seq<Line>)
    requires (forall frame :: frame in frames ==> Frame(frame)) && Frame(tail)
    ensures Ended(TextOf(frames, "\r\n") + TextOfLines(tail, "\r\n"), TextOf(frames, "\n") + TextOfLines(tail, "\n"))
  {
    hide Ended, Frame, TextOfLines;
    if frames == [] {
      NothingEnded();
      LinesEnded(tail, "", "");
      assert TextOf(frames, "\r\n") + TextOfLines(tail, "\r\n") == TextOfLines(tail, "\r\n") + "";
      assert TextOf(frames, "\n") + TextOfLines(tail, "\n") == TextOfLines(tail, "\n") + "";
    } else {
      var text := TextOf(frames[1..], "\r\n") + TextOfLines(tail, "\r\n");
      var clean := TextOf(frames[1..], "\n") + TextOfLines(tail, "\n");
      FramesEnded(frames[1..], tail);
      NoCrInNothing();
      EndedMore("", text, clean);
      LinesEnded(frames[0], "" + "\r\n" + text, "" + "\n" + clean);
      assert TextOf(frames, "\r\n") + TextOfLines(tail, "\r\n") ==
        TextOfLines(frames[0], "\r\n") + ("" + "\r\n" + text);
      assert TextOf(frames, "\n") + TextOfLines(tail, "\n") == TextOfLines(frames[0], "\n") + ("" + "\n" + clean);
    }
  }

  lemma {:induction false} NoCrInNothing()
    ensures NoCr("")
  {
  }

  lemma {:induction false} CleanOfItself(text: string)
    requires NoCr(text)
    ensures Ended(text, text)
  {
    CleanText(text);
    forall i ensures !CrCrLfAt(text, i) {
      assert 0 <= i < |text| ==> text[i] in text;
    }
  }

  lemma {:induction false} CleanSide(text: string, clean: string)
    requires Ended(text, clean)
    ensures NoCr(clean)
  {
  }

  /**
   * Any chunking of full frames, with LF or with CR LF, decodes to their events in order: the name of the last event
   * line, without the blanks in front, and the data rows joined; lines of a last frame count without its empty line.
   */
  lemma {:induction false} FramesComeBack(frames: seq<seq<Line>>, tail: seq<Line>, eol: string, pieces: seq<string>)
    requires (forall frame :: frame in frames ==> Frame(frame)) && Frame(tail)
    requires eol == "\n" || eol == "\r\n"
    requires Upto(pieces, |pieces|) == TextOf(frames, eol) + TextOfLines(tail, eol)
    ensures Streamed(pieces) == EventsOf(frames) + EventOf(tail)
  {
    hide Streamed, Dispatched, Split, Normalize, TextOf, TextOfLines, Frame, EventOf, EventsOf;
    var text, clean := TextOf(frames, eol) + TextOfLines(tail, eol), TextOf(frames, "\n") + TextOfLines(tail, "\n");
    FramesEnded(frames, tail);
    CleanSide(TextOf(frames, "\r\n") + TextOfLines(tail, "\r\n"), clean);
    CleanOfItself(clean);
    assert Ended(text, clean);
    StreamedIsLineByLine(pieces);
    FramesAreDispatched(frames, tail);
  }
}
