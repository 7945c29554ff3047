/** Tagged lines handed on in chunks while the text is still arriving. */
module HashlineStream {
  import opened Wrappers
  import opened Text
  import opened HashlineFormat

  function CharBytes(c: char): nat {
    var code := c as int;
    if code < 0x80 then 1 else if code < 0x800 then 2 else if code < 0x10000 then 3 else 4
  }

  /** The length of the UTF-8 form. */
  function ByteLength(s: string): nat {
    if s == "" then 0 else ByteLength(s[..|s| - 1]) + CharBytes(s[|s| - 1])
  }

  function ConcatGroups(groups: seq<seq<string>>): seq<string> {
    if groups == [] then [] else ConcatGroups(groups[..|groups| - 1]) + groups[|groups| - 1]
  }

  function JoinGroups(groups: seq<seq<string>>): (chunks: seq<string>)
    ensures |chunks| == |groups|
    ensures forall i :: 0 <= i < |groups| ==> chunks[i] == Join(groups[i], "\n")
  {
    seq(|groups|, i requires 0 <= i < |groups| => Join(groups[i], "\n"))
  }

  lemma {:induction false} ByteLengthAppend(a: string, b: string)
    ensures ByteLength(a + b) == ByteLength(a) + ByteLength(b)
  {
    if b == "" {
      assert a + b == a;
    } else {
      assert (a + b)[..|a + b| - 1] == a + b[..|b| - 1];
      ByteLengthAppend(a, b[..|b| - 1]);
    }
  }

  lemma {:induction false} JoinSnoc(lines: seq<string>, line: string)
    ensures Join(lines + [line], "\n") == if lines == [] then line else Join(lines, "\n") + "\n" + line
    ensures ByteLength(Join(lines + [line], "\n")) ==
      (if lines == [] then 0 else ByteLength(Join(lines, "\n")) + 1) + ByteLength(line)
  {
    JoinAppend(lines, [line], "\n");
    assert ByteLength("\n") == 1 by {
      assert "\n"[..0] == "";
    }
    ByteLengthAppend(Join(lines, "\n"), "\n");
    ByteLengthAppend(Join(lines, "\n") + "\n", line);
  }

  lemma {:induction false} EmptyChunk()
    ensures Join([], "\n") == "" && ByteLength("") == 0
  {
  }

  /** A chunk keeps to both limits unless it is a single line. */
  predicate Fits(group: seq<string>, maxLines: int, maxBytes: int) {
    group != [] && (|group| == 1 || (|group| <= maxLines && ByteLength(Join(group, "\n")) <= maxBytes))
  }

  /** No chunk could have taken the first line of the next one as well. */
  ghost predicate Adjacent(groups: seq<seq<string>>, maxLines: int, maxBytes: int) {
    && (forall i :: 0 <= i < |groups| ==> groups[i] != [])
    && forall i, j :: 0 <= i && j == i + 1 && j < |groups| ==> !Fits(groups[i] + [groups[j][0]], maxLines, maxBytes)
  }

  /** No line can be added any more. */
  predicate Full(group: seq<string>, maxLines: int, maxBytes: int) {
    |group| >= maxLines || ByteLength(Join(group, "\n")) >= maxBytes
  }

  lemma {:induction false} FullTakesNoMore(group: seq<string>, line: string, maxLines: int, maxBytes: int)
    requires group != []
    requires Full(group, maxLines, maxBytes) ||
      ByteLength(Join(group, "\n")) + 1 + ByteLength(line) > maxBytes
    ensures !Fits(group + [line], maxLines, maxBytes)
  {
    hide ByteLength, Join;
    JoinSnoc(group, line);
  }

  lemma {:induction false} AdjacentMore(groups: seq<seq<string>>, group: seq<string>, maxLines: int, maxBytes: int)
    requires Adjacent(groups, maxLines, maxBytes) && group != []
    requires groups != [] ==> !Fits(groups[|groups| - 1] + [group[0]], maxLines, maxBytes)
    ensures Adjacent(groups + [group], maxLines, maxBytes)
  {
    hide Fits;
  }

  lemma {:induction false} AdjacentLonger(groups: seq<seq<string>>, group: seq<string>, line: string, maxLines: int,
      maxBytes: int)
    requires group != [] && Adjacent(groups + [group], maxLines, maxBytes)
    ensures Adjacent(groups + [group + [line]], maxLines, maxBytes)
  {
    hide Fits;
    var was, now := groups + [group], groups + [group + [line]];
    assert forall i :: 0 <= i < |groups| ==> now[i] == was[i] && was[i] != [];
    assert now[|groups|] != [] && now[|groups|][0] == was[|groups|][0];
    forall i, j | 0 <= i && j == i + 1 && j < |now| ensures !Fits(now[i] + [now[j][0]], maxLines, maxBytes) {
      assert now[i] == was[i] && now[j][0] == was[j][0];
    }
  }

  /** One more line, put behind the lines held or, if they take no more, into a chunk of its own. */
  lemma {:induction false} AdjacentAfter(groups: seq<seq<string>>, held: seq<string>, line: string, maxLines: int,
      maxBytes: int, split: bool)
    requires Adjacent(if held == [] then groups else groups + [held], maxLines, maxBytes)
    requires held == [] && groups != [] ==> Full(groups[|groups| - 1], maxLines, maxBytes)
    requires split ==> held != []
    requires split ==> |held| >= maxLines || ByteLength(Join(held, "\n")) + 1 + ByteLength(line) > maxBytes
    ensures if split then Adjacent(groups + [held] + [[line]], maxLines, maxBytes)
      else Adjacent(groups + [held + [line]], maxLines, maxBytes)
  {
    hide ByteLength, Join, Fits, Adjacent;
    if split {
      FullTakesNoMore(held, line, maxLines, maxBytes);
      AdjacentMore(groups + [held], [line], maxLines, maxBytes);
    } else if held != [] {
      AdjacentLonger(groups, held, line, maxLines, maxBytes);
    } else {
      assert held + [line] == [line];
      if groups != [] {
        NoneIsEmpty(groups, maxLines, maxBytes);
        FullTakesNoMore(groups[|groups| - 1], line, maxLines, maxBytes);
      }
      AdjacentMore(groups, [line], maxLines, maxBytes);
    }
  }

  lemma {:induction false} NoneIsEmpty(groups: seq<seq<string>>, maxLines: int, maxBytes: int)
    requires Adjacent(groups, maxLines, maxBytes)
    ensures forall i :: 0 <= i < |groups| ==> groups[i] != []
  {
  }

  class ChunkFormatter {
    const maxChunkLines: int
    const maxChunkBytes: int
    var outputLines: seq<string>
    var outputBytes: nat
    /** The lines of every chunk handed out so far. */
    ghost var groups: seq<seq<string>>

    ghost predicate Valid()
      reads this
    {
      && outputBytes == ByteLength(Join(outputLines, "\n"))
      && (forall i :: 0 <= i < |groups| ==> Fits(groups[i], maxChunkLines, maxChunkBytes))
      && (outputLines != [] ==> Fits(outputLines, maxChunkLines, maxChunkBytes))
      && forall i :: 0 <= i < |outputLines| ==> outputLines[i] != ""
    }

    /** Every line pushed so far, in order. */
    ghost function Pushed(): seq<string>
      reads this
    {
      ConcatGroups(groups) + outputLines
    }

    /** The chunks handed out and the lines held, which may become the next one. */
    ghost function All(): seq<seq<string>>
      reads this
    {
      if outputLines == [] then groups else groups + [outputLines]
    }

    /** Every chunk so far took as many lines as the limits allow. */
    ghost predicate Tight()
      reads this
    {
      && Adjacent(All(), maxChunkLines, maxChunkBytes)
      && (outputLines == [] && groups != [] ==> Full(groups[|groups| - 1], maxChunkLines, maxChunkBytes))
    }

    constructor (maxChunkLines: int, maxChunkBytes: int)
      ensures Valid() && Pushed() == [] && groups == [] && Tight()
      ensures this.maxChunkLines == maxChunkLines && this.maxChunkBytes == maxChunkBytes
    {
      this.maxChunkLines, this.maxChunkBytes := maxChunkLines, maxChunkBytes;
      outputLines, outputBytes, groups := [], 0, [];
    }

    /** Hands out the lines held as one chunk. */
    method Flush() returns (chunk: Option<string>)
      requires Valid()
      modifies this
      ensures Valid() && Pushed() == old(Pushed()) && outputLines == [] && All() == old(All())
      ensures groups == old(groups) + if chunk.Some? then [old(outputLines)] else []
      ensures chunk == if old(outputLines) == [] then None else Some(Join(old(outputLines), "\n"))
    {
      if |outputLines| == 0 { return None; }
      chunk := Some(Join(outputLines, "\n"));
      assert (groups + [outputLines])[..|groups|] == groups;
      groups := groups + [outputLines];
      outputLines := [];
      outputBytes := 0;
    }

    /** A flushed chunk of non-empty lines is never the empty string, so it is never dropped. */
    method FlushInto(chunks: seq<string>) returns (more: seq<string>)
      requires Valid()
      modifies this
      ensures Valid() && Pushed() == old(Pushed()) && outputLines == [] && All() == old(All())
      ensures groups == old(groups) + if old(outputLines) == [] then [] else [old(outputLines)]
      ensures more == chunks + if old(outputLines) == [] then [] else [Join(old(outputLines), "\n")]
    {
      var flushed := Flush();
      more := chunks;
      if flushed.Some? && flushed.value != "" {
        more := chunks + [flushed.value];
      }
      if old(outputLines) != [] {
        JoinNotEmpty(old(outputLines));
      }
    }

    method Push(formattedLine: string) returns (chunks: seq<string>)
      requires Valid() && formattedLine != ""
      modifies this
      ensures Valid() && Pushed() == old(Pushed()) + [formattedLine]
      ensures var full := old(outputLines) != [] &&
        (|old(outputLines)| >= maxChunkLines || old(outputBytes) + 1 + ByteLength(formattedLine) > maxChunkBytes);
        All() == if full then old(All()) + [[formattedLine]] else old(groups) + [old(outputLines) + [formattedLine]]
      ensures outputLines == [] ==> groups != [] && Full(groups[|groups| - 1], maxChunkLines, maxChunkBytes)
      ensures |groups| >= |old(groups)| && groups[..|old(groups)|] == old(groups)
      ensures chunks == JoinGroups(groups[|old(groups)|..])
    {
      hide ByteLength, Join, ConcatGroups;
      EmptyChunk();
      chunks := [];
      var separatorBytes := if |outputLines| == 0 then 0 else 1;
      var lineBytes := ByteLength(formattedLine);
      if |outputLines| > 0 &&
        (|outputLines| >= maxChunkLines || outputBytes + separatorBytes + lineBytes > maxChunkBytes) {
        chunks := FlushInto(chunks);
      }
      JoinSnoc(outputLines, formattedLine);
      assert [] + [formattedLine] == [formattedLine];
      outputLines := outputLines + [formattedLine];
      outputBytes := outputBytes + (if |outputLines| == 1 then 0 else 1) + lineBytes;
      if |outputLines| >= maxChunkLines || outputBytes >= maxChunkBytes {
        chunks := FlushInto(chunks);
      }
    }
  }

  lemma {:induction false} JoinNotEmpty(lines: seq<string>)
    requires lines != [] && lines[0] != ""
    ensures Join(lines, "\n") != ""
  {
  }

  // ---- Reading lines out of text that arrives in pieces --------------------------------------------

  /** More text only changes the last line. */
  lemma {:induction false} SplitAppend(a: string, b: string, c: char)
    ensures var parts := Split(a, c); Split(a + b, c) == parts[..|parts| - 1] + Split(parts[|parts| - 1] + b, c)
  {
    hide Split;
    if a == "" {
      SplitOne("", c);
      assert a + b == b;
    } else {
      var x, rest := a[0], a[1..];
      assert a == [x] + rest && a + b == [x] + (rest + b);
      SplitCons(x, rest, c);
      SplitCons(x, rest + b, c);
      SplitAppend(rest, b, c);
      if x != c && |Split(rest, c)| == 1 {
        var last := Split(rest, c)[0];
        SplitCons(x, last + b, c);
        assert [x] + last + b == [x] + (last + b);
      } else {
        SameLastPart(x, Split(rest, c), Split(Split(rest, c)[|Split(rest, c)| - 1] + b, c), c);
      }
    }
  }

  /** A character in front of several parts leaves the last one alone. */
  lemma {:induction false} SameLastPart(x: char, parts: seq<string>, more: seq<string>, c: char)
    requires |parts| > 1 || (x == c && |parts| == 1)
    ensures var front := parts[..|parts| - 1];
      var grown := if x == c then [[]] + parts else [[x] + parts[0]] + parts[1..];
      var after := front + more;
      grown[|grown| - 1] == parts[|parts| - 1] &&
      (if x == c then [[]] + after else [[x] + after[0]] + after[1..]) == grown[..|grown| - 1] + more
  {
    if x != c {
      assert (parts[..|parts| - 1] + more)[1..] == parts[1..|parts| - 1] + more;
    }
  }

  /** These are the complete lines of the first `from` characters. */
  predicate CutAt(s: string, lines: seq<string>, from: nat) {
    from <= |s| && Split(s, '\n') == lines + Split(s[from..], '\n')
  }

  lemma {:induction false} CutBegin(s: string)
    ensures CutAt(s, [], 0)
  {
    assert s[0..] == s;
  }

  lemma {:induction false} CutNext(s: string, lines: seq<string>, from: nat, index: nat)
    requires CutAt(s, lines, from)
    requires from <= index < |s| && s[index] == '\n' && '\n' !in s[from..index]
    ensures CutAt(s, lines + [s[from..index]], index + 1)
  {
    hide Split;
    assert s[from..] == s[from..index] + ['\n'] + s[index + 1..];
    SplitAtSeparator(s[from..index], '\n', s[index + 1..]);
    SplitOne(s[from..index], '\n');
  }

  lemma {:induction false} CutEnd(s: string, lines: seq<string>, from: nat)
    requires CutAt(s, lines, from) && '\n' !in s[from..]
    ensures Complete(s) == lines && Pending(s) == s[from..]
  {
    hide Split;
    SplitOne(s[from..], '\n');
  }

  lemma {:induction false} JoinGroupsAppend(a: seq<seq<string>>, b: seq<seq<string>>)
    ensures JoinGroups(a + b) == JoinGroups(a) + JoinGroups(b)
  {
  }

  lemma {:induction false} FormatFromSnoc(start: nat, lines: seq<string>, line: string, tag: Tag)
    ensures FormatFrom(start, lines + [line], tag) ==
      FormatFrom(start, lines, tag) + [FormatHashLine(start + |lines|, line, tag)]
  {
  }

  /** The lines of the text so far that are complete. */
  function Complete(text: string): seq<string> { Split(text, '\n')[..|Split(text, '\n')| - 1] }

  /** What follows the last line end. */
  function Pending(text: string): string { Split(text, '\n')[|Split(text, '\n')| - 1] }

  /** These chunks are what the formatter handed out between the two histories. */
  ghost predicate Yielded(was: seq<seq<string>>, now: seq<seq<string>>, chunks: seq<string>) {
    was <= now && chunks == JoinGroups(now[|was|..])
  }

  lemma {:induction false} YieldedThen(a: seq<seq<string>>, b: seq<seq<string>>, c: seq<seq<string>>, x: seq<string>,
      y: seq<string>)
    requires Yielded(a, b, x) && Yielded(b, c, y)
    ensures Yielded(a, c, x + y)
  {
    JoinGroupsAppend(b[|a|..], c[|b|..]);
    assert c[|a|..] == b[|a|..] + c[|b|..];
  }

  lemma {:induction false} NothingYielded(a: seq<seq<string>>)
    ensures Yielded(a, a, [])
  {
  }

  class LineStreamer {
    const tag: Tag
    const startLine: nat
    const formatter: ChunkFormatter
    var lineNumber: nat
    var pending: string
    var sawAnyText: bool
    var endedWithNewline: bool

    constructor (startLine: nat, maxChunkLines: int, maxChunkBytes: int, tag: Tag)
      ensures fresh(formatter) && formatter.Valid() && formatter.Tight()
      ensures formatter.groups == [] && formatter.Pushed() == []
      ensures formatter.maxChunkLines == maxChunkLines && formatter.maxChunkBytes == maxChunkBytes
      ensures this.startLine == startLine && this.tag == tag && After("")
    {
      this.startLine, this.tag := startLine, tag;
      formatter := new ChunkFormatter(maxChunkLines, maxChunkBytes);
      lineNumber, pending, sawAnyText, endedWithNewline := startLine, "", false, false;
      new;
      SplitOne("", '\n');
    }

    /** These lines were pushed. */
    ghost predicate At(lines: seq<string>)
      reads this`lineNumber, formatter
    {
      && formatter.Valid() && formatter.Tight()
      && formatter.Pushed() == FormatFrom(startLine, lines, tag) && lineNumber == startLine + |lines|
    }

    /** The state after this much text: its complete lines were pushed, the rest is pending. */
    ghost predicate After(text: string)
      reads this, formatter
    {
      && At(Complete(text))
      && pending == Pending(text)
      && (sawAnyText <==> text != "")
      && (text != "" && pending == "" ==> endedWithNewline)
    }

    method PushLine(line: string, ghost lines: seq<string>) returns (chunks: seq<string>)
      requires At(lines)
      modifies `lineNumber, formatter
      ensures At(lines + [line]) && Yielded(old(formatter.groups), formatter.groups, chunks)
    {
      hide ByteLength, Join, Fits, Adjacent, FormatFrom, ConcatGroups, FormatHashLine;
      var formatted := FormatHashLine(lineNumber, line, tag);
      lineNumber := lineNumber + 1;
      FormatFromSnoc(startLine, lines, line, tag);
      ghost var f := formatter;
      ghost var full := f.outputLines != [] &&
        (|f.outputLines| >= f.maxChunkLines || f.outputBytes + 1 + ByteLength(formatted) > f.maxChunkBytes);
      AdjacentAfter(f.groups, f.outputLines, formatted, f.maxChunkLines, f.maxChunkBytes, full);
      chunks := formatter.Push(formatted);
    }

    /** Pushes every complete line of the pending text and keeps the rest. */
    method PushComplete(ghost lines: seq<string>) returns (chunks: seq<string>)
      requires At(lines)
      modifies this, formatter
      ensures At(lines + Complete(old(pending))) && Yielded(old(formatter.groups), formatter.groups, chunks)
      ensures pending == Pending(old(pending)) && sawAnyText == old(sawAnyText)
      ensures old(pending) != "" && pending == "" ==> endedWithNewline
    {
      hide CutAt, Yielded, At, Complete, Pending;
      ghost var was := formatter.groups;
      ghost var pushed: seq<string> := [];
      NothingYielded(was);
      CutBegin(pending);
      chunks := [];
      var lastIdx := 0;
      var idx := IndexFrom(pending, '\n', 0);
      assert lines + [] == lines;
      while idx != -1
        invariant lastIdx <= |pending| && idx == IndexFrom(pending, '\n', lastIdx)
        invariant pending == old(pending) && sawAnyText == old(sawAnyText)
        invariant At(lines + pushed) && Yielded(was, formatter.groups, chunks) && CutAt(pending, pushed, lastIdx)
        invariant lastIdx > 0 ==> endedWithNewline
        decreases |pending| - lastIdx
      {
        hide IndexFrom;
        var line := pending[lastIdx..idx];
        CutNext(pending, pushed, lastIdx, idx);
        lastIdx := idx + 1;
        endedWithNewline := true;
        ghost var soFar := formatter.groups;
        var more := PushLine(line, lines + pushed);
        assert lines + pushed + [line] == lines + (pushed + [line]);
        pushed := pushed + [line];
        YieldedThen(was, soFar, formatter.groups, chunks, more);
        chunks := chunks + more;
        idx := IndexFrom(pending, '\n', lastIdx);
      }
      CutEnd(pending, pushed, lastIdx);
      pending := pending[lastIdx..];
      if |pending| > 0 {
        endedWithNewline := false;
      }
    }

    method ConsumeText(text: string, ghost before: string) returns (chunks: seq<string>)
      requires After(before)
      modifies this, formatter
      ensures After(before + text) && Yielded(old(formatter.groups), formatter.groups, chunks)
    {
      hide Split, Yielded, At, FormatFrom;
      if |text| == 0 {
        assert before + text == before;
        NothingYielded(formatter.groups);
        return [];
      }
      sawAnyText := true;
      pending := pending + text;
      chunks := PushComplete(Complete(before));
      SplitAppend(before, text, '\n');
      assert Complete(before + text) == Complete(before) + Complete(Pending(before) + text);
    }

    /** Pushes an unfinished last line, or the empty one after a final line end, and hands out what is still held. */
    method Finish(ghost text: string) returns (chunks: seq<string>)
      requires After(text)
      modifies this, formatter
      ensures formatter.Valid() && formatter.outputLines == []
      ensures Adjacent(formatter.groups, formatter.maxChunkLines, formatter.maxChunkBytes)
      ensures formatter.Pushed() == if text == "" then [] else FormatFrom(startLine, Split(text, '\n'), tag)
      ensures Yielded(old(formatter.groups), formatter.groups, chunks)
    {
      hide Split, Yielded, FormatFrom;
      ghost var was := formatter.groups;
      NothingYielded(was);
      chunks := [];
      if sawAnyText && (|pending| > 0 || endedWithNewline) {
        assert Split(text, '\n') == Complete(text) + [Pending(text)];
        chunks := PushLine(pending, Complete(text));
      } else {
        SplitOne("", '\n');
        assert FormatFrom(startLine, [], tag) == [];
      }
      ghost var soFar := formatter.groups;
      var last := formatter.FlushInto([]);
      LastYielded(soFar, formatter.groups, last);
      YieldedThen(was, soFar, formatter.groups, chunks, last);
      chunks := chunks + last;
    }
  }

  lemma {:induction false} LastYielded(was: seq<seq<string>>, now: seq<seq<string>>, last: seq<string>)
    requires was <= now && |now| <= |was| + 1
    requires last == if |now| == |was| then [] else [Join(now[|was|], "\n")]
    ensures Yielded(was, now, last)
  {
  }

  lemma {:induction false} ConcatGroupsSnoc(groups: seq<seq<string>>, group: seq<string>)
    ensures ConcatGroups(groups + [group]) == ConcatGroups(groups) + group
    ensures JoinGroups(groups + [group]) == JoinGroups(groups) + [Join(group, "\n")]
  {
    assert (groups + [group])[..|groups|] == groups;
  }

  /** Joining the chunks is joining all their lines. */
  lemma {:induction false} JoinOfChunks(groups: seq<seq<string>>)
    requires forall i :: 0 <= i < |groups| ==> groups[i] != []
    ensures Join(JoinGroups(groups), "\n") == Join(ConcatGroups(groups), "\n")
    ensures ConcatGroups(groups) == [] <==> groups == []
  {
    hide Join;
    if groups == [] {
    } else {
      var front, last := groups[..|groups| - 1], groups[|groups| - 1];
      assert groups == front + [last];
      ConcatGroupsSnoc(front, last);
      JoinOfChunks(front);
      JoinAppend(ConcatGroups(front), last, "\n");
      JoinSnoc(JoinGroups(front), Join(last, "\n"));
    }
  }

  lemma {:induction false} ConcatUpto(pieces: seq<string>, k: nat)
    requires k < |pieces|
    ensures Concat(pieces[..k + 1]) == Concat(pieces[..k]) + pieces[k]
  {
    assert pieces[..k + 1] == pieces[..k] + [pieces[k]];
    ConcatAppend(pieces[..k], [pieces[k]]);
    assert [pieces[k]][1..] == [];
    assert Concat([pieces[k]]) == pieces[k] + Concat([]);
  }

  /** The chunks of a formatter whose lines are those of the text. */
  lemma {:induction false} ChunksOfText(start: nat, text: string, tag: Tag, groups: seq<seq<string>>)
    requires forall i :: 0 <= i < |groups| ==> groups[i] != []
    requires ConcatGroups(groups) == if text == "" then [] else FormatFrom(start, Split(text, '\n'), tag)
    ensures Join(JoinGroups(groups), "\n") == FormatText(start, text, tag)
    ensures groups == [] <==> text == ""
  {
    hide Split, FormatFrom, ConcatGroups, Join;
    JoinOfChunks(groups);
    EmptyChunk();
  }

  method ReadPieces(s: LineStreamer, pieces: seq<string>) returns (chunks: seq<string>)
    requires s.After("")
    modifies s, s.formatter
    ensures s.After(Concat(pieces)) && Yielded(old(s.formatter.groups), s.formatter.groups, chunks)
  {
    hide Yielded, Concat;
    chunks := [];
    NothingYielded(s.formatter.groups);
    NothingArrived(pieces);
    for k := 0 to |pieces|
      invariant s.After(Concat(pieces[..k]))
      invariant Yielded(old(s.formatter.groups), s.formatter.groups, chunks)
    {
      hide s.After;
      ghost var was := s.formatter.groups;
      var more := s.ConsumeText(pieces[k], Concat(pieces[..k]));
      ConcatUpto(pieces, k);
      YieldedThen(old(s.formatter.groups), was, s.formatter.groups, chunks, more);
      chunks := chunks + more;
    }
    assert pieces[..|pieces|] == pieces;
  }

  /**
   * Streams a text that arrives decoded in these pieces. However it was cut, the chunks joined again are the whole text
   * formatted at once, each chunk keeps to the limits unless it is a single line, and none is smaller than they ask.
   */
  method StreamHashLines(pieces: seq<string>, startLine: nat, maxChunkLines: int, maxChunkBytes: int, tag: Tag)
    returns (chunks: seq<string>, ghost groups: seq<seq<string>>)
    ensures Join(chunks, "\n") == FormatText(startLine, Concat(pieces), tag)
    ensures chunks == [] <==> Concat(pieces) == ""
    ensures chunks == JoinGroups(groups)
    ensures forall i :: 0 <= i < |groups| ==> Fits(groups[i], maxChunkLines, maxChunkBytes)
    ensures Adjacent(groups, maxChunkLines, maxChunkBytes)
    ensures ConcatGroups(groups) ==
      if Concat(pieces) == "" then [] else FormatFrom(startLine, Split(Concat(pieces), '\n'), tag)
  {
    hide Join, Split, Adjacent, ConcatGroups, Concat, FormatFrom, FormatText, Yielded, LineStreamer.At, ByteLength;
    var s := new LineStreamer(startLine, maxChunkLines, maxChunkBytes, tag);
    chunks := ReadPieces(s, pieces);
    ghost var was := s.formatter.groups;
    var last := s.Finish(Concat(pieces));
    groups := s.formatter.groups;
    YieldedThen([], was, groups, chunks, last);
    chunks := chunks + last;
    AllYielded(groups, chunks);
    assert ConcatGroups(groups) + [] == ConcatGroups(groups);
    ChunksOfText(startLine, Concat(pieces), tag, groups);
  }

  lemma {:induction false} NothingArrived(pieces: seq<string>)
    ensures Concat(pieces[..0]) == ""
  {
  }

  lemma {:induction false} AllYielded(groups: seq<seq<string>>, chunks: seq<string>)
    requires Yielded([], groups, chunks)
    ensures chunks == JoinGroups(groups)
  {
    assert groups[0..] == groups;
  }

  // ---- There is only one way to cut chunks ---------------------------------------------------------

  lemma {:induction false} ConcatFirst(groups: seq<seq<string>>)
    requires groups != []
    ensures ConcatGroups(groups) == groups[0] + ConcatGroups(groups[1..])
  {
    var n := |groups| - 1;
    if n > 0 {
      ConcatFirst(groups[..n]);
      assert groups[..n][1..] == groups[1..][..n - 1];
    } else {
      assert groups[..0] == [] && groups[1..] == [];
    }
  }

  lemma {:induction false} PrefixFits(group: seq<string>, n: nat, maxLines: int, maxBytes: int)
    requires Fits(group, maxLines, maxBytes) && 1 <= n <= |group|
    ensures Fits(group[..n], maxLines, maxBytes)
    decreases |group|
  {
    hide ByteLength, Join;
    if n < |group| {
      var front, last := group[..|group| - 1], group[|group| - 1];
      assert group == front + [last];
      JoinSnoc(front, last);
      PrefixFits(front, n, maxLines, maxBytes);
      assert front[..n] == group[..n];
    } else {
      assert group[..n] == group;
    }
  }

  /** Lines cut into chunks that fit, none of which could take the next line: the shorter first chunk is the longer. */
  lemma {:induction false} FirstIsLongest(a: seq<seq<string>>, b: seq<seq<string>>, maxLines: int, maxBytes: int)
    requires ConcatGroups(a) == ConcatGroups(b) && a != [] && b != []
    requires Fits(b[0], maxLines, maxBytes) && Adjacent(a, maxLines, maxBytes)
    ensures |a[0]| >= |b[0]|
  {
    hide Fits, ConcatGroups;
    ConcatFirst(a);
    ConcatFirst(b);
    var n, lines := |a[0]|, ConcatGroups(a);
    if n < |b[0]| {
      assert lines[n] == b[0][n];
      NothingJoined();
      assert a[1..] != [];
      ConcatFirst(a[1..]);
      assert a[1..][0] == a[1] && lines[n] == ConcatGroups(a[1..])[0] == a[1][0];
      assert a[0] == lines[..n] && b[0][..n] == lines[..n];
      assert a[0] + [a[1][0]] == b[0][..n + 1];
      PrefixFits(b[0], n + 1, maxLines, maxBytes);
    }
  }

  lemma {:induction false} NothingJoined()
    ensures ConcatGroups([]) == []
  {
  }

  lemma {:induction false} RestAdjacent(groups: seq<seq<string>>, maxLines: int, maxBytes: int)
    requires groups != [] && Adjacent(groups, maxLines, maxBytes)
    ensures groups[0] != [] && Adjacent(groups[1..], maxLines, maxBytes)
  {
    hide Fits;
    var rest := groups[1..];
    forall i, j | 0 <= i && j == i + 1 && j < |rest| ensures !Fits(rest[i] + [rest[j][0]], maxLines, maxBytes) {
      assert rest[i] == groups[i + 1] && rest[j] == groups[j + 1];
    }
  }

  /** Lines fall into chunks in one way only, so however the text arrives the same chunks are handed out. */
  lemma {:induction false} OneGrouping(a: seq<seq<string>>, b: seq<seq<string>>, maxLines: int, maxBytes: int)
    requires ConcatGroups(a) == ConcatGroups(b)
    requires Adjacent(a, maxLines, maxBytes) && Adjacent(b, maxLines, maxBytes)
    requires forall i :: 0 <= i < |a| ==> Fits(a[i], maxLines, maxBytes)
    requires forall i :: 0 <= i < |b| ==> Fits(b[i], maxLines, maxBytes)
    ensures a == b
  {
    hide Fits, ConcatGroups, Adjacent;
    NothingJoined();
    if a != [] {
      ConcatFirst(a);
      RestAdjacent(a, maxLines, maxBytes);
    }
    if b != [] {
      ConcatFirst(b);
      RestAdjacent(b, maxLines, maxBytes);
    }
    if a != [] && b != [] {
      FirstIsLongest(a, b, maxLines, maxBytes);
      FirstIsLongest(b, a, maxLines, maxBytes);
      assert a[0] == ConcatGroups(a)[..|a[0]|] && b[0] == ConcatGroups(a)[..|a[0]|];
      assert ConcatGroups(a[1..]) == ConcatGroups(a)[|a[0]|..];
      OneGrouping(a[1..], b[1..], maxLines, maxBytes);
      assert a == [a[0]] + a[1..] && b == [b[0]] + b[1..];
    }
  }
}
