/**
 * The event-stream codec: encoding one frame, parsing one block, and reading events out of text that arrives in
 * pieces.
 */
module Sse {
  import opened Wrappers
  import opened Text

  datatype SseEvent = SseEvent(event: Option<string>, data: string)

  predicate Blank(s: string) { forall c :: c in s ==> IsSpace(c) }

  // ---- One block ---------------------------------------------------------------------------------

  datatype Fields = Fields(event: Option<string>, data: seq<string>)

  const Empty := Fields(None, [])

  function Feed(f: Fields, line: string): Fields {
    if line == [] || line[0] == ':' then f
    else if StartsWith(line, "event:") then f.(event := Some(TrimStart(line[6..])))
    else if StartsWith(line, "data:") then
      var value := line[5..];
      f.(data := f.data + [if StartsWith(value, " ") then value[1..] else value])
    else f
  }

  function FeedAll(f: Fields, lines: seq<string>): Fields
    decreases |lines|
  {
    if lines == [] then f else FeedAll(Feed(f, lines[0]), lines[1..])
  }

  function Result(f: Fields): Option<SseEvent> {
    if f.data == [] then None else Some(SseEvent(f.event, Join(f.data, "\n")))
  }

  function ParseBlock(block: string): Option<SseEvent> {
    Result(FeedAll(Empty, Split(Normalize(block), '\n')))
  }

  method ParseSseBlock(block: string) returns (parsed: Option<SseEvent>)
    ensures parsed == ParseBlock(block)
  {
    var lines := Split(Normalize(block), '\n');
    var event: Option<string> := None;
    var dataLines: seq<string> := [];
    for i := 0 to |lines|
      invariant FeedAll(Fields(event, dataLines), lines[i..]) == FeedAll(Empty, lines)
    {
      var line := lines[i];
      assert lines[i..][1..] == lines[i + 1..];
      if line == [] || StartsWith(line, ":") { continue; }
      if StartsWith(line, "event:") {
        event := Some(TrimStart(line[6..]));
        continue;
      }
      if StartsWith(line, "data:") {
        var value := line[5..];
        dataLines := dataLines + [if StartsWith(value, " ") then value[1..] else value];
      }
    }
    if |dataLines| == 0 { return None; }
    return Some(SseEvent(event, Join(dataLines, "\n")));
  }

  // ---- A buffer cut at empty lines ----------------------------------------------------------------

  predicate BreakAt(s: string, i: int) { 0 <= i && i + 1 < |s| && s[i] == '\n' && s[i + 1] == '\n' }

  /** Where the first LF LF begins, or -1. */
  function IndexOfBreak(s: string): (index: int)
    ensures -1 <= index < |s|
    ensures index == -1 || BreakAt(s, index)
    ensures forall i :: BreakAt(s, i) ==> 0 <= index <= i
  {
    if |s| < 2 then -1
    else if s[0] == '\n' && s[1] == '\n' then 0
    else
      var rest := IndexOfBreak(s[1..]);
      assert forall i :: BreakAt(s, i) ==> i != 0 && BreakAt(s[1..], i - 1);
      assert rest >= 0 ==> BreakAt(s[1..], rest);
      if rest < 0 then -1 else rest + 1
  }

  datatype Drained = Drained(blocks: seq<string>, rest: string)

  function Drain(s: string): Drained
    decreases |s|
  {
    var i := IndexOfBreak(s);
    if i < 0 then Drained([], s)
    else
      var more := Drain(s[i + 2..]);
      Drained([s[..i]] + more.blocks, more.rest)
  }

  function Emit(parsed: Option<SseEvent>): seq<SseEvent> {
    if parsed.Some? then [parsed.value] else []
  }

  function ParseAll(blocks: seq<string>): seq<SseEvent> {
    if blocks == [] then [] else Emit(ParseBlock(blocks[0])) + ParseAll(blocks[1..])
  }

  // ---- Reading -----------------------------------------------------------------------------------

  /** The text of the first k pieces. */
  function Upto(pieces: seq<string>, k: nat): string
    requires k <= |pieces|
  {
    if k == 0 then "" else Upto(pieces, k - 1) + pieces[k - 1]
  }

  /** Blocks found and text still buffered after k reads; the kept text is normalized again with every read. */
  function Buffered(pieces: seq<string>, k: nat): Drained
    requires k <= |pieces|
  {
    if k == 0 then Drained([], "")
    else
      var before := Buffered(pieces, k - 1);
      var now := Drain(Normalize(before.rest + pieces[k - 1]));
      Drained(before.blocks + now.blocks, now.rest)
  }

  /** The end of the stream parses what is left, unless it is blank. */
  function Closed(d: Drained): seq<SseEvent> {
    ParseAll(d.blocks) + if Blank(d.rest) then [] else Emit(ParseBlock(d.rest))
  }

  /** What the iterator yields for text read in these pieces. */
  function Streamed(pieces: seq<string>): seq<SseEvent> {
    Closed(Buffered(pieces, |pieces|))
  }

  lemma {:induction false} ParseAllAppend(a: seq<string>, b: seq<string>)
    ensures ParseAll(a + b) == ParseAll(a) + ParseAll(b)
  {
    hide ParseBlock;
    if a == [] {
      assert a + b == b;
    } else {
      assert (a + b)[1..] == a[1..] + b;
      ParseAllAppend(a[1..], b);
    }
  }

  /** One block taken off the front. */
  lemma {:induction false} DrainStep(s: string)
    ensures IndexOfBreak(s) < 0 ==> Drain(s) == Drained([], s)
    ensures IndexOfBreak(s) >= 0 ==>
      var i := IndexOfBreak(s);
      ParseAll(Drain(s).blocks) == Emit(ParseBlock(s[..i])) + ParseAll(Drain(s[i + 2..]).blocks) &&
      Drain(s).rest == Drain(s[i + 2..]).rest
  {
    hide ParseBlock;
    var i := IndexOfBreak(s);
    if i >= 0 {
      assert Drain(s).blocks[1..] == Drain(s[i + 2..]).blocks;
    }
  }

  /** Yields the events of every complete block in the buffer and keeps the rest. */
  method TakeBlocks(text: string) returns (events: seq<SseEvent>, buffer: string)
    ensures events == ParseAll(Drain(text).blocks) && buffer == Drain(text).rest
  {
    hide Drain, ParseBlock, IndexOfBreak;
    buffer, events := text, [];
    var i := IndexOfBreak(buffer);
    while i != -1
      invariant i == IndexOfBreak(buffer)
      invariant events + ParseAll(Drain(buffer).blocks) == ParseAll(Drain(text).blocks)
      invariant Drain(buffer).rest == Drain(text).rest
      decreases |buffer|
    {
      DrainStep(buffer);
      var raw := buffer[..i];
      buffer := buffer[i + 2..];
      var parsed := ParseSseBlock(raw);
      if parsed.Some? {
        events := events + [parsed.value];
      }
      i := IndexOfBreak(buffer);
    }
    DrainStep(buffer);
  }

  method IterateSse(pieces: seq<string>) returns (events: seq<SseEvent>)
    ensures events == Streamed(pieces)
  {
    var buffer := "";
    events := [];
    for k := 0 to |pieces|
      invariant events == ParseAll(Buffered(pieces, k).blocks)
      invariant buffer == Buffered(pieces, k).rest
    {
      var found;
      ParseAllAppend(Buffered(pieces, k).blocks, Drain(Normalize(buffer + pieces[k])).blocks);
      found, buffer := TakeBlocks(Normalize(buffer + pieces[k]));
      events := events + found;
    }
    if !Blank(buffer) {
      var parsed := ParseSseBlock(buffer);
      if parsed.Some? {
        events := events + [parsed.value];
      }
    }
  }

  // ---- Normalizing in pieces -----------------------------------------------------------------------

  predicate CrCrLfAt(s: string, i: int) {
    0 <= i && i + 2 < |s| && s[i] == '\r' && s[i + 1] == '\r' && s[i + 2] == '\n'
  }

  ghost predicate NoCrCrLf(s: string) { forall i :: !CrCrLfAt(s, i) }

  ghost predicate NoCrLf(s: string) {
    forall i {:trigger s[i]} :: 0 <= i && i + 1 < |s| && s[i] == '\r' ==> s[i + 1] != '\n'
  }

  predicate EndsWith(s: string, c: char) { s != [] && s[|s| - 1] == c }

  /** CR on one side and LF on the other. */
  predicate Seam(a: string, b: string) { EndsWith(a, '\r') && b != [] && b[0] == '\n' }

  lemma {:induction false} NormalizeAppend(a: string, b: string)
    requires !Seam(a, b)
    ensures Normalize(a + b) == Normalize(a) + Normalize(b)
    decreases |a|
  {
    hide Normalize;
    if a == [] {
      NormalizeStep('x', []);
      assert a + b == b;
    } else {
      var c, rest := a[0], a[1..];
      NormalizeStep(c, rest);
      NormalizeStep(c, rest + b);
      assert a == [c] + rest && a + b == [c] + (rest + b);
      if c == '\r' && rest != [] && rest[0] == '\n' {
        assert (rest + b)[1..] == rest[1..] + b;
        NormalizeAppend(rest[1..], b);
      } else {
        NormalizeAppend(rest, b);
      }
    }
  }

  lemma {:induction false} NormalizeSeam(a: string, b: string)
    requires b != [] && b[0] == '\n'
    ensures Normalize(a + ['\r'] + b) == Normalize(a) + Normalize(b)
  {
    var end := ['\r'] + b;
    assert a + ['\r'] + b == a + end;
    NormalizeAppend(a, end);
    assert end[2..] == b[1..];
    assert Normalize(b) == ['\n'] + Normalize(b[1..]);
  }

  /** Without CR CR LF, one pass leaves no CR LF. */
  lemma {:induction false} NormalizeCleans(s: string)
    requires NoCrCrLf(s)
    ensures NoCrLf(Normalize(s))
    ensures Normalize(s) != [] ==>
      s != [] && (Normalize(s)[0] == '\n' ==> s[0] == '\n' || (s[0] == '\r' && |s| > 1 && s[1] == '\n'))
    decreases |s|
  {
    if s == [] {
    } else if s[0] == '\r' && |s| > 1 && s[1] == '\n' {
      assert forall i :: CrCrLfAt(s[2..], i) ==> CrCrLfAt(s, i + 2);
      NormalizeCleans(s[2..]);
    } else {
      assert forall i :: CrCrLfAt(s[1..], i) ==> CrCrLfAt(s, i + 1);
      NormalizeCleans(s[1..]);
      assert !CrCrLfAt(s, 0);
    }
  }

  lemma {:induction false} NormalizeClean(s: string)
    requires NoCrLf(s)
    ensures Normalize(s) == s
  {
    if s != [] {
      assert forall i :: 0 <= i < |s| - 1 ==> s[1..][i] == s[i + 1];
      NormalizeClean(s[1..]);
    }
  }

  lemma {:induction false} NormalizeLast(a: string, c: char)
    requires c != '\n'
    ensures Normalize(a + [c]) == Normalize(a) + [c]
  {
    NormalizeAppend(a, [c]);
  }

  /** Normalizing what was normalized before together with the next piece is normalizing the whole. */
  lemma {:induction false} NormalizeTwice(a: string, b: string)
    requires NoCrCrLf(a + b)
    ensures Normalize(Normalize(a) + b) == Normalize(a + b)
  {
    var front := if Seam(a, b) then a[..|a| - 1] else a;
    assert forall i :: CrCrLfAt(front, i) ==> CrCrLfAt(a + b, i);
    NormalizeCleans(front);
    NormalizeClean(Normalize(front));
    if Seam(a, b) {
      assert a == front + ['\r'];
      NormalizeLast(front, '\r');
      NormalizeSeam(front, b);
      NormalizeSeam(Normalize(front), b);
    } else {
      NormalizeAppend(a, b);
      if b != [] && b[0] == '\n' && a != [] {
        var last := a[|a| - 1];
        assert a == a[..|a| - 1] + [last];
        NormalizedEnd(a);
      }
      NormalizeAppend(Normalize(a), b);
    }
  }

  lemma {:induction false} NormalizedEnd(a: string)
    ensures EndsWith(Normalize(a), '\r') <==> EndsWith(a, '\r')
  {
    if a != [] {
      var front, last := a[..|a| - 1], a[|a| - 1];
      assert a == front + [last];
      if last != '\n' {
        NormalizeLast(front, last);
      } else if EndsWith(front, '\r') {
        assert a == front[..|front| - 1] + ['\r'] + ['\n'];
        NormalizeSeam(front[..|front| - 1], ['\n']);
      } else {
        NormalizeAppend(front, ['\n']);
      }
    }
  }

  lemma {:induction false} NormalizeShortens(s: string)
    ensures |Normalize(s)| <= |s|
    decreases |s|
  {
    if s != [] {
      NormalizeShortens(s[1..]);
      if |s| > 1 {
        NormalizeShortens(s[2..]);
      }
    }
  }

  /** Where the text is cut makes no difference to the normalizer exactly when it has no CR CR LF. */
  lemma {:induction false} CutsAreHarmlessIffNoCrCrLf(s: string)
    ensures NoCrCrLf(s) <==> forall k :: 0 <= k <= |s| ==> Normalize(Normalize(s[..k]) + s[k..]) == Normalize(s)
  {
    if NoCrCrLf(s) {
      forall k | 0 <= k <= |s| ensures Normalize(Normalize(s[..k]) + s[k..]) == Normalize(s) {
        assert s[..k] + s[k..] == s;
        NormalizeTwice(s[..k], s[k..]);
      }
    } else {
      var i :| CrCrLfAt(s, i);
      CutAfterCrCrLf(s[..i], s[i + 3..]);
      assert s[..i + 3] == s[..i] + "\r\r\n";
      assert s == s[..i] + "\r\r\n" + s[i + 3..];
    }
  }

  lemma {:induction false} CutAfterCrCrLf(u: string, v: string)
    ensures Normalize(Normalize(u + "\r\r\n") + v) != Normalize(u + "\r\r\n" + v)
  {
    var w := Normalize(u);
    NormalizeLast(u, '\r');
    assert u + "\r\r\n" == (u + ['\r']) + ['\r'] + ['\n'];
    NormalizeSeam(u + ['\r'], ['\n']);
    assert Normalize(u + "\r\r\n") == w + ['\r'] + ['\n'];
    NormalizeAppend(u + "\r\r\n", v);
    NormalizeAppend(['\n'], v);
    assert w + ['\r'] + ['\n'] + v == w + ['\r'] + (['\n'] + v);
    NormalizeSeam(w, ['\n'] + v);
    NormalizeShortens(w);
  }

  // ---- Chunk independence --------------------------------------------------------------------------

  lemma {:induction false} DrainBreak(front: string, more: string)
    requires IndexOfBreak(front + "\n\n" + more) == |front|
    ensures Drain(front + "\n\n" + more) == Drained([front] + Drain(more).blocks, Drain(more).rest)
  {
    var s := front + "\n\n" + more;
    assert s[..|front|] == front && s[|front| + 2..] == more;
  }

  lemma {:induction false} DrainNothing(s: string)
    requires IndexOfBreak(s) < 0
    ensures Drain(s) == Drained([], s)
  {
  }

  /** The text a drained buffer has lost: everything but what it kept, ending in a line feed. */
  lemma {:induction false} DrainKeepsTail(s: string) returns (taken: string)
    ensures s == taken + Drain(s).rest
    ensures taken == [] || EndsWith(taken, '\n')
    decreases |s|
  {
    hide Drain, IndexOfBreak;
    var i := IndexOfBreak(s);
    if i < 0 {
      DrainNothing(s);
      taken := [];
    } else {
      var front, more := s[..i], s[i + 2..];
      assert s == front + "\n\n" + more;
      DrainBreak(front, more);
      var lost := DrainKeepsTail(more);
      taken := front + "\n\n" + lost;
    }
  }

  /** A first break stays first whatever follows it. */
  lemma {:induction false} BreakStays(front: string, a: string, b: string)
    requires IndexOfBreak(front + "\n\n" + a) == |front|
    ensures IndexOfBreak(front + "\n\n" + b) == |front|
  {
    var s, t := front + "\n\n" + a, front + "\n\n" + b;
    assert BreakAt(t, |front|);
    var i := IndexOfBreak(t);
    assert i < |front| ==> BreakAt(s, i);
  }

  /** Draining goes on where it stopped, whatever replaces the kept text. */
  lemma {:induction false} DrainGoesOn(taken: string, rest: string, x: string)
    requires Drain(taken + rest).rest == rest
    ensures Drain(taken + x) == Drained(Drain(taken + rest).blocks + Drain(x).blocks, Drain(x).rest)
    decreases |taken|
  {
    hide Drain, IndexOfBreak;
    var s := taken + rest;
    var i := IndexOfBreak(s);
    if i < 0 {
      DrainNothing(s);
      assert taken == [];
      assert taken + x == x;
    } else {
      var front := s[..i];
      assert s == front + "\n\n" + s[i + 2..];
      DrainBreak(front, s[i + 2..]);
      var kept := DrainKeepsTail(s[i + 2..]);
      var more := taken[i + 2..];
      assert taken == front + "\n\n" + more;
      assert s[i + 2..] == more + rest;
      assert taken + x == front + "\n\n" + (more + x);
      BreakStays(front, more + rest, more + x);
      DrainBreak(front, more + x);
      DrainGoesOn(more, rest, x);
    }
  }

  /** Dropping a drained front commutes with normalizing what is kept and what comes. */
  lemma {:induction false} NormalizeKept(taken: string, rest: string, b: string)
    requires NoCrLf(taken + rest)
    requires taken == [] || EndsWith(taken, '\n')
    ensures Normalize(taken + rest + b) == taken + Normalize(rest + b)
  {
    assert forall i :: 0 <= i < |taken| ==> taken[i] == (taken + rest)[i];
    NormalizeClean(taken);
    assert taken + rest + b == taken + (rest + b);
    NormalizeAppend(taken, rest + b);
  }

  lemma {:induction false} NothingRead()
    ensures Drain(Normalize("")) == Drained([], "")
  {
  }

  /** Reading in pieces finds the same blocks and keeps the same rest as reading the whole text at once. */
  lemma {:induction false} PiecesAreWhole(pieces: seq<string>, k: nat)
    requires k <= |pieces| && NoCrCrLf(Upto(pieces, k))
    ensures Buffered(pieces, k) == Drain(Normalize(Upto(pieces, k)))
  {
    hide Normalize, Drain, NoCrCrLf, NoCrLf, EndsWith;
    if k == 0 {
      NothingRead();
    } else {
      var a, b := Upto(pieces, k - 1), pieces[k - 1];
      FrontHasNoCrCrLf(a, b);
      PiecesAreWhole(pieces, k - 1);
      NormalizeCleans(a);
      NormalizeTwice(a, b);
      var rest := Drain(Normalize(a)).rest;
      var taken := DrainKeepsTail(Normalize(a));
      NormalizeKept(taken, rest, b);
      DrainGoesOn(taken, rest, Normalize(rest + b));
    }
  }

  lemma {:induction false} FrontHasNoCrCrLf(a: string, b: string)
    requires NoCrCrLf(a + b)
    ensures NoCrCrLf(a)
  {
    assert forall i :: CrCrLfAt(a, i) ==> CrCrLfAt(a + b, i);
  }

  /** Two ways of cutting the same text give the same events. */
  lemma {:induction false} ChunksDoNotMatter(pieces: seq<string>, others: seq<string>)
    requires Upto(pieces, |pieces|) == Upto(others, |others|)
    requires NoCrCrLf(Upto(pieces, |pieces|))
    ensures Streamed(pieces) == Streamed(others)
  {
    hide Normalize, Drain;
    PiecesAreWhole(pieces, |pieces|);
    PiecesAreWhole(others, |others|);
  }

  /** A stream in which every CR is followed by LF has no CR CR LF. */
  lemma {:induction false} PairedCrsAreEnough(s: string)
    requires forall i {:trigger s[i]} :: 0 <= i < |s| && s[i] == '\r' ==> i + 1 < |s| && s[i + 1] == '\n'
    ensures NoCrCrLf(s)
  {
    forall i ensures !CrCrLfAt(s, i) {
      assert 0 <= i < |s| && s[i] == '\r' ==> i + 1 < |s| && s[i + 1] == '\n';
    }
  }

  // ---- The same events, line by line ---------------------------------------------------------------

  /** An empty line dispatches what the lines since the last one said, and so does the end of the stream. */
  function Dispatched(f: Fields, lines: seq<string>): seq<SseEvent>
    decreases |lines|
  {
    if lines == [] then Emit(Result(f))
    else if lines[0] == "" then Emit(Result(f)) + Dispatched(Empty, lines[1..])
    else Dispatched(Feed(f, lines[0]), lines[1..])
  }

  predicate NoEmptyAfterFirst(lines: seq<string>) { forall i :: 1 <= i < |lines| ==> lines[i] != "" }

  lemma {:induction false} DispatchBlock(f: Fields, lines: seq<string>, more: seq<string>)
    requires forall i :: 0 <= i < |lines| ==> lines[i] != ""
    ensures Dispatched(f, lines) == Emit(Result(FeedAll(f, lines)))
    ensures Dispatched(f, lines + [""] + more) == Emit(Result(FeedAll(f, lines))) + Dispatched(Empty, more)
    decreases |lines|
  {
    hide Feed, Result;
    var all := lines + [""] + more;
    if lines == [] {
      assert all[0] == "" && all[1..] == more;
    } else {
      assert all[0] == lines[0] && all[1..] == lines[1..] + [""] + more;
      DispatchBlock(Feed(f, lines[0]), lines[1..], more);
    }
  }

  lemma {:induction false} DispatchFirst(lines: seq<string>, more: seq<string>)
    requires NoEmptyAfterFirst(lines)
    ensures Dispatched(Empty, lines) == Emit(Result(FeedAll(Empty, lines)))
    ensures Dispatched(Empty, lines + [""] + more) == Emit(Result(FeedAll(Empty, lines))) + Dispatched(Empty, more)
  {
    if lines != [] && lines[0] == "" {
      assert (lines + [""] + more)[1..] == lines[1..] + [""] + more;
      DispatchBlock(Empty, lines[1..], more);
    } else {
      DispatchBlock(Empty, lines, more);
    }
  }

  /** No empty line inside. */
  ghost predicate Breakless(s: string) { forall i :: !BreakAt(s, i) }

  /** Text without an empty line inside or at its end has no empty line but perhaps the first. */
  lemma {:induction false} BlockLines(s: string)
    requires Breakless(s) && !EndsWith(s, '\n')
    ensures NoEmptyAfterFirst(Split(s, '\n'))
  {
    if s != [] {
      var t := s[1..];
      assert forall i :: BreakAt(t, i) ==> BreakAt(s, i + 1);
      BlockLines(t);
      assert !BreakAt(s, 0);
      if s[0] == '\n' {
        SplitCons(t[0], t[1..], '\n');
        assert [t[0]] + t[1..] == t;
      }
    }
  }

  lemma {:induction false} SplitBroken(front: string, more: string)
    ensures Split(front + "\n\n" + more, '\n') == Split(front, '\n') + [""] + Split(more, '\n')
  {
    hide Split;
    var rest := ['\n'] + more;
    assert front + "\n\n" + more == front + ['\n'] + rest;
    SplitAtSeparator(front, '\n', rest);
    SplitCons('\n', more, '\n');
  }

  /** A block ending where its lines end, as the buffer loop cuts it. */
  lemma {:induction false} DispatchBroken(front: string, more: string)
    requires Breakless(front) && !EndsWith(front, '\n') && NoCrLf(front)
    ensures Dispatched(Empty, Split(front + "\n\n" + more, '\n')) ==
      Emit(ParseBlock(front)) + Dispatched(Empty, Split(more, '\n'))
  {
    hide Dispatched, Split, FeedAll, Result, Breakless;
    NormalizeClean(front);
    BlockLines(front);
    SplitBroken(front, more);
    DispatchFirst(Split(front, '\n'), Split(more, '\n'));
  }

  /** Text without an empty line inside it, dispatched by the end of the stream. */
  lemma {:induction false} DispatchRest(rest: string)
    requires Breakless(rest) && NoCrLf(rest)
    ensures Dispatched(Empty, Split(rest, '\n')) == Emit(ParseBlock(rest))
  {
    hide Dispatched, FeedAll, Result, Split;
    NormalizeClean(rest);
    if EndsWith(rest, '\n') {
      var front := rest[..|rest| - 1];
      assert rest == front + ['\n'] + [];
      assert EndsWith(front, '\n') ==> BreakAt(rest, |front| - 1);
      assert forall i :: BreakAt(front, i) ==> BreakAt(rest, i);
      BlockLines(front);
      SplitAtSeparator(front, '\n', []);
      SplitOne([], '\n');
      DispatchFirst(Split(front, '\n'), []);
      assert Split(front, '\n') + [""] + [] == Split(rest, '\n');
      FeedEmptyLast(Empty, Split(front, '\n'));
      DispatchedNothing();
    } else {
      BlockLines(rest);
      DispatchFirst(Split(rest, '\n'), []);
    }
  }

  lemma {:induction false} DispatchedNothing()
    ensures Dispatched(Empty, []) == []
  {
  }

  lemma {:induction false} FeedEmptyLast(f: Fields, lines: seq<string>)
    ensures FeedAll(f, lines + [""]) == FeedAll(f, lines)
    decreases |lines|
  {
    if lines == [] {
      assert FeedAll(f, [""]) == FeedAll(Feed(f, ""), [""][1..]);
    } else {
      assert (lines + [""])[1..] == lines[1..] + [""];
      FeedEmptyLast(Feed(f, lines[0]), lines[1..]);
    }
  }

  /** The blank test before the last parse never drops an event. */
  lemma {:induction false} BlankHasNoEvent(s: string)
    requires Blank(s)
    ensures ParseBlock(s) == None
  {
    NormalizeKeepsBlank(s);
    SplitKeepsBlank(Normalize(s));
    BlankLinesFeedNothing(Empty, Split(Normalize(s), '\n'));
  }

  lemma {:induction false} NormalizeKeepsBlank(s: string)
    requires Blank(s)
    ensures Blank(Normalize(s))
    decreases |s|
  {
    if s != [] {
      assert s[0] in s;
      assert forall c :: c in s[1..] ==> c in s;
      NormalizeKeepsBlank(s[1..]);
      if |s| > 1 {
        assert forall c :: c in s[2..] ==> c in s;
        NormalizeKeepsBlank(s[2..]);
      }
    }
  }

  lemma {:induction false} SplitKeepsBlank(s: string)
    requires Blank(s)
    ensures forall i :: 0 <= i < |Split(s, '\n')| ==> Blank(Split(s, '\n')[i])
  {
    if s != [] {
      assert s[0] in s;
      assert forall c :: c in s[1..] ==> c in s;
      SplitKeepsBlank(s[1..]);
    }
  }

  lemma {:induction false} BlankLineFeedsNothing(f: Fields, line: string)
    requires Blank(line)
    ensures Feed(f, line) == f
  {
    if line != "" {
      assert line[0] in line;
      assert !IsSpace('e') && !IsSpace('d');
    }
  }

  lemma {:induction false} BlankLinesFeedNothing(f: Fields, lines: seq<string>)
    requires forall i :: 0 <= i < |lines| ==> Blank(lines[i])
    ensures FeedAll(f, lines) == f
    decreases |lines|
  {
    hide Blank, Feed;
    if lines != [] {
      BlankLineFeedsNothing(f, lines[0]);
      BlankLinesFeedNothing(f, lines[1..]);
    }
  }

  /** Cutting a clean text at its empty lines and parsing the blocks is reading it line by line. */
  lemma {:induction false} BlocksAreLines(s: string)
    requires NoCrLf(s)
    ensures Closed(Drain(s)) == Dispatched(Empty, Split(s, '\n'))
    decreases |s|
  {
    hide ParseBlock, Dispatched, Drain, IndexOfBreak, NoCrLf;
    var i := IndexOfBreak(s);
    if i < 0 {
      DrainNothing(s);
      DispatchRest(s);
      if Blank(s) {
        BlankHasNoEvent(s);
      }
    } else {
      var front, more := s[..i], s[i + 2..];
      assert s == front + "\n\n" + more;
      CleanParts(s, i);
      DrainBreak(front, more);
      DispatchBroken(front, more);
      BlocksAreLines(more);
      assert ([front] + Drain(more).blocks)[1..] == Drain(more).blocks;
    }
  }

  lemma {:induction false} CleanParts(s: string, i: nat)
    requires NoCrLf(s) && IndexOfBreak(s) == i
    ensures NoCrLf(s[..i]) && NoCrLf(s[i + 2..]) && Breakless(s[..i]) && !EndsWith(s[..i], '\n')
  {
    var front, more := s[..i], s[i + 2..];
    assert forall k :: 0 <= k < |more| ==> more[k] == s[i + 2 + k];
    assert forall k :: BreakAt(front, k) ==> BreakAt(s, k);
    assert EndsWith(front, '\n') ==> BreakAt(s, i - 1);
  }

  /**
   * However the stream is cut, its events are those a reader finds who takes the text line by line and dispatches at
   * every empty line and at the end.
   */
  lemma {:induction false} StreamedIsLineByLine(pieces: seq<string>)
    requires NoCrCrLf(Upto(pieces, |pieces|))
    ensures Streamed(pieces) == Dispatched(Empty, Split(Normalize(Upto(pieces, |pieces|)), '\n'))
  {
    hide Normalize, Drain, Closed, Dispatched;
    PiecesAreWhole(pieces, |pieces|);
    NormalizeCleans(Upto(pieces, |pieces|));
    BlocksAreLines(Normalize(Upto(pieces, |pieces|)));
  }

  // ---- Round trip ----------------------------------------------------------------------------------

  /** One frame around a payload, which for JSON text holds no raw line end. */
  function EncodeSse(payload: string): string { "data: " + payload + "\n\n" }

  function EncodeAll(payloads: seq<string>): string {
    if payloads == [] then "" else EncodeSse(payloads[0]) + EncodeAll(payloads[1..])
  }

  function Payloads(payloads: seq<string>): seq<SseEvent> {
    if payloads == [] then [] else [SseEvent(None, payloads[0])] + Payloads(payloads[1..])
  }

  lemma {:induction false} DataBlock(payload: string)
    requires '\n' !in payload
    ensures ParseBlock("data: " + payload) == Some(SseEvent(None, payload))
  {
    var line := "data: " + payload;
    NormalizeClean(line);
    SplitOne(line, '\n');
    assert line[5..] == " " + payload && (" " + payload)[1..] == payload;
    assert FeedAll(Feed(Empty, line), [line][1..]) == Feed(Empty, line);
  }

  lemma {:induction false} DrainFrame(payload: string, more: string)
    requires '\n' !in payload
    ensures Drain(EncodeSse(payload) + more) == Drained(["data: " + payload] + Drain(more).blocks, Drain(more).rest)
  {
    var front := "data: " + payload;
    var s := EncodeSse(payload) + more;
    assert s == front + "\n\n" + more;
    assert BreakAt(s, |front|);
    assert forall i :: 0 <= i < |front| ==> s[i] == front[i] && front[i] in front;
    DrainBreak(front, more);
  }

  lemma {:induction false} NoFrames()
    ensures Drain("") == Drained([], "")
  {
  }

  lemma {:induction false} EncodedHasNoCr(payloads: seq<string>)
    requires forall i :: 0 <= i < |payloads| ==> '\r' !in payloads[i]
    ensures '\r' !in EncodeAll(payloads)
  {
    if payloads != [] {
      EncodedHasNoCr(payloads[1..]);
    }
  }

  lemma {:induction false} EncodedFrames(payloads: seq<string>)
    requires forall i :: 0 <= i < |payloads| ==> '\n' !in payloads[i]
    ensures ParseAll(Drain(EncodeAll(payloads)).blocks) == Payloads(payloads)
    ensures Drain(EncodeAll(payloads)).rest == ""
  {
    hide ParseBlock, Drain, EncodeSse;
    if payloads == [] {
      NoFrames();
    } else {
      var p, more := payloads[0], EncodeAll(payloads[1..]);
      EncodedFrames(payloads[1..]);
      DrainFrame(p, more);
      DataBlock(p);
      assert (["data: " + p] + Drain(more).blocks)[1..] == Drain(more).blocks;
    }
  }

  /** Any chunking of encoded frames decodes to exactly the encoded payloads, in order. */
  lemma {:induction false} DecodesWhatWasEncoded(payloads: seq<string>, pieces: seq<string>)
    requires forall i :: 0 <= i < |payloads| ==> '\n' !in payloads[i] && '\r' !in payloads[i]
    requires Upto(pieces, |pieces|) == EncodeAll(payloads)
    ensures Streamed(pieces) == Payloads(payloads)
  {
    hide Drain, Normalize, ParseAll, EncodeAll;
    var text := EncodeAll(payloads);
    EncodedFrames(payloads);
    EncodedHasNoCr(payloads);
    assert forall i :: !CrCrLfAt(text, i);
    NormalizeClean(text);
    PiecesAreWhole(pieces, |pieces|);
  }

  // ---- Where cutting shows -------------------------------------------------------------------------

  const DOUBLE_CR := "data: a\r\r\n\n"

  lemma {:induction false} OneFrame(payload: string)
    requires '\n' !in payload
    ensures ParseAll(Drain(EncodeSse(payload)).blocks) == [SseEvent(None, payload)] &&
      Drain(EncodeSse(payload)).rest == ""
  {
    hide ParseBlock, Drain;
    DrainFrame(payload, "");
    NoFrames();
    DataBlock(payload);
    assert EncodeSse(payload) + "" == EncodeSse(payload);
  }

  lemma {:induction false} OneRead(text: string)
    ensures Buffered([text], 1) == Drain(Normalize(text))
  {
    hide Drain, Normalize;
    assert Buffered([text], 0).rest + text == text;
    assert [] + Drain(Normalize(text)).blocks == Drain(Normalize(text)).blocks;
  }

  lemma {:induction false} InOnePiece()
    ensures Streamed([DOUBLE_CR]) == [SseEvent(None, "a\r")]
  {
    hide Drain, Normalize, ParseAll;
    NormalizeSeam("data: a\r", "\n\n");
    NormalizeClean("data: a\r");
    NormalizeClean("\n\n");
    assert DOUBLE_CR == "data: a\r" + ['\r'] + "\n\n";
    assert Normalize(DOUBLE_CR) == EncodeSse("a\r");
    OneFrame("a\r");
    OneRead(DOUBLE_CR);
  }

  lemma {:induction false} InTwoPieces()
    ensures Streamed([DOUBLE_CR[..10], DOUBLE_CR[10..]]) == [SseEvent(None, "a")]
  {
    hide Drain, Normalize, ParseAll, IndexOfBreak;
    var first, second := DOUBLE_CR[..10], DOUBLE_CR[10..];
    NormalizeSeam("data: a\r", "\n");
    NormalizeClean("data: a\r");
    NormalizeClean("\n");
    assert first == "data: a\r" + ['\r'] + "\n" && second == "\n";
    var kept := "data: a\r" + "\n";
    assert Normalize(first) == kept;
    assert forall i :: !BreakAt(kept, i);
    DrainNothing(kept);
    TwoReads(first, second, kept);
    NormalizeSeam("data: a", "\n\n");
    NormalizeClean("data: a");
    NormalizeClean("\n\n");
    assert kept + second == "data: a" + ['\r'] + "\n\n";
    assert Normalize(kept + second) == EncodeSse("a");
    OneFrame("a");
  }

  lemma {:induction false} TwoReads(first: string, second: string, kept: string)
    requires Drain(Normalize(first)) == Drained([], kept)
    ensures Buffered([first, second], 2) == Drain(Normalize(kept + second))
  {
    hide Drain, Normalize;
    assert Buffered([first, second], 0).rest + first == first;
    assert Buffered([first, second], 1) == Drained([], kept);
    assert [] + Drain(Normalize(kept + second)).blocks == Drain(Normalize(kept + second)).blocks;
  }

  /** With CR CR LF the cut can show: the same text carries "a" and a CR in one piece, and "a" alone in two. */
  lemma {:induction false} ChunksCanMatter()
    ensures Streamed([DOUBLE_CR]) != Streamed([DOUBLE_CR[..10], DOUBLE_CR[10..]])
  {
    hide Streamed;
    InOnePiece();
    InTwoPieces();
  }
}
