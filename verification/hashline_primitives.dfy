/** What each kind of edit does to a file, and each check before it, written out. */
module HashlinePrimitives {
  import opened Wrappers
  import opened Sorting
  import opened HashlineEdits
  import Text

  // ---- One edit ------------------------------------------------------------------------------

  /** An insert after line k puts its rows below it; a first row that repeats the line is dropped. */
  lemma {:induction false} InsertAfterLine(r: Rules, lines: seq<string>, at: Anchor, payload: Payload, x: string,
      rest: seq<string>)
    requires 1 <= RefAt(r, at).line <= |lines| && r.newLines(payload) == [x] + rest
    ensures var k := RefAt(r, at).line;
      var after := Step(r, lines, Append(Some(at), payload));
      && (!r.sameText(x, lines[k - 1]) ==> after == Ok(lines[..k] + ([x] + rest) + lines[k..]))
      && (r.sameText(x, lines[k - 1]) && rest != [] ==> after == Ok(lines[..k] + rest + lines[k..]))
      && (r.sameText(x, lines[k - 1]) && rest == [] ==> after == Err(EmptyInsert))
  {
    assert ([x] + rest)[1..] == rest;
  }

  /** An insert before line k puts its rows above it; a last row of several that repeats the line is dropped. */
  lemma {:induction false} InsertBeforeLine(r: Rules, lines: seq<string>, at: Anchor, payload: Payload,
      front: seq<string>, x: string)
    requires 1 <= RefAt(r, at).line <= |lines| && r.newLines(payload) == front + [x]
    ensures var k := RefAt(r, at).line;
      var after := Step(r, lines, Prepend(Some(at), payload));
      && (front == [] || !r.sameText(x, lines[k - 1]) ==> after == Ok(lines[..k - 1] + (front + [x]) + lines[k - 1..]))
      && (front != [] && r.sameText(x, lines[k - 1]) ==> after == Ok(lines[..k - 1] + front + lines[k - 1..]))
  {
    assert (front + [x])[..|front|] == front;
  }

  /** A replace of line k puts the corrected rows in its place, the first of them with the line's indentation. */
  lemma {:induction false} ReplaceLine(r: Rules, lines: seq<string>, pos: Anchor, payload: Payload, x: string,
      rest: seq<string>)
    requires 1 <= RefAt(r, pos).line <= |lines|
    ensures var k := RefAt(r, pos).line;
      var corrected := r.autocorrect([lines[k - 1]], r.newLines(payload));
      var after := Step(r, lines, Replace(pos, None, payload));
      && (corrected == [] ==> after == Ok(lines[..k - 1] + lines[k..]))
      && (corrected == [x] + rest ==>
          after == Ok(lines[..k - 1] + ([r.restoreIndent(lines[k - 1], x)] + rest) + lines[k..]))
  {
    assert ([x] + rest)[1..] == rest;
    assert lines[..RefAt(r, pos).line - 1] + [] == lines[..RefAt(r, pos).line - 1];
  }

  /**
   * A replace of lines s..f drops a first row that repeats the line above and a last one that repeats the line below,
   * but only of a payload longer than the range; what is left is corrected against the lines it replaces, and its
   * first row gets the indentation of the first of them.
   */
  lemma {:induction false} ReplaceLines(r: Rules, lines: seq<string>, pos: Anchor, end: Anchor, payload: Payload,
      echo: seq<string>, kept: seq<string>, tailEcho: seq<string>, x: string, rest: seq<string>)
    requires 1 <= RefAt(r, pos).line <= RefAt(r, end).line <= |lines|
    requires var s, f, rows := RefAt(r, pos).line, RefAt(r, end).line, r.newLines(payload);
      var longer := |rows| > 1 && |rows| > f - s + 1;
      && rows == echo + kept + tailEcho
      && |echo| == (if longer && s > 1 && rows[0] == lines[s - 2] then 1 else 0)
      && |tailEcho| == (if longer && f < |lines| && rows[|rows| - 1] == lines[f] then 1 else 0)
    ensures var s, f := RefAt(r, pos).line, RefAt(r, end).line;
      var corrected := r.autocorrect(lines[s - 1..f], kept);
      var after := Step(r, lines, Replace(pos, Some(end), payload));
      && (corrected == [] ==> after == Ok(lines[..s - 1] + lines[f..]))
      && (corrected == [x] + rest ==>
          after == Ok(lines[..s - 1] + ([r.restoreIndent(lines[s - 1], x)] + rest) + lines[f..]))
  {
    var s, f, rows := RefAt(r, pos).line, RefAt(r, end).line, r.newLines(payload);
    EchoesComeOff(lines, s, f, rows, echo, kept, tailEcho);
    assert ([x] + rest)[1..] == rest;
    assert lines[..s - 1] + [] == lines[..s - 1];
  }

  lemma {:induction false} EchoesComeOff(lines: seq<string>, s: nat, f: nat, rows: seq<string>, echo: seq<string>,
      kept: seq<string>, tailEcho: seq<string>)
    requires 1 <= s <= f <= |lines| && rows == echo + kept + tailEcho
    requires var longer := |rows| > 1 && |rows| > f - s + 1;
      && |echo| == (if longer && s > 1 && rows[0] == lines[s - 2] then 1 else 0)
      && |tailEcho| == (if longer && f < |lines| && rows[|rows| - 1] == lines[f] then 1 else 0)
    ensures StripRangeEcho(lines, s, f, rows) == kept
  {
    assert rows[|echo|..] == kept + tailEcho;
    assert (kept + tailEcho)[..|kept|] == kept;
  }

  /** What cannot be done: an upside-down range, an insert of nothing, an insert after a line that is not there. */
  lemma {:induction false} WhatFails(r: Rules, lines: seq<string>, at: Anchor, end: Anchor, payload: Payload)
    requires 1 <= RefAt(r, at).line
    ensures RefAt(r, at).line > RefAt(r, end).line ==>
        Step(r, lines, Replace(at, Some(end), payload)) == Err(InvertedRange(RefAt(r, at).line, RefAt(r, end).line))
    ensures r.newLines(payload) == [] ==>
      Step(r, lines, Append(Some(at), payload)) == Step(r, lines, Prepend(Some(at), payload)) == Err(EmptyInsert)
    ensures r.newLines(payload) != [] && RefAt(r, at).line > |lines| ==>
        Step(r, lines, Append(Some(at), payload)) == Err(MissingAnchorLine)
  {
  }

  /** Without an anchor the rows go to the end or the top; a file that is one empty line is replaced. */
  lemma {:induction false} AtTheEnds(r: Rules, lines: seq<string>, payload: Payload)
    ensures var rows, below, above := r.newLines(payload), Append(None, payload), Prepend(None, payload);
      && (rows == [] ==> Step(r, lines, below) == Step(r, lines, above) == Err(EmptyInsert))
      && (rows != [] && lines == [""] ==> Step(r, lines, below) == Step(r, lines, above) == Ok(rows))
      && (rows != [] && lines != [""] ==> Step(r, lines, below) == Ok(lines + rows))
      && (rows != [] && lines != [""] ==> Step(r, lines, above) == Ok(rows + lines))
  {
  }

  /** A batch of one edit whose anchors match does what the edit does, and counts it if it changes nothing. */
  lemma {:induction false} BatchOfOne(r: Rules, lines: seq<string>, e: Edit)
    requires forall ref :: ref in RefsOf(e) ==> RefValid(r, lines, ref)
    ensures Anchored(e) ==> 1 <= Lo(r, e)
    ensures Apply(r, lines, [e]) ==
      match Step(r, lines, e) {
        case Err(error) => Err(error)
        case Ok(next) => Ok(Report(next, if next == lines then 1 else 0, 0))
      }
  {
    hide Step, KeyOf, Run, RefValid, FirstOccurrences, Order, RefsOf, CollectLineRefs, ValidationError;
    hide RangesOf, OrderRanges, FirstClash;
    DistinctKeysAreKept(r, [e]);
    ListsOfOne(r, e);
    NoErrorMeansValid(r, lines, CollectLineRefs([e]));
    ValidatedNamesLines(r, lines, [e]);
    RunOfOne(r, lines, e);
  }

  lemma {:induction false} ListsOfOne(r: Rules, e: Edit)
    ensures Order(r, [e]) == [e] && CollectLineRefs([e]) == RefsOf(e)
    ensures FirstClash(OrderRanges(RangesOf(r, [e]))).None?
  {
    SortOne(e, (a, b) => Before(r, a, b));
    assert [e][1..] == [] && CollectLineRefs([]) == [];
    assert [e][..0] == [] && RangesOf(r, []) == [] && |RangesOf(r, [e])| <= 1;
    SortKeeps(RangesOf(r, [e]), RangeBefore);
  }

  lemma {:induction false} RunOfOne(r: Rules, lines: seq<string>, e: Edit)
    requires NamesLines(r, [e])
    ensures Anchored(e) ==> 1 <= Lo(r, e)
    ensures Run(r, lines, [e]) ==
      match Step(r, lines, e) {
        case Err(error) => Err(error)
        case Ok(next) => Ok((next, if next == lines then 1 else 0))
      }
  {
    hide Step;
    assert e in [e] && [e][..0] == [];
    assert Run(r, lines, []) == Ok((lines, 0));
  }

  lemma {:induction false} SortOne<T>(x: T, before: (T, T) -> bool)
    ensures Sort([x], before) == [x]
  {
    assert [x][1..] == [] && Sort([], before) == [];
    assert Insert(x, [], before) == [x];
  }

  /** A file's lines: none of an empty text, and otherwise the pieces between its line feeds. */
  lemma {:induction false} LinesOfText(content: string)
    ensures LinesOf("") == [] && (content != "" ==> LinesOf(content) != [])
    ensures Text.Join(LinesOf(content), "\n") == content
    ensures forall line :: line in LinesOf(content) ==> '\n' !in line
  {
    Text.JoinSplit(content, '\n');
  }

  // ---- The checks before ---------------------------------------------------------------------

  /** Two edits have one key exactly when kind, canonical anchors and joined rows agree, if no anchor holds a bar. */
  lemma {:induction false} OneKey(r: Rules, e: Edit, f: Edit)
    requires forall ref :: ref in RefsOf(e) + RefsOf(f) ==> '|' !in r.normalize(ref)
    ensures var anchor := (a: Option<Anchor>) => if a.Some? then r.normalize(a.value) else "";
      var rows := (p: Payload) => Text.Join(r.newLines(p), "\n");
      KeyOf(r, e) == KeyOf(r, f) <==>
        && rows(e.payload) == rows(f.payload)
        && ((e.Replace? && f.Replace? && r.normalize(e.pos) == r.normalize(f.pos) && anchor(e.end) == anchor(f.end)) ||
            (e.Append? && f.Append? && anchor(e.at) == anchor(f.at)) ||
            (e.Prepend? && f.Prepend? && anchor(e.at) == anchor(f.at)))
  {
    hide KeyOf;
    KeyIsExact(r, e, f);
  }

  /** No earlier edit has the key of edit i. */
  ghost predicate IsFirst(r: Rules, edits: seq<Edit>, i: nat)
    requires i < |edits|
  {
    forall j :: 0 <= j < i ==> KeyOf(r, edits[j]) != KeyOf(r, edits[i])
  }

  lemma {:induction false} FirstInFront(r: Rules, edits: seq<Edit>, i: nat)
    requires i + 1 < |edits|
    ensures IsFirst(r, edits, i) <==> IsFirst(r, edits[..|edits| - 1], i)
  {
    hide KeyOf;
    assert forall j :: 0 <= j <= i ==> edits[..|edits| - 1][j] == edits[j];
  }

  lemma {:induction false} NewKey(r: Rules, edits: seq<Edit>)
    requires edits != []
    ensures KeyOf(r, edits[|edits| - 1]) in KeysOf(r, edits[..|edits| - 1]) <==> !IsFirst(r, edits, |edits| - 1)
  {
    hide KeyOf;
    var front := edits[..|edits| - 1];
    assert forall j :: 0 <= j < |front| ==> front[j] == edits[j] && front[j] in front;
    assert forall e :: e in front ==> exists j :: 0 <= j < |front| && edits[j] == e;
  }

  /** The kept edits stand at these places of the list: every place that is the first of its key, in order. */
  ghost predicate AreFirsts(r: Rules, edits: seq<Edit>, kept: seq<Edit>, at: seq<nat>) {
    && |at| == |kept|
    && (forall k :: 0 <= k < |at| ==> at[k] < |edits| && kept[k] == edits[at[k]] && IsFirst(r, edits, at[k]))
    && (forall j, k :: 0 <= j < k < |at| ==> at[j] < at[k])
    && (forall i :: 0 <= i < |edits| && IsFirst(r, edits, i) ==> i in at)
  }

  lemma {:induction false} FirstsMore(r: Rules, edits: seq<Edit>, kept: seq<Edit>, at: seq<nat>)
    requires edits != [] && AreFirsts(r, edits[..|edits| - 1], kept, at)
    ensures var n := |edits| - 1;
      if IsFirst(r, edits, n) then AreFirsts(r, edits, kept + [edits[n]], at + [n]) else AreFirsts(r, edits, kept, at)
  {
    hide KeyOf, IsFirst, AreFirsts;
    FirstsStay(r, edits, kept, at);
    if IsFirst(r, edits, |edits| - 1) {
      NewFirst(r, edits, kept, at);
    } else {
      NoNewFirst(r, edits, kept, at);
    }
  }

  /** All firsts but perhaps the last place. */
  ghost predicate FirstsBelow(r: Rules, edits: seq<Edit>, kept: seq<Edit>, at: seq<nat>, n: nat)
    requires n <= |edits|
  {
    && |at| == |kept|
    && (forall k :: 0 <= k < |at| ==> at[k] < n && kept[k] == edits[at[k]] && IsFirst(r, edits, at[k]))
    && (forall j, k :: 0 <= j < k < |at| ==> at[j] < at[k])
    && (forall i :: 0 <= i < n && IsFirst(r, edits, i) ==> i in at)
  }

  lemma {:induction false} FirstsStay(r: Rules, edits: seq<Edit>, kept: seq<Edit>, at: seq<nat>)
    requires edits != [] && AreFirsts(r, edits[..|edits| - 1], kept, at)
    ensures FirstsBelow(r, edits, kept, at, |edits| - 1)
  {
    var n := |edits| - 1;
    forall i | 0 <= i < n ensures IsFirst(r, edits, i) <==> IsFirst(r, edits[..n], i) {
      FirstInFront(r, edits, i);
    }
    hide KeyOf, IsFirst;
  }

  lemma {:induction false} NewFirst(r: Rules, edits: seq<Edit>, kept: seq<Edit>, at: seq<nat>)
    requires edits != [] && FirstsBelow(r, edits, kept, at, |edits| - 1) && IsFirst(r, edits, |edits| - 1)
    ensures AreFirsts(r, edits, kept + [edits[|edits| - 1]], at + [|edits| - 1])
  {
    hide KeyOf, IsFirst;
    var n := |edits| - 1;
    var more := at + [n];
    assert more[|at|] == n && forall i :: i in at ==> i in more;
  }

  lemma {:induction false} NoNewFirst(r: Rules, edits: seq<Edit>, kept: seq<Edit>, at: seq<nat>)
    requires edits != [] && FirstsBelow(r, edits, kept, at, |edits| - 1) && !IsFirst(r, edits, |edits| - 1)
    ensures AreFirsts(r, edits, kept, at)
  {
    hide KeyOf, IsFirst;
  }

  /** The edits kept are the first of their keys, all of them, in the order they were given. */
  lemma {:induction false} FirstsAreKept(r: Rules, edits: seq<Edit>) returns (at: seq<nat>)
    ensures AreFirsts(r, edits, FirstOccurrences(r, edits), at)
  {
    if edits == [] {
      at := [];
    } else {
      hide KeyOf, IsFirst, AreFirsts;
      var n := |edits| - 1;
      var earlier := FirstsAreKept(r, edits[..n]);
      NewKey(r, edits);
      FirstsMore(r, edits, FirstOccurrences(r, edits[..n]), earlier);
      at := if IsFirst(r, edits, n) then earlier + [n] else earlier;
    }
  }

  /** A clash names two range replaces by position, the one that starts first first, and they do meet. */
  lemma {:induction false} ClashIsReal(r: Rules, edits: seq<Edit>, clash: (nat, nat))
    requires FirstClash(OrderRanges(RangesOf(r, edits))) == Some(clash)
    ensures 1 <= clash.0 <= |edits| && 1 <= clash.1 <= |edits| && clash.0 != clash.1
    ensures var a, b := edits[clash.0 - 1], edits[clash.1 - 1];
      IsRange(a) && IsRange(b) && Lo(r, a) <= Lo(r, b) <= Hi(r, a)
  {
    hide RangesOf, OrderRanges, FirstClash;
    var sorted := OrderRanges(RangesOf(r, edits));
    SortedRanges(r, edits);
    var i := ClashAt(sorted, clash);
    assert sorted[i] in sorted && sorted[i + 1] in sorted;
    assert !RangeBefore(sorted[i + 1], sorted[i]);
  }

  lemma {:induction false} SortedRanges(r: Rules, edits: seq<Edit>)
    ensures var sorted := OrderRanges(RangesOf(r, edits));
      && (forall g :: g in sorted ==> g.index < |edits| && IsRange(edits[g.index]))
      && (forall g :: g in sorted ==> g.start == Lo(r, edits[g.index]) && g.finish == Hi(r, edits[g.index]))
      && (forall i, j :: 0 <= i < j < |sorted| ==> !RangeBefore(sorted[j], sorted[i]))
      && (forall i, j :: 0 <= i < j < |sorted| ==> sorted[i].index != sorted[j].index)
  {
    var ranges := RangesOf(r, edits);
    var sorted := OrderRanges(ranges);
    RangesOfEdits(r, edits);
    SortKeeps(ranges, RangeBefore);
    SortSorts(ranges, RangeBefore);
    SortKeepsDistinct(ranges, RangeBefore);
    forall i, j | 0 <= i < j < |sorted| ensures sorted[i].index != sorted[j].index {
      assert sorted[i] in ranges && sorted[j] in ranges && sorted[i] != sorted[j];
    }
  }

  lemma {:induction false} ClashAt(ranges: seq<Range>, clash: (nat, nat)) returns (i: nat)
    requires FirstClash(ranges) == Some(clash)
    ensures i + 1 < |ranges| && clash == (ranges[i].index + 1, ranges[i + 1].index + 1)
    ensures ranges[i + 1].start <= ranges[i].finish
  {
    if ranges[1].start <= ranges[0].finish {
      i := 0;
    } else {
      i := ClashAt(ranges[1..], clash);
      i := i + 1;
    }
  }

  /** A reference is good if it names a line of the file and carries its tag. */
  predicate Good(r: Rules, lines: seq<string>, ref: string) {
    var at := RefAt(r, ref);
    at.line != 0 && at.line <= |lines| && r.hashOk(at.line, lines[at.line - 1], at.hash)
  }

  predicate Inside(r: Rules, lines: seq<string>, ref: string) {
    RefAt(r, ref).line != 0 && RefAt(r, ref).line <= |lines|
  }

  /** The line numbers of the references that are not good, in order. */
  function BadLines(r: Rules, lines: seq<string>, refs: seq<string>): seq<nat> {
    if refs == [] then []
    else (if Good(r, lines, refs[0]) then [] else [RefAt(r, refs[0]).line]) + BadLines(r, lines, refs[1..])
  }

  /** The error of a check: the first line number outside the file, or else every line with another tag, in order. */
  lemma {:induction false} ErrorIsExact(r: Rules, lines: seq<string>, refs: seq<string>, i: nat)
    ensures i < |refs| && !Inside(r, lines, refs[i]) && (forall j :: 0 <= j < i ==> Inside(r, lines, refs[j])) ==>
      ValidationError(r, lines, refs) == Some(OutOfBounds(RefAt(r, refs[i]).line))
    ensures (forall j :: 0 <= j < |refs| ==> Inside(r, lines, refs[j])) ==>
      ValidationError(r, lines, refs) ==
        if BadLines(r, lines, refs) == [] then None else Some(Mismatch(BadLines(r, lines, refs)))
  {
    var p := (ref: string) => !RefInBounds(r, lines, ref);
    if i < |refs| && !Inside(r, lines, refs[i]) && (forall j :: 0 <= j < i ==> Inside(r, lines, refs[j])) {
      FirstStray(refs, p, i);
    }
    if forall j :: 0 <= j < |refs| ==> Inside(r, lines, refs[j]) {
      StrayRefs(refs, p);
      MismatchesInOrder(r, lines, refs);
    }
  }

  lemma {:induction false} FirstStray(refs: seq<string>, p: string -> bool, i: nat)
    requires i < |refs| && p(refs[i]) && forall j :: 0 <= j < i ==> !p(refs[j])
    ensures Filter(refs, p) != [] && Filter(refs, p)[0] == refs[i]
  {
    if i > 0 {
      FirstStray(refs[1..], p, i - 1);
    }
  }

  lemma {:induction false} MismatchesInOrder(r: Rules, lines: seq<string>, refs: seq<string>)
    ensures MismatchedLines(r, lines, refs) == BadLines(r, lines, refs)
  {
    hide RefAt, RefValid, Good;
    if refs == [] {
    } else {
      var front, last := refs[..|refs| - 1], refs[|refs| - 1];
      MismatchesInOrder(r, lines, front);
      BadLinesMore(r, lines, front, last);
      assert refs == front + [last];
      assert RefValid(r, lines, last) <==> Good(r, lines, last) by { GoodIsValid(r, lines, last); }
    }
  }

  lemma {:induction false} GoodIsValid(r: Rules, lines: seq<string>, ref: string)
    ensures RefValid(r, lines, ref) <==> Good(r, lines, ref)
  {
  }

  lemma {:induction false} BadLinesMore(r: Rules, lines: seq<string>, front: seq<string>, last: string)
    ensures BadLines(r, lines, front + [last]) ==
      BadLines(r, lines, front) + if Good(r, lines, last) then [] else [RefAt(r, last).line]
  {
    hide RefAt, Good;
    if front == [] {
      assert (front + [last])[1..] == [];
    } else {
      assert (front + [last])[1..] == front[1..] + [last];
      BadLinesMore(r, lines, front[1..], last);
    }
  }

  predicate Writes(e: Edit, ref: string) {
    if e.Replace? then ref == e.pos || (e.end.Some? && e.end.value == ref) else e.at.Some? && e.at.value == ref
  }

  /** Every anchor an edit was given is among the references of the batch, and nothing else is. */
  lemma {:induction false} AnchorsAreCollected(edits: seq<Edit>, ref: string)
    ensures ref in CollectLineRefs(edits) <==> exists e :: e in edits && Writes(e, ref)
  {
    CollectedRefs(edits);
  }
}
