/** Line-anchored edits of a file: the splices, their order, and the batch that applies them bottom-up. */
module HashlineEdits {
  import opened Wrappers
  import opened Sorting
  import opened HashlineFormat
  import Text

  datatype Payload = Block(text: string) | Rows(rows: seq<string>)

  /** An anchor as the caller wrote it, with at least one character; an edit without one has none. */
  type Anchor = s: string | s != "" witness "?"

  /**
   * The text rules an edit goes through. The theorems hold for every choice of them: `normalize` brings an
   * anchor into its canonical form, `parse` reads that form, `hashOk` is the content-hash test, `newLines`
   * cuts a payload into rows, and the other three are the wrapped-line, indentation and whitespace heuristics.
   */
  datatype Rules = Rules(
    normalize: string -> string,
    parse: string -> LineRef,
    hashOk: (nat, string, string) -> bool,
    newLines: Payload -> seq<string>,
    autocorrect: (seq<string>, seq<string>) -> seq<string>,
    restoreIndent: (string, string) -> string,
    sameText: (string, string) -> bool)

  datatype Edit =
    | Replace(pos: Anchor, end: Option<Anchor>, payload: Payload)
    | Append(at: Option<Anchor>, payload: Payload)
    | Prepend(at: Option<Anchor>, payload: Payload)

  datatype EditError =
    | OutOfBounds(line: nat)
    | Mismatch(lines: seq<nat>)
    | Overlap(first: nat, second: nat)
    | InvertedRange(start: nat, finish: nat)
    | EmptyInsert
    | MissingAnchorLine

  datatype Report = Report(lines: seq<string>, noopEdits: nat, deduplicatedEdits: nat)

  /** A canonical form can be a reference only if it has text and no bar, which no reference holds. */
  predicate Bare(r: Rules, anchor: string) { r.normalize(anchor) != "" && '|' !in r.normalize(anchor) }

  /** The line and tag an anchor names; what cannot be a reference names line zero, which no file has. */
  function RefAt(r: Rules, anchor: string): LineRef {
    if Bare(r, anchor) then r.parse(r.normalize(anchor)) else LineRef(0, "")
  }

  predicate Anchored(e: Edit) { e.Replace? || e.at.Some? }

  /** First and last line an anchored edit names. */
  function Lo(r: Rules, e: Edit): nat
    requires Anchored(e)
  {
    if e.Replace? then RefAt(r, e.pos).line else RefAt(r, e.at.value).line
  }

  function Hi(r: Rules, e: Edit): nat
    requires Anchored(e)
  {
    if e.Replace? && e.end.Some? then RefAt(r, e.end.value).line else Lo(r, e)
  }

  // ---- Splices -------------------------------------------------------------------------------

  function Min(a: nat, b: nat): nat { if a < b then a else b }

  /** `Array.prototype.splice`, which clamps both the start and the count to the array. */
  function Splice(lines: seq<string>, start: nat, count: nat, rows: seq<string>): seq<string> {
    var s := Min(start, |lines|);
    lines[..s] + rows + lines[s + Min(count, |lines| - s)..]
  }

  function RestoreFirst(r: Rules, template: string, rows: seq<string>): seq<string> {
    if rows == [] then [] else [r.restoreIndent(template, rows[0])] + rows[1..]
  }

  function SetRows(r: Rules, original: string, payload: Payload): seq<string> {
    RestoreFirst(r, original, r.autocorrect([original], r.newLines(payload)))
  }

  /** Drops a payload's first and last row when they repeat the lines just outside the range. */
  function StripRangeEcho(lines: seq<string>, start: nat, finish: nat, rows: seq<string>): seq<string>
    requires 1 <= start <= finish
  {
    if |rows| <= 1 || |rows| <= finish - start + 1 then rows
    else
      var tail := if 2 <= start <= |lines| + 1 && rows[0] == lines[start - 2] then rows[1..] else rows;
      if finish < |lines| && tail != [] && tail[|tail| - 1] == lines[finish] then tail[..|tail| - 1] else tail
  }

  function RangeRows(r: Rules, lines: seq<string>, start: nat, finish: nat, payload: Payload): seq<string>
    requires 1 <= start <= finish
  {
    var original := lines[Min(start - 1, |lines|)..Min(finish, |lines|)];
    var template := if start <= |lines| then lines[start - 1] else "";
    RestoreFirst(r, template, r.autocorrect(original, StripRangeEcho(lines, start, finish, r.newLines(payload))))
  }

  function StripAfterEcho(r: Rules, anchor: string, rows: seq<string>): seq<string> {
    if rows != [] && r.sameText(rows[0], anchor) then rows[1..] else rows
  }

  function StripBeforeEcho(r: Rules, anchor: string, rows: seq<string>): seq<string> {
    if |rows| > 1 && r.sameText(rows[|rows| - 1], anchor) then rows[..|rows| - 1] else rows
  }

  /** One pass of the apply loop, with validation switched off. */
  function Step(r: Rules, lines: seq<string>, e: Edit): Result<seq<string>, EditError>
    requires Anchored(e) ==> 1 <= Lo(r, e)
  {
    match e
    case Replace(_, None, payload) =>
      var original := if Lo(r, e) <= |lines| then lines[Lo(r, e) - 1] else "";
      Ok(Splice(lines, Lo(r, e) - 1, 1, SetRows(r, original, payload)))
    case Replace(_, Some(_), payload) =>
      var start, finish := Lo(r, e), Hi(r, e);
      if start > finish then Err(InvertedRange(start, finish))
      else Ok(Splice(lines, start - 1, finish - start + 1, RangeRows(r, lines, start, finish, payload)))
    case Append(Some(_), payload) =>
      var rows := r.newLines(payload);
      if rows == [] then Err(EmptyInsert)
      else if Lo(r, e) > |lines| then Err(MissingAnchorLine)
      else
        var kept := StripAfterEcho(r, lines[Lo(r, e) - 1], rows);
        if kept == [] then Err(EmptyInsert) else Ok(Splice(lines, Lo(r, e), 0, kept))
    case Prepend(Some(_), payload) =>
      var rows := r.newLines(payload);
      if rows == [] then Err(EmptyInsert)
      else if |rows| > 1 && Lo(r, e) > |lines| then Err(MissingAnchorLine)
      else
        var kept := if |rows| > 1 then StripBeforeEcho(r, lines[Lo(r, e) - 1], rows) else rows;
        Ok(Splice(lines, Lo(r, e) - 1, 0, kept))
    case Append(None, payload) =>
      var rows := r.newLines(payload);
      if rows == [] then Err(EmptyInsert) else if lines == [""] then Ok(rows) else Ok(lines + rows)
    case Prepend(None, payload) =>
      var rows := r.newLines(payload);
      if rows == [] then Err(EmptyInsert) else if lines == [""] then Ok(rows) else Ok(rows + lines)
  }

  // ---- Order ---------------------------------------------------------------------------------

  /** The sort key: the last line an edit names; unanchored edits stand below every line. */
  function SortLine(r: Rules, e: Edit): int {
    if Anchored(e) then Hi(r, e) else -1
  }

  function Precedence(e: Edit): nat {
    if e.Replace? then 0 else if e.Append? then 1 else 2
  }

  predicate Before(r: Rules, a: Edit, b: Edit) {
    SortLine(r, a) > SortLine(r, b) || (SortLine(r, a) == SortLine(r, b) && Precedence(a) < Precedence(b))
  }

  function Order(r: Rules, edits: seq<Edit>): seq<Edit> {
    Sort(edits, (a, b) => Before(r, a, b))
  }

  lemma {:induction false} OrderFacts(r: Rules, edits: seq<Edit>)
    ensures multiset(Order(r, edits)) == multiset(edits)
    ensures |Order(r, edits)| == |edits|
    ensures forall e :: e in Order(r, edits) <==> e in edits
    ensures forall i, j :: 0 <= i < j < |edits| ==> !Before(r, Order(r, edits)[j], Order(r, edits)[i])
  {
    var before := (a, b) => Before(r, a, b);
    SortKeeps(edits, before);
    SortSorts(edits, before);
    var sorted := Order(r, edits);
    forall i, j | 0 <= i < j < |edits| ensures !Before(r, sorted[j], sorted[i]) {
      assert !before(sorted[j], sorted[i]);
    }
  }

  // ---- Duplicates ----------------------------------------------------------------------------

  datatype KeyParts = KeyParts(op: string, pos: string, end: string, body: string)

  function CanonicalAnchor(r: Rules, anchor: Option<Anchor>): string {
    if anchor.Some? then r.normalize(anchor.value) else ""
  }

  /** What an edit says: its operation, its anchors in canonical form and its rows. */
  function PartsOf(r: Rules, e: Edit): KeyParts {
    match e
    case Replace(pos, end, payload) =>
      KeyParts("replace", r.normalize(pos), CanonicalAnchor(r, end), Text.Join(r.newLines(payload), "\n"))
    case Append(at, payload) => KeyParts("append", CanonicalAnchor(r, at), "", Text.Join(r.newLines(payload), "\n"))
    case Prepend(at, payload) => KeyParts("prepend", CanonicalAnchor(r, at), "", Text.Join(r.newLines(payload), "\n"))
  }

  /** The key edits are compared by: the parts in one text, joined by bars. */
  function KeyOf(r: Rules, e: Edit): string {
    var parts := PartsOf(r, e);
    parts.op + "|" + (parts.pos + "|" + if e.Replace? then parts.end + "|" + parts.body else parts.body)
  }

  lemma {:induction false} FirstBar(a: string, b: string, c: string, d: string)
    requires '|' !in a && '|' !in c
    ensures a + "|" + b == c + "|" + d <==> a == c && b == d
  {
    if a + "|" + b == c + "|" + d {
      assert (a + "|" + b)[|a|] == '|' && (c + "|" + d)[|c|] == '|';
      assert forall i :: 0 <= i < |a| ==> (a + "|" + b)[i] == a[i] && a[i] in a;
      assert forall i :: 0 <= i < |c| ==> (c + "|" + d)[i] == c[i] && c[i] in c;
      assert a == (a + "|" + b)[..|a|] && c == (c + "|" + d)[..|c|];
      assert b == (a + "|" + b)[|a| + 1..] && d == (c + "|" + d)[|c| + 1..];
    }
  }

  /** Edits without a bar in their canonical anchors have one key exactly when they say the same. */
  lemma {:induction false} KeyIsExact(r: Rules, e: Edit, f: Edit)
    requires forall ref :: ref in RefsOf(e) + RefsOf(f) ==> '|' !in r.normalize(ref)
    ensures KeyOf(r, e) == KeyOf(r, f) <==> PartsOf(r, e) == PartsOf(r, f)
  {
    var a, b := PartsOf(r, e), PartsOf(r, f);
    NoBars(r, e);
    NoBars(r, f);
    var after := if e.Replace? then a.end + "|" + a.body else a.body;
    var other := if f.Replace? then b.end + "|" + b.body else b.body;
    FirstBar(a.op, a.pos + "|" + after, b.op, b.pos + "|" + other);
    FirstBar(a.pos, after, b.pos, other);
    FirstBar(a.end, a.body, b.end, b.body);
  }

  lemma {:induction false} NoBars(r: Rules, e: Edit)
    requires forall ref :: ref in RefsOf(e) ==> '|' !in r.normalize(ref)
    ensures var parts := PartsOf(r, e);
      && '|' !in parts.op && '|' !in parts.pos && '|' !in parts.end
      && (parts.op == "replace" <==> e.Replace?) && (!e.Replace? ==> parts.end == "")
  {
  }

  function KeysOf(r: Rules, edits: seq<Edit>): set<string> {
    set e | e in edits :: KeyOf(r, e)
  }

  /** Keeps an edit when no earlier edit has its key. */
  function FirstOccurrences(r: Rules, edits: seq<Edit>): seq<Edit> {
    if edits == [] then []
    else
      var last := edits[|edits| - 1];
      var kept := FirstOccurrences(r, edits[..|edits| - 1]);
      if KeyOf(r, last) in KeysOf(r, edits[..|edits| - 1]) then kept else kept + [last]
  }

  method DedupeEdits(r: Rules, edits: seq<Edit>) returns (deduped: seq<Edit>, dropped: nat)
    ensures deduped == FirstOccurrences(r, edits)
    ensures dropped == |edits| - |deduped|
  {
    var seen: set<string> := {};
    deduped, dropped := [], 0;
    for i := 0 to |edits|
      invariant seen == KeysOf(r, edits[..i])
      invariant deduped == FirstOccurrences(r, edits[..i])
      invariant dropped + |deduped| == i
    {
      var key := KeyOf(r, edits[i]);
      assert edits[..i + 1][..i] == edits[..i];
      assert edits[..i + 1] == edits[..i] + [edits[i]];
      assert KeysOf(r, edits[..i + 1]) == KeysOf(r, edits[..i]) + {key};
      if key in seen {
        dropped := dropped + 1;
      } else {
        seen := seen + {key};
        deduped := deduped + [edits[i]];
      }
    }
    assert edits[..|edits|] == edits;
  }

  /** Nothing is lost but repeats: every edit's key survives, once, and survivors are edits of the list. */
  lemma {:induction false} FirstOccurrencesKeepKeys(r: Rules, edits: seq<Edit>)
    ensures KeysOf(r, FirstOccurrences(r, edits)) == KeysOf(r, edits)
    ensures forall e :: e in FirstOccurrences(r, edits) ==> e in edits
    ensures var kept := FirstOccurrences(r, edits);
      forall i, j :: 0 <= i < j < |kept| ==> KeyOf(r, kept[i]) != KeyOf(r, kept[j])
  {
    if edits != [] {
      var front, last := edits[..|edits| - 1], edits[|edits| - 1];
      assert edits == front + [last];
      FirstOccurrencesKeepKeys(r, front);
      var kept := FirstOccurrences(r, front);
      assert KeysOf(r, edits) == KeysOf(r, front) + {KeyOf(r, last)};
      assert KeysOf(r, kept + [last]) == KeysOf(r, kept) + {KeyOf(r, last)};
      forall e | e in kept ensures KeyOf(r, e) in KeysOf(r, front) {
        assert e in front;
      }
    }
  }

  lemma {:induction false} DistinctKeysAreKept(r: Rules, edits: seq<Edit>)
    requires forall i, j :: 0 <= i < j < |edits| ==> KeyOf(r, edits[i]) != KeyOf(r, edits[j])
    ensures FirstOccurrences(r, edits) == edits
  {
    if edits != [] {
      DistinctKeysAreKept(r, edits[..|edits| - 1]);
      assert edits == edits[..|edits| - 1] + [edits[|edits| - 1]];
    }
  }

  // ---- Overlap -------------------------------------------------------------------------------

  datatype Range = Range(start: nat, finish: nat, index: nat)

  predicate IsRange(e: Edit) { e.Replace? && e.end.Some? }

  function RangesOf(r: Rules, edits: seq<Edit>): seq<Range> {
    if edits == [] then []
    else
      var last := edits[|edits| - 1];
      RangesOf(r, edits[..|edits| - 1]) + if IsRange(last) then [Range(Lo(r, last), Hi(r, last), |edits| - 1)] else []
  }

  predicate RangeBefore(a: Range, b: Range) {
    a.start < b.start || (a.start == b.start && a.finish < b.finish)
  }

  function OrderRanges(ranges: seq<Range>): seq<Range> { Sort(ranges, RangeBefore) }

  predicate NeighboursApart(ranges: seq<Range>) {
    forall i :: 1 <= i < |ranges| ==> ranges[i - 1].finish < ranges[i].start
  }

  /** The first pair of sorted neighbours that meet, as the edits' positions counted from one. */
  function FirstClash(ranges: seq<Range>): Option<(nat, nat)> {
    if |ranges| < 2 then None
    else if ranges[1].start <= ranges[0].finish then Some((ranges[0].index + 1, ranges[1].index + 1))
    else FirstClash(ranges[1..])
  }

  lemma {:induction false} NoClashMeansApart(ranges: seq<Range>)
    ensures FirstClash(ranges).None? <==> NeighboursApart(ranges)
  {
    if |ranges| >= 2 {
      NoClashMeansApart(ranges[1..]);
      assert NeighboursApart(ranges) ==> NeighboursApart(ranges[1..]) by {
        assert forall i :: 1 <= i < |ranges| - 1 ==> ranges[1..][i - 1] == ranges[i] && ranges[1..][i] == ranges[i + 1];
      }
      if ranges[0].finish < ranges[1].start && NeighboursApart(ranges[1..]) {
        forall i | 1 <= i < |ranges| ensures ranges[i - 1].finish < ranges[i].start {
          if i > 1 {
            assert ranges[1..][i - 2].finish < ranges[1..][i - 1].start;
          }
        }
      }
    }
  }

  /** The neighbour test over ranges sorted by start; on a clash it names the two edits, counted from one. */
  method DetectOverlappingRanges(r: Rules, edits: seq<Edit>) returns (clash: Option<(nat, nat)>)
    ensures clash == FirstClash(OrderRanges(RangesOf(r, edits)))
  {
    var ranges: seq<Range> := [];
    for i := 0 to |edits|
      invariant ranges == RangesOf(r, edits[..i])
    {
      assert edits[..i + 1][..i] == edits[..i];
      var edit := edits[i];
      if IsRange(edit) {
        ranges := ranges + [Range(Lo(r, edit), Hi(r, edit), i)];
      }
    }
    assert edits[..|edits|] == edits;
    SortKeeps(ranges, RangeBefore);
    if |ranges| < 2 {
      return None;
    }
    var sorted := OrderRanges(ranges);
    for i := 1 to |sorted|
      invariant FirstClash(sorted) == FirstClash(sorted[i - 1..])
    {
      if sorted[i].start <= sorted[i - 1].finish {
        return Some((sorted[i - 1].index + 1, sorted[i].index + 1));
      }
    }
    return None;
  }

  lemma {:induction false} RangesOfEdits(r: Rules, edits: seq<Edit>)
    ensures var ranges := RangesOf(r, edits);
      && (forall i, j :: 0 <= i < j < |ranges| ==> ranges[i].index < ranges[j].index)
      && (forall g :: g in ranges ==> g.index < |edits| && IsRange(edits[g.index]))
      && (forall g :: g in ranges ==> g.start == Lo(r, edits[g.index]) && g.finish == Hi(r, edits[g.index]))
      && (forall k :: 0 <= k < |edits| && IsRange(edits[k]) ==> Range(Lo(r, edits[k]), Hi(r, edits[k]), k) in ranges)
  {
    if edits != [] {
      RangesOfEdits(r, edits[..|edits| - 1]);
    }
  }

  /** Every two range replaces name disjoint lines. */
  ghost predicate RangesDisjoint(r: Rules, edits: seq<Edit>) {
    forall i, j :: 0 <= i < |edits| && 0 <= j < |edits| && i != j && IsRange(edits[i]) && IsRange(edits[j]) ==>
      Hi(r, edits[i]) < Lo(r, edits[j]) || Hi(r, edits[j]) < Lo(r, edits[i])
  }

  ghost predicate RangesUpright(r: Rules, edits: seq<Edit>) {
    forall e :: e in edits && IsRange(e) ==> Lo(r, e) <= Hi(r, e)
  }

  /** For upright ranges, comparing sorted neighbours decides disjointness of all pairs. */
  lemma {:induction false} OverlapTestIsExact(r: Rules, edits: seq<Edit>)
    requires RangesUpright(r, edits)
    ensures NeighboursApart(OrderRanges(RangesOf(r, edits))) <==> RangesDisjoint(r, edits)
  {
    var ranges := RangesOf(r, edits);
    var sorted := OrderRanges(ranges);
    RangesOfEdits(r, edits);
    SortKeeps(ranges, RangeBefore);
    SortSorts(ranges, RangeBefore);
    if NeighboursApart(sorted) {
      NeighboursApartMeansAllApart(sorted);
      SortedRangesCover(r, edits, sorted);
    }
    if RangesDisjoint(r, edits) {
      SortKeepsDistinct(ranges, RangeBefore);
      forall i | 1 <= i < |sorted| ensures sorted[i - 1].finish < sorted[i].start {
        var a, b := sorted[i - 1], sorted[i];
        assert a in ranges && b in ranges;
        assert a.index != b.index;
        assert !RangeBefore(b, a);
      }
    }
  }

  lemma {:induction false} SortedRangesCover(r: Rules, edits: seq<Edit>, sorted: seq<Range>)
    requires forall g :: g in RangesOf(r, edits) ==> g in sorted
    requires forall i, j :: 0 <= i < j < |sorted| ==> sorted[i].finish < sorted[j].start
    ensures RangesDisjoint(r, edits)
  {
    RangesOfEdits(r, edits);
    forall i, j | 0 <= i < |edits| && 0 <= j < |edits| && i != j && IsRange(edits[i]) && IsRange(edits[j])
      ensures Hi(r, edits[i]) < Lo(r, edits[j]) || Hi(r, edits[j]) < Lo(r, edits[i])
    {
      var a, b := Range(Lo(r, edits[i]), Hi(r, edits[i]), i), Range(Lo(r, edits[j]), Hi(r, edits[j]), j);
      assert a in sorted && b in sorted;
      var p :| 0 <= p < |sorted| && sorted[p] == a;
      var q :| 0 <= q < |sorted| && sorted[q] == b;
    }
  }

  lemma {:induction false} NeighboursApartMeansAllApart(s: seq<Range>)
    requires NeighboursApart(s) && forall g :: g in s ==> g.start <= g.finish
    ensures forall i, j :: 0 <= i < j < |s| ==> s[i].finish < s[j].start
  {
    if |s| > 1 {
      var front := s[..|s| - 1];
      NeighboursApartMeansAllApart(front);
      forall i | 0 <= i < |front| ensures s[i].finish < s[|s| - 1].start {
        assert front[|front| - 1] == s[|s| - 2] && s[|s| - 2] in s;
        if i < |front| - 1 {
          assert front[i].finish < front[|front| - 1].start;
        }
      }
    }
  }

  // ---- Validation ----------------------------------------------------------------------------

  predicate RefValid(r: Rules, lines: seq<string>, ref: string) {
    var at := RefAt(r, ref);
    1 <= at.line <= |lines| && r.hashOk(at.line, lines[at.line - 1], at.hash)
  }

  predicate RefInBounds(r: Rules, lines: seq<string>, ref: string) {
    1 <= RefAt(r, ref).line <= |lines|
  }

  function RefsOf(e: Edit): seq<string> {
    match e
    case Replace(pos, end, _) => if end.Some? then [pos, end.value] else [pos]
    case Append(at, _) => if at.Some? then [at.value] else []
    case Prepend(at, _) => if at.Some? then [at.value] else []
  }

  function CollectLineRefs(edits: seq<Edit>): seq<string> {
    if edits == [] then [] else RefsOf(edits[0]) + CollectLineRefs(edits[1..])
  }

  function MismatchedLines(r: Rules, lines: seq<string>, refs: seq<string>): seq<nat> {
    if refs == [] then []
    else
      var last := refs[|refs| - 1];
      MismatchedLines(r, lines, refs[..|refs| - 1]) + if RefValid(r, lines, last) then [] else [RefAt(r, last).line]
  }

  /** The first reference past the file's end, else every reference whose hash disagrees, else no error. */
  function ValidationError(r: Rules, lines: seq<string>, refs: seq<string>): Option<EditError> {
    var stray := Filter(refs, ref => !RefInBounds(r, lines, ref));
    if stray != [] then Some(OutOfBounds(RefAt(r, stray[0]).line))
    else if MismatchedLines(r, lines, refs) != [] then Some(Mismatch(MismatchedLines(r, lines, refs)))
    else None
  }

  method ValidateLineRefs(r: Rules, lines: seq<string>, refs: seq<string>) returns (error: Option<EditError>)
    ensures error == ValidationError(r, lines, refs)
  {
    var mismatches: seq<nat> := [];
    for i := 0 to |refs|
      invariant mismatches == MismatchedLines(r, lines, refs[..i])
      invariant Filter(refs, ref => !RefInBounds(r, lines, ref)) ==
        Filter(refs[i..], ref => !RefInBounds(r, lines, ref))
    {
      assert refs[..i + 1][..i] == refs[..i];
      var at := RefAt(r, refs[i]);
      if at.line < 1 || at.line > |lines| {
        return Some(OutOfBounds(at.line));
      }
      if !r.hashOk(at.line, lines[at.line - 1], at.hash) {
        mismatches := mismatches + [at.line];
      }
    }
    assert refs[..|refs|] == refs;
    if |mismatches| > 0 {
      return Some(Mismatch(mismatches));
    }
    return None;
  }

  ghost predicate RefsValid(r: Rules, lines: seq<string>, refs: seq<string>) {
    forall ref :: ref in refs ==> RefValid(r, lines, ref)
  }

  lemma {:induction false} NoErrorMeansValid(r: Rules, lines: seq<string>, refs: seq<string>)
    ensures ValidationError(r, lines, refs).None? <==> RefsValid(r, lines, refs)
  {
    StrayRefs(refs, ref => !RefInBounds(r, lines, ref));
    MismatchedRefs(r, lines, refs);
    if RefsValid(r, lines, refs) {
      assert forall ref :: ref in refs ==> RefInBounds(r, lines, ref);
    }
  }

  lemma {:induction false} StrayRefs(refs: seq<string>, p: string -> bool)
    ensures Filter(refs, p) == [] <==> forall ref :: ref in refs ==> !p(ref)
  {
    if refs != [] {
      StrayRefs(refs[1..], p);
      assert forall ref :: ref in refs <==> ref == refs[0] || ref in refs[1..];
    }
  }

  lemma {:induction false} MismatchedRefs(r: Rules, lines: seq<string>, refs: seq<string>)
    ensures MismatchedLines(r, lines, refs) == [] <==> RefsValid(r, lines, refs)
  {
    if refs != [] {
      MismatchedRefs(r, lines, refs[..|refs| - 1]);
      assert forall ref :: ref in refs <==> ref == refs[|refs| - 1] || ref in refs[..|refs| - 1];
    }
  }

  lemma {:induction false} CollectedRefs(edits: seq<Edit>)
    ensures forall ref :: ref in CollectLineRefs(edits) <==> exists e :: e in edits && ref in RefsOf(e)
  {
    if edits != [] {
      CollectedRefs(edits[1..]);
      assert forall e :: e in edits <==> e == edits[0] || e in edits[1..];
    }
  }

  // ---- The batch -----------------------------------------------------------------------------

  ghost predicate NamesLines(r: Rules, edits: seq<Edit>) {
    forall e :: e in edits && Anchored(e) ==> 1 <= Lo(r, e)
  }

  /** Applies edits one after another; an edit that changes nothing is only counted. */
  function Run(r: Rules, lines: seq<string>, edits: seq<Edit>): Result<(seq<string>, nat), EditError>
    requires NamesLines(r, edits)
  {
    if edits == [] then Ok((lines, 0))
    else
      match Run(r, lines, edits[..|edits| - 1])
      case Err(error) => Err(error)
      case Ok((current, noops)) =>
        match Step(r, current, edits[|edits| - 1])
        case Err(error) => Err(error)
        case Ok(next) => Ok((next, if next == current then noops + 1 else noops))
  }

  function Apply(r: Rules, lines: seq<string>, edits: seq<Edit>): Result<Report, EditError> {
    if edits == [] then Ok(Report(lines, 0, 0))
    else
      var kept := FirstOccurrences(r, edits);
      var sorted := Order(r, kept);
      var invalid := ValidationError(r, lines, CollectLineRefs(sorted));
      if invalid.Some? then Err(invalid.value)
      else
        var clash := FirstClash(OrderRanges(RangesOf(r, sorted)));
        if clash.Some? then Err(Overlap(clash.value.0, clash.value.1))
        else
          ValidatedNamesLines(r, lines, sorted);
          match Run(r, lines, sorted)
          case Err(error) => Err(error)
          case Ok((final, noops)) =>
            FirstOccurrencesShorter(r, edits);
            Ok(Report(final, noops, |edits| - |kept|))
  }

  lemma {:induction false} FirstOccurrencesShorter(r: Rules, edits: seq<Edit>)
    ensures |FirstOccurrences(r, edits)| <= |edits|
  {
    if edits != [] {
      FirstOccurrencesShorter(r, edits[..|edits| - 1]);
    }
  }

  lemma {:induction false} ValidatedNamesLines(r: Rules, lines: seq<string>, edits: seq<Edit>)
    requires ValidationError(r, lines, CollectLineRefs(edits)).None?
    ensures NamesLines(r, edits)
  {
    NoErrorMeansValid(r, lines, CollectLineRefs(edits));
    CollectedRefs(edits);
    forall e | e in edits && Anchored(e) ensures 1 <= Lo(r, e) {
      assert RefsOf(e)[0] in RefsOf(e);
      assert RefValid(r, lines, RefsOf(e)[0]);
    }
  }

  function LinesOf(content: string): seq<string> {
    if content == "" then [] else Text.Split(content, '\n')
  }

  /** The apply loop: `lines` is replaced by the next file unless nothing changed. */
  method ApplyInOrder(r: Rules, original: seq<string>, edits: seq<Edit>)
    returns (outcome: Result<(seq<string>, nat), EditError>)
    requires NamesLines(r, edits)
    ensures outcome == Run(r, original, edits)
  {
    hide Step;
    var lines, noopEdits := original, 0;
    for i := 0 to |edits|
      invariant Run(r, original, edits[..i]) == Ok((lines, noopEdits))
    {
      assert edits[..i + 1][..i] == edits[..i];
      var next := Step(r, lines, edits[i]);
      if next.Err? {
        RunStopsAtError(r, original, edits, i + 1);
        return Err(next.error);
      }
      if next.value == lines {
        noopEdits := noopEdits + 1;
      } else {
        lines := next.value;
      }
    }
    assert edits[..|edits|] == edits;
    return Ok((lines, noopEdits));
  }

  datatype TextReport = TextReport(content: string, noopEdits: nat, deduplicatedEdits: nat)

  /** Dedupe, sort, validate once, check overlap, then splice in order. */
  method ApplyToLines(r: Rules, lines: seq<string>, edits: seq<Edit>) returns (report: Result<Report, EditError>)
    requires edits != []
    ensures report == Apply(r, lines, edits)
  {
    hide Run, FirstOccurrences, Order, RangesOf, CollectLineRefs, ValidationError, FirstClash, OrderRanges;
    var deduped, dropped := DedupeEdits(r, edits);
    var sorted := Order(r, deduped);
    var invalid := ValidateLineRefs(r, lines, CollectLineRefs(sorted));
    if invalid.Some? {
      return Err(invalid.value);
    }
    var clash := DetectOverlappingRanges(r, sorted);
    if clash.Some? {
      return Err(Overlap(clash.value.0, clash.value.1));
    }
    ValidatedNamesLines(r, lines, sorted);
    var outcome := ApplyInOrder(r, lines, sorted);
    if outcome.Err? {
      return Err(outcome.error);
    }
    return Ok(Report(outcome.value.0, outcome.value.1, dropped));
  }

  /** The batch on a file's text; no edits leave the text alone. */
  method ApplyHashlineEditsWithReport(r: Rules, content: string, edits: seq<Edit>)
    returns (report: Result<TextReport, EditError>)
    ensures report == match Apply(r, LinesOf(content), edits)
      case Err(error) => Err(error)
      case Ok(done) => Ok(TextReport(Text.Join(done.lines, "\n"), done.noopEdits, done.deduplicatedEdits))
  {
    if |edits| == 0 {
      Text.JoinSplit(content, '\n');
      return Ok(TextReport(content, 0, 0));
    }
    var done := ApplyToLines(r, LinesOf(content), edits);
    if done.Err? {
      return Err(done.error);
    }
    return Ok(TextReport(Text.Join(done.value.lines, "\n"), done.value.noopEdits, done.value.deduplicatedEdits));
  }

  lemma {:induction false} RunStopsAtError(r: Rules, lines: seq<string>, edits: seq<Edit>, k: nat)
    requires NamesLines(r, edits) && k <= |edits| && Run(r, lines, edits[..k]).Err?
    ensures Run(r, lines, edits) == Run(r, lines, edits[..k])
    decreases |edits| - k
  {
    if k == |edits| {
      assert edits[..k] == edits;
    } else {
      assert edits[..k + 1][..k] == edits[..k];
      RunStopsAtError(r, lines, edits, k + 1);
    }
  }
}
