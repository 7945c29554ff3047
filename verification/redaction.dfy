/** Cutting withheld spans out of a chunk, or for quotes keeping only published spans. */
module Redaction {
  import opened Wrappers
  import opened ByteValues
  import opened Sorting
  import opened ByteRanges
  import opened PublishGate

  const NEWLINE: byte := 10

  predicate Spans(item: Item, x: int) {
    item.source.Some? && item.source.value.byteStart <= x < item.source.value.byteEnd
  }

  predicate Spanned(items: seq<Item>, x: int) { exists item :: item in items && Spans(item, x) }

  predicate HasId(items: seq<Item>, id: string) { exists item :: item in items && item.id == id }

  /** The records whose id is not among the published ones. */
  function Hidden(records: seq<Item>, visible: seq<Item>): seq<Item> {
    Filter(records, (item: Item) => !HasId(visible, item.id))
  }

  function Clamp(lo: int, hi: int, s: Source): Range {
    Range(if s.byteStart > lo then s.byteStart else lo, if s.byteEnd < hi then s.byteEnd else hi)
  }

  /** The clamped spans of the items that have a source. */
  function Clamped(lo: int, hi: int, items: seq<Item>): seq<Range> {
    if items == [] then []
    else (if items[0].source.Some? then [Clamp(lo, hi, items[0].source.value)] else []) + Clamped(lo, hi, items[1..])
  }

  lemma {:induction false} ClampedCovers(lo: int, hi: int, items: seq<Item>, x: int)
    ensures Covers(Clamped(lo, hi, items), x) <==> lo <= x < hi && Spanned(items, x)
  {
    if items != [] {
      var item := items[0];
      var first := if item.source.Some? then [Clamp(lo, hi, item.source.value)] else [];
      ClampedCovers(lo, hi, items[1..], x);
      assert Spanned(items, x) <==> Spans(item, x) || Spanned(items[1..], x) by {
        assert items == [item] + items[1..];
        assert forall other :: other in items[1..] ==> other in items;
      }
      CoversAppend(first, Clamped(lo, hi, items[1..]), x);
      if item.source.Some? {
        CoversOne(Clamp(lo, hi, item.source.value), x);
      }
    }
  }

  // ---- What should be left of a chunk ------------------------------------------------------------

  /** The bytes of raw[from..to] at the positions that are shown, in order. */
  function Kept(raw: seq<byte>, from: nat, till: int, shown: int -> bool): seq<byte>
    requires till <= |raw|
    decreases till
  {
    if till <= from then []
    else Kept(raw, from, till - 1, shown) + if shown(till - 1) then [raw[till - 1]] else []
  }

  /** The same with one newline in front of every run of shown positions but the first. */
  function Runs(raw: seq<byte>, from: nat, till: int, shown: int -> bool): seq<byte>
    requires till <= |raw|
    decreases till
  {
    if till <= from then []
    else
      var before := Runs(raw, from, till - 1, shown);
      if !shown(till - 1) then before
      else before + (if before != [] && !shown(till - 2) then [NEWLINE] else []) + [raw[till - 1]]
  }

  lemma {:induction false} KeptNothing(raw: seq<byte>, from: nat, shown: int -> bool)
    requires from <= |raw|
    ensures Kept(raw, from, from, shown) == [] && Runs(raw, from, from, shown) == []
  {
  }

  lemma {:induction false} KeptSame(raw: seq<byte>, from: nat, till: int, p: int -> bool, q: int -> bool)
    requires till <= |raw| && forall x :: from <= x < till ==> p(x) == q(x)
    ensures Kept(raw, from, till, p) == Kept(raw, from, till, q)
    decreases till
  {
    if from < till {
      KeptSame(raw, from, till - 1, p, q);
    }
  }

  lemma {:induction false} KeptStretch(raw: seq<byte>, from: nat, mid: int, till: int, shown: int -> bool)
    requires from <= mid <= till <= |raw|
    ensures (forall x :: mid <= x < till ==> shown(x)) ==>
      Kept(raw, from, till, shown) == Kept(raw, from, mid, shown) + raw[mid..till]
    ensures (forall x :: mid <= x < till ==> !shown(x)) ==> Kept(raw, from, till, shown) == Kept(raw, from, mid, shown)
    decreases till - mid
  {
    if mid < till {
      KeptStretch(raw, from, mid, till - 1, shown);
      assert raw[mid..till] == raw[mid..till - 1] + [raw[till - 1]];
    }
  }

  lemma {:induction false} RunsSame(raw: seq<byte>, from: nat, till: int, p: int -> bool, q: int -> bool)
    requires till <= |raw| && forall x :: from <= x < till ==> p(x) == q(x)
    ensures Runs(raw, from, till, p) == Runs(raw, from, till, q)
    decreases till
  {
    if from < till {
      RunsSame(raw, from, till - 1, p, q);
      if till - 1 == from {
        assert Runs(raw, from, till - 1, p) == [];
      }
    }
  }

  lemma {:induction false} RunsGap(raw: seq<byte>, from: nat, mid: int, till: int, shown: int -> bool)
    requires from <= mid <= till <= |raw| && forall x :: mid <= x < till ==> !shown(x)
    ensures Runs(raw, from, till, shown) == Runs(raw, from, mid, shown)
    decreases till - mid
  {
    if mid < till {
      RunsGap(raw, from, mid, till - 1, shown);
    }
  }

  lemma {:induction false} RunsRun(raw: seq<byte>, from: nat, mid: int, till: int, shown: int -> bool)
    requires from <= mid < till <= |raw| && forall x :: mid <= x < till ==> shown(x)
    requires Runs(raw, from, mid, shown) != [] ==> !shown(mid - 1)
    ensures var before := Runs(raw, from, mid, shown);
      Runs(raw, from, till, shown) == before + (if before != [] then [NEWLINE] else []) + raw[mid..till]
    decreases till - mid
  {
    if mid + 1 < till {
      RunsRun(raw, from, mid, till - 1, shown);
      assert raw[mid..till] == raw[mid..till - 1] + [raw[till - 1]];
      assert shown(till - 2);
    } else {
      assert raw[mid..till] == [raw[mid]];
    }
  }

  // ---- The sweeps ----------------------------------------------------------------------------------

  /** Between two neighbours of a canonical list nothing is covered. */
  lemma {:induction false} UncoveredBefore(ranges: seq<Range>, i: nat)
    requires Canonical(ranges) && i <= |ranges|
    ensures forall x :: (i > 0 ==> ranges[i - 1].end <= x) && (i < |ranges| ==> x < ranges[i].start) ==>
      !Covers(ranges, x)
  {
    forall x | (i > 0 ==> ranges[i - 1].end <= x) && (i < |ranges| ==> x < ranges[i].start) ensures !Covers(ranges, x) {
      forall r | r in ranges ensures !Within(r, x) {
        var j :| 0 <= j < |ranges| && ranges[j] == r;
        assert j < i - 1 ==> r.end < ranges[i - 1].start;
        assert j > i ==> ranges[i].end < r.start;
      }
    }
  }

  lemma {:induction false} CoveredInside(ranges: seq<Range>, i: nat)
    requires i < |ranges|
    ensures forall x :: ranges[i].start <= x < ranges[i].end ==> Covers(ranges, x)
  {
    forall x | ranges[i].start <= x < ranges[i].end ensures Covers(ranges, x) {
      assert ranges[i] in ranges && Within(ranges[i], x);
    }
  }

  /** The cursor sweep: the bytes between the removals. */
  method Sweep(raw: seq<byte>, lo: nat, hi: nat, removals: seq<Range>) returns (content: seq<byte>)
    requires lo <= hi <= |raw| && Canonical(removals)
    requires forall i :: 0 <= i < |removals| ==> lo <= removals[i].start && removals[i].end <= hi
    ensures content == Kept(raw, lo, hi, x => !Covers(removals, x))
  {
    hide Covers, Kept;
    ghost var shown := x => !Covers(removals, x);
    assert Kept(raw, lo, lo, shown) == [] by { KeptNothing(raw, lo, shown); }
    content := [];
    var cursor := lo;
    for i := 0 to |removals|
      invariant lo <= cursor <= hi
      invariant cursor == if i == 0 then lo else removals[i - 1].end
      invariant content == Kept(raw, lo, cursor, shown)
    {
      var r := removals[i];
      assert cursor <= r.start;
      UncoveredBefore(removals, i);
      KeptStretch(raw, lo, cursor, r.start, shown);
      content := content + raw[cursor..r.start];
      CoveredInside(removals, i);
      KeptStretch(raw, lo, r.start, r.end, shown);
      cursor := r.end;
    }
    UncoveredBefore(removals, |removals|);
    KeptStretch(raw, lo, cursor, hi, shown);
    content := content + raw[cursor..hi];
  }

  /** The published runs with a newline between any two. */
  method JoinRuns(raw: seq<byte>, lo: nat, hi: nat, runs: seq<Range>) returns (content: seq<byte>)
    requires lo <= hi <= |raw| && Canonical(runs)
    requires forall i :: 0 <= i < |runs| ==> lo <= runs[i].start && runs[i].end <= hi
    ensures content == Runs(raw, lo, hi, x => Covers(runs, x))
  {
    hide Covers, Runs;
    ghost var shown := x => Covers(runs, x);
    assert Runs(raw, lo, lo, shown) == [] by { KeptNothing(raw, lo, shown); }
    content := [];
    ghost var done: nat := lo;
    for i := 0 to |runs|
      invariant lo <= done <= hi
      invariant done == if i == 0 then lo else runs[i - 1].end
      invariant content == Runs(raw, lo, done, shown)
      invariant content == [] <==> i == 0
    {
      var r := runs[i];
      UncoveredBefore(runs, i);
      RunsGap(raw, lo, done, r.start, shown);
      CoveredInside(runs, i);
      RunsRun(raw, lo, r.start, r.end, shown);
      content := content + (if i > 0 then [NEWLINE] else []) + raw[r.start..r.end];
      done := r.end;
    }
    UncoveredBefore(runs, |runs|);
    RunsGap(raw, lo, done, hi, shown);
  }

  lemma {:induction false} MergedStaysInside(merged: seq<Range>, lo: int, hi: int)
    requires Canonical(merged) && forall x :: Covers(merged, x) ==> lo <= x < hi
    ensures forall i :: 0 <= i < |merged| ==> lo <= merged[i].start && merged[i].end <= hi
  {
    forall i | 0 <= i < |merged| ensures lo <= merged[i].start && merged[i].end <= hi {
      assert Within(merged[i], merged[i].start) && Within(merged[i], merged[i].end - 1);
      assert Covers(merged, merged[i].start) && Covers(merged, merged[i].end - 1);
    }
  }

  /** A position of the chunk is shown unless a hidden record spans it and no published one does. */
  predicate Shows(records: seq<Item>, visible: seq<Item>, lane: string, x: int) {
    if lane == "quote" || lane == "feel" then Spanned(visible, x)
    else !Spanned(Hidden(records, visible), x) || Spanned(visible, x)
  }

  /** The content of the chunk raw[lo..hi] before trimming. */
  function Gated(raw: seq<byte>, lo: nat, hi: nat, records: seq<Item>, visible: seq<Item>, lane: string): seq<byte>
    requires lo <= hi <= |raw|
  {
    var shown := x => Shows(records, visible, lane, x);
    if lane == "quote" || lane == "feel" then Runs(raw, lo, hi, shown) else Kept(raw, lo, hi, shown)
  }

  method RenderGatedContent(raw: seq<byte>, lo: nat, hi: nat, records: seq<Item>, visible: seq<Item>, lane: string)
    returns (content: seq<byte>)
    requires lo <= hi <= |raw|
    ensures content == Gated(raw, lo, hi, records, visible, lane)
  {
    var hiddenRanges := Clamped(lo, hi, Hidden(records, visible));
    var protectedRanges := Clamped(lo, hi, visible);
    ghost var shown := x => Shows(records, visible, lane, x);
    forall x
      ensures Covers(hiddenRanges, x) <==> lo <= x < hi && Spanned(Hidden(records, visible), x)
      ensures Covers(protectedRanges, x) <==> lo <= x < hi && Spanned(visible, x)
    {
      ClampedCovers(lo, hi, Hidden(records, visible), x);
      ClampedCovers(lo, hi, visible, x);
    }
    if lane == "quote" || lane == "feel" {
      var runs := MergeRanges(protectedRanges);
      MergedStaysInside(runs, lo, hi);
      content := JoinRuns(raw, lo, hi, runs);
      RunsSame(raw, lo, hi, x => Covers(runs, x), shown);
    } else {
      var remaining := SubtractRanges(hiddenRanges, protectedRanges);
      var nonEmpty := Filter(remaining, (r: Range) => r.start < r.end);
      forall x ensures Covers(nonEmpty, x) <==> Covers(remaining, x) {
        NonEmptyCovers(remaining, x);
      }
      var removals := MergeRanges(nonEmpty);
      MergedStaysInside(removals, lo, hi);
      content := Sweep(raw, lo, hi, removals);
      KeptSame(raw, lo, hi, x => !Covers(removals, x), shown);
    }
  }

  lemma {:induction false} NonEmptyCovers(ranges: seq<Range>, x: int)
    ensures Covers(Filter(ranges, (r: Range) => r.start < r.end), x) <==> Covers(ranges, x)
  {
    forall r ensures r in Filter(ranges, (r: Range) => r.start < r.end) <==> r in ranges && r.start < r.end {
      FilterHas(ranges, (r: Range) => r.start < r.end, r);
    }
  }

  // ---- What redaction guarantees -------------------------------------------------------------------

  lemma {:induction false} KeptDependsOnShown(raw: seq<byte>, other: seq<byte>, from: nat, till: int,
      shown: int -> bool)
    requires till <= |raw| == |other|
    requires forall x :: from <= x < till && shown(x) ==> raw[x] == other[x]
    ensures Kept(raw, from, till, shown) == Kept(other, from, till, shown)
    ensures Runs(raw, from, till, shown) == Runs(other, from, till, shown)
    decreases till
  {
    if from < till {
      KeptDependsOnShown(raw, other, from, till - 1, shown);
    }
  }

  /** Withheld text leaves no trace: files that agree on every shown position publish the same content. */
  lemma {:induction false} HiddenBytesLeaveNoTrace(raw: seq<byte>, other: seq<byte>, lo: nat, hi: nat,
      records: seq<Item>, visible: seq<Item>, lane: string)
    requires lo <= hi <= |raw| == |other|
    requires forall x :: lo <= x < hi && Shows(records, visible, lane, x) ==> raw[x] == other[x]
    ensures Gated(raw, lo, hi, records, visible, lane) == Gated(other, lo, hi, records, visible, lane)
  {
    KeptDependsOnShown(raw, other, lo, hi, x => Shows(records, visible, lane, x));
  }

  /** Around a gap quotes and feelings are kept on lines of their own; other lanes close the gap. */
  lemma {:induction false} AroundAGap(raw: seq<byte>, lo: nat, p: nat, q: nat, hi: nat, records: seq<Item>,
      visible: seq<Item>, lane: string)
    requires lo < p < q < hi <= |raw|
    requires forall x :: lo <= x < hi ==> (Shows(records, visible, lane, x) <==> x < p || q <= x)
    ensures Gated(raw, lo, hi, records, visible, lane) ==
      raw[lo..p] + (if lane == "quote" || lane == "feel" then [10] else []) + raw[q..hi]
  {
    hide Shows, Kept, Runs;
    var shown := x => Shows(records, visible, lane, x);
    KeptNothing(raw, lo, shown);
    if lane == "quote" || lane == "feel" {
      RunsRun(raw, lo, lo, p, shown);
      RunsGap(raw, lo, p, q, shown);
      RunsRun(raw, lo, q, hi, shown);
    } else {
      KeptStretch(raw, lo, lo, p, shown);
      KeptStretch(raw, lo, p, q, shown);
      KeptStretch(raw, lo, q, hi, shown);
    }
  }

  /** A record the gate published, and one it withheld. */
  predicate IsPublished(records: seq<Item>, lane: string, w: World, item: Item) {
    item in records && ReasonFor(item, lane, w) == Visible
  }

  predicate IsWithheld(records: seq<Item>, lane: string, w: World, item: Item) {
    item in records && ReasonFor(item, lane, w) != Visible
  }

  /** A published record goes by the same id; a record without an id goes by the empty one. */
  ghost predicate Claimed(records: seq<Item>, lane: string, w: World, id: string) {
    exists item :: IsPublished(records, lane, w, item) && item.id == id
  }

  lemma {:induction false} ShownIsPublished(records: seq<Item>, lane: string, w: World)
    ensures forall item :: item in Shown(records, lane, w) <==> IsPublished(records, lane, w, item)
  {
    forall item ensures item in Shown(records, lane, w) <==> IsPublished(records, lane, w, item) {
      FilterHas(records, item => ReasonFor(item, lane, w) == Visible, item);
    }
  }

  /** What is hidden are the records whose id no published one goes by. */
  lemma {:induction false} HiddenIsUnclaimed(records: seq<Item>, lane: string, w: World, item: Item)
    ensures item in Hidden(records, Shown(records, lane, w)) <==> item in records && !Claimed(records, lane, w, item.id)
  {
    hide Shown;
    var visible := Shown(records, lane, w);
    ShownIsPublished(records, lane, w);
    FilterHas(records, (item: Item) => !HasId(visible, item.id), item);
    assert HasId(visible, item.id) <==> Claimed(records, lane, w, item.id);
  }

  /** No withheld record goes by the id of a published one. */
  ghost predicate NoIdShared(records: seq<Item>, lane: string, w: World) {
    forall item :: IsWithheld(records, lane, w, item) ==> !Claimed(records, lane, w, item.id)
  }

  /** What is hidden is what the gate withheld, exactly when no withheld record shares its id with a published one. */
  lemma {:induction false} HiddenIsWithheld(records: seq<Item>, lane: string, w: World)
    ensures NoIdShared(records, lane, w) <==>
      forall item :: item in Hidden(records, Shown(records, lane, w)) <==> IsWithheld(records, lane, w, item)
  {
    hide Hidden, Shown;
    forall item
      ensures item in Hidden(records, Shown(records, lane, w)) <==>
        item in records && !Claimed(records, lane, w, item.id)
    {
      HiddenIsUnclaimed(records, lane, w, item);
    }
    assert forall item :: IsPublished(records, lane, w, item) ==> Claimed(records, lane, w, item.id);
  }

  ghost predicate PublishedSpan(records: seq<Item>, lane: string, w: World, x: int) {
    exists item :: IsPublished(records, lane, w, item) && Spans(item, x)
  }

  ghost predicate WithheldSpan(records: seq<Item>, lane: string, w: World, x: int) {
    exists item :: IsWithheld(records, lane, w, item) && Spans(item, x)
  }

  /** Every withheld record that spans the position goes by the id of a published one. */
  ghost predicate OnlyClaimedSpans(records: seq<Item>, lane: string, w: World, x: int) {
    forall item :: IsWithheld(records, lane, w, item) && Spans(item, x) ==> Claimed(records, lane, w, item.id)
  }

  /**
   * A position is shown if a published record spans it and, in a redacting lane, also if no withheld record does. Where
   * withheld records do, it is shown all the same exactly when each of them goes by the id of a published one.
   */
  lemma {:induction false} ShownIsPublishable(records: seq<Item>, lane: string, w: World, x: int)
    ensures var redacting := lane != "quote" && lane != "feel";
      var shown := Shows(records, Shown(records, lane, w), lane, x);
      var published, withheld := PublishedSpan(records, lane, w, x), WithheldSpan(records, lane, w, x);
      && (shown <==> published || (redacting && (!withheld || OnlyClaimedSpans(records, lane, w, x))))
      && (NoIdShared(records, lane, w) ==> (shown <==> published || (redacting && !withheld)))
  {
    hide Hidden, Shown;
    var visible := Shown(records, lane, w);
    ShownIsPublished(records, lane, w);
    assert Spanned(visible, x) <==> PublishedSpan(records, lane, w, x);
    forall item ensures item in Hidden(records, visible) <==> item in records && !Claimed(records, lane, w, item.id) {
      HiddenIsUnclaimed(records, lane, w, item);
    }
    assert forall item :: IsPublished(records, lane, w, item) ==> Claimed(records, lane, w, item.id);
    assert Spanned(Hidden(records, visible), x) <==> !OnlyClaimedSpans(records, lane, w, x);
  }

  /** The failing case in full: of two records without an id one is published; what only the other spans is shown. */
  lemma {:induction false} SharedIdShowsWithheld()
    ensures var source := (start, end) => Some(Source("notes.md", Some("digest"), start, end));
      var public, private := Item("", "user", {}, source(0, 5)), Item("", "assistant", {}, source(5, 9));
      var w := World(path => Some("digest"), item => true);
      var records := [public, private];
      && ReasonFor(public, "orient", w) == Visible && ReasonFor(private, "orient", w) == AssistantOrient
      && Shows(records, Shown(records, "orient", w), "orient", 7)
      && WithheldSpan(records, "orient", w, 7) && !PublishedSpan(records, "orient", w, 7)
  {
    var public := Item("", "user", {}, Some(Source("notes.md", Some("digest"), 0, 5)));
    var private := Item("", "assistant", {}, Some(Source("notes.md", Some("digest"), 5, 9)));
    var w := World(path => Some("digest"), item => true);
    var records := [public, private];
    assert IsPublished(records, "orient", w, public) && IsWithheld(records, "orient", w, private);
    assert Spans(private, 7);
    ShownIsPublishable(records, "orient", w, 7);
  }
}
