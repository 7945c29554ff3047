/** Half-open byte ranges: subtraction, merging, and what a list of them covers. Clamped ranges may be inverted. */
module ByteRanges {
  import opened Sorting

  datatype Range = Range(start: int, end: int)

  predicate Within(r: Range, x: int) { r.start <= x < r.end }

  predicate Covers(ranges: seq<Range>, x: int) { exists r :: r in ranges && Within(r, x) }

  predicate TupleBefore(a: Range, b: Range) { a.start < b.start || (a.start == b.start && a.end < b.end) }

  /** Sorted, non-empty, and with a gap between any two. */
  ghost predicate Canonical(ranges: seq<Range>) {
    && (forall i :: 0 <= i < |ranges| ==> ranges[i].start < ranges[i].end)
    && (forall i, j :: 0 <= i < j < |ranges| ==> ranges[i].end < ranges[j].start)
  }

  lemma {:induction false} CoversAppend(a: seq<Range>, b: seq<Range>, x: int)
    ensures Covers(a + b, x) <==> Covers(a, x) || Covers(b, x)
  {
    if Covers(a, x) {
      var r :| r in a && Within(r, x);
      assert r in a + b;
    }
    if Covers(b, x) {
      var r :| r in b && Within(r, x);
      assert r in a + b;
    }
  }

  lemma {:induction false} CoversOne(r: Range, x: int)
    ensures Covers([r], x) <==> Within(r, x)
  {
    assert r in [r];
  }

  lemma {:induction false} CoversNext(ranges: seq<Range>, i: nat, x: int)
    requires i < |ranges|
    ensures Covers(ranges[..i + 1], x) <==> Covers(ranges[..i], x) || Within(ranges[i], x)
  {
    assert ranges[..i + 1] == ranges[..i] + [ranges[i]];
    CoversAppend(ranges[..i], [ranges[i]], x);
    CoversOne(ranges[i], x);
  }

  /** Takes one protected range out of every piece. */
  method CutOut(pieces: seq<Range>, keep: Range) returns (nextPieces: seq<Range>)
    ensures forall x :: Covers(nextPieces, x) <==> Covers(pieces, x) && !Within(keep, x)
  {
    nextPieces := [];
    for k := 0 to |pieces|
      invariant forall x :: Covers(nextPieces, x) <==> Covers(pieces[..k], x) && !Within(keep, x)
    {
      var piece := pieces[k];
      var added: seq<Range> := [];
      if keep.end <= piece.start || keep.start >= piece.end {
        added := [piece];
      } else {
        if piece.start < keep.start {
          added := added + [Range(piece.start, keep.start)];
        }
        if keep.end < piece.end {
          added := added + [Range(keep.end, piece.end)];
        }
      }
      forall x ensures Covers(nextPieces + added, x) <==> Covers(pieces[..k + 1], x) && !Within(keep, x) {
        CoversNext(pieces, k, x);
        CoversAppend(nextPieces, added, x);
        CutPiece(piece, keep, added, x);
      }
      nextPieces := nextPieces + added;
    }
    assert pieces[..|pieces|] == pieces;
  }

  /** What is left of one piece, even when piece or protected range is inverted. */
  lemma {:induction false} CutPiece(piece: Range, keep: Range, added: seq<Range>, x: int)
    requires added ==
      if keep.end <= piece.start || keep.start >= piece.end then [piece]
      else
        (if piece.start < keep.start then [Range(piece.start, keep.start)] else []) +
        (if keep.end < piece.end then [Range(keep.end, piece.end)] else [])
    ensures Covers(added, x) <==> Within(piece, x) && !Within(keep, x)
  {
    var left, right := Range(piece.start, keep.start), Range(keep.end, piece.end);
    CoversOne(piece, x);
    CoversAppend(if piece.start < keep.start then [left] else [], if keep.end < piece.end then [right] else [], x);
    CoversOne(left, x);
    CoversOne(right, x);
  }

  /** The pieces of one range that no protected range covers. */
  method SubtractFromOne(range: Range, protected: seq<Range>) returns (pieces: seq<Range>)
    ensures forall x :: Covers(pieces, x) <==> Within(range, x) && !Covers(protected, x)
  {
    pieces := [range];
    forall x ensures Covers(pieces, x) <==> Within(range, x) {
      CoversOne(range, x);
    }
    for j := 0 to |protected|
      invariant forall x :: Covers(pieces, x) <==> Within(range, x) && !Covers(protected[..j], x)
    {
      ghost var before := pieces;
      pieces := CutOut(pieces, protected[j]);
      forall x ensures Covers(pieces, x) <==> Within(range, x) && !Covers(protected[..j + 1], x) {
        CoversNext(protected, j, x);
        assert Covers(pieces, x) <==> Covers(before, x) && !Within(protected[j], x);
      }
    }
    assert protected[..|protected|] == protected;
  }

  /** Subtraction is exact: a byte is left when some range has it and no protected range does. */
  method SubtractRanges(ranges: seq<Range>, protected: seq<Range>) returns (remaining: seq<Range>)
    ensures forall x :: Covers(remaining, x) <==> Covers(ranges, x) && !Covers(protected, x)
  {
    remaining := [];
    for i := 0 to |ranges|
      invariant forall x :: Covers(remaining, x) <==> Covers(ranges[..i], x) && !Covers(protected, x)
    {
      var pieces := SubtractFromOne(ranges[i], protected);
      forall x ensures Covers(remaining + pieces, x) <==> Covers(ranges[..i + 1], x) && !Covers(protected, x) {
        CoversNext(ranges, i, x);
        CoversAppend(remaining, pieces, x);
      }
      remaining := remaining + pieces;
    }
    assert ranges[..|ranges|] == ranges;
  }

  lemma {:induction false} TupleOrder()
    ensures StrictWeakOrder(TupleBefore)
  {
  }

  lemma {:induction false} SortedCovers(ranges: seq<Range>, x: int)
    ensures Covers(Sort(ranges, TupleBefore), x) <==> Covers(ranges, x)
  {
    SortKeeps(ranges, TupleBefore);
  }

  /** Growing the last range to take in one that starts no later than it ends. */
  lemma {:induction false} GrowLast(front: seq<Range>, last: Range, r: Range, x: int)
    requires last.start <= r.start <= last.end && last.start < last.end
    ensures Covers(front + [Range(last.start, if last.end > r.end then last.end else r.end)], x) <==>
      Covers(front + [last], x) || Within(r, x)
  {
    var grown := Range(last.start, if last.end > r.end then last.end else r.end);
    CoversAppend(front, [grown], x);
    CoversAppend(front, [last], x);
    CoversOne(grown, x);
    CoversOne(last, x);
  }

  /** The merged list is canonical and covers the same bytes. */
  method MergeRanges(ranges: seq<Range>) returns (merged: seq<Range>)
    ensures Canonical(merged)
    ensures forall x :: Covers(merged, x) <==> Covers(ranges, x)
  {
    hide StrictWeakOrder;
    var sorted := Sort(ranges, TupleBefore);
    TupleOrder();
    SortSorts(ranges, TupleBefore);
    merged := [];
    for i := 0 to |sorted|
      invariant Canonical(merged)
      invariant forall x :: Covers(merged, x) <==> Covers(sorted[..i], x)
      invariant merged != [] && i < |sorted| ==> merged[|merged| - 1].start <= sorted[i].start
    {
      var r := sorted[i];
      forall x ensures Covers(sorted[..i + 1], x) <==> Covers(merged, x) || Within(r, x) {
        CoversNext(sorted, i, x);
      }
      assert i + 1 < |sorted| ==> !TupleBefore(sorted[i + 1], r);
      if r.start >= r.end {
        assert forall x :: !Within(r, x);
        continue;
      }
      ghost var before := merged;
      if merged != [] && r.start <= merged[|merged| - 1].end {
        var last := merged[|merged| - 1];
        var front := merged[..|merged| - 1];
        assert merged == front + [last];
        merged := front + [Range(last.start, if last.end > r.end then last.end else r.end)];
        forall x ensures Covers(merged, x) <==> Covers(before, x) || Within(r, x) {
          GrowLast(front, last, r, x);
        }
      } else {
        merged := merged + [r];
        forall x ensures Covers(merged, x) <==> Covers(before, x) || Within(r, x) {
          CoversAppend(before, [r], x);
          CoversOne(r, x);
        }
      }
    }
    forall x ensures Covers(merged, x) <==> Covers(ranges, x) {
      assert sorted[..|sorted|] == sorted;
      SortedCovers(ranges, x);
    }
  }

  /** A canonical list starts at its first covered byte and its first range ends where that run ends. */
  lemma {:induction false} FirstRun(ranges: seq<Range>, x: int)
    requires Canonical(ranges) && ranges != []
    ensures Covers(ranges, x) <==> Within(ranges[0], x) || Covers(ranges[1..], x)
    ensures Covers(ranges[1..], x) ==> ranges[0].end < x
  {
    hide Covers;
    assert ranges == [ranges[0]] + ranges[1..];
    CoversAppend([ranges[0]], ranges[1..], x);
    CoversOne(ranges[0], x);
    LaterRuns(ranges, x);
  }

  lemma {:induction false} LaterRuns(ranges: seq<Range>, x: int)
    requires Canonical(ranges) && ranges != []
    ensures Covers(ranges[1..], x) ==> ranges[0].end < x
  {
    if Covers(ranges[1..], x) {
      var r :| r in ranges[1..] && Within(r, x);
      var j :| 0 <= j < |ranges[1..]| && ranges[1..][j] == r;
      assert ranges[j + 1] == r;
    }
  }

  /** Coverage determines a canonical list: merging has one possible result. */
  lemma {:induction false} CanonicalIsUnique(a: seq<Range>, b: seq<Range>)
    requires Canonical(a) && Canonical(b)
    requires forall x :: Covers(a, x) <==> Covers(b, x)
    ensures a == b
    decreases |a|
  {
    if a == [] || b == [] {
      assert a != [] ==> a[0] in a && Within(a[0], a[0].start);
      assert b != [] ==> b[0] in b && Within(b[0], b[0].start);
      assert a != [] ==> Covers(a, a[0].start);
      assert b != [] ==> Covers(b, b[0].start);
    } else {
      FirstRun(a, a[0].start);
      FirstRun(b, a[0].start);
      FirstRun(a, b[0].start);
      FirstRun(b, b[0].start);
      FirstRun(a, a[0].end);
      FirstRun(b, a[0].end);
      FirstRun(a, b[0].end);
      FirstRun(b, b[0].end);
      assert a[0] == b[0];
      forall x ensures Covers(a[1..], x) <==> Covers(b[1..], x) {
        FirstRun(a, x);
        FirstRun(b, x);
      }
      CanonicalIsUnique(a[1..], b[1..]);
      assert a == [a[0]] + a[1..] && b == [b[0]] + b[1..];
    }
  }
}
