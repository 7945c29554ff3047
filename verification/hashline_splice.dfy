/**
 * Edits that stay out of each other's way act as one simultaneous splice of the original file,
 * so their order does not matter and one validation up front covers the whole batch.
 */
module HashlineSplice {
  import opened Wrappers
  import opened HashlineEdits
  import opened SimultaneousSplice
  import Sorting

  /** A range replace whose payload is long enough for the boundary-echo test to look outside the range. */
  predicate LooksOutside(r: Rules, e: Edit)
    requires Anchored(e)
  {
    IsRange(e) && |r.newLines(e.payload)| > 1 && |r.newLines(e.payload)| > Hi(r, e) - Lo(r, e) + 1
  }

  predicate InFile(r: Rules, lines: seq<string>, e: Edit) {
    Anchored(e) && 1 <= Lo(r, e) <= Hi(r, e) <= |lines|
  }

  /** The rows a replace puts in, computed from the original file alone. */
  function NewRows(r: Rules, lines: seq<string>, e: Edit): seq<string>
    requires e.Replace? && InFile(r, lines, e)
  {
    if e.end.None? then SetRows(r, lines[Lo(r, e) - 1], e.payload)
    else RangeRows(r, lines, Lo(r, e), Hi(r, e), e.payload)
  }

  /** What an edit contributes, judged against the original file. */
  ghost function PieceOf(r: Rules, lines: seq<string>, e: Edit): Piece<string> {
    if !InFile(r, lines, e) then After([])
    else
      match e
      case Replace(_, _, _) => Swap(Hi(r, e), NewRows(r, lines, e))
      case Append(_, payload) => After(StripAfterEcho(r, lines[Lo(r, e) - 1], r.newLines(payload)))
      case Prepend(_, payload) => Above((below: string) => StripBeforeEcho(r, below, r.newLines(payload)))
  }

  ghost function SeatOf(r: Rules, e: Edit): Seat {
    Seat(if e.Replace? then AReplace else if e.Append? then AnAppend else APrepend, if Anchored(e) then Lo(r, e) else 0)
  }

  /** Who sits where. */
  ghost function Sitters(r: Rules, edits: seq<Edit>): map<Seat, Edit> {
    if edits == [] then map[]
    else Sitters(r, edits[..|edits| - 1])[SeatOf(r, edits[|edits| - 1]) := edits[|edits| - 1]]
  }

  ghost function Seated(r: Rules, lines: seq<string>, edits: seq<Edit>): Seating<string> {
    map s | s in Sitters(r, edits) :: PieceOf(r, lines, Sitters(r, edits)[s])
  }

  /** The file with all edits in place at once. */
  ghost function Spliced(r: Rules, lines: seq<string>, edits: seq<Edit>): seq<string> {
    Render(lines, Seated(r, lines, edits), 1)
  }

  /** `b` changes no line that `a` replaces or looks at, unless `b` is put right before what `a` puts in. */
  ghost predicate Clear(r: Rules, lines: seq<string>, a: Edit, b: Edit)
    requires InFile(r, lines, a) && InFile(r, lines, b)
  {
    match a
    case Append(_, _) => !(b.Append? && Lo(r, a) == Lo(r, b))
    case Prepend(_, _) => !(b.Prepend? && Lo(r, a) == Lo(r, b))
    case Replace(_, _, _) =>
      match b
      case Replace(_, _, _) =>
        || (Hi(r, a) < Lo(r, b) && (LooksOutside(r, a) ==> Hi(r, a) + 1 < Lo(r, b)))
        || Hi(r, b) < Lo(r, a)
      case Append(_, _) => Lo(r, b) < Lo(r, a) || Hi(r, a) < Lo(r, b)
      case Prepend(_, _) =>
        || Lo(r, b) < Lo(r, a)
        || (Lo(r, b) == Lo(r, a) && NewRows(r, lines, a) != [])
        || (Hi(r, a) < Lo(r, b) && (LooksOutside(r, a) ==> Hi(r, a) + 1 < Lo(r, b)))
  }

  ghost predicate Independent(r: Rules, lines: seq<string>, edits: seq<Edit>) {
    && (forall e :: e in edits ==> InFile(r, lines, e))
    && (forall i, j :: 0 <= i < |edits| && 0 <= j < |edits| && i != j ==> Clear(r, lines, edits[i], edits[j]))
  }

  ghost predicate InsertsNothing(r: Rules, lines: seq<string>, e: Edit) {
    (e.Append? && PieceOf(r, lines, e) == After([])) || (e.Prepend? && r.newLines(e.payload) == [])
  }

  ghost predicate ChangesNothing(r: Rules, lines: seq<string>, e: Edit) {
    e.Replace? && InFile(r, lines, e) && NewRows(r, lines, e) == lines[Lo(r, e) - 1..Hi(r, e)]
  }

  // ---- One step of the batch is one more edit of the splice -----------------------------------

  /** `done` was applied before `e` in sorted order, and none of it disturbs `e`. */
  ghost predicate Ahead(r: Rules, lines: seq<string>, done: seq<Edit>, e: Edit) {
    && InFile(r, lines, e)
    && (forall d :: d in done ==>
      InFile(r, lines, d) && !Before(r, e, d) && Clear(r, lines, e, d) && Clear(r, lines, d, e))
  }

  lemma {:induction false} AheadIsBelow(r: Rules, lines: seq<string>, done: seq<Edit>, e: Edit)
    requires Ahead(r, lines, done, e)
    ensures AllFrom(Seated(r, lines, done), if e.Prepend? then Lo(r, e) else Hi(r, e) + 1)
    ensures LooksOutside(r, e) ==>
      Seat(AReplace, Hi(r, e) + 1) !in Seated(r, lines, done) && Seat(APrepend, Hi(r, e) + 1) !in Seated(r, lines, done)
    ensures e.Prepend? ==> Seat(APrepend, Lo(r, e)) !in Seated(r, lines, done)
    ensures e.Prepend? && Seat(AReplace, Lo(r, e)) in Seated(r, lines, done) ==>
      Seated(r, lines, done)[Seat(AReplace, Lo(r, e))].Swap? &&
        Seated(r, lines, done)[Seat(AReplace, Lo(r, e))].rows != []
  {
    SittersFacts(r, done);
  }

  lemma {:induction false} SittersFacts(r: Rules, edits: seq<Edit>)
    ensures forall s :: s in Sitters(r, edits) ==> Sitters(r, edits)[s] in edits && SeatOf(r, Sitters(r, edits)[s]) == s
    ensures forall e :: e in edits ==> SeatOf(r, e) in Sitters(r, edits)
  {
    if edits != [] {
      SittersFacts(r, edits[..|edits| - 1]);
    }
  }

  lemma {:induction false} SeatLast(r: Rules, lines: seq<string>, done: seq<Edit>, e: Edit)
    ensures Seated(r, lines, done + [e]) == Seated(r, lines, done)[SeatOf(r, e) := PieceOf(r, lines, e)]
  {
    hide PieceOf, SeatOf;
    assert (done + [e])[..|done|] == done;
  }

  lemma {:induction false} StepReplace(r: Rules, lines: seq<string>, done: seq<Edit>, e: Edit)
    requires Ahead(r, lines, done, e) && e.Replace?
    ensures Step(r, Spliced(r, lines, done), e) == Ok(Spliced(r, lines, done + [e]))
    ensures Spliced(r, lines, done + [e]) == Spliced(r, lines, done) <==> ChangesNothing(r, lines, e)
  {
    var below := AroundReplace(r, lines, done, e);
    ReplaceReadsOriginals(r, lines, below, e);
    SpliceMiddle(lines, Lo(r, e), Hi(r, e), NewRows(r, lines, e), below);
  }

  /** The file before and after a replace: only the lines it names differ. */
  lemma {:induction false} AroundReplace(r: Rules, lines: seq<string>, done: seq<Edit>, e: Edit)
    returns (below: seq<string>)
    requires Ahead(r, lines, done, e) && e.Replace?
    ensures Spliced(r, lines, done) == lines[..Hi(r, e)] + below
    ensures Spliced(r, lines, done + [e]) == lines[..Lo(r, e) - 1] + (NewRows(r, lines, e) + below)
    ensures LooksOutside(r, e) ==> (below == [] <==> Hi(r, e) == |lines|)
    ensures LooksOutside(r, e) && Hi(r, e) < |lines| ==> below[0] == lines[Hi(r, e)]
  {
    hide Clear, NewRows, Seated, Render;
    var seats, lo, hi := Seated(r, lines, done), Lo(r, e), Hi(r, e);
    AheadIsBelow(r, lines, done, e);
    SeatLast(r, lines, done, e);
    below := Render(lines, seats, hi + 1);
    if hi == |lines| {
      RenderEnd(lines, seats);
    } else if LooksOutside(r, e) {
      RenderHead(lines, seats, hi + 1);
    }
    RenderFromTop(lines, seats, hi);
    AddSwap(lines, seats, lo, hi, NewRows(r, lines, e));
  }

  lemma {:induction false} SpliceMiddle(lines: seq<string>, lo: nat, hi: nat, rows: seq<string>, below: seq<string>)
    requires 1 <= lo <= hi <= |lines|
    ensures Splice(lines[..hi] + below, lo - 1, hi - lo + 1, rows) == lines[..lo - 1] + (rows + below)
    ensures lines[..lo - 1] + (rows + below) == lines[..hi] + below <==> rows == lines[lo - 1..hi]
  {
    var above, middle := lines[..lo - 1], lines[lo - 1..hi];
    assert lines[..hi] == above + middle;
    if above + (rows + below) == lines[..hi] + below {
      assert rows == (above + (rows + below))[|above|..|above| + |rows|];
      assert middle == (lines[..hi] + below)[|above|..hi];
    }
  }

  /** Whatever the replace reads of the current file still reads as in the original. */
  lemma {:induction false} ReplaceReadsOriginals(r: Rules, lines: seq<string>, below: seq<string>, e: Edit)
    requires InFile(r, lines, e) && e.Replace?
    requires LooksOutside(r, e) ==> (below == [] <==> Hi(r, e) == |lines|)
    requires LooksOutside(r, e) && Hi(r, e) < |lines| ==> below[0] == lines[Hi(r, e)]
    ensures Step(r, lines[..Hi(r, e)] + below, e) ==
      Ok(Splice(lines[..Hi(r, e)] + below, Lo(r, e) - 1, Hi(r, e) - Lo(r, e) + 1, NewRows(r, lines, e)))
  {
    var lo, hi := Lo(r, e), Hi(r, e);
    var current := lines[..hi] + below;
    if IsRange(e) {
      assert current[lo - 1..hi] == lines[lo - 1..hi];
      SameEcho(current, lines, lo, hi, r.newLines(e.payload));
    }
  }

  lemma {:induction false} SameEcho(current: seq<string>, lines: seq<string>, lo: nat, hi: nat, rows: seq<string>)
    requires 1 <= lo <= hi <= |lines| && hi <= |current|
    requires forall k :: 0 <= k < hi ==> current[k] == lines[k]
    requires |rows| > 1 && |rows| > hi - lo + 1 ==>
      (hi < |current| <==> hi < |lines|) && (hi < |lines| ==> current[hi] == lines[hi])
    ensures StripRangeEcho(current, lo, hi, rows) == StripRangeEcho(lines, lo, hi, rows)
  {
  }

  lemma {:induction false} StepAppend(r: Rules, lines: seq<string>, done: seq<Edit>, e: Edit)
    requires Ahead(r, lines, done, e) && e.Append?
    ensures Step(r, Spliced(r, lines, done), e) ==
      if InsertsNothing(r, lines, e) then Err(EmptyInsert) else Ok(Spliced(r, lines, done + [e]))
    ensures !InsertsNothing(r, lines, e) ==> Spliced(r, lines, done + [e]) != Spliced(r, lines, done)
  {
    hide Clear, Seated;
    var seats, at := Seated(r, lines, done), Lo(r, e);
    var rows := PieceOf(r, lines, e).rows;
    AheadIsBelow(r, lines, done, e);
    SeatLast(r, lines, done, e);
    RenderFromTop(lines, seats, at);
    AddAfter(lines, seats, at, rows);
    SpliceAfter(lines, at, rows, Render(lines, seats, at + 1));
  }

  lemma {:induction false} SpliceAfter(lines: seq<string>, at: nat, rows: seq<string>, below: seq<string>)
    requires 1 <= at <= |lines|
    ensures (lines[..at] + below)[at - 1] == lines[at - 1]
    ensures Splice(lines[..at] + below, at, 0, rows) == lines[..at - 1] + ([lines[at - 1]] + rows + below)
    ensures rows != [] ==> lines[..at - 1] + ([lines[at - 1]] + rows + below) != lines[..at] + below
  {
    assert lines[..at] == lines[..at - 1] + [lines[at - 1]];
    assert |lines[..at - 1] + ([lines[at - 1]] + rows + below)| == |lines[..at] + below| + |rows|;
  }

  lemma {:induction false} StepPrepend(r: Rules, lines: seq<string>, done: seq<Edit>, e: Edit)
    requires Ahead(r, lines, done, e) && e.Prepend?
    ensures Step(r, Spliced(r, lines, done), e) ==
      if InsertsNothing(r, lines, e) then Err(EmptyInsert) else Ok(Spliced(r, lines, done + [e]))
    ensures !InsertsNothing(r, lines, e) ==> Spliced(r, lines, done + [e]) != Spliced(r, lines, done)
  {
    hide Clear, Seated;
    var seats, at := Seated(r, lines, done), Lo(r, e);
    AheadIsBelow(r, lines, done, e);
    SeatLast(r, lines, done, e);
    RenderFromTop(lines, seats, at - 1);
    AddAbove(lines, seats, at, PieceOf(r, lines, e).pick);
    var body := Render(lines, seats, at);
    SpliceBefore(lines, at, StripBeforeEcho(r, body[0], r.newLines(e.payload)), body);
  }

  lemma {:induction false} SpliceBefore(lines: seq<string>, at: nat, rows: seq<string>, body: seq<string>)
    requires 1 <= at <= |lines| && body != []
    ensures Splice(lines[..at - 1] + body, at - 1, 0, rows) == lines[..at - 1] + (rows + body)
    ensures (lines[..at - 1] + body)[at - 1] == body[0]
    ensures rows != [] ==> lines[..at - 1] + (rows + body) != lines[..at - 1] + body
  {
    assert |lines[..at - 1] + (rows + body)| == |lines[..at - 1] + body| + |rows|;
  }

  /**
   * One pass of the apply loop adds one edit to the splice, fails on an empty insert, and is a no-op
   * exactly when the rows are the ones already there.
   */
  lemma {:induction false} StepAddsEdit(r: Rules, lines: seq<string>, done: seq<Edit>, e: Edit)
    requires Ahead(r, lines, done, e)
    ensures Step(r, Spliced(r, lines, done), e) ==
      if InsertsNothing(r, lines, e) then Err(EmptyInsert) else Ok(Spliced(r, lines, done + [e]))
    ensures !InsertsNothing(r, lines, e) ==>
      (Spliced(r, lines, done + [e]) == Spliced(r, lines, done) <==> ChangesNothing(r, lines, e))
  {
    match e
    case Replace(_, _, _) => StepReplace(r, lines, done, e);
    case Append(_, _) => StepAppend(r, lines, done, e);
    case Prepend(_, _) => StepPrepend(r, lines, done, e);
  }

  // ---- The sorted run ------------------------------------------------------------------------

  ghost function NoopEdits(r: Rules, lines: seq<string>, edits: seq<Edit>): set<Edit> {
    set e | e in edits && ChangesNothing(r, lines, e)
  }

  ghost predicate SomeInsertIsEmpty(r: Rules, lines: seq<string>, edits: seq<Edit>)
  {
    exists e :: e in edits && InsertsNothing(r, lines, e)
  }

  /** Sorted edits that do not disturb each other. */
  ghost predicate InOrder(r: Rules, lines: seq<string>, edits: seq<Edit>) {
    && Independent(r, lines, edits)
    && (forall i, j :: 0 <= i < j < |edits| ==> !Before(r, edits[j], edits[i]))
  }

  lemma {:induction false} RunIsRender(r: Rules, lines: seq<string>, edits: seq<Edit>)
    requires InOrder(r, lines, edits)
    ensures Run(r, lines, edits) ==
      if SomeInsertIsEmpty(r, lines, edits) then Err(EmptyInsert)
      else Ok((Spliced(r, lines, edits), |NoopEdits(r, lines, edits)|))
  {
    if edits == [] {
      RenderFromTop(lines, Seated(r, lines, edits), |lines|);
      assert NoopEdits(r, lines, edits) == {};
      assert lines[..|lines|] + [] == lines;
    } else {
      var front, e := edits[..|edits| - 1], edits[|edits| - 1];
      assert edits == front + [e];
      FrontInOrder(r, lines, edits);
      RunIsRender(r, lines, front);
      CountLast(r, lines, front, e);
      StepAddsEdit(r, lines, front, e);
    }
  }

  lemma {:induction false} CountLast(r: Rules, lines: seq<string>, front: seq<Edit>, e: Edit)
    requires e !in front && InFile(r, lines, e)
    ensures SomeInsertIsEmpty(r, lines, front + [e]) <==>
      SomeInsertIsEmpty(r, lines, front) || InsertsNothing(r, lines, e)
    ensures |NoopEdits(r, lines, front + [e])| == |NoopEdits(r, lines, front)| +
      if ChangesNothing(r, lines, e) then 1 else 0
  {
    hide InsertsNothing, ChangesNothing;
    assert e in front + [e] && forall d :: d in front ==> d in front + [e];
    assert NoopEdits(r, lines, front + [e]) == NoopEdits(r, lines, front) +
      if ChangesNothing(r, lines, e) then {e} else {};
  }

  lemma {:induction false} FrontInOrder(r: Rules, lines: seq<string>, edits: seq<Edit>)
    requires InOrder(r, lines, edits) && edits != []
    ensures InOrder(r, lines, edits[..|edits| - 1])
    ensures Ahead(r, lines, edits[..|edits| - 1], edits[|edits| - 1])
    ensures edits[|edits| - 1] !in edits[..|edits| - 1]
  {
    NoRepeats(r, lines, edits);
  }

  lemma {:induction false} NoRepeats(r: Rules, lines: seq<string>, edits: seq<Edit>)
    requires Independent(r, lines, edits)
    ensures forall i, j :: 0 <= i < j < |edits| ==> edits[i] != edits[j]
  {
    forall i, j | 0 <= i < j < |edits| ensures edits[i] != edits[j] {
      assert Clear(r, lines, edits[i], edits[j]);
    }
  }

  /** Every anchor of the edit can be a reference. */
  ghost predicate Named(r: Rules, e: Edit) { forall ref :: ref in RefsOf(e) ==> Bare(r, ref) }

  // ---- The whole batch -----------------------------------------------------------------------

  /** Every anchor of the batch carries the hash of the line it names in the file. */
  ghost predicate AnchorsMatch(r: Rules, lines: seq<string>, edits: seq<Edit>) {
    forall e, ref :: e in edits && ref in RefsOf(e) ==> RefValid(r, lines, ref)
  }

  /** Two lists with the same edits, each once, are independent together. */
  lemma {:induction false} IndependentInAnyOrder(r: Rules, lines: seq<string>, edits: seq<Edit>, other: seq<Edit>)
    requires Independent(r, lines, edits) && multiset(edits) == multiset(other)
    ensures Independent(r, lines, other)
  {
    SameElements(edits, other);
    NoRepeats(r, lines, edits);
    Sorting.DistinctCounts(edits);
    forall i, j | 0 <= i < |other| && 0 <= j < |other| && i != j
      ensures Clear(r, lines, other[i], other[j])
    {
      if i < j { Sorting.RepeatCounts(other, i, j); } else { Sorting.RepeatCounts(other, j, i); }
      assert other[i] in other && other[j] in other;
      var p :| 0 <= p < |edits| && edits[p] == other[i];
      var q :| 0 <= q < |edits| && edits[q] == other[j];
      assert p != q;
    }
  }

  lemma {:induction false} SameElements(edits: seq<Edit>, other: seq<Edit>)
    requires multiset(edits) == multiset(other)
    ensures forall e :: e in edits <==> e in other
  {
    assert forall e :: e in edits <==> e in multiset(edits);
    assert forall e :: e in other <==> e in multiset(other);
  }

  lemma {:induction false} SeatedInAnyOrder(r: Rules, lines: seq<string>, edits: seq<Edit>, other: seq<Edit>)
    requires Independent(r, lines, edits)
    requires forall e :: e in edits <==> e in other
    ensures Seated(r, lines, edits) == Seated(r, lines, other)
  {
    var a, b := Sitters(r, edits), Sitters(r, other);
    SittersFacts(r, edits);
    SittersFacts(r, other);
    OneSeat(r, lines, edits);
    forall s | s in a ensures s in b && b[s] == a[s] {
      assert SeatOf(r, a[s]) in b;
    }
    forall s | s in b ensures s in a {
      assert SeatOf(r, b[s]) in a;
    }
    assert a == b;
  }

  /** No two edits of an independent batch want one seat. */
  lemma {:induction false} OneSeat(r: Rules, lines: seq<string>, edits: seq<Edit>)
    requires Independent(r, lines, edits)
    ensures forall d, e :: d in edits && e in edits && SeatOf(r, d) == SeatOf(r, e) ==> d == e
  {
    forall i, j | 0 <= i < |edits| && 0 <= j < |edits| && i != j ensures SeatOf(r, edits[i]) != SeatOf(r, edits[j]) {
      assert edits[i] in edits && edits[j] in edits;
      assert Clear(r, lines, edits[i], edits[j]) && Clear(r, lines, edits[j], edits[i]);
    }
  }

  lemma {:induction false} InFileIsNamed(r: Rules, lines: seq<string>, e: Edit)
    requires InFile(r, lines, e)
    ensures Named(r, e)
  {
  }

  lemma {:induction false} IndependentKeysDiffer(r: Rules, lines: seq<string>, edits: seq<Edit>)
    requires Independent(r, lines, edits)
    ensures forall i, j :: 0 <= i < j < |edits| ==> KeyOf(r, edits[i]) != KeyOf(r, edits[j])
  {
    hide KeyOf;
    forall i, j | 0 <= i < j < |edits| ensures KeyOf(r, edits[i]) != KeyOf(r, edits[j]) {
      assert Clear(r, lines, edits[i], edits[j]) && Clear(r, lines, edits[j], edits[i]);
      assert edits[i] in edits && edits[j] in edits;
      InFileIsNamed(r, lines, edits[i]);
      InFileIsNamed(r, lines, edits[j]);
      KeyIsExact(r, edits[i], edits[j]);
    }
  }

  lemma {:induction false} IndependentRangesApart(r: Rules, lines: seq<string>, edits: seq<Edit>)
    requires Independent(r, lines, edits)
    ensures RangesUpright(r, edits) && RangesDisjoint(r, edits)
  {
    forall i, j | 0 <= i < |edits| && 0 <= j < |edits| && i != j && IsRange(edits[i]) && IsRange(edits[j])
      ensures Hi(r, edits[i]) < Lo(r, edits[j]) || Hi(r, edits[j]) < Lo(r, edits[i])
    {
      assert Clear(r, lines, edits[i], edits[j]);
    }
  }

  /**
   * The batch is one simultaneous splice: for independent edits with matching anchors, deduplication,
   * sorting and one-by-one application give the file in which every replacement was computed from the
   * original lines. It fails exactly when an insert has nothing to insert, and counts as no-ops exactly
   * the replaces that put back what they take out.
   */
  lemma {:induction false} BatchIsSimultaneous(r: Rules, lines: seq<string>, edits: seq<Edit>)
    requires Independent(r, lines, edits) && AnchorsMatch(r, lines, edits)
    ensures Apply(r, lines, edits) ==
      if SomeInsertIsEmpty(r, lines, edits) then Err(EmptyInsert)
      else Ok(Report(Spliced(r, lines, edits), |NoopEdits(r, lines, edits)|, 0))
  {
    if edits == [] {
      RunIsRender(r, lines, edits);
      assert !SomeInsertIsEmpty(r, lines, edits);
    } else {
      IndependentKeysDiffer(r, lines, edits);
      DistinctKeysAreKept(r, edits);
      SortedBatch(r, lines, edits);
      SortedRun(r, lines, edits);
    }
  }

  lemma {:induction false} SortedRun(r: Rules, lines: seq<string>, edits: seq<Edit>)
    requires Independent(r, lines, edits) && InOrder(r, lines, Order(r, edits))
    requires forall e :: e in Order(r, edits) <==> e in edits
    ensures Run(r, lines, Order(r, edits)) ==
      if SomeInsertIsEmpty(r, lines, edits) then Err(EmptyInsert)
      else Ok((Spliced(r, lines, edits), |NoopEdits(r, lines, edits)|))
  {
    var sorted := Order(r, edits);
    RunIsRender(r, lines, sorted);
    SeatedInAnyOrder(r, lines, sorted, edits);
    assert NoopEdits(r, lines, sorted) == NoopEdits(r, lines, edits);
  }

  lemma {:induction false} SortedBatch(r: Rules, lines: seq<string>, edits: seq<Edit>)
    requires Independent(r, lines, edits) && AnchorsMatch(r, lines, edits)
    ensures var sorted := Order(r, edits);
      && InOrder(r, lines, sorted)
      && (forall e :: e in sorted <==> e in edits)
      && ValidationError(r, lines, CollectLineRefs(sorted)).None?
      && FirstClash(OrderRanges(RangesOf(r, sorted))).None?
  {
    var sorted := Order(r, edits);
    OrderFacts(r, edits);
    IndependentInAnyOrder(r, lines, edits, sorted);
    CollectedRefs(sorted);
    NoErrorMeansValid(r, lines, CollectLineRefs(sorted));
    IndependentRangesApart(r, lines, sorted);
    OverlapTestIsExact(r, sorted);
    NoClashMeansApart(OrderRanges(RangesOf(r, sorted)));
  }

  /** Any two orders of one batch give the same report, error included. */
  lemma {:induction false} OrderDoesNotMatter(r: Rules, lines: seq<string>, edits: seq<Edit>, other: seq<Edit>)
    requires Independent(r, lines, edits) && AnchorsMatch(r, lines, edits)
    requires multiset(edits) == multiset(other)
    ensures Apply(r, lines, edits) == Apply(r, lines, other)
  {
    IndependentInAnyOrder(r, lines, edits, other);
    SameElements(edits, other);
    BatchIsSimultaneous(r, lines, edits);
    BatchIsSimultaneous(r, lines, other);
    SeatedInAnyOrder(r, lines, edits, other);
    assert NoopEdits(r, lines, edits) == NoopEdits(r, lines, other);
  }

  /** `e` inserts before a line that `d` replaces. */
  predicate BeforeReplaced(r: Rules, lines: seq<string>, d: Edit, e: Edit) {
    e.Prepend? && e.at.Some? && d.Replace? && InFile(r, lines, d) && Lo(r, d) == Lo(r, e)
  }

  /** Whatever replaced the line `e` inserts before begins with a row that carries the anchor's tag. */
  ghost predicate StillCarried(r: Rules, lines: seq<string>, done: seq<Edit>, e: Edit, ref: string) {
    forall d :: d in done && BeforeReplaced(r, lines, d, e) ==>
      NewRows(r, lines, d) != [] && r.hashOk(Lo(r, e), NewRows(r, lines, d)[0], RefAt(r, ref).hash)
  }

  /**
   * Validating once is enough: whatever prefix of the sorted batch has been applied, each edit still to come finds its
   * own lines, unmoved and with the hash it names. The one edit that may not is an insert before a line its own batch
   * has replaced: a second check would accept it exactly when the first new row still carries the anchor's tag.
   */
  lemma {:induction false} ValidatedOnceStaysValid(r: Rules, lines: seq<string>, sorted: seq<Edit>, applied: nat,
      next: nat, ref: string)
    requires InOrder(r, lines, sorted) && AnchorsMatch(r, lines, sorted)
    requires applied <= next < |sorted| && ref in RefsOf(sorted[next])
    requires NamesLines(r, sorted[..applied]) && Run(r, lines, sorted[..applied]).Ok?
    ensures RefValid(r, Run(r, lines, sorted[..applied]).value.0, ref) <==>
      StillCarried(r, lines, sorted[..applied], sorted[next], ref)
  {
    hide Run, StillCarried, RefValid, Ahead, Independent, AnchorsMatch;
    var done, e := sorted[..applied], sorted[next];
    PrefixIsAhead(r, lines, sorted, applied, next);
    RunIsRender(r, lines, done);
    assert RefValid(r, lines, ref) by { MatchedAnchor(r, lines, sorted, next, ref); }
    CheckedAgain(r, lines, done, e, ref);
  }

  lemma {:induction false} MatchedAnchor(r: Rules, lines: seq<string>, edits: seq<Edit>, i: nat, ref: string)
    requires AnchorsMatch(r, lines, edits) && i < |edits| && ref in RefsOf(edits[i])
    ensures RefValid(r, lines, ref)
  {
    assert edits[i] in edits;
  }

  /** A second check of an edit against the file its predecessors left. */
  lemma {:induction false} CheckedAgain(r: Rules, lines: seq<string>, done: seq<Edit>, e: Edit, ref: string)
    requires Independent(r, lines, done) && Ahead(r, lines, done, e) && ref in RefsOf(e) && RefValid(r, lines, ref)
    ensures RefValid(r, Spliced(r, lines, done), ref) <==> StillCarried(r, lines, done, e, ref)
  {
    hide Spliced;
    if d :| d in done && BeforeReplaced(r, lines, d, e) {
      InsertBeforeReplaced(r, lines, done, e, d);
      OneSeat(r, lines, done);
      forall c | c in done && BeforeReplaced(r, lines, c, e) ensures c == d {
        assert SeatOf(r, c) == SeatOf(r, d);
      }
    } else {
      StillReadsOriginals(r, lines, done, e);
      assert RefAt(r, ref).line <= Hi(r, e);
    }
  }

  /** What an insert finds at its line when the batch has replaced that line: the first row of the replacement. */
  lemma {:induction false} InsertBeforeReplaced(r: Rules, lines: seq<string>, done: seq<Edit>, e: Edit, d: Edit)
    requires Independent(r, lines, done) && Ahead(r, lines, done, e)
    requires e.Prepend? && d in done && d.Replace? && Lo(r, d) == Lo(r, e)
    ensures NewRows(r, lines, d) != []
    ensures RefValid(r, Spliced(r, lines, done), e.at.value) <==>
      r.hashOk(Lo(r, e), NewRows(r, lines, d)[0], RefAt(r, e.at.value).hash)
  {
    var seats, lo := Seated(r, lines, done), Lo(r, e);
    AheadIsBelow(r, lines, done, e);
    SittersFacts(r, done);
    OneSeat(r, lines, done);
    assert Sitters(r, done)[SeatOf(r, d)] == d;
    RenderFromTop(lines, seats, lo - 1);
    var swap := At(seats, AReplace, lo);
    RenderStep(lines, seats, lo, swap, At(seats, AnAppend, lo), At(seats, APrepend, lo), Next(lines, swap, lo));
    assert Spliced(r, lines, done)[lo - 1] == NewRows(r, lines, d)[0];
  }

  lemma {:induction false} PrefixIsAhead(r: Rules, lines: seq<string>, sorted: seq<Edit>, applied: nat, next: nat)
    requires InOrder(r, lines, sorted) && applied <= next < |sorted|
    ensures InOrder(r, lines, sorted[..applied]) && Ahead(r, lines, sorted[..applied], sorted[next])
  {
  }

  lemma {:induction false} StillReadsOriginals(r: Rules, lines: seq<string>, done: seq<Edit>, e: Edit)
    requires Ahead(r, lines, done, e)
    requires e.Prepend? ==> forall d :: d in done && d.Replace? ==> Lo(r, d) != Lo(r, e)
    ensures Agrees(Spliced(r, lines, done), lines, Hi(r, e))
  {
    var seats, hi := Seated(r, lines, done), Hi(r, e);
    AheadIsBelow(r, lines, done, e);
    if e.Prepend? {
      SittersFacts(r, done);
      RenderFromTop(lines, seats, hi - 1);
      RenderHead(lines, seats, hi);
      AgreesUpTo(lines, hi - 1, Render(lines, seats, hi));
    } else {
      RenderFromTop(lines, seats, hi);
      AgreesUpTo(lines, hi, Render(lines, seats, hi + 1));
    }
  }

  /** The first `n` lines of both files are the same. */
  ghost predicate Agrees(current: seq<string>, lines: seq<string>, n: nat) {
    n <= |current| && n <= |lines| && forall k :: 0 <= k < n ==> current[k] == lines[k]
  }

  lemma {:induction false} AgreesUpTo(lines: seq<string>, n: nat, body: seq<string>)
    requires n <= |lines|
    ensures Agrees(lines[..n] + body, lines, n)
    ensures n < |lines| && body != [] && body[0] == lines[n] ==> Agrees(lines[..n] + body, lines, n + 1)
  {
  }

  // ---- What acceptance guarantees for every batch, independent or not --------------------------

  /**
   * An accepted batch had every anchor it kept checked against the original file, and its ranges are upright and
   * apart. A dropped duplicate has anchors that match, through the edit that was kept, exactly when each of them can
   * be a reference: a blank anchor or one with a bar may be dropped without ever being read.
   */
  lemma {:induction false} AcceptedMeansValidated(r: Rules, lines: seq<string>, edits: seq<Edit>)
    requires Apply(r, lines, edits).Ok?
    ensures AnchorsMatch(r, lines, FirstOccurrences(r, edits)) && RangesUpright(r, FirstOccurrences(r, edits))
    ensures RangesDisjoint(r, Order(r, FirstOccurrences(r, edits)))
    ensures forall e :: e in edits ==> (Named(r, e) <==> forall ref :: ref in RefsOf(e) ==> RefValid(r, lines, ref))
    ensures forall e :: e in edits && Named(r, e) && IsRange(e) ==> Lo(r, e) <= Hi(r, e)
  {
    hide FirstOccurrences, Apply, KeyOf, Order, RangesDisjoint;
    if edits == [] {
      NothingKept(r);
    } else {
      var kept := FirstOccurrences(r, edits);
      AcceptedBatch(r, lines, edits);
      FirstOccurrencesKeepKeys(r, edits);
      forall e | e in edits && Named(r, e)
        ensures (IsRange(e) ==> Lo(r, e) <= Hi(r, e)) && forall ref :: ref in RefsOf(e) ==> RefValid(r, lines, ref)
      {
        var twin := KeptTwin(r, lines, edits, e);
        forall ref | ref in RefsOf(e) ensures RefValid(r, lines, ref) {
          assert NamesToo(r, twin, ref);
          var other :| other in RefsOf(twin) && RefAt(r, other) == RefAt(r, ref);
          assert RefValid(r, lines, other);
        }
      }
    }
  }

  lemma {:induction false} NothingKept(r: Rules)
    ensures FirstOccurrences(r, []) == [] && RangesDisjoint(r, Order(r, []))
  {
  }

  /** The edits that were kept passed both tests. */
  lemma {:induction false} AcceptedBatch(r: Rules, lines: seq<string>, edits: seq<Edit>)
    requires edits != [] && Apply(r, lines, edits).Ok?
    ensures AnchorsMatch(r, lines, FirstOccurrences(r, edits)) && RangesUpright(r, FirstOccurrences(r, edits))
    ensures RangesDisjoint(r, Order(r, FirstOccurrences(r, edits)))
  {
    hide FirstOccurrences;
    var kept := FirstOccurrences(r, edits);
    var sorted := Order(r, kept);
    OrderFacts(r, kept);
    ValidatedNamesLines(r, lines, sorted);
    RunMeansUpright(r, lines, sorted);
    NoClashMeansApart(OrderRanges(RangesOf(r, sorted)));
    OverlapTestIsExact(r, sorted);
    NoErrorMeansValid(r, lines, CollectLineRefs(sorted));
    CollectedRefs(sorted);
  }

  lemma {:induction false} RunMeansUpright(r: Rules, lines: seq<string>, edits: seq<Edit>)
    requires NamesLines(r, edits) && Run(r, lines, edits).Ok?
    ensures RangesUpright(r, edits)
  {
    if edits != [] {
      var front, last := edits[..|edits| - 1], edits[|edits| - 1];
      assert edits == front + [last];
      RunMeansUpright(r, lines, front);
      StepMeansUpright(r, Run(r, lines, front).value.0, last);
    }
  }

  lemma {:induction false} StepMeansUpright(r: Rules, lines: seq<string>, e: Edit)
    requires Anchored(e) ==> 1 <= Lo(r, e)
    requires Step(r, lines, e).Ok?
    ensures IsRange(e) ==> Lo(r, e) <= Hi(r, e)
  {
  }

  /** Some anchor of the edit names the same line. */
  ghost predicate NamesToo(r: Rules, e: Edit, ref: string) {
    exists other :: other in RefsOf(e) && RefAt(r, other) == RefAt(r, ref)
  }

  /** A dropped duplicate whose anchors can be references names the lines of the edit that was kept. */
  lemma {:induction false} KeptTwin(r: Rules, lines: seq<string>, edits: seq<Edit>, e: Edit) returns (twin: Edit)
    requires e in edits && Named(r, e)
    requires KeysOf(r, FirstOccurrences(r, edits)) == KeysOf(r, edits)
    requires AnchorsMatch(r, lines, FirstOccurrences(r, edits))
    ensures twin in FirstOccurrences(r, edits)
    ensures forall ref :: ref in RefsOf(e) ==> NamesToo(r, twin, ref)
    ensures IsRange(e) ==> IsRange(twin) && Lo(r, e) == Lo(r, twin) && Hi(r, e) == Hi(r, twin)
  {
    hide KeyOf, FirstOccurrences;
    assert KeyOf(r, e) in KeysOf(r, FirstOccurrences(r, edits));
    twin :| twin in FirstOccurrences(r, edits) && KeyOf(r, twin) == KeyOf(r, e);
    assert Named(r, twin) by {
      forall ref | ref in RefsOf(twin) ensures Bare(r, ref) {
        assert RefValid(r, lines, ref);
      }
    }
    KeyIsExact(r, e, twin);
    SameParts(r, e, twin);
  }

  lemma {:induction false} SameParts(r: Rules, e: Edit, twin: Edit)
    requires Named(r, e) && PartsOf(r, twin) == PartsOf(r, e)
    ensures forall ref :: ref in RefsOf(e) ==> NamesToo(r, twin, ref)
    ensures IsRange(e) ==> IsRange(twin) && Lo(r, e) == Lo(r, twin) && Hi(r, e) == Hi(r, twin)
  {
    forall ref | ref in RefsOf(e) ensures NamesToo(r, twin, ref) {
      assert Bare(r, ref);
      var other := if !e.Replace? then twin.at.value else if ref == e.pos then twin.pos else twin.end.value;
      assert other in RefsOf(twin) && RefAt(r, other) == RefAt(r, ref);
    }
    assert IsRange(e) ==> e.end.value in RefsOf(e);
  }
}
