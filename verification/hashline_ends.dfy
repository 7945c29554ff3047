/**
 * Batches that also append to the end of the file or prepend to its top. Such edits name no line: they sort behind
 * every anchored edit, keep the order they were given in, and surround what the anchored edits leave.
 */
module HashlineEnds {
  import opened Wrappers
  import opened Sorting
  import opened HashlineEdits
  import opened HashlineSplice

  predicate AtEnd(e: Edit) { e.Append? && !Anchored(e) }

  predicate AtTop(e: Edit) { e.Prepend? && !Anchored(e) }

  // ---- Order ---------------------------------------------------------------------------------

  lemma {:induction false} InsertBetween<T>(x: T, above: seq<T>, below: seq<T>, before: (T, T) -> bool)
    requires forall y :: y in above ==> before(y, x)
    requires below == [] || !before(below[0], x)
    ensures Insert(x, above + below, before) == above + ([x] + below)
  {
    if above == [] {
      assert above + below == below;
    } else {
      assert above[0] in above && (above + below)[1..] == above[1..] + below;
      InsertBetween(x, above[1..], below, before);
    }
  }

  lemma {:induction false} InsertAbove<T>(x: T, above: seq<T>, below: seq<T>, before: (T, T) -> bool)
    requires below == [] || !before(below[0], x)
    ensures Insert(x, above + below, before) == Insert(x, above, before) + below
  {
    if above == [] {
      assert above + below == below;
    } else {
      assert (above + below)[1..] == above[1..] + below;
      InsertAbove(x, above[1..], below, before);
    }
  }

  lemma {:induction false} Filtered<T>(s: seq<T>, p: T -> bool)
    ensures forall x :: x in Filter(s, p) <==> x in s && p(x)
  {
    if s != [] {
      Filtered(s[1..], p);
    }
  }

  lemma {:induction false} InsertEdit(r: Rules, e: Edit, named: seq<Edit>, ends: seq<Edit>, tops: seq<Edit>)
    requires forall d :: d in named ==> Anchored(d)
    requires forall d :: d in ends ==> AtEnd(d)
    requires forall d :: d in tops ==> AtTop(d)
    ensures Insert(e, named + (ends + tops), (a, b) => Before(r, a, b)) ==
      if Anchored(e) then Insert(e, named, (a, b) => Before(r, a, b)) + (ends + tops)
      else if AtEnd(e) then named + ([e] + ends + tops)
      else named + (ends + ([e] + tops))
  {
    var before := (a, b) => Before(r, a, b);
    if Anchored(e) {
      assert ends + tops != [] ==> (ends + tops)[0] in ends || (ends + tops)[0] in tops;
      InsertAbove(e, named, ends + tops, before);
    } else if AtEnd(e) {
      assert ends + tops != [] ==> (ends + tops)[0] in ends || (ends + tops)[0] in tops;
      InsertBetween(e, named, ends + tops, before);
      assert [e] + (ends + tops) == [e] + ends + tops;
    } else {
      assert tops != [] ==> tops[0] in tops;
      assert named + (ends + tops) == named + ends + tops;
      InsertBetween(e, named + ends, tops, before);
      assert named + ends + ([e] + tops) == named + (ends + ([e] + tops));
    }
  }

  lemma {:induction false} FilterFirst<T>(x: T, s: seq<T>, p: T -> bool)
    ensures Filter([x] + s, p) == if p(x) then [x] + Filter(s, p) else Filter(s, p)
  {
    assert ([x] + s)[1..] == s;
  }

  lemma {:induction false} OrderFirst(r: Rules, e: Edit, rest: seq<Edit>)
    ensures Order(r, []) == []
    ensures Order(r, [e] + rest) == Insert(e, Order(r, rest), (a, b) => Before(r, a, b))
  {
    assert ([e] + rest)[1..] == rest;
  }

  /** The sorted batch: anchored edits bottom-up, then appends, then prepends, both in the order they were given in. */
  lemma {:induction false} EndsSortLast(r: Rules, edits: seq<Edit>)
    ensures Order(r, edits) == Order(r, Filter(edits, Anchored)) + (Filter(edits, AtEnd) + Filter(edits, AtTop))
  {
    hide Order, Filter, Insert, Before;
    if edits == [] {
      NothingToSort(r);
    } else {
      var e, rest := edits[0], edits[1..];
      assert edits == [e] + rest;
      EndsSortLast(r, rest);
      var named, ends, tops := Filter(rest, Anchored), Filter(rest, AtEnd), Filter(rest, AtTop);
      OrderFacts(r, named);
      Filtered(rest, Anchored);
      Filtered(rest, AtEnd);
      Filtered(rest, AtTop);
      InsertEdit(r, e, Order(r, named), ends, tops);
      OrderFirst(r, e, rest);
      OrderFirst(r, e, named);
      FilterFirst(e, rest, Anchored);
      FilterFirst(e, rest, AtEnd);
      FilterFirst(e, rest, AtTop);
    }
  }

  lemma {:induction false} NothingToSort(r: Rules)
    ensures Order(r, []) == [] && Filter<Edit>([], Anchored) == []
    ensures Filter<Edit>([], AtEnd) == [] && Filter<Edit>([], AtTop) == []
  {
  }

  // ---- What the ends add ---------------------------------------------------------------------

  /** Leading pieces without text are dropped, but never the last piece. */
  function Settled(pieces: seq<seq<string>>): seq<seq<string>> {
    if |pieces| > 1 && (pieces[0] == [] || pieces[0] == [""]) then Settled(pieces[1..]) else pieces
  }

  /** All pieces in one file, from the first down or from the first up. */
  function Flat(pieces: seq<seq<string>>, up: bool): seq<string> {
    if pieces == [] then []
    else if up then Flat(pieces[1..], up) + pieces[0]
    else pieces[0] + Flat(pieces[1..], up)
  }

  /**
   * A file with payloads put at one end, one beyond the other; a file that is one empty line gives way to the first.
   */
  function Stacked(file: seq<string>, payloads: seq<seq<string>>, up: bool): seq<string> {
    Flat(Settled([file] + payloads), up)
  }

  function PayloadsOf(r: Rules, edits: seq<Edit>): seq<seq<string>> {
    seq(|edits|, i requires 0 <= i < |edits| => r.newLines(edits[i].payload))
  }

  /** How many of the payloads are one empty line put on a file that is one empty line. */
  function BlankOnBlank(file: seq<string>, payloads: seq<seq<string>>, up: bool): nat {
    if payloads == [] then 0
    else
      var front := payloads[..|payloads| - 1];
      BlankOnBlank(file, front, up) +
      if Stacked(file, front, up) == [""] && payloads[|payloads| - 1] == [""] then 1 else 0
  }

  ghost predicate SomeEndIsEmpty(r: Rules, edits: seq<Edit>) {
    exists e :: e in edits && !Anchored(e) && r.newLines(e.payload) == []
  }

  lemma {:induction false} FlatMore(pieces: seq<seq<string>>, rows: seq<string>, up: bool)
    ensures Flat(pieces + [rows], up) == if up then rows + Flat(pieces, up) else Flat(pieces, up) + rows
  {
    if pieces == [] {
      assert (pieces + [rows])[1..] == [];
    } else {
      assert (pieces + [rows])[1..] == pieces[1..] + [rows];
      FlatMore(pieces[1..], rows, up);
    }
  }

  lemma {:induction false} SettledMore(pieces: seq<seq<string>>, rows: seq<string>)
    requires pieces != []
    ensures |Settled(pieces)| > 1 ==> Settled(pieces)[0] != [] && Settled(pieces)[0] != [""]
    ensures |Settled(pieces)| > 0
    ensures Settled(pieces + [rows]) ==
      if Settled(pieces) == [[]] || Settled(pieces) == [[""]] then [rows] else Settled(pieces) + [rows]
  {
    if |pieces| > 1 {
      assert (pieces + [rows])[1..] == pieces[1..] + [rows];
      SettledMore(pieces[1..], rows);
    } else {
      assert (pieces + [rows])[1..] == [rows];
    }
  }

  /** One more payload: it replaces a file that is one empty line and is put next to any other. */
  lemma {:induction false} StackedMore(file: seq<string>, payloads: seq<seq<string>>, rows: seq<string>, up: bool)
    ensures Stacked(file, [], up) == file
    ensures var now := Stacked(file, payloads, up);
      Stacked(file, payloads + [rows], up) == if now == [""] then rows else if up then rows + now else now + rows
  {
    var pieces := [file] + payloads;
    var settled := Settled(pieces);
    assert [file] + (payloads + [rows]) == pieces + [rows];
    assert [file] + [] == [file] && Flat([file][1..], up) == [];
    SettledMore(pieces, rows);
    FlatMore(settled, rows, up);
    assert Flat([rows], up) == rows by { FlatMore([], rows, up); }
    if |settled| == 1 {
      assert settled[1..] == [] && Flat(settled, up) == settled[0];
    } else {
      assert settled[0] != [] && settled[0] != [""];
      MoreThanBlank(settled, up);
    }
  }

  lemma {:induction false} MoreThanBlank(pieces: seq<seq<string>>, up: bool)
    requires pieces != [] && pieces[0] != [] && pieces[0] != [""]
    ensures Flat(pieces, up) != [""]
  {
    if |Flat(pieces, up)| == 1 {
      assert |pieces[0]| == 1 && Flat(pieces[1..], up) == [];
      assert Flat(pieces, up) == pieces[0];
    }
  }

  // ---- The run -------------------------------------------------------------------------------

  lemma {:induction false} RunOfTwoParts(r: Rules, lines: seq<string>, first: seq<Edit>, second: seq<Edit>)
    requires NamesLines(r, first + second)
    ensures NamesLines(r, first) && NamesLines(r, second)
    ensures Run(r, lines, first + second) ==
      match Run(r, lines, first) {
        case Err(error) => Err(error)
        case Ok((file, noops)) =>
          match Run(r, file, second) {
            case Err(error) => Err(error)
            case Ok((final, more)) => Ok((final, noops + more))
          }
      }
  {
    hide Step;
    assert forall e :: e in first || e in second ==> e in first + second;
    if second == [] {
      assert first + second == first;
    } else {
      var front, last := second[..|second| - 1], second[|second| - 1];
      assert (first + second)[..|first + second| - 1] == first + front;
      assert NamesLines(r, first + front) by {
        assert forall e :: e in first + front ==> e in first + second;
      }
      RunOfTwoParts(r, lines, first, front);
    }
  }

  lemma {:induction false} StepAtOneEnd(r: Rules, file: seq<string>, e: Edit, up: bool)
    requires if up then AtTop(e) else AtEnd(e)
    ensures var rows := r.newLines(e.payload);
      Step(r, file, e) ==
        if rows == [] then Err(EmptyInsert)
        else if file == [""] then Ok(rows)
        else if up then Ok(rows + file)
        else Ok(file + rows)
  {
  }

  lemma {:induction false} RunMore(r: Rules, file: seq<string>, front: seq<Edit>, last: Edit)
    requires NamesLines(r, front) && !Anchored(last)
    ensures NamesLines(r, front + [last])
    ensures Run(r, file, front + [last]) ==
      match Run(r, file, front) {
        case Err(error) => Err(error)
        case Ok((current, noops)) =>
          match Step(r, current, last) {
            case Err(error) => Err(error)
            case Ok(next) => Ok((next, if next == current then noops + 1 else noops))
          }
      }
  {
    hide Step;
    assert (front + [last])[..|front|] == front;
  }

  lemma {:induction false} PayloadsMore(r: Rules, front: seq<Edit>, last: Edit)
    ensures PayloadsOf(r, front + [last]) == PayloadsOf(r, front) + [r.newLines(last.payload)]
    ensures !Anchored(last) ==>
      (SomeEndIsEmpty(r, front + [last]) <==> SomeEndIsEmpty(r, front) || r.newLines(last.payload) == [])
  {
    assert forall e :: e in front + [last] <==> e in front || e == last;
  }

  lemma {:induction false} BlankMore(file: seq<string>, payloads: seq<seq<string>>, rows: seq<string>, up: bool)
    ensures BlankOnBlank(file, payloads + [rows], up) == BlankOnBlank(file, payloads, up) +
      if Stacked(file, payloads, up) == [""] && rows == [""] then 1 else 0
  {
    assert (payloads + [rows])[..|payloads|] == payloads;
  }

  lemma {:induction false} RunOfNone(r: Rules, file: seq<string>, up: bool)
    ensures Run(r, file, []) == Ok((Stacked(file, PayloadsOf(r, []), up), BlankOnBlank(file, PayloadsOf(r, []), up)))
    ensures !SomeEndIsEmpty(r, [])
  {
    StackedMore(file, [], [], up);
    assert PayloadsOf(r, []) == [];
  }

  /** The next edit at the end, on the file its predecessors left. */
  lemma {:induction false} StepStacks(r: Rules, file: seq<string>, payloads: seq<seq<string>>, e: Edit, up: bool)
    requires if up then AtTop(e) else AtEnd(e)
    ensures var rows, now := r.newLines(e.payload), Stacked(file, payloads, up);
      var more := payloads + [rows];
      && (rows == [] ==> Step(r, now, e) == Err(EmptyInsert))
      && (rows != [] ==> Step(r, now, e) == Ok(Stacked(file, more, up)))
      && (rows != [] && Stacked(file, more, up) == now ==>
          BlankOnBlank(file, more, up) == BlankOnBlank(file, payloads, up) + 1)
      && (rows != [] && Stacked(file, more, up) != now ==>
          BlankOnBlank(file, more, up) == BlankOnBlank(file, payloads, up))
  {
    hide Stacked, Step;
    var rows, now := r.newLines(e.payload), Stacked(file, payloads, up);
    StepAtOneEnd(r, now, e, up);
    StackedMore(file, payloads, rows, up);
    BlankMore(file, payloads, rows, up);
    if rows != [] {
      OneMore(now, rows);
    }
  }

  /** A run of edits at one end stacks their payloads there. */
  lemma {:induction false} RunAtOneEnd(r: Rules, file: seq<string>, edits: seq<Edit>, up: bool)
    requires forall e :: e in edits ==> if up then AtTop(e) else AtEnd(e)
    ensures NamesLines(r, edits)
    ensures Run(r, file, edits) ==
      if SomeEndIsEmpty(r, edits) then Err(EmptyInsert)
      else Ok((Stacked(file, PayloadsOf(r, edits), up), BlankOnBlank(file, PayloadsOf(r, edits), up)))
  {
    hide Stacked, Step, Run, PayloadsOf, SomeEndIsEmpty, BlankOnBlank;
    if edits == [] {
      RunOfNone(r, file, up);
    } else {
      var front, last := edits[..|edits| - 1], edits[|edits| - 1];
      assert edits == front + [last] && last in edits;
      RunAtOneEnd(r, file, front, up);
      RunMore(r, file, front, last);
      StepStacks(r, file, PayloadsOf(r, front), last, up);
      PayloadsMore(r, front, last);
    }
  }

  lemma {:induction false} OneMore(file: seq<string>, rows: seq<string>)
    requires rows != []
    ensures file + rows != file && rows + file != file
  {
    assert |file + rows| > |file| && |rows + file| > |file|;
  }

  // ---- The batch -----------------------------------------------------------------------------

  lemma {:induction false} NoRefsAtEnds(edits: seq<Edit>, bare: seq<Edit>)
    requires forall e :: e in bare ==> !Anchored(e)
    ensures CollectLineRefs(edits + bare) == CollectLineRefs(edits)
  {
    if edits == [] {
      assert edits + bare == bare;
      CollectedRefs(bare);
      if CollectLineRefs(bare) != [] {
        assert CollectLineRefs(bare)[0] in CollectLineRefs(bare);
      }
    } else {
      assert (edits + bare)[1..] == edits[1..] + bare;
      NoRefsAtEnds(edits[1..], bare);
    }
  }

  lemma {:induction false} NoRangesAtEnds(r: Rules, edits: seq<Edit>, bare: seq<Edit>)
    requires forall e :: e in bare ==> !Anchored(e)
    ensures RangesOf(r, edits + bare) == RangesOf(r, edits)
  {
    if bare == [] {
      assert edits + bare == edits;
    } else {
      assert bare[|bare| - 1] in bare;
      assert (edits + bare)[..|edits + bare| - 1] == edits + bare[..|bare| - 1];
      NoRangesAtEnds(r, edits, bare[..|bare| - 1]);
    }
  }

  /**
   * The anchored part of a batch passes both tests exactly as it does alone, so the whole batch reaches the splices.
   */
  lemma {:induction false} EndsPassTheTests(r: Rules, lines: seq<string>, kept: seq<Edit>)
    requires var named := Filter(kept, Anchored); Independent(r, lines, named) && AnchorsMatch(r, lines, named)
    ensures ValidationError(r, lines, CollectLineRefs(Order(r, kept))).None?
    ensures FirstClash(OrderRanges(RangesOf(r, Order(r, kept)))).None?
    ensures NamesLines(r, Order(r, kept))
  {
    var named, bare := Filter(kept, Anchored), Filter(kept, AtEnd) + Filter(kept, AtTop);
    EndsSortLast(r, kept);
    Filtered(kept, AtEnd);
    Filtered(kept, AtTop);
    SortedBatch(r, lines, named);
    NoRefsAtEnds(Order(r, named), bare);
    NoRangesAtEnds(r, Order(r, named), bare);
    ValidatedNamesLines(r, lines, Order(r, kept));
  }

  /** Appends, then prepends. */
  lemma {:induction false} RunAtBothEnds(r: Rules, file: seq<string>, ends: seq<Edit>, tops: seq<Edit>)
    requires forall e :: e in ends ==> AtEnd(e)
    requires forall e :: e in tops ==> AtTop(e)
    ensures NamesLines(r, ends + tops)
    ensures var below := Stacked(file, PayloadsOf(r, ends), false);
      Run(r, file, ends + tops) ==
        if SomeEndIsEmpty(r, ends) || SomeEndIsEmpty(r, tops) then Err(EmptyInsert)
        else Ok((Stacked(below, PayloadsOf(r, tops), true),
          BlankOnBlank(file, PayloadsOf(r, ends), false) + BlankOnBlank(below, PayloadsOf(r, tops), true)))
  {
    hide Run, Stacked, BlankOnBlank, PayloadsOf, SomeEndIsEmpty;
    RunOfTwoParts(r, file, ends, tops);
    RunAtOneEnd(r, file, ends, false);
    RunAtOneEnd(r, Stacked(file, PayloadsOf(r, ends), false), tops, true);
  }

  lemma {:induction false} EmptyEnds(r: Rules, kept: seq<Edit>)
    ensures SomeEndIsEmpty(r, kept) <==>
      SomeEndIsEmpty(r, Filter(kept, AtEnd)) || SomeEndIsEmpty(r, Filter(kept, AtTop))
  {
    Filtered(kept, AtEnd);
    Filtered(kept, AtTop);
  }

  /** The sorted run: the simultaneous splice of the anchored edits, then the appends, then the prepends. */
  lemma {:induction false} RunWithEnds(r: Rules, lines: seq<string>, kept: seq<Edit>)
    requires var named := Filter(kept, Anchored); Independent(r, lines, named) && AnchorsMatch(r, lines, named)
    requires NamesLines(r, Order(r, kept))
    ensures var named, ends, tops := Filter(kept, Anchored), Filter(kept, AtEnd), Filter(kept, AtTop);
      var middle := Spliced(r, lines, named);
      var below := Stacked(middle, PayloadsOf(r, ends), false);
      Run(r, lines, Order(r, kept)) ==
        if SomeInsertIsEmpty(r, lines, named) || SomeEndIsEmpty(r, kept) then Err(EmptyInsert)
        else Ok((Stacked(below, PayloadsOf(r, tops), true),
          |NoopEdits(r, lines, named)| +
          (BlankOnBlank(middle, PayloadsOf(r, ends), false) + BlankOnBlank(below, PayloadsOf(r, tops), true))))
  {
    hide Run, Order, Stacked, BlankOnBlank, Independent, AnchorsMatch, Filter, Spliced, PayloadsOf;
    hide NoopEdits, SomeInsertIsEmpty, SomeEndIsEmpty;
    var named, ends, tops := Filter(kept, Anchored), Filter(kept, AtEnd), Filter(kept, AtTop);
    EndsSortLast(r, kept);
    SortedBatch(r, lines, named);
    SortedRun(r, lines, named);
    Filtered(kept, AtEnd);
    Filtered(kept, AtTop);
    RunOfTwoParts(r, lines, Order(r, named), ends + tops);
    RunAtBothEnds(r, Spliced(r, lines, named), ends, tops);
    EmptyEnds(r, kept);
  }

  /**
   * The whole batch, with edits at either end of the file: whenever the anchored edits that survive deduplication are
   * independent and carry matching anchors, the result is their simultaneous splice with the appended payloads below
   * it in the order given and the prepended ones above it, the last one topmost.
   */
  lemma {:induction false} BatchWithEnds(r: Rules, lines: seq<string>, edits: seq<Edit>)
    requires var named := Filter(FirstOccurrences(r, edits), Anchored);
      Independent(r, lines, named) && AnchorsMatch(r, lines, named)
    ensures var kept := FirstOccurrences(r, edits);
      var named, ends, tops := Filter(kept, Anchored), Filter(kept, AtEnd), Filter(kept, AtTop);
      var middle := Spliced(r, lines, named);
      var below := Stacked(middle, PayloadsOf(r, ends), false);
      |kept| <= |edits| &&
      Apply(r, lines, edits) ==
        if SomeInsertIsEmpty(r, lines, named) || SomeEndIsEmpty(r, kept) then Err(EmptyInsert)
        else Ok(Report(Stacked(below, PayloadsOf(r, tops), true),
          |NoopEdits(r, lines, named)| +
          (BlankOnBlank(middle, PayloadsOf(r, ends), false) + BlankOnBlank(below, PayloadsOf(r, tops), true)),
          |edits| - |kept|))
  {
    hide Run, Stacked, BlankOnBlank, Independent, AnchorsMatch, Filter, Spliced, PayloadsOf, NoopEdits;
    hide SomeInsertIsEmpty, SomeEndIsEmpty, Order, FirstOccurrences, FirstClash, ValidationError, CollectLineRefs;
    var kept := FirstOccurrences(r, edits);
    FirstOccurrencesShorter(r, edits);
    EndsPassTheTests(r, lines, kept);
    RunWithEnds(r, lines, kept);
    if edits == [] {
      EmptyBatch(r, lines);
    }
  }

  lemma {:induction false} EmptyBatch(r: Rules, lines: seq<string>)
    ensures FirstOccurrences(r, []) == [] && NamesLines(r, Order(r, []))
    ensures Run(r, lines, Order(r, [])) == Ok((lines, 0))
  {
  }
}
