/**
 * A file with several splices in place at once. Every splice is fixed beforehand and sits at a line of
 * the original file, so nothing here depends on an order among them.
 */
module SimultaneousSplice {
  import opened Wrappers

  datatype Kind = AReplace | AnAppend | APrepend

  /** A place a splice can take: one of each kind per line. */
  datatype Seat = Seat(kind: Kind, line: nat)

  /** Rows for lines `line..hi`, rows after the line, or rows chosen by looking at what they will stand above. */
  datatype Piece<!L> =
    | Swap(hi: nat, rows: seq<L>)
    | After(rows: seq<L>)
    | Above(pick: L -> seq<L>)

  type Seating<!L> = map<Seat, Piece<L>>

  function At<L>(seats: Seating<L>, kind: Kind, line: nat): Option<Piece<L>> {
    if Seat(kind, line) in seats then Some(seats[Seat(kind, line)]) else None
  }

  predicate Swaps<L>(lines: seq<L>, swap: Option<Piece<L>>, line: nat) {
    swap.Some? && swap.value.Swap? && line <= swap.value.hi <= |lines|
  }

  /** The first original line below what stands at `line`. */
  function Next<L>(lines: seq<L>, swap: Option<Piece<L>>, line: nat): (next: nat)
    requires 1 <= line <= |lines|
    ensures line < next <= |lines| + 1
  {
    if Swaps(lines, swap, line) then swap.value.hi + 1 else line + 1
  }

  /** What stands at `line` above `rest`: the rows of a swap, or the line and the rows put after it. */
  function Body<L>(lines: seq<L>, line: nat, swap: Option<Piece<L>>, after: Option<Piece<L>>, rest: seq<L>): seq<L>
    requires 1 <= line <= |lines|
  {
    if Swaps(lines, swap, line) then swap.value.rows + rest
    else if after.Some? && after.value.After? then [lines[line - 1]] + after.value.rows + rest
    else [lines[line - 1]] + rest
  }

  function Topped<L>(above: Option<Piece<L>>, body: seq<L>): seq<L> {
    if above.Some? && above.value.Above? && body != [] then above.value.pick(body[0]) + body else body
  }

  /** Lines `line..` of the file with every splice in place. */
  function Render<L>(lines: seq<L>, seats: Seating<L>, line: nat): seq<L>
    requires 1 <= line <= |lines| + 1
    decreases |lines| + 1 - line
  {
    if line > |lines| then []
    else
      var swap := At(seats, AReplace, line);
      var rest := Render(lines, seats, Next(lines, swap, line));
      Topped(At(seats, APrepend, line), Body(lines, line, swap, At(seats, AnAppend, line), rest))
  }

  ghost predicate AllFrom<L>(seats: Seating<L>, line: nat) {
    forall s :: s in seats ==> s.line >= line
  }

  /** Lines above every splice are untouched. */
  lemma {:induction false} RenderAbove<L>(lines: seq<L>, seats: Seating<L>, line: nat, below: nat)
    requires 1 <= line <= below <= |lines| + 1 && AllFrom(seats, below)
    ensures Render(lines, seats, line) == lines[line - 1..below - 1] + Render(lines, seats, below)
    decreases below - line
  {
    var rest := Render(lines, seats, below);
    if line == below {
      assert lines[line - 1..below - 1] + rest == rest;
    } else {
      RenderUntouched(lines, seats, line);
      RenderAbove(lines, seats, line + 1, below);
      Prefixed(lines, line, below, rest);
    }
  }

  lemma {:induction false} RenderFromTop<L>(lines: seq<L>, seats: Seating<L>, above: nat)
    requires above <= |lines| && AllFrom(seats, above + 1)
    ensures Render(lines, seats, 1) == lines[..above] + Render(lines, seats, above + 1)
  {
    RenderAbove(lines, seats, 1, above + 1);
    assert lines[0..above] == lines[..above];
  }

  lemma {:induction false} Prefixed<L>(lines: seq<L>, line: nat, below: nat, rest: seq<L>)
    requires 1 <= line < below <= |lines| + 1
    ensures [lines[line - 1]] + (lines[line..below - 1] + rest) == lines[line - 1..below - 1] + rest
  {
  }

  lemma {:induction false} RenderUntouched<L>(lines: seq<L>, seats: Seating<L>, line: nat)
    requires 1 <= line <= |lines| && forall s :: s in seats ==> s.line != line
    ensures Render(lines, seats, line) == [lines[line - 1]] + Render(lines, seats, line + 1)
  {
    assert At(seats, AReplace, line) == None && At(seats, AnAppend, line) == None && At(seats, APrepend, line) == None;
  }

  lemma {:induction false} RenderHead<L>(lines: seq<L>, seats: Seating<L>, line: nat)
    requires 1 <= line <= |lines|
    requires Seat(AReplace, line) !in seats && Seat(APrepend, line) !in seats
    ensures Render(lines, seats, line) != [] && Render(lines, seats, line)[0] == lines[line - 1]
  {
    assert At(seats, AReplace, line) == None && At(seats, APrepend, line) == None;
  }

  lemma {:induction false} RenderEnd<L>(lines: seq<L>, seats: Seating<L>)
    ensures Render(lines, seats, |lines| + 1) == []
  {
  }

  /** A splice that sits higher up does not show from `line` on. */
  lemma {:induction false} RenderBelow<L>(lines: seq<L>, seats: Seating<L>, s: Seat, piece: Piece<L>, line: nat)
    requires 1 <= line <= |lines| + 1 && s.line < line
    ensures Render(lines, seats[s := piece], line) == Render(lines, seats, line)
    decreases |lines| + 1 - line
  {
    if line <= |lines| {
      assert At(seats[s := piece], AReplace, line) == At(seats, AReplace, line);
      assert At(seats[s := piece], AnAppend, line) == At(seats, AnAppend, line);
      assert At(seats[s := piece], APrepend, line) == At(seats, APrepend, line);
      RenderBelow(lines, seats, s, piece, Next(lines, At(seats, AReplace, line), line));
    }
  }

  /** A line's rendering, given who sits there and what stands below. */
  lemma {:induction false} RenderStep<L>(lines: seq<L>, seats: Seating<L>, line: nat, swap: Option<Piece<L>>,
      after: Option<Piece<L>>, above: Option<Piece<L>>, next: nat)
    requires 1 <= line <= |lines|
    requires At(seats, AReplace, line) == swap && At(seats, AnAppend, line) == after &&
      At(seats, APrepend, line) == above
    requires Next(lines, swap, line) == next
    ensures Render(lines, seats, line) == Topped(above, Body(lines, line, swap, after, Render(lines, seats, next)))
  {
  }

  lemma {:induction false} RenderWithSwap<L>(lines: seq<L>, seats: Seating<L>, line: nat, hi: nat, rows: seq<L>)
    requires 1 <= line <= hi <= |lines| && Seat(APrepend, line) !in seats
    ensures Render(lines, seats[Seat(AReplace, line) := Swap(hi, rows)], line) == rows + Render(lines, seats, hi + 1)
  {
    var more := seats[Seat(AReplace, line) := Swap(hi, rows)];
    RenderBelow(lines, seats, Seat(AReplace, line), Swap(hi, rows), hi + 1);
    RenderStep(lines, more, line, Some(Swap(hi, rows)), At(more, AnAppend, line), None, hi + 1);
  }

  lemma {:induction false} RenderWithAfter<L>(lines: seq<L>, seats: Seating<L>, line: nat, rows: seq<L>)
    requires 1 <= line <= |lines| && Seat(AReplace, line) !in seats && Seat(APrepend, line) !in seats
    ensures Render(lines, seats[Seat(AnAppend, line) := After(rows)], line) ==
      [lines[line - 1]] + rows + Render(lines, seats, line + 1)
  {
    var more := seats[Seat(AnAppend, line) := After(rows)];
    RenderBelow(lines, seats, Seat(AnAppend, line), After(rows), line + 1);
    RenderStep(lines, more, line, None, Some(After(rows)), None, line + 1);
  }

  lemma {:induction false} RenderWithAbove<L>(lines: seq<L>, seats: Seating<L>, line: nat, pick: L -> seq<L>)
    requires 1 <= line <= |lines| && Seat(APrepend, line) !in seats
    requires Swaps(lines, At(seats, AReplace, line), line) ==> seats[Seat(AReplace, line)].rows != []
    ensures Render(lines, seats, line) != []
    ensures Render(lines, seats[Seat(APrepend, line) := Above(pick)], line) ==
      pick(Render(lines, seats, line)[0]) + Render(lines, seats, line)
  {
    var more := seats[Seat(APrepend, line) := Above(pick)];
    var swap, after := At(seats, AReplace, line), At(seats, AnAppend, line);
    var next := Next(lines, swap, line);
    RenderStep(lines, seats, line, swap, after, None, next);
    RenderStep(lines, more, line, swap, after, Some(Above(pick)), next);
    RenderBelow(lines, seats, Seat(APrepend, line), Above(pick), next);
  }

  // ---- One more splice above the others ------------------------------------------------------

  lemma {:induction false} AddSwap<L>(lines: seq<L>, seats: Seating<L>, line: nat, hi: nat, rows: seq<L>)
    requires 1 <= line <= hi <= |lines| && AllFrom(seats, hi + 1)
    ensures Render(lines, seats[Seat(AReplace, line) := Swap(hi, rows)], 1) ==
      lines[..line - 1] + (rows + Render(lines, seats, hi + 1))
  {
    RenderFromTop(lines, seats[Seat(AReplace, line) := Swap(hi, rows)], line - 1);
    RenderWithSwap(lines, seats, line, hi, rows);
  }

  lemma {:induction false} AddAfter<L>(lines: seq<L>, seats: Seating<L>, line: nat, rows: seq<L>)
    requires 1 <= line <= |lines| && AllFrom(seats, line + 1)
    ensures Render(lines, seats[Seat(AnAppend, line) := After(rows)], 1) ==
      lines[..line - 1] + ([lines[line - 1]] + rows + Render(lines, seats, line + 1))
  {
    RenderFromTop(lines, seats[Seat(AnAppend, line) := After(rows)], line - 1);
    RenderWithAfter(lines, seats, line, rows);
  }

  lemma {:induction false} AddAbove<L>(lines: seq<L>, seats: Seating<L>, line: nat, pick: L -> seq<L>)
    requires 1 <= line <= |lines| && AllFrom(seats, line) && Seat(APrepend, line) !in seats
    requires Swaps(lines, At(seats, AReplace, line), line) ==> seats[Seat(AReplace, line)].rows != []
    ensures Render(lines, seats, line) != []
    ensures Render(lines, seats[Seat(APrepend, line) := Above(pick)], 1) ==
      lines[..line - 1] + (pick(Render(lines, seats, line)[0]) + Render(lines, seats, line))
  {
    RenderFromTop(lines, seats[Seat(APrepend, line) := Above(pick)], line - 1);
    RenderWithAbove(lines, seats, line, pick);
  }
}
