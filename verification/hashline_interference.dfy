/** Batches the overlap test lets through although their edits interfere: the splice theorem needs its own condition. */
module HashlineInterference {
  import opened Wrappers
  import opened Sorting
  import opened HashlineEdits
  import opened HashlineFormat
  import Text

  /** Two edits with different keys, already in order, that pass both tests are applied one after the other. */
  lemma {:induction false} TwoInOrder(r: Rules, lines: seq<string>, first: Edit, second: Edit)
    requires KeyOf(r, first) != KeyOf(r, second) && !Before(r, second, first)
    requires !IsRange(first) || !IsRange(second)
    requires forall ref :: ref in RefsOf(first) + RefsOf(second) ==> RefValid(r, lines, ref)
    ensures NamesLines(r, [first, second])
    ensures Apply(r, lines, [first, second]) ==
      match Run(r, lines, [first, second]) {
        case Err(error) => Err(error)
        case Ok((final, noops)) => Ok(Report(final, noops, 0))
      }
  {
    hide FirstOccurrences, Run, KeyOf, Before, RefValid, ValidationError, CollectLineRefs, FirstClash, RangesOf,
      OrderRanges, RefsOf;
    var edits := [first, second];
    DistinctKeysAreKept(r, edits);
    AlreadySorted(first, second, (a, b) => Before(r, a, b));
    assert Order(r, edits) == edits;
    TwoRefs(first, second);
    NoErrorMeansValid(r, lines, CollectLineRefs(edits));
    ValidatedNamesLines(r, lines, edits);
    AtMostOneRange(r, first, second);
  }

  lemma {:induction false} TwoRefs(first: Edit, second: Edit)
    ensures CollectLineRefs([first, second]) == RefsOf(first) + RefsOf(second)
  {
    assert [first, second][1..] == [second] && [second][1..] == [];
    assert CollectLineRefs([second]) == RefsOf(second) + CollectLineRefs([]);
    assert CollectLineRefs([]) == [];
  }

  lemma {:induction false} AlreadySorted<T>(x: T, y: T, before: (T, T) -> bool)
    requires !before(y, x)
    ensures Sort([x, y], before) == [x, y]
  {
    assert [x, y][1..] == [y] && [y][1..] == [];
    assert Sort([y], before) == Insert(y, Sort([], before), before);
  }

  lemma {:induction false} AtMostOneRange(r: Rules, first: Edit, second: Edit)
    requires !IsRange(first) || !IsRange(second)
    ensures FirstClash(OrderRanges(RangesOf(r, [first, second]))).None?
  {
    assert [first, second][..1] == [first] && [first][..0] == [];
    assert RangesOf(r, []) == [] && |RangesOf(r, [first])| <= 1 && (!IsRange(first) ==> RangesOf(r, [first]) == []);
    SortKeeps(RangesOf(r, [first, second]), RangeBefore);
  }

  lemma {:induction false} RunTwo(r: Rules, lines: seq<string>, first: Edit, second: Edit)
    requires NamesLines(r, [first, second])
    ensures Anchored(first) ==> 1 <= Lo(r, first)
    ensures Anchored(second) ==> 1 <= Lo(r, second)
    ensures Step(r, lines, first).Ok? && Step(r, Step(r, lines, first).value, second).Ok? ==>
      Run(r, lines, [first, second]).Ok? &&
        Run(r, lines, [first, second]).value.0 == Step(r, Step(r, lines, first).value, second).value
  {
    assert first in [first, second] && second in [first, second];
    assert [first, second][..1] == [first] && [first][..0] == [];
    assert NamesLines(r, [first]) && NamesLines(r, []);
    assert Run(r, lines, []) == Ok((lines, 0));
  }

  // ---- Two inserts after one line ------------------------------------------------------------------

  /** The rows an insert after line k puts in. */
  function RowsAfter(r: Rules, lines: seq<string>, k: nat, payload: Payload): seq<string>
    requires 1 <= k <= |lines|
  {
    StripAfterEcho(r, lines[k - 1], r.newLines(payload))
  }

  /** An insert after line k of a file that agrees with `lines` up to there. */
  lemma {:induction false} OneInserted(r: Rules, lines: seq<string>, k: nat, below: seq<string>, at: Anchor, a: Payload)
    requires 1 <= k <= |lines| && RefAt(r, at).line == k && RowsAfter(r, lines, k, a) != []
    ensures Step(r, lines[..k] + below, Append(Some(at), a)) == Ok(lines[..k] + (RowsAfter(r, lines, k, a) + below))
  {
    var file, rows := lines[..k] + below, RowsAfter(r, lines, k, a);
    assert file[..k] == lines[..k] && file[k..] == below && file[k - 1] == lines[k - 1];
    assert Splice(file, k, 0, rows) == file[..k] + rows + file[k..];
    assert file[..k] + rows + file[k..] == lines[..k] + (rows + below);
  }

  /** Two inserts after line k in one batch: the later one ends up directly below the line. */
  lemma {:induction false} BothInserted(r: Rules, lines: seq<string>, k: nat, at: Anchor, a: Payload, next: Anchor,
      b: Payload)
    requires 1 <= k <= |lines| && RefAt(r, at).line == k && RefAt(r, next).line == k
    requires RefValid(r, lines, at) && RefValid(r, lines, next)
    requires RowsAfter(r, lines, k, a) != [] && RowsAfter(r, lines, k, b) != []
    requires KeyOf(r, Append(Some(at), a)) != KeyOf(r, Append(Some(next), b))
    ensures var report := Apply(r, lines, [Append(Some(at), a), Append(Some(next), b)]);
      report.Ok? && report.value.lines ==
        lines[..k] + (RowsAfter(r, lines, k, b) + RowsAfter(r, lines, k, a) + lines[k..])
  {
    hide Run, Apply, KeyOf, Step, RowsAfter, RefValid;
    var first, second := Append(Some(at), a), Append(Some(next), b);
    var x, y := RowsAfter(r, lines, k, a), RowsAfter(r, lines, k, b);
    TwoInOrder(r, lines, first, second);
    RunTwo(r, lines, first, second);
    assert lines[..k] + lines[k..] == lines;
    OneInserted(r, lines, k, lines[k..], at, a);
    OneInserted(r, lines, k, x + lines[k..], next, b);
    assert y + (x + lines[k..]) == y + x + lines[k..];
  }

  lemma {:induction false} SameMiddle(front: seq<string>, x: seq<string>, y: seq<string>, back: seq<string>)
    requires |x| == |y|
    ensures front + (x + back) == front + (y + back) <==> x == y
  {
    if front + (x + back) == front + (y + back) {
      forall i | 0 <= i < |x| ensures x[i] == y[i] {
        assert x[i] == (front + (x + back))[|front| + i] && y[i] == (front + (y + back))[|front| + i];
      }
    }
  }

  /**
   * Two inserts after one line of any file are accepted in either order, and the order does not matter exactly when
   * their rows commute.
   */
  lemma {:induction false} SameLineInsertsCommute(r: Rules, lines: seq<string>, k: nat, at: Anchor, a: Payload,
      next: Anchor, b: Payload)
    requires 1 <= k <= |lines| && RefAt(r, at).line == k && RefAt(r, next).line == k
    requires RefValid(r, lines, at) && RefValid(r, lines, next)
    requires RowsAfter(r, lines, k, a) != [] && RowsAfter(r, lines, k, b) != []
    requires KeyOf(r, Append(Some(at), a)) != KeyOf(r, Append(Some(next), b))
    ensures var one := Apply(r, lines, [Append(Some(at), a), Append(Some(next), b)]);
      var other := Apply(r, lines, [Append(Some(next), b), Append(Some(at), a)]);
      var x, y := RowsAfter(r, lines, k, a), RowsAfter(r, lines, k, b);
      one.Ok? && other.Ok? && (one.value.lines == other.value.lines <==> x + y == y + x)
  {
    hide Apply, KeyOf, RowsAfter, RefValid;
    BothInserted(r, lines, k, at, a, next, b);
    BothInserted(r, lines, k, next, b, at, a);
    var x, y := RowsAfter(r, lines, k, a), RowsAfter(r, lines, k, b);
    SameMiddle(lines[..k], y + x, x + y, lines[k..]);
  }

  // ---- A replace inside a replaced range -----------------------------------------------------------

  /** The file after lines s..f were replaced. */
  function AfterRange(r: Rules, lines: seq<string>, s: nat, f: nat, payload: Payload): seq<string>
    requires 1 <= s <= f <= |lines|
  {
    lines[..s - 1] + RangeRows(r, lines, s, f, payload) + lines[f..]
  }

  /** What a replace of one line does to whatever file it meets. */
  function SetLine(r: Rules, file: seq<string>, k: nat, payload: Payload): seq<string>
    requires 1 <= k
  {
    Splice(file, k - 1, 1, SetRows(r, if k <= |file| then file[k - 1] else "", payload))
  }

  /**
   * A one-line replace inside a replaced range of any file is accepted, and overwrites whatever the range left at that
   * number: a row of the range's payload, a line from below the range, or nothing. Its anchor still holds there exactly
   * when that row or line carries its tag.
   */
  lemma {:induction false} ReplaceInsideARange(r: Rules, lines: seq<string>, from: Anchor, until: Anchor,
      inside: Anchor, a: Payload, b: Payload)
    requires RefValid(r, lines, from) && RefValid(r, lines, until) && RefValid(r, lines, inside)
    requires RefAt(r, from).line <= RefAt(r, inside).line < RefAt(r, until).line
    requires KeyOf(r, Replace(from, Some(until), a)) != KeyOf(r, Replace(inside, None, b))
    ensures var s, f, k := RefAt(r, from).line, RefAt(r, until).line, RefAt(r, inside).line;
      var report := Apply(r, lines, [Replace(from, Some(until), a), Replace(inside, None, b)]);
      var file, rows := AfterRange(r, lines, s, f, a), RangeRows(r, lines, s, f, a);
      && report.Ok? && report.value.lines == SetLine(r, file, k, b)
      && (k <= |file| ==> file[k - 1] == if k - s < |rows| then rows[k - s] else lines[f + (k - s - |rows|)])
      && (RefValid(r, file, inside) <==> k <= |file| && r.hashOk(k, file[k - 1], RefAt(r, inside).hash))
  {
    hide Run, Apply, KeyOf, Step;
    var s, f, k := RefAt(r, from).line, RefAt(r, until).line, RefAt(r, inside).line;
    var first, second := Replace(from, Some(until), a), Replace(inside, None, b);
    TwoInOrder(r, lines, first, second);
    RunTwo(r, lines, first, second);
    RangeReplaced(r, lines, from, until, a);
    LineSet(r, AfterRange(r, lines, s, f, a), inside, b);
  }

  lemma {:induction false} RangeReplaced(r: Rules, lines: seq<string>, from: Anchor, until: Anchor, a: Payload)
    requires 1 <= RefAt(r, from).line <= RefAt(r, until).line <= |lines|
    ensures Step(r, lines, Replace(from, Some(until), a)) ==
      Ok(AfterRange(r, lines, RefAt(r, from).line, RefAt(r, until).line, a))
  {
  }

  lemma {:induction false} LineSet(r: Rules, file: seq<string>, at: Anchor, b: Payload)
    requires 1 <= RefAt(r, at).line
    ensures Step(r, file, Replace(at, None, b)) == Ok(SetLine(r, file, RefAt(r, at).line, b))
  {
  }

  // ---- An insert before a replaced line ------------------------------------------------------------

  /** Rules under which a line is its own tag and every anchor names line one. */
  function PlainRules(): Rules {
    Rules(
      (s: string) => s,
      (s: string) => LineRef(1, s),
      (n: nat, content: string, hash: string) => content == hash,
      (p: Payload) => if p.Rows? then p.rows else [p.text],
      (original: seq<string>, rows: seq<string>) => rows,
      (template: string, row: string) => row,
      (a: string, b: string) => a == b)
  }

  /**
   * A batch that is accepted although a second check would refuse its last edit: the line it inserts before is gone.
   */
  lemma {:induction false} SecondCheckCanFail()
    ensures var r := PlainRules();
      var replace, insert := Replace("a", None, Rows(["b"])), Prepend(Some("a"), Rows(["c"]));
      && Apply(r, ["a"], [replace, insert]).Ok? && Apply(r, ["a"], [replace, insert]).value.lines == ["c", "b"]
      && Step(r, ["a"], replace) == Ok(["b"]) && RefValid(r, ["a"], "a") && !RefValid(r, ["b"], "a")
  {
    hide Run, Apply, KeyOf;
    var r := PlainRules();
    var replace, insert := Replace("a", None, Rows(["b"])), Prepend(Some("a"), Rows(["c"]));
    KeyIsExact(r, replace, insert);
    PlainSteps();
    hide Step;
    TwoInOrder(r, ["a"], replace, insert);
    RunTwo(r, ["a"], replace, insert);
  }

  lemma {:induction false} PlainFacts(row: string)
    ensures RefAt(PlainRules(), "a") == LineRef(1, "a") && Bare(PlainRules(), "a")
    ensures PlainRules().newLines(Rows([row])) == [row]
    ensures SetRows(PlainRules(), "a", Rows([row])) == [row]
  {
  }

  lemma {:induction false} OneRowBefore(r: Rules, lines: seq<string>, at: Anchor, payload: Payload)
    requires 1 <= RefAt(r, at).line && |r.newLines(payload)| == 1
    ensures Step(r, lines, Prepend(Some(at), payload)) ==
      Ok(Splice(lines, RefAt(r, at).line - 1, 0, r.newLines(payload)))
  {
  }

  lemma {:induction false} PlainSteps()
    ensures Step(PlainRules(), ["a"], Replace("a", None, Rows(["b"]))) == Ok(["b"])
    ensures Step(PlainRules(), ["b"], Prepend(Some("a"), Rows(["c"]))) == Ok(["c", "b"])
  {
    hide PlainRules, Step, SetRows, RefAt;
    PlainFacts("b");
    PlainFacts("c");
    var r := PlainRules();
    LineSet(r, ["a"], "a", Rows(["b"]));
    OneRowBefore(r, ["b"], "a", Rows(["c"]));
    assert Splice(["a"], 0, 1, ["b"]) == ["b"];
    assert Splice(["b"], 0, 0, ["c"]) == ["c", "b"];
  }

  // ---- Duplicates nobody checks --------------------------------------------------------------------

  /** A second edit with the key of an accepted one counts as a duplicate, whatever its anchors are. */
  lemma {:induction false} SameKeyIsDropped(r: Rules, lines: seq<string>, e: Edit, copy: Edit)
    requires KeyOf(r, copy) == KeyOf(r, e) && Apply(r, lines, [e]).Ok?
    ensures Apply(r, lines, [e, copy]) == Ok(Apply(r, lines, [e]).value.(deduplicatedEdits := 1))
  {
    hide Run, Order, ValidationError, CollectLineRefs, FirstClash, OrderRanges, RangesOf, KeyOf;
    assert [e, copy][..1] == [e] && [e][..0] == [];
    assert FirstOccurrences(r, []) == [];
    assert FirstOccurrences(r, [e]) == [e];
    assert e in [e] && KeyOf(r, e) in KeysOf(r, [e]);
    assert FirstOccurrences(r, [e, copy]) == [e];
  }

  /** One: a copy of an accepted replace whose end vanishes in canonical form. Its end is never read as a reference. */
  lemma {:induction false} BlankEndIsNeverRead(r: Rules, lines: seq<string>, pos: Anchor, payload: Payload,
      blank: Anchor)
    requires r.normalize(blank) == "" && Apply(r, lines, [Replace(pos, None, payload)]).Ok?
    ensures Apply(r, lines, [Replace(pos, None, payload), Replace(pos, Some(blank), payload)]) ==
      Ok(Apply(r, lines, [Replace(pos, None, payload)]).value.(deduplicatedEdits := 1))
    ensures !RefValid(r, lines, blank)
  {
    SameKeyIsDropped(r, lines, Replace(pos, None, payload), Replace(pos, Some(blank), payload));
  }

  lemma {:induction false} BarredEndHasSameKey(r: Rules, pos: Anchor, payload: Payload, barred: Anchor, rest: Payload,
      front: string)
    requires r.normalize(barred) == "|" + front
    requires Text.Join(r.newLines(payload), "\n") == front + "|" + Text.Join(r.newLines(rest), "\n")
    ensures KeyOf(r, Replace(pos, None, payload)) == KeyOf(r, Replace(pos, Some(barred), rest))
  {
    hide Text.Join;
    var body := Text.Join(r.newLines(rest), "\n");
    assert "" + "|" + (front + "|" + body) == ("|" + front) + "|" + body;
  }

  /**
   * Two: a replace whose end is a bar and the beginning of the accepted replace's rows, and whose own rows are the
   * rest of them behind another bar. The bars make it one key, although neither the anchors nor the rows agree.
   */
  lemma {:induction false} BarredEndIsNeverRead(r: Rules, lines: seq<string>, pos: Anchor, payload: Payload,
      barred: Anchor, rest: Payload, front: string)
    requires r.normalize(barred) == "|" + front
    requires Text.Join(r.newLines(payload), "\n") == front + "|" + Text.Join(r.newLines(rest), "\n")
    requires Apply(r, lines, [Replace(pos, None, payload)]).Ok?
    ensures Apply(r, lines, [Replace(pos, None, payload), Replace(pos, Some(barred), rest)]) ==
      Ok(Apply(r, lines, [Replace(pos, None, payload)]).value.(deduplicatedEdits := 1))
    ensures !RefValid(r, lines, barred)
  {
    hide Apply, KeyOf, Text.Join;
    BarredEndHasSameKey(r, pos, payload, barred, rest, front);
    SameKeyIsDropped(r, lines, Replace(pos, None, payload), Replace(pos, Some(barred), rest));
  }
}
