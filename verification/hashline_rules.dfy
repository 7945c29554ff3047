/** The edit engine with the program's own anchor parser, tag test and prefix stripping in place of arbitrary rules. */
module HashlineRules {
  import opened Wrappers
  import opened Text
  import opened HashlineFormat
  import opened HashlineEdits
  import opened HashlineSplice
  import R = HashlineRefs

  /** A canonical anchor read as line and tag; one that is no reference names line zero, which no file has. */
  function ParseCanonical(anchor: string): LineRef {
    if R.IsRef(anchor) then
      LineRef(R.ParseDecimal(anchor[..SkipDigits(anchor, 0)]), anchor[SkipDigits(anchor, 0) + 1..])
    else LineRef(0, anchor)
  }

  /** Rows of a payload: text is split at line feeds, and tags or plus signs come off. */
  function NewLines(payload: Payload): seq<string> {
    R.Stripped(if payload.Block? then Split(payload.text, '\n') else payload.rows)
  }

  /** The rules of the program, the three heuristics still arbitrary. */
  function RulesOf(tag: Tag, legacyTag: Tag, autocorrect: (seq<string>, seq<string>) -> seq<string>,
      restoreIndent: (string, string) -> string, sameText: (string, string) -> bool): Rules {
    Rules(R.NormalizeLineRef, ParseCanonical,
      (line: nat, content: string, hash: string) => tag(line, content) == hash || legacyTag(line, content) == hash,
      NewLines, autocorrect, restoreIndent, sameText)
  }

  ghost predicate Concrete(r: Rules, tag: Tag, legacyTag: Tag) {
    r == RulesOf(tag, legacyTag, r.autocorrect, r.restoreIndent, r.sameText)
  }

  lemma {:induction false} ReferenceIsBare(anchor: string)
    ensures R.IsRef(anchor) ==> anchor != "" && '|' !in anchor
  {
    if R.IsRef(anchor) {
      var d := SkipDigits(anchor, 0);
      assert anchor == anchor[..d] + [anchor[d], anchor[d + 1], anchor[d + 2]];
    }
  }

  /** Refusing canonical forms that are empty or hold a bar refuses nothing the parser takes. */
  lemma {:induction false} GuardRefusesNothing(r: Rules, tag: Tag, legacyTag: Tag, ref: string)
    requires Concrete(r, tag, legacyTag)
    ensures RefAt(r, ref).line == r.parse(r.normalize(ref)).line
    ensures r.parse(r.normalize(ref)).line >= 1 ==> RefAt(r, ref) == r.parse(r.normalize(ref)) && Bare(r, ref)
  {
    hide R.NormalizeLineRef, R.IsRef;
    ReferenceIsBare(r.normalize(ref));
  }

  /** The batch's one test of an anchor accepts exactly what the reference validator accepts. */
  lemma {:induction false} AnchorTestIsValidation(r: Rules, tag: Tag, legacyTag: Tag, lines: seq<string>, ref: string)
    requires Concrete(r, tag, legacyTag)
    ensures RefValid(r, lines, ref) <==> R.ValidateLineRef(lines, ref, tag, legacyTag).Ok?
    ensures RefValid(r, lines, ref) ==> R.ValidateLineRef(lines, ref, tag, legacyTag) == Ok(RefAt(r, ref))
  {
    hide R.NormalizeLineRef, R.IsRef;
    ReferenceIsBare(r.normalize(ref));
  }

  /** Line n of the printed text, copied with this marker in front. */
  predicate CopiesLine(text: string, tag: Tag, anchor: string, marker: string, n: nat) {
    var printed := Split(FormatText(1, text, tag), '\n');
    text != "" && marker in R.MARKERS && 1 <= n <= |printed| && anchor == marker + printed[n - 1]
  }

  ghost predicate IsCopiedLine(text: string, tag: Tag, anchor: string) {
    exists marker, n :: CopiesLine(text, tag, anchor, marker, n)
  }

  /** A copied line is the line of the file with that number, printed. */
  lemma {:induction false} CopiedLineIsPrinted(text: string, tag: Tag, anchor: string, marker: string, n: nat)
    requires R.ShapedTags(tag) && CopiesLine(text, tag, anchor, marker, n)
    ensures 1 <= n <= |LinesOf(text)| && marker in R.MARKERS
    ensures anchor == marker + FormatHashLine(n, LinesOf(text)[n - 1], tag)
  {
    hide Split, FormatText, FormatHashLine;
    R.PrintedLinesStay(1, text, tag);
  }

  lemma {:induction false} CopiedAnchorValid(r: Rules, tag: Tag, legacyTag: Tag, text: string, anchor: string)
    requires Concrete(r, tag, legacyTag) && R.ShapedTags(tag) && IsCopiedLine(text, tag, anchor)
    ensures RefValid(r, LinesOf(text), anchor)
  {
    hide Concrete, LinesOf, FormatHashLine, RefValid, R.ValidateLineRef, R.ShapedTags, CopiesLine;
    var lines := LinesOf(text);
    var marker, n :| CopiesLine(text, tag, anchor, marker, n);
    CopiedLineIsPrinted(text, tag, anchor, marker, n);
    R.PrintedLinesValidate(lines, n, marker, tag, legacyTag);
    AnchorTestIsValidation(r, tag, legacyTag, lines, anchor);
  }

  /** End to end: a batch whose anchors are lines copied from the printed text passes validation against the file. */
  lemma {:induction false} CopiedAnchorsMatch(r: Rules, tag: Tag, legacyTag: Tag, text: string, edits: seq<Edit>)
    requires Concrete(r, tag, legacyTag) && R.ShapedTags(tag)
    requires forall e, ref :: e in edits && ref in RefsOf(e) ==> IsCopiedLine(text, tag, ref)
    ensures AnchorsMatch(r, LinesOf(text), edits)
    ensures ValidationError(r, LinesOf(text), CollectLineRefs(edits)).None?
  {
    hide Concrete, LinesOf, IsCopiedLine, RefValid, ValidationError, R.ShapedTags;
    var lines := LinesOf(text);
    forall e, ref | e in edits && ref in RefsOf(e) ensures RefValid(r, lines, ref) {
      CopiedAnchorValid(r, tag, legacyTag, text, ref);
    }
    CollectedRefs(edits);
    NoErrorMeansValid(r, lines, CollectLineRefs(edits));
  }

  /** And copying printed rows back as a payload puts in the lines they were printed from. */
  lemma {:induction false} PrintedPayloadIsItsText(tag: Tag, start: nat, text: string)
    requires R.ShapedTags(tag)
    ensures NewLines(Block(FormatText(start, text, tag))) == Split(text, '\n')
  {
    R.PrintedTextReadsBack(start, text, tag);
  }

  lemma {:induction false} LineStays(line: string)
    requires R.PrefixEnd(line).None? && !R.IsPlusLine(line)
    ensures NewLines(Rows([line])) == [line]
  {
    hide R.PrefixEnd, R.IsPlusLine;
    assert [line][..0] == [];
    assert R.Count([], l => R.PrefixEnd(l).Some?) == 0 && R.Count([], R.IsPlusLine) == 0;
  }

  lemma {:induction false} BarStays()
    ensures R.NormalizeLineRef("|q") == "|q"
  {
    var s := "|q";
    assert Trim(s) == s by {
      assert TrimStart(s) == s;
      assert TrimEnd(s) == s;
    }
    assert R.DropMarker(s) == s;
    assert s[1..] == "q" && IndexFrom(s, '#', 2) == -1 && IndexFrom(s, '#', 1) == -1 && IndexFrom(s, '#', 0) == -1;
    assert R.CloseHash(s) == s;
    assert OneLine(s[1..]) && R.BarAt(s, 0) == 0;
    assert R.DropContent(s) == "" && Trim("") == "";
    hide R.DropMarker, R.CloseHash, R.DropContent, Trim;
    assert !R.IsRef("") && R.Extract("", 0).None?;
  }

  /** Texts with which a replace is dropped as a duplicate although its end is no reference and its rows are others. */
  lemma {:induction false} BarredEndOccurs()
    ensures R.NormalizeLineRef("|q") == "|" + "q"
    ensures NewLines(Rows(["q|r"])) == ["q|r"] && NewLines(Rows(["r"])) == ["r"]
    ensures Join(["q|r"], "\n") == "q" + "|" + Join(["r"], "\n")
  {
    BarStays();
    hide R.NormalizeLineRef, NewLines;
    assert R.PrefixEnd("q|r").None? && R.PrefixEnd("r").None?;
    hide R.PrefixEnd;
    LineStays("q|r");
    LineStays("r");
  }
}
