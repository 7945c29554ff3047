/** File text in canonical form: no byte order mark, line feeds only, and an envelope to restore both. */
module FileText {
  import opened Text

  datatype LineEnding = Lf | CrLf

  datatype Envelope = Envelope(content: string, hadBom: bool, lineEnding: LineEnding)

  const BOM := '\U{FEFF}'

  /** Where the first CR LF begins, or -1. */
  function IndexOfCrLf(s: string): (index: int)
    ensures -1 <= index < |s|
  {
    if s == "" then -1
    else if s[0] == '\r' && |s| > 1 && s[1] == '\n' then 0
    else
      var rest := IndexOfCrLf(s[1..]);
      if rest == -1 then -1 else rest + 1
  }

  function DetectLineEnding(s: string): LineEnding {
    var crlf, lf := IndexOfCrLf(s), IndexFrom(s, '\n', 0);
    if lf == -1 || crlf == -1 then Lf else if crlf < lf then CrLf else Lf
  }

  predicate HasBom(s: string) { s != "" && s[0] == BOM }

  function Body(s: string): string { if HasBom(s) then s[1..] else s }

  function CrToLf(s: string): string {
    if s == "" then "" else [if s[0] == '\r' then '\n' else s[0]] + CrToLf(s[1..])
  }

  function NormalizeToLf(s: string): string { CrToLf(Normalize(s)) }

  function LfToCrLf(s: string): string {
    if s == "" then "" else (if s[0] == '\n' then "\r\n" else [s[0]]) + LfToCrLf(s[1..])
  }

  function RestoreLineEndings(s: string, ending: LineEnding): string { if ending == Lf then s else LfToCrLf(s) }

  function Canonicalize(s: string): Envelope {
    Envelope(NormalizeToLf(Body(s)), HasBom(s), DetectLineEnding(Body(s)))
  }

  function Restore(content: string, e: Envelope): string {
    var text := RestoreLineEndings(content, e.lineEnding);
    if e.hadBom then [BOM] + text else text
  }

  // ---- Which texts come back ---------------------------------------------------------------------------

  /** Every CR is followed by LF and every LF follows a CR. */
  predicate Paired(s: string) {
    if s == "" then true
    else if s[0] == '\n' then false
    else if s[0] == '\r' then |s| > 1 && s[1] == '\n' && Paired(s[2..])
    else Paired(s[1..])
  }

  /** One kind of line end throughout: no CR at all, or only CR LF. */
  predicate Uniform(s: string) { '\r' !in s || Paired(s) }

  lemma {:induction false} IndexFromTail(s: string, c: char, from: nat)
    requires 1 <= from <= |s|
    ensures IndexFrom(s, c, from) ==
      if IndexFrom(s[1..], c, from - 1) == -1 then -1 else IndexFrom(s[1..], c, from - 1) + 1
    decreases |s| - from
  {
    if from < |s| && s[from] != c {
      IndexFromTail(s, c, from + 1);
    }
  }

  /** The first line end decides. */
  lemma {:induction false} DetectStep(s: string)
    requires s != ""
    ensures DetectLineEnding(s) ==
      if s[0] == '\n' then Lf else if s[0] == '\r' && |s| > 1 && s[1] == '\n' then CrLf else DetectLineEnding(s[1..])
  {
    IndexFromTail(s, '\n', 1);
    if |s| > 1 {
      assert IndexFrom(s[1..], '\n', 0) == 0 <==> s[1] == '\n';
    }
    CrLfBeforeItsLf(s);
  }

  /** A CR LF contains an LF. */
  lemma {:induction false} CrLfBeforeItsLf(s: string)
    ensures IndexOfCrLf(s) != -1 ==> IndexFrom(s, '\n', 0) != -1
  {
    if s != "" {
      CrLfBeforeItsLf(s[1..]);
      IndexFromTail(s, '\n', 1);
      if |s| > 1 {
        assert s[1] == '\n' ==> IndexFrom(s[1..], '\n', 0) == 0;
      }
    }
  }

  lemma {:induction false} PairedMeansCrLf(s: string)
    requires Paired(s) && ('\r' in s || '\n' in s)
    ensures DetectLineEnding(s) == CrLf
  {
    hide DetectLineEnding;
    DetectStep(s);
    if s[0] != '\r' {
      assert s == [s[0]] + s[1..];
      PairedMeansCrLf(s[1..]);
    }
  }

  lemma {:induction false} CanonicalHasNoCr(s: string)
    ensures '\r' !in CrToLf(s)
  {
    if s != "" {
      CanonicalHasNoCr(s[1..]);
    }
  }

  lemma {:induction false} NoCrIsCanonical(s: string)
    requires '\r' !in s
    ensures Normalize(s) == s && CrToLf(s) == s
  {
    if s != "" {
      assert s[0] in s && forall c :: c in s[1..] ==> c in s;
      NoCrIsCanonical(s[1..]);
    }
  }

  lemma {:induction false} RestoredIsPaired(s: string)
    requires '\r' !in s
    ensures Paired(LfToCrLf(s))
    ensures Normalize(LfToCrLf(s)) == s
  {
    if s != "" {
      var rest := LfToCrLf(s[1..]);
      assert s[0] in s && forall c :: c in s[1..] ==> c in s;
      RestoredIsPaired(s[1..]);
      if s[0] == '\n' {
        assert LfToCrLf(s) == "\r\n" + rest && LfToCrLf(s)[2..] == rest;
      } else {
        assert LfToCrLf(s) == [s[0]] + rest && LfToCrLf(s)[1..] == rest;
      }
    }
  }

  lemma {:induction false} PairedComesBack(s: string)
    requires Paired(s)
    ensures '\r' !in Normalize(s) && LfToCrLf(Normalize(s)) == s
    decreases |s|
  {
    if s != "" {
      if s[0] == '\r' {
        PairedComesBack(s[2..]);
        assert s == "\r\n" + s[2..];
        assert (['\n'] + Normalize(s[2..]))[1..] == Normalize(s[2..]);
      } else {
        PairedComesBack(s[1..]);
        assert s == [s[0]] + s[1..];
        assert ([s[0]] + Normalize(s[1..]))[1..] == Normalize(s[1..]);
      }
    }
  }

  lemma {:induction false} BodyComesBackIffUniform(s: string)
    ensures RestoreLineEndings(NormalizeToLf(s), DetectLineEnding(s)) == s <==> Uniform(s)
  {
    hide DetectLineEnding;
    CanonicalHasNoCr(Normalize(s));
    if '\r' !in s {
      NoCrIsCanonical(s);
      if '\n' in s {
        NoCrMeansLf(s);
      } else {
        NoLfMeansLf(s);
      }
    } else if Paired(s) {
      PairedMeansCrLf(s);
      PairedComesBack(s);
      NoCrIsCanonical(Normalize(s));
    } else {
      RestoredIsPaired(NormalizeToLf(s));
    }
  }

  lemma {:induction false} NoCrMeansLf(s: string)
    requires '\r' !in s
    ensures DetectLineEnding(s) == Lf
  {
    hide DetectLineEnding;
    if s == "" {
      NoLfMeansLf(s);
    } else {
      assert s[0] in s && forall c :: c in s[1..] ==> c in s;
      DetectStep(s);
      NoCrMeansLf(s[1..]);
    }
  }

  lemma {:induction false} NoLfMeansLf(s: string)
    requires '\n' !in s
    ensures DetectLineEnding(s) == Lf
  {
  }

  /** Restoring the canonical form gives the file back exactly when its line ends are of one kind, mark or no mark. */
  lemma {:induction false} ComesBackIffUniform(s: string)
    ensures Restore(Canonicalize(s).content, Canonicalize(s)) == s <==> Uniform(Body(s))
  {
    BodyComesBackIffUniform(Body(s));
    var text := RestoreLineEndings(NormalizeToLf(Body(s)), DetectLineEnding(Body(s)));
    if HasBom(s) {
      assert s == [BOM] + Body(s);
      assert ([BOM] + text)[1..] == text;
    }
  }

  lemma {:induction false} DetectedHasLf(s: string)
    requires DetectLineEnding(s) == CrLf
    ensures '\n' in Normalize(s)
  {
    hide DetectLineEnding;
    if s == "" {
      NoLfMeansLf(s);
    } else {
      DetectStep(s);
      if !(s[0] == '\r' && |s| > 1 && s[1] == '\n') {
        DetectedHasLf(s[1..]);
      }
    }
  }

  lemma {:induction false} CrToLfKeepsLf(s: string)
    requires '\n' in s
    ensures '\n' in CrToLf(s)
  {
    if s[0] != '\n' {
      assert s == [s[0]] + s[1..];
      CrToLfKeepsLf(s[1..]);
    }
  }

  /** A restored body reads as it did: same content, same line ending. */
  lemma {:induction false} RestoredBodyReadsTheSame(content: string, ending: LineEnding)
    requires '\r' !in content && (ending == CrLf ==> '\n' in content)
    ensures var text := RestoreLineEndings(content, ending);
      NormalizeToLf(text) == content && DetectLineEnding(text) == ending
  {
    hide DetectLineEnding;
    NoCrIsCanonical(content);
    if ending == Lf {
      NoCrMeansLf(content);
    } else {
      RestoredIsPaired(content);
      LfSurvives(content);
      PairedMeansCrLf(LfToCrLf(content));
    }
  }

  lemma {:induction false} LfSurvives(s: string)
    requires '\n' in s
    ensures '\n' in LfToCrLf(s)
  {
    if s[0] != '\n' {
      assert s == [s[0]] + s[1..];
      LfSurvives(s[1..]);
    }
  }

  lemma {:induction false} NoBomAppears(s: string)
    requires !HasBom(s)
    ensures !HasBom(NormalizeToLf(s)) && !HasBom(LfToCrLf(s))
  {
  }

  /** For every text, canonicalizing what was restored gives the same canonical form again. */
  lemma {:induction false} CanonicalFormIsStable(s: string)
    ensures Canonicalize(Restore(Canonicalize(s).content, Canonicalize(s))) == Canonicalize(s)
  {
    hide DetectLineEnding, Normalize, CrToLf, LfToCrLf;
    var e := Canonicalize(s);
    var text := RestoreLineEndings(e.content, e.lineEnding);
    CanonicalHasNoCr(Normalize(Body(s)));
    if e.lineEnding == CrLf {
      DetectedHasLf(Body(s));
      CrToLfKeepsLf(Normalize(Body(s)));
    }
    RestoredBodyReadsTheSame(e.content, e.lineEnding);
    if e.hadBom {
      assert ([BOM] + text)[1..] == text;
    } else {
      NoBomAppears(Body(s));
      NoBomAppears(e.content);
    }
  }

  // ---- Line by line ----------------------------------------------------------------------------------

  lemma {:induction false} CrToLfAppend(a: string, b: string)
    ensures CrToLf(a + b) == CrToLf(a) + CrToLf(b)
  {
    if a == "" {
      assert a + b == b;
    } else {
      assert (a + b)[1..] == a[1..] + b;
      CrToLfAppend(a[1..], b);
    }
  }

  lemma {:induction false} LfToCrLfAppend(a: string, b: string)
    ensures LfToCrLf(a + b) == LfToCrLf(a) + LfToCrLf(b)
  {
    if a == "" {
      assert a + b == b;
    } else {
      assert (a + b)[1..] == a[1..] + b;
      LfToCrLfAppend(a[1..], b);
    }
  }

  lemma {:induction false} NormalizeFront(line: string, rest: string)
    requires '\r' !in line
    ensures Normalize(line + rest) == line + Normalize(rest)
  {
    hide Normalize;
    if line == "" {
      assert line + rest == rest && line + Normalize(rest) == Normalize(rest);
    } else {
      var c, more := line[0], line[1..];
      assert c in line && forall x :: x in more ==> x in line;
      NormalizeFront(more, rest);
      NormalizeStep(c, more + rest);
      assert line + rest == [c] + (more + rest);
    }
  }

  lemma {:induction false} NormalizeLine(line: string, rest: string)
    requires '\r' !in line
    ensures Normalize(line + "\r\n" + rest) == line + "\n" + Normalize(rest)
    ensures !("\n" <= rest) ==> Normalize(line + "\r" + rest) == line + "\r" + Normalize(rest)
    ensures Normalize(line + "\n" + rest) == line + "\n" + Normalize(rest)
  {
    hide Normalize;
    NormalizeFront(line + "\n", rest);
    NormalizeFront(line, "\r\n" + rest);
    NormalizeFront(line, "\r" + rest);
    NormalizeStep('\r', "\n" + rest);
    NormalizeStep('\r', rest);
    assert "\r\n" + rest == ['\r'] + ("\n" + rest) && ("\n" + rest)[1..] == rest;
    assert line + "\r\n" + rest == line + ("\r\n" + rest) && line + "\r" + rest == line + ("\r" + rest);
  }

  /** Every line end becomes one LF: CR LF, CR alone, and LF. */
  lemma {:induction false} EveryEndBecomesLf(line: string, rest: string)
    requires '\r' !in line && '\n' !in line
    ensures NormalizeToLf(line) == line
    ensures NormalizeToLf(line + "\r\n" + rest) == NormalizeToLf(line + "\n" + rest) ==
      line + "\n" + NormalizeToLf(rest)
    ensures !("\n" <= rest) ==> NormalizeToLf(line + "\r" + rest) == line + "\n" + NormalizeToLf(rest)
  {
    hide Normalize, CrToLf;
    NoCrIsCanonical(line);
    NormalizeLine(line, rest);
    OneEnd();
    CrToLfAppend(line, "\n" + Normalize(rest));
    CrToLfAppend("\n", Normalize(rest));
    CrToLfAppend(line, "\r" + Normalize(rest));
    CrToLfAppend("\r", Normalize(rest));
    assert line + "\n" + Normalize(rest) == line + ("\n" + Normalize(rest));
    assert line + "\r" + Normalize(rest) == line + ("\r" + Normalize(rest));
  }

  lemma {:induction false} OneEnd()
    ensures CrToLf("\n") == "\n" && CrToLf("\r") == "\n" && LfToCrLf("\n") == "\r\n"
  {
  }

  lemma {:induction false} NothingToEnd(line: string)
    requires '\n' !in line
    ensures LfToCrLf(line) == line
  {
    if line != "" {
      assert line[0] in line && forall x :: x in line[1..] ==> x in line;
      NothingToEnd(line[1..]);
    }
  }

  /** Restoring puts back the mark and the kind of line end, and nothing else. */
  lemma {:induction false} RestoringPutsBack(line: string, rest: string, bom: bool)
    requires '\n' !in line
    ensures var mark := if bom then "\U{FEFF}" else "";
      && Restore(line + "\n" + rest, Envelope("", bom, Lf)) == mark + (line + "\n" + rest)
      && Restore(line, Envelope("", bom, CrLf)) == mark + line
      && Restore(line + "\n" + rest, Envelope("", bom, CrLf)) == mark + (line + "\r\n" + LfToCrLf(rest))
  {
    hide LfToCrLf;
    NothingToEnd(line);
    OneEnd();
    assert line + "\n" + rest == line + ("\n" + rest);
    LfToCrLfAppend(line, "\n" + rest);
    LfToCrLfAppend("\n", rest);
    assert line + ("\r\n" + LfToCrLf(rest)) == line + "\r\n" + LfToCrLf(rest);
  }

  /** One leading byte order mark comes off and is remembered. */
  lemma {:induction false} MarkComesOff(text: string)
    ensures Canonicalize("\U{FEFF}" + text) == Envelope(NormalizeToLf(text), true, DetectLineEnding(text))
    ensures !("\U{FEFF}" <= text) ==> Canonicalize(text) == Envelope(NormalizeToLf(text), false, DetectLineEnding(text))
  {
    hide NormalizeToLf, DetectLineEnding;
    assert ("\U{FEFF}" + text)[1..] == text;
  }
}
