/** Tagged lines: a line number, a short content tag, and the line itself. */
module HashlineFormat {
  import opened Text

  /** The tag of a line: two letters computed from its number and content. */
  type Tag = (nat, string) -> string

  /** A reference to a line by number and tag. */
  datatype LineRef = LineRef(line: nat, hash: string)

  const DIGITS := "0123456789"

  /** A number as `String(n)` writes it. */
  function Decimal(n: nat): (s: string)
    ensures s != ""
  {
    if n < 10 then [DIGITS[n]] else Decimal(n / 10) + [DIGITS[n % 10]]
  }

  function FormatHashLine(lineNumber: nat, content: string, tag: Tag): (s: string)
    ensures s != ""
  {
    Decimal(lineNumber) + "#" + tag(lineNumber, content) + "|" + content
  }

  /** Consecutive lines, the first with number start. */
  function FormatFrom(start: nat, lines: seq<string>, tag: Tag): (formatted: seq<string>)
    ensures |formatted| == |lines|
    ensures forall i :: 0 <= i < |lines| ==> formatted[i] == FormatHashLine(start + i, lines[i], tag)
  {
    seq(|lines|, i requires 0 <= i < |lines| => FormatHashLine(start + i, lines[i], tag))
  }

  /** A whole text, starting at the given line number; the empty text has no lines at all. */
  function FormatText(start: nat, text: string, tag: Tag): string {
    if text == "" then "" else Join(FormatFrom(start, Split(text, '\n'), tag), "\n")
  }
}
