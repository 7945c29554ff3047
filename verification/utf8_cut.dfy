/** Cutting UTF-8 at a byte limit, and dropping the character a stream was cut in. */
module Utf8Cut {
  import opened ByteValues

  /** `(b & 0xc0) === 0x80`. */
  predicate IsContinuation(b: byte) { 0x80 <= b < 0xc0 }

  /** How many bytes a lead byte announces; everything that is no lead counts as one. */
  function Width(lead: byte): nat {
    if 0xc2 <= lead <= 0xdf then 2 else if 0xe0 <= lead <= 0xef then 3 else if 0xf0 <= lead <= 0xf4 then 4 else 1
  }

  /** A lead byte and the continuation bytes it announces: every character of RFC 3629, section 3, has this shape. */
  predicate IsChar(c: seq<byte>) {
    c != [] && !IsContinuation(c[0]) && |c| == Width(c[0]) && forall i :: 1 <= i < |c| ==> IsContinuation(c[i])
  }

  ghost predicate AreChars(chars: seq<seq<byte>>) { forall i :: 0 <= i < |chars| ==> IsChar(chars[i]) }

  function Bytes(chars: seq<seq<byte>>): seq<byte> {
    if chars == [] then [] else Bytes(chars[..|chars| - 1]) + chars[|chars| - 1]
  }

  /** The beginning of a character that was cut off, or nothing. */
  predicate IsCut(part: seq<byte>) {
    part == [] ||
    (!IsContinuation(part[0]) && |part| < Width(part[0]) && forall i :: 1 <= i < |part| ==> IsContinuation(part[i]))
  }

  // ---- The two loops -------------------------------------------------------------------------------

  /** Down from end to the nearest byte that continues no character. */
  function Boundary(bytes: seq<byte>, end: nat): (b: nat)
    requires end < |bytes|
    ensures b <= end
    ensures b > 0 ==> !IsContinuation(bytes[b])
    ensures forall i :: b < i <= end ==> IsContinuation(bytes[i])
  {
    if end > 0 && IsContinuation(bytes[end]) then Boundary(bytes, end - 1) else end
  }

  function Truncated(bytes: seq<byte>, maxBytes: nat): seq<byte> {
    if |bytes| <= maxBytes then bytes else bytes[..Boundary(bytes, maxBytes)]
  }

  method TruncateUtf8(bytes: seq<byte>, maxBytes: nat) returns (cut: seq<byte>)
    ensures cut == Truncated(bytes, maxBytes)
  {
    if |bytes| <= maxBytes { return bytes; }
    var end := maxBytes;
    while end > 0 && IsContinuation(bytes[end])
      invariant 0 <= end <= maxBytes
      invariant Boundary(bytes, end) == Boundary(bytes, maxBytes)
    {
      end := end - 1;
    }
    return bytes[..end];
  }

  /** Down from start over at most three continuation bytes at the end. */
  function LastLead(bytes: seq<byte>, start: int): (lead: int)
    requires -1 <= start < |bytes|
    ensures -1 <= lead <= start
    decreases start + 1
  {
    if start >= 0 && IsContinuation(bytes[start]) && |bytes| - start <= 3 then LastLead(bytes, start - 1) else start
  }

  function Completed(bytes: seq<byte>): seq<byte> {
    var start := LastLead(bytes, |bytes| - 1);
    if start >= 0 && Width(bytes[start]) > |bytes| - start then bytes[..start] else bytes
  }

  /** What is decoded of a stream cut anywhere. */
  method CompletePart(bytes: seq<byte>) returns (complete: seq<byte>)
    ensures complete == Completed(bytes)
  {
    var start := |bytes| - 1;
    while start >= 0 && IsContinuation(bytes[start]) && |bytes| - start <= 3
      invariant -1 <= start < |bytes|
      invariant LastLead(bytes, start) == LastLead(bytes, |bytes| - 1)
      decreases start
    {
      start := start - 1;
    }
    var width := if start >= 0 then Width(bytes[start]) else 1;
    if start >= 0 && width > |bytes| - start { return bytes[..start]; }
    return bytes;
  }

  // ---- Whole characters ----------------------------------------------------------------------------

  lemma {:induction false} BytesSnoc(chars: seq<seq<byte>>, c: seq<byte>)
    ensures Bytes(chars + [c]) == Bytes(chars) + c
  {
    assert (chars + [c])[..|chars|] == chars;
  }

  lemma {:induction false} LastLeadIs(bytes: seq<byte>, start: int, lead: nat)
    requires lead <= start < |bytes| && |bytes| - lead <= 4
    requires !IsContinuation(bytes[lead]) && forall i :: lead < i <= start ==> IsContinuation(bytes[i])
    ensures LastLead(bytes, start) == lead
    decreases start
  {
    if lead < start {
      LastLeadIs(bytes, start - 1, lead);
    }
  }

  /** Whole characters followed by a cut one: exactly the whole characters are kept. */
  lemma {:induction false} KeepsWholeChars(chars: seq<seq<byte>>, part: seq<byte>)
    requires AreChars(chars) && IsCut(part)
    ensures Completed(Bytes(chars) + part) == Bytes(chars)
  {
    var whole := Bytes(chars);
    var bytes := whole + part;
    if part != [] {
      LastLeadIs(bytes, |bytes| - 1, |whole|);
      assert bytes[..|whole|] == whole;
    } else if chars != [] {
      var front, last := chars[..|chars| - 1], chars[|chars| - 1];
      var at := |Bytes(front)|;
      assert bytes == Bytes(front) + last;
      assert IsChar(last);
      assert forall i :: at <= i < |bytes| ==> bytes[i] == last[i - at];
      LastLeadIs(bytes, |bytes| - 1, at);
    }
  }

  /** Any cut of a stream of characters leaves whole ones and the beginning of the next. */
  lemma {:induction false} CutIsWholeAndPart(chars: seq<seq<byte>>, k: nat) returns (m: nat, part: seq<byte>)
    requires AreChars(chars) && k <= |Bytes(chars)|
    ensures m <= |chars| && IsCut(part) && Bytes(chars)[..k] == Bytes(chars[..m]) + part
    ensures m < |chars| ==> |part| < |chars[m]|
    ensures m == |chars| ==> part == []
    decreases |chars|
  {
    if chars == [] {
      m, part := 0, [];
    } else {
      var front, last := chars[..|chars| - 1], chars[|chars| - 1];
      assert AreChars(front) && IsChar(last);
      if k < |Bytes(front)| {
        m, part := CutIsWholeAndPart(front, k);
        assert Bytes(chars)[..k] == Bytes(front)[..k] && chars[..m] == front[..m];
      } else if k < |Bytes(chars)| {
        m, part := |front|, last[..k - |Bytes(front)|];
        assert chars[..m] == front;
        assert Bytes(chars)[..k] == Bytes(front) + part;
      } else {
        m, part := |chars|, [];
        assert chars[..m] == chars;
      }
    }
  }

  /** Cut at any byte, a stream keeps the longest prefix of whole characters. */
  lemma {:induction false} StreamKeepsLongestPrefix(chars: seq<seq<byte>>, k: nat) returns (m: nat)
    requires AreChars(chars) && k <= |Bytes(chars)|
    ensures m <= |chars| && Completed(Bytes(chars)[..k]) == Bytes(chars[..m])
    ensures |Bytes(chars[..m])| <= k && (m < |chars| ==> k < |Bytes(chars[..m + 1])|)
  {
    var part;
    m, part := CutIsWholeAndPart(chars, k);
    assert AreChars(chars[..m]);
    KeepsWholeChars(chars[..m], part);
    if m < |chars| {
      assert chars[..m + 1] == chars[..m] + [chars[m]];
      BytesSnoc(chars[..m], chars[m]);
    }
  }

  /** The bytes behind whole characters begin with a lead. */
  lemma {:induction false} LeadBehind(chars: seq<seq<byte>>, m: nat)
    requires AreChars(chars) && m < |chars|
    ensures var at := |Bytes(chars[..m])|; at < |Bytes(chars)| && !IsContinuation(Bytes(chars)[at])
    ensures Bytes(chars[..m]) <= Bytes(chars)
    decreases |chars|
  {
    var front, last := chars[..|chars| - 1], chars[|chars| - 1];
    assert IsChar(last);
    if m < |front| {
      assert AreChars(front);
      LeadBehind(front, m);
      assert chars[..m] == front[..m];
    } else {
      assert chars[..m] == front;
    }
  }

  /** Truncating keeps the longest prefix of whole characters within the limit. */
  lemma {:induction false} TruncationKeepsLongestPrefix(chars: seq<seq<byte>>, maxBytes: nat) returns (m: nat)
    requires AreChars(chars)
    ensures m <= |chars| && Truncated(Bytes(chars), maxBytes) == Bytes(chars[..m])
    ensures |Bytes(chars[..m])| <= maxBytes && (m < |chars| ==> maxBytes < |Bytes(chars[..m + 1])|)
  {
    var bytes := Bytes(chars);
    if |bytes| <= maxBytes {
      m := |chars|;
      assert chars[..m] == chars;
    } else {
      var part;
      m, part := CutIsWholeAndPart(chars, maxBytes);
      assert chars[..|chars|] == chars;
      var at := |Bytes(chars[..m])|;
      LeadBehind(chars, m);
      NextCharContinues(chars, m, part);
      BoundaryIs(bytes, maxBytes, at);
      assert bytes[..at] == Bytes(chars[..m]);
      assert chars[..m + 1] == chars[..m] + [chars[m]];
      BytesSnoc(chars[..m], chars[m]);
    }
  }

  lemma {:induction false} BoundaryIs(bytes: seq<byte>, end: nat, at: nat)
    requires at <= end < |bytes| && (at > 0 ==> !IsContinuation(bytes[at]))
    requires forall i :: at < i <= end ==> IsContinuation(bytes[i])
    ensures Boundary(bytes, end) == at
    decreases end
  {
    if at < end {
      BoundaryIs(bytes, end - 1, at);
    }
  }

  /** Inside the character that is cut, every byte after the first continues it. */
  lemma {:induction false} NextCharContinues(chars: seq<seq<byte>>, m: nat, part: seq<byte>)
    requires AreChars(chars) && m < |chars| && |part| < |chars[m]|
    ensures var at := |Bytes(chars[..m])|;
      at + |part| < |Bytes(chars)| && forall i :: at < i <= at + |part| ==> IsContinuation(Bytes(chars)[i])
    decreases |chars|
  {
    var front, last := chars[..|chars| - 1], chars[|chars| - 1];
    if m < |front| {
      assert AreChars(front);
      NextCharContinues(front, m, part);
      assert chars[..m] == front[..m];
    } else {
      assert chars[..m] == front && IsChar(last);
      var at := |Bytes(front)|;
      assert forall i :: at <= i < |Bytes(chars)| ==> Bytes(chars)[i] == last[i - at];
    }
  }

  // ---- The decoded text ----------------------------------------------------------------------------

  /** U+FEFF, which a decoder drops from the beginning of a stream. */
  const MARK: seq<byte> := [0xef, 0xbb, 0xbf]

  function WithoutMark(bytes: seq<byte>): seq<byte> {
    if |bytes| >= 3 && bytes[..3] == MARK then bytes[3..] else bytes
  }

  /** The diagnostic text: the unfinished character dropped, the rest decoded and then cut to the limit. */
  method DecodeStderr(bytes: seq<byte>, maxBytes: nat) returns (text: seq<byte>)
    ensures text == Truncated(WithoutMark(Completed(bytes)), maxBytes)
  {
    var complete := CompletePart(bytes);
    text := TruncateUtf8(WithoutMark(complete), maxBytes);
  }

  lemma {:induction false} BytesCons(c: seq<byte>, chars: seq<seq<byte>>)
    ensures Bytes([c] + chars) == c + Bytes(chars)
    decreases |chars|
  {
    if chars == [] {
      assert [c][..0] == [] && [c] + chars == [c];
      assert Bytes([c]) == Bytes([]) + c;
    } else {
      var front, last := chars[..|chars| - 1], chars[|chars| - 1];
      assert ([c] + chars)[..|chars|] == [c] + front;
      BytesCons(c, front);
      assert c + Bytes(front) + last == c + (Bytes(front) + last);
    }
  }

  /** How many characters of the stream the decoder drops: its first one, if that is the mark. */
  function Dropped(chars: seq<seq<byte>>): nat { if chars != [] && chars[0] == MARK then 1 else 0 }

  lemma {:induction false} MarkIsACharacter(chars: seq<seq<byte>>)
    requires AreChars(chars)
    ensures WithoutMark(Bytes(chars)) == Bytes(chars[Dropped(chars)..])
  {
    if chars == [] {
      assert Bytes(chars) == [];
    } else {
      var first, rest := chars[0], chars[1..];
      assert chars == [first] + rest && IsChar(first);
      BytesCons(first, rest);
      var bytes := first + Bytes(rest);
      assert bytes[0] == first[0] && bytes[|first|..] == Bytes(rest);
      if |bytes| >= 3 && bytes[..3] == MARK {
        assert bytes[..3][0] == 0xef && Width(first[0]) == 3;
        assert first == bytes[..3];
      }
      if first == MARK {
        assert bytes[..3] == MARK;
      }
      assert chars[0..] == chars;
    }
  }

  /**
   * Cut at any byte, decoded and cut to a limit, a stream keeps the longest run of whole characters within both, from
   * its first character on, or from its second if the first is a mark that was read whole.
   */
  lemma {:induction false} DecodedKeepsLongestPrefix(chars: seq<seq<byte>>, k: nat, maxBytes: nat)
    returns (first: nat, m: nat)
    requires AreChars(chars) && k <= |Bytes(chars)|
    ensures first <= m <= |chars| && first == if chars != [] && chars[0] == MARK && 3 <= k then 1 else 0
    ensures Truncated(WithoutMark(Completed(Bytes(chars)[..k])), maxBytes) == Bytes(chars[first..m])
    ensures |Bytes(chars[..m])| <= k && |Bytes(chars[first..m])| <= maxBytes
    ensures m < |chars| ==> k < |Bytes(chars[..m + 1])| || maxBytes < |Bytes(chars[first..m + 1])|
  {
    hide Bytes, Completed, Truncated, WithoutMark;
    var n := StreamKeepsLongestPrefix(chars, k);
    FirstIsWhole(chars, k, n);
    first := Dropped(chars[..n]);
    var kept := DecodedWhole(chars[..n], maxBytes);
    m := first + kept;
    SliceOfSlice(chars, n, first, kept);
    if m < n {
      SliceOfSlice(chars, n, first, kept + 1);
    }
    PrefixIsShorter(chars, m, n);
  }

  lemma {:induction false} SliceOfSlice<T>(s: seq<T>, n: nat, first: nat, kept: nat)
    requires first + kept <= n <= |s|
    ensures s[..n][first..][..kept] == s[first..first + kept]
  {
  }

  /** Decoding and cutting whole characters. */
  lemma {:induction false} DecodedWhole(whole: seq<seq<byte>>, maxBytes: nat) returns (kept: nat)
    requires forall i :: 0 <= i < |whole| ==> IsChar(whole[i])
    ensures var rest := whole[Dropped(whole)..];
      && kept <= |rest| && Truncated(WithoutMark(Bytes(whole)), maxBytes) == Bytes(rest[..kept])
      && |Bytes(rest[..kept])| <= maxBytes && (kept < |rest| ==> maxBytes < |Bytes(rest[..kept + 1])|)
  {
    hide Bytes, Truncated, WithoutMark, IsChar;
    var rest := whole[Dropped(whole)..];
    assert AreChars(rest);
    MarkIsACharacter(whole);
    kept := TruncationKeepsLongestPrefix(rest, maxBytes);
  }

  lemma {:induction false} FirstIsWhole(chars: seq<seq<byte>>, k: nat, n: nat)
    requires n <= |chars| && |Bytes(chars[..n])| <= k && (n < |chars| ==> k < |Bytes(chars[..n + 1])|)
    ensures Dropped(chars[..n]) == if chars != [] && chars[0] == MARK && 3 <= k then 1 else 0
  {
    if chars != [] {
      BytesCons(chars[0], []);
      if n == 0 {
        assert chars[..1] == [chars[0]] + [];
        assert Bytes([]) == [];
      } else {
        BytesCons(chars[0], chars[1..n]);
        assert chars[..n] == [chars[0]] + chars[1..n];
      }
    }
  }

  lemma {:induction false} PrefixIsShorter(chars: seq<seq<byte>>, m: nat, n: nat)
    requires m <= n <= |chars|
    ensures |Bytes(chars[..m])| <= |Bytes(chars[..n])|
    decreases n
  {
    if m < n {
      assert chars[..n][..n - 1] == chars[..n - 1];
      PrefixIsShorter(chars, m, n - 1);
    }
  }

  /** The mark is lost even where everything fits: of EF BB BF 41 only the last byte is left. */
  lemma {:induction false} MarkIsLost(maxBytes: nat)
    requires maxBytes >= 4
    ensures Truncated(WithoutMark(Completed(MARK + [0x41])), maxBytes) == [0x41]
  {
    var bytes := MARK + [0x41];
    assert bytes == [0xef, 0xbb, 0xbf, 0x41];
    assert LastLead(bytes, 3) == 3 && Completed(bytes) == bytes;
    assert bytes[..3] == MARK && bytes[3..] == [0x41];
  }
}
