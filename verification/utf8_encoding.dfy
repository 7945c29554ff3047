/** The UTF-8 form of a character, as RFC 3629 lays it out, against the byte counts and lead bytes the program uses. */
module Utf8Encoding {
  import opened ByteValues
  import opened Utf8Cut
  import HashlineStream

  function Byte(x: int): byte
    requires 0 <= x < 256
  {
    x as byte
  }

  /** Section 3 of RFC 3629: a lead byte with the length in its high bits, then six bits a byte. */
  function Encoded(c: char): seq<byte> {
    var x := c as int;
    if x <= 0x7f then [Byte(x)]
    else if x <= 0x7ff then [Byte(0xc0 + x / 64), Byte(0x80 + x % 64)]
    else if x <= 0xffff then [Byte(0xe0 + x / 4096), Byte(0x80 + x / 64 % 64), Byte(0x80 + x % 64)]
    else [Byte(0xf0 + x / 262144), Byte(0x80 + x / 4096 % 64), Byte(0x80 + x / 64 % 64), Byte(0x80 + x % 64)]
  }

  function EncodedText(s: string): seq<byte> {
    if s == "" then [] else EncodedText(s[..|s| - 1]) + Encoded(s[|s| - 1])
  }

  /** Every encoded character has the shape the cuts look for, and the length the chunks count. */
  lemma {:induction false} EncodedIsChar(c: char)
    ensures IsChar(Encoded(c))
    ensures |Encoded(c)| == HashlineStream.CharBytes(c)
  {
    var x := c as int;
    assert x <= 0x10ffff;
    assert 0 <= x / 64 % 64 < 64 && 0 <= x % 64 < 64 && 0 <= x / 4096 % 64 < 64;
  }

  /** The byte length of a text is the length of its encoding. */
  lemma {:induction false} LengthOfEncoded(s: string)
    ensures HashlineStream.ByteLength(s) == |EncodedText(s)|
  {
    if s != "" {
      LengthOfEncoded(s[..|s| - 1]);
      EncodedIsChar(s[|s| - 1]);
    }
  }

  /** A continuation byte has 10 as its two high bits. */
  lemma {:induction false} ContinuationBits(b: byte)
    ensures IsContinuation(b) <==> b as int / 64 == 2
  {
  }

  /** The mark a decoder drops is the character U+FEFF. */
  lemma {:induction false} MarkIsEncoded()
    ensures Encoded('\U{FEFF}') == MARK
  {
  }
}
