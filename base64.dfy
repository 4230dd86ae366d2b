/**
 * The Base64 encoding of section 4 of RFC 4648 (alphabet of Table 1, with '='
 * padding, no line breaks), which is what java.util.Base64.getEncoder()
 * produces. The controller uses only the encoder; the decoder is here as its
 * inverse, to show that an encoded image loses nothing.
 */
module Base64 {
  import opened Wrappers

  newtype byte = x: int | 0 <= x < 256

  /** A character of the 64-character alphabet of RFC 4648, Table 1. */
  predicate IsAlphabetChar(c: char) {
    ('A' <= c <= 'Z') || ('a' <= c <= 'z') || ('0' <= c <= '9') || c == '+' || c == '/'
  }

  /** The alphabet character for a 6-bit value. */
  function CharOf(v: int): (c: char)
    requires 0 <= v < 64
    ensures IsAlphabetChar(c)
    ensures ValueOf(c) == v
  {
    if v < 26 then ('A' as int + v) as char
    else if v < 52 then ('a' as int + (v - 26)) as char
    else if v < 62 then ('0' as int + (v - 52)) as char
    else if v == 62 then '+'
    else '/'
  }

  /** The 6-bit value of an alphabet character, and -1 for any other character. */
  function ValueOf(c: char): (v: int)
    ensures -1 <= v < 64
    ensures v >= 0 <==> IsAlphabetChar(c)
  {
    if 'A' <= c <= 'Z' then c as int - 'A' as int
    else if 'a' <= c <= 'z' then c as int - 'a' as int + 26
    else if '0' <= c <= '9' then c as int - '0' as int + 52
    else if c == '+' then 62
    else if c == '/' then 63
    else -1
  }

  /** Every output character is an alphabet character or the pad '='. */
  predicate IsEncodedText(s: string) {
    forall i :: 0 <= i < |s| ==> IsAlphabetChar(s[i]) || s[i] == '='
  }

  /**
   * Encodes three bytes per four characters; a final group of one or two
   * bytes is padded with '=' to four characters.
   */
  function Encode(b: seq<byte>): (s: string)
    ensures |s| == 4 * ((|b| + 2) / 3)
    ensures IsEncodedText(s)
    decreases |b|
  {
    if |b| == 0 then []
    else if |b| == 1 then
      [CharOf(b[0] as int / 4), CharOf(b[0] as int % 4 * 16), '=', '=']
    else if |b| == 2 then
      [CharOf(b[0] as int / 4), CharOf(b[0] as int % 4 * 16 + b[1] as int / 16),
       CharOf(b[1] as int % 16 * 4), '=']
    else
      [CharOf(b[0] as int / 4), CharOf(b[0] as int % 4 * 16 + b[1] as int / 16),
       CharOf(b[1] as int % 16 * 4 + b[2] as int / 64), CharOf(b[2] as int % 64)]
      + Encode(b[3..])
  }

  /** Decodes padded Base64 text; None when the text is not of that form. */
  function Decode(s: string): (r: Option<seq<byte>>)
    decreases |s|
  {
    if |s| == 0 then Some([])
    else if |s| < 4 then None
    else
      var v0, v1, v2, v3 := ValueOf(s[0]), ValueOf(s[1]), ValueOf(s[2]), ValueOf(s[3]);
      if v0 < 0 || v1 < 0 then None
      else if |s| == 4 && s[2] == '=' && s[3] == '=' then
        Some([(v0 * 4 + v1 / 16) as byte])
      else if |s| == 4 && v2 >= 0 && s[3] == '=' then
        Some([(v0 * 4 + v1 / 16) as byte, (v1 % 16 * 16 + v2 / 4) as byte])
      else if v2 < 0 || v3 < 0 then None
      else
        match Decode(s[4..])
        case None => None
        case Some(rest) =>
          Some([(v0 * 4 + v1 / 16) as byte, (v1 % 16 * 16 + v2 / 4) as byte,
                (v2 % 4 * 64 + v3) as byte] + rest)
  }

  /** Decoding undoes encoding, so Encode is injective: distinct payloads give distinct text. */
  lemma {:induction false} DecodeEncode(b: seq<byte>)
    ensures Decode(Encode(b)) == Some(b)
    decreases |b|
  {
    var s := Encode(b);
    if |b| == 1 {
      var x0 := b[0] as int;
      assert s[2] == '=' && s[3] == '=';
      assert ValueOf(s[0]) * 4 + ValueOf(s[1]) / 16 == x0;
      assert Decode(s) == Some([b[0]]);
      assert [b[0]] == b;
    } else if |b| == 2 {
      var x0, x1 := b[0] as int, b[1] as int;
      assert s[3] == '=' && s[2] != '=';
      assert ValueOf(s[1]) == x0 % 4 * 16 + x1 / 16;
      assert ValueOf(s[2]) / 4 == x1 % 16;
      assert ValueOf(s[1]) % 16 == x1 / 16;
      assert ValueOf(s[1]) / 16 == x0 % 4;
      assert Decode(s) == Some([b[0], b[1]]);
      assert [b[0], b[1]] == b;
    } else if |b| >= 3 {
      DecodeEncode(b[3..]);
      assert s[4..] == Encode(b[3..]);
      assert |s| > 4 || s[3] != '=';
      var d := Decode(s).value;
      assert d == [b[0], b[1], b[2]] + b[3..];
      assert [b[0], b[1], b[2]] + b[3..] == b;
    }
  }

  lemma EncodeInjective(b1: seq<byte>, b2: seq<byte>)
    requires Encode(b1) == Encode(b2)
    ensures b1 == b2
  {
    DecodeEncode(b1);
    DecodeEncode(b2);
  }
}
