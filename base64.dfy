/** The base 64 encoding of section 4 of RFC 4648 (alphabet A-Z a-z 0-9 + /,
    padded with '=' to a multiple of four characters), which the upload
    endpoint uses to put a file's bytes into a data URL. The decoder is there
    to show that the encoding loses nothing. */
module Base64 {
  import opened Common

  type byte = x: int | 0 <= x < 256

  /** The 64 characters of the alphabet, in the order of their values. */
  predicate IsAlphabetChar(c: char) {
    ('A' <= c <= 'Z') || ('a' <= c <= 'z') || ('0' <= c <= '9') || c == '+' || c == '/'
  }

  /** The character that stands for a 6-bit value (Table 1 of RFC 4648). */
  function CharOf(v: nat): (c: char)
    requires v < 64
    ensures IsAlphabetChar(c)
  {
    if v < 26 then ('A' as int + v) as char
    else if v < 52 then ('a' as int + (v - 26)) as char
    else if v < 62 then ('0' as int + (v - 52)) as char
    else if v == 62 then '+'
    else '/'
  }

  /** The 6-bit value a character of the alphabet stands for. */
  function ValueOf(c: char): (v: nat)
    requires IsAlphabetChar(c)
    ensures v < 64 && CharOf(v) == c
  {
    if 'A' <= c <= 'Z' then c as int - 'A' as int
    else if 'a' <= c <= 'z' then c as int - 'a' as int + 26
    else if '0' <= c <= '9' then c as int - '0' as int + 52
    else if c == '+' then 62
    else 63
  }

  lemma ValueOfCharOf(v: nat)
    requires v < 64
    ensures ValueOf(CharOf(v)) == v
  {
  }

  /** Three bytes become four characters, six bits each, high bits first. */
  function EncodeTriple(a: byte, b: byte, c: byte): string {
    [CharOf(a / 4), CharOf((a % 4) * 16 + b / 16), CharOf((b % 16) * 4 + c / 64), CharOf(c % 64)]
  }

  /** A final group of two bytes: three characters and one '='. */
  function EncodePair(a: byte, b: byte): string {
    [CharOf(a / 4), CharOf((a % 4) * 16 + b / 16), CharOf((b % 16) * 4), '=']
  }

  /** A final group of one byte: two characters and "==". */
  function EncodeSingle(a: byte): string {
    [CharOf(a / 4), CharOf((a % 4) * 16), '=', '=']
  }

  /** Characters that may appear in an encoding. */
  predicate IsEncodingChar(c: char) { IsAlphabetChar(c) || c == '=' }

  /** `Buffer.from(bytes).toString('base64')`. */
  function Encode(bs: seq<byte>): (r: string)
    ensures |r| == 4 * ((|bs| + 2) / 3)
    ensures forall i :: 0 <= i < |r| ==> IsEncodingChar(r[i])
    decreases |bs|
  {
    if |bs| == 0 then []
    else if |bs| == 1 then EncodeSingle(bs[0])
    else if |bs| == 2 then EncodePair(bs[0], bs[1])
    else EncodeTriple(bs[0], bs[1], bs[2]) + Encode(bs[3..])
  }

  /** Four characters of the alphabet back to three bytes. */
  function DecodeQuad(q: string): Option<seq<byte>>
    requires |q| == 4
  {
    if IsAlphabetChar(q[0]) && IsAlphabetChar(q[1]) && IsAlphabetChar(q[2]) && IsAlphabetChar(q[3]) then
      var v0, v1, v2, v3 := ValueOf(q[0]), ValueOf(q[1]), ValueOf(q[2]), ValueOf(q[3]);
      Some([v0 * 4 + v1 / 16, (v1 % 16) * 16 + v2 / 4, (v2 % 4) * 64 + v3])
    else None
  }

  /** The last group of an encoding, which may carry one or two '='. */
  function DecodeLastQuad(q: string): Option<seq<byte>>
    requires |q| == 4
  {
    if q[2] == '=' && q[3] == '=' then
      if IsAlphabetChar(q[0]) && IsAlphabetChar(q[1]) then
        Some([ValueOf(q[0]) * 4 + ValueOf(q[1]) / 16])
      else None
    else if q[3] == '=' then
      if IsAlphabetChar(q[0]) && IsAlphabetChar(q[1]) && IsAlphabetChar(q[2]) then
        var v0, v1, v2 := ValueOf(q[0]), ValueOf(q[1]), ValueOf(q[2]);
        Some([v0 * 4 + v1 / 16, (v1 % 16) * 16 + v2 / 4])
      else None
    else DecodeQuad(q)
  }

  /** Decodes a padded encoding; None for text that is not one. */
  function Decode(s: string): Option<seq<byte>>
    decreases |s|
  {
    if s == [] then Some([])
    else if |s| < 4 then None
    else if |s| == 4 then DecodeLastQuad(s)
    else
      match DecodeQuad(s[..4])
      case None => None
      case Some(head) =>
        match Decode(s[4..])
        case None => None
        case Some(tail) => Some(head + tail)
  }

  /** Joining a high and a low part and splitting them again. */
  lemma Recombine16(x: nat, y: nat)
    requires y < 16
    ensures (x * 16 + y) / 16 == x && (x * 16 + y) % 16 == y
  {
  }

  lemma Recombine4(x: nat, y: nat)
    requires y < 4
    ensures (x * 4 + y) / 4 == x && (x * 4 + y) % 4 == y
  {
  }

  /** The 6-bit values of a full group put back together give its bytes. */
  lemma SplitTriple(a: byte, b: byte, c: byte)
    ensures (a / 4) * 4 + ((a % 4) * 16 + b / 16) / 16 == a
    ensures (((a % 4) * 16 + b / 16) % 16) * 16 + ((b % 16) * 4 + c / 64) / 4 == b
    ensures (((b % 16) * 4 + c / 64) % 4) * 64 + c % 64 == c
  {
    Recombine16(a % 4, b / 16);
    Recombine4(b % 16, c / 64);
  }

  lemma DecodeTriple(a: byte, b: byte, c: byte)
    ensures DecodeQuad(EncodeTriple(a, b, c)) == Some([a, b, c])
  {
    ValueOfCharOf(a / 4);
    ValueOfCharOf((a % 4) * 16 + b / 16);
    ValueOfCharOf((b % 16) * 4 + c / 64);
    ValueOfCharOf(c % 64);
    SplitTriple(a, b, c);
  }

  /** A full group is decoded the same way when it comes last. */
  lemma DecodeLastTriple(a: byte, b: byte, c: byte)
    ensures DecodeLastQuad(EncodeTriple(a, b, c)) == Some([a, b, c])
  {
    DecodeTriple(a, b, c);
  }

  lemma DecodePair(a: byte, b: byte)
    ensures DecodeLastQuad(EncodePair(a, b)) == Some([a, b])
  {
    var v0, v1, v2 := a / 4, (a % 4) * 16 + b / 16, (b % 16) * 4;
    ValueOfCharOf(v0);
    ValueOfCharOf(v1);
    ValueOfCharOf(v2);
    Recombine16(a % 4, b / 16);
    Recombine4(b % 16, 0);
    assert v0 * 4 + v1 / 16 == a;
    assert (v1 % 16) * 16 + v2 / 4 == b;
  }

  lemma DecodeSingle(a: byte)
    ensures DecodeLastQuad(EncodeSingle(a)) == Some([a])
  {
    ValueOfCharOf(a / 4);
    ValueOfCharOf((a % 4) * 16);
    Recombine16(a % 4, 0);
  }

  /** A leading full group decodes on its own, ahead of the rest. */
  lemma DecodeLeadingTriple(a: byte, b: byte, c: byte, rest: string, tail: seq<byte>)
    requires |rest| > 0 && Decode(rest) == Some(tail)
    ensures Decode(EncodeTriple(a, b, c) + rest) == Some([a, b, c] + tail)
  {
    var s := EncodeTriple(a, b, c) + rest;
    assert s[..4] == EncodeTriple(a, b, c);
    assert s[4..] == rest;
    DecodeTriple(a, b, c);
  }

  lemma DecodeOneGroup(q: string)
    requires |q| == 4
    ensures Decode(q) == DecodeLastQuad(q)
  {
  }

  lemma DecodeEncodeSingle(a: byte)
    ensures Decode(Encode([a])) == Some([a])
  {
    assert Encode([a]) == EncodeSingle(a);
    DecodeOneGroup(EncodeSingle(a));
    DecodeSingle(a);
  }

  lemma DecodeEncodePair(a: byte, b: byte)
    ensures Decode(Encode([a, b])) == Some([a, b])
  {
    assert Encode([a, b]) == EncodePair(a, b);
    DecodeOneGroup(EncodePair(a, b));
    DecodePair(a, b);
  }

  lemma DecodeEncodeTriple(a: byte, b: byte, c: byte)
    ensures Decode(Encode([a, b, c])) == Some([a, b, c])
  {
    assert [a, b, c][3..] == [];
    assert Encode([a, b, c]) == EncodeTriple(a, b, c) + [];
    assert EncodeTriple(a, b, c) + [] == EncodeTriple(a, b, c);
    DecodeOneGroup(EncodeTriple(a, b, c));
    DecodeLastTriple(a, b, c);
  }

  lemma ShortSeq(bs: seq<byte>)
    ensures |bs| == 1 ==> bs == [bs[0]]
    ensures |bs| == 2 ==> bs == [bs[0], bs[1]]
    ensures |bs| == 3 ==> bs == [bs[0], bs[1], bs[2]]
  {
  }

  /** Encodings of up to three bytes decode back. */
  lemma DecodeEncodeShort(bs: seq<byte>)
    requires |bs| <= 3
    ensures Decode(Encode(bs)) == Some(bs)
  {
    ShortSeq(bs);
    if |bs| == 1 {
      DecodeEncodeSingle(bs[0]);
    } else if |bs| == 2 {
      DecodeEncodePair(bs[0], bs[1]);
    } else if |bs| == 3 {
      DecodeEncodeTriple(bs[0], bs[1], bs[2]);
    }
  }

  lemma FirstThree(bs: seq<byte>)
    requires |bs| >= 3
    ensures bs == [bs[0], bs[1], bs[2]] + bs[3..]
  {
  }

  /** A longer input decodes back once what follows its first three bytes
      does. */
  lemma DecodeEncodeStep(bs: seq<byte>)
    requires |bs| > 3 && Decode(Encode(bs[3..])) == Some(bs[3..])
    ensures Decode(Encode(bs)) == Some(bs)
  {
    var rest := bs[3..];
    FirstThree(bs);
    assert Encode(bs) == EncodeTriple(bs[0], bs[1], bs[2]) + Encode(rest);
    DecodeLeadingTriple(bs[0], bs[1], bs[2], Encode(rest), rest);
  }

  /** Decoding undoes encoding, so distinct byte strings encode differently. */
  lemma {:induction false} DecodeEncode(bs: seq<byte>)
    ensures Decode(Encode(bs)) == Some(bs)
    decreases |bs|
  {
    if |bs| <= 3 {
      DecodeEncodeShort(bs);
    } else {
      DecodeEncode(bs[3..]);
      DecodeEncodeStep(bs);
    }
  }
}
