/**
 * Base64 as defined in section 4 of RFC 4648 (the alphabet of its table 1,
 * '=' padding of section 3.2), with a decoder so that the encoding can be
 * stated as invertible.
 */
module Base64 {
  import opened Wrappers

  type byte = x: int | 0 <= x < 256
  type sextet = x: int | 0 <= x < 64

  /** The character for a 6-bit value (table 1 of RFC 4648). */
  function CharOf(v: sextet): (c: char)
  {
    if v < 26 then ('A' as int + v) as char
    else if v < 52 then ('a' as int + (v - 26)) as char
    else if v < 62 then ('0' as int + (v - 52)) as char
    else if v == 62 then '+'
    else '/'
  }

  predicate IsAlphabet(c: char) {
    'A' <= c <= 'Z' || 'a' <= c <= 'z' || '0' <= c <= '9' || c == '+' || c == '/'
  }

  /** The 6-bit value of an alphabet character. */
  function ValueOf(c: char): (v: sextet)
    requires IsAlphabet(c)
    ensures CharOf(v) == c
  {
    if 'A' <= c <= 'Z' then c as int - 'A' as int
    else if 'a' <= c <= 'z' then c as int - 'a' as int + 26
    else if '0' <= c <= '9' then c as int - '0' as int + 52
    else if c == '+' then 62
    else 63
  }

  lemma CharOfInAlphabet(v: sextet)
    ensures IsAlphabet(CharOf(v)) && ValueOf(CharOf(v)) == v
  {
  }

  /** Three bytes as four characters: each character carries 6 of the 24 bits, high bits first. */
  function Quad(b0: byte, b1: byte, b2: byte): (q: string)
    ensures |q| == 4
  {
    [CharOf(b0 / 4), CharOf((b0 % 4) * 16 + b1 / 16), CharOf((b1 % 16) * 4 + b2 / 64), CharOf(b2 % 64)]
  }

  /** The encoding without its padding; a final group of 1 or 2 bytes gives 2 or 3 characters. */
  function EncodeBody(b: seq<byte>): (s: string)
    ensures |s| == 4 * (|b| / 3) + (if |b| % 3 == 0 then 0 else |b| % 3 + 1)
    ensures forall i :: 0 <= i < |s| ==> IsAlphabet(s[i])
    decreases |b|
  {
    if |b| == 0 then []
    else if |b| == 1 then [CharOf(b[0] / 4), CharOf((b[0] % 4) * 16)]
    else if |b| == 2 then [CharOf(b[0] / 4), CharOf((b[0] % 4) * 16 + b[1] / 16), CharOf((b[1] % 16) * 4)]
    else Quad(b[0], b[1], b[2]) + EncodeBody(b[3..])
  }

  /** The '=' characters that complete the last group to four (section 3.2 of RFC 4648). */
  function Padding(n: nat): string {
    if n % 3 == 1 then "==" else if n % 3 == 2 then "=" else ""
  }

  /** `base64.b64encode`: the standard padded encoding. */
  function Encode(b: seq<byte>): (s: string)
    ensures |s| == 4 * ((|b| + 2) / 3)
  {
    EncodeBody(b) + Padding(|b|)
  }

  /** Standard decoding of a padded encoding; `None` for text that is not one. */
  function Decode(s: string): Option<seq<byte>>
    decreases |s|
  {
    if |s| == 0 then Some([])
    else if |s| < 4 || !IsAlphabet(s[0]) || !IsAlphabet(s[1]) then None
    else
      var v0, v1 := ValueOf(s[0]), ValueOf(s[1]);
      var x0: byte := v0 * 4 + v1 / 16;
      if s[2] == '=' then
        if s[3] == '=' && |s| == 4 then Some([x0]) else None
      else if !IsAlphabet(s[2]) then None
      else
        var v2 := ValueOf(s[2]);
        var x1: byte := (v1 % 16) * 16 + v2 / 4;
        if s[3] == '=' then
          if |s| == 4 then Some([x0, x1]) else None
        else if !IsAlphabet(s[3]) then None
        else
          var x2: byte := (v2 % 4) * 64 + ValueOf(s[3]);
          match Decode(s[4..])
          case None => None
          case Some(rest) => Some([x0, x1, x2] + rest)
  }

  lemma DecodeOneByte(b0: byte)
    ensures Decode(Encode([b0])) == Some([b0])
  {
    var s := Encode([b0]);
    CharOfInAlphabet(b0 / 4);
    CharOfInAlphabet((b0 % 4) * 16);
    assert s == [CharOf(b0 / 4), CharOf((b0 % 4) * 16), '=', '='];
  }

  lemma DecodeTwoBytes(b0: byte, b1: byte)
    ensures Decode(Encode([b0, b1])) == Some([b0, b1])
  {
    var s := Encode([b0, b1]);
    var v1 := (b0 % 4) * 16 + b1 / 16;
    CharOfInAlphabet(b0 / 4);
    CharOfInAlphabet(v1);
    CharOfInAlphabet((b1 % 16) * 4);
    assert s == [CharOf(b0 / 4), CharOf(v1), CharOf((b1 % 16) * 4), '='];
    assert v1 / 16 == b0 % 4 && v1 % 16 == b1 / 16;
    assert ((b1 % 16) * 4) / 4 == b1 % 16;
  }

  /** A full group decodes to its three bytes, followed by whatever the rest decodes to. */
  lemma DecodeQuad(b0: byte, b1: byte, b2: byte, rest: string)
    requires Decode(rest).Some?
    ensures Decode(Quad(b0, b1, b2) + rest) == Some([b0, b1, b2] + Decode(rest).value)
  {
    var v0, v1, v2, v3 := b0 / 4, (b0 % 4) * 16 + b1 / 16, (b1 % 16) * 4 + b2 / 64, b2 % 64;
    CharOfInAlphabet(v0);
    CharOfInAlphabet(v1);
    CharOfInAlphabet(v2);
    CharOfInAlphabet(v3);
    QuadArithmetic(b0, b1, b2);
    DecodeGroup(CharOf(v0), CharOf(v1), CharOf(v2), CharOf(v3), rest);
  }

  /** The bit fields of a group put back together give the three bytes. */
  lemma QuadArithmetic(b0: byte, b1: byte, b2: byte)
    ensures var v1, v2 := (b0 % 4) * 16 + b1 / 16, (b1 % 16) * 4 + b2 / 64;
      && (b0 / 4) * 4 + v1 / 16 == b0
      && (v1 % 16) * 16 + v2 / 4 == b1
      && (v2 % 4) * 64 + b2 % 64 == b2
  {
    var v1, v2 := (b0 % 4) * 16 + b1 / 16, (b1 % 16) * 4 + b2 / 64;
    assert v1 / 16 == b0 % 4 && v1 % 16 == b1 / 16;
    assert v2 / 4 == b1 % 16 && v2 % 4 == b2 / 64;
  }

  /** Four alphabet characters decode as one group, ahead of the rest. */
  lemma DecodeGroup(c0: char, c1: char, c2: char, c3: char, rest: string)
    requires IsAlphabet(c0) && IsAlphabet(c1) && IsAlphabet(c2) && IsAlphabet(c3)
    requires Decode(rest).Some?
    ensures var v0, v1, v2, v3 := ValueOf(c0), ValueOf(c1), ValueOf(c2), ValueOf(c3);
      Decode([c0, c1, c2, c3] + rest)
        == Some([v0 * 4 + v1 / 16, (v1 % 16) * 16 + v2 / 4, (v2 % 4) * 64 + v3] + Decode(rest).value)
  {
    var s := [c0, c1, c2, c3] + rest;
    assert s[4..] == rest;
    assert s[0] == c0 && s[1] == c1 && s[2] == c2 && s[3] == c3;
  }

  /** The encoding of three or more bytes starts with the group of the first three. */
  lemma EncodeFirstGroup(b: seq<byte>)
    requires |b| >= 3
    ensures Encode(b) == Quad(b[0], b[1], b[2]) + Encode(b[3..])
  {
    assert Padding(|b|) == Padding(|b[3..]|);
  }

  /** Decoding undoes encoding, for every byte string. */
  lemma {:induction false} DecodeEncode(b: seq<byte>)
    ensures Decode(Encode(b)) == Some(b)
    decreases |b|
  {
    if |b| == 1 {
      DecodeOneByte(b[0]);
      assert b == [b[0]];
    } else if |b| == 2 {
      DecodeTwoBytes(b[0], b[1]);
      assert b == [b[0], b[1]];
    } else if |b| >= 3 {
      DecodeEncode(b[3..]);
      DecodeEncodeGroup(b);
    }
  }

  /** If the bytes after the first three round-trip, so do all of them. */
  lemma DecodeEncodeGroup(b: seq<byte>)
    requires |b| >= 3 && Decode(Encode(b[3..])) == Some(b[3..])
    ensures Decode(Encode(b)) == Some(b)
  {
    EncodeFirstGroup(b);
    DecodeQuad(b[0], b[1], b[2], Encode(b[3..]));
    assert [b[0], b[1], b[2]] + b[3..] == b;
  }
}
