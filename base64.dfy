/**
 * base64.StdEncoding.EncodeToString: the standard alphabet of section 4 of
 * RFC 4648 with `=` padding. `Decode` is a reference decoder for the same
 * alphabet; the gateway never decodes, it serves as the encoder's inverse.
 */
module Base64 {
  import opened Wrappers

  type Byte = x: int | 0 <= x < 256

  /** The character for a 6-bit value: A-Z, a-z, 0-9, '+', '/'. */
  function Char(v: int): (c: char)
    requires 0 <= v < 64
    ensures c != '=' && c != '"'
  {
    if v < 26 then ('A' as int + v) as char
    else if v < 52 then ('a' as int + v - 26) as char
    else if v < 62 then ('0' as int + v - 52) as char
    else if v == 62 then '+'
    else '/'
  }

  /** The 6-bit value of an alphabet character, or -1 for any other character. */
  function Value(c: char): (v: int)
    ensures -1 <= v < 64
  {
    if 'A' <= c <= 'Z' then c as int - 'A' as int
    else if 'a' <= c <= 'z' then c as int - 'a' as int + 26
    else if '0' <= c <= '9' then c as int - '0' as int + 52
    else if c == '+' then 62
    else if c == '/' then 63
    else -1
  }

  lemma ValueOfChar(v: int)
    requires 0 <= v < 64
    ensures Value(Char(v)) == v
  {
  }

  /** Three bytes become four characters, six bits each, most significant first. */
  function EncodeGroup(b0: Byte, b1: Byte, b2: Byte): string
  {
    [Char(b0 / 4), Char((b0 % 4) * 16 + b1 / 16), Char((b1 % 16) * 4 + b2 / 64), Char(b2 % 64)]
  }

  /** base64.StdEncoding.EncodeToString. */
  function Encode(b: seq<Byte>): (s: string)
    ensures |s| == 4 * ((|b| + 2) / 3)
    ensures '"' !in s
  {
    if |b| == 0 then ""
    else if |b| == 1 then [Char(b[0] / 4), Char((b[0] % 4) * 16), '=', '=']
    else if |b| == 2 then [Char(b[0] / 4), Char((b[0] % 4) * 16 + b[1] / 16), Char((b[1] % 16) * 4), '=']
    else EncodeGroup(b[0], b[1], b[2]) + Encode(b[3..])
  }

  /**
   * One group of four characters. Only the last group (`last`) may end in
   * padding: "xx==" stands for one byte and "xxx=" for two.
   */
  function DecodeQuad(c0: char, c1: char, c2: char, c3: char, last: bool): Option<seq<Byte>>
  {
    var v0, v1, v2, v3 := Value(c0), Value(c1), Value(c2), Value(c3);
    if v0 < 0 || v1 < 0 then None
    else if last && c2 == '=' && c3 == '=' then Some([v0 * 4 + v1 / 16])
    else if v2 < 0 then None
    else if last && c3 == '=' then Some([v0 * 4 + v1 / 16, (v1 % 16) * 16 + v2 / 4])
    else if v3 < 0 then None
    else Some([v0 * 4 + v1 / 16, (v1 % 16) * 16 + v2 / 4, (v2 % 4) * 64 + v3])
  }

  /** Reference decoder: four characters at a time. */
  function Decode(s: string): Option<seq<Byte>>
    decreases |s|
  {
    if |s| == 0 then Some([])
    else if |s| < 4 then None
    else
      match DecodeQuad(s[0], s[1], s[2], s[3], |s| == 4)
      case None => None
      case Some(head) =>
        match Decode(s[4..])
        case None => None
        case Some(rest) => Some(head + rest)
  }

  lemma GroupArithmetic(b0: Byte, b1: Byte, b2: Byte)
    ensures (b0 / 4) * 4 + ((b0 % 4) * 16 + b1 / 16) / 16 == b0
    ensures (((b0 % 4) * 16 + b1 / 16) % 16) * 16 + ((b1 % 16) * 4 + b2 / 64) / 4 == b1
    ensures (((b1 % 16) * 4 + b2 / 64) % 4) * 64 + b2 % 64 == b2
  {
  }

  lemma DecodeOne(b0: Byte)
    ensures DecodeQuad(Char(b0 / 4), Char((b0 % 4) * 16), '=', '=', true) == Some([b0])
  {
    ValueOfChar(b0 / 4);
    ValueOfChar((b0 % 4) * 16);
    GroupArithmetic(b0, 0, 0);
  }

  lemma DecodeTwo(b0: Byte, b1: Byte)
    ensures DecodeQuad(Char(b0 / 4), Char((b0 % 4) * 16 + b1 / 16), Char((b1 % 16) * 4), '=', true)
         == Some([b0, b1])
  {
    ValueOfChar(b0 / 4);
    ValueOfChar((b0 % 4) * 16 + b1 / 16);
    ValueOfChar((b1 % 16) * 4);
    GroupArithmetic(b0, b1, 0);
  }

  lemma DecodeThree(b0: Byte, b1: Byte, b2: Byte, last: bool)
    ensures var g := EncodeGroup(b0, b1, b2);
      DecodeQuad(g[0], g[1], g[2], g[3], last) == Some([b0, b1, b2])
  {
    ValueOfChar(b0 / 4);
    ValueOfChar((b0 % 4) * 16 + b1 / 16);
    ValueOfChar((b1 % 16) * 4 + b2 / 64);
    ValueOfChar(b2 % 64);
    GroupArithmetic(b0, b1, b2);
  }

  lemma DecodeLast(s: string)
    requires |s| == 4
    ensures Decode(s) == DecodeQuad(s[0], s[1], s[2], s[3], true)
  {
    assert s[4..] == "";
    match DecodeQuad(s[0], s[1], s[2], s[3], true)
    case None =>
    case Some(h) => assert h + [] == h;
  }

  lemma DecodeNext(s: string)
    requires |s| > 4
    ensures Decode(s) ==
      match DecodeQuad(s[0], s[1], s[2], s[3], false)
      case None => None
      case Some(head) =>
        match Decode(s[4..])
        case None => None
        case Some(rest) => Some(head + rest)
  {
  }

  lemma EncodeOne(b: seq<Byte>)
    requires |b| == 1
    ensures Decode(Encode(b)) == Some(b)
  {
    var s := Encode(b);
    assert s == [Char(b[0] / 4), Char((b[0] % 4) * 16), '=', '='];
    DecodeLast(s);
    DecodeOne(b[0]);
    assert b == [b[0]];
  }

  lemma EncodeTwo(b0: Byte, b1: Byte)
    ensures Decode(Encode([b0, b1])) == Some([b0, b1])
  {
    var s := Encode([b0, b1]);
    var c0, c1, c2 := Char(b0 / 4), Char((b0 % 4) * 16 + b1 / 16), Char((b1 % 16) * 4);
    assert s == [c0, c1, c2, '='];
    DecodeLast(s);
    DecodeTwo(b0, b1);
  }

  lemma EncodeCons(b: seq<Byte>)
    requires |b| >= 3
    ensures Decode(Encode(b)) ==
      match Decode(Encode(b[3..]))
      case None => None
      case Some(rest) => Some([b[0], b[1], b[2]] + rest)
  {
    var s := Encode(b);
    var g := EncodeGroup(b[0], b[1], b[2]);
    assert s == g + Encode(b[3..]);
    assert s[0] == g[0] && s[1] == g[1] && s[2] == g[2] && s[3] == g[3];
    assert s[4..] == Encode(b[3..]);
    DecodeThree(b[0], b[1], b[2], |s| == 4);
    if |s| == 4 {
      DecodeLast(s);
    } else {
      DecodeNext(s);
    }
  }

  /** Decoding an encoding gives back the bytes. */
  lemma {:induction false} DecodeEncode(b: seq<Byte>)
    ensures Decode(Encode(b)) == Some(b)
    decreases |b|
  {
    if |b| == 1 {
      EncodeOne(b);
    } else if |b| == 2 {
      EncodeTwo(b[0], b[1]);
      assert b == [b[0], b[1]];
    } else if |b| >= 3 {
      var rest := b[3..];
      assert [b[0], b[1], b[2]] + rest == b;
      assert Decode(Encode(rest)) == Some(rest) by {
        DecodeEncode(rest);
      }
      EncodeCons(b);
    }
  }
}
