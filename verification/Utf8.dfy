/** UTF-8 (RFC 3629, section 3), the last step of the canonical encoding. */
module Utf8 {

  newtype byte = x: int | 0 <= x < 256

  function EncodeChar(c: char): (r: seq<byte>)
    ensures r != []
  {
    var n := c as int;
    if n < 0x80 then [n as byte]
    else if n < 0x800 then [(0xC0 + n / 64) as byte, Tail(n)]
    else if n < 0x1_0000 then [(0xE0 + n / 4096) as byte, Tail(n / 64), Tail(n)]
    else [(0xF0 + n / 262144) as byte, Tail(n / 4096), Tail(n / 64), Tail(n)]
  }

  function Tail(n: nat): byte {
    (0x80 + n % 64) as byte
  }

  function Encode(s: string): seq<byte> {
    if s == [] then [] else EncodeChar(s[0]) + Encode(s[1..])
  }

  function Low6(b: byte): nat {
    if b < 0x80 then 0 else (b - 0x80) as int
  }

  /** The code point at the front and the number of bytes it takes. */
  function DecodeFirst(bs: seq<byte>): (r: (int, nat))
    requires bs != []
    ensures 0 < r.1 <= |bs|
  {
    var b := bs[0] as int;
    if b < 0x80 || |bs| < 2 then (b, 1)
    else if b < 0xE0 then ((b - 0xC0) * 64 + Low6(bs[1]), 2)
    else if |bs| < 3 then (b, 1)
    else if b < 0xF0 then ((b - 0xE0) * 4096 + Low6(bs[1]) * 64 + Low6(bs[2]), 3)
    else if |bs| < 4 then (b, 1)
    else ((b - 0xF0) * 262144 + Low6(bs[1]) * 4096 + Low6(bs[2]) * 64 + Low6(bs[3]), 4)
  }

  function Decode(bs: seq<byte>): seq<int> {
    if bs == [] then [] else
      var first := DecodeFirst(bs);
      [first.0] + Decode(bs[first.1..])
  }

  function CodePoints(s: string): seq<int> {
    if s == [] then [] else [s[0] as int] + CodePoints(s[1..])
  }

  lemma CharDecodes(c: char, rest: seq<byte>)
    ensures DecodeFirst(EncodeChar(c) + rest) == (c as int, |EncodeChar(c)|)
  {
    var n := c as int;
    assert n / 64 == n / 4096 * 64 + n / 64 % 64;
    assert n / 4096 == n / 262144 * 64 + n / 4096 % 64;
  }

  /** Decoding an encoded text gives back its code points. */
  lemma {:induction false} DecodesBack(s: string)
    ensures Decode(Encode(s)) == CodePoints(s)
  {
    if s != [] {
      CharDecodes(s[0], Encode(s[1..]));
      DecodesBack(s[1..]);
      assert Encode(s)[|EncodeChar(s[0])|..] == Encode(s[1..]);
    }
  }

  lemma {:induction false} CodePointsInjective(s: string, t: string)
    requires CodePoints(s) == CodePoints(t)
    ensures s == t
  {
    if s != [] && t != [] {
      assert CodePoints(s)[0] == s[0] as int && CodePoints(t)[0] == t[0] as int;
      assert CodePoints(s)[1..] == CodePoints(s[1..]) && CodePoints(t)[1..] == CodePoints(t[1..]);
      CodePointsInjective(s[1..], t[1..]);
      assert s == [s[0]] + s[1..] && t == [t[0]] + t[1..];
    }
  }

  lemma EncodeInjective(s: string, t: string)
    requires Encode(s) == Encode(t)
    ensures s == t
  {
    DecodesBack(s);
    DecodesBack(t);
    CodePointsInjective(s, t);
  }
}
