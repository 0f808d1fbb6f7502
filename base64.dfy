/** Base64 with the standard alphabet and '=' padding, as section 4 of
    RFC 4648 defines it (Go's `base64.StdEncoding`). `Decode` is the inverse
    the model uses to prove that encoding loses nothing. */
module Base64 {
  import opened Bytes

  /** The byte of '='. */
  const Pad: byte := 61

  /** The character for a 6-bit value: 'A'-'Z', 'a'-'z', '0'-'9', '+', '/'. */
  function Symbol(i: int): (b: byte)
    requires 0 <= i < 64
  {
    if i < 26 then (65 + i) as byte
    else if i < 52 then (97 + i - 26) as byte
    else if i < 62 then (48 + i - 52) as byte
    else if i == 62 then 43
    else 47
  }

  /** The 6-bit value of an alphabet character (0 for any other byte). */
  function Value(b: byte): (i: int)
    ensures 0 <= i < 64
  {
    if 65 <= b <= 90 then b as int - 65
    else if 97 <= b <= 122 then b as int - 97 + 26
    else if 48 <= b <= 57 then b as int - 48 + 52
    else if b == 43 then 62
    else if b == 47 then 63
    else 0
  }

  /** No alphabet character is the padding character, and `Value` reads
      back the 6-bit value a character stands for. */
  lemma SymbolValue(i: int)
    requires 0 <= i < 64
    ensures Symbol(i) != Pad && Value(Symbol(i)) == i
  {
  }

  /** Each group of three bytes becomes four characters; a final group of one
      or two bytes is padded with '=' to four characters. */
  function Encode(s: Bytes): (t: Bytes)
    ensures |t| == 4 * ((|s| + 2) / 3)
    decreases |s|
  {
    if |s| == 0 then []
    else
      var n := if |s| < 3 then |s| else 3;
      EncodeGroup(s[..n]) + Encode(s[n..])
  }

  /** The four characters of one group of one, two or three bytes. */
  function EncodeGroup(g: Bytes): (q: Bytes)
    requires 1 <= |g| <= 3
    ensures |q| == 4
  {
    var x0 := g[0] as int;
    var x1 := if |g| >= 2 then g[1] as int else 0;
    var x2 := if |g| == 3 then g[2] as int else 0;
    [Symbol(x0 / 4), Symbol(x0 % 4 * 16 + x1 / 16),
     if |g| >= 2 then Symbol(x1 % 16 * 4 + x2 / 64) else Pad,
     if |g| == 3 then Symbol(x2 % 64) else Pad]
  }

  /** Inverse of `Encode`: four characters at a time back to up to three bytes. */
  function Decode(t: Bytes): Bytes
    decreases |t|
  {
    if |t| < 4 then [] else DecodeQuad(t[0], t[1], t[2], t[3]) + Decode(t[4..])
  }

  /** The one, two or three bytes that four characters stand for. */
  function DecodeQuad(q0: byte, q1: byte, q2: byte, q3: byte): Bytes {
    var a, b, c, d := Value(q0), Value(q1), Value(q2), Value(q3);
    var y0 := (a * 4 + b / 16) as byte;
    var y1 := (b % 16 * 16 + c / 4) as byte;
    var y2 := (c % 4 * 64 + d) as byte;
    if q2 == Pad then [y0] else if q3 == Pad then [y0, y1] else [y0, y1, y2]
  }

  /** The bit arithmetic of one group undoes itself. */
  lemma Group(x0: int, x1: int, x2: int)
    requires 0 <= x0 < 256 && 0 <= x1 < 256 && 0 <= x2 < 256
    ensures x0 / 4 * 4 + (x0 % 4 * 16 + x1 / 16) / 16 == x0
    ensures (x0 % 4 * 16 + x1 / 16) % 16 * 16 + (x1 % 16 * 4 + x2 / 64) / 4 == x1
    ensures (x1 % 16 * 4 + x2 / 64) % 4 * 64 + x2 % 64 == x2
  {
  }

  /** Decoding the four characters of a group gives the group back. */
  lemma DecodeGroup(g: Bytes)
    requires 1 <= |g| <= 3
    ensures var q := EncodeGroup(g); DecodeQuad(q[0], q[1], q[2], q[3]) == g
  {
    var q := EncodeGroup(g);
    var x0 := g[0] as int;
    var x1 := if |g| >= 2 then g[1] as int else 0;
    var x2 := if |g| == 3 then g[2] as int else 0;
    Group(x0, x1, x2);
    SymbolValue(x0 / 4);
    SymbolValue(x0 % 4 * 16 + x1 / 16);
    if |g| >= 2 { SymbolValue(x1 % 16 * 4 + x2 / 64); }
    if |g| == 3 { SymbolValue(x2 % 64); }
    var d := DecodeQuad(q[0], q[1], q[2], q[3]);
    assert d[0] == g[0];
    assert |g| >= 2 ==> d[1] == g[1];
    assert |g| == 3 ==> d[2] == g[2];
  }

  lemma DecodeAppend(q: Bytes, rest: Bytes)
    requires |q| == 4
    ensures Decode(q + rest) == DecodeQuad(q[0], q[1], q[2], q[3]) + Decode(rest)
  {
    assert (q + rest)[4..] == rest;
  }

  /** Decoding an encoding gives back the original bytes. */
  lemma {:induction false} DecodeEncode(s: Bytes)
    ensures Decode(Encode(s)) == s
    decreases |s|
  {
    if |s| > 0 {
      var n := if |s| < 3 then |s| else 3;
      var q := EncodeGroup(s[..n]);
      DecodeAppend(q, Encode(s[n..]));
      DecodeGroup(s[..n]);
      DecodeEncode(s[n..]);
      assert s == s[..n] + s[n..];
    }
  }

  /** Two byte strings have the same encoding exactly when they are equal. */
  lemma EncodeInjective(a: Bytes, b: Bytes)
    ensures Encode(a) == Encode(b) <==> a == b
  {
    if Encode(a) == Encode(b) {
      DecodeEncode(a);
      DecodeEncode(b);
    }
  }
}
