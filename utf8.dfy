/**
 * The strict UTF-8 codec behind Python's bytes.decode("utf-8"): a byte string
 * decodes exactly when it is a sequence of well-formed UTF-8 sequences, following
 * Table 3-7 of the Unicode Standard (no overlong forms, no surrogates, nothing
 * above U+10FFFF, no truncated sequence).
 */
module Utf8 {
  import opened Wrappers

  newtype byte = x: int | 0 <= x < 256

  predicate IsContinuation(b: byte)
  {
    0x80 <= b <= 0xBF
  }

  /** The range Table 3-7 allows for the second byte of a three- or four-byte sequence, by its lead byte. */
  predicate SecondByteOk(lead: byte, b: byte)
  {
    if lead == 0xE0 then 0xA0 <= b <= 0xBF
    else if lead == 0xED then 0x80 <= b <= 0x9F
    else if lead == 0xF0 then 0x90 <= b <= 0xBF
    else if lead == 0xF4 then 0x80 <= b <= 0x8F
    else IsContinuation(b)
  }

  function Char2(b0: byte, b1: byte): (c: char)
    requires 0xC2 <= b0 <= 0xDF && IsContinuation(b1)
    ensures 0x80 <= c as int < 0x800
  {
    ((b0 as int - 0xC0) * 64 + (b1 as int - 0x80)) as char
  }

  function Char3(b0: byte, b1: byte, b2: byte): (c: char)
    requires 0xE0 <= b0 <= 0xEF && SecondByteOk(b0, b1) && IsContinuation(b2)
    ensures 0x800 <= c as int < 0x10000
  {
    ((b0 as int - 0xE0) * 4096 + (b1 as int - 0x80) * 64 + (b2 as int - 0x80)) as char
  }

  function Char4(b0: byte, b1: byte, b2: byte, b3: byte): (c: char)
    requires 0xF0 <= b0 <= 0xF4 && SecondByteOk(b0, b1) && IsContinuation(b2) && IsContinuation(b3)
    ensures 0x10000 <= c as int
  {
    ((b0 as int - 0xF0) * 262144 + (b1 as int - 0x80) * 4096 + (b2 as int - 0x80) * 64 + (b3 as int - 0x80)) as char
  }

  /** The character that the well-formed sequence at the front of b encodes, with that sequence's length. */
  function DecodeFirst(b: seq<byte>): (r: Option<(char, nat)>)
    requires b != []
    ensures r.Some? ==> 1 <= r.value.1 <= 4 && r.value.1 <= |b|
  {
    var b0 := b[0];
    if b0 < 0x80 then Some((b0 as int as char, 1))
    else if 0xC2 <= b0 <= 0xDF then
      if 2 <= |b| && IsContinuation(b[1]) then Some((Char2(b0, b[1]), 2)) else None
    else if 0xE0 <= b0 <= 0xEF then
      if 3 <= |b| && SecondByteOk(b0, b[1]) && IsContinuation(b[2]) then Some((Char3(b0, b[1], b[2]), 3)) else None
    else if 0xF0 <= b0 <= 0xF4 then
      if 4 <= |b| && SecondByteOk(b0, b[1]) && IsContinuation(b[2]) && IsContinuation(b[3])
      then Some((Char4(b0, b[1], b[2], b[3]), 4))
      else None
    else None
  }

  /** bytes.decode("utf-8"): the decoded string, or None where Python raises UnicodeDecodeError. */
  function Decode(b: seq<byte>): Option<string>
    decreases |b|
  {
    if b == [] then Some([])
    else match DecodeFirst(b)
      case None => None
      case Some((c, n)) =>
        match Decode(b[n..])
        case None => None
        case Some(rest) => Some([c] + rest)
  }

  /** The UTF-8 encoding of one character (str.encode("utf-8") of a one-character string). */
  function EncodeChar(c: char): (e: seq<byte>)
    ensures 1 <= |e| <= 4
  {
    var n := c as int;
    if n < 0x80 then [n as byte]
    else if n < 0x800 then [(0xC0 + n / 64) as byte, (0x80 + n % 64) as byte]
    else if n < 0x10000 then [(0xE0 + n / 4096) as byte, (0x80 + n / 64 % 64) as byte, (0x80 + n % 64) as byte]
    else [(0xF0 + n / 262144) as byte, (0x80 + n / 4096 % 64) as byte, (0x80 + n / 64 % 64) as byte, (0x80 + n % 64) as byte]
  }

  /** str.encode("utf-8"). */
  function Encode(s: string): seq<byte>
  {
    if s == [] then [] else EncodeChar(s[0]) + Encode(s[1..])
  }

  lemma DecodeEncoded2(n: int)
    requires 0x80 <= n < 0x800
    ensures 0xC2 <= 0xC0 + n / 64 <= 0xDF && 0 <= n % 64 < 64
    ensures Char2((0xC0 + n / 64) as byte, (0x80 + n % 64) as byte) as int == n
  {
  }

  lemma DecodeEncoded3(n: int)
    requires 0x800 <= n < 0x10000 && !(0xD800 <= n < 0xE000)
    ensures var b0, b1, b2 := (0xE0 + n / 4096) as byte, (0x80 + n / 64 % 64) as byte, (0x80 + n % 64) as byte;
      0xE0 <= b0 <= 0xEF && SecondByteOk(b0, b1) && IsContinuation(b2) && Char3(b0, b1, b2) as int == n
  {
    var q := n / 64;
    assert n == q * 64 + n % 64;
    assert q == (n / 4096) * 64 + q % 64;
    assert n / 4096 == q / 64;
  }

  lemma DecodeEncoded4(n: int)
    requires 0x10000 <= n < 0x110000
    ensures var b0, b1, b2, b3 := (0xF0 + n / 262144) as byte, (0x80 + n / 4096 % 64) as byte,
                                  (0x80 + n / 64 % 64) as byte, (0x80 + n % 64) as byte;
      0xF0 <= b0 <= 0xF4 && SecondByteOk(b0, b1) && IsContinuation(b2) && IsContinuation(b3)
      && Char4(b0, b1, b2, b3) as int == n
  {
    var q := n / 64;
    var p := q / 64;
    assert n == q * 64 + n % 64;
    assert q == p * 64 + q % 64;
    assert p == (n / 262144) * 64 + p % 64;
    assert n / 4096 == p;
    assert n / 262144 == p / 64;
  }

  /** The decoder reads back exactly the character the encoder wrote, whatever follows it. */
  lemma DecodeFirstEncodeChar(c: char, rest: seq<byte>)
    ensures DecodeFirst(EncodeChar(c) + rest) == Some((c, |EncodeChar(c)|))
  {
    var n := c as int;
    var e := EncodeChar(c);
    var b := e + rest;
    assert b[..|e|] == e;
    if n < 0x80 {
    } else if n < 0x800 {
      DecodeEncoded2(n);
    } else if n < 0x10000 {
      DecodeEncoded3(n);
    } else {
      DecodeEncoded4(n);
    }
  }

  lemma EncodeChar2(b0: byte, b1: byte)
    requires 0xC2 <= b0 <= 0xDF && IsContinuation(b1)
    ensures EncodeChar(Char2(b0, b1)) == [b0, b1]
  {
    var n := Char2(b0, b1) as int;
    assert n / 64 == b0 as int - 0xC0 && n % 64 == b1 as int - 0x80;
  }

  lemma EncodeChar3(b0: byte, b1: byte, b2: byte)
    requires 0xE0 <= b0 <= 0xEF && SecondByteOk(b0, b1) && IsContinuation(b2)
    ensures EncodeChar(Char3(b0, b1, b2)) == [b0, b1, b2]
  {
    var n := Char3(b0, b1, b2) as int;
    var q := (b0 as int - 0xE0) * 64 + (b1 as int - 0x80);
    assert n == q * 64 + (b2 as int - 0x80);
    assert n / 64 == q && n % 64 == b2 as int - 0x80;
    assert q / 64 == b0 as int - 0xE0 && q % 64 == b1 as int - 0x80;
    assert n / 4096 == q / 64;
  }

  lemma EncodeChar4(b0: byte, b1: byte, b2: byte, b3: byte)
    requires 0xF0 <= b0 <= 0xF4 && SecondByteOk(b0, b1) && IsContinuation(b2) && IsContinuation(b3)
    ensures EncodeChar(Char4(b0, b1, b2, b3)) == [b0, b1, b2, b3]
  {
    var n := Char4(b0, b1, b2, b3) as int;
    var q := (b0 as int - 0xF0) * 64 + (b1 as int - 0x80);
    var p := q * 64 + (b2 as int - 0x80);
    assert n == p * 64 + (b3 as int - 0x80);
    assert n / 64 == p && n % 64 == b3 as int - 0x80;
    assert p / 64 == q && p % 64 == b2 as int - 0x80;
    assert q / 64 == b0 as int - 0xF0 && q % 64 == b1 as int - 0x80;
    assert n / 4096 == p / 64;
    assert n / 262144 == q / 64;
  }

  /** Every well-formed sequence the decoder accepts is the encoder's output for the character it yields. */
  lemma EncodeCharDecodeFirst(b: seq<byte>)
    requires b != [] && DecodeFirst(b).Some?
    ensures EncodeChar(DecodeFirst(b).value.0) == b[..DecodeFirst(b).value.1]
  {
    var b0 := b[0];
    if b0 < 0x80 {
    } else if b0 <= 0xDF {
      EncodeChar2(b0, b[1]);
    } else if b0 <= 0xEF {
      EncodeChar3(b0, b[1], b[2]);
    } else {
      EncodeChar4(b0, b[1], b[2], b[3]);
    }
  }

  /** Decoding inverts encoding: every string survives a UTF-8 round trip. */
  lemma {:induction false} DecodeEncode(s: string)
    ensures Decode(Encode(s)) == Some(s)
    decreases |s|
  {
    if s != [] {
      var e, tail := EncodeChar(s[0]), Encode(s[1..]);
      assert Encode(s) == e + tail;
      DecodeFirstEncodeChar(s[0], tail);
      assert (e + tail)[|e|..] == tail;
      DecodeEncode(s[1..]);
      assert [s[0]] + s[1..] == s;
    }
  }

  /** Encoding inverts decoding: whatever the decoder accepts is the encoding of what it returns. */
  lemma {:induction false} EncodeDecode(b: seq<byte>)
    requires Decode(b).Some?
    ensures Encode(Decode(b).value) == b
    decreases |b|
  {
    if b != [] {
      var (c, n) := DecodeFirst(b).value;
      EncodeCharDecodeFirst(b);
      EncodeDecode(b[n..]);
      var s := Decode(b).value;
      assert s[0] == c && s[1..] == Decode(b[n..]).value;
      assert b == b[..n] + b[n..];
    }
  }

  /** A byte string decodes exactly when it is the UTF-8 encoding of some string. */
  lemma DecodableIffEncoding(b: seq<byte>)
    ensures Decode(b).Some? <==> exists s :: Encode(s) == b
  {
    if Decode(b).Some? {
      EncodeDecode(b);
    } else if s :| Encode(s) == b {
      DecodeEncode(s);
    }
  }
}
