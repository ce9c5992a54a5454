/** Bytes and the two text encodings the current writer uses:
    Python's `str.encode('ascii')` and `str.encode('utf-16-be')`. */
module Bytes {
  import opened Text

  type byte = b: int | 0 <= b < 256

  const NL: byte := 10
  const SP: byte := 32

  /** `codecs.BOM_UTF16_BE`. */
  const BomUtf16Be: seq<byte> := [0xFE, 0xFF]

  predicate IsAsciiChar(c: char) { c < 128 as char }

  /** `s.encode('ascii')` succeeds exactly on these strings. */
  predicate IsAscii(s: string) { forall i :: 0 <= i < |s| ==> IsAsciiChar(s[i]) }

  /** `s.encode('ascii')`: one byte per character, its code point. */
  function Ascii(s: string): (r: seq<byte>)
    requires IsAscii(s)
    ensures |r| == |s|
    ensures forall i :: 0 <= i < |s| ==> r[i] == s[i] as int < 128
  {
    seq(|s|, i requires 0 <= i < |s| => s[i] as int)
  }

  /** `b.decode('ascii')` on bytes below 128. */
  function AsciiText(b: seq<byte>): (s: string)
    requires Below128(b)
    ensures IsAscii(s) && Ascii(s) == b
  {
    seq(|b|, i requires 0 <= i < |b| => b[i] as char)
  }

  /** Decoding bytes without a newline gives text without one. */
  lemma {:induction false} AsciiTextNoNewline(b: seq<byte>)
    requires Below128(b) && NL !in b
    ensures '\n' !in AsciiText(b)
  {
    var s := AsciiText(b);
    assert forall i :: 0 <= i < |s| ==> s[i] as int == b[i];
  }

  lemma {:induction false} AsciiConcat(a: string, b: string)
    requires IsAscii(a) && IsAscii(b)
    ensures IsAscii(a + b) && Ascii(a + b) == Ascii(a) + Ascii(b)
  {
    assert forall i :: 0 <= i < |a + b| ==> (a + b)[i] == if i < |a| then a[i] else b[i - |a|];
  }

  lemma {:induction false} DigitsAscii(s: string)
    requires AllDigits(s)
    ensures IsAscii(s)
  {
  }

  /** `'\n' not in s` carries over to the encoded bytes. */
  lemma {:induction false} AsciiNoNewline(s: string)
    requires IsAscii(s) && '\n' !in s
    ensures NL !in Ascii(s)
  {
  }

  predicate Below128(b: seq<byte>) { forall i :: 0 <= i < |b| ==> b[i] < 128 }

  /** Joining ASCII byte strings with an ASCII separator stays ASCII. */
  lemma {:induction false} JoinBelow128(parts: seq<seq<byte>>, sep: seq<byte>)
    requires forall k :: 0 <= k < |parts| ==> Below128(parts[k])
    requires Below128(sep)
    ensures Below128(Join(parts, sep))
  {
    if |parts| > 1 {
      JoinBelow128(parts[1..], sep);
    }
  }

  // ---------------------------------------------------------------------
  // UTF-16 big-endian

  /** The code units of one character: itself below U+10000, a surrogate pair above. */
  function Utf16Char(c: char): (r: seq<byte>)
    ensures |r| == 2 || |r| == 4
  {
    var v := c as int;
    if v < 0x1_0000 then [v / 256, v % 256]
    else
      var w := v - 0x1_0000;
      var hi := 0xD800 + w / 0x400;
      var lo := 0xDC00 + w % 0x400;
      [hi / 256, hi % 256, lo / 256, lo % 256]
  }

  /** The 16-bit code unit stored big-endian in two bytes. */
  function Unit(hi: byte, lo: byte): int { hi as int * 256 + lo as int }

  /** `s.encode('utf-16-be')`. */
  function Utf16Be(s: string): seq<byte>
  {
    if |s| == 0 then [] else Utf16Char(s[0]) + Utf16Be(s[1..])
  }

  /** `b.decode('utf-16-be')`, with `None` for malformed input. */
  function Utf16BeDecode(b: seq<byte>): Option<string>
    decreases |b|
  {
    if |b| == 0 then Some("")
    else if |b| < 2 then None
    else
      var u := Unit(b[0], b[1]);
      if u < 0xD800 || 0xE000 <= u then
        match Utf16BeDecode(b[2..])
        case Some(rest) => Some([u as char] + rest)
        case None => None
      else if u < 0xDC00 && |b| >= 4 then
        var l := Unit(b[2], b[3]);
        if 0xDC00 <= l < 0xE000 then
          match Utf16BeDecode(b[4..])
          case Some(rest) => Some([(0x1_0000 + (u - 0xD800) * 0x400 + (l - 0xDC00)) as char] + rest)
          case None => None
        else None
      else None
  }

  lemma {:induction false} Utf16CharDecodes(c: char, rest: seq<byte>)
    ensures Utf16BeDecode(Utf16Char(c) + rest) ==
      match Utf16BeDecode(rest)
      case Some(t) => Some([c] + t)
      case None => None
  {
    var b := Utf16Char(c) + rest;
    var v := c as int;
    if v < 0x1_0000 {
      assert b[2..] == rest;
      assert Unit(b[0], b[1]) == v;
    } else {
      var w := v - 0x1_0000;
      assert b[4..] == rest;
      assert Unit(b[0], b[1]) == 0xD800 + w / 0x400;
      assert Unit(b[2], b[3]) == 0xDC00 + w % 0x400;
      assert 0x1_0000 + (w / 0x400) * 0x400 + w % 0x400 == v;
    }
  }

  /** Decoding the UTF-16BE bytes of any string gives the string back. */
  lemma {:induction false} Utf16BeRoundTrip(s: string)
    ensures Utf16BeDecode(Utf16Be(s)) == Some(s)
  {
    if |s| > 0 {
      Utf16BeRoundTrip(s[1..]);
      Utf16CharDecodes(s[0], Utf16Be(s[1..]));
      assert [s[0]] + s[1..] == s;
    }
  }

  /** Two bytes per character in the Basic Multilingual Plane. */
  lemma {:induction false} Utf16BeLengthBmp(s: string)
    requires forall i :: 0 <= i < |s| ==> s[i] as int < 0x1_0000
    ensures |Utf16Be(s)| == 2 * |s|
  {
    if |s| > 0 { Utf16BeLengthBmp(s[1..]); }
  }
}
