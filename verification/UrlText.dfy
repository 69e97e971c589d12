/** Text of UTF-16 units through UTF-8 and base64url and back. */
module UrlText {
  import opened Utf8
  import opened Base64Url
  import opened Wrappers

  newtype Unit = x: int | 0 <= x < 0x1_0000

  /** A Unicode scalar value: a code point that is no surrogate. */
  type Scalar = c: int | 0 <= c < 0x11_0000 && !(0xD800 <= c < 0xE000)

  predicate IsHigh(u: Unit) { 0xD800 <= u < 0xDC00 }

  predicate IsLow(u: Unit) { 0xDC00 <= u < 0xE000 }

  // ---- UTF-16 -----------------------------------------------------------------------------

  predicate Paired(text: seq<Unit>) { |text| >= 2 && IsHigh(text[0]) && IsLow(text[1]) }

  /** The characters of a text; a surrogate on its own becomes U+FFFD. */
  function Scalars(text: seq<Unit>): seq<Scalar> {
    if text == [] then []
    else if Paired(text) then
      [0x1_0000 + (text[0] as int - 0xD800) * 0x400 + (text[1] as int - 0xDC00)] + Scalars(text[2..])
    else if IsHigh(text[0]) || IsLow(text[0]) then [0xFFFD] + Scalars(text[1..])
    else [text[0] as int] + Scalars(text[1..])
  }

  /** No surrogate stands on its own. */
  predicate WellFormed(text: seq<Unit>) {
    if text == [] then true
    else if Paired(text) then WellFormed(text[2..])
    else !IsHigh(text[0]) && !IsLow(text[0]) && WellFormed(text[1..])
  }

  function UnitsOf(c: Scalar): seq<Unit> {
    if c < 0x1_0000 then [c as Unit]
    else [((c - 0x1_0000) / 0x400 + 0xD800) as Unit, ((c - 0x1_0000) % 0x400 + 0xDC00) as Unit]
  }

  function Units(cs: seq<Scalar>): seq<Unit> { if cs == [] then [] else UnitsOf(cs[0]) + Units(cs[1..]) }

  lemma PairSplits(high: Unit, low: Unit)
    requires IsHigh(high) && IsLow(low)
    ensures UnitsOf(0x1_0000 + (high as int - 0xD800) * 0x400 + (low as int - 0xDC00)) == [high, low]
  {
    var h, l := high as int - 0xD800, low as int - 0xDC00;
    assert (h * 0x400 + l) / 0x400 == h && (h * 0x400 + l) % 0x400 == l;
  }

  lemma {:induction false} UnitsOfScalars(text: seq<Unit>)
    ensures Units(Scalars(text)) == text <==> WellFormed(text)
    ensures |Units(Scalars(text))| == |text|
  {
    if text != [] {
      var cs := Scalars(text);
      if Paired(text) {
        PairSplits(text[0], text[1]);
        UnitsOfScalars(text[2..]);
        assert text == [text[0], text[1]] + text[2..];
        assert cs[1..] == Scalars(text[2..]);
        SameTail([text[0], text[1]], Units(cs[1..]), text[2..]);
      } else {
        UnitsOfScalars(text[1..]);
        assert text == [text[0]] + text[1..];
        assert cs[1..] == Scalars(text[1..]);
        SameTail([text[0]], Units(cs[1..]), text[1..]);
      }
    }
  }

  lemma SameTail(head: seq<Unit>, a: seq<Unit>, b: seq<Unit>)
    ensures head + a == head + b <==> a == b
  {
    if head + a == head + b {
      assert a == (head + a)[|head|..];
      assert b == (head + b)[|head|..];
    }
  }

  // ---- UTF-8 -------------------------------------------------------------------------------

  function EncodeRune(c: Scalar): seq<Byte> {
    if c < 0x80 then [c as Byte]
    else if c < 0x800 then [(0xC0 + c / 64) as Byte, (0x80 + c % 64) as Byte]
    else if c < 0x1_0000 then [(0xE0 + c / 4096) as Byte, (0x80 + c / 64 % 64) as Byte, (0x80 + c % 64) as Byte]
    else [(0xF0 + c / 262_144) as Byte, (0x80 + c / 4096 % 64) as Byte, (0x80 + c / 64 % 64) as Byte, (0x80 + c % 64) as Byte]
  }

  /** The number a well-formed sequence stands for. */
  function RuneValue(r: seq<Byte>): int
    requires 1 <= |r| <= 4
  {
    if |r| == 1 then r[0] as int
    else if |r| == 2 then (r[0] as int - 0xC0) * 64 + (r[1] as int - 0x80)
    else if |r| == 3 then (r[0] as int - 0xE0) * 4096 + (r[1] as int - 0x80) * 64 + (r[2] as int - 0x80)
    else (r[0] as int - 0xF0) * 262_144 + (r[1] as int - 0x80) * 4096 + (r[2] as int - 0x80) * 64 + (r[3] as int - 0x80)
  }

  lemma RuneRoundTrip(c: Scalar)
    ensures var r := EncodeRune(c);
      1 <= |r| <= 4 && RuneSize(r) == |r| && RuneValue(r) == c
  {
    var low, mid, high := c % 64, c / 64, c / 4096;
    assert c == mid * 64 + low && mid == high * 64 + mid % 64 && high == high / 64 * 64 + high % 64;
    assert c / 4096 == mid / 64 && c / 262_144 == high / 64;
  }

  function EncodeAll(cs: seq<Scalar>): seq<Byte> { if cs == [] then [] else EncodeRune(cs[0]) + EncodeAll(cs[1..]) }

  function DecodeAll(b: seq<Byte>): seq<int>
    requires Valid(b)
    decreases |b|
  {
    if b == [] then [] else [RuneValue(b[..RuneSize(b)])] + DecodeAll(b[RuneSize(b)..])
  }

  lemma {:induction false} DecodeUndoesEncode(cs: seq<Scalar>)
    ensures Valid(EncodeAll(cs)) && DecodeAll(EncodeAll(cs)) == cs
  {
    if cs != [] {
      var r, rest := EncodeRune(cs[0]), EncodeAll(cs[1..]);
      RuneRoundTrip(cs[0]);
      DecodeUndoesEncode(cs[1..]);
      RuneSizeOfJoin(r, rest);
      assert (r + rest)[..|r|] == r && (r + rest)[|r|..] == rest;
    }
  }

  // ---- encode and decode -----------------------------------------------------------------------

  /** The browser's decoder leaves out a byte order mark at the start. */
  function WithoutBom(cs: seq<int>): seq<int> { if cs != [] && cs[0] == 0xFEFF then cs[1..] else cs }

  function Encode(text: seq<Unit>): string { EncodeBytes(EncodeAll(Scalars(text))) }

  method EncodeBase64Url(text: seq<Unit>) returns (s: string)
    ensures s == Encode(text)
  {
    var bytes := EncodeAll(Scalars(text));
    var bin: seq<Byte> := [];
    for i := 0 to |bytes|
      invariant bin == bytes[..i]
    {
      bin := bin + [bytes[i]];
    }
    assert bytes[..|bytes|] == bytes;
    s := EncodeBytes(bin);
  }

  /** What decoding gives, when the bytes are valid UTF-8 and so stand for characters. */
  ghost predicate Decodes(s: string, text: seq<Unit>) {
    var b := DecodeBytes(s);
    && b.Some? && Valid(b.value)
    && exists cs: seq<Scalar> :: cs == WithoutBom(DecodeAll(b.value)) && Units(cs) == text
  }

  lemma DecodedIs(text: seq<Unit>, got: seq<Unit>)
    ensures Decodes(Encode(text), got) <==>
            got == Units(if Scalars(text) != [] && Scalars(text)[0] == 0xFEFF then Scalars(text)[1..] else Scalars(text))
  {
    var cs := Scalars(text);
    BytesRoundTrip(EncodeAll(cs));
    DecodeUndoesEncode(cs);
    var kept: seq<Scalar> := if cs != [] && cs[0] == 0xFEFF then cs[1..] else cs;
    assert kept == WithoutBom(DecodeAll(EncodeAll(cs)));
  }

  /**
   Encoded text decodes to itself if and only if it has no surrogate on its own
   and does not begin with a byte order mark.
   */
  lemma TextRoundTrip(text: seq<Unit>)
    ensures Decodes(Encode(text), text) <==> WellFormed(text) && (text == [] || text[0] != 0xFEFF)
  {
    var cs := Scalars(text);
    DecodedIs(text, text);
    UnitsOfScalars(text);
    if cs != [] && cs[0] == 0xFEFF {
      assert |Units(cs)| == |UnitsOf(cs[0])| + |Units(cs[1..])|;
    }
  }
}
