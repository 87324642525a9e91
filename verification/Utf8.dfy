/** UTF-8 text as the packed dictionary carries it (crates/typefacts/src/v3.rs:745-755): the
encoder writes the bytes of valid strings and the decoder refuses anything else. */
module Utf8Text {
  import opened SortedRows
  import opened Facts

  /** The bytes of one character. */
  function CharBytes(c: char): seq<byte> {
    var x := c as int;
    if x < 0x80 then [x]
    else if x < 0x800 then [0xC0 + x / 0x40, 0x80 + x % 0x40]
    else if x < 0x1_0000 then [0xE0 + x / 0x1000, 0x80 + x / 0x40 % 0x40, 0x80 + x % 0x40]
    else [0xF0 + x / 0x4_0000, 0x80 + x / 0x1000 % 0x40, 0x80 + x / 0x40 % 0x40, 0x80 + x % 0x40]
  }

  function Utf8(text: string): seq<byte> {
    if text == "" then [] else CharBytes(text[0]) + Utf8(text[1..])
  }

  predicate Continues(b: byte) {
    0x80 <= b < 0xC0
  }

  /** How many bytes the leading byte announces; zero for an impossible one. */
  function Announced(b: byte): nat {
    if b < 0x80 then 1
    else if 0xC2 <= b < 0xE0 then 2
    else if 0xE0 <= b < 0xF0 then 3
    else if 0xF0 <= b < 0xF5 then 4
    else 0
  }

  /** The scalar value of a full sequence. */
  function ScalarOf(bytes: seq<byte>): int
    requires 1 <= |bytes| <= 4
  {
    if |bytes| == 1 then bytes[0]
    else if |bytes| == 2 then Bits(bytes[0], 0xC0) * 0x40 + Bits(bytes[1], 0x80)
    else if |bytes| == 3 then Bits(bytes[0], 0xE0) * 0x1000 + Bits(bytes[1], 0x80) * 0x40 + Bits(bytes[2], 0x80)
    else Bits(bytes[0], 0xF0) * 0x4_0000 + Bits(bytes[1], 0x80) * 0x1000 + Bits(bytes[2], 0x80) * 0x40 + Bits(bytes[3], 0x80)
  }

  /** A byte's payload above its marker. */
  function Bits(b: byte, marker: int): int {
    b as int - marker
  }

  /** Overlong forms, surrogates and values past the last plane are refused. */
  predicate Acceptable(bytes: seq<byte>)
    requires 1 <= |bytes| <= 4
  {
    && (forall k :: 1 <= k < |bytes| ==> Continues(bytes[k]))
    && var x := ScalarOf(bytes);
       && (|bytes| == 3 ==> 0x800 <= x && !(0xD800 <= x < 0xE000))
       && (|bytes| == 4 ==> 0x1_0000 <= x < 0x11_0000)
       && (0 <= x < 0xD800 || 0xE000 <= x < 0x11_0000)
  }

  function DecodeUtf8(bytes: seq<byte>): Option<string>
    decreases |bytes|
  {
    if bytes == [] then Some("")
    else
      var n := Announced(bytes[0]);
      if n == 0 || n > |bytes| || !Acceptable(bytes[..n]) then None
      else
        match DecodeUtf8(bytes[n..])
        case None => None
        case Some(rest) => Some([ScalarOf(bytes[..n]) as char] + rest)
  }

  lemma CharDecodes(c: char)
    ensures 1 <= |CharBytes(c)| <= 4
    ensures Announced(CharBytes(c)[0]) == |CharBytes(c)|
    ensures Acceptable(CharBytes(c)) && ScalarOf(CharBytes(c)) == c as int
  {
    var x := c as int;
    assert x == x / 0x40 * 0x40 + x % 0x40;
    assert x / 0x40 == x / 0x1000 * 0x40 + x / 0x40 % 0x40;
    assert x / 0x1000 == x / 0x4_0000 * 0x40 + x / 0x1000 % 0x40;
  }

  /** Decoding a string's bytes returns the string. */
  lemma {:induction false} DecodeEncodeText(text: string)
    ensures DecodeUtf8(Utf8(text)) == Some(text)
  {
    if text != "" {
      var first, rest := CharBytes(text[0]), Utf8(text[1..]);
      CharDecodes(text[0]);
      DecodeEncodeText(text[1..]);
      var bytes := first + rest;
      hide CharBytes, ScalarOf, Acceptable;
      assert bytes[0] == first[0] && bytes[..|first|] == first && bytes[|first|..] == rest;
      assert text == [text[0]] + text[1..];
    }
  }
}
