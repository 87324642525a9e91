/** The frame's dictionary: hashed symbol IDs as raw digests, all other strings prefix-coded
against the preceding one (internal/typefacts/wire_transition_codec.go:169-208,
crates/typefacts/src/v3.rs:737-776). */
module PackedDictionaries {
  import opened Order
  import opened SortedRows
  import opened Facts
  import opened Varints
  import opened Utf8Text
  import opened PackedTokens

  const HASHED_PREFIX: string := "symbol:h:"

  function HexDigit(c: char): Option<nat> {
    if '0' <= c <= '9' then Some(c as int - '0' as int)
    else if 'a' <= c <= 'f' then Some(c as int - 'a' as int + 10)
    else if 'A' <= c <= 'F' then Some(c as int - 'A' as int + 10)
    else None
  }

  function HexChar(d: nat): char
    requires d < 16
  {
    if d < 10 then (d + '0' as int) as char else (d - 10 + 'a' as int) as char
  }

  predicate AllHex(text: string) {
    forall k :: 0 <= k < |text| ==> HexDigit(text[k]).Some?
  }

  /** `packedHashedSymbol`: the ID spells a 12-byte digest, in either case. */
  predicate Hashed(value: string) {
    HASHED_PREFIX <= value && |value| == |HASHED_PREFIX| + 24 && AllHex(value[|HASHED_PREFIX|..])
  }

  function HexDecode(text: string): seq<byte>
    requires AllHex(text) && |text| % 2 == 0
  {
    if text == "" then []
    else [HexDigit(text[0]).value * 16 + HexDigit(text[1]).value] + HexDecode(text[2..])
  }

  function HexEncode(bytes: seq<byte>): string {
    if bytes == [] then "" else [HexChar(bytes[0] / 16), HexChar(bytes[0] % 16)] + HexEncode(bytes[1..])
  }

  predicate LowerHex(text: string) {
    forall k :: 0 <= k < |text| ==> ('0' <= text[k] <= '9') || ('a' <= text[k] <= 'f')
  }

  /** One byte and its two digits. */
  lemma HexPair(a: char, b: char)
    requires LowerHex([a, b])
    ensures HexDigit(a).Some? && HexDigit(b).Some?
    ensures var x := HexDigit(a).value * 16 + HexDigit(b).value;
      x < 256 && HexChar(x / 16) == a && HexChar(x % 16) == b
  {
    assert LowerHex([[a, b][0]]) && LowerHex([[a, b][1]]);
    var high, low := HexDigit(a).value, HexDigit(b).value;
    assert (high * 16 + low) / 16 == high && (high * 16 + low) % 16 == low;
  }

  lemma {:induction false} HexRoundTrip(text: string)
    requires LowerHex(text) && |text| % 2 == 0
    ensures AllHex(text) && HexEncode(HexDecode(text)) == text && |HexDecode(text)| == |text| / 2
  {
    if text != "" {
      HexPair(text[0], text[1]);
      HexRoundTrip(text[2..]);
      assert text == [text[0], text[1]] + text[2..];
      hide HexDigit, HexChar, LowerHex;
      assert AllHex(text) by {
        forall k | 0 <= k < |text| ensures HexDigit(text[k]).Some? {
          if k >= 2 { assert text[k] == text[2..][k - 2]; }
        }
      }
      var bytes := HexDecode(text);
      assert bytes[1..] == HexDecode(text[2..]);
    }
  }

  lemma {:induction false} HexDecodeLength(text: string)
    requires AllHex(text) && |text| % 2 == 0
    ensures |HexDecode(text)| == |text| / 2
  {
    if text != "" { HexDecodeLength(text[2..]); }
  }

  /** `commonStringPrefix`, over the bytes. */
  function CommonPrefix(left: seq<byte>, right: seq<byte>): (n: nat)
    ensures n <= |left| && n <= |right| && left[..n] == right[..n]
  {
    if left == [] || right == [] || left[0] != right[0] then 0 else 1 + CommonPrefix(left[1..], right[1..])
  }

  // --- encoding ---

  function EntryTokens(value: string, previous: seq<byte>): seq<Token> {
    if Hashed(value) then [Num(1), Raw(HexDecode(value[|HASHED_PREFIX|..]))]
    else
      var bytes := Utf8(value);
      var prefix := CommonPrefix(previous, bytes);
      [Num(0), Num(Unsigned(prefix)), Length(bytes[prefix..]), Raw(bytes[prefix..])]
  }

  /** The prefix window: hashed symbols leave it untouched. */
  function Window(value: string, previous: seq<byte>): seq<byte> {
    if Hashed(value) then previous else Utf8(value)
  }

  function EntriesTokens(values: seq<string>, previous: seq<byte>): seq<Token> {
    if values == [] then [] else EntryTokens(values[0], previous) + EntriesTokens(values[1..], Window(values[0], previous))
  }

  /** `appendPackedDictionary`. */
  function DictionaryTokens(values: seq<string>): seq<Token> {
    [Length(values)] + EntriesTokens(values, [])
  }

  // --- decoding ---

  datatype Entry = Entry(value: string, previous: seq<byte>)

  function DecodeEntry(input: seq<byte>, previous: seq<byte>): Parsed<Entry> {
    var tag :- U64(input);
    if tag.0 == 0 then
      var prefix :- U64(tag.1);
      if prefix.0 > |previous| then Bad
      else
        var length :- U64(prefix.1);
        var suffix :- RawBytes(length.1, length.0);
        var bytes := previous[..prefix.0] + suffix.0;
        match DecodeUtf8(bytes)
        case None => Bad
        case Some(value) => Good(Entry(value, bytes), suffix.1)
    else if tag.0 == 1 then
      var raw :- RawBytes(tag.1, 12);
      Good(Entry(HASHED_PREFIX + HexEncode(raw.0), previous), raw.1)
    else Bad
  }

  function DecodeEntries(input: seq<byte>, count: nat, previous: seq<byte>): Parsed<seq<string>>
    decreases count
  {
    if count == 0 then Good([], input)
    else
      var entry :- DecodeEntry(input, previous);
      var rest :- DecodeEntries(entry.1, count - 1, entry.0.previous);
      Good([entry.0.value] + rest.0, rest.1)
  }

  /** `decode_packed_strings`. */
  function DecodeStrings(input: seq<byte>): Parsed<seq<string>> {
    var count :- Counted(input);
    DecodeEntries(count.1, count.0, [])
  }

  // --- the round trip ---

  /** What the decoder can give back: hashed IDs in lower case, lengths of 64 bits. */
  ghost predicate Codable(value: string) {
    && |Utf8(value)| < U64_LIMIT
    && (Hashed(value) ==> LowerHex(value[|HASHED_PREFIX|..]))
  }

  lemma EntryRoundTrip(dict: Dictionary, value: string, previous: seq<byte>, rest: seq<Token>)
    requires Codable(value)
    ensures DecodeEntry(Bytes(dict, EntryTokens(value, previous) + rest), previous)
         == Good(Entry(value, Window(value, previous)), Bytes(dict, rest))
  {
    if Hashed(value) {
      HashedRoundTrip(dict, value, previous, rest);
    } else {
      PlainRoundTrip(dict, value, previous, rest);
    }
  }

  lemma HashedRoundTrip(dict: Dictionary, value: string, previous: seq<byte>, rest: seq<Token>)
    requires Hashed(value) && LowerHex(value[|HASHED_PREFIX|..])
    ensures DecodeEntry(Bytes(dict, EntryTokens(value, previous) + rest), previous)
         == Good(Entry(value, previous), Bytes(dict, rest))
  {
    var hex := value[|HASHED_PREFIX|..];
    HexRoundTrip(hex);
    var raw := HexDecode(hex);
    assert value == HASHED_PREFIX + hex;
    hide AllHex, LowerHex, HexDecode, HexEncode, DecodeUtf8, CommonPrefix, Utf8;
    assert EntryTokens(value, previous) + rest == [Num(1)] + ([Raw(raw)] + rest);
    ReadNum(dict, 1, [Raw(raw)] + rest);
    ReadRaw(dict, raw, rest);
    hide Bytes;
  }

  lemma PlainRoundTrip(dict: Dictionary, value: string, previous: seq<byte>, rest: seq<Token>)
    requires !Hashed(value) && |Utf8(value)| < U64_LIMIT
    ensures DecodeEntry(Bytes(dict, EntryTokens(value, previous) + rest), previous)
         == Good(Entry(value, Utf8(value)), Bytes(dict, rest))
  {
    hide Hashed, HexEncode, CommonPrefix, Utf8, DecodeUtf8, Bytes, U64;
    var bytes := Utf8(value);
    var prefix := CommonPrefix(previous, bytes);
    var suffix := bytes[prefix..];
    DecodeEncodeText(value);
    var raw := [Raw(suffix)] + rest;
    var length := [Length(suffix)] + raw;
    assert EntryTokens(value, previous) + rest == [Num(0)] + ([Num(prefix)] + length);
    ReadNum(dict, 0, [Num(prefix)] + length);
    ReadNum(dict, prefix, length);
    ReadLength(dict, suffix, raw);
    ReadRaw(dict, suffix, rest);
    assert previous[..prefix] + suffix == bytes;
  }

  ghost predicate AllCodable(values: seq<string>) {
    forall k :: 0 <= k < |values| ==> Codable(values[k])
  }

  lemma {:induction false} EntriesRoundTrip(dict: Dictionary, values: seq<string>, previous: seq<byte>, rest: seq<Token>)
    requires AllCodable(values)
    ensures DecodeEntries(Bytes(dict, EntriesTokens(values, previous) + rest), |values|, previous) == Good(values, Bytes(dict, rest))
  {
    hide Codable, DecodeEntry, EntryTokens, Bytes, Window;
    if values == [] {
      assert EntriesTokens(values, previous) + rest == rest;
    } else {
      var more := EntriesTokens(values[1..], Window(values[0], previous)) + rest;
      assert EntriesTokens(values, previous) + rest == EntryTokens(values[0], previous) + more;
      EntryRoundTrip(dict, values[0], previous, more);
      EntriesRoundTrip(dict, values[1..], Window(values[0], previous), rest);
      assert values == [values[0]] + values[1..];
    }
  }

  /** Decoding an encoded dictionary returns its strings, in order. */
  lemma DictionaryRoundTrip(dict: Dictionary, values: seq<string>, rest: seq<Token>)
    requires AllCodable(values) && |values| <= PACKED_COLLECTION_LIMIT
    ensures DecodeStrings(Bytes(dict, DictionaryTokens(values) + rest)) == Good(values, Bytes(dict, rest))
  {
    hide Codable, DecodeEntries, EntriesTokens, Bytes, Counted;
    var entries := EntriesTokens(values, []) + rest;
    assert DictionaryTokens(values) + rest == [Length(values)] + entries;
    ReadLength(dict, values, entries);
    EntriesRoundTrip(dict, values, [], rest);
  }

  /** Two spellings of one digest are one dictionary on the wire; the decoder gives the lower-case one. */
  lemma SpellingIsLost(value: string, lower: string)
    requires Hashed(value) && Hashed(lower) && LowerHex(lower[|HASHED_PREFIX|..])
    requires HexDecode(value[|HASHED_PREFIX|..]) == HexDecode(lower[|HASHED_PREFIX|..])
    ensures DecodeStrings(Bytes([], DictionaryTokens([value]))) == Good([lower], [])
  {
    assert EntryTokens(value, []) == EntryTokens(lower, []);
    EntriesOf(value, lower);
    assert DictionaryTokens([lower]) + [] == DictionaryTokens([lower]);
    assert Codable(lower) by { Utf8Length(lower); }
    DictionaryRoundTrip([], [lower], []);
    assert Bytes([], []) == [];
  }

  lemma {:induction false} HexEncodeDecode(bytes: seq<byte>)
    ensures |HexEncode(bytes)| == 2 * |bytes| && LowerHex(HexEncode(bytes)) && AllHex(HexEncode(bytes))
    ensures HexDecode(HexEncode(bytes)) == bytes
  {
    if bytes != [] {
      HexEncodeDecode(bytes[1..]);
      ByteDigits(bytes[0]);
      var text := HexEncode(bytes);
      assert text[2..] == HexEncode(bytes[1..]);
      assert forall k :: 2 <= k < |text| ==> text[k] == text[2..][k - 2];
      assert bytes == [bytes[0]] + bytes[1..];
      hide HexDigit, HexChar;
    }
  }

  lemma ByteDigits(b: byte)
    ensures var high, low := HexChar(b / 16), HexChar(b % 16);
      LowerHex([high]) && LowerHex([low]) && HexDigit(high) == Some(b as int / 16) && HexDigit(low) == Some(b as int % 16)
  {
  }

  /** What a hashed ID comes back as, and that it survives exactly in lower case. */
  lemma HashedSurvivesIff(value: string)
    requires Hashed(value)
    ensures var digits := value[|HASHED_PREFIX|..];
      && DecodeStrings(Bytes([], DictionaryTokens([value]))) == Good([HASHED_PREFIX + HexEncode(HexDecode(digits))], [])
      && (HASHED_PREFIX + HexEncode(HexDecode(digits)) == value <==> LowerHex(digits))
  {
    var digits := value[|HASHED_PREFIX|..];
    var raw := HexDecode(digits);
    HexDecodeLength(digits);
    HexEncodeDecode(raw);
    var lower := HASHED_PREFIX + HexEncode(raw);
    assert lower[|HASHED_PREFIX|..] == HexEncode(raw);
    if LowerHex(digits) { HexRoundTrip(digits); }
    assert value == HASHED_PREFIX + digits;
    hide AllHex, HexDecode, HexEncode, LowerHex, DecodeStrings, DictionaryTokens, Bytes;
    SpellingIsLost(value, lower);
  }

  /** For example, all digits `A`. */
  lemma UpperCaseHashIsRespelled()
    ensures var value := HASHED_PREFIX + seq(24, _ => 'A');
      Hashed(value) && DecodeStrings(Bytes([], DictionaryTokens([value]))) != Good([value], [])
  {
    var digits := seq(24, _ => 'A');
    var value := HASHED_PREFIX + digits;
    assert digits[0] == 'A' && value[|HASHED_PREFIX|..] == digits;
    HashedSurvivesIff(value);
    hide *;
  }

  lemma EntriesOf(a: string, b: string)
    requires EntryTokens(a, []) == EntryTokens(b, [])
    ensures DictionaryTokens([a]) == DictionaryTokens([b])
  {
    OneEntry(a);
    OneEntry(b);
  }

  lemma OneEntry(value: string)
    ensures DictionaryTokens([value]) == [Length([value])] + EntryTokens(value, [])
  {
    hide EntryTokens, Window;
    assert [value][1..] == [];
    assert EntriesTokens([value], []) == EntryTokens(value, []) + EntriesTokens([], Window(value, []));
    assert EntryTokens(value, []) + [] == EntryTokens(value, []);
  }

  lemma {:induction false} Utf8Length(text: string)
    ensures |Utf8(text)| <= 4 * |text|
  {
    if text != "" { Utf8Length(text[1..]); }
  }
}
