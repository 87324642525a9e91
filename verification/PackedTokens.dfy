/** The packed wire, one value at a time: rows are integers, raw bytes, and indexes into the
frame's dictionary (internal/typefacts/wire_transition_codec.go, crates/typefacts/src/v3.rs).

Rows are written while the dictionary still grows, and indexes never change, so what is
written is a token list read against the final dictionary. */
module PackedTokens {
  import opened Order
  import opened SortedRows
  import opened Facts
  import opened Varints
  import opened Utf8Text

  const PACKED_COLLECTION_LIMIT: nat := 1_000_000

  /** `Text` is a dictionary index, scaled to leave room for a tag in the same integer. */
  datatype Token = Num(n: nat) | Text(text: string, scale: nat, tag: nat) | Raw(bytes: seq<byte>)

  /** `uint64(len(xs))`. */
  function Length<T>(xs: seq<T>): Token {
    Num(Unsigned(|xs|))
  }

  type Dictionary = seq<string>

  function IndexOf(dict: Dictionary, text: string): (index: nat)
    ensures index <= |dict| && (index < |dict| <==> text in dict) && (index < |dict| ==> dict[index] == text)
  {
    if dict == [] then 0 else if dict[0] == text then 0 else 1 + IndexOf(dict[1..], text)
  }

  /** Interning appends, so an index once given stays. */
  lemma {:induction false} IndexStable(dict: Dictionary, more: Dictionary, text: string)
    requires dict <= more && text in dict
    ensures IndexOf(more, text) == IndexOf(dict, text)
  {
    if dict[0] != text {
      assert dict == [dict[0]] + dict[1..];
      IndexStable(dict[1..], more[1..], text);
    }
  }

  function TokenBytes(dict: Dictionary, token: Token): seq<byte> {
    match token
    case Num(n) => Encode(n)
    case Text(text, scale, tag) => Encode(IndexOf(dict, text) * scale + tag)
    case Raw(bytes) => bytes
  }

  function Bytes(dict: Dictionary, tokens: seq<Token>): seq<byte> {
    if tokens == [] then [] else TokenBytes(dict, tokens[0]) + Bytes(dict, tokens[1..])
  }

  predicate TokenFits(dict: Dictionary, token: Token) {
    match token
    case Num(n) => n < U64_LIMIT
    case Text(text, scale, tag) => text in dict && IndexOf(dict, text) * scale + tag < U64_LIMIT
    case Raw(_) => true
  }

  ghost predicate Fits(dict: Dictionary, tokens: seq<Token>) {
    forall k :: 0 <= k < |tokens| ==> TokenFits(dict, tokens[k])
  }

  lemma {:induction false} BytesConcat(dict: Dictionary, a: seq<Token>, b: seq<Token>)
    ensures Bytes(dict, a + b) == Bytes(dict, a) + Bytes(dict, b)
  {
    if a == [] {
      assert a + b == b;
    } else {
      assert (a + b)[1..] == a[1..] + b;
      BytesConcat(dict, a[1..], b);
    }
  }

  lemma FitsConcat(dict: Dictionary, a: seq<Token>, b: seq<Token>)
    ensures Fits(dict, a + b) <==> Fits(dict, a) && Fits(dict, b)
  {
    hide TokenFits;
    if Fits(dict, a + b) {
      forall k | 0 <= k < |a| ensures TokenFits(dict, a[k]) { assert (a + b)[k] == a[k]; }
      forall k | 0 <= k < |b| ensures TokenFits(dict, b[k]) { assert (a + b)[|a| + k] == b[k]; }
    }
  }

  lemma OneFits(dict: Dictionary, token: Token)
    requires Fits(dict, [token])
    ensures TokenFits(dict, token)
  {
    assert TokenFits(dict, [token][0]);
  }

  lemma Fits4(dict: Dictionary, a: seq<Token>, b: seq<Token>, c: seq<Token>, d: seq<Token>)
    requires Fits(dict, a + (b + (c + d)))
    ensures Fits(dict, a) && Fits(dict, b) && Fits(dict, c) && Fits(dict, d)
  {
    FitsConcat(dict, a, b + (c + d));
    FitsConcat(dict, b, c + d);
    FitsConcat(dict, c, d);
    hide Fits;
  }

  /** The reading order of four parts and what follows them. */
  lemma Nest4(a: seq<Token>, b: seq<Token>, c: seq<Token>, d: seq<Token>, rest: seq<Token>)
    ensures (a + (b + (c + d))) + rest == a + (b + (c + (d + rest)))
  {
  }

  lemma Nest2(a: seq<Token>, b: seq<Token>, rest: seq<Token>)
    ensures (a + b) + rest == a + (b + rest)
  {
  }

  /** Every text is interned, and every integer is 64 bits wide. */
  predicate Spellable(dict: Dictionary, token: Token) {
    match token
    case Num(n) => n < U64_LIMIT
    case Text(text, scale, tag) => text in dict && scale <= 4 && tag < 4
    case Raw(_) => true
  }

  ghost predicate Spelled(dict: Dictionary, tokens: seq<Token>) {
    forall k :: 0 <= k < |tokens| ==> Spellable(dict, tokens[k])
  }

  lemma SpelledFits(dict: Dictionary, tokens: seq<Token>)
    requires Spelled(dict, tokens) && |dict| <= PACKED_COLLECTION_LIMIT
    ensures Fits(dict, tokens)
  {
    forall k | 0 <= k < |tokens| ensures TokenFits(dict, tokens[k]) {
      assert Spellable(dict, tokens[k]);
      if tokens[k].Text? {
        var index := IndexOf(dict, tokens[k].text);
        hide IndexOf;
        assert index * tokens[k].scale <= index * 4;
      }
    }
  }

  /** Written against a prefix of the dictionary or against all of it, the bytes are the same. */
  lemma {:induction false} BytesStable(dict: Dictionary, more: Dictionary, tokens: seq<Token>)
    requires dict <= more && Spelled(dict, tokens)
    ensures Spelled(more, tokens) && Bytes(more, tokens) == Bytes(dict, tokens)
  {
    forall k | 0 <= k < |tokens| ensures Spellable(more, tokens[k]) && TokenBytes(more, tokens[k]) == TokenBytes(dict, tokens[k]) {
      assert Spellable(dict, tokens[k]);
      if tokens[k].Text? { IndexStable(dict, more, tokens[k].text); }
    }
    SameBytes(dict, more, tokens);
  }

  lemma {:induction false} SameBytes(dict: Dictionary, more: Dictionary, tokens: seq<Token>)
    requires forall k :: 0 <= k < |tokens| ==> TokenBytes(more, tokens[k]) == TokenBytes(dict, tokens[k])
    ensures Bytes(more, tokens) == Bytes(dict, tokens)
  {
    hide TokenBytes;
    if tokens != [] { SameBytes(dict, more, tokens[1..]); }
  }

  // --- reading one value ---

  /** A dictionary reference. */
  function StringIndex(dict: Dictionary, input: seq<byte>): Parsed<string> {
    var index :- U64(input);
    if index.0 < |dict| then Good(dict[index.0], index.1) else Bad
  }

  function Counted(input: seq<byte>): Parsed<nat> {
    var count :- U64(input);
    if count.0 <= PACKED_COLLECTION_LIMIT then Good(count.0, count.1) else Bad
  }

  function RawBytes(input: seq<byte>, length: nat): Parsed<seq<byte>> {
    if length <= |input| then Good(input[..length], input[length..]) else Bad
  }

  lemma ReadNum(dict: Dictionary, n: nat, rest: seq<Token>)
    requires n < U64_LIMIT
    ensures U64(Bytes(dict, [Num(n)] + rest)) == Good(n, Bytes(dict, rest))
  {
    BytesConcat(dict, [Num(n)], rest);
    OneToken(dict, Num(n));
    DecodeEncode(n, Bytes(dict, rest));
  }

  lemma OneToken(dict: Dictionary, token: Token)
    ensures Bytes(dict, [token]) == TokenBytes(dict, token)
  {
    assert [token][1..] == [];
    assert Bytes(dict, []) == [];
  }

  lemma ReadScaled(dict: Dictionary, text: string, scale: nat, tag: nat, rest: seq<Token>)
    requires TokenFits(dict, Text(text, scale, tag))
    ensures U64(Bytes(dict, [Text(text, scale, tag)] + rest)) == Good(IndexOf(dict, text) * scale + tag, Bytes(dict, rest))
  {
    BytesConcat(dict, [Text(text, scale, tag)], rest);
    OneToken(dict, Text(text, scale, tag));
    DecodeEncode(IndexOf(dict, text) * scale + tag, Bytes(dict, rest));
  }

  lemma ReadText(dict: Dictionary, text: string, rest: seq<Token>)
    requires TokenFits(dict, Text(text, 1, 0))
    ensures StringIndex(dict, Bytes(dict, [Text(text, 1, 0)] + rest)) == Good(text, Bytes(dict, rest))
  {
    ReadScaled(dict, text, 1, 0, rest);
  }

  lemma ReadLength<T>(dict: Dictionary, xs: seq<T>, rest: seq<Token>)
    requires |xs| < U64_LIMIT
    ensures U64(Bytes(dict, [Length(xs)] + rest)) == Good(|xs|, Bytes(dict, rest))
    ensures |xs| <= PACKED_COLLECTION_LIMIT ==> Counted(Bytes(dict, [Length(xs)] + rest)) == Good(|xs|, Bytes(dict, rest))
  {
    ReadNum(dict, |xs|, rest);
  }

  lemma ReadRaw(dict: Dictionary, bytes: seq<byte>, rest: seq<Token>)
    ensures RawBytes(Bytes(dict, [Raw(bytes)] + rest), |bytes|) == Good(bytes, Bytes(dict, rest))
  {
    BytesConcat(dict, [Raw(bytes)], rest);
    OneToken(dict, Raw(bytes));
  }
}
