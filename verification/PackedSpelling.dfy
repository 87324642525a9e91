/** What the wire makes of hashed symbol IDs in upper case, over a whole frame
(internal/typefacts/wire_transition_codec.go:169-208, crates/typefacts/src/v3.rs:737-776, 1246-1330). */
module PackedSpellings {
  import opened Order
  import opened SortedRows
  import opened Facts
  import opened Varints
  import opened Utf8Text
  import opened PackedTokens
  import opened PackedDictionaries
  import opened PackedPathOps
  import opened PackedSymbolOps
  import opened PackedTransitions

  /** The spelling that comes back. */
  function Lower(text: string): string {
    if Hashed(text) then HASHED_PREFIX + HexEncode(HexDecode(text[|HASHED_PREFIX|..])) else text
  }

  function LowerAll(values: seq<string>): (lower: seq<string>)
    ensures |lower| == |values|
    ensures forall k :: 0 <= k < |values| ==> lower[k] == Lower(values[k])
  {
    seq(|values|, (k: int) requires 0 <= k < |values| => Lower(values[k]))
  }

  function LowerToken(token: Token): Token {
    if token.Text? then Text(Lower(token.text), token.scale, token.tag) else token
  }

  function LowerTokens(tokens: seq<Token>): (lower: seq<Token>)
    ensures |lower| == |tokens|
    ensures forall k :: 0 <= k < |tokens| ==> lower[k] == LowerToken(tokens[k])
  {
    seq(|tokens|, (k: int) requires 0 <= k < |tokens| => LowerToken(tokens[k]))
  }

  /** Both spellings are written alike. */
  lemma LowerEntry(value: string, previous: seq<byte>)
    ensures EntryTokens(value, previous) == EntryTokens(Lower(value), previous)
    ensures Window(value, previous) == Window(Lower(value), previous)
    ensures |Utf8(value)| < U64_LIMIT ==> Codable(Lower(value))
  {
    if Hashed(value) {
      var digits := value[|HASHED_PREFIX|..];
      HexDecodeLength(digits);
      HexEncodeDecode(HexDecode(digits));
      assert Lower(value)[|HASHED_PREFIX|..] == HexEncode(HexDecode(digits));
      Utf8Length(Lower(value));
      hide Utf8, HexDecode, HexEncode, AllHex, LowerHex;
    }
  }

  lemma {:induction false} LowerEntries(values: seq<string>, previous: seq<byte>)
    ensures EntriesTokens(values, previous) == EntriesTokens(LowerAll(values), previous)
  {
    hide EntryTokens, Window, Lower;
    if values != [] {
      LowerEntry(values[0], previous);
      LowerEntries(values[1..], Window(values[0], previous));
      assert LowerAll(values)[1..] == LowerAll(values[1..]);
    }
  }

  lemma LowerDictionary(values: seq<string>)
    ensures DictionaryTokens(values) == DictionaryTokens(LowerAll(values))
  {
    hide EntriesTokens;
    LowerEntries(values, []);
  }

  /** With every spelling distinct, a string keeps its index. */
  lemma LowerIndex(dict: Dictionary, text: string)
    requires Distinct(LowerAll(dict)) && text in dict
    ensures IndexOf(LowerAll(dict), Lower(text)) == IndexOf(dict, text)
  {
    hide Lower;
    var k := IndexOf(dict, text);
    var other := IndexOf(LowerAll(dict), Lower(text));
    assert LowerAll(dict)[k] == Lower(text);
    assert LowerAll(dict)[other] == LowerAll(dict)[k];
  }

  lemma {:induction false} LowerBytes(dict: Dictionary, tokens: seq<Token>)
    requires Distinct(LowerAll(dict)) && Spelled(dict, tokens)
    ensures Bytes(dict, tokens) == Bytes(LowerAll(dict), LowerTokens(tokens))
  {
    hide IndexOf, Lower, Distinct;
    if tokens != [] {
      assert Spellable(dict, tokens[0]);
      if tokens[0].Text? { LowerIndex(dict, tokens[0].text); }
      LowerBytes(dict, tokens[1..]);
      assert LowerTokens(tokens)[1..] == LowerTokens(tokens[1..]);
    }
  }

  lemma {:induction false} Untexted(a: Dictionary, b: Dictionary, tokens: seq<Token>)
    requires forall k :: 0 <= k < |tokens| ==> !tokens[k].Text?
    ensures Bytes(a, tokens) == Bytes(b, tokens)
  {
    if tokens != [] { Untexted(a, b, tokens[1..]); }
  }

  lemma {:induction false} EntriesUntexted(values: seq<string>, previous: seq<byte>)
    ensures forall k :: 0 <= k < |EntriesTokens(values, previous)| ==> !EntriesTokens(values, previous)[k].Text?
  {
    hide EntryTokens, Window;
    if values != [] {
      EntryUntexted(values[0], previous);
      EntriesUntexted(values[1..], Window(values[0], previous));
    }
  }

  lemma EntryUntexted(value: string, previous: seq<byte>)
    ensures forall k :: 0 <= k < |EntryTokens(value, previous)| ==> !EntryTokens(value, previous)[k].Text?
  {
    hide Utf8, CommonPrefix, HexDecode, Hashed;
  }

  /** With upper-case IDs in its dictionary, a frame is byte for byte the one of their lower-case spelling, unless
  two spellings of one ID are both there: then it is refused. */
  lemma FrameRespelled(dict: Dictionary, identity: Identity, rows: seq<Token>)
    requires IdentityFits(identity) && dict != [] && dict[0] == "" && |dict| <= PACKED_COLLECTION_LIMIT && Spelled(dict, rows)
    requires forall k :: 0 <= k < |dict| ==> |Utf8(dict[k])| < U64_LIMIT
    ensures Distinct(LowerAll(dict)) ==>
      Bytes(dict, FrameTokens(dict, identity, rows)) == Bytes(LowerAll(dict), FrameTokens(LowerAll(dict), identity, LowerTokens(rows)))
    ensures !Distinct(LowerAll(dict)) ==> DecodeTransition(Bytes(dict, FrameTokens(dict, identity, rows))) == Bad
  {
    LowerDictionary(dict);
    if Distinct(LowerAll(dict)) {
      SameFrame(dict, identity, rows);
    } else {
      TwinRefused(dict, identity, rows);
    }
  }

  lemma SameFrame(dict: Dictionary, identity: Identity, rows: seq<Token>)
    requires Distinct(LowerAll(dict)) && Spelled(dict, rows) && DictionaryTokens(dict) == DictionaryTokens(LowerAll(dict))
    ensures Bytes(dict, FrameTokens(dict, identity, rows)) == Bytes(LowerAll(dict), FrameTokens(LowerAll(dict), identity, LowerTokens(rows)))
  {
    var lower, head := LowerAll(dict), HeaderTokens(identity) + DictionaryTokens(dict);
    HeadUntexted(identity, dict);
    hide *;
    Untexted(dict, lower, head);
    LowerBytes(dict, rows);
    FrameIs(dict, identity, rows);
    FrameIs(lower, identity, LowerTokens(rows));
    BytesConcat(dict, head, rows);
    BytesConcat(lower, head, LowerTokens(rows));
  }

  lemma HeadUntexted(identity: Identity, dict: Dictionary)
    ensures forall k :: 0 <= k < |HeaderTokens(identity) + DictionaryTokens(dict)| ==> !(HeaderTokens(identity) + DictionaryTokens(dict))[k].Text?
  {
    EntriesUntexted(dict, []);
    hide EntriesTokens;
  }

  lemma FrameIs(dict: Dictionary, identity: Identity, rows: seq<Token>)
    ensures FrameTokens(dict, identity, rows) == (HeaderTokens(identity) + DictionaryTokens(dict)) + rows
  {
    hide HeaderTokens, DictionaryTokens;
  }

  lemma TwinRefused(dict: Dictionary, identity: Identity, rows: seq<Token>)
    requires IdentityFits(identity) && |dict| <= PACKED_COLLECTION_LIMIT && DictionaryTokens(dict) == DictionaryTokens(LowerAll(dict))
    requires forall k :: 0 <= k < |dict| ==> |Utf8(dict[k])| < U64_LIMIT
    requires !Distinct(LowerAll(dict))
    ensures DecodeTransition(Bytes(dict, FrameTokens(dict, identity, rows))) == Bad
  {
    hide Utf8, Bytes, DecodeNumbers, DecodeStrings, DecodeRows, HeaderTokens, DictionaryTokens, IdentityFits, Codable, Distinct, Lower;
    NumbersRoundTrip(dict, identity, DictionaryTokens(dict) + rows);
    forall k | 0 <= k < |dict| ensures Codable(LowerAll(dict)[k]) { LowerEntry(dict[k], []); }
    DictionaryRoundTrip(dict, LowerAll(dict), rows);
  }

  /** So a transition of upper-case IDs arrives as its lower-case respelling. */
  lemma ArrivesRespelled(dict: Dictionary, sent: Transition, lower: Transition)
    requires dict != [] && dict[0] == "" && |dict| <= PACKED_COLLECTION_LIMIT && Spelled(dict, RowTokens(sent))
    requires forall k :: 0 <= k < |dict| ==> |Utf8(dict[k])| < U64_LIMIT
    requires TransitionFits(lower) && sent.identity == lower.identity && LowerTokens(RowTokens(sent)) == RowTokens(lower)
    ensures DecodeTransition(Bytes(dict, FrameTokens(dict, sent.identity, RowTokens(sent))))
      == if Distinct(LowerAll(dict)) && SchemaHoldsOps(lower.identity.schema, lower.paths) then Good(CarriedTransition(lower), []) else Bad
  {
    hide Utf8, Bytes, DecodeTransition, RowTokens, FrameTokens, SchemaHoldsOps, CarriedTransition, Codable, Distinct, IdentityFits, PathOpsFit, SymbolOpsFit;
    FrameRespelled(dict, sent.identity, RowTokens(sent));
    if Distinct(LowerAll(dict)) {
      forall k | 0 <= k < |dict| ensures Codable(LowerAll(dict)[k]) { LowerEntry(dict[k], []); }
      assert LowerAll(dict)[0] == "";
      LowerSpelled(dict, RowTokens(sent));
      hide Lower;
      SpelledFits(LowerAll(dict), RowTokens(lower));
      TransitionRoundTrip(LowerAll(dict), lower);
    }
  }

  lemma LowerSpelled(dict: Dictionary, tokens: seq<Token>)
    requires Spelled(dict, tokens)
    ensures Spelled(LowerAll(dict), LowerTokens(tokens))
  {
    hide Lower;
    forall k | 0 <= k < |tokens| ensures Spellable(LowerAll(dict), LowerTokens(tokens)[k]) {
      assert Spellable(dict, tokens[k]);
      if tokens[k].Text? { assert LowerAll(dict)[IndexOf(dict, tokens[k].text)] == Lower(tokens[k].text); }
    }
  }
}
