/** The producer's row writer (internal/typefacts/wire_transition_codec.go:34-131,
internal/typefacts/protocolv3_compact.go:80-101): varint-coded rows over a growing
dictionary, kept in one buffer or streamed out in chunks.

The tokens are the specification: whatever was written, flushed chunks and buffer together
are the bytes of the tokens under the dictionary as it now is. */
module PackedWriters {
  import opened Order
  import opened SortedRows
  import opened Facts
  import opened Varints
  import opened PackedTokens
  import opened PackedLocations

  // --- the string table ---

  function Interned(values: Dictionary, text: string): Dictionary {
    if text in values then values else values + [text]
  }

  ghost predicate TableFormed(indexes: map<string, nat>, values: Dictionary) {
    && values != [] && values[0] == "" && Distinct(values)
    && (forall text :: text in indexes <==> text in values)
    && (forall text :: text in indexes ==> indexes[text] == IndexOf(values, text))
  }

  lemma {:induction false} IndexOfNew(values: Dictionary, text: string)
    requires text !in values
    ensures IndexOf(values + [text], text) == |values|
  {
    if values != [] {
      assert (values + [text])[1..] == values[1..] + [text];
      IndexOfNew(values[1..], text);
    }
  }

  lemma InternedFormed(indexes: map<string, nat>, values: Dictionary, text: string)
    requires TableFormed(indexes, values) && text !in values
    ensures TableFormed(indexes[text := |values|], values + [text])
  {
    hide IndexOf;
    var more := values + [text];
    IndexOfNew(values, text);
    forall earlier | earlier in values ensures IndexOf(more, earlier) == IndexOf(values, earlier) {
      IndexStable(values, more, earlier);
    }
    forall t ensures t in more <==> t in values || t == text { InAppended(values, text, t); }
  }

  lemma InAppended(values: Dictionary, text: string, t: string)
    ensures t in values + [text] <==> t in values || t == text
  {
  }

  class StringTable {
    var indexes: map<string, nat>
    var values: Dictionary

    ghost predicate Valid()
      reads this
    {
      TableFormed(indexes, values)
    }

    constructor ()
      ensures Valid() && values == [""]
    {
      indexes, values := map["" := 0], [""];
      new;
      assert IndexOf([""], "") == 0;
    }

    /** First occurrences get the next index; an index once given stays. */
    method Intern(text: string) returns (index: nat)
      requires Valid()
      modifies this
      ensures Valid() && values == Interned(old(values), text)
      ensures text in values && index == IndexOf(values, text)
    {
      hide TableFormed, Interned, IndexOf;
      TableParts(indexes, values, text);
      if text in indexes {
        index := indexes[text];
      } else {
        index := |values|;
        InternedFormed(indexes, values, text);
        IndexOfNew(values, text);
        InAppended(values, text, text);
        indexes := indexes[text := index];
        values := values + [text];
      }
      InternedIs(old(values), text);
    }

    /** `resetDictionary`: only the empty string stays. */
    method Reset()
      modifies this
      ensures Valid() && values == [""]
    {
      indexes, values := map["" := 0], [""];
      assert IndexOf([""], "") == 0;
    }
  }

  lemma TableParts(indexes: map<string, nat>, values: Dictionary, text: string)
    requires TableFormed(indexes, values)
    ensures (text in indexes <==> text in values) && (text in indexes ==> indexes[text] == IndexOf(values, text))
  {
  }

  lemma InternedIs(values: Dictionary, text: string)
    ensures Interned(values, text) == if text in values then values else values + [text]
    ensures values <= Interned(values, text)
  {
  }

  // --- the written state ---

  function Joined(chunks: seq<seq<byte>>): seq<byte> {
    if chunks == [] then [] else Joined(chunks[..|chunks| - 1]) + chunks[|chunks| - 1]
  }

  ghost predicate HasText(tokens: seq<Token>, text: string) {
    exists k :: 0 <= k < |tokens| && tokens[k].Text? && tokens[k].text == text
  }

  /** Nothing is interned but the empty string, announced keys and texts written. */
  ghost predicate Sourced(values: Dictionary, keys: set<string>, tokens: seq<Token>) {
    forall text :: text in values ==> text == "" || text in keys || HasText(tokens, text)
  }

  ghost predicate Written(values: Dictionary, keys: set<string>, tokens: seq<Token>, sent: seq<byte>, bytes: seq<byte>, failed: bool) {
    && Spelled(values, tokens) && Sourced(values, keys, tokens)
    && (!failed ==> sent + bytes == Bytes(values, tokens))
  }

  lemma SourcedMore(values: Dictionary, keys: set<string>, tokens: seq<Token>, token: Token)
    requires Sourced(values, keys, tokens)
    ensures Sourced(values, keys, tokens + [token])
  {
    forall text | text in values ensures text == "" || text in keys || HasText(tokens + [token], text) {
      if HasText(tokens, text) {
        var k :| 0 <= k < |tokens| && tokens[k].Text? && tokens[k].text == text;
        assert (tokens + [token])[k] == tokens[k];
      }
    }
  }

  lemma SpelledMore(values: Dictionary, tokens: seq<Token>, token: Token)
    requires Spelled(values, tokens) && Spellable(values, token)
    ensures Spelled(values, tokens + [token])
  {
    hide Spellable;
  }

  /** One more token, nothing newly interned. */
  lemma WrittenMore(values: Dictionary, keys: set<string>, tokens: seq<Token>, sent: seq<byte>, bytes: seq<byte>, failed: bool, token: Token)
    requires Written(values, keys, tokens, sent, bytes, failed) && Spellable(values, token)
    ensures Written(values, keys, tokens + [token], sent, bytes + TokenBytes(values, token), failed)
  {
    hide Spelled, Sourced, Spellable, Bytes, TokenBytes;
    SpelledMore(values, tokens, token);
    SourcedMore(values, keys, tokens, token);
    BytesConcat(values, tokens, [token]);
    OneToken(values, token);
    assert sent + (bytes + TokenBytes(values, token)) == (sent + bytes) + TokenBytes(values, token);
  }

  /** One more string, which the next token or a key accounts for. */
  lemma WrittenInterned(values: Dictionary, keys: set<string>, tokens: seq<Token>, sent: seq<byte>, bytes: seq<byte>, failed: bool, text: string)
    requires Written(values, keys, tokens, sent, bytes, failed)
    ensures Written(Interned(values, text), keys + {text}, tokens, sent, bytes, failed)
  {
    hide Bytes, Spelled, HasText;
    InternedIs(values, text);
    BytesStable(values, Interned(values, text), tokens);
  }

  lemma WrittenText(values: Dictionary, keys: set<string>, tokens: seq<Token>, sent: seq<byte>, bytes: seq<byte>, failed: bool, token: Token)
    requires Written(values, keys, tokens, sent, bytes, failed) && token.Text? && token.scale <= 4 && token.tag < 4
    ensures var more := Interned(values, token.text);
      Written(more, keys, tokens + [token], sent, bytes + TokenBytes(more, token), failed)
  {
    hide Bytes, Spelled, HasText, TokenBytes;
    var more := Interned(values, token.text);
    InternedIs(values, token.text);
    InAppended(values, token.text, token.text);
    WrittenInterned(values, keys, tokens, sent, bytes, failed, token.text);
    WrittenMore(more, keys + {token.text}, tokens, sent, bytes, failed, token);
    assert HasText(tokens + [token], token.text) by {
      assert (tokens + [token])[|tokens|] == token;
      hide *;
      HasAt(tokens + [token], |tokens|);
    }
  }

  lemma HasAt(tokens: seq<Token>, k: nat)
    requires k < |tokens| && tokens[k].Text?
    ensures HasText(tokens, tokens[k].text)
  {
  }

  lemma WrittenFlushed(values: Dictionary, keys: set<string>, tokens: seq<Token>, chunks: seq<seq<byte>>, bytes: seq<byte>, failed: bool)
    requires Written(values, keys, tokens, Joined(chunks), bytes, failed)
    ensures Joined(chunks + [bytes]) == Joined(chunks) + bytes
    ensures Written(values, keys, tokens, Joined(chunks + [bytes]), [], failed)
    ensures Written(values, keys, tokens, Joined(chunks), [], true)
  {
    hide Spelled, Sourced, Bytes;
    assert (chunks + [bytes])[..|chunks|] == chunks;
  }

  lemma WrittenStart(values: Dictionary, keys: set<string>)
    requires forall text :: text in values ==> text == "" || text in keys
    ensures Written(values, keys, [], [], [], false)
  {
  }

  /** Rows go out in chunks of at least `limit` bytes to an arena that takes `room` of them. */
  datatype Stream = Stream(limit: nat, room: nat)

  class PackedWriter {
    const dict: StringTable
    const stream: Option<Stream>
    var bytes: seq<byte>
    var chunks: seq<seq<byte>>
    var flushed: nat
    var failed: bool
    ghost var tokens: seq<Token>
    ghost const keys: set<string>

    ghost predicate Valid()
      reads this, dict
    {
      && dict.Valid()
      && Written(dict.values, keys, tokens, Joined(chunks), bytes, failed)
      && flushed == |Joined(chunks)|
      && (stream.None? ==> !failed && chunks == [])
    }

    /** The keys are the strings already interned. */
    constructor (table: StringTable, stream: Option<Stream>)
      requires table.Valid()
      ensures Valid() && dict == table && this.stream == stream && tokens == [] && fresh(this)
      ensures keys == set text | text in table.values
    {
      dict, this.stream := table, stream;
      bytes, chunks, flushed, failed, tokens := [], [], 0, false, [];
      keys := set text | text in table.values;
      new;
      WrittenStart(dict.values, keys);
    }

    /** A full buffer goes out; once the arena has refused a chunk, nothing more is sent. */
    method MaybeFlush()
      requires Valid()
      modifies this
      ensures Valid() && tokens == old(tokens) && (old(failed) ==> failed)
    {
      hide *;
      if stream.None? || failed || |bytes| < stream.value.limit { return; }
      Flush();
    }

    method Flush()
      requires Valid() && stream.Some? && !failed
      modifies this
      ensures Valid() && tokens == old(tokens) && bytes == []
    {
      hide TableFormed, Written, Joined;
      WrittenFlushed(dict.values, keys, tokens, chunks, bytes, failed);
      if |chunks| < stream.value.room {
        chunks, flushed := chunks + [bytes], flushed + |bytes|;
      } else {
        failed := true;
      }
      bytes := [];
    }

    /** The last partial chunk. Unless the arena refused one, all the bytes are out. */
    method Finish() returns (ok: bool)
      requires Valid()
      modifies this
      ensures Valid() && tokens == old(tokens) && (ok <==> !failed)
      ensures ok && stream.Some? ==> bytes == [] && Joined(chunks) == Bytes(dict.values, tokens)
      ensures stream.None? ==> ok && bytes == Bytes(dict.values, tokens)
    {
      assert Joined([]) == [];
      hide TableFormed, Spelled, Sourced, Joined, Bytes;
      if !failed && stream.Some? && bytes != [] { Flush(); }
      ok := !failed;
    }

    method U64(value: nat)
      requires Valid() && value < U64_LIMIT
      modifies this
      ensures Valid() && tokens == old(tokens) + [Num(value)]
    {
      hide TableFormed, Written, Joined, Encode;
      WrittenMore(dict.values, keys, tokens, Joined(chunks), bytes, failed, Num(value));
      bytes := bytes + Encode(value);
      tokens := tokens + [Num(value)];
      MaybeFlush();
    }

    method SignedDelta(from: int, to: int)
      requires Valid()
      modifies this
      ensures Valid() && tokens == old(tokens) + [Difference(from, to)]
    {
      assert ZigZag(Signed(to - from)) < U64_LIMIT;
      hide *;
      DifferenceIs(from, to);
      U64(ZigZag(Signed(to - from)));
    }

    method Raw(value: seq<byte>)
      requires Valid()
      modifies this
      ensures Valid() && tokens == old(tokens) + [Token.Raw(value)]
    {
      hide TableFormed, Written, Joined;
      WrittenMore(dict.values, keys, tokens, Joined(chunks), bytes, failed, Token.Raw(value));
      bytes := bytes + value;
      tokens := tokens + [Token.Raw(value)];
      MaybeFlush();
    }

    /** An interned string's index, scaled and tagged. */
    method Index(text: string, scale: nat, tag: nat)
      requires Valid() && scale <= 4 && tag < 4
      modifies this, dict
      ensures Valid() && tokens == old(tokens) + [Token.Text(text, scale, tag)]
    {
      hide TableFormed, Written, Joined, Encode, Interned, IndexOf;
      WrittenText(dict.values, keys, tokens, Joined(chunks), bytes, failed, Token.Text(text, scale, tag));
      var index := dict.Intern(text);
      bytes := bytes + Encode(index * scale + tag);
      tokens := tokens + [Token.Text(text, scale, tag)];
      MaybeFlush();
    }

    method Text(text: string)
      requires Valid()
      modifies this, dict
      ensures Valid() && tokens == old(tokens) + [Token.Text(text, 1, 0)]
    {
      hide *;
      Index(text, 1, 0);
    }

    method Count<T>(xs: seq<T>)
      requires Valid()
      modifies this
      ensures Valid() && tokens == old(tokens) + [Length(xs)]
    {
      hide *;
      LengthIs(xs);
      U64(Unsigned(|xs|));
    }

    /** `internalLocation`. */
    method InternalLocation(location: Location, state: LocationState) returns (next: LocationState)
      requires Valid()
      modifies this, dict
      ensures Valid() && tokens == old(tokens) + LocationTokens(location, state) && next == StateAfter(location)
    {
      hide *;
      LocationIs(location, state, tokens);
      if state.After? && state.path == location.path {
        U64(1);
        SignedDelta(state.start, location.startByte);
      } else {
        Index(location.path, 2, 0);
        U64(Unsigned(location.startByte));
      }
      U64(Unsigned(location.endByte - location.startByte));
      next := After(location.path, location.startByte);
    }

    method InternalLocations(locations: seq<Location>)
      requires Valid()
      modifies this, dict
      ensures Valid() && tokens == old(tokens) + LocationsTokens(locations)
    {
      hide *;
      Count(locations);
      var state := Fresh;
      LocationsStart(locations, old(tokens));
      for i := 0 to |locations|
        invariant Valid()
        invariant tokens + LocationListTokens(locations[i..], state) == old(tokens) + LocationsTokens(locations)
      {
        LocationsNext(locations, i, state, tokens);
        state := InternalLocation(locations[i], state);
      }
      LocationsEnd(locations, state, tokens);
    }

    method InternalDeclarations(declarations: seq<Declaration>)
      requires Valid()
      modifies this, dict
      ensures Valid() && tokens == old(tokens) + DeclarationsTokens(declarations)
    {
      hide *;
      Count(declarations);
      var state := Fresh;
      DeclarationsStart(declarations, old(tokens));
      for i := 0 to |declarations|
        invariant Valid()
        invariant tokens + DeclarationListTokens(declarations[i..], state) == old(tokens) + DeclarationsTokens(declarations)
      {
        DeclarationsNext(declarations, i, state, tokens);
        Text(declarations[i].name);
        Text(declarations[i].kind);
        state := InternalLocation(declarations[i].location, state);
      }
      DeclarationsEnd(declarations, state, tokens);
    }

    method InternalTypeDescriptor(descriptor: TypeDescriptor)
      requires Valid()
      modifies this, dict
      ensures Valid() && tokens == old(tokens) + DescriptorTokens(descriptor)
    {
      hide *;
      DescriptorIs(descriptor, tokens);
      Text(descriptor.text);
      Text(descriptor.originModule);
      InternalDeclarations(descriptor.aliasDeclarations);
    }
  }

  // --- the token lists as the loops reach them ---

  lemma DifferenceIs(from: int, to: int)
    ensures Difference(from, to) == Num(ZigZag(Signed(to - from)))
  {
  }

  lemma LengthIs<T>(xs: seq<T>)
    ensures Length(xs) == Num(Unsigned(|xs|))
  {
  }

  lemma LocationIs(location: Location, state: LocationState, before: seq<Token>)
    ensures var length := [Num(Unsigned(location.endByte - location.startByte))];
      before + LocationTokens(location, state)
      == if state.After? && state.path == location.path then before + [Num(1)] + [Difference(state.start, location.startByte)] + length
         else before + [Token.Text(location.path, 2, 0)] + [Num(Unsigned(location.startByte))] + length
    ensures StateAfter(location) == After(location.path, location.startByte)
    ensures 1 < U64_LIMIT
  {
  }

  lemma LocationsStart(locations: seq<Location>, before: seq<Token>)
    ensures before + [Length(locations)] + LocationListTokens(locations[0..], Fresh) == before + LocationsTokens(locations)
  {
    assert locations[0..] == locations;
  }

  lemma LocationsNext(locations: seq<Location>, i: nat, state: LocationState, before: seq<Token>)
    requires i < |locations|
    ensures before + LocationListTokens(locations[i..], state)
         == before + LocationTokens(locations[i], state) + LocationListTokens(locations[i + 1..], StateAfter(locations[i]))
  {
    hide LocationTokens;
    assert locations[i..][1..] == locations[i + 1..];
  }

  lemma LocationsEnd(locations: seq<Location>, state: LocationState, before: seq<Token>)
    ensures before + LocationListTokens(locations[|locations|..], state) == before
  {
  }

  lemma DeclarationsStart(declarations: seq<Declaration>, before: seq<Token>)
    ensures before + [Length(declarations)] + DeclarationListTokens(declarations[0..], Fresh) == before + DeclarationsTokens(declarations)
  {
    assert declarations[0..] == declarations;
  }

  lemma DeclarationsNext(declarations: seq<Declaration>, i: nat, state: LocationState, before: seq<Token>)
    requires i < |declarations|
    ensures var declaration := declarations[i];
      before + DeclarationListTokens(declarations[i..], state)
      == before + [Token.Text(declaration.name, 1, 0)] + [Token.Text(declaration.kind, 1, 0)]
        + LocationTokens(declaration.location, state) + DeclarationListTokens(declarations[i + 1..], StateAfter(declaration.location))
  {
    hide LocationTokens;
    assert declarations[i..][1..] == declarations[i + 1..];
  }

  lemma DeclarationsEnd(declarations: seq<Declaration>, state: LocationState, before: seq<Token>)
    ensures before + DeclarationListTokens(declarations[|declarations|..], state) == before
  {
  }

  lemma DescriptorIs(descriptor: TypeDescriptor, before: seq<Token>)
    ensures before + DescriptorTokens(descriptor)
         == before + [Token.Text(descriptor.text, 1, 0)] + [Token.Text(descriptor.originModule, 1, 0)]
           + DeclarationsTokens(descriptor.aliasDeclarations)
  {
    hide DeclarationsTokens;
  }
}
