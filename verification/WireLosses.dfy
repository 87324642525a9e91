/** A transition that the encoder sends and the client refuses: over a million strings
(internal/typefacts/wire_transition.go:91-260, crates/typefacts/src/v3.rs:348-362, 450-470). */
module WireLosses {
  import opened Order
  import opened SortedRows
  import opened Facts
  import opened PathTable
  import opened Varints
  import opened PackedTokens
  import opened PackedDictionaries
  import opened PackedPathOps
  import opened PackedSymbolOps
  import opened PackedTransitions
  import opened PackedWriters
  import opened RetainedSymbols
  import opened WireEncoders
  import opened WireDeliveries

  const NAMES: nat := 1_000_001

  /** The i-th one-character name, in order. */
  function Name(i: nat): string
    requires i < NAMES
  {
    [if i + 1 < 0xD800 then (i + 1) as char else (i + 1 + 0x800) as char]
  }

  lemma NamesDiffer(i: nat, j: nat)
    requires i < j < NAMES
    ensures Less(Name(i), Name(j)) && Name(i) != Name(j)
  {
  }

  function NameSet(n: nat): set<string>
    requires n <= NAMES
  {
    if n == 0 then {} else NameSet(n - 1) + {Name(n - 1)}
  }

  predicate Named(text: string, n: nat)
    requires n <= NAMES
  {
    exists i :: 0 <= i < n && Name(i) == text
  }

  lemma NamedNext(text: string, n: nat)
    requires 0 < n <= NAMES
    ensures Named(text, n) <==> Named(text, n - 1) || text == Name(n - 1)
    ensures !Named(Name(n - 1), n - 1)
  {
    forall i | 0 <= i < n - 1 ensures Name(i) != Name(n - 1) { NamesDiffer(i, n - 1); }
    hide Name;
  }

  lemma {:induction false} NameSetIs(n: nat)
    requires n <= NAMES
    ensures |NameSet(n)| == n
    ensures forall text :: text in NameSet(n) <==> Named(text, n)
  {
    if n > 0 {
      NameSetIs(n - 1);
      var before, name := NameSet(n - 1), Name(n - 1);
      assert NameSet(n) == before + {name};
      hide Name, Named, NameSet;
      forall text ensures text in NameSet(n) <==> Named(text, n) { NamedNext(text, n); }
      NamedNext(name, n);
    }
  }

  /** Some row has the key. */
  ghost predicate Keyed<V>(rows: seq<Row<V>>, text: string) {
    exists k :: 0 <= k < |rows| && rows[k].key == text
  }

  lemma KeyedNamed<V>(rows: seq<Row<V>>, text: string, n: nat)
    requires n <= NAMES && forall k :: 0 <= k < |rows| ==> Named(rows[k].key, n)
    ensures Keyed(rows, text) ==> Named(text, n)
  {
    hide Named;
  }

  /** Removals at the first `paths` names and of the symbols with the next `symbols` names. */
  function Crowded(identity: Identity, paths: nat, symbols: nat): Transition
    requires paths + symbols <= NAMES
  {
    Transition(identity,
      seq(paths, (k: int) requires 0 <= k < paths => Row(Name(k), PathOp(Remove, Unchanged, Unchanged))),
      seq(symbols, (k: int) requires 0 <= k < symbols => Row(Name(paths + k), RemoveSymbol)))
  }

  lemma CrowdedFit(identity: Identity, paths: nat, symbols: nat)
    requires paths + symbols <= NAMES && identity.mode == Delta
    ensures Fit(Crowded(identity, paths, symbols))
  {
    var t := Crowded(identity, paths, symbols);
    forall i, j | 0 <= i < j < paths ensures Less(t.paths[i].key, t.paths[j].key) { NamesDiffer(i, j); }
    forall k | 0 < k < symbols ensures OpLess(t.symbols[k - 1], t.symbols[k]) { NamesDiffer(paths + k - 1, paths + k); }
    forall k | 0 <= k < paths ensures PathOpFits(t.paths[k]) && SlotsFit(Delta, t.paths[k].value) {
      assert t.paths[k].key == Name(k);
    }
    forall k | 0 <= k < symbols ensures t.symbols[k].key != "" && EditFits(Delta, t.symbols[k].value) {
      assert t.symbols[k].key == Name(paths + k);
    }
    hide Less, PathOpFits, SlotsFit, EditFits, OpLess, Name;
  }

  lemma {:induction false} PathTexts(schema: nat, ops: seq<Row<PathOp>>, text: string)
    requires forall k :: 0 <= k < |ops| ==> ops[k].value == PathOp(Remove, Unchanged, Unchanged)
    requires HasText(PathOpsTokens(schema, ops), text)
    ensures Keyed(ops, text)
  {
    if ops == [] {
      assert false;
    } else {
      var first, rest := PathOpTokens(schema, ops[0]), PathOpsTokens(schema, ops[1..]);
      assert first == [Text(ops[0].key, 1, 0), Num(SlotBits(ops[0].value))];
      hide PathOpTokens, SlotBits;
      TextIn(first, rest, text);
      if HasText(rest, text) {
        PathTexts(schema, ops[1..], text);
        var k :| 0 <= k < |ops[1..]| && ops[1..][k].key == text;
        assert ops[k + 1].key == text;
      }
    }
  }

  lemma {:induction false} SymbolTexts(mode: Mode, ops: seq<Row<SymbolEdit>>, text: string)
    requires forall k :: 0 <= k < |ops| ==> ops[k].value == RemoveSymbol
    requires HasText(SymbolOpsTokens(mode, ops), text)
    ensures Keyed(ops, text)
  {
    if ops == [] {
      assert false;
    } else {
      var first, rest := SymbolOpTokens(mode, ops[0]), SymbolOpsTokens(mode, ops[1..]);
      assert first == [HeaderToken(mode, ops[0])];
      TextIn(first, rest, text);
      if HasText(rest, text) {
        SymbolTexts(mode, ops[1..], text);
        var k :| 0 <= k < |ops[1..]| && ops[1..][k].key == text;
        assert ops[k + 1].key == text;
      }
    }
  }

  lemma TextIn(a: seq<Token>, b: seq<Token>, text: string)
    requires HasText(a + b, text)
    ensures HasText(a, text) || HasText(b, text)
  {
    var k :| 0 <= k < |a + b| && (a + b)[k].Text? && (a + b)[k].text == text;
    if k < |a| {
      assert a[k] == (a + b)[k];
    } else {
      assert b[k - |a|] == (a + b)[k];
    }
  }

  /** The strings of such a transition: the header's two and the names. */
  lemma CrowdedTexts(identity: Identity, paths: nat, symbols: nat, text: string)
    requires paths + symbols <= NAMES
    requires IsKey(Crowded(identity, paths, symbols), text) || HasText(RowTokens(Crowded(identity, paths, symbols)), text)
    ensures text in {identity.projectID, identity.baseStateToken} || text in NameSet(paths + symbols)
  {
    hide Named, IsKey, RowTokens, Crowded, HasText, Keyed, NameSet;
    var t := Crowded(identity, paths, symbols);
    KeysNamed(identity, paths, symbols);
    if IsKey(t, text) { KeyWritten(t, text); }
    RowTexts(t, text);
    KeyedNamed(t.paths, text, paths + symbols);
    KeyedNamed(t.symbols, text, paths + symbols);
    NameSetIs(paths + symbols);
  }

  lemma KeysNamed(identity: Identity, paths: nat, symbols: nat)
    requires paths + symbols <= NAMES
    ensures var t := Crowded(identity, paths, symbols);
      && t.identity == identity
      && (forall k :: 0 <= k < |t.paths| ==> t.paths[k].value == PathOp(Remove, Unchanged, Unchanged) && Named(t.paths[k].key, paths + symbols))
      && (forall k :: 0 <= k < |t.symbols| ==> t.symbols[k].value == RemoveSymbol && Named(t.symbols[k].key, paths + symbols))
  {
    hide Name;
    var t := Crowded(identity, paths, symbols);
    forall k | 0 <= k < |t.paths| ensures Named(t.paths[k].key, paths + symbols) { assert t.paths[k].key == Name(k); }
    forall k | 0 <= k < |t.symbols| ensures Named(t.symbols[k].key, paths + symbols) { assert t.symbols[k].key == Name(paths + k); }
  }

  lemma RowTexts(t: Transition, text: string)
    requires forall k :: 0 <= k < |t.paths| ==> t.paths[k].value == PathOp(Remove, Unchanged, Unchanged)
    requires forall k :: 0 <= k < |t.symbols| ==> t.symbols[k].value == RemoveSymbol
    requires HasText(RowTokens(t), text)
    ensures text == t.identity.projectID || text == t.identity.baseStateToken
      || Keyed(t.paths, text) || Keyed(t.symbols, text)
  {
    hide HasText, PathOpsTokens, SymbolOpsTokens;
    var identity := t.identity;
    var project, token := [Text(identity.projectID, 1, 0)], [Text(identity.baseStateToken, 1, 0)];
    var pathRows, symbolRows := PathRowsTokens(identity.schema, t.paths), SymbolRowsTokens(identity.mode, t.symbols);
    TextIn(project, token + (pathRows + symbolRows), text);
    OneText(identity.projectID, text);
    OneText(identity.baseStateToken, text);
    if !HasText(project, text) {
      TextIn(token, pathRows + symbolRows, text);
      if !HasText(token, text) {
        TextIn(pathRows, symbolRows, text);
        NoText(t.paths, text);
        NoText(t.symbols, text);
        if HasText(pathRows, text) {
          TextIn([Length(t.paths)], PathOpsTokens(identity.schema, t.paths), text);
          PathTexts(identity.schema, t.paths, text);
        } else {
          TextIn([Length(t.symbols)], SymbolOpsTokens(identity.mode, t.symbols), text);
          SymbolTexts(identity.mode, t.symbols, text);
        }
      }
    }
  }

  lemma OneText(own: string, text: string)
    ensures HasText([Text(own, 1, 0)], text) ==> text == own
  {
  }

  lemma NoText<T>(xs: seq<T>, text: string)
    ensures !HasText([Length(xs)], text)
  {
  }

  /** So its dictionary has a string for each name, and at most three more. */
  lemma CrowdedSize(identity: Identity, paths: nat, symbols: nat, strings: Dictionary)
    requires paths + symbols <= NAMES && DictionaryOf(strings, Crowded(identity, paths, symbols))
    ensures paths + symbols + 1 <= |strings| <= paths + symbols + 3
  {
    var t, n := Crowded(identity, paths, symbols), paths + symbols;
    var names, all := NameSet(n), SetOf(strings);
    NameSetIs(n);
    DistinctOf(strings, t);
    DistinctSize(strings);
    assert "" in all && "" !in names;
    forall text | text in names ensures text in all { NameInterned(identity, paths, symbols, strings, text); }
    forall text | text in all ensures text in names + {"", identity.projectID, identity.baseStateToken} {
      assert text in strings;
      if text != "" { CrowdedTexts(identity, paths, symbols, text); }
    }
    hide *;
    SubsetCount(names + {""}, all);
    SubsetCount(all, names + {"", identity.projectID, identity.baseStateToken});
    assert |names + {""}| == n + 1;
    ThreeMore(names, "", identity.projectID, identity.baseStateToken);
  }

  lemma ThreeMore(names: set<string>, a: string, b: string, c: string)
    ensures |names + {a, b, c}| <= |names| + 3
  {
    assert names + {a, b, c} == ((names + {a}) + {b}) + {c};
    AddOne(names, a);
    AddOne(names + {a}, b);
    AddOne((names + {a}) + {b}, c);
  }

  lemma AddOne(names: set<string>, a: string)
    ensures |names + {a}| <= |names| + 1
  {
    if a in names { assert names + {a} == names; }
  }

  lemma NamedKey(identity: Identity, paths: nat, symbols: nat, text: string)
    requires paths + symbols <= NAMES && Named(text, paths + symbols)
    ensures IsKey(Crowded(identity, paths, symbols), text)
  {
    hide Name;
    var t := Crowded(identity, paths, symbols);
    var i :| 0 <= i < paths + symbols && Name(i) == text;
    if i < paths {
      assert t.paths[i].key == text;
    } else {
      assert t.symbols[i - paths].key == text;
    }
  }

  lemma NameInterned(identity: Identity, paths: nat, symbols: nat, strings: Dictionary, text: string)
    requires paths + symbols <= NAMES && DictionaryOf(strings, Crowded(identity, paths, symbols)) && text in NameSet(paths + symbols)
    ensures text in strings
  {
    var t, n := Crowded(identity, paths, symbols), paths + symbols;
    NameSetIs(n);
    hide Name, Named, RowTokens, IsKey, Crowded, Distinct;
    NamedKey(identity, paths, symbols, text);
    KeyWritten(t, text);
    var tokens := RowTokens(t);
    var k :| 0 <= k < |tokens| && tokens[k].Text? && tokens[k].text == text;
    assert PackedTokens.Spellable(strings, tokens[k]);
  }

  lemma NamedCodable(text: string, n: nat)
    requires n <= NAMES && Named(text, n)
    ensures Codable(text)
  {
    assert |text| == 1;
    Utf8Length(text);
  }

  /** Half a million and one path removals with half a million symbol removals: each list is within the limit, the
  dictionary is not, and the client never has it. */
  method CrowdedIsLost(identity: Identity, stream: Option<Stream>) returns (sent: Transition, delivery: Delivery)
    requires Sendable(identity) && identity.mode == Delta && Codable(identity.projectID) && Codable(identity.baseStateToken)
    ensures sent.identity == identity && Fit(sent) && Carriable(sent)
    ensures |sent.paths| <= PACKED_COLLECTION_LIMIT && |sent.symbols| <= PACKED_COLLECTION_LIMIT
    ensures delivery.Lost?
  {
    sent := Crowded(identity, 500_001, 500_000);
    CrowdedFit(identity, 500_001, 500_000);
    CrowdedCarriable(identity, 500_001, 500_000);
    CrowdedOver(identity, 500_001, 500_000);
    hide Fit, Carriable, Sendable, Codable, WithinLimits;
    delivery := Deliver(sent, stream);
  }

  lemma CrowdedCarriable(identity: Identity, paths: nat, symbols: nat)
    requires paths + symbols <= NAMES && Codable(identity.projectID) && Codable(identity.baseStateToken)
    ensures Carriable(Crowded(identity, paths, symbols))
  {
    var t := Crowded(identity, paths, symbols);
    hide Named, Codable, IsKey, HasText, RowTokens, DictionaryOf, NameSet;
    NameSetIs(paths + symbols);
    forall text | IsKey(t, text) || HasText(RowTokens(t), text) ensures Codable(text) {
      CrowdedTexts(identity, paths, symbols, text);
      if text in NameSet(paths + symbols) { NamedCodable(text, paths + symbols); }
    }
    forall strings | DictionaryOf(strings, t) ensures |strings| < U64_LIMIT { CrowdedSize(identity, paths, symbols, strings); }
  }

  lemma CrowdedOver(identity: Identity, paths: nat, symbols: nat)
    requires PACKED_COLLECTION_LIMIT <= paths + symbols <= NAMES
    ensures !WithinLimits(Crowded(identity, paths, symbols))
  {
    hide DictionaryOf;
    forall strings | DictionaryOf(strings, Crowded(identity, paths, symbols)) ensures |strings| > PACKED_COLLECTION_LIMIT {
      CrowdedSize(identity, paths, symbols, strings);
    }
  }
}
