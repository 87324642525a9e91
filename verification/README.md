# Type Facts retained sessions

A Dafny model of the retained-session engine: a Go producer that recomputes only what an edit or
a demand change can have moved, a packed wire, and a Rust client that patches its own copy of the
table. The central claim is that the cheap path always gives what a full recomputation would
give; where it does not, the model says exactly when.

`dafny verify dfyconfig.toml` checks the whole project.

## How it fits together

The TypeScript checker is an oracle with a contract (`Oracle.dfy`): a path's rows move only if the
path is affected, a run depends on the suppression set only through its own descriptor symbols,
and durable answers name durable symbols. Over it stand five layers.

- **Session engine.** `Engine.dfy` says on values what each session step computes and `SessionRuns.dfy`
  proves the run theorem. The code as written, with its fields and loops, is in `Contributions`,
  `ContributionStore`, `DemandRuns`, `DemandStore`, `DemandClosure` and `ProducerSession`; each method there is
  proved to compute the step `Engine` names. `ClientSession` is the client's half of an analyze.
- **Transition.** `TransitionPaths`, `TransitionPlans`, `TransitionSymbols`, `TransitionReferences` and
  `TransitionDelta` plan a delta; the `Packed*` files, `Varint` and `Utf8` are the codec with its round trips;
  `PackedWriter`, `PackedRowWriter` and `WireEncoder` are the encoder as it runs; `DecodedTransition` says what
  any accepted frame is; `PackedIndex`, `RetainedPaths`, `RetainedSymbols`, `SymbolDelta` and `SymbolPatches` are
  the client's persistent table. `WireDelivery` joins them: plan, encode, decode, apply.
- **Symbol closure.** `SymbolPrograms` is the specification (least alias-closed sets). The producer is in
  `ClosureBuilder`, `ClosureReferences`, `ClosurePatches`, `ClosureStable`, `SymbolOrder`, `SymbolStore` and
  `SymbolStorePatch`; the client in `ClientClosure`, `ClientPatches`, `ClientSymbols` and `ClientSymbolTable`. The lists
  a client reads are whatever the producer's reference index answers (`Reference*`), which need not be the program's.
  `ClosureSession` joins the two across generations: each of its steps keeps the session's invariant, so over any
  run of updates, rebuilds, forgets and closures the client's symbols are a from-scratch closure as long as each
  closure meets the condition `Close` states.
- **Replay, compact demands.** `ReplayLog` and `ReplaySession`, `Compact*`.
- **Async flow.** `AsyncFlow` is the analysis, `AsyncSemantics` what a body may do, `AsyncReach` an exact account
  of what can happen before an await (`AsyncLoopExact`, `AsyncReachExact`), and `AsyncTheorem` when the analysis is right.

Specification functions are proved about by lemmas; each imperative method is tied to one by its
postcondition.

## Findings

Inputs on which the code does not do what it promises. Each row names the source, a lemma with an
input that shows it, and the exact condition under which the promise holds.

| source | what goes wrong | input | exactly when it is right |
|---|---|---|---|
| internal/typefacts/semantic_demand.go:116-161 | A reset analyze that names no run while a table is current is answered with that table, whose rows were released: the client loses every source and file row. | SessionRuns.ResetWithoutRunsLosesRows | SessionRuns.ResetMirrorsIff |
| crates/typefacts/src/session.rs:1186-1254 | A symbol the table already holds without a reference list becomes due one under an exact delta that does not name it: its list stays empty, because only absent symbols are read. | ClientPatches.NewlyDueListIsLost | ClientPatches.GeneralPathFreshIff; ClientPatches.GuardedPathFresh splits it into a guard the client can test and whole answers |
| crates/typefacts/src/session.rs:1186-1254 | A symbol absent from the table is read from an index that dropped its rows: the empty or partial list answered is stored. | ClientPatches.ReleasedListIsLost, followed through the index by ReferenceLosses.ReleaseLosesRows | ClientPatches.GeneralPathFreshIff, with ReferenceAnswers.AnswerWholeIff for what the index answers |
| crates/typefacts/src/session.rs:1020-1034 | An analyze whose demands are unchanged asks for the changes and a release in one request, before the general path reads its lists. When the delta is not exact every list is then read from a pruned index: an update of many files that moves nothing empties every reference list. | ClosureLosses.PrefetchLosesLists | ClosureSessions.PrefetchedReadIff for one list, ClosureSessions.ClosureSession.Close for the closure |
| internal/typefacts/tsgo/references.go:373-383 | A release drops the rows of every symbol not asked since the release before, and the next query neither rebuilds nor rescans: it is answered with nothing, or with the files rescanned since. | ReferenceLosses.ReleaseLosesRows, ReferenceLosses.RescanIsPartial | ReferenceReleases.ReleasedIsFreshIff, and ReferenceStates.RowsFreshIff for one symbol in any settled index |
| crates/typefacts/src/v3.rs:356-466 | The encoder sends a dictionary or operation list of any length and the client refuses one of more than a million: 500,001 path and 500,000 symbol removals are never received. | WireLosses.CrowdedIsLost | WireDeliveries.Deliver |
| crates/typefacts/src/session.rs:1495-1511 | A batch refused during replay fails the call with the connection open; the next update is accepted by a producer that lacks the later batches. | ReplaySessions.RefusedReplayLosesUpdates | ReplaySessions.InStepIff |
| crates/typefacts/src/session.rs:931-940 | Superseding drops the older overlay of a path although the newer batch carried a lower version: the history ignored it, replay applies it. | ReplayLogs.OlderVersionReplays | ReplayLogs.PathReplaysIff |
| internal/typefacts/tsgo/references.go:302-348 | A broad rebuild merges only the files it scans; a retained file's spans were already given up, so its symbols lose rows. | ReferenceLosses.BroadRebuildLosesRows | ReferenceStates.RebuiltIsFreshIff |
| internal/typefacts/wire_transition_codec.go:188-198 | A hashed ID in upper-case hex comes back in lower case; a transition that has both spellings of one ID is refused whole. | PackedDictionaries.UpperCaseHashIsRespelled | PackedDictionaries.HashedSurvivesIff for one string, PackedSpellings.FrameRespelled for a frame |
| internal/typefacts/wire_transition_rows.go:103-319 | At table schema 3 the writer still sets the runtime value domain flag, which the decoder refuses at that schema. | PackedEntities.FlagsParseIff | PackedEntities.RunRoundTrip |
| internal/typefacts/protocolv3_compact.go:355-448 | The flag-filtered walk accepts a group that expansion refuses: the query path of a row it skips is never looked up. | CompactDemands.DanglingQueryIsSkipped | CompactDemands.FilterIsExpandThenFilter |
| internal/typefacts/tsgo/async_flow.go:391-404 | A finalizer is scanned as if the awaits of its block had completed: `try { await x } finally { f() }`. | AsyncCounterexamples.FinallyMisreports | AsyncTheorems.MisreportsIff |
| internal/typefacts/tsgo/async_flow.go:406-414 | A loop's children are scanned in tree order: the incrementor before the body, a for-of target before the iterated expression. | AsyncCounterexamples.IncrementorMisreports, AsyncCounterexamples.TargetMisreports | AsyncTheorems.MisreportsIff |
| internal/typefacts/tsgo/async_flow.go:339-441 | `continue` in a do-while, a break of a label: the scan goes on past the jump. | AsyncCounterexamples.DoContinueMisreports, AsyncCounterexamples.LabelMisreports | AsyncTheorems.MisreportsIff |
| internal/typefacts/tsgo/async_flow.go:443-503 | A switch break inside a nested statement is not an exit. | AsyncCounterexamples.NestedBreakMisreports | AsyncTheorems.MisreportsIff |
| internal/typefacts/tsgo/async_flow.go:375-386 | Logical assignment, a skipped optional link and a default initializer are scanned as if they always ran. | AsyncCounterexamples.LogicalAssignMisreports, AsyncCounterexamples.OptionalLinkMisreports, AsyncCounterexamples.DefaultMisreports | AsyncTheorems.MisreportsIff |
| internal/typefacts/tsgo/async_flow.go:437-441 | A binding pattern is scanned before the initializer it runs after: `const { a = await x } = f()`. | AsyncCounterexamples.DeclarationMisreports | AsyncTheorems.MisreportsIff |
| internal/typefacts/tsgo/async_flow.go:343-345 | Accessors and constructors are scanned inline: a getter's `return` makes the enclosing branch unreachable. | AsyncCounterexamples.InlineReturnMisreports | AsyncTheorems.MisreportsIff |

## Model

| member | source | states |
|---|---|---|
| SessionRuns.EveryRunMirrors | internal/typefacts/session.go:83-382 | After any run of updates and analyzes, however they fail, go stale, or reset naming a run, an analyze that succeeds and reaches the client leaves it with exactly the rows of a full rematerialisation of the current groups. |
| SessionRuns.CompletedAnalyze | internal/typefacts/semantic_retained.go:214-597 | One analyze that completes keeps the session invariant and mirrors the new groups over the current program. |
| SessionRuns.ResetMirrorsIff | internal/typefacts/semantic_demand.go:116-161 | A completing reset analyze mirrors the groups if and only if it names a run, no table is current, or the program has no sources. |
| SessionRuns.ResetWithoutRunsLosesRows | internal/typefacts/semantic_demand.go:116-161 | Two reset analyzes of one generation, the second naming nothing: the client ends without the only source row. |
| Freshness.SuppressionFresh | internal/typefacts/semantic_retained.go:389-522 | Every contribution a materialisation uses, kept, recomputed or refreshed, is the answer under the whole structural set, although only those whose descriptors touch the difference of the two unions ran again. |
| Freshness.TableRowsFresh | internal/typefacts/semantic_retained.go:531-569 | Wherever the manifest names a path the table's rows are full ones, so a sparse removal is sent only where the target has no rows. |
| Freshness.CommitKeepsRetention | internal/typefacts/semantic_retained.go:585-588 | After the commit each retained contribution is the answer under the union it records. |
| DemandClosures.DemandClosure.Materialize | internal/typefacts/semantic_retained.go:214-597 | The materialisation as written, loops over groups and caches, yields the specification's table, retained contributions, union and async cache. |
| DemandClosures.DemandClosure.Update | internal/typefacts/closure.go:284-325 | An accepted update advances one generation and evicts the invalidated paths and their direct dependents. |
| ProducerSessions.ProducerSession.Analyze | internal/typefacts/session.go:83-382 | The request as the source runs it, demand transaction, forced full pass and rollback included, answers and leaves behind what the session state machine says: a stale or reused request changes nothing, a failed one restores every demand group in its place, keeps token and header and drops the derived caches. |
| ClientSessions.AnalyzeGroupsMirrors | crates/typefacts/src/session.rs:682-770 | An analyze that succeeds returns the rows of a full rematerialisation of the caller's groups, also when an earlier response was lost and the token no longer matches. |
| Contributions.Prepare | internal/typefacts/retained_contributions.go:80-230 | In-place compaction of the arrays the result arrived in, read and write cursors sharing them, gives the functional merge of adjacent same-location rows, or the refusal of a misaligned result. |
| Contributions.MergedSymbol | internal/typefacts/retained_contributions.go:144-149 | A merged row's symbol is the last one present among the rows of its location. |
| Contributions.MergedUnresolved | internal/typefacts/retained_contributions.go:144-152 | A merged row is unresolved if and only if none of its rows has a symbol and one of them is unresolved. |
| Contributions.MergedFields | internal/typefacts/retained_contributions.go:153-194 | Each optional field of a merged row is the last one present among its rows, independently of the others. |
| Contributions.MergedLocations | internal/typefacts/retained_contributions.go:136-143 | Merging neither drops nor invents a location. |
| Contributions.FullTierResolved | internal/typefacts/retained_contributions.go:144-149 | Every full-tier index names a merged row with a symbol. |
| Contributions.DescriptorSymbolsMeaning | internal/typefacts/retained_contributions.go:200-225 | Descriptor symbols are the sorted distinct symbols of merged rows a descriptor was demanded at. |
| ContributionStores.RetainedContributionStore.Invalidate | internal/typefacts/retained_contributions.go:383-396 | Removes exactly the named paths and their direct dependents; both reverse indexes stay exact inverses without empty buckets. |
| ContributionStores.RetainedContributionStore.Commit | internal/typefacts/retained_contributions.go:413-437 | Leaves exactly the durable groups, with their contributions. |
| DemandStores.Transaction.Rollback | internal/typefacts/session_demands.go:188-216 | Walking the undo log backwards restores the exact group sequence the transaction found. |
| DemandStores.ChangedRuns | internal/typefacts/session_demands.go:250-291 | Grouping a demand list gives one run a path, in path order, on both branches. |
| DemandRuns.SortRunMeaning | internal/typefacts/semantic_demand.go:22-67 | The canonical run is a stable ordered permutation of the demands. |
| ClosureBuilders.ClosureBuilder.CloseSymbols | internal/typefacts/symbol_closure.go:229-546 | Patched or rebuilt, the published store, full tier and reference lists are a from-scratch closure of the program: the least alias-closed sets over the seeds. |
| ClosureBuilders.ClosureBuilder.PatchStableSymbolUniverse | internal/typefacts/symbol_closure.go:118-222 | With unchanged seeds a success publishes exactly what a from-scratch closure of the new program would, and it succeeds if and only if the alias edges held and the delta is exact. |
| ClosureReferences.CloseReferences | internal/typefacts/symbol_closure.go:416-546 | The reference loop gives every symbol due a list its current list, lending the retained ones an exact delta does not name. |
| ClosurePatches.PatchCanonical | internal/typefacts/symbol_closure.go:552-666 | When the store patch succeeds its key set is exactly the reached universe and every row is fresh; counting the rows is enough to know. |
| SymbolOrders.OrderSymbolFacts | internal/typefacts/symbol_closure.go:677-750 | On each of its branches the order is the ID-sorted permutation of the facts. |
| SymbolStorePatches.Patch | internal/typefacts/symbol_store.go:75-144 | The next store holds exactly the patched slots, in order, in non-empty chunks of bounded size, and the chunks counted as shared are the previous ones. |
| SymbolStorePatches.PatchExisting | internal/typefacts/symbol_store.go:149-180 | Refuses an unknown ID; otherwise each chunk keeps its IDs and only touched chunks are copied. |
| SymbolPrograms.FreshRowsUnique | internal/typefacts/symbol_closure.go:229-378 | The published rows are determined: two closures of one program agree. |
| ClientClosures.Reach | crates/typefacts/src/session.rs:1095-1160 | Batched rounds reach exactly the least alias-closed set over the roots. |
| ClientPatches.GeneralPathFreshIff | crates/typefacts/src/session.rs:1071-1268 | Against a fresh table the general path is fresh if and only if every symbol that newly becomes due a list while held without one has an empty list and every list that is read is answered whole. |
| ClientPatches.GuardedPathFresh | crates/typefacts/src/session.rs:1186-1254 | When no held symbol newly enters the reference tier unnamed by the delta, the general path is fresh if and only if the answers are whole; otherwise it can be fresh only because such a list happens to be empty. |
| ClientPatches.NewlyDueListIsLost | crates/typefacts/src/session.rs:1186-1254 | One symbol first demanded without references and then with them: its one reference never arrives. |
| ClientPatches.ReleasedListIsLost | crates/typefacts/src/session.rs:1186-1254 | One symbol absent from the table whose rows the producer dropped: the guard holds and the reference never arrives. |
| ClientSymbols.PatchStable | crates/typefacts/src/session.rs:1270-1423 | Goes ahead if and only if the delta is exact and no invalidated alias edge moved; then every row is the fresh one but for the lists read whole, and the reported changes are exactly the symbols that differ. |
| ClientSymbols.PatchedFreshIff | crates/typefacts/src/session.rs:1327-1378 | So a stable patch leaves the fresh closure if and only if each list it read was answered whole. |
| ClientSymbolTables.SymbolTable.CloseSymbols | crates/typefacts/src/session.rs:1071-1268 | The whole step on the client's fields, path index included, with the exact condition for a fresh closure whatever the producer answers. |
| ClosureSessions.ClosureSession.Update | internal/typefacts/tsgo/project.go:588-614 | An update keeps index and client in step: the next exact delta is measured from the generation last closed and every affected path will have been rescanned. |
| ClosureSessions.ClosureSession.Close | crates/typefacts/src/session.rs:1000-1268 | From a session in step and current, an analyze leaves the client's symbols a from-scratch closure if and only if the stable patch applied, or the index missed no file's spans of a list read and nothing newly due had a list; either way the session stays in step. |
| ClosureSessions.ClosureSession.Abandon | internal/typefacts/session.go:284-298 | An analyze abandoned after its changes were answered keeps the session in step because the producer drops its caches and next sends a full replacement; without that it would be in step if and only if nothing had moved since the last closure. |
| ClosureSessions.PrefetchedReadIff | crates/typefacts/src/session.rs:1020-1034 | After a prefetch a symbol's list is read whole if and only if the delta names it or it was used since the last release, and no spans were missing, or no file mentions it. |
| ClosureSessions.NamedSinceIff | internal/typefacts/tsgo/references.go:170-196 | An exact delta names every move since an earlier closure if and only if it names those made before its own base. |
| ClosureLosses.PrefetchLosesLists | crates/typefacts/src/session.rs:1020-1034 | Cold analyze, an update of many files that changes nothing, an analyze with the same demands: the list is there and then gone, in every program that mentions the symbol. |
| TransitionPlans.FallbackLands | internal/typefacts/wire_transition_diff.go:130-198 | Applying the fallback plan of base and target to base gives target. |
| TransitionPlans.PlanFallback | internal/typefacts/wire_transition_diff.go:130-198 | The merge walk plans one operation for each path whose rows differ, and no other. |
| TransitionPlans.ExactLandsIffCovers | internal/typefacts/wire_transition_diff.go:99-128 | The exact plan gives the target if and only if its manifest covers every differing slot. |
| TransitionPlans.SparseLandsIffCovers | internal/typefacts/wire_transition.go:262-304 | The sparse plan, made without the base rows, gives the target if and only if the base agrees off the manifest. |
| TransitionSymbols.PlanFallbackSymbols | internal/typefacts/wire_transition_diff.go:355-403 | One operation for each symbol that differs, although chunks shared by both tables are skipped whole. |
| TransitionReferences.PlanReferences | internal/typefacts/wire_transition_diff.go:314-345 | One operation for each path whose reference run differs, in path order. |
| TransitionReferences.ExactSymbolsLandIffCovers | internal/typefacts/wire_transition_diff.go:278-309 | The exact symbol plan gives the target symbols if and only if its candidates cover every differing symbol. |
| TransitionDeltas.PlanDelta | internal/typefacts/wire_transition_diff.go:84-97 | The chosen plan reproduces the target if and only if a manifest that was used covers the difference, its symbol operations pass the client's validation, and each operation says what the target holds. |
| Varints.EncodeDecode | crates/typefacts/src/v3.rs:430-450 | The cursor accepts the shortest form of 64-bit values and nothing else. |
| Utf8Text.DecodeEncodeText | crates/typefacts/src/v3.rs:745-755 | A string's bytes decode to the string. |
| PackedDictionaries.DictionaryRoundTrip | internal/typefacts/wire_transition_codec.go:169-207 | A prefix-coded dictionary of codable strings decodes to the same strings in order. |
| PackedDictionaries.HashedSurvivesIff | internal/typefacts/wire_transition_codec.go:188-198 | What a hashed ID comes back as, and that it survives if and only if it is in lower case. |
| PackedSpellings.FrameRespelled | internal/typefacts/wire_transition_codec.go:169-207 | A frame whose dictionary has upper-case hashed IDs is byte for byte that of their lower-case spelling, or refused when two spellings of one ID are both there. |
| PackedSpellings.ArrivesRespelled | crates/typefacts/src/v3.rs:1251-1484 | So the transition arrives as its lower-case respelling, or not at all. |
| PackedLocations.LocationsRoundTrip | internal/typefacts/wire_transition_codec.go:93-115 | Delta-coded locations decode to themselves. |
| PackedEntities.FlagsParseIff | crates/typefacts/src/v3.rs:794-1016 | Written entity flags parse if and only if the schema is not 3 or no runtime value domain is set. |
| PackedEntities.RunRoundTrip | internal/typefacts/wire_transition_rows.go:103-319 | A run decodes to its projection to the table schema exactly when the schema knows every flag it sets. |
| PackedPathOps.PathOpsRoundTrip | crates/typefacts/src/v3.rs:1313-1387 | Ordered path operations come back projected to their schema, in the same order. |
| PackedSymbolOps.SymbolOpsRoundTrip | crates/typefacts/src/v3.rs:1389-1467 | Ordered symbol operations come back as they were. |
| PackedTransitions.TransitionRoundTrip | crates/typefacts/src/v3.rs:1251-1484 | Decoding an encoded transition returns its operations projected to the schema; the only refusal is schema 3 with a runtime value domain. |
| PackedTransitions.CarriedOpsWhole | crates/typefacts/src/v3.rs:794-1016 | From schema 15 on the projection is the identity. |
| WireEncoders.WireEncoder.Encode | internal/typefacts/wire_transition.go:91-260 | Refuses what the source refuses; otherwise prefix and streamed chunks, or the buffered bytes, are the one frame of the transition. |
| WireEncoders.EncodedFrameDecodes | internal/typefacts/wire_transition.go:91-260 | Any frame the encoder makes for a fit transition of codable strings decodes to its projection. |
| DecodedTransitions.DecodedFormed | crates/typefacts/src/v3.rs:1251-1484 | Whatever the bytes, an accepted frame is canonical: paths and symbol operations strictly ordered, runs and reference lists ordered and at their own path, no empty operation, no removal in a full transition. |
| DecodedTransitions.FormedApplies | crates/typefacts/src/retained_table.rs:635-707 | So every accepted frame meets what applying a delta requires of its operations. |
| TransitionFitness.SymbolOpsPass | internal/typefacts/wire_transition_diff.go:278-403 | Planned symbol operations of tables within the wire's limits pass every check of the decoder. |
| TransitionFitness.PathOpsPass | internal/typefacts/wire_transition_diff.go:99-198 | Planned path operations do. |
| WireDeliveries.Deliver | internal/typefacts/wire_transition.go:91-260 | Encode, carry, decode: what arrives is what was sent, and a transition of codable strings arrives if and only if its dictionary and both operation lists have at most a million items. |
| WireLosses.CrowdedIsLost | crates/typefacts/src/v3.rs:356-466 | Half a million path and half a million symbol removals: sent, and never received. |
| WireDeliveries.SendDelta | crates/typefacts/src/retained_table.rs:668-707 | A client that holds the base and is sent the planned delta holds the target, in rows and symbols, if and only if a manifest that was used covers the difference; it gets it if and only if it is within the limits. |
| WireDeliveries.SendAnalyze | internal/typefacts/session.go:225-260 | An analyze of the retained session, planned, encoded, decoded and applied to the packed table, leaves it with the rows of a full rematerialisation. |
| PackedIndexes.Updated | crates/typefacts/src/retained_table.rs:92-131 | One keyed update gives the rows of a sorted map update, keeps leaves non-empty and bounded, and shares every other leaf. |
| RetainedPaths.ApplyPathDelta | crates/typefacts/src/retained_table.rs:731-788 | The linear merge and the sparse leaf copies give the same rows and counts. |
| RetainedPaths.PackedDeltaRefinesClientStep | crates/typefacts/src/retained_table.rs:668-707 | The packed delta refines the session model's map update. |
| SymbolDeltas.ApplySymbolDelta | crates/typefacts/src/retained_table.rs:790-846 | A delta is applied if and only if every reference operation meets a present symbol that is no alias; both forms give the same rows, and a refused one changes nothing. |
| RetainedSymbols.ReplacedReferences | crates/typefacts/src/retained_table.rs:259-272 | Replacing one path's run replaces exactly that path's references of the fact. |
| SymbolPatches.PatchSymbols | crates/typefacts/src/retained_table.rs:405-416 | Each fact replaces its symbol, and the reported IDs are exactly those that moved. |
| ReferenceStates.DeltaCovers | internal/typefacts/tsgo/references.go:42-103 | In a settled index with an exact delta, a symbol whose spans differ anywhere from those at the base is in the changed set. |
| ReferenceStates.RowsFreshIff | internal/typefacts/tsgo/references.go:198-256 | In any settled index one symbol's rows are those of a fresh build if and only if no file's spans of it are missing. |
| ReferenceStates.WholeIsFresh | internal/typefacts/tsgo/references.go:198-258 | While nothing was dropped, every symbol's patched rows are those of a fresh build. |
| ReferenceStates.RebuiltIsFreshIff | internal/typefacts/tsgo/references.go:302-348 | After a rebuild that kept files, one symbol's rows are complete if and only if no kept file mentions it. |
| ReferenceReleases.ReleasedIsFreshIff | internal/typefacts/tsgo/references.go:373-383 | After a release one symbol's rows are complete if and only if they were and the symbol was used, or no file mentions it. |
| ReferenceReleases.ReleasedWholeIff | internal/typefacts/tsgo/references.go:373-383 | From a complete index exactly the used symbols, and those nothing mentions, stay complete. |
| ReferenceAnswers.AnswerWholeIff | internal/typefacts/tsgo/references.go:350-364 | The list answered for a symbol is the program's if and only if no file's spans of it are missing. |
| ReferenceLosses.ReleaseLosesRows | internal/typefacts/tsgo/references.go:373-383 | One build and one release: every symbol mentioned and not asked is answered with nothing, although nothing changed. |
| ReferenceLosses.RescanIsPartial | internal/typefacts/tsgo/references.go:205-256 | After a release and an edit, a symbol is answered with the edited file's rows only. |
| ReferenceLosses.AbandonedAnalyzeMovesBase | internal/typefacts/tsgo/references.go:42-103 | Two updates with an abandoned analyze between them: a symbol moved by the first goes unnamed by an exact delta, which is why an abandoned analyze must not be followed by a delta. |
| ReferenceLosses.BroadRebuildLosesRows | internal/typefacts/tsgo/references.go:42-103 | Build, invalidate broadly while retaining a durable file, rebuild: every symbol that file mentions has lost rows. |
| ReferenceIndexes.ReferenceIndex.Invalidate | internal/typefacts/tsgo/references.go:42-103 | Keeps exactly the retained durable files and the delta's exactness through any chain of invalidations, so that the delta claim survives composition. |
| ReferenceIndexes.ReferenceIndex.Ensure | internal/typefacts/tsgo/references.go:198-258 | Settles the index, built or only the evicted files rescanned, and says what each path then holds. |
| ReferenceIndexes.ReferenceIndex.References | internal/typefacts/tsgo/references.go:117-139 | Answers one symbol's rows, complete if and only if no file's spans of it are missing, and marks it used. |
| ReferenceIndexes.ReferenceIndex.ReferencesBatch | internal/typefacts/tsgo/references.go:141-168 | Answers the lists of several symbols from one settled index. |
| ReferenceIndexes.ReferenceIndex.ReleaseAnalysisState | internal/typefacts/tsgo/references.go:373-383 | Drops exactly the rows of symbols not used since the last release and leaves the delta as it was. |
| ReplayLogs.ReplayReachesHistory | crates/typefacts/src/session.rs:931-940 | With rising versions, replaying the superseded batches reaches the generation and the newest overlay of every path of the whole history. |
| ReplayLogs.PathReplaysIff | crates/typefacts/src/session.rs:931-940 | For any versions, replay restores a path's overlay if and only if its newest batch raised the version above what was there or named it again. |
| ReplayLogs.OneOverlayKept | crates/typefacts/src/session.rs:901-940 | When no batch repeats a path, one overlay a path is kept. |
| ReplaySessions.InStepIff | crates/typefacts/src/session.rs:1495-1511 | With rising versions a live producer holds the whole history if and only if the client's generation is one past its batches. |
| ReplaySessions.UpdateKept | crates/typefacts/src/session.rs:816-908 | Whatever dies on the way, an update is accepted once or not at all. |
| ReplaySessions.CalmUpdateAdvances | crates/typefacts/src/session.rs:867-908 | With nothing dying, an accepted update advances the generation by exactly one. |
| ReplaySessions.RefusedReplayLosesUpdates | crates/typefacts/src/session.rs:1495-1511 | A refused replayed batch leaves an open connection on which the next update is accepted by a producer that lacks accepted overlays. |
| CompactCodecs.CompactRoundTrip | internal/typefacts/protocolv3_compact.go:114-308 | Expanding a compacted snapshot of ordered, placed demands returns it unchanged. |
| CompactDemands.ShapeCounts | internal/typefacts/protocolv3_compact.go:310-338 | On any bytes, whatever expands has exactly the counted rows and queries, so the arena index stays in bounds. |
| CompactDemands.FilterIsExpandThenFilter | internal/typefacts/protocolv3_compact.go:355-448 | Expansion succeeds if and only if the walk does and no skipped row's query dangles; then the walk is expansion followed by the filter. |
| CompactWalks.Expand | internal/typefacts/protocolv3_compact.go:210-308 | The loop with its preallocated arena computes the expansion or refuses with it. |
| CompactWalks.AppendWithFlag | internal/typefacts/protocolv3_compact.go:355-448 | The in-place walk appends exactly the selected demands of the group. |
| AsyncTheorems.MisreportsIff | internal/typefacts/tsgo/async_flow.go:339-503 | For every body, some run performs a reported call before any await if and only if a reported site is among the sites computed as reachable without an await. |
| AsyncTheorems.ReportedCallsFollowAwait | internal/typefacts/tsgo/async_flow.go:339-503 | On every run of a structured body with distinct call sites, each reported call comes after a completed await. |
| AsyncTheorems.CallsAfterAwait | internal/typefacts/tsgo/async_flow.go:248-251 | The scan of one body, and what its report is worth. |
| AsyncReachExactness.ReachExact | internal/typefacts/tsgo/async_flow.go:339-503 | The computed ends and early calls of a node are exactly those of the execution semantics. |
| AsyncFlows.AsyncScanner.Scan | internal/typefacts/tsgo/async_flow.go:339-441 | The recursive walk with its mutable state reports and leaves behind what `Flow` says. |
| AsyncFlows.AsyncScanner.ScanSwitch | internal/typefacts/tsgo/async_flow.go:443-503 | The clause loop merges breaks, fall-through and the unmatched entry as specified. |
| AsyncSwitches.SwitchTracks | internal/typefacts/tsgo/async_flow.go:443-503 | A switch that can be passed without an await leaves the scan unawaited, provided its breaks are tidy. |
| AsyncTracking.TracksNode | internal/typefacts/tsgo/async_flow.go:339-503 | Scanned from the start, a structured node that can end without an await leaves the scan at the start, and a site both reported and called early is written twice. |
| AsyncCounterexamples.FinallyMisreports | internal/typefacts/tsgo/async_flow.go:391-404 | `try { await x } finally { f() }` reports `f`, which a rejection reaches first. |
| AsyncCounterexamples.DeclarationMisreports | internal/typefacts/tsgo/async_flow.go:437-441 | `const { a = await x } = f()` reports `f`, which runs first. |
| AsyncCounterexamples.OptionalLinkMisreports | internal/typefacts/tsgo/async_flow.go:437-441 | `a?.(await x); f()` and `a?.[await x]; f()` report `f`, also when the link is skipped. |
| AsyncCounterexamples.InlineReturnMisreports | internal/typefacts/tsgo/async_flow.go:343-345 | A getter's `return` hides one branch of an `if`, and the call after it is reported. |

## Left out

- The checker, module graph, declaration-shape cutoff and signature resolution: the oracle contract of `Oracle.dfy` stands for them, and the theorems hold for producers that keep it.
- Async facts attributed to another file than the demanding one, and files that enter or leave the program: file and source rows are assumed to move only on affected paths.
- Descriptor seeds: a descriptor is assumed to be a function of its symbol, so the order of first wins does not matter.
- Digests are opaque bytes, the demand hash is the run itself, and `filepath.Clean` is an idempotent function.
- Row fields: about ten fields of an entity, one declaration and one location type are kept. Resolved calls, constant values, array shapes, constructability, primitive domains and literals, and the three other lists of a file fact are not, nor are schema versions above 15 that only add them.
- Contributions.Prepare: the merged row has the modelled fields only, and a present but empty list of library types counts as absent; the producer never makes one (tsgo/library_types.go:36-38).
- The decoder and the CBOR envelope: decoding is written as functions on the bytes instead of a moving cursor; the envelope is not modelled.
- Contributions.MergedFields: covers the modelled optional fields only.
- DemandClosures.DemandClosure.Materialize: descriptor seeds, async facts attributed across files and the recycling of tables are not modelled.
- DemandClosures.DemandClosure.Update: the producer's own index from path to symbol and its invalidated symbols are not part of this step; `ClosureBuilders` takes the invalidated set as an input.
- ProducerSessions.ProducerSession.Analyze: symbol evidence and the decoding of compact demands are modelled apart, in `ClosureSessions` and `CompactDemands`.
- ClientSessions.AnalyzeGroupsMirrors: the lost state is a token mismatch after a lost response; a producer restart with replay is no event of `SessionRuns` and is modelled apart, in `ReplaySessions`.
- PackedEntities.FlagsParseIff: the flags of the fields that are not modelled are clear.
- PackedEntities.RunRoundTrip: covers the modelled fields of an entity only.
- PackedPathOps.PathOpsRoundTrip: a file fact carries its async functions only.
- PackedTransitions.TransitionRoundTrip: operations carry the modelled fields, and runs, reference lists and declarations of one row have at most a million items; `WireDeliveries.Deliver` says what becomes of longer dictionaries and operation lists.
- WireEncoders.EncodedFrameDecodes: asks for a dictionary within the client's limit; `PackedTransitions.OverfullDictionary` and `PackedTransitions.OverfullRows` are the other side.
- WireDeliveries.SendAnalyze: the answer's rows stand for the released base.
- ReferenceIndexes.ReferenceIndex.Invalidate: the type and value spaces of a reference are one space, scanning a file is the oracle's, and program membership is fixed between resets.
- ClosureSessions.ClosureSession.Close: with the seeds unchanged it asks that no list due moves outside the affected paths and that only symbols declared at an affected path change their facts, which is the module graph's promise; a failed exchange after the table arrived leaves a token mismatch, so it is a `Forget`.
- The symbol interner, transport manifest candidates and module graph requests: handles only rename IDs here.
- Worker chunking in the closure and all goroutine plumbing: the sequential branch computes the same arrays.
- Process spawning, pipes, arenas on disk, cancellation channels, timings, traces and memory release.
- Async semantics: an accessor, constructor or instance initializer written in a body does not run there, parameters and class static blocks are not walked, the implicit await of `for await` and `yield` is not an event, and a call without a call fact is a plain node.
- AsyncTheorems.ReportedCallsFollowAwait: the structured family is sufficient, not necessary; `AsyncTheorems.MisreportsIff` is the exact condition.
- The framing of symbol evidence requests, `Sources` requests and the arena handshake are not part of this model.
