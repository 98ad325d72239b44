# Verified models of the Codex runtime core

This project states and proves, in Dafny, what the most stateful parts of the Codex agent runtime are meant to
guarantee. Each module follows one component of `codex-rs`; locks, channels and futures become atomic steps, and the
main results hold for every input, every interleaving or every run.

* **Scheduler** — request queues per key, drained by one drainer each, whose request bodies pass a connection gate that
  can shut down at any moment. A transition system over nine kinds of steps has one inductive invariant; from it follow
  single drainers, mutual exclusion, first-in-first-out order with conservation, gate safety and the end of draining.
  The two classes are the locked sections of the source; their contracts are the functions that the steps apply.
* **DeltaRequests** — the websocket session that sends only what the server does not have yet. The server is a ghost map
  from connection and response id to conversation; every delta that is ever sent means its full request.
* **Toml, Merge, Layers, Provenance, KeyPath, ConfigEdits** — configuration trees: the path law and algebra of deep merge,
  well-formed layer stacks, where an effective value comes from, the key-path parser and the faithfulness of the edit log.
* **Channels, EventForwarding, Router** — bounded channels under backpressure: lag markers account for every gap, and a
  router disconnects a connection rather than leaving a gap. A driver method each ties whole runs to the classes.
* **Answers** — tables of pending response senders: every sender is answered exactly once.
* **Subscriptions, ThreadStatus** — two indexes that stand for one relation, and cached statuses that equal the recomputed ones.
* **Truncation, Budget, Compaction, CompactedHistory** — token estimates, middle truncation and budgeted history compaction.
* **DerLength** — lengths of DER items in machine arithmetic, against section 8.1.3 of ITU-T X.690.
* **Prelude** — options, results, filtering and reversal.

Seven natural promises turn out not to hold as they stand. The models keep the code's behaviour, show an input at which
the promise fails, and prove when it is met:

* *Origins name the layer of an effective value.* They are keyed by the dotted join of a path, so a quoted key that
  contains a dot in a higher layer takes over the entry of a nested key (`DottedKeyHijacksOrigin`), and an array index
  may be written in more ways than the one recorded (`PaddedIndexExample`: index `00` finds a value without an entry).
  `OriginNamesLayer` and `OriginsAgreeWithEffective` say for arbitrary keys which layer is named and when it is the
  effective one; with dot-free keys that is exactly when indices are written in canonical decimal (`DotFreeOriginsAgree`).
* *The edit log omits an edit whose value did not change.* An edit whose path crosses an array replaces that array by a
  table, so omitting it loses the change exactly when it sets the value already found there (`EditReplays`,
  `MaskedEditExample`). The log is faithful after every edit of a run exactly when the run has no such edit
  (`LogReplaysRun`); a later edit of the same place can repair the loss (`RepairedEditExample`).
* *Override metadata names the layer that overrides the user's value.* It names the highest layer that has the path. The
  value of that layer is the effective one exactly when no layer above replaces something on the way to the path and no
  layer below adds a key to the table there (`HolderSeenExactly`). So a layer can be named whose value was itself taken
  away by a higher one that is not named (`TakenAwayExample`), and where the user layer is the highest with the path it is
  reported as overriding itself exactly when that condition fails (`OverrideBlamesUserItself`): a layer above puts a
  value that is not a table (`CutOffExample`) or a table where the user has an array (`ArrayCutOffExample`), or a layer
  below adds a key (`MergedTableExample`).
* *Notifications tell the status of every thread.* A silent upsert leaves the last notification true exactly when the
  thread was already loaded (`ThreadWatchManager.UpsertThread`, `SilentUpsertExample`), and a manager without anyone to
  notify sends none.
* *The published count is the number of active threads.* A send on the running-turn channel stores nothing while the
  channel has no receiver, so a turn started before anyone watches is missed and the first receiver reads zero
  (`StaleCountExample`). The stored count is that of the last publish a receiver heard (`ThreadStatus.RunOperations`). It
  is current after every operation exactly when each start of a turn on an idle thread and each end or removal of a
  running one comes with a receiver (`CountCurrentExactly`), and at the end of a run exactly when starts and ends since
  that publish balance (`CountCurrentAtEnd`).
* *Every server request that is not forwarded is rejected.* The one that meets the closed channel is neither, and those
  after it are not polled any more (`ProcessedWhileOpen`, `ServerRequestFates`, `ClosingRequestExample`).
* *Deep merge is associative* exactly on the triples of `Associable`, which is a little wider than the triples without a
  table, a non-table and a table on one path (`RevivedTableExample`).

The retention budget of compaction can be overshot by the truncation marker, by at most eleven tokens (`RetainedCost`,
`LocalCost`). Two branches of the source are shown to be dead: the drainer's exit when its queue is missing
(`OneDrainerPerKey`) and the `None` result of truncating a message that is longer than a positive budget
(`CutLeavesSomething`).

## Model

| member | source | states |
|---|---|---|
| `Scheduler.RequestSerializationQueues.Enqueue` | codex-rs/app-server/src/request_serialization.rs:85-113 | the request goes to the end of its key's queue and a drainer is to be spawned exactly when the key was not mapped |
| `Scheduler.RequestSerializationQueues.TakeBatch` | codex-rs/app-server/src/request_serialization.rs:115-147 | one round of a drainer: a missing key changes nothing, an empty queue is removed, otherwise exactly the batch at the head is popped |
| `Scheduler.BatchIsMaximal` | codex-rs/app-server/src/request_serialization.rs:125-138 | a popped batch is one exclusive request or all shared reads up to the next exclusive one |
| `Scheduler.ConnectionRpcGate.Enter` | codex-rs/app-server/src/connection_rpc_gate.rs:21-35 | a body is admitted exactly while the gate accepts, and an admitted one holds a token |
| `Scheduler.ConnectionRpcGate.Leave` | codex-rs/app-server/src/connection_rpc_gate.rs:21-35 | finishing a body gives its token back and changes nothing else |
| `Scheduler.ConnectionRpcGate.CloseForShutdown` | codex-rs/app-server/src/connection_rpc_gate.rs:37-44 | after the call the gate does not accept and the tokens of bodies in flight are as they were |
| `Scheduler.ConnectionRpcGate.Drained` | codex-rs/app-server/src/connection_rpc_gate.rs:37-44 | shutdown may return exactly when the gate is closed and no token is out |
| `Scheduler.StepKeepsInv` | codex-rs/app-server/src/request_serialization.rs:85-147 | every step of every party keeps the invariant: per key, enqueued = settled batches + active batch + queue, with distinct ids, fitting statuses and one owning drainer; tokens = bodies in flight |
| `Scheduler.EveryInterleaving` | codex-rs/app-server/src/request_serialization.rs:85-147 | the invariant holds after every legal run from the empty state |
| `Scheduler.OneDrainerPerKey` | codex-rs/app-server/src/request_serialization.rs:91-123 | a key is mapped exactly while a drainer for it exists, never two, and the missing-queue exit is never taken |
| `Scheduler.EveryBatchMaximal` | codex-rs/app-server/src/request_serialization.rs:115-145 | in every reachable state each batch dispatched so far was, when popped, one exclusive request or all the reads up to the next exclusive one, at the head of all that was left to dispatch |
| `Scheduler.MutualExclusion` | codex-rs/app-server/src/request_serialization.rs:125-145 | two unfinished dispatched requests of one key are both shared reads |
| `Scheduler.NoOvertaking` | codex-rs/app-server/src/request_serialization.rs:85-147 | once a request is dispatched every earlier one of its key is finished, unless both are in one batch of reads |
| `Scheduler.NoBodyAfterClose` | codex-rs/app-server/src/connection_rpc_gate.rs:21-44 | in every continuation of a state with a closed gate, the bodies on it are among those already running |
| `Scheduler.ShutdownStopsBodies` | codex-rs/app-server/src/connection_rpc_gate.rs:37-44 | in every reachable state, once shutdown is called and whatever happens next, the gate accepts nothing and the bodies in flight on it are among those in flight before the call |
| `Scheduler.ShutdownCanReturn` | codex-rs/app-server/src/connection_rpc_gate.rs:37-44 | once the gate is closed, finishing the bodies in flight on it, one step each, is enough for shutdown to return |
| `Scheduler.ShutdownIsFinal` | codex-rs/app-server/src/connection_rpc_gate.rs:37-44 | after a shutdown call returned no body runs on its gate, then or later |
| `Scheduler.GateDecides` | codex-rs/app-server/src/connection_rpc_gate.rs:21-35 | a request that reaches its gate runs its body and holds a token while the gate accepts, and is finished unrun otherwise |
| `Scheduler.DirectRequestsWait` | codex-rs/app-server/src/request_serialization.rs:68-71 | a request without a key goes to its gate at once and touches no queue |
| `Scheduler.KeyCanStep` | codex-rs/app-server/src/request_serialization.rs:68-71 | a mapped key always has an enabled step, even with closed gates: a skipped request counts as finished |
| `Scheduler.StepDoesWork` | codex-rs/app-server/src/request_serialization.rs:115-147 | every step on a key strictly lowers the work left on it |
| `Scheduler.OtherStepsKeepWork` | codex-rs/app-server/src/request_serialization.rs:115-147 | steps elsewhere leave a key's work unchanged |
| `Scheduler.DrainingEnds` | codex-rs/app-server/src/request_serialization.rs:115-147 | without new enqueues on a key any run takes at most its work in steps on it, forms at most one batch per queued request, and has nothing left to do there exactly when the key is gone |
| `Scheduler.KeyDrains` | codex-rs/app-server/src/request_serialization.rs:115-147 | from every reachable state, whatever the gates, some run of at most the key's work, by steps on that key alone, removes the key |
| `Scheduler.QuietIsUnmapped` | codex-rs/app-server/src/request_serialization.rs:115-147 | no step on a key is enabled exactly when the key is not mapped |
| `DeltaRequests.MapResponseEvents` | codex-rs/core/src/client.rs:1296-1425 | the mapper hands over the first completion with exactly the output items before it, and forwards every event in order |
| `DeltaRequests.ItemsAreOutputs` | codex-rs/core/src/client.rs:1317-1377 | the items collected are those of the output events, in order |
| `DeltaRequests.FirstResponseExactly` | codex-rs/core/src/client.rs:1317-1377 | a response is handed over exactly when there is a completion: the first one, with the items before it |
| `DeltaRequests.FirstResponseIsCompletion` | codex-rs/core/src/client.rs:1317-1377 | what is handed over is some completion event and the items emitted before it |
| `DeltaRequests.ModelClientSession.ResetWebsocketSession` | codex-rs/core/src/client.rs:623-629 | a reset leaves the empty session |
| `DeltaRequests.ModelClientSession.GetLastResponse` | codex-rs/core/src/client.rs:702-710 | the receiver is consumed and yields what arrived, if there was one |
| `DeltaRequests.ModelClientSession.GetIncrementalItems` | codex-rs/core/src/client.rs:668-700 | the delta is a given list exactly when all other request fields match and remembered input, added items and that list make up the new input, the list being non-empty unless an empty delta is allowed |
| `DeltaRequests.IncrementalExactly` | codex-rs/core/src/client.rs:668-700 | the same of the function that the steps of the session apply |
| `DeltaRequests.ModelClientSession.PrepareWebsocketRequest` | codex-rs/core/src/client.rs:712-741 | the request is sent as a delta only with a response received and a non-empty id; the receiver is used up |
| `DeltaRequests.ModelClientSession.PreconnectWebsocket` | codex-rs/core/src/client.rs:743-779 | preconnecting fills only an absent connection |
| `DeltaRequests.ModelClientSession.WebsocketConnection` | codex-rs/core/src/client.rs:793-852 | a live connection is reused; otherwise the remembered exchange is forgotten before connecting, and a timeout resets everything |
| `DeltaRequests.ModelClientSession.StreamOnConnection` | codex-rs/core/src/client.rs:1055-1090 | the request is remembered before it is sent and a receiver only after the send succeeded |
| `DeltaRequests.PreparedMeansFull` | codex-rs/core/src/client.rs:668-741 | in any state that agrees, a prepared message read against the server's context for its response id is the full request with the same properties |
| `DeltaRequests.PrepareSendsDeltas` | codex-rs/core/src/client.rs:712-741 | in every reachable state a request goes out as a delta, naming response r and carrying just the rest, exactly when its session waits on a stream whose first completion was mapped with the non-empty id r and the request continues that exchange by the rest with equal properties; else it goes out whole |
| `DeltaRequests.SessionsHandOver` | codex-rs/core/src/client.rs:250-291 | a dropped session is what the next one starts from, and the one after that starts afresh |
| `DeltaRequests.FallbackForgets` | codex-rs/core/src/client.rs:1225-1235 | after a switch to HTTP nothing is remembered or cached and no websocket is opened ahead any more |
| `DeltaRequests.StepKeepsInv` | codex-rs/core/src/client.rs:250-312 | creation, caching and drop of sessions, fallback, reconnects, preconnects, failed or abandoned sends and unfinished streams keep sessions, streams, outbox and server in agreement |
| `DeltaRequests.RunKeepsInv` | codex-rs/core/src/client.rs:614-852 | the agreement holds after every run |
| `DeltaRequests.DeltasRefineFullRequests` | codex-rs/core/src/client.rs:973-1092 | in every run the server reads every message ever delivered as the full input, and the context of its response id followed by the delta equals that input |
| `Toml.ValueAtPath` | codex-rs/app-server/src/config_manager_service.rs:534-550 | the loop finds the recursive lookup's value, through tables by key and arrays by parsed index |
| `Toml.ChildExactly` | codex-rs/app-server/src/config_manager_service.rs:534-550 | a table is entered by a key it has, an array by a parsed index within it, and nothing else has parts |
| `Toml.LookupConcat` | codex-rs/app-server/src/config_manager_service.rs:534-550 | looking up a concatenated path is looking up its parts in turn |
| `Toml.ParseDecimal` | codex-rs/config/src/fingerprint.rs:22-27 | the decimal text of an index parses back to it |
| `Toml.ParseSigned` | codex-rs/app-server/src/config_manager_service.rs:540-545 | indices are read with an optional sign and within 64 bits |
| `Toml.ParseRejects` | codex-rs/app-server/src/config_manager_service.rs:540-545 | a text with anything but a sign and digits is no index |
| `Merge.MergeTomlValues` | codex-rs/config/src/merge.rs:3-24 | the recursive update loop leaves the merged tree in the base, in whatever order overlay keys are visited |
| `Merge.LookupMerged` | codex-rs/config/src/merge.rs:7-24 | the full path law: what any path holds after a merge, in terms of what it holds in base and overlay |
| `Merge.OverlayWins` | codex-rs/config/src/merge.rs:7-24 | an overlay's non-table wins outright and its table stays a table |
| `Merge.OverlaySilent` | codex-rs/config/src/merge.rs:7-24 | where the overlay is silent the base value survives or is cut off, and nothing else appears |
| `Merge.SilentOverlay` | codex-rs/config/src/merge.rs:7-24 | where the overlay has nothing, the base value survives exactly when the overlay replaces nothing on the way |
| `Merge.MergeIdempotent` | codex-rs/config/src/merge.rs:7-24 | merging a tree into itself changes nothing |
| `Merge.MergeIsOverlay` | codex-rs/config/src/merge.rs:7-24 | the result is the overlay exactly when the overlay covers the base |
| `Merge.MergeAbsorbs` | codex-rs/config/src/merge.rs:7-24 | merging the same overlay twice is merging it once |
| `Merge.MergeAssociative` | codex-rs/config/src/merge.rs:7-24 | merge associates on exactly the associable triples |
| `Merge.MergeAssociativeWithoutRevival` | codex-rs/config/src/merge.rs:7-24 | merge associates whenever no path holds a table, a non-table and a table in turn |
| `Merge.RevivedTableExample` | codex-rs/config/src/merge.rs:7-24 | three trees on which the two ways of merging differ |
| `Layers.VerifyLayerOrdering` | codex-rs/config/src/state.rs:329-372 | accepts exactly the stacks sorted by precedence with nested project folders, finds the last user layer, and tells an unsorted stack, a folder without parent and a folder that does not nest apart at the first one met |
| `Layers.SourcesInOrder` | codex-rs/app-server-protocol/src/protocol/v2/config.rs:40-50 | managed, system, user, project and session sources come in this order, all users and all projects alike |
| `Layers.NestedExactly` | codex-rs/config/src/state.rs:345-366 | project layers are nested exactly when each folder differs from the one before it and lies under that one's parent |
| `Layers.LastUserExactly` | codex-rs/config/src/state.rs:337-343 | the user index is that of a user layer with none after it, or absent without any |
| `Layers.NewStack` | codex-rs/config/src/state.rs:159-166 | a stack is made exactly of well-ordered layers and is valid |
| `Layers.RemoveUserFile` | codex-rs/config/src/state.rs:215-251 | only the first user layer of the given file is dropped |
| `Layers.WithoutUserFileExactly` | codex-rs/config/src/state.rs:222-231 | exactly the first user layer of the file goes, and nothing if there is none |
| `Layers.WithUserConfig` | codex-rs/config/src/state.rs:215-251 | other layers keep their order, the index is that of the last user layer, and on a valid stack the result is valid with the new file and config as active user layer |
| `Layers.WithUserLayerFrom` | codex-rs/config/src/state.rs:253-287 | the user layers become exactly the other stack's, everything else keeps its order, and validity is kept |
| `Layers.InsertedAfterUsers` | codex-rs/config/src/state.rs:232-238 | a user layer inserted by precedence into a sorted stack stands behind every other user layer |
| `Layers.EffectiveConfig` | codex-rs/config/src/state.rs:289-295 | the loop merges the enabled layers from lowest to highest precedence |
| `Layers.DisabledIgnored` | codex-rs/config/src/state.rs:289-326 | a disabled layer changes no effective value, wherever it stands |
| `Provenance.FindEffectiveLayer` | codex-rs/app-server/src/config_manager_service.rs:615-626 | names the highest enabled layer with a value at the path, or none |
| `Provenance.EffectiveLayerHoldsValue` | codex-rs/app-server/src/config_manager_service.rs:615-626 | for every stack and path with an effective non-table value, the layer found holds exactly that value there |
| `Provenance.EffectiveSeenFromHolder` | codex-rs/config/src/state.rs:289-295 | for any stack and path, table or not, the effective value is that of the highest holder merged with the tables below it, and is gone exactly when an enabled layer above replaces something on the way |
| `Provenance.HolderSeenExactly` | codex-rs/app-server/src/config_manager_service.rs:615-626 | the effective value is gone exactly when a layer above cuts the named layer off, and is that layer's own exactly when moreover no layer below adds to the table there |
| `Provenance.RecordOrigins` | codex-rs/config/src/fingerprint.rs:8-35 | exactly the joined names of the tree's scalars are bound to the layer, everything else stays |
| `Provenance.StackOrigins` | codex-rs/config/src/state.rs:297-306 | origins of a stack are those of its enabled layers, higher ones overwriting |
| `Provenance.DisabledHasNoOrigins` | codex-rs/config/src/state.rs:297-326 | a disabled layer is the origin of nothing |
| `Provenance.OriginsNameTopWriter` | codex-rs/config/src/state.rs:297-306 | a joined key has an origin exactly when an enabled layer writes it, and it names the highest one |
| `Provenance.OriginNamesLayer` | codex-rs/config/src/fingerprint.rs:8-35 | for arbitrary keys, a joined key has an entry exactly when an enabled layer spells it, and the entry names the highest such layer |
| `Provenance.JoinInjective` | codex-rs/config/src/fingerprint.rs:28-32 | dot-free paths with equal joins are equal |
| `Provenance.OriginsAgreeWithEffective` | codex-rs/config/src/state.rs:289-306 | for an effective scalar and arbitrary keys, the layer found holds that value, and the origins entry names it exactly when the highest layer that spells the joined path has the same name and version |
| `Provenance.DotFreeOriginsAgree` | codex-rs/config/src/state.rs:289-306 | with dot-free keys the entry names the layer found for every path with canonical indices, and for no other if that layer has a name of its own |
| `Provenance.PaddedIndexExample` | codex-rs/config/src/fingerprint.rs:22-27 | a layer in which index 00 finds a scalar and origins has no entry for it |
| `Provenance.DottedKeyHijacksOrigin` | codex-rs/config/src/fingerprint.rs:28-32 | two layers in which a dotted key takes over the origin of a nested key it does not touch |
| `Provenance.ComputeOverrideMetadata` | codex-rs/app-server/src/config_manager_service.rs:571-600 | an override is reported exactly when the user's value and the effective one differ and some enabled layer has the path |
| `Provenance.OverrideBlamesHolder` | codex-rs/app-server/src/config_manager_service.rs:571-600 | an override is reported exactly when the user's value differs and some layer has the path; the layer named is the highest such one and not below an enabled user layer that sets the path; its value is gone exactly when a layer above cuts it off, else effective, with all the scalars and arrays of a table, and exactly the effective one when nothing below adds to it |
| `Provenance.OverrideBlamesUserItself` | codex-rs/app-server/src/config_manager_service.rs:571-600 | where the user layer is the one found, for values of any kind, it is reported as overriding itself exactly when a layer above cuts the path off or a layer below adds to the table there |
| `Provenance.CutOffExample` | codex-rs/app-server/src/config_manager_service.rs:571-600 | a valid stack in which the user layer is reported as overriding itself |
| `Provenance.TakenAwayExample` | codex-rs/app-server/src/config_manager_service.rs:571-600 | a valid stack in which the layer named is one whose value a layer above took away |
| `Provenance.ArrayCutOffExample` | codex-rs/app-server/src/config_manager_service.rs:571-600 | a valid stack in which a table above replaces the user's array and the user layer is reported as overriding itself |
| `Provenance.MergedTableExample` | codex-rs/app-server/src/config_manager_service.rs:571-600 | a valid stack with nothing above the user layer and nothing cut off in which the user layer is reported as overriding itself |
| `KeyPath.ParseKeyPath` | codex-rs/app-server/src/config_manager_service.rs:356-396 | the character loop agrees with the scanner function, error cases included |
| `KeyPath.ParsedNonEmpty` | codex-rs/app-server/src/config_manager_service.rs:356-396 | every successful parse is a non-empty list of non-empty segments |
| `KeyPath.ParsedExactly` | codex-rs/app-server/src/config_manager_service.rs:356-396 | the parser accepts exactly the texts that are not blank and write segments with dots between, each bare, or in quotes with a bare end, behind any empty quotes, and yields those segments |
| `KeyPath.EmptySegmentTold` | codex-rs/app-server/src/config_manager_service.rs:375-390 | a path that ends in a dot or has two in a row is refused for an empty segment |
| `KeyPath.InvalidQuoteTold` | codex-rs/app-server/src/config_manager_service.rs:375-390 | a quote after a bare beginning is refused as such |
| `KeyPath.UnterminatedTold` | codex-rs/app-server/src/config_manager_service.rs:366-396 | an open quote and an open escape are told apart |
| `KeyPath.ParseRendered` | codex-rs/app-server/src/config_manager_service.rs:356-396 | segments quoted with escapes, or bare where they hold no dot or quote, and joined by dots parse back to themselves, but for a single bare blank one |
| `ConfigEdits.ApplySet` | codex-rs/app-server/src/config_manager_service.rs:403-458 | the descent sets or merges at the path, replacing non-table parents, with its two error cases |
| `ConfigEdits.SetPathLaw` | codex-rs/app-server/src/config_manager_service.rs:403-458 | what any path below a set finds afterwards: the value given, or for an upsert of a table over one every scalar and array of the new table, and what it is silent on unless it cuts that off |
| `ConfigEdits.SetElsewhere` | codex-rs/app-server/src/config_manager_service.rs:403-458 | a path that parts from the one set keeps its value where only tables lead to the parting, and finds nothing where a parent was replaced |
| `ConfigEdits.SetLeads` | codex-rs/app-server/src/config_manager_service.rs:411-435 | after a set only tables lead to its path |
| `ConfigEdits.SetFailsExactly` | codex-rs/app-server/src/config_manager_service.rs:403-458 | a set fails exactly on the empty path, or where tables lead to its parent and that is not a table |
| `ConfigEdits.ApplyClear` | codex-rs/app-server/src/config_manager_service.rs:460-485 | clearing removes the leaf and stops silently at anything that is not a table |
| `ConfigEdits.ClearPathLaw` | codex-rs/app-server/src/config_manager_service.rs:460-485 | clearing takes away exactly what is at the path or below it, if only tables lead there, and no other path is touched |
| `ConfigEdits.ClearKeepsParents` | codex-rs/app-server/src/config_manager_service.rs:460-485 | the values on the way to a cleared path stay what they were, tables tables |
| `ConfigEdits.ApplyEdits` | codex-rs/app-server/src/config_manager_service.rs:210-249 | the edit loop computes the final configuration, the log and the parsed paths of the run, or its first error |
| `ConfigEdits.RunReportsPaths` | codex-rs/app-server/src/config_manager_service.rs:214-249 | a successful run reports the parsed path of each edit, in order |
| `ConfigEdits.EditReplays` | codex-rs/app-server/src/config_manager_service.rs:214-246 | replaying what one edit logged reproduces it exactly when the edit does not write, across an array, the value already there |
| `ConfigEdits.LogReplaysRun` | codex-rs/app-server/src/config_manager_service.rs:210-249 | for every successful run, replaying the log by plain replacement gives the configuration after each edit exactly when no edit of the run writes, across an array, the value already there |
| `ConfigEdits.ArrayFreeRunsReplay` | codex-rs/app-server/src/config_manager_service.rs:210-249 | the log is faithful for every successful run whose paths cross no array |
| `ConfigEdits.MaskedEditExample` | codex-rs/app-server/src/config_manager_service.rs:214-246 | an edit that changes the configuration and logs nothing |
| `ConfigEdits.RepairedEditExample` | codex-rs/app-server/src/config_manager_service.rs:403-458 | a later edit past the same array leaves the same configuration whether or not the array was replaced before |
| `Channels.SendsKeepWellformed` | codex-rs/app-server-client/src/lib.rs:97-159 | sends never exceed a channel's capacity |
| `EventForwarding.EventForwarder.ForwardInProcessEvent` | codex-rs/app-server-client/src/lib.rs:97-159 | one event: announce skipped ones first, then deliver, drop or stop, as the receiver allows |
| `EventForwarding.ForwardAccounts` | codex-rs/app-server-client/src/lib.rs:97-159 | the forwarded stream with markers opened, plus unannounced holes, grows by exactly the event or one hole, or by nothing when a drop finds the counter at usize::MAX |
| `EventForwarding.ForwardDisciplined` | codex-rs/app-server-client/src/lib.rs:69-159 | events that require delivery are never dropped, drops happen only on a full channel, a dropped server request is rejected once, and the stream stops exactly when the consumer is gone |
| `EventForwarding.RunAccounts` | codex-rs/app-server-client/src/lib.rs:97-159 | over every run the account is the processed input with exactly the dropped events as holes, if and only if no drop found the counter at usize::MAX, which takes more events than that; forwarded events, rejections in order and the requests they concern are exact in any case, and processing stops early exactly when the channel was closed |
| `EventForwarding.NeverDropped` | codex-rs/app-server-client/src/lib.rs:69-88 | completed turns and items, settings and the three kinds of text deltas are forwarded in every run as long as the channel is open, and never dropped |
| `EventForwarding.OthersAreDropped` | codex-rs/app-server-client/src/lib.rs:69-159 | any other event is dropped once the channel is full |
| `EventForwarding.ProcessedWhileOpen` | codex-rs/app-server-client/src/lib.rs:97-159 | an event is processed exactly when the channel is still open once it has been handled |
| `EventForwarding.ServerRequestFates` | codex-rs/app-server-client/src/lib.rs:97-159 | with ids not reused, each server request is forwarded and never rejected, or rejected once and never forwarded, as long as the channel is open once it was handled, and gets neither otherwise |
| `EventForwarding.ClosingRequestExample` | codex-rs/app-server-client/src/lib.rs:97-159 | a request that meets a closed channel and is neither forwarded nor rejected |
| `EventForwarding.ForwardAll` | codex-rs/app-server-client/src/lib.rs:394-440 | the client's loop over any events leaves the class as the run says, and stops forwarding once the stream is disabled |
| `Router.OutboundRouter.Opened` | codex-rs/app-server/src/lib.rs:515-534 | opening binds the connection |
| `Router.OutboundRouter.Closed` | codex-rs/app-server/src/lib.rs:535-537 | closing removes just that connection |
| `Router.OutboundRouter.DisconnectAll` | codex-rs/app-server/src/lib.rs:538-547 | every disconnectable connection is told and the map is emptied |
| `Router.OutboundRouter.DisconnectConnection` | codex-rs/app-server/src/transport.rs:97-106 | removes the connection and requests a disconnect where that is possible |
| `Router.OutboundRouter.SendMessageToConnection` | codex-rs/app-server/src/transport.rs:108-145 | an unknown connection changes nothing; a known one keeps the message or is removed, as its queue and kind decide |
| `Router.OutboundRouter.RouteOutgoingEnvelope` | codex-rs/app-server/src/transport.rs:147-182 | the loop over targets, in any order, sends to exactly the aimed connections, and asks exactly the removed disconnectable ones to disconnect |
| `Router.BroadcastReaches` | codex-rs/app-server/src/transport.rs:147-182 | a broadcast leaves alone every connection that is not initialized or has opted out, hands nothing to one that opts out before the send, and hands the message to every other one or drops it, by the state of its queue |
| `Router.TargetedReaches` | codex-rs/app-server/src/transport.rs:108-182 | a targeted message touches no other connection and reaches its target even before that is initialized, on the same terms |
| `Router.RouteOpensNothing` | codex-rs/app-server/src/transport.rs:147-182 | routing adds no connection |
| `Router.SentToHandsOver` | codex-rs/app-server/src/transport.rs:79-145 | a connection that survives a send got the message unless it opted out of it |
| `Router.NoGapsWhileConnected` | codex-rs/app-server/src/lib.rs:515-552 | after every run each connection still mapped has been handed, in order, exactly what was selected for it since it opened |
| `Router.RouteRemovesOnlyBlocked` | codex-rs/app-server/src/transport.rs:108-182 | a route step removes a connection exactly when the envelope was selected for it and its queue was closed, or full on a disconnectable one; others are untouched |
| `Router.RunRouter` | codex-rs/app-server/src/lib.rs:507-556 | any run of control events, envelopes and outside changes leaves the class's map as the steps say |
| `Subscriptions.ThreadStateManager.ConnectionInitialized` | codex-rs/app-server/src/thread_state.rs:202-212 | adds a live connection to the relation, indexes staying in agreement |
| `Subscriptions.ThreadStateManager.ThreadState` | codex-rs/app-server/src/thread_state.rs:223-226 | makes a thread known without subscribers |
| `Subscriptions.ThreadStateManager.SubscribedConnectionIds` | codex-rs/app-server/src/thread_state.rs:214-221 | lists exactly the connections related to the thread |
| `Subscriptions.ThreadStateManager.TryAddConnectionToThread` | codex-rs/app-server/src/thread_state.rs:312-353 | succeeds exactly for a live connection and is the relational insert |
| `Subscriptions.ThreadStateManager.UnsubscribeConnectionFromThread` | codex-rs/app-server/src/thread_state.rs:278-310 | reports whether the pair was there and is the relational delete |
| `Subscriptions.ThreadStateManager.RemoveThreadState` | codex-rs/app-server/src/thread_state.rs:228-253 | deletes the thread and all its pairs from both indexes |
| `Subscriptions.ThreadStateManager.RemoveConnection` | codex-rs/app-server/src/thread_state.rs:355-379 | deletes the connection's pairs and returns, once each, exactly the threads that lost their last subscriber |
| `Subscriptions.SubscribersAreLive` | codex-rs/app-server/src/thread_state.rs:335-379 | in every run subscribers are live connections of known threads |
| `Subscriptions.RunOperations` | codex-rs/app-server/src/thread_state.rs:202-379 | any sequence of operations on the two indexes is that sequence on the one relation, with truthful watchers and no empty entry |
| `ThreadStatus.RunningIsActive` | codex-rs/app-server/src/thread_status.rs:325-344 | on sound facts the running threads are exactly the active ones and carry no flags |
| `ThreadStatus.StatusExactly` | codex-rs/app-server/src/thread_status.rs:325-344 | the status of every thread after every run from its last loading, start, end, shutdown, failure and removal: not loaded, active without flags, in error or idle |
| `ThreadStatus.ThreadWatchManager.UpdateStatusWatcher` | codex-rs/app-server/src/thread_status.rs:282-300 | a listened-to watcher gets the status and a forgotten one is dropped |
| `ThreadStatus.ThreadWatchManager.Publish` | codex-rs/app-server/src/thread_status.rs:143-166 | the running-turn channel stores the number of active threads if it has a receiver and keeps its value otherwise; the notification, if any, is sent where there is someone to notify |
| `ThreadStatus.ThreadWatchManager.StatusChangedNotification` | codex-rs/app-server/src/thread_status.rs:302-314 | a notification is due exactly when a tracked thread's status differs from before |
| `ThreadStatus.ThreadWatchManager.UpsertThread` | codex-rs/app-server/src/thread_status.rs:204-222 | states the new facts, watchers, stored count and notifications; watchers stay true; an upsert that notifies nobody keeps the last notification true exactly when the thread was loaded |
| `ThreadStatus.ThreadWatchManager.RemoveThread` | codex-rs/app-server/src/thread_status.rs:224-236 | states the new facts, watchers, stored count and notifications; watchers stay true, and last notifications where there is someone to notify |
| `ThreadStatus.ThreadWatchManager.Note` | codex-rs/app-server/src/thread_status.rs:100-141 | each of the four updates states the new facts, watchers, stored count and notifications; watchers stay true, and last notifications where there is someone to notify |
| `ThreadStatus.ThreadWatchManager.Subscribe` | codex-rs/app-server/src/thread_status.rs:268-275 | a new watcher starts with the recomputed status and others are untouched |
| `ThreadStatus.ThreadWatchManager.SubscribeRunningTurnCount` | codex-rs/app-server/src/thread_status.rs:96-98 | a new count receiver reads what is stored, fresh or not |
| `ThreadStatus.RunOperations` | codex-rs/app-server/src/thread_status.rs:51-166 | after every run facts are sound, watchers hold the recomputed status, the stored count is that of the last publish a receiver heard, and with someone to notify the last notification of each thread without silent upserts is its loaded status |
| `ThreadStatus.CountCurrentExactly` | codex-rs/app-server/src/thread_status.rs:143-157 | the stored count is the number of active threads after each operation exactly when every operation that changes this number, read off the starts, ends and removals, comes while a count receiver exists |
| `ThreadStatus.CountCurrentAtEnd` | codex-rs/app-server/src/thread_status.rs:143-157 | at the end of a run it is exactly when starts and ends since the last heard publish balance |
| `ThreadStatus.MovesChangeCount` | codex-rs/app-server/src/thread_status.rs:100-141 | the number of active threads grows by one with a start on an idle thread, falls by one with an end or removal of a running one, and changes with nothing else |
| `ThreadStatus.HeldCountIsCurrent` | codex-rs/app-server/src/thread_status.rs:96-98 | with a count receiver held from before the first publish the stored count is always current |
| `ThreadStatus.StaleCountExample` | codex-rs/app-server/src/thread_status.rs:33-40 | a turn started before anyone watches the count, after which the first receiver reads zero with one thread active |
| `ThreadStatus.SilentUpsertExample` | codex-rs/app-server/src/thread_status.rs:56-59 | a thread loaded silently whose last notification is not its status |
| `Answers.RegisterPartitions` | codex-rs/app-server-client/src/remote.rs:168-199 | registering a new sender keeps answered-once and pending apart |
| `Answers.SettlePartitions` | codex-rs/app-server-client/src/remote.rs:262-273 | settling an id keeps that, and an answer from a response carries the id asked with (section 5 of the JSON-RPC 2.0 specification) |
| `Answers.DirectPartitions` | codex-rs/app-server-client/src/remote.rs:169-258 | answering a sender at once keeps that too |
| `Answers.RemoteRunKeeps` | codex-rs/app-server-client/src/remote.rs:156-414 | in every run of the remote worker the senders received are answered once or pending, and a disconnection is the only one and the last event |
| `Answers.RepliesExplained` | codex-rs/app-server-client/src/remote.rs:156-405 | over every run a reply was given exactly when an input before the exit called for it: a result for a response to a pending id, an error for an error, a refusal for a duplicate, a failure for a request not written, the outcome for a command |
| `Answers.EventsExplained` | codex-rs/app-server-client/src/remote.rs:156-405 | over every run an event was offered exactly when an input before the exit called for it |
| `Answers.WaitingMoves` | codex-rs/app-server-client/src/remote.rs:164-275 | a sender waits under an id exactly from its written request to the answer for that id |
| `Answers.DuplicateDoesNotDisplace` | codex-rs/app-server-client/src/remote.rs:169-175 | a duplicate id in flight is refused while the pending sender keeps its place |
| `Answers.DrainPending` | codex-rs/app-server-client/src/remote.rs:406-414 | the exit drain tells every pending sender once, with the given reason and in any order, and takes back no earlier answer |
| `Answers.NothingPendingAllAnswered` | codex-rs/app-server-client/src/remote.rs:406-414 | with nothing pending every sender received has exactly one answer |
| `Answers.RemoteWorker` | codex-rs/app-server-client/src/remote.rs:156-414 | the worker loop with its exit drain leaves nothing pending, all answers truthful, the events of the run, and tells every drained sender why the connection was lost, or that the worker is gone |
| `Answers.RuntimeRunKeeps` | codex-rs/app-server/src/in_process.rs:395-498 | the same partition in every run of the in-process runtime |
| `Answers.LocalRepliesExplained` | codex-rs/app-server/src/in_process.rs:395-498 | over every run of the runtime a reply was given exactly when an input before the exit called for it: result, error, duplicate, full queue or closed processor |
| `Answers.LocalStepMoves` | codex-rs/app-server/src/in_process.rs:395-555 | when the runtime leaves its loop and which senders wait under which ids |
| `Answers.InProcessRuntime` | codex-rs/app-server/src/in_process.rs:395-575 | the runtime loop with its exit drain leaves nothing pending and all answers truthful |
| `Truncation.SplitString` | codex-rs/utils/string/src/truncate.rs:74-112 | one pass yields the longest prefix and, behind it, the longest suffix within their byte budgets, and counts exactly the characters between |
| `Truncation.TruncateText` | codex-rs/utils/string/src/truncate.rs:7-57 | the text itself if it fits the token budget, else both ends around the marker |
| `Truncation.TruncatedExactly` | codex-rs/utils/string/src/truncate.rs:26-57 | what is left of a text beyond its budget: the longest head and, of the rest, the longest tail within two bytes a token each, around a marker that prints the tokens of the bytes beyond the budget |
| `Truncation.TruncatedFits` | codex-rs/utils/string/src/truncate.rs:7-24 | a text stays whole exactly when its bytes, and so its tokens, fit |
| `Truncation.WidthTable` | codex-rs/utils/string/src/truncate.rs:59-62 | how many bytes a character takes in UTF-8 |
| `Truncation.PrefixCharsIsLongest` | codex-rs/utils/string/src/truncate.rs:87-92 | the head kept is the longest prefix within its bytes |
| `Truncation.SuffixCharsIsLongest` | codex-rs/utils/string/src/truncate.rs:94-100 | the tail kept is the longest suffix within its bytes |
| `Truncation.TruncatedCost` | codex-rs/utils/string/src/truncate.rs:26-72 | a truncated text costs at most its token budget and eleven tokens of marker |
| `Truncation.TruncatedNonEmpty` | codex-rs/utils/string/src/truncate.rs:26-57 | truncation yields the empty text only from the empty text |
| `Truncation.TruncatedKeepsPrefix` | codex-rs/utils/string/src/truncate.rs:26-57 | a text without an ellipsis begins a truncated text only if it began the whole |
| `Budget.KeptExactly` | codex-rs/core/src/compact_remote_v2.rs:376-399 | the j-th newest item stays whole exactly when it fits with all newer ones and those left some budget |
| `Budget.DroppedMeansSpent` | codex-rs/core/src/compact_remote_v2.rs:376-399 | if something is not kept whole the budget is used up, or the next item was too long and stands cut to exactly the rest |
| `Budget.SelectedCount` | codex-rs/core/src/compact_remote_v2.rs:386-390 | items that each cost at least one number at most the budget |
| `Compaction.TruncateContent` | codex-rs/core/src/compact_remote_v2.rs:417-452 | the loop over content parts computes the cut content |
| `Compaction.CutOnePart` | codex-rs/core/src/compact_remote_v2.rs:431-452 | what is left of a single image or text |
| `Compaction.CutInTurn` | codex-rs/core/src/compact_remote_v2.rs:431-452 | parts are cut in turn, each with the budget that those before it leave |
| `Compaction.TruncateMessageText` | codex-rs/core/src/compact_remote_v2.rs:417-465 | a message is cut to the budget, dropped if nothing is left, and other items pass through |
| `Compaction.CutMessageExactly` | codex-rs/core/src/compact_remote_v2.rs:417-465 | cutting changes nothing of a message but its content, a message with nothing left is none, and other items are not cut |
| `Compaction.PartCost` | codex-rs/core/src/compact_remote_v2.rs:401-415 | a text costs its bytes over four, rounded up, an image nothing |
| `Compaction.ChargeExactly` | codex-rs/core/src/compact_remote_v2.rs:386-388 | an item is charged its tokens, at least one |
| `Compaction.CutLeavesSomething` | codex-rs/core/src/compact_remote_v2.rs:417-465 | a message longer than a positive budget never vanishes when cut |
| `Compaction.CutKeepsImages` | codex-rs/core/src/compact_remote_v2.rs:449-450 | cutting keeps every image, in order |
| `Compaction.CutMirrorsSelection` | codex-rs/core/src/compact_remote_v2.rs:431-452 | within a message the oldest texts are kept, at most one cut, by the mirror image of the rule for messages |
| `Compaction.CutCost` | codex-rs/core/src/compact_remote_v2.rs:401-465 | a cut message costs at most its budget and one marker |
| `Compaction.TruncateRetainedMessages` | codex-rs/core/src/compact_remote_v2.rs:376-399 | the backwards loop computes the budgeted selection |
| `Compaction.RetainedShape` | codex-rs/core/src/compact_remote_v2.rs:376-399 | that selection is the one list that is a suffix within budget, complete or with the budget spent, at most its oldest member cut to exactly what is left |
| `Compaction.RetainedCost` | codex-rs/core/src/compact_remote_v2.rs:376-415 | at most as many messages as tokens of budget, and at most one marker more than the budget in tokens |
| `CompactedHistory.InsertInitialContext` | codex-rs/core/src/compact.rs:310-349 | the two backwards searches and the splice put the context at the insertion point |
| `CompactedHistory.ContextPlacement` | codex-rs/core/src/compact.rs:315-341 | the insertion point is the last real user message, else the last summary, else the last compaction item, else the end |
| `CompactedHistory.OnlyUsersRetained` | codex-rs/core/src/compact_remote_v2.rs:352-374 | the two filters together let through exactly the user messages |
| `CompactedHistory.BuildV2CompactedHistory` | codex-rs/core/src/compact_remote_v2.rs:352-366 | the budgeted newest user messages followed by the compaction item |
| `CompactedHistory.ProcessCompactedHistory` | codex-rs/core/src/compact_remote.rs:175-217 | items not worth keeping go, in place, then the context is inserted |
| `CompactedHistory.ShouldKeepExactly` | codex-rs/core/src/compact_remote.rs:194-217 | kept are compaction items, the assistant's messages and what users wrote |
| `CompactedHistory.SecondFilter` | codex-rs/core/src/compact_remote.rs:190-217 | the second filter keeps everything but a cut message that no longer reads as a user's |
| `CompactedHistory.CompactRemotely` | codex-rs/core/src/compact_remote_v2.rs:202-209 | the two stages in turn install the replacement history that the next two rows speak of |
| `CompactedHistory.CompactionIsLastAndOnly` | codex-rs/core/src/compact_remote_v2.rs:202-209 | after remote compaction with context free of compaction items, the new compaction item is last and the only one |
| `CompactedHistory.InstalledCost` | codex-rs/core/src/compact_remote_v2.rs:202-209 | however long the history, its replacement costs at most the retention budget, one marker and the context |
| `CompactedHistory.SelectUserMessages` | codex-rs/core/src/compact.rs:370-389 | the backwards loop with its two exits computes the budgeted selection of user texts |
| `CompactedHistory.BuildCompactedHistoryWithLimit` | codex-rs/core/src/compact.rs:364-415 | history, selected user messages and the summary or its stand-in, in this order |
| `CompactedHistory.BuildCompactedHistory` | codex-rs/core/src/compact.rs:351-362 | the same with the limit of twenty thousand tokens |
| `CompactedHistory.LocalCost` | codex-rs/core/src/compact.rs:370-389 | the selected user texts cost at most the limit and one marker |
| `CompactedHistory.ParseUserMessage` | codex-rs/core/src/event_mapping.rs:32-69 | a message with a contextual part is none; otherwise its text is the input texts run together without the tags next to images |
| `CompactedHistory.PlainMessageRead` | codex-rs/core/src/event_mapping.rs:32-69 | without images a message reads as all its input texts run together |
| `CompactedHistory.TaggedImageRead` | codex-rs/core/src/event_mapping.rs:39-50 | an image between its tags, named or not, reads as nothing |
| `CompactedHistory.SingleTextRead` | codex-rs/core/src/event_mapping.rs:32-69 | a single text is read back as itself unless it is contextual |
| `CompactedHistory.SummaryExactly` | codex-rs/core/src/compact.rs:306-308 | a summary is a text that begins with the prefix and a line break |
| `CompactedHistory.SelectedAreNotSummaries` | codex-rs/core/src/compact.rs:306-308 | truncating a user's text never makes it a summary |
| `CompactedHistory.SummariesNeverAccumulate` | codex-rs/core/src/compact.rs:235-249 | for any history, the compaction after a local one collects exactly the user texts selected, less those that read as contextual, with the texts of the injected context before the last of them, and never the summary |
| `DerLength.DerItemLength` | codex-rs/codex-client/src/custom_ca.rs:426-450 | returns n exactly when the definite-form header is complete and header plus big-endian content length, over unbounded integers, is n and lies in the buffer: overflow never changes an answer |
| `DerLength.FirstDerItem` | codex-rs/codex-client/src/custom_ca.rs:422-424 | the item is the prefix of that length, is complete by itself, and exists whenever such a length does |
| `DerLength.TrailingBytesIgnored` | codex-rs/codex-client/src/custom_ca.rs:426-450 | bytes behind an item change neither whether it is read nor its length |

## Left out

- LogReplaysRun: exact for faithfulness after each edit; of the end of a run alone it gives one direction, because a later edit can repair an earlier loss.
- DotFreeOriginsAgree: assumes arrays of at most 2^31 items, the range of the source's index counter.
- ServerRequestFates: requests whose ids repeat are covered by `RunAccounts` alone, which counts events and not requests.
- DeltasRefineFullRequests: assumes that a server never completes two responses of one connection under one non-empty id, and that a new connection is a new one.
- SummariesNeverAccumulate: the summary prefix is a parameter without an ellipsis, as the shipped one is, and which texts are contextual is a parameter too.
- Requests for a token refresh, which the in-process client refuses before forwarding.
- RemoteRunKeeps: assumes that each command brings a response sender of its own, which the one-shot channels of the source guarantee.
- MergeTomlValues: works on values and returns the merged tree instead of updating it in place, and the pushed and popped path, which nothing reads, is absent.
- ApplySet: works on values, putting the tables passed on the way down together again; the changed flag is absent, as are validation, conversion from JSON, version conflicts and persistence.
- RecordOrigins: threads the map and the path as values instead of mutating them.
- Equality of TOML floats is textual, so a NaN equals itself here and does not in the source.
- File paths are lists of components without normalisation; versions of layers are given, not hashed.
- `effective_user_config`, `layers_high_to_low` and the other getters of the layer stack would only add easy members.
- Failing sends of notifications into the outgoing queue, which the source logs and ignores.
- Thread-state listeners, turn history and `clear_all_listeners`.
- The order of count updates and notifications between concurrent publishers of thread status, which the source does not promise either: each publish is one step.
- The gate counts a body as started when its token is taken; panics, aborts and cancelled futures are not modelled.
- Saturation in the token estimates, which no string within the address space reaches, and overflow of their sum.
- Collecting the compaction output of a stream, trimming call history to the context window and the summarising request itself.
- Retries, timeouts, telemetry, tracing, TLS, websocket and file input and output, which become step outcomes or are absent.
- Shutdown state, constrained values, command-line overrides, rate limits and the many one-branch mappings of the protocol.
