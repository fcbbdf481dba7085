# she: a verified model

This project models the parts of she, the MQTT and Matter automation server, in which state,
message order or text structure make correctness hard to see, and proves what they are for.

- **sheDB** (`Json`, `Tables`, `Documents`, `ViewWorker`, `ViewProtocol`): the document store and the
  worker that keeps incremental map/reduce views of it, as two processes with message channels in
  both directions, a coalescing queue, and crash and respawn.
- **Line diff** (`LineDiff`, `UnifiedDiff`, `PatchText`): the LCS diff, the hunks made of it, and their text
  read back as a patch.
- **mosquitto.conf** (`MosquittoConf`): the stateful line parser and the canonical printer.
- **Think filter** (`ThinkFilter`): the automaton that takes `<think>` blocks out of a token stream.
- **Matter bindings and groups** (`Bindings`, `BindingProtocol`, `Groups`): multi-step protocols over
  devices with access lists, capacity limits, failures at any step and rollback.
- **MQTT addressing** (`Wildcards`, `BridgeNames`, `BridgeTopics`): topic filters, device names,
  topic templates and the way back from a topic to a Matter address.
- **dynsec** (`Dynsec`): the request queue with one command in flight.
- **Thread health, secrets, Thread datasets, log rotation** (`ThreadHealth`, `Redaction`, `Secrets`,
  `Datasets`, `LogFile`). `Text` holds the string functions of the runtime that several of them use.

Each component that works step by step has its class or method here, proved equal to a function on
values; the laws are lemmas about those functions, mostly over whole runs. `dafny verify dfyconfig.toml`
checks everything.

## What turned out not to hold

Where a promise fails, a lemma gives the exact condition under which it holds, and another builds an
input for which it fails.

- `addBinding` rolls the target's access list back also when the source had already taken the new
  entries and only the confirmation failed; the binding is then left without its grant
  (`BindingProtocol.AddCoveredExactly`, `BindingProtocol.TooLateUncovers`; `BindingProtocol.TooLateHappens`).
- `removeBinding` looks for remaining uses of a cluster only in the list it has just removed them
  from, so the look saves nothing (`BindingProtocol.NothingStillBound`), and a grant another endpoint
  of the source needs is revoked (`BindingProtocol.RemoveCoveredExactly`; `BindingProtocol.RevokedElsewhere`).
- A member device can be taken past its group limit: where the group is mapped without being in the
  full table, and where the table cannot be read and the map, counted instead, is shorter
  (`Groups.GroupLimitPassedExactly`; `Groups.GroupLimitPassed`).
- `extend` of a missing document and `setProp` of an undefined value can write without reporting it
  (`Documents.SilentExactly`; `Documents.SilentExtend`, `Documents.SilentProp`); views do not see such
  a write (`ViewProtocol.SilentWriteUnseen`; `ViewProtocol.SilentWriteMissed`).
- A `setProp` of an undefined value below `_id` replaces a document's id by an object
  (`Documents.IdentityKeptExactly`; `Documents.IdLost`).
- A deleted view can come back (`ViewProtocol.DeletedViewReturnsExactly`; `ViewProtocol.DeletedViewReturns`).
- Hunk headers are wrong without context when an unnumbered tail follows a kept line, and such a patch
  cannot be applied (`UnifiedDiff.HeadersExactly`, `UnifiedDiff.HunksPatch`; `UnifiedDiff.WrongHeader`).
  Empty ranges are headed by the line after them, where the unified format names the line before
  (`UnifiedDiff.StandardHeadersExactly`).
- A reprinted passthrough line can be swallowed by the last listener (`MosquittoConf.RoundTripExactly`;
  `MosquittoConf.PassthroughSwallowed`).
- Filters that start with a wildcard match `$` topics (`Wildcards.AgreesWithStandardExactly`;
  `Wildcards.DollarWitness`).
- A template that names nodes only by id resolves wrongly where another device is named by that id
  (`BridgeTopics.AddressRoundTripExactly`; `BridgeTopics.ShadowedByName`).
- Secret values with stars can survive their own replacement: some list of the values leaks exactly
  when one is unsafe (`Redaction.RedactionCompleteExactly`, `Redaction.UnsafeSurvives`). In the one list
  that a store builds an unsafe value may still be covered by a safe one inside it (`Redaction.SafeInside`),
  or by one that no line can avoid (`Redaction.LastStarExactly`; `Redaction.CompleteWithoutSafeInside`).
- An answer that comes after its command timed out settles the command in flight, with `{}` or, where
  both have the same name, with the earlier command's data (`Dynsec.OwnAnswersExactly`;
  `Dynsec.LateAnswerTaken`).
- The comment at src/matter/thread-health.js:79 says that a one-off alert clears on the next run; the
  code never makes it active, so it is never reported as cleared, and the model follows the code.

## Model

| member | source | states |
|---|---|---|
| `Json.DeepEqualReflexive` | src/lib/shedb-core.js:63-70 | a value is equal to itself |
| `Json.DeepEqualSymmetric` | src/lib/shedb-core.js:63-70 | equality does not depend on the order of its arguments |
| `Json.DeepEqualTransitive` | src/lib/shedb-core.js:63-70 | equality is transitive, although it takes an array and an object with the same keys for equal |
| `Json.DeepExtend` | src/lib/shedb-core.js:72-85 | the merge loop leaves the merged object and returns whether some key changed |
| `Json.MergedExtends` | src/lib/shedb-core.js:72-85 | a merge leaves unnamed keys alone, takes the source's value for a named key, and merges recursively where both sides are plain objects |
| `Json.ChangeIffDifferent` | src/lib/shedb-core.js:72-85 | a merge returns true exactly when the merged object is not deepEqual to the old one |
| `Json.ExtendIdempotent` | src/lib/shedb-core.js:72-85 | the same partial a second time changes nothing and returns false |
| `Json.SetThenGet` | src/lib/shedb-core.js:30-47 | after setProp, getProp reads the value back, whatever stood in the way |
| `Json.DelThenGet` | src/lib/shedb-core.js:30-61 | after delProp nothing is read at the path; it returns false, and changes nothing, exactly when nothing was there |
| `Json.SilentSetExactly` | src/lib/shedb-core.js:35-47 | a setProp that returns false changed the object exactly when its path was missing, and then only for an undefined value |
| `Tables.LookupPut` | src/lib/shedb-core.js:242 | writing a key of a JavaScript object changes that key only |
| `Tables.PutOrdered` | src/lib/shedb-core.js:242 | writing a key keeps the enumeration order: index keys ascending, then the others as inserted |
| `Tables.PutSame` | src/lib/shedb-core.js:242 | writing back the value a key has changes nothing, its place in the order included |
| `Documents.WritesOneDoc` | src/lib/shedb-core.js:226-324 | an accepted call that is not a deletion writes one document: its new body with the revision put back, one higher if it changed |
| `Documents.OthersUntouched` | src/lib/shedb-core.js:226-324 | no call touches another document |
| `Documents.OneRevisionPerChange` | src/lib/shedb-core.js:226-324 | a reported change adds exactly one to the store's and to the document's revision and sends exactly one patch holding the document; an unreported one adds and sends nothing |
| `Documents.ApplyValid` | src/lib/shedb-core.js:226-324 | every call keeps in each document a truthy `_id` and a numeric `_rev`, and the table's order |
| `Documents.IdentityKeptExactly` | src/lib/shedb-core.js:226-324 | a document that carries its own id as `_id` carries it after any call, and a created one does, exactly unless the call sets an undefined value along a path below `_id` |
| `Documents.IdentityOverEveryRun` | src/lib/shedb-core.js:226-324 | over every run without such a call every document carries its own id |
| `Documents.IdLost` | src/lib/shedb-core.js:296-324 | setting `_id.x` to undefined replaces the id by an object and neither reports it nor sends a patch |
| `Documents.SetTakesContent` | src/lib/shedb-core.js:226-252 | after set the content is the payload's; a change is reported exactly when it was not before; the same call again does nothing |
| `Documents.ExtendMergesContent` | src/lib/shedb-core.js:257-281 | after extend the content is the old one extended by the partial, and a change is reported exactly when they differ |
| `Documents.SilentExactly` | src/lib/shedb-core.js:226-324 | a call that reports no change altered the documents exactly in two cases: extending a missing document, and setting an undefined value along a missing path |
| `Documents.SilentExtend` | src/lib/shedb-core.js:257-281 | an empty partial creates a document and neither reports it nor sends a patch |
| `Documents.SilentProp` | src/lib/shedb-core.js:296-324 | setting `x.y` to undefined creates `x` and neither reports it nor sends a patch |
| `Documents.RevisionsOverEveryRun` | src/lib/shedb-core.js:195-324 | over every run of calls the store's revision counts the reported changes, and a document's revision those since it was created, less one |
| `Documents.DocumentStore.Set` | src/lib/shedb-core.js:226-252 | the method updates documents, revision and patches as the specification says |
| `Documents.DocumentStore.Extend` | src/lib/shedb-core.js:257-281 | extend, through its temporary document and stripped fields, updates documents, revision and patches as the specification says |
| `Documents.DocumentStore.Delete` | src/lib/shedb-core.js:283-289 | del removes the document, always counts as a change and sends one deletion |
| `Documents.DocumentStore.Prop` | src/lib/shedb-core.js:296-324 | the property methods set, create and del update documents, revision and patches as the specification says |
| `ViewWorker.IrrelevantPut` | src/lib/shedb-worker.js:44-48 | a document that the filter does not match has no part in the view, wherever its key stands |
| `ViewWorker.RelevantIdsExact` | src/lib/shedb-worker.js:44-48 | a view is enqueued for a changed document exactly when it is registered and its filter matches the document |
| `ViewWorker.DeliverValid` | src/lib/shedb-worker.js:104-151 | every message keeps the queue free of repeats, and waiting views imply a scheduled run |
| `ViewWorker.UntouchedUnlessPending` | src/lib/shedb-worker.js:104-151 | a view that a message leaves neither queued nor scheduled has the value from scratch it had before |
| `ViewWorker.Mirror.OnMessage` | src/lib/shedb-worker.js:104-151 | the handler turns the mirror into the specified next worker state and posts the specified replies |
| `ViewWorker.Mirror.EnqueueForDoc` | src/lib/shedb-worker.js:44-57 | the loop enqueues exactly the relevant views, in order |
| `ViewWorker.Mirror.BuildAndRun` | src/lib/shedb-worker.js:70-98 | one run posts the view's value over the live documents and schedules the next |
| `ViewProtocol.ReceiveShows` | src/lib/shedb-core.js:382-405 | after a result arrives the view shows it, also where an equal result was kept |
| `ViewProtocol.StepKeepsInv` | src/lib/shedb-core.js:226-440 | every call, delivery, run, crash, exit and respawn keeps: once all messages in flight are taken, the worker mirrors the main thread and each live view is pending there or will show its value |
| `ViewProtocol.ConvergesOverEveryRun` | src/lib/shedb-core.js:377-440 | over every interleaving from start-up: at quiescence each live view is filter, map and reduce run from scratch over the main thread's documents, in key order |
| `ViewProtocol.WhereEachViewStands` | src/lib/shedb-worker.js:44-98 | at every moment with the worker up, a live view is current counting replies in flight, queued or scheduled, or a message in flight will queue it |
| `ViewProtocol.SettlesUnderEverySchedule` | src/lib/shedb-worker.js:54-98 | left alone with the worker up, every order of deliveries and runs settles: none is longer than a stated bound, one can go on exactly until quiescence, and then all live views are right |
| `ViewProtocol.SettlesByItself` | src/lib/shedb-worker.js:54-98 | some such order reaches quiescence |
| `ViewProtocol.SilentWriteUnseen` | src/lib/shedb-core.js:264-280 | after a write that sends no patch while the worker is up, whatever was in flight: once the system has settled, the views are right exactly if the write makes no difference to any live view |
| `ViewProtocol.SilentWriteMissed` | src/lib/shedb-core.js:264-280 | an empty extend of a missing document leaves a settled view of all documents wrong |
| `ViewProtocol.DeletedViewReturnsExactly` | src/lib/shedb-core.js:335-345 | a deleted view comes back without being defined again exactly when a result of it is in flight or the worker can still compute one before it learns of the deletion |
| `ViewProtocol.DeletedViewReturns` | src/lib/shedb-core.js:335-345 | a view defined and at once deleted on a fresh system can come back |
| `ViewProtocol.ViewRegistry.OnWorkerMessage` | src/lib/shedb-core.js:382-405 | the message handler updates the views as specified |
| `ViewProtocol.ViewRegistry.DefineOrDrop` | src/lib/shedb-core.js:335-352 | query stores or deletes the definition, drops the view and posts one message |
| `ViewProtocol.ViewRegistry.SendInitialState` | src/lib/shedb-core.js:434-440 | the loop posts the documents and then every definition, in order |
| `LineDiff.LcsTable` | src/lib/text-diff.js:8-19 | the nested loops fill the table with the LCS lengths of all suffixes |
| `LineDiff.LcsSteps` | src/lib/text-diff.js:8-19 | dropping one line of either side costs at most one match: why taking a match at once is right |
| `LineDiff.LcsFits` | src/lib/text-diff.js:12 | no entry exceeds either remaining line count, so entries fit the cells |
| `LineDiff.KeepsAtMostLcs` | src/lib/text-diff.js:8-43 | no edit script between two line lists keeps more lines than the LCS, and what it changes follows from what it keeps |
| `LineDiff.DiffLines` | src/lib/text-diff.js:22-43 | the walk over the table emits the specified script |
| `LineDiff.DiffIsShortest` | src/lib/text-diff.js:22-43 | the script replayed on the old lines gives the new ones, and no script does so with fewer changes: \|a\| + \|b\| - 2 LCS |
| `LineDiff.WalkNumbered` | src/lib/text-diff.js:22-43 | lines emitted by the main loop carry their true positions on both sides; those of the tail loops carry none |
| `UnifiedDiff.HunkEnd` | src/lib/text-diff.js:81-94 | the extension loop stops at a hunk end behind which no change is within twice the context |
| `UnifiedDiff.HunkSpans` | src/lib/text-diff.js:74-103 | the hunks are ordered and disjoint and together hold every change |
| `UnifiedDiff.HeaderExactly` | src/lib/text-diff.js:96-99 | a header names the true line positions exactly unless the hunk starts with the unnumbered tail behind old lines |
| `UnifiedDiff.HeadersExactly` | src/lib/text-diff.js:95-100 | all headers are true for every context of at least one line; for context 0 exactly when no unnumbered tail directly follows a kept line |
| `UnifiedDiff.HunksPatch` | src/lib/text-diff.js:60-105 | a patch reader that applies the hunks where their headers say turns the old lines into the new ones exactly for a context of at least one line or without an unnumbered tail behind a kept line; else it rejects the patch |
| `UnifiedDiff.WrongHeader` | src/lib/text-diff.js:96-97 | the diff of one line and two, without context, has such a tail and a wrong header |
| `UnifiedDiff.StandardHeadersExactly` | src/lib/text-diff.js:96-99 | for every context of at least one line a header also follows the unified format, which names the line before an empty range, exactly when neither text is empty |
| `UnifiedDiff.EqualIffNoChanges` | src/lib/text-diff.js:67-72 | the script has no change exactly when the line lists are equal |
| `UnifiedDiff.UnifiedDiff` | src/lib/text-diff.js:60-105 | the text is empty exactly for equal line lists, else the names and the rendered hunks; the counts are those of the script |
| `PatchText.HunksBack` | src/lib/text-diff.js:95-102 | the printed headers and line marks are read back as the hunks, but for the script's line numbers |
| `PatchText.TextPatches` | src/lib/text-diff.js:60-105 | for names of one line: the text for any two texts, read back and applied to the lines of the old one, gives those of the new one exactly for a context of at least one line or without an unnumbered tail behind a kept line; else it is rejected |
| `MosquittoConf.ParseText` | src/lib/mosquitto-conf.js:67-122 | the line loop with its current listener computes the specified configuration |
| `MosquittoConf.ParseCanonical` | src/lib/mosquitto-conf.js:67-122 | what was parsed is canonical: clean distinct values under managed keys, well-formed listeners, passthrough lines of no managed key |
| `MosquittoConf.NamesRead` | src/lib/mosquitto-conf.js:32-59 | each key word names its key, and can stand in front of a value |
| `MosquittoConf.OrderHasPlaces` | src/lib/mosquitto-conf.js:222-243 | the printing order holds exactly the managed keys |
| `MosquittoConf.NumberBack` | src/lib/mosquitto-conf.js:94 | a printed number is parsed back, NaN and negative ones included |
| `MosquittoConf.ManagedBack` | src/lib/mosquitto-conf.js:244-258 | the printed managed lines are read back as the managed keys, repeated keys in order |
| `MosquittoConf.SamePrintSame` | src/lib/mosquitto-conf.js:263-289 | canonical listeners at one address that print the same are the same |
| `MosquittoConf.ListenerBack` | src/lib/mosquitto-conf.js:263-289 | a printed listener block is read back as that listener |
| `MosquittoConf.PassthroughBack` | src/lib/mosquitto-conf.js:291-297 | the reprinted passthrough lines come back unless a listener stands before them and the first of them with a key has a listener's key |
| `MosquittoConf.PrintedSplit` | src/lib/mosquitto-conf.js:291-307 | blank-line collapsing touches only the passthrough part |
| `MosquittoConf.SerialiseConf` | src/lib/mosquitto-conf.js:216-309 | the printer's loops produce the specified text |
| `MosquittoConf.RoundTripExactly` | src/lib/mosquitto-conf.js:67-309 | for every file: parsing what is printed of the parsed file gives the same managed keys, listeners and solid passthrough lines exactly when no listener swallows a passthrough line, and then printing again gives the identical text |
| `MosquittoConf.PassthroughSwallowed` | src/lib/mosquitto-conf.js:115-117 | a password file line in front of the first listener does not survive printing and parsing |
| `ThinkFilter.SafePart` | src/web/ai-context.js:213-217 | whatever text follows, no opening tag starts in the part that is emitted |
| `ThinkFilter.TailPart` | src/web/ai-context.js:203-205 | inside a block the last eight characters are all that matters |
| `ThinkFilter.OnePassVisible` | src/web/ai-context.js:203-222 | leaving the white space behind closing tags alone makes no difference up to white space |
| `ThinkFilter.Filter.Feed` | src/web/ai-context.js:199-225 | after each token what was emitted and the held tail are, up to white space, the one-pass removal of the text fed so far |
| `ThinkFilter.FilterStream` | src/web/ai-context.js:196-226 | however a text is cut into tokens, what is shown plus at most seven held characters is up to white space the text without its blocks: the cut makes no difference and nothing solid of a block is shown |
| `Bindings.GrantOperate` | src/matter/bindings.js:124-147 | the loop over the missing clusters computes the specified list or refusal |
| `Bindings.GrantExactly` | src/matter/bindings.js:124-147 | a grant gives exactly the wanted clusters to exactly that subject, mode and endpoint, and nobody loses anything |
| `Bindings.GrantExtends` | src/matter/bindings.js:124-147 | only she's own entries for the subject change, and only by targets appended; the Administer entry found is the same |
| `Bindings.GrantIdempotent` | src/matter/bindings.js:124-147 | granting again gives the same list |
| `Bindings.GrantRefusedExactly` | src/matter/bindings.js:124-147 | without the Administer entry a grant is refused; with it, exactly when the missing clusters outnumber the free target slots |
| `Bindings.GrantWithinLimits` | src/matter/bindings.js:106-147 | neither entries nor targets grow past the limits beyond what was there |
| `Bindings.RevokeOperate` | src/matter/bindings.js:154-167 | the loop computes the specified list |
| `Bindings.RevokeExactly` | src/matter/bindings.js:154-167 | a revoke takes exactly the clusters from exactly that subject, mode and endpoint |
| `Bindings.RevokeKeepsAdmin` | src/matter/bindings.js:154-167 | a revoke keeps she's Administer entry |
| `Bindings.RevokeUndoesGrantExactly` | src/matter/bindings.js:124-167 | revoking a grant gives back the original list exactly when the subject had none of the clusters and no own entry was without targets |
| `Bindings.GrantedClusters` | src/matter/bindings.js:170-177 | the clusters returned are exactly those granted |
| `Bindings.AddBindingEntries` | src/matter/bindings.js:189-202 | the loop appends one entry for each cluster not bound yet |
| `Bindings.AddBindsExactly` | src/matter/bindings.js:189-202 | adding binds exactly the clusters more, for exactly that target |
| `Bindings.RemoveBindsExactly` | src/matter/bindings.js:205-215 | removing unbinds exactly the clusters |
| `Bindings.RemoveUndoesAddExactly` | src/matter/bindings.js:189-215 | removing what was added gives back the list exactly when none of the clusters was bound |
| `Bindings.ClustersStillBound` | src/matter/bindings.js:218-227 | the clusters returned are exactly those some entry still binds |
| `BindingProtocol.Controller.AddBinding` | src/matter/controller.js:856-920 | the steps over both devices, with any of them failing, pass through the specified states to the specified outcome |
| `BindingProtocol.Controller.RemoveBinding` | src/matter/controller.js:927-979 | the steps of a removal, with any of them failing, pass through the specified states to the specified outcome |
| `BindingProtocol.NothingStillBound` | src/matter/controller.js:955-956 | the look for clusters still bound never saves one: after the entries are removed the same list binds none of them |
| `BindingProtocol.AddKeepsAdmin` | src/matter/controller.js:856-920 | in every intermediate, failing or rolled-back state each device that held she's Administer entry holds it |
| `BindingProtocol.RemoveKeepsAdmin` | src/matter/controller.js:927-979 | in every state of removeBinding, failing or not, each device that held she's Administer entry holds it |
| `BindingProtocol.AddCoveredExactly` | src/matter/controller.js:856-920 | every binding is covered by a grant in all states of addBinding exactly unless the grant is rolled back after the source took the new entries |
| `BindingProtocol.TooLateUncovers` | src/matter/controller.js:908-917 | in that case the last state leaves a binding without its grant |
| `BindingProtocol.TooLateHappens` | src/matter/controller.js:899-918 | two fresh devices and a binding whose read-back fails are such a case |
| `BindingProtocol.AddUndoneExactly` | src/matter/controller.js:907-918 | a failed addBinding leaves both devices as they were exactly unless a write is left behind: a binding, or a grant whose rollback was not tried or failed |
| `BindingProtocol.AddBinds` | src/matter/controller.js:886-906 | a successful addBinding binds exactly the clusters more |
| `BindingProtocol.AddGrants` | src/matter/controller.js:870-884 | a successful addBinding grants exactly the clusters more and changes no other node |
| `BindingProtocol.RemoveCoveredExactly` | src/matter/controller.js:927-979 | every binding stays covered in all states of removeBinding exactly unless it revokes a cluster that another endpoint of the same source binds |
| `BindingProtocol.RevokedElsewhere` | src/matter/controller.js:955-975 | two endpoints of a node that bind the same cluster of the same target are such a case |
| `BindingProtocol.RemoveSucceeds` | src/matter/controller.js:927-979 | after a successful removal the list binds none of the clusters, and a target that is online no longer grants them |
| `BindingProtocol.NobodyLockedOut` | src/matter/controller.js:856-979 | over every run of operations and faults no device loses she's Administer entry |
| `BindingProtocol.CoveredOverEveryRun` | src/matter/controller.js:856-979 | over every run all bindings are covered in all states exactly when no operation does one of those two things |
| `Groups.MapAddExactly` | src/matter/groups.js:86-95 | adding sets the group's key set, touches no other group and keeps one entry per group |
| `Groups.MapRemoveExactly` | src/matter/groups.js:98-100 | removing drops exactly the group's entries; the length is unchanged exactly when there was none |
| `Groups.NextId` | src/matter/groups.js:36-46 | the loop finds the smallest free id, and fails exactly when all are used |
| `Groups.Provisioner.EnsureKeySet` | src/matter/controller.js:1048-1079 | ensuring the key set and the map entry passes through the specified states, each step failing or not |
| `Groups.Provisioner.DropKeySet` | src/matter/controller.js:1082-1094 | dropping the map entry and the unused key set passes through the specified states, each step failing or not |
| `Groups.Provisioner.ProvisionMember` | src/matter/controller.js:1096-1122 | provisioning a member (key set, membership, access entry) passes through the specified states, each step failing or not |
| `Groups.Provisioner.DeprovisionMember` | src/matter/controller.js:1125-1154 | taking a member out passes through the specified states, each step tried whatever became of the one before |
| `Groups.EnsureKept` | src/matter/controller.js:1048-1079 | in every state key map entries name present key sets, a group keeps one entry, and the key sets stay within the reported limit or what there was |
| `Groups.DropKept` | src/matter/controller.js:1082-1094 | in every state of dropping, key map entries name present key sets (a key set goes only when no entry names it) and a group keeps one entry |
| `Groups.ProvisionKept` | src/matter/controller.js:1096-1122 | in every state of provisioning, key map entries name present key sets, a group keeps one entry, the key sets stay within the limit or what there was, and the Administer entry is kept |
| `Groups.DeprovisionKept` | src/matter/controller.js:1125-1154 | in every state of taking a member out, key map entries name present key sets, a group keeps one entry and the Administer entry is kept |
| `Groups.DeprovisionExactly` | src/matter/controller.js:1125-1154 | whatever else fails: the group leaves that endpoint of the table unless its removal fails before it takes effect; it loses exactly the clusters it was granted there, exactly when the access list is read, safe and written; unless another endpoint is a member its map entry goes |
| `Groups.KeptOverEveryRun` | src/matter/controller.js:1048-1154 | over every run of provisioning and taking out, with failures at any step: key map entries name present key sets, one entry per group, the Administer entry kept, key sets within the limit |
| `Groups.ProvisionSucceeds` | src/matter/controller.js:1096-1122 | a provisioned member has the key set, its map entry and the membership, and grants the group its clusters |
| `Groups.DropSucceeds` | src/matter/controller.js:1082-1094 | after dropping, the group has no entry, and the key set is gone exactly when no other entry names it and its removal took effect |
| `Groups.GroupLimitPassedExactly` | src/matter/controller.js:1053-1068 | whatever fails on the way, a device ends past its group limit, and with more groups than it had, exactly when it takes the group in and the check overlooked it: the table was full and did not hold the group, and the group was mapped or the table unreadable and the map below the limit |
| `Groups.EnsureSucceedsExactly` | src/matter/controller.js:1048-1079 | ensuring the key set succeeds exactly when the reads do, no limit is exceeded and each write that is needed takes effect and is confirmed |
| `Groups.GroupLimitPassed` | src/matter/controller.js:1056-1058 | a full table that cannot be read and an empty key map: a fifth group is taken in |
| `Wildcards.MqttWildcard` | src/lib/mqtt-wildcards.js:4-32 | the index loop computes the specified captures |
| `Wildcards.MatchesByWildcardRules` | src/lib/mqtt-wildcards.js:4-32 | for valid filters and topics it matches exactly by sections 4.7.1.2 and 4.7.1.3 of MQTT 3.1.1, the parent level of # included |
| `Wildcards.CapturesRebuildTopic` | src/lib/mqtt-wildcards.js:4-32 | the captures put back in place of the wildcards rebuild the topic |
| `Wildcards.AgreesWithStandardExactly` | src/lib/mqtt-wildcards.js:4-32 | with section 4.7.2 on $ topics it agrees for exactly the filters that do not start with a wildcard |
| `BridgeNames.CamelSnakeExactly` | src/matter/bridge-templates.js:67-77 | camel undoes snake exactly for names in which every capital gets an underscore and no own underscore stands before a letter or digit |
| `BridgeNames.MqttNameForm` | src/matter/bridge-templates.js:80-88 | every label gives a name of lower-case letters and digits with single underscores between |
| `BridgeNames.MqttNameKeepsExactly` | src/matter/bridge-templates.js:80-88 | exactly the names of that form are kept as they are |
| `BridgeNames.UniqueNameFree` | src/matter/bridge-templates.js:91-95 | the unique name is free: the name itself or the one with the smallest free suffix |
| `BridgeNames.FindUniqueName` | src/matter/bridge-templates.js:91-95 | the open-ended loop ends, because only finitely many names are taken |
| `BridgeTopics.MatchTopic` | src/matter/bridge-templates.js:125-138 | the loop hands the captures to the placeholders as specified |
| `BridgeTopics.FillJoined` | src/matter/bridge-templates.js:102-104 | filling a template fills its segments: no placeholder reaches over a slash |
| `BridgeTopics.MatchFilled` | src/matter/bridge-templates.js:102-138 | matching what a template of plain and whole-placeholder segments was filled with gives back exactly the values |
| `BridgeTopics.Bridge.EnsureNames` | src/matter/mqtt-bridge.js:99-111 | the loop names every paired node that has no name yet |
| `BridgeTopics.Bridge.Rename` | src/matter/mqtt-bridge.js:469-482 | renaming names every paired node first, then updates or rejects as specified |
| `BridgeTopics.Bridge.NodeIdForDevice` | src/matter/mqtt-bridge.js:117-121 | the lookup loop finds the first device of the name, else the node of the id |
| `BridgeTopics.NamedAllValid` | src/matter/mqtt-bridge.js:99-111 | after naming, every paired node has a name, kept ones unchanged, all distinct |
| `BridgeTopics.SetDeviceExactly` | src/matter/mqtt-bridge.js:469-482 | a rename goes through exactly for a node that is paired or has a name, and a name in form that no other node has once all paired nodes are named; it changes only that entry |
| `BridgeTopics.NamesDistinctOverEveryRun` | src/matter/mqtt-bridge.js:99-111 | over every run of naming and renaming the names stay distinct and in form |
| `BridgeTopics.AddressRoundTripExactly` | src/matter/mqtt-bridge.js:145-155 | for set and for get topics: resolving the topic filled for a node, endpoint, cluster and attribute gives back exactly those if and only if both names survive the change of case and, for templates naming the node only by id, no other device is named by that id |
| `BridgeTopics.ShadowedByName` | src/matter/mqtt-bridge.js:117-121 | where node 1 is named `2`, a template of ids does not lead back to node 2 |
| `BridgeTopics.DefaultTemplatesRoundTrip` | src/matter/bridge-templates.js:14-21 | with the default templates for setting and getting, the filled topic leads back to its address exactly when both names survive the change of case |
| `Dynsec.DynsecClient.Request` | src/lib/dynsec.js:86-101 | a request is refused, or queued and sent if nothing is in flight |
| `Dynsec.DynsecClient.OnMessage` | src/lib/dynsec.js:179-202 | a response settles the command in flight and sends the next |
| `Dynsec.DynsecClient.OnTimeout` | src/lib/dynsec.js:51-61 | the timeout fails the command in flight and its loop the whole queue |
| `Dynsec.DynsecClient.OnSubscribed` | src/lib/dynsec.js:140-157 | a connection sends what waits, then probes |
| `Dynsec.DynsecClient.OnClose` | src/lib/dynsec.js:167-173 | a close marks the connection down and leaves queue and flight as they are |
| `Dynsec.StepKeepsInv` | src/lib/dynsec.js:41-202 | every event keeps order, single flight, no stuck queue and own answers |
| `Dynsec.QueueOverEveryRun` | src/lib/dynsec.js:41-202 | over every run: requests are settled in the order they were accepted, each once or in flight or waiting; commands go out in that order; a waiting queue means one is in flight or the connection is down; a request resolves only with {} or an entry of its own command |
| `Dynsec.TimeoutSettlesAll` | src/lib/dynsec.js:51-61 | after a timeout every request accepted so far is settled and nothing more was published |
| `Dynsec.OwnAnswersExactly` | src/lib/dynsec.js:51-79 | with a broker that answers published commands in order and may lose answers, over every run: a request resolves or fails by exactly one answer and with what that answer says of its command, and all do so by their own command's answer exactly when no answer to a command that timed out arrives while another is in flight |
| `Dynsec.LateAnswerTaken` | src/lib/dynsec.js:72-79 | connect, request, timeout, the same request, the first answer: the second request resolves with the first one's data |
| `ThreadHealth.EvaluateSnapshot` | src/matter/thread-health.js:54-182 | the step-by-step evaluation computes the specified memory, raised and cleared alerts |
| `ThreadHealth.AlertsConserved` | src/matter/thread-health.js:54-182 | alerts active before and the persistent ones raised are, one for one, those active after and those cleared; keys stay distinct and the history bounded |
| `ThreadHealth.PartitionAlertsExactly` | src/matter/thread-health.js:100-103 | after a run a partition alert stands exactly when a network announces or its nodes report more than one partition |
| `ThreadHealth.MeshRaises` | src/matter/thread-health.js:128-155 | the collected sets raise exactly the splits the nodes report |
| `ThreadHealth.RouterAlertsExactly` | src/matter/thread-health.js:105-126 | a border router's alert stands exactly when its last listing is stale or, unlisted, it is known |
| `ThreadHealth.RoleAlertsExactly` | src/matter/thread-health.js:136-150 | after an evaluation a role alert stands exactly when the node's reports show a drop from a router role, or it stood before, and no report of a router role since |
| `ThreadHealth.RoleAlertsOverEveryRun` | src/matter/thread-health.js:136-150 | over every run of evaluations a role alert stands exactly from such a drop until the next report of a router role |
| `ThreadHealth.LinkAlertsExactly` | src/matter/thread-health.js:157-170 | after an evaluation a link alert stands exactly when the link's reports show a fall from at least 3 to at most 1, or it stood before, and no quality of at least 2 since |
| `ThreadHealth.LinkAlertsOverEveryRun` | src/matter/thread-health.js:157-170 | over every run of evaluations a link alert stands exactly from such a fall until the next quality of at least 2 |
| `ThreadHealth.ClearedByRecoveryOnly` | src/matter/thread-health.js:136-181 | a role or link alert is reported cleared only in an evaluation whose own reports show a recovery |
| `ThreadHealth.ValidOverEveryRun` | src/matter/thread-health.js:54-182 | over every run keys stay distinct and the history within its bound |
| `Redaction.Redact` | src/lib/secrets.js:274-279 | the loop computes the specified line, skipping values that are not there |
| `Redaction.WasThere` | src/lib/secrets.js:274-279 | a safe value found after a replacement was there before it, and is another value |
| `Redaction.NothingLeft` | src/lib/secrets.js:274-279 | a safe value in the list is in no redacted line, whatever the replacements join |
| `Redaction.UnsafeSurvives` | src/lib/secrets.js:274-279 | for any other value there is a line that still holds it after its replacement |
| `Redaction.RedactionCompleteExactly` | src/lib/secrets.js:274-279 | every list drawn from a set of values redacts completely exactly when no value starts or ends with a star or has three in a row |
| `Redaction.AloneExactly` | src/lib/secrets.js:274-279 | a list of one value redacts completely exactly when it is such a value |
| `Redaction.SafeInside` | src/lib/secrets.js:274-279 | a list redacts completely if every value in it holds a safe value of the list |
| `Redaction.LastStarExactly` | src/lib/secrets.js:274-279 | safe values followed by a value whose one star is its last character redact completely exactly when one of them is in the text that has that value's other characters twice |
| `Redaction.CompleteWithoutSafeInside` | src/lib/secrets.js:274-279 | so holding a safe value is not necessary: a list of two six-character values shows it |
| `Secrets.SecretStore.RebuildRedact` | src/lib/secrets.js:103-107 | the list is exactly the secret values of six or more characters, each once, longest first |
| `Secrets.SecretStore.Set` | src/lib/secrets.js:230-242 | set refuses or stores as specified, and the list is exact afterwards |
| `Secrets.SecretStore.Mark` | src/lib/secrets.js:245-255 | mark refuses, or makes an existing field secret and nothing else, and the list is exact afterwards |
| `Secrets.SecretStore.Remove` | src/lib/secrets.js:258-271 | remove refuses, or takes away the field or group (an emptied group with its last field), and the list is exact afterwards |
| `Secrets.SecretStore.RedactLine` | src/lib/secrets.js:274-279 | no safe secret value of six or more characters is left in a line |
| `Secrets.SecretAfterExactly` | src/lib/secrets.js:230-271 | after an operation a field is secret exactly when it was and was not removed, or the operation made it so |
| `Secrets.SecretUntilRemoved` | src/lib/secrets.js:230-271 | over every run a secret field stays secret until it is removed |
| `Datasets.Decode` | src/matter/thread-datasets.js:98-151 | the moving index reads the specified fields or fails at the specified offset, never past the end |
| `Datasets.EncodingRecovered` | src/matter/thread-datasets.js:98-151 | every list of TLVs is read back from its encoding, one-byte and escaped lengths |
| `Datasets.ReadAllIsEncoded` | src/matter/thread-datasets.js:98-151 | whatever is read to the end is the encoding of what was read |
| `Datasets.FieldsAreLast` | src/matter/thread-datasets.js:114-147 | each field holds the last value of its type, and TLVs of other types are kept in order |
| `Datasets.DecodesExactly` | src/matter/thread-datasets.js:98-151 | accepted are exactly the concatenations of complete TLVs whose last extended PAN id has eight bytes |
| `Datasets.TextRecovered` | src/matter/thread-datasets.js:66-74 | the hex text of at least four bytes is cleaned to itself and read back |
| `Datasets.NormaliseExactly` | src/matter/thread-datasets.js:66-74 | a text is cleaned to these digits exactly when it is they, in either case, with separators anywhere, an optional 0x in front and white space around, and they are at least four whole bytes |
| `Datasets.DatasetRoundTrip` | src/matter/thread-datasets.js:66-151 | the hex text of any such list is decoded as that list |
| `Datasets.DecoratedRoundTrip` | src/matter/thread-datasets.js:66-151 | and so is any text so decorated |
| `LogFile.RotatingLog.Shift` | src/lib/log-file.js:26-38 | the downward loop moves every file exactly one generation, gaps or not, and drops the oldest |
| `LogFile.RotatingLog.WriteLine` | src/lib/log-file.js:56-61 | a line is appended, and the file rotated when the limit is reached |
| `LogFile.RotatingLog.Files` | src/lib/log-file.js:63-70 | the files listed are exactly those that exist, newest first |
| `LogFile.StepConserves` | src/lib/log-file.js:26-61 | each step drops lines only from the oldest end |
| `LogFile.RotationOverEveryRun` | src/lib/log-file.js:26-70 | from an empty directory, after any writes and restarts: files oldest first are a suffix of all lines, at most keep + 1, the current below the limit, each exceeding it by less than its last line; without restarts every rotated file has reached it |

## Left out

General

- Strings are sequences of characters, not of UTF-16 code units: lengths and cuts inside a surrogate pair are not modelled.
- Object keys that a JavaScript prototype defines (`__proto__`, `constructor`, ...) are taken for ordinary keys.
- Disk persistence, encryption, logging, broadcasts, timers as clock time, HTTP, websockets and the web UI.
- Matter, MQTT, ssh and worker-thread calls: a device, broker or worker appears as state and steps that may fail.

sheDB

- Running view scripts: a definition is a pair of functions of one document and of the item list, which may throw. Timeouts, definitions that do not compile, and scripts that look at other documents are left out.
- Update listeners that write from inside their call.
- Values shared between documents, payloads and earlier results: documents are values here.
- Documents read from disk whose `_rev` is not a number, and `getProp` on the `length` of strings and arrays.
- A worker that exits with code 0 is not respawned; the model's worker dies with an error.
- Writes that report no change but alter a document are outside the convergence theorem; `SilentWriteUnseen` says what they do.

Diff, mosquitto.conf and think filter

- A negative or fractional context; file names are any strings.
- The 32-bit width of the table's cells, beyond the bound that `LcsFits` gives.
- Numbers in mosquitto.conf beyond 2^53; reading, writing, backing up and reloading the file.
- `stripThinking` and the case of tags it ignores; the held tail is never flushed, as in the source.

Bindings and groups

- Cluster names: the operations take numeric cluster ids, as after `clusterIdOf`.
- Group bindings (`_addGroupBinding`, `_removeGroupBinding`) and the store of groups and key sets.
- Two operations at a time; devices that change their lists on their own, or keep only part of a write: read-backs tell the truth, so the guards behind them have no failing case.
- Access entries of others that happen to grant the same: a grant is one of she's own entries.

Addressing

- Segments that mix text and a placeholder: filling and matching them is modelled, the round trip is stated for whole-segment templates.
- Endpoint texts in other than decimal digits (`Number` also reads hexadecimal, exponents and blanks).
- Upper-case letters outside ASCII in cluster and attribute names; commands, payloads and publishing.
- `validate`: an overlap between inbound and outbound templates.
- The matcher on filters that the standard forbids, beyond the captures that rebuild the topic.

dynsec, health, secrets, datasets, log

- `stop` and a second `init` of dynsec; the `$SYS` cache and the ready flag.
- Alert messages and labels; the remembered partition sets, which nothing reads.
- Loading the secrets file; the list kept when loading fails.
- Turning the network name into text; the dataset store and its views.
- Lines of log files that are lost in the stream's buffer; a directory that cannot be written.
