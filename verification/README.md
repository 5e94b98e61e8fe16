# Verified models of the telemetry client, push delivery and release toolkit

This project models the parts of the repository that coordinate concurrent work
or transform structured data, and proves what they promise for every input,
every interleaving and every run.

**The Go server.** The MQTT client (`internal/mqtt`), the gateway client
(`internal/gateway`), the hand-over between them (`main.go`) and push delivery
(`internal/push`).

- `MqttMachine` is a step relation over goroutine program counters, with
  `gatewayMu` and `stateMu` as readers/writer locks and session, generation and
  clock read in steps of their own. `MqttInvariant`, `MqttPreserve` and
  `MqttSteps` prove an inductive invariant of it, `MqttTheorems` says what that
  means for every run, and `MqttHandover` says when a water publish rests on a
  native reading.
- `Wakeup` is the coalescing trigger word, `GatewayLife` the start/stop/hand-over
  protocol of the gateway client. `MqttJoined` runs the telemetry client and the
  gateway client in one machine: the guards that `MqttMachine` puts on gateway
  callbacks and on the end of the gateway client are derived there from the gateway
  client's own flags and mutex.
- `Cerbo` is the native telemetry reducer, incremental against batch, across losses
  and new subscriptions.
- `Processor` is transition detection, the baseline map against the history.
- `PushQueue` holds the sections that read and change the durable queue;
  `Dispatcher` interleaves the run loop, its workers and everything else that
  touches the queue.

**The release toolkit** (`scripts`).

- `OciGraph` specifies the bounded walk over an OCI archive; `OciArchive` is the
  walk as the source runs it, on an object with mutable fields; `OciFootprint`
  and `OciAccepted` prove what the walk depends on and guarantees; `Provenance`
  and `RoundTrip` are detaching and replaying build evidence.
- `Decimal`, `JsonScan`, `JsonTree`, `JsonEdit`, `JsonSplice`, `JsonField`,
  `JsonMeaning` and `JsonDocument` are the span-retaining JSON parser and the
  in-place edits, down to characters; `VersionSync` synchronises many declared
  inputs; `Identity` has the release identities and numeric projections.
- `Ledger` has the decisions on one snapshot of the version ledger and the
  calls that read and write it; `LedgerRuns` interleaves release runs at every
  API call.
- `WorkflowGraph`, `ToolchainDiff`, `MarkdownMask` and `MarkdownSections` are the
  depth-first search over workflows, the explicit-stack comparison of toolchain
  records, and the offset-preserving masking of release notes.

Concurrent protocols are state machines on values. Code that fills fields or
runs loops is imperative here too (`OciArchive.Archive`, `JsonDocument.Parser`,
`PushQueue.Durable`, `Processor.Processor`, `Cerbo.Reducer`, `Ledger.GitHub`,
`WorkflowGraph.Walk`, and the methods on their own), each proved to compute the
specification function that the lemmas are about.

## What the proofs found

- **Unfinished hand-over.** `DisableGatewayMode` leaves gateway mode under
  `gatewayMu`, and clears the gateway's water observations only afterwards under
  `stateMu` (`internal/mqtt/client.go:176-187`). A water publish in between is
  fresh, but can rest on a gateway observation: the backing is native exactly
  when no hand-over is unfinished or a Mode reading of the device has been accepted
  since that hand-over began (`MqttHandover.NativeBackingIff`), and a run publishes
  on the gateway's observation alone (`MqttHandover.GatewayBackedPublish`).
- **ESS flag.** A settings tombstone clears the ESS mode and leaves
  `NativeESSObserved` set, unlike the batch reducer on the same cache. The two
  agree exactly when the Hub4Mode leaf is present or never was
  (`Cerbo.EssObservedIff`, `Cerbo.EssTombstone`).
- **Emptied collections.** Incremental and batch results agree in every value and
  availability flag; a field differs exactly when it is a collection that is missing
  now and was owned once or cleared by a lost connection: the one empties it, the
  other never sets it (`Cerbo.IncrementalEqualsBatch`). A battery reading and the
  battery's tombstone are enough (`Cerbo.BatteriesEmptied`).
- **Second edit.** Editing a JSON manifest twice changes nothing more, except that
  the second edit is refused exactly when the first one overwrote the name that
  grants ownership (`JsonMeaning.EditTwice`): so for every declaration whose field is
  the name and whose version differs from it (`JsonMeaning.OwnerOverwritten`), as for
  the name a and the version b (`JsonMeaning.SecondEditRefused`).
- **Outgrown ledger.** Reading refuses a ledger above 4,000,000 bytes, and writing
  does not look at the size. A reachable ledger can be read exactly when it is not
  above the limit and its branch does not exist without it (`LedgerRuns.ReadFailsIff`).
  Once above the limit it never changes again (`LedgerRuns.TooLargeIsFinal`), and
  reservations that all succeed lead there (`LedgerRuns.Outgrown`).
- **Silent toolchain change.** Python's `==` identifies `true` with `1`, and NaN with
  nothing, so `toolchain_changes` reports nothing exactly when the records are equal
  and not the bare NaN, or are equal to Python while a number changed its JSON type
  (`ToolchainDiff.SilentIff`).
- **Spurious toolchain change.** Containers compare an object with itself as equal,
  and the decoder hands out one NaN object. A NaN on both sides is therefore passed
  over while everything beside it is equal, and reported as changed as soon as
  something beside it differs (`ToolchainDiff.NaNSpeaks`).

## Model

| member | source | states |
|---|---|---|
| `MqttSteps.StepKept` | internal/mqtt/controller_commands.go:57-101 | the machine's invariant (lock exclusion, what each program counter knows, current banners, backed publishes and acknowledgements) is kept by every step of every goroutine and of the environment |
| `MqttTheorems.WriteSectionFenced` | internal/mqtt/push.go:192-204 | in every reachable state, while a callback bound to a session writes, the session is still that one, gateway mode is off, the generation is the one it read, and nobody else is inside `stateMu` |
| `MqttTheorems.CallbackWritesInside` | internal/mqtt/notifications.go:59-78 | a callback changes shared state in no other section than that one |
| `MqttTheorems.RetiredCallbackNeverWrites` | internal/mqtt/push.go:170-178 | once the session has advanced past a callback's session, no later step of that callback changes the state, whatever else the run does |
| `MqttTheorems.NativeBannersAreCurrent` | internal/mqtt/notifications.go:452-489 | whenever no source change holds `gatewayMu`, every native banner was put there by the current session, or by the gateway in gateway mode |
| `MqttTheorems.AcknowledgementPaired` | internal/mqtt/controller_commands.go:117-192 | success is reported only for an override answer received after the reporting goroutine's own latest dispatch, in the same session and generation, with a newer receipt, not retained and matching the request, that no later frame or snapshot replaced |
| `MqttTheorems.ControllerPublishFresh` | internal/mqtt/client.go:494-547 | every synchronous generic controller publish is backed by a live frame or available envelope at most 30 s old that nothing replaced |
| `MqttTheorems.WaterPublishFresh` | internal/mqtt/water.go:21-57 | every MQTT water publish is backed by the newest Mode observation of that device, at most 30 s old; a native one was not retained, and it is native unless a hand-over is unfinished |
| `MqttTheorems.PublishFenced` | internal/mqtt/client.go:512-547 | at the step that publishes, gateway mode is off and session and generation are those captured at the start |
| `MqttTheorems.SnapshotsOnlyWhileLive` | internal/mqtt/client.go:223-312 | where gateway callbacks begin only in the live phase, which ends only when none runs, a snapshot is applied only in that phase and with gateway mode on, although the phase and the mode can change between a callback's steps |
| `MqttJoined.Projects` | internal/gateway/client.go:168-209 | every step of the two clients together, in which no guard asks whether the gateway client lives or is quiet, is a step of the telemetry client's machine or leaves it alone: its two guards hold by themselves |
| `MqttJoined.StepKept` | internal/gateway/client.go:144-209 | the joint invariant (both machines' own, and that every gateway callback running in the telemetry client is one the gateway client stands at) is kept by every step |
| `MqttJoined.CallbacksOnlyWhileLive` | internal/gateway/client.go:376-389 | whenever the telemetry client is in a gateway callback, gateway mode is on, the gateway client is at that call, and no Stop has returned |
| `MqttJoined.StoppedForGood` | internal/gateway/client.go:128-142 | after any Stop has returned the telemetry client is in no gateway callback, and in none ever again |
| `MqttJoined.NoSnapshotAfterStop` | main.go:362-367 | from then on no gateway snapshot is applied, in any continuation of any run |
| `MqttHandover.NativeBackingIff` | internal/mqtt/client.go:176-188 | for every water publish of every run: its backing is a native reading exactly when no hand-over is unfinished, or a Mode reading of that device was accepted since that hand-over left gateway mode |
| `MqttHandover.GatewayBackedPublish` | internal/mqtt/client.go:182-187 | a concrete reachable run that publishes in an unfinished hand-over on the gateway's observation alone |
| `Wakeup.OneWorker` | internal/mqtt/client.go:414-437 | at most one worker, and the pending word is 0 exactly when none runs or is being started |
| `Wakeup.NoLostWakeup` | internal/mqtt/client.go:404-438 | whenever the word is 0, every settled trigger was followed by a handler call that began after it |
| `Wakeup.RunsBounded` | internal/mqtt/client.go:420-433 | handler calls never exceed successful triggers, nor those the triggers; when idle each success was one call |
| `Wakeup.WorkerStepsBounded` | internal/mqtt/client.go:420-428 | workers take at most four steps for each trigger, so they end when triggers do |
| `GatewayLife.DoneClosedOnce` | internal/gateway/client.go:115-142 | `done` is closed at most once for any mix of Start and Stop, and exactly once when a Stop has passed its wait |
| `GatewayLife.StopJoins` | internal/gateway/client.go:128-209 | after any Stop has returned, no callback from the poll loop or an override acknowledgement runs or ever starts |
| `GatewayLife.HandOverIsFinal` | main.go:349-368 | after the recovery probe has cleared the publisher or left gateway mode, no gateway callback reaches the telemetry client |
| `Cerbo.LastWriterWins` | internal/mqtt/cerbo.go:568-633 | after any history of readings, tombstones, losses and new subscriptions the leaf cache is the last-writer-wins map of that history |
| `Cerbo.IncrementalEqualsBatch` | internal/mqtt/cerbo.go:483-557 | for any reduction and any such history, once resubscribed: availability is the batch reducer's, every shown field is the batch value, nothing stale survives; a field differs exactly when it is a missing collection that was owned or lost |
| `Cerbo.LossClears` | internal/mqtt/cerbo.go:901-919 | after a lost connection no field is available and none holds a value, whatever came before |
| `Cerbo.CollectionTombstone` | internal/mqtt/cerbo.go:465-510 | for any reduction that shows a collection for one leaf and not without it: that reading and its tombstone leave the collection emptied, where the batch reducer leaves it unset |
| `Cerbo.BatteriesEmptied` | internal/mqtt/cerbo.go:281-283 | so for a battery's state of charge and its tombstone, with the fields the reduction always shows beside it |
| `Cerbo.HistoryIrrelevant` | internal/mqtt/cerbo.go:483-506 | two histories with the same latest values leave the same availability and the same values, whatever was lost in between |
| `Cerbo.EssObservedIff` | internal/mqtt/cerbo.go:486-491 | the ESS flag equals the batch reducer's exactly when the Hub4Mode leaf is present or never was |
| `Cerbo.EssTombstone` | internal/mqtt/cerbo.go:581-589 | whatever else the reduction shows, one Hub4Mode reading and its service's tombstone leave the flag set and the batch flag clear |
| `Cerbo.Reducer.ClearMissing` | internal/mqtt/cerbo.go:492-497 | the pass over owned keys clears exactly the missing ones, in any order of the keys |
| `Cerbo.Reducer.ShowPresent` | internal/mqtt/cerbo.go:498-506 | the pass over the reduction shows exactly its fields, in any order of the keys |
| `Cerbo.Reducer.ApplyOverlays` | internal/mqtt/cerbo.go:483-506 | the whole state after the two passes is the specified one |
| `Cerbo.Reducer.HandleDevice` | internal/mqtt/cerbo.go:568-633 | every message has exactly the effect of its classification: rejected, service removed, or one leaf written |
| `Cerbo.Reducer.Subscribe` | internal/mqtt/client.go:450-457 | a new subscription drops the cache and reapplies the overlays under the ownership of earlier sessions |
| `Cerbo.Reducer.Invalidate` | internal/mqtt/cerbo.go:903-914 | the pass over the direct fields clears exactly those, in any order, and keeps ownership and the ESS flag |
| `Processor.KeyTextInjective` | internal/push/processor.go:107-112 | the text key of the baseline map determines kind and identity |
| `Processor.RaisesIff` | internal/push/processor.go:105-170 | a sample raises an event exactly when the preceding sample of its kind had the same identity, was valid, is at most 30 s old, was not dropped by a complete observation, and the pair crosses the threshold |
| `Processor.RaisesOne` | internal/push/processor.go:120-137 | nothing else is raised, and at most one event for each sample |
| `Processor.OneBaselinePerKind` | internal/push/processor.go:105-118 | at most one baseline stands for each kind |
| `Processor.LowBatterySeparated` | internal/push/processor.go:164-167 | between two low-battery events of one key lies a sample of it above 20 |
| `Processor.StandingIs` | internal/push/processor.go:105-118 | the last sample of a kind stands when valid and seen by every later complete observation |
| `Processor.StandingFrom` | internal/push/processor.go:105-137 | a standing baseline comes from such a sample |
| `Processor.RebaseRefines` | internal/push/processor.go:105-126 | dropping the newly deselected key and rebasing the sampled one keeps the map the refinement of the history |
| `Processor.Processor.Reset` | internal/push/processor.go:45-64 | a new epoch starts with no history |
| `Processor.Processor.Observe` | internal/push/processor.go:65-137 | an observation appends its samples, and its sweep when complete, to the history the map refines; a disconnected processor ignores it |
| `Processor.Processor.TakeSample` | internal/push/processor.go:105-137 | one sample keeps the refinement and the raised events those of the history |
| `Processor.Processor.Take` | internal/push/processor.go:106-136 | the new maps and the events of one sample, without touching the rest |
| `Processor.Processor.Sweep` | internal/push/processor.go:127-137 | the sweep keeps the refinement |
| `Processor.Processor.KeepSeen` | internal/push/processor.go:127-137 | exactly the seen keys stay, in any order of deletion |
| `PushQueue.Durable.Pending` | internal/push/sender.go:97-119 | the one-pass filter keeps exactly the live items in order and returns exactly the due ones, or changes nothing but the failure flag |
| `PushQueue.Durable.IsCurrent` | internal/push/sender.go:124-140 | true exactly for a live, allowed item whose (ID, attempts) is still queued |
| `PushQueue.Durable.Find` | internal/push/sender.go:133-138 | an (ID, attempts) pair is found exactly when it is queued |
| `PushQueue.Durable.Finish` | internal/push/sender.go:180-216 | a stale outcome changes nothing; otherwise the queue is the settled one |
| `PushQueue.KeptItems` | internal/push/sender.go:101-115 | the kept items are exactly the queued items that are live, and due items are kept ones |
| `PushQueue.SettledItems` | internal/push/sender.go:186-212 | every item after settling is an untouched other item, or the delivered one a single attempt later with its backoff |
| `Dispatcher.StepKept` | internal/push/sender.go:61-95 | the dispatcher's invariant is kept by every step of the loop, the workers, the store's other users and the clock |
| `Dispatcher.GuardUnsent` | internal/push/sender.go:238-250 | when the guard lets a request pass, this attempt has never been transmitted |
| `Dispatcher.SentOncePerAttempt` | internal/push/sender.go:142-178 | in every run each (ID, attempt) is transmitted at most once |
| `Dispatcher.SentAtMostThreeTimes` | internal/push/sender.go:97-216 | in every run each delivery is transmitted at most three times, however stale the snapshots |
| `Dispatcher.NeverConcurrent` | internal/push/sender.go:72-93 | at most two deliveries are in flight, never two of the same one |
| `Dispatcher.RetryWaits` | internal/push/sender.go:200-212 | no retry is transmitted before its backoff has passed |
| `Dispatcher.TransmittedIsRetired` | internal/push/sender.go:180-216 | while the store works, a transmitted attempt that nobody is settling is no longer queued |
| `Dispatcher.FailureIsFinal` | internal/push/store.go:210-247 | after a failed save, in every continuation, the store stays failed, the queue never changes, and nothing is transmitted but attempts that had already passed the guard |
| `OciArchive.Archive.ReadJson` | scripts/merge_oci_archives.py:209-221 | reads exactly the present, bounded, parseable members within the total budget, and records name and size |
| `OciArchive.Archive.ReadBlob` | scripts/merge_oci_archives.py:223-248 | accepts exactly descriptors whose blob is contained, of an expected type and of the declared size |
| `OciArchive.Archive.LayerDigest` | scripts/merge_oci_archives.py:378-422 | the cached and the computed expansion give the same identity, and every use adds to the root file system's total |
| `OciArchive.Archive.CheckLayers` | scripts/merge_oci_archives.py:350-370 | the loop accepts exactly when every layer expands to its diff ID within the budgets |
| `OciArchive.Archive.CheckImage` | scripts/merge_oci_archives.py:316-376 | accepts exactly the images of the specification, with that new state |
| `OciArchive.Archive.CheckRuntimeImage` | scripts/release_provenance.py:161-170 | each platform once, checked as its own image |
| `OciArchive.Archive.CheckStatements` | scripts/merge_oci_archives.py:494-521 | the statement loop accepts exactly when every statement names the subject, and collects their predicate types |
| `OciArchive.Archive.FindSubject` | scripts/merge_oci_archives.py:432-488 | the subject of an OCI-artifact or legacy attestation, or a refusal |
| `OciArchive.Archive.CheckAttestation` | scripts/merge_oci_archives.py:424-528 | accepts exactly the attestations of the specification |
| `OciArchive.Archive.CheckLeaf` | scripts/merge_oci_archives.py:287-314 | dispatches a manifest and refuses duplicate leaves |
| `OciArchive.Archive.WalkIndex` | scripts/merge_oci_archives.py:254-271 | walks all children in order, or refuses |
| `OciArchive.Archive.Walk` | scripts/merge_oci_archives.py:273-314 | the recursive walk on fields computes the specified walk, within depth 8 and 1024 visits |
| `OciArchive.Archive.Open` | scripts/merge_oci_archives.py:154-175 | opening succeeds exactly when the specification does, with its result |
| `OciFootprint.WalkFootprint` | scripts/merge_oci_archives.py:254-314 | a second archive that agrees on the touched members gives the very same walk, whatever else it holds |
| `OciFootprint.OpenFootprint` | scripts/merge_oci_archives.py:158-163 | the same for a whole opening |
| `OciFootprint.WalkUnique` | scripts/merge_oci_archives.py:177-207 | a root descriptor fixes everything below it: two digest-checked archives accepted from it give the same walk |
| `OciAccepted.OpenIsGood` | scripts/merge_oci_archives.py:168-175 | every image found passed all image checks and is a leaf, leaves are distinct, every touched member exists and is explained |
| `Provenance.CollectRuntimeInputs` | scripts/release_provenance.py:305-327 | the loop over inputs collects exactly the specified parts, or fails with the first input that does |
| `RoundTrip.DetachReplayRoundTrip` | scripts/release_provenance.py:346-397 | for every two accepted inputs carrying provenance: they are collected exactly when each re-read manifest fits its archive's budget; then both replays equal the original walks, and verification accepts the pair exactly when the runnable archive and the sidecar's decoded size fit theirs |
| `RoundTrip.ReplayUnique` | scripts/release_provenance.py:191-216 | any two verified pairs with the same stored index and layout replay to the same walk |
| `RoundTrip.RuntimeAcceptedIff` | scripts/release_provenance.py:144-177 | the detached runnable archive passes its own validator exactly within its size budgets, and then with exactly the two descriptors |
| `RoundTrip.OverlayAgrees` | scripts/release_provenance.py:180-216 | every member the original walk touched is in the overlay with its original bytes |
| `JsonScan.ScanPrefix` | scripts/version_plan.py:600-602 | a scalar token keeps its value and length in any delimited surroundings |
| `JsonScan.DumpStringScans` | scripts/version_plan.py:661-661 | a written string is one token and reads back as its code points |
| `JsonScan.DumpIntScans` | scripts/version_plan.py:616-627 | a written integer is one token and reads back as itself |
| `JsonTree.ParseBodySound` | scripts/version_plan.py:593-602 | an accepted value is well formed and renders to exactly the text consumed |
| `JsonTree.ParseBodyComplete` | scripts/version_plan.py:553-602 | every rendering of a well-formed tree, in any delimited surroundings, parses to that tree |
| `JsonTree.ParseItemSound` | scripts/version_plan.py:548-551 | the same with the blanks around a value |
| `JsonTree.ParseItemComplete` | scripts/version_plan.py:578-591 | the same with the blanks around a value, the other way |
| `JsonEdit.LocateRenders` | scripts/version_plan.py:600-602 | the text is what stands left of a scalar, its token and what stands right |
| `JsonEdit.LocateReplaced` | scripts/version_plan.py:663-664 | a replaced token stands between the same texts |
| `JsonEdit.LocateOther` | scripts/version_plan.py:658-664 | another scalar keeps its token and its place relative to the edit |
| `JsonEdit.ValueReplace` | scripts/version_plan.py:663-665 | replacing a token replaces exactly that value |
| `JsonEdit.GetSetMany` | scripts/version_plan.py:655-662 | after many replacements every path reads as the old value with the replacements below it |
| `JsonSplice.ReverseOrderIsSimultaneous` | scripts/version_plan.py:663-664 | edits applied last to first are one simultaneous substitution |
| `JsonSplice.SplicesReplace` | scripts/version_plan.py:658-664 | splicing the recorded spans renders the tree with those tokens replaced |
| `JsonSplice.ValueReplaceAll` | scripts/version_plan.py:655-665 | its value is the old one with exactly those scalars replaced |
| `JsonField.SpansLocate` | scripts/version_plan.py:540-602 | a span is recorded for exactly the scalar paths and covers exactly the token |
| `JsonField.CoerceStable` | scripts/version_plan.py:616-627 | coercing a projected value again gives the same scalar |
| `JsonField.PlanPlanned` | scripts/version_plan.py:653-662 | the planned edits cover distinct recorded spans, and every selected field ends with the projected value |
| `JsonMeaning.DocumentRenders` | scripts/version_plan.py:605-613 | every accepted document is the rendering of a well-formed tree |
| `JsonMeaning.RenderedIsDocument` | scripts/version_plan.py:605-613 | every such rendering is accepted, as that tree |
| `JsonMeaning.EditLocality` | scripts/version_plan.py:630-665 | the edited text parses again, with the same outer blanks, to the old value with exactly the selected scalars replaced |
| `JsonMeaning.EditIsSimultaneous` | scripts/version_plan.py:653-665 | the edit is the simultaneous substitution of non-overlapping spans |
| `JsonMeaning.EditTwice` | scripts/version_plan.py:630-662 | a second edit changes nothing and reports the projected values, and is refused exactly when the first overwrote the owning name |
| `JsonMeaning.OwnerOverwritten` | scripts/version_plan.py:646-665 | for every name and every other version: in the document that holds just the name, the name is edited once, and the second edit is refused |
| `JsonMeaning.SecondEditRefused` | scripts/version_plan.py:646-665 | the same for one text, character by character |
| `JsonDocument.Parser.Whitespace` | scripts/version_plan.py:548-551 | stops at the first character that is not a blank |
| `JsonDocument.Parser.Parse` | scripts/version_plan.py:593-602 | returns exactly what the specification parses and records exactly its spans, or fails with it |
| `JsonDocument.Parser.ScalarAt` | scripts/version_plan.py:600-602 | a scalar's value, end and span |
| `JsonDocument.Parser.ItemAt` | scripts/version_plan.py:583-585 | one array item with its spans |
| `JsonDocument.Parser.ArrayAt` | scripts/version_plan.py:578-591 | the loop over items parses and records exactly the array |
| `JsonDocument.Parser.KeyAt` | scripts/version_plan.py:559-568 | a new key and its colon, or a refusal |
| `JsonDocument.Parser.MemberAt` | scripts/version_plan.py:559-570 | one member with its spans; a duplicate key is refused |
| `JsonDocument.Parser.ObjectAt` | scripts/version_plan.py:553-576 | the loop over members parses and records exactly the object |
| `JsonDocument.Load` | scripts/version_plan.py:605-613 | a document's value and spans, or a refusal when anything follows it |
| `JsonDocument.JsonEditText` | scripts/version_plan.py:630-665 | the loops over fields and edits compute the specified edit, with each failure |
| `VersionSync.SyncVersions` | scripts/version_plan.py:1041-1099 | the two passes compute the specified outcome: refused, conflicting, drifted or synchronised |
| `VersionSync.SecondRunFindsNoDrift` | scripts/version_plan.py:1074-1099 | for any adapter, acceptance settles all selectors at once and a second run finds no drift, in check mode or not |
| `VersionSync.CheckPassesIff` | scripts/version_plan.py:1093-1096 | check mode passes exactly when every selector already was settled |
| `VersionSync.SettledHolds` | scripts/version_plan.py:1074-1081 | a settled JSON selector holds its projected value |
| `VersionSync.OtherEditKeeps` | scripts/version_plan.py:1072-1081 | an edit by another selector keeps a settled one settled unless it writes its fields or names |
| `VersionSync.IndependentNeverConflicts` | scripts/version_plan.py:1051-1081 | independent JSON selectors never conflict: the second pass accepts whenever every edit does |
| `VersionSync.AcceptedHolds` | scripts/version_plan.py:1041-1099 | after an accepted JSON synchronisation every declared value is in place at once |
| `Identity.TagDetermines` | scripts/version_plan.py:291-319 | equal tags of accepted identities mean equal base, channel and sequence |
| `Identity.AppleBijective` | scripts/version_plan.py:483-487 | the triple is within 1..9999, 0..99, 0..99, and build numbers 1..99990000 and such triples correspond one to one |
| `Identity.AppleOrder` | scripts/version_plan.py:485-487 | the correspondence preserves and reflects order |
| `Identity.Pep440Monotone` | scripts/version_plan.py:472-482 | the nightly number is strictly monotone in (run, attempt), injective, and at most 2^64-2 |
| `Identity.NightlyNumberIs` | scripts/version_plan.py:476-482 | an accepted stamp's number is that of its run and attempt, refused exactly when the attempt or the number is too large |
| `Ledger.AllocateGood` | scripts/release_state.py:193-215 | an allocation keeps build numbers and beta/RC tags distinct, raises the counter above everything, and leaves the floor |
| `Ledger.PublishGood` | scripts/release_state.py:229-302 | consuming a number keeps the ledger good and never lowers the floor; without promotion it rises |
| `LedgerRuns.ReadFailsIff` | scripts/release_state.py:98-149 | in every reachable world the ledger can be read, except exactly while its branch exists without the file or the file is above 4,000,000 bytes |
| `LedgerRuns.TooLargeIsFinal` | scripts/release_state.py:113-119 | in any run, a ledger above the limit is the ledger at every later point |
| `LedgerRuns.Outgrown` | scripts/release_state.py:152-161 | for every encoding that spends at least one byte on each record and every stable request, a run in which all reservations succeed leads to a ledger above the limit |
| `LedgerRuns.SnapshotHeld` | scripts/release_state.py:152-161 | a file that is again what it was at the snapshot has been that all the time: no accepted write overlooks another one |
| `LedgerRuns.AloneReserves` | scripts/release_state.py:166-215 | the interleaved steps of a reservation, when nobody interferes, come to what `GitHub.ReservePlan` is proved to do |
| `LedgerRuns.AloneBegins` | scripts/release_state.py:305-330 | the interleaved steps of a publication, when nobody interferes, come to what `GitHub.BeginPublication` is proved to do |
| `Ledger.GitHub.Highest` | scripts/release_state.py:196-202 | the highest sequence reserved for a base and channel |
| `Ledger.GitHub.ReservePlan` | scripts/release_state.py:166-215 | without interference: the recorded plan again, or a new one recorded, or nothing changed |
| `Ledger.GitHub.BeginPublication` | scripts/release_state.py:305-330 | without interference: begins exactly when the checks pass, and then the floor is the plan's number |
| `LedgerRuns.StepKept` | scripts/release_state.py:166-330 | the invariant of concurrent runs is kept by every API call, failure and change of published releases |
| `LedgerRuns.StepExtends` | scripts/release_state.py:152-161 | no step lowers counter or floor, or changes a recorded plan |
| `LedgerRuns.LedgerOnlyGrows` | scripts/release_state.py:152-215 | the same across any stretch of any run |
| `LedgerRuns.LedgerIsGood` | scripts/release_state.py:98-161 | in every reachable ledger numbers are distinct and at most the counter, beta/RC tags never repeat, and the floor is at most the counter |
| `LedgerRuns.RetriesReturnTheSamePlan` | scripts/release_state.py:181-192 | two reservations reported for one run name the same plan |
| `LedgerRuns.RunsNeverShare` | scripts/release_state.py:193-215 | plans reported to different runs differ in number and, for beta and RC, in tag |
| `LedgerRuns.PublicationsIncrease` | scripts/release_state.py:305-330 | publications consume strictly increasing numbers; once one is consumed no older plan begins publication or promotion |
| `WorkflowGraph.Walk.CallableWorkflow` | scripts/workflow_contracts.py:216-234 | a visited workflow is finished with everything it calls, or an error with a witness is returned; the search ends |
| `WorkflowGraph.Walk.VisitJobs` | scripts/workflow_contracts.py:224-234 | every called job's target is finished and every step job is timed |
| `WorkflowGraph.Walk.ValidateGraph` | scripts/workflow_contracts.py:237-243 | succeeds exactly when every reachable workflow exists, passes and is on no cycle, with exactly the reachable set |
| `WorkflowGraph.WitnessRefutes` | scripts/workflow_contracts.py:216-234 | every error names a real defect: a recursion error a real reachable cycle |
| `WorkflowGraph.FinishedGood` | scripts/workflow_contracts.py:216-243 | a finished workflow exists, passes and is on no cycle |
| `WorkflowGraph.FinishedClosed` | scripts/workflow_contracts.py:237-243 | everything reachable from finished roots is finished |
| `ToolchainDiff.ToolchainChanges` | scripts/release_versioned.py:99-125 | the explicit stack emits exactly the recursive, depth-first, key-sorted differences in order, and ends |
| `ToolchainDiff.QueueMapping` | scripts/release_versioned.py:61-78 | pushes the fields of both mappings in reverse key order |
| `ToolchainDiff.QueueList` | scripts/release_versioned.py:81-96 | pushes the positions of both lists in reverse order |
| `ToolchainDiff.FieldsByKey` | scripts/release_versioned.py:69-78 | one comparison for each key of the sorted union, with both values or the missing mark |
| `ToolchainDiff.UnionSorted` | scripts/release_versioned.py:69-69 | the keys come in strictly increasing order |
| `ToolchainDiff.UnionMembers` | scripts/release_versioned.py:69-69 | the keys are exactly those of either side |
| `ToolchainDiff.PositionsByIndex` | scripts/release_versioned.py:89-96 | as many positions as the longer list, each with both values or the missing mark |
| `ToolchainDiff.SilentIffPyEq` | scripts/release_versioned.py:109-125 | nothing is reported exactly when Python calls the records equal |
| `ToolchainDiff.PyEqIs` | scripts/release_versioned.py:109-110 | what containers take for equal, without a change of a number's type, is equality |
| `ToolchainDiff.SilentIff` | scripts/release_versioned.py:99-125 | nothing is reported exactly when the records are equal and not the bare NaN, or equal to Python with a number of changed type |
| `ToolchainDiff.NaNSpeaks` | scripts/release_versioned.py:109-125 | for any two fields, the first NaN on both sides: nothing is reported while the second is equal, and otherwise the NaN is reported as changed before the second's own differences |
| `ToolchainDiff.TrueBecomesOne` | scripts/release_versioned.py:109-112 | a concrete change that is not reported |
| `MarkdownMask.RunsMaximal` | scripts/release_control.py:1673-1673 | the runs are exactly the maximal blocks of backticks |
| `MarkdownMask.CodeEndsClose` | scripts/release_control.py:1671-1681 | a run is mapped exactly when a later run has its length, and then to the end of the nearest such run |
| `MarkdownMask.CodeSpanEnds` | scripts/release_control.py:1671-1681 | the reverse pass computes that map |
| `MarkdownMask.ScanTiles` | scripts/release_control.py:1689-1705 | the pieces of a line follow each other without gap or overlap |
| `MarkdownMask.ScanComments` | scripts/release_control.py:1690-1703 | every masked piece is a comment, stopped by the first closing mark or the end of the line |
| `MarkdownMask.CommentLine` | scripts/release_control.py:1684-1706 | the loop blanks exactly the comment pieces and returns whether one stays open |
| `MarkdownMask.MaskKeeps` | scripts/release_control.py:1684-1706 | length and newlines stay, and nothing outside comments changes |
| `MarkdownSections.SplitJoins` | scripts/release_control.py:1724-1724 | the lines joined are the text |
| `MarkdownSections.ReleaseLines` | scripts/release_control.py:1720-1742 | the loop with its fence and comment flags yields the specified lines |
| `MarkdownSections.MaskingAligned` | scripts/release_control.py:1720-1776 | the masked text lines up with the original character by character; fenced and indented code lines are unchanged |
| `MarkdownSections.ReleaseHeadings` | scripts/release_control.py:1754-1771 | the headings found are the specified ones, at their offsets |
| `MarkdownSections.HeadingsInOrder` | scripts/release_control.py:1756-1771 | headings are ordered and disjoint |
| `MarkdownSections.ReleaseSections` | scripts/release_control.py:1774-1782 | the sections cut the text at exactly the headings of the level or above |
| `MarkdownSections.SectionsOrdered` | scripts/release_control.py:1774-1782 | section bodies are ordered, disjoint slices of the original |
| `MarkdownSections.SectionBody` | scripts/release_control.py:1781-1782 | each body is its slice, lines up with the masked text, and holds no heading of the level or above |

## Left out

MQTT and gateway:

- Console and camera callbacks and the asynchronous command buffer: the source keeps them outside the session fence and the readiness checks.
- The electricity-tariff and ESS-mode commands, the Cerbo alarm commands, portal refresh and keepalive: variations of the guarded publish that is modelled.
- The gateway publisher's own path of a command: it is one outcome of the machine's command step.
- The mutexes and slot bookkeeping of alarms and platform notifications, the push source field and `observePush`: the machine keeps banners and the generation.
- Predicates of `internal/state` beyond readiness and acknowledgement: their inputs are fields of the machine's data.
- Wall clocks: a monotone integer time.

Native telemetry:

- The numeric detail of `cerboOverlay`: the overlay is any function from leaves to fields; floats are not modelled. Only the lemmas that name it ask more of it: the ESS mode shows only with a Hub4Mode leaf, and only direct fields show.
- Daemon and gateway input to the reducer: the theorems are about native messages.
- Go's map iteration order: the passes are proved for any order.

Push:

- `Processor.Observe` reports no store errors and no notifications: an error in the source returns early, and notifications go straight to the queue.
- Fresh delivery identities are assumed of `Enqueue`: the source remembers the latest 4096 event keys, so a key older than that could come back.
- The provider's HTTP exchange, encryption and payload limits are outcomes of a step.
- A run ends with the process: a restart between a transmission and its settlement can transmit that attempt again, as the source says nothing durable in between.

Archives:

- Tar and compression decoding, base64, file identity and the sidecar's own byte limit: archives are maps from names to bytes, and layer expansion is a function.
- SHA-256 is an injective function, and the encoder's output parses to what it encoded.
- Wrongly typed JSON fields of OCI documents: documents carry the typed fields the walk inspects, and anything else is a failed parse.
- `merge_archives`, `verify_all` and `verify_staged`: they repeat the checks modelled here.

Version inputs:

- Python's recursion limit and its limit on integer digits; UTF-8 decoding, texts are sequences of characters.
- TOML, Python, plist and PBX editors: `VersionSync` is proved for any adapter, and for the JSON one in full.
- Atomic replacement of the edited files, evidence digests and the policy validators.
- The calendar check of nightly stamps is a parameter.

Ledger:

- The GitHub API, token scopes and JSON shape checks of the ledger: a read gives a ledger or fails, a write is accepted or rejected.
- The encoded length of a ledger is a function of its content, at least one byte for each record.
- `next_sequence` and `ensure_absent` are outcomes of a step: any number, either answer.
- A crash between creating the ledger's branch and writing its first file leaves a state that the source refuses until it is repaired by hand; safety holds, progress is not claimed.

Other tools:

- `diagnostic_label` and the escaping of keys are parameters of the comparison; the two zeros of floating point are one number.
- The per-file checks of a workflow are reduced to its triggers and the timeouts of its jobs.
- The titles of headings and the final trimming of section bodies; the guidance and setext scanners.
- Home Assistant polling, configuration, authentication, routing, logging and the embedded UI.
