# Solem BL-IP: a verified model of the irrigation controller integration

The integration talks to an irrigation controller over an undocumented, fragment-based Bluetooth protocol. What
the controller stores - twelve program slots of seven chunks each, and the names of its outputs - must never be
corrupted by a lost link, a rejected frame, a cancelled task or a crash. This project models the parts of the
integration that carry that responsibility and proves what they keep.

## What is modelled

**Snapshots and the byte-preserving editor.** `Protocol` decodes and assembles the seven chunks of a program;
`Snapshots` parses a complete response (`IsSnapshot` says, without any bookkeeping, what a response denotes, and
`FromFrames` is proved to accept exactly the responses that denote something). `Patching` gives the byte-level
meaning of a patch and its laws, `PatchMeaning` its effect on the decoded program, `Editor` the imperative
`patch` with its exact refusals, `HiddenSlots` which additional slots it knows, `PatchLaws` what holds across several
patches. `Replay` has the revision
stream, the pre-write validation and the full replay of a snapshot; `Packing` the whole-program writer.

**Restore.** `Device` is the controller as a map from (slot, chunk) to payload, with what a faithful read of it
contains. It takes only frames that announce their own size. `Restore` folds a protected backup into frames and an expected state and proves the end-to-end
theorem. `ProgramBackup` is the durable backup with its restore journal; `RestoreTransaction` one restore attempt
in an environment that may acknowledge, reject, drop, cancel or crash at every point; `DateDrift` and
`Reconciliation` what a later reconciliation may conclude. `RestoreHistory` follows the journal through any sequence
of attempts, polls and restarts and says exactly when it is forgotten, `RestoreSafety` what its absence means for the
controller otherwise, and `LostJournal` runs the two attempts that forget it. `EditTransaction` is the edit of a
single program over the same one-shot write.

**Output names.** `StationNames` parses name responses and writes names; `RenameJournal` is the durable rename
manager, against a controller that may apply half a rename.

**Schedules and attribution.** `Calendar` and `Schedule` prove the bounded and two-candidate searches equal to
minima over an unbounded calendar and an infinite grid; `EditorForm` is the program form and the write of an
untouched form; `Activity` tracks watering runs and says when a run is called scheduled, and `Attribution` says the whole
of it without the observer.

**Links.** `Locking` is the task-reentrant controller lock, its registry and the stateless executor; `HeldLink`
the persistent client with its single subscription, `Delivery` who hears a frame on it.

Objects that the integration updates in place are classes; parsers and edits that fill dictionaries or overwrite
bytes in loops are methods proved against specification functions or predicates; pure arithmetic is functions.
What the environment does (which frame is answered and how, which save succeeds, which task moves next, the
clock) arrives as arguments, so every contract holds for every behaviour. `Options`, `Bytes` and `Modular` hold
shared types and small arithmetic.

## Assumptions and findings

- Names are byte strings and text decoding is the identity on them. SHA-256 is represented by the byte stream it
  digests; that this stream is injective is proved, that the hash is collision-free is assumed.
- The controller takes only well-formed writes (program frames that announce their own size, name frames of the write
  opcode), and replaces exactly the chunk or name half that such a frame addresses, if it applies the frame at all;
  nothing is assumed about when it does, and an acknowledgement is not taken as proof.
- Where a theorem speaks about the controller itself, reads are faithful: every stored chunk and nothing else, in
  any order, repetition and wrapping. The A/B/C fragments may be numbered differently in every read; the hidden
  slots keep their numbering between the reads of one transaction, because their raw ids are part of the revision.
- Over whole histories of restores or renames nobody else writes to the controller in between.
- The editor leaves the last byte of the second name chunk alone, and the decoder reads it. A patched name of
  31 bytes therefore decodes correctly if and only if that byte is zero (`PatchMeaning.PatchName`,
  `Restore.BackupRestored`).
- The restore journal of a half-applied restore can be forgotten. An attempt that resumes it, journals its own
  partial starting state and is refused before its first frame clears the journal again (`LostJournal.Forget` ends
  with a controller in neither the old nor the planned state and no journal in memory or on disk); so does an attempt
  or a poll that finds the partial state a journal started from and calls it unchanged.
  `RestoreHistory.JournalKept` and `RestoreHistory.Run` give the exact condition, `RestoreHistory.LostAfterOpenAttempt`
  its simplest instance, and `RestoreSafety.NoJournalMeansWhole` what holds in every history that avoids it. The
  rename journal gives the guarantee over whole runs, because a rename is refused while a journal is pending.
- Accepting a day-byte difference is not always harmless: a program header of 15 bytes, sent wrapped, passes the
  16-byte header test with its interval phase where the day is expected (`DateDrift.OddFrameSlipsThrough`: two complete
  responses). `DateDrift.AcceptedIsHarmless` says which accepted differences are harmless byte by byte, and
  `DateDrift.AcceptedReadsAlike` which ones leave the decoded programs alike. The journals the code writes itself are
  safe: a backup holds A, B and C, a patch refuses any other chunk length than the standard one, and so nothing that is
  accepted against the journal of such a restore hides an odd header (`Reconciliation.PlannedDriftIsHarmless`).
  Controllers with the standard chunk lengths never send one, so `Reconciliation.ReconcileIsSound` needs no condition.
- A held connection can see two subscribes: a subscribe that lands but raises is followed by an unsubscribe and another
  subscribe on the same connection (`HeldLink.SubscribedTwice`), against the intent stated at
  `ble/client_persistent.py:222-226`. What holds on every connection is that at most one subscribe returns and nothing
  follows it while the connection is in use; at most one is written exactly when no try that wrote is followed by
  another that did (`HeldLink.WireFacts`, `HeldLink.Run`).
- For interval programs the countdown is read relative to the day of the query. After a short gap the two chained
  searches therefore miss a second start when the run day is tomorrow and two of its starts are already over
  (`Activity.IntervalJudged`). The windows traced back are under two minutes (`Activity.ShortWindow`), so this takes
  slots at exactly 00:00 and 00:01 and a window that reaches the 00:01 of the run day (`Activity.OnlyMidnight`); then,
  and only then, the run is called Scheduled although two starts lie in the window (`Activity.GapInterval`, with
  `Activity.SecondStartMissed` as a real observation).

## Model

| member | source | states |
|---|---|---|
| Protocol.Normalize | custom_components/solem_blip/ble/protocol.py:864-885 | an accepted notification is mapped to one of the four canonical opcodes |
| Protocol.NormalizedFrame | custom_components/solem_blip/ble/protocol.py:864-885 | a frame counts bare or behind the wrapper byte 10 and only then; 30 and 38 stand for 2f and 37; nothing else changes |
| Protocol.ReadableMeans | custom_components/solem_blip/ble/protocol.py:973-1034 | a block is readable exactly when every chunk reaches to the end of the last field it must hold |
| Protocol.DecodeReadsPayloadOnly | custom_components/solem_blip/ble/protocol.py:973-1034 | decoding depends on nothing before offset 4 |
| Protocol.AssembledIsDecoded | custom_components/solem_blip/ble/protocol.py:973-1034 | applying the seven chunks one after the other gives the program they jointly denote |
| Protocol.ApplyChunkTwice | custom_components/solem_blip/ble/protocol.py:973-1034 | a repeated fragment changes nothing |
| Protocol.SortById | custom_components/solem_blip/ble/protocol.py:1062 | fragments by descending id, none lost or invented |
| Protocol.AssembleSlot | custom_components/solem_blip/ble/protocol.py:1037-1078 | for any fragments spelling a block from any base, repeated or not, the assembled program is the decoded block |
| Snapshots.InsertFrame | custom_components/solem_blip/ble/snapshot.py:30-41 | extras stay a sorted set |
| Snapshots.SortedUnique | custom_components/solem_blip/ble/snapshot.py:55 | a set of frames has one sorted listing |
| Snapshots.FromFrames | custom_components/solem_blip/ble/snapshot.py:26-56 | accepts exactly the responses that denote a snapshot, and returns it; every other response is an invalid snapshot |
| Snapshots.Collect | custom_components/solem_blip/ble/snapshot.py:29-45 | the dictionaries hold exactly the content; a conflict means no snapshot exists |
| Snapshots.Build | custom_components/solem_blip/ble/snapshot.py:46-56 | the dictionaries become the denoted snapshot, or no snapshot exists |
| Snapshots.BuildSlot | custom_components/solem_blip/ble/snapshot.py:46-54 | seven fragments spanning six ids are renumbered to the canonical block; any other layout means no snapshot exists |
| Snapshots.BlockIsComplete | custom_components/solem_blip/ble/protocol.py:1081-1111 | a spelled block passes the completeness test with its top id as the first fragment |
| Snapshots.Consecutive | custom_components/solem_blip/ble/snapshot.py:48 | seven distinct ids within a span of six are exactly the consecutive ones |
| Snapshots.SnapshotDependsOnContent | custom_components/solem_blip/ble/snapshot.py:26-56 | blocks, extras and programs are functions of the content alone |
| Snapshots.SameContentSameSnapshot | custom_components/solem_blip/ble/snapshot.py:26-56 | acceptance depends on the content alone |
| Snapshots.ContentIgnoresArrival | custom_components/solem_blip/ble/protocol.py:864-885 | order, repetition and the `10` wrapper leave the content unchanged |
| Snapshots.BaseIsIncidental | custom_components/solem_blip/ble/snapshot.py:50-54 | shifting the fragment numbering of an editable slot leaves its canonical block unchanged |
| Snapshots.NumberedResponse | custom_components/solem_blip/ble/snapshot.py:26-56 | three complete blocks, numbered down from any ids, are a response that denotes exactly them |
| Replay.StreamInjective | custom_components/solem_blip/ble/snapshot.py:58-65 | the length-prefixed stream determines the list of frames |
| Replay.RevisionIdentifies | custom_components/solem_blip/ble/snapshot.py:58-65 | revisions are equal if and only if blocks and extras are |
| Replay.NumberingIsIncidental | custom_components/solem_blip/ble/snapshot.py:26-65 | renumbering A, B and C, each by its own shift, changes neither acceptance nor blocks, extras, programs and revision |
| Patching.WindowsDisjoint | custom_components/solem_blip/ble/snapshot.py:233-261 | different fields never write the same byte |
| Patching.OrderIndependent | custom_components/solem_blip/ble/snapshot.py:233-261 | the order of the changes is irrelevant |
| Patching.PatchesCompose | custom_components/solem_blip/ble/snapshot.py:233-261 | two patches in a row are one patch; a patch on itself adds nothing |
| PatchMeaning.PatchName | custom_components/solem_blip/ble/snapshot.py:234-239 | only the name changes, and it decodes to the text if and only if the text is shorter than 31 bytes or the following byte is zero |
| PatchMeaning.PatchOneMeaning | custom_components/solem_blip/ble/snapshot.py:233-261 | one change replaces its decoded field and no other, exactly when the name fits |
| PatchMeaning.PatchOverlays | custom_components/solem_blip/ble/snapshot.py:233-261 | the decoded program is the old one overlaid with all changes |
| PatchMeaning.PatchKeeps | custom_components/solem_blip/ble/snapshot.py:233-261 | headers, the date bytes 12-15 and the last name byte are never written |
| Editor.WriteStartTimes | custom_components/solem_blip/ble/snapshot.py:249-254 | the in-place loop writes exactly the start-time window, or refuses exactly the invalid lists |
| Editor.WriteDurations | custom_components/solem_blip/ble/snapshot.py:255-261 | the in-place loop writes exactly the named stations, or refuses exactly the invalid ones |
| Editor.ApplyChange | custom_components/solem_blip/ble/snapshot.py:233-261 | one change writes exactly its window, or is refused exactly when invalid |
| Editor.ApplyChanges | custom_components/solem_blip/ble/snapshot.py:233-261 | the loop over the changes yields the byte-level patch, or refuses exactly when some change is invalid |
| Editor.Expect | custom_components/solem_blip/ble/snapshot.py:283-292 | the reconstructed response parses, to the snapshot with one block replaced and nothing else |
| Editor.PatchedSnapshotDenoted | custom_components/solem_blip/ble/snapshot.py:283-292 | the rebuilt frames denote the patched snapshot: other slots and extras untouched |
| Editor.Patch | custom_components/solem_blip/ble/snapshot.py:194-292 | refuses with exactly the stated reason in the stated order; otherwise yields the seven frames (none when nothing changed) and the exact snapshot to expect |
| Replay.WriteFrameTarget | custom_components/solem_blip/ble/snapshot.py:279-283 | every frame of a block announces its own size, addresses its chunk of that slot and carries its payload |
| HiddenSlots.KnownMeans | custom_components/solem_blip/ble/snapshot.py:67-88 | the additional slots are known exactly when there are none, or when all nine of 3-11 are there and no other, each with seven chunks of the standard lengths numbered down from some id |
| PatchLaws.RepeatedPatchSendsNothing | custom_components/solem_blip/ble/snapshot.py:274-276 | patching the result again is accepted and sends no frames |
| PatchLaws.PatchInTwoSteps | custom_components/solem_blip/ble/snapshot.py:194-292 | two accepted patches leave what one patch with both sets of changes would |
| PatchLaws.PatchedPhase | custom_components/solem_blip/ble/snapshot.py:263-273 | an interval program always comes out with a phase inside its period |
| Replay.ValidateExpectedWrite | custom_components/solem_blip/ble/snapshot.py:129-192 | accepts if and only if the expectation is the preflight layout with exactly the written payloads overlaid and every other chunk untouched down to its header |
| Replay.AimedMeans | custom_components/solem_blip/ble/snapshot.py:171-179 | a write is well aimed exactly when it is a 2f or 37 frame for an existing chunk 0-6 |
| Replay.CollectWrites | custom_components/solem_blip/ble/snapshot.py:171-179 | every frame must address an existing chunk; the last payload per chunk wins |
| Replay.ExplainedMoves | custom_components/solem_blip/ble/snapshot.py:129-192 | a validated expectation is what a device holds after frames that announce their sizes |
| Replay.PatchExplained | custom_components/solem_blip/ble/snapshot.py:274-292 | every accepted patch passes the validation |
| Replay.ExplainsComposes | custom_components/solem_blip/coordinator.py:682-728 | concatenated validated writes are validated against the last expectation |
| Replay.WriteFrames | custom_components/solem_blip/ble/snapshot.py:90-127 | succeeds exactly on complete twelve-slot snapshots, with all slots in order |
| Replay.ReplayRestores | custom_components/solem_blip/ble/snapshot.py:90-127 | replaying a complete snapshot brings a device of that layout back to it, whatever it held |
| Replay.ReplayExplained | custom_components/solem_blip/ble/snapshot.py:90-192 | replaying a complete snapshot onto itself passes the validation |
| Device.ReadDescribes | custom_components/solem_blip/ble/snapshot.py:26-56 | any faithful read of a store parses to the description of the store |
| Device.ReadParses | custom_components/solem_blip/ble/snapshot.py:26-56 | a faithful read of a store with complete A/B/C slots always parses |
| Device.DescriptionUnique | custom_components/solem_blip/ble/snapshot.py:46-56 | a store has one description, whatever the A/B/C numbering |
| Device.PatchMovesStore | custom_components/solem_blip/ble/snapshot.py:277-292 | sending an accepted patch moves the described store to the described expectation and touches no other slot |
| Restore.BackupRestored | custom_components/solem_blip/coordinator.py:684-701 | a patched slot decodes to the backup on all nine fields if and only if the name fits |
| Restore.Plan | custom_components/solem_blip/coordinator.py:682-728 | the fold succeeds exactly when every entry is acceptable on its own; otherwise it reports the first that is not |
| Restore.PlanEntry | custom_components/solem_blip/coordinator.py:684-728 | one backup entry patches the expectation reached so far, and no other slot of it |
| Restore.RefusalLocal | custom_components/solem_blip/coordinator.py:708-727 | acceptability of an entry does not depend on what was done to other slots |
| Restore.PlanBlocks | custom_components/solem_blip/coordinator.py:682-728 | the expectation has every backed-up block patched, all else as before, and the whole write list is validated |
| Restore.PlanMovesStore | custom_components/solem_blip/coordinator.py:682-728 | applying the concatenated frames moves the store to the expectation; other slots keep every byte |
| Restore.RestoreEndToEnd | custom_components/solem_blip/coordinator.py:670-762 | after applying the planned frames any faithful read has the predicted blocks, extras and programs, restored slots match the backup (names permitting, and only then), and no other slot changed |
| ProgramBackup.Repair | custom_components/solem_blip/program_backup.py:80-102 | patches exactly the differing slots, all or none, and fails exactly when some differing slot cannot be patched |
| ProgramBackup.RepairSlot | custom_components/solem_blip/program_backup.py:82-98 | one slot: skipped when equal, patched when it differs, refused exactly when the patch is |
| ProgramBackup.RepairMeaning | custom_components/solem_blip/program_backup.py:82-98 | a repaired slot decodes to the protected program, exactly when its name fits |
| ProgramBackup.DriftedFrom | custom_components/solem_blip/program_backup.py:226-236 | decides whether some parse of the journaled frames differs from the read by day bytes only |
| ProgramBackup.ProgramBackupStore.Load | custom_components/solem_blip/program_backup.py:49-104 | backup and journal come back as stored; the raw snapshot as parsed, or repaired and saved exactly when a repair is due |
| ProgramBackup.ProgramBackupStore.SaveIfNonEmpty | custom_components/solem_blip/program_backup.py:115-128 | only the first useful observation is kept |
| ProgramBackup.ScheduledMeans | custom_components/solem_blip/program_backup.py:335-341 | scheduled is what has a start and a station to water |
| ProgramBackup.ProgramBackupStore.Replace | custom_components/solem_blip/program_backup.py:130-173 | a complete scheduled snapshot replaces the backup durably, or nothing changes; never while a restore is pending |
| ProgramBackup.ProgramBackupStore.BeginRestore | custom_components/solem_blip/program_backup.py:175-185 | the journal of this restore is durable unless the save failed |
| ProgramBackup.ProgramBackupStore.AbortRestore | custom_components/solem_blip/program_backup.py:187-190 | clears the journal and nothing else |
| ProgramBackup.ProgramBackupStore.FinishRestore | custom_components/solem_blip/program_backup.py:192-196 | records the verified snapshot and clears the journal together |
| ProgramBackup.ProgramBackupStore.Reconcile | custom_components/solem_blip/program_backup.py:198-257 | clears the journal only for a known outcome; a diverged read changes nothing; an unchanged controller never becomes the protected snapshot |
| ProgramBackup.Step | custom_components/solem_blip/program_backup.py:49-257 | one operation moves memory and disk as the code says (`Moves`), and changes no durable backup |
| ProgramBackup.Run | custom_components/solem_blip/program_backup.py:49-257 | any operations lead, one after the other, to the state the store is in (`Leads`); once a backup is durable none of them changes it, in memory or on disk |
| DateDrift.AcceptedIsHarmless | custom_components/solem_blip/program_backup.py:279-309 | an accepted difference touches only header day bytes if and only if every differing frame carries nothing, is the unwrapped header of A, B or C, or lies outside them in versions that both responses contain |
| DateDrift.AcceptedReadsAlike | custom_components/solem_blip/program_backup.py:279-309 | the decoded programs agree but for the controller date if and only if no differing frame is a wrapped program header |
| DateDrift.OddFrameSlipsThrough | custom_components/solem_blip/program_backup.py:296-308 | two complete responses pass the test although program A starts on another day |
| DateDrift.DriftIsHarmless | custom_components/solem_blip/program_backup.py:279-309 | with the standard chunk lengths an accepted difference changes no byte but the day of A/B/C headers, no decoded field but the controller date, and no extra |
| DateDrift.StandardBlocksDrift | custom_components/solem_blip/program_backup.py:279-309 | an accepted difference from standard A/B/C blocks changes no byte but the day of a header and no decoded field but the controller date, whatever lies outside the blocks |
| Reconciliation.DescribedStoreUnique | custom_components/solem_blip/program_backup.py:214-219 | a snapshot determines the store it describes |
| Reconciliation.RevisionOfStore | custom_components/solem_blip/program_backup.py:214-220 | between faithful reads, equal revisions mean equal stores |
| Reconciliation.ReconcileIsSound | custom_components/solem_blip/program_backup.py:198-257 | for any present state of the controller: unchanged is reported exactly when it holds the old state, confirmed only when it holds the target up to day bytes; a half-applied restore is neither |
| Reconciliation.ReconcileIsComplete | custom_components/solem_blip/program_backup.py:198-257 | when the controller differs from the target in nothing but days of A/B/C headers and the read lists what the expectation lists, everything but the recorded old state is confirmed |
| Reconciliation.ConfirmedIsListed | custom_components/solem_blip/program_backup.py:279-309 | conversely, of reads made of fragments only such a one is confirmed, besides the target itself |
| Reconciliation.PlannedBlocksStandard | custom_components/solem_blip/ble/snapshot.py:227-228 | a plan over A, B and C expects chunks of the standard lengths, whatever the controller sent |
| Reconciliation.PlannedDriftIsHarmless | custom_components/solem_blip/program_backup.py:226-240 | whatever is accepted by day bytes against the journal of a restore of A, B and C differs in no other byte of their blocks and in no decoded field but the controller date |
| RestoreTransaction.WriteProgramFrames | custom_components/solem_blip/ble/client_v2.py:1373-1554 | frames leave as a prefix, each once, starting exactly when the preflight matches, the validation passes and the link opens, and stopping only at a frame that was not acknowledged; verified exactly when all of it succeeded and the read-back revision matches; refused exactly when a failure came before the first frame; stopped exactly when the step it had reached was cancelled or died |
| RestoreTransaction.Resume | custom_components/solem_blip/coordinator.py:672-680 | a pending journal is held against the fresh read; it goes exactly when the read settles it, and an attempt whose save then fails ends there |
| RestoreTransaction.Proceed | custom_components/solem_blip/coordinator.py:682-762 | planning succeeds exactly when every entry is acceptable; otherwise nothing is touched |
| RestoreTransaction.Commit | custom_components/solem_blip/coordinator.py:734-762 | the journal in memory and on disk after every ending and every fate of the saves; once a frame left, this attempt's journal is durable unless the verified snapshot replaced it |
| RestoreTransaction.RestoreIrrigationPrograms | custom_components/solem_blip/coordinator.py:644-762 | the same for the whole attempt: what was planned and sent, how it ended, and exactly what is left of the journal in memory and on disk; the protected backup is unchanged and nothing is sent when it ends early |
| RestoreTransaction.AllDelivered | custom_components/solem_blip/ble/client_v2.py:1520-1535 | when every frame took effect the store is the planned one |
| RestoreTransaction.RestoredMeansRestored | custom_components/solem_blip/ble/client_v2.py:1536-1542 | a verified restore with a faithful read-back left the controller in exactly the planned state, whatever the acknowledgements were worth |
| RestoreHistory.StepForgets | custom_components/solem_blip/coordinator.py:672-755 | one event leaves an undecided controller without a durable journal exactly when it clears the journal before its first frame or as unchanged without writing another |
| RestoreHistory.JournalKept | custom_components/solem_blip/coordinator.py:644-762 | over any sequence of events an undecided controller has a durable journal throughout if and only if no event forgets it |
| RestoreHistory.LostAfterOpenAttempt | custom_components/solem_blip/coordinator.py:747-755 | after an attempt left open, the next one loses the journal if and only if its read diverges and it is refused before its first frame with both saves done |
| RestoreHistory.Take | custom_components/solem_blip/coordinator.py:644-762 | one attempt, poll or restart moves the durable journal as the ledger says |
| RestoreHistory.Run | custom_components/solem_blip/coordinator.py:644-762 | over any sequence of attempts, polls and restarts the recorded durable journals are those of the ledger, and an undecided controller has one throughout if and only if no event forgets it |
| RestoreSafety.VerdictWhole | custom_components/solem_blip/program_backup.py:198-257 | a read that settles a journal finds a whole state, unless that journal itself started from an undecided one |
| RestoreSafety.StepSound | custom_components/solem_blip/coordinator.py:644-762 | with faithful reads every attempt, poll and restart keeps the ledger true of the controller |
| RestoreSafety.NoJournalMeansWhole | custom_components/solem_blip/coordinator.py:644-762 | in a history that reads faithfully and never forgets a journal, an empty durable journal means that the controller is wholly, up to day bytes, in its first state or in the state some plan aimed at |
| LostJournal.Forget | custom_components/solem_blip/coordinator.py:744-761 | a concrete store, a backup of A, B and C and two attempts with faithful reads and successful saves: four frames of the plan sent, the store neither old nor planned, and no journal in memory or on disk |
| EditTransaction.SetIrrigationProgram | custom_components/solem_blip/ble/client_v2.py:1619-1673 | a write is planned exactly when the program normalises, the revision is current and the patch is accepted, and otherwise nothing leaves; then one-shot frames; written exactly when confirmed by the read-back, already there exactly when nothing was to be sent, and not sent exactly when refused before the first frame |
| EditTransaction.PatchedDigest | custom_components/solem_blip/ble/client_v2.py:1668-1669 | the expected revision equals the current one exactly when there is nothing to send |
| EditTransaction.EditEndToEnd | custom_components/solem_blip/ble/client_v2.py:1639-1673 | a written edit leaves the slot decoding to the normalised program on its nine fields, exactly when its name fits, and every other slot unchanged |
| EditTransaction.EditUntouched | custom_components/solem_blip/config_flow.py:1471-1820 | saving the prefilled form of a canonical program untouched never sends a frame, and is reported as already there exactly when the controller still has the snapshot that filled the form |
| Packing.NormalizeForWrite | custom_components/solem_blip/ble/protocol.py:642-710 | a normalised program is storable, an interval phase lies inside its period, the name is cut to 31 bytes and no shorter |
| Packing.NormalizedOnce | custom_components/solem_blip/ble/protocol.py:670-684 | normalising is idempotent, and an anchor becomes the least number of days to its interval |
| Packing.NormalizedExtends | custom_components/solem_blip/ble/protocol.py:607-710 | normalising fails exactly on unstorable values or a missing or impossible interval phase; it only completes slots and stations and leaves every other field |
| Packing.DecodedStorable | custom_components/solem_blip/ble/protocol.py:607-710 | whatever a controller can report can be written back: decoded values are storable for any width, and normalising them fails only on an interval without a phase |
| Packing.PackStartTimes | custom_components/solem_blip/ble/protocol.py:829-834 | the filled frame decodes to the start times |
| Packing.PackDurations | custom_components/solem_blip/ble/protocol.py:836-848 | the filled frame decodes to the durations |
| Packing.Pack | custom_components/solem_blip/ble/protocol.py:765-850 | fails exactly on invalid input; the frames have the write headers and decode to the normalised program with the write day as controller date (years 2000-2100) and no client anchor |
| Packing.FrameAddress | custom_components/solem_blip/ble/protocol.py:804-848 | frame `k` announces its own size and addresses chunk `k` of the slot |
| Packing.PackedWrites | custom_components/solem_blip/ble/protocol.py:804-850 | a controller that takes the seven frames holds their payloads in that slot, and elsewhere what it held |
| Packing.PackThenAssemble | custom_components/solem_blip/ble/client_v2.py:1259-1290 | three packed programs, numbered down from any ids, form a complete response that parses to exactly their decodings |
| StationNames.FromFrames | custom_components/solem_blip/ble/station_names.py:31-99 | accepts exactly the complete, consistent, gapless responses, and joins odd half before even half |
| StationNames.WellFormedMeans | custom_components/solem_blip/ble/station_names.py:31-60 | well formed are exactly the frames of opcode 36 or 35, length 12, a sequence number, an output up to twelve and sixteen bytes |
| StationNames.ReadsDetectLoss | custom_components/solem_blip/ble/station_names.py:31-99 | a response drawn from an emission is accepted exactly when no fragment is missing, and then gives the stored names |
| StationNames.PackStationName | custom_components/solem_blip/ble/protocol.py:1134-1155 | refuses exactly the invalid stations and names; otherwise two 20-byte frames |
| StationNames.NameableMeans | custom_components/solem_blip/ble/protocol.py:1144-1152 | a name can be written exactly to an output of the controller, and when it has no NUL, at most 32 bytes and one that shows |
| StationNames.Renamed | custom_components/solem_blip/ble/station_names.py:150-157 | exists exactly for valid stations and names |
| StationNames.StoreHalf | custom_components/solem_blip/ble/protocol.py:1134-1155 | a device takes only `33 12 part output` frames; they change no other output and no name length |
| StationNames.WriteRenames | custom_components/solem_blip/ble/station_names.py:150-157 | a device that takes both frames holds exactly the renamed snapshot, and the output shows the name |
| StationNames.RenameReadsBack | custom_components/solem_blip/ble/station_names.py:150-157 | the renamed device reads back as the expected snapshot, one name changed only |
| StationNames.NameRevisionIdentifies | custom_components/solem_blip/ble/station_names.py:140-148 | name revisions are equal if and only if the names are |
| RenameJournal.WriteStationName | custom_components/solem_blip/ble/client_v2.py:1188-1252 | how many halves leave, what the device holds then, and how it ends: the second half leaves only after the first was acknowledged; verified means the controller holds the expected names; crashed means the process died in the exchange it had reached |
| RenameJournal.StationNameManager.Load | custom_components/solem_blip/station_names.py:58-62 | the durable journal is the pending one after a restart |
| RenameJournal.StationNameManager.Refresh | custom_components/solem_blip/station_names.py:69-90 | without an explicit accept the durable journal goes only when the controller is in its before or expected state |
| RenameJournal.StationNameManager.Update | custom_components/solem_blip/station_names.py:92-154 | nothing is sent while a journal is pending or before the journal of this rename was saved; success means exactly this output changed, and follows when every exchange and save goes well and both halves take effect |
| RenameJournal.StationNameManager.Transact | custom_components/solem_blip/station_names.py:129-154 | from the journal to the outcome: verified exactly when every exchange and save went well and the device holds the expected names |
| RenameJournal.StationNameManager.Write | custom_components/solem_blip/station_names.py:141-154 | after the journal is durable: how many halves leave, what the device holds, what is left of the journal, and how it ends |
| RenameJournal.StationNameManager.ClearJournal | custom_components/solem_blip/station_names.py:147-154 | the journal of a verified rename is cleared, and restored in memory when that save fails |
| RenameJournal.Take | custom_components/solem_blip/station_names.py:41-154 | one update, refresh or restart moves manager, journal and device as the code says (`Next`), and journals at most the rename it asks for |
| RenameJournal.Run | custom_components/solem_blip/station_names.py:41-154 | manager, journal and device are where the operations lead (`After`); over any run with failures, cancellations and crashes: the renames journaled are, in order, those of some of its updates, and with no durable journal the names are the last settled ones with every rename since wholly applied or wholly absent |
| Calendar.DayNumberOfDate | custom_components/solem_blip/schedule.py:49-70 | walking the Gregorian calendar day by day agrees with the closed day-number formula |
| Schedule.MatchingIsRunDay | custom_components/solem_blip/schedule.py:49-70 | the day test finds exactly the run days, given by the date: as many days after a dated Monday as a bit of the mask says, even, odd, or odd but not the 31st |
| Schedule.RunDayWithinAWeek | custom_components/solem_blip/schedule.py:49-70 | every runnable program of cycles 0-3 has a run day, by its date, within the next seven days |
| Schedule.FirstStartAfterLeast | custom_components/solem_blip/schedule.py:156-167 | the least enabled start of a day after now, if any |
| Schedule.NextStart | custom_components/solem_blip/schedule.py:224-260 | a next start lies strictly after now, in every cycle mode |
| Schedule.NextStartIsMinimum | custom_components/solem_blip/schedule.py:224-260 | for every cycle but the interval the 14-day scan is the minimum over all run days of the calendar, given by their dates, and none exactly when the program can never run |
| Schedule.CountdownLeast | custom_components/solem_blip/ble/protocol.py:581-604 | the countdown is the least number of days to a day congruent to the anchor |
| Schedule.CountdownUnique | custom_components/solem_blip/ble/protocol.py:581-604 | it is the only such number within one period |
| Schedule.CountdownTicks | custom_components/solem_blip/ble/protocol.py:581-604 | a day later it is one less, modulo the period |
| Schedule.CountdownOfPickedDay | custom_components/solem_blip/config_flow.py:1721-1747 | an anchor within the period is stored as its distance in days |
| Schedule.NextIntervalIsGridMinimum | custom_components/solem_blip/schedule.py:170-201 | two candidate days give the minimum over the two-sided infinite grid; none exactly when no slot is enabled |
| Schedule.AnchoredProgramNextStart | custom_components/solem_blip/schedule.py:224-247 | a program written with an anchor next starts on the anchor's own grid |
| Schedule.WrapWarningDay | custom_components/solem_blip/config_flow.py:902-936 | the warning's fallback day is today plus the countdown |
| EditorForm.DurationSurvives | custom_components/solem_blip/config_flow.py:1650-1664 | two-decimal minutes err by at most 0.3 s, so every storable duration round-trips |
| EditorForm.RoundedToNearest | custom_components/solem_blip/config_flow.py:1650-1664 | rounding gives the nearest integer, of two the even one |
| EditorForm.TimeSurvives | custom_components/solem_blip/config_flow.py:1666-1690 | every start time round-trips through its text |
| EditorForm.TimeMeans | custom_components/solem_blip/config_flow.py:1674-1690 | a text is read as a time exactly when it is hours below 24, a colon and minutes below 60 |
| EditorForm.WeekdaysFromMask | custom_components/solem_blip/config_flow.py:1692-1694 | lists exactly the days whose bits are set |
| EditorForm.WeekdaysMask | custom_components/solem_blip/config_flow.py:1696-1701 | sets exactly the bits of the listed days |
| EditorForm.FormMask | custom_components/solem_blip/config_flow.py:1692-1701 | listing the days of a mask and masking them again is the identity |
| EditorForm.ProgramDefaults | custom_components/solem_blip/config_flow.py:1471-1517 | the prefilled form, field by field |
| EditorForm.ParseProgramInput | custom_components/solem_blip/config_flow.py:1750-1820 | fails exactly on an invalid time, duration or period; otherwise the submitted program with the derived countdown |
| EditorForm.CountdownMeans | custom_components/solem_blip/config_flow.py:1721-1747 | the submitted countdown is the one in its period that leads to the grid of the anchor, zero for other cycles, refused for an empty period |
| EditorForm.FormCountdown | custom_components/solem_blip/config_flow.py:1480-1497 | the prefilled date reproduces the stored phase |
| EditorForm.SelfPatch | custom_components/solem_blip/ble/snapshot.py:233-276 | writing back what a canonical block says changes none of its bytes |
| EditorForm.UntouchedChanges | custom_components/solem_blip/config_flow.py:1750-1820 | whatever such a form submits normalises, and its changes change nothing |
| EditorForm.SaveUntouched | custom_components/solem_blip/ble/client_v2.py:1639-1667 | prefill, parse and normalisation of an untouched form of a canonical block give changes that change nothing |
| EditorForm.UntouchedSendsNothing | custom_components/solem_blip/ble/client_v2.py:1665-1669 | for a canonical block the patch of what its untouched form submits has no frames and expects no change; it is refused exactly when the hidden slots are not known |
| Activity.ContinuousAttribution | custom_components/solem_blip/activity.py:259-267 | a watched run is Scheduled exactly when a start lies in the watched interval thirty seconds either way, Manual Bluetooth otherwise |
| Activity.ContinuousInterval | custom_components/solem_blip/activity.py:259-267 | the same for interval programs on their countdown grid |
| Activity.GapAttribution | custom_components/solem_blip/activity.py:214-258 | a run found after a gap is Scheduled exactly when one and only one start lies in the traced-back window, Unknown otherwise |
| Activity.GapInterval | custom_components/solem_blip/activity.py:214-258 | an interval run found after a gap is Scheduled exactly when one and only one grid start lies in the traced-back window, or the run day is tomorrow, starts at 00:00 and 00:01 are enabled and the window reaches that 00:01; the window is under two minutes |
| Activity.IntervalJudged | custom_components/solem_blip/schedule.py:170-201 | the two chained searches find one and only one start, or the run day is tomorrow and two of its starts are over |
| Activity.ShortWindow | custom_components/solem_blip/activity.py:233-247 | every window the code traces back is shorter than two minutes |
| Activity.OnlyMidnight | custom_components/solem_blip/activity.py:238-252 | in a window under two minutes a second start is missed exactly when the run day is tomorrow, slots 00:00 and 00:01 are enabled, and 00:01 is over by its end |
| Activity.SecondStartMissed | custom_components/solem_blip/activity.py:214-258 | a real observation: the window traced back runs from 23:59:01 to 00:01:00, both starts of the night lie in it, and the run is called Scheduled |
| Activity.CreditNeedsIntent | custom_components/solem_blip/activity.py:175-182 | a new run is credited to Home Assistant exactly when its observation consumed an intent that was confirmed or came with a manual origin |
| Attribution.SourceIsAttributed | custom_components/solem_blip/activity.py:168-267 | for every evidence, memory, status and pending command: the source of a run that begins is the one said by `Attributed` - a matching fresh command, a watched manual run without a program, a trusted program seen to start, or found once in its traced-back window - and Unknown whenever any guard fails |
| Attribution.TracedIs | custom_components/solem_blip/activity.py:214-247 | what can be traced back is what the searches look at, and the window is theirs: station, budget, rounded minutes, half a minute of grace |
| Attribution.ObservationTells | custom_components/solem_blip/activity.py:269-341 | one observation, said without the observer: which run goes on with which stations, how it is closed, which begins and to whom it is put down, what becomes of the command and the memory |
| Activity.WateringActivity.constructor | custom_components/solem_blip/activity.py:85-94 | the loaded state: a restored intent is unconfirmed, a restored run is closed as interrupted |
| Activity.WateringActivity.Finish | custom_components/solem_blip/activity.py:152-162 | the run moves to the front of the thirty-entry history |
| Activity.WateringActivity.BeginCommand | custom_components/solem_blip/activity.py:114-124 | the intent is journaled, unconfirmed |
| Activity.WateringActivity.ConfirmCommand | custom_components/solem_blip/activity.py:126-131 | only an intent still pending is confirmed |
| Activity.WateringActivity.Shutdown | custom_components/solem_blip/activity.py:96-99 | a run in progress is closed as interrupted, nothing else changes |
| Activity.WateringActivity.Observe | custom_components/solem_blip/activity.py:269-340 | the whole new state: which run continues, closes how, or starts with which source, and what became of the intent |
| Activity.RunTold | custom_components/solem_blip/activity.py:85-340 | told by the events alone: starts are runs, consumed intents are credited runs, the current run is the one the latest observation saw, and no finished run is lost |
| Activity.ConsumedNeedCommands | custom_components/solem_blip/activity.py:101-131 | every credit uses up a command, or the restored intent |
| Activity.Run | custom_components/solem_blip/activity.py:85-340 | over any run the state is the one the events lead to, history is the newest thirty, and the runs credited to Home Assistant among those started are as many as intents consumed, never more than the commands plus a restored intent |
| Locking.ControllerLock.CheckCleanup | custom_components/solem_blip/ble/locking.py:27-36 | passes only with no unresolved cleanup, and then no link is left |
| Locking.ControllerLock.DeferCleanup | custom_components/solem_blip/ble/locking.py:22-25 | the lock keeps the cleanup and is itself retained |
| Locking.ControllerLock.Acquire | custom_components/solem_blip/ble/locking.py:46 | the inner lock is granted only when free |
| Locking.ControllerLock.Enter | custom_components/solem_blip/ble/locking.py:46-52 | ownership only after cleanup; a failed entry gives the inner lock back |
| Locking.ControllerLock.Reenter | custom_components/solem_blip/ble/locking.py:38-45 | the owner re-enters without touching ownership |
| Locking.ControllerLock.Leave | custom_components/solem_blip/ble/locking.py:38-52 | a nested exit releases nothing, the outermost releases everything |
| Locking.ControllerLock.BeginAttempt | custom_components/solem_blip/ble/client_v2.py:561-563 | an attempt starts only with no unresolved cleanup and no link up |
| Locking.ControllerLock.Connect | custom_components/solem_blip/ble/client_v2.py:561-579 | the new link comes on top of those that may be up, and there are none |
| Locking.ControllerLock.Clean | custom_components/solem_blip/ble/client_v2.py:487-522 | the link is released for certain, or its cleanup is deferred |
| Locking.ControllerLock.Exclusive | custom_components/solem_blip/ble/locking.py:14-52 | at most one task inside, at most one link that may be up |
| Locking.Registry.NewClient | custom_components/solem_blip/ble/locking.py:59-65 | an address with a living lock gets that lock, however it is spelled |
| Locking.Registry.MakeLock | custom_components/solem_blip/ble/locking.py:62-64 | the first use of an address makes a fresh lock without links |
| Locking.Registry.DropClient | custom_components/solem_blip/ble/locking.py:55 | a client that goes away takes no lock in use with it |
| Locking.Registry.Collect | custom_components/solem_blip/ble/locking.py:55-56 | a lock nothing refers to has no link and no unresolved cleanup |
| Locking.Take | custom_components/solem_blip/ble/locking.py:14-65 | the registry, every lock and every client move as the step says (`Next`), and a lock with unresolved cleanup or a link that may be up stays the lock of its address |
| Locking.Run | custom_components/solem_blip/ble/client_v2.py:561-646 | after any interleaving the registry is where its steps lead (`After`), with per address at most one task inside and at most one stateless link |
| HeldLink.WireFacts | custom_components/solem_blip/ble/client_persistent.py:215-248 | on every connection at most one subscribe returns and nothing follows it while the connection is in use; at most one is written exactly when no try that wrote is followed by another that did |
| HeldLink.Subscribe | custom_components/solem_blip/ble/client_v2.py:674-704 | up to three tries, an unsubscribe after each that fails; ends with the first that returns or is aborted |
| HeldLink.PersistentClient.Invalidate | custom_components/solem_blip/ble/client_persistent.py:182-196 | giving up a session clears routing and subscription state together |
| HeldLink.PersistentClient.BeginOperation | custom_components/solem_blip/ble/client_persistent.py:453-507 | reuse of a healthy link, or a fresh connection after the stale one was given up |
| HeldLink.PersistentClient.StartNotify | custom_components/solem_blip/ble/client_persistent.py:215-248 | on a subscribed connection that is up only the handler is swapped; otherwise the inherited tries run on it, and the operation is broken exactly when none returned |
| HeldLink.PersistentClient.StopNotify | custom_components/solem_blip/ble/client_persistent.py:250-262 | routing stops, the subscription stays; only a connection already given up is unsubscribed |
| HeldLink.PersistentClient.DispatchNotification | custom_components/solem_blip/ble/client_persistent.py:198-213 | a frame goes to the handler of the operation in flight or nowhere, never inside the straggler window |
| HeldLink.PersistentClient.EndOperation | custom_components/solem_blip/ble/client_persistent.py:532-600 | the link is kept untouched on success and given up otherwise |
| HeldLink.PersistentClient.Release | custom_components/solem_blip/ble/client_persistent.py:380-399 | idle release and disconnect give the session up, between operations only |
| HeldLink.PersistentClient.LinkDown | custom_components/solem_blip/ble/client_persistent.py:264-284 | a link that goes down changes no subscription state |
| HeldLink.Take | custom_components/solem_blip/ble/client_persistent.py:198-262 | the session moves as the step says (`Next`), and a frame reaches only the handler in flight and not inside the straggler window |
| HeldLink.Run | custom_components/solem_blip/ble/client_persistent.py:182-617 | the session ends where its steps lead (`After`); on every connection of every run at most one subscribe returns, and nothing is written after it until the connection is given up; at most one is written if and only if no try that wrote was followed by another that did |
| Delivery.WhoHears | custom_components/solem_blip/ble/client_persistent.py:198-262 | over any steps, a frame reaches a handler if and only if the start of an operation installed it, the operation has neither stopped nor failed since, and on a subscribed connection the settle delay has passed |
| Delivery.LinkKept | custom_components/solem_blip/ble/client_persistent.py:453-507 | an operation uses the held link exactly when it is up and no drop was seen; otherwise it is given up and a fresh one made |
| HeldLink.SubscribedTwice | custom_components/solem_blip/ble/client_v2.py:678-702 | a first subscribe that lands but raises: two are written on a connection that stays in use |

## Left out

- Home Assistant entities, selectors, services, translations, registries, migration and diagnostics.
- Bleak discovery, GATT transport, asyncio timers and sleep lengths; only their order and outcomes appear.
- Python type errors (booleans, floats, strings where integers are expected) and the text of error messages.
- UTF-8 decoding with replacement characters, and truncation in the middle of a multi-byte character.
- The digest itself, and the JSON and hexadecimal form of stored data.
- Daylight-saving folds and zone conversion: one wall clock is used throughout.
- Binary floating point in the form's durations: minutes are exact hundredths, and no rounding is near a tie.
- The decoded programs of the nine hidden slots, which nothing in the modelled core reads.
- Assembly at fewer than twelve stations, which the snapshot never uses.
- Matching of acknowledgement headers and read-back collection by opcode: a reply is an acknowledgement, a rejection or an interruption.
- The schedule presets of the form, and date, sign, underscore and blank handling in its text fields.
- The adoption of a larger station count from a name read.
- The raw session, the unverified program write and the name-read probe, which lie outside the transactions.
- Rainfall budgets, link health statistics, battery and status byte parsing, set-time.
- The bounded drain of releases before a persistent reconnect, which is best effort in the code.
- ProgramBackup.ProgramBackupStore.Save: does not model a save that reaches the disk although it is reported as failed; the rename journal models this case.
- Activity.ContinuousInterval: the grid is taken from the countdown as last read, because the controller's own decrement is not observable.
- Activity.GapInterval: likewise the grid is placed at the day of `earliest`, although the countdown may have been read the day before.
- Packing.Pack: says nothing about how a name with an embedded NUL reads back, because the snapshot editor refuses such names.
