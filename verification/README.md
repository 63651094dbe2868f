# Pilot: verified models of its durability protocol and its editors

Pilot tails the logs of coding agents, ships them to several outputs, and edits its users'
configuration files. These Dafny modules model the logic in which a mistake would lose data or
damage a user's file, and prove what that logic keeps over every input and every run.

Asynchronous code is modelled as a state machine: a stretch of code between two awaits is one step,
and steps of different activities interleave in any order. Where the code is an object whose methods
change its fields, a class takes the same steps and each method's contract ties its whole new state
to the step function; the theorems are about runs of those step functions. Loops stay loops. Lemmas turn
automatic induction off, so that every induction is written out.

| modules | what they model |
|---|---|
| `Checkpoints`, `CheckpointProtocol`, `CheckpointSafety`, `CheckpointAnswers` | the checkpoint store, the input manager's queues and holds, and when an offset may reach disk |
| `JournalText`, `TurnJournal`, `JournalSafety` | the journal of Codex turns: torn writes, acknowledgements, eviction |
| `PatchText`, `PatchBlock`, `PatchRoundTrip`, `PatchConflict`, `PatchLock` | the marked block in the DSH patch file, when it is refused, and the two-level lock around it |
| `SlsCodec` | the protobuf encoder of SLS log groups, against a decoder (Protocol Buffers encoding guide, sections "Base 128 Varints" and "Length-Delimited Records") |
| `RoundTimes`, `RoundEvidence` | the estimated time line of the rounds of a request, and the evidence for it |
| `TrustSections`, `TrustScanner`, `MarkerBlock`, `Jsonc` | line and text editors: TOML trust sections, shell rc blocks, JSONC comments |
| `ConfigMerge`, `PluginInject`, `OpenClaw`, `ClaudeHooks` | desired configuration against the user's: check, merge, injection |
| `HttpOutput`, `Discovery`, `DeployedState` | the HTTP flusher, the discovery service, the shared deployment records |
| `Wrappers`, `Seqs`, `Lines` | options, sequences, lines of text |

## Findings

Where a promise of the code turned out not to hold, the code is kept as it is, a lemma names the
failing case, and another says exactly when the promise holds.

* A `save` that comes between the end of the flush loop and the `finally` that clears its promise gets
  the promise of a flush that has already ended; its change is not saved and no flush runs
  (`CheckpointSafety.LateSaveIsLost`, `CheckpointSafety.ResolvedSaveIsDurableIff`). The same window
  loses a discovery trigger (`Discovery.TriggerIsServedIff`).
* A Codex batch of the HTTP flusher is left waiting, with no flush running, if it is queued in that
  window, or if the flush under way ends on the failed post of this batch or of one before it; it then
  waits for the next flush (`HttpOutput.SettledByTheFlushIff`, `HttpOutput.ABatchCanBeLeft`).
* Removing marked trust sections is not idempotent: the END comment can lie in a removed range, so
  that a second removal takes a section that stood outside the block
  (`TrustSections.MarkedRemovalCanCascade`, `TrustSections.MarkedRemovalIdempotentIff`).
* A desired configuration with a key `__proto__` never passes the check after the merge
  (`ConfigMerge.ProtoIsNeverReached`, `ConfigMerge.RepairReachesTheCheckIff`), and a host without
  conversation access whose user set `hooks` to a plain value is never healthy
  (`OpenClaw.OpenclawInjectionHealsIff`).
* The patch lock excludes only as long as nobody overstays the stale limit inside it
  (`PatchLock.OverstayingIsOvertaken`, `PatchLock.CriticalIsExclusive`).
* The gate around that lock has no stale limit: a process that dies while it holds the gate file shuts
  everybody out until somebody deletes the file (`PatchLock.DyingOrphansTheGate`,
  `PatchLock.OrphanedGateStays`).

## Model

| member | source | states |
|---|---|---|
| `Checkpoints.StateStore.Load` | src/checkpoints/state-store.ts:32-49 | loading replaces the memory by the file and forgets every revision, leaving holds, failure and flush alone |
| `Checkpoints.StateStore.IsPersisted` | src/checkpoints/state-store.ts:56-60 | the answer for an input or an extra key: no failure, and its revision is not beyond the persisted one |
| `Checkpoints.StateStore.TrackExtraRevision` | src/checkpoints/state-store.ts:62-71 | exactly the keys whose value differs before and after get the current revision |
| `Checkpoints.StateStore.HoldSaveUntil` | src/checkpoints/state-store.ts:74-77 | opens a hold, nothing else |
| `Checkpoints.StateStore.Settle` | src/checkpoints/state-store.ts:78-84 | closes the hold; a rejection makes the failure stick |
| `Checkpoints.StateStore.Save` | src/checkpoints/state-store.ts:87-100 | refused after a failure, done when all is persisted and nothing held, else the flush's promise, starting one if none runs |
| `Checkpoints.StateStore.Set` | src/checkpoints/state-store.ts:106-112 | the new state, the next revision, and the revisions of the input and its changed extra keys |
| `Checkpoints.StateStore.Update` | src/checkpoints/state-store.ts:114-124 | as `Set` with the merge of current and partial state, `extra` key by key |
| `Checkpoints.UpdateIsPartial` | src/checkpoints/state-store.ts:114-124 | an update changes what the partial state names and nothing else, of this input or any other |
| `Checkpoints.StateStore.Delete` | src/checkpoints/state-store.ts:126-135 | deletes and stamps a revision only if the input was there |
| `Checkpoints.ChangesAreToOne` | src/checkpoints/state-store.ts:106-135 | supporting fact: a set leaves that input with the state given, a delete leaves it gone, and both leave every other input alone |
| `Checkpoints.RevisionsArePruned` | src/checkpoints/state-store.ts:171-182 | supporting fact: after a write only inputs and keys that are there, or changed since, keep a revision |
| `Checkpoints.LoadStartsAfresh` | src/checkpoints/state-store.ts:32-49 | supporting fact: after a load memory is the file and all of it is persisted |
| `Checkpoints.StateStore.Loop` | src/checkpoints/state-store.ts:157-170 | the head of the flush loop: failure, holds, nothing to do, or a snapshot of the current revision |
| `Checkpoints.StateStore.WriteReturned` | src/checkpoints/state-store.ts:171-183 | publishes the snapshot's revision, forgets the revisions nobody needs, and goes on |
| `Checkpoints.StateStore.PruneInputs` | src/checkpoints/state-store.ts:173-175 | drops exactly the persisted revisions of inputs that are gone |
| `Checkpoints.StateStore.PruneExtras` | src/checkpoints/state-store.ts:176-182 | drops exactly the persisted revisions of keys that are gone, and the inputs left without any |
| `Checkpoints.StateStore.Finally` | src/checkpoints/state-store.ts:93-97 | the save promise is cleared, nothing else |
| `CheckpointProtocol.InputManager.OnEntries` | src/core/input-manager.ts:187-203 | a batch is dropped after a failure; else it is chained behind the last one of its input, and a Codex batch opens a hold |
| `CheckpointProtocol.InputManager.OnSettled` | src/core/input-manager.ts:200-202 | the queue is forgotten only if this handling was its last |
| `CheckpointProtocol.PersistedMeansOnDisk` | src/checkpoints/state-store.ts:55-60 | in every run, what `isPersisted` confirms is on disk exactly as in memory, and the persisted revision is never beyond the current one |
| `CheckpointAnswers.PersistedIff` | src/checkpoints/state-store.ts:56-60 | over every run `isPersisted` says yes if and only if no batch was rejected and the input was last set, updated or effectively deleted, or the value under the extra key last became another one, at a published revision |
| `CheckpointAnswers.WriteConfirmsAll` | src/checkpoints/state-store.ts:164-182 | when a write returns and nothing was recorded since its snapshot, every input and every extra key is persisted and disk is memory |
| `CheckpointProtocol.PersistedRevisionGrows` | src/checkpoints/state-store.ts:157-172 | the persisted revision only grows until a restart |
| `CheckpointProtocol.RevisionsKept` | src/checkpoints/state-store.ts:62-183 | every step keeps the books: disk, snapshot and per-key revisions agree with the history of states |
| `CheckpointAnswers.OffsetGetsToDisk` | src/core/input-manager.ts:187-203 | undisturbed, a Codex offset does get to disk: the save right after its batch waits with the old offset on disk, and writes the new one once the outputs have accepted the batch |
| `CheckpointAnswers.HandlingSettles` | src/core/input-manager.ts:187-203 | supporting fact: a handling runs and settles as it ends; its positions are accepted exactly if it ends well |
| `CheckpointAnswers.QueueIsForgotten` | src/core/input-manager.ts:198-203 | supporting fact: the last handling of a queue takes the queue with it |
| `CheckpointSafety.OffsetOnDiskIsAccepted` | src/checkpoints/state-store.ts:73-84 | in every interleaving of emits, updates, settlements, saves, failed writes and restarts, every position a Codex offset on disk claims was accepted |
| `CheckpointSafety.SnapshotsAreClean` | src/checkpoints/state-store.ts:157-170 | supporting fact: only the write in flight changes the disk, and every snapshot is the memory of a moment with no hold open and none failed |
| `CheckpointSafety.QuietMemoryIsCovered` | src/checkpoints/state-store.ts:159-164 | supporting fact: with no hold open and none failed, every offset in memory claims only accepted positions |
| `CheckpointSafety.RejectionFreezesDisk` | src/checkpoints/state-store.ts:76-84 | after the first rejection the disk stays, or takes the one snapshot in flight, whatever runs next |
| `CheckpointSafety.HandledOneAtATime` | src/core/input-manager.ts:191-202 | when the handling of a batch has begun, every earlier batch of its input is settled: emission order, failures included |
| `CheckpointSafety.DrainedMeansSettled` | src/core/input-manager.ts:285-295 | supporting fact: when draining may end, no batch of the input is left to handle |
| `CheckpointSafety.ResolvedSaveIsDurableIff` | src/checkpoints/state-store.ts:87-100 | a `save` promise that resolves covers every change before the call if and only if the call did not come, with changes waiting, in the window before the `finally` |
| `CheckpointSafety.LateSave` | src/checkpoints/state-store.ts:93-99 | supporting fact: from any state in that window: the change is not on disk, the promise is that of a flush that has ended, and no flush runs |
| `CheckpointSafety.LateSaveIsLost` | src/checkpoints/state-store.ts:93-99 | such a run exists |
| `JournalText.CompleteLength` | src/flushers/codex-turn-journal.ts:209-227 | the backward chunk search yields one past the last line break, 0 if none, nothing for a missing file |
| `JournalText.TruncatedLines` | src/flushers/codex-turn-journal.ts:57-59 | truncating there keeps every whole line and leaves no torn one |
| `JournalText.LoadFile` | src/flushers/codex-turn-journal.ts:92-117 | the batches concatenate to the entries read, only the final one is last, each keeps to the limit, and none could have taken the next entry |
| `JournalText.ReplayIsFirstOnly` | src/flushers/codex-turn-journal.ts:97-113 | reading back written entries yields each event once, in order of first occurrence |
| `TurnJournal.CodexTurnJournal.AppendEntries` | src/flushers/codex-turn-journal.ts:41-65 | an append does the actions of its plan: load acknowledgements, group, truncate once per process, append |
| `TurnJournal.CodexTurnJournal.AppendGroup` | src/flushers/codex-turn-journal.ts:53-62 | the torn line is cut once per process, then the group appended |
| `TurnJournal.CodexTurnJournal.AcknowledgeEntries` | src/flushers/codex-turn-journal.ts:126-145 | an acknowledgement does the actions of its plan: done file, pending file, then the trim |
| `TurnJournal.CodexTurnJournal.AcknowledgeKey` | src/flushers/codex-turn-journal.ts:131-142 | done file and acknowledgement if new, then the pending file goes |
| `TurnJournal.CodexTurnJournal.RemoveTurns` | src/flushers/codex-turn-journal.ts:147-157 | removing deletes exactly the pending files named |
| `TurnJournal.CodexTurnJournal.LoadAcknowledgements` | src/flushers/codex-turn-journal.ts:166-187 | the acknowledgements on disk, trimmed, once per process |
| `TurnJournal.CodexTurnJournal.TrimAcknowledgements` | src/flushers/codex-turn-journal.ts:189-199 | evicts exactly the excess, oldest first, pending file before done file |
| `JournalSafety.ExportedIsNeverReplayed` | src/flushers/codex-turn-journal.ts:80-92 | at every point of every run, crashes and errors included, an acknowledged turn has its done file or a pending file created afterwards |
| `JournalSafety.PendingGoesOnlyOnceAcknowledged` | src/flushers/codex-turn-journal.ts:131-142 | loading, appending and acknowledging delete pending content only while its acknowledgement is on disk |
| `JournalSafety.KeysAreTheTurns` | src/flushers/codex-turn-journal.ts:129-129 | the turns acknowledged are those that some journaled entry is of, each once |
| `JournalSafety.KeysAreInOrder` | src/flushers/codex-turn-journal.ts:129-129 | in the order in which they first come up |
| `JournalSafety.EveryTurnIsAcknowledged` | src/flushers/codex-turn-journal.ts:126-145 | after a completed acknowledgement every turn that an entry is of has no pending file, and before the trim its done file and its acknowledgement; the trim takes only the excess away |
| `JournalSafety.AcknowledgedNeverComesBack` | src/flushers/codex-turn-journal.ts:126-145 | in every run, crashes included, nothing written of such a turn before the acknowledgement completed is ever there again to be loaded |
| `JournalSafety.LoadYieldsTheLog` | src/flushers/codex-turn-journal.ts:80-119 | at every point of every run, loading a turn yields the entries of its whole lines once per event id, in first-occurrence order |
| `JournalSafety.CompletedAppendIsRecorded` | src/flushers/codex-turn-journal.ts:41-65 | a completed append, the first of a process or a later one, records exactly its entries of each turn not acknowledged, in order, after what was there once the acknowledgements were loaded |
| `JournalSafety.RecordedStays` | src/flushers/codex-turn-journal.ts:53-63 | no event, torn or not, loses recorded entries of an unacknowledged turn or makes it acknowledged, unless it acknowledges or removes that turn |
| `JournalSafety.UnnamedKeeps` | src/flushers/codex-turn-journal.ts:126-160 | no operation plans to delete the pending file of an unacknowledged turn that it does not acknowledge or remove |
| `JournalSafety.CompletedAppendsStay` | src/flushers/codex-turn-journal.ts:41-65 | over any run of appends, crashes inside an append, restarts and re-appends, what was recorded before a completed append, then its entries, stay at the front of the turn's log until the turn is acknowledged or removed |
| `JournalSafety.CompletedAppendsAreLoaded` | src/flushers/codex-turn-journal.ts:80-119 | so a load, which does not skip the turn, gives the entries of every completed append once per event id, in first-occurrence order |
| `JournalSafety.EveryCompletedAppendIsLoaded` | src/flushers/codex-turn-journal.ts:80-119 | in particular for every completed append of a turn that no operation of the run acknowledges or removes |
| `JournalSafety.LoadedWasAppended` | src/flushers/codex-turn-journal.ts:80-119 | whatever a load gives was given to an append, for that turn |
| `JournalSafety.TornLines` | src/flushers/codex-turn-journal.ts:57-61 | an append cut anywhere leaves the lines of its first few entries and part of one more |
| `JournalSafety.DoneFilesAreBounded` | src/flushers/codex-turn-journal.ts:189-199 | after a first load, and after acknowledging at least one turn, the done files number at most the limit |
| `JournalSafety.TrimBounds` | src/flushers/codex-turn-journal.ts:189-199 | a completed trim leaves exactly the limit if it evicted anything |
| `JournalSafety.EvictedAreOldest` | src/flushers/codex-turn-journal.ts:192-192 | no evicted acknowledgement is newer than a kept one |
| `JournalSafety.LoadedTimesAreTheFiles` | src/flushers/codex-turn-journal.ts:175-184 | supporting fact: loading gives every acknowledgement the time of its done file |
| `JournalSafety.RepairedAnew` | src/flushers/codex-turn-journal.ts:53-61 | supporting fact: after a turn's pending file was deleted its next append begins with the repair |
| `PatchText.FindLineMarkerOffsets` | src/deployment/dsh-yaml-patch-strategy.ts:327-345 | the jumping search finds every offset at which a marker line starts, in order |
| `PatchText.NextOffset` | src/deployment/dsh-yaml-patch-strategy.ts:331-342 | one turn of the search passes over no marker line and goes on past the match |
| `PatchText.OffsetsByLine` | src/deployment/dsh-yaml-patch-strategy.ts:327-345 | those are exactly the lines that are the marker, alone or followed by blank space |
| `PatchText.MarkerLineIs` | src/deployment/dsh-yaml-patch-strategy.ts:335-342 | supporting fact: a marker line is the marker alone or followed by a blank, a tab or a line break |
| `PatchBlock.SplitOnPilotBlock` | src/deployment/dsh-yaml-patch-strategy.ts:281-325 | the parse; before, block and after put together are the file's bytes |
| `PatchConflict.ConflictIff` | src/deployment/dsh-yaml-patch-strategy.ts:282-325 | over every file: a conflict exactly when there is a BEGIN or END line of ours but not exactly one of each, BEGIN first, both spelled exactly, with the three lines of metadata between; a block without conflict exactly when there is |
| `PatchConflict.RefusesIff` | src/deployment/dsh-yaml-patch-strategy.ts:128-142 | deploy and undeploy refuse exactly such a file, and one whose block does not name this entry; no file with unpaired markers is rewritten |
| `PatchConflict.BlockInsertsThePlugin` | src/deployment/dsh-yaml-patch-strategy.ts:266-280 | to a reader of YAML the composed block is one insertion of the plugin by its URL; all its other lines are comments |
| `PatchConflict.BlankAndCarriageReturn` | src/deployment/dsh-yaml-patch-strategy.ts:236-236 | supporting fact: blank is nothing but white space, and lines are read without a closing carriage return |
| `PatchBlock.ExtractCreatedFlag` | src/deployment/dsh-yaml-patch-strategy.ts:360-363 | the first created-file flag of the block |
| `PatchBlock.NextBytes` | src/deployment/dsh-yaml-patch-strategy.ts:150-173 | the flag and the bytes that a deploy writes |
| `PatchBlock.PatchFile.WriteIfUnchanged` | src/deployment/dsh-yaml-patch-strategy.ts:408-457 | writes or deletes only if both reads found the bytes the content was composed from |
| `PatchBlock.PatchFile.DeployAt` | src/deployment/dsh-yaml-patch-strategy.ts:134-200 | two attempts against concurrent edits: done with the deployed bytes of what was replaced, refused, or raced with the file untouched; raced only if somebody edited the file during both attempts |
| `PatchBlock.PatchFile.UndeployAt` | src/deployment/dsh-yaml-patch-strategy.ts:203-261 | the same for taking the block out |
| `PatchRoundTrip.BlockIsFound` | src/deployment/dsh-yaml-patch-strategy.ts:266-325 | whatever text without marker lines stands around it, the composed block is found again with the same before and after, and no conflict |
| `PatchRoundTrip.FlagIsKept` | src/deployment/dsh-yaml-patch-strategy.ts:266-268 | the flag read from a composed block is the one it was composed with |
| `PatchRoundTrip.Redeploy` | src/deployment/dsh-yaml-patch-strategy.ts:150-173 | a deploy over a block replaces it, keeps the text around it and the first flag |
| `PatchRoundTrip.DeployIsCurrent` | src/deployment/dsh-yaml-patch-strategy.ts:73-89 | after a deploy the health check passes and a second deploy changes nothing |
| `PatchRoundTrip.UndeployGivesBackTheUsersText` | src/deployment/dsh-yaml-patch-strategy.ts:134-261 | deploy, any run of redeploys and edits around the block, undeploy: exactly the user's text is left, deleted if and only if Pilot created the file and only whitespace remains |
| `PatchLock.GateIsExclusive` | src/deployment/dsh-yaml-patch-strategy.ts:532-550 | in every run of any number of processes at most one holds the gate |
| `PatchLock.UnlinksAreExact` | src/deployment/dsh-yaml-patch-strategy.ts:509-563 | a stale check unlinks only the lock file it looked at, a release only one with its own token |
| `PatchLock.OnlyOwnersUnlink` | src/deployment/dsh-yaml-patch-strategy.ts:509-563 | a lock file disappears by these two unlinks alone |
| `PatchLock.OwnerReleases` | src/deployment/dsh-yaml-patch-strategy.ts:552-570 | the owner's release, undisturbed, ends with the lock file and the gate gone |
| `PatchLock.OthersKeepTheirs` | src/deployment/dsh-yaml-patch-strategy.ts:562-564 | a release whose token is not in the lock file leaves it as it is |
| `PatchLock.LeavingTakesTheLock` | src/deployment/dsh-yaml-patch-strategy.ts:552-570 | in every run, however the others interleave, a process that leaves the critical section and is not broken off ends its release without a lock file of its token |
| `PatchLock.ReleaseLetsIn` | src/deployment/dsh-yaml-patch-strategy.ts:489-570 | after a release a waiting process gets in without waiting for the stale limit |
| `PatchLock.FailureLetsTheGateGo` | src/deployment/dsh-yaml-patch-strategy.ts:499-524 | an operation on the lock file that fails ends the attempt, lets the gate go, and has not changed the lock file |
| `PatchLock.DyingOrphansTheGate` | src/deployment/dsh-yaml-patch-strategy.ts:532-550 | a process that dies while it holds the gate leaves the gate file without a holder |
| `PatchLock.OrphanedGateStays` | src/deployment/dsh-yaml-patch-strategy.ts:532-550 | nothing reclaims such a gate: in no run does anybody enter or leave again |
| `PatchLock.CriticalIsExclusive` | src/deployment/dsh-yaml-patch-strategy.ts:489-530 | if nobody stays in the critical section beyond the stale limit, at most one process is in it, whatever dies, fails or gives up |
| `PatchLock.OverstayingIsOvertaken` | src/deployment/dsh-yaml-patch-strategy.ts:509-519 | whenever somebody overstays, another process gets in beside it |
| `SlsCodec.Varint` | src/flushers/sls-loggroup-codec.ts:69-78 | the loop yields the base-128 encoding |
| `SlsCodec.VarintRoundTrip` | src/flushers/sls-loggroup-codec.ts:69-78 | a varint is self-delimiting and decodes to its number, for every natural number and whatever follows |
| `SlsCodec.VarintMinimal` | src/flushers/sls-loggroup-codec.ts:69-78 | no other bytes that decode to a number are shorter |
| `SlsCodec.FieldRoundTrip` | src/flushers/sls-loggroup-codec.ts:53-67 | every field decodes to itself, whatever follows |
| `SlsCodec.FieldsRoundTrip` | src/flushers/sls-loggroup-codec.ts:14-29 | so does every sequence of fields |
| `SlsCodec.FieldVarint` | src/flushers/sls-loggroup-codec.ts:53-55 | tag and number, both as varints |
| `SlsCodec.FieldFixed32` | src/flushers/sls-loggroup-codec.ts:57-62 | one byte of tag and four bytes, least significant first; the encoding of the field exactly for field numbers below 16 |
| `SlsCodec.FieldBytes` | src/flushers/sls-loggroup-codec.ts:64-67 | tag, length and body |
| `SlsCodec.EncodeKeyValue` | src/flushers/sls-loggroup-codec.ts:46-51 | a pair is its two length-delimited fields |
| `SlsCodec.EncodeLog` | src/flushers/sls-loggroup-codec.ts:31-44 | a log is its 32-bit time, its pairs and its optional fixed part, in order |
| `SlsCodec.EncodeSlsLogGroup` | src/flushers/sls-loggroup-codec.ts:14-29 | a group is its logs, topic, source and flattened tags, in order |
| `SlsCodec.LogRoundTrip` | src/flushers/sls-loggroup-codec.ts:31-44 | decoding an encoded log yields its normal form |
| `SlsCodec.GroupRoundTrip` | src/flushers/sls-loggroup-codec.ts:14-29 | decoding an encoded group yields its normal form, for any number of logs, pairs and tags |
| `SlsCodec.PayloadComesBack` | src/flushers/sls-loggroup-codec.ts:14-78 | said of the payload alone: a reader of the bytes gets every log with its own content, its time and nanosecond part cut to 32 bits and unchanged where they fit, topic and source, and the tag records one after the other |
| `SlsCodec.EncodingIsInjectiveOnNormalForms` | src/flushers/sls-loggroup-codec.ts:14-29 | two groups encode alike if and only if their normal forms are equal |
| `RoundTimes.FillBoundaries` | src/flushers/doubao-work-round-converter.ts:138-146 | the in-place interpolation fails exactly when an anchor is out of order, and else fills every boundary |
| `RoundTimes.FillGap` | src/flushers/doubao-work-round-converter.ts:144-144 | every boundary strictly between two anchors gets its interpolated value, no other changes |
| `RoundTimes.CollectBoundaries` | src/flushers/doubao-work-round-converter.ts:109-136 | the pushed boundaries and indexes, round by round |
| `RoundTimes.CollectSpan` | src/flushers/doubao-work-round-converter.ts:111-135 | the anchors of one round from its tools |
| `RoundTimes.BuildTimes` | src/flushers/doubao-work-round-converter.ts:147-149 | the times read off the filled line, and whether every tool fits |
| `RoundTimes.EstimateRoundTimes` | src/flushers/doubao-work-round-converter.ts:106-150 | times are given exactly when the anchors are in order and every tool fits its round |
| `RoundTimes.InterpolatedMonotone` | src/flushers/doubao-work-round-converter.ts:140-146 | the integer interpolation never goes back, within a gap or across anchors |
| `RoundTimes.EvenlySpread` | src/flushers/doubao-work-round-converter.ts:140-147 | unknown boundaries are spread evenly between the anchors around them, rounded down |
| `RoundTimes.FilledFills` | src/flushers/doubao-work-round-converter.ts:138-146 | the filled line ascends from the request's start, stays within the request and keeps every anchor |
| `RoundTimes.TimelineIsNested` | src/flushers/doubao-work-round-converter.ts:147-149 | each round lies within the request, begins where the one before ends, ends after its model call, and holds every tool |
| `RoundTimes.AnchorsAreKept` | src/flushers/doubao-work-round-converter.ts:131-146 | known anchors are the times given for them |
| `RoundTimes.SpanMeaning` | src/flushers/doubao-work-round-converter.ts:111-135 | a round's anchors are the earliest start and, when every call is known, the latest end of its tools |
| `RoundEvidence.ObservedIff` | src/flushers/doubao-work-round-converter.ts:106-164 | a tool's interval is observed exactly when one call and one result are on record that belong together, or none of either and a completed Wait says so credibly; and which it is |
| `RoundEvidence.KnownToolsAreObserved` | src/flushers/doubao-work-round-converter.ts:106-136 | a round's intervals are those observed of its tools, one under each call id |
| `RoundEvidence.EstimableIff` | src/flushers/doubao-work-round-converter.ts:137-150 | an estimate exists exactly when the anchors are in order and every observed interval lies within its round |
| `RoundEvidence.ObservedRoundFits` | src/flushers/doubao-work-round-converter.ts:137-150 | a round whose calls are all observed never prevents an estimate by its own tools |
| `TrustSections.ConfigLines` | src/deployment/codex-trust-writer.ts:183-214 | the nested loops compute the scanner's flag of every line |
| `TrustScanner.LineIsRead` | src/deployment/codex-trust-writer.ts:183-214 | for every line written as TOML writes it, with strings, escapes, brackets and a comment: the scanner counts the brackets outside strings and comments, and is inside a string afterwards exactly if a multi-line string is left open |
| `TrustScanner.LineInStringIsRead` | src/deployment/codex-trust-writer.ts:183-214 | a line that begins inside a multi-line string stays inside it, or goes on after its end like any other |
| `TrustSections.TrustSectionRanges` | src/deployment/codex-trust-writer.ts:250-263 | the ranges are exactly the trust sections, each up to the next editable header |
| `TrustSections.RemoveExactTrustSections` | src/deployment/codex-trust-writer.ts:281-295 | drops exactly the chosen sections, or refuses because an owned body does not parse |
| `TrustSections.RemoveMarkedTrustSections` | src/deployment/codex-trust-writer.ts:321-336 | the same for the owned sections that begin inside a marked block |
| `TrustSections.MarkerLineMembership` | src/deployment/codex-trust-writer.ts:297-319 | which lines stand inside a marked block |
| `TrustSections.KeptFlags` | src/deployment/codex-trust-writer.ts:183-214 | dropping any choice of sections leaves every kept line with the flag it had |
| `TrustSections.KeptSections` | src/deployment/codex-trust-writer.ts:250-263 | the remaining sections are the old ones not chosen, header and body verbatim, in order |
| `TrustSections.RemovalKeepsTheRest` | src/deployment/codex-trust-writer.ts:281-295 | re-reading the result gives those lines, flags and sections |
| `TrustSections.ExactRemovalIsIdempotent` | src/deployment/codex-trust-writer.ts:281-295 | removing owned sections twice is removing them once |
| `TrustSections.MarkedRemovalIdempotentIff` | src/deployment/codex-trust-writer.ts:321-336 | marked removal is idempotent if and only if no removed section holds the END of a block left open that an owned section follows before the next marker line |
| `TrustSections.MarkedRemovalCanCascade` | src/deployment/codex-trust-writer.ts:321-336 | a text on which it is not |
| `MarkerBlock.StripMarkerBlock` | src/core/hook-watchdog.ts:111-133 | the loop keeps exactly the lines outside our blocks |
| `MarkerBlock.ExtractMarkerBlock` | src/core/hook-watchdog.ts:140-158 | the first block and whether it is terminated |
| `MarkerBlock.StripProperties` | src/core/hook-watchdog.ts:95-133 | stripping leaves a subsequence of lines without our BEGIN line, keeps every other block's BEGIN line, and is idempotent |
| `MarkerBlock.StripDropsOurBlocks` | src/core/hook-watchdog.ts:111-138 | where no line carries both markers of the block, stripping drops the lines of our blocks and no other |
| `MarkerBlock.StripKeepsBlock` | src/core/hook-watchdog.ts:95-158 | stripping leaves the text of every other terminated block |
| `MarkerBlock.Check` | src/core/hook-watchdog.ts:880-903 | healthy means: a current block somewhere and no damaged one, or no rc file at all |
| `MarkerBlock.HealthMeans` | src/core/hook-watchdog.ts:880-904 | supporting fact: healthy exactly when every block found is terminated and holds the signature, and some file has one unless there is no file |
| `MarkerBlock.Repair` | src/core/hook-watchdog.ts:904-920 | every existing file gets its repaired content, no file is created |
| `MarkerBlock.Cleanup` | src/core/hook-watchdog.ts:921-930 | every existing file is cleaned of our blocks |
| `MarkerBlock.RepairReachesHealth` | src/core/hook-watchdog.ts:904-920 | a repaired file holds a current block, and repairing it again changes nothing |
| `MarkerBlock.RepairedFilesAreHealthy` | src/core/hook-watchdog.ts:880-920 | after one repair the check is healthy |
| `MarkerBlock.RepairKeepsOtherBlocks` | src/core/hook-watchdog.ts:904-920 | repair leaves the text of every other terminated block |
| `MarkerBlock.UsersLinesStay` | src/core/hook-watchdog.ts:905-930 | a repair leaves a current block alone and else puts the block behind the user's own lines, a cleaning leaves just those; only blank lines may go |
| `MarkerBlock.EndsAreCollapsed` | src/core/hook-watchdog.ts:914-927 | of the line breaks at the end a rewrite keeps one and a cleaning two |
| `MarkerBlock.CleanupProperties` | src/core/hook-watchdog.ts:921-930 | a cleaned file has none of our blocks, keeps the others', and stays as it is when cleaned again |
| `MarkerBlock.ContainsByLine` | src/core/hook-watchdog.ts:926-926 | the quick test on the whole content agrees with the line by line one |
| `Jsonc.StripJsoncComments` | src/deployment/plugin-inject-strategy.ts:27-78 | the one-pass loop yields what is left when the comment tokens go |
| `Jsonc.StrippedIsTheOtherTokens` | src/deployment/plugin-inject-strategy.ts:23-26 | the tokens of a text concatenate to it, and those that are no comments to its stripped form |
| `Jsonc.FirstToken` | src/deployment/plugin-inject-strategy.ts:27-78 | what the tokens are: a string up to the next quote after an even number of backslashes, a line comment up to the line break, a block comment up to the next closing mark, each to the end if there is none; else one character |
| `Jsonc.StrippingTwice` | src/deployment/plugin-inject-strategy.ts:27-78 | stripping is idempotent: deleting a comment makes no new one |
| `Jsonc.StrippingIsIdentityIff` | src/deployment/plugin-inject-strategy.ts:27-78 | a text is unchanged if and only if it has no comment |
| `Jsonc.NoCommentIsLeft` | src/deployment/plugin-inject-strategy.ts:27-78 | no comment is left |
| `Jsonc.NoSlashNoChange` | src/deployment/plugin-inject-strategy.ts:53-71 | a text without a slash outside strings is unchanged |
| `ConfigMerge.EqualIsEquality` | src/deployment/plugin-inject-strategy.ts:633-654 | the recursive comparison is equality of values |
| `ConfigMerge.SubsetIffNothingToMerge` | src/deployment/plugin-inject-strategy.ts:610-675 | the check passes if and only if the merge would change nothing and could assign every key |
| `ConfigMerge.RepairReachesTheCheckIff` | src/deployment/plugin-inject-strategy.ts:610-675 | the check passes after the merge if and only if every desired key can be assigned |
| `ConfigMerge.MergeTwice` | src/deployment/plugin-inject-strategy.ts:656-675 | merging twice is merging once |
| `ConfigMerge.MergeKeepsTheRest` | src/deployment/plugin-inject-strategy.ts:660-674 | supporting fact: keys not desired are left as they were |
| `ConfigMerge.ProtoIsNeverReached` | src/deployment/plugin-inject-strategy.ts:660-674 | supporting fact: a desired `__proto__` is never reached |
| `PluginInject.FlatArrayInject` | src/deployment/plugin-inject-strategy.ts:348-367 | the lists after the injection, and a report that is true exactly when one changed |
| `PluginInject.FlatInjectionSettles` | src/deployment/plugin-inject-strategy.ts:129-141 | afterwards the health check passes, a second run changes nothing, and every foreign entry stays in order |
| `PluginInject.OursStandsLast` | src/deployment/plugin-inject-strategy.ts:295-302 | ours stands behind every foreign entry of the list under the configured key, else under `plugins` if that is a list, else under `plugin` |
| `PluginInject.WhatAnEntryNames` | src/deployment/plugin-inject-strategy.ts:325-330 | supporting fact: an entry names itself, the first item of a pair, or its package |
| `OpenClaw.OpenclawInject` | src/deployment/plugin-inject-strategy.ts:469-565 | the document after the injection, and its report |
| `OpenClaw.MigrateLegacy` | src/deployment/plugin-inject-strategy.ts:502-513 | the legacy entries taken over into the load paths |
| `OpenClaw.PlacePaths` | src/deployment/plugin-inject-strategy.ts:515-537 | replaced paths go, ours is there once, and a report that is true exactly when something had to be done |
| `OpenClaw.ConfigureEntry` | src/deployment/plugin-inject-strategy.ts:539-562 | the plugin's entry without an unknown grant and with everything desired |
| `OpenClaw.OpenclawInjectionSettles` | src/deployment/plugin-inject-strategy.ts:469-565 | a second run never changes the document; it reports a change exactly if our own path is among the replaced or a desired key cannot be assigned |
| `OpenClaw.OpenclawInjectionHealsIff` | src/deployment/plugin-inject-strategy.ts:123-128 | the health check passes afterwards exactly if every desired key can be assigned and the user's `hooks` does not make the test itself fail |
| `OpenClaw.OthersAreKept` | src/deployment/plugin-inject-strategy.ts:515-537 | other plugins' entries and paths that are not replaced stay as they were |
| `OpenClaw.OneOfOurPaths` | src/deployment/plugin-inject-strategy.ts:407-411 | afterwards exactly one load path is ours, and it is the plain path of our spec |
| `OpenClaw.LegacyIsTakenOver` | src/deployment/plugin-inject-strategy.ts:500-514 | every other plugin of a legacy list is among the load paths, behind those that were there, each once, and nothing else is added |
| `OpenClaw.AllowlistNamesUs` | src/deployment/plugin-inject-strategy.ts:495-499 | supporting fact: a non-empty allowlist names us afterwards behind those it named; any other stays as it is |
| `OpenClaw.DesiredIsTheConfig` | src/deployment/plugin-inject-strategy.ts:567-571 | supporting fact: the desired entry is the configured one, without hooks for a host without conversation access |
| `OpenClaw.RevokedLosesTheGrant` | src/deployment/plugin-inject-strategy.ts:541-549 | revoking takes the one grant out of the hooks, and hooks that are empty then; everything else stays |
| `ClaudeHooks.MergeClaudeHooks` | src/deployment/inject-command.ts:44-78 | the merged settings, refused when policy forbids them or they are malformed |
| `ClaudeHooks.CleanGroup` | src/deployment/inject-command.ts:66-72 | a group without our handlers: unchanged, trimmed, or gone |
| `ClaudeHooks.MergeIsIdempotent` | src/deployment/inject-command.ts:44-78 | merging twice is merging once |
| `ClaudeHooks.OneOfOursAllOfTheirs` | src/deployment/inject-command.ts:63-76 | each event of ours has exactly one handler of ours, no other event has any, and everybody else's handlers keep their order and their groups |
| `ClaudeHooks.RefusedIff` | src/deployment/inject-command.ts:44-70 | the settings are refused exactly when they forbid hooks, or hooks, environment or an event's groups are malformed |
| `ClaudeHooks.WhatIsWritten` | src/deployment/inject-command.ts:48-77 | supporting fact: every other setting and variable stays, our data directory is set, and each event of ours has, behind the groups that stay, one group with our matcher and command |
| `ClaudeHooks.CleanedIs` | src/deployment/inject-command.ts:64-72 | a group none of whose handlers is ours stays as it is, one with only ours goes |
| `ClaudeHooks.OursByCommand` | src/deployment/inject-command.ts:38-42 | supporting fact: a handler is ours by its command alone |
| `HttpOutput.HttpFlusher.FlushBuffered` | src/flushers/http-flusher.ts:89-92 | the whole buffer goes into one post |
| `HttpOutput.HttpFlusher.FlightEnds` | src/flushers/http-flusher.ts:93-102 | a failed post puts its entries back in front |
| `HttpOutput.HttpFlusher.FlushCodex` | src/flushers/http-flusher.ts:105-110 | starts the flush of Codex batches only if none runs |
| `HttpOutput.HttpFlusher.EnqueueCodex` | src/flushers/http-flusher.ts:57-82 | a Codex batch is cancelled at once when the flusher is stopped or its signal aborted, else queued last and the flush started |
| `HttpOutput.HttpFlusher.PostEnds` | src/flushers/http-flusher.ts:112-123 | success accepts and goes on, a cancelled batch is passed over, any other failure ends the flush and keeps the batch |
| `HttpOutput.HttpFlusher.Accept` | src/flushers/http-flusher.ts:66-70 | takes the batch out and resolves its promise unless it has settled |
| `HttpOutput.HttpFlusher.Cancel` | src/flushers/http-flusher.ts:71-76 | takes the batch out and rejects its promise unless it has settled |
| `HttpOutput.HttpFlusher.Shutdown` | src/flushers/http-flusher.ts:133-140 | every waiting batch is cancelled |
| `HttpOutput.EntriesAreConserved` | src/flushers/http-flusher.ts:89-103 | however posts overlap and fail, buffered, in flight and delivered together are what was sent |
| `HttpOutput.FlushDelivers` | src/flushers/http-flusher.ts:89-103 | supporting fact: a flush takes all that is buffered, delivers it or puts it back, and posts nothing when nothing is buffered |
| `HttpOutput.DeliveredInOrder` | src/flushers/http-flusher.ts:89-103 | as long as posts do not overlap, entries are delivered in the order in which they were sent, failures included |
| `HttpOutput.AcceptedInOrder` | src/flushers/http-flusher.ts:57-123 | in every run a batch is accepted only after a successful post, and only when every batch queued before it is settled |
| `HttpOutput.SettledOnce` | src/flushers/http-flusher.ts:60-77 | a settled promise stays as it is |
| `HttpOutput.ShutdownLeavesNoneWaiting` | src/flushers/http-flusher.ts:78-78 | from a shutdown on, short of another start, no batch is ever left waiting |
| `HttpOutput.RejectedAtOnce` | src/flushers/http-flusher.ts:78-78 | a batch that comes to a stopped flusher, or with an aborted signal, is rejected and never posted |
| `HttpOutput.SettledByTheFlushIff` | src/flushers/http-flusher.ts:57-123 | once the flush under way at the call, or started by it, has come to rest, a new batch is settled if and only if it was given up, or came before the window and the flush did not end on a failed post of it or of one before it; settled and not given up means accepted |
| `HttpOutput.FlushLeavesIff` | src/flushers/http-flusher.ts:112-123 | a flush that is posting leaves a waiting batch, old or new, exactly when it ends on a failed post of that batch or of one before it |
| `HttpOutput.LeavingTheLoopVisitsAll` | src/flushers/http-flusher.ts:112-123 | supporting fact: a flush that ends without such a failure leaves no batch waiting |
| `HttpOutput.ABatchCanBeLeft` | src/flushers/http-flusher.ts:105-121 | a batch queued in the window, and one queued while the post before it fails, wait with no flush running |
| `Discovery.EntryRuntime.ProcessEntry` | src/core/agent-discovery-service.ts:97-109 | a trigger begins a check, or is noted for the check under way, or is ignored when stopping |
| `Discovery.EntryRuntime.AfterCheck` | src/core/agent-discovery-service.ts:115-157 | start, stop, debounce or nothing, from the answer of the check |
| `Discovery.EntryRuntime.EndOfCheck` | src/core/agent-discovery-service.ts:102-107 | once more if a trigger is noted and the service runs, else out of the loop |
| `Discovery.EntryRuntime.StopEntry` | src/core/agent-discovery-service.ts:169-171 | the entry is stopping and its `stop` is called |
| `Discovery.CallsNeverOverlap` | src/core/agent-discovery-service.ts:97-178 | the `start` and `stop` calls of an entry never overlap, the service's own included |
| `Discovery.UnavailableStopsIff` | src/core/agent-discovery-service.ts:139-153 | an unavailable check stops a running entry if and only if the last checks, as many as the threshold, all found it unavailable |
| `Discovery.TriggerIsServedIff` | src/core/agent-discovery-service.ts:97-109 | a trigger is followed by a check that begins after it unless it comes between the end of the loop and the `finally`, where it can be lost |
| `Discovery.WhatACheckLeadsTo` | src/core/agent-discovery-service.ts:111-165 | unless the service stops: an entry wanted and available is started or kept running, one not wanted is stopped at once, one unavailable once too often too, and an idle one is left alone |
| `Discovery.WhatACallLeadsTo` | src/core/agent-discovery-service.ts:128-178 | a start that succeeds leaves the entry running, one that fails leaves it idle, a stop leaves it idle |
| `Discovery.OneTriggerOneCheck` | src/core/agent-discovery-service.ts:97-109 | a trigger that finds the entry at rest begins exactly one check if no other trigger comes |
| `Discovery.StoppedForGood` | src/core/agent-discovery-service.ts:59-80 | when `stop` has gone through the entries all are idle and nothing ever moves again |
| `Discovery.StopComesToItsEnd` | src/core/agent-discovery-service.ts:59-80 | once the check loops are over, `stop` goes through all entries and returns |
| `Discovery.NothingStartsWhileStopping` | src/core/agent-discovery-service.ts:97-109 | supporting fact: once `stop` is called no check begins and no `start` is called |
| `DeployedState.MergeHookSettingsPaths` | src/deployment/deployed-state-merge.ts:7-24 | the paths resolved, each once, in order of first occurrence |
| `DeployedState.UnitedIsKnown` | src/deployment/deployed-state-merge.ts:7-24 | none is lost, none is made up, none is twice |
| `DeployedState.UnitedIsInOrder` | src/deployment/deployed-state-merge.ts:7-24 | they stand in the order in which they first come up |
| `DeployedState.PathsOfMeans` | src/deployment/deployed-state-merge.ts:7-24 | supporting fact: a record stands for the path in its one field and those in its list, blank ones left out |
| `DeployedState.MergeDeployedAgentsState` | src/deployment/deployed-state-merge.ts:30-59 | the changed records laid over those on disk |
| `DeployedState.LayRecord` | src/deployment/deployed-state-merge.ts:42-56 | one record laid over the one on disk, with the settings paths of both |
| `DeployedState.LaidKeepsPaths` | src/deployment/deployed-state-merge.ts:42-56 | a merged record stands for exactly the settings paths of both |
| `DeployedState.LaidIsNextOverPrevious` | src/deployment/deployed-state-merge.ts:39-56 | supporting fact: field by field the newer record wins, and what it leaves out stays |
| `DeployedState.UntouchedIsKept` | src/deployment/deployed-state-merge.ts:26-35 | supporting fact: a save says nothing about records it did not change |
| `DeployedState.DisjointSavesCommute` | src/deployment/deployed-state-merge.ts:30-59 | supporting fact: saves of disjoint changes commute |
| `DeployedState.DeploymentManager.Changes` | src/deployment/deployment-manager.ts:584-591 | the changed ids are those touched and those that differ from the last load |
| `DeployedState.DeploymentManager.LoadState` | src/deployment/deployment-manager.ts:577-581 | memory and last load are the file, nothing is touched |
| `DeployedState.DeploymentManager.SaveState` | src/deployment/deployment-manager.ts:593-602 | a save writes the merge and takes it as the new memory |
| `DeployedState.SaveKeepsOthersWork` | src/deployment/deployment-manager.ts:584-602 | what a process did not change since it loaded comes out of its save as others left it |
| `DeployedState.SaveWritesOwnWork` | src/deployment/deployment-manager.ts:584-602 | what a process touched, or has otherwise than it loaded it, comes out of its save as its own, laid over the disk or gone |
| `DeployedState.ChangeIsSaved` | src/deployment/deployment-manager.ts:584-602 | a change is saved exactly if it was marked or is one, and no other record because of it |
| `DeployedState.RecordedPathsStay` | src/deployment/deployed-state-merge.ts:26-59 | whatever any number of processes do, as long as a record stays on disk no settings path it stood for is lost |

## Left out

- The file system, HTTP, processes, signals and the registry are steps that succeed, fail or crash; TOML and JSON parsing, hashing, path resolution and the plugin's commands are functions given to the model.
- `src/deployment/worker-manifest-supervisor.ts` and `src/core/updater-watchdog.ts`: process control, where a stop that races a restart has no clean guarantee.
- `src/checkpoints/snapshot-store.ts`, `src/core/log-retention-service.ts`, configuration loading, the orchestrator's wiring, rendering and the command line: plumbing, or properties that are easy.
- CheckpointSafety.OffsetOnDiskIsAccepted: assumes that a Codex input emits a batch before it moves its offset past it, as `src/inputs/base/base-input.ts` arranges it; the inputs themselves, git enrichment and masking are not part of this model. Whether an output accepts a batch is any outcome, so the fan-out of `src/flushers/multi-flusher.ts` is one step. "Accepted" means that the handling promise resolved: `dispatchEntries` swallows every error except the two Codex durability errors, returns when there is no flusher, and drops what the workspace filter rejects. The state keys of the files of one Codex input are identified with the id of the input.
- Checkpoints.StateStore.Load: does not overlap a flush in the runs considered; writing the state file is all or nothing.
- JournalSafety.ExportedIsNeverReplayed: torn writes come from crashes only; a failed action leaves the disk as it was; append, acknowledge and remove run one after the other, as the journal's queue makes them. `loadBatches` and `isAcknowledged` wait for the queue once and are not in it, so an operation that starts while they read is not modelled beside them; and after a failed first load of the acknowledgements the model may go on, where the code keeps the rejected promise and every later operation of the process fails before it touches the disk.
- JournalSafety.DoneFilesAreBounded: an acknowledgement without any Codex entry returns before the trim, so it bounds nothing after an earlier trim failed.
- JournalText.LoadFile: `\n` is the only line break; the order in which several turns are streamed is not modelled.
- PatchRoundTrip.BlockIsFound: marker, entry id, URL and hash are single lines without a carriage return, and the marker does not spell a created-file flag itself, as the shipped configuration has it.
- PatchRoundTrip.UndeployGivesBackTheUsersText: edits between the deploys leave a line break, or nothing, before the block and no marker lines of their own; a file without the line break is a refusal or another file to the code as well.
- PatchBlock.PatchFile.DeployAt: contents are compared as bytes instead of by hash; modes, temporary files and the collection marker beside the plugin are not modelled, and an edit between the last read and the rename is outside the guard, as the source says.
- PatchBlock.ExtractCreatedFlag: white space is the ASCII kind.
- PatchLock.CriticalIsExclusive: tokens never repeat, and only cooperating processes touch the two files.
- SlsCodec.EncodeSlsLogGroup: text is given as bytes; UTF-8 is not modelled.
- RoundTimes.EstimateRoundTimes: times are integers and the status of a tool is left out, as is the emission of spans.
- TrustSections.RemoveExactTrustSections: decoding a header to a key and validating a body are given; writing canonical sections is not modelled.
- MarkerBlock.RepairReachesHealth: a block definition is a blank line, its BEGIN line, a body that neither closes it nor opens another, and its END line.
- MarkerBlock.RepairKeepsOtherBlocks: no line carries the markers of two definitions.
- ConfigMerge.SubsetIffNothingToMerge: objects are maps without the order of their keys; numbers are reals.
- PluginInject.FlatArrayInject: the report compares values instead of their serialisation; `WithList` is the document with an empty list where none was.
- OpenClaw.OpenclawInject: `removal` and the backup of the configuration are not modelled.
- ClaudeHooks.MergeClaudeHooks: which commands are ours is given; the lock and the file of the settings are not modelled.
- HttpOutput.HttpFlusher.EnqueueCodex: the wait of a mixed batch for the flush of its ordinary entries is only the moment at which it is queued; a post that fails after the server took it counts as not delivered.
- Discovery.StoppedForGood: the service is not started again during or after the stop, and `stop` is called once; watchers and timers only give triggers.
- DeployedState.RecordedPathsStay: the save lock makes a save one step; its stale reclaim is not gated and is left out.
