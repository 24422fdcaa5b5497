# Verified model of the sync engine

This project models, in Dafny 4.11, the parts of the JuiceFS sync tool in which a wrong step loses or deletes data, and
proves what they promise on all inputs, all runs or all schedules.

**Producer, checkpoint and reports** (`pkg/sync`). `Producer` is the streaming merge-join of two sorted listings,
with its decision per key. `MergeJoin` proves that it decides what one lookup per key would decide and that no
deletion is wrong wherever a listing breaks off; `Decisions` says, flag by flag and without the code's own functions, which
action each object gets. `Listing` and `Pipeline` put the paged listing with its retries, the
filter and the gate prefetch in front of it. `Convergence` shows that a second run finds nothing to do. `Filters` and
`ParallelListing` treat include and exclude rules and the directory-by-directory listing. `Checkpoint` is the
checkpoint manager, each method of its class proved to be the function of that name and the functions described by
lemmas. `Traces` is the order in which the producer comes to its keys. `CrashResume` is the transition system of
producer, workers, saver, crash and restart; its invariant has three parts, tasks and order (`ResumeOrder`), the keys of
both sides (`Resume`) and the delayed deletions (`ResumeDelays`). `ResumeTheorems` is what follows for every run,
`ResumeProgress` that no run gets stuck, `ResumeRuns` holds concrete runs. `Uploads`, `PartSizes` and `Multipart` are multipart copies that resume. `Cluster` and
`ClusterRuns` are the reports of workers on other hosts.

**Encryption** (`pkg/object`). `Encrypt` is the envelope frame and its maximal overhead. `Chunked` is the chunk
format, `ChunkStreams` and `ChunkReads` are the two stateful readers over pooled buffers, `ChunkRanges` the ranged read.

**Concurrent machines**. `DirTree` and `DirWalk` are the prefetching directory walk, `Download` the parallel downloader,
`Sharding` the sharded store with its heap merge, `AsyncWriters` the two batching database writers. Interleavings are
nondeterministic choices: guarded commands, `:|`, or labels of a transition system.

Ciphers, checksums, `path.Match`, the hash of the shards, stores and failures are parameters: functions with exactly the
law that is needed (`Encrypt.Sound`, `Multipart.Combines`, `Listing.Honest`, `Sharding.Faithful`, `DirWalk.Serves`).
`Keys` is the byte-wise order of strings. Where a method and its
specification share a function that models the code, a lemma beside it says what the function means without naming it. `hide` statements only keep definitions away from proofs that do not need
them, and `{:induction false}` keeps Dafny from assuming a lemma for smaller arguments where its proof does not say so.

## Where the code does not keep the obvious promise

Each point below is a lemma with the exact condition or a concrete run; the model follows the code.

- A checkpoint file that names no prefix but holds delayed deletions makes the restarted process list nothing and
  report completion (`pkg/sync/sync.go:2807`, `pkg/sync/sync.go:3250`). It is stranded, and handles no key,
  exactly if the delayed deletions are on the destination and nothing had been recorded when the save read the prefixes:
  `ResumeTheorems.RestartIff`, `ResumeTheorems.FileWithoutPrefix`, `ResumeTheorems.CompletionIff`, with a run in
  `ResumeRuns.StrandedRunLosesASourceKey`. Unless --delete-dst is to delete directories it cannot happen, since a save
  holds the checkpoint's lock over all its reads (`pkg/sync/checkpoint.go:312-346`):
  `ResumeTheorems.CompletionWithoutDstDirs`.
- With delete-src, a directory advances the last listed key before its delayed deletion is appended
  (`pkg/sync/sync.go:1859-1864`), so a save in between loses the deletion, and no other does:
  `ResumeTheorems.SnapshotMissesOpenIff`, `ResumeTheorems.DelayedAtCompletionIff`, `ResumeRuns.OpenDirectoryIsLost`.
- With delete-src-after, the deletion of a directory is recorded only in the branch that copies it: one that is on the
  destination already and only has its permissions copied or its checksum confirmed stays in the source
  (`pkg/sync/sync.go:1341-1352`, `pkg/sync/sync.go:1415-1417`): `ResumeTheorems.ProcessedKeptIff`,
  `ResumeTheorems.KeptAfterCopyOnly`, `ResumeRuns.PermsDirectoryIsKept`.
- With delete-src, a source object whose destination copy has another size is deleted uncopied if the second gate lets it
  through, or without gates if --update finds both of the same second (`pkg/sync/sync.go:1809-1829`,
  `pkg/sync/sync.go:1846-1867`): `Convergence.SourceDeletedUnequalIff`, `Convergence.SourceDeletedIfEqual`.
- A failed Head on the start key reads as "no such key" (`pkg/sync/sync.go:308-313`); with delete-dst the destination copy
  of exactly that key is deleted: `Pipeline.LostStartKey`.
- A source directory passed over without --dirs is recorded as listed before smaller destination extras are handled
  (`pkg/sync/sync.go:1730-1736`), so a checkpoint can have a last listed key with deletions below it still to come:
  `Traces.CutIff` (if and only if), `ResumeTheorems.RestartListsAfter`, `ResumeRuns.OvertakenExtraIsKept`. With --dirs it
  cannot: `Traces.CutCoversWithDirs`, `ResumeTheorems.EveryCheckpointCoversExtras`, `ResumeTheorems.CompletionDeletes`.
- A multipart copy can need one part more than the destination allows: `PartSizes.PartCount` (if and only if),
  `PartSizes.TooManyParts`.
- An acknowledged report clears dirty part marks by key and number, whatever the upload ID (`pkg/sync/cluster.go:150-168`): a
  late answer forgets a part of a newer upload: `ClusterRuns.AcknowledgementKeepsPartsIff`, `ClusterRuns.LateAnswerForgetsPart`.
- A report that the manager applied without the worker knowing is repeated by the next one, but an upload that the worker
  gave up in between (`pkg/sync/sync.go:1224-1229`) is in the first only, and its record stays behind; so does one that a
  report applied after its repetition brings back: `Cluster.RetryAbsorbsIff`, `Cluster.StaysBehind`, `Cluster.LateIsIdleIff`.
- Prefixes are pruned by the level-wise rules even when keys are matched as whole paths (`pkg/sync/sync.go:2315`). A
  parallel listing then does the work on the keys it reaches, which is all of it exactly if no kept source object and no
  dying destination object lies below an excluded prefix: `ParallelListing.StartProducer`,
  `ParallelListing.ReachedIsAllIff`, `ParallelListing.FullPathLosesWork`; with level-wise rules that always holds:
  `ParallelListing.LeveledIsFlat`.
- A shard whose listing breaks off is treated as finished (`pkg/object/sharding.go:203-206`): `Sharding.ListAll` has all of a
  shard exactly if its paging does not come to a call that fails with all its retries and objects still to come:
  `Sharding.ListShard`, `Sharding.FlakyLosesAKey`.
- Closing the downloader keeps the tokens of saved blocks (`pkg/sync/download.go:144-154`):
  `Download.ParallelDownloader.TokensBack`, `Download.ClosedEarly`.
- A chunked object cut between two chunks, or in the padding of one, reads as a shorter object without an error
  (`pkg/object/encrypt_chunked.go:152-157`): `ChunkRanges.CutIs`.
- A task under the empty key, and no other, does not survive the checkpoint file (`pkg/object/object_storage.go:93`):
  `Checkpoint.SavedAndRestored`, `ResumeTheorems.TaskSurvivesIff`, `ResumeRuns.EmptyKeyIsLost`.

## Model

| member | source | states |
|---|---|---|
| Keys.LessIff | pkg/sync/sync.go:351-373 | one key is less than another if and only if at the first place where they differ it ends or has the smaller character |
| Keys.PrefixConvex | pkg/object/object_storage.go:280-282 | the keys that share a prefix are contiguous, which is why a directory before the start key that is no prefix of it can be skipped |
| Keys.PrefixBlockBefore | pkg/object/object_storage.go:302-350 | a whole directory lies on one side of any key outside it, so walking it in place keeps the order |
| Producer.Produce | pkg/sync/sync.go:1675-1892 | the loop with its held destination object, its early stop on either nil and its final disposal of extras computes the join of the two remaining listings |
| Producer.Align | pkg/sync/sync.go:1756-1775 | advancing the destination cursor disposes of exactly the smaller keys and stops at the first one not below, or at a failed listing |
| MergeJoin.Exactness | pkg/sync/sync.go:1724-1892 | for complete ascending listings: one decision per source key in order, each as a lookup by key would give it, and one deletion for each deletable destination key the source does not keep alive |
| MergeJoin.DeletionSafety | pkg/sync/sync.go:1724-1892 | wherever either listing breaks off, a deleted key is a deletable destination key outside the full source, and the source had passed it or ended; success means a complete source listing |
| Decisions.DecidedIff | pkg/sync/sync.go:1724-1876 | for all flags, gate rows and complete listings, each kind of action is taken on a source object if and only if its condition on flags, sizes, times and row holds |
| Decisions.OneEach | pkg/sync/sync.go:1724-1876 | every source object gets one action, in the order of the listing |
| Decisions.GateRowIff | pkg/sync/gate.go:50-66 | what the destination lacks is sent unless its row is a success for this version or a later one, in whole seconds |
| Decisions.GateRowSkips | pkg/sync/sync.go:1777-1787 | with such a row an object is skipped whatever the destination has |
| Decisions.ExistingIff | pkg/sync/sync.go:1790-1795 | --existing: what the destination lacks is copied if and only if the flag is off |
| Decisions.IgnoreExisting | pkg/sync/sync.go:1796-1801 | --ignore-existing: nothing happens to what the destination has |
| Decisions.UpdateIff | pkg/sync/sync.go:1846-1854 | --update: what the destination has is copied if and only if the source is later by whole seconds, and skipped if it is earlier |
| Decisions.SizeIff | pkg/sync/sync.go:1846-1852 | without it, if and only if the sizes differ |
| Decisions.ForceUpdate | pkg/sync/sync.go:1846-1852 | --force-update copies everything |
| Decisions.SecondGateIff | pkg/sync/gate.go:68-91 | under the gate what the destination has is left alone if and only if it is as new or newer and the update is not forced |
| Decisions.MatchedIff | pkg/sync/sync.go:1855-1873 | what counts as equal is checked, deleted at the source, given permissions or skipped as --check-all, --delete-src and --perms say, in this order |
| Decisions.DisposedIff | pkg/sync/sync.go:1573-1602 | the actions on the destination side are those of the objects only it has, of all that the producer comes to and of no other |
| Decisions.BrokenOff | pkg/sync/sync.go:1724-1892 | wherever either listing breaks off, what is done is the first part of what two complete listings call for, and all of it on success |
| Listing.SendPage | pkg/sync/sync.go:351-373 | what is sent of a page keeps the listing strictly ascending and within the bound, and it stops exactly at the bound or at the first key out of order |
| Listing.ListAll | pkg/sync/sync.go:297-411 | for every page split, retry outcome and order violation: the start object, then the keys up to the bound; it breaks off only after four failed answers at one marker or a key out of order, and a store that refuses no marker is delivered in full |
| Listing.Filter | pkg/sync/sync.go:1959-1980 | the filter delivers the kept objects in order, all of them for a complete listing, and a failure mark exactly where its input has one |
| Listing.Prefetch | pkg/sync/gate.go:108-180 | for every batch timing the items come out unchanged in order, each with its true gate row or none, and none is missing when no query fails |
| Pipeline.PassThrough | pkg/sync/gate.go:184-197 | without a first gate every item passes unchanged and without a row |
| Pipeline.FullIs | pkg/sync/sync.go:297-411 | what is to be listed: the start object and the keys after it that do not pass the end, as far as the filter keeps them, ascending |
| Pipeline.SingleProducer | pkg/sync/sync.go:1645-1673 | stores that may fail at any call, pages, filter, prefetch and producer together: every deletion is safe; what is done is the first part of what the two full listings call for; on success it is all of that, one decision per source object with the gate row of the table, under the default flags a copy if and only if the destination lacks the key or has another size, and the deletions are exactly the doomed keys; and it succeeds unless a store refuses to be listed |
| Pipeline.LostStartKey | pkg/sync/sync.go:308-313 | with both listings complete, a deletable key that the source keeps alive is deleted if and only if it is the start key and its Head failed |
| Traces.CutIff | pkg/sync/sync.go:1730-1775 | for every cut of every trace, listings complete or not: the keys to be deleted up to the last recorded one have all been sent or delayed if and only if that key is not the one of a passed-over directory with such a key below it still to come |
| Traces.StillToCome | pkg/sync/sync.go:1724-1892 | for complete listings, a key to be deleted that is not sent before the cut is sent after it, and no other is |
| Traces.CutCoversWithDirs | pkg/sync/sync.go:1730-1736 | with --dirs every cut covers |
| Convergence.CopiedExactly | pkg/sync/sync.go:1795-1800 | without special flags a key is queued for copying if and only if the source has it and the destination lacks it or differs in size |
| Convergence.DeletedExactly | pkg/sync/sync.go:1877-1891 | a key is deleted if and only if deletion is on, the destination has it, the source does not, and it is not the checkpoint |
| Convergence.SecondRunIsIdle | pkg/sync/sync.go:1846-1892 | after one run's tasks are carried out a second run only skips, and with delete-dst the key sets are equal |
| Convergence.SourceDeletedUnequalIff | pkg/sync/sync.go:1809-1876 | with both listings complete, a source object whose destination copy has another size is deleted if and only if --delete-src is on and the gates, or --update at the same second, take the two for equal |
| Convergence.SourceDeletedIfEqual | pkg/sync/sync.go:1846-1867 | without gates and --update a source object is deleted only if the destination has the same key with the same size |
| Convergence.GateProtectsNewer | pkg/sync/gate.go:68-91 | under the gate an object whose destination copy is at least as new is skipped, whatever its size or row |
| Filters.MatchLeveledPath | pkg/sync/sync.go:2085-2116 | the loop over levels and rules allows a key if and only if at every level that has a name the first rule to hit it, if any does, includes; a rule hits if its pattern can be laid over the path, from the root or at the end |
| Filters.PrefixIs | pkg/sync/sync.go:2007-2027 | matching from the front is cutting the path into pieces, one for each component, a triple star taking the rest |
| Filters.SuffixIs | pkg/sync/sync.go:2029-2058 | matching from the end is the same for the end of the path |
| Filters.SplitIs | pkg/sync/sync.go:2086 | the components of a key are its names between slashes |
| Filters.AnchoredIff | pkg/sync/sync.go:2098-2103 | one rule with a slash in front excludes a key if and only if its components match those of the key one by one from the root |
| Filters.FloatingIff | pkg/sync/sync.go:2104-2105 | without the slash, if and only if they match somewhere |
| Filters.DirectoryIff | pkg/sync/sync.go:2095-2097 | with a slash at the end, if and only if they match somewhere and the key goes on below |
| Filters.TripleStarIff | pkg/sync/sync.go:2095-2097 | with a triple star at the end, if and only if they match from the root and the key goes on below |
| Filters.TwoStarIs | pkg/sync/sync.go:1982-2005 | a double star inside a component: its front matches the first name, and a single star with its back the whole or what begins at some later name, or its back is empty |
| Filters.FullPathIs | pkg/sync/sync.go:2060-2082 | matched as a whole, a key passes if the first rule to fit includes |
| Filters.ExcludedBelow | pkg/sync/sync.go:2085-2116 | a directory excluded by the rules excludes every key below it |
| Filters.PlainPrefix | pkg/sync/sync.go:2007-2027 | an anchored pattern without double stars matches component by component |
| Filters.PlainSuffix | pkg/sync/sync.go:2029-2058 | an unanchored one matches the last components |
| Filters.TripleStarPrefix | pkg/sync/sync.go:2014-2015 | a final triple star matches everything below what its front matches, and not the front itself |
| Filters.DoubleStarMatches | pkg/sync/sync.go:1982-2005 | a double star alone matches any path of one or more names |
| ParallelListing.FlatWork | pkg/sync/sync.go:1675-1892 | one producer over flat filtered listings does, as multisets, the work of one lookup per key |
| ParallelListing.WorkSplit | pkg/sync/sync.go:2284-2393 | along any division of the keys the work on the whole is the sum of the work on the parts |
| ParallelListing.ClassIs | pkg/sync/sync.go:2118-2161 | the common prefix under which a delimited listing shows a key is the child directory the key lies in |
| ParallelListing.FlatMeans | pkg/sync/sync.go:1675-1892 | in that work each kept source object has the action that its flags, sizes, times and row call for |
| ParallelListing.FlatNames | pkg/sync/sync.go:1675-1892 | it has one action for each kept source object and no other |
| ParallelListing.FlatDeletes | pkg/sync/sync.go:1573-1602 | it deletes a key if and only if the destination has it kept and deletable and no kept source object that counts has it |
| ParallelListing.ChildIff | pkg/sync/sync.go:2118-2161 | the directories right below a prefix are the common prefixes that keys are shown under |
| ParallelListing.StartProducer | pkg/sync/sync.go:2284-2393 | for every filter, depth, reporting order and repetition of prefixes, recursing over common prefixes with pruning does the work of one producer over the keys all of whose directories down to the depth pass the rules |
| ParallelListing.ReachesIff | pkg/sync/sync.go:2284-2393 | the recursion comes to a key if and only if each directory it lies in, up to so many slashes below the prefix, passes the rules |
| ParallelListing.ReachedIsAllIff | pkg/sync/sync.go:2315-2318 | that is the work of one flat producer if and only if no kept source object and no dying destination object lies below an excluded prefix |
| ParallelListing.LeveledIsFlat | pkg/sync/sync.go:2284-2393 | with level-wise rules it always is |
| ParallelListing.FullPathLosesWork | pkg/sync/sync.go:2060-2082 | a rule matched against whole paths under which it is not |
| Checkpoint.UpdatedIs | pkg/sync/checkpoint.go:469-482 | outside a file list a prefix exists as long as its listing goes on or it has tasks, and nothing changes outside it |
| Checkpoint.PendingIsHeld | pkg/sync/checkpoint.go:719-728 | a pending task is outstanding under its kind and the last listed key; all others are as before |
| Checkpoint.ListedIsRecorded | pkg/sync/checkpoint.go:730-737 | recording a listed key leaves all tasks alone |
| Checkpoint.DoneIsForgotten | pkg/sync/checkpoint.go:484-491 | after the listing a prefix stays if and only if it has tasks or is from a file list |
| Checkpoint.CompletedIsGone | pkg/sync/checkpoint.go:680-696 | exactly the completed task and its upload record go, and the prefix with the last task of a finished listing |
| Checkpoint.FailedIsKept | pkg/sync/checkpoint.go:699-717 | a failed task stays outstanding under its kind and tracked, and is pending no more |
| Checkpoint.RestoredOnce | pkg/sync/checkpoint.go:763-792 | a loaded prefix gives exactly its outstanding tasks, all pending and tracked again; asking twice gives nothing and changes nothing |
| Checkpoint.SavedAndRestored | pkg/object/object_storage.go:91-96 | through a save, a crash and a restart a task is queued again, under a kind it had, if and only if it was outstanding and its key is not empty |
| CrashResume.Requeued | pkg/sync/sync.go:2165-2188 | the queue after a restart holds exactly the restored tasks |
| Traces.MergeInOrder | pkg/sync/sync.go:1724-1892 | the producer handles source keys in listing order, so the last listed key bounds what is handled |
| Traces.MergeInOrderX | pkg/sync/sync.go:1751-1775 | it deletes in order, too: every recorded key but that of a passed-over directory is below all deletions still to come |
| Traces.PassedForGood | pkg/sync/sync.go:1724-1892 | for every recorded key of every trace but that of a passed-over directory: all that follows it, on either side, is greater |
| ResumeOrder.RunKeepsOrder | pkg/sync/checkpoint.go:680-792 | in every run the tasks that workers have are those the checkpoint holds, each once and tracked, and all that is still to be listed lies above them |
| Resume.ProduceKeeps | pkg/sync/sync.go:1702-1722 | every step of the producer keeps the invariant: each key is dealt with, to come, held by the checkpoint and in a worker's hands, on both sides |
| Resume.WorkKeeps | pkg/sync/sync.go:1319-1494 | so does every step of every worker |
| Resume.SaveBeginKeeps | pkg/sync/checkpoint.go:312-326 | so does the first read of a save, of the prefixes |
| Resume.SaveReadsKeep | pkg/sync/checkpoint.go:340-367 | so do its later reads of the delayed deletions, at other times, and the writing of the file |
| Resume.NextKeeps | pkg/sync/checkpoint.go:289-367 | so does any step, crash and restart included |
| Resume.RunKeeps | pkg/sync/sync.go:2656-2830 | so does every run |
| ResumeDelays.RunKeepsDelays | pkg/sync/sync.go:1473-1494 | in every run the list of delayed source deletions holds what it held at the start, what finished tasks left and what the producer delayed, and lacks only the directory about to be appended |
| ResumeTheorems.EveryCheckpointCovers | pkg/sync/checkpoint.go:289-367 | in every checkpoint file any run can leave, each source key up to the last listed one is handled, pending or failed; all of them once the listing is done |
| ResumeTheorems.EveryCheckpointCoversExtras | pkg/sync/checkpoint.go:289-367 | with --dirs the same for keys to be deleted: deleted, delayed in the file, or among its tasks |
| ResumeTheorems.FileWithoutPrefix | pkg/sync/checkpoint.go:469-482 | a file without prefixes has nothing left to do on either side, if anything had been recorded when the prefixes were read |
| ResumeTheorems.CompletionIff | pkg/sync/sync.go:3247-3258 | whenever a process completes, over any number of crashes, all source keys are handled if and only if it was not stranded or all were before; a stranded one handles none |
| ResumeTheorems.CompletionDeletes | pkg/sync/sync.go:3247-3258 | with --dirs all keys to be deleted are then deleted or delayed to the end |
| ResumeTheorems.CompletionWithoutDstDirs | pkg/sync/checkpoint.go:312-346 | unless --delete-dst is to delete directories, a completed process has always handled all source keys, with the flags that delete sources as well |
| ResumeTheorems.NeverStranded | pkg/sync/checkpoint.go:440-462 | because no restart is then stranded: the prefix is not created while a save reads |
| ResumeTheorems.HeldUpIff | pkg/sync/checkpoint.go:312-346 | while a save is between its reads, a statement that creates or removes the prefix waits and every other one goes on |
| ResumeTheorems.RestartIff | pkg/sync/sync.go:2805-2829 | a restart is stranded if and only if the file names no prefix but holds delayed deletions on the destination, and nothing had been recorded when the save read the prefixes; it then holds none on the source |
| ResumeTheorems.EverySnapshotKeepsOwedDirectories | pkg/sync/checkpoint.go:312-346 | a directory that a finished task leaves to be deleted is, in every file, an outstanding task or in the delayed list |
| ResumeTheorems.ProcessedKeptIff | pkg/sync/sync.go:1341-1494 | when a task leaves the checkpoint, its key is on the delayed list if and only if it was at the start or the branch taken put it there |
| ResumeTheorems.KeptAfterCopyOnly | pkg/sync/sync.go:1478-1485 | under delete-src-after the deletion of a processed directory is kept if and only if it was copied, by a copy task or a checksum task that found a difference |
| ResumeTheorems.SnapshotMissesOpenIff | pkg/sync/sync.go:1857-1864 | under delete-src a file misses a directory delayed by its process if and only if that is the one being recorded |
| ResumeTheorems.DelayedAtCompletionIff | pkg/sync/sync.go:2811-2816 | a process restarted from the file has a delayed directory on its list, at completion or any time, if and only if the file had it |
| ResumeTheorems.NothingDelayedWithoutDeleteSrc | pkg/sync/sync.go:1857-1864 | without delete-src the producer delays no source directory |
| ResumeTheorems.TaskSurvivesIff | pkg/sync/checkpoint.go:763-792 | a restart queues a key if and only if the file holds a task for it and it is not empty |
| ResumeTheorems.RestartListsAfter | pkg/sync/sync.go:1649-1658 | a restart that lists names only keys after the last listed one |
| ResumeProgress.CanFinish | pkg/sync/sync.go:3240-3260 | from every state any run can reach, a save under way included, the process can go on to its end: to completion if no task has failed and its listings are whole, else to a checkpoint |
| ResumeProgress.RestartCanComplete | pkg/sync/sync.go:2267-2282 | after any crash or stop a restart with whole listings can complete with all source keys handled, unless it is stranded |
| ResumeRuns.StrandedRestartCompletes | pkg/sync/sync.go:2267-2282 | a restart from a file without prefixes lists nothing, completes and handles nothing |
| ResumeRuns.StrandedRunLosesASourceKey | pkg/sync/sync.go:1631-1635 | a concrete run in which a source key is silently missed |
| ResumeRuns.OpenDirectoryIsLost | pkg/sync/sync.go:1857-1864 | a concrete run in which a delayed deletion is lost |
| ResumeRuns.PermsDirectoryIsKept | pkg/sync/sync.go:1341-1352 | a concrete run in which a directory is processed under delete-src-after and its deletion never recorded |
| ResumeRuns.OvertakenExtraIsKept | pkg/sync/sync.go:1730-1736 | a concrete run in which an extra file outlives a restart behind a passed-over directory |
| ResumeRuns.EmptyKeyIsLost | pkg/object/object_storage.go:91-96 | a concrete run in which a pending task under the empty key is lost in the file |
| PartSizes.ChoiceIs | pkg/sync/sync.go:989-999 | the smallest allowed part size, or 5 MiB if none is named, where that many hold the object; else the share of each part rounded up to the next whole MiB |
| PartSizes.PartsTile | pkg/sync/sync.go:1122-1141 | parts are non-empty, adjoin, and end at the end of the object |
| PartSizes.PartCount | pkg/sync/sync.go:989-999 | at most MaxCount parts, or one more if and only if the enlarged share is whole MiB and leaves a remainder |
| PartSizes.TooManyParts | pkg/sync/sync.go:994-997 | a size for which the usual limit is exceeded by one |
| PartSizes.Stable | pkg/sync/checkpoint.go:576-577 | choosing again from the saved part size gives the same size |
| PartSizes.WholeMiB | pkg/sync/sync.go:994-997 | part sizes are whole MiB when the smallest allowed one is |
| Uploads.FindIff | pkg/sync/checkpoint.go:521-528 | an upload is taken up again if and only if the key's record is of this size, this time and usable: one of another size or time never is |
| Uploads.EnsureIs | pkg/sync/checkpoint.go:569-589 | a record is reopened with its parts if it is of this version and upload, else it begins anew |
| Uploads.GetPartIff | pkg/sync/checkpoint.go:608-626 | a part is reused if and only if it is recorded and so, if one is asked for, is its checksum |
| Uploads.MarkedIsRecorded | pkg/sync/checkpoint.go:591-606 | a marked part is recorded, and so is every part that was |
| Uploads.PutIs | pkg/sync/checkpoint.go:539-567 | a report for the upload on record adds its parts and checksums, one for another upload replaces it, one of no usable upload does nothing |
| Multipart.AssembledHolds | pkg/object/encrypt_chunked.go:337-343 | parts stored on their own, plain or encrypted, put together stand for the whole object |
| Multipart.MarkedSound | pkg/sync/checkpoint.go:589-606 | recording an uploaded part keeps the record true of the destination |
| Multipart.CopyParts | pkg/sync/sync.go:1136-1163 | in any order, with reused and failing parts: the record stays sound and gains the parts that are stored; it succeeds if and only if each failing part is recorded with the checksum asked for, and then every part holds its range; recorded and failing parts stay as they are stored |
| Multipart.CombineAll | pkg/sync/sync.go:1186-1192 | the combined checksum is that of the object |
| Multipart.DoCopyMultiple | pkg/sync/sync.go:1116-1195 | success means the destination object stands for the source and the checksum is right, also with parts of an earlier attempt, and comes exactly when the size fits, the upload exists, each failing part is recorded and the last call succeeds; failure leaves objects alone, and a failed attempt that can be resumed leaves a record with every part it had or got |
| Multipart.SucceedsIfNoneFails | pkg/sync/sync.go:1116-1163 | in particular if the size fits, the upload exists and nothing fails |
| Multipart.CopyAnew | pkg/sync/sync.go:1231-1262 | a copy with a new upload, or in one piece where there are none, with the exact condition for success and what a failed one leaves on record |
| Multipart.CopyData | pkg/sync/sync.go:1208-1277 | the same for resuming above 4 GiB, then starting over, then one piece where there are no uploads, with the exact condition for success on sizes and recorded part numbers; repeated over any number of attempts, since the record is sound before and after |
| Multipart.EncryptedStores | pkg/object/encrypt_chunked.go:337-343 | the chunked encryption is such a way of storing parts |
| Cluster.GetMultipartUploads | pkg/sync/cluster.go:103-148 | a report carries, of every valid upload, exactly the dirty parts it still has, with their checksums |
| Cluster.ClearSentMultipartParts | pkg/sync/cluster.go:150-168 | exactly the sent part numbers are cleared, and keys without marks removed |
| Cluster.SentIff | pkg/sync/cluster.go:103-148 | key by key and part by part: what is carried is what is dirty and recorded, and no unusable upload |
| Cluster.ClearedIff | pkg/sync/cluster.go:150-168 | a part number stays dirty if and only if it was and was not sent |
| Cluster.AppliedKeyByKey | pkg/sync/cluster.go:276-309 | after a report completed keys are tracked and outstanding no more and have no upload, failed ones are failed where they were pending, all others stand as they did, and uploads of keys not completed are merged |
| Cluster.HandleStats | pkg/sync/cluster.go:276-309 | the handler merges uploads, then completes, then fails the reported keys |
| Cluster.OperationsTrack | pkg/sync/checkpoint.go:719-792 | adding, listing and restoring keep every tracked key pending or failed in its prefix |
| Cluster.RetryAbsorbsIff | pkg/sync/cluster.go:200-210 | a report that was applied unacknowledged and comes again with its keys in front of newer ones: applying both is applying the later one alone if and only if, of each upload not completed, the later one brings the manager to the same record, or does not report it and the manager knew all of it |
| Cluster.RetryAbsorbs | pkg/sync/cluster.go:200-210 | in particular if each upload goes on, or is a new one the manager does not know |
| Cluster.StaysBehind | pkg/sync/sync.go:1224-1229 | an upload reported and given up in between stays recorded at the manager, which the later report alone would not have done |
| Cluster.LateIsIdleIff | pkg/sync/cluster.go:276-309 | a report that takes effect only after the one that repeats it changes nothing if and only if the records of the uploads it does not complete are there with all it reports |
| Cluster.FailThenComplete | pkg/sync/cluster.go:296-306 | a failure and a completion can change places in the manager |
| Cluster.RedeliveryIsIdle | pkg/sync/cluster.go:296-306 | the same report applied twice is that report applied once |
| ClusterRuns.ReportBuffers.Take | pkg/sync/cluster.go:173-199 | the key buffers are swapped out empty and the dirty parts copied |
| ClusterRuns.ReportBuffers.Settle | pkg/sync/cluster.go:200-230 | a failed post puts its keys back in front of newer ones; an answered one clears the sent marks |
| ClusterRuns.MarkedIsReported | pkg/sync/checkpoint.go:646-670 | a part once marked is in the next report with its content and checksum, and all else as before |
| ClusterRuns.ClosedIsNotReported | pkg/sync/checkpoint.go:672-677 | a closed upload is reported no more, all others as before |
| ClusterRuns.NoKeyIsForgotten | pkg/sync/cluster.go:170-231 | in every run, with posts that fail, take effect unanswered or take effect late, every finished or failed key is buffered, under way or acknowledged, as often as it finished and no oftener, and what is acknowledged was applied |
| ClusterRuns.NextReportRepeats | pkg/sync/cluster.go:173-210 | in every run the report after a failed post begins with the keys of the failed one, and goes on with each of its uploads that was neither closed nor replaced in between |
| ClusterRuns.NoPartIsForgotten | pkg/sync/cluster.go:178-230 | in every run without a late answer each part of a live upload is dirty or acknowledged |
| ClusterRuns.AcknowledgementKeepsPartsIff | pkg/sync/cluster.go:150-168 | an answer forgets no part if and only if each sent part that is still live is the one that was sent |
| ClusterRuns.LateAnswerForgetsPart | pkg/sync/cluster.go:150-168 | a concrete run that forgets one |
| Encrypt.ParseOfFrame | pkg/object/encrypt.go:244-271 | the frame parses back if and only if the lengths fit their fields and sealed data follows |
| Encrypt.FrameIs | pkg/object/encrypt.go:226-256 | a frame byte by byte |
| Encrypt.ParseIff | pkg/object/encrypt.go:258-271 | bytes parse if and only if they are such a frame, and are otherwise too short or malformed |
| Encrypt.DecryptIff | pkg/object/encrypt.go:258-281 | bytes decrypt if and only if they parse, the key unwraps and the data opens; which error says what failed |
| Encrypt.Encrypt | pkg/object/encrypt.go:226-256 | filling the buffer in place yields the frame of wrapped key, nonce and sealed data |
| Encrypt.DecryptEncrypt | pkg/object/encrypt.go:226-281 | decryption undoes encryption, and the result is no longer than the plaintext plus the maximal overhead |
| Encrypt.OverheadIsLeast | pkg/object/encrypt.go:283-294 | no smaller bound would do |
| Encrypt.Asn1LenLen | pkg/object/encrypt.go:215-224 | the loop counts the DER length octets of section 8.1.3 of ITU-T X.690 |
| Encrypt.LengthIs | pkg/object/encrypt.go:215-224 | those octets, value by value: one below 128, else a count with its top bit set and the length without leading zeros |
| Encrypt.TLVLenMonotone | pkg/object/encrypt.go:207-213 | longer contents never have a shorter encoding |
| Encrypt.Sm2Fits | pkg/object/encrypt.go:296-307 | for any coordinates an ASN.1 SM2 ciphertext of the data key fits the computed bound |
| Encrypt.Sm2BoundIsLeast | pkg/object/encrypt.go:296-307 | and coordinates of full length with their top bits set reach it |
| Chunked.ChunkIs | pkg/object/encrypt_chunked.go:240-244 | a chunk byte by byte: four bytes of length, most significant first, the ciphertext, zeros |
| Chunked.OpenIff | pkg/object/encrypt_chunked.go:159-170 | bytes open to a plaintext if and only if they hold a ciphertext of the length they begin with that decrypts to it; which error says what is missing |
| Chunked.EnvelopeFits | pkg/object/encrypt_chunked.go:234-241 | the envelope encryption never exceeds a chunk's capacity, and decrypts in place |
| Chunked.OpenOfChunk | pkg/object/encrypt_chunked.go:159-170 | a padded chunk opens to its plaintext |
| Chunked.StreamConcat | pkg/object/encrypt_chunked.go:337-343 | streams of whole chunks concatenate to a stream of the concatenated plaintext |
| Chunked.EncodedIsStream | pkg/object/encrypt_chunked.go:212-258 | what the writer produces is a valid stream of its plaintext |
| Chunked.EncodedIs | pkg/object/encrypt_chunked.go:212-258 | chunk j begins at j times a full chunk and holds the j-th MiB, encrypted by a call of its own; nothing follows the last one |
| Chunked.CalcPlainSizeExact | pkg/object/encrypt_chunked.go:72-86 | the size computed from the stored length is the plaintext length, for the empty object too |
| ChunkStreams.Pool.Get | pkg/object/encrypt_chunked.go:146 | a buffer handed out is in nobody else's hands |
| ChunkStreams.Pool.Put | pkg/object/encrypt_chunked.go:129-135 | a buffer goes back only while it is lent, so never twice |
| ChunkStreams.ChunkEncryptReader.Read | pkg/object/encrypt_chunked.go:212-258 | for any buffer size the bytes handed out and those pending are the bytes pending before; end of stream only when none are; pooled buffers all back |
| ChunkStreams.ReadAllEncrypted | pkg/object/encrypt_chunked.go:337-341 | for any sequence of buffer sizes the whole stream is read, and a source error is reported |
| ChunkReads.ChunkDecryptReader.Read | pkg/object/encrypt_chunked.go:137-187 | for any input, corrupt ones included, and any buffer size: the next bytes of what the input stands for, or its end or error; a pooled buffer is held exactly while part of its plaintext is undelivered |
| ChunkReads.ChunkDecryptReader.OpenNext | pkg/object/encrypt_chunked.go:146-186 | one stored chunk is checked, decrypted in place and skipped into, or its failure reported |
| ChunkReads.ChunkDecryptReader.PutChunkBuf | pkg/object/encrypt_chunked.go:129-135 | the held buffer goes back once |
| ChunkReads.ChunkDecryptReader.Close | pkg/object/encrypt_chunked.go:189-192 | nothing is held afterwards |
| ChunkReads.OpenInPlace | pkg/object/encrypt_chunked.go:159-170 | header and length checks, then decryption over the ciphertext's own buffer |
| ChunkRanges.DropChunks | pkg/object/encrypt_chunked.go:88-96 | dropping whole stored chunks drops that much plaintext |
| ChunkRanges.TakeChunks | pkg/object/encrypt_chunked.go:92-96 | whole stored chunks at the front hold that much plaintext |
| ChunkRanges.DecodedStream | pkg/object/encrypt_chunked.go:137-187 | a valid stream is delivered from the skip on and ends cleanly |
| ChunkRanges.CorruptIsReported | pkg/object/encrypt_chunked.go:159-170 | whole chunks and then bytes that do not open: the chunks are read and then an error |
| ChunkRanges.FailureIsReported | pkg/object/encrypt_chunked.go:152-157 | a source that fails inside a chunk: likewise |
| ChunkRanges.CutIs | pkg/object/encrypt_chunked.go:152-167 | an object cut short: an error if the cut takes ciphertext of a chunk away, and a clean end if it lies between chunks or in padding |
| ChunkRanges.SkipIs | pkg/object/encrypt_chunked.go:172-179 | a first chunk is skipped into, and a skip past all it holds ends the reading |
| ChunkRanges.FetchedIs | pkg/object/encrypt_chunked.go:88-98 | what is fetched are the chunks that the range touches, and no others |
| ChunkRanges.FetchedDecodes | pkg/object/encrypt_chunked.go:88-113 | the fetched range of the stored object decodes to the range asked for |
| ChunkRanges.ReadAll | pkg/object/encrypt_chunked.go:109-113 | reading under a limit delivers that many bytes of what is pending, while others overwrite the free buffers |
| ChunkRanges.Get | pkg/object/encrypt_chunked.go:88-113 | for every offset, limit and buffer sizes: exactly that range of the plaintext, and all buffers back |
| ChunkRanges.PutThenGet | pkg/object/encrypt_chunked.go:88-258 | written and read with any buffer sizes a plaintext comes back in any range, and its size is known |
| DirTree.PreorderAscends | pkg/object/object_storage.go:302-350 | a directory-first walk of a well-formed tree ascends strictly |
| DirTree.WalkSelects | pkg/object/object_storage.go:302-350 | stopping at the end key and skipping directories before the start key loses nothing in range |
| DirTree.PreorderIs | pkg/object/object_storage.go:302-350 | the keys of a walk are those of the nodes that a chain from the root listing comes to, each next one among the children of a directory that is not the listing's entry for itself |
| DirTree.ListedIs | pkg/object/object_storage.go:250-262 | the listing is, ascending, exactly the keys of nodes on such chains in [start, end), without the start key when it has no slash past the prefix |
| DirWalk.Prefetch | pkg/object/object_storage.go:274-299 | a prefetcher runs up to the next directory due from it and publishes its first page |
| DirWalk.Take | pkg/object/object_storage.go:316-343 | what the consumer takes is the complete listing of the directory it is at |
| DirWalk.RunAhead | pkg/object/object_storage.go:271-299 | however far any prefetchers run ahead, each publication stays the one the consumer next expects |
| DirWalk.WalkDir | pkg/object/object_storage.go:266-352 | for every interleaving the consumer sends what the sequential walk sends, or a prefix of it after a failed listing |
| DirWalk.ListAllWithDelimiter | pkg/object/object_storage.go:250-362 | the same from the root, listed after the marker: on success, ascending, exactly the keys on chains in range |
| Download.ParallelDownloader.Launch | pkg/sync/download.go:62-66 | a token is taken for the next block, within capacity |
| Download.ParallelDownloader.Finish | pkg/sync/download.go:66-107 | a fetched block is saved with its token; any other end gives the token back |
| Download.ParallelDownloader.Read | pkg/sync/download.go:111-142 | the bytes handed out are the next bytes of the object; a finished block is deleted and owes one token |
| Download.ParallelDownloader.Close | pkg/sync/download.go:144-154 | saved blocks are dropped and their tokens stay in the channel |
| Download.ParallelDownloader.NeverStuck | pkg/sync/download.go:111-125 | without an error the reader's next block is there, in flight, or can be launched |
| Download.ParallelDownloader.TokensBack | pkg/sync/download.go:62-142 | at the end all tokens are back but those of blocks that Close dropped |
| Download.Drain | pkg/sync/download.go:62-142 | for every schedule, read size and failing fetches: a prefix of the object is read; all of it, with no token left, if and only if none of the blocks to be fetched fails |
| Download.ClosedEarly | pkg/sync/download.go:144-154 | a downloader closed over a saved block, whose token stays in the channel |
| Sharding.Sharded.Put | pkg/object/sharding.go:69-71 | writing one shard writes the one map |
| Sharding.Sharded.Delete | pkg/object/sharding.go:77-79 | deleting in one shard deletes in the one map |
| Sharding.Sharded.Get | pkg/object/sharding.go:54-67 | a point read answers as the one map does |
| Sharding.ListShard | pkg/object/sharding.go:103-163 | a paged listing with ten retries delivers the shard, in full if and only if its paging does not come to a call that fails with all its retries and objects still to come; it breaks off only after eleven failed answers at one marker or a key out of order |
| Sharding.RefillIs | pkg/object/sharding.go:200-207 | popping a head and pushing its successor leaves everything but that head |
| Sharding.MergeShards | pkg/object/sharding.go:184-211 | the merge ascends strictly and holds exactly what was read of the shards |
| Sharding.ListAll | pkg/object/sharding.go:184-211 | the whole listing: ascending, only objects of the store, all of a shard if and only if its paging does not come to a call that fails with all its retries and objects still to come, and all of the store if no shard refuses to be listed |
| Sharding.FlakyLosesAKey | pkg/object/sharding.go:123-163 | a shard whose listing ends without an error and without one of its keys |
| AsyncWriters.AsyncDbService.RecordObject | pkg/sync/db/db.go:281-292 | accepted if and only if the service is open and the channel has room |
| AsyncWriters.AsyncDbService.FlushBatch | pkg/sync/db/db.go:235-264 | one attempt, then the batch is saved, kept, or dropped at the third failure in a row |
| AsyncWriters.AsyncDbService.Receive | pkg/sync/db/db.go:202-206 | one record moves from channel to batch, and a full batch is tried once with the store's answer; the books of all accepted records balance |
| AsyncWriters.AsyncDbService.Linger | pkg/sync/db/db.go:200-211 | between the signal and the drain any ticks and receives, each attempt answered by the store, and no more attempts than there were choices |
| AsyncWriters.AsyncDbService.Drain | pkg/sync/db/db.go:211-231 | after the signal channel and batch are emptied in a bounded number of attempts, each ending as the store answers; earlier attempts stand |
| AsyncWriters.AsyncDbService.Close | pkg/sync/db/db.go:299-316 | whatever the worker still chooses before it sees the signal, all accepted records are settled, in order, each in exactly one saved or dropped batch; the number of attempts is bounded, earlier ones stand, and nothing more is dropped if the store does not fail |
| AsyncWriters.DroppedAfterThree | pkg/sync/db/db.go:241-256 | a dropped batch failed three times in a row, each time with what had been queued by then |
| AsyncWriters.GateRecordBuffer.Add | pkg/sync/gate.go:246-262 | a record added before Close joins the books and asks for a flush once the batch has reached the limit, one added after is ignored |
| AsyncWriters.GateRecordBuffer.Swap | pkg/sync/gate.go:266-274 | the batch is taken out whole |
| AsyncWriters.GateRecordBuffer.Save | pkg/sync/gate.go:276-281 | it is handed to the store once |
| AsyncWriters.GateRecordBuffer.Close | pkg/sync/gate.go:284-296 | the batches handed over are, in order, the records added; each of them is in some batch and no batch holds anything else |

## Left out

- Vendor backends, command line, configuration, logging, metrics, worker launch and signals: input and output only.
- `--limit`: the join and resuming are stated without a limit, because the code decrements it without atomicity and a stop by limit marks the listing done.
- Resuming under parallel listing: the root prefix may have no checkpoint entry there, so resuming is modelled for the single listing.
- ResumeTheorems.EveryCheckpointCovers: assumes an unchanged source and non-empty keys; a source object that vanishes meanwhile counts as handled in the code and is not modelled, and a multipart record alone in a file is left out of the runs.
- ResumeTheorems.EveryCheckpointCoversExtras: assumes that a key to be deleted stays on the destination and in its listing until it is deleted.
- ResumeTheorems.DelayedAtCompletionIff: follows the list up to completion; the deletion of the listed directories after that, with its retries over parents, is left out.
- CrashResume.Next: a manager update, which the code splits into an update and a later deletion of an empty prefix, is one step; one that creates or deletes the prefix waits as a whole while a save holds the read lock, where the code waits before the creation or the deletion; writing the file is atomic.
- Checkpoint.Load: sizes and times that pass through floating point in the file, and the marker that is kept as the size, are not modelled.
- Listing.ListAll: a ghost budget of calls after which no answer promises more stands for the finite length of a listing; the stores that offer their own channel listing instead of pages are not modelled.
- ParallelListing.StartProducer: assumes no start and end key and no failed listing, where the code keeps the meaning; semaphores and the restore of child prefixes are left out.
- DirWalk.Prefetch: the timed waits on the condition are steps that happen at some time; a page before the last one is not empty.
- Multipart.DoCopyMultiple: the server-side copy through a temporary object (`pkg/sync/sync.go:1018-1113`) and its re-read of parts with checksum zero are left out.
- Cluster.RetryAbsorbs: holds for managers whose tracked keys are all outstanding, which Cluster.OperationsTrack shows to be kept; other operations of the manager between the two are not stated, and it says nothing of the progress counters and the delayed directories, which a repeated report adds again.
- Encrypt.Sound: RSA and SM2, the ciphers and randomness are functions with a round trip and a length (for RSA-OAEP the modulus size, section 7.1.1 of RFC 8017); failed authentication is any failure.
- Sharding.Pop: the library heap is its contract, a least head and the others in some order.
- Download.ParallelDownloader.Finish: three attempts at one block and the rate limiter are one outcome.
- Machine integers are unbounded: sizes, offsets and counters stay far below 64 bits, and the 16 and 8 bit fields of the frame are explicit.
- `pkg/acl`, `pkg/version`, `pkg/utils/buffer.go`: not used by these paths, or easy round trips.
