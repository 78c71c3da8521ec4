# MineBackup: a verified model of its backup engine

MineBackup keeps worlds as chains of archives. A chain starts with a full-like archive (Full or Overwrite) that holds
every file, followed by Smart archives that hold changed files and a record of added, modified and deleted paths.
This project models the parts of the program that create, shorten and restore such chains, the stores around them and
the step protocols of its services, and proves what each of them keeps.

The main results:

* **When removing a link changes a restore.** Composing records is a correct, exactly characterised composition
  (`Delta`); a merge leaves the replayed files of every surviving archive as they were (`Repair`, `Removal`); through
  the restore planner a removal keeps the restore of an archive if and only if it neither strands it on an emptied
  checkpoint nor cuts it off by taking its Smart successor for a checkpoint (`Survival`).
* **Every run keeps its chain, exactly unless a name misleads.** Backups and removals, with a failure injected at any
  step, keep one invariant of archives, records, state and history as long as what failed could be put back and no
  removal is misled by a comment; what a restore then does is stated for every archive of every state (`Format`,
  `Vault`, `Backup`, `Backups`, `Runs`), and so is how far the Smart limit holds (`Limit`). `Witnesses` holds runs
  that reach each of the bad cases.
* **The metadata documents say what they should, and round-trip exactly when they should.** What the event readers make
  of any JSON document, member by member under its literal keys, and what the printers emit (`StateJson`, `RecordJson`).
* **History is saved before it is published**, requests complete entries field by field, and batches of changes are
  atomic and exact outside one named case (`HistoryRepository`, `History`).
* **The protocols are kept under every interleaving**: the serve loop (`ServeProtocol`, `ServeLoop`), hot restore
  (`HotRestore`), staged parallel jobs (`JobRunner`), the draft merge of the user interface (`UiDraft`) and the
  unbounded name search (`UniqueConfigs`).

Modelling conventions. Archive contents are maps from path to content; archive names are the type marker in
front and the rest of the name, which holds folder, comment and a unique part. The type tests look for markers
anywhere in a name, so a name can read Smart and full-like at once; `Format` shows that the text of a name determines
both parts and what the tests find in it. Every file or tool operation succeeds or fails by an arbitrary
flag; a failed replacement leaves its target alone. Stores that the program updates in place are classes whose methods
are proved against functions on values; loops are loops. Worker threads are arbitrary schedules of small steps. New
archive stems and configuration ids are assumed fresh and the clock does not run backwards, as the program relies on.
Names are compared through one case fold.

What the code does differently from what one would expect, each proved:

* `ApplyHistoryChanges` overlooks a rename target held by an entry of the same identity that is spelled differently
  (`History.AcceptedBatchIsExact`, `History.OverlookedCollision`).
* The comment is put into the file name in brackets, where the type tests find it. A Smart archive with the comment
  Full or Overwrite counts as a checkpoint: removing the archive before it cuts it off, it cannot be merged away
  itself, and the Smart limit starts to count anew (`Format.TypeReadsBackIff`,
  `Survival.DirectRemovalKeepsRestores`, `Vault.BackupStore.Remove`, `Limit.RunIsDepth`,
  `Witnesses.CommentCanLoseAnArchive`, `Witnesses.CommentLiftsLimit`).
* Removing a Full before a Smart archive that deletes every file leaves a checkpoint with an empty file list, and the
  restore planner then refuses every later Smart archive (`Survival.MergeKeepsRestore`,
  `Witnesses.RemovalCanStrandAnArchive`).
* An Overwrite of an empty world has an empty file list: a Smart archive on it cannot be restored, and it cannot be
  removed while the Smart archive follows (`Runs.RunsRestore`, `Vault.BackupStore.Remove`,
  `Witnesses.EmptyCheckpointBlocks`).
* When the history refuses a backup and the old state cannot be put back, the state names an archive the history does
  not know (`Runs.FailedBackupKeepsInv`).
* The fallback name without folder and comment is never generated (`Format.GeneratedIsSafe`).
* The fallback of a Smart run that would store only the changed files as a Full archive is unreachable
  (`Backups.CheckpointTakesAll`).
* Both document writers accept values their readers refuse: a file without a time, a list with a repeated entry
  (`StateJson.StateRoundTrip`, `RecordJson.WrittenRecordReads`).
* A profile replaced under its own index within one draft is lost (`UiDraft.ReplacedInPlaceIsLost`), and an inserted
  profile whose index was taken meanwhile is dropped (`UiDraft.FlushAddsOnlyInsertions`).

## Model

| member | source | states |
|---|---|---|
| Delta.ApplyDelta | MineBackup/src/core/ChainSafeRetention.cpp:69-78 | updating the delta map in place gives the pointwise composition at that path and nothing else |
| Delta.ApplyRecordDelta | MineBackup/src/core/ChainSafeRetention.cpp:80-86 | the three loops over a record fold it into the delta map: deletions, then additions, then modifications |
| Delta.BuildDeltaLists | MineBackup/src/core/ChainSafeRetention.cpp:88-101 | the lists written back from the map are the sorted paths of each kind |
| Delta.RecordChangesAt | MineBackup/src/core/ChainSafeRetention.cpp:56-86 | for sorted, pairwise disjoint lists, folding a record into a delta map is, at every path, one composition step |
| Delta.ComposeAt | MineBackup/src/core/ChainSafeRetention.cpp:56-101 | composing two records gives sorted, pairwise disjoint lists whose kind at each path is the composition of the two kinds |
| Delta.ComposeCorrect | MineBackup/src/core/ChainSafeRetention.cpp:56-101 | when the first record fits the files present and the second fits what the first leaves, the composed record fits the same files and leaves exactly what the two in order leave |
| Delta.NetAssociative | MineBackup/src/core/ChainSafeRetention.cpp:56-67 | three changes of one path may be regrouped if and only if they are not one of the four listed triples, each of which contradicts the presence of the file |
| Delta.ComposeAssociative | MineBackup/src/core/ChainSafeRetention.cpp:56-101 | three records that fit in sequence compose to the same lists under either grouping |
| Chain.WalkReachesRoot | MineBackup/src/core/RestoreService.cpp:70-112 | following previous-links from any archive of a sound chain ends, without cycle or missing archive, at the checkpoint that starts its stretch, and yields exactly that stretch of the chain |
| Chain.OwnersMatchReplay | MineBackup/src/core/RestoreService.cpp:173-220 | the owner plan computed from the records assigns every path to the archive holding its replayed content, and plans no other path; it fails just when the checkpoint lists no file |
| Chain.RestoreIsReplay | MineBackup/src/core/RestoreService.cpp:326-348 | a managed restore of any archive yields the replayed files, unless its name reads Smart and its checkpoint recorded an empty file list |
| Repair.ReferencesAreExact | MineBackup/src/core/ChainSafeRetention.cpp:103-105 | the case-insensitive reference test is equality on the names in play |
| Repair.RenamingIsExact | MineBackup/src/core/ChainSafeRetention.cpp:185-265 | the two-step reference rewrite sends exactly the deleted and the former name to the final one and leaves every other name alone |
| Repair.MergeIsSequencing | MineBackup/src/core/ChainSafeRetention.cpp:518-545 | overlaying the merged archive with the composed deletions equals overlaying the two archives one after the other, on any base both records fit |
| Repair.MergeIntoCheckpoint | MineBackup/src/core/ChainSafeRetention.cpp:518-545 | merging a checkpoint with the Smart archive after it yields that Smart archive's replayed files |
| Repair.MergeIs | MineBackup/src/core/ChainSafeRetention.cpp:146-266 | the whole effect of a merge on the disk: one archive under the final name with the successor's time, no marker and both contents without what the successor deleted, newer content winning; one record of the type made and created with the successor; every other archive untouched, of every other record and of the state at most the references to the two merged names changed, and no file list kept in a Smart record |
| Repair.MergeIsMerging | MineBackup/src/core/ChainSafeRetention.cpp:146-266 | the repaired records and archives agree, archive by archive, with the merged chain |
| Repair.MergedRecordBase | MineBackup/src/core/ChainSafeRetention.cpp:155-185 | the base stored in the repaired record is the checkpoint of the merged archive |
| Repair.BaseIsRoot | MineBackup/src/core/ChainSafeRetention.cpp:155-265 | in a sound chain every record's base is the checkpoint at the root of its own walk |
| Repair.WalkIsSound | MineBackup/src/core/RestoreService.cpp:70-112 | in a sound chain every walk is closed, ends at a checkpoint, and that checkpoint is the recorded base |
| Repair.MergeReplays | MineBackup/src/core/ChainSafeRetention.cpp:146-266 | after a merge every surviving archive, earlier or later, replays to exactly the files it replayed to before |
| Repair.MergeKeepsChain | MineBackup/src/core/ChainSafeRetention.cpp:146-266 | a merge of any neighbouring pair turns a sound chain into a sound chain one archive shorter |
| History.Locate | MineBackup/src/core/ChainSafeRetention.cpp:363-378 | finds the position of an entry of the same identity only if it is the sole one and is spelled the same |
| History.ApplyHistoryChanges | MineBackup/src/core/ChainSafeRetention.cpp:362-395 | false leaves the list untouched; true applies the located renames in place and then the deletions |
| History.AcceptedBatchIsExact | MineBackup/src/core/ChainSafeRetention.cpp:362-395 | the list an accepted, well-formed batch returns is the intended one (exactly the named entries gone, only file and type of the renamed ones rewritten, in order) with unique identities if and only if no target of a moving rename is taken by an entry that stays (a hidden collision); no important entry is deleted |
| History.OverlookedCollision | MineBackup/src/core/ChainSafeRetention.cpp:379-386 | a concrete accepted batch over two spellings of one path that leaves two entries of one identity: the collision check compares spellings as well as identities |
| Removal.SortIsIdentity | MineBackup/src/core/ChainSafeRetention.cpp:273-287 | sorting a time-ordered history by time changes nothing, so the chain order is the history order |
| Removal.DropKeepsChain | MineBackup/src/core/ChainSafeRetention.cpp:289-358 | dropping the last archive or one followed by a checkpoint leaves a sound chain |
| Removal.MergeKeepsState | MineBackup/src/core/ChainSafeRetention.cpp:240-265 | the rewritten state names the newest archive of the merged chain, its base and its file set, or keeps naming one that stays gone |
| Removal.MergeKeepsNames | MineBackup/src/core/ChainSafeRetention.cpp:146-266 | after a merge records are still stored under their own names and no two names in play share a stem |
| Removal.BatchIsAccepted | MineBackup/src/core/ChainSafeRetention.cpp:584-587 | the batch that a removal sends to the history is always accepted in a state of the invariant |
| Removal.BatchResult | MineBackup/src/core/ChainSafeRetention.cpp:362-395 | and changes exactly the removed entry and its renamed neighbour |
| Removal.RemoveKeepsInv | MineBackup/src/core/ChainSafeRetention.cpp:397-571 | a successful removal keeps the invariant of chain, state and history if and only if the successor is not a Smart archive whose name reads full-like; the remaining archives are in any case the old ones in order |
| Removal.RemoveKeepsReplay | MineBackup/src/core/ChainSafeRetention.cpp:397-571 | unless misled by such a name, a successful removal leaves the replayed files of every surviving archive as they were |
| Survival.MergeKeepsRestore | MineBackup/src/core/CoreValidation.cpp:919-935 | every archive surviving a merge restores to exactly what it did before, if and only if it is not stranded: the merged checkpoint lists no file and the archive is restored through its plan |
| Survival.RestoreFromStretch | MineBackup/src/core/RestoreService.cpp:70-220 | a restore depends on nothing but the archives and records from the checkpoint to the archive |
| Survival.DropKeepsRestore | MineBackup/src/core/ChainSafeRetention.cpp:289-358 | dropping any archive changes the restore of exactly the Smart archives that build on it, and those then fail on missing metadata |
| Survival.RemoveKeepsRestore | MineBackup/src/core/ChainSafeRetention.cpp:397-571 | a removal, by merge or directly, leaves the restore of a surviving archive as it was if and only if the archive is neither stranded nor cut off |
| Survival.DirectRemovalKeepsRestores | MineBackup/src/core/ChainSafeRetention.cpp:426-432 | a direct removal keeps every restore if and only if the successor is not a misread Smart archive; otherwise that archive can no longer be restored |
| Survival.StrandedFails | MineBackup/src/core/RestoreService.cpp:173-185 | a stranded archive restored to its replayed files before and is refused by the planner afterwards |
| Survival.RepairLeavesNoStaleReference | MineBackup/src/core/ChainSafeRetention.cpp:185-265 | after a repair no record or state field refers to the deleted name or, if it changed, to the former one |
| Survival.WalksAfterMerge | MineBackup/src/core/ChainSafeRetention.cpp:146-266 | after a merge every previous-link walk is closed and acyclic, ends at a checkpoint, and that checkpoint is the recorded base |
| Vault.BackupStore.RepairMetadata | MineBackup/src/core/ChainSafeRetention.cpp:146-266 | on success the record store and the state are the old ones under the repair; it succeeds when no operation fails and the checkpoint has a file list |
| Vault.BackupStore.RepairReferences | MineBackup/src/core/ChainSafeRetention.cpp:213-240 | the loop over all stored records, in any order, rewrites every reference once |
| Vault.BackupStore.DirectRemove | MineBackup/src/core/ChainSafeRetention.cpp:289-358 | full effect exactly when the archive exists, no operation fails and the history accepts; otherwise history untouched and archives and metadata as before, or, only if putting back failed, a recovery copy of everything |
| Vault.BackupStore.UndoMerge | MineBackup/src/core/ChainSafeRetention.cpp:573-617 | puts back the merge target, the deleted archive and the metadata as far as the failures allow, and says whether it could |
| Vault.BackupStore.MergeIntoNext | MineBackup/src/core/ChainSafeRetention.cpp:488-617 | the merge transaction: done completely, as it is when nothing fails, or undone, or, only if undoing failed, left with a recovery directory holding both archives and the metadata |
| Vault.BackupStore.Remove | MineBackup/src/core/ChainSafeRetention.cpp:397-617 | in any state with unique identities, for any request and a failure at any step: changed means that archive, record and every history entry of that identity are gone and that disk and history are exactly those of the drop, or of the merge into the successor found by identity; otherwise history is unchanged and archives and metadata are the originals up to file times, or the recovery copy of both archives and the metadata is intact; when nothing fails and disk and history meet what the code asks of them the archive is removed; an archive that reads full-like, lists no file and would be merged is never removed |
| Vault.RemovedIsGone | MineBackup/src/core/ChainSafeRetention.cpp:397-617 | the effect of a removal leaves no archive and no record of that name and no history entry of that identity |
| Vault.PlaceIsReady | MineBackup/src/core/ChainSafeRetention.cpp:397-571 | in a state of the invariant every removable archive meets what the code asks of disk and history before it removes it |
| Vault.RemovedIsFull | MineBackup/src/core/ChainSafeRetention.cpp:397-617 | in a state of the invariant the effect of a request with any copy of an entry is the full effect for the history's own entry |
| Vault.DirectGoesThrough | MineBackup/src/core/ChainSafeRetention.cpp:289-358 | in a state of the invariant nothing but a failing operation keeps a removable archive without Smart successor from going |
| Vault.MergeGoesThrough | MineBackup/src/core/ChainSafeRetention.cpp:488-571 | nor one with a Smart successor: the records exist, the new name is free, the repair has a result and the history accepts the batch |
| Format.SanitizePathSegment | MineBackup/src/core/FolderRewindFormat.cpp:294-301 | the trimming, replacing and stripping loops compute the sanitised segment |
| Format.SanitizedKeeps | MineBackup/src/core/FolderRewindFormat.cpp:294-301 | the sanitised segment is the input without leading spaces and trailing dots and spaces, character by character with underscores for what Windows forbids, and with an underscore before the first dot of a device name |
| Format.SanitizedIsSafe | MineBackup/src/core/FolderRewindFormat.cpp:294-313 | sanitising yields the empty string or a safe single segment |
| Format.SanitizedFixed | MineBackup/src/core/FolderRewindFormat.cpp:294-313 | sanitising leaves a segment alone if and only if it is empty or safe without a leading space |
| Format.SanitizeIdempotent | MineBackup/src/core/FolderRewindFormat.cpp:294-301 | sanitising twice is sanitising once |
| Format.RemapFrees | MineBackup/src/core/FolderRewindFormat.cpp:57-81 | a reserved device name is no longer one after the underscore is inserted |
| Format.NormalizeIsStable | MineBackup/src/core/FolderRewindMetadataStore.cpp:70-108 | a normalised entry is a safe relative path that normalises to itself |
| Format.NormalizesExactly | MineBackup/src/core/FolderRewindMetadataStore.cpp:70-108 | an entry is accepted if and only if every part between its separators is a safe segment, and comes out with backslashes turned into slashes |
| Format.GeneratedReads | MineBackup/src/core/FolderRewindFormat.cpp:337-365 | the type tests find in a generated name the type it was generated with and, besides it, whatever type the bracketed comment or the folder spells |
| Format.TypeReadsBackIff | MineBackup/src/core/FolderRewindFormat.cpp:337-365 | the tests on the text of a generated name find only its own type if and only if the sanitised comment and the folder spell no other |
| Format.HarmlessComment | MineBackup/src/core/FolderRewindFormat.cpp:337-365 | with a folder without markers that is: the sanitised comment of a Smart archive is not Full or Overwrite, and that of a checkpoint not Smart |
| Format.WordComment | MineBackup/src/core/FolderRewindFormat.cpp:337-351 | the word of a type as a comment, in brackets or not, ends up in brackets in the name |
| Format.RenderedReads | MineBackup/src/core/FolderRewindFormat.cpp:356-365 | the substring tests on the text of any name are the tests the model makes on its parts |
| Format.GeneratedIsSafe | MineBackup/src/core/FolderRewindFormat.cpp:344-354 | every generated name is a safe segment, whatever comment and folder are, so the fallback name is never used |
| Format.RenderedPromotion | MineBackup/src/core/ChainSafeRetention.cpp:556-561 | replacing the first [Smart] of any name by [Full] gives the name of the promoted archive |
| Format.RenderInjective | MineBackup/src/core/FolderRewindFormat.cpp:344-354 | rendered names are equal only for equal type and rest |
| Scan.CompareStates | MineBackup/src/core/BackupChangeDetector.cpp:147-165 | the two loops and three sorts compute the difference of the file states and the list of changed files |
| Scan.RunScan | MineBackup/src/core/BackupChangeDetector.cpp:92-170 | the status, current files and lists for every case of missing metadata, missing base and failed scan |
| Scan.DiffFits | MineBackup/src/core/BackupChangeDetector.cpp:147-165 | added, modified and deleted are sorted and disjoint, fit the previous files and lead to exactly the current ones |
| Scan.DiffIsPatch | MineBackup/src/core/BackupChangeDetector.cpp:147-165 | applying the change set to the previous file states gives the current sizes and times |
| Scan.FilterCommutes | MineBackup/src/core/BackupManager.cpp:690-713 | filtering the change lists by the blacklist equals diffing against the filtered files if and only if the saved state holds no blacklisted path |
| Backup.SmartLimitReached | MineBackup/src/core/BackupManager.cpp:622-657 | the backward count finds whether the names that read Smart after the last one that reads full-like reach the limit |
| Backup.FullBackupMissing | MineBackup/src/core/BackupManager.cpp:608-617 | a full backup is forced when no name in the directory reads full-like |
| Backup.SaveMetadata | MineBackup/src/core/FolderRewindMetadataStore.cpp:827-896 | record and state are saved as one: a failed state write takes the record back, unless that fails too; the trace lists every single change on the way |
| Backup.RollBack | MineBackup/src/core/BackupManager.cpp:969-995 | the reverse rollback, change by change, restores the whole store when no recovery step fails, and otherwise says it is incomplete; the new state stays exactly when the old one could not be put back |
| Backup.Commit | MineBackup/src/core/BackupManager.cpp:900-996 | archive, record, state and history are committed in order; a failed history commit without recovery error leaves everything as before; the trace leads from the first to the last store by changes of one named file each, and at no point of it does state or history come to name an absent archive |
| Backups.RunCore | MineBackup/src/core/BackupManager.cpp:608-996 | one whole run of the backup service over source, saved state and directory: it makes nothing exactly when a readable state names present archives, no file at all differs and unchanged worlds are skipped, or no full backup is required, no file that counts differs and unchanged worlds are skipped or the mode is Smart, or a full-like archive other than an Overwrite would be empty; it refuses exactly when the source cannot be captured or the mode has no archive type; what it makes is an Overwrite in mode 3, a Full in mode 1 or when one is required, else a Smart archive, and once committed archive, record, state and history entry hold exactly the files, lists, base, names and times due; otherwise the history is as before, with the same trace of single changes |
| Backups.DecisionIs | MineBackup/src/core/BackupManager.cpp:659-830 | exactly when nothing is made, when the scan is refused, and of which type what is made is, in terms of source, saved state and directory |
| Backups.MadeIs | MineBackup/src/core/BackupManager.cpp:659-830 | the content, marker, lists, base, predecessor, state and history entry of what is made, path by path from source and saved state |
| Backups.DecideFacts | MineBackup/src/core/BackupManager.cpp:659-830 | what kind of archive is made, from which files, on which base |
| Backups.SmartNeedsBase | MineBackup/src/core/BackupManager.cpp:659-830 | a Smart archive is made only on top of the present archive named by the state, with the filtered exact difference as its record, and only below the limit |
| Backups.CheckpointTakesAll | MineBackup/src/core/BackupManager.cpp:723-729 | a full-like archive takes every file that is not blacklisted; the fallback that would store only changed files as Full is unreachable |
| Backups.GoneTailForcesCheckpoint | MineBackup/src/core/BackupChangeDetector.cpp:129-140 | when the newest archive is gone the next archive made is full-like |
| Runs.RunsBackupFits | MineBackup/src/core/BackupManager.cpp:254-290 | what a run commits fits the chain: fresh name, newest entry, consistent record, archive with exactly the listed files |
| Runs.FittingKeepsInv | MineBackup/src/core/BackupManager.cpp:254-290 | a created backup keeps the invariant and becomes the newest link |
| Runs.CreatedRestoresSource | MineBackup/src/core/BackupManager.cpp:659-830 | the newest archive replays to the source as it was scanned, minus blacklisted files, when unchanged size and time mean unchanged content |
| Runs.OrphanKeepsInv | MineBackup/src/core/BackupManager.cpp:912-951 | an archive or record left by a failed backup disturbs nothing |
| Runs.FailedBackupKeepsInv | MineBackup/src/core/BackupManager.cpp:969-995 | a failed backup keeps the invariant unless everything but the history was saved and the old state could not be put back |
| Runs.CommentDecides | MineBackup/src/core/ChainSafeRetention.cpp:426-432 | a removal before a generated Smart archive is misled if and only if that archive's comment is Full or Overwrite or its folder holds such a marker |
| Runs.NextKeepsInv | MineBackup/src/core/ChainSafeRetention.cpp:397-571 | a backup or removal, with a failure at any step that could be put back, keeps the invariant if and only if it is not a misled removal |
| Runs.RunsKeepInv | MineBackup/src/core/BackupManager.cpp:608-996 | every state of a run of backups and removals satisfies the invariant if and only if no removal of the run is misled |
| Runs.PlainRunsAreSteady | MineBackup/src/core/BackupManager.cpp:608-996 | a run in which no comment is Full or Overwrite, and the folder holds no such marker, has no misled removal |
| Runs.RunsRestore | MineBackup/src/core/RestoreService.cpp:326-348 | in every state of such a run every archive restores to its replayed files, unless its name reads Smart and its base lists no file, which the planner refuses |
| Runs.RemoveOutcomeIsStep | MineBackup/src/core/ChainSafeRetention.cpp:397-617 | every removal that leaves no recovery directory is a step of such a run |
| Runs.RunsStayRestorable | MineBackup/src/core/BackupManager.cpp:608-996 | in every such state: if the archive the saved state names exists, it is the newest, its walk reaches its base with nothing missing, and it restores to files of the saved paths or, over an empty base, is refused; if it does not exist, the next backup made is full-like |
| Limit.ListingIsChain | MineBackup/src/core/BackupManager.cpp:634-651 | listing the directory by file time gives the chain order |
| Limit.CreatedKeepsLimit | MineBackup/src/core/BackupManager.cpp:621-657 | a backup, whatever its comment, keeps the count by names within the limit at every prefix of the chain |
| Limit.RemoveKeepsLimit | MineBackup/src/core/ChainSafeRetention.cpp:556-571 | so does a removal that carries file times over and is not misled |
| Limit.RunIsDepth | MineBackup/src/core/BackupManager.cpp:637-651 | the count by names never exceeds the true number of Smart archives after the last checkpoint, and equals it if and only if none of them reads full-like |
| Limit.LimitHolds | MineBackup/src/core/BackupManager.cpp:621-657 | in every state of every run of successful backups and removals with a fixed limit n > 0, the count by names is at most n, and so is the true number unless one of those archives reads full-like |
| Witnesses.EmptyCheckpointBlocks | MineBackup/src/core/ChainSafeRetention.cpp:155-185 | a concrete run, an Overwrite of an empty world and a Smart backup, after which the newest archive cannot be restored and the Overwrite not be removed |
| Witnesses.RemovalCanStrandAnArchive | MineBackup/src/core/ChainSafeRetention.cpp:155-185 | a concrete run of three backups after which removing the Full turns the working restore of the last archive into a refused plan |
| Witnesses.CommentCanLoseAnArchive | MineBackup/src/core/ChainSafeRetention.cpp:426-432 | a concrete run, a Full and a Smart backup with the comment "Full", after which removing the Full is a step of the program that breaks the invariant and leaves the Smart archive without its metadata chain |
| Witnesses.CommentLiftsLimit | MineBackup/src/core/BackupManager.cpp:637-657 | a concrete run under the limit 1 that makes two Smart archives on one checkpoint |
| StateJson.WriteState | MineBackup/src/core/FolderRewindMetadataStore.cpp:135-167 | the writer succeeds exactly when every path normalises, and then emits the events of the document with the keys Version, LastBackupTime, LastBackupFileName, BasedOnFullBackup and FileStates in this order and the files in path order |
| StateJson.StateSaxHandler.OnEvent | MineBackup/src/core/FolderRewindMetadataStore.cpp:194-352 | each callback, by pushing, popping and assigning, makes the step of the event automaton |
| StateJson.LoadState | MineBackup/src/core/FolderRewindMetadataStore.cpp:579-593 | the driven handler accepts and returns what the automaton does |
| StateJson.DocumentReads | MineBackup/src/core/FolderRewindMetadataStore.cpp:194-352 | of any object whatever, with repeated, missing and unknown members of any depth: it is accepted if and only if each FileStates member is an object of files (or a text or whole number, passed over), one of them is such an object, and the references are safe; then each field is what the last member under its key says |
| StateJson.OnlyObjectsParse | MineBackup/src/core/FolderRewindMetadataStore.cpp:194-352 | and no value other than an object is accepted |
| StateJson.AcceptedIsValid | MineBackup/src/core/FolderRewindMetadataStore.cpp:194-352 | whatever the input, an accepted state has safe normalised paths, dated files and safe references |
| StateJson.StateRoundTrip | MineBackup/src/core/FolderRewindMetadataStore.cpp:135-167 | a state survives writing and reading if and only if it is valid and of version 3.0 |
| StateJson.LoadedStateResaves | MineBackup/src/core/FolderRewindMetadataStore.cpp:135-352 | whatever was loaded can be saved and loads again as itself under version 3.0 |
| StateJson.IgnoresValue | MineBackup/src/core/FolderRewindMetadataStore.cpp:194-352 | a value of any shape and nesting depth passes an ignoring reader without a trace |
| StateJson.UnknownMemberIsIgnored | MineBackup/src/core/FolderRewindMetadataStore.cpp:194-352 | inserting a member with an unknown key between any two members of the root never changes the outcome |
| RecordJson.WriteRecord | MineBackup/src/core/FolderRewindMetadataStore.cpp:169-192 | the writer succeeds exactly when every entry of the four lists normalises, and then emits the events of the document with the five texts and the lists AddedFiles, ModifiedFiles, DeletedFiles and FullFileList under these keys in this order |
| RecordJson.RecordSaxHandler.OnEvent | MineBackup/src/core/FolderRewindMetadataStore.cpp:354-517 | each callback makes the step of the event automaton |
| RecordJson.LoadRecord | MineBackup/src/core/FolderRewindMetadataStore.cpp:595-615 | the driven handler accepts and returns what the automaton does |
| RecordJson.DocumentReads | MineBackup/src/core/FolderRewindMetadataStore.cpp:354-517 | of any object whatever: it is accepted if and only if every member under AddedFiles, ModifiedFiles, DeletedFiles or FullFileList is an array of paths without repeats, the archive is named by a safe segment and as asked for, and the other references are safe or empty; then each text and each sorted list is what the last member under its key says |
| RecordJson.WrittenRecordReads | MineBackup/src/core/FolderRewindMetadataStore.cpp:169-192 | reading a written record gives its lists normalised and sorted, or nothing if and only if an entry repeats, a reference is unsafe or the name differs from the one asked for |
| RecordJson.RecordRoundTrip | MineBackup/src/core/FolderRewindMetadataStore.cpp:169-192 | a record survives the round trip unchanged if and only if its lists are sorted safe paths without repeats, its references are safe and it answers to its name |
| RecordJson.AcceptedRecordIsCanonical | MineBackup/src/core/FolderRewindMetadataStore.cpp:354-517 | whatever document is read, an accepted record has sorted lists of safe paths without repeats and safe references |
| RecordJson.LoadedRecordResaves | MineBackup/src/core/FolderRewindMetadataStore.cpp:169-517 | whatever was loaded can be saved and loads again as itself |
| RecordJson.IgnoresValue | MineBackup/src/core/FolderRewindMetadataStore.cpp:354-517 | a value of any shape and nesting depth passes an ignoring reader without a trace |
| RecordJson.UnknownMemberIsIgnored | MineBackup/src/core/FolderRewindMetadataStore.cpp:354-517 | inserting a member with an unknown key between any two members of the root never changes the outcome |
| HistoryRepository.HistoryStore.Mutate | MineBackup/src/core/HistoryRepository.cpp:58-81 | the next snapshot is saved before it is published; a refused mutation or failed save changes nothing, and otherwise exactly that configuration's entries and the revision change |
| HistoryRepository.HistoryStore.ReplaceAll | MineBackup/src/core/HistoryRepository.cpp:35-48 | the same for a wholesale replacement: what is given is saved, published under the next revision, or nothing changes |
| HistoryRepository.HistoryStore.EntriesForConfig | MineBackup/src/core/HistoryRepository.cpp:13-20 | readers get the published list of the configuration, or an empty one |
| HistoryRepository.Snapshot.Flatten | MineBackup/src/core/HistoryRepository.cpp:83-90 | the file is written from the plain contents of the snapshot |
| HistoryRepository.MakeSnapshot | MineBackup/src/core/HistoryRepository.cpp:92-103 | a snapshot made of a history contains exactly it, in objects of its own |
| HistoryRepository.ReadThenServe | MineBackup/src/core/HistoryRepository.cpp:13-81 | a list handed to a reader stays what it was through any sequence of later requests |
| HistoryRepository.PublishedIsSaved | MineBackup/src/core/HistoryRepository.cpp:35-81 | while every request persists, the published history is the last saved one, whatever saves fail |
| HistoryRepository.RevisionsIncrease | MineBackup/src/core/HistoryRepository.cpp:35-81 | the revision grows by one with every publication and with nothing else |
| HistoryRepository.OthersUntouched | MineBackup/src/core/HistoryRepository.cpp:58-81 | mutations of other configurations leave a configuration's entries alone, published and saved |
| HistoryRepository.FillEntry | MineBackup/src/core/HistoryManager.cpp:359-388 | field by field: an empty text or type becomes the request's, a set one stays, a mark holds if and only if either had it; the flag says whether the request had anything the entry lacked |
| HistoryRepository.UpsertIn | MineBackup/src/core/HistoryManager.cpp:352-397 | without an entry of its world and file the request is appended under the configuration's id; otherwise the first such entry alone is replaced by it or completed from it |
| HistoryRepository.UpsertKeepsPairsUnique | MineBackup/src/core/HistoryManager.cpp:348-399 | neither form of the update makes two entries of one world and file |
| HistoryRepository.UpsertNeverClears | MineBackup/src/core/HistoryManager.cpp:359-388 | completion drops, reorders and clears nothing and touches only the matching entry |
| HistoryRepository.UpsertFindsEntry | MineBackup/src/core/HistoryManager.cpp:348-399 | afterwards the first entry of that world and file is the old one, or the appended one when there was none, and no field of it is empty that the request had |
| HistoryRepository.UpsertIdempotent | MineBackup/src/core/HistoryManager.cpp:359-388 | asking again reports no change and makes none |
| HistoryRepository.UpsertHistoryEntry | MineBackup/src/core/HistoryManager.cpp:348-399 | the request succeeds exactly when it names configuration, world and file, something is to be written and that is saved or saving is blocked; then the published entries of that configuration are the old ones with that effect and no others change; otherwise nothing does |
| HistoryRepository.RemoveHistoryEntriesIf | MineBackup/src/core/HistoryManager.cpp:446-469 | exactly the chosen entries go; the reported number is what left the published list |
| HistoryRepository.WithoutIsExact | MineBackup/src/core/HistoryManager.cpp:453-463 | each entry survives a removal with its multiplicity or, if chosen, not at all |
| HistoryRepository.WithoutSplits | MineBackup/src/core/HistoryManager.cpp:453-463 | and the rest keeps its order: removing from two lists in a row is removing from each |
| OperationResult.ExitCode | MineBackup/src/core/OperationResult.cpp:51-83 | which codes give which of the ten exit codes, 0 for exactly the successful ones |
| ServeProtocol.OneReplyEach | MineBackup/src/cli/CliApplication.cpp:964-1123 | in every accepted log each request is answered once for every time it was polled, except those still waiting or running |
| ServeProtocol.NothingOpensAfterClosing | MineBackup/src/cli/CliApplication.cpp:1028-1038 | no operation is opened after a stop |
| ServeProtocol.BodiesNeverOverlap | MineBackup/src/cli/CliApplication.cpp:1057-1066 | between two command bodies beginning, the first one ends |
| ServeProtocol.ActiveIdsDistinct | MineBackup/src/cli/CliApplication.cpp:1033-1043 | an operation id is used again only after its first operation was answered |
| ServeProtocol.CancelledNeverSucceeds | MineBackup/src/cli/CliApplication.cpp:1066-1070 | a body that ends after a cancel request for its operation never reports success |
| ServeProtocol.ReplyTellsOutcome | MineBackup/src/cli/CliApplication.cpp:1054-1121 | in every accepted log the reply to a command tells how its body ended: 0 exactly when it returned a success and nobody had asked to cancel by then, 9 for a success after such a request, 6 when it threw, and otherwise the non-zero exit code of what it returned |
| ServeLoop.HandleFollows | MineBackup/src/cli/CliApplication.cpp:964-1096 | handling any polled request keeps to the observed protocol and settles exactly that request |
| ServeLoop.WorkerFollows | MineBackup/src/cli/CliApplication.cpp:1054-1095 | so does every step of every worker thread, at any moment, with the exit code due for what its body returned |
| ServeLoop.ReapFollows | MineBackup/src/cli/CliApplication.cpp:1104-1121 | and reaping a completed operation answers it with its own result |
| ServeLoop.Loop.Handle | MineBackup/src/cli/CliApplication.cpp:966-1096 | the five branches of request handling, with the loops that list and cancel operations |
| ServeLoop.Loop.ReapCompleted | MineBackup/src/cli/CliApplication.cpp:1104-1121 | every operation completed before the pass is answered and removed in it |
| ServeLoop.Loop.RunServeLoop | MineBackup/src/cli/CliApplication.cpp:960-1128 | over any rounds, signals and worker interleavings the log keeps to the protocol; every request of every round done is polled; the loop exits by its condition only stopping and with no operation left, and then every poll had exactly one reply; while stopping every open operation is cancelled at the end of a round |
| HotRestore.RestoreHasItsReasons | MineBackup/src/core/HotRestoreCoordinator.cpp:84-180 | a restore comes after agreement with the game, a delivered save request, the player's leaving, an observed free world and a look at the stop token that shows no request, in this order |
| HotRestore.RestoresOnce | MineBackup/src/core/HotRestoreCoordinator.cpp:160-180 | no run restores twice |
| HotRestore.ExactlyOneSettlement | MineBackup/src/core/HotRestoreCoordinator.cpp:112-170 | once the save request is delivered exactly one cancelled or finished message is sent |
| HotRestore.RejoinNeedsSuccess | MineBackup/src/core/HotRestoreCoordinator.cpp:163-198 | rejoin and completion are announced only after a successful restore |
| HotRestore.Coordinator.Run | MineBackup/src/core/HotRestoreCoordinator.cpp:54-198 | against any environment one hot restore keeps to the protocol, which fixes the reason of a cancellation and the final status by the answers given; it ends where it may, without a restore only for a named reason; its result is exactly the one those answers call for; when nothing gets in the way it does restore |
| JobRunner.Aggregate | MineBackup/src/core/JobRunner.cpp:13-30 | the loop with its early exit computes a fold that sees only how often each code occurs |
| JobRunner.CombinedIs | MineBackup/src/core/JobRunner.cpp:13-30 | exactly when a fold is cancelled, partly successful, failed, successful or without changes |
| JobRunner.CombinedSucceeds | MineBackup/src/core/JobRunner.cpp:13-30 | a fold succeeds if and only if every step did |
| JobRunner.RunWorkers | MineBackup/src/core/JobRunner.cpp:132-157 | whatever order the workers finish in, the slots hold the step codes in step order |
| JobRunner.Run | MineBackup/src/core/JobRunner.cpp:118-173 | one result per stage: skipped after one that ends the job, cancelled without a step when a stop was seen before it, otherwise the step codes in order and their fold; the job's code is cancelled after a stop at the end, failed when no step ran, otherwise the fold of the executed steps |
| JobRunner.NothingAfterBoundary | MineBackup/src/core/JobRunner.cpp:118-160 | no stage after the first unsuccessful or cancelled one runs a step |
| JobRunner.JobSucceedsIff | MineBackup/src/core/JobRunner.cpp:118-173 | a job succeeds if and only if it has a step, was never stopped, and every step of every stage succeeded |
| JobRunner.JobCompletesIff | MineBackup/src/core/JobRunner.cpp:70-173 | and that is: every process succeeded, and every backup had its runtime and target, no objecting preflight and a successful result |
| UiDraft.MergeFields | MineBackup/src/app/AppState.cpp:7-45 | each of the 37 fields takes the draft's value when the draft changed it and keeps the shared one otherwise |
| UiDraft.AppState.NormalizeSelection | MineBackup/src/app/AppState.cpp:46-49 | an index that is gone becomes the smallest one, or 1 when there is none |
| UiDraft.AppState.ModifyConfigById | MineBackup/src/app/AppState.cpp:55-61 | exactly the configuration of that id is changed |
| UiDraft.AppState.DeleteConfigById | MineBackup/src/app/AppState.cpp:62-68 | exactly the configuration of that id is removed and the selection normalised |
| UiDraft.UiConfigDraft.Flush | MineBackup/src/app/AppState.cpp:85-103 | the loops of a flush compute the three-way merge; the baseline becomes the draft |
| UiDraft.FlushIsThreeWay | MineBackup/src/app/AppState.cpp:85-92 | field by field: edited fields take the draft's value, others keep the concurrent one |
| UiDraft.FlushIs | MineBackup/src/app/AppState.cpp:85-103 | where every configuration after a flush comes from: the shared one unless the draft dropped its identifier, untouched unless the draft still holds it, or else the draft's own under an index its baseline lacks |
| UiDraft.FlushWithoutEdits | MineBackup/src/app/AppState.cpp:85-103 | a flush without edits changes no configuration |
| UiDraft.FlushAddsOnlyInsertions | MineBackup/src/app/AppState.cpp:94-96 | an absent profile appears in a flush if and only if the draft inserts it under an index its baseline lacks and that is free |
| UiDraft.FlushRemovesDropped | MineBackup/src/app/AppState.cpp:91-91 | a profile dropped from the draft is gone after the flush |
| UiDraft.ReplacedInPlaceIsLost | MineBackup/src/app/AppState.cpp:87-96 | a profile put under the index of another in one draft is lost: the old one stays, the new one never arrives |
| UiDraft.DeletedStaysDeleted | MineBackup/src/app/AppState.cpp:62-103 | over any interleaving of edits, flushes and other writers, a concurrently deleted profile is never resurrected |
| UniqueConfigs.DecimalReads | MineBackup/src/core/ConfigFactory.cpp:119-120 | a number is written in decimal digits that read back as that number, so different numbers are written differently |
| UniqueConfigs.SanitizedNumbered | MineBackup/src/core/FolderRewindFormat.cpp:294-301 | sanitising a numbered name keeps its number |
| UniqueConfigs.CandidatesDiffer | MineBackup/src/core/ConfigFactory.cpp:118-127 | candidates with different numbers differ in name key, folder and folder key |
| UniqueConfigs.FirstFree | MineBackup/src/core/ConfigFactory.cpp:118-143 | the unbounded number search ends, at the lowest free number, within one more than the number of occupied names and folders |
| UniqueConfigs.ResolveUniqueConfigDrafts | MineBackup/src/core/ConfigFactory.cpp:94-146 | the result holds, in input order, the lowest free choice for each draft given those before it |
| UniqueConfigs.ResolvedAreUnique | MineBackup/src/core/ConfigFactory.cpp:94-146 | resolved drafts keep order and payload and collide with no configuration, no earlier draft and no folder on disk |
| UniqueConfigs.ResolvedIsLowest | MineBackup/src/core/ConfigFactory.cpp:94-146 | a draft gets its own name, or Minecraft for one without a usable character, as it is or with a space and the number in parentheses, and the folder of that name; the number is the lowest from 1 on whose name and folder collide with no configuration, earlier draft or folder on disk |

## Left out

- HistoryOnly and LocalArchiveOnly deletions, plain deletion and auxiliary folder backups: they break or bypass the chain by design.
- Blacklist changes in the middle of a chain and clock steps backwards: outside the invariant; one site has one blacklist predicate.
- Cloud sync, the migration of old formats, 7-Zip, processes, the network, logging and notifications: foreign calls, replaced by success flags.
- Runtime retention after a backup (BackupManager.cpp:997-999): it calls removals, which are steps of the runs here.
- Vault.BackupStore.Remove: does not claim exact file times after a rolled-back removal, because the restored archive is a fresh copy.
- Backup.SaveMetadata: does not claim an unchanged record store when the record cannot be taken back after a failed state write, because the code cannot restore it either.
- Runs.CreatedRestoresSource: assumes that a file of unchanged size and time has unchanged content, as the scan does.
- Format.SanitizePathSegment: white space and letter case are those of ASCII.
- Removal.RemoveKeepsInv: covers removals from states whose history order is the chain order, which backups and removals are proved to keep and the code does not check again.
- Runs.RunsKeepInv: ends where a rollback leaves the new state or a recovery itself failed; what such a run leaves is stated by Runs.FailedBackupKeepsInv and Vault.BackupStore.Remove.
- Names the program did not generate, such as imported archives without a type marker in front: archive names are those of generated files.
- Durability warnings (a replaced file whose directory was not flushed): the operation counts as done.
- The directory layout of the merge workspace and the marker directory of deletion-only archives: a flag on the archive.
- Exceptions of other types than those the code catches, and record files stored under a case variant of their name.
- Lexing of JSON text, UTF-8 and wide-character conversion: the documents are event sequences.
- The 2^64 wrap-around of the history revision and of numeric suffixes: the counters are unbounded here.
- Type texts other than Full, Smart and Overwrite in history and records: one untyped kind.
- HistoryRepository.HistoryStore.Mutate: the mutex is not modelled; each request is one atomic step.
- ServeLoop.Loop.RunServeLoop: replies that the channel fails to deliver count as sent, cancelling all operations is one step, and the loop runs for a given number of rounds.
- HotRestore.Coordinator.Run: diagnostics are not modelled, and waiting is replaced by the environment's answers; the release deadline is a number of looks at the world.
- JobRunner.Run: the answers of a step's dependencies are fixed per step, so steps that influence each other are not covered.
- UiDraft.UiConfigDraft.Flush: asks for unique configuration ids in the shared map and the baseline, as the program generates them.
- UniqueConfigs.ResolveUniqueConfigDrafts: path identity is the folded text of root and segment; links inside the backup root are not resolved.
- The guard against two operations on one world, launcher discovery, argument parsing and themes: easy members only.
- Name keys fold ASCII letters only.
