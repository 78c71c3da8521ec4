/** The backup store of one world as the program changes it, with every file or tool operation
    free to fail. */
module Vault {
  import opened Names
  import opened Ordering
  import opened Delta
  import opened Chain
  import opened Repair
  import opened History
  import opened Removal

  /** Outcomes of the operations inside a metadata repair. */
  datatype RepairFaults = RepairFaults(
    saveMerged: bool,
    deleteRemoved: bool,
    deleteFormer: bool,
    list: bool,
    load: ArchiveName -> bool,
    save: ArchiveName -> bool,
    saveState: bool)
  {
    ghost predicate Succeeds()
    {
      && saveMerged && deleteRemoved && deleteFormer && list && saveState
      && forall n: ArchiveName :: load(n) && save(n)
    }
  }

  /** What putting things back can run into; `broken` values are what a failed copy leaves behind. */
  datatype UndoFaults = UndoFaults(
    copyTarget: bool,
    replaceTarget: bool,
    removeFinal: bool,
    copyDeleted: bool,
    metadata: bool,
    brokenDeleted: Option<Archive>,
    brokenRecords: map<ArchiveName, ChangeRecord>,
    brokenState: Option<MetadataState>,
    copyTime: int)
  {
    predicate Succeeds() { copyTarget && replaceTarget && removeFinal && copyDeleted && metadata }
  }

  datatype MergeFaults = MergeFaults(
    cancelAtStart: bool,
    workspace: bool,
    copyTarget: bool,
    copyDeleted: bool,
    snapshot: bool,
    extractDeleted: bool,
    cancelAfterExtract: bool,
    extractNext: bool,
    dropFiles: bool,
    rebuild: bool,
    cancelAfterRebuild: bool,
    verify: bool,
    replace: bool,
    rename: bool,
    carryTime: bool,
    freshTime: int,
    repair: RepairFaults,
    removeDeleted: bool,
    persistHistory: bool,
    undo: UndoFaults)
  {
    predicate Deploys()
    {
      && !cancelAtStart && workspace && copyTarget && copyDeleted && snapshot
      && extractDeleted && !cancelAfterExtract && extractNext && dropFiles
      && rebuild && !cancelAfterRebuild && verify && replace && rename
    }

    ghost predicate Succeeds() { Deploys() && repair.Succeeds() && removeDeleted && persistHistory }
  }

  datatype DirectFaults = DirectFaults(
    cancelled: bool,
    copyArchive: bool,
    snapshot: bool,
    removeArchive: bool,
    deleteRecord: bool,
    persistHistory: bool,
    undo: UndoFaults)
  {
    predicate Succeeds() { !cancelled && copyArchive && snapshot && removeArchive && deleteRecord && persistHistory }
  }

  datatype RemoveFaults = RemoveFaults(cancelled: bool, toolAvailable: bool, direct: DirectFaults, merge: MergeFaults)
  {
    ghost predicate Succeeds() { !cancelled && toolAvailable && direct.Succeeds() && merge.Succeeds() }
    predicate RecoverySucceeds() { direct.undo.Succeeds() && merge.undo.Succeeds() }
  }

  /** The temporary directory of a removal, kept when putting things back did not succeed. */
  datatype Recovery = Recovery(
    deleted: Archive,
    target: Option<Archive>,
    records: map<ArchiveName, ChangeRecord>,
    state: Option<MetadataState>)

  datatype RemoveResult = RemoveResult(changed: bool, warning: bool, recovery: Option<Recovery>)

  const UNCHANGED := RemoveResult(false, true, None)

  predicate SameFiles(a: map<ArchiveName, Archive>, b: map<ArchiveName, Archive>)
  {
    a.Keys == b.Keys && forall n | n in a :: n in b && a[n].files == b[n].files && a[n].marker == b[n].marker
  }

  /** Equal but for file times. */
  ghost predicate Alike(a: Disk, b: Disk)
  {
    SameFiles(a.archives, b.archives) && a.records == b.records && a.state == b.state
  }

  ghost predicate SelfNamed(records: map<ArchiveName, ChangeRecord>) { forall n | n in records :: records[n].archive == n }

  class BackupStore {
    const site: Site
    var archives: map<ArchiveName, Archive>
    var records: map<ArchiveName, ChangeRecord>
    var state: Option<MetadataState>
    var history: seq<HistoryEntry>

    constructor (site: Site)
      ensures this.site == site
      ensures Contents() == World(Disk(map[], map[], None), [])
    {
      this.site := site;
      archives, records, state, history := map[], map[], None, [];
    }

    function OnDisk(): Disk
      reads this
    {
      Disk(archives, records, state)
    }

    function Contents(): World
      reads this
    {
      World(OnDisk(), history)
    }

    method CommitHistory(changes: HistoryChanges, persist: bool) returns (ok: bool)
      modifies this`history
      ensures ok <==> Accepts(site.scope, old(history), changes) && persist
      ensures history == if ok then Undeleted(site.scope, RenamedInPlace(site.scope, old(history), changes.renames), changes.deletions)
                         else old(history)
    {
      var accepted, next := ApplyHistoryChanges(site.scope, history, changes);
      ok := accepted && persist;
      if ok { history := next; }
    }

    /** Rewrites the metadata for a merge; on failure it may stop half way. */
    method RepairMetadata(names: Renaming, finalKind: Kind, deleted: ChangeRecord, merged: ChangeRecord,
                          now: string, f: RepairFaults) returns (ok: bool)
      modifies this`records, this`state
      ensures ok ==> RepairedRecord(deleted, merged, names.final, finalKind, now).Some?
      ensures ok ==> records == RepairedRecords(old(records), RepairedRecord(deleted, merged, names.final, finalKind, now).value, names)
      ensures ok ==> state == RepairedState(old(state), names)
      ensures f.Succeeds() && SelfNamed(old(records)) && RepairedRecord(deleted, merged, names.final, finalKind, now).Some? ==> ok
    {
      var repaired := RepairedRecord(deleted, merged, names.final, finalKind, now);
      if repaired.None? { return false; }
      ok := ReplaceRecords(repaired.value, names, f);
      if !ok || !f.list { return false; }
      ok := RepairReferences(names, f);
      if !ok { return; }
      ok := RepairState(names, f);
    }

    method ReplaceRecords(repaired: ChangeRecord, names: Renaming, f: RepairFaults) returns (ok: bool)
      modifies this`records
      ensures ok ==> records == KeptRecords(old(records), repaired, names)
      ensures f.Succeeds() ==> ok
    {
      if !f.saveMerged { return false; }
      records := records[names.final := repaired];
      if !f.deleteRemoved { return false; }
      records := records - {names.deleted};
      if names.former != names.final {
        if !f.deleteFormer { return false; }
        records := records - {names.former};
      }
      ok := true;
    }

    method RepairState(names: Renaming, f: RepairFaults) returns (ok: bool)
      modifies this`state
      ensures ok ==> state == RepairedState(old(state), names)
      ensures f.Succeeds() ==> ok
    {
      if state.Some? {
        var s := state.value;
        if SameReference(s.last, names.deleted) || SameReference(s.last, names.former) {
          s := s.(last := names.final);
        }
        if SameReference(s.basedOn, names.deleted)
          || (names.former != names.final && SameReference(s.basedOn, names.former)) {
          s := s.(basedOn := names.final);
        }
        if s != state.value {
          if !f.saveState { return false; }
          state := Some(s);
        }
      }
      ok := true;
    }

    method RepairReferences(names: Renaming, f: RepairFaults) returns (ok: bool)
      modifies this`records
      ensures ok ==> records == map n | n in old(records) :: names.ApplyToRecord(old(records)[n])
      ensures f.Succeeds() && SelfNamed(old(records)) ==> ok
    {
      var todo := records.Keys;
      while todo != {}
        invariant todo <= old(records).Keys == records.Keys
        invariant forall n | n in records ::
                    records[n] == if n in todo then old(records)[n] else names.ApplyToRecord(old(records)[n])
      {
        var n :| n in todo;
        todo := todo - {n};
        var record := records[n];
        if record.archive != n || !f.load(n) { return false; }
        if SameReference(record.previous, names.deleted)
          || (names.former != names.final && SameReference(record.previous, names.former)) {
          record := record.(previous := names.final);
        }
        if SameReference(record.basedOn, names.deleted)
          || (names.former != names.final && SameReference(record.basedOn, names.former)) {
          record := record.(basedOn := names.final);
        }
        if IsSmart(record.backupType) && record.fullList != [] {
          record := record.(fullList := []);
        }
        if record != records[n] {
          if !f.save(n) { return false; }
          records := records[record.archive := record];
        }
      }
      ok := true;
    }

    /** Puts the metadata directory back from its copy. */
    method RestoreMetadata(r: map<ArchiveName, ChangeRecord>, s: Option<MetadataState>, undo: UndoFaults) returns (ok: bool)
      modifies this`records, this`state
      ensures ok == undo.metadata
      ensures ok ==> records == r && state == s
    {
      ok := undo.metadata;
      if ok {
        records, state := r, s;
      } else {
        records, state := undo.brokenRecords, undo.brokenState;
      }
    }

    /** Copies a saved archive back under its name. */
    method CopyBack(name: ArchiveName, saved: Archive, undo: UndoFaults) returns (ok: bool)
      modifies this`archives
      ensures ok == undo.copyDeleted
      ensures ok ==> archives == old(archives)[name := saved.(time := undo.copyTime)]
      ensures forall n | n != name :: (n in archives <==> n in old(archives)) && (n in archives ==> archives[n] == old(archives)[n])
    {
      ok := undo.copyDeleted;
      if ok {
        archives := archives[name := saved.(time := undo.copyTime)];
      } else if undo.brokenDeleted.Some? {
        archives := archives[name := undo.brokenDeleted.value];
      } else {
        archives := archives - {name};
      }
    }

    /** Removes an archive that no later archive builds on. */
    method DirectRemove(entry: HistoryEntry, f: DirectFaults) returns (r: RemoveResult)
      modifies this
      ensures r.changed ==>
                && entry.backupFile in old(archives)
                && OnDisk() == DroppedDisk(old(OnDisk()), entry.backupFile)
                && Accepts(site.scope, old(history), HistoryChanges([entry], []))
                && history == Undeleted(site.scope, old(history), [entry])
                && r.recovery.None?
      ensures r.changed <==> entry.backupFile in old(archives) && f.Succeeds()
                             && Accepts(site.scope, old(history), HistoryChanges([entry], []))
      ensures r.warning == !r.changed
      ensures !r.changed ==> history == old(history)
      ensures !r.changed && r.recovery.None? ==> Alike(OnDisk(), old(OnDisk()))
      ensures r.recovery.Some? ==>
                && !f.undo.Succeeds() && entry.backupFile in old(archives)
                && r.recovery.value == Recovery(old(archives)[entry.backupFile], None, old(records), old(state))
    {
      var name := entry.backupFile;
      if name !in archives || f.cancelled || !f.copyArchive || !f.snapshot || !f.removeArchive {
        return UNCHANGED;
      }
      var saved := Recovery(archives[name], None, records, state);
      archives := archives - {name};
      var ok := f.deleteRecord;
      if ok {
        records := records - {name};
        ok := CommitHistory(HistoryChanges([entry], []), f.persistHistory);
      }
      if ok {
        return RemoveResult(true, false, None);
      }
      var copied := CopyBack(name, saved.deleted, f.undo);
      var restored := RestoreMetadata(saved.records, saved.state, f.undo);
      r := RemoveResult(false, true, if copied && restored then None else Some(saved));
    }

    /** Builds the merged archive in place of the successor and renames it if it became a checkpoint. */
    method DeployMerged(deleted: ArchiveName, next: ArchiveName, checkpoint: bool, dropped: seq<Path>, f: MergeFaults)
      returns (ok: bool, replaced: bool, final: ArchiveName)
      requires deleted in archives && next in archives && deleted != next
      modifies this`archives
      ensures !replaced ==> !ok && archives == old(archives) && final == next
      ensures final == next || (final == FinalName(checkpoint, next) && final !in old(archives))
      ensures replaced ==>
        var merged := MergedFiles(old(archives)[deleted].files, old(archives)[next].files, dropped);
        && final in archives && archives[final].files == merged && !archives[final].marker
        && archives == (old(archives) - {next})[final := archives[final]]
      ensures ok ==>
        && replaced && final == FinalName(checkpoint, next)
        && archives[final].time == if f.carryTime then old(archives)[next].time else f.freshTime
      ensures f.Deploys() && (FinalName(checkpoint, next) == next || FinalName(checkpoint, next) !in old(archives)) ==> ok
    {
      ok, replaced, final := false, false, next;
      if f.cancelAtStart || !f.workspace || !f.copyTarget || !f.copyDeleted || !f.snapshot { return; }
      if !f.extractDeleted { return; }
      var workspace := archives[deleted].files;
      if f.cancelAfterExtract || !f.extractNext { return; }
      workspace := workspace + archives[next].files;
      if !f.dropFiles { return; }
      workspace := workspace - Elems(dropped);
      if !f.rebuild || f.cancelAfterRebuild || !f.verify || !f.replace { return; }
      var time := archives[next].time;
      archives := archives[next := Archive(workspace, false, f.freshTime)];
      replaced := true;
      if checkpoint {
        var renamed := PromotedName(next);
        if renamed != next {
          if renamed in archives || !f.rename { return; }
          archives := (archives - {next})[renamed := archives[next]];
          final := renamed;
        }
      }
      if f.carryTime { archives := archives[final := archives[final].(time := time)]; }
      ok := true;
    }

    /** Puts back whatever a failed merge had already changed. */
    method UndoMerge(saved: Recovery, deleted: ArchiveName, next: ArchiveName, final: ArchiveName,
                     replaced: bool, removed: bool, mutated: bool, f: MergeFaults) returns (recovered: bool)
      requires saved.target.Some?
      modifies this`archives, this`records, this`state
      ensures f.undo.Succeeds() ==> recovered
      ensures recovered && mutated ==> records == saved.records && state == saved.state
      ensures !mutated ==> records == old(records) && state == old(state)
      ensures recovered && !replaced && !removed ==> archives == old(archives)
      ensures recovered && replaced && !removed ==>
                archives == (old(archives)[next := saved.target.value]) - (if final != next then {final} else {})
      ensures recovered && replaced && removed ==>
                archives == ((old(archives)[next := saved.target.value]) - (if final != next then {final} else {}))
                            [deleted := saved.deleted.(time := f.undo.copyTime)]
      ensures !replaced && !removed ==> archives == old(archives)
    {
      recovered := true;
      if replaced {
        recovered := f.undo.copyTarget && f.undo.replaceTarget;
        if recovered {
          archives := archives[next := saved.target.value];
          if final != next {
            if f.undo.removeFinal { archives := archives - {final}; } else { recovered := false; }
          }
        }
      }
      if removed {
        var copied := CopyBack(deleted, saved.deleted, f.undo);
        if !copied { recovered := false; }
      }
      if mutated {
        var restored := RestoreMetadata(saved.records, saved.state, f.undo);
        if !restored { recovered := false; }
      }
    }

    /** The steps of a merge up to the first failure. */
    method MergeSteps(entry: HistoryEntry, next: HistoryEntry, now: string, f: MergeFaults)
      returns (ok: bool, replaced: bool, removed: bool, mutated: bool, final: ArchiveName,
               ghost deployed: map<ArchiveName, Archive>)
      requires entry.backupFile != next.backupFile
      requires entry.backupFile in archives && next.backupFile in archives
      requires entry.backupFile in records && next.backupFile in records
      modifies this
      ensures ok ==> MergeDone(entry, next, now, f.carryTime, old(OnDisk()), OnDisk())
      ensures ok ==>
                var changes := MergeChanges(entry, next);
                && Accepts(site.scope, old(history), changes)
                && history == Undeleted(site.scope, RenamedInPlace(site.scope, old(history), changes.renames), changes.deletions)
      ensures (f.Succeeds() && Mendable(old(OnDisk()), entry, next, now)
               && Accepts(site.scope, old(history), MergeChanges(entry, next))) ==> ok
      ensures !ok ==> history == old(history)
      ensures !ok && !mutated ==> records == old(records) && state == old(state)
      ensures final == next.backupFile || final !in old(archives)
      ensures !ok && !replaced ==> !removed && archives == old(archives)
      ensures !ok && replaced ==>
                && final in deployed && deployed == (old(archives) - {next.backupFile})[final := deployed[final]]
                && archives == if removed then deployed - {entry.backupFile} else deployed
    {
      var d, m := entry.backupFile, next.backupFile;
      var merged, deleted := records[m], records[d];
      var checkpoint := EntryIsFullLike(entry);
      removed, mutated := false, false;
      ok, replaced, final := DeployMerged(d, m, checkpoint, merged.changes.deleted, f);
      deployed := archives;
      if ok {
        mutated := true;
        ok := RepairMetadata(Renaming(d, m, final), FinalKind(checkpoint, next.backupType), deleted, merged, now, f.repair);
      }
      ok := ok && f.removeDeleted;
      if ok {
        archives := archives - {d};
        removed := true;
        ok := CommitHistory(MergeChanges(entry, next), f.persistHistory);
      }
      if ok { DeployedIsMerged(old(archives), deployed, Renaming(d, m, final), merged.changes.deleted); }
    }

    /** Merges an archive into its Smart successor and removes it. */
    method MergeIntoNext(entry: HistoryEntry, next: HistoryEntry, now: string, f: MergeFaults) returns (r: RemoveResult)
      requires entry.backupFile != next.backupFile
      modifies this
      ensures r.changed ==> MergeDone(entry, next, now, f.carryTime, old(OnDisk()), OnDisk())
      ensures r.changed ==>
                var changes := MergeChanges(entry, next);
                && Accepts(site.scope, old(history), changes)
                && history == Undeleted(site.scope, RenamedInPlace(site.scope, old(history), changes.renames), changes.deletions)
                && r.recovery.None?
      ensures (f.Succeeds() && Mendable(old(OnDisk()), entry, next, now)
               && Accepts(site.scope, old(history), MergeChanges(entry, next))) ==> r.changed
      ensures r.warning == !r.changed
      ensures !r.changed ==> history == old(history)
      ensures !r.changed && r.recovery.None? ==> Alike(OnDisk(), old(OnDisk()))
      ensures r.recovery.Some? ==>
                && !f.undo.Succeeds()
                && entry.backupFile in old(archives) && next.backupFile in old(archives)
                && r.recovery.value == Recovery(old(archives)[entry.backupFile], Some(old(archives)[next.backupFile]),
                                                old(records), old(state))
    {
      var d, m := entry.backupFile, next.backupFile;
      if d !in archives || m !in archives || m !in records || d !in records { return UNCHANGED; }
      var saved := Recovery(archives[d], Some(archives[m]), records, state);
      var ok, replaced, removed, mutated, final;
      ghost var deployed;
      ok, replaced, removed, mutated, final, deployed := MergeSteps(entry, next, now, f);
      if ok { return RemoveResult(true, false, None); }
      var recovered := UndoMerge(saved, d, m, final, replaced, removed, mutated, f);
      if recovered && replaced {
        UndoneAlike(old(archives), deployed, d, m, final, f.undo.copyTime, removed);
      }
      r := RemoveResult(false, true, if recovered then None else Some(saved));
    }

    method Find(chain: seq<HistoryEntry>, entry: HistoryEntry) returns (t: nat)
      ensures t <= |chain| && (t < |chain| ==> site.scope.IsSame(chain[t], entry))
      ensures forall i | 0 <= i < t :: !site.scope.IsSame(chain[i], entry)
    {
      t := 0;
      while t < |chain| && !site.scope.IsSame(chain[t], entry)
        invariant t <= |chain|
        invariant forall i | 0 <= i < t :: !site.scope.IsSame(chain[i], entry)
      {
        t := t + 1;
      }
    }

    /** The branch for an archive that nothing builds on. */
    method RemoveLast(entry: HistoryEntry, t: nat, now: string, f: RemoveFaults) returns (r: RemoveResult)
      requires !entry.isImportant && FoundAt(site, Contents(), entry, t)
      requires var chain := WorldHistory(site, history); t + 1 == |chain| || EntryIsFullLike(chain[t + 1])
      modifies this
      ensures AllOrNothing(site, old(Contents()), entry, now, f, r, Contents())
      ensures f.Succeeds() && ReadyAt(site, old(Contents()), entry, t, now) ==> r.changed
    {
      ghost var w := Contents();
      r := DirectRemove(entry, f.direct);
      assert r.changed ==> RemovedAt(site, w, entry, t, now, f.merge.carryTime, Contents());
      assert r.recovery.Some? ==> RecoveryHolds(site, w, entry, r.recovery.value, t);
    }

    /** The branch for an archive with a Smart successor. */
    method RemoveMerging(entry: HistoryEntry, next: HistoryEntry, t: nat, now: string, f: RemoveFaults)
      returns (r: RemoveResult)
      requires UniqueIdentities(site.scope, history) && !entry.isImportant && !next.isImportant
      requires FoundAt(site, Contents(), entry, t)
      requires var chain := WorldHistory(site, history);
               t + 1 < |chain| && chain[t + 1] == next && !EntryIsFullLike(next) && EntryIsSmart(next)
      modifies this
      ensures AllOrNothing(site, old(Contents()), entry, now, f, r, Contents())
      ensures f.Succeeds() && ReadyAt(site, old(Contents()), entry, t, now) ==> r.changed
    {
      ghost var w := Contents();
      NeighboursDiffer(site, history, t);
      r := MergeIntoNext(entry, next, now, f.merge);
      assert r.changed ==> RemovedAt(site, w, entry, t, now, f.merge.carryTime, Contents());
      assert r.recovery.Some? ==> RecoveryHolds(site, w, entry, r.recovery.value, t);
    }

    /** Removes one archive of the world: all or nothing, and all when it is ready and nothing fails. The request may
        carry another copy of the entry than the history holds. */
    method Remove(entry: HistoryEntry, now: string, f: RemoveFaults) returns (r: RemoveResult)
      requires UniqueIdentities(site.scope, history)
      modifies this
      ensures AllOrNothing(site, old(Contents()), entry, now, f, r, Contents())
      ensures r.changed ==> Gone(site, entry, Contents())
      ensures f.Succeeds() && Ready(site, old(Contents()), entry, now) ==> r.changed
      ensures Unlisted(site, old(Contents()), entry) ==> !r.changed
    {
      ghost var w := Contents();
      if f.cancelled || entry.isImportant { return UNCHANGED; }
      var chain := WorldHistory(site, history);
      var t := Find(chain, entry);
      if t == |chain| { return UNCHANGED; }
      FoundOnce(site, w, entry, t, now);
      if t + 1 == |chain| || EntryIsFullLike(chain[t + 1]) {
        r := RemoveLast(entry, t, now, f);
      } else {
        var next := chain[t + 1];
        if !EntryIsSmart(next) || !(EntryIsSmart(entry) || EntryIsFullLike(entry)) { return UNCHANGED; }
        if next.isImportant || !f.toolAvailable { return UNCHANGED; }
        r := RemoveMerging(entry, next, t, now, f);
      }
      if r.changed { RemovedIsGone(site, w, entry, now, f.merge.carryTime, Contents()); }
    }
  }

  lemma UndoneAlike(before: map<ArchiveName, Archive>, deployed: map<ArchiveName, Archive>, d: ArchiveName,
                    m: ArchiveName, final: ArchiveName, time: int, removed: bool)
    requires d in before && m in before && d != m && (final == m || final !in before)
    requires final in deployed && deployed == (before - {m})[final := deployed[final]]
    ensures var undone := ((if removed then deployed - {d} else deployed)[m := before[m]]) - (if final != m then {final} else {});
      SameFiles(if removed then undone[d := before[d].(time := time)] else undone, before)
  {}

  lemma DeployedIsMerged(before: map<ArchiveName, Archive>, deployed: map<ArchiveName, Archive>, names: Renaming,
                         dropped: seq<Path>)
    requires names.deleted in before && names.former in before && names.deleted != names.former
    requires names.final in deployed && deployed == (before - {names.former})[names.final := deployed[names.final]]
    requires deployed[names.final].files == MergedFiles(before[names.deleted].files, before[names.former].files, dropped)
    requires !deployed[names.final].marker
    ensures SameFiles(deployed - {names.deleted}, MergedArchives(before, names, dropped))
    ensures deployed[names.final].time == before[names.former].time ==>
              deployed - {names.deleted} == MergedArchives(before, names, dropped)
  {}

  // ---- what a removal is asked and does, in any state ----

  /** The requested entry is found by its identity, as the t-th of its world. */
  ghost predicate FoundAt(site: Site, w: World, entry: HistoryEntry, t: nat)
  {
    var chain := WorldHistory(site, w.history);
    t < |chain| && site.scope.IsSame(chain[t], entry) && forall i | 0 <= i < t :: !site.scope.IsSame(chain[i], entry)
  }

  /** The effect of a removal: the archive and its record are dropped and the history loses the entry, or the archive
      is merged into the next one of its world and the history loses the entry and renames that one. */
  ghost predicate RemovedAt(site: Site, before: World, entry: HistoryEntry, t: nat, now: string, carried: bool, after: World)
  {
    var chain := WorldHistory(site, before.history);
    && t < |chain| && !entry.isImportant
    && if t + 1 == |chain| || EntryIsFullLike(chain[t + 1]) then
         && entry.backupFile in before.disk.archives
         && after.disk == DroppedDisk(before.disk, entry.backupFile)
         && Accepts(site.scope, before.history, HistoryChanges([entry], []))
         && after.history == Undeleted(site.scope, before.history, [entry])
       else
         var changes := MergeChanges(entry, chain[t + 1]);
         && EntryIsSmart(chain[t + 1]) && !chain[t + 1].isImportant
         && MergeDone(entry, chain[t + 1], now, carried, before.disk, after.disk)
         && Accepts(site.scope, before.history, changes)
         && after.history == Undeleted(site.scope, RenamedInPlace(site.scope, before.history, changes.renames), [entry])
  }

  ghost predicate Removed(site: Site, before: World, entry: HistoryEntry, now: string, carried: bool, after: World)
  {
    exists t: nat :: FoundAt(site, before, entry, t) && RemovedAt(site, before, entry, t, now, carried, after)
  }

  /** Nothing of the archive is left. */
  ghost predicate Gone(site: Site, entry: HistoryEntry, x: World)
  {
    && entry.backupFile !in x.disk.archives && entry.backupFile !in x.disk.records
    && forall e | e in x.history :: !site.scope.IsSame(e, entry)
  }

  lemma RemovedIsGone(site: Site, before: World, entry: HistoryEntry, now: string, carried: bool, after: World)
    requires Removed(site, before, entry, now, carried, after)
    ensures Gone(site, entry, after)
  {
    var t: nat :| FoundAt(site, before, entry, t) && RemovedAt(site, before, entry, t, now, carried, after);
    var chain := WorldHistory(site, before.history);
    if t + 1 == |chain| || EntryIsFullLike(chain[t + 1]) {
      UndeletedLacks(site.scope, before.history, [entry]);
    } else {
      UndeletedLacks(site.scope, RenamedInPlace(site.scope, before.history, MergeChanges(entry, chain[t + 1]).renames), [entry]);
    }
    assert entry in [entry];
  }

  lemma {:induction false} UndeletedLacks(scope: Scope, entries: seq<HistoryEntry>, deletions: seq<HistoryEntry>)
    ensures forall e | e in Undeleted(scope, entries, deletions) :: !NamedIn(scope, e, deletions)
  {
    if entries != [] { UndeletedLacks(scope, entries[..|entries| - 1], deletions); }
  }

  /** Everything the program asks of disk and history before and while it removes an archive. */
  ghost predicate ReadyAt(site: Site, w: World, entry: HistoryEntry, t: nat, now: string)
  {
    var chain := WorldHistory(site, w.history);
    && t < |chain| && !entry.isImportant
    && if t + 1 == |chain| || EntryIsFullLike(chain[t + 1]) then
         entry.backupFile in w.disk.archives && Accepts(site.scope, w.history, HistoryChanges([entry], []))
       else
         && EntryIsSmart(chain[t + 1]) && !chain[t + 1].isImportant && (EntryIsSmart(entry) || EntryIsFullLike(entry))
         && Mendable(w.disk, entry, chain[t + 1], now)
         && Accepts(site.scope, w.history, MergeChanges(entry, chain[t + 1]))
  }

  ghost predicate Ready(site: Site, w: World, entry: HistoryEntry, now: string)
  {
    exists t: nat :: FoundAt(site, w, entry, t) && ReadyAt(site, w, entry, t, now)
  }

  /** The entry reads full-like, no file is listed for it, and the program would merge its archive away. */
  ghost predicate UnlistedAt(site: Site, w: World, entry: HistoryEntry, t: nat)
  {
    var chain := WorldHistory(site, w.history);
    && t + 1 < |chain| && !EntryIsFullLike(chain[t + 1]) && EntryIsFullLike(entry)
    && (entry.backupFile in w.disk.records ==> w.disk.records[entry.backupFile].fullList == [])
  }

  ghost predicate Unlisted(site: Site, w: World, entry: HistoryEntry)
  {
    exists t: nat :: FoundAt(site, w, entry, t) && UnlistedAt(site, w, entry, t)
  }

  /** The found position is the only one that counts, and there nothing unlisted is removed. */
  lemma FoundOnce(site: Site, w: World, entry: HistoryEntry, t: nat, now: string)
    requires FoundAt(site, w, entry, t)
    ensures Ready(site, w, entry, now) ==> ReadyAt(site, w, entry, t, now)
    ensures Unlisted(site, w, entry) ==> forall carried, x :: !Removed(site, w, entry, now, carried, x)
  {
    forall i: nat | FoundAt(site, w, entry, i) ensures i == t {}
    if Unlisted(site, w, entry) {
      forall carried, x | RemovedAt(site, w, entry, t, now, carried, x) ensures false {
        DoneHadList(entry, WorldHistory(site, w.history)[t + 1], now, carried, w.disk, x.disk);
      }
    }
  }

  /** What a merge needs of the disk to go through when no operation fails. */
  ghost predicate Mendable(disk: Disk, entry: HistoryEntry, next: HistoryEntry, now: string)
  {
    var d, m, checkpoint := entry.backupFile, next.backupFile, EntryIsFullLike(entry);
    && d in disk.archives && m in disk.archives && d in disk.records && m in disk.records
    && SelfNamed(disk.records)
    && (FinalName(checkpoint, m) == m || FinalName(checkpoint, m) !in disk.archives)
    && RepairedRecord(disk.records[d], disk.records[m], FinalName(checkpoint, m),
                      FinalKind(checkpoint, next.backupType), now).Some?
  }

  /** The t-th archive of the world is the entry's, and may be removed. */
  ghost predicate PlaceOf(site: Site, w: World, entry: HistoryEntry, t: nat)
  {
    t < |OfWorld(site, w.history)| && OfWorld(site, w.history)[t] == entry && Removable(site, w, t)
  }

  /** The recovery directory holds the removed archive, the successor it was to be merged into, and the metadata. */
  ghost predicate RecoveryHolds(site: Site, w: World, entry: HistoryEntry, r: Recovery, t: nat)
  {
    var chain := WorldHistory(site, w.history);
    && t < |chain| && site.scope.IsSame(chain[t], entry)
    && entry.backupFile in w.disk.archives && r.deleted == w.disk.archives[entry.backupFile]
    && r.records == w.disk.records && r.state == w.disk.state
    && if t + 1 == |chain| || EntryIsFullLike(chain[t + 1]) then r.target == None
       else chain[t + 1].backupFile in w.disk.archives && r.target == Some(w.disk.archives[chain[t + 1].backupFile])
  }

  /** Either the full effect; or history untouched and everything else as it was but for file times; or, only when
      putting things back failed, history untouched and a recovery directory with intact copies. */
  ghost predicate AllOrNothing(site: Site, w: World, entry: HistoryEntry, now: string, f: RemoveFaults, r: RemoveResult,
                               x: World)
  {
    && (r.changed ==> Removed(site, w, entry, now, f.merge.carryTime, x))
    && (r.changed ==> r.recovery.None?)
    && r.warning == !r.changed
    && (!r.changed ==> x.history == w.history)
    && (!r.changed && r.recovery.None? ==> Alike(x.disk, w.disk))
    && (r.recovery.Some? ==> !f.RecoverySucceeds() && exists t :: RecoveryHolds(site, w, entry, r.recovery.value, t))
  }

  /** In a state of the invariant an entry has one place, in the order of the history. */
  lemma FoundInOrder(site: Site, w: World, entry: HistoryEntry, t: nat)
    requires Inv(site, w) && t < |OfWorld(site, w.history)| && site.scope.IsSame(OfWorld(site, w.history)[t], entry)
    ensures WorldHistory(site, w.history) == OfWorld(site, w.history) && FoundAt(site, w, entry, t)
  {
    SortIsIdentity(OfWorld(site, w.history));
    OwnedUnique(site, w.history);
    forall i | 0 <= i < t ensures !site.scope.IsSame(OfWorld(site, w.history)[i], entry) {
      assert !site.scope.IsSame(OfWorld(site, w.history)[i], OfWorld(site, w.history)[t]);
    }
  }

  /** In a state of the invariant every removable archive is ready to be removed. */
  lemma PlaceIsReady(site: Site, w: World, entry: HistoryEntry, t: nat, now: string)
    requires Inv(site, w) && PlaceOf(site, w, entry, t)
    ensures Ready(site, w, entry, now)
  {
    OfWorldMembers(site, w.history, entry);
    FoundInOrder(site, w, entry, t);
    NextMerges(site, w.history, t);
    EntryReads(site, w.history, t);
    assert Link(w.disk, ChainOf(site, w), t);
    if MergesNext(ChainOf(site, w), t) {
      EntryReads(site, w.history, t + 1);
      assert Link(w.disk, ChainOf(site, w), t + 1);
      MergeGoesThrough(site, w, entry, t, now);
    } else {
      DirectGoesThrough(site, w, entry, t);
    }
    assert ReadyAt(site, w, entry, t, now);
  }

  lemma DirectGoesThrough(site: Site, w: World, entry: HistoryEntry, t: nat)
    requires Inv(site, w) && PlaceOf(site, w, entry, t) && !MergesNext(ChainOf(site, w), t)
    ensures entry.backupFile in w.disk.archives && Accepts(site.scope, w.history, HistoryChanges([entry], []))
  {
    RemovalBatchFits(site, w, t);
    BatchIsAccepted(site, w.history, t);
    NextMerges(site, w.history, t);
    EntryReads(site, w.history, t);
    assert Link(w.disk, ChainOf(site, w), t);
  }

  lemma MergeGoesThrough(site: Site, w: World, entry: HistoryEntry, t: nat, now: string)
    requires Inv(site, w) && PlaceOf(site, w, entry, t) && MergesNext(ChainOf(site, w), t)
    ensures var next := OfWorld(site, w.history)[t + 1];
            Mendable(w.disk, entry, next, now)
            && Accepts(site.scope, w.history, MergeChanges(entry, next))
  {
    RemovalBatchFits(site, w, t);
    BatchIsAccepted(site, w.history, t);
    NextMerges(site, w.history, t);
    MergedAsEntered(site, w, t);
    MergeableIsMendable(w.disk, ChainOf(site, w), t, entry, OfWorld(site, w.history)[t + 1], now);
  }

  /** The entries' types and names give the merged archive the name and type it has in the merged chain. */
  lemma MergedAsEntered(site: Site, w: World, t: nat)
    requires Inv(site, w) && Removable(site, w, t) && MergesNext(ChainOf(site, w), t)
    ensures Mergeable(w.disk, ChainOf(site, w), t)
    ensures EnteredAs(ChainOf(site, w), t, OfWorld(site, w.history)[t], OfWorld(site, w.history)[t + 1])
  {
    RemovableCases(site, w, t);
    EntryReads(site, w.history, t);
    EntryReads(site, w.history, t + 1);
  }

  ghost predicate EnteredAs(chain: seq<ArchiveName>, t: nat, entry: HistoryEntry, next: HistoryEntry)
  {
    && t + 1 < |chain| && entry.backupFile == chain[t] && next.backupFile == chain[t + 1]
    && FinalName(EntryIsFullLike(entry), next.backupFile) == MergedName(chain, t)
    && FinalKind(EntryIsFullLike(entry), next.backupType) == MergedKind(chain, t)
  }

  lemma MergeableIsMendable(d: Disk, chain: seq<ArchiveName>, t: nat, entry: HistoryEntry, next: HistoryEntry, now: string)
    requires Mergeable(d, chain, t) && EnteredAs(chain, t, entry, next)
    ensures Mendable(d, entry, next, now)
  {
    FinalIsNew(d, chain, t);
    ReadsAsItIs(d, chain, t);
    assert Link(d, chain, t) && Link(d, chain, t + 1);
  }

  lemma MergeDoneIsMerged(d: Disk, chain: seq<ArchiveName>, t: nat, entry: HistoryEntry, next: HistoryEntry, now: string,
                          carried: bool, after: Disk)
    requires Mergeable(d, chain, t) && EnteredAs(chain, t, entry, next) && MergeDone(entry, next, now, carried, d, after)
    ensures Alike(after, MergedDisk(d, chain, t, now)) && (carried ==> after == MergedDisk(d, chain, t, now))
  {}

  lemma FinalIsNew(d: Disk, chain: seq<ArchiveName>, t: nat)
    requires Mergeable(d, chain, t)
    ensures MergedName(chain, t) == chain[t + 1] || MergedName(chain, t) !in d.archives
  {
    var final := MergedName(chain, t);
    if final != chain[t + 1] && final in d.archives {
      assert final in InPlay(d);
      FinalIsFresh(d, chain, t, final);
    }
  }

  /** The disk effect of a completed merge. */
  ghost predicate MergeDone(entry: HistoryEntry, next: HistoryEntry, now: string, carried: bool, before: Disk, after: Disk)
  {
    var d, m, checkpoint := entry.backupFile, next.backupFile, EntryIsFullLike(entry);
    && d in before.archives && m in before.archives && d in before.records && m in before.records
    && var names := Renaming(d, m, FinalName(checkpoint, m));
       var repaired := RepairedRecord(before.records[d], before.records[m], names.final,
                                      FinalKind(checkpoint, next.backupType), now);
       && repaired.Some?
       && after.records == RepairedRecords(before.records, repaired.value, names)
       && after.state == RepairedState(before.state, names)
       && SameFiles(after.archives, MergedArchives(before.archives, names, before.records[m].changes.deleted))
       && (carried ==> after.archives == MergedArchives(before.archives, names, before.records[m].changes.deleted))
  }

  lemma {:induction false} SortMembers(site: Site, h: seq<HistoryEntry>)
    ensures |WorldHistory(site, h)| == |OfWorld(site, h)|
    ensures forall e | e in WorldHistory(site, h) :: e in OfWorld(site, h)
  {
    SortedMembers(OfWorld(site, h));
  }

  lemma {:induction false} SortedMembers(s: seq<HistoryEntry>)
    ensures multiset(SortedByTime(s)) == multiset(s)
    ensures |SortedByTime(s)| == |s|
    ensures forall e | e in SortedByTime(s) :: e in s
  {
    if s != [] {
      var n := |s| - 1;
      SortedMembers(s[..n]);
      InsertMembers(SortedByTime(s[..n]), s[n]);
      assert s == s[..n] + [s[n]];
    }
    assert |multiset(SortedByTime(s))| == |SortedByTime(s)|;
    forall e | e in SortedByTime(s) ensures e in s {
      assert e in multiset(SortedByTime(s));
    }
  }

  lemma {:induction false} InsertMembers(s: seq<HistoryEntry>, e: HistoryEntry)
    ensures multiset(InsertByTime(s, e)) == multiset(s) + multiset{e}
  {
    if s != [] {
      InsertMembers(s[..|s| - 1], e);
      assert s == s[..|s| - 1] + [s[|s| - 1]];
    }
  }

  /** A removal that reports success has its full effect on archives, metadata and history. */
  ghost predicate FullyRemoved(site: Site, before: World, entry: HistoryEntry, now: string, carried: bool, after: World)
    requires Inv(site, before)
  {
    exists t: nat | t < |OfWorld(site, before.history)| && OfWorld(site, before.history)[t] == entry && Removable(site, before, t) ::
      && Alike(after.disk, AfterRemove(site, before, t, now).disk)
      && after.history == AfterRemove(site, before, t, now).history
      && (carried ==> after == AfterRemove(site, before, t, now))
  }

  lemma RemovalIsFull(site: Site, w: World, t: nat, now: string, carried: bool, after: World)
    requires Inv(site, w) && Removable(site, w, t)
    requires Alike(after.disk, AfterRemove(site, w, t, now).disk) && after.history == AfterRemove(site, w, t, now).history
    requires carried ==> after.disk == AfterRemove(site, w, t, now).disk
    ensures FullyRemoved(site, w, OfWorld(site, w.history)[t], now, carried, after)
  {}

  lemma SameIdentity(scope: Scope, a: HistoryEntry, b: HistoryEntry, e: HistoryEntry)
    requires scope.IsSame(a, b)
    ensures NamedIn(scope, e, [a]) <==> NamedIn(scope, e, [b])
  {
    assert a in [a] && b in [b];
  }

  /** Deleting another copy of an entry deletes the entry. */
  lemma {:induction false} SameDeletion(scope: Scope, entries: seq<HistoryEntry>, a: HistoryEntry, b: HistoryEntry)
    requires scope.IsSame(a, b)
    ensures Undeleted(scope, entries, [a]) == Undeleted(scope, entries, [b])
  {
    if entries != [] {
      SameDeletion(scope, entries[..|entries| - 1], a, b);
      SameIdentity(scope, a, b, entries[|entries| - 1]);
    }
  }

  lemma DeletableIsMine(scope: Scope, h: seq<HistoryEntry>, mine: HistoryEntry, entry: HistoryEntry)
    requires UniqueIdentities(scope, h) && mine in h && scope.IsSame(mine, entry) && Deletable(scope, h, entry)
    ensures !mine.isImportant
  {
    var i :| 0 <= i < |h| && h[i] == mine;
    assert LocatedAt(scope, h, entry, Located(scope, h, entry).value);
  }

  lemma DirectIsFull(site: Site, w: World, entry: HistoryEntry, t: nat, now: string, carried: bool, x: World)
    requires Inv(site, w) && FoundAt(site, w, entry, t) && RemovedAt(site, w, entry, t, now, carried, x)
    requires WorldHistory(site, w.history) == OfWorld(site, w.history) && !MergesNext(ChainOf(site, w), t)
    ensures FullyRemoved(site, w, OfWorld(site, w.history)[t], now, carried, x)
  {
    var mine := OfWorld(site, w.history)[t];
    NextMerges(site, w.history, t);
    OfWorldMembers(site, w.history, mine);
    assert entry in HistoryChanges([entry], []).deletions;
    DeletableIsMine(site.scope, w.history, mine, entry);
    assert Removable(site, w, t);
    RemovalBatchFits(site, w, t);
    BatchResult(site, w.history, t);
    SameDeletion(site.scope, w.history, mine, entry);
    RemovalIsFull(site, w, t, now, carried, x);
  }

  /** A request that reads full-like merges away only an archive that does. */
  lemma RequestReads(site: Site, w: World, entry: HistoryEntry, t: nat, now: string, carried: bool, after: Disk)
    requires Inv(site, w) && t + 1 < |OfWorld(site, w.history)| && site.scope.IsSame(OfWorld(site, w.history)[t], entry)
    requires MergeDone(entry, OfWorld(site, w.history)[t + 1], now, carried, w.disk, after)
    ensures EntryIsFullLike(entry) <==> EntryIsFullLike(OfWorld(site, w.history)[t])
  {
    EntryReads(site, w.history, t);
    DoneHadList(entry, OfWorld(site, w.history)[t + 1], now, carried, w.disk, after);
    assert Link(w.disk, ChainOf(site, w), t);
  }

  lemma MergeIsFull(site: Site, w: World, entry: HistoryEntry, t: nat, now: string, carried: bool, x: World)
    requires Inv(site, w) && FoundAt(site, w, entry, t) && RemovedAt(site, w, entry, t, now, carried, x)
    requires WorldHistory(site, w.history) == OfWorld(site, w.history) && MergesNext(ChainOf(site, w), t)
    ensures FullyRemoved(site, w, OfWorld(site, w.history)[t], now, carried, x)
  {
    var mine := OfWorld(site, w.history);
    NextMerges(site, w.history, t);
    RequestReads(site, w, entry, t, now, carried, x.disk);
    OfWorldMembers(site, w.history, mine[t]);
    assert entry in MergeChanges(entry, mine[t + 1]).deletions;
    DeletableIsMine(site.scope, w.history, mine[t], entry);
    MergeOfMine(site, w, mine[t], t, now, carried, x);
    SameDeletion(site.scope, RenamedInPlace(site.scope, w.history, MergeChanges(entry, mine[t + 1]).renames), mine[t], entry);
    RemovalIsFull(site, w, t, now, carried, x);
  }

  lemma MergeOfMine(site: Site, w: World, entry: HistoryEntry, t: nat, now: string, carried: bool, x: World)
    requires Inv(site, w) && t + 1 < |OfWorld(site, w.history)| && OfWorld(site, w.history)[t] == entry
    requires var next := OfWorld(site, w.history)[t + 1];
      && !entry.isImportant && !next.isImportant && !EntryIsFullLike(next)
      && MergeDone(entry, next, now, carried, w.disk, x.disk)
    ensures Removable(site, w, t)
    ensures Alike(x.disk, AfterRemove(site, w, t, now).disk) && (carried ==> x.disk == AfterRemove(site, w, t, now).disk)
    ensures var changes := MergeChanges(entry, OfWorld(site, w.history)[t + 1]);
      AfterRemove(site, w, t, now).history
        == Undeleted(site.scope, RenamedInPlace(site.scope, w.history, changes.renames), [entry])
  {
    DoneIsRemovable(site, w, t, now, carried, x.disk);
    RemovalBatchFits(site, w, t);
    BatchResult(site, w.history, t);
    NextMerges(site, w.history, t);
    MergedAsEntered(site, w, t);
    MergeDoneIsMerged(w.disk, ChainOf(site, w), t, entry, OfWorld(site, w.history)[t + 1], now, carried, x.disk);
  }

  /** In a state of the invariant, whatever copy of the entry the request carried, a removal that reports success is
      the full removal of the history's own entry. */
  lemma RemovedIsFull(site: Site, w: World, entry: HistoryEntry, now: string, carried: bool, x: World)
    requires Inv(site, w) && Removed(site, w, entry, now, carried, x)
    ensures exists e :: e in w.history && site.scope.IsSame(e, entry) && FullyRemoved(site, w, e, now, carried, x)
  {
    var t: nat :| FoundAt(site, w, entry, t) && RemovedAt(site, w, entry, t, now, carried, x);
    SortIsIdentity(OfWorld(site, w.history));
    if MergesNext(ChainOf(site, w), t) {
      MergeIsFull(site, w, entry, t, now, carried, x);
    } else {
      DirectIsFull(site, w, entry, t, now, carried, x);
    }
    OfWorldMembers(site, w.history, OfWorld(site, w.history)[t]);
  }

  /** A merge that was done had everything the program asks for. */
  lemma DoneIsRemovable(site: Site, w: World, t: nat, now: string, carried: bool, after: Disk)
    requires Inv(site, w) && t + 1 < |OfWorld(site, w.history)|
    requires var mine := OfWorld(site, w.history);
      && !mine[t].isImportant && !mine[t + 1].isImportant && !EntryIsFullLike(mine[t + 1])
      && MergeDone(mine[t], mine[t + 1], now, carried, w.disk, after)
    ensures Removable(site, w, t) && MergesNext(ChainOf(site, w), t)
  {
    EntryReads(site, w.history, t);
    NextMerges(site, w.history, t);
    DoneHadList(OfWorld(site, w.history)[t], OfWorld(site, w.history)[t + 1], now, carried, w.disk, after);
  }

  lemma DoneHadList(entry: HistoryEntry, next: HistoryEntry, now: string, carried: bool, before: Disk, after: Disk)
    requires MergeDone(entry, next, now, carried, before, after)
    ensures entry.backupFile in before.records
    ensures EntryIsFullLike(entry) ==> before.records[entry.backupFile].fullList != []
  {}

  lemma {:induction false} OwnedUnique(site: Site, h: seq<HistoryEntry>)
    requires UniqueIdentities(site.scope, h)
    ensures UniqueIdentities(site.scope, OfWorld(site, h))
  {
    if h != [] {
      var n := |h| - 1;
      OwnedUnique(site, h[..n]);
      forall e | e in OfWorld(site, h[..n]) ensures !site.scope.IsSame(e, h[n]) {
        OfWorldMembers(site, h[..n], e);
      }
    }
  }

  lemma {:induction false} InsertUnique(scope: Scope, s: seq<HistoryEntry>, e: HistoryEntry)
    requires UniqueIdentities(scope, s) && forall x | x in s :: !scope.IsSame(x, e)
    ensures UniqueIdentities(scope, InsertByTime(s, e))
  {
    if s != [] {
      var n := |s| - 1;
      InsertUnique(scope, s[..n], e);
      InsertMembers(s[..n], e);
      forall x | x in InsertByTime(s[..n], e) ensures !scope.IsSame(x, s[n]) {
        assert x in multiset(s[..n]) + multiset{e};
        OthersDiffer(scope, s, e, x);
      }
    }
  }

  lemma {:induction false} OthersDiffer(scope: Scope, s: seq<HistoryEntry>, e: HistoryEntry, x: HistoryEntry)
    requires s != [] && UniqueIdentities(scope, s) && !scope.IsSame(s[|s| - 1], e) && (x == e || x in s[..|s| - 1])
    ensures !scope.IsSame(x, s[|s| - 1])
  {
    if x != e {
      var i :| 0 <= i < |s| - 1 && s[..|s| - 1][i] == x;
      assert !scope.IsSame(s[i], s[|s| - 1]);
    }
  }

  lemma {:induction false} SortedUnique(scope: Scope, s: seq<HistoryEntry>)
    requires UniqueIdentities(scope, s)
    ensures UniqueIdentities(scope, SortedByTime(s))
  {
    if s != [] {
      var n := |s| - 1;
      SortedUnique(scope, s[..n]);
      SortedMembers(s[..n]);
      InsertUnique(scope, SortedByTime(s[..n]), s[n]);
    }
  }

  lemma NeighboursDiffer(site: Site, h: seq<HistoryEntry>, t: nat)
    requires UniqueIdentities(site.scope, h) && t + 1 < |WorldHistory(site, h)|
    ensures WorldHistory(site, h)[t].backupFile != WorldHistory(site, h)[t + 1].backupFile
  {
    OwnedUnique(site, h);
    SortedUnique(site.scope, OfWorld(site, h));
    SortMembers(site, h);
    OfWorldMembers(site, h, WorldHistory(site, h)[t]);
    OfWorldMembers(site, h, WorldHistory(site, h)[t + 1]);
  }
}
