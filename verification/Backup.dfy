/** Making a backup: what kind, of which files, and the commit of archive, record, state and history. */
module Backup {
  import opened Names
  import opened Ordering
  import opened Delta
  import opened Chain
  import opened Repair
  import opened History
  import opened Removal
  import opened Scan
  import opened Vault

  datatype BackupConfig = BackupConfig(mode: int, skipIfUnchanged: bool, maxSmart: int)

  // ---- the limit on Smart archives ----

  ghost predicate HasFullLike(names: seq<ArchiveName>)
  {
    exists i :: 0 <= i < |names| && ReadsFullLike(names[i])
  }

  /** Names that read Smart after the last one that reads full-like, in a listing in time order. */
  function SmartRun(order: seq<ArchiveName>): nat
  {
    if order == [] || ReadsFullLike(order[|order| - 1]) then 0
    else SmartRun(order[..|order| - 1]) + if ReadsSmart(order[|order| - 1]) then 1 else 0
  }

  ghost predicate LimitReached(order: seq<ArchiveName>, limit: int)
  {
    HasFullLike(order) && SmartRun(order) >= limit
  }

  method SmartLimitReached(order: seq<ArchiveName>, limit: int) returns (reached: bool)
    ensures reached == LimitReached(order, limit)
  {
    var smartCount, fullFound := 0, false;
    var i := |order|;
    assert order[..i] == order;
    while i > 0 && !fullFound
      invariant 0 <= i <= |order|
      invariant fullFound ==> i < |order| && ReadsFullLike(order[i])
      invariant forall k | i <= k < |order| && (k > i || !fullFound) :: !ReadsFullLike(order[k])
      invariant SmartRun(order) == smartCount + if fullFound then 0 else SmartRun(order[..i])
    {
      i := i - 1;
      assert order[..i + 1][..i] == order[..i];
      if ReadsFullLike(order[i]) {
        fullFound := true;
      } else if ReadsSmart(order[i]) {
        smartCount := smartCount + 1;
      }
    }
    reached := fullFound && smartCount >= limit;
  }

  method FullBackupMissing(names: seq<ArchiveName>) returns (missing: bool)
    ensures missing == !HasFullLike(names)
  {
    missing := true;
    for i := 0 to |names|
      invariant missing == !HasFullLike(names[..i])
    {
      assert forall k | 0 <= k < i :: names[..i + 1][k] == names[..i][k];
      if ReadsFullLike(names[i]) {
        assert names[..i + 1][i] == names[i];
        assert HasFullLike(names[..i + 1]);
        assert names[i] == names[..i + 1][i];
        return false;
      }
    }
    assert names[..|names|] == names;
  }

  // ---- the decision ----

  datatype Decision =
    | NothingToDo
    | ScanError
    | NoType
    | Make(kind: Kind, files: seq<Path>, marker: bool, basedOn: ArchiveName, current: States, changes: ChangeSet)

  /** `missing` and `limit` say that a full backup is required before the scan is looked at. */
  function Decide(cfg: BackupConfig, missing: bool, limit: bool, scan: ScanResult, blacklisted: Path -> bool): Decision
  {
    if scan.status == NoChange && cfg.skipIfUnchanged then NothingToDo
    else if scan.status == ScanFailed then ScanError
    else
      var force := scan.status == MetadataInvalid || scan.status == BaseBackupMissing || limit || missing;
      var current := FilterStates(scan.current, blacklisted);
      var changes := FilterChanges(scan.changes, blacklisted);
      var files := if cfg.mode == 2 && !force then Kept(scan.changed, Allowed(blacklisted)) else Listing(current.Keys);
      if !force && changes == NO_CHANGES && (cfg.skipIfUnchanged || cfg.mode == 2) then NothingToDo
      else
        var deletionOnly := changes.deleted != [] && files == [];
        if files == [] && !(cfg.mode == 3 || (cfg.mode == 2 && deletionOnly && !force)) then NothingToDo
        else if (cfg.mode == 1 || force) && cfg.mode != 3 then
          Make(Full, files, false, NoArchive, current, changes)
        else if cfg.mode == 2 then
          var base := if scan.basedOn == NoArchive then scan.last else scan.basedOn;
          if base == NoArchive then Make(Full, files, false, NoArchive, current, changes)
          else Make(Smart, files, deletionOnly, base, current, changes)
        else if cfg.mode == 3 then Make(Overwrite, files, files == [], NoArchive, current, changes)
        else NoType
  }

  // ---- the commit ----

  datatype NewBackup = NewBackup(
    name: ArchiveName,
    archive: Archive,
    basedOn: ArchiveName,
    previous: ArchiveName,
    current: States,
    changes: ChangeSet,
    createdAt: string,
    localTime: string,
    entry: HistoryEntry)

  function RecordOf(b: NewBackup): ChangeRecord
  {
    if IsSmart(b.name.KindOf()) then
      ChangeRecord(b.name, Smart, if b.basedOn == NoArchive then b.name else b.basedOn, b.previous,
                   b.createdAt, b.changes, [])
    else
      var full := Listing(b.current.Keys);
      ChangeRecord(b.name, b.name.KindOf(), b.name, NoArchive, b.createdAt, ChangeSet(full, [], []), full)
  }

  function StateOf(b: NewBackup): MetadataState
  {
    MetadataState(b.localTime, b.name, RecordOf(b).basedOn, b.current)
  }

  function Committed(w: World, b: NewBackup): World
  {
    World(Disk(w.disk.archives[b.name := b.archive], w.disk.records[b.name := RecordOf(b)], Some(StateOf(b))),
          w.history + [b.entry])
  }

  /** Names that the saved state or the history mentions and no archive carries. */
  function Absent(w: World): set<ArchiveName>
  {
    ((set e | e in w.history :: e.backupFile)
     + (if w.disk.state.Some? then {w.disk.state.value.last, w.disk.state.value.basedOn} else {}))
    - w.disk.archives.Keys
  }

  datatype CommitFaults = CommitFaults(
    create: bool,
    deploy: bool,
    snapshotState: bool,
    saveRecord: bool,
    saveState: bool,
    undoRecord: bool,
    cleanup: bool,
    addHistory: bool,
    restoreState: bool,
    deleteRecord: bool,
    removeArchive: bool)
  {
    predicate AllSucceed() { create && deploy && snapshotState && saveRecord && saveState && addHistory }
    predicate AllButHistory() { create && deploy && snapshotState && saveRecord && saveState && !addHistory }
    predicate RecoverySucceeds() { restoreState && deleteRecord && removeArchive }
    /** Everything was written but the history, and the old state could not be put back. */
    predicate LeavesState() { AllButHistory() && !restoreState }
  }

  datatype CommitOutcome = Created | Failed(rollbackIncomplete: bool)

  // ---- the single changes of a commit ----

  /** At most one of the four stores differs: the archive or the record of that name, the state, or
      one more entry at the end of the history. */
  ghost predicate OneChange(n: ArchiveName, x: World, y: World)
  {
    || (y == x.(disk := x.disk.(archives := y.disk.archives)) && y.disk.archives - {n} == x.disk.archives - {n})
    || (y == x.(disk := x.disk.(records := y.disk.records)) && y.disk.records - {n} == x.disk.records - {n})
    || y == x.(disk := x.disk.(state := y.disk.state))
    || (y == x.(history := y.history) && |y.history| == |x.history| + 1 && x.history <= y.history)
  }

  /** `trace` lists the store after every single change on the way from `before` to `after`. */
  ghost predicate Trail(n: ArchiveName, before: World, trace: seq<World>, after: World)
  {
    var points := [before] + trace;
    && points[|trace|] == after
    && forall i | 0 <= i < |trace| :: OneChange(n, points[i], points[i + 1])
  }

  lemma TrailStep(n: ArchiveName, before: World, trace: seq<World>, x: World, y: World)
    requires Trail(n, before, trace, x) && OneChange(n, x, y)
    ensures Trail(n, before, trace + [y], y)
  {
    var points, longer := [before] + trace, [before] + (trace + [y]);
    forall i | 0 <= i < |trace| + 1 ensures OneChange(n, longer[i], longer[i + 1]) {
      if i < |trace| {
        assert longer[i] == points[i] && longer[i + 1] == points[i + 1];
      } else {
        assert longer[i] == points[i] == x;
      }
    }
  }

  lemma {:induction false} TrailJoin(n: ArchiveName, before: World, trace: seq<World>, x: World, more: seq<World>, y: World)
    requires Trail(n, before, trace, x) && Trail(n, x, more, y)
    ensures Trail(n, before, trace + more, y)
  {
    var points, rest, all := [before] + trace, [x] + more, [before] + (trace + more);
    forall i | 0 <= i < |trace + more| ensures OneChange(n, all[i], all[i + 1]) {
      if i < |trace| {
        assert all[i] == points[i] && all[i + 1] == points[i + 1];
      } else {
        assert all[i] == rest[i - |trace|] && all[i + 1] == rest[i + 1 - |trace|];
      }
    }
    assert all[|trace + more|] == rest[|more|];
  }

  /** Two files saved as one: the record first, then the state; a failed state write takes the
      record back. */
  method SaveMetadata(store: BackupStore, b: NewBackup, f: CommitFaults) returns (ok: bool, ghost trace: seq<World>)
    requires b.name !in store.records
    modifies store`records, store`state
    ensures ok <==> f.saveRecord && f.saveState
    ensures ok ==> store.records == old(store.records)[b.name := RecordOf(b)] && store.state == Some(StateOf(b))
    ensures !ok ==> store.state == old(store.state)
    ensures !ok ==> store.records == (if f.saveRecord && !f.undoRecord then old(store.records)[b.name := RecordOf(b)]
                                      else old(store.records))
    ensures Trail(b.name, old(store.Contents()), trace, store.Contents())
    ensures forall x | x in trace ::
              x.history == old(store.history) && x.disk.archives == old(store.archives)
              && (x.disk.state == old(store.state) || x.disk.state == Some(StateOf(b)))
  {
    ghost var w := store.Contents();
    trace := [];
    ok := f.saveRecord;
    if !ok { return; }
    store.records := store.records[b.name := RecordOf(b)];
    trace := trace + [store.Contents()];
    ghost var x := store.Contents();
    TrailStep(b.name, w, [], w, x);
    ok := f.saveState;
    if ok {
      store.state := Some(StateOf(b));
    } else if f.undoRecord {
      store.records := store.records - {b.name};
    } else {
      return;
    }
    TrailStep(b.name, w, trace, x, store.Contents());
    trace := trace + [store.Contents()];
  }

  /** What a backup that did not get into history may leave: an archive or a record that nothing
      refers to, and the new state, next to both, exactly when it could not be taken back. */
  ghost predicate Uncommitted(w: World, b: NewBackup, stateLeft: bool, x: World)
  {
    && x.history == w.history
    && (x.disk.archives == w.disk.archives || x.disk.archives == w.disk.archives[b.name := b.archive])
    && (x.disk.records == w.disk.records || x.disk.records == w.disk.records[b.name := RecordOf(b)])
    && x.disk.state == (if stateLeft then Some(StateOf(b)) else w.disk.state)
    && (stateLeft ==> b.name in x.disk.archives && b.name in x.disk.records)
  }

  /** Where the store can be between the first and the last change of a commit: once the archive is
      gone, neither state nor history speaks of it. */
  ghost predicate Within(w: World, b: NewBackup, x: World)
  {
    && (x.history == w.history || x.history == w.history + [b.entry])
    && (x.disk.state == w.disk.state || x.disk.state == Some(StateOf(b)))
    && (|| x.disk.archives == w.disk.archives[b.name := b.archive]
        || (x.disk.archives == w.disk.archives && x.history == w.history && x.disk.state == w.disk.state))
  }

  lemma WithinNamesNothingAbsent(w: World, b: NewBackup, x: World)
    requires Within(w, b, x)
    requires b.entry.backupFile == b.name && RecordOf(b).basedOn in w.disk.archives.Keys + {b.name}
    ensures Absent(x) <= Absent(w)
  {
    forall n | n in Absent(x) ensures n in Absent(w) {
      if e :| e in x.history && e.backupFile == n {
        assert e == b.entry || e in w.history;
      }
    }
  }

  /** Takes a commit back after the history could not be saved: state, then record, then archive. */
  method RollBack(store: BackupStore, b: NewBackup, before: Option<MetadataState>, f: CommitFaults, ghost w: World)
    returns (r: CommitOutcome, ghost trace: seq<World>)
    requires w.disk.state == before && b.name !in w.disk.archives && b.name !in w.disk.records
    requires store.archives == w.disk.archives[b.name := b.archive] && store.history == w.history
    requires store.records == w.disk.records[b.name := RecordOf(b)] && store.state == Some(StateOf(b))
    modifies store`archives, store`records, store`state
    ensures r == Failed(!f.RecoverySucceeds())
    ensures f.RecoverySucceeds() ==> store.Contents() == w
    ensures store.archives == w.disk.archives || store.archives == w.disk.archives[b.name := b.archive]
    ensures store.records == w.disk.records || store.records == w.disk.records[b.name := RecordOf(b)]
    ensures store.state == if f.restoreState then before else Some(StateOf(b))
    ensures !f.restoreState ==> b.name in store.archives && b.name in store.records
    ensures Trail(b.name, old(store.Contents()), trace, store.Contents())
    ensures forall x | x in trace :: Within(w, b, x)
    ensures Within(w, b, store.Contents())
  {
    ghost var x0 := store.Contents();
    trace := [];
    r := Failed(true);
    if !f.restoreState { return; }
    store.state := before;
    ghost var x1 := store.Contents();
    TrailStep(b.name, x0, trace, x0, x1);
    trace := trace + [x1];
    if !f.deleteRecord { return; }
    store.records := store.records - {b.name};
    ghost var x2 := store.Contents();
    TrailStep(b.name, x0, trace, x1, x2);
    trace := trace + [x2];
    if !f.removeArchive { return; }
    store.archives := store.archives - {b.name};
    TrailStep(b.name, x0, trace, x2, store.Contents());
    trace := trace + [store.Contents()];
    r := Failed(false);
  }

  /** The commit after the archive is in place. */
  method CommitMetadata(store: BackupStore, b: NewBackup, f: CommitFaults, ghost w: World)
    returns (r: CommitOutcome, ghost trace: seq<World>)
    requires b.name !in w.disk.archives && b.name !in w.disk.records
    requires store.Contents() == w.(disk := w.disk.(archives := w.disk.archives[b.name := b.archive]))
    requires f.create && f.deploy && f.snapshotState
    modifies store
    ensures r == if f.AllSucceed() then Created else Failed(f.AllButHistory() && !f.RecoverySucceeds())
    ensures r == Created ==> store.Contents() == Committed(w, b)
    ensures r != Created ==> Uncommitted(w, b, f.LeavesState(), store.Contents())
    ensures f.AllButHistory() && f.RecoverySucceeds() ==> store.Contents() == w
    ensures Trail(b.name, old(store.Contents()), trace, store.Contents())
    ensures forall x | x in trace :: Within(w, b, x)
    ensures Within(w, b, store.Contents())
  {
    ghost var x0 := store.Contents();
    var before := store.state;
    var saved;
    saved, trace := SaveMetadata(store, b, f);
    ghost var x1 := store.Contents();
    r := Failed(false);
    if !saved {
      if f.cleanup {
        store.archives := store.archives - {b.name};
        TrailStep(b.name, x0, trace, x1, store.Contents());
        trace := trace + [store.Contents()];
      }
    } else if f.addHistory {
      store.history := store.history + [b.entry];
      TrailStep(b.name, x0, trace, x1, store.Contents());
      trace := trace + [store.Contents()];
      r := Created;
    } else {
      ghost var steps;
      r, steps := RollBack(store, b, before, f, w);
      TrailJoin(b.name, x0, trace, x1, steps, store.Contents());
      trace := trace + steps;
    }
  }

  method CommitSteps(store: BackupStore, b: NewBackup, f: CommitFaults) returns (r: CommitOutcome, ghost trace: seq<World>)
    requires b.name !in store.archives && b.name !in store.records
    modifies store
    ensures r == if f.AllSucceed() then Created else Failed(f.AllButHistory() && !f.RecoverySucceeds())
    ensures r == Created ==> store.Contents() == Committed(old(store.Contents()), b)
    ensures r != Created ==> Uncommitted(old(store.Contents()), b, f.LeavesState(), store.Contents())
    ensures f.AllButHistory() && f.RecoverySucceeds() ==> store.Contents() == old(store.Contents())
    ensures Trail(b.name, old(store.Contents()), trace, store.Contents())
    ensures forall x | x in trace :: Within(old(store.Contents()), b, x)
    ensures Within(old(store.Contents()), b, store.Contents())
  {
    ghost var w := store.Contents();
    trace := [];
    r := Failed(false);
    if !f.create || !f.deploy { return; }
    store.archives := store.archives[b.name := b.archive];
    ghost var x := store.Contents();
    TrailStep(b.name, w, trace, w, x);
    trace := trace + [x];
    if !f.snapshotState { return; }
    ghost var steps;
    r, steps := CommitMetadata(store, b, f, w);
    TrailJoin(b.name, w, trace, x, steps, store.Contents());
    trace := trace + steps;
  }

  /** Commits a finished archive; a failure is rolled back in reverse. `trace` lists the store after
      every single change: at no point do state or history come to name an absent archive. */
  method Commit(store: BackupStore, b: NewBackup, f: CommitFaults) returns (r: CommitOutcome, ghost trace: seq<World>)
    requires b.name !in store.archives && b.name !in store.records
    requires b.entry.backupFile == b.name
    requires RecordOf(b).basedOn in store.archives.Keys + {b.name}
    modifies store
    ensures r == if f.AllSucceed() then Created else Failed(f.AllButHistory() && !f.RecoverySucceeds())
    ensures r == Created ==> store.Contents() == Committed(old(store.Contents()), b)
    ensures r != Created ==> Uncommitted(old(store.Contents()), b, f.LeavesState(), store.Contents())
    ensures f.AllButHistory() && f.RecoverySucceeds() ==> store.Contents() == old(store.Contents())
    ensures Trail(b.name, old(store.Contents()), trace, store.Contents())
    ensures forall x | x in trace :: Absent(x) <= Absent(old(store.Contents()))
    ensures Absent(store.Contents()) <= Absent(old(store.Contents()))
  {
    ghost var w := store.Contents();
    r, trace := CommitSteps(store, b, f);
    forall x | x in trace ensures Absent(x) <= Absent(w) {
      WithinNamesNothingAbsent(w, b, x);
    }
    WithinNamesNothingAbsent(w, b, store.Contents());
  }
}
